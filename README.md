# snap-trend dashboard logic in Dafny

A verified model of the little logic that the snap-trend analytics dashboard
carries under its mock data: the live-feed simulation in the `Dashboard`
component and the severity and threshold classifiers of the alert, trending
and system-health panels.

- `Dashboard` (dashboard.dfy): the four state cells of the dashboard as the
  class `LiveFeed`. `RunEffect` is the effect body that seeds three trending
  products, a 30-sample activity window and two alerts. `ToggleLive` is the
  Pause/Resume button. `Tick` is one firing of the 3-second interval. The list
  updates are pure functions (`ShiftAppend`, `Prepend`). `Slide` and
  `InjectAll` replay many ticks and give the closed forms of what they do.
  Random draws are parameters with their stated ranges. Timestamps are the
  millisecond counts the component formats with `toISOString`.
- `AlertsPanel` (alerts_panel.dfy): badge variant, icon and what the panel
  renders for a list of alerts.
- `AlertCenter` (alert_center.dfy): alert styling tier, status icon, and the
  section's fixed alerts with their hard-coded header counts.
- `TrendingMonitor` (trending_monitor.dfy): status style and confidence band.
  Also the sort and category menus as the class `MonitorState`, and the
  rendered card list.
- `SystemHealth` (system_health.dfy): text colour, badge and progress bar of
  a metric, and the fixed metrics.
- `Text` (text.dfy): the decimal numeral a template literal writes for a
  non-negative integer, with its round trip. `Icons` (icons.dfy): the icons.

Tiers and styles are datatype constructors rather than CSS class strings.

What the code does, as the proofs show it:

- Every change of the live flag re-runs the seeding effect. Pausing therefore
  replaces the window and the trending list with fresh seed data. It does not
  freeze them (`LiveFeed.ToggleLive`).
- The window update never makes a non-empty window longer. A window that
  started empty would hold only the latest sample forever
  (`EmptyWindowNeverFills`). The seeding effect always fills it to 30 first,
  so it stays at 30 (`SlideKeepsLatest`, `LiveFeed.Valid`).
- All four system metrics are declared `healthy`. Memory (62.8 against a
  threshold of 85, above 70% = 59.5) is still drawn orange. The other three
  are green (`SeedMetricTiers`).

## Model

| member | source | states |
|---|---|---|
| `Dashboard.LiveFeed.constructor` | src/components/Dashboard.tsx:40-43 | initial state: three empty lists, live |
| `Dashboard.LiveFeed.RunEffect` | src/components/Dashboard.tsx:108-110 | seeding sets 3 products, the 30-sample window and the 2 alerts, establishes the feed invariant and leaves the flag alone |
| `Dashboard.LiveFeed.ToggleLive` | src/components/Dashboard.tsx:170 | the button flips the flag and, through the effect's dependency on it, re-seeds all three lists |
| `Dashboard.LiveFeed.Tick` | src/components/Dashboard.tsx:113-143 | paused: nothing changes; live: the window is shifted and extended by the new sample, and a product is prepended exactly when the draw exceeds 0.95; alerts and flag never change; the feed invariant (window of 30 well-formed samples, 3 to 5 trending entries, the 2 seeded alerts) is preserved |
| `Dashboard.NewSample` | src/components/Dashboard.tsx:118-123 | a new sample has 200..699 views, 10..59 carts, product p1, stamped now |
| `Dashboard.NewProduct` | src/components/Dashboard.tsx:129-138 | an injected product has activity 400..699, baseline 20..69, category Electronics, and an id of "p" then digits that read back as the injection time |
| `Dashboard.NewProductIdsDistinct` | src/components/Dashboard.tsx:130 | products injected at different instants get different ids |
| `Dashboard.ShiftAppend` | src/components/Dashboard.tsx:116-125 | the window keeps its length (an empty one becomes one sample long), every kept sample moves one slot left, and the last slot holds the new sample |
| `Dashboard.Prepend` | src/components/Dashboard.tsx:140 | the new product heads the list, followed by at most 4 previous entries in their order; length at most 5 |
| `Dashboard.SlideKeepsLatest` | src/components/Dashboard.tsx:113-125 | FIFO over many ticks: a non-empty window of n samples fed xs holds exactly the last n of w + xs |
| `Dashboard.ThirtyFiveTicks` | src/components/Dashboard.tsx:113-125 | a full window after 35 live ticks holds the samples of ticks 6 to 35 |
| `Dashboard.EmptyWindowNeverFills` | src/components/Dashboard.tsx:117-118 | an empty window fed any samples holds only the latest one |
| `Dashboard.InjectAllNewestFirst` | src/components/Dashboard.tsx:140 | after one or more injections the list is the injected products newest first, then the old entries, cut to 5 |
| `Dashboard.SeedWindow` | src/components/Dashboard.tsx:80-85 | the seeded window has 30 well-formed samples one minute apart, the last stamped now |
| `Dashboard.SeedProducts` | src/components/Dashboard.tsx:47-78 | three seeded products, all stamped now |
| `Dashboard.SeedAlerts` | src/components/Dashboard.tsx:87-106 | two seeded alerts |
| `Dashboard.SeedAlertsRender` | src/components/Dashboard.tsx:87-106 | the seeded alerts render with a count badge of 2, one destructive and one default variant |
| `Text.Decimal` | src/components/Dashboard.tsx:130-131 | a rendered number is a non-empty string of digits without a leading zero |
| `Text.DecimalRoundTrip` | src/components/Dashboard.tsx:130 | reading back a rendered number gives the number |
| `Text.DecimalInjective` | src/components/Dashboard.tsx:130 | two numbers render alike exactly when they are equal |
| `AlertsPanel.AlertVariant` | src/components/AlertsPanel.tsx:21-25 | destructive iff critical type or severity >= 8; default iff not that and trending type or severity >= 6; secondary for everything else |
| `AlertsPanel.VariantMonotoneInSeverity` | src/components/AlertsPanel.tsx:21-25 | for a fixed type, a higher severity never gives a lower variant |
| `AlertsPanel.CriticalTypeDominates` | src/components/AlertsPanel.tsx:22 | the critical type is destructive at any severity and no type ranks above it |
| `AlertsPanel.AlertIcon` | src/components/AlertsPanel.tsx:27-36 | critical gives the triangle, trending the bell, any other type the clock |
| `AlertsPanel.Render` | src/components/AlertsPanel.tsx:44-101 | count badge shown iff there are alerts, showing their number; empty-state message iff there are none; one row per alert in order with its icon and variant; only critical cards are highlighted |
| `AlertCenter.GetAlertConfig` | src/components/sections/AlertCenter.tsx:90-110 | alert tier (red icon, orange glow) for critical or severity >= 8; else cyber tier for trending or severity >= 6; else the orange tier, the only one without a glow |
| `AlertCenter.ConfigAgreesWithPanelVariant` | src/components/sections/AlertCenter.tsx:90-110 | the alert center's tier and the live panel's variant agree tier for tier on every input |
| `AlertCenter.GetStatusIcon` | src/components/sections/AlertCenter.tsx:112-123 | active: pulsing red triangle; monitoring: bell; resolved: check; anything else: clock |
| `AlertCenter.HeaderBadgesMatchSeed` | src/components/sections/AlertCenter.tsx:135-145 | the hard-coded header counts (2 critical, 1 trending, 1 resolved) match the listed alerts |
| `AlertCenter.SeedAlertTiers` | src/components/sections/AlertCenter.tsx:15-88 | the four listed alerts get the alert, alert, cyber and orange tiers |
| `TrendingMonitor.GetStatusColor` | src/components/sections/TrendingMonitor.tsx:104-111 | critical, trending and cooling each get their own style; every other status the muted default |
| `TrendingMonitor.GetConfidenceColor` | src/components/sections/TrendingMonitor.tsx:113-118 | green iff c >= 95, cyan iff 85 <= c < 95, orange iff 75 <= c < 85, red iff c < 75 |
| `TrendingMonitor.ConfidenceMonotone` | src/components/sections/TrendingMonitor.tsx:113-118 | a higher confidence never gives a lower band |
| `TrendingMonitor.SeedConfidenceBands` | src/components/sections/TrendingMonitor.tsx:26-102 | the five products get green, green, cyan, cyan and orange |
| `TrendingMonitor.View` | src/components/sections/TrendingMonitor.tsx:129-273 | the cards are the seeded products in seeded order whatever the menus hold, each with its status style and band; only the first is HOTTEST; the category button reads All for the "all" filter |
| `TrendingMonitor.MenusDoNotReorder` | src/components/sections/TrendingMonitor.tsx:134-163 | any two menu settings render the same cards |
| `TrendingMonitor.MonitorState.constructor` | src/components/sections/TrendingMonitor.tsx:23-24 | sort starts at spike and the filter at all; the buttons read "Spike %" and "All" |
| `TrendingMonitor.MonitorState.SelectSort` | src/components/sections/TrendingMonitor.tsx:153-155 | choosing a sort changes only the sort cell and not the cards |
| `TrendingMonitor.MonitorState.SelectCategory` | src/components/sections/TrendingMonitor.tsx:138-142 | choosing a category changes only the filter cell and not the cards |
| `SystemHealth.GetStatusColor` | src/components/sections/SystemHealth.tsx:61-69 | red iff error status or value > 0.9 threshold; orange iff not red and warning status or value > 0.7 threshold; green otherwise |
| `SystemHealth.GetStatusBadge` | src/components/sections/SystemHealth.tsx:71-79 | red iff error status or value > 0.9 threshold; a warning status is never green |
| `SystemHealth.ColorAndBadgeAgree` | src/components/sections/SystemHealth.tsx:61-79 | the text colour and the badge show the same tier for every input |
| `SystemHealth.StatusTierMonotone` | src/components/sections/SystemHealth.tsx:61-69 | for fixed status and threshold a larger value never gives a better tier |
| `SystemHealth.StatusOnlyWorsens` | src/components/sections/SystemHealth.tsx:62-68 | the status can only worsen the tier the value gives; error is always red |
| `SystemHealth.ProgressBarColor` | src/components/sections/SystemHealth.tsx:133-139 | the bar is red iff value > 0.9 threshold, orange iff between 0.7 and 0.9 threshold, green otherwise, whatever the status |
| `SystemHealth.BarMatchesNominalStatus` | src/components/sections/SystemHealth.tsx:133-139 | with neither error nor warning status the bar and the text have the same tier |
| `SystemHealth.ProgressBarWidth` | src/components/sections/SystemHealth.tsx:140 | the width is value as a percentage of the threshold |
| `SystemHealth.BarTierFromWidth` | src/components/sections/SystemHealth.tsx:133-140 | for a positive threshold the bar is red iff its width exceeds 90, orange iff 70 < width <= 90, green iff width <= 70 |
| `SystemHealth.SeedMetricTiers` | src/components/sections/SystemHealth.tsx:8-45 | CPU, disk and network are green; memory is orange although declared healthy; CPU's bar is 56.5% and network's 24% |

## Left out

- The `setInterval`/`clearInterval` timer and React's effect scheduling: one firing is one `Tick` call. Teardown is not modelled.
- `Math.random()`: every draw is a parameter holding the value it yields, with the range `Math.floor(Math.random() * k)` gives.
- `Date.now()`/`toISOString()`: timestamps are millisecond integers passed in. All clock reads in one tick or one effect run are taken to be the same instant.
- Dashboard.NewProduct: the `spike` field (`Math.random() * 10 + 10`) is a floating-point value passed through unconstrained.
- Dashboard.LiveFeed.Tick: reads the flag from the state. The interval closure captures the flag of the render that set it up, and the effect re-runs on every change, so the two are equal.
- Severities are integers, as in all seeded data. JavaScript allows fractional ones, and the comparisons would behave the same on them.
- SystemHealth: values and thresholds are exact reals. JavaScript computes `threshold * 0.9` and `threshold * 0.7` in binary floating point, which can differ from the exact product right at a boundary.
- SystemHealth.ProgressBarWidth: requires a positive threshold. Every metric has one; JavaScript would give Infinity or NaN for zero.
- The random chart data of SystemHealth and Overview, the Recharts charts, the ActivityChart component and the remaining static sections (DataStreams, Overview, MetricsGrid, TrendingProductsList, AnalyticsSidebar, ControlHeader, ControlCenter): presentation only.
- CSS class strings, icon sizes, `toFixed`/`toLocaleString` formatting, the Live/Paused badge text and the per-card trend arrow: presentation only.
