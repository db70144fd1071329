/**
 * The "Live Alerts" panel: a badge variant and an icon per alert, a count
 * badge in the header and an empty-state message when there is no alert.
 */
module AlertsPanel {
  import opened Icons

  /** An alert as the dashboard hands it to the panel. `timestamp` is in milliseconds. */
  datatype Alert = Alert(
    id: string,
    productId: string,
    productName: string,
    alertType: string,
    message: string,
    timestamp: int,
    severity: int)

  /** The badge variants, from least to most prominent. */
  datatype BadgeVariant = Secondary | Default | Destructive

  function VariantRank(v: BadgeVariant): nat {
    match v
    case Secondary => 0
    case Default => 1
    case Destructive => 2
  }

  /**
   * A critical type or a severity of 8 or more is destructive; failing that,
   * a trending type or a severity of 6 or more is the default variant;
   * everything else is secondary.
   */
  function AlertVariant(alertType: string, severity: int): (v: BadgeVariant)
    ensures v == Destructive <==> alertType == "critical" || severity >= 8
    ensures v == Default <==>
      alertType != "critical" && severity < 8 && (alertType == "trending" || severity >= 6)
    ensures v == Secondary <==> alertType != "critical" && alertType != "trending" && severity < 6
  {
    if alertType == "critical" || severity >= 8 then Destructive
    else if alertType == "trending" || severity >= 6 then Default
    else Secondary
  }

  /** For a fixed type, raising the severity never lowers the variant. */
  lemma VariantMonotoneInSeverity(alertType: string, s1: int, s2: int)
    requires s1 <= s2
    ensures VariantRank(AlertVariant(alertType, s1)) <= VariantRank(AlertVariant(alertType, s2))
  {
  }

  /** The critical type dominates: no other type gets a higher variant at the same severity. */
  lemma CriticalTypeDominates(alertType: string, severity: int)
    ensures VariantRank(AlertVariant(alertType, severity)) <= VariantRank(AlertVariant("critical", severity))
    ensures AlertVariant("critical", severity) == Destructive
  {
  }

  /** critical shows a warning triangle, trending a bell, any other type a clock. */
  function AlertIcon(alertType: string): (i: Icon)
    ensures i == AlertTriangle <==> alertType == "critical"
    ensures i == Bell <==> alertType == "trending"
    ensures i == Clock <==> alertType != "critical" && alertType != "trending"
    ensures i != CheckCircle
  {
    if alertType == "critical" then AlertTriangle
    else if alertType == "trending" then Bell
    else Clock
  }

  /** The header badge: absent, or showing the number of alerts. */
  datatype CountBadge = NoBadge | CountShown(count: nat)

  /** One rendered alert: its key, icon, badge variant and whether its card has the critical highlight. */
  datatype AlertRow = AlertRow(key: string, icon: Icon, variant: BadgeVariant, highlighted: bool)

  datatype PanelView = PanelView(badge: CountBadge, emptyState: bool, rows: seq<AlertRow>)

  function RowOf(a: Alert): AlertRow {
    AlertRow(a.id, AlertIcon(a.alertType), AlertVariant(a.alertType, a.severity), a.alertType == "critical")
  }

  /** What the panel renders for a list of alerts. */
  function Render(alerts: seq<Alert>): (v: PanelView)
    ensures v.badge.CountShown? <==> |alerts| > 0
    ensures v.badge.CountShown? ==> v.badge.count == |alerts|
    ensures v.emptyState <==> |alerts| == 0
    ensures v.emptyState <==> v.badge == NoBadge
    ensures |v.rows| == |alerts|
    ensures forall i :: 0 <= i < |alerts| ==> v.rows[i].key == alerts[i].id
    ensures forall i :: 0 <= i < |alerts| ==>
      v.rows[i].variant == AlertVariant(alerts[i].alertType, alerts[i].severity) &&
      v.rows[i].icon == AlertIcon(alerts[i].alertType)
    ensures forall i :: 0 <= i < |alerts| ==>
      (v.rows[i].highlighted <==> v.rows[i].icon == AlertTriangle)
  {
    if |alerts| == 0 then PanelView(NoBadge, true, [])
    else PanelView(CountShown(|alerts|), false, seq(|alerts|, i requires 0 <= i < |alerts| => RowOf(alerts[i])))
  }
}
