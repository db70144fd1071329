/**
 * The "Alert Management Center" section: a styling tier per alert chosen
 * from its type and severity, a status icon, and a fixed list of four alerts
 * with hard-coded header counts.
 */
module AlertCenter {
  import opened Icons
  import AlertsPanel

  /** Card fill: the alert gradient, the cyber gradient or the translucent orange wash. */
  datatype Fill = AlertGradient | CyberGradient | OrangeWash

  datatype Tone = NeonRed | NeonCyan | NeonOrange | NeonGreen | Muted

  datatype Glow = OrangeGlow | CyanGlow | NoGlow

  datatype AlertConfig = AlertConfig(color: Fill, iconColor: Tone, glow: Glow)

  /**
   * The alert tier (red icon, orange glow) for a critical type or severity of
   * 8 or more; failing that, the cyber tier for a trending type or severity
   * of 6 or more; the orange tier, the only one without a glow, otherwise.
   */
  function GetAlertConfig(alertType: string, severity: int): (c: AlertConfig)
    ensures alertType == "critical" || severity >= 8 ==>
      c == AlertConfig(AlertGradient, NeonRed, OrangeGlow)
    ensures alertType != "critical" && severity < 8 && (alertType == "trending" || severity >= 6) ==>
      c == AlertConfig(CyberGradient, NeonCyan, CyanGlow)
    ensures c.glow == NoGlow <==> alertType != "critical" && alertType != "trending" && severity < 6
    ensures c.glow == NoGlow ==> c == AlertConfig(OrangeWash, NeonOrange, NoGlow)
  {
    if alertType == "critical" || severity >= 8 then
      AlertConfig(AlertGradient, NeonRed, OrangeGlow)
    else if alertType == "trending" || severity >= 6 then
      AlertConfig(CyberGradient, NeonCyan, CyanGlow)
    else
      AlertConfig(OrangeWash, NeonOrange, NoGlow)
  }

  /** The alert center and the live alerts panel rank every alert alike. */
  lemma ConfigAgreesWithPanelVariant(alertType: string, severity: int)
    ensures GetAlertConfig(alertType, severity).color == AlertGradient <==>
      AlertsPanel.AlertVariant(alertType, severity) == AlertsPanel.Destructive
    ensures GetAlertConfig(alertType, severity).color == CyberGradient <==>
      AlertsPanel.AlertVariant(alertType, severity) == AlertsPanel.Default
    ensures GetAlertConfig(alertType, severity).color == OrangeWash <==>
      AlertsPanel.AlertVariant(alertType, severity) == AlertsPanel.Secondary
  {
  }

  /** The icon shown for an alert's status, its colour, and whether it pulses. */
  datatype StatusGlyph = StatusGlyph(icon: Icon, tone: Tone, pulsing: bool)

  /** active: pulsing red triangle; monitoring: cyan bell; resolved: green check; otherwise a muted clock. */
  function GetStatusIcon(status: string): (g: StatusGlyph)
    ensures g.icon == AlertTriangle <==> status == "active"
    ensures g.icon == Bell <==> status == "monitoring"
    ensures g.icon == CheckCircle <==> status == "resolved"
    ensures g.icon == Clock <==> status !in {"active", "monitoring", "resolved"}
    ensures g.pulsing <==> status == "active"
    ensures g.tone == NeonRed <==> status == "active"
  {
    match status
    case "active" => StatusGlyph(AlertTriangle, NeonRed, true)
    case "monitoring" => StatusGlyph(Bell, NeonCyan, false)
    case "resolved" => StatusGlyph(CheckCircle, NeonGreen, false)
    case _ => StatusGlyph(Clock, Muted, false)
  }

  /** The fields of a listed alert that the tier and the header counts read. */
  datatype CenterAlert = CenterAlert(id: string, alertType: string, severity: int, status: string, confidence: real)

  function SeedAlerts(): seq<CenterAlert> {
    [ CenterAlert("alert-1", "critical", 9, "active", 98.5),
      CenterAlert("alert-2", "critical", 8, "active", 97.2),
      CenterAlert("alert-3", "trending", 6, "monitoring", 94.8),
      CenterAlert("alert-4", "warning", 4, "resolved", 89.2) ]
  }

  /** How many times `x` occurs in `xs`. */
  function Count(xs: seq<string>, x: string): (n: nat)
    ensures n <= |xs|
    ensures n == 0 <==> x !in xs
  {
    if xs == [] then 0 else (if xs[0] == x then 1 else 0) + Count(xs[1..], x)
  }

  function Types(alerts: seq<CenterAlert>): seq<string> {
    seq(|alerts|, i requires 0 <= i < |alerts| => alerts[i].alertType)
  }

  function Statuses(alerts: seq<CenterAlert>): seq<string> {
    seq(|alerts|, i requires 0 <= i < |alerts| => alerts[i].status)
  }

  /** The header badges "2 Critical", "1 Trending" and "1 Resolved" match the listed alerts. */
  const CriticalBadge := 2
  const TrendingBadge := 1
  const ResolvedBadge := 1

  lemma HeaderBadgesMatchSeed()
    ensures Count(Types(SeedAlerts()), "critical") == CriticalBadge
    ensures Count(Types(SeedAlerts()), "trending") == TrendingBadge
    ensures Count(Statuses(SeedAlerts()), "resolved") == ResolvedBadge
  {
  }

  /** The four listed alerts get the alert, alert, cyber and orange tiers in order. */
  lemma SeedAlertTiers()
    ensures forall i :: 0 <= i < 2 ==>
      GetAlertConfig(SeedAlerts()[i].alertType, SeedAlerts()[i].severity).color == AlertGradient
    ensures GetAlertConfig(SeedAlerts()[2].alertType, SeedAlerts()[2].severity).color == CyberGradient
    ensures GetAlertConfig(SeedAlerts()[3].alertType, SeedAlerts()[3].severity).glow == NoGlow
  {
  }
}
