/**
 * The "System Health Monitor" section: each metric's text colour, badge and
 * progress bar are coloured by comparing its value against 90% and 70% of
 * its threshold; the text colour and the badge also honour the metric's
 * declared status.
 */
module SystemHealth {

  /** The three colour tiers, from best to worst. */
  datatype Tier = Green | Orange | Red

  function TierRank(t: Tier): nat {
    match t
    case Green => 0
    case Orange => 1
    case Red => 2
  }

  /** A neon text colour class. */
  datatype TextColor = NeonText(tier: Tier)

  /** A translucent neon badge class (background, text and border of one colour). */
  datatype BadgeStyle = NeonBadge(tier: Tier)

  /** A neon progress-bar fill class. */
  datatype BarColor = NeonBar(tier: Tier)

  /**
   * Red for an error status or a value above 90% of the threshold; failing
   * that, orange for a warning status or a value above 70%; green otherwise.
   */
  function GetStatusColor(status: string, value: real, threshold: real): (c: TextColor)
    ensures c.tier == Red <==> status == "error" || value > threshold * 0.9
    ensures c.tier == Orange <==>
      status != "error" && value <= threshold * 0.9 && (status == "warning" || value > threshold * 0.7)
    ensures c.tier == Green <==>
      status != "error" && status != "warning" && value <= threshold * 0.9 && value <= threshold * 0.7
  {
    if status == "error" || value > threshold * 0.9 then NeonText(Red)
    else if status == "warning" || value > threshold * 0.7 then NeonText(Orange)
    else NeonText(Green)
  }

  /** The badge beside the metric name, chosen by the same two comparisons. */
  function GetStatusBadge(status: string, value: real, threshold: real): (b: BadgeStyle)
    ensures b.tier == Red <==> status == "error" || value > threshold * 0.9
    ensures status == "warning" ==> b.tier != Green
  {
    if status == "error" || value > threshold * 0.9 then NeonBadge(Red)
    else if status == "warning" || value > threshold * 0.7 then NeonBadge(Orange)
    else NeonBadge(Green)
  }

  /** The text colour and the badge always show the same tier. */
  lemma ColorAndBadgeAgree(status: string, value: real, threshold: real)
    ensures GetStatusColor(status, value, threshold).tier == GetStatusBadge(status, value, threshold).tier
  {
  }

  /** For a fixed status and threshold, a larger value never yields a better tier. */
  lemma StatusTierMonotone(status: string, v1: real, v2: real, threshold: real)
    requires v1 <= v2
    ensures TierRank(GetStatusColor(status, v1, threshold).tier) <= TierRank(GetStatusColor(status, v2, threshold).tier)
  {
  }

  /** The declared status can only worsen the tier the value alone would give. */
  lemma StatusOnlyWorsens(status: string, value: real, threshold: real)
    ensures TierRank(GetStatusColor("healthy", value, threshold).tier) <= TierRank(GetStatusColor(status, value, threshold).tier)
    ensures GetStatusColor("error", value, threshold).tier == Red
  {
  }

  /** The progress bar ignores the status. */
  function ProgressBarColor(value: real, threshold: real): (b: BarColor)
    ensures b.tier == Red <==> value > threshold * 0.9
    ensures b.tier == Orange <==> threshold * 0.7 < value <= threshold * 0.9
    ensures b.tier == Green <==> value <= threshold * 0.9 && value <= threshold * 0.7
  {
    if value > threshold * 0.9 then NeonBar(Red)
    else if value > threshold * 0.7 then NeonBar(Orange)
    else NeonBar(Green)
  }

  /** With neither an error nor a warning status, the bar and the text show the same tier. */
  lemma BarMatchesNominalStatus(status: string, value: real, threshold: real)
    requires status != "error" && status != "warning"
    ensures ProgressBarColor(value, threshold).tier == GetStatusColor(status, value, threshold).tier
  {
  }

  /** The bar's width in percent of the track. */
  function ProgressBarWidth(value: real, threshold: real): (w: real)
    requires threshold > 0.0
    ensures w * threshold == value * 100.0
  {
    value / threshold * 100.0
  }

  /** With a positive threshold the bar's tier is read off its width: above 90 red, above 70 orange. */
  lemma BarTierFromWidth(value: real, threshold: real)
    requires threshold > 0.0
    ensures ProgressBarColor(value, threshold).tier == Red <==> ProgressBarWidth(value, threshold) > 90.0
    ensures ProgressBarColor(value, threshold).tier == Orange <==>
      70.0 < ProgressBarWidth(value, threshold) <= 90.0
    ensures ProgressBarColor(value, threshold).tier == Green <==> ProgressBarWidth(value, threshold) <= 70.0
  {
    var w := ProgressBarWidth(value, threshold);
    WidthAbove(value, threshold, w, 90.0);
    WidthAbove(value, threshold, w, 70.0);
  }

  /** A width `w` with `w * threshold == value * 100` exceeds `k` exactly when `value * 100` exceeds `k * threshold`. */
  lemma WidthAbove(value: real, threshold: real, w: real, k: real)
    requires threshold > 0.0 && w * threshold == value * 100.0
    ensures w > k <==> value * 100.0 > k * threshold
  {
  }

  datatype Metric = Metric(id: string, name: string, value: real, status: string, unit: string, threshold: real)

  function SeedMetrics(): (ms: seq<Metric>)
    ensures |ms| == 4
    ensures forall i :: 0 <= i < |ms| ==> ms[i].threshold > 0.0 && ms[i].status == "healthy"
  {
    [ Metric("cpu", "CPU Usage", 45.2, "healthy", "%", 80.0),
      Metric("memory", "Memory Usage", 62.8, "healthy", "%", 85.0),
      Metric("disk", "Disk I/O", 23.4, "healthy", "MB/s", 100.0),
      Metric("network", "Network", 1.2, "healthy", "GB/s", 5.0) ]
  }

  function MetricTier(m: Metric): Tier {
    GetStatusColor(m.status, m.value, m.threshold).tier
  }

  /**
   * Every seeded metric is declared healthy, yet memory (62.8 of 85, i.e.
   * above 59.5) is drawn orange; the other three are green and none is red.
   */
  lemma SeedMetricTiers()
    ensures MetricTier(SeedMetrics()[0]) == Green
    ensures MetricTier(SeedMetrics()[1]) == Orange
    ensures MetricTier(SeedMetrics()[2]) == Green
    ensures MetricTier(SeedMetrics()[3]) == Green
    ensures ProgressBarWidth(SeedMetrics()[0].value, SeedMetrics()[0].threshold) == 56.5
    ensures ProgressBarWidth(SeedMetrics()[3].value, SeedMetrics()[3].threshold) == 24.0
  {
  }
}
