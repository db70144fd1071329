/**
 * The "Live Trending Analysis" section: five fixed products rendered as
 * cards, a status style and a confidence band per card, a HOTTEST badge,
 * and sort and category menus whose choices only change button labels.
 */
module TrendingMonitor {

  datatype Trend = Up | Down

  datatype Product = Product(
    id: string,
    name: string,
    category: string,
    currentActivity: int,
    baseline: int,
    spike: real,
    sigma: real,
    trend: Trend,
    velocity: string,
    confidence: real,
    timestamp: string,
    status: string)

  function SeedProducts(): (ps: seq<Product>)
    ensures |ps| == 5
  {
    [ Product("p1", "Wireless AirPods Pro Max", "Electronics", 1847, 45, 4102.2, 18.8, Up, "+234/min", 98.5, "2 min ago", "critical"),
      Product("p2", "Gaming Mechanical RGB Keyboard", "Accessories", 1623, 32, 5071.9, 19.5, Up, "+198/min", 97.2, "4 min ago", "critical"),
      Product("p3", "Smart Home Security Hub", "Smart Home", 1445, 28, 5160.7, 15.9, Up, "+167/min", 94.8, "6 min ago", "trending"),
      Product("p4", "Ultra-Wide Gaming Monitor", "Electronics", 987, 41, 2407.3, 12.3, Up, "+89/min", 89.2, "8 min ago", "trending"),
      Product("p5", "Ergonomic Office Chair", "Furniture", 756, 67, 1128.4, 8.9, Down, "-12/min", 76.5, "12 min ago", "cooling") ]
  }

  /** The status badge styles. */
  datatype StatusStyle = AlertGradient | CyberGradient | OrangeWash | MutedCard

  /** critical, trending and cooling each have their own style; any other status the muted default. */
  function GetStatusColor(status: string): (s: StatusStyle)
    ensures s == AlertGradient <==> status == "critical"
    ensures s == CyberGradient <==> status == "trending"
    ensures s == OrangeWash <==> status == "cooling"
    ensures s == MutedCard <==> status !in {"critical", "trending", "cooling"}
  {
    match status
    case "critical" => AlertGradient
    case "trending" => CyberGradient
    case "cooling" => OrangeWash
    case _ => MutedCard
  }

  /** Confidence bands, from lowest to highest. */
  datatype ConfidenceBand = RedBand | OrangeBand | CyanBand | GreenBand

  function BandRank(b: ConfidenceBand): nat {
    match b
    case RedBand => 0
    case OrangeBand => 1
    case CyanBand => 2
    case GreenBand => 3
  }

  /** Green from 95, cyan from 85, orange from 75, red below. */
  function GetConfidenceColor(confidence: real): (b: ConfidenceBand)
    ensures b == GreenBand <==> confidence >= 95.0
    ensures b == CyanBand <==> 85.0 <= confidence < 95.0
    ensures b == OrangeBand <==> 75.0 <= confidence < 85.0
    ensures b == RedBand <==> confidence < 75.0
  {
    if confidence >= 95.0 then GreenBand
    else if confidence >= 85.0 then CyanBand
    else if confidence >= 75.0 then OrangeBand
    else RedBand
  }

  /** A higher confidence never yields a lower band. */
  lemma ConfidenceMonotone(c1: real, c2: real)
    requires c1 <= c2
    ensures BandRank(GetConfidenceColor(c1)) <= BandRank(GetConfidenceColor(c2))
  {
  }

  /** The seeded products get the green, green, cyan, cyan and orange bands. */
  lemma SeedConfidenceBands()
    ensures forall i :: 0 <= i < 2 ==> GetConfidenceColor(SeedProducts()[i].confidence) == GreenBand
    ensures forall i :: 2 <= i < 4 ==> GetConfidenceColor(SeedProducts()[i].confidence) == CyanBand
    ensures GetConfidenceColor(SeedProducts()[4].confidence) == OrangeBand
  {
  }

  /** The sort menu's three choices. */
  datatype SortKey = BySpike | BySigma | ByActivity

  function SortLabel(k: SortKey): string {
    match k
    case BySpike => "Spike %"
    case BySigma => "Sigma"
    case ByActivity => "Activity"
  }

  function CategoryLabel(filterCategory: string): string {
    if filterCategory == "all" then "All" else filterCategory
  }

  /** One rendered card. */
  datatype Card = Card(product: Product, statusStyle: StatusStyle, band: ConfidenceBand, hottest: bool)

  datatype MonitorView = MonitorView(categoryButton: string, sortButton: string, cards: seq<Card>)

  function CardAt(ps: seq<Product>, i: nat): Card
    requires i < |ps|
  {
    Card(ps[i], GetStatusColor(ps[i].status), GetConfidenceColor(ps[i].confidence), i == 0)
  }

  /**
   * What the section renders. The cards are the seeded products in their
   * seeded order whatever the menus say; only the first card is HOTTEST.
   */
  function View(sortBy: SortKey, filterCategory: string): (v: MonitorView)
    ensures |v.cards| == |SeedProducts()|
    ensures forall i :: 0 <= i < |v.cards| ==> v.cards[i].product == SeedProducts()[i]
    ensures forall i :: 0 <= i < |v.cards| ==> (v.cards[i].hottest <==> i == 0)
    ensures forall i :: 0 <= i < |v.cards| ==>
      v.cards[i].band == GetConfidenceColor(v.cards[i].product.confidence) &&
      v.cards[i].statusStyle == GetStatusColor(v.cards[i].product.status)
    ensures v.categoryButton == "All" <==> filterCategory in {"all", "All"}
  {
    var ps := SeedProducts();
    MonitorView(CategoryLabel(filterCategory), SortLabel(sortBy),
                seq(|ps|, i requires 0 <= i < |ps| => CardAt(ps, i)))
  }

  /** The menus change the button labels and nothing else. */
  lemma MenusDoNotReorder(k1: SortKey, f1: string, k2: SortKey, f2: string)
    ensures View(k1, f1).cards == View(k2, f2).cards
  {
  }

  /** The section's two menu state cells. */
  class MonitorState {
    var sortBy: SortKey
    var filterCategory: string

    constructor ()
      ensures sortBy == BySpike && filterCategory == "all"
      ensures View(sortBy, filterCategory).sortButton == "Spike %"
      ensures View(sortBy, filterCategory).categoryButton == "All"
    {
      sortBy := BySpike;
      filterCategory := "all";
    }

    method SelectSort(k: SortKey)
      modifies this
      ensures sortBy == k && filterCategory == old(filterCategory)
      ensures View(sortBy, filterCategory).cards == old(View(sortBy, filterCategory).cards)
    {
      sortBy := k;
      MenusDoNotReorder(k, filterCategory, old(sortBy), filterCategory);
    }

    method SelectCategory(c: string)
      modifies this
      ensures filterCategory == c && sortBy == old(sortBy)
      ensures View(sortBy, filterCategory).cards == old(View(sortBy, filterCategory).cards)
    {
      filterCategory := c;
      MenusDoNotReorder(sortBy, c, sortBy, old(filterCategory));
    }
  }
}
