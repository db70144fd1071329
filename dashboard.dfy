/**
 * The dashboard's simulated live feed: a 30-sample activity window that
 * every tick shifts left by one and extends with a fresh sample, a trending
 * list that occasionally gets a new product prepended and is cut to five,
 * and a fixed pair of alerts. Each change of the live flag re-runs the
 * effect that seeds all three lists.
 *
 * Timestamps are the millisecond counts that the dashboard formats with
 * `toISOString`; each random draw is passed in as the value it produces.
 */
module Dashboard {
  import Text
  import AlertsPanel

  type Alert = AlertsPanel.Alert

  datatype TrendingProduct = TrendingProduct(
    id: string,
    name: string,
    category: string,
    currentActivity: int,
    baseline: int,
    spike: real,
    timestamp: int,
    image: string)

  datatype ActivitySample = ActivitySample(timestamp: int, views: int, carts: int, productId: string)

  /** Number of samples the effect seeds into the window. */
  const WindowSize: nat := 30
  /** Number of previous trending entries kept behind a new one. */
  const TrendingKept: nat := 4
  /** Longest trending list an injection can produce. */
  const TrendingMax: nat := TrendingKept + 1
  /** Spacing of the seeded samples. */
  const MinuteMillis: int := 60000
  /** Age of the seeded trending alert. */
  const TwoMinutesMillis: int := 120000
  /** A tick injects a product when its draw exceeds this. */
  const InjectThreshold: real := 0.95
  const Placeholder: string := "/placeholder.svg"

  // ---------------------------------------------------------------------
  // Sample and product construction

  /** A sample is well formed when its counts lie in the ranges the generator draws from. */
  predicate WellFormedSample(s: ActivitySample) {
    200 <= s.views <= 699 && 10 <= s.carts <= 59 && s.productId == "p1"
  }

  /**
   * The sample a tick appends; `viewDraw` is floor(random * 500) and
   * `cartDraw` is floor(random * 50).
   */
  function NewSample(now: int, viewDraw: int, cartDraw: int): (s: ActivitySample)
    requires 0 <= viewDraw < 500 && 0 <= cartDraw < 50
    ensures WellFormedSample(s) && s.timestamp == now
  {
    ActivitySample(now, viewDraw + 200, cartDraw + 10, "p1")
  }

  /**
   * The product an injection prepends. Its id is "p" followed by the time,
   * its name "Product " followed by `nameDraw` (floor(random * 1000)).
   */
  function NewProduct(now: nat, nameDraw: int, activityDraw: int, baselineDraw: int, spike: real): (p: TrendingProduct)
    requires 0 <= nameDraw < 1000 && 0 <= activityDraw < 300 && 0 <= baselineDraw < 50
    ensures 400 <= p.currentActivity <= 699 && 20 <= p.baseline <= 69
    ensures p.category == "Electronics" && p.timestamp == now && p.image == Placeholder
    ensures |p.id| >= 2 && p.id[0] == 'p' && Text.AllDigits(p.id[1..]) && Text.Value(p.id[1..]) == now
  {
    Text.DecimalRoundTrip(now);
    var p := TrendingProduct("p" + Text.Decimal(now), "Product " + Text.Decimal(nameDraw), "Electronics",
                             activityDraw + 400, baselineDraw + 20, spike, now, Placeholder);
    assert p.id[1..] == Text.Decimal(now);
    p
  }

  /** Products injected at different instants have different ids. */
  lemma NewProductIdsDistinct(now1: nat, now2: nat, n1: int, a1: int, b1: int, s1: real,
                              n2: int, a2: int, b2: int, s2: real)
    requires 0 <= n1 < 1000 && 0 <= a1 < 300 && 0 <= b1 < 50
    requires 0 <= n2 < 1000 && 0 <= a2 < 300 && 0 <= b2 < 50
    requires now1 != now2
    ensures NewProduct(now1, n1, a1, b1, s1).id != NewProduct(now2, n2, a2, b2, s2).id
  {
  }

  // ---------------------------------------------------------------------
  // The two list updates

  /**
   * The window update: drop the oldest sample (nothing, when the window is
   * empty) and append the new one. A non-empty window keeps its length.
   */
  function ShiftAppend<T>(prev: seq<T>, x: T): (next: seq<T>)
    ensures |next| == if |prev| == 0 then 1 else |prev|
    ensures next[|next| - 1] == x
    ensures forall i :: 0 <= i < |prev| - 1 ==> next[i] == prev[i + 1]
  {
    (if |prev| == 0 then [] else prev[1..]) + [x]
  }

  /** The trending update: the new product first, then at most four of the previous entries in order. */
  function Prepend<T>(prev: seq<T>, x: T): (next: seq<T>)
    ensures |next| == 1 + (if |prev| < TrendingKept then |prev| else TrendingKept)
    ensures |next| <= TrendingMax
    ensures next[0] == x
    ensures forall i :: 0 <= i < |next| - 1 ==> next[i + 1] == prev[i]
  {
    [x] + (if |prev| <= TrendingKept then prev else prev[..TrendingKept])
  }

  // ---------------------------------------------------------------------
  // Many ticks

  /** The window after the samples `xs` have been appended one tick at a time. */
  function Slide<T>(w: seq<T>, xs: seq<T>): seq<T>
    decreases |xs|
  {
    if xs == [] then w else Slide(ShiftAppend(w, xs[0]), xs[1..])
  }

  /**
   * Eviction is first-in first-out: a non-empty window of length n, fed the
   * samples xs, holds the last n elements of w + xs.
   */
  lemma {:induction false} SlideKeepsLatest<T>(w: seq<T>, xs: seq<T>)
    requires |w| > 0
    ensures |Slide(w, xs)| == |w|
    ensures Slide(w, xs) == (w + xs)[|xs|..]
    decreases |xs|
  {
    if xs != [] {
      var w' := ShiftAppend(w, xs[0]);
      assert w' == w[1..] + [xs[0]];
      SlideKeepsLatest(w', xs[1..]);
      assert (w' + xs[1..])[|xs| - 1..] == (w + xs)[|xs|..] by {
        assert w' + xs[1..] == (w + xs)[1..];
      }
    }
  }

  /**
   * A full window fed 35 samples holds samples 6 to 35: the oldest one left
   * is the sample of the sixth tick.
   */
  lemma ThirtyFiveTicks<T>(w: seq<T>, xs: seq<T>)
    requires |w| == WindowSize && |xs| == 35
    ensures Slide(w, xs) == xs[5..]
    ensures Slide(w, xs)[0] == xs[5]
  {
    SlideKeepsLatest(w, xs);
    assert (w + xs)[|xs|..] == xs[5..];
  }

  /**
   * The update never lengthens a non-empty window, so a window that starts
   * empty holds at most the latest sample however many ticks follow.
   */
  lemma {:induction false} EmptyWindowNeverFills<T>(xs: seq<T>)
    requires xs != []
    ensures Slide([], xs) == [xs[|xs| - 1]]
  {
    assert ShiftAppend([], xs[0]) == [xs[0]];
    if |xs| > 1 {
      SlideKeepsLatest([xs[0]], xs[1..]);
      assert ([xs[0]] + xs[1..])[|xs| - 1..] == [xs[|xs| - 1]];
    }
  }

  function Reverse<T>(s: seq<T>): (r: seq<T>)
    ensures |r| == |s|
  {
    if s == [] then [] else Reverse(s[1..]) + [s[0]]
  }

  /** The trending list after the products `ps` have been injected one at a time. */
  function InjectAll<T>(l: seq<T>, ps: seq<T>): seq<T>
    decreases |ps|
  {
    if ps == [] then l else InjectAll(Prepend(l, ps[0]), ps[1..])
  }

  function Min(a: int, b: int): int {
    if a <= b then a else b
  }

  /**
   * After at least one injection the list is the injected products, newest
   * first, followed by the older entries, cut to five.
   */
  lemma {:induction false} InjectAllNewestFirst<T>(l: seq<T>, ps: seq<T>)
    requires ps != []
    ensures InjectAll(l, ps) == (Reverse(ps) + l)[..Min(TrendingMax, |ps| + |l|)]
    ensures |InjectAll(l, ps)| <= TrendingMax
    decreases |ps|
  {
    var l' := Prepend(l, ps[0]);
    assert InjectAll(l, ps) == InjectAll(l', ps[1..]);
    if |ps| == 1 {
      PrependIsTake(l, ps[0]);
      assert Reverse(ps) == [ps[0]];
    } else {
      InjectAllNewestFirst(l', ps[1..]);
      var rest := Reverse(ps[1..]);
      InjectStep(l, ps[0], rest, InjectAll(l', ps[1..]));
      assert Reverse(ps) == rest + [ps[0]];
    }
  }

  /** The inductive step: newer injections in front of one more prepended product. */
  lemma InjectStep<T>(l: seq<T>, x: T, newer: seq<T>, result: seq<T>)
    requires result == (newer + Prepend(l, x))[..Min(TrendingMax, |newer| + |Prepend(l, x)|)]
    ensures result == (newer + [x] + l)[..Min(TrendingMax, |newer| + 1 + |l|)]
  {
    var m := Min(TrendingMax, 1 + |l|);
    PrependIsTake(l, x);
    var k := Min(TrendingMax, |newer| + m);
    TakeOfConcat(newer, [x] + l, m, k);
    assert newer + ([x] + l) == newer + [x] + l;
  }

  /** One injection as a cut of the extended list. */
  lemma PrependIsTake<T>(l: seq<T>, x: T)
    ensures Prepend(l, x) == ([x] + l)[..Min(TrendingMax, 1 + |l|)]
  {
  }

  /** Cutting the tail first does not matter when the cut is long enough. */
  lemma TakeOfConcat<T>(a: seq<T>, b: seq<T>, m: nat, k: nat)
    requires m <= |b| && k <= |a| + m
    ensures (a + b[..m])[..k] == (a + b)[..k]
  {
    assert forall i :: 0 <= i < k ==> (a + b[..m])[i] == (a + b)[i];
  }

  // ---------------------------------------------------------------------
  // Seed data

  function SeedProducts(now: int): (ps: seq<TrendingProduct>)
    ensures |ps| == 3
    ensures forall i :: 0 <= i < |ps| ==> ps[i].timestamp == now
  {
    [ TrendingProduct("p1", "Wireless AirPods Pro", "Electronics", 847, 45, 18.8, now, Placeholder),
      TrendingProduct("p2", "Gaming Mechanical Keyboard", "Accessories", 623, 32, 19.5, now, Placeholder),
      TrendingProduct("p3", "Smart Home Hub", "Smart Home", 445, 28, 15.9, now, Placeholder) ]
  }

  predicate ValidDraws(viewDraws: seq<int>, cartDraws: seq<int>) {
    |viewDraws| == WindowSize && |cartDraws| == WindowSize &&
    (forall i :: 0 <= i < |viewDraws| ==> 0 <= viewDraws[i] < 500) &&
    (forall i :: 0 <= i < |cartDraws| ==> 0 <= cartDraws[i] < 50)
  }

  /** The seeded window: 30 samples one minute apart, the last one stamped now. */
  function SeedWindow(now: int, viewDraws: seq<int>, cartDraws: seq<int>): (w: seq<ActivitySample>)
    requires ValidDraws(viewDraws, cartDraws)
    ensures |w| == WindowSize
    ensures forall i :: 0 <= i < |w| ==> WellFormedSample(w[i])
    ensures w[|w| - 1].timestamp == now
    ensures forall i :: 0 < i < |w| ==> w[i].timestamp == w[i - 1].timestamp + MinuteMillis
  {
    seq(WindowSize, i requires 0 <= i < WindowSize =>
      ActivitySample(now - (29 - i) * MinuteMillis, viewDraws[i] + 200, cartDraws[i] + 10, "p1"))
  }

  function SeedAlerts(now: int): (alerts: seq<Alert>)
    ensures |alerts| == 2
  {
    [ AlertsPanel.Alert("a1", "p1", "Wireless AirPods Pro", "critical",
                        "Activity spike detected: 1847% above baseline", now, 9),
      AlertsPanel.Alert("a2", "p2", "Gaming Mechanical Keyboard", "trending",
                        "Trending up: 1950% increase in views", now - TwoMinutesMillis, 7) ]
  }

  /** The seeded alerts render as one destructive and one default badge, with a count of two. */
  lemma SeedAlertsRender(now: int)
    ensures AlertsPanel.Render(SeedAlerts(now)).badge == AlertsPanel.CountShown(2)
    ensures AlertsPanel.Render(SeedAlerts(now)).rows[0].variant == AlertsPanel.Destructive
    ensures AlertsPanel.Render(SeedAlerts(now)).rows[1].variant == AlertsPanel.Default
  {
  }

  // ---------------------------------------------------------------------
  // The component's state

  /** The dashboard's four state cells. */
  class LiveFeed {
    var trendingProducts: seq<TrendingProduct>
    var activityData: seq<ActivitySample>
    var alerts: seq<Alert>
    var isLive: bool
    /** The time of the latest effect run. */
    ghost var seededAt: int

    /** What holds from the first effect run on. */
    ghost predicate Valid()
      reads this
    {
      |activityData| == WindowSize &&
      (forall i :: 0 <= i < |activityData| ==> WellFormedSample(activityData[i])) &&
      3 <= |trendingProducts| <= TrendingMax &&
      alerts == SeedAlerts(seededAt)
    }

    /** The initial state, before the effect first runs: three empty lists, live. */
    constructor ()
      ensures trendingProducts == [] && activityData == [] && alerts == [] && isLive
    {
      trendingProducts, activityData, alerts, isLive := [], [], [], true;
      seededAt := 0;
    }

    /** The effect body: seed the three lists. */
    method RunEffect(now: int, viewDraws: seq<int>, cartDraws: seq<int>)
      requires ValidDraws(viewDraws, cartDraws)
      modifies this
      ensures Valid()
      ensures trendingProducts == SeedProducts(now)
      ensures activityData == SeedWindow(now, viewDraws, cartDraws)
      ensures alerts == SeedAlerts(now)
      ensures isLive == old(isLive)
    {
      trendingProducts := SeedProducts(now);
      activityData := SeedWindow(now, viewDraws, cartDraws);
      alerts := SeedAlerts(now);
      seededAt := now;
    }

    /**
     * The Pause/Resume button: flip the flag. The effect depends on the flag,
     * so it runs again and re-seeds every list.
     */
    method ToggleLive(now: int, viewDraws: seq<int>, cartDraws: seq<int>)
      requires ValidDraws(viewDraws, cartDraws)
      modifies this
      ensures isLive == !old(isLive)
      ensures Valid()
      ensures trendingProducts == SeedProducts(now)
      ensures activityData == SeedWindow(now, viewDraws, cartDraws)
      ensures alerts == SeedAlerts(now)
    {
      isLive := !isLive;
      RunEffect(now, viewDraws, cartDraws);
    }

    /**
     * One firing of the interval. While paused it changes nothing; while live
     * it slides the window and, when `injectDraw` exceeds 0.95, prepends a new
     * product. The alerts and the flag are never touched.
     */
    method Tick(now: nat, viewDraw: int, cartDraw: int, injectDraw: real,
                nameDraw: int, activityDraw: int, baselineDraw: int, spike: real)
      requires 0 <= viewDraw < 500 && 0 <= cartDraw < 50 && 0.0 <= injectDraw < 1.0
      requires 0 <= nameDraw < 1000 && 0 <= activityDraw < 300 && 0 <= baselineDraw < 50
      modifies this
      ensures isLive == old(isLive) && alerts == old(alerts) && seededAt == old(seededAt)
      ensures !isLive ==> activityData == old(activityData) && trendingProducts == old(trendingProducts)
      ensures isLive ==> activityData == ShiftAppend(old(activityData), NewSample(now, viewDraw, cartDraw))
      ensures isLive && injectDraw > InjectThreshold ==>
        trendingProducts == Prepend(old(trendingProducts), NewProduct(now, nameDraw, activityDraw, baselineDraw, spike))
      ensures injectDraw <= InjectThreshold ==> trendingProducts == old(trendingProducts)
      ensures old(Valid()) ==> Valid()
    {
      if isLive {
        activityData := ShiftAppend(activityData, NewSample(now, viewDraw, cartDraw));
        if injectDraw > InjectThreshold {
          var p := NewProduct(now, nameDraw, activityDraw, baselineDraw, spike);
          trendingProducts := Prepend(trendingProducts, p);
        }
      }
    }
  }
}
