/** The fitted churn model of pkg/churn/model.go: survival curve, hazard and the
    schedule of a node's absences. Go's floats are modelled as reals, the random
    source as an arbitrary stream of draws in [0, 1). */
module ChurnModel {
  import opened RealArith

  /** (crawl units, survival) points. */
  type Fit = seq<(real, real)>

  datatype Topic = Topic(initialUp: real, alwaysOn: real, leaveForever: real, km: Fit, kmReturn: Fit,
                         gapCDF: seq<(real, real)>)

  /** One planned absence, seconds from the window's start. */
  datatype Event = Event(downAt: real, upAt: real)

  // ------------------------------------------------------------------ survival

  /** A fit as the crawl produces it: times never decrease, survival falls within [0, 1]. */
  ghost predicate Fitted(km: Fit) {
    && (forall i, j :: 0 <= i < j < |km| ==> km[i].0 <= km[j].0 && km[i].1 >= km[j].1)
    && (forall i :: 0 <= i < |km| ==> 0.0 <= km[i].1 <= 1.0)
  }

  /** What the curve needs of math.Pow on a base in (0, 1] and an exponent in [0, 1]. */
  ghost predicate PowerLike(pow: (real, real) -> real) {
    && (forall b, f :: 0.0 < b <= 1.0 && 0.0 <= f <= 1.0 ==> b <= pow(b, f) <= 1.0)
    && (forall b, f, g :: 0.0 < b <= 1.0 && 0.0 <= f <= g <= 1.0 ==> pow(b, g) <= pow(b, f))
  }

  /** sort.Search for the first point at or past `x`, in a fit whose times never decrease. */
  function FirstAtLeast(km: Fit, x: real, i: nat): (r: nat)
    requires i <= |km|
    ensures i <= r <= |km| && (forall j :: i <= j < r ==> km[j].0 < x) && (r < |km| ==> km[r].0 >= x)
    decreases |km| - i
  {
    if i == |km| || km[i].0 >= x then i else FirstAtLeast(km, x, i + 1)
  }

  function Interpolate(pow: (real, real) -> real, t0: real, s0: real, t1: real, s1: real, x: real): real
    requires t0 < t1
  {
    if s0 <= 0.0 || s1 <= 0.0 then s1 else s0 * pow(s1 / s0, (x - t0) / (t1 - t0))
  }

  function Survival(pow: (real, real) -> real, km: Fit, x: real): real {
    if x <= 0.0 || |km| == 0 then 1.0
    else
      var i := FirstAtLeast(km, x, 0);
      if i == |km| then km[|km| - 1].1
      else if i == 0 || km[i].0 == x then km[i].1
      else Interpolate(pow, km[i - 1].0, km[i - 1].1, km[i].0, km[i].1, x)
  }

  function LeaveProb(pow: (real, real) -> real, km: Fit, age: real, dt: real): real {
    var s := Survival(pow, km, age);
    if s <= 0.0 then 1.0 else 1.0 - Survival(pow, km, age + dt) / s
  }

  lemma Ratio(a: real, b: real)
    requires b > 0.0
    ensures b * (a / b) == a && (0.0 < a <= b ==> 0.0 < a / b <= 1.0) && (0.0 <= a <= b ==> 0.0 <= a / b <= 1.0)
  {
  }

  lemma Shrink(s0: real, s1: real, r: real, p: real, p': real)
    requires s0 > 0.0 && Times(s0, r) == s1 && r <= p' <= p <= 1.0
    ensures s1 <= Times(s0, p') <= Times(s0, p) <= s0
  {
    hide Times;
    Scale(s0, r, p');
    Scale(s0, p', p);
    Scale(s0, p, 1.0);
    Products(s0, 0.0, 0.0);
  }

  lemma FractionOrder(x: real, y: real, w: real)
    requires w > 0.0 && 0.0 <= x <= y <= w
    ensures 0.0 <= x / w <= y / w <= 1.0
  {
    assert (y - x) / w >= 0.0;
    assert (y - x) / w == y / w - x / w;
  }

  lemma InterpolateIs(pow: (real, real) -> real, t0: real, s0: real, t1: real, s1: real, x: real, p: real)
    requires t0 < t1 && s0 > 0.0 && s1 > 0.0 && p == pow(s1 / s0, (x - t0) / (t1 - t0))
    ensures Interpolate(pow, t0, s0, t1, s1, x) == Times(s0, p)
  {
  }

  /** Between two points the curve falls from the first to the second. */
  lemma InterpolateFalls(pow: (real, real) -> real, t0: real, s0: real, t1: real, s1: real, x: real, y: real)
    requires PowerLike(pow) && t0 < t1 && 0.0 <= s1 <= s0 && t0 <= x <= y <= t1
    ensures s1 <= Interpolate(pow, t0, s0, t1, s1, y) <= Interpolate(pow, t0, s0, t1, s1, x) <= s0
  {
    if s1 > 0.0 {
      hide Interpolate, Times;
      Ratio(s1, s0);
      Fraction(s1, s0);
      FractionOrder(x - t0, y - t0, t1 - t0);
      var b, f, g := s1 / s0, (x - t0) / (t1 - t0), (y - t0) / (t1 - t0);
      var p, p' := pow(b, f), pow(b, g);
      assert b <= p' <= p <= 1.0;
      Shrink(s0, s1, b, p, p');
      InterpolateIs(pow, t0, s0, t1, s1, x, p);
      InterpolateIs(pow, t0, s0, t1, s1, y, p');
    }
  }

  lemma SurvivalWithin(pow: (real, real) -> real, km: Fit, x: real)
    requires PowerLike(pow) && Fitted(km)
    ensures 0.0 <= Survival(pow, km, x) <= 1.0
    ensures x > 0.0 && |km| > 0 ==>
              var i := FirstAtLeast(km, x, 0);
              (i < |km| ==> km[i].1 <= Survival(pow, km, x)) && (i > 0 ==> Survival(pow, km, x) <= km[i - 1].1)
  {
    if x > 0.0 && |km| > 0 {
      var i := FirstAtLeast(km, x, 0);
      if 0 < i < |km| && km[i].0 != x {
        hide Interpolate;
        InterpolateFalls(pow, km[i - 1].0, km[i - 1].1, km[i].0, km[i].1, x, x);
      }
    }
  }

  lemma FirstMonotone(km: Fit, x: real, y: real)
    requires Fitted(km) && x <= y
    ensures FirstAtLeast(km, x, 0) <= FirstAtLeast(km, y, 0)
  {
  }

  /** Survival never rises. */
  lemma SurvivalFalls(pow: (real, real) -> real, km: Fit, x: real, y: real)
    requires PowerLike(pow) && Fitted(km) && x <= y
    ensures Survival(pow, km, y) <= Survival(pow, km, x)
  {
    SurvivalWithin(pow, km, x);
    SurvivalWithin(pow, km, y);
    if x > 0.0 && |km| > 0 {
      FirstMonotone(km, x, y);
      var i, j := FirstAtLeast(km, x, 0), FirstAtLeast(km, y, 0);
      if i < j {
        assert km[i].1 >= km[j - 1].1;
      } else if 0 < i < |km| {
        hide Interpolate;
        InterpolateFalls(pow, km[i - 1].0, km[i - 1].1, km[i].0, km[i].1, x, y);
      }
    }
  }

  /** The curve: at a point what it says there, between two points the power of their ratio that the fraction of
      the way gives, to the ratio to the left one, and after the last point what it says. */
  lemma SurvivalMeans(pow: (real, real) -> real, km: Fit, x: real, i: nat)
    requires x > 0.0 && |km| > 0 && i <= |km| && (forall j: nat :: j < i ==> km[j].0 < x)
    ensures i < |km| && km[i].0 == x ==> Survival(pow, km, x) == km[i].1
    ensures i == |km| ==> Survival(pow, km, x) == km[|km| - 1].1
    ensures 0 < i < |km| && km[i - 1].0 < x < km[i].0 && km[i - 1].1 > 0.0 && km[i].1 > 0.0 ==>
              Survival(pow, km, x) / km[i - 1].1
              == pow(km[i].1 / km[i - 1].1, (x - km[i - 1].0) / (km[i].0 - km[i - 1].0))
    ensures 0 < i < |km| && km[i - 1].0 < x < km[i].0 && (km[i - 1].1 <= 0.0 || km[i].1 <= 0.0) ==>
              Survival(pow, km, x) == km[i].1
  {
    assert i < |km| && km[i].0 >= x ==> FirstAtLeast(km, x, 0) == i;
    if 0 < i < |km| && km[i - 1].0 < x < km[i].0 && km[i - 1].1 > 0.0 && km[i].1 > 0.0 {
      var s0, p := km[i - 1].1, pow(km[i].1 / km[i - 1].1, (x - km[i - 1].0) / (km[i].0 - km[i - 1].0));
      InterpolateIs(pow, km[i - 1].0, s0, km[i].0, km[i].1, x, p);
      hide Interpolate;
      TimesOver(s0, p);
    }
  }

  lemma TimesOver(a: real, b: real)
    requires a > 0.0
    ensures Times(a, b) / a == b
  {
    Fraction(Times(a, b), a);
    Cancel(a, Times(a, b) / a, b);
  }

  /** The chance of staying `n` units when the hazard is applied once per unit. */
  function StayProduct(pow: (real, real) -> real, km: Fit, n: nat): real {
    if n == 0 then 1.0 else StayProduct(pow, km, n - 1) * (1.0 - LeaveProb(pow, km, (n - 1) as real, 1.0))
  }

  /** The per-unit hazard the schedule applies gives back the fitted survival, also after the
      curve has reached zero. */
  lemma {:induction false} HazardTelescopes(pow: (real, real) -> real, km: Fit, n: nat)
    requires PowerLike(pow) && Fitted(km)
    ensures StayProduct(pow, km, n) == Survival(pow, km, n as real)
    ensures n > 0 ==> 0.0 <= LeaveProb(pow, km, (n - 1) as real, 1.0) <= 1.0
  {
    hide Survival, LeaveProb;
    if n > 0 {
      var a := (n - 1) as real;
      HazardTelescopes(pow, km, n - 1);
      StayOneUnit(pow, km, a);
      assert a + 1.0 == n as real;
    } else {
      StartsAtOne(pow, km);
    }
  }

  lemma StartsAtOne(pow: (real, real) -> real, km: Fit)
    requires Fitted(km)
    ensures Survival(pow, km, 0.0) == 1.0
  {
  }

  lemma StayOneUnit(pow: (real, real) -> real, km: Fit, a: real)
    requires PowerLike(pow) && Fitted(km)
    ensures Survival(pow, km, a) * (1.0 - LeaveProb(pow, km, a, 1.0)) == Survival(pow, km, a + 1.0)
    ensures 0.0 <= LeaveProb(pow, km, a, 1.0) <= 1.0
  {
    hide Survival;
    SurvivalWithin(pow, km, a);
    SurvivalWithin(pow, km, a + 1.0);
    SurvivalFalls(pow, km, a, a + 1.0);
    HazardStep(Survival(pow, km, a), Survival(pow, km, a + 1.0), LeaveProb(pow, km, a, 1.0));
  }

  lemma HazardStep(s: real, s': real, lp: real)
    requires 0.0 <= s' <= s && lp == if s <= 0.0 then 1.0 else 1.0 - s' / s
    ensures s * (1.0 - lp) == s' && 0.0 <= lp <= 1.0
  {
    if s > 0.0 {
      Ratio(s', s);
    }
  }

  // ------------------------------------------------------------------ schedule

  /** A stream of rng.Float64 draws. */
  ghost predicate Draws(rng: nat -> real) {
    forall i :: 0.0 <= rng(i) < 1.0
  }

  /** Absences last at least one crawl unit, which is how the crawl counts them. */
  ghost predicate WholeGaps(cdf: seq<(real, real)>) {
    forall i :: 0 <= i < |cdf| ==> cdf[i].0 >= 1.0
  }

  /** Topic.Gap: the first length whose cumulative share reaches the draw. */
  method Gap(cdf: seq<(real, real)>, u: real) returns (g: real)
    ensures cdf == [] ==> g == 1.0
    ensures cdf != [] ==> exists i :: 0 <= i < |cdf| && g == cdf[i].0 && (forall j :: 0 <= j < i ==> cdf[j].1 < u)
                                      && (u <= cdf[i].1 || i == |cdf| - 1)
  {
    if |cdf| == 0 {
      return 1.0;
    }
    for i := 0 to |cdf|
      invariant forall j :: 0 <= j < i ==> cdf[j].1 < u
    {
      if u <= cdf[i].1 {
        return cdf[i].0;
      }
    }
    return cdf[|cdf| - 1].0;
  }

  function RealHours(window: real, windowRealHours: real): real {
    if windowRealHours <= 0.0 then window / 3600.0 else windowRealHours
  }

  function CrawlSeconds(window: real, cadence: real, hours: real): real
    requires hours > 0.0
  {
    Over(Times(window, cadence), hours)
  }

  /** Absences in order and apart, each departure inside the window and the `i`-th no earlier
      than `i` crawl units, only the first possibly at zero; each lasts at least a unit, or
      to the end of the window, or is the wait before an arrival. */
  ghost predicate Schedule(ev: seq<Event>, window: real, crawl: real) {
    && (forall i :: 0 <= i < |ev| ==> 0.0 <= ev[i].downAt < window && ev[i].downAt <= ev[i].upAt)
    && (forall i, j :: 0 <= i < j < |ev| ==> ev[i].upAt <= ev[j].downAt)
    && (forall i :: 0 <= i < |ev| ==> ev[i].downAt >= Times(i as real, crawl))
    && (forall i :: 1 <= i < |ev| ==> ev[i].downAt > 0.0)
    && (forall i :: 0 <= i < |ev| ==>
          ev[i].upAt >= ev[i].downAt + crawl || ev[i].upAt == window || (i == 0 && ev[i].downAt == 0.0))
  }

  // ------------------------------------------------------- a schedule against its draws

  /** What a schedule is drawn from and for. */
  datatype World = World(rng: nat -> real, pow: (real, real) -> real, window: real, crawl: real, topic: Topic)

  /** The draw at `k + i` keeps a session of age `i` going: it is at or above the hazard of the next unit. */
  ghost predicate Stays(w: World, k: nat, km: Fit, i: nat) {
    w.rng(k + i) >= LeaveProb(w.pow, km, i as real, 1.0)
  }

  /** A session whose hazard is drawn from `k` on ends at age `n`: draw after draw it stays, and then it leaves. */
  ghost predicate EndsAt(w: World, k: nat, km: Fit, n: nat) {
    && (forall i: nat :: i < n ==> Stays(w, k, km, i))
    && w.rng(k + n) < LeaveProb(w.pow, km, n as real, 1.0)
  }

  /** A session from `start` on stays until the window is over. */
  ghost predicate Outlasts(w: World, start: real, k: nat, km: Fit) {
    exists n: nat {:trigger Times(n as real, w.crawl)} ::
      (forall i: nat :: i < n ==> Stays(w, k, km, i)) && start + Times(n as real, w.crawl) >= w.window
  }

  /** The first length whose cumulative share reaches the draw, or the last. */
  ghost predicate Sampled(cdf: seq<(real, real)>, u: real, i: nat) {
    && i < |cdf| && (forall j: nat :: j < i ==> cdf[j].1 < u) && (u <= cdf[i].1 || i == |cdf| - 1)
  }

  /** An absence of a sampled length, with the draw of whether it is for good at `a`, and the next session's
      draws from `next` on; an empty distribution draws nothing and means one unit. */
  ghost predicate Returns(w: World, e: Event, a: nat, next: nat) {
    && w.rng(a) >= w.topic.leaveForever
    && (if w.topic.gapCDF == [] then next == a + 1 && e.upAt == e.downAt + w.crawl
        else next == a + 2
             && exists i: nat :: Sampled(w.topic.gapCDF, w.rng(a + 1), i)
                                 && e.upAt == e.downAt + Times(w.topic.gapCDF[i].0, w.crawl))
  }

  /** An absence for good. */
  ghost predicate ForGood(w: World, e: Event, a: nat) {
    w.rng(a) < w.topic.leaveForever && e.upAt == w.window
  }

  /** The first session has its own fit, and those after a return theirs. */
  function FitOf(w: World, fit: Fit, j: nat): Fit {
    if j == 0 then fit else w.topic.kmReturn
  }

  function SessionStart(ev: seq<Event>, start: real, j: nat): real
    requires j <= |ev|
  {
    if j == 0 then start else ev[j - 1].upAt
  }

  /** Where the draw of the `j`-th absence is: after the session's, but for a departure that is not drawn. */
  function AbsenceDraw(ks: seq<nat>, ns: seq<nat>, leaveFirst: bool, j: nat): nat
    requires j < |ks| && j < |ns|
  {
    if leaveFirst && j == 0 then ks[j] else ks[j] + ns[j] + 1
  }

  /** Session `j` lasts `ns[j]` units by the draws from `ks[j]` on; the first may be over as it begins. */
  ghost predicate SessionPlayed(w: World, start: real, fit: Fit, leaveFirst: bool, ev: seq<Event>, ks: seq<nat>,
                                ns: seq<nat>, j: nat) {
    && j < |ev| && j < |ks| && j < |ns|
    && ev[j].downAt == SessionStart(ev, start, j) + Times(ns[j] as real, w.crawl) && ev[j].downAt < w.window
    && if leaveFirst && j == 0 then ns[j] == 0 else EndsAt(w, ks[j], FitOf(w, fit, j), ns[j])
  }

  ghost predicate AbsencePlayed(w: World, leaveFirst: bool, ev: seq<Event>, ks: seq<nat>, ns: seq<nat>, j: nat) {
    j < |ev| && j + 1 < |ks| && j < |ns| && Returns(w, ev[j], AbsenceDraw(ks, ns, leaveFirst, j), ks[j + 1])
  }

  /** The last absence, if it is for good. */
  ghost predicate LeftForGood(w: World, leaveFirst: bool, ev: seq<Event>, ks: seq<nat>, ns: seq<nat>) {
    0 < |ev| <= |ks| && |ev| <= |ns| && ForGood(w, ev[|ev| - 1], AbsenceDraw(ks, ns, leaveFirst, |ev| - 1))
  }

  /** Absences that follow the draws from `first` on: each session ends where its draws say, each absence lasts
      as its draws say, until the window is over or one is for good. */
  ghost predicate PlayedBy(w: World, start: real, first: nat, fit: Fit, leaveFirst: bool, ev: seq<Event>, ks: seq<nat>,
                           ns: seq<nat>) {
    && |ks| == |ev| + 1 && |ns| == |ev| && ks[0] == first
    && (forall j: nat :: j < |ev| ==> SessionPlayed(w, start, fit, leaveFirst, ev, ks, ns, j))
    && (forall j: nat :: j + 1 < |ev| ==> AbsencePlayed(w, leaveFirst, ev, ks, ns, j))
    && (LeftForGood(w, leaveFirst, ev, ks, ns)
        || ((|ev| > 0 ==> AbsencePlayed(w, leaveFirst, ev, ks, ns, |ev| - 1))
            && if leaveFirst && ev == [] then start >= w.window
               else Outlasts(w, SessionStart(ev, start, |ev|), ks[|ev|], FitOf(w, fit, |ev|))))
  }

  ghost predicate Played(w: World, start: real, first: nat, fit: Fit, leaveFirst: bool, ev: seq<Event>) {
    exists ks: seq<nat>, ns: seq<nat> :: PlayedBy(w, start, first, fit, leaveFirst, ev, ks, ns)
  }

  /** The share of the crawl's span that the window stands for. */
  function Span(runHours: real, hours: real): real
    requires hours > 0.0
  {
    if runHours < hours then runHours / hours else 1.0
  }

  /** The whole schedule: an arrival, no absence at all, or a first departure at any time, by the first draws. */
  ghost predicate Drawn(w: World, span: real, ev: seq<Event>) {
    var arrives, at := w.rng(0) < Times(1.0 - w.topic.initialUp, span), w.rng(1);
    if arrives then
      && ev != [] && ev[0] == Event(0.0, Times(at, w.window))
      && Played(w, Times(at, w.window) + w.crawl, 2, w.topic.km, false, ev[1..])
    else if w.rng(1) >= Times(1.0 - w.topic.alwaysOn, span) then ev == []
    else Played(w, Times(w.rng(2), w.window), 3, w.topic.kmReturn, true, ev)
  }

  // ---- the draws decide the schedule

  lemma EndsOnce(w: World, k: nat, km: Fit, n: nat, n': nat)
    requires EndsAt(w, k, km, n) && EndsAt(w, k, km, n')
    ensures n == n'
  {
    assert !Stays(w, k, km, n) && !Stays(w, k, km, n');
  }

  /** A session that ends within the window does not outlast it. */
  lemma EndsOrOutlasts(w: World, start: real, k: nat, km: Fit, n: nat)
    requires EndsAt(w, k, km, n) && start + Times(n as real, w.crawl) < w.window && w.crawl > 0.0
    ensures !Outlasts(w, start, k, km)
  {
    assert !Stays(w, k, km, n);
    hide Times, Stays;
    if Outlasts(w, start, k, km) {
      var m: nat :| (forall i: nat :: i < m ==> Stays(w, k, km, i)) && start + Times(m as real, w.crawl) >= w.window;
      Products(w.crawl, m as real, n as real);
      Products(n as real, w.crawl, 0.0);
      Scale(w.crawl, m as real, n as real);
    }
  }

  lemma SampledOnce(cdf: seq<(real, real)>, u: real, i: nat, i': nat)
    requires Sampled(cdf, u, i) && Sampled(cdf, u, i')
    ensures i == i'
  {
  }

  lemma ReturnsOnce(w: World, e: Event, e': Event, a: nat, next: nat, next': nat)
    requires Returns(w, e, a, next) && Returns(w, e', a, next') && e.downAt == e'.downAt
    ensures e == e' && next == next'
  {
    if w.topic.gapCDF != [] {
      var i: nat :| Sampled(w.topic.gapCDF, w.rng(a + 1), i)
                    && e.upAt == e.downAt + Times(w.topic.gapCDF[i].0, w.crawl);
      var i': nat :| Sampled(w.topic.gapCDF, w.rng(a + 1), i')
                     && e'.upAt == e'.downAt + Times(w.topic.gapCDF[i'].0, w.crawl);
      SampledOnce(w.topic.gapCDF, w.rng(a + 1), i, i');
    }
  }

  /** Two schedules from the same draws agree as far as both get. */
  lemma {:induction false} SamePrefix(w: World, start: real, first: nat, fit: Fit, leaveFirst: bool,
                                      ev: seq<Event>, ks: seq<nat>, ns: seq<nat>,
                                      ev': seq<Event>, ks': seq<nat>, ns': seq<nat>, j: nat)
    requires PlayedBy(w, start, first, fit, leaveFirst, ev, ks, ns)
    requires PlayedBy(w, start, first, fit, leaveFirst, ev', ks', ns')
    requires j <= |ev| && j <= |ev'|
    ensures ev[..j] == ev'[..j]
    ensures j > 0 ==> AbsenceDraw(ks, ns, leaveFirst, j - 1) == AbsenceDraw(ks', ns', leaveFirst, j - 1)
    ensures (j > 0 && w.rng(AbsenceDraw(ks, ns, leaveFirst, j - 1)) < w.topic.leaveForever) || ks[j] == ks'[j]
  {
    hide Returns, SessionPlayed, ForGood, AbsencePlayed, LeftForGood, Outlasts;
    if j > 0 {
      var i := j - 1;
      SamePrefix(w, start, first, fit, leaveFirst, ev, ks, ns, ev', ks', ns', i);
      if i > 0 { NotForGood(w, start, first, fit, leaveFirst, ev, ks, ns, i - 1); }
      SameSession(w, start, fit, leaveFirst, ev, ks, ns, ev', ks', ns', i);
      AbsenceEither(w, start, first, fit, leaveFirst, ev, ks, ns, i);
      AbsenceEither(w, start, first, fit, leaveFirst, ev', ks', ns', i);
      SameAbsence(w, ev[i], ev'[i], AbsenceDraw(ks, ns, leaveFirst, i), ks[j], ks'[j]);
      assert ev[..j] == ev[..i] + [ev[i]] && ev'[..j] == ev'[..i] + [ev'[i]];
    }
  }

  /** Only the last absence is for good. */
  lemma NotForGood(w: World, start: real, first: nat, fit: Fit, leaveFirst: bool, ev: seq<Event>, ks: seq<nat>,
                   ns: seq<nat>, i: nat)
    requires PlayedBy(w, start, first, fit, leaveFirst, ev, ks, ns) && i + 1 < |ev|
    ensures w.rng(AbsenceDraw(ks, ns, leaveFirst, i)) >= w.topic.leaveForever
  {
    hide SessionPlayed, LeftForGood, Outlasts;
    assert AbsencePlayed(w, leaveFirst, ev, ks, ns, i);
  }

  lemma SameSession(w: World, start: real, fit: Fit, leaveFirst: bool, ev: seq<Event>, ks: seq<nat>, ns: seq<nat>,
                    ev': seq<Event>, ks': seq<nat>, ns': seq<nat>, i: nat)
    requires SessionPlayed(w, start, fit, leaveFirst, ev, ks, ns, i)
    requires SessionPlayed(w, start, fit, leaveFirst, ev', ks', ns', i) && ev[..i] == ev'[..i] && ks[i] == ks'[i]
    ensures ns[i] == ns'[i] && ev[i].downAt == ev'[i].downAt
  {
    hide EndsAt, Times;
    if !(leaveFirst && i == 0) { EndsOnce(w, ks[i], FitOf(w, fit, i), ns[i], ns'[i]); }
    assert i > 0 ==> ev[i - 1] == ev[..i][i - 1] && ev'[i - 1] == ev'[..i][i - 1];
  }

  lemma AbsenceEither(w: World, start: real, first: nat, fit: Fit, leaveFirst: bool, ev: seq<Event>, ks: seq<nat>,
                      ns: seq<nat>, i: nat)
    requires PlayedBy(w, start, first, fit, leaveFirst, ev, ks, ns) && i < |ev|
    ensures ForGood(w, ev[i], AbsenceDraw(ks, ns, leaveFirst, i))
         || Returns(w, ev[i], AbsenceDraw(ks, ns, leaveFirst, i), ks[i + 1])
  {
    hide ForGood, Returns, SessionPlayed, Outlasts;
    assert i + 1 < |ev| ==> AbsencePlayed(w, leaveFirst, ev, ks, ns, i);
  }

  lemma SameAbsence(w: World, e: Event, e': Event, a: nat, next: nat, next': nat)
    requires ForGood(w, e, a) || Returns(w, e, a, next)
    requires ForGood(w, e', a) || Returns(w, e', a, next')
    requires e.downAt == e'.downAt
    ensures e == e' && (w.rng(a) < w.topic.leaveForever || next == next')
  {
    if Returns(w, e, a, next) { ReturnsOnce(w, e, e', a, next, next'); }
  }

  /** ... and none of them stops before the other. */
  lemma NotShorter(w: World, start: real, first: nat, fit: Fit, leaveFirst: bool, ev: seq<Event>, ks: seq<nat>,
                   ns: seq<nat>, ev': seq<Event>, ks': seq<nat>, ns': seq<nat>)
    requires w.crawl > 0.0 && PlayedBy(w, start, first, fit, leaveFirst, ev, ks, ns)
    requires PlayedBy(w, start, first, fit, leaveFirst, ev', ks', ns')
    ensures |ev| >= |ev'|
  {
    if |ev| < |ev'| {
      var j := |ev|;
      SamePrefix(w, start, first, fit, leaveFirst, ev, ks, ns, ev', ks', ns', j);
      assert j > 0 ==> AbsencePlayed(w, leaveFirst, ev', ks', ns', j - 1);
      assert j > 0 ==> ev[j - 1] == ev[..j][j - 1] && ev'[j - 1] == ev'[..j][j - 1];
      assert SessionPlayed(w, start, fit, leaveFirst, ev', ks', ns', j);
      if !(leaveFirst && j == 0) {
        EndsOrOutlasts(w, SessionStart(ev', start, j), ks'[j], FitOf(w, fit, j), ns'[j]);
      }
    }
  }

  /** The draws decide a schedule: no other one follows them. */
  lemma DrawnOnce(w: World, span: real, ev: seq<Event>, ev': seq<Event>)
    requires w.crawl > 0.0 && Drawn(w, span, ev) && Drawn(w, span, ev')
    ensures ev == ev'
  {
    hide Played, Times;
    if w.rng(0) < Times(1.0 - w.topic.initialUp, span) {
      PlayedOnce(w, Times(w.rng(1), w.window) + w.crawl, 2, w.topic.km, false, ev[1..], ev'[1..]);
      assert ev == [ev[0]] + ev[1..] && ev' == [ev'[0]] + ev'[1..];
    } else if w.rng(1) < Times(1.0 - w.topic.alwaysOn, span) {
      PlayedOnce(w, Times(w.rng(2), w.window), 3, w.topic.kmReturn, true, ev, ev');
    }
  }

  lemma PlayedOnce(w: World, start: real, first: nat, fit: Fit, leaveFirst: bool, ev: seq<Event>, ev': seq<Event>)
    requires w.crawl > 0.0 && Played(w, start, first, fit, leaveFirst, ev)
    requires Played(w, start, first, fit, leaveFirst, ev')
    ensures ev == ev'
  {
    var ks: seq<nat>, ns: seq<nat> :| PlayedBy(w, start, first, fit, leaveFirst, ev, ks, ns);
    var ks': seq<nat>, ns': seq<nat> :| PlayedBy(w, start, first, fit, leaveFirst, ev', ks', ns');
    NotShorter(w, start, first, fit, leaveFirst, ev, ks, ns, ev', ks', ns');
    NotShorter(w, start, first, fit, leaveFirst, ev', ks', ns', ev, ks, ns);
    SamePrefix(w, start, first, fit, leaveFirst, ev, ks, ns, ev', ks', ns', |ev|);
    assert ev[..|ev|] == ev && ev'[..|ev|] == ev';
  }

  /** The chance of leaving in the unit after `n`. */
  ghost function Hazard(w: World, fit: Fit, n: nat): real {
    LeaveProb(w.pow, fit, n as real, 1.0)
  }

  /** A hazard that is zero at every age is never drawn, and one that is certain at once is. */
  lemma CertainHazards(w: World, start: real, first: nat, fit: Fit, ev: seq<Event>)
    requires Draws(w.rng) && Played(w, start, first, fit, false, ev) && w.crawl > 0.0 && start < w.window
    ensures (forall n: nat :: Hazard(w, fit, n) <= 0.0) ==> ev == []
    ensures Hazard(w, fit, 0) >= 1.0 ==> ev != [] && ev[0].downAt == start
  {
    hide LeaveProb, Times;
    Products(w.crawl, 0.0, 0.0);
    assert Stays(w, first, fit, 0) <==> w.rng(first + 0) >= Hazard(w, fit, 0);
    assert 0.0 <= w.rng(first + 0) < 1.0;
    var ks: seq<nat>, ns: seq<nat> :| PlayedBy(w, start, first, fit, false, ev, ks, ns);
    if ev != [] {
      assert SessionPlayed(w, start, fit, false, ev, ks, ns, 0);
      assert w.rng(first + ns[0]) < Hazard(w, fit, ns[0]) && 0.0 <= w.rng(first + ns[0]);
      assert ns[0] > 0 ==> Stays(w, first, fit, 0);
    }
  }

  /** The loop's measure: units left in the window. */
  lemma UnitsLeft(window: real, crawl: real, x: real, x': real)
    requires crawl > 0.0 && x < window && x' >= x + crawl
    ensures Over(window - x, crawl) >= 0.0
    ensures Over(window - x', crawl) <= Over(window - x, crawl) - 1.0
  {
    hide Over, Times;
    Quotient(window - x, crawl);
    Quotient(window - x', crawl);
    Products(crawl, 0.0, 0.0);
    InOrder(crawl, 0.0, Over(window - x, crawl));
    Products(crawl, Over(window - x, crawl), 1.0);
    Products(crawl, 1.0, 0.0);
    InOrder(crawl, Over(window - x', crawl), Over(window - x, crawl) - 1.0);
  }

  lemma OneMore(n: nat, crawl: real)
    ensures Times((n + 1) as real, crawl) == Times(n as real, crawl) + crawl
  {
    hide Times;
    assert (n + 1) as real == n as real + 1.0;
    Products(n as real, 1.0, crawl);
    Products(crawl, 1.0, 0.0);
  }

  lemma AtLeastUnit(g: real, crawl: real)
    requires g >= 1.0 && crawl > 0.0
    ensures Times(g, crawl) >= crawl
  {
    hide Times;
    Scale(crawl, 1.0, g);
    Products(crawl, g, 0.0);
    Products(crawl, 1.0, 0.0);
  }

  lemma WithinWindow(u: real, window: real)
    requires 0.0 <= u < 1.0 && window > 0.0
    ensures 0.0 <= Times(u, window) < window
  {
    hide Times;
    Positive(1.0 - u, window);
    Products(1.0, u, window);
    Products(window, 1.0, 0.0);
    Scale(window, 0.0, u);
    Products(window, u, 0.0);
    Products(window, 0.0, 0.0);
  }

  lemma Appended(ev: seq<Event>, e: Event, window: real, crawl: real)
    requires Schedule(ev, window, crawl)
    requires Times(|ev| as real, crawl) <= e.downAt < window && e.downAt <= e.upAt && 0.0 <= e.downAt
    requires |ev| > 0 ==> e.downAt > 0.0
    requires forall i :: 0 <= i < |ev| ==> ev[i].upAt <= e.downAt
    requires e.upAt >= e.downAt + crawl || e.upAt == window || (|ev| == 0 && e.downAt == 0.0)
    ensures Schedule(ev + [e], window, crawl)
  {
    hide Times;
  }

  /** What the loop of ScheduleTopic keeps: the time reached and the absences so far. */
  ghost predicate Reached(ev: seq<Event>, x: real, window: real, crawl: real) {
    && Schedule(ev, window, crawl) && x >= 0.0 && x >= Times(|ev| as real, crawl) && (|ev| > 0 ==> x >= crawl)
    && (forall i :: 0 <= i < |ev| ==> ev[i].upAt <= x)
  }

  lemma ReachedAbsence(ev: seq<Event>, x: real, g: real, window: real, crawl: real)
    requires Reached(ev, x, window, crawl) && x < window && crawl > 0.0 && g >= crawl
    ensures Reached(ev + [Event(x, x + g)], x + g, window, crawl)
  {
    hide Times;
    OneMore(|ev|, crawl);
    Appended(ev, Event(x, x + g), window, crawl);
  }

  lemma ReachedForGood(ev: seq<Event>, x: real, window: real, crawl: real)
    requires Reached(ev, x, window, crawl) && x < window && crawl > 0.0
    ensures Schedule(ev + [Event(x, window)], window, crawl)
  {
    hide Times;
    Appended(ev, Event(x, window), window, crawl);
  }

  lemma ReachedLater(ev: seq<Event>, x: real, window: real, crawl: real)
    requires Reached(ev, x, window, crawl) && crawl > 0.0
    ensures Reached(ev, x + crawl, window, crawl)
  {
    hide Times, Schedule;
  }

  lemma ReachedSchedule(ev: seq<Event>, x: real, window: real, crawl: real)
    requires Reached(ev, x, window, crawl)
    ensures Schedule(ev, window, crawl)
  {
  }

  /** Model.ScheduleTopic, for any draws. */
  method ScheduleTopic(rng: nat -> real, pow: (real, real) -> real, window: real, windowRealHours: real,
                       cadence: real, hours: real, t: Topic) returns (ev: seq<Event>)
    requires Draws(rng) && window > 0.0 && cadence > 0.0 && hours > 0.0
    requires Fitted(t.km) && Fitted(t.kmReturn) && WholeGaps(t.gapCDF)
    ensures RealHours(window, windowRealHours) > 0.0
    ensures Schedule(ev, window, CrawlSeconds(window, cadence, RealHours(window, windowRealHours)))
    ensures var runHours := RealHours(window, windowRealHours);
            Drawn(World(rng, pow, window, CrawlSeconds(window, cadence, runHours), t), Span(runHours, hours), ev)
  {
    var runHours := RealHours(window, windowRealHours);
    var crawl := CrawlSeconds(window, cadence, runHours);
    CrawlPositive(window, cadence, runHours);
    var span := if runHours / hours < 1.0 then runHours / hours else 1.0;
    SpanIs(runHours, hours);
    hide Times, CrawlSeconds, Span;
    Products(crawl, 0.0, 0.0);
    if rng(0) < Times(1.0 - t.initialUp, span) {
      var arrive := Times(rng(1), window);
      WithinWindow(rng(1), window);
      OneMore(0, crawl);
      ev := Absences(rng, 2, pow, window, crawl, t, [Event(0.0, arrive)], arrive + crawl, t.km, false);
      assert [Event(0.0, arrive)] <= ev;
    } else if rng(1) >= Times(1.0 - t.alwaysOn, span) {
      ev := [];
    } else {
      WithinWindow(rng(2), window);
      ev := Absences(rng, 3, pow, window, crawl, t, [], Times(rng(2), window), t.kmReturn, true);
    }
  }

  lemma SpanIs(runHours: real, hours: real)
    requires hours > 0.0
    ensures Span(runHours, hours) == if runHours / hours < 1.0 then runHours / hours else 1.0
  {
    Fraction(runHours, hours);
  }

  /** What a part of a schedule is drawn for: the first session's start, draws and fit. */
  datatype Part = Part(start: real, first: nat, fit: Fit, leaveFirst: bool)

  /** The absences drawn so far, where their sessions' draws begin, their sessions' lengths, and the age of the
      session under way. */
  datatype Progress = Progress(ev: seq<Event>, ks: seq<nat>, ns: seq<nat>, age: nat)

  /** The absences so far follow their draws, none is for good, and the session under way has stayed so far:
      the time is `x`, the next draw is at `k`, and the fit is `km`. */
  ghost predicate Under(w: World, c: Part, g: Progress, leaveNow: bool, x: real, k: nat, km: Fit) {
    && |g.ks| == |g.ev| + 1 && |g.ns| == |g.ev| && g.ks[0] == c.first
    && (forall j: nat :: j < |g.ev| ==> SessionPlayed(w, c.start, c.fit, c.leaveFirst, g.ev, g.ks, g.ns, j))
    && (forall j: nat :: j < |g.ev| ==> AbsencePlayed(w, c.leaveFirst, g.ev, g.ks, g.ns, j))
    && (forall i: nat :: i < g.age ==> Stays(w, g.ks[|g.ev|], FitOf(w, c.fit, |g.ev|), i))
    && (leaveNow <==> c.leaveFirst && g.ev == []) && (leaveNow ==> g.age == 0)
    && x == SessionStart(g.ev, c.start, |g.ev|) + Times(g.age as real, w.crawl)
    && k == g.ks[|g.ev|] + g.age && km == FitOf(w, c.fit, |g.ev|)
  }

  lemma BeginUnder(w: World, c: Part)
    ensures Under(w, c, Progress([], [c.first], [], 0), c.leaveFirst, c.start, c.first, c.fit)
  {
  }

  lemma UnderStays(w: World, c: Part, g: Progress, x: real, k: nat, km: Fit)
    requires Under(w, c, g, false, x, k, km) && w.rng(k) >= LeaveProb(w.pow, km, g.age as real, 1.0)
    ensures Under(w, c, g.(age := g.age + 1), false, x + w.crawl, k + 1, km)
  {
    assert Stays(w, g.ks[|g.ev|], FitOf(w, c.fit, |g.ev|), g.age);
    hide SessionPlayed, AbsencePlayed, Stays, Times, LeaveProb;
    OneMore(g.age, w.crawl);
  }

  /** The draw at `k` ends the session under way, or none is needed; the draw of its absence is at `a`. */
  ghost predicate Ends(w: World, g: Progress, leaveNow: bool, k: nat, km: Fit, a: nat) {
    if leaveNow then a == k else w.rng(k) < LeaveProb(w.pow, km, g.age as real, 1.0) && a == k + 1
  }

  function After(g: Progress, e: Event, next: nat): Progress {
    Progress(g.ev + [e], g.ks + [next], g.ns + [g.age], 0)
  }

  lemma UnderEnds(w: World, c: Part, g: Progress, leaveNow: bool, x: real, k: nat, km: Fit, e: Event, a: nat, next: nat)
    requires Under(w, c, g, leaveNow, x, k, km) && Ends(w, g, leaveNow, k, km, a) && e.downAt == x < w.window
    ensures var h := After(g, e, next);
            && (forall j: nat :: j < |h.ev| ==> SessionPlayed(w, c.start, c.fit, c.leaveFirst, h.ev, h.ks, h.ns, j))
            && (forall j: nat :: j < |g.ev| ==> AbsencePlayed(w, c.leaveFirst, h.ev, h.ks, h.ns, j))
            && AbsenceDraw(h.ks, h.ns, c.leaveFirst, |g.ev|) == a
  {
    hide LeaveProb, Stays, Returns, Times;
    var h := After(g, e, next);
    forall j: nat | j < |h.ev| ensures SessionPlayed(w, c.start, c.fit, c.leaveFirst, h.ev, h.ks, h.ns, j) {
      if j < |g.ev| { assert SessionPlayed(w, c.start, c.fit, c.leaveFirst, g.ev, g.ks, g.ns, j); }
    }
    forall j: nat | j < |g.ev| ensures AbsencePlayed(w, c.leaveFirst, h.ev, h.ks, h.ns, j) {
      assert AbsencePlayed(w, c.leaveFirst, g.ev, g.ks, g.ns, j);
    }
  }

  lemma UnderReturns(w: World, c: Part, g: Progress, leaveNow: bool, x: real, k: nat, km: Fit, e: Event, a: nat,
                     next: nat)
    requires Under(w, c, g, leaveNow, x, k, km) && Ends(w, g, leaveNow, k, km, a) && e.downAt == x < w.window
    requires Returns(w, e, a, next)
    ensures Under(w, c, After(g, e, next), false, e.upAt, next, w.topic.kmReturn)
  {
    UnderEnds(w, c, g, leaveNow, x, k, km, e, a, next);
    assert Times(0 as real, w.crawl) == 0.0;
    hide LeaveProb, Stays, Returns, Times, SessionPlayed;
  }

  lemma UnderForGood(w: World, c: Part, g: Progress, leaveNow: bool, x: real, k: nat, km: Fit, e: Event, a: nat)
    requires Under(w, c, g, leaveNow, x, k, km) && Ends(w, g, leaveNow, k, km, a) && e.downAt == x < w.window
    requires ForGood(w, e, a)
    ensures Played(w, c.start, c.first, c.fit, c.leaveFirst, g.ev + [e])
  {
    hide LeaveProb, Stays, Returns, Times, SessionPlayed, ForGood;
    UnderEnds(w, c, g, leaveNow, x, k, km, e, a, 0);
    var h := After(g, e, 0);
    assert LeftForGood(w, c.leaveFirst, h.ev, h.ks, h.ns);
    hide AbsencePlayed, LeftForGood;
    assert PlayedBy(w, c.start, c.first, c.fit, c.leaveFirst, h.ev, h.ks, h.ns);
  }

  lemma UnderOutlasts(w: World, c: Part, g: Progress, leaveNow: bool, x: real, k: nat, km: Fit)
    requires Under(w, c, g, leaveNow, x, k, km) && x >= w.window
    ensures Played(w, c.start, c.first, c.fit, c.leaveFirst, g.ev)
  {
    assert leaveNow ==> Times(g.age as real, w.crawl) == 0.0;
    hide LeaveProb, Stays, Times, SessionPlayed, AbsencePlayed;
    assert PlayedBy(w, c.start, c.first, c.fit, c.leaveFirst, g.ev, g.ks, g.ns);
  }

  lemma AbsenceReturns(w: World, e: Event, a: nat, next: nat, units: real)
    requires w.rng(a) >= w.topic.leaveForever && next == a + (if |w.topic.gapCDF| == 0 then 1 else 2)
    requires e.upAt == e.downAt + Times(units, w.crawl)
    requires w.topic.gapCDF == [] ==> units == 1.0
    requires w.topic.gapCDF != [] ==>
               exists i :: 0 <= i < |w.topic.gapCDF| && units == w.topic.gapCDF[i].0
                           && (forall j :: 0 <= j < i ==> w.topic.gapCDF[j].1 < w.rng(a + 1))
                           && (w.rng(a + 1) <= w.topic.gapCDF[i].1 || i == |w.topic.gapCDF| - 1)
    ensures Returns(w, e, a, next)
  {
    if w.topic.gapCDF != [] {
      var i: nat :| i < |w.topic.gapCDF| && units == w.topic.gapCDF[i].0
                    && (forall j :: 0 <= j < i ==> w.topic.gapCDF[j].1 < w.rng(a + 1))
                    && (w.rng(a + 1) <= w.topic.gapCDF[i].1 || i == |w.topic.gapCDF| - 1);
      assert Sampled(w.topic.gapCDF, w.rng(a + 1), i);
    }
  }

  /** The loop of ScheduleTopic, from time `start` on with draws from `first` on. */
  method Absences(rng: nat -> real, first: nat, pow: (real, real) -> real, window: real, crawl: real, t: Topic,
                  before: seq<Event>, start: real, fit: Fit, leaveFirst: bool) returns (ev: seq<Event>)
    requires crawl > 0.0 && Reached(before, start, window, crawl)
    requires Fitted(fit) && Fitted(t.kmReturn) && WholeGaps(t.gapCDF)
    ensures before <= ev && Schedule(ev, window, crawl)
    ensures Played(World(rng, pow, window, crawl, t), start, first, fit, leaveFirst, ev[|before|..])
  {
    hide Times, Over, LeaveProb, Schedule, Under, Sampled, Returns, Played, Reached;
    ev := before;
    var x, age, km, leaveNow, k := start, 0.0, fit, leaveFirst, first;
    ghost var w, c := World(rng, pow, window, crawl, t), Part(start, first, fit, leaveFirst);
    ghost var g := Progress([], [first], [], 0);
    BeginUnder(w, c);
    while x < window
      invariant ev == before + g.ev && Reached(ev, x, window, crawl) && Fitted(km) && age == g.age as real
      invariant Under(w, c, g, leaveNow, x, k, km)
      decreases Over(window - x, crawl)
    {
      var leaves := leaveNow;
      ghost var wasNow, first := leaveNow, k;
      if !leaveNow {
        leaves := rng(k) < LeaveProb(pow, km, age, 1.0);
        k := k + 1;
      }
      if leaves {
        leaveNow := false;
        if rng(k) < t.leaveForever {
          ReachedForGood(ev, x, window, crawl);
          UnderForGood(w, c, g, wasNow, x, first, km, Event(x, window), k);
          assert (ev + [Event(x, window)])[|before|..] == g.ev + [Event(x, window)];
          return ev + [Event(x, window)];
        }
        var units := Gap(t.gapCDF, rng(k + 1));
        AtLeastUnit(units, crawl);
        var e := Event(x, x + Times(units, crawl));
        ghost var a := k;
        k := k + (if |t.gapCDF| == 0 then 1 else 2); // an empty distribution draws nothing
        AbsenceReturns(w, e, a, k, units);
        UnderReturns(w, c, g, wasNow, x, first, km, e, a, k);
        UnitsLeft(window, crawl, x, e.upAt);
        ReachedAbsence(ev, x, e.upAt - x, window, crawl);
        ev, g := ev + [e], After(g, e, k);
        x := e.upAt;
        age, km := 0.0, t.kmReturn;
      } else {
        UnitsLeft(window, crawl, x, x + crawl);
        ReachedLater(ev, x, window, crawl);
        UnderStays(w, c, g, x, first, km);
        g := g.(age := g.age + 1);
        age := age + 1.0;
        x := x + crawl;
      }
    }
    ReachedSchedule(ev, x, window, crawl);
    UnderOutlasts(w, c, g, leaveNow, x, k, km);
    assert ev[|before|..] == g.ev;
  }

  lemma CrawlPositive(window: real, cadence: real, hours: real)
    requires window > 0.0 && cadence > 0.0 && hours > 0.0
    ensures CrawlSeconds(window, cadence, hours) > 0.0
  {
    hide Times, Over;
    Positive(window, cadence);
    Quotient(Times(window, cadence), hours);
    Products(hours, 0.0, 0.0);
    InOrder(hours, 0.0, CrawlSeconds(window, cadence, hours));
    if CrawlSeconds(window, cadence, hours) == 0.0 {
      assert false;
    }
  }

  /** A crawl unit: as many of them in the window as crawls in the hours it stands for, the real ones unless
      others are asked for. */
  lemma UnitIs(window: real, windowRealHours: real, cadence: real)
    requires window > 0.0 && cadence > 0.0
    ensures var hours := RealHours(window, windowRealHours);
            && hours > 0.0 && CrawlSeconds(window, cadence, hours) * hours == window * cadence
            && (if windowRealHours > 0.0 then hours == windowRealHours else hours * 3600.0 == window)
  {
    var hours := RealHours(window, windowRealHours);
    Quotient(Times(window, cadence), hours);
    assert Times(hours, CrawlSeconds(window, cadence, hours)) == CrawlSeconds(window, cadence, hours) * hours;
  }

  /** A schedule holds at most one absence more than the window has whole crawl units. */
  lemma FewEvents(ev: seq<Event>, window: real, cadence: real, hours: real)
    requires window > 0.0 && cadence > 0.0 && hours > 0.0 && |ev| > 0
    requires Schedule(ev, window, CrawlSeconds(window, cadence, hours))
    ensures (|ev| - 1) as real * cadence < hours
  {
    var r, crawl := (|ev| - 1) as real, CrawlSeconds(window, cadence, hours);
    assert Times(r, cadence) == r * cadence;
    hide Times, Over;
    assert Times(r, crawl) <= ev[|ev| - 1].downAt < window;
    Quotient(Times(window, cadence), hours);
    Assoc(r, hours, crawl);
    Assoc(r, window, cadence);
    Products(hours, window, Times(r, crawl));
    Positive(hours, window - Times(r, crawl));
    Products(window, hours, Times(r, cadence));
    Products(hours, window, 0.0);
    if hours <= Times(r, cadence) {
      Scale(window, hours, Times(r, cadence));
    }
  }
}
