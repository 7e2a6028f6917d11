/** When a node ran: up_intervals, down_since, scheduled_down_since and online_ms of
    figures/checks.py. Times are whole milliseconds. */
module Liveness {

  import opened Wrappers

  /** From `a` to `b`: closed where it tells when a process ran, open at `b` where time is added up. */
  datatype Interval = Interval(a: int, b: int)

  // ---------------------------------------------------------------------- merged intervals

  ghost predicate Holds(iv: Interval, t: int) {
    iv.a <= t <= iv.b
  }

  /** Some interval holds the instant. */
  ghost predicate Covered(ivs: seq<Interval>, t: int) {
    exists k :: 0 <= k < |ivs| && Holds(ivs[k], t)
  }

  predicate Before(x: Interval, y: Interval) {
    x.a < y.a || (x.a == y.a && x.b <= y.b)
  }

  ghost predicate Sorted(ivs: seq<Interval>) {
    forall i, j :: 0 <= i < j < |ivs| ==> ivs[i].a <= ivs[j].a
  }

  /** Each interval ends before the next begins. */
  ghost predicate Separated(ivs: seq<Interval>) {
    forall k :: 0 <= k < |ivs| - 1 ==> ivs[k].b < ivs[k + 1].a
  }

  method Insert(ivs: seq<Interval>, x: Interval) returns (r: seq<Interval>)
    requires Sorted(ivs)
    ensures Sorted(r) && r != [] && (forall y :: y in r <==> y in ivs || y == x)
  {
    var i := |ivs|;
    while i > 0 && !Before(ivs[i - 1], x)
      invariant 0 <= i <= |ivs|
      invariant forall j :: i <= j < |ivs| ==> x.a <= ivs[j].a
    {
      i := i - 1;
    }
    r := ivs[..i] + [x] + ivs[i..];
    forall y ensures y in r <==> y in ivs || y == x {
      assert ivs == ivs[..i] + ivs[i..];
    }
  }

  /** Python's sorted. */
  method SortIntervals(ivs: seq<Interval>) returns (r: seq<Interval>)
    ensures Sorted(r) && (forall y :: y in r <==> y in ivs)
  {
    r := [];
    for i := 0 to |ivs|
      invariant Sorted(r) && (forall y :: y in r <==> y in ivs[..i])
    {
      r := Insert(r, ivs[i]);
    }
    assert ivs[..|ivs|] == ivs;
  }

  /** Sessions as recorded, and each sample give or take `w`. */
  function Records(sessions: seq<Interval>, samples: seq<int>, w: int): seq<Interval> {
    sessions + seq(|samples|, i requires 0 <= i < |samples| => Interval(samples[i] - w, samples[i] + w))
  }

  /** The merged form: sorted, strictly separated, holding the same instants. */
  ghost predicate Merges(ivs: seq<Interval>, r: seq<Interval>) {
    Sorted(r) && Separated(r) && (forall t :: Covered(r, t) <==> Covered(ivs, t))
  }

  ghost predicate Proper(ivs: seq<Interval>) {
    forall k :: 0 <= k < |ivs| ==> ivs[k].a <= ivs[k].b
  }

  /** One interval more, starting no earlier than those merged. */
  function Merge1(r: seq<Interval>, x: Interval): (r': seq<Interval>)
    ensures r' != []
  {
    if r != [] && x.a <= r[|r| - 1].b
    then r[..|r| - 1] + [Interval(r[|r| - 1].a, if r[|r| - 1].b > x.b then r[|r| - 1].b else x.b)]
    else r + [x]
  }

  lemma MergeCovers(r: seq<Interval>, x: Interval, t: int)
    requires r != [] ==> r[|r| - 1].a <= x.a
    ensures Covered(Merge1(r, x), t) <==> Covered(r, t) || Holds(x, t)
  {
    var r' := Merge1(r, x);
    var n := |r| - 1;
    if r != [] && x.a <= r[n].b {
      assert Holds(r'[n], t) <==> Holds(r[n], t) || Holds(x, t);
      assert forall k :: 0 <= k < n ==> r'[k] == r[k];
    } else {
      assert r'[|r|] == x;
      assert forall k :: 0 <= k < |r| ==> r'[k] == r[k];
    }
  }

  lemma MergeKeeps(ivs: seq<Interval>, i: nat, r: seq<Interval>)
    requires Sorted(ivs) && i < |ivs| && Merges(ivs[..i], r) && (forall k :: 0 <= k < |r| ==> r[k].a <= ivs[i].a)
    ensures Merges(ivs[..i + 1], Merge1(r, ivs[i]))
    ensures forall k :: 0 <= k < |Merge1(r, ivs[i])| ==> Merge1(r, ivs[i])[k].a <= ivs[i].a
  {
    hide Covered;
    var r' := Merge1(r, ivs[i]);
    forall t ensures Covered(r', t) <==> Covered(ivs[..i + 1], t) {
      MergeCovers(r, ivs[i], t);
      CoveredAppend(ivs[..i], ivs[i], t);
      assert ivs[..i + 1] == ivs[..i] + [ivs[i]];
    }
    assert Sorted(r') && Separated(r');
  }

  lemma CoveredAppend(ivs: seq<Interval>, x: Interval, t: int)
    ensures Covered(ivs + [x], t) <==> Covered(ivs, t) || Holds(x, t)
  {
    var ivs' := ivs + [x];
    assert ivs'[|ivs|] == x;
    assert forall k :: 0 <= k < |ivs| ==> ivs'[k] == ivs[k];
  }

  lemma SameMembers(ivs: seq<Interval>, r: seq<Interval>, t: int)
    requires forall y :: y in r <==> y in ivs
    ensures Covered(r, t) <==> Covered(ivs, t)
  {
    if Covered(r, t) {
      var k :| 0 <= k < |r| && Holds(r[k], t);
      assert r[k] in ivs;
    }
    if Covered(ivs, t) {
      var k :| 0 <= k < |ivs| && Holds(ivs[k], t);
      assert ivs[k] in r;
    }
  }

  /** A sample tells of the instants no further than `w` from it. */
  ghost predicate Near(samples: seq<int>, w: int, t: int) {
    exists k :: 0 <= k < |samples| && -w <= t - samples[k] <= w
  }

  lemma RecordsCover(sessions: seq<Interval>, samples: seq<int>, w: int, t: int)
    ensures Covered(Records(sessions, samples, w), t) <==> Covered(sessions, t) || Near(samples, w, t)
  {
    var all := Records(sessions, samples, w);
    assert forall k :: 0 <= k < |sessions| ==> all[k] == sessions[k];
    assert forall k :: 0 <= k < |samples| ==>
        all[|sessions| + k] == Interval(samples[k] - w, samples[k] + w);
    if Near(samples, w, t) {
      var k :| 0 <= k < |samples| && -w <= t - samples[k] <= w;
      assert Holds(all[|sessions| + k], t);
    }
    if Covered(sessions, t) {
      var k :| 0 <= k < |sessions| && Holds(sessions[k], t);
      assert Holds(all[k], t);
    }
    if Covered(all, t) {
      var k :| 0 <= k < |all| && Holds(all[k], t);
      assert if k < |sessions| then Holds(sessions[k], t) else -w <= t - samples[k - |sessions|] <= w;
    }
  }

  lemma RecordsProper(sessions: seq<Interval>, samples: seq<int>, w: int)
    requires Proper(sessions) && w >= 0
    ensures Proper(Records(sessions, samples, w))
  {
  }

  /** up_intervals: sorted and apart, holding exactly the instants of the recorded sessions and those within
      `w` of a sample. */
  method UpIntervals(sessions: seq<Interval>, samples: seq<int>, w: int) returns (r: seq<Interval>)
    ensures Sorted(r) && Separated(r)
    ensures forall t :: Covered(r, t) <==> Covered(sessions, t) || Near(samples, w, t)
    ensures Proper(sessions) && w >= 0 ==> Proper(r)
    ensures r == [] <==> sessions == [] && samples == []
  {
    hide Covered, Merges, Near;
    var all := Records(sessions, samples, w);
    if Proper(sessions) && w >= 0 { RecordsProper(sessions, samples, w); }
    var ivs := SortIntervals(all);
    assert all != [] ==> all[0] in ivs;
    assert ivs != [] ==> ivs[0] in all;
    r := [];
    assert Merges(ivs[..0], r) by { MergesNone(); }
    for i := 0 to |ivs|
      invariant Merges(ivs[..i], r) && (i > 0 ==> r != []) && (i == 0 ==> r == [])
      invariant forall j, k :: i <= j < |ivs| && 0 <= k < |r| ==> r[k].a <= ivs[j].a
      invariant Proper(all) ==> Proper(r)
    {
      assert ivs[i] in all;
      MergeKeeps(ivs, i, r);
      if r != [] && ivs[i].a <= r[|r| - 1].b {
        r := r[..|r| - 1] + [Interval(r[|r| - 1].a, if r[|r| - 1].b > ivs[i].b then r[|r| - 1].b else ivs[i].b)];
      } else {
        r := r + [ivs[i]];
      }
    }
    assert ivs[..|ivs|] == ivs;
    SameMerge(all, ivs, r);
    MergedHolds(sessions, samples, w, r);
  }

  lemma MergedHolds(sessions: seq<Interval>, samples: seq<int>, w: int, r: seq<Interval>)
    requires Merges(Records(sessions, samples, w), r)
    ensures Sorted(r) && Separated(r)
    ensures forall t :: Covered(r, t) <==> Covered(sessions, t) || Near(samples, w, t)
  {
    hide Covered, Near, Records;
    forall t ensures Covered(r, t) <==> Covered(sessions, t) || Near(samples, w, t) {
      RecordsCover(sessions, samples, w, t);
    }
  }

  lemma MergesNone()
    ensures Merges([], [])
  {
  }

  lemma SameMerge(all: seq<Interval>, ivs: seq<Interval>, r: seq<Interval>)
    requires Merges(ivs, r) && forall y :: y in ivs <==> y in all
    ensures Merges(all, r)
  {
    hide Covered;
    forall t ensures Covered(ivs, t) <==> Covered(all, t) { SameMembers(all, ivs, t); }
  }

  // --------------------------------------------------------------------- how long down

  predicate Away(iv: Interval, t: int) {
    iv.a <= t < iv.b
  }

  ghost predicate FirstAway(sched: seq<Interval>, t: int, k: nat)
    requires k < |sched|
  {
    Away(sched[k], t) && forall j :: 0 <= j < k ==> !Away(sched[j], t)
  }

  /** scheduled_down_since: the time since the first scheduled absence holding the instant. */
  method ScheduledDownSince(sched: seq<Interval>, at: int) returns (r: Option<int>)
    ensures r.None? <==> forall k :: 0 <= k < |sched| ==> !Away(sched[k], at)
    ensures r.Some? ==> exists k :: 0 <= k < |sched| && FirstAway(sched, at, k) && r.value == at - sched[k].a
  {
    for k := 0 to |sched|
      invariant forall j :: 0 <= j < k ==> !Away(sched[j], at)
    {
      if sched[k].a <= at < sched[k].b {
        assert FirstAway(sched, at, k);
        return Some(at - sched[k].a);
      }
    }
    return None;
  }

  /** bisect_right, less one: the last interval starting by `at`. */
  method LastStart(up: seq<Interval>, at: int) returns (k: nat)
    requires Sorted(up) && up != [] && up[0].a <= at
    ensures k < |up| && up[k].a <= at && forall j :: k < j < |up| ==> up[j].a > at
  {
    var lo, hi := 0, |up|;
    while lo < hi
      invariant 0 <= lo <= hi <= |up|
      invariant forall j :: 0 <= j < lo ==> up[j].a <= at
      invariant forall j :: hi <= j < |up| ==> up[j].a > at
    {
      var mid := (lo + hi) / 2;
      if at < up[mid].a {
        hi := mid;
      } else {
        lo := mid + 1;
      }
    }
    k := lo - 1;
  }

  /** `d` is the distance to the latest covered instant. */
  ghost predicate SinceCovered(up: seq<Interval>, at: int, d: int) {
    d > 0 && Covered(up, at - d) && forall t :: at - d < t <= at ==> !Covered(up, t)
  }

  /** down_since: before the start the node has just not started; before its first record, and past its last once
      the run is over, the schedule decides; in between, the trace does. An empty `up` stands for
      a node without a trace that records it. */
  method DownSince(up: seq<Interval>, sched: seq<Interval>, start: Option<int>, stop: Option<int>, w: int, at: int)
    returns (r: Option<int>, ghost sd: Option<int>)
    requires Sorted(up) && Separated(up) && Proper(up)
    ensures sd.None? <==> forall k :: 0 <= k < |sched| ==> !Away(sched[k], at)
    ensures sd.Some? ==> exists k :: 0 <= k < |sched| && Away(sched[k], at) && sd.value == at - sched[k].a
    ensures up == [] ==> r == sd
    ensures up != [] && start.Some? && at < start.value ==> r == Some(0)
    ensures up != [] && (start.Some? ==> start.value <= at) && at < up[0].a ==> r == sd
    ensures up != [] && (start.Some? ==> start.value <= at) && up[0].a <= at ==>
              if at > up[|up| - 1].b && (stop.None? || at > stop.value + w) then r == sd
              else (r.None? <==> Covered(up, at)) && (r.Some? ==> SinceCovered(up, at, r.value))
  {
    var s := ScheduledDownSince(sched, at);
    sd := s;
    if up == [] {
      return s, sd;
    }
    if start.Some? && at < start.value {
      return Some(0), sd;
    }
    if at < up[0].a {
      return s, sd;
    }
    var k := LastStart(up, at);
    LastTells(up, at, k);
    if at <= up[k].b {
      return None, sd;
    }
    if k == |up| - 1 && (stop.None? || at > stop.value + w) {
      return s, sd;
    }
    r := Some(at - up[k].b);
  }

  lemma {:induction false} EndsInOrder(up: seq<Interval>, j: nat, k: nat)
    requires Separated(up) && Proper(up) && j < k < |up|
    ensures up[j].b < up[k].a
    decreases k - j
  {
    if j + 1 < k {
      EndsInOrder(up, j + 1, k);
    }
  }

  lemma LastTells(up: seq<Interval>, at: int, k: nat)
    requires Separated(up) && Proper(up) && k < |up| && up[k].a <= at && forall j :: k < j < |up| ==> up[j].a > at
    ensures Covered(up, at) <==> at <= up[k].b
    ensures at > up[k].b ==> SinceCovered(up, at, at - up[k].b)
    ensures at > up[|up| - 1].b ==> k == |up| - 1
  {
    if k < |up| - 1 { EndsInOrder(up, k, |up| - 1); }
    forall t, j | up[k].b < t <= at && 0 <= j < |up| ensures !Holds(up[j], t) {
      if j < k { EndsInOrder(up, j, k); }
    }
    assert Holds(up[k], up[k].b);
    if at <= up[k].b { assert Holds(up[k], at); }
  }

  // ----------------------------------------------------------------------- online time

  function Min(x: int, y: int): int { if x < y then x else y }

  function Max(x: int, y: int): int { if x > y then x else y }

  /** The part of [lo, hi) an interval takes. */
  function Overlap(iv: Interval, lo: int, hi: int): nat {
    Max(0, Min(iv.b, hi) - Max(iv.a, lo))
  }

  function Overlaps(ivs: seq<Interval>, lo: int, hi: int): nat {
    if ivs == [] then 0 else Overlaps(ivs[..|ivs| - 1], lo, hi) + Overlap(ivs[|ivs| - 1], lo, hi)
  }

  /** online_ms's scheduled. */
  function ScheduledMs(sched: seq<Interval>, lo: int, hi: int): int {
    Max(0, hi - lo) - Overlaps(sched, lo, hi)
  }

  /** online_ms; an empty `up` stands for a node without a trace. */
  function OnlineMs(up: seq<Interval>, sched: seq<Interval>, lo: int, hi: int): int {
    if up == [] then ScheduledMs(sched, lo, hi)
    else ScheduledMs(sched, lo, Min(hi, up[0].a)) + Overlaps(up, lo, hi)
  }

  /** How many of the intervals an instant is in. */
  function Times(ivs: seq<Interval>, t: int): nat {
    if ivs == [] then 0 else Times(ivs[..|ivs| - 1], t) + if Away(ivs[|ivs| - 1], t) then 1 else 0
  }

  /** Instants of [lo, hi) in some interval, and how often they are in one. */
  function Inside(ivs: seq<Interval>, lo: int, hi: int): (n: nat)
    ensures n <= Max(0, hi - lo)
    decreases hi - lo
  {
    if hi <= lo then 0 else Inside(ivs, lo, hi - 1) + if Times(ivs, hi - 1) > 0 then 1 else 0
  }

  function TimesSum(ivs: seq<Interval>, lo: int, hi: int): nat
    decreases hi - lo
  {
    if hi <= lo then 0 else TimesSum(ivs, lo, hi - 1) + Times(ivs, hi - 1)
  }

  lemma {:induction false} OneInterval(ivs: seq<Interval>, lo: int, hi: int)
    requires ivs != []
    ensures TimesSum(ivs, lo, hi) == TimesSum(ivs[..|ivs| - 1], lo, hi) + Overlap(ivs[|ivs| - 1], lo, hi)
    decreases hi - lo
  {
    if lo < hi {
      OneInterval(ivs, lo, hi - 1);
    }
  }

  lemma {:induction false} NoInterval(lo: int, hi: int)
    ensures TimesSum([], lo, hi) == 0
    decreases hi - lo
  {
    if lo < hi { NoInterval(lo, hi - 1); }
  }

  /** Adding up the overlaps counts every instant as often as it is held. */
  lemma {:induction false} OverlapsCount(ivs: seq<Interval>, lo: int, hi: int)
    ensures Overlaps(ivs, lo, hi) == TimesSum(ivs, lo, hi)
    decreases |ivs|
  {
    if ivs == [] {
      NoInterval(lo, hi);
    } else {
      OverlapsCount(ivs[..|ivs| - 1], lo, hi);
      OneInterval(ivs, lo, hi);
    }
  }

  /** No instant of [lo, hi) is in two of the intervals. */
  ghost predicate HeldOnce(ivs: seq<Interval>, lo: int, hi: int) {
    forall t :: lo <= t < hi ==> Times(ivs, t) <= 1
  }

  lemma HeldOnceMore(ivs: seq<Interval>, lo: int, hi: int)
    requires lo < hi
    ensures HeldOnce(ivs, lo, hi) <==> HeldOnce(ivs, lo, hi - 1) && Times(ivs, hi - 1) <= 1
  {
    hide Times;
  }

  lemma {:induction false} InsideAgainstSum(ivs: seq<Interval>, lo: int, hi: int)
    ensures Inside(ivs, lo, hi) <= TimesSum(ivs, lo, hi)
    ensures Inside(ivs, lo, hi) == TimesSum(ivs, lo, hi) <==> HeldOnce(ivs, lo, hi)
    decreases hi - lo
  {
    if lo < hi {
      hide Times, HeldOnce;
      InsideAgainstSum(ivs, lo, hi - 1);
      HeldOnceMore(ivs, lo, hi);
    }
  }

  /** The scheduled online time is the window less the instants away, exactly when no instant of the
      window is in two absences; otherwise it falls short of it. */
  lemma ScheduledIsMeasure(sched: seq<Interval>, lo: int, hi: int)
    ensures ScheduledMs(sched, lo, hi) <= Max(0, hi - lo) - Inside(sched, lo, hi)
    ensures ScheduledMs(sched, lo, hi) == Max(0, hi - lo) - Inside(sched, lo, hi) <==> HeldOnce(sched, lo, hi)
  {
    hide Times, HeldOnce;
    OverlapsCount(sched, lo, hi);
    InsideAgainstSum(sched, lo, hi);
  }

  /** Absences one after the other hold no instant twice. */
  lemma {:induction false} InOrderHoldsOnce(ivs: seq<Interval>, t: int)
    requires forall k :: 0 <= k < |ivs| ==> ivs[k].a <= ivs[k].b
    requires forall k :: 0 <= k < |ivs| - 1 ==> ivs[k].b <= ivs[k + 1].a
    ensures Times(ivs, t) <= 1 && (Times(ivs, t) == 1 ==> ivs != [] && ivs[0].a <= t < ivs[|ivs| - 1].b)
  {
    if ivs != [] {
      InOrderHoldsOnce(ivs[..|ivs| - 1], t);
      if |ivs| > 1 { StartsBefore(ivs, |ivs| - 1); }
    }
  }

  lemma {:induction false} StartsBefore(ivs: seq<Interval>, k: nat)
    requires (forall i :: 0 <= i < |ivs| ==> ivs[i].a <= ivs[i].b)
    requires (forall i :: 0 <= i < |ivs| - 1 ==> ivs[i].b <= ivs[i + 1].a) && k < |ivs|
    ensures ivs[0].a <= ivs[k].a
  {
    if k > 0 { StartsBefore(ivs, k - 1); }
  }

  /** The node is online by the schedule before its first record, and by its trace from there. */
  predicate Online(up: seq<Interval>, sched: seq<Interval>, t: int) {
    if up == [] || t < up[0].a then Times(sched, t) == 0 else Times(up, t) > 0
  }

  /** The measure of online time in [lo, hi). */
  function OnlineTime(up: seq<Interval>, sched: seq<Interval>, lo: int, hi: int): (n: nat)
    ensures n <= Max(0, hi - lo)
    decreases hi - lo
  {
    if hi <= lo then 0 else OnlineTime(up, sched, lo, hi - 1) + if Online(up, sched, hi - 1) then 1 else 0
  }

  lemma {:induction false} OnlineBeforeTrace(up: seq<Interval>, sched: seq<Interval>, lo: int, hi: int)
    requires up == [] || hi <= up[0].a
    ensures OnlineTime(up, sched, lo, hi) == Max(0, hi - lo) - Inside(sched, lo, hi)
    decreases hi - lo
  {
    if lo < hi { OnlineBeforeTrace(up, sched, lo, hi - 1); }
  }

  lemma {:induction false} OnlineFromTrace(up: seq<Interval>, sched: seq<Interval>, lo: int, hi: int)
    requires up != [] && forall t :: t < up[0].a ==> Times(up, t) == 0
    ensures OnlineTime(up, sched, lo, hi) == OnlineTime(up, sched, lo, Min(hi, up[0].a)) + Inside(up, lo, hi)
    decreases hi - lo
  {
    if lo < hi {
      OnlineFromTrace(up, sched, lo, hi - 1);
    }
  }

  /** The end of the part of a window that the schedule decides. */
  function ScheduledUntil(up: seq<Interval>, hi: int): int {
    if up == [] then hi else Min(hi, up[0].a)
  }

  /** online_ms is the measure of online time, so within the window's length, exactly when no instant
      that the schedule decides is in two absences; otherwise it falls short. */
  lemma OnlineIsMeasure(up: seq<Interval>, sched: seq<Interval>, lo: int, hi: int)
    requires Separated(up) && Proper(up)
    ensures OnlineMs(up, sched, lo, hi) <= OnlineTime(up, sched, lo, hi) <= Max(0, hi - lo)
    ensures OnlineMs(up, sched, lo, hi) == OnlineTime(up, sched, lo, hi) <==>
              HeldOnce(sched, lo, ScheduledUntil(up, hi))
  {
    hide Times, Overlaps, Inside, OnlineTime, ScheduledMs;
    var cut := ScheduledUntil(up, hi);
    ScheduledIsMeasure(sched, lo, cut);
    OnlineBeforeTrace(up, sched, lo, cut);
    if up != [] {
      forall t ensures Times(up, t) <= 1 && (t < up[0].a ==> Times(up, t) == 0) {
        InOrderHoldsOnce(up, t);
      }
      OnlineFromTrace(up, sched, lo, hi);
      OverlapsCount(up, lo, hi);
      InsideAgainstSum(up, lo, hi);
    }
  }

  /** Absences held twice can take the result below zero. */
  lemma OverlappingAbsences(lo: int, hi: int)
    requires lo < hi
    ensures OnlineMs([], [Interval(lo, hi), Interval(lo, hi)], lo, hi) == lo - hi
  {
    var two := [Interval(lo, hi), Interval(lo, hi)];
    assert two[..1] == [Interval(lo, hi)] && [Interval(lo, hi)][..0] == [];
    assert Overlaps([Interval(lo, hi)], lo, hi) == hi - lo;
    assert Overlaps(two, lo, hi) == 2 * (hi - lo);
  }
}
