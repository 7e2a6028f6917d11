/** The rise of a cumulative counter over samples, and the cut at the run's stop: increase, upToStop
    and the netns rules of hostDrops in pkg/coordinator/collect.go, mirrored in figures/checks.py. */
module CounterRise {

  import opened Wrappers
  import opened Collections

  /** What a sample read of a counter; None where it was not measured. */
  type Reading = Option<nat>

  // ------------------------------------------------------------------ rise of a series

  /** The rise between two readings: a fall is a reset, after which the value is all rise. */
  function Step(prev: nat, x: nat): nat {
    if x >= prev then x - prev else x
  }

  /** The rise over `rs` when the last reading before was `prev`. */
  function RiseFrom(prev: nat, rs: seq<Reading>): nat
    decreases |rs|
  {
    if rs == [] then 0
    else if rs[0].None? then RiseFrom(prev, rs[1..])
    else Step(prev, rs[0].value) + RiseFrom(rs[0].value, rs[1..])
  }

  function Rise(rs: seq<Reading>): nat {
    if rs == [] then 0
    else if rs[0].None? then Rise(rs[1..])
    else RiseFrom(rs[0].value, rs[1..])
  }

  /** The last reading, if any sample was measured. */
  function Last(rs: seq<Reading>): Reading {
    if rs == [] then None
    else if rs[|rs| - 1].Some? then rs[|rs| - 1]
    else Last(rs[..|rs| - 1])
  }

  /** The rise over `rs` after an optional earlier reading. */
  function RiseAfter(prev: Reading, rs: seq<Reading>): nat {
    if prev.Some? then RiseFrom(prev.value, rs) else Rise(rs)
  }

  /** increase. */
  method Increase(rs: seq<Reading>) returns (tot: nat)
    ensures tot == Rise(rs)
  {
    var prev, seen := 0, false;
    tot := 0;
    for i := 0 to |rs|
      invariant Rise(rs) == tot + RiseAfter(if seen then Some(prev) else None, rs[i..])
      invariant !seen ==> tot == 0
    {
      assert rs[i..][1..] == rs[i + 1..];
      if rs[i].None? {
        continue;
      }
      var x := rs[i].value;
      if seen {
        if x >= prev {
          tot := tot + (x - prev);
        } else {
          tot := tot + x;
        }
      }
      prev, seen := x, true;
    }
  }

  lemma {:induction false} SplitFrom(prev: nat, a: seq<Reading>, b: seq<Reading>)
    ensures RiseFrom(prev, a + b) == RiseFrom(prev, a) + RiseFrom(if Last(a).Some? then Last(a).value else prev, b)
    decreases |a|
  {
    if a == [] {
      assert a + b == b;
    } else {
      assert (a + b)[1..] == a[1..] + b;
      LastTail(a);
      SplitFrom(if a[0].Some? then a[0].value else prev, a[1..], b);
    }
  }

  lemma {:induction false} LastTail(a: seq<Reading>)
    requires a != []
    ensures Last(a) == if Last(a[1..]).Some? then Last(a[1..]) else a[0]
  {
    if |a| > 1 && a[|a| - 1].None? {
      LastTail(a[..|a| - 1]);
      assert a[..|a| - 1][1..] == a[1..][..|a[1..]| - 1];
    }
  }

  /** Cutting a series anywhere loses nothing when the tail counts on from the last reading before. */
  lemma {:induction false} Split(a: seq<Reading>, b: seq<Reading>)
    ensures Rise(a + b) == Rise(a) + RiseAfter(Last(a), b)
    decreases |a|
  {
    if a == [] {
      assert a + b == b;
    } else {
      assert (a + b)[1..] == a[1..] + b;
      LastTail(a);
      if a[0].None? {
        Split(a[1..], b);
      } else {
        SplitFrom(a[0].value, a[1..], b);
      }
    }
  }

  /** Split at a measured sample, the two parts share it. */
  lemma SplitAtMeasured(a: seq<Reading>, x: nat, b: seq<Reading>)
    ensures Rise(a + [Some(x)] + b) == Rise(a + [Some(x)]) + Rise([Some(x)] + b)
  {
    var at := a + [Some(x)];
    Split(at, b);
    assert Last(at) == Some(x);
    assert ([Some(x)] + b)[1..] == b;
  }

  // -------------------------------------------------------- what the counter lived through

  /** A counter's life: it counts an event, restarts from zero, or is looked at. */
  datatype Tick = Event | Reset | Look(measured: bool)

  function Counter(c: nat, life: seq<Tick>): nat
    decreases |life|
  {
    if life == [] then c
    else Counter(match life[0] case Event => c + 1 case Reset => 0 case Look(_) => c, life[1..])
  }

  /** The samples taken, the counter starting at `c`. */
  function Readings(c: nat, life: seq<Tick>): seq<Reading>
    decreases |life|
  {
    if life == [] then []
    else match life[0]
      case Event => Readings(c + 1, life[1..])
      case Reset => Readings(0, life[1..])
      case Look(m) => [if m then Some(c) else None] + Readings(c, life[1..])
  }

  function Events(life: seq<Tick>): nat {
    if life == [] then 0 else (if life[0].Event? then 1 else 0) + Events(life[1..])
  }

  /** Nothing is hidden from the readings, the counter being at `c`, last read as `prev` and having
      counted `e` events since, with or without a reset in between: an interval with a reset must
      have had no event before its last reset, and must show the reset as a fall (or have started
      at zero). */
  ghost predicate Visible(prev: nat, c: nat, e: nat, was: bool, life: seq<Tick>)
    decreases |life|
  {
    if life == [] then true
    else match life[0]
      case Event => Visible(prev, c + 1, e + 1, was, life[1..])
      case Reset => Visible(prev, 0, e, true, life[1..])
      case Look(m) =>
        if !m then Visible(prev, c, e, was, life[1..])
        else (was ==> c == e && (prev == 0 || c < prev)) && Visible(c, c, 0, false, life[1..])
  }

  const MEASURED := Look(true)

  /** The heart of it: what is read until the closing measured sample, against what happened. */
  lemma {:induction false} RiseAgainstEvents(prev: nat, c: nat, e: nat, was: bool, life: seq<Tick>)
    requires if was then c <= e else c == prev + e
    ensures RiseFrom(prev, Readings(c, life + [MEASURED])) <= e + Events(life)
    ensures RiseFrom(prev, Readings(c, life + [MEASURED])) == e + Events(life) <==>
              Visible(prev, c, e, was, life + [MEASURED])
    decreases |life|
  {
    var rest := (life + [MEASURED])[1..];
    if life == [] {
      assert rest == [];
      assert Readings(c, [MEASURED]) == [Some(c)];
      assert [Some(c)][1..] == [];
    } else {
      assert rest == life[1..] + [MEASURED];
      match life[0] {
        case Event => RiseAgainstEvents(prev, c + 1, e + 1, was, life[1..]);
        case Reset => RiseAgainstEvents(prev, 0, e, true, life[1..]);
        case Look(m) =>
          assert Readings(c, life + [MEASURED])[1..] == Readings(c, rest);
          if m {
            RiseAgainstEvents(c, c, 0, false, life[1..]);
          } else {
            RiseAgainstEvents(prev, c, e, was, life[1..]);
          }
      }
    }
  }

  ghost predicate Unmeasured(life: seq<Tick>) {
    forall i :: 0 <= i < |life| ==> life[i] != MEASURED
  }

  lemma {:induction false} ReadingsSplit(c: nat, a: seq<Tick>, b: seq<Tick>)
    ensures Readings(c, a + b) == Readings(c, a) + Readings(Counter(c, a), b)
    decreases |a|
  {
    if a == [] {
      assert a + b == b;
    } else {
      assert (a + b)[1..] == a[1..] + b;
      ReadingsSplit(match a[0] case Event => c + 1 case Reset => 0 case Look(_) => c, a[1..], b);
    }
  }

  lemma {:induction false} NothingRead(c: nat, life: seq<Tick>)
    requires Unmeasured(life)
    ensures forall i :: 0 <= i < |Readings(c, life)| ==> Readings(c, life)[i].None?
    decreases |life|
  {
    if life != [] {
      NothingRead(match life[0] case Event => c + 1 case Reset => 0 case Look(_) => c, life[1..]);
    }
  }

  lemma {:induction false} NoneAddsNothing(prev: Reading, rs: seq<Reading>, more: seq<Reading>)
    requires forall i :: 0 <= i < |rs| ==> rs[i].None?
    ensures RiseAfter(prev, rs + more) == RiseAfter(prev, more)
    decreases |rs|
  {
    if rs == [] {
      assert rs + more == more;
    } else {
      assert (rs + more)[1..] == rs[1..] + more;
      NoneAddsNothing(prev, rs[1..], more);
    }
  }

  /** For every life of a counter, its computed rise is at most the number of events between its
      first and its last measured sample, and equals it exactly when no reset hides one. */
  lemma RiseWithinEvents(c: nat, before: seq<Tick>, between: seq<Tick>, after: seq<Tick>)
    requires Unmeasured(before) && Unmeasured(after)
    ensures var rise := Rise(Readings(c, before + ([MEASURED] + (between + [MEASURED]) + after)));
            var c1 := Counter(c, before); (
      rise <= Events(between) && (rise == Events(between) <==> Visible(c1, c1, 0, false, between + [MEASURED])))
  {
    hide Events, Visible, Counter, Last;
    var c1 := Counter(c, before);
    var mid := between + [MEASURED];
    ReadingsSplit(c, before, [MEASURED] + mid + after);
    NothingRead(c, before);
    NoneAddsNothing(None, Readings(c, before), Readings(c1, [MEASURED] + mid + after));
    assert ([MEASURED] + mid + after)[1..] == mid + after;
    var rest := Readings(c1, mid + after);
    assert ([Some(c1)] + rest)[1..] == rest;
    ReadingsSplit(c1, mid, after);
    NothingRead(Counter(c1, mid), after);
    SplitFrom(c1, Readings(c1, mid), Readings(Counter(c1, mid), after));
    var l := Last(Readings(c1, mid));
    var tail := Readings(Counter(c1, mid), after);
    NoneAddsNothing(Some(if l.Some? then l.value else c1), tail, []);
    assert tail + [] == tail;
    RiseAgainstEvents(c1, c1, 0, false, between);
  }

  /** Without a reset the rise is the number of events. */
  lemma {:induction false} NoResetIsVisible(prev: nat, c: nat, e: nat, life: seq<Tick>)
    requires Reset !in life
    ensures Visible(prev, c, e, false, life)
    decreases |life|
  {
    if life != [] {
      assert life[0] in life;
      match life[0] {
        case Event => NoResetIsVisible(prev, c + 1, e + 1, life[1..]);
        case Look(m) =>
          if m {
            NoResetIsVisible(c, c, 0, life[1..]);
          } else {
            NoResetIsVisible(prev, c, e, life[1..]);
          }
      }
    }
  }

  // ------------------------------------------------------------- what a sample measures

  /** The namespaces' counters, summed. */
  datatype Netns = Netns(qdiscDrops: nat, rcvbufErrors: nat)

  datatype Arp = Arp(unresolvedDiscards: nat, tableFulls: nat)

  /** The allowances exceeded: packets, bandwidth in and out, connections, link-local. */
  datatype Ena = Ena(pps: nat, bwIn: nat, bwOut: nat, conntrack: nat, linklocal: nat)

  /** A host's sample: when, the namespace part if any, with how many namespaces were read and how many there
      are (0 when not recorded), the ARP part if any, the ENA counters, whether an ENA device was read and
      whether reading one failed, and the host's own UDP errors. */
  datatype Sample = Sample(
    atMs: int, netns: Option<Netns>, sampled: nat, expected: nat, arp: Option<Arp>,
    ena: Ena, enaIface: bool, enaError: bool, udpErrors: nat)

  /** The three sources of counters that hosts may lack, and the one all have. */
  datatype Kind = OfNetns | OfArp | OfEna | OfHost

  datatype Source = Qdisc | Rcvbuf | Unresolved | Fulls | Pps | BwIn | BwOut | Conntrack | Linklocal | Udp

  function KindOf(src: Source): Kind {
    match src
    case Qdisc => OfNetns
    case Rcvbuf => OfNetns
    case Unresolved => OfArp
    case Fulls => OfArp
    case Udp => OfHost
    case _ => OfEna
  }

  /** The most namespaces a series read at once. */
  function Top(hs: seq<Sample>): (top: nat)
    ensures forall i :: 0 <= i < |hs| ==> hs[i].sampled <= top
    ensures top == 0 || exists i :: 0 <= i < |hs| && hs[i].sampled == top
  {
    if hs == [] then 0
    else
      var rest := Top(hs[..|hs| - 1]);
      if hs[|hs| - 1].sampled > rest then hs[|hs| - 1].sampled else rest
  }

  /** Whether a sample measured a kind; for namespaces it must have read all, `top` standing in for a count
      not recorded. */
  predicate Measured(s: Sample, kind: Kind, top: nat) {
    match kind
    case OfNetns => s.netns.Some? && 0 < s.sampled == if s.expected == 0 then top else s.expected
    case OfArp => s.arp.Some?
    case OfEna => s.enaIface
    case OfHost => true
  }

  function Value(s: Sample, src: Source): nat
    requires KindOf(src) == OfNetns ==> s.netns.Some?
    requires KindOf(src) == OfArp ==> s.arp.Some?
  {
    match src
    case Qdisc => s.netns.value.qdiscDrops
    case Rcvbuf => s.netns.value.rcvbufErrors
    case Unresolved => s.arp.value.unresolvedDiscards
    case Fulls => s.arp.value.tableFulls
    case Pps => s.ena.pps
    case BwIn => s.ena.bwIn
    case BwOut => s.ena.bwOut
    case Conntrack => s.ena.conntrack
    case Linklocal => s.ena.linklocal
    case Udp => s.udpErrors
  }

  function Read(s: Sample, src: Source, top: nat): Reading {
    if Measured(s, KindOf(src), top) then Some(Value(s, src)) else None
  }

  function ReadWith(hs: seq<Sample>, src: Source, top: nat): (rs: seq<Reading>)
    ensures |rs| == |hs| && forall i :: 0 <= i < |hs| ==> rs[i] == Read(hs[i], src, top)
  {
    seq(|hs|, i requires 0 <= i < |hs| => Read(hs[i], src, top))
  }

  function ReadAll(hs: seq<Sample>, src: Source): (rs: seq<Reading>)
    ensures |rs| == |hs|
  {
    ReadWith(hs, src, Top(hs))
  }

  // ----------------------------------------------------------------- the cut at the stop

  ghost predicate InTime(hs: seq<Sample>) {
    forall i, j :: 0 <= i < j < |hs| ==> hs[i].atMs <= hs[j].atMs
  }

  /** A sample counts up to the stop when taken by then, or when it closes the interval crossing it. */
  predicate Kept(hs: seq<Sample>, stop: int, j: nat)
    requires j < |hs|
  {
    hs[j].atMs <= stop || (j > 0 && hs[j - 1].atMs < stop)
  }

  /** The interval a sample closes: since the one before it. */
  predicate InInterval(hs: seq<Sample>, j: nat, t: int)
    requires 0 < j < |hs|
  {
    hs[j - 1].atMs < t <= hs[j].atMs
  }

  /** So it counts when it was taken by the stop, or some instant since the sample before it was no later. */
  lemma KeptMeans(hs: seq<Sample>, stop: int, j: nat)
    requires j < |hs| && (j > 0 ==> hs[j - 1].atMs <= hs[j].atMs)
    ensures Kept(hs, stop, j) <==>
              hs[j].atMs <= stop || (j > 0 && exists t :: InInterval(hs, j, t) && t <= stop)
  {
    if j > 0 && hs[j - 1].atMs < stop < hs[j].atMs {
      assert InInterval(hs, j, stop);
    }
  }

  /** sort.Search for the first sample after the stop. */
  method FirstAfter(hs: seq<Sample>, stop: int) returns (k: nat)
    requires InTime(hs)
    ensures k <= |hs| && forall j: nat :: j < |hs| ==> (hs[j].atMs <= stop <==> j < k)
  {
    var lo, hi := 0, |hs|;
    while lo < hi
      invariant 0 <= lo <= hi <= |hs|
      invariant forall j: nat :: j < lo ==> hs[j].atMs <= stop
      invariant forall j: nat :: hi <= j < |hs| ==> hs[j].atMs > stop
    {
      var mid := (lo + hi) / 2;
      if hs[mid].atMs > stop {
        hi := mid;
      } else {
        lo := mid + 1;
      }
    }
    k := lo;
  }

  /** upToStop for one host. */
  method UpToStop(hs: seq<Sample>, stop: int) returns (k: nat)
    requires InTime(hs)
    ensures k <= |hs| && forall j: nat :: j < |hs| ==> (j < k <==> Kept(hs, stop, j))
  {
    k := FirstAfter(hs, stop);
    if 0 < k < |hs| && hs[k - 1].atMs < stop {
      k := k + 1;
    }
  }

  /** A sample whose full count is only guessed, and guessed differently by the cut series. */
  predicate Misjudged(s: Sample, cut: nat, whole: nat) {
    s.netns.Some? && s.expected == 0 && 0 < s.sampled == cut < whole
  }

  /** Cutting the series after `k` samples misjudges none of them, as far as `src` goes. */
  ghost predicate JudgedAlike(hs: seq<Sample>, k: nat, src: Source)
    requires k <= |hs|
  {
    KindOf(src) == OfNetns ==> forall i :: 0 <= i < k ==> !Misjudged(hs[i], Top(hs[..k]), Top(hs))
  }

  lemma TopOfCut(hs: seq<Sample>, k: nat)
    requires k <= |hs|
    ensures Top(hs[..k]) <= Top(hs)
  {
    var top := Top(hs[..k]);
    if top > 0 {
      var i :| 0 <= i < k && hs[..k][i].sampled == top;
      assert hs[i].sampled == top;
    }
  }

  lemma ReadsDiffer(s: Sample, src: Source, cut: nat, whole: nat)
    requires s.sampled <= cut <= whole
    ensures Read(s, src, cut) == Read(s, src, whole) <==> (KindOf(src) == OfNetns ==> !Misjudged(s, cut, whole))
  {
  }

  /** The cut series reads its samples as the whole series does exactly when none is misjudged; so
      always when the expected namespace count is recorded, and always for the other kinds. */
  lemma CutReadsSame(hs: seq<Sample>, k: nat, src: Source)
    requires k <= |hs|
    ensures ReadAll(hs[..k], src) == ReadAll(hs, src)[..k] <==> JudgedAlike(hs, k, src)
  {
    hide Read, Misjudged, KindOf;
    var cut, whole := Top(hs[..k]), Top(hs);
    TopOfCut(hs, k);
    forall i | 0 <= i < k
      ensures Read(hs[i], src, cut) == Read(hs[i], src, whole) <==>
                (KindOf(src) == OfNetns ==> !Misjudged(hs[i], cut, whole))
    {
      assert hs[..k][i] == hs[i];
      ReadsDiffer(hs[i], src, cut, whole);
    }
    hide Top;
    if JudgedAlike(hs, k, src) {
      assert ReadAll(hs[..k], src) == ReadAll(hs, src)[..k];
    } else {
      var i :| 0 <= i < k && Misjudged(hs[i], cut, whole);
      assert ReadAll(hs[..k], src)[i] == Read(hs[i], src, cut) && ReadAll(hs, src)[..k][i] == Read(hs[i], src, whole);
    }
  }

  /** What windowDropLine attributes to the time after the stop, for one host and counter, is the rise over
      the samples cut off, counted on from the last reading kept. */
  lemma AfterTheStop(hs: seq<Sample>, k: nat, src: Source)
    requires k <= |hs| && JudgedAlike(hs, k, src)
    ensures Rise(ReadAll(hs, src)) - Rise(ReadAll(hs[..k], src))
         == RiseAfter(Last(ReadAll(hs[..k], src)), ReadAll(hs, src)[k..])
  {
    hide Rise, RiseAfter, Last, ReadAll, JudgedAlike;
    CutReadsSame(hs, k, src);
    SplitAt(ReadAll(hs, src), k);
  }

  lemma SplitAt(rs: seq<Reading>, k: nat)
    requires k <= |rs|
    ensures Rise(rs) == Rise(rs[..k]) + RiseAfter(Last(rs[..k]), rs[k..])
  {
    hide Rise, RiseAfter, Last;
    assert rs == rs[..k] + rs[k..];
    Split(rs[..k], rs[k..]);
  }

  lemma RecordedIsNeverMisjudged(hs: seq<Sample>, k: nat, src: Source)
    requires k <= |hs| && (KindOf(src) == OfNetns ==> forall i :: 0 <= i < |hs| ==> hs[i].expected > 0)
    ensures JudgedAlike(hs, k, src)
  {
    hide Top;
  }

  /** A sample of namespace counters alone. */
  function NetnsSample(atMs: int, drops: nat, sampled: nat): Sample {
    Sample(atMs, Some(Netns(drops, 0)), sampled, 0, None, Ena(0, 0, 0, 0, 0), false, false, 0)
  }

  /** Without recorded counts the part can exceed the whole: two samples of three namespaces before
      the stop rise by 7, and a later sample of five makes both unmeasured. */
  lemma PartExceedsWhole()
    ensures exists hs: seq<Sample> :: (|hs| == 3 && InTime(hs) && Kept(hs, 5, 1) && !Kept(hs, 5, 2) &&
      Rise(ReadAll(hs[..2], Qdisc)) == 7 && Rise(ReadAll(hs, Qdisc)) == 0)
  {
    var hs := [NetnsSample(1, 0, 3), NetnsSample(5, 7, 3), NetnsSample(6, 7, 5)];
    var cut := hs[..2];
    assert cut == [NetnsSample(1, 0, 3), NetnsSample(5, 7, 3)];
    assert Top(cut) == 3 && Top(hs) == 5;
    assert ReadAll(cut, Qdisc) == [Some(0), Some(7)];
    assert ReadAll(hs, Qdisc) == [None, None, Some(7)];
    hide Rise, ReadAll, Top;
    SmallRises();
  }

  lemma SmallRises()
    ensures Rise([Some(0), Some(7)]) == 7 && Rise([None, None, Some(7)]) == 0
  {
    assert [Some(0), Some(7)][1..] == [Some(7)] && RiseFrom(0, [Some(7)]) == 7;
    assert [None, None, Some(7)][1..] == [None, Some(7)] && [None, Some(7)][1..] == [Some(7)];
    assert Rise([Some(7)]) == 0;
  }

  // ------------------------------------------- when the part stays within the whole

  /** Two series that differ in nothing but the counters' values. */
  ghost predicate SameShape(hs: seq<Sample>, gs: seq<Sample>) {
    |hs| == |gs| && forall i :: 0 <= i < |hs| ==> SampledAlike(hs[i], gs[i])
  }

  predicate SampledAlike(s: Sample, t: Sample) {
    s.atMs == t.atMs && s.netns.Some? == t.netns.Some? && s.sampled == t.sampled && s.expected == t.expected
  }

  /** Some two of the first `k` samples are measured when the series ends there. */
  ghost predicate TwoMeasured(hs: seq<Sample>, k: nat)
    requires k <= |hs|
  {
    exists i, j :: 0 <= i < j < k && MeasuredInCut(hs, k, i) && MeasuredInCut(hs, k, j)
  }

  predicate MeasuredInCut(hs: seq<Sample>, k: nat, i: nat)
    requires i < k <= |hs|
  {
    Measured(hs[i], OfNetns, Top(hs[..k]))
  }

  lemma {:induction false} SameTop(hs: seq<Sample>, gs: seq<Sample>)
    requires SameShape(hs, gs)
    ensures Top(hs) == Top(gs)
  {
    if hs != [] {
      var n := |hs| - 1;
      assert SampledAlike(hs[n], gs[n]);
      SameTop(hs[..n], gs[..n]);
    }
  }

  lemma SameTops(hs: seq<Sample>, gs: seq<Sample>, k: nat)
    requires SameShape(hs, gs) && k <= |hs|
    ensures Top(hs) == Top(gs) && Top(hs[..k]) == Top(gs[..k])
  {
    hide Top;
    SameTop(hs, gs);
    SameTop(hs[..k], gs[..k]);
  }

  /** A series rises by at least what one reading exceeds an earlier one. */
  lemma {:induction false} RiseFromReaches(prev: nat, rs: seq<Reading>, b: nat)
    requires b < |rs| && rs[b].Some?
    ensures RiseFrom(prev, rs) >= rs[b].value - prev
    decreases |rs|
  {
    if b > 0 {
      RiseFromReaches(if rs[0].Some? then rs[0].value else prev, rs[1..], b - 1);
    }
  }

  lemma RiseReaches(rs: seq<Reading>, a: nat, b: nat)
    requires a < b < |rs| && rs[a].Some? && rs[b].Some?
    ensures Rise(rs) >= rs[b].value - rs[a].value
  {
    hide Rise, RiseFrom;
    var head := rs[..a + 1];
    assert Last(head) == rs[a];
    SplitAt(rs, a + 1);
    RiseFromReaches(rs[a].value, rs[a + 1..], b - a - 1);
  }

  /** Readings that all agree do not rise. */
  ghost predicate Steady(rs: seq<Reading>, c: nat) {
    forall i :: 0 <= i < |rs| && rs[i].Some? ==> rs[i].value == c
  }

  lemma {:induction false} SteadyFrom(rs: seq<Reading>, c: nat)
    requires Steady(rs, c)
    ensures RiseFrom(c, rs) == 0 && Rise(rs) == 0
  {
    if rs != [] { SteadyFrom(rs[1..], c); }
  }

  /** The series with its namespace counters at `x` in sample `m` and at `y` in all others. */
  function WithCounters(hs: seq<Sample>, m: nat, x: nat, y: nat): (gs: seq<Sample>)
    ensures |gs| == |hs| && forall i :: 0 <= i < |hs| ==> gs[i] == WithCounter(hs[i], if i == m then x else y)
  {
    seq(|hs|, i requires 0 <= i < |hs| => WithCounter(hs[i], if i == m then x else y))
  }

  function WithCounter(s: Sample, v: nat): Sample {
    if s.netns.None? then s else s.(netns := Some(Netns(v, v)))
  }

  lemma ReadsCounter(s: Sample, v: nat, src: Source, top: nat)
    requires KindOf(src) == OfNetns
    ensures Read(WithCounter(s, v), src, top) == if Measured(s, OfNetns, top) then Some(v) else None
    ensures SampledAlike(s, WithCounter(s, v))
  {
  }

  /** A misjudged sample, and another one the cut series measures: with the counter low at the earlier and
      high at the later the part rises, and with one value everywhere else the whole does not. */
  lemma MisjudgedExceeds(hs: seq<Sample>, k: nat, src: Source, m: nat, j: nat) returns (gs: seq<Sample>)
    requires KindOf(src) == OfNetns && m < k <= |hs| && j < k && j != m
    requires Misjudged(hs[m], Top(hs[..k]), Top(hs)) && MeasuredInCut(hs, k, j)
    ensures SameShape(hs, gs) && Rise(ReadAll(gs[..k], src)) > Rise(ReadAll(gs, src))
  {
    hide Top, Rise, Read;
    var x, y := if j < m then 1 else 0, if j < m then 0 else 1;
    gs := WithCounters(hs, m, x, y);
    var cut, whole := Top(hs[..k]), Top(hs);
    forall i | 0 <= i < |hs| ensures SampledAlike(hs[i], gs[i]) {
      ReadsCounter(hs[i], if i == m then x else y, src, cut);
    }
    SameTops(hs, gs, k);
    var part, all := ReadAll(gs[..k], src), ReadAll(gs, src);
    ReadsCounter(hs[m], x, src, cut);
    ReadsCounter(hs[j], y, src, cut);
    assert part[m] == Some(x) && part[j] == Some(y);
    if j < m { RiseReaches(part, j, m); } else { RiseReaches(part, m, j); }
    forall i | 0 <= i < |all| && all[i].Some? ensures all[i].value == y {
      ReadsCounter(hs[i], if i == m then x else y, src, whole);
    }
    SteadyFrom(all, y);
  }

  lemma {:induction false} OneReadingRisesNothing(rs: seq<Reading>)
    requires forall i, j :: 0 <= i < j < |rs| ==> rs[i].None? || rs[j].None?
    ensures Rise(rs) == 0
  {
    if rs != [] {
      if rs[0].Some? {
        assert Steady(rs, rs[0].value);
        SteadyFrom(rs, rs[0].value);
      } else {
        OneReadingRisesNothing(rs[1..]);
      }
    }
  }

  lemma FewMeasuredWithin(hs: seq<Sample>, gs: seq<Sample>, k: nat, src: Source)
    requires KindOf(src) == OfNetns && SameShape(hs, gs) && k <= |hs| && !TwoMeasured(hs, k)
    ensures Rise(ReadAll(gs[..k], src)) == 0
  {
    hide Top, Rise;
    SameTops(hs, gs, k);
    var rs := ReadAll(gs[..k], src);
    forall i, j | 0 <= i < j < |rs| ensures rs[i].None? || rs[j].None? {
      assert SampledAlike(hs[i], gs[i]) && SampledAlike(hs[j], gs[j]);
      assert !(MeasuredInCut(hs, k, i) && MeasuredInCut(hs, k, j));
    }
    OneReadingRisesNothing(rs);
  }

  lemma AlikeWithin(hs: seq<Sample>, gs: seq<Sample>, k: nat, src: Source)
    requires SameShape(hs, gs) && k <= |hs| && JudgedAlike(hs, k, src)
    ensures Rise(ReadAll(gs[..k], src)) <= Rise(ReadAll(gs, src))
  {
    hide Top, Rise, RiseAfter, Last, ReadAll;
    SameTops(hs, gs, k);
    if KindOf(src) == OfNetns {
      forall i | 0 <= i < k ensures !Misjudged(gs[i], Top(gs[..k]), Top(gs)) {
        assert SampledAlike(hs[i], gs[i]);
      }
    }
    AfterTheStop(gs, k, src);
  }

  /** The rise up to a cut stays within the rise of the whole series. */
  ghost predicate PartWithin(hs: seq<Sample>, k: nat, src: Source)
    requires k <= |hs|
  {
    Rise(ReadAll(hs[..k], src)) <= Rise(ReadAll(hs, src))
  }

  /** Whatever the counters read, the part stays within the whole exactly when the cut misjudges no sample or
      measures fewer than two: both can be told from the namespace counts alone. */
  lemma PartWithinExactly(hs: seq<Sample>, k: nat, src: Source)
    requires KindOf(src) == OfNetns && k <= |hs|
    ensures (forall gs :: SameShape(hs, gs) ==> PartWithin(gs, k, src)) <==>
              JudgedAlike(hs, k, src) || !TwoMeasured(hs, k)
  {
    hide Top, Rise, ReadAll;
    if JudgedAlike(hs, k, src) {
      forall gs | SameShape(hs, gs) ensures PartWithin(gs, k, src) { AlikeWithin(hs, gs, k, src); }
    } else if !TwoMeasured(hs, k) {
      forall gs | SameShape(hs, gs) ensures PartWithin(gs, k, src) { FewMeasuredWithin(hs, gs, k, src); }
    } else {
      var m: nat :| m < k && Misjudged(hs[m], Top(hs[..k]), Top(hs));
      var i: nat, j: nat :| i < j < k && MeasuredInCut(hs, k, i) && MeasuredInCut(hs, k, j);
      var gs := MisjudgedExceeds(hs, k, src, m, if i == m then j else i);
      assert !PartWithin(gs, k, src);
    }
  }

  /** The other counters have no such condition. */
  lemma OtherPartWithin(hs: seq<Sample>, k: nat, src: Source)
    requires KindOf(src) != OfNetns && k <= |hs|
    ensures PartWithin(hs, k, src)
  {
    hide Top, Rise, RiseAfter, Last, ReadAll;
    AfterTheStop(hs, k, src);
  }

  // ------------------------------------------------------------------------ across hosts

  type Hosts = seq<seq<Sample>>

  function Total(hosts: Hosts, src: Source): nat {
    if hosts == [] then 0 else Rise(ReadAll(hosts[0], src)) + Total(hosts[1..], src)
  }

  /** Each host's samples up to the stop, by their number. */
  function Cut(hosts: Hosts, ks: seq<nat>): (r: Hosts)
    requires |ks| == |hosts| && forall i :: 0 <= i < |ks| ==> ks[i] <= |hosts[i]|
    ensures |r| == |hosts|
  {
    seq(|hosts|, i requires 0 <= i < |hosts| => hosts[i][..ks[i]])
  }

  function TotalAfter(hosts: Hosts, ks: seq<nat>, src: Source): nat
    requires |ks| == |hosts| && forall i :: 0 <= i < |ks| ==> ks[i] <= |hosts[i]|
  {
    if hosts == [] then 0
    else
      RiseAfter(Last(ReadAll(hosts[0][..ks[0]], src)), ReadAll(hosts[0], src)[ks[0]..]) +
      TotalAfter(hosts[1..], ks[1..], src)
  }

  /** The namespace count is recorded in every sample. */
  ghost predicate Recorded(hosts: Hosts) {
    forall i, j :: 0 <= i < |hosts| && 0 <= j < |hosts[i]| ==> hosts[i][j].expected > 0
  }

  /** Up to the stop plus after it is the whole, over all hosts. */
  lemma {:induction false} WindowsAddUp(hosts: Hosts, ks: seq<nat>, src: Source)
    requires |ks| == |hosts| && forall i :: 0 <= i < |ks| ==> ks[i] <= |hosts[i]|
    requires KindOf(src) == OfNetns ==> Recorded(hosts)
    ensures Total(Cut(hosts, ks), src) + TotalAfter(hosts, ks, src) == Total(hosts, src)
    decreases |hosts|
  {
    hide Rise, RiseAfter, Last, ReadAll, JudgedAlike, KindOf;
    if hosts != [] {
      assert KindOf(src) == OfNetns ==> forall j :: 0 <= j < |hosts[0]| ==> hosts[0][j].expected > 0;
      RecordedIsNeverMisjudged(hosts[0], ks[0], src);
      AfterTheStop(hosts[0], ks[0], src);
      assert Cut(hosts, ks)[0] == hosts[0][..ks[0]];
      assert Cut(hosts, ks)[1..] == Cut(hosts[1..], ks[1..]);
      WindowsAddUp(hosts[1..], ks[1..], src);
    }
  }

  // --------------------------------------------------------------- categories and gaps

  /** Whether a host's samples speak of a kind at all; an ENA host read its device once, or still failed to at
      its last sample. */
  predicate Has(hs: seq<Sample>, kind: Kind) {
    match kind
    case OfNetns => exists i :: 0 <= i < |hs| && (hs[i].netns.Some? || hs[i].expected > 0)
    case OfArp => exists i :: 0 <= i < |hs| && hs[i].arp.Some?
    case OfEna => (exists i :: 0 <= i < |hs| && hs[i].enaIface) || (|hs| > 0 && hs[|hs| - 1].enaError)
    case OfHost => |hs| > 0
  }

  /** The first or the last sample did not measure the kind, so the window is not covered. */
  predicate Gap(hs: seq<Sample>, kind: Kind) {
    !(|hs| >= 2 && Measured(hs[0], kind, Top(hs)) && Measured(hs[|hs| - 1], kind, Top(hs)))
  }

  function Lacks(kind: Kind): seq<Sample> -> bool { (hs: seq<Sample>) => !Has(hs, kind) }
  function IsEmpty(): seq<Sample> -> bool { (hs: seq<Sample>) => |hs| == 0 }
  function HasGap(kind: Kind): seq<Sample> -> bool { (hs: seq<Sample>) => Has(hs, kind) && Gap(hs, kind) }
  function AnyGap(kind: Kind): seq<Sample> -> bool { (hs: seq<Sample>) => Gap(hs, kind) }
  function Rises(src: Source): seq<Sample> -> bool { (hs: seq<Sample>) => Rise(ReadAll(hs, src)) > 0 }

  lemma LacksIsGap(hs: seq<Sample>, kind: Kind)
    requires !Has(hs, kind)
    ensures Gap(hs, kind)
  {
    hide Top;
  }

  /** Hosts that lack a kind, and those that have it and did not cover the window, are the gaps. */
  lemma {:induction false} GapsSplit(hosts: Hosts, kind: Kind)
    ensures Count(hosts, Lacks(kind)) + Count(hosts, HasGap(kind)) == Count(hosts, AnyGap(kind))
  {
    hide Has, Gap;
    if hosts != [] {
      GapsSplit(hosts[1..], kind);
      var hs := hosts[0];
      if !Has(hs, kind) { LacksIsGap(hs, kind); }
    }
  }

  lemma LackingRisesNothing(hs: seq<Sample>, src: Source)
    requires !Has(hs, KindOf(src))
    ensures Rise(ReadAll(hs, src)) == 0
  {
    hide Rise, Top;
    var rs := ReadAll(hs, src);
    forall i | 0 <= i < |rs| ensures rs[i].None? {
      assert rs[i] == Read(hs[i], src, Top(hs));
    }
    NoneAddsNothing(None, rs, []);
    assert rs + [] == rs;
    assert RiseAfter(None, []) == 0 by { RiseOfNone(); }
  }

  lemma RiseOfNone()
    ensures Rise([]) == 0
  {
  }

  lemma {:induction false} TotalUpTo(hosts: Hosts, i: nat, src: Source)
    requires i < |hosts|
    ensures Total(hosts[..i + 1], src) == Total(hosts[..i], src) + Rise(ReadAll(hosts[i], src))
    decreases i
  {
    hide Rise, ReadAll;
    if i > 0 {
      assert hosts[1..][..i - 1] == hosts[..i][1..] && hosts[1..][..i] == hosts[..i + 1][1..];
      TotalUpTo(hosts[1..], i - 1, src);
    }
  }

  lemma NothingYet(hosts: Hosts, src: Source)
    ensures Total(hosts[..0], src) == 0
  {
  }

  /** How many hosts sent nothing, lack a kind though they sent something, or have it. */
  method Survey(hosts: Hosts, kind: Kind) returns (empty: nat, lack: nat, have: nat)
    ensures empty == Count(hosts, IsEmpty()) && empty + lack == Count(hosts, Lacks(kind))
    ensures have > 0 <==> exists i :: 0 <= i < |hosts| && Has(hosts[i], kind)
  {
    hide Has;
    empty, lack, have := 0, 0, 0;
    for i := 0 to |hosts|
      invariant empty == Count(hosts[..i], IsEmpty()) && empty + lack == Count(hosts[..i], Lacks(kind))
      invariant have > 0 <==> exists x :: 0 <= x < i && Has(hosts[x], kind)
    {
      CountUpTo(hosts, i, IsEmpty());
      CountUpTo(hosts, i, Lacks(kind));
      if |hosts[i]| == 0 {
        EmptyLacks(hosts[i], kind);
        empty := empty + 1;
      } else if Has(hosts[i], kind) {
        have := have + 1;
      } else {
        lack := lack + 1;
      }
    }
    assert hosts[..|hosts|] == hosts;
  }

  lemma EmptyLacks(hs: seq<Sample>, kind: Kind)
    requires |hs| == 0
    ensures !Has(hs, kind)
  {
  }

  /** One host's rise of each counter, added to what is known. */
  method AddRises(hs: seq<Sample>, srcs: seq<Source>, before: seq<nat>) returns (totals: seq<nat>)
    requires |before| == |srcs|
    ensures |totals| == |srcs| && forall j :: 0 <= j < |srcs| ==> totals[j] == before[j] + Rise(ReadAll(hs, srcs[j]))
  {
    hide Rise, ReadAll;
    totals := before;
    for j := 0 to |srcs|
      invariant |totals| == |srcs|
      invariant forall x :: 0 <= x < j ==> totals[x] == before[x] + Rise(ReadAll(hs, srcs[x]))
      invariant forall x :: j <= x < |srcs| ==> totals[x] == before[x]
    {
      var rise := Increase(ReadAll(hs, srcs[j]));
      totals := totals[j := totals[j] + rise];
    }
  }

  /** The loop over the hosts that have a kind: the totals of its counters, and the windows not covered. */
  method Tally(hosts: Hosts, kind: Kind, srcs: seq<Source>) returns (totals: seq<nat>, uncovered: nat)
    requires forall j :: 0 <= j < |srcs| ==> KindOf(srcs[j]) == kind
    ensures |totals| == |srcs| && forall j :: 0 <= j < |srcs| ==> totals[j] == Total(hosts, srcs[j])
    ensures uncovered == Count(hosts, HasGap(kind))
  {
    hide Rise, ReadAll, Has, Gap, Total, KindOf;
    totals, uncovered := seq(|srcs|, _ => 0), 0;
    forall j | 0 <= j < |srcs| ensures Total(hosts[..0], srcs[j]) == 0 { NothingYet(hosts, srcs[j]); }
    for i := 0 to |hosts|
      invariant |totals| == |srcs| && forall j :: 0 <= j < |srcs| ==> totals[j] == Total(hosts[..i], srcs[j])
      invariant uncovered == Count(hosts[..i], HasGap(kind))
    {
      CountUpTo(hosts, i, HasGap(kind));
      forall j | 0 <= j < |srcs|
        ensures Total(hosts[..i + 1], srcs[j]) == Total(hosts[..i], srcs[j]) + Rise(ReadAll(hosts[i], srcs[j]))
      {
        TotalUpTo(hosts, i, srcs[j]);
      }
      if !Has(hosts[i], kind) {
        forall j | 0 <= j < |srcs| ensures Rise(ReadAll(hosts[i], srcs[j])) == 0 {
          LackingRisesNothing(hosts[i], srcs[j]);
        }
        continue;
      }
      if Gap(hosts[i], kind) {
        uncovered := uncovered + 1;
      }
      totals := AddRises(hosts[i], srcs, totals);
    }
    assert hosts[..|hosts|] == hosts;
  }

  datatype Category = Netem | NamespaceUdp | ArpDrops | EnaAllowance | HostUdp

  function SourcesOf(c: Category): seq<Source> {
    match c
    case Netem => [Qdisc]
    case NamespaceUdp => [Rcvbuf]
    case ArpDrops => [Unresolved, Fulls]
    case EnaAllowance => [Pps, BwIn, BwOut, Conntrack, Linklocal]
    case HostUdp => [Udp]
  }

  function KindOfCategory(c: Category): Kind {
    match c
    case Netem => OfNetns
    case NamespaceUdp => OfNetns
    case ArpDrops => OfArp
    case EnaAllowance => OfEna
    case HostUdp => OfHost
  }

  function Totals(hosts: Hosts, srcs: seq<Source>): (r: seq<nat>)
    ensures |r| == |srcs| && forall j :: 0 <= j < |srcs| ==> r[j] == Total(hosts, srcs[j])
  {
    seq(|srcs|, j requires 0 <= j < |srcs| => Total(hosts, srcs[j]))
  }

  /** One category of drops: its count, its counters' counts, and how many hosts saw any (host UDP only). */
  datatype DropCount = DropCount(what: Category, n: nat, parts: seq<nat>, hosts: nat)

  function CountOf(hosts: Hosts, c: Category): DropCount {
    var parts := Totals(hosts, SourcesOf(c));
    DropCount(c, Sum(parts), parts, if c.HostUdp? then Count(hosts, Rises(Udp)) else 0)
  }

  predicate Spoken(hosts: Hosts, kind: Kind) {
    exists i :: 0 <= i < |hosts| && Has(hosts[i], kind)
  }

  /** The categories some host speaks of, in their fixed order. */
  function Categories(hosts: Hosts): seq<Category> {
    CategoryList(Spoken(hosts, OfNetns), Spoken(hosts, OfArp), Spoken(hosts, OfEna))
  }

  function CategoryList(netns: bool, arp: bool, ena: bool): seq<Category> {
    (if netns then [Netem, NamespaceUdp] else []) + (if arp then [ArpDrops] else []) +
    (if ena then [EnaAllowance] else []) + [HostUdp]
  }

  function CountsOf(hosts: Hosts, cs: seq<Category>): (r: seq<DropCount>)
    ensures |r| == |cs| && forall j :: 0 <= j < |cs| ==> r[j] == CountOf(hosts, cs[j])
  {
    seq(|cs|, j requires 0 <= j < |cs| => CountOf(hosts, cs[j]))
  }

  /** Coverage gaps by kind. A host without ENA counters is no gap, one without the other kinds is. */
  function GapsOf(hosts: Hosts, kind: Kind): nat {
    if !Spoken(hosts, kind) then 0
    else if kind.OfEna? then Count(hosts, IsEmpty()) + Count(hosts, HasGap(kind))
    else Count(hosts, AnyGap(kind))
  }

  /** One kind's share of hostDrops. */
  method KindDrops(hosts: Hosts, kind: Kind, srcs: seq<Source>) returns (present: bool, totals: seq<nat>, gaps: nat)
    requires forall j :: 0 <= j < |srcs| ==> KindOf(srcs[j]) == kind
    ensures present == Spoken(hosts, kind) && gaps == GapsOf(hosts, kind) && totals == Totals(hosts, srcs)
  {
    hide Has, Gap, Total, KindOf, Count;
    var empty, lack, have := Survey(hosts, kind);
    var uncovered: nat;
    totals, uncovered := Tally(hosts, kind, srcs);
    present, gaps := have > 0, 0;
    if present {
      gaps := empty + (if kind.OfEna? then 0 else lack) + uncovered;
      GapsSplit(hosts, kind);
    }
  }

  method CountRising(hosts: Hosts) returns (n: nat)
    ensures n == Count(hosts, Rises(Udp))
  {
    hide Rise, ReadAll;
    n := 0;
    for i := 0 to |hosts|
      invariant n == Count(hosts[..i], Rises(Udp))
    {
      CountUpTo(hosts, i, Rises(Udp));
      var rise := Increase(ReadAll(hosts[i], Udp));
      if rise > 0 {
        n := n + 1;
      }
    }
    assert hosts[..|hosts|] == hosts;
  }

  datatype Gaps = Gaps(netns: nat, arp: nat, ena: nat)

  /** hostDrops: every category some host speaks of, each counter summed over all hosts, and the hosts
      that did not measure a kind over the whole window. */
  method HostDrops(hosts: Hosts) returns (cats: seq<DropCount>, gaps: Gaps)
    ensures cats == CountsOf(hosts, Categories(hosts))
    ensures gaps == Gaps(GapsOf(hosts, OfNetns), GapsOf(hosts, OfArp), GapsOf(hosts, OfEna))
    ensures AllOf(cats)
         == Total(hosts, Qdisc) + Total(hosts, Rcvbuf) + Total(hosts, Unresolved) + Total(hosts, Fulls)
            + Total(hosts, Pps) + Total(hosts, BwIn) + Total(hosts, BwOut) + Total(hosts, Conntrack)
            + Total(hosts, Linklocal) + Total(hosts, Udp)
  {
    AllCounted(hosts);
    hide Spoken, GapsOf, Totals, CountsOf, SourcesOf, CategoryList, Total, AllOf;
    SourceLists();
    var netns, ns, netnsGaps := KindDrops(hosts, OfNetns, [Qdisc, Rcvbuf]);
    var arp, rs, arpGaps := KindDrops(hosts, OfArp, SourcesOf(ArpDrops));
    var ena, es, enaGaps := KindDrops(hosts, OfEna, SourcesOf(EnaAllowance));
    var host, us, hostGaps := KindDrops(hosts, OfHost, SourcesOf(HostUdp));
    gaps := Gaps(netnsGaps, arpGaps, enaGaps);
    NetnsParts(hosts);
    cats := Collect(hosts, netns, [ns[0]], [ns[1]], arp, rs, ena, es, us);
  }

  /** The categories present, in their order. */
  method Collect(hosts: Hosts, netns: bool, qdisc: seq<nat>, rcvbuf: seq<nat>, arp: bool, rs: seq<nat>,
                 ena: bool, es: seq<nat>, us: seq<nat>) returns (cats: seq<DropCount>)
    requires qdisc == Totals(hosts, SourcesOf(Netem)) && rcvbuf == Totals(hosts, SourcesOf(NamespaceUdp))
    requires rs == Totals(hosts, SourcesOf(ArpDrops)) && es == Totals(hosts, SourcesOf(EnaAllowance))
    requires us == Totals(hosts, SourcesOf(HostUdp))
    ensures cats == CountsOf(hosts, CategoryList(netns, arp, ena))
  {
    hide Totals, CountsOf, SourcesOf;
    ghost var cs: seq<Category> := [];
    cats := [];
    NoCounts(hosts);
    if netns {
      cats := AddCategory(hosts, cs, cats, Netem, qdisc);
      cs := cs + [Netem];
      cats := AddCategory(hosts, cs, cats, NamespaceUdp, rcvbuf);
      cs := cs + [NamespaceUdp];
    }
    if arp {
      cats := AddCategory(hosts, cs, cats, ArpDrops, rs);
      cs := cs + [ArpDrops];
    }
    if ena {
      cats := AddCategory(hosts, cs, cats, EnaAllowance, es);
      cs := cs + [EnaAllowance];
    }
    cats := AddCategory(hosts, cs, cats, HostUdp, us);
    cs := cs + [HostUdp];
    assert cs == CategoryList(netns, arp, ena);
  }

  lemma SourceLists()
    ensures forall c, j :: 0 <= j < |SourcesOf(c)| ==> KindOf(SourcesOf(c)[j]) == KindOfCategory(c)
  {
  }

  lemma NetnsParts(hosts: Hosts)
    ensures var ns := Totals(hosts, [Qdisc, Rcvbuf]);
            |ns| == 2 && [ns[0]] == Totals(hosts, SourcesOf(Netem)) && [ns[1]] == Totals(hosts, SourcesOf(NamespaceUdp))
  {
    hide Total;
  }

  lemma NoCounts(hosts: Hosts)
    ensures CountsOf(hosts, []) == []
  {
  }

  /** One more category, its count summed over its counters. */
  method AddCategory(hosts: Hosts, ghost cs: seq<Category>, before: seq<DropCount>, c: Category, parts: seq<nat>)
    returns (cats: seq<DropCount>)
    requires before == CountsOf(hosts, cs) && parts == Totals(hosts, SourcesOf(c))
    ensures cats == CountsOf(hosts, cs + [c])
  {
    hide Total, Count, Rises;
    var n: nat := 0;
    assert parts[0..] == parts;
    for j := 0 to |parts|
      invariant n + Sum(parts[j..]) == Sum(parts)
    {
      assert parts[j..][1..] == parts[j + 1..];
      n := n + parts[j];
    }
    var rising: nat := 0;
    if c.HostUdp? {
      rising := CountRising(hosts);
    }
    cats := before + [DropCount(c, n, parts, rising)];
    assert cats == CountsOf(hosts, cs + [c]);
  }

  // ------------------------------------------- which counters make up which category

  /** The `i`-th counter of a category, by its field. */
  function CounterOf(s: Sample, c: Category, i: nat): nat
    requires c in {Netem, NamespaceUdp} ==> s.netns.Some?
    requires c == ArpDrops ==> s.arp.Some?
  {
    match c
    case Netem => s.netns.value.qdiscDrops
    case NamespaceUdp => s.netns.value.rcvbufErrors
    case ArpDrops => if i == 0 then s.arp.value.unresolvedDiscards else s.arp.value.tableFulls
    case EnaAllowance =>
      if i == 0 then s.ena.pps else if i == 1 then s.ena.bwIn else if i == 2 then s.ena.bwOut
      else if i == 3 then s.ena.conntrack else s.ena.linklocal
    case HostUdp => s.udpErrors
  }

  function Counters(c: Category): nat {
    if c.ArpDrops? then 2 else if c.EnaAllowance? then 5 else 1
  }

  /** `t` is `s` with one counter of the category, its `i`-th, raised by `d`. */
  ghost predicate RaisedBy(s: Sample, t: Sample, c: Category, i: nat, d: nat) {
    match c
    case Netem =>
      i == 0 && s.netns.Some? && t == s.(netns := Some(Netns(s.netns.value.qdiscDrops + d, s.netns.value.rcvbufErrors)))
    case NamespaceUdp =>
      i == 0 && s.netns.Some? && t == s.(netns := Some(Netns(s.netns.value.qdiscDrops, s.netns.value.rcvbufErrors + d)))
    case ArpDrops =>
      && s.arp.Some?
      && ((i == 0 && t == s.(arp := Some(Arp(s.arp.value.unresolvedDiscards + d, s.arp.value.tableFulls))))
          || (i == 1 && t == s.(arp := Some(Arp(s.arp.value.unresolvedDiscards, s.arp.value.tableFulls + d)))))
    case EnaAllowance =>
      || (i == 0 && t == s.(ena := s.ena.(pps := s.ena.pps + d)))
      || (i == 1 && t == s.(ena := s.ena.(bwIn := s.ena.bwIn + d)))
      || (i == 2 && t == s.(ena := s.ena.(bwOut := s.ena.bwOut + d)))
      || (i == 3 && t == s.(ena := s.ena.(conntrack := s.ena.conntrack + d)))
      || (i == 4 && t == s.(ena := s.ena.(linklocal := s.ena.linklocal + d)))
    case HostUdp => i == 0 && t == s.(udpErrors := s.udpErrors + d)
  }

  /** The category a counter belongs to, and its place there. */
  function Home(src: Source): (Category, nat) {
    match src
    case Qdisc => (Netem, 0)
    case Rcvbuf => (NamespaceUdp, 0)
    case Unresolved => (ArpDrops, 0)
    case Fulls => (ArpDrops, 1)
    case Pps => (EnaAllowance, 0)
    case BwIn => (EnaAllowance, 1)
    case BwOut => (EnaAllowance, 2)
    case Conntrack => (EnaAllowance, 3)
    case Linklocal => (EnaAllowance, 4)
    case Udp => (HostUdp, 0)
  }

  /** Every counter belongs to one category, and is in it once. */
  lemma OneHome(src: Source, c: Category, i: nat)
    ensures i < |SourcesOf(c)| && SourcesOf(c)[i] == src <==> (c, i) == Home(src)
    ensures |SourcesOf(c)| == Counters(c)
  {
  }

  /** What a sample reads of a counter is its field, where the sample measured it. */
  lemma ReadsField(s: Sample, c: Category, i: nat, top: nat)
    requires i < |SourcesOf(c)|
    ensures Read(s, SourcesOf(c)[i], top).Some? <==> (match c
              case Netem => s.netns.Some? && s.sampled > 0 && s.sampled == (if s.expected > 0 then s.expected else top)
              case NamespaceUdp =>
                s.netns.Some? && s.sampled > 0 && s.sampled == (if s.expected > 0 then s.expected else top)
              case ArpDrops => s.arp.Some?
              case EnaAllowance => s.enaIface
              case HostUdp => true)
    ensures Read(s, SourcesOf(c)[i], top).Some? ==>
              (c in {Netem, NamespaceUdp} ==> s.netns.Some?) && (c == ArpDrops ==> s.arp.Some?)
              && Read(s, SourcesOf(c)[i], top).value == CounterOf(s, c, i)
  {
  }

  /** Raising one field raises what is read of its counter, and of no other. */
  lemma RaisedReads(s: Sample, t: Sample, c: Category, i: nat, d: nat, c': Category, j: nat, top: nat)
    requires RaisedBy(s, t, c, i, d) && j < |SourcesOf(c')|
    ensures var r, r' := Read(s, SourcesOf(c')[j], top), Read(t, SourcesOf(c')[j], top);
            r' == if c' == c && j == i && r.Some? then Some(r.value + d) else r
    ensures i < |SourcesOf(c)| && t.sampled == s.sampled
  {
  }

  /** A rise whose last reading is raised, when that reading was no fall, rises as much more. */
  lemma RaisedLast(rs: seq<Reading>, v: nat, d: nat)
    requires |rs| > 0 && rs[|rs| - 1] == Some(v)
    requires Last(rs[..|rs| - 1]).Some? && Last(rs[..|rs| - 1]).value <= v
    ensures Rise(rs[|rs| - 1 := Some(v + d)]) == Rise(rs) + d
  {
    var k, p := |rs| - 1, Last(rs[..|rs| - 1]).value;
    var rs' := rs[k := Some(v + d)];
    SplitAt(rs, k);
    SplitAt(rs', k);
    assert rs'[..k] == rs[..k] && rs[k..] == [Some(v)] && rs'[k..] == [Some(v + d)];
    LastStep(p, v);
    LastStep(p, v + d);
    hide Rise, Last;
  }

  lemma LastStep(p: nat, v: nat)
    requires p <= v
    ensures RiseAfter(Some(p), [Some(v)]) == v - p
  {
    var rs: seq<Reading> := [Some(v)];
    assert rs[0] == Some(v) && rs[1..] == [];
    assert RiseFrom(v, rs[1..]) == 0;
  }

  /** The last reading is that of the last measured sample. */
  lemma {:induction false} LastIs(rs: seq<Reading>, m: nat)
    requires m < |rs| && rs[m].Some? && forall j :: m < j < |rs| ==> rs[j].None?
    ensures Last(rs) == rs[m]
  {
    if m < |rs| - 1 { LastIs(rs[..|rs| - 1], m); }
  }

  lemma {:induction false} TotalUpdate(hosts: Hosts, h: nat, hs: seq<Sample>, src: Source)
    requires h < |hosts|
    ensures Total(hosts[h := hs], src) == Total(hosts, src) - Rise(ReadAll(hosts[h], src)) + Rise(ReadAll(hs, src))
    decreases h
  {
    hide Rise, ReadAll;
    if h > 0 {
      assert hosts[h := hs][1..] == hosts[1..][h - 1 := hs];
      TotalUpdate(hosts[1..], h - 1, hs, src);
    } else {
      assert hosts[h := hs][1..] == hosts[1..];
    }
  }

  lemma {:induction false} SumUpdate(a: seq<nat>, b: seq<nat>, i: nat, d: nat)
    requires |a| == |b| && (forall j :: 0 <= j < |a| ==> b[j] == a[j] + if j == i then d else 0)
    ensures Sum(b) == Sum(a) + if i < |a| then d else 0
    decreases |a|
  {
    if a != [] {
      if i == 0 {
        assert a[1..] == b[1..];
      } else {
        SumUpdate(a[1..], b[1..], i - 1, d);
      }
    }
  }

  /** The host's last sample, `n`, and the one before it that measured the category read `c`'s counter `i`, the
      later no less; nothing between them did. */
  ghost predicate RisesLast(hs: seq<Sample>, m: nat, n: nat, c: Category, i: nat) {
    && m < n == |hs| - 1 && Measured(hs[m], KindOfCategory(c), Top(hs)) && Measured(hs[n], KindOfCategory(c), Top(hs))
    && CounterOf(hs[m], c, i) <= CounterOf(hs[n], c, i)
    && forall j :: m < j < n ==> !Measured(hs[j], KindOfCategory(c), Top(hs))
  }

  /** One counter of one host raised in its last sample: its own rise grows as much, no other changes. */
  lemma RaisedRise(hs: seq<Sample>, m: nat, n: nat, t: Sample, c: Category, i: nat, d: nat, c': Category, j: nat)
    requires RisesLast(hs, m, n, c, i) && RaisedBy(hs[n], t, c, i, d) && j < |SourcesOf(c')|
    ensures Rise(ReadAll(hs[n := t], SourcesOf(c')[j]))
         == Rise(ReadAll(hs, SourcesOf(c')[j])) + if c' == c && j == i then d else 0
  {
    hide Rise, Last, Read, Measured, Top, ReadAll, CounterOf, SourcesOf, RaisedBy, KindOfCategory;
    var src := SourcesOf(c')[j];
    var rs, rs' := ReadAll(hs, src), ReadAll(hs[n := t], src);
    RaisedSeries(hs, n, t, c, i, d, c', j);
    if c' == c && j == i {
      InCategory(hs[n], t, c, i, d);
      LastReadings(hs, m, n, c, i);
      RaisedLast(rs, rs[n].value, d);
    } else {
      assert rs' == rs;
    }
  }

  lemma RaisedSeries(hs: seq<Sample>, n: nat, t: Sample, c: Category, i: nat, d: nat, c': Category, j: nat)
    requires n < |hs| && RaisedBy(hs[n], t, c, i, d) && j < |SourcesOf(c')|
    ensures var rs, rs' := ReadAll(hs, SourcesOf(c')[j]), ReadAll(hs[n := t], SourcesOf(c')[j]);
            rs' == if c' == c && j == i && rs[n].Some? then rs[n := Some(rs[n].value + d)] else rs
  {
    hide Top, Read, RaisedBy, SourcesOf, Measured, SampledAlike;
    RaisedReads(hs[n], t, c, i, d, c', j, Top(hs));
    StillAlike(hs, n, t, c, i, d);
    SameTop(hs, hs[n := t]);
  }

  lemma LastReadings(hs: seq<Sample>, m: nat, n: nat, c: Category, i: nat)
    requires RisesLast(hs, m, n, c, i) && i < |SourcesOf(c)|
    ensures var rs := ReadAll(hs, SourcesOf(c)[i]);
            rs[n].Some? && Last(rs[..n]).Some? && Last(rs[..n]).value <= rs[n].value
  {
    var src, top := SourcesOf(c)[i], Top(hs);
    var rs := ReadAll(hs, src);
    ReadsField(hs[n], c, i, top);
    ReadsField(hs[m], c, i, top);
    OneKind(c, i);
    hide Top, CounterOf, SourcesOf;
    forall k | m < k < n ensures rs[..n][k].None? {
      assert rs[k] == Read(hs[k], src, top);
    }
    LastIs(rs[..n], m);
  }

  lemma StillAlike(hs: seq<Sample>, n: nat, t: Sample, c: Category, i: nat, d: nat)
    requires n < |hs| && RaisedBy(hs[n], t, c, i, d)
    ensures SameShape(hs, hs[n := t])
  {
    hide SampledAlike;
    forall k | 0 <= k < |hs| ensures SampledAlike(hs[k], hs[n := t][k]) {
      RaisedAlike(hs[n], t, c, i, d);
      SelfAlike(hs[k]);
    }
  }

  lemma RaisedAlike(s: Sample, t: Sample, c: Category, i: nat, d: nat)
    requires RaisedBy(s, t, c, i, d)
    ensures SampledAlike(s, t)
  {
  }

  lemma SelfAlike(s: Sample)
    ensures SampledAlike(s, s)
  {
  }

  /** Raising one counter by `d`, in the last sample of one host, raises what is reported of its category by
      `d`, and of no other category. */
  lemma RaiseCounts(hosts: Hosts, h: nat, m: nat, n: nat, t: Sample, c: Category, i: nat, d: nat, c': Category)
    requires h < |hosts| && RisesLast(hosts[h], m, n, c, i) && n < |hosts[h]| && RaisedBy(hosts[h][n], t, c, i, d)
    ensures var hosts' := hosts[h := hosts[h][n := t]];
            Listed(CountsOf(hosts', Categories(hosts')), c')
            == Listed(CountsOf(hosts, Categories(hosts)), c') + if c' == c then d else 0
  {
    hide Rise, ReadAll, Total, CountsOf, Categories, Listed, RisesLast, RaisedBy, SourcesOf;
    var hs := hosts[h][n := t];
    var hosts' := hosts[h := hs];
    ListedTotal(hosts, c');
    ListedTotal(hosts', c');
    forall j | 0 <= j < |SourcesOf(c')|
      ensures Total(hosts', SourcesOf(c')[j]) == Total(hosts, SourcesOf(c')[j]) + if c' == c && j == i then d else 0
    {
      TotalUpdate(hosts, h, hs, SourcesOf(c')[j]);
      RaisedRise(hosts[h], m, n, t, c, i, d, c', j);
    }
    InCategory(hosts[h][n], t, c, i, d);
    SumUpdate(Totals(hosts, SourcesOf(c')), Totals(hosts', SourcesOf(c')), if c' == c then i else |SourcesOf(c')|, d);
  }

  lemma InCategory(s: Sample, t: Sample, c: Category, i: nat, d: nat)
    requires RaisedBy(s, t, c, i, d)
    ensures i < |SourcesOf(c)|
  {
  }

  function AllOf(cats: seq<DropCount>): nat {
    if cats == [] then 0 else cats[0].n + AllOf(cats[1..])
  }

  /** What is reported in all is what all ten counters rose by, over all hosts. */
  lemma AllCounted(hosts: Hosts)
    ensures AllOf(CountsOf(hosts, Categories(hosts)))
         == Total(hosts, Qdisc) + Total(hosts, Rcvbuf) + Total(hosts, Unresolved) + Total(hosts, Fulls)
            + Total(hosts, Pps) + Total(hosts, BwIn) + Total(hosts, BwOut) + Total(hosts, Conntrack)
            + Total(hosts, Linklocal) + Total(hosts, Udp)
  {
    hide Total, Spoken, Listed;
    AllListed(hosts);
    ListedTotal(hosts, Netem);
    ListedTotal(hosts, NamespaceUdp);
    ListedTotal(hosts, ArpDrops);
    ListedTotal(hosts, EnaAllowance);
    ListedTotal(hosts, HostUdp);
    SumsOfTotals(hosts);
  }

  lemma SumsOfTotals(hosts: Hosts)
    ensures Sum(Totals(hosts, SourcesOf(Netem))) == Total(hosts, Qdisc)
    ensures Sum(Totals(hosts, SourcesOf(NamespaceUdp))) == Total(hosts, Rcvbuf)
    ensures Sum(Totals(hosts, SourcesOf(HostUdp))) == Total(hosts, Udp)
    ensures Sum(Totals(hosts, SourcesOf(ArpDrops))) == Total(hosts, Unresolved) + Total(hosts, Fulls)
    ensures Sum(Totals(hosts, SourcesOf(EnaAllowance)))
         == Total(hosts, Pps) + Total(hosts, BwIn) + Total(hosts, BwOut) + Total(hosts, Conntrack)
            + Total(hosts, Linklocal)
  {
    hide Total;
    SumOfOne(Total(hosts, Qdisc));
    SumOfOne(Total(hosts, Rcvbuf));
    SumOfOne(Total(hosts, Udp));
    assert Totals(hosts, SourcesOf(Netem)) == [Total(hosts, Qdisc)];
    assert Totals(hosts, SourcesOf(NamespaceUdp)) == [Total(hosts, Rcvbuf)];
    assert Totals(hosts, SourcesOf(HostUdp)) == [Total(hosts, Udp)];
    SumOfTwo(Total(hosts, Unresolved), Total(hosts, Fulls));
    assert Totals(hosts, SourcesOf(ArpDrops)) == [Total(hosts, Unresolved), Total(hosts, Fulls)];
    SumOfFive(Total(hosts, Pps), Total(hosts, BwIn), Total(hosts, BwOut), Total(hosts, Conntrack),
              Total(hosts, Linklocal));
    assert Totals(hosts, SourcesOf(EnaAllowance))
        == [Total(hosts, Pps), Total(hosts, BwIn), Total(hosts, BwOut), Total(hosts, Conntrack),
            Total(hosts, Linklocal)];
  }

  lemma SumOfOne(a: nat)
    ensures Sum([a]) == a
  {
    assert [a][1..] == [];
  }

  lemma SumOfTwo(a: nat, b: nat)
    ensures Sum([a, b]) == a + b
  {
    assert [a, b][1..] == [b];
    SumOfOne(b);
  }

  lemma SumOfFive(a: nat, b: nat, c: nat, d: nat, e: nat)
    ensures Sum([a, b, c, d, e]) == a + b + c + d + e
  {
    SumOfTwo(d, e);
    SumCons(c, [d, e]);
    SumCons(b, [c, d, e]);
    SumCons(a, [b, c, d, e]);
  }

  lemma SumCons(a: nat, s: seq<nat>)
    ensures Sum([a] + s) == a + Sum(s)
  {
    assert ([a] + s)[1..] == s;
  }

  /** The categories are all there are: what is listed of each makes up all. */
  lemma AllListed(hosts: Hosts)
    ensures var cats := CountsOf(hosts, Categories(hosts));
            AllOf(cats) == Listed(cats, Netem) + Listed(cats, NamespaceUdp) + Listed(cats, ArpDrops)
                           + Listed(cats, EnaAllowance) + Listed(cats, HostUdp)
  {
    CategoriesOnce(hosts);
    AllByCategory(CountsOf(hosts, Categories(hosts)));
  }

  lemma {:induction false} AllByCategory(cats: seq<DropCount>)
    requires Once(cats)
    ensures AllOf(cats) == Listed(cats, Netem) + Listed(cats, NamespaceUdp) + Listed(cats, ArpDrops)
                           + Listed(cats, EnaAllowance) + Listed(cats, HostUdp)
  {
    if cats != [] {
      AllByCategory(cats[1..]);
      NotListed(cats[1..], cats[0].what);
    }
  }

  /** A host covers its window for a kind exactly when its first and last samples read its counters; one sample
      is not enough. */
  lemma CoverMeans(hs: seq<Sample>, c: Category, i: nat)
    requires i < |SourcesOf(c)|
    ensures !Gap(hs, KindOfCategory(c)) <==>
              |hs| >= 2 && ReadAll(hs, SourcesOf(c)[i])[0].Some? && ReadAll(hs, SourcesOf(c)[i])[|hs| - 1].Some?
  {
    hide Top;
    OneKind(c, i);
  }

  /** How many hosts saw any host UDP drops: none exactly when there were none, and no more than drops. */
  lemma {:induction false} RisingMeans(hosts: Hosts)
    ensures Count(hosts, Rises(Udp)) <= Total(hosts, Udp)
    ensures Total(hosts, Udp) > 0 ==> Count(hosts, Rises(Udp)) > 0
  {
    hide Rise, ReadAll;
    if hosts != [] { RisingMeans(hosts[1..]); }
  }

  /** The gaps reported are the hosts that do not cover their windows, where some host speaks of the kind; a host
      that sent samples but has no ENA device is no gap for it. */
  lemma GapsMean(hosts: Hosts, kind: Kind)
    ensures !Spoken(hosts, kind) ==> GapsOf(hosts, kind) == 0
    ensures Spoken(hosts, kind) && !kind.OfEna? ==>
              GapsOf(hosts, kind) == |set h: nat | h < |hosts| && Gap(hosts[h], kind)|
    ensures Spoken(hosts, kind) && kind.OfEna? ==>
              GapsOf(hosts, kind)
              == |set h: nat | h < |hosts| && (hosts[h] == [] || (Has(hosts[h], kind) && Gap(hosts[h], kind)))|
  {
    hide Spoken, Gap, Has;
    CountSet(hosts, AnyGap(kind));
    CountSet(hosts, NoEna(kind));
    assert (set h: nat | h < |hosts| && AnyGap(kind)(hosts[h])) == (set h: nat | h < |hosts| && Gap(hosts[h], kind));
    assert (set h: nat | h < |hosts| && NoEna(kind)(hosts[h]))
        == (set h: nat | h < |hosts| && (hosts[h] == [] || (Has(hosts[h], kind) && Gap(hosts[h], kind))));
    EnaGaps(hosts, kind);
  }

  function NoEna(kind: Kind): seq<Sample> -> bool {
    (hs: seq<Sample>) => hs == [] || (Has(hs, kind) && Gap(hs, kind))
  }

  lemma {:induction false} EnaGaps(hosts: Hosts, kind: Kind)
    ensures Count(hosts, IsEmpty()) + Count(hosts, HasGap(kind)) == Count(hosts, NoEna(kind))
  {
    hide Has, Gap;
    if hosts != [] {
      EnaGaps(hosts[1..], kind);
      if hosts[0] == [] { EmptyLacks(hosts[0], kind); }
    }
  }

  /** Counting is the size of the set of places. */
  lemma {:induction false} CountSet(hosts: Hosts, p: seq<Sample> -> bool)
    ensures Count(hosts, p) == |set h: nat | h < |hosts| && p(hosts[h])|
    decreases |hosts|
  {
    var all := set h: nat | h < |hosts| && p(hosts[h]);
    if hosts != [] {
      var n := |hosts| - 1;
      CountSet(hosts[..n], p);
      CountUpTo(hosts, n, p);
      assert hosts[..n + 1] == hosts;
      assert all == (set h: nat | h < n && p(hosts[..n][h])) + if p(hosts[n]) then {n} else {};
    } else {
      assert all == {};
    }
  }

  /** A host is silent about a kind: no namespace read nor expected, no ARP part, no ENA device read nor failing
      at the end, or no sample at all. */
  lemma SilentMeans(hs: seq<Sample>)
    ensures !Has(hs, OfNetns) <==> forall s :: s in hs ==> s.netns.None? && s.expected == 0
    ensures !Has(hs, OfArp) <==> forall s :: s in hs ==> s.arp.None?
    ensures !Has(hs, OfEna) <==> (forall s :: s in hs ==> !s.enaIface) && (hs != [] ==> !hs[|hs| - 1].enaError)
    ensures !Has(hs, OfHost) <==> hs == []
  {
  }

  // ------------------------------------------------------------------------ the window

  /** `ks` counts each host's samples up to the stop. */
  ghost predicate Stops(hosts: Hosts, stop: int, ks: seq<nat>) {
    && |ks| == |hosts| && (forall i :: 0 <= i < |ks| ==> ks[i] <= |hosts[i]|)
    && (forall i, j: nat :: 0 <= i < |hosts| && j < |hosts[i]| ==> (j < ks[i] <==> Kept(hosts[i], stop, j)))
  }

  /** upToStop. */
  method UpToStops(hosts: Hosts, stop: int) returns (kept: Hosts)
    requires forall i :: 0 <= i < |hosts| ==> InTime(hosts[i])
    ensures exists ks :: Stops(hosts, stop, ks) && kept == Cut(hosts, ks)
  {
    hide Kept;
    ghost var ks: seq<nat> := [];
    kept := [];
    for i := 0 to |hosts|
      invariant |kept| == i && Stops(hosts[..i], stop, ks) && kept == Cut(hosts[..i], ks)
    {
      var k := UpToStop(hosts[i], stop);
      kept, ks := kept + [hosts[i][..k]], ks + [k];
    }
    assert hosts[..|hosts|] == hosts;
  }

  /** A category's count among those given, zero when it is not there. */
  function Listed(cats: seq<DropCount>, c: Category): nat {
    if cats == [] then 0 else if cats[0].what == c then cats[0].n else Listed(cats[1..], c)
  }

  /** What a category rose by after the stop. */
  function AfterOf(hosts: Hosts, ks: seq<nat>, srcs: seq<Source>): nat
    requires |ks| == |hosts| && forall i :: 0 <= i < |ks| ==> ks[i] <= |hosts[i]|
  {
    if srcs == [] then 0 else TotalAfter(hosts, ks, srcs[0]) + AfterOf(hosts, ks, srcs[1..])
  }

  lemma {:induction false} CategoryAddsUp(hosts: Hosts, ks: seq<nat>, srcs: seq<Source>)
    requires |ks| == |hosts| && (forall i :: 0 <= i < |ks| ==> ks[i] <= |hosts[i]|) && Recorded(hosts)
    ensures Sum(Totals(Cut(hosts, ks), srcs)) + AfterOf(hosts, ks, srcs) ==
              Sum(Totals(hosts, srcs))
    decreases |srcs|
  {
    hide Total, TotalAfter, Recorded, Cut;
    if srcs != [] {
      CategoryAddsUp(hosts, ks, srcs[1..]);
      WindowsAddUp(hosts, ks, srcs[0]);
      assert Totals(Cut(hosts, ks), srcs)[1..] == Totals(Cut(hosts, ks), srcs[1..]);
      assert Totals(hosts, srcs)[1..] == Totals(hosts, srcs[1..]);
    }
  }

  lemma {:induction false} UnspokenTotal(hosts: Hosts, src: Source)
    requires !Spoken(hosts, KindOf(src))
    ensures Total(hosts, src) == 0
    decreases |hosts|
  {
    hide Has, Rise, ReadAll;
    if hosts != [] {
      LackingRisesNothing(hosts[0], src);
      forall i | 0 <= i < |hosts[1..]| ensures !Has(hosts[1..][i], KindOf(src)) {
        assert hosts[1..][i] == hosts[i + 1];
      }
      UnspokenTotal(hosts[1..], src);
    }
  }

  lemma {:induction false} UnspokenSum(hosts: Hosts, srcs: seq<Source>)
    requires forall j :: 0 <= j < |srcs| ==> !Spoken(hosts, KindOf(srcs[j]))
    ensures Sum(Totals(hosts, srcs)) == 0
    decreases |srcs|
  {
    hide Total, Spoken;
    if srcs != [] {
      UnspokenTotal(hosts, srcs[0]);
      UnspokenSum(hosts, srcs[1..]);
      assert Totals(hosts, srcs)[1..] == Totals(hosts, srcs[1..]);
    }
  }

  lemma {:induction false} ListedIs(hosts: Hosts, cs: seq<Category>, c: Category)
    ensures Listed(CountsOf(hosts, cs), c) == if c in cs then Sum(Totals(hosts, SourcesOf(c))) else 0
    decreases |cs|
  {
    hide Totals, Count, SourcesOf;
    if cs != [] {
      assert CountsOf(hosts, cs)[1..] == CountsOf(hosts, cs[1..]);
      ListedIs(hosts, cs[1..], c);
    }
  }

  lemma OneKind(c: Category, j: nat)
    requires j < |SourcesOf(c)|
    ensures KindOf(SourcesOf(c)[j]) == KindOfCategory(c)
  {
  }

  lemma InCategories(hosts: Hosts, c: Category)
    ensures c in Categories(hosts) <==> c.HostUdp? || Spoken(hosts, KindOfCategory(c))
  {
    hide Spoken;
  }

  /** A category not listed has nothing to list. */
  lemma ListedTotal(hosts: Hosts, c: Category)
    ensures Listed(CountsOf(hosts, Categories(hosts)), c) == Sum(Totals(hosts, SourcesOf(c)))
  {
    hide Totals, Count, SourcesOf, Categories, Spoken, KindOf, KindOfCategory;
    ListedIs(hosts, Categories(hosts), c);
    InCategories(hosts, c);
    if c !in Categories(hosts) {
      forall j | 0 <= j < |SourcesOf(c)| ensures !Spoken(hosts, KindOf(SourcesOf(c)[j])) { OneKind(c, j); }
      UnspokenSum(hosts, SourcesOf(c));
    }
  }

  /** windowDropLine: the drops up to the stop, and by category what more the whole series shows. With the
      namespace counts recorded that is what the samples not kept add, and the two make up the whole. */
  method WindowDrops(hosts: Hosts, stop: int)
    returns (upTo: seq<DropCount>, after: map<Category, nat>, ghost ks: seq<nat>)
    requires forall i :: 0 <= i < |hosts| ==> InTime(hosts[i])
    ensures stop <= 0 ==> upTo == CountsOf(hosts, Categories(hosts)) && after == map[]
    ensures stop > 0 ==> Stops(hosts, stop, ks) && upTo == CountsOf(Cut(hosts, ks), Categories(Cut(hosts, ks)))
    ensures stop > 0 && Recorded(hosts) ==> forall c :: Reported(hosts, ks, c, upTo, after)
  {
    hide Kept, CountsOf, Categories, Recorded, Reported, Cut, Listed;
    ks, after := [], map[];
    var gaps: Gaps;
    if stop <= 0 {
      upTo, gaps := HostDrops(hosts);
      return;
    }
    var kept := UpToStops(hosts, stop);
    ks :| Stops(hosts, stop, ks) && kept == Cut(hosts, ks);
    upTo, gaps := HostDrops(kept);
    var all: seq<DropCount>;
    all, gaps := HostDrops(hosts);
    CategoriesOnce(hosts);
    after := Differences(all, upTo);
    if Recorded(hosts) {
      forall c ensures Reported(hosts, ks, c, upTo, after) {
        ReportedIs(hosts, ks, c, upTo, all, after);
      }
    }
  }

  /** What is attributed to the time after the stop, and with it the whole. */
  ghost predicate Reported(hosts: Hosts, ks: seq<nat>, c: Category, upTo: seq<DropCount>, after: map<Category, nat>) {
    && |ks| == |hosts| && (forall i :: 0 <= i < |ks| ==> ks[i] <= |hosts[i]|)
    && (if c in after then after[c] else 0) == AfterOf(hosts, ks, SourcesOf(c))
    && Listed(upTo, c) + AfterOf(hosts, ks, SourcesOf(c)) == Sum(Totals(hosts, SourcesOf(c)))
  }

  lemma ReportedIs(hosts: Hosts, ks: seq<nat>, c: Category, upTo: seq<DropCount>, all: seq<DropCount>,
                   after: map<Category, nat>)
    requires |ks| == |hosts| && (forall i :: 0 <= i < |ks| ==> ks[i] <= |hosts[i]|) && Recorded(hosts)
    requires upTo == CountsOf(Cut(hosts, ks), Categories(Cut(hosts, ks))) && all == CountsOf(hosts, Categories(hosts))
    requires Differs(all, upTo, after, c)
    ensures Reported(hosts, ks, c, upTo, after)
  {
    hide CountsOf, Categories, Recorded, Cut, Listed, Totals, SourcesOf, Sum;
    CategoryAddsUp(hosts, ks, SourcesOf(c));
    ListedTotal(hosts, c);
    ListedTotal(Cut(hosts, ks), c);
  }

  ghost predicate Differs(all: seq<DropCount>, upTo: seq<DropCount>, after: map<Category, nat>, c: Category) {
    var d := Listed(all, c) - Listed(upTo, c);
    (if c in after then after[c] else 0) == if d > 0 then d else 0
  }

  ghost predicate Once(all: seq<DropCount>) {
    forall i, j :: 0 <= i < j < |all| ==> all[i].what != all[j].what
  }

  lemma {:induction false} ListedAt(all: seq<DropCount>, x: nat)
    requires Once(all) && x < |all|
    ensures Listed(all, all[x].what) == all[x].n
  {
    if x > 0 { ListedAt(all[1..], x - 1); }
  }

  lemma {:induction false} NotListed(all: seq<DropCount>, c: Category)
    requires forall x :: 0 <= x < |all| ==> all[x].what != c
    ensures Listed(all, c) == 0
  {
    if all != [] { NotListed(all[1..], c); }
  }

  lemma CategoriesOnce(hosts: Hosts)
    ensures Once(CountsOf(hosts, Categories(hosts)))
  {
    hide Spoken, Totals, Count;
    var cs := Categories(hosts);
    forall i, j | 0 <= i < j < |cs| ensures cs[i] != cs[j] {}
  }

  /** The loop over the categories of the whole series; only what exceeds the part is reported. */
  method Differences(all: seq<DropCount>, upTo: seq<DropCount>) returns (after: map<Category, nat>)
    requires Once(all)
    ensures forall c :: Differs(all, upTo, after, c)
  {
    after := map[];
    for i := 0 to |all|
      invariant forall x :: 0 <= x < i ==> (all[x].what in after <==> all[x].n > Listed(upTo, all[x].what))
      invariant forall x :: 0 <= x < i && all[x].what in after ==>
                  after[all[x].what] == all[x].n - Listed(upTo, all[x].what)
      invariant forall c :: c in after ==> exists x :: 0 <= x < i && all[x].what == c
    {
      var d := all[i].n - Listed(upTo, all[i].what);
      if d > 0 {
        after := after[all[i].what := d];
      }
    }
    forall c ensures Differs(all, upTo, after, c) {
      if x :| 0 <= x < |all| && all[x].what == c {
        ListedAt(all, x);
      } else {
        NotListed(all, c);
      }
    }
  }
}
