/** The node process of cmd/node/session.go: one server at a time, what each online
    period recorded folded into the totals of the run, and the trace made of both. */
module NodeSessions {

  import opened Wrappers

  // ------------------------------------------------------------------- counters

  datatype Counter = Counter(txMsgs: nat, txBytes: nat, rxMsgs: nat, rxBytes: nat,
                             timeouts: nat, ghostTimeouts: nat, ownGhostTimeouts: nat)

  const ZERO := Counter(0, 0, 0, 0, 0, 0, 0)

  type Wire = map<string, Counter>

  datatype TopicLoad = TopicLoad(regtopic: Counter, topicQuery: Counter)

  type Load = map<string, TopicLoad>

  function AddCounter(a: Counter, b: Counter): Counter {
    Counter(a.txMsgs + b.txMsgs, a.txBytes + b.txBytes, a.rxMsgs + b.rxMsgs, a.rxBytes + b.rxBytes,
            a.timeouts + b.timeouts, a.ghostTimeouts + b.ghostTimeouts, a.ownGhostTimeouts + b.ownGhostTimeouts)
  }

  datatype Field = TxMsgs | TxBytes | RxMsgs | RxBytes | Timeouts | GhostTimeouts | OwnGhostTimeouts

  function Amount(c: Counter, f: Field): nat {
    match f
    case TxMsgs => c.txMsgs
    case TxBytes => c.txBytes
    case RxMsgs => c.rxMsgs
    case RxBytes => c.rxBytes
    case Timeouts => c.timeouts
    case GhostTimeouts => c.ghostTimeouts
    case OwnGhostTimeouts => c.ownGhostTimeouts
  }

  /** A counter is its seven amounts. */
  lemma AmountsTell(c: Counter)
    ensures c == Counter(Amount(c, TxMsgs), Amount(c, TxBytes), Amount(c, RxMsgs), Amount(c, RxBytes),
                         Amount(c, Timeouts), Amount(c, GhostTimeouts), Amount(c, OwnGhostTimeouts))
  {
  }

  /** A missing message type counts as zero. */
  function At(w: Wire, k: string): Counter {
    if k in w then w[k] else ZERO
  }

  function AddWire(a: Wire, b: Wire): Wire {
    map k | k in a.Keys + b.Keys :: if k in b then AddCounter(At(a, k), b[k]) else a[k]
  }

  function LoadAt(l: Load, k: string): TopicLoad {
    if k in l then l[k] else TopicLoad(ZERO, ZERO)
  }

  function AddLoad(a: Load, b: Load): Load {
    map k | k in a.Keys + b.Keys ::
      if k in b then
        TopicLoad(AddCounter(LoadAt(a, k).regtopic, b[k].regtopic),
                  AddCounter(LoadAt(a, k).topicQuery, b[k].topicQuery))
      else a[k]
  }

  predicate Below(a: Counter, b: Counter) {
    && a.txMsgs <= b.txMsgs && a.txBytes <= b.txBytes && a.rxMsgs <= b.rxMsgs && a.rxBytes <= b.rxBytes
    && a.timeouts <= b.timeouts && a.ghostTimeouts <= b.ghostTimeouts && a.ownGhostTimeouts <= b.ownGhostTimeouts
  }

  /** Every message type's counter has not fallen. */
  ghost predicate Grown(a: Wire, b: Wire) {
    forall k: string :: Below(At(a, k), At(b, k))
  }

  lemma AddWireAt(a: Wire, b: Wire, k: string)
    ensures At(AddWire(a, b), k) == AddCounter(At(a, k), At(b, k))
  {
    var sum := AddWire(a, b);
    assert k in sum <==> k in a || k in b;
    if k !in b {
      assert AddCounter(At(a, k), ZERO) == At(a, k);
    }
  }

  /** One field of one message type, none if the type is missing. */
  function InWire(w: Wire, k: string, f: Field): nat {
    if k in w then Amount(w[k], f) else 0
  }

  /** One field of a topic's registrations, or of its queries. */
  function InLoad(l: Load, t: string, queries: bool, f: Field): nat {
    if t !in l then 0 else if queries then Amount(l[t].topicQuery, f) else Amount(l[t].regtopic, f)
  }

  /** Adding two maps adds them key by key and field by field. */
  lemma WireAdds(a: Wire, b: Wire, k: string, f: Field)
    ensures AddWire(a, b).Keys == a.Keys + b.Keys
    ensures InWire(AddWire(a, b), k, f) == InWire(a, k, f) + InWire(b, k, f)
  {
  }

  lemma LoadAdds(a: Load, b: Load, t: string, queries: bool, f: Field)
    ensures AddLoad(a, b).Keys == a.Keys + b.Keys
    ensures InLoad(AddLoad(a, b), t, queries, f) == InLoad(a, t, queries, f) + InLoad(b, t, queries, f)
  {
  }

  lemma GrownAdd(a: Wire, b: Wire, b': Wire)
    requires Grown(b, b')
    ensures Grown(AddWire(a, b), AddWire(a, b'))
  {
    forall k: string ensures Below(At(AddWire(a, b), k), At(AddWire(a, b'), k)) {
      AddWireAt(a, b, k);
      AddWireAt(a, b', k);
    }
  }

  lemma AddNothing(a: Wire, l: Load)
    ensures AddWire(a, map[]) == a && AddLoad(l, map[]) == l
  {
  }

  lemma GrownTransitive(a: Wire, b: Wire, c: Wire)
    requires Grown(a, b) && Grown(b, c)
    ensures Grown(a, c)
  {
    forall k: string ensures Below(At(a, k), At(c, k)) {
      assert Below(At(a, k), At(b, k)) && Below(At(b, k), At(c, k));
    }
  }

  // ------------------------------------------------------------------- sessions

  datatype Found = Found(id: string, atMs: int)
  datatype Span = Span(startMs: int, endMs: int)

  /** What only a running server can tell. */
  datatype Live = Live(out: nat, inn: nat, adsHeld: nat, ghostsInTable: nat, tableSize: nat)

  /** The registrar's state as the session watched it. */
  datatype Ads = Ads(first: map<string, map<string, int>>, last: map<string, seq<string>>,
                     expiry: map<string, map<string, int>>, snapshotMs: int, staleMaxMs: int,
                     bucketFullMs: seq<int>, regCompleteMs: int, bucketsLast: seq<string>)

  /** `connStart` is None until the dialer's search has opened. */
  datatype Session = Session(started: int, firstCapableMs: int, connStart: Option<int>, connFound: seq<Found>,
                             connFullMs: int, connSearch: Option<string>, lookups: seq<string>,
                             wire: Wire, ops: seq<string>, load: Load, live: Live, ads: Ads)

  function NewSession(started: int): Session {
    Session(started, -1, None, [], -1, None, [], map[], [], map[],
            Live(0, 0, 0, 0, 0), Ads(map[], map[], map[], 0, 0, [], -1, []))
  }

  /** What snapshotLive and snapshotCounters read from the server. */
  datatype Readings = Readings(live: Live, wire: Wire, ops: seq<string>, load: Load, connSearch: Option<string>)

  function Read(s: Session, r: Readings): Session {
    s.(live := r.live, wire := r.wire, ops := r.ops, load := r.load, connSearch := r.connSearch)
  }

  datatype Sample = Sample(atMs: int, wire: Wire)

  function AbsFound(s: Session): seq<Found>
    requires s.connStart.Some?
  {
    seq(|s.connFound|, i requires 0 <= i < |s.connFound| =>
      Found(s.connFound[i].id, s.connStart.value + s.connFound[i].atMs))
  }

  function MinCapable(a: int, b: int): int {
    if a < 0 || (b >= 0 && b < a) then b else a
  }

  /** What the process keeps over the whole run. */
  datatype Record = Record(drops: nat, refills: seq<int>, lookupsDone: seq<string>, opsDone: seq<string>,
                           wireDone: Wire, loadDone: Load, samples: seq<Sample>, firstCapableMs: int,
                           sessions: seq<Span>, connDone: seq<Found>, connLast: Option<Session>,
                           cur: Option<Session>, last: Option<Session>)

  const NEW_RECORD := Record(0, [], [], [], map[], map[], [], -1, [], [], None, None, None)

  /** fold: the current session's record joins the totals. */
  function Fold(r: Record, s: Session, end: int): Record {
    r.(lookupsDone := r.lookupsDone + s.lookups,
       opsDone := r.opsDone + s.ops,
       wireDone := AddWire(r.wireDone, s.wire),
       loadDone := AddLoad(r.loadDone, s.load),
       firstCapableMs := MinCapable(r.firstCapableMs, s.firstCapableMs),
       connDone := if s.connStart.Some? then r.connDone + AbsFound(s) else r.connDone,
       connLast := if s.connStart.Some? then Some(s) else r.connLast,
       sessions := r.sessions + [Span(s.started, end)],
       last := Some(s),
       cur := None)
  }

  datatype Conn = Conn(startMs: int, found: seq<Found>, slotsFilledMs: int, search: Option<string>)

  /** What the trace copies from the assignment, and from the discovery code at the moment it is made. */
  datatype Context = Context(assignment: string, waits: string, admissions: string)

  /** The node's record of the whole run. */
  datatype Trace = Trace(drops: nat, refills: seq<int>, lookups: seq<string>, ops: seq<string>, wire: Option<Wire>,
                         load: Load, capable: int, conn: Option<Conn>, sessions: seq<Span>, samples: seq<Sample>,
                         live: Live, ads: Ads, context: Context)

  function TraceOf(r: Record, lookupOnly: bool, context: Context, now: int): Trace {
    var wire0, load0 := AddWire(r.wireDone, map[]), AddLoad(r.loadDone, map[]);
    var c := r.cur;
    var wire := if c.Some? then AddWire(wire0, c.value.wire) else wire0;
    var load := if c.Some? then AddLoad(load0, c.value.load) else load0;
    var dialing := c.Some? && c.value.connStart.Some?;
    var found := if dialing then r.connDone + AbsFound(c.value) else r.connDone;
    var src := if dialing then c else r.connLast;
    var shown := if c.Some? then c.value else if r.last.Some? then r.last.value else NewSession(0);
    Trace(r.drops, r.refills,
          if c.Some? then r.lookupsDone + c.value.lookups else r.lookupsDone,
          if c.Some? then r.opsDone + c.value.ops else r.opsDone,
          if wire == map[] then None else Some(wire),
          load,
          if c.Some? then MinCapable(r.firstCapableMs, c.value.firstCapableMs) else r.firstCapableMs,
          ConnOf(src, found, lookupOnly),
          if c.Some? then r.sessions + [Span(c.value.started, now)] else r.sessions,
          r.samples, shown.live, shown.ads, context)
  }

  function ConnOf(src: Option<Session>, found: seq<Found>, lookupOnly: bool): Option<Conn> {
    if lookupOnly || src.None? || src.value.connStart.None? then None else
      var start := src.value.connStart.value;
      Some(Conn(start, seq(|found|, i requires 0 <= i < |found| => Found(found[i].id, found[i].atMs - start)),
                src.value.connFullMs, src.value.connSearch))
  }

  /** Folding a session does not change what the trace says, but for when it ended: a trace
      written while the session runs and one written after it closed agree. */
  lemma TraceUnchangedByFold(r: Record, end: int, lookupOnly: bool, context: Context, now: int)
    requires r.cur.Some?
    ensures TraceOf(Fold(r, r.cur.value, end), lookupOnly, context, now) == TraceOf(r, lookupOnly, context, end)
    ensures TraceOf(r, lookupOnly, context, now).sessions == r.sessions + [Span(r.cur.value.started, now)]
    ensures TraceOf(r, lookupOnly, context, now).(sessions := []) ==
              TraceOf(r, lookupOnly, context, end).(sessions := [])
  {
    hide AddWire, AddLoad;
    AddNothing(r.wireDone, r.loadDone);
    AddNothing(AddWire(r.wireDone, r.cur.value.wire), AddLoad(r.loadDone, r.cur.value.load));
  }

  // ------------------------------------------------- the process, step by step

  datatype Reply = Accepted | ErrUp | ErrDown | ErrStopped | ErrStart

  /** Who holds `ctl`: nobody, or a down (the final one or not) waiting for the goroutines. */
  datatype Ctl = Free | Stopping

  /** `live` are the running server's own counters; `reading` a sample taken from them that
      the sampler has not yet recorded; `servers` how many servers run. Times in ms. */
  datatype Proc = Proc(done: bool, ctl: Ctl, rec: Record, live: Readings, reading: Option<Wire>, servers: int,
                       clock: int)

  const NO_READINGS := Readings(Live(0, 0, 0, 0, 0), map[], [], map[], None)

  datatype Step =
    | Up(startOk: bool, begun: Session)
    | BeginDown
    | BeginFinish
    | EndDown
    | Traffic(live: Readings, work: Session)
    | ReadSample
    | RecordSample
    | Tick(d: nat)

  /** up's answer when it gets `ctl`. */
  function UpReply(p: Proc, startOk: bool): Reply {
    if p.done then ErrStopped else if p.rec.cur.Some? then ErrUp else if !startOk then ErrStart else Accepted
  }

  /** downLocked's answer. */
  function DownReply(p: Proc): Reply {
    if p.rec.cur.None? then ErrDown else Accepted
  }

  ghost predicate Enabled(p: Proc, a: Step) {
    match a
    case Up(_, begun) => p.ctl == Free && begun.started == p.clock
    case BeginDown => p.ctl == Free
    case BeginFinish => p.ctl == Free
    case EndDown => p.ctl == Stopping && p.rec.cur.Some? && p.reading.None? // every goroutine has ended
    case Traffic(live, work) =>
      p.rec.cur.Some? && Grown(p.live.wire, live.wire) && work.started == p.rec.cur.value.started
    case ReadSample => p.rec.cur.Some? && p.reading.None?
    case RecordSample => p.reading.Some?
    case Tick(_) => true
  }

  function Apply(p: Proc, a: Step): Proc {
    match a
    case Up(startOk, begun) =>
      if UpReply(p, startOk) != Accepted then p
      else p.(rec := p.rec.(cur := Some(begun)), live := NO_READINGS, servers := p.servers + 1)
    case BeginDown => if DownReply(p) != Accepted then p else p.(ctl := Stopping)
    case BeginFinish =>
      if p.done then p
      else if p.rec.cur.None? then p.(done := true)
      else p.(done := true, ctl := Stopping, rec := p.rec.(cur := Some(Read(p.rec.cur.value, p.live))))
    case EndDown =>
      if p.rec.cur.None? then p
      else p.(ctl := Free, servers := p.servers - 1, live := NO_READINGS,
              rec := Fold(p.rec, Read(p.rec.cur.value, p.live), p.clock))
    case Traffic(live, work) =>
      if p.rec.cur.None? then p else p.(live := live, rec := p.rec.(cur := Some(work)))
    case ReadSample => p.(reading := Some(p.live.wire))
    case RecordSample =>
      if p.reading.None? then p
      else
        var sample := Sample(p.clock, AddWire(p.rec.wireDone, p.reading.value));
        p.(reading := None, rec := p.rec.(samples := p.rec.samples + [sample]))
    case Tick(d) => p.(clock := p.clock + d)
  }

  /** The totals the next sample is measured against. */
  function Total(p: Proc): Wire {
    AddWire(p.rec.wireDone, if p.reading.Some? then p.reading.value else p.live.wire)
  }

  ghost predicate OneServer(p: Proc) {
    && p.servers == (if p.rec.cur.Some? then 1 else 0)
    && (p.ctl == Stopping ==> p.rec.cur.Some?)
    && (p.rec.cur.None? ==> p.live == NO_READINGS && p.reading.None?)
  }

  ghost predicate SpansApart(p: Proc) {
    && (forall i :: 0 <= i < |p.rec.sessions| ==> p.rec.sessions[i].startMs <= p.rec.sessions[i].endMs <= p.clock)
    && (forall i, j :: 0 <= i < j < |p.rec.sessions| ==> p.rec.sessions[i].endMs <= p.rec.sessions[j].startMs)
    && (p.rec.cur.Some? ==> p.rec.cur.value.started <= p.clock)
    && (p.rec.cur.Some? ==> forall i :: 0 <= i < |p.rec.sessions| ==>
          p.rec.sessions[i].endMs <= p.rec.cur.value.started)
  }

  ghost predicate SamplesGrow(p: Proc) {
    && (p.reading.Some? ==> Grown(p.reading.value, p.live.wire))
    && GrowsTo(p.rec.samples, Total(p))
  }

  ghost predicate Inv(p: Proc) {
    OneServer(p) && SpansApart(p) && SamplesGrow(p)
  }

  lemma GrownSelf(a: Wire)
    ensures Grown(a, a)
  {
  }

  /** The samples never fall, nor exceed `top`. */
  ghost predicate GrowsTo(samples: seq<Sample>, top: Wire) {
    && (forall i, j :: 0 <= i <= j < |samples| ==> Grown(samples[i].wire, samples[j].wire))
    && (forall i :: 0 <= i < |samples| ==> Grown(samples[i].wire, top))
  }

  lemma GrowsOn(samples: seq<Sample>, top: Wire, next: Sample)
    requires GrowsTo(samples, top) && Grown(top, next.wire)
    ensures GrowsTo(samples + [next], next.wire)
  {
    GrownSelf(next.wire);
    forall i | 0 <= i < |samples| ensures Grown(samples[i].wire, next.wire) {
      GrownTransitive(samples[i].wire, top, next.wire);
    }
    hide Grown;
  }

  lemma TotalGrows(p: Proc, a: Step)
    requires OneServer(p) && Enabled(p, a) && (p.reading.Some? ==> Grown(p.reading.value, p.live.wire))
    ensures Grown(Total(p), Total(Apply(p, a)))
  {
    GrownSelf(Total(p));
    match a
    case Traffic(live, _) => if p.reading.None? { GrownAdd(p.rec.wireDone, p.live.wire, live.wire); }
    case EndDown => AddNothing(AddWire(p.rec.wireDone, p.live.wire), map[]);
    case RecordSample => GrownAdd(p.rec.wireDone, p.reading.value, p.live.wire);
    case _ =>
  }

  lemma StepSamples(p: Proc, a: Step)
    requires OneServer(p) && SamplesGrow(p) && Enabled(p, a)
    ensures SamplesGrow(Apply(p, a))
  {
    var p' := Apply(p, a);
    TotalGrows(p, a);
    if p'.reading.Some? {
      if a.ReadSample? {
        GrownSelf(p.live.wire);
      } else if a.Traffic? {
        GrownTransitive(p.reading.value, p.live.wire, a.live.wire);
      }
    }
    var n := |p.rec.samples|;
    assert forall i :: 0 <= i < n ==> p'.rec.samples[i] == p.rec.samples[i];
    assert |p'.rec.samples| == n || (p'.rec.samples[n].wire == Total(p) && |p'.rec.samples| == n + 1);
    GrownSelf(Total(p));
    forall i | 0 <= i < |p'.rec.samples| ensures Grown(p'.rec.samples[i].wire, Total(p')) {
      if i < n {
        GrownTransitive(p.rec.samples[i].wire, Total(p), Total(p'));
      }
    }
  }

  lemma StepInv(p: Proc, a: Step)
    requires Inv(p) && Enabled(p, a)
    ensures Inv(Apply(p, a))
  {
    StepSamples(p, a);
  }

  ghost predicate Legal(p: Proc, steps: seq<Step>)
    decreases |steps|
  {
    steps == [] || (Enabled(p, steps[0]) && Legal(Apply(p, steps[0]), steps[1..]))
  }

  function Run(p: Proc, steps: seq<Step>): Proc
    decreases |steps|
  {
    if steps == [] then p else Run(Apply(p, steps[0]), steps[1..])
  }

  function NewProc(clock: int): Proc {
    Proc(false, Free, NEW_RECORD, NO_READINGS, None, 0, clock)
  }

  lemma {:induction false} RunInv(p: Proc, steps: seq<Step>)
    requires Inv(p) && Legal(p, steps)
    ensures Inv(Run(p, steps))
    decreases |steps|
  {
    if steps != [] {
      StepInv(p, steps[0]);
      RunInv(Apply(p, steps[0]), steps[1..]);
    }
  }

  /** Over any run of the process: at most one server is ever up, the online periods are in
      order and apart, and the sampled counters never fall, across restarts too, nor exceed
      what the closed sessions and the running server add up to. */
  lemma ProcessTrustworthy(steps: seq<Step>, clock: int)
    requires Legal(NewProc(clock), steps)
    ensures var p := Run(NewProc(clock), steps);
            && 0 <= p.servers <= 1 && (p.servers == 1 <==> p.rec.cur.Some?)
            && SpansApart(p)
            && (forall i, j :: 0 <= i <= j < |p.rec.samples| ==> Grown(p.rec.samples[i].wire, p.rec.samples[j].wire))
            && (forall i :: 0 <= i < |p.rec.samples| ==>
                  Grown(p.rec.samples[i].wire, AddWire(p.rec.wireDone, p.live.wire)))
  {
    RunInv(NewProc(clock), steps);
    var p := Run(NewProc(clock), steps);
    if p.reading.Some? {
      GrownAdd(p.rec.wireDone, p.reading.value, p.live.wire);
      forall i | 0 <= i < |p.rec.samples| ensures Grown(p.rec.samples[i].wire, AddWire(p.rec.wireDone, p.live.wire)) {
        GrownTransitive(p.rec.samples[i].wire, Total(p), AddWire(p.rec.wireDone, p.live.wire));
      }
    }
  }

  // ------------------------------------------------ what the totals and the trace say

  /** The sessions closed during a run, in order, each with its server's last readings. */
  function Closed(p: Proc, steps: seq<Step>): seq<Session>
    decreases |steps|
  {
    if steps == [] then [] else
      (if steps[0].EndDown? && p.rec.cur.Some? then [Read(p.rec.cur.value, p.live)] else [])
      + Closed(Apply(p, steps[0]), steps[1..])
  }

  function SumWire(ss: seq<Session>, k: string, f: Field): nat {
    if ss == [] then 0 else SumWire(ss[..|ss| - 1], k, f) + InWire(ss[|ss| - 1].wire, k, f)
  }

  function SumLoad(ss: seq<Session>, t: string, queries: bool, f: Field): nat {
    if ss == [] then 0 else SumLoad(ss[..|ss| - 1], t, queries, f) + InLoad(ss[|ss| - 1].load, t, queries, f)
  }

  function AllLookups(ss: seq<Session>): seq<string> {
    if ss == [] then [] else AllLookups(ss[..|ss| - 1]) + ss[|ss| - 1].lookups
  }

  function AllOps(ss: seq<Session>): seq<string> {
    if ss == [] then [] else AllOps(ss[..|ss| - 1]) + ss[|ss| - 1].ops
  }

  /** The registrants handed to the dialers that searched, at absolute times. */
  function AllFound(ss: seq<Session>): seq<Found> {
    if ss == [] then [] else
      var s := ss[|ss| - 1];
      AllFound(ss[..|ss| - 1]) + if s.connStart.Some?
                                 then seq(|s.connFound|, i requires 0 <= i < |s.connFound| =>
                                   Found(s.connFound[i].id, s.connStart.value + s.connFound[i].atMs))
                                 else []
  }

  /** The last session whose dialer searched. */
  function LastDialing(ss: seq<Session>): Option<Session> {
    if ss == [] then None
    else if ss[|ss| - 1].connStart.Some? then Some(ss[|ss| - 1]) else LastDialing(ss[..|ss| - 1])
  }

  /** The earliest time at which a capable node was known: none when no session knew one. */
  ghost predicate Earliest(ss: seq<Session>, at: int) {
    && (at >= 0 ==> exists i :: 0 <= i < |ss| && ss[i].firstCapableMs == at)
    && (forall i :: 0 <= i < |ss| && ss[i].firstCapableMs >= 0 ==> 0 <= at <= ss[i].firstCapableMs)
  }

  /** One online period per session, from its start. */
  ghost predicate SpansOf(spans: seq<Span>, ss: seq<Session>) {
    |spans| == |ss| && forall i :: 0 <= i < |ss| ==> spans[i].startMs == ss[i].started
  }

  /** The totals are those of the sessions `ss`: none lost, none twice. */
  ghost predicate Totals(r: Record, ss: seq<Session>) {
    && r.lookupsDone == AllLookups(ss) && r.opsDone == AllOps(ss)
    && (forall k, f :: InWire(r.wireDone, k, f) == SumWire(ss, k, f))
    && (forall t, queries, f :: InLoad(r.loadDone, t, queries, f) == SumLoad(ss, t, queries, f))
    && Earliest(ss, r.firstCapableMs) && SpansOf(r.sessions, ss)
    && r.connDone == AllFound(ss) && r.connLast == LastDialing(ss)
    && r.last == if ss == [] then None else Some(ss[|ss| - 1])
  }

  lemma LastOf(ss: seq<Session>, s: Session)
    ensures (ss + [s])[..|ss|] == ss
  {
  }

  lemma FoldSums(r: Record, ss: seq<Session>, s: Session, end: int)
    requires Totals(r, ss)
    ensures var r', ss' := Fold(r, s, end), ss + [s];
            && (forall k, f :: InWire(r'.wireDone, k, f) == SumWire(ss', k, f))
            && (forall t, queries, f :: InLoad(r'.loadDone, t, queries, f) == SumLoad(ss', t, queries, f))
  {
    hide AddWire, AddLoad, InWire, InLoad;
    LastOf(ss, s);
    forall k, f ensures InWire(Fold(r, s, end).wireDone, k, f) == SumWire(ss + [s], k, f) {
      WireAdds(r.wireDone, s.wire, k, f);
    }
    forall t, queries, f ensures InLoad(Fold(r, s, end).loadDone, t, queries, f) == SumLoad(ss + [s], t, queries, f) {
      LoadAdds(r.loadDone, s.load, t, queries, f);
    }
  }

  lemma EarliestOf(ss: seq<Session>, s: Session, at: int)
    requires Earliest(ss, at)
    ensures Earliest(ss + [s], MinCapable(at, s.firstCapableMs))
  {
    var ss' := ss + [s];
    assert ss'[|ss|] == s;
    if at >= 0 {
      var i :| 0 <= i < |ss| && ss[i].firstCapableMs == at;
      assert ss'[i] == ss[i];
    }
  }

  /** Folding a session adds exactly its part. */
  lemma FoldTotals(r: Record, ss: seq<Session>, s: Session, end: int)
    requires Totals(r, ss)
    ensures Totals(Fold(r, s, end), ss + [s])
  {
    FoldSums(r, ss, s, end);
    EarliestOf(ss, s, r.firstCapableMs);
    LastOf(ss, s);
    hide AddWire, AddLoad, InWire, InLoad, SumWire, SumLoad, MinCapable, Earliest;
    if s.connStart.Some? {
      assert AbsFound(s) == seq(|s.connFound|, i requires 0 <= i < |s.connFound| =>
        Found(s.connFound[i].id, s.connStart.value + s.connFound[i].atMs));
    } else {
      assert AllFound(ss) + [] == AllFound(ss);
    }
  }

  lemma NothingYet()
    ensures Totals(NEW_RECORD, [])
  {
  }

  lemma {:induction false} RunTotals(p: Proc, ss: seq<Session>, steps: seq<Step>)
    requires Totals(p.rec, ss)
    ensures Totals(Run(p, steps).rec, ss + Closed(p, steps))
    decreases |steps|
  {
    hide Totals, AddWire, AddLoad;
    if steps == [] {
      assert ss + [] == ss;
    } else {
      var a, p' := steps[0], Apply(p, steps[0]);
      if a.EndDown? && p.rec.cur.Some? {
        var s := Read(p.rec.cur.value, p.live);
        FoldTotals(p.rec, ss, s, p.clock);
        RunTotals(p', ss + [s], steps[1..]);
        assert ss + ([s] + Closed(p', steps[1..])) == ss + [s] + Closed(p', steps[1..]);
      } else {
        SameTotals(p.rec, p'.rec, ss);
        RunTotals(p', ss, steps[1..]);
        assert [] + Closed(p', steps[1..]) == Closed(p', steps[1..]);
      }
    }
  }

  /** Only closing a session changes the totals. */
  lemma SameTotals(r: Record, r': Record, ss: seq<Session>)
    requires Totals(r, ss) && r' == r.(samples := r'.samples, cur := r'.cur)
    ensures Totals(r', ss)
  {
  }

  /** No session is lost or counted twice: at any time the totals are those of the sessions closed so far, per
      message type, topic and field, in the order in which they were closed. */
  lemma CountersConserved(steps: seq<Step>, clock: int)
    ensures Totals(Run(NewProc(clock), steps).rec, Closed(NewProc(clock), steps))
  {
    hide Totals, Run, Closed;
    NothingYet();
    RunTotals(NewProc(clock), [], steps);
    assert [] + Closed(NewProc(clock), steps) == Closed(NewProc(clock), steps);
  }

  function WireTold(t: Trace, k: string, f: Field): nat {
    if t.wire.Some? then InWire(t.wire.value, k, f) else 0
  }

  /** The dialer's search: its start and its end are those of the last one, and its finds are all sessions',
      at times counted from that start. */
  ghost predicate ConnTold(conn: Option<Conn>, ss: seq<Session>, lookupOnly: bool) {
    var src, all := LastDialing(ss), AllFound(ss);
    if lookupOnly || src.None? then conn == None
    else
      && conn.Some? && Some(conn.value.startMs) == src.value.connStart
      && conn.value.slotsFilledMs == src.value.connFullMs && conn.value.search == src.value.connSearch
      && |conn.value.found| == |all|
      && forall i :: 0 <= i < |all| ==>
        conn.value.found[i].id == all[i].id && conn.value.startMs + conn.value.found[i].atMs == all[i].atMs
  }

  /** What the trace says of the sessions `ss`, the running one last if there is one. */
  ghost predicate Tells(t: Trace, ss: seq<Session>, lookupOnly: bool) {
    && t.lookups == AllLookups(ss) && t.ops == AllOps(ss)
    && (forall k, f :: WireTold(t, k, f) == SumWire(ss, k, f))
    && (forall k, queries, f :: InLoad(t.load, k, queries, f) == SumLoad(ss, k, queries, f))
    && Earliest(ss, t.capable) && SpansOf(t.sessions, ss) && ConnTold(t.conn, ss, lookupOnly)
    && (ss != [] ==> t.live == ss[|ss| - 1].live && t.ads == ss[|ss| - 1].ads)
    && (ss == [] ==> t.live == Live(0, 0, 0, 0, 0) && t.ads == Ads(map[], map[], map[], 0, 0, [], -1, []))
  }

  /** What it copies, and the online periods with their ends: the running session's is the present. */
  ghost predicate Copies(t: Trace, r: Record, context: Context, now: int) {
    && t.drops == r.drops && t.refills == r.refills && t.samples == r.samples && t.context == context
    && t.sessions == r.sessions + if r.cur.Some? then [Span(r.cur.value.started, now)] else []
  }

  lemma TraceCopies(r: Record, lookupOnly: bool, context: Context, now: int)
    ensures Copies(TraceOf(r, lookupOnly, context, now), r, context, now)
  {
    hide AddWire, AddLoad, AbsFound, ConnOf;
  }

  /** The online periods closed during a run, each from its session's start to the end of its stop. */
  function ClosedSpans(p: Proc, steps: seq<Step>): seq<Span>
    decreases |steps|
  {
    if steps == [] then [] else
      (if steps[0].EndDown? && p.rec.cur.Some? then [Span(p.rec.cur.value.started, p.clock)] else [])
      + ClosedSpans(Apply(p, steps[0]), steps[1..])
  }

  lemma StepSpans(p: Proc, a: Step)
    ensures Apply(p, a).rec.sessions
         == p.rec.sessions + if a.EndDown? && p.rec.cur.Some? then [Span(p.rec.cur.value.started, p.clock)] else []
  {
    hide AddWire, AddLoad, AbsFound, MinCapable;
  }

  lemma {:induction false} SpansConserved(p: Proc, steps: seq<Step>)
    ensures Run(p, steps).rec.sessions == p.rec.sessions + ClosedSpans(p, steps)
    decreases |steps|
  {
    hide Apply;
    if steps == [] {
      assert p.rec.sessions + [] == p.rec.sessions;
    } else {
      StepSpans(p, steps[0]);
      SpansConserved(Apply(p, steps[0]), steps[1..]);
    }
  }

  lemma LastDialingDials(ss: seq<Session>)
    ensures LastDialing(ss).Some? ==> LastDialing(ss).value.connStart.Some?
  {
  }

  lemma StoppedTells(r: Record, ss: seq<Session>, lookupOnly: bool, context: Context, now: int)
    requires Totals(r, ss) && r.cur.None?
    ensures Tells(TraceOf(r, lookupOnly, context, now), ss, lookupOnly)
  {
    hide AddWire, AddLoad;
    AddNothing(r.wireDone, r.loadDone);
    LastDialingDials(ss);
    hide SumWire, SumLoad, Earliest, AllFound, LastDialing, AllLookups, AllOps;
    forall k, f ensures WireTold(TraceOf(r, lookupOnly, context, now), k, f) == SumWire(ss, k, f) {
      assert InWire(r.wireDone, k, f) == SumWire(ss, k, f);
    }
  }

  /** A trace tells of every session, closed or running. */
  lemma TraceTells(r: Record, ss: seq<Session>, lookupOnly: bool, context: Context, now: int)
    requires Totals(r, ss)
    ensures Tells(TraceOf(r, lookupOnly, context, now), if r.cur.Some? then ss + [r.cur.value] else ss, lookupOnly)
  {
    hide Totals, Tells, TraceOf, Fold;
    if r.cur.Some? {
      FoldTotals(r, ss, r.cur.value, now);
      TraceUnchangedByFold(r, now, lookupOnly, context, now);
      FoldCloses(r, r.cur.value, now);
      StoppedTells(Fold(r, r.cur.value, now), ss + [r.cur.value], lookupOnly, context, now);
    } else {
      StoppedTells(r, ss, lookupOnly, context, now);
    }
  }

  lemma FoldCloses(r: Record, s: Session, end: int)
    ensures Fold(r, s, end).cur.None?
  {
  }

  /** Over every run, a trace made at any time adds up what all sessions so far counted, joins what they
      listed, and takes the rest from the last. */
  lemma TraceOverRun(steps: seq<Step>, clock: int, lookupOnly: bool, context: Context, now: int)
    ensures var p, closed := Run(NewProc(clock), steps), Closed(NewProc(clock), steps);
            && Tells(TraceOf(p.rec, lookupOnly, context, now),
                     if p.rec.cur.Some? then closed + [p.rec.cur.value] else closed, lookupOnly)
            && Copies(TraceOf(p.rec, lookupOnly, context, now), p.rec, context, now)
            && p.rec.sessions == ClosedSpans(NewProc(clock), steps)
  {
    SpansConserved(NewProc(clock), steps);
    hide Totals, Tells, Copies, TraceOf, Run, Closed;
    TraceCopies(Run(NewProc(clock), steps).rec, lookupOnly, context, now);
    CountersConserved(steps, clock);
    TraceTells(Run(NewProc(clock), steps).rec, Closed(NewProc(clock), steps), lookupOnly, context, now);
  }

  /** The record with the running session's last readings, if one runs. */
  function Latest(r: Record, readings: Readings): Record {
    if r.cur.Some? then r.(cur := Some(Read(r.cur.value, readings))) else r
  }

  // ------------------------------------------------------------------ the object

  /** node: the fields behind `mu`, and `done`. A method is what runs under `ctl` with the
      server's answers passed in as its readings. */
  class Node {
    const lookupOnly: bool
    var done: bool
    var drops: nat
    var refills: seq<int>
    var lookupsDone: seq<string>
    var opsDone: seq<string>
    var wireDone: Wire
    var loadDone: Load
    var samples: seq<Sample>
    var firstCapableMs: int
    var sessions: seq<Span>
    var connDone: seq<Found>
    var connLast: Option<Session>
    var cur: Option<Session>
    var last: Option<Session>

    function View(): Record
      reads this
    {
      Record(drops, refills, lookupsDone, opsDone, wireDone, loadDone, samples, firstCapableMs, sessions, connDone,
             connLast, cur, last)
    }

    constructor (lookupOnly: bool)
      ensures View() == NEW_RECORD && !done && this.lookupOnly == lookupOnly
    {
      this.lookupOnly := lookupOnly;
      done, drops, refills, lookupsDone, opsDone := false, 0, [], [], [];
      wireDone, loadDone, samples, firstCapableMs := map[], map[], [], -1;
      sessions, connDone, connLast, cur, last := [], [], None, None, None;
    }

    method Up(startOk: bool, begun: Session) returns (reply: Reply)
      modifies this`cur
      ensures done ==> reply == ErrStopped
      ensures !done && old(cur).Some? ==> reply == ErrUp
      ensures !done && old(cur).None? ==> reply == if startOk then Accepted else ErrStart
      ensures View() == if reply == Accepted then old(View()).(cur := Some(begun)) else old(View())
    {
      if done {
        return ErrStopped;
      }
      if cur.Some? {
        return ErrUp;
      }
      if !startOk {
        return ErrStart;
      }
      cur := Some(begun);
      return Accepted;
    }

    method FoldSession(s: Session, end: int)
      modifies this
      ensures View() == Fold(old(View()), s, end) && done == old(done)
    {
      hide AddWire, AddLoad, AbsFound, MinCapable;
      FoldTotals(s);
      FoldConn(s);
      sessions := sessions + [Span(s.started, end)];
      last, cur := Some(s), None;
    }

    method FoldTotals(s: Session)
      modifies this`lookupsDone, this`opsDone, this`wireDone, this`loadDone, this`firstCapableMs
      ensures lookupsDone == old(lookupsDone) + s.lookups && opsDone == old(opsDone) + s.ops
      ensures wireDone == AddWire(old(wireDone), s.wire) && loadDone == AddLoad(old(loadDone), s.load)
      ensures firstCapableMs == MinCapable(old(firstCapableMs), s.firstCapableMs)
    {
      lookupsDone := lookupsDone + s.lookups;
      opsDone := opsDone + s.ops;
      wireDone := AddWire(wireDone, s.wire);
      loadDone := AddLoad(loadDone, s.load);
      firstCapableMs := MinCapable(firstCapableMs, s.firstCapableMs);
    }

    method FoldConn(s: Session)
      modifies this`connDone, this`connLast
      ensures s.connStart.Some? ==> connDone == old(connDone) + AbsFound(s) && connLast == Some(s)
      ensures s.connStart.None? ==> connDone == old(connDone) && connLast == old(connLast)
    {
      if s.connStart.Some? {
        connDone := connDone + AbsFound(s);
        connLast := Some(s);
      }
    }

    method DownLocked(readings: Readings, end: int) returns (reply: Reply)
      modifies this
      ensures reply == if old(cur).None? then ErrDown else Accepted
      ensures done == old(done)
      ensures View() == if old(cur).None? then old(View()) else Fold(old(View()), Read(old(cur).value, readings), end)
    {
      if cur.None? {
        return ErrDown;
      }
      FoldSession(Read(cur.value, readings), end);
      return Accepted;
    }

    /** finish: at most one trace is ever written, and nothing runs afterwards. When the
        server's readings do not move between the trace and the stop, what the process holds
        at the end still gives the trace it wrote. */
    method Finish(context: Context, readings: Readings, now: int, atStop: Readings, end: int)
      returns (trace: Option<Trace>)
      modifies this
      ensures done && cur.None? == (old(cur).None? || !old(done))
      ensures old(done) ==> trace == None && View() == old(View())
      ensures !old(done) ==>
                trace.Some? && trace.value == TraceOf(Latest(old(View()), readings), lookupOnly, context, now)
      ensures !old(done) && old(cur).None? ==> View() == old(View())
      ensures !old(done) && readings == atStop && (old(cur).Some? ==> now == end) ==>
                forall t :: TraceOf(View(), lookupOnly, context, t) == trace.value
    {
      if done {
        return None;
      }
      done := true;
      if cur.Some? {
        cur := Some(Read(cur.value, readings));
      }
      ghost var before := View();
      trace := Some(TraceOf(View(), lookupOnly, context, now));
      var reply := DownLocked(atStop, end);
      forall t | readings == atStop && (before.cur.Some? ==> now == end)
        ensures TraceOf(View(), lookupOnly, context, t) == trace.value
      {
        hide AddWire, AddLoad, AbsFound, MinCapable;
        if before.cur.Some? {
          TraceUnchangedByFold(before, end, lookupOnly, context, t);
        }
      }
    }

    /** A sample carries on from the earlier sessions' totals: it adds to them per message type, and a series
        that has not fallen, up to an earlier reading of the same server, still has not. */
    method AddSample(atMs: int, wire: Wire)
      modifies this`samples
      ensures |samples| == |old(samples)| + 1 && samples[..|old(samples)|] == old(samples)
      ensures samples[|old(samples)|].atMs == atMs
      ensures forall k: string :: At(samples[|old(samples)|].wire, k) == AddCounter(At(wireDone, k), At(wire, k))
      ensures forall earlier: Wire :: Grown(earlier, wire) && GrowsTo(old(samples), AddWire(wireDone, earlier)) ==>
                GrowsTo(samples, AddWire(wireDone, wire))
    {
      hide AddWire;
      samples := samples + [Sample(atMs, AddWire(wireDone, wire))];
      forall k: string ensures At(AddWire(wireDone, wire), k) == AddCounter(At(wireDone, k), At(wire, k)) {
        AddWireAt(wireDone, wire, k);
      }
      forall earlier: Wire | Grown(earlier, wire) && GrowsTo(old(samples), AddWire(wireDone, earlier))
        ensures GrowsTo(samples, AddWire(wireDone, wire))
      {
        GrownAdd(wireDone, earlier, wire);
        GrowsOn(old(samples), AddWire(wireDone, earlier), Sample(atMs, AddWire(wireDone, wire)));
      }
    }
  }
}
