/** The crawler's prober: nodeState, observe, the ping closure and the dispatch loop of
    cmd/crawl/main.go. Answers are an arbitrary choice, the clock an arbitrary advance; the channel
    capacities are left open, so an offer to the never-responders' pool may always be refused. */
module Crawler {

  /** Probe periods, the misses that end a session, and a new node's tries. */
  datatype Config = Config(probe: nat, probeDead: nat, misses: nat, newTries: nat)

  datatype NodeState = NodeState(
    seqNo: nat, addressed: bool,
    up: bool, everUp: bool, attempts: nat, misses: nat,
    lastPong: int, upSince: int, pongs: nat, next: int, queued: bool)

  /** A finished ping. */
  datatype Ping = Ping(t: int, ok: bool)

  /** What a ping's end may report. */
  datatype Event = Silent | Up | Down(misses: nat, pongs: nat, sinceUp: int)

  function Fast(cfg: Config, st: NodeState): bool {
    st.everUp || st.attempts < cfg.newTries
  }

  function Observed(seqNo: nat, addressed: bool): NodeState {
    NodeState(seqNo, addressed, false, false, 0, 0, 0, 0, 0, 0, false)
  }

  predicate GoesDown(cfg: Config, st: NodeState, t: int) {
    st.up && st.misses + 1 >= cfg.misses && t - st.lastPong >= 2 * cfg.probe
  }

  /** The lock section that ends a ping. */
  function Finished(cfg: Config, st: NodeState, t: int, ok: bool): NodeState {
    var st' :=
      if ok then st.(queued := false, lastPong := t, misses := 0, up := true, everUp := st.everUp || !st.up,
                     pongs := if st.up then st.pongs + 1 else 1, upSince := if st.up then st.upSince else t)
      else st.(queued := false, misses := st.misses + 1, up := st.up && !GoesDown(cfg, st, t),
               attempts := if st.everUp then st.attempts else st.attempts + 1);
    st'.(next := t + if Fast(cfg, st') then cfg.probe else cfg.probeDead)
  }

  /** The transition it reports. */
  function Transition(cfg: Config, st: NodeState, t: int, ok: bool): Event {
    if ok && !st.up then Up
    else if !ok && GoesDown(cfg, st, t) then Down(st.misses + 1, st.pongs, t - st.upSince)
    else Silent
  }

  /** One registry entry, updated in place under the registry's lock. */
  class Entry {
    var seqNo: nat
    var addressed: bool
    var up: bool
    var everUp: bool
    var attempts: nat
    var misses: nat
    var lastPong: int
    var upSince: int
    var pongs: nat
    var next: int
    var queued: bool

    function State(): NodeState
      reads this
    {
      NodeState(seqNo, addressed, up, everUp, attempts, misses, lastPong, upSince, pongs, next, queued)
    }

    constructor (seqNo: nat, addressed: bool)
      ensures State() == Observed(seqNo, addressed)
    {
      this.seqNo, this.addressed := seqNo, addressed;
      up, everUp, queued := false, false, false;
      attempts, misses, pongs := 0, 0, 0;
      lastPong, upSince, next := 0, 0, 0;
    }

    /** The rest of ping once the answer, or its absence, is known. */
    method Finish(cfg: Config, t: int, ok: bool) returns (ev: Event)
      modifies this
      ensures State() == Finished(cfg, old(State()), t, ok)
      ensures ev == Transition(cfg, old(State()), t, ok)
    {
      queued := false;
      if ok {
        ev := Answer(t);
      } else {
        ev := Miss(cfg, t);
      }
      if everUp || attempts < cfg.newTries {
        next := t + cfg.probe;
      } else {
        next := t + cfg.probeDead;
      }
    }

    method Answer(t: int) returns (ev: Event)
      modifies this`lastPong, this`misses, this`pongs, this`up, this`everUp, this`upSince
      ensures lastPong == t && misses == 0 && up && everUp == (old(everUp) || !old(up))
      ensures pongs == (if old(up) then old(pongs) + 1 else 1) && upSince == if old(up) then old(upSince) else t
      ensures ev == if old(up) then Silent else Up
    {
      lastPong, misses, ev := t, 0, Silent;
      pongs := pongs + 1;
      if !up {
        up, everUp := true, true;
        upSince, pongs := t, 1;
        ev := Up;
      }
    }

    method Miss(cfg: Config, t: int) returns (ev: Event)
      modifies this`misses, this`attempts, this`up
      ensures misses == old(misses) + 1 && attempts == if everUp then old(attempts) else old(attempts) + 1
      ensures up == (old(up) && !GoesDown(cfg, old(State()), t))
      ensures ev == if GoesDown(cfg, old(State()), t) then Down(misses, pongs, t - upSince) else Silent
    {
      misses, ev := misses + 1, Silent;
      if !everUp {
        attempts := attempts + 1;
      }
      if up && misses >= cfg.misses && t - lastPong >= 2 * cfg.probe {
        up := false;
        ev := Down(misses, pongs, t - upSince);
      }
    }
  }

  // ------------------------------------------------------------- one node's history

  /** A reported transition, by the position in the node's pings of the one that caused it. */
  datatype Record = Record(at: nat, ev: Event)

  /** Unanswered pings since the last answer. */
  function Trailing(h: seq<Ping>): (n: nat)
    ensures n <= |h|
  {
    if h == [] || h[|h| - 1].ok then 0 else 1 + Trailing(h[..|h| - 1])
  }

  function Answers(h: seq<Ping>): nat {
    if h == [] then 0 else Answers(h[..|h| - 1]) + if h[|h| - 1].ok then 1 else 0
  }

  /** Whether the node answered at all, and where it last did. */
  predicate Answered(h: seq<Ping>) {
    Trailing(h) < |h|
  }

  function LastAnswer(h: seq<Ping>): nat
    requires Answered(h)
  {
    |h| - 1 - Trailing(h)
  }

  /** The node has been silent for long enough: by pings and by time. */
  predicate Quiet(cfg: Config, h: seq<Ping>)
    requires Answered(h)
  {
    && Trailing(h) > 0 && Trailing(h) >= cfg.misses
    && h[|h| - 1].t - h[LastAnswer(h)].t >= 2 * cfg.probe
  }

  /** The run-time notion of a live node, as a function of its pings alone. */
  predicate Live(cfg: Config, h: seq<Ping>) {
    Answered(h) && !Quiet(cfg, h)
  }

  lemma {:induction false} LastAnswerIs(h: seq<Ping>)
    ensures forall i :: |h| - Trailing(h) <= i < |h| ==> !h[i].ok
    ensures Answered(h) ==> h[LastAnswer(h)].ok
  {
    if h != [] && !h[|h| - 1].ok {
      LastAnswerIs(h[..|h| - 1]);
    }
  }

  /** What the entry's fields say of the history, at time `now`. */
  ghost predicate Tells(cfg: Config, st: NodeState, h: seq<Ping>, now: int) {
    && st.misses == Trailing(h)
    && st.everUp == Answered(h)
    && st.up == Live(cfg, h)
    && (st.everUp ==> st.lastPong == h[LastAnswer(h)].t)
    && (!st.everUp ==> st.attempts == |h|)
    && (h != [] ==> h[|h| - 1].t <= now && st.next == h[|h| - 1].t + if Fast(cfg, st) then cfg.probe else cfg.probeDead)
    && (h == [] ==> st.next == 0)
    && (st.queued ==> st.next <= now)
    && (st.everUp ==> h[|h| - 1].t - h[LastAnswer(h)].t >= Trailing(h) * cfg.probe)
  }

  /** Transitions alternate, starting with an up and ending with one exactly when the node is up. */
  ghost predicate Alternate(evs: seq<Record>, up: bool) {
    && (forall k :: 0 <= k < |evs| ==> (if k % 2 == 0 then evs[k].ev.Up? else evs[k].ev.Down?))
    && (up <==> |evs| % 2 == 1)
    && (forall k :: 0 <= k < |evs| - 1 ==> evs[k].at < evs[k + 1].at)
  }

  /** A down is owed to its last `misses` pings, all unanswered, after an answer at least two
      probe periods, and `misses` of them, before; the session it ends began with the up before. */
  ghost predicate Justified(cfg: Config, h: seq<Ping>, since: nat, r: Record)
    requires r.ev.Down?
  {
    && since + r.ev.misses <= r.at < |h| && r.ev.misses >= 1 && r.ev.misses >= cfg.misses
    && h[r.at - r.ev.misses].ok && (forall i :: r.at - r.ev.misses < i <= r.at ==> !h[i].ok)
    && h[r.at].t - h[r.at - r.ev.misses].t >= 2 * cfg.probe
    && h[r.at].t - h[r.at - r.ev.misses].t >= r.ev.misses * cfg.probe
    && r.ev.pongs == Answers(h[since..r.at + 1]) && r.ev.sinceUp == h[r.at].t - h[since].t
  }

  ghost predicate Recorded(cfg: Config, h: seq<Ping>, evs: seq<Record>) {
    && (forall k :: 0 <= k < |evs| ==> evs[k].at < |h|)
    && (forall k :: 0 <= k < |evs| && evs[k].ev.Up? ==> h[evs[k].at].ok)
    && (forall k :: 0 < k < |evs| && evs[k].ev.Down? ==> Justified(cfg, h, evs[k - 1].at, evs[k]))
  }

  /** The current session's fields. */
  ghost predicate InSession(st: NodeState, h: seq<Ping>, evs: seq<Record>) {
    st.up ==> (evs != [] && evs[|evs| - 1].at + st.misses < |h| && SessionSince(st, h, evs[|evs| - 1].at))
  }

  ghost predicate SessionSince(st: NodeState, h: seq<Ping>, since: nat)
    requires since < |h|
  {
    st.upSince == h[since].t && st.pongs == Answers(h[since..])
  }

  ghost predicate NodeInv(cfg: Config, st: NodeState, h: seq<Ping>, evs: seq<Record>, now: int) {
    Tells(cfg, st, h, now) && Alternate(evs, st.up) && Recorded(cfg, h, evs) && InSession(st, h, evs)
  }

  function Append(evs: seq<Record>, at: nat, ev: Event): seq<Record> {
    if ev.Silent? then evs else evs + [Record(at, ev)]
  }

  lemma TrailingAppend(h: seq<Ping>, p: Ping)
    ensures Trailing(h + [p]) == if p.ok then 0 else 1 + Trailing(h)
    ensures Answered(h + [p]) == (p.ok || Answered(h))
    ensures Answered(h + [p]) ==> LastAnswer(h + [p]) == if p.ok then |h| else LastAnswer(h)
    ensures Answers(h + [p]) == Answers(h) + if p.ok then 1 else 0
  {
    assert (h + [p])[..|h|] == h;
  }

  lemma More(m: nat, probe: nat)
    ensures (m + 1) * probe == m * probe + probe
  {
  }

  lemma TellsStep(cfg: Config, st: NodeState, h: seq<Ping>, now: int, ok: bool)
    requires Tells(cfg, st, h, now) && st.queued
    ensures Tells(cfg, Finished(cfg, st, now, ok), h + [Ping(now, ok)], now)
  {
    hide Trailing;
    var h' := h + [Ping(now, ok)];
    TrailingAppend(h, Ping(now, ok));
    More(Trailing(h), cfg.probe);
    if st.everUp {
      assert h'[LastAnswer(h)] == h[LastAnswer(h)];
    }
  }

  lemma JustifiedStays(cfg: Config, h: seq<Ping>, p: Ping, since: nat, r: Record)
    requires r.ev.Down? && Justified(cfg, h, since, r)
    ensures Justified(cfg, h + [p], since, r)
  {
    assert (h + [p])[since..r.at + 1] == h[since..r.at + 1];
  }

  /** The down a miss reports is justified. */
  lemma DownIsJustified(cfg: Config, st: NodeState, h: seq<Ping>, now: int, since: nat)
    requires Tells(cfg, st, h, now) && st.queued && GoesDown(cfg, st, now)
    requires since + st.misses < |h| && SessionSince(st, h, since)
    ensures Justified(cfg, h + [Ping(now, false)], since, Record(|h|, Transition(cfg, st, now, false)))
  {
    hide Trailing;
    var p := Ping(now, false);
    var h' := h + [p];
    LastAnswerIs(h);
    More(Trailing(h), cfg.probe);
    assert h'[since..|h| + 1] == h[since..] + [p];
    TrailingAppend(h[since..], p);
    assert |h| - (st.misses + 1) == LastAnswer(h);
    assert h'[LastAnswer(h)] == h[LastAnswer(h)];
  }

  lemma RecordedStep(cfg: Config, st: NodeState, h: seq<Ping>, evs: seq<Record>, now: int, ok: bool)
    requires NodeInv(cfg, st, h, evs, now) && st.queued
    ensures Recorded(cfg, h + [Ping(now, ok)], Append(evs, |h|, Transition(cfg, st, now, ok)))
  {
    hide Tells, Justified, SessionSince;
    var p := Ping(now, ok);
    var ev := Transition(cfg, st, now, ok);
    var evs' := Append(evs, |h|, ev);
    forall k | 0 < k < |evs'| && evs'[k].ev.Down? ensures Justified(cfg, h + [p], evs'[k - 1].at, evs'[k]) {
      if k < |evs| {
        JustifiedStays(cfg, h, p, evs[k - 1].at, evs[k]);
      } else {
        DownIsJustified(cfg, st, h, now, evs[k - 1].at);
      }
    }
  }

  lemma AlternateStep(cfg: Config, st: NodeState, h: seq<Ping>, evs: seq<Record>, now: int, ok: bool)
    requires Alternate(evs, st.up) && forall k :: 0 <= k < |evs| ==> evs[k].at < |h|
    ensures Alternate(Append(evs, |h|, Transition(cfg, st, now, ok)), Finished(cfg, st, now, ok).up)
  {
  }

  lemma SessionStep(cfg: Config, st: NodeState, h: seq<Ping>, evs: seq<Record>, now: int, ok: bool)
    requires NodeInv(cfg, st, h, evs, now)
    ensures InSession(Finished(cfg, st, now, ok), h + [Ping(now, ok)], Append(evs, |h|, Transition(cfg, st, now, ok)))
  {
    hide Tells, Recorded, Alternate;
    var p := Ping(now, ok);
    var h' := h + [p];
    if st.up {
      var since := evs[|evs| - 1].at;
      assert h'[since..] == h[since..] + [p];
      TrailingAppend(h[since..], p);
    } else {
      assert h'[|h|..] == [p] && [p][..0] == [];
      assert Answers([p]) == if ok then 1 else 0;
    }
  }

  lemma FinishKeeps(cfg: Config, st: NodeState, h: seq<Ping>, evs: seq<Record>, now: int, ok: bool)
    requires NodeInv(cfg, st, h, evs, now) && st.queued
    ensures NodeInv(cfg, Finished(cfg, st, now, ok), h + [Ping(now, ok)],
                    Append(evs, |h|, Transition(cfg, st, now, ok)), now)
  {
    hide Tells, Recorded, Alternate, InSession, Finished, Transition, Append;
    TellsStep(cfg, st, h, now, ok);
    RecordedStep(cfg, st, h, evs, now, ok);
    AlternateStepIn(cfg, st, h, evs, now, ok);
    SessionStep(cfg, st, h, evs, now, ok);
  }

  lemma AlternateStepIn(cfg: Config, st: NodeState, h: seq<Ping>, evs: seq<Record>, now: int, ok: bool)
    requires Alternate(evs, st.up) && Recorded(cfg, h, evs)
    ensures Alternate(Append(evs, |h|, Transition(cfg, st, now, ok)), Finished(cfg, st, now, ok).up)
  {
    hide Alternate;
    AlternateStep(cfg, st, h, evs, now, ok);
  }

  // ------------------------------------------------------------------ the whole prober

  datatype Stage = Due | Queued | Flying

  /** A node handed out by the dispatch loop: still to be offered, in a pool's channel, or pinged. */
  datatype Task = Task(id: nat, fast: bool, stage: Stage)

  datatype World = World(nodes: map<nat, NodeState>, hist: map<nat, seq<Ping>>, evs: map<nat, seq<Record>>,
                         tasks: seq<Task>, now: int)

  const START := World(map[], map[], map[], [], 0)

  datatype Act =
    | Clock(t: int)
    | Observe(id: nat, seqNo: nat, addressed: bool)
    | Tick(due: seq<nat>)
    | Offer(i: nat)
    | Refuse(i: nat)
    | Take(i: nat)
    | Finish(i: nat, ok: bool)

  predicate IsDue(st: NodeState, now: int) {
    !st.queued && st.addressed && st.next <= now
  }

  /** `due` lists the due nodes, in some order. */
  ghost predicate Lists(w: World, due: seq<nat>) {
    && (forall x, y :: 0 <= x < y < |due| ==> due[x] != due[y])
    && (forall id :: id in due <==> id in w.nodes && IsDue(w.nodes[id], w.now))
  }

  function Handed(cfg: Config, w: World, due: seq<nat>): (r: seq<Task>)
    requires forall x :: 0 <= x < |due| ==> due[x] in w.nodes
    ensures |r| == |due| && forall x :: 0 <= x < |due| ==> r[x] == Task(due[x], Fast(cfg, w.nodes[due[x]]), Due)
  {
    seq(|due|, x requires 0 <= x < |due| => Task(due[x], Fast(cfg, w.nodes[due[x]]), Due))
  }

  predicate Known(w: World, id: nat) {
    id in w.nodes && id in w.hist && id in w.evs
  }

  ghost predicate Enabled(w: World, a: Act) {
    match a
    case Clock(t) => w.now <= t
    case Observe(id, seqNo, addressed) => true
    case Tick(due) => Lists(w, due) && forall i :: 0 <= i < |w.tasks| ==> !w.tasks[i].stage.Due?
    case Offer(i) => i < |w.tasks| && w.tasks[i].stage.Due?
    case Refuse(i) => i < |w.tasks| && w.tasks[i].stage.Due? && !w.tasks[i].fast
    case Take(i) => i < |w.tasks| && w.tasks[i].stage.Queued?
    case Finish(i, ok) => i < |w.tasks| && w.tasks[i].stage.Flying? && Known(w, w.tasks[i].id)
  }

  function Without(ts: seq<Task>, i: nat): seq<Task>
    requires i < |ts|
  {
    ts[..i] + ts[i + 1..]
  }

  ghost function After(cfg: Config, w: World, a: Act): World
    requires Enabled(w, a)
  {
    match a
    case Clock(t) => w.(now := t)
    case Observe(id, seqNo, addressed) =>
      if id !in w.nodes then
        w.(nodes := w.nodes[id := Observed(seqNo, addressed)], hist := w.hist[id := []], evs := w.evs[id := []])
      else if seqNo > w.nodes[id].seqNo then
        w.(nodes := w.nodes[id := w.nodes[id].(seqNo := seqNo, addressed := addressed)])
      else w
    case Tick(due) =>
      w.(nodes := map id | id in w.nodes :: if id in due then w.nodes[id].(queued := true) else w.nodes[id],
         tasks := w.tasks + Handed(cfg, w, due))
    case Offer(i) => w.(tasks := w.tasks[i := w.tasks[i].(stage := Queued)])
    case Refuse(i) =>
      var id := w.tasks[i].id;
      w.(nodes := map x | x in w.nodes :: if x == id then w.nodes[x].(queued := false) else w.nodes[x],
         tasks := Without(w.tasks, i))
    case Take(i) => w.(tasks := w.tasks[i := w.tasks[i].(stage := Flying)])
    case Finish(i, ok) =>
      var id := w.tasks[i].id;
      var st, h := w.nodes[id], w.hist[id];
      w.(nodes := w.nodes[id := Finished(cfg, st, w.now, ok)], hist := w.hist[id := h + [Ping(w.now, ok)]],
         evs := w.evs[id := Append(w.evs[id], |h|, Transition(cfg, st, w.now, ok))], tasks := Without(w.tasks, i))
  }

  /** Each node is handed out at most once, and exactly while it is marked. */
  ghost predicate OnePing(w: World) {
    && (forall i, j :: 0 <= i < j < |w.tasks| ==> w.tasks[i].id != w.tasks[j].id)
    && (forall i :: 0 <= i < |w.tasks| ==> w.tasks[i].id in w.nodes && w.nodes[w.tasks[i].id].queued)
    && (forall id :: id in w.nodes && w.nodes[id].queued ==> exists i :: 0 <= i < |w.tasks| && w.tasks[i].id == id)
  }

  /** The pool a node was handed to is still the right one when its ping ends. */
  ghost predicate PoolStands(cfg: Config, w: World) {
    forall i :: 0 <= i < |w.tasks| && w.tasks[i].id in w.nodes ==> w.tasks[i].fast == Fast(cfg, w.nodes[w.tasks[i].id])
  }

  ghost predicate NodesInv(cfg: Config, w: World) {
    && w.hist.Keys == w.nodes.Keys == w.evs.Keys
    && (forall id :: id in w.nodes ==> NodeInv(cfg, w.nodes[id], w.hist[id], w.evs[id], w.now))
  }

  ghost predicate Inv(cfg: Config, w: World) {
    w.now >= 0 && OnePing(w) && PoolStands(cfg, w) && NodesInv(cfg, w)
  }

  lemma StartInv(cfg: Config)
    ensures Inv(cfg, START)
  {
  }

  /** Marking, unmarking, renewing a record and the passing of time touch no history. */
  lemma NodeStays(cfg: Config, st: NodeState, st': NodeState, h: seq<Ping>, evs: seq<Record>, now: int, now': int)
    requires NodeInv(cfg, st, h, evs, now) && now <= now'
    requires st' == st.(queued := st'.queued, seqNo := st'.seqNo, addressed := st'.addressed)
    requires st'.queued ==> st.queued || st.next <= now
    ensures NodeInv(cfg, st', h, evs, now')
  {
    hide Trailing, Recorded, Alternate;
  }

  lemma FreshNode(cfg: Config, seqNo: nat, addressed: bool, now: int)
    ensures NodeInv(cfg, Observed(seqNo, addressed), [], [], now)
  {
  }

  lemma NodesStep(cfg: Config, w: World, a: Act)
    requires Inv(cfg, w) && Enabled(w, a)
    ensures NodesInv(cfg, After(cfg, w, a))
  {
    hide NodeInv, Finished, Transition;
    var w' := After(cfg, w, a);
    match a {
      case Observe(id, seqNo, addressed) => NodesObserve(cfg, w, id, seqNo, addressed);
      case Finish(i, ok) => NodesFinish(cfg, w, i, ok);
      case _ =>
        forall id | id in w.nodes ensures NodeInv(cfg, w'.nodes[id], w'.hist[id], w'.evs[id], w'.now) {
          NodeStays(cfg, w.nodes[id], w'.nodes[id], w.hist[id], w.evs[id], w.now, w'.now);
        }
    }
  }

  lemma NodesObserve(cfg: Config, w: World, id: nat, seqNo: nat, addressed: bool)
    requires NodesInv(cfg, w)
    ensures NodesInv(cfg, After(cfg, w, Observe(id, seqNo, addressed)))
  {
    hide NodeInv, Observed;
    FreshNode(cfg, seqNo, addressed, w.now);
    if id in w.nodes {
      var st := w.nodes[id];
      NodeStays(cfg, st, st.(seqNo := seqNo, addressed := addressed), w.hist[id], w.evs[id], w.now, w.now);
    }
  }

  lemma NodesFinish(cfg: Config, w: World, i: nat, ok: bool)
    requires OnePing(w) && NodesInv(cfg, w) && Enabled(w, Finish(i, ok))
    ensures NodesInv(cfg, After(cfg, w, Finish(i, ok)))
  {
    hide NodeInv, Finished, Transition, Without;
    var id := w.tasks[i].id;
    FinishKeeps(cfg, w.nodes[id], w.hist[id], w.evs[id], w.now, ok);
  }

  /** Where the x-th task comes to be when the i-th is gone, and where it was. */
  function Place(x: nat, i: nat): nat
    requires x != i
  {
    if x < i then x else x - 1
  }

  function Origin(x: nat, i: nat): nat { if x < i then x else x + 1 }

  lemma WithoutAt(ts: seq<Task>, i: nat)
    requires i < |ts|
    ensures |Without(ts, i)| == |ts| - 1
    ensures forall x: nat :: x < |ts| - 1 ==> Without(ts, i)[x] == ts[Origin(x, i)]
  {
  }

  /** The tasks left when the i-th is gone. */
  lemma Remaining(ts: seq<Task>, i: nat)
    requires i < |ts| && forall x, y :: 0 <= x < y < |ts| ==> ts[x].id != ts[y].id
    ensures var rest := Without(ts, i);
            && (forall x, y :: 0 <= x < y < |rest| ==> rest[x].id != rest[y].id)
            && (forall x :: 0 <= x < |rest| ==> rest[x].id != ts[i].id && rest[x] in ts)
            && (forall x :: 0 <= x < |ts| && x != i ==> exists y :: 0 <= y < |rest| && rest[y].id == ts[x].id)
  {
    WithoutAt(ts, i);
    hide Without;
    var rest := Without(ts, i);
    forall x: nat | x < |rest| ensures rest[x].id != ts[i].id && rest[x] in ts {
      assert rest[x] == ts[Origin(x, i)];
    }
    forall x: nat, y: nat | x < y < |rest| ensures rest[x].id != rest[y].id {
      assert rest[x] == ts[Origin(x, i)] && rest[y] == ts[Origin(y, i)];
    }
    forall x: nat | x < |ts| && x != i ensures exists y :: 0 <= y < |rest| && rest[y].id == ts[x].id {
      assert rest[Place(x, i)] == ts[Origin(Place(x, i), i)];
    }
  }

  lemma OnePingRemove(w: World, i: nat, st: NodeState, nodes: map<nat, NodeState>)
    requires OnePing(w) && i < |w.tasks| && !st.queued
    requires nodes == w.nodes[w.tasks[i].id := st]
    ensures OnePing(w.(nodes := nodes, tasks := Without(w.tasks, i)))
  {
    hide Without;
    Remaining(w.tasks, i);
    var ts := Without(w.tasks, i);
    forall x | 0 <= x < |ts| ensures ts[x].id in nodes && nodes[ts[x].id].queued {
      var y :| 0 <= y < |w.tasks| && w.tasks[y] == ts[x];
    }
    forall id | id in nodes && nodes[id].queued ensures exists y :: 0 <= y < |ts| && ts[y].id == id {
      assert id in w.nodes && w.nodes[id].queued && id != w.tasks[i].id;
      var x :| 0 <= x < |w.tasks| && w.tasks[x].id == id;
    }
  }

  lemma OnePingTick(cfg: Config, w: World, due: seq<nat>)
    requires OnePing(w) && Enabled(w, Tick(due))
    ensures OnePing(After(cfg, w, Tick(due)))
  {
    var w' := After(cfg, w, Tick(due));
    forall x | 0 <= x < |due| ensures due[x] in w.nodes && !w.nodes[due[x]].queued {
      assert due[x] in due;
    }
    forall i | 0 <= i < |w'.tasks| ensures w'.tasks[i].id in w'.nodes && w'.nodes[w'.tasks[i].id].queued {
      if i >= |w.tasks| {
        assert due[i - |w.tasks|] in due;
      }
    }
    forall id | id in w'.nodes && w'.nodes[id].queued ensures exists i :: 0 <= i < |w'.tasks| && w'.tasks[i].id == id {
      if id in due {
        var x :| 0 <= x < |due| && due[x] == id;
        assert w'.tasks[|w.tasks| + x].id == id;
      } else {
        var i :| 0 <= i < |w.tasks| && w.tasks[i].id == id;
        assert w'.tasks[i].id == id;
      }
    }
  }

  lemma OnePingStep(cfg: Config, w: World, a: Act)
    requires Inv(cfg, w) && Enabled(w, a)
    ensures OnePing(After(cfg, w, a))
  {
    hide NodesInv, Finished, PoolStands, OnePing;
    match a {
      case Tick(due) => OnePingTick(cfg, w, due);
      case Refuse(i) => OnePingRefuse(cfg, w, i);
      case Finish(i, ok) =>
        Unmarks(cfg, w.nodes[w.tasks[i].id], w.now, ok);
        var w' := After(cfg, w, a);
        OnePingRemove(w, i, Finished(cfg, w.nodes[w.tasks[i].id], w.now, ok), w'.nodes);
        SameTasks(w.(nodes := w'.nodes, tasks := w'.tasks), w');
      case Observe(id, _, _) => SameTasks(w, After(cfg, w, a));
      case Clock(_) => SameTasks(w, After(cfg, w, a));
      case _ => MovesTask(w, After(cfg, w, a), a.i);
    }
  }

  lemma OnePingRefuse(cfg: Config, w: World, i: nat)
    requires OnePing(w) && Enabled(w, Refuse(i))
    ensures OnePing(After(cfg, w, Refuse(i)))
  {
    var w' := After(cfg, w, Refuse(i));
    var id := w.tasks[i].id;
    assert id in w.nodes;
    var nodes := w.nodes[id := w.nodes[id].(queued := false)];
    hide OnePing;
    OnePingRemove(w, i, w.nodes[id].(queued := false), nodes);
    assert w'.nodes == nodes;
  }

  lemma Unmarks(cfg: Config, st: NodeState, t: int, ok: bool)
    ensures !Finished(cfg, st, t, ok).queued
  {
  }

  lemma SameTasks(w: World, w': World)
    requires OnePing(w) && w'.tasks == w.tasks && w.nodes.Keys <= w'.nodes.Keys
    requires forall id :: id in w'.nodes ==> w'.nodes[id].queued == (id in w.nodes && w.nodes[id].queued)
    ensures OnePing(w')
  {
  }

  lemma MovesTask(w: World, w': World, i: nat)
    requires OnePing(w) && i < |w.tasks| && |w'.tasks| == |w.tasks| && w'.nodes == w.nodes
    requires forall j :: 0 <= j < |w.tasks| ==> w'.tasks[j].id == w.tasks[j].id
    ensures OnePing(w')
  {
    forall id | id in w.nodes && w.nodes[id].queued ensures exists j :: 0 <= j < |w'.tasks| && w'.tasks[j].id == id {
      var j :| 0 <= j < |w.tasks| && w.tasks[j].id == id;
      assert w'.tasks[j].id == id;
    }
  }

  lemma PoolStep(cfg: Config, w: World, a: Act)
    requires Inv(cfg, w) && Enabled(w, a)
    ensures PoolStands(cfg, After(cfg, w, a))
  {
    hide NodesInv, Finished, Transition;
    if a.Tick? {
      forall x | 0 <= x < |a.due| ensures a.due[x] in w.nodes { assert a.due[x] in a.due; }
    } else if a.Finish? || a.Refuse? {
      PoolRemove(cfg, w, a.i, After(cfg, w, a));
    }
  }

  lemma PoolRemove(cfg: Config, w: World, i: nat, w': World)
    requires OnePing(w) && PoolStands(cfg, w) && i < |w.tasks| && w'.tasks == Without(w.tasks, i)
    requires forall id :: id in w'.nodes && id != w.tasks[i].id ==> id in w.nodes && w'.nodes[id] == w.nodes[id]
    ensures PoolStands(cfg, w')
  {
    hide Without, Fast;
    Remaining(w.tasks, i);
    forall x | 0 <= x < |w'.tasks| && w'.tasks[x].id in w'.nodes
      ensures w'.tasks[x].fast == Fast(cfg, w'.nodes[w'.tasks[x].id])
    {
      var y :| 0 <= y < |w.tasks| && w.tasks[y] == w'.tasks[x];
    }
  }

  lemma StepInv(cfg: Config, w: World, a: Act)
    requires Inv(cfg, w) && Enabled(w, a)
    ensures Inv(cfg, After(cfg, w, a))
  {
    hide OnePing, PoolStands, NodesInv;
    NodesStep(cfg, w, a);
    OnePingStep(cfg, w, a);
    PoolStep(cfg, w, a);
  }

  /** A run of the prober from its start. */
  ghost predicate Run(cfg: Config, ws: seq<World>, acts: seq<Act>) {
    && |ws| == |acts| + 1 && ws[0] == START
    && (forall i :: 0 <= i < |acts| ==> Enabled(ws[i], acts[i]) && ws[i + 1] == After(cfg, ws[i], acts[i]))
  }

  lemma {:induction false} RunInv(cfg: Config, ws: seq<World>, acts: seq<Act>, i: nat)
    requires Run(cfg, ws, acts) && i < |ws|
    ensures Inv(cfg, ws[i])
  {
    hide Inv, Enabled, After;
    if i == 0 {
      StartInv(cfg);
    } else {
      RunInv(cfg, ws, acts, i - 1);
      StepInv(cfg, ws[i - 1], acts[i - 1]);
    }
  }

  /** In every reachable state: no node has two pings queued or in flight. */
  lemma AtMostOnePing(cfg: Config, ws: seq<World>, acts: seq<Act>, n: nat, i: nat, j: nat)
    requires Run(cfg, ws, acts) && n < |ws| && i < |ws[n].tasks| && j < |ws[n].tasks| && i != j
    ensures ws[n].tasks[i].id != ws[n].tasks[j].id
  {
    hide Run, NodesInv, PoolStands;
    RunInv(cfg, ws, acts, n);
  }

  /** In every reachable state a node's transitions alternate from an up, each down is justified by
      the pings before it, and the node is up exactly when it answered once and has not gone quiet. */
  lemma TransitionsTrustworthy(cfg: Config, ws: seq<World>, acts: seq<Act>, n: nat, id: nat)
    requires Run(cfg, ws, acts) && n < |ws| && id in ws[n].nodes
    ensures id in ws[n].evs && id in ws[n].hist
    ensures Alternate(ws[n].evs[id], ws[n].nodes[id].up)
    ensures forall k :: 0 < k < |ws[n].evs[id]| && k % 2 == 1 ==>
              ws[n].evs[id][k].ev.Down? && Justified(cfg, ws[n].hist[id], ws[n].evs[id][k - 1].at, ws[n].evs[id][k])
    ensures ws[n].nodes[id].up <==> Live(cfg, ws[n].hist[id])
  {
    hide Run, Justified, OnePing, PoolStands, Live, Trailing;
    RunInv(cfg, ws, acts, n);
    assert NodeInv(cfg, ws[n].nodes[id], ws[n].hist[id], ws[n].evs[id], ws[n].now);
  }

  /** When a node is to be pinged, by its pings: at once if it never was, else a probe period after the last one
      if it ever answered or is still new, and the longer period if it is taken for dead. */
  ghost predicate PingedNext(cfg: Config, h: seq<Ping>, next: int) {
    if h == [] then next == 0
    else if (exists i :: 0 <= i < |h| && h[i].ok) || |h| < cfg.newTries then next == h[|h| - 1].t + cfg.probe
    else next == h[|h| - 1].t + cfg.probeDead
  }

  lemma AnsweredOnce(h: seq<Ping>)
    ensures Answered(h) <==> exists i :: 0 <= i < |h| && h[i].ok
  {
    LastAnswerIs(h);
  }

  /** In every reachable state the dispatch is by the history alone: the loop hands out exactly the nodes with an
      address and no ping under way whose time has come, and refuses only nodes that never answered and are no
      longer new. */
  lemma DispatchByHistory(cfg: Config, w: World, id: nat)
    requires Reachable(cfg, w) && id in w.nodes
    ensures id in w.hist && PingedNext(cfg, w.hist[id], w.nodes[id].next)
    ensures forall due :: Enabled(w, Tick(due)) ==>
              (id in due <==> w.nodes[id].addressed && w.nodes[id].next <= w.now
                              && forall i :: 0 <= i < |w.tasks| ==> w.tasks[i].id != id)
    ensures forall i: nat :: Enabled(w, Refuse(i)) && w.tasks[i].id == id ==>
              |w.hist[id]| >= cfg.newTries && forall j :: 0 <= j < |w.hist[id]| ==> !w.hist[id][j].ok
  {
    hide Reachable, Recorded, Alternate, InSession, Trailing;
    ReachableInv(cfg, w);
    assert NodeInv(cfg, w.nodes[id], w.hist[id], w.evs[id], w.now);
    AnsweredOnce(w.hist[id]);
  }

  /** A node's record is the newest seen of it. */
  lemma KeepsNewest(cfg: Config, w: World, id: nat, seqNo: nat, addressed: bool)
    ensures var w' := After(cfg, w, Observe(id, seqNo, addressed));
            && id in w'.nodes
            && w'.nodes[id].seqNo == (if id in w.nodes && w.nodes[id].seqNo >= seqNo then w.nodes[id].seqNo else seqNo)
            && (w'.nodes[id].seqNo == seqNo && (id !in w.nodes || w.nodes[id].seqNo != seqNo) ==>
                  w'.nodes[id].addressed == addressed)
  {
  }

  /** A state of some run. */
  ghost predicate Reachable(cfg: Config, w: World) {
    exists ws: seq<World>, acts: seq<Act> :: Run(cfg, ws, acts) && ws[|ws| - 1] == w
  }

  lemma ReachableInv(cfg: Config, w: World)
    requires Reachable(cfg, w)
    ensures Inv(cfg, w)
  {
    hide Inv, Enabled, After;
    var ws: seq<World>, acts: seq<Act> :| Run(cfg, ws, acts) && ws[|ws| - 1] == w;
    RunInv(cfg, ws, acts, |ws| - 1);
  }

  lemma ReachableStart(cfg: Config)
    ensures Reachable(cfg, START)
  {
    assert Run(cfg, [START], []);
  }

  lemma ReachableStep(cfg: Config, w: World, a: Act)
    requires Reachable(cfg, w) && Enabled(w, a)
    ensures Reachable(cfg, After(cfg, w, a))
  {
    hide Enabled, After;
    var ws: seq<World>, acts: seq<Act> :| Run(cfg, ws, acts) && ws[|ws| - 1] == w;
    var ws', acts' := ws + [After(cfg, w, a)], acts + [a];
    assert Run(cfg, ws', acts');
  }

  /** The misses alone decide whether a node that ever answered is up. */
  ghost predicate DecidedByMisses(cfg: Config, w: World) {
    forall id :: id in w.nodes && w.nodes[id].everUp ==> (w.nodes[id].up <==> w.nodes[id].misses < cfg.misses)
  }

  /** The two probe periods follow from the pings' spacing when two misses are asked for, and from nothing
      when a probe period is no time and one is. */
  lemma MissesDecide(cfg: Config, w: World)
    requires Reachable(cfg, w) && (cfg.misses >= 2 || (cfg.misses == 1 && cfg.probe == 0))
    ensures DecidedByMisses(cfg, w)
  {
    hide Reachable, OnePing, PoolStands, Trailing, Recorded, Alternate, InSession;
    ReachableInv(cfg, w);
    forall id | id in w.nodes && w.nodes[id].everUp ensures w.nodes[id].up <==> w.nodes[id].misses < cfg.misses {
      var st, h := w.nodes[id], w.hist[id];
      assert NodeInv(cfg, st, h, w.evs[id], w.now);
      if st.misses >= cfg.misses {
        Scaled(Trailing(h), cfg.misses, cfg.probe);
      }
    }
  }

  lemma Scaled(m: nat, k: nat, probe: nat)
    requires m >= k && (k >= 2 || probe == 0)
    ensures m * probe >= 2 * probe
  {
    if k >= 2 { assert (m - 2) * probe >= 0; }
  }

  /** A prober that knows one node, with no ping under way. */
  function Alone(st: NodeState, h: seq<Ping>, evs: seq<Record>, now: int): World {
    World(map[0 := st], map[0 := h], map[0 := evs], [], now)
  }

  /** It can ping that node when it is due, and get either answer. */
  lemma PingAlone(cfg: Config, st: NodeState, h: seq<Ping>, evs: seq<Record>, now: int, ok: bool)
    requires Reachable(cfg, Alone(st, h, evs, now)) && IsDue(st, now)
    ensures var st' := Finished(cfg, st.(queued := true), now, ok);
            var ev := Transition(cfg, st.(queued := true), now, ok);
            Reachable(cfg, Alone(st', h + [Ping(now, ok)], Append(evs, |h|, ev), now))
  {
    hide Reachable, Finished, Transition;
    var w0 := Alone(st, h, evs, now);
    ReachableStep(cfg, w0, Tick([0]));
    var w1 := After(cfg, w0, Tick([0]));
    assert w1.nodes == map[0 := st.(queued := true)] && |w1.tasks| == 1 && w1.tasks[0].id == 0;
    ReachableStep(cfg, w1, Offer(0));
    var w2 := After(cfg, w1, Offer(0));
    ReachableStep(cfg, w2, Take(0));
    var w3 := After(cfg, w2, Take(0));
    ReachableStep(cfg, w3, Finish(0, ok));
    var w4 := After(cfg, w3, Finish(0, ok));
    var st' := Finished(cfg, st.(queued := true), now, ok);
    assert w4.tasks == [] && w4.nodes == map[0 := st'];
    assert w4 == Alone(st', h + [Ping(now, ok)], Append(evs, |h|, Transition(cfg, st.(queued := true), now, ok)), now);
  }

  /** One node seen, and its first ping answered. */
  lemma FirstAnswer(cfg: Config) returns (st: NodeState, h: seq<Ping>, evs: seq<Record>)
    ensures Reachable(cfg, Alone(st, h, evs, 0)) && st.addressed && !st.queued && st.everUp && st.up
    ensures st.misses == 0 && st.lastPong == 0 && st.next == cfg.probe
  {
    hide Reachable;
    ReachableStart(cfg);
    ReachableStep(cfg, START, Observe(0, 0, true));
    var st0 := Observed(0, true);
    assert After(cfg, START, Observe(0, 0, true)) == Alone(st0, [], [], 0);
    PingAlone(cfg, st0, [], [], 0, true);
    st := Finished(cfg, st0.(queued := true), 0, true);
    h, evs := [Ping(0, true)], Append([], 0, Transition(cfg, st0.(queued := true), 0, true));
    assert [] + [Ping(0, true)] == h;
  }

  /** Below that the time does decide: asked for one miss, a node that misses its next ping, one probe period
      after its answer, is up all the same; asked for none, one that just answered is up with none. */
  lemma TimeDecides(cfg: Config) returns (w: World)
    requires cfg.misses == 0 || (cfg.misses == 1 && cfg.probe > 0)
    ensures Reachable(cfg, w) && !DecidedByMisses(cfg, w)
  {
    hide Reachable;
    var st, h, evs := FirstAnswer(cfg);
    w := Alone(st, h, evs, 0);
    if cfg.misses == 1 {
      ReachableStep(cfg, w, Clock(cfg.probe));
      assert After(cfg, w, Clock(cfg.probe)) == Alone(st, h, evs, cfg.probe);
      PingAlone(cfg, st, h, evs, cfg.probe, false);
      var st' := Finished(cfg, st.(queued := true), cfg.probe, false);
      var ev := Transition(cfg, st.(queued := true), cfg.probe, false);
      w := Alone(st', h + [Ping(cfg.probe, false)], Append(evs, |h|, ev), cfg.probe);
      assert st'.everUp && st'.up && st'.misses == 1;
    }
    assert w.nodes[0].everUp;
  }

  /** The rule of two probe periods never decides anything exactly in these configurations. */
  lemma MissesDecideExactly(cfg: Config)
    ensures (forall w :: Reachable(cfg, w) ==> DecidedByMisses(cfg, w)) <==>
              cfg.misses >= 2 || (cfg.misses == 1 && cfg.probe == 0)
  {
    hide Reachable, DecidedByMisses;
    if cfg.misses >= 2 || (cfg.misses == 1 && cfg.probe == 0) {
      forall w | Reachable(cfg, w) ensures DecidedByMisses(cfg, w) { MissesDecide(cfg, w); }
    } else {
      var w := TimeDecides(cfg);
    }
  }
}
