/** The coordinator's churn loop of pkg/coordinator/drive.go and the plan of
    pkg/coordinator/collect.go, against the node automaton they drive. */
module Drive {
  import opened ChurnModel
  import NodeSessions
  import Collections

  datatype Op = Kill | Start

  /** A call to a node's control and the instant it is due, in nanoseconds. */
  datatype Call = Call(op: Op, at: int)

  /** Go's conversion of a float to an integer: toward zero. */
  function Trunc(x: real): int {
    if x >= 0.0 then x.Floor else -((-x).Floor)
  }

  /** churnTimes: an offset in seconds from node 0's search start. */
  function TimeOf(searchAt: int, seconds: real): int {
    searchAt + Trunc(seconds * 1_000_000_000.0)
  }

  /** The calls one node's goroutine issues, in order. */
  function Calls(ev: seq<Event>, searchAt: int, stopAt: int): seq<Call> {
    if ev == [] then []
    else
      var down, up := TimeOf(searchAt, ev[0].downAt), TimeOf(searchAt, ev[0].upAt);
      if down >= stopAt then []
      else
        var kill := if ev[0].downAt > 0.0 then [Call(Kill, down)] else [];
        if up >= stopAt then kill else kill + [Call(Start, up)] + Calls(ev[1..], searchAt, stopAt)
  }

  predicate Is(c: Call, op: Op) { c.op == op }

  function Count(calls: seq<Call>, op: Op): nat {
    Collections.Count(calls, (c: Call) => Is(c, op))
  }

  lemma CountAppend(a: seq<Call>, b: seq<Call>, op: Op)
    ensures Count(a + b, op) == Count(a, op) + Count(b, op)
  {
    Collections.CountAppend(a, b, (c: Call) => Is(c, op));
  }

  lemma CountOne(c: Call, op: Op)
    ensures Count([c], op) == if c.op == op then 1 else 0
  {
    Collections.CountSingle(c, (x: Call) => Is(x, op));
  }

  /** The calls of a kind that were answered so, the i-th by `answers(i)`. */
  function Answered(calls: seq<Call>, answers: nat -> bool, op: Op, ok: bool): nat {
    if calls == [] then 0 else
      var i := |calls| - 1;
      Answered(calls[..i], answers, op, ok) + if calls[i].op == op && answers(i) == ok then 1 else 0
  }

  lemma AnsweredAppend(calls: seq<Call>, c: Call, answers: nat -> bool)
    ensures forall op, ok :: Answered(calls + [c], answers, op, ok)
                             == Answered(calls, answers, op, ok) + if c.op == op && answers(|calls|) == ok then 1 else 0
  {
    assert (calls + [c])[..|calls|] == calls;
  }

  lemma NoneAnswered(answers: nat -> bool)
    ensures forall op, ok :: Answered([], answers, op, ok) == 0
  {
  }

  /** Every call of a kind was answered one way or the other. */
  lemma {:induction false} AnsweredEitherWay(calls: seq<Call>, answers: nat -> bool, op: Op)
    ensures Answered(calls, answers, op, true) + Answered(calls, answers, op, false) == Count(calls, op)
  {
    if calls == [] {
      CountNone();
    } else {
      var before := calls[..|calls| - 1];
      assert calls == before + [calls[|calls| - 1]];
      AnsweredEitherWay(before, answers, op);
      CountAppend(before, [calls[|calls| - 1]], op);
      CountOne(calls[|calls| - 1], op);
      hide Count;
    }
  }

  // ------------------------------------------------------------------ the methods

  /** churnLog's counters. */
  class ChurnLog {
    var departs: nat
    var rejoins: nat
    var killFailed: nat
    var startFailed: nat

    constructor ()
      ensures departs == 0 && rejoins == 0 && killFailed == 0 && startFailed == 0
    {
      departs, rejoins, killFailed, startFailed := 0, 0, 0, 0;
    }

    /** The log has gained what the answers to `calls` say. */
    twostate predicate Gained(calls: seq<Call>, answers: nat -> bool)
      reads this
    {
      && departs == old(departs) + Answered(calls, answers, Kill, true)
      && killFailed == old(killFailed) + Answered(calls, answers, Kill, false)
      && rejoins == old(rejoins) + Answered(calls, answers, Start, true)
      && startFailed == old(startFailed) + Answered(calls, answers, Start, false)
    }

    method Record(op: Op, ok: bool)
      modifies this
      ensures departs == old(departs) + (if op == Kill && ok then 1 else 0)
      ensures killFailed == old(killFailed) + (if op == Kill && !ok then 1 else 0)
      ensures rejoins == old(rejoins) + (if op == Start && ok then 1 else 0)
      ensures startFailed == old(startFailed) + (if op == Start && !ok then 1 else 0)
    {
      if op == Kill {
        if ok { departs := departs + 1; } else { killFailed := killFailed + 1; }
      } else {
        if ok { rejoins := rejoins + 1; } else { startFailed := startFailed + 1; }
      }
    }
  }

  /** One node's goroutine in drive; `answers(i)` is whether the i-th call succeeded. */
  method DriveNode(log: ChurnLog, ev: seq<Event>, searchAt: int, stopAt: int, answers: nat -> bool)
    returns (issued: seq<Call>)
    modifies log
    ensures issued == Calls(ev, searchAt, stopAt)
    ensures log.departs == old(log.departs) + Answered(issued, answers, Kill, true)
    ensures log.killFailed == old(log.killFailed) + Answered(issued, answers, Kill, false)
    ensures log.rejoins == old(log.rejoins) + Answered(issued, answers, Start, true)
    ensures log.startFailed == old(log.startFailed) + Answered(issued, answers, Start, false)
    ensures log.departs + log.killFailed == old(log.departs + log.killFailed) + Count(issued, Kill)
    ensures log.rejoins + log.startFailed == old(log.rejoins + log.startFailed) + Count(issued, Start)
  {
    hide TimeOf, Calls, Answered, Count;
    AnsweredEitherWay(Calls(ev, searchAt, stopAt), answers, Kill);
    AnsweredEitherWay(Calls(ev, searchAt, stopAt), answers, Start);
    issued := [];
    NoneAnswered(answers);
    assert ev[0..] == ev;
    CallsEnd(ev, searchAt, stopAt);
    var i := 0;
    while i < |ev|
      invariant 0 <= i <= |ev|
      invariant issued + Calls(ev[i..], searchAt, stopAt) == Calls(ev, searchAt, stopAt)
      invariant log.Gained(issued, answers)
    {
      var down, up := TimeOf(searchAt, ev[i].downAt), TimeOf(searchAt, ev[i].upAt);
      CallsFrom(ev, i, searchAt, stopAt);
      ghost var before := issued;
      if down >= stopAt {
        return;
      }
      if ev[i].downAt > 0.0 {
        log.Record(Kill, answers(|issued|));
        AnsweredAppend(issued, Call(Kill, down), answers);
        issued := issued + [Call(Kill, down)];
      }
      if up >= stopAt {
        return;
      }
      log.Record(Start, answers(|issued|));
      AnsweredAppend(issued, Call(Start, up), answers);
      issued := issued + [Call(Start, up)];
      assert issued == before + (if ev[i].downAt > 0.0 then [Call(Kill, down)] else []) + [Call(Start, up)];
      i := i + 1;
    }
  }

  lemma CallsFrom(ev: seq<Event>, i: nat, searchAt: int, stopAt: int)
    requires i < |ev|
    ensures var down, up := TimeOf(searchAt, ev[i].downAt), TimeOf(searchAt, ev[i].upAt);
            var kill := if ev[i].downAt > 0.0 then [Call(Kill, down)] else [];
            Calls(ev[i..], searchAt, stopAt) == (
              if down >= stopAt then []
              else if up >= stopAt then kill
              else kill + [Call(Start, up)] + Calls(ev[i + 1..], searchAt, stopAt))
  {
    hide TimeOf;
    assert ev[i..][0] == ev[i] && ev[i..][1..] == ev[i + 1..];
  }

  lemma CallsEnd(ev: seq<Event>, searchAt: int, stopAt: int)
    ensures Calls(ev[|ev|..], searchAt, stopAt) == []
  {
  }

  lemma CountNone()
    ensures Count([], Kill) == 0 && Count([], Start) == 0
  {
  }

  function PlannedOf(churn: seq<seq<Event>>, searchAt: int, stopAt: int, op: Op): nat {
    if churn == [] then 0
    else Count(Calls(churn[0], searchAt, stopAt), op) + PlannedOf(churn[1..], searchAt, stopAt, op)
  }

  lemma {:induction false} PlannedAppend(churn: seq<seq<Event>>, ev: seq<Event>, searchAt: int, stopAt: int, op: Op)
    ensures PlannedOf(churn + [ev], searchAt, stopAt, op) ==
              PlannedOf(churn, searchAt, stopAt, op) + Count(Calls(ev, searchAt, stopAt), op)
  {
    hide Calls;
    if churn == [] {
      assert churn + [ev] == [ev] && [ev][1..] == [];
    } else {
      PlannedAppend(churn[1..], ev, searchAt, stopAt, op);
      assert (churn + [ev])[1..] == churn[1..] + [ev];
    }
  }

  /** planned: it counts, without issuing any, exactly the calls the goroutines will issue. */
  method Planned(churn: seq<seq<Event>>, searchAt: int, stopAt: int) returns (departs: nat, rejoins: nat)
    ensures departs == PlannedOf(churn, searchAt, stopAt, Kill)
    ensures rejoins == PlannedOf(churn, searchAt, stopAt, Start)
  {
    departs, rejoins := 0, 0;
    for a := 0 to |churn|
      invariant departs == PlannedOf(churn[..a], searchAt, stopAt, Kill)
      invariant rejoins == PlannedOf(churn[..a], searchAt, stopAt, Start)
    {
      var d, r := PlannedNode(churn[a], searchAt, stopAt);
      departs, rejoins := departs + d, rejoins + r;
      assert churn[..a + 1] == churn[..a] + [churn[a]];
      PlannedAppend(churn[..a], churn[a], searchAt, stopAt, Kill);
      PlannedAppend(churn[..a], churn[a], searchAt, stopAt, Start);
    }
    assert churn[..|churn|] == churn;
  }

  /** The inner loop of planned. */
  method PlannedNode(ev: seq<Event>, searchAt: int, stopAt: int) returns (departs: nat, rejoins: nat)
    ensures departs == Count(Calls(ev, searchAt, stopAt), Kill)
    ensures rejoins == Count(Calls(ev, searchAt, stopAt), Start)
  {
    hide TimeOf, Calls, Count;
    departs, rejoins := 0, 0;
    var i := 0;
    assert ev[0..] == ev;
    CallsEnd(ev, searchAt, stopAt);
    CountNone();
    while i < |ev|
      invariant 0 <= i <= |ev|
      invariant departs + Count(Calls(ev[i..], searchAt, stopAt), Kill) == Count(Calls(ev, searchAt, stopAt), Kill)
      invariant rejoins + Count(Calls(ev[i..], searchAt, stopAt), Start) == Count(Calls(ev, searchAt, stopAt), Start)
    {
      var down, up := TimeOf(searchAt, ev[i].downAt), TimeOf(searchAt, ev[i].upAt);
      CountFrom(ev, i, searchAt, stopAt, Kill);
      CountFrom(ev, i, searchAt, stopAt, Start);
      if down >= stopAt {
        break;
      }
      if ev[i].downAt > 0.0 {
        departs := departs + 1;
      }
      if up >= stopAt {
        break;
      }
      rejoins := rejoins + 1;
      i := i + 1;
    }
  }

  lemma CountFrom(ev: seq<Event>, i: nat, searchAt: int, stopAt: int, op: Op)
    requires i < |ev|
    ensures var down, up := TimeOf(searchAt, ev[i].downAt), TimeOf(searchAt, ev[i].upAt);
            var kills := if ev[i].downAt > 0.0 && op == Kill then 1 else 0;
            Count(Calls(ev[i..], searchAt, stopAt), op) == (
              if down >= stopAt then 0
              else if up >= stopAt then kills
              else kills + (if op == Start then 1 else 0) + Count(Calls(ev[i + 1..], searchAt, stopAt), op))
  {
    hide TimeOf, Calls, Count;
    CallsFrom(ev, i, searchAt, stopAt);
    var down, up := TimeOf(searchAt, ev[i].downAt), TimeOf(searchAt, ev[i].upAt);
    var kill := if ev[i].downAt > 0.0 then [Call(Kill, down)] else [];
    CountNone();
    CountOne(Call(Kill, down), op);
    CountOne(Call(Start, up), op);
    CountAppend(kill, [Call(Start, up)], op);
    CountAppend(kill + [Call(Start, up)], Calls(ev[i + 1..], searchAt, stopAt), op);
  }

  // ------------------------------------------------- the node at the other end

  /** The node process after a control call has been handled, by up's and down's rules. */
  function AfterCall(p: NodeSessions.Proc, c: Call): NodeSessions.Proc {
    if c.op == Start then NodeSessions.Apply(p, NodeSessions.Up(true, NodeSessions.NewSession(p.clock)))
    else
      var stopping := NodeSessions.Apply(p, NodeSessions.BeginDown);
      if NodeSessions.DownReply(p) != NodeSessions.Accepted then stopping
      else NodeSessions.Apply(stopping, NodeSessions.EndDown)
  }

  function ReplyTo(p: NodeSessions.Proc, c: Call): NodeSessions.Reply {
    if c.op == Start then NodeSessions.UpReply(p, true) else NodeSessions.DownReply(p)
  }

  /** The node's answers to calls taken in order. */
  function Replies(p: NodeSessions.Proc, calls: seq<Call>): seq<NodeSessions.Reply>
    decreases |calls|
  {
    if calls == [] then [] else [ReplyTo(p, calls[0])] + Replies(AfterCall(p, calls[0]), calls[1..])
  }

  /** A process that has not finished and is not in the middle of a call. */
  predicate Serving(p: NodeSessions.Proc, up: bool) {
    !p.done && p.ctl == NodeSessions.Free && p.rec.cur.Some? == up
  }

  lemma CallToggles(p: NodeSessions.Proc, c: Call)
    requires Serving(p, c.op == Kill)
    ensures ReplyTo(p, c) == NodeSessions.Accepted && Serving(AfterCall(p, c), c.op == Start)
  {
    hide NodeSessions.AddWire, NodeSessions.AddLoad;
  }

  /** How cmd/node/main.go starts: down exactly when the first event is an arrival. */
  predicate StartsUp(ev: seq<Event>) {
    !(|ev| > 0 && ev[0].downAt == 0.0)
  }

  ghost predicate AllAccepted(replies: seq<NodeSessions.Reply>) {
    forall i :: 0 <= i < |replies| ==> replies[i] == NodeSessions.Accepted
  }

  lemma {:induction false} DeparturesAccepted(p: NodeSessions.Proc, ev: seq<Event>, searchAt: int, stopAt: int)
    requires Serving(p, true) && forall i :: 0 <= i < |ev| ==> ev[i].downAt > 0.0
    ensures AllAccepted(Replies(p, Calls(ev, searchAt, stopAt)))
    decreases |ev|
  {
    hide TimeOf, AfterCall, ReplyTo, Serving;
    if ev != [] {
      var down, up := TimeOf(searchAt, ev[0].downAt), TimeOf(searchAt, ev[0].upAt);
      var kill, start := Call(Kill, down), Call(Start, up);
      var rest, calls := Calls(ev[1..], searchAt, stopAt), Calls(ev, searchAt, stopAt);
      CallToggles(p, kill);
      var p1 := AfterCall(p, kill);
      if down < stopAt {
        if up >= stopAt {
          assert calls == [kill] && calls[1..] == [];
        } else {
          CallToggles(p1, start);
          DeparturesAccepted(AfterCall(p1, start), ev[1..], searchAt, stopAt);
          assert calls == [kill] + [start] + rest;
          assert calls[1..] == [start] + rest && calls[1..][1..] == rest;
        }
      }
    }
  }

  /** No call of a schedule's ever meets "already up" or "already down". */
  lemma ScheduleAccepted(p: NodeSessions.Proc, ev: seq<Event>, window: real, crawl: real, searchAt: int, stopAt: int)
    requires Schedule(ev, window, crawl) && Serving(p, StartsUp(ev))
    ensures AllAccepted(Replies(p, Calls(ev, searchAt, stopAt)))
  {
    if StartsUp(ev) {
      DeparturesAccepted(p, ev, searchAt, stopAt);
    } else {
      hide TimeOf, AfterCall, ReplyTo, Serving;
      var up := TimeOf(searchAt, ev[0].upAt);
      var start := Call(Start, up);
      var calls, rest := Calls(ev, searchAt, stopAt), Calls(ev[1..], searchAt, stopAt);
      if calls != [] {
        CallToggles(p, start);
        DeparturesAccepted(AfterCall(p, start), ev[1..], searchAt, stopAt);
        assert calls == [] + [start] + rest && calls[1..] == rest;
      }
    }
  }

  /** The instant of an offset in whole nanoseconds, never more of them than the offset has. */
  lemma TimeOfMeans(searchAt: int, seconds: real)
    ensures seconds >= 0.0 ==>
              var d := TimeOf(searchAt, seconds) - searchAt; d as real <= seconds * 1_000_000_000.0 < d as real + 1.0
    ensures seconds <= 0.0 ==>
              var d := TimeOf(searchAt, seconds) - searchAt; d as real - 1.0 < seconds * 1_000_000_000.0 <= d as real
  {
  }

  /** Every departure that is no arrival and every return due before the stop, whatever comes before. */
  function Due(ev: seq<Event>, searchAt: int, stopAt: int): seq<Call> {
    if ev == [] then [] else
      var down, up := TimeOf(searchAt, ev[0].downAt), TimeOf(searchAt, ev[0].upAt);
      (if ev[0].downAt > 0.0 && down < stopAt then [Call(Kill, down)] else [])
      + (if up < stopAt then [Call(Start, up)] else []) + Due(ev[1..], searchAt, stopAt)
  }

  lemma {:induction false} NoneDue(ev: seq<Event>, searchAt: int, stopAt: int, from: real)
    requires forall i :: 0 <= i < |ev| ==> from <= ev[i].downAt <= ev[i].upAt
    requires TimeOf(searchAt, from) >= stopAt
    ensures Due(ev, searchAt, stopAt) == []
  {
    hide TimeOf;
    if ev != [] {
      TimeMonotone(searchAt, from, ev[0].downAt);
      TimeMonotone(searchAt, ev[0].downAt, ev[0].upAt);
      NoneDue(ev[1..], searchAt, stopAt, from);
    }
  }

  /** A node's loop issues all that is due before the stop: what it does not get to is due no earlier. */
  lemma {:induction false} CallsAreDue(ev: seq<Event>, searchAt: int, stopAt: int)
    requires forall i :: 0 <= i < |ev| ==> ev[i].downAt <= ev[i].upAt
    requires forall i, j :: 0 <= i < j < |ev| ==> ev[i].upAt <= ev[j].downAt
    ensures Calls(ev, searchAt, stopAt) == Due(ev, searchAt, stopAt)
  {
    hide TimeOf;
    if ev != [] {
      TimeMonotone(searchAt, ev[0].downAt, ev[0].upAt);
      CallsAreDue(ev[1..], searchAt, stopAt);
      if TimeOf(searchAt, ev[0].upAt) >= stopAt { NoneDue(ev[1..], searchAt, stopAt, ev[0].upAt); }
    }
  }

  lemma TruncMonotone(x: real, y: real)
    requires x <= y
    ensures Trunc(x) <= Trunc(y)
  {
  }

  lemma TimeMonotone(searchAt: int, x: real, y: real)
    requires x <= y
    ensures TimeOf(searchAt, x) <= TimeOf(searchAt, y)
  {
    TruncMonotone(x * 1_000_000_000.0, y * 1_000_000_000.0);
  }

  /** Every call falls before the stop, and a node's calls are due in the order issued. */
  lemma {:induction false} CallsInOrder(ev: seq<Event>, searchAt: int, stopAt: int, from: real)
    requires forall i :: 0 <= i < |ev| ==> from <= ev[i].downAt <= ev[i].upAt
    requires forall i, j :: 0 <= i < j < |ev| ==> ev[i].upAt <= ev[j].downAt
    ensures forall i :: 0 <= i < |Calls(ev, searchAt, stopAt)| ==>
              TimeOf(searchAt, from) <= Calls(ev, searchAt, stopAt)[i].at < stopAt
    ensures forall i, j :: 0 <= i < j < |Calls(ev, searchAt, stopAt)| ==>
              Calls(ev, searchAt, stopAt)[i].at <= Calls(ev, searchAt, stopAt)[j].at
  {
    hide TimeOf;
    if ev != [] {
      TimeMonotone(searchAt, from, ev[0].downAt);
      TimeMonotone(searchAt, ev[0].downAt, ev[0].upAt);
      CallsInOrder(ev[1..], searchAt, stopAt, ev[0].upAt);
      var calls, rest := Calls(ev, searchAt, stopAt), Calls(ev[1..], searchAt, stopAt);
      var down, up := TimeOf(searchAt, ev[0].downAt), TimeOf(searchAt, ev[0].upAt);
      if down < stopAt && up < stopAt {
        assert calls == (if ev[0].downAt > 0.0 then [Call(Kill, down)] else []) + [Call(Start, up)] + rest;
      }
    }
  }

  // ------------------------------------------------------- all nodes, interleaved

  /** One node's share of a sequence of (node, call). */
  function OfNode(issued: seq<(nat, Call)>, node: nat): seq<Call> {
    if issued == [] then []
    else (if issued[0].0 == node then [issued[0].1] else []) + OfNode(issued[1..], node)
  }

  function CountAll(issued: seq<(nat, Call)>, op: Op): nat {
    if issued == [] then 0 else (if issued[0].1.op == op then 1 else 0) + CountAll(issued[1..], op)
  }

  /** The calls of nodes below `n`, counted node by node. */
  function CountByNode(issued: seq<(nat, Call)>, n: nat, op: Op): nat {
    if n == 0 then 0 else CountByNode(issued, n - 1, op) + Count(OfNode(issued, n - 1), op)
  }

  lemma {:induction false} CountByNodeNone(n: nat, op: Op)
    ensures CountByNode([], n, op) == 0
  {
    if n > 0 { CountByNodeNone(n - 1, op); }
  }

  lemma {:induction false} CountByNodeStep(issued: seq<(nat, Call)>, n: nat, op: Op)
    requires issued != []
    ensures CountByNode(issued, n, op)
         == CountByNode(issued[1..], n, op) + if issued[0].0 < n && issued[0].1.op == op then 1 else 0
  {
    hide Count;
    if n > 0 {
      CountByNodeStep(issued, n - 1, op);
      CountAppend(if issued[0].0 == n - 1 then [issued[0].1] else [], OfNode(issued[1..], n - 1), op);
      CountOne(issued[0].1, op);
      CountNone();
    }
  }

  lemma {:induction false} CountEveryWay(issued: seq<(nat, Call)>, n: nat, op: Op)
    requires forall i :: 0 <= i < |issued| ==> issued[i].0 < n
    ensures CountAll(issued, op) == CountByNode(issued, n, op)
  {
    if issued == [] {
      CountByNodeNone(n, op);
    } else {
      CountEveryWay(issued[1..], n, op);
      CountByNodeStep(issued, n, op);
    }
  }

  lemma {:induction false} PlannedByNode(churn: seq<seq<Event>>, issued: seq<(nat, Call)>, searchAt: int, stopAt: int,
                                         op: Op, n: nat)
    requires n <= |churn|
    requires forall a: nat :: a < n ==> OfNode(issued, a) == Calls(churn[a], searchAt, stopAt)
    ensures CountByNode(issued, n, op) == PlannedOf(churn[..n], searchAt, stopAt, op)
  {
    hide Calls, OfNode;
    if n > 0 {
      PlannedByNode(churn, issued, searchAt, stopAt, op, n - 1);
      assert churn[..n] == churn[..n - 1] + [churn[n - 1]];
      PlannedAppend(churn[..n - 1], churn[n - 1], searchAt, stopAt, op);
    }
  }

  /** However the goroutines interleave, the calls issued, succeeded and failed together, are
      as many of each kind as planned counts. */
  lemma IssuedAsPlanned(churn: seq<seq<Event>>, issued: seq<(nat, Call)>, searchAt: int, stopAt: int, op: Op)
    requires forall i :: 0 <= i < |issued| ==> issued[i].0 < |churn|
    requires forall a: nat :: a < |churn| ==> OfNode(issued, a) == Calls(churn[a], searchAt, stopAt)
    ensures CountAll(issued, op) == PlannedOf(churn, searchAt, stopAt, op)
  {
    CountEveryWay(issued, |churn|, op);
    PlannedByNode(churn, issued, searchAt, stopAt, op, |churn|);
    assert churn[..|churn|] == churn;
  }

  // ---------------------------------------------------------- the loops over one log

  /** Where a node's loop is: about to look at event `k`, past its departure, or returned. */
  datatype Loop = AtEvent(k: nat) | AtReturn(k: nat) | Ended

  ghost predicate LoopOk(ev: seq<Event>, l: Loop) {
    match l
    case AtEvent(k) => k <= |ev|
    case AtReturn(k) => k < |ev|
    case Ended => true
  }

  /** The calls a loop has still to issue. */
  function Ahead(ev: seq<Event>, l: Loop, searchAt: int, stopAt: int): seq<Call>
    requires LoopOk(ev, l)
  {
    match l
    case AtEvent(k) => Calls(ev[k..], searchAt, stopAt)
    case AtReturn(k) =>
      var up := TimeOf(searchAt, ev[k].upAt);
      if up >= stopAt then [] else [Call(Start, up)] + Calls(ev[k + 1..], searchAt, stopAt)
    case Ended => []
  }

  function Left(ev: seq<Event>, l: Loop): nat
    requires LoopOk(ev, l)
  {
    match l
    case AtEvent(k) => 2 * (|ev| - k) + 1
    case AtReturn(k) => 2 * (|ev| - k)
    case Ended => 0
  }

  /** What one turn of a loop issues, and where it leaves the loop. */
  function Turn(ev: seq<Event>, l: Loop, searchAt: int, stopAt: int): (r: (seq<Call>, Loop))
    requires LoopOk(ev, l) && !l.Ended?
    ensures LoopOk(ev, r.1) && |r.0| <= 1
  {
    if l.AtEvent? then
      if l.k == |ev| || TimeOf(searchAt, ev[l.k].downAt) >= stopAt then ([], Ended)
      else if ev[l.k].downAt > 0.0 then ([Call(Kill, TimeOf(searchAt, ev[l.k].downAt))], AtReturn(l.k))
      else ([], AtReturn(l.k))
    else
      if TimeOf(searchAt, ev[l.k].upAt) >= stopAt then ([], Ended)
      else ([Call(Start, TimeOf(searchAt, ev[l.k].upAt))], AtEvent(l.k + 1))
  }

  /** A turn issues the first of the calls ahead and leaves the rest. */
  lemma TurnIssues(ev: seq<Event>, l: Loop, searchAt: int, stopAt: int)
    requires LoopOk(ev, l) && !l.Ended?
    ensures var r := Turn(ev, l, searchAt, stopAt);
            Ahead(ev, l, searchAt, stopAt) == r.0 + Ahead(ev, r.1, searchAt, stopAt) && Left(ev, r.1) < Left(ev, l)
  {
    hide TimeOf, Calls;
    CallsEnd(ev, searchAt, stopAt);
    if l.k < |ev| { CallsFrom(ev, l.k, searchAt, stopAt); }
  }

  function LeftAll(churn: seq<seq<Event>>, loops: seq<Loop>): nat
    requires |loops| == |churn| && forall a: nat :: a < |churn| ==> LoopOk(churn[a], loops[a])
  {
    if churn == [] then 0 else Left(churn[0], loops[0]) + LeftAll(churn[1..], loops[1..])
  }

  lemma {:induction false} LeftUpdate(churn: seq<seq<Event>>, loops: seq<Loop>, a: nat, l: Loop)
    requires |loops| == |churn| && (forall b: nat :: b < |churn| ==> LoopOk(churn[b], loops[b]))
    requires a < |churn| && LoopOk(churn[a], l)
    ensures LeftAll(churn, loops[a := l]) == LeftAll(churn, loops) - Left(churn[a], loops[a]) + Left(churn[a], l)
    decreases |churn|
  {
    hide Left;
    if a == 0 {
      assert loops[a := l][1..] == loops[1..];
    } else {
      assert loops[a := l][1..] == loops[1..][a - 1 := l];
      LeftUpdate(churn[1..], loops[1..], a - 1, l);
    }
  }

  lemma {:induction false} OfNodeAppend(issued: seq<(nat, Call)>, a: nat, c: Call, node: nat)
    ensures OfNode(issued + [(a, c)], node) == OfNode(issued, node) + if a == node then [c] else []
  {
    var issued' := issued + [(a, c)];
    if issued == [] {
      assert issued'[1..] == [];
    } else {
      OfNodeAppend(issued[1..], a, c, node);
      assert issued'[0] == issued[0] && issued'[1..] == issued[1..] + [(a, c)];
      var head := if issued[0].0 == node then [issued[0].1] else [];
      assert OfNode(issued', node) == head + OfNode(issued'[1..], node);
      assert OfNode(issued, node) == head + OfNode(issued[1..], node);
    }
  }

  lemma {:induction false} CountAllAppend(issued: seq<(nat, Call)>, a: nat, c: Call, op: Op)
    ensures CountAll(issued + [(a, c)], op) == CountAll(issued, op) + if c.op == op then 1 else 0
  {
    if issued == [] {
      assert issued + [(a, c)] == [(a, c)] && [(a, c)][1..] == [];
    } else {
      assert (issued + [(a, c)])[1..] == issued[1..] + [(a, c)];
      CountAllAppend(issued[1..], a, c, op);
    }
  }

  /** Every loop's calls so far, and those ahead, are its node's calls. */
  ghost predicate Driving(churn: seq<seq<Event>>, searchAt: int, stopAt: int, loops: seq<Loop>,
                          issued: seq<(nat, Call)>) {
    && |loops| == |churn| && (forall i :: 0 <= i < |issued| ==> issued[i].0 < |churn|)
    && (forall a: nat :: a < |churn| ==> DrivingNode(churn[a], searchAt, stopAt, loops[a], OfNode(issued, a)))
  }

  ghost predicate DrivingNode(ev: seq<Event>, searchAt: int, stopAt: int, l: Loop, done: seq<Call>) {
    LoopOk(ev, l) && done + Ahead(ev, l, searchAt, stopAt) == Calls(ev, searchAt, stopAt)
  }

  function Issued(before: seq<(nat, Call)>, a: nat, calls: seq<Call>): seq<(nat, Call)>
    requires |calls| <= 1
  {
    if calls == [] then before else before + [(a, calls[0])]
  }

  lemma TurnDrives(churn: seq<seq<Event>>, searchAt: int, stopAt: int, loops: seq<Loop>, issued: seq<(nat, Call)>,
                   a: nat)
    requires Driving(churn, searchAt, stopAt, loops, issued) && a < |churn| && !loops[a].Ended?
    requires LoopOk(churn[a], loops[a])
    ensures var r := Turn(churn[a], loops[a], searchAt, stopAt);
            Driving(churn, searchAt, stopAt, loops[a := r.1], Issued(issued, a, r.0))
  {
    hide Turn, Ahead, Calls;
    var r := Turn(churn[a], loops[a], searchAt, stopAt);
    var loops', issued' := loops[a := r.1], Issued(issued, a, r.0);
    TurnIssues(churn[a], loops[a], searchAt, stopAt);
    forall b: nat | b < |churn| ensures DrivingNode(churn[b], searchAt, stopAt, loops'[b], OfNode(issued', b)) {
      assert DrivingNode(churn[b], searchAt, stopAt, loops[b], OfNode(issued, b));
      if r.0 != [] {
        OfNodeAppend(issued, a, r.0[0], b);
        assert r.0 == [r.0[0]];
      }
      if b == a {
        var ahead := Ahead(churn[a], r.1, searchAt, stopAt);
        assert OfNode(issued, b) + (r.0 + ahead) == OfNode(issued', b) + ahead;
      }
    }
  }

  lemma BeginDriving(churn: seq<seq<Event>>, searchAt: int, stopAt: int)
    ensures Driving(churn, searchAt, stopAt, seq(|churn|, _ => AtEvent(0)), [])
  {
    hide Calls;
    forall a: nat | a < |churn| ensures DrivingNode(churn[a], searchAt, stopAt, AtEvent(0), []) {
      assert churn[a][0..] == churn[a];
      assert [] + Calls(churn[a], searchAt, stopAt) == Calls(churn[a], searchAt, stopAt);
    }
  }

  lemma EndDriving(churn: seq<seq<Event>>, searchAt: int, stopAt: int, loops: seq<Loop>, issued: seq<(nat, Call)>,
                   a: nat)
    requires Driving(churn, searchAt, stopAt, loops, issued) && a < |churn| && loops[a].Ended?
    ensures OfNode(issued, a) == Calls(churn[a], searchAt, stopAt)
  {
    hide Calls, OfNode;
    assert DrivingNode(churn[a], searchAt, stopAt, loops[a], OfNode(issued, a));
  }

  lemma LoopsOk(churn: seq<seq<Event>>, searchAt: int, stopAt: int, loops: seq<Loop>, issued: seq<(nat, Call)>)
    requires Driving(churn, searchAt, stopAt, loops, issued)
    ensures |loops| == |churn| && forall a: nat :: a < |churn| ==> LoopOk(churn[a], loops[a])
    ensures forall i :: 0 <= i < |issued| ==> issued[i].0 < |churn|
  {
    forall a: nat | a < |churn| ensures LoopOk(churn[a], loops[a]) {
      assert DrivingNode(churn[a], searchAt, stopAt, loops[a], OfNode(issued, a));
    }
  }

  /** The node loops of drive, all over one log: at each turn any loop that has not returned goes on. When
      all have, each node got its calls, and the log holds, succeeded and failed together, what is planned. */
  method DriveAll(log: ChurnLog, churn: seq<seq<Event>>, searchAt: int, stopAt: int, answers: nat -> bool)
    returns (issued: seq<(nat, Call)>)
    modifies log
    ensures forall a: nat :: a < |churn| ==> OfNode(issued, a) == Calls(churn[a], searchAt, stopAt)
    ensures log.departs == old(log.departs) + Answered(Bare(issued), answers, Kill, true)
    ensures log.killFailed == old(log.killFailed) + Answered(Bare(issued), answers, Kill, false)
    ensures log.rejoins == old(log.rejoins) + Answered(Bare(issued), answers, Start, true)
    ensures log.startFailed == old(log.startFailed) + Answered(Bare(issued), answers, Start, false)
    ensures log.departs + log.killFailed == old(log.departs + log.killFailed) + PlannedOf(churn, searchAt, stopAt, Kill)
    ensures log.rejoins + log.startFailed ==
              old(log.rejoins + log.startFailed) + PlannedOf(churn, searchAt, stopAt, Start)
  {
    hide Calls, OfNode, CountAll, PlannedOf, Left, Driving, Turn, Answered, Bare;
    var loops := seq(|churn|, _ => AtEvent(0));
    issued := [];
    NoneAnswered(answers);
    BareNone();
    BeginDriving(churn, searchAt, stopAt);
    LoopsOk(churn, searchAt, stopAt, loops, issued);
    while exists a: nat :: a < |loops| && !loops[a].Ended?
      invariant |loops| == |churn| && (forall a: nat :: a < |churn| ==> LoopOk(churn[a], loops[a]))
      invariant Driving(churn, searchAt, stopAt, loops, issued)
      invariant log.Gained(Bare(issued), answers)
      decreases LeftAll(churn, loops)
    {
      var a: nat :| a < |loops| && !loops[a].Ended?;
      var r := Turn(churn[a], loops[a], searchAt, stopAt);
      TurnDrives(churn, searchAt, stopAt, loops, issued, a);
      TurnIssues(churn[a], loops[a], searchAt, stopAt);
      LeftUpdate(churn, loops, a, r.1);
      if r.0 != [] {
        log.Record(r.0[0].op, answers(|issued|));
        AnsweredAppend(Bare(issued), r.0[0], answers);
        BareAppend(issued, a, r.0[0]);
        issued := issued + [(a, r.0[0])];
      }
      loops := loops[a := r.1];
      LoopsOk(churn, searchAt, stopAt, loops, issued);
    }
    LoopsOk(churn, searchAt, stopAt, loops, issued);
    forall a: nat | a < |churn| ensures OfNode(issued, a) == Calls(churn[a], searchAt, stopAt) {
      EndDriving(churn, searchAt, stopAt, loops, issued, a);
    }
    IssuedAsPlanned(churn, issued, searchAt, stopAt, Kill);
    IssuedAsPlanned(churn, issued, searchAt, stopAt, Start);
    AnsweredOfAll(issued, answers, Kill);
    AnsweredOfAll(issued, answers, Start);
  }

  /** The calls without their nodes. */
  function Bare(issued: seq<(nat, Call)>): seq<Call> {
    if issued == [] then [] else Bare(issued[..|issued| - 1]) + [issued[|issued| - 1].1]
  }

  lemma BareNone()
    ensures Bare([]) == []
  {
  }

  lemma {:induction false} BareAppend(issued: seq<(nat, Call)>, a: nat, c: Call)
    ensures Bare(issued + [(a, c)]) == Bare(issued) + [c] && |Bare(issued)| == |issued|
  {
    assert (issued + [(a, c)])[..|issued|] == issued;
    if issued != [] {
      var i := |issued| - 1;
      assert issued == issued[..i] + [(issued[i].0, issued[i].1)];
      BareAppend(issued[..i], issued[i].0, issued[i].1);
    }
  }

  lemma {:induction false} AnsweredOfAll(issued: seq<(nat, Call)>, answers: nat -> bool, op: Op)
    ensures Answered(Bare(issued), answers, op, true) + Answered(Bare(issued), answers, op, false)
         == CountAll(issued, op)
  {
    hide Answered, Bare, CountAll;
    if issued == [] {
      BareNone();
      NoneAnswered(answers);
      CountNoneAll();
    } else {
      var i := |issued| - 1;
      var before, a, c := issued[..i], issued[i].0, issued[i].1;
      assert issued == before + [(a, c)];
      AnsweredOfAll(before, answers, op);
      BareAppend(before, a, c);
      AnsweredAppend(Bare(before), c, answers);
      CountAllAppend(before, a, c, op);
    }
  }

  lemma CountNoneAll()
    ensures CountAll([], Kill) == 0 && CountAll([], Start) == 0
  {
  }

  /** How the model draws one node's schedule. */
  datatype Setting = Setting(window: real, windowRealHours: real, cadence: real, hours: real)

  /** The schedule is the one the draws and the topic's fit decide. */
  ghost predicate DrawnFor(rng: nat -> real, pow: (real, real) -> real, w: Setting, t: Topic, ev: seq<Event>)
    requires w.window > 0.0 && w.hours > 0.0
  {
    var runHours := RealHours(w.window, w.windowRealHours);
    runHours > 0.0 && Drawn(World(rng, pow, w.window, CrawlSeconds(w.window, w.cadence, runHours), t),
                            Span(runHours, w.hours), ev)
  }

  method ScheduleAll(rngs: nat -> nat -> real, pow: (real, real) -> real, w: Setting, topics: seq<Topic>)
    returns (churn: seq<seq<Event>>)
    requires w.window > 0.0 && w.cadence > 0.0 && w.hours > 0.0 && (forall a: nat :: Draws(rngs(a)))
    requires forall a: nat :: a < |topics| ==>
               Fitted(topics[a].km) && Fitted(topics[a].kmReturn) && WholeGaps(topics[a].gapCDF)
    ensures |churn| == |topics| && RealHours(w.window, w.windowRealHours) > 0.0
    ensures var crawl := CrawlSeconds(w.window, w.cadence, RealHours(w.window, w.windowRealHours));
            forall a: nat :: a < |churn| ==>
              Schedule(churn[a], w.window, crawl) && DrawnFor(rngs(a), pow, w, topics[a], churn[a])
  {
    hide Schedule, Drawn;
    churn := [];
    HoursPositive(w.window, w.windowRealHours);
    ghost var crawl := CrawlSeconds(w.window, w.cadence, RealHours(w.window, w.windowRealHours));
    for a := 0 to |topics|
      invariant |churn| == a
      invariant forall b: nat :: b < a ==>
                  Schedule(churn[b], w.window, crawl) && DrawnFor(rngs(b), pow, w, topics[b], churn[b])
    {
      var ev := ScheduleTopic(rngs(a), pow, w.window, w.windowRealHours, w.cadence, w.hours, topics[a]);
      churn := churn + [ev];
    }
  }

  lemma HoursPositive(window: real, windowRealHours: real)
    requires window > 0.0
    ensures RealHours(window, windowRealHours) > 0.0
  {
  }

  /** All nodes, end to end, for any random draws and any interleaving: the model schedules them, the
      coordinator drives them over one log, and every call finds its node in the state it is meant to change. */
  method ScheduleAndDrive(rngs: nat -> nat -> real, pow: (real, real) -> real, w: Setting, topics: seq<Topic>,
                          log: ChurnLog, searchAt: int, stopAt: int, answers: nat -> bool)
    returns (churn: seq<seq<Event>>, issued: seq<(nat, Call)>)
    requires w.window > 0.0 && w.cadence > 0.0 && w.hours > 0.0 && (forall a: nat :: Draws(rngs(a)))
    requires forall a: nat :: a < |topics| ==>
               Fitted(topics[a].km) && Fitted(topics[a].kmReturn) && WholeGaps(topics[a].gapCDF)
    modifies log
    ensures |churn| == |topics|
    ensures forall a: nat :: a < |churn| ==> DrawnFor(rngs(a), pow, w, topics[a], churn[a])
    ensures log.departs == old(log.departs) + Answered(Bare(issued), answers, Kill, true)
    ensures log.killFailed == old(log.killFailed) + Answered(Bare(issued), answers, Kill, false)
    ensures log.rejoins == old(log.rejoins) + Answered(Bare(issued), answers, Start, true)
    ensures log.startFailed == old(log.startFailed) + Answered(Bare(issued), answers, Start, false)
    ensures forall a: nat, p :: a < |churn| && Serving(p, StartsUp(churn[a])) ==>
              AllAccepted(Replies(p, OfNode(issued, a)))
    ensures forall a: nat :: a < |churn| ==> InTime(OfNode(issued, a), searchAt, stopAt)
    ensures log.departs + log.killFailed == old(log.departs + log.killFailed) + PlannedOf(churn, searchAt, stopAt, Kill)
    ensures log.rejoins + log.startFailed ==
              old(log.rejoins + log.startFailed) + PlannedOf(churn, searchAt, stopAt, Start)
  {
    hide PlannedOf, OfNode, Calls, Serving, Replies, TimeOf, InTime, Schedule, Answered, Bare, DrawnFor;
    HoursPositive(w.window, w.windowRealHours);
    ghost var crawl := CrawlSeconds(w.window, w.cadence, RealHours(w.window, w.windowRealHours));
    churn := ScheduleAll(rngs, pow, w, topics);
    issued := DriveAll(log, churn, searchAt, stopAt, answers);
    forall a: nat, p | a < |churn| && Serving(p, StartsUp(churn[a]))
      ensures AllAccepted(Replies(p, OfNode(issued, a)))
    {
      ScheduleAccepted(p, churn[a], w.window, crawl, searchAt, stopAt);
    }
    forall a: nat | a < |churn| ensures InTime(OfNode(issued, a), searchAt, stopAt) {
      ScheduleInTime(churn[a], w.window, crawl, searchAt, stopAt);
    }
  }

  /** Calls due in the order issued, from the search start and before the stop. */
  ghost predicate InTime(calls: seq<Call>, searchAt: int, stopAt: int) {
    && (forall i :: 0 <= i < |calls| ==> searchAt <= calls[i].at < stopAt)
    && (forall i, j :: 0 <= i < j < |calls| ==> calls[i].at <= calls[j].at)
  }

  lemma ScheduleInTime(ev: seq<Event>, window: real, crawl: real, searchAt: int, stopAt: int)
    requires Schedule(ev, window, crawl)
    ensures InTime(Calls(ev, searchAt, stopAt), searchAt, stopAt)
  {
    CallsInOrder(ev, searchAt, stopAt, 0.0);
    assert TimeOf(searchAt, 0.0) == searchAt;
  }
}
