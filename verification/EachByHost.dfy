/** eachByHost of pkg/coordinator/cloud.go: calls spread over hosts by a few workers per
    host, a semaphore over all of them, and the first error kept. One step is one channel
    operation, one call's beginning or end, or one locked update. */
module EachByHost {
  import opened Collections

  const PER_HOST := 4
  const OVERALL := 64

  datatype Pc =
    | Unborn                            // the main goroutine has yet to start it
    | Idle                              // at the receive from the host's channel
    | Holding(i: nat)                   // received, waiting for the semaphore
    | Calling(i: nat)                   // in f(i)
    | Answered(i: nat, err: bool)       // f returned, the semaphore still held
    | Recording(i: nat, err: bool)
    | Done

  datatype Worker = Worker(host: nat, pc: Pc)

  /** `queues[h]` is what host h's channel still holds, `sem` the tokens taken, `finished` the
      calls that have returned and `failures` how many of them failed, `first` whether an
      error has been kept. */
  datatype State = State(queues: seq<seq<nat>>, workers: seq<Worker>, sem: nat, finished: seq<nat>, failures: nat,
                         first: bool)

  datatype Step = Step(t: nat, err: bool)

  predicate Enabled(s: State, t: nat) {
    t < |s.workers| && s.workers[t].host < |s.queues| &&
    match s.workers[t].pc
    case Holding(_) => s.sem < OVERALL
    case Done => false
    case _ => true
  }

  function Move(s: State, t: nat, pc: Pc): seq<Worker>
    requires t < |s.workers|
  {
    s.workers[t := s.workers[t].(pc := pc)]
  }

  function Apply(s: State, a: Step): State
    requires Enabled(s, a.t)
  {
    var t, h := a.t, s.workers[a.t].host;
    match s.workers[t].pc
    case Unborn => s.(workers := Move(s, t, Idle))
    case Idle =>
      if s.queues[h] == [] then s.(workers := Move(s, t, Done))
      else s.(queues := s.queues[h := s.queues[h][1..]], workers := Move(s, t, Holding(s.queues[h][0])))
    case Holding(i) => s.(sem := s.sem + 1, workers := Move(s, t, Calling(i)))
    case Calling(i) =>
      s.(finished := s.finished + [i], failures := s.failures + (if a.err then 1 else 0),
         workers := Move(s, t, Answered(i, a.err)))
    case Answered(i, err) => s.(sem := if s.sem > 0 then s.sem - 1 else 0, workers := Move(s, t, Recording(i, err)))
    case Recording(_, err) => s.(first := s.first || err, workers := Move(s, t, Idle))
    case Done => s
  }

  // ---------------------------------------------------------------- the start

  /** min(perHostFetches, len(q)) workers for each host from `h` on. */
  function Workers(queues: seq<seq<nat>>, h: nat): seq<Worker>
    requires h <= |queues|
    decreases |queues| - h
  {
    if h == |queues| then []
    else seq(if |queues[h]| < PER_HOST then |queues[h]| else PER_HOST, _ => Worker(h, Unborn)) + Workers(queues, h + 1)
  }

  function Begin(queues: seq<seq<nat>>): State {
    State(queues, Workers(queues, 0), 0, [], 0, false)
  }

  /** How often index `i` is queued. */
  function Queued(queues: seq<seq<nat>>, i: nat): nat {
    if queues == [] then 0 else multiset(queues[0])[i] + Queued(queues[1..], i)
  }

  function TotalLen(queues: seq<seq<nat>>): nat {
    if queues == [] then 0 else |queues[0]| + TotalLen(queues[1..])
  }

  lemma {:induction false} QueueUpdate(queues: seq<seq<nat>>, h: nat, q: seq<nat>, i: nat)
    requires h < |queues|
    ensures Queued(queues[h := q], i) + multiset(queues[h])[i] == Queued(queues, i) + multiset(q)[i]
    ensures TotalLen(queues[h := q]) + |queues[h]| == TotalLen(queues) + |q|
  {
    if h == 0 {
      assert queues[h := q][1..] == queues[1..];
    } else {
      QueueUpdate(queues[1..], h - 1, q, i);
      assert queues[h := q][1..] == queues[1..][h - 1 := q];
    }
  }

  lemma {:induction false} QueuesEmpty(queues: seq<seq<nat>>, i: nat)
    requires forall h :: 0 <= h < |queues| ==> queues[h] == []
    ensures Queued(queues, i) == 0
  {
    if queues != [] { QueuesEmpty(queues[1..], i); }
  }

  /** Every index below `n` is queued once, nothing else is. */
  ghost predicate AllQueued(queues: seq<seq<nat>>, n: nat) {
    forall i: nat :: Queued(queues, i) == if i < n then 1 else 0
  }

  /** What is queued for a host is that host's, and below `n`. */
  ghost predicate ByHost(queues: seq<seq<nat>>, hostOf: nat -> nat, n: nat) {
    forall h, k :: 0 <= h < |queues| && 0 <= k < |queues[h]| ==> queues[h][k] < n && hostOf(queues[h][k]) == h
  }

  lemma QueueOne(queues: seq<seq<nat>>, hostOf: nat -> nat, i: nat)
    requires AllQueued(queues, i) && hostOf(i) < |queues|
    ensures AllQueued(queues[hostOf(i) := queues[hostOf(i)] + [i]], i + 1)
  {
    hide Queued;
    var h := hostOf(i);
    var next := queues[h := queues[h] + [i]];
    forall j: nat ensures Queued(next, j) == if j < i + 1 then 1 else 0 {
      QueueUpdate(queues, h, queues[h] + [i], j);
    }
  }

  lemma ByHostOne(queues: seq<seq<nat>>, hostOf: nat -> nat, i: nat)
    requires ByHost(queues, hostOf, i) && hostOf(i) < |queues|
    ensures ByHost(queues[hostOf(i) := queues[hostOf(i)] + [i]], hostOf, i + 1)
  {
  }

  /** The loop that sorts the indices into one queue per host. */
  method BuildQueues(n: nat, hosts: nat, hostOf: nat -> nat) returns (queues: seq<seq<nat>>)
    requires forall i :: 0 <= i < n ==> hostOf(i) < hosts
    ensures |queues| == hosts && AllQueued(queues, n) && ByHost(queues, hostOf, n)
  {
    queues := seq(hosts, _ => []);
    forall j: nat ensures Queued(queues, j) == 0 { QueuesEmpty(queues, j); }
    assert AllQueued(queues, 0) && ByHost(queues, hostOf, 0);
    hide AllQueued, ByHost;
    for i := 0 to n
      invariant |queues| == hosts && AllQueued(queues, i) && ByHost(queues, hostOf, i)
    {
      QueueOne(queues, hostOf, i);
      ByHostOne(queues, hostOf, i);
      queues := queues[hostOf(i) := queues[hostOf(i)] + [i]];
    }
  }

  // --------------------------------------------------------- counting over workers

  lemma {:induction false} CountUpdate(ws: seq<Worker>, t: nat, w: Worker, p: Worker -> bool)
    requires t < |ws|
    ensures Count(ws[t := w], p) + (if p(ws[t]) then 1 else 0) == Count(ws, p) + (if p(w) then 1 else 0)
  {
    if t == 0 {
      assert ws[t := w][1..] == ws[1..];
    } else {
      CountUpdate(ws[1..], t - 1, w, p);
      assert ws[t := w][1..] == ws[1..][t - 1 := w];
    }
  }

  lemma {:induction false} CountLe(ws: seq<Worker>, p: Worker -> bool, r: Worker -> bool)
    requires forall t :: 0 <= t < |ws| && p(ws[t]) ==> r(ws[t])
    ensures Count(ws, p) <= Count(ws, r)
  {
    if ws != [] { CountLe(ws[1..], p, r); }
  }

  lemma {:induction false} CountSome(ws: seq<Worker>, p: Worker -> bool) returns (t: nat)
    requires Count(ws, p) > 0
    ensures t < |ws| && p(ws[t])
  {
    if p(ws[0]) {
      t := 0;
    } else {
      t := CountSome(ws[1..], p);
      t := t + 1;
    }
  }

  predicate HasToken(w: Worker) { w.pc.Calling? || w.pc.Answered? }
  predicate InCall(w: Worker) { w.pc.Calling? }
  predicate OwesError(w: Worker) { (w.pc.Answered? || w.pc.Recording?) && w.pc.err }
  function Holds(i: nat): Worker -> bool { (w: Worker) => (w.pc.Holding? || w.pc.Calling?) && w.pc.i == i }
  function AtHost(h: nat): Worker -> bool { (w: Worker) => w.host == h }

  /** A call of f on an index of host `h`. */
  function CallsTo(hostOf: nat -> nat, h: nat): Worker -> bool { (w: Worker) => w.pc.Calling? && hostOf(w.pc.i) == h }

  // ---------------------------------------------------------------- the invariant

  /** Every index is queued, held by one worker, or finished, and nowhere twice. */
  ghost predicate EachOnce(s: State, n: nat) {
    forall i: nat :: Places(s, i) == if i < n then 1 else 0
  }

  function Places(s: State, i: nat): nat {
    Queued(s.queues, i) + Count(s.workers, Holds(i)) + multiset(s.finished)[i]
  }

  predicate SemaphoreOk(s: State) {
    s.sem == Count(s.workers, HasToken) && s.sem <= OVERALL
  }

  predicate ErrorsOk(s: State) {
    s.failures > 0 <==> s.first || Count(s.workers, OwesError) > 0
  }

  /** At most four workers a host, and none done while its host's channel holds something. */
  ghost predicate HostsOk(s: State) {
    && (forall t :: 0 <= t < |s.workers| ==> s.workers[t].host < |s.queues|)
    && (forall h: nat :: Count(s.workers, AtHost(h)) <= PER_HOST)
    && (forall h: nat :: h < |s.queues| && s.queues[h] != [] ==> Count(s.workers, AtHost(h)) > 0)
    && (forall t :: 0 <= t < |s.workers| && s.workers[t].pc.Done? ==> s.queues[s.workers[t].host] == [])
  }

  ghost predicate Inv(s: State, n: nat) {
    EachOnce(s, n) && SemaphoreOk(s) && ErrorsOk(s) && HostsOk(s)
  }

  lemma StepPlaces(s: State, a: Step, i: nat)
    requires Enabled(s, a.t)
    ensures Places(Apply(s, a), i) == Places(s, i)
  {
    hide Count, Queued, Holds;
    var w := s.workers[a.t];
    if w.pc.Idle? && s.queues[w.host] != [] {
      ReceivePlaces(s, a.t, w.host, i);
    } else if w.pc.Calling? {
      AnswerPlaces(s, a.t, a.err, i);
    } else {
      var pc := Apply(s, a).workers[a.t].pc;
      SameHold(w, pc, i);
      MovePlaces(s, a.t, pc, i);
      assert Apply(s, a).workers == Move(s, a.t, pc);
    }
  }

  /** A move that neither takes an index nor gives one up. */
  lemma MovePlaces(s: State, t: nat, pc: Pc, i: nat)
    requires t < |s.workers| && Holds(i)(s.workers[t]) == Holds(i)(s.workers[t].(pc := pc))
    ensures Count(Move(s, t, pc), Holds(i)) == Count(s.workers, Holds(i))
  {
    CountUpdate(s.workers, t, s.workers[t].(pc := pc), Holds(i));
  }

  lemma SameHold(w: Worker, pc: Pc, i: nat)
    requires !w.pc.Calling? && (w.pc.Holding? ==> pc == Calling(w.pc.i))
    requires (!w.pc.Holding? ==> !pc.Holding? && !pc.Calling?)
    ensures Holds(i)(w) == Holds(i)(w.(pc := pc))
  {
  }

  lemma ReceivePlaces(s: State, t: nat, h: nat, i: nat)
    requires t < |s.workers| && s.workers[t].pc.Idle? && h < |s.queues| && s.queues[h] != []
    ensures Queued(s.queues[h := s.queues[h][1..]], i) + Count(Move(s, t, Holding(s.queues[h][0])), Holds(i))
         == Queued(s.queues, i) + Count(s.workers, Holds(i))
  {
    hide Count, Queued;
    CountUpdate(s.workers, t, s.workers[t].(pc := Holding(s.queues[h][0])), Holds(i));
    QueueUpdate(s.queues, h, s.queues[h][1..], i);
    TakeFirst(s.queues[h], i);
  }

  lemma AnswerPlaces(s: State, t: nat, err: bool, i: nat)
    requires t < |s.workers| && s.workers[t].pc.Calling?
    ensures Count(Move(s, t, Answered(s.workers[t].pc.i, err)), Holds(i)) +
              multiset(s.finished + [s.workers[t].pc.i])[i]
         == Count(s.workers, Holds(i)) + multiset(s.finished)[i]
  {
    hide Count;
    CountUpdate(s.workers, t, s.workers[t].(pc := Answered(s.workers[t].pc.i, err)), Holds(i));
    AddLast(s.finished, s.workers[t].pc.i, i);
  }

  lemma TakeFirst(q: seq<nat>, i: nat)
    requires q != []
    ensures multiset(q)[i] == multiset(q[1..])[i] + if q[0] == i then 1 else 0
  {
    assert q == [q[0]] + q[1..];
  }

  lemma AddLast(q: seq<nat>, x: nat, i: nat)
    ensures multiset(q + [x])[i] == multiset(q)[i] + if x == i then 1 else 0
  {
  }

  lemma StepOnce(s: State, a: Step, n: nat)
    requires EachOnce(s, n) && Enabled(s, a.t)
    ensures EachOnce(Apply(s, a), n)
  {
    forall i: nat ensures Places(Apply(s, a), i) == if i < n then 1 else 0 {
      StepPlaces(s, a, i);
    }
  }

  lemma StepSemaphore(s: State, a: Step)
    requires SemaphoreOk(s) && Enabled(s, a.t)
    ensures SemaphoreOk(Apply(s, a))
  {
    var s' := Apply(s, a);
    CountUpdate(s.workers, a.t, s'.workers[a.t], HasToken);
    assert s'.workers == s.workers[a.t := s'.workers[a.t]];
  }

  lemma StepErrors(s: State, a: Step)
    requires ErrorsOk(s) && Enabled(s, a.t)
    ensures ErrorsOk(Apply(s, a))
  {
    var s' := Apply(s, a);
    CountUpdate(s.workers, a.t, s'.workers[a.t], OwesError);
    assert s'.workers == s.workers[a.t := s'.workers[a.t]];
  }

  lemma StepHosts(s: State, a: Step)
    requires HostsOk(s) && Enabled(s, a.t)
    ensures HostsOk(Apply(s, a))
  {
    var s' := Apply(s, a);
    assert s'.workers == s.workers[a.t := s'.workers[a.t]] && s'.workers[a.t].host == s.workers[a.t].host;
    forall h: nat ensures Count(s'.workers, AtHost(h)) == Count(s.workers, AtHost(h)) {
      CountUpdate(s.workers, a.t, s'.workers[a.t], AtHost(h));
    }
  }

  lemma StepInv(s: State, a: Step, n: nat)
    requires Inv(s, n) && Enabled(s, a.t)
    ensures Inv(Apply(s, a), n)
  {
    StepOnce(s, a, n);
    StepSemaphore(s, a);
    StepErrors(s, a);
    StepHosts(s, a);
  }

  // ------------------------------------------------------------------- the start

  lemma {:induction false} Replicas(k: nat, h: nat, p: Worker -> bool)
    ensures var ws := seq(k, _ => Worker(h, Unborn));
            Count(ws, p) == if p(Worker(h, Unborn)) then k else 0
  {
    if k > 0 {
      Replicas(k - 1, h, p);
      assert seq(k, _ => Worker(h, Unborn))[1..] == seq(k - 1, _ => Worker(h, Unborn));
    }
  }

  /** Nothing that no unborn worker is holds of a worker at the start. */
  lemma {:induction false} NoneAtStart(queues: seq<seq<nat>>, h: nat, p: Worker -> bool)
    requires h <= |queues| && forall x: nat :: !p(Worker(x, Unborn))
    ensures Count(Workers(queues, h), p) == 0
    decreases |queues| - h
  {
    hide Count;
    if h < |queues| {
      var m := if |queues[h]| < PER_HOST then |queues[h]| else PER_HOST;
      NoneAtStart(queues, h + 1, p);
      Replicas(m, h, p);
      CountAppend(seq(m, _ => Worker(h, Unborn)), Workers(queues, h + 1), p);
    } else {
      NoWorkers(p);
    }
  }

  lemma NoWorkers(p: Worker -> bool)
    ensures Count([], p) == 0
  {
  }

  lemma {:induction false} WorkersAtHost(queues: seq<seq<nat>>, h: nat, k: nat)
    requires h <= |queues|
    ensures Count(Workers(queues, h), AtHost(k))
         == if h <= k < |queues| then (if |queues[k]| < PER_HOST then |queues[k]| else PER_HOST) else 0
    decreases |queues| - h
  {
    hide Count;
    if h < |queues| {
      var m := if |queues[h]| < PER_HOST then |queues[h]| else PER_HOST;
      WorkersAtHost(queues, h + 1, k);
      Replicas(m, h, AtHost(k));
      CountAppend(seq(m, _ => Worker(h, Unborn)), Workers(queues, h + 1), AtHost(k));
    } else {
      NoWorkers(AtHost(k));
    }
  }

  lemma {:induction false} WorkersUnborn(queues: seq<seq<nat>>, h: nat)
    requires h <= |queues|
    ensures forall t :: 0 <= t < |Workers(queues, h)| ==>
              Workers(queues, h)[t].host < |queues| && Workers(queues, h)[t].pc == Unborn
    decreases |queues| - h
  {
    if h < |queues| { WorkersUnborn(queues, h + 1); }
  }

  lemma BeginInv(queues: seq<seq<nat>>, n: nat)
    requires AllQueued(queues, n)
    ensures Inv(Begin(queues), n)
  {
    hide Count, Workers;
    WorkersUnborn(queues, 0);
    NoneAtStart(queues, 0, HasToken);
    NoneAtStart(queues, 0, OwesError);
    forall h: nat
      ensures Count(Workers(queues, 0), AtHost(h)) <= PER_HOST
      ensures h < |queues| && queues[h] != [] ==> Count(Workers(queues, 0), AtHost(h)) > 0
      ensures Places(Begin(queues), h) == if h < n then 1 else 0
    {
      WorkersAtHost(queues, 0, h);
      NoneAtStart(queues, 0, Holds(h));
    }
  }

  // ------------------------------------------------------------------- theorems

  predicate Legal(s: State, steps: seq<Step>)
    decreases |steps|
  {
    steps == [] || (Enabled(s, steps[0].t) && Legal(Apply(s, steps[0]), steps[1..]))
  }

  function Run(s: State, steps: seq<Step>): State
    requires Legal(s, steps)
    decreases |steps|
  {
    if steps == [] then s else Run(Apply(s, steps[0]), steps[1..])
  }

  lemma {:induction false} RunInv(s: State, steps: seq<Step>, n: nat)
    requires Inv(s, n) && Legal(s, steps)
    ensures Inv(Run(s, steps), n)
    decreases |steps|
  {
    if steps != [] {
      StepInv(s, steps[0], n);
      RunInv(Apply(s, steps[0]), steps[1..], n);
    }
  }

  /** wg.Wait has returned. */
  ghost predicate AllDone(s: State) {
    forall t :: 0 <= t < |s.workers| ==> s.workers[t].pc.Done?
  }

  /** What is queued for a host, and what its workers hold or call, is that host's. */
  ghost predicate OwnHost(s: State, hostOf: nat -> nat, n: nat) {
    && ByHost(s.queues, hostOf, n)
    && (forall t :: 0 <= t < |s.workers| ==> Holder(s.workers[t], hostOf))
  }

  predicate Holder(w: Worker, hostOf: nat -> nat) {
    w.pc.Holding? || w.pc.Calling? ==> hostOf(w.pc.i) == w.host
  }

  lemma StepOwnHost(s: State, a: Step, hostOf: nat -> nat, n: nat)
    requires OwnHost(s, hostOf, n) && Enabled(s, a.t)
    ensures OwnHost(Apply(s, a), hostOf, n)
  {
    var s' := Apply(s, a);
    assert Holder(s.workers[a.t], hostOf);
    forall t | 0 <= t < |s'.workers| ensures Holder(s'.workers[t], hostOf) {
      assert Holder(s.workers[t], hostOf);
    }
  }

  lemma {:induction false} RunOwnHost(s: State, steps: seq<Step>, hostOf: nat -> nat, n: nat)
    requires OwnHost(s, hostOf, n) && Legal(s, steps)
    ensures OwnHost(Run(s, steps), hostOf, n)
    decreases |steps|
  {
    hide OwnHost, Apply, Enabled;
    if steps != [] {
      StepOwnHost(s, steps[0], hostOf, n);
      RunOwnHost(Apply(s, steps[0]), steps[1..], hostOf, n);
    }
  }

  /** In every interleaving no host has more than four calls on its indices in flight, nor all hosts more
      than sixty-four, and no index is called twice. */
  lemma Bounded(queues: seq<seq<nat>>, hostOf: nat -> nat, steps: seq<Step>, n: nat, h: nat)
    requires AllQueued(queues, n) && ByHost(queues, hostOf, n) && Legal(Begin(queues), steps)
    ensures var s := Run(Begin(queues), steps);
            && Count(s.workers, CallsTo(hostOf, h)) <= 4 && Count(s.workers, InCall) <= 64
            && forall i: nat :: multiset(s.finished)[i] <= if i < n then 1 else 0
  {
    BeginInv(queues, n);
    assert OwnHost(Begin(queues), hostOf, n) by { WorkersUnborn(queues, 0); }
    RunInv(Begin(queues), steps, n);
    RunOwnHost(Begin(queues), steps, hostOf, n);
    hide Run, Legal, Inv, OwnHost, Count;
    BoundedNow(Run(Begin(queues), steps), hostOf, n, h);
  }

  lemma BoundedNow(s: State, hostOf: nat -> nat, n: nat, h: nat)
    requires Inv(s, n) && OwnHost(s, hostOf, n)
    ensures Count(s.workers, CallsTo(hostOf, h)) <= PER_HOST && Count(s.workers, InCall) <= OVERALL
    ensures forall i: nat :: multiset(s.finished)[i] <= if i < n then 1 else 0
  {
    hide Count, ByHost, Queued;
    forall t | 0 <= t < |s.workers| && CallsTo(hostOf, h)(s.workers[t]) ensures AtHost(h)(s.workers[t]) {
      assert Holder(s.workers[t], hostOf);
    }
    CountLe(s.workers, CallsTo(hostOf, h), AtHost(h));
    CountLe(s.workers, InCall, HasToken);
    forall i: nat ensures multiset(s.finished)[i] <= if i < n then 1 else 0 {
      assert Places(s, i) == if i < n then 1 else 0;
    }
  }

  /** When every worker is done each index has been called exactly once, and an error is
      returned exactly when some call failed. */
  lemma Complete(queues: seq<seq<nat>>, steps: seq<Step>, n: nat)
    requires AllQueued(queues, n) && Legal(Begin(queues), steps) && AllDone(Run(Begin(queues), steps))
    ensures var s := Run(Begin(queues), steps);
            && (forall i: nat :: multiset(s.finished)[i] == if i < n then 1 else 0)
            && (s.first <==> s.failures > 0)
  {
    BeginInv(queues, n);
    RunInv(Begin(queues), steps, n);
    var s := Run(Begin(queues), steps);
    NoneHeld(s.workers, 0);
    forall h: nat | h < |s.queues| ensures s.queues[h] == [] {
      if s.queues[h] != [] {
        var t := CountSome(s.workers, AtHost(h));
      }
    }
    forall i: nat ensures multiset(s.finished)[i] == if i < n then 1 else 0 {
      assert Places(s, i) == if i < n then 1 else 0;
      NoneHeld(s.workers, i);
      QueuesEmpty(s.queues, i);
    }
  }

  lemma {:induction false} NoneHeld(ws: seq<Worker>, i: nat)
    requires forall t :: 0 <= t < |ws| ==> ws[t].pc.Done?
    ensures Count(ws, Holds(i)) == 0 && Count(ws, OwesError) == 0
  {
    if ws != [] { NoneHeld(ws[1..], i); }
  }

  function Rank(pc: Pc): nat {
    match pc
    case Unborn => 2
    case Idle => 1
    case Holding(_) => 5
    case Calling(_) => 4
    case Answered(_, _) => 3
    case Recording(_, _) => 2
    case Done => 0
  }

  function RankSum(ws: seq<Worker>): nat {
    if ws == [] then 0 else Rank(ws[0].pc) + RankSum(ws[1..])
  }

  function Work(s: State): nat {
    5 * TotalLen(s.queues) + RankSum(s.workers)
  }

  lemma {:induction false} RankUpdate(ws: seq<Worker>, t: nat, w: Worker)
    requires t < |ws|
    ensures RankSum(ws[t := w]) + Rank(ws[t].pc) == RankSum(ws) + Rank(w.pc)
  {
    if t == 0 {
      assert ws[t := w][1..] == ws[1..];
    } else {
      RankUpdate(ws[1..], t - 1, w);
      assert ws[t := w][1..] == ws[1..][t - 1 := w];
    }
  }

  lemma StepShrinks(s: State, a: Step)
    requires Enabled(s, a.t)
    ensures Work(Apply(s, a)) < Work(s)
  {
    var s', h := Apply(s, a), s.workers[a.t].host;
    RankUpdate(s.workers, a.t, s'.workers[a.t]);
    assert s'.workers == s.workers[a.t := s'.workers[a.t]];
    if s.workers[a.t].pc.Idle? && s.queues[h] != [] {
      QueueUpdate(s.queues, h, s.queues[h][1..], 0);
    }
  }

  /** It never gets stuck: until every worker is done some step is enabled, and every step
      brings the end nearer. */
  lemma NeverStuck(queues: seq<seq<nat>>, steps: seq<Step>, n: nat) returns (t: nat)
    requires AllQueued(queues, n) && Legal(Begin(queues), steps) && !AllDone(Run(Begin(queues), steps))
    ensures Enabled(Run(Begin(queues), steps), t)
    ensures forall err :: Work(Apply(Run(Begin(queues), steps), Step(t, err))) < Work(Run(Begin(queues), steps))
  {
    BeginInv(queues, n);
    RunInv(Begin(queues), steps, n);
    var s := Run(Begin(queues), steps);
    t :| 0 <= t < |s.workers| && !s.workers[t].pc.Done?;
    if !Enabled(s, t) {
      t := CountSome(s.workers, HasToken);
    }
    forall err ensures Work(Apply(s, Step(t, err))) < Work(s) {
      StepShrinks(s, Step(t, err));
    }
  }

  // --------------------------------------------------------------- the bounds are used

  /** A host gets four workers, or one for each of its indices if they are fewer. */
  lemma WorkersPerHost(queues: seq<seq<nat>>, h: nat)
    requires h < |queues|
    ensures Count(Begin(queues).workers, AtHost(h)) == if |queues[h]| < 4 then |queues[h]| else 4
  {
    WorkersAtHost(queues, 0, h);
  }

  /** The first `k` workers are calling, the others have not begun. */
  ghost predicate Working(s: State, queues: seq<seq<nat>>, k: nat) {
    var ws := Workers(queues, 0);
    && |s.workers| == |ws| && k <= |ws| && s.sem == k && |s.queues| == |queues|
    && (forall t :: 0 <= t < |ws| ==> s.workers[t].host == ws[t].host && ws[t].host < |queues|)
    && (forall t :: 0 <= t < k ==> s.workers[t].pc.Calling?)
    && (forall t :: k <= t < |ws| ==> s.workers[t].pc.Unborn?)
    && (forall h: nat :: h < |queues| ==> |s.queues[h]| + Count(ws[..k], AtHost(h)) == |queues[h]|)
  }

  lemma NextHasWork(s: State, queues: seq<seq<nat>>, k: nat)
    requires Working(s, queues, k) && k < |Workers(queues, 0)|
    ensures s.queues[Workers(queues, 0)[k].host] != []
  {
    hide Workers, Count;
    var ws := Workers(queues, 0);
    var h := ws[k].host;
    WorkersPerHost(queues, h);
    CountUpTo(ws, k, AtHost(h));
    CountAppend(ws[..k + 1], ws[k + 1..], AtHost(h));
    assert ws == ws[..k + 1] + ws[k + 1..];
  }

  lemma RunCons(s: State, a: Step, rest: seq<Step>)
    requires Enabled(s, a.t) && Legal(Apply(s, a), rest)
    ensures Legal(s, [a] + rest) && Run(s, [a] + rest) == Run(Apply(s, a), rest)
  {
    hide Apply, Enabled;
    assert ([a] + rest)[0] == a && ([a] + rest)[1..] == rest;
  }

  lemma RunThree(s: State, a: Step)
    requires Enabled(s, a.t) && Enabled(Apply(s, a), a.t) && Enabled(Apply(Apply(s, a), a), a.t)
    ensures Legal(s, [a, a, a]) && Run(s, [a, a, a]) == Apply(Apply(Apply(s, a), a), a)
  {
    hide Apply, Enabled;
    RunCons(Apply(Apply(s, a), a), a, []);
    RunCons(Apply(s, a), a, [a]);
    RunCons(s, a, [a, a]);
    assert [a] + [] == [a] && [a] + [a] == [a, a] && [a] + [a, a] == [a, a, a];
  }

  /** The next worker starts, receives and calls. */
  lemma OneMoreCalls(s: State, queues: seq<seq<nat>>, k: nat)
    requires Working(s, queues, k) && k < |Workers(queues, 0)| && k < 64
    ensures Legal(s, [Step(k, false), Step(k, false), Step(k, false)])
    ensures Working(Run(s, [Step(k, false), Step(k, false), Step(k, false)]), queues, k + 1)
  {
    var a := Step(k, false);
    NextHasWork(s, queues, k);
    var ws := Workers(queues, 0);
    var h := ws[k].host;
    var r := Apply(Apply(Apply(s, a), a), a);
    RunThree(s, a);
    forall g: nat | g < |queues| ensures |r.queues[g]| + Count(ws[..k + 1], AtHost(g)) == |queues[g]| {
      CountUpTo(ws, k, AtHost(g));
    }
  }

  lemma {:induction false} RunAppend(s: State, a: seq<Step>, b: seq<Step>)
    requires Legal(s, a) && Legal(Run(s, a), b)
    ensures Legal(s, a + b) && Run(s, a + b) == Run(Run(s, a), b)
    decreases |a|
  {
    hide Apply, Enabled;
    if a == [] {
      assert a + b == b;
    } else {
      RunAppend(Apply(s, a[0]), a[1..], b);
      assert (a + b)[0] == a[0] && (a + b)[1..] == a[1..] + b;
    }
  }

  lemma {:induction false} CountFirst(ws: seq<Worker>, k: nat)
    requires k <= |ws| && (forall t :: 0 <= t < k ==> ws[t].pc.Calling?)
    requires forall t :: k <= t < |ws| ==> ws[t].pc.Unborn?
    ensures Count(ws, InCall) == k
    decreases |ws|
  {
    if ws != [] { CountFirst(ws[1..], if k > 0 then k - 1 else 0); }
  }

  /** Nothing but the two bounds keeps calls waiting: as many as there are workers, and no more than 64, can be
      under way together. */
  lemma {:induction false} Saturates(queues: seq<seq<nat>>, m: nat) returns (steps: seq<Step>)
    requires m <= |Begin(queues).workers| && m <= 64
    ensures Legal(Begin(queues), steps) && Working(Run(Begin(queues), steps), queues, m)
    ensures Count(Run(Begin(queues), steps).workers, InCall) == m
  {
    if m == 0 {
      steps := [];
      WorkersUnborn(queues, 0);
      WorkersAt(queues);
    } else {
      var before := Saturates(queues, m - 1);
      var a := Step(m - 1, false);
      OneMoreCalls(Run(Begin(queues), before), queues, m - 1);
      hide Working, Legal, Run, Count, Workers;
      RunAppend(Begin(queues), before, [a, a, a]);
      steps := before + [a, a, a];
    }
    CountsWorking(Run(Begin(queues), steps), queues, m);
  }

  lemma CountsWorking(s: State, queues: seq<seq<nat>>, m: nat)
    requires Working(s, queues, m)
    ensures Count(s.workers, InCall) == m
  {
    CountFirst(s.workers, m);
  }

  lemma WorkersAt(queues: seq<seq<nat>>)
    ensures Working(Begin(queues), queues, 0)
  {
    WorkersUnborn(queues, 0);
  }
}
