/** The peer-slot model under interleaving: one searcher and one churn driver per
    node, any number of random droppers, one atomic step per lock section and one
    per send or receive on a wake channel (cmd/simnet/conn_model.go,
    cmd/simnet/churn_model.go, the parking code of cmd/simnet/search.go). */
module PeerSlots {
  import opened PeerTable

  /** A node's churn driver: depart and rejoin run in one goroutine, in turn. */
  datatype Driver =
    | Up
    | Departing(dialed: set<nat>, dialers: set<nat>, owes: set<nat>) // still to drop; a send not yet made
    | Away
    | Rejoining                                                      // online again, its own send not yet made

  datatype Searcher =
    | Idle
    | Consuming
    | Deciding    // iterator closed, shouldPark not yet read
    | Parked      // waiting on the wake channel with full slots, or while away
    | LookupEnded // scheduled and continuous models: offline not yet read
    | AwaitRejoin // those models: waiting on the wake channel for the rejoin

  /** `owed` holds the wake sends of random droppers that have released the lock;
      `discarded` counts the losses departures have thrown away. */
  datatype State = State(t: Table, wake: seq<bool>, driver: seq<Driver>, searcher: seq<Searcher>,
                         owed: multiset<nat>, discarded: nat, clock: int)

  datatype Action =
    | Begin(i: nat)
    | TryDial(i: nat, to: Id)
    | StopConsuming(i: nat)
    | Decide(i: nat)
    | Receive(i: nat)
    | EndLookup(i: nat)
    | CheckAway(i: nat)
    | Disconnect(i: nat, j: nat)
    | SendOwed(i: nat)
    | Leave(i: nat)
    | DropDialed(i: nat, j: nat)
    | DropDialer(i: nat, j: nat)
    | DepartSend(i: nat, j: nat)
    | Left(i: nat)
    | Return(i: nat)
    | ReturnSend(i: nat)
    | Tick(d: nat)

  predicate WellShaped(s: State) {
    Shape(s.t) && |s.wake| == |s.t.outN| && |s.driver| == |s.t.outN| && |s.searcher| == |s.t.outN|
  }

  predicate Enabled(s: State, a: Action)
    requires WellShaped(s)
  {
    var n := |s.t.outN|;
    match a
    case Begin(i) => i < n && s.searcher[i] == Idle
    case TryDial(i, _) => i < n && s.searcher[i] == Consuming
    case StopConsuming(i) => i < n && s.searcher[i] == Consuming
    case Decide(i) => i < n && s.searcher[i] == Deciding
    case Receive(i) => i < n && s.searcher[i] in {Parked, AwaitRejoin} && s.wake[i]
    case EndLookup(i) => i < n && s.searcher[i] == Consuming
    case CheckAway(i) => i < n && s.searcher[i] == LookupEnded
    case Disconnect(i, j) => i < n && j < n
    case SendOwed(i) => i < n && i in s.owed
    case Leave(i) => i < n && s.driver[i] == Up
    case DropDialed(i, j) => i < n && s.driver[i].Departing? && s.driver[i].owes == {} && j in s.driver[i].dialed
                             && j < n
    case DropDialer(i, j) => i < n && s.driver[i].Departing? && s.driver[i].owes == {} && s.driver[i].dialed == {}
                             && j in s.driver[i].dialers && j < n
    case DepartSend(i, j) => i < n && s.driver[i].Departing? && j in s.driver[i].owes && j < n
    case Left(i) => i < n && s.driver[i] == Departing({}, {}, {})
    case Return(i) => i < n && s.driver[i] == Away
    case ReturnSend(i) => i < n && s.driver[i] == Rejoining
    case Tick(_) => true
  }

  function Apply(s: State, a: Action): State
    requires WellShaped(s) && Enabled(s, a)
  {
    match a
    case Begin(i) => s.(searcher := s.searcher[i := Consuming])
    case TryDial(i, to) => s.(t := Dial(s.t, i, to, s.clock))
    case StopConsuming(i) => s.(searcher := s.searcher[i := Deciding])
    case Decide(i) => s.(searcher := s.searcher[i := if ShouldPark(s.t, i) then Parked else Idle])
    case Receive(i) =>
      s.(wake := s.wake[i := false],
         searcher := s.searcher[i := if s.searcher[i] == Parked then Consuming else LookupEnded])
    case EndLookup(i) => s.(searcher := s.searcher[i := LookupEnded])
    case CheckAway(i) => s.(searcher := s.searcher[i := if s.t.offline[i] then AwaitRejoin else Consuming])
    case Disconnect(i, j) =>
      s.(t := Drop(s.t, i, j, true, s.clock), owed := if HasEdge(s.t, i, j) then s.owed + multiset{i} else s.owed)
    case SendOwed(i) => s.(wake := s.wake[i := true], owed := s.owed - multiset{i})
    case Leave(i) =>
      s.(t := GoOffline(s.t, i), discarded := s.discarded + |s.t.lostAt[i]|,
         driver := s.driver[i := Departing(s.t.outPeers[i], s.t.peers[i] - s.t.outPeers[i], {})])
    case DropDialed(i, j) =>
      s.(t := Drop(s.t, i, j, false, s.clock),
         driver := s.driver[i := s.driver[i].(dialed := s.driver[i].dialed - {j})])
    case DropDialer(i, j) =>
      s.(t := Drop(s.t, j, i, true, s.clock),
         driver := s.driver[i := s.driver[i].(dialers := s.driver[i].dialers - {j},
                                              owes := if HasEdge(s.t, j, i) then {j} else {})])
    case DepartSend(i, j) =>
      s.(wake := s.wake[j := true], driver := s.driver[i := s.driver[i].(owes := s.driver[i].owes - {j})])
    case Left(i) => s.(driver := s.driver[i := Away])
    case Return(i) => s.(t := GoOnline(s.t, i), driver := s.driver[i := Rejoining])
    case ReturnSend(i) => s.(wake := s.wake[i := true], driver := s.driver[i := Up])
    case Tick(d) => s.(clock := s.clock + d)
  }

  function Init(idxOf: map<Id, nat>, n: nat, maxPeers: int, dialRatio: int): State {
    State(Empty(idxOf, n, maxPeers, dialRatio), seq(n, _ => false), seq(n, _ => Up), seq(n, _ => Idle),
          multiset{}, 0, 0)
  }

  /** `acts` can be taken in order from `s`. */
  predicate Legal(s: State, acts: seq<Action>)
    requires WellShaped(s)
    decreases |acts|
  {
    acts == [] || (Enabled(s, acts[0]) && (ApplyShape(s, acts[0]); Legal(Apply(s, acts[0]), acts[1..])))
  }

  function Run(s: State, acts: seq<Action>): (r: State)
    requires WellShaped(s) && Legal(s, acts)
    ensures WellShaped(r)
    decreases |acts|
  {
    if acts == [] then s else ApplyShape(s, acts[0]); Run(Apply(s, acts[0]), acts[1..])
  }

  lemma ApplyShape(s: State, a: Action)
    requires WellShaped(s) && Enabled(s, a)
    ensures WellShaped(Apply(s, a)) && |Apply(s, a).t.outN| == |s.t.outN|
  {
    match a
    case TryDial(i, to) => DialShape(s.t, i, to, s.clock);
    case Disconnect(i, j) => DropShape(s.t, i, j, true, s.clock);
    case DropDialed(i, j) => DropShape(s.t, i, j, false, s.clock);
    case DropDialer(i, j) => DropShape(s.t, j, i, true, s.clock);
    case _ =>
  }

  lemma DropShape(t: Table, from: nat, to: nat, wakeDialer: bool, now: int)
    requires Shape(t) && from < |t.outN| && to < |t.outN|
    ensures Shape(Drop(t, from, to, wakeDialer, now)) && |Drop(t, from, to, wakeDialer, now).outN| == |t.outN|
  {
  }

  lemma DialShape(t: Table, from: nat, to: Id, now: int)
    requires Shape(t) && from < |t.outN|
    ensures Shape(Dial(t, from, to, now)) && |Dial(t, from, to, now).outN| == |t.outN|
  {
  }

  // ------------------------------------------------------------- the invariant

  /** What the driver's position says about the node: once it has left, every edge it
      still has is in what it is still to drop, and afterwards it has none. */
  ghost predicate DriverOk(s: State, i: nat)
    requires WellShaped(s) && i < |s.t.outN|
  {
    match s.driver[i]
    case Up => !s.t.offline[i]
    case Rejoining => !s.t.offline[i]
    case Departing(dialed, dialers, owes) =>
      && s.t.offline[i] && s.t.outPeers[i] <= dialed && Dialers(s.t.outPeers, i) <= dialers
      && Below(dialed, |s.t.outN|) && Below(dialers, |s.t.outN|) && Below(owes, |s.t.outN|)
    case Away => s.t.offline[i] && s.t.outPeers[i] == {} && Dialers(s.t.outPeers, i) == {}
  }

  ghost predicate Below(nodes: set<nat>, n: nat) {
    forall j :: j in nodes ==> j < n
  }

  ghost predicate OwesTo(s: State, k: nat, i: nat)
    requires WellShaped(s) && k < |s.t.outN|
  {
    s.driver[k].Departing? && i in s.driver[k].owes
  }

  /** Some thread that has released the lock has yet to send to `i`. */
  ghost predicate SendPending(s: State, i: nat)
    requires WellShaped(s) && i < |s.t.outN|
  {
    i in s.owed || s.driver[i] == Rejoining || exists k: nat :: k < |s.t.outN| && OwesTo(s, k, i)
  }

  /** The searcher waits although the node has work for it. */
  predicate Stranded(s: State, i: nat)
    requires WellShaped(s) && i < |s.t.outN|
  {
    !s.t.offline[i] && (s.searcher[i] == AwaitRejoin || (s.searcher[i] == Parked && s.t.outN[i] < s.t.maxOut))
  }

  ghost predicate WakeOk(s: State, i: nat)
    requires WellShaped(s) && i < |s.t.outN|
  {
    Stranded(s, i) ==> s.wake[i] || SendPending(s, i)
  }

  function Pending(lostAt: seq<seq<int>>): nat {
    if lostAt == [] then 0 else |lostAt[0]| + Pending(lostAt[1..])
  }

  /** Every slot lost is refilled, still open, or was thrown away by a departure. */
  predicate LossesConserved(s: State) {
    s.t.stats.losses == s.t.stats.refills + Pending(s.t.lostAt) + s.discarded
  }

  /** Open losses wait oldest first, so no refill latency is negative. */
  ghost predicate LossTimesOk(s: State) {
    (forall i :: 0 <= i < |s.t.lostAt| ==> QueueOk(s.t.lostAt[i], s.clock)) && s.t.stats.refillTotalMs >= 0
  }

  ghost predicate QueueOk(q: seq<int>, clock: int) {
    && (forall x, y :: 0 <= x <= y < |q| ==> q[x] <= q[y])
    && (forall x :: 0 <= x < |q| ==> q[x] <= clock)
  }

  ghost predicate DriversOk(s: State) {
    WellShaped(s) && forall i: nat :: i < |s.t.outN| ==> DriverOk(s, i)
  }

  ghost predicate WakesOk(s: State) {
    WellShaped(s) && forall i: nat :: i < |s.t.outN| ==> WakeOk(s, i)
  }

  ghost predicate Inv(s: State) {
    WellShaped(s) && Consistent(s.t) && DriversOk(s) && WakesOk(s) && LossesConserved(s) && LossTimesOk(s)
  }

  // ------------------------------------------------------ preserved by every step

  lemma InitInv(idxOf: map<Id, nat>, n: nat, maxPeers: int, dialRatio: int)
    requires forall id :: id in idxOf ==> idxOf[id] < n
    ensures Inv(Init(idxOf, n, maxPeers, dialRatio))
  {
    EmptyConsistent(idxOf, n, maxPeers, dialRatio);
    PendingOfEmpty(n);
  }

  lemma PendingOfEmpty(n: nat)
    ensures Pending(seq(n, _ => [])) == 0
  {
    if n > 0 {
      var s: seq<seq<int>> := seq(n, _ => []);
      assert s[1..] == seq(n - 1, _ => []);
      PendingOfEmpty(n - 1);
    }
  }

  lemma {:induction false} PendingUpdate(ls: seq<seq<int>>, i: nat, v: seq<int>)
    requires i < |ls|
    ensures Pending(ls[i := v]) == Pending(ls) - |ls[i]| + |v|
  {
    if i > 0 {
      PendingUpdate(ls[1..], i - 1, v);
      assert ls[i := v][1..] == ls[1..][i - 1 := v];
    } else {
      assert ls[i := v][1..] == ls[1..];
    }
  }

  lemma StepTable(s: State, a: Action)
    requires WellShaped(s) && Consistent(s.t) && Enabled(s, a)
    ensures Consistent(Apply(s, a).t)
  {
    match a
    case TryDial(i, to) => DialKeeps(s.t, i, to, s.clock);
    case Disconnect(i, j) => DropKeeps(s.t, i, j, true, s.clock);
    case DropDialed(i, j) => DropKeeps(s.t, i, j, false, s.clock);
    case DropDialer(i, j) => DropKeeps(s.t, j, i, true, s.clock);
    case Leave(i) => GoOfflineKeeps(s.t, i);
    case Return(i) => assert Consistent(GoOnline(s.t, i));
    case _ =>
  }

  lemma StepLosses(s: State, a: Action)
    requires WellShaped(s) && Enabled(s, a) && LossesConserved(s)
    ensures LossesConserved(Apply(s, a))
  {
    match a
    case TryDial(i, to) => if s.t.lostAt[i] != [] { PendingUpdate(s.t.lostAt, i, s.t.lostAt[i][1..]); }
    case Disconnect(i, j) => PendingUpdate(s.t.lostAt, i, s.t.lostAt[i] + [s.clock]);
    case DropDialer(i, j) => PendingUpdate(s.t.lostAt, j, s.t.lostAt[j] + [s.clock]);
    case Leave(i) => PendingUpdate(s.t.lostAt, i, []);
    case _ =>
  }

  lemma QueueLater(q: seq<int>, clock: int, later: int)
    requires QueueOk(q, clock) && clock <= later
    ensures QueueOk(q, later) && QueueOk(q + [later], later) && QueueOk([], later)
    ensures q != [] ==> QueueOk(q[1..], later) && Millis(later - q[0]) >= 0
  {
  }

  lemma StepLossTimes(s: State, a: Action)
    requires WellShaped(s) && Enabled(s, a) && LossTimesOk(s)
    ensures LossTimesOk(Apply(s, a))
  {
    hide QueueOk, Millis, DialResult;
    var s' := Apply(s, a);
    forall i | 0 <= i < |s.t.lostAt|
      ensures QueueOk(s.t.lostAt[i], s'.clock) && QueueOk(s.t.lostAt[i] + [s'.clock], s'.clock) && QueueOk([], s'.clock)
      ensures s.t.lostAt[i] != [] ==> QueueOk(s.t.lostAt[i][1..], s'.clock) && Millis(s'.clock - s.t.lostAt[i][0]) >= 0
    {
      QueueLater(s.t.lostAt[i], s.clock, s'.clock);
    }
  }

  /** Dropping an edge never adds one. */
  lemma DropShrinks(t: Table, from: nat, to: nat, wakeDialer: bool, now: int, k: nat)
    requires Shape(t) && from < |t.outN| && to < |t.outN| && k < |t.outN|
    ensures var t' := Drop(t, from, to, wakeDialer, now);
            t'.offline == t.offline && t'.outPeers[k] <= t.outPeers[k] && to !in t'.outPeers[from]
            && Dialers(t'.outPeers, k) <= Dialers(t.outPeers, k)
  {
  }

  /** A dial touches no edge of a node that is offline. */
  lemma DialSparesOffline(t: Table, from: nat, to: Id, now: int, k: nat)
    requires Shape(t) && from < |t.outN| && k < |t.outN| && t.offline[k]
    ensures var t' := Dial(t, from, to, now);
            t'.offline == t.offline && t'.outPeers[k] == t.outPeers[k]
            && Dialers(t'.outPeers, k) == Dialers(t.outPeers, k)
  {
    var t' := Dial(t, from, to, now);
    if DialResult(t, from, to) == Connected {
      DialersAfterAdd(t.outPeers, from, t.idxOf[to], k);
    }
  }

  lemma StepDriver(s: State, a: Action, k: nat)
    requires WellShaped(s) && Enabled(s, a) && k < |s.t.outN| && DriverOk(s, k)
    requires SimpleGraph(s.t)
    requires forall i: nat :: i < |s.t.outN| ==> s.t.peers[i] - s.t.outPeers[i] == Dialers(s.t.outPeers, i)
    ensures WellShaped(Apply(s, a)) && DriverOk(Apply(s, a), k)
  {
    ApplyShape(s, a);
    match a
    case TryDial(i, to) =>
      DialOffline(s.t, i, to, s.clock);
      if s.t.offline[k] { DialSparesOffline(s.t, i, to, s.clock, k); }
      ShrunkDriver(s, Apply(s, a), k);
    case Disconnect(i, j) =>
      DropShrinks(s.t, i, j, true, s.clock, k);
      ShrunkDriver(s, Apply(s, a), k);
    case DropDialed(i, j) => DropDialedDriver(s, i, j, k);
    case DropDialer(i, j) => DropDialerDriver(s, i, j, k);
    case Leave(i) => LeaveDriver(s, i, k);
    case Left(i) => LeftDriver(s, i, k);
    case Return(i) => ReturnDriver(s, i, k);
    case DepartSend(i, j) => DepartSendDriver(s, i, j, k);
    case ReturnSend(i) => ReturnSendDriver(s, i, k);
    case _ => UntouchedDriver(s, Apply(s, a), k);
  }

  lemma DialOffline(t: Table, from: nat, to: Id, now: int)
    requires Shape(t) && from < |t.outN|
    ensures Dial(t, from, to, now).offline == t.offline
  {
  }

  /** Fewer edges, and the driver where it was. */
  lemma ShrunkDriver(s: State, s': State, k: nat)
    requires WellShaped(s) && WellShaped(s') && |s'.t.outN| == |s.t.outN| && k < |s.t.outN| && DriverOk(s, k)
    requires s'.t.offline == s.t.offline && s'.driver[k] == s.driver[k]
    requires s.t.offline[k] ==>
               s'.t.outPeers[k] <= s.t.outPeers[k] && Dialers(s'.t.outPeers, k) <= Dialers(s.t.outPeers, k)
    ensures DriverOk(s', k)
  {
    hide Dialers;
  }

  lemma DropDialedDriver(s: State, i: nat, j: nat, k: nat)
    requires WellShaped(s) && Enabled(s, DropDialed(i, j)) && k < |s.t.outN| && DriverOk(s, k)
    requires WellShaped(Apply(s, DropDialed(i, j)))
    ensures DriverOk(Apply(s, DropDialed(i, j)), k)
  {
    hide Dialers;
    DropShrinks(s.t, i, j, false, s.clock, k);
    if k != i { ShrunkDriver(s, Apply(s, DropDialed(i, j)), k); }
  }

  lemma DropDialerDriver(s: State, i: nat, j: nat, k: nat)
    requires WellShaped(s) && Enabled(s, DropDialer(i, j)) && k < |s.t.outN| && DriverOk(s, k)
    requires WellShaped(Apply(s, DropDialer(i, j)))
    ensures DriverOk(Apply(s, DropDialer(i, j)), k)
  {
    DropShrinks(s.t, j, i, true, s.clock, k);
    if k != i { ShrunkDriver(s, Apply(s, DropDialer(i, j)), k); }
  }

  lemma UntouchedDriver(s: State, s': State, k: nat)
    requires WellShaped(s) && WellShaped(s') && k < |s.t.outN| && DriverOk(s, k) && s'.t == s.t
    requires s'.driver[k] == s.driver[k]
    ensures DriverOk(s', k)
  {
  }

  lemma LeftDriver(s: State, i: nat, k: nat)
    requires WellShaped(s) && Enabled(s, Left(i)) && k < |s.t.outN| && DriverOk(s, k) && WellShaped(Apply(s, Left(i)))
    ensures DriverOk(Apply(s, Left(i)), k)
  {
    if k != i { UntouchedDriver(s, Apply(s, Left(i)), k); }
  }

  lemma ReturnDriver(s: State, i: nat, k: nat)
    requires WellShaped(s) && Enabled(s, Return(i)) && k < |s.t.outN| && DriverOk(s, k)
    requires WellShaped(Apply(s, Return(i)))
    ensures DriverOk(Apply(s, Return(i)), k)
  {
  }

  lemma DepartSendDriver(s: State, i: nat, j: nat, k: nat)
    requires WellShaped(s) && Enabled(s, DepartSend(i, j)) && k < |s.t.outN| && DriverOk(s, k)
    requires WellShaped(Apply(s, DepartSend(i, j)))
    ensures DriverOk(Apply(s, DepartSend(i, j)), k)
  {
    if k != i { UntouchedDriver(s, Apply(s, DepartSend(i, j)), k); }
  }

  lemma ReturnSendDriver(s: State, i: nat, k: nat)
    requires WellShaped(s) && Enabled(s, ReturnSend(i)) && k < |s.t.outN| && DriverOk(s, k)
    requires WellShaped(Apply(s, ReturnSend(i)))
    ensures DriverOk(Apply(s, ReturnSend(i)), k)
  {
    if k != i { UntouchedDriver(s, Apply(s, ReturnSend(i)), k); }
  }

  /** What a departure is to drop is all its node has. */
  lemma LeaveDriver(s: State, i: nat, k: nat)
    requires WellShaped(s) && Enabled(s, Leave(i)) && k < |s.t.outN| && DriverOk(s, k)
    requires SimpleGraph(s.t) && s.t.peers[i] - s.t.outPeers[i] == Dialers(s.t.outPeers, i)
    ensures WellShaped(Apply(s, Leave(i))) && DriverOk(Apply(s, Leave(i)), k)
  {
    ApplyShape(s, Leave(i));
    if k == i {
      assert Below(s.t.outPeers[i], |s.t.outN|) && Below(Dialers(s.t.outPeers, i), |s.t.outN|);
    }
  }

  lemma StepWake(s: State, a: Action, k: nat)
    requires Inv(s) && Enabled(s, a) && k < |s.t.outN|
    ensures WellShaped(Apply(s, a)) && WakeOk(Apply(s, a), k)
  {
    var s' := Apply(s, a);
    ApplyShape(s, a);
    if Stranded(s', k) && !s'.wake[k] {
      assert DriverOk(s, k) && WakeOk(s, k);
      if Stranded(s, k) && !s.wake[k] {
        StepKeepsPending(s, a, k);
      } else {
        StepStrands(s, a, k);
      }
    }
  }

  /** A pending send stays pending until it puts the token in the channel. */
  lemma StepKeepsPending(s: State, a: Action, k: nat)
    requires WellShaped(s) && Enabled(s, a) && k < |s.t.outN| && SendPending(s, k)
    ensures WellShaped(Apply(s, a)) && (Apply(s, a).wake[k] || SendPending(Apply(s, a), k))
  {
    var s' := Apply(s, a);
    ApplyShape(s, a);
    if !(k in s.owed) && s.driver[k] != Rejoining {
      var d: nat :| d < |s.t.outN| && OwesTo(s, d, k);
      assert s'.wake[k] || OwesTo(s', d, k);
    }
  }

  /** Only a waking drop or a rejoin can leave a waiting searcher with work, and both owe a send. */
  lemma StepStrands(s: State, a: Action, k: nat)
    requires WellShaped(s) && Enabled(s, a) && k < |s.t.outN| && DriverOk(s, k)
    requires !Stranded(s, k) || s.wake[k]
    requires WellShaped(Apply(s, a)) && Stranded(Apply(s, a), k) && !Apply(s, a).wake[k]
    ensures SendPending(Apply(s, a), k)
  {
    hide Drop, Dial, Dialers, Below, Consistent;
    match a
    case TryDial(i, to) => DialFillsSlots(s.t, i, to, s.clock, k);
    case Disconnect(i, j) => DropFreesSlot(s.t, i, j, true, s.clock, k);
    case DropDialed(i, j) => DropFreesSlot(s.t, i, j, false, s.clock, k);
    case DropDialer(i, j) =>
      DropFreesSlot(s.t, j, i, true, s.clock, k);
      if j == k && HasEdge(s.t, j, i) { assert OwesTo(Apply(s, a), i, k); }
    case _ =>
  }

  /** Only a drop of a node's own dial gives it a slot. */
  lemma DropFreesSlot(t: Table, from: nat, to: nat, wakeDialer: bool, now: int, k: nat)
    requires Shape(t) && from < |t.outN| && to < |t.outN| && k < |t.outN|
    ensures var t' := Drop(t, from, to, wakeDialer, now);
            |t'.outN| == |t.outN| && t'.maxOut == t.maxOut && t'.offline == t.offline
            && t'.outN[k] == t.outN[k] - if k == from && HasEdge(t, from, to) then 1 else 0
  {
  }

  lemma DialFillsSlots(t: Table, from: nat, to: Id, now: int, k: nat)
    requires Shape(t) && from < |t.outN| && k < |t.outN|
    ensures var t' := Dial(t, from, to, now);
            |t'.outN| == |t.outN| && t'.maxOut == t.maxOut && t'.offline == t.offline && t'.outN[k] >= t.outN[k]
  {
  }

  lemma StepInv(s: State, a: Action)
    requires Inv(s) && Enabled(s, a)
    ensures Inv(Apply(s, a))
  {
    ApplyShape(s, a);
    StepTable(s, a);
    StepLosses(s, a);
    StepLossTimes(s, a);
    forall i: nat | i < |s.t.outN| ensures s.t.peers[i] - s.t.outPeers[i] == Dialers(s.t.outPeers, i) {
      PeersSplit(s.t, i);
    }
    forall k: nat | k < |s.t.outN| ensures DriverOk(Apply(s, a), k) && WakeOk(Apply(s, a), k) {
      StepDriver(s, a, k);
      StepWake(s, a, k);
    }
  }

  lemma {:induction false} RunInv(s: State, acts: seq<Action>)
    requires Inv(s) && Legal(s, acts)
    ensures Inv(Run(s, acts))
    decreases |acts|
  {
    if acts != [] {
      StepInv(s, acts[0]);
      RunInv(Apply(s, acts[0]), acts[1..]);
    }
  }

  // ------------------------------------------------------------------ theorems

  /** `s` is reached by some interleaving from a fresh table. */
  ghost predicate Reachable(s: State) {
    exists idxOf: map<Id, nat>, n: nat, maxPeers: int, dialRatio: int, acts: seq<Action> ::
      ReachedBy(s, idxOf, n, maxPeers, dialRatio, acts)
  }

  ghost predicate ReachedBy(s: State, idxOf: map<Id, nat>, n: nat, maxPeers: int, dialRatio: int, acts: seq<Action>) {
    && (forall id :: id in idxOf ==> idxOf[id] < n)
    && Legal(Init(idxOf, n, maxPeers, dialRatio), acts)
    && s == Run(Init(idxOf, n, maxPeers, dialRatio), acts)
  }

  lemma ReachableInv(s: State)
    requires Reachable(s)
    ensures Inv(s)
  {
    var idxOf: map<Id, nat>, n: nat, maxPeers: int, dialRatio: int, acts: seq<Action> :|
      ReachedBy(s, idxOf, n, maxPeers, dialRatio, acts);
    InitInv(idxOf, n, maxPeers, dialRatio);
    RunInv(Init(idxOf, n, maxPeers, dialRatio), acts);
  }

  /** A searcher that waits although its node is online with a free outbound slot has a
      token to take, or takes it after one send that some thread is already bound to make. */
  lemma NoLostWakeup(s: State, i: nat) returns (sends: seq<Action>)
    requires Reachable(s) && WellShaped(s) && i < |s.t.outN| && Stranded(s, i)
    ensures |sends| <= 1 && (forall a :: a in sends ==> a.SendOwed? || a.DepartSend? || a.ReturnSend?)
    ensures |sends| == 0 || (SendPending(s, i) && !s.wake[i])
    ensures Legal(s, sends) && Enabled(Run(s, sends), Receive(i))
    ensures Run(s, sends).t == s.t && Run(s, sends).searcher == s.searcher
  {
    assert WakeOk(s, i) by {
      ReachableInv(s);
      assert Inv(s);
    }
    if s.wake[i] {
      sends := [];
    } else {
      var a := OwedSend(s, i);
      sends := [a];
      RunOne(s, a);
    }
  }

  /** The send that is owed can be made, and puts the token in the channel. */
  lemma OwedSend(s: State, i: nat) returns (a: Action)
    requires WellShaped(s) && i < |s.t.outN| && SendPending(s, i)
    ensures (a.SendOwed? || a.DepartSend? || a.ReturnSend?) && Enabled(s, a) && WellShaped(Apply(s, a))
    ensures Apply(s, a).t == s.t && Apply(s, a).searcher == s.searcher && Apply(s, a).wake[i]
  {
    if i in s.owed {
      a := SendOwed(i);
    } else if s.driver[i] == Rejoining {
      a := ReturnSend(i);
    } else {
      var k: nat :| k < |s.t.outN| && OwesTo(s, k, i);
      a := DepartSend(k, i);
    }
  }

  lemma RunCons(s: State, a: Action, rest: seq<Action>)
    requires WellShaped(s) && Enabled(s, a) && WellShaped(Apply(s, a)) && Legal(Apply(s, a), rest)
    ensures Legal(s, [a] + rest) && Run(s, [a] + rest) == Run(Apply(s, a), rest)
  {
    hide Apply, Enabled;
    var acts := [a] + rest;
    assert acts[0] == a && acts[1..] == rest;
  }

  lemma RunOne(s: State, a: Action)
    requires WellShaped(s) && Enabled(s, a) && WellShaped(Apply(s, a))
    ensures Legal(s, [a]) && Run(s, [a]) == Apply(s, a)
  {
    hide Apply, Enabled;
    RunCons(s, a, []);
    assert [a] + [] == [a];
  }

  /** When depart returns, whatever ran between its snapshot and its drops, the node is isolated. */
  lemma DepartComplete(s: State, i: nat)
    requires Reachable(s) && WellShaped(s) && Enabled(s, Left(i))
    ensures s.t.offline[i] && s.t.peers[i] == {} && s.t.outPeers[i] == {} && s.t.outN[i] == 0 && s.t.inN[i] == 0
  {
    ReachableInv(s);
    assert DriverOk(s, i);
    PeersSplit(s.t, i);
    assert s.t.peers[i] == (s.t.peers[i] - s.t.outPeers[i]) + s.t.peers[i] * s.t.outPeers[i];
  }

  /** ... and stays isolated through any further interleaving that does not bring it back. */
  lemma {:induction false} IsolatedUntilReturn(s: State, acts: seq<Action>, i: nat)
    requires Inv(s) && i < |s.t.outN| && s.driver[i] == Away
    requires Legal(s, acts) && Return(i) !in acts
    ensures var r := Run(s, acts);
            |r.t.outN| == |s.t.outN| && r.driver[i] == Away && r.t.offline[i]
            && r.t.peers[i] == {} && r.t.outN[i] == 0 && r.t.inN[i] == 0
    decreases |acts|
  {
    if acts == [] {
      assert DriverOk(s, i);
      PeersSplit(s.t, i);
      assert s.t.peers[i] == (s.t.peers[i] - s.t.outPeers[i]) + s.t.peers[i] * s.t.outPeers[i];
    } else {
      StepInv(s, acts[0]);
      ApplyShape(s, acts[0]);
      IsolatedUntilReturn(Apply(s, acts[0]), acts[1..], i);
    }
  }

  /** What a departing driver still has to do; nobody else's step changes it. */
  function DepartWork(d: Driver): nat {
    if d.Departing? then 2 * (|d.dialed| + |d.dialers|) + |d.owes| + 1 else 0
  }

  /** A departure never blocks: one of its own steps is always enabled and brings it nearer its end. */
  lemma DepartProgress(s: State, i: nat) returns (a: Action)
    requires Reachable(s) && WellShaped(s) && i < |s.t.outN| && s.driver[i].Departing?
    ensures Enabled(s, a) && |Apply(s, a).driver| == |s.driver|
    ensures DepartWork(Apply(s, a).driver[i]) < DepartWork(s.driver[i])
  {
    ReachableInv(s);
    assert DriverOk(s, i);
    var d := s.driver[i];
    if d.owes != {} {
      var j :| j in d.owes;
      a := DepartSend(i, j);
    } else if d.dialed != {} {
      var j :| j in d.dialed;
      a := DropDialed(i, j);
    } else if d.dialers != {} {
      var j :| j in d.dialers;
      a := DropDialer(i, j);
    } else {
      a := Left(i);
    }
  }

  /** Every reachable table: the redundant views agree, the slots hold, the losses add up. */
  lemma TableTrustworthy(s: State, i: nat, j: nat)
    requires Reachable(s) && WellShaped(s) && i < |s.t.outN| && j < |s.t.outN|
    ensures s.t.outN[i] == |s.t.outPeers[i]| && s.t.inN[i] == |Dialers(s.t.outPeers, i)|
    ensures j in s.t.peers[i] <==> i in s.t.peers[j]
    ensures j in s.t.peers[i] <==> (j in s.t.outPeers[i] || i in s.t.outPeers[j])
    ensures !(j in s.t.outPeers[i] && i in s.t.outPeers[j])
    ensures s.t.outN[i] + |s.t.lostAt[i]| <= s.t.maxOut
    ensures s.t.maxIn >= 0 ==> s.t.inN[i] <= s.t.maxIn
    ensures s.t.stats.losses == s.t.stats.refills + Pending(s.t.lostAt) + s.discarded
    ensures s.t.stats.refillTotalMs >= 0
  {
    ReachableInv(s);
  }

  // ------------------------------------------------- free slots can be filled

  /** `to` names another node that has no edge with `i` and would take one. */
  predicate Candidate(t: Table, i: nat, to: Id)
    requires Shape(t) && i < |t.outN|
  {
    && to in t.idxOf && t.idxOf[to] != i && MayAccept(t, t.idxOf[to])
    && t.idxOf[to] !in t.outPeers[i] && i !in t.outPeers[t.idxOf[to]]
  }

  /** Candidates, no node under two names. */
  ghost predicate Candidates(t: Table, i: nat, targets: seq<Id>)
    requires Shape(t) && i < |t.outN|
  {
    && (forall k :: 0 <= k < |targets| ==> Candidate(t, i, targets[k]))
    && (forall k, l :: 0 <= k < l < |targets| ==> t.idxOf[targets[k]] != t.idxOf[targets[l]])
  }

  /** A searcher with a free slot that has found a candidate has it as a peer after one step of its own. */
  lemma DialReaches(s: State, i: nat, to: Id)
    requires Inv(s) && i < |s.t.outN| && s.searcher[i] == Consuming && !s.t.offline[i] && s.t.outN[i] < s.t.maxOut
    requires Candidate(s.t, i, to)
    ensures Enabled(s, TryDial(i, to)) && Inv(Apply(s, TryDial(i, to)))
    ensures var r := Apply(s, TryDial(i, to));
            && r.t.outPeers == s.t.outPeers[i := s.t.outPeers[i] + {s.t.idxOf[to]}]
            && r.t.outN[i] == s.t.outN[i] + 1 && r.t.idxOf == s.t.idxOf && r.t.offline == s.t.offline
            && r.t.maxOut == s.t.maxOut && r.t.maxIn == s.t.maxIn && r.searcher == s.searcher
            && |r.t.outN| == |s.t.outN|
  {
    var r := Apply(s, TryDial(i, to));
    StepInv(s, TryDial(i, to));
    ApplyShape(s, TryDial(i, to));
    DialMeans(s.t, i, to, s.clock);
    DialFields(s.t, i, to);
    DialFields(r.t, i, to);
    hide Inv, Dial, MayAccept, DialCounted;
  }

  /** One dial leaves the other candidates as they were. */
  lemma CandidatesLeft(s: State, i: nat, targets: seq<Id>)
    requires Inv(s) && i < |s.t.outN| && s.searcher[i] == Consuming && !s.t.offline[i] && s.t.outN[i] < s.t.maxOut
    requires targets != [] && Candidates(s.t, i, targets)
    ensures Inv(Apply(s, TryDial(i, targets[0]))) && i < |Apply(s, TryDial(i, targets[0])).t.outN|
    ensures Candidates(Apply(s, TryDial(i, targets[0])).t, i, targets[1..])
  {
    DialReaches(s, i, targets[0]);
    CandidatesStay(s.t, Apply(s, TryDial(i, targets[0])).t, i, s.t.idxOf[targets[0]], targets);
  }

  lemma CandidatesStay(t: Table, t': Table, i: nat, j: nat, targets: seq<Id>)
    requires Shape(t) && i < |t.outN| && Shape(t') && i < |t'.outN| && targets != [] && Candidates(t, i, targets)
    requires j == t.idxOf[targets[0]] && t'.outPeers == t.outPeers[i := t.outPeers[i] + {j}]
    requires t'.idxOf == t.idxOf && t'.offline == t.offline && t'.maxIn == t.maxIn
    ensures Candidates(t', i, targets[1..])
  {
    hide Dialers;
    forall k | 0 <= k < |targets[1..]| ensures Candidate(t', i, targets[1..][k]) {
      assert targets[1..][k] == targets[k + 1] && Candidate(t, i, targets[k + 1]);
      DialersAfterAdd(t.outPeers, i, j, t.idxOf[targets[k + 1]]);
    }
  }

  function Dials(i: nat, targets: seq<Id>): seq<Action> {
    if targets == [] then [] else [TryDial(i, targets[0])] + Dials(i, targets[1..])
  }

  /** ... so with as many candidates as free slots it fills them all, by dialing them in turn. */
  lemma {:induction false} FillsUp(s: State, i: nat, targets: seq<Id>)
    requires Inv(s) && i < |s.t.outN| && s.searcher[i] == Consuming && !s.t.offline[i]
    requires s.t.outN[i] + |targets| == s.t.maxOut && Candidates(s.t, i, targets)
    ensures Legal(s, Dials(i, targets))
    ensures var r := Run(s, Dials(i, targets)); i < |r.t.outN| && r.t.outN[i] == r.t.maxOut == s.t.maxOut
    decreases |targets|
  {
    if targets != [] {
      var a := TryDial(i, targets[0]);
      DialReaches(s, i, targets[0]);
      CandidatesLeft(s, i, targets);
      hide Inv, Apply, Enabled, Candidates, Candidate, Legal, Run;
      FillsUp(Apply(s, a), i, targets[1..]);
      assert WellShaped(s) && WellShaped(Apply(s, a)) by { ApplyShape(s, a); }
      RunCons(s, a, Dials(i, targets[1..]));
    }
  }

  lemma {:induction false} RunAppend(s: State, a: seq<Action>, b: seq<Action>)
    requires WellShaped(s) && Legal(s, a) && Legal(Run(s, a), b)
    ensures Legal(s, a + b) && Run(s, a + b) == Run(Run(s, a), b)
    decreases |a|
  {
    hide Apply, Enabled;
    if a == [] {
      assert a + b == b;
    } else {
      ApplyShape(s, a[0]);
      RunAppend(Apply(s, a[0]), a[1..], b);
      RunCons(s, a[0], a[1..] + b);
      assert [a[0]] + (a[1..] + b) == a + b;
    }
  }

  /** Wherever its searcher is, a node that is online with a free slot gets back to dialing: by its own steps,
      after at most one send already owed to it. */
  lemma GetsBackToDialing(s: State, i: nat) returns (acts: seq<Action>)
    requires Reachable(s) && WellShaped(s) && i < |s.t.outN| && !s.t.offline[i] && s.t.outN[i] < s.t.maxOut
    ensures forall a :: a in acts ==>
              a.SendOwed? || a.DepartSend? || a.ReturnSend? || a in {Begin(i), Decide(i), Receive(i), CheckAway(i)}
    ensures Legal(s, acts) && Run(s, acts).t == s.t && Run(s, acts).searcher == s.searcher[i := Consuming]
  {
    hide Reachable, Legal, Run;
    match s.searcher[i]
    case Consuming =>
      acts := [];
      NoSteps(s);
      assert s.searcher[i := Consuming] == s.searcher;
    case Idle =>
      acts := [Begin(i)];
      RunOne(s, Begin(i));
    case Deciding =>
      acts := [Decide(i), Begin(i)];
      RunTwo(s, Decide(i), Begin(i));
    case LookupEnded =>
      acts := [CheckAway(i)];
      RunOne(s, CheckAway(i));
    case Parked =>
      acts := Woken(s, i);
    case AwaitRejoin =>
      acts := Woken(s, i);
  }

  lemma NoSteps(s: State)
    requires WellShaped(s)
    ensures Legal(s, []) && Run(s, []) == s
  {
  }

  /** A waiting searcher with work takes its token and goes on. */
  lemma Woken(s: State, i: nat) returns (acts: seq<Action>)
    requires Reachable(s) && WellShaped(s) && i < |s.t.outN| && Stranded(s, i)
    ensures forall a :: a in acts ==> a.SendOwed? || a.DepartSend? || a.ReturnSend? || a in {Receive(i), CheckAway(i)}
    ensures Legal(s, acts) && Run(s, acts).t == s.t && Run(s, acts).searcher == s.searcher[i := Consuming]
  {
    var sends := NoLostWakeup(s, i);
    var r := Run(s, sends);
    hide Reachable, Legal, Run;
    if s.searcher[i] == Parked {
      RunOne(r, Receive(i));
      acts := sends + [Receive(i)];
      RunAppend(s, sends, [Receive(i)]);
    } else {
      RunTwo(r, Receive(i), CheckAway(i));
      acts := sends + [Receive(i), CheckAway(i)];
      RunAppend(s, sends, [Receive(i), CheckAway(i)]);
    }
  }

  lemma ReachesOn(s: State, acts: seq<Action>)
    requires Reachable(s) && WellShaped(s) && Legal(s, acts)
    ensures Reachable(Run(s, acts))
  {
    var idxOf: map<Id, nat>, n: nat, maxPeers: int, dialRatio: int, before: seq<Action> :|
      ReachedBy(s, idxOf, n, maxPeers, dialRatio, before);
    RunAppend(Init(idxOf, n, maxPeers, dialRatio), before, acts);
    assert ReachedBy(Run(s, acts), idxOf, n, maxPeers, dialRatio, before + acts);
  }

  /** In every reachable state, an online node with as many candidates as free slots can fill its slots,
      whatever its searcher is doing: nothing but its own steps and at most one owed send is needed. */
  lemma SlotsCanFill(s: State, i: nat, targets: seq<Id>) returns (acts: seq<Action>)
    requires Reachable(s) && WellShaped(s) && i < |s.t.outN| && !s.t.offline[i]
    requires s.t.outN[i] + |targets| == s.t.maxOut && Candidates(s.t, i, targets)
    ensures Legal(s, acts)
    ensures var r := Run(s, acts); i < |r.t.outN| && r.t.outN[i] == r.t.maxOut == s.t.maxOut
  {
    if targets == [] {
      acts := [];
    } else {
      var before := GetsBackToDialing(s, i);
      var s' := Run(s, before);
      ReachesOn(s, before);
      ReachableInv(s');
      hide Reachable, Inv, Legal, Run, Candidates;
      FillsUp(s', i, targets);
      acts := before + Dials(i, targets);
      RunAppend(s, before, Dials(i, targets));
    }
  }

  /** A node that is away can come back: it is then online, with a token for its searcher. */
  lemma CanReturn(s: State, i: nat)
    requires WellShaped(s) && i < |s.t.outN| && s.driver[i] == Away
    ensures Legal(s, [Return(i), ReturnSend(i)])
    ensures var r := Run(s, [Return(i), ReturnSend(i)]);
            && r.driver == s.driver[i := Up] && r.t == s.t.(offline := s.t.offline[i := false])
            && r.wake == s.wake[i := true]
  {
    ApplyShape(s, Return(i));
    RunTwo(s, Return(i), ReturnSend(i));
  }

  /** A searcher parks after its iterator exactly when it has nothing to do: the node is away, or it has
      dialed as many as it may; and waits for the rejoin exactly when the node is away. */
  lemma WaitsExactlyWithoutWork(s: State, i: nat)
    requires Inv(s) && i < |s.t.outN|
    ensures s.searcher[i] == Deciding ==>
              && Enabled(s, Decide(i)) && Apply(s, Decide(i)).t == s.t
              && (Apply(s, Decide(i)).searcher[i] == Parked <==>
                    s.t.offline[i] || |s.t.outPeers[i]| == s.t.maxOut)
              && Apply(s, Decide(i)).searcher[i] in {Parked, Idle}
    ensures s.searcher[i] == LookupEnded ==>
              && Enabled(s, CheckAway(i)) && Apply(s, CheckAway(i)).t == s.t
              && (Apply(s, CheckAway(i)).searcher[i] == AwaitRejoin <==> s.t.offline[i])
              && Apply(s, CheckAway(i)).searcher[i] in {AwaitRejoin, Consuming}
  {
    assert s.t.outN[i] == |s.t.outPeers[i]| <= s.t.maxOut;
  }

  // ------------------------------------------------------ what a run counts

  function Edges(outPeers: seq<set<nat>>): nat {
    if outPeers == [] then 0 else |outPeers[0]| + Edges(outPeers[1..])
  }

  lemma {:induction false} EdgesUpdate(es: seq<set<nat>>, i: nat, v: set<nat>)
    requires i < |es|
    ensures Edges(es[i := v]) == Edges(es) - |es[i]| + |v|
  {
    if i > 0 {
      EdgesUpdate(es[1..], i - 1, v);
      assert es[i := v][1..] == es[1..][i - 1 := v];
    } else {
      assert es[i := v][1..] == es[1..];
    }
  }

  /** The step is a dial that connects. */
  predicate Connects(s: State, a: Action)
    requires WellShaped(s) && Enabled(s, a)
  {
    a.TryDial? && MayDial(s.t, a.i, a.to) && MayAccept(s.t, s.t.idxOf[a.to])
  }

  function Connections(s: State, acts: seq<Action>): nat
    requires WellShaped(s) && Legal(s, acts)
    decreases |acts|
  {
    if acts == [] then 0 else
      ApplyShape(s, acts[0]);
      (if Connects(s, acts[0]) then 1 else 0) + Connections(Apply(s, acts[0]), acts[1..])
  }

  function Leaves(acts: seq<Action>): nat {
    if acts == [] then 0 else (if acts[0].Leave? then 1 else 0) + Leaves(acts[1..])
  }

  lemma StepAccount(s: State, a: Action)
    requires Inv(s) && Enabled(s, a)
    ensures var s' := Apply(s, a);
            && Edges(s'.t.outPeers) + s'.t.stats.disconnects
               == Edges(s.t.outPeers) + s.t.stats.disconnects + (if Connects(s, a) then 1 else 0)
            && s'.t.stats.departs == s.t.stats.departs + (if a.Leave? then 1 else 0)
  {
    match a
    case TryDial(i, to) =>
      DialMeans(s.t, i, to, s.clock);
      if Connects(s, a) { EdgesUpdate(s.t.outPeers, i, s.t.outPeers[i] + {s.t.idxOf[to]}); }
    case Disconnect(i, j) => DropAccount(s.t, i, j, true, s.clock);
    case DropDialed(i, j) => DropAccount(s.t, i, j, false, s.clock);
    case DropDialer(i, j) => DropAccount(s.t, j, i, true, s.clock);
    case _ =>
  }

  lemma DropAccount(t: Table, from: nat, to: nat, wakeDialer: bool, now: int)
    requires Shape(t) && from < |t.outN| && to < |t.outN|
    ensures var t' := Drop(t, from, to, wakeDialer, now);
            && Edges(t'.outPeers) + t'.stats.disconnects == Edges(t.outPeers) + t.stats.disconnects
            && t'.stats.departs == t.stats.departs
  {
    EdgesUpdate(t.outPeers, from, t.outPeers[from] - {to});
  }

  /** Over every run the edges and the disconnects reported are together the dials that connected, and the
      departures reported are those that were made. */
  lemma {:induction false} EdgesConserved(s: State, acts: seq<Action>)
    requires Inv(s) && Legal(s, acts)
    ensures var r := Run(s, acts);
            && Edges(r.t.outPeers) + r.t.stats.disconnects
               == Edges(s.t.outPeers) + s.t.stats.disconnects + Connections(s, acts)
            && r.t.stats.departs == s.t.stats.departs + Leaves(acts)
    decreases |acts|
  {
    if acts != [] {
      StepAccount(s, acts[0]);
      StepInv(s, acts[0]);
      ApplyShape(s, acts[0]);
      hide Inv, Apply, Enabled, Connects, Edges;
      EdgesConserved(Apply(s, acts[0]), acts[1..]);
    }
  }

  // --------------------------------- "a returning node fills from empty": when it does

  /** The step drops an edge `i` dialed and is not `i`'s own departure. */
  predicate WakingDrop(s: State, a: Action, i: nat) {
    || (a.Disconnect? && a.i == i && HasEdge(s.t, i, a.j))
    || (a.DropDialer? && a.j == i && HasEdge(s.t, i, a.i))
  }

  function WakingDrops(s: State, acts: seq<Action>, i: nat): nat
    requires WellShaped(s) && Legal(s, acts)
    decreases |acts|
  {
    if acts == [] then 0 else
      ApplyShape(s, acts[0]);
      (if WakingDrop(s, acts[0], i) then 1 else 0) + WakingDrops(Apply(s, acts[0]), acts[1..], i)
  }

  lemma LossesWhileAway(s: State, a: Action, i: nat)
    requires WellShaped(s) && i < |s.t.outN| && s.t.offline[i] && DriverOk(s, i)
    requires Enabled(s, a) && a != Return(i)
    ensures WellShaped(Apply(s, a)) && Apply(s, a).t.offline[i]
    ensures |Apply(s, a).t.lostAt[i]| == |s.t.lostAt[i]| + if WakingDrop(s, a, i) then 1 else 0
  {
    ApplyShape(s, a);
    match a
    case TryDial(k, to) => DialLosses(s.t, k, to, s.clock, i);
    case Disconnect(k, j) => DropLosses(s.t, k, j, true, s.clock, i);
    case DropDialed(k, j) => DropLosses(s.t, k, j, false, s.clock, i);
    case DropDialer(k, j) => DropLosses(s.t, j, k, true, s.clock, i);
    case _ =>
  }

  lemma DropLosses(t: Table, from: nat, to: nat, wakeDialer: bool, now: int, i: nat)
    requires Shape(t) && from < |t.outN| && to < |t.outN| && i < |t.outN|
    ensures var t' := Drop(t, from, to, wakeDialer, now);
            t'.offline == t.offline && |t'.lostAt| == |t.lostAt|
            && |t'.lostAt[i]| == |t.lostAt[i]| + if from == i && wakeDialer && HasEdge(t, from, to) then 1 else 0
  {
  }

  lemma DialLosses(t: Table, from: nat, to: Id, now: int, i: nat)
    requires Shape(t) && from < |t.outN| && i < |t.outN| && t.offline[i]
    ensures var t' := Dial(t, from, to, now);
            t'.offline == t.offline && |t'.lostAt| == |t.lostAt| && t'.lostAt[i] == t.lostAt[i]
  {
  }

  /** depart clears the open losses so that a returning node does not count its first dials
      as refills (conn_model.go:368). That holds exactly when no other thread drops one of
      the node's own dials between the snapshot and the return. */
  lemma {:induction false} ReturnsWithEmptyQueue(s: State, acts: seq<Action>, i: nat)
    requires Inv(s) && i < |s.t.outN| && s.t.offline[i]
    requires Legal(s, acts) && Return(i) !in acts
    ensures |Run(s, acts).t.outN| == |s.t.outN|
    ensures |Run(s, acts).t.lostAt[i]| == |s.t.lostAt[i]| + WakingDrops(s, acts, i)
    ensures s.t.lostAt[i] == [] ==> (Run(s, acts).t.lostAt[i] == [] <==> WakingDrops(s, acts, i) == 0)
    decreases |acts|
  {
    if acts != [] {
      StepInv(s, acts[0]);
      ApplyShape(s, acts[0]);
      assert DriverOk(s, i);
      LossesWhileAway(s, acts[0], i);
      ReturnsWithEmptyQueue(Apply(s, acts[0]), acts[1..], i);
    }
  }

  /** And it does fail: from any state in which an online node has dialed another, let it
      leave and let a random drop take that edge before the departure reaches it; the node
      is then away with an open loss, which its first dial after the return will refill. */
  lemma LeavesWithStaleLoss(s: State, i: nat, j: nat)
    requires Inv(s) && i < |s.t.outN| && s.driver[i] == Up && j in s.t.outPeers[i]
    ensures Legal(s, [Leave(i), Disconnect(i, j)])
    ensures var r := Run(s, [Leave(i), Disconnect(i, j)]);
            |r.t.outN| == |s.t.outN| && r.t.offline[i] && r.t.lostAt[i] == [s.clock]
  {
    assert j < |s.t.outN|;
    ApplyShape(s, Leave(i));
    RunTwo(s, Leave(i), Disconnect(i, j));
  }

  lemma RunTwo(s: State, a: Action, b: Action)
    requires WellShaped(s) && Enabled(s, a) && WellShaped(Apply(s, a)) && Enabled(Apply(s, a), b)
    ensures Legal(s, [a, b]) && Run(s, [a, b]) == Apply(Apply(s, a), b)
  {
    ApplyShape(Apply(s, a), b);
    hide Apply, Enabled, Legal, Run;
    RunOne(Apply(s, a), b);
    RunCons(s, a, [b]);
    assert [a] + [b] == [a, b];
  }

  /** While a node is away its own dials only go. */
  lemma NoNewDials(s: State, a: Action, i: nat)
    requires WellShaped(s) && Enabled(s, a) && i < |s.t.outN| && s.t.offline[i] && s.t.outPeers[i] == {}
    requires DriverOk(s, i) && a != Return(i)
    ensures WellShaped(Apply(s, a)) && Apply(s, a).t.offline[i] && Apply(s, a).t.outPeers[i] == {}
    ensures !WakingDrop(s, a, i)
  {
    ApplyShape(s, a);
    match a
    case TryDial(k, to) => DialSparesOffline(s.t, k, to, s.clock, i);
    case Disconnect(k, j) => DropShrinks(s.t, k, j, true, s.clock, i);
    case DropDialed(k, j) => DropShrinks(s.t, k, j, false, s.clock, i);
    case DropDialer(k, j) => DropShrinks(s.t, j, k, true, s.clock, i);
    case _ =>
  }

  lemma {:induction false} NothingToLose(s: State, acts: seq<Action>, i: nat)
    requires Inv(s) && i < |s.t.outN| && s.t.offline[i] && s.t.outPeers[i] == {}
    requires Legal(s, acts) && Return(i) !in acts
    ensures WakingDrops(s, acts, i) == 0
    decreases |acts|
  {
    if acts != [] {
      assert DriverOk(s, i);
      StepInv(s, acts[0]);
      ApplyShape(s, acts[0]);
      NoNewDials(s, acts[0], i);
      hide Inv, Apply, Enabled;
      NothingToLose(Apply(s, acts[0]), acts[1..], i);
    }
  }

  /** No interleaving without the node's return opens a loss after its departure from `s`. */
  ghost predicate StaysEmpty(s: State, i: nat)
    requires WellShaped(s) && Enabled(s, Leave(i)) && WellShaped(Apply(s, Leave(i)))
  {
    forall acts: seq<Action> :: Legal(Apply(s, Leave(i)), acts) && Return(i) !in acts ==>
      Unlost(Apply(s, Leave(i)), acts, i)
  }

  ghost predicate Unlost(s: State, acts: seq<Action>, i: nat)
    requires WellShaped(s) && Legal(s, acts)
  {
    var r := Run(s, acts);
    i < |r.t.outN| && r.t.lostAt[i] == []
  }

  /** "A returning node fills from empty" whatever else runs, exactly when the node has dialed nobody when
      it departs. */
  lemma FillsFromEmpty(s: State, i: nat)
    requires Inv(s) && i < |s.t.outN| && s.driver[i] == Up
    ensures Enabled(s, Leave(i)) && WellShaped(Apply(s, Leave(i)))
    ensures StaysEmpty(s, i) <==> s.t.outPeers[i] == {}
  {
    var s1 := Apply(s, Leave(i));
    StepInv(s, Leave(i));
    ApplyShape(s, Leave(i));
    assert s1.t.offline[i] && s1.t.lostAt[i] == [] && s1.t.outPeers == s.t.outPeers;
    hide Inv, Apply;
    if s.t.outPeers[i] == {} {
      forall acts: seq<Action> | Legal(s1, acts) && Return(i) !in acts ensures Unlost(s1, acts, i) {
        NothingToLose(s1, acts, i);
        ReturnsWithEmptyQueue(s1, acts, i);
      }
    } else {
      var j :| j in s.t.outPeers[i];
      LeavesWithStaleLoss(s, i, j);
      OneMore(s, Leave(i), Disconnect(i, j));
      assert !Unlost(s1, [Disconnect(i, j)], i);
    }
  }

  lemma OneMore(s: State, a: Action, b: Action)
    requires WellShaped(s) && Legal(s, [a, b])
    ensures Enabled(s, a) && WellShaped(Apply(s, a)) && Legal(Apply(s, a), [b])
    ensures Run(Apply(s, a), [b]) == Run(s, [a, b])
  {
    ApplyShape(s, a);
    hide Apply, Enabled;
    assert [a, b][1..] == [b];
  }

  // ------------------------------------------- why a node's departure and return take turns

  /** A return, with its token, that does not wait for the departure to end. */
  function ReturnedEarly(s: State, i: nat): State
    requires WellShaped(s) && i < |s.t.outN|
  {
    s.(t := GoOnline(s.t, i), wake := s.wake[i := true])
  }

  /** Let the return come between the snapshot and the drops of a node with full slots: its searcher takes
      the token, finds the slots full and parks, and the unannounced drop then frees a slot. The searcher
      waits with work to do, no token, and nobody left who owes one. */
  lemma OverlapLosesWakeup(s: State, i: nat, j: nat)
    requires Inv(s) && i < |s.t.outN| && s.driver[i] == Up && s.searcher[i] == Parked
    requires j in s.t.outPeers[i] && s.t.outN[i] == s.t.maxOut && !SendPending(s, i)
    ensures Enabled(s, Leave(i)) && WellShaped(Apply(s, Leave(i)))
    ensures var early := ReturnedEarly(Apply(s, Leave(i)), i);
            var acts := [Receive(i), StopConsuming(i), Decide(i), DropDialed(i, j)];
            && WellShaped(early) && Legal(early, acts) && i < |Run(early, acts).t.outN|
            && Stranded(Run(early, acts), i) && !Run(early, acts).wake[i] && !SendPending(Run(early, acts), i)
  {
    ApplyShape(s, Leave(i));
    assert j < |s.t.outN|;
    var early := ReturnedEarly(Apply(s, Leave(i)), i);
    assert NobodyOwes(early, i) by { NobodyOwesAfterLeave(s, i); }
    var back := ParksAgain(early, i);
    DropStrands(back, i, j);
    RunFour(early, Receive(i), StopConsuming(i), Decide(i), DropDialed(i, j));
  }

  ghost predicate NobodyOwes(s: State, i: nat) {
    WellShaped(s) && i < |s.t.outN| && !SendPending(s, i)
  }

  lemma NobodyOwesAfterLeave(s: State, i: nat)
    requires WellShaped(s) && i < |s.t.outN| && s.driver[i] == Up && !SendPending(s, i)
    ensures NobodyOwes(ReturnedEarly(Apply(s, Leave(i)), i), i)
  {
    var e := ReturnedEarly(Apply(s, Leave(i)), i);
    forall k: nat | k < |s.t.outN| ensures !OwesTo(e, k, i) {
      assert !OwesTo(s, k, i);
    }
  }

  /** The searcher takes the token, and parks on its full slots again. */
  lemma ParksAgain(s: State, i: nat) returns (r: State)
    requires WellShaped(s) && i < |s.t.outN| && s.searcher[i] == Parked && s.wake[i] && NobodyOwes(s, i)
    requires !s.t.offline[i] && s.t.outN[i] >= s.t.maxOut
    ensures Enabled(s, Receive(i)) && WellShaped(Apply(s, Receive(i)))
    ensures Enabled(Apply(s, Receive(i)), StopConsuming(i)) && WellShaped(Apply(Apply(s, Receive(i)), StopConsuming(i)))
    ensures Enabled(Apply(Apply(s, Receive(i)), StopConsuming(i)), Decide(i))
    ensures r == Apply(Apply(Apply(s, Receive(i)), StopConsuming(i)), Decide(i))
    ensures WellShaped(r) && r.t == s.t && r.driver == s.driver && r.searcher[i] == Parked && !r.wake[i]
    ensures NobodyOwes(r, i)
  {
    r := Apply(Apply(Apply(s, Receive(i)), StopConsuming(i)), Decide(i));
    forall k: nat | k < |s.t.outN| ensures !OwesTo(r, k, i) {
      assert !OwesTo(s, k, i);
    }
  }

  lemma DropStrands(s: State, i: nat, j: nat)
    requires WellShaped(s) && i < |s.t.outN| && j < |s.t.outN| && j in s.t.outPeers[i] && s.searcher[i] == Parked
    requires !s.wake[i] && NobodyOwes(s, i) && !s.t.offline[i] && s.t.outN[i] == s.t.maxOut
    requires s.driver[i].Departing? && s.driver[i].owes == {} && j in s.driver[i].dialed
    ensures Enabled(s, DropDialed(i, j)) && NobodyOwes(Apply(s, DropDialed(i, j)), i)
    ensures Stranded(Apply(s, DropDialed(i, j)), i) && !Apply(s, DropDialed(i, j)).wake[i]
  {
    var r := Apply(s, DropDialed(i, j));
    forall k: nat | k < |s.t.outN| ensures !OwesTo(r, k, i) {
      assert !OwesTo(s, k, i);
    }
  }

  lemma RunFour(s: State, a: Action, b: Action, c: Action, d: Action)
    requires WellShaped(s) && Enabled(s, a)
    requires WellShaped(Apply(s, a)) && Enabled(Apply(s, a), b)
    requires WellShaped(Apply(Apply(s, a), b)) && Enabled(Apply(Apply(s, a), b), c)
    requires WellShaped(Apply(Apply(Apply(s, a), b), c)) && Enabled(Apply(Apply(Apply(s, a), b), c), d)
    ensures Legal(s, [a, b, c, d]) && Run(s, [a, b, c, d]) == Apply(Apply(Apply(Apply(s, a), b), c), d)
  {
    hide Apply, Enabled, Legal, Run;
    RunTwo(Apply(Apply(s, a), b), c, d);
    RunCons(Apply(s, a), b, [c, d]);
    assert [b] + [c, d] == [b, c, d];
    RunCons(s, a, [b, c, d]);
    assert [a] + [b, c, d] == [a, b, c, d];
  }
}
