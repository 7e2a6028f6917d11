/** The peer-slot table of cmd/simnet/conn_model.go: a directed graph of
    connections kept in several redundant forms, each lock section being one
    method. `Table` is the value the sections are specified on. */
module PeerTable {

  type Id = string

  datatype Stats = Stats(rejectedFull: int, dupDropped: int, disconnects: int, departs: int,
                         losses: int, refills: int, refillTotalMs: int)

  const NO_STATS := Stats(0, 0, 0, 0, 0, 0, 0)

  /** Everything guarded by the table's mutex. Times are nanoseconds. */
  datatype Table = Table(
    idxOf: map<Id, nat>,
    outN: seq<int>,
    inN: seq<int>,
    peers: seq<set<nat>>,
    outPeers: seq<set<nat>>,
    offline: seq<bool>,
    lostAt: seq<seq<int>>,
    maxOut: int,
    maxIn: int,
    stats: Stats)

  // ---------------------------------------------------------------- invariants

  predicate Shape(t: Table) {
    && |t.inN| == |t.outN| && |t.peers| == |t.outN| && |t.outPeers| == |t.outN|
    && |t.offline| == |t.outN| && |t.lostAt| == |t.outN|
    && (forall id :: id in t.idxOf ==> t.idxOf[id] < |t.outN|)
  }

  /** The nodes that dialed `j`. */
  function Dialers(outPeers: seq<set<nat>>, j: nat): set<nat> {
    set i: nat | i < |outPeers| && j in outPeers[i]
  }

  /** No self edge, no edge leaving the table, never both directions at once. */
  ghost predicate SimpleGraph(t: Table)
    requires Shape(t)
  {
    forall i: nat, j: nat {:trigger j in t.outPeers[i]} :: i < |t.outN| && j in t.outPeers[i] ==>
      j < |t.outN| && j != i && i !in t.outPeers[j]
  }

  /** `peers` is exactly the union of both directions. */
  ghost predicate PeersAgree(t: Table)
    requires Shape(t)
  {
    && (forall i: nat, j: nat {:trigger j in t.peers[i]} :: i < |t.outN| && j in t.peers[i] ==> j < |t.outN|)
    && (forall i: nat, j: nat {:trigger j in t.peers[i]} :: i < |t.outN| && j < |t.outN| ==>
          (j in t.peers[i] <==> j in t.outPeers[i] || i in t.outPeers[j]))
  }

  /** The counters are the sizes of what they count. */
  ghost predicate CountsAgree(t: Table)
    requires Shape(t)
  {
    && (forall i :: 0 <= i < |t.outN| ==> t.outN[i] == |t.outPeers[i]|)
    && (forall j :: 0 <= j < |t.inN| ==> t.inN[j] == |Dialers(t.outPeers, j)|)
  }

  /** Outbound slots in use plus those still to be refilled fit the dial budget;
      inbound ones fit theirs (negative, so never usable, when there are no slots at all). */
  ghost predicate WithinSlots(t: Table)
    requires Shape(t)
  {
    && (forall i :: 0 <= i < |t.outN| ==> t.outN[i] + |t.lostAt[i]| <= t.maxOut)
    && (forall j :: 0 <= j < |t.inN| ==> t.inN[j] <= t.maxIn || t.inN[j] == 0)
  }

  ghost predicate Consistent(t: Table) {
    Shape(t) && SimpleGraph(t) && PeersAgree(t) && CountsAgree(t) && WithinSlots(t)
  }

  // ------------------------------------------------------------ lock sections

  /** newConnTable: maxPeers slots split by the dial ratio, at least one outbound. */
  function MaxOut(maxPeers: int, dialRatio: int): int {
    var ratio := if dialRatio < 1 then 1 else dialRatio;
    if maxPeers / ratio < 1 then 1 else maxPeers / ratio
  }

  function Empty(idxOf: map<Id, nat>, n: nat, maxPeers: int, dialRatio: int): Table {
    var maxOut := MaxOut(maxPeers, dialRatio);
    Table(idxOf, seq(n, _ => 0), seq(n, _ => 0), seq(n, _ => {}), seq(n, _ => {}),
          seq(n, _ => false), seq(n, _ => []), maxOut, maxPeers - maxOut, NO_STATS)
  }

  predicate HasEdge(t: Table, from: nat, to: nat) {
    from < |t.outPeers| && to in t.outPeers[from]
  }

  /** The locked part of dropConn. */
  function Drop(t: Table, from: nat, to: nat, wakeDialer: bool, now: int): Table
    requires Shape(t) && from < |t.outN| && to < |t.outN|
  {
    if to !in t.outPeers[from] then t else
      var peers := t.peers[from := t.peers[from] - {to}];
      t.(outPeers := t.outPeers[from := t.outPeers[from] - {to}],
         peers := peers[to := peers[to] - {from}],
         outN := t.outN[from := t.outN[from] - 1],
         inN := t.inN[to := t.inN[to] - 1],
         lostAt := if wakeDialer then t.lostAt[from := t.lostAt[from] + [now]] else t.lostAt,
         stats := t.stats.(disconnects := t.stats.disconnects + 1,
                           losses := t.stats.losses + if wakeDialer then 1 else 0))
  }

  /** Go's Duration.Milliseconds: nanoseconds truncated toward zero. */
  function Millis(d: int): int {
    if d >= 0 then d / 1_000_000 else -((-d) / 1_000_000)
  }

  datatype DialOutcome = Connected | Refused | TargetFull

  function DialResult(t: Table, from: nat, to: Id): DialOutcome
    requires Shape(t) && from < |t.outN|
  {
    if to !in t.idxOf || t.idxOf[to] == from || t.offline[from] then Refused
    else if t.idxOf[to] in t.peers[from] then Refused
    else if t.outN[from] >= t.maxOut then Refused
    else if t.offline[t.idxOf[to]] || t.inN[t.idxOf[to]] >= t.maxIn then TargetFull
    else Connected
  }

  function Connect(t: Table, from: nat, j: nat, now: int): Table
    requires Shape(t) && from < |t.outN| && j < |t.outN|
  {
    var peers := t.peers[from := t.peers[from] + {j}];
    var q := t.lostAt[from];
    t.(outN := t.outN[from := t.outN[from] + 1],
       inN := t.inN[j := t.inN[j] + 1],
       peers := peers[j := peers[j] + {from}],
       outPeers := t.outPeers[from := t.outPeers[from] + {j}],
       lostAt := if q == [] then t.lostAt else t.lostAt[from := q[1..]],
       stats := if q == [] then t.stats else
                  t.stats.(refills := t.stats.refills + 1, refillTotalMs := t.stats.refillTotalMs + Millis(now - q[0])))
  }

  function Dial(t: Table, from: nat, to: Id, now: int): Table
    requires Shape(t) && from < |t.outN|
  {
    match DialResult(t, from, to)
    case Connected => Connect(t, from, t.idxOf[to], now)
    case TargetFull => t.(stats := t.stats.(rejectedFull := t.stats.rejectedFull + 1))
    case Refused =>
      if to in t.idxOf && t.idxOf[to] != from && !t.offline[from] && t.idxOf[to] in t.peers[from]
      then t.(stats := t.stats.(dupDropped := t.stats.dupDropped + 1)) else t
  }

  /** The locked part of depart: what it snapshots is `outPeers[i]` and the other peers. */
  function GoOffline(t: Table, i: nat): Table
    requires Shape(t) && i < |t.outN|
  {
    t.(offline := t.offline[i := true], lostAt := t.lostAt[i := []],
       stats := t.stats.(departs := t.stats.departs + 1))
  }

  function GoOnline(t: Table, i: nat): Table
    requires Shape(t) && i < |t.outN|
  {
    t.(offline := t.offline[i := false])
  }

  predicate ShouldPark(t: Table, i: nat)
    requires Shape(t) && i < |t.outN|
  {
    t.offline[i] || t.outN[i] >= t.maxOut
  }

  // ------------------------------------------------- every section keeps the invariant

  lemma MaxOutBelow(maxPeers: int, dialRatio: int)
    requires maxPeers >= 1
    ensures 1 <= MaxOut(maxPeers, dialRatio) <= maxPeers
  {
    QuotientBelow(maxPeers, if dialRatio < 1 then 1 else dialRatio);
  }

  /** The dial budget is the share 1 / dialRatio of the slots rounded down, and never none; a ratio below one
      counts as one. */
  lemma MaxOutShare(maxPeers: int, dialRatio: int)
    ensures dialRatio >= 1 && maxPeers >= dialRatio ==>
              MaxOut(maxPeers, dialRatio) * dialRatio <= maxPeers < (MaxOut(maxPeers, dialRatio) + 1) * dialRatio
    ensures dialRatio < 1 && maxPeers >= 1 ==> MaxOut(maxPeers, dialRatio) == maxPeers
    ensures maxPeers < 1 || maxPeers < dialRatio ==> MaxOut(maxPeers, dialRatio) == 1
  {
    var ratio := if dialRatio < 1 then 1 else dialRatio;
    Quotient(maxPeers, ratio);
  }

  lemma Quotient(a: int, b: int)
    requires b >= 1
    ensures (a / b) * b <= a < (a / b + 1) * b
    ensures a >= b ==> a / b >= 1
    ensures a < b ==> a / b < 1
  {
    assert a == (a / b) * b + a % b;
  }

  /** Truncation toward zero: whole milliseconds, never more of them than have passed either way. */
  lemma MillisTruncates(d: int)
    ensures d >= 0 ==> 0 <= Millis(d) * 1_000_000 <= d < (Millis(d) + 1) * 1_000_000
    ensures d <= 0 ==> (Millis(d) - 1) * 1_000_000 < d <= Millis(d) * 1_000_000 <= 0
  {
  }

  lemma QuotientBelow(a: nat, b: nat)
    requires b >= 1
    ensures a / b <= a
  {
    TimesAtLeast(a / b, b);
  }

  lemma {:induction false} TimesAtLeast(q: nat, b: nat)
    requires b >= 1
    ensures q * b >= q
  {
    if b > 1 {
      TimesAtLeast(q, b - 1);
    }
  }

  lemma DialersAfterAdd(outPeers: seq<set<nat>>, from: nat, j: nat, k: nat)
    requires from < |outPeers|
    ensures Dialers(outPeers[from := outPeers[from] + {j}], k)
         == Dialers(outPeers, k) + (if k == j then {from} else {})
  {
  }

  lemma DialersAfterRemove(outPeers: seq<set<nat>>, from: nat, j: nat, k: nat)
    requires from < |outPeers|
    ensures Dialers(outPeers[from := outPeers[from] - {j}], k)
         == Dialers(outPeers, k) - (if k == j then {from} else {})
  {
  }

  lemma EmptyConsistent(idxOf: map<Id, nat>, n: nat, maxPeers: int, dialRatio: int)
    requires forall id :: id in idxOf ==> idxOf[id] < n
    ensures Consistent(Empty(idxOf, n, maxPeers, dialRatio))
    ensures maxPeers >= 1 ==> Empty(idxOf, n, maxPeers, dialRatio).maxIn >= 0
  {
    if maxPeers >= 1 { MaxOutBelow(maxPeers, dialRatio); }
    var t := Empty(idxOf, n, maxPeers, dialRatio);
    forall j | 0 <= j < n ensures t.inN[j] == |Dialers(t.outPeers, j)| {
      assert Dialers(t.outPeers, j) == {};
    }
  }

  lemma DropKeeps(t: Table, from: nat, to: nat, wakeDialer: bool, now: int)
    requires Consistent(t) && from < |t.outN| && to < |t.outN|
    ensures Consistent(Drop(t, from, to, wakeDialer, now))
  {
    if to in t.outPeers[from] {
      DropKeepsGraph(t, from, to, wakeDialer, now);
      DropKeepsCounts(t, from, to, wakeDialer, now);
      hide SimpleGraph, PeersAgree, CountsAgree, WithinSlots;
    }
  }

  lemma DropKeepsGraph(t: Table, from: nat, to: nat, wakeDialer: bool, now: int)
    requires Shape(t) && SimpleGraph(t) && PeersAgree(t) && from < |t.outN| && to < |t.outN| && to in t.outPeers[from]
    ensures SimpleGraph(Drop(t, from, to, wakeDialer, now)) && PeersAgree(Drop(t, from, to, wakeDialer, now))
  {
    assert from !in t.outPeers[to];
  }

  lemma DropKeepsCounts(t: Table, from: nat, to: nat, wakeDialer: bool, now: int)
    requires Shape(t) && CountsAgree(t) && WithinSlots(t) && from < |t.outN| && to < |t.outN| && to in t.outPeers[from]
    ensures CountsAgree(Drop(t, from, to, wakeDialer, now)) && WithinSlots(Drop(t, from, to, wakeDialer, now))
  {
    hide Dialers;
    var t' := Drop(t, from, to, wakeDialer, now);
    forall j: nat | j < |t.inN| ensures t'.inN[j] == |Dialers(t'.outPeers, j)| {
      DialersAfterRemove(t.outPeers, from, to, j);
      DialsTo(t.outPeers, from, to);
    }
  }

  lemma DialsTo(outPeers: seq<set<nat>>, from: nat, to: nat)
    requires from < |outPeers|
    ensures from in Dialers(outPeers, to) <==> to in outPeers[from]
  {
  }

  lemma ConnectKeeps(t: Table, from: nat, j: nat, now: int)
    requires Consistent(t) && from < |t.outN| && j < |t.outN|
    requires j != from && j !in t.peers[from] && t.outN[from] < t.maxOut && t.inN[j] < t.maxIn
    ensures Consistent(Connect(t, from, j, now))
  {
    ConnectKeepsGraph(t, from, j, now);
    ConnectKeepsCounts(t, from, j, now);
  }

  lemma ConnectKeepsGraph(t: Table, from: nat, j: nat, now: int)
    requires Shape(t) && SimpleGraph(t) && PeersAgree(t) && from < |t.outN| && j < |t.outN|
    requires j != from && j !in t.peers[from]
    ensures SimpleGraph(Connect(t, from, j, now)) && PeersAgree(Connect(t, from, j, now))
  {
    var t' := Connect(t, from, j, now);
    assert j !in t.outPeers[from] && from !in t.outPeers[j];
    forall i: nat, k: nat | i < |t.outN| && k in t'.outPeers[i]
      ensures k < |t.outN| && k != i && i !in t'.outPeers[k]
    {
      if i == from && k == j {
      } else {
        assert k in t.outPeers[i] && i !in t.outPeers[k];
      }
    }
  }

  lemma ConnectKeepsCounts(t: Table, from: nat, j: nat, now: int)
    requires Shape(t) && CountsAgree(t) && WithinSlots(t) && from < |t.outN| && j < |t.outN|
    requires j !in t.outPeers[from] && t.outN[from] < t.maxOut && t.inN[j] < t.maxIn
    ensures CountsAgree(Connect(t, from, j, now)) && WithinSlots(Connect(t, from, j, now))
  {
    hide Dialers, Millis;
    var t' := Connect(t, from, j, now);
    forall k: nat | k < |t.inN| ensures t'.inN[k] == |Dialers(t'.outPeers, k)| {
      DialersAfterAdd(t.outPeers, from, j, k);
      DialsTo(t.outPeers, from, j);
    }
  }

  lemma DialKeeps(t: Table, from: nat, to: Id, now: int)
    requires Consistent(t) && from < |t.outN|
    ensures Consistent(Dial(t, from, to, now))
  {
    var t' := Dial(t, from, to, now);
    if DialResult(t, from, to) == Connected {
      ConnectKeeps(t, from, t.idxOf[to], now);
    } else {
      assert t' == t.(stats := t'.stats);
    }
  }

  // ------------------------------------------------------------ what a dial does

  /** The caller's side of a dial, on the edges alone. */
  predicate MayDial(t: Table, from: nat, to: Id)
    requires Shape(t) && from < |t.outN|
  {
    && to in t.idxOf && t.idxOf[to] != from && !t.offline[from]
    && t.idxOf[to] !in t.outPeers[from] && from !in t.outPeers[t.idxOf[to]]
    && |t.outPeers[from]| < t.maxOut
  }

  /** The target's side. */
  predicate MayAccept(t: Table, j: nat)
    requires Shape(t) && j < |t.outN|
  {
    !t.offline[j] && |Dialers(t.outPeers, j)| < t.maxIn
  }

  /** A dial connects exactly when the caller may dial and the target accept, is counted as refused by a full
      target exactly when only the target does not, and as a duplicate exactly when the two are connected
      already; a connection refills the oldest open loss, and nothing else changes. */
  lemma DialMeans(t: Table, from: nat, to: Id, now: int)
    requires Consistent(t) && from < |t.outN|
    ensures var t' := Dial(t, from, to, now);
            && t'.idxOf == t.idxOf && t'.offline == t.offline && t'.maxOut == t.maxOut && t'.maxIn == t.maxIn
            && t'.outPeers == (if MayDial(t, from, to) && MayAccept(t, t.idxOf[to])
                               then t.outPeers[from := t.outPeers[from] + {t.idxOf[to]}] else t.outPeers)
            && t'.lostAt == (if MayDial(t, from, to) && MayAccept(t, t.idxOf[to]) && t.lostAt[from] != []
                             then t.lostAt[from := t.lostAt[from][1..]] else t.lostAt)
    ensures DialResult(t, from, to).TargetFull? <==> MayDial(t, from, to) && !MayAccept(t, t.idxOf[to])
    ensures DialCounted(t, Dial(t, from, to, now), from, to, now)
  {
    hide SimpleGraph, CountsAgree, WithinSlots, Dialers, PeersAgree, Millis;
    DialFields(t, from, to);
  }

  /** What a dial counts. */
  ghost predicate DialCounted(t: Table, t': Table, from: nat, to: Id, now: int)
    requires Shape(t) && from < |t.outN|
  {
    && t'.stats.rejectedFull == t.stats.rejectedFull
                                + (if MayDial(t, from, to) && !MayAccept(t, t.idxOf[to]) then 1 else 0)
    && t'.stats.dupDropped == t.stats.dupDropped
                              + (if to in t.idxOf && t.idxOf[to] != from && !t.offline[from]
                                    && (t.idxOf[to] in t.outPeers[from] || from in t.outPeers[t.idxOf[to]])
                                 then 1 else 0)
    && (if MayDial(t, from, to) && MayAccept(t, t.idxOf[to]) && t.lostAt[from] != []
        then && t'.stats.refills == t.stats.refills + 1
             && t'.stats.refillTotalMs == t.stats.refillTotalMs + Millis(now - t.lostAt[from][0])
        else t'.stats.refills == t.stats.refills && t'.stats.refillTotalMs == t.stats.refillTotalMs)
    && t'.stats.disconnects == t.stats.disconnects && t'.stats.departs == t.stats.departs
    && t'.stats.losses == t.stats.losses
  }

  /** In a consistent table the counters and the peer sets say what the edges do. */
  lemma DialFields(t: Table, from: nat, to: Id)
    requires Consistent(t) && from < |t.outN|
    ensures t.outN[from] == |t.outPeers[from]|
    ensures to in t.idxOf ==>
              && t.inN[t.idxOf[to]] == |Dialers(t.outPeers, t.idxOf[to])|
              && (t.idxOf[to] in t.peers[from] <==>
                    t.idxOf[to] in t.outPeers[from] || from in t.outPeers[t.idxOf[to]])
  {
  }

  lemma GoOfflineKeeps(t: Table, i: nat)
    requires Consistent(t) && i < |t.outN|
    ensures Consistent(GoOffline(t, i))
  {
  }

  // ------------------------------------------------------- depart, edge by edge

  /** What depart leaves when nothing interferes: `i` is offline and isolated, each node
      that had dialed it has one more loss recorded, no other edge or loss changed. */
  ghost predicate Departed(t0: Table, t: Table, i: nat, now: int)
    requires Shape(t0) && i < |t0.outN|
  {
    && Shape(t) && |t.outN| == |t0.outN| && t.idxOf == t0.idxOf && t.offline == t0.offline[i := true]
    && t.peers[i] == {} && t.outN[i] == 0 && t.inN[i] == 0 && t.lostAt[i] == []
    && (forall k: nat :: k < |t.outN| && k != i ==> t.outPeers[k] == t0.outPeers[k] - {i})
    && (forall k: nat :: k < |t.outN| && k != i ==>
          t.lostAt[k] == t0.lostAt[k] + if i in t0.outPeers[k] then [now] else [])
    && t.stats == t0.stats.(departs := t0.stats.departs + 1,
                            disconnects := t0.stats.disconnects + |t0.outPeers[i]| + |Dialers(t0.outPeers, i)|,
                            losses := t0.stats.losses + |Dialers(t0.outPeers, i)|)
  }

  ghost predicate DialedDropped(t0: Table, t: Table, i: nat, dialed: set<nat>) {
    && Consistent(t0) && Consistent(t) && i < |t0.outN| == |t.outN|
    && t.idxOf == t0.idxOf && t.offline == t0.offline[i := true]
    && t.lostAt == t0.lostAt[i := []] && t.outPeers == t0.outPeers[i := dialed]
    && t.stats == t0.stats.(departs := t0.stats.departs + 1,
                            disconnects := t0.stats.disconnects + |t0.outPeers[i]| - |dialed|)
  }

  lemma DialedStep(t0: Table, t: Table, i: nat, dialed: set<nat>, j: nat, now: int)
    requires DialedDropped(t0, t, i, dialed) && j in dialed
    ensures j < |t.outN|
    ensures DialedDropped(t0, Drop(t, i, j, false, now), i, dialed - {j})
  {
    assert j in t.outPeers[i];
    DropKeeps(t, i, j, false, now);
  }

  /** The counters after the node's own dials and `done` of its dialers' have been dropped. */
  ghost predicate DialersCounted(t0: Table, t: Table, i: nat, done: int)
    requires i < |t0.outPeers|
  {
    t.stats == t0.stats.(departs := t0.stats.departs + 1,
                         disconnects := t0.stats.disconnects + |t0.outPeers[i]| + done,
                         losses := t0.stats.losses + done)
  }

  ghost predicate DialersDropped(t0: Table, t: Table, i: nat, dialers: set<nat>, now: int) {
    && Consistent(t0) && Consistent(t) && i < |t0.outN| == |t.outN|
    && t.idxOf == t0.idxOf && t.offline == t0.offline[i := true]
    && t.lostAt[i] == [] && t.outPeers[i] == {}
    && dialers <= Dialers(t0.outPeers, i) && DialersCounted(t0, t, i, |Dialers(t0.outPeers, i)| - |dialers|)
    && (forall k: nat :: k < |t.outN| && k != i ==> DialerSeen(t0, t, i, k, dialers, now))
  }

  /** What has become of node `k`: untouched while its turn is still ahead. */
  ghost predicate DialerSeen(t0: Table, t: Table, i: nat, k: nat, dialers: set<nat>, now: int)
    requires k < |t0.outPeers| && k < |t.outPeers| && k < |t0.lostAt| && k < |t.lostAt|
  {
    && t.outPeers[k] == (if k in dialers then t0.outPeers[k] else t0.outPeers[k] - {i})
    && t.lostAt[k] == t0.lostAt[k] + if i in t0.outPeers[k] && k !in dialers then [now] else []
  }

  lemma DialedDone(t0: Table, t: Table, i: nat, dialers: set<nat>, now: int)
    requires DialedDropped(t0, t, i, {}) && dialers == t0.peers[i] - t0.outPeers[i]
    ensures dialers == Dialers(t0.outPeers, i)
    ensures DialersDropped(t0, t, i, dialers, now)
  {
    hide Consistent, Dialers, DialerSeen;
    PeersSplit(t0, i);
    IsShaped(t0);
    IsShaped(t);
    forall k: nat | k < |t.outN| && k != i ensures DialerSeen(t0, t, i, k, dialers, now) {
      DialsTo(t0.outPeers, k, i);
      SeenAtFirst(t0, t, i, k, dialers, now);
    }
  }

  lemma SeenAtFirst(t0: Table, t: Table, i: nat, k: nat, dialers: set<nat>, now: int)
    requires Shape(t0) && Shape(t) && |t0.outN| == |t.outN| && k < |t.outN| && i < |t.outN| && k != i
    requires t.outPeers == t0.outPeers[i := {}] && t.lostAt == t0.lostAt[i := []]
    requires k in dialers <==> i in t0.outPeers[k]
    ensures DialerSeen(t0, t, i, k, dialers, now)
  {
    if k !in dialers { assert t0.outPeers[k] - {i} == t0.outPeers[k]; }
    assert t0.lostAt[k] + [] == t0.lostAt[k];
  }

  /** The peers that `i` has not dialed are those that dialed it. */
  lemma PeersSplit(t: Table, i: nat)
    requires Consistent(t) && i < |t.outN|
    ensures t.peers[i] - t.outPeers[i] == Dialers(t.outPeers, i)
  {
    hide CountsAgree, WithinSlots;
    forall k: nat ensures k in t.peers[i] - t.outPeers[i] <==> k in Dialers(t.outPeers, i) {
      if k in t.peers[i] {
        assert k < |t.outN|;
      }
      if k in Dialers(t.outPeers, i) {
        assert i in t.outPeers[k];
        assert k in t.peers[i];
      }
    }
  }

  lemma DialersStep(t0: Table, t: Table, i: nat, dialers: set<nat>, j: nat, now: int)
    requires DialersDropped(t0, t, i, dialers, now) && j in dialers
    ensures j < |t.outN| && j != i && i in t.outPeers[j]
    ensures DialersDropped(t0, Drop(t, j, i, true, now), i, dialers - {j}, now)
  {
    DialerStillThere(t0, t, i, dialers, j, now);
    hide Consistent, Drop, Dialers, DialerSeen, DialersCounted;
    DropKeeps(t, j, i, true, now);
    IsShaped(t0);
    IsShaped(t);
    DropEffect(t, j, i, true, now);
    CountsOneMore(t0, t, i, |Dialers(t0.outPeers, i)| - |dialers|, j, now);
    forall k: nat | k < |t.outN| && k != i ensures DialerSeen(t0, Drop(t, j, i, true, now), i, k, dialers - {j}, now) {
      SeenAfterDrop(t0, t, i, k, dialers, j, now);
    }
  }

  lemma SeenAfterDrop(t0: Table, t: Table, i: nat, k: nat, dialers: set<nat>, j: nat, now: int)
    requires Shape(t0) && Shape(t) && |t0.outN| == |t.outN| && k < |t.outN| && i < |t.outN| && j < |t.outN|
    requires i in t.outPeers[j] && i in t0.outPeers[j] && DialerSeen(t0, t, i, k, dialers, now) && j in dialers
    ensures k < |Drop(t, j, i, true, now).outPeers| && k < |Drop(t, j, i, true, now).lostAt|
    ensures DialerSeen(t0, Drop(t, j, i, true, now), i, k, dialers - {j}, now)
  {
    DropEffect(t, j, i, true, now);
    hide Drop, Shape;
  }

  lemma IsShaped(t: Table)
    requires Consistent(t)
    ensures Shape(t)
  {
  }

  lemma DialerStillThere(t0: Table, t: Table, i: nat, dialers: set<nat>, j: nat, now: int)
    requires DialersDropped(t0, t, i, dialers, now) && j in dialers
    ensures j < |t.outN| && j != i && i in t.outPeers[j] && j < |t0.outPeers| && i in t0.outPeers[j]
  {
    assert i in t0.outPeers[j];
    assert j < |t.outN| && j != i;
    assert DialerSeen(t0, t, i, j, dialers, now);
  }

  lemma CountsOneMore(t0: Table, t: Table, i: nat, done: int, j: nat, now: int)
    requires Shape(t) && i < |t.outN| && j < |t.outN| && i in t.outPeers[j] && i < |t0.outPeers|
    requires DialersCounted(t0, t, i, done)
    ensures DialersCounted(t0, Drop(t, j, i, true, now), i, done + 1)
  {
  }

  /** What dropping an edge that is there changes. */
  lemma DropEffect(t: Table, from: nat, to: nat, wakeDialer: bool, now: int)
    requires Shape(t) && from < |t.outN| && to < |t.outN| && to in t.outPeers[from]
    ensures var t' := Drop(t, from, to, wakeDialer, now);
            && Shape(t') && |t'.outN| == |t.outN| && t'.idxOf == t.idxOf && t'.offline == t.offline
            && t'.outPeers == t.outPeers[from := t.outPeers[from] - {to}]
            && t'.lostAt == (if wakeDialer then t.lostAt[from := t.lostAt[from] + [now]] else t.lostAt)
            && t'.stats == t.stats.(disconnects := t.stats.disconnects + 1,
                                    losses := t.stats.losses + if wakeDialer then 1 else 0)
  {
  }

  lemma DialersDone(t0: Table, t: Table, i: nat, now: int)
    requires DialersDropped(t0, t, i, {}, now)
    ensures Departed(t0, t, i, now)
  {
    hide SimpleGraph, PeersAgree, CountsAgree, WithinSlots;
    forall k: nat | k < |t.outN| && k != i
      ensures t.outPeers[k] == t0.outPeers[k] - {i}
      ensures t.lostAt[k] == t0.lostAt[k] + if i in t0.outPeers[k] then [now] else []
    {
      assert DialerSeen(t0, t, i, k, {}, now);
    }
    hide DialerSeen;
    Isolated(t, i);
  }

  lemma Isolated(t: Table, i: nat)
    requires Consistent(t) && i < |t.outN| && forall k: nat :: k < |t.outN| ==> i !in t.outPeers[k]
    requires t.outPeers[i] == {}
    ensures t.peers[i] == {} && t.outN[i] == 0 && t.inN[i] == 0
  {
    hide SimpleGraph, WithinSlots;
    assert Dialers(t.outPeers, i) == {};
    forall j | j in t.peers[i] ensures false {
    }
  }

  // ---------------------------------------------------------------- the object

  /** connTable: the fields the source keeps under `mu`, and the one-token wake
      channels, `wake[i]` being whether a token is buffered. */
  class ConnTable {
    var idxOf: map<Id, nat>
    var outN: seq<int>
    var inN: seq<int>
    var peers: seq<set<nat>>
    var outPeers: seq<set<nat>>
    var offline: seq<bool>
    var lostAt: seq<seq<int>>
    var maxOut: int
    var maxIn: int
    var stats: Stats
    var wake: seq<bool>

    function View(): Table
      reads this
    {
      Table(idxOf, outN, inN, peers, outPeers, offline, lostAt, maxOut, maxIn, stats)
    }

    ghost predicate Valid()
      reads this
    {
      Consistent(View()) && |wake| == |outN|
    }

    constructor (ids: seq<Id>, maxPeers: int, dialRatio: int)
      ensures Valid() && wake == seq(|ids|, _ => false)
      ensures idxOf.Keys == set id | id in ids
      ensures forall id :: id in idxOf ==> idxOf[id] < |ids| && ids[idxOf[id]] == id
      ensures View() == Empty(idxOf, |ids|, maxPeers, dialRatio)
      ensures |outN| == |ids| && maxOut + maxIn == maxPeers && stats == NO_STATS
      ensures forall i :: 0 <= i < |ids| ==> !offline[i] && outPeers[i] == {} && peers[i] == {} && lostAt[i] == []
      ensures dialRatio >= 1 && maxPeers >= dialRatio ==> maxOut * dialRatio <= maxPeers < (maxOut + 1) * dialRatio
      ensures dialRatio < 1 && maxPeers >= 1 ==> maxOut == maxPeers
      ensures maxPeers < 1 || maxPeers < dialRatio ==> maxOut == 1
    {
      var ratio := if dialRatio < 1 then 1 else dialRatio;
      var mo := maxPeers / ratio;
      if mo < 1 { mo := 1; }
      var index: map<Id, nat> := map[];
      for i := 0 to |ids|
        invariant index.Keys == set id | id in ids[..i]
        invariant forall id :: id in index ==> index[id] < i && ids[index[id]] == id
      {
        assert ids[..i + 1] == ids[..i] + [ids[i]];
        index := index[ids[i] := i];
      }
      assert ids[..|ids|] == ids;
      idxOf := index;
      outN, inN := seq(|ids|, _ => 0), seq(|ids|, _ => 0);
      peers, outPeers := seq(|ids|, _ => {}), seq(|ids|, _ => {});
      offline, lostAt, wake := seq(|ids|, _ => false), seq(|ids|, _ => []), seq(|ids|, _ => false);
      maxOut, maxIn, stats := mo, maxPeers - mo, NO_STATS;
      new;
      EmptyConsistent(index, |ids|, maxPeers, dialRatio);
      MaxOutShare(maxPeers, dialRatio);
    }

    /** The non-blocking send on a one-token channel. */
    method Send(i: nat)
      requires Valid() && i < |outN|
      modifies this`wake
      ensures Valid() && wake == old(wake)[i := true]
    {
      if !wake[i] {
        wake := wake[i := true];
      }
      assert wake == old(wake)[i := true];
    }

    method DropConn(from: nat, to: nat, wakeDialer: bool, now: int) returns (ok: bool)
      requires Valid() && from < |outN| && to < |outN|
      modifies this
      ensures Valid() && View() == Drop(old(View()), from, to, wakeDialer, now)
      ensures ok <==> to in old(outPeers)[from]
      ensures outPeers == old(outPeers)[from := old(outPeers)[from] - {to}]
      ensures lostAt == if ok && wakeDialer then old(lostAt)[from := old(lostAt)[from] + [now]] else old(lostAt)
      ensures stats == old(stats).(disconnects := old(stats).disconnects + (if ok then 1 else 0),
                                   losses := old(stats).losses + (if ok && wakeDialer then 1 else 0))
      ensures wake == if ok && wakeDialer then old(wake)[from := true] else old(wake)
    {
      hide SimpleGraph, PeersAgree, CountsAgree, WithinSlots;
      DropKeeps(View(), from, to, wakeDialer, now);
      assert to !in outPeers[from] ==> outPeers[from] - {to} == outPeers[from];
      ok := DropLocked(from, to, wakeDialer, now);
      if ok && wakeDialer {
        Send(from);
      }
    }

    /** The part of dropConn that runs under the lock. */
    method DropLocked(from: nat, to: nat, wakeDialer: bool, now: int) returns (ok: bool)
      requires Shape(View()) && from < |outN| && to < |outN|
      modifies this
      ensures View() == Drop(old(View()), from, to, wakeDialer, now) && wake == old(wake)
      ensures ok <==> to in old(outPeers)[from]
    {
      if to !in outPeers[from] {
        return false;
      }
      RemoveEdge(from, to);
      stats := stats.(disconnects := stats.disconnects + 1);
      if wakeDialer {
        stats := stats.(losses := stats.losses + 1);
        lostAt := lostAt[from := lostAt[from] + [now]];
      }
      return true;
    }

    method RemoveEdge(from: nat, to: nat)
      requires |outPeers| == |peers| == |outN| == |inN| && from < |outN| && to < |outN|
      modifies this`outPeers, this`peers, this`outN, this`inN
      ensures outPeers == old(outPeers)[from := old(outPeers)[from] - {to}]
      ensures var half := old(peers)[from := old(peers)[from] - {to}]; peers == half[to := half[to] - {from}]
      ensures outN == old(outN)[from := old(outN)[from] - 1] && inN == old(inN)[to := old(inN)[to] - 1]
    {
      outPeers := outPeers[from := outPeers[from] - {to}];
      peers := peers[from := peers[from] - {to}];
      peers := peers[to := peers[to] - {from}];
      outN := outN[from := outN[from] - 1];
      inN := inN[to := inN[to] - 1];
    }

    method AddEdge(from: nat, j: nat)
      requires |outPeers| == |peers| == |outN| == |inN| && from < |outN| && j < |outN|
      modifies this`outPeers, this`peers, this`outN, this`inN
      ensures outPeers == old(outPeers)[from := old(outPeers)[from] + {j}]
      ensures var half := old(peers)[from := old(peers)[from] + {j}]; peers == half[j := half[j] + {from}]
      ensures outN == old(outN)[from := old(outN)[from] + 1] && inN == old(inN)[j := old(inN)[j] + 1]
    {
      outN := outN[from := outN[from] + 1];
      inN := inN[j := inN[j] + 1];
      peers := peers[from := peers[from] + {j}];
      peers := peers[j := peers[j] + {from}];
      outPeers := outPeers[from := outPeers[from] + {j}];
    }

    method TryDial(from: nat, to: Id, now: int) returns (ok: bool, targetFull: bool)
      requires Valid() && from < |outN|
      modifies this
      ensures Valid() && View() == Dial(old(View()), from, to, now) && wake == old(wake)
      ensures ok <==>
                && to in old(idxOf) && old(idxOf[to]) != from && old(idxOf[to]) !in old(peers)[from]
                && !old(offline)[from] && old(outN)[from] < old(maxOut)
                && !old(offline)[old(idxOf[to])] && old(inN)[old(idxOf[to])] < old(maxIn)
      ensures targetFull <==>
                && to in old(idxOf) && old(idxOf[to]) != from && old(idxOf[to]) !in old(peers)[from]
                && !old(offline)[from] && old(outN)[from] < old(maxOut)
                && (old(offline)[old(idxOf[to])] || old(inN)[old(idxOf[to])] >= old(maxIn))
      ensures outPeers == if ok then old(outPeers)[from := old(outPeers)[from] + {old(idxOf[to])}] else old(outPeers)
      ensures lostAt == if ok && old(lostAt)[from] != [] then old(lostAt)[from := old(lostAt)[from][1..]]
                        else old(lostAt)
      ensures DialCounted(old(View()), View(), from, to, now)
      ensures idxOf == old(idxOf) && offline == old(offline) && maxOut == old(maxOut) && maxIn == old(maxIn)
    {
      DialKeeps(View(), from, to, now);
      DialMeans(View(), from, to, now);
      hide Consistent, Dial, DialCounted, MayAccept, MayDial, Dialers;
      ok, targetFull := DialLocked(from, to, now);
    }

    method DialLocked(from: nat, to: Id, now: int) returns (ok: bool, targetFull: bool)
      requires Shape(View()) && from < |outN|
      modifies this
      ensures View() == Dial(old(View()), from, to, now) && wake == old(wake)
      ensures ok <==> DialResult(old(View()), from, to) == Connected
      ensures targetFull <==> DialResult(old(View()), from, to) == TargetFull
    {
      if to !in idxOf || idxOf[to] == from || offline[from] {
        return false, false;
      }
      var j := idxOf[to];
      if j in peers[from] {
        stats := stats.(dupDropped := stats.dupDropped + 1);
        return false, false;
      }
      if outN[from] >= maxOut {
        return false, false;
      }
      if offline[j] || inN[j] >= maxIn {
        stats := stats.(rejectedFull := stats.rejectedFull + 1);
        return false, true;
      }
      AddEdge(from, j);
      var q := lostAt[from];
      if |q| > 0 {
        stats := stats.(refills := stats.refills + 1, refillTotalMs := stats.refillTotalMs + Millis(now - q[0]));
        lostAt := lostAt[from := q[1..]];
      }
      return true, false;
    }

    /** depart with nobody else running; the interleaved version is in module PeerSlots. */
    method Depart(i: nat, now: int)
      requires Valid() && i < |outN|
      modifies this
      ensures Valid() && Departed(old(View()), View(), i, now)
      ensures forall k: nat :: k < |wake| ==> (wake[k] <==> old(wake[k]) || i in old(outPeers[k]))
    {
      ghost var t0 := View();
      var dialed, dialers := outPeers[i], peers[i] - outPeers[i];
      MarkOffline(i);
      DropDialed(t0, i, dialed, now);
      DialedDone(t0, View(), i, dialers, now);
      DropDialers(t0, i, dialers, now);
      DialersDone(t0, View(), i, now);
    }

    method MarkOffline(i: nat)
      requires Valid() && i < |outN|
      modifies this`offline, this`stats, this`lostAt
      ensures Valid() && DialedDropped(old(View()), View(), i, outPeers[i])
    {
      GoOfflineKeeps(View(), i);
      offline := offline[i := true];
      stats := stats.(departs := stats.departs + 1);
      lostAt := lostAt[i := []];
      assert View() == GoOffline(old(View()), i);
    }

    method DropDialed(ghost t0: Table, i: nat, all: set<nat>, now: int)
      requires |wake| == |outN| && DialedDropped(t0, View(), i, all)
      modifies this
      ensures |wake| == |outN| && DialedDropped(t0, View(), i, {}) && wake == old(wake)
    {
      var dialed := all;
      while dialed != {}
        invariant |wake| == |outN| && DialedDropped(t0, View(), i, dialed) && wake == old(wake)
        decreases |dialed|
      {
        var j :| j in dialed;
        DialedStep(t0, View(), i, dialed, j, now);
        var ok := DropConn(i, j, false, now);
        dialed := dialed - {j};
      }
    }

    method DropDialers(ghost t0: Table, i: nat, all: set<nat>, now: int)
      requires |wake| == |outN| && DialersDropped(t0, View(), i, all, now)
      modifies this
      ensures |wake| == |outN| && DialersDropped(t0, View(), i, {}, now) && |wake| == |old(wake)|
      ensures forall k: nat :: k < |wake| ==> (wake[k] <==> old(wake[k]) || k in all)
    {
      hide DialersDropped, Consistent;
      var dialers := all;
      while dialers != {}
        invariant |wake| == |outN| && DialersDropped(t0, View(), i, dialers, now) && |wake| == |old(wake)|
        invariant dialers <= all
        invariant forall k: nat :: k < |wake| ==> (wake[k] <==> old(wake[k]) || (k in all && k !in dialers))
        decreases |dialers|
      {
        var j :| j in dialers;
        DropDialer(t0, i, dialers, j, now);
        dialers := dialers - {j};
      }
    }

    method DropDialer(ghost t0: Table, i: nat, ghost dialers: set<nat>, j: nat, now: int)
      requires |wake| == |outN| && DialersDropped(t0, View(), i, dialers, now) && j in dialers
      modifies this
      ensures |wake| == |outN| && DialersDropped(t0, View(), i, dialers - {j}, now)
      ensures j < |old(wake)| && wake == old(wake)[j := true]
    {
      DialersStep(t0, View(), i, dialers, j, now);
      var ok := DropConn(j, i, true, now);
    }

    method Rejoin(i: nat)
      requires Valid() && i < |outN|
      modifies this`offline, this`wake
      ensures Valid() && View() == GoOnline(old(View()), i) && wake == old(wake)[i := true]
    {
      offline := offline[i := false];
      Send(i);
    }
  }
}
