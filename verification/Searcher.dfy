/** One searcher's run: runOneSearcher of cmd/simnet/search.go, as a loop over sessions driven by
    what its selects deliver. Durations, results and the connection table's answers are arbitrary;
    the table itself is in PeerTable. */
module Searcher {

  import opened Wrappers
  import opened Collections
  import PeerTable

  datatype Model = Scheduled | Continuous | Slots

  /** searchPacing, with the lookup times drawn and the effective per-lookup target. */
  datatype Pacing = Pacing(
    model: Model, schedule: seq<int>, targetCount: int, fLookup: nat, requestTimeout: bool,
    initialResults: int, resultInterval: int, conns: bool, resumable: bool, redialWait: int,
    maxPause: bool, pauseNovelOnly: bool, self: nat, connected: set<nat>)

  /** fLookup: 30 unless a target is set, and no more than the topic has registrants. */
  function LookupTarget(targetCount: int, target: int): (f: nat)
    ensures f >= 1 && f <= (if targetCount > 0 then targetCount else 30) && (target > 0 ==> f <= target)
    ensures f == (if targetCount > 0 then targetCount else 30) || f == target
  {
    var f := if targetCount <= 0 then 30 else targetCount;
    if 0 < target < f then target else f
  }

  /** What a select delivers. */
  datatype Pick = Deadline | Timer | Ended | Node(id: nat, registered: bool) | Wake

  /** One round of the loop: the time since the last, the contacts the iterator made meanwhile, what
      arrived, and what the connection table and the clocks answer when asked. */
  datatype Stimulus = Stimulus(
    dt: nat, dq: nat, dc: nat, pick: Pick, offline: bool, full: bool, dial: PeerTable.DialOutcome,
    filled: bool, stopPace: bool, stopPause: bool, pause: nat, away: bool, stillAway: bool, parks: bool)

  /** A consumed result, and when it came. */
  datatype Take = Take(id: nat, registered: bool, at: int)

  datatype Finds = Finds(
    total: nat, registered: nat, extra: nat, unique: seq<nat>, uniqueAt: seq<int>,
    already: nat, newReg: set<nat>, newAt: seq<int>)

  datatype Costs = Costs(queries: nat, contacted: nat, lastQueries: nat, lastContacted: nat, targetQueries: int,
                         targetContacted: int)

  datatype Lookups = Lookups(done: nat, hits: nat, latency: seq<int>, results: seq<nat>, queries: seq<nat>,
                             contacted: seq<nat>)

  /** The dials: counts, when the slots first filled (0 before), each node's last dial, and all of them. */
  datatype Dials = Dials(attempts: nat, outbound: nat, refused: nat, filledAt: int, last: map<nat, int>,
                         made: seq<Dial>)

  datatype Dial = Dial(id: nat, at: int, outcome: PeerTable.DialOutcome, filled: bool)

  datatype Pc = Scheduling | Consuming | Away | Parked | Done

  datatype State = State(
    pc: Pc, now: int, idx: nat, iterQueries: nat, iterContacted: nat,
    finds: Finds, costs: Costs, lookups: Lookups, lookupStart: int, lookupSeen: set<nat>,
    paceStart: Option<int>, hitDeadline: bool, dials: Dials, log: seq<Take>, paced: seq<bool>)

  // ------------------------------------------------------------------------- its parts

  function Max(x: int, y: int): int { if x > y then x else y }

  /** The record of one result. */
  function Found(f: Finds, connected: set<nat>, id: nat, registered: bool, now: int): Finds {
    var g := f.(total := f.total + 1);
    if !registered then g.(extra := f.extra + 1)
    else
      var h := g.(registered := f.registered + 1);
      if id in f.unique then h
      else
        var u := h.(unique := f.unique + [id], uniqueAt := f.uniqueAt + [now]);
        if id in connected then u.(already := f.already + 1)
        else u.(newReg := f.newReg + {id}, newAt := f.newAt + [now])
  }

  /** The contacts by the time the target was first met. */
  function Targeted(c: Costs, before: Finds, after: Finds, f: nat, q: nat, n: nat): Costs {
    if |after.unique| > |before.unique| && |after.unique| == f && c.targetQueries < 0
    then c.(targetQueries := c.queries + q, targetContacted := c.contacted + n) else c
  }

  /** closeIter on an open iterator. */
  function Closed(c: Costs, q: nat, n: nat): Costs {
    c.(queries := c.queries + q, contacted := c.contacted + n, lastQueries := q, lastContacted := n)
  }

  /** The record of one scheduled lookup, after its session was closed. */
  function LookedUp(l: Lookups, p: Pacing, seen: nat, took: int, c: Costs): Lookups {
    Lookups(l.done + 1, if p.targetCount > 0 && seen >= p.fLookup then l.hits + 1 else l.hits,
      l.latency + [took], l.results + [seen], l.queries + [c.lastQueries], l.contacted + [c.lastContacted])
  }

  /** The open iterator closed, its contacts booked. */
  function Shut(s: State, pc: Pc): State {
    s.(costs := Closed(s.costs, s.iterQueries, s.iterContacted), iterQueries := 0, iterContacted := 0, pc := pc)
  }

  function Finish(s: State): State {
    if s.pc.Consuming? then
      s.(pc := Done, costs := Closed(s.costs, s.iterQueries, s.iterContacted), iterQueries := 0, iterContacted := 0)
    else s.(pc := Done)
  }

  function Hit(s: State): State {
    Finish(s.(hitDeadline := true))
  }

  function Open(s: State): State {
    s.(pc := Consuming, iterQueries := 0, iterContacted := 0)
  }

  /** The top of the session loop, up to its first select. */
  function Enter(p: Pacing, s: State): State {
    if p.model.Scheduled? then
      if s.idx >= |p.schedule| then s.(pc := Done) else s.(pc := Scheduling)
    else Open(s)
  }

  /** After the consume loop. */
  function EndSession(p: Pacing, s: State, x: Stimulus): State {
    var t := Shut(s, Away);
    match p.model
    case Continuous =>
      if !x.away then t.(pc := Done) else if x.stillAway then t else Enter(p, t)
    case Scheduled =>
      var u := t.(lookups := LookedUp(t.lookups, p, |t.lookupSeen|, t.now - t.lookupStart, t.costs));
      if x.stillAway then u else Enter(p, u)
    case Slots =>
      if !p.conns || !p.resumable || !x.parks then t.(pc := Done) else t.(pc := Parked)
  }

  /** A session given up because the node is away, or full. */
  function Abandons(p: Pacing, x: Stimulus): bool {
    p.conns && (if p.model.Slots? then x.full else x.offline)
  }

  function Novel(s: State, id: nat, registered: bool): bool {
    registered && id !in s.finds.unique
  }

  /** The bookkeeping of one result, before the connection table is asked. */
  function Taken(p: Pacing, s: State, id: nat, registered: bool): State {
    var f := Found(s.finds, p.connected, id, registered, s.now);
    s.(finds := f, costs := Targeted(s.costs, s.finds, f, p.fLookup, s.iterQueries, s.iterContacted),
       lookupSeen := if p.model.Scheduled? && registered then s.lookupSeen + {id} else s.lookupSeen,
       log := s.log + [Take(id, registered, s.now)])
  }

  function Over(p: Pacing, s: State): int {
    |s.finds.unique| - p.initialResults
  }

  /** Whether the continuous pace applies, and when it lets the next result through. */
  function Paces(p: Pacing, s: State): bool {
    p.model.Continuous? && p.resultInterval > 0 && Over(p, s) >= 0
  }

  function Due(start: int, over: int, interval: int): int {
    start + over * interval
  }

  function PaceStart(s: State): int {
    if s.paceStart.Some? then s.paceStart.value else s.now
  }

  /** Pacing and the random pause, for a session that goes on. */
  function Paused(p: Pacing, s: State, x: Stimulus, novel: bool): State {
    var t :=
      if !novel then s
      else if !Paces(p, s) then s.(paced := s.paced + [true])
      else
        var u := s.(paceStart := Some(PaceStart(s)), paced := s.paced + [true]);
        if Over(p, s) <= 0 || x.stopPace then u
        else u.(now := Max(s.now, Due(PaceStart(s), Over(p, s), p.resultInterval)));
    if novel && Paces(p, s) && Over(p, s) > 0 && x.stopPace then Hit(t)
    else if p.maxPause && (novel || !p.pauseNovelOnly) then
      if x.stopPause then Hit(t) else t.(now := t.now + x.pause)
    else t
  }

  /** recentlyDialed. */
  predicate Recently(last: map<nat, int>, id: nat, now: int, wait: int) {
    wait > 0 && id in last && now - last[id] < wait
  }

  predicate WantsDial(p: Pacing, s: State, id: nat, registered: bool) {
    registered && p.model.Slots? && p.conns && !Recently(s.dials.last, id, s.now, p.redialWait)
  }

  function AfterDial(d: Dials, x: Stimulus, id: nat, now: int): Dials {
    Dials(d.attempts + 1, if x.dial.Connected? then d.outbound + 1 else d.outbound,
          if x.dial.TargetFull? then d.refused + 1 else d.refused,
          if x.dial.Connected? && x.filled && d.filledAt == 0 then now else d.filledAt,
          d.last[id := now], d.made + [Dial(id, now, x.dial, x.filled)])
  }

  /** The result dialed, if it is to be. */
  function Tried(p: Pacing, s: State, x: Stimulus, id: nat, registered: bool): State {
    if WantsDial(p, s, id, registered) then s.(dials := AfterDial(s.dials, x, id, s.now)) else s
  }

  /** The last slot filled, or the lookup's target met. */
  predicate Enough(p: Pacing, s: State, x: Stimulus, id: nat, registered: bool) {
    || (WantsDial(p, s, id, registered) && x.dial.Connected? && x.filled)
    || (p.model.Scheduled? && p.targetCount > 0 && |s.lookupSeen| >= p.fLookup)
  }

  /** A result whose round ends before the pacing. */
  function Cut(s: State, novel: bool): State {
    if novel then s.(paced := s.paced + [false]) else s
  }

  /** What follows a result's bookkeeping. */
  function Decided(p: Pacing, s: State, x: Stimulus, id: nat, registered: bool, novel: bool): State {
    if Abandons(p, x) then EndSession(p, Cut(s, novel), x)
    else
      var t := Tried(p, s, x, id, registered);
      if Enough(p, s, x, id, registered) then EndSession(p, Cut(t, novel), x)
      else if p.model.Slots? && p.targetCount > 0 && |s.finds.unique| >= p.targetCount then Finish(Cut(t, novel))
      else Paused(p, t, x, novel)
  }

  /** One result through the consume loop. */
  function Consume(p: Pacing, s: State, x: Stimulus, id: nat, registered: bool): State {
    if id == p.self then s
    else Decided(p, Taken(p, s, id, registered), x, id, registered, Novel(s, id, registered))
  }

  /** Time passes, and an open iterator makes contacts. */
  function Ticked(s: State, x: Stimulus): State {
    if s.pc.Done? then s
    else if s.pc.Consuming? then
      s.(now := s.now + x.dt, iterQueries := s.iterQueries + x.dq, iterContacted := s.iterContacted + x.dc)
    else s.(now := s.now + x.dt)
  }

  /** One round. */
  function Step(p: Pacing, s0: State, x: Stimulus): State {
    var s := Ticked(s0, x);
    match s.pc
    case Scheduling =>
      if s.idx < |p.schedule| && !x.pick.Deadline? then
        var t := Max(s.now, p.schedule[s.idx]);
        Open(s.(idx := s.idx + 1, now := t, lookupStart := t, lookupSeen := {}))
      else Hit(s)
    case Consuming =>
      (match x.pick
       case Deadline => Hit(s)
       case Timer => if p.model.Scheduled? && p.requestTimeout then EndSession(p, s, x) else s
       case Ended => EndSession(p, s, x)
       case Node(id, registered) => Consume(p, s, x, id, registered)
       case Wake => s)
    case Away => if x.pick.Deadline? then Hit(s) else if x.stillAway then s else Enter(p, s)
    case Parked => if x.pick.Deadline? then Hit(s) else Enter(p, s)
    case Done => s
  }

  const NEW_STATE := State(
    Away, 0, 0, 0, 0, Finds(0, 0, 0, [], [], 0, {}, []), Costs(0, 0, 0, 0, -1, -1), Lookups(0, 0, [], [], [], []),
    0, {}, None, false, Dials(0, 0, 0, 0, map[], []), [], [])

  function Start(p: Pacing): State {
    Enter(p, NEW_STATE)
  }

  /** The state after a whole stream of stimuli. */
  function Run(p: Pacing, xs: seq<Stimulus>): State {
    if xs == [] then Start(p) else Step(p, Run(p, xs[..|xs| - 1]), xs[|xs| - 1])
  }

  // -------------------------------------------------------------------- what was found

  function Registered(log: seq<Take>): nat {
    if log == [] then 0 else Registered(log[..|log| - 1]) + if log[|log| - 1].registered then 1 else 0
  }

  ghost predicate Distinct(s: seq<nat>) {
    forall i, j :: 0 <= i < j < |s| ==> s[i] != s[j]
  }

  /** The first take of each registrant, in order. */
  function Firsts(log: seq<Take>): seq<Take> {
    if log == [] then [] else
      var before, t := log[..|log| - 1], log[|log| - 1];
      if t.registered && t.id !in Registrants(before) then Firsts(before) + [t] else Firsts(before)
  }

  function Registrants(log: seq<Take>): set<nat> {
    set t | t in log && t.registered :: t.id
  }

  function Ids(ts: seq<Take>): seq<nat> {
    if ts == [] then [] else Ids(ts[..|ts| - 1]) + [ts[|ts| - 1].id]
  }

  function Times(ts: seq<Take>): seq<int> {
    if ts == [] then [] else Times(ts[..|ts| - 1]) + [ts[|ts| - 1].at]
  }

  /** Those of nodes the searcher was not connected to at the start. */
  function NotConnected(ts: seq<Take>, connected: set<nat>): seq<Take> {
    if ts == [] then [] else
      var before, t := NotConnected(ts[..|ts| - 1], connected), ts[|ts| - 1];
      if t.id in connected then before else before + [t]
  }

  /** The counts and lists say of the consumed results what their names say: the distinct registrants are those
      taken, in the order and with the times of their first takes, and so are the new ones among them. */
  ghost predicate FindsInv(f: Finds, connected: set<nat>, log: seq<Take>) {
    && f.total == |log| && f.registered == Registered(log) && f.total == f.registered + f.extra
    && f.unique == Ids(Firsts(log)) && f.uniqueAt == Times(Firsts(log))
    && f.newAt == Times(NotConnected(Firsts(log), connected))
    && Distinct(f.unique) && |f.uniqueAt| == |f.unique|
    && (forall id: nat :: id in f.unique <==> id in Registrants(log))
    && (forall id: nat :: id in f.newReg <==> id in f.unique && id !in connected)
    && |f.newAt| == |f.newReg| && |f.unique| == f.already + |f.newReg|
  }

  lemma LogGrows(log: seq<Take>, t: Take)
    ensures Registered(log + [t]) == Registered(log) + if t.registered then 1 else 0
    ensures Registrants(log + [t]) == Registrants(log) + if t.registered then {t.id} else {}
    ensures Firsts(log + [t]) == if t.registered && t.id !in Registrants(log) then Firsts(log) + [t] else Firsts(log)
  {
    assert (log + [t])[..|log|] == log;
  }

  lemma FirstsGrow(ts: seq<Take>, t: Take, connected: set<nat>)
    ensures Ids(ts + [t]) == Ids(ts) + [t.id] && Times(ts + [t]) == Times(ts) + [t.at]
    ensures NotConnected(ts + [t], connected)
         == if t.id in connected then NotConnected(ts, connected) else NotConnected(ts, connected) + [t]
  {
    assert (ts + [t])[..|ts|] == ts;
  }

  lemma FoundKeeps(f: Finds, connected: set<nat>, log: seq<Take>, id: nat, registered: bool, now: int)
    requires FindsInv(f, connected, log)
    ensures FindsInv(Found(f, connected, id, registered, now), connected, log + [Take(id, registered, now)])
  {
    hide Registered, Distinct, Firsts, Registrants, Ids, Times, NotConnected;
    LogGrows(log, Take(id, registered, now));
    if registered && id !in f.unique {
      NovelKeeps(f, connected, log, id, now);
    } else {
      assert Registrants(log + [Take(id, registered, now)]) == Registrants(log);
    }
  }

  lemma NovelKeeps(f: Finds, connected: set<nat>, log: seq<Take>, id: nat, now: int)
    requires FindsInv(f, connected, log) && id !in f.unique
    ensures FindsInv(Found(f, connected, id, true, now), connected, log + [Take(id, true, now)])
  {
    hide Registered, Distinct, Firsts, Registrants, Ids, Times, NotConnected;
    var t := Take(id, true, now);
    LogGrows(log, t);
    FirstsGrow(Firsts(log), t, connected);
    FirstsGrow(NotConnected(Firsts(log), connected), t, connected);
    StillDistinct(f.unique, id);
    assert id !in f.newReg;
  }

  lemma StillDistinct(s: seq<nat>, id: nat)
    requires Distinct(s) && id !in s
    ensures Distinct(s + [id]) && forall x: nat :: x in s + [id] <==> x in s || x == id
  {
  }

  // ------------------------------------------------------------------- what it cost

  /** The target's contacts are known exactly once it was met, and are part of all contacts. */
  ghost predicate CostsInv(c: Costs, unique: nat, f: nat, q: nat, n: nat) {
    && (c.targetQueries >= 0 <==> unique >= f) && (c.targetContacted >= 0 <==> unique >= f)
    && c.targetQueries <= c.queries + q && c.targetContacted <= c.contacted + n
  }

  function AtLeast(s: seq<nat>, f: nat): nat {
    if s == [] then 0 else AtLeast(s[..|s| - 1], f) + if s[|s| - 1] >= f then 1 else 0
  }

  ghost predicate LookupsInv(p: Pacing, l: Lookups) {
    && |l.latency| == |l.results| == |l.queries| == |l.contacted| == l.done
    && l.hits == (if p.targetCount > 0 then AtLeast(l.results, p.fLookup) else 0)
  }

  /** A scheduled search's lookups account for all its contacts, but for one session the deadline cut. */
  ghost predicate Accounted(p: Pacing, s: State) {
    p.model.Scheduled? ==> AllAccounted(s) || (s.pc.Done? && s.hitDeadline && AllButLast(s))
  }

  ghost predicate AllAccounted(s: State) {
    Sum(s.lookups.queries) == s.costs.queries && Sum(s.lookups.contacted) == s.costs.contacted
  }

  ghost predicate AllButLast(s: State) {
    && Sum(s.lookups.queries) + s.costs.lastQueries == s.costs.queries
    && Sum(s.lookups.contacted) + s.costs.lastContacted == s.costs.contacted
  }

  // ------------------------------------------------------------------------- its pace

  /** A result let through before lets the next distinct registrant in no earlier than its turn. */
  ghost predicate PaceKept(p: Pacing, s: State) {
    |s.paced| == |s.finds.unique| == |s.finds.uniqueAt| && InTurns(p, s.finds.uniqueAt, s.paced, s.paceStart)
  }

  ghost predicate InTurns(p: Pacing, at: seq<int>, paced: seq<bool>, start: Option<int>) {
    forall m :: 1 <= m < |at| && m <= |paced| && paced[m - 1] && m >= p.initialResults ==> InTurn(p, at[m], start, m)
  }

  ghost predicate InTurn(p: Pacing, at: int, start: Option<int>, m: nat) {
    start.Some? && at >= Due(start.value, m - p.initialResults, p.resultInterval)
  }

  /** And the next one is not due yet. */
  ghost predicate PaceReady(p: Pacing, s: State) {
    var m := |s.finds.unique|;
    (m >= 1 && m == |s.paced| && s.paced[m - 1] && m >= p.initialResults) ==>
      (s.paceStart.Some? && s.now >= Due(s.paceStart.value, m - p.initialResults, p.resultInterval))
  }

  ghost predicate PaceInv(p: Pacing, s: State) {
    p.model.Continuous? && p.resultInterval > 0 ==> (
      PaceKept(p, s) && (s.pc.Done? || PaceReady(p, s)) && (s.paceStart.Some? ==> s.paceStart.value <= s.now))
  }

  // ----------------------------------------------------------------- every step keeps it

  /** A scheduled searcher looks up once per scheduled time, the current session included. */
  ghost predicate ScheduleInv(p: Pacing, s: State) {
    p.model.Scheduled? ==> (
      && s.idx <= |p.schedule| && (s.pc.Scheduling? ==> s.idx < |p.schedule|)
      && s.lookups.done <= s.idx <= s.lookups.done + 1
      && (s.pc.Consuming? ==> s.idx == s.lookups.done + 1)
      && (!s.pc.Consuming? && !s.pc.Done? ==> s.idx == s.lookups.done))
  }

  ghost predicate BookInv(p: Pacing, s: State) {
    && FindsInv(s.finds, p.connected, s.log)
    && CostsInv(s.costs, |s.finds.unique|, p.fLookup, s.iterQueries, s.iterContacted)
    && LookupsInv(p, s.lookups)
    && (!s.pc.Consuming? ==> s.iterQueries == 0 && s.iterContacted == 0)
  }

  ghost predicate InOrder(ts: seq<int>, now: int) {
    && (forall i, j :: 0 <= i < j < |ts| ==> ts[i] <= ts[j])
    && (forall i :: 0 <= i < |ts| ==> ts[i] <= now)
  }

  /** Times are recorded as they come, and no lookup took less than nothing. */
  ghost predicate ClockInv(s: State) {
    && s.lookupStart <= s.now && (forall i :: 0 <= i < |s.lookups.latency| ==> s.lookups.latency[i] >= 0)
    && InOrder(s.finds.uniqueAt, s.now) && InOrder(s.finds.newAt, s.now)
  }

  function Outcomes(made: seq<Dial>, outcome: PeerTable.DialOutcome): nat {
    if made == [] then 0 else
      Outcomes(made[..|made| - 1], outcome) + if made[|made| - 1].outcome == outcome then 1 else 0
  }

  /** When a connection first left no slot free, as far as the clock can tell it from none. */
  function FilledAt(made: seq<Dial>): int {
    if made == [] then 0 else
      var before, m := FilledAt(made[..|made| - 1]), made[|made| - 1];
      if before == 0 && m.outcome.Connected? && m.filled then m.at else before
  }

  /** The last of the dials to `id`. */
  ghost predicate LastDial(made: seq<Dial>, id: nat, at: int) {
    exists k :: 0 <= k < |made| && made[k].id == id && made[k].at == at
  }

  /** The dials add up, go to registrants found, and leave a node alone for the redial wait. */
  ghost predicate DialsOk(d: Dials, wait: int, now: int, unique: seq<nat>) {
    && d.attempts == |d.made| && d.outbound == Outcomes(d.made, PeerTable.Connected)
    && d.refused == Outcomes(d.made, PeerTable.TargetFull) && d.outbound + d.refused <= d.attempts
    && d.filledAt == FilledAt(d.made)
    && (forall id :: id in d.last ==> LastDial(d.made, id, d.last[id]))
    && (forall k :: 0 <= k < |d.made| ==> MadeOk(d, k, now, unique))
    && (forall i, j :: 0 <= i < j < |d.made| ==> Apart(d.made[i], d.made[j], wait))
    && (d.filledAt != 0 ==> d.outbound > 0 && d.filledAt <= now)
  }

  /** Each dial is of a registrant found, and no later than its node's last. */
  ghost predicate MadeOk(d: Dials, k: nat, now: int, unique: seq<nat>)
    requires k < |d.made|
  {
    var id := d.made[k].id;
    id in unique && id in d.last && d.made[k].at <= d.last[id] <= now
  }

  predicate Apart(a: Dial, b: Dial, wait: int) {
    a.id == b.id ==> b.at - a.at >= wait || wait <= 0
  }

  ghost predicate DialsInv(p: Pacing, s: State) {
    && DialsOk(s.dials, p.redialWait, s.now, s.finds.unique)
    && ((p.model.Slots? && p.conns) || s.dials.attempts == 0)
  }

  ghost predicate Inv(p: Pacing, s: State) {
    BookInv(p, s) && AccountInv(p, s) && PaceInv(p, s) && ClockInv(s) && DialsInv(p, s)
  }

  lemma StartInv(p: Pacing)
    requires p.fLookup >= 1
    ensures Inv(p, Start(p))
  {
  }

  lemma EnterBook(p: Pacing, s: State)
    requires BookInv(p, s) && !s.pc.Consuming?
    ensures BookInv(p, Enter(p, s))
  {
    hide FindsInv, LookupsInv;
  }

  lemma CloseBook(p: Pacing, s: State, pc: Pc)
    requires BookInv(p, s) && s.pc.Consuming? && !pc.Consuming?
    ensures BookInv(p, Shut(s, pc))
  {
    hide FindsInv, LookupsInv;
  }

  lemma LookupBook(p: Pacing, l: Lookups, seen: nat, took: int, c: Costs)
    requires LookupsInv(p, l)
    ensures LookupsInv(p, LookedUp(l, p, seen, took, c))
    ensures Sum(LookedUp(l, p, seen, took, c).queries) == Sum(l.queries) + c.lastQueries
    ensures Sum(LookedUp(l, p, seen, took, c).contacted) == Sum(l.contacted) + c.lastContacted
  {
    assert (l.results + [seen])[..|l.results|] == l.results;
    SumAppend(l.queries, c.lastQueries);
    SumAppend(l.contacted, c.lastContacted);
  }

  lemma EndSessionBook(p: Pacing, s: State, x: Stimulus)
    requires BookInv(p, s) && s.pc.Consuming?
    ensures BookInv(p, EndSession(p, s, x))
  {
    hide FindsInv, LookupsInv, CostsInv, LookedUp, Closed;
    var t := Shut(s, Away);
    CloseBook(p, s, Away);
    LookupBook(p, t.lookups, |t.lookupSeen|, t.now - t.lookupStart, t.costs);
  }

  lemma TakenBook(p: Pacing, s: State, id: nat, registered: bool)
    requires BookInv(p, s) && s.pc.Consuming?
    ensures BookInv(p, Taken(p, s, id, registered))
  {
    hide LookupsInv;
    FoundKeeps(s.finds, p.connected, s.log, id, registered, s.now);
    hide FindsInv;
  }

  lemma FinishBook(p: Pacing, s: State)
    requires BookInv(p, s)
    ensures BookInv(p, Finish(s)) && BookInv(p, Hit(s))
  {
    hide FindsInv, LookupsInv;
  }

  lemma PausedBook(p: Pacing, s: State, x: Stimulus, novel: bool)
    requires BookInv(p, s) && s.pc.Consuming?
    ensures BookInv(p, Paused(p, s, x, novel))
  {
    hide FindsInv, LookupsInv, CostsInv, Closed, Over, Due, PaceStart, Paces;
    CloseBook(p, s, Done);
  }

  lemma StepBook(p: Pacing, s: State, x: Stimulus)
    requires BookInv(p, s)
    ensures BookInv(p, Step(p, s, x))
  {
    hide FindsInv, LookupsInv, EndSession, Taken, Paused, Finish, Enter, Abandons;
    if !s.pc.Done? {
      var t := Ticked(s, x);
      assert BookInv(p, t);
      FinishBook(p, t);
      match s.pc {
        case Scheduling =>
        case Consuming =>
          EndSessionBook(p, t, x);
          if x.pick.Node? && x.pick.id != p.self { ConsumeBook(p, t, x, x.pick.id, x.pick.registered); }
        case _ => EnterBook(p, t);
      }
    }
  }

  lemma SameBook(p: Pacing, s: State, t: State)
    requires BookInv(p, s) && t.finds == s.finds && t.costs == s.costs && t.lookups == s.lookups && t.log == s.log
    requires t.pc == s.pc && t.iterQueries == s.iterQueries && t.iterContacted == s.iterContacted
    ensures BookInv(p, t)
  {
    hide FindsInv, LookupsInv, CostsInv;
  }

  lemma DecidedBook(p: Pacing, s: State, x: Stimulus, id: nat, registered: bool, novel: bool)
    requires BookInv(p, s) && s.pc.Consuming?
    ensures BookInv(p, Decided(p, s, x, id, registered, novel))
  {
    hide BookInv, EndSession, Finish, Paused, Abandons, Enough;
    var t := Tried(p, s, x, id, registered);
    SameBook(p, s, Cut(s, novel));
    SameBook(p, s, t);
    SameBook(p, s, Cut(t, novel));
    EndSessionBook(p, Cut(s, novel), x);
    EndSessionBook(p, Cut(t, novel), x);
    FinishBook(p, Cut(t, novel));
    PausedBook(p, t, x, novel);
  }

  lemma ConsumeBook(p: Pacing, s: State, x: Stimulus, id: nat, registered: bool)
    requires BookInv(p, s) && s.pc.Consuming?
    ensures BookInv(p, Consume(p, s, x, id, registered))
  {
    hide BookInv, Decided, Found, Targeted;
    TakenBook(p, s, id, registered);
    DecidedBook(p, Taken(p, s, id, registered), x, id, registered, Novel(s, id, registered));
  }

  // ---- the accounts and the schedule

  ghost predicate AccountInv(p: Pacing, s: State) {
    LookupsInv(p, s.lookups) && Accounted(p, s) && ScheduleInv(p, s)
  }

  lemma EnterAccount(p: Pacing, s: State)
    requires AccountInv(p, s) && !s.pc.Consuming? && !s.pc.Done?
    ensures AccountInv(p, Enter(p, s))
  {
    hide LookupsInv, Sum;
  }

  lemma EndSessionAccount(p: Pacing, s: State, x: Stimulus)
    requires AccountInv(p, s) && s.pc.Consuming?
    ensures AccountInv(p, EndSession(p, s, x))
  {
    hide LookupsInv, Sum;
    var costs := Closed(s.costs, s.iterQueries, s.iterContacted);
    LookupBook(p, s.lookups, |s.lookupSeen|, s.now - s.lookupStart, costs);
  }

  lemma HitAccount(p: Pacing, s: State)
    requires AccountInv(p, s) && !s.pc.Done?
    ensures AccountInv(p, Hit(s)) && (!p.model.Scheduled? ==> AccountInv(p, Finish(s)))
  {
    hide LookupsInv, Sum;
  }

  /** Nothing but the lookups, the contacts, the schedule and the end matters to the accounts. */
  lemma SameAccount(p: Pacing, s: State, t: State)
    requires AccountInv(p, s) && t.lookups == s.lookups && t.idx == s.idx && t.pc == s.pc
    requires t.hitDeadline == s.hitDeadline
    requires t.costs.queries == s.costs.queries && t.costs.contacted == s.costs.contacted
    requires t.costs.lastQueries == s.costs.lastQueries && t.costs.lastContacted == s.costs.lastContacted
    ensures AccountInv(p, t)
  {
    hide LookupsInv, Sum;
  }

  lemma ConsumeAccount(p: Pacing, s: State, x: Stimulus, id: nat, registered: bool)
    requires AccountInv(p, s) && s.pc.Consuming?
    ensures AccountInv(p, Consume(p, s, x, id, registered))
  {
    hide AccountInv, EndSession, Found, Abandons, Hit, Finish, Paused, Enough;
    var t := Taken(p, s, id, registered);
    var u := Tried(p, t, x, id, registered);
    var novel := Novel(s, id, registered);
    SameAccount(p, s, Cut(t, novel));
    SameAccount(p, s, u);
    SameAccount(p, s, Cut(u, novel));
    EndSessionAccount(p, Cut(t, novel), x);
    EndSessionAccount(p, Cut(u, novel), x);
    HitAccount(p, Cut(u, novel));
    PausedAccount(p, u, x, novel);
  }

  lemma PausedAccount(p: Pacing, s: State, x: Stimulus, novel: bool)
    requires AccountInv(p, s) && s.pc.Consuming?
    ensures AccountInv(p, Paused(p, s, x, novel))
  {
    hide AccountInv, Hit, Over, Due, PaceStart, Paces;
    var paced := s.paced + [true];
    var u := s.(paceStart := Some(PaceStart(s)), paced := paced);
    var v := u.(now := Max(s.now, Due(PaceStart(s), Over(p, s), p.resultInterval)));
    var w := if Over(p, s) <= 0 || x.stopPace then u else v;
    var t := if !novel then s else if !Paces(p, s) then s.(paced := paced) else w;
    SameAccount(p, s, t);
    SameAccount(p, s, t.(now := t.now + x.pause));
    HitAccount(p, t);
  }

  lemma StepAccount(p: Pacing, s: State, x: Stimulus)
    requires AccountInv(p, s)
    ensures AccountInv(p, Step(p, s, x))
  {
    hide EndSession, Consume, Hit, Enter, LookupsInv, Sum;
    if !s.pc.Done? {
      var t := Ticked(s, x);
      SameAccount(p, s, t);
      HitAccount(p, t);
      match s.pc {
        case Scheduling =>
        case Consuming =>
          EndSessionAccount(p, t, x);
          if x.pick.Node? { ConsumeAccount(p, t, x, x.pick.id, x.pick.registered); }
        case _ => EnterAccount(p, t);
      }
    }
  }

  // ---- the pace

  /** Where the pace is not touched: time may pass, sessions may end and begin. */
  lemma SamePace(p: Pacing, s: State, t: State)
    requires PaceInv(p, s) && t.finds == s.finds && t.paced == s.paced && t.paceStart == s.paceStart && t.now >= s.now
    requires s.pc.Done? ==> t.pc.Done?
    ensures PaceInv(p, t)
  {
    hide Due;
  }

  lemma EndSessionSame(p: Pacing, s: State, x: Stimulus)
    ensures var t := EndSession(p, s, x);
            && t.finds == s.finds && t.paced == s.paced && t.paceStart == s.paceStart
            && t.now == s.now && t.dials == s.dials
  {
  }

  /** The searcher took a result and has not paced it yet. */
  ghost predicate Unpaced(p: Pacing, s: State) {
    |s.paced| + 1 == |s.finds.unique| == |s.finds.uniqueAt| && InTurns(p, s.finds.uniqueAt, s.paced, s.paceStart)
  }

  lemma TakenPace(p: Pacing, s: State, id: nat, registered: bool)
    requires PaceInv(p, s) && !s.pc.Done? && p.model.Continuous? && p.resultInterval > 0
    ensures var t := Taken(p, s, id, registered); if Novel(s, id, registered) then Unpaced(p, t) else PaceInv(p, t)
  {
    hide Due, Targeted;
    if Novel(s, id, registered) {
      var at := s.finds.uniqueAt + [s.now];
      forall m | 1 <= m < |at| && m <= |s.paced| && s.paced[m - 1] && m >= p.initialResults
        ensures InTurn(p, at[m], s.paceStart, m)
      {
        if m < |s.finds.uniqueAt| { assert InTurn(p, s.finds.uniqueAt[m], s.paceStart, m); }
      }
    }
  }

  lemma CutPace(p: Pacing, t: State)
    requires Unpaced(p, t)
    ensures PaceKept(p, t.(paced := t.paced + [false])) && PaceReady(p, t.(paced := t.paced + [false]))
  {
    hide Due;
    LongerPaced(p, t.finds.uniqueAt, t.paced, t.paceStart, false, t.paceStart);
  }

  lemma PausedPace(p: Pacing, t: State, x: Stimulus, novel: bool)
    requires p.model.Continuous? && p.resultInterval > 0 && t.pc.Consuming?
    requires if novel then Unpaced(p, t) && (t.paceStart.Some? ==> t.paceStart.value <= t.now) else PaceInv(p, t)
    ensures PaceInv(p, Paused(p, t, x, novel))
  {
    hide Due;
    hide InTurns;
    DueZero(PaceStart(t), p.resultInterval);
    if novel {
      LongerPaced(p, t.finds.uniqueAt, t.paced, t.paceStart, true, Some(PaceStart(t)));
      LongerPaced(p, t.finds.uniqueAt, t.paced, t.paceStart, true, t.paceStart);
    }
  }

  /** The mark of the latest result says nothing yet of those before, nor does a first pace start. */
  lemma LongerPaced(p: Pacing, at: seq<int>, paced: seq<bool>, start: Option<int>, mark: bool, start': Option<int>)
    requires InTurns(p, at, paced, start) && |at| == |paced| + 1 && (start.Some? ==> start' == start)
    ensures InTurns(p, at, paced + [mark], start')
  {
    hide Due;
    var paced' := paced + [mark];
    forall m | 1 <= m < |at| && m <= |paced'| && paced'[m - 1] && m >= p.initialResults
      ensures InTurn(p, at[m], start', m)
    {
      assert paced[m - 1];
      assert InTurn(p, at[m], start, m);
    }
  }

  lemma DueZero(start: int, interval: int)
    ensures Due(start, 0, interval) == start
  {
  }

  lemma ConsumePace(p: Pacing, s: State, x: Stimulus, id: nat, registered: bool)
    requires PaceInv(p, s) && s.pc.Consuming?
    ensures PaceInv(p, Consume(p, s, x, id, registered))
  {
    hide EndSession, PaceKept, PaceReady, Unpaced, Paused, Found, Targeted, Abandons;
    if p.model.Continuous? && p.resultInterval > 0 && id != p.self {
      var novel := Novel(s, id, registered);
      var t := Taken(p, s, id, registered);
      TakenPace(p, s, id, registered);
      if novel { CutPace(p, t); }
      assert Tried(p, t, x, id, registered) == t;
      EndSessionSame(p, Cut(t, novel), x);
      SamePace(p, Cut(t, novel), EndSession(p, Cut(t, novel), x));
      PausedPace(p, t, x, novel);
    }
  }

  lemma EnterSame(p: Pacing, s: State)
    ensures var t := Enter(p, s);
            && t.finds == s.finds && t.paced == s.paced && t.paceStart == s.paceStart
            && t.now == s.now && t.dials == s.dials
  {
  }

  lemma StepPace(p: Pacing, s: State, x: Stimulus)
    requires PaceInv(p, s)
    ensures PaceInv(p, Step(p, s, x))
  {
    hide EndSession, PaceInv, Consume, Enter;
    if !s.pc.Done? {
      var t := Ticked(s, x);
      SamePace(p, s, t);
      SamePace(p, t, Hit(t));
      EnterSame(p, t);
      SamePace(p, t, Enter(p, t));
      EndSessionSame(p, t, x);
      SamePace(p, t, EndSession(p, t, x));
      if t.pc.Consuming? && x.pick.Node? { ConsumePace(p, t, x, x.pick.id, x.pick.registered); }
      if t.pc.Scheduling? { SamePace(p, t, Step(p, s, x)); }
    }
  }

  // ---- the clock

  lemma LaterClock(s: State, t: State)
    requires ClockInv(s) && t.finds == s.finds && t.lookups == s.lookups && t.lookupStart == s.lookupStart
    requires t.now >= s.now
    ensures ClockInv(t)
  {
  }

  lemma TakenClock(p: Pacing, s: State, id: nat, registered: bool)
    requires ClockInv(s)
    ensures ClockInv(Taken(p, s, id, registered))
  {
    hide Targeted;
  }

  lemma EndSessionClock(p: Pacing, s: State, x: Stimulus)
    requires ClockInv(s)
    ensures ClockInv(EndSession(p, s, x))
  {
    hide Closed, InOrder;
  }

  lemma EnterClock(p: Pacing, s: State)
    requires ClockInv(s)
    ensures ClockInv(Enter(p, s))
  {
    hide InOrder;
  }

  lemma PausedClock(p: Pacing, s: State, x: Stimulus, novel: bool)
    requires ClockInv(s)
    ensures ClockInv(Paused(p, s, x, novel))
  {
    hide ClockInv, Over, Due, PaceStart, Paces, Closed;
    LaterClock(s, Paused(p, s, x, novel));
  }

  lemma ConsumeClock(p: Pacing, s: State, x: Stimulus, id: nat, registered: bool)
    requires ClockInv(s)
    ensures ClockInv(Consume(p, s, x, id, registered))
  {
    hide ClockInv, EndSession, Paused, Taken, Abandons, Closed, Enough;
    TakenClock(p, s, id, registered);
    var t := Taken(p, s, id, registered);
    var u := Tried(p, t, x, id, registered);
    var novel := Novel(s, id, registered);
    LaterClock(t, Cut(t, novel));
    LaterClock(t, u);
    LaterClock(t, Cut(u, novel));
    EndSessionClock(p, Cut(t, novel), x);
    EndSessionClock(p, Cut(u, novel), x);
    LaterClock(t, Finish(Cut(u, novel)));
    PausedClock(p, u, x, novel);
  }

  lemma StepClock(p: Pacing, s: State, x: Stimulus)
    requires ClockInv(s)
    ensures ClockInv(Step(p, s, x))
  {
    hide EndSession, Consume, Enter, Closed, InOrder;
    var t := Ticked(s, x);
    assert ClockInv(t) by { LaterClock(s, t); }
    EnterClock(p, t);
    EndSessionClock(p, t, x);
    LaterClock(t, Hit(t));
    if t.pc.Consuming? && x.pick.Node? { ConsumeClock(p, t, x, x.pick.id, x.pick.registered); }
    if t.pc.Scheduling? && t.idx < |p.schedule| {
      LaterClock(t, t.(now := Max(t.now, p.schedule[t.idx])));
    }
  }

  // ---- the dials

  /** Time passes, more is found, nothing is dialed. */
  lemma SameDials(p: Pacing, s: State, t: State)
    requires DialsInv(p, s) && t.dials == s.dials && t.now >= s.now && s.finds.unique <= t.finds.unique
    ensures DialsInv(p, t)
  {
    forall k | 0 <= k < |t.dials.made| ensures MadeOk(t.dials, k, t.now, t.finds.unique) {
      assert MadeOk(s.dials, k, s.now, s.finds.unique);
    }
  }

  lemma DialOk(d: Dials, wait: int, now: int, unique: seq<nat>, x: Stimulus, id: nat)
    requires DialsOk(d, wait, now, unique) && id in unique && !Recently(d.last, id, now, wait)
    ensures DialsOk(AfterDial(d, x, id, now), wait, now, unique)
  {
    var e := AfterDial(d, x, id, now);
    assert e.made[..|d.made|] == d.made;
    forall i | i in e.last ensures LastDial(e.made, i, e.last[i]) {
      if i == id {
        assert e.made[|d.made|].id == id && e.made[|d.made|].at == now;
      } else {
        var k :| 0 <= k < |d.made| && d.made[k].id == i && d.made[k].at == d.last[i];
        assert e.made[k] == d.made[k];
      }
    }
    forall k | 0 <= k < |e.made| ensures MadeOk(e, k, now, unique) {
      if k < |d.made| { assert MadeOk(d, k, now, unique); }
    }
    forall i, j | 0 <= i < j < |e.made| ensures Apart(e.made[i], e.made[j], wait) {
      if j < |d.made| {
        assert Apart(d.made[i], d.made[j], wait);
      } else {
        assert MadeOk(d, i, now, unique);
      }
    }
  }

  lemma TriedDials(p: Pacing, s: State, x: Stimulus, id: nat, registered: bool)
    requires DialsInv(p, s) && (registered ==> id in s.finds.unique)
    ensures DialsInv(p, Tried(p, s, x, id, registered))
  {
    hide DialsOk, AfterDial, Recently;
    if WantsDial(p, s, id, registered) {
      DialOk(s.dials, p.redialWait, s.now, s.finds.unique, x, id);
    }
  }

  lemma TakenDials(p: Pacing, s: State, id: nat, registered: bool)
    requires DialsInv(p, s)
    ensures var t := Taken(p, s, id, registered); DialsInv(p, t) && (registered ==> id in t.finds.unique)
  {
    hide DialsInv, Targeted;
    SameDials(p, s, Taken(p, s, id, registered));
  }

  lemma PausedDials(p: Pacing, s: State, x: Stimulus, novel: bool)
    requires DialsInv(p, s)
    ensures DialsInv(p, Paused(p, s, x, novel))
  {
    hide DialsInv, Over, Due, PaceStart, Paces, Closed;
    SameDials(p, s, Paused(p, s, x, novel));
  }

  lemma ConsumeDials(p: Pacing, s: State, x: Stimulus, id: nat, registered: bool)
    requires DialsInv(p, s)
    ensures DialsInv(p, Consume(p, s, x, id, registered))
  {
    hide DialsInv, EndSession, Paused, Taken, Abandons, Closed, Enough, Tried;
    TakenDials(p, s, id, registered);
    var t := Taken(p, s, id, registered);
    var u := Tried(p, t, x, id, registered);
    TriedDials(p, t, x, id, registered);
    var novel := Novel(s, id, registered);
    EndSessionSame(p, Cut(t, novel), x);
    EndSessionSame(p, Cut(u, novel), x);
    SameDials(p, t, EndSession(p, Cut(t, novel), x));
    SameDials(p, u, EndSession(p, Cut(u, novel), x));
    SameDials(p, u, Finish(Cut(u, novel)));
    PausedDials(p, u, x, novel);
  }

  lemma StepDials(p: Pacing, s: State, x: Stimulus)
    requires DialsInv(p, s)
    ensures DialsInv(p, Step(p, s, x))
  {
    hide DialsInv, EndSession, Consume, Enter, Closed;
    var t := Ticked(s, x);
    SameDials(p, s, t);
    EnterSame(p, t);
    EndSessionSame(p, t, x);
    SameDials(p, t, Enter(p, t));
    SameDials(p, t, EndSession(p, t, x));
    SameDials(p, t, Hit(t));
    if t.pc.Consuming? && x.pick.Node? { ConsumeDials(p, t, x, x.pick.id, x.pick.registered); }
    if t.pc.Scheduling? { SameDials(p, t, Step(p, s, x)); }
  }

  /** Every state of every run. */
  lemma {:induction false} RunInv(p: Pacing, xs: seq<Stimulus>)
    requires p.fLookup >= 1
    ensures Inv(p, Run(p, xs))
  {
    hide BookInv, AccountInv, PaceInv, ClockInv, DialsInv, Step, Start;
    if xs == [] {
      StartInv(p);
    } else {
      RunInv(p, xs[..|xs| - 1]);
      var s, x := Run(p, xs[..|xs| - 1]), xs[|xs| - 1];
      StepBook(p, s, x);
      StepAccount(p, s, x);
      StepPace(p, s, x);
      StepClock(p, s, x);
      StepDials(p, s, x);
    }
  }

  /** What a search reports of its results: the totals add up, and the unique registrants are those
      the results hold, each once, split into the already connected and the new. */
  lemma ResultsAddUp(p: Pacing, xs: seq<Stimulus>)
    requires p.fLookup >= 1
    ensures FindsInv(Run(p, xs).finds, p.connected, Run(p, xs).log)
    ensures InOrder(Run(p, xs).finds.uniqueAt, Run(p, xs).now) && InOrder(Run(p, xs).finds.newAt, Run(p, xs).now)
  {
    hide Run, FindsInv, AccountInv, PaceInv;
    RunInv(p, xs);
  }

  /** What it reports of its lookups: one entry each, hits as the results show, at most one lookup per
      scheduled time, and contacts that sum to the search's but for one session cut by the deadline. */
  lemma LookupsAddUp(p: Pacing, xs: seq<Stimulus>)
    requires p.fLookup >= 1
    ensures LookupsInv(p, Run(p, xs).lookups) && Accounted(p, Run(p, xs))
    ensures forall i :: 0 <= i < |Run(p, xs).lookups.latency| ==> Run(p, xs).lookups.latency[i] >= 0
    ensures p.model.Scheduled? ==> Run(p, xs).lookups.done <= |p.schedule|
  {
    hide Run, BookInv, LookupsInv, Accounted, PaceInv;
    RunInv(p, xs);
  }

  /** The contacts to the target are known exactly when it was met, and within the total. */
  lemma TargetCosts(p: Pacing, xs: seq<Stimulus>)
    requires p.fLookup >= 1
    ensures var s := Run(p, xs); (
      && (s.costs.targetQueries >= 0 <==> |s.finds.unique| >= p.fLookup)
      && (s.pc.Done? ==> s.costs.targetQueries <= s.costs.queries && s.costs.targetContacted <= s.costs.contacted))
  {
    hide Run, FindsInv, AccountInv, PaceInv;
    RunInv(p, xs);
  }

  /** What it reports of its dials: every attempt connects, finds a full target or is otherwise refused; it
      dials only registrants it found, in the slot model, and none twice within the redial wait. */
  lemma DialsAddUp(p: Pacing, xs: seq<Stimulus>)
    requires p.fLookup >= 1
    ensures DialsInv(p, Run(p, xs))
  {
    hide Run, BookInv, AccountInv, PaceInv, ClockInv, DialsInv;
    RunInv(p, xs);
  }

  /** The pace of a continuous search: distinct registrant `m` (from zero) is not taken before its turn,
      provided the one before it was not taken while the node was away. */
  lemma PaceHolds(p: Pacing, xs: seq<Stimulus>, m: nat)
    requires p.fLookup >= 1 && p.model.Continuous? && p.resultInterval > 0
    requires 1 <= m < |Run(p, xs).finds.unique| && m >= p.initialResults
    ensures |Run(p, xs).paced| == |Run(p, xs).finds.unique| == |Run(p, xs).finds.uniqueAt|
    ensures Run(p, xs).paced[m - 1] ==> InTurn(p, Run(p, xs).finds.uniqueAt[m], Run(p, xs).paceStart, m)
  {
    hide Run, BookInv, AccountInv, PaceReady, InTurn;
    RunInv(p, xs);
  }

  lemma ConsumeMarks(p: Pacing, s: State, x: Stimulus, id: nat, registered: bool)
    requires !p.conns && p.model.Continuous? && s.pc.Consuming?
    ensures Consume(p, s, x, id, registered).paced in {s.paced, s.paced + [true]}
  {
    hide Found, Targeted, Due, Over, Paces, EndSession, Closed;
  }

  lemma StepMarks(p: Pacing, s: State, x: Stimulus)
    requires !p.conns && p.model.Continuous?
    ensures Step(p, s, x).paced in {s.paced, s.paced + [true]}
  {
    hide Consume, EndSession, Enter;
    var t := Ticked(s, x);
    EnterSame(p, t);
    EndSessionSame(p, t, x);
    if t.pc.Consuming? && x.pick.Node? { ConsumeMarks(p, t, x, x.pick.id, x.pick.registered); }
  }

  /** Without a connection table no result is taken while the node is away. */
  lemma {:induction false} AlwaysPaced(p: Pacing, xs: seq<Stimulus>)
    requires !p.conns && p.model.Continuous?
    ensures forall m :: 0 <= m < |Run(p, xs).paced| ==> Run(p, xs).paced[m]
  {
    hide Step;
    if xs != [] {
      AlwaysPaced(p, xs[..|xs| - 1]);
      StepMarks(p, Run(p, xs[..|xs| - 1]), xs[|xs| - 1]);
    }
  }

  /** With one, a registrant taken while the node is away is not paced: the session ends, and with the
      node back at once the next one begins with no time passing. */
  lemma AwaySkipsPace(p: Pacing, s: State, x: Stimulus, id: nat)
    requires p.model.Continuous? && p.conns && s.pc.Consuming? && x.pick == Node(id, true) && id != p.self
    requires x.dt == 0 && x.offline && x.away && !x.stillAway && id !in s.finds.unique
    ensures var t := Step(p, s, x);
            t.pc.Consuming? && t.now == s.now && t.paceStart == s.paceStart
            && t.finds.unique == s.finds.unique + [id] && t.finds.uniqueAt == s.finds.uniqueAt + [s.now]
  {
    hide Targeted;
  }

  /** The node is away, and back at once. */
  function AwayTake(id: nat): Stimulus {
    Stimulus(0, 0, 0, Node(id, true), true, false, PeerTable.Refused, false, false, false, 0, true, false, false)
  }

  /** `n` distinct registrants, each taken while away. */
  function AwayTakes(p: Pacing, n: nat): (xs: seq<Stimulus>)
    ensures |xs| == n
  {
    if n == 0 then [] else AwayTakes(p, n - 1) + [AwayTake(p.self + n)]
  }

  /** `n` registrants taken and no time gone. */
  ghost predicate AtOnce(p: Pacing, s: State, n: nat) {
    && s.pc.Consuming? && s.now == 0 && s.paceStart.None? && |s.finds.unique| == n == |s.finds.uniqueAt|
    && (forall id :: id in s.finds.unique ==> id <= p.self + n)
  }

  lemma OneMoreAtOnce(p: Pacing, s: State, n: nat)
    requires p.model.Continuous? && p.conns && AtOnce(p, s, n)
    ensures AtOnce(p, Step(p, s, AwayTake(p.self + n + 1)), n + 1)
  {
    hide Step;
    AwaySkipsPace(p, s, AwayTake(p.self + n + 1), p.self + n + 1);
  }

  lemma {:induction false} AllAtOnce(p: Pacing, n: nat)
    requires p.model.Continuous? && p.conns
    ensures AtOnce(p, Run(p, AwayTakes(p, n)), n)
  {
    hide Run, Step, AtOnce, AwayTake;
    if n == 0 {
      NoneAtOnce(p);
    } else {
      AllAtOnce(p, n - 1);
      OneMoreAtOnce(p, Run(p, AwayTakes(p, n - 1)), n - 1);
      RunAppend(p, AwayTakes(p, n - 1), AwayTake(p.self + n));
    }
  }

  lemma NoneAtOnce(p: Pacing)
    requires p.model.Continuous?
    ensures AtOnce(p, Run(p, []), 0)
  {
  }

  lemma RunAppend(p: Pacing, xs: seq<Stimulus>, x: Stimulus)
    ensures Run(p, xs + [x]) == Step(p, Run(p, xs), x)
  {
    hide Step, Start;
    assert (xs + [x])[..|xs|] == xs;
  }

  /** A registrant taken online when the pace applies starts it, if nothing did before. */
  lemma OnlineTake(p: Pacing, s: State, x: Stimulus, id: nat)
    requires p.model.Continuous? && p.resultInterval > 0 && s.pc.Consuming? && x.pick == Node(id, true) && id != p.self
    requires x.dt == 0 && !x.offline && id !in s.finds.unique && s.paceStart.None?
    requires |s.finds.unique| >= p.initialResults
    ensures var t := Step(p, s, x);
            t.paceStart == Some(s.now)
            && t.finds.unique == s.finds.unique + [id] && t.finds.uniqueAt == s.finds.uniqueAt + [s.now]
  {
    hide Targeted, Paused;
    var u := Ticked(s, x);
    var t := Taken(p, u, id, true);
    assert t.finds.unique == s.finds.unique + [id] && t.finds.uniqueAt == s.finds.uniqueAt + [s.now];
    PauseStarts(p, t, x);
  }

  lemma PauseStarts(p: Pacing, t: State, x: Stimulus)
    requires p.model.Continuous? && p.resultInterval > 0 && t.paceStart.None? && |t.finds.unique| >= p.initialResults
    ensures Paused(p, t, x, true).paceStart == Some(t.now) && Paused(p, t, x, true).finds == t.finds
  {
    hide Due, Closed;
  }

  /** Every configuration with a connection table has a run that breaks the pace: one registrant more
      than the initial ones taken while away, and the next, in no time, before its turn. */
  lemma PaceFails(p: Pacing) returns (xs: seq<Stimulus>, m: nat)
    requires p.model.Continuous? && p.conns && p.resultInterval > 0
    ensures 1 <= m < |Run(p, xs).finds.unique| == |Run(p, xs).finds.uniqueAt| && m >= p.initialResults
    ensures Run(p, xs).paceStart == Some(0) && Run(p, xs).finds.uniqueAt[m] == 0
    ensures !InTurn(p, Run(p, xs).finds.uniqueAt[m], Run(p, xs).paceStart, m)
  {
    m := Max(p.initialResults, 0) + 1;
    var away, last := AwayTakes(p, m), AwayTake(p.self + m + 1).(offline := false);
    xs := away + [last];
    AllAtOnce(p, m);
    RunAppend(p, away, last);
    hide Step, Run, AwayTakes, AtOnce, InTurn;
    BreaksPace(p, Run(p, away), m);
  }

  /** The registrant after those taken at once comes before its turn. */
  lemma BreaksPace(p: Pacing, s: State, m: nat)
    requires p.model.Continuous? && p.resultInterval > 0 && AtOnce(p, s, m) && m > p.initialResults
    ensures var t := Step(p, s, AwayTake(p.self + m + 1).(offline := false));
            && m < |t.finds.unique| == |t.finds.uniqueAt| && t.paceStart == Some(0) && t.finds.uniqueAt[m] == 0
            && !InTurn(p, t.finds.uniqueAt[m], t.paceStart, m)
  {
    hide Step, Due;
    OnlineTake(p, s, AwayTake(p.self + m + 1).(offline := false), p.self + m + 1);
    PositiveTurn(m - p.initialResults, p.resultInterval);
  }

  lemma PositiveTurn(over: nat, interval: nat)
    requires over > 0 && interval > 0
    ensures Due(0, over, interval) > 0
  {
  }

  /** Every distinct registrant after the first, from the initial ones on, is taken in its turn. */
  ghost predicate Paced(p: Pacing, s: State) {
    && |s.finds.uniqueAt| == |s.finds.unique|
    && (forall m: nat :: 1 <= m < |s.finds.unique| && m >= p.initialResults ==>
          InTurn(p, s.finds.uniqueAt[m], s.paceStart, m))
  }

  /** Every run of a continuous search keeps its pace exactly when it has no connection table to tell it
      that its node is away. */
  lemma PaceExactly(p: Pacing)
    requires p.fLookup >= 1 && p.model.Continuous? && p.resultInterval > 0
    ensures (forall xs :: Paced(p, Run(p, xs))) <==> !p.conns
  {
    if p.conns {
      var xs, m := PaceFails(p);
      assert !Paced(p, Run(p, xs));
    } else {
      hide Run, InTurn;
      forall xs ensures Paced(p, Run(p, xs)) {
        AlwaysPaced(p, xs);
        LengthsAgree(p, xs);
        forall m: nat | 1 <= m < |Run(p, xs).finds.unique| && m >= p.initialResults
          ensures InTurn(p, Run(p, xs).finds.uniqueAt[m], Run(p, xs).paceStart, m)
        {
          PaceHolds(p, xs, m);
        }
      }
    }
  }

  lemma LengthsAgree(p: Pacing, xs: seq<Stimulus>)
    requires p.fLookup >= 1
    ensures |Run(p, xs).finds.uniqueAt| == |Run(p, xs).finds.unique|
  {
    hide Run, AccountInv, PaceInv, ClockInv;
    RunInv(p, xs);
  }

  // ------------------------------------------------------------- a round, as a table

  /** The round brings a result of another node. */
  predicate Brings(p: Pacing, x: Stimulus) {
    x.pick.Node? && x.pick.id != p.self
  }

  predicate BringsNew(p: Pacing, s: State, x: Stimulus) {
    Brings(p, x) && x.pick.registered && x.pick.id !in s.finds.unique
  }

  /** A result taken while the node is away, or has its slots full, ends its session at once. */
  predicate GivesUp(p: Pacing, x: Stimulus) {
    Brings(p, x) && p.conns && if p.model.Slots? then x.full else x.offline
  }

  /** `id` was dialed less than the redial wait ago. */
  ghost predicate DialedLately(made: seq<Dial>, id: nat, now: int, wait: int) {
    exists k :: 0 <= k < |made| && made[k].id == id && now - made[k].at < wait
  }

  /** Every registrant brought to a searcher with a free slot is dialed, unless it was lately. */
  ghost predicate DialsNow(p: Pacing, made: seq<Dial>, now: int, x: Stimulus) {
    && Brings(p, x) && x.pick.registered && p.model.Slots? && p.conns && !x.full
    && !DialedLately(made, x.pick.id, now, p.redialWait)
  }

  /** The target of the current lookup is met with this result. */
  predicate MeetsTarget(p: Pacing, s: State, x: Stimulus) {
    && Brings(p, x) && p.model.Scheduled? && p.targetCount > 0
    && |s.lookupSeen + if x.pick.registered then {x.pick.id} else {}| >= p.fLookup
  }

  /** The session is over: the iterator's end, the request timeout, a result while away or full, the last slot
      filled, or the lookup's target met. */
  ghost predicate EndsHere(p: Pacing, s: State, x: Stimulus) {
    || x.pick.Ended? || (x.pick.Timer? && p.model.Scheduled? && p.requestTimeout)
    || GivesUp(p, x) || MeetsTarget(p, s, x)
    || (DialsNow(p, s.dials.made, s.now + x.dt, x) && x.dial.Connected? && x.filled)
  }

  /** In the slot model, the search is over with enough distinct registrants. */
  ghost predicate EnoughFound(p: Pacing, s: State, x: Stimulus) {
    && Brings(p, x) && !EndsHere(p, s, x) && p.model.Slots? && p.targetCount > 0
    && |s.finds.unique| + (if BringsNew(p, s, x) then 1 else 0) >= p.targetCount
  }

  /** The continuous search has to wait for the turn of the next result. */
  ghost predicate WaitsTurn(p: Pacing, s: State, x: Stimulus) {
    && BringsNew(p, s, x) && !EndsHere(p, s, x) && p.model.Continuous? && p.resultInterval > 0
    && |s.finds.unique| + 1 > p.initialResults
  }

  /** From the last of the initial results on, the pace is measured. */
  ghost predicate StartsPace(p: Pacing, s: State, x: Stimulus) {
    && BringsNew(p, s, x) && !EndsHere(p, s, x) && p.model.Continuous? && p.resultInterval > 0
    && |s.finds.unique| + 1 >= p.initialResults
  }

  ghost predicate Pauses(p: Pacing, s: State, x: Stimulus) {
    && Brings(p, x) && !EndsHere(p, s, x) && !EnoughFound(p, s, x)
    && p.maxPause && (BringsNew(p, s, x) || !p.pauseNovelOnly)
  }

  /** The deadline comes, instead of a result or during a wait. */
  ghost predicate CutOff(p: Pacing, s: State, x: Stimulus) {
    x.pick.Deadline? || (WaitsTurn(p, s, x) && x.stopPace) || (Pauses(p, s, x) && x.stopPause)
  }

  /** Where a session that is over leaves the searcher. */
  function Afterwards(p: Pacing, s: State, x: Stimulus): Pc {
    match p.model
    case Scheduled => if x.stillAway then Away else if s.idx < |p.schedule| then Scheduling else Done
    case Continuous => if !x.away then Done else if x.stillAway then Away else Consuming
    case Slots => if p.conns && p.resumable && x.parks then Parked else Done
  }

  /** When the turn of the next result comes, for a search whose pace starts now if it has not. */
  function Turn(p: Pacing, s: State, now: int): int {
    var start := if s.paceStart.Some? then s.paceStart.value else now;
    start + (|s.finds.unique| + 1 - p.initialResults) * p.resultInterval
  }

  /** What a round of the consume loop leads to. */
  ghost predicate Led(p: Pacing, s: State, x: Stimulus, t: State) {
    && (t.hitDeadline <==> s.hitDeadline || CutOff(p, s, x))
    && t.pc == (if CutOff(p, s, x) || EnoughFound(p, s, x) then Done
                else if EndsHere(p, s, x) then Afterwards(p, s, x) else Consuming)
    && t.idx == s.idx
    && t.paceStart == (if s.paceStart.None? && StartsPace(p, s, x) then Some(s.now + x.dt) else s.paceStart)
    && t.dials.made == (if DialsNow(p, s.dials.made, s.now + x.dt, x)
                        then s.dials.made + [Dial(x.pick.id, s.now + x.dt, x.dial, x.filled)] else s.dials.made)
  }

  /** ... and how long it takes. */
  ghost predicate Took(p: Pacing, s: State, x: Stimulus, t: State) {
    var now := s.now + x.dt;
    !CutOff(p, s, x) ==>
      t.now == (if WaitsTurn(p, s, x) then Max(now, Turn(p, s, now)) else now)
               + (if Pauses(p, s, x) then x.pause else 0)
  }

  /** Each round of the consume loop does what the table says. */
  lemma RoundTable(p: Pacing, s: State, x: Stimulus)
    requires s.pc.Consuming? && DialsInv(p, s)
    ensures Led(p, s, x, Step(p, s, x)) && Took(p, s, x, Step(p, s, x))
  {
    if Brings(p, x) {
      RoundDials(p, s, x);
      hide Recently, DialsInv, DialedLately;
      RoundOfResult(p, s, x);
    } else {
      RoundWithout(p, s, x);
    }
  }

  /** A round that brings no result. */
  lemma RoundWithout(p: Pacing, s: State, x: Stimulus)
    requires s.pc.Consuming? && !Brings(p, x)
    ensures Led(p, s, x, Step(p, s, x)) && Took(p, s, x, Step(p, s, x))
  {
    EndSessionTable(p, Ticked(s, x), x);
    hide EndSession, DialedLately, Decided, Turn;
  }

  /** Long enough since a node's last dial is long enough since all of them. */
  lemma RoundDials(p: Pacing, s: State, x: Stimulus)
    requires DialsInv(p, s) && Brings(p, x)
    ensures Recently(s.dials.last, x.pick.id, s.now + x.dt, p.redialWait)
        <==> DialedLately(s.dials.made, x.pick.id, s.now + x.dt, p.redialWait)
  {
    var id, now, d := x.pick.id, s.now + x.dt, s.dials;
    if Recently(d.last, id, now, p.redialWait) {
      assert LastDial(d.made, id, d.last[id]);
    }
    if DialedLately(d.made, id, now, p.redialWait) {
      var k :| 0 <= k < |d.made| && d.made[k].id == id && now - d.made[k].at < p.redialWait;
      assert MadeOk(d, k, s.now, s.finds.unique);
    }
  }

  /** The searcher with a result booked, as the table sees it. */
  ghost predicate Booked(p: Pacing, s: State, x: Stimulus, u: State)
    requires Brings(p, x)
  {
    && u.pc == s.pc && u.now == s.now + x.dt && u.idx == s.idx && u.hitDeadline == s.hitDeadline
    && u.dials == s.dials && u.paceStart == s.paceStart
    && |u.finds.unique| == |s.finds.unique| + (if BringsNew(p, s, x) then 1 else 0)
    && (p.model.Scheduled? ==> u.lookupSeen == s.lookupSeen + if x.pick.registered then {x.pick.id} else {})
  }

  lemma RoundOfResult(p: Pacing, s: State, x: Stimulus)
    requires s.pc.Consuming? && Brings(p, x)
    requires Recently(s.dials.last, x.pick.id, s.now + x.dt, p.redialWait)
        <==> DialedLately(s.dials.made, x.pick.id, s.now + x.dt, p.redialWait)
    ensures Led(p, s, x, Step(p, s, x)) && Took(p, s, x, Step(p, s, x))
  {
    hide Recently, DialedLately, Targeted;
    var u := Taken(p, Ticked(s, x), x.pick.id, x.pick.registered);
    assert Booked(p, s, x, u);
    hide Taken, Led, Took, Decided;
    RoundDecided(p, s, x, u);
  }

  lemma EndSessionTable(p: Pacing, s: State, x: Stimulus)
    ensures var t := EndSession(p, s, x);
            && t.pc == Afterwards(p, s, x) && t.idx == s.idx && t.hitDeadline == s.hitDeadline
            && t.dials == s.dials && t.now == s.now && t.paceStart == s.paceStart
  {
  }

  lemma RoundDecided(p: Pacing, s: State, x: Stimulus, u: State)
    requires s.pc.Consuming? && Brings(p, x) && Booked(p, s, x, u)
    requires Recently(s.dials.last, x.pick.id, s.now + x.dt, p.redialWait)
        <==> DialedLately(s.dials.made, x.pick.id, s.now + x.dt, p.redialWait)
    ensures var t := Decided(p, u, x, x.pick.id, x.pick.registered, BringsNew(p, s, x));
            Led(p, s, x, t) && Took(p, s, x, t)
  {
    assert GivesUp(p, x) ==> EndsHere(p, s, x);
    hide Recently, DialsNow, Booked, EndSession, Paused, Tried, Decided, EndsHere, EnoughFound, Led, Took, BringsNew;
    var v := Tried(p, u, x, x.pick.id, x.pick.registered);
    DecidedTable(p, s, x, u);
    TriedTable(p, s, x, u);
    if EndsHere(p, s, x) {
      RoundEnds(p, s, x, if GivesUp(p, x) then u else v);
    } else if EnoughFound(p, s, x) {
      RoundFinishes(p, s, x, v);
    } else {
      RoundGoesOn(p, s, x, v);
    }
  }

  /** The searcher with a result booked and dialed, as the table sees it. */
  ghost predicate Ready(p: Pacing, s: State, x: Stimulus, v: State)
    requires Brings(p, x)
  {
    && v.pc == s.pc && v.now == s.now + x.dt && v.idx == s.idx && v.hitDeadline == s.hitDeadline
    && v.paceStart == s.paceStart && |v.finds.unique| == |s.finds.unique| + (if BringsNew(p, s, x) then 1 else 0)
    && v.dials.made == if DialsNow(p, s.dials.made, s.now + x.dt, x)
                       then s.dials.made + [Dial(x.pick.id, s.now + x.dt, x.dial, x.filled)] else s.dials.made
  }

  lemma RoundEnds(p: Pacing, s: State, x: Stimulus, v: State)
    requires s.pc.Consuming? && Brings(p, x) && EndsHere(p, s, x) && Ready(p, s, x, v)
    ensures var t := EndSession(p, Cut(v, BringsNew(p, s, x)), x); Led(p, s, x, t) && Took(p, s, x, t)
  {
    EndSessionTable(p, Cut(v, BringsNew(p, s, x)), x);
    NotOtherwise(p, s, x);
    hide EndSession, EndsHere, EnoughFound, CutOff, WaitsTurn, StartsPace, Pauses, DialsNow, BringsNew, Turn;
  }

  lemma RoundFinishes(p: Pacing, s: State, x: Stimulus, v: State)
    requires s.pc.Consuming? && Brings(p, x) && EnoughFound(p, s, x) && Ready(p, s, x, v)
    ensures var t := Finish(Cut(v, BringsNew(p, s, x))); Led(p, s, x, t) && Took(p, s, x, t)
  {
    NotOtherwise(p, s, x);
    hide EndsHere, EnoughFound, CutOff, WaitsTurn, StartsPace, Pauses, DialsNow, BringsNew, Turn, Afterwards;
  }

  lemma RoundGoesOn(p: Pacing, s: State, x: Stimulus, v: State)
    requires s.pc.Consuming? && Brings(p, x) && !EndsHere(p, s, x) && !EnoughFound(p, s, x) && Ready(p, s, x, v)
    ensures var t := Paused(p, v, x, BringsNew(p, s, x)); Led(p, s, x, t) && Took(p, s, x, t)
  {
    PausedTable(p, s, x, v);
    hide EndsHere, EnoughFound, CutOff, StartsPace, Took, Paused, DialsNow, BringsNew, Afterwards;
  }

  lemma NotOtherwise(p: Pacing, s: State, x: Stimulus)
    requires Brings(p, x) && (EndsHere(p, s, x) || EnoughFound(p, s, x))
    ensures !CutOff(p, s, x) && !WaitsTurn(p, s, x) && !Pauses(p, s, x) && !StartsPace(p, s, x)
    ensures EndsHere(p, s, x) ==> !EnoughFound(p, s, x)
  {
    hide GivesUp, MeetsTarget, DialsNow;
  }

  /** Which way a booked result goes. */
  lemma DecidedTable(p: Pacing, s: State, x: Stimulus, u: State)
    requires s.pc.Consuming? && Brings(p, x) && Booked(p, s, x, u)
    requires Recently(s.dials.last, x.pick.id, s.now + x.dt, p.redialWait)
        <==> DialedLately(s.dials.made, x.pick.id, s.now + x.dt, p.redialWait)
    ensures var novel := BringsNew(p, s, x);
            var v := Tried(p, u, x, x.pick.id, x.pick.registered);
            Decided(p, u, x, x.pick.id, x.pick.registered, novel)
            == (if EndsHere(p, s, x) then EndSession(p, Cut(if GivesUp(p, x) then u else v, novel), x)
                else if EnoughFound(p, s, x) then Finish(Cut(v, novel)) else Paused(p, v, x, novel))
  {
    hide Recently, DialedLately, EndSession, Paused, Finish, Cut, Tried;
  }

  lemma TriedTable(p: Pacing, s: State, x: Stimulus, u: State)
    requires s.pc.Consuming? && Brings(p, x) && Booked(p, s, x, u)
    requires Recently(s.dials.last, x.pick.id, s.now + x.dt, p.redialWait)
        <==> DialedLately(s.dials.made, x.pick.id, s.now + x.dt, p.redialWait)
    ensures var v := Tried(p, u, x, x.pick.id, x.pick.registered);
            if GivesUp(p, x) then Ready(p, s, x, u) else Ready(p, s, x, v)
  {
    hide Recently, DialedLately;
  }

  lemma PausedTable(p: Pacing, s: State, x: Stimulus, v: State)
    requires s.pc.Consuming? && Brings(p, x) && !EndsHere(p, s, x) && !EnoughFound(p, s, x)
    requires Ready(p, s, x, v)
    ensures var t := Paused(p, v, x, BringsNew(p, s, x));
            && (t.hitDeadline <==> s.hitDeadline || CutOff(p, s, x)) && Took(p, s, x, t)
            && t.pc == (if CutOff(p, s, x) then Done else Consuming) && t.idx == v.idx && t.dials == v.dials
            && t.paceStart == (if s.paceStart.None? && StartsPace(p, s, x) then Some(s.now + x.dt) else s.paceStart)
  {
    hide EndsHere, EnoughFound;
  }

  /** The other rounds: the wait for the next scheduled time, for the node's return, or for a free slot. */
  lemma WaitTable(p: Pacing, s: State, x: Stimulus)
    requires !s.pc.Consuming? && ScheduleInv(p, s) && (s.pc.Scheduling? ==> p.model.Scheduled?)
    ensures var t := Step(p, s, x);
            && t.finds == s.finds && t.costs == s.costs && t.lookups == s.lookups && t.dials == s.dials
            && t.log == s.log && (s.pc.Done? ==> t == s)
            && (!s.pc.Done? ==> (t.hitDeadline <==> s.hitDeadline || x.pick.Deadline?))
            && t.now == (if s.pc.Done? then s.now
                         else if s.pc.Scheduling? && !x.pick.Deadline? then Max(s.now + x.dt, p.schedule[s.idx])
                         else s.now + x.dt)
            && t.pc == (if s.pc.Done? || x.pick.Deadline? then Done
                        else if s.pc.Scheduling? then Consuming
                        else if s.pc.Away? && x.stillAway then Away
                        else if !p.model.Scheduled? then Consuming
                        else if s.idx < |p.schedule| then Scheduling else Done)
            && t.idx == s.idx + (if s.pc.Scheduling? && !x.pick.Deadline? then 1 else 0)
  {
  }

  /** A search begins with nothing found, looking up at once, or waiting for its first scheduled time if any. */
  lemma StartsOff(p: Pacing)
    ensures var s := Run(p, []);
            && s.pc == (if !p.model.Scheduled? then Consuming else if |p.schedule| > 0 then Scheduling else Done)
            && s.now == 0 && s.idx == 0 && s.log == [] && !s.hitDeadline && s.paceStart.None? && s.dials.made == []
            && s.lookups.done == 0 && s.finds.unique == [] && s.costs.queries == 0 && s.costs.contacted == 0
  {
  }

  lemma RoundLooksUpNothing(p: Pacing, s: State, x: Stimulus)
    requires !p.model.Scheduled?
    ensures Step(p, s, x).lookups == s.lookups
  {
    hide Found, Targeted, Recently, Over, Due, Paces, Closed;
    if s.pc.Consuming? && Brings(p, x) {
      var u := Taken(p, Ticked(s, x), x.pick.id, x.pick.registered);
      hide Taken;
      DecidedLooksUpNothing(p, u, x, x.pick.id, x.pick.registered, Novel(Ticked(s, x), x.pick.id, x.pick.registered));
    }
  }

  lemma DecidedLooksUpNothing(p: Pacing, s: State, x: Stimulus, id: nat, registered: bool, novel: bool)
    requires !p.model.Scheduled?
    ensures Decided(p, s, x, id, registered, novel).lookups == s.lookups
  {
    hide EndSession, Paused, Abandons, Enough;
    var t := Tried(p, s, x, id, registered);
    SameLookups(p, Cut(s, novel), x);
    SameLookups(p, Cut(t, novel), x);
    PausedLooksUpNothing(p, t, x, novel);
  }

  lemma SameLookups(p: Pacing, s: State, x: Stimulus)
    requires !p.model.Scheduled?
    ensures EndSession(p, s, x).lookups == s.lookups
  {
  }

  lemma PausedLooksUpNothing(p: Pacing, s: State, x: Stimulus, novel: bool)
    ensures Paused(p, s, x, novel).lookups == s.lookups
  {
    hide Over, Due, Paces;
  }

  /** Only a scheduled search reports lookups. */
  lemma {:induction false} OnlyScheduledLooksUp(p: Pacing, xs: seq<Stimulus>)
    requires !p.model.Scheduled?
    ensures Run(p, xs).lookups == Lookups(0, 0, [], [], [], [])
  {
    hide Step;
    if xs != [] {
      OnlyScheduledLooksUp(p, xs[..|xs| - 1]);
      RoundLooksUpNothing(p, Run(p, xs[..|xs| - 1]), xs[|xs| - 1]);
    }
  }

  // ------------------------------------------------------- a run, seen from outside

  /** The results the iterator delivered, other than the searcher's own record. */
  function Delivered(p: Pacing, xs: seq<Stimulus>): seq<Take> {
    if xs == [] then [] else
      var s, x, before := Run(p, xs[..|xs| - 1]), xs[|xs| - 1], Delivered(p, xs[..|xs| - 1]);
      if s.pc.Consuming? && Brings(p, x) then before + [Take(x.pick.id, x.pick.registered, s.now + x.dt)] else before
  }

  /** The contacts its iterators made. */
  function Contacts(p: Pacing, xs: seq<Stimulus>): (nat, nat) {
    if xs == [] then (0, 0) else
      var s, x, before := Run(p, xs[..|xs| - 1]), xs[|xs| - 1], Contacts(p, xs[..|xs| - 1]);
      if s.pc.Consuming? then (before.0 + x.dq, before.1 + x.dc) else before
  }

  /** The dials it is to make. */
  ghost function ToDial(p: Pacing, xs: seq<Stimulus>): seq<Dial> {
    if xs == [] then [] else
      var s, x, before := Run(p, xs[..|xs| - 1]), xs[|xs| - 1], ToDial(p, xs[..|xs| - 1]);
      if s.pc.Consuming? && DialsNow(p, before, s.now + x.dt, x)
      then before + [Dial(x.pick.id, s.now + x.dt, x.dial, x.filled)] else before
  }

  lemma StepLog(p: Pacing, s: State, x: Stimulus)
    ensures Step(p, s, x).log == if s.pc.Consuming? && Brings(p, x)
                                 then s.log + [Take(x.pick.id, x.pick.registered, s.now + x.dt)] else s.log
  {
    hide Found, Targeted, LookedUp, Closed, Recently, Over, Due, Paces;
    if s.pc.Consuming? && Brings(p, x) {
      var u := Taken(p, Ticked(s, x), x.pick.id, x.pick.registered);
      hide Taken;
      DecidedLog(p, u, x, x.pick.id, x.pick.registered, Novel(Ticked(s, x), x.pick.id, x.pick.registered));
    }
  }

  lemma DecidedLog(p: Pacing, s: State, x: Stimulus, id: nat, registered: bool, novel: bool)
    ensures Decided(p, s, x, id, registered, novel).log == s.log
  {
    hide EndSession, Paused, Abandons, Enough;
    var t := Tried(p, s, x, id, registered);
    EndSessionLog(p, Cut(s, novel), x);
    EndSessionLog(p, Cut(t, novel), x);
    PausedLog(p, t, x, novel);
  }

  lemma EndSessionLog(p: Pacing, s: State, x: Stimulus)
    ensures EndSession(p, s, x).log == s.log
  {
  }

  lemma PausedLog(p: Pacing, s: State, x: Stimulus, novel: bool)
    ensures Paused(p, s, x, novel).log == s.log
  {
  }

  /** Every result delivered is booked as it came, and nothing else is. */
  lemma {:induction false} LogIsDelivered(p: Pacing, xs: seq<Stimulus>)
    ensures Run(p, xs).log == Delivered(p, xs)
  {
    hide Step;
    if xs != [] {
      LogIsDelivered(p, xs[..|xs| - 1]);
      StepLog(p, Run(p, xs[..|xs| - 1]), xs[|xs| - 1]);
    }
  }

  /** Every registrant delivered to a searcher with a free slot is dialed then, unless it was within the redial
      wait; nothing else is dialed; and the counts reported are those of the outcomes. */
  lemma {:induction false} DialsAreDue(p: Pacing, xs: seq<Stimulus>)
    requires p.fLookup >= 1
    ensures Run(p, xs).dials.made == ToDial(p, xs)
    ensures var d := Run(p, xs).dials;
            && d.attempts == |ToDial(p, xs)| && d.filledAt == FilledAt(ToDial(p, xs))
            && d.outbound == Outcomes(ToDial(p, xs), PeerTable.Connected)
            && d.refused == Outcomes(ToDial(p, xs), PeerTable.TargetFull)
  {
    hide Step, BookInv, AccountInv, PaceInv, ClockInv, Apart, MadeOk, LastDial, Outcomes, FilledAt, DialsNow;
    RunInv(p, xs);
    if xs != [] {
      DialsAreDue(p, xs[..|xs| - 1]);
      RunInv(p, xs[..|xs| - 1]);
      StepDialsMade(p, Run(p, xs[..|xs| - 1]), xs[|xs| - 1]);
    }
  }

  lemma StepDialsMade(p: Pacing, s: State, x: Stimulus)
    requires DialsInv(p, s)
    ensures Step(p, s, x).dials.made == if s.pc.Consuming? && DialsNow(p, s.dials.made, s.now + x.dt, x)
                                        then s.dials.made + [Dial(x.pick.id, s.now + x.dt, x.dial, x.filled)]
                                        else s.dials.made
  {
    if s.pc.Consuming? {
      hide Step, DialsInv, DialsNow, Afterwards, EndsHere, EnoughFound, CutOff, StartsPace, Took;
      RoundTable(p, s, x);
    } else {
      hide DialsInv, DialsNow;
      NotDialing(p, s, x);
    }
  }

  lemma NotDialing(p: Pacing, s: State, x: Stimulus)
    requires !s.pc.Consuming?
    ensures Step(p, s, x).dials == s.dials
  {
  }

  // ---- the contacts

  /** All contacts so far, those of the open iterator included. */
  function Spent(s: State): (nat, nat) {
    (s.costs.queries + s.iterQueries, s.costs.contacted + s.iterContacted)
  }

  lemma EndSessionSpent(p: Pacing, s: State, x: Stimulus)
    ensures Spent(EndSession(p, s, x)) == Spent(s)
    ensures EndSession(p, s, x).costs.targetQueries == s.costs.targetQueries
    ensures EndSession(p, s, x).costs.targetContacted == s.costs.targetContacted
    ensures EndSession(p, s, x).finds == s.finds
  {
    hide LookedUp;
  }

  lemma FinishSpent(s: State)
    requires s.pc.Consuming?
    ensures Spent(Finish(s)) == Spent(s) && Finish(s).finds == s.finds
    ensures Finish(s).costs.targetQueries == s.costs.targetQueries
    ensures Finish(s).costs.targetContacted == s.costs.targetContacted
  {
  }

  lemma PausedSpent(p: Pacing, s: State, x: Stimulus, novel: bool)
    requires s.pc.Consuming?
    ensures var t := Paused(p, s, x, novel);
            && Spent(t) == Spent(s) && t.finds == s.finds
            && t.costs.targetQueries == s.costs.targetQueries && t.costs.targetContacted == s.costs.targetContacted
  {
    hide Over, Due, PaceStart, Paces;
  }

  lemma DecidedSpent(p: Pacing, s: State, x: Stimulus, id: nat, registered: bool, novel: bool)
    requires s.pc.Consuming?
    ensures var t := Decided(p, s, x, id, registered, novel);
            && Spent(t) == Spent(s) && t.finds == s.finds
            && t.costs.targetQueries == s.costs.targetQueries && t.costs.targetContacted == s.costs.targetContacted
  {
    hide EndSession, Paused, Finish, Abandons, Enough;
    var t := Tried(p, s, x, id, registered);
    EndSessionSpent(p, Cut(s, novel), x);
    EndSessionSpent(p, Cut(t, novel), x);
    FinishSpent(Cut(t, novel));
    PausedSpent(p, t, x, novel);
  }

  /** The contacts by the time of the `f`-th distinct registrant are those to the target. */
  ghost predicate TargetNoted(s: State, t: State, f: nat, spent: (nat, nat)) {
    && |s.finds.unique| <= |t.finds.unique|
    && (if |s.finds.unique| < f <= |t.finds.unique|
        then t.costs.targetQueries == spent.0 && t.costs.targetContacted == spent.1
        else t.costs.targetQueries == s.costs.targetQueries && t.costs.targetContacted == s.costs.targetContacted)
  }

  lemma StepSpent(p: Pacing, s: State, x: Stimulus)
    requires BookInv(p, s)
    ensures Spent(Step(p, s, x)) == if s.pc.Consuming? then (Spent(s).0 + x.dq, Spent(s).1 + x.dc) else Spent(s)
    ensures TargetNoted(s, Step(p, s, x), p.fLookup, Spent(Step(p, s, x)))
  {
    hide FindsInv, LookupsInv, CostsInv, Step, TargetNoted;
    if s.pc.Consuming? && Brings(p, x) {
      ResultSpent(p, s, x);
    } else if s.pc.Consuming? {
      NoResultSpent(p, s, x);
    } else {
      WaitSpent(p, s, x);
    }
  }

  lemma NoResultSpent(p: Pacing, s: State, x: Stimulus)
    requires s.pc.Consuming? && !Brings(p, x)
    ensures Spent(Step(p, s, x)) == (Spent(s).0 + x.dq, Spent(s).1 + x.dc)
    ensures TargetNoted(s, Step(p, s, x), p.fLookup, Spent(Step(p, s, x)))
  {
    EndSessionSpent(p, Ticked(s, x), x);
    FinishSpent(Ticked(s, x).(hitDeadline := true));
    hide EndSession, Finish, Decided;
  }

  lemma WaitSpent(p: Pacing, s: State, x: Stimulus)
    requires !s.pc.Consuming? && s.iterQueries == 0 && s.iterContacted == 0
    ensures Spent(Step(p, s, x)) == Spent(s) && TargetNoted(s, Step(p, s, x), p.fLookup, Spent(Step(p, s, x)))
  {
  }

  lemma ResultSpent(p: Pacing, s: State, x: Stimulus)
    requires BookInv(p, s) && s.pc.Consuming? && Brings(p, x)
    ensures Spent(Step(p, s, x)) == (Spent(s).0 + x.dq, Spent(s).1 + x.dc)
    ensures TargetNoted(s, Step(p, s, x), p.fLookup, Spent(Step(p, s, x)))
  {
    var t := Ticked(s, x);
    TakenSpent(p, s, x);
    hide BookInv, Taken, Decided;
    DecidedSpent(p, Taken(p, t, x.pick.id, x.pick.registered), x, x.pick.id, x.pick.registered,
                 Novel(t, x.pick.id, x.pick.registered));
  }

  lemma TakenSpent(p: Pacing, s: State, x: Stimulus)
    requires BookInv(p, s) && s.pc.Consuming? && Brings(p, x)
    ensures var t := Taken(p, Ticked(s, x), x.pick.id, x.pick.registered);
            && t.pc.Consuming? && Spent(t) == Spent(Ticked(s, x)) && TargetNoted(s, t, p.fLookup, Spent(t))
  {
    hide FindsInv, LookupsInv;
  }

  /** The contacts a search reports are those its iterators made. */
  lemma {:induction false} ContactsAddUp(p: Pacing, xs: seq<Stimulus>)
    requires p.fLookup >= 1
    ensures Spent(Run(p, xs)) == Contacts(p, xs)
    ensures !Run(p, xs).pc.Consuming? ==>
              (Run(p, xs).costs.queries, Run(p, xs).costs.contacted) == Contacts(p, xs)
  {
    hide Step, FindsInv, CostsInv, LookupsInv, AccountInv, PaceInv, ClockInv, DialsInv, Run, TargetNoted;
    RunInv(p, xs);
    if xs == [] {
      NothingSpent(p);
    } else {
      ContactsAddUp(p, xs[..|xs| - 1]);
      RunInv(p, xs[..|xs| - 1]);
      RunLast(p, xs);
      StepSpent(p, Run(p, xs[..|xs| - 1]), xs[|xs| - 1]);
    }
  }

  lemma NothingSpent(p: Pacing)
    ensures Spent(Run(p, [])) == (0, 0)
  {
  }

  lemma RunLast(p: Pacing, xs: seq<Stimulus>)
    requires xs != []
    ensures Run(p, xs) == Step(p, Run(p, xs[..|xs| - 1]), xs[|xs| - 1])
  {
  }

  /** The contacts to the target are those made by the round that brought the last registrant needed. */
  lemma {:induction false} TargetContacts(p: Pacing, xs: seq<Stimulus>, k: nat)
    requires p.fLookup >= 1 && k < |xs|
    requires |Run(p, xs[..k]).finds.unique| < p.fLookup <= |Run(p, xs[..k + 1]).finds.unique|
    ensures (Run(p, xs).costs.targetQueries, Run(p, xs).costs.targetContacted) == Contacts(p, xs[..k + 1])
    ensures p.fLookup <= |Run(p, xs).finds.unique|
    decreases |xs|
  {
    var before := xs[..|xs| - 1];
    hide Step, Contacts, FindsInv, CostsInv, LookupsInv, AccountInv, PaceInv, ClockInv, DialsInv;
    RunInv(p, before);
    StepSpent(p, Run(p, before), xs[|xs| - 1]);
    if k + 1 == |xs| {
      assert xs[..k] == before && xs[..k + 1] == xs;
      ContactsAddUp(p, xs);
    } else {
      assert before[..k] == xs[..k] && before[..k + 1] == xs[..k + 1];
      TargetContacts(p, before, k);
    }
  }

  // ---- the lookups

  /** A point of a run: the results delivered by then, the time, and the contacts made. */
  datatype Edge = Edge(pos: nat, at: int, contacts: (nat, nat))

  function Here(p: Pacing, xs: seq<Stimulus>): Edge {
    Edge(|Delivered(p, xs)|, Run(p, xs).now, Contacts(p, xs))
  }

  /** Where a scheduled search began to consume. */
  function Opens(p: Pacing, xs: seq<Stimulus>): seq<Edge> {
    if xs == [] then [] else
      var before := xs[..|xs| - 1];
      if !Run(p, before).pc.Consuming? && Run(p, xs).pc.Consuming? then Opens(p, before) + [Here(p, xs)]
      else Opens(p, before)
  }

  /** Where it stopped. */
  function Closes(p: Pacing, xs: seq<Stimulus>): seq<Edge> {
    if xs == [] then [] else
      var before := xs[..|xs| - 1];
      if Run(p, before).pc.Consuming? && !Run(p, xs).pc.Consuming? then Closes(p, before) + [Here(p, xs)]
      else Closes(p, before)
  }

  /** The distinct registrants delivered between two points. */
  function Distinctly(log: seq<Take>, from: nat, to: nat): nat
    requires from <= to <= |log|
  {
    |Registrants(log[from..to])|
  }

  /** What is reported of lookup `i` is what was delivered, and what passed, between its ends. */
  ghost predicate LookupTold(l: Lookups, log: seq<Take>, o: Edge, c: Edge, i: nat) {
    && i < |l.results| && i < |l.latency| && i < |l.queries| && i < |l.contacted| && o.pos <= c.pos <= |log|
    && l.results[i] == Distinctly(log, o.pos, c.pos) && l.latency[i] == c.at - o.at
    && l.queries[i] == c.contacts.0 - o.contacts.0 && l.contacted[i] == c.contacts.1 - o.contacts.1
  }

  /** With a target, no earlier result of the lookup met it. */
  ghost predicate UnmetBefore(p: Pacing, log: seq<Take>, from: nat, to: nat) {
    from <= to <= |log| && (
      p.targetCount > 0 ==> forall j {:trigger Distinctly(log, from, j)} :: from <= j < to ==>
        Distinctly(log, from, j) < p.fLookup)
  }

  /** The lookup being made, opened at `o`. */
  ghost predicate Current(p: Pacing, s: State, o: Edge) {
    && o.pos <= |s.log| && s.lookupStart == o.at && s.lookupSeen == Registrants(s.log[o.pos..])
    && (s.costs.queries, s.costs.contacted) == o.contacts
    && UnmetBefore(p, s.log, o.pos, |s.log|) && (p.targetCount > 0 ==> |s.lookupSeen| < p.fLookup)
  }

  /** All lookups that have ended. */
  ghost predicate EndedTold(p: Pacing, l: Lookups, log: seq<Take>, os: seq<Edge>, cs: seq<Edge>) {
    && |cs| <= |os| && l.done <= |cs|
    && l.done == |l.results| == |l.latency| == |l.queries| == |l.contacted|
    && (forall i: nat :: i < l.done ==> LookupTold(l, log, os[i], cs[i], i))
    && (forall i: nat :: i < |cs| ==> UnmetBefore(p, log, os[i].pos, cs[i].pos))
  }

  ghost predicate OnSchedule(p: Pacing, os: seq<Edge>) {
    |os| <= |p.schedule| && forall i :: 0 <= i < |os| ==> os[i].at >= p.schedule[i]
  }

  ghost predicate Told(p: Pacing, s: State, os: seq<Edge>, cs: seq<Edge>) {
    && EndedTold(p, s.lookups, s.log, os, cs) && OnSchedule(p, os)
    && |os| == s.idx && |os| == |cs| + (if s.pc.Consuming? then 1 else 0)
    && |cs| == s.lookups.done + (if s.pc.Done? && s.hitDeadline && |cs| > s.lookups.done then 1 else 0)
    && (s.pc.Consuming? ==> Current(p, s, os[|cs|]))
  }

  lemma RegistrantsGrow(log: seq<Take>, from: nat, t: Take)
    requires from <= |log|
    ensures Registrants((log + [t])[from..]) == Registrants(log[from..]) + if t.registered then {t.id} else {}
  {
    assert (log + [t])[from..] == log[from..] + [t];
    LogGrows(log[from..], t);
  }

  /** Nothing that is said of results already delivered changes. */
  lemma StretchKept(log: seq<Take>, log': seq<Take>, from: nat, to: nat)
    requires log <= log' && from <= to <= |log|
    ensures Distinctly(log', from, to) == Distinctly(log, from, to)
  {
    assert log'[from..to] == log[from..to];
  }

  lemma UnmetKept(p: Pacing, log: seq<Take>, log': seq<Take>, from: nat, to: nat)
    requires log <= log' && UnmetBefore(p, log, from, to)
    ensures UnmetBefore(p, log', from, to)
  {
    hide Distinctly;
    forall j | from <= j < to ensures Distinctly(log', from, j) == Distinctly(log, from, j) {
      StretchKept(log, log', from, j);
    }
  }

  lemma EndedKept(p: Pacing, l: Lookups, log: seq<Take>, log': seq<Take>, os: seq<Edge>, os': seq<Edge>, cs: seq<Edge>)
    requires EndedTold(p, l, log, os, cs) && log <= log' && os <= os'
    ensures EndedTold(p, l, log', os', cs)
  {
    hide Distinctly, UnmetBefore;
    forall i: nat | i < l.done ensures LookupTold(l, log', os'[i], cs[i], i) {
      assert LookupTold(l, log, os[i], cs[i], i);
      StretchKept(log, log', os[i].pos, cs[i].pos);
    }
    forall i: nat | i < |cs| ensures UnmetBefore(p, log', os'[i].pos, cs[i].pos) {
      UnmetKept(p, log, log', os[i].pos, cs[i].pos);
    }
  }

  /** One more has ended, and is recorded. */
  lemma OneMoreEnded(p: Pacing, l: Lookups, l': Lookups, log: seq<Take>, os: seq<Edge>, cs: seq<Edge>, c: Edge)
    requires EndedTold(p, l, log, os, cs) && l.done == |cs| < |os| && l'.done == l.done + 1
    requires l'.done == |l'.results| == |l'.latency| == |l'.queries| == |l'.contacted|
    requires l.results <= l'.results && l.latency <= l'.latency
    requires l.queries <= l'.queries && l.contacted <= l'.contacted
    requires LookupTold(l', log, os[|cs|], c, |cs|) && UnmetBefore(p, log, os[|cs|].pos, c.pos)
    ensures EndedTold(p, l', log, os, cs + [c])
  {
    hide Distinctly, UnmetBefore;
    forall i: nat | i < l'.done ensures LookupTold(l', log, os[i], (cs + [c])[i], i) {
      if i < l.done { assert LookupTold(l, log, os[i], cs[i], i); }
    }
    forall i: nat | i < |cs + [c]| ensures UnmetBefore(p, log, os[i].pos, (cs + [c])[i].pos) {
      if i < |cs| { assert UnmetBefore(p, log, os[i].pos, cs[i].pos); }
    }
  }

  /** The registrants of the current lookup with those this round brings. */
  function SeenNow(p: Pacing, s: State, x: Stimulus): set<nat> {
    s.lookupSeen + if Brings(p, x) && x.pick.registered then {x.pick.id} else {}
  }

  /** What a round of a scheduled search's consume loop does to its lookups. */
  ghost predicate LookupRound(p: Pacing, s: State, x: Stimulus, t: State) {
    if t.pc.Consuming? then
      && t.lookupSeen == SeenNow(p, s, x) && t.lookupStart == s.lookupStart && t.lookups == s.lookups
      && t.costs.queries == s.costs.queries && t.costs.contacted == s.costs.contacted
      && (p.targetCount > 0 && |s.lookupSeen| < p.fLookup ==> |t.lookupSeen| < p.fLookup)
    else if CutOff(p, s, x) then t.lookups == s.lookups
    else
      && t.lookups.done == s.lookups.done + 1 && t.lookups.results == s.lookups.results + [|SeenNow(p, s, x)|]
      && t.lookups.latency == s.lookups.latency + [t.now - s.lookupStart]
      && t.lookups.queries == s.lookups.queries + [s.iterQueries + x.dq]
      && t.lookups.contacted == s.lookups.contacted + [s.iterContacted + x.dc]
  }

  lemma EndSessionLookup(p: Pacing, s: State, x: Stimulus)
    requires p.model.Scheduled?
    ensures var t := EndSession(p, s, x);
            && t.lookups.done == s.lookups.done + 1 && t.lookups.results == s.lookups.results + [|s.lookupSeen|]
            && t.lookups.latency == s.lookups.latency + [s.now - s.lookupStart]
            && t.lookups.queries == s.lookups.queries + [s.iterQueries]
            && t.lookups.contacted == s.lookups.contacted + [s.iterContacted] && t.now == s.now
            && !t.pc.Consuming?
  {
  }

  lemma PausedLookup(p: Pacing, s: State, x: Stimulus, novel: bool)
    requires s.pc.Consuming?
    ensures var t := Paused(p, s, x, novel);
            && t.lookups == s.lookups
            && (t.pc.Consuming? ==> t.lookupSeen == s.lookupSeen && t.lookupStart == s.lookupStart
                                    && t.costs.queries == s.costs.queries && t.costs.contacted == s.costs.contacted)
  {
    hide Over, Due, PaceStart, Paces;
  }

  lemma RoundLookup(p: Pacing, s: State, x: Stimulus)
    requires p.model.Scheduled? && s.pc.Consuming? && DialsInv(p, s)
    ensures LookupRound(p, s, x, Step(p, s, x))
  {
    if Brings(p, x) {
      RoundDials(p, s, x);
      ResultLookup(p, s, x);
    } else {
      EndSessionLookup(p, Ticked(s, x), x);
      hide EndSession, DialsInv, DialedLately, Consume;
      assert s.lookupSeen + {} == s.lookupSeen;
    }
  }

  lemma ResultLookup(p: Pacing, s: State, x: Stimulus)
    requires p.model.Scheduled? && s.pc.Consuming? && Brings(p, x)
    requires Recently(s.dials.last, x.pick.id, s.now + x.dt, p.redialWait)
        <==> DialedLately(s.dials.made, x.pick.id, s.now + x.dt, p.redialWait)
    ensures LookupRound(p, s, x, Step(p, s, x))
  {
    var u := Taken(p, Ticked(s, x), x.pick.id, x.pick.registered);
    var novel := BringsNew(p, s, x);
    TakenLookup(p, s, x);
    hide Recently, DialedLately, Targeted, Taken, Decided, DialsNow, LookupRound;
    DecidedTable(p, s, x, u);
    assert Tried(p, u, x, x.pick.id, x.pick.registered) == u;
    assert Step(p, s, x) == Decided(p, u, x, x.pick.id, x.pick.registered, novel);
    hide Step, Tried, Booked, EnoughFound;
    if EndsHere(p, s, x) {
      LookupEnds(p, s, x, u);
    } else {
      LookupGoesOn(p, s, x, u);
    }
  }

  lemma TakenLookup(p: Pacing, s: State, x: Stimulus)
    requires p.model.Scheduled? && s.pc.Consuming? && Brings(p, x)
    ensures var u := Taken(p, Ticked(s, x), x.pick.id, x.pick.registered);
            Booked(p, s, x, u) && LookingUp(p, s, x, u)
  {
    assert s.lookupSeen + {} == s.lookupSeen;
    hide Targeted;
  }

  /** The searcher with a result booked, as the lookup sees it. */
  ghost predicate LookingUp(p: Pacing, s: State, x: Stimulus, u: State) {
    && u.pc.Consuming? && u.lookupSeen == SeenNow(p, s, x) && u.lookupStart == s.lookupStart
    && u.lookups == s.lookups && u.costs.queries == s.costs.queries && u.costs.contacted == s.costs.contacted
    && u.iterQueries == s.iterQueries + x.dq && u.iterContacted == s.iterContacted + x.dc
  }

  lemma LookupEnds(p: Pacing, s: State, x: Stimulus, u: State)
    requires p.model.Scheduled? && s.pc.Consuming? && Brings(p, x) && EndsHere(p, s, x) && LookingUp(p, s, x, u)
    ensures LookupRound(p, s, x, EndSession(p, Cut(u, BringsNew(p, s, x)), x))
  {
    NotOtherwise(p, s, x);
    EndSessionLookup(p, Cut(u, BringsNew(p, s, x)), x);
    hide EndSession, EndsHere, CutOff, EnoughFound, BringsNew, SeenNow;
  }

  lemma LookupGoesOn(p: Pacing, s: State, x: Stimulus, u: State)
    requires p.model.Scheduled? && s.pc.Consuming? && Brings(p, x) && !EndsHere(p, s, x) && LookingUp(p, s, x, u)
    requires Booked(p, s, x, u)
    ensures LookupRound(p, s, x, Paused(p, u, x, BringsNew(p, s, x)))
  {
    PausedLookup(p, u, x, BringsNew(p, s, x));
    PausedCuts(p, s, x, u);
    assert p.targetCount > 0 ==> |SeenNow(p, s, x)| < p.fLookup;
    hide Paused, EndsHere, CutOff, BringsNew, SeenNow;
  }

  lemma PausedCuts(p: Pacing, s: State, x: Stimulus, u: State)
    requires p.model.Scheduled? && Brings(p, x) && !EndsHere(p, s, x) && u.pc.Consuming?
    ensures var t := Paused(p, u, x, BringsNew(p, s, x)); t.pc.Consuming? || CutOff(p, s, x)
  {
    hide EndsHere, BringsNew;
  }

  /** The wait for a scheduled time is over, and a lookup begins. */
  lemma ToldOpens(p: Pacing, s: State, x: Stimulus, os: seq<Edge>, cs: seq<Edge>, o: Edge)
    requires p.model.Scheduled? && p.fLookup >= 1 && s.pc.Scheduling? && Told(p, s, os, cs) && ScheduleInv(p, s)
    requires Step(p, s, x).pc.Consuming? && o.pos == |s.log| && o.at == Step(p, s, x).now
    requires o.contacts == (s.costs.queries, s.costs.contacted)
    ensures Told(p, Step(p, s, x), os + [o], cs)
  {
    var t := Step(p, s, x);
    EndedKept(p, s.lookups, s.log, t.log, os, os + [o], cs);
    assert Current(p, t, o) by {
      assert t.log[o.pos..] == [] && Registrants([]) == {};
    }
    hide EndedTold, Current;
  }

  /** The lookup goes on. */
  lemma ToldGoesOn(p: Pacing, s: State, x: Stimulus, os: seq<Edge>, cs: seq<Edge>, t: State)
    requires s.pc.Consuming? && t.pc.Consuming? && Told(p, s, os, cs) && t.idx == s.idx
    requires LookupRound(p, s, x, t) && LogRound(p, s, x, t.log)
    ensures Told(p, t, os, cs)
  {
    EndedKept(p, s.lookups, s.log, t.log, os, os, cs);
    CurrentGoesOn(p, s, x, os[|cs|], t);
    hide EndedTold, Current, LookupRound;
  }

  ghost predicate LogRound(p: Pacing, s: State, x: Stimulus, log: seq<Take>) {
    log == if Brings(p, x) then s.log + [Take(x.pick.id, x.pick.registered, s.now + x.dt)] else s.log
  }

  /** What the current lookup has seen is what was delivered since it began. */
  lemma SeenGrows(p: Pacing, s: State, x: Stimulus, o: Edge, log: seq<Take>)
    requires o.pos <= |s.log| && s.lookupSeen == Registrants(s.log[o.pos..]) && LogRound(p, s, x, log)
    ensures s.log <= log && SeenNow(p, s, x) == Registrants(log[o.pos..])
  {
    hide Registrants;
    if Brings(p, x) {
      RegistrantsGrow(s.log, o.pos, Take(x.pick.id, x.pick.registered, s.now + x.dt));
    }
  }

  /** One more result came after one that did not meet the target. */
  lemma UnmetGrows(p: Pacing, log: seq<Take>, log': seq<Take>, from: nat)
    requires from <= |log| && log <= log' && |log'| <= |log| + 1 && UnmetBefore(p, log, from, |log|)
    requires p.targetCount > 0 ==> |Registrants(log[from..])| < p.fLookup
    ensures UnmetBefore(p, log', from, |log'|)
  {
    assert log[from..] == log[from..|log|];
    UnmetKept(p, log, log', from, |log|);
    StretchKept(log, log', from, |log|);
  }

  lemma CurrentGoesOn(p: Pacing, s: State, x: Stimulus, o: Edge, t: State)
    requires s.pc.Consuming? && t.pc.Consuming? && Current(p, s, o)
    requires LookupRound(p, s, x, t) && LogRound(p, s, x, t.log)
    ensures Current(p, t, o)
  {
    hide Registrants, UnmetBefore, SeenNow;
    SeenGrows(p, s, x, o, t.log);
    UnmetGrows(p, s.log, t.log, o.pos);
  }

  /** The lookup ends, and is recorded unless the deadline cut it. */
  lemma ToldCloses(p: Pacing, s: State, x: Stimulus, os: seq<Edge>, cs: seq<Edge>, t: State, c: Edge)
    requires s.pc.Consuming? && !t.pc.Consuming? && Told(p, s, os, cs) && t.idx == s.idx
    requires LookupRound(p, s, x, t) && LogRound(p, s, x, t.log)
    requires CutOff(p, s, x) ==> t.pc.Done? && t.hitDeadline
    requires c == Edge(|t.log|, t.now,
                       (s.costs.queries + s.iterQueries + x.dq, s.costs.contacted + s.iterContacted + x.dc))
    ensures Told(p, t, os, cs + [c])
  {
    var o := os[|cs|];
    assert s.lookups.done == |cs|;
    EndedKept(p, s.lookups, s.log, t.log, os, os, cs);
    CurrentEnds(p, s, x, o, t.log);
    if CutOff(p, s, x) {
      EndedCut(p, s.lookups, t.log, os, cs, c);
    } else {
      assert LookupTold(t.lookups, t.log, o, c, |cs|) by { EndTold(p, s, x, o, t, c, |cs|); }
      hide CutOff, Current, LookupTold, UnmetBefore;
      OneMoreEnded(p, s.lookups, t.lookups, t.log, os, cs, c);
    }
    hide EndedTold, Current, LookupRound, CutOff;
  }

  lemma CurrentEnds(p: Pacing, s: State, x: Stimulus, o: Edge, log: seq<Take>)
    requires Current(p, s, o) && LogRound(p, s, x, log)
    ensures o.pos <= |log| && UnmetBefore(p, log, o.pos, |log|)
  {
    hide Registrants, UnmetBefore, SeenNow;
    SeenGrows(p, s, x, o, log);
    UnmetGrows(p, s.log, log, o.pos);
  }

  lemma EndTold(p: Pacing, s: State, x: Stimulus, o: Edge, t: State, c: Edge, i: nat)
    requires Current(p, s, o) && LogRound(p, s, x, t.log) && LookupRound(p, s, x, t)
    requires !t.pc.Consuming? && !CutOff(p, s, x)
    requires i == |s.lookups.results| == |s.lookups.latency| == |s.lookups.queries| == |s.lookups.contacted|
    requires c == Edge(|t.log|, t.now,
                       (s.costs.queries + s.iterQueries + x.dq, s.costs.contacted + s.iterContacted + x.dc))
    ensures LookupTold(t.lookups, t.log, o, c, i)
  {
    SeenGrows(p, s, x, o, t.log);
    assert t.log[o.pos..] == t.log[o.pos..|t.log|];
    hide Registrants, UnmetBefore, SeenNow, CutOff;
  }

  lemma EndedCut(p: Pacing, l: Lookups, log: seq<Take>, os: seq<Edge>, cs: seq<Edge>, c: Edge)
    requires EndedTold(p, l, log, os, cs) && |cs| < |os| && UnmetBefore(p, log, os[|cs|].pos, c.pos)
    ensures EndedTold(p, l, log, os, cs + [c])
  {
    hide Distinctly, UnmetBefore;
    forall i: nat | i < l.done ensures LookupTold(l, log, os[i], (cs + [c])[i], i) {
      assert LookupTold(l, log, os[i], cs[i], i);
    }
    forall i: nat | i < |cs + [c]| ensures UnmetBefore(p, log, os[i].pos, (cs + [c])[i].pos) {
      if i < |cs| { assert UnmetBefore(p, log, os[i].pos, cs[i].pos); }
    }
  }

  /** Nothing is looked up between lookups. */
  lemma ToldIdles(p: Pacing, s: State, x: Stimulus, os: seq<Edge>, cs: seq<Edge>)
    requires p.model.Scheduled? && !s.pc.Consuming? && Told(p, s, os, cs) && ScheduleInv(p, s)
    requires !Step(p, s, x).pc.Consuming?
    ensures Told(p, Step(p, s, x), os, cs)
  {
    hide EndedTold, Current;
    WaitTable(p, s, x);
  }

  lemma ToldFirst(p: Pacing)
    requires p.model.Scheduled?
    ensures Told(p, Run(p, []), [], []) && Delivered(p, []) == []
  {
  }

  lemma ToldStep(p: Pacing, s: State, x: Stimulus, os: seq<Edge>, cs: seq<Edge>, e: Edge)
    requires p.model.Scheduled? && p.fLookup >= 1 && Told(p, s, os, cs) && ScheduleInv(p, s) && DialsInv(p, s)
    requires e == Edge(|Step(p, s, x).log|, Step(p, s, x).now, Spent(Step(p, s, x))) && BookInv(p, s)
    ensures var t := Step(p, s, x);
            Told(p, t, if !s.pc.Consuming? && t.pc.Consuming? then os + [e] else os,
                 if s.pc.Consuming? && !t.pc.Consuming? then cs + [e] else cs)
  {
    if s.pc.Consuming? {
      hide Step, Told, BookInv, DialsInv, ScheduleInv;
      ToldRound(p, s, x, os, cs, e);
    } else {
      hide Step, EndedTold, Current, FindsInv, LookupsInv, CostsInv, DialsInv, TargetNoted;
      StepSpent(p, s, x);
      WaitTable(p, s, x);
      if Step(p, s, x).pc.Consuming? {
        ToldOpens(p, s, x, os, cs, e);
      } else {
        ToldIdles(p, s, x, os, cs);
      }
    }
  }

  lemma ToldRound(p: Pacing, s: State, x: Stimulus, os: seq<Edge>, cs: seq<Edge>, e: Edge)
    requires p.model.Scheduled? && s.pc.Consuming? && Told(p, s, os, cs) && DialsInv(p, s)
    requires e == Edge(|Step(p, s, x).log|, Step(p, s, x).now, Spent(Step(p, s, x))) && BookInv(p, s)
    ensures var t := Step(p, s, x); Told(p, t, os, if t.pc.Consuming? then cs else cs + [e])
  {
    hide Step, CutOff, LookupRound, LogRound, Told, BookInv, DialsInv, Spent;
    RoundEdges(p, s, x);
    RoundLookup(p, s, x);
    if Step(p, s, x).pc.Consuming? {
      ToldGoesOn(p, s, x, os, cs, Step(p, s, x));
    } else {
      RoundSpends(p, s, x);
      ToldCloses(p, s, x, os, cs, Step(p, s, x), e);
    }
  }

  lemma RoundEdges(p: Pacing, s: State, x: Stimulus)
    requires s.pc.Consuming? && DialsInv(p, s)
    ensures var t := Step(p, s, x);
            LogRound(p, s, x, t.log) && t.idx == s.idx && (CutOff(p, s, x) ==> t.pc.Done? && t.hitDeadline)
  {
    hide Step, CutOff, DialsInv, EndsHere, EnoughFound, Afterwards, Took, DialsNow, StartsPace;
    RoundTable(p, s, x);
    StepLog(p, s, x);
  }

  lemma RoundSpends(p: Pacing, s: State, x: Stimulus)
    requires BookInv(p, s) && s.pc.Consuming?
    ensures Spent(Step(p, s, x)) == (s.costs.queries + s.iterQueries + x.dq, s.costs.contacted + s.iterContacted + x.dc)
  {
    hide FindsInv, LookupsInv, CostsInv, TargetNoted, Step;
    StepSpent(p, s, x);
  }

  /** What a scheduled search reports, against what was delivered: lookup i found the distinct registrants
      delivered between its opening and its closing, took the time and made the contacts between the two, began
      no earlier than scheduled, and closed at the first result that met the target, if one did. */
  lemma {:induction false} LookupsTold(p: Pacing, xs: seq<Stimulus>)
    requires p.model.Scheduled? && p.fLookup >= 1
    ensures Told(p, Run(p, xs), Opens(p, xs), Closes(p, xs)) && Run(p, xs).log == Delivered(p, xs)
  {
    hide Step, Told, FindsInv, CostsInv, LookupsInv, PaceInv, ClockInv, DialsInv, Accounted, ScheduleInv, Contacts;
    LogIsDelivered(p, xs);
    if xs == [] {
      ToldFirst(p);
    } else {
      var before := xs[..|xs| - 1];
      LookupsTold(p, before);
      RunInv(p, before);
      ContactsAddUp(p, xs);
      ToldStep(p, Run(p, before), xs[|xs| - 1], Opens(p, before), Closes(p, before), Here(p, xs));
    }
  }

  /** ... entry by entry. */
  lemma LookupReported(p: Pacing, xs: seq<Stimulus>, i: nat)
    requires p.model.Scheduled? && p.fLookup >= 1 && i < Run(p, xs).lookups.done
    ensures i < |Opens(p, xs)| && i < |Closes(p, xs)| && i < |p.schedule|
    ensures var l, log, o, c := Run(p, xs).lookups, Delivered(p, xs), Opens(p, xs)[i], Closes(p, xs)[i];
            && l.done == |l.results| == |l.latency| && o.pos <= c.pos <= |log| && p.schedule[i] <= o.at
            && l.results[i] == |Registrants(log[o.pos..c.pos])| && l.latency[i] == c.at - o.at
            && (p.targetCount > 0 ==>
                  forall j :: o.pos <= j < c.pos ==> |Registrants(log[o.pos..j])| < p.fLookup)
  {
    hide Run, Opens, Closes, Delivered, Registrants, OnSchedule;
    LookupsTold(p, xs);
    var l, log, o, c := Run(p, xs).lookups, Delivered(p, xs), Opens(p, xs)[i], Closes(p, xs)[i];
    assert LookupTold(l, log, o, c, i) && UnmetBefore(p, log, o.pos, c.pos);
    NotBeforeTime(p, Opens(p, xs), i);
    forall j | p.targetCount > 0 && o.pos <= j < c.pos ensures |Registrants(log[o.pos..j])| < p.fLookup {
      assert Distinctly(log, o.pos, j) < p.fLookup;
    }
  }

  lemma NotBeforeTime(p: Pacing, os: seq<Edge>, i: nat)
    requires OnSchedule(p, os) && i < |os|
    ensures i < |p.schedule| && os[i].at >= p.schedule[i]
  {
  }

  /** A scheduled search that the deadline does not end has made every lookup scheduled. */
  lemma AllLookedUp(p: Pacing, xs: seq<Stimulus>)
    requires p.model.Scheduled? && p.fLookup >= 1 && Run(p, xs).pc.Done? && !Run(p, xs).hitDeadline
    ensures Run(p, xs).lookups.done == |p.schedule|
  {
    EndsOnSchedule(p, xs);
    LookupsTold(p, xs);
  }

  lemma {:induction false} EndsOnSchedule(p: Pacing, xs: seq<Stimulus>)
    requires p.model.Scheduled? && p.fLookup >= 1
    ensures Run(p, xs).pc.Done? && !Run(p, xs).hitDeadline ==> Run(p, xs).idx == |p.schedule|
  {
    hide Step, BookInv, LookupsInv, PaceInv, ClockInv, DialsInv, Accounted;
    if xs != [] {
      var s, x := Run(p, xs[..|xs| - 1]), xs[|xs| - 1];
      EndsOnSchedule(p, xs[..|xs| - 1]);
      RunInv(p, xs[..|xs| - 1]);
      if s.pc.Consuming? {
        RoundTable(p, s, x);
        hide Took, EndsHere, CutOff, EnoughFound, DialsNow;
        NotEnough(p, s, x);
      } else {
        WaitTable(p, s, x);
      }
    }
  }

  lemma NotEnough(p: Pacing, s: State, x: Stimulus)
    requires !p.model.Slots?
    ensures !EnoughFound(p, s, x)
  {
  }

  // ------------------------------------------------------------------------- the loop

  /** How control leaves a stretch of the loop body. */
  datatype Flow = Goes | EndsConsume | EndsSessions | NextSession | Waits

  /** The body of the consume loop for one result. */
  method ConsumeNode(p: Pacing, s0: State, x: Stimulus, id: nat, registered: bool) returns (s: State, flow: Flow)
    requires s0.pc.Consuming?
    ensures flow.Goes? || flow.EndsConsume? || flow.EndsSessions?
    ensures s.pc.Consuming?
    ensures flow.Goes? ==> s == Consume(p, s0, x, id, registered)
    ensures flow.EndsConsume? ==> EndSession(p, s, x) == Consume(p, s0, x, id, registered)
    ensures flow.EndsSessions? ==> Finish(s) == Consume(p, s0, x, id, registered)
  {
    s := s0;
    if id == p.self {
      return s, Goes;
    }
    hide EndSession, Targeted, Decided, Finish;
    var novel := registered && id !in s.finds.unique;
    var found := Found(s.finds, p.connected, id, registered, s.now);
    s := s.(finds := found, costs := Targeted(s.costs, s.finds, found, p.fLookup, s.iterQueries, s.iterContacted),
           log := s.log + [Take(id, registered, s.now)]);
    if registered && p.model.Scheduled? {
      s := s.(lookupSeen := s.lookupSeen + {id});
    }
    assert s == Taken(p, s0, id, registered);
    if p.conns && ((!p.model.Slots? && x.offline) || (p.model.Slots? && x.full)) {
      return Cut(s, novel), EndsConsume;
    }
    s, flow := DialAndDecide(p, s, x, id, registered, novel);
  }

  /** From the dial to the end of the consume loop's body. */
  method DialAndDecide(p: Pacing, s0: State, x: Stimulus, id: nat, registered: bool, novel: bool)
    returns (s: State, flow: Flow)
    requires s0.pc.Consuming? && !Abandons(p, x)
    ensures (flow.Goes? || flow.EndsConsume? || flow.EndsSessions?) && s.pc.Consuming?
    ensures flow.Goes? ==> s == Decided(p, s0, x, id, registered, novel)
    ensures flow.EndsConsume? ==> EndSession(p, s, x) == Decided(p, s0, x, id, registered, novel)
    ensures flow.EndsSessions? ==> Finish(s) == Decided(p, s0, x, id, registered, novel)
  {
    hide EndSession, Paused, Finish, Abandons;
    s := s0;
    if registered && p.model.Slots? && p.conns && !Recently(s.dials.last, id, s.now, p.redialWait) {
      var filled: bool;
      var d;
      d, filled := MakeDial(s.dials, x, id, s.now);
      s := s.(dials := d);
      if filled {
        return Cut(s, novel), EndsConsume;
      }
    }
    assert s == Tried(p, s0, x, id, registered);
    if p.model.Scheduled? {
      if p.targetCount > 0 && |s.lookupSeen| >= p.fLookup {
        return Cut(s, novel), EndsConsume;
      }
    } else if !p.model.Continuous? && p.targetCount > 0 && |s.finds.unique| >= p.targetCount {
      return Cut(s, novel), EndsSessions;
    }
    s, flow := PaceAndPause(p, s, x, novel);
  }

  /** One dial, and whether it filled the last slot. */
  method MakeDial(d0: Dials, x: Stimulus, id: nat, now: int) returns (d: Dials, filled: bool)
    ensures d == AfterDial(d0, x, id, now) && filled == (x.dial.Connected? && x.filled)
  {
    d := d0.(last := d0.last[id := now], attempts := d0.attempts + 1,
             made := d0.made + [Dial(id, now, x.dial, x.filled)]);
    filled := false;
    if x.dial.Connected? {
      d := d.(outbound := d.outbound + 1);
      if x.filled {
        filled := true;
        if d.filledAt == 0 {
          d := d.(filledAt := now);
        }
      }
    } else if x.dial.TargetFull? {
      d := d.(refused := d.refused + 1);
    }
  }

  /** The waits at the end of the consume loop's body. */
  method PaceAndPause(p: Pacing, s0: State, x: Stimulus, novel: bool) returns (s: State, flow: Flow)
    requires s0.pc.Consuming?
    ensures (flow.Goes? || flow.EndsSessions?) && s.pc.Consuming?
    ensures (if flow.Goes? then s else Finish(s)) == Paused(p, s0, x, novel)
  {
    hide Due, Closed;
    s := if novel then s0.(paced := s0.paced + [true]) else s0;
    if p.model.Continuous? && novel && p.resultInterval > 0 {
      var over := |s.finds.unique| - p.initialResults;
      if over >= 0 {
        if s.paceStart.None? {
          s := s.(paceStart := Some(s.now));
        }
        if over > 0 {
          if x.stopPace {
            return s.(hitDeadline := true), EndsSessions;
          }
          s := s.(now := Max(s.now, Due(s.paceStart.value, over, p.resultInterval)));
        }
      }
    }
    if p.maxPause && (novel || !p.pauseNovelOnly) {
      if x.stopPause {
        return s.(hitDeadline := true), EndsSessions;
      }
      s := s.(now := s.now + x.pause);
    }
    flow := Goes;
  }

  /** From the end of the consume loop to the next session, a wait, or the end. */
  method AfterConsume(p: Pacing, s0: State, x: Stimulus) returns (s: State, flow: Flow)
    requires s0.pc.Consuming?
    ensures flow.EndsSessions? || flow.NextSession? || flow.Waits?
    ensures !s.pc.Consuming? && !s.pc.Done?
    ensures flow.EndsSessions? ==> Finish(s) == EndSession(p, s0, x)
    ensures flow.NextSession? ==> Enter(p, s) == EndSession(p, s0, x)
    ensures flow.Waits? ==> s == EndSession(p, s0, x) && s.pc == if p.model.Slots? then Parked else Away
  {
    hide Closed, LookedUp;
    s := Shut(s0, Away);
    if p.model.Continuous? {
      if !x.away {
        return s, EndsSessions;
      }
    }
    if p.model.Scheduled? {
      s := s.(lookups := LookedUp(s.lookups, p, |s.lookupSeen|, s.now - s.lookupStart, s.costs));
    }
    if !p.model.Slots? {
      return s, if x.stillAway then Waits else NextSession;
    }
    if !p.conns || !p.resumable || !x.parks {
      return s, EndsSessions;
    }
    return s.(pc := Parked), Waits;
  }

  lemma RunStep(p: Pacing, xs: seq<Stimulus>, i: nat)
    requires i < |xs|
    ensures Run(p, xs[..i + 1]) == Step(p, Run(p, xs[..i]), xs[i])
  {
    assert xs[..i + 1][..i] == xs[..i];
  }

  lemma {:induction false} DoneStays(p: Pacing, xs: seq<Stimulus>, i: nat)
    requires i <= |xs| && Run(p, xs[..i]).pc.Done?
    ensures Run(p, xs) == Run(p, xs[..i])
    decreases |xs| - i
  {
    if i < |xs| {
      RunStep(p, xs, i);
      DoneStays(p, xs, i + 1);
    } else {
      assert xs[..i] == xs;
    }
  }

  /** The waits between sessions: for the node's return, or for a peer to drop. */
  method Wait(p: Pacing, s0: State, xs: seq<Stimulus>, i0: nat) returns (s: State, i: nat, flow: Flow)
    requires i0 <= |xs| && s0 == Run(p, xs[..i0]) && s0.pc == if p.model.Slots? then Parked else Away
    ensures i0 <= i <= |xs| && !s.pc.Consuming? && !s.pc.Done?
    ensures flow.Waits? ==> i == |xs| && s == Run(p, xs)
    ensures flow.EndsSessions? ==> Finish(s) == Run(p, xs[..i])
    ensures flow.NextSession? ==> Enter(p, s) == Run(p, xs[..i]) && i > i0
    ensures !flow.Goes? && !flow.EndsConsume?
  {
    hide Run, Enter;
    s, i := s0, i0;
    while i < |xs|
      invariant i0 <= i <= |xs| && s == Run(p, xs[..i]) && s.pc == if p.model.Slots? then Parked else Away
    {
      var x := xs[i];
      RunStep(p, xs, i);
      i := i + 1;
      s := Ticked(s, x);
      if x.pick.Deadline? {
        return s.(hitDeadline := true), i, EndsSessions;
      }
      if p.model.Slots? || !x.stillAway {
        return s, i, NextSession;
      }
    }
    assert xs[..i] == xs;
    return s, i, Waits;
  }

  /** The consume loop of one session. */
  method Session(p: Pacing, s0: State, xs: seq<Stimulus>, i0: nat) returns (s: State, i: nat, flow: Flow)
    requires i0 <= |xs| && s0 == Run(p, xs[..i0]) && s0.pc.Consuming?
    ensures i0 <= i <= |xs| && s.pc.Consuming?
    ensures flow.Goes? ==> i == |xs| && s == Run(p, xs)
    ensures flow.EndsConsume? ==> i0 < i && EndSession(p, s, xs[i - 1]) == Run(p, xs[..i])
    ensures flow.EndsSessions? ==> Finish(s) == Run(p, xs[..i])
    ensures flow.Goes? || flow.EndsConsume? || flow.EndsSessions?
  {
    hide Run, EndSession, Consume;
    s, i := s0, i0;
    while i < |xs|
      invariant i0 <= i <= |xs| && s == Run(p, xs[..i]) && s.pc.Consuming?
    {
      var x := xs[i];
      RunStep(p, xs, i);
      i := i + 1;
      s := Ticked(s, x);
      match x.pick {
        case Deadline =>
          return s.(hitDeadline := true), i, EndsSessions;
        case Timer =>
          if p.model.Scheduled? && p.requestTimeout {
            return s, i, EndsConsume;
          }
        case Ended =>
          return s, i, EndsConsume;
        case Node(id, registered) =>
          s, flow := ConsumeNode(p, s, x, id, registered);
          if !flow.Goes? {
            return;
          }
        case Wake =>
      }
    }
    assert xs[..i] == xs;
    flow := Goes;
  }

  /** The top of the session loop: the wait for the next scheduled lookup, and the new session. */
  method Begin(p: Pacing, s0: State, xs: seq<Stimulus>, i0: nat) returns (s: State, i: nat, flow: Flow)
    requires i0 <= |xs| && Enter(p, s0) == Run(p, xs[..i0]) && !s0.pc.Consuming? && !s0.pc.Done?
    ensures i0 <= i <= |xs|
    ensures flow.Goes? ==> s == Run(p, xs[..i]) && s.pc.Consuming?
    ensures flow.EndsSessions? ==> Finish(s) == Run(p, xs[..i])
    ensures flow.Waits? ==> s == Run(p, xs)
    ensures flow.Goes? || flow.EndsSessions? || flow.Waits?
  {
    hide Run;
    s, i, flow := s0, i0, Goes;
    if p.model.Scheduled? {
      if s.idx >= |p.schedule| {
        return s, i, EndsSessions;
      }
      s := s.(pc := Scheduling);
      if i == |xs| {
        assert xs[..i] == xs;
        return s, i, Waits;
      }
      RunStep(p, xs, i);
      var x := xs[i];
      i := i + 1;
      s := Ticked(s, x);
      if x.pick.Deadline? {
        return s.(hitDeadline := true), i, EndsSessions;
      }
      var t := Max(s.now, p.schedule[s.idx]);
      s := s.(idx := s.idx + 1, now := t, lookupStart := t, lookupSeen := {});
    }
    s := s.(pc := Consuming, iterQueries := 0, iterContacted := 0);
  }

  /** runOneSearcher: the loops compute the run. */
  method RunOneSearcher(p: Pacing, xs: seq<Stimulus>) returns (s: State)
    ensures s == Run(p, xs)
  {
    s := NEW_STATE;
    var i: nat, flow := 0, Goes;
    assert xs[..0] == [];
    assert Enter(p, s) == Run(p, xs[..i]);
    hide Run, EndSession, Enter, Finish;
    while true
      invariant i <= |xs| && Enter(p, s) == Run(p, xs[..i]) && !s.pc.Consuming? && !s.pc.Done?
      decreases |xs| - i
    {
      s, i, flow := Begin(p, s, xs, i);
      if flow.Waits? {
        return;
      }
      if flow.EndsSessions? {
        break;
      }
      s, i, flow := Session(p, s, xs, i);
      if flow.Goes? {
        return;
      }
      if flow.EndsSessions? {
        break;
      }
      s, flow := AfterConsume(p, s, xs[i - 1]);
      if flow.Waits? {
        s, i, flow := Wait(p, s, xs, i);
        if flow.Waits? {
          return;
        }
      }
      if flow.EndsSessions? {
        break;
      }
    }
    FinishDone(s);
    s := Finish(s);
    DoneStays(p, xs, i);
  }

  lemma FinishDone(s: State)
    ensures Finish(s).pc.Done?
  {
  }
}
