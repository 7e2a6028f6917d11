# Topic-discovery testbed: verified models

The testbed runs thousands of discovery nodes, churns them, and reports numbers about them. This
project models the parts that decide whether those numbers can be trusted, and proves properties of
them with Dafny 4.11. `dafny verify dfyconfig.toml` checks everything.

The modules, one per component:

- `PeerTable`, `PeerSlots` - the simulated peer-slot table: its redundant views as a class, and its
  use by searchers, churn drivers and random droppers as an interleaving of lock sections and channel
  operations.
- `ChurnModel`, `Drive`, `NodeSessions`, `LazyIter` - churn end to end: the fitted survival curve and
  the schedule drawn from it, the coordinator's kill and start calls, the node process that receives
  them, and its lazily opened search iterator.
- `Addressing`, `Placement`, `PrefixRouting`, `EachByHost` - addresses, nodes onto machines, routes
  between machines, and the bounded fetch scheduler.
- `GhostShare` - the exact mean of a clipped piecewise-linear curve and the
  doubling and bisection that invert it.
- `CounterRise`, `Crawler`, `CrawlSessions`, `Liveness`, `Searcher` - measurement folds against what
  they are meant to measure.
- `Wrappers`, `Collections`, `RealArith` - optional values, counting, and products of reals, for all.

Modelling choices. Go floats and Python floats are reals. A random draw is an arbitrary function of
its position; a clock is an arbitrary nondecreasing advance; map iteration is an arbitrary choice of
the next key; answers of servers, iterators and the network are arbitrary. Concurrent code is a state
machine with one step per lock section, channel operation or foreign call, and theorems hold in every
reachable state or over every run. `math.Pow` is a parameter with the two monotonicity facts the
survival curve uses (`ChurnModel.PowerLike`). `sort.Search`, `bisect` and the sorts are written out
as the loops they are or specified by their documented result.

Where the code differs from what is said of it:

- `depart` clears a node's open losses so that "a returning node fills from empty; that is not a
  refill" (cmd/simnet/conn_model.go:368). Another thread may drop one of the node's own dials between
  that and the return, which opens a loss again. `PeerSlots.FillsFromEmpty`: it holds whatever runs
  exactly when the node has dialed nobody as it departs; `PeerSlots.LeavesWithStaleLoss` gives the
  interleaving otherwise.
- The continuous search paces distinct results (cmd/simnet/search.go:628-642), but a result taken
  while the node is away leaves the loop before the pacing (lines 601-603). `Searcher.PaceExactly`:
  every run keeps the pace exactly when the search has no connection table; `Searcher.PaceFails` gives,
  for every configuration that has one, a run that breaks it. The first distinct result, which nothing
  precedes, is outside the claim.
- Drawn addresses are meant to be distinct, but nothing keeps a prefix's octets below 256
  (pkg/churn/model.go:140-144), and addresses are rendered byte by byte. `Addressing.DistinctExactly`:
  every pool drawn from a set of prefixes has distinct addresses exactly when no two of them agree in
  their low 24 bits, `Addressing.Collision` gives the pool otherwise; `PrefixRouting.ReachExactly` says
  the same of the routes.
- `sessions.py` means to fold logs without pongs by their up and down events; such a log ends the
  script with a missing key at the first return later than the gap after the previous up
  (cmd/crawl/sessions.py:74-75). `CrawlSessions.Sessions` states exactly when, `OldLogFails` a family.
- Without a recorded namespace count, the rise up to the stop can exceed the rise of the whole series
  (pkg/coordinator/collect.go:419-429): `CounterRise.PartExceedsWhole` gives a series.
  `CounterRise.PartWithinExactly`: whatever the counters read, the part stays within the whole exactly
  when the cut misjudges no sample or measures fewer than two, which the namespace counts alone tell.
- The packing of /24s reports "more than any machine has room for" also where another packing exists:
  `PrefixRouting.PackingIsNotComplete`. `PrefixRouting.PlaceByPrefix` states exactly when it succeeds, by
  the greedy packing of the group sizes, and bounds when it can fail; for groups of one size,
  `PrefixRouting.EqualGroupsPack` says that room for as many groups is enough.
- `online_ms` counts an instant once per absence holding it; `Liveness.OnlineIsMeasure` states exactly
  when it is the time online, `Liveness.OverlappingAbsences` that it can be negative otherwise.
- The crawler's two-probe-periods rule (cmd/crawl/main.go:516) never decides anything once two misses
  are asked for. `Crawler.MissesDecideExactly`: the misses alone decide exactly then, or when one is and
  the probe period is zero.

## Model

| member | source | states |
|---|---|---|
| `PeerTable.MaxOutBelow` | cmd/simnet/conn_model.go:49-56 | with at least one slot the dial budget is between one and all slots, whatever the ratio |
| `PeerTable.MaxOutShare` | cmd/simnet/conn_model.go:49-56 | the dial budget is the slots divided by the ratio, rounded down, at least one |
| `PeerTable.EmptyConsistent` | cmd/simnet/conn_model.go:49-79 | a fresh table is consistent: views agree, counts match, slots hold |
| `PeerTable.DropKeeps` | cmd/simnet/conn_model.go:93-110 | dropping any edge, present or not, keeps the table consistent |
| `PeerTable.ConnectKeeps` | cmd/simnet/conn_model.go:210-220 | the edge a dial adds keeps every view in agreement and both slot limits |
| `PeerTable.DialKeeps` | cmd/simnet/conn_model.go:191-221 | every outcome of a dial keeps the table consistent |
| `PeerTable.DialMeans` | cmd/simnet/conn_model.go:191-221 | on the edges alone: a dial connects exactly when the target is known, another node, not connected either way, both are online, the caller has dialed fewer than maxOut and the target was dialed by fewer than maxIn; a full target is counted exactly when only its side fails, a duplicate exactly when the two are connected; a connection refills the oldest open loss |
| `PeerTable.MillisTruncates` | cmd/simnet/conn_model.go:216-218 | refill latencies are whole milliseconds, truncated toward zero |
| `PeerTable.GoOfflineKeeps` | cmd/simnet/conn_model.go:353-369 | marking a node away and discarding its losses keeps the table consistent |
| `PeerTable.DialedStep` | cmd/simnet/conn_model.go:371-373 | each drop of a dialed edge removes it and nothing else, and records no loss |
| `PeerTable.DialersStep` | cmd/simnet/conn_model.go:374-376 | each drop of a dialer's edge records one loss for that dialer and nothing else |
| `PeerTable.DialersDone` | cmd/simnet/conn_model.go:371-377 | after all drops the node is isolated, each former dialer has one more loss, no other edge or loss changed |
| `PeerTable.ConnTable.constructor` | cmd/simnet/conn_model.go:49-79 | the fresh table, every id mapped to an index that holds it, everybody online without peers, the slots split by the ratio |
| `PeerTable.ConnTable.Send` | cmd/simnet/conn_model.go:115-118 | a non-blocking send leaves exactly one token |
| `PeerTable.ConnTable.DropConn` | cmd/simnet/conn_model.go:93-120 | drops exactly the edge, reports whether it was there, counts it, wakes the dialer exactly then and when asked |
| `PeerTable.ConnTable.TryDial` | cmd/simnet/conn_model.go:191-221 | ok, and the new edge, exactly when the target is known, another, no peer, both online and both with a slot left; targetFull exactly when only the target fails; keeps the invariant, sends no token |
| `PeerTable.ConnTable.Depart` | cmd/simnet/conn_model.go:352-377 | alone: the node isolated and away, exactly its dialers woken and charged a loss, every dropped edge counted |
| `PeerTable.ConnTable.Rejoin` | cmd/simnet/conn_model.go:380-392 | the node online, its searcher woken, nothing else changed |
| `PeerSlots.StepInv` | cmd/simnet/conn_model.go:93-221 | every step of every thread keeps the graph, the drivers' promises, the wake-ups and the loss account |
| `PeerSlots.StepWake` | cmd/simnet/search.go:673-693 | no step leaves a waiting searcher with work and without a token or a sender that owes it |
| `PeerSlots.StepStrands` | cmd/simnet/conn_model.go:105-134 | only a waking drop or a rejoin can leave a waiting searcher with work, and both owe a send |
| `PeerSlots.StepDriver` | cmd/simnet/conn_model.go:352-377 | while a departure runs, all the edges its node still has are among those it is still to drop |
| `PeerSlots.DialSparesOffline` | cmd/simnet/conn_model.go:191-209 | no dial touches an edge of a node that is away |
| `PeerSlots.NoLostWakeup` | cmd/simnet/conn_model.go:93-134 | in every reachable state a searcher waiting with a free slot can receive after at most one send already owed |
| `PeerSlots.DialReaches` | cmd/simnet/conn_model.go:191-221 | a searcher with a free slot that has found a node that would accept has one more peer after one step |
| `PeerSlots.FillsUp` | cmd/simnet/search.go:604-620 | with as many such nodes as free slots, dialing them in turn fills the slots to maxOut |
| `PeerSlots.GetsBackToDialing` | cmd/simnet/search.go:652-694 | in every reachable state the searcher of an online node with a free slot, wherever it is, gets back to dialing by its own steps and at most one owed send |
| `PeerSlots.SlotsCanFill` | cmd/simnet/conn_model.go:93-221 | so in every reachable state an online node with enough nodes that would accept can fill its slots, whatever its searcher is doing |
| `PeerSlots.WaitsExactlyWithoutWork` | cmd/simnet/conn_model.go:122-134 | a searcher parks exactly when its node is away or has dialed maxOut nodes, and waits for the rejoin exactly when it is away |
| `PeerSlots.CanReturn` | cmd/simnet/conn_model.go:380-392 | a node that is away can come back: online, its searcher with a token, nothing else changed |
| `PeerSlots.DepartComplete` | cmd/simnet/conn_model.go:350-377 | when a departure returns, whatever ran in between, the node has no peers and zero counts |
| `PeerSlots.IsolatedUntilReturn` | cmd/simnet/churn_model.go:50-80 | and stays isolated through any further interleaving until its own rejoin |
| `PeerSlots.DepartProgress` | cmd/simnet/conn_model.go:352-377 | a departure always has an enabled step of its own that brings it nearer its end |
| `PeerSlots.TableTrustworthy` | cmd/simnet/conn_model.go:22-120 | in every reachable state the views agree, slots plus pending losses fit, losses = refills + pending + discarded |
| `PeerSlots.EdgesConserved` | cmd/simnet/conn_model.go:93-221 | over every run edges and reported disconnects are together the dials that connected, and the departures reported are those made |
| `PeerSlots.ReturnsWithEmptyQueue` | cmd/simnet/conn_model.go:363-376 | the open losses of a node that is away grow by exactly the drops of its own dials by other threads |
| `PeerSlots.NoNewDials` | cmd/simnet/conn_model.go:191-209 | a node away without dials gets none and loses none, whatever step is taken |
| `PeerSlots.FillsFromEmpty` | cmd/simnet/conn_model.go:352-392 | every interleaving up to the return leaves no open loss exactly when the node had dialed nobody at its departure |
| `PeerSlots.LeavesWithStaleLoss` | cmd/simnet/conn_model.go:363-376 | from any state with a dialed edge, an interleaving leaves the departed node with an open loss |
| `PeerSlots.OverlapLosesWakeup` | cmd/simnet/churn_model.go:50-80 | a return between a departure's snapshot and its drops leads to a searcher parked with a free slot, no token and nobody who owes one: the per-node order is needed |
| `PeerSlots.OwedSend` | cmd/simnet/conn_model.go:109-120 | a send that is owed can be made at once and puts the token in the channel |
| `ChurnModel.SurvivalWithin` | pkg/churn/model.go:230-248 | survival lies in [0, 1] and between the fitted points around it |
| `ChurnModel.SurvivalFalls` | pkg/churn/model.go:230-248 | survival never rises, for every sorted nonincreasing fit |
| `ChurnModel.StayOneUnit` | pkg/churn/model.go:254-260 | one unit's hazard is a probability and takes survival at an age to survival one unit later |
| `ChurnModel.HazardTelescopes` | pkg/churn/model.go:369-384 | applied unit by unit the hazard gives back the survival curve, also after it reaches zero |
| `ChurnModel.SurvivalMeans` | pkg/churn/model.go:230-248 | at a fitted point the curve is the point; between two, its ratio to the left one is the power of their ratio given by the fraction of the way; after the last, the last |
| `ChurnModel.Gap` | pkg/churn/model.go:263-274 | the first absence length whose cumulative share reaches the draw, the last if none does, one for an empty fit |
| `ChurnModel.ScheduleTopic` | pkg/churn/model.go:346-386 | for all draws: absences in order and apart, inside the window, only the first at zero; and the schedule its draws say: an arrival, none or a first departure by the first two draws, the first session with its own fit and later ones with that after a return |
| `ChurnModel.Absences` | pkg/churn/model.go:369-385 | a session lasts n units exactly when the next n draws are at or above the hazards of ages 0 to n-1 and the one after is below that of age n; an absence is for good exactly when its draw is below leave-forever, else of the sampled length |
| `ChurnModel.DrawnOnce` | pkg/churn/model.go:346-386 | the draws decide the schedule: no other one follows them |
| `ChurnModel.CertainHazards` | pkg/churn/model.go:370 | a node whose hazard is zero at every age never leaves, one whose hazard is certain at once leaves at once |
| `ChurnModel.UnitIs` | pkg/churn/model.go:347-350 | the window holds as many crawl units as there are crawls in the hours it stands for, the real ones unless given |
| `ChurnModel.FewEvents` | pkg/churn/model.go:346-386 | at most one absence more than the window has crawl units |
| `NodeSessions.AddWireAt` | cmd/node/session.go:767-781 | the sum of two counter maps is the sum per message type, a missing type counting zero |
| `NodeSessions.WireAdds` | cmd/node/session.go:767-781 | adding two counter maps adds them type by type and field by field, a missing type being zero |
| `NodeSessions.LoadAdds` | cmd/node/session.go:783-793 | adding two load maps adds both parts topic by topic and field by field, a missing topic being zero |
| `NodeSessions.TraceUnchangedByFold` | cmd/node/session.go:638-705 | the trace of a running session and the trace after it is folded agree in every field but its end time |
| `NodeSessions.StepInv` | cmd/node/session.go:218-371 | each step keeps one server, ordered spans and growing samples |
| `NodeSessions.ProcessTrustworthy` | cmd/node/session.go:311-371 | over any run: at most one server, spans in order and disjoint, samples never fall nor exceed the totals |
| `NodeSessions.CountersConserved` | cmd/node/session.go:338-352 | over every run the totals are those of the sessions closed so far, none lost, none twice: counters per type and field, load per topic, part and field, lists in order, first capable time, connection finds, last session |
| `NodeSessions.FoldTotals` | cmd/node/session.go:338-352 | folding a session adds exactly its part to every one of those totals |
| `NodeSessions.TraceTells` | cmd/node/session.go:638-705 | a trace adds up what all sessions, closed or running, counted, joins what they listed, counts all connection finds from the last search's start, and takes the rest from the last session |
| `NodeSessions.TraceOverRun` | cmd/node/session.go:638-705 | and so over every run, the online periods being those from each start to its stop, the running one to the present |
| `NodeSessions.Node.Up` | cmd/node/session.go:218-308 | refused when stopped or up, otherwise the new session is current |
| `NodeSessions.Node.FoldSession` | cmd/node/session.go:338-352 | every total gains exactly the session's part, the session becomes the last |
| `NodeSessions.Node.DownLocked` | cmd/node/session.go:317-335 | refused when down, otherwise the session with its last readings is folded |
| `NodeSessions.Node.Finish` | cmd/node/session.go:355-371 | at most one trace, of the latest readings; nothing up afterwards, and what remains still gives the trace written |
| `NodeSessions.Node.AddSample` | cmd/node/session.go:523-530 | the sample adds to the earlier sessions' totals per message type, and a series that never fell up to an earlier reading still never falls |
| `NodeSessions.GrowsOn` | cmd/node/session.go:523-530 | a series that never falls nor exceeds a total stays so when a sample at or above that total is added |
| `Drive.ChurnLog.Record` | pkg/coordinator/drive.go:35-49 | each call counts once, in its own one of the four counters |
| `Drive.DriveNode` | pkg/coordinator/drive.go:94-112 | issues exactly the calls due before the stop; each of the four counters gains the calls of its kind that were answered so |
| `Drive.Planned` | pkg/coordinator/collect.go:193-211 | counts, per kind, the calls the node loops will issue |
| `Drive.PlannedNode` | pkg/coordinator/collect.go:196-208 | the same for one node |
| `Drive.DeparturesAccepted` | cmd/node/session.go:218-335 | absences after the start meet the node up for every kill and down for every start |
| `Drive.ScheduleAccepted` | pkg/coordinator/drive.go:90-113 | no call of a schedule meets "already up" or "already down", the node starting down exactly for an arrival |
| `Drive.CallsInOrder` | pkg/coordinator/drive.go:94-131 | a node's calls are due in order, from the search start and before the stop |
| `Drive.CallsAreDue` | pkg/coordinator/drive.go:94-112 | a node's calls are all its departures but arrivals, and all its returns, that are due before the stop |
| `Drive.TimeOfMeans` | pkg/coordinator/drive.go:129-131 | a call is due at its offset in whole nanoseconds, truncated toward zero |
| `Drive.IssuedAsPlanned` | pkg/coordinator/collect.go:191-211 | calls interleaved in any way are as many of each kind as planned counts over all nodes |
| `Drive.TurnIssues` | pkg/coordinator/drive.go:95-111 | each turn of a node's loop issues the first of its calls ahead, or none, and leaves exactly the rest |
| `Drive.TurnDrives` | pkg/coordinator/drive.go:90-113 | whichever loop takes a turn, every node's calls issued and ahead stay its calls |
| `Drive.DriveAll` | pkg/coordinator/drive.go:89-113 | all node loops in any interleaving over one log: each node gets its calls, each of the four counters gains the calls of its kind that were answered so, and together they are what is planned |
| `Drive.ScheduleAndDrive` | pkg/coordinator/drive.go:73-125 | schedules, coordinator and nodes together, for all draws and interleavings: every schedule as drawn, every call accepted by its node, in order and in time, each counter by the answers, and the whole log as planned |
| `LazyIter.MoveInv` | cmd/node/session.go:44-82 | every step of Next, Close and the ready signal keeps the lock and once discipline |
| `LazyIter.NothingOpensLate` | cmd/node/session.go:51-57 | once a Close has returned nothing is opened or closed any more |
| `LazyIter.NeitherLeaksNorOpensLate` | cmd/node/session.go:40-82 | opened at most once, closed at most once, and closed if opened when any Close has returned |
| `LazyIter.CloseReleases` | cmd/node/session.go:44-82 | after Close nobody stays waiting: while a call is unfinished some thread can step, and each step is progress |
| `Addressing.Draw` | pkg/addr/addr.go:45-70 | octets 1..254 in order within a /24, each node's /24 its first draw with room; fails exactly on a stuck node |
| `Addressing.Retry` | pkg/addr/addr.go:52-67 | the first of 64 draws with a free octet, or none, or an empty histogram |
| `Addressing.SixtyFourDraws` | pkg/addr/addr.go:52-62 | 64 draws of /24s with 254 nodes, or one of none after such, fail; the first other draw before is taken |
| `Addressing.StuckTakesNothing` | pkg/addr/addr.go:52-62 | success and failure exclude each other: a stuck node has no draw to take |
| `Addressing.DrawnUnique` | pkg/addr/addr.go:50-68 | the draws decide every node's /24, so two runs agree as far as both get |
| `Addressing.DrawnIsDecided` | pkg/addr/addr.go:50-68 | a run that gets past a node was not stuck there |
| `Addressing.FewAreNeverStuck` | pkg/addr/addr.go:52-62 | the first 254 nodes fail only for a topic without prefixes |
| `Addressing.SharedAddress` | pkg/addr/addr.go:41-64 | two nodes share an address exactly when distinct prefixes agree in 24 bits and both are as many-th in theirs; every host octet is usable |
| `Addressing.DistinctExactly` | pkg/addr/addr.go:45-70 | all pools drawn from a set of prefixes have distinct addresses exactly when no two of them agree in 24 bits |
| `Addressing.Collision` | pkg/churn/model.go:140-144 | from any two that do, a drawn pool in which two nodes share an address |
| `Addressing.SameAddress` | pkg/addr/addr.go:64-81 | an address determines its host octet and its prefix up to 24 bits, and a network its prefix up to 24 bits |
| `Addressing.AddressMeans` | pkg/addr/addr.go:64 | the octets are the low three of the packed prefix, in order, and the host's |
| `Addressing.GroupNodes` | pkg/addr/addr.go:86-92 | each /24 that occurs lists its nodes, all of them, in order |
| `PrefixRouting.SortGroups` | pkg/coordinator/cloud.go:555-564 | all groups, larger first, ties by prefix, for any map order |
| `PrefixRouting.FindMachine` | pkg/coordinator/cloud.go:568-576 | the first machine with most room if the group fits it, none exactly when it fits nowhere |
| `PrefixRouting.PlaceGroup` | pkg/coordinator/cloud.go:577-580 | the group on one machine in fresh slots, all other nodes where they were |
| `PrefixRouting.PlaceOrdered` | pkg/coordinator/cloud.go:565-583 | succeeds exactly when the greedy packing does and puts each group where it does |
| `PrefixRouting.PlaceByPrefix` | pkg/coordinator/cloud.go:547-583 | succeeds exactly when the group sizes pack greedily; /24s whole, slots distinct and within capacity; fails only if capacity falls short of nodes plus the waste of some /24 |
| `PrefixRouting.PacksOneWay` | pkg/coordinator/cloud.go:554-564 | grouping and order, and so the packing, do not depend on the order maps are iterated in |
| `PrefixRouting.OrderUnique` | pkg/coordinator/cloud.go:555-564 | the groups have one order |
| `PrefixRouting.EqualGroupsPack` | pkg/coordinator/cloud.go:566-581 | groups of one size are packed exactly when the machines have room for as many |
| `PrefixRouting.FailsOnlyCrowded` | pkg/coordinator/cloud.go:566-576 | greedy packing fails only when total room is below all nodes plus that group's waste on all machines but one |
| `PrefixRouting.SucceedsWithinRoom` | pkg/coordinator/cloud.go:566-581 | a packing never places more nodes than there is room |
| `PrefixRouting.PackingIsNotComplete` | pkg/coordinator/cloud.go:543-576 | seven nodes in three /24s that two machines can hold whole, and that do not pack |
| `PrefixRouting.OwnerOf` | pkg/coordinator/cloud.go:529-532 | every /24's owner is the machine of each of its nodes |
| `PrefixRouting.RoutesOf` | pkg/coordinator/cloud.go:533-539 | a machine's routes are those of the /24s owned elsewhere, one each |
| `PrefixRouting.ReachesBy` | pkg/coordinator/cloud.go:533-539 | routes to the /24s owned elsewhere cover a node's address once, or not at all on its own machine |
| `PrefixRouting.AlikeMisroutes` | pkg/coordinator/cloud.go:533-539 | on two machines or more, two prefixes that agree in 24 bits leave a node with a route away from its own machine, or with two routes to it |
| `PrefixRouting.ReachExactly` | pkg/coordinator/cloud.go:524-541 | the routes made from the owners reach every node from every machine exactly when no two prefixes agree in 24 bits, or there is one machine |
| `PrefixRouting.PrefixRoutes` | pkg/coordinator/cloud.go:524-541 | for every node and machine one route, via its own machine, from every other and none on its own, exactly under that condition |
| `PrefixRouting.DrawPlaceRoute` | pkg/coordinator/cloud.go:519-583 | address pool, placement and routes together, for any draws: fails exactly on a stuck node or prefixes that do not pack; otherwise /24s whole on machines, and full reachability exactly under that condition |
| `Placement.ListFree` | pkg/coordinator/cloud.go:592-601 | every slot listed once and in order, under its region; regions in the order of their first machines |
| `Placement.PlacePinned` | pkg/coordinator/cloud.go:619-625 | in any pin order: succeeds exactly when each region's pins fit its slots, and honours them |
| `Placement.Fill` | pkg/coordinator/cloud.go:626-643 | succeeds exactly when all nodes fit the total |
| `Placement.Place` | pkg/coordinator/cloud.go:585-645 | succeeds exactly when pins fit their regions and nodes the total; pins honoured, the bootnode home unless pinned, no slot twice; the others in index order on slots home first, then region by region and machine by machine, none left free before theirs |
| `EachByHost.BuildQueues` | pkg/coordinator/cloud.go:451-455 | every index in exactly one queue, its host's |
| `EachByHost.StepInv` | pkg/coordinator/cloud.go:460-484 | each step keeps every index in one place, the semaphore count, the kept error and the host workers |
| `EachByHost.StepOwnHost` | pkg/coordinator/cloud.go:460-484 | every step keeps what is queued for a host, and what its workers hold or call, that host's |
| `EachByHost.Bounded` | pkg/coordinator/cloud.go:445-487 | in every interleaving at most 4 calls on indices of one host, 64 overall, no index twice |
| `EachByHost.Complete` | pkg/coordinator/cloud.go:451-487 | at the end each index was called exactly once and an error is returned exactly when one failed |
| `EachByHost.NeverStuck` | pkg/coordinator/cloud.go:460-487 | until all workers are done some step is enabled, and each step shortens the work |
| `EachByHost.WorkersPerHost` | pkg/coordinator/cloud.go:466-468 | a host gets four workers, or one for each of its indices if fewer |
| `EachByHost.Saturates` | pkg/coordinator/cloud.go:460-484 | as many calls as there are workers, up to 64, can be under way together |
| `GhostShare.ClippedMeanIsIntegral` | pkg/assign/ghosts.go:58-75 | between the lower and upper sums of min(1, k x curve) for every partition |
| `GhostShare.ClippedMeanIsTheIntegral` | pkg/assign/ghosts.go:58-75 | the only value between all lower and all upper sums |
| `GhostShare.ClippedMeanGrowth` | pkg/assign/ghosts.go:58-75 | nondecreasing in k, and by at most the curve's maximum times the change |
| `GhostShare.ComputeClippedMean` | pkg/assign/ghosts.go:60-75 | the loop computes that mean |
| `GhostShare.SegmentMean` | pkg/assign/ghosts.go:64-72 | times the rise of the segment it is the area under min(1, y), and it lies between the clipped ends |
| `GhostShare.MeanUnique` | pkg/assign/ghosts.go:64-72 | no other value does |
| `GhostShare.ScaleExists` | pkg/assign/ghosts.go:78-82 | for every share below one all large scales reach it, so the doubling ends |
| `GhostShare.NeverAll` | pkg/assign/ghosts.go:78-82 | no scale brings the clipped mean to one |
| `GhostShare.ReachedExactly` | pkg/assign/ghosts.go:78-82 | some scale reaches a share exactly when it is below one |
| `GhostShare.LargeScale` | pkg/assign/ghosts.go:78-82 | a curve clipped from s on has a clipped mean of at least what lies beyond s |
| `GhostShare.Doubling` | pkg/assign/ghosts.go:79-82 | ends, at the first power of two whose mean reaches the share |
| `GhostShare.Bisect` | pkg/assign/ghosts.go:83-89 | keeps the share between the means at the ends while the bracket shrinks by 2^60 |
| `GhostShare.GhostScale` | pkg/assign/ghosts.go:77-91 | the clipped mean at the result is within 0.57 x initial hi / 2^60 of the share |
| `CounterRise.Increase` | pkg/coordinator/collect.go:366-384 | the loop computes the rise of the readings |
| `CounterRise.Split` | figures/checks.py:1389-1400 | a series cut anywhere: the rise is the first part's plus the second's counted on from the last reading |
| `CounterRise.SplitAtMeasured` | pkg/coordinator/collect.go:366-384 | additive when split at a measured sample |
| `CounterRise.RiseAgainstEvents` | pkg/coordinator/collect.go:366-384 | the same bound from any counter value and any pending events |
| `CounterRise.RiseWithinEvents` | pkg/coordinator/collect.go:334-384 | for every life of a counter the rise is at most the events between first and last measured samples, equal exactly when no reset hides one |
| `CounterRise.NoResetIsVisible` | figures/checks.py:1389-1400 | without a reset nothing is hidden |
| `CounterRise.FirstAfter` | pkg/coordinator/collect.go:294 | the first sample after the stop |
| `CounterRise.UpToStop` | pkg/coordinator/collect.go:291-301 | keeps exactly the samples taken by the stop and the one closing the interval that crosses it |
| `CounterRise.KeptMeans` | pkg/coordinator/collect.go:287-301 | a sample is kept exactly when taken by the stop or when some instant since the one before it was no later |
| `CounterRise.CutReadsSame` | pkg/coordinator/collect.go:419-429 | for every counter the cut series reads what the whole does exactly when no guessed namespace count changes |
| `CounterRise.RecordedIsNeverMisjudged` | figures/checks.py:1403-1406 | which holds for ARP, ENA and host counters, and whenever the expected namespace count is recorded |
| `CounterRise.AfterTheStop` | pkg/coordinator/collect.go:255-286 | whole minus up-to-stop is the rise over the samples cut off, from the last reading kept |
| `CounterRise.PartExceedsWhole` | pkg/coordinator/collect.go:419-429 | without recorded counts a series whose part rises by 7 and whose whole rises by 0 |
| `CounterRise.MisjudgedExceeds` | pkg/coordinator/collect.go:366-429 | a misjudged sample and another one the cut measures: counter values for which the part exceeds the whole |
| `CounterRise.PartWithinExactly` | pkg/coordinator/collect.go:255-301 | for all counter values the rise up to the cut stays within the whole's exactly when no sample is misjudged or fewer than two are measured |
| `CounterRise.OtherPartWithin` | pkg/coordinator/collect.go:438-485 | for ARP, ENA and host counters it always does |
| `CounterRise.WindowsAddUp` | figures/checks.py:1486-1494 | over all hosts up-to-stop plus after-stop is the whole, with the counts recorded |
| `CounterRise.CategoryAddsUp` | pkg/coordinator/collect.go:255-286 | the same for a category of several counters |
| `CounterRise.LackingRisesNothing` | pkg/coordinator/collect.go:391-395 | a host that does not speak of a kind adds nothing to its counters |
| `CounterRise.GapsSplit` | pkg/coordinator/collect.go:396-431 | hosts lacking a kind and hosts that have it uncovered are together the hosts not measured at both ends |
| `CounterRise.Tally` | pkg/coordinator/collect.go:415-435 | every counter of a kind summed over all hosts, and the windows not covered |
| `CounterRise.KindDrops` | pkg/coordinator/collect.go:412-478 | totals and coverage gaps of one kind, none when no host speaks of it |
| `CounterRise.HostDrops` | pkg/coordinator/collect.go:340-487 | the categories spoken of, in order, each the sum of its counters over all hosts, together the rises of all ten, and the gaps by kind |
| `CounterRise.OneHome` | pkg/coordinator/collect.go:412-487 | every one of the ten counters is in exactly one category, once |
| `CounterRise.ReadsField` | pkg/coordinator/collect.go:420-482 | a sample reads of each counter its own field, exactly where it measured it |
| `CounterRise.RaiseCounts` | pkg/coordinator/collect.go:412-487 | raising one named field of a host's last measured sample by d, where it was no fall, raises what is reported of that field's category by d and of no other |
| `CounterRise.AllCounted` | pkg/coordinator/collect.go:340-487 | what is reported in all is the rises of all ten counters over all hosts |
| `CounterRise.RisingMeans` | pkg/coordinator/collect.go:480-485 | the hosts with host UDP drops are none exactly when there are no drops, and no more than drops |
| `CounterRise.GapsMean` | pkg/coordinator/collect.go:396-465 | the gaps are the hosts that do not cover their window, where some host speaks of the kind; without an ENA device there is none |
| `CounterRise.CoverMeans` | pkg/coordinator/collect.go:365 | a window is covered exactly by two samples or more, the first and the last of which read the counters |
| `CounterRise.SilentMeans` | pkg/coordinator/collect.go:391-411 | when a host's samples do not speak of a kind |
| `CounterRise.ListedTotal` | pkg/coordinator/collect.go:262-270 | a category that is not listed would have been zero, so a missing entry may be read as zero |
| `CounterRise.UpToStops` | pkg/coordinator/collect.go:291-301 | the same for every host |
| `CounterRise.WindowDrops` | pkg/coordinator/collect.go:255-286 | by category what is reported up to and after the stop; with counts recorded, the latter is what the samples not kept add, and both make up the whole |
| `Crawler.Entry.constructor` | cmd/crawl/main.go:384-391 | a node first seen: never pinged, due at once |
| `Crawler.Entry.Finish` | cmd/crawl/main.go:485-526 | the new state and the transition reported, for an answer and for a miss |
| `Crawler.Entry.Answer` | cmd/crawl/main.go:497-506 | an answer ends the misses and, of a node that was not up, starts a session |
| `Crawler.Entry.Miss` | cmd/crawl/main.go:509-519 | a miss counts, and takes the node down exactly by the two conditions |
| `Crawler.TellsStep` | cmd/crawl/main.go:486-526 | the fields keep telling the history: trailing misses, last answer, live or not, next due, spacing |
| `Crawler.DownIsJustified` | cmd/crawl/main.go:508-519 | a down follows the misses it names, all unanswered, two probe periods after an answer, with the session's own counts |
| `Crawler.FinishKeeps` | cmd/crawl/main.go:475-526 | the end of a ping keeps a node's whole record in agreement with its pings |
| `Crawler.OnePingTick` | cmd/crawl/main.go:570-584 | the dispatch hands out each due node once and marks exactly those |
| `Crawler.StepInv` | cmd/crawl/main.go:468-607 | every step of the dispatch loop, the pools and the pings keeps all of it |
| `Crawler.AtMostOnePing` | cmd/crawl/main.go:570-605 | in every reachable state no node has two pings queued or in flight |
| `Crawler.TransitionsTrustworthy` | cmd/crawl/main.go:475-526 | transitions alternate from an up, each down is justified, and up means answered and not quiet since |
| `Crawler.DispatchByHistory` | cmd/crawl/main.go:520-607 | in every reachable state exactly the addressed nodes with no ping under way whose time by their own pings has come are handed out, and only nodes that never answered and are no longer new are refused |
| `Crawler.KeepsNewest` | cmd/crawl/main.go:382-399 | a node's record is the newest seen of it |
| `Crawler.MissesDecide` | cmd/crawl/main.go:516 | with two or more misses asked for, or one and no probe period, up means fewer misses than that since the last answer |
| `Crawler.TimeDecides` | cmd/crawl/main.go:516 | in every other configuration a reachable state where it does not |
| `Crawler.MissesDecideExactly` | cmd/crawl/main.go:508-519 | the misses alone decide in every reachable state exactly in those configurations |
| `CrawlSessions.RunsUnique` | cmd/crawl/sessions.py:11-15 | a series of answers has one cut into maximal runs |
| `CrawlSessions.ExtendRuns` | cmd/crawl/sessions.py:73-77 | one more answer extends the last run or starts the next |
| `CrawlSessions.StepKeeps` | cmd/crawl/sessions.py:70-81 | the dictionaries hold each node's last answer and open session; a step fails exactly on a closed session |
| `CrawlSessions.FoldsAnswer` | cmd/crawl/sessions.py:70-77 | an answer keeps a node's closed sessions its closed runs and its open one its last |
| `CrawlSessions.ReadLog` | cmd/crawl/sessions.py:52-83 | the pass over the log: when it fails, and what it holds otherwise |
| `CrawlSessions.CloseOpen` | cmd/crawl/sessions.py:84-91 | adds each open session once, closed exactly when its node was silent for the gap at the end |
| `CrawlSessions.EndOfMeans` | cmd/crawl/sessions.py:84 | a log ends at its last sweep, or at its last line without one |
| `CrawlSessions.Sessions` | cmd/crawl/sessions.py:48-91 | per node exactly its maximal runs, the last open exactly when answered within the gap of the end; failure exactly |
| `CrawlSessions.NoEarlyDownNeverFails` | cmd/crawl/sessions.py:78-81 | a log whose downs follow its first pong never fails |
| `CrawlSessions.OldLogFails` | cmd/crawl/sessions.py:73-81 | up, down, and up again later than the gap fails in a log without pongs |
| `Liveness.UpIntervals` | figures/checks.py:242-257 | sorted, strictly separated, holding exactly the instants of the sessions and those within the window of a sample |
| `Liveness.MergeKeeps` | figures/checks.py:252-256 | each interval merged in keeps that |
| `Liveness.ScheduledDownSince` | figures/checks.py:682-687 | none exactly when no absence holds the instant, otherwise the time since the first that does |
| `Liveness.LastStart` | figures/checks.py:716 | the last interval starting by the instant |
| `Liveness.DownSince` | figures/checks.py:706-721 | by the trace: none exactly inside the intervals, otherwise the distance to the latest covered instant; by the schedule where that decides |
| `Liveness.OverlapsCount` | figures/checks.py:723-731 | adding up overlaps counts each instant as often as it is held |
| `Liveness.ScheduledIsMeasure` | figures/checks.py:725-726 | scheduled online time is the measure exactly when no instant is in two absences, else less |
| `Liveness.InOrderHoldsOnce` | figures/checks.py:665-676 | absences one after the other hold no instant twice |
| `Liveness.OnlineIsMeasure` | figures/checks.py:723-731 | online_ms is the measure of online time in the window, within its length, exactly under that condition |
| `Liveness.OverlappingAbsences` | figures/checks.py:725-726 | two equal absences give minus the window |
| `Searcher.LookupTarget` | cmd/simnet/search.go:500-510 | the per-lookup target is the target count, or 30, or the topic's registrants if they are fewer; never none |
| `Searcher.FoundKeeps` | cmd/simnet/search.go:556-593 | each result keeps the counts, and the distinct registrants and the new ones among them in the order and with the times of their first takes |
| `Searcher.LookupBook` | cmd/simnet/search.go:662-672 | a lookup adds one entry to each list, its contacts and its hit |
| `Searcher.EndSessionAccount` | cmd/simnet/search.go:654-672 | closing a session books its contacts once, under its lookup |
| `Searcher.TakenPace` | cmd/simnet/search.go:573-589 | a registrant taken after a paced one comes no earlier than its turn |
| `Searcher.PausedPace` | cmd/simnet/search.go:628-642 | after the pacing wait the next turn has come |
| `Searcher.RunInv` | cmd/simnet/search.go:518-695 | every state of every run keeps the books, the accounts and the pace |
| `Searcher.ResultsAddUp` | cmd/simnet/search.go:696-740 | found = registrants + extra; unique ids and times are the first takes of the registrants in order, the new times those not connected at the start; already connected + new |
| `Searcher.LogIsDelivered` | cmd/simnet/search.go:538-560 | over every run every result the iterator delivered while consuming, but the node's own, is booked with its time, and nothing else |
| `Searcher.ContactsAddUp` | cmd/simnet/search.go:413-421 | over every run the contacts reported are those the iterators made |
| `Searcher.TargetContacts` | cmd/simnet/search.go:576-579 | the contacts to the target are those made by the round that brought the last registrant needed |
| `Searcher.LookupsAddUp` | cmd/simnet/search.go:662-672 | all lists as long as lookups, no latency negative, hits as the results show, contacts summing to the search's but for one cut session |
| `Searcher.LookupsTold` | cmd/simnet/search.go:518-672 | over every run of a scheduled search: lookup i found the distinct registrants delivered between its opening and its closing, took the time and made the contacts between the two, opened no earlier than scheduled, and closed at the first result that met its target |
| `Searcher.LookupReported` | cmd/simnet/search.go:571-672 | the same entry by entry |
| `Searcher.AllLookedUp` | cmd/simnet/search.go:519-531 | unless the deadline ends it, it makes every lookup scheduled |
| `Searcher.OnlyScheduledLooksUp` | cmd/simnet/search.go:662-672 | the other models report no lookups |
| `Searcher.RoundTable` | cmd/simnet/search.go:544-694 | each round of the consume loop as a decision table: when the session ends, where that leads, when the deadline or enough results end the search, when the pace begins, how long the round takes, what it dials |
| `Searcher.WaitTable` | cmd/simnet/search.go:519-531 | so for the waits for the next scheduled time, the node's return or a free slot |
| `Searcher.StartsOff` | cmd/simnet/search.go:518-536 | a search begins with nothing found, looking up at once or waiting for its first scheduled time |
| `Searcher.TargetCosts` | cmd/simnet/search.go:576-579 | the contacts to the target are known exactly when it was met, and within the total |
| `Searcher.DialOk` | cmd/simnet/search.go:604-620 | a dial outside the redial wait keeps the counts, the targets and the spacing of all dials |
| `Searcher.DialsAddUp` | cmd/simnet/search.go:604-620 | connected plus refused within attempts, only registrants found are dialed, none twice within the redial wait, and none but in the slot model |
| `Searcher.DialsAreDue` | cmd/simnet/search.go:604-620 | over every run exactly the registrants delivered to a searcher with a free slot and not dialed within the redial wait are dialed, and attempts, connections, refusals and the time the slots filled are those of these dials |
| `Searcher.PaceExactly` | cmd/simnet/search.go:601-642 | every distinct registrant m after the first, from the initial ones on, is taken no earlier than paceStart + (m - initial) x interval in every run, exactly when there is no connection table |
| `Searcher.AlwaysPaced` | cmd/simnet/search.go:601-603 | without a connection table every one does |
| `Searcher.AwaySkipsPace` | cmd/simnet/search.go:601-603 | a registrant taken while away ends the session unpaced, and the next begins with no time passing |
| `Searcher.PaceFails` | cmd/simnet/search.go:601-642 | with a connection table, whatever the initial results and pauses, a run that takes a registrant before its turn |
| `Searcher.ConsumeNode` | cmd/simnet/search.go:556-651 | the consume loop's body does what the state machine's step says |
| `Searcher.DialAndDecide` | cmd/simnet/search.go:604-650 | so does its part from the dial on |
| `Searcher.AfterConsume` | cmd/simnet/search.go:652-694 | so does what follows the loop |
| `Searcher.RunOneSearcher` | cmd/simnet/search.go:518-695 | the nested loops compute the run, for every stream of stimuli |

## Left out

- The discovery and peer-to-peer code the testbed drives, record signing, HTTP agents, network
  namespaces, deployment drivers, trace transfer, loading and writing of files, plots and reports.
- Float rounding, the quality of the random source, seeding, and drift between clocks.
- PeerSlots: several searchers sharing one wake channel, and the discovery service stopped and
  restarted with a node; a node's churn driver starts with its node up.
- ChurnModel.ScheduleTopic: absences of at least one crawl unit are required, as the crawl counts them.
  Window, cadence and hours are positive.
- GhostShare.GhostScale: shares are below one, as no scale reaches a larger one (`GhostShare.NeverAll`);
  the scenario loader admits up to one half.
- PrefixRouting.PlaceByPrefix: does not say which slot within its machine a node gets, only that no
  two nodes share one.
- PrefixRouting.PrefixRoutes: the order of a machine's routes is the map's and is not stated.
- CounterRise.UpToStop: samples come in the order of their times.
- Crawler.TransitionsTrustworthy: speaks of transitions in the order of the registry's lock; the log
  lines are written after it is released. Pool sizes, the sampler and the sweep counts are not modelled.
- CrawlSessions.Sessions: what old logs fold to when they do not fail, endpoint merging and the tables
  written from the sessions.
- Liveness.DownSince: recorded sessions end no earlier than they start; reading traces and assignments;
  an empty interval list stands for a node without a usable trace.
- CounterRise.HostDrops: the wording of the report, and the informational counters of figures/checks.py.
- Searcher.RunOneSearcher: dead results, the time to the first result and the iterators' progress statistics; the connection table's
  answers and the times of scheduled lookups are inputs.
- Ghost layouts per bucket and their assignment, percentile helpers, membership and summaries: they
  would add only easy members.
