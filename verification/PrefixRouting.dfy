/** Placement by /24 and the routes derived from it: placeByPrefix and prefixRoutes of
    pkg/coordinator/cloud.go. Go's map iteration is an arbitrary choice of the next key. */
module PrefixRouting {
  import opened Wrappers
  import opened Collections
  import opened Addressing

  // --------------------------------------------------------------- order of groups

  /** Larger groups first, ties by prefix. */
  predicate Before(g: Groups, p: nat, q: nat)
    requires p in g && q in g
  {
    if |g[p]| != |g[q]| then |g[p]| > |g[q]| else p < q
  }

  ghost predicate Sorted(g: Groups, order: seq<nat>) {
    && (forall x :: 0 <= x < |order| ==> order[x] in g)
    && (forall x, y :: 0 <= x < y < |order| ==> Before(g, order[x], order[y]))
  }

  /** The sorted list of all groups. */
  ghost predicate OrderOf(g: Groups, order: seq<nat>) {
    Sorted(g, order) && (forall p :: p in g ==> p in order)
  }

  method Insert(g: Groups, order: seq<nat>, p: nat) returns (order': seq<nat>)
    requires Sorted(g, order) && p in g && p !in order
    ensures Sorted(g, order') && (forall q :: q in order' <==> q in order || q == p)
  {
    var x := 0;
    while x < |order| && Before(g, order[x], p)
      invariant 0 <= x <= |order|
      invariant forall y :: 0 <= y < x ==> Before(g, order[y], p)
    {
      x := x + 1;
    }
    InsertSorted(g, order, p, x);
    order' := order[..x] + [p] + order[x..];
  }

  lemma BeforeRest(g: Groups, order: seq<nat>, p: nat, x: nat, y: nat)
    requires Sorted(g, order) && p in g && p !in order && x <= y < |order| && !Before(g, order[x], p)
    ensures order[y] in g && Before(g, p, order[y])
  {
    assert order[x] != p && order[y] != p;
  }

  lemma InsertSorted(g: Groups, order: seq<nat>, p: nat, x: nat)
    requires Sorted(g, order) && p in g && p !in order && x <= |order|
    requires forall y :: 0 <= y < x ==> Before(g, order[y], p)
    requires x < |order| ==> !Before(g, order[x], p)
    ensures Sorted(g, order[..x] + [p] + order[x..])
    ensures forall q :: q in order[..x] + [p] + order[x..] <==> q in order || q == p
  {
    var r := order[..x] + [p] + order[x..];
    forall y: nat | x <= y < |order| ensures Before(g, p, order[y]) { BeforeRest(g, order, p, x, y); }
    hide Before;
    assert forall y :: 0 <= y < |r| ==> r[y] == if y < x then order[y] else if y == x then p else order[y - 1];
    Inserted(order, p, x);
  }

  lemma Inserted(order: seq<nat>, p: nat, x: nat)
    requires x <= |order|
    ensures forall q :: q in order[..x] + [p] + order[x..] <==> q in order || q == p
  {
    assert order == order[..x] + order[x..];
  }

  method SortGroups(g: Groups) returns (order: seq<nat>)
    ensures OrderOf(g, order)
    ensures forall x, y :: 0 <= x < y < |order| ==>
              order[x] in g && order[y] in g
              && (|g[order[x]]| > |g[order[y]]| || (|g[order[x]]| == |g[order[y]]| && order[x] < order[y]))
  {
    order := [];
    var rest := g.Keys;
    while rest != {}
      invariant rest <= g.Keys && Sorted(g, order)
      invariant forall p :: p in g <==> p in rest || p in order
      invariant forall p :: p in rest ==> p !in order
    {
      var p :| p in rest;
      order := Insert(g, order, p);
      rest := rest - {p};
    }
  }

  lemma SameNext(g: Groups, a: seq<nat>, b: seq<nat>, i: nat)
    requires OrderOf(g, a) && OrderOf(g, b) && i < |a| && i < |b| && a[..i] == b[..i]
    ensures a[i] == b[i]
  {
    assert a[i] in g && b[i] in g;
    var j :| 0 <= j < |b| && b[j] == a[i];
    var k :| 0 <= k < |a| && a[k] == b[i];
    assert forall x :: 0 <= x < i ==> a[x] == a[..i][x] == b[..i][x] == b[x];
    assert i <= j && i <= k;
  }

  lemma {:induction false} SameUpTo(g: Groups, a: seq<nat>, b: seq<nat>, i: nat)
    requires OrderOf(g, a) && OrderOf(g, b) && i <= |a| && i <= |b|
    ensures a[..i] == b[..i]
  {
    if i > 0 {
      SameUpTo(g, a, b, i - 1);
      SameNext(g, a, b, i - 1);
    }
  }

  lemma NoLonger(g: Groups, a: seq<nat>, b: seq<nat>)
    requires OrderOf(g, a) && OrderOf(g, b)
    ensures |a| <= |b|
  {
    assert b[..|b|] == b;
    if |b| < |a| {
      SameUpTo(g, a, b, |b|);
      Distinct(g, a, |b|);
    }
  }

  /** The groups have one order. */
  lemma OrderUnique(g: Groups, a: seq<nat>, b: seq<nat>)
    requires OrderOf(g, a) && OrderOf(g, b)
    ensures a == b
  {
    NoLonger(g, a, b);
    NoLonger(g, b, a);
    SameUpTo(g, a, b, |a|);
  }

  // ------------------------------------------------------------------ greedy packing

  /** The machine the scan settles on: the first of those with most room. */
  ghost predicate Widest(room: seq<nat>, h: nat) {
    && h < |room|
    && (forall c: nat :: c < |room| ==> room[c] <= room[h])
    && (forall c: nat :: c < h ==> room[c] < room[h])
  }

  function WidestFrom(room: seq<nat>, h: nat, c: nat): (r: nat)
    requires h < c <= |room|
    requires forall x: nat :: x < c ==> room[x] <= room[h]
    requires forall x: nat :: x < h ==> room[x] < room[h]
    ensures Widest(room, r)
    decreases |room| - c
  {
    if c == |room| then h else WidestFrom(room, if room[c] > room[h] then c else h, c + 1)
  }

  /** Group after group onto the machine with most room left. */
  function Greedy(sizes: seq<nat>, room: seq<nat>): (r: Option<seq<nat>>)
    ensures r.Some? ==> |r.value| == |sizes| && forall x :: 0 <= x < |sizes| ==> r.value[x] < |room|
  {
    if sizes == [] then Some([])
    else if room == [] then None
    else
      var h := WidestFrom(room, 0, 1);
      if room[h] < sizes[0] then None
      else
        var rest := Greedy(sizes[1..], room[h := room[h] - sizes[0]]);
        if rest.None? then None else Some([h] + rest.value)
  }

  lemma {:induction false} SumUpdate(s: seq<nat>, h: nat, v: nat)
    requires h < |s|
    ensures Sum(s[h := v]) == Sum(s) - s[h] + v
  {
    if h == 0 {
      assert s[h := v][1..] == s[1..];
    } else {
      assert s[h := v][1..] == s[1..][h - 1 := v];
      SumUpdate(s[1..], h - 1, v);
    }
  }

  lemma {:induction false} SumBelow(s: seq<nat>, b: nat)
    requires forall x: nat :: x < |s| ==> s[x] < b
    ensures Sum(s) + |s| <= |s| * b
  {
    if s != [] {
      assert forall x: nat :: x < |s[1..]| ==> s[1..][x] == s[x + 1];
      SumBelow(s[1..], b);
    }
  }

  /** The total room falls short of the nodes plus the waste that whole groups of size `s` can
      leave on all machines but one. */
  predicate Crowded(sizes: seq<nat>, room: seq<nat>, s: nat) {
    Sum(room) + |room| <= Sum(sizes) - s + |room| * s
  }

  /** Packing fails only when the machines are crowded for one of the groups. */
  lemma {:induction false} FailsOnlyCrowded(sizes: seq<nat>, room: seq<nat>)
    requires Greedy(sizes, room).None?
    ensures exists s: nat :: s in sizes && Crowded(sizes, room, s)
    decreases |sizes|
  {
    if room == [] {
      assert sizes[0] in sizes && Crowded(sizes, room, sizes[0]);
    } else {
      var h := WidestFrom(room, 0, 1);
      if room[h] < sizes[0] {
        SumBelow(room, sizes[0]);
        assert sizes[0] in sizes && Crowded(sizes, room, sizes[0]);
      } else {
        var room' := room[h := room[h] - sizes[0]];
        FailsOnlyCrowded(sizes[1..], room');
        SumUpdate(room, h, room[h] - sizes[0]);
        var s: nat :| s in sizes[1..] && Crowded(sizes[1..], room', s);
        assert s in sizes && Crowded(sizes, room, s);
      }
    }
  }

  /** Packing that succeeds needs no more than the total room. */
  lemma {:induction false} SucceedsWithinRoom(sizes: seq<nat>, room: seq<nat>)
    requires Greedy(sizes, room).Some?
    ensures Sum(sizes) <= Sum(room)
    decreases |sizes|
  {
    if sizes != [] {
      var h := WidestFrom(room, 0, 1);
      SucceedsWithinRoom(sizes[1..], room[h := room[h] - sizes[0]]);
      SumUpdate(room, h, room[h] - sizes[0]);
    }
  }

  /** Room in whole groups of size `s`. */
  function WholeGroups(room: seq<nat>, s: nat): nat
    requires s > 0
  {
    if room == [] then 0 else GroupsIn(room[0], s) + WholeGroups(room[1..], s)
  }

  /** How many groups of size `s` fit `room`. */
  function GroupsIn(room: nat, s: nat): nat
    requires s > 0
  {
    if room < s then 0 else 1 + GroupsIn(room - s, s)
  }

  lemma {:induction false} WholeGroupsUpdate(room: seq<nat>, s: nat, h: nat)
    requires s > 0 && h < |room| && room[h] >= s
    ensures WholeGroups(room[h := room[h] - s], s) == WholeGroups(room, s) - 1
  {
    if h == 0 {
      assert room[h := room[h] - s][1..] == room[1..];
    } else {
      assert room[h := room[h] - s][1..] == room[1..][h - 1 := room[h] - s];
      WholeGroupsUpdate(room[1..], s, h - 1);
    }
  }

  lemma {:induction false} NoWholeGroup(room: seq<nat>, s: nat)
    requires s > 0 && forall h :: 0 <= h < |room| ==> room[h] < s
    ensures WholeGroups(room, s) == 0
  {
    if room != [] {
      NoWholeGroup(room[1..], s);
    }
  }

  /** Groups of one size are packed exactly when the machines have room for as many. */
  lemma {:induction false} EqualGroupsPack(sizes: seq<nat>, room: seq<nat>, s: nat)
    requires s > 0 && forall x :: 0 <= x < |sizes| ==> sizes[x] == s
    ensures Greedy(sizes, room).Some? <==> |sizes| <= WholeGroups(room, s)
    decreases |sizes|
  {
    if sizes != [] {
      if room == [] {
        assert WholeGroups(room, s) == 0;
      } else {
        var h := WidestFrom(room, 0, 1);
        if room[h] < s {
          NoWholeGroup(room, s);
        } else {
          WholeGroupsUpdate(room, s, h);
          EqualGroupsPack(sizes[1..], room[h := room[h] - s], s);
        }
      }
    }
  }

  // ----------------------------------------------------------------------- placement

  /** Nodes placed so far sit in distinct slots below what their machine has used. */
  ghost predicate Slots(placed: set<nat>, hostOf: seq<nat>, local: seq<nat>, used: seq<nat>) {
    && |hostOf| == |local|
    && (forall i: nat :: i in placed ==> i < |hostOf| && hostOf[i] < |used| && local[i] < used[hostOf[i]])
    && (forall i: nat, j: nat :: i in placed && j in placed && i != j && hostOf[i] == hostOf[j] ==>
          local[i] != local[j])
  }

  lemma PlaceNode(placed: set<nat>, hostOf: seq<nat>, local: seq<nat>, used: seq<nat>, i: nat, h: nat)
    requires Slots(placed, hostOf, local, used) && i !in placed && i < |hostOf| && h < |used|
    ensures Slots(placed + {i}, hostOf[i := h], local[i := used[h]], used[h := used[h] + 1])
  {
  }

  /** The scan over the machines. */
  method FindMachine(room: seq<nat>, size: nat) returns (h: int)
    ensures -1 <= h < |room|
    ensures h >= 0 ==> Widest(room, h) && room[h] >= size
    ensures h >= 0 ==> forall c: nat :: c < |room| ==> if c < h then room[c] < room[h] else room[c] <= room[h]
    ensures h < 0 ==> forall c: nat :: c < |room| ==> room[c] < size
  {
    h := -1;
    for c := 0 to |room|
      invariant -1 <= h < c
      invariant h < 0 ==> forall x: nat :: x < c ==> room[x] < size
      invariant h >= 0 ==> room[h] >= size && forall x: nat :: x < c ==> room[x] <= room[h]
      invariant h >= 0 ==> forall x: nat :: x < h ==> room[x] < room[h]
    {
      if room[c] >= size && (h < 0 || room[c] > room[h]) {
        h := c;
      }
    }
  }

  /** One group onto machine `h`. */
  method PlaceGroup(g: seq<nat>, h: nat, hostOf: seq<nat>, local: seq<nat>, used: seq<nat>, ghost placed: set<nat>)
    returns (hostOf': seq<nat>, local': seq<nat>, used': seq<nat>)
    requires Slots(placed, hostOf, local, used) && h < |used|
    requires forall x :: 0 <= x < |g| ==> g[x] < |hostOf| && g[x] !in placed
    requires forall x, y :: 0 <= x < y < |g| ==> g[x] < g[y]
    ensures Slots(placed + Elems(g), hostOf', local', used') && |hostOf'| == |hostOf|
    ensures forall i: nat :: i < |hostOf| ==> hostOf'[i] == if i in g then h else hostOf[i]
    ensures used' == used[h := used[h] + |g|]
  {
    hide Slots;
    hostOf', local', used' := hostOf, local, used;
    assert |local'| == |hostOf'| by { SameLength(placed, hostOf, local, used); }
    ghost var done := placed;
    for x := 0 to |g|
      invariant done == placed + Elems(g[..x]) && Slots(done, hostOf', local', used')
      invariant |local'| == |hostOf'| == |hostOf|
      invariant forall i: nat :: i < |hostOf| ==> hostOf'[i] == if i in g[..x] then h else hostOf[i]
      invariant used' == used[h := used[h] + x]
    {
      assert g[x] !in g[..x];
      assert g[..x + 1] == g[..x] + [g[x]];
      PlaceNode(done, hostOf', local', used', g[x], h);
      done := done + {g[x]};
      hostOf', local', used' := hostOf'[g[x] := h], local'[g[x] := used'[h]], used'[h := used'[h] + 1];
    }
    assert g[..|g|] == g;
  }

  lemma SameLength(placed: set<nat>, hostOf: seq<nat>, local: seq<nat>, used: seq<nat>)
    requires Slots(placed, hostOf, local, used)
    ensures |local| == |hostOf|
  {
  }

  /** What a machine has left. */
  function Room(caps: seq<nat>, used: seq<nat>): (room: seq<nat>)
    requires |used| == |caps| && forall h: nat :: h < |caps| ==> used[h] <= caps[h]
    ensures |room| == |caps| && forall h: nat :: h < |caps| ==> room[h] == caps[h] - used[h]
  {
    seq(|caps|, h requires 0 <= h < |caps| => caps[h] - used[h])
  }

  function Sizes(g: Groups, order: seq<nat>): (s: seq<nat>)
    requires forall x :: 0 <= x < |order| ==> order[x] in g
    ensures |s| == |order| && forall x :: 0 <= x < |order| ==> s[x] == |g[order[x]]|
  {
    seq(|order|, x requires 0 <= x < |order| => |g[order[x]]|)
  }

  ghost function Elems(s: seq<nat>): set<nat> {
    set i: nat | i in s
  }

  ghost function NodesOf(prefix: seq<nat>, order: seq<nat>): set<nat> {
    set i: nat | i < |prefix| && prefix[i] in order
  }

  ghost predicate Within(used: seq<nat>, caps: seq<nat>) {
    |used| == |caps| && forall h: nat :: h < |caps| ==> used[h] <= caps[h]
  }

  /** Every node of the x-th group is on the x-th choice. */
  ghost predicate OnChoices(prefix: seq<nat>, order: seq<nat>, hostOf: seq<nat>, choices: seq<nat>) {
    && |choices| == |order| && |hostOf| == |prefix|
    && (forall x, i: nat :: 0 <= x < |order| && i < |prefix| && prefix[i] == order[x] ==> hostOf[i] == choices[x])
  }

  /** The packing decided so far, continued greedily, is the greedy packing. */
  ghost predicate Follows(sizes: seq<nat>, caps: seq<nat>, k: nat, used: seq<nat>, choices: seq<nat>)
    requires k <= |sizes| && Within(used, caps)
  {
    var rest := Greedy(sizes[k..], Room(caps, used));
    Greedy(sizes, caps) == if rest.None? then None else Some(choices + rest.value)
  }

  lemma FollowsStep(sizes: seq<nat>, caps: seq<nat>, k: nat, used: seq<nat>, choices: seq<nat>, h: nat)
    requires k < |sizes| && Within(used, caps) && Follows(sizes, caps, k, used, choices)
    requires Widest(Room(caps, used), h) && Room(caps, used)[h] >= sizes[k]
    ensures Within(used[h := used[h] + sizes[k]], caps)
    ensures Follows(sizes, caps, k + 1, used[h := used[h] + sizes[k]], choices + [h])
  {
    hide Sum;
    var room := Room(caps, used);
    var used' := used[h := used[h] + sizes[k]];
    assert WidestFrom(room, 0, 1) == h;
    assert sizes[k..][0] == sizes[k] && sizes[k..][1..] == sizes[k + 1..];
    assert Room(caps, used') == room[h := room[h] - sizes[k]];
    var rest := Greedy(sizes[k + 1..], Room(caps, used'));
    if rest.Some? {
      assert choices + ([h] + rest.value) == choices + [h] + rest.value;
    }
  }

  lemma FollowsFails(sizes: seq<nat>, caps: seq<nat>, k: nat, used: seq<nat>, choices: seq<nat>)
    requires k < |sizes| && Within(used, caps) && Follows(sizes, caps, k, used, choices)
    requires forall c: nat :: c < |caps| ==> Room(caps, used)[c] < sizes[k]
    ensures Greedy(sizes, caps).None?
  {
  }

  lemma FollowsStart(sizes: seq<nat>, caps: seq<nat>)
    ensures Within(seq(|caps|, _ => 0), caps) && Follows(sizes, caps, 0, seq(|caps|, _ => 0), [])
  {
    var zero := seq(|caps|, _ => 0);
    assert Within(zero, caps);
    assert Room(caps, zero) == caps && sizes[0..] == sizes;
    var rest := Greedy(sizes, caps);
    if rest.Some? { assert [] + rest.value == rest.value; }
  }

  lemma FollowsEnd(sizes: seq<nat>, caps: seq<nat>, used: seq<nat>, choices: seq<nat>)
    requires Within(used, caps) && Follows(sizes, caps, |sizes|, used, choices)
    ensures Greedy(sizes, caps) == Some(choices)
  {
    assert sizes[|sizes|..] == [] && choices + [] == choices;
  }

  lemma GroupNodesOf(prefix: seq<nat>, g: Groups, order: seq<nat>, k: nat)
    requires GroupsOf(prefix, g) && OrderOf(g, order) && k < |order|
    ensures NodesOf(prefix, order[..k + 1]) == NodesOf(prefix, order[..k]) + Elems(g[order[k]])
    ensures forall x :: 0 <= x < |g[order[k]]| ==>
              g[order[k]][x] < |prefix| && g[order[k]][x] !in NodesOf(prefix, order[..k])
    ensures forall x, y :: 0 <= x < y < |g[order[k]]| ==> g[order[k]][x] < g[order[k]][y]
  {
    hide OrderOf;
    var p := order[k];
    assert p in g && p !in order[..k] by { Distinct(g, order, k); }
    assert GroupOf(prefix, g[p], p);
    assert order[..k + 1] == order[..k] + [p];
    forall x | 0 <= x < |g[p]| ensures g[p][x] < |prefix| && g[p][x] !in NodesOf(prefix, order[..k]) {
      GroupEntry(prefix, g, p, x);
    }
    forall i: nat ensures i in NodesOf(prefix, order[..k + 1]) <==> i in NodesOf(prefix, order[..k]) || i in g[p] {
      GroupHas(prefix, g, p, i);
    }
  }

  lemma Distinct(g: Groups, order: seq<nat>, k: nat)
    requires OrderOf(g, order) && k < |order|
    ensures order[k] in g && order[k] !in order[..k]
  {
  }

  lemma OnChoicesStep(prefix: seq<nat>, g: Groups, order: seq<nat>, k: nat, hostOf: seq<nat>, choices: seq<nat>,
                      hostOf': seq<nat>, h: nat)
    requires GroupsOf(prefix, g) && OrderOf(g, order) && k < |order| && order[k] in g
    requires OnChoices(prefix, order[..k], hostOf, choices) && |hostOf'| == |hostOf|
    requires forall i: nat :: i < |hostOf| ==> hostOf'[i] == if i in g[order[k]] then h else hostOf[i]
    ensures OnChoices(prefix, order[..k + 1], hostOf', choices + [h])
  {
    var order' := order[..k + 1];
    forall x, i: nat | 0 <= x < |order'| && i < |prefix| && prefix[i] == order'[x]
      ensures hostOf'[i] == (choices + [h])[x]
    {
      assert i in g[order[k]] <==> prefix[i] == order[k];
      if x < k {
        assert order[x] != order[k];
        assert order[..k][x] == order[x];
      }
    }
  }

  /** Every group whole on one machine, distinct slots within capacity. */
  ghost predicate Whole(prefix: seq<nat>, caps: seq<nat>, hostOf: seq<nat>, local: seq<nat>) {
    && |hostOf| == |prefix| && |local| == |prefix|
    && (forall i: nat :: i < |prefix| ==> hostOf[i] < |caps| && local[i] < caps[hostOf[i]])
    && (forall i: nat, j: nat :: i < |prefix| && j < |prefix| && i != j && hostOf[i] == hostOf[j] ==>
          local[i] != local[j])
    && (forall i: nat, j: nat :: i < |prefix| && j < |prefix| && prefix[i] == prefix[j] ==> hostOf[i] == hostOf[j])
  }

  lemma EndsWhole(prefix: seq<nat>, g: Groups, order: seq<nat>, caps: seq<nat>, hostOf: seq<nat>, local: seq<nat>,
                  used: seq<nat>, choices: seq<nat>)
    requires GroupsOf(prefix, g) && OrderOf(g, order) && Within(used, caps)
    requires Slots(NodesOf(prefix, order), hostOf, local, used) && OnChoices(prefix, order, hostOf, choices)
    ensures Whole(prefix, caps, hostOf, local)
  {
    forall i: nat | i < |prefix| ensures i in NodesOf(prefix, order) {
      assert prefix[i] in g;
    }
    forall i: nat, j: nat | i < |prefix| && j < |prefix| && prefix[i] == prefix[j] ensures hostOf[i] == hostOf[j] {
      assert i in NodesOf(prefix, order);
      var x :| 0 <= x < |order| && order[x] == prefix[i];
    }
  }

  /** placeByPrefix after its grouping and sorting. */
  method PlaceOrdered(prefix: seq<nat>, g: Groups, order: seq<nat>, caps: seq<nat>)
    returns (r: Result<(seq<nat>, seq<nat>)>)
    requires GroupsOf(prefix, g) && OrderOf(g, order)
    ensures r.Ok? <==> Greedy(Sizes(g, order), caps).Some?
    ensures r.Ok? ==> Whole(prefix, caps, r.value.0, r.value.1)
    ensures r.Ok? ==> OnChoices(prefix, order, r.value.0, Greedy(Sizes(g, order), caps).value)
  {
    hide Greedy, Slots, NodesOf, OnChoices, Follows, GroupsOf, Whole, Widest, Sum;
    var hostOf, local, used := seq(|prefix|, _ => 0), seq(|prefix|, _ => 0), seq(|caps|, _ => 0);
    ghost var sizes, choices: seq<nat> := Sizes(g, order), [];
    StartEmpty(prefix, hostOf, local, used);
    FollowsStart(sizes, caps);
    assert order[..0] == [];
    for k := 0 to |order|
      invariant Within(used, caps) && |hostOf| == |prefix|
      invariant Slots(NodesOf(prefix, order[..k]), hostOf, local, used)
      invariant OnChoices(prefix, order[..k], hostOf, choices)
      invariant Follows(sizes, caps, k, used, choices)
    {
      var size := |g[order[k]]|;
      var h := FindMachine(Room(caps, used), size);
      if h < 0 {
        FollowsFails(sizes, caps, k, used, choices);
        return Err;
      }
      FollowsStep(sizes, caps, k, used, choices, h);
      GroupNodesOf(prefix, g, order, k);
      ghost var before := hostOf;
      hostOf, local, used := PlaceGroup(g[order[k]], h, hostOf, local, used, NodesOf(prefix, order[..k]));
      OnChoicesStep(prefix, g, order, k, before, choices, hostOf, h);
      choices := choices + [h];
    }
    assert order[..|order|] == order;
    FollowsEnd(sizes, caps, used, choices);
    EndsWhole(prefix, g, order, caps, hostOf, local, used, choices);
    return Ok((hostOf, local));
  }

  lemma StartEmpty(prefix: seq<nat>, hostOf: seq<nat>, local: seq<nat>, used: seq<nat>)
    requires |hostOf| == |local| == |prefix|
    ensures Slots(NodesOf(prefix, []), hostOf, local, used) && OnChoices(prefix, [], hostOf, [])
  {
  }

  /** The /24s, largest first, pack greedily onto the machines. */
  ghost predicate Packs(prefix: seq<nat>, caps: seq<nat>) {
    exists g: Groups, order: seq<nat> ::
      GroupsOf(prefix, g) && OrderOf(g, order) && Greedy(Sizes(g, order), caps).Some?
  }

  /** placeByPrefix: it succeeds exactly when the /24s pack; on failure some /24 leaves the machines crowded. */
  method PlaceByPrefix(prefix: seq<nat>, caps: seq<nat>) returns (r: Result<(seq<nat>, seq<nat>)>)
    ensures r.Ok? <==> Packs(prefix, caps)
    ensures r.Ok? ==> Whole(prefix, caps, r.value.0, r.value.1) && |prefix| <= Sum(caps)
    ensures r.Err? ==> exists p: nat :: p in prefix && TooLarge(prefix, caps, p)
  {
    hide Greedy, GroupsOf, OrderOf, OnChoices, Whole, Sum, TooLarge;
    var g := GroupNodes(prefix);
    var order := SortGroups(g);
    assert forall x :: 0 <= x < |order| ==> order[x] in g by { InGroups(g, order); }
    r := PlaceOrdered(prefix, g, order, caps);
    PacksOneWay(prefix, caps, g, order);
    SizesSum(prefix, g, order);
    if r.Err? {
      ghost var p := FailingGroup(prefix, g, order, caps);
    } else {
      SucceedsWithinRoom(Sizes(g, order), caps);
    }
  }

  /** There is one way to group and order, so one packing. */
  lemma PacksOneWay(prefix: seq<nat>, caps: seq<nat>, g: Groups, order: seq<nat>)
    requires GroupsOf(prefix, g) && OrderOf(g, order)
    ensures Packs(prefix, caps) <==> Greedy(Sizes(g, order), caps).Some?
  {
    hide Greedy, GroupsOf, OrderOf;
    InGroups(g, order);
    if Packs(prefix, caps) {
      var g', order' :| GroupsOf(prefix, g') && OrderOf(g', order') && (
        InGroups(g', order'); Greedy(Sizes(g', order'), caps).Some?);
      GroupsUnique(prefix, g, g');
      OrderUnique(g, order, order');
    }
  }

  lemma GroupsUnique(prefix: seq<nat>, g: Groups, h: Groups)
    requires GroupsOf(prefix, g) && GroupsOf(prefix, h)
    ensures g == h
  {
    assert g.Keys == h.Keys;
    forall p: nat | p in g ensures g[p] == h[p] {
      assert GroupOf(prefix, g[p], p) && GroupOf(prefix, h[p], p);
      forall i: nat ensures i in g[p] <==> i in h[p] {
        GroupHas(prefix, g, p, i);
        GroupHas(prefix, h, p, i);
      }
      IncreasingUnique(g[p], h[p]);
    }
  }

  ghost predicate Increasing(s: seq<nat>) {
    forall x, y :: 0 <= x < y < |s| ==> s[x] < s[y]
  }

  lemma FrontHas(s: seq<nat>, i: nat)
    requires Increasing(s) && s != []
    ensures i in s[..|s| - 1] <==> i in s && i != s[|s| - 1]
  {
    var m := |s| - 1;
    assert s == s[..m] + [s[m]];
    assert forall x :: 0 <= x < m ==> s[..m][x] < s[m];
  }

  lemma {:induction false} IncreasingUnique(a: seq<nat>, b: seq<nat>)
    requires Increasing(a) && Increasing(b) && forall i: nat :: i in a <==> i in b
    ensures a == b
    decreases |a|
  {
    assert b != [] ==> b[0] in b;
    if a != [] {
      var m, n := |a| - 1, |b| - 1;
      assert a[m] in a && (b != [] ==> b[n] in b);
      assert a[m] == b[n];
      forall i: nat ensures i in a[..m] <==> i in b[..n] {
        FrontHas(a, i);
        FrontHas(b, i);
      }
      IncreasingUnique(a[..m], b[..n]);
    }
  }

  lemma InGroups(g: Groups, order: seq<nat>)
    requires OrderOf(g, order)
    ensures forall x :: 0 <= x < |order| ==> order[x] in g
  {
  }

  /** Room for all nodes, and for a nearly whole group wasted on every machine but one. */
  predicate TooLarge(prefix: seq<nat>, caps: seq<nat>, p: nat) {
    Sum(caps) + |caps| <= |prefix| - Uses(prefix, p) + |caps| * Uses(prefix, p)
  }

  lemma {:induction false} CountNodes(prefix: seq<nat>, g: Groups, order: seq<nat>, k: nat)
    requires GroupsOf(prefix, g) && OrderOf(g, order) && k <= |order|
    ensures Sum(Sizes(g, order)[..k]) == |NodesOf(prefix, order[..k])|
  {
    if k > 0 {
      CountNodes(prefix, g, order, k - 1);
      CountGroup(prefix, g, order, k - 1);
    } else {
      assert NodesOf(prefix, []) == {};
    }
  }

  lemma CountGroup(prefix: seq<nat>, g: Groups, order: seq<nat>, k: nat)
    requires GroupsOf(prefix, g) && OrderOf(g, order) && k < |order|
    requires Sum(Sizes(g, order)[..k]) == |NodesOf(prefix, order[..k])|
    ensures Sum(Sizes(g, order)[..k + 1]) == |NodesOf(prefix, order[..k + 1])|
  {
    hide GroupsOf, OrderOf, NodesOf, Sum;
    assert forall x :: 0 <= x < |order| ==> order[x] in g by { InGroups(g, order); }
    var sizes, group := Sizes(g, order), g[order[k]];
    GroupNodesOf(prefix, g, order, k);
    assert sizes[..k + 1] == sizes[..k] + [sizes[k]];
    SumAppend(sizes[..k], sizes[k]);
    IncreasingCount(group);
    DisjointCount(NodesOf(prefix, order[..k]), group);
  }

  lemma {:induction false} IncreasingCount(s: seq<nat>)
    requires forall x, y :: 0 <= x < y < |s| ==> s[x] < s[y]
    ensures |Elems(s)| == |s|
  {
    if s == [] {
      assert Elems(s) == {};
    } else {
      var t, v := s[..|s| - 1], s[|s| - 1];
      IncreasingCount(t);
      assert forall x :: 0 <= x < |t| ==> t[x] < v;
      assert s == t + [v];
      ElemsAppend(t, v);
    }
  }

  lemma ElemsAppend(t: seq<nat>, v: nat)
    requires v !in t
    ensures |Elems(t + [v])| == |Elems(t)| + 1
  {
    assert Elems(t + [v]) == Elems(t) + {v};
  }

  lemma DisjointCount(s: set<nat>, group: seq<nat>)
    requires forall x :: 0 <= x < |group| ==> group[x] !in s
    ensures |s + Elems(group)| == |s| + |Elems(group)|
  {
    assert s !! Elems(group);
  }

  lemma SizesSum(prefix: seq<nat>, g: Groups, order: seq<nat>)
    requires GroupsOf(prefix, g) && OrderOf(g, order)
    ensures Sum(Sizes(g, order)) == |prefix|
  {
    hide Sum, NodesOf;
    CountNodes(prefix, g, order, |order|);
    assert order[..|order|] == order && Sizes(g, order)[..|order|] == Sizes(g, order);
    AllNodes(prefix, g, order);
  }

  lemma AllNodes(prefix: seq<nat>, g: Groups, order: seq<nat>)
    requires GroupsOf(prefix, g) && OrderOf(g, order)
    ensures NodesOf(prefix, order) == Below(|prefix|)
  {
    forall i: nat | i < |prefix| ensures prefix[i] in order {
      assert prefix[i] in g;
    }
  }

  lemma {:induction false} UsesCount(prefix: seq<nat>, p: nat)
    ensures Uses(prefix, p) == |NodesOf(prefix, [p])|
  {
    if prefix == [] {
      assert NodesOf(prefix, [p]) == {};
    } else {
      hide Uses, NodesOf;
      var m: nat := |prefix| - 1;
      var t := prefix[..m];
      UsesCount(t, p);
      assert prefix == t + [prefix[m]];
      UsesAppend(t, prefix[m], p);
      NodesAppend(t, prefix[m], p);
    }
  }

  lemma NodesAppend(prefix: seq<nat>, q: nat, p: nat)
    ensures |NodesOf(prefix + [q], [p])| == |NodesOf(prefix, [p])| + if q == p then 1 else 0
  {
    var m: nat := |prefix|;
    assert NodesOf(prefix + [q], [p]) == NodesOf(prefix, [p]) + if q == p then {m} else {};
    assert m !in NodesOf(prefix, [p]);
  }

  lemma GroupSize(prefix: seq<nat>, g: Groups, p: nat)
    requires GroupsOf(prefix, g) && p in g
    ensures |g[p]| == Uses(prefix, p)
  {
    hide Uses;
    assert GroupOf(prefix, g[p], p);
    IncreasingCount(g[p]);
    UsesCount(prefix, p);
    forall i: nat ensures i in g[p] <==> i in NodesOf(prefix, [p]) { GroupHas(prefix, g, p, i); }
    assert Elems(g[p]) == NodesOf(prefix, [p]);
  }

  lemma FailingGroup(prefix: seq<nat>, g: Groups, order: seq<nat>, caps: seq<nat>) returns (p: nat)
    requires GroupsOf(prefix, g) && OrderOf(g, order) && Greedy(Sizes(g, order), caps).None?
    ensures p in prefix && TooLarge(prefix, caps, p)
  {
    hide Sum, Uses, Greedy;
    var sizes := Sizes(g, order);
    FailsOnlyCrowded(sizes, caps);
    SizesSum(prefix, g, order);
    var s: nat :| s in sizes && Crowded(sizes, caps, s);
    var x :| 0 <= x < |sizes| && sizes[x] == s;
    p := order[x];
    GroupSize(prefix, g, p);
  }

  // ----------------------------------------------- where the packing is not complete

  /** Three /24s, of three, two and two nodes. */
  const THREE_GROUPS: seq<nat> := [1, 1, 1, 2, 2, 3, 3]

  lemma GreedyFails()
    ensures Greedy([3, 2, 2], [3, 4]).None?
  {
    assert WidestFrom([3, 4], 0, 1) == 1;
    assert [3, 4][1 := 1] == [3, 1] && [3, 2, 2][1..] == [2, 2];
    assert WidestFrom([3, 1], 0, 1) == 0;
    assert [3, 1][0 := 1] == [1, 1] && [2, 2][1..] == [2];
  }

  lemma ThreeKeys(g: Groups)
    requires GroupsOf(THREE_GROUPS, g)
    ensures g.Keys == {1, 2, 3}
  {
    forall p: nat ensures p in g <==> p in {1, 2, 3} {
      assert p in THREE_GROUPS <==> p in {1, 2, 3};
    }
  }

  lemma ThreeSizes(g: Groups)
    requires GroupsOf(THREE_GROUPS, g)
    ensures g.Keys == {1, 2, 3} && |g[1]| == 3 && |g[2]| == 2 && |g[3]| == 2
  {
    hide GroupsOf, Uses;
    ThreeKeys(g);
    ThreeUses();
    GroupSize(THREE_GROUPS, g, 1);
    GroupSize(THREE_GROUPS, g, 2);
    GroupSize(THREE_GROUPS, g, 3);
  }

  lemma ThreeUses()
    ensures Uses(THREE_GROUPS, 1) == 3 && Uses(THREE_GROUPS, 2) == 2 && Uses(THREE_GROUPS, 3) == 2
  {
    assert multiset(THREE_GROUPS) == multiset{1, 1, 1, 2, 2, 3, 3};
  }

  lemma ThreeInOrder(g: Groups, order: seq<nat>)
    requires g.Keys == {1, 2, 3} && |g[1]| == 3 && |g[2]| == 2 && |g[3]| == 2 && OrderOf(g, order)
    ensures order == [1, 2, 3]
  {
    assert OrderOf(g, [1, 2, 3]);
    OrderUnique(g, order, [1, 2, 3]);
  }

  /** Nodes 0 to 2 on the first machine, 3 to 6 on the second. */
  lemma TwoBlocks(prefix: seq<nat>, hostOf: seq<nat>, local: seq<nat>)
    requires |prefix| == |hostOf| == |local| == 7
    requires forall i :: 0 <= i < 7 ==> prefix[i] == if i < 3 then 1 else if i < 5 then 2 else 3
    requires forall i :: 0 <= i < 7 ==> hostOf[i] == if i < 3 then 0 else 1
    requires forall i :: 0 <= i < 7 ==> local[i] == if i < 3 then i else i - 3
    ensures Whole(prefix, [3, 4], hostOf, local)
  {
  }

  lemma OtherPacking()
    ensures Whole(THREE_GROUPS, [3, 4], [0, 0, 0, 1, 1, 1, 1], [0, 1, 2, 0, 1, 2, 3])
  {
    hide Whole;
    TwoBlocks(THREE_GROUPS, [0, 0, 0, 1, 1, 1, 1], [0, 1, 2, 0, 1, 2, 3]);
  }

  lemma ThreeFail(g: Groups, order: seq<nat>)
    requires GroupsOf(THREE_GROUPS, g) && OrderOf(g, order)
    ensures Greedy(Sizes(g, order), [3, 4]).None?
  {
    ThreeSizes(g);
    ThreeInOrder(g, order);
    hide Greedy, GroupsOf, OrderOf;
    assert Sizes(g, order) == [3, 2, 2];
    GreedyFails();
  }

  /** Room for every /24 whole is not enough: on machines of 3 and 4 slots the first /24 fits the first machine
      and the other two the second, and placeByPrefix, which puts the largest on the roomiest, fails. */
  lemma PackingIsNotComplete()
    ensures Whole(THREE_GROUPS, [3, 4], [0, 0, 0, 1, 1, 1, 1], [0, 1, 2, 0, 1, 2, 3])
    ensures !Packs(THREE_GROUPS, [3, 4])
  {
    OtherPacking();
    hide Whole, Greedy, GroupsOf, OrderOf;
    forall g: Groups, order: seq<nat> | GroupsOf(THREE_GROUPS, g) && OrderOf(g, order)
      ensures (InGroups(g, order); Greedy(Sizes(g, order), [3, 4]).None?)
    {
      ThreeFail(g, order);
    }
  }

  // -------------------------------------------------------------------------- routes

  /** A /24 and the machine that owns it. */
  datatype Route = Route(net: Ip, via: Ip)

  /** addr.CIDR: the network address. */
  function Cidr(prefix: nat): Ip {
    Address(prefix, 0)
  }

  predicate Covers(r: Route, ip: Ip) {
    r.net == ip.(d := 0)
  }

  /** Machine `h` routes the /24s `ps`, one each, to their owners. */
  ghost predicate RoutesTo(owner: map<nat, nat>, hostIp: seq<Ip>, ps: seq<nat>, routes: seq<Route>) {
    && |routes| == |ps|
    && (forall x :: 0 <= x < |ps| ==> ps[x] in owner && owner[ps[x]] < |hostIp|)
    && (forall x :: 0 <= x < |ps| ==> routes[x] == Route(Cidr(ps[x]), hostIp[owner[ps[x]]]))
    && (forall x, y :: 0 <= x < y < |ps| ==> ps[x] != ps[y])
  }

  /** Those /24s are the ones owned elsewhere. */
  ghost predicate RoutesAway(owner: map<nat, nat>, hostIp: seq<Ip>, h: nat, routes: seq<Route>) {
    exists ps :: RoutesTo(owner, hostIp, ps, routes) && OwnedElsewhere(owner, h, ps)
  }

  ghost predicate OwnedElsewhere(owner: map<nat, nat>, h: nat, ps: seq<nat>) {
    forall p :: p in ps <==> p in owner && owner[p] != h
  }

  method OwnerOf(prefix: seq<nat>, hostOf: seq<nat>) returns (owner: map<nat, nat>)
    requires |hostOf| == |prefix|
    requires forall i: nat, j: nat :: i < |prefix| && j < |prefix| && prefix[i] == prefix[j] ==> hostOf[i] == hostOf[j]
    ensures forall p :: p in owner <==> p in prefix
    ensures forall i: nat :: i < |prefix| ==> owner[prefix[i]] == hostOf[i]
  {
    var g := GroupNodes(prefix);
    owner := map[];
    var rest := g.Keys;
    while rest != {}
      invariant rest <= g.Keys && forall p :: p in g <==> p in rest || p in owner
      invariant forall p :: p in rest ==> p !in owner
      invariant forall i: nat :: i < |prefix| && prefix[i] in owner ==> owner[prefix[i]] == hostOf[i]
    {
      var p :| p in rest;
      assert p in prefix;
      var i: nat := FirstOf(prefix, g, p);
      owner := owner[p := hostOf[i]];
      rest := rest - {p};
    }
  }

  /** A group's first node. */
  method FirstOf(prefix: seq<nat>, g: Groups, p: nat) returns (i: nat)
    requires GroupsOf(prefix, g) && p in g
    ensures i < |prefix| && prefix[i] == p
  {
    var k: nat :| k < |prefix| && prefix[k] == p;
    assert k in g[p];
    i := g[p][0];
    assert i in g[p];
  }

  method RoutesOf(owner: map<nat, nat>, hostIp: seq<Ip>, h: nat) returns (routes: seq<Route>)
    requires forall p :: p in owner ==> owner[p] < |hostIp|
    ensures RoutesAway(owner, hostIp, h, routes)
  {
    hide Address;
    ghost var ps: seq<nat> := [];
    routes := [];
    var rest := owner.Keys;
    while rest != {}
      invariant rest <= owner.Keys && RoutesTo(owner, hostIp, ps, routes)
      invariant forall p :: p in ps <==> p in owner && p !in rest && owner[p] != h
    {
      var p :| p in rest;
      if owner[p] != h {
        routes, ps := routes + [Route(Cidr(p), hostIp[owner[p]])], ps + [p];
      }
      rest := rest - {p};
    }
    assert OwnedElsewhere(owner, h, ps);
  }

  /** Exactly one route covers the address, and it goes via `via`. */
  ghost predicate OneRoute(routes: seq<Route>, ip: Ip, via: Ip) {
    && (exists x :: 0 <= x < |routes| && Covers(routes[x], ip))
    && (forall x :: 0 <= x < |routes| && Covers(routes[x], ip) ==> routes[x].via == via)
    && (forall x, y :: 0 <= x < y < |routes| ==> !(Covers(routes[x], ip) && Covers(routes[y], ip)))
  }

  ghost predicate NoRoute(routes: seq<Route>, ip: Ip) {
    forall x :: 0 <= x < |routes| ==> !Covers(routes[x], ip)
  }

  /** Machine `h` reaches a node elsewhere by its one route, and its own nodes by none. */
  ghost predicate Reaches(pool: Pool, hostOf: seq<nat>, hostIp: seq<Ip>, h: nat, routes: seq<Route>, i: nat)
    requires i < |pool.ip| && i < |hostOf| && hostOf[i] < |hostIp|
  {
    if hostOf[i] != h then OneRoute(routes, pool.ip[i], hostIp[hostOf[i]]) else NoRoute(routes, pool.ip[i])
  }

  lemma CoversOwn(p: nat, h: nat, q: nat, via: Ip)
    requires h < 0x100
    ensures Covers(Route(Cidr(q), via), Address(p, h)) <==> Same24(p, q)
  {
    SameAddress(p, h, q, 0);
  }

  lemma ReachesBy(pool: Pool, n: nat, hostOf: seq<nat>, hostIp: seq<Ip>, owner: map<nat, nat>, h: nat, ps: seq<nat>,
                  routes: seq<Route>, i: nat)
    requires Drawn(pool, n) && |hostOf| == n && i < n && hostOf[i] < |hostIp|
    requires Separate(owner.Keys)
    requires pool.prefix[i] in owner && owner[pool.prefix[i]] == hostOf[i]
    requires RoutesTo(owner, hostIp, ps, routes) && OwnedElsewhere(owner, h, ps)
    ensures Reaches(pool, hostOf, hostIp, h, routes, i)
  {
    hide Address, Turn, Covers, Cidr;
    var p := pool.prefix[i];
    forall x | 0 <= x < |routes| ensures Covers(routes[x], pool.ip[i]) <==> ps[x] == p {
      assert ps[x] in ps;
      CoversOwn(p, Turn(pool.prefix, i), ps[x], hostIp[owner[ps[x]]]);
    }
    if hostOf[i] != h {
      assert p in ps;
      var x :| 0 <= x < |ps| && ps[x] == p;
      assert Covers(routes[x], pool.ip[i]);
    }
  }

  lemma ReachesOne(pool: Pool, n: nat, hostOf: seq<nat>, hostIp: seq<Ip>, owner: map<nat, nat>, h: nat,
                   routes: seq<Route>, i: nat)
    requires Drawn(pool, n) && |hostOf| == n && i < n && hostOf[i] < |hostIp|
    requires Separate(owner.Keys)
    requires pool.prefix[i] in owner && owner[pool.prefix[i]] == hostOf[i]
    requires RoutesAway(owner, hostIp, h, routes)
    ensures Reaches(pool, hostOf, hostIp, h, routes, i)
  {
    hide Reaches, RoutesTo, OwnedElsewhere, Turn, Address;
    var ps :| RoutesTo(owner, hostIp, ps, routes) && OwnedElsewhere(owner, h, ps);
    ReachesBy(pool, n, hostOf, hostIp, owner, h, ps, routes, i);
  }

  /** Full reachability between machines, and nothing sent away from home. */
  ghost predicate AllReach(pool: Pool, hostOf: seq<nat>, hostIp: seq<Ip>, out: seq<seq<Route>>)
    requires |pool.ip| == |hostOf| && |out| == |hostIp| && forall i: nat :: i < |hostOf| ==> hostOf[i] < |hostIp|
  {
    forall h: nat, i: nat :: h < |hostIp| && i < |hostOf| ==> Reaches(pool, hostOf, hostIp, h, out[h], i)
  }

  /** Two machines or more tell prefixes that render alike apart. */
  ghost predicate Tellable(prefix: seq<nat>, hosts: nat) {
    Separate(Elems(prefix)) || hosts < 2
  }

  /** The table of owners, and each machine's routes made from it. */
  ghost predicate Routed(pool: Pool, hostOf: seq<nat>, hostIp: seq<Ip>, owner: map<nat, nat>, out: seq<seq<Route>>) {
    && Drawn(pool, |hostOf|) && |out| == |hostIp| && owner.Keys == Elems(pool.prefix)
    && (forall i: nat :: i < |hostOf| ==> hostOf[i] < |hostIp| && owner[pool.prefix[i]] == hostOf[i])
    && (forall h: nat :: h < |hostIp| ==> RoutesAway(owner, hostIp, h, out[h]))
  }

  lemma OwnerHas(pool: Pool, hostOf: seq<nat>, hostIp: seq<Ip>, owner: map<nat, nat>, out: seq<seq<Route>>, i: nat)
    requires Routed(pool, hostOf, hostIp, owner, out) && i < |hostOf|
    ensures pool.prefix[i] in owner && owner[pool.prefix[i]] == hostOf[i] < |hostIp| && |pool.prefix| == |hostOf|
  {
    assert pool.prefix[i] in Elems(pool.prefix);
  }

  lemma SeparateReaches(pool: Pool, hostOf: seq<nat>, hostIp: seq<Ip>, owner: map<nat, nat>, out: seq<seq<Route>>)
    requires Routed(pool, hostOf, hostIp, owner, out) && Separate(Elems(pool.prefix))
    ensures AllReach(pool, hostOf, hostIp, out)
  {
    assert |pool.ip| == |hostOf|;
    hide Reaches, RoutesAway, Drawn, Separate;
    forall h: nat, i: nat | h < |hostIp| && i < |hostOf| ensures Reaches(pool, hostOf, hostIp, h, out[h], i) {
      OwnerHas(pool, hostOf, hostIp, owner, out, i);
      ReachesOne(pool, |hostOf|, hostOf, hostIp, owner, h, out[h], i);
    }
  }

  /** One machine needs no routes, and has none. */
  lemma AloneReaches(pool: Pool, hostOf: seq<nat>, hostIp: seq<Ip>, owner: map<nat, nat>, out: seq<seq<Route>>)
    requires Routed(pool, hostOf, hostIp, owner, out) && |hostIp| < 2
    ensures AllReach(pool, hostOf, hostIp, out)
  {
    assert |pool.ip| == |hostOf|;
    hide Drawn, RoutesAway;
    forall h: nat, i: nat | h < |hostIp| && i < |hostOf| ensures Reaches(pool, hostOf, hostIp, h, out[h], i) {
      AloneHasNone(owner, hostIp, h, out[h], pool.ip[i]);
    }
  }

  lemma AloneHasNone(owner: map<nat, nat>, hostIp: seq<Ip>, h: nat, routes: seq<Route>, ip: Ip)
    requires RoutesAway(owner, hostIp, h, routes) && h < |hostIp| < 2
    ensures NoRoute(routes, ip)
  {
    hide Cidr;
    var ps :| RoutesTo(owner, hostIp, ps, routes) && OwnedElsewhere(owner, h, ps);
    assert forall x :: 0 <= x < |ps| ==> ps[x] in ps;
  }

  /** A /24 owned elsewhere has a route, which covers every node that renders like it. */
  lemma RouteCovers(pool: Pool, hostOf: seq<nat>, hostIp: seq<Ip>, owner: map<nat, nat>, out: seq<seq<Route>>,
                    h: nat, i: nat, q: nat) returns (x: nat)
    requires Routed(pool, hostOf, hostIp, owner, out) && h < |hostIp| && i < |hostOf| && |pool.prefix| == |hostOf|
    requires q in owner && owner[q] != h && Same24(pool.prefix[i], q)
    ensures x < |out[h]| && Covers(out[h][x], pool.ip[i]) && out[h][x].net == Cidr(q)
    ensures exists ps :: RoutesTo(owner, hostIp, ps, out[h]) && x < |ps| && ps[x] == q
  {
    hide Address, Turn, Covers, Cidr, Same24;
    var ps :| RoutesTo(owner, hostIp, ps, out[h]) && OwnedElsewhere(owner, h, ps);
    assert q in ps;
    x :| 0 <= x < |ps| && ps[x] == q;
    CoversOwn(pool.prefix[i], Turn(pool.prefix, i), q, hostIp[owner[q]]);
  }

  /** Prefixes that render alike defeat the routes: where their owners differ the first one's machine has
      a route away for its own node, and where they agree another machine has two routes to it. */
  lemma AlikeMisroutes(pool: Pool, hostOf: seq<nat>, hostIp: seq<Ip>, owner: map<nat, nat>, out: seq<seq<Route>>,
                       i: nat, j: nat)
    requires Routed(pool, hostOf, hostIp, owner, out) && |hostIp| >= 2 && i < |hostOf| && j < |hostOf|
    requires |pool.prefix| == |hostOf| && pool.prefix[i] != pool.prefix[j] && Same24(pool.prefix[i], pool.prefix[j])
    ensures !AllReach(pool, hostOf, hostIp, out)
  {
    OwnerHas(pool, hostOf, hostIp, owner, out, i);
    OwnerHas(pool, hostOf, hostIp, owner, out, j);
    if hostOf[i] != hostOf[j] {
      var x := RouteCovers(pool, hostOf, hostIp, owner, out, hostOf[i], i, pool.prefix[j]);
      hide Routed, Covers;
      assert !Reaches(pool, hostOf, hostIp, hostOf[i], out[hostOf[i]], i);
    } else {
      var h: nat := if hostOf[i] == 0 then 1 else 0;
      TwoRoutes(pool, hostOf, hostIp, owner, out, h, i, pool.prefix[j]);
      hide Routed, OneRoute;
      assert !Reaches(pool, hostOf, hostIp, h, out[h], i);
    }
  }

  lemma TwoRoutes(pool: Pool, hostOf: seq<nat>, hostIp: seq<Ip>, owner: map<nat, nat>, out: seq<seq<Route>>,
                  h: nat, i: nat, q: nat)
    requires Routed(pool, hostOf, hostIp, owner, out) && h < |hostIp| && i < |hostOf| && |pool.prefix| == |hostOf|
    requires pool.prefix[i] in owner && owner[pool.prefix[i]] != h && q in owner && owner[q] != h
    requires pool.prefix[i] != q && Same24(pool.prefix[i], q)
    ensures !OneRoute(out[h], pool.ip[i], hostIp[hostOf[i]])
  {
    hide Address, Turn, Covers, Cidr;
    var p := pool.prefix[i];
    var ps :| RoutesTo(owner, hostIp, ps, out[h]) && OwnedElsewhere(owner, h, ps);
    assert p in ps && q in ps;
    var x :| 0 <= x < |ps| && ps[x] == p;
    var y :| 0 <= y < |ps| && ps[y] == q;
    CoversOwn(p, Turn(pool.prefix, i), p, hostIp[owner[p]]);
    CoversOwn(p, Turn(pool.prefix, i), q, hostIp[owner[q]]);
    assert Covers(out[h][x], pool.ip[i]) && Covers(out[h][y], pool.ip[i]);
  }

  /** The routes reach everything exactly when no two of the prefixes render alike, or there is but one machine. */
  lemma ReachExactly(pool: Pool, hostOf: seq<nat>, hostIp: seq<Ip>, owner: map<nat, nat>, out: seq<seq<Route>>)
    requires Routed(pool, hostOf, hostIp, owner, out)
    ensures AllReach(pool, hostOf, hostIp, out) <==> Tellable(pool.prefix, |hostIp|)
  {
    if |hostIp| < 2 {
      AloneReaches(pool, hostOf, hostIp, owner, out);
    } else if Separate(Elems(pool.prefix)) {
      SeparateReaches(pool, hostOf, hostIp, owner, out);
    } else {
      hide Reaches, RoutesAway, Same24;
      var p, q :| p in Elems(pool.prefix) && q in Elems(pool.prefix) && p != q && Same24(p, q);
      var i: nat :| i < |pool.prefix| && pool.prefix[i] == p;
      var j: nat :| j < |pool.prefix| && pool.prefix[j] == q;
      AlikeMisroutes(pool, hostOf, hostIp, owner, out, i, j);
    }
  }

  /** prefixRoutes, after a placement that keeps each /24 on one machine. */
  method PrefixRoutes(pool: Pool, hostOf: seq<nat>, hostIp: seq<Ip>) returns (out: seq<seq<Route>>)
    requires Drawn(pool, |hostOf|) && (forall i: nat :: i < |hostOf| ==> hostOf[i] < |hostIp|)
    requires forall i: nat, j: nat :: i < |hostOf| && j < |hostOf| && pool.prefix[i] == pool.prefix[j] ==>
               hostOf[i] == hostOf[j]
    ensures |out| == |hostIp|
    ensures AllReach(pool, hostOf, hostIp, out) <==> Tellable(pool.prefix, |hostIp|)
  {
    hide Reaches, RoutesAway, Turn, Address;
    var owner := OwnerOf(pool.prefix, hostOf);
    forall p | p in owner ensures owner[p] < |hostIp| {
      assert p in pool.prefix;
    }
    out := [];
    for h := 0 to |hostIp|
      invariant |out| == h && forall k: nat :: k < h ==> RoutesAway(owner, hostIp, k, out[k])
    {
      var routes := RoutesOf(owner, hostIp, h);
      out := out + [routes];
    }
    assert owner.Keys == Elems(pool.prefix);
    ReachExactly(pool, hostOf, hostIp, owner, out);
  }

  /** Draw, place and route: unless two drawn prefixes render alike, every node is reachable from every other
      machine over exactly one route, via its own machine. */
  method DrawPlaceRoute(n: nat, draws: (nat, nat) -> nat, caps: seq<nat>, hostIp: seq<Ip>)
    returns (r: Result<(Pool, (seq<nat>, seq<nat>), seq<seq<Route>>)>)
    requires |hostIp| == |caps|
    ensures r.Err? <==> StuckDraw(n, draws) || Unpackable(n, draws, caps)
    ensures r.Ok? ==> (
      var pool, place, routes := r.value.0, r.value.1, r.value.2;
      Drawn(pool, n) && DrawnFrom(pool.prefix, draws) && Whole(pool.prefix, caps, place.0, place.1)
      && |routes| == |caps| && (AllReach(pool, place.0, hostIp, routes) <==> Tellable(pool.prefix, |caps|)))
  {
    hide Reaches, Turn, Address, Uses, AllReach, Tellable, DrawnFrom, Packs, Stuck;
    var drawn := Draw(n, draws);
    if drawn.Err? {
      return Err;
    }
    var pool := drawn.value;
    DrawnOnce(pool.prefix, draws);
    var place :- PlaceByPrefix(pool.prefix, caps);
    var routes := PrefixRoutes(pool, place.0, hostIp);
    return Ok((pool, place, routes));
  }

  /** Some node has no draw to take. */
  ghost predicate StuckDraw(n: nat, draws: (nat, nat) -> nat) {
    exists prefix: seq<nat> :: |prefix| < n && DrawnFrom(prefix, draws) && Stuck(prefix, draws)
  }

  /** The prefixes drawn do not pack. */
  ghost predicate Unpackable(n: nat, draws: (nat, nat) -> nat, caps: seq<nat>) {
    exists prefix: seq<nat> :: |prefix| == n && DrawnFrom(prefix, draws) && !Packs(prefix, caps)
  }

  lemma DrawnOnce(prefix: seq<nat>, draws: (nat, nat) -> nat)
    requires DrawnFrom(prefix, draws)
    ensures forall other: seq<nat> :: |other| == |prefix| && DrawnFrom(other, draws) ==> other == prefix
  {
    hide DrawnFrom;
    forall other: seq<nat> | |other| == |prefix| && DrawnFrom(other, draws) ensures other == prefix {
      DrawnUnique(draws, prefix, other, |prefix|);
      assert prefix[..|prefix|] == prefix && other[..|prefix|] == other;
    }
  }
}
