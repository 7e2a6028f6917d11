/** place of pkg/coordinator/cloud.go without an address pool: nodes onto machine slots,
    pinned nodes in their region, the rest in inventory order, the home region first. */
module Placement {
  import opened Wrappers
  import opened Collections

  /** A machine of the inventory: its region and how many nodes it takes. */
  datatype Host = Host(region: string, nodes: nat)

  datatype Slot = Slot(host: nat, k: nat)

  // ---------------------------------------------------------------- what there is

  predicate IsSlot(hosts: seq<Host>, s: Slot) {
    s.host < |hosts| && s.k < hosts[s.host].nodes
  }

  function SlotsOf(hosts: seq<Host>): set<Slot> {
    set h: nat, k: nat | h < |hosts| && k < hosts[h].nodes :: Slot(h, k)
  }

  function SlotsIn(hosts: seq<Host>, region: string): set<Slot> {
    set s | s in SlotsOf(hosts) && s.host < |hosts| && hosts[s.host].region == region
  }

  /** The pins that apply: those of nodes in range, and the bootnode's default home pin when
      the inventory has regions. */
  function Pins(nodeRegions: map<int, string>, n: nat, hosts: seq<Host>, home: string): map<nat, string>
    requires |hosts| > 0
  {
    var given := map i: int | i in nodeRegions && 0 <= i < n :: i as nat := nodeRegions[i];
    if 0 !in given && hosts[0].region != "" then given[0 := home] else given
  }

  function PinnedTo(pins: map<nat, string>, region: string): set<nat> {
    set i | i in pins && pins[i] == region
  }

  /** Each region's pins fit its slots, and all nodes fit the total. */
  ghost predicate Fits(pins: map<nat, string>, n: nat, hosts: seq<Host>) {
    (forall r: string :: |PinnedTo(pins, r)| <= |SlotsIn(hosts, r)|) && n <= |SlotsOf(hosts)|
  }

  // ------------------------------------------------------------- counting by maps

  ghost predicate Injective(m: map<nat, Slot>) {
    forall i, j :: i in m && j in m && m[i] == m[j] ==> i == j
  }

  /** Distinct nodes on distinct slots of a set are no more than the set. */
  lemma {:induction false} NodesAtMostSlots(m: map<nat, Slot>, nodes: set<nat>, slots: set<Slot>)
    requires Injective(m) && nodes <= m.Keys && (forall i :: i in nodes ==> m[i] in slots)
    ensures |nodes| <= |slots|
    decreases |nodes|
  {
    if nodes != {} {
      var i :| i in nodes;
      NodesAtMostSlots(m, nodes - {i}, slots - {m[i]});
    }
  }

  /** Slots all taken are no more than the nodes that took them. */
  lemma {:induction false} SlotsAtMostNodes(m: map<nat, Slot>, slots: set<Slot>, nodes: set<nat>)
    requires slots <= m.Values && (forall i :: i in m && m[i] in slots ==> i in nodes)
    ensures |slots| <= |nodes|
    decreases |slots|
  {
    if slots != {} {
      var s :| s in slots;
      var i :| i in m && m[i] == s;
      SlotsAtMostNodes(m, slots - {s}, nodes - {i});
    }
  }

  // ------------------------------------------------------------------ free slots

  type Free = map<string, seq<Slot>>

  /** Reading a Go map: a missing region has no slots. */
  function Listed(free: Free, r: string): seq<Slot> {
    if r in free then free[r] else []
  }

  predicate SlotBefore(s: Slot, t: Slot) {
    s.host < t.host || (s.host == t.host && s.k < t.k)
  }

  ghost predicate Ordered(q: seq<Slot>) {
    forall i, j :: 0 <= i < j < |q| ==> SlotBefore(q[i], q[j])
  }

  /** Each region lists, once each and in order, its slots that are not taken. */
  ghost predicate FreeOk(hosts: seq<Host>, free: Free, taken: set<Slot>) {
    && (forall r: string :: Ordered(Listed(free, r)))
    && (forall r: string, s: Slot :: s in Listed(free, r) <==>
          IsSlot(hosts, s) && hosts[s.host].region == r && s !in taken)
  }

  /** The first machine of a region. */
  function FirstHost(hosts: seq<Host>, r: string): (h: nat)
    ensures h <= |hosts| && (h < |hosts| ==> hosts[h].region == r)
    ensures forall i :: 0 <= i < h ==> hosts[i].region != r
  {
    if hosts == [] || hosts[0].region == r then 0 else FirstHost(hosts[1..], r) + 1
  }

  /** The regions' order: home, then as they come in the inventory. */
  function Rank(hosts: seq<Host>, home: string, r: string): int {
    if r == home then -1 else FirstHost(hosts, r)
  }

  /** A region noted comes before those of a higher rank. */
  ghost predicate Ranked(hosts: seq<Host>, order: seq<string>) {
    forall x: nat, r :: x < |order| && r in order && FirstHost(hosts, r) < FirstHost(hosts, order[x]) ==>
      r in order[..x]
  }

  ghost predicate HomeRanked(hosts: seq<Host>, home: string, order: seq<string>) {
    forall x: nat, r :: x < |order| && r in order && Rank(hosts, home, r) < Rank(hosts, home, order[x]) ==>
      r in order[..x]
  }

  /** The regions of the first `h` machines are noted, and no others. */
  ghost predicate Noted(hosts: seq<Host>, order: seq<string>, h: nat) {
    && Ranked(hosts, order) && (forall i :: 0 <= i < h && i < |hosts| ==> hosts[i].region in order)
    && (forall r :: r in order ==> FirstHost(hosts, r) < h)
  }

  lemma NoteOne(hosts: seq<Host>, order: seq<string>, h: nat)
    requires Noted(hosts, order, h) && h < |hosts|
    ensures Noted(hosts, order + [hosts[h].region], h + 1)
    ensures hosts[h].region in order ==> Noted(hosts, order, h + 1)
  {
    var region := hosts[h].region;
    var order' := order + [region];
    forall x: nat, r | x < |order'| && r in order' && FirstHost(hosts, r) < FirstHost(hosts, order'[x])
      ensures r in order'[..x]
    {
      if x < |order| {
        assert order'[..x] == order[..x] && order'[x] in order;
        assert region !in order ==> FirstHost(hosts, region) >= h;
        assert r in order;
      } else {
        assert order'[..x] == order;
      }
    }
  }

  /** Slot (h, k) and those before it have been listed, and their regions noted. */
  ghost predicate Building(hosts: seq<Host>, free: Free, order: seq<string>, h: nat, k: nat) {
    && (forall r: string :: Ordered(Listed(free, r)))
    && (forall r: string, s: Slot :: s in Listed(free, r) <==>
          IsSlot(hosts, s) && hosts[s.host].region == r && (s.host < h || (s.host == h && s.k < k)))
    && (forall r :: r in free ==> r in order)
  }

  /** The first loop of place. */
  method ListFree(hosts: seq<Host>) returns (free: Free, order: seq<string>)
    ensures FreeOk(hosts, free, {}) && (forall r :: r in free ==> r in order) && Ranked(hosts, order)
  {
    free, order := map[], [];
    assert Building(hosts, free, order, 0, 0);
    hide Building, FreeOk, Ranked;
    for h := 0 to |hosts|
      invariant Building(hosts, free, order, h, 0) && Noted(hosts, order, h)
    {
      var region := hosts[h].region;
      NoteRegion(hosts, free, order, h, region);
      NoteOne(hosts, order, h);
      if region !in free {
        order := order + [region];
      }
      for k := 0 to hosts[h].nodes
        invariant region in order && Building(hosts, free, order, h, k) && Noted(hosts, order, h + 1)
      {
        ListOne(hosts, free, order, h, k);
        free := free[region := Listed(free, region) + [Slot(h, k)]];
      }
      NextHost(hosts, free, order, h);
    }
    AllListed(hosts, free, order);
  }

  lemma NoteRegion(hosts: seq<Host>, free: Free, order: seq<string>, h: nat, region: string)
    requires Building(hosts, free, order, h, 0)
    ensures region in free ==> region in order
    ensures Building(hosts, free, order + [region], h, 0)
  {
  }

  lemma NextHost(hosts: seq<Host>, free: Free, order: seq<string>, h: nat)
    requires h < |hosts| && Building(hosts, free, order, h, hosts[h].nodes)
    ensures Building(hosts, free, order, h + 1, 0)
  {
    forall r: string, s: Slot
      ensures s in Listed(free, r) <==>
                IsSlot(hosts, s) && hosts[s.host].region == r && (s.host < h + 1 || (s.host == h + 1 && s.k < 0))
    {
      assert s in Listed(free, r) <==>
        IsSlot(hosts, s) && hosts[s.host].region == r && (s.host < h || (s.host == h && s.k < hosts[h].nodes));
    }
  }

  lemma AllListed(hosts: seq<Host>, free: Free, order: seq<string>)
    requires Building(hosts, free, order, |hosts|, 0)
    ensures FreeOk(hosts, free, {}) && (forall r :: r in free ==> r in order)
  {
  }

  lemma ListOne(hosts: seq<Host>, free: Free, order: seq<string>, h: nat, k: nat)
    requires h < |hosts| && k < hosts[h].nodes && Building(hosts, free, order, h, k) && hosts[h].region in order
    ensures Building(hosts, free[hosts[h].region := Listed(free, hosts[h].region) + [Slot(h, k)]], order, h, k + 1)
  {
    var region := hosts[h].region;
    var free' := free[region := Listed(free, region) + [Slot(h, k)]];
    forall r: string ensures Ordered(Listed(free', r)) {
      assert Ordered(Listed(free, r));
    }
    forall r: string, s: Slot
      ensures s in Listed(free', r) <==>
                IsSlot(hosts, s) && hosts[s.host].region == r && (s.host < h || (s.host == h && s.k < k + 1))
    {
      assert s in Listed(free', r) <==> s in Listed(free, r) || (r == region && s == Slot(h, k));
    }
  }

  /** Taking a region's first slot. */
  lemma TakeFirst(hosts: seq<Host>, free: Free, taken: set<Slot>, r: string)
    requires FreeOk(hosts, free, taken) && Listed(free, r) != []
    ensures var q := Listed(free, r);
            && FreeOk(hosts, free[r := q[1..]], taken + {q[0]})
            && IsSlot(hosts, q[0]) && hosts[q[0].host].region == r && q[0] !in taken
  {
    hide Listed, SlotBefore, Ordered;
    var q := Listed(free, r);
    var free' := free[r := q[1..]];
    TailsOrdered(free, r, free');
    forall r': string, s: Slot
      ensures s in Listed(free', r') <==> IsSlot(hosts, s) && hosts[s.host].region == r' && s !in taken + {q[0]}
    {
      StillListed(hosts, free, taken, r, r', s);
    }
    assert q[0] in q;
  }

  lemma TailsOrdered(free: Free, r: string, free': Free)
    requires (forall r': string :: Ordered(Listed(free, r'))) && Listed(free, r) != []
    requires free' == free[r := Listed(free, r)[1..]]
    ensures forall r': string :: Ordered(Listed(free', r'))
  {
    FirstIsFirst(Listed(free, r));
    hide Ordered;
    forall r': string ensures Ordered(Listed(free', r')) {
      assert Ordered(Listed(free, r'));
    }
  }

  lemma StillListed(hosts: seq<Host>, free: Free, taken: set<Slot>, r: string, r': string, s: Slot)
    requires FreeOk(hosts, free, taken) && Listed(free, r) != []
    ensures var q := Listed(free, r);
            s in Listed(free[r := q[1..]], r') <==>
              IsSlot(hosts, s) && hosts[s.host].region == r' && s !in taken + {q[0]}
  {
    var q := Listed(free, r);
    assert Ordered(q) && q[0] in q;
    FirstIsFirst(q);
    hide SlotBefore, Ordered;
    assert s in q <==> s == q[0] || s in q[1..];
    assert s in Listed(free, r') <==> IsSlot(hosts, s) && hosts[s.host].region == r' && s !in taken;
  }

  // ----------------------------------------------------------------- the placement

  /** Nodes placed so far, as a map; the two result slices agree with it. */
  ghost predicate Placed(hosts: seq<Host>, n: nat, hostOf: seq<nat>, local: seq<nat>, m: map<nat, Slot>) {
    && |hostOf| == n && |local| == n && Injective(m)
    && (forall i :: i in m ==> i < n && m[i] == Slot(hostOf[i], local[i]) && IsSlot(hosts, m[i]))
  }

  lemma PlaceOne(hosts: seq<Host>, n: nat, hostOf: seq<nat>, local: seq<nat>, m: map<nat, Slot>, i: nat, s: Slot)
    requires Placed(hosts, n, hostOf, local, m) && i < n && i !in m && IsSlot(hosts, s) && s !in m.Values
    ensures Placed(hosts, n, hostOf[i := s.host], local[i := s.k], m[i := s])
    ensures m[i := s].Values == m.Values + {s}
  {
    var m' := m[i := s];
    forall x ensures x in m'.Values <==> x in m.Values + {s} {
      if x in m.Values {
        var j :| j in m && m[j] == x;
        assert m'[j] == x;
      }
      if x == s { assert m'[i] == x; }
    }
  }

  lemma SlotsAre(hosts: seq<Host>, s: Slot)
    ensures s in SlotsOf(hosts) <==> IsSlot(hosts, s)
  {
  }

  /** Where the loop over the pins is: those not in `left` are placed, in their regions. */
  ghost predicate Pinning(hosts: seq<Host>, n: nat, pins: map<nat, string>, left: set<nat>, free0: Free, free: Free,
                          hostOf: seq<nat>, local: seq<nat>, m: map<nat, Slot>) {
    && left <= pins.Keys && m.Keys == pins.Keys - left && free.Keys <= free0.Keys
    && (forall i :: i in pins ==> i < n)
    && Placed(hosts, n, hostOf, local, m) && FreeOk(hosts, free, m.Values)
    && (forall i :: i in m ==> i in pins && m[i].host < |hosts| && hosts[m[i].host].region == pins[i])
  }

  lemma PinStep(hosts: seq<Host>, n: nat, pins: map<nat, string>, left: set<nat>, free0: Free, free: Free,
                hostOf: seq<nat>, local: seq<nat>, m: map<nat, Slot>, i: nat)
    requires Pinning(hosts, n, pins, left, free0, free, hostOf, local, m) && i in left && Listed(free, pins[i]) != []
    ensures |hostOf| == n && |local| == n && i < n
    ensures var q := Listed(free, pins[i]);
            Pinning(hosts, n, pins, left - {i}, free0, free[pins[i] := q[1..]], hostOf[i := q[0].host],
                    local[i := q[0].k], m[i := q[0]])
  {
    var q := Listed(free, pins[i]);
    TakeFirst(hosts, free, m.Values, pins[i]);
    PlaceOne(hosts, n, hostOf, local, m, i, q[0]);
    hide FreeOk, Placed;
    assert m[i := q[0]].Keys == m.Keys + {i};
  }

  lemma PinsDone(hosts: seq<Host>, n: nat, pins: map<nat, string>, free0: Free, free: Free,
                 hostOf: seq<nat>, local: seq<nat>, m: map<nat, Slot>, r: string)
    requires Pinning(hosts, n, pins, {}, free0, free, hostOf, local, m)
    ensures |PinnedTo(pins, r)| <= |SlotsIn(hosts, r)|
  {
    hide FreeOk;
    forall i | i in PinnedTo(pins, r) ensures m[i] in SlotsIn(hosts, r) { SlotsAre(hosts, m[i]); }
    NodesAtMostSlots(m, PinnedTo(pins, r), SlotsIn(hosts, r));
  }

  /** The second loop of place, over the pins in any order. */
  method PlacePinned(hosts: seq<Host>, n: nat, pins: map<nat, string>, free0: Free)
    returns (ok: bool, free: Free, hostOf: seq<nat>, local: seq<nat>, ghost m: map<nat, Slot>)
    requires FreeOk(hosts, free0, {}) && (forall i :: i in pins ==> i < n)
    ensures ok <==> forall r: string :: |PinnedTo(pins, r)| <= |SlotsIn(hosts, r)|
    ensures ok ==> Pinning(hosts, n, pins, {}, free0, free, hostOf, local, m)
  {
    free, hostOf, local, m := free0, seq(n, _ => 0), seq(n, _ => 0), map[];
    var left := pins.Keys;
    assert m.Values == {};
    assert Pinning(hosts, n, pins, left, free0, free, hostOf, local, m);
    hide PinnedTo, SlotsIn, FreeOk, Placed;
    while left != {}
      invariant Pinning(hosts, n, pins, left, free0, free, hostOf, local, m)
      decreases |left|
    {
      var i :| i in left;
      var q := Listed(free, pins[i]);
      if |q| == 0 {
        RegionFull(hosts, n, pins, left, free0, free, hostOf, local, m, i);
        ok := false;
        return;
      }
      PinStep(hosts, n, pins, left, free0, free, hostOf, local, m, i);
      left := left - {i};
      free := free[pins[i] := q[1..]];
      hostOf, local, m := hostOf[i := q[0].host], local[i := q[0].k], m[i := q[0]];
    }
    ok := true;
    forall r: string ensures |PinnedTo(pins, r)| <= |SlotsIn(hosts, r)| {
      PinsDone(hosts, n, pins, free0, free, hostOf, local, m, r);
    }
  }

  /** A pin that finds its region's slots gone: the region has more pins than slots. */
  lemma RegionFull(hosts: seq<Host>, n: nat, pins: map<nat, string>, left: set<nat>, free0: Free, free: Free,
                   hostOf: seq<nat>, local: seq<nat>, m: map<nat, Slot>, i: nat)
    requires Pinning(hosts, n, pins, left, free0, free, hostOf, local, m) && i in left && Listed(free, pins[i]) == []
    ensures |PinnedTo(pins, pins[i])| > |SlotsIn(hosts, pins[i])|
  {
    var r := pins[i];
    forall s | s in SlotsIn(hosts, r) ensures s in m.Values {
      SlotsAre(hosts, s);
      assert s !in Listed(free, r);
    }
    SlotsAtMostNodes(m, SlotsIn(hosts, r), PinnedTo(pins, r) - {i});
    assert i in PinnedTo(pins, r);
  }

  // ----------------------------------------------------- the nodes without a pin

  /** The regions that are home, or those that are not, in their order. */
  function Select(order: seq<string>, home: string, isHome: bool): seq<string> {
    if order == [] then []
    else
      var rest := Select(order[1..], home, isHome);
      if (order[0] == home) == isHome then [order[0]] + rest else rest
  }

  lemma {:induction false} Selected(order: seq<string>, home: string, isHome: bool)
    ensures forall y :: y in Select(order, home, isHome) <==> y in order && (y == home) == isHome
    ensures forall x :: 0 <= x < |Select(order, home, isHome)| ==> (Select(order, home, isHome)[x] == home) == isHome
  {
    if order != [] { Selected(order[1..], home, isHome); }
  }

  lemma {:induction false} SelectLast(order: seq<string>, r: string, home: string, isHome: bool)
    ensures Select(order + [r], home, isHome)
         == Select(order, home, isHome) + if (r == home) == isHome then [r] else []
    decreases |order|
  {
    var order' := order + [r];
    if order == [] {
      assert order'[1..] == [] && order'[0] == r;
    } else {
      SelectLast(order[1..], r, home, isHome);
      assert order'[1..] == order[1..] + [r] && order'[0] == order[0];
      var rest, last := Select(order[1..], home, isHome), if (r == home) == isHome then [r] else [];
      assert [order[0]] + (rest + last) == [order[0]] + rest + last;
    }
  }

  /** Where a selected region was, and what was selected before it. */
  lemma {:induction false} SelectedAt(order: seq<string>, home: string, isHome: bool, x: nat) returns (y: nat)
    requires x < |Select(order, home, isHome)|
    ensures y < |order| && order[y] == Select(order, home, isHome)[x]
    ensures Select(order[..y], home, isHome) == Select(order, home, isHome)[..x]
    decreases |order|
  {
    var n := |order| - 1;
    assert order == order[..n] + [order[n]];
    SelectLast(order[..n], order[n], home, isHome);
    var before := Select(order[..n], home, isHome);
    if x < |before| {
      y := SelectedAt(order[..n], home, isHome, x);
      assert order[..n][..y] == order[..y];
    } else {
      y := n;
    }
  }

  /** Home before the others keeps the others' order. */
  lemma HomeFirstRanked(hosts: seq<Host>, home: string, order: seq<string>)
    requires Ranked(hosts, order)
    ensures HomeRanked(hosts, home, HomeFirst(order, home))
  {
    var homes, others := Select(order, home, true), Select(order, home, false);
    Selected(order, home, true);
    Selected(order, home, false);
    var all := HomeFirst(order, home);
    forall x: nat, r | x < |all| && r in all && Rank(hosts, home, r) < Rank(hosts, home, all[x])
      ensures r in all[..x]
    {
      assert all[x] != home;
      var k := x - |homes|;
      assert all[x] == others[k];
      if r == home {
        assert r in homes && homes == all[..|homes|];
        assert all[..x] == homes + others[..k];
      } else {
        var y := SelectedAt(order, home, false, k);
        assert r in order[..y];
        Selected(order[..y], home, false);
        assert r in Select(order[..y], home, false) && all[..x] == homes + others[..k];
      }
    }
  }

  /** sort.SliceStable with "home before the others". */
  function HomeFirst(order: seq<string>, home: string): (r: seq<string>)
    ensures forall y :: y in r <==> y in order
    ensures forall x, y :: 0 <= x < y < |r| && r[y] == home ==> r[x] == home
  {
    Selected(order, home, true);
    Selected(order, home, false);
    Select(order, home, true) + Select(order, home, false)
  }

  ghost predicate AtHome(hosts: seq<Host>, s: Slot, home: string) {
    s.host < |hosts| && hosts[s.host].region == home
  }

  /** Where the last loop is: every node below `idx` and every pinned one is placed, the
      regions before `ri` are used up, and nobody without a pin was sent past a slot that comes first. */
  ghost predicate Filling(hosts: seq<Host>, n: nat, pins: map<nat, string>, home: string, order: seq<string>,
                          idx: nat, ri: nat,
                          free: Free, hostOf: seq<nat>, local: seq<nat>, m: map<nat, Slot>) {
    && idx <= n && ri <= |order| && (forall i: nat :: i in m <==> i in pins || i < idx)
    && Placed(hosts, n, hostOf, local, m) && FreeOk(hosts, free, m.Values)
    && (forall r :: r in free ==> r in order) && (forall x :: 0 <= x < ri ==> Listed(free, order[x]) == [])
    && (forall i :: i in pins ==> i < n && AtHome(hosts, m[i], pins[i]))
    && OrderRule(hosts, pins, home, idx, free, m)
  }

  /** Slots in the order in which nodes without a pin take them. */
  predicate SlotFirst(hosts: seq<Host>, home: string, s: Slot, t: Slot)
    requires s.host < |hosts| && t.host < |hosts|
  {
    var a, b := hosts[s.host].region, hosts[t.host].region;
    Rank(hosts, home, a) < Rank(hosts, home, b) || (a == b && SlotBefore(s, t))
  }

  /** A node without a pin has no free slot before its own, and the later ones come after it. */
  ghost predicate OrderRule(hosts: seq<Host>, pins: map<nat, string>, home: string, idx: nat, free: Free,
                            m: map<nat, Slot>)
    requires forall i: nat :: i < idx ==> i in m
  {
    && (forall i: nat :: i < idx && i !in pins ==> NoneBefore(hosts, home, free, m[i]))
    && (forall i: nat, j: nat :: i < j < idx && i !in pins && j !in pins ==> InTurn(hosts, home, m[i], m[j]))
  }

  ghost predicate InTurn(hosts: seq<Host>, home: string, s: Slot, t: Slot) {
    s.host < |hosts| && t.host < |hosts| && SlotFirst(hosts, home, s, t)
  }

  ghost predicate NoneBefore(hosts: seq<Host>, home: string, free: Free, s: Slot) {
    && s.host < |hosts|
    && (forall r :: Rank(hosts, home, r) < Rank(hosts, home, hosts[s.host].region) ==> Listed(free, r) == [])
    && (forall t :: t in Listed(free, hosts[s.host].region) ==> SlotBefore(s, t))
  }

  lemma SameRank(hosts: seq<Host>, home: string, h: nat, k: nat)
    requires h < |hosts| && k < |hosts|
    requires Rank(hosts, home, hosts[h].region) == Rank(hosts, home, hosts[k].region)
    ensures hosts[h].region == hosts[k].region
  {
  }

  /** The first free slot of the first region with any comes after all that were taken. */
  lemma OrderStep(hosts: seq<Host>, pins: map<nat, string>, home: string, idx: nat, free: Free, m: map<nat, Slot>,
                  r: string, s: Slot)
    requires (forall i: nat :: i < idx ==> i in m) && OrderRule(hosts, pins, home, idx, free, m)
    requires AtHome(hosts, s, r) && Listed(free, r) != [] && Listed(free, r)[0] == s && Ordered(Listed(free, r))
    requires forall r' :: Rank(hosts, home, r') < Rank(hosts, home, r) ==> Listed(free, r') == []
    ensures OrderRule(hosts, pins, home, idx + 1, free[r := Listed(free, r)[1..]], m[idx := s])
  {
    hide Rank, Ordered;
    var free', m' := free[r := Listed(free, r)[1..]], m[idx := s];
    assert NoneBefore(hosts, home, free', s) by { FirstIsFirst(Listed(free, r)); }
    forall i: nat | i < idx && i !in pins ensures NoneBefore(hosts, home, free', m[i]) && InTurn(hosts, home, m[i], s) {
      assert NoneBefore(hosts, home, free, m[i]);
      if Rank(hosts, home, hosts[m[i].host].region) == Rank(hosts, home, r) {
        SameRank(hosts, home, m[i].host, s.host);
      }
    }
    forall i: nat, j: nat | i < j < idx + 1 && i !in pins && j !in pins ensures InTurn(hosts, home, m'[i], m'[j]) {
      if j < idx { assert InTurn(hosts, home, m[i], m[j]); }
    }
  }

  lemma FirstIsFirst(q: seq<Slot>)
    requires q != [] && Ordered(q)
    ensures Ordered(q[1..]) && forall t :: t in q[1..] ==> SlotBefore(q[0], t) && t != q[0]
  {
  }

  lemma RanksGone(hosts: seq<Host>, free: Free, home: string, order: seq<string>, ri: nat, r: string)
    requires ri < |order| && HomeRanked(hosts, home, order) && Rank(hosts, home, r) < Rank(hosts, home, order[ri])
    requires (forall r :: r in free ==> r in order) && (forall x :: 0 <= x < ri ==> Listed(free, order[x]) == [])
    ensures Listed(free, r) == []
  {
    if r in free {
      assert r in order[..ri];
      var y :| 0 <= y < ri && order[..ri][y] == r;
      assert order[y] == r;
    }
  }

  lemma FillStep(hosts: seq<Host>, n: nat, pins: map<nat, string>, home: string, order: seq<string>, idx: nat, ri: nat,
                 free: Free, hostOf: seq<nat>, local: seq<nat>, m: map<nat, Slot>)
    requires Filling(hosts, n, pins, home, order, idx, ri, free, hostOf, local, m)
    requires idx < n && idx !in pins && ri < |order| && Listed(free, order[ri]) != [] && HomeRanked(hosts, home, order)
    ensures |hostOf| == n && |local| == n
    ensures var q := Listed(free, order[ri]);
            Filling(hosts, n, pins, home, order, idx + 1, ri, free[order[ri] := q[1..]], hostOf[idx := q[0].host],
                    local[idx := q[0].k], m[idx := q[0]])
  {
    hide FreeOk, Placed, OrderRule, HomeRanked, Rank, Ordered, AtHome, Listed;
    var r := order[ri];
    var q := Listed(free, r);
    FreeOrdered(hosts, free, m.Values, r);
    TakeFirst(hosts, free, m.Values, r);
    PlaceOne(hosts, n, hostOf, local, m, idx, q[0]);
    PlacedLengths(hosts, n, hostOf, local, m);
    forall r' | Rank(hosts, home, r') < Rank(hosts, home, r) ensures Listed(free, r') == [] {
      RanksGone(hosts, free, home, order, ri, r');
    }
    AtRegion(hosts, q[0], r);
    OrderStep(hosts, pins, home, idx, free, m, r, q[0]);
    RegionsUsed(free, order, ri);
    assert forall i :: i in pins ==> m[idx := q[0]][i] == m[i];
  }

  /** Taking from the region at `ri` opens none of those before. */
  lemma RegionsUsed(free: Free, order: seq<string>, ri: nat)
    requires ri < |order| && Listed(free, order[ri]) != []
    requires (forall r :: r in free ==> r in order) && (forall x :: 0 <= x < ri ==> Listed(free, order[x]) == [])
    ensures var free' := free[order[ri] := Listed(free, order[ri])[1..]];
            (forall r :: r in free' ==> r in order) && (forall x :: 0 <= x < ri ==> Listed(free', order[x]) == [])
  {
  }

  lemma FreeOrdered(hosts: seq<Host>, free: Free, taken: set<Slot>, r: string)
    requires FreeOk(hosts, free, taken)
    ensures Ordered(Listed(free, r))
  {
  }

  lemma AtRegion(hosts: seq<Host>, s: Slot, r: string)
    requires IsSlot(hosts, s) && hosts[s.host].region == r
    ensures AtHome(hosts, s, r)
  {
  }

  lemma PlacedLengths(hosts: seq<Host>, n: nat, hostOf: seq<nat>, local: seq<nat>, m: map<nat, Slot>)
    requires Placed(hosts, n, hostOf, local, m)
    ensures |hostOf| == n && |local| == n
  {
  }

  /** The last loop of place. */
  method Fill(hosts: seq<Host>, n: nat, pins: map<nat, string>, home: string, order: seq<string>,
              free0: Free, hostOf0: seq<nat>, local0: seq<nat>, ghost m0: map<nat, Slot>)
    returns (ok: bool, hostOf: seq<nat>, local: seq<nat>, ghost m: map<nat, Slot>)
    requires Filling(hosts, n, pins, home, order, 0, 0, free0, hostOf0, local0, m0)
    requires HomeRanked(hosts, home, order)
    ensures ok <==> n <= |SlotsOf(hosts)|
    ensures ok ==> exists ri, free :: Filling(hosts, n, pins, home, order, n, ri, free, hostOf, local, m)
  {
    hide SlotsOf, FreeOk, Placed, OrderRule, HomeRanked;
    var free := free0;
    hostOf, local, m := hostOf0, local0, m0;
    var ri: nat := 0;
    var idx: nat := 0;
    FillingBounds(hosts, n, pins, home, order, idx, ri, free, hostOf, local, m);
    hide Filling;
    while idx < n
      invariant idx <= n && ri <= |order| && Filling(hosts, n, pins, home, order, idx, ri, free, hostOf, local, m)
    {
      if idx in pins {
        FillPinned(hosts, n, pins, home, order, idx, ri, free, hostOf, local, m);
      } else {
        while ri < |order| && |Listed(free, order[ri])| == 0
          invariant ri <= |order| && Filling(hosts, n, pins, home, order, idx, ri, free, hostOf, local, m)
        {
          FillSkip(hosts, n, pins, home, order, idx, ri, free, hostOf, local, m);
          ri := ri + 1;
        }
        if ri == |order| {
          AllTaken(hosts, n, pins, home, order, idx, free, hostOf, local, m);
          ok := false;
          return;
        }
        var q := Listed(free, order[ri]);
        FillStep(hosts, n, pins, home, order, idx, ri, free, hostOf, local, m);
        free := free[order[ri] := q[1..]];
        hostOf, local, m := hostOf[idx := q[0].host], local[idx := q[0].k], m[idx := q[0]];
      }
      idx := idx + 1;
    }
    ok := true;
    FillEnds(hosts, n, pins, home, order, ri, free, hostOf, local, m);
  }

  lemma FillingBounds(hosts: seq<Host>, n: nat, pins: map<nat, string>, home: string, order: seq<string>, idx: nat,
                      ri: nat, free: Free, hostOf: seq<nat>, local: seq<nat>, m: map<nat, Slot>)
    requires Filling(hosts, n, pins, home, order, idx, ri, free, hostOf, local, m)
    ensures idx <= n && ri <= |order|
  {
  }

  lemma OrderPinned(hosts: seq<Host>, pins: map<nat, string>, home: string, idx: nat, free: Free, m: map<nat, Slot>)
    requires (forall i: nat :: i <= idx ==> i in m) && OrderRule(hosts, pins, home, idx, free, m) && idx in pins
    ensures OrderRule(hosts, pins, home, idx + 1, free, m)
  {
    hide NoneBefore, InTurn;
  }

  /** A pinned node is passed over. */
  lemma FillPinned(hosts: seq<Host>, n: nat, pins: map<nat, string>, home: string, order: seq<string>, idx: nat,
                   ri: nat, free: Free, hostOf: seq<nat>, local: seq<nat>, m: map<nat, Slot>)
    requires Filling(hosts, n, pins, home, order, idx, ri, free, hostOf, local, m) && idx < n && idx in pins
    ensures Filling(hosts, n, pins, home, order, idx + 1, ri, free, hostOf, local, m)
  {
    hide FreeOk, Placed, OrderRule, AtHome;
    OrderPinned(hosts, pins, home, idx, free, m);
  }

  /** So is a region without free slots. */
  lemma FillSkip(hosts: seq<Host>, n: nat, pins: map<nat, string>, home: string, order: seq<string>, idx: nat,
                 ri: nat, free: Free, hostOf: seq<nat>, local: seq<nat>, m: map<nat, Slot>)
    requires Filling(hosts, n, pins, home, order, idx, ri, free, hostOf, local, m)
    requires ri < |order| && |Listed(free, order[ri])| == 0
    ensures Filling(hosts, n, pins, home, order, idx, ri + 1, free, hostOf, local, m)
  {
    hide FreeOk, Placed, OrderRule;
  }

  lemma FillEnds(hosts: seq<Host>, n: nat, pins: map<nat, string>, home: string, order: seq<string>, ri: nat,
                 free: Free, hostOf: seq<nat>, local: seq<nat>, m: map<nat, Slot>)
    requires Filling(hosts, n, pins, home, order, n, ri, free, hostOf, local, m)
    ensures n <= |SlotsOf(hosts)|
  {
    hide FreeOk, Placed, OrderRule, SlotsOf;
    AllFit(hosts, n, hostOf, local, m);
  }

  lemma AllTaken(hosts: seq<Host>, n: nat, pins: map<nat, string>, home: string, order: seq<string>, idx: nat,
                 free: Free, hostOf: seq<nat>, local: seq<nat>, m: map<nat, Slot>)
    requires Filling(hosts, n, pins, home, order, idx, |order|, free, hostOf, local, m) && idx < n && idx !in pins
    ensures n > |SlotsOf(hosts)|
  {
    forall r: string ensures Listed(free, r) == [] {
      if r in free {
        var x :| 0 <= x < |order| && order[x] == r;
      }
    }
    forall s | s in SlotsOf(hosts) ensures s in m.Values {
      SlotsAre(hosts, s);
      assert s !in Listed(free, hosts[s.host].region);
    }
    SlotsAtMostNodes(m, SlotsOf(hosts), Below(n) - {idx});
  }

  lemma AllFit(hosts: seq<Host>, n: nat, hostOf: seq<nat>, local: seq<nat>, m: map<nat, Slot>)
    requires Placed(hosts, n, hostOf, local, m) && forall i: nat :: i < n ==> i in m
    ensures n <= |SlotsOf(hosts)|
  {
    forall i | i in Below(n) ensures m[i] in SlotsOf(hosts) { SlotsAre(hosts, m[i]); }
    NodesAtMostSlots(m, Below(n), SlotsOf(hosts));
  }

  // --------------------------------------------------------------------- the whole

  /** A placement: every node on a slot of its own that exists, pins in their regions, and the others, in the order
      of their indices, on slots in the order home first, then region by region as in the inventory, and within a
      region machine by machine; what is left over comes after all of theirs. */
  ghost predicate GoodPlacement(hosts: seq<Host>, n: nat, pins: map<nat, string>, home: string, hostOf: seq<nat>,
                                local: seq<nat>) {
    && |hostOf| == n && |local| == n
    && (forall i: nat :: i < n ==> IsSlot(hosts, Slot(hostOf[i], local[i])))
    && (forall i: nat, j: nat :: i < j < n ==> hostOf[i] != hostOf[j] || local[i] != local[j])
    && (forall i :: i in pins ==> i < n && hosts[hostOf[i]].region == pins[i])
    && (forall i: nat, j: nat :: i < j < n && i !in pins && j !in pins && hosts[hostOf[j]].region == home ==>
          hosts[hostOf[i]].region == home)
    && (forall i: nat, j: nat :: i < j < n && i !in pins && j !in pins ==>
          InTurn(hosts, home, Slot(hostOf[i], local[i]), Slot(hostOf[j], local[j])))
    && (forall i: nat, s :: i < n && i !in pins && IsSlot(hosts, s) && Unused(n, hostOf, local, s) ==>
          InTurn(hosts, home, Slot(hostOf[i], local[i]), s))
  }

  ghost predicate Unused(n: nat, hostOf: seq<nat>, local: seq<nat>, s: Slot)
    requires |hostOf| == n && |local| == n
  {
    forall i: nat :: i < n ==> Slot(hostOf[i], local[i]) != s
  }

  /** A slot left over comes after those the nodes without a pin took. */
  lemma LeftOver(hosts: seq<Host>, n: nat, pins: map<nat, string>, home: string, order: seq<string>, ri: nat,
                 free: Free, hostOf: seq<nat>, local: seq<nat>, m: map<nat, Slot>, i: nat, s: Slot)
    requires Filling(hosts, n, pins, home, order, n, ri, free, hostOf, local, m) && i < n && i !in pins
    requires IsSlot(hosts, s) && |hostOf| == n && |local| == n && Unused(n, hostOf, local, s)
    ensures InTurn(hosts, home, Slot(hostOf[i], local[i]), s)
  {
    assert s !in m.Values;
    var r := hosts[s.host].region;
    assert s in Listed(free, r);
    assert NoneBefore(hosts, home, free, m[i]);
    if Rank(hosts, home, r) == Rank(hosts, home, hosts[m[i].host].region) {
      SameRank(hosts, home, s.host, m[i].host);
    }
    hide Rank, FreeOk;
  }

  /** place succeeds exactly when each region's pins fit its slots and all nodes fit the
      total, whatever order the pins are taken in. */
  method Place(hosts: seq<Host>, n: nat, nodeRegions: map<int, string>, home: string)
    returns (r: Result<(seq<nat>, seq<nat>)>)
    requires |hosts| > 0 && n >= 1
    ensures r.Ok? <==> Fits(Pins(nodeRegions, n, hosts, home), n, hosts)
    ensures r.Ok? ==> GoodPlacement(hosts, n, Pins(nodeRegions, n, hosts, home), home, r.value.0, r.value.1)
    ensures r.Ok? ==> forall i: nat :: i < n && i in nodeRegions ==> hosts[r.value.0[i]].region == nodeRegions[i]
    ensures r.Ok? && 0 !in nodeRegions && hosts[0].region != "" ==> hosts[r.value.0[0]].region == home
    ensures forall i :: i in Pins(nodeRegions, n, hosts, home) ==>
              i < n && (i in nodeRegions || (i == 0 && hosts[0].region != ""))
  {
    hide PinnedTo, SlotsIn, SlotsOf, Ranked, HomeRanked, FreeOk, Pinning, Filling, GoodPlacement, Pins, HomeFirst;
    var pins := Pins(nodeRegions, n, hosts, home);
    PinsAre(nodeRegions, n, hosts, home);
    var free0, order := ListFree(hosts);
    var pinned, free, hostOf, local, m := PlacePinned(hosts, n, pins, free0);
    if !pinned {
      return Err;
    }
    var sorted := HomeFirst(order, home);
    HomeFirstRanked(hosts, home, order);
    BeginFilling(hosts, n, pins, home, sorted, free0, free, hostOf, local, m);
    var ok, hostOf', local', m' := Fill(hosts, n, pins, home, sorted, free, hostOf, local, m);
    if !ok {
      return Err;
    }
    ghost var ri, freeAtEnd :| Filling(hosts, n, pins, home, sorted, n, ri, freeAtEnd, hostOf', local', m');
    EndFilling(hosts, n, pins, home, sorted, ri, freeAtEnd, hostOf', local', m');
    PinsHonoured(hosts, n, nodeRegions, home, hostOf', local');
    return Ok((hostOf', local'));
  }

  lemma PinsAre(nodeRegions: map<int, string>, n: nat, hosts: seq<Host>, home: string)
    requires |hosts| > 0 && n >= 1
    ensures forall i :: i in Pins(nodeRegions, n, hosts, home) ==>
              i < n && (i in nodeRegions || (i == 0 && hosts[0].region != ""))
  {
  }

  lemma PinsHonoured(hosts: seq<Host>, n: nat, nodeRegions: map<int, string>, home: string, hostOf: seq<nat>,
                     local: seq<nat>)
    requires |hosts| > 0 && n >= 1
    requires GoodPlacement(hosts, n, Pins(nodeRegions, n, hosts, home), home, hostOf, local)
    ensures |hostOf| == n && |local| == n && forall i: nat :: i < n ==> hostOf[i] < |hosts|
    ensures forall i: nat :: i < n && i in nodeRegions ==> hosts[hostOf[i]].region == nodeRegions[i]
    ensures 0 !in nodeRegions && hosts[0].region != "" ==> hosts[hostOf[0]].region == home
  {
    hide InTurn;
    assert forall i: nat :: i < n ==> IsSlot(hosts, Slot(hostOf[i], local[i]));
  }

  lemma BeginFilling(hosts: seq<Host>, n: nat, pins: map<nat, string>, home: string, order: seq<string>, free0: Free,
                     free: Free,
                     hostOf: seq<nat>, local: seq<nat>, m: map<nat, Slot>)
    requires Pinning(hosts, n, pins, {}, free0, free, hostOf, local, m) && forall r :: r in free0 ==> r in order
    ensures Filling(hosts, n, pins, home, order, 0, 0, free, hostOf, local, m)
  {
    hide FreeOk, Placed;
  }

  lemma EndFilling(hosts: seq<Host>, n: nat, pins: map<nat, string>, home: string, order: seq<string>, ri: nat,
                   free: Free,
                   hostOf: seq<nat>, local: seq<nat>, m: map<nat, Slot>)
    requires Filling(hosts, n, pins, home, order, n, ri, free, hostOf, local, m)
    ensures GoodPlacement(hosts, n, pins, home, hostOf, local)
  {
    hide FreeOk, InTurn, OrderRule;
    PlacedLengths(hosts, n, hostOf, local, m);
    forall i: nat, s | i < n && i !in pins && IsSlot(hosts, s) && Unused(n, hostOf, local, s)
      ensures InTurn(hosts, home, Slot(hostOf[i], local[i]), s)
    {
      LeftOver(hosts, n, pins, home, order, ri, free, hostOf, local, m, i, s);
    }
    hide Unused;
    forall i: nat, j: nat | i < j < n && i !in pins && j !in pins
      ensures InTurn(hosts, home, Slot(hostOf[i], local[i]), Slot(hostOf[j], local[j]))
    {
      assert i in m && j in m;
      TakenInTurn(hosts, pins, home, n, free, m, i, j);
    }
    forall i: nat, j: nat | i < j < n ensures hostOf[i] != hostOf[j] || local[i] != local[j] {
      assert i in m && j in m;
    }
    forall i: nat, j: nat | i < j < n && i !in pins && j !in pins && hosts[hostOf[j]].region == home
      ensures hosts[hostOf[i]].region == home
    {
      HomeBefore(hosts, home, Slot(hostOf[i], local[i]), Slot(hostOf[j], local[j]));
    }
  }

  lemma TakenInTurn(hosts: seq<Host>, pins: map<nat, string>, home: string, n: nat, free: Free, m: map<nat, Slot>,
                    i: nat, j: nat)
    requires (forall i: nat :: i < n ==> i in m) && OrderRule(hosts, pins, home, n, free, m)
    requires i < j < n && i !in pins && j !in pins
    ensures InTurn(hosts, home, m[i], m[j])
  {
  }

  lemma HomeBefore(hosts: seq<Host>, home: string, s: Slot, t: Slot)
    requires InTurn(hosts, home, s, t) && hosts[t.host].region == home
    ensures hosts[s.host].region == home
  {
  }
}
