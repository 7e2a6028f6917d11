/** One address per node, and the nodes of each /24: pkg/addr/addr.go.
    The random draw of a prefix is an arbitrary function of node and attempt; zero means none to draw. */
module Addressing {

  import opened Wrappers

  /** An address in octets. */
  datatype Ip = Ip(a: nat, b: nat, c: nat, d: nat)

  /** A /24 packed as a<<16|b<<8|c, rendered as an address with the given last octet. */
  function Address(prefix: nat, host: nat): Ip {
    Ip(prefix / 0x10000 % 0x100, prefix / 0x100 % 0x100, prefix % 0x100, host % 0x100)
  }

  /** One address per node, and its /24. */
  datatype Pool = Pool(ip: seq<Ip>, prefix: seq<nat>)

  function Uses(prefix: seq<nat>, p: nat): nat {
    multiset(prefix)[p]
  }

  /** How many of the nodes up to and including `i` share its /24. */
  function Turn(prefix: seq<nat>, i: nat): nat
    requires i < |prefix|
  {
    Uses(prefix[..i + 1], prefix[i])
  }

  /** Within a /24 the host octets are handed out in order, at most 254 of them. */
  ghost predicate Drawn(pool: Pool, n: nat) {
    && |pool.ip| == n && |pool.prefix| == n
    && (forall i: nat :: i < n ==>
          1 <= Turn(pool.prefix, i) <= 254 && pool.ip[i] == Address(pool.prefix[i], Turn(pool.prefix, i)))
  }

  /** After `prefix`, the next node's attempt `t` is the first with a host octet left,
      and no attempt before it was refused for want of prefixes. */
  ghost predicate FirstFree(prefix: seq<nat>, draws: (nat, nat) -> nat, t: nat) {
    && draws(|prefix|, t) != 0 && Uses(prefix, draws(|prefix|, t)) < 254
    && (forall s: nat :: s < t ==> Full(prefix, draws(|prefix|, s)))
  }

  ghost predicate Full(prefix: seq<nat>, p: nat) {
    p != 0 && Uses(prefix, p) >= 254
  }

  /** The next node takes `p`. */
  ghost predicate Takes(prefix: seq<nat>, draws: (nat, nat) -> nat, p: nat) {
    exists t: nat :: t < 64 && FirstFree(prefix, draws, t) && p == draws(|prefix|, t)
  }

  ghost predicate DrawnFrom(prefix: seq<nat>, draws: (nat, nat) -> nat) {
    forall i: nat :: i < |prefix| ==> Takes(prefix[..i], draws, prefix[i])
  }

  /** The next node draws an empty histogram, or 64 full prefixes. */
  ghost predicate Stuck(prefix: seq<nat>, draws: (nat, nat) -> nat) {
    exists t: nat :: t <= 64 && GivesUp(prefix, draws, t)
  }

  ghost predicate GivesUp(prefix: seq<nat>, draws: (nat, nat) -> nat, t: nat) {
    (t == 64 || draws(|prefix|, t) == 0) && (forall s: nat :: s < t ==> Full(prefix, draws(|prefix|, s)))
  }

  /** The usage map counts the nodes of each /24. */
  ghost predicate Counted(used: map<nat, nat>, prefix: seq<nat>) {
    forall p: nat :: Uses(prefix, p) == if p in used then used[p] else 0
  }

  lemma UsesAppend(prefix: seq<nat>, p: nat, q: nat)
    ensures Uses(prefix + [p], q) == Uses(prefix, q) + if p == q then 1 else 0
  {
  }

  /** addr.Draw. */
  method Draw(n: nat, draws: (nat, nat) -> nat) returns (r: Result<Pool>)
    ensures r.Ok? ==> Drawn(r.value, n) && DrawnFrom(r.value.prefix, draws)
    ensures r.Err? <==> exists prefix: seq<nat> :: |prefix| < n && DrawnFrom(prefix, draws) && Stuck(prefix, draws)
  {
    hide Address, Uses;
    var ip, prefix: seq<nat>, used: map<nat, nat> := [], [], map[];
    assert Counted(used, prefix) by { NoUses(); }
    hide Counted, Drawn, DrawnFrom, Takes, Stuck;
    DrawNone(draws);
    for i := 0 to n
      invariant |prefix| == i && Drawn(Pool(ip, prefix), i) && DrawnFrom(prefix, draws) && Counted(used, prefix)
    {
      var ok, pre := Retry(prefix, draws, used, i);
      if !ok {
        return Err;
      }
      CountOne(used, prefix, pre);
      used := used[pre := (if pre in used then used[pre] else 0) + 1];
      DrawOne(ip, prefix, used, pre, draws);
      ip := ip + [Address(pre, used[pre])];
      prefix := prefix + [pre];
    }
    forall stuck: seq<nat> | |stuck| < n && DrawnFrom(stuck, draws) ensures !Stuck(stuck, draws) {
      DrawnIsDecided(draws, prefix, stuck);
    }
    return Ok(Pool(ip, prefix));
  }

  /** The retry loop: a prefix with a free host octet, within 64 draws. */
  method Retry(ghost prefix: seq<nat>, draws: (nat, nat) -> nat, used: map<nat, nat>, i: nat)
    returns (ok: bool, pre: nat)
    requires Counted(used, prefix) && i == |prefix|
    ensures ok ==> Takes(prefix, draws, pre) && (pre in used ==> used[pre] < 254)
    ensures !ok ==> Stuck(prefix, draws)
  {
    hide Uses;
    var try: nat := 0;
    while try < 64
      invariant try <= 64
      invariant forall t: nat :: t < try ==> Full(prefix, draws(i, t))
    {
      pre := draws(i, try);
      assert Uses(prefix, pre) == if pre in used then used[pre] else 0;
      if pre == 0 {
        assert GivesUp(prefix, draws, try);
        return false, 0;
      }
      if pre !in used || used[pre] < 254 {
        assert FirstFree(prefix, draws, try);
        return true, pre;
      }
      try := try + 1;
    }
    assert GivesUp(prefix, draws, try);
    return false, 0;
  }

  /** The outcome is decided by the draws: a stuck node takes nothing. */
  lemma StuckTakesNothing(prefix: seq<nat>, draws: (nat, nat) -> nat, p: nat)
    requires Stuck(prefix, draws)
    ensures !Takes(prefix, draws, p)
  {
  }

  lemma TakesOne(prefix: seq<nat>, draws: (nat, nat) -> nat, p: nat, q: nat)
    requires Takes(prefix, draws, p) && Takes(prefix, draws, q)
    ensures p == q
  {
    hide Uses;
    var t: nat :| t < 64 && FirstFree(prefix, draws, t) && p == draws(|prefix|, t);
    var u: nat :| u < 64 && FirstFree(prefix, draws, u) && q == draws(|prefix|, u);
    assert !Full(prefix, draws(|prefix|, t)) && !Full(prefix, draws(|prefix|, u));
  }

  /** The draws decide the prefixes. */
  lemma {:induction false} DrawnUnique(draws: (nat, nat) -> nat, a: seq<nat>, b: seq<nat>, i: nat)
    requires DrawnFrom(a, draws) && DrawnFrom(b, draws) && i <= |a| && i <= |b|
    ensures a[..i] == b[..i]
  {
    hide Takes;
    if i > 0 {
      DrawnUnique(draws, a, b, i - 1);
      assert Takes(a[..i - 1], draws, a[i - 1]) && Takes(b[..i - 1], draws, b[i - 1]);
      TakesOne(a[..i - 1], draws, a[i - 1], b[i - 1]);
    }
  }

  /** So a run that gets past `stuck` was not stuck there. */
  lemma DrawnIsDecided(draws: (nat, nat) -> nat, prefix: seq<nat>, stuck: seq<nat>)
    requires DrawnFrom(prefix, draws) && DrawnFrom(stuck, draws) && |stuck| < |prefix|
    ensures !Stuck(stuck, draws)
  {
    hide Takes, Stuck;
    var i := |stuck|;
    DrawnUnique(draws, prefix, stuck, i);
    assert stuck[..i] == stuck && Takes(prefix[..i], draws, prefix[i]);
    if Stuck(stuck, draws) { StuckTakesNothing(stuck, draws, prefix[i]); }
  }

  /** A node is refused after 64 draws of full /24s, those with 254 nodes, and takes the first other one before. */
  lemma SixtyFourDraws(prefix: seq<nat>, draws: (nat, nat) -> nat, t: nat)
    requires t <= 64 && forall s: nat :: s < t ==>
               draws(|prefix|, s) != 0 && multiset(prefix)[draws(|prefix|, s)] >= 254
    ensures t == 64 ==> Stuck(prefix, draws)
    ensures t < 64 && draws(|prefix|, t) == 0 ==> Stuck(prefix, draws)
    ensures t < 64 && draws(|prefix|, t) != 0 && multiset(prefix)[draws(|prefix|, t)] < 254 ==>
              Takes(prefix, draws, draws(|prefix|, t))
  {
    assert forall s: nat :: s < t ==> Full(prefix, draws(|prefix|, s));
    if t == 64 || draws(|prefix|, t) == 0 {
      assert GivesUp(prefix, draws, t);
    } else if multiset(prefix)[draws(|prefix|, t)] < 254 {
      assert FirstFree(prefix, draws, t);
    }
  }

  /** Up to 254 nodes always get an address unless a topic has no prefixes. */
  lemma FewAreNeverStuck(prefix: seq<nat>, draws: (nat, nat) -> nat)
    requires |prefix| < 254 && Stuck(prefix, draws)
    ensures draws(|prefix|, 0) == 0
  {
    assert |multiset(prefix)| == |prefix|;
  }

  lemma NoUses()
    ensures forall p: nat :: Uses([], p) == 0
  {
  }

  lemma DrawNone(draws: (nat, nat) -> nat)
    ensures Drawn(Pool([], []), 0) && DrawnFrom([], draws)
  {
  }

  lemma CountOne(used: map<nat, nat>, prefix: seq<nat>, pre: nat)
    requires Counted(used, prefix)
    ensures Counted(used[pre := (if pre in used then used[pre] else 0) + 1], prefix + [pre])
  {
    hide Uses;
    forall p: nat { UsesAppend(prefix, pre, p); }
  }

  lemma TurnAppend(prefix: seq<nat>, pre: nat, j: nat)
    requires j <= |prefix|
    ensures Turn(prefix + [pre], j) == if j < |prefix| then Turn(prefix, j) else Uses(prefix + [pre], pre)
  {
    hide Uses;
    if j < |prefix| {
      assert (prefix + [pre])[..j + 1] == prefix[..j + 1];
    } else {
      assert (prefix + [pre])[..j + 1] == prefix + [pre];
    }
  }

  lemma DrawOne(ip: seq<Ip>, prefix: seq<nat>, used: map<nat, nat>, pre: nat, draws: (nat, nat) -> nat)
    requires Drawn(Pool(ip, prefix), |prefix|) && DrawnFrom(prefix, draws) && Counted(used, prefix + [pre])
    requires pre in used && 1 <= used[pre] <= 254 && Takes(prefix, draws, pre)
    ensures Drawn(Pool(ip + [Address(pre, used[pre])], prefix + [pre]), |prefix| + 1)
    ensures DrawnFrom(prefix + [pre], draws)
  {
    hide Turn, Address, Takes;
    var prefix' := prefix + [pre];
    forall j: nat | j < |prefix'| ensures Takes(prefix'[..j], draws, prefix'[j]) {
      assert prefix'[..j] == prefix[..j];
      assert prefix[..|prefix|] == prefix;
    }
    forall j: nat | j < |prefix'| { TurnAppend(prefix, pre, j); }
  }

  /** Two packed prefixes that render as the same three octets. */
  predicate Same24(p: nat, q: nat) { p % 0x1000000 == q % 0x1000000 }

  lemma Shifts(p: nat)
    ensures p / 0x10000 == p / 0x100 / 0x100
  {
  }

  lemma Octets(p: nat)
    ensures p % 0x1000000 == 0x10000 * (p / 0x10000 % 0x100) + 0x100 * (p / 0x100 % 0x100) + p % 0x100
  {
    var b := p / 0x100;
    var a := b / 0x100;
    Shifts(p);
    Top(p, b, a, a / 0x100);
  }

  /** An address is its packed prefix's low three octets, in order, and its host's. */
  lemma AddressMeans(prefix: nat, host: nat)
    ensures var ip := Address(prefix, host);
            && ip.a < 0x100 && ip.b < 0x100 && ip.c < 0x100 && ip.d < 0x100
            && 0x10000 * ip.a + 0x100 * ip.b + ip.c == prefix % 0x1000000 && ip.d == host % 0x100
  {
    Octets(prefix);
  }

  lemma Top(p: nat, b: nat, a: nat, rest: nat)
    requires b == p / 0x100 && a == b / 0x100 && rest == a / 0x100
    ensures p % 0x1000000 == 0x10000 * (a % 0x100) + 0x100 * (b % 0x100) + p % 0x100
  {
    assert p == 0x1000000 * rest + (0x10000 * (a % 0x100) + 0x100 * (b % 0x100) + p % 0x100);
  }

  /** An address tells its octet, and its prefix up to what lies beyond three octets. */
  lemma SameAddress(p: nat, h: nat, q: nat, k: nat)
    requires h < 0x100 && k < 0x100
    ensures Address(p, h) == Address(q, k) <==> Same24(p, q) && h == k
    ensures Address(p, h).(d := 0) == Address(q, 0) <==> Same24(p, q)
  {
    Octets(p);
    Octets(q);
    if Same24(p, q) { SameOctets(p, q); }
  }

  lemma SameOctets(p: nat, q: nat)
    requires Same24(p, q)
    ensures p / 0x10000 % 0x100 == q / 0x10000 % 0x100 && p / 0x100 % 0x100 == q / 0x100 % 0x100
    ensures p % 0x100 == q % 0x100
  {
    Octets(p);
    Octets(q);
  }

  lemma TurnsDiffer(prefix: seq<nat>, i: nat, j: nat)
    requires i < j < |prefix| && prefix[i] == prefix[j]
    ensures Turn(prefix, i) < Turn(prefix, j)
  {
    assert prefix[..j + 1] == prefix[..i + 1] + prefix[i + 1..j + 1];
    assert prefix[i + 1..j + 1][j - i - 1] == prefix[j];
  }

  lemma LastOctet(p: nat, h: nat)
    requires h < 0x100
    ensures Address(p, h).d == h
  {
  }

  /** Two nodes share an address exactly when distinct prefixes render alike and both are as many-th in
      theirs; every host octet is usable. */
  lemma SharedAddress(pool: Pool, n: nat, i: nat, j: nat)
    requires Drawn(pool, n) && i < j < n
    ensures pool.ip[i] == pool.ip[j] <==> (
      pool.prefix[i] != pool.prefix[j] && Same24(pool.prefix[i], pool.prefix[j]) &&
      Turn(pool.prefix, i) == Turn(pool.prefix, j))
    ensures 1 <= pool.ip[i].d <= 254 && 1 <= pool.ip[j].d <= 254
  {
    hide Address, Turn;
    SameAddress(pool.prefix[i], Turn(pool.prefix, i), pool.prefix[j], Turn(pool.prefix, j));
    LastOctet(pool.prefix[i], Turn(pool.prefix, i));
    LastOctet(pool.prefix[j], Turn(pool.prefix, j));
    if pool.prefix[i] == pool.prefix[j] {
      TurnsDiffer(pool.prefix, i, j);
    }
  }

  /** No two of the prefixes render alike. */
  ghost predicate Separate(ps: set<nat>) {
    forall p, q :: p in ps && q in ps && p != q ==> !Same24(p, q)
  }

  /** A pool that Draw can give when every draw is one of `ps`. */
  ghost predicate Drawable(ps: set<nat>, pool: Pool, n: nat) {
    Drawn(pool, n) && exists draws: (nat, nat) -> nat :: DrawsFrom(draws, ps) && DrawnFrom(pool.prefix, draws)
  }

  ghost predicate DrawsFrom(draws: (nat, nat) -> nat, ps: set<nat>) {
    forall i: nat, t: nat :: draws(i, t) in ps
  }

  ghost predicate AllDistinct(pool: Pool) {
    forall i, j :: 0 <= i < j < |pool.ip| ==> pool.ip[i] != pool.ip[j]
  }

  lemma PrefixesFrom(prefix: seq<nat>, draws: (nat, nat) -> nat, ps: set<nat>, i: nat)
    requires DrawsFrom(draws, ps) && DrawnFrom(prefix, draws) && i < |prefix|
    ensures prefix[i] in ps - {0}
  {
    hide Uses;
    assert Takes(prefix[..i], draws, prefix[i]);
    var t: nat :| t < 64 && FirstFree(prefix[..i], draws, t) && prefix[i] == draws(|prefix[..i]|, t);
  }

  lemma SeparateIsDistinct(ps: set<nat>, pool: Pool, n: nat)
    requires Separate(ps - {0}) && Drawable(ps, pool, n)
    ensures AllDistinct(pool)
  {
    hide Turn, Address, Same24, DrawnFrom, DrawsFrom;
    var draws: (nat, nat) -> nat :| DrawsFrom(draws, ps) && DrawnFrom(pool.prefix, draws);
    forall i, j | 0 <= i < j < |pool.ip| ensures pool.ip[i] != pool.ip[j] {
      PrefixesFrom(pool.prefix, draws, ps, i);
      PrefixesFrom(pool.prefix, draws, ps, j);
      SharedAddress(pool, n, i, j);
    }
  }

  /** Two prefixes that render alike, one for each of two nodes. */
  lemma Collision(ps: set<nat>, p: nat, q: nat) returns (pool: Pool)
    requires p in ps && q in ps && p != q && Same24(p, q) && p != 0 && q != 0
    ensures Drawable(ps, pool, 2) && !AllDistinct(pool)
  {
    pool := Pool([Address(p, 1), Address(q, 1)], [p, q]);
    assert [p, q][..1] == [p] && [p, q][..2] == [p, q] && [p, q][..0] == [];
    assert Turn([p, q], 0) == 1 && Turn([p, q], 1) == 1;
    SameAddress(p, 1, q, 1);
    var draws: (nat, nat) -> nat := (i: nat, t: nat) => if i == 0 then p else q;
    assert FirstFree([], draws, 0) && FirstFree([p], draws, 0);
    assert DrawnFrom([p, q], draws) && DrawsFrom(draws, ps);
    assert pool.ip[0] == pool.ip[1];
  }

  /** Every pool drawn from a set of prefixes has distinct addresses exactly when no two of them, zero (no
      prefix) apart, render alike. Nothing in the loader sees to that: "256.0.1" and "0.0.1" would both be 0.0.1. */
  lemma DistinctExactly(ps: set<nat>)
    ensures (forall pool: Pool, n: nat :: Drawable(ps, pool, n) ==> AllDistinct(pool)) <==> Separate(ps - {0})
  {
    hide Drawable, AllDistinct, Same24;
    if Separate(ps - {0}) {
      forall pool: Pool, n: nat | Drawable(ps, pool, n) ensures AllDistinct(pool) {
        SeparateIsDistinct(ps, pool, n);
      }
    } else {
      var p, q :| p in ps - {0} && q in ps - {0} && p != q && Same24(p, q);
      var pool := Collision(ps, p, q);
    }
  }

  // ---------------------------------------------------------------------- groups

  type Groups = map<nat, seq<nat>>

  /** `q` lists the nodes of one /24, in order and completely. */
  ghost predicate GroupOf(prefix: seq<nat>, q: seq<nat>, p: nat) {
    && (forall i: nat :: i in q <==> i < |prefix| && prefix[i] == p)
    && (forall x, y :: 0 <= x < y < |q| ==> q[x] < q[y])
  }

  /** Every /24 that occurs has its group. */
  ghost predicate GroupsOf(prefix: seq<nat>, g: Groups) {
    && (forall p: nat :: p in g <==> p in prefix)
    && (forall p: nat :: p in g ==> GroupOf(prefix, g[p], p))
  }

  /** Pool.Groups. */
  method GroupNodes(prefix: seq<nat>) returns (g: Groups)
    ensures GroupsOf(prefix, g)
  {
    g := map[];
    for i := 0 to |prefix|
      invariant GroupsOf(prefix[..i], g)
    {
      GroupOne(prefix[..i], g, prefix[i]);
      assert prefix[..i + 1] == prefix[..i] + [prefix[i]];
      g := g[prefix[i] := (if prefix[i] in g then g[prefix[i]] else []) + [i]];
    }
    assert prefix[..|prefix|] == prefix;
  }

  lemma GroupOne(prefix: seq<nat>, g: Groups, p: nat)
    requires GroupsOf(prefix, g)
    ensures GroupsOf(prefix + [p], g[p := (if p in g then g[p] else []) + [|prefix|]])
  {
    var q := if p in g then g[p] else [];
    var g' := g[p := q + [|prefix|]];
    forall r: nat | r in g' ensures GroupOf(prefix + [p], g'[r], r) {
      if r == p {
        assert GroupOf(prefix, q, p);
        GroupGrows(prefix, q, p);
      } else {
        assert GroupOf(prefix, g[r], r);
      }
    }
  }

  lemma GroupGrows(prefix: seq<nat>, q: seq<nat>, p: nat)
    requires GroupOf(prefix, q, p)
    ensures GroupOf(prefix + [p], q + [|prefix|], p)
  {
    forall x | 0 <= x < |q| ensures q[x] < |prefix| {
      var v: nat := q[x];
      assert v in q;
    }
    forall i: nat ensures i in q + [|prefix|] <==> i < |prefix| + 1 && (prefix + [p])[i] == p {
      assert i in q <==> i < |prefix| && prefix[i] == p;
    }
  }

  lemma GroupHas(prefix: seq<nat>, g: Groups, p: nat, i: nat)
    requires GroupsOf(prefix, g) && p in g
    ensures i in g[p] <==> i < |prefix| && prefix[i] == p
  {
  }

  lemma GroupEntry(prefix: seq<nat>, g: Groups, p: nat, x: nat)
    requires GroupsOf(prefix, g) && p in g && x < |g[p]|
    ensures g[p][x] < |prefix| && prefix[g[p][x]] == p
  {
    hide GroupsOf;
    GroupHas(prefix, g, p, g[p][x]);
  }
}
