/** Rebalancing moves as few shards as any valid balanced assignment, and its result does
    not depend on the order in which the groups are enumerated. */
module ShardMinimal {
  import opened Common
  import opened ShardLoads
  import opened ShardRebalance

  // ---- Counting moved and kept shards --------------------------------------------

  /** The number of shards whose owner differs. */
  function Moves(a: Assignment, b: Assignment): nat
    requires |a| == |b|
  {
    if a == [] then 0
    else Moves(a[..|a| - 1], b[..|b| - 1]) + if a[|a| - 1] != b[|b| - 1] then 1 else 0
  }

  /** The number of shards that group `g` serves in both assignments. */
  function Kept(a: Assignment, b: Assignment, g: Gid): nat
    requires |a| == |b|
  {
    if a == [] then 0
    else Kept(a[..|a| - 1], b[..|b| - 1], g) + if a[|a| - 1] == g == b[|b| - 1] then 1 else 0
  }

  lemma {:induction false} KeptAndMoved(a: Assignment, b: Assignment, gs: seq<Gid>)
    requires |a| == |b| && Increasing(gs) && OnGroups(b, gs)
    ensures Sum(gs, g => Kept(a, b, g)) + Moves(a, b) == |a|
  {
    if a == [] {
      SumConstant(gs, 0);
      SumMonotone(gs, g => Kept(a, b, g), g => 0);
      SumMonotone(gs, g => 0, g => Kept(a, b, g));
    } else {
      var a', b', x, y := a[..|a| - 1], b[..|b| - 1], a[|a| - 1], b[|b| - 1];
      KeptAndMoved(a', b', gs);
      var last := g => if x == g == y then 1 else 0;
      SumAtOne(gs, y, last);
      SumPlus(gs, g => Kept(a', b', g), last, g => Kept(a, b, g));
    }
  }

  lemma LoadOfLast(a: Assignment, g: Gid)
    requires a != []
    ensures Load(a, g) == Load(a[..|a| - 1], g) + if a[|a| - 1] == g then 1 else 0
  {
    assert a == a[..|a| - 1] + [a[|a| - 1]];
  }

  lemma {:induction false} KeptAtMost(a: Assignment, b: Assignment, g: Gid)
    requires |a| == |b|
    ensures Kept(a, b, g) <= Load(a, g) && Kept(a, b, g) <= Load(b, g)
  {
    if a != [] {
      KeptAtMost(a[..|a| - 1], b[..|b| - 1], g);
      LoadOfLast(a, g);
      LoadOfLast(b, g);
    }
  }

  /** A group that gave nothing kept all it had; a group that received nothing has only
      what it had. */
  lemma {:induction false} KeptExactly(a: Assignment, b: Assignment, g: Gid)
    requires |a| == |b|
    ensures !Gave(a, b, g) ==> Kept(a, b, g) == Load(a, g)
    ensures !Received(a, b, g) ==> Kept(a, b, g) == Load(b, g)
  {
    if a != [] {
      var a', b' := a[..|a| - 1], b[..|b| - 1];
      KeptExactly(a', b', g);
      LoadOfLast(a, g);
      LoadOfLast(b, g);
      if Gave(a', b', g) {
        var s :| 0 <= s < |b'| && a'[s] == g && b'[s] != g;
        assert a[s] == g && b[s] != g;
      }
      if Received(a', b', g) {
        var s :| 0 <= s < |b'| && b'[s] == g && a'[s] != g;
        assert b[s] == g && a[s] != g;
      }
    }
  }

  function Least(x: int, y: int): int { if x < y then x else y }

  lemma FairKeeps(a0: Assignment, a: Assignment, gs: seq<Gid>, g: Gid)
    requires Fair(a0, a, gs) && g in gs
    ensures Kept(a0, a, g) == Least(Load(a0, g), Load(a, g))
    ensures Load(a, g) > Load(a0, g) ==> Received(a0, a, g)
    ensures Load(a, g) < Load(a0, g) ==> Gave(a0, a, g)
  {
    KeptExactly(a0, a, g);
    KeptAtMost(a0, a, g);
  }

  // ---- Minimal movement ----------------------------------------------------------

  /** The loads of both assignments lie in {q, q + 1}. */
  ghost predicate Near(a: Assignment, gs: seq<Gid>, q: int) {
    forall g :: g in gs ==> q <= Load(a, g) <= q + 1
  }

  lemma BalancedIsNear(a: Assignment, gs: seq<Gid>)
    requires gs != [] && Increasing(gs) && OnGroups(a, gs) && Balanced(a, gs)
    ensures Near(a, gs, |a| / |gs|)
  {
    forall g | g in gs ensures |a| / |gs| <= Load(a, g) <= |a| / |gs| + 1 {
      ExactLoads(a, gs, g);
    }
  }

  /** If no group ends up a shard richer at the top level, then every group keeps at least
      as many as the level allows. */
  lemma NoRichReceiver(a0: Assignment, a: Assignment, b: Assignment, gs: seq<Gid>, q: int)
    requires |a0| == |a| == |b| && Increasing(gs) && OnGroups(a, gs) && OnGroups(b, gs)
    requires Fair(a0, a, gs) && Near(a, gs, q) && Near(b, gs, q)
    requires forall g :: g in gs && Load(a, g) == q + 1 ==> Load(a0, g) >= q + 1
    ensures Sum(gs, g => Kept(a0, b, g)) <= Sum(gs, g => Kept(a0, a, g))
  {
    var base := g => Least(Load(a0, g), q) - q;
    forall g | g in gs
      ensures Kept(a0, a, g) == base(g) + Load(a, g)
      ensures Kept(a0, b, g) <= base(g) + Load(b, g)
    {
      FairKeeps(a0, a, gs, g);
      KeptAtMost(a0, b, g);
    }
    SumPlus(gs, base, g => Load(a, g), g => Kept(a0, a, g));
    var cap := g => base(g) + Load(b, g);
    SumMonotone(gs, g => Kept(a0, b, g), cap);
    SumPlus(gs, base, g => Load(b, g), cap);
    TotalLoad(a, gs);
    TotalLoad(b, gs);
  }

  /** If some group does, then no group has given a shard it could have kept. */
  lemma RichReceiver(a0: Assignment, a: Assignment, b: Assignment, gs: seq<Gid>, q: int, x: Gid)
    requires |a0| == |a| == |b|
    requires Fair(a0, a, gs) && Near(a, gs, q) && Near(b, gs, q)
    requires x in gs && Load(a, x) == q + 1 && Load(a0, x) <= q
    ensures Sum(gs, g => Kept(a0, b, g)) <= Sum(gs, g => Kept(a0, a, g))
  {
    FairKeeps(a0, a, gs, x);
    forall g | g in gs ensures Kept(a0, b, g) <= Kept(a0, a, g) {
      FairKeeps(a0, a, gs, g);
      KeptAtMost(a0, b, g);
      assert FairPair(a0, a, x, g);
    }
    SumMonotone(gs, g => Kept(a0, b, g), g => Kept(a0, a, g));
  }

  /** Minimal movement: no assignment of the shards to the same groups that is balanced
      changes the owner of fewer shards. */
  lemma MinimalMovement(a: Assignment, gs: seq<Gid>, b: Assignment)
    requires gs != [] && Increasing(gs) && |a| <= MAX_SHARDS
    requires |b| == |a| && OnGroups(b, gs) && Balanced(b, gs)
    ensures Moves(a, Rebalanced(a, gs)) <= Moves(a, b)
  {
    var r, q := Rebalanced(a, gs), |a| / |gs|;
    RebalancedIsFair(a, gs);
    RebalancedIsBalanced(a, gs);
    BalancedIsNear(r, gs);
    BalancedIsNear(b, gs);
    if x :| x in gs && Load(r, x) == q + 1 && Load(a, x) <= q {
      RichReceiver(a, r, b, gs, q, x);
    } else {
      NoRichReceiver(a, r, b, gs, q);
    }
    KeptAndMoved(a, r, gs);
    KeptAndMoved(a, b, gs);
  }

  /** An assignment that is already valid and balanced is left alone. */
  lemma BalancedStays(a: Assignment, gs: seq<Gid>)
    requires gs != [] && Increasing(gs) && |a| <= MAX_SHARDS && OnGroups(a, gs) && Balanced(a, gs)
    ensures Rebalanced(a, gs) == a
  {
    MinimalMovement(a, gs, a);
    MovesToItself(a);
    NoMoves(a, Rebalanced(a, gs));
  }

  lemma {:induction false} MovesToItself(a: Assignment)
    ensures Moves(a, a) == 0
  {
    if a != [] { MovesToItself(a[..|a| - 1]); }
  }

  lemma {:induction false} NoMoves(a: Assignment, b: Assignment)
    requires |a| == |b| && Moves(a, b) == 0
    ensures a == b
  {
    if a != [] {
      NoMoves(a[..|a| - 1], b[..|b| - 1]);
      assert a == a[..|a| - 1] + [a[|a| - 1]];
      assert b == b[..|b| - 1] + [b[|b| - 1]];
    }
  }

  // ---- Enumerating groups --------------------------------------------------------

  lemma {:induction false} HasLargest(groups: set<Gid>) returns (z: Gid)
    requires groups != {}
    ensures z in groups && forall h :: h in groups ==> h <= z
    decreases |groups|
  {
    var x := SomeMember(groups);
    var rest := groups - {x};
    assert forall h :: h in groups ==> h == x || h in rest;
    if rest == {} {
      z := x;
    } else {
      var y := HasLargest(rest);
      z := if x < y then y else x;
    }
  }

  ghost function Largest(groups: set<Gid>): (g: Gid)
    requires groups != {}
    ensures g in groups && forall h :: h in groups ==> h <= g
  {
    assert exists g :: g in groups && forall h :: h in groups ==> h <= g by {
      var z := HasLargest(groups);
    }
    var g :| g in groups && forall h :: h in groups ==> h <= g;
    g
  }

  /** The members of a set of group ids in increasing order. */
  ghost function IdsOf(groups: set<Gid>): (gs: seq<Gid>)
    ensures Increasing(gs)
    ensures forall g :: g in gs <==> g in groups
    ensures |gs| == |groups|
    decreases |groups|
  {
    if groups == {} then []
    else
      var g := Largest(groups);
      var rest := IdsOf(groups - {g});
      assert forall i :: 0 <= i < |rest| ==> rest[i] in rest;
      rest + [g]
  }

  /** There is only one way to put a set of ids in increasing order. */
  lemma {:induction false} IncreasingUnique(a: seq<Gid>, b: seq<Gid>)
    requires Increasing(a) && Increasing(b) && forall g :: g in a <==> g in b
    ensures a == b
  {
    if a == [] || b == [] {
      assert forall s: seq<Gid> :: |s| > 0 ==> s[0] in s;
    } else {
      var a', x, b', y := a[..|a| - 1], a[|a| - 1], b[..|b| - 1], b[|b| - 1];
      assert a == a' + [x] && b == b' + [y];
      assert x in a && y in b;
      assert x in b && y in a;
      assert x == y;
      forall g ensures g in a' <==> g in b' {
        assert g in a' <==> g in a && g != x;
        assert g in b' <==> g in b && g != y;
      }
      IncreasingUnique(a', b');
    }
  }
}
