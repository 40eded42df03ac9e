/** Assignments of shards to groups, the loads they put on groups, and sums over groups. */
module ShardLoads {

  type Gid = int

  /** Shard number to the group that serves it. */
  type Assignment = seq<Gid>

  function Load(a: Assignment, g: Gid): nat {
    multiset(a)[g]
  }

  /** Group ids in increasing order, as `slices.Sort` leaves them. */
  predicate Increasing(gs: seq<Gid>) {
    forall i, j :: 0 <= i < j < |gs| ==> gs[i] < gs[j]
  }

  predicate OnGroups(a: Assignment, gs: seq<Gid>) {
    forall s :: 0 <= s < |a| ==> a[s] in gs
  }

  /** Loads of any two groups differ by at most one. */
  predicate Balanced(a: Assignment, gs: seq<Gid>) {
    forall g, h :: g in gs && h in gs ==> Load(a, g) <= Load(a, h) + 1
  }

  lemma LoadAfterMove(a: Assignment, s: nat, g: Gid, h: Gid)
    requires s < |a| && a[s] != g
    ensures Load(a[s := g], h) ==
      (if h == g then Load(a, h) + 1 else if h == a[s] then Load(a, h) - 1 else Load(a, h))
  {
  }

  lemma {:induction false} LoadIsPositive(a: Assignment, g: Gid)
    ensures Load(a, g) > 0 <==> g in a
  {
  }

  // ---- Sums over groups ----------------------------------------------------------

  function Sum(gs: seq<Gid>, f: Gid -> int): int {
    if gs == [] then 0 else Sum(gs[..|gs| - 1], f) + f(gs[|gs| - 1])
  }

  lemma {:induction false} SumMonotone(gs: seq<Gid>, f: Gid -> int, h: Gid -> int)
    requires forall g :: g in gs ==> f(g) <= h(g)
    ensures Sum(gs, f) <= Sum(gs, h)
  {
    if gs != [] {
      var init, x := gs[..|gs| - 1], gs[|gs| - 1];
      assert forall g :: g in init ==> g in gs;
      SumMonotone(init, f, h);
      assert x in gs && f(x) <= h(x);
    }
  }

  lemma {:induction false} SumPlus(gs: seq<Gid>, f: Gid -> int, d: Gid -> int, h: Gid -> int)
    requires forall g :: g in gs ==> h(g) == f(g) + d(g)
    ensures Sum(gs, h) == Sum(gs, f) + Sum(gs, d)
  {
    if gs != [] {
      var init, x := gs[..|gs| - 1], gs[|gs| - 1];
      assert forall g :: g in init ==> g in gs;
      SumPlus(init, f, d, h);
      assert x in gs && h(x) == f(x) + d(x);
    }
  }

  lemma {:induction false} SumConstant(gs: seq<Gid>, c: int)
    ensures Sum(gs, g => c) == |gs| * c
  {
    if gs != [] {
      SumConstant(gs[..|gs| - 1], c);
      SumMonotone(gs[..|gs| - 1], g => c, g => c);
    }
  }

  /** The sum of a function that is zero except at one group. */
  lemma {:induction false} SumAtOne(gs: seq<Gid>, x: Gid, f: Gid -> int)
    requires Increasing(gs) && forall g :: g != x ==> f(g) == 0
    ensures Sum(gs, f) == if x in gs then f(x) else 0
  {
    if gs != [] {
      var init := gs[..|gs| - 1];
      SumAtOne(init, x, f);
      assert gs == init + [gs[|gs| - 1]];
      assert gs[|gs| - 1] !in init;
    }
  }

  /** The loads of all groups add up to the number of shards. */
  lemma {:induction false} TotalLoad(a: Assignment, gs: seq<Gid>)
    requires Increasing(gs) && OnGroups(a, gs)
    ensures Sum(gs, g => Load(a, g)) == |a|
  {
    if a == [] {
      SumConstant(gs, 0);
      SumMonotone(gs, g => Load(a, g), g => 0);
      SumMonotone(gs, g => 0, g => Load(a, g));
    } else {
      var init, x := a[..|a| - 1], a[|a| - 1];
      assert a == init + [x];
      TotalLoad(init, gs);
      SumAtOne(gs, x, g => if g == x then 1 else 0);
      SumPlus(gs, g => Load(init, g), g => if g == x then 1 else 0, g => Load(a, g));
    }
  }

  // ---- Exact loads of a balanced assignment --------------------------------------

  lemma AtLeastOnce(d: int, k: int)
    requires d > 0
    ensures k >= 1 ==> d * k >= d
    ensures k <= -1 ==> d * k <= -d
  {
  }

  lemma DivisionUnique(n: int, d: int, q: int)
    requires d > 0 && d * q <= n < d * q + d
    ensures n / d == q
  {
    var k := n / d - q;
    assert n == d * (n / d) + n % d;
    assert d * (n / d) == d * q + d * k;
    AtLeastOnce(d, k);
  }

  lemma ExactDivision(n: int, d: int, q: int)
    requires d > 0 && n / d == q && n % d == 0
    ensures n == d * q
  {
  }

  /** Every group of a balanced assignment carries the floor or the ceiling of N / G. */
  lemma ExactLoads(a: Assignment, gs: seq<Gid>, g: Gid)
    requires Increasing(gs) && OnGroups(a, gs) && Balanced(a, gs) && g in gs
    ensures |a| / |gs| <= Load(a, g) <= (|a| + |gs| - 1) / |gs|
    ensures Load(a, g) <= |a| / |gs| + 1
  {
    var lo := LowestLoad(a, gs);
    LowestIsFloor(a, gs, lo);
    Ceiling(|a|, |gs|);
    if |a| % |gs| == 0 {
      AllAtFloor(a, gs, lo, g);
    }
  }

  lemma Ceiling(n: int, d: int)
    requires d > 0
    ensures (n + d - 1) / d == if n % d == 0 then n / d else n / d + 1
  {
    var q := n / d;
    assert n == d * q + n % d;
    if n % d == 0 {
      DivisionUnique(n + d - 1, d, q);
    } else {
      assert d * (q + 1) == d * q + d;
      DivisionUnique(n + d - 1, d, q + 1);
    }
  }

  lemma {:induction false} LowestLoad(a: Assignment, gs: seq<Gid>) returns (lo: Gid)
    requires gs != []
    ensures lo in gs && forall g :: g in gs ==> Load(a, lo) <= Load(a, g)
  {
    if |gs| == 1 {
      lo := gs[0];
    } else {
      var init, x := gs[..|gs| - 1], gs[|gs| - 1];
      assert gs == init + [x];
      lo := LowestLoad(a, init);
      if Load(a, x) < Load(a, lo) { lo := x; }
    }
  }

  /** With lowest load m at `lo`, the total is at least G * m, and less than G * (m + 1). */
  lemma LowestIsFloor(a: Assignment, gs: seq<Gid>, lo: Gid)
    requires Increasing(gs) && OnGroups(a, gs) && Balanced(a, gs)
    requires lo in gs && forall g :: g in gs ==> Load(a, lo) <= Load(a, g)
    ensures |a| / |gs| == Load(a, lo)
  {
    var m := Load(a, lo);
    AtLeastFloor(a, gs, m);
    BelowNext(a, gs, lo, m);
    assert |gs| * (m + 1) == |gs| * m + |gs|;
    DivisionUnique(|a|, |gs|, m);
  }

  lemma AtLeastFloor(a: Assignment, gs: seq<Gid>, m: int)
    requires Increasing(gs) && OnGroups(a, gs) && forall g :: g in gs ==> m <= Load(a, g)
    ensures |gs| * m <= |a|
  {
    TotalLoad(a, gs);
    SumConstant(gs, m);
    SumMonotone(gs, g => m, g => Load(a, g));
  }

  lemma BelowNext(a: Assignment, gs: seq<Gid>, lo: Gid, m: int)
    requires Increasing(gs) && OnGroups(a, gs) && lo in gs && Load(a, lo) == m
    requires forall g :: g in gs ==> Load(a, g) <= m + 1
    ensures |a| < |gs| * (m + 1)
  {
    TotalLoad(a, gs);
    SumConstant(gs, m + 1);
    SumAtOne(gs, lo, g => if g == lo then -1 else 0);
    var cap := g => m + 1 + if g == lo then -1 else 0;
    SumPlus(gs, g => m + 1, g => if g == lo then -1 else 0, cap);
    SumMonotone(gs, g => Load(a, g), cap);
  }

  /** When G divides N, no group carries more than N / G. */
  lemma AllAtFloor(a: Assignment, gs: seq<Gid>, lo: Gid, g: Gid)
    requires Increasing(gs) && OnGroups(a, gs) && lo in gs && g in gs
    requires |a| % |gs| == 0 && |a| / |gs| == Load(a, lo)
    requires forall h :: h in gs ==> Load(a, lo) <= Load(a, h)
    ensures Load(a, g) == Load(a, lo)
  {
    var m, d := Load(a, lo), Load(a, g) - Load(a, lo);
    TotalLoad(a, gs);
    SumConstant(gs, m);
    SumAtOne(gs, g, h => if h == g then d else 0);
    var floor := h => m + if h == g then d else 0;
    SumPlus(gs, h => m, h => if h == g then d else 0, floor);
    SumMonotone(gs, floor, h => Load(a, h));
    ExactDivision(|a|, |gs|, m);
  }
}
