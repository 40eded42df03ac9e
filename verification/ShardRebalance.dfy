/** The greedy rebalancing of shards, on values: its result for every starting assignment
    and every non-empty set of groups, and what that result is worth. */
module ShardRebalance {
  import opened ShardLoads

  /** `analyze` starts its running minimum at 257, so it works for up to 256 shards. */
  const MAX_SHARDS := 256

  datatype Analysis = Analysis(mg: Gid, mn: int, lg: Gid, ln: int)

  /** One pass over the groups, keeping the most and the least loaded so far. */
  function Analyze(a: Assignment, gs: seq<Gid>): Analysis {
    if gs == [] then Analysis(-1, -1, -1, 257)
    else Consider(Analyze(a, gs[..|gs| - 1]), gs[|gs| - 1], Load(a, gs[|gs| - 1]))
  }

  function Consider(r: Analysis, g: Gid, n: nat): Analysis {
    var r' := if n < r.ln then r.(ln := n, lg := g) else r;
    if n > r.mn then r'.(mn := n, mg := g) else r'
  }

  ghost predicate IsLeast(a: Assignment, gs: seq<Gid>, g: Gid) {
    && g in gs
    && forall h :: h in gs ==> Load(a, g) <= Load(a, h) && (Load(a, g) == Load(a, h) ==> g <= h)
  }

  ghost predicate IsMost(a: Assignment, gs: seq<Gid>, g: Gid) {
    && g in gs
    && forall h :: h in gs ==> Load(a, h) <= Load(a, g) && (Load(a, g) == Load(a, h) ==> g <= h)
  }

  lemma {:induction false} AnalyzeFinds(a: Assignment, gs: seq<Gid>)
    requires gs != [] && Increasing(gs) && |a| <= MAX_SHARDS
    ensures var r := Analyze(a, gs);
      IsLeast(a, gs, r.lg) && IsMost(a, gs, r.mg) && r.ln == Load(a, r.lg) && r.mn == Load(a, r.mg)
  {
    var init, x := gs[..|gs| - 1], gs[|gs| - 1];
    assert gs == init + [x];
    if init == [] {
      AnalyzeOne(a, x);
    } else {
      LastIsLargest(gs);
      AnalyzeFinds(a, init);
      ConsiderFinds(a, init, x);
    }
  }

  lemma AnalyzeOne(a: Assignment, g: Gid)
    requires |a| <= MAX_SHARDS
    ensures Analyze(a, [g]) == Analysis(g, Load(a, g), g, Load(a, g))
  {
    LoadAtMost(a, g);
    assert [g][..0] == [];
  }

  lemma LastIsLargest(gs: seq<Gid>)
    requires gs != [] && Increasing(gs)
    ensures var init := gs[..|gs| - 1]; Increasing(init) && forall h :: h in init ==> h < gs[|gs| - 1]
  {
  }

  lemma ConsiderFinds(a: Assignment, init: seq<Gid>, x: Gid)
    requires forall h :: h in init ==> h < x
    requires var r := Analyze(a, init);
      IsLeast(a, init, r.lg) && IsMost(a, init, r.mg) && r.ln == Load(a, r.lg) && r.mn == Load(a, r.mg)
    ensures var r := Consider(Analyze(a, init), x, Load(a, x));
      && IsLeast(a, init + [x], r.lg) && IsMost(a, init + [x], r.mg)
      && r.ln == Load(a, r.lg) && r.mn == Load(a, r.mg)
  {
    assert forall h :: h in init + [x] <==> h in init || h == x;
  }

  lemma LoadAtMost(a: Assignment, g: Gid)
    ensures Load(a, g) <= |a|
  {
    assert |multiset(a)| == |a|;
    assert multiset(a)[g] <= |multiset(a)| by {
      var rest := multiset(a)[g := 0];
      assert multiset(a) == rest + multiset{}[g := multiset(a)[g]];
    }
  }

  // ---- Phase one: shards whose group is gone -------------------------------------

  /** Assigns every shard from `s` on whose group is not a member to the least loaded one. */
  function Fill(a: Assignment, gs: seq<Gid>, s: nat): (r: Assignment)
    requires s <= |a|
    ensures |r| == |a|
    decreases |a| - s
  {
    if s == |a| then a
    else Fill(if a[s] in gs then a else a[s := Analyze(a, gs).lg], gs, s + 1)
  }

  // ---- Phase two: moving shards from the most to the least loaded group ----------

  ghost predicate Ready(a: Assignment, gs: seq<Gid>) {
    gs != [] && Increasing(gs) && |a| <= MAX_SHARDS && OnGroups(a, gs)
  }

  predicate Uneven(a: Assignment, gs: seq<Gid>) {
    var r := Analyze(a, gs);
    r.mn >= r.ln + 2
  }

  /** The first shard on group `g`. */
  function FirstOn(a: Assignment, g: Gid): (s: nat)
    ensures s <= |a| && (g in a ==> s < |a| && a[s] == g && g !in a[..s])
  {
    if a == [] then 0 else if a[0] == g then 0 else 1 + FirstOn(a[1..], g)
  }

  lemma UnevenHasShard(a: Assignment, gs: seq<Gid>)
    requires Ready(a, gs) && Uneven(a, gs)
    ensures var r := Analyze(a, gs); r.mg in a && r.lg != r.mg
  {
    AnalyzeFinds(a, gs);
    LoadIsPositive(a, Analyze(a, gs).mg);
  }

  function Move(a: Assignment, gs: seq<Gid>): (r: Assignment)
    requires Ready(a, gs) && Uneven(a, gs)
    ensures |r| == |a|
  {
    UnevenHasShard(a, gs);
    var r := Analyze(a, gs);
    a[FirstOn(a, r.mg) := r.lg]
  }

  ghost function SquareLoad(a: Assignment): Gid -> int {
    g => Load(a, g) * Load(a, g)
  }

  /** The termination measure: the sum of the squares of the loads. */
  ghost function Unevenness(a: Assignment, gs: seq<Gid>): int {
    Sum(gs, SquareLoad(a))
  }

  lemma MoveLoads(a: Assignment, gs: seq<Gid>, h: Gid)
    requires Ready(a, gs) && Uneven(a, gs)
    ensures var r := Analyze(a, gs);
      Load(Move(a, gs), h) ==
      (if h == r.lg then Load(a, h) + 1 else if h == r.mg then Load(a, h) - 1 else Load(a, h))
    ensures Ready(Move(a, gs), gs)
  {
    UnevenHasShard(a, gs);
    AnalyzeFinds(a, gs);
    var r := Analyze(a, gs);
    LoadAfterMove(a, FirstOn(a, r.mg), r.lg, h);
  }

  lemma Squares(n: int)
    ensures (n + 1) * (n + 1) == n * n + 2 * n + 1
    ensures (n - 1) * (n - 1) == n * n - 2 * n + 1
  {
  }

  ghost function Change(r: Analysis, g: Gid): int {
    (if g == r.lg then 2 * r.ln + 1 else 0) + (if g == r.mg then 1 - 2 * r.mn else 0)
  }

  lemma MoveSquare(a: Assignment, gs: seq<Gid>, g: Gid)
    requires Ready(a, gs) && Uneven(a, gs)
    ensures SquareLoad(Move(a, gs))(g) == SquareLoad(a)(g) + Change(Analyze(a, gs), g)
  {
    AnalyzeFinds(a, gs);
    UnevenHasShard(a, gs);
    MoveLoads(a, gs, g);
    Squares(Load(a, g));
  }

  lemma SumOfChanges(r: Analysis, gs: seq<Gid>)
    requires Increasing(gs) && r.lg in gs && r.mg in gs
    ensures Sum(gs, g => Change(r, g)) == 2 * r.ln + 1 + (1 - 2 * r.mn)
  {
    var up := g => if g == r.lg then 2 * r.ln + 1 else 0;
    var down := g => if g == r.mg then 1 - 2 * r.mn else 0;
    SumAtOne(gs, r.lg, up);
    SumAtOne(gs, r.mg, down);
    SumPlus(gs, up, down, g => Change(r, g));
  }

  /** Each move lowers the sum of squares by 2 * (mn - ln - 1), which is at least 2. */
  lemma MoveLowers(a: Assignment, gs: seq<Gid>)
    requires Ready(a, gs) && Uneven(a, gs)
    ensures var r := Analyze(a, gs);
      Unevenness(Move(a, gs), gs) == Unevenness(a, gs) - 2 * (r.mn - r.ln - 1)
  {
    var r := Analyze(a, gs);
    AnalyzeFinds(a, gs);
    forall g ensures SquareLoad(Move(a, gs))(g) == SquareLoad(a)(g) + Change(r, g) {
      MoveSquare(a, gs, g);
    }
    SumOfChanges(r, gs);
    SumPlus(gs, SquareLoad(a), g => Change(r, g), SquareLoad(Move(a, gs)));
  }

  lemma {:induction false} UnevennessNotNegative(a: Assignment, gs: seq<Gid>)
    ensures Unevenness(a, gs) >= 0
  {
    SumConstant(gs, 0);
    SumMonotone(gs, g => 0, SquareLoad(a));
  }

  function Level(a: Assignment, gs: seq<Gid>): (r: Assignment)
    requires Ready(a, gs)
    ensures |r| == |a|
    decreases Unevenness(a, gs)
  {
    if !Uneven(a, gs) then a
    else
      MoveLoads(a, gs, 0);
      MoveLowers(a, gs);
      UnevennessNotNegative(a, gs);
      Level(Move(a, gs), gs)
  }

  lemma LevelStep(a: Assignment, gs: seq<Gid>)
    requires Ready(a, gs) && Uneven(a, gs)
    ensures Ready(Move(a, gs), gs) && Level(Move(a, gs), gs) == Level(a, gs)
    ensures 0 <= Unevenness(Move(a, gs), gs) < Unevenness(a, gs)
  {
    MoveLoads(a, gs, 0);
    MoveLowers(a, gs);
    UnevennessNotNegative(Move(a, gs), gs);
  }

  /** What `Rebalance` makes of an assignment when there is at least one group. */
  function Rebalanced(a: Assignment, gs: seq<Gid>): (r: Assignment)
    requires gs != [] && Increasing(gs) && |a| <= MAX_SHARDS
    ensures |r| == |a|
  {
    FillCovers(a, gs, 0);
    Level(Fill(a, gs, 0), gs)
  }

  lemma {:induction false} FillCovers(a: Assignment, gs: seq<Gid>, s: nat)
    requires gs != [] && Increasing(gs) && |a| <= MAX_SHARDS && s <= |a|
    requires forall t :: 0 <= t < s ==> a[t] in gs
    ensures OnGroups(Fill(a, gs, s), gs)
    decreases |a| - s
  {
    if s < |a| {
      AnalyzeFinds(a, gs);
      FillCovers(if a[s] in gs then a else a[s := Analyze(a, gs).lg], gs, s + 1);
    }
  }

  lemma FilledThenLevelled(a: Assignment, gs: seq<Gid>)
    requires gs != [] && Increasing(gs) && |a| <= MAX_SHARDS
    ensures Ready(Fill(a, gs, 0), gs) && Rebalanced(a, gs) == Level(Fill(a, gs, 0), gs)
  {
    FillCovers(a, gs, 0);
  }

  // ---- Givers and receivers ------------------------------------------------------

  ghost predicate Received(a0: Assignment, a: Assignment, g: Gid)
    requires |a| == |a0|
  {
    exists s :: 0 <= s < |a| && a[s] == g && a0[s] != g
  }

  ghost predicate Gave(a0: Assignment, a: Assignment, g: Gid)
    requires |a| == |a0|
  {
    exists s :: 0 <= s < |a| && a0[s] == g && a[s] != g
  }

  /** Receivers are among the least loaded, givers among the most loaded, and no receiver
      carries more than a giver. */
  ghost predicate FairPair(a0: Assignment, a: Assignment, g: Gid, h: Gid)
    requires |a| == |a0|
  {
    && (Received(a0, a, g) ==> Load(a, g) <= Load(a, h) + 1)
    && (Gave(a0, a, g) ==> Load(a, h) <= Load(a, g) + 1)
    && (Received(a0, a, g) && Gave(a0, a, h) ==> Load(a, g) <= Load(a, h))
  }

  ghost predicate Fair(a0: Assignment, a: Assignment, gs: seq<Gid>) {
    && |a| == |a0|
    && (forall g :: g in gs ==> !(Received(a0, a, g) && Gave(a0, a, g)))
    && (forall g, h :: g in gs && h in gs ==> FairPair(a0, a, g, h))
  }

  lemma ReceivedAfter(a0: Assignment, a: Assignment, s: nat, x: Gid, g: Gid)
    requires |a| == |a0| && s < |a| && a[s] != x && a0[s] != x
    ensures Received(a0, a[s := x], g) ==> g == x || Received(a0, a, g)
    ensures Received(a0, a[s := x], x)
    ensures Gave(a0, a[s := x], g) ==> g == a0[s] || Gave(a0, a, g)
  {
    var a' := a[s := x];
    assert a'[s] == x;
    if Received(a0, a', g) {
      var t :| 0 <= t < |a'| && a'[t] == g && a0[t] != g;
    }
    if Gave(a0, a', g) {
      var t :| 0 <= t < |a'| && a0[t] == g && a'[t] != g;
    }
  }

  // -- Phase one

  lemma FillEffect(a0: Assignment, a: Assignment, gs: seq<Gid>, s: nat, x: Gid, g: Gid)
    requires |a| == |a0| && s < |a| && a[s] == a0[s] && a[s] !in gs && x in gs && g in gs && !Gave(a0, a, g)
    ensures var a' := a[s := x];
      && !Gave(a0, a', g) && (Received(a0, a', g) ==> g == x || Received(a0, a, g))
      && Load(a', g) == if g == x then Load(a, g) + 1 else Load(a, g)
  {
    ReceivedAfter(a0, a, s, x, g);
    LoadAfterMove(a, s, x, g);
  }

  lemma FillStepFair(a0: Assignment, a: Assignment, gs: seq<Gid>, s: nat)
    requires gs != [] && Increasing(gs) && |a| <= MAX_SHARDS && Fair(a0, a, gs)
    requires s < |a| && a[s] == a0[s] && a[s] !in gs
    requires forall g :: g in gs ==> !Gave(a0, a, g)
    ensures var a' := a[s := Analyze(a, gs).lg];
      Fair(a0, a', gs) && forall g :: g in gs ==> !Gave(a0, a', g)
  {
    AnalyzeFinds(a, gs);
    var x := Analyze(a, gs).lg;
    var a' := a[s := x];
    forall g | g in gs ensures !Gave(a0, a', g) { FillEffect(a0, a, gs, s, x, g); }
    forall g, h | g in gs && h in gs ensures FairPair(a0, a', g, h) {
      FillEffect(a0, a, gs, s, x, g);
      FillEffect(a0, a, gs, s, x, h);
      assert FairPair(a0, a, g, h);
    }
  }

  lemma {:induction false} FillFair(a0: Assignment, a: Assignment, gs: seq<Gid>, s: nat)
    requires gs != [] && Increasing(gs) && |a| <= MAX_SHARDS && Fair(a0, a, gs)
    requires s <= |a| && forall t :: s <= t < |a| ==> a[t] == a0[t]
    requires forall g :: g in gs ==> !Gave(a0, a, g)
    ensures Fair(a0, Fill(a, gs, s), gs)
    decreases |a| - s
  {
    if s < |a| {
      if a[s] in gs {
        FillFair(a0, a, gs, s + 1);
      } else {
        FillStepFair(a0, a, gs, s);
        FillFair(a0, a[s := Analyze(a, gs).lg], gs, s + 1);
      }
    }
  }

  // -- Phase two

  /** A group loaded enough to give has never received, so it gives one of its own shards;
      a group loaded little enough to receive has never given. */
  lemma MoveRoles(a0: Assignment, a: Assignment, gs: seq<Gid>)
    requires Ready(a, gs) && Uneven(a, gs) && Fair(a0, a, gs)
    ensures var r := Analyze(a, gs);
      && !Received(a0, a, r.mg) && !Gave(a0, a, r.lg)
      && r.mg in a && a0[FirstOn(a, r.mg)] == r.mg && r.lg != r.mg
  {
    AnalyzeFinds(a, gs);
    UnevenHasShard(a, gs);
    var r := Analyze(a, gs);
    assert FairPair(a0, a, r.mg, r.lg) && FairPair(a0, a, r.lg, r.mg);
    var s := FirstOn(a, r.mg);
    assert a[s] == r.mg;
  }

  lemma MoveEffect(a0: Assignment, a: Assignment, gs: seq<Gid>, g: Gid)
    requires Ready(a, gs) && Uneven(a, gs) && Fair(a0, a, gs) && g in gs
    ensures var r, a' := Analyze(a, gs), Move(a, gs);
      && (Received(a0, a', g) ==> g == r.lg || Received(a0, a, g))
      && (Gave(a0, a', g) ==> g == r.mg || Gave(a0, a, g))
      && Load(a', g) ==
         (if g == r.lg then Load(a, g) + 1 else if g == r.mg then Load(a, g) - 1 else Load(a, g))
      && r.ln <= Load(a, g) <= r.mn
      && (Received(a0, a, g) ==> Load(a, g) <= r.ln + 1)
      && (Gave(a0, a, g) ==> r.mn <= Load(a, g) + 1)
  {
    var r := Analyze(a, gs);
    AnalyzeFinds(a, gs);
    MoveRoles(a0, a, gs);
    ReceivedAfter(a0, a, FirstOn(a, r.mg), r.lg, g);
    MoveLoads(a, gs, g);
    assert FairPair(a0, a, g, r.lg) && FairPair(a0, a, g, r.mg);
  }

  lemma MovePair(a0: Assignment, a: Assignment, gs: seq<Gid>, g: Gid, h: Gid)
    requires Ready(a, gs) && Uneven(a, gs) && Fair(a0, a, gs) && g in gs && h in gs
    ensures FairPair(a0, Move(a, gs), g, h)
  {
    AnalyzeFinds(a, gs);
    MoveEffect(a0, a, gs, g);
    MoveEffect(a0, a, gs, h);
    MoveRoles(a0, a, gs);
    assert FairPair(a0, a, g, h);
  }

  lemma MoveFair(a0: Assignment, a: Assignment, gs: seq<Gid>)
    requires Ready(a, gs) && Uneven(a, gs) && Fair(a0, a, gs)
    ensures Fair(a0, Move(a, gs), gs)
  {
    MoveRoles(a0, a, gs);
    forall g | g in gs ensures !(Received(a0, Move(a, gs), g) && Gave(a0, Move(a, gs), g)) {
      MoveEffect(a0, a, gs, g);
    }
    forall g, h | g in gs && h in gs ensures FairPair(a0, Move(a, gs), g, h) {
      MovePair(a0, a, gs, g, h);
    }
  }

  lemma {:induction false} LevelFair(a0: Assignment, a: Assignment, gs: seq<Gid>)
    requires Ready(a, gs) && Fair(a0, a, gs)
    ensures var r := Level(a, gs); Ready(r, gs) && Fair(a0, r, gs) && !Uneven(r, gs)
    decreases Unevenness(a, gs)
  {
    if Uneven(a, gs) {
      MoveLoads(a, gs, 0);
      MoveLowers(a, gs);
      UnevennessNotNegative(a, gs);
      MoveFair(a0, a, gs);
      LevelFair(a0, Move(a, gs), gs);
    }
  }

  // ---- The result is valid and balanced ------------------------------------------

  lemma RebalancedIsFair(a: Assignment, gs: seq<Gid>)
    requires gs != [] && Increasing(gs) && |a| <= MAX_SHARDS
    ensures Fair(a, Rebalanced(a, gs), gs)
    ensures OnGroups(Rebalanced(a, gs), gs) && !Uneven(Rebalanced(a, gs), gs)
  {
    FillCovers(a, gs, 0);
    FillFair(a, a, gs, 0);
    LevelFair(a, Fill(a, gs, 0), gs);
  }

  /** Every shard ends on a member group and loads differ by at most one. */
  lemma RebalancedIsBalanced(a: Assignment, gs: seq<Gid>)
    requires gs != [] && Increasing(gs) && |a| <= MAX_SHARDS
    ensures OnGroups(Rebalanced(a, gs), gs) && Balanced(Rebalanced(a, gs), gs)
  {
    RebalancedIsFair(a, gs);
    AnalyzeFinds(Rebalanced(a, gs), gs);
  }

  /** Every group ends with the floor or the ceiling of N / G shards. With no more groups
      than shards, the groups that serve some shard are then exactly the members. */
  lemma RebalancedLoads(a: Assignment, gs: seq<Gid>, g: Gid)
    requires gs != [] && Increasing(gs) && |a| <= MAX_SHARDS
    ensures var r := Rebalanced(a, gs);
      && (g in gs ==> |a| / |gs| <= Load(r, g) <= (|a| + |gs| - 1) / |gs|)
      && (|gs| <= |a| ==> (g in r <==> g in gs))
  {
    var r := Rebalanced(a, gs);
    RebalancedIsBalanced(a, gs);
    LoadIsPositive(r, g);
    if g in gs {
      ExactLoads(r, gs, g);
    }
    if |gs| <= |a| {
      AtLeastOneEach(|a|, |gs|);
    }
  }

  lemma AtLeastOneEach(n: int, d: int)
    requires 0 < d <= n
    ensures n / d >= 1
  {
  }

  // ---- The two loops, step by step -----------------------------------------------

  /** Shard `t` keeps its group if that is a member, and otherwise goes to the group that is the
      least loaded when the shards before it have been assigned. */
  ghost predicate FilledAt(a: Assignment, gs: seq<Gid>, r: Assignment, t: nat)
    requires t < |a| == |r|
  {
    if a[t] in gs then r[t] == a[t] else IsLeast(r[..t] + a[t..], gs, r[t])
  }

  lemma {:induction false} FillKeepsStart(a: Assignment, gs: seq<Gid>, s: nat)
    requires s <= |a|
    ensures Fill(a, gs, s)[..s] == a[..s]
    decreases |a| - s
  {
    if s < |a| {
      var a' := if a[s] in gs then a else a[s := Analyze(a, gs).lg];
      FillKeepsStart(a', gs, s + 1);
      assert Fill(a', gs, s + 1)[..s + 1][..s] == Fill(a', gs, s + 1)[..s] && a'[..s + 1][..s] == a[..s];
    }
  }

  lemma FillsFirst(a: Assignment, gs: seq<Gid>, s: nat)
    requires gs != [] && Increasing(gs) && |a| <= MAX_SHARDS && s < |a|
    ensures FilledAt(a, gs, Fill(a, gs, s), s)
  {
    var a' := if a[s] in gs then a else a[s := Analyze(a, gs).lg];
    var r := Fill(a', gs, s + 1);
    AnalyzeFinds(a, gs);
    FillKeepsStart(a', gs, s + 1);
    FillKeepsStart(a, gs, s);
    assert r[s] == r[..s + 1][s] == a'[..s + 1][s];
    assert r[..s] + a[s..] == a;
  }

  lemma {:induction false} FillsFrom(a: Assignment, gs: seq<Gid>, s: nat)
    requires gs != [] && Increasing(gs) && |a| <= MAX_SHARDS && s <= |a|
    ensures forall t: nat :: s <= t < |a| ==> FilledAt(a, gs, Fill(a, gs, s), t)
    decreases |a| - s
  {
    if s < |a| {
      var a' := if a[s] in gs then a else a[s := Analyze(a, gs).lg];
      var r := Fill(a', gs, s + 1);
      FillsFrom(a', gs, s + 1);
      FillsFirst(a, gs, s);
      forall t: nat | s < t < |a| ensures FilledAt(a, gs, r, t) {
        assert FilledAt(a', gs, r, t);
        assert a'[t..] == a[t..];
      }
    }
  }

  /** The first loop assigns the orphaned shards one after the other from the first on. */
  lemma FillsInOrder(a: Assignment, gs: seq<Gid>, t: nat)
    requires gs != [] && Increasing(gs) && |a| <= MAX_SHARDS && t < |a|
    ensures FilledAt(a, gs, Fill(a, gs, 0), t)
  {
    FillsFrom(a, gs, 0);
  }

  /** The first shard of group `g`, the most loaded, goes to group `h`, the least loaded, which
      has at least two shards less. */
  ghost predicate MovesShard(a: Assignment, gs: seq<Gid>, a': Assignment, s: nat, g: Gid, h: Gid) {
    && IsMost(a, gs, g) && IsLeast(a, gs, h) && Load(a, g) >= Load(a, h) + 2
    && s < |a| && a[s] == g && g !in a[..s] && a' == a[s := h]
  }

  ghost predicate IsMove(a: Assignment, gs: seq<Gid>, a': Assignment) {
    exists s: nat, g: Gid, h: Gid :: MovesShard(a, gs, a', s, g, h)
  }

  lemma MoveIsUnique(a: Assignment, gs: seq<Gid>, b: Assignment, c: Assignment)
    requires IsMove(a, gs, b) && IsMove(a, gs, c)
    ensures b == c
  {
    forall x: nat, y: nat | x < y < |a| ensures a[x] in a[..y] { assert a[..y][x] == a[x]; }
    var s: nat, g: Gid, h: Gid :| MovesShard(a, gs, b, s, g, h);
    var t: nat, g': Gid, h': Gid :| MovesShard(a, gs, c, t, g', h');
    assert g == g' && h == h';
  }

  lemma MoveIsMove(a: Assignment, gs: seq<Gid>)
    requires Ready(a, gs) && Uneven(a, gs)
    ensures IsMove(a, gs, Move(a, gs))
  {
    AnalyzeFinds(a, gs);
    UnevenHasShard(a, gs);
    var r := Analyze(a, gs);
    assert MovesShard(a, gs, Move(a, gs), FirstOn(a, r.mg), r.mg, r.lg);
  }

  ghost predicate MovesAt(trace: seq<Assignment>, gs: seq<Gid>, k: nat)
    requires 0 < k < |trace|
  {
    IsMove(trace[k - 1], gs, trace[k])
  }

  /** The second loop makes one such move after the other, each the only one possible, until
      the loads are balanced. */
  lemma {:induction false} LevelsByMoves(a: Assignment, gs: seq<Gid>) returns (trace: seq<Assignment>)
    requires Ready(a, gs)
    ensures trace != [] && trace[0] == a && trace[|trace| - 1] == Level(a, gs)
    ensures forall k: nat :: 0 < k < |trace| ==> MovesAt(trace, gs, k)
    ensures Balanced(Level(a, gs), gs)
    decreases Unevenness(a, gs)
  {
    if Uneven(a, gs) {
      LevelStep(a, gs);
      MoveIsMove(a, gs);
      var rest := LevelsByMoves(Move(a, gs), gs);
      trace := [a] + rest;
      forall k: nat | 0 < k < |trace| ensures MovesAt(trace, gs, k) {
        if k > 1 { assert MovesAt(rest, gs, k - 1); }
      }
    } else {
      trace := [a];
      AnalyzeFinds(a, gs);
    }
  }
}
