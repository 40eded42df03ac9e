/** Runs of successful JoinBalance and LeaveBalance calls from the empty configuration. */
module ShardRuns {
  import opened Common
  import opened ShardLoads
  import opened ShardRebalance
  import opened ShardMinimal
  import opened ShardConfig

  datatype Op = JoinOp(servers: map<Gid, Servers>) | LeaveOp(gids: seq<Gid>)

  ghost predicate Can(c: Config, op: Op) {
    match op
    case JoinOp(servers) => CanJoin(c.groups, servers)
    case LeaveOp(gids) => CanLeave(c.groups, gids)
  }

  ghost function After(c: Config, op: Op): Config
    requires |c.shards| <= MAX_SHARDS
  {
    match op
    case JoinOp(servers) => Joined(c, servers)
    case LeaveOp(gids) => Left(c, gids)
  }

  /** One successful operation. */
  ghost predicate Next(c: Config, c': Config) {
    |c.shards| <= MAX_SHARDS && exists op :: Can(c, op) && c' == After(c, op)
  }

  ghost predicate StepAt(run: seq<Config>, k: nat)
    requires 0 < k < |run|
  {
    Next(run[k - 1], run[k])
  }

  /** `run[k]` is the configuration after `k` successful operations. */
  ghost predicate IsRun(n: nat, run: seq<Config>) {
    && n <= MAX_SHARDS
    && run != []
    && run[0] == Config(0, Zeros(n), map[])
    && forall k: nat :: 0 < k < |run| ==> StepAt(run, k)
  }

  /** The conditions the test suite checks of a configuration that should have the groups
      `expected`. Its running minimum and maximum amount to comparing every two loads. */
  ghost predicate CheckConfig(c: Config, expected: seq<Gid>) {
    && |c.groups| == |expected|
    && (forall g :: g in expected ==> g in c.groups)
    && (|expected| > 0 ==> forall s :: 0 <= s < |c.shards| ==> c.shards[s] in c.groups)
    && (forall g, h :: g in c.groups && h in c.groups ==> Load(c.shards, g) <= Load(c.shards, h) + 1)
  }

  ghost predicate AllZero(a: Assignment) {
    forall s :: 0 <= s < |a| ==> a[s] == 0
  }

  ghost predicate ConfigOk(c: Config) {
    && (c.groups != map[] ==> forall s :: 0 <= s < |c.shards| ==> c.shards[s] in c.groups)
    && (forall g, h :: g in c.groups && h in c.groups ==> Load(c.shards, g) <= Load(c.shards, h) + 1)
    && NamesApart(c.groups)
    && (c.groups == map[] ==> AllZero(c.shards))
  }

  lemma SettledOk(a: Assignment, groups: map<Gid, Servers>, num: nat)
    requires |a| <= MAX_SHARDS && NamesApart(groups)
    ensures var c := Config(num, Settled(a, groups.Keys), groups);
      ConfigOk(c) && |c.shards| == |a|
  {
    if groups.Keys == {} {
      assert groups == map[];
    } else {
      RebalancedIsBalanced(a, IdsOf(groups.Keys));
    }
  }

  lemma NamesAfterJoin(groups: map<Gid, Servers>, servers: map<Gid, Servers>)
    requires NamesApart(groups) && CanJoin(groups, servers)
    ensures NamesApart(groups + servers)
  {
    var all := groups + servers;
    forall g, h | g in all && h in all && g != h ensures Apart(all[g], all[h]) {
      if g in servers && h !in servers { assert Apart(groups[h], servers[g]); }
    }
  }

  lemma StepOk(c: Config, c': Config)
    requires ConfigOk(c) && Next(c, c')
    ensures ConfigOk(c') && |c'.shards| == |c.shards| && c'.num == c.num + 1
  {
    var op :| Can(c, op) && c' == After(c, op);
    if op.JoinOp? { NamesAfterJoin(c.groups, op.servers); }
    SettledOk(c.shards, c'.groups, c'.num);
  }

  lemma EmptyOk(n: nat)
    ensures ConfigOk(Config(0, Zeros(n), map[]))
  {
  }

  ghost predicate Good(c: Config, n: nat, k: nat) {
    ConfigOk(c) && c.num == k && |c.shards| == n
  }

  lemma GoodStep(n: nat, run: seq<Config>, k: nat)
    requires IsRun(n, run) && 0 < k < |run| && Good(run[k - 1], n, k - 1)
    ensures Good(run[k], n, k)
  {
    assert StepAt(run, k);
    StepOk(run[k - 1], run[k]);
  }

  lemma {:induction false} RunGood(n: nat, run: seq<Config>, k: nat)
    requires IsRun(n, run) && k < |run|
    ensures Good(run[k], n, k)
    decreases k
  {
    if k == 0 {
      EmptyOk(n);
    } else {
      RunGood(n, run, k - 1);
      GoodStep(n, run, k);
    }
  }

  /** Configuration runs: after any number of successful operations every checked condition
      holds for any list of the groups, no server name is in two groups, the number counts
      the operations, and the shards are all unassigned if no group is left. */
  lemma RunOk(n: nat, run: seq<Config>, k: nat, expected: seq<Gid>)
    requires IsRun(n, run) && k < |run|
    requires |expected| == |run[k].groups| && forall g :: g in expected ==> g in run[k].groups
    ensures CheckConfig(run[k], expected) && NamesApart(run[k].groups) && run[k].num == k
    ensures |run[k].shards| == n && (run[k].groups == map[] ==> AllZero(run[k].shards))
  {
    RunGood(n, run, k);
  }

  lemma {:induction false} LoadOfZero(a: Assignment)
    requires AllZero(a)
    ensures Load(a, 0) == |a|
  {
    if a != [] {
      LoadOfZero(a[..|a| - 1]);
      LoadOfLast(a, 0);
    }
  }

  /** Group id 0 is also the mark of an unassigned shard. As long as no group has that id, all
      shards are 0 exactly when no group is left. In general, with two shards or more, they are
      so exactly when no group is left or the group with id 0 is the only one. */
  lemma AllZeroExactly(n: nat, run: seq<Config>, k: nat)
    requires IsRun(n, run) && k < |run| && n >= 1
    ensures 0 !in run[k].groups ==> (AllZero(run[k].shards) <==> run[k].groups == map[])
    ensures n >= 2 ==> (AllZero(run[k].shards) <==> run[k].groups.Keys <= {0})
  {
    RunGood(n, run, k);
    var c := run[k];
    if c.groups.Keys <= {0} {
      if c.groups != map[] { SomeGroup(c.groups); }
    } else {
      var h := SomeMember(c.groups.Keys - {0});
      SomeGroup(c.groups);
      assert c.shards[0] in c.groups;
      if AllZero(c.shards) {
        LoadOfZero(c.shards);
        LoadIsPositive(c.shards, h);
      }
    }
  }

  /** So the shards can all be 0 while a group is present: a group with id 0 joins first. */
  lemma ZeroAsGroup(n: nat) returns (run: seq<Config>)
    requires 2 <= n <= MAX_SHARDS
    ensures IsRun(n, run) && |run| == 2
    ensures AllZero(run[1].shards) && run[1].groups != map[]
  {
    run := JoinZero(n);
    AllZeroExactly(n, run, 1);
  }

  lemma JoinZero(n: nat) returns (run: seq<Config>)
    requires 2 <= n <= MAX_SHARDS
    ensures IsRun(n, run) && |run| == 2 && run[1].groups == map[0 := ["x"]]
  {
    var servers: map<Gid, Servers> := map[0 := ["x"]];
    var c0 := Config(0, Zeros(n), map[]);
    assert 0 in servers && Can(c0, JoinOp(servers));
    var c1 := After(c0, JoinOp(servers));
    assert c0.groups + servers == servers;
    assert Next(c0, c1);
    run := [c0, c1];
    assert StepAt(run, 1);
  }

  /** With no more groups than shards, the groups that serve a shard are the members. */
  lemma MembersServe(n: nat, run: seq<Config>, k: nat, g: Gid)
    requires IsRun(n, run) && 0 < k < |run| && 1 <= |run[k].groups| <= n
    ensures g in run[k].shards <==> g in run[k].groups
  {
    RunGood(n, run, k - 1);
    RunGood(n, run, k);
    assert StepAt(run, k);
    var op :| Can(run[k - 1], op) && run[k] == After(run[k - 1], op);
    var groups := run[k].groups;
    assert |groups.Keys| == |groups|;
    RebalancedLoads(run[k - 1].shards, IdsOf(groups.Keys), g);
  }
}
