/** The shard configuration object: its groups, its shard array and the operations that
    change them in place. */
module ShardConfig {
  import opened Common
  import opened ShardLoads
  import opened ShardRebalance
  import opened ShardMinimal

  type Servers = seq<string>

  /** How Join and Leave end: they return true, they return false, or they stop the process. */
  datatype Outcome = Done | Refused | Fatal

  // ---- Server names --------------------------------------------------------------

  predicate Apart(xs: Servers, ys: Servers) {
    forall s :: s in xs ==> s !in ys
  }

  /** No server name is listed for two different groups. */
  predicate NamesApart(groups: map<Gid, Servers>) {
    forall g, h :: g in groups && h in groups && g != h ==> Apart(groups[g], groups[h])
  }

  method ShareName(xs: Servers, ys: Servers) returns (b: bool)
    ensures b <==> !Apart(xs, ys)
  {
    b := false;
    var i := 0;
    while i < |xs|
      invariant 0 <= i <= |xs|
      invariant b <==> exists k :: 0 <= k < i && xs[k] in ys
    {
      var j := 0;
      while j < |ys|
        invariant 0 <= j <= |ys|
        invariant b <==> (exists k :: 0 <= k < i && xs[k] in ys) || xs[i] in ys[..j]
      {
        if xs[i] == ys[j] {
          b := true;
        }
        assert ys[..j + 1] == ys[..j] + [ys[j]];
        j := j + 1;
      }
      assert ys[..j] == ys;
      i := i + 1;
    }
    assert forall s :: s in xs <==> exists k :: 0 <= k < |xs| && xs[k] == s;
  }

  /** Whether some group already lists one of the names. */
  method NameTaken(groups: map<Gid, Servers>, servers: Servers) returns (b: bool)
    ensures b <==> exists x :: x in groups && !Apart(groups[x], servers)
  {
    b := false;
    var rest := groups.Keys;
    while rest != {}
      invariant rest <= groups.Keys
      invariant b <==> exists x :: x in groups && x !in rest && !Apart(groups[x], servers)
      decreases |rest|
    {
      ghost var member := SomeMember(rest);
      var x :| x in rest;
      var shared := ShareName(groups[x], servers);
      b := b || shared;
      rest := rest - {x};
    }
  }

  // ---- Sorting ids ---------------------------------------------------------------

  ghost predicate Distinct(ids: seq<Gid>) {
    forall i, j :: 0 <= i < j < |ids| ==> ids[i] != ids[j]
  }

  method InsertId(r: seq<Gid>, x: Gid) returns (r': seq<Gid>)
    requires Increasing(r) && x !in r
    ensures Increasing(r') && forall g :: g in r' <==> g in r || g == x
  {
    var j := 0;
    while j < |r| && r[j] < x
      invariant 0 <= j <= |r|
      invariant forall k :: 0 <= k < j ==> r[k] < x
    {
      j := j + 1;
    }
    r' := r[..j] + [x] + r[j..];
    InsertedId(r, x, j);
  }

  lemma InsertedId(r: seq<Gid>, x: Gid, j: nat)
    requires Increasing(r) && x !in r && j <= |r|
    requires (forall k :: 0 <= k < j ==> r[k] < x) && (j < |r| ==> r[j] >= x)
    ensures var r' := r[..j] + [x] + r[j..]; Increasing(r') && forall g :: g in r' <==> g in r || g == x
  {
    assert r == r[..j] + r[j..];
    assert forall k :: j <= k < |r| ==> r[k] > x by {
      if j < |r| { assert r[j] in r; }
    }
  }

  method SortIds(ids: seq<Gid>) returns (r: seq<Gid>)
    requires Distinct(ids)
    ensures Increasing(r) && forall g :: g in r <==> g in ids
  {
    r := [];
    var i := 0;
    while i < |ids|
      invariant 0 <= i <= |ids|
      invariant Increasing(r) && forall g :: g in r <==> g in ids[..i]
    {
      assert ids[..i + 1] == ids[..i] + [ids[i]];
      r := InsertId(r, ids[i]);
      i := i + 1;
    }
    assert ids[..i] == ids;
  }

  /** The keys of a map in whatever order it yields them. */
  method KeysInSomeOrder(groups: map<Gid, Servers>) returns (ids: seq<Gid>)
    ensures Distinct(ids) && forall g :: g in ids <==> g in groups
  {
    ids := [];
    var rest := groups.Keys;
    while rest != {}
      invariant Distinct(ids) && rest <= groups.Keys
      invariant forall g :: g in ids <==> g in groups && g !in rest
      decreases |rest|
    {
      ghost var member := SomeMember(rest);
      var k :| k in rest;
      ids := ids + [k];
      rest := rest - {k};
    }
  }

  method GroupIds(groups: map<Gid, Servers>) returns (r: seq<Gid>)
    ensures r == IdsOf(groups.Keys)
  {
    var ids := KeysInSomeOrder(groups);
    r := SortIds(ids);
    IncreasingUnique(r, IdsOf(groups.Keys));
  }

  // ---- Configurations as values --------------------------------------------------

  datatype Config = Config(num: nat, shards: Assignment, groups: map<Gid, Servers>)

  ghost function Zeros(n: nat): Assignment {
    seq(n, i => 0)
  }

  ghost function Settled(a: Assignment, groups: set<Gid>): Assignment
    requires |a| <= MAX_SHARDS
  {
    if groups == {} then Zeros(|a|) else Rebalanced(a, IdsOf(groups))
  }

  /** A Join succeeds exactly when it adds something, every group is new, and no name is
      listed for two groups, old or new. */
  ghost predicate CanJoin(groups: map<Gid, Servers>, servers: map<Gid, Servers>) {
    && servers != map[]
    && groups.Keys !! servers.Keys
    && (forall g, x :: g in servers && x in groups ==> Apart(groups[x], servers[g]))
    && NamesApart(servers)
  }

  /** A Leave succeeds exactly when it names some groups, each of them present, each once. */
  ghost predicate CanLeave(groups: map<Gid, Servers>, gids: seq<Gid>) {
    gids != [] && Distinct(gids) && forall i :: 0 <= i < |gids| ==> gids[i] in groups
  }

  /** Leaving in list order gets past the first `i` groups and no further. */
  ghost predicate LeavesUpTo(groups: map<Gid, Servers>, gids: seq<Gid>, i: int) {
    && 0 <= i <= |gids|
    && Distinct(gids[..i]) && (forall j :: 0 <= j < i ==> gids[j] in groups)
    && (i < |gids| ==> gids[i] !in groups || gids[i] in gids[..i])
  }

  /** Some of the groups in `servers`, which do not clash, have been added. */
  ghost predicate PartlyJoined(before: map<Gid, Servers>, servers: map<Gid, Servers>, after: map<Gid, Servers>) {
    exists ids :: NoClash(before, servers, ids) && after == before + Part(servers, ids)
  }

  ghost function Joined(c: Config, servers: map<Gid, Servers>): Config
    requires |c.shards| <= MAX_SHARDS
  {
    var groups := c.groups + servers;
    Config(c.num + 1, Settled(c.shards, groups.Keys), groups)
  }

  ghost function Left(c: Config, gids: seq<Gid>): Config
    requires |c.shards| <= MAX_SHARDS
  {
    var groups := c.groups - set g | g in gids;
    Config(c.num + 1, Settled(c.shards, groups.Keys), groups)
  }

  /** The pass of `analyze` over the sorted groups. */
  method ScanGroups(counts: map<Gid, nat>, gs: seq<Gid>, ghost a: Assignment)
    returns (mg: Gid, mn: int, lg: Gid, ln: int)
    requires forall g :: (if g in counts then counts[g] else 0) == Load(a, g)
    ensures Analysis(mg, mn, lg, ln) == Analyze(a, gs)
  {
    mn, mg, ln, lg := -1, -1, 257, -1;
    var i := 0;
    while i < |gs|
      invariant 0 <= i <= |gs|
      invariant Analysis(mg, mn, lg, ln) == Analyze(a, gs[..i])
    {
      var g := gs[i];
      var count := if g in counts then counts[g] else 0;
      if count < ln {
        ln, lg := count, g;
      }
      if count > mn {
        mn, mg := count, g;
      }
      assert gs[..i + 1][..i] == gs[..i];
      i := i + 1;
    }
    assert gs[..i] == gs;
  }

  // ---- The configuration object --------------------------------------------------

  class ShardConfig {
    var num: nat
    const shards: array<Gid>
    var groups: map<Gid, Servers>

    ghost predicate Valid() {
      1 <= shards.Length <= MAX_SHARDS
    }

    ghost function State(): Config
      reads this, shards
    {
      Config(num, shards[..], groups)
    }

    /** MakeShardConfig, for `n` shards. */
    constructor (n: nat)
      requires 1 <= n <= MAX_SHARDS
      ensures Valid() && shards.Length == n && fresh(shards)
      ensures State() == Config(0, Zeros(n), map[])
    {
      num := 0;
      groups := map[];
      shards := new Gid[n](i => 0);
      new;
      assert shards[..] == Zeros(n);
    }

    method CountShards() returns (counts: map<Gid, nat>)
      ensures forall g :: (if g in counts then counts[g] else 0) == Load(shards[..], g)
    {
      counts := map[];
      var i := 0;
      while i < shards.Length
        invariant 0 <= i <= shards.Length
        invariant forall g :: (if g in counts then counts[g] else 0) == Load(shards[..i], g)
      {
        var g := shards[i];
        counts := counts[g := (if g in counts then counts[g] else 0) + 1];
        assert shards[..i + 1] == shards[..i] + [g];
        i := i + 1;
      }
      assert shards[..i] == shards[..];
    }

    /** The most and the least loaded group, smallest id first among equals. */
    method Analyze() returns (mg: Gid, mn: int, lg: Gid, ln: int)
      ensures Analysis(mg, mn, lg, ln) == ShardRebalance.Analyze(shards[..], IdsOf(groups.Keys))
    {
      var counts := CountShards();
      var gs := GroupIds(groups);
      mg, mn, lg, ln := ScanGroups(counts, gs, shards[..]);
    }

    method Least() returns (lg: Gid)
      ensures lg == ShardRebalance.Analyze(shards[..], IdsOf(groups.Keys)).lg
    {
      var mg, mn, ln;
      mg, mn, lg, ln := Analyze();
    }

    method ClearShards()
      modifies shards
      ensures shards[..] == Zeros(shards.Length)
    {
      var s := 0;
      while s < shards.Length
        invariant 0 <= s <= shards.Length
        invariant forall t :: 0 <= t < s ==> shards[t] == 0
      {
        shards[s] := 0;
        s := s + 1;
      }
    }

    method FillOne(s: nat)
      requires s < shards.Length
      modifies shards
      ensures var a, gs := old(shards[..]), IdsOf(groups.Keys);
        shards[..] ==
        if a[s] in gs then a else a[s := ShardRebalance.Analyze(a, gs).lg]
    {
      if shards[s] !in groups {
        var lg := Least();
        shards[s] := lg;
      }
    }

    /** Assigns the shards whose group is gone. */
    method FillShards()
      modifies shards
      ensures shards[..] == Fill(old(shards[..]), IdsOf(groups.Keys), 0)
    {
      ghost var gs := IdsOf(groups.Keys);
      var s := 0;
      while s < shards.Length
        invariant 0 <= s <= shards.Length
        invariant Fill(shards[..], gs, s) == Fill(old(shards[..]), gs, 0)
      {
        FillOne(s);
        s := s + 1;
      }
    }

    /** Moves the first shard of group `mg` to group `lg`. */
    method MoveOne(mg: Gid, lg: Gid)
      requires mg in shards[..]
      modifies shards
      ensures shards[..] == old(shards[..])[FirstOn(old(shards[..]), mg) := lg]
    {
      ghost var before := shards[..];
      var s := 0;
      while s < shards.Length
        invariant 0 <= s <= shards.Length && shards[..] == before
        invariant mg !in before[..s] && mg in before[s..]
      {
        if shards[s] == mg {
          FirstIs(before, mg, s);
          shards[s] := lg;
          assert shards[..] == before[s := lg];
          return;
        }
        assert before[..s + 1] == before[..s] + [before[s]];
        assert before[s..] == [before[s]] + before[s + 1..];
        s := s + 1;
      }
      assert false;
    }

    /** Moves shards until no two groups differ by two or more. */
    method LevelShards()
      requires Valid() && groups != map[] && OnGroups(shards[..], IdsOf(groups.Keys))
      modifies shards
      ensures shards[..] == Level(old(shards[..]), IdsOf(groups.Keys))
    {
      ghost var gs := IdsOf(groups.Keys);
      SomeGroup(groups);
      while true
        invariant Ready(shards[..], gs)
        invariant Level(shards[..], gs) == Level(old(shards[..]), gs)
        decreases Unevenness(shards[..], gs)
      {
        var mg, mn, lg, ln := Analyze();
        if mn < ln + 2 {
          break;
        }
        UnevenHasShard(shards[..], gs);
        LevelStep(shards[..], gs);
        MoveOne(mg, lg);
      }
    }

    /** Rebalance ends for every starting assignment, in an assignment that depends on the
        starting one and on the set of group ids only. */
    method Rebalance()
      requires Valid()
      modifies shards
      ensures shards[..] == Settled(old(shards[..]), groups.Keys)
    {
      if |groups| < 1 {
        ClearShards();
        return;
      }
      BalanceGroups();
    }

    /** Rebalance when there is a group: first the shards without a group, then the moves. */
    method BalanceGroups()
      requires Valid() && groups != map[]
      modifies shards
      ensures IdsOf(groups.Keys) != [] && groups.Keys != {}
      ensures shards[..] == Rebalanced(old(shards[..]), IdsOf(groups.Keys))
    {
      ghost var a, gs := shards[..], IdsOf(groups.Keys);
      SomeGroup(groups);
      FilledThenLevelled(a, gs);
      FillShards();
      LevelShards();
    }

    /** One round of Join: a known group is refused, a listed server name is fatal. */
    method JoinOne(gid: Gid, servers: Servers) returns (r: Outcome)
      modifies `groups
      ensures r == Refused <==> gid in old(groups)
      ensures r == Done <==> CanAdd(old(groups), gid, servers)
      ensures groups == if r == Done then old(groups)[gid := servers] else old(groups)
    {
      if gid in groups {
        return Refused;
      }
      var taken := NameTaken(groups, servers);
      if taken {
        return Fatal;
      }
      groups := groups[gid := servers];
      return Done;
    }

    /** Adds groups, in whatever order the map yields them. A refused or fatal Join may leave
        some of them added. */
    method Join(servers: map<Gid, Servers>) returns (r: Outcome)
      modifies `num, `groups
      ensures r == Done <==> CanJoin(old(groups), servers)
      ensures r == Done ==> groups == old(groups) + servers && num == old(num) + 1
      ensures r != Done ==> num == old(num)
      ensures r == Refused ==> exists g :: g in servers && g in old(groups)
      ensures r == Fatal && servers != map[] ==>
        exists g :: g in servers && g !in groups && !CanAdd(groups, g, servers[g])
      ensures PartlyJoined(old(groups), servers, groups)
    {
      var changed := false;
      var order := KeysInSomeOrder(servers);
      var i := 0;
      while i < |order|
        invariant 0 <= i <= |order| && num == old(num) && (changed <==> i > 0)
        invariant AddInOrder(old(groups), servers, order[..i]) == Some(groups)
        modifies `groups
      {
        assert order[..i + 1][..i] == order[..i];
        var gid := order[i];
        AddInOrderMeans(old(groups), servers, order[..i]);
        r := JoinOne(gid, servers[gid]);
        if r != Done {
          AddFails(old(groups), servers, order, i + 1);
          JoinExactly(old(groups), servers, order);
          return;
        }
        changed := true;
        i := i + 1;
      }
      assert order[..i] == order;
      AddInOrderMeans(old(groups), servers, order);
      JoinExactly(old(groups), servers, order);
      if !changed {
        return Fatal;
      }
      num := num + 1;
      return Done;
    }

    /** Removes groups in the order given. A refused Leave may leave some of them removed. */
    method Leave(gids: seq<Gid>) returns (r: Outcome)
      modifies `num, `groups
      ensures r == Done <==> CanLeave(old(groups), gids)
      ensures r == Done ==> groups == old(groups) - (set g | g in gids) && num == old(num) + 1
      ensures r != Done ==> num == old(num)
      ensures r == Fatal <==> gids == []
      ensures exists i :: LeavesUpTo(old(groups), gids, i) && groups == old(groups) - set g | g in gids[..i]
    {
      var i := 0;
      while i < |gids|
        invariant 0 <= i <= |gids| && num == old(num)
        invariant groups == old(groups) - set g | g in gids[..i]
        invariant Distinct(gids[..i]) && forall j :: 0 <= j < i ==> gids[j] in old(groups)
        modifies `groups
      {
        assert gids[..i + 1] == gids[..i] + [gids[i]];
        if gids[i] !in groups {
          assert LeavesUpTo(old(groups), gids, i);
          LeaveFails(old(groups), gids, i);
          return Refused;
        }
        groups := groups - {gids[i]};
        i := i + 1;
      }
      assert gids[..i] == gids && LeavesUpTo(old(groups), gids, i);
      if |gids| == 0 {
        return Fatal;
      }
      num := num + 1;
      return Done;
    }

    method JoinBalance(servers: map<Gid, Servers>) returns (r: Outcome)
      requires Valid()
      modifies this, shards
      ensures r == Done <==> CanJoin(old(groups), servers)
      ensures r == Done ==> State() == Joined(old(State()), servers)
      ensures r != Done ==> num == old(num) && shards[..] == old(shards[..])
      ensures PartlyJoined(old(groups), servers, groups)
    {
      r := Join(servers);
      if r != Done {
        return;
      }
      Rebalance();
    }

    method LeaveBalance(gids: seq<Gid>) returns (r: Outcome)
      requires Valid()
      modifies this, shards
      ensures r == Done <==> CanLeave(old(groups), gids)
      ensures r == Done ==> State() == Left(old(State()), gids)
      ensures r != Done ==> num == old(num) && shards[..] == old(shards[..])
      ensures exists i :: LeavesUpTo(old(groups), gids, i) && groups == old(groups) - set g | g in gids[..i]
    {
      r := Leave(gids);
      if r != Done {
        return;
      }
      Rebalance();
    }

    method IsMember(gid: Gid) returns (b: bool)
      ensures b <==> gid in shards[..]
    {
      var s := 0;
      while s < shards.Length
        invariant 0 <= s <= shards.Length
        invariant gid !in shards[..s]
      {
        if shards[s] == gid {
          return true;
        }
        assert shards[..s + 1] == shards[..s] + [shards[s]];
        s := s + 1;
      }
      assert shards[..s] == shards[..];
      return false;
    }
  }

  lemma SomeGroup(groups: map<Gid, Servers>)
    requires groups != map[]
    ensures IdsOf(groups.Keys) != [] && groups.Keys != {}
  {
    assert groups.Keys != {};
  }

  lemma {:induction false} FirstIs(a: Assignment, g: Gid, s: nat)
    requires s < |a| && a[s] == g && g !in a[..s]
    ensures FirstOn(a, g) == s
  {
    if s > 0 {
      assert a[0] == a[..s][0];
      assert a[1..][..s - 1] == a[..s][1..];
      FirstIs(a[1..], g, s - 1);
    }
  }

  // ---- Joining and leaving -------------------------------------------------------

  ghost predicate CanAdd(groups: map<Gid, Servers>, gid: Gid, servers: Servers) {
    gid !in groups && forall x :: x in groups ==> Apart(groups[x], servers)
  }

  /** Adding groups one after the other, if none of them clashes. */
  ghost function AddInOrder(groups: map<Gid, Servers>, servers: map<Gid, Servers>, order: seq<Gid>)
    : Option<map<Gid, Servers>>
    requires forall g :: g in order ==> g in servers
  {
    if order == [] then Some(groups)
    else
      var g, r := order[|order| - 1], AddInOrder(groups, servers, order[..|order| - 1]);
      assert g in order;
      if r.Some? && CanAdd(r.value, g, servers[g]) then Some(r.value[g := servers[g]]) else None
  }

  lemma {:induction false} AddFails(groups: map<Gid, Servers>, servers: map<Gid, Servers>,
                                    order: seq<Gid>, i: nat)
    requires (forall g :: g in order ==> g in servers) && i <= |order|
    requires AddInOrder(groups, servers, order[..i]).None?
    ensures AddInOrder(groups, servers, order).None?
    decreases |order| - i
  {
    if i == |order| {
      assert order[..i] == order;
    } else {
      assert order[..i + 1][..i] == order[..i];
      AddFails(groups, servers, order, i + 1);
    }
  }

  /** The part of `servers` for the groups in `ids` clashes neither with `groups` nor in itself. */
  ghost predicate NoClash(groups: map<Gid, Servers>, servers: map<Gid, Servers>, ids: seq<Gid>) {
    && (forall g :: g in ids && g in servers ==> g !in groups)
    && (forall g, x :: g in ids && g in servers && x in groups ==> Apart(groups[x], servers[g]))
    && (forall g, h :: g in ids && h in ids && g in servers && h in servers && g != h ==>
        Apart(servers[g], servers[h]))
  }

  ghost function Part(servers: map<Gid, Servers>, ids: seq<Gid>): map<Gid, Servers> {
    map g | g in servers && g in ids :: servers[g]
  }

  lemma AddOne(groups: map<Gid, Servers>, servers: map<Gid, Servers>, ids: seq<Gid>, g: Gid)
    requires g in servers && g !in ids && NoClash(groups, servers, ids)
    ensures CanAdd(groups + Part(servers, ids), g, servers[g]) <==> NoClash(groups, servers, ids + [g])
    ensures (groups + Part(servers, ids))[g := servers[g]] == groups + Part(servers, ids + [g])
  {
    var all := groups + Part(servers, ids);
    forall x ensures x in all <==> x in groups || (x in servers && x in ids) {}
    forall x | x in groups ensures all[x] == groups[x] {}
    forall x | x in servers && x in ids ensures all[x] == servers[x] {}
    assert CanAdd(all, g, servers[g]) <==>
      && g !in groups
      && (forall x :: x in groups ==> Apart(groups[x], servers[g]))
      && (forall x :: x in servers && x in ids ==> Apart(servers[x], servers[g]));
    AddOneClash(groups, servers, ids, g);
  }

  lemma AddOneClash(groups: map<Gid, Servers>, servers: map<Gid, Servers>, ids: seq<Gid>, g: Gid)
    requires g in servers && g !in ids && NoClash(groups, servers, ids)
    ensures NoClash(groups, servers, ids + [g]) <==>
      && g !in groups
      && (forall x :: x in groups ==> Apart(groups[x], servers[g]))
      && (forall x :: x in servers && x in ids ==> Apart(servers[x], servers[g]))
  {
    var more := ids + [g];
    assert forall x :: x in more <==> x in ids || x == g;
    forall x | x in servers && x in ids ensures Apart(servers[x], servers[g]) <==> Apart(servers[g], servers[x]) {}
  }

  lemma {:induction false} AddInOrderMeans(groups: map<Gid, Servers>, servers: map<Gid, Servers>,
                                           order: seq<Gid>)
    requires Distinct(order) && forall g :: g in order ==> g in servers
    ensures AddInOrder(groups, servers, order) ==
      if NoClash(groups, servers, order) then Some(groups + Part(servers, order)) else None
  {
    if order == [] {
      assert groups + Part(servers, order) == groups;
    } else {
      var init, g := order[..|order| - 1], order[|order| - 1];
      assert order == init + [g];
      AddInOrderMeans(groups, servers, init);
      if NoClash(groups, servers, init) {
        AddOne(groups, servers, init, g);
      }
    }
  }

  lemma PartIsAll(servers: map<Gid, Servers>, ids: seq<Gid>)
    requires forall g :: g in servers ==> g in ids
    ensures Part(servers, ids) == servers
  {
    assert forall g :: g in Part(servers, ids) <==> g in servers;
    assert Part(servers, ids).Keys == servers.Keys;
  }

  lemma JoinExactly(groups: map<Gid, Servers>, servers: map<Gid, Servers>, order: seq<Gid>)
    requires Distinct(order) && forall g :: g in order <==> g in servers
    ensures var r := AddInOrder(groups, servers, order);
      && (r.Some? && order != [] <==> CanJoin(groups, servers))
      && (r.Some? ==> r.value == groups + servers)
  {
    AddInOrderMeans(groups, servers, order);
    PartIsAll(servers, order);
    assert order != [] <==> servers != map[] by {
      if order != [] { assert order[0] in servers; }
    }
    assert groups.Keys !! servers.Keys <==> forall g :: g in order ==> g !in groups;
  }

  lemma LeaveFails(before: map<Gid, Servers>, gids: seq<Gid>, i: nat)
    requires i < |gids| && gids[i] !in before - set g | g in gids[..i]
    ensures !CanLeave(before, gids)
  {
    if gids[i] in before {
      var j :| 0 <= j < i && gids[..i][j] == gids[i];
      assert gids[j] == gids[i];
    }
  }
}
