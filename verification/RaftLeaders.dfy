/** When a cluster can elect a leader at all. The majority is tested only when a reply comes
    in, so a single server never wins its own election. */
module RaftLeaders {
  import opened RaftPeer
  import opened RaftCluster
  import opened RaftElections

  // ---- A single server never leads -----------------------------------------------

  lemma NoOneToAsk(s: Cluster, e: nat, d: nat)
    requires ElectionsOk(s) && |s.nodes| <= 1
    ensures !VoteCall(s, e, d)
  {
  }

  lemma LonelyStep(s: Cluster, step: Step, i: nat)
    requires Inv(s) && |s.nodes| <= 1 && Enabled(s, step) && i < |s.nodes| && s.nodes[i].role != Leader
    ensures Apply(s, step).nodes[i].role != Leader
  {
    forall e: nat, d: nat ensures !VoteCall(s, e, d) { NoOneToAsk(s, e, d); }
  }

  lemma {:induction false} LonelyNeverLeads(n: nat, run: seq<Cluster>, k: nat, i: nat)
    requires n <= 1 && IsRun(n, run) && k < |run| && i < |run[k].nodes|
    ensures run[k].nodes[i].role != Leader
    decreases k
  {
    if k > 0 {
      RunInv(n, run, k - 1);
      RunSize(n, run, k);
      LonelyNeverLeads(n, run, k - 1, i);
      var step := StepOf(n, run, k);
      LonelyStep(run[k - 1], step, i);
    }
  }

  // ---- Two or more servers can always elect one ----------------------------------

  ghost predicate RunTo(n: nat, run: seq<Cluster>, s: Cluster) {
    IsRun(n, run) && run[|run| - 1] == s
  }

  lemma Extend(n: nat, run: seq<Cluster>, s: Cluster, step: Step) returns (run': seq<Cluster>, s': Cluster)
    requires RunTo(n, run, s) && Enabled(s, step)
    ensures s' == Apply(s, step) && RunTo(n, run', s') && run <= run'
  {
    s' := Apply(s, step);
    run' := run + [s'];
    assert Next(s, s');
    forall k: nat | 0 < k < |run'| ensures StepAt(run', k) {
      if k < |run| { assert StepAt(run, k); }
    }
  }

  ghost predicate HasLeader(s: Cluster) {
    exists i :: 0 <= i < |s.nodes| && s.nodes[i].role == Leader
  }

  // -- A server whose log nobody's is ahead of

  lemma {:induction false} MostUpToDate(nodes: seq<Node>, m: nat) returns (c: nat)
    requires 0 < m <= |nodes|
    ensures c < m
    ensures forall v :: 0 <= v < m ==> UpToDate(nodes[v].logs, |nodes[c].logs|, LastTerm(nodes[c].logs))
  {
    if m == 1 {
      c := 0;
    } else {
      c := MostUpToDate(nodes, m - 1);
      if !UpToDate(nodes[m - 1].logs, |nodes[c].logs|, LastTerm(nodes[c].logs)) { c := m - 1; }
    }
  }

  lemma {:induction false} HighestTerm(nodes: seq<Node>, m: nat) returns (t: int)
    requires m <= |nodes|
    ensures forall v :: 0 <= v < m ==> nodes[v].currentTerm <= t
  {
    if m == 0 {
      t := 0;
    } else {
      t := HighestTerm(nodes, m - 1);
      if nodes[m - 1].currentTerm > t { t := nodes[m - 1].currentTerm; }
    }
  }

  /** Server `c` has just timed out. */
  ghost predicate JustTimedOut(s: Cluster, c: nat) {
    && c < |s.nodes| && s.elections != [] && s.nodes[c].role == Candidate
    && s.elections[|s.elections| - 1] == NewElection(c, s.nodes[c], |s.nodes|)
  }

  /** Server `c` times out until its term is past `t`. */
  lemma {:induction false} TimeOutPast(n: nat, run: seq<Cluster>, s: Cluster, c: nat, t: int)
    returns (run': seq<Cluster>, s': Cluster)
    requires RunTo(n, run, s) && c < |s.nodes| && s.nodes[c].role != Leader
    ensures RunTo(n, run', s') && run <= run' && |s'.nodes| == |s.nodes|
    ensures JustTimedOut(s', c) && s'.nodes[c].currentTerm > t && s'.nodes[c].logs == s.nodes[c].logs
    ensures forall v :: 0 <= v < |s.nodes| && v != c ==> s'.nodes[v] == s.nodes[v]
    decreases if s.nodes[c].currentTerm <= t then t - s.nodes[c].currentTerm + 1 else 0
  {
    run', s' := Extend(n, run, s, Timeout(c));
    if s'.nodes[c].currentTerm <= t {
      run', s' := TimeOutPast(n, run', s', c, t);
    }
  }

  // -- Collecting votes

  ghost predicate Willing(node: Node, args: RequestVoteArgs) {
    node.currentTerm < args.term && UpToDate(node.logs, args.lastLogIndex, args.lastLogTerm)
  }

  lemma WillingGrants(node: Node, args: RequestVoteArgs)
    requires Willing(node, args)
    ensures OnRequestVote(node, args).1 == RequestVoteReply(args.term, true)
  {
  }

  /** Candidate `c` of election `e` has the votes of the servers below `m` and no majority yet;
      the others have not been reached and would vote for it. */
  ghost predicate Canvassing(s: Cluster, c: nat, e: nat, m: nat) {
    && c < |s.nodes| && e < |s.elections| && m <= |s.nodes| && s.nodes[c].role == Candidate
    && var el := s.elections[e];
    && el.candidate == c && el.args.term == s.nodes[c].currentTerm
    && el.votes == (if c < m then m else m + 1) && el.votes <= |s.nodes| / 2
    && forall d: nat :: m <= d < |s.nodes| && d != c ==>
        d in el.calls && el.calls[d] == Sent && Willing(s.nodes[d], el.args)
  }

  /** The request to server `m` arrives and the grant comes back. */
  lemma AskOne(n: nat, run: seq<Cluster>, s: Cluster, c: nat, e: nat, m: nat)
    returns (run': seq<Cluster>, s': Cluster)
    requires RunTo(n, run, s) && Canvassing(s, c, e, m) && m < |s.nodes| && m != c
    ensures RunTo(n, run', s') && run <= run'
    ensures HasLeader(s') || Canvassing(s', c, e, m + 1)
  {
    WillingGrants(s.nodes[m], s.elections[e].args);
    run', s' := Extend(n, run, s, DeliverVote(e, m));
    run', s' := Extend(n, run', s', ReturnVote(e, m));
    if s'.nodes[c].role == Leader { assert HasLeader(s'); }
  }

  lemma {:induction false} AskAll(n: nat, run: seq<Cluster>, s: Cluster, c: nat, e: nat, m: nat)
    returns (run': seq<Cluster>, s': Cluster)
    requires RunTo(n, run, s) && Canvassing(s, c, e, m) && |s.nodes| == n
    ensures RunTo(n, run', s') && run <= run' && HasLeader(s')
    decreases n - m
  {
    run', s' := run, s;
    if m == c {
      run', s' := AskAll(n, run, s, c, e, m + 1);
    } else if m < n {
      run', s' := AskOne(n, run, s, c, e, m);
      if !HasLeader(s') {
        RunSize(n, run', |run'| - 1);
        run', s' := AskAll(n, run', s', c, e, m + 1);
      }
    }
  }

  /** The cluster can always elect a leader: with two servers or more, every run can go on so
      that there is one. */
  lemma LeaderAlwaysReachable(n: nat, run: seq<Cluster>) returns (run': seq<Cluster>)
    requires n >= 2 && IsRun(n, run)
    ensures IsRun(n, run') && run <= run' && HasLeader(run'[|run'| - 1])
  {
    run' := run;
    var s := run[|run| - 1];
    RunSize(n, run, |run| - 1);
    if !HasLeader(s) {
      var c := MostUpToDate(s.nodes, n);
      var t := HighestTerm(s.nodes, n);
      run', s := TimeOutPast(n, run, s, c, t);
      assert Canvassing(s, c, |s.elections| - 1, 0);
      run', s := AskAll(n, run', s, c, |s.elections| - 1, 0);
    }
  }

  /** Some run elects a leader exactly if there are at least two servers. */
  lemma LeaderReachable(n: nat)
    ensures (exists run, s :: RunTo(n, run, s) && HasLeader(s)) <==> n >= 2
  {
    if n >= 2 {
      var run := LeaderAlwaysReachable(n, [Init(n)]);
      assert RunTo(n, run, run[|run| - 1]);
    } else if run, s :| RunTo(n, run, s) && HasLeader(s) {
      var i: nat :| i < |s.nodes| && s.nodes[i].role == Leader;
      LonelyNeverLeads(n, run, |run| - 1, i);
      assert false;
    }
  }
}
