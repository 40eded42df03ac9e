/** A cluster of Raft servers over a network that loses, delays and reorders messages.
    Every call runs its handler at most once and delivers at most one reply. Servers do
    not restart. A step is one atomic handler, closure or ticker action of one server,
    or the loss of one message. */
module RaftCluster {
  import opened Common
  import opened RaftPeer

  /** Where one remote call is: its request travels, its reply travels, or it is over. */
  datatype Phase<R> = Sent | Replied(reply: R) | Over

  /** One election: the arguments its closures share, its vote counter and its calls.
      The last three fields only record history and no step reads them: whose grants
      were counted, the log with which each server granted its vote, and the log with
      which the candidate won. */
  datatype Election = Election(
    candidate: nat, args: RequestVoteArgs, votes: nat,
    calls: map<nat, Phase<RequestVoteReply>>,
    counted: set<nat>, granted: map<nat, Log>, wonWith: Option<Log>)

  /** One round of heartbeats, with one call for each other server. */
  datatype Round = Round(args: AppendEntriesArgs, calls: map<nat, Phase<AppendEntriesReply>>)

  datatype Cluster = Cluster(nodes: seq<Node>, elections: seq<Election>, rounds: seq<Round>)

  datatype Step =
    | Timeout(i: nat)
    | DeliverVote(e: nat, d: nat)
    | ReturnVote(e: nat, d: nat)
    | LoseVote(e: nat, d: nat)
    | SendRound(i: nat)
    | DeliverBeat(r: nat, d: nat)
    | ReturnBeat(r: nat, d: nat)
    | LoseBeat(r: nat, d: nat)
    | ClientStart(i: nat, command: Command)

  ghost function Init(n: nat): Cluster {
    Cluster(seq(n, i => InitNode()), [], [])
  }

  ghost predicate VoteCall(s: Cluster, e: nat, d: nat) {
    && e < |s.elections| && d < |s.nodes|
    && s.elections[e].candidate < |s.nodes|
    && d in s.elections[e].calls
  }

  ghost predicate BeatCall(s: Cluster, r: nat, d: nat) {
    && r < |s.rounds| && d < |s.nodes|
    && 0 <= s.rounds[r].args.leaderId < |s.nodes|
    && d in s.rounds[r].calls
  }

  ghost predicate Enabled(s: Cluster, step: Step) {
    match step
    case Timeout(i) => i < |s.nodes| && s.nodes[i].role != Leader
    case DeliverVote(e, d) => VoteCall(s, e, d) && s.elections[e].calls[d].Sent?
    case ReturnVote(e, d) => VoteCall(s, e, d) && s.elections[e].calls[d].Replied?
    case LoseVote(e, d) => VoteCall(s, e, d)
    case SendRound(i) => i < |s.nodes| && s.nodes[i].role == Leader
    case DeliverBeat(r, d) => BeatCall(s, r, d) && s.rounds[r].calls[d].Sent?
    case ReturnBeat(r, d) => BeatCall(s, r, d) && s.rounds[r].calls[d].Replied?
    case LoseBeat(r, d) => BeatCall(s, r, d)
    case ClientStart(i, _) => i < |s.nodes|
  }

  ghost function NewElection(i: nat, node: Node, n: nat): Election {
    Election(i, VoteArgs(node, i), 1,
             map d: nat | d in Others(n, i) :: Sent,
             {}, map[i := node.logs], None)
  }

  ghost function Servers(n: nat): (r: set<nat>)
    ensures forall d: nat :: d in r <==> d < n
    ensures |r| == n
  {
    if n == 0 then {} else Servers(n - 1) + {n - 1}
  }

  ghost function Others(n: nat, i: nat): set<nat> {
    Servers(n) - {i}
  }

  /** Server `d`, whose log is `log`, has answered the request of election `el`. */
  ghost function Answered(el: Election, d: nat, log: Log, reply: RequestVoteReply): Election {
    el.(calls := el.calls[d := Replied(reply)],
        granted := if reply.voteGranted then el.granted[d := log] else el.granted)
  }

  /** The closure for server `d` has run and left the counter at `votes`. */
  ghost function Counted(el: Election, d: nat, votes: nat, won: Option<Log>): Election {
    el.(votes := votes,
        calls := el.calls[d := Over],
        counted := if votes > el.votes then el.counted + {d} else el.counted,
        wonWith := if won.Some? then won else el.wonWith)
  }

  ghost function AfterDeliverVote(s: Cluster, e: nat, d: nat): Cluster
    requires Enabled(s, DeliverVote(e, d))
  {
    var el := s.elections[e];
    var (node, reply) := OnRequestVote(s.nodes[d], el.args);
    s.(nodes := s.nodes[d := node],
       elections := s.elections[e := Answered(el, d, s.nodes[d].logs, reply)])
  }

  ghost function AfterReturnVote(s: Cluster, e: nat, d: nat): Cluster
    requires Enabled(s, ReturnVote(e, d))
  {
    var el := s.elections[e];
    var c := el.candidate;
    var (node, votes) :=
      OnVoteReply(s.nodes[c], c, |s.nodes|, el.args, el.votes, el.calls[d].reply);
    s.(nodes := s.nodes[c := node],
       elections := s.elections[e := Counted(el, d, votes,
         if node.role == Leader && s.nodes[c].role != Leader then Some(s.nodes[c].logs) else None)])
  }

  ghost function Apply(s: Cluster, step: Step): Cluster
    requires Enabled(s, step)
  {
    match step
    case Timeout(i) =>
      var node := OnTimeout(s.nodes[i], i);
      s.(nodes := s.nodes[i := node],
         elections := s.elections + [NewElection(i, node, |s.nodes|)])
    case DeliverVote(e, d) => AfterDeliverVote(s, e, d)
    case ReturnVote(e, d) => AfterReturnVote(s, e, d)
    case LoseVote(e, d) =>
      s.(elections := s.elections[e := s.elections[e].(calls := s.elections[e].calls[d := Over])])
    case SendRound(i) =>
      s.(rounds := s.rounds +
         [Round(BeatArgs(s.nodes[i], i), map d: nat | d in Others(|s.nodes|, i) :: Sent)])
    case DeliverBeat(r, d) =>
      var (node, reply) := OnAppendEntries(s.nodes[d], s.rounds[r].args);
      s.(nodes := s.nodes[d := node],
         rounds := s.rounds[r := s.rounds[r].(calls := s.rounds[r].calls[d := Replied(reply)])])
    case ReturnBeat(r, d) =>
      var l := s.rounds[r].args.leaderId;
      s.(nodes := s.nodes[l := OnBeatReply(s.nodes[l], s.rounds[r].calls[d].reply)],
         rounds := s.rounds[r := s.rounds[r].(calls := s.rounds[r].calls[d := Over])])
    case LoseBeat(r, d) =>
      s.(rounds := s.rounds[r := s.rounds[r].(calls := s.rounds[r].calls[d := Over])])
    case ClientStart(i, command) =>
      s.(nodes := s.nodes[i := OnStart(s.nodes[i], command).0])
  }

  ghost predicate Next(s: Cluster, s': Cluster) {
    exists step :: Enabled(s, step) && s' == Apply(s, step)
  }

  ghost predicate StepAt(run: seq<Cluster>, k: nat)
    requires 0 < k < |run|
  {
    Next(run[k - 1], run[k])
  }

  /** A run of `n` servers: every state from the initial one on. */
  ghost predicate IsRun(n: nat, run: seq<Cluster>) {
    && run != []
    && run[0] == Init(n)
    && forall k: nat :: 0 < k < |run| ==> StepAt(run, k)
  }

  // ---- The invariant -------------------------------------------------------------

  ghost predicate Won(s: Cluster, e: nat)
    requires e < |s.elections|
  {
    s.elections[e].wonWith.Some?
  }

  /** The counter of an election counts its candidate and distinct servers that granted. */
  ghost predicate ElectionOk(n: nat, el: Election) {
    && el.candidate < n
    && el.args.candidateId == el.candidate
    && el.candidate in el.granted
    && el.candidate !in el.counted
    && (forall v :: v in el.granted ==> v < n)
    && (forall v :: v in el.counted ==> v in el.granted)
    && el.votes == 1 + |el.counted|
    && (forall d :: d in el.calls ==>
        && d != el.candidate
        && (!el.calls[d].Over? ==> d !in el.counted)
        && (el.calls[d].Replied? && el.calls[d].reply.voteGranted ==> d in el.granted))
  }

  /** Each vote was granted by a log the candidate's log is at least as up to date as,
      and an election is won with the log its requests described. */
  ghost predicate LogsOk(n: nat, el: Election) {
    && (forall v :: v in el.granted ==>
        UpToDate(el.granted[v], el.args.lastLogIndex, el.args.lastLogTerm))
    && (el.wonWith.Some? ==>
        && el.votes > n / 2
        && |el.wonWith.value| == el.args.lastLogIndex
        && LastTerm(el.wonWith.value) == el.args.lastLogTerm)
  }

  /** A server that granted a vote has not left the term, or remembers the vote. */
  ghost predicate VoteKept(s: Cluster, e: nat, v: nat)
    requires e < |s.elections| && v < |s.nodes|
  {
    && s.elections[e].args.term <= s.nodes[v].currentTerm
    && (s.elections[e].args.term == s.nodes[v].currentTerm ==>
        s.nodes[v].votedFor == s.elections[e].candidate)
  }

  /** Election `e` is the one that server `i` runs, or ran, in its current term. */
  ghost predicate Runs(s: Cluster, i: nat, e: nat)
    requires i < |s.nodes| && e < |s.elections|
  {
    s.elections[e].candidate == i && s.elections[e].args.term == s.nodes[i].currentTerm
  }

  ghost predicate RoleBacked(s: Cluster, i: nat)
    requires i < |s.nodes|
  {
    s.nodes[i].role != Follower ==>
      exists e ::
        && 0 <= e < |s.elections| && Runs(s, i, e)
        && (s.nodes[i].role == Leader ==> Won(s, e))
        && (s.nodes[i].role == Candidate ==>
            && !Won(s, e)
            && s.elections[e].args == VoteArgs(s.nodes[i], i))
  }

  ghost predicate WonBy(s: Cluster, leader: int, term: int) {
    exists e :: 0 <= e < |s.elections| && Won(s, e)
      && s.elections[e].candidate == leader && s.elections[e].args.term == term
  }

  /** Every entry but the sentinel was appended by its own server as leader. */
  ghost predicate EntriesBacked(s: Cluster, i: nat)
    requires i < |s.nodes|
  {
    forall k :: k in s.nodes[i].logs && k != 0 ==> WonBy(s, i, s.nodes[i].logs[k].term)
  }

  /** The keys that `Make` and `Start` produce: the sentinel, then 2 up to the length. */
  ghost predicate LogShape(log: Log) {
    forall k :: k in log <==> k == 0 || 2 <= k <= |log|
  }

  ghost predicate RoundOk(s: Cluster, r: Round) {
    && WonBy(s, r.args.leaderId, r.args.term)
    && r.args.prevLogIndex == 0 && r.args.entries == []
    && forall d :: d in r.calls ==> d != r.args.leaderId
  }

  ghost predicate Distinct(s: Cluster) {
    && (forall e, f :: 0 <= e < f < |s.elections| && s.elections[e].candidate == s.elections[f].candidate ==>
        s.elections[e].args.term != s.elections[f].args.term)
  }

  ghost predicate OneVote(s: Cluster) {
    forall e, f, v :: 0 <= e < f < |s.elections| && v in s.elections[e].granted && v in s.elections[f].granted ==>
      s.elections[e].args.term != s.elections[f].args.term
  }

  ghost predicate ElectionsOk(s: Cluster) {
    forall e :: 0 <= e < |s.elections| ==>
      ElectionOk(|s.nodes|, s.elections[e]) && LogsOk(|s.nodes|, s.elections[e])
  }

  ghost predicate VotesKept(s: Cluster)
    requires ElectionsOk(s)
  {
    forall e, v :: 0 <= e < |s.elections| && v in s.elections[e].granted ==> VoteKept(s, e, v)
  }

  ghost predicate NodesOk(s: Cluster) {
    forall i :: 0 <= i < |s.nodes| ==>
      RoleBacked(s, i) && EntriesBacked(s, i) && LogShape(s.nodes[i].logs)
  }

  ghost predicate RoundsOk(s: Cluster) {
    forall r :: 0 <= r < |s.rounds| ==> RoundOk(s, s.rounds[r])
  }

  ghost predicate Inv(s: Cluster) {
    && ElectionsOk(s)
    && VotesKept(s)
    && Distinct(s)
    && OneVote(s)
    && NodesOk(s)
    && RoundsOk(s)
  }

  lemma InitInv(n: nat)
    ensures Inv(Init(n))
  {
    forall i | 0 <= i < n ensures LogShape(Init(n).nodes[i].logs) {
      assert Init(n).nodes[i].logs == map[0 := SENTINEL];
      assert |map[0 := SENTINEL]| == 1;
    }
  }

  // ---- What every step keeps -----------------------------------------------------

  /** What steps never undo: elections keep their identity and a won one stays won. */
  ghost predicate Extends(s: Cluster, s': Cluster) {
    && |s'.nodes| == |s.nodes|
    && |s.elections| <= |s'.elections|
    && forall e :: 0 <= e < |s.elections| ==>
        && s'.elections[e].candidate == s.elections[e].candidate
        && s'.elections[e].args == s.elections[e].args
        && (Won(s, e) ==> Won(s', e))
  }

  lemma StepExtends(s: Cluster, step: Step)
    requires Enabled(s, step)
    ensures Extends(s, Apply(s, step))
  {
  }

  lemma WonByKept(s: Cluster, s': Cluster, leader: int, term: int)
    requires Extends(s, s') && WonBy(s, leader, term)
    ensures WonBy(s', leader, term)
  {
    var e :| 0 <= e < |s.elections| && Won(s, e)
      && s.elections[e].candidate == leader && s.elections[e].args.term == term;
    assert Won(s', e);
  }

  /** Rounds stay backed when the step neither adds nor re-addresses a round. */
  lemma RoundsKept(s: Cluster, s': Cluster)
    requires RoundsOk(s) && Extends(s, s')
    requires |s'.rounds| == |s.rounds|
    requires forall r :: 0 <= r < |s.rounds| ==>
      s'.rounds[r].args == s.rounds[r].args && s'.rounds[r].calls.Keys <= s.rounds[r].calls.Keys
    ensures RoundsOk(s')
  {
    forall r | 0 <= r < |s'.rounds| ensures RoundOk(s', s'.rounds[r]) {
      assert RoundOk(s, s.rounds[r]);
      WonByKept(s, s', s.rounds[r].args.leaderId, s.rounds[r].args.term);
    }
  }

  lemma EntriesKept(s: Cluster, s': Cluster, i: nat)
    requires i < |s.nodes| && Extends(s, s') && EntriesBacked(s, i)
    requires s'.nodes[i].logs == s.nodes[i].logs
    ensures EntriesBacked(s', i)
  {
    forall k | k in s'.nodes[i].logs && k != 0 ensures WonBy(s', i, s'.nodes[i].logs[k].term) {
      WonByKept(s, s', i, s.nodes[i].logs[k].term);
    }
  }

  /** The step leaves the log of server `i` alone, and it leaves alone its role, its term
      and the outcome of its current election, or makes it a follower. */
  ghost predicate Calm(s: Cluster, s': Cluster, i: nat)
    requires i < |s.nodes| && Extends(s, s')
  {
    && s'.nodes[i].logs == s.nodes[i].logs
    && (s'.nodes[i].role != Follower ==>
        && s'.nodes[i].role == s.nodes[i].role
        && s'.nodes[i].currentTerm == s.nodes[i].currentTerm
        && forall e :: 0 <= e < |s.elections| && Runs(s, i, e) && Won(s', e) ==> Won(s, e))
  }

  lemma RoleKept(s: Cluster, s': Cluster, i: nat)
    requires i < |s.nodes| && Extends(s, s') && RoleBacked(s, i) && Calm(s, s', i)
    ensures RoleBacked(s', i)
  {
    if s'.nodes[i].role != Follower {
      var e :| && 0 <= e < |s.elections| && Runs(s, i, e)
        && (s.nodes[i].role == Leader ==> Won(s, e))
        && (s.nodes[i].role == Candidate ==>
            && !Won(s, e)
            && s.elections[e].args == VoteArgs(s.nodes[i], i));
      assert Runs(s', i, e);
    }
  }

  /** It is enough to look at the one server that a step does not leave calm. */
  lemma NodesKept(s: Cluster, s': Cluster, i: nat)
    requires NodesOk(s) && Extends(s, s') && i < |s.nodes|
    requires forall j :: 0 <= j < |s.nodes| && j != i ==> Calm(s, s', j)
    requires Calm(s, s', i) || (RoleBacked(s', i) && EntriesBacked(s', i) && LogShape(s'.nodes[i].logs))
    ensures NodesOk(s')
  {
    forall j | 0 <= j < |s.nodes|
      ensures RoleBacked(s', j) && EntriesBacked(s', j) && LogShape(s'.nodes[j].logs)
    {
      if Calm(s, s', j) {
        EntriesKept(s, s', j);
        RoleKept(s, s', j);
      }
    }
  }

  /** Server terms never fall, and inside a term a cast vote stays. */
  ghost predicate Remembers(n: Node, n': Node) {
    && n.currentTerm <= n'.currentTerm
    && (n.currentTerm == n'.currentTerm && n.votedFor != -1 ==> n'.votedFor == n.votedFor)
  }

  lemma StepRemembers(s: Cluster, step: Step, j: nat)
    requires Enabled(s, step) && j < |s.nodes|
    ensures Remembers(s.nodes[j], Apply(s, step).nodes[j])
  {
  }

  /** No server forgets a vote and no election gains one. */
  ghost predicate SameBallots(s: Cluster, s': Cluster) {
    && |s'.nodes| == |s.nodes| && |s'.elections| == |s.elections|
    && (forall e :: 0 <= e < |s.elections| ==>
        && s'.elections[e].candidate == s.elections[e].candidate
        && s'.elections[e].args == s.elections[e].args
        && s'.elections[e].granted == s.elections[e].granted)
    && (forall j :: 0 <= j < |s.nodes| ==> Remembers(s.nodes[j], s'.nodes[j]))
  }

  lemma StepBallots(s: Cluster, step: Step)
    requires Enabled(s, step) && !step.Timeout? && !step.DeliverVote?
    ensures SameBallots(s, Apply(s, step))
  {
    var s' := Apply(s, step);
    forall j | 0 <= j < |s.nodes| ensures Remembers(s.nodes[j], s'.nodes[j]) {
      StepRemembers(s, step, j);
    }
  }

  lemma VotesFrame(s: Cluster, s': Cluster)
    requires ElectionsOk(s) && ElectionsOk(s') && VotesKept(s) && Distinct(s) && OneVote(s)
    requires SameBallots(s, s')
    ensures VotesKept(s') && Distinct(s') && OneVote(s')
  {
    forall e, v | 0 <= e < |s'.elections| && v in s'.elections[e].granted ensures VoteKept(s', e, v) {
      assert VoteKept(s, e, v);
    }
  }

  /** Only election `e` changes, and it stays in order. */
  lemma ElectionsKept(s: Cluster, s': Cluster, e: nat)
    requires ElectionsOk(s) && |s'.nodes| == |s.nodes| && e < |s'.elections|
    requires |s.elections| <= |s'.elections| <= |s.elections| + 1
    requires forall f :: 0 <= f < |s'.elections| && f != e ==>
      f < |s.elections| && s'.elections[f] == s.elections[f]
    requires ElectionOk(|s.nodes|, s'.elections[e]) && LogsOk(|s.nodes|, s'.elections[e])
    ensures ElectionsOk(s')
  {
  }

  // -- Timeout

  lemma TimeoutElections(s: Cluster, i: nat)
    requires ElectionsOk(s) && Enabled(s, Timeout(i))
    ensures ElectionsOk(Apply(s, Timeout(i)))
  {
    var s' := Apply(s, Timeout(i));
    var el := NewElection(i, s'.nodes[i], |s.nodes|);
    assert ElectionOk(|s.nodes|, el) && LogsOk(|s.nodes|, el);
    ElectionsKept(s, s', |s.elections|);
  }

  lemma TimeoutKept(s: Cluster, i: nat)
    requires ElectionsOk(s) && VotesKept(s) && Enabled(s, Timeout(i))
    requires ElectionsOk(Apply(s, Timeout(i)))
    ensures VotesKept(Apply(s, Timeout(i)))
  {
    var s' := Apply(s, Timeout(i));
    forall e, v | 0 <= e < |s'.elections| && v in s'.elections[e].granted ensures VoteKept(s', e, v) {
      if e < |s.elections| { assert VoteKept(s, e, v); }
    }
  }

  /** The term of a new election is new to every election its candidate has voted in. */
  lemma TimeoutNewTerm(s: Cluster, i: nat, e: nat)
    requires ElectionsOk(s) && VotesKept(s) && Enabled(s, Timeout(i)) && e < |s.elections|
    requires s.elections[e].candidate == i || i in s.elections[e].granted
    ensures s.elections[e].args.term <= s.nodes[i].currentTerm
  {
    assert ElectionOk(|s.nodes|, s.elections[e]);
    assert VoteKept(s, e, i);
  }

  lemma TimeoutDistinct(s: Cluster, i: nat)
    requires ElectionsOk(s) && VotesKept(s) && Distinct(s) && OneVote(s) && Enabled(s, Timeout(i))
    ensures Distinct(Apply(s, Timeout(i))) && OneVote(Apply(s, Timeout(i)))
  {
    var s' := Apply(s, Timeout(i));
    forall e, f | 0 <= e < f < |s'.elections| && s'.elections[e].candidate == s'.elections[f].candidate
      ensures s'.elections[e].args.term != s'.elections[f].args.term
    {
      if f == |s.elections| { TimeoutNewTerm(s, i, e); }
    }
    forall e, f, v | 0 <= e < f < |s'.elections| && v in s'.elections[e].granted && v in s'.elections[f].granted
      ensures s'.elections[e].args.term != s'.elections[f].args.term
    {
      if f == |s.elections| { TimeoutNewTerm(s, i, e); }
    }
  }

  lemma TimeoutNodes(s: Cluster, i: nat)
    requires NodesOk(s) && RoundsOk(s) && Enabled(s, Timeout(i))
    ensures NodesOk(Apply(s, Timeout(i))) && RoundsOk(Apply(s, Timeout(i)))
  {
    var s' := Apply(s, Timeout(i));
    StepExtends(s, Timeout(i));
    RoundsKept(s, s');
    assert Runs(s', i, |s.elections|) && !Won(s', |s.elections|);
    EntriesKept(s, s', i);
    NodesKept(s, s', i);
  }

  lemma TimeoutInv(s: Cluster, i: nat)
    requires Inv(s) && Enabled(s, Timeout(i))
    ensures Inv(Apply(s, Timeout(i)))
  {
    TimeoutElections(s, i);
    TimeoutKept(s, i);
    TimeoutDistinct(s, i);
    TimeoutNodes(s, i);
  }

  // -- Vote requests and replies

  lemma LoseVoteElections(s: Cluster, e: nat, d: nat)
    requires ElectionsOk(s) && Enabled(s, LoseVote(e, d))
    ensures ElectionsOk(Apply(s, LoseVote(e, d)))
  {
    var s' := Apply(s, LoseVote(e, d));
    assert ElectionOk(|s.nodes|, s.elections[e]) && LogsOk(|s.nodes|, s.elections[e]);
    assert ElectionOk(|s.nodes|, s'.elections[e]) && LogsOk(|s.nodes|, s'.elections[e]);
    ElectionsKept(s, s', e);
  }

  lemma LoseVoteNodes(s: Cluster, e: nat, d: nat)
    requires NodesOk(s) && RoundsOk(s) && Enabled(s, LoseVote(e, d))
    ensures NodesOk(Apply(s, LoseVote(e, d))) && RoundsOk(Apply(s, LoseVote(e, d)))
  {
    var s' := Apply(s, LoseVote(e, d));
    StepExtends(s, LoseVote(e, d));
    RoundsKept(s, s');
    NodesKept(s, s', d);
  }

  lemma LoseVoteInv(s: Cluster, e: nat, d: nat)
    requires Inv(s) && Enabled(s, LoseVote(e, d))
    ensures Inv(Apply(s, LoseVote(e, d)))
  {
    LoseVoteElections(s, e, d);
    LoseVoteNodes(s, e, d);
    StepBallots(s, LoseVote(e, d));
    VotesFrame(s, Apply(s, LoseVote(e, d)));
  }

  lemma DeliverVoteElections(s: Cluster, e: nat, d: nat)
    requires ElectionsOk(s) && Enabled(s, DeliverVote(e, d))
    ensures ElectionsOk(AfterDeliverVote(s, e, d))
  {
    var s' := AfterDeliverVote(s, e, d);
    assert ElectionOk(|s.nodes|, s.elections[e]) && LogsOk(|s.nodes|, s.elections[e]);
    assert ElectionOk(|s.nodes|, s'.elections[e]) && LogsOk(|s.nodes|, s'.elections[e]);
    ElectionsKept(s, s', e);
  }

  lemma DeliverVoteKept(s: Cluster, e: nat, d: nat)
    requires ElectionsOk(s) && VotesKept(s) && Enabled(s, DeliverVote(e, d))
    requires ElectionsOk(AfterDeliverVote(s, e, d))
    ensures VotesKept(AfterDeliverVote(s, e, d))
  {
    var s' := AfterDeliverVote(s, e, d);
    assert ElectionOk(|s.nodes|, s.elections[e]);
    forall f, v | 0 <= f < |s'.elections| && v in s'.elections[f].granted ensures VoteKept(s', f, v) {
      if v in s.elections[f].granted { assert VoteKept(s, f, v); }
    }
  }

  /** A server that grants a vote has granted none to another election of that term. */
  lemma DeliverVoteOnce(s: Cluster, e: nat, d: nat, f: nat)
    requires ElectionsOk(s) && VotesKept(s) && Distinct(s) && Enabled(s, DeliverVote(e, d))
    requires f < |s.elections| && f != e && d in s.elections[f].granted
    requires OnRequestVote(s.nodes[d], s.elections[e].args).1.voteGranted
    ensures s.elections[f].args.term != s.elections[e].args.term
  {
    assert ElectionOk(|s.nodes|, s.elections[e]);
    assert VoteKept(s, f, d);
  }

  lemma DeliverVoteOneVote(s: Cluster, e: nat, d: nat)
    requires ElectionsOk(s) && VotesKept(s) && Distinct(s) && OneVote(s) && Enabled(s, DeliverVote(e, d))
    ensures Distinct(AfterDeliverVote(s, e, d)) && OneVote(AfterDeliverVote(s, e, d))
  {
    var s' := AfterDeliverVote(s, e, d);
    forall f, g, v | 0 <= f < g < |s'.elections| && v in s'.elections[f].granted && v in s'.elections[g].granted
      ensures s'.elections[f].args.term != s'.elections[g].args.term
    {
      if v !in s.elections[f].granted {
        DeliverVoteOnce(s, e, d, g);
      } else if v !in s.elections[g].granted {
        DeliverVoteOnce(s, e, d, f);
      }
    }
  }

  lemma DeliverVoteNodes(s: Cluster, e: nat, d: nat)
    requires NodesOk(s) && RoundsOk(s) && Enabled(s, DeliverVote(e, d))
    ensures NodesOk(AfterDeliverVote(s, e, d)) && RoundsOk(AfterDeliverVote(s, e, d))
  {
    var s' := AfterDeliverVote(s, e, d);
    StepExtends(s, DeliverVote(e, d));
    RoundsKept(s, s');
    NodesKept(s, s', d);
  }

  lemma DeliverVoteInv(s: Cluster, e: nat, d: nat)
    requires Inv(s) && Enabled(s, DeliverVote(e, d))
    ensures Inv(AfterDeliverVote(s, e, d))
  {
    DeliverVoteElections(s, e, d);
    DeliverVoteKept(s, e, d);
    DeliverVoteOneVote(s, e, d);
    DeliverVoteNodes(s, e, d);
  }

  lemma CountedOk(n: nat, el: Election, d: nat, votes: nat, won: Option<Log>)
    requires ElectionOk(n, el) && LogsOk(n, el)
    requires d in el.calls && el.calls[d].Replied?
    requires votes == el.votes || (votes == el.votes + 1 && el.calls[d].reply.voteGranted)
    requires won.Some? ==>
      && votes > n / 2
      && |won.value| == el.args.lastLogIndex && LastTerm(won.value) == el.args.lastLogTerm
    ensures ElectionOk(n, Counted(el, d, votes, won)) && LogsOk(n, Counted(el, d, votes, won))
  {
  }

  /** The candidate that an election's closure finds is running that very election. */
  lemma CandidateRuns(s: Cluster, e: nat)
    requires ElectionsOk(s) && Distinct(s) && NodesOk(s) && e < |s.elections|
    requires Runs(s, s.elections[e].candidate, e)
    requires s.nodes[s.elections[e].candidate].role == Candidate
    ensures !Won(s, e) && s.elections[e].args == VoteArgs(s.nodes[s.elections[e].candidate], s.elections[e].candidate)
  {
    assert RoleBacked(s, s.elections[e].candidate);
  }

  lemma ReturnVoteElections(s: Cluster, e: nat, d: nat)
    requires ElectionsOk(s) && Distinct(s) && NodesOk(s) && Enabled(s, ReturnVote(e, d))
    ensures ElectionsOk(AfterReturnVote(s, e, d))
  {
    ReturnVoteCounted(s, e, d);
    ElectionsKept(s, AfterReturnVote(s, e, d), e);
  }

  lemma ReturnVoteCounted(s: Cluster, e: nat, d: nat)
    requires ElectionsOk(s) && Distinct(s) && NodesOk(s) && Enabled(s, ReturnVote(e, d))
    ensures var el := AfterReturnVote(s, e, d).elections[e];
      ElectionOk(|s.nodes|, el) && LogsOk(|s.nodes|, el)
  {
    var el := s.elections[e];
    var c := el.candidate;
    assert ElectionOk(|s.nodes|, el) && LogsOk(|s.nodes|, el);
    if s.nodes[c].role == Candidate && Runs(s, c, e) { CandidateRuns(s, e); }
    var (node, votes) := OnVoteReply(s.nodes[c], c, |s.nodes|, el.args, el.votes, el.calls[d].reply);
    CountedOk(|s.nodes|, el, d, votes,
      if node.role == Leader && s.nodes[c].role != Leader then Some(s.nodes[c].logs) else None);
  }

  lemma ReturnVoteNodes(s: Cluster, e: nat, d: nat)
    requires NodesOk(s) && RoundsOk(s) && Enabled(s, ReturnVote(e, d))
    ensures NodesOk(AfterReturnVote(s, e, d)) && RoundsOk(AfterReturnVote(s, e, d))
  {
    var s' := AfterReturnVote(s, e, d);
    var c := s.elections[e].candidate;
    StepExtends(s, ReturnVote(e, d));
    RoundsKept(s, s');
    EntriesKept(s, s', c);
    if !Calm(s, s', c) {
      assert Runs(s', c, e) && Won(s', e);
    }
    NodesKept(s, s', c);
  }

  lemma ReturnVoteInv(s: Cluster, e: nat, d: nat)
    requires Inv(s) && Enabled(s, ReturnVote(e, d))
    ensures Inv(AfterReturnVote(s, e, d))
  {
    ReturnVoteElections(s, e, d);
    ReturnVoteNodes(s, e, d);
    StepBallots(s, ReturnVote(e, d));
    VotesFrame(s, AfterReturnVote(s, e, d));
  }

  // -- Heartbeats and client commands

  lemma SendRoundNodes(s: Cluster, i: nat)
    requires NodesOk(s) && RoundsOk(s) && Enabled(s, SendRound(i))
    ensures NodesOk(Apply(s, SendRound(i))) && RoundsOk(Apply(s, SendRound(i)))
  {
    var s' := Apply(s, SendRound(i));
    StepExtends(s, SendRound(i));
    assert RoleBacked(s, i);
    assert WonBy(s, i, s.nodes[i].currentTerm);
    RoundsKept(s, s'.(rounds := s.rounds));
    WonByKept(s, s', i, s.nodes[i].currentTerm);
    NodesKept(s, s', i);
  }

  lemma SendRoundInv(s: Cluster, i: nat)
    requires Inv(s) && Enabled(s, SendRound(i))
    ensures Inv(Apply(s, SendRound(i)))
  {
    SendRoundNodes(s, i);
    StepBallots(s, SendRound(i));
    VotesFrame(s, Apply(s, SendRound(i)));
  }

  /** Heartbeats carry no entries, so they leave every log and every running role alone. */
  lemma BeatCalm(s: Cluster, step: Step, j: nat)
    requires RoundsOk(s) && Enabled(s, step) && j < |s.nodes|
    requires step.DeliverBeat? || step.ReturnBeat? || step.LoseBeat?
    ensures Extends(s, Apply(s, step)) && Calm(s, Apply(s, step), j)
  {
    assert RoundOk(s, s.rounds[step.r]);
  }

  lemma BeatNodes(s: Cluster, step: Step)
    requires NodesOk(s) && RoundsOk(s) && Enabled(s, step)
    requires step.DeliverBeat? || step.ReturnBeat? || step.LoseBeat?
    ensures NodesOk(Apply(s, step))
  {
    var s' := Apply(s, step);
    StepExtends(s, step);
    forall j | 0 <= j < |s.nodes| ensures Calm(s, s', j) {
      BeatCalm(s, step, j);
    }
    NodesKept(s, s', step.d);
  }

  lemma BeatInv(s: Cluster, step: Step)
    requires Inv(s) && Enabled(s, step) && (step.DeliverBeat? || step.ReturnBeat? || step.LoseBeat?)
    ensures Inv(Apply(s, step))
  {
    var s' := Apply(s, step);
    StepExtends(s, step);
    StepBallots(s, step);
    VotesFrame(s, s');
    RoundsKept(s, s');
    BeatNodes(s, step);
  }

  lemma ShapeAfterStart(log: Log, e: LogEntry)
    requires LogShape(log)
    ensures LogShape(log[|log| + 1 := e])
  {
    assert 0 in log;
    assert |log| + 1 !in log;
    assert log[|log| + 1 := e].Keys == log.Keys + {|log| + 1};
    assert |log[|log| + 1 := e].Keys| == |log.Keys| + 1;
  }

  lemma ClientStartNodes(s: Cluster, i: nat, command: Command)
    requires NodesOk(s) && Enabled(s, ClientStart(i, command))
    ensures NodesOk(Apply(s, ClientStart(i, command)))
  {
    var s' := Apply(s, ClientStart(i, command));
    StepExtends(s, ClientStart(i, command));
    if s.nodes[i].role == Leader {
      assert RoleBacked(s, i);
      var e :| 0 <= e < |s.elections| && Runs(s, i, e) && Won(s, e);
      assert Runs(s', i, e) && Won(s', e);
      assert WonBy(s', i, s.nodes[i].currentTerm);
      ShapeAfterStart(s.nodes[i].logs, LogEntry(s.nodes[i].currentTerm, command));
      EntriesKept(s, s'.(nodes := s.nodes), i);
      forall k | k in s'.nodes[i].logs && k != 0 ensures WonBy(s', i, s'.nodes[i].logs[k].term) {
        if k in s.nodes[i].logs { WonByKept(s, s', i, s.nodes[i].logs[k].term); }
      }
    }
    NodesKept(s, s', i);
  }

  lemma ClientStartInv(s: Cluster, i: nat, command: Command)
    requires Inv(s) && Enabled(s, ClientStart(i, command))
    ensures Inv(Apply(s, ClientStart(i, command)))
  {
    var s' := Apply(s, ClientStart(i, command));
    StepExtends(s, ClientStart(i, command));
    RoundsKept(s, s');
    StepBallots(s, ClientStart(i, command));
    VotesFrame(s, s');
    ClientStartNodes(s, i, command);
  }

  lemma StepInv(s: Cluster, step: Step)
    requires Inv(s) && Enabled(s, step)
    ensures Inv(Apply(s, step))
  {
    match step
    case Timeout(i) => TimeoutInv(s, i);
    case DeliverVote(e, d) => DeliverVoteInv(s, e, d);
    case ReturnVote(e, d) => ReturnVoteInv(s, e, d);
    case LoseVote(e, d) => LoseVoteInv(s, e, d);
    case SendRound(i) => SendRoundInv(s, i);
    case DeliverBeat(_, _) => BeatInv(s, step);
    case ReturnBeat(_, _) => BeatInv(s, step);
    case LoseBeat(_, _) => BeatInv(s, step);
    case ClientStart(i, command) => ClientStartInv(s, i, command);
  }

  lemma {:induction false} RunInv(n: nat, run: seq<Cluster>, k: nat)
    requires IsRun(n, run) && k < |run|
    ensures Inv(run[k]) && |run[k].nodes| == n
  {
    if k == 0 {
      InitInv(n);
    } else {
      RunInv(n, run, k - 1);
      assert StepAt(run, k);
      var step :| Enabled(run[k - 1], step) && run[k] == Apply(run[k - 1], step);
      StepInv(run[k - 1], step);
      StepExtends(run[k - 1], step);
    }
  }
}
