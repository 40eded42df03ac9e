/** What holds over every run of a cluster: at most one leader for each term, one vote
    for each server and term, the election restriction, and heartbeats only from the
    winner of their term. */
module RaftElections {
  import opened Common
  import opened RaftPeer
  import opened RaftCluster

  // ---- Runs ----------------------------------------------------------------------

  lemma StepOf(n: nat, run: seq<Cluster>, k: nat) returns (step: Step)
    requires IsRun(n, run) && 0 < k < |run|
    ensures Enabled(run[k - 1], step) && run[k] == Apply(run[k - 1], step)
  {
    assert StepAt(run, k);
    step :| Enabled(run[k - 1], step) && run[k] == Apply(run[k - 1], step);
  }

  lemma {:induction false} RunExtends(n: nat, run: seq<Cluster>, j: nat, k: nat)
    requires IsRun(n, run) && j <= k < |run|
    ensures Extends(run[j], run[k])
  {
    if j < k {
      RunExtends(n, run, j, k - 1);
      var step := StepOf(n, run, k);
      StepExtends(run[k - 1], step);
      assert forall e :: 0 <= e < |run[j].elections| && Won(run[j], e) ==> Won(run[k - 1], e);
    }
  }

  // ---- Quorums -------------------------------------------------------------------

  lemma QuorumsMeet(n: nat, a: set<nat>, b: set<nat>) returns (v: nat)
    requires forall x :: x in a + b ==> x < n
    requires |a| > n / 2 && |b| > n / 2
    ensures v in a && v in b
  {
    if a * b == {} {
      SubsetSize(a + b, Servers(n));
      assert false;
    }
    v :| v in a * b;
  }

  /** The servers counted by election `e`: its candidate and those whose grant came back. */
  ghost function Voters(s: Cluster, e: nat): set<nat>
    requires e < |s.elections|
  {
    s.elections[e].counted + {s.elections[e].candidate}
  }

  lemma VotersGranted(s: Cluster, e: nat)
    requires ElectionsOk(s) && e < |s.elections|
    ensures |Voters(s, e)| == s.elections[e].votes
    ensures forall v :: v in Voters(s, e) ==> v < |s.nodes| && v in s.elections[e].granted
    ensures Won(s, e) ==> |Voters(s, e)| > |s.nodes| / 2
  {
    assert ElectionOk(|s.nodes|, s.elections[e]) && LogsOk(|s.nodes|, s.elections[e]);
  }

  lemma OneWinnerPerTerm(s: Cluster, e: nat, f: nat)
    requires Inv(s) && e < |s.elections| && f < |s.elections| && Won(s, e) && Won(s, f)
    requires s.elections[e].args.term == s.elections[f].args.term
    ensures e == f
  {
    VotersGranted(s, e);
    VotersGranted(s, f);
    var v := QuorumsMeet(|s.nodes|, Voters(s, e), Voters(s, f));
    assert v in s.elections[e].granted && v in s.elections[f].granted;
  }

  lemma WinnersAgree(s: Cluster, a: int, b: int, term: int)
    requires Inv(s) && WonBy(s, a, term) && WonBy(s, b, term)
    ensures a == b
  {
    var e :| 0 <= e < |s.elections| && Won(s, e)
      && s.elections[e].candidate == a && s.elections[e].args.term == term;
    var f :| 0 <= f < |s.elections| && Won(s, f)
      && s.elections[f].candidate == b && s.elections[f].args.term == term;
    OneWinnerPerTerm(s, e, f);
  }

  lemma LeaderWon(s: Cluster, i: nat)
    requires Inv(s) && i < |s.nodes| && s.nodes[i].role == Leader
    ensures WonBy(s, i, s.nodes[i].currentTerm)
  {
    assert RoleBacked(s, i);
  }

  // ---- The theorems --------------------------------------------------------------

  /** Election Safety: a server that leads term t at one moment of a run and a server
      that leads t at the same or any later moment are the same server. */
  lemma ElectionSafety(n: nat, run: seq<Cluster>, j: nat, k: nat, a: nat, b: nat)
    requires IsRun(n, run) && j <= k < |run| && a < |run[j].nodes| && b < |run[k].nodes|
    requires run[j].nodes[a].role == Leader && run[k].nodes[b].role == Leader
    requires run[j].nodes[a].currentTerm == run[k].nodes[b].currentTerm
    ensures a == b
  {
    RunInv(n, run, j);
    RunInv(n, run, k);
    RunExtends(n, run, j, k);
    LeaderWon(run[j], a);
    LeaderWon(run[k], b);
    WonByKept(run[j], run[k], a, run[j].nodes[a].currentTerm);
    WinnersAgree(run[k], a, b, run[k].nodes[b].currentTerm);
  }

  /** Any two heartbeat rounds ever sent with one term name one leader, the server that
      won that term's election. Rounds are never removed, so a state holds every round
      sent before it. */
  lemma OneLeaderPerHeartbeatTerm(n: nat, run: seq<Cluster>, k: nat, q: nat, r: nat)
    requires IsRun(n, run) && k < |run| && q < |run[k].rounds| && r < |run[k].rounds|
    requires run[k].rounds[q].args.term == run[k].rounds[r].args.term
    ensures run[k].rounds[q].args.leaderId == run[k].rounds[r].args.leaderId
    ensures WonBy(run[k], run[k].rounds[q].args.leaderId, run[k].rounds[q].args.term)
  {
    RunInv(n, run, k);
    var s := run[k];
    assert RoundOk(s, s.rounds[q]) && RoundOk(s, s.rounds[r]);
    WinnersAgree(s, s.rounds[q].args.leaderId, s.rounds[r].args.leaderId, s.rounds[q].args.term);
  }

  lemma {:induction false} RunSize(n: nat, run: seq<Cluster>, k: nat)
    requires IsRun(n, run) && k < |run|
    ensures |run[k].nodes| == n
  {
    if k > 0 {
      RunSize(n, run, k - 1);
      var step := StepOf(n, run, k);
      StepExtends(run[k - 1], step);
    }
  }

  lemma TermStep(n: nat, run: seq<Cluster>, k: nat, i: nat)
    requires IsRun(n, run) && 0 < k < |run| && i < |run[k - 1].nodes|
    ensures i < |run[k].nodes|
    ensures run[k - 1].nodes[i].currentTerm <= run[k].nodes[i].currentTerm
  {
    var step := StepOf(n, run, k);
    StepRemembers(run[k - 1], step, i);
    StepExtends(run[k - 1], step);
  }

  lemma {:induction false} TermsNeverFall(n: nat, run: seq<Cluster>, j: nat, k: nat, i: nat)
    requires IsRun(n, run) && j <= k < |run| && i < n
    ensures i < |run[j].nodes| && i < |run[k].nodes|
    ensures run[j].nodes[i].currentTerm <= run[k].nodes[i].currentTerm
  {
    RunSize(n, run, j);
    if j < k {
      TermsNeverFall(n, run, j, k - 1, i);
      TermStep(n, run, k, i);
    }
  }

  /** One vote for each server and term: all grants of a server in one term went to one
      election, and a vote counter never exceeds the number of servers that granted. */
  lemma OneVotePerTerm(n: nat, run: seq<Cluster>, k: nat, e: nat, f: nat, v: nat)
    requires IsRun(n, run) && k < |run| && e < |run[k].elections| && f < |run[k].elections|
    requires v in run[k].elections[e].granted && v in run[k].elections[f].granted
    requires run[k].elections[e].args.term == run[k].elections[f].args.term
    ensures e == f
    ensures run[k].elections[e].votes <= |run[k].elections[e].granted.Keys| <= n
  {
    RunInv(n, run, k);
    var s := run[k];
    assert OneVote(s);
    VotersGranted(s, e);
    SubsetSize(Voters(s, e), s.elections[e].granted.Keys);
    assert ElectionOk(n, s.elections[e]);
    SubsetSize(s.elections[e].granted.Keys, Servers(n));
  }

  /** The only way to become leader is to count a vote, and it records the log of the moment. */
  lemma BecomesLeader(s: Cluster, step: Step, i: nat)
    requires Enabled(s, step) && i < |s.nodes|
    requires s.nodes[i].role != Leader && Apply(s, step).nodes[i].role == Leader
    ensures step.ReturnVote?
    ensures var s' := Apply(s, step);
      && s'.elections[step.e].candidate == i
      && s'.elections[step.e].args.term == s'.nodes[i].currentTerm
      && s'.elections[step.e].wonWith == Some(s'.nodes[i].logs)
  {
  }

  /** Election restriction: when a server becomes leader, a majority granted it their
      votes with logs that its own log, at that very moment, is at least as up to date as. */
  lemma ElectionRestriction(n: nat, run: seq<Cluster>, k: nat, i: nat)
    returns (e: nat, quorum: set<nat>)
    requires IsRun(n, run) && 0 < k < |run| && i < |run[k - 1].nodes| && i < |run[k].nodes|
    requires run[k - 1].nodes[i].role != Leader && run[k].nodes[i].role == Leader
    ensures e < |run[k].elections|
    ensures run[k].elections[e].candidate == i
    ensures run[k].elections[e].args.term == run[k].nodes[i].currentTerm
    ensures |quorum| > n / 2
    ensures forall v :: v in quorum ==>
      && v < n && v in run[k].elections[e].granted
      && UpToDate(run[k].elections[e].granted[v],
                  |run[k].nodes[i].logs|, LastTerm(run[k].nodes[i].logs))
  {
    RunInv(n, run, k - 1);
    RunInv(n, run, k);
    var s := run[k];
    var step := StepOf(n, run, k);
    BecomesLeader(run[k - 1], step, i);
    e := step.e;
    assert LogsOk(n, s.elections[e]);
    VotersGranted(s, e);
    quorum := Voters(s, e);
  }

  /** What `LastTerm` reads is the entry with the largest index, although the keys skip 1. */
  lemma LastTermIsLastEntry(n: nat, run: seq<Cluster>, k: nat, i: nat)
    requires IsRun(n, run) && k < |run| && i < n
    ensures i < |run[k].nodes|
    ensures var log := run[k].nodes[i].logs;
      && (forall x :: x in log ==> x == 0 || 2 <= x <= |log|)
      && (if |log| == 1 then LastTerm(log) == 0
          else |log| in log && LastTerm(log) == log[|log|].term)
  {
    RunInv(n, run, k);
    assert LogShape(run[k].nodes[i].logs);
    var log := run[k].nodes[i].logs;
    assert 0 in log;
    assert |log| != 0;
  }

  /** Two different servers never hold entries of one term at any indices past the
      sentinel, so the logs of a run match wherever index and term agree. */
  lemma LogsMatchInRuns(n: nat, run: seq<Cluster>, k: nat, a: nat, b: nat, x: int, y: int)
    requires IsRun(n, run) && k < |run| && a < |run[k].nodes| && b < |run[k].nodes|
    requires x != 0 && x in run[k].nodes[a].logs
    requires y != 0 && y in run[k].nodes[b].logs
    requires run[k].nodes[a].logs[x].term == run[k].nodes[b].logs[y].term
    ensures a == b
  {
    RunInv(n, run, k);
    var s := run[k];
    assert EntriesBacked(s, a) && EntriesBacked(s, b);
    WinnersAgree(s, a, b, s.nodes[a].logs[x].term);
  }

  /** A heartbeat of term t that reaches a server ends all its leadership of terms up to t: from
      then on its term is at least t, and it leads newer terms only. */
  lemma HeartbeatDeposes(n: nat, run: seq<Cluster>, k: nat, m: nat, r: nat, d: nat)
    requires IsRun(n, run) && 0 < k <= m < |run|
    requires Enabled(run[k - 1], DeliverBeat(r, d)) && run[k] == Apply(run[k - 1], DeliverBeat(r, d))
    ensures d < |run[m].nodes|
    ensures run[m].nodes[d].currentTerm >= run[k].rounds[r].args.term
    ensures run[m].nodes[d].role == Leader ==> run[m].nodes[d].currentTerm > run[k].rounds[r].args.term
  {
    RunInv(n, run, k - 1);
    RunInv(n, run, m);
    BeatArrives(run[k - 1], r, d);
    TermsNeverFall(n, run, k, m, d);
    RunExtends(n, run, k - 1, m);
    var args := run[k].rounds[r].args;
    WonByKept(run[k - 1], run[m], args.leaderId, args.term);
    if run[m].nodes[d].role == Leader { OnlyWinnerLeads(run[m], d, args.leaderId, args.term); }
  }

  lemma BeatArrives(s: Cluster, r: nat, d: nat)
    requires Inv(s) && Enabled(s, DeliverBeat(r, d))
    ensures var s' := Apply(s, DeliverBeat(r, d));
      && r < |s'.rounds| && s'.rounds[r].args == s.rounds[r].args
      && d < |s'.nodes| && s'.nodes[d].currentTerm >= s.rounds[r].args.term
    ensures d != s.rounds[r].args.leaderId && WonBy(s, s.rounds[r].args.leaderId, s.rounds[r].args.term)
  {
    assert RoundOk(s, s.rounds[r]);
  }

  lemma OnlyWinnerLeads(s: Cluster, d: nat, winner: int, term: int)
    requires Inv(s) && WonBy(s, winner, term) && d < |s.nodes| && s.nodes[d].role == Leader && d != winner
    ensures s.nodes[d].currentTerm != term
  {
    LeaderWon(s, d);
    if s.nodes[d].currentTerm == term { WinnersAgree(s, d, winner, term); }
  }

  /** A vote request of term t that reaches a server leaves it in term t or a newer one. */
  lemma RequestRaisesTerm(n: nat, run: seq<Cluster>, k: nat, m: nat, e: nat, d: nat)
    requires IsRun(n, run) && 0 < k <= m < |run|
    requires Enabled(run[k - 1], DeliverVote(e, d)) && run[k] == Apply(run[k - 1], DeliverVote(e, d))
    ensures d < |run[m].nodes|
    ensures run[m].nodes[d].currentTerm >= run[k].elections[e].args.term
  {
    RunSize(n, run, k);
    TermsNeverFall(n, run, k, m, d);
  }

  /** A timed-out server asks every other server for its vote, and a leader's heartbeat goes to
      every other server. */
  lemma AsksEveryOther(s: Cluster, i: nat, d: nat)
    requires i < |s.nodes| && d < |s.nodes| && d != i
    ensures s.nodes[i].role != Leader ==>
      var es := Apply(s, Timeout(i)).elections;
      && |es| == |s.elections| + 1 && d in es[|s.elections|].calls && es[|s.elections|].calls[d] == Sent
      && es[|s.elections|].args == VoteArgs(OnTimeout(s.nodes[i], i), i) && es[|s.elections|].votes == 1
    ensures s.nodes[i].role == Leader ==>
      var rs := Apply(s, SendRound(i)).rounds;
      && |rs| == |s.rounds| + 1 && d in rs[|s.rounds|].calls && rs[|s.rounds|].calls[d] == Sent
      && rs[|s.rounds|].args == BeatArgs(s.nodes[i], i)
  {
  }

  /** A heartbeat reply of a newer term makes its receiver a follower of that term. */
  lemma NewerBeatReplyDeposes(s: Cluster, r: nat, d: nat)
    requires Enabled(s, ReturnBeat(r, d))
    requires s.rounds[r].calls[d].reply.term > s.nodes[s.rounds[r].args.leaderId].currentTerm
    ensures var n := Apply(s, ReturnBeat(r, d)).nodes[s.rounds[r].args.leaderId];
      n.role == Follower && n.currentTerm == s.rounds[r].calls[d].reply.term && n.votedFor == -1
  {
  }

  /** And so does a vote reply of a newer term that reaches a candidate still waiting for it. */
  lemma NewerVoteReplyDeposes(s: Cluster, e: nat, d: nat)
    requires Enabled(s, ReturnVote(e, d))
    requires var n := s.nodes[s.elections[e].candidate];
      n.role == Candidate && n.currentTerm == s.elections[e].args.term < s.elections[e].calls[d].reply.term
    ensures var n := Apply(s, ReturnVote(e, d)).nodes[s.elections[e].candidate];
      n.role == Follower && n.currentTerm == s.elections[e].calls[d].reply.term && n.votedFor == -1
  {
  }

  // ---- Logs over runs ------------------------------------------------------------

  lemma StepKeepsEntries(s: Cluster, step: Step, i: nat, x: int)
    requires Inv(s) && Enabled(s, step) && i < |s.nodes| && x in s.nodes[i].logs
    ensures var log := Apply(s, step).nodes[i].logs; x in log && log[x] == s.nodes[i].logs[x]
  {
    match step
    case ClientStart(j, command) => StartKeepsEntries(s, j, command, i, x);
    case DeliverBeat(r, d) => BeatKeepsLogs(s, r, d, i);
    case _ => OthersKeepLogs(s, step, i);
  }

  lemma OthersKeepLogs(s: Cluster, step: Step, i: nat)
    requires Enabled(s, step) && i < |s.nodes| && !step.ClientStart? && !step.DeliverBeat?
    ensures Apply(s, step).nodes[i].logs == s.nodes[i].logs
  {
  }

  lemma StartKeepsEntries(s: Cluster, j: nat, command: Command, i: nat, x: int)
    requires NodesOk(s) && j < |s.nodes| && i < |s.nodes| && x in s.nodes[i].logs
    ensures var log := Apply(s, ClientStart(j, command)).nodes[i].logs; x in log && log[x] == s.nodes[i].logs[x]
  {
    assert LogShape(s.nodes[i].logs);
  }

  lemma BeatKeepsLogs(s: Cluster, r: nat, d: nat, i: nat)
    requires RoundsOk(s) && Enabled(s, DeliverBeat(r, d)) && i < |s.nodes|
    ensures Apply(s, DeliverBeat(r, d)).nodes[i].logs == s.nodes[i].logs
  {
    assert RoundOk(s, s.rounds[r]);
  }

  lemma EntryStays(n: nat, run: seq<Cluster>, k: nat, i: nat, x: int)
    requires IsRun(n, run) && 0 < k < |run| && i < |run[k - 1].nodes| && x in run[k - 1].nodes[i].logs
    ensures i < |run[k].nodes| && x in run[k].nodes[i].logs
    ensures run[k].nodes[i].logs[x] == run[k - 1].nodes[i].logs[x]
  {
    RunInv(n, run, k - 1);
    var step := StepOf(n, run, k);
    StepExtends(run[k - 1], step);
    StepKeepsEntries(run[k - 1], step, i, x);
  }

  /** Entries stay: what is in a server's log at one moment is there, unchanged, ever after. */
  lemma {:induction false} EntriesStay(n: nat, run: seq<Cluster>, j: nat, k: nat, i: nat, x: int)
    requires IsRun(n, run) && j <= k < |run| && i < |run[j].nodes| && x in run[j].nodes[i].logs
    ensures i < |run[k].nodes| && x in run[k].nodes[i].logs
    ensures run[k].nodes[i].logs[x] == run[j].nodes[i].logs[x]
  {
    if j < k {
      EntriesStay(n, run, j, k - 1, i, x);
      EntryStays(n, run, k, i, x);
    }
  }

  /** A started command is stored for good: at the index that Start returned, which was free, the
      leader has the command under its term at every later moment. */
  lemma StartedStays(n: nat, run: seq<Cluster>, j: nat, k: nat, i: nat, command: Command)
    requires IsRun(n, run) && 0 < j <= k < |run|
    requires Enabled(run[j - 1], ClientStart(i, command)) && run[j] == Apply(run[j - 1], ClientStart(i, command))
    requires run[j - 1].nodes[i].role == Leader
    ensures var before := run[j - 1].nodes[i];
      var index := OnStart(before, command).1;
      && index !in before.logs && i < |run[k].nodes| && index in run[k].nodes[i].logs
      && run[k].nodes[i].logs[index] == LogEntry(before.currentTerm, command)
  {
    RunInv(n, run, j - 1);
    assert LogShape(run[j - 1].nodes[i].logs);
    EntriesStay(n, run, j, k, i, |run[j - 1].nodes[i].logs| + 1);
  }
}
