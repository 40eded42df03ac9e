/** One Raft server: its state, its RPC handlers, the election and heartbeat parts of
    its ticker and the reply closures those start. Every handler and closure runs
    under the server's mutex, so each is one atomic transition. The pure functions
    `On...` give a transition on a state value; the class `Raft` performs it in place. */
module RaftPeer {
  import opened Common

  datatype Role = Leader | Candidate | Follower

  datatype Command = NoCommand | Command(text: string)

  datatype LogEntry = LogEntry(term: int, command: Command)

  /** The Go map of entries, with a sentinel at key 0. */
  type Log = map<int, LogEntry>

  datatype RequestVoteArgs =
    RequestVoteArgs(term: int, candidateId: int, lastLogIndex: int, lastLogTerm: int)

  datatype RequestVoteReply = RequestVoteReply(term: int, voteGranted: bool)

  datatype AppendEntriesArgs = AppendEntriesArgs(
    term: int, leaderId: int, prevLogIndex: int, prevLogTerm: int,
    entries: seq<LogEntry>, leaderCommit: int)

  datatype AppendEntriesReply = AppendEntriesReply(term: int, success: bool)

  datatype Node = Node(
    role: Role, currentTerm: int, votedFor: int, logs: Log, commitIndex: int,
    nextIndex: map<int, int>, matchIndex: map<int, int>)

  const SENTINEL := LogEntry(0, NoCommand)

  function InitNode(): Node {
    Node(Follower, 0, -1, map[0 := SENTINEL], 0, map[], map[])
  }

  // ---- What a log ends with ------------------------------------------------------

  function LastTerm(log: Log): int {
    if |log| in log then log[|log|].term else 0
  }

  /** A log ending in (`index`, `term`) is at least as up to date as `log`. */
  predicate UpToDate(log: Log, index: int, term: int) {
    term > LastTerm(log) || (term == LastTerm(log) && index >= |log|)
  }

  // ---- Transitions ---------------------------------------------------------------

  /** A message with a newer term makes the server a follower of that term. */
  function Observe(n: Node, term: int): Node {
    if term > n.currentTerm then n.(currentTerm := term, role := Follower, votedFor := -1) else n
  }

  function OnRequestVote(n: Node, args: RequestVoteArgs): (Node, RequestVoteReply) {
    if args.term < n.currentTerm then
      (n, RequestVoteReply(n.currentTerm, false))
    else
      var m := Observe(n, args.term);
      if (m.votedFor == -1 || m.votedFor == args.candidateId)
         && UpToDate(m.logs, args.lastLogIndex, args.lastLogTerm)
      then (m.(votedFor := args.candidateId), RequestVoteReply(m.currentTerm, true))
      else (m, RequestVoteReply(m.currentTerm, false))
  }

  /** Deletes the maximal run of consecutive keys that starts at `j`. */
  function DeleteRun(log: Log, j: int): (r: Log)
    decreases |log|
  {
    if j in log then
      assert |log - {j}| < |log| by {
        assert (log - {j}).Keys == log.Keys - {j};
        assert |(log - {j}).Keys| == |log.Keys| - 1;
        assert |(log - {j}).Keys| == |log - {j}|;
        assert |log.Keys| == |log|;
      }
      DeleteRun(log - {j}, j + 1)
    else log
  }

  /** Writing one received entry: a conflicting entry and the run after it go first. */
  function WriteEntry(log: Log, index: int, e: LogEntry): Log {
    (if index in log && log[index].term != e.term then DeleteRun(log, index) else log)[index := e]
  }

  function WriteEntries(log: Log, prev: int, entries: seq<LogEntry>): Log {
    if entries == [] then log
    else WriteEntry(WriteEntries(log, prev, entries[..|entries| - 1]),
                    prev + |entries|, entries[|entries| - 1])
  }

  function Min(a: int, b: int): int { if a < b then a else b }

  predicate PrevMatches(log: Log, args: AppendEntriesArgs) {
    args.prevLogIndex > 0 ==>
      args.prevLogIndex in log && log[args.prevLogIndex].term == args.prevLogTerm
  }

  function OnAppendEntries(n: Node, args: AppendEntriesArgs): (Node, AppendEntriesReply) {
    if n.currentTerm > args.term then
      (n, AppendEntriesReply(n.currentTerm, false))
    else
      var m := Observe(n, args.term);
      if !PrevMatches(m.logs, args) then
        (m, AppendEntriesReply(m.currentTerm, false))
      else
        (m.(logs := WriteEntries(m.logs, args.prevLogIndex, args.entries),
            commitIndex :=
              if args.leaderCommit > m.commitIndex
              then Min(args.leaderCommit, args.prevLogIndex + |args.entries|)
              else m.commitIndex),
         AppendEntriesReply(m.currentTerm, true))
  }

  function OnStart(n: Node, command: Command): (Node, int, int, bool) {
    if n.role != Leader then (n, -1, -1, false)
    else (n.(logs := n.logs[|n.logs| + 1 := LogEntry(n.currentTerm, command)]),
          |n.logs| + 1, n.currentTerm, true)
  }

  /** The election timeout of a server that is not leader. */
  function OnTimeout(n: Node, me: int): Node {
    n.(role := Candidate, currentTerm := n.currentTerm + 1, votedFor := me)
  }

  function VoteArgs(n: Node, me: int): RequestVoteArgs {
    RequestVoteArgs(n.currentTerm, me, |n.logs|, LastTerm(n.logs))
  }

  /** `m` with `v` stored for each of the first `count` servers except `me`. */
  function SetPeers(m: map<int, int>, count: nat, me: int, v: int): map<int, int> {
    if count == 0 then m
    else
      var r := SetPeers(m, count - 1, me, v);
      if count - 1 != me then r[count - 1 := v] else r
  }

  /** The closure that receives a vote reply; `votes` is the counter its election shares. */
  function OnVoteReply(n: Node, me: int, peers: nat, args: RequestVoteArgs, votes: nat,
                       reply: RequestVoteReply): (Node, nat)
  {
    if n.role != Candidate || n.currentTerm != args.term then (n, votes)
    else if reply.term > n.currentTerm then (Observe(n, reply.term), votes)
    else if !reply.voteGranted then (n, votes)
    else if votes + 1 > peers / 2 then
      (n.(role := Leader,
          nextIndex := SetPeers(n.nextIndex, peers, me, |n.logs| + 1),
          matchIndex := SetPeers(n.matchIndex, peers, me, 0)), votes + 1)
    else (n, votes + 1)
  }

  function BeatArgs(n: Node, me: int): AppendEntriesArgs {
    AppendEntriesArgs(n.currentTerm, me, 0, 0, [], n.commitIndex)
  }

  function OnBeatReply(n: Node, reply: AppendEntriesReply): Node {
    Observe(n, reply.term)
  }

  // ---- The server object ---------------------------------------------------------

  class Raft {
    const me: int
    const peers: nat
    var role: Role
    var currentTerm: int
    var votedFor: int
    var logs: Log
    var commitIndex: int
    var nextIndex: map<int, int>
    var matchIndex: map<int, int>

    ghost function State(): Node
      reads this
    {
      Node(role, currentTerm, votedFor, logs, commitIndex, nextIndex, matchIndex)
    }

    constructor Make(peers: nat, me: int)
      ensures this.me == me && this.peers == peers
      ensures State() == InitNode()
      ensures role == Follower && currentTerm == 0 && votedFor == -1 && commitIndex == 0
      ensures logs.Keys == {0} && logs[0].term == 0 && nextIndex == matchIndex == map[]
    {
      this.me, this.peers := me, peers;
      role, currentTerm, votedFor := Follower, 0, -1;
      logs, commitIndex := map[0 := SENTINEL], 0;
      nextIndex, matchIndex := map[], map[];
    }

    method IsLogUpToDate(lastLogIndex: int, lastLogTerm: int) returns (b: bool)
      ensures b == UpToDate(logs, lastLogIndex, lastLogTerm)
    {
      var lastEntryIndex := |logs|;
      var lastEntryTerm := 0;
      if lastEntryIndex > 0 {
        if lastEntryIndex in logs {
          lastEntryTerm := logs[lastEntryIndex].term;
        }
      }
      if lastLogTerm > lastEntryTerm {
        return true;
      }
      return lastLogTerm == lastEntryTerm && lastLogIndex >= lastEntryIndex;
    }

    method RequestVote(args: RequestVoteArgs) returns (reply: RequestVoteReply)
      modifies this
      ensures (State(), reply) == OnRequestVote(old(State()), args)
    {
      if args.term < currentTerm {
        return RequestVoteReply(currentTerm, false);
      }
      if args.term > currentTerm {
        currentTerm, role, votedFor := args.term, Follower, -1;
      }
      var upToDate := IsLogUpToDate(args.lastLogIndex, args.lastLogTerm);
      var canVote := (votedFor == -1 || votedFor == args.candidateId) && upToDate;
      if canVote {
        votedFor := args.candidateId;
      }
      reply := RequestVoteReply(currentTerm, canVote);
    }

    /** The inner loop of AppendEntries: deletes from `index` on until a key is missing. */
    method DeleteFrom(index: int)
      modifies `logs
      ensures logs == DeleteRun(old(logs), index)
    {
      var j := index;
      while j in logs
        invariant DeleteRun(logs, j) == DeleteRun(old(logs), index)
        decreases |logs|
        modifies `logs
      {
        assert (logs - {j}).Keys == logs.Keys - {j};
        assert |(logs - {j}).Keys| == |logs.Keys| - 1;
        assert |(logs - {j}).Keys| == |logs - {j}|;
        logs := logs - {j};
        j := j + 1;
      }
    }

    /** The outer loop of AppendEntries. */
    method WriteAll(prev: int, entries: seq<LogEntry>)
      modifies `logs
      ensures logs == WriteEntries(old(logs), prev, entries)
    {
      var i := 0;
      while i < |entries|
        invariant 0 <= i <= |entries|
        invariant logs == WriteEntries(old(logs), prev, entries[..i])
        modifies `logs
      {
        var index, entry := prev + i + 1, entries[i];
        if index in logs && logs[index].term != entry.term {
          DeleteFrom(index);
        }
        logs := logs[index := entry];
        assert entries[..i + 1][..i] == entries[..i];
        i := i + 1;
      }
      assert entries[..i] == entries;
    }

    method AppendEntries(args: AppendEntriesArgs) returns (reply: AppendEntriesReply)
      modifies this
      ensures (State(), reply) == OnAppendEntries(old(State()), args)
    {
      if currentTerm > args.term {
        return AppendEntriesReply(currentTerm, false);
      }
      if args.term > currentTerm {
        currentTerm, role, votedFor := args.term, Follower, -1;
      }
      if args.prevLogIndex > 0 {
        if args.prevLogIndex !in logs || logs[args.prevLogIndex].term != args.prevLogTerm {
          return AppendEntriesReply(currentTerm, false);
        }
      }
      WriteAll(args.prevLogIndex, args.entries);
      reply := AppendEntriesReply(currentTerm, true);
      if args.leaderCommit > commitIndex {
        var lastNewIndex := args.prevLogIndex + |args.entries|;
        commitIndex := Min(args.leaderCommit, lastNewIndex);
      }
    }

    method Start(command: Command) returns (index: int, term: int, isLeader: bool)
      modifies this`logs
      ensures (State(), index, term, isLeader) == OnStart(old(State()), command)
    {
      index, term := -1, -1;
      isLeader := role == Leader;
      if !isLeader {
        return;
      }
      index, term := |logs| + 1, currentTerm;
      logs := logs[index := LogEntry(term, command)];
    }

    /** The election part of one ticker round; `elapsed` says that the timeout has passed. */
    method TickElection(elapsed: bool) returns (request: Option<RequestVoteArgs>)
      modifies this
      ensures old(role) != Leader && elapsed ==>
        State() == OnTimeout(old(State()), me) && request == Some(VoteArgs(State(), me))
      ensures !(old(role) != Leader && elapsed) ==> State() == old(State()) && request == None
    {
      request := None;
      if role != Leader && elapsed {
        role := Candidate;
        currentTerm := currentTerm + 1;
        votedFor := me;
        var lastLogIndex, lastLogTerm := |logs|, 0;
        if lastLogIndex > 0 {
          if lastLogIndex in logs {
            lastLogTerm := logs[lastLogIndex].term;
          }
        }
        request := Some(RequestVoteArgs(currentTerm, me, lastLogIndex, lastLogTerm));
      }
    }

    method VoteReply(args: RequestVoteArgs, votes: nat, reply: RequestVoteReply)
      returns (votesReceived: nat)
      modifies this
      ensures (State(), votesReceived) == OnVoteReply(old(State()), me, peers, args, votes, reply)
    {
      votesReceived := votes;
      if role != Candidate || currentTerm != args.term {
        return;
      }
      if reply.term > currentTerm {
        currentTerm, role, votedFor := reply.term, Follower, -1;
        return;
      }
      if reply.voteGranted {
        votesReceived := votesReceived + 1;
        if votesReceived > peers / 2 {
          role := Leader;
          ghost var next0, match0 := nextIndex, matchIndex;
          var j := 0;
          while j < peers
            invariant 0 <= j <= peers
            invariant nextIndex == SetPeers(next0, j, me, |logs| + 1)
            invariant matchIndex == SetPeers(match0, j, me, 0)
            modifies `nextIndex, `matchIndex
          {
            if j != me {
              nextIndex := nextIndex[j := |logs| + 1];
              matchIndex := matchIndex[j := 0];
            }
            j := j + 1;
          }
        }
      }
    }

    /** The heartbeat part of one ticker round: the arguments sent to every other peer. */
    method TickHeartbeat() returns (args: Option<AppendEntriesArgs>)
      ensures args == if role == Leader then Some(BeatArgs(State(), me)) else None
    {
      args := None;
      if role == Leader {
        args := Some(AppendEntriesArgs(currentTerm, me, 0, 0, [], commitIndex));
      }
    }

    method HeartbeatReply(reply: AppendEntriesReply)
      modifies this
      ensures State() == OnBeatReply(old(State()), reply)
    {
      if reply.term > currentTerm {
        currentTerm, role, votedFor := reply.term, Follower, -1;
      }
    }
  }
}
