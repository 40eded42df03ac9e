/** What each handler, closure and ticker part of a server does, in terms of the messages and
    the fields alone, for every state and every message. */
module RaftHandlers {
  import opened RaftPeer
  import opened RaftLog

  function Max(a: int, b: int): int { if a < b then b else a }

  /** A message of term `term` leaves the server in the newer of the two terms; a newer one
      makes it a follower, and any other leaves its role alone. */
  ghost predicate Follows(n: Node, term: int, n': Node) {
    && n'.currentTerm == Max(n.currentTerm, term)
    && n'.role == (if term > n.currentTerm then Follower else n.role)
  }

  /** The fields that only AppendEntries and Start, or only winning, may change. */
  ghost predicate SameLog(n: Node, n': Node) {
    n'.logs == n.logs && n'.commitIndex == n.commitIndex
  }

  ghost predicate SameIndices(n: Node, n': Node) {
    n'.nextIndex == n.nextIndex && n'.matchIndex == n.matchIndex
  }

  // ---- RequestVote ---------------------------------------------------------------

  /** A vote is granted exactly to a request of the server's term or a newer one, if the vote of
      that term is still free or already the candidate's, and the candidate's log ends in a
      newer term, or in the same term and is no shorter. */
  lemma GrantsExactly(n: Node, args: RequestVoteArgs)
    ensures OnRequestVote(n, args).1.voteGranted <==>
      && args.term >= n.currentTerm
      && (args.term > n.currentTerm || n.votedFor == -1 || n.votedFor == args.candidateId)
      && (args.lastLogTerm > LastTerm(n.logs) ||
          (args.lastLogTerm == LastTerm(n.logs) && args.lastLogIndex >= |n.logs|))
  {
  }

  /** Whatever the answer, the server is then in the newer term and says so; its vote is the
      candidate's after a grant, free after the refusal of a newer term, and else as before. */
  lemma RequestVoteLeaves(n: Node, args: RequestVoteArgs)
    ensures var (n', reply) := OnRequestVote(n, args);
      && Follows(n, args.term, n') && reply.term == Max(n.currentTerm, args.term)
      && n'.votedFor == (if reply.voteGranted then args.candidateId
                         else if args.term > n.currentTerm then -1 else n.votedFor)
      && SameLog(n, n') && SameIndices(n, n')
  {
  }

  // ---- AppendEntries -------------------------------------------------------------

  /** A message of an older term changes nothing; a newer one makes the server a follower of
      that term with a free vote; one of the server's own term leaves role and vote alone. */
  lemma AppendEntriesLeaves(n: Node, args: AppendEntriesArgs)
    ensures var (n', reply) := OnAppendEntries(n, args);
      && Follows(n, args.term, n') && reply.term == Max(n.currentTerm, args.term)
      && n'.votedFor == (if args.term > n.currentTerm then -1 else n.votedFor)
      && (args.term < n.currentTerm ==> n' == n)
      && (!reply.success ==> SameLog(n, n'))
      && SameIndices(n, n')
  {
  }

  /** It succeeds exactly if it is not of an older term and the entry before its own is there
      with the right term, which index 0 and below need not be. */
  lemma AppendsExactly(n: Node, args: AppendEntriesArgs)
    ensures OnAppendEntries(n, args).1.success <==>
      && args.term >= n.currentTerm
      && (args.prevLogIndex <= 0 ||
          (args.prevLogIndex in n.logs && n.logs[args.prevLogIndex].term == args.prevLogTerm))
  {
  }

  /** A success moves the commit index only up to a larger one of the leader, and then to that
      one or to the last entry of the message, whichever comes first. */
  lemma CommitFollows(n: Node, args: AppendEntriesArgs)
    requires OnAppendEntries(n, args).1.success
    ensures var c, last := OnAppendEntries(n, args).0.commitIndex, args.prevLogIndex + |args.entries|;
      && (args.leaderCommit <= n.commitIndex ==> c == n.commitIndex)
      && (args.leaderCommit > n.commitIndex ==>
          c <= args.leaderCommit && c <= last && (c == args.leaderCommit || c == last))
  {
  }

  /** An entry of the message meets an entry of another term in the log, and `k` hangs on to
      that one without a gap. */
  ghost predicate Cut(log: Log, prev: int, entries: seq<LogEntry>, k: int) {
    exists i :: CutAt(log, prev, entries, k, i)
  }

  ghost predicate CutAt(log: Log, prev: int, entries: seq<LogEntry>, k: int, i: int) {
    && 0 <= i < |entries| && prev + 1 + i <= k
    && (forall x :: prev + 1 + i <= x <= k ==> x in log)
    && log[prev + 1 + i].term != entries[i].term
  }

  /** What the nested loops make of a log, whatever its shape: up to the previous index nothing
      changes, then come the entries of the message, and after them exactly those entries stay
      that are not cut off by a conflict. */
  ghost predicate WrittenAs(log: Log, prev: int, entries: seq<LogEntry>, r: Log) {
    && (forall k :: k <= prev ==> (k in r <==> k in log) && (k in log ==> r[k] == log[k]))
    && (forall i :: 0 <= i < |entries| ==> Stored(r, prev, entries, i))
    && (forall k :: k > prev + |entries| ==>
        (k in r <==> k in log && !Cut(log, prev, entries, k)) && (k in r ==> r[k] == log[k]))
  }

  /** The entries past the message after one more entry has been written. */
  lemma CutGrows(log: Log, prev: int, entries: seq<LogEntry>, k: int)
    requires entries != [] && k > prev + |entries|
    ensures Cut(log, prev, entries, k) <==>
      || Cut(log, prev, entries[..|entries| - 1], k)
      || CutAt(log, prev, entries, k, |entries| - 1)
  {
    var init := entries[..|entries| - 1];
    forall i | 0 <= i < |init| ensures CutAt(log, prev, entries, k, i) <==> CutAt(log, prev, init, k, i) {
      assert entries[i] == init[i];
    }
    if Cut(log, prev, init, k) {
      var i :| CutAt(log, prev, init, k, i);
      assert CutAt(log, prev, entries, k, i);
    }
  }

  lemma CutFurther(log: Log, prev: int, entries: seq<LogEntry>, y: int, k: int)
    requires Cut(log, prev, entries, y) && y <= k && forall x :: y <= x <= k ==> x in log
    ensures Cut(log, prev, entries, k)
  {
    var i :| CutAt(log, prev, entries, y, i);
    assert CutAt(log, prev, entries, k, i);
  }

  /** Index `k` past the message when its last entry is written over a log `q`. */
  lemma WriteLast(log: Log, prev: int, entries: seq<LogEntry>, q: Log, k: int)
    requires entries != [] && k > prev + |entries| && WrittenAs(log, prev, entries[..|entries| - 1], q)
    ensures var r := WriteEntry(q, prev + |entries|, entries[|entries| - 1]);
      (k in r <==> k in log && !Cut(log, prev, entries, k)) && (k in r ==> r[k] == log[k])
  {
    var init, x, e := entries[..|entries| - 1], prev + |entries|, entries[|entries| - 1];
    CutGrows(log, prev, entries, k);
    DeleteRunKeys(q, x, k);
    if k in log && forall y :: x <= y <= k ==> y in log {
      forall y | x <= y <= k ensures Cut(log, prev, init, y) ==> Cut(log, prev, init, k) {
        if Cut(log, prev, init, y) { CutFurther(log, prev, init, y, k); }
      }
    }
  }

  lemma {:induction false} WritesExactly(log: Log, prev: int, entries: seq<LogEntry>)
    ensures WrittenAs(log, prev, entries, WriteEntries(log, prev, entries))
  {
    if entries != [] {
      var init, x, e := entries[..|entries| - 1], prev + |entries|, entries[|entries| - 1];
      var q := WriteEntries(log, prev, init);
      var r := WriteEntry(q, x, e);
      WritesExactly(log, prev, init);
      forall k | k < x ensures (k in r <==> k in q) && (k in q ==> r[k] == q[k]) {
        DeleteRunKeys(q, x, k);
      }
      forall k | k > x ensures (k in r <==> k in log && !Cut(log, prev, entries, k)) && (k in r ==> r[k] == log[k]) {
        WriteLast(log, prev, entries, q, k);
      }
      forall i | 0 <= i < |entries| ensures Stored(r, prev, entries, i) {
        if i < |init| { assert Stored(q, prev, init, i); }
      }
    } else {
      forall k ensures !Cut(log, prev, entries, k) {}
    }
  }

  /** So a successful AppendEntries does this to the log of every server. */
  lemma AppendWritesExactly(n: Node, args: AppendEntriesArgs)
    requires OnAppendEntries(n, args).1.success
    ensures WrittenAs(n.logs, args.prevLogIndex, args.entries, OnAppendEntries(n, args).0.logs)
  {
    WritesExactly(n.logs, args.prevLogIndex, args.entries);
  }

  // ---- Start ---------------------------------------------------------------------

  /** A leader stores the command under its term at the index it returns, which is one past the
      length and was free, and keeps all other entries; any other server refuses. */
  lemma StartAppends(n: Node, command: Command)
    ensures var (n', index, term, isLeader) := OnStart(n, command);
      && (isLeader <==> n.role == Leader)
      && (isLeader ==>
          && index == |n.logs| + 1 && term == n.currentTerm
          && n'.logs.Keys == n.logs.Keys + {index} && n'.logs[index] == LogEntry(term, command)
          && (forall k :: k in n.logs && k != index ==> n'.logs[k] == n.logs[k])
          && n' == n.(logs := n'.logs))
      && (!isLeader ==> n' == n && index == -1 && term == -1)
  {
  }

  // ---- The ticker and the reply closures -----------------------------------------

  /** A timeout opens the next term with a vote for oneself and asks for votes with the end of
      the own log. */
  lemma TimeoutOpensTerm(n: Node, me: int)
    ensures var n' := OnTimeout(n, me);
      && n'.currentTerm == n.currentTerm + 1 && n'.role == Candidate && n'.votedFor == me
      && SameLog(n, n') && SameIndices(n, n')
      && VoteArgs(n', me) == RequestVoteArgs(n.currentTerm + 1, me, |n.logs|, LastTerm(n.logs))
  {
  }

  /** Whether a vote reply reaches a candidate that still runs the election it belongs to. */
  ghost predicate Awaited(n: Node, args: RequestVoteArgs) {
    n.role == Candidate && n.currentTerm == args.term
  }

  /** A reply that is not awaited changes nothing; one of a newer term makes a follower of that
      term; otherwise exactly a grant is counted, and a count above half makes a leader. */
  lemma VoteReplyLeaves(n: Node, me: int, peers: nat, args: RequestVoteArgs, votes: nat, reply: RequestVoteReply)
    ensures var (n', votes') := OnVoteReply(n, me, peers, args, votes, reply);
      && (!Awaited(n, args) ==> n' == n && votes' == votes)
      && (Awaited(n, args) && reply.term > n.currentTerm ==>
          votes' == votes && n' == n.(currentTerm := reply.term, role := Follower, votedFor := -1))
      && (Awaited(n, args) && reply.term <= n.currentTerm ==>
          && votes' == (if reply.voteGranted then votes + 1 else votes)
          && n'.role == (if reply.voteGranted && votes' > peers / 2 then Leader else Candidate)
          && n'.currentTerm == n.currentTerm && n'.votedFor == n.votedFor && SameLog(n, n'))
      && (n'.role == n.role ==> SameIndices(n, n'))
  {
  }

  lemma {:induction false} SetPeersAt(m: map<int, int>, count: nat, me: int, v: int, j: int)
    ensures var r := SetPeers(m, count, me, v);
      if 0 <= j < count && j != me then j in r && r[j] == v
      else (j in r <==> j in m) && (j in m ==> r[j] == m[j])
  {
    if count > 0 { SetPeersAt(m, count - 1, me, v, j); }
  }

  /** A new leader expects every other server to lack everything: its next index is one past the
      leader's log, its match index 0. Nothing is noted for other numbers. */
  lemma LeaderIndices(n: Node, me: int, peers: nat, args: RequestVoteArgs, votes: nat, reply: RequestVoteReply, j: int)
    requires n.role != Leader && OnVoteReply(n, me, peers, args, votes, reply).0.role == Leader
    ensures var n' := OnVoteReply(n, me, peers, args, votes, reply).0;
      if 0 <= j < peers && j != me then
        && j in n'.nextIndex && n'.nextIndex[j] == |n.logs| + 1
        && j in n'.matchIndex && n'.matchIndex[j] == 0
      else
        && (j in n'.nextIndex <==> j in n.nextIndex) && (j in n.nextIndex ==> n'.nextIndex[j] == n.nextIndex[j])
        && (j in n'.matchIndex <==> j in n.matchIndex) && (j in n.matchIndex ==> n'.matchIndex[j] == n.matchIndex[j])
  {
    SetPeersAt(n.nextIndex, peers, me, |n.logs| + 1, j);
    SetPeersAt(n.matchIndex, peers, me, 0, j);
  }

  /** A heartbeat is an AppendEntries message without entries, after index 0, in the leader's
      term and with its commit index, so that every server not in a newer term accepts it. */
  lemma HeartbeatIsAccepted(n: Node, me: int, follower: Node)
    ensures var args := BeatArgs(n, me);
      && args.term == n.currentTerm && args.leaderId == me && args.leaderCommit == n.commitIndex
      && args.entries == [] && args.prevLogIndex == 0 == args.prevLogTerm
      && (OnAppendEntries(follower, args).1.success <==> follower.currentTerm <= n.currentTerm)
      && OnAppendEntries(follower, args).0.logs == follower.logs
  {
  }

  /** A heartbeat reply of a newer term makes a follower of it; any other changes nothing. */
  lemma BeatReplyLeaves(n: Node, reply: AppendEntriesReply)
    ensures OnBeatReply(n, reply) ==
      if reply.term <= n.currentTerm then n
      else n.(currentTerm := reply.term, role := Follower, votedFor := -1)
  {
  }
}
