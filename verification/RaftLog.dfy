/** Log replication at the level of the AppendEntries handler. A log has the sentinel at
    key 0 and its entries at consecutive keys from `lo` on; `lo` is 1 in the paper and 2
    in the logs that this code builds, where no message about a log brings a fresh follower
    its first entry. */
module RaftLog {
  import opened RaftPeer

  ghost predicate Shape(log: Log, lo: int, n: int) {
    && 1 <= lo <= n + 1
    && (forall k :: k in log <==> k == 0 || lo <= k <= n)
    && log[0] == SENTINEL
  }

  ghost predicate HasShape(log: Log, lo: int) {
    exists n :: Shape(log, lo, n)
  }

  /** Log Matching: logs that agree on the term at an index agree up to that index. */
  ghost predicate LogsMatch(a: Log, b: Log) {
    forall k :: 0 < k && k in a && k in b && a[k].term == b[k].term ==> AgreeUpTo(a, b, k)
  }

  ghost predicate AgreeUpTo(a: Log, b: Log, k: int) {
    forall j :: 0 <= j <= k ==> (j in a <==> j in b) && (j in a ==> a[j] == b[j])
  }

  /** Entry `i` of a message is in the log, at its place after index `prev`. */
  ghost predicate Stored(log: Log, prev: int, entries: seq<LogEntry>, i: int)
    requires 0 <= i < |entries|
  {
    prev + 1 + i in log && log[prev + 1 + i] == entries[i]
  }

  /** The message describes consecutive entries of `log`. */
  ghost predicate Window(args: AppendEntriesArgs, log: Log) {
    && args.prevLogIndex >= 0
    && (args.prevLogIndex > 0 ==>
        args.prevLogIndex in log && log[args.prevLogIndex].term == args.prevLogTerm)
    && forall i :: 0 <= i < |args.entries| ==> Stored(log, args.prevLogIndex, args.entries, i)
  }

  ghost function Prefix(log: Log, m: int): Log {
    map k | k in log && k <= m :: log[k]
  }

  // ---- Deleting a run ------------------------------------------------------------

  /** The loop deletes exactly the keys reachable from `j` without a gap. */
  lemma {:induction false} DeleteRunKeys(log: Log, j: int, k: int)
    ensures k in DeleteRun(log, j) <==> k in log && !(j <= k && forall x :: j <= x <= k ==> x in log)
    ensures k in DeleteRun(log, j) ==> DeleteRun(log, j)[k] == log[k]
    decreases |log|
  {
    if j in log {
      var rest := log - {j};
      assert rest.Keys == log.Keys - {j};
      assert |rest.Keys| == |log.Keys| - 1;
      assert |rest.Keys| == |rest|;
      DeleteRunKeys(rest, j + 1, k);
      assert forall x :: x in rest <==> x in log && x != j;
      if j < k && k in log {
        if forall x :: j + 1 <= x <= k ==> x in rest {
          assert forall x :: j <= x <= k ==> x in log;
        } else {
          var x :| j + 1 <= x <= k && x !in rest;
          assert x !in log;
        }
      }
    }
  }

  lemma DeleteRunIsPrefix(log: Log, lo: int, n: int, j: int)
    requires Shape(log, lo, n) && lo <= j <= n
    ensures DeleteRun(log, j) == Prefix(log, j - 1)
  {
    forall k ensures k in DeleteRun(log, j) <==> k in Prefix(log, j - 1) {
      DeleteRunKeys(log, j, k);
    }
    forall k | k in DeleteRun(log, j) ensures DeleteRun(log, j)[k] == log[k] {
      DeleteRunKeys(log, j, k);
    }
  }

  // ---- Writing the entries -------------------------------------------------------

  /** Where the follower's log stands while the entries up to index `m` are written:
      untouched and equal to the leader's up to `m`, or cut down to the leader's first `m`. */
  ghost predicate Written(log: Log, follower: Log, leader: Log, m: int) {
    || log == Prefix(leader, m)
    || (log == follower && Prefix(follower, m) == Prefix(leader, m))
  }

  lemma WriteOne(log: Log, follower: Log, leader: Log, lo: int, nf: int, nl: int, m: int)
    requires Shape(follower, lo, nf) && Shape(leader, lo, nl) && LogsMatch(follower, leader)
    requires m >= 0 && m + 1 in leader
    requires Written(log, follower, leader, m)
    ensures Written(WriteEntry(log, m + 1, leader[m + 1]), follower, leader, m + 1)
  {
    var e := leader[m + 1];
    var r := WriteEntry(log, m + 1, e);
    assert Prefix(leader, m + 1) == Prefix(leader, m)[m + 1 := e];
    if m + 1 !in follower {
      assert forall k :: k in follower ==> k <= m;
      assert Prefix(follower, m) == follower;
    }
    if log == Prefix(leader, m) {
      assert m + 1 !in log;
    } else if follower[m + 1].term != e.term {
      DeleteRunIsPrefix(follower, lo, nf, m + 1);
    } else {
      assert follower[m + 1] == e;
      assert r == follower;
      assert Prefix(follower, m + 1) == Prefix(follower, m)[m + 1 := e];
    }
  }

  lemma SamePrefix(args: AppendEntriesArgs, follower: Log, leader: Log, lo: int, nf: int, nl: int)
    requires Shape(follower, lo, nf) && Shape(leader, lo, nl) && LogsMatch(follower, leader)
    requires Window(args, leader) && PrevMatches(follower, args)
    ensures Prefix(follower, args.prevLogIndex) == Prefix(leader, args.prevLogIndex)
  {
    var prev := args.prevLogIndex;
    if prev > 0 { assert AgreeUpTo(follower, leader, prev); }
  }

  lemma EntryOfWindow(args: AppendEntriesArgs, log: Log, i: nat)
    requires Window(args, log) && i < |args.entries|
    ensures args.prevLogIndex + 1 + i in log && log[args.prevLogIndex + 1 + i] == args.entries[i]
  {
    assert Stored(log, args.prevLogIndex, args.entries, i);
  }

  /** Writing `e` takes `Written` from index `m` to the next. */
  ghost predicate WritesOn(follower: Log, leader: Log, m: int, e: LogEntry) {
    forall q: Log :: Written(q, follower, leader, m) ==>
      Written(WriteEntry(q, m + 1, e), follower, leader, m + 1)
  }

  lemma {:induction false} WriteAll(follower: Log, leader: Log, prev: int, entries: seq<LogEntry>, n: nat)
    requires n <= |entries| && Written(follower, follower, leader, prev)
    requires forall i: nat :: i < |entries| ==> WritesOn(follower, leader, prev + i, entries[i])
    ensures Written(WriteEntries(follower, prev, entries[..n]), follower, leader, prev + n)
  {
    if n > 0 {
      WriteAll(follower, leader, prev, entries, n - 1);
      assert WritesOn(follower, leader, prev + (n - 1), entries[n - 1]);
      assert entries[..n][..n - 1] == entries[..n - 1];
    }
  }

  lemma WriteAllOf(follower: Log, leader: Log, prev: int, entries: seq<LogEntry>)
    requires Prefix(follower, prev) == Prefix(leader, prev)
    requires forall i: nat :: i < |entries| ==> WritesOn(follower, leader, prev + i, entries[i])
    ensures Written(WriteEntries(follower, prev, entries), follower, leader, prev + |entries|)
  {
    WriteAll(follower, leader, prev, entries, |entries|);
    assert entries[..|entries|] == entries;
  }

  lemma WriteInWindow(args: AppendEntriesArgs, i: nat, follower: Log, leader: Log, lo: int, nf: int, nl: int)
    requires Shape(follower, lo, nf) && Shape(leader, lo, nl) && LogsMatch(follower, leader)
    requires Window(args, leader) && i < |args.entries|
    ensures WritesOn(follower, leader, args.prevLogIndex + i, args.entries[i])
  {
    var m := args.prevLogIndex + i;
    EntryOfWindow(args, leader, i);
    forall q: Log | Written(q, follower, leader, m)
      ensures Written(WriteEntry(q, m + 1, args.entries[i]), follower, leader, m + 1)
    {
      WriteOne(q, follower, leader, lo, nf, nl, m);
    }
  }

  lemma WriteMany(args: AppendEntriesArgs, follower: Log, leader: Log, lo: int, nf: int, nl: int)
    requires Shape(follower, lo, nf) && Shape(leader, lo, nl) && LogsMatch(follower, leader)
    requires Window(args, leader) && PrevMatches(follower, args)
    ensures Written(WriteEntries(follower, args.prevLogIndex, args.entries), follower, leader,
                    args.prevLogIndex + |args.entries|)
  {
    SamePrefix(args, follower, leader, lo, nf, nl);
    forall i: nat | i < |args.entries| ensures WritesOn(follower, leader, args.prevLogIndex + i, args.entries[i]) {
      WriteInWindow(args, i, follower, leader, lo, nf, nl);
    }
    WriteAllOf(follower, leader, args.prevLogIndex, args.entries);
  }

  // ---- The theorems --------------------------------------------------------------

  lemma WriteOutcome(log: Log, args: AppendEntriesArgs, leader: Log, lo: int, nf: int, nl: int)
    requires Shape(log, lo, nf) && Shape(leader, lo, nl)
    requires LogsMatch(log, leader) && Window(args, leader) && PrevMatches(log, args)
    ensures var last := args.prevLogIndex + |args.entries|;
      var r := WriteEntries(log, args.prevLogIndex, args.entries);
      && (r == log || r == Prefix(leader, last))
      && Prefix(r, last) == Prefix(leader, last)
  {
    WriteMany(args, log, leader, lo, nf, nl);
    PrefixTwice(leader, args.prevLogIndex + |args.entries|);
  }

  /** The handler's effect on a log that matches the sender's: nothing, or the sender's
      log up to the last entry of the message. Success means that the two then agree up
      to that entry. */
  lemma AppendEntriesOutcome(n: Node, args: AppendEntriesArgs, leader: Log, lo: int, nf: int, nl: int)
    requires Shape(n.logs, lo, nf) && Shape(leader, lo, nl)
    requires LogsMatch(n.logs, leader) && Window(args, leader)
    ensures var last := args.prevLogIndex + |args.entries|;
      var (n', reply) := OnAppendEntries(n, args);
      && (n'.logs == n.logs || n'.logs == Prefix(leader, last))
      && (reply.success <==> n.currentTerm <= args.term && PrevMatches(n.logs, args))
      && (reply.success ==> Prefix(n'.logs, last) == Prefix(leader, last))
      && (!reply.success ==> n'.logs == n.logs)
  {
    if n.currentTerm <= args.term {
      assert Observe(n, args.term).logs == n.logs;
      if PrevMatches(n.logs, args) {
        WriteOutcome(n.logs, args, leader, lo, nf, nl);
      }
    }
  }

  /** In logs that begin at 2 there is no index 1, so no message that describes such a log can
      give a server its first entry: nothing but the sentinel stays nothing but the sentinel. */
  lemma FreshLogStaysEmpty(n: Node, args: AppendEntriesArgs, leader: Log, nl: int)
    requires Shape(leader, 2, nl) && Window(args, leader) && n.logs == map[0 := SENTINEL]
    ensures OnAppendEntries(n, args).0.logs == n.logs
    ensures args.entries != [] ==> !OnAppendEntries(n, args).1.success
  {
    if args.entries != [] {
      assert Stored(leader, args.prevLogIndex, args.entries, 0);
    }
  }

  lemma PrefixTwice(log: Log, m: int)
    ensures Prefix(Prefix(log, m), m) == Prefix(log, m)
  {
  }

  lemma PrefixMatches(a: Log, b: Log, m: int)
    requires LogsMatch(a, b)
    ensures LogsMatch(Prefix(a, m), b) && LogsMatch(b, Prefix(a, m))
  {
  }

  lemma PrefixShape(log: Log, lo: int, n: int, m: int)
    requires Shape(log, lo, n) && m >= 0
    ensures HasShape(Prefix(log, m), lo)
  {
    var n' := if n <= m then n else if m < lo then lo - 1 else m;
    assert Shape(Prefix(log, m), lo, n');
  }

  /** Every log of a cluster has the shape, and every two logs match. */
  ghost predicate AllMatch(logs: seq<Log>, lo: int) {
    && (forall i :: 0 <= i < |logs| ==> HasShape(logs[i], lo))
    && (forall i, j :: 0 <= i < |logs| && 0 <= j < |logs| ==> LogsMatch(logs[i], logs[j]))
  }

  lemma ReplaceOne(logs: seq<Log>, lo: int, f: nat, r: Log)
    requires AllMatch(logs, lo) && f < |logs|
    requires HasShape(r, lo)
    requires forall j :: 0 <= j < |logs| ==> LogsMatch(r, logs[j]) && LogsMatch(logs[j], r)
    ensures AllMatch(logs[f := r], lo)
  {
    var after := logs[f := r];
    forall i, j | 0 <= i < |after| && 0 <= j < |after| ensures LogsMatch(after[i], after[j]) {
      assert LogsMatch(r, logs[j]) && LogsMatch(logs[i], r) && LogsMatch(logs[i], logs[j]);
    }
  }

  /** The outcome for a message that describes a log `source` as it was when it had
      `m` as its last index. */
  lemma OutcomeOfSent(n: Node, args: AppendEntriesArgs, source: Log, m: int, lo: int)
    returns (p: int)
    requires HasShape(n.logs, lo) && HasShape(source, lo) && LogsMatch(source, n.logs)
    requires m >= 0 && Window(args, Prefix(source, m))
    ensures p >= 0
    ensures var r := OnAppendEntries(n, args).0.logs; r == n.logs || r == Prefix(source, p)
  {
    var nf :| Shape(n.logs, lo, nf);
    var ns :| Shape(source, lo, ns);
    PrefixShape(source, lo, ns, m);
    var nm :| Shape(Prefix(source, m), lo, nm);
    PrefixMatches(source, n.logs, m);
    AppendEntriesOutcome(n, args, Prefix(source, m), lo, nf, nm);
    p := Min(m, args.prevLogIndex + |args.entries|);
    assert Prefix(Prefix(source, m), args.prevLogIndex + |args.entries|) == Prefix(source, p);
  }

  /** Log Matching is kept across all logs when server `f` handles a message that is a
      window of the log of server `l`, or of any prefix that log had when it was sent. */
  lemma LogMatchingKept(logs: seq<Log>, lo: int, f: nat, l: nat, m: int, n: Node, args: AppendEntriesArgs)
    requires AllMatch(logs, lo) && f < |logs| && l < |logs|
    requires n.logs == logs[f] && m >= 0 && Window(args, Prefix(logs[l], m))
    ensures AllMatch(logs[f := OnAppendEntries(n, args).0.logs], lo)
  {
    assert LogsMatch(logs[l], logs[f]);
    var p := OutcomeOfSent(n, args, logs[l], m, lo);
    var r := OnAppendEntries(n, args).0.logs;
    if r == logs[f] {
      assert logs[f := r] == logs;
    } else {
      var nl :| Shape(logs[l], lo, nl);
      PrefixShape(logs[l], lo, nl, p);
      forall j | 0 <= j < |logs| ensures LogsMatch(r, logs[j]) && LogsMatch(logs[j], r) {
        PrefixMatches(logs[l], logs[j], p);
      }
      ReplaceOne(logs, lo, f, r);
    }
  }
}
