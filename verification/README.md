# Verified models of the distributed systems labs

This project models five components of the repository in Dafny and proves what they are for:

- **Raft elections and the AppendEntries handler** (`src/raft1/raft.go`). `RaftPeer` is one
  server: a class `Raft` whose methods are the handlers, the ticker's two parts and the reply
  closures, each proved against a transition on a state value. `RaftCluster` is n servers over
  a network that loses, delays and reorders messages, as a state machine whose steps are those
  transitions. `RaftHandlers` says exactly what each transition does to every state on every
  message; `RaftElections` and `RaftLeaders` hold the theorems over whole runs, `RaftLog` the
  theorems about log replication at the handler.
- **Versioned key/value server, retrying clerk and linearizability** (`src/kvsrv1`,
  `src/models1/kv.go`). `KvServer` and `KvClerk` are the code, `KvModel` the sequential
  specification, `KvNetwork` any number of clerks over a lossy, delaying network;
  `KvLinearizability`, `KvOutcomes`, `KvLateNetwork` and `KvLateOutcomes` hold the theorems.
- **Lock built on the clerk** (`src/kvsrv1/lock/lock.go`). `LockService` is the code
  and the system of clients, `LockSafety` and `LockProgress` hold the theorems.
- **Shard rebalancing and configurations** (`src/shardkv1/shardcfg/shardcfg.go`). `ShardConfig`
  is the object with its in-place loops; `ShardLoads`, `ShardRebalance` and `ShardMinimal` prove
  termination, balance, exact loads and minimal movement; `ShardRuns` is about sequences of
  operations.
- **MapReduce** (`src/mr/worker.go`, `src/mr/coordinator.go`, `src/main/mrsequential.go`).
  `MrGrouping` and `MrShuffle` are the tasks and the sequential program, `MrCoordinator` the
  coordinator, `MrRuns` coordinator and workers together, `MrLateReport` what late reports do to
  which jobs.

`Common` holds what they share. Every `IsRun` predicate describes all finite runs: any
interleaving of enabled steps from the initial state, so a theorem about `run[k]` is about every
reachable state.

## Assumptions

- Each Raft handler, reply closure and ticker part holds the server's mutex, so it is one atomic
  step. Servers do not restart. Each remote call runs its handler at most once and delivers at
  most one reply, as `src/labrpc/labrpc.go` does.
- Timeouts are steps that may happen at any time. Randomness and clocks do not appear.
- The key/value network comes in four settings. With `late`, a clerk may give up on an attempt
  whose request still travels; without it, a call fails only once its request or reply is gone.
  The simulated network is of the second kind, except that it fails a call whose handler still
  runs when the client's end is disabled or the server is removed
  (`src/labrpc/labrpc.go:281-305`). With `seen`, clients pass only versions the key has reached.
  Whatever is not said to depend on the setting holds in all four, and so do the lock theorems.
- Lock clients have distinct non-empty ids, alternate Acquire and Release, and nobody else uses
  the lock key. `kvtest.OK` in `src/kvsrv1/lock/lock.go:48` is read as the clerk's OK.
- Shard counts go from 1 to 256, for which the initial minimum of 257 in `analyze` is safe.
- `ihash` is an arbitrary function into the naturals; Map is any function of name and content;
  Reduce is any function, and one that ignores the order of values where outputs are compared.
  Files are sequences of pairs.

## What the code turned out to do

- The first command of a Raft log lands at index 2, because the sentinel is at key 0 and `Start`
  uses the length plus one. `LastTermIsLastEntry` shows that the last-entry test still reads the
  entry with the largest index.
- For the same reason no AppendEntries message about such a log can give a fresh follower its
  first entry: there is no index 1 to start from (`FreshLogStaysEmpty`).
- A majority is tested only when a vote reply arrives, so a single server never becomes leader;
  with two or more servers every run can go on to a leader (`LeaderAlwaysReachable`,
  `LeaderReachable`).
- Linearizability fails if a request can arrive after its clerk has given up on it *and* clients
  pass versions ahead of the key; either restriction alone is enough (`LinearizableExactly`).
  Under the same exact condition a Put that has returned takes no effect any more, ErrNoKey
  means that it had none, and versions stay within #OK + #ErrMaybe (`OutcomesExactly`).
- All shards can be 0 while a group exists, because a group may have id 0 (`AllZeroExactly`,
  `ZeroAsGroup`).
- The coordinator does not look at its phase when a report arrives. A map report that is handled
  in the reduce phase marks a reduce task completed. So every job with at least two map tasks and
  two reduce tasks has a run that is done with an output missing, and no other job has
  (`DoneExactly`). A job with a single map task only starts its reduce tasks again.
- A late map report also makes the coordinator index past its tasks and stop, in some run of
  every job with more map tasks than reduce tasks and of no other (`StopsExactly`). Outputs that
  do exist are right in every case (`OutputsAreSequential`).

## Model

| member | source | states |
|---|---|---|
| `RaftPeer.Raft.Make` | src/raft1/raft.go:572-600 | a fresh server is a follower of term 0 that has not voted, with a log of just the sentinel at key 0 |
| `RaftPeer.Raft.IsLogUpToDate` | src/raft1/raft.go:609-626 | true exactly when the given last term is larger than the log's, or equal with an index at least the log's length |
| `RaftPeer.Raft.RequestVote` | src/raft1/raft.go:177-208 | new state and reply are the vote transition that the run theorems are about |
| `RaftPeer.Raft.DeleteFrom` | src/raft1/raft.go:286-292 | the inner loop deletes the run of consecutive keys from the conflict on |
| `RaftPeer.Raft.WriteAll` | src/raft1/raft.go:279-300 | the nested delete and insert loops write all entries as the transition does |
| `RaftPeer.Raft.AppendEntries` | src/raft1/raft.go:249-308 | new state and reply are the append transition, on every path |
| `RaftPeer.Raft.Start` | src/raft1/raft.go:337-366 | a leader appends at length plus one under its term; any other server refuses and changes nothing |
| `RaftPeer.Raft.TickElection` | src/raft1/raft.go:411-434 | a timed-out server that is not leader enters the next term, votes for itself and sends a snapshot of its log's end; otherwise nothing happens |
| `RaftPeer.Raft.VoteReply` | src/raft1/raft.go:511-545 | the closure drops stale replies, steps down for newer terms, counts grants and takes the lead on a majority, setting up every peer's indices |
| `RaftPeer.Raft.TickHeartbeat` | src/raft1/raft.go:439-459 | exactly a leader sends an empty heartbeat of its term |
| `RaftPeer.Raft.HeartbeatReply` | src/raft1/raft.go:465-477 | a reply of a newer term makes the server a follower of that term |
| `RaftHandlers.GrantsExactly` | src/raft1/raft.go:185-207 | for every state and request, the vote is granted if and only if the term is not older, the vote of that term is free or already the candidate's, and the candidate's log ends in a newer term or in the same one and is no shorter |
| `RaftHandlers.RequestVoteLeaves` | src/raft1/raft.go:177-208 | after grant and refusal alike the server is in the newer of the two terms and replies it, a follower if the request's was newer, with the vote given, freed or as before, and nothing else changed |
| `RaftHandlers.AppendEntriesLeaves` | src/raft1/raft.go:249-268 | an older message changes nothing; a newer one makes a follower of its term with a free vote; one of the same term leaves role and vote alone; the reply carries the newer term, and a refusal leaves the log alone |
| `RaftHandlers.AppendsExactly` | src/raft1/raft.go:254-277 | success if and only if the message is not older and the entry before its own is there with its term, or is at index 0 or below |
| `RaftHandlers.AppendWritesExactly` | src/raft1/raft.go:279-300 | for every log, whatever its shape: entries up to the previous index stay, then come the message's, and of the later ones exactly those stay that no conflict cuts off without a gap |
| `RaftHandlers.CommitFollows` | src/raft1/raft.go:303-307 | the commit index moves only for a larger one of the leader, to that one or the last entry of the message, whichever is less |
| `RaftHandlers.StartAppends` | src/raft1/raft.go:337-366 | a leader stores the very command under its term at the free index one past its length, which it returns with the term, and keeps all other entries; any other server returns (-1, -1, false) and changes nothing |
| `RaftHandlers.TimeoutOpensTerm` | src/raft1/raft.go:411-434 | a timeout opens the next term as candidate with a vote for oneself and asks with the length of the own log and the term at its end |
| `RaftHandlers.VoteReplyLeaves` | src/raft1/raft.go:518-545 | a reply not awaited changes nothing, a newer term makes a follower of it, and otherwise exactly grants are counted and exactly a count above half makes a leader |
| `RaftHandlers.LeaderIndices` | src/raft1/raft.go:535-541 | a new leader sets the next index of exactly every other server to one past its length and the match index to 0 |
| `RaftHandlers.HeartbeatIsAccepted` | src/raft1/raft.go:451-459 | a heartbeat carries the leader's term, id and commit index, and is accepted by every server that is not in a newer term, without touching its log |
| `RaftHandlers.BeatReplyLeaves` | src/raft1/raft.go:465-476 | a heartbeat reply of a newer term makes a follower of that term with a free vote; any other changes nothing |
| `RaftCluster.StepRemembers` | src/raft1/raft.go:191-207 | no step lowers a term, and none changes a vote within a term once it is given |
| `RaftCluster.StepInv` | src/raft1/raft.go:177-547 | every step, including loss, delay and reordering, keeps the cluster invariant on votes, counters, roles, logs and messages in flight |
| `RaftCluster.RunInv` | src/raft1/raft.go:177-547 | the invariant holds in every reachable state of every cluster |
| `RaftElections.QuorumsMeet` | src/raft1/raft.go:532 | two sets of more than half of the servers share a server |
| `RaftElections.VotersGranted` | src/raft1/raft.go:495-546 | an election's counter is the number of distinct servers that granted it, and a won one has a majority of them |
| `RaftElections.OneWinnerPerTerm` | src/raft1/raft.go:530-534 | two won elections of one term are the same election |
| `RaftElections.ElectionSafety` | src/raft1/raft.go:177-208 | a leader of a term at one moment and a leader of that term at any later moment of a run are the same server |
| `RaftElections.OneLeaderPerHeartbeatTerm` | src/raft1/raft.go:439-464 | all heartbeats ever sent with one term name one leader, which won that term's election |
| `RaftElections.HeartbeatDeposes` | src/raft1/raft.go:260-265 | from the moment a heartbeat of term t reaches a server, that server's term is at least t and it leads newer terms only, over the whole rest of the run |
| `RaftElections.RequestRaisesTerm` | src/raft1/raft.go:190-196 | from the moment a vote request of term t reaches a server, that server's term is at least t |
| `RaftElections.NewerBeatReplyDeposes` | src/raft1/raft.go:470-475 | a heartbeat reply of a newer term makes the leader that gets it a follower of that term |
| `RaftElections.NewerVoteReplyDeposes` | src/raft1/raft.go:522-528 | a vote reply of a newer term makes the candidate that awaits it a follower of that term |
| `RaftElections.AsksEveryOther` | src/raft1/raft.go:446-478 | a timed-out server sends its request, and a leader its heartbeat, to every other server |
| `RaftElections.TermsNeverFall` | src/raft1/raft.go:411-416 | over a run no server's term decreases |
| `RaftElections.OneVotePerTerm` | src/raft1/raft.go:191-207 | all grants of one server in one term belong to one election, and a vote count never exceeds the number of servers that granted |
| `RaftElections.BecomesLeader` | src/raft1/raft.go:530-542 | the only step that makes a leader is counting a vote, in the election of the leader's own term |
| `RaftElections.ElectionRestriction` | src/raft1/raft.go:199-200 | when a server becomes leader, a majority had granted it their votes with logs no more up to date than its log at that moment |
| `RaftElections.LastTermIsLastEntry` | src/raft1/raft.go:609-616 | in every reachable state the term read at key `len` is that of the entry with the largest index, although key 1 is never used |
| `RaftElections.LogsMatchInRuns` | src/raft1/raft.go:354-363 | entries of one term past the sentinel are on one server only, in every reachable state |
| `RaftElections.EntriesStay` | src/raft1/raft.go:279-300 | what is in a server's log at one moment of a run is there unchanged at every later one |
| `RaftElections.StartedStays` | src/raft1/raft.go:353-366 | a command accepted by Start stays, under the leader's term, at the index that Start returned and that was free before |
| `RaftLeaders.LonelyNeverLeads` | src/raft1/raft.go:505-534 | a cluster of one server has no leader in any run |
| `RaftLeaders.LeaderAlwaysReachable` | src/raft1/raft.go:411-434 | with two servers or more, every run, whatever has happened in it, can go on to a state with a leader |
| `RaftLeaders.LeaderReachable` | src/raft1/raft.go:530-534 | some run elects a leader if and only if there are at least two servers |
| `RaftLog.DeleteRunKeys` | src/raft1/raft.go:286-292 | the deletion loop removes exactly the keys reachable from its start without a gap and keeps all other entries |
| `RaftLog.DeleteRunIsPrefix` | src/raft1/raft.go:283-294 | on a contiguous log it leaves the entries before the conflict |
| `RaftLog.AppendEntriesOutcome` | src/raft1/raft.go:249-308 | for a window of a matching log the follower's log ends unchanged or as a prefix of that log, success is decided by term and previous entry, and success means agreement up to the last entry sent |
| `RaftLog.FreshLogStaysEmpty` | src/raft1/raft.go:270-277 | in logs that begin at index 2, as `Start` builds them, no window gives a server with only the sentinel an entry, and a non-empty one is refused |
| `RaftLog.OutcomeOfSent` | src/raft1/raft.go:270-301 | the same for a message that describes the sender's log as it was when sent |
| `RaftLog.LogMatchingKept` | src/raft1/raft.go:270-301 | pairwise Log Matching and contiguity of all logs survive the handling of any such message |
| `KvServer.PutIsCompareAndSwap` | src/kvsrv1/server.go:65-99 | Put succeeds exactly at the current version, then installs the value at the next version and touches no other key; a failure changes nothing and says whether the key exists |
| `KvServer.KVServer.constructor` | src/kvsrv1/server.go:34-40 | a new server is empty |
| `KvServer.KVServer.Get` | src/kvsrv1/server.go:44-59 | the reply is the stored value and version, or ErrNoKey with version 0 |
| `KvServer.KVServer.Put` | src/kvsrv1/server.go:65-99 | new store and error are those of the compare-and-swap |
| `KvClerk.Get` | src/kvsrv1/client.go:34-54 | returns the first answer to any attempt, and retries as long as there is none |
| `KvClerk.Put` | src/kvsrv1/client.go:73-110 | returns the first answer, with ErrVersion turned into ErrMaybe exactly on a resend |
| `KvModel.Partition` | src/models1/kv.go:27-43 | one part for each key of the history, in the order of the keys, with the key's operations in order |
| `KvModel.PartIsExact` | src/models1/kv.go:28-32 | a part has each operation of its key as often as the history, and no other operation |
| `KvModel.OnKeyAppends` | src/models1/kv.go:29-31 | a part keeps the order of the history, operation by operation |
| `KvNetwork.ReturnedIsInert` | src/kvsrv1/client.go:80-108 | with prompt failure or seen versions, a request of an operation that has returned cannot take effect |
| `KvNetwork.EffectIsOnce` | src/kvsrv1/server.go:72-98 | in every setting a Put that has taken effect does not take effect again |
| `KvNetwork.BaseKept` | src/kvsrv1/client.go:34-110 | in every setting each step keeps what replies in flight and results say about effects |
| `KvNetwork.RunBase` | src/labrpc/labrpc.go:249-340 | and that holds in every reachable state, under loss, delay, reordering and late requests |
| `KvNetwork.StepInv` | src/kvsrv1/client.go:34-110 | with prompt failure or seen versions, every step keeps the stronger invariant, by which ErrNoKey also means no effect |
| `KvNetwork.RunInv` | src/labrpc/labrpc.go:249-340 | that invariant holds in every reachable state of those settings |
| `KvLinearizability.ServeIsLegal` | src/kvsrv1/server.go:44-99 | each server answer is a legal model step in the state of the store and leads to the state of the new store |
| `KvLinearizability.ModelIsServer` | src/models1/kv.go:49-67 | on every store an output is legal if and only if it has the value the server answers, or for a Put is ErrMaybe or the server's answer with ErrNoKey read as ErrVersion, and model and server move on alike |
| `KvLinearizability.LegalReplays` | src/models1/kv.go:49-67 | a legal order replays on each key as legal steps of the model, to the state it stands for |
| `KvLinearizability.EveryHistoryLinearizes` | src/models1/kv.go:49-67 | every history has an order with one point inside each call, respecting real time, that replays as legal model steps on each key and ends in the contents of the store |
| `KvLateNetwork.LateHistoryFails` | src/kvsrv1/client.go:86-100 | a history in which a Put takes effect after it returned ErrMaybe has no linearization |
| `KvLateNetwork.LinearizableExactly` | src/kvsrv1/client.go:73-110 | all histories of a setting are linearizable if and only if requests cannot outlive their attempt or clients pass only versions the key has reached |
| `KvOutcomes.ResultStays` | src/kvsrv1/client.go:80-108 | in every setting a returned result stays, and so does an effect |
| `KvOutcomes.ReturnedForGood` | src/kvsrv1/client.go:80-108 | with prompt failure or seen versions, whether a Put took effect does not change after its return |
| `KvOutcomes.PutOutcome` | src/kvsrv1/client.go:80-108 | in every setting and at every later moment, OK means exactly one effect, ErrVersion none and no message left that could have one, and every other result at most one |
| `KvOutcomes.RunCounted` | src/kvsrv1/server.go:72-98 | in every setting each Put takes effect at most once, at a version equal to the number of effects on its key before it |
| `KvOutcomes.VersionConservation` | src/kvtest1/kvtest.go:126-139 | in every setting a key's version is the number of Puts that took effect on it, no two at one version, and at least the number that returned OK |
| `KvOutcomes.SoundVersions` | src/kvtest1/kvtest.go:137-139 | with prompt failure or seen versions, once no Put on the key is pending its version is at most #OK + #ErrMaybe |
| `KvOutcomes.SoundOutcomes` | src/kvsrv1/client.go:80-108 | with prompt failure or seen versions, no Put takes effect after its return and ErrNoKey means no effect |
| `KvLateOutcomes.LateOutcomes` | src/kvsrv1/client.go:96-107 | a run with a late request and a version ahead of the key in which a Put returns ErrNoKey, then takes effect, and the version exceeds #OK + #ErrMaybe |
| `KvLateOutcomes.OutcomesExactly` | src/kvsrv1/client.go:80-108 | finality of results, ErrNoKey without effect, and the bound #OK + #ErrMaybe each hold if and only if the network fails promptly or clients pass only versions the key has reached |
| `LockService.Acquire` | src/kvsrv1/lock/lock.go:34-59 | for any clerk results the calls made are those of the acquire protocol, and it returns exactly when it has the lock |
| `LockService.AcquiredMeans` | src/kvsrv1/lock/lock.go:40-51 | it has the lock if and only if some Put was answered OK that carried the version of a Get which found the lock free or its own |
| `LockService.Release` | src/kvsrv1/lock/lock.go:61-74 | after its Get, Release puts the empty value at the version it read if and only if it found its own id |
| `LockSafety.ChangerIsOwner` | src/kvsrv1/lock/lock.go:42-51 | while one client owns the lock, no request of another can change the lock key |
| `LockSafety.MoveInv` | src/kvsrv1/lock/lock.go:34-74 | every step of clients, network and server keeps the lock invariant |
| `LockSafety.MutualExclusion` | src/kvsrv1/lock/lock.go:34-74 | in every run at most one client is between a returned Acquire and its next Release, and the stored value is then its id |
| `LockSafety.ReleaseFrees` | src/kvsrv1/lock/lock.go:61-74 | a holder's Release always finds itself the owner, and when it returns its Put of the empty value has taken effect |
| `LockProgress.OwnerIsClient` | src/kvsrv1/lock/lock.go:46-70 | in every reachable state the lock value is empty or the id of a client |
| `LockProgress.LockReachable` | src/kvsrv1/lock/lock.go:34-74 | the lock is never lost: every run, whatever has happened in it, can go on so that any given client holds the lock |
| `LockSafety.LocksUseSeenVersions` | src/kvsrv1/lock/lock.go:37-46 | lock clients only pass versions the lock key has reached |
| `ShardConfig.ShardConfig.constructor` | src/shardkv1/shardcfg/shardcfg.go:44-49 | a new configuration has number 0, no groups and all shards 0 |
| `ShardConfig.ShardConfig.Analyze` | src/shardkv1/shardcfg/shardcfg.go:80-111 | the result depends on shards and the set of group ids only, whatever order the map is iterated in |
| `ShardRebalance.AnalyzeFinds` | src/shardkv1/shardcfg/shardcfg.go:97-110 | the groups found are the least and the most loaded, the smallest id among equals, with their loads |
| `ShardConfig.ShardConfig.Least` | src/shardkv1/shardcfg/shardcfg.go:115-118 | the least loaded group of the same analysis |
| `ShardConfig.ShardConfig.FillShards` | src/shardkv1/shardcfg/shardcfg.go:131-138 | the first loop assigns each orphaned shard to the group least loaded at that point |
| `ShardConfig.ShardConfig.LevelShards` | src/shardkv1/shardcfg/shardcfg.go:141-153 | the second loop terminates, in the assignment reached by repeated moves from the most to the least loaded group |
| `ShardConfig.ShardConfig.Rebalance` | src/shardkv1/shardcfg/shardcfg.go:122-154 | ends for every starting assignment, in a result determined by that assignment and the set of group ids |
| `ShardRebalance.MoveLowers` | src/shardkv1/shardcfg/shardcfg.go:141-153 | each move lowers the sum of squared loads by 2 * (most - least - 1) |
| `ShardRebalance.RebalancedIsFair` | src/shardkv1/shardcfg/shardcfg.go:131-153 | no group both receives and gives a shard, receivers end among the least and givers among the most loaded |
| `ShardRebalance.FillsInOrder` | src/shardkv1/shardcfg/shardcfg.go:131-138 | after the first loop each shard of a member group is where it was, and each other one is on the group that is least loaded, smallest id first, once the shards before it have been assigned |
| `ShardRebalance.LevelsByMoves` | src/shardkv1/shardcfg/shardcfg.go:141-153 | the second loop's result is reached by moving, again and again, the first shard of the most to the least loaded group while they differ by two or more, and is balanced |
| `ShardRebalance.MoveIsUnique` | src/shardkv1/shardcfg/shardcfg.go:141-153 | at each point only one such move is possible, so the result is determined |
| `ShardRebalance.RebalancedIsBalanced` | src/shardkv1/shardcfg/shardcfg.go:122-154 | every shard ends on a member group and loads differ by at most one |
| `ShardRebalance.RebalancedLoads` | src/shardkv1/shardcfg/shardcfg.go:122-154 | every group ends with the floor or the ceiling of N / G shards, and for G <= N exactly the members serve shards |
| `ShardLoads.ExactLoads` | src/shardkv1/shardcfg/shardcfg.go:238-279 | in any valid balanced assignment every load is the floor or the ceiling of N / G |
| `ShardLoads.TotalLoad` | src/shardkv1/shardcfg/shardcfg.go:80-86 | the loads of the groups add up to the number of shards |
| `ShardMinimal.MinimalMovement` | src/shardkv1/shardcfg/shardcfg.go:131-153 | no valid balanced assignment to the same groups changes the owner of fewer shards |
| `ShardMinimal.BalancedStays` | src/shardkv1/shardcfg/shardcfg.go:122-154 | an assignment that is valid and balanced is left as it is |
| `ShardMinimal.IncreasingUnique` | src/shardkv1/shardcfg/shardcfg.go:92-99 | a set of ids has one sorted enumeration, so the map's iteration order cannot matter |
| `ShardConfig.NameTaken` | src/shardkv1/shardcfg/shardcfg.go:164-172 | true exactly when some group already lists one of the names |
| `ShardConfig.ShardConfig.Join` | src/shardkv1/shardcfg/shardcfg.go:156-183 | succeeds exactly when there is a group to add, all are new and no server name is in two groups, old or new; then all are added and the number grows by one; a failure has its reason and leaves the old groups with some of the new ones, which do not clash |
| `ShardConfig.JoinExactly` | src/shardkv1/shardcfg/shardcfg.go:156-183 | adding in any order succeeds on the same inputs and with the same result |
| `ShardConfig.ShardConfig.Leave` | src/shardkv1/shardcfg/shardcfg.go:185-205 | succeeds exactly when the list is not empty, has no repetition and names present groups; then all are removed and the number grows by one; the empty list is fatal; in every case exactly the groups before the first absent or repeated one are gone |
| `ShardConfig.ShardConfig.JoinBalance` | src/shardkv1/shardcfg/shardcfg.go:207-213 | a success is Join and then Rebalance; a failure changes neither number nor shards and leaves the groups as Join does |
| `ShardConfig.ShardConfig.LeaveBalance` | src/shardkv1/shardcfg/shardcfg.go:215-221 | a success is Leave and then Rebalance; a failure changes neither number nor shards and leaves the groups as Leave does |
| `ShardConfig.ShardConfig.IsMember` | src/shardkv1/shardcfg/shardcfg.go:229-236 | true exactly when some shard is on the group |
| `ShardRuns.RunOk` | src/shardkv1/shardcfg/shardcfg.go:238-279 | after any sequence of successful operations all conditions of CheckConfig hold, server names are disjoint, the number counts the operations, and no group means all shards 0 |
| `ShardRuns.AllZeroExactly` | src/shardkv1/shardcfg/shardcfg.go:122-129 | all shards are 0 exactly when no group is left, as long as no group has id 0; in general exactly when there is no group but possibly the one with id 0 |
| `ShardRuns.ZeroAsGroup` | src/shardkv1/shardcfg/shardcfg.go:122-154 | a run in which all shards are 0 although a group is present |
| `ShardRuns.MembersServe` | src/shardkv1/shardcfg/shardcfg.go:229-236 | in a run, with no more groups than shards, IsMember is membership in Groups |
| `MrGrouping.GroupAndReduce` | src/mr/worker.go:221-236 | the index loops yield one line for each maximal run of equal keys, with that run's values in order |
| `MrGrouping.GroupsAreLines` | src/main/mrsequential.go:72-88 | on a sorted sequence those lines are, as a multiset, one for each distinct key |
| `MrGrouping.GroupingIsReference` | src/main/mrsequential.go:63-88 | any sort by key, grouping and reducing yields one line for each key with exactly that key's values reduced |
| `MrGrouping.SortByKey` | src/mr/worker.go:214-215 | a permutation in ascending order of keys |
| `Common.AtMostMeans` | src/main/mrsequential.go:17-23 | the order of keys is the dictionary order: a prefix first, else the first position where the strings differ decides |
| `MrGrouping.GroupsAscend` | src/main/mrsequential.go:63-88 | the lines of a sorted sequence have strictly ascending keys |
| `MrShuffle.FillBuckets` | src/mr/worker.go:165-173 | bucket r holds exactly the pairs whose key hashes to r, in order |
| `MrShuffle.DoMapTask` | src/mr/worker.go:144-192 | writes the buckets to its NReduce files and touches no other file |
| `MrShuffle.DoReduceTask` | src/mr/worker.go:194-241 | the output is a sort and grouping of what its files hold, missing files skipped |
| `MrShuffle.ReadsEveryFile` | src/mr/worker.go:197-213 | every file that exists is read whole, in the order of map tasks, whichever others are missing |
| `MrShuffle.ReadsOnlyFiles` | src/mr/worker.go:197-213 | and nothing else is read |
| `MrShuffle.Sequential` | src/main/mrsequential.go:40-88 | the output is a sort and grouping of what Map returned for all files |
| `MrShuffle.MapsEveryFile` | src/main/mrsequential.go:40-53 | the pairs of each input file come whole, after those of the files before it |
| `MrShuffle.OutputIsUnique` | src/main/mrsequential.go:63-88 | however the unstable sort orders equal keys, the output lines and their order are the same |
| `MrShuffle.CollectedIsBucket` | src/mr/worker.go:196-213 | once all files are written, reading bucket r of every map task is partitioning all pairs at once |
| `MrShuffle.BucketValues` | src/mr/worker.go:165-173 | a bucket has all values of its own keys and nothing of any other key |
| `MrShuffle.MapReduceRefinesSequential` | src/mr/worker.go:162-236 | the lines of all reduce outputs together are, as a multiset, those of the sequential program, one for each distinct key |
| `MrShuffle.OutputIsSelection` | src/mr/worker.go:194-241 | the output of reduce task r is exactly the sequential program's output without the lines whose keys belong to other tasks, in the same order |
| `MrCoordinator.Coordinator.constructor` | src/mr/coordinator.go:141-152 | starts in the map phase with all map tasks to do |
| `MrCoordinator.Coordinator.HandleHeartBeat` | src/mr/coordinator.go:184-269 | hands out the first free or expired task of the phase, changes phase when all are completed, or tells the worker to wait or stop |
| `MrCoordinator.Coordinator.HandleReport` | src/mr/coordinator.go:271-309 | marks the task, changes phase when all of that kind are completed, and stops the process where it indexes past the tasks |
| `MrCoordinator.BeatExactly` | src/mr/coordinator.go:184-269 | for every state, the answer is the first task that is free or expired, and marked running, if there is one; it is to wait if and only if there is none and not all are completed; it is to stop if and only if the coordinator is then done |
| `MrCoordinator.ReportExactly` | src/mr/coordinator.go:271-309 | for every state and report, which task is marked, exactly when the coordinator indexes past its tasks, and exactly when and how the phase changes |
| `MrRuns.StepInv` | src/mr/worker.go:51-87 | every step of coordinator and workers, with repeated assignments, lost replies and dying workers, keeps the invariant |
| `MrRuns.RunInv` | src/mr/coordinator.go:184-309 | it holds in every reachable state |
| `MrRuns.MapBeforeReduce` | src/mr/coordinator.go:188-225 | whenever a reduce task is handed out or held, every map task has been reported and every intermediate file is written with its right content |
| `MrRuns.OutputsAreSequential` | src/mr/worker.go:194-241 | whenever all output files exist, together they are the sequential program's output |
| `MrRuns.EachOutputIsSelection` | src/mr/worker.go:214-238 | in every reachable state each output file that exists is exactly the sequential program's output without the lines of other reduce tasks |
| `MrRuns.AnswerReaches` | src/mr/worker.go:68-84 | a worker stops if and only if the answer that reaches it leaves the coordinator done, waits if and only if told to, and otherwise takes up exactly the task handed out |
| `MrRuns.StoppedMeansDone` | src/mr/worker.go:77-78 | in every run the coordinator has been done by the time a worker has stopped |
| `MrRuns.StoppedMeansComplete` | src/mr/worker.go:77-78 | once a worker has stopped all outputs exist, if no map report is handled late or the job has at most one map task or a single reduce task |
| `MrRuns.DoneMeansComplete` | src/mr/coordinator.go:292-308 | a coordinator that is done leaves the complete and correct output, if no map report is handled after the map phase or the job has at most one map task or a single reduce task |
| `MrLateReport.DoneWithoutOutput` | src/mr/coordinator.go:275-291 | every job with two map tasks and two reduce tasks or more has a run with a late map report that is done although an output is missing |
| `MrLateReport.DoneExactly` | src/mr/coordinator.go:271-309 | for every job, done always means that all outputs exist if and only if no map report is handled after the map phase, or there is at most one map task, or a single reduce task |
| `MrLateReport.StopsExactly` | src/mr/coordinator.go:275-287 | for every job, some run makes the coordinator index past its tasks if and only if late map reports are handled and there are more map tasks than reduce tasks |

## Left out

- Raft persistence, restart and snapshots: their bodies are empty in the source, so nothing is claimed across a crash.
- Raft commit and apply: no code advances a leader's commit index or sends on the apply channel; of the follower's commit index only the single update is stated, as it is not monotone for arbitrary messages.
- End-to-end Raft replication: the ticker sends only empty heartbeats, so replication is proved for the handler on contiguous logs; `nextIndex` and `matchIndex` are only initialised.
- The use of heartbeats to postpone elections, and all timing: the source never reads `lastReceivedHeartbeat`, and timeouts are arbitrary steps.
- Overflow of 64-bit versions and of Raft terms.
- KvLinearizability.EveryHistoryLinearizes: Puts that returned ErrNoKey have no point, because the sequential model has no case for them; `KvOutcomes.SoundOutcomes` shows that they have no effect.
- Operation codes other than get and put in the sequential model, whose inputs cannot express them here.
- KvClerk.Get: the network is the sequence of results the attempts get; a loop that uses it up is still retrying. Sleeping and logging are not modelled.
- KvClerk.Put: as for Get, over any sequence of results.
- LockService.Acquire: the clerk is the sequence of its results; the system of clients uses the same functions for what follows each result. Release is its part after its Get.
- Liveness: that a lock is eventually acquired, a leader eventually elected or a job eventually done.
- ShardConfig.ShardConfig.Join: after a failure it says that some of the groups have been added, not which, as the source takes them in random order; fatal log calls are the result Fatal.
- MrGrouping.SortByKey: an insertion sort stands for the library sort; callers know only that the result is a sorted permutation.
- MrCoordinator.Coordinator.HandleHeartBeat: the handler calls itself while holding its mutex, which would block; the model takes the call as the rescan it is meant to be, and the start times of tasks as the set of expired ones.
- File I/O errors, JSON encoding, temporary files and renaming: files are written whole. An output line is a pair of key and reduced value; its formatting is not modelled.
- `Key2Shard`, copying and printing of configurations.
- The stubs of kvraft1, rsm, shardctrler and shardgrp, and the test harness (labrpc internals, labgob, tester1, kvtest1, porcupine).
