# Verified model of the Raft, key/value, sharding and MapReduce labs

A Dafny model of the distributed programs in this repository and proofs of what they promise.
Each program is modelled twice where it changes state in place: as a class whose methods follow the
Go code, proved to act like functions on values, and as a step relation over whole runs, in which
messages are lost, repeated, delayed and reordered and processes crash. `dafny verify dfyconfig.toml`
checks everything.

## What is modelled

**Raft** (`raft_*.dfy`). `RaftPeer` holds the handlers of raft.go as functions on a peer with its
whole log. `RaftClass` is the `Raft` object on the trimmed log; every method is proved to act on the
view exactly as the handler. `RaftRun` is the cluster: elections, votes, appends, replies, commit,
apply, the key/value service reading applyCh, snapshots taken by the service, crashes and restarts
from disk, over a set of messages that never shrinks. `RaftCore` is the history behind it (votes ever
granted, leaders' logs, acknowledgements), with the invariant that makes leader completeness provable.
`RaftInv`, `RaftSteps`, `RaftAppend`, `RaftCommit` show that each step keeps it; `RaftTheorems` draws
the conclusions; `RaftRules` states for every handler what it does to every field, `RaftBackoff`,
`RaftMedian` and `RaftTrim` cover log repair, the median and trimming, `RaftProgress` shows that a
leader and a commit stay possible from every state; `RaftTwoLeaders` and `RaftTwoApplied` say exactly
when safety fails; `RaftSubmit` and `RaftLinear` put kvraft1's Submit and reader on top.

**Key/value service** (`kv*.dfy`). `KvServer` has the server object and the clerk's retry loop,
`KvModel` the single-key specification of models1 with linearizability, `KvHistory` runs of any number
of clerks, `KvCareful` what their callers must do, `KvLock` the lock.

**Sharding** (`shard_*.dfy`, `sums.dfy`). `ShardGroup` is one group's state machine, as functions and
as an object. `ShardCore` says where every shard is in each phase of a config change, `ShardRun` lets
any number of controllers start, crash, recover and race, and `ShardSafe` proves what stays true.
`ShardLinear` puts clients with timed calls on top.
`ShardRules` states what each operation and each controller step does, `ShardProgress` that changes
and recoveries can always be finished. `ShardTorn` is a run that stops a recovering controller,
`ShardMove` is changConfig on the group objects, `ShardPutOnce` is putOnce.
`ShardLoads`, `ShardBalance` and `ShardConfig` are Rebalance, Join and Leave.

**MapReduce** (`mr_*.dfy`). The coordinator object, the worker's loops, and runs with crashing and
duplicated workers against the sequential program; `MrProgress` shows that every job can be finished.

## What the code does that its comments do not say

- `becomeLeader` clears `voteFor` within the term just won (raft.go:756), so the winner can vote again in
  that term. With an odd number of servers, three or more, a second server can then win it;
  with an even number never, since two majorities share two servers.
  `RaftTwoLeaders.TwoLeadersExactly` proves both, and `RaftTwoApplied.StateMachineSafetyExactly` that in
  just those sizes servers can be made to apply different commands at one index. A *guarded run* is
  therefore any run of an even number of servers, and a run of an odd number in which no server grants
  a vote in a term it has already won. All Raft safety results are about guarded runs, of every cluster size.
- The commit rule takes `sorted[n/2]`, which is a majority only for odd n (raft.go:942-946). Safety does
  not need it: n - n/2 acknowledgements and n/2 + 1 votes always have a server in common.
- The backward walk at raft.go:376 stops at the snapshot index, so a conflicting term that fills all the
  follower keeps sends the leader back to the first entry after the follower's snapshot, even when the
  logs share a longer prefix. The repaired log is the same. `RaftBackoff.SettlesExactly` has the condition.
- A server counts only votes that come back from others (raft.go:575-611), so a cluster of one server
  never has a leader; from two on one can always still be elected (`RaftProgress.LeaderPossibleExactly`).
- AppendEntries fills `reply.Term` before it adopts a newer term (raft.go:339), so that reply carries the
  follower's old term and its sender ignores it.
- `putOnce` looks for the version before its own Put when it reads back after ErrMaybe
  (shardctrler.go:52-57); in the protocol that never matches, so after ErrMaybe the answer is false even
  when the Put took effect. `ShardPutOnce` says exactly which answers can be trusted: true when the key
  had reached the version named or was absent and the version at most 1, false when it was already past it.
- `doRecovery` reads the two keys one after the other and subtracts unsigned versions; it stops fatally
  exactly when another controller advanced NewConfig in between (shardctrler.go:80-99).
- The sentinel 257 in `analyze` is sound exactly as long as there are at most 257 shards per group
  (shardcfg.go:92-117); the program has 12 shards.
- KvModel has no transition for a Put answered ErrNoKey (models1/kv.go:57-63), although the server gives
  that answer (kvsrv1/server.go:74-76). Histories stay linearizable exactly as long as callers name
  version 0 or an existing key.

## Assumptions

- Handlers are atomic, as their mutexes make them. Timers, timeouts and goroutine scheduling are
  nondeterministic steps.
- A kvsrv RPC executes, if at all, before the clerk's attempt ends (labrpc decides about losing the
  request before it runs the handler). Raft messages and messages to shard groups may also be delayed,
  repeated and reordered.
- Each shard group is one atomic state machine running DoOp. A gid fixes its servers. The first
  configuration has every shard on Gid1, as InitConfig documents (shardctrler.go:69-72).
- Hash functions are parameters. Operation ids of Submit and client ids of the lock are distinct, and
  client ids nonempty. mapf is a function and, for the final theorem, the reducer does not depend on the order of its values.

## Model

| member | source | states |
|---|---|---|
| `RaftTheorems.ElectionSafety` | src/raft1/raft.go:446-491 | in every guarded run, of any cluster size, with crashes, losses and duplicates, at most one server ever becomes leader in a term |
| `RaftTwoLeaders.TwoLeadersExactly` | src/raft1/raft.go:741-760 | **Main result.** a term can have two leaders if and only if the number of servers is odd and at least three: that is what clearing the winner's vote costs |
| `RaftTwoLeaders.TwoLeaders` | src/raft1/raft.go:741-760 | for every odd number of servers from three on there is a run in which servers 0 and n - 1 both lead term 1, the first having given its cleared vote to the second |
| `RaftTwoLeaders.TwoLeadersNeedASecondVote` | src/raft1/raft.go:446-491 | in any run at all, two leaders of one term imply an odd number of servers and a server that granted a vote in a term it had already won |
| `RaftCore.TermIsOpen` | src/raft1/raft.go:606-611 | a candidate with a majority of recorded votes runs in a term nobody has won: two majorities of an even number share two servers, and only one of them may have voted twice |
| `RaftTheorems.LogMatching` | src/raft1/raft.go:394-407 | **Main result.** in every guarded run two logs with equal terms at an index are equal up to it, terms never decrease in a log, and a term starts at the same index in every log that has it |
| `RaftTheorems.MatchIndexSound` | src/raft1/raft.go:622-646 | in every guarded run a peer still in the leader's term has the leader's log through matchIndex, whatever was lost, repeated or reordered |
| `RaftTheorems.LeadersOnlyAdvance` | src/raft1/raft.go:614-667 | in every guarded run, as long as a server leads one term its matchIndex, commitIndex and log never go back, whatever replies arrive late or twice |
| `RaftTheorems.CommittedEntriesSurvive` | src/raft1/raft.go:938-953 | **Main result.** leader completeness: whatever any server had committed at any time is in the log of every leader of that term or a later one |
| `RaftTheorems.CommittedAgree` | src/raft1/raft.go:419-426 | the committed prefixes of any two servers at any two times agree as far as both reach |
| `RaftTheorems.StateMachineSafety` | src/raft1/raft.go:962-997 | **Main result.** no two deliveries on any applyCh, in any life of any server, differ at one index |
| `RaftTwoApplied.StateMachineSafetyExactly` | src/raft1/raft.go:397-407 | **Main result.** two servers can be made to deliver different commands at one index if and only if the number of servers is odd and at least three |
| `RaftTwoApplied.TwoApplied` | src/raft1/raft.go:397-407 | the run: two leaders of term 1 each commit an operation of their own at index 1 through the same followers, since the merge compares terms only |
| `RaftTheorems.TablesAreReplays` | src/kvraft1/server.go:35-111 | **Main result.** in every guarded run what is delivered and not yet executed is the log's next commands in order without gaps, the KV table is the replay of exactly the executed prefix, and the saved snapshot is the replay of the trimmed prefix, also after a restart |
| `RaftTheorems.ReplicasAgree` | src/kvraft1/server.go:35-86 | two replicas that have executed equally many entries hold equal tables, at whatever times and after however many restarts |
| `RaftTheorems.SnapshotSavesTable` | src/kvraft1/server.go:88-111 | a snapshot stores the table as executed so far, keeps the whole log and commitIndex, and a server that crashes right after it comes back with exactly that table |
| `RaftTheorems.CommitWithinEntries` | src/raft1/raft.go:907-914 | every AppendEntries ever sent has LeaderCommit at or below PrevLogIndex plus the number of its entries, which is why the minimum at 421 is safe |
| `RaftTheorems.LeadersStayInRange` | src/raft1/raft.go:875-953 | nextIndex and matchIndex of a leader always name entries it has, so building messages and the commit rule never index out of range |
| `RaftTheorems.StepSafe` | src/raft1/raft.go:335-998 | every enabled step of the cluster keeps the safety invariant, unless it is a second vote of a winner among an odd number of servers |
| `RaftCore.LeaderCompleteness` | src/raft1/raft.go:472-491 | in the history of terms, votes and logs: a chosen position of a term is in the log of every later term's leader |
| `RaftCore.ChosenAgree` | src/raft1/raft.go:938-953 | two chosen positions name the same log as far as both reach |
| `RaftCore.GiveVoteSafe` | src/raft1/raft.go:472-491 | a vote for a candidate that is at least as up to date cannot lose what the voter acknowledged earlier: either the candidate's log has it or it can no longer be chosen |
| `RaftCore.WinnerHolds` | src/raft1/raft.go:606-611 | a winner's log holds every position a quorum could still have chosen in an earlier term |
| `RaftCore.AcceptKeeps` | src/raft1/raft.go:394-407 | merging a slice of the current leader's log keeps the whole history invariant, also when the slice is old |
| `RaftCommit.MedianIsChosen` | src/raft1/raft.go:938-953 | an index of the current term at or below the sorted median is chosen by a commit quorum of acknowledgements |
| `RaftMedian.MedianExact` | src/raft1/raft.go:942-946 | **Main result.** sorted[n/2] is exactly the largest value that n - n/2 entries of matchIndex reach, for every n |
| `RaftMedian.MedianIsMajority` | src/raft1/raft.go:942-946 | for odd n that is exactly the largest index which n/2 + 1 entries reach |
| `RaftMedian.EvenMedianIsHalf` | src/raft1/raft.go:942-946 | for every even n some matchIndex has a median that only n/2 entries reach, so the majority reading fails there |
| `RaftRules.MergeRule` | src/raft1/raft.go:395-407 | entries already present stay, the first conflicting one and all after it give way to the new ones, and nothing else changes |
| `RaftRules.AppendRule` | src/raft1/raft.go:335-429 | an append succeeds if and only if its term is current and the previous entry is held with that term; every field of the follower and its disk afterwards |
| `RaftRules.HintRule` | src/raft1/raft.go:356-390 | the hint of a rejection, trimmed or not: one past the log for a probe beyond it; one past the snapshot for a probe below it or a conflicting term that fills all that is kept up to the probe; otherwise that term and its first index. Every hint lies above the snapshot and at most one past the log |
| `RaftRules.RejectRule` | src/raft1/raft.go:648-659 | a current rejection sets nextIndex of that peer to XLen, else one past the leader's last entry of XTerm above its snapshot, else XIndex, and moves nothing else |
| `RaftRules.SuccessRule` | src/raft1/raft.go:646-647 | a current success raises nextIndex and matchIndex of that peer to what was sent, never lowers them, and moves nothing else |
| `RaftRules.StaleReplyRule` | src/raft1/raft.go:626-640 | an answer to an old term's question or from an old term does nothing; a newer term deposes |
| `RaftRules.VoteRule` | src/raft1/raft.go:432-492 | a vote is granted exactly again to the same candidate, or when free in this term and the candidate's log is at least as up to date; every field afterwards |
| `RaftRules.VoteReplyRule` | src/raft1/raft.go:591-611 | old answers do nothing, a newer term deposes, a vote is counted, the vote that makes a majority makes the leader |
| `RaftRules.SnapshotRule` | src/raft1/raft.go:251-265 | a snapshot at or above the last one is stored with the log and on disk; an older one changes nothing |
| `RaftRules.CommitRule` | src/raft1/raft.go:938-953 | commitIndex advances exactly when the largest index acknowledged by a commit quorum is above it and of the current term, and to that index |
| `RaftBackoff.RejectionBacksOff` | src/raft1/raft.go:365-390 | after a rejection the leader's nextIndex for that peer is strictly lower, above the follower's snapshot, and nothing else in the leader moved; it falls below the end of the common prefix if and only if the conflicting term runs on from the prefix and fills all the follower keeps of it, or the leader has trimmed it |
| `RaftBackoff.ProbingSettles` | src/raft1/raft.go:650-659 | repeating the leader's handler ends: in an accepted append, or at its snapshot, which then has to be sent |
| `RaftBackoff.SettlesExactly` | src/raft1/raft.go:365-390 | **Main result.** where nextIndex ends, for trimmed and untrimmed peers: one past the common prefix, unless the follower's term there runs on past it and fills all it keeps, when it ends one past the follower's snapshot; at the first kept entry of that term if the prefix ends at the leader's own snapshot, and in the leader's snapshot if the prefix ends below it |
| `RaftBackoff.FastRefinesSlow` | src/raft1/raft.go:650-659 | **Main result.** unless it ends in a snapshot, fast backoff leaves the follower with the same log as decrementing nextIndex by one |
| `RaftBackoff.SlowProbingSettles` | src/raft1/raft.go:650-659 | decrementing by one ends exactly one past the longest common prefix |
| `RaftBackoff.ConflictSkips` | src/raft1/raft.go:697-704 | a rejection skips the whole conflicting term down to its first kept entry, still above the common prefix, unless that term runs on from it |
| `RaftBackoff.ConflictRuns` | src/raft1/raft.go:697-704 | if it does, lastIndexForTerm puts nextIndex one past the common prefix, when the leader and the follower still keep enough of the term to see it |
| `RaftBackoff.RunsAreRelated` | src/raft1/raft.go:365-390 | in guarded runs every leader and every follower of its term, trimmed or not, meet the conditions of the backoff theorems |
| `RaftBackoff.WithoutSameStartsItLoops` | src/raft1/raft.go:365-390 | terms 1,1,2 against 1,2, which share no term start, make the exchange alternate for ever |
| `RaftBackoff.RestartsFromOne` | src/raft1/raft.go:376-385 | terms 1,1,2 against 1,1,1 share two entries and still send the leader back to index 1 |
| `RaftTrim.TrimmingIsInvisible` | src/raft1/raft.go:251-265 | **Main result.** a peer that snapshots at any moments gives the same verdicts and keeps the same log, commit index, term and vote as one that never does, as long as no append reaches below its snapshot |
| `RaftTrim.TrimmingShowsExactly` | src/raft1/raft.go:340-365 | the verdicts of the trimmed and the untrimmed peer differ if and only if the append is current, reaches below the snapshot and matches the untrimmed log there |
| `RaftTrim.TrimmingCanShow` | src/raft1/raft.go:356-363 | for every peer that has trimmed anything there is such an append |
| `RaftTrim.HintsMatchExactly` | src/raft1/raft.go:365-390 | a trimmed and an untrimmed follower that reject an append at or above the snapshot give the same hint if and only if nothing is trimmed, the probe lies past the log, or the conflicting term begins above the first kept entry |
| `RaftTrim.AppendToBoth` | src/raft1/raft.go:335-429 | the object on the trimmed log and one that never trimmed answer an append at or above the snapshot alike and stay alike |
| `RaftProgress.CommandCanCommit` | src/raft1/raft.go:575-998 | **Main result.** from every state of every guarded run of two or more servers with untrimmed logs, whatever was lost and whoever crashed, some continuation elects a leader, appends any given operation behind all that leader had, commits it and delivers it |
| `RaftProgress.LeaderPossibleExactly` | src/raft1/raft.go:575-611 | **Main result.** from a state of a guarded run a leader can still be elected if and only if there are at least two servers: a winner is only made by another server's vote |
| `RaftProgress.BestCanLead` | src/raft1/raft.go:780-799 | every server at least as up to date as all others can win a term above all terms, without any log changing |
| `RaftProgress.RepairsAny` | src/raft1/raft.go:614-667 | rounds of appends with any follower, in any state it may be in, end with matchIndex at the end of the leader's log, and change nothing else in the leader |
| `RaftProgress.AloneNeverLeads` | src/raft1/raft.go:575-611 | a cluster of one server never has a leader |
| `RaftClass.Raft.GetLastLogIndex` | src/raft1/raft.go:126-128 | the last index of the whole log, computed from the trimmed one |
| `RaftClass.Raft.GetLastLogTerm` | src/raft1/raft.go:130-132 | the last term of the whole log, computed from the trimmed one |
| `RaftClass.Raft.At` | src/raft1/raft.go:137-144 | the entry of the whole log at a global index, read from the trimmed one |
| `RaftClass.Raft.constructor` | src/raft1/raft.go:1009-1051 | a restarted peer is a follower with the saved term, vote, log and snapshot, its commit and apply indices at the snapshot |
| `RaftClass.Raft.Persist` | src/raft1/raft.go:191-206 | exactly term, vote, log, snapshot index and snapshot go to disk |
| `RaftClass.Raft.UpdateTermAndBecomeFollower` | src/raft1/raft.go:152-168 | stepping down sets the term, clears vote and count, and persists |
| `RaftClass.Raft.StartAElection` | src/raft1/raft.go:780-799 | a non-leader enters the next term voting for itself and asks with its last index and term; a leader does nothing |
| `RaftClass.Raft.RequestVote` | src/raft1/raft.go:432-492 | the reply and the whole new state, including disk, are those of the vote rule on the untrimmed peer |
| `RaftClass.Raft.BecomeLeader` | src/raft1/raft.go:741-771 | the winner clears its vote, sets every nextIndex past its log and matchIndex to 0 but its own |
| `RaftClass.Raft.HandleVoteReply` | src/raft1/raft.go:591-611 | stale replies are ignored, a newer term deposes, and a counted majority makes a leader |
| `RaftClass.Raft.AppendEntries` | src/raft1/raft.go:335-429 | the reply and the whole new state are those of the append rule on the untrimmed peer, on a log that has been trimmed |
| `RaftClass.Raft.MergeEntries` | src/raft1/raft.go:395-407 | in place on the trimmed log: matching entries stay, the first conflict cuts the rest, new entries are appended |
| `RaftClass.Raft.Reject` | src/raft1/raft.go:356-390 | XTerm, XIndex and XLen as the walk over the trimmed log yields them |
| `RaftClass.Raft.LastIndexForTerm` | src/raft1/raft.go:697-704 | the downward scan finds the last entry of a term above the snapshot, or 0 |
| `RaftClass.Raft.HandleAppendReply` | src/raft1/raft.go:626-659 | matchIndex and nextIndex only rise on success, nextIndex backs off on rejection, a newer term deposes |
| `RaftClass.Raft.BuildAppend` | src/raft1/raft.go:907-914 | the message carries the whole suffix from nextIndex and the term before it |
| `RaftClass.Raft.Start` | src/raft1/raft.go:718-737 | a leader appends and persists the command at the returned index; anyone else changes nothing |
| `RaftClass.Raft.Commit` | src/raft1/raft.go:938-953 | commitIndex becomes the sorted median when that is higher and of the current term |
| `RaftClass.Raft.Apply` | src/raft1/raft.go:970-987 | the messages are the entries lastApplied+1 to commitIndex in order, and lastApplied catches up |
| `RaftClass.Raft.Snapshot` | src/raft1/raft.go:251-265 | the log is cut at the index with that entry as slot 0; the whole log is unchanged; an index beyond the log is fatal and a stale one ignored |
| `RaftSubmit.SubmitReturnsItsOwnReply` | src/kvraft1/rsm/rsm.go:140-196 | **Main result.** in guarded runs with unique ids, a Submit that returned OK returned the reply of its own operation, executed at the index Start gave it on the replay of the chosen operations before it |
| `RaftSubmit.AnswersRespectRealTime` | src/kvraft1/rsm/rsm.go:87-118 | in guarded runs an operation asked after another was answered lies at a higher index, so log order respects real time |
| `RaftSubmit.AskRule` | src/kvraft1/rsm/rsm.go:140-160 | at a leader the operation enters the log and a waiter with its id stands at its index; elsewhere nothing happens |
| `RaftSubmit.ReadRule` | src/kvraft1/rsm/rsm.go:87-118 | an executed operation answers the waiter at its index if and only if that waiter asked it, with the reply on the replica's table |
| `RaftLinear.SubmitIsLinearizable` | src/kvraft1/rsm/rsm.go:87-196 | **Main result.** in every guarded run the timed history of Submit calls is linearizable against KvModel if and only if no Put was answered ErrNoKey |
| `RaftLinear.LogLinearizes` | src/kvraft1/rsm/rsm.go:87-118 | the linearization is the chosen log: its operations in index order with their replies on the replay before them |
| `RaftLinear.SubmitCanSucceed` | src/kvraft1/rsm/rsm.go:140-196 | for every request there is a run of three servers in which Submit returns OK with the reply on the empty table |
| `RaftLinear.SubmitCanMissKey` | src/kvraft1/rsm/rsm.go:140-196 | there is a run of three servers whose history is not linearizable, by one Put answered ErrNoKey |
| `KvServer.Server.Get` | src/kvsrv1/server.go:38-50 | the reply is the stored value and version, or ErrNoKey |
| `KvServer.Server.Put` | src/kvsrv1/server.go:56-78 | table and reply of the conditional put: matching version stores and bumps, version 0 creates, everything else leaves the table |
| `KvServer.ClerkCall` | src/kvsrv1/client.go:67-103 | the retry loop, interleaved with other clients' requests and losses, has the result and table of the recursive description |
| `KvServer.PutResultMeans` | src/kvsrv1/client.go:67-103 | OK means the put took effect exactly once, ErrVersion and ErrNoKey never, ErrMaybe or no answer at most once; ErrVersion only comes from an answered first attempt |
| `KvServer.ServerRule` | src/kvsrv1/server.go:38-78 | what is stored key by key and which reply goes back: OK exactly for a matching version or a new key at 0, ErrVersion exactly for another version, ErrNoKey exactly for an absent key at a version above 0 |
| `KvServer.AnswerExactly` | src/kvsrv1/client.go:67-103 | **Main result.** the first answered attempt decides: OK if and only if it took effect, ErrNoKey if and only if the key was absent and the version not 0, refused for its version ErrVersion on the first attempt and ErrMaybe on a resend |
| `KvServer.UnansweredWaits` | src/kvsrv1/client.go:67-103 | a call none of whose attempts is answered does not return |
| `KvHistory.HistoriesLinearizable` | src/kvsrv1/client.go:32-103 | **Main result.** any run of any number of clerks over a lossy network is linearizable against KvModel if and only if no Put came back ErrNoKey |
| `KvHistory.ReadsAreExact` | src/kvsrv1/client.go:32-50 | the linearization can be chosen with every Get reporting the model's version and existence too, which KvModel does not ask |
| `KvHistory.CheckerAccepts` | src/models1/kv.go:27-67 | all keys of the partitioned history are linearizable if and only if no Put came back ErrNoKey |
| `KvCareful.CarefulIsLinearizable` | src/kvsrv1/server.go:52-78 | if every Put, when called, names version 0 or a key that exists, the history is linearizable |
| `KvCareful.CarefulExactly` | src/kvsrv1/server.go:52-78 | **Main result.** after careful calls, the next call keeps every careful continuation linearizable if and only if it is careful itself |
| `KvCareful.MissingKeyRun` | src/kvsrv1/server.go:74-76 | one clerk and one Put at version 1 on an absent key: a run whose history is not linearizable |
| `KvHistory.ResultsMean` | src/kvsrv1/client.go:67-103 | **Main result.** over whole concurrent runs: every operation, pending or completed, takes effect at most once; OK is exactly one application, ErrVersion and ErrNoKey none |
| `KvHistory.VersionsCountWrites` | src/kvsrv1/server.go:56-78 | in every run the version of a key is the number of Puts that took effect on it |
| `KvHistory.MissingKeyRefused` | src/models1/kv.go:57-63 | no linearization exists for a completed Put with ErrNoKey, because Step has no transition for it |
| `KvHistory.HitTable` | src/models1/kv.go:57-63 | a put that takes effect is a legal KvModel step, and the model state follows the table on every key |
| `KvModel.PartitionLinearizable` | src/models1/kv.go:27-43 | if a whole history is linearizable, so is each part Partition makes of it |
| `KvModel.PartsCover` | src/models1/kv.go:27-43 | Partition puts every call into the part of its key, unchanged |
| `KvModel.OneCallExactly` | src/models1/kv.go:45-67 | a history of one completed call is linearizable if and only if its reply is one that the initial state allows |
| `KvModel.ReadsSeeWrites` | src/models1/kv.go:45-67 | a Get after a completed first Put is linearizable if and only if it returns that Put's value |
| `KvLock.MutualExclusion` | src/kvsrv1/lock/lock.go:39-79 | **Main result.** in every interleaving with lost requests and replies, two clients never both hold the lock |
| `KvLock.NeverFatal` | src/kvsrv1/lock/lock.go:39-111 | **Main result.** no client reaches any Fatalf, a client that holds is the stored owner, and a client outside (so also after Release) is not |
| `KvLock.OnlyTheHolder` | src/kvsrv1/lock/lock.go:39-111 | no step of another client changes the lock entry while a client holds it or has just begun to release it |
| `KvLock.HeldThroughout` | src/kvsrv1/lock/lock.go:39-111 | over any stretch of a run in which one client holds the lock, value and version stay the same |
| `KvLock.GetRule` | src/kvsrv1/lock/lock.go:39-60 | an answered read goes by the stored entry: own id holds the lock, a free or absent lock is tried at its version, somebody else's is waited for |
| `KvLock.PutRule` | src/kvsrv1/lock/lock.go:60-111 | an attempt of a Put changes the entry exactly when it arrives at the version it names; its answer leads to holding, being outside, reading again, or Fatalf, exactly as stated |
| `KvLock.AcquireRule` | src/kvsrv1/lock/lock.go:39-79 | with answered requests and nobody in between, Acquire takes a free lock, finds its own, and goes round again for another's |
| `KvLock.ReleaseRule` | src/kvsrv1/lock/lock.go:81-111 | with answered requests and nobody in between, Release frees its own lock and leaves any other entry alone |
| `KvLock.FreeLockCanBeTaken` | src/kvsrv1/lock/lock.go:39-79 | from every state of every run with a free lock, every client outside can come to hold it |
| `KvLock.HeldLockCanBeFreed` | src/kvsrv1/lock/lock.go:81-111 | from every state of every run, a holder can leave the lock free |
| `KvLock.UnheardPutIsFound` | src/kvsrv1/lock/lock.go:62-79 | an acquiring Put that took effect unheard is refused on the resend, and the client holds the lock as soon as it reads its own id back |
| `KvLock.Acquire` | src/kvsrv1/lock/lock.go:39-79 | the retry loop returns holding only with its own id stored, and never fatally, whatever other clients write |
| `KvLock.Release` | src/kvsrv1/lock/lock.go:81-111 | the retry loop returns with another value stored than its id; Fatalf needs another client's Put on the key |
| `ShardGroup.Server.constructor` | src/shardkv1/shardgrp/server.go:412-431 | Gid1 starts with all shards valid, any other group with none, all numbers 0 |
| `ShardGroup.Server.Get` | src/shardkv1/shardgrp/server.go:134-153 | the reply of the table for a valid shard, ErrWrongGroup otherwise |
| `ShardGroup.Server.Put` | src/shardkv1/shardgrp/server.go:173-210 | table and reply of the conditional put for a valid shard, ErrWrongGroup and no change otherwise |
| `ShardGroup.Server.PackShardData` | src/shardkv1/shardgrp/server.go:212-223 | exactly the entries of the shard |
| `ShardGroup.Server.UnpackShardData` | src/shardkv1/shardgrp/server.go:225-240 | the table overwritten by the received entries, nothing else changed |
| `ShardGroup.Server.DeleteKeys` | src/shardkv1/shardgrp/server.go:390-396 | the table without the entries of the shard |
| `ShardGroup.Server.FreezeShard` | src/shardkv1/shardgrp/server.go:262-294 | stale numbers change nothing; otherwise the number rises and the shard, if here, is frozen and its contents returned |
| `ShardGroup.Server.InstallShard` | src/shardkv1/shardgrp/server.go:316-342 | only a higher number installs; installing over a frozen shard is fatal |
| `ShardGroup.Server.DeleteShard` | src/shardkv1/shardgrp/server.go:363-388 | stale numbers change nothing; a frozen shard is dropped with its keys; a valid shard is fatal |
| `ShardGroup.MoveRoundTrip` | src/shardkv1/shardgrp/server.go:212-240 | packing a shard, installing it into a table without it and deleting it at the source moves its contents whole and disturbs no other shard |
| `ShardCore.FreezeKeeps` | src/shardkv1/shardgrp/server.go:262-294 | a Freeze of any round, however late or repeated, keeps the ownership invariant, and its answer is the contents or harmless |
| `ShardCore.InstallKeeps` | src/shardkv1/shardgrp/server.go:316-342 | an Install of any round keeps the ownership invariant, never meets a frozen shard, and afterwards its round is fenced off |
| `ShardCore.DeleteKeeps` | src/shardkv1/shardgrp/server.go:363-388 | a Delete of any round keeps the ownership invariant, never meets a valid shard, and afterwards its round is done with the shard |
| `ShardCore.ClientKeeps` | src/shardkv1/shardgrp/server.go:134-210 | a group that accepts an operation answers as the one believed table does, and the table changes only by a successful Put |
| `ShardCore.OperationIsLocal` | src/shardkv1/shardgrp/server.go:134-210 | an operation's reply and effect depend only on the shard of its key and leave the other shards alone |
| `ShardRules.ClientRule` | src/shardkv1/shardgrp/server.go:134-210 | a client is served by the table exactly for a valid shard; otherwise ErrWrongGroup and no change |
| `ShardRules.FreezeRule` | src/shardkv1/shardgrp/server.go:262-294 | state, number, table and reply of a Freeze for every number and every state of the shard |
| `ShardRules.InstallRule` | src/shardkv1/shardgrp/server.go:316-342 | state, number and table after an Install, key by key, and exactly when it is fatal |
| `ShardRules.DeleteRule` | src/shardkv1/shardgrp/server.go:363-388 | state, number and table after a Delete, key by key, and exactly when it is fatal |
| `ShardRules.PutStepRule` | src/shardkv1/shardctrler/shardctrler.go:48-66 | one attempt of a controller's Put: its key changes exactly when the request arrives at its version, and where the controller goes on from each answer |
| `ShardRules.GetStepRule` | src/shardkv1/shardctrler/shardctrler.go:73-211 | where a controller goes on from each of its answered reads, for every version and number it can find |
| `ShardRules.MoveRule` | src/shardkv1/shardctrler/shardctrler.go:109-143 | for a shard that moves: Freeze at the old owner, Install of what it showed at the new one, Delete at the old one, then the next shard |
| `ShardSafe.OneGroupServes` | src/shardkv1/shardgrp/server.go:316-342 | **Main result.** under any interleaving of concurrent, stale and crashed controllers at most one group serves a shard, with exactly the believed contents |
| `ShardSafe.NothingLost` | src/shardkv1/shardgrp/server.go:262-294 | **Main result.** at every moment some group holds, valid or frozen, the complete contents of each shard |
| `ShardSafe.NobodyHalts` | src/shardkv1/shardgrp/server.go:328-382 | the Fatalf branches of Install and Delete are unreachable, and so is putOnce's unknown reply |
| `ShardSafe.OneTable` | src/shardkv1/shardgrp/server.go:134-210 | **Main result.** whichever group accepts a client's operation replies as one table would, and that table moves accordingly |
| `ShardSafe.OnlyPutsChangeIt` | src/shardkv1/shardctrler/shardctrler.go:109-143 | no step of a controller, message or recovery changes what clients should see; only successful Puts do |
| `ShardLinear.ShardsAreLinearizable` | src/shardkv1/shardctrler/shardctrler.go:109-143 | **Main result.** over whole runs, with shards moving under any interleaving of controllers, the clients' timed history is linearizable against KvModel if and only if no Put was answered ErrNoKey |
| `ShardLinear.RunShows` | src/shardkv1/shardgrp/server.go:134-210 | every run of the sharded store is, for its clients, a run of one key/value server |
| `ShardLinear.MissingKeyHappens` | src/shardkv1/shardgrp/server.go:203-208 | from every fresh store there is a run whose history is not linearizable for that reason |
| `ShardSafe.ConfigChain` | src/shardkv1/shardctrler/shardctrler.go:80-211 | **Main result.** CurConfig is level with NewConfig or one version ahead, what it takes at v+1 is what NewConfig took at v, and config numbers rise |
| `ShardSafe.MoversHavePairs` | src/shardkv1/shardctrler/shardctrler.go:109-143 | every controller that moves shards moves them from CurConfig at its version to NewConfig at the same version |
| `ShardSafe.PutOnceTrueMeansApplied` | src/shardkv1/shardctrler/shardctrler.go:48-66 | reading NewConfig back after ErrMaybe never answers true, so a true putOnce means the Put itself took effect |
| `ShardSafe.RecoveryIsTornExactly` | src/shardkv1/shardctrler/shardctrler.go:80-99 | **Main result.** doRecovery stops in the Fatalf at 97 if and only if NewConfig has moved past the CurConfig version it read first |
| `ShardSafe.RecoveryDoesExactly` | src/shardkv1/shardctrler/shardctrler.go:80-106 | **Main result.** the answered read of NewConfig in any run: moving from the config read first to the pending one, from shard 0, if and only if the versions are level; idle if and only if NewConfig is below; stopped if and only if it is above |
| `ShardProgress.RecoveryFinishes` | src/shardkv1/shardctrler/shardctrler.go:72-106 | **Main result.** from every state of every run with a change to existing groups pending, whatever half-moved shards and late messages there are, an idle controller's InitController can bring the pending config in force |
| `ShardProgress.RecoveryAfterCrash` | src/shardkv1/shardctrler/shardctrler.go:72-106 | the same for a controller that crashes first, in the middle of whatever it was doing |
| `ShardProgress.RecoveredIsServed` | src/shardkv1/shardctrler/shardctrler.go:72-106 | after which every shard is served by the group the pending config names and by no other |
| `ShardProgress.RecoverableExactly` | src/shardkv1/shardctrler/shardctrler.go:72-143 | **Main result.** a pending change can still come into force if and only if the groups it names exist |
| `ShardProgress.ChangeFinishes` | src/shardkv1/shardctrler/shardctrler.go:184-211 | from every state of every run with no change pending, ChangeConfigTo can bring in any config of existing groups with a higher number |
| `ShardTorn.RecoveryCanTear` | src/shardkv1/shardctrler/shardctrler.go:80-99 | from every fresh system there is a run in which another controller finishes one change and begins the next between the two reads, and the recovering controller stops in that Fatalf |
| `ShardTorn.TornRunExists` | src/shardkv1/shardctrler/shardctrler.go:80-99 | for every hash function and every set of groups with Gid1 there is a run with those groups that ends in that Fatalf |
| `ShardSafe.ConfigsAreInForce` | src/shardkv1/shardctrler/shardctrler.go:184-211 | whenever no change is under way, each shard is served by the group CurConfig names and by no other |
| `ShardSafe.GroupsHoldTheTable` | src/shardkv1/shardctrler/shardctrler.go:184-211 | whenever no change is under way, the groups CurConfig names together hold exactly the believed table |
| `ShardSafe.CurPutKeeps` | src/shardkv1/shardctrler/shardctrler.go:210-211 | CurConfig is replaced only by the pending NewConfig and only when every moved shard has arrived |
| `ShardMove.ChangConfig` | src/shardkv1/shardctrler/shardctrler.go:109-143 | the loop over shards on the group objects, undisturbed: no group stops and every object ends as the message-by-message description says |
| `ShardMove.MoveOne` | src/shardkv1/shardctrler/shardctrler.go:127-140 | Freeze, Install with the frozen data and Delete for one shard, in that order, on the two objects |
| `ShardMove.SoloChangeTakesForce` | src/shardkv1/shardctrler/shardctrler.go:109-143 | a controller that runs alone leaves every shard whole with the group the new config names and with no other, so CurConfig may be written |
| `ShardPutOnce.PutOnce` | src/shardkv1/shardctrler/shardctrler.go:48-66 | the answer of putOnce over lossy attempts and other clients' requests |
| `ShardPutOnce.PutOnceRule` | src/shardkv1/shardctrler/shardctrler.go:48-66 | true if and only if the first answered attempt took effect, or was refused on a resend and the read back finds this value at the version named; false, fatal and waiting exactly as stated |
| `ShardPutOnce.TrustedExactly` | src/shardkv1/shardctrler/shardctrler.go:48-66 | **Main result.** a true answer implies that the Put took effect exactly once, whatever the network and others do, if and only if the key had reached the version named (or does not exist and the version is at most 1) |
| `ShardPutOnce.TrueMeansApplied` | src/shardkv1/shardctrler/shardctrler.go:48-66 | in that case true comes only from an OK reply of the Put itself |
| `ShardPutOnce.FalseTrustedExactly` | src/shardkv1/shardctrler/shardctrler.go:48-66 | **Main result.** a false answer implies that the Put was not applied, whatever the network and others do, if and only if the stored version is already past the one named |
| `ShardPutOnce.FalseThoughApplied` | src/shardkv1/shardctrler/shardctrler.go:51-56 | for every other call there is a network in which the Put takes effect, comes back ErrMaybe and is answered false |
| `ShardPutOnce.AppliedMaybeIsFalse` | src/shardkv1/shardctrler/shardctrler.go:51-56 | for a version that had been reached, every ErrMaybe that is answered at all is answered false |
| `ShardPutOnce.GuessedAhead` | src/shardkv1/shardctrler/shardctrler.go:51-56 | otherwise others can bring the key to just that version and value, and putOnce answers true for a refused Put |
| `ShardBalance.RebalanceBalances` | src/shardkv1/shardcfg/shardcfg.go:128-162 | **Main result.** from any assignment of at most 257 shards per group to any nonempty group set, every shard ends on a member and loads differ by at most one |
| `ShardBalance.LevelMovesLeast` | src/shardkv1/shardcfg/shardcfg.go:147-161 | no balanced assignment to the same groups differs from the one the second loop starts with in fewer shards than its result |
| `ShardBalance.RebalanceTakesLeast` | src/shardkv1/shardcfg/shardcfg.go:128-162 | **Main result.** from any assignment whatever, no balanced assignment takes fewer shards away from groups that stay than the two loops together do |
| `ShardBalance.JoinMovesItsShare` | src/shardkv1/shardcfg/shardcfg.go:218-224 | **Main result.** a group joining a balanced config of k groups gets exactly n div (k+1) shards and no other shard moves |
| `ShardBalance.LeaveMovesOnlyIts` | src/shardkv1/shardcfg/shardcfg.go:226-232 | when groups leave a balanced config, exactly the shards they had move |
| `ShardBalance.RepairedExactly` | src/shardkv1/shardcfg/shardcfg.go:92-145 | **Main result.** every assignment of n shards gets all shards onto members if and only if n is at most 257 for each group; beyond that the sentinel leaves a shard on group -1 |
| `ShardBalance.LevelStep` | src/shardkv1/shardcfg/shardcfg.go:148-161 | a move of the loop never moves a shard twice and never makes a giver a getter |
| `ShardBalance.NoGroupsUnassign` | src/shardkv1/shardcfg/shardcfg.go:128-136 | with no groups every shard becomes unassigned |
| `ShardBalance.FillPlaces` | src/shardkv1/shardcfg/shardcfg.go:137-145 | the first loop shard by shard: on a member it stays, otherwise it goes to the least loaded group, the shards before it placed and those after it not |
| `ShardBalance.LevelTakesFirst` | src/shardkv1/shardcfg/shardcfg.go:147-161 | the second loop takes a group's lowest-numbered shards first |
| `ShardLoads.SquaresDrop` | src/shardkv1/shardcfg/shardcfg.go:148-161 | each move lowers the sum of squared loads, so the loop ends |
| `ShardConfig.ShardConfig.Analyze` | src/shardkv1/shardcfg/shardcfg.go:83-117 | the most and least loaded groups, the smallest gid among equals, and their loads, with the sentinel as the bound of the search |
| `ShardConfig.ShardConfig.Rebalance` | src/shardkv1/shardcfg/shardcfg.go:128-162 | the shards become the rebalanced assignment of the old ones; with no groups all become 0 |
| `ShardConfig.ShardConfig.AssignUnassigned` | src/shardkv1/shardcfg/shardcfg.go:137-145 | shards of missing groups go one by one to the least loaded group |
| `ShardConfig.ShardConfig.LevelLoads` | src/shardkv1/shardcfg/shardcfg.go:147-161 | the loop over most and least loaded groups ends in the levelled assignment |
| `ShardConfig.ShardConfig.Join` | src/shardkv1/shardcfg/shardcfg.go:165-194 | succeeds exactly for a nonempty set of new gids whose servers are in no other group, and then adds them and raises Num |
| `ShardConfig.ShardConfig.Leave` | src/shardkv1/shardcfg/shardcfg.go:196-216 | succeeds exactly for a nonempty list of distinct member gids, and then removes them and raises Num |
| `ShardConfig.ShardConfig.JoinBalance` | src/shardkv1/shardcfg/shardcfg.go:218-224 | succeeds exactly when Join does; then the groups are added, Num raised and the shards rebalanced over all groups; otherwise shards and Num stay |
| `ShardConfig.ShardConfig.LeaveBalance` | src/shardkv1/shardcfg/shardcfg.go:226-232 | succeeds exactly when Leave does and is fatal exactly for an empty list; then the groups go, Num rises and the shards are rebalanced over the rest; otherwise shards and Num stay |
| `ShardConfig.Extremes` | src/shardkv1/shardcfg/shardcfg.go:105-114 | the scan over sorted gids keeps the first group of highest and of lowest load |
| `MrRun.FinishedMeansSequential` | src/mr/coordinator.go:50-126 | **Main result.** when the coordinator is finished, after any crashes, timeouts and repeated tasks, the reduce files have exactly the lines of the sequential output, each once |
| `MrProgress.JobCanFinish` | src/mr/coordinator.go:50-126 | **Main result.** from every state of every run, whatever workers crashed or hang, the run can go on to Finished: what hangs times out and one worker does the rest |
| `MrProgress.DispatchRule` | src/mr/coordinator.go:50-105 | GetTask hands out the first unassigned task of the phase being served, and with none left makes the caller wait or leave |
| `MrProgress.TimerRule` | src/mr/coordinator.go:108-126 | a timeout gives an executing task back, a completion marks an executing task done, and nothing else moves |
| `MrRun.PartsAreAll` | src/mr/worker.go:51-82 | the files of one reduce task hold each pair of its keys as often as the sequential program's intermediate data and nothing else |
| `MrRun.ReductionOk` | src/mr/worker.go:117-132 | a reduce task's lines are those of the sequential program for its keys, for a reducer insensitive to order |
| `MrRun.FinishKeeps` | src/mr/coordinator.go:117-126 | a task is marked done only when all files of it exist |
| `MrRun.Accumulate` | src/main/mrsequential.go:42-56 | the concatenation of mapf over the input files |
| `MrWorker.Partition` | src/mr/worker.go:54-59 | bucket y is the pairs whose key hashes to y, in order |
| `MrWorker.ReduceSorted` | src/mr/worker.go:117-132 | over sorted pairs: one line per key, keys rising, each with the reducer's output on all values of the key |
| `MrWorker.RunHoldsAll` | src/main/mrsequential.go:73-90 | in sorted pairs the run from i to j holds all values of its key |
| `MrWorker.ValuesCount` | src/mr/worker.go:124-127 | a value is gathered for a key as often as the pair occurs |
| `MrWorker.LessExactly` | src/mr/worker.go:108-111 | the order pairs are sorted in is the lexicographic one of their keys |
| `MrWorker.BucketAppend` | src/mr/worker.go:54-59 | pairs keep their order within a bucket |
| `MrCoordinator.Coordinator.constructor` | src/mr/coordinator.go:153-164 | all tasks unassigned, map phase |
| `MrCoordinator.Coordinator.GetTask` | src/mr/coordinator.go:50-105 | the first unassigned task of the phase, the phase advancing only when all its tasks are done |
| `MrCoordinator.Coordinator.Scan` | src/mr/coordinator.go:53-71 | the first unassigned task of a range, and whether all are done when there is none |
| `MrCoordinator.Coordinator.Timer` | src/mr/coordinator.go:108-115 | an executing task becomes unassigned, any other stays |
| `MrCoordinator.Coordinator.CompleteTask` | src/mr/coordinator.go:117-126 | an executing task becomes done, any other stays |
| `MrCoordinator.Coordinator.IsDone` | src/mr/coordinator.go:143-147 | true exactly in the finished phase |

## Left out

- InstallSnapshot, sent and received (raft.go:494-546, 669-695, 884-905): it keeps a log suffix without comparing terms and may deliver an old snapshot, so the run theorems cover leaders whose followers' nextIndex is above the leader's snapshot.
- Fairness and time: that elections, changes, locks and jobs do come to an end. `RaftProgress`, `ShardProgress`, `MrProgress` and `KvLock` prove that they still can.
- RaftProgress.CommandCanCommit: asks for untrimmed logs, because a follower behind the leader's snapshot needs InstallSnapshot.
- Integer width: Go's int and uint64 are unbounded here, except for the unsigned subtraction in doRecovery.
- Aliasing between the entries of a message and the leader's log slice; messages are copied when sent.
- FNV hashing in Key2Shard and ihash, JSON and gob encoding, log output.
- The clerks of kvraft1, shardgrp and shardkv1, with leader hints and retry limits.
- Waking the other waiters when Submit sees a foreign id (rsm.go:173-181), and when a waiter gives up; a waiter may give up at any time in the model.
- Restarting a shard server from its snapshot, where start-up overwrites the restored shard state (shardgrp/server.go:419-431).
- ShardMove.ChangConfig: the method runs undisturbed; interference between its calls is in the steps of ShardRun.
- ChangeConfigTo and doRecovery as methods: they are the steps of a controller in ShardRun, since others act between any two of them.
- Query and printConfig, Copy, GidServers, IsMember and CheckConfig: plain lookups.
- The reduce glob matching an earlier mr-out-Y as well; it is taken to match exactly the files mr-X-Y.
- sort.Slice and sort.Ints: any sorted permutation, and insertion sort for the median.
