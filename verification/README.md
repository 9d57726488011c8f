# A verified model of the sharded key/value store

The store keeps a key space in twelve shards. Each shard is served by one of several replica
groups; each group is a Raft cluster that runs a deterministic state machine; controllers move
shards between groups while clients read and write. This project models the three parts that carry
the correctness of the whole and proves what they promise.

**Raft** (`src/raft/raft.go`). `RaftNode` says what each lock-held section makes of a server's
state; `RaftPeer` is the same server as a class with the program's fields and loops, proved equal
to it. `RaftCluster` puts any number of servers on a network that loses, delays, reorders and
repeats messages, with crashes at any time. An index outside the log slice, on which the Go process
would die, is a crash. `RaftCore` is the history behind a run (votes, leaders' logs,
acknowledgements), with every server's uncompacted log; nothing in the cluster depends on it.

**Shard migration** (`src/shardkv`, `src/kvsrv`). `ShardGroup` is the state machine of one group,
`ShardServer` the same as a class. `ShardWorld` has the versioned configuration store, any number
of controllers that run `ChangeConfigTo` or recover, crash and are superseded, groups that execute
any request ever sent at any later time and any number of times, and clients that retry a Put under
one request id. `ShardReplica` is the product of a Raft cluster and the servers it feeds, with the
data behind every snapshot. `ConfigService` is the configuration store's server and the retry loop
of its clerk, and `ShardStore` ties it to the store in `ShardWorld`.

Three kinds of results stand side by side: what no run ever does (safety, for all runs), what a step
does exactly (`RaftSteps`, `ShardServes`, `ShardTable`, in terms of the history and of the operations
served before), and that nothing gets stuck (`RaftPrompt`, `ShardProgress`: from every state of every
run there is a continuation that finishes).

**Balancing** (`src/shardkv/shardcfg/shardcfg.go`). `ShardConfig` is the class with the in-place
loops; `ShardCounting` is the argument that what they do is the least that could be done.

## What the code does not do, and what holds instead

- *Stale replies.* `replicateToFollower` compares a reply's term with the server's, but neither the
  term of the request that is being answered, nor whether the server still leads
  (`src/raft/raft.go:732-773`). Election safety and log matching hold all the same. Leader
  completeness does not: `RaftStaleReply.StaleReplyLosesEntry` and
  `RaftStaleCredit.LateCreditLosesEntry` are runs of five servers, one with a late reply to a leader
  and one with a late reply to a follower, in which a later leader lacks an entry that is counted as
  committed. The theorems about commit indexes and delivered commands are therefore about sound
  runs (`SoundRun`). These bar only a reply that raises `matchIndex` where the credit is or can be
  miscounted: in office, a success that answers an older term, beyond the commit index, where the
  leader has no entry of an older term; out of office, a raise that makes up a majority for an entry
  of its term beyond the commit index. Both are exact. By `RaftCredit.CreditIsExact` a leader's counts
  stay truthful if and only if the reply is not of the first kind, or the peer happens to have
  acknowledged as much in this term. By `RaftCredit.OutOfOfficeIsExact` the commit index moves if and
  only if the reply is of the second kind. To a leader, stale replies to InstallSnapshot are harmless
  (`RaftCredit.SnapshotRepliesAreSafe`).
- *Stale refusals.* They lose no entry, but a refusal of a request longer than the server's present
  log makes it search that log beyond its end, and the process dies:
  `RaftStaleReply.StaleRefusalPanics` is such a run. `RaftPanic.RefusalsExactly` says exactly which
  refusals do this, and in runs without them (`SteadyRun`) no server ever indexes outside its log.
- *Recovery reads.* `InitController` reads the current and the next configuration separately, so
  they need not be consecutive. Data safety is proved without assuming that they are. A
  non-consecutive migration can be refused with `ErrIllegalOperation`, on which the group's clerk
  panics: `ShardRecovery.RecoveryIsRefused` is such a run, and `ShardSafety.RefusedExactly` says
  exactly when a group refuses.
- *ErrMaybe.* The comment on the configuration store's clerk says a resent Put reports ErrMaybe
  when it is answered ErrVersion; the code reports ErrMaybe for every answer to a resent Put
  (`src/kvsrv/client.go:70-75`). The model follows the code.
- *Frozen shards.* `docs/DESIGN.md:712` says a frozen shard serves Get; the code refuses it
  (`src/shardkv/shardgrp/server.go:91`). The model follows the code.

## Assumptions

- A reply comes from executing the very request it answers. (`Submit` matches results by log index
  and a per-server id, and does not compare the server that the id belongs to.)
- Client ids are unique, and a client issues its Puts one at a time, as `putMutex` makes it.
- A proposed configuration is numbered one above one that was read from the store before.
- Group ids are not reused for groups that have lost their state, and the server lists in a
  configuration lead to the groups they name.
- Writing Raft's persisted state is atomic. Integers are unbounded. Encoding and decoding are the
  identity, except that an empty byte string does not decode and that snapshots turn nil maps into
  empty ones.

## Model

| member | source | states |
|---|---|---|
| `RaftSafety.ElectionSafety` | src/raft/raft.go:455-493 | In every run, restarts and stale replies included, no two servers ever lead the same term, at whatever times |
| `RaftSafety.LogMatching` | src/raft/raft.go:281-342 | In every run, if two servers at any two times have entries of one term at an index, they have the same entries at every earlier index both still hold |
| `RaftSafety.FullLogMatching` | src/raft/raft.go:397-413 | The same for the uncompacted logs: they are identical up to the index, through truncation, both InstallSnapshot branches and crashes |
| `RaftSafety.LeadersAreComplete` | src/raft/raft.go:468-480 | In every sound run, everything a server ever counts as committed is in the uncompacted log of every leader of a later term, even of one that led before the server committed it, and of every leader of the server's own term from then on |
| `RaftSafety.CommittedPrefixesAgree` | src/raft/raft.go:634-657 | In every sound run, what any two servers at any two times count as committed agrees as far as both do |
| `RaftSafety.StateMachineSafety` | src/raft/raft.go:779-827 | In every sound run, no two services are ever given different commands for one log index |
| `RaftSafety.ServicesAgree` | src/raft/raft.go:804-826 | In every sound run, each service has executed as many commands as its index says, and of any two, at any times, one has executed a prefix of the other's commands, whether by replay, snapshot or restart |
| `RaftSafety.ApplierInOrder` | src/raft/raft.go:779-827 | In every sound run, the message the applier holds is the service's next command or a snapshot not behind it that extends what it has, whatever ran since it was taken |
| `RaftSteps.AppliesExactly` | src/raft/raft.go:786-812 | In every sound run, an idle applier takes the pending snapshot if there is one, else the first committed command its service has not executed, and does nothing only if the service has executed them all |
| `RaftPrompt.CommittedIsDelivered` | src/raft/raft.go:779-827 | From every state of a sound run, a server left to itself can go on until its service has executed exactly the commands of its log up to its commit index |
| `RaftPrompt.LeadersCommitPromptly` | src/raft/raft.go:634-657 | In every sound run, at any time, a leader counts as committed every entry of its term that matchIndex shows on a majority |
| `RaftSteps.VotesExactly` | src/raft/raft.go:455-493 | In every run, a vote is granted if and only if the request is not of an older term, the history has no vote of the server for another in that term, and the candidate's log is at least as recent as the server's full log; the term of every answer, and that a granted vote is recorded |
| `RaftSteps.CampaignsExactly` | src/raft/raft.go:850-882 | A candidate stands in the next term and asks exactly the others, with the end of its full log |
| `RaftSteps.OfficeExactly` | src/raft/raft.go:883-914 | A candidate counts each vote of its term and takes office if and only if these and its own are a majority, with nextIndex after its full log and matchIndex 0 |
| `RaftSteps.SendsExactly` | src/raft/raft.go:601-631 | A leader sends its full log from nextIndex on, with its commit index, or its snapshot if that is compacted away; others send nothing; it dies exactly if nextIndex is beyond its log's end by more than one |
| `RaftSteps.AppendsExactly` | src/raft/raft.go:239-350 | An append is accepted if and only if it is not of an older term and its previous entry is in the follower's full log, not below the compacted part; the follower then has the leader's log up to the last entry sent, and otherwise its own as before |
| `RaftSteps.HintsExactly` | src/raft/raft.go:281-310 | A refusal names the entry after the compacted part, or the log's end, or the term of the entry asked about and the first kept index of the run of that term |
| `RaftSteps.RefusalsBackExactly` | src/raft/raft.go:757-773 | A refusal moves nextIndex to where it says or, if it names a term, after the last entry of that term at or before the one asked about, never to or below matchIndex; one about an entry up to matchIndex is ignored |
| `RaftSteps.FollowersLearnCommits` | src/raft/raft.go:345-347 | In every sound run, a follower that accepts what a leader sent has everything the leader had then, and a commit index at least the leader's at that time |
| `RaftSteps.SuccessesCountExactly` | src/raft/raft.go:732-755 | A success raises matchIndex to the last entry sent, if higher, and nextIndex after it; the commit index becomes the largest index of the server's term that matchIndex shows on a majority, if beyond it |
| `RaftSteps.SnapshotsCountExactly` | src/raft/raft.go:701-712 | The same for a reply to InstallSnapshot |
| `RaftPanic.SteadyRunsNeverPanic` | src/raft/raft.go:450-452 | If besides every refusal is in reach, no handler, sender, applier or Snapshot call ever indexes outside the log slice |
| `RaftPanic.RefusalsExactly` | src/raft/raft.go:757-773 | A refusal that moves nextIndex is in reach if and only if the server survives handling it and then sending to that peer; refusals of a leader's own requests always are |
| `RaftStaleReply.StaleRefusalPanics` | src/raft/raft.go:757-773 | A reachable state in which handling a late refusal, out of office, indexes beyond the log |
| `RaftCredit.CreditIsExact` | src/raft/raft.go:732-755 | A success that raises a leader's matchIndex leaves every count towards a commit truthful if and only if the guard of sound runs holds, or the peer has acknowledged as much in this term |
| `RaftCredit.SnapshotRepliesAreSafe` | src/raft/raft.go:701-712 | In every sound run, every InstallSnapshot reply that a leader counts meets that guard, whatever the term of the request |
| `RaftCredit.OutOfOfficeIsExact` | src/raft/raft.go:634-657 | In every sound run, for the matchIndex the server has, a credit leaves the commit index where it is if and only if it makes up no majority for an entry of the server's term beyond it |
| `RaftStaleReply.StaleReplyLosesEntry` | src/raft/raft.go:732-755 | A reachable state, through one late reply to a leader, in which the leader of a later term has another entry where an earlier leader counts one as committed |
| `RaftStaleCredit.LateCreditLosesEntry` | src/raft/raft.go:732-755 | The same through one late reply to a server that is a follower by then |
| `RaftStaleCredit.Miscredits` | src/raft/raft.go:634-657 | That reply, barred by the guard, moves the follower's commit index to an entry that two of five servers have |
| `RaftBackup.FastBackup` | src/raft/raft.go:757-773 | A same-term refusal for a short log or a wrong term sets nextIndex strictly below the probed index and not below the first difference of the logs, unless at or below the leader's compacted index; a refusal from a compacted prefix leads to a probe whose term matches, or to the snapshot |
| `RaftBackup.MismatchBackup` | src/raft/raft.go:292-306 | The follower's and the leader's scans together never step past what the two logs have in common |
| `RaftBackup.CommitIsExact` | src/raft/raft.go:634-657 | advanceCommitIndex ends at the largest index of the leader's term that matchIndex shows on a majority, if beyond the commit index, although it gives up at the first older term |
| `RaftBackup.FollowerCommitsVerified` | src/raft/raft.go:345-347 | A follower's new commit index is the larger of its own and the leader's, and if it moves it stays within the entries the request has just verified |
| `RaftRefinement.CompactionRefined` | src/raft/raft.go:174-203 | Every server of every run, in every step it takes (elections, appends, replies, snapshots, crashes, deliveries), does what a server with the full log does, sends the same messages and gives its service the same commands; the other departs from the program only for what lies before its checkpoint, and there too its state and messages are determined |
| `RaftRefinement.CompactionAddsNoDeath` | src/raft/raft.go:174-203 | In every sound run, where a server dies of an index out of range, the one with the full log dies too |
| `RaftRefinement.ServersStart` | src/raft/raft.go:947-1004 | That other server starts as the program starts |
| `RaftRefinement.SameJudgement` | src/raft/raft.go:287-342 | At or above the compacted index, appends are accepted, refused and merged exactly as on the uncompacted log, with the same answer, except that a conflict index below the compacted part becomes its end |
| `RaftCompaction.SplicedMerges` | src/raft/raft.go:328-342 | The follower's truncate-and-append on the log slice is the merge of the uncompacted log with the leader's |
| `RaftCompaction.AdoptSnapshotMerges` | src/raft/raft.go:397-413 | Both branches of InstallSnapshot are that merge as well |
| `RaftCoreProof.StepInv` | src/raft/raft.go:455-493 | Every event of the history keeps the invariant that yields log matching and leader completeness |
| `RaftChosen.LeaderCompleteness` | src/raft/raft.go:468-480 | An entry acknowledged by a majority in its leader's term is in the log of every later leader |
| `RaftClusterProof.NextKeeps` | src/raft/raft.go:239-350 | Every step of the cluster, stale replies included, keeps the invariant that ties it to the history |
| `RaftCommit.NextCommits` | src/raft/raft.go:683-776 | Every step that counts no reply wrongly keeps commit indexes, snapshots and delivered commands within what a majority acknowledged |
| `RaftPeer.Raft.constructor` | src/raft/raft.go:947-1004 | A restarted server has exactly what the persister held |
| `RaftPeer.Raft.Persist` | src/raft/raft.go:123-138 | The whole persistent state is written, and nothing else changes |
| `RaftPeer.Raft.BecomeFollowerWithTerm` | src/raft/raft.go:223-236 | The new term, no vote, follower, persisted |
| `RaftPeer.Raft.StartElection` | src/raft/raft.go:850-882 | The candidate's new state and the request it sends, as the specification has them |
| `RaftPeer.Raft.RequestVote` | src/raft/raft.go:455-493 | Vote and new state as specified, with the vote persisted before the reply |
| `RaftPeer.Raft.CountVote` | src/raft/raft.go:883-914 | Counting one reply, stepping down or taking office once, as specified |
| `RaftPeer.Raft.Start` | src/raft/raft.go:538-556 | A leader appends the command at the index it returns, persisted; others change nothing |
| `RaftPeer.Raft.AppendEntries` | src/raft/raft.go:239-350 | New state and reply as specified, for every request |
| `RaftPeer.Raft.FindConflictStart` | src/raft/raft.go:292-306 | The downward scan yields the start of the conflicting term |
| `RaftPeer.Raft.MergeEntries` | src/raft/raft.go:328-342 | The loop over the entries cuts and appends as specified, and persists only a change |
| `RaftPeer.Raft.TrimLog` | src/raft/raft.go:174-192 | The log is cut at the snapshot's index and persisted with it; older snapshots change nothing |
| `RaftPeer.Raft.InstallSnapshot` | src/raft/raft.go:377-424 | Adopting, keeping the log's tail or not, and handing the snapshot to the service, as specified |
| `RaftPeer.Raft.Replicate` | src/raft/raft.go:601-631 | What the leader sends to a follower: its whole log from nextIndex on, or its snapshot |
| `RaftPeer.Raft.AdvanceCommitIndex` | src/raft/raft.go:634-657 | The nested loops compute the specified commit index |
| `RaftPeer.Raft.CountHolders` | src/raft/raft.go:644-650 | The inner loop counts the servers whose matchIndex reaches the index |
| `RaftPeer.Raft.HandleAppendReply` | src/raft/raft.go:732-773 | Stepping down, counting a success, or going back after a refusal, as specified |
| `RaftPeer.Raft.HandleSnapshotReply` | src/raft/raft.go:701-712 | Stepping down or counting the snapshot as matched, as specified |
| `RaftPeer.Raft.SearchTerm` | src/raft/raft.go:761-769 | The leader's downward scan for the conflicting term, as specified |
| `RaftPeer.Raft.TakeNext` | src/raft/raft.go:786-812 | The applier's choice of the pending snapshot or the next committed command |
| `RaftPeer.Raft.FinishNext` | src/raft/raft.go:800-819 | How lastApplied moves after the delivery |
| `ShardSafety.OneServingGroup` | src/shardkv/shardgrp/server.go:198-359 | In every run, whatever controllers do, at most one group serves a shard |
| `ShardSafety.DataIsConserved` | src/shardkv/shardgrp/server.go:198-359 | Some group always holds exactly the Puts on the shard that took effect; it is the serving one if there is one, and otherwise the only frozen copy |
| `ShardSafety.StaleInstallsAreNoOps` | src/shardkv/shardgrp/server.go:260-306 | An Install under way changes the group that executes it only if it carries everything the shard holds; nil and emptied state never do |
| `ShardSafety.AbsentShardsAreEmpty` | src/shardkv/shardgrp/server.go:309-331 | A group that does not have a shard keeps no data and no clients of it |
| `ShardSafety.GroupsNeverDie` | src/shardkv/shardgrp/server.go:394-401 | No request under way can make a group panic or exit: no write to a nil map, no undecodable state |
| `ShardSafety.OneTable` | src/shardkv/shardgrp/server.go:80-193 | All Gets and Puts ever served were answered as by one versioned table that served them in that order |
| `ShardTable.GetsReadTheLastWrite` | src/shardkv/shardgrp/server.go:87-109 | In every run, a Get is answered with the value of the last Put on its key that was answered OK before it and with the number of these, or with ErrNoKey if there is none |
| `ShardTable.PutsAreConditional` | src/shardkv/shardgrp/server.go:158-193 | A Put that takes effect is answered OK if and only if its version is the number of Puts on its key answered OK before it, else ErrNoKey if there are none and ErrVersion if there are |
| `ShardServes.GetsServedExactly` | src/shardkv/shardgrp/server.go:87-109 | A Get is served if and only if the group that executes it serves the shard; else it is answered ErrWrongGroup |
| `ShardServes.PutsServedExactly` | src/shardkv/shardgrp/server.go:115-193 | A Put executed by the group that serves its shard takes effect if and only if it has not taken effect before, at whatever group; executed elsewhere it changes nothing and is answered ErrWrongGroup |
| `ShardServes.MovesAnsweredExactly` | src/shardkv/shardgrp/server.go:198-359 | For every sound group, Freeze, Install and Delete are answered OK if and only if the group is then past the step asked for, else ErrIllegalOperation with nothing changed; a Freeze tells the recorded number, and the shard's data and its clients' records exactly if that is its own |
| `ShardSafety.PutsTakeEffectOnce` | src/shardkv/client.go:173-220 | However often a Put is resent, delayed or sent to other groups, it takes effect at most once, and only as it was asked for |
| `ShardSafety.HostRemembers` | src/shardkv/shardgrp/server.go:368-420 | The group serving a shard has, for every Put that took effect on it, a record of that Put or a later one of the client |
| `ShardSafety.AnswersAreTrue` | src/shardkv/client.go:207-216 | The answer a client accepts is the outcome of that very Put, the only time it took effect |
| `ShardOrder.AnswersInTime` | src/shardkv/client.go:130-220 | Every answer a client accepts, to a Get or a Put, is the outcome of an operation served after the call was made and before the answer |
| `ShardOrder.RealTimeOrder` | src/shardkv/client.go:130-220 | If one call was answered before another was made, it was served before it, in the one order in which all operations are answered as by a single table |
| `ShardOrder.CallsAreServedApart` | src/shardkv/client.go:130-220 | Different calls, Gets or Puts, are served by different operations in that order |
| `ShardSafety.AdjacentMigrationsAreLegal` | src/shardkv/shardctrler/shardctrler.go:161-251 | Every ChangeConfigTo migrates between consecutive configurations, and such a migration never hears ErrIllegalOperation, whatever other controllers do |
| `ShardSafety.RefusedExactly` | src/shardkv/shardgrp/server.go:204-257 | A group refuses a Freeze or Delete if and only if it did not own the shard under the configuration before the new one and has recorded nothing as recent; Installs are never refused |
| `ShardSafety.ConfigsInStep` | src/shardkv/shardctrler/shardctrler.go:106-129 | The next configuration is always the current one or its successor |
| `ShardSafety.ControllersAgree` | src/shardkv/shardctrler/shardctrler.go:106-149 | Controllers that migrate to the same number agree on the assignment, with each other and with the store, through ErrMaybe as well |
| `ShardSafety.TrueMeansInForce` | src/shardkv/shardctrler/shardctrler.go:239-251 | When ChangeConfigTo has returned true, the current configuration is the requested one or a later one |
| `ShardProgress.RecoveryResumes` | src/shardkv/shardctrler/shardctrler.go:67-77 | A recovering controller stops if and only if the next configuration it reads is not above the one it read as current; else it migrates to exactly that one, with work for each shard that changes hands and for no other |
| `ShardProgress.RecoversAtOnce` | src/shardkv/shardctrler/shardctrler.go:67-77 | If both reads meet an unfinished migration, the controller sets out from the current configuration to its successor |
| `ShardProgress.ChangesExactly` | src/shardkv/shardctrler/shardctrler.go:106-149 | When ChangeConfigTo gives up, when it sets out to migrate, and that it returns true once it has written the current configuration |
| `ShardProgress.WorkExactly` | src/shardkv/shardctrler/shardctrler.go:184-236 | A shard's move goes one request further with each answer that is OK, installing what the Freeze returned, and any other answer ends the controller |
| `ShardProgress.SettledServes` | src/shardkv/shardctrler/shardctrler.go:161-251 | Whenever the next configuration is the current one, every shard is served by its owner, and no other group has anything of it |
| `ShardProgress.MigrationsCanComplete` | src/shardkv/shardctrler/shardctrler.go:161-251 | From every state of every run, one more controller, left alone, can complete what is unfinished and bring the next configuration into force |
| `ShardProgress.ChangesCanComplete` | src/shardkv/shardctrler/shardctrler.go:135-149 | From every settled state, a controller left alone can carry any change to the successor through, and returns true with it in force |
| `ShardProgress.PutsCanComplete` | src/shardkv/client.go:173-220 | From every state of every run, a pending Put can be answered, having taken effect |
| `ShardProgress.GetsCanComplete` | src/shardkv/client.go:130-170 | From every state of every run, a pending Get can be answered |
| `ShardRecovery.RecoveryIsRefused` | src/shardkv/shardctrler/shardctrler.go:67-77 | A reachable state in which a recovering controller, two configurations behind, hears ErrIllegalOperation |
| `ShardMigration.RequestExecutes` | src/shardkv/shardgrp/server.go:80-365 | Any request under way, executed in any reachable state, keeps the invariant, and its reply promises what the controller relies on |
| `ShardInvariant.StepKeeps` | src/shardkv/shardctrler/shardctrler.go:135-251 | Every step of controllers, store, groups and clients keeps the invariant |
| `ShardClients.FirstTime` | src/shardkv/shardgrp/server.go:124-156 | A Put that passes the duplicate test has not taken effect at any group before |
| `ShardGroup.DoOpSound` | src/shardkv/shardgrp/server.go:80-365 | A sound group survives every request except an Install of nil state that it would accept, and stays sound |
| `ShardGroup.DoOpAdvances` | src/shardkv/shardgrp/server.go:198-359 | A shard's number never falls, under one number its status only goes from Frozen to Absent, unserved data is untouched, and records only get newer |
| `ShardServer.KVServer.constructor` | src/shardkv/shardgrp/server.go:602-661 | Group 1 starts serving every shard at number 1, every other group has none, at number 0 |
| `ShardServer.KVServer.DoOp` | src/shardkv/shardgrp/server.go:80-365 | State and reply after any request are the specified ones, and the process ends exactly when specified |
| `ShardServer.KVServer.DoGet` | src/shardkv/shardgrp/server.go:87-109 | What a Get reads, as specified |
| `ShardServer.KVServer.DoPut` | src/shardkv/shardgrp/server.go:115-193 | Ownership, duplicate and version tests and their effects, as specified |
| `ShardServer.KVServer.MarshallShardState` | src/shardkv/shardgrp/server.go:368-391 | The loop collects the shard's data and exactly its clients' records |
| `ShardServer.KVServer.DoFreeze` | src/shardkv/shardgrp/server.go:198-258 | The Freeze transitions and replies, as specified |
| `ShardServer.KVServer.InstallShardState` | src/shardkv/shardgrp/server.go:394-420 | The shard's data and clients are replaced, records merge by larger request id, other shards are untouched |
| `ShardServer.KVServer.DoInstall` | src/shardkv/shardgrp/server.go:260-306 | The Install transitions and replies, as specified |
| `ShardServer.KVServer.DoDelete` | src/shardkv/shardgrp/server.go:309-359 | The Delete transitions and replies, as specified |
| `ShardServer.KVServer.Snapshot` | src/shardkv/shardgrp/server.go:422-500 | The copy describes the server's state with nil maps made empty |
| `ShardServer.KVServer.Restore` | src/shardkv/shardgrp/server.go:502-533 | The server's state becomes the one described |
| `ShardReplica.StateIsFold` | src/kvraft/rsm/rsm.go:105-156 | In every sound run of a Raft cluster and its servers, a server at index i of its log has the state of DoOp folded over the committed commands 1..i, up to nil and empty maps, by replay, installed snapshot or restart, and it is the state the apply loop computes from the messages since the last start |
| `ShardReplica.SnapshotsHaveData` | src/kvraft/rsm/rsm.go:85-156 | In every run, every snapshot in a server, on its disk or in a message has data that stands for its commands |
| `ShardReplica.ReplicasAnswerAlike` | src/kvraft/rsm/rsm.go:85-90 | In every sound run, replicas answer every sequence of requests alike at the same log index, at whatever times they reach it |
| `ShardReplica.RestoreIsFaithful` | src/shardkv/shardgrp/server.go:502-533 | No sequence of later requests tells a restored server from the one that took the snapshot |
| `ShardReplica.SameStep` | src/shardkv/shardgrp/server.go:80-365 | Servers that differ in nil for empty maps live or die together, answer alike and stay alike |
| `ShardReplica.ReadApply` | src/kvraft/rsm/rsm.go:105-156 | The loop's effect on the state machine; a snapshot is taken exactly after the commands after which the Raft state is found large, of the state at that command and with its index |
| `ConfigService.KVServer.Get` | src/kvsrv/server.go:42-55 | What the configuration store reads |
| `ConfigService.KVServer.Put` | src/kvsrv/server.go:61-81 | The versioned write, as specified |
| `ConfigService.StoreIsCas` | src/kvsrv/server.go:61-81 | A write is accepted exactly when it names the key's version, which then rises by one, and touches no other key |
| `ConfigService.GetsReadTheLastWrite` | src/kvsrv/server.go:42-55 | After any writes to a new server, a Get is answered with the last value accepted and the number of those, or with ErrNoKey |
| `ConfigService.ClerkPut` | src/kvsrv/client.go:64-77 | Whatever others write, and whenever an attempt is executed, after later ones and after the clerk has returned included, the write is accepted at most once; the clerk is told the outcome if and only if its first attempt is answered, where OK means accepted and an error that it never is; after any answer the key has moved past the version written |
| `ShardStore.StoreIsServer` | src/kvsrv/server.go:61-81 | In every run of the sharded store, the configuration store is that server after the Puts executed in between |
| `ShardStore.WriteIsPut` | src/shardkv/shardctrler/shardctrler.go:104-129 | A controller's write is accepted, and changes the store, exactly as the server's Put |
| `ShardStore.WritesSettle` | src/shardkv/shardctrler/shardctrler.go:239-251 | A controller's write is settled by its first execution: once accepted it is refused ever after, and once refused it is never accepted |
| `ShardRefresh.SingleFlight` | src/shardkv/client.go:105-123 | For every interleaving, at most one configuration query is under way |
| `ShardRefresh.WaitersWake` | src/shardkv/client.go:83-102 | A waiter's channel is closed, or a query is under way whose end closes it |
| `ShardRefresh.CacheNeverDecreases` | src/shardkv/client.go:105-123 | The number of the cached configuration never falls |
| `ShardRefresh.CacheIsWhatWasRead` | src/shardkv/client.go:105-123 | When a query ends, the cache is what the store held when the query was answered, waiters are released and no query is under way |
| `ShardRefresh.QueriesExactly` | src/shardkv/client.go:105-123 | A refresh starts a query if and only if none is under way |
| `ShardRefresh.CallersCanReturn` | src/shardkv/client.go:83-123 | From every state of every run, a caller of getConfig or refreshConfig can get out |
| `ShardRefresh.LooksExactly` | src/shardkv/client.go:83-102 | A caller takes the cache if and only if there is one and no query is under way |
| `ShardConfig.ShardConfig.Analyze` | src/shardkv/shardcfg/shardcfg.go:92-123 | The most and least loaded groups with their loads, of several the one with the smallest id |
| `ShardConfig.ShardConfig.Rebalance` | src/shardkv/shardcfg/shardcfg.go:134-166 | Terminates with every shard assigned and the groups balanced; writes exactly the shards that change, each once; no balanced assignment to the groups changes fewer |
| `ShardConfig.ShardConfig.AssignOrphans` | src/shardkv/shardcfg/shardcfg.go:143-150 | Orphans go to least loaded groups, and every shard of a group that is there stays |
| `ShardConfig.ShardConfig.MoveShards` | src/shardkv/shardcfg/shardcfg.go:152-165 | Ends balanced, adding each shard it moves to those written before, none of them twice |
| `ShardConfig.ShardConfig.Join` | src/shardkv/shardcfg/shardcfg.go:168-195 | Succeeds only for new groups without shared servers, then adds them all and raises the number; otherwise the number stays, and what was added is part of the request |
| `ShardConfig.ShardConfig.Leave` | src/shardkv/shardcfg/shardcfg.go:197-217 | Succeeds if and only if the list is not empty, has no repetition and names groups that are there; then removes exactly those and raises the number; otherwise exactly the groups before the first that is not there are removed |
| `ShardConfig.ShardConfig.JoinBalance` | src/shardkv/shardcfg/shardcfg.go:219-225 | Ends balanced with the fewest moves; from a balanced, fully assigned configuration, shards move only to groups that join |
| `ShardConfig.ShardConfig.LeaveBalance` | src/shardkv/shardcfg/shardcfg.go:227-233 | Ends balanced with the fewest moves; from a balanced, fully assigned configuration that keeps a group, exactly the leavers' shards move |
| `ShardConfig.JoinMovesToJoiners` | src/shardkv/shardcfg/shardcfg.go:219-225 | A fair redistribution of a balanced configuration gives shards only to groups that join |
| `ShardConfig.LeaveMovesLeavers` | src/shardkv/shardcfg/shardcfg.go:227-233 | A fair redistribution of a balanced configuration moves exactly the leavers' shards |
| `ShardConfig.FairMeansMinimal` | src/shardkv/shardcfg/shardcfg.go:134-166 | What the greedy loops keep implies that no balanced assignment to the same groups changes fewer shards |
| `ShardCounting.FairIsMinimal` | src/shardkv/shardcfg/shardcfg.go:152-165 | If no group both gains and gives and no giver ends below a gainer, a balanced outcome changes the fewest shards possible |

## Left out

- RaftPeer.Raft.TrimLog: a snapshot at the index just past the log's end empties the Go slice, and the server dies on its next access; here it dies at once. In the runs of `SteadyRunsNeverPanic` neither happens.
- ShardConfig.ShardConfig.Join: for a request with both a known group and a shared server, the order in which Go visits the map decides between returning false and exiting; the contract allows both.
- The step from a group of replicas to the one atomic state machine that `ShardWorld` uses: `Submit`, its waiting and its matching of results are assumed, not modelled.
- Pointers: entries of the Go maps are modelled as values. Each is owned by one map and copied before it is shared.
- The FNV hash: a key carries its hash, and nothing is assumed about it.
- Timers, elections' timing, heartbeats, backoff and all liveness that depends on time.
- Whether the election ticker's test and the start of an election are one step: an election may start at any time.
- `src/kvraft/server.go` and `src/kvraft/client.go`: the same Put and duplicate handling without shards.
- The group clerk's rotation over servers and its retry counts: a request may reach its group at any time, or never.
- Membership changes of a Raft group: the program has none.
- `shardkv-demo`, the transport, the encoders, the test harness and the debug output.
