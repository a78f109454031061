# A verified model of raft-scheduler

raft-scheduler is a distributed cron service: a Raft cluster replicates a log of commands, every
server applies them to a store of jobs and run histories, and the leader's scheduler fires due jobs.
This project models that service in Dafny 4.11 and proves what it is for: no two replicas ever
disagree, a restart loses nothing, a submitter is told the truth, the cron search finds what looking
at every minute would find, and a job runs at most once per occurrence, if whoever runs it has seen
the run before.

    dafny verify dfyconfig.toml

## How it is built

**Raft.** `RaftNode.dfy` gives every handler as a function on one server's state over its uncompacted
log. `RaftServer.dfy` is the server as the code keeps it: a class with an offset log behind a
sentinel, updated in place, saving through a persister. Each of its methods is proved to do to the
uncompacted log what the function says, so compaction is invisible by construction of the contracts.
`Cluster.dfy` composes n servers into a transition system. Messages form a set that only grows, which
is loss, duplication, delay and reordering at once; timeouts, compaction and crashes may happen at any
moment, also between the two saves that `RequestVote` and `AppendEntries` make.

The proof works on `History.dfy`, the protocol stripped of messages and volatile state: per server its
term and log, per term the election that was won (leader, voters, log at the election, log by now),
and what was requested, voted and confirmed. Six moves change it. `HistoryProofs.dfy` shows that they
keep an invariant whose core is leader completeness for every entry that is, or *may still become*,
committed: one that some majority could yet confirm. `ClusterSteps.dfy`, `ClusterShipping.dfy` and
`ClusterConfirm.dfy` show that every step of the cluster is such a move, and `Safety.dfy` draws the
conclusions over whole runs. Points where this code differs from the textbook, and which the proof
covers as they are:

- `AppendEntries` raises the term without clearing `votedFor` (internal/raft/raft.go:762). One vote per
  term still holds, because within a term `votedFor` only ever goes from nobody to one candidate.
- A heartbeat round reads its term and commit index under one lock and each peer's log under a later
  one (internal/raft/raft.go:592-596 and 606-628). In between the server may lose and regain
  leadership, so a message may carry a newer leader log under an older term. The model lets this
  happen; such a message is harmless because an answer to it never counts as a confirmation.
- Every message carries the whole suffix from `nextIndex`, so its commit index never exceeds what it
  carries; without that, the clamp in `AppendEntries` could lower the commit index.

`Backup.dfy` compares the fast log back-up with going back one index at a time, and `Handlers.dfy` says
what the handlers must do: when a vote is granted, who steps down, where an answer moves the leader's
indices. That nothing bad happens would hold of servers that refuse everything. `Electable.dfy`,
`CatchUp.dfy` and `Progress.dfy` show the other side: no reachable state is a dead end, because from each
of them some run goes on to a leader, and, while nothing is compacted, to any command being committed.

**Store and service.** `Replicas.dfy` is the store as a fold over commands, with its meaning stated
without the fold. `Store.dfy` is the class with its maps, its table of waiters and its channels of
capacity one. `System.dfy` puts a store on every server of the cluster: delivered entries queue in a
channel, snapshots are handed to background tasks that reach Raft in any order or never, submitters
time out at any moment, a crash loses all of it and restarts from what was saved. `SystemProofs.dfy`
and `SystemSafety.dfy` prove agreement, recovery and truthful answers end to end. `Reach.dfy` and
`FirstCommit.dfy` show that this is not said of nothing: they construct, for every n >= 2, a run that
elects a leader, commits a command and tells its submitter, and prove that fewer servers never get
there.

**Cron.** `Calendar.dfy` is the proleptic Gregorian calendar in UTC, `CronNext.dfy` the search,
`Text.dfy` the string functions of the Go library that the parser uses, `Masks.dfy` the 64-bit masks
and the loop that fills them, `CronParse.dfy` the parser, `CronErrors.dfy` the forms it accepts and the
errors it reports, `CronDays.dfy` the documented day test beside the one in the code.

**Scheduler.** `Scheduler.dfy` has the tick and the reconciliation over one store, to which each
submitted command is applied, or lost for good, before the scheduler looks at it again. A failed
submission may have been applied all the same. Which submissions succeed and what executions return is
given beforehand, so that the contracts can say that a due job is fired and what is recorded. `Firing.dfy` puts schedulers on all servers of the
service: each reads the store of its own server, at any moment, and submits at any later one. It says
exactly when two of them act on one occurrence, and `StaleLeader.dfy` constructs a run in which they do.

## Where the code and its documentation differ

The model follows the code.

- A day matches when the day of month or the day of week does, also when one of the two is a lone star
  (pkg/cron/parser.go:64-72). The documentation (index/1_parser.md:54-60 and 75) lets a star leave the
  other field to decide. For an accepted line the two readings agree on all days if and only if both day
  fields are stars, or neither is, or the one that is not a star admits every day anyway
  (`CronDays.DaysAsDocumented`). So "0 9 * * 1" runs every day, not every Monday
  (`CronDays.QuotedMonday`), and "0 0 31 2 *" is not impossible (`CronDays.QuotedImpossible`).
- `Next` returns the zero time for "nothing found". For an accepted line and a t from the zero time on
  it never does; for a t before the zero time it does exactly when the zero time is the first match, as
  for "* * * * *" one nanosecond before it (`CronParse.AcceptedRuns`).
- A step is documented as "every Nth value". A step close to 2^63 makes the loop index wrap around
  (pkg/cron/parser.go:162), and then a value below the range may be set, even one below the field's
  lower limit: "2/9223372036854775807" also sets 0 (`CronDays.QuotedField`), and as an hour it runs a job
  at midnight (`CronDays.QuotedStep`). The mask is right if and only if the start is less than twice the distance of the step from 2^63 (`Masks.FillExactly`).
  `Next` works all the same, since the first value of a range is always set (`Masks.FillFirst`).
- The next occurrence is stored before a job runs, which is to prevent a double run
  (internal/scheduler/scheduler.go:99-109). If nobody else edits the job, it does exactly when the
  second scheduler's store has processed what the first one stored (`Firing.LaterExactlyWhenInformed`). Nothing makes a new leader
  wait for that (internal/scheduler/scheduler.go:78-85), so it can run every due job a second time for
  the same occurrence (`StaleLeader.StaleLeaderRepeats`).
- README.md shows a single node, but a cluster elects a leader in some run, commits in some run and
  tells some submitter of success in some run if and only if it has two servers or more
  (`FirstCommit.SomeoneLeads`, `FirstCommit.SomethingIsCommitted`, `FirstCommit.SomeoneSucceeds`).
- `InstallSnapshot` keeps the log suffix without comparing terms at the snapshot's last index, unlike
  Figure 13 of "In Search of an Understandable Consensus Algorithm" (extended version). It keeps log
  matching if and only if that comparison would have succeeded, or nothing lies behind the snapshot
  (`InstallSnapshot.InstallKeepsMatching`). `InstallSnapshot.StaleSuffixKept` gives a history of three
  servers in which it fails. What is kept in such a case is stale
  (`InstallSnapshot.KeptSuffixIsStale`). It also leaves a raised term unsaved when it returns early,
  which the contract of `RaftServer.Server.InstallSnapshot` states exactly.

## Model

| member | source | states |
|---|---|---|
| Quorum.Intersect | internal/raft/raft.go:547-548 | two majorities of the same servers always share a server |
| HistoryProofs.OwnedMatch | internal/raft/raft.go:784-822 | log matching on the protocol: two logs of leader entries with equal terms at an index are equal up to it |
| HistoryProofs.OwnedMonotone | internal/raft/raft.go:321-346 | terms never decrease along a log made of leader entries |
| HistoryProofs.UpToDateCovers | internal/raft/raft.go:260-264 | the voting restriction: a candidate that passes logOk against a voter holds every possibly committed entry the voter holds, although the check compares only the last entry |
| HistoryProofs.GrantKeeps | internal/raft/raft.go:227-274 | casting a vote keeps the whole protocol invariant, whatever old vote the server carries |
| HistoryProofs.WinnerLogOlder | internal/raft/raft.go:545-550 | the log of a candidate that collects a majority holds no entry of its own term or a later one |
| HistoryProofs.ElectComplete | internal/raft/raft.go:545-550 | whoever wins an election already holds every entry that is, or may still become, committed in an earlier term |
| HistoryProofs.ElectKeeps | internal/raft/raft.go:545-567 | winning an election keeps the whole protocol invariant |
| HistoryProofs.ExtendKeeps | internal/raft/raft.go:321-346 | a leader appending to its own log keeps the whole protocol invariant |
| HistoryProofs.AcceptRetains | internal/raft/raft.go:804-822 | taking over a leader log, even from a stale or reordered message, never drops an entry the server confirmed that may still be committed |
| HistoryProofs.AcceptKeeps | internal/raft/raft.go:784-840 | a server accepting entries keeps the whole protocol invariant |
| HistoryProofs.CommittedLine | internal/raft/raft.go:843-863 | any two prefixes committed in any two terms lie on one line |
| RaftNodeProofs.MergeResult | internal/raft/raft.go:804-822 | the loop over sent entries leaves the old log if that agrees with them, and otherwise the agreed prefix followed by the sent entries |
| RaftNodeProofs.CommitMajority | internal/raft/raft.go:843-863 | an index may be committed exactly when its entry has the current term and the leader and the peers whose matchIndex reaches it are a majority |
| RaftNodeProofs.ScanCommitHighest | internal/raft/raft.go:843-863 | the upward scan ends at the highest index above the commit index that may be committed, and never lowers it |
| Handlers.GrantedExactly | internal/raft/raft.go:227-274 | a vote is granted exactly if the term is not past, no other vote stands in it, and the candidate log ends in a later term, or in the same and is no shorter |
| Handlers.EitherGrants | internal/raft/raft.go:260-264 | of any two servers with nothing else against it at least one grants the other its vote, whatever their logs |
| Handlers.LaterTermTaken | internal/raft/raft.go:240-246 | whoever is asked for a vote or sent entries in a later term ends in that term as a follower |
| Handlers.StaleCandidateStepsDown | internal/raft/raft.go:529-541 | a candidate that asks a server of a later term is refused, and the answer makes it a follower of that term without a vote |
| Handlers.StaleLeaderStepsDown | internal/raft/raft.go:650-661 | a leader that ships to a server of a later term is rejected, and the answer makes it a follower of that term, its log and indices as they were |
| Handlers.AcceptedExactly | internal/raft/raft.go:770-795 | a shipment is accepted exactly if its term is not past and the follower has prevLogIndex, at or after its snapshot, with the sent term |
| Handlers.AcceptanceCommits | internal/raft/raft.go:828-840 | a follower that accepts has committed what the leader had, if the message reaches that far |
| Handlers.RejectionMovesBack | internal/raft/raft.go:679-718 | a rejection at or after the snapshot of the follower lowers nextIndex to at most prevLogIndex, past nothing but indices at which the logs differ, and changes nothing else about the leader |
| Handlers.RejectionMovesUp | internal/raft/raft.go:770-776 | a shipment from before the snapshot of the follower moves nextIndex to just behind that snapshot |
| Handlers.AcceptanceMovesUp | internal/raft/raft.go:663-677 | an acceptance raises matchIndex to what was sent, never lowers it, sets nextIndex one past it, and leaves other peers alone |
| Handlers.SnapshotRaises | internal/raft/raft.go:187-206 | compaction raises the snapshot index to that of a newer snapshot and changes nothing else |
| ClusterSteps.AnswerVoteStep | internal/raft/raft.go:227-274 | answering a vote request, granted or refused, is a legal move: the persisted vote, the reply and the invariant agree |
| ClusterSteps.WinnerUnique | internal/raft/raft.go:545-550 | a candidate that counts a majority in a term nobody has won yet is the only one that can win it |
| ClusterSteps.CountVoteStep | internal/raft/raft.go:524-553 | counting a vote reply, stale, refusing or decisive, is a legal move |
| ClusterShipping.ShipStep | internal/raft/raft.go:590-639 | shipping a suffix is a legal move although the term and commit index were read under an earlier lock than the log |
| ClusterShipping.MergeOverwrites | internal/raft/raft.go:784-822 | at a follower whose entry at prevLogIndex has the sent term, merging leaves its own log or exactly the leader prefix that was sent |
| ClusterShipping.HintInRange | internal/raft/raft.go:770-795 | the conflict index a follower reports never lies beyond the end of the leader log plus one, also after the follower compacted |
| ClusterShipping.ReceiveStep | internal/raft/raft.go:746-840 | handling any shipment ever sent, in any order, any number of times, is a legal move |
| ClusterConfirm.CommitConfirmed | internal/raft/raft.go:843-863 | an index that passes the majority-and-current-term rule was confirmed by a majority in this term |
| ClusterConfirm.ConfirmStep | internal/raft/raft.go:650-720 | handling any reply ever sent is a legal move, whether it confirms, rejects or is stale |
| ClusterConfirm.CrashMidwayStep | internal/raft/raft.go:762-764 | a crash between the two saves of a handler, after the term was raised and before the vote or the log was saved, is harmless |
| ClusterConfirm.StepKeeps | internal/raft/raft.go:187-863 | every step any server can take, crashes and compaction included, keeps the invariant |
| ClusterConfirm.RunOk | internal/raft/raft.go:392-423 | every state of every run from fresh servers satisfies the invariant |
| Safety.ElectionSafety | internal/raft/raft.go:491-554 | over a whole run at most one server leads in a term, although AppendEntries carries an old vote into a new term |
| Safety.LoneServerNeverLeads | internal/raft/raft.go:501-553 | a cluster of at most one server never elects a leader, because votes are counted only in answers of peers |
| FirstCommit.SomeoneLeads | internal/raft/raft.go:491-554 | some run of n servers reaches a state with a leader if and only if n >= 2 |
| FirstCommit.SomethingIsCommitted | internal/raft/raft.go:590-863 | some run of n servers commits an entry if and only if n >= 2 |
| FirstCommit.SomeoneSucceeds | internal/store/store.go:117-147 | some run of the service on n servers answers a submission with nil if and only if n >= 2 |
| FirstCommit.FirstIsTold | internal/store/store.go:117-256 | for two servers or more and any command there is a run that elects server 0, replicates the command to a majority, commits and applies it, and tells its submitter |
| Reach.ReachedBelow | internal/store/store.go:93-113 | the cluster below every reachable state of the service is itself a reachable cluster, so all that is proved of runs of the cluster holds in the service |
| Electable.SomeoneCanLead | internal/raft/raft.go:491-554 | from every state that two or more servers can reach, whatever was lost, crashed or compacted, some run goes on to a leader that no server is ahead of in terms |
| CatchUp.CatchesUp | internal/raft/raft.go:590-720 | from every reachable state, a leader and a peer not ahead in terms need at most as many exchanges (shipment, receipt, answer) as the log of the peer has distinct terms, and two more, until matchIndex is the whole log, unless the leader has compacted more than the peer |
| Progress.AnythingCanBeCommitted | internal/raft/raft.go:321-863 | from every state that two or more servers can reach without compaction, some run goes on to a leader that has any given command committed as its last entry |
| Safety.LogMatching | internal/raft/raft.go:784-822 | equal terms at an index mean equal logs up to it, between any two servers and any two moments of a run |
| Safety.TermsAscend | internal/raft/raft.go:321-346 | terms never decrease along any log of a run |
| Safety.StateMachineSafety | internal/raft/raft.go:746-863 | two servers that ever have an index committed hold the same log up to it, at whatever moments |
| Safety.LeaderCompleteness | internal/raft/raft.go:843-863 | what any server had committed in some term is in the log of every leader of a later term, whichever of the two moments comes first, and of every leader of that term from then on |
| Safety.LeaderCommitsByQuorum | internal/raft/raft.go:843-863 | a leader moves its commit index only to an entry of its own term that a majority confirmed |
| Safety.RunLeaderCommits | internal/raft/raft.go:843-863 | over a whole run a leader commit index moves only up, to an entry of its own term that a majority confirmed |
| Safety.CommittedKept | internal/raft/raft.go:804-837 | no step removes an index at or below the commit index, and only a crash moves commitIndex or lastApplied back |
| Safety.CommittedForever | internal/raft/raft.go:804-837 | over a whole run what a server ever had committed stays in its log, through truncation, compaction and crashes, and its term never falls |
| Safety.LeaderIndexSafety | internal/raft/raft.go:614-627 | nextIndex and matchIndex of a leader stay within its log, so the slice taken for a peer is always in range |
| Safety.IndicesOrdered | internal/raft/raft.go:410-414 | lastIncludedIndex <= lastApplied <= commitIndex <= lastLogIndex in every state |
| Safety.DeliveryInOrder | internal/raft/raft.go:429-469 | since it booted, a server has delivered consecutive indices from its snapshot on, each once and each with the committed entry |
| RaftServer.Persister.Save | internal/raft/persister.go:53-58 | raft state and snapshot are replaced together |
| RaftServer.Server.LastLogIndex | internal/raft/raft.go:1020-1022 | the offset arithmetic gives the last index of the uncompacted log |
| RaftServer.Server.LogTerm | internal/raft/raft.go:1026-1035 | the offset lookup gives the term the uncompacted log has at that index, the snapshot index included |
| RaftServer.Server.Persist | internal/raft/raft.go:115-131 | afterwards a crash loses nothing, and the snapshot saved before is still there |
| RaftServer.Server.constructor | internal/raft/raft.go:392-423 | a restarted server is the server of before with everything volatile forgotten |
| RaftServer.Server.Snapshot | internal/raft/raft.go:187-206 | compaction up to an applied index leaves the uncompacted log as it was and saves the snapshot with the state; a stale one changes nothing |
| RaftServer.Server.RequestVote | internal/raft/raft.go:227-274 | the handler on the offset log does what the model does on the uncompacted log, and saves it |
| RaftServer.Server.StartElection | internal/raft/raft.go:491-522 | a new saved candidacy, and one request to every other server with the last index and term |
| RaftServer.Server.OnVote | internal/raft/raft.go:524-553 | counting a vote refines the model, the integer count standing for the set of voters |
| RaftServer.Server.BecomeLeader | internal/raft/raft.go:557-567 | a new leader assumes every peer up to date and nothing confirmed |
| RaftServer.Server.AppendEntries | internal/raft/raft.go:746-840 | the handler on the offset log gives the log, indices and reply the model gives on the uncompacted log |
| RaftServer.Server.ConflictStart | internal/raft/raft.go:785-795 | the walk back finds the start of the run of the conflicting term, not entering the snapshot |
| RaftServer.Server.MergeEntries | internal/raft/raft.go:799-822 | the in-place loop computes the merge of the model |
| RaftServer.Server.Start | internal/raft/raft.go:321-346 | a leader appends exactly the command, in its term, at the index it returns; anyone else changes nothing |
| RaftServer.Server.BeginRound | internal/raft/raft.go:590-596 | a round notes the term and the commit index the server has at this moment |
| RaftServer.Server.BuildAppend | internal/raft/raft.go:604-639 | the message carries the whole suffix from nextIndex with the noted term and commit index, unless the peer needs a snapshot or the server no longer leads |
| RaftServer.Server.OnAnswer | internal/raft/raft.go:646-720 | handling a reply refines the model in all of its branches |
| RaftServer.Server.NextAfterReject | internal/raft/raft.go:679-718 | the new nextIndex is the one the model computes from the hint |
| RaftServer.Server.MaybeAdvanceCommitIndex | internal/raft/raft.go:843-863 | the double loop advances the commit index as the model does |
| RaftServer.Server.ApplyNext | internal/raft/raft.go:448-466 | one turn delivers the entry at the next index, or skips to the snapshot index |
| RaftServer.Server.InstallSnapshot | internal/raft/raft.go:879-955 | the handler refines the model; the state is saved unless a raised term met a snapshot that is already covered |
| Backup.BackUpSkipsRejects | internal/raft/raft.go:679-718 | the jump after a rejection goes back, and every index it skips that the leader still holds would be rejected too |
| Backup.FastIsSlow | internal/raft/raft.go:682-713 | jumping by hints stops exactly where going back one index at a time would, also when both sides have compacted |
| Backup.ConflictTermFalls | internal/raft/raft.go:689-713 | after a rejection over a term the next check succeeds or meets a strictly smaller term |
| Backup.FastRounds | internal/raft/raft.go:679-718 | the fast search stops after at most one rejection per distinct term of the follower log and one more, at an index where the check succeeds |
| Backup.CompactionInvisible | internal/raft/raft.go:770-840 | a shipment at or after the snapshot is handled as if nothing had been compacted, except that a hint stops at the snapshot |
| Backup.CompactionInvisibleElsewhere | internal/raft/raft.go:1026-1035 | votes and the commit rule do not depend on how much of the log was compacted |
| Safety.RunKindred | internal/raft/raft.go:784-822 | any two logs of a run are related as fast back-up needs |
| InstallSnapshot.InstallKeepsMatching | internal/raft/raft.go:901-909 | an installed snapshot keeps log matching if and only if the receiver log ends by its last index or has its last term there |
| InstallSnapshot.StaleSuffixKept | internal/raft/raft.go:901-909 | the case the missing comparison lets through, in a history of three servers that satisfies the protocol invariant: a receiver that was cut off keeps a stale suffix behind a committed prefix and ends up with a log no leader ever had |
| InstallSnapshot.KeptSuffixIsStale | internal/raft/raft.go:901-909 | behind a committed prefix that it does not match a receiver keeps only entries of terms before that commit, and no leader from then on has that term at that index |
| InstallSnapshot.InstallKeepsIndices | internal/raft/raft.go:901-925 | the indices stay ordered and do not fall, whatever is installed |
| InstallSnapshot.InstallTakes | internal/raft/raft.go:880-925 | a snapshot of a leader not behind in terms, ahead of the own one, is taken over: its prefix, its index as snapshot, commit and applied index, and the own entries past it |
| Replicas.RunsHeld | internal/store/store.go:215-233 | after any commands the run history of a job holds as many runs as were recorded since it was last deleted, at most ten, and these are the last of them, in order |
| Replicas.JobHeld | internal/store/store.go:209-226 | after any commands a job is its last upsert since it was last deleted, with start and status of the last later run as lastRun and lastStatus |
| Replicas.SnapshotEveryHundredth | internal/store/store.go:250-255 | since a boot exactly every hundredth applied command yields a snapshot, of the state it leaves and at its index |
| Store.Store.constructor | internal/store/store.go:93-113 | a store boots from the saved snapshot, or empty |
| Store.Store.Submit | internal/store/store.go:117-133 | an accepted submission waits on a fresh channel at the index at which Raft put exactly this command; a refused one leaves no trace |
| Store.Store.GiveUp | internal/store/store.go:140-145 | whatever waits at the index is removed, and nothing else |
| Store.Store.Receive | internal/store/store.go:179-204 | a command is applied, an empty one skipped, a snapshot replaces the state and refuses every waiter |
| Store.Store.FailAll | internal/store/store.go:186-189 | every waiter is told once that the server does not lead, and the table is emptied |
| Store.Store.Tell | internal/store/store.go:236-247 | the waiter leaves the table and gets its one message; the send cannot block because nothing was sent to that channel before |
| Store.Store.ApplyCommand | internal/store/store.go:208-256 | the new state is the model state, the waiter at the index learns whether its own command was applied there, and every hundredth command yields a snapshot of the state |
| Store.Store.Mutate | internal/store/store.go:209-234 | upsert, delete and record change the maps as the model does |
| Store.Store.InstallSnapshot | internal/store/snapshot.go:29-40 | a snapshot replaces both maps; an empty one is ignored |
| SystemProofs.RestartedOk | internal/store/snapshot.go:18-40 | a store restarted from the snapshot it saved is again the fold of the prefix that snapshot stands for, and so agrees with its server |
| SystemProofs.CarriedWhereBorn | internal/store/store.go:117-132 | in any log a command stands only at the index Start returned for it |
| SystemProofs.OnlySubmitCreates | internal/raft/raft.go:321-346 | no step but a submission to a leader puts a new entry into the history of the cluster |
| SystemProofs.ToldTruth | internal/store/store.go:236-247 | a waiter that is told something is told the truth, and had not been told anything before |
| SystemProofs.SnapshotNeverAhead | internal/store/store.go:250-255 | a snapshot task that reaches Raft, late or out of order, stands for a prefix Raft has delivered |
| SystemProofs.SystemStepKeeps | internal/store/store.go:179-256 | every step of servers, stores, snapshot tasks and submitters keeps the invariant of the service |
| SystemSafety.RecoveryIsReplay | internal/store/store.go:93-113 | at every moment, after any crashes and any order of snapshot tasks, a store is the fold of the committed prefix it has processed, and the saved snapshot is the fold of its prefix |
| SystemSafety.ReplicasAgree | internal/store/store.go:208-256 | stores that have processed equally many indices are equal, on any servers at any moments |
| SystemSafety.CommittedAgree | internal/store/store.go:179-204 | committed prefixes of the service never diverge |
| SystemSafety.SuccessIsCommitted | internal/store/store.go:117-147 | a submission that returns nil: its command is committed at the index Start returned, and stands there on every server that has that index committed |
| SystemSafety.RefusedIsNeverCommitted | internal/store/store.go:117-147 | a submission that returns ErrNotLeader: its command is not committed at any index on any server, then or later |
| SystemSafety.CommandAtOneIndex | internal/store/store.go:117-132 | a submitted command stands at one index at most, in every log of every server |
| SystemSafety.ToldOnce | internal/store/store.go:236-247 | a step that tells a waiter tells one that was not told before, and keeps every answer given |
| SystemSafety.RunToldOnce | internal/store/store.go:236-247 | over a whole run no two applied commands, on whatever servers, wake the same submission |
| Calendar.DayCivil | pkg/cron/parser.go:171-178 | a valid date becomes a day number and back |
| Calendar.CivilDay | pkg/cron/parser.go:171-178 | a day number becomes a valid date and back |
| Calendar.YearStartFormula | pkg/cron/parser.go:54 | the calendar has 365 days a year and the leap days of the Gregorian rule, for every year, before year 1 too |
| Calendar.NewYearWeekday | pkg/cron/parser.go:67 | the weekday of 1 January of every year, before year 1 too |
| Calendar.DayFormula | pkg/cron/parser.go:171-178 | the day of any year, month and day is one closed formula, without a table of months |
| Calendar.MonthLengths | pkg/cron/parser.go:171-173 | the twelve months have their lengths, February by the rule of fourths, hundredths and four-hundredths |
| Search.Skip | pkg/cron/parser.go:57-90 | skipping numbers without a property does not change the first one found |
| CronNext.MonthSkip | pkg/cron/parser.go:59-62 | the jump to the next month moves forward and skips only minutes that do not match |
| CronNext.DaySkip | pkg/cron/parser.go:66-72 | the jump to the next day moves forward and skips only minutes that do not match |
| CronNext.HourSkip | pkg/cron/parser.go:75-78 | the jump to the next hour moves forward and skips only minutes that do not match |
| CronNext.Find | pkg/cron/parser.go:57-90 | the skipping loop finds what looking at every minute would find |
| CronNext.Next | pkg/cron/parser.go:49-90 | the next activation is that minute, or the zero time |
| CronNext.NextIsLeast | pkg/cron/parser.go:49-90 | a result other than zero is a matching whole minute after t, before the four-year limit, and none before it matches |
| CronNext.NextZeroExactly | pkg/cron/parser.go:54-89 | for every t, the zero time is returned exactly when no minute before the limit matches, or the zero time is itself the first match, which happens only for t before it |
| CronNext.LimitFourYearsOn | pkg/cron/parser.go:53-54 | the search ends at the same date and time four years on, or on 1 March for a 29 February that year does not have |
| CronNext.MonthHasMatch | pkg/cron/parser.go:64-72 | every month that matches has a matching day, because it contains every weekday and either day field is enough |
| CronNext.NextExists | pkg/cron/parser.go:49-90 | an expression without an empty field has a match less than two years ahead |
| Text.AtoiDecimal | pkg/cron/parser.go:118 | reading a printed number gives it back |
| Text.AtoiWritten | pkg/cron/parser.go:118 | a number with an optional sign and any leading zeros is read as its value, within 64 bits |
| Text.OnlyWrittenRead | pkg/cron/parser.go:118 | nothing else is read as a number |
| Text.SplitJoin | pkg/cron/parser.go:101 | splitting undoes joining |
| Text.FieldsJoin | pkg/cron/parser.go:28 | the fields of words joined by blanks are the words |
| Text.FieldsSpaced | pkg/cron/parser.go:28 | whatever blanks stand between and behind them, the fields of a line are its words |
| CronParse.SyntaxOfRender | pkg/cron/parser.go:112-148 | a written part is read back as the part it was |
| CronParse.RenderOfSyntax | pkg/cron/parser.go:112-148 | every text is the writing of exactly one part, so reading loses nothing |
| Masks.FillBits | pkg/cron/parser.go:158-166 | when the step fits, bit j of a filled range is set exactly when j is in the range, a whole number of steps from its start |
| Masks.FillExactly | pkg/cron/parser.go:158-166 | the mask is the range if and only if its start is less than twice the distance of the step from 2^63; a larger step wraps around in 64 bits and sets a bit below the range |
| CronDays.QuotedStep | pkg/cron/parser.go:158-166 | "0 2/9223372036854775807 * * *", which asks for hours from 2 on, is accepted and matches at midnight of every day |
| CronDays.QuotedField | pkg/cron/parser.go:158-166 | the field "2/9223372036854775807" is accepted and sets bit 0, also where its range starts above 0 |
| Masks.FillFirst | pkg/cron/parser.go:158-166 | the bit of the first value is set whatever the step |
| Masks.FillRangeStep | pkg/cron/parser.go:158-166 | the loop fills the mask, its index wrapping around in 64 bits, and it ends for every step |
| CronParse.ParsePart | pkg/cron/parser.go:112-155 | a part is read as its meaning, or as the first of its errors |
| CronParse.ParseField | pkg/cron/parser.go:93-109 | a field is the union of its parts, or the error of the first bad one; a lone star is no special case |
| CronParse.FieldBits | pkg/cron/parser.go:93-109 | when its steps fit, bit j of an accepted field is set exactly when one of its parts admits j |
| CronParse.FieldWithin | pkg/cron/parser.go:149-154 | when its steps fit, no bit of an accepted field lies outside the limits |
| CronParse.FieldFilled | pkg/cron/parser.go:149-154 | every accepted field has a bit within its limits, whatever its steps |
| CronParse.FieldAccepted | pkg/cron/parser.go:99-108 | a field is accepted exactly when each of its parts is |
| CronParse.Parse | pkg/cron/parser.go:26-45 | a line is read as its five fields, or the first error, naming the field |
| CronParse.LineAccepted | pkg/cron/parser.go:26-45 | a line is accepted exactly when it has five fields and every part of each is accepted |
| CronErrors.StarRead | pkg/cron/parser.go:112-148 | a star is the whole range, with a step the whole range in steps |
| CronErrors.ValueRead | pkg/cron/parser.go:112-148 | a number stands for itself alone, with a step or without |
| CronErrors.RangeRead | pkg/cron/parser.go:112-148 | a range stands for all its values, with a step for every so many |
| CronErrors.BadStep | pkg/cron/parser.go:115-125 | the text after the first slash must be a positive number and is reported otherwise, whatever stands before it |
| CronErrors.BadValue | pkg/cron/parser.go:140-146 | a value that is no number is reported, with a step or without |
| CronErrors.BadEnds | pkg/cron/parser.go:127-138 | of a range the first end that is no number is reported |
| CronErrors.BadRange | pkg/cron/parser.go:149-153 | numbers outside the limits, or the wrong way round, are reported as they were read |
| CronErrors.FirstBadPart | pkg/cron/parser.go:99-108 | a rejected field reports what is wrong with the first of its parts that is wrong |
| CronErrors.FirstBadField | pkg/cron/parser.go:26-45 | a rejected line with five fields reports the first bad one by its name, and what is wrong there |
| CronParse.AcceptedRuns | pkg/cron/parser.go:26-90 | for every accepted line and every t, Next is after t and less than two years ahead; it is the zero time exactly when that is the first match after t, so never for t from the zero time on |
| CronDays.StarDayAdmitsAll | pkg/cron/parser.go:64-72 | for every accepted line, a lone star in either day field makes every day match, whatever the other field says |
| CronDays.DaysAsDocumented | pkg/cron/parser.go:64-72 | for every accepted line: the day test meets the documented one on all days if and only if both day fields are stars, or neither is, or the one that is not admits every day of its range |
| CronDays.QuotedMonday | index/1_parser.md:54-60 | "0 9 * * 1", documented as 9:00 every Monday, matches at 9:00 of every day |
| CronDays.QuotedImpossible | index/1_parser.md:54-60 | "0 0 31 2 *", documented as impossible, has a next activation less than two years after any instant |
| CronParse.ScheduleRoundTrip | pkg/cron/parser.go:26-166 | every schedule of ranges with steps that fit, in any number per field, can be written down and is parsed to exactly the bits it stands for |
| Scheduler.NextRun | internal/scheduler/recovery.go:52-62 | the next occurrence of an accepted expression, none of a rejected one |
| Scheduler.UpcomingIsFirst | internal/scheduler/recovery.go:52-62 | the next occurrence is the first match after now |
| Scheduler.UpcomingExactly | internal/scheduler/recovery.go:52-62 | there is a next occurrence exactly for an accepted expression, unless its first match is the zero time |
| Scheduler.FoldWellFiled | internal/store/store.go:211-213 | in every store a job is filed under its own id |
| Scheduler.Scheduler.FireJob | internal/scheduler/scheduler.go:101-135 | a job with a next occurrence is sent with it first; it runs exactly if that submission succeeds, and then its finished run is sent; a failed submission may have been applied or not |
| Scheduler.Scheduler.RunAndRecord | internal/scheduler/scheduler.go:118-134 | what the executor returned is sent once, filed under the job, with its outcome unchanged and missing times filled in |
| Scheduler.Scheduler.ListJobs | internal/store/store.go:161-169 | every job once |
| Scheduler.Scheduler.StoreNext | internal/scheduler/scheduler.go:102-116 | the job is sent with its next occurrence under an id of its own, and nothing is sent when there is none; it succeeds exactly if that submission does |
| Scheduler.Scheduler.Tick | internal/scheduler/scheduler.go:90-97 | every job with 0 != NextRun <= now and a next occurrence is sent with it, once, and run exactly if that submission succeeds; every other job stays as it is; nothing else is sent but what the executions returned |
| Scheduler.Scheduler.AdvanceNextRun | internal/scheduler/recovery.go:37-48 | the job is sent with its next occurrence, and not run |
| Scheduler.Scheduler.ReconcileMissedJobs | internal/scheduler/recovery.go:20-33 | of the jobs with 0 != NextRun < now and a next occurrence, those of policy "skip" and "run_once" are sent with it, once; exactly those of "run_once" whose submission succeeds are run; every other job stays as it is |
| Scheduler.AtMostOncePerOccurrence | internal/scheduler/scheduler.go:90-135 | on one store: two runs of a job that was not replaced or deleted in between are separated by an occurrence, over any sequence of ticks, reconciliations, failed submissions and other commands |
| Firing.CommandStands | internal/store/store.go:117-132 | wherever the request of a submission is committed, the entry holds exactly the command that was submitted |
| Firing.SuccessApplies | internal/store/store.go:208-247 | a submission succeeds only at the server that made it, in the step in which its own store applies the command |
| Firing.SeenBefore | internal/store/store.go:117-169 | what a scheduler read before it sent a command is the fold of a log prefix that ends before that command, in the log of whichever server has it committed |
| Firing.OncePerOccurrence | internal/scheduler/scheduler.go:90-135 | across servers and leaders: once a submission for a job succeeded, a scheduler whose store had processed it takes the job up only for a later occurrence, after a matching minute, if only such schedulers changed the job in between |
| Firing.LaterExactlyWhenInformed | internal/scheduler/scheduler.go:90-135 | of two successful submissions for a job, the second is for a later occurrence if and only if its scheduler had processed the first, and otherwise for the same one, if from what they read on nobody else edits the job but schedulers that had processed the first |
| StaleLeader.StaleLeaderRepeats | internal/scheduler/scheduler.go:71-97 | for every due job there is a run of two servers in which it runs twice for one occurrence: a new leader ticks before its store has applied what the old one committed |

## Left out

- RaftServer.Server.InstallSnapshot: refined and examined locally, but not a step of the cluster or the service: it can leave a log that no leader ever had (`InstallSnapshot.StaleSuffixKept`), which the invariant behind the safety theorems excludes. Nothing is claimed about the safety of runs in which a leader sends snapshots.
- Store.Store.Receive: the snapshot message is handled by the class only; the service runs without snapshots from a leader.
- SystemSafety.SuccessIsCommitted: truthfulness only. That a committed submission is woken is not promised by the code, because a timeout removes whatever waits at its index (internal/store/store.go:143).
- Scheduler.AtMostOncePerOccurrence: on one store, one pass at a time. Across servers, with passes that overlap, `Firing.OncePerOccurrence` needs the later scheduler to have processed the earlier command, and without that it fails (`StaleLeader.StaleLeaderRepeats`).
- FireNow: it runs a job whether or not it is due, so that no occurrence stands behind the run.
- Progress.AnythingCanBeCommitted: commits and elections can happen from every reachable state; that they do in the end is not claimed. It starts from states without compaction, and CatchUp.CatchesUp from a leader that has not compacted more than its peer, because sending a snapshot instead is no step of the cluster here.
- Transport, connection handling, sleeps, heartbeat timing and goroutine scheduling: timeouts and message arrivals are steps that may happen at any moment.
- The encoding of saved state and snapshots: the persister and the snapshots hold values, and decoding failures do not occur.
- Durability of the medium: the persister is taken to survive a crash, as Raft needs; cmd/crond/main.go:58-60 still uses one in memory.
- Uniqueness of random request ids: a submission uses an id that was not used before.
- Time zones other than UTC, and the overflow of Go's time arithmetic.
- The field `second` of an expression and the function `nextBit`, which nothing uses.
- GetState, GetJob, GetRuns and Kill: the first three read a field or a map under a lock and change nothing; a killed server takes no more steps, which the model's runs allow at any moment.
- The HTTP API, the executors, main, logging and deployment: they only pass requests to, or are called by, what is modelled; an executor's outcome is arbitrary here.
