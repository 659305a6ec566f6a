# ShardZero, verified

A Dafny model of ShardZero's replicated key-value store: its fixed-membership Raft group
(`internal/raft`), the journalled store each node keeps, the write-ahead log under it
(`internal/storage`), the replicated machine with retry sessions (`internal/statemachine`), the
standalone database (`internal/database`) and the linearizability checker of the Raft tests. Section
numbers of Raft refer to Ongaro and Ousterhout, "In Search of an Understandable Consensus Algorithm
(Extended Version)".

`dafny verify dfyconfig.toml` checks everything.

## Layers

| file | content |
|---|---|
| `StateMachine.dfy` | SET, DELETE and CAS with sessions; exactly-once; the `Machine` object |
| `Sessions.dfy`, `Utf8.dfy` | what the sessions say of the log applied, and what every command is told; which text is valid |
| `RaftTypes.dfy`, `Store.dfy`, `NodeModel.dfy` | entries, messages, journal records and every handler, on values |
| `Committing.dfy`, `Replies.dfy`, `Tickets.dfy` | what the handlers commit, answer and tell their clients, stated without the handlers' own helpers |
| `Cluster.dfy` | the group as a state machine over atomic steps; one step holds at most one write |
| `Invariant.dfy`, `Preservation.dfy`, `QuietSteps.dfy`, `Elections.dfy`, `Replication.dfy` | the inductive invariant and its preservation by all fifteen steps |
| `History.dfy`, `Serving.dfy` | what clients are told, and its preservation |
| `Safety.dfy`, `Holding.dfy`, `Submissions.dfy`, `Linearizability.dfy`, `Acknowledged.dfy` | the group's safety over all runs |
| `Handlers.dfy`, `Simulation.dfy` | every handler is a chain of steps, and no defensive check ever fires |
| `CrashPoints.dfy`, `CrashRecovery.dfy` | what each handler has told its clients and left on disk, write by write, and why a crash at any write is part of a run |
| `CatchUp.dfy`, `Effects.dfy`, `Dialogue.dfy`, `Chains.dfy` | when a leader brings a follower up to date, exactly |
| `Calls.dfy`, `LeftBehind.dfy` | runs made of single calls; two of them end where catching up fails |
| `Promises.dfy`, `Waiting.dfy` | what holds between any two calls: nothing is left to commit or compact, named leaders lead, nobody who waits is forgotten or told twice |
| `DiskStore.dfy`, `Journals.dfy` | the journalled store as an object, with failing writes; what any journal that opens holds |
| `RaftServer.dfy` | the node as an object: fields changed in place over a compacting store and a failing disk, each method proved against `NodeModel` |
| `Wal.dfy`, `Database.dfy` | the log file byte by byte; the standalone database on top of it |
| `Checker.dfy` | the memoised search for a legal order |

The group may have any finite membership. The network is a growing set of sent messages, so messages
may be lost, delayed, repeated and reordered. A crash may fall between any two writes of a handler. A
write that fails after reaching the disk is the step followed by a reopening; one that does not reach
the disk is the reopening alone. `CrashPoints` says for each handler which moments it goes through: the
node in memory, with the answers its clients have by then, and the hard state on disk.
`RaftServer.Server` is proved to go through no others, whatever fails, and to crash in one of them when
a write fails. `CrashRecovery.CrashIsReopening` proves that reopening at any of them continues the run,
with the answers given by then on record.

`Reign`, `Ballot`, `campaigns`, `acks` and `history` are bookkeeping for the proofs: what each term's
leader appended and who elected it, the log each vote was cast with, how far a node stored a term's log
while in that term, and when operations were submitted and answered.

A node's value keeps its uncompacted log and a base. Handlers look at nothing below the base;
`RaftServer.Server` has only the part from the base on, and its methods are proved to do what the
handlers of `NodeModel` do.

## Findings

The repository's README promises that a restarted node catches up from the leader. With nothing
compacted that holds (`Dialogue.CatchUpExactly`). After compaction it may not. The follower's backward
scan (`internal/raft/rpc.go:45-47`) can run past the entries in dispute: to the follower's own base, or
below the leader's. In the first case every further request is rejected forever
(`internal/raft/rpc.go:38-42`, `internal/raft/rpc.go:215-220`). In the second the leader's batch loop
reads below its base, an index out of range (`internal/raft/rpc.go:159-164`).

Both happen in runs of the group that consist of nothing but genuine calls, with lost messages, elections
and in the first case a restart: for any three members `LeftBehind.FollowerIsLeftBehind`, for any five
`LeftBehind.LeaderReadsBelowBase`. The exact condition, for every reachable state, is in
`Dialogue.CatchUpExactly`; on logs alone it is `CatchUp.AgreementIsFound`, and `CatchUp.HowItFails` tells
the two failures apart. Safety is not affected.

## Model

| member | source | states |
|---|---|---|
| StateMachine.ApplyKeepsValid | internal/statemachine/machine.go:137-163 | Applying any command keeps the machine one that Restore accepts |
| StateMachine.FoldKeepsValid | internal/statemachine/machine.go:137-163 | So does any command log |
| StateMachine.SettledIsNoOp | internal/statemachine/machine.go:113-141 | A command leaves values, sessions and count alone if and only if it is invalid or its client already executed that or a later request |
| StateMachine.SettledForever | internal/statemachine/machine.go:113-163 | A command once applied stays settled whatever is applied later |
| StateMachine.AnswerFrozen | internal/statemachine/machine.go:117-127 | The answer to a settled command never changes, except into the stale error |
| StateMachine.RetryIsExactlyOnce | internal/statemachine/machine.go:113-163 | A retry changes nothing and returns the first outcome or the stale error, whatever lies between |
| StateMachine.ExactlyOnce | internal/statemachine/machine.go:113-163 | Deleting every repeat of an identical command from any log leaves the final machine the same |
| StateMachine.DedupIsDistinct | internal/statemachine/machine.go:117-127 | The log without repeats holds each command of the original once, and no other |
| Sessions.SessionsAreLast | internal/statemachine/machine.go:113-163 | After any log a client's session is the last of its commands that took effect, with the outcome it had; a client without one never sent a valid command |
| Sessions.AnswersExactly | internal/statemachine/machine.go:113-129 | After any log: invalid exactly if not valid, stale exactly if the client executed a later id, reused exactly if it executed another command under that id last; success means executed, now or then, and then with the same answer |
| Sessions.CountsExecuted | internal/statemachine/machine.go:160-163 | The count is the number of commands of the log that took effect |
| Utf8.ValidStringIsUtf8 | internal/statemachine/machine.go:83-87 | Text is valid exactly if it encodes some sequence of Unicode scalar values |
| StateMachine.Machine.CheckCommand | internal/statemachine/machine.go:113-129 | Reports what the session says of a command, changing nothing |
| StateMachine.Machine.ApplyCommand | internal/statemachine/machine.go:137-163 | New state and outcome are those of the specification |
| StateMachine.Machine.Read | internal/statemachine/machine.go:165-170 | Returns the key's value, or empty and not found |
| StateMachine.Machine.Snapshot | internal/statemachine/machine.go:178-189 | Copies values, sessions and count completely |
| StateMachine.Machine.Restore | internal/statemachine/machine.go:193-215 | Succeeds exactly on valid snapshots and then holds them; otherwise changes nothing |
| StateMachine.SnapshotRoundTrip | internal/statemachine/machine.go:178-215 | Every machine any log produces survives snapshot and restore unchanged |
| RaftTypes.MajoritiesMeet | internal/raft/node.go:288 | Two sets of more than half the members share one |
| Store.EntriesPass | internal/raft/store.go:129-139 | Entries pass validation exactly when numbered in order, valid, and of positive, bounded, never decreasing terms |
| Store.AcceptedIsShaped | internal/raft/store.go:160-172 | A record that passes is applicable, and leaves commit within the log |
| DiskStore.WriteAdvances | internal/raft/store.go:84-172 | No record the store writes lowers term, commit or base, replaces a vote within its term, or changes a committed entry |
| DiskStore.NeverRegresses | internal/raft/store.go:160-216 | The same over any sequence of saves, checkpoints, failed writes and reopenings |
| DiskStore.CheckpointReplaysAlone | internal/raft/store.go:193-216 | A valid checkpoint record alone replays to the state it leaves |
| DiskStore.Disk.Validate | internal/raft/store.go:84-147 | Reports the first objection to a record, or none |
| DiskStore.Disk.Accept | internal/raft/store.go:160-172 | Memory becomes the state the record prescribes |
| DiskStore.Disk.Save | internal/raft/store.go:174-188 | A rejected record leaves no trace; a saved one is in memory and journal; a failed write leaves memory alone, and the journal replays to the state before the record or after it, as it landed or not |
| DiskStore.Disk.TakeCheckpoint | internal/raft/store.go:193-216 | Only an index above the base and within commit is taken; then the journal is that one record and replays to memory; a failed replacement leaves memory alone and the journal old or new |
| DiskStore.Load | internal/raft/store.go:56-75 | Opens exactly the journals that replay, and holds what they replay to |
| DiskStore.Open | internal/raft/store.go:56-82 | As Load, and an empty journal ends with exactly its first record |
| Safety.StepKeepsGood | internal/raft/rpc.go:15-221 | Every atomic step keeps the whole invariant |
| Safety.RunIsGood | internal/simulation/simulation.go:452-517 | Every reachable state satisfies the invariant |
| Safety.ElectionSafety | internal/raft/node.go:422-436 | At most one node is ever leader of a term, at any moments of a run (section 5.2) |
| Safety.VotesAreFinal | internal/raft/rpc.go:113-119 | Terms never fall, and a vote is the only one of its term, through restarts |
| Safety.CommitNeverRegresses | internal/raft/store.go:116-118 | Commit index and base never fall, through restarts |
| Safety.LogMatching | internal/raft/rpc.go:43-87 | Equal index and term in any two logs at any moments mean equal logs up to there; terms are ordered and bounded (section 5.3) |
| Safety.LeaderAppendOnly | internal/raft/runtime.go:90-97 | Within its term a leader only appends |
| Safety.LeadersHoldCommitted | internal/raft/node.go:274-297 | Leader completeness: what any node knows committed is in every leader's log of that or a later term (section 5.4) |
| Safety.CommittedPrefixesAgree | internal/raft/rpc.go:70-78 | Committed prefixes of any nodes at any moments agree |
| Safety.ReplicaAgreement | internal/raft/node.go:299-317 | Nodes that applied equally many entries hold equal values, sessions and counts: the sequential machine's |
| Safety.CompactionNeedsNoTransfer | internal/raft/node.go:319-339 | Every member's log agrees with a compacted node's through its base, from then on |
| Safety.AckMeansStored | internal/raft/rpc.go:79-88 | A counted acknowledgement was durably stored in that very term |
| Safety.MatchMeansStored | internal/raft/rpc.go:207-211 | match[p] >= i means p stored the leader's log through i in the leader's term |
| Journals.ReplayIsSound | internal/raft/store.go:84-147 | Any journal that opens has records of this node only, and its log is numbered from the base, with valid commands and terms that never decrease |
| Journals.ForeignJournalIsRefused | internal/raft/store.go:113-115 | Another node's journal does not open |
| Holding.StepKeepsAllHold | internal/raft/rpc.go:52-87 | While a node stays in a term it keeps what it acknowledged in it |
| Holding.MatchIsHeld | internal/raft/rpc.go:207-211 | A follower still in the leader's term holds now all that the leader counts for it |
| Submissions.StepKeepsRecorded | internal/raft/runtime.go:69-101 | Every step keeps: a command that a leader appended in its term was submitted there, and what lies below an operation in its term's log was submitted before it |
| Submissions.RunIsRecorded | internal/raft/runtime.go:69-101 | So in every reachable state |
| Linearizability.RunsAreLinearizable | internal/raft/node.go:356-378 | In every reachable state one leader's log, of which every node has committed a prefix, orders all operations that took effect, reads included: its commands are clients', answers are the sequential machine's, places are distinct, and what was submitted after an answer comes after the answered operation, answered itself or not (section 8) |
| Linearizability.WaitersOwnTheirEntries | internal/raft/runtime.go:94-100 | A waiter at an index exists only while its node leads the term it was submitted in and the entry there is its own |
| Acknowledged.AcknowledgedOnce | internal/statemachine/machine.go:113-163 | A command acknowledged to a client was executed exactly once among all that the order has up to its place, and the client heard that execution's outcome |
| Linearizability.AnswersAreLinearized | internal/raft/node.go:308-314 | The answer a client holds is the sequential machine's at the operation's place in such an order |
| Handlers.HardStateSaves | internal/raft/store.go:113-146 | The store accepts hard state that does not regress or replace a vote |
| Handlers.SuffixSaves | internal/raft/store.go:122-146 | The store accepts a suffix above commit that continues the log properly |
| Handlers.CheckpointSaves | internal/raft/store.go:85-111 | The store accepts a checkpoint of a reachable node |
| Simulation.StepDownIsSteps | internal/raft/node.go:236-251 | stepDownLocked is a chain of steps |
| Simulation.ApplyLockedIsSteps | internal/raft/node.go:299-339 | applyLocked is a chain of steps and applies everything committed |
| Simulation.AdvanceCommitIsSteps | internal/raft/node.go:274-297 | advanceCommitLocked is a chain of steps |
| Simulation.BecomeLeaderIsSteps | internal/raft/node.go:253-272 | becomeLeaderLocked is a chain of steps |
| Simulation.TimeoutIsSteps | internal/raft/node.go:422-459 | An election is a chain of steps and its requests are sent |
| Simulation.HandleVoteIsSteps | internal/raft/rpc.go:91-122 | RequestVote is a chain of steps, its reply is sent, and it fails only when paused or asked by a stranger |
| Simulation.HandleVoteResponseIsSteps | internal/raft/runtime.go:167-185 | voteResponseLocked is a chain of steps |
| Simulation.GuardsHold | internal/raft/rpc.go:54-78 | On a genuine request no entry is malformed, none of equal term differs, nothing committed is overwritten |
| Simulation.HandleAppendIsSteps | internal/raft/rpc.go:15-89 | AppendEntries is a chain of steps, its reply is sent, and its defensive errors never occur |
| Simulation.HandleAppendResponseIsSteps | internal/raft/rpc.go:191-221 | acceptAppendLocked is a chain of steps |
| Simulation.PrepareIsStep | internal/raft/rpc.go:158-189 | What prepareAppendLocked sends is a window of the leader's log |
| Simulation.SubmitIsSteps | internal/raft/runtime.go:69-101 | submitLocked accepts exactly under its four conditions, and an accepted proposal is on record as invoked |
| Simulation.PausedIsStep | internal/raft/runtime.go:147-153 | SetPaused is a step |
| Simulation.CancelledIsStep | internal/raft/runtime.go:54-60 | Ticket.Cancel is a step |
| Simulation.RestartIsSteps | internal/raft/node.go:142-157 | Recovery rebuilds the fold of the whole committed history from checkpoint and committed suffix |
| Simulation.NoGuardTrips | internal/raft/rpc.go:54-78 | After any run, any further call on a healthy disk keeps the node healthy, trips no defensive check and leaves applied equal to commit |
| Committing.CommitsAllItCan | internal/raft/node.go:274-297 | A leader commits the greatest index of its own term that a majority is known to hold, if there is one, and leaves none behind |
| Committing.CompactsWhenDue | internal/raft/node.go:319-339 | A leader compacts exactly when compacting is enabled, enough is committed above the base, and every other member is known to hold it |
| Promises.CallKeepsPromises | internal/raft/node.go:274-339 | Every genuine call leaves no leader with an index it could commit or a compaction that is due, and no node naming a leader that has not led its term |
| Promises.BetweenCalls | internal/raft/node.go:193-195 | So between any two calls of any run; a client turned away is pointed to the leader of the node's term, if to anyone |
| Replies.AppendAnswers | internal/raft/rpc.go:15-89 | Every field of a refusal, a rejection and a success; an answer carries the node's term, which is at least the request's; who accepts follows the sender |
| Replies.ScanReports | internal/raft/rpc.go:54-69 | The entry at which the scan stops, and why, in terms of the entries before it |
| Replies.GuardsRefuse | internal/raft/rpc.go:54-78 | A request with a wrong entry, or one that would overwrite what is committed, is answered with its error and changes nothing |
| Replies.SuccessTakes | internal/raft/rpc.go:70-88 | A success leaves the log alone if it has all entries, else cuts it where it first differs; the commit index rises to the leader's, at most to the last entry sent |
| Replies.LaterAnswerDeposes | internal/raft/rpc.go:200-203 | An answer of a later term makes whoever asked a follower in that term, without a vote |
| Replies.OldLeaderStepsDown | internal/raft/rpc.go:28-30 | A leader of an earlier term that goes on sending hears of the later term and steps down |
| Replies.VoteAnswers | internal/raft/rpc.go:91-122 | A vote is granted exactly to a candidate of this term or a later one whose log is as good, if the node has no vote in that term or gave it to this candidate; the answer carries the node's term |
| Replies.VoteCounts | internal/raft/runtime.go:167-185 | A later term deposes, a vote of the candidate's term counts, a majority makes it leader with its opening entry, anything else is ignored |
| Replies.OldCandidateStepsDown | internal/raft/runtime.go:172-175 | A candidate that asks a node of a later term hears of it and steps down |
| Tickets.EveryWaiterHears | internal/raft/node.go:214-251 | Stepping down names the new leader to every waiter, a failure or a pause tells all that the node is unavailable; nobody else hears anything |
| Tickets.SubmitSays | internal/raft/runtime.go:69-90 | Each error exactly under its own condition, with the leader the node knows |
| Tickets.SubmitAttends | internal/raft/runtime.go:91-101 | An accepted proposal has a waiter at its index before anything is committed, and nobody who waits is forgotten |
| Tickets.CancelRemovesOwn | internal/raft/runtime.go:54-60 | Cancelling removes the ticket's own waiter and no other |
| Waiting.AcceptedIsKept | internal/raft/runtime.go:94-101 | Whatever calls follow, short of a restart of its node, an accepted ticket waits at its index, has an answer or was cancelled |
| Waiting.ToldOnce | internal/raft/node.go:308-314 | An answer given is never followed by another, and nobody who has one still waits |
| CatchUp.BeyondFrontier | internal/raft/rpc.go:35-50 | A request beyond the last entry the logs share is rejected and strictly lowers next, and to where (a request rejected at index 0, below the follower's base, leaves next alone) |
| CatchUp.AgreementIsFound | internal/raft/rpc.go:35-50 | From every position, the search for agreement succeeds if and only if the position is not doomed |
| CatchUp.RecoverableIsAccepted | internal/raft/rpc.go:215-220 | From a recoverable position above both bases it takes at most next requests |
| CatchUp.HowItFails | internal/raft/rpc.go:158-183 | A doomed search makes the leader read below its base exactly if it starts there or the disputed term does, and else asks forever |
| CatchUp.UncompactedIsNeverDoomed | internal/raft/rpc.go:35-50 | With both bases 0 no position is doomed |
| CatchUp.CompactedLeaderOutOfRange | internal/raft/rpc.go:159-164 | Concrete logs on which a compacted leader reads below its base |
| CatchUp.CompactedFollowerNeverFound | internal/raft/rpc.go:38-47 | Concrete logs on which a compacted follower rejects forever |
| Calls.CallsAreRun | internal/raft/runtime.go:69-185 | What any sequence of genuine calls leads to, a run of the group leads to |
| LeftBehind.FollowerIsLeftBehind | internal/raft/rpc.go:38-47 | For any three members, a run of genuine calls ends with those logs, and no dialogue ever brings the follower up to date |
| LeftBehind.LeaderReadsBelowBase | internal/raft/rpc.go:159-164 | For any five members, a run of genuine calls ends with a leader whose next exchange leaves it reading below its base |
| Effects.BatchFits | internal/raft/rpc.go:162-174 | A batch holds at most 32 entries and 15 MiB, counting 1 KiB for the message and each entry and six bytes for each byte of text, and ends only where the log ends or one more entry would pass a limit |
| Effects.BacklogYieldsBatch | internal/raft/rpc.go:158-184 | A backlog above the base always yields a non-empty batch within the limits, as large as they allow |
| Effects.LeaderCounts | internal/raft/rpc.go:207-213 | A success raises match to the last entry sent, sets next behind it, and leaves the base at or below it or unchanged |
| Effects.FollowerRejects | internal/raft/rpc.go:35-50 | A rejection names the follower's conflict index and changes no log |
| Dialogue.ExchangeIsSteps | internal/raft/rpc.go:142-156 | One request and its answer are a chain of steps |
| Dialogue.SendsRest | internal/raft/rpc.go:207-213 | After the first success every exchange succeeds, and the follower ends with the leader's whole log |
| Dialogue.NeverCatchesUp | internal/raft/rpc.go:215-220 | From a doomed position no dialogue brings up to date a follower that is not so already |
| Dialogue.CatchUpExactly | internal/raft/rpc.go:142-221 | In every reachable state some lossless dialogue brings the follower up to date if and only if it is so already or the position is not doomed; uncompacted, always |
| RaftServer.Server.Persist | internal/raft/node.go:221-234 | Saves as the model does, or the node has crashed in the state it was in; the disk holds the state before or after |
| RaftServer.Server.FailPending | internal/raft/node.go:214-219 | Every waiter, and no one else, is told, and nobody waits any longer |
| RaftServer.Server.StepDown | internal/raft/node.go:236-251 | The model's state, or the node crashed before it; the disk holds the state before or after the new term |
| RaftServer.Server.ApplyCommitted | internal/raft/node.go:300-315 | Applies to the commit index and answers the waiters it passes |
| RaftServer.Server.MaybeSnapshot | internal/raft/node.go:319-339 | Compacts exactly when enabled, due, leading and matched by all, or crashes before; the disk holds the state before or after |
| RaftServer.Server.CountHolders | internal/raft/node.go:282-288 | The count is a majority exactly if more than half the members hold the index |
| RaftServer.Server.FindCommit | internal/raft/node.go:278-296 | The greatest uncommitted index of the leader's term that more than half the members are known to hold, and none exactly if there is none |
| RaftServer.Server.AdvanceCommit | internal/raft/node.go:274-297 | The model's state, in which no index of the leader's term above the commit index is known to be held by a majority; or a crash before the commit index is saved, or one in the checkpoint, everything applied and answered; the disk holds the state before or after the write that failed |
| RaftServer.Server.BecomeLeader | internal/raft/node.go:253-272 | The model's state; or a crash at the opening entry, or at what committing it writes, with the answers given by then; the disk holds the state before or after the write that failed |
| RaftServer.Server.ResetProgress | internal/raft/node.go:260-263 | Every peer's next is behind the log and its match is 0 |
| RaftServer.Server.Tick | internal/raft/runtime.go:102-113 | An expired timer starts an election unless leading, paused or failed; the disk goes only through the states the election's writes make, and a crash is at one of these writes |
| RaftServer.Server.RequestVote | internal/raft/rpc.go:91-122 | The model's state and reply, or a crash at the new term or at the vote and an error; a vote is announced only once on disk |
| RaftServer.Server.AcceptVote | internal/raft/runtime.go:167-185 | The model's state, or a crash at one of the writes that stepping down or taking the lead makes |
| RaftServer.Server.AppendEntries | internal/raft/rpc.go:15-89 | The model's state and reply, or a crash at the new term, or at the entries and the commit index, and an error |
| RaftServer.Server.FindConflict | internal/raft/rpc.go:43-51 | The first entry of the conflicting term not below the base |
| RaftServer.Server.Scan | internal/raft/rpc.go:52-69 | Where the request first differs from the log, if anywhere, or what is wrong with it |
| RaftServer.Server.PrepareAppend | internal/raft/rpc.go:158-189 | The model's request; none where the source indexes out of range |
| RaftServer.Server.Batch | internal/raft/rpc.go:161-174 | Where the batch ends by count and size |
| RaftServer.Server.AcceptAppend | internal/raft/rpc.go:191-221 | The model's state, and whether to go on sending; or a crash at one of the writes that stepping down, committing or compacting makes, with exactly the answers given by then |
| RaftServer.Server.Submit | internal/raft/runtime.go:69-101 | The model's state, index and error; or a crash at the proposal, at the commit index, or at the checkpoint after everything is applied and answered |
| RaftServer.Server.SetPaused | internal/raft/runtime.go:147-153 | Pausing tells every waiter that the node is unavailable, resuming tells nobody |
| RaftServer.Server.Cancel | internal/raft/runtime.go:54-60 | Only the ticket's own waiter is removed |
| RaftServer.Open | internal/raft/node.go:142-157 | Over a journal that holds a node's hard state, opening succeeds, writes nothing and gives the model's restarted node |
| CrashRecovery.MomentIsReached | internal/raft/rpc.go:15-122 | At every moment of a call, what is on disk is the node's hard state after some chain of steps that has every answer given by then on record |
| CrashRecovery.CrashIsReopening | internal/simulation/simulation.go:115-125 | Wherever a call is cut short, the node that comes back is the one some continuation of the run has: with what is on disk, everything committed applied, the rest of the group as it was, and every answer the lost node gave on record |
| CrashRecovery.CutShortIsLinearized | internal/raft/node.go:308-314 | An answer given by a call that was then cut short is the sequential machine's in the order of that continuation |
| CrashRecovery.Recover | internal/raft/node.go:125-157 | Over whatever journal a call cut short leaves, opening succeeds and gives that node, the lost node's answers on record |
| Wal.ScanIsExact | internal/storage/wal.go:70-108 | A scan yields records and a cut if and only if the file is their frames up to the cut and then a torn tail |
| Wal.DamageIsReal | internal/storage/wal.go:82-97 | Damage is reported only at a record with an illegal length or a wrong checksum, behind whole records |
| Wal.PrefixIsTorn | internal/storage/wal.go:77-97 | Every strict prefix of a frame is a torn tail |
| Wal.RescanIsIdempotent | internal/storage/wal.go:121-126 | After the cut a second scan finds the same and cuts nothing |
| Wal.AcknowledgedSurvive | internal/storage/wal.go:130-152 | Recovery finds every acknowledged record and at most the one whose append failed last, if all of it landed |
| Wal.Journal.ReadRecord | internal/storage/wal.go:72-103 | One record, the end, a torn tail or damage, as the scan says |
| Wal.Journal.Recover | internal/storage/wal.go:70-108 | Succeeds exactly when the scan is sound and every record is accepted, then cuts the torn tail only |
| Wal.Journal.Append | internal/storage/wal.go:130-152 | Success appends one frame; a failure leaves a prefix of it and poisons the journal |
| Database.ExecutedReplays | internal/database/database.go:31-38 | A journal of executed commands replays without error to their fold |
| Database.ReopeningFindsAcknowledged | internal/database/database.go:29-64 | After a failed append the file holds the records of the acknowledged commands, plus the failed one exactly if it landed whole, and replays to their fold |
| Database.Database.Execute | internal/database/database.go:46-64 | Duplicates and rejected commands touch nothing; a new command is applied only once durable; a failure closes the database |
| Database.Database.Get | internal/database/database.go:66-74 | The fold's value, or unavailable |
| Database.Open | internal/database/database.go:29-44 | Opens exactly the files that scan and replay, with the machine they replay to |
| Database.Reopen | internal/database/database.go:29-64 | Reopening the file of any database, failed or not, succeeds and gives a database over exactly the commands that survive |
| Checker.CompletionIsLegal | internal/raft/history_test.go:66-86 | The search's completions are exactly the permutations that respect real time and reproduce every result |
| Checker.Search.constructor | internal/raft/history_test.go:52-59 | The predecessor masks hold exactly the calls that ended before each call started |
| Checker.Search.Run | internal/raft/history_test.go:66-86 | The memoised search terminates and decides whether the rest can be executed |
| Checker.Linearizable | internal/raft/history_test.go:48-88 | True exactly when some legal order exists |
| Checker.RegisterIsProjection | internal/raft/history_test.go:28-47 | On accepted commands the register is the machine seen through one key |
| Checker.AnswerIsStep | internal/raft/history_test.go:28-47 | What a client hears for a command or a barrier read is the register's result, and the register steps with the machine |

## Left out

- Fixed-leader mode, timeouts, timers, randomness, goroutines, wake-ups, URL checks, shutdown and the inspection views: an election timeout may fire at any step.
- The manual runner's outbox and its one request in flight per peer (`internal/raft/runtime.go:114-146`): the network may deliver any sent message to its handler at any time, which covers it.
- Message identifiers, events and logging.
- JSON, CRC32 and SHA-256: the checksum is any function, the database's codec any faithful one, and a node's identity hash is its name. Nothing is claimed about collisions or about checkpoint records above the record limit.
- utf8.ValidString is spelled out byte by byte from the UTF-8 definition; the Go library is not part of this model.
- 64-bit overflow of terms, indexes, request identifiers and counts.
- File locks, fsync, rename and directory handling: a write lands fully, partly or not at all; a replacement shows the old or the new file.
- Liveness beyond catching up: nothing is proved about elections ending.
- DiskStore.Disk: the journal under it holds whole records; that the bytes of Wal.dfy decode to those records is not modelled for the Raft journal.
- Wal.Journal.Replace: the switch to the new file is one assignment, and the file handle after a failed switch is not modelled.
