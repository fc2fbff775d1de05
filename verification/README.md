# Verification of the collaborative editor's replication stack

A Dafny model of what keeps the replicas of the collaborative editor in agreement: the
Raft peers, the replicated state machine on top of them, the editing sessions it
executes, the RPC multiplexer and its framing, and the partition routine of the test
network. `dafny verify dfyconfig.toml` checks everything.

## How it is built

**Raft, in three layers.** `Raft.dfy` holds the peer as a class: one method per critical
section, changing `currentTerm`, `log`, `nextIndex` and the rest in place, loops
included. Each method is proved equal to a function of the old peer in `Peer.dfy`.
`Cluster.dfy` makes a cluster of those functions, each peer under the layer that submits
to it and reads from it: an event is one critical section of one peer or of the layer
above it, or one message over its apply channel. Requests and replies wait in the network
and may be delayed, reordered, lost or handled again; peers may restart from disk at any
time, and handle no requests before their replica has started, as they are registered for
requests after `MakeRSM` has returned. A peer that indexes outside its log panics, so its
process is gone and only the restart is left for it; nothing else is excluded
(`Theorems.AlwaysFormed`). `Protocol.dfy` and `Steps.dfy` are the protocol without
messages, over whole logs and history (the log every term's leader built, every vote,
every acknowledgement, every commit); its steps keep one invariant, from which Log Matching
and Leader Completeness follow by pure reasoning. `Refinement.dfy`, `RequestRefinement.dfy`
and `ReplyRefinement.dfy` show that every event of the cluster is a few protocol steps;
`Folds.dfy` and `Replicas.dfy` add the state machines, snapshots and apply streams;
`Theorems.dfy` states what holds in every run. `Handlers.dfy` says of every handler and every
local action what it answers and what it leaves, entry by entry and counting servers, without
the functions of `Peer.dfy` that compute it. `Repair.dfy` proves that the exchange
between a leader and a follower ends.

**The calls of Submit, from the user to the log and back.** `Waiters.dfy` has the table of
calls and who waits for what, as a value; `Rsm.dfy` the object whose methods change it in
place, over a `Raft` and a `CollabServer` object, with the reader's loop; `Cluster.dfy` runs
the same functions beside every peer. `Calls.dfy` follows the calls through a run and
`Submissions.dfy` says what an Ok means, end to end. `Tours.dfy` has the means to write
down concrete runs; `Witness.dfy`, `Reincarnation.dfy` and `Journeys.dfy` are such runs.

**Two assumptions, both necessary.** The implementation does not enforce everything the
Raft paper asks for, so the theorems name what they need of the network:

- *Fresh replies* (`Clusters.FreshReply`). The step-down tests compare a reply's term
  with the term captured when the request was sent, not with the current one. A late
  reply can clear a vote the peer has since cast in the reply's term, or set its term
  back. Every theorem about the cluster is about runs in which a reply with a later term
  than the one captured arrives before the peer has reached that term, or voted in it. `Witnesses.TwoLeaders`
  is a concrete run, in order throughout, in which one late reply gives term 2 two leaders.
- *Order* (`Clusters.InOrder`). The AppendEntries handler cuts the log after the entries
  it is given, so an old, shorter message can remove entries the follower has
  acknowledged. Election Safety, Log Matching and what is on disk need no order. Everything
  about commits, and about what replicas execute, is about runs in which a follower does
  not accept less of a leader's log than it has already acknowledged to that leader.
  Handling a leader's messages in the order they were built is enough
  (`Theorems.BuiltLaterReachesFurther`). `Witnesses.CommittedEntryLost` is a concrete run with fresh replies throughout in which one old
  message makes two servers apply different commands at index 1, whatever was asked of them.

**What Ok means.** A call that returns Ok, and whose id was not submitted before, was
committed at the index `Start` returned and executed there on the fold of all before
(`Submissions.OkIsTruthful`). In particular that is every call of a server that has not
restarted (`Submissions.OkInFirstIncarnation`). The condition is needed: a restarted server
counts its calls from 1 again, and its Ok may be about the operation of the same id that it
submitted before (`Reincarnations.OkForAnother`, a run that keeps both assumptions, for any
two requests). Whatever the id, an Ok is about the call's own entry exactly if the entry committed at that
index is of the term `Start` returned (`Submissions.OkIsOwnEntry`).

**The other components.** `Session.dfy` and `CollabServer.dfy` hold the sessions (as a value and
as an object), `Demux.dfy` the multiplexer as a client object and as a system of callers,
reader, server and `Close` in any interleaving, `Framing.dfy` the length-prefixed byte
stream, `Partition.dfy` the link matrix.

**Where the code and its documentation differ.** `MakePartition` is described as splitting
the servers in two groups; for an even number of servers its two lists together have one
place more than there are servers, and it names server 0 (`Partitions.SplitIsExact` says
exactly when the lists are disjoint; the links after `Partition` are a clean cut all the
same). Submission ids are described as unique; they are within one incarnation, below 2^32
calls (`Submissions.IdsRepeatAfterRestart`, `Waiters.OpIdOverflows`).

## Model

| member | source | states |
|---|---|---|
| Theorems.ElectionSafety | src/raft/raft.go:702-783 | In every run with fresh replies, with crashes, losses, reordering, logs cut below the commit index and the term handling of InstallSnapshot as it is, at most one server ever leads a term (section 5.2 of the Raft paper) |
| Theorems.LogMatchingAcrossCompaction | src/raft/raft.go:436-455 | In the same runs, windows of any two servers at any two times that have the same term at an index agree at every index up to it that both retain, compacted heads included (section 5.3) |
| Theorems.WindowOfWholeLog | src/raft/raft.go:692-700 | In the same runs every peer's window is the rest, after its snapshot, of one whole log that starts with the sentinel; the head carries lastIncludedTerm, terms never fall and none is later than the peer's (section 7) |
| Theorems.AlwaysFormed | src/raft/raft.go:758-767 | In the same runs every peer has a log and every leader an entry for each peer in its two arrays, so an event is excluded only if it would panic |
| Theorems.LeadersAreComplete | src/raft/raft.go:588-609 | Whatever a server knows to be committed with its term on disk, every leader of a later term has in its log (section 5.4) |
| Theorems.StateMachineSafety | src/raft/raft.go:786-826 | No two command messages for one index, on any apply channels at any times, carry different commands (section 5.4.3) |
| Theorems.ReplicasAreFolds | src/rsm/rsm.go:82-164 | One log explains the whole run: every committed entry of every server is in it, every snapshot is its fold up to the snapshot's index, every delivered command is in it, and every replica that has started is its fold up to the last handled index, through snapshots and restarts |
| Theorems.StreamsAreGapless | src/raft/raft.go:790-826 | What a replica is fed in one incarnation has strictly consecutive command indices, snapshot messages only move forward, also those made before a newer snapshot was installed, and the stream ends at the last handled index |
| Theorems.AlwaysSafe | src/raft/raft.go:504-512 | In every state of a run in order lastIncludedIndex <= commitIndex <= last log index, lastApplied <= commitIndex, every nextIndex of a leader is at most one past its log, and no event of any peer panics |
| Theorems.CommitNeverBack | src/raft/raft.go:456-463 | A peer's commit index never goes back except when it restarts |
| Theorems.TermNeverBack | src/raft/raft.go:535-545 | In every run a peer's term never goes back, and a vote it has cast in its term stays, except when it restarts |
| Theorems.DiskCoversPromises | src/raft/raft.go:110-131 | In every run vote, log and snapshot on disk are those in memory whenever the lock is free; the term on disk may lag only at a follower, and no vote or entry, nor in a run in order any acknowledgement, exists in the terms it lacks |
| Theorems.BuiltLaterReachesFurther | src/raft/raft.go:507-520 | A message a leader builds later in its term reaches at least as far as any AppendEntries of that term already sent, so the order of building is the order the assumption asks for |
| Theorems.RunSimulated | src/raft/raft.go:398-465 | Every run of the cluster is a run of the protocol whose history only grows; if it is in order, every replica is accounted for in every state |
| Theorems.CommittedLog | src/raft/raft.go:604-607 | Of all logs committed by any leader, one has all the others as initial parts |
| Handlers.MajorityCommits | src/raft/raft.go:588-609 | Once followers that with the leader are more than half of the servers have acknowledged an entry of the leader's term, in whatever order and with whichever messages, the leader has committed it |
| Handlers.CommitsExactly | src/raft/raft.go:582-609 | After an accepting reply matchIndex and nextIndex record what the message carried, and the commit index is the highest index above the old one whose entry is of the leader's term and which more than half of the servers have, as a set counted with the leader; as before if there is none |
| Peers.MatchedCounts | src/raft/raft.go:593-603 | The count of the commit rule is the number of servers that have the index, none missed and none twice |
| Handlers.LaterTermDeposes | src/raft/raft.go:539-545 | Whatever a peer asks one of a later term, taking the reply makes it a follower of that term with its vote free, and saves that |
| Handlers.VoteGrantedExactly | src/raft/raft.go:307-327 | A vote is granted if and only if it is free in the candidate's term and the candidate's last entry is at least as up to date as that of the voter's whole log, compacted or not |
| Submissions.CommandsExecuteOnce | src/rsm/rsm.go:105-110 | Every entry of the log all replicas fold comes from a Submit event of its own: nothing is made up and nothing is executed twice |
| Submissions.OkIsTruthful | src/rsm/rsm.go:100-130 | If a call whose id no earlier event submitted returns Ok, its operation was committed at the index Start returned, the effect there is DoOp on the fold of everything before, and every replica follows that log |
| Submissions.OkInFirstIncarnation | src/rsm/rsm.go:105-110 | The same for every call of a server that has not restarted |
| Submissions.OkIsOwnEntry | src/rsm/rsm.go:166-181 | In any incarnation, an Ok is about a committed operation with the call's id at its index; it is the entry the call appended if and only if its term is the one Start returned |
| Reincarnations.OkForAnother | src/rsm/rsm.go:105-107 | A concrete run of five servers, fresh and in order, for any two requests: a call of a restarted server returns Ok at index 1 where the operation its server submitted before the restart, under the same id, is committed and executed instead |
| Submissions.IdsRepeatAfterRestart | src/rsm/rsm.go:105-107 | With fewer than 2^32 calls an incarnation, two Start calls for operations of one id are by one server, for the call of the same number, with a restart of it in between |
| Submissions.DeliveredWasSubmitted | src/rsm/rsm.go:154-160 | Whatever operation a reader takes was submitted in an earlier event of the run, and never at the sentinel's index |
| Submissions.SessionsConverge | src/ide/server.go:70-121 | In every run in order, what a started replica holds of a session is what the committed commands of that session alone lead to, up to the index it has handled: the last update, the last creator, the proposals added last, and the last role assigned or a viewer's for those who only joined |
| Calls.TableStep | src/rsm/rsm.go:100-204 | Every event of a run keeps every server's table in order: a call was told Ok only if the reader of its server took an operation of its id at its index, and calls keep request, id and place until a restart |
| Calls.ToldExactly | src/rsm/rsm.go:138-202 | In every run an answer goes to the call registered at the operation's index and to no other, Ok if the operation is its own; a restored snapshot fails every registered call; the leader check exactly the registered calls of an earlier term, so none of the peer's own term |
| Waiters.CheckedCall | src/rsm/rsm.go:196-202 | The leader check sends one error to a call if and only if it is registered and was accepted in an earlier term than the check's |
| Waiters.OrIsBitwise | src/rsm/rsm.go:107 | Ids are made with the bitwise or: a bit is set exactly if it is in one of the two numbers |
| Calls.StartPlaces | src/rsm/rsm.go:110 | Start's index is the one at which the leader's log of Start's term holds the call's operation |
| Calls.CallsKeptBetween | src/rsm/rsm.go:115-129 | Between two moments without a restart of its server, a call keeps its request, id, index and term |
| Waiters.OpIdsCoincide | src/rsm/rsm.go:107 | Exactly when two ids are equal; below 2^32 only for the same server and call number |
| Waiters.OpIdOverflows | src/rsm/rsm.go:107 | From call 2^32 on, ids of one server run into those of another: a concrete pair |
| Waiters.AnswerOk | src/rsm/rsm.go:166-181 | Answering whoever waits at an index keeps the table in order, and tells Ok only where an operation of that id was executed |
| Waiters.FailOk | src/rsm/rsm.go:196-202 | Sending errors to any of those who wait keeps the table in order |
| Rsms.Rsm.constructor | src/rsm/rsm.go:71-81 | Nobody waits, and no id has been given out |
| Rsms.Rsm.NewCall | src/rsm/rsm.go:105-108 | The call's id is not that of any other call of this incarnation, while there are fewer than 2^32 |
| Rsms.Rsm.StartCall | src/rsm/rsm.go:109-114 | The peer is as after Start of the call's operation, and the call has the index and term it returned, or ErrWrongLeader |
| Rsms.Rsm.RegisterCall | src/rsm/rsm.go:115-121 | The call waits at its index under its id and term, in the place of any call there before; the three maps keep equal key sets |
| Rsms.Rsm.HearResult | src/rsm/rsm.go:122 | The call has the first result sent to it; Ok implies that the reader of this replica executed an operation with the call's id at the index Start gave |
| Rsms.Rsm.SendTo | src/rsm/rsm.go:117 | The result is on the call's channel, or the channel of one place was full and the sender is stuck |
| Rsms.Rsm.AnswerWaiter | src/rsm/rsm.go:166-181 | Whoever waits at the index is told Ok exactly if the executed id is theirs, an error otherwise; nobody else is told anything; stuck exactly if their channel is full |
| Rsms.Rsm.WakeOne | src/rsm/rsm.go:140-144 | The call waiting at the index gets one error and is forgotten, or its channel was full and nothing changes |
| Rsms.Rsm.WakeEveryone | src/rsm/rsm.go:138-146 | Everybody waiting gets one more error and the three maps are empty; if somebody's channel was full, exactly those told before got one error and are forgotten, and the reader is stuck |
| Rsms.Rsm.CheckTerm | src/rsm/rsm.go:196-202 | A call gets one more error exactly if it is registered at its index under an earlier term; if one of their channels was full, exactly those told before got one, and the check is stuck |
| Rsms.Rsm.SendErrors | src/rsm/rsm.go:185-187 | Each call waiting at one of the indices gets exactly one error, in whatever order the map is walked; at a full channel it is stuck, and only those told before got one |
| Rsms.Rsm.FinishCall | src/rsm/rsm.go:123-129 | The call returns what it heard, and nothing is registered at its index any more |
| Rsms.Rsm.ReadOperation | src/rsm/rsm.go:159-181 | The sessions are those of DoOp, the peer is compacted up to the index with the snapshot of exactly those sessions or is as before, and whoever waits is answered |
| Rsms.Rsm.ReadSnapshot | src/rsm/rsm.go:136-146 | The sessions are those of the snapshot and everybody waiting gives up, or those told before a full channel do |
| Rsms.Rsm.Read | src/rsm/rsm.go:134-182 | One message, of any kind: what it does to the sessions, to the peer's waiters and to the history of executed operations; stuck exactly if a channel it must send to is full |
| Rsms.Rsm.ReadMessages | src/rsm/rsm.go:134-182 | After the messages read, sessions, waiters and the history of executed operations are what those messages in turn lead to; it is stuck only in a message that must send to a full channel |
| Rsms.Rsm.Reader | src/rsm/rsm.go:133-189 | The loop, and after the apply channel is closed one error to everybody still waiting, who stay registered; where it is stuck otherwise, and who was told by then |
| Repair.RepairTerminates | src/raft/raft.go:551-586 | Repeating send, answer and adjust succeeds after at most Rank + 1 rounds, and then the follower's window is the leader's log above the follower's snapshot |
| Repair.Round | src/raft/raft.go:494-521 | Every round, append or install, succeeds or leaves a repairable pair of smaller rank |
| Repair.AppendRound | src/raft/raft.go:418-465 | An append round either succeeds, with the follower's log equal to the leader's and matchIndex at its end, or makes the rank smaller |
| Repair.InstallRound | src/raft/raft.go:229-267 | An install round leaves a repairable pair with a smaller rank |
| Repair.HintBelow | src/raft/raft.go:561-579 | A rejection moves nextIndex strictly down, or to just above the follower's snapshot if that is further, and the follower's snapshot boundary itself is never rejected |
| Repair.LastOfTermBelow | src/raft/raft.go:566-577 | Where leader and follower have different terms, the leader's last entry of the follower's term is strictly earlier |
| Repair.LeaderCanRepair | src/raft/raft.go:494-521 | In every state of a run in order, every leader and every peer that reached no later term are a repairable pair |
| Witnesses.TwoLeaders | src/raft/raft.go:743-748 | A concrete run of three servers, in order, in which all replies but one are fresh and term 2 has two leaders |
| Witnesses.CommittedEntryLost | src/raft/raft.go:454 | A concrete run of three servers with fresh replies, all AppendEntries but one in order, in which two servers apply different commands at index 1, for any two requests submitted to them |
| Journeys.SnapshotTravels | src/raft/raft.go:229-267 | A concrete run, for any request: the leader's replica executes it, the log is compacted, the snapshot is sent and installed, and the follower's replica holds the leader's sessions without having executed anything |
| Journeys.CallGivesUp | src/rsm/rsm.go:192-204 | A concrete run, for any two requests: a call waits at a leader that is replaced, the leader check fails it, and the next call meets no leader |
| Witnesses.FreshRepliesKeepPromises | src/raft/raft.go:539-545 | Handling a reply keeps the peer's term and vote if and only if the reply is fresh |
| Protocol.LeaderCompleteness | src/raft/raft.go:757-768 | What the leader of a term committed, every leader of a later term was elected with; from the vote test, quorum intersection and acknowledgements alone (section 5.4.3) |
| Protocol.LogMatching | src/raft/raft.go:436-455 | Logs with the same term at one index agree up to that index |
| Protocol.CommitsAgree | src/raft/raft.go:588-609 | Two committed logs agree up to the earlier commit |
| Quorums.QuorumsMeet | src/raft/raft.go:487 | Two sets of more than half of the servers have a server in common |
| Steps.InitHolds | src/raft/raft.go:852-875 | The first state of a cluster satisfies the invariant |
| Steps.CastKeeps | src/raft/raft.go:297-327 | Casting a vote keeps the invariant |
| Steps.WinKeeps | src/raft/raft.go:757-768 | Winning with a quorum keeps the invariant |
| Steps.FirstOfTerm | src/raft/raft.go:757-758 | A candidate with a quorum is the first to lead its term |
| Steps.ExtendKeeps | src/raft/raft.go:669-676 | A leader appending a command keeps the invariant |
| Steps.ReplicateKeeps | src/raft/raft.go:453-464 | A follower taking over an initial part of the leader's log keeps the invariant, in order or not |
| Steps.CommittedSurvives | src/raft/raft.go:454 | In order, taking over a leader's log never removes or changes what the follower knows to be committed |
| Steps.InstallKeeps | src/raft/raft.go:249-265 | Replacing a log up to a snapshot of the leader keeps the invariant |
| Steps.DroppedUncommitted | src/raft/raft.go:250-258 | Nothing committed is lost when a snapshot replaces a log that does not match it |
| Steps.CommitAtKeeps | src/raft/raft.go:588-609 | The commit rule of section 5.4.2 keeps the invariant |
| Steps.LearnKeeps | src/raft/raft.go:456-463 | A server learning of a commit keeps the invariant |
| Steps.SettleKeeps | src/raft/raft.go:240-248 | Reaching a term, saving it, stepping down, compacting and restarting keep the invariant |
| ReplyRefinement.EventRefines | src/raft/raft.go:472-645 | Every event of the cluster is a few steps of the protocol, in order if the event is, and adds to leaders' logs at most the command it submits |
| RequestRefinement.VoteRefines | src/raft/raft.go:294-330 | Handling RequestVote is a protocol step, at most one vote a term |
| RequestRefinement.AppendRefines | src/raft/raft.go:398-465 | Handling AppendEntries is a protocol step, whatever its answer |
| RequestRefinement.RejectionHint | src/raft/raft.go:420-451 | What a rejection says: the length if the log is too short, the snapshot's if that is too new, and otherwise the conflicting term with the first index the window has of it |
| RequestRefinement.AcksInOrder | src/raft/raft.go:454 | A message handled in order reaches what the follower has acknowledged in that term |
| RequestRefinement.InstallRefines | src/raft/raft.go:229-267 | Handling InstallSnapshot is a protocol step, on its stale path too |
| RequestRefinement.WindowInstalled | src/raft/raft.go:250-258 | Keeping the entries after a matching snapshot point keeps each of them at its absolute index |
| RequestRefinement.WindowReplace | src/raft/raft.go:454 | Replacing the window after the checked entry replaces the whole log after it |
| ReplyRefinement.VoteReplyRefines | src/raft/raft.go:740-770 | Counting a vote, winning and stepping down are protocol steps |
| ReplyRefinement.AppendReplyRefines | src/raft/raft.go:535-611 | Handling an AppendEntries reply is a protocol step, with nextIndex left in range |
| ReplyRefinement.MatchedSet | src/raft/raft.go:593-603 | The peers the commit rule counts are that many different peers |
| ReplyRefinement.TargetMeaning | src/raft/raft.go:588-609 | The commit rule moves to the highest index above the commit index that is of the current term and that a majority has matched, and not at all if there is none |
| ReplyRefinement.InstallReplyRefines | src/raft/raft.go:617-633 | Handling an InstallSnapshot reply is a protocol step |
| Refinement.TimeoutRefines | src/raft/raft.go:707-727 | Starting an election is a protocol step |
| Refinement.HeartbeatRefines | src/raft/raft.go:482-523 | Every message a heartbeat builds is true of the leader's log |
| Refinement.SubmitRefines | src/raft/raft.go:658-681 | Start is a protocol step that appends its command, or nothing at all |
| Refinement.SnapshotRefines | src/raft/raft.go:183-199 | Compacting up to an applied index is a protocol step |
| Refinement.WindowCut | src/raft/raft.go:191-196 | Compacting a window keeps every entry above the cut at its absolute index |
| Refinement.TakeCommittedRefines | src/raft/raft.go:790-814 | The applier taking a batch or a snapshot is a protocol step |
| Refinement.RestartRefines | src/raft/raft.go:851-875 | Restarting from disk is a protocol step |
| Replicas.EventReplicates | src/raft/raft.go:786-833 | Every event of a run in order keeps the account of every replica as the fold of its committed log up to the last handled index, and every snapshot on disk, in memory and in messages a fold |
| Folds.FoldReplays | src/rsm/rsm.go:150-160 | The fold of a log at one index is the replay, on the fold at any earlier one, of the requests in between |
| Replicas.LoadedReplica | src/rsm/rsm.go:82-88 | A replica that reads the snapshot its peer was made with starts as the fold up to the snapshot's index, where its reader begins |
| Replicas.HeldReplica | src/raft/raft.go:793-801 | The snapshot message the applier makes without the lock holds the fold up to its index, at or above what the replica has handled, whichever snapshot is installed by then |
| Replicas.FedReplica | src/rsm/rsm.go:134-160 | Executing the next message of the applier, command or snapshot, keeps the account of the replica, also if a snapshot was installed in the middle of a batch or after the message was made |
| Replicas.CompactedReplica | src/rsm/rsm.go:161-165 | The snapshot a reader takes of its own state is the fold up to the index it hands to Raft, or Raft ignores it |
| Replicas.BootedReplica | src/raft/raft.go:862-875 | A peer made from its disk has a snapshot that is a fold, and has handled exactly what is in it |
| RaftPeer.Raft.constructor | src/raft/raft.go:844-876 | The new peer is what its disk says |
| RaftPeer.Raft.Persist | src/raft/raft.go:110-131 | The disk holds term, vote, log and snapshot; the peer is unchanged |
| RaftPeer.Raft.RequestVote | src/raft/raft.go:294-330 | New peer and reply as the value-level handler |
| RaftPeer.Raft.AppendEntries | src/raft/raft.go:398-465 | New peer and reply as the value-level handler, conflict hints included |
| RaftPeer.Raft.FirstIndexOf | src/raft/raft.go:443-449 | The absolute index of the first entry of a term |
| RaftPeer.Raft.InstallSnapshot | src/raft/raft.go:229-267 | New peer and reply as the value-level handler |
| RaftPeer.Raft.Snapshot | src/raft/raft.go:183-199 | The compacted peer |
| RaftPeer.Raft.Start | src/raft/raft.go:658-681 | The extended peer, and the index and term of the command |
| RaftPeer.Raft.StartElection | src/raft/raft.go:707-727 | The campaigning peer and its request |
| RaftPeer.Raft.BuildRound | src/raft/raft.go:482-523 | For every other peer, the AppendEntries or InstallSnapshot it is due |
| RaftPeer.Raft.OnVoteReply | src/raft/raft.go:740-770 | The peer after counting a vote, winning or stepping down |
| RaftPeer.Raft.BecomeLeader | src/raft/raft.go:758-767 | Every nextIndex one past the log, every matchIndex 0 |
| RaftPeer.Raft.LastIndexOf | src/raft/raft.go:565-571 | The absolute index of the last entry of a term, -1 if there is none |
| RaftPeer.Raft.CountMatched | src/raft/raft.go:593-603 | The number of servers, the leader included, that have matched the index, as the size of that set |
| RaftPeer.Raft.AdvanceCommit | src/raft/raft.go:588-609 | The commit index is the highest of the current term a majority has matched, or as before |
| RaftPeer.Raft.OnAppendReply | src/raft/raft.go:535-611 | The peer after stepping down, backing off, or matching and committing |
| RaftPeer.Raft.OnInstallReply | src/raft/raft.go:617-633 | The peer after stepping down or matching the snapshot |
| RaftPeer.Raft.TakeCommitted | src/raft/raft.go:790-814 | What the applier takes under the lock, and the new lastApplied; beyond the end of a log that was cut below the commit index it takes what the slice's array still holds |
| Peers.FirstOf | src/raft/raft.go:443-449 | The first position of a term in a log |
| Peers.LastOf | src/raft/raft.go:565-571 | The last position of a term in a log, -1 if it has none |
| Session.SessionDecomposition | src/ide/server.go:70-121 | Replaying any command log gives each session what replaying only that session's commands gives it, and the session exists exactly if there is such a command |
| Session.ReplayDescribed | src/ide/server.go:46-121 | From nothing: a session exists exactly once a command opened it, its document is the last update or empty, its creator the last who created it, a proposal is pending exactly if it was added last, and a user has a role exactly if one was assigned, then the last one, or the user joined, then a viewer's |
| Session.ReorderingSessions | src/ide/server.go:70-121 | Logs that order each session's commands alike lead to the same state |
| Session.ExecutingAgain | src/ide/server.go:70-121 | Executing any log of commands a second time, on the state it led to, changes nothing |
| Session.ExistsOnceConcerned | src/ide/server.go:46-57 | After a log a session exists exactly if it did before or a command concerned it |
| Session.CreatorIsLast | src/ide/server.go:106-109 | The creator is the last user who created the session |
| Session.DocIsLastUpdate | src/ide/server.go:73-76 | From any state, the document is the last update, and as before without one |
| Session.PendingProposals | src/ide/server.go:78-96 | From any state, a proposal is pending exactly if the last of its add, accept and reject commands was an add, and then it is what was added; without such a command it is as before |
| Session.RoleIsLastAssigned | src/ide/server.go:98-117 | From any state, a user's role is the last one assigned; a join gives a role only to a user who has none |
| CollabServers.CollabServer.DoOp | src/ide/server.go:70-121 | The object after a command is the value-level DoOp of the one before, and no two sessions share a record |
| CollabServers.CollabServer.GetOrCreate | src/ide/server.go:46-57 | The session as it is, or a new one without document, proposals, roles and creator; no other session changes |
| CollabServers.CollabServer.GetRole | src/ide/server.go:148-159 | The user's role, viewer by default |
| CollabServers.CollabServer.GetSession | src/ide/server.go:125-137 | Whether the session exists, and the user's role in it |
| CollabServers.HandOver | src/ide/server.go:162-179 | A server restored from another's snapshot has exactly its sessions, whatever it had before, and executing a command then leaves the other as it was |
| CollabServers.CollabServer.Restore | src/ide/server.go:171-179 | Restoring a snapshot gives the sessions it was taken of; no snapshot changes nothing |
| Demuxes.ExactlyOneReply | src/tester1/demux/dmxclnt.go:59-89 | When the drain has ended, every call accepted in the run has exactly one answer if and only if no call was registered under a tag still waited under; and then it is what the server replied to that call if the reader read that, and a failure otherwise |
| Demuxes.ReadIsDelivered | src/tester1/demux/dmxclnt.go:51-74 | Once the reply to a call has been read, in a run without reuse, the one answer of the call is the server's last reply to it, unchanged, for ever |
| Demuxes.FailedOnlyInDrain | src/tester1/demux/dmxclnt.go:70-74 | A call fails only in the drain, when its tag's turn comes, and only if no reply to it was read |
| Demuxes.WireCarries | src/tester1/demux/dmxsrv.go:49-70 | What is on the wire for a call is what its caller wrote, or what the server replied to it last |
| Demuxes.ThreeCalls | src/tester1/demux/dmxclnt.go:76-89 | A concrete run, for any contents: one call gets its reply, one whose request is lost fails in the drain, and one after the connection broke is turned away |
| Demuxes.NeverAnsweredTwice | src/tester1/demux/dmxclnt.go:51-57 | At every moment of a run without reuse each call has no answer or exactly one of its own, calls turned away have none, and the branch for a reply without a request is never reached |
| Demuxes.FewCallsNoReuse | src/tester1/demux/dmxclnt.go:42-49 | A connection with at most 2^32 calls reuses no tag |
| Demuxes.StrandedStays | src/tester1/demux/callmap.go:34-43 | A call whose place in the table was overwritten is never answered |
| Demuxes.ReuseStrands | src/tester1/demux/callmap.go:34-43 | The first reuse of a tag still waited under strands the call that waits |
| Demuxes.InvStep | src/tester1/demux/dmxsrv.go:49-70 | Every step of callers, server, reader and Close keeps table, wire and answers consistent |
| Demuxes.TagsRun | src/tester1/demux/dmxclnt.go:42-49 | Tags are the call numbers modulo 2^32 |
| Demuxes.DemuxClnt.Tag | src/tester1/demux/dmxclnt.go:42-49 | The next tag, which wraps at 2^32 |
| Demuxes.DemuxClnt.Register | src/tester1/demux/callmap.go:34-43 | Refused on a closed connection, otherwise the table entry for the tag |
| Demuxes.DemuxClnt.Remove | src/tester1/demux/callmap.go:45-54 | The entry for the tag, if there is one, is returned and gone |
| Demuxes.DemuxClnt.ReplyTo | src/tester1/demux/dmxclnt.go:51-57 | The call registered under the tag gets exactly this answer after what it got before and leaves the table; nobody else gets anything |
| Demuxes.DemuxClnt.Outstanding | src/tester1/demux/callmap.go:56-65 | Every tag waited under, each once |
| Demuxes.DemuxClnt.Close | src/tester1/demux/callmap.go:19-25 | Nothing but closed changes |
| Demuxes.DemuxClnt.DrainAll | src/tester1/demux/dmxclnt.go:64-74 | Every call waiting gets exactly one more answer, a failure, nobody else gets any, and the table is empty |
| Framing.StreamRoundTrip | src/tester1/demux/transport.go:48-79 | The bytes of any sequence of messages with encodings shorter than 2^32 bytes read back as exactly those messages, then the end |
| Framing.TruncatedStream | src/tester1/demux/transport.go:48-64 | A stream cut after any number of bytes reads as the messages it holds whole, then an error; which error, for every cut |
| Framing.FrameRoundTrip | src/tester1/demux/transport.go:66-79 | One message comes back with the rest of the stream if its encoding is shorter than 2^32 bytes; otherwise the reader leaves part of it in the stream |
| Framing.HeaderRoundTrip | src/tester1/demux/transport.go:69 | The four little-endian bytes of a length give it back modulo 2^32 |
| Framing.HeaderBytes | src/tester1/demux/transport.go:69 | The header is the four bytes of the length, the lowest first |
| Framing.WholeFits | src/tester1/demux/transport.go:48-64 | How many messages the first bytes of a stream hold whole: those fit and one more does not |
| Framing.Transport.ReadFull | src/tester1/demux/transport.go:54 | The array is filled as far as the stream goes, and the stream is that much shorter |
| Framing.Transport.ReadCall | src/tester1/demux/transport.go:48-64 | The next message and the rest of the stream, or the error with nothing left |
| Framing.FailingConnection | src/tester1/demux/transport.go:48-79 | If the connection fails after any number of bytes, the reader gets exactly the messages it carried whole |
| Framing.Transport.Write | src/tester1/demux/transport.go:69-77 | The bytes go out as far as the connection carries them; an error exactly if it does not carry them all |
| Framing.Transport.WriteCall | src/tester1/demux/transport.go:66-79 | The frame of the message is appended to what was written, as far as the connection carries it; an error exactly if not all of it fits |
| Framing.Transport.ReadUntilError | src/tester1/demux/dmxsrv.go:49-59 | The reader's loop gets every message up to the first error |
| Partitions.SplitIsExact | src/tester1/group.go:294-311 | MakePartition's lists are disjoint and cover all servers, the leader on the second, exactly if the number is odd or server 0 is the one the left-over place should hold |
| Partitions.OddSplit | src/tester1/group.go:294-311 | For an odd number the leader's side has n/2 servers, the other one more, nobody twice |
| Partitions.ListedInOrder | src/tester1/group.go:294-311 | Apart from the leader, which comes last on the second list, the servers are listed in ascending order, the first list first, and a place left over holds server 0 |
| Partitions.EveryoneOnASide | src/tester1/group.go:298-309 | Every server is on a list and the leader on the second, for any number from two |
| Partitions.ServerGrp.MakePartition | src/tester1/group.go:294-311 | The arrays the loop fills, place by place |
| Partitions.ServerGrp.Connect | src/tester1/group.go:141-157 | Links between the server and the listed servers that are connected come up, in both directions; nothing else changes |
| Partitions.ServerGrp.ConnectOutgoing | src/tester1/srv.go:44-54 | Links from the server to the listed servers that are connected come up |
| Partitions.ServerGrp.Disconnect | src/tester1/group.go:161-180 | Links between the server and the listed ones go down, in both directions; nothing else changes |
| Partitions.ServerGrp.DisconnectOutgoing | src/tester1/srv.go:56-67 | Links from the server to the listed ones go down |
| Partitions.ServerGrp.Partition | src/tester1/group.go:313-323 | For any two lists and any prior links and flags: links within the second list and within the rest of the first are up, links between them down, all others unchanged |
| Partitions.ServerGrp.PartitionAway | src/tester1/group.go:293-323 | MakePartition, then Partition: for any number of servers from two, any leader and any prior state, a link is up exactly if both or neither of its ends are on the leader's side, which lists n/2 servers |
| Handlers.ReplyTerms | src/raft/raft.go:404-407 | Every reply to a vote request, AppendEntries or InstallSnapshot carries the later of the two terms, which is then the peer's own; nothing is granted or accepted for an earlier term |
| Handlers.AcceptedExactly | src/raft/raft.go:404-451 | Entries are accepted if and only if the term is not behind and the entry before them is in the window with the term the message says |
| Handlers.AcceptAftermath | src/raft/raft.go:453-464 | After accepting, the window ends where the message does, as it was up to the entry before it and as the message says after it, and the commit index follows the leader's as far as the log goes; all of it is saved |
| Handlers.InstallAftermath | src/raft/raft.go:249-265 | After a newer snapshot the window starts with it, keeps what came after it if it had the snapshot's last entry and nothing otherwise, and the commit index is no lower; all of it is saved |
| Handlers.CompactAftermath | src/raft/raft.go:183-199 | Compacting keeps every later entry at its absolute index, replaces the rest by the snapshot and saves; outside the window it does nothing |
| Handlers.BuiltExactly | src/raft/raft.go:494-520 | A follower is sent everything from its nextIndex to the end of the log, with the entry before it and the commit index, or the snapshot if that entry is compacted |
| Handlers.BacksOffExactly | src/raft/raft.go:551-580 | After a rejection nextIndex is the follower's length if it had no entry to compare, just after the leader's last entry of the conflicting term if it has one, and the follower's first index of that term otherwise |
| Handlers.VoteReplyAftermath | src/raft/raft.go:748-770 | A candidate leads exactly if the votes, with this one, are more than half of the servers; then every nextIndex is one past its log and every matchIndex 0 |
| Handlers.GrabsExactly | src/raft/raft.go:792-814 | The applier is idle only if there is nothing to apply; a newer snapshot comes first, and otherwise every committed entry after the last applied one, in order |
| Calls.FeedOwes | src/rsm/rsm.go:134-181 | What each message does to the replica, and what the reader owes after it: an answer at the index of the operation, nothing after another command, an error to everyone after a snapshot |
| Waiters.StartedCall | src/rsm/rsm.go:110-114 | A call that met a leader goes on with the index and term of Start; any other has failed; no other call changes |
| Theorems.HandlingSavesTerm | src/raft/raft.go:229-267 | Handling a request leaves the term on disk behind if and only if it is an InstallSnapshot of a later term whose snapshot is not newer |
| Theorems.DiskLagsOnlyAfterStaleInstall | src/raft/raft.go:240-248 | The term on disk falls behind in one place only, a stale InstallSnapshot of a new term |
| Witnesses.AcceptedReach | src/raft/raft.go:454 | After an accepted AppendEntries an index is still in the log if and only if the message reaches it |

## Left out

- Fresh replies and order: assumed of the network, as described above, because the code relies on them; both are shown to be necessary.
- Submissions.OkIsTruthful: for calls whose id was not submitted before, with fewer than 2^32 calls an incarnation, because ids start again with every incarnation and overflow there; OkForAnother and OpIdOverflows show both.
- Theorems.AlwaysSafe: in order only; out of order a log can be cut below the commit index, and the peer goes on until it indexes outside its log, which it may never do. What a replica executes then is not described, beyond what TakeCommitted takes.
- Time: timeouts, heartbeats and wake-ups are events that may happen at any moment, so nothing is said about how soon, or whether, a leader is elected or a command committed.
- "Every Submit returns": not promised by the code, as a submission registers after Start and the maps are keyed by index alone.
- A critical section that sends to a channel is one event, at a moment when all its sends can go on; what a section has sent before it waits for room is seen then.
- The value of a result: DoOp returns nothing for every command, so a result is its error.
- Saving to disk is atomic; the file-based persister renames its two files one after the other.
- Encoding and decoding of commands, snapshots and messages: decoding what was encoded gives it back.
- The applier reads its snapshot fields one after the other, after releasing the lock; the model reads them at any moment after that, but together. The replica uses only the bytes.
- Log slices are sequences, so the sharing of their backing arrays is not captured; where the applier's slice reaches beyond the log, what it finds there is any entries.
- A peer on an empty persister starts as from a disk that holds the sentinel entry.
- Requests and replies may be handled more than once in the model, more than the RPC layer allows; only vote replies are counted once.
- RaftPeer.Raft.BuildRound: the place of the peer itself, which the implementation leaves nil, holds a message nobody sends.
- The multiplexer's server end beyond one reply per request with the request's tag; closing of its connection.
- Killing a peer in a cluster (what the reader does when the apply channel is closed is in `Rsm.dfy`), and the restore after MakeRSM at start-up, which finds no snapshot as the server is made without a size limit.
- The simulated network's delays, sockets, HTTP and WebSocket handlers, hub, annotations, invite codes, daemons, the linearizability checker and the user interface.
