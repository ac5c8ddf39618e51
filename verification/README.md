# Efis in Dafny

Efis is a replicated key-value store: a Raft consensus engine, a human-readable RPC protocol, a log file and a
small vector index. This project models the parts where a mistake would be silent and proves what they promise.

**Raft.** `Replica` says what one node computes for one message, `Consensus` is the same node as an object
that changes in place, and `Cluster` puts any number of nodes around a network that delays, repeats, reorders and
loses messages. A run is any sequence of timeouts, submits, heartbeats, deliveries, commits, crashes and restarts.
The results are about every moment of every run:

- no two leaders in one term, restarts included, as long as a restart can read its files or had stored nothing
  (`ElectionSafety`); `RestartSoundIff` says that this is exact, and `LostVote` has a run with two leaders in term 1, in
  which a torn entry with another behind it makes the log file unreadable;
- Log Matching, ordered log terms and leader completeness in every run without restarts;
- committed entries agree on all nodes and never change: from index 1 on in steady runs, and at every index in steady
  runs that are also rooted (`StateMachineSafety`). With at most three nodes every strictly steady run is rooted
  (`SteadyCommit`). `UnsteadyCommit` shows that the hypotheses matter: a run of three nodes, without crash or restart,
  commits different entries at index 1, and a strictly steady run of five nodes does so at index 0;
- leaders hold what is committed; commit emission is the log, in order and once each; acknowledged prefixes are never
  erased;
- it also moves: from every state with a live majority of at least two nodes some continuation elects a new leader
  (`ElectionProgress`; a cluster of one node never has a leader), a later term deposes whoever hears of it, a follower
  catches up in at most two rounds more than its log has terms, and with the entries learns the leader's commit index. `Answers` says for every handler exactly when it grants, refuses, ignores and stores.

A run is *steady* when a leader that credits a success reply has a log that the follower has by then acknowledged
whole, or one of at most one entry; *strictly steady* drops that exception. The leader credits the reply with its log at
reply time, and `CreditBackedIffSteady` says that steadiness is exactly what makes the credit true. It holds in particular
while the log is as long as when the request was built (`UngrownIsSteady`). Index 0 counts as matched by every peer from
the start, so it may be committed as soon as its entry has the leader's term (`FirstIsCommittable`). A run is *rooted* when
a leader that commits index 0, having committed nothing, does so with a majority's acknowledgement;
`FirstCommitBackedIffRooted` says that this too is exact.

**Wire format.** `Text`, `Scanners` and `Wire` are the printers, readers and character scanners, for every type the
`SerDe` derive can build. `WireRoundTrip.RoundTrip` says of every type and every safe value that reading its text gives
the value back if and only if the value is lossless; `WireRecords` and `WireMessages` apply it to all commands and consensus
messages. `WireText` spells out the words and field names of every command and message, and says what the readers make of
fields in another order, missing or repeated ones, bare words and unknown ones.

**Log file.** `LogFile` has the frames, the reader that stops at a torn tail, what happens to entries appended behind
a cut, the buffering writer, and the interleavings of appends with the two phases of a flush.

**Vector index.** `VectorIndex` is the index as a value that refines a map, with what a stale table does after a
delete; `FlatIndex` has distances, top-k search, and the index as an object.

`dafny verify dfyconfig.toml` checks everything.

Where the code and the repository's own words disagree, the model follows the code:

- the project README promises strong consistency across nodes; the runs in `UnsteadyCommit` show when the commit rule does not give it;
- it also promises durability; a log file with an entry behind a torn one may be refused as a whole, and the node then forgets its term and vote;
- a test in `efis/src/vector/flat.rs` (lines 169-175) expects an empty result from an empty index; the code selects at position `k - 1`
  with `k` cut to 0, which aborts (`EmptyIndexAborts`);
- `delete` leaves the table entry of the id that the swap moves; `DeleteAgreesIff` says exactly when that matters.

## Model

| member | source | states |
|---|---|---|
| `ElectionSafety.ElectionSafety` | efis/src/consensus.rs:281-304 | at any two moments of any run whose restarts forget nothing, with crashes, two leaders of one term are the same node, although vote replies carry no sender |
| `ElectionSafety.RunSound` | efis/src/consensus.rs:227-307 | every state reachable without forgetful restarts has one recorded vote per voter and term, tallies made of real votes, and metadata files that restore exactly term and vote |
| `ElectionSafety.StepSound` | efis/src/consensus.rs:227-307 | each handler, crash and restart that remembers preserves that invariant |
| `ElectionSafety.VoteRequestSound` | efis/src/consensus.rs:409-447 | handling any vote request, stale or repeated, keeps a node to one vote per term |
| `ElectionSafety.FirstToWin` | efis/src/consensus.rs:296-301 | a candidate whose counted votes reach the quorum wins a term that nobody has won before |
| `ElectionSafety.RestartSound` | efis/src/consensus.rs:348-371 | a process whose restore succeeds, with any log, or that had stored nothing stands by the vote it cast |
| `ElectionSafety.RestartSoundIff` | efis/src/consensus.rs:348-371 | a restart keeps term, vote and the invariant if and only if its restore succeeds or nothing had been stored; a failed restore, whichever file it fails on, starts from term 0 without a vote |
| `ElectionProgress.LeaderCanFollow` | efis/src/consensus.rs:281-304 | from every state of every run whose restarts forget nothing, if a majority of at least two members lives, some continuation without restart makes one of them leader of a term later than any of theirs; whatever the logs hold, somebody among them gets enough votes |
| `ElectionProgress.NoLeaderAlone` | efis/src/consensus.rs:572-600 | the only node of a cluster never leads, because votes are counted only when replies arrive |
| `Answers.VoteAnswer` | efis/src/consensus.rs:409-447 | a live node grants if and only if the term is later, or its own with no vote or a vote for that candidate, and the candidate is up to date; it answers in the larger term and stores what it changed; a dead one does not answer |
| `Answers.LaterTermDeposes` | efis/src/consensus.rs:622-633 | whenever a live node (for a vote reply, a candidate) receives any of the four messages with a later term, in any run that forgets nothing, it is a follower in that term, its metadata file restores that term and its vote, and its log is unchanged unless it accepts a request |
| `Answers.AppendReplyDeposes` | efis/src/consensus.rs:726-730 | an append reply of a later term makes its recipient a follower of that term, stored, with its log unchanged |
| `Answers.IgnoredVote` | efis/src/consensus.rs:281-295 | vote replies to a node that is not a candidate, or of an earlier term, change nothing |
| `Answers.CountedVoteAnswer` | efis/src/consensus.rs:296-301 | a reply of the candidate's term adds one vote if it grants, and makes it leader if and only if these are a strict majority of all nodes |
| `Answers.WinnerStartsFromItsEnd` | efis/src/consensus.rs:635-650 | a new leader's first request to any peer carries no entries and names its own last entry as the previous one |
| `LostVote.FileDecidesVote` | efis/src/storage/consensus.rs:261-281 | for the bytes of the log file, beside a metadata file that decodes: a restarted node has its old term and vote if and only if they decode or nothing had been stored |
| `LostVote.TwoLeaders` | efis/src/consensus.rs:363-368 | some run of any three nodes has two leaders of term 1: its only two restarts are of a node that held an entry; the first reads a file cut inside that entry's frame, as empty, the second reads the same bytes with the entry appended behind them, and is refused |
| `LostVote.FilesOfTheRun` | efis/src/storage/consensus.rs:142-194 | both are files the writer makes, the first up to a cut; the one reads as an empty log, the other is refused |
| `Metadata.StoresNeverLoseTheVote` | efis/src/storage/consensus.rs:105-138 | after any series of stores, skipped or written, a restart reads back the last stored term and vote |
| `Metadata.MetadataStore.Store` | efis/src/storage/consensus.rs:105-138 | a store succeeds when skipped or written; success leaves the state's term and vote on disk, failure changes nothing |
| `Quorums.MajoritiesMeet` | efis/src/consensus.rs:298-299 | two sets that each reach the quorum have a member in common |
| `Lineage.UpToDateIsFaithful` | efis/src/consensus.rs:790-804 | comparing announced last entries is a total preorder on logs with terms from 1, with the empty log, announced as (0, 0), strictly below all others |
| `Lineage.SameTermSamePrefix` | efis/src/consensus.rs:325-334 | two logs whose every entry traces to the leader of its term are equal up to any index where their terms agree |
| `Lineage.SpliceIsAdopt` | efis/src/consensus.rs:512-525 | the overlap scan and splice amount to taking over the sender's log at send time unless it is already a prefix, for any delay or order of requests |
| `LogSteps.RunLogged` | efis/src/consensus.rs:227-307 | every state of a restart-free run keeps the log invariant: logs and requests traced to leaders, votes for up-to-date candidates, acknowledged prefixes held |
| `LogSteps.StepLogged` | efis/src/consensus.rs:227-307 | each handler preserves the log invariant |
| `LogSteps.LogMatching` | efis/src/consensus.rs:478-525 | in every reachable restart-free state, two logs with the same term at an index are identical through it |
| `LogSteps.LogTermsOrdered` | efis/src/consensus.rs:325-334 | in every such state log terms are at least 1, never decrease along the log and stay within the node's term |
| `Answers.SubmitAnswer` | efis/src/consensus.rs:325-334 | only a leader changes: its log grows by the command in its own term, and it stores its state |
| `Answers.StaleRequest` | efis/src/consensus.rs:449-476 | a request of an earlier term is refused in the node's own term without any change |
| `Answers.AppendAnswer` | efis/src/consensus.rs:449-542 | any other request is answered in its own term and succeeds if and only if the previous entry matches; on refusal log and commit index stay; a change is stored |
| `Answers.RefusalNames` | efis/src/consensus.rs:490-510 | a refusal names the log's length if it is too short, and otherwise the term at the previous index and the first index of the run of that term |
| `Answers.SpliceAnswer` | efis/src/consensus.rs:512-525 | installing entries keeps what is before them, ends with each of their terms in place, and leaves a log that already agrees untouched |
| `Answers.FollowAnswer` | efis/src/consensus.rs:527-536 | on acceptance the commit index never moves back, moves only to where both the announced index and the node's own log reach, and all the way to the nearer of the two |
| `Answers.IgnoredReply` | efis/src/consensus.rs:725-730 | replies to a node that does not lead, or of an earlier term, change nothing |
| `Answers.ReplyAnswer` | efis/src/consensus.rs:732-780 | a reply of the leader's term touches the indices of that peer alone, and match and commit index only if it is a success |
| `Answers.CommitAnswer` | efis/src/consensus.rs:739-753 | a success ends with the greatest committable index at or above the old commit index, or with the old one if there is none |
| `Answers.OnlyNewEntriesFollow` | efis/src/consensus.rs:675-704 | after a success the next request carries exactly what was submitted since |
| `LeaderCompleteness.LeaderCompleteness` | efis/src/consensus.rs:409-447 | if a majority acknowledged, in term T, a term-T entry at index i at any moment, every leader of a later term at any moment has the same log through i |
| `LeaderCompleteness.ChosenPersists` | efis/src/consensus.rs:430-440 | a chosen prefix is in the log of the leader of every later term that was won |
| `CommitSteps.RunCommitted` | efis/src/consensus.rs:227-307 | in every steady run match indices above 0 stand for real acknowledgements, and commit indices from 1 on (from 0 on if rooted), local or sent, for chosen prefixes |
| `CommitSteps.StepCommitted` | efis/src/consensus.rs:227-307 | each handler of a steady (and rooted) step preserves that |
| `CommitSteps.CommittableIsChosen` | efis/src/consensus.rs:739-753 | an index of at least 1 that passes the commit test has been acknowledged by a majority in the leader's term |
| `CommitSteps.FirstIsCommittable` | efis/src/consensus.rs:739-753 | index 0 passes the commit test exactly when its entry has the leader's term, for any match table |
| `CommitSteps.MatchCountIsSize` | efis/src/consensus.rs:742-747 | the match counter over distinct peers is the number of peers whose match index has reached the index |
| `CommitSteps.ClampIsExact` | efis/src/consensus.rs:527-536 | for a sender's commit index inside the log it sent, clamping to the own last index gives that index, and it lies in the part equal to the sender's log |
| `CommitSteps.CommitSurvives` | efis/src/consensus.rs:512-525 | a backed committed prefix survives accepting any request of the same or a later term |
| `SteadyCommit.CreditBackedIffSteady` | efis/src/consensus.rs:732-737 | in a state of a run that was steady so far, for a success reply in flight, crediting it leaves every match index above 0 backed by an acknowledgement if and only if the follower has acknowledged the leader's whole log, or that log has at most one entry |
| `SteadyCommit.UngrownIsSteady` | efis/src/consensus.rs:692-732 | the follower has acknowledged the whole log if it is as long as when the request was built |
| `SteadyCommit.FirstCommitBackedIffRooted` | efis/src/consensus.rs:739-753 | a leader that commits index 0, having committed nothing, commits a backed entry if and only if a majority has acknowledged it in its term |
| `SteadyCommit.SmallClustersAreRooted` | efis/src/consensus.rs:742-751 | with at most three nodes every strictly steady run is rooted |
| `SteadyCommit.SmallClusterSafety` | efis/src/consensus.rs:725-761 | with at most three nodes, in strictly steady runs, what two nodes have committed at any two moments agrees at every index |
| `StateMachineSafety.StateMachineSafety` | efis/src/consensus.rs:725-761 | in steady runs, what two nodes have committed at any two moments agrees through any common index of at least 1, and at index 0 too if the run is rooted; with one node, committed entries never change |
| `StateMachineSafety.EmittedAgree` | efis/src/consensus.rs:806-830 | in steady runs the commands any two nodes ever emit at an index of at least 1, or at any index if rooted, are equal |
| `StateMachineSafety.LeadersHoldCommitted` | efis/src/consensus.rs:409-447 | in steady runs, what a node has committed (index 0 alone: in rooted runs) is, from then on, in the log of every leader of that node's term or a later one |
| `StateMachineSafety.RootedIsUncut` | efis/src/consensus.rs:512-525 | a rooted run never cuts a log at or below its commit index |
| `StateMachineSafety.RootedEmission` | efis/src/consensus.rs:806-830 | in rooted runs, at every moment, every node has emitted exactly its log through last_applied, in order and once each, and neither index moves back |
| `StateMachineSafety.FollowerCommitIsSound` | efis/src/consensus.rs:512-536 | a node that accepts a request whose commit index lies in the log at send ends with that commit index, unless already further, and with the sender's entries through it |
| `StateMachineSafety.FollowersCommitSoundly` | efis/src/consensus.rs:527-536 | in steady runs that covers every request in flight and every node that accepts it |
| `StateMachineSafety.CommitReachesFollowers` | efis/src/consensus.rs:675-704 | in every restart-free run each request a leader sends carries its commit index, and whoever accepts it, however late, has committed at least as far, given that the index lies in the leader's log, as it does in steady runs |
| `StateMachineSafety.ApplyNeverPanics` | efis/src/consensus.rs:817-818 | in steady runs the slice of committed entries stays inside the log |
| `UnsteadyCommit.CommittedEntriesDiffer` | efis/src/consensus.rs:732-737 | some restart-free run of any three nodes commits different entries at index 1 when replies are credited with entries they never carried |
| `UnsteadyCommit.FirstEntriesDiffer` | efis/src/consensus.rs:646-649 | a strictly steady run of any five nodes commits different entries at index 0, each on one acknowledgement of five |
| `UnsteadyCommit.DeposedLeaderAborts` | efis/src/consensus.rs:732 | some restart-free run lets a deposed leader, whose log was cut, meet a reply whose slice lies past its log |
| `ApplyPipeline.EmittedIsLog` | efis/src/consensus.rs:806-830 | in every run that never cuts a log at or below its commit index, every node's commit index lies in its log, what it emitted is its log through last_applied, in order and once each, and neither index moves back |
| `ApplyPipeline.EmitPipelined` | efis/src/consensus.rs:815-828 | emitting extends what was sent by exactly the newly committed entries |
| `Answers.EmissionIsComplete` | efis/src/consensus.rs:806-830 | everything committed and not yet emitted goes out in order, with its index and the sender's term, and nothing committed is left |
| `Answers.NothingToEmit` | efis/src/consensus.rs:809-818 | with nothing committed, nothing new, or a log that ends before it, nothing is emitted and nothing changes |
| `Backtracking.AcknowledgedNeverErased` | efis/src/consensus.rs:512-525 | whatever request of the leader of its term arrives, however old, a node keeps every prefix of that leader's log that it holds |
| `Backtracking.RepeatIsIdle` | efis/src/consensus.rs:512-525 | an accepted request is accepted again when repeated, and leaves the log unchanged |
| `Backtracking.RedeliveryIsIdle` | efis/src/consensus.rs:512-525 | in every restart-free run, a request that was accepted is accepted again at any later moment of its term, after whatever other messages, and leaves the log unchanged |
| `Backtracking.AcknowledgedHeld` | efis/src/consensus.rs:538-541 | in every restart-free run a node holds all it acknowledged in its current term |
| `Backtracking.BacktrackDescends` | efis/src/consensus.rs:762-780 | a rejection of a request built at next index ni leads to a next index strictly below ni, for logs traced to the same leaders |
| `Backtracking.RejectionDescends` | efis/src/consensus.rs:762-780 | in every restart-free run, whenever a rejection of a request of the leader's current term arrives, however late, the next index ends strictly below where that request started |
| `Backtracking.NeverOvershoots` | efis/src/consensus.rs:762-780 | a rejection never moves the next index below the part the two logs share |
| `Backtracking.ConflictTermFalls` | efis/src/consensus.rs:762-774 | if the next request is rejected over a term as well, that term of the follower is earlier: one rejection disposes of a whole term |
| `Backtracking.RoundProgress` | efis/src/consensus.rs:675-723 | a round either puts the leader's log on the follower with a commit index at least the leader's, or lowers the next index and changes neither log |
| `Backtracking.RepliesAreDefined` | efis/src/consensus.rs:732 | in every restart-free run the slice taken for a reply to a request of the leader's current term lies in its log |
| `Backtracking.MatchingAloneIsNotEnough` | efis/src/consensus.rs:763-774 | Log Matching between two logs alone does not give that: a concrete pair moves the next index up |
| `Backtracking.CatchesUp` | efis/src/consensus.rs:675-723 | with a fixed leader log, at most one round more than the next index, and at most two more than the follower's log has terms, put the whole log on the follower and its commit index at least at the leader's |
| `Backtracking.LeadersCanCatchUp` | efis/src/consensus.rs:675-723 | every leader and live peer of no later term in a restart-free run meet the conditions of CatchesUp |
| `Replica.RunStart` | efis/src/consensus.rs:495-501 | the conflict index is the start of the maximal run of equal terms that ends at the request's previous index |
| `Replica.Overlap` | efis/src/consensus.rs:513-519 | the scan stops at the first entry that is missing or has another term |
| `Replica.LastCommittable` | efis/src/consensus.rs:740-753 | the greatest index in the range with an entry of the current term and a strict majority of matches |
| `Replica.LastOfTerm` | efis/src/consensus.rs:764-769 | the greatest index whose entry has the conflict term, if any |
| `Consensus.ScanRunStart` | efis/src/consensus.rs:495-499 | the backward loop finds the start of the run of equal terms |
| `Consensus.ScanOverlap` | efis/src/consensus.rs:513-519 | the forward loop counts exactly the agreeing entries |
| `Consensus.ScanLastOfTerm` | efis/src/consensus.rs:764-769 | the reverse loop finds the last entry of the term |
| `Consensus.CountMatches` | efis/src/consensus.rs:742-747 | the inner loop counts the node itself and every peer that matches |
| `Consensus.ScanCommit` | efis/src/consensus.rs:739-753 | the nested loops leave the greatest committable index at or above the old one, or the old value if there is none, for any match table |
| `Consensus.Actor.constructor` | efis/src/consensus.rs:348-371 | a started node is a follower with the restored term, vote, last-applied and log, or with none of them if the restore fails |
| `Consensus.Actor.HandleTimeout` | efis/src/consensus.rs:572-592 | starting an election leaves the node, the stored states and the request that the specification gives |
| `Consensus.Actor.HandleRequestVote` | efis/src/consensus.rs:409-447 | node, reply and stored states after a vote request are those of the specification, with the refusals of a dead node |
| `Consensus.Actor.HandleVoteResult` | efis/src/consensus.rs:281-304 | node and stored states after a vote reply are those of the specification |
| `Consensus.Actor.BecomeLeader` | efis/src/consensus.rs:635-650 | the loop over peers resets every next and match index |
| `Consensus.Actor.HandleSubmit` | efis/src/consensus.rs:325-334 | only a leader appends, one entry of its own term |
| `Consensus.Actor.HandleSendAes` | efis/src/consensus.rs:675-723 | each peer in turn is sent the suffix from its clamped next index, and nothing but next indices changes |
| `Consensus.Actor.HandleAppendEntries` | efis/src/consensus.rs:449-542 | node, reply and stored states after a request are those of the specification, on every branch |
| `Consensus.Actor.Install` | efis/src/consensus.rs:512-536 | log and commit index after acceptance are the splice and the clamp of the specification |
| `Consensus.Actor.Reject` | efis/src/consensus.rs:490-510 | the reply names the conflict index and term of the specification in all three cases |
| `Consensus.Actor.HandleAeResult` | efis/src/consensus.rs:725-788 | node and stored states after a reply are those of the specification, given that ni lies in the log |
| `Consensus.Actor.Resume` | efis/src/consensus.rs:763-780 | the next index after a rejection is that of the specification in all three cases |
| `Consensus.Actor.HandleSendCommits` | efis/src/consensus.rs:806-830 | the loop emits exactly the entries between last_applied and the commit index, and only last_applied changes |
| `Text.StringRoundTrip` | efis/src/rpc/mod.rs:141-159 | a string is read back from its text if and only if it contains a space, or has no white space at its ends and is not enclosed in quotes |
| `Text.EscapeRoundTrip` | efis/src/rpc/mod.rs:144-154 | replacing quotes and replacing them back is the identity on every string |
| `Text.NatRoundTrip` | efis/src/rpc/mod.rs:106-127 | a printed number is read back exactly when it fits the type, and refused otherwise |
| `Text.IntRoundTrip` | efis/src/rpc/mod.rs:73-82 | the same for signed numbers |
| `Scanners.SplitList` | efis/src/rpc/mod.rs:192-221 | the list loop cuts at exactly the commas its fold over the text says |
| `Scanners.ParseKeyValues` | efis/src/rpc/mod.rs:230-290 | the record loop finds exactly the keys and values its fold over the text says |
| `Scanners.FindClose` | efis/src/commands.rs:67-82 | the loop finds the position that closes the payload, or none |
| `Scanners.NeutralConcat` | efis/src/rpc/mod.rs:242-283 | neutral texts, which every scanner passes without seeing a separator, concatenate to neutral texts |
| `Scanners.NeutralSquare` | efis/src/rpc/mod.rs:203-210 | square brackets hide every separator inside balanced text |
| `Scanners.NeutralCurly` | efis/src/rpc/mod.rs:259-266 | braces hide every separator inside balanced text |
| `Scanners.NeutralQuoted` | efis/src/rpc/mod.rs:247-250 | quotes hide everything but quotes |
| `Scanners.PiecesOfJoined` | efis/src/rpc/mod.rs:192-221 | neutral trimmed elements joined by commas are split at exactly the element boundaries, an empty last element being dropped |
| `Scanners.KeyValuesOfShown` | efis/src/rpc/mod.rs:230-290 | neutral trimmed fields joined by spaces are found with exactly their printed texts |
| `Scanners.CloseAfter` | efis/src/commands.rs:67-85 | after text that closes what it opens, the payload ends at the parenthesis opened before it |
| `Wire.PrintRecord` | macros/src/lib.rs:56-105 | pushing the fields one by one, those printed as None left out, gives the record's text |
| `Wire.FindOpen` | efis/src/commands.rs:62 | the first opening parenthesis |
| `WireRoundTrip.PrintIsCarried` | efis/src/rpc/mod.rs:178-290 | scanning the text of any typed safe value from the ground ends on the ground with no exposed separator, trimmed and with matching parentheses |
| `WireRoundTrip.RecordScan` | macros/src/lib.rs:109-117 | scanning a printed record yields exactly its fields that are not absent, with their printed texts |
| `WireRoundTrip.ListScan` | efis/src/rpc/mod.rs:185-221 | scanning a printed list yields exactly its elements' texts, without an empty last one |
| `WireRoundTrip.CaseScan` | efis/src/commands.rs:47-85 | the enum reader hands exactly the payload's text to the payload's reader |
| `WireRoundTrip.RoundTrip` | efis/src/rpc/mod.rs:141-290 | for every well-formed type and every safe value, reading its text gives the value back if and only if no record field is the string None, no list ends in an empty string and no present option prints as absent |
| `WireRecords.RecordFacts` | macros/src/lib.rs:56-123 | a record of fields in range and with safe strings is typed and safe, and lossless exactly when no field is the string None and no list of strings ends in an empty one |
| `WireMessages.CellsRoundTrip` | macros/src/lib.rs:56-123 | every such record is read back exactly then |
| `WireMessages.CommandRoundTrip` | efis/src/commands.rs:25-106 | the same for all fifteen variants of a command |
| `WireMessages.LogEntryRoundTrip` | efis/src/consensus.rs:32-36 | the same for a log entry |
| `WireMessages.AppendEntriesRoundTrip` | efis/src/consensus.rs:73-82 | the same for a request with any number of entries and any commands |
| `WireMessages.AppendEntriesReplyRoundTrip` | efis/src/consensus.rs:84-91 | every reply in range is read back |
| `WireMessages.RequestVoteRoundTrip` | efis/src/consensus.rs:59-65 | a vote request is read back if and only if the candidate is not called None |
| `WireMessages.RequestVoteReplyRoundTrip` | efis/src/consensus.rs:67-71 | every vote reply in range is read back |
| `WireMessages.LastEmptyItemIsLost` | efis/src/rpc/mod.rs:219-221 | a list of strings that ends in an empty one arrives without it, and otherwise whole |
| `WireMessages.NoneKeyIsMissing` | macros/src/lib.rs:61-66 | a key spelled None is not printed, and the record is refused for the missing field |
| `WireText.CommandPrints` | efis/src/commands.rs:25-44 | every command, whatever its payload, is written as its variant's word and, in parentheses, the fields of its payload under the source's names in order |
| `WireText.CommandReads` | efis/src/commands.rs:47-106 | that text, with the word spelled out, is read as that variant with that payload, for all carriable commands whose round trip is lossless |
| `WireText.PayloadSpelled` | efis/src/efis.rs:57-144 | the field names of each of the fourteen payloads |
| `WireText.RecordPrints` | macros/src/lib.rs:56-105 | the text of any record is its fields in order, without absent options and strings spelled None |
| `WireText.RequestVoteSpelled` | efis/src/consensus.rs:59-65 | a vote request is written under these four field names in this order |
| `WireText.RequestVoteReplySpelled` | efis/src/consensus.rs:67-71 | a vote reply likewise |
| `WireText.AppendEntriesSpelled` | efis/src/consensus.rs:73-82 | a request likewise, with its entries as a list of log entries |
| `WireText.AppendEntriesReplySpelled` | efis/src/consensus.rs:84-91 | a reply likewise |
| `WireText.LogEntrySpelled` | efis/src/consensus.rs:32-36 | a log entry likewise, its command first |
| `WireText.MessagesRead` | efis/src/consensus.rs:32-91 | each of these texts is read as the message it spells |
| `WireText.Decimal` | efis/src/rpc/mod.rs:106-127 | numbers are written in decimal |
| `WireText.QuoteEscaped` | efis/src/rpc/mod.rs:141-149 | in a quoted string each quote is written behind a backslash and nothing else is changed |
| `WireText.OnlyLastFieldsMatter` | macros/src/lib.rs:76-117 | two record texts with the same last text under each field name are read alike: order, unknown fields and overridden ones do not matter |
| `WireText.MissingFieldNamed` | macros/src/lib.rs:89-96 | the first required field that is not written is the one reported |
| `WireText.StrayCommands` | efis/src/commands.rs:47-106 | for every text: a variant's bare word is refused, an unclosed payload is refused, and anything under no variant's word is the unknown command |
| `LogFile.LengthRoundTrip` | efis/src/storage/consensus.rs:153-155 | the four length bytes give the length modulo 2 to the 32 |
| `LogFile.ReadLog` | efis/src/storage/consensus.rs:261-275 | the loop returns the whole frames from the front, or refuses if one does not decode |
| `LogFile.WholeFrames` | efis/src/storage/consensus.rs:261-275 | the number of entries whose frames all lie before the cut, and no more |
| `LogFile.TornTail` | efis/src/storage/consensus.rs:261-275 | for every list of entries and every cut of their bytes the reader returns exactly the longest prefix whose frames fit |
| `LogFile.WholeFile` | efis/src/storage/consensus.rs:261-275 | uncut, it returns all of them |
| `LogFile.LogWriter.AppendBatch` | efis/src/storage/consensus.rs:142-166 | file and buffer together grow by exactly the frames of the batch, with a flush first if and only if the estimate passes the limit |
| `LogFile.LogWriter.Flush` | efis/src/storage/consensus.rs:168-194 | a flush empties the buffer into the file and loses nothing |
| `LogFile.WriteConserves` | efis/src/storage/consensus.rs:168-194 | writing the k-th taken buffer conserves the log if and only if its bytes commute with those taken before it |
| `LogFile.RunConserves` | efis/src/storage/consensus.rs:142-194 | for every interleaving of appends and in-order flush phases, file, taken and pending bytes are the frames of every appended entry in order |
| `LogFile.CrashRecovery` | efis/src/storage/consensus.rs:142-275 | whenever such a run stops that began on a file of whole frames, and wherever its file is cut, the reader returns exactly those of the old and appended entries that fit |
| `LogFile.AppendAtBoundary` | efis/src/storage/consensus.rs:43-53 | behind a cut between two frames, everything appended later is read back after the entries before the cut |
| `LogFile.WrittenBehind` | efis/src/storage/consensus.rs:142-194 | one append and one flush put the frames of a batch behind whatever the file holds |
| `LogFile.AppendInsideFrame` | efis/src/storage/consensus.rs:261-275 | behind whole frames and a cut at any byte of the next, its length included, the reader takes what is missing from the bytes appended next, whatever they are, and goes on behind that |
| `LogFile.TornFileIsRefused` | efis/src/storage/consensus.rs:273 | in the fixed-width layout of a unit command, an entry cut behind the first byte of the command's number reads as no entry, and with the same entry appended behind it is refused as a whole |
| `LogFile.OverlappingFlushesReorder` | efis/src/storage/consensus.rs:168-182 | two overlapping flushes can leave a file that reads back in the wrong order |
| `VectorIndex.InsertIsUpdate` | efis/src/vector/flat.rs:30-48 | with an agreeing table an insert never aborts, is a map update, refuses the wrong size, and keeps the table agreeing |
| `VectorIndex.InsertKeepsShape` | efis/src/vector/flat.rs:30-48 | any insert that does not abort keeps whole rows, distinct ids and a table with exactly the stored ids |
| `VectorIndex.DeleteIsRemoval` | efis/src/vector/flat.rs:76-95 | a delete removes exactly that id's pair and keeps every other id with its vector, although a row moves |
| `VectorIndex.DeleteAgreesIff` | efis/src/vector/flat.rs:91-93 | the table still agrees after a delete if and only if the id was absent or in the last row |
| `VectorIndex.RunRefinesMap` | efis/src/vector/flat.rs:30-95 | every run that drops only absent or last ids, so every run of inserts, never aborts and does what the same run does to a map |
| `VectorIndex.InsertsAreTidy` | efis/src/vector/flat.rs:30-48 | every run of inserts is such a run |
| `VectorIndex.StaleInsertAborts` | efis/src/vector/flat.rs:36-41 | after another delete, updating the moved id aborts if and only if vectors have coordinates at all |
| `VectorIndex.StaleInsertHitsAnother` | efis/src/vector/flat.rs:36-45 | if a new id was inserted in between, that update replaces the new id's vector instead |
| `FlatIndex.ExactMatchIsNearest` | efis/src/vector/mod.rs:38-47 | the squared distance of vectors of one size is never negative, and zero only for equal vectors |
| `FlatIndex.DistanceByProducts` | efis/src/vector/mod.rs:38-52 | the squared distance is the two squared norms less twice the dot product |
| `FlatIndex.SameOrderOfEqualNorms` | efis/src/vector/mod.rs:48-52 | for vectors of equal norm, as the cosine distance expects, both distances order them alike around any query |
| `FlatIndex.ShorterDecides` | efis/src/vector/mod.rs:38-52 | coordinates beyond the shorter vector do not count |
| `FlatIndex.SortAll` | efis/src/vector/flat.rs:71 | a sorted arrangement of exactly the given hits |
| `FlatIndex.SortedDistsUnique` | efis/src/vector/flat.rs:68-71 | two sorted arrangements of the same hits show the same distances |
| `FlatIndex.SelectionIsNearest` | efis/src/vector/flat.rs:67-73 | select, truncate and sort give k hits with distinct ids, nearest first, none omitted that is nearer, with the distances of sorting everything and taking k |
| `FlatIndex.NearestRows` | efis/src/vector/flat.rs:60-73 | among the nearest hits no omitted row has a larger dot product with the query (cosine), or is closer to it (L2), than a returned one |
| `FlatIndex.EmptyIndexAborts` | efis/src/vector/flat.rs:67-68 | a search of an empty index is defined only for k = 0 |
| `FlatIndex.VectorStore.Insert` | efis/src/vector/flat.rs:30-48 | the new state is that of the specification; with an agreeing table it is a map update |
| `FlatIndex.VectorStore.WriteRow` | efis/src/vector/flat.rs:37-41 | the copy loop replaces one row and nothing else |
| `FlatIndex.VectorStore.MoveLastRow` | efis/src/vector/flat.rs:85-90 | the copy loop within the same array puts the last row over the deleted one |
| `FlatIndex.VectorStore.FindRow` | efis/src/vector/flat.rs:77-83 | the loop finds the first row of the id, if any |
| `FlatIndex.VectorStore.Delete` | efis/src/vector/flat.rs:76-95 | the new state is that of the specification, the meaning loses exactly that id, and the table agrees exactly if nothing moved |
| `FlatIndex.VectorStore.Measure` | efis/src/vector/flat.rs:60-65 | one distance per stored id, in row order |
| `FlatIndex.VectorStore.Search` | efis/src/vector/flat.rs:50-74 | the result is the nearest min(k, n) hits, and none for k = 0; with cosine no omitted vector has a larger dot product with the query than a returned one, with L2 none is closer |

## Left out

- Tokio tasks, channels, timers, random timeouts and the clock: any next step may be the next; nothing is said about progress in real time.
- TCP client, server and dispatcher: a vote call gets at most one reply; append replies may even repeat.
- Log contents across restarts, the log cache and the saved-index bookkeeping of `persist_state`: a restart may come back with any log, or with a refused file, and the log results are for runs without restart.
- A crash inside a handler, and failing metadata writes inside the actor: handlers are atomic and their stores succeed; `MetadataStore.Store` alone covers a failed write.
- LostVote.FileDecidesVote: takes the metadata file to decode, as it does when every rename was whole; a restore that fails on the metadata file is the same step as one that fails on the log file, and RestartSoundIff covers both.
- A panic on a slice past the end: the step is not enabled and a crash step stands for it (`AeResultDefined`, `SendCommitsDefined`).
- The leader-id global and redirects, the submit return index and the table of waiting clients: hints outside safety.
- The key-value store, expiry, pub/sub delivery, snapshots, the dispatcher macros and peer ids parsed from URL digits: mostly single updates; membership is fixed and agreed.
- Overflow of terms, indices, bracket depths and the `usize::MAX` mark in `send_commits`: these are unbounded numbers; wire numbers have their 64-bit ranges.
- 32-bit floats: a float on the wire is the text the printer wrote, drawn from the printed alphabet, and distances are exact reals.
- The binary encoding of log entries: a parameter that its decoder inverts and whose length fits 32 bits; encoding errors, failed or partial file writes and fsync are not modelled.
- Strings outside the safe set of `WireRoundTrip.SafeString` inside records, lists and commands: the exact condition there is given for safe strings, and for all strings only where a string stands alone.
- Lists of lists or of options: the list reader strips all leading brackets; no type of the repository has them.
- Rayon's parallel iteration and the library's selection and sort are taken by their contracts, with any order among equal distances.
