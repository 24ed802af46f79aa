# Remuda stream following and framing: a verified model

Remuda follows the append-only output of coding agents and translates it. Bytes
arrive in arbitrary pieces, files are truncated or replaced under the reader,
events of several parents interleave, and several callers share one pipe. This
project models the code that turns such input into exactly-once observations,
and proves what it keeps over every input, every schedule and every run.

`dafny verify dfyconfig.toml` checks the whole project.

## How the model is laid out

State that the program updates in place is a class whose methods have the
program's loops and branches. Each method is proved equal to a function of the
old state, and the theorems are about runs of those functions. The environment
(file system, poll schedule, pipe outcomes, other callers) is a parameter: a
run is a sequence of arbitrary environment steps.

| modules | what they model |
|---|---|
| `JsonValue`, `Sequences` | JSON values; sequences laid end to end |
| `UsageMerge`, `UsagePaths` | the two usage merges, and what they do to each counter |
| `Utf8`, `Scalars`, `Lines` | lossy UTF-8 decoding on bytes, against the encoding table; splitting bytes into positioned lines |
| `RolloutTail` | the rollout follower |
| `TranscriptTail`, `TailTrust`, `TailContinuity`, `TailPositions`, `TailHeads` | the transcript follower, its trust gate, its continuity, its positions, its checks in bytes |
| `RecordGroup`, `GroupContent`, `RecordPump`, `PumpMessages` | regrouping transcript records, the two drains, the pump around them, what it delivers per message |
| `StreamMapper`, `StreamContent`, `StreamRules`, `StreamRevisions`, `StreamSnapshots`, `StreamParents` | stream events and snapshots to node mutations |
| `LineCodec`, `StdinWriter`, `Handshake` | wire framing, the stdin writer, the initialize handshake |
| `PeerTable` | the JSON-RPC pending table |
| `Affected`, `AffectedExact` | which crates a change affects |

## Where the code does less than it might seem to

* Neither usage merge is associative. Grouping matters exactly when a key is an
  object, then a reported scalar, then an object that does not cover the first
  (`MergeAssociativeExactly`, `OverlayAssociativeExactly`, `RegroupingCanMatter`).
* A withdrawn anchor of a live follower reopens live, so it can be `Current`
  again; the comment at crates/remuda-driver/src/claude_transcript.rs:795-800
  says a withdrawn anchor always reopens unverified. The model follows the code,
  and the promise holds exactly for anchors of resumed followers
  (`WithdrawnNeverCurrent`).
* A transcript poll that ends inside a multi-byte character corrupts what the
  follower returns. Over a well-formed file its lines and its held rest are exact
  if and only if every poll ends on a character boundary (`LiveTextExact`,
  `SplitCharacterCorrupts`). The rollout follower has no such condition.
* A second block for a tool id restarts its node at revision 1. Revisions are
  chains for every node if and only if that never happens (`RevisionsExact`,
  `SecondBlockRestarts`).
* Request ids repeat after 2^64 requests, and exactly then a new request pushes
  a waiting one out of the table (`IdsRepeatExactly`, `EnterDisplacesExactly`,
  `DisplacementReached`).
* A request that enters the table after the reader ended is never answered by a
  response. It waits if and only if no further shutdown happens and its own send
  does not fail under its caller (`LateRequestReached`, `LateRequestWaits`).

## Model

| member | source | states |
|---|---|---|
| `UsageMerge.MergeUsageFields` | crates/remuda-driver/src/claude_transcript_records.rs:178-199 | The loop over the incoming members computes the recursive merge: nulls and missing members keep what was there, objects merge, anything else replaces. |
| `UsageMerge.OverlayUsagePatch` | crates/remuda-driver/src/claude_print_stream.rs:340-363 | The overlay loop computes the recursive overlay. |
| `UsageMerge.OverlayAgreesWithMerge` | crates/remuda-driver/src/claude_print_stream.rs:340-363 | On object roots the two independently written merges give the same value once null members are dropped at every depth. |
| `UsageMerge.MergeIdempotent` | crates/remuda-driver/src/claude_transcript_records.rs:178-199 | Merging the same report again changes nothing, for all values. |
| `UsageMerge.OverlayIdempotent` | crates/remuda-driver/src/claude_print_stream.rs:340-363 | Overlaying the same patch again changes nothing, for all values. |
| `UsageMerge.MergeCoversExactly` | crates/remuda-driver/src/claude_transcript_records.rs:178-199 | The covering condition holds if and only if merging over the earlier value gives the later one back. |
| `UsageMerge.OverlayCoversExactly` | crates/remuda-driver/src/claude_print_stream.rs:340-363 | The same for the overlay. |
| `UsageMerge.MergeAssociativeExactly` | crates/remuda-driver/src/claude_transcript_records.rs:178-199 | The merge of three objects can be regrouped if and only if no key goes object, reported scalar, uncovering object at any depth. |
| `UsageMerge.OverlayAssociativeExactly` | crates/remuda-driver/src/claude_print_stream.rs:340-363 | The same characterization for the overlay. |
| `UsageMerge.RegroupingCanMatter` | crates/remuda-driver/src/claude_transcript_records.rs:178-199 | Three concrete usage objects for which both operations depend on the grouping. |
| `UsageMerge.AgreeingMergesRegroup` | crates/remuda-driver/src/claude_transcript_records.rs:178-199 | When no key changes between object and scalar, the merge is associative. |
| `UsageMerge.AgreeingOverlaysRegroup` | crates/remuda-driver/src/claude_print_stream.rs:340-363 | When no key changes between object and scalar, the overlay is associative. |
| `UsageMerge.MergeAllConcat` | crates/remuda-driver/src/claude_transcript_records.rs:178-199 | Cutting a run of agreeing reports in two anywhere does not change their merge. |
| `UsageMerge.MergeBatches` | crates/remuda-driver/src/claude_transcript_records.rs:344-367 | Merging each batch first and then the results equals merging every report in order, for any cutting into batches. |
| `UsagePaths.MergeAtPath` | crates/remuda-driver/src/claude_transcript_records.rs:178-199 | Counter by counter, at any depth: a reported value takes the newer one, and where the newer object is silent the older value stays or nothing is reported. |
| `UsagePaths.OverlayAtPath` | crates/remuda-driver/src/claude_print_stream.rs:340-363 | The same for the overlay. |
| `UsagePaths.KeysMerged` | crates/remuda-driver/src/claude_transcript_records.rs:178-199 | Keys come from either side, and the merge adds none for a null; the overlay does. |
| `UsagePaths.OtherRoots` | crates/remuda-driver/src/claude_print_stream.rs:360-361 | What is not an object on both sides is taken from the newer value, except that the overlay reads a null as no change. |
| `Utf8.LossyGrows` | crates/remuda-driver/src/claude_transcript.rs:1320 | Lossy decoding never shortens the text, and leaves it alone if and only if it was well formed. |
| `Scalars.ValidExactly` | crates/remuda-driver/src/claude_transcript.rs:1320 | The decoder accepts a byte string if and only if it is an encoding of Unicode scalar values by the table in section 3 of RFC 3629. |
| `Scalars.BrokenPieceExactly` | crates/remuda-driver/src/claude_transcript.rs:1320 | One replacement character stands for as many bytes as begin the encoding of some scalar value, and at least one. |
| `Scalars.ReplacementEncoded` | crates/remuda-driver/src/claude_transcript.rs:1320 | The replacement is the encoding of U+FFFD. |
| `Utf8.ValidCut` | crates/remuda-driver/src/claude_transcript.rs:1320 | Either side of a cut through well-formed text is well formed if and only if the cut is a character boundary. |
| `Utf8.ChunkedDecodingExact` | crates/remuda-driver/src/claude_transcript.rs:1320 | Decoding chunk by chunk reproduces the bytes if and only if no chunk is ill formed: later chunks never repair an earlier one. |
| `Lines.SolidChunks` | crates/remuda-driver/src/claude_transcript.rs:1320 | Decoding chunk by chunk keeps the bytes other than newlines and carriage returns if and only if no chunk is ill formed, so no dropped blank line or trimmed CR can hide a cut character. |
| `Lines.RecordsExact` | crates/remuda-driver/src/claude_transcript.rs:1299-1334 | Splitting lists exactly the whole non-empty lines, each with its true start offset, in file order (both directions). |
| `Lines.RecordsConcat` | crates/remuda-driver/src/claude_transcript.rs:1299-1334 | Splitting in two steps while holding the unterminated tail equals splitting once. |
| `Lines.RestIsSuffix` | crates/remuda-driver/src/claude_transcript.rs:1299-1334 | What is held is the suffix after the last newline and contains none. |
| `Lines.LineTextExactly` | crates/remuda-driver/src/codex_rollout.rs:424-425 | A line is its bytes, decoded where the reader has not done so before, less exactly the carriage returns at its end. |
| `Lines.DecodersAgree` | crates/remuda-driver/src/codex_rollout.rs:409-435 | On well-formed text, decoding line by line and decoding beforehand give the same records. |
| `RolloutTail.SplitLines` | crates/remuda-driver/src/codex_rollout.rs:409-435 | The byte loop splits off exactly the records of the buffer and reports how many bytes they took. |
| `RolloutTail.RolloutTail.constructor` | crates/remuda-driver/src/codex_rollout.rs:360-366 | A new reader stands at byte zero with nothing held. |
| `RolloutTail.RolloutTail.AtEnd` | crates/remuda-driver/src/codex_rollout.rs:378-385 | A reader bound at the end stands at the current length with nothing held. |
| `RolloutTail.RolloutTail.Poll` | crates/remuda-driver/src/codex_rollout.rs:409-435 | A poll moves the reader as specified; an open error leaves it alone. |
| `RolloutTail.ScheduleIrrelevant` | crates/remuda-driver/src/codex_rollout.rs:409-435 | For any poll schedule over a growing file, even one that cuts characters, the records and the reader's end state are those of one read of the final content. |
| `RolloutTail.FromTheStart` | crates/remuda-driver/src/codex_rollout.rs:360-435 | From byte zero, every schedule yields exactly the whole file's lines with their first-byte offsets. |
| `RolloutTail.FromTheEnd` | crates/remuda-driver/src/codex_rollout.rs:378-435 | A reader bound at the end returns exactly the lines appended after the bind. |
| `RolloutTail.TruncationRestarts` | crates/remuda-driver/src/codex_rollout.rs:409-435 | A file that became shorter than the cursor is followed from its start: over any later schedule the records are exactly those of its content, whatever was read or held before. |
| `TranscriptTail.DrainLines` | crates/remuda-driver/src/claude_transcript.rs:1321-1333 | The find-and-drain loop returns the records of the text, keeps the unterminated rest and its position. |
| `TranscriptTail.TranscriptTail.New` | crates/remuda-driver/src/claude_transcript.rs:967-975 | A live follower starts at byte zero. |
| `TranscriptTail.TranscriptTail.Resumed` | crates/remuda-driver/src/claude_transcript.rs:979-994 | A resumed follower starts at its boundary with the boundary's identity, head and trust. |
| `TranscriptTail.TranscriptTail.FollowTo` | crates/remuda-driver/src/claude_transcript.rs:1299-1334 | Reading to the end advances the cursor and splits as specified, held line included. |
| `TranscriptTail.TranscriptTail.PollFile` | crates/remuda-driver/src/claude_transcript.rs:1130-1288 | A poll of a missing, unreadable or present file gives the specified result and next state. |
| `TranscriptTail.TranscriptTail.PollResumed` | crates/remuda-driver/src/claude_transcript.rs:1152-1268 | The resumed branches: boundary lost, resynchronized, trusted. |
| `TailTrust.GateNeverReopens` | crates/remuda-driver/src/claude_transcript.rs:1130-1270 | Once the trust gate is closed, no later run of the file system makes any poll `Current`. |
| `TailTrust.GateExact` | crates/remuda-driver/src/claude_transcript.rs:1130-1270 | From any trusting state, a poll is `Current` if and only if the boundary was verified, this poll read the file, and every poll so far found it present, same identity, intact head, not below the cursor. |
| `TailTrust.ResumedGateExact` | crates/remuda-driver/src/claude_transcript.rs:979-994 | The same from a boundary, for every run. |
| `TailTrust.ExplicitResumeNeverCurrent` | crates/remuda-driver/src/claude_transcript.rs:912-944 | An explicit resume is never fresh and never `Current`, whatever the path held then or holds later; it opens no follower only when the file is missing. |
| `TailTrust.ReboundGateExact` | crates/remuda-driver/src/claude_transcript.rs:882-892 | A rebind is fresh if and only if the transcript is absent or empty; otherwise its follower is never `Current`. |
| `TailTrust.SaneAlways` | crates/remuda-driver/src/claude_transcript.rs:1133-1147 | In every reachable state a follower waiting for its file is displaced. |
| `TailTrust.DiscontinuityReadsNothing` | crates/remuda-driver/src/claude_transcript.rs:1176-1254 | A changed head, a shrink below the cursor, or a changed identity without a vanish returns no lines, moves the cursor to the end, drops the held line and closes the gate. |
| `TailTrust.NoReplay` | crates/remuda-driver/src/claude_transcript.rs:1176-1254 | Until the next discontinuity every record returned starts at or after the length seen then, and none is `Current`. |
| `TailTrust.CurrentRecordsAfterBoundary` | crates/remuda-driver/src/claude_transcript.rs:979-994 | Every record reported as `Current` starts at or after the boundary. |
| `TailTrust.WithdrawnNeverCurrent` | crates/remuda-driver/src/claude_transcript.rs:795-805 | The reopened follower of a withdrawn anchor is never `Current` in any run if and only if the anchor came from a resumed follower. |
| `TailTrust.ReopeningKeepsGate` | crates/remuda-driver/src/claude_transcript.rs:1057-1100 | After reopening at its anchor a follower is never `Current` in any run if and only if it was not trusted when the anchor was captured. |
| `TailContinuity.VanishIsStutter` | crates/remuda-driver/src/claude_transcript.rs:1133-1147 | Over any run in which the file vanishes and returns extending what was there, the reads are record for record those of the run without the vanishes, held line included; provenance is only weakened. |
| `TailContinuity.ReopenThenAppend` | crates/remuda-driver/src/claude_transcript.rs:1006-1100 | After closing and reopening at its anchor, a live or resumed follower returns the same records, positions and provenance as the original for every later run of appends. |
| `TailContinuity.ReopenIsInvisible` | crates/remuda-driver/src/claude_transcript.rs:1006-1100 | With a known head and a settled gate the two agree on every later run of the file system, replacements and vanishes included. |
| `TailContinuity.EquivalentRuns` | crates/remuda-driver/src/claude_transcript.rs:1130-1288 | Followers that differ only in dead state give the same results on every run. |
| `TailContinuity.RefinesWholeFile` | crates/remuda-driver/src/claude_transcript.rs:1272-1334 | For any schedule over a growing file with well-formed reads, the output is the split of the final file from where the follower stood, and the held line is the file's unterminated tail. |
| `TailContinuity.LiveRefinesWholeFile` | crates/remuda-driver/src/claude_transcript.rs:1272-1334 | A live follower returns exactly the non-empty whole lines with their true offsets. |
| `TailContinuity.ResumeReadsOnlyAppends` | crates/remuda-driver/src/claude_transcript.rs:652-668 | A follower resumed at a snapshot returns exactly the lines appended after it, and while the file only grows reports all of them as `Current`. |
| `TailContinuity.ValidReadsExactly` | crates/remuda-driver/src/claude_transcript.rs:1320 | Over a well-formed file every read is well formed if and only if every poll ended on a character boundary. |
| `TailContinuity.SplitsDecodedText` | crates/remuda-driver/src/claude_transcript.rs:1316-1333 | Whatever the polls cut through, lines returned and line held are those of the text decoded chunk by chunk. |
| `TailContinuity.LinesKeepBytes` | crates/remuda-driver/src/claude_transcript.rs:1321-1333 | Lines returned and line held together keep every byte but newlines and carriage returns, in order. |
| `TailContinuity.LiveTextExact` | crates/remuda-driver/src/claude_transcript.rs:1316-1333 | Over a well-formed file the lines a live follower returned and the rest it holds are those of the file if and only if every poll ended on a character boundary; then the positions are exact too. |
| `TailContinuity.SplitCharacterCorrupts` | crates/remuda-driver/src/claude_transcript.rs:1320 | A concrete two-poll run that corrupts a line and shifts the next record's position. |
| `TailPositions.SyncedAlways` | crates/remuda-driver/src/claude_transcript.rs:1130-1334 | In every state of every run with well-formed reads, truncations, replacements and vanishes included, the held line ends exactly at the cursor. |
| `TailPositions.ReopenAfterAnyRun` | crates/remuda-driver/src/claude_transcript.rs:1006-1100 | Hence after any such run closing and reopening is invisible to every later run, under the same condition on the gate. |
| `TailPositions.ContinuousRunIncreases` | crates/remuda-driver/src/claude_transcript.rs:1176-1254 | Without a discontinuity a resumed follower's positions strictly increase over the whole run: nothing is returned twice. |
| `TailPositions.NoReplayExactlyOnce` | crates/remuda-driver/src/claude_transcript.rs:1176-1254 | After a discontinuity positions strictly increase from the length seen then, until the next one. |
| `TailHeads.GateInBytes` | crates/remuda-driver/src/claude_transcript.rs:603-616 | The trust gate in bytes: a poll after a snapshot is `Current` if and only if it read the file and at every poll so far the file was there with the snapshot's inode, its first 8192 bytes unchanged, and no shorter than ever before. |
| `TailHeads.HeadIsKept` | crates/remuda-driver/src/claude_transcript.rs:1163-1194 | A head taken from some content is checked as its first 8192 bytes at every later poll: until the next discontinuity all files begin with them, and a poll that finds another head returns nothing. |
| `TailHeads.RewriteAfterCapture` | crates/remuda-driver/src/claude_transcript.rs:1163-1194 | A file rewritten within its first 8192 bytes since a boundary was captured, proven or not, returns no lines as `Unverified`. |
| `TailHeads.RewriteAfterDisplacement` | crates/remuda-driver/src/claude_transcript.rs:1178-1236 | The head adopted with a new file is checked in the same way. |
| `TailHeads.HeadAtCapture` | crates/remuda-driver/src/claude_transcript.rs:618-630 | A boundary has no head to check if and only if the file held something that could not be read. |
| `TailHeads.UnprovenResumesStartAtEnd` | crates/remuda-driver/src/claude_transcript.rs:705-714 | An explicit resume of a transcript that exists, and a rebind to one that is not empty, return exactly the lines appended after the report. |
| `TailHeads.LateBindStartsAtEnd` | crates/remuda-driver/src/claude_transcript.rs:933-945 | A resume without a transcript waits for it and then returns exactly the lines appended after the bind. |
| `TailHeads.FollowsAfterDisplacement` | crates/remuda-driver/src/claude_transcript.rs:1176-1254 | After a discontinuity the follower goes on: as long as the file found then only grows, exactly the lines appended to it are returned. |
| `TailHeads.LiveTruncationRestarts` | crates/remuda-driver/src/claude_transcript.rs:1272-1276 | A live follower that finds a shorter file returns from then on what a new follower would, in every run. |
| `TailHeads.UnreadPolls` | crates/remuda-driver/src/claude_transcript.rs:1131-1148 | A file that cannot be opened changes nothing; a missing one is an error to a live follower and closes the gate of a resumed one without moving it. |
| `TailHeads.ReopensExactly` | crates/remuda-driver/src/claude_transcript.rs:1006-1066 | An anchor is captured and reopens if and only if both times the file is there, is the one tracked, and holds every byte already read. |
| `TailHeads.ReopenedState` | crates/remuda-driver/src/claude_transcript.rs:1057-1100 | Reopening keeps place, held line, identity and head; a resumed follower that was not trusted comes back displaced. |
| `TailHeads.WithdrawnState` | crates/remuda-driver/src/claude_transcript.rs:801-805 | A withdrawn anchor of a resumed follower reopens displaced and unverified at its place. |
| `RecordGroup.RecordGroup.constructor` | crates/remuda-driver/src/claude_transcript_records.rs:216-256 | A new group holds nothing. |
| `RecordGroup.RecordGroup.StartRun` | crates/remuda-driver/src/claude_transcript_records.rs:292-314 | Starting a run resets the group and notes the record's usage and stop reason. |
| `RecordGroup.RecordGroup.NoteRecordUsage` | crates/remuda-driver/src/claude_transcript_records.rs:344-365 | An object-shaped usage is merged into what is held, with the record's time and position. |
| `RecordGroup.RecordGroup.PushRecord` | crates/remuda-driver/src/claude_transcript_records.rs:317-340 | Pushing folds usage and stop reason and buffers the blocks in arrival order. |
| `RecordGroup.RecordGroup.Buffer` | crates/remuda-driver/src/claude_transcript_records.rs:336-340 | The block loop appends exactly the record's entries. |
| `RecordGroup.RecordGroup.Drain` | crates/remuda-driver/src/claude_transcript_records.rs:369-384 | A drain takes all buffered blocks, sorted, under the retained envelope, and nothing else. |
| `RecordGroup.RecordGroup.TakePendingUsage` | crates/remuda-driver/src/claude_transcript_records.rs:411-440 | Taking usage publishes what is held once and keeps the run. |
| `RecordGroup.BatchesConserve` | crates/remuda-driver/src/claude_transcript_records.rs:344-440 | For any schedule every usage report is in exactly one batch or still held, in order. |
| `RecordGroup.SnapshotsAreBatches` | crates/remuda-driver/src/claude_transcript_records.rs:344-440 | Each published snapshot is the merge of its own batch, at the position of the batch's last report; what is held is the merge of the rest. |
| `RecordGroup.PositionsIncrease` | crates/remuda-driver/src/claude_transcript_records.rs:411-440 | For records at increasing positions the snapshots' positions strictly increase. |
| `RecordGroup.UsageScheduleIrrelevant` | crates/remuda-driver/src/claude_transcript_records.rs:292-440 | For agreeing reports and any interleaving of takes, merging the snapshots and then what is held equals merging all reports. |
| `RecordGroup.UsageNamesRun` | crates/remuda-driver/src/claude_transcript_records.rs:411-440 | Every snapshot of a run names the message, request and model of the run's first record. |
| `RecordGroup.ReportedExactly` | crates/remuda-driver/src/claude_transcript_records.rs:344-365 | The reports are exactly the object-shaped usages of the records pushed, with their position and time. |
| `RecordGroup.KeysExact` | crates/remuda-driver/src/claude_transcript_records.rs:151-166 | Two records belong to one message if and only if message id, request id and parent agree; without a message id a record belongs to none. |
| `GroupContent.SortedExact` | crates/remuda-driver/src/claude_transcript_records.rs:378 | A drain's order is a permutation of its blocks by block index, a missing one counting as zero, and then by arrival. |
| `GroupContent.CutsConserve` | crates/remuda-driver/src/claude_transcript_records.rs:317-384 | Every pushed block is drained exactly once or still buffered, in order. |
| `GroupContent.PushedExact` | crates/remuda-driver/src/claude_transcript_records.rs:336-340 | Every buffered block has its record's block index, and arrival counts on from block to block over the run. |
| `GroupContent.PushedBlocks` | crates/remuda-driver/src/claude_transcript_records.rs:336-340 | The blocks buffered are the content of the records pushed, in order, and no others. |
| `GroupContent.DrainsAreCuts` | crates/remuda-driver/src/claude_transcript_records.rs:317-384 | For any schedule each drain carries exactly the blocks of its own batch, by block index and then arrival, under the envelope of the record that brought the batch's first block. |
| `GroupContent.LaterDrainsLaterRecords` | crates/remuda-driver/src/claude_transcript_records.rs:317-384 | Drains share no record, and a later drain carries only later records. |
| `GroupContent.NoDrainLost` | crates/remuda-driver/src/claude_print_stream.rs:369-375 | With distinct record uuids no drained message is dropped by the snapshot-uuid dedup. |
| `RecordPump.RecordPump.constructor` | crates/remuda-driver/src/claude_print.rs:7867-7906 | A new pump has an empty group. |
| `RecordPump.RecordPump.Flush` | crates/remuda-driver/src/claude_print.rs:7867-7898 | A flush drains content and publishes usage under the trigger's own condition. |
| `RecordPump.RecordPump.MapAssistantRecord` | crates/remuda-driver/src/claude_print.rs:8851-8876 | A record continues its run, or supersedes it and starts the next; one without a message id is passed through. |
| `RecordPump.SupersedeEmpties` | crates/remuda-driver/src/claude_print.rs:7900-7906 | A superseding flush leaves no block and no counter for the next start to clear. |
| `RecordPump.StartNotesOnce` | crates/remuda-driver/src/claude_print.rs:8872-8875 | Starting and then pushing the same record counts its usage once. |
| `RecordPump.CoherentStep` | crates/remuda-driver/src/claude_print.rs:8851-8876 | Every pump step keeps the group coherent. |
| `RecordPump.PumpBatchesConserve` | crates/remuda-driver/src/claude_print.rs:7867-7906 | The cutting of reports at supersedes, stops and finishes loses, repeats and reorders none. |
| `RecordPump.PumpPublishesBatches` | crates/remuda-driver/src/claude_print.rs:7867-7906 | Over any input and poll schedule the published snapshots are one for one the merges of those batches, and every batch holds only reports of records of the snapshot's own message. |
| `RecordPump.FinishedInputPublishesAll` | crates/remuda-driver/src/claude_print.rs:7871-7876 | For every input, whatever it starts with: after a finish the snapshots are exactly those of its batches, the batches together are all grouped reports in order, and each holds only its own message's. |
| `RecordPump.GroupedExactly` | crates/remuda-driver/src/claude_print.rs:8851-8876 | The grouped reports are exactly the object-shaped usages of the records with a message id. |
| `PumpMessages.MessageUsage` | crates/remuda-driver/src/claude_print.rs:7867-7906 | For every message of any input, merging its published snapshots equals merging all of its reports, wherever the polls fall. |
| `PumpMessages.PollsIrrelevant` | crates/remuda-driver/src/claude_print.rs:7867-7876 | Two inputs that differ only in where the polls fall deliver the same merged usage for every message. |
| `PumpMessages.ContentConserved` | crates/remuda-driver/src/claude_print.rs:7882-7898 | From any coherent group and over any input, the blocks delivered under a message and those still buffered are the blocks of that message's records; records without a message id pass through in order. |
| `PumpMessages.FinishedInputDeliversAll` | crates/remuda-driver/src/claude_print.rs:7871-7876 | A finished input delivers every block of every message exactly once, under that message. |
| `StreamMapper.StreamMapper.constructor` | crates/remuda-driver/src/claude_print_stream.rs:13-44 | A new mapper has no active message, block or snapshot. |
| `StreamMapper.StreamMapper.StopBlocks` | crates/remuda-driver/src/claude_print_stream.rs:290-329 | The stop loop closes exactly the open blocks the event names, in index order. |
| `StreamMapper.StreamMapper.MapStreamEvent` | crates/remuda-driver/src/claude_print_stream.rs:168-331 | A stream event changes the active message's blocks and emits mutations as specified. |
| `StreamMapper.StreamMapper.MapAssistantMessage` | crates/remuda-driver/src/claude_print_stream.rs:365-481 | A snapshot is deduplicated by uuid and each item is reconciled with a block as specified. |
| `StreamContent.BlockHears` | crates/remuda-driver/src/claude_print_stream.rs:261-289 | Over any frames that leave it in place, a block has grown by exactly the text, thinking or input deltas of its own kind that name its index while its message is streamed, in order. |
| `StreamContent.ConsumerHears` | crates/remuda-driver/src/claude_print_stream.rs:231-289 | From the first frame on: after a block start and any such frames, folding the node's mutations gives the start's text followed by every delta that named it; for a tool, all its input deltas. |
| `StreamContent.StartStores` | crates/remuda-driver/src/claude_print_stream.rs:231-256 | A started block holds the value of its start, open, unlisted and in the final phase. |
| `StreamContent.AscendingAlways` | crates/remuda-driver/src/claude_print_stream.rs:168-481 | In every state the blocks of every message are kept by ascending index. |
| `StreamRules.DeltaEmitsExactly` | crates/remuda-driver/src/claude_print_stream.rs:261-286 | A delta that says something to its block emits exactly that, as the opening or an append; any other emits nothing and changes nothing. |
| `StreamRules.StartEmitsExactly` | crates/remuda-driver/src/claude_print_stream.rs:239-255 | A start is silent if and only if it is a text or thought with nothing in it; any other opens its node with its whole content. |
| `StreamRules.NothingToDo` | crates/remuda-driver/src/claude_print_stream.rs:188-191 | A delta for no block, and any event but a start while no message is streamed, does nothing. |
| `StreamRules.StopExactly` | crates/remuda-driver/src/claude_print_stream.rs:290-322 | A stop closes exactly the open blocks it names, a streamed tool with the parse of its input, tells the consumer of each, and leaves the others as they are. |
| `StreamRules.StopsOwnMessage` | crates/remuda-driver/src/claude_print_stream.rs:323-329 | Stops concern the streamed message, and only the stop of the message ends it. |
| `StreamRules.ItemTakesFirst` | crates/remuda-driver/src/claude_print_stream.rs:407-446 | A listed item goes to the first block of its tool, or of its kind and not listed before, which keeps its node. |
| `StreamRules.ItemAppends` | crates/remuda-driver/src/claude_print_stream.rs:418-446 | An item no block can be becomes a new block after the last one, under the tool's node or a fresh one. |
| `StreamRules.ItemsInOrder` | crates/remuda-driver/src/claude_print_stream.rs:390-404 | Items are applied one after the other, and those of an unknown kind are passed over. |
| `StreamRules.PhaseExactly` | crates/remuda-driver/src/claude_print_stream.rs:388-432 | Every message a snapshot emits is commentary if and only if the snapshot lists a tool or its message already has one. |
| `StreamRules.RepeatedSnapshotIgnored` | crates/remuda-driver/src/claude_print_stream.rs:369-375 | A snapshot with a uuid seen before changes nothing, whatever it lists. |
| `StreamRevisions.EmitWhole` | crates/remuda-driver/src/claude_print_stream.rs:61-144 | Emitting a block's whole content extends the revision chain and keeps the consumer's fold equal to the block. |
| `StreamRevisions.EmitDelta` | crates/remuda-driver/src/claude_print_stream.rs:226-289 | Emitting only a delta does so as well, by appending. |
| `StreamRevisions.StopParsesDeltas` | crates/remuda-driver/src/claude_print_stream.rs:290-329 | A stop closes a streamed tool call with the parse of exactly the deltas the consumer saw, or with missing input when they do not parse. |
| `StreamRevisions.FrameKeeps` | crates/remuda-driver/src/claude_print_stream.rs:168-481 | Every frame keeps the invariant: each live block agrees with the log and no node has two blocks. |
| `StreamRevisions.RevisionsAndFolds` | crates/remuda-driver/src/claude_print_stream.rs:61-144 | Over any frames that open no second block for a tool, every node's mutations carry revisions 1, 2, 3, … with base the previous one and one opening, and fold to the block: its text or thinking, its kind and phase, and for a tool its name, its input and its streamed input. |
| `StreamRevisions.RevisionsExact` | crates/remuda-driver/src/claude_print_stream.rs:147-162 | All nodes' revisions are chains if and only if no tool that had a block is given another. |
| `StreamRevisions.SecondBlockRestarts` | crates/remuda-driver/src/claude_print_stream.rs:147-162 | A concrete run from the empty mapper, two block starts with one tool id, emits revision 1 of that node twice. |
| `StreamSnapshots.ItemBinds` | crates/remuda-driver/src/claude_print_stream.rs:407-446 | Item k finds block k whatever was bound before it, and creates nothing. |
| `StreamSnapshots.SamePhase` | crates/remuda-driver/src/claude_print_stream.rs:386-406 | Every frame of a split gives its items the phase the whole list would. |
| `StreamSnapshots.SplitIrrelevant` | crates/remuda-driver/src/claude_print_stream.rs:386-446 | However the list is split into frames with distinct uuids, item i is bound to block i, no node is created, and state and mutations are those of one frame. |
| `StreamSnapshots.SnapshotFolds` | crates/remuda-driver/src/claude_print_stream.rs:386-446 | After the split snapshot every node keeps its id and folds to the listed value: its text or thinking, and for a tool its name and input. |
| `StreamParents.OwnFrame` | crates/remuda-driver/src/claude_print_stream.rs:168-481 | A parent's own frame does the same, up to renaming of fresh ids, in the whole run as in the parent's run alone. |
| `StreamParents.OtherFrame` | crates/remuda-driver/src/claude_print_stream.rs:168-481 | Another parent's frame changes nothing the parent can see. |
| `StreamParents.FrameStamped` | crates/remuda-driver/src/claude_print_stream.rs:61-144 | Whatever a frame emits names its own parent and native message, and nothing is closed while incomplete. |
| `StreamParents.ParentsDoNotInterfere` | crates/remuda-driver/src/claude_print_stream.rs:168-331 | From any similar states and for any interleaving, a parent's mutations are those of its frames alone under an order-preserving renaming of fresh ids. |
| `StreamParents.EachParentAlone` | crates/remuda-driver/src/claude_print_stream.rs:168-331 | The same from the start, whenever no other parent uses one of its snapshot uuids. |
| `StreamParents.SharedUuidInterferes` | crates/remuda-driver/src/claude_print_stream.rs:369-375 | With a shared uuid the parent's snapshot is dropped, so the condition is needed. |
| `LineCodec.BufferedReader.constructor` | crates/remuda-claude-wire/src/codec.rs:34-42 | A reader's unread stream is the concatenation of its fills. |
| `LineCodec.BufferedReader.FillBuf` | crates/remuda-claude-wire/src/codec.rs:41-42 | Filling shows a prefix of the stream, empty only at its end, and consumes nothing. |
| `LineCodec.BufferedReader.Consume` | crates/remuda-claude-wire/src/codec.rs:57-67 | Consuming drops exactly that many bytes. |
| `LineCodec.GatherLine` | crates/remuda-claude-wire/src/codec.rs:38-67 | The inner loop gathers one raw line, reports an over-long one, and tells the end apart. |
| `LineCodec.ReadRawLine` | crates/remuda-claude-wire/src/codec.rs:34-76 | For every way the fills cut the stream the result is the next non-empty line less one trailing CR, an error exactly for a reached line over the limit, none at the end. |
| `LineCodec.ReadFrames` | crates/remuda-claude-wire/src/process.rs:682-698 | The reader task hands on the frames of the stream until its end, an over-long line or a line that is not JSON. |
| `LineCodec.FramesAreParsedLines` | crates/remuda-claude-wire/src/codec.rs:79-97 | The frames are the lines up to the first that does not parse, and the stream ends cleanly if and only if every line parses and none is too long. |
| `LineCodec.EncodedStreamReadsBack` | crates/remuda-claude-wire/src/codec.rs:13-17 | A stream of encoded frames reads back frame for frame and ends cleanly if and only if all are within the limit. |
| `LineCodec.LinesAreWhole` | crates/remuda-claude-wire/src/codec.rs:34-76 | Every line handed out is non-empty, holds no newline and is within the limit. |
| `LineCodec.CrLineReadsBack` | crates/remuda-claude-wire/src/codec.rs:68-70 | One carriage return before the newline is removed, and only one. |
| `LineCodec.BlankLinesSkipped` | crates/remuda-claude-wire/src/codec.rs:71-73 | Blank lines, with or without a carriage return, are skipped. |
| `LineCodec.LastLineReads` | crates/remuda-claude-wire/src/codec.rs:43-48 | A last line without a newline is read as well. |
| `StdinWriter.ProcessWriter.constructor` | crates/remuda-claude-wire/src/process.rs:637 | A new writer has an empty queue and runs. |
| `StdinWriter.ProcessWriter.Send` | crates/remuda-claude-wire/src/process.rs:436-438 | A call is accepted at the end of the queue when there is room and nobody waits before it, waits in line otherwise, and fails once the writer has ended. |
| `StdinWriter.ProcessWriter.AdmitWaiting` | crates/remuda-claude-wire/src/process.rs:436-438 | When there is room the first waiting call is accepted. |
| `StdinWriter.ProcessWriter.HandleWriterCmd` | crates/remuda-claude-wire/src/process.rs:379-421 | One command is written, acknowledged or closes the pipe; the result says whether the writer goes on. |
| `StdinWriter.ProcessWriter.WriteLine` | crates/remuda-claude-wire/src/codec.rs:20-28 | A line is written whole, or cut where the pipe failed. |
| `StdinWriter.ProcessWriter.WriterTask` | crates/remuda-claude-wire/src/process.rs:644-665 | The writer loop takes commands in order until it stops or runs dry. |
| `StdinWriter.WriteKeeps` | crates/remuda-claude-wire/src/process.rs:379-421 | Taking a command keeps the FIFO invariant; the writer goes on if and only if a whole line was written; a cut line leaves exactly the bytes the pipe took; exactly a user turn whose caller waits is told, that it was written or that it failed. |
| `StdinWriter.WireIsAcceptedOrder` | crates/remuda-claude-wire/src/process.rs:379-421 | In every reachable state the wire is the accepted commands in order, cut at the first close or failed write; a running writer has exactly the rest queued; Ok is sent for exactly the written user turns whose caller waits. |
| `StdinWriter.FromSpawn` | crates/remuda-claude-wire/src/process.rs:637-665 | The same for every run from the spawn. |
| `StdinWriter.GoodRunWritesAll` | crates/remuda-claude-wire/src/process.rs:637-665 | While the pipe takes every line and nobody closes it the writer runs on, everything no longer queued is on the wire whole, and every user turn among it whose caller waits has its Ok. |
| `StdinWriter.DrainWritesAll` | crates/remuda-claude-wire/src/process.rs:644-665 | As many takes as there are commands queued leave none, with all accepted lines on the wire. |
| `StdinWriter.CallOutcome` | crates/remuda-claude-wire/src/process.rs:436-438 | A call is accepted at once if and only if the writer runs, fewer than 64 commands are queued and nobody waits; it fails if and only if the writer has stopped. |
| `StdinWriter.QueueBounded` | crates/remuda-claude-wire/src/process.rs:637 | In every reachable state at most 64 commands are queued. |
| `StdinWriter.OkMeansWritten` | crates/remuda-claude-wire/src/process.rs:473-490 | An Ok acknowledgement means that line and every line accepted before it are on the wire. |
| `StdinWriter.StoppedForGood` | crates/remuda-claude-wire/src/process.rs:436-438 | A stopped writer admits, writes and acknowledges nothing in any later run. |
| `StdinWriter.AcksStay` | crates/remuda-claude-wire/src/process.rs:396-411 | An acknowledgement is never changed by a later step. |
| `StdinWriter.DroppedCallersStillWritten` | crates/remuda-claude-wire/src/process.rs:487-499 | Callers that go away at any time change neither what is accepted nor what is written. |
| `StdinWriter.NoOvertaking` | crates/remuda-claude-wire/src/process.rs:423-438 | Over any run calls are accepted in the order they were made, however long an earlier one waited for room, so a control command is never written behind a later prompt. |
| `StdinWriter.AbandonedNeverAccepted` | crates/remuda-claude-wire/src/process.rs:478-499 | A call dropped before it was accepted is never accepted, hence never written, in any later run. |
| `StdinWriter.ReaderSeesAcceptedOrder` | crates/remuda-claude-wire/src/process.rs:637-665 | The line reader at the other end gets the payloads of the accepted commands, frame for frame, in order. |
| `Handshake.HandshakeTask.constructor` | crates/remuda-claude-wire/src/process.rs:716-723 | A new handshake waits with nothing buffered. |
| `Handshake.HandshakeTask.ReadOutbound` | crates/remuda-claude-wire/src/process.rs:682-698 | The reader hands a frame on while anybody listens, and stops otherwise. |
| `Handshake.HandshakeTask.Await` | crates/remuda-claude-wire/src/process.rs:722-751 | The handshake loop buffers until the reply, success, error or end of stream. |
| `Handshake.HandshakeTask.Replay` | crates/remuda-claude-wire/src/process.rs:766-777 | The replay sends what was buffered and then what arrives, until the consumer is gone. |
| `Handshake.RunConserves` | crates/remuda-claude-wire/src/process.rs:722-777 | In every reachable state published, buffered and queued frames together are the raw output; the phase is decided by its first reply. |
| `Handshake.PublicIsPrefixOfRaw` | crates/remuda-claude-wire/src/process.rs:722-777 | For every schedule the public output is a prefix of the raw output, is empty until the request is granted and always empty when refused, and is complete when the replay ended with its consumer there. |
| `Handshake.AwaitDecides` | crates/remuda-claude-wire/src/process.rs:722-751 | The outcome is success, failure, end of stream or further waiting exactly as the first queued reply says. |
| `Handshake.ReplayPublishesAll` | crates/remuda-claude-wire/src/process.rs:766-777 | With its consumer there a replay publishes everything buffered and queued, in order. |
| `Handshake.FirstReplyExactly` | crates/remuda-claude-wire/src/process.rs:728-741 | The reply is the first success or failure that carries the request's own id. |
| `Handshake.ReceiveExactly` | crates/remuda-claude-wire/src/process.rs:724-747 | While waiting, the reply decides; every other frame, a response to another request included, is buffered. |
| `Handshake.TimeoutExactly` | crates/remuda-claude-wire/src/process.rs:751-764 | A handshake not answered in time fails with its frames dropped; later a timeout has no effect. |
| `Handshake.OverForGood` | crates/remuda-claude-wire/src/process.rs:687-689 | Once failed or ended nothing more is taken or published, the outcome stands, and the reader ends with the next frame it reads. |
| `Handshake.ReaderEndedForGood` | crates/remuda-claude-wire/src/process.rs:682-698 | An ended reader hands nothing on in any later run. |
| `Handshake.NothingAfterDrop` | crates/remuda-claude-wire/src/process.rs:766-777 | With its consumer gone a replay publishes nothing more and ends as soon as it has something to publish. |
| `PeerTable.IdFollows` | crates/remuda-codex-wire/src/peer.rs:74-76 | Ids start at 1 and each follows the one before, wrapping at 64 bits. |
| `PeerTable.IdsRepeatExactly` | crates/remuda-codex-wire/src/peer.rs:74-76 | Two requests share an id if and only if a multiple of 2^64 apart; within 2^64 requests ids are never reused. |
| `PeerTable.JsonRpcPeer.constructor` | crates/remuda-codex-wire/src/peer.rs:61-65 | A new peer has no request and counts from 1. |
| `PeerTable.JsonRpcPeer.NextRequestId` | crates/remuda-codex-wire/src/peer.rs:74-76 | Taking an id numbers the request and advances the wrapping counter. |
| `PeerTable.JsonRpcPeer.EnterRequest` | crates/remuda-codex-wire/src/peer.rs:104-105 | A request enters the table under its id. |
| `PeerTable.JsonRpcPeer.WithdrawRequest` | crates/remuda-codex-wire/src/peer.rs:106-109 | A failed send removes the entry. |
| `PeerTable.JsonRpcPeer.Resolve` | crates/remuda-codex-wire/src/peer.rs:152-158 | A response goes to the waiter under its id and removes it; an unknown id does nothing. |
| `PeerTable.JsonRpcPeer.DrainPending` | crates/remuda-codex-wire/src/peer.rs:145-150 | Draining in any order tells every waiter once that the peer is closed and empties the table. |
| `PeerTable.StepSeenByOne` | crates/remuda-codex-wire/src/peer.rs:88-158 | Each step changes what one request sees of the table exactly as it would alone, and keeps at most one message per request. |
| `PeerTable.TableIsManyFates` | crates/remuda-codex-wire/src/peer.rs:88-224 | Over any run of at most 2^64 requests, each request's view of the shared table is its own one-request machine: only its steps, responses with its id, and closing matter. |
| `PeerTable.FromSpawn` | crates/remuda-codex-wire/src/peer.rs:88-224 | The same from the spawn, with at most one message per request. |
| `PeerTable.ResponseMatters` | crates/remuda-codex-wire/src/peer.rs:152-158 | While the reader runs, in every reachable state of up to 2^64 requests, a response changes the table if and only if its request is waiting: for one never made, withdrawn or already answered it changes nothing. |
| `PeerTable.ResponseDelivered` | crates/remuda-codex-wire/src/peer.rs:152-158 | A response is what its waiting request gets, and no other request sees it. |
| `PeerTable.EnterDisplacesExactly` | crates/remuda-codex-wire/src/peer.rs:104-105 | Entering displaces another waiter if and only if a multiple of 2^64 requests apart. |
| `PeerTable.DisplacementReached` | crates/remuda-codex-wire/src/peer.rs:104-105 | A run from the spawn in which the first request waits while 2^64 more take ids, and is pushed out unanswered. |
| `PeerTable.AnsweredForGood` | crates/remuda-codex-wire/src/peer.rs:110-119 | The answer a request got stays its answer in every later run. |
| `PeerTable.ReaderEndCloses` | crates/remuda-codex-wire/src/peer.rs:145-150 | The end of the reader answers everything pending as closed. |
| `PeerTable.LateRequestReached` | crates/remuda-codex-wire/src/peer.rs:104-105 | Such a request is reached from the spawn: reader end, then a request that enters the table and waits. |
| `PeerTable.LateRequestWaits` | crates/remuda-codex-wire/src/peer.rs:104-119 | After the reader ended, and over any run, a waiting request still waits if and only if no shutdown happened and its own send did not fail under its caller; it is answered if and only if a shutdown came before that, and then as closed. |
| `Affected.FirstNamedExact` | scripts/ci/affected.py:49-50 | The ledger owner is the first package of that name, none when there is none. |
| `Affected.DirectoriesExact` | scripts/ci/affected.py:29-33 | The directory list holds exactly the packages below the workspace root, each with its directory. |
| `Affected.OwnerIsDeepest` | scripts/ci/affected.py:29-35 | A path is owned by the crate whose directory is the deepest that contains it, the first of several in one directory; by none when none contains it. |
| `Affected.SomeDeepest` | scripts/ci/affected.py:54-55 | A path that some crate directory contains has a deepest one, hence an owner. |
| `Affected.OwnedByDeepest` | scripts/ci/affected.py:37-57 | A relative path that is neither shared nor a ledger touches exactly the crate in the deepest directory around it. |
| `Affected.BuildReverse` | scripts/ci/affected.py:65-71 | The reverse map holds exactly the resolved dependency edges. |
| `Affected.ListOf` | scripts/ci/affected.py:72 | The worklist starts with exactly the changed packages. |
| `Affected.CloseUnderDependents` | scripts/ci/affected.py:72-76 | The worklist terminates with exactly the packages that reach a changed one through dependencies. |
| `Affected.SelectIds` | scripts/ci/affected.py:25-78 | The path loop, the reverse map and the worklist together compute the specified outcome on package ids. |
| `Affected.SortedNames` | scripts/ci/affected.py:77 | The names are in order, and each occurs as often as selected packages go by it. |
| `Affected.NameExactly` | scripts/ci/affected.py:27 | The name under an id is that of the last package with the id. |
| `Affected.AtMostExactly` | scripts/ci/affected.py:77 | One name comes before another where they first differ, or when it ends there. |
| `Affected.SelectCrates` | scripts/ci/affected.py:18-78 | The whole selection, error cases and reasons included, equals its specification, with the names of exactly the selected crates in order. |
| `AffectedExact.SelectionExact` | scripts/ci/affected.py:36-78 | For relative paths: if one is one of the four shared files, or no ledger, in no package, not under docs, web or skills and no top-level markdown, every member is selected; otherwise exactly the members that reach a touched package, where a ledger touches the first packages of its crates' names and any other path its deepest package. |
| `AffectedExact.SelectionMonotone` | scripts/ci/affected.py:36-78 | More relative paths select more crates. |
| `AffectedExact.OrderIrrelevant` | scripts/ci/affected.py:37-64 | Order and repetition of relative paths do not matter. |
| `AffectedExact.JudgeExactly` | scripts/ci/affected.py:37-64 | One relative path is judged exactly by those rules. |
| `AffectedExact.FirstReason` | scripts/ci/affected.py:41-64 | The first path that selects everything decides and is the reason given, whatever comes after it. |
| `AffectedExact.LastReason` | scripts/ci/affected.py:78 | Without such a path the reason tells whether anything is affected. |
| `AffectedExact.OutsideRejected` | scripts/ci/affected.py:39-40 | The first absolute path or path with a parent step is an error, unless one before it selected everything. |
| `AffectedExact.MissingRejected` | scripts/ci/affected.py:28 | A workspace member without a package is an error before anything else, and only that is this error. |

## Left out

- Head fingerprints are compared as the fingerprinted bytes: hash collisions are not modelled.
- A transcript or rollout poll sees one content of the file: a file that changes between the metadata call and the read, and I/O errors after a successful open, are not modelled.
- File positions and lengths are unbounded; the program's are 64-bit. The block index after the last one wraps at 32 bits, as in a release build.
- Binding a transcript or rollout to a process (pid file, hook report, argv, directory scan): file system lookups with little algorithm.
- StreamMapper.StreamMapper.MapStreamEvent: states the node mutations only; opaque and usage observations are other outputs of the same function.
- StreamMapper.StreamMapper.MapAssistantMessage: states the node mutations only; opaque and usage observations and the set of top-level plan exits are other outputs of the same function.
- Result deferral and native-id scoping in the stream mapper: ids are a counter for fresh ones and the native id for tools.
- Parsing of JSON text: a finite table of which texts parse and to what. Records and frames are given with the members the code reads.
- The public inbound queue in front of the writer, and the stdin writer ending when every sender is dropped.
- Capacities of the output channels, timeouts as durations, process spawning, signals and kill ladders: effects of the operating system.
- Serialization of requests and decoding of responses in the JSON-RPC peer: outcomes of steps; notifications and server requests do not touch the pending table.
- Normalization of paths and of the crate directories: given as lists of parts.
- Codex rollout parsing, capability tables, the binary pin cache, the web client and the other scripts: finite tables, I/O or user interface.
