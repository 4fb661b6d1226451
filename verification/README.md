# Durable state in harnesst

A Dafny model of the parts of harnesst that keep durable state right while streams drop, writers race and
work is retried, with proofs of what every run keeps. `dafny verify dfyconfig.toml` checks it.

Code that works step by step is a class or a method with loops, proved equal to a specification function
(`DrainTurnStream`, `FollowDrain`, `PutAsset`, `Sync`, ...); the theorems are lemmas about those functions and
about state machines whose moves are every order of events, failures and other people's writes.

| files | what they model |
|---|---|
| Prelude, Text | options, sequences, the JavaScript string operations used |
| Reasoning, TurnEvents, TurnDrain | one drain of an eve event stream, with its carried state |
| TurnFollow, TurnChunks, TurnSlicing, TurnTraces, TurnRecord, TurnEnding, Utf8, Ndjson | following a lost stream: equal to one uncut pass, however it is cut and chunked, recorded as it was shown, and it ends |
| TurnSend, SessionRow, SessionRuns | sending a turn, and the session row it writes: succession, fencing, refusals |
| Base64, AssetPolicy, AssetStore, AssetOps, AssetLaws, AssetJson, AssetWriters, AssetHistory | the repository-backed asset library under concurrent writers |
| MergePlan, Approvals, ApprovalRuns | approving and merging pull requests |
| CheckoutPlan, CheckoutSidecar, CheckoutSync, CheckoutRuns | what the sidecar reports of a checkout, mirroring and staging it |
| UploadIndex, UserContent, SystemNotes, NoteLoops | chat attachments and notes |
| Provisioning | the assistant's three-strike circuit |

Where promise and code part, the model follows the code and the exact condition is a lemma:

- A follow slice and an uncut drain read an event alike unless it is an echo that names another turn or a second
  model report (`FollowedEventAgrees`); the one-pass theorem asks that no such event comes after a cut, and each of
  the two alone breaks it (`RepeatedModelDiverges`, `RepeatedEchoDiverges`).
- A succession is all-or-nothing unless its rebind finds the row archived: `bindSuccessorSessionHandles` is fenced
  on the archive flag, `savePlaygroundSessionProgress` is not. The row is then half moved exactly from the next save
  or settling that writes (`SuccessionIsHalvedExactly`). It takes a row settled as abandoned and archived while its
  turn still runs (`ArchivedSuccessionIsHalved`).
- The result flag `notDelivered` is documented as "the agent was never contacted"; the code also sets it for
  refused or failed requests that carried files or answers (`AnsweredYetUndelivered`, `FileRefusedByServer`).
- A put can lock its own asset: a stored path through a directory called `manifest.json` is later taken for another
  asset (`UpdatableExactly`, `PutLocksItself`). A put whose manifest exceeds 128 KiB cannot be read back; only the
  writer's names and a stored creation date can make it so long (`GetAfterPut`, `ShortNamesAreReadBack`,
  `LongNameIsUnreadable`).
- A skip by equal hash can be stale after another plan was mirrored and its sync failed (`SkipCanBeStale`); when it
  is right is `SkipIsRightExactly`.
- The upload index loses entries exactly when a call writes after failing to read a non-empty index
  (`NothingIsLostExactly`), because a read that fails counts as an empty index.
- De-fanging notes is one pass, so a marker split around another one survives it (`RemovalCanRestore`). Notes without
  a start marker then stay hidden exactly if no line after the first starts with the end marker; any notes, exactly if
  their block alone is stripped to nothing, unless a line of the message starts with the end marker
  (`NotesHiddenExactly`, `NoteShows`). Both conditions are needed: the second round can hide what the first let
  through, and so can the message (`SecondRoundHides`, `MessageHidesNotes`).
- `failed` is called permanent in the approval row; it lasts exactly if no other attempt is past its claim and
  not yet refused (`FailureLastsExactly`, `FailureCanBeUndone`).
- The circuit allows three attempts when the sends of one environment come one at a time; `n` at once make it `n + 2`
  (`CircuitAndJobs`, `StaleCountsReachBound`). A deploy job has one attempt, and one that throws before it takes its
  row over leaves that row in flight with no job: from then on the environment only waits (`LostJobBlocks`,
  `EndsExactly`).

The hashed plan is injective for text without NULs. The sidecar reports none, since a body with a zero byte is
binary to it (`ReportIsClean`); only another reporter could send a content made of the deletion mark, which would
collide (`NulContentPassesForDeletion`).

What the environment is relied on for: an update guarded by a condition is atomic; GitHub moves a branch only if
the head is the expected one, merges only at the sha asked for, and a merged pull request keeps its head; the ledger
takes one decision per request and a request's action never changes; a promise callback runs after the promise it
was chained to; JSON text of a manifest parses back to it; SHA-256 is a function, assumed injective only in
`StoredHashMeansDone` and `ReportedHashMeansDone`; UTF-8 decodes U+0000 only from a zero byte, and encodes character
by character in one to four bytes; clocks do not go back and an unstopped sleep lasts.

## Model

| member | source | states |
|---|---|---|
| TurnDrain.TurnReader.Process | app/agent/talk.server.ts:1082-1335 | One event moves the reader's fields exactly as the fold does: counted, adopted or matched to the turn, then folded by kind |
| TurnDrain.TurnReader.OnActionsRequested | app/agent/talk.server.ts:1159-1179 | Requested actions are added to the sequence's shared list and found again by call id |
| TurnDrain.TurnReader.OnActionResult | app/agent/talk.server.ts:1180-1205 | A result completes the recorded action in place, so steps already pushed show it |
| TurnDrain.TurnReader.OnStepDone | app/agent/talk.server.ts:1226-1265 | A finished step takes usage, duration, failure and the sequence's first action, and shares its action list |
| TurnDrain.TurnReader.OnSessionStarted | app/agent/talk.server.ts:1122-1137 | The model is reported once a slice may take it, a dynamic one resolved against the sent text |
| TurnDrain.TurnReader.OnMessageReceived | app/agent/talk.server.ts:1138-1152 | Only a fresh echo of the sent message names the turn, announced once by the slice |
| TurnDrain.TurnReader.OnSessionWaiting | app/agent/talk.server.ts:1316-1333 | A waiting marker settles only a known turn with something to show, or fails it with its last step failure |
| TurnDrain.TurnReader.OnFailure | app/agent/talk.server.ts:1296-1312 | A failure settles the turn and keeps the step failure that explains it |
| TurnDrain.TurnReader.ReadAll | app/agent/talk.server.ts:1070-1336 | Reading stops with the chunk that settled the turn, and handles the rest of that chunk |
| TurnDrain.TurnReader.Close | app/agent/talk.server.ts:1337-1404 | Asked, settled, failed, cut and clean endings give the one result the ending calls for |
| TurnDrain.DrainTurnStream | app/agent/talk.server.ts:937-1404 | The drain equals its specification: what it yields, its result, and what it leaves in the shared carry |
| TurnFollow.FollowDrain | app/agent/talk.server.ts:828-925 | The follow loop equals the fold of its slices, whatever the clock, the health checks and the streams do |
| TurnChunks.DrainIsFold | app/agent/talk.server.ts:1074-1082 | A drain is the plain fold over the events it handled, which are whole chunks up to the settling one |
| TurnChunks.HandledReachesSettling | app/agent/talk.server.ts:1074-1082 | The chunk handled last is the one that holds the settling event |
| TurnChunks.ChunkingIrrelevant | app/agent/talk.server.ts:1063-1104 | Two batchings of the same events agree up to the settling event; what else one handles lies in that event's chunk |
| Ndjson.LineBuffer.Push | app/agent/talk.server.ts:1083-1104 | A chunk yields the lines it completes and leaves the unfinished rest in the buffer |
| Ndjson.SplitAppend | app/agent/talk.server.ts:1083-1104 | Splitting a buffer and what follows it can be done piece by piece |
| Ndjson.ChunksGiveCompleteLines | app/agent/talk.server.ts:1083-1104 | However the decoded text is chunked, the events are those of its complete lines, in order |
| Ndjson.TextChunkingIrrelevant | app/agent/talk.server.ts:1063-1104 | Every split of the same decoded text gives drains that agree up to the settling event |
| Utf8.TextDecoder.Decode | app/agent/talk.server.ts:1064-1082 | The incremental decoder goes on from where the last chunk left a character |
| Utf8.ChunksAddUp | app/agent/talk.server.ts:1064-1082 | The texts of the chunks add up to the text of all their bytes, wherever a character was cut |
| Utf8.SentTextComesOut | app/agent/talk.server.ts:1064-1082 | For every text and every split of its bytes, what is decoded is that text |
| Ndjson.ByteChunkingIrrelevant | app/agent/talk.server.ts:1063-1104 | Every split of the same bytes gives drains that agree up to the settling event |
| Ndjson.SentLinesAreRead | app/agent/talk.server.ts:1063-1104 | The events read are those of the lines sent, however their bytes were cut |
| TurnSlicing.FollowedEventAgrees | app/agent/talk.server.ts:911-923 | One event reads the same live and in a follow slice exactly unless it is an echo naming another turn or a second model report |
| TurnSlicing.SliceAgrees | app/agent/talk.server.ts:840-925 | One slice continues the uncut drain's state and yields what it would have yielded, if a slice after the turn was identified meets no event it reads differently |
| TurnSlicing.SlicedRunIsOnePass | app/agent/talk.server.ts:828-925 | Every run of slices, from any point, yields and reports what one drain of the events they delivered does, under that condition alone |
| TurnSlicing.CutMovesCursor | app/agent/talk.server.ts:913-923 | A followed cut moves the cursor by exactly the events its stream delivered |
| TurnSlicing.DeliveredIsLog | app/agent/talk.server.ts:913-923 | The slices of one durable log join up: no event is skipped and none is read twice |
| TurnSlicing.FollowDrainIsOnePass | app/agent/talk.server.ts:735-739 | A turn cut anywhere accumulates as if its stream had never dropped: same events, steps, reply, turn and cursor as one pass, unless a cut is followed by an echo naming another turn or another model report |
| TurnSlicing.PlainLogIsOnePass | app/agent/talk.server.ts:735-739 | In particular for every log with at most one echo and one model report past the cursor, wherever it is cut |
| TurnSlicing.RepeatedModelDiverges | app/agent/talk.server.ts:1122-1137 | A second model report alone, after a cut, is read differently by the follower |
| TurnSlicing.RepeatedEchoDiverges | app/agent/talk.server.ts:1138-1152 | So is an echo that names another turn, alone |
| TurnTraces.FollowedTurnAnnouncedOnce | app/agent/talk.server.ts:1141-1152 | However often its stream is lost, and whatever it is served, a followed send announces its turn at most once |
| TurnTraces.FoldKeepsReferences | app/agent/talk.server.ts:1159-1265 | No event leaves a step or a call id pointing at an action that does not exist |
| TurnTraces.LateResultReachesStep | app/agent/talk.server.ts:1180-1262 | A result that arrives after its step was pushed shows in that step |
| TurnRecord.FoldRecorded | app/agent/talk.server.ts:1153-1295 | One event of the turn shows the viewer exactly what it adds to the record: steps in order, questions, tool calls, live text, reasoning |
| TurnRecord.ShownIsRecorded | app/agent/talk.server.ts:828-1404 | Across every reattach, what was yielded along the way is what the result records, and the reply is its messages placed among its steps |
| TurnEnding.FruitlessRunTakesTime | app/agent/talk.server.ts:886-890 | Consecutive slices without progress cost at least the smaller of the current pause and five seconds each |
| TurnEnding.FruitlessRunIsShort | app/agent/talk.server.ts:886-897 | So only boundedly many of them fit into the silence budget |
| TurnEnding.FollowLoopEnds | app/agent/talk.server.ts:840-925 | With a durable log of n events past the cursor, the loop follows fewer than (n + 1) * k slices |
| TurnEnding.DefaultPolicyBound | app/agent/talk.server.ts:729-733 | For the default policy k is 722 |
| TurnEnding.UnreachableMeansUnbrokenFailure | app/agent/talk.server.ts:873-885 | The loop gives the instance up only after slices without progress and failed health checks, unbroken, for that long, the last of them being the slice that ended it |
| TurnEnding.UnbrokenFailureEndsFollowing | app/agent/talk.server.ts:873-885 | And it does not go on past such a run |
| TurnSend.StreamTurn | app/agent/talk.server.ts:425-709 | A send yields exactly its trace: a lone refusal, or the session, the relayed drain and its end |
| TurnSend.FollowCountsUp | app/agent/talk.server.ts:840-925 | Across every reattach the progress events number the session's events one by one, and the result ends on the last |
| TurnSend.EveryTraceHasShape | app/agent/talk.server.ts:661-709 | Every trace is a lone end, or one session with one token, a growing cursor, and an end on that cursor |
| TurnSend.RefusalIsAlone | app/agent/talk.server.ts:497-684 | A send is reported undelivered exactly when its reply is one of the refusals; then nothing else was yielded, the handles are the caller's, and the channel session is not reported gone |
| TurnSend.AnsweredYetUndelivered | app/agent/talk.server.ts:497-684 | Of the sends the agent answered with a refusal, exactly those with files, those with answers and, through a channel, all but a conflict that is no failed send are reported undelivered |
| TurnSend.FileRefusedByServer | app/agent/talk.server.ts:497-684 | One such trace: a first message with a file, answered with a server error |
| Reasoning.ReasoningAccumulator.Apply | app/chat/reasoning.ts:14-40 | One event updates the blocks as specified and reports whether the visible text changed |
| Reasoning.ReasoningAccumulator.Visible | app/chat/reasoning.ts:42-48 | The visible text is the trimmed non-empty blocks joined by blank lines |
| Reasoning.EncodingsAgree | app/chat/reasoning.ts:8-49 | Deltas, cumulative texts, any mix of them and completed-only events build the same blocks |
| Reasoning.SameBlocksSameText | app/chat/reasoning.ts:8-49 | Two encodings of the same blocks show the same text, also when one is cut into slices |
| Reasoning.DeltaIsCumulative | app/chat/reasoning.ts:8-49 | A delta and the cumulative text it leads to are interchangeable anywhere in a run |
| SessionRow.TurnStream.QueueProgressSave | app/chat/turn-stream.server.ts:320-353 | A save is queued with the furthest cursor unless throttled, unbound or without a session |
| SessionRow.TurnStream.OnEvent | app/chat/turn-stream.server.ts:442-595 | A session event rebinds the row once or queues a save; progress, turn and end events move the turn's variables |
| SessionRow.TurnStream.WriteFinalRow | app/chat/turn-stream.server.ts:640-694 | The last row write: a release, the predecessor's own values, or the final handles and cursor |
| SessionRow.TurnStream.Finish | app/chat/turn-stream.server.ts:640-798 | The end settles row, inbox, delegation and run record, or nothing but the claim of an undelivered send |
| SessionRow.Play | app/chat/turn-stream.server.ts:338-798 | The turn's object goes through every run of events, queued saves, failures and other requests' writes as the specification does |
| SessionRuns.ProducedIsWellShaped | app/chat/turn-stream.server.ts:357-456 | Every trace the send can produce for a turn has the shape the row protocol relies on |
| SessionRuns.SuccessionIsAllOrNothing | app/chat/turn-stream.server.ts:280-353 | In every run, while the turn holds the row, its handles, descriptor, predecessor and cursor are wholly the predecessor's or wholly the successor's, unless a save or the settling wrote over a row whose rebind was missed |
| SessionRuns.SuccessionIsHalvedExactly | app/playground/sessions.server.ts:1238-1424 | And exactly then, when there was a descriptor to drop or a predecessor to record |
| SessionRuns.MissedBindIsHalved | app/playground/sessions.server.ts:1391-1424 | The exception: a rebind that finds the row archived writes nothing, and the next save half-moves the row |
| SessionRuns.ArchivedSuccessionIsHalved | app/playground/sessions.server.ts:1238-1274 | A run that reaches the exception, for every succession whose second event moves the cursor |
| SessionRuns.CursorGoesForward | app/chat/turn-stream.server.ts:320-353 | In every run, within one binding, the row's cursor never decreases, whatever saves fail |
| SessionRuns.QueuedSavesAreInOrder | app/chat/turn-stream.server.ts:338-353 | In every run the saves that wait are of the turn's own session, in order, none behind the row's cursor and none ahead of the stream |
| SessionRuns.SettledOnFinalIndex | app/chat/turn-stream.server.ts:672-690 | In every run, a turn that threw included, the last write leaves the row on the last index its stream moved to, unless it takes dead handles off |
| SessionRuns.FinishedOnFinalIndex | app/chat/turn-stream.server.ts:672-690 | In every run that handles its whole trace, that is the trace's last index, the row is bound to the session it streamed, and it waits exactly if the trace ended well and the loop did not throw after it |
| SessionRuns.FencedTurnWritesNothing | app/playground/sessions.server.ts:1262-1273 | A turn that was stopped or taken over writes nothing more, but for the unfenced clearing of dead handles |
| SessionRuns.RefusedSendOnlyReleases | app/chat/turn-stream.server.ts:641-658 | A refused send leaves handles, cursor, inbox, delegation and run record alone and puts back the pre-claim status |
| Base64.DecodesExactlyEncodings | app/assets/policy.ts:105-117 | decodeBase64 returns bytes for exactly their encoding, for byte strings of every length |
| Base64.AcceptsExactlyCanonical | app/assets/policy.ts:105-117 | It accepts exactly the canonical encodings of sections 3.5 and 4 of RFC 4648 |
| AssetPolicy.NormalizedExactly | app/assets/policy.ts:63-77 | An id or path is accepted exactly when it is one to eight plain segments joined by slashes within the length, and is returned unchanged |
| AssetStore.ParseManifest | app/assets/store.server.ts:168-221 | A manifest is accepted exactly when its header and all its files fit, no path repeats and the sizes stay within 25 MB |
| AssetStore.ParsePutFiles | app/assets/store.server.ts:268-335 | The accumulating loop gives the first error in order, or the decoded files in the locale's order |
| AssetStore.CollectsExactly | app/assets/store.server.ts:282-332 | Collecting succeeds exactly when every item reads, no path comes twice and the bytes fit |
| AssetStore.ParsedFilesArePuttable | app/assets/store.server.ts:268-335 | What the parser accepts is one to forty distinct allowed paths within the size limit, each the decoded content of an item |
| AssetOps.OverlappingAssetId | app/assets/store.server.ts:230-249 | The scan finds an overlap exactly if another plain id above or below this one is listed as a manifest, file or directory |
| AssetOps.GetAsset | app/assets/store.server.ts:251-425 | get returns the manifest and wire files, or the one reason it cannot; the size limit applies where the listing gives a size |
| AssetOps.PutAsset | app/assets/store.server.ts:429-499 | The put loop decides each of its three rounds on that round's snapshot and stops as specified |
| AssetOps.DeleteAsset | app/assets/store.server.ts:501-540 | So does the delete loop |
| AssetLaws.GetAfterPut | app/assets/store.server.ts:251-499 | From any tree, an accepted put makes get return exactly the bytes put, under the first creation date, exactly if the manifest stays within 128 KiB or is listed without a size |
| AssetJson.ManifestSize | app/assets/store.server.ts:444-475 | A manifest's text takes at most a fixed bound and six bytes for each character of its names and dates |
| AssetJson.ShortNamesAreReadBack | app/assets/store.server.ts:367-499 | With names and dates of at most 13 000 characters every accepted put is read back, without condition |
| AssetJson.LongNameIsUnreadable | app/assets/store.server.ts:251-265 | A writer's name beyond the limit makes the asset unreadable |
| AssetLaws.WireKeepsBytes | app/assets/store.server.ts:411-423 | The wire form, UTF-8 or base64, decodes to exactly the stored bytes |
| AssetLaws.ContentIsNoManifest | app/assets/policy.ts:79-89 | An allowed file path never lies where any asset's manifest would |
| AssetLaws.OnlyOwnDirectory | app/assets/store.server.ts:462-475 | A put or delete changes nothing outside its asset's directory |
| AssetLaws.OtherAssetsKept | app/assets/store.server.ts:444-482 | Whatever lands for one asset, every other asset's manifest and get result stay as they were |
| AssetWriters.CommitKeepsInv | app/assets/store.server.ts:476-496 | A compare-and-swap commit lands only what its own snapshot decided, on that very head |
| AssetWriters.WritersAreLinearizable | app/assets/store.server.ts:429-540 | In every interleaving each head is a sequential run of the landed requests; an acknowledged one landed once, a rejected one never |
| AssetWriters.EveryInterleavingIsSequential | app/assets/store.server.ts:429-540 | The same from any first tree and any set of requests |
| AssetHistory.LibraryIsAPlainMap | app/assets/store.server.ts:367-540 | At every head of a sequential history each id holds what a plain map would after the landed puts and deletes |
| AssetHistory.EveryRunIsAPlainMap | app/assets/store.server.ts:367-540 | And so at every head of every interleaving, from any first tree |
| AssetHistory.CreatedAtSurvives | app/assets/store.server.ts:448-461 | Updates keep the creation date until a delete lands |
| AssetHistory.DirectoriesNeverNest | app/assets/store.server.ts:230-249 | If no asset lay inside another at first, none does at any head of a sequential history |
| AssetHistory.NoRunNests | app/assets/store.server.ts:230-249 | Nor at any head of any interleaving, from any first tree |
| AssetHistory.UpdatableExactly | app/assets/store.server.ts:230-249 | After a put, the same asset's next update is refused as overlapping exactly if a stored path, id included, runs through a directory called manifest.json of another plain id |
| AssetHistory.PutLocksItself | app/assets/store.server.ts:230-249 | One such put: asset a with the file x/manifest.json/y.css is accepted, and every later put or delete of it is refused as overlapping |
| MergePlan.LinksExactly | app/approvals/merge-plan.ts:35-36 | The link pattern accepts exactly pull request pages and reads their repository and number |
| Approvals.ApprovalRow.UpsertFromLedger | app/approvals/approvals.server.ts:65-110 | A mirror of the ledger fills only empty decision fields and no merge field |
| Approvals.ApprovalRow.Record | app/approvals/merge.server.ts:92-109 | An outcome is recorded unless a merge already was |
| Approvals.ApprovalRow.MarkPending | app/approvals/merge.server.ts:203-211 | The claim takes a row without merge status, once |
| Approvals.ApprovalRow.MergeApproved | app/approvals/merge.server.ts:115-201 | One attempt ends in the record its token, read and merge replies call for |
| Approvals.ApprovalRow.MergeAfterDecision | app/approvals/merge.server.ts:213-226 | A decided row is claimed and tried, unless it is no merge gate or already claimed |
| Approvals.ApprovalRow.DecideApproval | app/approvals/approvals.server.ts:178-216 | A decision the ledger took is written before the mirror, which keeps it, and an approved merge is tried at once; one it did not take is only mirrored |
| Approvals.MirrorKeepsDecisionAndMerge | app/approvals/approvals.server.ts:91-107 | A sync, however stale its view, changes no merge field and no recorded decider |
| ApprovalRuns.ReadsTheApprovedCommit | app/approvals/merge-plan.ts:61-92 | A read leads to a merge, or to recording one, only if the pull request is at the approved commit |
| ApprovalRuns.MergedOnlyAsApproved | app/approvals/merge.server.ts:92-268 | In every interleaving: merged only if the pull request landed at the approved commit, owed only if the ledger granted, claimed at most once, decided by whom the ledger took |
| ApprovalRuns.LandsOnlyTheApprovedCommit | app/approvals/merge-plan.ts:90-91 | harnesst's own merge lands the approved commit of a granted request, whatever moved since the read |
| ApprovalRuns.MergedIsFinal | app/approvals/merge.server.ts:102-108 | A recorded merge is changed by no decision, sync, claim or attempt |
| ApprovalRuns.DeciderIsKept | app/approvals/approvals.server.ts:200-211 | A recorded decider stays |
| ApprovalRuns.FailureCanBeUndone | app/approvals/merge.server.ts:92-108 | From the start, two overlapping attempts at a granted merge gate can record a failure and then turn it back to pending |
| ApprovalRuns.FailureLastsExactly | app/approvals/merge.server.ts:92-226 | A recorded failure lasts through every run exactly if no other attempt is past its claim and not yet refused |
| CheckoutPlan.PlanCommit | app/assistant/checkout-sync.ts:85-139 | The loop's four lists, their sorting and the fed hash are the specified plan |
| CheckoutPlan.PlanPartitions | app/assistant/checkout-sync.ts:91-113 | Every change is in exactly one bucket, and no bucket holds anything else |
| CheckoutPlan.PlanIgnoresOrder | app/assistant/checkout-sync.ts:115-137 | The same changes in another order make the same plan and hash |
| CheckoutPlan.PreimageIdentifiesPlan | app/assistant/checkout-sync.ts:117-127 | Without NULs, the hashed text determines base, paths, contents, deletions and modes |
| CheckoutPlan.NulContentPassesForDeletion | app/assistant/checkout-sync.ts:123-123 | With a NUL in it, which no sidecar reports, a content would pass for a deletion: the theorem above needs its condition |
| CheckoutSidecar.ParseRawDiff | assistant-template/checkout-sidecar.mjs:744-783 | The loop over git's raw diff gives one entry for each record it can classify, with the body the file calls for |
| CheckoutSidecar.EveryRecordIsReported | assistant-template/checkout-sidecar.mjs:728-783 | Every record git prints is read back: path, status and mode, in order |
| CheckoutSidecar.ReportIsClean | assistant-template/checkout-sidecar.mjs:744-783 | Whatever git prints and the disk holds, no path and no content reported holds a NUL |
| CheckoutSidecar.NulBodyIsSkipped | assistant-template/checkout-sidecar.mjs:764-768 | A changed file with a zero byte is warned about and none of its content is committed |
| CheckoutSync.MirrorSnapshot | app/assistant/checkout-sync.server.ts:430-474 | The snapshot is the base tree with the diff applied, modes included |
| CheckoutSync.Checkout.Stage | app/assistant/checkout-sync.server.ts:382-398 | Drafts are saved in order up to the one that fails, and changed ones counted |
| CheckoutSync.Checkout.Fail | app/assistant/checkout-sync.server.ts:216-237 | A failure is noted on the row, whose hash stays |
| CheckoutSync.Checkout.Sync | app/assistant/checkout-sync.server.ts:284-415 | A sync equals its specification for a failure at every call |
| CheckoutRuns.Live | app/assistant/checkout-sync.server.ts:284-415 | The checkout's object goes through every history of syncs, other people's edits and dropped rows as the specification does |
| CheckoutRuns.AppliedAt | app/assistant/checkout-sync.server.ts:456-474 | The mirrored tree has the plan's content and mode at a written path and nothing at a deleted one |
| CheckoutRuns.AppliedExactly | app/assistant/checkout-sync.server.ts:430-474 | It is the base with exactly the plan's changes: at each path of the plan what its last file says, every other path as it was, mode included |
| CheckoutRuns.CountIsChanges | app/assistant/checkout-sync.server.ts:384-393 | The staged count is the number of drafts that changed |
| CheckoutRuns.SyncedMeansSaved | app/assistant/checkout-sync.server.ts:366-414 | A successful sync leaves the plan's drafts, branch and hash, other drafts alone, and the exact count |
| CheckoutRuns.FailedSyncKeepsHash | app/assistant/checkout-sync.server.ts:303-311 | A failed sync never advances the stored hash |
| CheckoutRuns.RetrySaves | app/assistant/checkout-sync.server.ts:374-381 | After a failure the next smooth sync of that plan is not skipped and saves it |
| CheckoutRuns.StoredHashMeansDone | app/assistant/checkout-sync.server.ts:361-407 | After any history, a stored hash of a non-empty plan means that plan was fully mirrored and fully staged since the row was last dropped |
| CheckoutRuns.ReportedHashMeansDone | app/assistant/checkout-sync.server.ts:361-407 | The same for every history of trees a sidecar reports, with nothing assumed of their contents |
| CheckoutRuns.SkipIsRightExactly | app/assistant/checkout-sync.server.ts:361-364 | After any moves since the plan was saved (syncs, other people's edits and discards, dropped rows), a skip by equal hash is right exactly if the last tree mirrored, and what the last writer left at each plan path, a sync or a person, agree with the plan or there is none |
| CheckoutRuns.SkipCanBeStale | app/assistant/checkout-sync.server.ts:361-364 | It is wrong, for instance, after another plan was mirrored by a sync that then failed |
| UploadIndex.Directory.Chain | app/chat/attachments.server.ts:291-301 | A call takes the last place in line, behind the one before it; it has nobody to wait for only if nobody waits or is inside |
| UploadIndex.Directory.LoadUploadIndex | app/chat/attachments.server.ts:238-262 | Only the oldest call that is not through reads, alone inside; an index that cannot be read counts as empty |
| UploadIndex.Directory.WriteIndex | app/chat/attachments.server.ts:294-300 | Nothing came between read and write: after a good read the index as it stands gains this call's entries, after a failed one it is them alone |
| UploadIndex.Directory.Release | app/chat/attachments.server.ts:302-306 | The lock entry is gone only when nobody waits or is inside; another call's entry stays |
| UploadIndex.Directory.Interleave | app/chat/attachments.server.ts:264-308 | The directory goes through every interleaving of calls as the specification does, keeping the invariant |
| UploadIndex.OneAtATime | app/chat/attachments.server.ts:291-300 | In every interleaving at most one call is inside its read-modify-write |
| UploadIndex.LockGoesWhenNobodyWaits | app/chat/attachments.server.ts:302-306 | When the lock entry is gone nobody waits or is inside |
| UploadIndex.NothingIsLostExactly | app/chat/attachments.server.ts:264-308 | The index is the old one and every written call's entries, in queue order and once, exactly if no call wrote after failing to read a non-empty index |
| UserContent.ResolveReceivedAttachments | app/chat/user-content.ts:118-177 | Each part gets what the greedy search finds among the uploads the parts before it left |
| UserContent.CandidatesAre | app/chat/user-content.ts:134-145 | Candidates are the uploads stored no later than a minute after the message |
| UserContent.HitIsBest | app/chat/user-content.ts:149-158 | Unresolved only if no free upload fits; an exact name beats a loose one; a late upload only if no on-time one fits as strictly |
| UserContent.HitIsNearest | app/chat/user-content.ts:137-144 | Of the free uploads that fit as strictly, an on-time hit is the newest on-time one, a late hit the earliest |
| UserContent.NoUploadServesTwo | app/chat/user-content.ts:127-160 | No upload serves two parts |
| UserContent.IdsDiffer | app/chat/user-content.ts:159-175 | All result ids differ, resolved or not |
| SystemNotes.StripSystemNotes | app/chat/system-note.ts:63-72 | The strip loop ends on every input with the specified text |
| SystemNotes.StrippedIsFixed | app/chat/system-note.ts:58-72 | Its result is a fixpoint |
| NoteLoops.NotesHiddenExactly | app/chat/system-note.ts:35-72 | The whole loop, in general: notes are hidden if no de-fanged line after the first starts with the end marker; for notes without a start marker exactly then, whatever the message; for any notes exactly if their block alone is stripped to nothing, unless a line of the message starts with the end marker |
| NoteLoops.BlockHiddenExactly | app/chat/system-note.ts:63-72 | The same for a block of any lines in front of any text |
| NoteLoops.SecondRoundHides | app/chat/system-note.ts:63-72 | Four notes, one with an unsafe line and one a start marker: the second round hides them whatever the message |
| NoteLoops.MessageHidesNotes | app/chat/system-note.ts:35-72 | Notes that show alone and that one message hides by closing the block they leave open |
| SystemNotes.BlockStripsExactly | app/chat/system-note.ts:45-48 | A block comes off whole exactly if its joined lines hold no newline followed by the end marker, that is, if no line after the first starts with it |
| SystemNotes.RemovalCanRestore | app/chat/system-note.ts:40-40 | Removing a marker can put another one together |
| SystemNotes.NoteShows | app/chat/system-note.ts:35-72 | Two notes whose text shows in front of every message sent with them |
| Provisioning.ConsecutiveAssistantFailures | app/assistant/instance.server.ts:133-145 | The loop counts the newest failures of one image up to its latest non-failure |
| Provisioning.Environment.EnsureAssistantInstance | app/assistant/instance.server.ts:467-635 | A request nobody interrupts wakes, waits, reports the open circuit, or inserts one pending row and queues one job |
| Provisioning.Environment.Decide | app/assistant/instance.server.ts:480-567 | A request goes on past the circuit only with nothing in flight and fewer than three failures |
| Provisioning.Environment.InsertPending | app/assistant/instance.server.ts:582-617 | The insert succeeds exactly if nothing is in flight; otherwise the row in flight is adopted and none is added |
| Provisioning.Environment.BeginDeploy | app/assistant/instance.server.ts:354-366 | A waiting job takes over the newest row and makes none of its own |
| Provisioning.Environment.EndDeploy | app/assistant/instance.server.ts:396-425 | The job's row is still the newest: it ends live, closing its image's circuit, or failed, one failure more; nothing stays in flight or queued |
| Provisioning.Environment.Interleave | app/assistant/instance.server.ts:467-635 | The environment goes through every interleaving of requests, jobs, crashes and worker restarts as the specification does, keeping the invariant |
| Provisioning.CircuitAndJobs | app/assistant/instance.server.ts:545-617 | In every interleaving of at most n requests at once, no image has more than n + 2 failures in a row, at most one row is in flight, and jobs queued, running or about to be queued are never more than it, nor fewer if no request crashed and no job died |
| Provisioning.JobFindsItsRow | app/assistant/instance.server.ts:354-366 | A job always finds the row it was queued for: pending, or building if it was under way before its worker restarted |
| Provisioning.EndsExactly | app/assistant/instance.server.ts:330-366 | In every run a row in flight can still end exactly if it has a job or a request about to queue one |
| Provisioning.LostJobBlocks | app/assistant/instance.server.ts:524-540 | A job lost before it took its row over blocks the environment for good: whatever happens later, a request that finds nothing live or stopped to answer is told that row is being provisioned |
| Provisioning.StaleCountsReachBound | app/assistant/instance.server.ts:552-590 | The bound is reached for every n: requests that counted before the others failed add a failure each, so two make a fourth |

## Left out

- HTTP, GitHub, database, file system and job-queue calls themselves: each is a move or an input with the outcomes its call site handles.
- Reading JSON fields of stream events (missing or mistyped fields, `meta.at` defaults) and the shaping of the final reply (`normalizeReply`): events come with their fields already read.
- The numbers inside give-up and failure messages, and log output.
- Empty-string session ids and tokens, which JavaScript treats as absent: handles are present or absent.
- `resumeTurnStream`, `dispatchTurn` and `sendTurn`: thin callers of the drain and the send that are modelled.
- The needs-you flag, inbox questions and read marks of a turn: unfenced writes outside the row protocol; the row's settling names only whether the inbox, the delegation and the run record are touched.
- Titles, timestamps, environment and version columns of the session row.
- TurnSlicing.FollowDrainIsOnePass: compares with one drain of the events delivered, ending as the last slice did, and with the follower's own give-up message; the `streamStatus` field of the carry is left out of the comparison.
- AssetStore.ParsePutFiles: the sort is a permutation supplied by the platform (`localeCompare` is not modelled); a file whose path is a directory prefix of another is accepted, as the code does, and the tree stays a flat map, so git's own refusal of such a tree is not modelled.
- AssetOps.GetAsset: whether a listing gives a blob's size is a fixed property of its path and bytes; an entry without a sha counts as not regular.
- `listAssets`, `runAssetOperation`'s lookup of deployment, agent and project, and error texts of the asset service.
- AssetWriters.WritersAreLinearizable: a branch reset to an older head is not modelled; heads only grow.
- MergePlan.LinksExactly: `same` compares lower case letter by letter on ASCII; a pull request number beyond 2^53 is read exactly.
- ApprovalRuns.MergedOnlyAsApproved: one approval row and one pull request; the minute between attempts and the seven-day window only restrict when a tick may act, so a tick may act at any time here.
- Publishing links, listing a project's requests and finding its ledger.
- CheckoutPlan.PlanCommit: the order on paths compares characters, which differs from UTF-16 order only beyond the basic plane; warning texts are the lists they are made of.
- CheckoutRuns.StoredHashMeansDone: counts from the last time the row was dropped, since the first sync writes before its row exists; base trees hold text files only.
- CheckoutRuns.SkipIsRightExactly: other people's edits fall between syncs, not between two calls of one.
- Ensuring a checkout before a turn, the sidecar's git commands and its evaluation runs.
- Storing upload bytes and sidecars, reading them back, body limits and attachment validation: single-step or platform behaviour.
- `summarizeUserContent`, `userMessageText`, `directiveSignedBody` and `describeUserTurn`: one expression each.
- Provisioning.CircuitAndJobs: a job's own reads and writes of its row are one step each, and so are its end and the queue's noting it as done, so a worker restart between those two is not modelled; nor are image building, bundles and idle stops, nor that exactly one deployment is live.
- React components, routes, authentication, cookies and publishing.
