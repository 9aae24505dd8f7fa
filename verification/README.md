# Ownership and storage protocols of the web, terminal and serve apps

This project models the small state machines that own drafts, image previews, renderers,
connections, listeners, device records and terminal output, and proves what they keep in
every interleaving. Each module follows one source file: a datatype of states, functions for
the code between two waits (or inside one transaction or lock), lemmas over whole runs, and a
class whose methods update the same fields step by step and are proved equal to those
functions.

| files | what they model |
|---|---|
| `DraftRecords`, `DraftStore`, `DraftRuns` | the durable composer drafts: records, one transaction per operation, all runs of all tabs |
| `DraftEditor` | the local editor beside the store: typing, coalesced saves, updates, conflict resolution |
| `ImagePreviews`, `ImagePreviewRuns` | the preview cache: operations, and what every run keeps |
| `Mounts` | renderer tables of one document: staging, replacement, disposal, opening the next table |
| `DocumentConnection` | phases, lane admission, the queue of resource openings, disconnecting |
| `Resident` | launch, stop and status tasks of the browser listener |
| `ExternalDrafts` | the bounded store of external drafts and its fenced attempts |
| `Layouts`, `LayoutEdits`, `LayoutSaving` | layouts and intents, their coalescing, and the save loop |
| `DeviceRecords`, `DeviceOrders` | bounded device records, and manual orders |
| `TerminalText` | text rendering of model attempts |
| `ImageBytes`, `PngScan`, `GifScan`, `WebpScan`, `ImageBounds` | the container scans and the pixel budget |
| `NavigationTitles`, `Strings` | labels of untitled conversations |
| `Wrappers`, `Sums` | shared values and sums over maps |

Objects of the program (subscriptions, flights, attempts, entries, listeners, tasks) are
numbered in creation order. Random identities are assumed new where a lemma says so; clocks,
replies, timeouts and failures are choices of the environment. Where several outcomes are
possible the event carries the outcome, so a statement over all runs covers every schedule.

## Where the code does not do what one might expect

- Draft editor: that an editor with nothing unsaved shows its record fails when a record
  arrives in a clean editor from a save, or from an update the user has typed over, and
  holds in a run exactly if that never happens (`FaithfulExactly`; with resolutions only
  from failures, `FaithfulWhenResolvingFailures`). Only the adoption of the saved version
  lets it happen: not adopting while such a task is in flight suffices (`CarefulIsFaithful`)
  and is needed (`AdoptingUnsettledIsUnsafe`). `ResolvingWithoutFailureIsUnsafe` and
  `AdoptingOverUpdateIsUnsafe` are schedules from idle editors that reach it.
- Text output: a live snapshot shorter than what was already written makes the renderer fail
  exactly when it ends inside the block that the cursor is in (`WriteFailsExactlyForStale`);
  other late snapshots write nothing.
- Listener manager: the generation check before the slot is filled and the store itself are
  two steps, so a stop may begin in between (`SlotFilledAfterStopBegan`). The promise of
  `stop` still holds, because that stop then closes the listener itself.
- WebP scan: it does not count frames; two image chunks are accepted (`TwoImagesAccepted`).
  The exact condition is `ImageOk` of `WebpScan`.
- Manual order: from the first of several siblings, `previous` does nothing and `next` still
  moves, so the pair restores the order exactly otherwise (`PreviousThenNextOrder`).

## Model

| member | source | states |
|---|---|---|
| DraftStore.Store.MutateMany | apps/web/drafts.js:190-220 | One transaction reads the addressed records, applies the compare-and-swap change and commits records and counters together, or changes nothing; which of the two is decided by addressing, validity of what was read, the change, validity of what it returns, and the limits. |
| DraftStore.Store.Run | apps/web/drafts.js:253-346 | Every draft operation is one such transaction on its own keys; malformed input is refused before it opens. |
| DraftStore.Store.Verify | apps/web/drafts.js:167-183 | The scan on opening succeeds exactly when every record is valid under its key, the totals are within the limits and equal to the stored counters. |
| DraftStore.ApplyKeepsConsistent | apps/web/drafts.js:190-220 | No operation of any tab, with any snapshot, can leave a database that the scan would refuse. |
| DraftStore.TotalAfterPutAll | apps/web/drafts.js:206-209 | The incremental counter update over one or two records equals the sum over all records afterwards, in all four dimensions. |
| DraftStore.PutAllAt | apps/web/drafts.js:208 | A transaction changes exactly the keys it addresses, to exactly what the change returned. |
| DraftRuns.StepAt | apps/web/drafts.js:190-220 | What one event does to one key: nothing when refused or not addressed, else the rewrite of that record (or both halves of a move). |
| DraftRuns.InFlightLeavesOnlyBySettle | apps/web/drafts.js:286-346 | A dispatching or unknown submission stays with everything but its phase until a settlement retires or re-admits it; cancel, edit, move and removal cannot touch it. |
| DraftRuns.PendingOnlyByFreeze | apps/web/drafts.js:274-285 | A pending submission appears only by freezing one, and then as prepared. |
| DraftRuns.FrozenBefore | apps/web/drafts.js:274-294 | From a record without submission, any later begin was preceded by a committed freeze. |
| DraftRuns.ReleasedBefore | apps/web/drafts.js:286-313 | From an in-flight submission, any later begin was preceded by a not-admitted settlement, or by a retirement and then a new freeze. |
| DraftRuns.DispatchedOnce | apps/web/drafts.js:286-313 | In every interleaving of tabs with arbitrary snapshots, between two committed begins of one draft the first was settled as not admitted, or was retired and another submission frozen. |
| DraftRuns.StaysGone | apps/web/drafts.js:109-118 | Once an incarnation left its key it never returns, incarnations of new records being new. |
| DraftRuns.StaleIncarnationRefused | apps/web/drafts.js:112-118 | A snapshot of a removed record is refused for ever and changes nothing, even after the draft was created again. |
| DraftRuns.RevisionIdentifiesContent | apps/web/drafts.js:265-273 | Within one incarnation the edit revision never decreases, and equal revisions mean equal text, images and references, over every run. |
| DraftRuns.SubmissionHeld | apps/web/drafts.js:274-285 | Until the next freeze, whatever is pending is the submission frozen from the given snapshot. |
| DraftRuns.CompletionClearsFrozenContent | apps/web/drafts.js:295-313 | A completion that clears the editor clears exactly the content of the snapshot given to freeze; anything committed after that snapshot survives. |
| DraftRuns.AlwaysConsistent | apps/web/drafts.js:102-108 | In every reachable database the stored aggregate equals the sum over all drafts and is within its limits. |
| DraftRuns.MoveConserves | apps/web/drafts.js:322-338 | A move carries text and images unchanged, charges nothing else and lowers the record count by exactly one. |
| DraftEditor.NextKeepsInv | apps/web/drafts.js:351-426 | Every step of editor and shared store (typing, save loop, updates, resolution, transfer, other tabs) keeps the joint invariant, with no assumption about which step is taken when. |
| DraftEditor.FaithfulExactly | apps/web/drafts.js:351-426 | In every run, resolutions at any time included: an editor with nothing unsaved shows its record in all states exactly if no record arrives from a save, or from an update typed over, in a clean editor that shows something else. |
| DraftEditor.FaithfulWhenResolvingFailures | apps/web/drafts.js:389-418 | If resolutions start only from failures, that holds exactly if no successful reply of an overtaken update reaches a clean editor that shows other content. |
| DraftEditor.CarefulIsFaithful | apps/web/drafts.js:402-418 | A check at the adoption suffices: if no saved version is adopted while a save or an overtaken update is in flight, the editor is faithful in all states of the run. |
| DraftEditor.AdoptingUnsettledIsUnsafe | apps/web/drafts.js:402-418 | The check is needed: from any state that adopts while such a task is in flight, once the task has or can get a reply with other content, a run ends with nothing reported unsaved while text and record differ. |
| DraftEditor.FlushMeansStored | apps/web/drafts.js:384-388 | While nothing was clobbered in that sense, an editor that flush accepts shows exactly a committed version of the draft. |
| DraftEditor.TypingSurvives | apps/web/drafts.js:361-401 | In every run, text typed at one step is at any later step, until the user replaces it, still in the editor, unsaved and at the revision it got, or was the stored draft at a step after it was typed. |
| DraftEditor.FlushStoresTyping | apps/web/drafts.js:361-388 | If flush accepts the editor after typing, the typed text was stored after it was typed, and what is shown is a version stored after it was typed. |
| DraftEditor.ResolvingWithoutFailureIsUnsafe | apps/web/drafts.js:402-418 | A resolution started from an editor that did not fail has a schedule after which nothing is reported unsaved while text and record differ: from every idle saved editor. |
| DraftEditor.AdoptingOverUpdateIsUnsafe | apps/web/drafts.js:389-418 | Starting from a failure is not enough, and the bad state is reachable: from every idle failed editor and every update that changes the content, a schedule of eight steps ends the same way. |
| DraftEditor.Editor.Edit | apps/web/drafts.js:361-366 | Typing replaces the local content, bumps the local revision, marks it dirty and starts a save when none runs; while moving or for invalid content nothing changes. |
| DraftEditor.Editor.Receive | apps/web/drafts.js:372-401 | A save reply clears dirty only if nothing was typed since; an update reply replaces the text only then and only if the editor is not dirty; a rejection marks the failure. |
| DraftEditor.Editor.ResumeResolve | apps/web/drafts.js:402-418 | The resolution adopts or overwrites the saved version, re-creates a missing record, or gives up when a submission lost its record. |
| ImagePreviews.ImagePreviewCache.AcquireHandle | apps/web/image-previews.js:28-70 | Acquiring delivers from the cache, joins the flight of the same ticket, queues a new one, or refuses when closed, oversized or full. |
| ImagePreviews.ImagePreviewCache.ReleaseHandle | apps/web/image-previews.js:32-44 | Releasing drops the reference and the interest of this handle only, abandons a queued flight with its last subscriber, and pumps. |
| ImagePreviews.ImagePreviewCache.MakeRoom | apps/web/image-previews.js:98-109 | The eviction loop over the live map computes the specified room. |
| ImagePreviews.ImagePreviewCache.PumpQueue | apps/web/image-previews.js:111-134 | The pump loop computes the specified pumping of the waiting queue. |
| ImagePreviews.ImagePreviewCache.ReadReturned | apps/web/image-previews.js:136-175 | The end of a read: validate, publish, transfer or give back the reservation, deliver or fail the subscribers, pump. |
| ImagePreviews.ImagePreviewCache.Close | apps/web/image-previews.js:177-191 | Disposal resolves every handle empty, forgets flights and queue, and revokes the whole cache, leaving active reads to return. |
| ImagePreviewRuns.AlwaysValid | apps/web/image-previews.js:28-191 | In every interleaving of acquisitions, releases, replies and disposal: reserved bytes are the sum over started unresolved flights, cached plus reserved bytes and cache size plus active reads stay within their limits, references count live displays, every URL ever created is cached or revoked once, handles and flights name each other, and a waiting queue has an active read. |
| ImagePreviewRuns.ShownUrlNotRevoked | apps/web/image-previews.js:72-109 | Before disposal no URL is revoked while a live handle displays it. |
| ImagePreviewRuns.UnsettledHandleIsServed | apps/web/image-previews.js:111-134 | A handle that is still waiting belongs to a pending flight, and some read is running: no wakeup is lost. Read off the invariant that `ImagePreviewRuns.AlwaysValid` carries through every run. |
| ImagePreviewRuns.ClosedReplyDrains | apps/web/image-previews.js:136-175 | After disposal each outstanding reply only gives back its own reservation. A consequence of the invariant of `ImagePreviewRuns.AlwaysValid`, in the one branch of a reply after disposal. |
| ImagePreviewRuns.DrainedAfterDispose | apps/web/image-previews.js:177-191 | Disposed and drained, every counter is zero and every URL ever created was revoked exactly once. Read off the invariant that `ImagePreviewRuns.AlwaysValid` carries through every run. |
| ImagePreviewRuns.RoomEvictsShortestPrefix | apps/web/image-previews.js:98-109 | Making room evicts exactly the shortest sufficient run of undisplayed entries, least recently delivered first; a refusal means none is left. |
| ImagePreviewRuns.PumpKeeps | apps/web/image-previews.js:111-134 | Pumping keeps the invariant and leaves no queue asleep. |
| ImagePreviewRuns.ReplyKeeps | apps/web/image-previews.js:136-175 | A reply keeps the invariant in every case: closed, abandoned, malformed, already cached, or published. |
| Mounts.NextKeepsInv | apps/web/mounts.js:41-50 | Every step of opening, rendering, disposing and closing keeps: a table answers for each of its unsettled entries, one dispose call per drained lifecycle, a failure blocks the document, tables other than the current one closed. |
| Mounts.OpensOnlyAfterCleanDisposal | apps/web/mounts.js:93-107 | A table opens only when every renderer any earlier table mounted (staged, replaced, rejected or retained) was disposed, once and cleanly, and nothing is being mounted. |
| Mounts.DisposedAtMostOnce | apps/web/mounts.js:41-50 | In every reachable state each renderer was disposed at most once. |
| Mounts.NeverOpensAfterFailure | apps/web/mounts.js:41-50 | After a failed or overdue cleanup no table ever opens again. |
| Mounts.ResolvedIsSettled | apps/web/mounts.js:201-237 | A close that resolved left nothing of the table undisposed, even if a render was still running when it began. |
| Mounts.DrainMoves | apps/web/mounts.js:41-50 | Draining any entries of a table, again or for the first time, touches no other table and disposes each at most once. |
| Mounts.Renderers.DrainOne | apps/web/mounts.js:41-50 | The first drain starts the cleanup, a later one changes nothing; whatever has a dispose function is disposed, even without update, and an object without one fails at once and blocks the document. |
| Mounts.Renderers.OpenTable | apps/web/mounts.js:93-107 | Opening waits for a running close, then refuses when blocked or when a table is current. |
| Mounts.Renderers.StageSlot | apps/web/mounts.js:130-148 | Each slot is kept, gets a notice, or loads a renderer; a refusal, or a notice that fails to show, drains everything staged so far. |
| Mounts.Renderers.MountCallReturned | apps/web/mounts.js:148-153 | A mounted renderer is kept only if it returned both functions of a lifecycle and the table is still open; otherwise the staged entries are drained, this one with its own dispose function if it has one. |
| Mounts.Renderers.ReplaceNext | apps/web/mounts.js:165-182 | Old renderers are drained one by one; only then the staged ones are shown. |
| Mounts.Renderers.RecoveryReturned | apps/web/mounts.js:187-199 | After a failure all staged entries settle first; then the render fails or the accepted offer is rendered again. |
| Mounts.Renderers.FinishClosing | apps/web/mounts.js:207-229 | The close resolves only if no cleanup failed; otherwise the document is blocked. |
| DocumentConnection.NextKeepsInv | apps/web/document-connection.js:56-230 | Every step keeps counters, conservation of calls and openings, the work-conserving queue, and empty final phases. |
| DocumentConnection.EveryCallSettlesOnce | apps/web/document-connection.js:66-134 | In every reachable state each admitted call is pending or settled once, likewise each queued opening; lane counters are the numbers of pending calls within their limits; in a final phase everything has been settled. |
| DocumentConnection.FinalStaysFinal | apps/web/document-connection.js:56-64 | Failed and Closed are never left, admit nothing and hold nothing. |
| DocumentConnection.QueueConservesWork | apps/web/document-connection.js:91-101 | While open and current an opening waits only if at least seven ordinary calls are in flight. |
| DocumentConnection.PumpLeavesSlot | apps/web/document-connection.js:91-101 | Pumping never takes the last ordinary slot and serves openings in order, also when posting fails and pumps again from within. |
| DocumentConnection.PumpKeeps | apps/web/document-connection.js:91-130 | Pumping conserves calls and openings through the recursion of request, failed posting and pump. |
| DocumentConnection.Connection.RequestCall | apps/web/document-connection.js:66-82 | A request is refused when closed or its lane is full, else entered and posted; a posting failure takes it out again. |
| DocumentConnection.Connection.PumpOpenResources | apps/web/document-connection.js:91-101 | The pump loop with its re-entrant calls computes the specified pumping. |
| DocumentConnection.Connection.ResumeDisconnect | apps/web/document-connection.js:190-230 | After every wait the disconnect checks its phase and owner before it goes on, and any failure fails the connection. |
| DocumentConnection.Connection.EnterFinal | apps/web/document-connection.js:56-64 | Entering a final phase rejects the waiting openings and every pending call. |
| Resident.NextKeepsInv | apps/serve/src/resident.rs:267-356 | Every step of concurrent launch, stop and status tasks keeps locks, generations, hands and fences. |
| Resident.ReturnedStopLeavesNothingRunning | apps/serve/src/resident.rs:330-340 | Once a stop returned, no launch begun before it ever has a running listener, in that state or any later one. |
| Resident.FreeCreationMeansNothingLoose | apps/serve/src/resident.rs:267-340 | Whenever the creation lock is free, every listener a launch started is closed, stopped, or in the slot. |
| Resident.DisposedOnce | apps/serve/src/resident.rs:194-205 | A listener is in at most one hand and is disposed at most once. |
| Resident.StoredAfterConfirming | apps/serve/src/resident.rs:313-322 | A listener enters the slot only after its launch saw its own generation as the current one while holding both locks; at the store it still is current exactly if no stop began since. |
| Resident.ConfirmedUnstopped | apps/serve/src/resident.rs:313-318 | The check passes exactly when no stop began since the launch loaded the generation. |
| Resident.SlotFilledAfterStopBegan | apps/serve/src/resident.rs:313-320 | Check and store are not one step: a run in which a stop begins between them and the listener still enters the slot. |
| Resident.GenerationCountsStops | apps/serve/src/resident.rs:330-332 | The generation counts the stops begun. |
| Resident.NeverStuck | apps/serve/src/resident.rs:267-356 | While some task has not returned, some task can step: the two locks never deadlock. |
| Resident.Manager.ContinueLaunch | apps/serve/src/resident.rs:267-329 | A launch between two waits: check, look, close a stopped listener, adopt, start, mint, confirm, store or discard. |
| Resident.Manager.ContinueStop | apps/serve/src/resident.rs:330-340 | A stop takes the slot under the creation lock and closes what it took. |
| Resident.Manager.ContinueStatus | apps/serve/src/resident.rs:341-356 | A status request removes and closes only a listener that stopped by itself. |
| ExternalDrafts.NextKeepsInv | apps/web/external-drafts.js:25-71 | Every operation, and the callbacks during clear, keep both bounds, the index, and distinct last uses. |
| ExternalDrafts.AlwaysBounded | apps/web/external-drafts.js:10-24 | At most 16 records and 1 MiB, in-flight text that was edited over included, in every reachable state. |
| ExternalDrafts.AdmitRefusesOnlyWhenFull | apps/web/external-drafts.js:10-24 | Admission refuses exactly when evicting every evictable record still would not fit. |
| ExternalDrafts.AdmitEffect | apps/web/external-drafts.js:10-24 | Admission removes only idle records other than the one being edited and leaves room for what was asked. |
| ExternalDrafts.ChooseIsShortest | apps/web/external-drafts.js:14-21 | The evicted records are exactly enough: without the last one it would not fit. |
| ExternalDrafts.ChooseLeastRecent | apps/web/external-drafts.js:14-21 | No evicted record was used later than an evictable one with text that stays. |
| ExternalDrafts.PinnedSurvives | apps/web/external-drafts.js:14 | A bound or pending record leaves the store only through clear. |
| ExternalDrafts.RefusalChangesNothing | apps/web/external-drafts.js:26-45 | A refused edit or bind changes nothing, and is refused exactly when it is stale or cannot be made to fit. |
| ExternalDrafts.NoSecondAttempt | apps/web/external-drafts.js:46-61 | After an attempt ended as succeeded or unknown, no later attempt of that record has that revision, whatever happens in between. |
| ExternalDrafts.CompletionClearsOnlySubmitted | apps/web/external-drafts.js:52-61 | Success clears the text only if it is exactly the submitted text; any other completion leaves it. |
| ExternalDrafts.ClearFencesCompletions | apps/web/external-drafts.js:62-68 | A completion of an attempt begun before a clear changes nothing after it. |
| ExternalDrafts.DraftStore.ChooseVictims | apps/web/external-drafts.js:14-21 | The eviction loop computes the specified choice. |
| ExternalDrafts.DraftStore.AdmitBytes | apps/web/external-drafts.js:10-24 | Admission evicts the chosen records, or refuses and evicts nothing. |
| ExternalDrafts.DraftStore.EditRecord | apps/web/external-drafts.js:37-45 | An edit admits first and then replaces text, revision and use of one record. |
| ExternalDrafts.DraftStore.FinishAttempt | apps/web/external-drafts.js:52-61 | A completion acts only on the current epoch, record and attempt. |
| Layouts.ApplyMeaning | apps/web/device-store.js:64-79 | An intent is accepted exactly when each of its parts is acceptable, whatever the saved layout; the result is again acceptable as saved. |
| Layouts.ParseIsIdempotent | apps/web/presentation-layout.js:3-17 | Parsing what parsing returned changes nothing: clamping and rounding are stable. It follows from the definition of parsing; `Layouts.ApplyMeaning` carries it to every accepted intent. |
| Layouts.ParseSpread | apps/web/presentation-layout.js:3-17 | A patch of several fields parses exactly when each field does, and equals setting them one by one. |
| Layouts.TouchKeepsOk | apps/web/presentation-layout.js:18-20 | Touching a workspace keeps at most sixteen distinct well-formed ids. |
| LayoutEdits.CoalescingPreservesMeaning | apps/web/layout-edits.js:2-18 | From any valid saved layout and any list of valid intents, replaying only the kept entries gives the same layout as replaying every intent: patches of several fields, resets, clamping and the cap of sixteen workspaces included. |
| LayoutEdits.AddMeaning | apps/web/layout-edits.js:4-13 | Adding one intent to the kept entries means applying it last, on every base layout. |
| LayoutEdits.ReplayPut | apps/web/layout-edits.js:5 | Moving an entry to the end with a new value is the same as applying that value last. |
| LayoutEdits.ReplayCapped | apps/web/layout-edits.js:10-12 | With seventeen workspace entries the oldest one no longer matters, on any base layout. |
| LayoutEdits.KeptStaysSmall | apps/web/layout-edits.js:4-14 | However many intents arrive, at most one reset, six fields and sixteen workspaces are kept. |
| LayoutEdits.LayoutEntries.AddIntent | apps/web/layout-edits.js:4-13 | The loop over patch fields and the workspace cap compute the specified entries. |
| LayoutEdits.LayoutEntries.SavedEntry | apps/web/layout-edits.js:17 | A finished save removes its entry only if no newer intent took the key. |
| LayoutSaving.NothingIsLost | apps/web/src/presentation.tsx:61-74 | While entries are saved one at a time, with new intents between start, commit and completion and saves that fail, the stored layout followed by the kept entries is always what all intents ask for; once nothing is kept exactly that is stored. |
| LayoutSaving.NextKeepsInv | apps/web/src/presentation.tsx:61-74 | Every step of the save loop keeps that invariant. |
| DeviceRecords.WriteRefuses | apps/web/device-store.js:86-111 | A bucket within its budgets refuses a write exactly for a malformed key or clock, an exhausted revision, or a record too large by itself; it is never found full and eviction never pops an empty list. |
| DeviceRecords.WriteShape | apps/web/device-store.js:103-110 | A write keeps the new value and evicts exactly the shortest sufficient prefix of the others in (used, key) order; with room it evicts nothing and keeps their order. |
| DeviceRecords.WriteKeepsBudget | apps/web/device-store.js:86-111 | After a write the bucket is within count and byte budgets, the new record is last with its revision one higher, and every other record was there before. |
| DeviceRecords.HistoryWithin | apps/web/device-store.js:86-111 | After any history of writes the bucket is within its budgets. |
| DeviceRecords.ShippedHistoriesWithin | apps/web/device-store.js:4-8 | So do the three buckets of the program, with their own budgets, whatever is written to them. |
| DeviceRecords.SortSorts | apps/web/device-store.js:106 | The eviction order is sorted by use and then key and a permutation of the candidates. |
| DeviceRecords.BoundedRecords | apps/web/device-store.js:86-111 | The checks and the eviction loop, in order, compute the specified write. |
| DeviceOrders.ReconcileKeepsOrder | apps/web/device-store.js:38-45 | Reconciling keeps the saved order as a prefix, appends exactly the missing members, is refused only beyond 1024 ids, and is idempotent. |
| DeviceOrders.MoveIsPermutation | apps/web/device-store.js:46-63 | A move permutes the reconciled order, keeps the relative order of all other ids, and puts the id right next to its target among its siblings. |
| DeviceOrders.MoveRefuses | apps/web/device-store.js:46-63 | A move succeeds exactly when the order reconciles, the id is a member, and an explicit target is a sibling. |
| DeviceOrders.PreviousThenNextOrder | apps/web/device-store.js:51-62 | Previous then next restores the sibling order exactly when the id is not the first of several siblings. |
| DeviceOrders.ApplyOrder | apps/web/device-store.js:46-63 | The splices on the list compute the specified order. |
| TerminalText.SettledAttemptsWrittenOnce | apps/terminal/src/lib.rs:750-849 | For early, late, repeated or displaced snapshots that are prefixes of the attempt they name, in every run up to its end or to the stale snapshot at which it fails, standard output holds exactly the text deltas of the conversation attempts settled by then, each once and in order, then a prefix of the open one. |
| TerminalText.DoneAreSettled | apps/terminal/src/lib.rs:800-830 | The settled attempts of that statement are those for which a settlement arrived. |
| TerminalText.WriteFailsExactlyForStale | apps/terminal/src/lib.rs:750-849 | A write fails exactly for a live snapshot of the open attempt that is shorter than what was delivered and ends inside the block the cursor is in. |
| TerminalText.ReadAfterMeaning | crates/rsi-agent/session-protocol/src/model_attempt.rs:169-190 | From a record boundary, resuming delivers exactly the records not yet delivered; it fails exactly for such a stale prefix. |
| TerminalText.GrowingNeverFails | apps/terminal/src/lib.rs:750-849 | While the snapshots of each attempt never get shorter, no write fails. |
| TerminalText.LateSnapshotFails | apps/terminal/src/lib.rs:779-795 | A concrete late snapshot with which the renderer fails. |
| TerminalText.OverlapRepeats | apps/terminal/src/lib.rs:758-778 | Attempts that overlap are written twice, so the order of start and settlement is needed. |
| TerminalText.FinishLineEndsLine | apps/terminal/src/lib.rs:851-860 | After finishing the line the output ends with a line feed. |
| TerminalText.CliRenderer.WriteModelEvents | apps/terminal/src/lib.rs:1537-1554 | The loop writes each undelivered text delta once and moves the cursor to the end of the prefix. |
| TerminalText.CliRenderer.WriteEvent | apps/terminal/src/lib.rs:750-849 | Each event goes to start, snapshot, settlement or plain output as specified. |
| PngScan.AcceptedTiles | apps/web/image-bounds.js:70-81 | An accepted PNG is the serialization of a list of chunks with one header first, one empty end last and no animation; its area is within the limit. |
| PngScan.TilingAccepted | apps/web/image-bounds.js:70-81 | Every such list is accepted, so the scan accepts exactly these inputs. |
| PngScan.BoundedPng | apps/web/image-bounds.js:70-81 | The scan loop terminates on every input and computes the specified outcome. |
| GifScan.AcceptedTiles | apps/web/image-bounds.js:82-99 | An accepted GIF is the serialization of a screen, blocks with exactly one image inside the screen, and a trailer at the very end. |
| GifScan.TilingAccepted | apps/web/image-bounds.js:82-99 | Every such image is accepted. |
| GifScan.BoundedGif | apps/web/image-bounds.js:82-99 | The scan loop terminates on every input and computes the specified outcome. |
| GifScan.Blocks | apps/web/image-bounds.js:86 | The inner loop skips sub-blocks exactly to their terminator. |
| WebpScan.AcceptedTiles | apps/web/image-bounds.js:100-119 | An accepted WebP is the serialization of padded chunks, none animated or malformed, at least one with an image, every declared area within the limit. |
| WebpScan.TilingAccepted | apps/web/image-bounds.js:100-119 | Every such list of chunks is accepted. |
| WebpScan.TwoImagesAccepted | apps/web/image-bounds.js:103-119 | Not at most one frame: a container with two image chunks is accepted. |
| WebpScan.BoundedWebp | apps/web/image-bounds.js:100-119 | The scan loop terminates on every input and computes the specified outcome. |
| ImageBounds.BoundedImage | apps/web/image-bounds.js:69-120 | An image is charged to the budget only if its scan accepts it and its area is left; otherwise the budget is unchanged. |
| ImageBounds.InspectedAreaBounded | apps/web/image-bounds.js:29-33 | Every accepted area is at most 16,777,216 pixels. |
| ImageBytes.AdmittedWithinBudget | apps/web/image-bounds.js:4-10 | Over any sequence of requests the admitted areas never exceed the budget. |
| ImageBytes.ImageBudget.Admit | apps/web/image-bounds.js:4-10 | A request is refused exactly when it would exceed the budget, and then admits nothing. |
| ImageBytes.BytesRoundTrip | apps/web/image-bounds.js:36-37 | Four bytes read as a number are written back as the same bytes, in either order. |
| NavigationTitles.TitlesTellApart | apps/web/navigation-presentation.js:5-26 | Titled conversations show their title, and two untitled ones with the same creation time never show the same label. |
| NavigationTitles.WidthExceedsCommon | apps/web/navigation-presentation.js:15-19 | One past the prefix shared with the sorted neighbours is past the prefix shared with every other id. |
| NavigationTitles.LabelsDiffer | apps/web/navigation-presentation.js:15-20 | Sliced at that width, any two ids differ. |
| NavigationTitles.CommonShrinks | apps/web/navigation-presentation.js:2 | In sorted order the shared prefix only shrinks with distance. |
| NavigationTitles.NavigationPresentation | apps/web/navigation-presentation.js:5-22 | The loops that fill the maps compute the specified titles. |

## Left out

- IndexedDB, BroadcastChannel, workers, message ports, the DOM, timers, sockets and threads: only atomic transactions, replies in any order and timeouts at any time remain.
- Shape checks of saved values field by field: `DraftRecords.ValidRecord` keeps sizes, counts, revisions and the pending clauses; hexadecimal and identifier spellings, the exact key sets of stored objects and the JSON text of references are not modelled.
- Drafts: listing by pane, `discardAllSaved`, schema upgrade and the memo of the open database.
- Draft editor: the local revision counter is unbounded, so an editor that exhausts 2^53 edits is not modelled; change notifications and byte counts shown to the user are omitted.
- Image previews: the read call itself, blob construction and the snapshot for diagnostics; a URL is a number, and failing to create one is an outcome of the read.
- Mounts: selection of renderers and schemas, offer revisions and the limit of 32 generations are choices of the environment; input fencing by `active` and abort signals, host capabilities and DOM updates are not modelled.
- Document connection: presentation frames, transport termination and the text of errors; a call counts as settled when it leaves the table, although its promise callbacks run later.
- DocumentConnection.Connection.AskForReceipt: a receipt request that cannot be posted fails the connection in the same step, while the program does so in a later microtask, so steps that run between the two are not modelled.
- DocumentConnection.Connection.ResumeDisconnect: the outcome of each wait is given, so the thirty second limits appear as failed waits.
- Resident manager: sockets, package leases, asset refresh, the desktop listener, and which conflicts a port or source causes; a cancelled task is not modelled, and a listener whose disposal reported an unclean end is a state of its own that does not count as running.
- External drafts: notification callbacks are the steps that may run between the visits of `clear`.
- Layouts: docks of sessions, column widths, and windows other than the one that saves; numbers are reals, so rounding errors of floating point are not modelled. Each added intent is a new object, as its callers make it.
- Device store: the transaction over several buckets, change notification, and how many bytes a record takes, which is a parameter.
- Strings and record keys: ordered by Dafny characters, while the program compares UTF-16 code units; ids and keys are sorted by the former here.
- DeviceRecords.WriteRefuses: the order in which several problems of one write are reported is modelled by `Write` but not stated here.
- Terminal: argument parsing, JSON output, status lines on standard error, images, base64 and the encoding of records; a record has a size, and a prefix is a number of records. Control characters are written as they are.
- TerminalText.ReadAfterMeaning: a position that starts no record is not decoded further; no run produces one.
- Image bounds: the SVG, JPEG, BMP and ICO branches and the sniffing of other resources.
- Navigation: attention, group restoration, recency labels; two different creation times may be formatted alike, and then labels are not compared.
- Sound but smaller relatives of these machines: browser tickets, the desktop close state, starting drafts, settings and notices.
