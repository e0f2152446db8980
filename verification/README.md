# A verified model of xdr-cli's stateful cores

xdr-cli is a command-line client for Microsoft Defender XDR. Several of its commands are
protocols rather than requests: many processes share one session log and one token cache,
a collector spends a byte budget on a device, two pagers claim completeness against a
server they do not control, and a pruner deletes result bundles that other state refers
to. This project states what those protocols promise and proves it for every input, every
interleaving and every point of failure.

| files | system part |
|---|---|
| `SessionLog`, `SessionSafety`, `SessionFiles` | the session log: any number of processes, each a sequence of lock, read, truncate, write and append steps, stopped anywhere, also inside a line; the object that one process uses |
| `LearningGate`, `SessionChoice`, `SessionRuns` | the learning gate on top; the session it looks at and the one that is recorded; runs in which promises fail |
| `Lock`, `TokenCache`, `TokenManager` | the two-level lock, the token cache shared by processes that may be killed, and the manager object of one process |
| `EventLogs`, `Collector`, `CollectorRun` | listing, selection and collection of event logs with a write-ahead manifest, a byte budget and an owned remote session |
| `DeviceHistory`, `DeviceTags` | both paged histories, and tag replacement beside other writers |
| `Timeline` | the forward-scrolling timeline and its exact upper bound |
| `Shape`, `Pointer`, `Bundle`, `BundleWriters`, `BundleReader` | observed shapes, JSON pointers, both bundle writers, the verifying reader and its pages |
| `Prune`, `PruneRun` | the references that protect a bundle, the prune plan and the deletion |

Code that changes state in place is a class with methods proved against a specification;
interleavings of processes are state machines whose runs are lists of actions; servers,
disks and other writers are arbitrary functions that answer each request.

Some promises are false of the code at a corner. There the model keeps the code, a lemma
shows the failure on a concrete input, and another states exactly when the promise holds:

- A process stopped between truncating and rewriting the sequence counter, or a flush that
  cannot read it, restarts the numbering (`TornCounterRepeatsANumber`,
  `UnreadCounterRepeatsANumber`, `NumbersSoundIff`).
- A flush or a `session end` that cannot read the log takes the session for open and writes
  behind the end record (`UnreadEndIsOverrun`, `UnreadEndIsWrittenTwice`, `EndIsFinalIff`).
- A process stopped inside an append leaves a line without its newline. The next line is
  glued to it and the scans skip both: a summary is lost (`CutLineSwallowsTheSummary`,
  `EndFollowsSummaryIff`), or an ended session is open again (`FeedbackReopensTheSession`,
  `EndedForGoodIff`).
- A command passes the learning gate while its actor owes an annotation if the gate looks at
  another session than the recorded one, finds a help token or cannot read the log; or its
  annotation is destroyed behind it (`BlindGateIsASecondDebt`, `UnreadGateIsASecondDebt`,
  `GluedAnnotationIsASecondDebt`, `OwesAtMostOneIff`, `GateMissesIff`).
- A token cache that exists but cannot be read is taken for an empty one, and the next save
  replaces it (`UnreadableFileLosesAToken`, `SaveKeepsIff`).
- After a logout a confidential application fills the cache again without anybody signing
  in (`CredentialsEndALogout`, `FileHasTokensIff`).
- `non_null_count` looks only at the first value of a row (`FirstNullHidesTheRest`,
  `NonNullIsExactIff`), although its name says otherwise.
- The documentation of `write_result` promises both files or neither. An interruption or a
  late failure breaks that in either direction, and the two writers differ on interruptions
  and on a full disk (`InterruptedRename`, `LateFailure`, `InterruptedBetween`;
  `BothOrNeitherIff`, `MetadataAloneIff`, `NeverBareIff`, `WritersAgree`,
  `FailureLeavesNothingIff`).
- The client accepts events in the last microsecond of a whole-second bound, but does not
  ask the server for them (`LastMicrosecondIsMissed`, `LastMicrosecondIsServedIff`).
- Deleting a proposal draft and pruning its evidence makes every later prune refuse while
  the proposal's result bundle is kept (`DeletedDraftBlocksTheNextPrune`,
  `NextPruneIsPlannableIff`).

## Model

| member | source | states |
|---|---|---|
| SessionSafety.LogOnlyGrows | src/xdr_cli/sessions.py:771-779 | in every run every line that ends in a newline stays where and as it is; only an open last line can change |
| SessionSafety.EndIsFinalIff | src/xdr_cli/sessions.py:802-886 | at most one end record, directly after its summary or the remains of it, and no invocation record after it, throughout a run with processes stopped anywhere, if and only if no flush or end section that could not read the end record went on to write its own record behind it |
| SessionSafety.EndFollowsSummaryIff | src/xdr_cli/sessions.py:875-886 | every end record directly follows its whole summary throughout a run, if and only if no end section found an open line when it wrote its summary and went on to write its end record |
| SessionSafety.EndedForGoodIff | src/xdr_cli/sessions.py:802-826 | a session that has ended at any point of a run stays ended, if and only if no line was glued to its only end record, which lacked its newline |
| SessionSafety.EndTotalsHoldIff | src/xdr_cli/sessions.py:848-886 | the end record's final number and the counts of its summary, where that is whole, equal the counter and the log's own counts throughout a run, if and only if no flush that could not read the end record rewrote the counter and no end section wrote a final number that it could not read |
| SessionSafety.NumbersSoundIff | src/xdr_cli/sessions.py:180-207 | numbers strictly increase in file order and never exceed the counter throughout a run, if and only if no process stopped between truncating and rewriting a counter already in use, or rewrote it after its read had failed |
| SessionSafety.ContiguousIffNothingLost | src/xdr_cli/sessions.py:1102-1127 | as long as the numbering has not started again, and with no allocation under way, the numbers are exactly 1..n and the counter is n, if and only if no allocated number was lost: to a process that stopped, or to a line glued to an open one |
| SessionSafety.HolderMakesProgress | src/xdr_cli/_lock.py:49-77 | whoever holds the log lock can always take its next step and comes closer to releasing it: the nested locks never deadlock |
| SessionSafety.OneHolder | src/xdr_cli/_lock.py:49-77 | no two processes are inside the locked section of one session |
| SessionSafety.InvRun | src/xdr_cli/sessions.py:829-1127 | the invariant on locks, log shape, end records, counter and the holder's local facts survives every run, also where reads fail |
| SessionFiles.Store.AlreadyEnded | src/xdr_cli/sessions.py:802-826 | the scan finds an end record exactly when there is one and the log can be read |
| SessionFiles.Store.CountInvocations | src/xdr_cli/sessions.py:855-870 | the counting loop agrees with the log's number of invocations and failures |
| SessionFiles.Store.ActorNeedsAnnotation | src/xdr_cli/sessions.py:1179-1230 | one pass over the log returns the last gated, unrefused invocation of the actor that no annotation refers to; none if the log cannot be read |
| SessionFiles.Store.DoFlush | src/xdr_cli/sessions.py:1082-1127 | a log seen as ended is left alone; otherwise one number is allocated, from 0 if the counter cannot be read, a missing header repaired and the record appended |
| SessionFiles.Store.WriteSessionEnd | src/xdr_cli/sessions.py:829-886 | unless the log is seen as ended, appends the summary and the end record once, with the log's own counts and the counter as it could be read |
| SessionFiles.Store.WriteAnnotation | src/xdr_cli/sessions.py:1260-1330 | annotates the actor's pending invocation or an existing target, and writes nothing otherwise or if the log cannot be read |
| SessionFiles.Store.AppendFeedback | src/xdr_cli/sessions.py:889-948 | numbers and appends feedback, also after the end, but only to a log whose header can be read |
| SessionFiles.Recorder.CheckLearningGate | src/xdr_cli/main.py:314-361 | blocks exactly the command without help token, other than `annotate`, `session` and `history`, whose actor owes an annotation in the open learning session that the gate finds, whichever session is recorded; a log that cannot be read has no end, or no debt; marks the recorder exactly when it blocks |
| SessionFiles.Recorder.Annotate | src/xdr_cli/commands/annotate_cmd.py:70-95 | writes the annotation, or nothing and then also no record of the attempt |
| SessionFiles.Recorder.Flush | src/xdr_cli/sessions.py:1059-1080 | records the invocation unless there is no session, recording was skipped or the session is seen as ended |
| SessionFiles.SectionIsAtomic | src/xdr_cli/sessions.py:1082-1127 | in every run segment, with anything done by others in between and any of its reads failing, a lock holder that is not stopped leaves exactly an effect of its section on the files it found |
| SessionFiles.OthersLeaveTheHolderAlone | src/xdr_cli/_lock.py:49-77 | no enabled step of anybody else changes the files, the log lock or the holder's own point |
| SessionFiles.SectionCanFinish | src/xdr_cli/_lock.py:49-77 | in whatever state the others are and whichever of its reads fail, the holder can run its section to the end at once |
| SessionFiles.FlushSection | src/xdr_cli/sessions.py:1082-1127 | the machine's flush section has exactly the effect of the method, whichever reads fail |
| SessionFiles.EndSection | src/xdr_cli/sessions.py:829-886 | the machine's end section has exactly the effect of the method, whichever reads fail |
| SessionFiles.AnnotationSection | src/xdr_cli/sessions.py:1312-1330 | the machine's annotation section has exactly the effect of the method |
| SessionFiles.FeedbackSection | src/xdr_cli/sessions.py:889-948 | the machine's feedback section has exactly the effect of the method, whether the counter can be read or not |
| LearningGate.OwesAtMostOneIff | src/xdr_cli/main.py:314-361 | when each actor runs its dispatched commands one after another, no actor owes two annotations at any point, if and only if none that owed one had a further record by a command whose gate was blind (a help token, or no session or another one found), could not read the log, or had let it through on an annotation or end record to which a line was glued before the record, or whose flush could not read that the session had ended |
| LearningGate.NeverTwoPending | src/xdr_cli/main.py:630-686 | so if every command is free of help tokens and recorded in the session that the gate finds, no read fails and no process is stopped just before the newline of its line, no actor ever owes two annotations, however actors interleave |
| LearningGate.TheGateKeepsItsWord | src/xdr_cli/main.py:314-361 | a command that a seeing, reading gate has let through has an actor that owes nothing from there to its record, or an ended session, whatever others do but destroy what the gate relied on |
| LearningGate.AnnotationClearsIff | src/xdr_cli/sessions.py:1260-1330 | the annotation that resolves its own target clears the whole debt, if and only if it is not glued to an open line or that line is the debt |
| SessionChoice.GateMissesIff | src/xdr_cli/sessions.py:614-721 | the gate misses the recorded session if and only if `XDR_SESSION` is unset, at least two sessions are active and exactly one is anchored to the command's subject |
| SessionChoice.EarlyGateMissesIff | src/xdr_cli/commands/alerts_cmd.py:150-166 | `alerts show`, gated before it is resolved, is missed then and also if no active session is about the alert and there is none, or only an automatic one about something else |
| SessionChoice.BlindIff | src/xdr_cli/main.py:630-686 | so the gate is blind to a recorded command exactly in those states or because of a help token |
| SessionChoice.ConcurrentSessionHidesTheAnchored | src/xdr_cli/sessions.py:269-301 | a concrete pair of sessions in which the command is recorded in one and the gate finds none |
| SessionRuns.TornCounterRepeatsANumber | src/xdr_cli/sessions.py:180-189 | a reached run in which two records carry the same number |
| SessionRuns.UnreadCounterRepeatsANumber | src/xdr_cli/sessions.py:174-190 | a reached run, with nobody stopped, in which a failing read of the counter has the same result |
| SessionRuns.UnreadEndIsOverrun | src/xdr_cli/sessions.py:811-826 | a reached run in which a failing read of the log puts an invocation record behind the end record |
| SessionRuns.UnreadEndIsWrittenTwice | src/xdr_cli/sessions.py:811-826 | a reached run in which it puts a second end record there |
| SessionRuns.BlindGateIsASecondDebt | src/xdr_cli/main.py:309-361 | for every command with a help token, or whose gate finds no session or an open other one, a reached disciplined run that ends with two debts of one actor |
| SessionRuns.UnreadGateIsASecondDebt | src/xdr_cli/sessions.py:1197-1226 | for every command that its gate sees, a reached disciplined run in which a failing read of the log ends with two debts |
| SessionRuns.GluedAnnotationIsASecondDebt | src/xdr_cli/sessions.py:1312-1330 | for every such command, a reached disciplined run without failing reads in which feedback is glued to an annotation behind the gate, with two debts |
| SessionRuns.CutLineSwallowsTheSummary | src/xdr_cli/sessions.py:771-779 | a reached run in which the end record follows no summary |
| SessionRuns.FeedbackReopensTheSession | src/xdr_cli/sessions.py:889-948 | a reached run in which feedback is glued to the end record and the next command is recorded |
| SessionRuns.AnnotateIsTheWayOut | src/xdr_cli/main.py:300-336 | from every state of a disciplined run in which nobody holds a lock, the log is whole and its session open, and an actor owes its one annotation: its `annotate` passes the gate, clears the debt and leaves none, whatever others are waiting |
| SessionChoice.ResolutionIs | src/xdr_cli/sessions.py:614-721 | an invocation is recorded in the only active session about its incident, failing that in the only one about its alert, failing that in the only one, unless that is automatic and about something else; with several nowhere, with none in a new one exactly if the command may open it |
| Lock.MutualExclusion | src/xdr_cli/_lock.py:36-77 | with table entries forgotten, waits timing out and processes killed anywhere, at most one use of `exclusive_lock`, of all threads of all processes, is inside the section of a path; a thread that nests paths makes several uses |
| Lock.OneBudget | src/xdr_cli/_lock.py:57-77 | both waits together stay within the one timeout |
| TokenCache.NothingSavedIsLost | src/xdr_cli/auth.py:258-283 | in every run with kills anywhere the file holds exactly what all transactions since the last logout saved, unless a save was lossy |
| TokenCache.SaveKeepsIff | src/xdr_cli/auth.py:265-283 | a save keeps everything saved before if and only if its reload could read the file or it renews every saved key |
| TokenCache.ReadableRunsAreNotLossy | src/xdr_cli/auth.py:265-283 | without read failures no save is lossy |
| TokenCache.NoTokenSurvivesLogout | src/xdr_cli/auth.py:444-453 | every token on disk was acquired after the last logout |
| TokenCache.OnlySourceEndsLogout | src/xdr_cli/auth.py:285-351 | after a logout no process, however old its memory, brings a token back until somebody signs in or a process with client credentials acquires one |
| TokenCache.FileHasTokensIff | src/xdr_cli/auth.py:303-315 | while nothing saved has dropped a token, the file holds tokens after a logout if and only if somebody has signed in since, or a confidential process has acquired one, and saved it |
| TokenCache.FileHasTokensIffKept | src/xdr_cli/auth.py:258-283 | with drops, and as long as no save was lossy: if and only if some saved acquisition was not followed by a saved drop of its key |
| TokenCache.CredentialsEndALogout | src/xdr_cli/auth.py:303-315 | a reached run in which a token is saved after a logout although nobody has signed in |
| TokenCache.OneHolder | src/xdr_cli/auth.py:265-283 | transactions and logouts exclude one another |
| TokenCache.UnreadableFileLosesAToken | src/xdr_cli/auth.py:270-277 | a concrete run in which a second login throws away the first one's token |
| TokenManager.Manager.GetToken | src/xdr_cli/auth.py:285-351 | granted if and only if the lock was taken, the reloaded cache has an account or the application is confidential, the service granted and a changed cache was written; not authenticated if and only if there is neither account nor credentials; denied if and only if asked and refused; the file depends on the file, the answer and the write alone, and only a granted, changed cache replaces it |
| TokenManager.Manager.Login | src/xdr_cli/auth.py:353-442 | whatever the two sign-ins answer and whichever saves fail: exactly when the login is granted or denied, everything acquired in memory, and what of it the file holds |
| TokenManager.SuccessSavesAllIff | src/xdr_cli/auth.py:353-442 | a login that reports success has saved everything it acquired, if and only if it is not that an earlier save failed before replacing the file and the device code then changed nothing in the cache; so always if a granted device code adds its token |
| TokenManager.FirstTokenIsKept | src/xdr_cli/auth.py:373-379 | once the first save has replaced the file, the first token stays whatever happens to the rest |
| TokenManager.Manager.SaveCache | src/xdr_cli/auth.py:258-263 | writes only a changed cache, and then the whole of it or nothing |
| TokenManager.Manager.Logout | src/xdr_cli/auth.py:444-453 | removes the file and everything this manager remembers |
| TokenManager.TransactionIsGetToken | src/xdr_cli/auth.py:258-351 | for every answer and write, of confidential and other applications, also on an empty cache and for every failed outcome, the machine's transaction leaves the file as the method does and no other process touched |
| TokenManager.AcquiringIsEnabled | src/xdr_cli/auth.py:303-322 | the machine has such a transaction for every answer that only acquires, with client credentials from any cache, silently from one with an account |
| EventLogs.ParseListing | src/xdr_cli/live_response/event_logs.py:76-99 | every surprise in the listing refuses it; what is accepted is fetchable and has names distinct ignoring case |
| EventLogs.ListingIs | src/xdr_cli/live_response/event_logs.py:76-99 | a listing is accepted if and only if every entry is readable, every event log in it has a size and a name that can be fetched, and no name repeats in another case; it is then exactly these files, in order |
| EventLogs.NameIs | src/xdr_cli/live_response/event_logs.py:40-41 | the names that can be fetched, by their length and their characters |
| EventLogs.Select | src/xdr_cli/live_response/event_logs.py:119-142 | the rows are a selection: absent logs first, in request order and as often as requested, then each wanted file once, in the order of its first request, or by name when all are wanted; sizes judged |
| EventLogs.RowIs | src/xdr_cli/live_response/event_logs.py:133-142 | a listed file is planned if and only if its size is within the bounds, both included, and otherwise says which bound it misses |
| EventLogs.SelectionNeverRepeats | src/xdr_cli/live_response/event_logs.py:119-142 | no two selected rows name the same remote file, even in another case |
| EventLogs.SortedIsOrdered | src/xdr_cli/live_response/event_logs.py:119-126 | the order of a complete selection is the listing sorted by lower-cased name |
| Collector.EveryPrefixIsSound | src/xdr_cli/commands/live_response_collect_cmd.py:358-398 | from the invariant: after any number of effects no row that the manifest on disk shows as planned has been submitted, nothing was submitted twice or after a stop, and no more than the total was saved |
| Collector.KeptBySubmission | src/xdr_cli/commands/live_response_collect_cmd.py:369-380 | sending a row already marked on disk keeps crash safety, single submission and silence after a stop |
| Collector.KeptByDownload | src/xdr_cli/commands/live_response_collect_cmd.py:413-431 | saving a download moves its bytes from the budget to the row |
| CollectorRun.Collection.Fetch | src/xdr_cli/commands/live_response_collect_cmd.py:358-398 | a row is sent exactly when it is affordable, buildable, recorded first and audited, and then says what the service answered |
| CollectorRun.Collection.FetchRow | src/xdr_cli/commands/live_response_collect_cmd.py:296-313 | a planned row ends as its job answered, and goes on, stops the run with the reason it reports, or breaks it off, by the answers and saves alone |
| CollectorRun.Collection.FetchAll | src/xdr_cli/commands/live_response_collect_cmd.py:296-313 | row after row is tried, with the budget that the ones before it left, until one stops the run or breaks it off; a run that does neither leaves no row planned |
| CollectorRun.Collection.Accept | src/xdr_cli/commands/live_response_collect_cmd.py:388-398 | an accepted row keeps its command ID and recovery commands, whatever fails afterwards |
| CollectorRun.Collection.Follow | src/xdr_cli/commands/live_response_collect_cmd.py:403-431 | the row ends completed, failed or still accepted as the poll and the transfer say, and the budget pays for what was saved |
| CollectorRun.Collection.FollowFailed | src/xdr_cli/commands/live_response_collect_cmd.py:381-398 | a failure after acceptance is reported on the row and stops the run exactly when it is systemic, budget-bound or unsaved, with that reason |
| CollectorRun.Collection.Save | src/xdr_cli/live_response/event_logs.py:159-164 | a save replaces the manifest or fails, before or after replacing it, and leaves exactly that on record |
| CollectorRun.Collection.Collect | src/xdr_cli/commands/live_response_collect_cmd.py:273-313 | whatever is sent belongs to a selection of the listing that fits the total and was saved first; unless the session, the listing, the sizes or that save are in the way, the loop is run over exactly that selection |
| CollectorRun.Collection.Run | src/xdr_cli/commands/live_response_collect_cmd.py:200-228 | every prefix of all effects of a run is sound in that sense and the budget is conserved; success means every row completed, absent or skipped, never stopped, and an opened session closed once and confirmed inactive; where everything goes well every wanted file is fetched unless the ones before it have used up the whole total, and the run succeeds if and only if none is left |
| CollectorRun.Collection.Close | src/xdr_cli/commands/live_response_collect_cmd.py:253-271 | one close request; anything but a confirmed inactive session is a failure, noted once, and only an interruption or an unexpected error is raised |
| CollectorRun.Collection.Incomplete | src/xdr_cli/commands/live_response_collect_cmd.py:461-478 | reports a row that was neither completed, absent nor skipped by size |
| CollectorRun.ListedTotal | src/xdr_cli/commands/live_response_collect_cmd.py:285-290 | sums the listed sizes of the planned rows |
| DeviceHistory.ConsumePage | src/xdr_cli/device_management.py:503-525 | one page adds exactly its new actions of this device, in order, up to the limit |
| DeviceHistory.ReadPages | src/xdr_cli/device_management.py:466-539 | the page loop stops at the first page where a stop test holds, with every counter accurate |
| DeviceHistory.PortalHistory | src/xdr_cli/device_management.py:442-564 | at most `limit` distinct actions in at most 100 requests, the first ones served, each with an ID and of this device, ignoring case; complete exactly when nothing repeated and every page reported the number yielded; every row served is yielded or counted as a duplicate unless the limit cut the last page; the stop reason is the true one; a run raises only for a page that cannot be used or for a row of another device or without ID, and has yielded exactly what came before it |
| DeviceHistory.OwnActionIsYielded | src/xdr_cli/device_management.py:442-564 | a page that reports one action of this device, in a list or alone, is yielded and complete |
| DeviceHistory.ForeignActionRaises | src/xdr_cli/device_management.py:504-512 | an action of another device, or without device or ID, raises with nothing yielded |
| DeviceHistory.EmptyHistory | src/xdr_cli/device_management.py:470-490 | an empty history is complete if reported as empty, with or without a list, incomplete if not counted; a page without results, or with more than it reports, raises |
| DeviceHistory.YieldedAreFirstDistinct | src/xdr_cli/device_management.py:503-525 | page by page what is yielded is the first `limit` distinct actions of everything served |
| DeviceHistory.CountsDecide | src/xdr_cli/device_management.py:540-542 | the three counters decide whether every page reported one and the same count |
| DeviceHistory.FixedListIsRead | src/xdr_cli/device_management.py:442-564 | against one unchanging list the run yields its first min(N, limit) actions and is complete if and only if N <= limit |
| DeviceHistory.OfficialHistory | src/xdr_cli/device_management.py:654-729 | for every limit and every server the run ends for a reason found in its last page; every action has an ID and is of this device, ignoring case, and none repeats; the page bound is never a reason |
| DeviceHistory.OfficialAction | src/xdr_cli/device_management.py:654-729 | one answer with one action is yielded and complete if it is of this device, and raises if not |
| DeviceHistory.OfficialListIsRead | src/xdr_cli/device_management.py:654-729 | against one unchanging list the run yields its first min(N, limit) actions and is complete if and only if N < limit |
| DeviceTags.Observed | src/xdr_cli/device_management.py:124-138 | accepts exactly the bounded responses of valid, distinct names |
| DeviceTags.Requested | src/xdr_cli/device_management.py:115-121 | accepts exactly bounded lists of valid, distinct names |
| DeviceTags.ValidTagIs | src/xdr_cli/device_management.py:104-112 | a valid name has 1 to 1024 characters, none a control character and some not a space, by their code points |
| DeviceTags.DistinctBySize | src/xdr_cli/device_management.py:119-120 | comparing the size of the set with that of the list finds every duplicate |
| DeviceTags.Portal.SetDeviceTags | src/xdr_cli/device_management.py:287-331 | a replacement is sent only if the device answers and the last read found exactly the expected tags; a success was confirmed and read back; alone it succeeds |
| DeviceTags.Portal.UpdateDeviceTag | src/xdr_cli/device_management.py:333-342 | success means the last read is the first plus or minus exactly the one tag, whatever others write; alone it succeeds unless a new tag exceeds the bound |
| DeviceTags.DesiredTags | src/xdr_cli/device_management.py:338-342 | the requested set is the one read with or without the tag, valid exactly within the bound |
| Timeline.CeilIsLeast | src/xdr_cli/api/timeline.py:40-54 | the requested bound is the least whole second not before the caller's |
| Timeline.RoundingLosesNothing | src/xdr_cli/api/timeline.py:30-90 | the requested window contains every instant between the caller's bounds |
| Timeline.LastMicrosecondIsServedIff | src/xdr_cli/api/timeline.py:30-90 | everything the client would keep lies in the requested window exactly when the bound is not a whole second |
| Timeline.LastMicrosecondIsMissed | src/xdr_cli/api/timeline.py:30-90 | a concrete instant that is kept but not asked for |
| Timeline.ScanFraction | src/xdr_cli/api/timeline.py:150-160 | the digit scan splits the fraction from the offset at the first character that is no digit of any script, and brings it to six digits |
| Timeline.ScanFloors | src/xdr_cli/api/timeline.py:150-160 | the six digits are the microsecond the fraction falls in, whatever its length |
| Timeline.PathIsStable | src/xdr_cli/api/timeline.py:99-117 | the next path always names the endpoint; of the URL exactly the one prefix and then leading slashes are dropped and all the rest is taken over verbatim; resolving it again changes nothing |
| Timeline.Stream | src/xdr_cli/api/timeline.py:168-232 | yields the events in bounds of the pages read, follows each `Next`, stops at the first page that is last or fails at the first partial one |
| Timeline.KeptCounts | src/xdr_cli/api/timeline.py:205-214 | every event in bounds is kept as often as it was served, and no other |
| Timeline.StreamIsExact | src/xdr_cli/api/timeline.py:200-232 | against a forward scroll the events with readable times are exactly those at or before the bound, in order and once; stopping early loses none |
| Shape.WalkFinds | src/xdr_cli/results.py:122-132 | the walk finds at every path exactly the values that path leads to, in document order |
| Shape.ShapeIndex.Update | src/xdr_cli/results.py:153-168 | folding one more row keeps the index equal to the entries of all rows |
| Shape.CountsMean | src/xdr_cli/results.py:153-168 | `present_count` is the number of rows with the path; `non_null_count` those whose first value is not null; both within the row count |
| Shape.TypesMean | src/xdr_cli/results.py:153-168 | the types are exactly those seen at the path |
| Shape.ParentCountsMore | src/xdr_cli/results.py:122-168 | a parent is present in at least as many rows as its child |
| Shape.ShapeIsOrderFree | src/xdr_cli/results.py:153-189 | the same rows in another order give the same index |
| Shape.NonNullIsExactIff | src/xdr_cli/results.py:163-168 | `non_null_count` counts the rows with a non-null value exactly when none hides one behind a null first value |
| Shape.FirstNullHidesTheRest | src/xdr_cli/results.py:163-168 | a concrete row whose non-null value is not counted |
| Shape.PropertyPathsAreUnique | src/xdr_cli/results.py:122-132 | without array steps a path leads to one value at most, so there the count is exact |
| Pointer.EscapeRoundTrip | src/xdr_cli/results.py:145-150 | decoding as in section 4 of RFC 6901 undoes the escaping of every name |
| Pointer.PointerRoundTrip | src/xdr_cli/results.py:145-150 | splitting a pointer and decoding its segments gives back the path's names |
| Pointer.PointersCollideIff | src/xdr_cli/results.py:145-150 | two paths share a pointer exactly where each step is equal but for an array step against a property named `*` |
| Bundle.BindsIsUnique | src/xdr_cli/results.py:350-410 | the rows determine the metadata that binds them |
| BundleWriters.ResultStreamWriter.WriteRow | src/xdr_cli/results.py:331-361 | an accepted row extends data, counts, digest, shape and previews; a refused one changes nothing |
| BundleWriters.ResultStreamWriter.Finish | src/xdr_cli/results.py:363-459 | a fault of any kind at any point leaves exactly the files of that point, cleaned up on an exception unless closing the file raises too; without one both files under their final names, bound to the rows |
| BundleWriters.StreamResult | src/xdr_cli/results.py:324-467 | the `with` block: the same for faults at any row too, cleaned up on an exception and on an interruption of an unfinished writer, not on a kill |
| BundleWriters.WriteResult | src/xdr_cli/results.py:519-654 | the same contract for all rows at once, cleaned up on an exception only |
| BundleWriters.WritersAgree | src/xdr_cli/results.py:331-654 | both writers, met by the same fault, end with the same verdict and the same data, count, digest and shape wherever both leave any; they leave the same final files exactly unless an interruption strikes after the data file is noted, before the writer is finished, and the removal of some noted file works |
| BundleWriters.BothOrNeitherIff | src/xdr_cli/results.py:494-498 | both final files or neither, for each writer exactly by the point of the fault, its kind and the failing removals |
| BundleWriters.FailureLeavesNothingIff | src/xdr_cli/results.py:461-498 | if a row, the flush, the metadata or either rename raises and the removals work, no file of the attempt is left, except the temporary data file exactly if a row of the stream writer fails and closing the file fails again |
| BundleWriters.MetadataAloneIff | src/xdr_cli/results.py:461-467 | metadata is left without its data exactly if a clean-up removes the data and the metadata is not noted yet or cannot be removed |
| BundleWriters.NeverBareIff | src/xdr_cli/results.py:420-424 | at no moment does a reader find metadata without the data it binds, exactly unless a clean-up removes the data after the metadata was renamed |
| BundleWriters.InterruptedRename | src/xdr_cli/results.py:421-424 | for all rows, an interruption after which both writers leave the data file alone |
| BundleWriters.LateFailure | src/xdr_cli/results.py:423-424 | for all rows, a failure after which both leave the metadata alone |
| BundleWriters.InterruptedBetween | src/xdr_cli/results.py:327-329 | for all rows, an interruption after which only `write_result` leaves the data file |
| BundleReader.VerifiedResultRows | src/xdr_cli/commands/results_cmd.py:558-612 | the metadata must lie where it says, after its run ID, its data beside it and below the results; then one pass computes digest, count, the wanted page and the matching total, with each error in its place |
| BundleReader.ReadIs | src/xdr_cli/commands/results_cmd.py:558-612 | each error of the reader and exactly when it is the one: identity first, then file, lines, digest and count |
| BundleReader.ParseIs | src/xdr_cli/commands/results_cmd.py:585-604 | the lines parse if and only if every line that is not blank is a JSON object, and the rows are these objects in order |
| BundleReader.MatchesIs | src/xdr_cli/commands/results_cmd.py:594-596 | a row matches a filter exactly by the first value of its `record_type` |
| BundleReader.MatchingCounts | src/xdr_cli/commands/results_cmd.py:594-599 | a filter keeps every matching row as often as it occurs, and no other |
| BundleReader.RoundTrip | src/xdr_cli/commands/results_cmd.py:558-612 | reading back what was written returns exactly those rows |
| BundleReader.WriterThenReader | src/xdr_cli/commands/results_cmd.py:558-612 | what either writer leaves when no fault strikes is read back as exactly the rows |
| BundleReader.WrittenIsRead | src/xdr_cli/commands/results_cmd.py:558-612 | a filtered page is the filtered list's slice with the filtered total |
| BundleReader.OnlyTheWrittenDataIsRead | src/xdr_cli/commands/results_cmd.py:566-612 | the reader accepts a bundle only if the data is what was written and the metadata lies where it was written |
| BundleReader.FollowVisitsAll | src/xdr_cli/commands/results_cmd.py:853-882 | following `next_command` visits every matching row once, in order, and stops |
| BundleReader.PagesAreFull | src/xdr_cli/commands/results_cmd.py:853-882 | every page but the last holds `limit` rows |
| Prune.VerifyEvidence | src/xdr_cli/commands/results_cmd.py:101-192 | accepts exactly the proposals whose evidence bundles are all unique, intact, of the tenant and of the right stage |
| Prune.VerifyProposal | src/xdr_cli/commands/results_cmd.py:195-344 | a binding is not live, live with its references, or broken: by its keys and path, IDs, digests, snapshot, evidence, own bundle and draft, in the order of the checks |
| Prune.LiveIs | src/xdr_cli/commands/results_cmd.py:195-344 | a proposal is live if and only if its binding is in order, its evidence verifies, and a regular draft of 1 byte to 1 MiB holds the rows of its result bundle, with the recorded size and digest; its references are its evidence and its own run |
| Prune.EvidenceIs | src/xdr_cli/commands/results_cmd.py:134-192 | a run is evidence if and only if one metadata file alone has its name and its verified, nonempty bundle is of the tenant and of each stage it is listed for |
| Prune.BoundIs | src/xdr_cli/commands/results_cmd.py:242-305 | a binding is in order if and only if its IDs, its digests and its sorted lists are |
| Prune.AscendingIs | src/xdr_cli/commands/results_cmd.py:91-97 | a list is canonical if and only if each ID is less than the next |
| Prune.EvidenceReferences | src/xdr_cli/commands/results_cmd.py:347-427 | the references are exactly what overlays, reviews, live proposals, validations and captures refer to; one part that cannot be verified refuses them all |
| Prune.RetiredIs | src/xdr_cli/schema_graph/retention.py:36-58 | an observation lapses if and only if it is automatic and some run of its evidence is missing, ambiguous, or not known to be created since the cutoff |
| PruneRun.PrunePlan | src/xdr_cli/commands/results_cmd.py:430-497 | there is a plan if and only if every part can be verified and no old unreferred bundle is inconsistent; it is then exactly the old, unreferred bundles |
| PruneRun.Results.Delete | src/xdr_cli/commands/results_cmd.py:1011-1030 | it works if and only if it has no more files to remove than can be removed; at any failing removal every bundle outside the targets is as it was |
| PruneRun.Results.Prune | src/xdr_cli/commands/results_cmd.py:940-1030 | it refuses if and only if a plan that it needs cannot be made, and asks for approval if and only if that was not given for what the first or the second plan names; otherwise exactly what the plan made under the second lock names is deleted, as far as the removals work; no bundle at or after the cutoff and none that anything refers to is touched |
| PruneRun.PinnedEvidenceStays | src/xdr_cli/schema_graph/retention.py:36-58 | evidence of an explicit observation, or of an automatic one that is all recent, stays |
| PruneRun.LiveProposalsSurvive | src/xdr_cli/commands/results_cmd.py:195-344 | every existing draft that verified before the prune verifies after it, with the same references |
| PruneRun.ReferencesPersist | src/xdr_cli/commands/results_cmd.py:347-427 | what is referred to before a prune is referred to afterwards, at any point of the deletion |
| PruneRun.NextPruneIsPlannableIff | src/xdr_cli/commands/results_cmd.py:101-344 | after a complete prune the next one with the same cutoff can be planned, if and only if the first plan kept no binding of a deleted draft while deleting all bundles of a run in its evidence |
| PruneRun.NextTargetsAreOld | src/xdr_cli/commands/results_cmd.py:452-463 | the next prune deletes only what this one was to delete: nothing after a complete one |
| PruneRun.DeletedDraftBlocksTheNextPrune | src/xdr_cli/commands/results_cmd.py:299-312 | concrete results in which that happens |

## Left out

- Session markers on disk, `touch_session` and the expiry of sessions: `SessionChoice` takes the active sessions as given, and markers that others change between a command's resolution and its gate are not modelled.
- A stop inside an append leaves nothing, a part of the line, or the line without its newline; writes that a loss of power undoes are not modelled, and the digits of a counter are written whole or not at all.
- The session log's records keep only the fields that the scans, the gate and the totals read.
- Commands that fail before their leaf callback are not in `LearningGate.DisciplinedRun`: they are recorded without passing the gate.
- A thread that takes the lock of a path again inside that path's section: `Lock` has no re-entrance.
- `CollectorRun.Collection`: rows are values in a list, not shared objects, so aliasing of row objects is not modelled; the fields `state`, `error_count`, `sha256` and `local_file` of a row are left out.
- The file transfer is used by its contract: it never saves more bytes than its cap. `live_response.transfer` is not part of this model.
- Names are compared ignoring ASCII case; the few other letters that `re.IGNORECASE` and `str.lower` treat as equal to ASCII ones are not modelled.
- `DeviceHistory`: the query window, the row contents and the printed coverage fields that do not depend on the pages are left out; `DeviceHistory.OfficialHistory` shares the row type, with `id` absent where it is not text.
- `DeviceTags`: the internal device ID in the request body and the system tags in the result are left out, and so is the official backend, which adds or removes one tag per request.
- `TokenManager`: the identity service is a parameter, and the account list is empty exactly when the cache is.
- Token acquisition in a bounded child process (`auth.py:92-150`): the child is one more process of `TokenCache`, which may be killed anywhere; its pipe and error transport are left out.
- `Timeline`: parsing a date outside its fraction is a parameter (an event's time is readable or not), and a stream is modelled for as many pages as the consumer asks for.
- `Shape`: the sorted printing order and the dotted legacy path are left out.
- `Bundle`: JSON text and SHA-256 are parameters with the contract that encoding is injective to nonblank single lines and digests are injective; query, tenant and lineage fields of the metadata, the shape ingestion hook and the receipt are left out.
- Faults before the first row of a bundle, while the directory and the temporary file are created; a clean-up that is itself cut short counts as removals that fail.
- `Prune`: the verification of overlays, reference ledgers and capture jobs yields the runs they pin, or a refusal, and a later prune is taken to find the same; paths are POSIX paths; publishing the retirement of observations and removing empty day directories are left out.
- HTTP transports, Click options, output formatting, file permissions, KQL parsing and the schema graph: no part of these protocols.
