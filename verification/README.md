# lazybrew, modelled and proved

lazybrew is a terminal interface to Homebrew. Its hard logic is a handful of
protocols that run step by step: a broker that lets sudo ask the user for a
password, a loader that shows details of the latest selection only, a queue of
confirmed operations with batch upgrades and a quit sequence, and a supervisor
that cleans up behind all of them. Beside them stand a wire codec, a walk up the
process tree with its verifier, a distance on version strings, and a query
language over a sorted list. This project models these parts and proves what they
keep.

Where the program updates an object in place, the model is a class with the same
fields and one method per operation, each proved equal to a step of a value-level
machine. The machine is then run: whole traces, all interleavings.

| files | part of the program |
|---|---|
| `Packages.dfy` | values shared by all parts |
| `Loader.dfy` | the details loader: reference machine, object, runs |
| `Protocol.dfy` | the 28-byte frame codec over partial reads and writes |
| `JobMonitor.dfy`, `JobSystem.dfy`, `JobInvariant.dfy`, `JobProperties.dfy` | the password broker: critical sections, all interleavings, invariant, theorems |
| `JobHistory.dfy`, `JobReasons.dfy`, `JobEnd.dfy` | the broker beside a history of what it heard: which password is sent, why each refusal and each failure; how a job is shut down and what its result tells |
| `UiSpec.dfy`, `UiModel.dfy` | the UI as a machine over messages, and the object that refines it |
| `UiInvariant.dfy`, `UiFlight.dfy`, `UiLedger.dfy`, `UiRuns.dfy`, `UiQuit.dfy`, `UiExamples.dfy` | what each message keeps, commands in flight, the ledger of confirmed operations, whole runs, the quit sequence, and runs in which a resize breaks it |
| `UiPrompts.dfy`, `UiOrigins.dfy`, `UiReasons.dfy`, `UiReports.dfy`, `UiEffects.dfy` | what becomes of each password prompt, where what is confirmed, trusted, loaded, cancelled, shown and reported comes from, and the exit code |
| `Supervisor.dfy`, `SupervisorProperties.dfy`, `SupervisorEscape.dfy` | the supervisor, its cleanup race, and exactly when the race is lost |
| `Ancestry.dfy` | the process walk and its verifier |
| `Version.dfy`, `VersionWriting.dfy` | version distance, the bump highlight, the outdated mark; versions written and read back |
| `Query.dfy`, `Listing.dfy`, `ListingSearch.dfy` | the query language, what the list shows, and what a search finds |

`dafny verify dfyconfig.toml` checks everything.

## What the proofs found

- A resize can take the program out of its quit sequence: it does exactly when it
  closes a dialog left open or newly cancels the held operation
  (`UiInvariant.UndoesQuitExactly`, with a whole run in `UiExamples.AQuitUndone`).
  The details loader stays stopped afterwards. Every property of quitting is
  stated for runs without such resizes; `UiRuns.HaltedForGood` holds for all of
  them: an operation that quitting has halted, and what waits behind it, stays put.
- A resize under a trust review can close a dialog left open behind it and leave
  the review waiting with no window. `UiInvariant.UpdateWindows` says exactly when,
  and `UiExamples.AReviewStranded` is a whole run that gets there: a dialog is open
  when a job succeeds, and the reload takes the window without closing it.
- A dialog left open in the same way can take a password prompt with it: when a queued
  operation starts under an open dialog and asks for a password, a resize that fits the
  operation but not the dialog closes the prompt, and its request is neither answered
  nor refused (`UiExamples.APromptLost` is a whole run; `UiPrompts.RepliesAreExactly`
  and `UiPrompts.OnlyLeftoversAbandon` say exactly when a prompt goes without a reply).
- `Supervisor.Cleanup` waits for a job only if its start command was registered or
  had handed the job over. A start command launched after closing began, as one can
  be once a resize has undone a quit, is not registered; if the UI's loop then ends
  before the command answers, a Cleanup without error can leave its job running, and
  in no other case (`SupervisorEscape.CleanupEscapesExactly`). The program's own
  quit waits for the answer, so the loop has to end by other means.
- The comments on `parseVersion` promise plain digits; the code also reads a
  leading sign (`VersionProperties.SignsAreRead`). The model follows the code.
- The two checks repeated when a retained loader target starts, the test for
  another active request at activation, and the -1 inside the highlight's walk can
  never take effect.

## Model

| member | source | states |
|---|---|---|
| `Loader.Loader.Select` | internal/info/loader.go:77-81 | choosing a package steps the reference machine, which derives the shown text and the retained target from cache, current target and active load |
| `Loader.Loader.Refresh` | internal/info/loader.go:84-94 | a new generation with an empty cache; the old load stays active but its result will not be stored |
| `Loader.Loader.Complete` | internal/info/loader.go:97-139 | a result of the active load frees the slot, is stored only in its own generation, and lets the retained target start; any other result changes nothing; what is stored is what `LoaderRuns.EveryDisplay` says of the raw result |
| `Loader.Loader.Resume` | internal/info/loader.go:119-139 | the two checks before a retained target starts, taken as the code has them |
| `Loader.Loader.Cancel` | internal/info/loader.go:149-158 | stops the loader for good and cancels the active load's context exactly when there is one |
| `Loader.Loader.SelectLocked` | internal/info/loader.go:168-199 | a known target shows its text, an unknown one shows Loading and starts or is retained, and replaces whatever was retained |
| `LoaderRuns.EveryRun` | internal/info/loader.go:97-222 | over every run: each identity is issued at most once, at most one command is in flight and the UI's pending flag says so, and an unknown target is loading or retained |
| `LoaderRuns.EveryDisplay` | internal/info/loader.go:77-147 | over every run the pane shows nothing without a choice, the failure's message or the text up to its last character that is no line break of what was delivered for the last choice since the last reload, and otherwise that it is loading |
| `LoaderRuns.ContributesOne` | internal/info/loader.go:110-115 | that is one text for each result, and the one the machine stores |
| `LoaderRuns.NothingIssuedAfterStop` | internal/info/loader.go:149-222 | after Cancel no command is issued, whatever follows, and what is on show stays until a reload clears it |
| `LoaderRuns.SettlesWithinTwo` | internal/info/loader.go:97-139 | a shown Loading ends with the current target's own details after at most two results |
| `LoaderRuns.RetainedTargetIsLive` | internal/info/loader.go:119-139 | a retained target is always of the current generation, unknown, and the current target, so the repeated checks never reject it |
| `LoaderRuns.StepKeepsInv` | internal/info/loader.go:77-222 | the invariant behind these, kept by each operation |
| `Bytes.BigEndian32Inverse` | internal/privileged/protocol.go:41-62 | the length field is a bijection on 32 bits |
| `Protocol.DecodeEncode` | internal/privileged/protocol.go:41-90 | reading an encoded frame followed by anything gives the frame back and leaves the rest |
| `Protocol.EncodeDecode` | internal/privileged/protocol.go:64-101 | every accepted byte string is the encoding of the frame it was read as |
| `Protocol.EncodeInjective` | internal/privileged/protocol.go:41-90 | no two frames share an encoding and none is a prefix of another's |
| `Protocol.Writer.WriteExact` | internal/privileged/protocol.go:103-117 | under any schedule of partial writes it ends, has written a prefix, and on success exactly its input |
| `Protocol.Writer.WriteFrame` | internal/privileged/protocol.go:41-62 | an invalid frame writes nothing; a valid one writes a prefix of its encoding, all of it on success |
| `Protocol.Reader.ReadFull` | internal/privileged/protocol.go:64-90 | under any schedule of partial reads, the first bytes of the stream and no more |
| `Protocol.Reader.ReadFrame` | internal/privileged/protocol.go:64-101 | what is read is the frame at the front of the stream, and on a sound connection every stream that has one is read |
| `Protocol.Reader.RequireEof` | internal/privileged/protocol.go:153-160 | on a sound connection, true exactly at the end of the stream |
| `Protocol.Reader.ReadRequest` | internal/privileged/protocol.go:119-138 | on a sound connection a stream is accepted exactly when it is one REQUEST frame and nothing else |
| `JobObject.Job.ClaimForPassword` | internal/privileged/privileged.go:251-268 | a password is claimed only for the active request with that identifier, before any latch, and only if it can be sent |
| `JobObject.Job.AdmitConnection` | internal/privileged/privileged.go:473-497 | one live connection at a time; a second one fails the job |
| `JobObject.Job.ActivateRequest` | internal/privileged/privileged.go:525-556 | a request becomes active only with no latch set and no other active, and its ancestors join the known processes |
| `JobObject.Job.Clear` | internal/privileged/privileged.go:603-614 | a handler takes its request back only if it is still the active one |
| `JobObject.Job.FailAuthentication` | internal/privileged/privileged.go:616-627 | a failure latch always comes with the cancel latch |
| `JobObject.Job.FinalizeResult` | internal/privileged/privileged.go:350-379 | the flags of the final result, and that a flag clears the child's error |
| `JobObject.Job.CloseWorkersDoneLocked` | internal/privileged/privileged.go:333-338 | the channel closes once, armed and idle |
| `Monitor.SectionsKeepConsistent` | internal/privileged/privileged.go:251-379 | every critical section keeps: failure implies cancellation, a result is never both cancelled and failed, and a flag excludes an error |
| `JobInvariant.StepKeepsInv` | internal/privileged/privileged.go:116-637 | the inductive invariant of the whole transition system, kept by every step of every goroutine |
| `JobInvariant.ActivationFindsNone` | internal/privileged/privileged.go:543-556 | what the invariant says of a handler about to activate: it holds the live connection and no request is active |
| `JobProperties.RequestsHaveOneOwner` | internal/privileged/privileged.go:251-274 | in every interleaving an activated request is active or was claimed by exactly one party, and the active request holds the live connection |
| `JobProperties.ClaimsAreFinal` | internal/privileged/privileged.go:251-274 | over every run a claim, once made, never changes hands |
| `JobProperties.OneFrameEach` | internal/privileged/privileged.go:603-637 | at most one terminal frame per request, always one the protocol accepts; a PASSWORD only for a verified request claimed by the UI |
| `JobProperties.ActivationGuard` | internal/privileged/privileged.go:543-549 | the half of the guard about another active request can never hold |
| `JobProperties.AnswersAreFirst` | internal/privileged/privileged.go:629-637 | nobody is ever about to answer a request twice |
| `JobProperties.QuietMeansAnswered` | internal/privileged/privileged.go:333-379 | when the workers are gone nothing is active or live, and every activated request has its frame or a call that is about to send it |
| `JobProperties.ChannelsCloseOnce` | internal/privileged/privileged.go:305-338 | workersDone closes once, exactly when armed and idle; no worker starts later, the panic is unreachable, and no handler outlives the events channel |
| `JobProperties.PasswordClaims` | internal/privileged/privileged.go:251-274 | a password is claimed only for the active, verified request with that identifier, no latch set, and the frame it becomes is valid; `JobReasons.PasswordsAreTyped` says which bytes |
| `JobProperties.ResultIsFinal` | internal/privileged/privileged.go:298-379 | latches only rise, and after finalisation no step changes the result |
| `JobProperties.ResultMeaning` | internal/privileged/privileged.go:350-443 | a result with no flag is the child's own; success means Wait returned success; a flag excludes an error; cancelled excludes failed; a clean cleanup means the child was reaped and every worker is gone |
| `JobProperties.ResultFlags` | internal/privileged/privileged.go:350-379 | no flag of the result without its latch |
| `JobProperties.RunDelivers` | internal/privileged/privileged.go:499-637 | a claimed request has its frame attempted or somebody on the way to attempt it |
| `JobHistory.OnlyTheUiSends` | internal/privileged/privileged.go:251-274 | no step but RespondPassword makes a call that is to write a password, and none changes one |
| `JobReasons.PasswordsAreTyped` | internal/privileged/privileged.go:251-274 | in every interleaving the password a connection is sent is the one RespondPassword was given for its request, whole, under the identifier it asked with; and every claim by the UI has been sent it, or has a call that is about to |
| `JobReasons.TypedOnce` | internal/privileged/privileged.go:251-274 | a password typed for a request is never replaced |
| `JobReasons.FramesTellWhy` | internal/privileged/privileged.go:499-614 | any other frame is a refusal without payload under the identifier asked with: an error if the connection was turned away, timed out or lost or an authentication had failed when it was refused, and otherwise a cancellation |
| `JobReasons.LatchesTellWhy` | internal/privileged/privileged.go:473-627 | the authentication timed out exactly where a timer fired on a request the broker took back, and failed exactly where a connection was turned away or lost, another was busy, or a password could not be written, once the workers are gone |
| `JobReasons.KnownIsEvidence` | internal/privileged/privileged.go:381-443 | the processes the cleanup looks for are exactly those the evidence of the activated requests named |
| `JobEnd.CancelledExactly` | internal/privileged/privileged.go:276-296 | what sets the cancel latch: a call for the active request or for the job, a failed authentication, or the context's end |
| `JobEnd.CancellationShutsDown` | internal/privileged/privileged.go:276-296 | a cancelled job has its context cancelled and its listener closed or somebody is about to, and the cleanup begins after both |
| `JobEnd.ResultTells` | internal/privileged/privileged.go:350-379 | the published result tells exactly the latches of that moment, is the child's own error otherwise, and calls the cleanup clean only if child, workers and every other check were |
| `JobEnd.ADelivery` | internal/privileged/privileged.go:116-379 | a whole run: start, connection, evidence, password written, child exits, clean result |
| `JobEnd.AFailedStart` | internal/privileged/privileged.go:116-189 | a whole run in which the child cannot be started: context cancelled, listener closed, workers gone |
| `UiModel.Model.FinishQuit` | internal/ui/model.go:2183-2195 | the object's fields refine the machine: quitting ends only with no pending flag |
| `UiModel.Model.BeginQuit` | internal/ui/model.go:2160-2181 | the first quit refuses the prompt, cancels everything and may end at once; a later one only changes the exit code |
| `UiModel.Model.SelectInfo` | internal/ui/model.go:2091-2100 | the pending flag follows the loader's command |
| `UiModel.Model.InvalidateCaches` | internal/ui/model.go:993-998 | details, lists and sizes go together |
| `UiModel.Model.StartOperation` | internal/ui/model.go:1330-1367 | the snapshot, a new identifier, and one start command |
| `UiModel.Model.FinishOperation` | internal/ui/model.go:1547-1554 | the queue never outlives a run that did not succeed |
| `UiModel.Model.PendingOperation` | internal/ui/model.go:720-730 | whether verb and package are running or queued |
| `UiModel.Model.ConfirmOperation` | internal/ui/model.go:878-927 | when a dialog opens |
| `UiModel.Model.ConfirmUpgradeAll` | internal/ui/model.go:929-966 | the batch is the upgradable rows, without this program, in inventory order |
| `UiModel.Model.UpdateConfirmation` | internal/ui/model.go:1048-1103 | only a lowercase y over a dialog that fits confirms |
| `UiModel.Model.StartBatch` | internal/ui/model.go:1060-1080 | the first row starts and the rest queue in order |
| `UiModel.Model.HandleJobStarted` | internal/ui/model.go:1369-1385 | a late or unwelcome job is cancelled at once |
| `UiModel.Model.HandleJobStartFailed` | internal/ui/model.go:1387-1414 | a failed start drops the queue and reports the batch |
| `UiModel.Model.HandleJobEvent` | internal/ui/model.go:1427-1461 | a prompt takes the window, or cancels the job when it is not welcome |
| `UiModel.Model.HandleJobResult` | internal/ui/model.go:1463-1545 | the whole decision on a result: abort, end, next entry, or reload |
| `UiModel.Model.HandleListResult` | internal/ui/model.go:1821-1866 | a load's landing by its purpose |
| `UiModel.Model.HandleFleetResult` | internal/ui/model.go:1868-1904 | the batch reload's landing |
| `UiModel.Model.HandleSizesResult` | internal/ui/model.go:1771-1819 | a measurement's landing |
| `UiModel.Model.HandleInfoResult` | internal/ui/model.go:586-593 | a details result, and the flag that follows it |
| `UiModel.Model.StartReview` | internal/ui/model.go:1105-1137 | when a trust review opens and what it asks for |
| `UiModel.Model.HandleDetailsResult` | internal/ui/model.go:1139-1167 | what the review shows |
| `UiModel.Model.UpdateTrust` | internal/ui/model.go:1169-1200 | y trusts only once the details are shown |
| `UiModel.Model.HandleTrustResult` | internal/ui/model.go:1202-1249 | the end of a review |
| `UiModel.Model.SwitchKind` | internal/ui/model.go:968-984 | the other kind's retained list, or its load |
| `UiModel.Model.UpdateNormal` | internal/ui/model.go:772-865 | the keys of the main window |
| `UiModel.Model.UpdateSearch` | internal/ui/model.go:1000-1046 | the keys of the search row |
| `UiModel.Model.UpdatePassword` | internal/ui/model.go:1264-1328 | the object takes the keys of the prompt as the machine does; what each key means for the prompt is `UiPrompts.RepliesAreExactly` |
| `UiModel.Model.HandleKey` | internal/ui/model.go:625-664 | which window a key reaches |
| `UiModel.Model.Resize` | internal/ui/model.go:2104-2158 | which dialogs close and which operation is cancelled |
| `UiModel.Model.Init` | internal/ui/model.go:555-567 | the commands of a start |
| `UiModel.Model.Update` | internal/ui/model.go:569-665 | every message: the object steps exactly as the machine the theorems are about |
| `UiInvariant.UpdateCore` | internal/ui/model.go:569-665 | after every message: start and result are never both awaited, nothing loads meanwhile, no operation means no queue, a prompt has a live job, and outside quitting completed + 1 + queued is the batch's total while a job runs and completed is the total while it reloads |
| `UiInvariant.UndoesQuitExactly` | internal/ui/model.go:2123-2158 | a resize leaves the quit sequence exactly when it closes a dialog left open or newly cancels the held operation |
| `UiInvariant.UpdateWindows` | internal/ui/model.go:569-665 | the window stays with the operation after every message, exactly except for the resizes that lose it |
| `UiExamples.AReviewStranded` | internal/ui/model.go:2123-2153 | a whole run that ends with a review pending and no window for it |
| `UiFlight.DeliveryFlight` | internal/ui/model.go:569-665 | each answer finds the state that waits for it, and what it issues was not in flight |
| `UiLedger.UpdateAccounted` | internal/ui/model.go:720-1103 | every message keeps the queue, starts exactly the oldest confirmed entry, or drops the whole queue |
| `UiLedger.FailureStops` | internal/ui/model.go:1387-1554 | a failed start or a result without success starts nothing and empties the queue outside quitting |
| `UiLedger.EndedCounts` | internal/ui/model.go:1409-1561 | completed, dropped and the job that failed, if one did, add up to the batch |
| `UiLedger.UpgradedAllMeans` | internal/ui/model.go:1868-1904 | "Upgraded n" is said only on a successful reload with n successes and nothing queued |
| `UiRuns.EveryWorld` | internal/ui/model.go:569-665 | over every run: the invariants hold and every message is one its handler may be given |
| `UiRuns.ConfirmedIsSettledOrQueued` | internal/ui/model.go:1048-1103 | conservation and order: each confirmed entry is started, dropped or queued, in the order confirmed |
| `UiRuns.StartsTheOldest` | internal/ui/model.go:1330-1367 | a start command carries the oldest unsettled entry, verb and snapshot as confirmed |
| `UiRuns.StartKeepsItsEntry` | internal/ui/model.go:1347-1352 | however late the start command reads the verb, until it answers the operation in hand is the entry it was issued for, verb and snapshot as confirmed |
| `UiRuns.HistoriesGrow` | internal/ui/model.go:569-665 | what was confirmed, settled or succeeded stays so |
| `UiRuns.HaltedForGood` | internal/ui/model.go:2160-2195 | an operation that quitting halted never moves again, resizes included |
| `UiRuns.FailureIsFinal` | internal/ui/model.go:1387-1554 | nothing waiting when a run fails ever starts |
| `UiRuns.PendingOnce` | internal/ui/model.go:720-730 | with distinct inventory names no verb is pending twice for a package |
| `UiRuns.UpgradedAllIsTrue` | internal/ui/model.go:1868-1904 | "Upgraded n": the last n confirmed are the last n that succeeded, in order |
| `UiRuns.SingleFlight` | internal/ui/model.go:1570-1632 | one load, one details lookup, one start or job in flight at most |
| `UiRuns.NothingIsIssuedTwice` | internal/ui/model.go:1330-1385 | no command is issued while it, or another of its kind where one is allowed, is in flight |
| `UiRuns.FlagsTellFlight` | internal/ui/model.go:2183-2185 | each pending flag says exactly what is in flight: load, lookup, current measurement, start, job, current review |
| `UiRuns.WindowsHold` | internal/ui/model.go:569-665 | the window property over runs whose resizes keep it |
| `UiPrompts.PromptsAreSettledOnce` | internal/ui/model.go:1264-1461 | over every run no prompt is answered twice, refused twice, or both: each reply goes to the prompt opened last, which had none, under its identifier |
| `UiPrompts.RepliesAreExactly` | internal/ui/model.go:1264-1461 | enter answers the open prompt; esc, a quit, or a squeeze refuses it; nothing else replies, and it stays open until then or until its job or something left open under it takes it away |
| `UiPrompts.OnlyLeftoversAbandon` | internal/ui/model.go:1427-1461 | while the windows hold, only its own job or a dialog left open takes a prompt away without a reply |
| `UiExamples.APromptLost` | internal/ui/model.go:2123-2153 | a whole run in which a resize closes a prompt that is neither answered nor refused |
| `UiOrigins.ConfirmedWasAsked` | internal/ui/model.go:878-1103 | over every run, every confirmed entry was asked for by an earlier key over that row, which the verb applied to, and then confirmed by a lowercase y over its dialog |
| `UiReasons.TrustedWasReviewed` | internal/ui/model.go:1105-1200 | over every run, trust is asked for only after a review was opened over that untrusted package, its details came for that review, and the user typed a lowercase y over them |
| `UiReasons.ReviewsMove` | internal/ui/model.go:1139-1262 | what becomes of a review: trusted, left, or going on with its details or its failure as they came |
| `UiReasons.LoadsHaveCauses` | internal/ui/model.go:968-998 | a load begins exactly for a switch, a refresh, or the end of a successful run, with that purpose, and ends exactly with its answer; a measurement begins beside the last two |
| `UiReports.ReasonsWereGiven` | internal/ui/model.go:1264-1461 | over every run, the reason an operation is cancelled for was given to that operation: esc or a failed answer at its prompt, a second event under its prompt, or a resize it did not fit |
| `UiReports.ReportsAreExact` | internal/ui/model.go:1387-1545 | what is said of an operation's end is the first cause in the code's order, and something is said whenever one ends outside quitting |
| `UiReports.EndingIsTrue` | internal/ui/model.go:1463-1545 | over every run, each ending told has its own cause, in this message or in an earlier one of the same operation |
| `UiReports.DoneIsTrue` | internal/ui/model.go:1821-1866 | over every run, the entry named done is the operation that succeeded last, and its reload has landed |
| `UiReports.ExitsExactly` | internal/ui/model.go:2160-2195 | what begins the quit sequence, and which code each message leaves |
| `UiReports.LastDemandWins` | internal/ui/model.go:2160-2195 | over every run the program exits with 1 after a failed cleanup and otherwise with the code demanded last, zero counting only when it begins the quit; an interrupt exactly at 130 |
| `UiEffects.CancelsExactly` | internal/ui/model.go:1264-1461 | exactly when the job is told to stop, its start command let go of, and a reload cut short |
| `UiEffects.DetailsFollow` | internal/ui/model.go:2082-2100 | which messages select, clear, or renew the details, and that they are the selected row's |
| `UiEffects.KeysOpenWindows` | internal/ui/model.go:772-927 | a key that may open a dialog, a review, or the search opens it over the selected row |
| `UiEffects.BatchOpens` | internal/ui/model.go:929-966 | the batch dialog holds exactly the rows that can be upgraded |
| `UiQuit.QuitAbsorbs` | internal/ui/model.go:2123-2195 | quitting is left exactly by the resizes that undo it |
| `UiExamples.AQuitUndone` | internal/ui/model.go:2123-2153 | a whole run in which a resize takes a quit back |
| `UiQuit.BeginningDrains` | internal/ui/model.go:2160-2195 | a message from outside quitting ends the program exactly when it begins to quit with nothing outstanding |
| `UiQuit.QuitOnlyWhenDrained` | internal/ui/model.go:2183-2195 | the program ends only with nothing outstanding |
| `UiQuit.DeliveryDrains` | internal/ui/model.go:1139-1904 | each awaited answer brings the end nearer, and the last one ends the program |
| `UiQuit.OthersDrainNothing` | internal/ui/model.go:2160-2195 | no other message changes what is outstanding |
| `UiQuit.DrainedExactly` | internal/ui/model.go:2183-2185 | the measure counts what finishQuit tests |
| `UiQuit.SomethingToDeliver` | internal/ui/model.go:2183-2195 | whatever is outstanding has its command in flight |
| `UiQuit.QuitCompletes` | internal/ui/model.go:2160-2195 | over runs no resize undoes: ended exactly when nothing is outstanding, by the time as many awaited answers have come as were outstanding |
| `UiQuit.NothingAwaitedAtTheEnd` | internal/ui/model.go:2183-2195 | when the program ends, no load, lookup, start, job, current measurement or current review is in flight |
| `UiQuit.CancelReachesTheJob` | internal/ui/model.go:1264-1461 | a running job with a reason to be cancelled was told |
| `Supervisor.Supervisor.Set` | internal/ui/model.go:104-182 | a handle is kept unless closing, and then its command is cancelled at once |
| `Supervisor.Supervisor.Clear` | internal/ui/model.go:116-182 | a handle is let go of only by its own command |
| `Supervisor.Supervisor.RegisterJob` | internal/ui/model.go:184-193 | a job is kept even when closing, and then cancelled |
| `Supervisor.Supervisor.RecordJob` | internal/ui/model.go:195-205 | only the first report of a job joins its error |
| `Supervisor.Supervisor.Close` | internal/ui/model.go:221-249 | closes, and returns everything owned at that moment; that it is then cancelled is `SupervisorProperties.ClosingTells` |
| `Supervisor.Supervisor.AwaitAll` | internal/ui/model.go:283-313 | no error exactly when every existing wait ended in time |
| `Supervisor.Supervisor.RememberCleanup` | internal/ui/model.go:315-319 | errors are joined, none replaced |
| `SupervisorProperties.StepKeepsInv` | internal/ui/model.go:144-281 | the invariant of the cleanup race, kept by every step |
| `SupervisorProperties.CleanMeansNothingLeft` | internal/ui/model.go:252-281 | Cleanup without error means no start command can still make a job, every Wait returned without a cleanup error, and the job on the screen was cancelled and is over; given the start command was registered |
| `SupervisorProperties.RegisteredUnlessClosing` | internal/ui/model.go:144-154 | a start command is registered exactly when it is launched before closing |
| `SupervisorProperties.StaysRegistered` | internal/ui/model.go:156-162 | and stays so until its answer is handled |
| `SupervisorProperties.EachErrorOnce` | internal/ui/model.go:195-205 | each job's cleanup error is joined once though two callers report it |
| `SupervisorProperties.ClosingTells` | internal/ui/model.go:144-281 | over every run, once something closes and no cancel is under way, the start command on the screen has been cancelled unless it is over, and the job on the screen has been told or was registered too late and its starter is about to tell it |
| `SupervisorProperties.NobodyIsToldBefore` | internal/ui/model.go:221-249 | before anything closes nobody is cancelled but by the UI itself |
| `SupervisorProperties.ToldForGood` | internal/ui/model.go:1369-1385 | the UI's own cancel reaches the job it was handed, and what was told stays told |
| `SupervisorEscape.CleanupEscapesExactly` | internal/ui/model.go:144-281 | for every reachable state when the loop has ended: a Cleanup without error can leave a job behind exactly when the start command on the screen is unregistered and has not handed over its job, and no error is joined |
| `SupervisorEscape.UnknownEscapes` | internal/ui/model.go:144-281 | from every such state, the loop ended or not, a job can be running after a Cleanup without error |
| `SupervisorEscape.AnUnknownStart` | internal/ui/model.go:144-154 | such a state is reached |
| `SupervisorEscape.AnOperation` | internal/ui/model.go:1330-1367 | a whole run: an operation is launched, its job runs, ends, is reported once and seen through |
| `SupervisorEscape.ARaceWon` | internal/ui/model.go:252-281 | a whole run of the race the second wait is for: the job registered late is told, waited for, and nothing is left |
| `Ancestry.AcquirePeerEvidence` | internal/privileged/peer_darwin.go:266-328 | the walk and its second reads against any kernel; what the evidence it returns says is `AncestryProperties.EvidenceIsRead` |
| `Ancestry.ReadAgain` | internal/privileged/peer_darwin.go:289-314 | accepts exactly when peer, code, sudo and tracked child read the same again |
| `Ancestry.SameProcessEvidence` | internal/privileged/peer_darwin.go:329-345 | field by field, arguments only when asked |
| `Ancestry.ContainsArgument` | internal/privileged/peer_darwin.go:512-519 | membership |
| `Ancestry.CheckChain` | internal/privileged/peer_darwin.go:391-418 | the verifier's loop accepts exactly the simple linked chains of real PIDs with only the second restricted that end at the first tracked one |
| `Ancestry.VerifyPeerEvidence` | internal/privileged/peer_darwin.go:363-423 | accepts exactly the evidence the declarative predicate describes |
| `Ancestry.PeerRemainsAuthenticated` | internal/privileged/peer_darwin.go:347-361 | exactly when the peer still reads the same and runs the same code |
| `AncestryProperties.ClimbShape` | internal/privileged/peer_darwin.go:286-327 | against any kernel, changing or cyclic, a walk that arrives is a simple parent-linked line of at most 64 processes ending at the first tracked one |
| `AncestryProperties.EvidenceIsRead` | internal/privileged/peer_darwin.go:266-328 | user, peer, code and every process of the evidence are what the kernel answered, the expected ones what the caller gave and the program's own user, and the second answers agree with the first |
| `AncestryProperties.ChangeIsSeen` | internal/privileged/peer_darwin.go:286-316 | when the walk arrives, evidence is returned exactly if socket, peer, code, sudo and tracked child answer as before |
| `AncestryProperties.AcceptedPeer` | internal/privileged/peer_darwin.go:363-423 | an accepted peer is, by the kernel's own word, this user's process running this code from this path, started by sudo asking for a password in the job's group |
| `AncestryProperties.WhoIsDescribed` | internal/privileged/peer_darwin.go:446-510 | which processes are described at all, and which restricted ones are admitted |
| `AncestryProperties.OnlyRestrictionIsChecked` | internal/privileged/peer_darwin.go:391-423 | on such chains every check of shape passes but the one on restricted processes |
| `AncestryProperties.GatherFinds` | internal/privileged/peer_darwin.go:266-328 | if nothing changes meanwhile, the walk finds exactly the line of ancestors there is |
| `Version.ParseVersion` | internal/brew/version.go:121-142 | segments and revision, or not readable |
| `Version.VersionDistance` | internal/brew/version.go:34-60 | the scan computes the class of the first difference |
| `Version.BumpOffset` | internal/brew/version.go:69-109 | the loops compute the start of the first differing segment |
| `Version.Walk` | internal/brew/version.go:100-108 | the walk over dots reaches any segment that exists; -1 only past the last |
| `VersionProperties.DistanceMeans` | internal/brew/version.go:34-60 | what each class says of the numbers: none is equality with missing segments zero, patch equality of the first two, major a difference in the first; unknown is unreadable |
| `VersionProperties.DistanceSymmetric` | internal/brew/version.go:34-60 | symmetry, for all strings |
| `VersionProperties.DistanceUltrametric` | internal/brew/version.go:34-60 | the strong triangle inequality, for all strings |
| `VersionProperties.DistanceReflexive` | internal/brew/version.go:34-60 | a readable version is at no distance from itself, an unreadable one unknown even to itself |
| `VersionProperties.SignsAreRead` | internal/brew/version.go:121-142 | a piece that is not plain digits is read exactly when it is a signed number in range |
| `VersionProperties.ASignedVersion` | internal/brew/version.go:121-142 | a concrete signed version that is read |
| `VersionWriting.DecimalIsRead` | internal/brew/version.go:121-142 | a number written in decimal is read back, digit by place |
| `VersionWriting.LeadingZeros` | internal/brew/version.go:121-142 | and zeros before it change nothing |
| `VersionWriting.WrittenIsRead` | internal/brew/version.go:121-142 | numbers between dots with an optional revision after an underscore are read as exactly those numbers |
| `VersionWriting.WrittenDistance` | internal/brew/version.go:34-60 | so the class of two written versions is that of their numbers |
| `VersionProperties.BumpOffsetMeans` | internal/brew/version.go:69-109 | an offset is in bounds and starts the first differing segment, every earlier one equal, or is the underscore of a revision-only change |
| `VersionProperties.BumpOffsetExists` | internal/brew/version.go:69-109 | exactly when there is an offset |
| `VersionProperties.BumpIsADifference` | internal/brew/version.go:69-109 | an offset implies a distance neither none nor unknown |
| `Outdated.MarkOutdated` | internal/ui/model.go:1681-1717 | each row in place: the versions ride along, and the mark is added by the threshold |
| `Outdated.ByName` | internal/ui/model.go:1689-1692 | the last verdict to name a package |
| `Outdated.LastVerdict` | internal/ui/model.go:1689-1692 | the verdict taken is one that names the package and that no later one overrides, if any names it |
| `Outdated.MarkWrites` | internal/ui/model.go:1693-1717 | what marking writes into a row and what it leaves |
| `Outdated.ThresholdsNest` | internal/ui/settings.go:128-136 | major marks a subset of minor, minor of any |
| `Outdated.MarkMeans` | internal/ui/settings.go:128-136 | which version pairs a threshold marks; unreadable ones always |
| `Query.ParseQuery` | internal/ui/query.go:39-60 | the loop computes the parsed query |
| `Query.Match` | internal/ui/query.go:69-76 | every qualifier holds |
| `Query.Compact` | internal/ui/query.go:84-96 | compaction in place keeps exactly the other words, in order |
| `Query.ToggleQualifier` | internal/ui/query.go:84-100 | the next query and the state it reports |
| `Query.CompleteQualifier` | internal/ui/query.go:124-147 | the first name the unfinished word begins |
| `Words.FieldsOfJoin` | internal/ui/query.go:84-100 | words joined and split again are the same words |
| `QueryProperties.ToggleReportsState` | internal/ui/query.go:84-100 | the reported state is whether the word is now present |
| `QueryProperties.ToggleTwice` | internal/ui/query.go:84-100 | toggling an absent word twice gives the normalised query |
| `QueryProperties.ToggleChangesOnlyItself` | internal/ui/query.go:39-100 | a toggle changes only its own qualifier in the parsed query |
| `QueryProperties.CompletionMeans` | internal/ui/query.go:124-147 | tab completes exactly an unfinished word that begins some name and is none |
| `QueryProperties.CompletionIsUnderstood` | internal/ui/model.go:1013-1020 | what tab writes extends the word, means something to the parser, and leaves nothing to complete |
| `Listing.SetPackages` | internal/ui/model.go:1914-1963 | the items are the stable sort of the visible rows; the retained rows are only read |
| `Listing.SubstringFilter` | internal/ui/model.go:544-553 | exactly the matching positions, in order |
| `ListingProperties.OrderTotal` | internal/ui/model.go:1932-1956 | every comparator is total and antisymmetric in sign |
| `ListingProperties.OrderTransitive` | internal/ui/model.go:1932-1956 | and transitive |
| `ListingProperties.UnmeasuredLast` | internal/ui/model.go:1940-1949 | unmeasured rows come last in both size orders |
| `ListingProperties.OrdersMean` | internal/ui/model.go:1932-1956 | larger first, smaller first, later name first, and the source order moves nothing; only formulae with a size are measured |
| `ListingProperties.SortSorts` | internal/ui/model.go:1932-1956 | the sort is ordered and a permutation |
| `ListingProperties.SortStable` | internal/ui/model.go:1932-1956 | rows of one rank keep their order |
| `ListingProperties.FilterCommutes` | internal/ui/model.go:1914-1963 | filtering commutes with the stable sort |
| `ListingProperties.ShownIsSortedPassing` | internal/ui/model.go:1914-1963 | what is shown is the stable sort of the rows that pass every filter, though the text is applied after the sort |
| `ListingProperties.ShownMeans` | internal/ui/model.go:1914-1963 | exactly the passing rows are shown, each as often as retained |
| `ListingSearch.ShownExactly` | internal/ui/model.go:1914-1963 | the rows on show are exactly the retained ones every qualifier lets through whose words hold the text, whatever its case, a dependency only when asked for |
| `ListingSearch.FoundInRow` | internal/ui/model.go:65-73 | a search for one word finds a row by its name, its version, or the word on a dependency's row, and by nothing across them |
| `ListingProperties.OutdatedKeyNarrows` | internal/ui/model.go:820-840 | turning is:outdated on keeps exactly the outdated rows of those on show, in place |

## Left out

- Signals, sockets, file permissions, code signing and the C functions are choices of a step or answers of an oracle; so are timers, deadlines, process evidence and the outcome of every command.
- Memory wiping, logging, themes, rendering, key help, settings and snapshot files, and every status text beyond how an operation ended and the counts it reports.
- The askpass helper's own side of the exchange (`helperExchange` and its environment checks).
- Identifiers and generations count without bound; the program's are 64 bits wide and would wrap.
- The loader's done channel and per-load contexts: the model keeps which contexts were cancelled, not their goroutines.
- UiModel.Model: the program's thirty fields are grouped in records (the operation slot, the dialog, the loads, the review); the list cache, the selected row and what fits on the screen come with each message.
- The contexts of list, size and trust commands are not tracked in the UI machine beyond "cancel everything"; the supervisor's handles for them are. Its race keeps the cancellations of start commands and jobs.
- The characters typed at the prompt and their editing: the UI machine has which request is answered, the broker machine which password each answer carries.
- UiRuns.PendingOnce: assumes an inventory that names each package once, as Homebrew's does.
- UiQuit.QuitCompletes: excludes the resizes that undo a quit, which are characterised exactly.
- SupervisorProperties.CleanMeansNothingLeft: assumes the start command on the screen was registered; `SupervisorEscape.CleanupEscapesExactly` says what happens otherwise. Several expired waits count as one joined error.
- SupervisorRuns lets the UI launch and its loop end at any time; which of these the UI's own rules allow is not decided there.
- Protocol.Writer.WriteExact: a write that reports a negative count, which Go's io.Writer forbids, is not modelled.
- Protocol.Reader.Read: a read of nothing without an error, and of something together with end of file, which Go's io.Reader allows, are not modelled; each read yields bytes, or end of file, or a failure.
- Strings are sequences of single-byte characters; letters and spaces outside ASCII are neither folded nor recognised in queries.
- Listing.SetPackages: Go's stable sort is a stable insertion; only order, permutation and stability matter. The list widget is a sequence; its cursor is not modelled.
- Outdated.MarkOutdated: the trust verdict stamped by `markUntrusted` is an easy sibling and is not modelled.
- `brew` and `du` output parsing and argument building depend on external formats.
