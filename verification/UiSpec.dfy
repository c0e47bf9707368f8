// The operation queue, the batch upgrade, and the quit sequence of the UI
// (internal/ui/model.go), as a machine over messages.
//
// The program spreads the life of an operation over a dozen fields. Here it is
// one `Phase`. UiModel.dfy proves the program's fields refine this machine, and
// UiRuns.dfy proves what every run of it keeps. What the machine cannot decide,
// such as the terminal size, the selected row, or the outcome of a command,
// arrives with the message.

module UiSpec {
  import opened Packages
  import opened Protocol
  import L = LoaderSpec
  import M = Monitor

  datatype Mode = Normal | Search | Confirm | Working | Password | Trust | Quitting

  datatype LoadPurpose = Startup | Switch | Reload | AfterOperation

  datatype CancelReason = NotCancelled | ByUser | ByTerminal | ByAuthentication

  // One confirmed operation: a verb and the package as it was when confirmed.
  datatype Entry = Entry(verb: Operation, pkg: Package)

  // The life of an operation. A halted one kept its snapshot when quitting cut
  // it short.
  datatype Phase =
    | Idle
    | Starting(current: Entry)
    | Running(current: Entry)
    | Reloading(current: Entry)
    | Halted(current: Entry)

  // `handle` is the retained right to cancel the start command's context.
  datatype Work = Work(
    phase: Phase,
    queue: seq<Entry>,
    batchTotal: nat,
    batchCompleted: nat,
    cancelReason: CancelReason,
    request: Option<RequestId>,
    handle: bool,
    id: nat)

  // The open confirmation: one package, or a whole batch.
  datatype Ask = Ask(confirmation: Option<Package>, verb: Operation, batch: seq<Package>)

  datatype Background = Background(
    load: Option<LoadPurpose>,
    loadId: nat,
    sizesPending: bool,
    sizesId: nat,
    trustPackage: Option<Package>,
    trustDetails: bool,
    trustFailed: bool,
    trustPending: bool,
    trustId: nat)

  datatype Ui = Ui(mode: Mode, work: Work, ask: Ask, back: Background, info: L.View, exitCode: int)

  // Why an operation ended without success.
  datatype Ending = StartFailed | TooSmall | TimedOut | AuthFailed | UserCancelled | Failed | LoadFailed | CleanupFailed

  datatype Report =
    | Done(entry: Entry)
    | UpgradedAll(count: nat)
    | Ended(why: Ending, completed: nat, total: nat, dropped: nat)

  // A command in flight, named by the identity its message will carry.
  datatype Cmd =
    | ListCmd(id: nat, purpose: LoadPurpose)
    | FleetCmd(id: nat)
    | InfoCmd(identity: L.Identity)
    | SizesCmd(id: nat)
    | StartCmd(id: nat, pkg: Package)
    | EventCmd(id: nat)
    | ResultCmd(id: nat)
    | DetailsCmd(id: nat)
    | TrustCmd(id: nat)

  datatype Out =
    | Run(cmd: Cmd)
    | Say(report: Report)
    | Quit(interrupted: bool)
    | CancelJob
    | CancelStart
    | CancelReload
    | AnswerPassword(request: Option<RequestId>)
    | RefusePassword(request: Option<RequestId>)
    | CancelEverything

  // What the surroundings say when a message is handled.
  datatype Env = Env(
    selected: Option<Package>,
    listChanged: bool,
    retained: Option<seq<Package>>,
    completes: bool,
    tiny: bool,
    fits: bool,
    operationFits: bool,
    batchFits: bool,
    trustFits: bool,
    answerFails: bool,
    cleanupFailed: bool)

  // Keys by what they mean to any mode; `Yes` is a lowercase y, `Plain` any other
  // key, `Edits` whether a key changes the search text.
  datatype KeyName =
    | CtrlC | Leave | Cursor | Slash | Tab | Remove | UpgradeOne | UpgradeEvery | ReviewTrust
    | Reorder | Refresh | Enter | Esc | Yes | Plain

  datatype Keystroke = Keystroke(name: KeyName, edits: bool)

  datatype Event =
    | Resize(env: Env)
    | Signal(code: int, env: Env)
    | InfoResult(result: L.Result, env: Env)
    | ListResult(id: nat, purpose: LoadPurpose, ok: bool, env: Env)
    | FleetResult(id: nat, ok: bool, env: Env)
    | SizesResult(id: nat, ok: bool, env: Env)
    | JobStarted(id: nat, env: Env)
    | JobStartFailed(id: nat, env: Env)
    | JobEvent(id: nat, request: Option<RequestId>, open: bool, env: Env)
    | JobResult(id: nat, outcome: M.Result, env: Env)
    | DetailsResult(id: nat, ok: bool, env: Env)
    | TrustResult(id: nat, ok: bool, env: Env)
    | Press(key: Keystroke, env: Env)

  type Move = (Ui, seq<Out>)

  // ---- small steps ----

  // The window in which the operation's snapshot is held.
  predicate JobRunning(w: Work) {
    !w.phase.Idle?
  }

  predicate Outstanding(u: Ui) {
    || u.back.load.Some? || u.info.active.Some? || u.back.sizesPending
    || u.work.phase.Starting? || u.work.phase.Running? || u.back.trustPending
  }

  function FinishQuit(u: Ui, env: Env): Move {
    if u.mode != Quitting || Outstanding(u) then (u, [])
    else
      var code := if env.cleanupFailed then 1 else u.exitCode;
      (u.(exitCode := code), [Quit(code == 130)])
  }

  // The first quit request: an open prompt is refused and everything in flight is
  // told to stop.
  function EnterQuit(u: Ui, code: int): Move {
    (u.(exitCode := code, mode := Quitting, info := L.Cancel(u.info),
        work := if u.mode == Password then u.work.(request := None) else u.work),
     (if u.mode == Password && u.work.phase.Running? then [RefusePassword(u.work.request)] else [])
     + [CancelEverything])
  }

  function BeginQuit(u: Ui, code: int, env: Env): Move {
    if u.mode == Quitting then FinishQuit(u.(exitCode := if code != 0 then code else u.exitCode), env)
    else
      var (entered, first) := EnterQuit(u, code);
      var (u', out) := FinishQuit(entered, env);
      (u', first + out)
  }

  function Issued(t: Option<L.Target>): seq<Out> {
    if t.Some? then [Run(InfoCmd(t.value.identity))] else []
  }

  function SelectInfo(u: Ui, env: Env): Move {
    var (v, t) := L.Select(u.info, env.selected);
    (u.(info := v), Issued(t))
  }

  function ClearInfo(u: Ui): Ui {
    u.(info := L.Select(u.info, None).0)
  }

  function StartList(u: Ui, purpose: LoadPurpose): Move {
    var id := u.back.loadId + 1;
    (u.(back := u.back.(load := Some(purpose), loadId := id)), [Run(ListCmd(id, purpose))])
  }

  function StartFleet(u: Ui): Move {
    var id := u.back.loadId + 1;
    (u.(back := u.back.(load := Some(AfterOperation), loadId := id)), [Run(FleetCmd(id))])
  }

  // invalidateCaches: the details, the lists, and the sizes go together.
  function Invalidate(u: Ui): Move {
    var id := u.back.sizesId + 1;
    (u.(info := L.Refresh(u.info, None).0, back := u.back.(sizesPending := true, sizesId := id)),
     [Run(SizesCmd(id))])
  }

  function StartOperation(u: Ui, e: Entry): Move {
    var id := u.work.id + 1;
    (u.(mode := Working, work := u.work.(phase := Starting(e), cancelReason := NotCancelled, handle := true, id := id)),
     [Run(StartCmd(id, e.pkg))])
  }

  function ClearBatch(u: Ui): Ui {
    u.(ask := u.ask.(batch := []), work := u.work.(batchTotal := 0, batchCompleted := 0))
  }

  function EndReport(w: Work, why: Ending): Report {
    Ended(why, w.batchCompleted, w.batchTotal, |w.queue|)
  }

  // The start command's context is let go of.
  function Release(w: Work): seq<Out> {
    if w.handle then [CancelStart] else []
  }

  // finishOperation: the queue never outlives a run that did not succeed.
  function FinishOperation(u: Ui, why: Ending): Move {
    var w := u.work.(phase := Idle, queue := [], cancelReason := NotCancelled);
    (ClearBatch(u.(mode := Normal, work := w)), [Say(EndReport(u.work, why))])
  }

  // ---- confirmation ----

  predicate SameTarget(p: Package, q: Package) {
    p.kind == q.kind && p.name == q.name
  }

  predicate PendingOperation(w: Work, verb: Operation, p: Package) {
    || (JobRunning(w) && w.phase.current.verb == verb && SameTarget(w.phase.current.pkg, p))
    || exists i :: 0 <= i < |w.queue| && w.queue[i].verb == verb && SameTarget(w.queue[i].pkg, p)
  }

  // confirmOperation opens a dialog only over a row the verb applies to, that is
  // not pending already, and whose dialog fits.
  predicate MayAsk(u: Ui, verb: Operation, env: Env) {
    && u.work.batchTotal == 0 && env.selected.Some?
    && (verb.Upgrade? ==> !env.selected.value.pinned && env.selected.value.outdated)
    && !PendingOperation(u.work, verb, env.selected.value)
    && env.fits
  }

  function ConfirmOperation(u: Ui, verb: Operation, env: Env): Move {
    if MayAsk(u, verb, env)
    then (u.(mode := Confirm, ask := Ask(env.selected, verb, [])), [])
    else (u, [])
  }

  predicate Self(p: Package) {
    p.kind == Cask && p.name == "lazybrew"
  }

  predicate Upgradable(p: Package) {
    p.latestVersion != "" && p.latestVersion != p.version && !p.pinned && !p.untrusted
  }

  // The rows a batch upgrade acts on, in inventory order.
  function Batch(packages: seq<Package>): seq<Package> {
    if packages == [] then []
    else (if Upgradable(packages[0]) && !Self(packages[0]) then [packages[0]] else []) + Batch(packages[1..])
  }

  function ConfirmUpgradeAll(u: Ui, env: Env): Move {
    var batch := Batch(env.retained.GetOr([]));
    if JobRunning(u.work) || batch == [] then (u, [])
    else if !env.batchFits then (ClearBatch(u.(ask := Ask(None, Upgrade, []))), [])
    else (u.(mode := Confirm, ask := Ask(None, Upgrade, batch)), [])
  }

  function Entries(batch: seq<Package>): seq<Entry> {
    seq(|batch|, i requires 0 <= i < |batch| => Entry(Upgrade, batch[i]))
  }

  function Resume(w: Work): Mode {
    if JobRunning(w) then Working else Normal
  }

  // The first package starts and the others queue behind it.
  function StartBatch(u: Ui, batch: seq<Package>): Move
    requires batch != []
  {
    var entries := Entries(batch);
    StartOperation(
      u.(ask := u.ask.(batch := []),
         work := u.work.(queue := entries[1..], batchTotal := |entries|, batchCompleted := 0)),
      entries[0])
  }

  function AnswerBatch(u: Ui, key: Keystroke, env: Env): Move
    requires u.ask.batch != []
  {
    if key.name != Yes || !env.batchFits then (ClearBatch(u).(mode := Resume(u.work)), [])
    else StartBatch(u, u.ask.batch)
  }

  // The answer to the open dialog. Only a lowercase y over a dialog that still
  // fits confirms anything.
  function UpdateConfirmation(u: Ui, key: Keystroke, env: Env): Move {
    var closed := u.(ask := u.ask.(confirmation := None));
    if u.ask.batch != [] then AnswerBatch(closed, key, env)
    else if key.name != Yes || u.ask.confirmation.None? || !env.fits then (closed.(mode := Resume(u.work)), [])
    else StartOrQueue(closed, Entry(u.ask.verb, u.ask.confirmation.value))
  }

  function StartOrQueue(u: Ui, entry: Entry): Move {
    if JobRunning(u.work) then (u.(mode := Working, work := u.work.(queue := u.work.queue + [entry])), [])
    else StartOperation(u, entry)
  }

  // ---- the job ----

  function HandleJobStarted(u: Ui, id: nat): Move
    requires id == u.work.id ==> u.work.phase.Starting?
  {
    if id != u.work.id then (u, [CancelJob])
    else
      var stop := if u.work.cancelReason != NotCancelled || u.mode == Quitting then [CancelJob] else [];
      (u.(work := u.work.(phase := Running(u.work.phase.current))),
       stop + (if u.mode == Quitting then [] else [Run(EventCmd(id))]) + [Run(ResultCmd(id))])
  }

  function HandleJobStartFailed(u: Ui, id: nat, env: Env): Move
    requires id == u.work.id ==> u.work.phase.Starting?
  {
    if id != u.work.id then (u, [])
    else if u.mode == Quitting then
      FinishQuit(u.(work := u.work.(phase := Halted(u.work.phase.current))), env)
    else
      (ClearBatch(u.(mode := Normal, work := u.work.(phase := Idle, queue := [], handle := false))),
       Release(u.work) + [Say(EndReport(u.work, if u.work.cancelReason == ByTerminal then TooSmall else StartFailed))])
  }

  // A password prompt takes the window; any other event, or one that comes when
  // no prompt is welcome, cancels the job.
  function HandleJobEvent(u: Ui, id: nat, request: Option<RequestId>, open: bool): Move {
    if id != u.work.id || u.mode == Quitting || !u.work.phase.Running? || !open then (u, [])
    else if request.None? || (u.mode != Working && u.mode != Confirm) || u.work.cancelReason != NotCancelled then
      (if u.mode == Password
       then u.(mode := Working, work := u.work.(request := None, cancelReason := ByAuthentication))
       else u,
       [CancelJob, Run(EventCmd(id))])
    else
      (u.(mode := Password,
          ask := if u.mode == Confirm then u.ask.(confirmation := None) else u.ask,
          work := u.work.(request := request)),
       [Run(EventCmd(id))])
  }

  function WhyCancelled(reason: CancelReason): Ending {
    match reason
    case ByTerminal => TooSmall
    case ByAuthentication => AuthFailed
    case _ => UserCancelled
  }

  predicate Succeeded(r: M.Result) {
    !r.cleanupErr && !r.authTimedOut && !r.authFailed && !r.cancelled && r.err.None?
  }

  function EndingOf(r: M.Result, reason: CancelReason): Ending
    requires !Succeeded(r) && !r.cleanupErr
  {
    if r.authTimedOut then TimedOut
    else if r.authFailed then AuthFailed
    else if r.cancelled then WhyCancelled(reason)
    else Failed
  }

  function HandleJobResult(u: Ui, id: nat, r: M.Result, env: Env): Move
    requires id == u.work.id ==> u.work.phase.Running?
  {
    if id != u.work.id then (u, [])
    else
      var (u', out) := SettleJob(u, r, env);
      (u', Release(u.work) + out)
  }

  // The job is over and its prompt, if any, is gone.
  function JobOver(u: Ui): Ui
    requires u.work.phase.Running?
  {
    u.(work := u.work.(phase := Halted(u.work.phase.current), request := None, handle := false))
  }

  function SettleJob(u: Ui, r: M.Result, env: Env): Move
    requires u.work.phase.Running?
  {
    var halted := JobOver(u);
    if u.mode == Quitting then FinishQuit(halted, env)
    else if r.cleanupErr then AbortRun(halted, env)
    else if !Succeeded(r) then FinishOperation(halted, EndingOf(r, u.work.cancelReason))
    else Advance(halted, env)
  }

  // A failed cleanup ends the run and the program.
  function AbortRun(u: Ui, env: Env): Move {
    var (u', out) := BeginQuit(ClearBatch(u.(work := u.work.(queue := []))), 1, env);
    (u', [Say(EndReport(u.work, CleanupFailed))] + out)
  }

  // A success: the next entry starts, or the run's one reload does.
  function Advance(u: Ui, env: Env): Move
    requires u.work.phase.Halted?
  {
    var e := u.work.phase.current;
    var counted :=
      u.(work := u.work.(batchCompleted := u.work.batchCompleted + if u.work.batchTotal > 0 then 1 else 0));
    if e.verb == Uninstall && Self(e.pkg) then BeginQuit(counted, 0, env)
    else if u.work.queue != [] then StartNext(counted, env)
    else ReloadAfter(counted)
  }

  // The oldest entry starts, if its dialog's terminal still fits.
  function StartNext(u: Ui, env: Env): Move
    requires u.work.queue != []
  {
    if !env.fits then FinishOperation(u, TooSmall)
    else StartOperation(u.(work := u.work.(queue := u.work.queue[1..])), u.work.queue[0])
  }

  // One invalidation and one reload for the whole run.
  function ReloadAfter(u: Ui): Move
    requires u.work.phase.Halted?
  {
    var (cleared, sizes) := Invalidate(u.(mode := Working, work := u.work.(phase := Reloading(u.work.phase.current))));
    var (u', load) := if u.work.batchTotal > 0 then StartFleet(cleared) else StartList(cleared, AfterOperation);
    (u', sizes + load)
  }

  // ---- loads ----

  function Halt(w: Work): Work {
    if w.phase.Reloading? then w.(phase := Halted(w.phase.current)) else w
  }

  // A load is over, and with it the operation it followed, whatever comes next.
  function LoadOver(u: Ui): Ui {
    u.(back := u.back.(load := None), work := Halt(u.work))
  }

  function HandleListResult(u: Ui, id: nat, purpose: LoadPurpose, ok: bool, env: Env): Move
    requires id == u.back.loadId ==> u.back.load == Some(purpose)
    requires purpose == AfterOperation && id == u.back.loadId ==> u.work.phase.Reloading?
  {
    if id != u.back.loadId then (u, [])
    else
      var loaded := LoadOver(u);
      if u.mode == Quitting then FinishQuit(loaded, env)
      else LandList(loaded, purpose, ok, env)
  }

  function LandList(u: Ui, purpose: LoadPurpose, ok: bool, env: Env): Move
    requires purpose == AfterOperation ==> JobRunning(u.work)
  {
    if purpose == AfterOperation && u.work.cancelReason == ByTerminal then EndSqueezed(u, env)
    else if !ok then FailList(u, purpose)
    else if purpose == AfterOperation then FinishReload(u, env)
    else SelectInfo(u.(mode := Normal), env)
  }

  function FailList(u: Ui, purpose: LoadPurpose): Move {
    if purpose == AfterOperation then FinishOperation(ClearInfo(u), LoadFailed) else (ClearInfo(u), [])
  }

  // The reload after a single operation landed.
  function FinishReload(u: Ui, env: Env): Move
    requires JobRunning(u.work)
  {
    var (u', out) := SelectInfo(Finished(u), env);
    (u', [Say(Done(u.work.phase.current))] + out)
  }

  // A reload that the terminal cut short.
  function EndSqueezed(u: Ui, env: Env): Move {
    var (ended, said) := FinishOperation(u, TooSmall);
    var (u', out) := SelectInfo(ended, env);
    (u', said + out)
  }

  function Finished(u: Ui): Ui {
    u.(mode := Normal, work := u.work.(phase := Idle, cancelReason := NotCancelled))
  }

  function HandleFleetResult(u: Ui, id: nat, ok: bool, env: Env): Move
    requires id == u.back.loadId ==> u.back.load == Some(AfterOperation) && u.work.phase.Reloading?
  {
    if id != u.back.loadId then (u, [])
    else
      var loaded := LoadOver(u);
      if u.mode == Quitting then FinishQuit(loaded, env)
      else LandFleet(loaded, ok, env)
  }

  function LandFleet(u: Ui, ok: bool, env: Env): Move
    requires JobRunning(u.work)
  {
    if u.work.cancelReason == ByTerminal then EndSqueezed(u, env)
    else if !ok then FinishOperation(ClearInfo(u), LoadFailed)
    else FinishFleet(u, env)
  }

  // The reload after a whole batch landed.
  function FinishFleet(u: Ui, env: Env): Move {
    var (u', out) := SelectInfo(Finished(ClearBatch(u)), env);
    (u', [Say(UpgradedAll(u.work.batchTotal))] + out)
  }

  // Fresh sizes re-order a list that is sorted by size and on show.
  function HandleSizesResult(u: Ui, id: nat, ok: bool, env: Env): Move {
    if id != u.back.sizesId then (u, [])
    else
      var measured := u.(back := u.back.(sizesPending := false));
      if u.mode == Quitting then FinishQuit(measured, env)
      else if ok && env.listChanged && u.back.load.None? && u.mode != Working then SelectInfo(measured, env)
      else (measured, [])
  }

  function HandleInfoResult(u: Ui, r: L.Result, env: Env): Move {
    var (v, t) := L.Complete(u.info, r);
    if u.mode == Quitting then FinishQuit(u.(info := v), env) else (u.(info := v), Issued(t))
  }

  // ---- trust ----

  function CancelTrust(u: Ui): Ui {
    u.(mode := Normal,
       back := u.back.(trustPackage := None, trustDetails := false, trustFailed := false, trustPending := false,
                       trustId := u.back.trustId + 1))
  }

  function StartReview(u: Ui, env: Env): Move {
    if env.selected.None? || JobRunning(u.work) then (u, [])
    else
      var p := env.selected.value;
      if !p.untrusted || p.fullName == "" || p.tap == "" then (u, [])
      else
        var review := u.(mode := Trust, back := u.back.(trustPackage := Some(p), trustDetails := false, trustFailed := false));
        if !env.trustFits then (CancelTrust(review), [])
        else
          var id := u.back.trustId + 1;
          (review.(back := review.back.(trustPending := true, trustId := id)), [Run(DetailsCmd(id))])
  }

  function HandleDetailsResult(u: Ui, id: nat, ok: bool, env: Env): Move {
    if id != u.back.trustId then (u, [])
    else
      var answered := u.(back := u.back.(trustPending := false));
      if u.mode == Quitting then FinishQuit(answered, env)
      else (ShowDetails(answered, ok, env), [])
  }

  // The details, or their failure, shown in the review.
  function ShowDetails(u: Ui, ok: bool, env: Env): Ui {
    FitReview(
      if ok then u.(back := u.back.(trustDetails := true)) else u.(back := u.back.(trustFailed := true)), env)
  }

  // A review that no longer fits is dropped.
  function FitReview(u: Ui, env: Env): Ui {
    if env.trustFits then u else CancelTrust(u)
  }

  function UpdateTrust(u: Ui, key: Keystroke): Move {
    if key.name == Esc then (CancelTrust(u), [])
    else if u.back.trustPending then (u, [])
    else if key.name == Yes && u.back.trustDetails && !u.back.trustFailed && u.back.trustPackage.Some? then
      var id := u.back.trustId + 1;
      (u.(back := u.back.(trustPending := true, trustFailed := false, trustId := id)), [Run(TrustCmd(id))])
    else (CancelTrust(u), [])
  }

  function HandleTrustResult(u: Ui, id: nat, ok: bool, env: Env): Move {
    if id != u.back.trustId then (u, [])
    else
      var answered := u.(back := u.back.(trustPending := false));
      if u.mode == Quitting then FinishQuit(answered, env)
      else if !ok then (answered.(back := answered.back.(trustFailed := true)), [])
      else FinishTrust(answered, env)
  }

  function FinishTrust(u: Ui, env: Env): Move {
    if u.back.trustPackage.None? then (u, [])
    else
      SelectInfo(
        u.(mode := Normal, info := L.Refresh(u.info, None).0,
           back := u.back.(trustPackage := None, trustDetails := false, trustFailed := false)), env)
  }

  // ---- keys ----

  function SwitchKind(u: Ui, env: Env): Move {
    if JobRunning(u.work) then (u, [])
    else if env.retained.Some? then SelectInfo(ClearInfo(u), env)
    else StartList(ClearInfo(u), Switch)
  }

  function RefreshAll(u: Ui): Move {
    if JobRunning(u.work) then (u, [])
    else
      var (cleared, sizes) := Invalidate(u);
      var (u', load) := StartList(cleared, Reload);
      (u', load + sizes)
  }

  function UpdateNormal(u: Ui, key: Keystroke, env: Env): Move {
    match key.name
    case Cursor => if env.listChanged then SelectInfo(u, env) else (u, [])
    case Reorder => if env.listChanged then SelectInfo(u, env) else (u, [])
    case Slash => if JobRunning(u.work) then (u, []) else (u.(mode := Search), [])
    case Tab => SwitchKind(u, env)
    case Remove => ConfirmOperation(u, Uninstall, env)
    case UpgradeOne => ConfirmOperation(u, Upgrade, env)
    case UpgradeEvery => ConfirmUpgradeAll(u, env)
    case ReviewTrust => StartReview(u, env)
    case Refresh => RefreshAll(u)
    case Leave => if JobRunning(u.work) then (u, []) else BeginQuit(u, 0, env)
    case _ => (u, [])
  }

  function UpdateSearch(u: Ui, key: Keystroke, env: Env): Move {
    match key.name
    case Enter => (u.(mode := Normal), [])
    case Tab => if env.completes then SelectInfo(u, env) else SwitchKind(u.(mode := Normal), env)
    case Esc => SelectInfo(u.(mode := Normal), env)
    case _ => if key.edits then SelectInfo(u, env) else (u, [])
  }

  function UpdatePassword(u: Ui, key: Keystroke, env: Env): Move {
    match key.name
    case Enter =>
      var w := u.work.(request := None, cancelReason := if env.answerFails then ByAuthentication else u.work.cancelReason);
      (u.(mode := Working, work := w),
       [AnswerPassword(u.work.request)] + if env.answerFails then [CancelJob] else [])
    case Esc =>
      (u.(mode := Working, work := u.work.(request := None, cancelReason := ByUser)),
       [RefusePassword(u.work.request), CancelJob])
    case _ => (u, [])
  }

  function HandleKey(u: Ui, key: Keystroke, env: Env): Move {
    if key.name == CtrlC then BeginQuit(u, 130, env)
    else if env.tiny then
      if key.name == Leave then BeginQuit(u, 0, env) else (u, [])
    else if u.mode == Quitting then (u, [])
    else if u.back.load.Some? then
      if u.back.load.value != AfterOperation && key.name == Leave then BeginQuit(u, 0, env) else (u, [])
    else
      match u.mode
      case Search => UpdateSearch(u, key, env)
      case Confirm => UpdateConfirmation(u, key, env)
      case Password => UpdatePassword(u, key, env)
      case Trust => UpdateTrust(u, key)
      case _ => UpdateNormal(u, key, env)
  }

  // ---- resize ----

  // A dialog that no longer fits closes.
  function CloseDialogs(u: Ui, env: Env): Ui {
    var one :=
      if u.ask.confirmation.Some? && !env.fits
      then u.(ask := u.ask.(confirmation := None), mode := Resume(u.work)) else u;
    if one.ask.batch != [] && !env.batchFits then ClearBatch(one).(mode := Normal) else one
  }

  // A running operation whose dialogs no longer fit is cancelled.
  predicate Squeezed(u: Ui, env: Env) {
    JobRunning(u.work) && !env.operationFits && u.work.cancelReason == NotCancelled
  }

  function CancelSqueezed(u: Ui): Move {
    var live := u.work.phase.Running?;
    (u.(mode := Working, work := u.work.(cancelReason := ByTerminal, request := None)),
     (if u.mode == Password && live then [RefusePassword(u.work.request)] else [])
     + (if live then [CancelJob] else [])
     + Release(u.work)
     + (if u.work.phase.Reloading? then [CancelReload] else []))
  }

  function HandleResize(u: Ui, env: Env): Move {
    var v := CloseDialogs(u, env);
    if Squeezed(v, env) then CancelSqueezed(v)
    else if v.mode == Trust && !env.trustFits then (CancelTrust(v), [])
    else (v, [])
  }

  // ---- Update ----

  // The messages a handler may be given: a message that carries the current
  // identifier belongs to the command that identifier was issued for. UiRuns.dfy
  // proves that every message of a run is such.
  predicate Timely(u: Ui, e: Event) {
    match e
    case InfoResult(r, _) => u.info.active == Some(r.identity)
    case ListResult(id, purpose, _, _) =>
      id == u.back.loadId ==>
        && u.back.load == Some(purpose)
        && (purpose == AfterOperation ==> u.work.phase.Reloading? && u.work.batchTotal == 0)
    case FleetResult(id, _, _) =>
      id == u.back.loadId ==>
        u.back.load == Some(AfterOperation) && u.work.phase.Reloading? && u.work.batchTotal > 0
    case JobStarted(id, _) => id == u.work.id ==> u.work.phase.Starting?
    case JobStartFailed(id, _) => id == u.work.id ==> u.work.phase.Starting?
    case JobResult(id, _, _) => id == u.work.id ==> u.work.phase.Running?
    case SizesResult(id, _, _) => id == u.back.sizesId ==> u.back.sizesPending
    case DetailsResult(id, _, _) => id == u.back.trustId ==> u.back.trustPending
    case TrustResult(id, _, _) => id == u.back.trustId ==> u.back.trustPending
    case _ => true
  }

  // What the key handlers rely on: a prompt has a job behind it, and a batch
  // dialog has no operation under it.
  predicate Ready(u: Ui) {
    && (u.mode == Password ==> u.work.phase.Running?)
    && (u.ask.batch != [] ==> u.work.phase.Idle?)
  }

  function Update(u: Ui, e: Event): Move
    requires Timely(u, e)
  {
    match e
    case Resize(env) => HandleResize(u, env)
    case Signal(code, env) => if code != 130 && code != 143 then (u, []) else BeginQuit(u, code, env)
    case InfoResult(r, env) => HandleInfoResult(u, r, env)
    case ListResult(id, purpose, ok, env) => HandleListResult(u, id, purpose, ok, env)
    case FleetResult(id, ok, env) => HandleFleetResult(u, id, ok, env)
    case SizesResult(id, ok, env) => HandleSizesResult(u, id, ok, env)
    case JobStarted(id, _) => HandleJobStarted(u, id)
    case JobStartFailed(id, env) => HandleJobStartFailed(u, id, env)
    case JobEvent(id, request, open, _) => HandleJobEvent(u, id, request, open)
    case JobResult(id, r, env) => HandleJobResult(u, id, r, env)
    case DetailsResult(id, ok, env) => HandleDetailsResult(u, id, ok, env)
    case TrustResult(id, ok, env) => HandleTrustResult(u, id, ok, env)
    case Press(key, env) => HandleKey(u, key, env)
  }

  // The model as constructed, before Init issues the startup commands.
  const FRESH := Ui(Normal, Work(Idle, [], 0, 0, NotCancelled, None, false, 0), Ask(None, Uninstall, []),
                    Background(None, 0, false, 0, None, false, false, false, 0), L.INITIAL, 0)

  // Init: the first load, the first measurement, and, over retained rows, the
  // details of the selected one.
  function Init(env: Env): Move {
    var (listed, load) := StartList(FRESH, if env.retained.Some? then Reload else Startup);
    var id := listed.back.sizesId + 1;
    var sized := listed.(back := listed.back.(sizesPending := true, sizesId := id));
    var (u, info) := if env.retained.Some? then SelectInfo(sized, env) else (sized, []);
    (u, load + [Run(SizesCmd(id))] + info)
  }
}
