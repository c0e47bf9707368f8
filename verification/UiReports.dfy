// What the program says at the end of an operation, and with which code it exits.

module UiReports {
  import opened Packages
  import opened Protocol
  import opened UiSpec
  import opened UiInvariant
  import opened UiFlight
  import opened UiLedger
  import opened UiRuns
  import opened UiPrompts
  import opened UiQuit
  import L = LoaderSpec
  import M = Monitor

  // ---- why the current operation was cancelled ----

  // The message gives the operation in hand this reason.
  predicate Gives(u: Ui, e: Event, reason: CancelReason) {
    match reason
    case NotCancelled => false
    case ByUser => Typed(u, e, Esc)
    case ByTerminal => e.Resize? && !e.env.operationFits && !u.work.phase.Idle?
    case ByAuthentication =>
      || (Typed(u, e, Enter) && e.env.answerFails)
      || (u.mode == Password && e.JobEvent? && e.id == u.work.id && e.open)
  }

  // A reason is kept until the next operation starts, or is one just given to an
  // operation that had none.
  ghost predicate ReasonOrigin(u: Ui, e: Event, u': Ui) {
    u'.work.cancelReason != NotCancelled ==>
      && u'.work.id == u.work.id
      && (u'.work.cancelReason == u.work.cancelReason
          || (u.work.cancelReason == NotCancelled && Gives(u, e, u'.work.cancelReason)))
  }

  lemma KeyGives(u: Ui, e: Event)
    requires Core(u) && e.Press?
    ensures ReasonOrigin(u, e, HandleKey(u, e.key, e.env).0)
  {
    if e.key.name == CtrlC || e.env.tiny || u.mode == Quitting || u.back.load.Some? || u.mode == Password || u.mode == Trust {
    } else if u.mode == Confirm || u.mode == Search {
      DialogGives(u, e);
    } else {
      NormalGives(u, e);
    }
  }

  lemma NormalGives(u: Ui, e: Event)
    requires e.Press?
    ensures UpdateNormal(u, e.key, e.env).0.work.cancelReason == u.work.cancelReason
    ensures UpdateNormal(u, e.key, e.env).0.work.id == u.work.id
  {
  }

  lemma DialogGives(u: Ui, e: Event)
    requires Core(u) && e.Press?
    ensures u.mode == Confirm ==> ReasonOrigin(u, e, UpdateConfirmation(u, e.key, e.env).0)
    ensures u.mode == Search ==> ReasonOrigin(u, e, UpdateSearch(u, e.key, e.env).0)
  {
  }

  lemma JobGives(u: Ui, e: Event)
    requires Core(u) && Timely(u, e) && (e.JobStartFailed? || e.JobStarted? || e.JobEvent?)
    ensures ReasonOrigin(u, e, Update(u, e).0)
  {
  }

  lemma JobResultGives(u: Ui, e: Event)
    requires Core(u) && Timely(u, e) && e.JobResult?
    ensures ReasonOrigin(u, e, Update(u, e).0)
  {
  }

  lemma LoadGives(u: Ui, e: Event)
    requires Core(u) && Timely(u, e) && (e.ListResult? || e.FleetResult?)
    ensures ReasonOrigin(u, e, Update(u, e).0)
  {
  }

  lemma BackgroundGives(u: Ui, e: Event)
    requires Core(u) && Timely(u, e) && IsBackground(e)
    ensures ReasonOrigin(u, e, Update(u, e).0)
  {
  }

  lemma RestGives(u: Ui, e: Event)
    requires Core(u) && (e.Resize? || e.Signal?)
    ensures ReasonOrigin(u, e, Update(u, e).0)
  {
  }

  lemma ReasonsHaveOrigin(u: Ui, e: Event)
    requires Core(u) && Timely(u, e)
    ensures ReasonOrigin(u, e, Update(u, e).0)
  {
    if e.Press? {
      KeyGives(u, e);
    } else if e.JobResult? {
      JobResultGives(u, e);
    } else if e.JobStartFailed? || e.JobStarted? || e.JobEvent? {
      JobGives(u, e);
    } else if e.ListResult? || e.FleetResult? {
      LoadGives(u, e);
    } else if IsBackground(e) {
      BackgroundGives(u, e);
    } else {
      RestGives(u, e);
    }
  }

  // The current operation was given its reason by an earlier message.
  ghost predicate ReasonGiven(trace: seq<World>, steps: seq<Step>, i: nat)
    requires i <= |steps| < |trace|
  {
    var w := trace[i].ui.work;
    w.cancelReason != NotCancelled ==>
      exists j :: 0 <= j < i && trace[j].ui.work.id == w.id && Gives(trace[j].ui, steps[j].event, w.cancelReason)
  }

  lemma ReasonOriginAt(trace: seq<World>, steps: seq<Step>, env: Env, n: nat)
    requires Follows(trace, steps, env) && n < |steps|
    ensures ReasonOrigin(trace[n].ui, steps[n].event, trace[n + 1].ui)
  {
    EveryWorld(trace, steps, env, n);
    ReasonsHaveOrigin(trace[n].ui, steps[n].event);
  }

  lemma {:induction false} ReasonChain(trace: seq<World>, steps: seq<Step>, i: nat)
    requires i <= |steps| < |trace| && trace[0].ui.work.cancelReason == NotCancelled
    requires forall n :: 0 <= n < i ==> ReasonOrigin(trace[n].ui, steps[n].event, trace[n + 1].ui)
    ensures ReasonGiven(trace, steps, i)
  {
    if i > 0 {
      ReasonChain(trace, steps, i - 1);
      ReasonNext(trace, steps, i - 1);
    }
  }

  lemma ReasonNext(trace: seq<World>, steps: seq<Step>, n: nat)
    requires n < |steps| < |trace| && ReasonGiven(trace, steps, n)
    requires ReasonOrigin(trace[n].ui, steps[n].event, trace[n + 1].ui)
    ensures ReasonGiven(trace, steps, n + 1)
  {
    var w, w' := trace[n].ui.work, trace[n + 1].ui.work;
    if w'.cancelReason != NotCancelled && w'.cancelReason == w.cancelReason {
      var j :| 0 <= j < n && trace[j].ui.work.id == w.id && Gives(trace[j].ui, steps[j].event, w.cancelReason);
      assert j < n + 1;
    }
  }

  lemma OpeningReason(env: Env)
    ensures Opening(env).ui.work.cancelReason == NotCancelled
  {
  }

  // The reason on record for the current operation is one the user, the terminal, or
  // the broker gave it: esc or a failed answer at its prompt, a second event under its
  // prompt, or a resize it did not fit.
  lemma ReasonsWereGiven(trace: seq<World>, steps: seq<Step>, env: Env, i: nat)
    requires Follows(trace, steps, env) && i <= |steps|
    ensures ReasonGiven(trace, steps, i)
  {
    forall n | 0 <= n < i
      ensures ReasonOrigin(trace[n].ui, steps[n].event, trace[n + 1].ui)
    {
      ReasonOriginAt(trace, steps, env, n);
    }
    OpeningReason(env);
    ReasonChain(trace, steps, i);
  }

  // ---- how an operation ended ----

  // The job of an operation that was to remove this program is over.
  predicate RemovedItself(w: Work) {
    && w.phase.Running? && w.phase.current.verb == Uninstall
    && w.phase.current.pkg.kind == Cask && w.phase.current.pkg.name == "lazybrew"
  }

  // How a job's result ends the run of its operation, in the order in which causes
  // are told: a failed cleanup hides everything else, and cancellation hides an error.
  function JobEnding(u: Ui, r: M.Result, fits: bool): Option<Ending> {
    if r.cleanupErr then Some(CleanupFailed)
    else if r.authTimedOut then Some(TimedOut)
    else if r.authFailed then Some(AuthFailed)
    else if r.cancelled then
      Some(if u.work.cancelReason == ByTerminal then TooSmall
           else if u.work.cancelReason == ByAuthentication then AuthFailed else UserCancelled)
    else if r.err.Some? then Some(Failed)
    else if u.work.queue != [] && !fits && !RemovedItself(u.work) then Some(TooSmall)
    else None
  }

  // How this message ends the run in hand, if it does.
  function EndsWith(u: Ui, e: Event): Option<Ending> {
    if u.mode == Quitting then None
    else if e.JobStartFailed? && e.id == u.work.id then
      Some(if u.work.cancelReason == ByTerminal then TooSmall else StartFailed)
    else if e.JobResult? && e.id == u.work.id then JobEnding(u, e.outcome, e.env.fits)
    else if ReloadAnswered(u, e) then
      if u.work.cancelReason == ByTerminal then Some(TooSmall) else if !e.ok then Some(LoadFailed) else None
    else None
  }

  predicate ReloadAnswered(u: Ui, e: Event) {
    (e.ListResult? || e.FleetResult?) && e.id == u.back.loadId && u.back.load == Some(AfterOperation)
  }

  // The reload of a single operation, or of a batch, lands.
  predicate Lands(u: Ui, e: Event) {
    ReloadAnswered(u, e) && e.ok && u.work.cancelReason != ByTerminal && u.mode != Quitting
  }

  ghost predicate Reports(u: Ui, e: Event, out: seq<Out>) {
    && (forall i :: 0 <= i < |out| && out[i].Say? ==>
          match out[i].report
          case Ended(why, _, _, _) => EndsWith(u, e) == Some(why)
          case Done(entry) => Lands(u, e) && e.ListResult? && u.work.phase.Reloading? && entry == u.work.phase.current
          case UpgradedAll(n) => Lands(u, e) && e.FleetResult? && n == u.work.batchTotal)
    && (EndsWith(u, e).Some? || Lands(u, e) ==> exists i :: 0 <= i < |out| && out[i].Say?)
  }

  lemma StartFailedReports(u: Ui, e: Event)
    requires Core(u) && Timely(u, e) && e.JobStartFailed?
    ensures Reports(u, e, Update(u, e).1)
  {
    var out := Update(u, e).1;
    if EndsWith(u, e).Some? {
      assert out[|out| - 1].Say?;
    }
  }

  lemma JobReports(u: Ui, e: Event)
    requires Core(u) && Timely(u, e) && e.JobResult? && e.id == u.work.id
    ensures Reports(u, e, Update(u, e).1)
  {
    var n, out := |Release(u.work)|, Update(u, e).1;
    if u.mode != Quitting && Succeeded(e.outcome) {
      AdvanceReports(u, e);
      assert forall i :: 0 <= i < |Advance(JobOver(u), e.env).1| ==> out[n + i] == Advance(JobOver(u), e.env).1[i];
    } else if u.mode != Quitting {
      assert out[n].Say?;
    }
  }

  lemma AdvanceReports(u: Ui, e: Event)
    requires Core(u) && Timely(u, e) && Succeeds(u, e) && u.mode != Quitting && u.work.phase.Running?
    ensures Reports(u, e, Advance(JobOver(u), e.env).1)
  {
    var out := Advance(JobOver(u), e.env).1;
    if EndsWith(u, e).Some? {
      assert out[0].Say?;
    }
  }

  lemma LoadReports(u: Ui, e: Event)
    requires Core(u) && Timely(u, e) && (e.ListResult? || e.FleetResult?)
    ensures Reports(u, e, Update(u, e).1)
  {
    var out := Update(u, e).1;
    if EndsWith(u, e).Some? || Lands(u, e) {
      assert out[0].Say?;
    }
  }

  // What is said of an operation's end is what ended it, and it is said whenever one
  // ends: the first cause of the list, or the entry or the batch whose reload landed.
  lemma ReportsAreExact(u: Ui, e: Event)
    requires Core(u) && Timely(u, e)
    ensures Reports(u, e, Update(u, e).1)
  {
    if e.JobResult? && e.id == u.work.id {
      JobReports(u, e);
    } else if e.JobStartFailed? {
      StartFailedReports(u, e);
    } else if e.ListResult? || e.FleetResult? {
      LoadReports(u, e);
    } else if !e.JobResult? {
      RestSaysNothing(u, e);
    }
  }

  ghost predicate GivenBefore(trace: seq<World>, steps: seq<Step>, i: nat, reason: CancelReason)
    requires i <= |steps| < |trace|
  {
    exists j :: 0 <= j < i && trace[j].ui.work.id == trace[i].ui.work.id && Gives(trace[j].ui, steps[j].event, reason)
  }

  // Every ending told in a run is true: each kind has its own cause, in this message or
  // in one the same operation met before.
  ghost predicate Justified(trace: seq<World>, steps: seq<Step>, i: nat, why: Ending)
    requires i < |steps| < |trace|
  {
    var e := steps[i].event;
    match why
    case StartFailed => e.JobStartFailed?
    case TooSmall => (e.JobResult? && !e.env.fits) || GivenBefore(trace, steps, i, ByTerminal)
    case TimedOut => e.JobResult? && e.outcome.authTimedOut
    case AuthFailed =>
      e.JobResult? && (e.outcome.authFailed || (e.outcome.cancelled && GivenBefore(trace, steps, i, ByAuthentication)))
    case UserCancelled =>
      && e.JobResult? && e.outcome.cancelled
      && (trace[i].ui.work.cancelReason == NotCancelled || GivenBefore(trace, steps, i, ByUser))
    case Failed => e.JobResult? && e.outcome.err.Some?
    case LoadFailed => (e.ListResult? || e.FleetResult?) && !e.ok
    case CleanupFailed => e.JobResult? && e.outcome.cleanupErr
  }

  lemma EndingIsTrue(trace: seq<World>, steps: seq<Step>, env: Env, i: nat, said: Report)
    requires Follows(trace, steps, env) && i < |steps| && Say(said) in Asked(trace[i], steps[i]) && said.Ended?
    ensures Justified(trace, steps, i, said.why)
  {
    EveryWorld(trace, steps, env, i);
    ReportsAreExact(trace[i].ui, steps[i].event);
    ReasonsWereGiven(trace, steps, env, i);
    SaidEnding(trace[i].ui, steps[i].event, said);
    Justifies(trace, steps, i, said.why);
  }

  lemma SaidEnding(u: Ui, e: Event, said: Report)
    requires Timely(u, e) && Reports(u, e, Update(u, e).1) && Say(said) in Update(u, e).1 && said.Ended?
    ensures EndsWith(u, e) == Some(said.why)
  {
    var out := Update(u, e).1;
    var k :| 0 <= k < |out| && out[k] == Say(said);
  }

  lemma Justifies(trace: seq<World>, steps: seq<Step>, i: nat, why: Ending)
    requires i < |steps| < |trace| && ReasonGiven(trace, steps, i) && EndsWith(trace[i].ui, steps[i].event) == Some(why)
    ensures Justified(trace, steps, i, why)
  {
  }

  // ---- success ----

  // The reload under way follows the operation that succeeded last.
  ghost predicate ReloadsSuccess(w: World) {
    w.ui.work.phase.Reloading? ==>
      w.succeeded != [] && w.succeeded[|w.succeeded| - 1] == w.ui.work.phase.current
  }

  lemma SuccessStep(w: World, s: Step)
    requires Core(w.ui) && Timely(w.ui, s.event) && ReloadsSuccess(w)
    ensures ReloadsSuccess(After(w, s))
  {
    UpdateAccounted(w.ui, s.event);
  }

  lemma SuccessAt(trace: seq<World>, steps: seq<Step>, env: Env, n: nat)
    requires Follows(trace, steps, env) && n < |steps| && ReloadsSuccess(trace[n])
    ensures ReloadsSuccess(trace[n + 1])
  {
    EveryWorld(trace, steps, env, n);
    SuccessStep(trace[n], steps[n]);
  }

  lemma {:induction false} ReloadsAreOfSuccesses(trace: seq<World>, steps: seq<Step>, env: Env, i: nat)
    requires Follows(trace, steps, env) && i <= |steps|
    ensures ReloadsSuccess(trace[i])
  {
    if i > 0 {
      ReloadsAreOfSuccesses(trace, steps, env, i - 1);
      SuccessAt(trace, steps, env, i - 1);
    }
  }

  // "Done" is true: the entry named is the operation that succeeded last, and its
  // reload has just landed.
  lemma DoneIsTrue(trace: seq<World>, steps: seq<Step>, env: Env, i: nat, entry: Entry)
    requires Follows(trace, steps, env) && i < |steps| && Say(Report.Done(entry)) in Asked(trace[i], steps[i])
    ensures
      var succeeded := trace[i].succeeded;
      && succeeded != [] && succeeded[|succeeded| - 1] == entry
      && steps[i].event.ListResult? && steps[i].event.ok
  {
    EveryWorld(trace, steps, env, i);
    ReportsAreExact(trace[i].ui, steps[i].event);
    ReloadsAreOfSuccesses(trace, steps, env, i);
    SaidDone(trace[i].ui, steps[i].event, entry);
  }

  lemma SaidDone(u: Ui, e: Event, entry: Entry)
    requires Timely(u, e) && Reports(u, e, Update(u, e).1) && Say(Report.Done(entry)) in Update(u, e).1
    ensures Lands(u, e) && e.ListResult? && u.work.phase.Reloading? && entry == u.work.phase.current
  {
    var out := Update(u, e).1;
    var k :| 0 <= k < |out| && out[k] == Say(Report.Done(entry));
  }

  // ---- the exit code ----

  // The code this message asks the program to exit with, if it asks at all.
  function Demands(u: Ui, e: Event): Option<int> {
    if e.Press? && e.key.name == CtrlC then Some(130)
    else if e.Press? && e.key.name == Leave && LeaveQuits(u, e.env) then Some(0)
    else if e.Signal? && (e.code == 130 || e.code == 143) then Some(e.code)
    else if e.JobResult? && e.id == u.work.id && u.mode != Quitting then
      if e.outcome.cleanupErr then Some(1)
      else if Succeeded(e.outcome) && RemovedItself(u.work) then Some(0)
      else None
    else None
  }

  // Where q leaves: a window too small for anything else, a load that follows no
  // operation, or the main window with no operation.
  predicate LeaveQuits(u: Ui, env: Env) {
    || env.tiny
    || (u.mode != Quitting && u.back.load.Some? && u.back.load != Some(AfterOperation))
    || (u.mode != Quitting && u.back.load.None? && (u.mode == Normal || u.mode == Working) && u.work.phase.Idle?)
  }

  // Only a demand begins the quit sequence, and while it lasts the last demand for a
  // code other than zero wins.
  ghost predicate Exits(u: Ui, e: Event, m: Move) {
    var asked := Demands(u, e);
    && (u.mode != Quitting ==>
          && (m.0.mode == Quitting <==> asked.Some?)
          && ((exists i :: 0 <= i < |m.1| && m.1[i].CancelEverything?) <==> asked.Some?))
    && (m.0.mode == Quitting && !Quits(m.1) ==>
          m.0.exitCode == if asked.Some? && (u.mode != Quitting || asked.value != 0) then asked.value else u.exitCode)
    && (forall i :: 0 <= i < |m.1| && m.1[i].Quit? ==>
          && m.0.mode == Quitting && m.1[i].interrupted == (m.0.exitCode == 130)
          && m.0.exitCode
             == if e.env.cleanupFailed then 1
                else if asked.Some? && (u.mode != Quitting || asked.value != 0) then asked.value else u.exitCode)
  }

  // The outputs of a step that begins no quit and ends nothing.
  ghost predicate Stays(out: seq<Out>) {
    forall i :: 0 <= i < |out| ==> !out[i].Quit? && !out[i].CancelEverything?
  }

  lemma BeginExits(u: Ui, code: int, env: Env)
    ensures
      var (u', out) := BeginQuit(u, code, env);
      var next := if u.mode != Quitting || code != 0 then code else u.exitCode;
      && u'.mode == Quitting
      && (u.mode != Quitting ==> exists i :: 0 <= i < |out| && out[i].CancelEverything?)
      && (!Quits(out) ==> u'.exitCode == next)
      && (forall i :: 0 <= i < |out| && out[i].Quit? ==>
            out[i].interrupted == (u'.exitCode == 130) && u'.exitCode == if env.cleanupFailed then 1 else next)
  {
    var out := BeginQuit(u, code, env).1;
    var (entered, first) := EnterQuit(u, code);
    if u.mode != Quitting {
      assert out[|first| - 1].CancelEverything?;
    }
    if out != [] && out[|out| - 1].Quit? {
      assert Quits(out);
    }
  }

  // Words before a step change nothing of this.
  lemma ExitsBehind(u: Ui, e: Event, a: seq<Out>, m: Move)
    requires Exits(u, e, m) && Stays(a)
    ensures Exits(u, e, (m.0, a + m.1))
  {
    var n, out := |a|, a + m.1;
    assert forall i :: n <= i < |out| ==> out[i] == m.1[i - n];
    if i :| 0 <= i < |m.1| && m.1[i].Quit? {
      assert out[n + i].Quit?;
    }
    if i :| 0 <= i < |m.1| && m.1[i].CancelEverything? {
      assert out[n + i].CancelEverything?;
    }
  }

  lemma FinishExits(u: Ui, e: Event, env: Env)
    requires u.mode == Quitting && e.env == env && Demands(u, e).None?
    ensures Exits(u, e, FinishQuit(u, env))
  {
    var out := FinishQuit(u, env).1;
    assert out != [] ==> out[0].Quit?;
  }

  lemma QuitKeyExits(u: Ui, e: Event)
    requires Core(u) && e.Press? && Demands(u, e).Some?
    ensures Exits(u, e, HandleKey(u, e.key, e.env))
  {
    var code := Demands(u, e).value;
    QuitKeyBegins(u, e);
    BeginExits(u, code, e.env);
  }

  lemma QuitKeyBegins(u: Ui, e: Event)
    requires Core(u) && e.Press? && Demands(u, e).Some?
    ensures HandleKey(u, e.key, e.env) == BeginQuit(u, Demands(u, e).value, e.env)
  {
  }

  lemma OtherKeyExits(u: Ui, e: Event)
    requires Core(u) && e.Press? && Demands(u, e).None?
    ensures
      var (u', out) := HandleKey(u, e.key, e.env);
      Stays(out) && u'.exitCode == u.exitCode && (u'.mode == Quitting <==> u.mode == Quitting)
  {
    if e.env.tiny || u.mode == Quitting || u.back.load.Some? || u.mode == Password || u.mode == Trust {
    } else if u.mode == Confirm || u.mode == Search {
      DialogExits(u, e);
    } else {
      NormalExits(u, e);
    }
  }

  lemma NormalExits(u: Ui, e: Event)
    requires e.Press? && (e.key.name == Leave ==> JobRunning(u.work)) && (u.mode == Normal || u.mode == Working)
    ensures
      var (u', out) := UpdateNormal(u, e.key, e.env);
      Stays(out) && u'.exitCode == u.exitCode && u'.mode != Quitting
  {
  }

  lemma DialogExits(u: Ui, e: Event)
    requires e.Press?
    ensures
      var (u', out) := UpdateConfirmation(u, e.key, e.env);
      Stays(out) && u'.exitCode == u.exitCode && u'.mode != Quitting
    ensures
      var (u', out) := UpdateSearch(u, e.key, e.env);
      Stays(out) && u'.exitCode == u.exitCode && (u'.mode == Quitting ==> u.mode == Quitting)
  {
  }

  lemma JobResultExits(u: Ui, e: Event)
    requires Core(u) && Timely(u, e) && e.JobResult? && e.id == u.work.id
    ensures Exits(u, e, Update(u, e))
  {
    SettleExits(u, e);
    ExitsBehind(u, e, Release(u.work), SettleJob(u, e.outcome, e.env));
  }

  lemma SettleExits(u: Ui, e: Event)
    requires Core(u) && Timely(u, e) && e.JobResult? && e.id == u.work.id
    ensures Exits(u, e, SettleJob(u, e.outcome, e.env))
  {
    if u.mode != Quitting && e.outcome.cleanupErr {
      AbortExits(u, e);
    } else if u.mode != Quitting && Succeeded(e.outcome) {
      AdvanceExits(u, e);
    } else if u.mode == Quitting {
      var out := FinishQuit(JobOver(u), e.env).1;
      assert out != [] ==> out[0].Quit?;
    }
  }

  lemma AbortExits(u: Ui, e: Event)
    requires u.work.phase.Running? && e.JobResult? && e.id == u.work.id && u.mode != Quitting && e.outcome.cleanupErr
    ensures Exits(u, e, AbortRun(JobOver(u), e.env))
  {
    var v := ClearBatch(JobOver(u).(work := JobOver(u).work.(queue := [])));
    BeginExits(v, 1, e.env);
    ExitsBehind(u, e, [Say(EndReport(JobOver(u).work, CleanupFailed))], BeginQuit(v, 1, e.env));
  }

  lemma AdvanceExits(u: Ui, e: Event)
    requires Core(u) && Succeeds(u, e) && u.mode != Quitting && u.work.phase.Running?
    ensures Exits(u, e, Advance(JobOver(u), e.env))
  {
    var v := JobOver(u);
    var counted := v.(work := v.work.(batchCompleted := v.work.batchCompleted + if v.work.batchTotal > 0 then 1 else 0));
    BeginExits(counted, 0, e.env);
  }

  lemma LoadExits(u: Ui, e: Event)
    requires Core(u) && Timely(u, e) && (e.ListResult? || e.FleetResult?)
    ensures Exits(u, e, Update(u, e))
  {
    var out := Update(u, e).1;
    assert u.mode == Quitting && out != [] ==> out[0].Quit?;
  }

  lemma BackgroundExits(u: Ui, e: Event)
    requires Core(u) && Timely(u, e) && IsBackground(e)
    ensures Exits(u, e, Update(u, e))
  {
    var out := Update(u, e).1;
    assert u.mode == Quitting && out != [] && out[0].Quit? ==> Quits(out);
  }

  lemma RestExits(u: Ui, e: Event)
    requires Core(u) && Timely(u, e)
    requires e.JobStarted? || e.JobEvent? || e.Resize? || (e.JobResult? && e.id != u.work.id)
    ensures Exits(u, e, Update(u, e))
  {
    assert Demands(u, e).None?;
    RestStays(u, e);
  }

  lemma RestStays(u: Ui, e: Event)
    requires Core(u) && Timely(u, e)
    requires e.JobStarted? || e.JobEvent? || e.Resize? || (e.JobResult? && e.id != u.work.id)
    ensures Stays(Update(u, e).1) && Update(u, e).0.exitCode == u.exitCode
    ensures Update(u, e).0.mode == Quitting ==> u.mode == Quitting
  {
  }

  lemma StartFailedExits(u: Ui, e: Event)
    requires Core(u) && Timely(u, e) && e.JobStartFailed?
    ensures Exits(u, e, Update(u, e))
  {
    var out := Update(u, e).1;
    assert u.mode == Quitting && out != [] ==> out[0].Quit?;
  }

  lemma ExitsExactly(u: Ui, e: Event)
    requires Core(u) && Timely(u, e)
    ensures Exits(u, e, Update(u, e))
  {
    if e.Press? && Demands(u, e).Some? {
      QuitKeyExits(u, e);
    } else if e.Press? {
      OtherKeyExits(u, e);
    } else if e.Signal? {
      BeginExits(u, e.code, e.env);
    } else if e.ListResult? || e.FleetResult? {
      LoadExits(u, e);
    } else if e.JobResult? && e.id == u.work.id {
      JobResultExits(u, e);
    } else if IsBackground(e) {
      BackgroundExits(u, e);
    } else if e.JobStartFailed? {
      StartFailedExits(u, e);
    } else {
      RestExits(u, e);
    }
  }

  // The code held at `i` was demanded by an earlier message, and by no later one for a
  // code other than zero.
  ghost predicate DemandedAt(trace: seq<World>, steps: seq<Step>, i: nat, code: int, j: nat)
    requires i <= |steps| < |trace|
  {
    && j < i && Demands(trace[j].ui, steps[j].event) == Some(code)
    && forall n :: j < n < i ==>
         var asked := Demands(trace[n].ui, steps[n].event);
         asked == None || asked == Some(0)
  }

  ghost predicate CodeDemanded(trace: seq<World>, steps: seq<Step>, i: nat)
    requires i <= |steps| < |trace|
  {
    trace[i].ui.mode == Quitting ==> DemandedLast(trace, steps, i, trace[i].ui.exitCode)
  }

  ghost predicate DemandedLast(trace: seq<World>, steps: seq<Step>, i: nat, code: int)
    requires i <= |steps| < |trace|
  {
    exists j :: DemandedAt(trace, steps, i, code, j)
  }

  lemma ExitsAt(trace: seq<World>, steps: seq<Step>, env: Env, n: nat)
    requires Follows(trace, steps, env) && n < |steps|
    ensures Exits(trace[n].ui, steps[n].event, (trace[n + 1].ui, Asked(trace[n], steps[n])))
  {
    EveryWorld(trace, steps, env, n);
    ExitsExactly(trace[n].ui, steps[n].event);
  }

  lemma DemandNext(trace: seq<World>, steps: seq<Step>, n: nat, code: int)
    requires n < |steps| < |trace| && CodeDemanded(trace, steps, n)
    requires
      var asked := Demands(trace[n].ui, steps[n].event);
      if asked.Some? && (trace[n].ui.mode != Quitting || asked.value != 0) then code == asked.value
      else trace[n].ui.mode == Quitting && code == trace[n].ui.exitCode
    ensures DemandedLast(trace, steps, n + 1, code)
  {
    var u, asked := trace[n].ui, Demands(trace[n].ui, steps[n].event);
    if asked.Some? && (u.mode != Quitting || asked.value != 0) {
      assert DemandedAt(trace, steps, n + 1, code, n);
    } else {
      var j :| DemandedAt(trace, steps, n, code, j);
      assert DemandedAt(trace, steps, n + 1, code, j);
    }
  }

  lemma {:induction false} DemandChain(trace: seq<World>, steps: seq<Step>, outs: seq<seq<Out>>, i: nat)
    requires i <= |steps| < |trace| && |outs| == |steps| && trace[0].ui.mode != Quitting
    requires forall n :: 0 <= n < i ==> Exits(trace[n].ui, steps[n].event, (trace[n + 1].ui, outs[n])) && !Quits(outs[n])
    ensures CodeDemanded(trace, steps, i)
  {
    if i > 0 {
      DemandChain(trace, steps, outs, i - 1);
      if trace[i].ui.mode == Quitting {
        assert Exits(trace[i - 1].ui, steps[i - 1].event, (trace[i].ui, outs[i - 1]));
        DemandNext(trace, steps, i - 1, trace[i].ui.exitCode);
      }
    }
  }

  lemma CodesWereDemanded(trace: seq<World>, steps: seq<Step>, env: Env, i: nat)
    requires Follows(trace, steps, env) && i <= |steps| && forall n :: 0 <= n < i ==> !Quits(Asked(trace[n], steps[n]))
    ensures CodeDemanded(trace, steps, i)
  {
    var outs := seq(|steps|, n requires 0 <= n < |steps| => Asked(trace[n], steps[n]));
    forall n | 0 <= n < i
      ensures Exits(trace[n].ui, steps[n].event, (trace[n + 1].ui, outs[n])) && !Quits(outs[n])
    {
      ExitsAt(trace, steps, env, n);
      assert !Quits(Asked(trace[n], steps[n]));
    }
    OpeningMode(env);
    DemandChain(trace, steps, outs, i);
  }

  lemma OpeningMode(env: Env)
    ensures Opening(env).ui.mode != Quitting
  {
  }

  // When the program ends, it ends with 1 if the cleanup failed, and otherwise with the
  // code demanded last: no later message asked for another but zero, which only counts
  // when it begins the quit. It is an interrupt exactly when that code is 130.
  lemma LastDemandWins(trace: seq<World>, steps: seq<Step>, env: Env, i: nat, interrupted: bool)
    requires Follows(trace, steps, env) && i < |steps| && Quit(interrupted) in Asked(trace[i], steps[i])
    requires forall n :: 0 <= n < i ==> !Quits(Asked(trace[n], steps[n]))
    ensures
      var code := trace[i + 1].ui.exitCode;
      && interrupted == (code == 130)
      && (if steps[i].event.env.cleanupFailed then code == 1 else DemandedLast(trace, steps, i + 1, code))
  {
    CodesWereDemanded(trace, steps, env, i);
    ExitsAt(trace, steps, env, i);
    QuitSaid(trace, steps, i, Asked(trace[i], steps[i]), interrupted);
  }

  lemma QuitSaid(trace: seq<World>, steps: seq<Step>, i: nat, out: seq<Out>, interrupted: bool)
    requires i < |steps| < |trace| && CodeDemanded(trace, steps, i) && Quit(interrupted) in out
    requires Exits(trace[i].ui, steps[i].event, (trace[i + 1].ui, out))
    ensures
      var code := trace[i + 1].ui.exitCode;
      && interrupted == (code == 130)
      && (if steps[i].event.env.cleanupFailed then code == 1 else DemandedLast(trace, steps, i + 1, code))
  {
    var k :| 0 <= k < |out| && out[k] == Quit(interrupted);
    if !steps[i].event.env.cleanupFailed {
      DemandNext(trace, steps, i, trace[i + 1].ui.exitCode);
    }
  }
}
