// What each message has the program do beyond its own window: which cancellations it
// orders, which row's details it shows, and which dialogs its keys open.

module UiEffects {
  import opened Packages
  import opened Protocol
  import opened UiSpec
  import opened UiInvariant
  import opened UiFlight
  import opened UiLedger
  import opened UiPrompts
  import opened UiOrigins
  import opened UiReasons
  import L = LoaderSpec
  import M = Monitor

  // ---- cancellations ----

  // A resize that the running operation does not fit, and that is the first reason to
  // cancel it.
  predicate CutsShort(u: Ui, e: Event) {
    e.Resize? && !e.env.operationFits && !u.work.phase.Idle? && u.work.cancelReason == NotCancelled
  }

  // The current job reports something other than a welcome password request.
  predicate Unwelcome(u: Ui, e: Event) {
    && e.JobEvent? && e.id == u.work.id && e.open && u.work.phase.Running? && u.mode != Quitting && !Opens(u, e)
  }

  predicate CancelsTheJob(u: Ui, e: Event) {
    || (e.JobStarted? && (e.id != u.work.id || u.work.cancelReason != NotCancelled || u.mode == Quitting))
    || Unwelcome(u, e)
    || Typed(u, e, Esc) || (Typed(u, e, Enter) && e.env.answerFails)
    || (CutsShort(u, e) && u.work.phase.Running?)
  }

  // The context of the start command is let go of when its job is over or could not be
  // started, and when the operation is cut short.
  predicate ReleasesStart(u: Ui, e: Event) {
    u.work.handle &&
    ((e.JobResult? && e.id == u.work.id) || (e.JobStartFailed? && e.id == u.work.id && u.mode != Quitting) || CutsShort(u, e))
  }

  ghost predicate Cancels(u: Ui, e: Event, out: seq<Out>) {
    && (CancelJob in out <==> CancelsTheJob(u, e))
    && (CancelStart in out <==> ReleasesStart(u, e))
    && (CancelReload in out <==> CutsShort(u, e) && u.work.phase.Reloading?)
  }

  lemma KeyCancels(u: Ui, e: Event)
    requires Core(u) && e.Press?
    ensures Cancels(u, e, HandleKey(u, e.key, e.env).1)
  {
    if e.key.name == CtrlC || e.env.tiny || u.mode == Quitting || u.back.load.Some? || u.mode == Trust {
      OutsideCancels(u, e);
    } else if u.mode == Password {
      PromptCancels(u, e);
    } else if u.mode == Confirm || u.mode == Search {
      DialogCancels(u, e);
    } else {
      NormalCancels(u, e);
    }
  }

  lemma OutsideCancels(u: Ui, e: Event)
    requires Core(u) && e.Press?
    requires e.key.name == CtrlC || e.env.tiny || u.mode == Quitting || u.back.load.Some? || u.mode == Trust
    ensures Cancels(u, e, HandleKey(u, e.key, e.env).1)
  {
  }

  lemma PromptCancels(u: Ui, e: Event)
    requires Core(u) && e.Press? && u.mode == Password && !e.env.tiny
    ensures Cancels(u, e, UpdatePassword(u, e.key, e.env).1)
  {
    var out := UpdatePassword(u, e.key, e.env).1;
    assert |out| > 1 ==> out[1] == CancelJob;
  }

  lemma NormalCancels(u: Ui, e: Event)
    requires e.Press? && u.mode != Password
    ensures Cancels(u, e, UpdateNormal(u, e.key, e.env).1)
  {
  }

  lemma DialogCancels(u: Ui, e: Event)
    requires Core(u) && e.Press?
    ensures u.mode == Confirm ==> Cancels(u, e, UpdateConfirmation(u, e.key, e.env).1)
    ensures u.mode == Search ==> Cancels(u, e, UpdateSearch(u, e.key, e.env).1)
  {
  }

  lemma ResizeCancels(u: Ui, e: Event)
    requires Core(u) && e.Resize?
    ensures Cancels(u, e, Update(u, e).1)
  {
    DialogsKeepWork(u, e.env);
    if CutsShort(u, e) {
      SqueezeCancels(CloseDialogs(u, e.env));
    } else {
      FittingCancels(u, e);
    }
  }

  lemma DialogsKeepWork(u: Ui, env: Env)
    requires Core(u)
    ensures
      var w, w' := u.work, CloseDialogs(u, env).work;
      w' == w.(batchTotal := w'.batchTotal, batchCompleted := w'.batchCompleted)
  {
  }

  lemma SqueezeCancels(u: Ui)
    requires !u.work.phase.Idle?
    ensures
      var out := CancelSqueezed(u).1;
      && (CancelJob in out <==> u.work.phase.Running?)
      && (CancelStart in out <==> u.work.handle)
      && (CancelReload in out <==> u.work.phase.Reloading?)
  {
    var out := CancelSqueezed(u).1;
    var refused := if u.mode == Password && u.work.phase.Running? then 1 else 0;
    var told := refused + if u.work.phase.Running? then 1 else 0;
    assert u.work.phase.Running? ==> out[refused] == CancelJob;
    assert u.work.handle ==> out[told] == CancelStart;
    assert u.work.phase.Reloading? ==> out[|out| - 1] == CancelReload;
  }

  lemma FittingCancels(u: Ui, e: Event)
    requires Core(u) && e.Resize? && !CutsShort(u, e)
    ensures Update(u, e).1 == []
  {
  }

  lemma JobCancels(u: Ui, e: Event)
    requires Core(u) && Timely(u, e) && (e.JobStarted? || e.JobStartFailed? || e.JobEvent?)
    ensures Cancels(u, e, Update(u, e).1)
  {
    var out := Update(u, e).1;
    assert out != [] ==> out[0] in out;
  }

  lemma JobResultCancels(u: Ui, e: Event)
    requires Core(u) && Timely(u, e) && e.JobResult?
    ensures Cancels(u, e, Update(u, e).1)
  {
    if e.id == u.work.id {
      SettleCancels(u, e);
      assert Release(u.work) != [] ==> Release(u.work)[0] == CancelStart;
      assert Update(u, e).1 == Release(u.work) + SettleJob(u, e.outcome, e.env).1;
    }
  }

  lemma SettleCancels(u: Ui, e: Event)
    requires Core(u) && Timely(u, e) && e.JobResult? && e.id == u.work.id
    ensures
      var out := SettleJob(u, e.outcome, e.env).1;
      CancelJob !in out && CancelStart !in out && CancelReload !in out
  {
  }

  lemma LoadCancels(u: Ui, e: Event)
    requires Core(u) && Timely(u, e) && (e.ListResult? || e.FleetResult?)
    ensures Cancels(u, e, Update(u, e).1)
  {
  }

  lemma BackgroundCancels(u: Ui, e: Event)
    requires Core(u) && Timely(u, e) && IsBackground(e)
    ensures Cancels(u, e, Update(u, e).1)
  {
  }

  // The job is told to stop exactly when it comes too late or for nobody, asks for
  // something unwelcome, is given up at its prompt, or no longer fits; its start command
  // is let go of exactly once it is over or cut short; and a reload is cut short only
  // with its operation.
  lemma CancelsExactly(u: Ui, e: Event)
    requires Core(u) && Timely(u, e)
    ensures Cancels(u, e, Update(u, e).1)
  {
    if e.Press? {
      KeyCancels(u, e);
    } else if e.Resize? {
      ResizeCancels(u, e);
    } else if e.JobResult? {
      JobResultCancels(u, e);
    } else if e.JobStarted? || e.JobStartFailed? || e.JobEvent? {
      JobCancels(u, e);
    } else if e.ListResult? || e.FleetResult? {
      LoadCancels(u, e);
    } else if IsBackground(e) {
      BackgroundCancels(u, e);
    }
  }

  // ---- details ----

  // The key reaches the search row.
  predicate Searches(u: Ui, e: Event) {
    e.Press? && u.mode == Search && !e.env.tiny && u.back.load.None? && e.key.name != CtrlC
  }

  predicate KeySelects(u: Ui, e: Event) {
    || ((Takes(u, e, Cursor) || Takes(u, e, Reorder)) && e.env.listChanged)
    || (Switches(u, e) && e.env.retained.Some?)
    || (Searches(u, e)
        && match e.key.name
           case Enter => false
           case Esc => true
           case Tab => e.env.completes
           case _ => e.key.edits)
  }

  // A list that lands, fresh sizes that move the rows, or a row newly trusted.
  predicate ResultSelects(u: Ui, e: Event) {
    && u.mode != Quitting
    && (|| (LoadAnswered(u, e) && (e.ok || (u.back.load == Some(AfterOperation) && u.work.cancelReason == ByTerminal)))
        || (e.SizesResult? && e.id == u.back.sizesId && e.ok && e.env.listChanged && u.back.load.None? && u.mode != Working)
        || (e.TrustResult? && e.id == u.back.trustId && e.ok && u.back.trustPackage.Some?))
  }

  predicate Clears(u: Ui, e: Event) {
    || (Switches(u, e) && e.env.retained.None?) || Refreshes(u, e) || RunSucceeds(u, e)
    || (LoadAnswered(u, e) && u.mode != Quitting && !ResultSelects(u, e))
  }

  // What was cached is looked up again after a refresh, a run of operations, or a
  // package newly trusted.
  predicate Renews(u: Ui, e: Event) {
    || Refreshes(u, e) || RunSucceeds(u, e)
    || (e.TrustResult? && e.id == u.back.trustId && e.ok && u.back.trustPackage.Some? && u.mode != Quitting)
  }

  ghost predicate Details(u: Ui, e: Event, u': Ui) {
    !u.info.stopped ==>
      && u'.info.target == (if KeySelects(u, e) || ResultSelects(u, e) then e.env.selected
                            else if Clears(u, e) then None else u.info.target)
      && u'.info.generation == u.info.generation + if Renews(u, e) then 1 else 0
  }

  lemma KeyDetails(u: Ui, e: Event)
    requires Core(u) && e.Press?
    ensures Details(u, e, HandleKey(u, e.key, e.env).0)
  {
    if e.key.name == CtrlC || e.env.tiny || u.mode == Quitting || u.back.load.Some? {
    } else if u.mode == Search {
      SearchDetails(u, e);
    } else if u.mode == Confirm || u.mode == Password || u.mode == Trust {
      DialogDetails(u, e);
    } else if e.key.name == Tab || e.key.name == UiSpec.Refresh {
      ReloadingDetails(u, e);
    } else {
      NormalDetails(u, e);
    }
  }

  lemma SearchDetails(u: Ui, e: Event)
    requires Core(u) && Searches(u, e)
    ensures Details(u, e, UpdateSearch(u, e.key, e.env).0)
  {
  }

  lemma DialogDetails(u: Ui, e: Event)
    requires Core(u) && e.Press?
    ensures u.mode == Confirm ==> Details(u, e, UpdateConfirmation(u, e.key, e.env).0)
    ensures u.mode == Password ==> Details(u, e, UpdatePassword(u, e.key, e.env).0)
    ensures u.mode == Trust ==> Details(u, e, UpdateTrust(u, e.key).0)
  {
  }

  lemma ReloadingDetails(u: Ui, e: Event)
    requires Core(u) && e.Press? && !e.env.tiny && u.back.load.None? && (u.mode == Normal || u.mode == Working)
    requires e.key.name == Tab || e.key.name == UiSpec.Refresh
    ensures Details(u, e, UpdateNormal(u, e.key, e.env).0)
  {
  }

  lemma NormalDetails(u: Ui, e: Event)
    requires Core(u) && e.Press? && !e.env.tiny && u.back.load.None? && (u.mode == Normal || u.mode == Working)
    requires e.key.name != Tab && e.key.name != UiSpec.Refresh
    ensures Details(u, e, UpdateNormal(u, e.key, e.env).0)
  {
    assert !Clears(u, e) && !Renews(u, e);
  }

  lemma JobDetails(u: Ui, e: Event)
    requires Core(u) && Timely(u, e) && (e.JobStarted? || e.JobStartFailed? || e.JobEvent?)
    ensures Details(u, e, Update(u, e).0)
  {
  }

  lemma JobResultDetails(u: Ui, e: Event)
    requires Core(u) && Timely(u, e) && e.JobResult?
    ensures Details(u, e, Update(u, e).0)
  {
    if e.id == u.work.id && u.mode != Quitting && Succeeded(e.outcome) {
      AdvanceDetails(u, e);
    }
  }

  lemma AdvanceDetails(u: Ui, e: Event)
    requires Core(u) && Timely(u, e) && Succeeds(u, e) && u.mode != Quitting && u.work.phase.Running?
    ensures Details(u, e, Advance(JobOver(u), e.env).0)
  {
  }

  lemma LoadDetails(u: Ui, e: Event)
    requires Core(u) && Timely(u, e) && (e.ListResult? || e.FleetResult?)
    ensures Details(u, e, Update(u, e).0)
  {
  }

  lemma BackgroundDetails(u: Ui, e: Event)
    requires Core(u) && Timely(u, e) && IsBackground(e)
    ensures Details(u, e, Update(u, e).0)
  {
  }

  lemma RestDetails(u: Ui, e: Event)
    requires Core(u) && (e.Resize? || e.Signal?)
    ensures Details(u, e, Update(u, e).0)
  {
  }

  // The row whose details are wanted is the selected one, from the message that moves
  // the selection on, until the list is cleared or another message selects.
  lemma DetailsFollow(u: Ui, e: Event)
    requires Core(u) && Timely(u, e)
    ensures Details(u, e, Update(u, e).0)
  {
    if e.Press? {
      KeyDetails(u, e);
    } else if e.JobResult? {
      JobResultDetails(u, e);
    } else if e.JobStarted? || e.JobStartFailed? || e.JobEvent? {
      JobDetails(u, e);
    } else if e.ListResult? || e.FleetResult? {
      LoadDetails(u, e);
    } else if IsBackground(e) {
      BackgroundDetails(u, e);
    } else {
      RestDetails(u, e);
    }
  }

  // ---- dialogs ----

  // A key that may open a window opens it, over the selected row.
  lemma KeysOpenWindows(u: Ui, e: Event)
    requires Core(u) && e.Press?
    ensures
      var u' := Update(u, e).0;
      && (forall verb, p :: AsksFor(u, e, verb, p) && u.work.batchTotal == 0 ==>
            u'.mode == Confirm && u'.ask == Ask(Some(p), verb, []))
      && (forall p :: OpensReview(u, e, p) ==>
            && u'.mode == Trust && u'.back.trustPackage == Some(p) && u'.back.trustPending
            && !u'.back.trustDetails && !u'.back.trustFailed
            && DetailsCmd(u'.back.trustId) in Cmds(Update(u, e).1))
      && (Takes(u, e, Slash) && u.work.phase.Idle? ==> u'.mode == Search)
  {
    if e.env.selected.Some? {
      WaitsIsPending(u, Uninstall, e.env.selected.value);
      WaitsIsPending(u, Upgrade, e.env.selected.value);
    }
    if Takes(u, e, ReviewTrust) {
      OneCmd(Run(DetailsCmd(u.back.trustId + 1)));
    }
  }

  // Or over exactly the rows that can be upgraded.
  lemma BatchOpens(u: Ui, e: Event)
    requires Core(u) && Takes(u, e, UpgradeEvery) && u.work.phase.Idle? && e.env.batchFits
    requires exists p :: AsksForAll(u, e, p)
    ensures
      var u' := Update(u, e).0;
      && u'.mode == Confirm && u'.ask.confirmation.None? && u'.ask.verb == Upgrade
      && (forall p :: p in u'.ask.batch <==> AsksForAll(u, e, p))
  {
    BatchMeans(u, e, e.env.retained.GetOr([]));
  }

  lemma {:induction false} BatchMeans(u: Ui, e: Event, rows: seq<Package>)
    ensures forall p :: p in Batch(rows) <==> p in rows && Upgradable(p) && !Self(p)
  {
    if rows != [] {
      BatchMeans(u, e, rows[1..]);
    }
  }
}
