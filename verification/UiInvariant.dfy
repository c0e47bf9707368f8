// What every handler of the UI keeps.

module UiInvariant {
  import opened Packages
  import opened Protocol
  import opened UiSpec
  import L = LoaderSpec
  import M = Monitor

  ghost predicate BatchEntry(e: Entry) {
    e.verb == Upgrade && !Self(e.pkg)
  }

  // The operation, its queue, and its batch.
  ghost predicate WorkOk(w: Work, load: Option<LoadPurpose>) {
    && (w.phase.Idle? ==> w.queue == [] && w.batchTotal == 0)
    && (w.batchTotal == 0 ==> w.batchCompleted == 0)
    && (w.phase.Starting? || w.phase.Running? ==>
          && load.None? && w.handle
          && (w.batchTotal > 0 ==> w.batchCompleted + 1 + |w.queue| == w.batchTotal))
    && (w.phase.Reloading? <==> load == Some(AfterOperation))
    && (w.phase.Reloading? ==> w.queue == [] && w.batchCompleted == w.batchTotal)
    && (w.phase.Halted? ==> load.None?)
    && (w.handle ==> w.phase.Starting? || w.phase.Running? || w.phase.Halted?)
    && (w.batchTotal > 0 ==>
          BatchEntry(w.phase.current) && forall i :: 0 <= i < |w.queue| ==> BatchEntry(w.queue[i]))
  }

  // Prompts and dialogs.
  ghost predicate DialogOk(u: Ui) {
    var w, a := u.work, u.ask;
    && (u.mode == Password ==> w.phase.Running? && w.cancelReason == NotCancelled && w.request.Some?)
    && (u.mode == Confirm ==>
          && u.back.load.None? && w.batchTotal == 0 && (a.confirmation.Some? <==> a.batch == [])
          && (a.confirmation.Some? ==> !PendingOperation(w, a.verb, a.confirmation.value)))
    && (a.batch != [] ==> w.phase.Idle? && a.confirmation.None?)
    && (forall i :: 0 <= i < |a.batch| ==> !Self(a.batch[i]))
    && (u.mode == Quitting ==> u.info.stopped)
  }

  ghost predicate Core(u: Ui) {
    WorkOk(u.work, u.back.load) && DialogOk(u)
  }

  // The window stays with the operation: while one starts or runs nothing but its
  // own dialogs and the quit sequence is on show.
  ghost predicate Windows(u: Ui) {
    var w, load := u.work, u.back.load;
    && (w.phase.Starting? || w.phase.Running? ==>
          u.mode == Working || u.mode == Confirm || u.mode == Password || u.mode == Quitting)
    && (w.phase.Reloading? ==> u.mode == Working || u.mode == Quitting)
    && (w.phase.Halted? ==> u.mode == Quitting)
    && (u.mode == Working ==> !w.phase.Idle?)
    && (u.mode == Search || u.mode == Trust ==> load.None? && w.phase.Idle?)
    && (u.mode == Confirm ==> load.None?)
    && (u.back.trustPending ==> u.mode == Trust || u.mode == Quitting)
    && (u.ask.batch != [] ==> u.mode == Confirm || u.mode == Quitting)
  }

  // ---- small steps ----

  lemma BeginQuitKeeps(u: Ui, code: int, env: Env)
    requires Core(u)
    ensures Core(BeginQuit(u, code, env).0) && BeginQuit(u, code, env).0.mode == Quitting
  {
  }

  lemma BatchRows(packages: seq<Package>)
    ensures forall i :: 0 <= i < |Batch(packages)| ==>
              Upgradable(Batch(packages)[i]) && !Self(Batch(packages)[i]) && Batch(packages)[i] in packages
  {
  }

  // ---- the core: every message, every key ----

  lemma ConfirmationCore(u: Ui, key: Keystroke, env: Env)
    requires Core(u) && u.mode == Confirm
    ensures Core(UpdateConfirmation(u, key, env).0)
  {
  }

  lemma NormalCore(u: Ui, key: Keystroke, env: Env)
    requires Core(u) && u.back.load.None? && (u.mode == Normal || u.mode == Working)
    ensures Core(UpdateNormal(u, key, env).0)
  {
    if key.name == UpgradeEvery {
      BatchRows(env.retained.GetOr([]));
    } else if key.name == Leave {
      BeginQuitKeeps(u, 0, env);
    }
  }

  lemma SearchCore(u: Ui, key: Keystroke, env: Env)
    requires Core(u) && u.back.load.None? && u.mode == Search
    ensures Core(UpdateSearch(u, key, env).0)
  {
  }

  lemma PromptCore(u: Ui, key: Keystroke, env: Env)
    requires Core(u) && (u.mode == Password || u.mode == Trust)
    ensures u.mode == Password ==> Core(UpdatePassword(u, key, env).0)
    ensures u.mode == Trust ==> Core(UpdateTrust(u, key).0)
  {
  }

  lemma KeyCore(u: Ui, key: Keystroke, env: Env)
    requires Core(u)
    ensures Core(HandleKey(u, key, env).0)
  {
    BeginQuitKeeps(u, 130, env);
    BeginQuitKeeps(u, 0, env);
    if u.back.load.None? {
      if u.mode == Confirm {
        ConfirmationCore(u, key, env);
      } else if u.mode == Search {
        SearchCore(u, key, env);
      } else if u.mode == Password || u.mode == Trust {
        PromptCore(u, key, env);
      } else if u.mode == Normal || u.mode == Working {
        NormalCore(u, key, env);
      }
    }
  }

  lemma JobMessageCore(u: Ui, e: Event)
    requires Core(u) && Timely(u, e) && (e.JobStarted? || e.JobStartFailed? || e.JobEvent?)
    ensures Core(Update(u, e).0)
  {
  }

  lemma AdvanceCore(u: Ui, env: Env)
    requires Core(u) && u.work.phase.Running? && u.mode != Quitting
    ensures Core(Advance(JobOver(u), env).0)
  {
    if u.work.queue != [] {
      NextCore(u, env);
    }
  }

  lemma NextCore(u: Ui, env: Env)
    requires Core(u) && u.work.phase.Running? && u.mode != Quitting && u.work.queue != []
    ensures Core(Advance(JobOver(u), env).0)
  {
  }

  lemma EndingCore(u: Ui, why: Ending, env: Env)
    requires Core(u) && u.work.phase.Running?
    ensures Core(FinishOperation(JobOver(u), why).0)
    ensures Core(AbortRun(JobOver(u), env).0)
    ensures u.mode == Quitting ==> Core(FinishQuit(JobOver(u), env).0)
  {
  }

  lemma JobResultCore(u: Ui, id: nat, r: M.Result, env: Env)
    requires Core(u) && (id == u.work.id ==> u.work.phase.Running?)
    ensures Core(HandleJobResult(u, id, r, env).0)
  {
    if id == u.work.id && u.mode != Quitting && Succeeded(r) {
      AdvanceCore(u, env);
    } else if id == u.work.id {
      EndingCore(u, if Succeeded(r) || r.cleanupErr then Failed else EndingOf(r, u.work.cancelReason), env);
    }
  }

  // A reload's landing, or its early end.
  lemma ReloadCore(u: Ui, env: Env)
    requires Core(u) && u.work.phase.Reloading? && u.mode != Quitting
    ensures
      var loaded := LoadOver(u);
      && Core(EndSqueezed(loaded, env).0) && Core(FinishOperation(ClearInfo(loaded), LoadFailed).0)
      && (u.work.batchTotal == 0 ==> Core(FinishReload(loaded, env).0)) && Core(FinishFleet(loaded, env).0)
  {
  }

  lemma ListResultCore(u: Ui, id: nat, purpose: LoadPurpose, ok: bool, env: Env)
    requires Core(u) && Timely(u, ListResult(id, purpose, ok, env))
    ensures Core(HandleListResult(u, id, purpose, ok, env).0)
  {
    if id == u.back.loadId && u.mode != Quitting {
      if purpose == AfterOperation {
        ReloadCore(u, env);
      } else {
        ListCore(u, purpose, ok, env);
      }
    }
  }

  lemma ListCore(u: Ui, purpose: LoadPurpose, ok: bool, env: Env)
    requires Core(u) && u.back.load == Some(purpose) && purpose != AfterOperation && u.mode != Quitting
    ensures Core(LandList(LoadOver(u), purpose, ok, env).0)
  {
  }

  lemma FleetResultCore(u: Ui, id: nat, ok: bool, env: Env)
    requires Core(u) && Timely(u, FleetResult(id, ok, env))
    ensures Core(HandleFleetResult(u, id, ok, env).0)
  {
    if id == u.back.loadId && u.mode != Quitting {
      ReloadCore(u, env);
    }
  }

  predicate IsBackground(e: Event) {
    e.InfoResult? || e.SizesResult? || e.DetailsResult? || e.TrustResult?
  }

  lemma BackgroundCore(u: Ui, e: Event)
    requires Core(u) && Timely(u, e) && IsBackground(e)
    ensures Core(Update(u, e).0)
  {
    if e.InfoResult? || e.SizesResult? {
      InfoCore(u, e);
    } else {
      ReviewCore(u, e);
    }
  }

  lemma InfoCore(u: Ui, e: Event)
    requires Core(u) && Timely(u, e) && (e.InfoResult? || e.SizesResult?)
    ensures Core(Update(u, e).0)
  {
  }

  lemma ReviewCore(u: Ui, e: Event)
    requires Core(u) && Timely(u, e) && (e.DetailsResult? || e.TrustResult?)
    ensures Core(Update(u, e).0)
  {
    if e.DetailsResult? {
      DetailsCore(u, e);
    }
  }

  lemma DetailsCore(u: Ui, e: Event)
    requires Core(u) && Timely(u, e) && e.DetailsResult?
    ensures Core(Update(u, e).0)
  {
  }

  lemma ResizeCore(u: Ui, env: Env)
    requires Core(u)
    ensures Core(HandleResize(u, env).0)
  {
  }

  lemma UpdateCore(u: Ui, e: Event)
    requires Core(u) && Timely(u, e)
    ensures Core(Update(u, e).0)
  {
    match e
    case Resize(env) => ResizeCore(u, env);
    case Signal(code, env) => BeginQuitKeeps(u, code, env);
    case ListResult(id, purpose, ok, env) => ListResultCore(u, id, purpose, ok, env);
    case FleetResult(id, ok, env) => FleetResultCore(u, id, ok, env);
    case JobStarted(_, _) => JobMessageCore(u, e);
    case JobStartFailed(_, _) => JobMessageCore(u, e);
    case JobEvent(_, _, _, _) => JobMessageCore(u, e);
    case JobResult(id, r, env) => JobResultCore(u, id, r, env);
    case Press(key, env) => KeyCore(u, key, env);
    case _ => BackgroundCore(u, e);
  }

  // ---- the windows: every message but some resizes ----

  // A resize takes the program out of its quit sequence exactly when it closes a
  // dialog left open or newly cancels the held operation.
  predicate UndoesQuit(u: Ui, env: Env) {
    && u.mode == Quitting
    && ((u.ask.confirmation.Some? && !env.fits) || (u.ask.batch != [] && !env.batchFits) || Squeezed(u, env))
  }

  lemma UndoesQuitExactly(u: Ui, env: Env)
    requires u.mode == Quitting
    ensures HandleResize(u, env).0.mode != Quitting <==> UndoesQuit(u, env)
  {
  }

  lemma KeyWindows(u: Ui, key: Keystroke, env: Env)
    requires Core(u) && Windows(u)
    ensures Windows(HandleKey(u, key, env).0)
  {
    if u.back.load.None? && key.name != CtrlC && !env.tiny && u.mode != Quitting {
      if u.mode == Normal || u.mode == Working {
        NormalWindows(u, key, env);
      } else if u.mode == Search {
        SearchWindows(u, key, env);
      } else if u.mode == Confirm {
        ConfirmationWindows(u, key, env);
      }
    }
  }

  lemma NormalWindows(u: Ui, key: Keystroke, env: Env)
    requires Core(u) && Windows(u) && u.back.load.None? && (u.mode == Normal || u.mode == Working)
    ensures Windows(UpdateNormal(u, key, env).0)
  {
    if key.name == Leave {
      QuitWindows(u, 0, env);
    } else if key.name == Tab || key.name == Refresh {
      ReloadWindows(u, env);
    }
  }

  lemma QuitWindows(u: Ui, code: int, env: Env)
    requires Core(u) && Windows(u)
    ensures Windows(BeginQuit(u, code, env).0)
  {
  }

  lemma ReloadWindows(u: Ui, env: Env)
    requires Core(u) && Windows(u) && u.back.load.None? && (u.mode == Normal || u.mode == Working)
    ensures Windows(SwitchKind(u, env).0) && Windows(RefreshAll(u).0)
  {
  }

  lemma SearchWindows(u: Ui, key: Keystroke, env: Env)
    requires Core(u) && Windows(u) && u.mode == Search
    ensures Windows(UpdateSearch(u, key, env).0)
  {
  }

  lemma ConfirmationWindows(u: Ui, key: Keystroke, env: Env)
    requires Core(u) && Windows(u) && u.mode == Confirm
    ensures Windows(UpdateConfirmation(u, key, env).0)
  {
  }

  lemma JobWindows(u: Ui, e: Event)
    requires Core(u) && Windows(u) && Timely(u, e)
    requires e.JobStarted? || e.JobStartFailed? || e.JobEvent? || e.JobResult?
    ensures Windows(Update(u, e).0)
  {
    if e.JobResult? {
      JobResultWindows(u, e.id, e.outcome, e.env);
    }
  }

  lemma JobResultWindows(u: Ui, id: nat, r: M.Result, env: Env)
    requires Core(u) && Windows(u) && (id == u.work.id ==> u.work.phase.Running?)
    ensures Windows(HandleJobResult(u, id, r, env).0)
  {
    if id == u.work.id && u.mode != Quitting && Succeeded(r) {
      AdvanceWindows(u, env);
    }
  }

  lemma AdvanceWindows(u: Ui, env: Env)
    requires Core(u) && Windows(u) && u.work.phase.Running? && u.mode != Quitting
    ensures Windows(Advance(JobOver(u), env).0)
  {
  }

  lemma LoadWindows(u: Ui, e: Event)
    requires Core(u) && Windows(u) && Timely(u, e) && (e.ListResult? || e.FleetResult?)
    ensures Windows(Update(u, e).0)
  {
  }

  lemma BackgroundWindows(u: Ui, e: Event)
    requires Core(u) && Windows(u) && Timely(u, e) && IsBackground(e)
    ensures Windows(Update(u, e).0)
  {
  }

  // A resize loses the window exactly when it undoes a quit over a halted
  // operation or a pending review, or closes a dialog left open under a pending
  // review.
  predicate LosesWindow(u: Ui, env: Env) {
    || (UndoesQuit(u, env) && (u.work.phase.Halted? || u.back.trustPending))
    || (u.mode == Trust && u.back.trustPending && u.ask.confirmation.Some? && !env.fits)
  }

  lemma ResizeWindows(u: Ui, env: Env)
    requires Core(u) && Windows(u)
    ensures Windows(HandleResize(u, env).0) <==> !LosesWindow(u, env)
  {
  }

  predicate KeepsWindow(u: Ui, e: Event) {
    e.Resize? ==> !LosesWindow(u, e.env)
  }

  lemma UpdateWindows(u: Ui, e: Event)
    requires Core(u) && Windows(u) && Timely(u, e)
    ensures Windows(Update(u, e).0) <==> KeepsWindow(u, e)
  {
    match e
    case Resize(env) => ResizeWindows(u, env);
    case Signal(code, env) =>
    case Press(key, env) => KeyWindows(u, key, env);
    case ListResult(_, _, _, _) => LoadWindows(u, e);
    case FleetResult(_, _, _) => LoadWindows(u, e);
    case JobStarted(_, _) => JobWindows(u, e);
    case JobStartFailed(_, _) => JobWindows(u, e);
    case JobEvent(_, _, _, _) => JobWindows(u, e);
    case JobResult(_, _, _) => JobWindows(u, e);
    case _ => BackgroundWindows(u, e);
  }
}
