// What one message does to the confirmed operations: which it confirms, which it
// starts, which it drops, and what it adds to a batch's count.

module UiLedger {
  import opened Packages
  import opened Protocol
  import opened UiSpec
  import opened UiInvariant
  import L = LoaderSpec
  import M = Monitor

  // The entries a key confirms: a lowercase y over a dialog that fits, with nothing
  // loading and the terminal large enough to take keys.
  function Confirms(u: Ui, e: Event): seq<Entry> {
    if !e.Press? || e.key.name != Yes || e.env.tiny || u.mode != Confirm || u.back.load.Some? then []
    else if u.ask.batch != [] then (if e.env.batchFits then Entries(u.ask.batch) else [])
    else if u.ask.confirmation.Some? && e.env.fits then [Entry(u.ask.verb, u.ask.confirmation.value)]
    else []
  }

  // The current job's result, good or bad.
  predicate Succeeds(u: Ui, e: Event) {
    e.JobResult? && e.id == u.work.id && Succeeded(e.outcome)
  }

  predicate Fails(u: Ui, e: Event) {
    || (e.JobResult? && e.id == u.work.id && !Succeeded(e.outcome))
    || (e.JobStartFailed? && e.id == u.work.id)
  }

  predicate Starts(out: seq<Out>) {
    exists i :: 0 <= i < |out| && out[i].Run? && out[i].cmd.StartCmd?
  }

  predicate Ends(out: seq<Out>) {
    exists i :: 0 <= i < |out| && out[i].Say? && out[i].report.Ended?
  }

  // The operations the machine holds: the current one, then the queue.
  function Held(w: Work): seq<Entry> {
    (if JobRunning(w) then [w.phase.current] else []) + w.queue
  }

  predicate Same(a: Entry, b: Entry) {
    a.verb == b.verb && SameTarget(a.pkg, b.pkg)
  }

  // One more success of a batch outside the quit sequence.
  function Counted(u: Ui, e: Event): nat {
    u.work.batchCompleted + if u.work.batchTotal > 0 && u.mode != Quitting && Succeeds(u, e) then 1 else 0
  }

  // Nothing starts and nothing is dropped; a confirmed entry joins the queue.
  ghost predicate Kept(u: Ui, e: Event, u': Ui, out: seq<Out>) {
    var w, w', added := u.work, u'.work, Confirms(u, e);
    && !Starts(out) && !Ends(out) && w'.id == w.id
    && w'.queue == w.queue + added
    && (w'.phase.Idle? || (JobRunning(w) && w'.phase.current == w.phase.current))
    && (w'.phase.Starting? ==> w.phase.Starting?)
    && (Succeeds(u, e) ==> !w'.phase.Starting? && !w'.phase.Running?)
    && (w'.phase.Reloading? && !w.phase.Reloading? ==> Succeeds(u, e) && u.mode != Quitting)
    && (w.phase.Halted? ==> w'.phase.Halted?)
    && (added != [] ==> u.ask.batch == [] && |added| == 1 && !exists i :: 0 <= i < |Held(w)| && Same(Held(w)[i], added[0]))
    && (w'.batchTotal > 0 ==> w'.batchTotal == w.batchTotal && w'.batchCompleted == Counted(u, e))
  }

  // The oldest confirmed entry starts, and nothing else does.
  ghost predicate Launched(u: Ui, e: Event, u': Ui, out: seq<Out>) {
    var w, w', added := u.work, u'.work, Confirms(u, e);
    && Starts(out) && !Ends(out) && w'.id == w.id + 1
    && w'.phase.Starting? && w.queue + added == [w'.phase.current] + w'.queue
    && (if added == []
        then Succeeds(u, e) && u.mode != Quitting && w.phase.Running?
             && w'.batchTotal == w.batchTotal && w'.batchCompleted == Counted(u, e)
        else w.phase.Idle? && w'.batchCompleted == 0
             && w'.batchTotal == (if u.ask.batch != [] then |added| else 0))
    && (u.ask.batch == [] ==> |added| <= 1)
  }

  // The run ends early and the whole queue goes with it.
  ghost predicate Cut(u: Ui, e: Event, u': Ui, out: seq<Out>) {
    var w, w' := u.work, u'.work;
    && !Starts(out) && Ends(out) && Confirms(u, e) == [] && w'.id == w.id
    && JobRunning(w) && !w.phase.Halted? && w'.queue == [] && w'.batchTotal == 0
    && (w'.phase.Idle? || (w'.phase.Halted? && w'.phase.current == w.phase.current))
  }

  ghost predicate Accounted(u: Ui, e: Event, m: Move) {
    || Kept(u, e, m.0, m.1)
    || Launched(u, e, m.0, m.1)
    || Cut(u, e, m.0, m.1)
  }

  // ---- keys ----

  lemma QuitAccounted(u: Ui, e: Event, code: int, env: Env)
    requires Core(u) && Confirms(u, e) == [] && !Succeeds(u, e)
    ensures Accounted(u, e, BeginQuit(u, code, env))
  {
  }

  lemma ConfirmationAccounted(u: Ui, e: Event)
    requires Core(u) && e.Press? && u.mode == Confirm && !e.env.tiny && u.back.load.None?
    ensures Accounted(u, e, UpdateConfirmation(u, e.key, e.env))
  {
    if Confirms(u, e) != [] && u.work.phase.Idle? {
      var (u', out) := UpdateConfirmation(u, e.key, e.env);
      assert out[0].Run? && out[0].cmd.StartCmd?;
      assert Launched(u, e, u', out);
    }
  }

  lemma NormalAccounted(u: Ui, e: Event)
    requires Core(u) && e.Press? && u.mode != Confirm
    ensures Accounted(u, e, UpdateNormal(u, e.key, e.env))
  {
    if e.key.name == Leave {
      QuitAccounted(u, e, 0, e.env);
    } else if e.key.name == Remove || e.key.name == UpgradeOne || e.key.name == UpgradeEvery || e.key.name == ReviewTrust {
      DialogOpens(u, e);
    }
  }

  lemma DialogOpens(u: Ui, e: Event)
    requires Core(u) && e.Press? && u.mode != Confirm
    requires e.key.name == Remove || e.key.name == UpgradeOne || e.key.name == UpgradeEvery || e.key.name == ReviewTrust
    ensures Kept(u, e, UpdateNormal(u, e.key, e.env).0, UpdateNormal(u, e.key, e.env).1)
  {
  }

  lemma SearchAccounted(u: Ui, e: Event)
    requires Core(u) && e.Press? && u.mode == Search
    ensures Accounted(u, e, UpdateSearch(u, e.key, e.env))
  {
  }

  lemma PromptAccounted(u: Ui, e: Event)
    requires Core(u) && e.Press? && (u.mode == Password || u.mode == Trust)
    ensures u.mode == Password ==> Accounted(u, e, UpdatePassword(u, e.key, e.env))
    ensures u.mode == Trust ==> Accounted(u, e, UpdateTrust(u, e.key))
  {
  }

  lemma KeyAccounted(u: Ui, e: Event)
    requires Core(u) && e.Press?
    ensures Accounted(u, e, HandleKey(u, e.key, e.env))
  {
    var key, env := e.key, e.env;
    if key.name == CtrlC {
      QuitAccounted(u, e, 130, env);
    } else if env.tiny {
      if key.name == Leave { QuitAccounted(u, e, 0, env); }
    } else if u.mode == Quitting {
    } else if u.back.load.Some? {
      if key.name == Leave { QuitAccounted(u, e, 0, env); }
    } else if u.mode == Confirm {
      ConfirmationAccounted(u, e);
    } else if u.mode == Search {
      SearchAccounted(u, e);
    } else if u.mode == Password || u.mode == Trust {
      PromptAccounted(u, e);
    } else {
      NormalAccounted(u, e);
    }
  }

  // ---- messages ----

  lemma JobMessageAccounted(u: Ui, e: Event)
    requires Core(u) && Timely(u, e) && (e.JobStarted? || e.JobEvent?)
    ensures Kept(u, e, Update(u, e).0, Update(u, e).1)
  {
  }

  lemma StartFailedAccounted(u: Ui, id: nat, env: Env)
    requires Core(u) && Timely(u, JobStartFailed(id, env))
    ensures Accounted(u, JobStartFailed(id, env), HandleJobStartFailed(u, id, env))
  {
    var (u', out) := HandleJobStartFailed(u, id, env);
    if id == u.work.id && u.mode != Quitting {
      assert out[|Release(u.work)|].report.Ended?;
      assert Cut(u, JobStartFailed(id, env), u', out);
    }
  }

  lemma FailureAccounted(u: Ui, e: Event, why: Ending)
    requires Core(u) && u.work.phase.Running? && e.JobResult? && Confirms(u, e) == []
    ensures
      var (u', out) := FinishOperation(JobOver(u), why);
      Cut(u, e, u', Release(u.work) + out)
    ensures
      var (u', out) := AbortRun(JobOver(u), e.env);
      Cut(u, e, u', Release(u.work) + out)
  {
    var n := |Release(u.work)|;
    var finished := Release(u.work) + FinishOperation(JobOver(u), why).1;
    assert finished[n].report.Ended?;
    var aborted := Release(u.work) + AbortRun(JobOver(u), e.env).1;
    assert aborted[n].report.Ended?;
  }

  lemma SuccessAccounted(u: Ui, e: Event)
    requires Core(u) && u.work.phase.Running? && u.mode != Quitting && Succeeds(u, e)
    ensures
      var (u', out) := Advance(JobOver(u), e.env);
      Accounted(u, e, (u', Release(u.work) + out))
  {
    var entry := u.work.phase.current;
    if (entry.verb == Uninstall && Self(entry.pkg)) || u.work.queue == [] {
      LastAccounted(u, e);
    } else {
      NextAccounted(u, e);
    }
  }

  // The last entry of a run, or the program's own removal: nothing else starts.
  lemma LastAccounted(u: Ui, e: Event)
    requires Core(u) && u.work.phase.Running? && u.mode != Quitting && Succeeds(u, e)
    requires (u.work.phase.current.verb == Uninstall && Self(u.work.phase.current.pkg)) || u.work.queue == []
    ensures
      var (u', out) := Advance(JobOver(u), e.env);
      Kept(u, e, u', Release(u.work) + out)
  {
  }

  lemma NextAccounted(u: Ui, e: Event)
    requires Core(u) && u.work.phase.Running? && u.mode != Quitting && Succeeds(u, e)
    requires !(u.work.phase.current.verb == Uninstall && Self(u.work.phase.current.pkg)) && u.work.queue != []
    ensures
      var (u', out) := Advance(JobOver(u), e.env);
      Accounted(u, e, (u', Release(u.work) + out))
  {
    var (u', out) := Advance(JobOver(u), e.env);
    var all := Release(u.work) + out;
    var n := |Release(u.work)|;
    if e.env.fits {
      assert all[n].cmd.StartCmd?;
      assert Launched(u, e, u', all);
    } else {
      assert all[n].report.Ended?;
      assert Cut(u, e, u', all);
    }
  }

  lemma JobResultAccounted(u: Ui, e: Event)
    requires Core(u) && Timely(u, e) && e.JobResult?
    ensures Accounted(u, e, Update(u, e))
  {
    if e.id == u.work.id && u.mode != Quitting {
      if Succeeded(e.outcome) {
        SuccessAccounted(u, e);
      } else {
        FailureAccounted(u, e, if e.outcome.cleanupErr then Failed else EndingOf(e.outcome, u.work.cancelReason));
      }
    }
  }

  // A reload that ends its run early.
  lemma EndedLoad(u: Ui, e: Event)
    requires Core(u) && u.work.phase.Reloading? && (e.ListResult? || e.FleetResult?)
    ensures Cut(u, e, EndSqueezed(LoadOver(u), e.env).0, EndSqueezed(LoadOver(u), e.env).1)
    ensures
      var (u', out) := FinishOperation(ClearInfo(LoadOver(u)), LoadFailed);
      Cut(u, e, u', out)
  {
    assert EndSqueezed(LoadOver(u), e.env).1[0].report.Ended?;
    assert FinishOperation(ClearInfo(LoadOver(u)), LoadFailed).1[0].report.Ended?;
  }

  // A reload that lands.
  lemma LandedLoad(u: Ui, e: Event)
    requires Core(u) && u.work.phase.Reloading? && (e.ListResult? || e.FleetResult?)
    ensures Kept(u, e, FinishReload(LoadOver(u), e.env).0, FinishReload(LoadOver(u), e.env).1)
    ensures Kept(u, e, FinishFleet(LoadOver(u), e.env).0, FinishFleet(LoadOver(u), e.env).1)
  {
  }

  lemma ListAccounted(u: Ui, e: Event)
    requires Core(u) && Timely(u, e) && e.ListResult?
    ensures Accounted(u, e, Update(u, e))
  {
    if e.id == u.back.loadId && u.mode != Quitting && e.purpose == AfterOperation {
      EndedLoad(u, e);
      LandedLoad(u, e);
    } else {
      assert Kept(u, e, Update(u, e).0, Update(u, e).1);
    }
  }

  lemma FleetAccounted(u: Ui, e: Event)
    requires Core(u) && Timely(u, e) && e.FleetResult?
    ensures Accounted(u, e, Update(u, e))
  {
    if e.id == u.back.loadId && u.mode != Quitting {
      EndedLoad(u, e);
      LandedLoad(u, e);
    } else {
      assert Kept(u, e, Update(u, e).0, Update(u, e).1);
    }
  }

  lemma InfoAccounted(u: Ui, e: Event)
    requires Core(u) && Timely(u, e) && (e.InfoResult? || e.SizesResult?)
    ensures Kept(u, e, Update(u, e).0, Update(u, e).1)
  {
  }

  lemma ReviewAccounted(u: Ui, e: Event)
    requires Core(u) && Timely(u, e) && (e.DetailsResult? || e.TrustResult?)
    ensures Kept(u, e, Update(u, e).0, Update(u, e).1)
  {
  }

  lemma ResizeAccounted(u: Ui, env: Env)
    requires Core(u)
    ensures Kept(u, Resize(env), HandleResize(u, env).0, HandleResize(u, env).1)
  {
  }

  // Every message keeps, starts exactly the oldest entry, or drops the whole queue.
  lemma UpdateAccounted(u: Ui, e: Event)
    requires Core(u) && Timely(u, e)
    ensures Accounted(u, e, Update(u, e))
  {
    match e
    case Resize(env) => ResizeAccounted(u, env);
    case Signal(code, env) => QuitAccounted(u, e, code, env);
    case ListResult(_, _, _, _) => ListAccounted(u, e);
    case FleetResult(_, _, _) => FleetAccounted(u, e);
    case JobStarted(_, _) => JobMessageAccounted(u, e);
    case JobStartFailed(id, env) => StartFailedAccounted(u, id, env);
    case JobEvent(_, _, _, _) => JobMessageAccounted(u, e);
    case JobResult(_, _, _) => JobResultAccounted(u, e);
    case Press(_, _) => KeyAccounted(u, e);
    case DetailsResult(_, _, _) => ReviewAccounted(u, e);
    case TrustResult(_, _, _) => ReviewAccounted(u, e);
    case _ => InfoAccounted(u, e);
  }

  // ---- what the reports say ----

  // A result that is not a success, or a start that fails, leaves nothing to run:
  // the queue is gone, or the quit sequence holds the halted operation for good.
  lemma FailureStops(u: Ui, e: Event)
    requires Core(u) && Timely(u, e) && Fails(u, e)
    ensures
      var (u', out) := Update(u, e);
      !Starts(out) && (u'.work.phase.Halted? || (u'.work.phase.Idle? && u'.work.queue == []))
    ensures u.mode != Quitting ==> Update(u, e).0.work.queue == []
  {
  }

  // A batch dialog opens over the upgradable rows and is never edited.
  lemma BatchComes(u: Ui, e: Event)
    requires Core(u) && Timely(u, e)
    ensures
      var batch := Update(u, e).0.ask.batch;
      batch == u.ask.batch || batch == [] || batch == Batch(e.env.retained.GetOr([]))
  {
    if e.Press? {
      KeyBatch(u, e.key, e.env);
    } else if e.JobResult? || e.JobStartFailed? {
      JobBatch(u, e);
    } else if e.ListResult? || e.FleetResult? {
      LoadBatch(u, e);
    } else {
      RestBatch(u, e);
    }
  }

  lemma JobBatch(u: Ui, e: Event)
    requires Timely(u, e) && (e.JobResult? || e.JobStartFailed?)
    ensures var batch := Update(u, e).0.ask.batch; batch == u.ask.batch || batch == []
  {
  }

  lemma LoadBatch(u: Ui, e: Event)
    requires Timely(u, e) && (e.ListResult? || e.FleetResult?)
    ensures var batch := Update(u, e).0.ask.batch; batch == u.ask.batch || batch == []
  {
  }

  lemma RestBatch(u: Ui, e: Event)
    requires Timely(u, e) && !e.Press? && !e.JobResult? && !e.JobStartFailed? && !e.ListResult? && !e.FleetResult?
    ensures var batch := Update(u, e).0.ask.batch; batch == u.ask.batch || batch == []
  {
  }

  lemma KeyBatch(u: Ui, key: Keystroke, env: Env)
    ensures
      var batch := HandleKey(u, key, env).0.ask.batch;
      batch == u.ask.batch || batch == [] || batch == Batch(env.retained.GetOr([]))
  {
    if key.name == CtrlC || env.tiny || u.mode == Quitting || u.back.load.Some? {
    } else if u.mode == Search || u.mode == Confirm {
      DialogBatch(u, key, env);
    } else {
      NormalBatch(u, key, env);
    }
  }

  lemma NormalBatch(u: Ui, key: Keystroke, env: Env)
    ensures
      var batch := UpdateNormal(u, key, env).0.ask.batch;
      batch == u.ask.batch || batch == [] || batch == Batch(env.retained.GetOr([]))
  {
  }

  lemma DialogBatch(u: Ui, key: Keystroke, env: Env)
    ensures UpdateSearch(u, key, env).0.ask.batch == u.ask.batch
    ensures UpdateConfirmation(u, key, env).0.ask.batch == []
  {
  }

  // Only the end of an operation says anything.
  predicate Talks(e: Event) {
    e.JobStartFailed? || e.JobResult? || e.ListResult? || e.FleetResult?
  }

  ghost predicate Silent(out: seq<Out>) {
    forall i :: 0 <= i < |out| ==> !out[i].Say?
  }

  lemma NormalSaysNothing(u: Ui, key: Keystroke, env: Env)
    ensures Silent(UpdateNormal(u, key, env).1)
  {
  }

  lemma DialogSaysNothing(u: Ui, key: Keystroke, env: Env)
    ensures Silent(UpdateSearch(u, key, env).1) && Silent(UpdateConfirmation(u, key, env).1)
  {
  }

  lemma KeySaysNothing(u: Ui, key: Keystroke, env: Env)
    ensures Silent(HandleKey(u, key, env).1)
  {
    NormalSaysNothing(u, key, env);
    DialogSaysNothing(u, key, env);
  }

  lemma BackgroundSaysNothing(u: Ui, e: Event)
    requires Timely(u, e) && IsBackground(e)
    ensures Silent(Update(u, e).1)
  {
  }

  lemma RestSaysNothing(u: Ui, e: Event)
    requires Timely(u, e) && !Talks(e)
    ensures Silent(Update(u, e).1)
  {
    if e.Press? {
      KeySaysNothing(u, e.key, e.env);
    } else if IsBackground(e) {
      BackgroundSaysNothing(u, e);
    }
  }

  // The numbers of an ended batch add up: what succeeded, what was dropped, and the
  // job that failed, if one did, are the whole batch.
  ghost predicate AddsUp(w: Work, failed: bool, out: seq<Out>) {
    forall i :: 0 <= i < |out| && out[i].Say? && out[i].report.Ended? ==>
      var said := out[i].report;
      && said.dropped == |w.queue| && said.total == w.batchTotal
      && (said.total > 0 ==> said.completed + said.dropped + (if failed then 1 else 0) == said.total)
  }

  lemma JobEndAddsUp(u: Ui, e: Event)
    requires Core(u) && Timely(u, e) && e.JobResult?
    ensures AddsUp(u.work, Fails(u, e), Update(u, e).1)
  {
    if e.id == u.work.id && u.mode != Quitting && Succeeded(e.outcome) {
      AdvanceAddsUp(u, e.env);
    }
  }

  lemma AdvanceAddsUp(u: Ui, env: Env)
    requires Core(u) && u.work.phase.Running?
    ensures AddsUp(u.work, false, Advance(JobOver(u), env).1)
  {
  }

  lemma LoadEndAddsUp(u: Ui, e: Event)
    requires Core(u) && Timely(u, e) && (e.ListResult? || e.FleetResult?)
    ensures AddsUp(u.work, Fails(u, e), Update(u, e).1)
  {
  }

  lemma EndedCounts(u: Ui, e: Event)
    requires Core(u) && Timely(u, e)
    ensures AddsUp(u.work, Fails(u, e), Update(u, e).1)
  {
    if e.JobResult? {
      JobEndAddsUp(u, e);
    } else if e.ListResult? || e.FleetResult? {
      LoadEndAddsUp(u, e);
    } else if !e.JobStartFailed? {
      RestSaysNothing(u, e);
    }
  }

  // "Upgraded n" is said only when the whole batch has succeeded and its reload too.
  ghost predicate Earned(u: Ui, e: Event, out: seq<Out>) {
    forall i :: 0 <= i < |out| && out[i].Say? && out[i].report.UpgradedAll? ==>
      && e.FleetResult? && e.ok && u.work.phase.Reloading? && u.work.queue == []
      && out[i].report.count == u.work.batchTotal == u.work.batchCompleted
      && u.work.batchTotal > 0
  }

  lemma JobEarnsNothing(u: Ui, e: Event)
    requires Core(u) && Timely(u, e) && (e.JobResult? || e.JobStartFailed?)
    ensures Earned(u, e, Update(u, e).1)
  {
  }

  lemma LoadEarns(u: Ui, e: Event)
    requires Core(u) && Timely(u, e) && (e.ListResult? || e.FleetResult?)
    ensures Earned(u, e, Update(u, e).1)
  {
  }

  lemma UpgradedAllMeans(u: Ui, e: Event)
    requires Core(u) && Timely(u, e)
    ensures Earned(u, e, Update(u, e).1)
  {
    if e.JobResult? || e.JobStartFailed? {
      JobEarnsNothing(u, e);
    } else if e.ListResult? || e.FleetResult? {
      LoadEarns(u, e);
    } else {
      RestSaysNothing(u, e);
    }
  }
}
