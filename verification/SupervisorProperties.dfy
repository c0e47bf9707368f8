// What every interleaving of the cleanup race keeps.

module SupervisorProperties {
  import opened Packages
  import opened SupervisorSpec
  import opened SupervisorRuns

  predicate HasReported(w: World, op: nat) {
    op in w.waiters && (w.waiters[op].stage.Reported? || w.waiters[op].stage.Published? || w.waiters[op].stage.Closed?)
  }

  predicate Over(w: World, op: nat) {
    At(w, op, Published) || At(w, op, Closed)
  }

  // The operation on the screen is the last one launched, and it goes through its
  // start command before its job.
  ghost predicate Line(w: World) {
    && (w.starter.Absent? <==> w.next == 0)
    && (!w.starter.Absent? ==> w.starter.op + 1 == w.next)
    && (!w.screen.Resting? ==> w.screen.op + 1 == w.next)
    && (w.screen.Owning? ==> w.starter == Finished(w.screen.op, true))
    && (w.screen.Resting? ==> w.starter.Absent? || w.starter.Finished?)
    && (forall op :: op in w.startsClosed ==> op < w.next && (op + 1 == w.next ==> w.starter.Finished?))
    && (w.starter.Finished? ==> w.starter.op in w.startsClosed)
  }

  // One job at a time: only the last launched may have a wait that is not over.
  ghost predicate Jobs(w: World) {
    && (forall op :: op in w.waiters ==>
          && op < w.next
          && (op + 1 == w.next ==> w.starter.Closing? || (w.starter.Finished? && w.starter.started))
          && (op + 1 < w.next || w.screen.Resting? ==> Over(w, op)))
    && (w.starter.Closing? || (w.starter.Finished? && w.starter.started) ==> w.starter.op in w.waiters)
    && (w.starter.Registered? || w.starter.Closing? || (w.starter.Finished? && w.starter.started) ==>
          w.super.job == Some(w.starter.op))
    && (w.super.job.Some? ==>
          && (w.super.job.value in w.waiters || (w.starter.Registered? && w.starter.op == w.super.job.value))
          && (w.super.recorded <==> HasReported(w, w.super.job.value)))
  }

  // Each job that has reported a cleanup error is in the joined error once.
  ghost predicate Errors(w: World) {
    forall op: nat ::
      multiset(w.super.errors)[JobFailed(op)] == if HasReported(w, op) && w.waiters[op].bad then 1 else 0
  }

  // The start command on the screen is one the supervisor can cancel and wait for.
  predicate Traced(w: World) {
    w.screen.Owning? || (w.screen.Launched? && Owner(w.super, StartSlot) == Some(w.screen.op))
  }

  ghost predicate Handles(w: World) {
    && (StartSlot in w.super.owned ==> w.screen == Launched(w.super.owned[StartSlot]))
    && (w.screen.Launched? && StartSlot !in w.super.owned ==> w.super.closing)
    && (w.starter.Registered? ==> w.starter.late ==> w.super.closing)
  }

  predicate HasJob(w: World) {
    !w.screen.Resting? && w.super.job == Some(w.screen.op)
  }

  // A cancel that is under way has what it read still to tell.
  predicate Telling(w: World, seen: Owned) {
    w.quitting == Some(seen) || w.cleanup == Cancelling(seen)
  }

  // The job on the screen has been told to stop, or is about to be.
  ghost predicate Doomed(w: World) {
    HasJob(w) ==>
      || w.screen.op in w.jobsCancelled
      || w.starter == Registered(w.screen.op, true)
      || exists seen :: Telling(w, seen) && seen.job == Some(w.screen.op)
  }

  // So has its start command, unless it is over.
  ghost predicate Stopped(w: World) {
    w.screen.Launched? && !w.starter.Finished? ==>
      || w.screen.op in w.startsCancelled
      || exists seen :: Telling(w, seen) && seen.start == Some(w.screen.op)
  }

  // The start command on the screen is over, and its job, if it made one, is too.
  predicate Settled(w: World) {
    w.starter.Finished? && (HasJob(w) ==> At(w, w.screen.op, Closed))
  }

  ghost predicate Progress(w: World) {
    match w.cleanup
    case Awaiting(start, job) =>
      Traced(w) ==> if w.screen.Owning? then job == Some(w.screen.op) else start == Some(w.screen.op)
    case Rereading(job) =>
      Traced(w) ==>
        || TimedOut in w.super.errors
        || (w.starter.Finished? && (HasJob(w) ==> job != w.super.job || At(w, w.screen.op, Closed)))
    case Racing(raced) =>
      Traced(w) ==>
        TimedOut in w.super.errors || (w.starter.Finished? && (HasJob(w) ==> raced == w.screen.op))
    case AwaitingRaced(raced) =>
      Traced(w) ==>
        TimedOut in w.super.errors || (w.starter.Finished? && (HasJob(w) ==> raced == w.screen.op))
    case Finishing => Traced(w) ==> TimedOut in w.super.errors || Settled(w)
    case Done(clean) =>
      clean && (Traced(w) || w.screen.Resting?) ==>
        w.super.errors == [] && (w.screen.Resting? || Settled(w))
    case _ => true
  }

  ghost predicate CleanupOk(w: World) {
    && (!w.cleanup.Before? ==> w.ended && w.quitting.None? && w.super.closing)
    && (w.ended ==> w.quitting.None?)
    && (w.quitting.Some? ==> w.super.closing)
    && (w.cleanup.AwaitingRaced? ==> w.cleanup.raced in w.jobsCancelled)
    && (w.super.closing ==> Doomed(w) && Stopped(w))
    && Progress(w)
  }

  ghost predicate Inv(w: World) {
    Line(w) && Jobs(w) && Errors(w) && Handles(w) && CleanupOk(w)
  }

  lemma LineStep(w: World, s: Step)
    requires Line(w) && Enabled(w, s)
    ensures Line(Next(w, s))
  {
  }

  lemma JobsUiStep(w: World, s: Step)
    requires Line(w) && Jobs(w) && Enabled(w, s) && IsUiStep(s)
    ensures Jobs(Next(w, s))
  {
  }

  lemma JobsStarterStep(w: World, s: Step)
    requires Line(w) && Jobs(w) && Enabled(w, s) && IsStarterStep(s)
    ensures Jobs(Next(w, s))
  {
  }

  lemma JobsWaiterStep(w: World, s: Step)
    requires Line(w) && Jobs(w) && Enabled(w, s) && IsWaiterStep(s)
    ensures Jobs(Next(w, s))
  {
  }

  lemma JobsStep(w: World, s: Step)
    requires Line(w) && Jobs(w) && Enabled(w, s)
    ensures Jobs(Next(w, s))
  {
    if IsUiStep(s) {
      JobsUiStep(w, s);
    } else if IsStarterStep(s) {
      JobsStarterStep(w, s);
    } else if IsWaiterStep(s) {
      JobsWaiterStep(w, s);
    }
  }

  // Whoever reports second changes nothing.
  lemma SecondReport(w: World, s: Step)
    requires Line(w) && Jobs(w) && Enabled(w, s) && s.HandleResult?
    ensures Next(w, s).super == w.super
  {
  }

  lemma FirstReport(w: World, s: Step)
    requires Line(w) && Jobs(w) && Enabled(w, s) && s.Report?
    ensures Next(w, s).super.errors == w.super.errors + if w.waiters[s.op].bad then [JobFailed(s.op)] else []
    ensures !HasReported(w, s.op)
  {
  }

  lemma ReportErrors(w: World, s: Step)
    requires Line(w) && Jobs(w) && Errors(w) && Enabled(w, s) && s.Report?
    ensures Errors(Next(w, s))
  {
    FirstReport(w, s);
  }

  lemma OtherErrors(w: World, s: Step)
    requires Errors(w) && Enabled(w, s) && !s.Report? && !s.HandleResult? && (s.SpawnWaiter? ==> w.starter.op !in w.waiters)
    ensures Errors(Next(w, s))
  {
    var w' := Next(w, s);
    assert w'.super.errors == w.super.errors || w'.super.errors == w.super.errors + [TimedOut];
    assert multiset([TimedOut])[TimedOut] == 1;
    assert forall op: nat :: multiset(w'.super.errors)[JobFailed(op)] == multiset(w.super.errors)[JobFailed(op)];
    assert forall op: nat :: HasReported(w', op) <==> HasReported(w, op);
  }

  lemma ErrorsStep(w: World, s: Step)
    requires Line(w) && Jobs(w) && Errors(w) && Enabled(w, s)
    ensures Errors(Next(w, s))
  {
    if s.HandleResult? {
      SecondReport(w, s);
    } else if s.Report? {
      ReportErrors(w, s);
    } else {
      OtherErrors(w, s);
    }
  }

  lemma HandlesStep(w: World, s: Step)
    requires Line(w) && Handles(w) && Enabled(w, s)
    ensures Handles(Next(w, s))
  {
  }

  lemma ClosingStep(w: World, s: Step)
    requires CleanupOk(w) && Enabled(w, s)
    ensures
      var w' := Next(w, s);
      && (!w'.cleanup.Before? ==> w'.ended && w'.quitting.None? && w'.super.closing)
      && (w'.ended ==> w'.quitting.None?)
      && (w'.quitting.Some? ==> w'.super.closing)
      && (w'.cleanup.AwaitingRaced? ==> w'.cleanup.raced in w'.jobsCancelled)
  {
  }

  // What a cancel read stays to be told until it is told.
  lemma TellingStep(w: World, s: Step, seen: Owned)
    requires CleanupOk(w) && Enabled(w, s) && Telling(w, seen)
    ensures var w' := Next(w, s); Telling(w', seen) || w' == Tell(w, seen).(quitting := None, cleanup := w'.cleanup)
  {
  }

  // Once anything begins to close, the job on the screen is told or about to be:
  // the cancel read it, or it was registered too late and its starter tells it.
  lemma DoomedStep(w: World, s: Step)
    requires Line(w) && Jobs(w) && Handles(w) && CleanupOk(w) && Enabled(w, s) && Next(w, s).super.closing
    ensures Doomed(Next(w, s))
  {
    var w' := Next(w, s);
    if !w.super.closing {
      assert Telling(w', Owns(w.super));
    } else if HasJob(w) && exists seen :: Telling(w, seen) && seen.job == Some(w.screen.op) {
      var seen :| Telling(w, seen) && seen.job == Some(w.screen.op);
      TellingStep(w, s, seen);
    }
  }

  lemma StoppedStep(w: World, s: Step)
    requires Line(w) && Jobs(w) && Handles(w) && CleanupOk(w) && Enabled(w, s) && Next(w, s).super.closing
    ensures Stopped(Next(w, s))
  {
    var w' := Next(w, s);
    if !w.super.closing {
      assert Telling(w', Owns(w.super));
    } else if w.screen.Launched? && exists seen :: Telling(w, seen) && seen.start == Some(w.screen.op) {
      var seen :| Telling(w, seen) && seen.start == Some(w.screen.op);
      TellingStep(w, s, seen);
    }
  }

  lemma ProgressOfCleanup(w: World, s: Step)
    requires Line(w) && Jobs(w) && Handles(w) && CleanupOk(w) && Enabled(w, s) && IsCleanupStep(s)
    ensures Progress(Next(w, s))
  {
    assert multiset(w.super.errors + [TimedOut])[TimedOut] > 0;
  }

  lemma ProgressOfOthers(w: World, s: Step)
    requires Line(w) && Jobs(w) && Handles(w) && CleanupOk(w) && Enabled(w, s) && !IsCleanupStep(s)
    ensures Progress(Next(w, s))
  {
    if IsWaiterStep(s) {
      ProgressOfWaiters(w, s);
    } else if IsStarterStep(s) {
      ProgressOfStarter(w, s);
    }
  }

  lemma ProgressOfWaiters(w: World, s: Step)
    requires Line(w) && Jobs(w) && CleanupOk(w) && Enabled(w, s) && IsWaiterStep(s)
    ensures Progress(Next(w, s))
  {
  }

  lemma ProgressOfStarter(w: World, s: Step)
    requires Line(w) && Jobs(w) && CleanupOk(w) && Enabled(w, s) && IsStarterStep(s)
    ensures Progress(Next(w, s))
  {
  }

  lemma CleanupStep(w: World, s: Step)
    requires Inv(w) && Enabled(w, s)
    ensures CleanupOk(Next(w, s))
  {
    ClosingStep(w, s);
    if Next(w, s).super.closing {
      DoomedStep(w, s);
      StoppedStep(w, s);
    }
    if IsCleanupStep(s) {
      ProgressOfCleanup(w, s);
    } else {
      ProgressOfOthers(w, s);
    }
  }

  lemma StepKeepsInv(w: World, s: Step)
    requires Inv(w) && Enabled(w, s)
    ensures Inv(Next(w, s))
  {
    LineStep(w, s);
    JobsStep(w, s);
    ErrorsStep(w, s);
    HandlesStep(w, s);
    CleanupStep(w, s);
  }

  lemma {:induction false} RunKeepsInv(w: World, steps: seq<Step>, t: World)
    requires Inv(w) && Follows(w, steps, t)
    ensures Inv(t)
    decreases |steps|
  {
    if steps != [] {
      StepKeepsInv(w, steps[0]);
      RunKeepsInv(Next(w, steps[0]), steps[1..], t);
    }
  }

  // ---- main results ----

  // Nothing is left: no start command can still make a job, every job's wait has
  // returned without a cleanup error, and the job of an operation the UI had not seen
  // through was told to stop and its wait channel is closed.
  predicate NothingLeft(w: World) {
    && (w.starter.Absent? || w.starter.Finished?)
    && (forall op :: op in w.waiters ==> Over(w, op) && !w.waiters[op].bad)
    && (HasJob(w) ==> w.screen.op in w.jobsCancelled && At(w, w.screen.op, Closed))
  }

  // The cleanup race: once Cleanup has returned no error, nothing is left, now or at
  // any later time, provided the start command on the screen was registered.
  lemma CleanMeansNothingLeft(steps: seq<Step>, w: World)
    requires Follows(START, steps, w) && w.cleanup == Done(true) && (w.screen.Launched? ==> Traced(w))
    ensures NothingLeft(w)
  {
    RunKeepsInv(START, steps, w);
    CleanInvMeans(w);
  }

  lemma CleanInvMeans(w: World)
    requires Inv(w) && w.cleanup == Done(true) && (w.screen.Launched? ==> Traced(w))
    ensures NothingLeft(w)
  {
    forall op | op in w.waiters
      ensures Over(w, op) && !w.waiters[op].bad
    {
      assert multiset(w.super.errors)[JobFailed(op)] == 0;
    }
  }

  // A start command is registered exactly when it is launched before anything began
  // to close, and stays so until the UI takes its answer.
  lemma RegisteredUnlessClosing(steps: seq<Step>, w: World)
    requires Follows(START, steps, w) && Enabled(w, Launch)
    ensures Traced(Next(w, Launch)) <==> !w.super.closing
  {
    RunKeepsInv(START, steps, w);
  }

  lemma StaysRegistered(steps: seq<Step>, w: World, s: Step)
    requires Follows(START, steps, w) && Enabled(w, s) && w.screen.Launched?
    ensures Next(w, s).screen == w.screen ==> (Traced(Next(w, s)) <==> Traced(w))
  {
    RunKeepsInv(START, steps, w);
  }

  // Two callers report each job, and each cleanup error is joined exactly once.
  lemma EachErrorOnce(steps: seq<Step>, w: World, op: nat)
    requires Follows(START, steps, w)
    ensures multiset(w.super.errors)[JobFailed(op)] == if HasReported(w, op) && w.waiters[op].bad then 1 else 0
  {
    RunKeepsInv(START, steps, w);
  }

  // Nobody is forgotten: once something has begun to close and no cancel is under
  // way, the start command on the screen has been told unless it is over, and the job
  // on the screen has been told, or was registered too late and its starter is about
  // to tell it. A job the cleanup waits for in a race has been told in any case.
  lemma ClosingTells(steps: seq<Step>, w: World)
    requires Follows(START, steps, w) && w.super.closing && w.quitting.None? && !w.cleanup.Cancelling?
    ensures w.screen.Launched? && !w.starter.Finished? ==> w.screen.op in w.startsCancelled
    ensures HasJob(w) ==> w.screen.op in w.jobsCancelled || w.starter == Registered(w.screen.op, true)
    ensures w.cleanup.AwaitingRaced? ==> w.cleanup.raced in w.jobsCancelled
  {
    RunKeepsInv(START, steps, w);
  }

  ghost predicate Untold(w: World) {
    !w.super.closing ==> w.startsCancelled == {} && w.jobsCancelled == {}
  }

  lemma UntoldStep(w: World, s: Step)
    requires CleanupOk(w) && Handles(w) && Untold(w) && Enabled(w, s) && s != HandleStarted(true)
    ensures Untold(Next(w, s))
  {
  }

  lemma {:induction false} UntoldRun(w: World, steps: seq<Step>, t: World)
    requires Inv(w) && Untold(w) && Follows(w, steps, t) && HandleStarted(true) !in steps
    ensures Untold(t)
    decreases |steps|
  {
    if steps != [] {
      assert steps[0] in steps;
      UntoldStep(w, steps[0]);
      StepKeepsInv(w, steps[0]);
      UntoldRun(Next(w, steps[0]), steps[1..], t);
    }
  }

  // And nobody is told in vain: before anything begins to close, only the UI's own
  // cancel of a job it was handed has told anyone.
  lemma NobodyIsToldBefore(steps: seq<Step>, w: World)
    requires Follows(START, steps, w) && !w.super.closing && HandleStarted(true) !in steps
    ensures w.startsCancelled == {} && w.jobsCancelled == {}
  {
    UntoldRun(START, steps, w);
  }

  // The UI's own cancel reaches the job it was handed, and a job told stays told.
  lemma {:induction false} ToldForGood(w: World, steps: seq<Step>, t: World)
    requires Follows(w, steps, t)
    ensures w.startsCancelled <= t.startsCancelled && w.jobsCancelled <= t.jobsCancelled
    ensures steps != [] && steps[0] == HandleStarted(true) ==> w.screen.op in t.jobsCancelled
    decreases |steps|
  {
    if steps != [] {
      ToldForGood(Next(w, steps[0]), steps[1..], t);
    }
  }
}
