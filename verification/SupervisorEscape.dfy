// Exactly when a clean cleanup can leave a job behind.

module SupervisorEscape {
  import opened Packages
  import opened SupervisorSpec
  import opened SupervisorRuns
  import opened SupervisorProperties

  // Every job is over: none can still be made, every Wait has returned without a
  // cleanup error, and the job of an operation the UI had not seen through was told
  // to stop and its wait channel is closed.
  predicate JobsOver(w: World) {
    && !w.starter.Calling? && !w.starter.Holding? && !w.starter.Registered?
    && (forall op :: op in w.waiters ==> Over(w, op) && !w.waiters[op].bad)
    && (HasJob(w) ==> w.screen.op in w.jobsCancelled && At(w, w.screen.op, Closed))
  }

  // ---- after the loop has ended ----

  lemma {:induction false} EndedStays(w: World, steps: seq<Step>, t: World)
    requires Inv(w) && w.ended && Follows(w, steps, t)
    ensures t.ended && t.screen == w.screen && (Traced(t) <==> Traced(w))
    decreases |steps|
  {
    if steps != [] {
      StepKeepsInv(w, steps[0]);
      EndedStays(Next(w, steps[0]), steps[1..], t);
    }
  }

  lemma {:induction false} ErrorsStay(w: World, steps: seq<Step>, t: World)
    requires w.super.errors != [] && w.cleanup != Done(true) && Follows(w, steps, t)
    ensures t.cleanup != Done(true)
    decreases |steps|
  {
    if steps != [] {
      ErrorsStay(Next(w, steps[0]), steps[1..], t);
    }
  }

  // ---- a start command that had made its job, or none, before the cleanup ----

  // The start command on the screen has done all it will do to the supervisor.
  predicate Committed(w: World) {
    w.ended && w.screen.Launched? && (HasJob(w) || w.starter == Finished(w.screen.op, false))
  }

  // The cleanup waits for its job even if it never saw the command.
  ghost predicate Awaited(w: World) {
    match w.cleanup
    case Awaiting(_, job) => job == w.super.job
    case Rereading(job) =>
      job == w.super.job && (HasJob(w) ==> TimedOut in w.super.errors || At(w, w.screen.op, Closed))
    case Racing(_) => false
    case AwaitingRaced(_) => false
    case Finishing => HasJob(w) ==> TimedOut in w.super.errors || At(w, w.screen.op, Closed)
    case Done(clean) => clean ==> w.super.errors == [] && (HasJob(w) ==> At(w, w.screen.op, Closed))
    case _ => true
  }

  lemma CommittedStep(w: World, s: Step)
    requires Line(w) && Jobs(w) && Committed(w) && Enabled(w, s)
    ensures Committed(Next(w, s)) && Next(w, s).super.job == w.super.job && (HasJob(Next(w, s)) <==> HasJob(w))
  {
  }

  lemma AwaitedStep(w: World, s: Step)
    requires Line(w) && Jobs(w) && Committed(w) && Awaited(w) && Enabled(w, s)
    ensures Awaited(Next(w, s))
  {
    if IsCleanupStep(s) {
      AwaitedByCleanup(w, s);
    }
  }

  lemma AwaitedByCleanup(w: World, s: Step)
    requires Line(w) && Jobs(w) && Committed(w) && Awaited(w) && Enabled(w, s) && IsCleanupStep(s)
    ensures Awaited(Next(w, s))
  {
    assert multiset(w.super.errors + [TimedOut])[TimedOut] > 0;
  }

  lemma {:induction false} CommittedRun(w: World, steps: seq<Step>, t: World)
    requires Inv(w) && Committed(w) && Awaited(w) && Follows(w, steps, t)
    ensures Inv(t) && Committed(t) && Awaited(t)
    decreases |steps|
  {
    if steps != [] {
      StepKeepsInv(w, steps[0]);
      CommittedStep(w, steps[0]);
      AwaitedStep(w, steps[0]);
      CommittedRun(Next(w, steps[0]), steps[1..], t);
    }
  }

  lemma CommittedMeans(w: World)
    requires Inv(w) && Committed(w) && Awaited(w) && w.cleanup == Done(true)
    ensures JobsOver(w)
  {
    forall op | op in w.waiters
      ensures Over(w, op) && !w.waiters[op].bad
    {
      assert multiset(w.super.errors)[JobFailed(op)] == 0;
    }
  }

  // ---- one that had not: the escape ----

  // The start command is still to make its job, and the supervisor does not know it.
  predicate Unknown(w: World) {
    w.screen.Launched? && !Traced(w) && (w.starter.Calling? || w.starter.Holding?)
  }

  lemma {:induction false} FollowsStep(w: World, steps: seq<Step>, t: World, s: Step)
    requires Follows(w, steps, t) && Enabled(t, s)
    ensures Follows(w, steps + [s], Next(t, s))
    decreases |steps|
  {
    if steps != [] {
      FollowsStep(Next(w, steps[0]), steps[1..], t, s);
      assert (steps + [s])[1..] == steps[1..] + [s];
    } else {
      assert steps + [s] == [s];
    }
  }

  ghost predicate Leads(w: World, t: World) {
    exists steps :: Follows(w, steps, t)
  }

  lemma LeadsOn(w: World, t: World, s: Step)
    requires Leads(w, t) && Enabled(t, s)
    ensures Leads(w, Next(t, s))
  {
    var steps :| Follows(w, steps, t);
    FollowsStep(w, steps, t, s);
  }

  lemma LeadsToItself(w: World)
    ensures Leads(w, w)
  {
    assert Follows(w, [], w);
  }

  // The job of an earlier operation has only its wait channel left to close.
  lemma OlderJobCloses(w: World) returns (t: World)
    requires Inv(w) && Unknown(w)
    ensures Leads(w, t) && JobGone(t, t.super.job) && t == w.(waiters := t.waiters)
  {
    LeadsToItself(w);
    t := w;
    if w.super.job.Some? && At(w, w.super.job.value, Published) {
      LeadsOn(w, w, CloseWait(w.super.job.value));
      t := Next(w, CloseWait(w.super.job.value));
    }
  }

  lemma LoopIsOver(w: World, v: World) returns (t: World)
    requires Leads(w, v)
    ensures Leads(w, t) && t.ended && t == v.(quitting := t.quitting, ended := true,
                                                startsCancelled := t.startsCancelled, jobsCancelled := t.jobsCancelled)
  {
    t := v;
    if !v.ended && v.quitting.Some? {
      LeadsOn(w, t, QuitCancels);
      t := Next(t, QuitCancels);
    }
    if !v.ended {
      LeadsOn(w, t, LoopEnds);
      t := Next(t, LoopEnds);
    }
  }

  lemma CleanupLooksAway(w: World, v: World) returns (t: World)
    requires Leads(w, v) && v.ended && v.cleanup.Before? && StartSlot !in v.super.owned && JobGone(v, v.super.job)
    ensures Leads(w, t) && t.cleanup == Awaiting(None, t.super.job) && JobGone(t, t.super.job)
    ensures
      t == v.(super := v.super.(closing := true), cleanup := t.cleanup,
              startsCancelled := t.startsCancelled, jobsCancelled := t.jobsCancelled)
  {
    LeadsOn(w, v, CleanupCloses);
    t := Next(v, CleanupCloses);
    LeadsOn(w, t, CleanupCancels);
    t := Next(t, CleanupCancels);
    LeadsOn(w, t, CleanupLooks);
    t := Next(t, CleanupLooks);
  }

  lemma CleanupPasses(w: World, v: World) returns (t: World)
    requires Leads(w, v) && v.cleanup == Awaiting(None, v.super.job) && JobGone(v, v.super.job) && v.super.errors == []
    ensures Leads(w, t) && t == v.(cleanup := Done(true))
  {
    LeadsOn(w, v, CleanupAwaits(false));
    t := Next(v, CleanupAwaits(false));
    assert v.super.errors + [] == v.super.errors;
    LeadsOn(w, t, CleanupRereads);
    t := Next(t, CleanupRereads);
    LeadsOn(w, t, CleanupReturns);
    t := Next(t, CleanupReturns);
  }

  lemma JobIsMade(w: World, v: World) returns (t: World)
    requires Leads(w, v) && v.cleanup == Done(true) && v.screen.Launched?
    requires v.starter == Calling(v.screen.op) || v.starter == Holding(v.screen.op)
    ensures Leads(w, t) && t.cleanup == Done(true) && HasJob(t) && At(t, t.screen.op, Waiting)
  {
    t := v;
    if v.starter.Calling? {
      LeadsOn(w, t, StartReturns(true));
      t := Next(t, StartReturns(true));
    }
    LeadsOn(w, t, RegisterJob);
    t := Next(t, RegisterJob);
    LeadsOn(w, t, SpawnWaiter);
    t := Next(t, SpawnWaiter);
  }

  // From every such state, the loop ended or not, Cleanup can return no error and a
  // job be running afterwards.
  lemma UnknownEscapes(steps: seq<Step>, w: World) returns (t: World)
    requires Follows(START, steps, w) && Unknown(w) && w.cleanup.Before? && w.super.errors == []
    ensures Leads(w, t) && t.cleanup == Done(true) && HasJob(t) && At(t, t.screen.op, Waiting)
  {
    RunKeepsInv(START, steps, w);
    t := OlderJobCloses(w);
    t := LoopIsOver(w, t);
    t := CleanupLooksAway(w, t);
    t := CleanupPasses(w, t);
    t := JobIsMade(w, t);
  }

  // ---- exactly ----

  ghost predicate MayLeaveAJob(w: World) {
    exists t :: Leads(w, t) && t.cleanup == Done(true) && !JobsOver(t)
  }

  lemma KnownMeansOver(w: World, steps: seq<Step>, t: World)
    requires Inv(w) && w.ended && w.cleanup.Before? && Follows(w, steps, t) && t.cleanup == Done(true)
    requires !Unknown(w)
    ensures JobsOver(t)
  {
    RunKeepsInv(w, steps, t);
    EndedStays(w, steps, t);
    if w.screen.Launched? && !Traced(w) {
      CommittedRun(w, steps, t);
      CommittedMeans(t);
    } else {
      CleanInvMeans(t);
    }
  }

  // When the UI's loop has ended, a Cleanup that returns no error can leave a job
  // behind exactly when the start command on the screen is one the supervisor does not
  // know, has not yet handed over its job, and no error has been joined.
  lemma CleanupEscapesExactly(steps: seq<Step>, w: World)
    requires Follows(START, steps, w) && w.ended && w.cleanup.Before?
    ensures MayLeaveAJob(w) <==> Unknown(w) && w.super.errors == []
  {
    RunKeepsInv(START, steps, w);
    if MayLeaveAJob(w) {
      var t :| Leads(w, t) && t.cleanup == Done(true) && !JobsOver(t);
      var more :| Follows(w, more, t);
      if w.super.errors != [] {
        ErrorsStay(w, more, t);
      } else if !Unknown(w) {
        KnownMeansOver(w, more, t);
      }
    }
    if Unknown(w) && w.super.errors == [] {
      var t := UnknownEscapes(steps, w);
      assert !JobsOver(t);
    }
  }

  // And such a state is reached: something begins to close, the UI launches an
  // operation all the same, and its loop ends before the start command answers. The
  // program's own quit waits for that answer, so here the loop ends by other means.
  lemma AnUnknownStart() returns (steps: seq<Step>, w: World)
    ensures Follows(START, steps, w) && w.ended && w.cleanup.Before? && Unknown(w) && w.super.errors == []
    ensures MayLeaveAJob(w)
  {
    steps, w := [QuitCloses, QuitCancels, Launch, LoopEnds], START;
    assert steps[1..] == [QuitCancels, Launch, LoopEnds];
    assert steps[1..][1..] == [Launch, LoopEnds] && steps[1..][1..][1..] == [LoopEnds];
    w := Next(Next(Next(Next(w, QuitCloses), QuitCancels), Launch), LoopEnds);
    assert Follows(Next(Next(Next(START, QuitCloses), QuitCancels), Launch), [LoopEnds], w);
    CleanupEscapesExactly(steps, w);
  }

  // ---- and runs that end well ----

  lemma Take(w: World, s: Step) returns (t: World)
    requires Leads(START, w) && Enabled(w, s)
    ensures Leads(START, t) && t == Next(w, s)
  {
    LeadsOn(START, w, s);
    t := Next(w, s);
  }

  // The start command on the screen makes its job and is done; a job that comes too
  // late is told at once.
  lemma JobStarts(w: World) returns (t: World)
    requires Leads(START, w) && w.screen.Launched? && w.starter == Calling(w.screen.op)
    ensures Leads(START, t)
    ensures
      var op := w.screen.op;
      t == w.(super := SetJob(w.super, op).0, starter := Finished(op, true), startsClosed := w.startsClosed + {op},
              waiters := w.waiters[op := Waiter(Waiting, false)],
              jobsCancelled := if w.super.closing then w.jobsCancelled + {op} else w.jobsCancelled)
  {
    t := Take(w, StartReturns(true));
    t := Take(t, RegisterJob);
    t := Take(t, SpawnWaiter);
    t := Take(t, CloseStart);
  }

  // Its job ends without a cleanup error and is reported.
  lemma JobEnds(w: World, op: nat) returns (t: World)
    requires Leads(START, w) && At(w, op, Waiting) && !w.super.recorded
    ensures Leads(START, t)
    ensures t == w.(waiters := w.waiters[op := Waiter(Published, false)], super := w.super.(recorded := true))
  {
    t := Take(w, WaitReturns(op, false));
    t := Take(t, Report(op));
    assert w.super.errors + [] == w.super.errors;
    t := Take(t, Publish(op));
  }

  // An operation is launched, runs, and is seen through by the UI.
  lemma AnOperation() returns (w: World)
    ensures Leads(START, w) && w.screen.Resting? && w.next == 1 && At(w, 0, Published)
    ensures w.super == Super(false, map[], Some(0), true, []) && w.startsCancelled == {} && w.jobsCancelled == {}
  {
    LeadsToItself(START);
    w := Take(START, Launch);
    w := JobStarts(w);
    w := Take(w, HandleStarted(false));
    w := JobEnds(w, 0);
    w := Take(w, HandleResult);
    assert w.super.owned == map[];
  }

  // The cleanup has looked, and the start command it saw makes its job afterwards.
  lemma AJobRaces() returns (w: World)
    ensures Leads(START, w) && w.cleanup == Awaiting(Some(0), None) && 0 in w.startsClosed && w.ended
    ensures w.super == Super(true, w.super.owned, Some(0), false, []) && w.screen == Launched(0)
    ensures w.waiters == map[0 := Waiter(Waiting, false)] && w.jobsCancelled == {0} && w.starter == Finished(0, true)
  {
    LeadsToItself(START);
    w := Take(START, Launch);
    w := Take(w, LoopEnds);
    w := Take(w, CleanupCloses);
    w := Take(w, CleanupCancels);
    w := Take(w, CleanupLooks);
    w := JobStarts(w);
  }

  lemma AJobIsAwaited() returns (w: World)
    ensures Leads(START, w) && w.cleanup == AwaitingRaced(0) && w.super.errors == [] && w.super.job == Some(0)
    ensures !w.super.recorded && w.screen == Launched(0) && w.jobsCancelled == {0}
    ensures w.waiters == map[0 := Waiter(Waiting, false)] && w.starter == Finished(0, true)
  {
    w := AJobRaces();
    assert w.super.errors + [] == w.super.errors;
    w := Take(w, CleanupAwaits(false));
    w := Take(w, CleanupRereads);
    w := Take(w, CleanupRaces);
  }

  // The race the cleanup is for: the loop ends while the start command is still calling,
  // its job is registered after the cleanup has looked, and the cleanup tells it, waits
  // for it, and returns no error.
  lemma ARaceWon() returns (w: World)
    ensures Leads(START, w) && w.cleanup == Done(true) && NothingLeft(w) && HasJob(w) && 0 in w.jobsCancelled
  {
    w := AJobIsAwaited();
    w := JobEnds(w, 0);
    w := RaceEnds(w);
  }

  lemma RaceEnds(w: World) returns (t: World)
    requires Leads(START, w) && w.cleanup == AwaitingRaced(0) && At(w, 0, Published) && w.super.errors == []
    ensures Leads(START, t)
    ensures t == w.(waiters := w.waiters[0 := w.waiters[0].(stage := Closed)], cleanup := Done(true))
  {
    t := Take(w, CloseWait(0));
    t := Take(t, CleanupAwaitsRaced(false));
    assert w.super.errors + [] == w.super.errors;
    t := Take(t, CleanupReturns);
  }
}
