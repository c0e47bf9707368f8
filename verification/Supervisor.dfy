// The owner of everything in flight beyond the UI's own loop
// (internal/ui/model.go, type Supervisor), and the race between its cleanup and a
// start command that is still running.

module SupervisorSpec {
  import opened Packages

  // The four kinds of command the supervisor can cancel and wait for.
  datatype Slot = ListSlot | SizesSlot | StartSlot | TrustSlot

  datatype Failure = JobFailed(job: nat) | TimedOut

  // A handle stands for a command's cancel function and its done channel; a job for
  // the job and its wait channel. `errors` is the joined cleanup error.
  datatype Super = Super(
    closing: bool,
    owned: map<Slot, nat>,
    job: Option<nat>,
    recorded: bool,
    errors: seq<Failure>)

  const UNUSED := Super(false, map[], None, false, [])

  // A handle that comes too late is not kept: its command is cancelled at once.
  function SetHandle(s: Super, k: Slot, h: nat): (Super, bool) {
    if s.closing then (s, true) else (s.(owned := s.owned[k := h]), false)
  }

  function ClearHandle(s: Super, k: Slot, h: nat): Super {
    if k in s.owned && s.owned[k] == h then s.(owned := s.owned - {k}) else s
  }

  // A job that comes too late is kept all the same, and cancelled.
  function SetJob(s: Super, j: nat): (Super, bool) {
    (s.(job := Some(j), recorded := false), s.closing)
  }

  function FinishJob(s: Super, j: nat, bad: bool): Super {
    if s.recorded then s
    else s.(recorded := true, errors := s.errors + if bad then [JobFailed(j)] else [])
  }

  function Remember(s: Super, errors: seq<Failure>): Super {
    s.(errors := s.errors + errors)
  }

  function Owner(s: Super, k: Slot): Option<nat> {
    if k in s.owned then Some(s.owned[k]) else None
  }
}

module Supervisor {
  import opened Packages
  import opened SupervisorSpec

  class Supervisor {
    var closing: bool
    var owned: map<Slot, nat>
    var job: Option<nat>
    var jobResultRecorded: bool
    var exitCode: int
    var cleanupErr: seq<Failure>

    function Value(): Super
      reads this
    {
      Super(closing, owned, job, jobResultRecorded, cleanupErr)
    }

    constructor ()
      ensures Value() == UNUSED && exitCode == 0
    {
      closing, owned, job := false, map[], None;
      jobResultRecorded, exitCode, cleanupErr := false, 0, [];
    }

    // setList, setSizes, setStart, and setTrust. `cancelled` says the command's
    // context is cancelled on the spot.
    method Set(k: Slot, h: nat) returns (cancelled: bool)
      modifies this
      ensures (Value(), cancelled) == SetHandle(old(Value()), k, h) && exitCode == old(exitCode)
    {
      cancelled := closing;
      if !closing {
        owned := owned[k := h];
      }
    }

    method Clear(k: Slot, h: nat)
      modifies this
      ensures Value() == ClearHandle(old(Value()), k, h) && exitCode == old(exitCode)
    {
      if k in owned && owned[k] == h {
        owned := owned - {k};
      }
    }

    method RegisterJob(j: nat) returns (cancelled: bool)
      modifies this
      ensures (Value(), cancelled) == SetJob(old(Value()), j) && exitCode == old(exitCode)
    {
      job := Some(j);
      jobResultRecorded := false;
      cancelled := closing;
    }

    method RecordJob(j: nat, bad: bool)
      modifies this
      ensures Value() == FinishJob(old(Value()), j, bad) && exitCode == old(exitCode)
    {
      if jobResultRecorded {
        return;
      }
      jobResultRecorded := true;
      if bad {
        cleanupErr := cleanupErr + [JobFailed(j)];
      }
    }

    method SetExitCode(code: int)
      modifies this
      ensures Value() == old(Value()) && exitCode == code
    {
      exitCode := code;
    }

    // The critical section of cancel. What it returns is cancelled after the lock
    // is released: exactly what is owned at that moment.
    method Close() returns (commands: set<nat>, running: Option<nat>)
      modifies this
      ensures Value() == old(Value()).(closing := true) && exitCode == old(exitCode)
      ensures commands == old(owned).Values && running == old(job)
    {
      closing := true;
      commands := set k | k in owned :: owned[k];
      running := job;
    }

    // awaitAll over the channels that exist. `expired` says which waits the deadline
    // cut short.
    method AwaitAll(waits: seq<Option<nat>>, expired: set<nat>) returns (errors: seq<Failure>)
      ensures errors == [] <==> forall i :: 0 <= i < |waits| && waits[i].Some? ==> waits[i].value !in expired
      ensures forall i :: 0 <= i < |errors| ==> errors[i] == TimedOut
      ensures |errors| <= |waits|
    {
      errors := [];
      for n := 0 to |waits|
        invariant errors == [] <==> forall i :: 0 <= i < n && waits[i].Some? ==> waits[i].value !in expired
        invariant forall i :: 0 <= i < |errors| ==> errors[i] == TimedOut
        invariant |errors| <= n
      {
        if waits[n].Some? && waits[n].value in expired {
          errors := errors + [TimedOut];
        }
      }
    }

    method RememberCleanup(errors: seq<Failure>)
      modifies this
      ensures Value() == Remember(old(Value()), errors) && exitCode == old(exitCode)
    {
      cleanupErr := cleanupErr + errors;
    }
  }
}

// Every interleaving of the UI, its start commands, the goroutines that wait for
// jobs, and the cleanup that follows the UI's loop. One step is one critical
// section, one channel operation, or one call.
module SupervisorRuns {
  import opened Packages
  import opened SupervisorSpec

  // The start command of the operation launched last.
  datatype Starter =
    | Absent
    | Calling(op: nat)
    | Holding(op: nat)
    | Registered(op: nat, late: bool)
    | Closing(op: nat)
    | Finished(op: nat, started: bool)

  datatype Stage = Waiting | Returned | Reported | Published | Closed

  // The goroutine that waits for one job; `bad` is the job's cleanup error.
  datatype Waiter = Waiter(stage: Stage, bad: bool)

  datatype Screen = Resting | Launched(op: nat) | Owning(op: nat)

  // What a cancel read while it held the lock: the start command and the job it tells
  // to stop once the lock is released.
  datatype Owned = Owned(start: Option<nat>, job: Option<nat>)

  datatype Cleanup =
    | Before
    | Cancelling(seen: Owned)
    | Looking
    | Awaiting(start: Option<nat>, job: Option<nat>)
    | Rereading(job: Option<nat>)
    | Racing(raced: nat)
    | AwaitingRaced(raced: nat)
    | Finishing
    | Done(clean: bool)

  // `startsCancelled` and `jobsCancelled` are histories: the start commands whose
  // context was cancelled and the jobs told to stop. `quitting` is a cancel the UI has
  // under way, with what it saw.
  datatype World = World(
    super: Super,
    screen: Screen,
    ended: bool,
    quitting: Option<Owned>,
    next: nat,
    starter: Starter,
    startsClosed: set<nat>,
    waiters: map<nat, Waiter>,
    startsCancelled: set<nat>,
    jobsCancelled: set<nat>,
    cleanup: Cleanup)

  const START := World(UNUSED, Resting, false, None, 0, Absent, {}, map[], {}, {}, Before)

  // The UI's part is left free where its own rules would decide: it may launch while
  // something is closing, as it can once a resize has undone a quit, and its loop may
  // end at any time, though its own quit waits for the start command's answer.
  datatype Step =
    | Launch
    | HandleStarted(cancel: bool)
    | HandleStartFailed
    | HandleResult
    | QuitCloses
    | QuitCancels
    | LoopEnds
    | StartReturns(started: bool)
    | RegisterJob
    | SpawnWaiter
    | CloseStart
    | WaitReturns(op: nat, bad: bool)
    | Report(op: nat)
    | Publish(op: nat)
    | CloseWait(op: nat)
    | CleanupCloses
    | CleanupCancels
    | CleanupLooks
    | CleanupAwaits(expired: bool)
    | CleanupRereads
    | CleanupRaces
    | CleanupAwaitsRaced(expired: bool)
    | CleanupReturns

  predicate UiTurn(w: World) {
    !w.ended && w.quitting.None?
  }

  predicate IsUiStep(s: Step) {
    s.Launch? || s.HandleStarted? || s.HandleStartFailed? || s.HandleResult? || s.QuitCloses? || s.LoopEnds?
  }

  predicate At(w: World, op: nat, stage: Stage) {
    op in w.waiters && w.waiters[op].stage == stage
  }

  // The channel of `done`, if there is one, is closed.
  predicate StartGone(w: World, start: Option<nat>) {
    start.Some? ==> start.value in w.startsClosed
  }

  predicate JobGone(w: World, job: Option<nat>) {
    job.Some? ==> At(w, job.value, Closed)
  }

  predicate Enabled(w: World, s: Step) {
    && (IsUiStep(s) ==> UiTurn(w))
    && match s
       case Launch => w.screen.Resting?
       case HandleStarted(_) => w.screen.Launched? && w.starter == Finished(w.screen.op, true)
       case HandleStartFailed => w.screen.Launched? && w.starter == Finished(w.screen.op, false)
       case HandleResult =>
         w.screen.Owning? && (At(w, w.screen.op, Published) || At(w, w.screen.op, Closed))
       case QuitCloses => true
       case QuitCancels => w.quitting.Some?
       case LoopEnds => true
       case StartReturns(_) => w.starter.Calling?
       case RegisterJob => w.starter.Holding?
       case SpawnWaiter => w.starter.Registered?
       case CloseStart => w.starter.Closing?
       case WaitReturns(op, _) => At(w, op, Waiting)
       case Report(op) => At(w, op, Returned)
       case Publish(op) => At(w, op, Reported)
       case CloseWait(op) => At(w, op, Published)
       case CleanupCloses => w.ended && w.cleanup.Before?
       case CleanupCancels => w.cleanup.Cancelling?
       case CleanupLooks => w.cleanup.Looking?
       case CleanupAwaits(expired) =>
         w.cleanup.Awaiting? && (expired || (StartGone(w, w.cleanup.start) && JobGone(w, w.cleanup.job)))
       case CleanupRereads => w.cleanup.Rereading?
       case CleanupRaces => w.cleanup.Racing?
       case CleanupAwaitsRaced(expired) =>
         w.cleanup.AwaitingRaced? && (expired || JobGone(w, Some(w.cleanup.raced)))
       case CleanupReturns => w.cleanup.Finishing?
  }

  function Told(cancelled: set<nat>, owner: Option<nat>): set<nat> {
    if owner.Some? then cancelled + {owner.value} else cancelled
  }

  function Owns(s: Super): Owned {
    Owned(Owner(s, StartSlot), s.job)
  }

  // The calls of a cancel, after its critical section.
  function Tell(w: World, seen: Owned): World {
    w.(startsCancelled := Told(w.startsCancelled, seen.start), jobsCancelled := Told(w.jobsCancelled, seen.job))
  }

  function Late(expired: bool): seq<Failure> {
    if expired then [TimedOut] else []
  }

  function Moved(w: World, op: nat, stage: Stage): map<nat, Waiter>
    requires op in w.waiters
  {
    w.waiters[op := w.waiters[op].(stage := stage)]
  }

  function UiNext(w: World, s: Step): World
    requires Enabled(w, s) && IsUiStep(s)
  {
    if s.Launch? then
      var (super, late) := SetHandle(w.super, StartSlot, w.next);
      w.(super := super, screen := Launched(w.next), next := w.next + 1, starter := Calling(w.next),
         startsCancelled := if late then w.startsCancelled + {w.next} else w.startsCancelled)
    else if s.HandleStarted? then
      w.(super := ClearHandle(w.super, StartSlot, w.screen.op), screen := Owning(w.screen.op),
         jobsCancelled := if s.cancel then w.jobsCancelled + {w.screen.op} else w.jobsCancelled)
    else if s.HandleStartFailed? then
      w.(super := ClearHandle(w.super, StartSlot, w.screen.op), screen := Resting)
    else if s.HandleResult? then
      w.(super := FinishJob(w.super, w.screen.op, w.waiters[w.screen.op].bad), screen := Resting)
    else if s.QuitCloses? then w.(super := w.super.(closing := true), quitting := Some(Owns(w.super)))
    else w.(ended := true)
  }

  predicate IsStarterStep(s: Step) {
    s.StartReturns? || s.RegisterJob? || s.SpawnWaiter? || s.CloseStart?
  }

  function StarterNext(w: World, s: Step): World
    requires Enabled(w, s) && IsStarterStep(s)
  {
    var op := w.starter.op;
    if s.StartReturns? then
      if s.started then w.(starter := Holding(op))
      else w.(starter := Finished(op, false), startsClosed := w.startsClosed + {op})
    else if s.RegisterJob? then
      w.(super := SetJob(w.super, op).0, starter := Registered(op, SetJob(w.super, op).1))
    else if s.SpawnWaiter? then
      w.(jobsCancelled := if w.starter.late then w.jobsCancelled + {op} else w.jobsCancelled,
         starter := Closing(op), waiters := w.waiters[op := Waiter(Waiting, false)])
    else w.(starter := Finished(op, true), startsClosed := w.startsClosed + {op})
  }

  predicate IsWaiterStep(s: Step) {
    s.WaitReturns? || s.Report? || s.Publish? || s.CloseWait?
  }

  function WaiterNext(w: World, s: Step): World
    requires Enabled(w, s) && IsWaiterStep(s)
  {
    if s.WaitReturns? then w.(waiters := w.waiters[s.op := Waiter(Returned, s.bad)])
    else if s.Report? then
      w.(waiters := Moved(w, s.op, Reported), super := FinishJob(w.super, s.op, w.waiters[s.op].bad))
    else if s.Publish? then w.(waiters := Moved(w, s.op, Published))
    else w.(waiters := Moved(w, s.op, Closed))
  }

  predicate IsCleanupStep(s: Step) {
    !IsUiStep(s) && !IsStarterStep(s) && !IsWaiterStep(s) && !s.QuitCancels?
  }

  function CleanupNext(w: World, s: Step): World
    requires Enabled(w, s) && IsCleanupStep(s)
  {
    if s.CleanupCloses? then w.(super := w.super.(closing := true), cleanup := Cancelling(Owns(w.super)))
    else if s.CleanupCancels? then
      Tell(w, w.cleanup.seen).(cleanup := Looking)
    else if s.CleanupLooks? then w.(cleanup := Awaiting(Owner(w.super, StartSlot), w.super.job))
    else if s.CleanupAwaits? then
      w.(super := Remember(w.super, Late(s.expired)), cleanup := Rereading(w.cleanup.job))
    else if s.CleanupRereads? then
      w.(cleanup := if w.super.job.Some? && w.super.job != w.cleanup.job then Racing(w.super.job.value) else Finishing)
    else if s.CleanupRaces? then
      w.(jobsCancelled := w.jobsCancelled + {w.cleanup.raced}, cleanup := AwaitingRaced(w.cleanup.raced))
    else if s.CleanupAwaitsRaced? then w.(super := Remember(w.super, Late(s.expired)), cleanup := Finishing)
    else w.(cleanup := Done(w.super.errors == []))
  }

  function Next(w: World, s: Step): World
    requires Enabled(w, s)
  {
    if IsUiStep(s) then UiNext(w, s)
    else if IsStarterStep(s) then StarterNext(w, s)
    else if IsWaiterStep(s) then WaiterNext(w, s)
    else if s.QuitCancels? then Tell(w, w.quitting.value).(quitting := None)
    else CleanupNext(w, s)
  }

  ghost predicate Follows(w: World, steps: seq<Step>, t: World)
    decreases |steps|
  {
    if steps == [] then t == w
    else Enabled(w, steps[0]) && Follows(Next(w, steps[0]), steps[1..], t)
  }
}
