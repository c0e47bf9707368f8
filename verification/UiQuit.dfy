// The end of the program: what the quit sequence waits for, and when it lets go.

module UiQuit {
  import opened Packages
  import opened Protocol
  import opened UiSpec
  import opened UiInvariant
  import opened UiFlight
  import opened UiRuns
  import L = LoaderSpec
  import M = Monitor

  function One(b: bool): nat {
    if b then 1 else 0
  }

  // What is still outstanding. A start counts twice: its job comes after it.
  function Measure(u: Ui): nat {
    One(u.back.load.Some?) + One(u.info.active.Some?) + One(u.back.sizesPending) + One(u.back.trustPending)
    + if u.work.phase.Starting? then 2 else One(u.work.phase.Running?)
  }

  predicate Quits(out: seq<Out>) {
    exists i :: 0 <= i < |out| && out[i].Quit?
  }

  // Does the answer to `c` settle something the state waits for? The rest are
  // superseded measurements and reviews, and the watch on a job's prompts.
  predicate Current(u: Ui, c: Cmd) {
    match c
    case SizesCmd(id) => id == u.back.sizesId
    case DetailsCmd(id) => id == u.back.trustId
    case TrustCmd(id) => id == u.back.trustId
    case EventCmd(_) => false
    case _ => true
  }

  lemma DrainedExactly(u: Ui)
    ensures Measure(u) == 0 <==> !Outstanding(u)
  {
  }

  // ---- one message ----

  lemma BeginQuitDrains(u: Ui, code: int, env: Env)
    ensures
      var (u', out) := BeginQuit(u, code, env);
      u'.mode == Quitting && Measure(u') == Measure(u) && (Quits(out) <==> Measure(u) == 0)
  {
    var (u', out) := BeginQuit(u, code, env);
    if Measure(u) == 0 {
      assert out[|out| - 1].Quit?;
    }
  }

  // The quit sequence is absorbing but for the resizes UndoesQuit names, which do
  // undo it.
  lemma QuitAbsorbs(u: Ui, e: Event)
    requires Core(u) && Timely(u, e) && u.mode == Quitting
    ensures Update(u, e).0.mode != Quitting <==> e.Resize? && UndoesQuit(u, e.env)
  {
    if e.Resize? {
      UndoesQuitExactly(u, e.env);
    }
  }

  // Each answer the state waits for brings the end nearer, and the last one quits.
  lemma DeliveryDrains(u: Ui, f: set<Cmd>, c: Cmd, e: Event)
    requires Core(u) && FlightOk(u, f) && c in f && Answers(e, c) && u.mode == Quitting && Current(u, c)
    ensures Timely(u, e)
    ensures
      var (u', out) := Update(u, e);
      Measure(u') < Measure(u) && (Quits(out) <==> Measure(u') == 0)
  {
    MessagesAreTimely(u, f, c, e);
    if c.StartCmd? || c.ResultCmd? {
      JobDrains(u, e);
    } else {
      ResultDrains(u, e);
    }
  }

  lemma JobDrains(u: Ui, e: Event)
    requires Core(u) && Timely(u, e) && u.mode == Quitting
    requires e.JobStarted? || e.JobStartFailed? || e.JobResult?
    requires e.id == u.work.id
    ensures
      var (u', out) := Update(u, e);
      Measure(u') < Measure(u) && (Quits(out) <==> Measure(u') == 0)
  {
    var (u', out) := Update(u, e);
    if !e.JobStarted? && Measure(u') == 0 {
      assert out[|out| - 1].Quit?;
    }
  }

  lemma ResultDrains(u: Ui, e: Event)
    requires Core(u) && Timely(u, e) && u.mode == Quitting
    requires
      || e.InfoResult?
      || ((e.ListResult? || e.FleetResult?) && e.id == u.back.loadId)
      || (e.SizesResult? && e.id == u.back.sizesId)
      || ((e.DetailsResult? || e.TrustResult?) && e.id == u.back.trustId)
    ensures
      var (u', out) := Update(u, e);
      Measure(u') < Measure(u) && (Quits(out) <==> Measure(u') == 0)
  {
    var (u', out) := Update(u, e);
    if Measure(u') == 0 {
      assert out[|out| - 1].Quit?;
    }
  }

  // Something outstanding always has its command in flight.
  lemma SomethingToDeliver(u: Ui, f: set<Cmd>) returns (c: Cmd)
    requires FlightOk(u, f) && Outstanding(u)
    ensures c in f && Current(u, c)
  {
    if u.back.load.Some? {
      c := if u.back.load.value == AfterOperation && u.work.batchTotal > 0
      then FleetCmd(u.back.loadId) else ListCmd(u.back.loadId, u.back.load.value);
    } else if u.info.active.Some? {
      c := InfoCmd(u.info.active.value);
    } else if u.back.sizesPending {
      c := SizesCmd(u.back.sizesId);
    } else if u.work.phase.Starting? {
      c := StartCmd(u.work.id, u.work.phase.current.pkg);
    } else if u.work.phase.Running? {
      c := ResultCmd(u.work.id);
    } else {
      c := if DetailsCmd(u.back.trustId) in f then DetailsCmd(u.back.trustId) else TrustCmd(u.back.trustId);
    }
  }

  // A message the quit sequence began with or carried on with.
  ghost predicate Drains(m: Move) {
    && (Quits(m.1) ==> m.0.mode == Quitting && Measure(m.0) == 0)
    && (m.0.mode == Quitting && Measure(m.0) == 0 ==> Quits(m.1))
  }

  lemma NormalDrains(u: Ui, key: Keystroke, env: Env)
    requires u.mode != Quitting
    ensures Drains(UpdateNormal(u, key, env))
  {
    if key.name == Leave {
      BeginQuitDrains(u, 0, env);
    }
  }

  lemma DialogDrains(u: Ui, key: Keystroke, env: Env)
    requires u.mode != Quitting
    ensures Drains(UpdateSearch(u, key, env)) && Drains(UpdateConfirmation(u, key, env))
    ensures Drains(UpdatePassword(u, key, env)) && Drains(UpdateTrust(u, key))
  {
  }

  lemma KeyDrains(u: Ui, key: Keystroke, env: Env)
    requires u.mode != Quitting
    ensures Drains(HandleKey(u, key, env))
  {
    BeginQuitDrains(u, 130, env);
    BeginQuitDrains(u, 0, env);
    NormalDrains(u, key, env);
    DialogDrains(u, key, env);
  }

  lemma JobResultDrains(u: Ui, id: nat, r: M.Result, env: Env)
    requires Core(u) && (id == u.work.id ==> u.work.phase.Running?) && u.mode != Quitting
    ensures Drains(HandleJobResult(u, id, r, env))
  {
    if id == u.work.id {
      var halted := JobOver(u);
      AbortDrains(halted, env);
      AdvanceDrains(halted, env);
      var (u', out) := SettleJob(u, r, env);
      assert Drains((u', out));
      QuitsAfter(Release(u.work), out);
    }
  }

  lemma AbortDrains(u: Ui, env: Env)
    ensures Drains(AbortRun(u, env))
  {
    var cut := ClearBatch(u.(work := u.work.(queue := [])));
    BeginQuitDrains(cut, 1, env);
    QuitsAfter([Say(EndReport(u.work, CleanupFailed))], BeginQuit(cut, 1, env).1);
  }

  lemma QuitsAfter(a: seq<Out>, b: seq<Out>)
    ensures Quits(a + b) <==> Quits(a) || Quits(b)
  {
    if Quits(a) {
      var i :| 0 <= i < |a| && a[i].Quit?;
      assert (a + b)[i].Quit?;
    } else if Quits(b) {
      var i :| 0 <= i < |b| && b[i].Quit?;
      assert (a + b)[|a| + i].Quit?;
    }
  }

  lemma AdvanceDrains(u: Ui, env: Env)
    requires u.work.phase.Halted? && u.mode != Quitting
    ensures Drains(Advance(u, env))
  {
    var counted :=
      u.(work := u.work.(batchCompleted := u.work.batchCompleted + if u.work.batchTotal > 0 then 1 else 0));
    BeginQuitDrains(counted, 0, env);
  }

  lemma LoadDrains(u: Ui, e: Event)
    requires Core(u) && Timely(u, e) && u.mode != Quitting && (e.ListResult? || e.FleetResult?)
    ensures Drains(Update(u, e))
  {
  }

  lemma BackgroundDrains(u: Ui, e: Event)
    requires Core(u) && Timely(u, e) && u.mode != Quitting && IsBackground(e)
    ensures Drains(Update(u, e))
  {
  }

  lemma RestDrains(u: Ui, e: Event)
    requires Core(u) && Timely(u, e) && u.mode != Quitting
    requires e.Resize? || e.JobStarted? || e.JobStartFailed? || e.JobEvent?
    ensures Drains(Update(u, e))
  {
  }

  // From outside the quit sequence: a message that begins it lets go at once exactly
  // when nothing is outstanding, and no other message ends the program.
  lemma BeginningDrains(u: Ui, e: Event)
    requires Core(u) && Timely(u, e) && u.mode != Quitting
    ensures Drains(Update(u, e))
  {
    match e
    case Signal(code, env) => BeginQuitDrains(u, code, env);
    case Press(key, env) => KeyDrains(u, key, env);
    case JobResult(id, r, env) => JobResultDrains(u, id, r, env);
    case ListResult(_, _, _, _) => LoadDrains(u, e);
    case FleetResult(_, _, _) => LoadDrains(u, e);
    case Resize(_) => RestDrains(u, e);
    case JobStarted(_, _) => RestDrains(u, e);
    case JobStartFailed(_, _) => RestDrains(u, e);
    case JobEvent(_, _, _, _) => RestDrains(u, e);
    case _ => BackgroundDrains(u, e);
  }

  // From inside it: the program ends only with nothing outstanding.
  lemma QuitOnlyWhenDrained(u: Ui, e: Event)
    requires Core(u) && Timely(u, e) && u.mode == Quitting && Quits(Update(u, e).1)
    ensures Update(u, e).0.mode == Quitting && Measure(Update(u, e).0) == 0
  {
    if e.Press? {
      QuitKeyWhenDrained(u, e.key, e.env);
    } else if e.ListResult? || e.FleetResult? || IsBackground(e) {
      QuitResultWhenDrained(u, e);
    }
  }

  lemma QuitKeyWhenDrained(u: Ui, key: Keystroke, env: Env)
    requires u.mode == Quitting && Quits(HandleKey(u, key, env).1)
    ensures HandleKey(u, key, env).0.mode == Quitting && Measure(HandleKey(u, key, env).0) == 0
  {
  }

  lemma QuitResultWhenDrained(u: Ui, e: Event)
    requires Core(u) && Timely(u, e) && u.mode == Quitting && Quits(Update(u, e).1)
    requires e.ListResult? || e.FleetResult? || IsBackground(e)
    ensures Update(u, e).0.mode == Quitting && Measure(Update(u, e).0) == 0
  {
  }

  // ---- whole runs ----

  // A step that answers a command the state waits for.
  predicate Settles(w: World, s: Step) {
    s.Deliver? && Current(w.ui, s.cmd)
  }

  function Settlements(trace: seq<World>, steps: seq<Step>): seq<bool>
    requires |trace| == |steps| + 1
  {
    seq(|steps|, n requires 0 <= n < |steps| => Settles(trace[n], steps[n]))
  }

  ghost predicate Ending(w: World, s: Step) {
    Quits(Asked(w, s))
  }

  ghost function Endings(trace: seq<World>, steps: seq<Step>): seq<bool>
    requires |trace| == |steps| + 1
  {
    seq(|steps|, n requires 0 <= n < |steps| => Ending(trace[n], steps[n]))
  }

  function Measures(trace: seq<World>): seq<nat> {
    seq(|trace|, n requires 0 <= n < |trace| => Measure(trace[n].ui))
  }

  function Count(flags: seq<bool>, i: nat, j: nat): nat
    requires i <= j <= |flags|
    decreases j - i
  {
    if i == j then 0 else Count(flags, i, j - 1) + One(flags[j - 1])
  }

  // A settled step lowers the measure, and the bell rings exactly as it reaches zero.
  predicate Ticks(measure: seq<nat>, settled: seq<bool>, rings: seq<bool>, n: nat)
    requires |measure| == |settled| + 1 == |rings| + 1 && n < |settled|
  {
    && measure[n + 1] + One(settled[n]) <= measure[n]
    && (rings[n] ==> measure[n + 1] == 0)
    && (measure[n + 1] == 0 < measure[n] ==> rings[n])
  }

  lemma {:induction false} CountDown(measure: seq<nat>, settled: seq<bool>, rings: seq<bool>, i: nat, j: nat)
    requires |measure| == |settled| + 1 == |rings| + 1 && i <= j <= |settled| && measure[i] > 0
    requires forall n :: i <= n < j ==> Ticks(measure, settled, rings, n)
    ensures measure[j] + Count(settled, i, j) <= measure[i]
    ensures measure[j] == 0 <==> exists n :: i <= n < j && rings[n]
    decreases j - i
  {
    if i < j {
      CountDown(measure, settled, rings, i, j - 1);
      assert Ticks(measure, settled, rings, j - 1);
    }
  }

  ghost predicate Undoes(w: World, s: Step) {
    s.event.Resize? && UndoesQuit(w.ui, s.event.env)
  }

  lemma {:induction false} StaysQuitting(trace: seq<World>, steps: seq<Step>, env: Env, i: nat, j: nat)
    requires Follows(trace, steps, env) && i <= j <= |steps| && trace[i].ui.mode == Quitting
    requires forall n :: i <= n < j ==> !Undoes(trace[n], steps[n])
    ensures trace[j].ui.mode == Quitting
    decreases j - i
  {
    if i < j {
      StaysQuitting(trace, steps, env, i, j - 1);
      QuitStepAt(trace, steps, env, j - 1);
    }
  }

  lemma TickAt(trace: seq<World>, steps: seq<Step>, env: Env, n: nat)
    requires Follows(trace, steps, env) && n < |steps| && trace[n].ui.mode == Quitting && !Undoes(trace[n], steps[n])
    ensures Ticks(Measures(trace), Settlements(trace, steps), Endings(trace, steps), n)
  {
    QuitStepAt(trace, steps, env, n);
    assert Endings(trace, steps)[n] == Ending(trace[n], steps[n]);
  }

  // The quit barrier over whole runs: from a state of the quit sequence that no
  // resize undoes, the program ends exactly when nothing is outstanding, which is by
  // the time as many awaited answers have come as were outstanding.
  lemma QuitCompletes(trace: seq<World>, steps: seq<Step>, env: Env, i: nat, j: nat)
    requires Follows(trace, steps, env) && i <= j <= |steps|
    requires trace[i].ui.mode == Quitting && Measure(trace[i].ui) > 0
    requires forall n :: i <= n < j ==> !Undoes(trace[n], steps[n])
    ensures trace[j].ui.mode == Quitting
    ensures Measure(trace[j].ui) + Count(Settlements(trace, steps), i, j) <= Measure(trace[i].ui)
    ensures Measure(trace[j].ui) == 0 <==> exists n :: i <= n < j && Endings(trace, steps)[n]
  {
    StaysQuitting(trace, steps, env, i, j);
    forall n | i <= n < j
      ensures Ticks(Measures(trace), Settlements(trace, steps), Endings(trace, steps), n)
    {
      StaysQuitting(trace, steps, env, i, n);
      TickAt(trace, steps, env, n);
    }
    CountDown(Measures(trace), Settlements(trace, steps), Endings(trace, steps), i, j);
  }

  lemma QuitStepAt(trace: seq<World>, steps: seq<Step>, env: Env, n: nat)
    requires Follows(trace, steps, env) && n < |steps| && trace[n].ui.mode == Quitting && !Undoes(trace[n], steps[n])
    ensures
      var u, u' := trace[n].ui, trace[n + 1].ui;
      && u'.mode == Quitting && Measure(u') + One(Settles(trace[n], steps[n])) <= Measure(u)
      && (Ending(trace[n], steps[n]) ==> Measure(u') == 0)
      && (Measure(u') == 0 < Measure(u) ==> Ending(trace[n], steps[n]))
  {
    EveryWorld(trace, steps, env, n);
    QuitStep(trace[n], steps[n], trace[n + 1].ui);
  }

  lemma QuitStep(w: World, s: Step, u': Ui)
    requires Core(w.ui) && FlightOk(w.ui, w.flight) && Enabled(w, s) && Timely(w.ui, s.event)
    requires w.ui.mode == Quitting && !Undoes(w, s) && u' == Update(w.ui, s.event).0
    ensures u'.mode == Quitting && Measure(u') + One(Settles(w, s)) <= Measure(w.ui)
    ensures Ending(w, s) ==> Measure(u') == 0
    ensures Measure(u') == 0 < Measure(w.ui) ==> Ending(w, s)
  {
    QuitAbsorbs(w.ui, s.event);
    if Settles(w, s) {
      DeliveryDrains(w.ui, w.flight, s.cmd, s.event);
    } else {
      OthersDrainNothing(w, s);
    }
    if Quits(Asked(w, s)) {
      QuitOnlyWhenDrained(w.ui, s.event);
    }
  }

  // What is not such an answer settles nothing.
  lemma OthersDrainNothing(w: World, s: Step)
    requires Core(w.ui) && FlightOk(w.ui, w.flight) && Enabled(w, s) && Timely(w.ui, s.event)
    requires w.ui.mode == Quitting && !Settles(w, s) && !Undoes(w, s)
    ensures Measure(Update(w.ui, s.event).0) == Measure(w.ui)
  {
  }

  lemma DrainedFlight(u: Ui, f: set<Cmd>, c: Cmd)
    requires FlightOk(u, f) && Measure(u) == 0 && c in f
    ensures !Current(u, c)
  {
  }

  // When the program ends, no command still in flight is one the state waited for:
  // no load, lookup, start, or job, and no current measurement or review.
  lemma NothingAwaitedAtTheEnd(trace: seq<World>, steps: seq<Step>, env: Env, i: nat, c: Cmd)
    requires Follows(trace, steps, env) && i < |steps| && Ending(trace[i], steps[i]) && c in trace[i + 1].flight
    ensures !Current(trace[i + 1].ui, c)
  {
    EveryWorld(trace, steps, env, i);
    EveryWorld(trace, steps, env, i + 1);
    if trace[i].ui.mode == Quitting {
      QuitOnlyWhenDrained(trace[i].ui, steps[i].event);
    } else {
      BeginningDrains(trace[i].ui, steps[i].event);
    }
    DrainedFlight(trace[i + 1].ui, trace[i + 1].flight, c);
  }

  // ---- cancelling a running job ----

  predicate CancelsJob(out: seq<Out>) {
    exists i :: 0 <= i < |out| && out[i].CancelJob?
  }

  ghost predicate Told(u: Ui, m: Move) {
    m.0.work.phase.Running? && m.0.work.cancelReason != NotCancelled ==>
      CancelsJob(m.1) || (u.work.phase.Running? && u.work.cancelReason == m.0.work.cancelReason)
  }

  lemma KeyTells(u: Ui, key: Keystroke, env: Env)
    requires Core(u)
    ensures Told(u, HandleKey(u, key, env))
  {
    if key.name != CtrlC && !env.tiny && u.mode != Quitting && u.back.load.None? && u.mode == Password {
      var out := UpdatePassword(u, key, env).1;
      assert |out| == 2 ==> out[1].CancelJob?;
    } else {
      KeyKeepsReason(u, key, env);
    }
  }

  lemma KeyKeepsReason(u: Ui, key: Keystroke, env: Env)
    requires u.mode != Password || key.name == CtrlC || env.tiny || u.mode == Quitting || u.back.load.Some?
    ensures var u' := HandleKey(u, key, env).0;
      u'.work.phase.Running? ==> u.work.phase.Running? && u.work.cancelReason == u'.work.cancelReason
  {
  }

  lemma ResizeTells(u: Ui, env: Env)
    ensures Told(u, HandleResize(u, env))
  {
    var v := CloseDialogs(u, env);
    if Squeezed(v, env) && v.work.phase.Running? {
      var out := CancelSqueezed(v).1;
      assert out[if v.mode == Password then 1 else 0].CancelJob?;
    }
  }

  lemma JobTells(u: Ui, e: Event)
    requires Core(u) && Timely(u, e) && (e.JobStarted? || e.JobEvent?)
    ensures Told(u, Update(u, e))
  {
    var (u', out) := Update(u, e);
    if u'.work.cancelReason != NotCancelled && out != [] && out[0].CancelJob? {
      assert CancelsJob(out);
    }
  }

  // A running job that has a reason to be cancelled was told so by the message that
  // gave the reason or that found it running.
  lemma CancelReachesTheJob(u: Ui, e: Event)
    requires Core(u) && Timely(u, e)
    ensures Told(u, Update(u, e))
  {
    match e
    case Resize(env) => ResizeTells(u, env);
    case Press(key, env) => KeyTells(u, key, env);
    case JobStarted(_, _) => JobTells(u, e);
    case JobEvent(_, _, _, _) => JobTells(u, e);
    case _ => RestTells(u, e);
  }

  lemma RestTells(u: Ui, e: Event)
    requires Core(u) && Timely(u, e) && !e.Resize? && !e.Press? && !e.JobStarted? && !e.JobEvent?
    ensures Told(u, Update(u, e))
  {
  }
}
