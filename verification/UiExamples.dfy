// Runs that show what a resize can do: each is a whole run from the start of the
// program, every message of it answering a command in flight.

module UiExamples {
  import opened Packages
  import opened Protocol
  import opened UiSpec
  import opened UiInvariant
  import opened UiFlight
  import opened UiRuns
  import L = LoaderSpec
  import M = Monitor

  ghost predicate Reached(w: World, env: Env) {
    exists trace, steps :: Follows(trace, steps, env) && trace[|steps|] == w
  }

  lemma OpeningReached(env: Env)
    ensures Reached(Opening(env), env) && Inv(Opening(env))
  {
    OpeningInv(env);
    var trace, steps: seq<Step> := [Opening(env)], [];
    assert Follows(trace, steps, env) && trace[|steps|] == Opening(env);
  }

  lemma Reach(w: World, s: Step, env: Env)
    requires Reached(w, env) && Inv(w) && Enabled(w, s)
    ensures Timely(w.ui, s.event) && Reached(After(w, s), env) && Inv(After(w, s))
  {
    StepKeepsInv(w, s);
    ReachMoves(w, s, env, After(w, s));
  }

  lemma ReachMoves(w: World, s: Step, env: Env, w': World)
    requires Reached(w, env) && Moves(w, s, w')
    ensures Reached(w', env)
  {
    var trace, steps :| Follows(trace, steps, env) && trace[|steps|] == w;
    Longer(trace, steps, env, s, w');
    assert (trace + [w'])[|steps + [s]|] == w';
  }

  lemma Longer(trace: seq<World>, steps: seq<Step>, env: Env, s: Step, w: World)
    requires Follows(trace, steps, env) && Moves(trace[|steps|], s, w)
    ensures Follows(trace + [w], steps + [s], env)
  {
    OneMore(trace, steps, s, w, (v, r, v') => Moves(v, r, v'));
  }

  lemma OneMore<W, S>(states: seq<W>, steps: seq<S>, s: S, w: W, moves: (W, S, W) -> bool)
    requires |states| == |steps| + 1 && moves(states[|steps|], s, w)
    requires forall i :: 0 <= i < |steps| ==> moves(states[i], steps[i], states[i + 1])
    ensures
      forall i :: 0 <= i < |steps| + 1 ==> moves((states + [w])[i], (steps + [s])[i], (states + [w])[i + 1])
  {
    var longer, more := states + [w], steps + [s];
    forall i | 0 <= i < |more|
      ensures moves(longer[i], more[i], longer[i + 1])
    {
      if i < |steps| {
        assert moves(states[i], steps[i], states[i + 1]);
      }
    }
  }

  // What the surroundings say in these runs: a selected row, a terminal with room
  // for everything, or one that no longer fits the dialog over the row.
  function Room(p: Package, fits: bool): Env {
    Env(Some(p), false, None, false, false, fits, true, true, true, false, false)
  }

  function Key(name: KeyName): Keystroke {
    Keystroke(name, false)
  }

  // ---- the common beginning: the list loads and a removal is asked for ----

  predicate AtRest(u: Ui) {
    && u.mode == Normal && u.back.load.None? && u.work.phase.Idle? && u.work.queue == [] && u.work.batchTotal == 0
    && u.work.cancelReason == NotCancelled && u.ask.batch == [] && !u.back.trustPending
  }

  lemma ListLands(p: Package) returns (w: World)
    ensures Reached(w, Room(p, true)) && Inv(w) && AtRest(w.ui) && w.ui.back.sizesPending
  {
    var env := Room(p, true);
    OpeningReached(env);
    var begun := Opening(env);
    assert begun.ui.back.load == Some(Startup) && begun.ui.back.sizesPending && begun.ui.work == FRESH.work;
    var s := Deliver(ListResult(begun.ui.back.loadId, Startup, true, env), ListCmd(begun.ui.back.loadId, Startup));
    Reach(begun, s, env);
    w := After(begun, s);
  }

  // A dialog opens over a row for which nothing is pending, at rest or behind a job.
  predicate MayRemove(u: Ui, q: Package) {
    && u.back.load.None? && (u.mode == Normal || u.mode == Working) && u.work.batchTotal == 0
    && !PendingOperation(u.work, Uninstall, q)
  }

  lemma Asks(w: World, q: Package, env: Env) returns (w': World)
    requires Reached(w, env) && Inv(w) && MayRemove(w.ui, q)
    ensures Reached(w', env) && Inv(w')
    ensures w'.ui == w.ui.(mode := Confirm, ask := Ask(Some(q), Uninstall, []))
  {
    var s := Prompt(Press(Key(Remove), Room(q, true)));
    Reach(w, s, env);
    w' := After(w, s);
  }

  // ---- a quit undone ----

  // The list loads, the uninstall dialog opens, ctrl-c begins the quit while sizes
  // are still being measured, and the terminal shrinks below the dialog. The window
  // is back to normal and the details are gone.
  lemma AQuitUndone(p: Package) returns (quitting: World, undone: World)
    ensures Reached(quitting, Room(p, true)) && quitting.ui.mode == Quitting && Outstanding(quitting.ui)
    ensures
      var shrink := Prompt(Resize(Room(p, false)));
      && Enabled(quitting, shrink) && Timely(quitting.ui, shrink.event) && undone == After(quitting, shrink)
      && Reached(undone, Room(p, true)) && undone.ui.mode == Normal && undone.ui.info.stopped
  {
    quitting := AQuitBegun(p);
    var shrink := Prompt(Resize(Room(p, false)));
    Reach(quitting, shrink, Room(p, true));
    undone := After(quitting, shrink);
  }

  lemma AQuitBegun(p: Package) returns (quitting: World)
    ensures Reached(quitting, Room(p, true)) && Inv(quitting)
    ensures quitting.ui.mode == Quitting && Outstanding(quitting.ui) && quitting.ui.work.phase.Idle?
    ensures quitting.ui.ask == Ask(Some(p), Uninstall, []) && quitting.ui.info.stopped
  {
    var env := Room(p, true);
    var rested := ListLands(p);
    var asked := Asks(rested, p, env);
    var leave := Prompt(Press(Key(CtrlC), env));
    Reach(asked, leave, env);
    quitting := After(asked, leave);
  }

  // ---- a review stranded ----

  lemma Confirms(w: World, p: Package, env: Env) returns (w': World)
    requires Reached(w, env) && Inv(w) && w.ui.mode == Confirm && w.ui.ask == Ask(Some(p), Uninstall, [])
    requires w.ui.work.phase.Idle? && !w.ui.back.trustPending
    ensures Reached(w', env) && Inv(w') && w'.ui.mode == Working && w'.ui.work.phase == Starting(Entry(Uninstall, p))
    ensures w'.ui.work.queue == [] && w'.ui.work.batchTotal == 0 && !w'.ui.back.trustPending
    ensures w'.ui.work.cancelReason == NotCancelled
  {
    var s := Prompt(Press(Key(Yes), Room(p, true)));
    Reach(w, s, env);
    w' := After(w, s);
  }

  lemma JobRuns(w: World, p: Package, env: Env) returns (w': World)
    requires Reached(w, env) && Inv(w) && w.ui.mode == Working && w.ui.work.phase == Starting(Entry(Uninstall, p))
    requires w.ui.work.cancelReason == NotCancelled
    ensures Reached(w', env) && Inv(w')
    ensures w'.ui == w.ui.(work := w.ui.work.(phase := Running(Entry(Uninstall, p))))
    ensures EventCmd(w'.ui.work.id) in w'.flight
  {
    var s := Deliver(JobStarted(w.ui.work.id, Room(p, true)), StartCmd(w.ui.work.id, p));
    Reach(w, s, env);
    w' := After(w, s);
  }

  const SUCCESS := M.Result(None, false, false, false, false)

  // The job succeeds under an open dialog: the reload takes the window, and the
  // dialog's row stays set.
  lemma JobLands(w: World, p: Package, q: Package, env: Env) returns (w': World)
    requires Reached(w, env) && Inv(w) && w.ui.mode == Confirm && w.ui.ask == Ask(Some(q), Uninstall, [])
    requires w.ui.work.phase == Running(Entry(Uninstall, p)) && !Self(p) && w.ui.work.queue == []
    requires w.ui.work.batchTotal == 0 && w.ui.work.cancelReason == NotCancelled && !w.ui.back.trustPending
    ensures Reached(w', env) && Inv(w') && w'.ui.mode == Working && w'.ui.ask == w.ui.ask
    ensures w'.ui.work.phase == Reloading(Entry(Uninstall, p)) && w'.ui.back.load == Some(AfterOperation)
    ensures w'.ui.work.batchTotal == 0 && w'.ui.work.cancelReason == NotCancelled && !w'.ui.back.trustPending
  {
    assert Succeeded(SUCCESS);
    var s := Deliver(JobResult(w.ui.work.id, SUCCESS, Room(p, true)), ResultCmd(w.ui.work.id));
    Reach(w, s, env);
    w' := After(w, s);
  }

  lemma ReloadLands(w: World, p: Package, env: Env) returns (w': World)
    requires Reached(w, env) && Inv(w) && w.ui.mode == Working && w.ui.work.phase.Reloading?
    requires w.ui.back.load == Some(AfterOperation) && w.ui.work.batchTotal == 0
    requires w.ui.work.cancelReason == NotCancelled && !w.ui.back.trustPending
    ensures Reached(w', env) && Inv(w') && w'.ui.mode == Normal && w'.ui.back.load.None? && w'.ui.work.phase.Idle?
    ensures w'.ui.ask == w.ui.ask && !w'.ui.back.trustPending
  {
    var e := ListResult(w.ui.back.loadId, AfterOperation, true, Room(p, true));
    var s := Deliver(e, ListCmd(w.ui.back.loadId, AfterOperation));
    Reach(w, s, env);
    w' := After(w, s);
  }

  lemma ReviewOpens(w: World, r: Package, env: Env) returns (w': World)
    requires Reached(w, env) && Inv(w) && w.ui.mode == Normal && w.ui.back.load.None? && w.ui.work.phase.Idle?
    requires r.untrusted && r.fullName != "" && r.tap != ""
    ensures Reached(w', env) && Inv(w') && w'.ui.mode == Trust && w'.ui.back.trustPending
    ensures w'.ui.ask == w.ui.ask && w'.ui.work == w.ui.work
  {
    var s := Prompt(Press(Key(ReviewTrust), Room(r, true)));
    Reach(w, s, env);
    w' := After(w, s);
  }

  // A removal runs, a dialog over another row is open when it succeeds, and the
  // reload takes the window from the dialog without closing it. Later a trust review
  // opens, and a terminal that still fits the review but not the forgotten dialog
  // closes both: the review is pending, and no window shows it.
  lemma AReviewStranded(p: Package, q: Package, r: Package) returns (w: World)
    requires !Self(p) && !SameTarget(p, q) && r.untrusted && r.fullName != "" && r.tap != ""
    ensures Reached(w, Room(p, true)) && w.ui.mode == Normal && w.ui.back.trustPending && !Windows(w.ui)
  {
    var env := Room(p, true);
    w := ListLands(p);
    w := Asks(w, p, env);
    w := Confirms(w, p, env);
    w := JobRuns(w, p, env);
    w := Asks(w, q, env);
    w := JobLands(w, p, q, env);
    w := ReloadLands(w, p, env);
    w := ReviewOpens(w, r, env);
    var s := Prompt(Resize(Room(p, false)));
    Reach(w, s, env);
    w := After(w, s);
  }

  // ---- a prompt lost ----

  lemma Queues(w: World, p: Package, q: Package, env: Env) returns (w': World)
    requires Reached(w, env) && Inv(w) && w.ui.mode == Confirm && w.ui.ask == Ask(Some(q), Uninstall, [])
    requires w.ui.work.phase == Running(Entry(Uninstall, p)) && w.ui.work.queue == []
    ensures Reached(w', env) && Inv(w')
    ensures
      w'.ui == w.ui.(mode := Working, ask := w.ui.ask.(confirmation := None),
                     work := w.ui.work.(queue := [Entry(Uninstall, q)]))
  {
    var s := Prompt(Press(Key(Yes), Room(q, true)));
    Reach(w, s, env);
    w' := After(w, s);
  }

  // The job succeeds under an open dialog and the next one starts: it takes the
  // window, and the dialog's row stays set.
  lemma NextStarts(w: World, p: Package, q: Package, env: Env) returns (w': World)
    requires Reached(w, env) && Inv(w) && w.ui.mode == Confirm && w.ui.ask.batch == [] && !Self(p)
    requires w.ui.work.phase == Running(Entry(Uninstall, p)) && w.ui.work.queue == [Entry(Uninstall, q)]
    requires w.ui.work.cancelReason == NotCancelled
    ensures Reached(w', env) && Inv(w') && w'.ui.mode == Working && w'.ui.ask == w.ui.ask
    ensures w'.ui.work.phase == Starting(Entry(Uninstall, q)) && w'.ui.work.cancelReason == NotCancelled
  {
    assert Succeeded(SUCCESS);
    var s := Deliver(JobResult(w.ui.work.id, SUCCESS, Room(p, true)), ResultCmd(w.ui.work.id));
    Reach(w, s, env);
    w' := After(w, s);
  }

  lemma PromptOpens(w: World, p: Package, request: RequestId, env: Env) returns (w': World)
    requires Reached(w, env) && Inv(w) && w.ui.mode == Working && w.ui.work.phase.Running?
    requires w.ui.work.cancelReason == NotCancelled && EventCmd(w.ui.work.id) in w.flight
    ensures Reached(w', env) && Inv(w')
    ensures w'.ui == w.ui.(mode := Password, work := w.ui.work.(request := Some(request)))
  {
    var s := Deliver(JobEvent(w.ui.work.id, Some(request), true, Room(p, true)), EventCmd(w.ui.work.id));
    Reach(w, s, env);
    w' := After(w, s);
  }

  // Two removals are confirmed, and the second starts under a dialog over a third row.
  lemma NextUnderDialog(p: Package, q: Package, r: Package) returns (w: World)
    requires !Self(p) && !SameTarget(p, q) && !SameTarget(p, r) && !SameTarget(q, r)
    ensures Reached(w, Room(p, true)) && Inv(w) && w.ui.mode == Working && w.ui.ask == Ask(Some(r), Uninstall, [])
    ensures w.ui.work.phase == Starting(Entry(Uninstall, q)) && w.ui.work.cancelReason == NotCancelled
  {
    var env := Room(p, true);
    w := ListLands(p);
    w := Asks(w, p, env);
    w := Confirms(w, p, env);
    w := JobRuns(w, p, env);
    w := Asks(w, q, env);
    w := Queues(w, p, q, env);
    w := Asks(w, r, env);
    w := NextStarts(w, p, q, env);
  }

  // Two removals are confirmed, and a dialog over a third row is open when the first
  // succeeds. The second starts and asks for a password. A terminal that still fits the
  // running removal but not the forgotten dialog closes the prompt: its request is
  // neither answered nor refused.
  lemma APromptLost(p: Package, q: Package, r: Package, request: RequestId) returns (w: World, lost: World)
    requires !Self(p) && !SameTarget(p, q) && !SameTarget(p, r) && !SameTarget(q, r)
    ensures
      var shrink := Prompt(Resize(Room(p, false)));
      && Reached(w, Room(p, true)) && w.ui.mode == Password && w.ui.work.request == Some(request)
      && Enabled(w, shrink) && Timely(w.ui, shrink.event) && lost == After(w, shrink)
      && Reached(lost, Room(p, true)) && lost.ui.mode == Working && lost.ui.work.phase.Running?
      && lost.ui.work.cancelReason == NotCancelled && Asked(w, shrink) == []
  {
    var env := Room(p, true);
    w := NextUnderDialog(p, q, r);
    w := JobRuns(w, q, env);
    w := PromptOpens(w, p, request, env);
    var shrink := Prompt(Resize(Room(p, false)));
    Reach(w, shrink, env);
    lost := After(w, shrink);
  }
}
