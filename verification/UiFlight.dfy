// The commands in flight: what each message issues, and that every message of a
// run answers a command the state was waiting for.

module UiFlight {
  import opened Packages
  import opened Protocol
  import opened UiSpec
  import opened UiInvariant
  import L = LoaderSpec
  import M = Monitor

  function Cmds(out: seq<Out>): set<Cmd> {
    set i | 0 <= i < |out| && out[i].Run? :: out[i].cmd
  }

  lemma CmdsConcat(a: seq<Out>, b: seq<Out>)
    ensures Cmds(a + b) == Cmds(a) + Cmds(b)
  {
    forall c | c in Cmds(a) + Cmds(b)
      ensures c in Cmds(a + b)
    {
      if c in Cmds(a) {
        var i :| 0 <= i < |a| && a[i].Run? && a[i].cmd == c;
        assert (a + b)[i] == a[i];
      } else {
        var i :| 0 <= i < |b| && b[i].Run? && b[i].cmd == c;
        assert (a + b)[|a| + i] == b[i];
      }
    }
  }

  // The message `e` answers the command `c`.
  predicate Answers(e: Event, c: Cmd) {
    match c
    case ListCmd(id, purpose) => e.ListResult? && e.id == id && e.purpose == purpose
    case FleetCmd(id) => e.FleetResult? && e.id == id
    case InfoCmd(identity) => e.InfoResult? && e.result.identity == identity
    case SizesCmd(id) => e.SizesResult? && e.id == id
    case StartCmd(id, _) => (e.JobStarted? || e.JobStartFailed?) && e.id == id
    case EventCmd(id) => e.JobEvent? && e.id == id
    case ResultCmd(id) => e.JobResult? && e.id == id
    case DetailsCmd(id) => e.DetailsResult? && e.id == id
    case TrustCmd(id) => e.TrustResult? && e.id == id
  }

  predicate Spontaneous(e: Event) {
    e.Resize? || e.Signal? || e.Press?
  }

  // Each part of the state that waits for a message has its command in flight,
  // and nothing in flight is for a part that does not wait. Only measurements and
  // reviews may have superseded commands behind them.
  ghost predicate LoadFlight(u: Ui, f: set<Cmd>) {
    && (u.back.load.Some? ==>
          if u.back.load.value == AfterOperation && u.work.batchTotal > 0
          then FleetCmd(u.back.loadId) in f else ListCmd(u.back.loadId, u.back.load.value) in f)
    && (forall id: nat, p :: ListCmd(id, p) in f ==>
          id == u.back.loadId && u.back.load == Some(p) && (p == AfterOperation ==> u.work.batchTotal == 0))
    && (forall id: nat :: FleetCmd(id) in f ==>
          id == u.back.loadId && u.back.load == Some(AfterOperation) && u.work.batchTotal > 0)
  }

  ghost predicate InfoFlight(v: L.View, f: set<Cmd>) {
    && (v.active.Some? ==> InfoCmd(v.active.value) in f)
    && (forall i :: InfoCmd(i) in f ==> v.active == Some(i))
  }

  ghost predicate SizesFlight(b: Background, f: set<Cmd>) {
    && (b.sizesPending ==> SizesCmd(b.sizesId) in f)
    && (forall id: nat :: SizesCmd(id) in f ==> id <= b.sizesId && (id == b.sizesId ==> b.sizesPending))
  }

  ghost predicate JobFlight(w: Work, f: set<Cmd>) {
    && (w.phase.Starting? ==> StartCmd(w.id, w.phase.current.pkg) in f)
    && (w.phase.Running? ==> ResultCmd(w.id) in f)
    && (forall id: nat, p :: StartCmd(id, p) in f ==> id == w.id && w.phase.Starting? && w.phase.current.pkg == p)
    && (forall id: nat :: ResultCmd(id) in f ==> id == w.id && w.phase.Running?)
    && (forall id: nat :: EventCmd(id) in f ==> id <= w.id && (id == w.id ==> !w.phase.Starting?))
  }

  ghost predicate ReviewFlight(b: Background, f: set<Cmd>) {
    && (b.trustPending ==> DetailsCmd(b.trustId) in f || TrustCmd(b.trustId) in f)
    && (forall id: nat :: DetailsCmd(id) in f ==>
          id <= b.trustId && (id == b.trustId ==> b.trustPending && TrustCmd(id) !in f))
    && (forall id: nat :: TrustCmd(id) in f ==> id <= b.trustId && (id == b.trustId ==> b.trustPending))
  }

  ghost predicate FlightOk(u: Ui, f: set<Cmd>) {
    LoadFlight(u, f) && InfoFlight(u.info, f) && SizesFlight(u.back, f) && JobFlight(u.work, f) && ReviewFlight(u.back, f)
  }

  // Every message of a run is one its handler may be given.
  lemma MessagesAreTimely(u: Ui, f: set<Cmd>, c: Cmd, e: Event)
    requires Core(u) && FlightOk(u, f) && c in f && Answers(e, c)
    ensures Timely(u, e)
  {
  }

  // ---- the commands each small step issues ----

  lemma OneCmd(o: Out)
    ensures Cmds([o]) == if o.Run? then {o.cmd} else {}
  {
    if o.Run? {
      assert [o][0].Run?;
    }
  }

  lemma SilentCmds(out: seq<Out>)
    requires forall i :: 0 <= i < |out| ==> !out[i].Run?
    ensures Cmds(out) == {}
  {
  }

  lemma SelectCmds(u: Ui, env: Env)
    ensures
      var (u', out) := SelectInfo(u, env);
      Cmds(out) == if u'.info.active != u.info.active then {InfoCmd(u'.info.active.value)} else {}
  {
    var (u', out) := SelectInfo(u, env);
    if out != [] {
      OneCmd(out[0]);
    }
  }

  // A next state whose new commands are `added`, none of which is in flight.
  ghost predicate Flies(u: Ui, f: set<Cmd>, added: set<Cmd>) {
    FlightOk(u, f + added) && added !! f
  }

  lemma SelectFlight(u: Ui, f: set<Cmd>, env: Env)
    requires FlightOk(u, f)
    ensures var (u', out) := SelectInfo(u, env); Flies(u', f, Cmds(out))
  {
    SelectCmds(u, env);
  }

  lemma FinishQuitFlight(u: Ui, f: set<Cmd>, env: Env)
    requires FlightOk(u, f)
    ensures var (u', out) := FinishQuit(u, env); Flies(u', f, Cmds(out)) && Cmds(out) == {}
  {
    SilentCmds(FinishQuit(u, env).1);
    assert f + {} == f;
  }

  lemma BeginQuitFlight(u: Ui, f: set<Cmd>, code: int, env: Env)
    requires FlightOk(u, f)
    ensures var (u', out) := BeginQuit(u, code, env); Flies(u', f, Cmds(out)) && Cmds(out) == {}
  {
    SilentCmds(BeginQuit(u, code, env).1);
    assert f + {} == f;
  }

  lemma StartListFlight(u: Ui, f: set<Cmd>, purpose: LoadPurpose)
    requires FlightOk(u, f) && u.back.load.None? && (purpose == AfterOperation ==> u.work.batchTotal == 0)
    ensures var (u', out) := StartList(u, purpose); Flies(u', f, Cmds(out))
  {
    OneCmd(StartList(u, purpose).1[0]);
  }

  lemma StartFleetFlight(u: Ui, f: set<Cmd>)
    requires FlightOk(u, f) && u.back.load.None? && u.work.batchTotal > 0
    ensures var (u', out) := StartFleet(u); Flies(u', f, Cmds(out))
  {
    OneCmd(StartFleet(u).1[0]);
  }

  lemma InvalidateFlight(u: Ui, f: set<Cmd>)
    requires FlightOk(u, f)
    ensures var (u', out) := Invalidate(u); Flies(u', f, Cmds(out)) && u'.back.load == u.back.load
  {
    OneCmd(Invalidate(u).1[0]);
  }

  lemma StartOperationFlight(u: Ui, f: set<Cmd>, e: Entry)
    requires FlightOk(u, f) && !u.work.phase.Starting? && !u.work.phase.Running? && u.back.load.None?
    ensures var (u', out) := StartOperation(u, e); Flies(u', f, Cmds(out))
  {
    OneCmd(StartOperation(u, e).1[0]);
  }

  // Two steps in a row.
  lemma Chain(u: Ui, f: set<Cmd>, a: seq<Out>, b: seq<Out>)
    requires Flies(u, f + Cmds(a), Cmds(b)) && Cmds(a) !! f
    ensures Flies(u, f, Cmds(a + b))
  {
    CmdsConcat(a, b);
    assert f + Cmds(a) + Cmds(b) == f + (Cmds(a) + Cmds(b));
  }

  // Words around a step issue nothing.
  lemma Quietly(u: Ui, f: set<Cmd>, a: seq<Out>, b: seq<Out>)
    requires Flies(u, f, Cmds(b)) && Cmds(a) == {}
    ensures Flies(u, f, Cmds(a + b)) && Flies(u, f, Cmds(b + a))
  {
    CmdsConcat(a, b);
    CmdsConcat(b, a);
    assert {} + Cmds(b) == Cmds(b) && Cmds(b) + {} == Cmds(b);
  }

  // ---- keys and resizes ----

  lemma ConfirmationFlight(u: Ui, f: set<Cmd>, key: Keystroke, env: Env)
    requires Core(u) && FlightOk(u, f) && u.mode == Confirm
    ensures var (u', out) := UpdateConfirmation(u, key, env); Flies(u', f, Cmds(out))
  {
    var (u', out) := UpdateConfirmation(u, key, env);
    if out == [] {
      SilentCmds(out);
      assert f + {} == f;
    } else {
      OneCmd(out[0]);
      assert out == [out[0]];
    }
  }

  lemma SwitchFlight(u: Ui, f: set<Cmd>, env: Env)
    requires FlightOk(u, f) && u.back.load.None?
    ensures var (u', out) := SwitchKind(u, env); Flies(u', f, Cmds(out))
  {
    SilentCmds([]);
    assert f + {} == f;
    if !JobRunning(u.work) {
      if env.retained.Some? {
        SelectFlight(ClearInfo(u), f, env);
      } else {
        StartListFlight(ClearInfo(u), f, Switch);
      }
    }
  }

  lemma RefreshFlight(u: Ui, f: set<Cmd>)
    requires FlightOk(u, f) && u.back.load.None?
    ensures var (u', out) := RefreshAll(u); Flies(u', f, Cmds(out))
  {
    SilentCmds([]);
    assert f + {} == f;
    if !JobRunning(u.work) {
      InvalidateFlight(u, f);
      var (cleared, sizes) := Invalidate(u);
      StartListFlight(cleared, f + Cmds(sizes), Reload);
      var (u', load) := StartList(cleared, Reload);
      Chain(u', f, sizes, load);
      CmdsConcat(sizes, load);
      CmdsConcat(load, sizes);
    }
  }

  lemma StartReviewFlight(u: Ui, f: set<Cmd>, env: Env)
    requires FlightOk(u, f)
    ensures var (u', out) := StartReview(u, env); Flies(u', f, Cmds(out))
  {
    SilentCmds([]);
    assert f + {} == f;
    OneCmd(Run(DetailsCmd(u.back.trustId + 1)));
  }

  lemma UpdateTrustFlight(u: Ui, f: set<Cmd>, key: Keystroke)
    requires FlightOk(u, f)
    ensures var (u', out) := UpdateTrust(u, key); Flies(u', f, Cmds(out))
  {
    SilentCmds([]);
    assert f + {} == f;
    OneCmd(Run(TrustCmd(u.back.trustId + 1)));
  }

  lemma NormalFlight(u: Ui, f: set<Cmd>, key: Keystroke, env: Env)
    requires FlightOk(u, f) && u.back.load.None?
    ensures var (u', out) := UpdateNormal(u, key, env); Flies(u', f, Cmds(out))
  {
    SilentCmds([]);
    assert f + {} == f;
    match key.name
    case Cursor => SelectFlight(u, f, env);
    case Reorder => SelectFlight(u, f, env);
    case Tab => SwitchFlight(u, f, env);
    case ReviewTrust => StartReviewFlight(u, f, env);
    case Refresh => RefreshFlight(u, f);
    case Leave => BeginQuitFlight(u, f, 0, env);
    case UpgradeEvery => UpgradeAllFlight(u, f, env);
    case _ =>
  }

  lemma UpgradeAllFlight(u: Ui, f: set<Cmd>, env: Env)
    requires FlightOk(u, f) && u.back.load.None?
    ensures FlightOk(ConfirmUpgradeAll(u, env).0, f)
  {
  }

  lemma SearchFlight(u: Ui, f: set<Cmd>, key: Keystroke, env: Env)
    requires FlightOk(u, f) && u.back.load.None?
    ensures var (u', out) := UpdateSearch(u, key, env); Flies(u', f, Cmds(out))
  {
    SilentCmds([]);
    assert f + {} == f;
    var normal := u.(mode := Normal);
    if key.name == Tab && !env.completes {
      SwitchFlight(normal, f, env);
    } else if key.name == Esc {
      SelectFlight(normal, f, env);
    } else if key.name != Enter {
      SelectFlight(u, f, env);
    }
  }

  lemma PasswordFlight(u: Ui, f: set<Cmd>, key: Keystroke, env: Env)
    requires FlightOk(u, f)
    ensures var (u', out) := UpdatePassword(u, key, env); Flies(u', f, Cmds(out))
  {
    SilentCmds(UpdatePassword(u, key, env).1);
    assert f + {} == f;
  }

  lemma KeyFlight(u: Ui, f: set<Cmd>, key: Keystroke, env: Env)
    requires Core(u) && FlightOk(u, f)
    ensures var (u', out) := HandleKey(u, key, env); Flies(u', f, Cmds(out))
  {
    SilentCmds([]);
    assert f + {} == f;
    if key.name == CtrlC {
      BeginQuitFlight(u, f, 130, env);
    } else if env.tiny || u.mode == Quitting || u.back.load.Some? {
      BeginQuitFlight(u, f, 0, env);
    } else {
      FocusedFlight(u, f, key, env);
    }
  }

  // A key that reaches the window's own handler.
  lemma FocusedFlight(u: Ui, f: set<Cmd>, key: Keystroke, env: Env)
    requires Core(u) && FlightOk(u, f) && u.back.load.None? && key.name != CtrlC && !env.tiny && u.mode != Quitting
    ensures var (u', out) := HandleKey(u, key, env); Flies(u', f, Cmds(out))
  {
    if u.mode == Search {
      SearchFlight(u, f, key, env);
    } else if u.mode == Confirm {
      ConfirmationFlight(u, f, key, env);
    } else if u.mode == Password {
      PasswordFlight(u, f, key, env);
    } else if u.mode == Trust {
      UpdateTrustFlight(u, f, key);
    } else {
      NormalFlight(u, f, key, env);
    }
  }

  lemma CloseDialogsFlight(u: Ui, f: set<Cmd>, env: Env)
    requires Core(u) && FlightOk(u, f)
    ensures FlightOk(CloseDialogs(u, env), f)
  {
  }

  lemma CancelFlight(u: Ui, f: set<Cmd>)
    requires FlightOk(u, f)
    ensures FlightOk(CancelSqueezed(u).0, f) && FlightOk(CancelTrust(u), f)
  {
  }

  lemma ResizeFlight(u: Ui, f: set<Cmd>, env: Env)
    requires Core(u) && FlightOk(u, f)
    ensures var (u', out) := HandleResize(u, env); Flies(u', f, Cmds(out))
  {
    SilentCmds(HandleResize(u, env).1);
    assert f + {} == f;
    CloseDialogsFlight(u, f, env);
    CancelFlight(CloseDialogs(u, env), f);
  }

  // ---- messages ----

  lemma StartedCmds(u: Ui, id: nat)
    requires id == u.work.id && u.work.phase.Starting?
    ensures
      Cmds(HandleJobStarted(u, id).1)
      == (if u.mode == Quitting then {} else {EventCmd(id)}) + {ResultCmd(id)}
  {
    var stop := if u.work.cancelReason != NotCancelled || u.mode == Quitting then [CancelJob] else [];
    var watch := if u.mode == Quitting then [] else [Run(EventCmd(id))];
    SilentCmds(stop);
    SilentCmds([]);
    OneCmd(Run(EventCmd(id)));
    OneCmd(Run(ResultCmd(id)));
    CmdsConcat(stop, watch);
    CmdsConcat(stop + watch, [Run(ResultCmd(id))]);
  }

  lemma JobStartedFlight(u: Ui, f: set<Cmd>, id: nat, p: Package)
    requires Core(u) && FlightOk(u, f) && StartCmd(id, p) in f
    ensures var (u', out) := HandleJobStarted(u, id); Flies(u', f - {StartCmd(id, p)}, Cmds(out))
  {
    StartedCmds(u, id);
    JobStartedState(u, f, id, p);
  }

  lemma JobStartedState(u: Ui, f: set<Cmd>, id: nat, p: Package)
    requires FlightOk(u, f) && StartCmd(id, p) in f
    ensures
      var added := (if u.mode == Quitting then {} else {EventCmd(id)}) + {ResultCmd(id)};
      Flies(HandleJobStarted(u, id).0, f - {StartCmd(id, p)}, added)
  {
  }

  lemma JobStartFailedFlight(u: Ui, f: set<Cmd>, id: nat, p: Package, env: Env)
    requires Core(u) && FlightOk(u, f) && StartCmd(id, p) in f
    ensures var (u', out) := HandleJobStartFailed(u, id, env); Flies(u', f - {StartCmd(id, p)}, Cmds(out))
  {
    var g := f - {StartCmd(id, p)};
    var (u', out) := HandleJobStartFailed(u, id, env);
    SilentCmds(out);
    assert g + {} == g;
  }

  lemma EventCmds(u: Ui, id: nat, request: Option<RequestId>, open: bool)
    ensures
      var out := HandleJobEvent(u, id, request, open).1;
      Cmds(out) == if out == [] then {} else {EventCmd(id)}
  {
    SilentCmds([]);
    SilentCmds([CancelJob]);
    OneCmd(Run(EventCmd(id)));
    CmdsConcat([CancelJob], [Run(EventCmd(id))]);
    assert [CancelJob, Run(EventCmd(id))] == [CancelJob] + [Run(EventCmd(id))];
  }

  lemma JobEventFlight(u: Ui, f: set<Cmd>, id: nat, request: Option<RequestId>, open: bool)
    requires Core(u) && FlightOk(u, f) && EventCmd(id) in f
    ensures var (u', out) := HandleJobEvent(u, id, request, open); Flies(u', f - {EventCmd(id)}, Cmds(out))
  {
    EventCmds(u, id, request, open);
    JobEventState(u, f, id, request, open);
  }

  lemma JobEventState(u: Ui, f: set<Cmd>, id: nat, request: Option<RequestId>, open: bool)
    requires FlightOk(u, f) && EventCmd(id) in f
    ensures
      var (u', out) := HandleJobEvent(u, id, request, open);
      Flies(u', f - {EventCmd(id)}, if out == [] then {} else {EventCmd(id)})
  {
    var g := f - {EventCmd(id)};
    assert g + {} == g;
  }

  lemma FinishOperationFlight(u: Ui, f: set<Cmd>, why: Ending)
    requires FlightOk(u, f) && u.back.load.None? && !u.work.phase.Starting? && !u.work.phase.Running?
    ensures var (u', out) := FinishOperation(u, why); Flies(u', f, Cmds(out)) && Cmds(out) == {}
  {
    SilentCmds(FinishOperation(u, why).1);
    assert f + {} == f;
  }

  lemma AbortFlight(u: Ui, f: set<Cmd>, env: Env)
    requires FlightOk(u, f) && u.back.load.None? && u.work.phase.Halted?
    ensures var (u', out) := AbortRun(u, env); Flies(u', f, Cmds(out))
  {
    var cut := ClearBatch(u.(work := u.work.(queue := [])));
    var said := [Say(EndReport(u.work, CleanupFailed))];
    SilentCmds(said);
    BeginQuitFlight(cut, f, 1, env);
    var (u', out) := BeginQuit(cut, 1, env);
    Quietly(u', f, said, out);
  }

  lemma ReloadFlight(u: Ui, f: set<Cmd>)
    requires FlightOk(u, f) && u.back.load.None? && u.work.phase.Halted?
    ensures var (u', out) := ReloadAfter(u); Flies(u', f, Cmds(out))
  {
    var reloading := u.(mode := Working, work := u.work.(phase := Reloading(u.work.phase.current)));
    InvalidateFlight(reloading, f);
    var (cleared, sizes) := Invalidate(reloading);
    var g := f + Cmds(sizes);
    if u.work.batchTotal > 0 {
      StartFleetFlight(cleared, g);
      Chain(StartFleet(cleared).0, f, sizes, StartFleet(cleared).1);
    } else {
      StartListFlight(cleared, g, AfterOperation);
      Chain(StartList(cleared, AfterOperation).0, f, sizes, StartList(cleared, AfterOperation).1);
    }
  }

  lemma AdvanceFlight(u: Ui, f: set<Cmd>, env: Env)
    requires FlightOk(u, f) && u.back.load.None? && u.work.phase.Halted?
    ensures var (u', out) := Advance(u, env); Flies(u', f, Cmds(out))
  {
    var counted :=
      u.(work := u.work.(batchCompleted := u.work.batchCompleted + if u.work.batchTotal > 0 then 1 else 0));
    assert FlightOk(counted, f);
    if u.work.phase.current.verb == Uninstall && Self(u.work.phase.current.pkg) {
      BeginQuitFlight(counted, f, 0, env);
      assert Advance(u, env) == BeginQuit(counted, 0, env);
    } else if u.work.queue == [] {
      ReloadFlight(counted, f);
      assert Advance(u, env) == ReloadAfter(counted);
    } else if env.fits {
      var popped := counted.(work := counted.work.(queue := u.work.queue[1..]));
      StartOperationFlight(popped, f, u.work.queue[0]);
      assert Advance(u, env) == StartOperation(popped, u.work.queue[0]);
    } else {
      FinishOperationFlight(counted, f, TooSmall);
      assert Advance(u, env) == FinishOperation(counted, TooSmall);
    }
  }

  lemma SettleFlight(u: Ui, f: set<Cmd>, r: M.Result, env: Env)
    requires Core(u) && u.work.phase.Running? && FlightOk(JobOver(u), f)
    ensures var (u', out) := SettleJob(u, r, env); Flies(u', f, Cmds(out))
  {
    var halted := JobOver(u);
    if u.mode == Quitting {
      FinishQuitFlight(halted, f, env);
    } else if r.cleanupErr {
      AbortFlight(halted, f, env);
    } else if !Succeeded(r) {
      FinishOperationFlight(halted, f, EndingOf(r, u.work.cancelReason));
    } else {
      AdvanceFlight(halted, f, env);
    }
  }

  lemma JobResultFlight(u: Ui, f: set<Cmd>, id: nat, r: M.Result, env: Env)
    requires Core(u) && FlightOk(u, f) && ResultCmd(id) in f
    ensures var (u', out) := HandleJobResult(u, id, r, env); Flies(u', f - {ResultCmd(id)}, Cmds(out))
  {
    var g := f - {ResultCmd(id)};
    assert FlightOk(JobOver(u), g);
    SettleFlight(u, g, r, env);
    SilentCmds(Release(u.work));
    var (u', out) := SettleJob(u, r, env);
    Quietly(u', g, Release(u.work), out);
  }

  lemma SqueezedFlight(u: Ui, f: set<Cmd>, env: Env)
    requires FlightOk(u, f) && u.back.load.None? && !u.work.phase.Starting? && !u.work.phase.Running?
    ensures var (u', out) := EndSqueezed(u, env); Flies(u', f, Cmds(out))
  {
    FinishOperationFlight(u, f, TooSmall);
    var (ended, said) := FinishOperation(u, TooSmall);
    assert f + {} == f;
    SelectFlight(ended, f, env);
    Quietly(SelectInfo(ended, env).0, f, said, SelectInfo(ended, env).1);
  }

  lemma LandedFlight(u: Ui, f: set<Cmd>, said: Report, env: Env)
    requires FlightOk(u, f)
    ensures var (u', out) := SelectInfo(u, env); Flies(u', f, Cmds([Say(said)] + out))
  {
    SilentCmds([Say(said)]);
    SelectFlight(u, f, env);
    Quietly(SelectInfo(u, env).0, f, [Say(said)], SelectInfo(u, env).1);
  }

  lemma ListResultFlight(u: Ui, f: set<Cmd>, id: nat, purpose: LoadPurpose, ok: bool, env: Env)
    requires Core(u) && FlightOk(u, f) && ListCmd(id, purpose) in f
    ensures
      var (u', out) := HandleListResult(u, id, purpose, ok, env);
      Flies(u', f - {ListCmd(id, purpose)}, Cmds(out))
  {
    var g := f - {ListCmd(id, purpose)};
    assert g + {} == g;
    SilentCmds([]);
    var loaded := LoadOver(u);
    assert FlightOk(loaded, g);
    if u.mode == Quitting {
      FinishQuitFlight(loaded, g, env);
    } else if purpose == AfterOperation && u.work.cancelReason == ByTerminal {
      SqueezedFlight(loaded, g, env);
    } else if !ok {
      if purpose == AfterOperation {
        FinishOperationFlight(ClearInfo(loaded), g, LoadFailed);
      }
    } else if purpose == AfterOperation {
      LandedFlight(Finished(loaded), g, Done(u.work.phase.current), env);
    } else {
      SelectFlight(loaded.(mode := Normal), g, env);
    }
  }

  lemma FleetResultFlight(u: Ui, f: set<Cmd>, id: nat, ok: bool, env: Env)
    requires Core(u) && FlightOk(u, f) && FleetCmd(id) in f
    ensures var (u', out) := HandleFleetResult(u, id, ok, env); Flies(u', f - {FleetCmd(id)}, Cmds(out))
  {
    var g := f - {FleetCmd(id)};
    var loaded := LoadOver(u);
    assert FlightOk(loaded, g);
    if u.mode == Quitting {
      FinishQuitFlight(loaded, g, env);
    } else if u.work.cancelReason == ByTerminal {
      SqueezedFlight(loaded, g, env);
    } else if !ok {
      FinishOperationFlight(ClearInfo(loaded), g, LoadFailed);
    } else {
      LandedFlight(Finished(ClearBatch(loaded)), g, UpgradedAll(u.work.batchTotal), env);
    }
  }

  lemma InfoResultFlight(u: Ui, f: set<Cmd>, r: L.Result, env: Env)
    requires Core(u) && FlightOk(u, f) && InfoCmd(r.identity) in f
    ensures var (u', out) := HandleInfoResult(u, r, env); Flies(u', f - {InfoCmd(r.identity)}, Cmds(out))
  {
    var g := f - {InfoCmd(r.identity)};
    assert g + {} == g;
    SilentCmds([]);
    var (v, t) := L.Complete(u.info, r);
    assert u.info.active == Some(r.identity);
    if u.mode == Quitting {
      FinishQuitFlight(u.(info := v), g, env);
    } else if t.Some? {
      OneCmd(Run(InfoCmd(t.value.identity)));
    }
  }

  lemma SizesResultFlight(u: Ui, f: set<Cmd>, id: nat, ok: bool, env: Env)
    requires FlightOk(u, f) && SizesCmd(id) in f
    ensures var (u', out) := HandleSizesResult(u, id, ok, env); Flies(u', f - {SizesCmd(id)}, Cmds(out))
  {
    var g := f - {SizesCmd(id)};
    assert g + {} == g;
    SilentCmds([]);
    if id == u.back.sizesId {
      var measured := u.(back := u.back.(sizesPending := false));
      assert FlightOk(measured, g);
      FinishQuitFlight(measured, g, env);
      SelectFlight(measured, g, env);
    }
  }

  lemma DetailsResultFlight(u: Ui, f: set<Cmd>, id: nat, ok: bool, env: Env)
    requires Core(u) && FlightOk(u, f) && DetailsCmd(id) in f
    ensures var (u', out) := HandleDetailsResult(u, id, ok, env); Flies(u', f - {DetailsCmd(id)}, Cmds(out))
  {
    var g := f - {DetailsCmd(id)};
    assert g + {} == g;
    SilentCmds([]);
    if id == u.back.trustId {
      var answered := u.(back := u.back.(trustPending := false));
      assert FlightOk(answered, g);
      if u.mode == Quitting {
        FinishQuitFlight(answered, g, env);
      } else {
        ShowDetailsFlight(answered, g, ok, env);
      }
    }
  }

  lemma ShowDetailsFlight(u: Ui, f: set<Cmd>, ok: bool, env: Env)
    requires FlightOk(u, f)
    ensures FlightOk(ShowDetails(u, ok, env), f)
  {
  }

  lemma TrustResultFlight(u: Ui, f: set<Cmd>, id: nat, ok: bool, env: Env)
    requires FlightOk(u, f) && TrustCmd(id) in f
    ensures var (u', out) := HandleTrustResult(u, id, ok, env); Flies(u', f - {TrustCmd(id)}, Cmds(out))
  {
    var g := f - {TrustCmd(id)};
    assert g + {} == g;
    SilentCmds([]);
    if id == u.back.trustId {
      var answered := u.(back := u.back.(trustPending := false));
      assert FlightOk(answered, g);
      FinishQuitFlight(answered, g, env);
      if u.mode != Quitting && ok && answered.back.trustPackage.Some? {
        var trusted := answered.(mode := Normal, info := L.Refresh(answered.info, None).0,
          back := answered.back.(trustPackage := None, trustDetails := false, trustFailed := false));
        SelectFlight(trusted, g, env);
      }
    }
  }

  lemma DeliveryFlight(u: Ui, f: set<Cmd>, c: Cmd, e: Event)
    requires Core(u) && FlightOk(u, f) && c in f && Answers(e, c)
    ensures Timely(u, e) && Flies(Update(u, e).0, f - {c}, Cmds(Update(u, e).1))
  {
    MessagesAreTimely(u, f, c, e);
    if c.StartCmd? || c.EventCmd? || c.ResultCmd? {
      JobDelivery(u, f, c, e);
    } else {
      OtherDelivery(u, f, c, e);
    }
  }

  lemma JobDelivery(u: Ui, f: set<Cmd>, c: Cmd, e: Event)
    requires Core(u) && FlightOk(u, f) && c in f && Answers(e, c) && Timely(u, e)
    requires c.StartCmd? || c.EventCmd? || c.ResultCmd?
    ensures Flies(Update(u, e).0, f - {c}, Cmds(Update(u, e).1))
  {
    match e
    case JobStarted(id, _) => JobStartedFlight(u, f, id, c.pkg);
    case JobStartFailed(id, env) => JobStartFailedFlight(u, f, id, c.pkg, env);
    case JobEvent(id, request, open, _) => JobEventFlight(u, f, id, request, open);
    case JobResult(id, r, env) => JobResultFlight(u, f, id, r, env);
  }

  lemma OtherDelivery(u: Ui, f: set<Cmd>, c: Cmd, e: Event)
    requires Core(u) && FlightOk(u, f) && c in f && Answers(e, c) && Timely(u, e)
    requires !c.StartCmd? && !c.EventCmd? && !c.ResultCmd?
    ensures Flies(Update(u, e).0, f - {c}, Cmds(Update(u, e).1))
  {
    match e
    case InfoResult(r, env) => InfoResultFlight(u, f, r, env);
    case ListResult(id, purpose, ok, env) => ListResultFlight(u, f, id, purpose, ok, env);
    case FleetResult(id, ok, env) => FleetResultFlight(u, f, id, ok, env);
    case SizesResult(id, ok, env) => SizesResultFlight(u, f, id, ok, env);
    case DetailsResult(id, ok, env) => DetailsResultFlight(u, f, id, ok, env);
    case TrustResult(id, ok, env) => TrustResultFlight(u, f, id, ok, env);
  }

  lemma SpontaneousFlight(u: Ui, f: set<Cmd>, e: Event)
    requires Core(u) && FlightOk(u, f) && Spontaneous(e)
    ensures Timely(u, e) && Flies(Update(u, e).0, f, Cmds(Update(u, e).1))
  {
    SilentCmds([]);
    assert f + {} == f;
    match e
    case Resize(env) => ResizeFlight(u, f, env);
    case Signal(code, env) => BeginQuitFlight(u, f, code, env);
    case Press(key, env) => KeyFlight(u, f, key, env);
  }

  lemma LoadedFlight(purpose: LoadPurpose)
    requires purpose != AfterOperation
    ensures
      var (u, out) := StartList(FRESH, purpose);
      Core(u) && Windows(u) && Flies(u, {}, Cmds(out))
  {
    assert FlightOk(FRESH, {});
    StartListFlight(FRESH, {}, purpose);
  }

  lemma MeasuredFlight(u: Ui, f: set<Cmd>)
    requires FlightOk(u, f) && !u.back.sizesPending
    ensures
      var id := u.back.sizesId + 1;
      Flies(u.(back := u.back.(sizesPending := true, sizesId := id)), f, Cmds([Run(SizesCmd(id))]))
  {
    OneCmd(Run(SizesCmd(u.back.sizesId + 1)));
  }

  lemma InitFlight(env: Env)
    ensures var (u, out) := Init(env); Core(u) && Windows(u) && Flies(u, {}, Cmds(out))
  {
    var purpose := if env.retained.Some? then Reload else Startup;
    var (listed, load) := StartList(FRESH, purpose);
    LoadedFlight(purpose);
    MeasuredFlight(listed, {} + Cmds(load));
    var id := listed.back.sizesId + 1;
    var sized := listed.(back := listed.back.(sizesPending := true, sizesId := id));
    var out := load + [Run(SizesCmd(id))];
    Chain(sized, {}, load, [Run(SizesCmd(id))]);
    if env.retained.Some? {
      SelectFlight(sized, {} + Cmds(out), env);
      Chain(SelectInfo(sized, env).0, {}, out, SelectInfo(sized, env).1);
    } else {
      assert out + [] == out;
    }
  }
}
