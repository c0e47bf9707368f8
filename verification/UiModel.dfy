// The UI's model object (internal/ui/model.go), updated in place.
//
// Its fields are the program's flags and values, grouped by what they belong to.
// `Value` reads the machine of UiSpec.dfy off them, and every handler is proved
// to step that machine.

module UiModel {
  import opened Packages
  import opened Protocol
  import opened UiSpec
  import L = LoaderSpec
  import M = Monitor
  import Loader

  // The one operation slot.
  datatype Slot = Slot(
    operation: Option<Package>,
    verb: Operation,
    queue: seq<Entry>,
    batchTotal: nat,
    batchCompleted: nat,
    startPending: bool,
    job: bool,
    jobPending: bool,
    passwordRequest: Option<RequestId>,
    cancelReason: CancelReason,
    operationCancel: bool,
    operationId: nat)

  datatype Loads = Loads(loading: bool, purpose: LoadPurpose, loadId: nat, sizesPending: bool, sizesId: nat)

  datatype Review = Review(pkg: Option<Package>, details: bool, failed: bool, pending: bool, id: nat)

  function PhaseOf(s: Slot, l: Loads): Phase {
    if s.operation.None? then Idle
    else
      var e := Entry(s.verb, s.operation.value);
      if s.startPending then Starting(e)
      else if s.jobPending then Running(e)
      else if l.loading && l.purpose == AfterOperation then Reloading(e)
      else Halted(e)
  }

  function WorkOf(s: Slot, l: Loads): Work {
    Work(PhaseOf(s, l), s.queue, s.batchTotal, s.batchCompleted, s.cancelReason, s.passwordRequest,
         s.operationCancel, s.operationId)
  }

  function BackOf(l: Loads, r: Review): Background {
    Background(if l.loading then Some(l.purpose) else None, l.loadId, l.sizesPending, l.sizesId,
               r.pkg, r.details, r.failed, r.pending, r.id)
  }

  // Single flight: a start and a job never overlap, neither overlaps a load, each
  // belongs to a held snapshot, and the job handle is set exactly while its
  // result is awaited.
  predicate SingleFlight(s: Slot, l: Loads) {
    && !(s.startPending && s.jobPending)
    && (s.startPending || s.jobPending ==> s.operation.Some? && !l.loading)
    && s.job == s.jobPending
  }

  const NO_SLOT := Slot(None, Uninstall, [], 0, 0, false, false, false, None, NotCancelled, false, 0)

  // Taking one more row into the batch.
  lemma {:induction false} BatchAppend(packages: seq<Package>, p: Package)
    ensures Batch(packages + [p]) == Batch(packages) + if Upgradable(p) && !Self(p) then [p] else []
  {
    var more := packages + [p];
    if packages == [] {
      assert more[1..] == [];
    } else {
      BatchAppend(packages[1..], p);
      assert more[1..] == packages[1..] + [p] && more[0] == packages[0];
    }
  }

  class Model {
    const info: Loader.Loader
    var mode: Mode
    var slot: Slot
    var ask: Ask
    var loads: Loads
    var review: Review
    var infoPending: bool
    var quitExitCode: int

    ghost function Value(): Ui
      reads this, info
    {
      Ui(mode, WorkOf(slot, loads), ask, BackOf(loads, review), info.Value(), quitExitCode)
    }

    ghost predicate Valid()
      reads this, info
    {
      info.Valid() && infoPending == info.active.Some? && SingleFlight(slot, loads)
    }

    constructor (loader: Loader.Loader)
      requires loader.Valid() && loader.Value() == L.INITIAL
      ensures info == loader && Valid() && Value() == UiSpec.FRESH
    {
      info := loader;
      mode, slot, ask := Normal, NO_SLOT, Ask(None, Uninstall, []);
      loads := Loads(false, Startup, 0, false, 0);
      review := Review(None, false, false, false, 0);
      infoPending, quitExitCode := false, 0;
    }

    // ---- small steps ----

    method FinishQuit(env: Env) returns (out: seq<Out>)
      requires Valid()
      modifies this`quitExitCode
      ensures Valid() && (Value(), out) == UiSpec.FinishQuit(old(Value()), env)
    {
      if mode != Quitting || loads.loading || infoPending || loads.sizesPending
         || slot.startPending || slot.jobPending || review.pending {
        return [];
      }
      if env.cleanupFailed {
        quitExitCode := 1;
      }
      out := [Quit(quitExitCode == 130)];
    }

    // The part of beginQuit that runs once: the open prompt is refused, the mode
    // changes, and everything in flight is told to stop.
    method EnterQuit(code: int) returns (first: seq<Out>)
      requires Valid() && mode != Quitting
      modifies this`slot, this`quitExitCode, this`mode, info
      ensures Valid() && (Value(), first) == UiSpec.EnterQuit(old(Value()), code)
    {
      first := [];
      if mode == Password {
        if slot.job {
          first := [RefusePassword(slot.passwordRequest)];
        }
        slot := slot.(passwordRequest := None);
      }
      quitExitCode := code;
      mode := Quitting;
      info.Cancel();
      first := first + [CancelEverything];
    }

    method BeginQuit(code: int, env: Env) returns (out: seq<Out>)
      requires Valid()
      modifies this`slot, this`quitExitCode, this`mode, info
      ensures Valid() && (Value(), out) == UiSpec.BeginQuit(old(Value()), code, env)
    {
      if mode == Quitting {
        if code != 0 {
          quitExitCode := code;
        }
        out := FinishQuit(env);
        return;
      }
      var first := EnterQuit(code);
      out := FinishQuit(env);
      out := first + out;
    }

    method SelectInfo(env: Env) returns (out: seq<Out>)
      requires Valid()
      modifies this`infoPending, info
      ensures Valid() && (Value(), out) == UiSpec.SelectInfo(old(Value()), env)
    {
      var cmd := info.Select(env.selected);
      if cmd.Some? {
        infoPending := true;
      }
      out := Issued(cmd);
    }

    method ClearSelection()
      requires Valid()
      modifies info
      ensures Valid() && Value() == ClearInfo(old(Value()))
    {
      var cmd := info.Select(None);
    }

    method StartList(purpose: LoadPurpose) returns (out: seq<Out>)
      modifies this`loads
      ensures loads == old(loads).(loading := true, purpose := purpose, loadId := old(loads).loadId + 1)
      ensures out == [Run(ListCmd(loads.loadId, purpose))]
    {
      loads := loads.(loading := true, purpose := purpose, loadId := loads.loadId + 1);
      out := [Run(ListCmd(loads.loadId, purpose))];
    }

    method StartFleetReload() returns (out: seq<Out>)
      modifies this`loads
      ensures loads == old(loads).(loading := true, purpose := AfterOperation, loadId := old(loads).loadId + 1)
      ensures out == [Run(FleetCmd(loads.loadId))]
    {
      loads := loads.(loading := true, purpose := AfterOperation, loadId := loads.loadId + 1);
      out := [Run(FleetCmd(loads.loadId))];
    }

    method StartSizes() returns (out: seq<Out>)
      modifies this`loads
      ensures loads == old(loads).(sizesPending := true, sizesId := old(loads).sizesId + 1)
      ensures out == [Run(SizesCmd(loads.sizesId))]
    {
      loads := loads.(sizesPending := true, sizesId := loads.sizesId + 1);
      out := [Run(SizesCmd(loads.sizesId))];
    }

    method InvalidateCaches() returns (out: seq<Out>)
      requires Valid()
      modifies this`loads, info
      ensures Valid() && (Value(), out) == Invalidate(old(Value()))
      ensures loads == old(loads).(sizesPending := true, sizesId := old(loads).sizesId + 1)
    {
      var cmd := info.Refresh(None);
      out := StartSizes();
    }

    // The program's startUninstall, which starts either verb. The verb is already
    // in place.
    method StartOperation(snapshot: Package) returns (out: seq<Out>)
      requires Valid() && !slot.startPending && !slot.jobPending && !loads.loading
      modifies this`mode, this`slot
      ensures Valid()
      ensures (Value(), out) == UiSpec.StartOperation(old(Value()), Entry(slot.verb, snapshot))
      ensures slot.verb == old(slot).verb
    {
      mode := Working;
      slot := slot.(operation := Some(snapshot), operationId := slot.operationId + 1, cancelReason := NotCancelled,
                    operationCancel := true, startPending := true);
      out := [Run(StartCmd(slot.operationId, snapshot))];
    }

    // The start command runs later, on its own goroutine, and reads the verb only
    // then; it is still the verb its snapshot was confirmed with.
    method RunStart() returns (op: Operation)
      requires Valid() && Value().work.phase.Starting?
      ensures op == Value().work.phase.current.verb
    {
      op := slot.verb;
    }

    method ClearBatch()
      modifies this`ask, this`slot
      ensures ask == old(ask).(batch := []) && slot == old(slot).(batchTotal := 0, batchCompleted := 0)
    {
      ask := ask.(batch := []);
      slot := slot.(batchTotal := 0, batchCompleted := 0);
    }

    method DropQueue() returns (dropped: nat)
      modifies this`slot
      ensures dropped == |old(slot).queue| && slot == old(slot).(queue := [])
    {
      dropped := |slot.queue|;
      slot := slot.(queue := []);
    }

    method FinishOperation(why: Ending) returns (out: seq<Out>)
      requires Valid() && !slot.startPending && !slot.jobPending
      modifies this`slot, this`mode, this`ask
      ensures Valid() && (Value(), out) == UiSpec.FinishOperation(old(Value()), why)
    {
      var dropped := DropQueue();
      mode := Normal;
      out := [Say(Ended(why, slot.batchCompleted, slot.batchTotal, dropped))];
      ClearBatch();
      slot := slot.(operation := None, cancelReason := NotCancelled);
    }

    // ---- confirmation ----

    method PendingOperation(op: Operation, pkg: Package) returns (pending: bool)
      ensures pending <==> UiSpec.PendingOperation(WorkOf(slot, loads), op, pkg)
    {
      if slot.operation.Some? && slot.verb == op && SameTarget(slot.operation.value, pkg) {
        return true;
      }
      for i := 0 to |slot.queue|
        invariant forall j :: 0 <= j < i ==> !(slot.queue[j].verb == op && SameTarget(slot.queue[j].pkg, pkg))
      {
        if slot.queue[i].verb == op && SameTarget(slot.queue[i].pkg, pkg) {
          return true;
        }
      }
      pending := false;
    }

    method ConfirmOperation(op: Operation, env: Env)
      requires Valid()
      modifies this`mode, this`ask
      ensures Valid() && (Value(), []) == UiSpec.ConfirmOperation(old(Value()), op, env)
    {
      if slot.batchTotal > 0 || env.selected.None? {
        return;
      }
      var chosen := env.selected.value;
      if op.Upgrade? && (chosen.pinned || !chosen.outdated) {
        return;
      }
      var pending := PendingOperation(op, chosen);
      if pending || !env.fits {
        return;
      }
      ask := Ask(Some(chosen), op, []);
      mode := Confirm;
    }

    method ConfirmUpgradeAll(env: Env)
      requires Valid()
      modifies this`mode, this`ask, this`slot
      ensures Valid() && (Value(), []) == UiSpec.ConfirmUpgradeAll(old(Value()), env)
    {
      if slot.operation.Some? {
        return;
      }
      var packages := env.retained.GetOr([]);
      var batch := [];
      for i := 0 to |packages|
        modifies {}
        invariant batch == Batch(packages[..i])
      {
        var pkg := packages[i];
        BatchAppend(packages[..i], pkg);
        assert packages[..i] + [pkg] == packages[..i + 1];
        if pkg.latestVersion == "" || pkg.latestVersion == pkg.version || pkg.pinned || pkg.untrusted {
          continue;
        }
        if Self(pkg) {
          continue;
        }
        batch := batch + [pkg];
      }
      assert packages[..|packages|] == packages;
      if |batch| == 0 {
        return;
      }
      ask := Ask(None, Upgrade, batch);
      if !env.batchFits {
        ClearBatch();
        return;
      }
      mode := Confirm;
    }

    method UpdateConfirmation(key: Keystroke, env: Env) returns (out: seq<Out>)
      requires Valid() && !loads.loading
      requires ask.batch != [] ==> slot.operation.None?
      modifies this`mode, this`ask, this`slot
      ensures Valid() && (Value(), out) == UiSpec.UpdateConfirmation(old(Value()), key, env)
    {
      var snapshot := ask.confirmation;
      ask := ask.(confirmation := None);
      var batch := ask.batch;
      var resume := if slot.operation.Some? then Working else Normal;
      out := [];
      if |batch| > 0 {
        out := AnswerBatch(key, env, batch, resume);
        return;
      }
      if key.name != Yes || snapshot.None? || !env.fits {
        mode := resume;
        return;
      }
      out := StartOrQueue(ask.verb, snapshot.value);
    }

    method StartOrQueue(verb: Operation, snapshot: Package) returns (out: seq<Out>)
      requires Valid() && !loads.loading
      modifies this`mode, this`slot
      ensures Valid() && (Value(), out) == UiSpec.StartOrQueue(old(Value()), Entry(verb, snapshot))
    {
      if slot.operation.Some? {
        slot := slot.(queue := slot.queue + [Entry(verb, snapshot)]);
        mode := Working;
        return [];
      }
      slot := slot.(verb := verb);
      out := StartOperation(snapshot);
    }

    method AnswerBatch(key: Keystroke, env: Env, batch: seq<Package>, resume: Mode) returns (out: seq<Out>)
      requires Valid() && !loads.loading && slot.operation.None? && |batch| > 0
      requires batch == ask.batch && resume == Resume(Value().work)
      modifies this`mode, this`ask, this`slot
      ensures Valid() && (Value(), out) == UiSpec.AnswerBatch(old(Value()), key, env)
    {
      if key.name != Yes || !env.batchFits {
        ClearBatch();
        mode := resume;
        return [];
      }
      out := StartBatch(batch);
    }

    method StartBatch(batch: seq<Package>) returns (out: seq<Out>)
      requires Valid() && !loads.loading && slot.operation.None? && |batch| > 0
      modifies this`mode, this`ask, this`slot
      ensures Valid() && (Value(), out) == UiSpec.StartBatch(old(Value()), batch)
    {
      ask := ask.(batch := []);
      var queue := QueueBehind(batch);
      slot := slot.(batchTotal := |batch|, batchCompleted := 0, verb := Upgrade, queue := queue);
      out := StartOperation(batch[0]);
    }

    // The entries behind the first one of a batch.
    method QueueBehind(batch: seq<Package>) returns (queue: seq<Entry>)
      requires |batch| > 0
      ensures queue == Entries(batch)[1..] && Entries(batch)[0] == Entry(Upgrade, batch[0])
    {
      queue := [];
      for i := 1 to |batch|
        invariant queue == Entries(batch)[1..i]
      {
        assert Entries(batch)[1..i + 1] == Entries(batch)[1..i] + [Entries(batch)[i]];
        queue := queue + [Entry(Upgrade, batch[i])];
      }
    }

    // ---- the job ----

    method HandleJobStarted(id: nat) returns (out: seq<Out>)
      requires Valid() && (id == slot.operationId ==> slot.startPending)
      modifies this`slot
      ensures Valid() && (Value(), out) == UiSpec.HandleJobStarted(old(Value()), id)
    {
      if id != slot.operationId {
        return [CancelJob];
      }
      slot := slot.(startPending := false, jobPending := true, job := true);
      out := [];
      if slot.cancelReason != NotCancelled || mode == Quitting {
        out := [CancelJob];
      }
      var watch := if mode == Quitting then [] else [Run(EventCmd(id))];
      out := out + watch + [Run(ResultCmd(id))];
    }

    method HandleJobStartFailed(id: nat, env: Env) returns (out: seq<Out>)
      requires Valid() && (id == slot.operationId ==> slot.startPending)
      modifies this`mode, this`ask, this`slot, this`quitExitCode
      ensures Valid() && (Value(), out) == UiSpec.HandleJobStartFailed(old(Value()), id, env)
    {
      if id != slot.operationId {
        return [];
      }
      slot := slot.(startPending := false);
      if mode == Quitting {
        out := FinishQuit(env);
        return;
      }
      out := if slot.operationCancel then [CancelStart] else [];
      slot := slot.(operation := None, operationCancel := false);
      mode := Normal;
      var dropped := DropQueue();
      var why := if slot.cancelReason == ByTerminal then TooSmall else StartFailed;
      out := out + [Say(Ended(why, slot.batchCompleted, slot.batchTotal, dropped))];
      ClearBatch();
    }

    method HandleJobEvent(id: nat, request: Option<RequestId>, open: bool) returns (out: seq<Out>)
      requires Valid()
      modifies this`mode, this`ask, this`slot
      ensures Valid() && (Value(), out) == UiSpec.HandleJobEvent(old(Value()), id, request, open)
    {
      if id != slot.operationId || mode == Quitting {
        return [];
      }
      if !slot.job {
        return [];
      }
      if !open {
        return [];
      }
      if request.None? || (mode != Working && mode != Confirm) || slot.cancelReason != NotCancelled {
        if mode == Password {
          slot := slot.(passwordRequest := None, cancelReason := ByAuthentication);
          mode := Working;
        }
        return [CancelJob, Run(EventCmd(id))];
      }
      if mode == Confirm {
        ask := ask.(confirmation := None);
      }
      slot := slot.(passwordRequest := request);
      mode := Password;
      out := [Run(EventCmd(id))];
    }

    method HandleJobResult(id: nat, result: M.Result, env: Env) returns (out: seq<Out>)
      requires Valid() && (id == slot.operationId ==> slot.jobPending)
      modifies this`mode, this`ask, this`slot, this`loads, this`quitExitCode, info
      ensures Valid() && (Value(), out) == UiSpec.HandleJobResult(old(Value()), id, result, env)
    {
      if id != slot.operationId {
        return [];
      }
      var release := if slot.operationCancel then [CancelStart] else [];
      slot := slot.(passwordRequest := None, job := false, jobPending := false, operationCancel := false);
      if mode == Quitting {
        out := FinishQuit(env);
      } else if result.cleanupErr {
        out := AbortRun(env);
      } else if result.authTimedOut {
        out := FinishOperation(TimedOut);
      } else if result.authFailed {
        out := FinishOperation(AuthFailed);
      } else if result.cancelled {
        out := FinishOperation(WhyCancelled(slot.cancelReason));
      } else if result.err.Some? {
        out := FinishOperation(Failed);
      } else {
        out := Advance(env);
      }
      out := release + out;
    }

    // A failed cleanup ends the run and the program.
    method AbortRun(env: Env) returns (out: seq<Out>)
      requires Valid() && !slot.startPending && !slot.jobPending
      modifies this`mode, this`ask, this`slot, this`quitExitCode, info
      ensures Valid() && (Value(), out) == UiSpec.AbortRun(old(Value()), env)
    {
      var dropped := DropQueue();
      var said := [Say(Ended(CleanupFailed, slot.batchCompleted, slot.batchTotal, dropped))];
      ClearBatch();
      out := BeginQuit(1, env);
      out := said + out;
    }

    method Advance(env: Env) returns (out: seq<Out>)
      requires Valid() && Value().work.phase.Halted? && !loads.loading
      modifies this`mode, this`ask, this`slot, this`loads, this`quitExitCode, info
      ensures Valid() && (Value(), out) == UiSpec.Advance(old(Value()), env)
    {
      if slot.batchTotal > 0 {
        slot := slot.(batchCompleted := slot.batchCompleted + 1);
      }
      if slot.verb == Uninstall && Self(slot.operation.value) {
        out := BeginQuit(0, env);
        return;
      }
      if |slot.queue| > 0 {
        out := StartNext(env);
        return;
      }
      out := ReloadAfter();
    }

    // The oldest entry starts, if its dialog's terminal still fits.
    method StartNext(env: Env) returns (out: seq<Out>)
      requires Valid() && Value().work.phase.Halted? && !loads.loading && |slot.queue| > 0
      modifies this`mode, this`ask, this`slot
      ensures Valid() && (Value(), out) == UiSpec.StartNext(old(Value()), env)
    {
      var next := slot.queue[0];
      if !env.fits {
        out := FinishOperation(TooSmall);
        return;
      }
      slot := slot.(queue := slot.queue[1..], verb := next.verb);
      out := StartOperation(next.pkg);
    }

    method ReloadAfter() returns (out: seq<Out>)
      requires Valid() && Value().work.phase.Halted? && !loads.loading
      modifies this`mode, this`loads, info
      ensures Valid() && (Value(), out) == UiSpec.ReloadAfter(old(Value()))
    {
      var sizes := InvalidateCaches();
      mode := Working;
      if slot.batchTotal > 0 {
        out := StartFleetReload();
      } else {
        out := StartList(AfterOperation);
      }
      out := sizes + out;
    }

    // ---- loads ----

    method EndLoad()
      requires Valid() && loads.loading && !slot.startPending && !slot.jobPending
      modifies this`loads
      ensures Valid() && Value() == LoadOver(old(Value())) && !loads.loading
    {
      loads := loads.(loading := false);
    }

    method HandleListResult(id: nat, purpose: LoadPurpose, ok: bool, env: Env) returns (out: seq<Out>)
      requires Valid() && Timely(Value(), ListResult(id, purpose, ok, env))
      modifies this`mode, this`ask, this`slot, this`loads, this`infoPending, this`quitExitCode, info
      ensures Valid() && (Value(), out) == UiSpec.HandleListResult(old(Value()), id, purpose, ok, env)
    {
      if id != loads.loadId {
        return [];
      }
      EndLoad();
      if mode == Quitting {
        out := FinishQuit(env);
        return;
      }
      out := LandList(purpose, ok, env);
    }

    method LandList(purpose: LoadPurpose, ok: bool, env: Env) returns (out: seq<Out>)
      requires Valid() && !loads.loading && !slot.startPending && !slot.jobPending
      requires purpose == AfterOperation ==> slot.operation.Some?
      modifies this`mode, this`ask, this`slot, this`infoPending, info
      ensures Valid() && (Value(), out) == UiSpec.LandList(old(Value()), purpose, ok, env)
    {
      if purpose == AfterOperation && slot.cancelReason == ByTerminal {
        out := EndSqueezed(env);
        return;
      }
      if !ok {
        out := FailList(purpose);
        return;
      }
      if purpose == AfterOperation {
        out := FinishReload(env);
        return;
      }
      mode := Normal;
      out := SelectInfo(env);
    }

    method FailList(purpose: LoadPurpose) returns (out: seq<Out>)
      requires Valid() && !slot.startPending && !slot.jobPending
      modifies this`mode, this`ask, this`slot, this`infoPending, info
      ensures Valid() && (Value(), out) == UiSpec.FailList(old(Value()), purpose)
    {
      ClearSelection();
      out := [];
      if purpose == AfterOperation {
        out := FinishOperation(LoadFailed);
      }
    }

    // The reload after a single operation landed.
    method FinishReload(env: Env) returns (out: seq<Out>)
      requires Valid() && slot.operation.Some? && !slot.startPending && !slot.jobPending
      modifies this`mode, this`slot, this`infoPending, info
      ensures Valid() && (Value(), out) == UiSpec.FinishReload(old(Value()), env)
    {
      var done := Say(Done(Entry(slot.verb, slot.operation.value)));
      slot := slot.(operation := None, cancelReason := NotCancelled);
      mode := Normal;
      out := SelectInfo(env);
      out := [done] + out;
    }

    // A reload that the terminal cut short.
    method EndSqueezed(env: Env) returns (out: seq<Out>)
      requires Valid() && !slot.startPending && !slot.jobPending
      modifies this`mode, this`ask, this`slot, this`infoPending, info
      ensures Valid() && (Value(), out) == UiSpec.EndSqueezed(old(Value()), env)
    {
      var said := FinishOperation(TooSmall);
      out := SelectInfo(env);
      out := said + out;
    }

    method HandleFleetResult(id: nat, ok: bool, env: Env) returns (out: seq<Out>)
      requires Valid() && Timely(Value(), FleetResult(id, ok, env))
      modifies this`mode, this`ask, this`slot, this`loads, this`infoPending, this`quitExitCode, info
      ensures Valid() && (Value(), out) == UiSpec.HandleFleetResult(old(Value()), id, ok, env)
    {
      if id != loads.loadId {
        return [];
      }
      EndLoad();
      if mode == Quitting {
        out := FinishQuit(env);
        return;
      }
      out := LandFleet(ok, env);
    }

    method LandFleet(ok: bool, env: Env) returns (out: seq<Out>)
      requires Valid() && !loads.loading && slot.operation.Some? && !slot.startPending && !slot.jobPending
      modifies this`mode, this`ask, this`slot, this`infoPending, info
      ensures Valid() && (Value(), out) == UiSpec.LandFleet(old(Value()), ok, env)
    {
      if slot.cancelReason == ByTerminal {
        out := EndSqueezed(env);
        return;
      }
      if !ok {
        ClearSelection();
        out := FinishOperation(LoadFailed);
        return;
      }
      out := FinishFleet(env);
    }

    // The reload after a whole batch landed.
    method FinishFleet(env: Env) returns (out: seq<Out>)
      requires Valid() && slot.operation.Some? && !slot.startPending && !slot.jobPending
      modifies this`mode, this`ask, this`slot, this`infoPending, info
      ensures Valid() && (Value(), out) == UiSpec.FinishFleet(old(Value()), env)
    {
      var total := slot.batchTotal;
      ClearBatch();
      mode := Normal;
      slot := slot.(operation := None, cancelReason := NotCancelled);
      out := SelectInfo(env);
      out := [Say(UpgradedAll(total))] + out;
    }

    method HandleSizesResult(id: nat, ok: bool, env: Env) returns (out: seq<Out>)
      requires Valid()
      modifies this`loads, this`infoPending, this`quitExitCode, info
      ensures Valid() && (Value(), out) == UiSpec.HandleSizesResult(old(Value()), id, ok, env)
    {
      if id != loads.sizesId {
        return [];
      }
      loads := loads.(sizesPending := false);
      if mode == Quitting {
        out := FinishQuit(env);
        return;
      }
      if ok && env.listChanged && !loads.loading && mode != Working {
        out := SelectInfo(env);
        return;
      }
      out := [];
    }

    method HandleInfoResult(result: L.Result, env: Env) returns (out: seq<Out>)
      requires Valid() && info.active == Some(result.identity)
      modifies this`infoPending, this`quitExitCode, info
      ensures Valid() && (Value(), out) == UiSpec.HandleInfoResult(old(Value()), result, env)
    {
      var cmd := info.Complete(result);
      infoPending := cmd.Some?;
      if mode == Quitting {
        out := FinishQuit(env);
        return;
      }
      out := Issued(cmd);
    }

    // ---- trust ----

    method CancelTrust()
      requires Valid()
      modifies this`mode, this`review
      ensures Valid() && Value() == UiSpec.CancelTrust(old(Value()))
    {
      review := Review(None, false, false, false, review.id + 1);
      mode := Normal;
    }

    method StartReview(env: Env) returns (out: seq<Out>)
      requires Valid()
      modifies this`mode, this`review
      ensures Valid() && (Value(), out) == UiSpec.StartReview(old(Value()), env)
    {
      out := [];
      if env.selected.None? || slot.operation.Some? {
        return;
      }
      var chosen := env.selected.value;
      if !chosen.untrusted || chosen.fullName == "" || chosen.tap == "" {
        return;
      }
      review := review.(pkg := Some(chosen), details := false, failed := false);
      mode := Trust;
      if !env.trustFits {
        CancelTrust();
        return;
      }
      review := review.(id := review.id + 1, pending := true);
      out := [Run(DetailsCmd(review.id))];
    }

    // A review that no longer fits is dropped.
    method FitReview(env: Env)
      requires Valid()
      modifies this`mode, this`review
      ensures Valid() && Value() == UiSpec.FitReview(old(Value()), env)
    {
      if !env.trustFits {
        CancelTrust();
      }
    }

    method HandleDetailsResult(id: nat, ok: bool, env: Env) returns (out: seq<Out>)
      requires Valid()
      modifies this`mode, this`review, this`quitExitCode
      ensures Valid() && (Value(), out) == UiSpec.HandleDetailsResult(old(Value()), id, ok, env)
    {
      out := [];
      if id != review.id {
        return;
      }
      review := review.(pending := false);
      if mode == Quitting {
        out := FinishQuit(env);
        return;
      }
      ShowDetails(ok, env);
    }

    // The details, or their failure, shown in the review.
    method ShowDetails(ok: bool, env: Env)
      requires Valid()
      modifies this`mode, this`review
      ensures Valid() && Value() == UiSpec.ShowDetails(old(Value()), ok, env)
    {
      if !ok {
        review := review.(failed := true);
        FitReview(env);
        return;
      }
      review := review.(details := true);
      FitReview(env);
    }

    method UpdateTrust(key: Keystroke) returns (out: seq<Out>)
      requires Valid()
      modifies this`mode, this`review
      ensures Valid() && (Value(), out) == UiSpec.UpdateTrust(old(Value()), key)
    {
      out := [];
      if key.name == Esc {
        CancelTrust();
        return;
      }
      if review.pending {
        return;
      }
      if key.name == Yes && review.details && !review.failed && review.pkg.Some? {
        review := review.(id := review.id + 1, pending := true, failed := false);
        out := [Run(TrustCmd(review.id))];
        return;
      }
      CancelTrust();
    }

    method HandleTrustResult(id: nat, ok: bool, env: Env) returns (out: seq<Out>)
      requires Valid()
      modifies this`mode, this`review, this`infoPending, this`quitExitCode, info
      ensures Valid() && (Value(), out) == UiSpec.HandleTrustResult(old(Value()), id, ok, env)
    {
      out := [];
      if id != review.id {
        return;
      }
      review := review.(pending := false);
      if mode == Quitting {
        out := FinishQuit(env);
        return;
      }
      if !ok {
        review := review.(failed := true);
        return;
      }
      out := FinishTrust(env);
    }

    method FinishTrust(env: Env) returns (out: seq<Out>)
      requires Valid()
      modifies this`mode, this`review, this`infoPending, info
      ensures Valid() && (Value(), out) == UiSpec.FinishTrust(old(Value()), env)
    {
      if review.pkg.None? {
        return [];
      }
      var cmd := info.Refresh(None);
      review := review.(pkg := None, details := false, failed := false);
      mode := Normal;
      out := SelectInfo(env);
    }

    // ---- keys ----

    method SwitchKind(env: Env) returns (out: seq<Out>)
      requires Valid() && !loads.loading
      modifies this`loads, this`infoPending, info
      ensures Valid() && (Value(), out) == UiSpec.SwitchKind(old(Value()), env)
    {
      if slot.operation.Some? {
        return [];
      }
      ClearSelection();
      if env.retained.Some? {
        out := SelectInfo(env);
        return;
      }
      out := StartList(Switch);
    }

    method Refresh(env: Env) returns (out: seq<Out>)
      requires Valid() && !loads.loading
      modifies this`loads, info
      ensures Valid() && (Value(), out) == UiSpec.RefreshAll(old(Value()))
    {
      if slot.operation.Some? {
        return [];
      }
      var sizes := InvalidateCaches();
      out := StartList(Reload);
      out := out + sizes;
    }

    method UpdateNormal(key: Keystroke, env: Env) returns (out: seq<Out>)
      requires Valid() && !loads.loading
      modifies this, info
      ensures Valid() && (Value(), out) == UiSpec.UpdateNormal(old(Value()), key, env)
    {
      out := [];
      match key.name
      case Cursor => if env.listChanged { out := SelectInfo(env); }
      case Reorder => if env.listChanged { out := SelectInfo(env); }
      case Slash => if slot.operation.None? { mode := Search; }
      case Tab => out := SwitchKind(env);
      case Remove => ConfirmOperation(Uninstall, env);
      case UpgradeOne => ConfirmOperation(Upgrade, env);
      case UpgradeEvery => ConfirmUpgradeAll(env);
      case ReviewTrust => out := StartReview(env);
      case Refresh => out := Refresh(env);
      case Leave => if slot.operation.None? { out := BeginQuit(0, env); }
      case _ =>
    }

    method UpdateSearch(key: Keystroke, env: Env) returns (out: seq<Out>)
      requires Valid() && !loads.loading
      modifies this`mode, this`loads, this`infoPending, info
      ensures Valid() && (Value(), out) == UiSpec.UpdateSearch(old(Value()), key, env)
    {
      out := [];
      match key.name
      case Enter => mode := Normal;
      case Tab =>
        if env.completes {
          out := SelectInfo(env);
        } else {
          mode := Normal;
          out := SwitchKind(env);
        }
      case Esc =>
        mode := Normal;
        out := SelectInfo(env);
      case _ => if key.edits { out := SelectInfo(env); }
    }

    method UpdatePassword(key: Keystroke, env: Env) returns (out: seq<Out>)
      requires Valid() && slot.job
      modifies this`mode, this`slot
      ensures Valid() && (Value(), out) == UiSpec.UpdatePassword(old(Value()), key, env)
    {
      out := [];
      match key.name
      case Enter =>
        var request := slot.passwordRequest;
        slot := slot.(passwordRequest := None);
        mode := Working;
        out := [AnswerPassword(request)];
        var refused := if env.answerFails then [CancelJob] else [];
        out := out + refused;
        if env.answerFails {
          slot := slot.(cancelReason := ByAuthentication);
        }
      case Esc =>
        out := [RefusePassword(slot.passwordRequest), CancelJob];
        slot := slot.(passwordRequest := None, cancelReason := ByUser);
        mode := Working;
      case _ =>
    }

    method HandleKey(key: Keystroke, env: Env) returns (out: seq<Out>)
      requires Valid() && Ready(Value())
      modifies this, info
      ensures Valid() && (Value(), out) == UiSpec.HandleKey(old(Value()), key, env)
    {
      if key.name == CtrlC {
        out := BeginQuit(130, env);
        return;
      }
      if env.tiny {
        out := [];
        if key.name == Leave {
          out := BeginQuit(0, env);
        }
        return;
      }
      if mode == Quitting {
        return [];
      }
      if loads.loading {
        out := [];
        if loads.purpose != AfterOperation && key.name == Leave {
          out := BeginQuit(0, env);
        }
        return;
      }
      if mode == Search {
        out := UpdateSearch(key, env);
      } else if mode == Confirm {
        out := UpdateConfirmation(key, env);
      } else if mode == Password {
        out := UpdatePassword(key, env);
      } else if mode == Trust {
        out := UpdateTrust(key);
      } else {
        out := UpdateNormal(key, env);
      }
    }

    // ---- resize ----

    method CloseDialogs(env: Env)
      requires Valid()
      modifies this`mode, this`ask, this`slot
      ensures Valid() && Value() == UiSpec.CloseDialogs(old(Value()), env)
    {
      if ask.confirmation.Some? && !env.fits {
        ask := ask.(confirmation := None);
        mode := Normal;
        if slot.operation.Some? {
          mode := Working;
        }
      }
      if ask.batch != [] && !env.batchFits {
        ClearBatch();
        mode := Normal;
      }
    }

    method Resize(env: Env) returns (out: seq<Out>)
      requires Valid()
      modifies this`mode, this`ask, this`slot, this`review
      ensures Valid() && (Value(), out) == UiSpec.HandleResize(old(Value()), env)
    {
      CloseDialogs(env);
      out := [];
      if slot.operation.Some? && !env.operationFits && slot.cancelReason == NotCancelled {
        out := CancelSqueezed();
      }
      if mode == Trust && !env.trustFits {
        CancelTrust();
      }
    }

    method CancelSqueezed() returns (out: seq<Out>)
      requires Valid() && slot.operation.Some?
      modifies this`mode, this`slot
      ensures Valid() && (Value(), out) == UiSpec.CancelSqueezed(old(Value()))
    {
      var refuse := if mode == Password && slot.job then [RefusePassword(slot.passwordRequest)] else [];
      var stop := if slot.job then [CancelJob] else [];
      var release := if slot.operationCancel then [CancelStart] else [];
      var reload := if loads.loading && loads.purpose == AfterOperation then [CancelReload] else [];
      slot := slot.(cancelReason := ByTerminal, passwordRequest := None);
      mode := Working;
      out := refuse + stop + release + reload;
    }

    method Init(env: Env) returns (out: seq<Out>)
      requires Valid() && Value() == UiSpec.FRESH
      modifies this`loads, this`infoPending, info
      ensures Valid() && (Value(), out) == UiSpec.Init(env)
    {
      out := StartList(if env.retained.Some? then Reload else Startup);
      var sizes := StartSizes();
      var details := [];
      if env.retained.Some? {
        details := SelectInfo(env);
      }
      out := out + sizes + details;
    }

    // The program's Update.
    method Update(e: Event) returns (out: seq<Out>)
      requires Valid() && Ready(Value()) && Timely(Value(), e)
      modifies this, info
      ensures Valid() && (Value(), out) == UiSpec.Update(old(Value()), e)
    {
      match e
      case Resize(env) => out := Resize(env);
      case Signal(code, env) =>
        out := [];
        if code == 130 || code == 143 {
          out := BeginQuit(code, env);
        }
      case InfoResult(r, env) => out := HandleInfoResult(r, env);
      case ListResult(id, purpose, ok, env) => out := HandleListResult(id, purpose, ok, env);
      case FleetResult(id, ok, env) => out := HandleFleetResult(id, ok, env);
      case SizesResult(id, ok, env) => out := HandleSizesResult(id, ok, env);
      case JobStarted(id, _) => out := HandleJobStarted(id);
      case JobStartFailed(id, env) => out := HandleJobStartFailed(id, env);
      case JobEvent(id, request, open, _) => out := HandleJobEvent(id, request, open);
      case JobResult(id, r, env) => out := HandleJobResult(id, r, env);
      case DetailsResult(id, ok, env) => out := HandleDetailsResult(id, ok, env);
      case TrustResult(id, ok, env) => out := HandleTrustResult(id, ok, env);
      case Press(key, env) => out := HandleKey(key, env);
    }
  }
}
