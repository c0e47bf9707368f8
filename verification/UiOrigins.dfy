// Where it comes from: nothing is started, trusted, ended or reported that an earlier
// message of the run did not ask for.

module UiOrigins {
  import opened Packages
  import opened Protocol
  import opened UiSpec
  import opened UiInvariant
  import opened UiFlight
  import opened UiLedger
  import opened UiRuns
  import L = LoaderSpec
  import M = Monitor

  // The key is taken by the main window, also while an operation runs.
  predicate Takes(u: Ui, e: Event, name: KeyName) {
    e.Press? && e.key.name == name && !e.env.tiny && u.back.load.None? && (u.mode == Normal || u.mode == Working)
  }

  // ---- dialogs ----

  // An operation with this verb is running or queued for the package of that kind and
  // name.
  ghost predicate Waits(u: Ui, verb: Operation, p: Package) {
    exists k :: 0 <= k < |Held(u.work)| &&
      Held(u.work)[k].verb == verb && Held(u.work)[k].pkg.kind == p.kind && Held(u.work)[k].pkg.name == p.name
  }

  lemma WaitsIsPending(u: Ui, verb: Operation, p: Package)
    ensures Waits(u, verb, p) <==> PendingOperation(u.work, verb, p)
  {
    var held := Held(u.work);
    var n := |held| - |u.work.queue|;
    assert forall k :: 0 <= k < |u.work.queue| ==> held[n + k] == u.work.queue[k];
    assert n == 1 ==> held[0] == u.work.phase.current;
  }

  // The user asks to remove the selected row, or to upgrade it.
  ghost predicate AsksFor(u: Ui, e: Event, verb: Operation, p: Package) {
    && Takes(u, e, if verb == Uninstall then Remove else UpgradeOne)
    && e.env.selected == Some(p) && (verb == Upgrade ==> p.outdated && !p.pinned) && e.env.fits
    && !Waits(u, verb, p)
  }

  // The user asks to upgrade everything, and this is one of the rows that can be.
  predicate AsksForAll(u: Ui, e: Event, p: Package) {
    && Takes(u, e, UpgradeEvery) && e.env.batchFits && u.work.phase.Idle?
    && e.env.retained.Some? && p in e.env.retained.value
    && p.latestVersion != "" && p.latestVersion != p.version && !p.pinned && !p.untrusted
    && !(p.kind == Cask && p.name == "lazybrew")
  }

  ghost predicate AskedFor(u: Ui, e: Event, entry: Entry) {
    || AsksFor(u, e, entry.verb, entry.pkg)
    || (entry.verb == Upgrade && AsksForAll(u, e, entry.pkg))
  }

  // An open dialog is the one that was open, or the one this message asks for.
  ghost predicate DialogOrigin(u: Ui, e: Event, u': Ui) {
    && (u'.ask.confirmation.Some? ==>
          || (u'.ask.confirmation == u.ask.confirmation && u'.ask.verb == u.ask.verb)
          || AsksFor(u, e, u'.ask.verb, u'.ask.confirmation.value))
    && (u'.ask.batch != [] ==>
          u'.ask.batch == u.ask.batch || forall p :: p in u'.ask.batch ==> AsksForAll(u, e, p))
  }

  lemma NormalDialogs(u: Ui, e: Event)
    requires Core(u) && e.Press? && !e.env.tiny && u.back.load.None? && (u.mode == Normal || u.mode == Working)
    ensures DialogOrigin(u, e, UpdateNormal(u, e.key, e.env).0)
  {
    if e.key.name == Remove || e.key.name == UpgradeOne {
      AskingDialogs(u, e);
    } else if e.key.name == UpgradeEvery {
      BatchRows(e.env.retained.GetOr([]));
    }
  }

  lemma AskingDialogs(u: Ui, e: Event)
    requires Core(u) && e.Press? && !e.env.tiny && u.back.load.None? && (u.mode == Normal || u.mode == Working)
    requires e.key.name == Remove || e.key.name == UpgradeOne
    ensures DialogOrigin(u, e, UpdateNormal(u, e.key, e.env).0)
  {
    if e.env.selected.Some? {
      WaitsIsPending(u, if e.key.name == Remove then Uninstall else Upgrade, e.env.selected.value);
    }
  }

  lemma OtherDialogs(u: Ui, e: Event)
    requires Core(u) && e.Press?
    ensures u.mode == Confirm ==> DialogOrigin(u, e, UpdateConfirmation(u, e.key, e.env).0)
    ensures u.mode == Search ==> DialogOrigin(u, e, UpdateSearch(u, e.key, e.env).0)
  {
  }

  lemma KeyDialogs(u: Ui, e: Event)
    requires Core(u) && e.Press?
    ensures DialogOrigin(u, e, HandleKey(u, e.key, e.env).0)
  {
    if e.key.name == CtrlC || e.env.tiny || u.mode == Quitting || u.back.load.Some? {
    } else if u.mode == Confirm || u.mode == Search {
      OtherDialogs(u, e);
    } else if u.mode == Normal || u.mode == Working {
      NormalDialogs(u, e);
    }
  }

  lemma JobDialogs(u: Ui, e: Event)
    requires Core(u) && Timely(u, e) && (e.JobResult? || e.JobStartFailed? || e.JobStarted? || e.JobEvent?)
    ensures DialogOrigin(u, e, Update(u, e).0)
  {
  }

  lemma LoadDialogs(u: Ui, e: Event)
    requires Core(u) && Timely(u, e) && (e.ListResult? || e.FleetResult?)
    ensures DialogOrigin(u, e, Update(u, e).0)
  {
  }

  lemma RestDialogs(u: Ui, e: Event)
    requires Core(u) && Timely(u, e) && (IsBackground(e) || e.Resize? || e.Signal?)
    ensures DialogOrigin(u, e, Update(u, e).0)
  {
  }

  lemma DialogsHaveOrigin(u: Ui, e: Event)
    requires Core(u) && Timely(u, e)
    ensures DialogOrigin(u, e, Update(u, e).0)
  {
    if e.Press? {
      KeyDialogs(u, e);
    } else if e.JobResult? || e.JobStartFailed? || e.JobStarted? || e.JobEvent? {
      JobDialogs(u, e);
    } else if e.ListResult? || e.FleetResult? {
      LoadDialogs(u, e);
    } else {
      RestDialogs(u, e);
    }
  }

  ghost predicate AskedBefore(trace: seq<World>, steps: seq<Step>, i: nat, entry: Entry)
    requires i <= |steps| < |trace|
  {
    exists j :: 0 <= j < i && AskedFor(trace[j].ui, steps[j].event, entry)
  }

  ghost predicate DialogsAsked(trace: seq<World>, steps: seq<Step>, i: nat)
    requires i <= |steps| < |trace|
  {
    var ask := trace[i].ui.ask;
    && (ask.confirmation.Some? ==> AskedBefore(trace, steps, i, Entry(ask.verb, ask.confirmation.value)))
    && (forall p :: p in ask.batch ==> AskedBefore(trace, steps, i, Entry(Upgrade, p)))
  }

  lemma DialogOriginAt(trace: seq<World>, steps: seq<Step>, env: Env, n: nat)
    requires Follows(trace, steps, env) && n < |steps|
    ensures DialogOrigin(trace[n].ui, steps[n].event, trace[n + 1].ui)
  {
    EveryWorld(trace, steps, env, n);
    DialogsHaveOrigin(trace[n].ui, steps[n].event);
  }

  lemma AskedLater(trace: seq<World>, steps: seq<Step>, i: nat, entry: Entry)
    requires i < |steps| < |trace|
    requires AskedBefore(trace, steps, i, entry) || AskedFor(trace[i].ui, steps[i].event, entry)
    ensures AskedBefore(trace, steps, i + 1, entry)
  {
    if AskedBefore(trace, steps, i, entry) {
      var j :| 0 <= j < i && AskedFor(trace[j].ui, steps[j].event, entry);
      assert j < i + 1;
    }
  }

  lemma {:induction false} DialogsWereAsked(trace: seq<World>, steps: seq<Step>, env: Env, i: nat)
    requires Follows(trace, steps, env) && i <= |steps|
    ensures DialogsAsked(trace, steps, i)
  {
    if i > 0 {
      DialogsWereAsked(trace, steps, env, i - 1);
      DialogOriginAt(trace, steps, env, i - 1);
      DialogsNext(trace, steps, i - 1);
    }
  }

  lemma DialogsNext(trace: seq<World>, steps: seq<Step>, n: nat)
    requires n < |steps| < |trace| && DialogsAsked(trace, steps, n)
    requires DialogOrigin(trace[n].ui, steps[n].event, trace[n + 1].ui)
    ensures DialogsAsked(trace, steps, n + 1)
  {
    var ask := trace[n + 1].ui.ask;
    if ask.confirmation.Some? {
      AskedLater(trace, steps, n, Entry(ask.verb, ask.confirmation.value));
    }
    forall p | p in ask.batch
      ensures AskedBefore(trace, steps, n + 1, Entry(Upgrade, p))
    {
      AskedLater(trace, steps, n, Entry(Upgrade, p));
    }
  }

  // ---- what is confirmed ----

  // A lowercase y over the dialog for this entry, or over the batch it belongs to.
  predicate SaysYes(u: Ui, e: Event, entry: Entry) {
    && e.Press? && e.key.name == Yes && !e.env.tiny && u.back.load.None? && u.mode == Confirm
    && (if u.ask.batch == [] then u.ask.confirmation == Some(entry.pkg) && u.ask.verb == entry.verb && e.env.fits
        else entry.verb == Upgrade && entry.pkg in u.ask.batch && e.env.batchFits)
  }

  ghost predicate ConfirmedBefore(trace: seq<World>, steps: seq<Step>, i: nat, entry: Entry)
    requires i <= |steps| < |trace|
  {
    exists j, c :: 0 <= j < c < i
      && AskedFor(trace[j].ui, steps[j].event, entry) && SaysYes(trace[c].ui, steps[c].event, entry)
  }

  lemma ConfirmsSaysYes(u: Ui, e: Event, entry: Entry)
    requires entry in Confirms(u, e)
    ensures SaysYes(u, e, entry)
  {
  }

  lemma ConfirmedNow(trace: seq<World>, steps: seq<Step>, n: nat, entry: Entry)
    requires n < |steps| < |trace| && DialogsAsked(trace, steps, n) && entry in Confirms(trace[n].ui, steps[n].event)
    ensures ConfirmedBefore(trace, steps, n + 1, entry)
  {
    var u, e := trace[n].ui, steps[n].event;
    ConfirmsSaysYes(u, e, entry);
    assert AskedBefore(trace, steps, n, entry);
    var j :| 0 <= j < n && AskedFor(trace[j].ui, steps[j].event, entry);
    assert j < n < n + 1;
  }

  lemma ConfirmedLater(trace: seq<World>, steps: seq<Step>, n: nat, entry: Entry)
    requires n < |steps| < |trace| && ConfirmedBefore(trace, steps, n, entry)
    ensures ConfirmedBefore(trace, steps, n + 1, entry)
  {
    var j, c :| 0 <= j < c < n
      && AskedFor(trace[j].ui, steps[j].event, entry) && SaysYes(trace[c].ui, steps[c].event, entry);
    assert j < c < n + 1;
  }

  lemma ConfirmedGrows(trace: seq<World>, steps: seq<Step>, env: Env, n: nat)
    requires Follows(trace, steps, env) && n < |steps|
    ensures trace[n + 1].confirmed == trace[n].confirmed + Confirms(trace[n].ui, steps[n].event)
  {
    EveryWorld(trace, steps, env, n);
  }

  // Nothing is started or queued that the user did not ask for and then confirm: every
  // entry confirmed in a run was asked for by an earlier key over that very row, and
  // then confirmed by a lowercase y over its dialog.
  lemma {:induction false} ConfirmedWasAsked(trace: seq<World>, steps: seq<Step>, env: Env, i: nat, entry: Entry)
    requires Follows(trace, steps, env) && i <= |steps| && entry in trace[i].confirmed
    ensures ConfirmedBefore(trace, steps, i, entry)
  {
    if i > 0 {
      ConfirmedGrows(trace, steps, env, i - 1);
      if entry in trace[i - 1].confirmed {
        ConfirmedWasAsked(trace, steps, env, i - 1, entry);
        ConfirmedLater(trace, steps, i - 1, entry);
      } else {
        DialogsWereAsked(trace, steps, env, i - 1);
        ConfirmedNow(trace, steps, i - 1, entry);
      }
    }
  }
}
