// Why it was said or done: trust given, operations ended, successes reported, and the
// exit code.

module UiReasons {
  import opened Packages
  import opened Protocol
  import opened UiSpec
  import opened UiInvariant
  import opened UiFlight
  import opened UiLedger
  import opened UiRuns
  import opened UiOrigins
  import L = LoaderSpec
  import M = Monitor

  // ---- reviews ----

  // The user opens a review over an untrusted row.
  predicate OpensReview(u: Ui, e: Event, p: Package) {
    && Takes(u, e, ReviewTrust) && e.env.selected == Some(p) && u.work.phase.Idle? && e.env.trustFits
    && p.untrusted && p.fullName != "" && p.tap != ""
  }

  predicate ShowsDetails(e: Event, id: nat) {
    e.DetailsResult? && e.ok && e.id == id
  }

  // The review under way is the one opened, or goes on: its details come once, for
  // the identifier they were asked for with.
  ghost predicate ReviewOrigin(u: Ui, e: Event, u': Ui) {
    var b, b' := u.back, u'.back;
    b'.trustPackage.Some? ==>
      || (OpensReview(u, e, b'.trustPackage.value) && !b'.trustDetails && b'.trustId == b.trustId + 1)
      || (b'.trustPackage == b.trustPackage
          && if b'.trustDetails then b.trustDetails || ShowsDetails(e, b.trustId) else !b.trustDetails && b'.trustId == b.trustId)
  }

  lemma KeyReviews(u: Ui, e: Event)
    requires Core(u) && e.Press?
    ensures ReviewOrigin(u, e, HandleKey(u, e.key, e.env).0)
  {
    if e.key.name == CtrlC || e.env.tiny || u.mode == Quitting || u.back.load.Some? {
    } else if u.mode == Confirm || u.mode == Search {
      OtherKeyReviews(u, e);
    } else if u.mode == Normal || u.mode == Working {
      NormalReviews(u, e);
    }
  }

  lemma NormalReviews(u: Ui, e: Event)
    requires Core(u) && e.Press? && !e.env.tiny && u.back.load.None? && (u.mode == Normal || u.mode == Working)
    ensures ReviewOrigin(u, e, UpdateNormal(u, e.key, e.env).0)
  {
    if e.key.name != ReviewTrust {
      NormalKeepsReview(u, e.key, e.env);
    }
  }

  lemma NormalKeepsReview(u: Ui, key: Keystroke, env: Env)
    requires key.name != ReviewTrust
    ensures
      var b := UpdateNormal(u, key, env).0.back;
      b.trustPackage == u.back.trustPackage && b.trustDetails == u.back.trustDetails && b.trustId == u.back.trustId
  {
  }

  lemma OtherKeyReviews(u: Ui, e: Event)
    requires Core(u) && e.Press?
    ensures u.mode == Confirm ==> ReviewOrigin(u, e, UpdateConfirmation(u, e.key, e.env).0)
    ensures u.mode == Search ==> ReviewOrigin(u, e, UpdateSearch(u, e.key, e.env).0)
  {
  }

  lemma JobReviews(u: Ui, e: Event)
    requires Core(u) && Timely(u, e) && (e.JobResult? || e.JobStartFailed? || e.JobStarted? || e.JobEvent?)
    ensures ReviewOrigin(u, e, Update(u, e).0)
  {
  }

  lemma LoadReviews(u: Ui, e: Event)
    requires Core(u) && Timely(u, e) && (e.ListResult? || e.FleetResult?)
    ensures ReviewOrigin(u, e, Update(u, e).0)
  {
  }

  lemma BackgroundReviews(u: Ui, e: Event)
    requires Core(u) && Timely(u, e) && IsBackground(e)
    ensures ReviewOrigin(u, e, Update(u, e).0)
  {
    if e.DetailsResult? || e.TrustResult? {
      AnswerReviews(u, e);
    }
  }

  lemma AnswerReviews(u: Ui, e: Event)
    requires Timely(u, e) && (e.DetailsResult? || e.TrustResult?)
    ensures ReviewOrigin(u, e, Update(u, e).0)
  {
  }

  lemma RestReviews(u: Ui, e: Event)
    requires Core(u) && (e.Resize? || e.Signal?)
    ensures ReviewOrigin(u, e, Update(u, e).0)
  {
  }

  lemma ReviewsHaveOrigin(u: Ui, e: Event)
    requires Core(u) && Timely(u, e)
    ensures ReviewOrigin(u, e, Update(u, e).0)
  {
    if e.Press? {
      KeyReviews(u, e);
    } else if e.JobResult? || e.JobStartFailed? || e.JobStarted? || e.JobEvent? {
      JobReviews(u, e);
    } else if e.ListResult? || e.FleetResult? {
      LoadReviews(u, e);
    } else if IsBackground(e) {
      BackgroundReviews(u, e);
    } else {
      RestReviews(u, e);
    }
  }

  // A review of `p` was opened at `j`, and if its details are on show they came
  // afterwards, in answer to that opening.
  ghost predicate ReviewedAt(trace: seq<World>, steps: seq<Step>, i: nat, p: Package, j: nat)
    requires j < i <= |steps| < |trace|
  {
    var id, b := trace[j].ui.back.trustId + 1, trace[i].ui.back;
    && OpensReview(trace[j].ui, steps[j].event, p)
    && (if b.trustDetails then exists d :: j < d < i && ShowsDetails(steps[d].event, id) else b.trustId == id)
  }

  ghost predicate ReviewOpened(trace: seq<World>, steps: seq<Step>, i: nat)
    requires i <= |steps| < |trace|
  {
    var b := trace[i].ui.back;
    b.trustPackage.Some? ==> exists j :: 0 <= j < i && ReviewedAt(trace, steps, i, b.trustPackage.value, j)
  }

  lemma ReviewOriginAt(trace: seq<World>, steps: seq<Step>, env: Env, n: nat)
    requires Follows(trace, steps, env) && n < |steps|
    ensures ReviewOrigin(trace[n].ui, steps[n].event, trace[n + 1].ui)
  {
    EveryWorld(trace, steps, env, n);
    ReviewsHaveOrigin(trace[n].ui, steps[n].event);
  }

  lemma ReviewNext(trace: seq<World>, steps: seq<Step>, n: nat)
    requires n < |steps| < |trace| && ReviewOpened(trace, steps, n)
    requires ReviewOrigin(trace[n].ui, steps[n].event, trace[n + 1].ui)
    ensures ReviewOpened(trace, steps, n + 1)
  {
    var b, b' := trace[n].ui.back, trace[n + 1].ui.back;
    if b'.trustPackage.Some? {
      var p := b'.trustPackage.value;
      if OpensReview(trace[n].ui, steps[n].event, p) && !b'.trustDetails && b'.trustId == b.trustId + 1 {
        assert ReviewedAt(trace, steps, n + 1, p, n);
      } else {
        var j :| 0 <= j < n && ReviewedAt(trace, steps, n, p, j);
        var id := trace[j].ui.back.trustId + 1;
        if b'.trustDetails && !b.trustDetails {
          assert j < n < n + 1 && ShowsDetails(steps[n].event, id);
        } else if b'.trustDetails {
          var d :| j < d < n && ShowsDetails(steps[d].event, id);
          assert d < n + 1;
        }
        assert ReviewedAt(trace, steps, n + 1, p, j);
      }
    }
  }

  lemma {:induction false} ReviewChain(trace: seq<World>, steps: seq<Step>, i: nat)
    requires i <= |steps| < |trace| && trace[0].ui.back.trustPackage.None?
    requires forall n :: 0 <= n < i ==> ReviewOrigin(trace[n].ui, steps[n].event, trace[n + 1].ui)
    ensures ReviewOpened(trace, steps, i)
  {
    if i > 0 {
      ReviewChain(trace, steps, i - 1);
      ReviewNext(trace, steps, i - 1);
    }
  }

  lemma ReviewsWereOpened(trace: seq<World>, steps: seq<Step>, env: Env, i: nat)
    requires Follows(trace, steps, env) && i <= |steps|
    ensures ReviewOpened(trace, steps, i)
  {
    forall n | 0 <= n < i
      ensures ReviewOrigin(trace[n].ui, steps[n].event, trace[n + 1].ui)
    {
      ReviewOriginAt(trace, steps, env, n);
    }
    NothingReviewed(env);
    ReviewChain(trace, steps, i);
  }

  lemma NothingReviewed(env: Env)
    ensures Opening(env).ui.back.trustPackage.None?
  {
  }

  // A lowercase y over a review whose details are on show, with nothing failed or
  // under way.
  predicate Trusts(u: Ui, e: Event, p: Package) {
    && e.Press? && e.key.name == Yes && !e.env.tiny && u.back.load.None? && u.mode == Trust
    && u.back.trustPackage == Some(p) && u.back.trustDetails && !u.back.trustFailed && !u.back.trustPending
  }

  ghost predicate TrustQuiet(out: seq<Out>) {
    forall i :: 0 <= i < |out| && out[i].Run? ==> !out[i].cmd.TrustCmd?
  }

  lemma KeyTrusts(u: Ui, e: Event)
    requires e.Press? && (e.key.name == CtrlC || e.env.tiny || u.mode != Trust || u.back.load.Some?)
    ensures TrustQuiet(HandleKey(u, e.key, e.env).1)
  {
    if e.key.name == CtrlC || e.env.tiny || u.mode == Quitting || u.back.load.Some? || u.mode == Password {
    } else if u.mode == Confirm || u.mode == Search {
      DialogTrusts(u, e);
    } else {
      NormalTrusts(u, e);
    }
  }

  lemma DialogTrusts(u: Ui, e: Event)
    requires e.Press?
    ensures TrustQuiet(UpdateConfirmation(u, e.key, e.env).1) && TrustQuiet(UpdateSearch(u, e.key, e.env).1)
  {
  }

  lemma NormalTrusts(u: Ui, e: Event)
    requires e.Press?
    ensures TrustQuiet(UpdateNormal(u, e.key, e.env).1)
  {
  }

  lemma JobTrusts(u: Ui, e: Event)
    requires Core(u) && Timely(u, e) && (e.JobResult? || e.JobStartFailed? || e.JobStarted? || e.JobEvent?)
    ensures TrustQuiet(Update(u, e).1)
  {
  }

  lemma LoadTrusts(u: Ui, e: Event)
    requires Core(u) && Timely(u, e) && (e.ListResult? || e.FleetResult?)
    ensures TrustQuiet(Update(u, e).1)
  {
  }

  lemma BackgroundTrusts(u: Ui, e: Event)
    requires Core(u) && Timely(u, e) && IsBackground(e)
    ensures TrustQuiet(Update(u, e).1)
  {
  }

  lemma RestTrusts(u: Ui, e: Event)
    requires Core(u) && (e.Resize? || e.Signal?)
    ensures TrustQuiet(Update(u, e).1)
  {
  }

  // Trust is given exactly there.
  lemma TrustHasCause(u: Ui, e: Event, id: nat)
    requires Core(u) && Timely(u, e)
    ensures TrustCmd(id) in Cmds(Update(u, e).1) <==>
              u.back.trustPackage.Some? && Trusts(u, e, u.back.trustPackage.value) && id == u.back.trustId + 1
  {
    if e.Press? && e.key.name != CtrlC && !e.env.tiny && u.mode == Trust && u.back.load.None? {
      OneCmd(Run(TrustCmd(u.back.trustId + 1)));
    } else if e.Press? {
      KeyTrusts(u, e);
    } else if e.JobResult? || e.JobStartFailed? || e.JobStarted? || e.JobEvent? {
      JobTrusts(u, e);
    } else if e.ListResult? || e.FleetResult? {
      LoadTrusts(u, e);
    } else if IsBackground(e) {
      BackgroundTrusts(u, e);
    } else {
      RestTrusts(u, e);
    }
  }

  // Nothing is trusted that was not reviewed: when the trust command is issued, the
  // user has opened a review over that untrusted package, its details came for that
  // review and are on show, and the user has now typed a lowercase y.
  lemma TrustedWasReviewed(trace: seq<World>, steps: seq<Step>, env: Env, i: nat, id: nat)
    requires Follows(trace, steps, env) && i < |steps| && TrustCmd(id) in Cmds(Asked(trace[i], steps[i]))
    ensures
      exists p, j, d :: 0 <= j < d < i
        && OpensReview(trace[j].ui, steps[j].event, p) && ShowsDetails(steps[d].event, trace[j].ui.back.trustId + 1)
        && Trusts(trace[i].ui, steps[i].event, p)
  {
    EveryWorld(trace, steps, env, i);
    TrustHasCause(trace[i].ui, steps[i].event, id);
    ReviewsWereOpened(trace, steps, env, i);
    var p := trace[i].ui.back.trustPackage.value;
    var j :| 0 <= j < i && ReviewedAt(trace, steps, i, p, j);
    var d :| j < d < i && ShowsDetails(steps[d].event, trace[j].ui.back.trustId + 1);
  }

  // ---- the state of a review ----

  // Its details or its trust could not be had.
  predicate Disappoints(u: Ui, e: Event) {
    && (e.DetailsResult? || e.TrustResult?) && e.id == u.back.trustId && !e.ok && u.mode != Quitting
  }

  predicate AnswersReview(u: Ui, e: Event) {
    (e.DetailsResult? || e.TrustResult?) && e.id == u.back.trustId
  }

  // A key of the review other than the one that trusts, an end of its details that the
  // terminal has no room for, trust given, or a resize that leaves only the review and
  // has no room for it.
  predicate LeavesReview(u: Ui, e: Event) {
    || (e.Press? && u.mode == Trust && !e.env.tiny && u.back.load.None? && e.key.name != CtrlC
        && (e.key.name == Esc
            || (!u.back.trustPending && (e.key.name != Yes || !u.back.trustDetails || u.back.trustFailed))))
    || (e.DetailsResult? && e.id == u.back.trustId && u.mode != Quitting && !e.env.trustFits)
    || (e.TrustResult? && e.id == u.back.trustId && u.mode != Quitting && e.ok)
    || (e.Resize? && u.mode == Trust && !e.env.trustFits && !ClosesLeftover(u, e.env) && !Squeezed(u, e.env))
  }

  predicate ClosesLeftover(u: Ui, env: Env) {
    (u.ask.confirmation.Some? && !env.fits) || (u.ask.batch != [] && !env.batchFits)
  }

  ghost predicate ReviewMoves(u: Ui, e: Event, u': Ui) {
    var b, b' := u.back, u'.back;
    b.trustPackage.Some? ==>
      if e.Press? && Trusts(u, e, b.trustPackage.value) then
        b' == b.(trustPending := true, trustFailed := false, trustId := b.trustId + 1)
      else if Takes(u, e, ReviewTrust) then true
      else if LeavesReview(u, e) then b'.trustPackage.None? && !b'.trustPending
      else
        && b'.trustPackage == b.trustPackage && b'.trustId == b.trustId
        && b'.trustPending == (b.trustPending && !AnswersReview(u, e))
        && b'.trustFailed == (b.trustFailed || Disappoints(u, e))
        && b'.trustDetails == (b.trustDetails || (ShowsDetails(e, b.trustId) && u.mode != Quitting))
  }

  lemma KeyMovesReview(u: Ui, e: Event)
    requires Core(u) && e.Press?
    ensures ReviewMoves(u, e, HandleKey(u, e.key, e.env).0)
  {
    if e.key.name == CtrlC || e.env.tiny || u.mode == Quitting || u.back.load.Some? || u.mode == Trust {
    } else if u.mode == Confirm || u.mode == Search || u.mode == Password {
      DialogMovesReview(u, e);
    } else if e.key.name != ReviewTrust {
      NormalMovesReview(u, e);
    }
  }

  predicate SameReview(b: Background, b': Background) {
    && b'.trustPackage == b.trustPackage && b'.trustDetails == b.trustDetails && b'.trustFailed == b.trustFailed
    && b'.trustPending == b.trustPending && b'.trustId == b.trustId
  }

  lemma NormalMovesReview(u: Ui, e: Event)
    requires e.Press? && e.key.name != ReviewTrust
    ensures SameReview(u.back, UpdateNormal(u, e.key, e.env).0.back)
  {
  }

  lemma DialogMovesReview(u: Ui, e: Event)
    requires e.Press?
    ensures SameReview(u.back, UpdateConfirmation(u, e.key, e.env).0.back)
    ensures SameReview(u.back, UpdateSearch(u, e.key, e.env).0.back)
    ensures SameReview(u.back, UpdatePassword(u, e.key, e.env).0.back)
  {
  }

  lemma JobMovesReview(u: Ui, e: Event)
    requires Core(u) && Timely(u, e) && (e.JobResult? || e.JobStartFailed? || e.JobStarted? || e.JobEvent?)
    ensures SameReview(u.back, Update(u, e).0.back)
  {
  }

  lemma LoadMovesReview(u: Ui, e: Event)
    requires Core(u) && Timely(u, e) && (e.ListResult? || e.FleetResult?)
    ensures SameReview(u.back, Update(u, e).0.back)
  {
  }

  lemma RestMovesReview(u: Ui, e: Event)
    requires Timely(u, e) && (e.InfoResult? || e.SizesResult? || e.Signal?)
    ensures SameReview(u.back, Update(u, e).0.back)
  {
  }

  predicate Elsewhere(e: Event) {
    !e.Press? && !e.Resize? && !e.DetailsResult? && !e.TrustResult?
  }

  lemma OthersMoveNoReview(u: Ui, e: Event)
    requires Core(u) && Timely(u, e) && Elsewhere(e)
    ensures SameReview(u.back, Update(u, e).0.back)
  {
    if e.JobResult? || e.JobStartFailed? || e.JobStarted? || e.JobEvent? {
      JobMovesReview(u, e);
    } else if e.ListResult? || e.FleetResult? {
      LoadMovesReview(u, e);
    } else {
      RestMovesReview(u, e);
    }
  }

  lemma AnswerMovesReview(u: Ui, e: Event)
    requires Core(u) && Timely(u, e) && (e.DetailsResult? || e.TrustResult?)
    ensures ReviewMoves(u, e, Update(u, e).0)
  {
  }

  lemma ResizeMovesReview(u: Ui, e: Event)
    requires Core(u) && e.Resize?
    ensures ReviewMoves(u, e, Update(u, e).0)
  {
  }

  // What becomes of a review: it is trusted, left, or goes on, its details or its
  // failure shown as they come.
  lemma ReviewsMove(u: Ui, e: Event)
    requires Core(u) && Timely(u, e)
    ensures ReviewMoves(u, e, Update(u, e).0)
  {
    if e.Press? {
      KeyMovesReview(u, e);
    } else if e.Resize? {
      ResizeMovesReview(u, e);
    } else if e.DetailsResult? || e.TrustResult? {
      AnswerMovesReview(u, e);
    } else {
      OthersMoveNoReview(u, e);
    }
  }

  // ---- what begins a load, a measurement, or a question to the broker of trust ----

  // The last operation of a run succeeds, and it did not remove this program.
  predicate RunSucceeds(u: Ui, e: Event) {
    && Succeeds(u, e) && u.work.phase.Running? && u.mode != Quitting && u.work.queue == []
    && !(u.work.phase.current.verb == Uninstall && u.work.phase.current.pkg.kind == Cask
         && u.work.phase.current.pkg.name == "lazybrew")
  }

  predicate Refreshes(u: Ui, e: Event) {
    Takes(u, e, UiSpec.Refresh) && u.work.phase.Idle?
  }

  // Tab switches to the other kind, from the main window or from a search that it does
  // not complete.
  predicate Switches(u: Ui, e: Event) {
    && e.Press? && e.key.name == Tab && !e.env.tiny && u.back.load.None? && u.work.phase.Idle?
    && (u.mode == Normal || u.mode == Working || (u.mode == Search && !e.env.completes))
  }

  function LoadAsked(u: Ui, e: Event): Option<LoadPurpose> {
    if Switches(u, e) && e.env.retained.None? then Some(Switch)
    else if Refreshes(u, e) then Some(Reload)
    else if RunSucceeds(u, e) then Some(AfterOperation)
    else None
  }

  predicate LoadAnswered(u: Ui, e: Event) {
    (e.ListResult? || e.FleetResult?) && e.id == u.back.loadId
  }

  predicate SizesAsked(u: Ui, e: Event) {
    Refreshes(u, e) || RunSucceeds(u, e)
  }

  ghost predicate Loads(u: Ui, e: Event, u': Ui) {
    var b, b' := u.back, u'.back;
    && b'.load == (if LoadAsked(u, e).Some? then LoadAsked(u, e) else if LoadAnswered(u, e) then None else b.load)
    && b'.loadId == b.loadId + (if LoadAsked(u, e).Some? then 1 else 0)
    && b'.sizesPending == (SizesAsked(u, e) || (b.sizesPending && !(e.SizesResult? && e.id == b.sizesId)))
    && b'.sizesId == b.sizesId + (if SizesAsked(u, e) then 1 else 0)
  }

  lemma KeyLoads(u: Ui, e: Event)
    requires Core(u) && e.Press?
    ensures Loads(u, e, HandleKey(u, e.key, e.env).0)
  {
    if e.key.name == CtrlC || e.env.tiny || u.mode == Quitting || u.back.load.Some? {
    } else if u.mode == Confirm {
      ConfirmLoads(u, e);
    } else if u.mode == Search {
      SearchLoads(u, e);
    } else if u.mode == Normal || u.mode == Working {
      if e.key.name == Tab || e.key.name == UiSpec.Refresh {
        ReloadingLoads(u, e);
      } else {
        NormalLoads(u, e);
      }
    }
  }

  lemma ConfirmLoads(u: Ui, e: Event)
    requires Core(u) && e.Press? && u.mode == Confirm
    ensures Loads(u, e, UpdateConfirmation(u, e.key, e.env).0)
  {
  }

  lemma ReloadingLoads(u: Ui, e: Event)
    requires Core(u) && e.Press? && !e.env.tiny && u.back.load.None? && (u.mode == Normal || u.mode == Working)
    requires e.key.name == Tab || e.key.name == UiSpec.Refresh
    ensures Loads(u, e, UpdateNormal(u, e.key, e.env).0)
  {
  }

  lemma NormalLoads(u: Ui, e: Event)
    requires Core(u) && e.Press? && !e.env.tiny && u.back.load.None? && (u.mode == Normal || u.mode == Working)
    requires e.key.name != Tab && e.key.name != UiSpec.Refresh
    ensures Loads(u, e, UpdateNormal(u, e.key, e.env).0)
  {
    assert !SizesAsked(u, e) && LoadAsked(u, e).None?;
  }

  lemma SearchLoads(u: Ui, e: Event)
    requires Core(u) && e.Press? && !e.env.tiny && u.back.load.None? && u.mode == Search
    ensures Loads(u, e, UpdateSearch(u, e.key, e.env).0)
  {
  }

  lemma JobResultLoads(u: Ui, e: Event)
    requires Core(u) && Timely(u, e) && e.JobResult?
    ensures Loads(u, e, Update(u, e).0)
  {
    if e.id == u.work.id && u.mode != Quitting && Succeeded(e.outcome) {
      AdvanceLoads(u, e);
    }
  }

  lemma AdvanceLoads(u: Ui, e: Event)
    requires Core(u) && Timely(u, e) && u.work.phase.Running? && Succeeds(u, e) && u.mode != Quitting
    ensures Loads(u, e, Advance(JobOver(u), e.env).0)
  {
  }

  lemma LoadLoads(u: Ui, e: Event)
    requires Core(u) && Timely(u, e) && (e.ListResult? || e.FleetResult?)
    ensures Loads(u, e, Update(u, e).0)
  {
  }

  lemma JobLoads(u: Ui, e: Event)
    requires Core(u) && Timely(u, e) && (e.JobStartFailed? || e.JobStarted? || e.JobEvent?)
    ensures Loads(u, e, Update(u, e).0)
  {
  }

  lemma BackgroundLoads(u: Ui, e: Event)
    requires Core(u) && Timely(u, e) && IsBackground(e)
    ensures Loads(u, e, Update(u, e).0)
  {
    if !e.SizesResult? {
      ReviewsLoadNothing(u, e);
    }
  }

  lemma ReviewsLoadNothing(u: Ui, e: Event)
    requires Timely(u, e) && (e.InfoResult? || e.DetailsResult? || e.TrustResult?)
    ensures
      var b, b' := u.back, Update(u, e).0.back;
      b'.load == b.load && b'.loadId == b.loadId && b'.sizesPending == b.sizesPending && b'.sizesId == b.sizesId
  {
  }

  lemma RestLoads(u: Ui, e: Event)
    requires Core(u) && (e.Resize? || e.Signal?)
    ensures Loads(u, e, Update(u, e).0)
  {
  }

  // A load begins exactly for a switch, a refresh, or the end of a successful run, with
  // that purpose and a new identifier, and ends exactly with its answer; a measurement
  // begins beside the last two.
  lemma LoadsHaveCauses(u: Ui, e: Event)
    requires Core(u) && Timely(u, e)
    ensures Loads(u, e, Update(u, e).0)
  {
    if e.Press? {
      KeyLoads(u, e);
    } else if e.JobResult? {
      JobResultLoads(u, e);
    } else if e.ListResult? || e.FleetResult? {
      LoadLoads(u, e);
    } else if IsBackground(e) {
      BackgroundLoads(u, e);
    } else if e.JobStartFailed? || e.JobStarted? || e.JobEvent? {
      JobLoads(u, e);
    } else {
      RestLoads(u, e);
    }
  }
}
