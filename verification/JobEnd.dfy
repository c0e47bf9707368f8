// How a job ends: every cancellation shuts it down, the result says what happened, and
// a whole run in which the password is delivered.

module JobEnd {
  import opened Packages
  import opened Protocol
  import opened Bytes
  import opened Monitor
  import opened JobSystem
  import opened JobInvariant
  import opened JobProperties
  import opened JobHistory

  // ---- a cancelled job is shut down ----

  // Somebody is about to cancel the context or to close the listener.
  ghost predicate Pending(s: Sys, left: Shutdown) {
    || s.acceptor == BusyShutdown(left) || s.finisher == Stopping(left)
    || (exists c :: c in s.p.handlers && s.p.handlers[c] == Closing(left))
    || (exists k :: k in s.p.callers && s.p.callers[k] == CallShutdown(left))
  }

  ghost predicate ShuttingDown(s: Sys) {
    && (s.sig.ctxDone || Pending(s, CancelContext))
    && (s.sig.listenerClosed || Pending(s, CancelContext) || Pending(s, CloseListener))
  }

  predicate StoppedBy(pc: FinisherPc) {
    !pc.NoFinisher? && !pc.Selecting? && !pc.Marking? && !pc.Stopping?
  }

  // A start that failed, past its own shutdown.
  predicate FailsAfter(pc: StarterPc) {
    pc.FailReady? || pc.FailArming? || pc.Failed?
  }

  ghost predicate ShutdownOk(s: Sys) {
    && (s.m.cancelled ==> ShuttingDown(s))
    && (s.finisher == Stopping(CloseListener) ==> s.sig.ctxDone)
    && (StoppedBy(s.finisher) ==> s.sig.ctxDone && s.sig.listenerClosed)
    && (s.starter == FailShutdown(CloseListener) ==> s.sig.ctxDone)
    && (FailsAfter(s.starter) ==> s.sig.ctxDone && s.sig.listenerClosed)
  }

  // What was signalled, and what is left of it: the context first, then the listener.
  ghost predicate Carries(s: Sys, t: Sys) {
    && (s.sig.ctxDone ==> t.sig.ctxDone) && (s.sig.listenerClosed ==> t.sig.listenerClosed)
    && (Pending(s, CancelContext) ==> Pending(t, CancelContext) || (t.sig.ctxDone && Pending(t, CloseListener)))
    && (Pending(s, CloseListener) ==> Pending(t, CloseListener) || t.sig.listenerClosed)
  }

  lemma CarriesShutdown(s: Sys, t: Sys)
    requires Carries(s, t) && ShuttingDown(s)
    ensures ShuttingDown(t)
  {
  }

  lemma MeetSignals(s: Sys, c: Conn, move: HandlerMove)
    requires HandlerEnabled(s, c, move) && Meets(s.p.handlers[c])
    ensures Meet(s, c, move).sig == s.sig && Meet(s, c, move).m.cancelled == s.m.cancelled
  {
  }

  lemma ServeSignals(s: Sys, c: Conn, move: HandlerMove)
    requires HandlerEnabled(s, c, move) && Serves(s.p.handlers[c])
    ensures Serve(s, c, move).sig == s.sig && Serve(s, c, move).m.cancelled == s.m.cancelled
  {
  }

  // A handler signals what it came to signal, and starts to after a failure.
  lemma HandlerSignals(s: Sys, c: Conn, move: HandlerMove)
    requires HandlerEnabled(s, c, move)
    ensures
      var t, pc := HandlerNext(s, c, move), s.p.handlers[c];
      && t.sig == (if pc.Closing? then Signal(s.sig, pc.left) else s.sig)
      && (pc == Closing(CancelContext) ==> c in t.p.handlers && t.p.handlers[c] == Closing(CloseListener))
      && (t.m.cancelled && !s.m.cancelled ==> c in t.p.handlers && t.p.handlers[c] == Closing(CancelContext))
  {
    if Meets(s.p.handlers[c]) {
      MeetSignals(s, c, move);
    } else if Serves(s.p.handlers[c]) {
      ServeSignals(s, c, move);
    }
  }

  // Every other goroutine is where it was.
  lemma HandlerCarries(s: Sys, c: Conn, move: HandlerMove)
    requires Exchange(ExchOf(s)) && HandlerEnabled(s, c, move)
    ensures Carries(s, HandlerNext(s, c, move)) && HandlerNext(s, c, move).finisher == s.finisher
  {
    var t := HandlerNext(s, c, move);
    assert HandlerOk(ExchOf(s), c);
    HandlerSignals(s, c, move);
    HandlerElsewhere(s, c, move);
    HandlerAlone(s, c, move);
    if d :| d in s.p.handlers && s.p.handlers[d] == Closing(CancelContext) && d != c {
      assert d in t.p.handlers && t.p.handlers[d] == Closing(CancelContext);
    }
    if d :| d in s.p.handlers && s.p.handlers[d] == Closing(CloseListener) && d != c {
      assert d in t.p.handlers && t.p.handlers[d] == Closing(CloseListener);
    }
  }

  lemma HandlerAlone(s: Sys, c: Conn, move: HandlerMove)
    requires HandlerEnabled(s, c, move)
    ensures HandlerNext(s, c, move).acceptor == s.acceptor && HandlerNext(s, c, move).finisher == s.finisher
  {
    var pc := s.p.handlers[c];
    if Meets(pc) {
      MeetQuiet(s, c, move);
    } else if Serves(pc) {
      ServeQuiet(s, c, move);
    } else if Parts(pc) {
      PartQuiet(s, c);
    }
  }

  lemma HandlerShutsDown(s: Sys, c: Conn, move: HandlerMove)
    requires Inv(s) && HandlerEnabled(s, c, move) && ShutdownOk(s)
    ensures ShutdownOk(HandlerNext(s, c, move))
  {
    HandlerCarries(s, c, move);
    HandlerSignals(s, c, move);
  }

  lemma CallerSignals(s: Sys, k: nat, ok: bool)
    requires k in s.p.callers
    ensures
      var t, pc := CallerNext(s, k, ok), s.p.callers[k];
      && t.sig == (if pc.CallShutdown? then Signal(s.sig, pc.left) else s.sig)
      && t.acceptor == s.acceptor && t.finisher == s.finisher && t.p.handlers == s.p.handlers
      && (pc == CallShutdown(CancelContext) ==> k in t.p.callers && t.p.callers[k] == CallShutdown(CloseListener))
      && (t.m.cancelled && !s.m.cancelled ==> k in t.p.callers && t.p.callers[k] == CallShutdown(CancelContext))
      && (forall l :: l in s.p.callers && l != k ==> l in t.p.callers && t.p.callers[l] == s.p.callers[l])
  {
  }

  lemma CallerShutsDown(s: Sys, k: nat, ok: bool)
    requires k in s.p.callers && ShutdownOk(s)
    ensures ShutdownOk(CallerNext(s, k, ok))
  {
    var t := CallerNext(s, k, ok);
    CallerSignals(s, k, ok);
    if l :| l in s.p.callers && s.p.callers[l] == CallShutdown(CancelContext) && l != k {
      assert l in t.p.callers && t.p.callers[l] == CallShutdown(CancelContext);
    }
    if l :| l in s.p.callers && s.p.callers[l] == CallShutdown(CloseListener) && l != k {
      assert l in t.p.callers && t.p.callers[l] == CallShutdown(CloseListener);
    }
    assert Carries(s, t);
  }

  lemma AcceptorShutsDown(s: Sys, ok: bool)
    requires AcceptorEnabled(s, ok) && ShutdownOk(s)
    requires s.acceptor.Spawning? ==> s.acceptor.conn !in s.p.handlers
    ensures ShutdownOk(AcceptorNext(s, ok))
  {
    var t := AcceptorNext(s, ok);
    AcceptorSignals(s, ok);
    AcceptorCancels(s, ok);
    AcceptorTells(s, ok);
    if c :| c in s.p.handlers && s.p.handlers[c] == Closing(CancelContext) {
      assert c in t.p.handlers && t.p.handlers[c] == Closing(CancelContext);
    }
    if c :| c in s.p.handlers && s.p.handlers[c] == Closing(CloseListener) {
      assert c in t.p.handlers && t.p.handlers[c] == Closing(CloseListener);
    }
    assert Carries(s, t);
  }

  lemma AcceptorSignals(s: Sys, ok: bool)
    requires AcceptorEnabled(s, ok)
    ensures
      var t, pc := AcceptorNext(s, ok), s.acceptor;
      && (if pc.BusyShutdown? then t.sig == Signal(s.sig, pc.left)
          else t.sig.ctxDone == s.sig.ctxDone && t.sig.listenerClosed == s.sig.listenerClosed)
      && t.finisher == s.finisher
  {
  }

  lemma AcceptorCancels(s: Sys, ok: bool)
    requires AcceptorEnabled(s, ok)
    ensures
      var t, pc := AcceptorNext(s, ok), s.acceptor;
      && (pc == BusyShutdown(CancelContext) ==> t.acceptor == BusyShutdown(CloseListener))
      && (t.m.cancelled && !s.m.cancelled ==> t.acceptor == BusyShutdown(CancelContext))
  {
  }

  lemma FinisherShutsDown(s: Sys, first: bool)
    requires FinisherEnabled(s, first) && ShutdownOk(s)
    ensures ShutdownOk(FinisherNext(s, first))
  {
    FinisherSignals(s, first);
    FinisherAlone(s, first);
    FinisherStops(s, first);
    assert Carries(s, FinisherNext(s, first));
  }

  lemma FinisherSignals(s: Sys, first: bool)
    requires FinisherEnabled(s, first)
    ensures
      var t, pc := FinisherNext(s, first), s.finisher;
      if pc.Stopping? then t.sig == Signal(s.sig, pc.left)
      else t.sig.ctxDone == s.sig.ctxDone && t.sig.listenerClosed == s.sig.listenerClosed
  {
  }

  lemma FinisherAlone(s: Sys, first: bool)
    requires FinisherEnabled(s, first)
    ensures FinisherNext(s, first).p == s.p && FinisherNext(s, first).acceptor == s.acceptor
  {
  }

  lemma FinisherStops(s: Sys, first: bool)
    requires FinisherEnabled(s, first)
    ensures
      var t, pc := FinisherNext(s, first), s.finisher;
      && (t.finisher == Stopping(CloseListener) <==> pc == Stopping(CancelContext))
      && (StoppedBy(t.finisher) <==> StoppedBy(pc) || pc == Stopping(CloseListener))
      && (t.m.cancelled && !s.m.cancelled ==> t.finisher == Stopping(CancelContext))
  {
  }

  lemma UiShutsDown(s: Sys, e: Step)
    requires Enabled(s, e) && FromUi(e) && ShutdownOk(s) && forall k :: k in s.p.callers ==> k < s.p.nextCall
    ensures ShutdownOk(Next(s, e))
  {
    var t := Next(s, e);
    UiSignals(s, e);
    if k :| k in s.p.callers && s.p.callers[k] == CallShutdown(CancelContext) {
      assert k in t.p.callers && t.p.callers[k] == CallShutdown(CancelContext);
    }
    if k :| k in s.p.callers && s.p.callers[k] == CallShutdown(CloseListener) {
      assert k in t.p.callers && t.p.callers[k] == CallShutdown(CloseListener);
    }
    assert Carries(s, t);
  }

  lemma UiSignals(s: Sys, e: Step)
    requires Enabled(s, e) && FromUi(e) && forall k :: k in s.p.callers ==> k < s.p.nextCall
    ensures
      var t, n := Next(s, e), s.p.nextCall;
      && SameSignals(s, t, e.ParentCancels?)
      && t.p.handlers == s.p.handlers && t.acceptor == s.acceptor && t.finisher == s.finisher
      && (forall k :: k in s.p.callers ==> k in t.p.callers && t.p.callers[k] == s.p.callers[k])
      && (t.m.cancelled && !s.m.cancelled ==> n in t.p.callers && t.p.callers[n] == CallShutdown(CancelContext))
  {
    if e.RespondPassword? {
      PasswordSignals(s, e.id, e.password);
    }
  }

  lemma PasswordSignals(s: Sys, id: RequestId, password: seq<Byte>)
    requires forall k :: k in s.p.callers ==> k < s.p.nextCall
    ensures
      var t := Responded(s, id, password);
      && t.sig == s.sig && t.m.cancelled == s.m.cancelled
      && t.p.handlers == s.p.handlers && t.acceptor == s.acceptor && t.finisher == s.finisher
      && (forall k :: k in s.p.callers ==> k in t.p.callers && t.p.callers[k] == s.p.callers[k])
  {
  }

  predicate SameSignals(s: Sys, t: Sys, done: bool) {
    t.sig == if done then s.sig.(ctxDone := true) else s.sig
  }

  lemma StarterShutsDown(s: Sys, ok: bool)
    requires Control(s) && StarterEnabled(s) && ShutdownOk(s)
    ensures ShutdownOk(StarterNext(s, ok))
  {
    StarterSignals(s, ok);
    StarterFinishes(s, ok);
    StarterFailsInOrder(s, ok);
    StarterAlone(s, ok);
    assert Carries(s, StarterNext(s, ok));
  }

  lemma StarterSignals(s: Sys, ok: bool)
    requires Control(s) && StarterEnabled(s)
    ensures
      var t := StarterNext(s, ok);
      && (s.sig.ctxDone ==> t.sig.ctxDone) && (s.sig.listenerClosed ==> t.sig.listenerClosed)
      && (s.starter.FailShutdown? ==> t.sig == Signal(s.sig, s.starter.left))
  {
    if s.starter.FailShutdown? {
      assert StarterNext(s, ok).sig == Signal(s.sig, s.starter.left);
    }
  }

  // A start that fails cancels the context before it closes the listener, and goes on
  // only then.
  lemma StarterFailsInOrder(s: Sys, ok: bool)
    requires StarterEnabled(s)
    ensures
      var t := StarterNext(s, ok);
      && (t.starter == FailShutdown(CloseListener) ==> s.starter == FailShutdown(CancelContext))
      && (FailsAfter(t.starter) ==> FailsAfter(s.starter) || s.starter == FailShutdown(CloseListener))
  {
  }

  lemma StarterFinishes(s: Sys, ok: bool)
    requires Control(s) && StarterEnabled(s)
    ensures
      var t := StarterNext(s, ok);
      t.finisher == s.finisher || (s.finisher.NoFinisher? && t.finisher.Selecting?)
  {
  }

  lemma StarterAlone(s: Sys, ok: bool)
    requires Control(s) && StarterEnabled(s)
    ensures
      var t := StarterNext(s, ok);
      && t.p == s.p && t.m == s.m
      && (forall left :: t.acceptor == BusyShutdown(left) <==> s.acceptor == BusyShutdown(left))
  {
  }

  lemma WaiterShutsDown(s: Sys, err: Option<string>)
    requires WaiterEnabled(s) && ShutdownOk(s)
    ensures ShutdownOk(WaiterNext(s, err))
  {
    assert Carries(s, WaiterNext(s, err));
  }

  lemma StepShutsDown(s: Sys, e: Step)
    requires Inv(s) && Enabled(s, e) && ShutdownOk(s)
    ensures ShutdownOk(Next(s, e))
  {
    match e
    case HandlerStep(c, move) => HandlerShutsDown(s, c, move);
    case CallerStep(k, ok) => CallerShutsDown(s, k, ok);
    case AcceptorStep(ok) => AcceptorShutsDown(s, ok);
    case FinisherStep(first) => FinisherShutsDown(s, first);
    case StarterStep(ok) => StarterShutsDown(s, ok);
    case WaiterStep(err) => WaiterShutsDown(s, err);
    case _ =>
      assert CallersOk(ExchOf(s));
      UiShutsDown(s, e);
  }

  lemma {:induction false} RunShutsDown(s: Sys, steps: seq<Step>, t: Sys)
    requires Inv(s) && ShutdownOk(s) && Follows(s, steps, t)
    ensures ShutdownOk(t)
    decreases |steps|
  {
    if steps != [] {
      StepKeepsInv(s, steps[0]);
      StepShutsDown(s, steps[0]);
      RunShutsDown(Next(s, steps[0]), steps[1..], t);
    }
  }

  // A cancelled job, whoever cancelled it and for whatever reason, has its context
  // cancelled and its listener closed, or somebody is about to; and nothing of the
  // cleanup begins before both.
  lemma CancellationShutsDown(identityOk: bool, steps: seq<Step>, s: Sys)
    requires Reachable(identityOk, steps, s)
    ensures s.m.cancelled ==>
              && (s.sig.ctxDone || Pending(s, CancelContext))
              && (s.sig.listenerClosed || Pending(s, CancelContext) || Pending(s, CloseListener))
    ensures s.starter.Failed? ==> s.sig.ctxDone && s.sig.listenerClosed
    ensures (CleaningUp(s.finisher) && !s.finisher.Stopping?) || s.m.finalized ==> s.sig.ctxDone && s.sig.listenerClosed
  {
    ReachableInv(identityOk, steps, s);
    InitInv(identityOk);
    RunShutsDown(Init(identityOk), steps, s);
  }

  // ---- what cancels a job ----

  // A goroutine at this point of the state fails the authentication, or the finisher has
  // found the context over and no such failure.
  predicate CancelsByItself(s: Sys, e: Step) {
    match e
    case HandlerStep(c, _) => c in s.p.handlers && s.p.handlers[c].Failing?
    case AcceptorStep(_) => s.acceptor.FailingBusy?
    case CallerStep(k, _) => k in s.p.callers && s.p.callers[k].CallFailing?
    case FinisherStep(_) => s.finisher.Marking? && !s.m.authFailed && !s.m.authTimedOut
    case _ => false
  }

  // The UI cancels the job, or the prompt whose request is the active one.
  predicate CancelsByUi(s: Sys, e: Step) {
    || e.CancelJob?
    || (e.CancelPassword? && s.m.active.Some? && s.m.active.value.id == e.id)
  }

  lemma HandlerLatches(s: Sys, c: Conn, move: HandlerMove)
    requires HandlerEnabled(s, c, move)
    ensures HandlerNext(s, c, move).m.cancelled <==> s.m.cancelled || s.p.handlers[c].Failing?
  {
    if Meets(s.p.handlers[c]) {
      MeetSignals(s, c, move);
    } else if Serves(s.p.handlers[c]) {
      ServeSignals(s, c, move);
    }
  }

  lemma AcceptorLatches(s: Sys, ok: bool)
    requires AcceptorEnabled(s, ok)
    ensures AcceptorNext(s, ok).m.cancelled <==> s.m.cancelled || s.acceptor.FailingBusy?
  {
  }

  lemma CallerLatches(s: Sys, k: nat, ok: bool)
    requires k in s.p.callers
    ensures CallerNext(s, k, ok).m.cancelled <==> s.m.cancelled || s.p.callers[k].CallFailing?
  {
  }

  lemma FinisherLatches(s: Sys, first: bool)
    requires FinisherEnabled(s, first)
    ensures FinisherNext(s, first).m.cancelled <==> s.m.cancelled || CancelsByItself(s, FinisherStep(first))
  {
  }

  // The cancel latch rises exactly there.
  lemma CancelledExactly(s: Sys, e: Step)
    requires Inv(s) && Enabled(s, e)
    ensures Next(s, e).m.cancelled <==> s.m.cancelled || CancelsByUi(s, e) || CancelsByItself(s, e)
  {
    match e
    case HandlerStep(c, move) => HandlerLatches(s, c, move);
    case AcceptorStep(ok) => AcceptorLatches(s, ok);
    case CallerStep(k, ok) => CallerLatches(s, k, ok);
    case FinisherStep(first) => FinisherLatches(s, first);
    case StarterStep(ok) => StarterShared(s, ok);
    case _ =>
  }

  // ---- the result ----

  // The moment the result is published it tells exactly the latches, hides the child's
  // error behind any of them and otherwise is the child's own, and calls the cleanup
  // clean only if the child was reaped, the workers ended, and every other check passed.
  lemma ResultTells(identityOk: bool, steps: seq<Step>, s: Sys, e: Step)
    requires Reachable(identityOk, steps, s) && Enabled(s, e) && Next(s, e).m.finalized && !s.m.finalized
    ensures
      var r, m := Next(s, e).m.result, s.m;
      && r.authFailed == m.authFailed && r.authTimedOut == m.authTimedOut
      && r.cancelled == (m.cancelled && !m.authFailed && !m.authTimedOut)
      && (if m.cancelled then r.err == None else s.exit == Some(r.err))
      && e.FinisherStep? && s.finisher.Finalizing?
      && (r.cleanupErr <==> !s.finisher.childWaited || !s.finisher.stopped || !e.first)
  {
    ReachableInv(identityOk, steps, s);
    StepKeepsInv(s, e);
    if !e.FinisherStep? {
      OnlyTheFinisherPublishes(s, e);
    }
  }

  lemma OnlyTheFinisherPublishes(s: Sys, e: Step)
    requires Inv(s) && Enabled(s, e) && !e.FinisherStep?
    ensures Next(s, e).m.finalized == s.m.finalized
  {
    match e
    case StarterStep(ok) => StarterShared(s, ok);
    case WaiterStep(err) =>
    case _ => OthersKeep(s, e);
  }

  // ---- a whole run ----

  ghost predicate Arrives(s: Sys) {
    exists steps :: Reachable(true, steps, s)
  }

  lemma {:induction false} FollowsStep(s: Sys, steps: seq<Step>, t: Sys, e: Step)
    requires Follows(s, steps, t) && Enabled(t, e)
    ensures Follows(s, steps + [e], Next(t, e))
    decreases |steps|
  {
    if steps != [] {
      FollowsStep(Next(s, steps[0]), steps[1..], t, e);
      assert (steps + [e])[1..] == steps[1..] + [e];
    } else {
      assert steps + [e] == [e];
    }
  }

  lemma Take(s: Sys, e: Step) returns (t: Sys)
    requires Arrives(s) && Enabled(s, e)
    ensures Arrives(t) && t == Next(s, e)
  {
    var steps :| Reachable(true, steps, s);
    FollowsStep(Init(true), steps, s, e);
    t := Next(s, e);
    assert Reachable(true, steps + [e], t);
  }

  const NOBODY := Peers(map[], map[], 0, 0, {}, {}, map[], map[], map[])
  const RUNNING := Signals(false, false, true, true, false, false, false)

  // The child runs, the finisher waits, and the acceptor listens.
  const READY :=
    Sys(FRESH, Workers(2, true, false, 0, false), NOBODY, RUNNING, Returned, Accepting, AwaitingExit, Selecting,
        true, true, None)

  lemma ChildStarts() returns (s: Sys)
    ensures Arrives(s)
    ensures
      s == READY.(w := Workers(1, false, false, 0, false), sig := RUNNING.(processReady := false),
                  starter := PublishingReady, waiter := NoWaiter, finisher := NoFinisher)
  {
    assert Reachable(true, [], Init(true));
    s := Take(Init(true), StarterStep(true));
    s := Take(s, AcceptorStep(true));
    s := Take(s, StarterStep(true));
    s := Take(s, StarterStep(true));
  }

  lemma JobStarts() returns (s: Sys)
    ensures Arrives(s) && s == READY
  {
    s := ChildStarts();
    s := Take(s, StarterStep(true));
    s := Take(s, StarterStep(true));
    s := Take(s, StarterStep(true));
    s := Take(s, StarterStep(true));
  }

  // A connection is admitted and asks for a password.
  lemma SudoAsks(id: RequestId, chain: set<int>) returns (s: Sys)
    ensures Arrives(s)
    ensures
      s == READY.(w := Workers(3, true, false, 0, false), m := FRESH.(live := Some(0)),
                  p := Peers(map[0 := Activating(Request(id, 0), chain)], map[], 1, 0, {}, {0}, map[], map[], map[]))
  {
    s := JobStarts();
    s := Take(s, AcceptorStep(true));
    s := Take(s, AcceptorStep(true));
    s := Take(s, AcceptorStep(true));
    s := Take(s, HandlerStep(0, ReadRequest(id)));
    s := Take(s, HandlerStep(0, Proceed));
    s := Take(s, HandlerStep(0, EvidenceVerified(chain)));
    assert s.p.handlers == map[0 := Activating(Request(id, 0), chain)];
  }

  function Delivered(id: RequestId, password: seq<Byte>): seq<Frame> {
    [Frame(PASSWORD, id, password)]
  }

  // The UI answers, the password is written, and the handler goes.
  lemma UiAnswers(id: RequestId, password: seq<Byte>, chain: set<int>) returns (s: Sys)
    requires |password| <= MAX_PASSWORD_BYTES && ValidUtf8(password)
    ensures Arrives(s)
    ensures
      s == READY.(w := Workers(3, true, false, 0, false), m := FRESH.(known := chain),
                  p := Peers(map[0 := Leaving], map[], 1, 1, {0}, {0}, map[0 := Request(id, 0)],
                             map[0 := ByPassword], map[0 := Delivered(id, password)]))
  {
    s := SudoAsks(id, chain);
    s := Take(s, HandlerStep(0, Proceed));
    s := Take(s, HandlerStep(0, EventTaken));
    s := Take(s, RespondPassword(id, password));
    s := Take(s, CallerStep(0, true));
    assert s.p.frames[0] == Delivered(id, password);
    s := Take(s, CallerStep(0, true));
    s := Take(s, HandlerStep(0, AnswerSeen));
    assert s.p.handlers == map[0 := Leaving] && s.p.callers == map[];
    assert s.p.frames == map[0 := Delivered(id, password)] && s.m.known == chain;
  }

  // The child succeeds and the job is cleaned up behind it.
  lemma ADelivery(id: RequestId, password: seq<Byte>, chain: set<int>) returns (s: Sys)
    requires |password| <= MAX_PASSWORD_BYTES && ValidUtf8(password)
    ensures Arrives(s) && s.finisher.Finished? && s.sig.done && s.w.closed
    ensures FramesOf(s.p, 0) == [Frame(PASSWORD, id, password)]
    ensures s.m.result == Result(None, false, false, false, false) && s.m.known == chain
  {
    s := UiAnswers(id, password, chain);
    s := Take(s, HandlerStep(0, Proceed));
    s := Take(s, HandlerStep(0, Proceed));
    s := ChildExits(s);
    s := CleanupRuns(s);
  }

  ghost predicate HandlersGone(s: Sys, known: set<int>, p: Peers) {
    s == READY.(w := Workers(2, true, false, 0, false), m := FRESH.(known := known), p := p)
  }

  lemma ChildExits(s: Sys) returns (t: Sys)
    requires Arrives(s) && HandlersGone(s, s.m.known, s.p)
    ensures Arrives(t)
    ensures
      t == s.(w := Workers(1, true, false, 0, false), waiter := WaiterGone, exit := Some(None),
              sig := RUNNING.(childDone := true))
  {
    t := Take(s, WaiterStep(None));
    t := Take(t, WaiterStep(None));
    t := Take(t, WaiterStep(None));
    t := Take(t, WaiterStep(None));
  }

  lemma CleanupRuns(s: Sys) returns (t: Sys)
    requires Arrives(s) && s.finisher.Selecting? && s.acceptor.Accepting? && s.sig == RUNNING.(childDone := true)
    requires s.w == Workers(1, true, false, 0, false) && s.m == FRESH.(known := s.m.known)
    ensures Arrives(t) && t.finisher.Finished? && t.sig.done && t.w.closed && t.p == s.p
    ensures t.m.result == Result(None, false, false, false, false) && t.m.known == s.m.known
  {
    t := Take(s, FinisherStep(true));
    t := Take(t, FinisherStep(true));
    t := Take(t, FinisherStep(true));
    t := Take(t, AcceptorStep(false));
    t := Take(t, AcceptorStep(true));
    t := Take(t, FinisherStep(true));
    t := Take(t, FinisherStep(true));
    t := ResultComes(t);
  }

  lemma ResultComes(s: Sys) returns (t: Sys)
    requires Arrives(s) && s.finisher == Snapshotting(true, true) && s.m == FRESH.(known := s.m.known)
    ensures Arrives(t) && t.finisher.Finished? && t.sig.done && t.w == s.w && t.p == s.p
    ensures t.m.result == Result(None, false, false, false, false) && t.m.known == s.m.known
  {
    t := Take(s, FinisherStep(true));
    t := Take(t, FinisherStep(true));
    t := Take(t, FinisherStep(true));
    t := Take(t, FinisherStep(true));
  }

  // A whole run in which the child cannot be started: the context is cancelled, the
  // listener closed, nobody is left waiting for the child, and the workers end.
  lemma AFailedStart() returns (s: Sys)
    ensures Arrives(s) && s.starter.Failed? && !s.childUp && s.w.closed
    ensures s.sig.ctxDone && s.sig.listenerClosed && s.sig.processReady
  {
    s := StartFails();
    s := Take(s, AcceptorStep(false));
    s := Take(s, AcceptorStep(true));
  }

  lemma StartFails() returns (s: Sys)
    ensures Arrives(s) && s.starter.Failed? && s.acceptor.Accepting? && !s.childUp
    ensures s.sig.ctxDone && s.sig.listenerClosed && s.sig.processReady && s.w == Workers(1, true, false, 0, false)
  {
    s := ChildFails();
    s := Take(s, StarterStep(true));
    s := Take(s, StarterStep(true));
    s := Take(s, StarterStep(true));
    s := Take(s, StarterStep(true));
  }

  lemma ChildFails() returns (s: Sys)
    ensures Arrives(s) && s.starter == FailShutdown(CancelContext) && s.acceptor.Accepting? && !s.childUp
    ensures s.w == Workers(1, false, false, 0, false)
  {
    assert Reachable(true, [], Init(true));
    s := Take(Init(true), StarterStep(true));
    s := Take(s, AcceptorStep(true));
    s := Take(s, StarterStep(true));
    s := Take(s, StarterStep(false));
  }
}
