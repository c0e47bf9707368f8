// Every interleaving of one privileged job's goroutines
// (internal/privileged/privileged.go).
//
// One step is one critical section, one channel operation, or one call whose
// outcome the program does not control. Timers, tickers, evidence, network
// outcomes, and parent cancellation are choices of the step.

module JobSystem {
  import opened Packages
  import opened Protocol
  import opened Bytes
  import opened Monitor

  // What is left of a shutdown: cancel the context, then close the listener.
  datatype Shutdown = CancelContext | CloseListener

  datatype StarterPc =
    | SpawningAcceptor | AwaitingAcceptor | StartingChild
    | PublishingReady | SpawningWaiter | Arming | SpawningFinisher | Returned
    | FailShutdown(left: Shutdown) | FailReady | FailArming | Failed

  datatype AcceptorPc =
    | NoAcceptor | Signalling | Accepting | Admitting(conn: Conn) | Spawning(conn: Conn)
    | FailingBusy | BusyShutdown(left: Shutdown) | AcceptorLeaving | AcceptorGone

  datatype Reason = ContextOver | Expired | PeerLost

  datatype HandlerPc =
    | Reading
    | AwaitingReady(id: RequestId)
    | Gathering(id: RequestId)
    | Refusing(id: RequestId)
    | Activating(r: Request, chain: set<int>)
    | Answering(r: Request, typ: Byte)
    | Announcing(r: Request)
    | Waiting(r: Request)
    | Choosing(r: Request)
    | Taking(r: Request, typ: Byte, reason: Reason)
    | Responding(r: Request, typ: Byte, reason: Reason)
    | Failing(timeout: bool)
    | Closing(left: Shutdown)
    | Leaving
    | Exiting

  datatype HandlerMove =
    | ReadRequest(id: RequestId) | ReadFails
    | Proceed
    | EvidenceVerified(chain: set<int>) | EvidenceRefused
    | EventTaken | ContextSeen | TimerFires | PeerSeenLost | AnswerSeen

  datatype WaiterPc = NoWaiter | AwaitingExit | Recording(err: Option<string>) | Notifying | WaiterLeaving | WaiterGone

  datatype FinisherPc =
    | NoFinisher | Selecting | Marking | Stopping(left: Shutdown)
    | AwaitingChild | AwaitingWorkers(childWaited: bool)
    | Snapshotting(childWaited: bool, stopped: bool)
    | Finalizing(childWaited: bool, stopped: bool, known: set<int>)
    | ClosingEvents(stopped: bool) | ClosingDone | Finished

  // A call from the UI in progress.
  datatype CallerPc =
    | Sending(r: Request, password: seq<Byte>)
    | Releasing(r: Request, failed: bool)
    | CallFailing
    | CallShutdown(left: Shutdown)

  datatype Claimer = ByPassword | ByHandler

  // One-way signals: the job context, the listener, and the channels that are
  // only ever closed.
  datatype Signals = Signals(
    ctxDone: bool,
    listenerClosed: bool,
    acceptorReady: bool,
    processReady: bool,
    childDone: bool,
    eventsClosed: bool,
    done: bool)

  // The exchange with peers and with the UI. The last four fields are history:
  // the connections whose evidence was verified, every request ever made active
  // and who took it back, and the frames attempted on each connection.
  datatype Peers = Peers(
    handlers: map<Conn, HandlerPc>,
    callers: map<nat, CallerPc>,
    nextConn: Conn,
    nextCall: nat,
    answered: set<Conn>,
    verified: set<Conn>,
    activated: map<Conn, Request>,
    claims: map<Conn, Claimer>,
    frames: map<Conn, seq<Frame>>)

  // `exit` is history: what the child's Wait returned.
  datatype Sys = Sys(
    m: Shared,
    w: Workers,
    p: Peers,
    sig: Signals,
    starter: StarterPc,
    acceptor: AcceptorPc,
    waiter: WaiterPc,
    finisher: FinisherPc,
    childUp: bool,
    identityOk: bool,
    exit: Option<Option<string>>)

  function Init(identityOk: bool): Sys {
    Sys(FRESH, NO_WORKERS, Peers(map[], map[], 0, 0, {}, {}, map[], map[], map[]),
        Signals(false, false, false, false, false, false, false),
        SpawningAcceptor, NoAcceptor, NoWaiter, NoFinisher, false, identityOk, None)
  }

  datatype Step =
    | StarterStep(ok: bool)
    | AcceptorStep(ok: bool)
    | HandlerStep(conn: Conn, move: HandlerMove)
    | WaiterStep(err: Option<string>)
    | FinisherStep(first: bool)
    | CallerStep(call: nat, ok: bool)
    | RespondPassword(id: RequestId, password: seq<Byte>)
    | CancelPassword(id: RequestId)
    | CancelJob
    | ParentCancels

  function FramesOf(p: Peers, c: Conn): seq<Frame> {
    if c in p.frames then p.frames[c] else []
  }

  function Attempt(p: Peers, c: Conn, f: Frame): Peers {
    p.(frames := p.frames[c := FramesOf(p, c) + [f]])
  }

  // request.respond: at most one terminal frame, then the request is done.
  function Respond(p: Peers, r: Request, typ: Byte, payload: seq<Byte>): Peers {
    if r.conn in p.answered then p
    else Attempt(p, r.conn, Frame(typ, r.id, payload)).(answered := p.answered + {r.conn})
  }

  // A handler moves on.
  function Go(p: Peers, c: Conn, pc: HandlerPc): Peers {
    p.(handlers := p.handlers[c := pc])
  }

  function Call(p: Peers, pc: CallerPc): Peers {
    p.(callers := p.callers[p.nextCall := pc], nextCall := p.nextCall + 1)
  }

  function Signal(sig: Signals, left: Shutdown): Signals {
    match left
    case CancelContext => sig.(ctxDone := true)
    case CloseListener => sig.(listenerClosed := true)
  }

  // ---- Start ----

  function StarterNext(s: Sys, ok: bool): Sys
    requires StarterEnabled(s)
  {
    match s.starter
    case SpawningAcceptor => s.(w := StartWorker(s.w), acceptor := Signalling, starter := AwaitingAcceptor)
    case AwaitingAcceptor => s.(starter := StartingChild)
    case StartingChild =>
      if ok then s.(childUp := true, starter := PublishingReady)
      else s.(starter := FailShutdown(CancelContext))
    case PublishingReady => s.(sig := s.sig.(processReady := true), starter := SpawningWaiter)
    case SpawningWaiter => s.(w := StartWorker(s.w), waiter := AwaitingExit, starter := Arming)
    case Arming => s.(w := ArmWorkers(s.w), starter := SpawningFinisher)
    case SpawningFinisher => s.(finisher := Selecting, starter := Returned)
    case FailShutdown(left) =>
      s.(sig := Signal(s.sig, left), starter := if left.CancelContext? then FailShutdown(CloseListener) else FailReady)
    case FailReady => s.(sig := s.sig.(processReady := true), starter := FailArming)
    case FailArming => s.(w := ArmWorkers(s.w), starter := Failed)
    case Returned => s
    case Failed => s
  }

  predicate StarterEnabled(s: Sys) {
    && (s.starter.AwaitingAcceptor? ==> s.sig.acceptorReady)
    && !s.starter.Returned? && !s.starter.Failed?
  }

  // ---- acceptLoop ----

  // `ok` is the outcome of accepting; a closed listener always fails.
  function AcceptorNext(s: Sys, ok: bool): Sys
    requires AcceptorEnabled(s, ok)
  {
    match s.acceptor
    case Signalling => s.(sig := s.sig.(acceptorReady := true), acceptor := Accepting)
    case Accepting =>
      if ok then s.(acceptor := Admitting(s.p.nextConn), p := s.p.(nextConn := s.p.nextConn + 1))
      else s.(acceptor := AcceptorLeaving)
    case Admitting(c) =>
      var (m, admitted) := Admit(s.m, c);
      s.(m := m, acceptor := if admitted then Spawning(c) else FailingBusy)
    case Spawning(c) => s.(w := StartWorker(s.w), p := Go(s.p, c, Reading), acceptor := Accepting)
    case FailingBusy => s.(m := Fail(s.m, false), acceptor := BusyShutdown(CancelContext))
    case BusyShutdown(left) =>
      s.(sig := Signal(s.sig, left), acceptor := if left.CancelContext? then BusyShutdown(CloseListener) else Accepting)
    case AcceptorLeaving => s.(w := FinishWorker(s.w), acceptor := AcceptorGone)
    case NoAcceptor => s
    case AcceptorGone => s
  }

  predicate AcceptorEnabled(s: Sys, ok: bool) {
    && !s.acceptor.NoAcceptor? && !s.acceptor.AcceptorGone?
    && (s.acceptor.Accepting? && s.sig.listenerClosed ==> !ok)
  }

  // ---- handleConnection ----

  predicate HandlerEnabled(s: Sys, c: Conn, move: HandlerMove) {
    c in s.p.handlers &&
    match s.p.handlers[c]
    case Reading => move.ReadRequest? || move.ReadFails?
    case AwaitingReady(_) => move.Proceed? && s.sig.processReady
    case Gathering(_) => move.EvidenceVerified? || move.EvidenceRefused?
    case Announcing(_) => move.EventTaken? || (move.ContextSeen? && s.sig.ctxDone)
    case Waiting(r) =>
      || move.TimerFires? || move.PeerSeenLost?
      || (move.ContextSeen? && s.sig.ctxDone)
      || (move.AnswerSeen? && r.conn in s.p.answered)
    case _ => move.Proceed?
  }

  predicate Meets(pc: HandlerPc) {
    pc.Reading? || pc.AwaitingReady? || pc.Gathering? || pc.Refusing? || pc.Activating? || pc.Answering?
  }

  predicate Serves(pc: HandlerPc) {
    pc.Announcing? || pc.Waiting? || pc.Choosing? || pc.Taking? || pc.Responding?
  }

  function HandlerNext(s: Sys, c: Conn, move: HandlerMove): Sys
    requires HandlerEnabled(s, c, move)
  {
    var pc := s.p.handlers[c];
    if Meets(pc) then Meet(s, c, move)
    else if Serves(pc) then Serve(s, c, move)
    else if pc.Exiting? then Exit(s, c)
    else Part(s, c)
  }

  // From the first byte to activation or refusal.
  function Meet(s: Sys, c: Conn, move: HandlerMove): Sys
    requires HandlerEnabled(s, c, move) && Meets(s.p.handlers[c])
  {
    var (m, p) :=
      match s.p.handlers[c]
      case Reading => (s.m, Go(s.p, c, if move.ReadRequest? then AwaitingReady(move.id) else Failing(false)))
      case AwaitingReady(id) =>
        (s.m, Go(s.p, c, if s.childUp && s.identityOk then Gathering(id) else Refusing(id)))
      case Gathering(id) =>
        if move.EvidenceVerified?
        then (s.m, Go(s.p, c, Activating(Request(id, c), move.chain)).(verified := s.p.verified + {c}))
        else (s.m, Go(s.p, c, Refusing(id)))
      case Refusing(id) => (s.m, Go(Attempt(s.p, c, Frame(ERROR, id, [])), c, Failing(false)))
      case Activating(r, chain) =>
        var (m', refusal) := Activate(s.m, r, chain);
        (m',
         if refusal.Some? then Go(s.p, c, Answering(r, refusal.value))
         else Go(s.p, c, Announcing(r)).(activated := s.p.activated[c := r]))
      case Answering(r, typ) => (s.m, Go(Respond(s.p, r, typ, []), c, Leaving));
    s.(m := m, p := p)
  }

  // While the request is active, and the handler's attempt to take it back.
  function Serve(s: Sys, c: Conn, move: HandlerMove): Sys
    requires HandlerEnabled(s, c, move) && Serves(s.p.handlers[c])
  {
    var (m, p) :=
      match s.p.handlers[c]
      case Announcing(r) => (s.m, Go(s.p, c, if move.EventTaken? then Waiting(r) else Choosing(r)))
      case Waiting(r) =>
        (s.m,
         Go(s.p, c,
            if move.TimerFires? then Taking(r, ERROR, Expired)
            else if move.PeerSeenLost? then Taking(r, ERROR, PeerLost)
            else if move.ContextSeen? then Choosing(r)
            else Leaving))
      case Choosing(r) => (s.m, Go(s.p, c, Taking(r, TerminalType(s.m), ContextOver)))
      case Taking(r, typ, reason) =>
        var (m', owned) := TakeBack(s.m, r);
        (m',
         if owned then Go(s.p, c, Responding(r, typ, reason)).(claims := s.p.claims[c := ByHandler])
         else Go(s.p, c, if reason.PeerLost? then Waiting(r) else Leaving))
      case Responding(r, typ, reason) => (s.m, Go(Respond(s.p, r, typ, []), c, After(reason)));
    s.(m := m, p := p)
  }

  function After(reason: Reason): HandlerPc {
    match reason
    case ContextOver => Leaving
    case Expired => Failing(true)
    case PeerLost => Failing(false)
  }

  // failAuthentication and the deferred close.
  function Part(s: Sys, c: Conn): Sys
    requires c in s.p.handlers
    requires s.p.handlers[c].Failing? || s.p.handlers[c].Closing? || s.p.handlers[c].Leaving?
  {
    var (m, sig, pc) :=
      match s.p.handlers[c]
      case Failing(timeout) => (Fail(s.m, timeout), s.sig, Closing(CancelContext))
      case Closing(left) =>
        (s.m, Signal(s.sig, left), if left.CancelContext? then Closing(CloseListener) else Leaving)
      case Leaving => (ReleaseLive(s.m, c), s.sig, Exiting);
    s.(m := m, sig := sig, p := Go(s.p, c, pc))
  }

  function Exit(s: Sys, c: Conn): Sys {
    s.(w := FinishWorker(s.w), p := s.p.(handlers := s.p.handlers - {c}))
  }

  // ---- waitChild ----

  predicate WaiterEnabled(s: Sys) {
    !s.waiter.NoWaiter? && !s.waiter.WaiterGone?
  }

  function WaiterNext(s: Sys, err: Option<string>): Sys
    requires WaiterEnabled(s)
  {
    match s.waiter
    case AwaitingExit => s.(exit := Some(err), waiter := Recording(err))
    case Recording(e) => s.(m := RecordExit(s.m, e), waiter := Notifying)
    case Notifying => s.(sig := s.sig.(childDone := true), waiter := WaiterLeaving)
    case WaiterLeaving => s.(w := FinishWorker(s.w), waiter := WaiterGone)
    case NoWaiter => s
    case WaiterGone => s
  }

  // ---- finish and cleanup ----

  // `first` selects the child branch, a wait that completed before its deadline,
  // or, when finalizing, that every other check of the cleanup passed.
  predicate FinisherEnabled(s: Sys, first: bool) {
    match s.finisher
    case Selecting => if first then s.sig.childDone else s.sig.ctxDone
    case AwaitingChild => first ==> s.sig.childDone
    case AwaitingWorkers(_) => first ==> s.w.closed
    case NoFinisher => false
    case Finished => false
    case _ => true
  }

  function FinisherNext(s: Sys, first: bool): Sys
    requires FinisherEnabled(s, first)
  {
    match s.finisher
    case Selecting => s.(finisher := if first then Stopping(CancelContext) else Marking)
    case Marking => s.(m := ContextEnded(s.m), finisher := Stopping(CancelContext))
    case Stopping(left) =>
      s.(sig := Signal(s.sig, left), finisher := if left.CancelContext? then Stopping(CloseListener) else AwaitingChild)
    case AwaitingChild => s.(finisher := AwaitingWorkers(first))
    case AwaitingWorkers(childWaited) => s.(finisher := Snapshotting(childWaited, first))
    case Snapshotting(childWaited, stopped) => s.(finisher := Finalizing(childWaited, stopped, s.m.known))
    case Finalizing(childWaited, stopped, _) =>
      s.(m := Finalize(s.m, !childWaited || !stopped || !first), finisher := ClosingEvents(stopped))
    case ClosingEvents(stopped) => s.(sig := s.sig.(eventsClosed := stopped), finisher := ClosingDone)
    case ClosingDone => s.(sig := s.sig.(done := true), finisher := Finished)
    case NoFinisher => s
    case Finished => s
  }

  // ---- calls from the UI ----

  function CallAt(p: Peers, k: nat, pc: CallerPc): Peers {
    p.(callers := p.callers[k := pc])
  }

  function CallEnds(p: Peers, k: nat): Peers {
    p.(callers := p.callers - {k})
  }

  function CallerNext(s: Sys, k: nat, ok: bool): Sys
    requires k in s.p.callers
  {
    var (m, sig, p) :=
      match s.p.callers[k]
      case Sending(r, password) =>
        var failed := !ok && r.conn !in s.p.answered;
        (s.m, s.sig, CallAt(Respond(s.p, r, PASSWORD, password), k, Releasing(r, failed)))
      case Releasing(r, failed) =>
        (ReleaseLive(s.m, r.conn), s.sig, if failed then CallAt(s.p, k, CallFailing) else CallEnds(s.p, k))
      case CallFailing => (Fail(s.m, false), s.sig, CallAt(s.p, k, CallShutdown(CancelContext)))
      case CallShutdown(left) =>
        (s.m, Signal(s.sig, left),
         if left.CancelContext? then CallAt(s.p, k, CallShutdown(CloseListener)) else CallEnds(s.p, k));
    s.(m := m, sig := sig, p := p)
  }

  // A password is refused untouched when it is oversized, malformed, or no longer
  // asked for.
  function Responded(s: Sys, id: RequestId, password: seq<Byte>): Sys {
    if |password| > MAX_PASSWORD_BYTES || !ValidUtf8(password) then s
    else
      var (m, r) := Claim(s.m, id, s.sig.ctxDone);
      match r
      case None => s
      case Some(request) =>
        s.(m := m, p := Call(s.p, Sending(request, password)).(claims := s.p.claims[request.conn := ByPassword]))
  }

  function CancelledPassword(s: Sys, id: RequestId): Sys {
    var (m, found) := CancelRequest(s.m, id);
    if found then s.(m := m, p := Call(s.p, CallShutdown(CancelContext))) else s
  }

  predicate Enabled(s: Sys, e: Step) {
    match e
    case StarterStep(_) => StarterEnabled(s)
    case AcceptorStep(ok) => AcceptorEnabled(s, ok)
    case HandlerStep(c, move) => HandlerEnabled(s, c, move)
    case WaiterStep(_) => WaiterEnabled(s)
    case FinisherStep(first) => FinisherEnabled(s, first)
    case CallerStep(k, _) => k in s.p.callers
    // The UI holds the job only once Start has returned it.
    case RespondPassword(_, _) => s.starter.Returned?
    case CancelPassword(_) => s.starter.Returned?
    case CancelJob => s.starter.Returned?
    case ParentCancels => true
  }

  function Next(s: Sys, e: Step): Sys
    requires Enabled(s, e)
  {
    match e
    case StarterStep(ok) => StarterNext(s, ok)
    case AcceptorStep(ok) => AcceptorNext(s, ok)
    case HandlerStep(c, move) => HandlerNext(s, c, move)
    case WaiterStep(err) => WaiterNext(s, err)
    case FinisherStep(first) => FinisherNext(s, first)
    case CallerStep(k, ok) => CallerNext(s, k, ok)
    case RespondPassword(id, password) => Responded(s, id, password)
    case CancelPassword(id) => CancelledPassword(s, id)
    case CancelJob => s.(m := MarkCancelled(s.m), p := Call(s.p, CallShutdown(CancelContext)))
    case ParentCancels => s.(sig := s.sig.(ctxDone := true))
  }

  ghost predicate Follows(s: Sys, steps: seq<Step>, t: Sys)
    decreases |steps|
  {
    if steps == [] then t == s
    else Enabled(s, steps[0]) && Follows(Next(s, steps[0]), steps[1..], t)
  }
}
