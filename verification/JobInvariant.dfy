// The inductive invariant of the job's interleavings.

module JobInvariant {
  import opened Packages
  import opened Protocol
  import opened Bytes
  import opened Monitor
  import opened JobSystem

  function Alive(b: bool): nat {
    if b then 1 else 0
  }

  predicate ArmedPoint(pc: StarterPc) {
    pc.SpawningFinisher? || pc.Returned? || pc.Failed?
  }

  predicate AcceptorAlive(pc: AcceptorPc) {
    !pc.NoAcceptor? && !pc.AcceptorGone?
  }

  predicate WaiterAlive(pc: WaiterPc) {
    !pc.NoWaiter? && !pc.WaiterGone?
  }

  function LiveWorkers(s: Sys): nat {
    Alive(AcceptorAlive(s.acceptor)) + Alive(WaiterAlive(s.waiter)) + |s.p.handlers|
  }

  // The worker count is the number of live workers, and the pool is done exactly
  // when it is armed and empty.
  predicate Pooled(w: Workers, armed: bool, live: nat) {
    && w.count == live
    && w.armed == armed
    && w.closed == (armed && live == 0)
    && w.closings == Alive(w.closed)
    && !w.panicked
  }

  ghost predicate Counted(s: Sys) {
    Pooled(s.w, ArmedPoint(s.starter), LiveWorkers(s))
  }

  // Which goroutines exist at each point of Start, and what the finisher has seen.
  ghost predicate Control(s: Sys) {
    && (s.starter.SpawningAcceptor? <==> s.acceptor.NoAcceptor?)
    && (s.waiter.NoWaiter? <==> !(s.starter.Arming? || s.starter.SpawningFinisher? || s.starter.Returned?))
    && (s.finisher.NoFinisher? <==> !s.starter.Returned?)
    && (s.m.finalized <==> s.finisher.ClosingEvents? || s.finisher.ClosingDone? || s.finisher.Finished?)
    && (s.sig.done <==> s.finisher.Finished?)
    && (s.sig.eventsClosed ==> s.w.closed)
    && (s.finisher.Snapshotting? && s.finisher.stopped ==> s.w.closed)
    && (s.finisher.ClosingEvents? && s.finisher.stopped ==> s.w.closed)
    && (s.finisher.Finalizing? && s.finisher.stopped ==> s.w.closed && s.finisher.known == s.m.known)
  }

  // The part of the state that says who owns the exchange. The acceptor matters
  // only while it holds a connection that has no handler yet.
  datatype Exch = Exch(active: Option<Request>, live: Option<Conn>, acceptor: AcceptorPc, p: Peers)

  function Holding(pc: AcceptorPc): AcceptorPc {
    if pc.Admitting? || pc.Spawning? then pc else Accepting
  }

  function ExchOf(s: Sys): Exch {
    Exch(s.m.active, s.m.live, Holding(s.acceptor), s.p)
  }

  ghost predicate Fresh(x: Exch, c: Conn) {
    c !in x.p.activated && c !in x.p.claims && c !in x.p.answered && FramesOf(x.p, c) == []
  }

  // The handler is past activation and has not given its request up.
  predicate Tracks(pc: HandlerPc, r: Request) {
    match pc
    case Announcing(r') => r' == r
    case Waiting(r') => r' == r
    case Choosing(r') => r' == r
    case Taking(r', _, _) => r' == r
    case _ => false
  }

  ghost predicate Tracked(x: Exch, c: Conn, r: Request) {
    && r.conn == c && c in x.p.activated && x.p.activated[c] == r
    && (if c in x.p.claims then x.p.claims[c] == ByPassword
        else x.active == Some(r) && x.live == Some(c) && c !in x.p.answered && FramesOf(x.p, c) == [])
  }

  predicate Refusal(typ: Byte) {
    typ == ERROR || typ == CANCEL
  }

  ghost predicate HandlerOk(x: Exch, c: Conn)
    requires c in x.p.handlers
  {
    match x.p.handlers[c]
    case Reading => x.live == Some(c) && Fresh(x, c)
    case AwaitingReady(_) => x.live == Some(c) && Fresh(x, c)
    case Gathering(_) => x.live == Some(c) && Fresh(x, c)
    case Refusing(_) => x.live == Some(c) && Fresh(x, c)
    case Activating(r, _) => r.conn == c && c in x.p.verified && x.live == Some(c) && Fresh(x, c)
    case Answering(r, typ) => r.conn == c && Fresh(x, c) && Refusal(typ)
    case Announcing(r) => Tracked(x, c, r)
    case Waiting(r) => Tracked(x, c, r)
    case Choosing(r) => Tracked(x, c, r)
    case Taking(r, typ, _) => Tracked(x, c, r) && Refusal(typ)
    case Responding(r, typ, _) =>
      && r.conn == c && c in x.p.claims && x.p.claims[c] == ByHandler
      && c !in x.p.answered && FramesOf(x.p, c) == [] && Refusal(typ)
    case Exiting => (c in x.p.activated ==> c in x.p.claims) && x.live != Some(c)
    case _ => c in x.p.activated ==> c in x.p.claims
  }

  ghost predicate HandlersOk(x: Exch) {
    forall c :: c in x.p.handlers ==> c < x.p.nextConn && HandlerOk(x, c)
  }

  // Who owns the exchange.
  ghost predicate Owned(x: Exch) {
    && (x.active.Some? ==>
          var r := x.active.value;
          && x.live == Some(r.conn)
          && r.conn in x.p.handlers && Tracks(x.p.handlers[r.conn], r)
          && r.conn in x.p.activated && x.p.activated[r.conn] == r && r.conn !in x.p.claims)
    && (x.live.Some? ==>
          var c := x.live.value;
          (c in x.p.handlers && !x.p.handlers[c].Exiting?) || x.acceptor == Spawning(c))
    && (x.acceptor.Admitting? || x.acceptor.Spawning? ==>
          var c := x.acceptor.conn;
          c < x.p.nextConn && c !in x.p.handlers && Fresh(x, c))
    && (x.acceptor.Spawning? ==> x.live == Some(x.acceptor.conn))
  }

  // One connection's record: at most one frame, which the protocol accepts, and a
  // password only on a verified, activated request that the UI claimed.
  ghost predicate FrameOk(x: Exch, c: Conn) {
    && |FramesOf(x.p, c)| <= 1
    && (FramesOf(x.p, c) != [] ==>
          var f := FramesOf(x.p, c)[0];
          && c < x.p.nextConn && Sendable(f)
          && (f.typ == PASSWORD ==>
                c in x.p.claims && x.p.claims[c] == ByPassword && c in x.p.activated && f.id == x.p.activated[c].id))
  }

  ghost predicate Recorded(x: Exch) {
    && (forall c :: FrameOk(x, c))
    && (forall c :: c in x.p.verified || c in x.p.answered ==> c < x.p.nextConn)
    && (forall c :: c in x.p.activated ==>
          && c < x.p.nextConn && c in x.p.verified && x.p.activated[c].conn == c
          && (c in x.p.claims || x.active == Some(x.p.activated[c])))
    && (forall c :: c in x.p.claims ==> c in x.p.activated)
  }

  ghost predicate CallerOk(x: Exch, k: nat)
    requires k in x.p.callers
  {
    match x.p.callers[k]
    case Sending(r, password) =>
      && r.conn in x.p.activated && x.p.activated[r.conn] == r
      && r.conn in x.p.claims && x.p.claims[r.conn] == ByPassword
      && r.conn !in x.p.answered && FramesOf(x.p, r.conn) == []
      && Sendable(Frame(PASSWORD, r.id, password))
    case Releasing(r, _) => r.conn in x.p.claims
    case _ => true
  }

  ghost predicate CallersOk(x: Exch) {
    && (forall k :: k in x.p.callers ==> k < x.p.nextCall && CallerOk(x, k))
    && (forall k, l :: k in x.p.callers && l in x.p.callers && k != l && x.p.callers[k].Sending? && x.p.callers[l].Sending? ==>
          x.p.callers[k].r.conn != x.p.callers[l].r.conn)
  }

  ghost predicate Exchange(x: Exch) {
    HandlersOk(x) && Owned(x) && Recorded(x) && CallersOk(x)
  }

  predicate Flagged(r: Result) {
    r.cancelled || r.authFailed || r.authTimedOut
  }

  predicate CleaningUp(pc: FinisherPc) {
    pc.Stopping? || pc.AwaitingChild? || pc.AwaitingWorkers? || pc.Snapshotting? || pc.Finalizing?
  }

  // The child's exit reaches the result until the result is final.
  ghost predicate ExitOk(s: Sys) {
    && Consistent(s.m)
    && (s.exit.None? <==> s.waiter.NoWaiter? || s.waiter.AwaitingExit?)
    && (s.waiter.Recording? ==> s.exit == Some(s.waiter.err))
    && ((s.waiter.Notifying? || s.waiter.WaiterLeaving? || s.waiter.WaiterGone?) && !s.m.finalized ==>
          s.exit == Some(s.m.result.err))
    && (s.sig.childDone <==> s.waiter.WaiterLeaving? || s.waiter.WaiterGone?)
  }

  // What the finisher relies on, and what a final result therefore means.
  ghost predicate FinishOk(s: Sys) {
    && (CleaningUp(s.finisher) ==> s.sig.childDone || s.m.cancelled)
    && (s.finisher.AwaitingWorkers? && s.finisher.childWaited ==> s.sig.childDone)
    && (s.finisher.Snapshotting? && s.finisher.childWaited ==> s.sig.childDone)
    && (s.finisher.Finalizing? && s.finisher.childWaited ==> s.sig.childDone)
    && (s.m.finalized && !Flagged(s.m.result) ==> s.exit == Some(s.m.result.err))
    && (s.m.finalized && !s.m.result.cleanupErr ==> s.sig.childDone && s.w.closed)
  }

  ghost predicate Inv(s: Sys) {
    Counted(s) && Control(s) && Exchange(ExchOf(s)) && ExitOk(s) && FinishOk(s)
  }

  lemma InitInv(identityOk: bool)
    ensures Inv(Init(identityOk))
  {
  }

  // ---- Start, waitChild, finish: the exchange is untouched ----

  lemma StarterCounted(s: Sys, ok: bool)
    requires Counted(s) && Control(s) && StarterEnabled(s)
    ensures Counted(StarterNext(s, ok))
  {
  }

  lemma StarterControl(s: Sys, ok: bool)
    requires Counted(s) && Control(s) && StarterEnabled(s)
    ensures Control(StarterNext(s, ok)) && ExchOf(StarterNext(s, ok)) == ExchOf(s)
  {
    StarterAside(s, ok);
    if s.starter.FailShutdown? || s.starter.FailReady? || s.starter.FailArming? {
      StarterFails(s, ok);
    }
  }

  lemma StarterFails(s: Sys, ok: bool)
    requires Counted(s) && Control(s)
    requires s.starter.FailShutdown? || s.starter.FailReady? || s.starter.FailArming?
    ensures Control(StarterNext(s, ok))
  {
  }

  lemma StarterAside(s: Sys, ok: bool)
    requires Control(s) && StarterEnabled(s)
    ensures ExchOf(StarterNext(s, ok)) == ExchOf(s)
  {
  }

  lemma StarterResult(s: Sys, ok: bool)
    requires Counted(s) && Control(s) && ExitOk(s) && FinishOk(s) && StarterEnabled(s)
    ensures ExitOk(StarterNext(s, ok)) && FinishOk(StarterNext(s, ok))
  {
  }

  lemma WaiterCounted(s: Sys, err: Option<string>)
    requires Counted(s) && Control(s) && WaiterEnabled(s)
    ensures Counted(WaiterNext(s, err))
  {
  }

  lemma WaiterControl(s: Sys, err: Option<string>)
    requires Counted(s) && Control(s) && WaiterEnabled(s)
    ensures Control(WaiterNext(s, err)) && ExchOf(WaiterNext(s, err)) == ExchOf(s)
  {
  }

  lemma WaiterResult(s: Sys, err: Option<string>)
    requires Counted(s) && Control(s) && ExitOk(s) && FinishOk(s) && WaiterEnabled(s)
    ensures ExitOk(WaiterNext(s, err)) && FinishOk(WaiterNext(s, err))
  {
  }

  lemma FinisherCounted(s: Sys, first: bool)
    requires FinisherEnabled(s, first)
    ensures Counted(FinisherNext(s, first)) == Counted(s)
  {
  }

  lemma FinisherControl(s: Sys, first: bool)
    requires Counted(s) && Control(s) && FinisherEnabled(s, first)
    ensures Control(FinisherNext(s, first)) && ExchOf(FinisherNext(s, first)) == ExchOf(s)
  {
    FinisherAside(s, first);
  }

  lemma FinisherAside(s: Sys, first: bool)
    requires FinisherEnabled(s, first)
    ensures ExchOf(FinisherNext(s, first)) == ExchOf(s)
  {
  }

  lemma FinisherExit(s: Sys, first: bool)
    requires Control(s) && ExitOk(s) && FinisherEnabled(s, first)
    ensures ExitOk(FinisherNext(s, first))
  {
  }

  lemma FinisherFinish(s: Sys, first: bool)
    requires Control(s) && ExitOk(s) && FinishOk(s) && FinisherEnabled(s, first)
    ensures FinishOk(FinisherNext(s, first))
  {
  }

  // ---- the exchange ----

  // What a step that touches no frame, claim, or activation keeps.
  lemma SameRecord(x: Exch, y: Exch)
    requires Recorded(x) && y.active == x.active && y.p.nextConn == x.p.nextConn && y.p.frames == x.p.frames
    requires y.p.claims == x.p.claims && y.p.activated == x.p.activated && x.p.verified <= y.p.verified
    requires forall c :: c in y.p.verified || c in y.p.answered ==> c < y.p.nextConn
    ensures Recorded(y)
  {
    assert forall d :: FramesOf(y.p, d) == FramesOf(x.p, d);
    assert forall d :: FrameOk(x, d) ==> FrameOk(y, d);
  }

  lemma SameCallers(x: Exch, y: Exch)
    requires CallersOk(x) && y.p.callers == x.p.callers && y.p.nextCall == x.p.nextCall && y.p.frames == x.p.frames
    requires y.p.claims == x.p.claims && forall c :: c in x.p.activated ==> c in y.p.activated && y.p.activated[c] == x.p.activated[c]
    requires forall c :: c in y.p.answered && FramesOf(x.p, c) == [] ==> c in x.p.answered
    ensures CallersOk(y)
  {
    assert forall d :: FramesOf(y.p, d) == FramesOf(x.p, d);
    assert forall k :: k in x.p.callers && CallerOk(x, k) ==> CallerOk(y, k);
  }

  // A handler that only moves on keeps the exchange, if its new point is sound
  // and it does not walk away from what it owns.
  lemma MovesOn(x: Exch, c: Conn, pc: HandlerPc)
    requires Exchange(x) && c in x.p.handlers
    requires x.active.Some? && x.active.value.conn == c ==> Tracks(pc, x.active.value)
    requires pc.Exiting? ==> x.live != Some(c)
    requires HandlerOk(x.(p := Go(x.p, c, pc)), c)
    ensures Exchange(x.(p := Go(x.p, c, pc)))
  {
    var y := x.(p := Go(x.p, c, pc));
    SameRecord(x, y);
    SameCallers(x, y);
    MovesHandlers(x, c, pc);
  }

  lemma MovesHandlers(x: Exch, c: Conn, pc: HandlerPc)
    requires HandlersOk(x) && c in x.p.handlers && HandlerOk(x.(p := Go(x.p, c, pc)), c)
    ensures HandlersOk(x.(p := Go(x.p, c, pc)))
  {
    var y := x.(p := Go(x.p, c, pc));
    assert forall d :: FramesOf(y.p, d) == FramesOf(x.p, d);
    assert forall d :: d in x.p.handlers && d != c && HandlerOk(x, d) ==> HandlerOk(y, d);
  }

  // A handler about to attempt the one frame of its connection.
  ghost predicate MayAttempt(x: Exch, c: Conn, f: Frame) {
    && c in x.p.handlers && FramesOf(x.p, c) == [] && c !in x.p.answered && c < x.p.nextConn
    && Sendable(f) && f.typ != PASSWORD
    && (x.p.handlers[c].Refusing? || x.p.handlers[c].Answering? || x.p.handlers[c].Responding?)
    && (c in x.p.claims ==> x.p.claims[c] == ByHandler)
  }

  ghost function Attempted(x: Exch, c: Conn, f: Frame): Exch {
    x.(p := Go(Attempt(x.p, c, f), c, Failing(false)))
  }

  lemma AttemptHandlers(x: Exch, c: Conn, f: Frame)
    requires HandlersOk(x) && Owned(x) && Recorded(x) && MayAttempt(x, c, f)
    ensures HandlersOk(Attempted(x, c, f)) && Owned(Attempted(x, c, f))
  {
    var y := Attempted(x, c, f);
    assert forall d :: d != c ==> FramesOf(y.p, d) == FramesOf(x.p, d);
    assert forall d :: d in x.p.handlers && d != c && HandlerOk(x, d) ==> HandlerOk(y, d);
  }

  lemma AttemptRecord(x: Exch, c: Conn, f: Frame)
    requires Recorded(x) && MayAttempt(x, c, f)
    ensures Recorded(Attempted(x, c, f))
  {
    var y := Attempted(x, c, f);
    assert FramesOf(y.p, c) == [f];
    assert forall d :: d != c ==> FramesOf(y.p, d) == FramesOf(x.p, d);
    assert forall d :: FrameOk(x, d) ==> FrameOk(y, d);
  }

  lemma AttemptCallers(x: Exch, c: Conn, f: Frame)
    requires CallersOk(x) && MayAttempt(x, c, f)
    ensures CallersOk(Attempted(x, c, f))
  {
    var y := Attempted(x, c, f);
    assert forall d :: d != c ==> FramesOf(y.p, d) == FramesOf(x.p, d);
    assert forall k :: k in x.p.callers && CallerOk(x, k) ==> CallerOk(y, k);
  }

  lemma Attempts(x: Exch, c: Conn, f: Frame)
    requires Exchange(x) && MayAttempt(x, c, f)
    ensures Exchange(Attempted(x, c, f))
  {
    AttemptHandlers(x, c, f);
    AttemptRecord(x, c, f);
    AttemptCallers(x, c, f);
  }

  // Closing a request's done channel once its frame was attempted.
  lemma Answers(x: Exch, c: Conn)
    requires Exchange(x) && c in x.p.handlers && x.p.handlers[c].Failing? && FramesOf(x.p, c) != []
    ensures Exchange(x.(p := x.p.(answered := x.p.answered + {c})))
  {
    var y := x.(p := x.p.(answered := x.p.answered + {c}));
    SameRecord(x, y);
    SameCallers(x, y);
    assert forall d :: FramesOf(y.p, d) == FramesOf(x.p, d);
    assert forall d :: d in x.p.handlers && HandlerOk(x, d) ==> HandlerOk(y, d);
  }

  // Activation: no other request can be active, so only the cancelled flag can
  // refuse it.
  lemma ActivationFindsNone(x: Exch, c: Conn)
    requires HandlersOk(x) && Owned(x) && c in x.p.handlers && x.p.handlers[c].Activating?
    ensures x.active == None && x.p.handlers[c].r.conn == c
  {
  }

  ghost function Activated(x: Exch, c: Conn, r: Request): Exch {
    x.(active := Some(r), p := Go(x.p, c, Announcing(r)).(activated := x.p.activated[c := r]))
  }

  lemma ActivatesHandlers(x: Exch, c: Conn)
    requires Exchange(x) && c in x.p.handlers && x.p.handlers[c].Activating?
    ensures var y := Activated(x, c, x.p.handlers[c].r); HandlersOk(y) && Owned(y)
  {
    ActivationFindsNone(x, c);
    var y := Activated(x, c, x.p.handlers[c].r);
    assert forall d :: FramesOf(y.p, d) == FramesOf(x.p, d);
    assert forall d :: d in x.p.handlers && d != c && HandlerOk(x, d) ==> HandlerOk(y, d);
  }

  lemma ActivatesRecord(x: Exch, c: Conn)
    requires Exchange(x) && c in x.p.handlers && x.p.handlers[c].Activating?
    ensures Recorded(Activated(x, c, x.p.handlers[c].r))
  {
    ActivationFindsNone(x, c);
    var y := Activated(x, c, x.p.handlers[c].r);
    assert forall d :: FramesOf(y.p, d) == FramesOf(x.p, d);
    assert forall d :: FrameOk(x, d) ==> FrameOk(y, d);
  }

  lemma Activates(x: Exch, c: Conn)
    requires Exchange(x) && c in x.p.handlers && x.p.handlers[c].Activating?
    ensures Exchange(Activated(x, c, x.p.handlers[c].r))
  {
    ActivatesHandlers(x, c);
    ActivatesRecord(x, c);
    SameCallers(x, Activated(x, c, x.p.handlers[c].r));
  }

  ghost function TakenBack(x: Exch, c: Conn, pc: HandlerPc): Exch {
    x.(active := None, p := Go(x.p, c, pc).(claims := x.p.claims[c := ByHandler]))
  }

  lemma TakesBackHandlers(x: Exch, c: Conn)
    requires Exchange(x) && c in x.p.handlers && x.p.handlers[c].Taking?
    requires x.active == Some(x.p.handlers[c].r)
    ensures
      var pc := x.p.handlers[c];
      var y := TakenBack(x, c, Responding(pc.r, pc.typ, pc.reason));
      HandlersOk(y) && Owned(y)
  {
    var pc := x.p.handlers[c];
    var y := TakenBack(x, c, Responding(pc.r, pc.typ, pc.reason));
    assert forall d :: FramesOf(y.p, d) == FramesOf(x.p, d);
    assert forall d :: d in x.p.handlers && d != c && HandlerOk(x, d) ==> HandlerOk(y, d);
  }

  lemma TakesBack(x: Exch, c: Conn)
    requires Exchange(x) && c in x.p.handlers && x.p.handlers[c].Taking?
    requires x.active == Some(x.p.handlers[c].r)
    ensures var pc := x.p.handlers[c]; Exchange(TakenBack(x, c, Responding(pc.r, pc.typ, pc.reason)))
  {
    TakesBackHandlers(x, c);
    var pc := x.p.handlers[c];
    var y := TakenBack(x, c, Responding(pc.r, pc.typ, pc.reason));
    assert HandlerOk(x, c);
    assert forall d :: FramesOf(y.p, d) == FramesOf(x.p, d);
    assert forall d :: FrameOk(x, d) ==> FrameOk(y, d);
    assert forall k :: k in x.p.callers && CallerOk(x, k) ==> CallerOk(y, k);
  }

  ghost function Released(x: Exch, c: Conn): Exch {
    x.(live := if x.live == Some(c) then None else x.live)
  }

  // Letting go of a connection whose request, if any, was already claimed.
  lemma Releases(x: Exch, c: Conn)
    requires Exchange(x)
    requires x.acceptor != Spawning(c)
    requires c in x.p.claims || (c in x.p.handlers && x.p.handlers[c].Leaving?)
    ensures Exchange(Released(x, c))
  {
    var y := Released(x, c);
    assert forall d :: d in x.p.handlers && HandlerOk(x, d) ==> HandlerOk(y, d);
    assert forall d :: FrameOk(x, d) ==> FrameOk(y, d);
    assert forall k :: k in x.p.callers && CallerOk(x, k) ==> CallerOk(y, k);
  }

  lemma Exits(x: Exch, c: Conn)
    requires Exchange(x) && c in x.p.handlers && x.p.handlers[c].Exiting?
    ensures Exchange(x.(p := x.p.(handlers := x.p.handlers - {c})))
  {
    var y := x.(p := x.p.(handlers := x.p.handlers - {c}));
    assert forall d :: FramesOf(y.p, d) == FramesOf(x.p, d);
    assert forall d :: d in y.p.handlers && HandlerOk(x, d) ==> HandlerOk(y, d);
    SameRecord(x, y);
    SameCallers(x, y);
  }

  // ---- the acceptor ----

  lemma Accepts(x: Exch)
    requires Exchange(x) && x.acceptor.Accepting?
    ensures Exchange(x.(acceptor := Admitting(x.p.nextConn), p := x.p.(nextConn := x.p.nextConn + 1)))
  {
    var y := x.(acceptor := Admitting(x.p.nextConn), p := x.p.(nextConn := x.p.nextConn + 1));
    assert FrameOk(x, x.p.nextConn);
    assert forall d :: FramesOf(y.p, d) == FramesOf(x.p, d);
    assert forall d :: d in x.p.handlers && HandlerOk(x, d) ==> HandlerOk(y, d);
    assert forall d :: FrameOk(x, d) ==> FrameOk(y, d);
    assert forall k :: k in x.p.callers && CallerOk(x, k) ==> CallerOk(y, k);
  }

  lemma Admits(x: Exch, admitted: bool)
    requires Exchange(x) && x.acceptor.Admitting?
    requires admitted ==> x.live.None? && x.active.None?
    ensures
      var c := x.acceptor.conn;
      Exchange(if admitted then x.(live := Some(c), acceptor := Spawning(c)) else x.(acceptor := Accepting))
  {
    var c := x.acceptor.conn;
    var y := if admitted then x.(live := Some(c), acceptor := Spawning(c)) else x.(acceptor := Accepting);
    assert forall d :: d in x.p.handlers && HandlerOk(x, d) ==> HandlerOk(y, d);
    assert forall d :: FrameOk(x, d) ==> FrameOk(y, d);
    assert forall k :: k in x.p.callers && CallerOk(x, k) ==> CallerOk(y, k);
  }

  lemma Spawns(x: Exch)
    requires Exchange(x) && x.acceptor.Spawning?
    ensures
      var c := x.acceptor.conn;
      Exchange(x.(acceptor := Accepting, p := Go(x.p, c, Reading))) && c !in x.p.handlers
  {
    var c := x.acceptor.conn;
    var y := x.(acceptor := Accepting, p := Go(x.p, c, Reading));
    assert forall d :: FramesOf(y.p, d) == FramesOf(x.p, d);
    assert forall d :: d in x.p.handlers && HandlerOk(x, d) ==> HandlerOk(y, d);
    assert forall d :: FrameOk(x, d) ==> FrameOk(y, d);
    assert forall k :: k in x.p.callers && CallerOk(x, k) ==> CallerOk(y, k);
  }

  // ---- calls from the UI ----

  lemma CallMoves(x: Exch, y: Exch)
    requires Exchange(x) && y == x.(p := x.p.(callers := y.p.callers, nextCall := y.p.nextCall))
    requires CallersOk(y)
    ensures Exchange(y)
  {
    assert forall d :: FramesOf(y.p, d) == FramesOf(x.p, d);
    assert forall d :: d in x.p.handlers && HandlerOk(x, d) ==> HandlerOk(y, d);
    assert forall d :: FrameOk(x, d) ==> FrameOk(y, d);
  }

  ghost function Claimed(x: Exch, password: seq<Byte>): Exch
    requires x.active.Some?
  {
    var r := x.active.value;
    x.(active := None, p := Call(x.p, Sending(r, password)).(claims := x.p.claims[r.conn := ByPassword]))
  }

  lemma ClaimHandlers(x: Exch, password: seq<Byte>)
    requires HandlersOk(x) && Owned(x) && Recorded(x) && x.active.Some?
    ensures HandlersOk(Claimed(x, password)) && Owned(Claimed(x, password)) && Recorded(Claimed(x, password))
  {
    var y := Claimed(x, password);
    assert forall d :: FramesOf(y.p, d) == FramesOf(x.p, d);
    assert forall d :: d in x.p.handlers && HandlerOk(x, d) ==> HandlerOk(y, d);
    assert forall d :: FrameOk(x, d) ==> FrameOk(y, d);
  }

  lemma ClaimCallers(x: Exch, password: seq<Byte>)
    requires Exchange(x) && x.active.Some?
    requires |password| <= MAX_PASSWORD_BYTES && ValidUtf8(password)
    ensures CallersOk(Claimed(x, password))
  {
    var y := Claimed(x, password);
    var r := x.active.value;
    assert HandlerOk(x, r.conn);
    assert forall d :: FramesOf(y.p, d) == FramesOf(x.p, d);
    assert forall k :: k in x.p.callers && CallerOk(x, k) ==> CallerOk(y, k);
  }

  ghost function Sent(x: Exch, k: nat, failed: bool): Exch
    requires k in x.p.callers && x.p.callers[k].Sending?
  {
    var pc := x.p.callers[k];
    x.(p := CallAt(Respond(x.p, pc.r, PASSWORD, pc.password), k, Releasing(pc.r, failed)))
  }

  lemma SendHandlers(x: Exch, k: nat, failed: bool)
    requires Exchange(x) && k in x.p.callers && x.p.callers[k].Sending?
    ensures HandlersOk(Sent(x, k, failed)) && Owned(Sent(x, k, failed))
  {
    var y := Sent(x, k, failed);
    assert CallerOk(x, k);
    forall d | d in x.p.handlers
      ensures HandlerOk(y, d)
    {
      assert HandlerOk(x, d);
      SendHandler(x, k, failed, d);
    }
  }

  // The frame goes on a connection the UI has claimed, where no handler relies on
  // there being none.
  lemma SendHandler(x: Exch, k: nat, failed: bool, d: Conn)
    requires k in x.p.callers && x.p.callers[k].Sending? && CallerOk(x, k)
    requires d in x.p.handlers && HandlerOk(x, d)
    ensures HandlerOk(Sent(x, k, failed), d)
  {
    if d != x.p.callers[k].r.conn {
      assert FramesOf(Sent(x, k, failed).p, d) == FramesOf(x.p, d);
    }
  }

  lemma SendRecords(x: Exch, k: nat, failed: bool)
    requires Exchange(x) && k in x.p.callers && x.p.callers[k].Sending?
    ensures Recorded(Sent(x, k, failed)) && CallersOk(Sent(x, k, failed))
  {
    var y := Sent(x, k, failed);
    var pc := x.p.callers[k];
    assert CallerOk(x, k);
    assert FramesOf(y.p, pc.r.conn) == [Frame(PASSWORD, pc.r.id, pc.password)];
    assert forall d :: d != pc.r.conn ==> FramesOf(y.p, d) == FramesOf(x.p, d);
    assert forall d :: FrameOk(x, d) ==> FrameOk(y, d);
    assert forall l :: l in x.p.callers && l != k && CallerOk(x, l) ==> CallerOk(y, l);
  }

  // ---- every step keeps the invariant ----

  lemma Removed<K, V>(m: map<K, V>, k: K)
    requires k in m
    ensures |m - {k}| == |m| - 1
  {
    assert (m - {k}).Keys == m.Keys - {k};
  }

  // What a step outside Start, waitChild, and finish must respect for the rest of
  // the invariant to carry over.
  ghost predicate Aside(s: Sys, t: Sys) {
    && t.starter == s.starter && t.waiter == s.waiter && t.finisher == s.finisher && t.exit == s.exit
    && (t.acceptor.NoAcceptor? <==> s.acceptor.NoAcceptor?)
    && t.sig.childDone == s.sig.childDone && t.sig.eventsClosed == s.sig.eventsClosed && t.sig.done == s.sig.done
  }

  ghost predicate Lateral(s: Sys, t: Sys) {
    && Aside(s, t)
    && LatchesRise(s.m, t.m) && t.m.finalized == s.m.finalized && t.m.result == s.m.result
    && (s.w.closed ==> t.w.closed && t.m.known == s.m.known)
    && Consistent(t.m)
  }

  lemma LateralKeeps(s: Sys, t: Sys)
    requires Control(s) && ExitOk(s) && FinishOk(s) && Lateral(s, t)
    ensures Control(t) && ExitOk(t) && FinishOk(t)
  {
  }

  lemma AcceptorCounted(s: Sys, ok: bool)
    requires Counted(s) && AcceptorEnabled(s, ok)
    requires s.acceptor.Spawning? ==> s.acceptor.conn !in s.p.handlers
    ensures Counted(AcceptorNext(s, ok))
  {
    var t := AcceptorNext(s, ok);
    if s.acceptor.Spawning? {
      assert LiveWorkers(t) == LiveWorkers(s) + 1;
    } else if s.acceptor.AcceptorLeaving? {
      assert LiveWorkers(t) == LiveWorkers(s) - 1;
    } else {
      assert LiveWorkers(t) == LiveWorkers(s) && t.w == s.w;
    }
  }

  lemma AcceptorAside(s: Sys, ok: bool)
    requires AcceptorEnabled(s, ok)
    ensures Aside(s, AcceptorNext(s, ok))
  {
    if s.acceptor.Accepting? || s.acceptor.Admitting? || s.acceptor.Spawning? {
      AcceptorTakes(s, ok);
    }
  }

  lemma AcceptorTakes(s: Sys, ok: bool)
    requires AcceptorEnabled(s, ok) && (s.acceptor.Accepting? || s.acceptor.Admitting? || s.acceptor.Spawning?)
    ensures Aside(s, AcceptorNext(s, ok))
  {
  }

  lemma AcceptorLateral(s: Sys, ok: bool)
    requires Counted(s) && Consistent(s.m) && AcceptorEnabled(s, ok)
    ensures Lateral(s, AcceptorNext(s, ok))
  {
    AcceptorAside(s, ok);
    var t := AcceptorNext(s, ok);
    assert t.w == s.w || t.w == StartWorker(s.w) || t.w == FinishWorker(s.w);
    assert t.m == s.m || t.m == Fail(s.m, false) || (s.acceptor.Admitting? && t.m == Admit(s.m, s.acceptor.conn).0);
  }

  lemma AcceptorExchange(s: Sys, ok: bool)
    requires Exchange(ExchOf(s)) && AcceptorEnabled(s, ok)
    ensures Exchange(ExchOf(AcceptorNext(s, ok)))
    ensures s.acceptor.Spawning? ==> s.acceptor.conn !in s.p.handlers
  {
    var x, y := ExchOf(s), ExchOf(AcceptorNext(s, ok));
    if s.acceptor.Accepting? && ok {
      Accepts(x);
    } else if s.acceptor.Admitting? {
      Admits(x, Admit(s.m, s.acceptor.conn).1);
    } else if s.acceptor.Spawning? {
      Spawns(x);
    } else {
      AcceptorQuiet(s, ok);
    }
  }

  lemma AcceptorQuiet(s: Sys, ok: bool)
    requires AcceptorEnabled(s, ok) && !(s.acceptor.Accepting? && ok) && !s.acceptor.Admitting? && !s.acceptor.Spawning?
    ensures ExchOf(AcceptorNext(s, ok)) == ExchOf(s)
  {
  }

  // A handler between its first and its last point counts as one worker.
  lemma Stays(s: Sys, t: Sys, c: Conn)
    requires Counted(s) && c in s.p.handlers && c in t.p.handlers
    requires t.p.handlers == s.p.handlers[c := t.p.handlers[c]]
    requires t.w == s.w && t.starter == s.starter && t.acceptor == s.acceptor && t.waiter == s.waiter
    ensures Counted(t) && !s.w.closed
  {
    Removed(s.p.handlers, c);
  }

  // ---- before activation ----

  // A handler step that leaves every other goroutine and the pool alone.
  ghost predicate Quiet(s: Sys, t: Sys, c: Conn) {
    && Aside(s, t) && t.acceptor == s.acceptor && t.w == s.w
    && c in s.p.handlers && c in t.p.handlers
    && t.p.handlers == s.p.handlers[c := t.p.handlers[c]]
  }

  lemma MeetQuiet(s: Sys, c: Conn, move: HandlerMove)
    requires HandlerEnabled(s, c, move) && Meets(s.p.handlers[c])
    ensures Quiet(s, Meet(s, c, move), c)
  {
  }

  lemma MeetShared(s: Sys, c: Conn, move: HandlerMove)
    requires HandlerEnabled(s, c, move) && Meets(s.p.handlers[c]) && Consistent(s.m)
    ensures
      var m, n := s.m, Meet(s, c, move).m;
      Consistent(n) && LatchesRise(m, n) && n.finalized == m.finalized && n.result == m.result
  {
  }

  lemma MeetPool(s: Sys, c: Conn, move: HandlerMove)
    requires Counted(s) && Consistent(s.m) && HandlerEnabled(s, c, move) && Meets(s.p.handlers[c])
    ensures Counted(Meet(s, c, move)) && Lateral(s, Meet(s, c, move))
  {
    MeetQuiet(s, c, move);
    MeetShared(s, c, move);
    Stays(s, Meet(s, c, move), c);
  }

  lemma Verifies(x: Exch, c: Conn)
    requires Exchange(x) && c in x.p.handlers
    ensures Exchange(x.(p := x.p.(verified := x.p.verified + {c})))
  {
    var y := x.(p := x.p.(verified := x.p.verified + {c}));
    SameRecord(x, y);
    SameCallers(x, y);
    assert forall d :: FramesOf(y.p, d) == FramesOf(x.p, d);
    assert forall d :: d in x.p.handlers && HandlerOk(x, d) ==> HandlerOk(y, d);
  }

  // request.respond by the handler: the frame, the done channel, the next point.
  lemma Answered(x: Exch, c: Conn, r: Request, typ: Byte, pc: HandlerPc)
    requires Exchange(x) && r.conn == c && Refusal(typ) && MayAttempt(x, c, Frame(typ, r.id, []))
    requires pc.Leaving? || pc.Failing?
    ensures Exchange(x.(p := Go(Respond(x.p, r, typ, []), c, pc)))
  {
    var f := Frame(typ, r.id, []);
    Attempts(x, c, f);
    var a := Attempted(x, c, f);
    Answers(a, c);
    var b := a.(p := a.p.(answered := a.p.answered + {c}));
    MovesOn(b, c, pc);
    RespondsSo(x, c, r, typ, pc);
  }

  lemma RespondsSo(x: Exch, c: Conn, r: Request, typ: Byte, pc: HandlerPc)
    requires r.conn == c && c !in x.p.answered
    ensures
      var a := Attempted(x, c, Frame(typ, r.id, []));
      x.(p := Go(Respond(x.p, r, typ, []), c, pc)) == a.(p := Go(a.p.(answered := a.p.answered + {c}), c, pc))
  {
    assert x.p.handlers[c := Failing(false)][c := pc] == x.p.handlers[c := pc];
  }

  lemma MeetsEarly(s: Sys, c: Conn, move: HandlerMove)
    requires Exchange(ExchOf(s)) && HandlerEnabled(s, c, move)
    requires s.p.handlers[c].Reading? || s.p.handlers[c].AwaitingReady?
    ensures Exchange(ExchOf(Meet(s, c, move)))
  {
    var x, y := ExchOf(s), ExchOf(Meet(s, c, move));
    assert HandlerOk(x, c);
    assert y == x.(p := Go(x.p, c, y.p.handlers[c]));
    assert FramesOf(y.p, c) == FramesOf(x.p, c);
    MovesOn(x, c, y.p.handlers[c]);
  }

  lemma MeetsEvidence(s: Sys, c: Conn, move: HandlerMove)
    requires Exchange(ExchOf(s)) && HandlerEnabled(s, c, move) && s.p.handlers[c].Gathering?
    ensures Exchange(ExchOf(Meet(s, c, move)))
  {
    var x, y := ExchOf(s), ExchOf(Meet(s, c, move));
    assert HandlerOk(x, c);
    assert FramesOf(y.p, c) == FramesOf(x.p, c);
    if move.EvidenceVerified? {
      Verifies(x, c);
      MovesOn(x.(p := x.p.(verified := x.p.verified + {c})), c, y.p.handlers[c]);
    } else {
      MovesOn(x, c, y.p.handlers[c]);
    }
  }

  lemma MeetsActivation(s: Sys, c: Conn, move: HandlerMove)
    requires Exchange(ExchOf(s)) && HandlerEnabled(s, c, move) && s.p.handlers[c].Activating?
    ensures Exchange(ExchOf(Meet(s, c, move)))
  {
    var x, y := ExchOf(s), ExchOf(Meet(s, c, move));
    assert HandlerOk(x, c);
    ActivationFindsNone(x, c);
    if s.m.cancelled {
      assert FramesOf(y.p, c) == FramesOf(x.p, c);
      MovesOn(x, c, y.p.handlers[c]);
    } else {
      Activates(x, c);
    }
  }

  lemma MeetExchange(s: Sys, c: Conn, move: HandlerMove)
    requires Exchange(ExchOf(s)) && HandlerEnabled(s, c, move) && Meets(s.p.handlers[c])
    ensures Exchange(ExchOf(Meet(s, c, move)))
  {
    var x, pc := ExchOf(s), s.p.handlers[c];
    assert HandlerOk(x, c);
    if pc.Reading? || pc.AwaitingReady? {
      MeetsEarly(s, c, move);
    } else if pc.Gathering? {
      MeetsEvidence(s, c, move);
    } else if pc.Refusing? {
      Attempts(x, c, Frame(ERROR, pc.id, []));
    } else if pc.Activating? {
      MeetsActivation(s, c, move);
    } else {
      Answered(x, c, pc.r, pc.typ, Leaving);
    }
  }

  // ---- while the request is active ----

  lemma ServeQuiet(s: Sys, c: Conn, move: HandlerMove)
    requires HandlerEnabled(s, c, move) && Serves(s.p.handlers[c])
    ensures Quiet(s, Serve(s, c, move), c)
  {
  }

  lemma ServePool(s: Sys, c: Conn, move: HandlerMove)
    requires Counted(s) && Consistent(s.m) && HandlerEnabled(s, c, move) && Serves(s.p.handlers[c])
    ensures Counted(Serve(s, c, move)) && Lateral(s, Serve(s, c, move))
  {
    ServeQuiet(s, c, move);
    Stays(s, Serve(s, c, move), c);
    assert Serve(s, c, move).m == s.m || Serve(s, c, move).m == s.m.(active := None);
  }

  lemma ServesWaiting(s: Sys, c: Conn, move: HandlerMove)
    requires Exchange(ExchOf(s)) && HandlerEnabled(s, c, move)
    requires s.p.handlers[c].Announcing? || s.p.handlers[c].Waiting? || s.p.handlers[c].Choosing?
    ensures Exchange(ExchOf(Serve(s, c, move)))
  {
    var x := ExchOf(s);
    assert HandlerOk(x, c);
    ServesOn(s, c, move);
    MovesOn(x, c, Serve(s, c, move).p.handlers[c]);
  }

  lemma ServesOn(s: Sys, c: Conn, move: HandlerMove)
    requires HandlerEnabled(s, c, move) && HandlerOk(ExchOf(s), c) && Owned(ExchOf(s))
    requires s.p.handlers[c].Announcing? || s.p.handlers[c].Waiting? || s.p.handlers[c].Choosing?
    ensures
      var x, y := ExchOf(s), ExchOf(Serve(s, c, move));
      && c in y.p.handlers && y == x.(p := Go(x.p, c, y.p.handlers[c]))
      && HandlerOk(y, c) && !y.p.handlers[c].Exiting?
      && (x.active.Some? && x.active.value.conn == c ==> Tracks(y.p.handlers[c], x.active.value))
  {
    assert FramesOf(Serve(s, c, move).p, c) == FramesOf(s.p, c);
  }

  lemma ServesTaking(s: Sys, c: Conn, move: HandlerMove)
    requires Exchange(ExchOf(s)) && HandlerEnabled(s, c, move) && s.p.handlers[c].Taking?
    ensures Exchange(ExchOf(Serve(s, c, move)))
  {
    var x, y := ExchOf(s), ExchOf(Serve(s, c, move));
    assert HandlerOk(x, c);
    if TakeBack(s.m, s.p.handlers[c].r).1 {
      TakesBack(x, c);
    } else {
      assert FramesOf(y.p, c) == FramesOf(x.p, c);
      MovesOn(x, c, y.p.handlers[c]);
    }
  }

  lemma ServeExchange(s: Sys, c: Conn, move: HandlerMove)
    requires Exchange(ExchOf(s)) && HandlerEnabled(s, c, move) && Serves(s.p.handlers[c])
    ensures Exchange(ExchOf(Serve(s, c, move)))
  {
    var x, pc := ExchOf(s), s.p.handlers[c];
    assert HandlerOk(x, c);
    if pc.Taking? {
      ServesTaking(s, c, move);
    } else if pc.Responding? {
      Answered(x, c, pc.r, pc.typ, After(pc.reason));
    } else {
      ServesWaiting(s, c, move);
    }
  }

  // ---- on the way out ----

  predicate Parts(pc: HandlerPc) {
    pc.Failing? || pc.Closing? || pc.Leaving?
  }

  lemma PartQuiet(s: Sys, c: Conn)
    requires c in s.p.handlers && Parts(s.p.handlers[c])
    ensures Quiet(s, Part(s, c), c)
  {
  }

  lemma PartPool(s: Sys, c: Conn)
    requires Counted(s) && Consistent(s.m) && c in s.p.handlers && Parts(s.p.handlers[c])
    ensures Counted(Part(s, c)) && Lateral(s, Part(s, c))
  {
    PartQuiet(s, c);
    Stays(s, Part(s, c), c);
  }

  lemma PartsReleasing(s: Sys, c: Conn)
    requires Exchange(ExchOf(s)) && c in s.p.handlers && s.p.handlers[c].Leaving?
    ensures Exchange(ExchOf(Part(s, c)))
  {
    var x := ExchOf(s);
    assert HandlerOk(x, c);
    Releases(x, c);
    MovesOn(Released(x, c), c, Exiting);
    PartsSo(s, c);
  }

  lemma PartsSo(s: Sys, c: Conn)
    requires c in s.p.handlers && s.p.handlers[c].Leaving?
    ensures ExchOf(Part(s, c)) == Released(ExchOf(s), c).(p := Go(s.p, c, Exiting))
  {
  }

  lemma PartExchange(s: Sys, c: Conn)
    requires Exchange(ExchOf(s)) && c in s.p.handlers && Parts(s.p.handlers[c])
    ensures Exchange(ExchOf(Part(s, c)))
  {
    var x, y := ExchOf(s), ExchOf(Part(s, c));
    if s.p.handlers[c].Leaving? {
      PartsReleasing(s, c);
    } else {
      assert HandlerOk(x, c);
      MovesOn(x, c, y.p.handlers[c]);
    }
  }

  lemma ExitPool(s: Sys, c: Conn)
    requires Counted(s) && Consistent(s.m) && c in s.p.handlers
    ensures Counted(Exit(s, c)) && Lateral(s, Exit(s, c))
  {
    Removed(s.p.handlers, c);
    assert LiveWorkers(Exit(s, c)) == LiveWorkers(s) - 1;
  }

  lemma HandlerKeeps(s: Sys, c: Conn, move: HandlerMove)
    requires Counted(s) && Exchange(ExchOf(s)) && Consistent(s.m) && HandlerEnabled(s, c, move)
    ensures var t := HandlerNext(s, c, move); Counted(t) && Exchange(ExchOf(t)) && Lateral(s, t)
  {
    var pc := s.p.handlers[c];
    if Meets(pc) {
      MeetPool(s, c, move);
      MeetExchange(s, c, move);
    } else if Serves(pc) {
      ServePool(s, c, move);
      ServeExchange(s, c, move);
    } else if pc.Exiting? {
      ExitPool(s, c);
      Exits(ExchOf(s), c);
    } else {
      PartPool(s, c);
      PartExchange(s, c);
    }
  }

  // ---- calls from the UI ----

  lemma CallerPool(s: Sys, k: nat, ok: bool)
    requires Counted(s) && Consistent(s.m) && k in s.p.callers
    ensures var t := CallerNext(s, k, ok); Counted(t) && Lateral(s, t)
  {
    CallerCounted(s, k, ok);
    CallerLateral(s, k, ok);
  }

  lemma CallerCounted(s: Sys, k: nat, ok: bool)
    requires Counted(s) && k in s.p.callers
    ensures Counted(CallerNext(s, k, ok))
  {
    assert LiveWorkers(CallerNext(s, k, ok)) == LiveWorkers(s);
  }

  lemma CallerLateral(s: Sys, k: nat, ok: bool)
    requires Consistent(s.m) && k in s.p.callers
    ensures Lateral(s, CallerNext(s, k, ok))
  {
  }

  lemma CallerSends(s: Sys, k: nat, ok: bool)
    requires Exchange(ExchOf(s)) && k in s.p.callers && s.p.callers[k].Sending?
    ensures Exchange(ExchOf(CallerNext(s, k, ok)))
  {
    var failed := !ok && s.p.callers[k].r.conn !in s.p.answered;
    SendHandlers(ExchOf(s), k, failed);
    SendRecords(ExchOf(s), k, failed);
  }

  lemma CallerReleases(s: Sys, k: nat, ok: bool)
    requires Exchange(ExchOf(s)) && k in s.p.callers && s.p.callers[k].Releasing?
    ensures Exchange(ExchOf(CallerNext(s, k, ok)))
  {
    var x, c := ExchOf(s), s.p.callers[k].r.conn;
    assert CallerOk(x, k);
    Releases(x, c);
    CallKeeps(Released(x, c), k, if s.p.callers[k].failed then Some(CallFailing) else None);
  }

  // A call that holds no request moves on, or ends.
  lemma CallKeeps(x: Exch, k: nat, pc: Option<CallerPc>)
    requires Exchange(x) && k in x.p.callers
    requires pc == None || pc.value.CallFailing? || pc.value.CallShutdown?
    ensures Exchange(x.(p := if pc.Some? then CallAt(x.p, k, pc.value) else CallEnds(x.p, k)))
  {
    var y := x.(p := if pc.Some? then CallAt(x.p, k, pc.value) else CallEnds(x.p, k));
    assert forall d :: FramesOf(y.p, d) == FramesOf(x.p, d);
    assert forall l :: l in x.p.callers && l != k && CallerOk(x, l) ==> CallerOk(y, l);
    CallMoves(x, y);
  }

  lemma CallerExchange(s: Sys, k: nat, ok: bool)
    requires Exchange(ExchOf(s)) && k in s.p.callers
    ensures Exchange(ExchOf(CallerNext(s, k, ok)))
  {
    var x, pc := ExchOf(s), s.p.callers[k];
    if pc.Sending? {
      CallerSends(s, k, ok);
    } else if pc.Releasing? {
      CallerReleases(s, k, ok);
    } else if pc.CallFailing? {
      CallKeeps(x, k, Some(CallShutdown(CancelContext)));
    } else if pc.left.CancelContext? {
      CallKeeps(x, k, Some(CallShutdown(CloseListener)));
    } else {
      CallKeeps(x, k, None);
    }
  }

  // A new call that holds no request.
  lemma CallBegins(x: Exch)
    requires Exchange(x)
    ensures Exchange(x.(p := Call(x.p, CallShutdown(CancelContext))))
  {
    var y := x.(p := Call(x.p, CallShutdown(CancelContext)));
    assert forall d :: FramesOf(y.p, d) == FramesOf(x.p, d);
    assert forall l :: l in x.p.callers && CallerOk(x, l) ==> CallerOk(y, l);
    CallMoves(x, y);
  }

  predicate FromUi(e: Step) {
    e.RespondPassword? || e.CancelPassword? || e.CancelJob? || e.ParentCancels?
  }

  lemma UiPool(s: Sys, e: Step)
    requires Counted(s) && Consistent(s.m) && Enabled(s, e) && FromUi(e)
    ensures Counted(Next(s, e)) && Lateral(s, Next(s, e))
  {
    UiCounted(s, e);
    UiLateral(s, e);
  }

  lemma UiCounted(s: Sys, e: Step)
    requires Counted(s) && Enabled(s, e) && FromUi(e)
    ensures Counted(Next(s, e))
  {
    assert LiveWorkers(Next(s, e)) == LiveWorkers(s);
  }

  lemma UiLateral(s: Sys, e: Step)
    requires Consistent(s.m) && Enabled(s, e) && FromUi(e)
    ensures Lateral(s, Next(s, e))
  {
    if e.RespondPassword? {
      PasswordLateral(s, e);
    }
  }

  lemma PasswordLateral(s: Sys, e: Step)
    requires Consistent(s.m) && Enabled(s, e) && e.RespondPassword?
    ensures Lateral(s, Next(s, e))
  {
  }

  lemma UiExchange(s: Sys, e: Step)
    requires Exchange(ExchOf(s)) && Enabled(s, e) && FromUi(e)
    ensures Exchange(ExchOf(Next(s, e)))
  {
    var x, y := ExchOf(s), ExchOf(Next(s, e));
    match e
    case RespondPassword(id, password) =>
      if x != y {
        ClaimHandlers(x, password);
        ClaimCallers(x, password);
      }
    case CancelPassword(id) => CallBegins(x);
    case CancelJob => CallBegins(x);
    case ParentCancels =>
  }

  lemma StarterKeeps(s: Sys, ok: bool)
    requires Inv(s) && StarterEnabled(s)
    ensures Inv(StarterNext(s, ok))
  {
    StarterCounted(s, ok);
    StarterControl(s, ok);
    StarterResult(s, ok);
  }

  lemma WaiterKeeps(s: Sys, err: Option<string>)
    requires Inv(s) && WaiterEnabled(s)
    ensures Inv(WaiterNext(s, err))
  {
    WaiterCounted(s, err);
    WaiterControl(s, err);
    WaiterResult(s, err);
  }

  lemma FinisherKeeps(s: Sys, first: bool)
    requires Inv(s) && FinisherEnabled(s, first)
    ensures Inv(FinisherNext(s, first))
  {
    FinisherCounted(s, first);
    FinisherControl(s, first);
    FinisherExit(s, first);
    FinisherFinish(s, first);
  }

  // The other goroutines and the UI leave the result and its control alone.
  lemma OthersKeep(s: Sys, e: Step)
    requires Inv(s) && Enabled(s, e) && !e.StarterStep? && !e.WaiterStep? && !e.FinisherStep?
    ensures Counted(Next(s, e)) && Lateral(s, Next(s, e)) && Exchange(ExchOf(Next(s, e)))
  {
    match e
    case AcceptorStep(ok) => AcceptorExchange(s, ok); AcceptorCounted(s, ok); AcceptorLateral(s, ok);
    case HandlerStep(c, move) => HandlerKeeps(s, c, move);
    case CallerStep(k, ok) => CallerPool(s, k, ok); CallerExchange(s, k, ok);
    case _ => UiPool(s, e); UiExchange(s, e);
  }

  lemma StepKeepsInv(s: Sys, e: Step)
    requires Inv(s) && Enabled(s, e)
    ensures Inv(Next(s, e))
  {
    if e.StarterStep? {
      StarterKeeps(s, e.ok);
    } else if e.WaiterStep? {
      WaiterKeeps(s, e.err);
    } else if e.FinisherStep? {
      FinisherKeeps(s, e.first);
    } else {
      OthersKeep(s, e);
      LateralKeeps(s, Next(s, e));
    }
  }

  // Every interleaving keeps the invariant.
  lemma {:induction false} RunKeepsInv(s: Sys, steps: seq<Step>, t: Sys)
    requires Inv(s) && Follows(s, steps, t)
    ensures Inv(t)
    decreases |steps|
  {
    if steps != [] {
      StepKeepsInv(s, steps[0]);
      RunKeepsInv(Next(s, steps[0]), steps[1..], t);
    }
  }
}
