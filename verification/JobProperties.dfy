// What every interleaving of a privileged job guarantees.

module JobProperties {
  import opened Packages
  import opened Protocol
  import opened Bytes
  import opened Monitor
  import opened JobSystem
  import opened JobInvariant

  ghost predicate Reachable(identityOk: bool, steps: seq<Step>, s: Sys) {
    Follows(Init(identityOk), steps, s)
  }

  lemma ReachableInv(identityOk: bool, steps: seq<Step>, s: Sys)
    requires Reachable(identityOk, steps, s)
    ensures Inv(s)
  {
    InitInv(identityOk);
    RunKeepsInv(Init(identityOk), steps, s);
  }

  // ---- ownership ----

  // Every request ever activated is either still active or was taken back by
  // exactly one party, and nothing else was ever taken back. The active request
  // holds the live connection.
  lemma RequestsHaveOneOwner(identityOk: bool, steps: seq<Step>, s: Sys)
    requires Reachable(identityOk, steps, s)
    ensures forall c :: c in s.p.activated ==> (c in s.p.claims <==> s.m.active != Some(s.p.activated[c]))
    ensures forall c :: c in s.p.claims ==> c in s.p.activated
    ensures s.m.active.Some? ==>
              var r := s.m.active.value;
              s.m.live == Some(r.conn) && r.conn in s.p.activated && s.p.activated[r.conn] == r
  {
    ReachableInv(identityOk, steps, s);
  }

  // At most one terminal frame is ever attempted on a connection, the protocol
  // accepts each, and a password goes only to a verified, activated request that
  // the UI claimed, under that request's identifier.
  lemma OneFrameEach(identityOk: bool, steps: seq<Step>, s: Sys, c: Conn)
    requires Reachable(identityOk, steps, s)
    ensures |FramesOf(s.p, c)| <= 1
    ensures FramesOf(s.p, c) != [] ==> Sendable(FramesOf(s.p, c)[0])
    ensures FramesOf(s.p, c) != [] && FramesOf(s.p, c)[0].typ == PASSWORD ==>
              && c in s.p.verified && c in s.p.activated && FramesOf(s.p, c)[0].id == s.p.activated[c].id
              && c in s.p.claims && s.p.claims[c] == ByPassword
  {
    ReachableInv(identityOk, steps, s);
    assert FrameOk(ExchOf(s), c);
  }

  // When a handler reaches the activation guard no request is active, so the
  // guard's second half never decides anything.
  lemma ActivationGuard(identityOk: bool, steps: seq<Step>, s: Sys, c: Conn)
    requires Reachable(identityOk, steps, s)
    requires c in s.p.handlers && s.p.handlers[c].Activating?
    ensures s.m.active == None && c in s.p.verified
    ensures Activate(s.m, s.p.handlers[c].r, s.p.handlers[c].chain).1.Some? <==> s.m.cancelled
  {
    ReachableInv(identityOk, steps, s);
    ActivationFindsNone(ExchOf(s), c);
    assert HandlerOk(ExchOf(s), c);
  }

  // Whoever is about to answer a request is the first to: the guard against a
  // second answer never holds one back.
  lemma AnswersAreFirst(identityOk: bool, steps: seq<Step>, s: Sys)
    requires Reachable(identityOk, steps, s)
    ensures forall c :: c in s.p.handlers && (s.p.handlers[c].Answering? || s.p.handlers[c].Responding?) ==>
              c !in s.p.answered && FramesOf(s.p, c) == []
    ensures forall k :: k in s.p.callers && s.p.callers[k].Sending? ==>
              s.p.callers[k].r.conn !in s.p.answered && FramesOf(s.p, s.p.callers[k].r.conn) == []
  {
    ReachableInv(identityOk, steps, s);
    var x := ExchOf(s);
    assert forall c :: c in s.p.handlers ==> HandlerOk(x, c);
    assert forall k :: k in s.p.callers ==> CallerOk(x, k);
  }

  // ---- every claim is answered ----

  ghost predicate AnswerDue(p: Peers, c: Conn)
    requires c in p.claims
  {
    match p.claims[c]
    case ByHandler => c in p.handlers && p.handlers[c].Responding?
    case ByPassword => exists k :: k in p.callers && p.callers[k].Sending? && p.callers[k].r.conn == c
  }

  ghost predicate Delivers(p: Peers) {
    forall c :: c in p.claims ==> FramesOf(p, c) != [] || AnswerDue(p, c)
  }

  // A step of one handler leaves every other connection as it was.
  ghost predicate Elsewhere(p: Peers, q: Peers, c: Conn) {
    && q.callers == p.callers && q.nextConn == p.nextConn
    && forall d :: d != c ==>
         && FramesOf(q, d) == FramesOf(p, d)
         && (d in q.claims <==> d in p.claims) && (d in p.claims ==> q.claims[d] == p.claims[d])
         && (d in q.handlers <==> d in p.handlers) && (d in p.handlers ==> q.handlers[d] == p.handlers[d])
  }

  lemma DeliversElsewhere(p: Peers, q: Peers, c: Conn)
    requires Delivers(p) && Elsewhere(p, q, c)
    requires c in q.claims ==> FramesOf(q, c) != [] || AnswerDue(q, c)
    ensures Delivers(q)
  {
    assert forall d :: d in p.claims && d != c && AnswerDue(p, d) ==> AnswerDue(q, d);
  }

  lemma MeetDelivers(s: Sys, c: Conn, move: HandlerMove)
    requires HandlerEnabled(s, c, move) && Meets(s.p.handlers[c]) && HandlerOk(ExchOf(s), c) && Delivers(s.p)
    ensures Delivers(Meet(s, c, move).p)
  {
    MeetElsewhere(s, c, move);
    DeliversElsewhere(s.p, Meet(s, c, move).p, c);
  }

  lemma MeetElsewhere(s: Sys, c: Conn, move: HandlerMove)
    requires HandlerEnabled(s, c, move) && Meets(s.p.handlers[c]) && HandlerOk(ExchOf(s), c)
    ensures Elsewhere(s.p, Meet(s, c, move).p, c)
  {
    var q := Meet(s, c, move).p;
    assert q.callers == s.p.callers && q.claims == s.p.claims && q.handlers == s.p.handlers[c := q.handlers[c]];
    if s.p.handlers[c].Refusing? || s.p.handlers[c].Answering? {
      MeetAttempts(s, c, move);
    } else {
      assert q.frames == s.p.frames;
    }
  }

  lemma MeetAttempts(s: Sys, c: Conn, move: HandlerMove)
    requires HandlerEnabled(s, c, move) && Meets(s.p.handlers[c]) && HandlerOk(ExchOf(s), c)
    requires s.p.handlers[c].Refusing? || s.p.handlers[c].Answering?
    ensures forall d :: d != c ==> FramesOf(Meet(s, c, move).p, d) == FramesOf(s.p, d)
  {
  }

  lemma ServeElsewhere(s: Sys, c: Conn, move: HandlerMove)
    requires HandlerEnabled(s, c, move) && Serves(s.p.handlers[c]) && HandlerOk(ExchOf(s), c)
    ensures Elsewhere(s.p, Serve(s, c, move).p, c)
  {
    var q, pc := Serve(s, c, move).p, s.p.handlers[c];
    if !pc.Responding? {
      assert q.frames == s.p.frames;
    }
  }

  lemma ServeDelivers(s: Sys, c: Conn, move: HandlerMove)
    requires HandlerEnabled(s, c, move) && Serves(s.p.handlers[c]) && HandlerOk(ExchOf(s), c) && Delivers(s.p)
    ensures Delivers(Serve(s, c, move).p)
  {
    var q, pc := Serve(s, c, move).p, s.p.handlers[c];
    ServeElsewhere(s, c, move);
    if pc.Responding? {
      assert FramesOf(q, c) == FramesOf(s.p, c) + [Frame(pc.typ, pc.r.id, [])];
    }
    DeliversElsewhere(s.p, q, c);
  }

  lemma PartElsewhere(s: Sys, c: Conn)
    requires c in s.p.handlers && (Parts(s.p.handlers[c]) || s.p.handlers[c].Exiting?)
    ensures Elsewhere(s.p, (if s.p.handlers[c].Exiting? then Exit(s, c) else Part(s, c)).p, c)
  {
  }

  lemma PartDelivers(s: Sys, c: Conn)
    requires c in s.p.handlers && (Parts(s.p.handlers[c]) || s.p.handlers[c].Exiting?) && Delivers(s.p)
    ensures Delivers((if s.p.handlers[c].Exiting? then Exit(s, c) else Part(s, c)).p)
  {
    PartElsewhere(s, c);
    DeliversElsewhere(s.p, (if s.p.handlers[c].Exiting? then Exit(s, c) else Part(s, c)).p, c);
  }

  lemma HandlerElsewhere(s: Sys, c: Conn, move: HandlerMove)
    requires HandlerEnabled(s, c, move) && HandlerOk(ExchOf(s), c)
    ensures Elsewhere(s.p, HandlerNext(s, c, move).p, c)
  {
    var pc := s.p.handlers[c];
    if Meets(pc) {
      MeetElsewhere(s, c, move);
    } else if Serves(pc) {
      ServeElsewhere(s, c, move);
    } else {
      PartElsewhere(s, c);
    }
  }

  lemma HandlerDelivers(s: Sys, c: Conn, move: HandlerMove)
    requires HandlerEnabled(s, c, move) && HandlerOk(ExchOf(s), c) && Delivers(s.p)
    ensures Delivers(HandlerNext(s, c, move).p)
  {
    var pc := s.p.handlers[c];
    if Meets(pc) {
      MeetDelivers(s, c, move);
    } else if Serves(pc) {
      ServeDelivers(s, c, move);
    } else {
      PartDelivers(s, c);
    }
  }

  // A step of one call, which holds no request or answers the one it holds.
  lemma CallDelivers(p: Peers, q: Peers, k: nat)
    requires Delivers(p) && k in p.callers && q.handlers == p.handlers && q.claims == p.claims
    requires forall d :: FramesOf(p, d) != [] ==> FramesOf(q, d) != []
    requires p.callers[k].Sending? ==> FramesOf(q, p.callers[k].r.conn) != []
    requires forall l :: l in p.callers && l != k ==> l in q.callers && q.callers[l] == p.callers[l]
    ensures Delivers(q)
  {
    forall d | d in q.claims && FramesOf(q, d) == []
      ensures AnswerDue(q, d)
    {
      assert FramesOf(p, d) == [] && AnswerDue(p, d);
      if p.claims[d] == ByPassword {
        var l :| l in p.callers && p.callers[l].Sending? && p.callers[l].r.conn == d;
        assert l != k && l in q.callers;
      }
    }
  }

  lemma CallerDelivers(s: Sys, k: nat, ok: bool)
    requires k in s.p.callers && CallerOk(ExchOf(s), k) && Delivers(s.p)
    ensures Delivers(CallerNext(s, k, ok).p)
  {
    CallerFrames(s, k, ok);
    CallDelivers(s.p, CallerNext(s, k, ok).p, k);
  }

  lemma CallerFrames(s: Sys, k: nat, ok: bool)
    requires k in s.p.callers && CallerOk(ExchOf(s), k)
    ensures
      var q := CallerNext(s, k, ok).p;
      && (forall d :: FramesOf(s.p, d) != [] ==> FramesOf(q, d) != [])
      && (s.p.callers[k].Sending? ==> FramesOf(q, s.p.callers[k].r.conn) != [])
  {
    var q := CallerNext(s, k, ok).p;
    if s.p.callers[k].Sending? {
      assert forall d :: d != s.p.callers[k].r.conn ==> FramesOf(q, d) == FramesOf(s.p, d);
    } else {
      assert forall d :: FramesOf(q, d) == FramesOf(s.p, d);
    }
  }

  lemma UiDelivers(s: Sys, e: Step)
    requires Inv(s) && Enabled(s, e) && FromUi(e) && Delivers(s.p)
    ensures Delivers(Next(s, e).p)
  {
    var t := Next(s, e);
    if t.p != s.p {
      var n := s.p.nextCall;
      assert t.p.handlers == s.p.handlers && t.p.frames == s.p.frames;
      assert n in t.p.callers && forall l :: l in s.p.callers ==> l in t.p.callers && t.p.callers[l] == s.p.callers[l];
      assert forall d :: FramesOf(t.p, d) == FramesOf(s.p, d);
      assert forall d :: d in s.p.claims && d in t.p.claims && t.p.claims[d] == s.p.claims[d] && AnswerDue(s.p, d) ==>
        AnswerDue(t.p, d);
    }
  }

  lemma AcceptorDelivers(s: Sys, ok: bool)
    requires AcceptorEnabled(s, ok) && Delivers(s.p)
    requires s.acceptor.Spawning? ==> s.acceptor.conn !in s.p.handlers
    ensures Delivers(AcceptorNext(s, ok).p)
  {
    var q := AcceptorNext(s, ok).p;
    assert q.claims == s.p.claims && q.callers == s.p.callers && q.frames == s.p.frames;
    assert forall d :: FramesOf(q, d) == FramesOf(s.p, d);
    assert forall d :: d in s.p.handlers ==> d in q.handlers && q.handlers[d] == s.p.handlers[d];
    assert forall d :: d in s.p.claims && AnswerDue(s.p, d) ==> AnswerDue(q, d);
  }

  lemma StepDelivers(s: Sys, e: Step)
    requires Inv(s) && Enabled(s, e) && Delivers(s.p)
    ensures Delivers(Next(s, e).p)
  {
    match e
    case HandlerStep(c, move) =>
      assert HandlerOk(ExchOf(s), c);
      HandlerDelivers(s, c, move);
    case CallerStep(k, ok) =>
      assert CallerOk(ExchOf(s), k);
      CallerDelivers(s, k, ok);
    case AcceptorStep(ok) =>
      AcceptorExchange(s, ok);
      AcceptorDelivers(s, ok);
    case StarterStep(ok) => StarterControl(s, ok);
    case WaiterStep(err) => WaiterControl(s, err);
    case FinisherStep(first) => FinisherControl(s, first);
    case _ => UiDelivers(s, e);
  }

  lemma {:induction false} RunDelivers(s: Sys, steps: seq<Step>, t: Sys)
    requires Inv(s) && Delivers(s.p) && Follows(s, steps, t)
    ensures Delivers(t.p)
    decreases |steps|
  {
    if steps != [] {
      StepKeepsInv(s, steps[0]);
      StepDelivers(s, steps[0]);
      RunDelivers(Next(s, steps[0]), steps[1..], t);
    }
  }

  // Once the workers are gone nothing owns the exchange, and every request that
  // was ever active has had exactly one terminal frame attempted, unless a
  // password call for it is still running.
  lemma QuietMeansAnswered(identityOk: bool, steps: seq<Step>, s: Sys)
    requires Reachable(identityOk, steps, s) && s.w.closed
    ensures s.m.active == None && s.m.live == None && s.p.handlers == map[]
    ensures forall c :: c in s.p.activated ==>
              || |FramesOf(s.p, c)| == 1
              || exists k :: k in s.p.callers && s.p.callers[k].Sending? && s.p.callers[k].r.conn == c
  {
    ReachableInv(identityOk, steps, s);
    InitInv(identityOk);
    RunDelivers(Init(identityOk), steps, s);
    assert |s.p.handlers| == 0;
    forall c | c in s.p.activated
      ensures |FramesOf(s.p, c)| == 1
           || exists k :: k in s.p.callers && s.p.callers[k].Sending? && s.p.callers[k].r.conn == c
    {
      assert c in s.p.claims;
      assert FrameOk(ExchOf(s), c);
      assert FramesOf(s.p, c) != [] || AnswerDue(s.p, c);
    }
  }

  // ---- workers and channels ----

  // The workers-done channel closes at most once, and exactly when the pool is
  // armed and empty; nobody is about to start a worker afterwards, so the panic is
  // never reached, and no handler is ever at the point of sending once the event
  // channel is closed.
  lemma ChannelsCloseOnce(identityOk: bool, steps: seq<Step>, s: Sys)
    requires Reachable(identityOk, steps, s)
    ensures !s.w.panicked && s.w.closings <= 1 && (s.w.closed <==> s.w.closings == 1)
    ensures s.w.closed <==> s.w.armed && LiveWorkers(s) == 0
    ensures s.starter.SpawningAcceptor? || s.starter.SpawningWaiter? || s.acceptor.Spawning? ==> !s.w.closed
    ensures s.sig.eventsClosed ==> s.w.closed
    ensures forall c :: c in s.p.handlers ==> !s.w.closed && !s.sig.eventsClosed
  {
    ReachableInv(identityOk, steps, s);
    forall c | c in s.p.handlers
      ensures !s.w.closed && !s.sig.eventsClosed
    {
      Removed(s.p.handlers, c);
    }
  }

  // ---- the claim of a password ----

  lemma MeetClaims(s: Sys, d: Conn, move: HandlerMove)
    requires HandlerEnabled(s, d, move) && Meets(s.p.handlers[d])
    ensures Meet(s, d, move).p.claims == s.p.claims
  {
  }

  lemma ServeClaims(s: Sys, d: Conn, move: HandlerMove, c: Conn)
    requires HandlerEnabled(s, d, move) && Serves(s.p.handlers[d])
    requires c !in s.p.claims && c in Serve(s, d, move).p.claims
    ensures Serve(s, d, move).p.claims[c] == ByHandler
  {
  }

  // No handler claims a request for the UI.
  lemma HandlersClaimForThemselves(s: Sys, d: Conn, move: HandlerMove, c: Conn)
    requires HandlerEnabled(s, d, move)
    requires c !in s.p.claims && c in HandlerNext(s, d, move).p.claims
    ensures HandlerNext(s, d, move).p.claims[c] == ByHandler
  {
    var pc := s.p.handlers[d];
    if Meets(pc) {
      MeetClaims(s, d, move);
    } else if Serves(pc) {
      ServeClaims(s, d, move, c);
    }
  }

  lemma OnlyCallsClaim(s: Sys, e: Step, c: Conn)
    requires Enabled(s, e) && !e.RespondPassword? && !e.HandlerStep?
    ensures Next(s, e).p.claims == s.p.claims
  {
    match e
    case CallerStep(k, ok) => CallerClaims(s, k, ok);
    case FinisherStep(first) => FinisherAside(s, first);
    case AcceptorStep(ok) => AcceptorClaims(s, ok);
    case _ =>
  }

  lemma AcceptorClaims(s: Sys, ok: bool)
    requires AcceptorEnabled(s, ok)
    ensures AcceptorNext(s, ok).p.claims == s.p.claims
  {
  }

  lemma CallerClaims(s: Sys, k: nat, ok: bool)
    requires k in s.p.callers
    ensures CallerNext(s, k, ok).p.claims == s.p.claims
  {
  }

  ghost predicate ClaimsKept(s: Sys, t: Sys) {
    forall c :: c in s.p.claims ==> c in t.p.claims && t.p.claims[c] == s.p.claims[c]
  }

  lemma ServeKeepsClaims(s: Sys, d: Conn, move: HandlerMove)
    requires Exchange(ExchOf(s)) && HandlerEnabled(s, d, move) && Serves(s.p.handlers[d])
    ensures ClaimsKept(s, Serve(s, d, move))
  {
  }

  lemma HandlerKeepsClaims(s: Sys, d: Conn, move: HandlerMove)
    requires Exchange(ExchOf(s)) && HandlerEnabled(s, d, move)
    ensures ClaimsKept(s, HandlerNext(s, d, move))
  {
    var pc := s.p.handlers[d];
    if Meets(pc) {
      MeetClaims(s, d, move);
    } else if Serves(pc) {
      ServeKeepsClaims(s, d, move);
    }
  }

  lemma StepKeepsClaims(s: Sys, e: Step)
    requires Exchange(ExchOf(s)) && Enabled(s, e)
    ensures ClaimsKept(s, Next(s, e))
  {
    if e.HandlerStep? {
      HandlerKeepsClaims(s, e.conn, e.move);
    } else if !e.RespondPassword? {
      forall c | c in s.p.claims
        ensures Next(s, e).p.claims == s.p.claims
      {
        OnlyCallsClaim(s, e, c);
      }
    }
  }

  // A claim is made once and never changes hands.
  lemma {:induction false} ClaimsAreFinal(s: Sys, steps: seq<Step>, t: Sys)
    requires Inv(s) && Follows(s, steps, t)
    ensures ClaimsKept(s, t)
    decreases |steps|
  {
    if steps != [] {
      StepKeepsInv(s, steps[0]);
      StepKeepsClaims(s, steps[0]);
      ClaimsAreFinal(Next(s, steps[0]), steps[1..], t);
    }
  }

  // A password is only ever claimed for the active request with the given
  // identifier, whose evidence was verified, while no latch is set and the
  // context is live; the frame it will become is one the protocol sends.
  lemma PasswordClaims(identityOk: bool, steps: seq<Step>, s: Sys, e: Step, c: Conn)
    requires Reachable(identityOk, steps, s) && Enabled(s, e)
    requires c !in s.p.claims && c in Next(s, e).p.claims && Next(s, e).p.claims[c] == ByPassword
    ensures e.RespondPassword? && s.starter.Returned?
    ensures s.m.active == Some(Request(e.id, c)) && c in s.p.verified && c in s.p.handlers
    ensures !s.m.cancelled && !s.m.authFailed && !s.m.authTimedOut && !s.sig.ctxDone
    ensures Sendable(Frame(PASSWORD, e.id, e.password))
  {
    ReachableInv(identityOk, steps, s);
    if e.HandlerStep? {
      HandlersClaimForThemselves(s, e.conn, e.move, c);
    } else if !e.RespondPassword? {
      OnlyCallsClaim(s, e, c);
    }
  }

  // ---- latches and the result ----

  lemma StarterShared(s: Sys, ok: bool)
    requires StarterEnabled(s)
    ensures StarterNext(s, ok).m == s.m
  {
  }

  lemma FinisherRises(s: Sys, first: bool)
    requires Control(s) && FinisherEnabled(s, first)
    ensures LatchesRise(s.m, FinisherNext(s, first).m)
  {
  }

  lemma StepRises(s: Sys, e: Step)
    requires Inv(s) && Enabled(s, e)
    ensures LatchesRise(s.m, Next(s, e).m)
  {
    match e
    case StarterStep(ok) => StarterShared(s, ok);
    case HandlerStep(c, move) => HandlerKeeps(s, c, move);
    case AcceptorStep(ok) => AcceptorLateral(s, ok);
    case CallerStep(k, ok) => CallerPool(s, k, ok);
    case FinisherStep(first) => FinisherRises(s, first);
    case WaiterStep(err) =>
    case _ => UiPool(s, e);
  }

  // Latches never fall, and a published result never changes again, whatever the
  // child, the UI, or a late authentication failure still does.
  lemma {:induction false} ResultIsFinal(s: Sys, steps: seq<Step>, t: Sys)
    requires Inv(s) && Follows(s, steps, t)
    ensures LatchesRise(s.m, t.m)
    decreases |steps|
  {
    if steps != [] {
      StepKeepsInv(s, steps[0]);
      StepRises(s, steps[0]);
      ResultIsFinal(Next(s, steps[0]), steps[1..], t);
    }
  }

  // What a published result means.
  lemma ResultMeaning(identityOk: bool, steps: seq<Step>, s: Sys)
    requires Reachable(identityOk, steps, s) && s.m.finalized
    ensures
      var r := s.m.result;
      // No flag and no error: the child's Wait returned, and returned success.
      && (!Flagged(r) ==> s.exit == Some(r.err))
      && (!Flagged(r) && r.err == None ==> s.exit == Some(None))
      // A flag hides the child's error, and cancellation excludes failure.
      && (Flagged(r) ==> r.err == None)
      && (r.cancelled ==> !r.authFailed && !r.authTimedOut)
      && (Flagged(r) ==> s.m.cancelled)
      // A clean cleanup: the child was reaped, every worker is gone, and nothing
      // owns the exchange any more.
      && (!r.cleanupErr ==> s.sig.childDone && s.w.closed && s.m.active == None && s.m.live == None)
  {
    ReachableInv(identityOk, steps, s);
    ResultFlags(identityOk, steps, s);
    if !s.m.result.cleanupErr {
      QuietMeansAnswered(identityOk, steps, s);
    }
  }

  ghost predicate FlagsBacked(s: Sys) {
    && (s.m.result.cancelled ==> s.m.cancelled)
    && (s.m.result.authFailed ==> s.m.authFailed)
    && (s.m.result.authTimedOut ==> s.m.authTimedOut)
  }

  lemma {:induction false} RunBacksFlags(s: Sys, steps: seq<Step>, t: Sys)
    requires Inv(s) && FlagsBacked(s) && Follows(s, steps, t)
    ensures FlagsBacked(t)
    decreases |steps|
  {
    if steps != [] {
      StepKeepsInv(s, steps[0]);
      StepBacksFlags(s, steps[0]);
      RunBacksFlags(Next(s, steps[0]), steps[1..], t);
    }
  }

  lemma StepBacksFlags(s: Sys, e: Step)
    requires Inv(s) && FlagsBacked(s) && Enabled(s, e)
    ensures FlagsBacked(Next(s, e))
  {
    StepRises(s, e);
    if e.FinisherStep? {
      FinisherBacksFlags(s, e.first);
    } else {
      StepKeepsResult(s, e);
    }
  }

  lemma FinisherBacksFlags(s: Sys, first: bool)
    requires Control(s) && FlagsBacked(s) && FinisherEnabled(s, first)
    ensures FlagsBacked(FinisherNext(s, first))
  {
  }

  ghost predicate SameFlags(r: Result, t: Result) {
    t.cancelled == r.cancelled && t.authFailed == r.authFailed && t.authTimedOut == r.authTimedOut
  }

  // Only the finisher writes a flag of the result.
  lemma StepKeepsResult(s: Sys, e: Step)
    requires Inv(s) && Enabled(s, e) && !e.FinisherStep?
    ensures SameFlags(s.m.result, Next(s, e).m.result)
  {
    match e
    case StarterStep(ok) => StarterShared(s, ok);
    case WaiterStep(err) =>
    case _ => OthersKeep(s, e);
  }

  lemma ResultFlags(identityOk: bool, steps: seq<Step>, s: Sys)
    requires Reachable(identityOk, steps, s)
    ensures FlagsBacked(s)
  {
    InitInv(identityOk);
    RunBacksFlags(Init(identityOk), steps, s);
  }
}
