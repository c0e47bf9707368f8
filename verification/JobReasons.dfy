// What a run of a job shows about why it did what it did.

module JobReasons {
  import opened Packages
  import opened Protocol
  import opened Bytes
  import opened Monitor
  import opened JobSystem
  import opened JobInvariant
  import opened JobProperties
  import opened JobHistory

  // ---- the processes the job knows ----

  ghost predicate Named(h: Past, p: Peers, pid: int) {
    exists c :: c in p.activated && c in h.evidence && pid in h.evidence[c]
  }

  // The processes known are those named by the evidence of the activated requests.
  ghost predicate KnownOk(h: Past, s: Sys) {
    && (forall c :: c in s.p.activated ==> c in h.evidence && Asked(h, c, s.p.activated[c].id))
    && (forall pid :: pid in s.m.known <==> Named(h, s.p, pid))
  }

  lemma KnownKept(h: Past, h': Past, s: Sys, t: Sys)
    requires KnownOk(h, s) && t.m.known == s.m.known && t.p.activated == s.p.activated
    requires forall c :: c in s.p.activated ==>
               && c in h'.evidence && c in h'.asked
               && (c in h.evidence ==> h'.evidence[c] == h.evidence[c]) && (c in h.asked ==> h'.asked[c] == h.asked[c])
    ensures KnownOk(h', t)
  {
    assert forall pid :: Named(h', t.p, pid) <==> Named(h, s.p, pid);
  }

  predicate ActivatesAt(s: Sys, e: Step) {
    && e.HandlerStep? && e.conn in s.p.handlers && s.p.handlers[e.conn].Activating?
    && !s.m.cancelled && s.m.active.None?
  }

  lemma ActivationKnown(h: Past, s: Sys, c: Conn)
    requires KnownOk(h, s) && c in s.p.handlers && s.p.handlers[c].Activating? && c !in s.p.activated
    requires Backed(h, c, s.p.handlers[c], ClaimOn(s.p, c)) && s.p.handlers[c].r.conn == c
    requires !s.m.cancelled && s.m.active.None?
    ensures KnownOk(h, Meet(s, c, Proceed))
  {
    var t, chain := Meet(s, c, Proceed), s.p.handlers[c].chain;
    assert t.m.known == s.m.known + chain && t.p.activated == s.p.activated[c := s.p.handlers[c].r];
    forall pid
      ensures Named(h, t.p, pid) <==> Named(h, s.p, pid) || pid in chain
    {
      if Named(h, s.p, pid) {
        var d :| d in s.p.activated && d in h.evidence && pid in h.evidence[d];
        assert d in t.p.activated;
      }
      if pid in chain {
        assert c in t.p.activated && pid in h.evidence[c];
      }
    }
  }

  lemma MeetKnows(s: Sys, c: Conn, move: HandlerMove)
    requires HandlerEnabled(s, c, move) && Meets(s.p.handlers[c]) && !ActivatesAt(s, HandlerStep(c, move))
    ensures Meet(s, c, move).m.known == s.m.known && Meet(s, c, move).p.activated == s.p.activated
  {
  }

  lemma ServeKnows(s: Sys, c: Conn, move: HandlerMove)
    requires HandlerEnabled(s, c, move) && Serves(s.p.handlers[c])
    ensures Serve(s, c, move).m.known == s.m.known && Serve(s, c, move).p.activated == s.p.activated
  {
  }

  lemma HandlersKnow(s: Sys, c: Conn, move: HandlerMove)
    requires HandlerEnabled(s, c, move) && !ActivatesAt(s, HandlerStep(c, move))
    ensures
      var t := HandlerNext(s, c, move);
      t.m.known == s.m.known && t.p.activated == s.p.activated
  {
    if Meets(s.p.handlers[c]) {
      MeetKnows(s, c, move);
    } else if Serves(s.p.handlers[c]) {
      ServeKnows(s, c, move);
    }
  }

  // What a handler hears it hears before its request is activated.
  lemma HeardBefore(h: Past, s: Sys, c: Conn, move: HandlerMove)
    requires HandlerEnabled(s, c, move) && HandlerOk(ExchOf(s), c) && c in s.p.activated
    ensures Heard(h, s, c, move).asked == h.asked && Heard(h, s, c, move).evidence == h.evidence
  {
  }

  lemma HandlerLearns(h: Past, s: Sys, c: Conn, move: HandlerMove)
    requires Inv(s) && AllBacked(h, s.p) && KnownOk(h, s)
    requires HandlerEnabled(s, c, move) && ActivatesAt(s, HandlerStep(c, move))
    ensures Heard(h, s, c, move) == h && KnownOk(h, HandlerNext(s, c, move))
  {
    assert HandlerOk(ExchOf(s), c);
    assert Backed(h, c, s.p.handlers[c], ClaimOn(s.p, c));
    ActivationKnown(h, s, c);
  }

  lemma HandlerKnows(h: Past, s: Sys, c: Conn, move: HandlerMove)
    requires Inv(s) && HandlerEnabled(s, c, move) && AllBacked(h, s.p) && KnownOk(h, s)
    ensures KnownOk(Heard(h, s, c, move), HandlerNext(s, c, move))
  {
    if ActivatesAt(s, HandlerStep(c, move)) {
      HandlerLearns(h, s, c, move);
    } else {
      HandlersKnow(s, c, move);
      HeardElsewhere(h, s, c, move);
      assert HandlerOk(ExchOf(s), c);
      if c in s.p.activated {
        HeardBefore(h, s, c, move);
      }
      KnownKept(h, Heard(h, s, c, move), s, HandlerNext(s, c, move));
    }
  }

  lemma OthersKnow(s: Sys, e: Step)
    requires Enabled(s, e) && !e.HandlerStep?
    ensures Next(s, e).m.known == s.m.known && Next(s, e).p.activated == s.p.activated
  {
    match e
    case AcceptorStep(ok) => AcceptorTells(s, ok); AcceptorKnows(s, ok);
    case CallerStep(k, ok) => CallerKnows(s, k, ok);
    case FinisherStep(first) => FinisherAside(s, first); FinisherKnows(s, first);
    case _ =>
  }

  lemma AcceptorKnows(s: Sys, ok: bool)
    requires AcceptorEnabled(s, ok)
    ensures AcceptorNext(s, ok).m.known == s.m.known
  {
  }

  lemma CallerKnows(s: Sys, k: nat, ok: bool)
    requires k in s.p.callers
    ensures CallerNext(s, k, ok).m.known == s.m.known && CallerNext(s, k, ok).p.activated == s.p.activated
  {
  }

  lemma FinisherKnows(s: Sys, first: bool)
    requires FinisherEnabled(s, first)
    ensures FinisherNext(s, first).m.known == s.m.known
  {
  }

  lemma OthersHearNothing(h: Past, s: Sys, e: Step)
    requires Enabled(s, e) && !e.HandlerStep?
    ensures Seen(h, s, e).asked == h.asked && Seen(h, s, e).evidence == h.evidence
  {
  }

  lemma StepKnows(h: Past, s: Sys, e: Step)
    requires Inv(s) && Enabled(s, e) && AllBacked(h, s.p) && KnownOk(h, s)
    ensures KnownOk(Seen(h, s, e), Next(s, e))
  {
    if e.HandlerStep? {
      HandlerKnows(h, s, e.conn, e.move);
    } else {
      OthersKnow(s, e);
      OthersHearNothing(h, s, e);
      KnownKept(h, Seen(h, s, e), s, Next(s, e));
    }
  }

  // ---- the latches ----

  predicate Heading(pc: HandlerPc, reason: Reason) {
    (pc.Taking? && pc.reason == reason) || (pc.Responding? && pc.reason == reason)
  }

  // A handler on its way to fail the authentication.
  predicate Due(p: Peers, c: Conn, timeout: bool) {
    c in p.handlers &&
    var pc := p.handlers[c];
    || pc == Failing(timeout)
    || Heading(pc, if timeout then Expired else PeerLost)
    || (!timeout && pc.Refusing?)
  }

  // What befell a connection has failed the authentication or is about to, unless the
  // UI had claimed its request first.
  predicate ConnLatched(h: Past, m: Shared, p: Peers, c: Conn) {
    && (c in h.expired ==> m.authTimedOut || ClaimOn(p, c) == Some(ByPassword) || Due(p, c, true))
    && (c in h.lost ==> m.authFailed || ClaimOn(p, c) == Some(ByPassword) || Due(p, c, false))
    && (c in h.refused ==> m.authFailed || Due(p, c, false))
  }

  predicate CallFails(pc: CallerPc) {
    pc.CallFailing? || (pc.Releasing? && pc.failed)
  }

  ghost predicate SomeCallFails(p: Peers) {
    exists k :: k in p.callers && CallFails(p.callers[k])
  }

  ghost predicate Excused(h: Past, p: Peers) {
    || h.busied || h.unsent != {} || h.refused != {}
    || exists c :: c in h.lost && ClaimOn(p, c) == Some(ByHandler)
  }

  ghost predicate Elapsed(h: Past, p: Peers) {
    exists c :: c in h.expired && ClaimOn(p, c) == Some(ByHandler)
  }

  ghost predicate LatchOk(h: Past, s: Sys) {
    && (forall c: Conn :: ConnLatched(h, s.m, s.p, c))
    && (h.busied ==> s.m.authFailed || s.acceptor.FailingBusy?)
    && (h.unsent != {} ==> s.m.authFailed || SomeCallFails(s.p))
    && (s.m.authTimedOut ==> Elapsed(h, s.p))
    && (s.m.authFailed ==> Excused(h, s.p))
    && (s.acceptor.FailingBusy? ==> h.busied)
    && (SomeCallFails(s.p) ==> h.unsent != {})
  }

  // ---- a step of one handler ----

  lemma ReadingLatched(h: Past, s: Sys, c: Conn, move: HandlerMove)
    requires HandlerEnabled(s, c, move) && Meets(s.p.handlers[c]) && !Writes(s.p.handlers[c])
    requires Backed(h, c, s.p.handlers[c], ClaimOn(s.p, c))
    ensures ConnLatched(Heard(h, s, c, move), Meet(s, c, move).m, Meet(s, c, move).p, c)
  {
    assert Unmarked(h, c);
  }

  lemma RefusingLatched(h: Past, s: Sys, c: Conn)
    requires c in s.p.handlers && (s.p.handlers[c].Refusing? || s.p.handlers[c].Answering?)
    requires ConnLatched(h, s.m, s.p, c) && Backed(h, c, s.p.handlers[c], ClaimOn(s.p, c))
    ensures ConnLatched(Heard(h, s, c, Proceed), Meet(s, c, Proceed).m, Meet(s, c, Proceed).p, c)
  {
    assert Heard(h, s, c, Proceed) == h;
  }

  lemma WaitingLatched(h: Past, s: Sys, c: Conn, move: HandlerMove)
    requires HandlerEnabled(s, c, move) && ConnLatched(h, s.m, s.p, c)
    requires s.p.handlers[c].Announcing? || s.p.handlers[c].Waiting? || s.p.handlers[c].Choosing?
    requires Backed(h, c, s.p.handlers[c], ClaimOn(s.p, c))
    ensures ConnLatched(Heard(h, s, c, move), Serve(s, c, move).m, Serve(s, c, move).p, c)
  {
    assert c !in h.refused && c !in h.expired;
  }

  lemma TakingLatched(h: Past, s: Sys, c: Conn, move: HandlerMove)
    requires HandlerEnabled(s, c, move) && ConnLatched(h, s.m, s.p, c) && s.p.handlers[c].Taking?
    requires Backed(h, c, s.p.handlers[c], ClaimOn(s.p, c))
    requires ClaimOn(s.p, c) == if s.m.active == Some(s.p.handlers[c].r) then None else Some(ByPassword)
    ensures ConnLatched(Heard(h, s, c, move), Serve(s, c, move).m, Serve(s, c, move).p, c)
  {
    assert Heard(h, s, c, move) == h;
  }

  lemma RespondingLatched(h: Past, s: Sys, c: Conn, move: HandlerMove)
    requires HandlerEnabled(s, c, move) && ConnLatched(h, s.m, s.p, c) && s.p.handlers[c].Responding?
    requires Backed(h, c, s.p.handlers[c], ClaimOn(s.p, c))
    ensures ConnLatched(Heard(h, s, c, move), Serve(s, c, move).m, Serve(s, c, move).p, c)
  {
    assert Heard(h, s, c, move) == h;
  }

  lemma PartLatched(h: Past, s: Sys, c: Conn)
    requires c in s.p.handlers && Parts(s.p.handlers[c]) && ConnLatched(h, s.m, s.p, c)
    requires Backed(h, c, s.p.handlers[c], ClaimOn(s.p, c))
    ensures ConnLatched(h, Part(s, c).m, Part(s, c).p, c)
  {
  }

  lemma OwnLatched(h: Past, s: Sys, c: Conn, move: HandlerMove)
    requires Inv(s) && HandlerEnabled(s, c, move) && ConnLatched(h, s.m, s.p, c)
    requires Backed(h, c, s.p.handlers[c], ClaimOn(s.p, c))
    ensures var t := HandlerNext(s, c, move); ConnLatched(Heard(h, s, c, move), t.m, t.p, c)
  {
    var pc := s.p.handlers[c];
    assert HandlerOk(ExchOf(s), c);
    if Meets(pc) && Writes(pc) {
      RefusingLatched(h, s, c);
    } else if Meets(pc) {
      ReadingLatched(h, s, c, move);
    } else if pc.Taking? {
      TakingLatched(h, s, c, move);
    } else if pc.Responding? {
      RespondingLatched(h, s, c, move);
    } else if Serves(pc) {
      WaitingLatched(h, s, c, move);
    } else if Parts(pc) {
      PartLatched(h, s, c);
    }
  }

  lemma OthersLatched(h: Past, h': Past, s: Sys, t: Sys, c: Conn)
    requires Elsewhere(s.p, t.p, c) && HeardOnlyOn(h, h', c) && LatchesRise(s.m, t.m)
    requires forall d: Conn :: ConnLatched(h, s.m, s.p, d)
    ensures forall d: Conn :: d != c ==> ConnLatched(h', t.m, t.p, d)
  {
    forall d: Conn | d != c
      ensures ConnLatched(h', t.m, t.p, d)
    {
      assert ConnLatched(h, s.m, s.p, d) && ClaimOn(t.p, d) == ClaimOn(s.p, d);
    }
  }

  // A handler fails the authentication for the reason it came with.
  lemma HandlerFails(s: Sys, c: Conn, move: HandlerMove)
    requires HandlerEnabled(s, c, move)
    ensures
      var m, pc := HandlerNext(s, c, move).m, s.p.handlers[c];
      && (m.authTimedOut <==> s.m.authTimedOut || pc == Failing(true))
      && (m.authFailed <==> s.m.authFailed || pc == Failing(false))
  {
    if Meets(s.p.handlers[c]) {
      MeetFailsNothing(s, c, move);
    } else if Serves(s.p.handlers[c]) {
      ServeFailsNothing(s, c, move);
    }
  }

  lemma MeetFailsNothing(s: Sys, c: Conn, move: HandlerMove)
    requires HandlerEnabled(s, c, move) && Meets(s.p.handlers[c])
    ensures Meet(s, c, move).m.authTimedOut == s.m.authTimedOut && Meet(s, c, move).m.authFailed == s.m.authFailed
  {
  }

  lemma ServeFailsNothing(s: Sys, c: Conn, move: HandlerMove)
    requires HandlerEnabled(s, c, move) && Serves(s.p.handlers[c])
    ensures Serve(s, c, move).m.authTimedOut == s.m.authTimedOut && Serve(s, c, move).m.authFailed == s.m.authFailed
  {
  }

  // Reasons stay reasons.
  lemma ReasonsStay(h: Past, h': Past, p: Peers, q: Peers)
    requires h.refused <= h'.refused && h.expired <= h'.expired && h.lost <= h'.lost && h.unsent <= h'.unsent
    requires h.busied ==> h'.busied
    requires forall c :: c in p.claims ==> ClaimOn(q, c) == ClaimOn(p, c)
    ensures Excused(h, p) ==> Excused(h', q)
    ensures Elapsed(h, p) ==> Elapsed(h', q)
  {
    if c :| c in h.lost && ClaimOn(p, c) == Some(ByHandler) {
      assert c in h'.lost && ClaimOn(q, c) == Some(ByHandler);
    }
    if c :| c in h.expired && ClaimOn(p, c) == Some(ByHandler) {
      assert c in h'.expired && ClaimOn(q, c) == Some(ByHandler);
    }
  }

  lemma HandlerLatched(h: Past, s: Sys, c: Conn, move: HandlerMove)
    requires Inv(s) && HandlerEnabled(s, c, move) && AllBacked(h, s.p) && LatchOk(h, s)
    ensures LatchOk(Heard(h, s, c, move), HandlerNext(s, c, move))
  {
    var h', t, pc := Heard(h, s, c, move), HandlerNext(s, c, move), s.p.handlers[c];
    assert Backed(h, c, pc, ClaimOn(s.p, c)) && HandlerOk(ExchOf(s), c);
    OwnLatched(h, s, c, move);
    HandlerElsewhere(s, c, move);
    HeardElsewhere(h, s, c, move);
    StepRises(s, HandlerStep(c, move));
    OthersLatched(h, h', s, t, c);
    AcceptorElsewhere(s, c, move);
    HandlerFails(s, c, move);
    HandlerClaims(s, c, move);
    HeardGrows(h, s, c, move);
    ReasonsStay(h, h', s.p, t.p);
    FailingHasReason(h, s, c);
    assert SomeCallFails(t.p) <==> SomeCallFails(s.p);
  }

  lemma FailingHasReason(h: Past, s: Sys, c: Conn)
    requires c in s.p.handlers && Backed(h, c, s.p.handlers[c], ClaimOn(s.p, c))
    ensures s.p.handlers[c] == Failing(true) ==> Elapsed(h, s.p)
    ensures s.p.handlers[c] == Failing(false) ==> Excused(h, s.p)
  {
  }

  lemma HeardGrows(h: Past, s: Sys, c: Conn, move: HandlerMove)
    requires HandlerEnabled(s, c, move)
    ensures
      var h' := Heard(h, s, c, move);
      && h.refused <= h'.refused && h.expired <= h'.expired && h.lost <= h'.lost
      && h'.unsent == h.unsent && h'.busied == h.busied
  {
  }

  // ---- the other steps ----

  // A step that leaves every connection as it was.
  lemma LatchedKept(h: Past, h': Past, s: Sys, t: Sys)
    requires forall c: Conn :: ConnLatched(h, s.m, s.p, c)
    requires h'.expired == h.expired && h'.lost == h.lost && h'.refused == h.refused
    requires LatchesRise(s.m, t.m)
    requires forall c :: c in s.p.handlers ==> c in t.p.handlers && t.p.handlers[c] == s.p.handlers[c]
    requires forall c :: c in s.p.claims ==> ClaimOn(t.p, c) == ClaimOn(s.p, c)
    ensures forall c: Conn :: ConnLatched(h', t.m, t.p, c)
  {
    forall c: Conn
      ensures ConnLatched(h', t.m, t.p, c)
    {
      assert ConnLatched(h, s.m, s.p, c);
    }
  }

  lemma AcceptorLatched(h: Past, s: Sys, ok: bool)
    requires Inv(s) && AcceptorEnabled(s, ok) && LatchOk(h, s)
    ensures LatchOk(Seen(h, s, AcceptorStep(ok)), AcceptorNext(s, ok))
  {
    var h', t := Seen(h, s, AcceptorStep(ok)), AcceptorNext(s, ok);
    StepRises(s, AcceptorStep(ok));
    AcceptorTells(s, ok);
    AcceptorFails(h, s, ok);
    LatchedKept(h, h', s, t);
    ReasonsStay(h, h', s.p, t.p);
    assert SomeCallFails(t.p) <==> SomeCallFails(s.p);
  }

  lemma AcceptorFails(h: Past, s: Sys, ok: bool)
    requires AcceptorEnabled(s, ok)
    ensures
      var m, pc := AcceptorNext(s, ok).m, AcceptorNext(s, ok).acceptor;
      && m.authTimedOut == s.m.authTimedOut
      && (m.authFailed <==> s.m.authFailed || s.acceptor.FailingBusy?)
      && (pc.FailingBusy? <==> s.acceptor.Admitting? && (s.m.live.Some? || s.m.active.Some?))
  {
  }

  lemma CallerLatched(h: Past, s: Sys, k: nat, ok: bool)
    requires Inv(s) && k in s.p.callers && LatchOk(h, s)
    ensures LatchOk(Seen(h, s, CallerStep(k, ok)), CallerNext(s, k, ok))
  {
    var h', t := Seen(h, s, CallerStep(k, ok)), CallerNext(s, k, ok);
    StepRises(s, CallerStep(k, ok));
    CallerClaims(s, k, ok);
    CallerMoves(s, k, ok);
    CallerFails(s, k, ok);
    LatchedKept(h, h', s, t);
    ReasonsStay(h, h', s.p, t.p);
    CallFailures(h, h', s, k, ok);
  }

  lemma CallerFails(s: Sys, k: nat, ok: bool)
    requires k in s.p.callers
    ensures
      var t := CallerNext(s, k, ok);
      && t.acceptor == s.acceptor && t.m.authTimedOut == s.m.authTimedOut
      && (t.m.authFailed <==> s.m.authFailed || s.p.callers[k].CallFailing?)
  {
  }

  // One call: whether it is to fail, and whether it has.
  lemma OneCallFails(s: Sys, k: nat, ok: bool)
    requires k in s.p.callers
    ensures
      var q, pc := CallerNext(s, k, ok).p, s.p.callers[k];
      k in q.callers && CallFails(q.callers[k])
      <==> (pc.Sending? && !ok && pc.r.conn !in s.p.answered) || (pc.Releasing? && pc.failed)
  {
  }

  lemma CallFailures(h: Past, h': Past, s: Sys, k: nat, ok: bool)
    requires k in s.p.callers && h' == Seen(h, s, CallerStep(k, ok)) && LatchOk(h, s)
    ensures
      var t := CallerNext(s, k, ok);
      && (h'.unsent != {} ==> t.m.authFailed || SomeCallFails(t.p))
      && (SomeCallFails(t.p) ==> h'.unsent != {})
      && (t.m.authFailed ==> s.m.authFailed || h'.unsent != {})
  {
    var t := CallerNext(s, k, ok);
    CallerMoves(s, k, ok);
    CallerFails(s, k, ok);
    OneCallFails(s, k, ok);
    if l :| l in s.p.callers && CallFails(s.p.callers[l]) && l != k {
      assert l in t.p.callers && CallFails(t.p.callers[l]);
    }
    if l :| l in t.p.callers && CallFails(t.p.callers[l]) && l != k {
      assert l in s.p.callers && CallFails(s.p.callers[l]);
    }
  }

  lemma UiLatched(h: Past, s: Sys, e: Step)
    requires Inv(s) && Enabled(s, e) && FromUi(e) && LatchOk(h, s)
    ensures LatchOk(Seen(h, s, e), Next(s, e))
  {
    var h', t := Seen(h, s, e), Next(s, e);
    StepRises(s, e);
    StepKeepsClaims(s, e);
    UiFails(s, e);
    LatchedKept(h, h', s, t);
    ReasonsStay(h, h', s.p, t.p);
    assert SomeCallFails(t.p) <==> SomeCallFails(s.p);
  }

  lemma UiFails(s: Sys, e: Step)
    requires Inv(s) && Enabled(s, e) && FromUi(e)
    ensures
      var t := Next(s, e);
      && t.acceptor == s.acceptor && t.m.authTimedOut == s.m.authTimedOut && t.m.authFailed == s.m.authFailed
      && t.p.handlers == s.p.handlers
      && forall k :: k in t.p.callers && CallFails(t.p.callers[k]) <==> k in s.p.callers && CallFails(s.p.callers[k])
  {
    if e.RespondPassword? && Welcome(s, e.id, e.password) {
      ClaimMade(s, e.id, e.password);
    }
  }

  lemma StepLatched(h: Past, s: Sys, e: Step)
    requires Inv(s) && Enabled(s, e) && AllBacked(h, s.p) && LatchOk(h, s)
    ensures LatchOk(Seen(h, s, e), Next(s, e))
  {
    match e
    case HandlerStep(c, move) => HandlerLatched(h, s, c, move);
    case AcceptorStep(ok) => AcceptorLatched(h, s, ok);
    case CallerStep(k, ok) => CallerLatched(h, s, k, ok);
    case FinisherStep(first) => ControlLatched(h, s, e);
    case StarterStep(ok) => ControlLatched(h, s, e);
    case WaiterStep(err) => ControlLatched(h, s, e);
    case _ => UiLatched(h, s, e);
  }

  lemma ControlLatched(h: Past, s: Sys, e: Step)
    requires Inv(s) && Enabled(s, e) && (e.FinisherStep? || e.StarterStep? || e.WaiterStep?) && LatchOk(h, s)
    ensures LatchOk(Seen(h, s, e), Next(s, e))
  {
    var t := Next(s, e);
    StepRises(s, e);
    ControlFails(s, e);
    LatchedKept(h, h, s, t);
  }

  ghost predicate Unconcerned(s: Sys, t: Sys) {
    && t.p == s.p && t.m.authTimedOut == s.m.authTimedOut && t.m.authFailed == s.m.authFailed
    && (t.acceptor.FailingBusy? <==> s.acceptor.FailingBusy?)
  }

  lemma ControlFails(s: Sys, e: Step)
    requires Inv(s) && Enabled(s, e) && (e.FinisherStep? || e.StarterStep? || e.WaiterStep?)
    ensures Unconcerned(s, Next(s, e))
  {
    if e.FinisherStep? {
      FinisherUnconcerned(s, e.first);
    } else if e.StarterStep? {
      StarterUnconcerned(s, e.ok);
    }
  }

  lemma FinisherUnconcerned(s: Sys, first: bool)
    requires FinisherEnabled(s, first)
    ensures Unconcerned(s, FinisherNext(s, first))
  {
  }

  lemma StarterUnconcerned(s: Sys, ok: bool)
    requires Control(s) && StarterEnabled(s)
    ensures Unconcerned(s, StarterNext(s, ok))
  {
  }

  // ---- main results ----

  ghost predicate Sound(h: Past, s: Sys) {
    Inv(s) && Remembered(h, s) && KnownOk(h, s) && LatchOk(h, s)
  }

  lemma InitSound(identityOk: bool)
    ensures Sound(NOTHING, Init(identityOk))
  {
    InitInv(identityOk);
  }

  lemma StepSound(h: Past, s: Sys, e: Step)
    requires Sound(h, s) && Enabled(s, e)
    ensures Sound(Seen(h, s, e), Next(s, e))
  {
    StepKeepsInv(s, e);
    StepRemembers(h, s, e);
    StepKnows(h, s, e);
    StepLatched(h, s, e);
  }

  lemma {:induction false} RunSound(h: Past, s: Sys, steps: seq<Step>, t: Sys)
    requires Sound(h, s) && Follows(s, steps, t)
    ensures Sound(Recall(h, s, steps), t)
    decreases |steps|
  {
    if steps != [] {
      StepSound(h, s, steps[0]);
      RunSound(Seen(h, s, steps[0]), Next(s, steps[0]), steps[1..], t);
    }
  }

  // What a run heard.
  ghost function Told(identityOk: bool, steps: seq<Step>): Past {
    Recall(NOTHING, Init(identityOk), steps)
  }

  lemma ReachableSound(identityOk: bool, steps: seq<Step>, s: Sys)
    requires Reachable(identityOk, steps, s)
    ensures Sound(Told(identityOk, steps), s)
  {
    InitSound(identityOk);
    RunSound(NOTHING, Init(identityOk), steps, s);
  }

  // The password a connection is sent is the one typed for its request, whole, under
  // that request's identifier; and once no call is still to write it, every request
  // the UI claimed has been sent exactly that.
  lemma PasswordsAreTyped(identityOk: bool, steps: seq<Step>, s: Sys, c: Conn)
    requires Reachable(identityOk, steps, s)
    ensures
      var h := Told(identityOk, steps);
      FramesOf(s.p, c) != [] && FramesOf(s.p, c)[0].typ == PASSWORD ==>
        && c in h.typed && c in h.asked && FramesOf(s.p, c) == [Frame(PASSWORD, h.asked[c], h.typed[c])]
    ensures
      var h := Told(identityOk, steps);
      c in h.typed ==>
        || (exists k :: k in s.p.callers && s.p.callers[k].Sending? && s.p.callers[k].r.conn == c
                        && s.p.callers[k].password == h.typed[c])
        || (c in h.asked && FramesOf(s.p, c) == [Frame(PASSWORD, h.asked[c], h.typed[c])])
  {
    ReachableSound(identityOk, steps, s);
    InitInv(identityOk);
    RunDelivers(Init(identityOk), steps, s);
    var h := Told(identityOk, steps);
    if FramesOf(s.p, c) != [] && (FramesOf(s.p, c)[0].typ == PASSWORD || c in h.typed) {
      PasswordSent(h, s, c);
    } else if c in h.typed {
      PasswordDue(h, s, c);
    }
  }

  lemma PasswordSent(h: Past, s: Sys, c: Conn)
    requires Recorded(ExchOf(s)) && AllFramed(h, s.p) && KnownOk(h, s)
    requires FramesOf(s.p, c) != [] && (FramesOf(s.p, c)[0].typ == PASSWORD || c in h.typed) && TypedOk(h, s.p)
    ensures c in h.typed && c in h.asked && FramesOf(s.p, c) == [Frame(PASSWORD, h.asked[c], h.typed[c])]
  {
    assert Framed(h, s.p, c) && FrameOk(ExchOf(s), c);
  }

  // A password with no frame yet has a call to write it.
  lemma PasswordDue(h: Past, s: Sys, c: Conn)
    requires Delivers(s.p) && TypedOk(h, s.p) && c in h.typed && FramesOf(s.p, c) == []
    ensures exists k :: k in s.p.callers && s.p.callers[k].Sending? && s.p.callers[k].r.conn == c
                        && s.p.callers[k].password == h.typed[c]
  {
    assert AnswerDue(s.p, c);
  }

  // The request a password is typed for had none.
  lemma TypedByStep(h: Past, s: Sys, e: Step, c: Conn)
    requires Inv(s) && TypedOk(h, s.p) && Enabled(s, e) && c in h.typed
    ensures c in Seen(h, s, e).typed && Seen(h, s, e).typed[c] == h.typed[c]
  {
    if e.RespondPassword? && Welcome(s, e.id, e.password) {
      ClaimMade(s, e.id, e.password);
    } else if e.HandlerStep? {
      assert Heard(h, s, e.conn, e.move).typed == h.typed;
    }
  }

  // A password, once typed for a request, is never replaced.
  lemma {:induction false} TypedOnce(h: Past, s: Sys, steps: seq<Step>, t: Sys, c: Conn)
    requires Sound(h, s) && Follows(s, steps, t) && c in h.typed
    ensures c in Recall(h, s, steps).typed && Recall(h, s, steps).typed[c] == h.typed[c]
    decreases |steps|
  {
    if steps != [] {
      StepSound(h, s, steps[0]);
      TypedByStep(h, s, steps[0], c);
      TypedOnce(Seen(h, s, steps[0]), Next(s, steps[0]), steps[1..], t, c);
    }
  }

  // Any other frame is a refusal without payload, under the identifier the connection
  // asked with: an error if something befell the connection or its request was turned
  // down after a failed authentication, and otherwise a cancellation.
  lemma FramesTellWhy(identityOk: bool, steps: seq<Step>, s: Sys, c: Conn)
    requires Reachable(identityOk, steps, s) && FramesOf(s.p, c) != [] && FramesOf(s.p, c)[0].typ != PASSWORD
    ensures
      var h := Told(identityOk, steps);
      && c in h.asked
      && FramesOf(s.p, c)
         == [Frame(if !Faulted(h, c) && c in h.calm then CANCEL else ERROR, h.asked[c], [])]
  {
    ReachableSound(identityOk, steps, s);
    assert Framed(Told(identityOk, steps), s.p, c) && FrameOk(ExchOf(s), c);
  }

  // The authentication timed out only where a timer fired on a request the broker then
  // took back, and failed only where a connection was turned away or lost before the
  // UI claimed it, another was busy, or a password could not be written. Once the
  // workers are gone and no call is running, each of these has had its effect.
  lemma LatchesTellWhy(identityOk: bool, steps: seq<Step>, s: Sys)
    requires Reachable(identityOk, steps, s)
    ensures
      var h := Told(identityOk, steps);
      && (s.m.authTimedOut ==> Elapsed(h, s.p))
      && (s.m.authFailed ==> Excused(h, s.p))
      && (s.w.closed && s.p.callers == map[] ==>
            (s.m.authTimedOut <==> Elapsed(h, s.p)) && (s.m.authFailed <==> Excused(h, s.p)))
  {
    var h := Told(identityOk, steps);
    ReachableSound(identityOk, steps, s);
    if s.w.closed && s.p.callers == map[] {
      QuietMeansAnswered(identityOk, steps, s);
      LatchedWhenQuiet(h, s);
    }
  }

  lemma LatchedWhenQuiet(h: Past, s: Sys)
    requires Counted(s) && LatchOk(h, s) && s.w.closed && s.p.callers == map[] && s.p.handlers == map[]
    ensures Elapsed(h, s.p) ==> s.m.authTimedOut
    ensures Excused(h, s.p) ==> s.m.authFailed
  {
    assert !AcceptorAlive(s.acceptor);
    if c :| c in h.expired && ClaimOn(s.p, c) == Some(ByHandler) {
      assert ConnLatched(h, s.m, s.p, c);
    }
    if c :| c in h.refused {
      assert ConnLatched(h, s.m, s.p, c);
    }
    if c :| c in h.lost && ClaimOn(s.p, c) == Some(ByHandler) {
      assert ConnLatched(h, s.m, s.p, c);
    }
  }

  // The processes the cleanup looks for are exactly those the evidence of the
  // activated requests named, and a snapshot taken once the workers are gone is whole.
  lemma KnownIsEvidence(identityOk: bool, steps: seq<Step>, s: Sys, pid: int)
    requires Reachable(identityOk, steps, s)
    ensures pid in s.m.known <==> Named(Told(identityOk, steps), s.p, pid)
    ensures s.finisher.Finalizing? && s.finisher.stopped ==>
              (pid in s.finisher.known <==> Named(Told(identityOk, steps), s.p, pid))
  {
    ReachableSound(identityOk, steps, s);
  }
}
