// Why a job did what it did: a run of the job beside a history of what its goroutines
// were told.

module JobHistory {
  import opened Packages
  import opened Protocol
  import opened Bytes
  import opened Monitor
  import opened JobSystem
  import opened JobInvariant
  import opened JobProperties

  // By connection: the request read, the processes the evidence named, whether the
  // broker refused to go on, whether the timer fired or the peer was seen gone, and
  // whether the request was refused while no authentication had failed; the password
  // of the call that claimed it, and whether writing it failed. `busied` says some
  // connection came while another exchange was live.
  datatype Past = Past(
    asked: map<Conn, RequestId>,
    evidence: map<Conn, set<int>>,
    refused: set<Conn>,
    expired: set<Conn>,
    lost: set<Conn>,
    calm: set<Conn>,
    typed: map<Conn, seq<Byte>>,
    unsent: set<Conn>,
    busied: bool)

  const NOTHING := Past(map[], map[], {}, {}, {}, {}, map[], {}, false)

  function Seen(h: Past, s: Sys, e: Step): Past
    requires Enabled(s, e)
  {
    match e
    case HandlerStep(c, move) => Heard(h, s, c, move)
    case AcceptorStep(_) =>
      if s.acceptor.Admitting? && (s.m.live.Some? || s.m.active.Some?) then h.(busied := true) else h
    case CallerStep(k, ok) =>
      if !ok && s.p.callers[k].Sending? && s.p.callers[k].r.conn !in s.p.answered
      then h.(unsent := h.unsent + {s.p.callers[k].r.conn}) else h
    case RespondPassword(id, password) =>
      if Welcome(s, id, password) then h.(typed := h.typed[s.m.active.value.conn := password]) else h
    case _ => h
  }

  // The password answers the active request, and nothing stands in its way.
  predicate Welcome(s: Sys, id: RequestId, password: seq<Byte>) {
    && |password| <= 1024 && ValidUtf8(password)
    && s.m.active.Some? && s.m.active.value.id == id && !s.m.cancelled && !s.sig.ctxDone
  }

  function Heard(h: Past, s: Sys, c: Conn, move: HandlerMove): Past
    requires HandlerEnabled(s, c, move)
  {
    var pc := s.p.handlers[c];
    match move
    case ReadRequest(id) => h.(asked := h.asked[c := id])
    case ReadFails => h.(refused := h.refused + {c})
    case EvidenceVerified(chain) => h.(evidence := h.evidence[c := chain])
    case EvidenceRefused => h.(refused := h.refused + {c})
    case TimerFires => h.(expired := h.expired + {c})
    case PeerSeenLost => h.(lost := h.lost + {c})
    case Proceed =>
      if pc.AwaitingReady? && !(s.childUp && s.identityOk) then h.(refused := h.refused + {c})
      else if (pc.Choosing? || (pc.Activating? && s.m.cancelled)) && !s.m.authFailed && !s.m.authTimedOut
      then h.(calm := h.calm + {c}) else h
    case _ => h
  }

  function Recall(h: Past, s: Sys, steps: seq<Step>): Past
    decreases |steps|
  {
    if steps == [] || !Enabled(s, steps[0]) then h
    else Recall(Seen(h, s, steps[0]), Next(s, steps[0]), steps[1..])
  }

  // ---- what each handler knows ----

  // The refusal of a request that no failure of its own explains.
  function Choice(h: Past, c: Conn): Byte {
    if c in h.calm then CANCEL else ERROR
  }

  predicate Asked(h: Past, c: Conn, id: RequestId) {
    c in h.asked && h.asked[c] == id
  }

  predicate Unmarked(h: Past, c: Conn) {
    c !in h.refused && c !in h.expired && c !in h.lost && c !in h.calm
  }

  // The answer a handler is about to give, by what made it give one.
  predicate Reasoned(h: Past, c: Conn, typ: Byte, reason: Reason) {
    match reason
    case ContextOver => typ == Choice(h, c)
    case Expired => typ == ERROR && c in h.expired
    case PeerLost => typ == ERROR && c in h.lost
  }

  function ClaimOn(p: Peers, c: Conn): Option<Claimer> {
    if c in p.claims then Some(p.claims[c]) else None
  }

  predicate Backed(h: Past, c: Conn, pc: HandlerPc, claim: Option<Claimer>) {
    match pc
    case Reading => Unmarked(h, c)
    case AwaitingReady(id) => Asked(h, c, id) && Unmarked(h, c)
    case Gathering(id) => Asked(h, c, id) && Unmarked(h, c)
    case Refusing(id) => Asked(h, c, id) && c in h.refused
    case Activating(r, chain) =>
      Asked(h, c, r.id) && Unmarked(h, c) && c in h.evidence && h.evidence[c] == chain
    case Answering(r, typ) =>
      Asked(h, c, r.id) && typ == Choice(h, c) && c !in h.refused && c !in h.expired && c !in h.lost
    case Announcing(r) => Asked(h, c, r.id) && Unmarked(h, c)
    case Waiting(r) =>
      Asked(h, c, r.id) && c !in h.refused && c !in h.expired && c !in h.calm && (c in h.lost ==> claim == Some(ByPassword))
    case Choosing(r) =>
      Asked(h, c, r.id) && c !in h.refused && c !in h.expired && c !in h.calm && (c in h.lost ==> claim == Some(ByPassword))
    case Taking(r, typ, reason) =>
      && Asked(h, c, r.id) && Reasoned(h, c, typ, reason) && c !in h.refused
      && (c in h.expired ==> reason.Expired?) && (c in h.lost ==> reason.PeerLost? || claim == Some(ByPassword))
      && (c in h.calm ==> reason.ContextOver?)
    case Responding(r, typ, reason) =>
      && Asked(h, c, r.id) && Reasoned(h, c, typ, reason) && c !in h.refused
      && (c in h.expired ==> reason.Expired?) && (c in h.lost ==> reason.PeerLost?) && claim == Some(ByHandler)
    case Failing(timeout) =>
      if timeout then c in h.expired && claim == Some(ByHandler)
      else c in h.refused || (c in h.lost && claim == Some(ByHandler))
    case _ => true
  }

  ghost predicate AllBacked(h: Past, p: Peers) {
    forall c :: c in p.handlers ==> Backed(h, c, p.handlers[c], ClaimOn(p, c))
  }

  predicate StaysBacked(h: Past, q: Peers, c: Conn) {
    c in q.handlers ==> Backed(h, c, q.handlers[c], ClaimOn(q, c))
  }

  lemma ReadingBacked(h: Past, s: Sys, c: Conn, move: HandlerMove)
    requires HandlerEnabled(s, c, move) && Backed(h, c, s.p.handlers[c], ClaimOn(s.p, c))
    requires
      var pc := s.p.handlers[c];
      pc.Reading? || pc.AwaitingReady? || pc.Gathering? || pc.Refusing? || pc.Answering?
    ensures StaysBacked(Heard(h, s, c, move), Meet(s, c, move).p, c)
  {
  }

  lemma ActivatingBacked(h: Past, s: Sys, c: Conn, move: HandlerMove)
    requires HandlerEnabled(s, c, move) && Backed(h, c, s.p.handlers[c], ClaimOn(s.p, c)) && s.m.active.None?
    requires s.p.handlers[c].Activating?
    ensures StaysBacked(Heard(h, s, c, move), Meet(s, c, move).p, c)
  {
  }

  lemma AnnouncingBacked(h: Past, s: Sys, c: Conn, move: HandlerMove)
    requires HandlerEnabled(s, c, move) && Backed(h, c, s.p.handlers[c], ClaimOn(s.p, c))
    requires s.p.handlers[c].Announcing? || s.p.handlers[c].Choosing? || s.p.handlers[c].Responding?
    ensures StaysBacked(Heard(h, s, c, move), Serve(s, c, move).p, c)
  {
  }

  lemma WaitingBacked(h: Past, s: Sys, c: Conn, move: HandlerMove)
    requires HandlerEnabled(s, c, move) && Backed(h, c, s.p.handlers[c], ClaimOn(s.p, c))
    requires s.p.handlers[c].Waiting?
    ensures StaysBacked(Heard(h, s, c, move), Serve(s, c, move).p, c)
  {
  }

  // Taking the request back fails only once the UI has claimed it.
  lemma TakingBacked(h: Past, s: Sys, c: Conn, move: HandlerMove)
    requires HandlerEnabled(s, c, move) && Backed(h, c, s.p.handlers[c], ClaimOn(s.p, c))
    requires s.p.handlers[c].Taking? && ClaimOn(s.p, c) == if s.m.active == Some(s.p.handlers[c].r) then None else Some(ByPassword)
    ensures StaysBacked(Heard(h, s, c, move), Serve(s, c, move).p, c)
  {
    assert Heard(h, s, c, move) == h;
  }

  lemma PartingBacked(h: Past, s: Sys, c: Conn)
    requires c in s.p.handlers && Parts(s.p.handlers[c])
    ensures StaysBacked(h, Part(s, c).p, c)
  {
  }

  lemma OneBacked(h: Past, s: Sys, c: Conn, move: HandlerMove)
    requires Exchange(ExchOf(s)) && HandlerEnabled(s, c, move) && Backed(h, c, s.p.handlers[c], ClaimOn(s.p, c))
    ensures StaysBacked(Heard(h, s, c, move), HandlerNext(s, c, move).p, c)
  {
    var x, pc := ExchOf(s), s.p.handlers[c];
    assert HandlerOk(x, c);
    if pc.Activating? {
      ActivationFindsNone(x, c);
      ActivatingBacked(h, s, c, move);
    } else if Meets(pc) {
      ReadingBacked(h, s, c, move);
    } else if pc.Taking? {
      TakingBacked(h, s, c, move);
    } else if pc.Waiting? {
      WaitingBacked(h, s, c, move);
    } else if Serves(pc) {
      AnnouncingBacked(h, s, c, move);
    } else if !pc.Exiting? {
      PartingBacked(Heard(h, s, c, move), s, c);
    }
  }

  lemma HandlerBacked(h: Past, s: Sys, c: Conn, move: HandlerMove)
    requires Exchange(ExchOf(s)) && HandlerEnabled(s, c, move) && AllBacked(h, s.p)
    ensures AllBacked(Heard(h, s, c, move), HandlerNext(s, c, move).p)
  {
    OneBacked(h, s, c, move);
    assert HandlerOk(ExchOf(s), c);
    HandlerElsewhere(s, c, move);
    OthersBacked(h, Heard(h, s, c, move), s.p, HandlerNext(s, c, move).p, c);
  }

  ghost predicate HeardOnlyOn(h: Past, h': Past, c: Conn) {
    forall d :: d != c ==>
      && (d in h'.asked <==> d in h.asked) && (d in h.asked ==> h'.asked[d] == h.asked[d])
      && (d in h'.evidence <==> d in h.evidence) && (d in h.evidence ==> h'.evidence[d] == h.evidence[d])
      && (d in h'.refused <==> d in h.refused) && (d in h'.expired <==> d in h.expired)
      && (d in h'.lost <==> d in h.lost) && (d in h'.calm <==> d in h.calm)
  }

  lemma HeardElsewhere(h: Past, s: Sys, c: Conn, move: HandlerMove)
    requires HandlerEnabled(s, c, move)
    ensures HeardOnlyOn(h, Heard(h, s, c, move), c)
  {
  }

  lemma OthersBacked(h: Past, h': Past, p: Peers, q: Peers, c: Conn)
    requires AllBacked(h, p) && Elsewhere(p, q, c) && HeardOnlyOn(h, h', c)
    requires c in q.handlers ==> Backed(h', c, q.handlers[c], ClaimOn(q, c))
    ensures AllBacked(h', q)
  {
    forall d | d in q.handlers && d != c
      ensures Backed(h', d, q.handlers[d], ClaimOn(q, d))
    {
      assert d in p.handlers && Backed(h, d, p.handlers[d], ClaimOn(p, d));
    }
  }

  // ---- what each frame says ----

  predicate Faulted(h: Past, c: Conn) {
    c in h.refused || c in h.expired || c in h.lost
  }

  ghost predicate Framed(h: Past, p: Peers, c: Conn) {
    FramesOf(p, c) != [] ==>
      var f := FramesOf(p, c)[0];
      && (f.typ == PASSWORD <==> c in p.claims && p.claims[c] == ByPassword)
      && (f.typ == PASSWORD ==> c in h.typed && f.payload == h.typed[c])
      && (f.typ != PASSWORD ==>
            Asked(h, c, f.id) && f.payload == [] && f.typ == if Faulted(h, c) then ERROR else Choice(h, c))
  }

  ghost predicate AllFramed(h: Past, p: Peers) {
    forall c :: Framed(h, p, c)
  }

  predicate Writes(pc: HandlerPc) {
    pc.Refusing? || pc.Answering? || pc.Responding?
  }

  // The frame a handler at such a point is about to attempt.
  function Written(pc: HandlerPc): Frame
    requires Writes(pc)
  {
    match pc
    case Refusing(id) => Frame(ERROR, id, [])
    case Answering(r, typ) => Frame(typ, r.id, [])
    case Responding(r, typ, _) => Frame(typ, r.id, [])
  }

  lemma HandlerWrites(s: Sys, c: Conn, move: HandlerMove)
    requires Exchange(ExchOf(s)) && HandlerEnabled(s, c, move) && Writes(s.p.handlers[c])
    ensures FramesOf(HandlerNext(s, c, move).p, c) == [Written(s.p.handlers[c])]
    ensures HandlerNext(s, c, move).p.claims == s.p.claims
  {
    assert HandlerOk(ExchOf(s), c);
  }

  lemma MeetWritesNothing(s: Sys, c: Conn, move: HandlerMove)
    requires HandlerEnabled(s, c, move) && Meets(s.p.handlers[c]) && !Writes(s.p.handlers[c])
    ensures Meet(s, c, move).p.frames == s.p.frames
  {
  }

  lemma ServeWritesNothing(s: Sys, c: Conn, move: HandlerMove)
    requires HandlerEnabled(s, c, move) && Serves(s.p.handlers[c]) && !Writes(s.p.handlers[c])
    ensures Serve(s, c, move).p.frames == s.p.frames
  {
  }

  lemma OthersWriteNothing(s: Sys, c: Conn, move: HandlerMove)
    requires HandlerEnabled(s, c, move) && !Writes(s.p.handlers[c])
    ensures HandlerNext(s, c, move).p.frames == s.p.frames
  {
    if Meets(s.p.handlers[c]) {
      MeetWritesNothing(s, c, move);
    } else if Serves(s.p.handlers[c]) {
      ServeWritesNothing(s, c, move);
    }
  }

  // A frame already attempted was the password, or its handler is on its way out.
  lemma FrameKept(h: Past, s: Sys, c: Conn, move: HandlerMove)
    requires Exchange(ExchOf(s)) && HandlerEnabled(s, c, move) && !Writes(s.p.handlers[c])
    requires FramesOf(s.p, c) != [] && Framed(h, s.p, c)
    ensures Framed(Heard(h, s, c, move), HandlerNext(s, c, move).p, c)
  {
    assert HandlerOk(ExchOf(s), c);
    OthersWriteNothing(s, c, move);
    HandlerKeepsClaims(s, c, move);
    if c !in s.p.claims && c in HandlerNext(s, c, move).p.claims {
      HandlersClaimForThemselves(s, c, move, c);
    }
  }

  lemma HandlerFramed(h: Past, s: Sys, c: Conn, move: HandlerMove)
    requires Exchange(ExchOf(s)) && HandlerEnabled(s, c, move) && AllBacked(h, s.p) && AllFramed(h, s.p)
    ensures AllFramed(Heard(h, s, c, move), HandlerNext(s, c, move).p)
  {
    var h', q := Heard(h, s, c, move), HandlerNext(s, c, move).p;
    HeardElsewhere(h, s, c, move);
    assert HandlerOk(ExchOf(s), c);
    HandlerElsewhere(s, c, move);
    forall d
      ensures Framed(h', q, d)
    {
      assert Framed(h, s.p, d);
      if d == c {
        OwnFramed(h, s, c, move);
      }
    }
  }

  lemma OwnFramed(h: Past, s: Sys, c: Conn, move: HandlerMove)
    requires Exchange(ExchOf(s)) && HandlerEnabled(s, c, move) && Framed(h, s.p, c)
    requires Backed(h, c, s.p.handlers[c], ClaimOn(s.p, c))
    ensures Framed(Heard(h, s, c, move), HandlerNext(s, c, move).p, c)
  {
    if Writes(s.p.handlers[c]) {
      FrameWritten(h, s, c, move);
    } else if FramesOf(s.p, c) != [] {
      FrameKept(h, s, c, move);
    } else {
      OthersWriteNothing(s, c, move);
    }
  }

  lemma FrameWritten(h: Past, s: Sys, c: Conn, move: HandlerMove)
    requires Exchange(ExchOf(s)) && HandlerEnabled(s, c, move) && Writes(s.p.handlers[c])
    requires Backed(h, c, s.p.handlers[c], ClaimOn(s.p, c))
    ensures Framed(Heard(h, s, c, move), HandlerNext(s, c, move).p, c)
  {
    assert HandlerOk(ExchOf(s), c);
    HandlerWrites(s, c, move);
  }

  // ---- passwords ----

  // The claims of the UI are the passwords typed, and each call still to write one
  // holds the password it came with.
  ghost predicate TypedOk(h: Past, p: Peers) {
    && (forall c :: c in h.typed <==> c in p.claims && p.claims[c] == ByPassword)
    && (forall k :: k in p.callers && p.callers[k].Sending? ==>
          var pc := p.callers[k];
          pc.r.conn in h.typed && h.typed[pc.r.conn] == pc.password)
  }

  ghost predicate CallMoved(p: Peers, q: Peers, k: nat) {
    && (q.callers == p.callers - {k}
        || (k in q.callers && !q.callers[k].Sending? && q.callers == p.callers[k := q.callers[k]]))
    && q.handlers == p.handlers && q.nextConn == p.nextConn
  }

  lemma SendingMoves(s: Sys, k: nat, ok: bool)
    requires k in s.p.callers && s.p.callers[k].Sending?
    ensures CallMoved(s.p, CallerNext(s, k, ok).p, k)
  {
  }

  // A step of one call leaves it without a password to write, or ends it.
  lemma CallerMoves(s: Sys, k: nat, ok: bool)
    requires k in s.p.callers
    ensures CallMoved(s.p, CallerNext(s, k, ok).p, k)
  {
    if s.p.callers[k].Sending? {
      SendingMoves(s, k, ok);
    }
  }

  lemma SendingKept(s: Sys, k: nat, ok: bool, l: nat)
    requires k in s.p.callers && l in CallerNext(s, k, ok).p.callers && CallerNext(s, k, ok).p.callers[l].Sending?
    ensures l in s.p.callers && s.p.callers[l] == CallerNext(s, k, ok).p.callers[l]
  {
    CallerMoves(s, k, ok);
  }

  // No other step makes a call that is to write a password, or changes one.
  lemma OnlyTheUiSends(s: Sys, e: Step, k: nat)
    requires Inv(s) && Enabled(s, e) && k in Next(s, e).p.callers && Next(s, e).p.callers[k].Sending?
    ensures
      var pc := Next(s, e).p.callers[k];
      || (k in s.p.callers && s.p.callers[k] == pc)
      || (e.RespondPassword? && Welcome(s, e.id, e.password) && pc == Sending(s.m.active.value, e.password))
  {
    if e.CallerStep? {
      SendingKept(s, e.call, e.ok, k);
    } else if !FromUi(e) {
      CallsKept(s, e);
    }
  }

  lemma CallsKept(s: Sys, e: Step)
    requires Inv(s) && Enabled(s, e) && !e.CallerStep? && !FromUi(e)
    ensures Next(s, e).p.callers == s.p.callers
  {
    match e
    case HandlerStep(c, move) =>
      assert HandlerOk(ExchOf(s), c);
      HandlerElsewhere(s, c, move);
    case AcceptorStep(ok) => AcceptorTells(s, ok);
    case FinisherStep(first) => FinisherAside(s, first);
    case StarterStep(ok) => StarterControl(s, ok);
    case WaiterStep(err) => WaiterControl(s, err);
  }

  lemma AcceptorTells(s: Sys, ok: bool)
    requires AcceptorEnabled(s, ok)
    ensures
      var p, q := s.p, AcceptorNext(s, ok).p;
      && q.callers == p.callers && q.frames == p.frames && q.claims == p.claims && q.activated == p.activated
      && q.handlers == (if s.acceptor.Spawning? then p.handlers[s.acceptor.conn := Reading] else p.handlers)
  {
  }

  // ---- a whole run ----

  predicate HandledBefore(s: Sys, c: Conn) {
    var pc := Holding(s.acceptor);
    pc.Admitting? || pc.Spawning? ==> c != pc.conn
  }

  // Nothing is remembered of a connection that has no handler yet.
  ghost predicate Behind(h: Past, s: Sys) {
    forall c: Conn :: !Unmarked(h, c) ==> c < s.p.nextConn && HandledBefore(s, c)
  }

  ghost predicate Remembered(h: Past, s: Sys) {
    AllBacked(h, s.p) && AllFramed(h, s.p) && TypedOk(h, s.p) && Behind(h, s)
  }

  // A step that touches no handler, claim, call to write, or frame.
  lemma NothingHeard(h: Past, h': Past, p: Peers, q: Peers)
    requires AllBacked(h, p) && AllFramed(h, p) && TypedOk(h, p)
    requires h' == h.(unsent := h'.unsent, busied := h'.busied)
    requires q.handlers == p.handlers && q.claims == p.claims && q.frames == p.frames
    requires forall k :: k in q.callers && q.callers[k].Sending? ==> k in p.callers && p.callers[k] == q.callers[k]
    ensures AllBacked(h', q) && AllFramed(h', q) && TypedOk(h', q)
  {
    forall c | c in q.handlers
      ensures Backed(h', c, q.handlers[c], ClaimOn(q, c))
    {
      assert Backed(h, c, p.handlers[c], ClaimOn(p, c));
    }
    forall c
      ensures Framed(h', q, c)
    {
      assert Framed(h, p, c) && FramesOf(q, c) == FramesOf(p, c);
    }
  }

  lemma HandlerRemembers(h: Past, s: Sys, c: Conn, move: HandlerMove)
    requires Inv(s) && HandlerEnabled(s, c, move) && Remembered(h, s)
    ensures Remembered(Heard(h, s, c, move), HandlerNext(s, c, move))
  {
    var h', t := Heard(h, s, c, move), HandlerNext(s, c, move);
    HandlerBacked(h, s, c, move);
    HandlerFramed(h, s, c, move);
    HandlerTyped(h, s, c, move);
    HandlerBehind(h, s, c, move);
  }

  // A handler claims only for itself.
  ghost predicate ClaimsForHandlers(p: Peers, q: Peers) {
    && (forall c :: c in p.claims ==> ClaimOn(q, c) == ClaimOn(p, c))
    && (forall c :: c in q.claims && c !in p.claims ==> q.claims[c] == ByHandler)
  }

  lemma HandlerClaims(s: Sys, c: Conn, move: HandlerMove)
    requires Exchange(ExchOf(s)) && HandlerEnabled(s, c, move)
    ensures ClaimsForHandlers(s.p, HandlerNext(s, c, move).p)
  {
    HandlerKeepsClaims(s, c, move);
    forall d | d in HandlerNext(s, c, move).p.claims && d !in s.p.claims
      ensures HandlerNext(s, c, move).p.claims[d] == ByHandler
    {
      HandlersClaimForThemselves(s, c, move, d);
    }
  }

  lemma TypedKept(h: Past, h': Past, p: Peers, q: Peers)
    requires TypedOk(h, p) && h'.typed == h.typed && q.callers == p.callers && ClaimsForHandlers(p, q)
    ensures TypedOk(h', q)
  {
    assert forall c :: ClaimOn(q, c) == Some(ByPassword) <==> ClaimOn(p, c) == Some(ByPassword);
    assert forall c :: ClaimOn(p, c) == Some(ByPassword) <==> c in p.claims && p.claims[c] == ByPassword;
  }

  lemma HandlerTyped(h: Past, s: Sys, c: Conn, move: HandlerMove)
    requires Inv(s) && HandlerEnabled(s, c, move) && TypedOk(h, s.p)
    ensures TypedOk(Heard(h, s, c, move), HandlerNext(s, c, move).p)
  {
    CallsKept(s, HandlerStep(c, move));
    HandlerClaims(s, c, move);
    TypedKept(h, Heard(h, s, c, move), s.p, HandlerNext(s, c, move).p);
  }

  lemma HandlerBehind(h: Past, s: Sys, c: Conn, move: HandlerMove)
    requires Inv(s) && HandlerEnabled(s, c, move) && Behind(h, s)
    ensures Behind(Heard(h, s, c, move), HandlerNext(s, c, move))
  {
    assert HandlerOk(ExchOf(s), c);
    HandlerElsewhere(s, c, move);
    AcceptorElsewhere(s, c, move);
    HeardElsewhere(h, s, c, move);
    forall d: Conn | !Unmarked(Heard(h, s, c, move), d)
      ensures d < s.p.nextConn && HandledBefore(s, d)
    {
      assert d != c ==> !Unmarked(h, d);
    }
  }

  lemma AcceptorElsewhere(s: Sys, c: Conn, move: HandlerMove)
    requires HandlerEnabled(s, c, move)
    ensures HandlerNext(s, c, move).acceptor == s.acceptor
  {
    var pc := s.p.handlers[c];
    if Meets(pc) {
      MeetQuiet(s, c, move);
    } else if Serves(pc) {
      ServeQuiet(s, c, move);
    } else if Parts(pc) {
      PartQuiet(s, c);
    }
  }

  lemma AcceptorRemembers(h: Past, s: Sys, ok: bool)
    requires Inv(s) && AcceptorEnabled(s, ok) && Remembered(h, s)
    ensures Remembered(Seen(h, s, AcceptorStep(ok)), AcceptorNext(s, ok))
  {
    var h', p, q := Seen(h, s, AcceptorStep(ok)), s.p, AcceptorNext(s, ok).p;
    AcceptorTells(s, ok);
    AcceptorBehind(h, s, ok);
    NothingHeard(h, h', p, q.(handlers := p.handlers));
    ReadingBegins(h', q.(handlers := p.handlers), q, s.acceptor);
  }

  // A new handler has heard nothing.
  lemma ReadingBegins(h: Past, p: Peers, q: Peers, pc: AcceptorPc)
    requires AllBacked(h, p) && AllFramed(h, p) && TypedOk(h, p)
    requires q == p.(handlers := if pc.Spawning? then p.handlers[pc.conn := Reading] else p.handlers)
    requires pc.Spawning? ==> Unmarked(h, pc.conn)
    ensures AllBacked(h, q) && AllFramed(h, q) && TypedOk(h, q)
  {
    forall c | c in q.handlers
      ensures Backed(h, c, q.handlers[c], ClaimOn(q, c))
    {
      assert c in p.handlers ==> Backed(h, c, p.handlers[c], ClaimOn(p, c));
    }
    forall c
      ensures Framed(h, q, c)
    {
      assert Framed(h, p, c) && FramesOf(q, c) == FramesOf(p, c);
    }
  }

  lemma AcceptorBehind(h: Past, s: Sys, ok: bool)
    requires AcceptorEnabled(s, ok) && Behind(h, s)
    ensures Behind(h, AcceptorNext(s, ok))
    ensures Behind(h.(busied := true), AcceptorNext(s, ok))
  {
    forall c: Conn | !Unmarked(h, c)
      ensures var t := AcceptorNext(s, ok); c < t.p.nextConn && HandledBefore(t, c)
    {
    }
    assert forall c: Conn :: Unmarked(h.(busied := true), c) == Unmarked(h, c);
  }

  lemma CallerRemembers(h: Past, s: Sys, k: nat, ok: bool)
    requires Inv(s) && k in s.p.callers && Remembered(h, s)
    ensures Remembered(Seen(h, s, CallerStep(k, ok)), CallerNext(s, k, ok))
  {
    var h', t := Seen(h, s, CallerStep(k, ok)), CallerNext(s, k, ok);
    CallerClaims(s, k, ok);
    CallerMoves(s, k, ok);
    forall l | l in t.p.callers && t.p.callers[l].Sending?
      ensures l in s.p.callers && s.p.callers[l] == t.p.callers[l]
    {
      SendingKept(s, k, ok, l);
    }
    if s.p.callers[k].Sending? {
      assert CallerOk(ExchOf(s), k);
      CallerWrites(s, k, ok);
      PasswordFramed(h, h', s.p, t.p, k);
    } else {
      CallerQuiet(s, k, ok);
      NothingHeard(h, h', s.p, t.p);
    }
    assert forall c: Conn :: Unmarked(h', c) == Unmarked(h, c);
  }

  lemma CallerWrites(s: Sys, k: nat, ok: bool)
    requires k in s.p.callers && s.p.callers[k].Sending? && CallerOk(ExchOf(s), k)
    ensures
      var pc := s.p.callers[k];
      CallerNext(s, k, ok).p.frames == s.p.frames[pc.r.conn := [Frame(PASSWORD, pc.r.id, pc.password)]]
  {
    var pc := s.p.callers[k];
    assert [] + [Frame(PASSWORD, pc.r.id, pc.password)] == [Frame(PASSWORD, pc.r.id, pc.password)];
  }

  lemma CallerQuiet(s: Sys, k: nat, ok: bool)
    requires k in s.p.callers && !s.p.callers[k].Sending?
    ensures CallerNext(s, k, ok).p.frames == s.p.frames
  {
  }

  lemma PasswordFramed(h: Past, h': Past, p: Peers, q: Peers, k: nat)
    requires AllBacked(h, p) && AllFramed(h, p) && TypedOk(h, p)
    requires h' == h.(unsent := h'.unsent) && k in p.callers && p.callers[k].Sending?
    requires q.handlers == p.handlers && q.claims == p.claims
    requires forall l :: l in q.callers && q.callers[l].Sending? ==> l in p.callers && p.callers[l] == q.callers[l]
    requires
      var pc := p.callers[k];
      && pc.r.conn in p.claims && p.claims[pc.r.conn] == ByPassword
      && q.frames == p.frames[pc.r.conn := [Frame(PASSWORD, pc.r.id, pc.password)]]
    ensures AllBacked(h', q) && AllFramed(h', q) && TypedOk(h', q)
  {
    forall c | c in q.handlers
      ensures Backed(h', c, q.handlers[c], ClaimOn(q, c))
    {
      assert Backed(h, c, p.handlers[c], ClaimOn(p, c));
    }
    forall c
      ensures Framed(h', q, c)
    {
      assert Framed(h, p, c) && (c != p.callers[k].r.conn ==> FramesOf(q, c) == FramesOf(p, c));
    }
  }

  // The UI claims a request that has no frame yet.
  lemma ClaimHeard(h: Past, h': Past, p: Peers, q: Peers, c: Conn, password: seq<Byte>)
    requires AllBacked(h, p) && AllFramed(h, p) && TypedOk(h, p)
    requires FramesOf(p, c) == [] && c !in p.claims
    requires c in p.handlers ==> Serves(p.handlers[c]) && !p.handlers[c].Responding?
    requires h' == h.(typed := h.typed[c := password])
    requires q.handlers == p.handlers && q.claims == p.claims[c := ByPassword] && q.frames == p.frames
    requires forall k :: k in q.callers && q.callers[k].Sending? ==>
               || (k in p.callers && p.callers[k] == q.callers[k])
               || (q.callers[k].r.conn == c && q.callers[k].password == password)
    ensures AllBacked(h', q) && AllFramed(h', q) && TypedOk(h', q)
  {
    forall d | d in q.handlers
      ensures Backed(h', d, q.handlers[d], ClaimOn(q, d))
    {
      assert Backed(h, d, p.handlers[d], ClaimOn(p, d));
    }
    forall d
      ensures Framed(h', q, d)
    {
      assert Framed(h, p, d) && FramesOf(q, d) == FramesOf(p, d);
    }
  }

  lemma ClaimMade(s: Sys, id: RequestId, password: seq<Byte>)
    requires Exchange(ExchOf(s)) && Welcome(s, id, password)
    ensures
      var p, q, r := s.p, Responded(s, id, password).p, s.m.active.value;
      && q.handlers == p.handlers && q.claims == p.claims[r.conn := ByPassword] && q.frames == p.frames
      && q.nextConn == p.nextConn && q.callers == p.callers[p.nextCall := Sending(r, password)]
      && FramesOf(p, r.conn) == [] && r.conn !in p.claims
      && (r.conn in p.handlers ==> Serves(p.handlers[r.conn]) && !p.handlers[r.conn].Responding?)
    ensures Responded(s, id, password).acceptor == s.acceptor
  {
    assert HandlerOk(ExchOf(s), s.m.active.value.conn);
  }

  lemma ClaimRemembers(h: Past, s: Sys, e: Step)
    requires Inv(s) && Enabled(s, e) && Remembered(h, s) && e.RespondPassword? && Welcome(s, e.id, e.password)
    ensures Remembered(Seen(h, s, e), Next(s, e))
  {
    var h', c := Seen(h, s, e), s.m.active.value.conn;
    ClaimMade(s, e.id, e.password);
    ClaimHeard(h, h', s.p, Next(s, e).p, c, e.password);
    assert forall d: Conn :: Unmarked(h', d) == Unmarked(h, d);
  }

  lemma UiRemembers(h: Past, s: Sys, e: Step)
    requires Inv(s) && Enabled(s, e) && FromUi(e) && Remembered(h, s)
    ensures Remembered(Seen(h, s, e), Next(s, e))
  {
    if e.RespondPassword? && Welcome(s, e.id, e.password) {
      ClaimRemembers(h, s, e);
    } else {
      UiQuiet(s, e);
      NothingHeard(h, h, s.p, Next(s, e).p);
    }
  }

  lemma UiQuiet(s: Sys, e: Step)
    requires Enabled(s, e) && FromUi(e) && !(e.RespondPassword? && Welcome(s, e.id, e.password))
    ensures
      var t := Next(s, e);
      && t.p.handlers == s.p.handlers && t.p.claims == s.p.claims && t.p.frames == s.p.frames
      && t.p.nextConn == s.p.nextConn && t.acceptor == s.acceptor
      && (forall k :: k in t.p.callers && t.p.callers[k].Sending? ==> k in s.p.callers && s.p.callers[k] == t.p.callers[k])
  {
  }

  lemma StepRemembers(h: Past, s: Sys, e: Step)
    requires Inv(s) && Enabled(s, e) && Remembered(h, s)
    ensures Remembered(Seen(h, s, e), Next(s, e))
  {
    match e
    case HandlerStep(c, move) => HandlerRemembers(h, s, c, move);
    case CallerStep(k, ok) => CallerRemembers(h, s, k, ok);
    case AcceptorStep(ok) => AcceptorRemembers(h, s, ok);
    case FinisherStep(first) => FinisherAside(s, first);
    case StarterStep(ok) => StarterAside(s, ok);
    case WaiterStep(err) => WaiterControl(s, err);
    case _ => UiRemembers(h, s, e);
  }
}
