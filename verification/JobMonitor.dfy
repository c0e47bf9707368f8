// The shared state of one privileged job (internal/privileged/privileged.go).
//
// Several goroutines touch a job, and they touch it only inside short critical
// sections. `Monitor` gives each section as a function on the guarded fields;
// `Job` is the object itself, one method a section, each proved to be its
// function. The interleavings of the goroutines are in JobSystem.dfy.

module Monitor {
  import opened Packages
  import opened Protocol
  import opened Bytes

  type Conn = nat

  // A request belongs to the connection it arrived on, and no connection carries
  // two.
  datatype Request = Request(id: RequestId, conn: Conn)

  datatype Result = Result(
    err: Option<string>,
    cleanupErr: bool,
    cancelled: bool,
    authFailed: bool,
    authTimedOut: bool)

  // The fields under the job's first mutex.
  datatype Shared = Shared(
    active: Option<Request>,
    live: Option<Conn>,
    known: set<int>,
    cancelled: bool,
    authFailed: bool,
    authTimedOut: bool,
    finalized: bool,
    result: Result)

  const NO_RESULT := Result(None, false, false, false, false)
  const FRESH := Shared(None, None, {}, false, false, false, false, NO_RESULT)

  // The fields under the worker mutex. `closings` counts how often the
  // workers-done channel was closed; closing it twice would panic, as would
  // starting a worker after it closed.
  datatype Workers = Workers(count: int, armed: bool, closed: bool, closings: nat, panicked: bool)

  const NO_WORKERS := Workers(0, false, false, 0, false)

  predicate AuthLatch(s: Shared) {
    s.authFailed || s.authTimedOut
  }

  // A request the user may answer now.
  predicate Answerable(s: Shared, id: RequestId, ctxDone: bool) {
    s.active.Some? && s.active.value.id == id && !s.cancelled && !ctxDone
  }

  function Claim(s: Shared, id: RequestId, ctxDone: bool): (Shared, Option<Request>) {
    if Answerable(s, id, ctxDone) then (s.(active := None), s.active) else (s, None)
  }

  function ReleaseLive(s: Shared, c: Conn): Shared {
    if s.live == Some(c) then s.(live := None) else s
  }

  function CancelRequest(s: Shared, id: RequestId): (Shared, bool) {
    if s.active.Some? && s.active.value.id == id then (s.(cancelled := true), true) else (s, false)
  }

  function MarkCancelled(s: Shared): Shared {
    s.(cancelled := true)
  }

  // False when another exchange already owns the job.
  function Admit(s: Shared, c: Conn): (Shared, bool) {
    if s.live.None? && s.active.None? then (s.(live := Some(c)), true) else (s, false)
  }

  function TerminalType(s: Shared): Byte {
    if AuthLatch(s) then ERROR else CANCEL
  }

  // None when the request became active, otherwise the frame that refuses it.
  function Activate(s: Shared, r: Request, chain: set<int>): (Shared, Option<Byte>) {
    if s.cancelled || s.active.Some? then (s, Some(TerminalType(s)))
    else (s.(active := Some(r), known := s.known + chain), None)
  }

  function TakeBack(s: Shared, r: Request): (Shared, bool) {
    if s.active == Some(r) then (s.(active := None), true) else (s, false)
  }

  function Fail(s: Shared, timeout: bool): Shared {
    if timeout then s.(authTimedOut := true, cancelled := true)
    else s.(authFailed := true, cancelled := true)
  }

  function RecordExit(s: Shared, err: Option<string>): Shared {
    if s.finalized then s else s.(result := s.result.(err := err))
  }

  // The finisher woke because the context ended, not because the child did.
  function ContextEnded(s: Shared): Shared {
    if AuthLatch(s) then s else s.(cancelled := true)
  }

  function Finalize(s: Shared, cleanupErr: bool): Shared {
    s.(finalized := true,
       result := Result(
         if s.cancelled || AuthLatch(s) then None else s.result.err,
         cleanupErr,
         s.cancelled && !AuthLatch(s),
         s.authFailed,
         s.authTimedOut))
  }

  function CloseIfIdle(w: Workers): Workers {
    if w.armed && w.count == 0 && !w.closed then w.(closed := true, closings := w.closings + 1) else w
  }

  function StartWorker(w: Workers): Workers {
    if w.closed then w.(panicked := true) else w.(count := w.count + 1)
  }

  function ArmWorkers(w: Workers): Workers {
    CloseIfIdle(w.(armed := true))
  }

  function FinishWorker(w: Workers): Workers {
    CloseIfIdle(w.(count := w.count - 1))
  }

  // A failed authentication always stops the job, and a published result is
  // never both cancelled and failed, nor an error beside a flag.
  predicate Consistent(s: Shared) {
    && (AuthLatch(s) ==> s.cancelled)
    && (s.result.cancelled ==> !s.result.authFailed && !s.result.authTimedOut)
    && (s.result.cancelled || s.result.authFailed || s.result.authTimedOut ==> s.result.err == None)
    && (!s.finalized ==> !s.result.cancelled && !s.result.authFailed && !s.result.authTimedOut)
  }

  // Every critical section keeps the latches consistent.
  lemma SectionsKeepConsistent(s: Shared, id: RequestId, r: Request, c: Conn, chain: set<int>,
                               err: Option<string>, b: bool)
    requires Consistent(s)
    ensures Consistent(Claim(s, id, b).0)
    ensures Consistent(ReleaseLive(s, c))
    ensures Consistent(CancelRequest(s, id).0)
    ensures Consistent(MarkCancelled(s))
    ensures Consistent(Admit(s, c).0)
    ensures Consistent(Activate(s, r, chain).0)
    ensures Consistent(TakeBack(s, r).0)
    ensures Consistent(Fail(s, b))
    ensures Consistent(RecordExit(s, err))
    ensures Consistent(ContextEnded(s))
    ensures Consistent(Finalize(s, b))
  {
  }

  // The latches only ever rise.
  predicate LatchesRise(s: Shared, t: Shared) {
    && (s.cancelled ==> t.cancelled)
    && (s.authFailed ==> t.authFailed)
    && (s.authTimedOut ==> t.authTimedOut)
    && (s.finalized ==> t.finalized && t.result == s.result)
  }
}

module JobObject {
  import opened Packages
  import opened Protocol
  import opened Bytes
  import opened Monitor

  class Job {
    var active: Option<Request>
    var live: Option<Conn>
    var knownPids: set<int>
    var cancelled: bool
    var authFailed: bool
    var authTimedOut: bool
    var resultFinalized: bool
    var result: Result
    var ctxDone: bool
    var workerCount: int
    var workersArmed: bool
    var workersDoneClosed: bool
    ghost var closings: nat

    ghost function Value(): Shared
      reads this
    {
      Shared(active, live, knownPids, cancelled, authFailed, authTimedOut, resultFinalized, result)
    }

    ghost function Pool(): Workers
      reads this
    {
      Workers(workerCount, workersArmed, workersDoneClosed, closings, false)
    }

    ghost predicate Valid()
      reads this
    {
      Consistent(Value())
    }

    constructor ()
      ensures Valid() && Value() == FRESH && Pool() == NO_WORKERS && !ctxDone
    {
      active, live, knownPids := None, None, {};
      cancelled, authFailed, authTimedOut, resultFinalized := false, false, false, false;
      result, ctxDone := NO_RESULT, false;
      workerCount, workersArmed, workersDoneClosed, closings := 0, false, false, 0;
    }

    // First section of RespondPassword. An oversized or malformed password is
    // refused before the job is touched.
    method ClaimForPassword(id: RequestId, password: seq<Byte>) returns (r: Option<Request>)
      modifies this`active
      ensures old(Valid()) ==> Valid()
      ensures
        var admissible := |password| <= MAX_PASSWORD_BYTES && ValidUtf8(password);
        (Value(), r) == (if admissible then Claim(old(Value()), id, ctxDone) else (old(Value()), None))
      ensures r.Some? ==> r.value.id == id && Sendable(Frame(PASSWORD, id, password)) && !cancelled && !ctxDone
    {
      if |password| > MAX_PASSWORD_BYTES || !ValidUtf8(password) {
        return None;
      }
      r := active;
      if r.None? || r.value.id != id || cancelled || ctxDone {
        return None;
      }
      active := None;
    }

    method ClearLive(c: Conn)
      modifies this`live
      ensures old(Valid()) ==> Valid()
      ensures Value() == ReleaseLive(old(Value()), c)
    {
      if live == Some(c) {
        live := None;
      }
    }

    method CancelPassword(id: RequestId) returns (ok: bool)
      modifies this`cancelled
      ensures old(Valid()) ==> Valid()
      ensures (Value(), ok) == CancelRequest(old(Value()), id)
    {
      if active.None? || active.value.id != id {
        return false;
      }
      cancelled := true;
      ok := true;
    }

    method Cancel()
      modifies this`cancelled
      ensures old(Valid()) ==> Valid()
      ensures Value() == MarkCancelled(old(Value()))
    {
      cancelled := true;
    }

    method AdmitConnection(c: Conn) returns (admitted: bool)
      modifies this`live
      ensures old(Valid()) ==> Valid()
      ensures (Value(), admitted) == Admit(old(Value()), c)
    {
      var busy := live.Some? || active.Some?;
      if !busy {
        live := Some(c);
      }
      admitted := !busy;
    }

    method TerminalResponse() returns (typ: Byte)
      ensures typ == TerminalType(Value())
    {
      if authFailed || authTimedOut {
        return ERROR;
      }
      typ := CANCEL;
    }

    method ActivateRequest(r: Request, chain: set<int>) returns (refusal: Option<Byte>)
      modifies this`active, this`knownPids
      ensures old(Valid()) ==> Valid()
      ensures (Value(), refusal) == Activate(old(Value()), r, chain)
    {
      if cancelled || active.Some? {
        var typ := TerminalResponse();
        return Some(typ);
      }
      active := Some(r);
      knownPids := knownPids + chain;
      refusal := None;
    }

    method Clear(r: Request) returns (owned: bool)
      modifies this`active
      ensures old(Valid()) ==> Valid()
      ensures (Value(), owned) == TakeBack(old(Value()), r)
    {
      owned := active == Some(r);
      if owned {
        active := None;
      }
    }

    method FailAuthentication(timeout: bool)
      modifies this`authFailed, this`authTimedOut, this`cancelled
      ensures old(Valid()) ==> Valid()
      ensures Value() == Fail(old(Value()), timeout)
    {
      if timeout {
        authTimedOut := true;
      } else {
        authFailed := true;
      }
      cancelled := true;
    }

    method RecordChildExit(err: Option<string>)
      modifies this`result
      ensures old(Valid()) ==> Valid()
      ensures Value() == RecordExit(old(Value()), err)
    {
      if !resultFinalized {
        result := result.(err := err);
      }
    }

    method NoteContextEnded()
      modifies this`cancelled
      ensures old(Valid()) ==> Valid()
      ensures Value() == ContextEnded(old(Value()))
    {
      if !authFailed && !authTimedOut {
        cancelled := true;
      }
    }

    method FinalizeResult(cleanupErr: bool)
      modifies this`result, this`resultFinalized
      ensures old(Valid()) ==> Valid()
      ensures Value() == Finalize(old(Value()), cleanupErr)
    {
      if cancelled || authFailed || authTimedOut {
        result := result.(err := None);
      }
      result := result.(cancelled := cancelled && !authFailed && !authTimedOut);
      result := result.(authFailed := authFailed);
      result := result.(authTimedOut := authTimedOut);
      result := result.(cleanupErr := cleanupErr);
      resultFinalized := true;
    }

    // The program panics instead when the pool is already done.
    method BeginWorker()
      requires !workersDoneClosed
      modifies this`workerCount
      ensures Pool() == StartWorker(old(Pool()))
    {
      workerCount := workerCount + 1;
    }

    method Arm()
      modifies this`workersArmed, this`workersDoneClosed, this`closings
      ensures Pool() == ArmWorkers(old(Pool()))
    {
      workersArmed := true;
      CloseWorkersDoneLocked();
    }

    method EndWorker()
      modifies this`workerCount, this`workersDoneClosed, this`closings
      ensures Pool() == FinishWorker(old(Pool()))
    {
      workerCount := workerCount - 1;
      CloseWorkersDoneLocked();
    }

    method CloseWorkersDoneLocked()
      modifies this`workersDoneClosed, this`closings
      ensures Pool() == CloseIfIdle(old(Pool()))
    {
      if workersArmed && workerCount == 0 && !workersDoneClosed {
        workersDoneClosed := true;
        closings := closings + 1;
      }
    }
  }
}
