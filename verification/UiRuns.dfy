// Whole runs of the UI, with a history beside the state: which entries were
// confirmed, which were started or dropped, and which succeeded.

module UiRuns {
  import opened Packages
  import opened Protocol
  import opened UiSpec
  import opened UiInvariant
  import opened UiFlight
  import opened UiLedger
  import L = LoaderSpec
  import M = Monitor

  datatype Fate = Started(entry: Entry) | Dropped(entry: Entry)

  // `flight` holds the commands whose message is still to come.
  datatype World = World(
    ui: Ui,
    flight: set<Cmd>,
    confirmed: seq<Entry>,
    fates: seq<Fate>,
    succeeded: seq<Entry>)

  // A message arrives on its own, or answers a command in flight.
  datatype Step = Prompt(event: Event) | Deliver(event: Event, cmd: Cmd)

  ghost predicate Enabled(w: World, s: Step) {
    match s
    case Prompt(e) => Spontaneous(e)
    case Deliver(e, c) => c in w.flight && Answers(e, c)
  }

  function Left(w: World, s: Step): set<Cmd> {
    if s.Deliver? then w.flight - {s.cmd} else w.flight
  }

  function Drop(queue: seq<Entry>): seq<Fate> {
    seq(|queue|, i requires 0 <= i < |queue| => Dropped(queue[i]))
  }

  function EntriesOf(fates: seq<Fate>): seq<Entry> {
    seq(|fates|, i requires 0 <= i < |fates| => fates[i].entry)
  }

  // A start command settles the fate of the entry it starts, and a report of an
  // ended run that of the whole queue.
  function FatesOf(u: Ui, m: Move): seq<Fate> {
    if Starts(m.1) && JobRunning(m.0.work) then [Started(m.0.work.phase.current)]
    else if Ends(m.1) then Drop(u.work.queue)
    else []
  }

  function After(w: World, s: Step): World
    requires Timely(w.ui, s.event)
  {
    var u, e := w.ui, s.event;
    var m := Update(u, e);
    World(m.0, Left(w, s) + Cmds(m.1), w.confirmed + Confirms(u, e), w.fates + FatesOf(u, m),
          w.succeeded + if Succeeds(u, e) then [u.work.phase.current] else [])
  }

  // What a step asks for; nothing is known of a message its handler may not be given.
  function Asked(w: World, s: Step): seq<Out> {
    if Timely(w.ui, s.event) then Update(w.ui, s.event).1 else []
  }

  function Opening(env: Env): World {
    World(Init(env).0, Cmds(Init(env).1), [], [], [])
  }

  // Nothing is known of the state after a message its handler may not be given;
  // EveryWorld proves there is no such message.
  ghost predicate Moves(w: World, s: Step, w': World) {
    Enabled(w, s) && (Timely(w.ui, s.event) ==> w' == After(w, s))
  }

  ghost predicate Follows(trace: seq<World>, steps: seq<Step>, env: Env) {
    && |trace| == |steps| + 1
    && trace[0] == Opening(env)
    && forall i :: 0 <= i < |steps| ==> Moves(trace[i], steps[i], trace[i + 1])
  }

  // ---- the invariant ----

  // Every confirmed entry is started, dropped, or queued, in the order confirmed.
  ghost predicate Balanced(w: World) {
    EntriesOf(w.fates) + w.ui.work.queue == w.confirmed
  }

  // The current operation is the one started last.
  ghost predicate CurrentIsLast(w: World) {
    JobRunning(w.ui.work) && !w.ui.work.phase.Halted? ==>
      w.fates != [] && w.fates[|w.fates| - 1] == Started(w.ui.work.phase.current)
  }

  function Last<T>(s: seq<T>, n: nat): seq<T>
    requires n <= |s|
  {
    s[|s| - n..]
  }

  // A batch is the last thing confirmed: its successes, its current operation, and
  // its queue are exactly its entries in order.
  ghost predicate BatchLine(w: World) {
    var k, n := w.ui.work.batchCompleted, w.ui.work.batchTotal;
    var phase := w.ui.work.phase;
    n > 0 && (phase.Starting? || phase.Running? || phase.Reloading?) ==>
      && k <= |w.succeeded| && n <= |w.confirmed|
      && Last(w.succeeded, k) + (if phase.Reloading? then [] else [phase.current]) + w.ui.work.queue
         == Last(w.confirmed, n)
      && forall x :: x in Last(w.confirmed, n) ==> BatchEntry(x)
  }

  ghost predicate Inv(w: World) {
    Core(w.ui) && FlightOk(w.ui, w.flight) && Balanced(w) && CurrentIsLast(w) && BatchLine(w)
  }

  lemma StepFlight(w: World, s: Step)
    requires Core(w.ui) && FlightOk(w.ui, w.flight) && Enabled(w, s)
    ensures Timely(w.ui, s.event)
    ensures FlightOk(After(w, s).ui, After(w, s).flight) && Cmds(Update(w.ui, s.event).1) !! Left(w, s)
  {
    match s
    case Prompt(e) => SpontaneousFlight(w.ui, w.flight, e);
    case Deliver(e, c) => DeliveryFlight(w.ui, w.flight, c, e);
  }

  lemma EntriesConcat(a: seq<Fate>, b: seq<Fate>)
    ensures EntriesOf(a + b) == EntriesOf(a) + EntriesOf(b)
  {
  }

  lemma FatesBalance(w: World, e: Event, m: Move)
    requires Accounted(w.ui, e, m) && Balanced(w)
    ensures EntriesOf(w.fates + FatesOf(w.ui, m)) + m.0.work.queue == w.confirmed + Confirms(w.ui, e)
  {
    var settled := FatesOf(w.ui, m);
    EntriesConcat(w.fates, settled);
    SettledBalance(w.ui, e, m);
    Regroup(EntriesOf(w.fates), EntriesOf(settled), m.0.work.queue);
    Regroup(EntriesOf(w.fates), w.ui.work.queue, Confirms(w.ui, e));
  }

  lemma SettledBalance(u: Ui, e: Event, m: Move)
    requires Accounted(u, e, m)
    ensures EntriesOf(FatesOf(u, m)) + m.0.work.queue == u.work.queue + Confirms(u, e)
  {
    if Launched(u, e, m.0, m.1) {
      assert EntriesOf(FatesOf(u, m)) == [m.0.work.phase.current];
    } else if Cut(u, e, m.0, m.1) {
      assert EntriesOf(FatesOf(u, m)) == u.work.queue;
    }
  }

  lemma Regroup<T>(a: seq<T>, b: seq<T>, c: seq<T>)
    ensures a + b + c == a + (b + c)
  {
  }

  lemma StepBalance(w: World, s: Step)
    requires Core(w.ui) && Timely(w.ui, s.event) && Balanced(w)
    ensures Balanced(After(w, s))
  {
    UpdateAccounted(w.ui, s.event);
    FatesBalance(w, s.event, Update(w.ui, s.event));
  }

  lemma StepCurrent(w: World, s: Step)
    requires Core(w.ui) && Timely(w.ui, s.event) && CurrentIsLast(w)
    ensures CurrentIsLast(After(w, s))
  {
    UpdateAccounted(w.ui, s.event);
  }

  // The last operation of a batch succeeds and its reload begins.
  lemma LandedBatch(w: World, w': World)
    requires BatchLine(w) && w.ui.work.phase.Running? && w'.ui.work.phase.Reloading?
    requires w'.ui.work.batchTotal == w.ui.work.batchTotal > 0
    requires w'.ui.work.batchCompleted == w.ui.work.batchCompleted + 1
    requires w.ui.work.queue == w'.ui.work.queue && w'.confirmed == w.confirmed
    requires w'.succeeded == w.succeeded + [w.ui.work.phase.current]
    ensures BatchLine(w')
  {
    LastGrows(w.succeeded, w.ui.work.phase.current, w.ui.work.batchCompleted);
    var done := Last(w'.succeeded, w'.ui.work.batchCompleted);
    assert done + [] == done;
  }

  lemma KeptBatch(w: World, e: Event, m: Move, w': World)
    requires Core(w.ui) && Timely(w.ui, e) && BatchLine(w) && Kept(w.ui, e, m.0, m.1) && Core(m.0) && w'.ui == m.0
    requires w'.confirmed == w.confirmed + Confirms(w.ui, e)
    requires w'.succeeded == w.succeeded + if Succeeds(w.ui, e) then [w.ui.work.phase.current] else []
    ensures BatchLine(w')
  {
    var work, work' := w.ui.work, m.0.work;
    if work'.batchTotal > 0 && (work'.phase.Starting? || work'.phase.Running? || work'.phase.Reloading?) {
      assert Confirms(w.ui, e) == [] && w'.confirmed == w.confirmed;
      if Succeeds(w.ui, e) {
        LandedBatch(w, w');
      } else {
        assert w'.succeeded == w.succeeded;
      }
    }
  }

  lemma LastGrows<T>(s: seq<T>, x: T, n: nat)
    requires n <= |s|
    ensures Last(s + [x], n + 1) == Last(s, n) + [x]
  {
  }

  // Its next entry starts: one more success, one fewer queued.
  lemma PoppedBatch(w: World, e: Event, m: Move, w': World)
    requires BatchLine(w) && Launched(w.ui, e, m.0, m.1) && w'.ui == m.0 && Confirms(w.ui, e) == []
    requires w'.confirmed == w.confirmed
    requires w'.succeeded == w.succeeded + [w.ui.work.phase.current]
    ensures BatchLine(w')
  {
    var work, work' := w.ui.work, m.0.work;
    if work.batchTotal > 0 {
      LastGrows(w.succeeded, work.phase.current, work.batchCompleted);
      assert work.queue + [] == work.queue;
      Regroup(Last(w'.succeeded, work'.batchCompleted), [work'.phase.current], work'.queue);
    }
  }

  // The batch itself starts.
  lemma OpenedBatch(w: World, e: Event, m: Move, w': World)
    requires Launched(w.ui, e, m.0, m.1) && w'.ui == m.0 && Confirms(w.ui, e) != [] && w.ui.work.queue == []
    requires WorkOk(m.0.work, m.0.back.load)
    requires w'.confirmed == w.confirmed + Confirms(w.ui, e)
    ensures BatchLine(w')
  {
    var added := Confirms(w.ui, e);
    assert Last(w'.confirmed, |added|) == added == w.ui.work.queue + added;
    assert Last(w'.succeeded, 0) + [m.0.work.phase.current] == [m.0.work.phase.current];
  }

  lemma StepBatch(w: World, s: Step)
    requires Core(w.ui) && Timely(w.ui, s.event) && Core(After(w, s).ui) && BatchLine(w)
    ensures BatchLine(After(w, s))
  {
    var m := Update(w.ui, s.event);
    UpdateAccounted(w.ui, s.event);
    if Kept(w.ui, s.event, m.0, m.1) {
      KeptBatch(w, s.event, m, After(w, s));
    } else if Launched(w.ui, s.event, m.0, m.1) {
      if Confirms(w.ui, s.event) == [] {
        PoppedBatch(w, s.event, m, After(w, s));
      } else {
        OpenedBatch(w, s.event, m, After(w, s));
      }
    }
  }

  lemma StepKeepsInv(w: World, s: Step)
    requires Inv(w) && Enabled(w, s)
    ensures Timely(w.ui, s.event) && Inv(After(w, s))
  {
    StepFlight(w, s);
    UpdateCore(w.ui, s.event);
    StepBalance(w, s);
    StepCurrent(w, s);
    StepBatch(w, s);
  }

  lemma OpeningInv(env: Env)
    ensures Inv(Opening(env))
  {
    InitFlight(env);
    var out := Init(env).1;
    assert {} + Cmds(out) == Cmds(out);
  }

  lemma MovesKeepInv(w: World, s: Step, w': World)
    requires Inv(w) && Moves(w, s, w')
    ensures Timely(w.ui, s.event) && w' == After(w, s) && Inv(w')
  {
    StepKeepsInv(w, s);
  }

  lemma {:induction false} InvAt(trace: seq<World>, steps: seq<Step>, env: Env, i: nat)
    requires Follows(trace, steps, env) && i < |trace|
    ensures Inv(trace[i])
  {
    if i == 0 {
      OpeningInv(env);
    } else {
      InvAt(trace, steps, env, i - 1);
      MovesKeepInv(trace[i - 1], steps[i - 1], trace[i - 1 + 1]);
    }
  }

  // Every state of every run satisfies the invariant, and every message of a run is
  // one its handler may be given.
  lemma EveryWorld(trace: seq<World>, steps: seq<Step>, env: Env, i: nat)
    requires Follows(trace, steps, env) && i < |trace|
    ensures Inv(trace[i])
    ensures i < |steps| ==> Timely(trace[i].ui, steps[i].event) && trace[i + 1] == After(trace[i], steps[i])
  {
    InvAt(trace, steps, env, i);
    if i < |steps| {
      MovesKeepInv(trace[i], steps[i], trace[i + 1]);
    }
  }

  // ---- conservation ----

  ghost predicate Grows(w: World, w': World) {
    w.confirmed <= w'.confirmed && w.fates <= w'.fates && w.succeeded <= w'.succeeded
  }

  lemma GrowsAt(trace: seq<World>, steps: seq<Step>, env: Env, n: nat)
    requires Follows(trace, steps, env) && n < |steps|
    ensures Grows(trace[n], trace[n + 1])
  {
    EveryWorld(trace, steps, env, n);
  }

  lemma {:induction false} GrowsChain(trace: seq<World>, i: nat, j: nat)
    requires i <= j < |trace| && forall n :: i <= n < j ==> Grows(trace[n], trace[n + 1])
    ensures Grows(trace[i], trace[j])
    decreases j - i
  {
    if i < j {
      GrowsChain(trace, i, j - 1);
      assert Grows(trace[j - 1], trace[j - 1 + 1]);
    }
  }

  // The histories only grow.
  lemma HistoriesGrow(trace: seq<World>, steps: seq<Step>, env: Env, i: nat, j: nat)
    requires Follows(trace, steps, env) && i <= j < |trace|
    ensures Grows(trace[i], trace[j])
  {
    forall n | i <= n < j
      ensures Grows(trace[n], trace[n + 1])
    {
      GrowsAt(trace, steps, env, n);
    }
    GrowsChain(trace, i, j);
  }

  // Conservation and order: the k-th entry confirmed has been started, has been
  // dropped, or is queued, and everything before a started entry is settled.
  lemma ConfirmedIsSettledOrQueued(trace: seq<World>, steps: seq<Step>, env: Env, i: nat, k: nat)
    requires Follows(trace, steps, env) && i < |trace| && k < |trace[i].confirmed|
    ensures
      var settled := |trace[i].fates|;
      && |trace[i].confirmed| == settled + |trace[i].ui.work.queue|
      && trace[i].confirmed[k] == (if k < settled then trace[i].fates[k].entry else trace[i].ui.work.queue[k - settled])
  {
    InvAt(trace, steps, env, i);
    BalancedAt(trace[i], k);
  }

  lemma BalancedAt(w: World, k: nat)
    requires Balanced(w) && k < |w.confirmed|
    ensures |w.confirmed| == |w.fates| + |w.ui.work.queue|
    ensures w.confirmed[k] == if k < |w.fates| then w.fates[k].entry else w.ui.work.queue[k - |w.fates|]
  {
    assert (EntriesOf(w.fates) + w.ui.work.queue)[k] == w.confirmed[k];
  }

  // A start command carries the oldest unsettled entry's package, and the operation
  // in hand is that entry, verb and snapshot as confirmed.
  lemma StartsTheOldest(trace: seq<World>, steps: seq<Step>, env: Env, i: nat, id: nat, p: Package)
    requires Follows(trace, steps, env) && i < |steps|
    requires StartCmd(id, p) in trace[i + 1].flight && StartCmd(id, p) !in trace[i].flight
    ensures
      var w, w' := trace[i], trace[i + 1];
      && |w.fates| < |w'.confirmed| && w'.fates == w.fates + [Started(w'.confirmed[|w.fates|])]
      && w'.ui.work.phase == Starting(w'.confirmed[|w.fates|]) && w'.confirmed[|w.fates|].pkg == p
  {
    EveryWorld(trace, steps, env, i);
    EveryWorld(trace, steps, env, i + 1);
    var u, e := trace[i].ui, steps[i].event;
    var m := Update(u, e);
    assert StartCmd(id, p) in Cmds(m.1);
    StartIssued(m.1, id, p);
    UpdateAccounted(u, e);
    var n := |trace[i].fates|;
    assert trace[i + 1].fates[n] == Started(m.0.work.phase.current);
    assert EntriesOf(trace[i + 1].fates)[n] == trace[i + 1].confirmed[n];
  }

  // Identifiers only grow, and while one stays current a start in progress keeps its
  // entry.
  ghost predicate KeepsStart(w: World, w': World) {
    && w.ui.work.id <= w'.ui.work.id
    && (w'.ui.work.id == w.ui.work.id && w'.ui.work.phase.Starting? ==> w.ui.work.phase == w'.ui.work.phase)
  }

  lemma KeepsStartAt(trace: seq<World>, steps: seq<Step>, env: Env, n: nat)
    requires Follows(trace, steps, env) && n < |steps|
    ensures KeepsStart(trace[n], trace[n + 1])
  {
    EveryWorld(trace, steps, env, n);
    UpdateAccounted(trace[n].ui, steps[n].event);
  }

  lemma {:induction false} KeepsStartChain(trace: seq<World>, i: nat, j: nat)
    requires i <= j < |trace| && forall n :: i <= n < j ==> KeepsStart(trace[n], trace[n + 1])
    ensures KeepsStart(trace[i], trace[j])
    decreases j - i
  {
    if i < j {
      KeepsStartChain(trace, i, j - 1);
      assert KeepsStart(trace[j - 1], trace[j - 1 + 1]);
    }
  }

  // However late the start command reads the verb, it is the one its snapshot was
  // confirmed with: from the message that issues the command to the one that answers
  // it, the operation in hand is the entry the command was issued for.
  lemma StartKeepsItsEntry(trace: seq<World>, steps: seq<Step>, env: Env, i: nat, j: nat, id: nat, p: Package)
    requires Follows(trace, steps, env) && i < j < |trace|
    requires StartCmd(id, p) in trace[i + 1].flight && StartCmd(id, p) !in trace[i].flight
    requires StartCmd(id, p) in trace[j].flight
    ensures |trace[i].fates| < |trace[i + 1].confirmed|
    ensures trace[j].ui.work.phase == Starting(trace[i + 1].confirmed[|trace[i].fates|])
  {
    StartsTheOldest(trace, steps, env, i, id, p);
    FlagsTellFlight(trace, steps, env, i + 1, StartCmd(id, p));
    FlagsTellFlight(trace, steps, env, j, StartCmd(id, p));
    forall n | i + 1 <= n < j
      ensures KeepsStart(trace[n], trace[n + 1])
    {
      KeepsStartAt(trace, steps, env, n);
    }
    KeepsStartChain(trace, i + 1, j);
  }

  lemma StartIssued(out: seq<Out>, id: nat, p: Package)
    requires StartCmd(id, p) in Cmds(out)
    ensures Starts(out)
  {
  }

  // ---- what a failure leaves ----

  lemma HaltedStep(w: World, s: Step)
    requires Core(w.ui) && Timely(w.ui, s.event) && w.ui.work.phase.Halted?
    ensures After(w, s).ui.work.phase.Halted? && After(w, s).fates == w.fates
  {
    UpdateAccounted(w.ui, s.event);
  }

  ghost predicate StaysHalted(w: World, w': World) {
    w.ui.work.phase.Halted? ==> w'.ui.work.phase.Halted? && w'.fates == w.fates
  }

  lemma HaltedStepAt(trace: seq<World>, steps: seq<Step>, env: Env, n: nat)
    requires Follows(trace, steps, env) && n < |steps|
    ensures StaysHalted(trace[n], trace[n + 1])
  {
    EveryWorld(trace, steps, env, n);
    if trace[n].ui.work.phase.Halted? {
      HaltedStep(trace[n], steps[n]);
    }
  }

  lemma {:induction false} HaltedChain(trace: seq<World>, i: nat, j: nat)
    requires i <= j < |trace| && forall n :: i <= n < j ==> StaysHalted(trace[n], trace[n + 1])
    ensures StaysHalted(trace[i], trace[j])
    decreases j - i
  {
    if i < j {
      HaltedChain(trace, i, j - 1);
      assert StaysHalted(trace[j - 1], trace[j - 1 + 1]);
    }
  }

  // A halted operation never moves again, and neither does what waits behind it.
  lemma HaltedForGood(trace: seq<World>, steps: seq<Step>, env: Env, i: nat, j: nat)
    requires Follows(trace, steps, env) && i <= j < |trace| && trace[i].ui.work.phase.Halted?
    ensures trace[j].ui.work.phase.Halted? && trace[j].fates == trace[i].fates
  {
    forall n | i <= n < j
      ensures StaysHalted(trace[n], trace[n + 1])
    {
      HaltedStepAt(trace, steps, env, n);
    }
    HaltedChain(trace, i, j);
  }

  // Everything settled by this step is dropped, and nothing is left that could start.
  ghost predicate Closed(w: World, w': World) {
    && w.fates <= w'.fates && w.confirmed <= w'.confirmed
    && (forall n :: |w.fates| <= n < |w'.fates| ==> w'.fates[n].Dropped?)
    && (w'.ui.work.phase.Halted? || |w'.fates| == |w'.confirmed|)
  }

  lemma FailureStep(w: World, s: Step)
    requires Core(w.ui) && Timely(w.ui, s.event) && Fails(w.ui, s.event) && Balanced(After(w, s))
    ensures Closed(w, After(w, s))
  {
    FailureStops(w.ui, s.event);
    assert |EntriesOf(After(w, s).fates)| == |After(w, s).fates|;
  }

  lemma FailureStepAt(trace: seq<World>, steps: seq<Step>, env: Env, i: nat)
    requires Follows(trace, steps, env) && i < |steps| && Fails(trace[i].ui, steps[i].event)
    ensures Closed(trace[i], trace[i + 1])
  {
    EveryWorld(trace, steps, env, i);
    EveryWorld(trace, steps, env, i + 1);
    FailureStep(trace[i], steps[i]);
  }

  // After a failed start or a result that is not a success, none of the entries
  // waiting at that moment ever starts, resizes included.
  lemma FailureIsFinal(trace: seq<World>, steps: seq<Step>, env: Env, i: nat, j: nat, k: nat)
    requires Follows(trace, steps, env) && i < |steps| && i < j < |trace|
    requires Fails(trace[i].ui, steps[i].event)
    requires |trace[i].fates| <= k < |trace[i].confirmed| && k < |trace[j].fates|
    ensures trace[j].fates[k].Dropped?
  {
    FailureStepAt(trace, steps, env, i);
    HistoriesGrow(trace, steps, env, i + 1, j);
    if trace[i + 1].ui.work.phase.Halted? {
      HaltedForGood(trace, steps, env, i + 1, j);
    }
    assert trace[j].fates[k] == trace[i + 1].fates[k];
  }

  // ---- nothing is pending twice ----

  ghost predicate Distinct(rows: seq<Package>) {
    forall i, j :: 0 <= i < j < |rows| ==> !SameTarget(rows[i], rows[j])
  }

  // The inventory names each package once.
  ghost predicate Honest(e: Event) {
    e.env.retained.Some? ==> Distinct(e.env.retained.value)
  }

  ghost predicate NoTwins(u: Ui) {
    && (forall i, j :: 0 <= i < j < |Held(u.work)| ==> !Same(Held(u.work)[i], Held(u.work)[j]))
    && Distinct(u.ask.batch)
  }

  lemma {:induction false} BatchDistinct(rows: seq<Package>)
    requires Distinct(rows)
    ensures Distinct(Batch(rows))
  {
    if rows != [] {
      BatchDistinct(rows[1..]);
      BatchRows(rows[1..]);
    }
  }

  lemma HeldAfter(u: Ui, e: Event, m: Move)
    requires WorkOk(u.work, u.back.load) && WorkOk(m.0.work, m.0.back.load) && Accounted(u, e, m)
    ensures
      var held, held' := Held(u.work), Held(m.0.work);
      || (held' == held + Confirms(u, e) && |Confirms(u, e)| <= 1
          && forall x :: x in Confirms(u, e) ==> !exists i :: 0 <= i < |held| && Same(held[i], x))
      || (held != [] && held' == held[1..])
      || held' == Confirms(u, e)
      || (held != [] && held' == [held[0]])
  {
    if Launched(u, e, m.0, m.1) && Confirms(u, e) == [] {
      assert u.work.queue + [] == u.work.queue;
    }
  }

  lemma ConfirmsDistinct(u: Ui, e: Event)
    requires NoTwins(u)
    ensures forall i, j :: 0 <= i < j < |Confirms(u, e)| ==> !Same(Confirms(u, e)[i], Confirms(u, e)[j])
  {
  }

  lemma TwinsAfter(u: Ui, e: Event, m: Move)
    requires Core(u) && Core(m.0) && Accounted(u, e, m) && NoTwins(u) && Distinct(m.0.ask.batch)
    ensures NoTwins(m.0)
  {
    HeldAfter(u, e, m);
    ConfirmsDistinct(u, e);
  }

  lemma StepKeepsTwins(u: Ui, e: Event)
    requires Core(u) && Timely(u, e) && NoTwins(u) && Honest(e)
    ensures NoTwins(Update(u, e).0)
  {
    UpdateCore(u, e);
    UpdateAccounted(u, e);
    BatchComes(u, e);
    BatchDistinct(e.env.retained.GetOr([]));
    TwinsAfter(u, e, Update(u, e));
  }

  ghost predicate KeepsTwins(w: World, w': World) {
    NoTwins(w.ui) ==> NoTwins(w'.ui)
  }

  lemma KeepsTwinsAt(trace: seq<World>, steps: seq<Step>, env: Env, n: nat)
    requires Follows(trace, steps, env) && n < |steps| && Honest(steps[n].event)
    ensures KeepsTwins(trace[n], trace[n + 1])
  {
    EveryWorld(trace, steps, env, n);
    if NoTwins(trace[n].ui) {
      StepKeepsTwins(trace[n].ui, steps[n].event);
    }
  }

  lemma {:induction false} KeepsTwinsChain(trace: seq<World>, i: nat, j: nat)
    requires i <= j < |trace| && forall n :: i <= n < j ==> KeepsTwins(trace[n], trace[n + 1])
    ensures KeepsTwins(trace[i], trace[j])
    decreases j - i
  {
    if i < j {
      KeepsTwinsChain(trace, i, j - 1);
      assert KeepsTwins(trace[j - 1], trace[j - 1 + 1]);
    }
  }

  lemma OpeningTwins(env: Env)
    ensures NoTwins(Opening(env).ui)
  {
  }

  // No package, by kind and name, is ever pending twice for the same verb.
  lemma PendingOnce(trace: seq<World>, steps: seq<Step>, env: Env, i: nat)
    requires Follows(trace, steps, env) && i < |trace|
    requires forall n :: 0 <= n < |steps| ==> Honest(steps[n].event)
    ensures NoTwins(trace[i].ui)
    ensures
      var held := Held(trace[i].ui.work);
      forall j, k :: 0 <= j < k < |held| ==>
        held[j].verb != held[k].verb || held[j].pkg.kind != held[k].pkg.kind || held[j].pkg.name != held[k].pkg.name
  {
    OpeningTwins(env);
    forall n | 0 <= n < i
      ensures KeepsTwins(trace[n], trace[n + 1])
    {
      KeepsTwinsAt(trace, steps, env, n);
    }
    KeepsTwinsChain(trace, 0, i);
  }

  // ---- batches ----

  // "Upgraded n" is true: the last n operations confirmed are the last n that
  // succeeded, in the same order, each an upgrade of a package that is not this program.
  lemma UpgradedAllIsTrue(trace: seq<World>, steps: seq<Step>, env: Env, i: nat, n: nat)
    requires Follows(trace, steps, env) && i < |steps| && Say(UpgradedAll(n)) in Asked(trace[i], steps[i])
    ensures n > 0 && n <= |trace[i].succeeded| && n <= |trace[i].confirmed|
    ensures Last(trace[i].succeeded, n) == Last(trace[i].confirmed, n)
    ensures forall x :: x in Last(trace[i].succeeded, n) ==> BatchEntry(x)
    ensures steps[i].event.FleetResult? && steps[i].event.ok
  {
    EveryWorld(trace, steps, env, i);
    SaidIsEarned(trace[i], steps[i], n);
    WholeBatch(trace[i], n);
  }

  lemma SaidIsEarned(w: World, s: Step, n: nat)
    requires Core(w.ui) && Say(UpgradedAll(n)) in Asked(w, s)
    ensures s.event.FleetResult? && s.event.ok && w.ui.work.phase.Reloading? && w.ui.work.queue == []
    ensures n == w.ui.work.batchTotal == w.ui.work.batchCompleted > 0
  {
    var out := Asked(w, s);
    var at :| 0 <= at < |out| && out[at] == Say(UpgradedAll(n));
    UpgradedAllMeans(w.ui, s.event);
  }

  lemma WholeBatch(w: World, n: nat)
    requires BatchLine(w) && w.ui.work.phase.Reloading? && w.ui.work.queue == []
    requires n == w.ui.work.batchTotal == w.ui.work.batchCompleted > 0
    ensures n <= |w.succeeded| && n <= |w.confirmed| && Last(w.succeeded, n) == Last(w.confirmed, n)
    ensures forall x :: x in Last(w.succeeded, n) ==> BatchEntry(x)
  {
    assert Last(w.succeeded, n) + [] + [] == Last(w.succeeded, n);
  }

  // ---- one of each in flight ----

  predicate IsLoad(c: Cmd) {
    c.ListCmd? || c.FleetCmd?
  }

  predicate IsJob(c: Cmd) {
    c.StartCmd? || c.ResultCmd?
  }

  predicate Exclusive(a: Cmd, b: Cmd) {
    (IsLoad(a) && IsLoad(b)) || (a.InfoCmd? && b.InfoCmd?) || (IsJob(a) && IsJob(b))
  }

  // At most one load, one details lookup, and one start or job are ever in flight.
  // So a new one is issued only when none is outstanding.
  lemma SingleFlight(trace: seq<World>, steps: seq<Step>, env: Env, i: nat, a: Cmd, b: Cmd)
    requires Follows(trace, steps, env) && i < |trace| && a in trace[i].flight && b in trace[i].flight
    requires Exclusive(a, b)
    ensures a == b
  {
    InvAt(trace, steps, env, i);
    OneOfEach(trace[i].ui, trace[i].flight, a, b);
  }

  lemma OneOfEach(u: Ui, f: set<Cmd>, a: Cmd, b: Cmd)
    requires FlightOk(u, f) && a in f && b in f && Exclusive(a, b)
    ensures a == b
  {
  }

  // No command is issued while the same one is in flight, or one of its kind where
  // only one may be.
  lemma NothingIsIssuedTwice(trace: seq<World>, steps: seq<Step>, env: Env, i: nat, c: Cmd, b: Cmd)
    requires Follows(trace, steps, env) && i < |steps|
    requires c in Cmds(Asked(trace[i], steps[i])) && b in Left(trace[i], steps[i])
    ensures c != b && !Exclusive(c, b)
  {
    EveryWorld(trace, steps, env, i);
    StepFlight(trace[i], steps[i]);
    assert c in trace[i + 1].flight && b in trace[i + 1].flight;
    if Exclusive(c, b) {
      SingleFlight(trace, steps, env, i + 1, c, b);
    }
  }

  ghost predicate KeepsWindows(w: World, w': World) {
    Windows(w.ui) ==> Windows(w'.ui)
  }

  lemma KeepsWindowsAt(trace: seq<World>, steps: seq<Step>, env: Env, n: nat)
    requires Follows(trace, steps, env) && n < |steps| && KeepsWindow(trace[n].ui, steps[n].event)
    ensures KeepsWindows(trace[n], trace[n + 1])
  {
    EveryWorld(trace, steps, env, n);
    if Windows(trace[n].ui) {
      UpdateWindows(trace[n].ui, steps[n].event);
    }
  }

  lemma {:induction false} KeepsWindowsChain(trace: seq<World>, i: nat, j: nat)
    requires i <= j < |trace| && forall n :: i <= n < j ==> KeepsWindows(trace[n], trace[n + 1])
    ensures KeepsWindows(trace[i], trace[j])
    decreases j - i
  {
    if i < j {
      KeepsWindowsChain(trace, i, j - 1);
      assert KeepsWindows(trace[j - 1], trace[j - 1 + 1]);
    }
  }

  // The window stays with the operation in every run whose resizes keep it.
  lemma WindowsHold(trace: seq<World>, steps: seq<Step>, env: Env, i: nat)
    requires Follows(trace, steps, env) && i < |trace|
    requires forall n :: 0 <= n < i ==> KeepsWindow(trace[n].ui, steps[n].event)
    ensures Windows(trace[i].ui)
  {
    InitFlight(env);
    forall n | 0 <= n < i
      ensures KeepsWindows(trace[n], trace[n + 1])
    {
      KeepsWindowsAt(trace, steps, env, n);
    }
    KeepsWindowsChain(trace, 0, i);
  }

  // Each pending flag says exactly what is in flight: the load by its purpose and
  // kind, the lookup, the measurement, the start or the job, and the review, which
  // has its details or its trust command in flight but never both. Of measurements
  // and reviews only the current one is waited for.
  lemma FlagsTellFlight(trace: seq<World>, steps: seq<Step>, env: Env, i: nat, c: Cmd)
    requires Follows(trace, steps, env) && i < |trace|
    ensures FlagFor(trace[i].ui, trace[i].flight, c)
    ensures ReviewFlag(trace[i].ui.back, trace[i].flight)
  {
    InvAt(trace, steps, env, i);
  }

  ghost predicate FlagFor(u: Ui, flight: set<Cmd>, c: Cmd) {
    var w, b := u.work, u.back;
    match c
    case ListCmd(id, purpose) =>
      c in flight <==> b.load == Some(purpose) && b.loadId == id && (purpose == AfterOperation ==> w.batchTotal == 0)
    case FleetCmd(id) => c in flight <==> b.load == Some(AfterOperation) && b.loadId == id && w.batchTotal > 0
    case InfoCmd(identity) => c in flight <==> u.info.active == Some(identity)
    case SizesCmd(id) => id == b.sizesId ==> (c in flight <==> b.sizesPending)
    case StartCmd(id, p) => c in flight <==> w.phase.Starting? && w.id == id && w.phase.current.pkg == p
    case ResultCmd(id) => c in flight <==> w.phase.Running? && w.id == id
    case EventCmd(id) => c in flight && id == w.id ==> !w.phase.Starting?
    case DetailsCmd(id) => c in flight && id == b.trustId ==> b.trustPending
    case TrustCmd(id) => c in flight && id == b.trustId ==> b.trustPending
  }

  ghost predicate ReviewFlag(b: Background, flight: set<Cmd>) {
    && (b.trustPending <==> DetailsCmd(b.trustId) in flight || TrustCmd(b.trustId) in flight)
    && !(DetailsCmd(b.trustId) in flight && TrustCmd(b.trustId) in flight)
  }
}
