// Every password prompt of a run, and what became of it.

module UiPrompts {
  import opened Packages
  import opened Protocol
  import opened UiSpec
  import opened UiInvariant
  import opened UiFlight
  import opened UiRuns
  import L = LoaderSpec
  import M = Monitor

  datatype Note = Opened(request: RequestId) | Answered(reply: Option<RequestId>) | Refused(reply: Option<RequestId>)

  // The current job asks for a password, and nothing stands in the way of the prompt.
  predicate Opens(u: Ui, e: Event) {
    && e.JobEvent? && e.id == u.work.id && e.open && e.request.Some?
    && u.work.phase.Running? && u.work.cancelReason == NotCancelled && (u.mode == Working || u.mode == Confirm)
  }

  function Replies(out: seq<Out>): seq<Note> {
    if out == [] then []
    else
      (match out[0]
       case AnswerPassword(request) => [Answered(request)]
       case RefusePassword(request) => [Refused(request)]
       case _ => [])
      + Replies(out[1..])
  }

  function NotesOf(u: Ui, e: Event): seq<Note> {
    (if Opens(u, e) then [Opened(e.request.value)] else []) + if Timely(u, e) then Replies(Update(u, e).1) else []
  }

  function Pages(trace: seq<World>, steps: seq<Step>): seq<seq<Note>>
    requires |steps| < |trace|
  {
    seq(|steps|, n requires 0 <= n < |steps| => NotesOf(trace[n].ui, steps[n].event))
  }

  function Bound(pages: seq<seq<Note>>): seq<Note> {
    if pages == [] then [] else Bound(pages[..|pages| - 1]) + pages[|pages| - 1]
  }

  // The notes of the first `i` messages of a run.
  function Notebook(trace: seq<World>, steps: seq<Step>, i: nat): seq<Note>
    requires i <= |steps| < |trace|
  {
    Bound(Pages(trace, steps)[..i])
  }

  // ---- one message ----

  // The key reaches the prompt.
  predicate Typed(u: Ui, e: Event, name: KeyName) {
    u.mode == Password && e.Press? && e.key.name == name && !e.env.tiny && u.back.load.None?
  }

  // The program is told to quit.
  predicate ToldToQuit(e: Event) {
    || (e.Press? && (e.key.name == CtrlC || (e.env.tiny && e.key.name == Leave)))
    || (e.Signal? && (e.code == 130 || e.code == 143))
  }

  // A confirmation left open under the prompt is closed, and the prompt with it.
  predicate ClosesDialog(u: Ui, e: Event) {
    e.Resize? && u.ask.confirmation.Some? && !e.env.fits
  }

  predicate Squeezes(u: Ui, e: Event) {
    e.Resize? && !e.env.operationFits && !ClosesDialog(u, e)
  }

  // What becomes of the open prompt.
  function Reply(u: Ui, e: Event): seq<Note> {
    if u.mode != Password then []
    else if Typed(u, e, Enter) then [Answered(u.work.request)]
    else if Typed(u, e, Esc) || ToldToQuit(e) || Squeezes(u, e) then [Refused(u.work.request)]
    else []
  }

  // A review left open under the prompt ends, and the prompt with it.
  predicate EndsReview(u: Ui, e: Event) {
    || (e.DetailsResult? && e.id == u.back.trustId && !e.env.trustFits)
    || (e.TrustResult? && e.id == u.back.trustId && e.ok && u.back.trustPackage.Some?)
  }

  // It goes without a reply when the job ends or has another event, and when a dialog
  // or a review left open under it closes.
  predicate Abandons(u: Ui, e: Event) {
    || (e.JobResult? && e.id == u.work.id)
    || (e.JobEvent? && e.id == u.work.id && e.open)
    || ClosesDialog(u, e) || EndsReview(u, e)
  }

  lemma NoReplies(out: seq<Out>)
    requires forall i :: 0 <= i < |out| ==> !out[i].AnswerPassword? && !out[i].RefusePassword?
    ensures Replies(out) == []
  {
  }

  predicate Silent(out: seq<Out>) {
    forall i :: 0 <= i < |out| ==> !out[i].AnswerPassword? && !out[i].RefusePassword?
  }

  lemma QuitSilent(u: Ui, code: int, env: Env)
    requires u.mode == Password ==> !u.work.phase.Running?
    ensures Silent(BeginQuit(u, code, env).1) && BeginQuit(u, code, env).0.mode == Quitting
  {
  }

  lemma AdvanceSilent(u: Ui, env: Env)
    requires u.work.phase.Halted?
    ensures Silent(Advance(u, env).1) && Advance(u, env).0.mode != Password
  {
    QuitSilent(u.(work := u.work.(batchCompleted := u.work.batchCompleted + if u.work.batchTotal > 0 then 1 else 0)), 0, env);
  }

  // The end of a job replies to nobody.
  lemma JobResultSilent(u: Ui, e: Event)
    requires Core(u) && Timely(u, e) && e.JobResult?
    ensures Silent(Update(u, e).1) && (Update(u, e).0.mode == Password <==> u.mode == Password && e.id != u.work.id)
  {
    if e.id == u.work.id {
      var halted := JobOver(u);
      if u.mode != Quitting && e.outcome.cleanupErr {
        QuitSilent(ClearBatch(halted.(work := halted.work.(queue := []))), 1, e.env);
      } else if u.mode != Quitting && Succeeded(e.outcome) {
        AdvanceSilent(halted, e.env);
      }
    }
  }

  lemma JobEventSilent(u: Ui, e: Event)
    requires Core(u) && e.JobEvent?
    ensures Silent(Update(u, e).1)
    ensures
      var u' := Update(u, e).0;
      && (u'.mode == Password <==> Opens(u, e) || (u.mode == Password && !Abandons(u, e)))
      && (u'.mode == Password ==> u'.work.request == if Opens(u, e) then e.request else u.work.request)
  {
  }

  lemma LoadSilent(u: Ui, e: Event)
    requires Core(u) && Timely(u, e) && (e.ListResult? || e.FleetResult?)
    ensures Silent(Update(u, e).1)
    ensures Update(u, e).0.mode == Password <==> u.mode == Password
    ensures u.mode == Password ==> Update(u, e).0 == u
  {
  }

  lemma ReviewSilent(u: Ui, e: Event)
    requires Core(u) && Timely(u, e) && (e.DetailsResult? || e.TrustResult?)
    ensures Silent(Update(u, e).1)
    ensures Update(u, e).0.mode == Password <==> u.mode == Password && !EndsReview(u, e)
    ensures Update(u, e).0.work.request == u.work.request
  {
  }

  lemma RestSilent(u: Ui, e: Event)
    requires Core(u) && Timely(u, e)
    requires e.InfoResult? || e.SizesResult? || e.JobStarted? || e.JobStartFailed?
    ensures Silent(Update(u, e).1)
    ensures Update(u, e).0.mode == Password <==> u.mode == Password
    ensures u.mode == Password ==> Update(u, e).0.work.request == u.work.request
  {
  }

  // ---- the messages that can reply ----

  // What a message does with the prompt: it opens one, leaves it, replies, or drops it.
  ghost predicate PromptStep(u: Ui, e: Event, m: Move) {
    && Replies(m.1) == Reply(u, e)
    && (m.0.mode == Password <==>
          Opens(u, e) || (u.mode == Password && Reply(u, e) == [] && !Abandons(u, e)))
    && (m.0.mode == Password ==> m.0.work.request == if Opens(u, e) then e.request else u.work.request)
  }

  lemma QuitReplies(u: Ui, e: Event, code: int)
    requires Core(u) && ToldToQuit(e)
    ensures PromptStep(u, e, BeginQuit(u, code, e.env))
  {
    var (u', out) := BeginQuit(u, code, e.env);
    if u.mode == Password {
      assert out[0] == RefusePassword(u.work.request);
      NoReplies(out[1..]);
    } else {
      NoReplies(out);
    }
  }

  lemma ResizeReplies(u: Ui, e: Event)
    requires Core(u) && e.Resize?
    ensures PromptStep(u, e, HandleResize(u, e.env))
  {
    var (u', out) := HandleResize(u, e.env);
    if u.mode == Password && Squeezes(u, e) {
      assert out[0] == RefusePassword(u.work.request);
      NoReplies(out[1..]);
    } else {
      NoReplies(out);
    }
  }

  lemma PromptKeyReplies(u: Ui, e: Event)
    requires Core(u) && e.Press? && u.mode == Password && !e.env.tiny && e.key.name != CtrlC
    ensures PromptStep(u, e, HandleKey(u, e.key, e.env))
  {
    var (u', out) := UpdatePassword(u, e.key, e.env);
    assert HandleKey(u, e.key, e.env) == (u', out);
    if e.key.name == Enter || e.key.name == Esc {
      NoReplies(out[1..]);
    }
  }

  // A key elsewhere opens no prompt and replies to none.
  lemma OtherKeySilent(u: Ui, e: Event)
    requires Core(u) && e.Press? && !ToldToQuit(e) && (u.mode != Password || e.env.tiny)
    ensures Silent(HandleKey(u, e.key, e.env).1)
    ensures HandleKey(u, e.key, e.env).0.mode == Password <==> u.mode == Password
    ensures u.mode == Password ==> HandleKey(u, e.key, e.env).0 == u
  {
  }

  lemma MessageReplies(u: Ui, e: Event)
    requires Core(u) && Timely(u, e)
    ensures PromptStep(u, e, Update(u, e))
  {
    if ToldToQuit(e) {
      QuitReplies(u, e, if e.Signal? then e.code else if e.key.name == CtrlC then 130 else 0);
    } else if e.Press? {
      KeyReplies(u, e);
    } else {
      ResultReplies(u, e);
    }
  }

  lemma KeyReplies(u: Ui, e: Event)
    requires Core(u) && e.Press? && !ToldToQuit(e)
    ensures PromptStep(u, e, Update(u, e))
  {
    if u.mode == Password && !e.env.tiny {
      PromptKeyReplies(u, e);
    } else {
      OtherKeySilent(u, e);
      NoReplies(HandleKey(u, e.key, e.env).1);
    }
  }

  lemma ResultReplies(u: Ui, e: Event)
    requires Core(u) && Timely(u, e) && !e.Press? && !ToldToQuit(e)
    ensures PromptStep(u, e, Update(u, e))
  {
    if e.Resize? {
      ResizeReplies(u, e);
    } else {
      if e.JobResult? {
        JobResultSilent(u, e);
      } else if e.JobEvent? {
        JobEventSilent(u, e);
      } else if e.ListResult? || e.FleetResult? {
        LoadSilent(u, e);
      } else if e.DetailsResult? || e.TrustResult? {
        ReviewSilent(u, e);
      } else if !e.Signal? {
        RestSilent(u, e);
      }
      NoReplies(Update(u, e).1);
    }
  }

  // ---- whole runs ----

  // Each reply stands directly behind the prompt it replies to.
  ghost predicate WellPaired(notes: seq<Note>) {
    forall k :: 0 <= k < |notes| && !notes[k].Opened? ==>
      k > 0 && notes[k - 1].Opened? && notes[k].reply == Some(notes[k - 1].request)
  }

  ghost predicate PromptOpen(u: Ui, notes: seq<Note>) {
    u.mode == Password ==>
      notes != [] && notes[|notes| - 1].Opened? && u.work.request == Some(notes[|notes| - 1].request)
  }

  lemma {:induction false} NotebookPairs(trace: seq<World>, steps: seq<Step>, env: Env, i: nat)
    requires Follows(trace, steps, env) && i <= |steps|
    ensures WellPaired(Notebook(trace, steps, i)) && PromptOpen(trace[i].ui, Notebook(trace, steps, i))
  {
    if i > 0 {
      NotebookPairs(trace, steps, env, i - 1);
      StepPairsAt(trace, steps, env, i - 1, Notebook(trace, steps, i - 1));
      NextPage(Pages(trace, steps), i - 1);
    }
  }

  lemma NextPage(pages: seq<seq<Note>>, n: nat)
    requires n < |pages|
    ensures Bound(pages[..n + 1]) == Bound(pages[..n]) + pages[n]
  {
    assert pages[..n + 1][..n] == pages[..n];
  }

  lemma StepPairsAt(trace: seq<World>, steps: seq<Step>, env: Env, n: nat, notes: seq<Note>)
    requires Follows(trace, steps, env) && n < |steps| && WellPaired(notes) && PromptOpen(trace[n].ui, notes)
    ensures
      var more := notes + Pages(trace, steps)[n];
      WellPaired(more) && PromptOpen(trace[n + 1].ui, more)
  {
    EveryWorld(trace, steps, env, n);
    StepPairs(trace[n], steps[n], notes);
  }

  lemma StepPairs(w: World, s: Step, notes: seq<Note>)
    requires Core(w.ui) && Timely(w.ui, s.event) && WellPaired(notes) && PromptOpen(w.ui, notes)
    ensures WellPaired(notes + NotesOf(w.ui, s.event)) && PromptOpen(After(w, s).ui, notes + NotesOf(w.ui, s.event))
  {
    MessageReplies(w.ui, s.event);
    NextPairs(w.ui, s.event, After(w, s).ui, notes);
  }

  lemma NextPairs(u: Ui, e: Event, u': Ui, notes: seq<Note>)
    requires WellPaired(notes) && PromptOpen(u, notes) && Timely(u, e) && u' == Update(u, e).0
    requires PromptStep(u, e, Update(u, e))
    ensures WellPaired(notes + NotesOf(u, e)) && PromptOpen(u', notes + NotesOf(u, e))
  {
    if NotesOf(u, e) == [] {
      assert notes + [] == notes;
    }
  }

  // No prompt is answered twice, refused twice, or both: each answer and each refusal
  // of a run goes to the prompt opened last, which had none, under the identifier it
  // was opened with.
  lemma PromptsAreSettledOnce(trace: seq<World>, steps: seq<Step>, env: Env, i: nat)
    requires Follows(trace, steps, env) && i <= |steps|
    ensures WellPaired(Notebook(trace, steps, i))
  {
    NotebookPairs(trace, steps, env, i);
  }

  // What becomes of an open prompt: enter answers it, esc, a quit, or a squeeze refuses
  // it, and nothing else replies to anything. It stays open until it is replied to,
  // its job ends or has another event, or a dialog or a review left open under it
  // closes.
  lemma RepliesAreExactly(trace: seq<World>, steps: seq<Step>, env: Env, i: nat)
    requires Follows(trace, steps, env) && i < |steps|
    ensures
      var u, e := trace[i].ui, steps[i].event;
      && Replies(Asked(trace[i], steps[i])) == Reply(u, e)
      && (trace[i + 1].ui.mode == Password <==>
            Opens(u, e) || (u.mode == Password && Reply(u, e) == [] && !Abandons(u, e)))
  {
    EveryWorld(trace, steps, env, i);
    MessageReplies(trace[i].ui, steps[i].event);
  }

  // While nothing has been left open under a prompt, only its own job can take it away.
  lemma OnlyLeftoversAbandon(u: Ui, e: Event)
    requires Core(u) && Windows(u) && Timely(u, e) && u.mode == Password && Abandons(u, e)
    ensures e.JobResult? || e.JobEvent? || (e.Resize? && u.ask.confirmation.Some?)
  {
  }
}
