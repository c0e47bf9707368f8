// The latest-only loader of package details (internal/info/loader.go).
//
// `LoaderSpec` is a small reference machine. It keeps neither the displayed
// text nor the pending target: both are functions of the rest of its state, and
// one rule, `Settle`, says when a command is issued. `Loader` is the program's
// object, which updates text and pending in place; every method is proved to
// step the reference machine. `LoaderRuns` proves what every run keeps.

module LoaderSpec {
  import opened Packages

  const LOADING_TEXT := "Loading info..."

  datatype Identity = Identity(generation: nat, key: Key)

  datatype Target = Target(identity: Identity, pkg: Package)

  // `failure` is the error text of a failed load.
  datatype Result = Result(identity: Identity, text: string, failure: Option<string>)

  datatype View = View(
    generation: nat,
    cache: map<Key, string>,
    target: Option<Package>,
    active: Option<Identity>,
    stopped: bool)

  const INITIAL := View(0, map[], None, None, false)

  function Wanted(v: View): Identity
    requires v.target.Some?
  {
    Identity(v.generation, KeyOf(v.target.value))
  }

  // The current target is known but its details are not.
  predicate Missing(v: View) {
    v.target.Some? && KeyOf(v.target.value) !in v.cache
  }

  // What the details pane must show.
  function Display(v: View): string {
    if v.target.None? then ""
    else if Missing(v) then LOADING_TEXT
    else v.cache[KeyOf(v.target.value)]
  }

  // The one retained request: the current target, when some other load occupies
  // the single command slot.
  function Pending(v: View): Option<Target> {
    if !v.stopped && Missing(v) && v.active.Some? && v.active.value != Wanted(v)
    then Some(Target(Wanted(v), v.target.value))
    else None
  }

  // A missing target with a free slot starts loading at once.
  function Settle(v: View): (View, Option<Target>) {
    if !v.stopped && Missing(v) && v.active.None?
    then (v.(active := Some(Wanted(v))), Some(Target(Wanted(v), v.target.value)))
    else (v, None)
  }

  function Select(v: View, p: Option<Package>): (View, Option<Target>) {
    if v.stopped then (v, None) else Settle(v.(target := p))
  }

  function Refresh(v: View, p: Option<Package>): (View, Option<Target>) {
    Select(v.(generation := v.generation + 1, cache := map[], target := None), p)
  }

  // The text a result contributes: its error, or its text without the final line
  // breaks.
  function Rendered(r: Result): string {
    match r.failure
    case Some(message) => message
    case None => TrimRight(r.text)
  }

  predicate LineBreak(c: char) {
    c == '\r' || c == '\n'
  }

  function TrimRight(s: string): (t: string)
    ensures t <= s
    ensures t != [] ==> !LineBreak(t[|t| - 1])
    ensures forall i :: |t| <= i < |s| ==> LineBreak(s[i])
  {
    if s != [] && LineBreak(s[|s| - 1]) then TrimRight(s[..|s| - 1]) else s
  }

  function Complete(v: View, r: Result): (View, Option<Target>) {
    if v.active != Some(r.identity) then (v, None)
    else
      var freed := v.(active := None);
      Settle(if !v.stopped && r.identity.generation == v.generation
             then freed.(cache := v.cache[r.identity.key := Rendered(r)])
             else freed)
  }

  function Cancel(v: View): View {
    v.(stopped := true)
  }
}

module Loader {
  import opened Packages
  import opened LoaderSpec

  class Loader {
    var generation: nat
    var cache: map<Key, string>
    var current: Option<Key>
    var text: string
    var active: Option<Identity>
    var pending: Option<Target>
    var stopped: bool
    // Identities whose context has been cancelled.
    var contextsCancelled: set<Identity>
    // The package behind `current`; the program keeps only its key.
    ghost var selected: Option<Package>

    ghost function Value(): View
      reads this
    {
      View(generation, cache, selected, active, stopped)
    }

    ghost predicate Targets()
      reads this
    {
      current == (if selected.Some? then Some(KeyOf(selected.value)) else None)
    }

    ghost predicate Valid()
      reads this
    {
      && Targets()
      && text == Display(Value())
      && pending == LoaderSpec.Pending(Value())
    }

    constructor ()
      ensures Valid() && Value() == INITIAL && contextsCancelled == {}
    {
      generation, cache := 0, map[];
      current, text := None, "";
      active, pending := None, None;
      stopped, contextsCancelled := false, {};
      selected := None;
    }

    method Select(pkg: Option<Package>) returns (cmd: Option<Target>)
      requires Valid()
      modifies this
      ensures Valid()
      ensures (Value(), cmd) == LoaderSpec.Select(old(Value()), pkg)
      ensures contextsCancelled == old(contextsCancelled)
    {
      cmd := SelectLocked(pkg);
    }

    method Refresh(pkg: Option<Package>) returns (cmd: Option<Target>)
      requires Valid()
      modifies this
      ensures Valid()
      ensures (Value(), cmd) == LoaderSpec.Refresh(old(Value()), pkg)
      ensures contextsCancelled == old(contextsCancelled)
    {
      generation := generation + 1;
      cache := map[];
      current, selected := None, None;
      text := "";
      pending := None;
      cmd := SelectLocked(pkg);
    }

    method Complete(result: Result) returns (cmd: Option<Target>)
      requires Valid()
      modifies this
      ensures Valid()
      ensures (Value(), cmd) == LoaderSpec.Complete(old(Value()), result)
      ensures contextsCancelled == old(contextsCancelled)
        + (if old(active) == Some(result.identity) then {result.identity} else {})
    {
      if active != Some(result.identity) {
        return None;
      }
      contextsCancelled := contextsCancelled + {result.identity};
      active := None;
      if !stopped && result.identity.generation == generation {
        var rendered := TrimRight(result.text);
        if result.failure.Some? {
          rendered := result.failure.value;
        }
        cache := cache[result.identity.key := rendered];
        if current == Some(result.identity.key) {
          text := rendered;
        }
      }
      if stopped || pending.None? {
        pending := None;
        return None;
      }
      var next := pending.value;
      pending := None;
      cmd := Resume(next);
    }

    // The tail of Complete: the retained target is checked once more before it
    // starts. Stated for any target, although `RetainedTargetIsLive` shows that
    // Complete only ever gets here with one that passes both checks.
    method Resume(next: Target) returns (cmd: Option<Target>)
      modifies this`active, this`text
      ensures next.identity.generation != generation ==> cmd == None && active == old(active) && text == old(text)
      ensures next.identity.generation == generation && next.identity.key in cache ==>
        && cmd == None && active == old(active)
        && text == (if current == Some(next.identity.key) then cache[next.identity.key] else old(text))
      ensures next.identity.generation == generation && next.identity.key !in cache ==>
        cmd == Some(next) && active == Some(next.identity) && text == old(text)
    {
      if next.identity.generation != generation {
        return None;
      }
      if next.identity.key in cache {
        if current == Some(next.identity.key) {
          text := cache[next.identity.key];
        }
        return None;
      }
      cmd := StartLocked(next);
    }

    method Cancel()
      requires Valid()
      modifies this
      ensures Valid()
      ensures Value() == LoaderSpec.Cancel(old(Value()))
      ensures contextsCancelled == old(contextsCancelled) + (if active.Some? then {active.value} else {})
    {
      stopped := true;
      pending := None;
      if active.Some? {
        contextsCancelled := contextsCancelled + {active.value};
      }
    }

    method SelectLocked(pkg: Option<Package>) returns (cmd: Option<Target>)
      requires Valid()
      modifies this
      ensures Valid()
      ensures (Value(), cmd) == LoaderSpec.Select(old(Value()), pkg)
      ensures contextsCancelled == old(contextsCancelled)
    {
      if stopped {
        return None;
      }
      selected := pkg;
      if pkg.None? {
        current := None;
        text := "";
        pending := None;
        return None;
      }
      var chosen := KeyOf(pkg.value);
      current := Some(chosen);
      if chosen in cache {
        text := cache[chosen];
        pending := None;
        return None;
      }
      var wanted := Identity(generation, chosen);
      text := LOADING_TEXT;
      if active.Some? {
        pending := if active.value == wanted then None else Some(Target(wanted, pkg.value));
        return None;
      }
      cmd := StartLocked(Target(wanted, pkg.value));
    }

    method StartLocked(next: Target) returns (cmd: Option<Target>)
      modifies this`active
      ensures active == Some(next.identity) && cmd == Some(next)
    {
      active := Some(next.identity);
      cmd := Some(next);
    }
  }
}

module LoaderRuns {
  import opened Packages
  import opened LoaderSpec

  datatype Event =
    | Choose(pkg: Option<Package>)
    | Reload(pkg: Option<Package>)
    | Deliver(result: Result)
    | Stop

  // A run of the loader under its host. `inFlight` holds the issued commands
  // whose message has not been delivered; `hostPending` is the host's own record
  // of an outstanding command. The rest is history: the commands issued, the results
  // as they were delivered before the stop, what was chosen last, and how many
  // commands had been issued at the last reload.
  datatype Run = Run(
    view: View,
    inFlight: multiset<Identity>,
    issued: seq<Identity>,
    fetched: map<Identity, Result>,
    chosen: Option<Package>,
    epoch: nat,
    hostPending: bool)

  const START := Run(INITIAL, multiset{}, [], map[], None, 0, false)

  // A result arrives once, for a command that was issued.
  predicate Enabled(s: Run, e: Event) {
    e.Deliver? ==> e.result.identity in s.inFlight
  }

  function Issue(s: Run, out: (View, Option<Target>), hostPending: bool): Run {
    var s' := s.(view := out.0, hostPending := hostPending);
    match out.1
    case None => s'
    case Some(t) => s'.(inFlight := s.inFlight + multiset{t.identity}, issued := s.issued + [t.identity])
  }

  function Fetched(s: Run, r: Result): map<Identity, Result> {
    if s.view.stopped then s.fetched else s.fetched[r.identity := r]
  }

  function Step(s: Run, e: Event): Run
    requires Enabled(s, e)
  {
    match e
    case Choose(p) =>
      var out := Select(s.view, p);
      Issue(s.(chosen := if s.view.stopped then s.chosen else p), out, s.hostPending || out.1.Some?)
    case Reload(p) =>
      var out := Refresh(s.view, p);
      Issue(s.(chosen := if s.view.stopped then None else p, epoch := |s.issued|), out, s.hostPending || out.1.Some?)
    case Deliver(r) =>
      var out := Complete(s.view, r);
      Issue(s.(inFlight := s.inFlight - multiset{r.identity}, fetched := Fetched(s, r)), out, out.1.Some?)
    case Stop => s.(view := Cancel(s.view))
  }

  ghost predicate Follows(s: Run, events: seq<Event>, t: Run)
    decreases |events|
  {
    if events == [] then t == s
    else Enabled(s, events[0]) && Follows(Step(s, events[0]), events[1..], t)
  }

  // What a delivered result puts on show: the failure's message if it failed, and
  // otherwise its text up to the last character that is not a line break.
  ghost predicate Contributes(r: Result, text: string) {
    match r.failure
    case Some(message) => text == message
    case None =>
      && text <= r.text
      && (text != "" ==> text[|text| - 1] !in "\r\n")
      && forall i :: |text| <= i < |r.text| ==> r.text[i] in "\r\n"
  }

  // That is one text.
  lemma ContributesOne(r: Result, text: string)
    ensures Contributes(r, text) <==> text == Rendered(r)
  {
    if r.failure.None? && Contributes(r, text) {
      OneTrimmed(r.text, text);
    }
  }

  lemma {:induction false} OneTrimmed(s: string, t: string)
    requires t <= s && (t != "" ==> !LineBreak(t[|t| - 1]))
    requires forall i :: |t| <= i < |s| ==> LineBreak(s[i])
    ensures t == TrimRight(s)
  {
    if s != "" && LineBreak(s[|s| - 1]) {
      OneTrimmed(s[..|s| - 1], t);
    }
  }

  // "Loading" is never shown with nobody loading.
  predicate Settled(v: View) {
    !v.stopped && Missing(v) ==> v.active.Some?
  }

  ghost predicate Distinct(ids: seq<Identity>) {
    forall i, j :: 0 <= i < j < |ids| ==> ids[i] != ids[j]
  }

  ghost predicate Cached(s: Run, k: Key)
    requires k in s.view.cache
  {
    var id := Identity(s.view.generation, k);
    id in s.issued && id in s.fetched && Contributes(s.fetched[id], s.view.cache[k])
  }

  ghost predicate Core(s: Run) {
    var v := s.view;
    // One command slot: what is in flight is exactly the active request.
    && s.inFlight == (if v.active.Some? then multiset{v.active.value} else multiset{})
    && s.hostPending == v.active.Some?
    && (v.active.Some? ==> v.active.value in s.issued)
    && (v.active.Some? && v.active.value.generation == v.generation ==> v.active.value.key !in v.cache)
    // Nothing is ever issued twice.
    && Distinct(s.issued)
    && (forall id :: id in s.issued ==> id.generation <= v.generation)
    && (forall id :: id in s.issued && id.generation == v.generation && !v.stopped ==>
          v.active == Some(id) || id.key in v.cache)
    // The cache holds this generation's results and nothing else.
    && (forall k :: k in v.cache ==> Cached(s, k))
    && (forall id :: id in s.fetched ==>
          id in s.issued && s.fetched[id].identity == id && (id.generation == v.generation ==> id.key in v.cache))
    // What is current was chosen last, and what is cached was asked for since the reload.
    && s.chosen == v.target && s.epoch <= |s.issued|
    && (forall i :: 0 <= i < |s.issued| ==>
          if i < s.epoch then s.issued[i].generation < v.generation else s.issued[i].generation == v.generation)
  }

  ghost predicate Inv(s: Run) {
    Core(s) && Settled(s.view)
  }

  lemma AppendDistinct(ids: seq<Identity>, id: Identity)
    requires Distinct(ids) && id !in ids
    ensures Distinct(ids + [id])
  {
  }

  lemma SettleKeepsInv(s: Run)
    requires Core(s)
    ensures var out := Settle(s.view); Inv(Issue(s, out, s.hostPending || out.1.Some?))
  {
    var out := Settle(s.view);
    if out.1.Some? {
      AppendDistinct(s.issued, out.1.value.identity);
    }
  }

  // The run once a delivered result has been stored, before anything restarts.
  ghost function Received(s: Run, r: Result): Run
  {
    var freed := s.view.(active := None);
    var known := if !s.view.stopped && r.identity.generation == s.view.generation
                 then freed.(cache := s.view.cache[r.identity.key := Rendered(r)]) else freed;
    s.(view := known, inFlight := s.inFlight - multiset{r.identity},
       fetched := Fetched(s, r), hostPending := false)
  }

  lemma DeliveredCore(s: Run, r: Result)
    requires Inv(s) && r.identity in s.inFlight
    ensures s.view.active == Some(r.identity)
    ensures Core(Received(s, r))
  {
    ContributesOne(r, Rendered(r));
  }

  lemma ChooseKeepsInv(s: Run, p: Option<Package>)
    requires Inv(s)
    ensures Inv(Step(s, Choose(p)))
  {
    if !s.view.stopped {
      SettleKeepsInv(s.(view := s.view.(target := p), chosen := p));
    }
  }

  lemma ReloadKeepsInv(s: Run, p: Option<Package>)
    requires Inv(s)
    ensures Inv(Step(s, Reload(p)))
  {
    ClearedCore(s, p);
    ReloadSettles(s, p);
    SettleKeepsInv(Cleared(s, p));
  }

  lemma ReloadSettles(s: Run, p: Option<Package>)
    ensures
      var out := Settle(Cleared(s, p).view);
      Step(s, Reload(p)) == Issue(Cleared(s, p), out, s.hostPending || out.1.Some?)
  {
    RefreshSettles(s.view, p);
  }

  lemma RefreshSettles(v: View, p: Option<Package>)
    ensures Refresh(v, p) == Settle(Emptied(v, p))
  {
  }

  ghost function Emptied(v: View, p: Option<Package>): View {
    v.(generation := v.generation + 1, cache := map[], target := if v.stopped then None else p)
  }

  // The run once the cache is emptied for a new generation.
  ghost function Cleared(s: Run, p: Option<Package>): Run {
    s.(view := Emptied(s.view, p),
       chosen := if s.view.stopped then None else p, epoch := |s.issued|)
  }

  lemma ClearedCore(s: Run, p: Option<Package>)
    requires Inv(s)
    ensures Core(Cleared(s, p))
  {
  }

  lemma DeliverKeepsInv(s: Run, r: Result)
    requires Inv(s) && r.identity in s.inFlight
    ensures Inv(Step(s, Deliver(r)))
  {
    DeliveredCore(s, r);
    SettleKeepsInv(Received(s, r));
  }

  lemma StepKeepsInv(s: Run, e: Event)
    requires Inv(s) && Enabled(s, e)
    ensures Inv(Step(s, e))
  {
    match e
    case Choose(p) => ChooseKeepsInv(s, p);
    case Reload(p) => ReloadKeepsInv(s, p);
    case Deliver(r) => DeliverKeepsInv(s, r);
    case Stop =>
  }

  // Every reachable state of the loader satisfies the invariant.
  lemma {:induction false} RunKeepsInv(s: Run, events: seq<Event>, t: Run)
    requires Inv(s) && Follows(s, events, t)
    ensures Inv(t)
    decreases |events|
  {
    if events != [] {
      StepKeepsInv(s, events[0]);
      RunKeepsInv(Step(s, events[0]), events[1..], t);
    }
  }

  // What every run from an idle loader promises of its commands.
  lemma EveryRun(events: seq<Event>, t: Run)
    requires Follows(START, events, t)
    ensures Distinct(t.issued)
    ensures |t.inFlight| <= 1 && (t.hostPending <==> |t.inFlight| == 1)
    ensures !t.view.stopped && Missing(t.view) ==>
              && t.view.active.Some? && t.view.active.value in t.inFlight
              && (t.view.active.value == Wanted(t.view)
                  || Pending(t.view) == Some(Target(Wanted(t.view), t.view.target.value)))
  {
    RunKeepsInv(START, events, t);
  }

  // What was delivered, before the stop, for the current choice since the last reload.
  ghost predicate Answers(s: Run, p: Package, id: Identity) {
    id in s.fetched && id.key == KeyOf(p) && IssuedSince(s, id)
  }

  ghost predicate IssuedSince(s: Run, id: Identity) {
    exists i :: s.epoch <= i < |s.issued| && s.issued[i] == id
  }

  // The details pane shows nothing without a choice, what was delivered for the last
  // choice if a command issued since the last reload brought it, and otherwise that it
  // is loading.
  lemma EveryDisplay(events: seq<Event>, t: Run)
    requires Follows(START, events, t)
    ensures t.chosen.None? ==> Display(t.view) == ""
    ensures t.chosen.Some? ==>
              || (exists id :: Answers(t, t.chosen.value, id) && Contributes(t.fetched[id], Display(t.view)))
              || (Display(t.view) == "Loading info..." && forall id :: !Answers(t, t.chosen.value, id))
  {
    RunKeepsInv(START, events, t);
    if t.chosen.Some? {
      ChoiceShown(t, t.chosen.value);
    }
  }

  lemma ChoiceShown(t: Run, p: Package)
    requires Inv(t) && t.chosen == Some(p)
    ensures
      || (exists id :: Answers(t, p, id) && Contributes(t.fetched[id], Display(t.view)))
      || (Display(t.view) == "Loading info..." && forall id :: !Answers(t, p, id))
  {
    var v, id := t.view, Identity(t.view.generation, KeyOf(p));
    if KeyOf(p) in v.cache {
      assert Cached(t, KeyOf(p));
      var i :| 0 <= i < |t.issued| && t.issued[i] == id;
      assert Answers(t, p, id);
    } else {
      forall other | Answers(t, p, other)
        ensures false
      {
        SinceIsCurrent(t, other);
      }
    }
  }

  // The commands issued since the last reload are those of the current generation.
  lemma SinceIsCurrent(t: Run, id: Identity)
    requires Inv(t) && IssuedSince(t, id)
    ensures id.generation == t.view.generation
  {
  }

  ghost predicate Frozen(s: Run, t: Run) {
    && t.view.stopped && t.issued == s.issued && t.inFlight <= s.inFlight
    && (Display(t.view) == Display(s.view) || Display(t.view) == "")
  }

  lemma StoppedStep(s: Run, e: Event)
    requires s.view.stopped && Enabled(s, e)
    ensures Frozen(s, Step(s, e)) && (!e.Reload? ==> Display(Step(s, e).view) == Display(s.view))
  {
  }

  // After Cancel no command is ever issued again, and what is on show stays until a
  // reload clears it.
  lemma {:induction false} NothingIssuedAfterStop(s: Run, events: seq<Event>, t: Run)
    requires s.view.stopped && Follows(s, events, t)
    ensures Frozen(s, t)
    ensures (forall i :: 0 <= i < |events| ==> !events[i].Reload?) ==> Display(t.view) == Display(s.view)
    decreases |events|
  {
    if events != [] {
      StoppedStep(s, events[0]);
      NothingIssuedAfterStop(Step(s, events[0]), events[1..], t);
    }
  }

  // A shown "Loading" ends with the details of the current target after at most
  // two deliveries, if nothing else is chosen meanwhile.
  lemma SettlesWithinTwo(s: Run, first: Result, second: Result)
    requires Inv(s) && !s.view.stopped && Missing(s.view)
    requires first.identity in s.inFlight
    ensures
      var once := Step(s, Deliver(first));
      if first.identity == Wanted(s.view)
      then Contributes(first, Display(once.view)) && once.inFlight == multiset{}
      else
        && once.inFlight == multiset{Wanted(s.view)}
        && (second.identity == Wanted(s.view) ==>
              var twice := Step(once, Deliver(second));
              Contributes(second, Display(twice.view)) && twice.inFlight == multiset{})
  {
    FirstDelivery(s, first);
    if first.identity != Wanted(s.view) && second.identity == Wanted(s.view) {
      DeliverKeepsInv(s, first);
      FirstDelivery(Step(s, Deliver(first)), second);
    }
  }

  lemma FirstDelivery(s: Run, r: Result)
    requires Inv(s) && !s.view.stopped && Missing(s.view) && r.identity in s.inFlight
    ensures
      var t := Step(s, Deliver(r));
      if r.identity == Wanted(s.view)
      then Contributes(r, Display(t.view)) && t.inFlight == multiset{}
      else
        && t.inFlight == multiset{Wanted(s.view)} && !t.view.stopped && Missing(t.view)
        && Wanted(t.view) == Wanted(s.view)
  {
    DeliveredCore(s, r);
  }

  // Whenever a result frees the slot under a retained target, that target is
  // still of the current generation, still the current target, and still unknown:
  // the two checks `Loader.Resume` repeats never reject it.
  lemma RetainedTargetIsLive(s: Run, r: Result)
    requires Inv(s) && r.identity in s.inFlight && Pending(s.view).Some?
    ensures
      var next := Pending(s.view).value;
      var stored := Received(s, r).view;
      && next.identity.generation == stored.generation
      && stored.target == Some(next.pkg) && KeyOf(next.pkg) == next.identity.key
      && next.identity.key !in stored.cache
      && Complete(s.view, r) == (stored.(active := Some(next.identity)), Some(next))
  {
    DeliveredCore(s, r);
  }
}
