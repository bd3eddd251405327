/** Ticket requests, which start registrations themselves, also cause finitely many steps only. */
module UmaClientTicketTermination {
  import opened Rdf
  import opened RegistrationSpec
  import opened UmaClient
  import opened UmaClientSafety
  import opened UmaClientTermination
  import opened UmaClientTickets

  /** The stretches of a ticket request for one target that needs no registration. */
  const SEARCH := 8

  function Pace(phase: FetchPhase): nat {
    match phase
    case Looking => SEARCH
    case Looked(_) => 7
    case Listening => 6
    case LookingAgain => 6
    case LookedAgain(_) => 5
    case Unknown => 4
    case Registering(_) => 3
    case Registered => 2
    case LookedLast(_) => 1
    case Authorizing => 2
    case Obtaining(_) => 1
    case _ => 0
  }

  /** The current target may still be registered. */
  predicate MayRegister(phase: FetchPhase) {
    phase.Looking? || phase.Looked? || phase.Listening? || phase.LookingAgain? || phase.LookedAgain? || phase.Unknown?
  }

  /** Everything that targets which were not looked up yet may cause. */
  function Ahead(e: Env, ids: map<string, string>, targets: seq<string>): nat
    requires e.Valid()
  {
    if targets == [] then 0 else SEARCH + Cost(e, ids, targets[0]) + Ahead(e, ids, targets[1..])
  }

  /** A task without a path, which only obtains a PAT, costs no more than a registration. */
  function PatCost(e: Env, ids: map<string, string>): nat
    requires e.Valid()
  {
    Cost(e, ids, "")
  }

  function FetchWeight(e: Env, ids: map<string, string>, f: Fetch): nat
    requires e.Valid()
  {
    if f.phase.Complete? || f.phase.NoIdFound? || f.phase.Failed? then 0
    else if f.Ongoing() then
      Pace(f.phase) + (if MayRegister(f.phase) then Cost(e, ids, f.Target()) else 0)
      + Ahead(e, ids, f.targets[|f.body| + 1..]) + 2 + PatCost(e, ids)
    else Pace(f.phase) + (if f.phase.Authorizing? then PatCost(e, ids) else 0)
  }

  function FetchTotal(e: Env, ids: map<string, string>, fetches: seq<Fetch>): nat
    requires e.Valid()
  {
    if fetches == [] then 0
    else FetchTotal(e, ids, fetches[..|fetches| - 1]) + FetchWeight(e, ids, fetches[|fetches| - 1])
  }

  function SystemTotal(e: Env, s: System): nat
    requires e.Valid()
  {
    Total(e, s.world.ids, s.world.tasks) + FetchTotal(e, s.world.ids, s.fetches)
  }

  function SystemMeasure(e: Env, s: System): nat
    requires e.Valid()
  {
    SystemTotal(e, s) * (SystemTotal(e, s) + 1) + Asking(s.world.tasks)
  }

  // ----- sums -----

  lemma {:induction false} AheadShrinks(e: Env, ids: map<string, string>, more: map<string, string>,
                                        targets: seq<string>)
    requires e.Valid() && ids.Keys <= more.Keys
    ensures Ahead(e, more, targets) <= Ahead(e, ids, targets)
  {
    hide Cost;
    if targets != [] {
      CostShrinks(e, ids, more, targets[0]);
      AheadShrinks(e, ids, more, targets[1..]);
    }
  }

  lemma FetchWeightShrinks(e: Env, ids: map<string, string>, more: map<string, string>, f: Fetch)
    requires e.Valid() && ids.Keys <= more.Keys
    ensures FetchWeight(e, more, f) <= FetchWeight(e, ids, f)
  {
    hide Cost, Ahead;
    CostShrinks(e, ids, more, "");
    if f.Ongoing() {
      CostShrinks(e, ids, more, f.Target());
      AheadShrinks(e, ids, more, f.targets[|f.body| + 1..]);
    }
  }

  lemma {:induction false} FetchTotalCompare(e: Env, ids: map<string, string>, more: map<string, string>,
                                             fetches: seq<Fetch>, next: seq<Fetch>)
    requires e.Valid() && |fetches| == |next|
    requires forall j | 0 <= j < |fetches| :: FetchWeight(e, more, next[j]) <= FetchWeight(e, ids, fetches[j])
    ensures FetchTotal(e, more, next) <= FetchTotal(e, ids, fetches)
  {
    hide FetchWeight;
    if fetches != [] {
      var n := |fetches| - 1;
      FetchTotalCompare(e, ids, more, fetches[..n], next[..n]);
    }
  }

  lemma {:induction false} FetchTotalUpdate(e: Env, ids: map<string, string>, fetches: seq<Fetch>, i: nat, f: Fetch)
    requires e.Valid() && i < |fetches|
    ensures FetchTotal(e, ids, fetches[i := f])
         == FetchTotal(e, ids, fetches) - FetchWeight(e, ids, fetches[i]) + FetchWeight(e, ids, f)
  {
    hide FetchWeight;
    var n := |fetches| - 1;
    if i == n {
      assert fetches[i := f][..n] == fetches[..n];
    } else {
      FetchTotalUpdate(e, ids, fetches[..n], i, f);
      assert fetches[i := f][..n] == fetches[..n][i := f];
    }
  }

  // ----- each step -----

  /** Progress: a smaller total, or the same total and one task fewer asking. */
  ghost predicate SystemDrops(e: Env, s: System, t: System)
    requires e.Valid()
  {
    || SystemTotal(e, t) < SystemTotal(e, s)
    || (SystemTotal(e, t) == SystemTotal(e, s) && Asking(t.world.tasks) < Asking(s.world.tasks))
  }

  /** Being woken costs nothing. */
  lemma WakeWeight(e: Env, ids: map<string, string>, f: Fetch, key: Option<Key>)
    requires e.Valid()
    ensures FetchWeight(e, ids, WakeFetch(f, key)) == FetchWeight(e, ids, f)
  {
    hide Cost, Ahead;
  }

  lemma BaseDrops(e: Env, s: System, i: nat, cached: bool)
    requires e.Valid() && SystemInv(e, s) && Enabled(s.world, Step(i, cached))
    ensures SystemDrops(e, s, Next(e, s, Base(Step(i, cached))))
  {
    hide Inv, FetchOk, Run, FetchWeight, Total, FetchTotal, Asking, Emitted, WakeFetch;
    var w, v := s.world, Run(e, s.world, i, cached);
    var key := Emitted(w, Step(i, cached));
    var t := Next(e, s, Base(Step(i, cached)));
    RunDrops(e, w, i, cached);
    ApplyKeeps(e, w, Step(i, cached));
    assert w.ids.Keys <= v.ids.Keys by { assert forall p | p in w.ids :: UmaClientTickets.Known(v, p, w.ids[p]); }
    forall j | 0 <= j < |s.fetches|
      ensures FetchWeight(e, v.ids, t.fetches[j]) <= FetchWeight(e, w.ids, s.fetches[j])
    {
      WakeWeight(e, v.ids, s.fetches[j], key);
      FetchWeightShrinks(e, w.ids, v.ids, s.fetches[j]);
    }
    FetchTotalCompare(e, w.ids, v.ids, s.fetches, t.fetches);
  }

  /** The id of the current target is known: its share is paid. */
  lemma PushWeight(e: Env, ids: map<string, string>, f: Fetch, id: string)
    requires e.Valid() && f.Ongoing() && Pace(f.phase) > 0
    requires !(f.phase.Complete? || f.phase.NoIdFound? || f.phase.Failed?)
    ensures FetchWeight(e, ids, Push(f, id)) < FetchWeight(e, ids, f)
  {
    hide Cost;
    var g := Push(f, id);
    var rest := f.targets[|f.body| + 1..];
    if g.Ongoing() {
      assert rest[0] == g.Target() && rest[1..] == g.targets[|g.body| + 1..];
      assert Ahead(e, ids, rest) == SEARCH + Cost(e, ids, rest[0]) + Ahead(e, ids, rest[1..]);
      hide Ahead;
    }
  }

  lemma MoveFetchDrops(e: Env, s: System, i: nat, f: Fetch)
    requires e.Valid() && i < |s.fetches| && FetchWeight(e, s.world.ids, f) < FetchWeight(e, s.world.ids, s.fetches[i])
    ensures SystemDrops(e, s, MoveFetch(s, i, f))
  {
    hide FetchWeight, Total, FetchTotal, Asking;
    FetchTotalUpdate(e, s.world.ids, s.fetches, i, f);
  }

  /** A new task is paid for by the request that starts it. */
  lemma StartDrops(e: Env, s: System, i: nat, f: Fetch, task: Task)
    requires e.Valid() && i < |s.fetches|
    requires FetchWeight(e, s.world.ids, f) + Weight(e, s.world.ids, task) < FetchWeight(e, s.world.ids, s.fetches[i])
    ensures SystemDrops(e, s, System(s.world.(tasks := s.world.tasks + [task]), s.fetches[i := f]))
  {
    hide FetchWeight, Weight, Total, FetchTotal, Asking;
    FetchTotalUpdate(e, s.world.ids, s.fetches, i, f);
    TotalAppend(e, s.world.ids, s.world.tasks, task);
  }

  lemma StartWeights(e: Env, ids: map<string, string>, path: string, credentials: string)
    requires e.Valid()
    ensures Weight(e, ids, Task(path, credentials, Ready)) <= Cost(e, ids, path)
    ensures Weight(e, ids, Task("", credentials, PatEntry(None))) <= PatCost(e, ids)
  {}

  lemma RunFetchDrops(e: Env, s: System, i: nat, present: bool)
    requires e.Valid() && i < |s.fetches| && CanMove(s, s.fetches[i]) && s.fetches[i].Ongoing()
    ensures SystemDrops(e, s, RunFetch(s, i, present))
  {
    hide Cost, Ahead, Total, FetchTotal, Asking, SystemDrops, Weight, Push, PatCost;
    var f, w := s.fetches[i], s.world;
    var t := RunFetch(s, i, present);
    match f.phase
    case Looked(found) =>
      if found.Some? { PushWeight(e, w.ids, f, found.value); }
      MoveFetchDrops(e, s, i, t.fetches[i]);
    case LookedAgain(found) =>
      if found.Some? { PushWeight(e, w.ids, f, found.value); }
      MoveFetchDrops(e, s, i, t.fetches[i]);
    case LookedLast(found) =>
      if found.Some? { PushWeight(e, w.ids, f, found.value); }
      MoveFetchDrops(e, s, i, t.fetches[i]);
    case Unknown =>
      if present {
        StartWeights(e, w.ids, f.Target(), f.credentials);
        StartDrops(e, s, i, f.(phase := Registering(|w.tasks|)), Task(f.Target(), f.credentials, Ready));
      } else {
        MoveFetchDrops(e, s, i, t.fetches[i]);
      }
    case Looking => MoveFetchDrops(e, s, i, t.fetches[i]);
    case LookingAgain => MoveFetchDrops(e, s, i, t.fetches[i]);
    case Registering(_) => MoveFetchDrops(e, s, i, t.fetches[i]);
    case Registered => MoveFetchDrops(e, s, i, t.fetches[i]);
  }

  lemma AuthorizeDrops(e: Env, s: System, i: nat)
    requires e.Valid() && i < |s.fetches| && CanMove(s, s.fetches[i]) && !s.fetches[i].Ongoing()
    ensures SystemDrops(e, s, Authorize(s, i))
  {
    hide Cost, Ahead, Total, FetchTotal, Asking, SystemDrops, Weight, PatCost;
    var f, w := s.fetches[i], s.world;
    if f.phase.Authorizing? {
      StartWeights(e, w.ids, "", f.credentials);
      StartDrops(e, s, i, f.(phase := Obtaining(|w.tasks|)), Task("", f.credentials, PatEntry(None)));
    } else {
      MoveFetchDrops(e, s, i, f.(phase := Complete));
    }
  }

  lemma SystemMeasureDrops(e: Env, s: System, t: System)
    requires e.Valid() && SystemDrops(e, s, t)
    ensures SystemMeasure(e, t) < SystemMeasure(e, s)
  {
    hide Total, FetchTotal, Asking;
    AskingBounded(e, t.world.ids, t.world.tasks);
    var a, b := SystemTotal(e, t), SystemTotal(e, s);
    if a < b { SquaresGrow(a, b); }
  }

  // ----- every run -----

  /** Steps of registrations and of ticket requests; nothing new is called from outside, and nothing fails. */
  predicate OnlySystemSteps(events: seq<SystemEvent>) {
    forall k | 0 <= k < |events| :: events[k].FetchStep? || (events[k].Base? && events[k].event.Step?)
  }

  lemma StepDrops(e: Env, s: System, ev: SystemEvent)
    requires e.Valid() && SystemInv(e, s) && SystemEnabled(s, ev)
    requires ev.FetchStep? || (ev.Base? && ev.event.Step?)
    ensures SystemDrops(e, s, Next(e, s, ev))
  {
    hide SystemInv, SystemDrops, CanMove;
    match ev
    case Base(event) => BaseDrops(e, s, event.task, event.cached);
    case FetchStep(i, present) =>
      if s.fetches[i].Ongoing() { RunFetchDrops(e, s, i, present); } else { AuthorizeDrops(e, s, i); }
  }

  /** However registrations and ticket requests are interleaved, they take no more steps than the measure allows. */
  lemma {:induction false} SystemRunsAreBounded(e: Env, s: System, events: seq<SystemEvent>)
    requires e.Valid() && SystemInv(e, s) && IsSystemRun(e, s, events) && OnlySystemSteps(events)
    ensures |events| + SystemMeasure(e, AfterAll(e, s, events)) <= SystemMeasure(e, s)
    decreases |events|
  {
    hide SystemInv, Next, SystemEnabled, SystemMeasure, SystemDrops;
    if events != [] {
      NextKeepsInv(e, s, events[0]);
      StepDrops(e, s, events[0]);
      SystemMeasureDrops(e, s, Next(e, s, events[0]));
      SystemRunsAreBounded(e, Next(e, s, events[0]), events[1..]);
    }
  }
}
