/** Requests for tickets beside the registrations: each target needs an id before the ticket is asked for. */
module UmaClientTickets {
  import opened Rdf
  import opened RegistrationSpec
  import opened UmaClient
  import opened UmaClientSafety
  import opened UmaClientAgreement

  datatype FetchPhase =
    | Looking                                           // umaIdStore.get(target)
    | Looked(found: Option<string>)
    | Listening                                         // once(emitter, target), against a timeout
    | LookingAgain                                      // umaIdStore.get(target)
    | LookedAgain(found: Option<string>)
    | Unknown                                           // resourceSet.hasResource(target)
    | Registering(task: nat)                            // awaits a registration of the target
    | Registered                                        // umaIdStore.get(target)
    | LookedLast(found: Option<string>)
    | Authorizing                                       // every target has its id in the body; calls getPat
    | Obtaining(task: nat)                              // awaits the PAT
    | Complete                                          // the ticket can be requested
    | NoIdFound                                         // the error for a registered target without id
    | Failed

  /** One activation of `fetchTicket`; `body` has the ids of the targets before the current one. */
  datatype Fetch = Fetch(targets: seq<string>, credentials: string, body: seq<string>, phase: FetchPhase)
  {
    predicate Ongoing() {
      |body| < |targets|
    }

    function Target(): string
      requires Ongoing()
    {
      targets[|body|]
    }
  }

  datatype System = System(world: World, fetches: seq<Fetch>)

  // ----- steps -----

  /** The event that a step fires, if any. */
  function Emitted(w: World, ev: Event): Option<Key>
    requires Enabled(w, ev)
  {
    if !ev.Step? then None else
    var t := w.tasks[ev.task];
    if t.phase.FetchPat? then Some(PatKey)
    else if t.phase.Releasing? || (t.phase.Replied? && t.phase.known.Some?) then Some(PathKey(t.path))
    else None
  }

  function WakeFetch(f: Fetch, key: Option<Key>): Fetch {
    if f.phase.Listening? && f.Ongoing() && key == Some(PathKey(f.Target())) then f.(phase := LookingAgain) else f
  }

  /** The id goes into the body, and the next target is looked up. */
  function Push(f: Fetch, id: string): Fetch {
    var body := f.body + [id];
    f.(body := body, phase := if |body| < |f.targets| then Looking else Authorizing)
  }

  datatype SystemEvent =
    | Base(event: Event)
    | NewFetch(targets: seq<string>, credentials: string)
    | FetchStep(fetch: nat, present: bool)               // whether the resource exists, where that is asked
    | FetchFailure(fetch: nat)

  predicate CanMove(s: System, f: Fetch) {
    match f.phase
    case Listening => false
    case Registering(task) => task < |s.world.tasks| && s.world.tasks[task].phase.Finished?
    case Authorizing => !f.Ongoing()
    case Obtaining(task) => !f.Ongoing() && task < |s.world.tasks| && s.world.tasks[task].phase.Finished?
    case Complete => false
    case NoIdFound => false
    case Failed => false
    case _ => f.Ongoing()
  }

  predicate SystemEnabled(s: System, ev: SystemEvent) {
    match ev
    case Base(event) => Enabled(s.world, event)
    case NewFetch(targets, _) => forall t | t in targets :: t != ""
    case FetchStep(i, _) => i < |s.fetches| && CanMove(s, s.fetches[i])
    case FetchFailure(i) => i < |s.fetches| && !(s.fetches[i].phase.Complete? || s.fetches[i].phase.NoIdFound?)
  }

  function MoveFetch(s: System, i: nat, f: Fetch): System
    requires i < |s.fetches|
  {
    s.(fetches := s.fetches[i := f])
  }

  /** The next stretch of a ticket request. */
  function RunFetch(s: System, i: nat, present: bool): System
    requires i < |s.fetches| && CanMove(s, s.fetches[i]) && s.fetches[i].Ongoing()
  {
    var f := s.fetches[i];
    var target := f.Target();
    match f.phase
    case Looking => MoveFetch(s, i, f.(phase := Looked(Lookup(s.world.ids, target))))
    case Looked(found) =>
      if found.Some? then MoveFetch(s, i, Push(f, found.value))
      else MoveFetch(s, i, f.(phase := if PathKey(target) in s.world.inProgress then Listening else Unknown))
    case LookingAgain => MoveFetch(s, i, f.(phase := LookedAgain(Lookup(s.world.ids, target))))
    case LookedAgain(found) =>
      MoveFetch(s, i, if found.Some? then Push(f, found.value) else f.(phase := Unknown))
    case Unknown =>
      if present
      then MoveFetch(s, i, f.(phase := Registering(|s.world.tasks|))).(world := Call(s.world, target, f.credentials))
      else MoveFetch(s, i, f.(phase := Failed))
    case Registering(_) => MoveFetch(s, i, f.(phase := Registered))
    case Registered => MoveFetch(s, i, f.(phase := LookedLast(Lookup(s.world.ids, target))))
    case LookedLast(found) =>
      MoveFetch(s, i, if found.Some? then Push(f, found.value) else f.(phase := NoIdFound))
  }

  /** The PAT for the request, obtained as any other. */
  function Authorize(s: System, i: nat): System
    requires i < |s.fetches|
  {
    var f := s.fetches[i];
    if f.phase.Authorizing?
    then MoveFetch(s, i, f.(phase := Obtaining(|s.world.tasks|))).(world := Obtain(s.world, f.credentials))
    else MoveFetch(s, i, f.(phase := Complete))
  }

  function Next(e: Env, s: System, ev: SystemEvent): System
    requires SystemEnabled(s, ev)
  {
    match ev
    case Base(event) =>
      var key := Emitted(s.world, event);
      System(Apply(e, s.world, event),
        seq(|s.fetches|, i requires 0 <= i < |s.fetches| => WakeFetch(s.fetches[i], key)))
    case NewFetch(targets, credentials) =>
      s.(fetches := s.fetches + [Fetch(targets, credentials, [], if targets == [] then Authorizing else Looking)])
    case FetchStep(i, present) => if s.fetches[i].Ongoing() then RunFetch(s, i, present) else Authorize(s, i)
    case FetchFailure(i) => MoveFetch(s, i, s.fetches[i].(phase := Failed))
  }

  ghost predicate IsSystemRun(e: Env, s: System, events: seq<SystemEvent>)
    decreases |events|
  {
    events != [] ==> SystemEnabled(s, events[0]) && IsSystemRun(e, Next(e, s, events[0]), events[1..])
  }

  function AfterAll(e: Env, s: System, events: seq<SystemEvent>): System
    requires IsSystemRun(e, s, events)
    decreases |events|
  {
    if events == [] then s else AfterAll(e, Next(e, s, events[0]), events[1..])
  }

  // ----- invariant -----

  predicate Known(w: World, target: string, id: string) {
    target in w.ids && w.ids[target] == id
  }

  predicate IsFull(phase: FetchPhase) {
    phase.Authorizing? || phase.Obtaining? || phase.Complete?
  }

  ghost predicate FetchOk(w: World, f: Fetch) {
    && |f.body| <= |f.targets| && (forall t | t in f.targets :: t != "")
    && (forall k | 0 <= k < |f.body| :: Known(w, f.targets[k], f.body[k]))
    && (IsFull(f.phase) <==> |f.body| == |f.targets| && !f.phase.Failed?)
    && !f.phase.NoIdFound? && (f.phase.Obtaining? ==> f.phase.task < |w.tasks|)
    && (f.Ongoing() ==>
          match f.phase
          case Looked(found) => found.Some? ==> Known(w, f.Target(), found.value)
          case Listening => PathKey(f.Target()) in w.inProgress
          case LookedAgain(found) => found.Some? ==> Known(w, f.Target(), found.value)
          case Registering(task) => task < |w.tasks| && w.tasks[task].path == f.Target()
          case Registered => f.Target() in w.ids
          case LookedLast(found) => found.Some? && Known(w, f.Target(), found.value)
          case _ => true)
  }

  ghost predicate SystemInv(e: Env, s: System) {
    Inv(e, s.world) && forall i | 0 <= i < |s.fetches| :: FetchOk(s.world, s.fetches[i])
  }

  /** What every step of the registrations leaves to those who wait. */
  ghost predicate Keeps(w: World, v: World, key: Option<Key>) {
    && (forall p | p in w.ids :: Known(v, p, w.ids[p]))
    && (forall k | k in w.inProgress && Some(k) != key :: k in v.inProgress)
    && |w.tasks| <= |v.tasks| && forall i | 0 <= i < |w.tasks| :: v.tasks[i].path == w.tasks[i].path
  }

  /** A key is only given up together with its event. */
  lemma RunKeeps(e: Env, w: World, i: nat, cached: bool)
    requires Inv(e, w) && i < |w.tasks| && Runnable(w.tasks[i].phase)
    ensures Keeps(w, Run(e, w, i, cached), Emitted(w, Step(i, cached)))
  {
    hide Inv, Answer, TaskOk, Emit;
    IdsAreWriteOnce(e, w, Step(i, cached));
    var t := w.tasks[i];
    EmitKeepsPaths(e, w.tasks[i := t.(phase := Finished)], PathKey(t.path));
    if t.phase.FetchPat? { EmitKeepsPaths(e, w.tasks[i := t.(phase := HavePat(t.phase.known))], PatKey); }
  }

  lemma EmitKeepsPaths(e: Env, tasks: seq<Task>, key: Key)
    ensures |Emit(e, tasks, key)| == |tasks|
    ensures forall j | 0 <= j < |tasks| :: Emit(e, tasks, key)[j].path == tasks[j].path
  {}

  lemma ApplyKeeps(e: Env, w: World, ev: Event)
    requires Inv(e, w) && Enabled(w, ev)
    ensures Keeps(w, Apply(e, w, ev), Emitted(w, ev))
  {
    hide Inv, Run;
    if ev.Step? { RunKeeps(e, w, ev.task, ev.cached); }
  }

  /** A listener is woken by the step that gives up its key, so none waits in vain. */
  lemma WakeKeepsFetch(w: World, v: World, f: Fetch, key: Option<Key>)
    requires FetchOk(w, f) && Keeps(w, v, key)
    ensures FetchOk(v, WakeFetch(f, key))
  {}

  lemma BaseKeepsInv(e: Env, s: System, ev: Event)
    requires e.Valid() && SystemInv(e, s) && Enabled(s.world, ev)
    ensures SystemInv(e, Next(e, s, Base(ev)))
  {
    hide Inv, FetchOk, Keeps, Apply, Emitted, WakeFetch;
    ApplyKeepsInv(e, s.world, ev);
    ApplyKeeps(e, s.world, ev);
    forall i | 0 <= i < |s.fetches|
      ensures FetchOk(Apply(e, s.world, ev), WakeFetch(s.fetches[i], Emitted(s.world, ev)))
    {
      WakeKeepsFetch(s.world, Apply(e, s.world, ev), s.fetches[i], Emitted(s.world, ev));
    }
  }

  lemma FinishedHasId(e: Env, w: World, i: nat)
    requires Inv(e, w) && i < |w.tasks| && w.tasks[i].phase.Finished? && w.tasks[i].path != ""
    ensures w.tasks[i].path in w.ids
  {
    TaskIsOk(e, w, i);
    hide Inv;
  }

  lemma PushIsOk(w: World, f: Fetch, id: string)
    requires FetchOk(w, f) && f.Ongoing() && Known(w, f.Target(), id)
    ensures FetchOk(w, Push(f, id))
  {}

  lemma FetchStepKeepsInv(e: Env, s: System, i: nat, present: bool)
    requires e.Valid() && SystemInv(e, s) && i < |s.fetches| && CanMove(s, s.fetches[i]) && s.fetches[i].Ongoing()
    ensures SystemInv(e, RunFetch(s, i, present))
  {
    hide Inv, Call, Push;
    var f := s.fetches[i];
    assert FetchOk(s.world, f);
    match f.phase
    case Looked(found) => if found.Some? { PushIsOk(s.world, f, found.value); }
    case LookedAgain(found) => if found.Some? { PushIsOk(s.world, f, found.value); }
    case LookedLast(found) => PushIsOk(s.world, f, found.value);
    case Unknown => if present { RegisterKeepsInv(e, s, i); }
    case Registering(task) =>
      assert f.Target() in f.targets;
      FinishedHasId(e, s.world, task);
    case _ =>
  }

  lemma RegisterKeepsInv(e: Env, s: System, i: nat)
    requires SystemInv(e, s) && i < |s.fetches| && s.fetches[i].phase.Unknown? && s.fetches[i].Ongoing()
    ensures SystemInv(e, RunFetch(s, i, true))
  {
    hide Inv;
    var f := s.fetches[i];
    assert FetchOk(s.world, f) && f.Target() in f.targets;
    CallKeepsInv(e, s.world, f.Target(), f.credentials);
    var v := Call(s.world, f.Target(), f.credentials);
    forall j | 0 <= j < |s.fetches| ensures FetchOk(v, s.fetches[j]) {
      WakeKeepsFetch(s.world, v, s.fetches[j], None);
    }
  }

  lemma AuthorizeKeepsInv(e: Env, s: System, i: nat)
    requires SystemInv(e, s) && i < |s.fetches| && CanMove(s, s.fetches[i]) && !s.fetches[i].Ongoing()
    ensures SystemInv(e, Authorize(s, i))
  {
    hide Inv;
    var f := s.fetches[i];
    assert FetchOk(s.world, f);
    if f.phase.Authorizing? {
      ObtainKeepsInv(e, s.world, f.credentials);
      var v := Obtain(s.world, f.credentials);
      forall j | 0 <= j < |s.fetches| ensures FetchOk(v, s.fetches[j]) {
        WakeKeepsFetch(s.world, v, s.fetches[j], None);
      }
    }
  }

  lemma NextKeepsInv(e: Env, s: System, ev: SystemEvent)
    requires e.Valid() && SystemInv(e, s) && SystemEnabled(s, ev)
    ensures SystemInv(e, Next(e, s, ev))
  {
    match ev
    case Base(event) => BaseKeepsInv(e, s, event);
    case FetchStep(i, present) =>
      if s.fetches[i].Ongoing() { FetchStepKeepsInv(e, s, i, present); } else { AuthorizeKeepsInv(e, s, i); }
    case NewFetch(_, _) => hide Inv;
    case FetchFailure(i) => hide Inv;
  }

  // ----- every run -----

  lemma {:induction false} SystemRunsKeepInv(e: Env, s: System, events: seq<SystemEvent>)
    requires e.Valid() && SystemInv(e, s) && IsSystemRun(e, s, events)
    ensures SystemInv(e, AfterAll(e, s, events))
    decreases |events|
  {
    hide SystemInv, Next, SystemEnabled;
    if events != [] {
      NextKeepsInv(e, s, events[0]);
      SystemRunsKeepInv(e, Next(e, s, events[0]), events[1..]);
    }
  }

  const IDLE := System(Start, [])

  /** However requests and registrations interleave, fail or are deleted: a finished registration left an id,
      so the error for a missing one never occurs, and a complete body has the stored id of every target. */
  lemma TicketBodiesAreExact(e: Env, events: seq<SystemEvent>, i: nat)
    requires e.Valid() && IsSystemRun(e, IDLE, events) && i < |AfterAll(e, IDLE, events).fetches|
    ensures var s := AfterAll(e, IDLE, events);
      var f := s.fetches[i];
      && !f.phase.NoIdFound?
      && (f.phase.Complete? ==> |f.body| == |f.targets| && forall k | 0 <= k < |f.body| ::
            Known(s.world, f.targets[k], f.body[k]))
  {
    assert SystemInv(e, IDLE) by { assert Inv(e, Start); }
    hide SystemInv, AfterAll, IsSystemRun;
    SystemRunsKeepInv(e, IDLE, events);
    FetchIsOk(e, AfterAll(e, IDLE, events), i);
  }

  lemma FetchIsOk(e: Env, s: System, i: nat)
    requires SystemInv(e, s) && i < |s.fetches|
    ensures FetchOk(s.world, s.fetches[i])
  {
    hide FetchOk;
  }

  /** When no registration can move and none has failed, every unfinished request can: neither a lock nor
      a wake-up is lost to it. */
  lemma RequestsCanMove(e: Env, s: System, i: nat)
    requires SystemInv(e, s) && i < |s.fetches| && !s.fetches[i].phase.Complete? && !s.fetches[i].phase.Failed?
    requires Idle(s.world) && forall j | 0 <= j < |s.world.tasks| :: !s.world.tasks[j].phase.Stuck?
    ensures CanMove(s, s.fetches[i])
  {
    var f := s.fetches[i];
    assert FetchOk(s.world, f);
    NoDeadlock(e, s.world);
    if f.phase.Listening? {
      LockIsHeld(e, s.world, PathKey(f.Target()));
    }
    hide Inv;
  }

  lemma LockIsHeld(e: Env, w: World, key: Key)
    requires Inv(e, w) && key in w.inProgress
    ensures LockOk(w, key)
  {
    hide TaskOk, LockOk, IdOk, CreatedOk, ServerOk;
  }

  // ----- what the server knows -----

  /** No registration fails or is deleted, and the server accepts what it is asked; ticket requests may fail. */
  predicate StepSucceeds(e: Env, s: System, ev: SystemEvent)
    requires SystemEnabled(s, ev)
  {
    ev.Base? ==> Succeeds(e, s.world, ev.event)
  }

  ghost predicate SucceedingSystemRun(e: Env, s: System, events: seq<SystemEvent>)
    requires IsSystemRun(e, s, events)
    decreases |events|
  {
    events != [] ==> StepSucceeds(e, s, events[0]) && SucceedingSystemRun(e, Next(e, s, events[0]), events[1..])
  }

  lemma FetchStepKeepsAgreeing(e: Env, s: System, i: nat, present: bool)
    requires Agreeing(e, s.world) && i < |s.fetches| && CanMove(s, s.fetches[i])
    ensures Agreeing(e, Next(e, s, FetchStep(i, present)).world)
  {
    hide Agreeing, Call, Obtain, Push;
    var f := s.fetches[i];
    if f.Ongoing() {
      if f.phase.Unknown? { CallKeepsAgreeing(e, s.world, f.Target(), f.credentials); }
    } else {
      ObtainKeepsAgreeing(e, s.world, f.credentials);
    }
  }

  /** Ticket requests start registrations and PAT calls of their own; the server still agrees with the client. */
  lemma {:induction false} SystemRunsAgree(e: Env, s: System, events: seq<SystemEvent>)
    requires e.Valid() && SystemInv(e, s) && Agreeing(e, s.world)
    requires IsSystemRun(e, s, events) && SucceedingSystemRun(e, s, events)
    ensures SystemInv(e, AfterAll(e, s, events)) && Agreeing(e, AfterAll(e, s, events).world)
    decreases |events|
  {
    hide Agreeing, Inv, FetchOk, Apply, Succeeds, Enabled, RunFetch, Authorize;
    if events != [] {
      NextKeepsInv(e, s, events[0]);
      match events[0] {
        case Base(event) => ApplyKeepsAgreeing(e, s.world, event);
        case FetchStep(i, present) => FetchStepKeepsAgreeing(e, s, i, present);
        case _ =>
      }
      SystemRunsAgree(e, Next(e, s, events[0]), events[1..]);
    }
  }

  lemma KnownIdIsRegistered(e: Env, w: World, f: Fetch, k: nat)
    requires Inv(e, w) && Agreeing(e, w) && FetchOk(w, f) && k < |f.body|
    ensures f.body[k] in w.server.registrations
  {
    assert Known(w, f.targets[k], f.body[k]);
    IdIsOk(e, w, f.targets[k]);
    hide Inv;
  }

  /** Without failed and deleted registrations, the server knows every id it is asked a ticket for. */
  lemma TicketIdsAreRegistered(e: Env, events: seq<SystemEvent>, i: nat, k: nat)
    requires e.Valid() && IsSystemRun(e, IDLE, events) && SucceedingSystemRun(e, IDLE, events)
    requires i < |AfterAll(e, IDLE, events).fetches| && k < |AfterAll(e, IDLE, events).fetches[i].body|
    ensures var s := AfterAll(e, IDLE, events);
      s.fetches[i].body[k] in s.world.server.registrations
  {
    IdleIsOk(e);
    hide SystemInv, AfterAll, IsSystemRun, SucceedingSystemRun, Agreeing, FetchOk;
    SystemRunsAgree(e, IDLE, events);
    var s := AfterAll(e, IDLE, events);
    FetchIsOk(e, s, i);
    WorldIsOk(e, s);
    KnownIdIsRegistered(e, s.world, s.fetches[i], k);
  }

  lemma IdleIsOk(e: Env)
    ensures SystemInv(e, IDLE) && Agreeing(e, IDLE.world)
  {
    assert Inv(e, Start);
  }

  lemma WorldIsOk(e: Env, s: System)
    requires SystemInv(e, s)
    ensures Inv(e, s.world)
  {}
}
