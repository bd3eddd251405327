/** Ticket requests beside the registrations: whose PATs they use, and what they register. */
module UmaClientTicketTokens {
  import opened Rdf
  import opened RegistrationSpec
  import opened UmaClient
  import opened UmaClientSafety
  import opened UmaClientDescriptions
  import opened UmaClientPats
  import opened UmaClientTickets

  // ----- PATs -----

  ghost predicate TokenOk(w: World, f: Fetch) {
    && (f.phase.Obtaining? ==> f.phase.task < |w.tasks| && w.tasks[f.phase.task].credentials == f.credentials)
    && (f.phase.Complete? ==> f.credentials in w.pats)
  }

  ghost predicate TokensOk(s: System) {
    Own(s.world) && forall i | 0 <= i < |s.fetches| :: TokenOk(s.world, s.fetches[i])
  }

  lemma StepKeepsCredentials(e: Env, w: World, ev: Event, j: nat)
    requires Enabled(w, ev) && j < |w.tasks|
    ensures j < |Apply(e, w, ev).tasks| && Apply(e, w, ev).tasks[j].credentials == w.tasks[j].credentials
  {
    hide RegistrationSpec.Remove;
    if ev.Step? { RunStores(e, w, ev.task, ev.cached, j); hide Run; }
  }

  lemma BaseKeepsToken(e: Env, w: World, ev: Event, f: Fetch)
    requires Enabled(w, ev) && TokenOk(w, f)
    ensures TokenOk(Apply(e, w, ev), WakeFetch(f, Emitted(w, ev)))
  {
    if f.phase.Obtaining? { StepKeepsCredentials(e, w, ev, f.phase.task); }
    StepStores(e, w, ev, f.credentials);
    hide Apply, FetchesFor;
  }

  lemma BaseKeepsTokens(e: Env, s: System, ev: Event)
    requires Enabled(s.world, ev) && TokensOk(s)
    ensures TokensOk(Next(e, s, Base(ev)))
  {
    StepKeepsOwn(e, s.world, ev);
    hide Apply, TokenOk, Own, WakeFetch;
    var key := Emitted(s.world, ev);
    forall i | 0 <= i < |s.fetches| ensures TokenOk(Apply(e, s.world, ev), WakeFetch(s.fetches[i], key)) {
      BaseKeepsToken(e, s.world, ev, s.fetches[i]);
    }
  }

  lemma AddedTaskKeepsTokens(s: System, task: Task)
    requires TokensOk(s) && !HasPat(task.phase)
    ensures TokensOk(s.(world := s.world.(tasks := s.world.tasks + [task])))
  {}

  lemma MovedKeepsTokens(s: System, i: nat, f: Fetch)
    requires TokensOk(s) && i < |s.fetches| && TokenOk(s.world, f)
    ensures TokensOk(MoveFetch(s, i, f))
  {
    hide Own;
  }

  lemma RunKeepsToken(s: System, i: nat, present: bool)
    requires TokensOk(s) && i < |s.fetches| && CanMove(s, s.fetches[i]) && s.fetches[i].Ongoing()
    ensures TokensOk(RunFetch(s, i, present))
  {
    var f := s.fetches[i];
    var t := RunFetch(s, i, present);
    AddedTaskKeepsTokens(s, Task(f.Target(), f.credentials, Ready));
    hide Own, HasPat, Lookup;
    var g := t.fetches[i];
    assert !g.phase.Obtaining? && !g.phase.Complete?;
    if f.phase.Unknown? && present {
      MovedKeepsTokens(s.(world := t.world), i, g);
    } else {
      assert t.world == s.world;
      MovedKeepsTokens(s, i, g);
    }
  }

  lemma AuthorizeKeepsToken(s: System, i: nat)
    requires TokensOk(s) && i < |s.fetches| && CanMove(s, s.fetches[i]) && !s.fetches[i].Ongoing()
    requires IsFull(s.fetches[i].phase) || s.fetches[i].phase.Failed?
    ensures TokensOk(Authorize(s, i))
  {
    var f := s.fetches[i];
    if f.phase.Authorizing? {
      AddedTaskKeepsTokens(s, Task("", f.credentials, PatEntry(None)));
      var v := Obtain(s.world, f.credentials);
      hide Own;
      MovedKeepsTokens(s.(world := v), i, f.(phase := Obtaining(|s.world.tasks|)));
    } else {
      assert TokenOk(s.world, f) && HasPat(s.world.tasks[f.phase.task].phase);
      MovedKeepsTokens(s, i, f.(phase := Complete));
    }
  }

  lemma FetchKeepsTokens(e: Env, s: System, i: nat, present: bool)
    requires TokensOk(s) && i < |s.fetches| && CanMove(s, s.fetches[i]) && SystemInv(e, s)
    ensures TokensOk(Next(e, s, FetchStep(i, present)))
  {
    FetchIsOk(e, s, i);
    hide SystemInv;
    if s.fetches[i].Ongoing() { RunKeepsToken(s, i, present); } else { AuthorizeKeepsToken(s, i); }
    hide TokensOk, CanMove;
  }

  lemma NextKeepsTokens(e: Env, s: System, ev: SystemEvent)
    requires TokensOk(s) && SystemEnabled(s, ev) && SystemInv(e, s)
    ensures TokensOk(Next(e, s, ev))
  {
    hide SystemInv;
    match ev
    case Base(event) => BaseKeepsTokens(e, s, event);
    case FetchStep(i, present) => FetchKeepsTokens(e, s, i, present);
    case _ => hide Own;
  }

  /** Somewhere in the run a PAT arrives that was requested with these credentials. */
  ghost predicate SystemFetches(e: Env, s: System, events: seq<SystemEvent>, credentials: string)
    requires IsSystemRun(e, s, events)
    decreases |events|
  {
    events != [] && ((events[0].Base? && FetchesFor(s.world, events[0].event, credentials))
                     || SystemFetches(e, Next(e, s, events[0]), events[1..], credentials))
  }

  lemma NextStores(e: Env, s: System, ev: SystemEvent, credentials: string)
    requires SystemEnabled(s, ev)
    ensures credentials in Next(e, s, ev).world.pats ==>
      credentials in s.world.pats || (ev.Base? && FetchesFor(s.world, ev.event, credentials))
  {
    if ev.Base? { StepStores(e, s.world, ev.event, credentials); }
    hide Apply, FetchesFor;
  }

  lemma {:induction false} RunKeepsTokens(e: Env, s: System, events: seq<SystemEvent>, credentials: string)
    requires e.Valid() && SystemInv(e, s) && TokensOk(s) && IsSystemRun(e, s, events)
    ensures TokensOk(AfterAll(e, s, events))
    ensures credentials in AfterAll(e, s, events).world.pats ==>
      credentials in s.world.pats || SystemFetches(e, s, events, credentials)
    decreases |events|
  {
    hide TokensOk, SystemInv, Next, SystemEnabled, FetchesFor;
    if events != [] {
      NextKeepsInv(e, s, events[0]);
      NextKeepsTokens(e, s, events[0]);
      NextStores(e, s, events[0], credentials);
      RunKeepsTokens(e, Next(e, s, events[0]), events[1..], credentials);
    }
  }

  /** Every ticket is requested with a PAT that was fetched for the credentials of the request. */
  lemma TicketTokensAreOwn(e: Env, events: seq<SystemEvent>, i: nat)
    requires e.Valid() && IsSystemRun(e, IDLE, events) && i < |AfterAll(e, IDLE, events).fetches|
    requires AfterAll(e, IDLE, events).fetches[i].phase.Complete?
    ensures SystemFetches(e, IDLE, events, AfterAll(e, IDLE, events).fetches[i].credentials)
  {
    IdleIsOk(e);
    assert TokensOk(IDLE);
    RunKeepsTokens(e, IDLE, events, AfterAll(e, IDLE, events).fetches[i].credentials);
    IsComplete(AfterAll(e, IDLE, events), i);
    hide IsSystemRun, AfterAll, SystemFetches, TokensOk;
  }

  lemma IsComplete(s: System, i: nat)
    requires TokensOk(s) && i < |s.fetches| && s.fetches[i].phase.Complete?
    ensures s.fetches[i].credentials in s.world.pats
  {
    assert TokenOk(s.world, s.fetches[i]);
  }

  // ----- registrations -----

  /** All credentials that are in use belong to these owners. */
  ghost predicate UsedBy(e: Env, s: System, owners: set<string>) {
    && (forall t | t in s.world.tasks && t.path != "" :: e.owner(t.credentials) in owners)
    && (forall f | f in s.fetches :: e.owner(f.credentials) in owners)
  }

  predicate Introduces(e: Env, ev: SystemEvent, owners: set<string>) {
    match ev
    case Base(event) => event.NewCall? ==> e.owner(event.credentials) in owners
    case NewFetch(_, credentials) => e.owner(credentials) in owners
    case _ => true
  }

  lemma BaseKeepsUsed(e: Env, s: System, ev: Event, owners: set<string>)
    requires Inv(e, s.world) && Enabled(s.world, ev) && UsedBy(e, s, owners) && Introduces(e, Base(ev), owners)
    ensures UsedBy(e, Next(e, s, Base(ev)), owners)
  {
    hide Inv, Apply;
    var v := Next(e, s, Base(ev));
    forall t | t in v.world.tasks && t.path != "" ensures e.owner(t.credentials) in owners {
      var i :| 0 <= i < |v.world.tasks| && v.world.tasks[i] == t;
      StepCredentials(e, s.world, ev, i);
    }
    forall f | f in v.fetches ensures e.owner(f.credentials) in owners {
      var i :| 0 <= i < |v.fetches| && v.fetches[i] == f;
      assert s.fetches[i] in s.fetches;
    }
  }

  lemma FetchKeepsUsed(e: Env, s: System, i: nat, present: bool, owners: set<string>)
    requires i < |s.fetches| && CanMove(s, s.fetches[i]) && UsedBy(e, s, owners)
    ensures UsedBy(e, Next(e, s, FetchStep(i, present)), owners)
    ensures Next(e, s, FetchStep(i, present)).world.server == s.world.server
    ensures Next(e, s, FetchStep(i, present)).world.ids == s.world.ids
  {
    var f := s.fetches[i];
    assert f in s.fetches;
    hide Lookup;
  }

  lemma NextKeepsKnown(e: Env, s: System, ev: SystemEvent, owners: set<string>)
    requires e.Valid() && SystemInv(e, s) && SystemEnabled(s, ev)
    requires UsedBy(e, s, owners) && Introduces(e, ev, owners) && UmaClientDescriptions.Known(e, s.world, owners)
    ensures UsedBy(e, Next(e, s, ev), owners) && UmaClientDescriptions.Known(e, Next(e, s, ev).world, owners)
  {
    WorldIsOk(e, s);
    hide SystemInv, Inv, Describes, Apply;
    match ev
    case Base(event) =>
      BaseKeepsUsed(e, s, event, owners);
      StepKeepsKnown(e, s.world, event, owners);
    case FetchStep(i, present) =>
      FetchKeepsUsed(e, s, i, present, owners);
      hide Next;
    case _ =>
  }

  lemma {:induction false} SystemRunKeepsKnown(e: Env, s: System, events: seq<SystemEvent>, owners: set<string>)
    requires e.Valid() && SystemInv(e, s) && IsSystemRun(e, s, events)
    requires UsedBy(e, s, owners) && UmaClientDescriptions.Known(e, s.world, owners)
    requires forall ev | ev in events :: Introduces(e, ev, owners)
    ensures UmaClientDescriptions.Known(e, AfterAll(e, s, events).world, owners)
    decreases |events|
  {
    hide SystemInv, UsedBy, UmaClientDescriptions.Known, Introduces, Next, SystemEnabled;
    if events != [] {
      assert events[0] in events;
      NextKeepsInv(e, s, events[0]);
      NextKeepsKnown(e, s, events[0], owners);
      SystemRunKeepsKnown(e, Next(e, s, events[0]), events[1..], owners);
    }
  }

  /** With ticket requests among the tasks, too, each registered path is described as it is, and registered for the
      owner of credentials that some call or ticket request used. */
  lemma RegistrationsAreExact(e: Env, events: seq<SystemEvent>, path: string)
    requires e.Valid() && IsSystemRun(e, IDLE, events) && path in AfterAll(e, IDLE, events).world.server.registrations
    ensures var w := AfterAll(e, IDLE, events).world;
      Describes(e, w.ids, path, w.server.registrations[path].description)
    ensures var owner := AfterAll(e, IDLE, events).world.server.registrations[path].owner;
      || (exists ev | ev in events :: ev.Base? && ev.event.NewCall? && owner == e.owner(ev.event.credentials))
      || (exists ev | ev in events :: ev.NewFetch? && owner == e.owner(ev.credentials))
  {
    IdleIsOk(e);
    var callers := set ev | ev in events && ev.Base? && ev.event.NewCall? :: e.owner(ev.event.credentials);
    var others := set ev | ev in events && ev.NewFetch? :: e.owner(ev.credentials);
    hide SystemInv, AfterAll, IsSystemRun, Describes;
    SystemRunKeepsKnown(e, IDLE, events, callers + others);
  }

  // ----- what does not exist -----

  ghost predicate NoRegistrations(s: System) {
    && (forall t | t in s.world.tasks :: t.path == "" && PatOnly(t.phase)) && s.world.server == Empty
  }

  /** Nobody calls for a registration, and no target of a ticket exists. */
  predicate NothingExists(ev: SystemEvent) {
    (ev.Base? ==> !ev.event.NewCall? && !ev.event.Deletion?) && (ev.FetchStep? ==> !ev.present)
  }

  lemma RunRegistersNothing(e: Env, w: World, i: nat, cached: bool)
    requires i < |w.tasks| && Runnable(w.tasks[i].phase)
    requires forall t | t in w.tasks :: t.path == "" && PatOnly(t.phase)
    ensures var v := Run(e, w, i, cached);
      v.server == w.server && forall t | t in v.tasks :: t.path == "" && PatOnly(t.phase)
  {
    assert w.tasks[i] in w.tasks && PatOnly(w.tasks[i].phase);
    hide Answer;
  }

  lemma NextRegistersNothing(e: Env, s: System, ev: SystemEvent)
    requires NoRegistrations(s) && SystemEnabled(s, ev) && NothingExists(ev)
    ensures NoRegistrations(Next(e, s, ev))
  {
    if ev.Base? && ev.event.Step? { RunRegistersNothing(e, s.world, ev.event.task, ev.event.cached); hide Run; }
    hide Lookup;
  }

  /** Ticket requests register nothing that does not exist. */
  lemma {:induction false} AbsentIsNotRegistered(e: Env, s: System, events: seq<SystemEvent>)
    requires NoRegistrations(s) && IsSystemRun(e, s, events) && forall ev | ev in events :: NothingExists(ev)
    ensures NoRegistrations(AfterAll(e, s, events))
    decreases |events|
  {
    hide NoRegistrations, NothingExists, Next, SystemEnabled;
    if events != [] {
      assert events[0] in events;
      NextRegistersNothing(e, s, events[0]);
      AbsentIsNotRegistered(e, Next(e, s, events[0]), events[1..]);
    }
  }

  // ----- what is being registered -----

  /** The request has found no id for its current target, which is being registered; or it has failed since. */
  predicate Waits(s: System, i: nat, path: string) {
    && PathKey(path) in s.world.inProgress && i < |s.fetches|
    && var f := s.fetches[i];
       f.phase.Failed? || (f.Ongoing() && f.Target() == path && (f.phase == Looked(None) || f.phase.Listening?))
  }

  /** The step does not give up the lock on the path. */
  predicate Holds(s: System, ev: SystemEvent, path: string)
    requires SystemEnabled(s, ev)
  {
    ev.Base? ==> Emitted(s.world, ev.event) != Some(PathKey(path))
  }

  ghost predicate AllHold(e: Env, s: System, events: seq<SystemEvent>, path: string)
    requires IsSystemRun(e, s, events)
    decreases |events|
  {
    events != [] ==> Holds(s, events[0], path) && AllHold(e, Next(e, s, events[0]), events[1..], path)
  }

  lemma BaseWaits(e: Env, s: System, ev: Event, i: nat, path: string)
    requires Inv(e, s.world) && Enabled(s.world, ev) && Waits(s, i, path)
    requires Emitted(s.world, ev) != Some(PathKey(path))
    ensures Waits(Next(e, s, Base(ev)), i, path)
  {
    hide Inv, Apply, Emitted;
    ApplyKeeps(e, s.world, ev);
  }

  lemma FetchWaits(e: Env, s: System, j: nat, present: bool, i: nat, path: string)
    requires j < |s.fetches| && CanMove(s, s.fetches[j]) && Waits(s, i, path)
    ensures Waits(Next(e, s, FetchStep(j, present)), i, path)
  {
    hide Lookup, Push;
  }

  lemma NextWaits(e: Env, s: System, ev: SystemEvent, i: nat, path: string)
    requires SystemInv(e, s) && SystemEnabled(s, ev) && Waits(s, i, path) && Holds(s, ev, path)
    ensures Waits(Next(e, s, ev), i, path)
  {
    WorldIsOk(e, s);
    hide SystemInv, Inv, Emitted;
    match ev
    case Base(event) => BaseWaits(e, s, event, i, path);
    case FetchStep(j, present) => FetchWaits(e, s, j, present, i, path);
    case _ =>
  }

  /** A ticket request whose target is being registered waits until that registration gives up its lock, and does not
      register the target again. */
  lemma {:induction false} WaitsForRegistration(e: Env, s: System, events: seq<SystemEvent>, i: nat, path: string)
    requires e.Valid() && SystemInv(e, s) && IsSystemRun(e, s, events)
    requires Waits(s, i, path) && AllHold(e, s, events, path)
    ensures Waits(AfterAll(e, s, events), i, path)
    decreases |events|
  {
    hide SystemInv, Waits, Holds, Next, SystemEnabled;
    if events != [] {
      NextKeepsInv(e, s, events[0]);
      NextWaits(e, s, events[0], i, path);
      WaitsForRegistration(e, Next(e, s, events[0]), events[1..], i, path);
    }
  }
}
