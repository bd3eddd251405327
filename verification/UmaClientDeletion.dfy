/** What happens after `deleteResource`: the client keeps the id, so the resource is never registered again. */
module UmaClientDeletion {
  import opened Rdf
  import opened RegistrationSpec
  import opened RegistrationTheory
  import opened UmaClient
  import opened UmaClientSafety

  // ----- an update of something that is gone -----

  /** A request that updates a known registration is accepted exactly when the server still has the registration,
      of the same owner. */
  lemma UpdateAcceptedIff(e: Env, w: World, i: nat)
    requires e.Valid() && Inv(e, w) && i < |w.tasks| && w.tasks[i].phase.Sent? && w.tasks[i].phase.known.Some?
    ensures var t := w.tasks[i];
      Answer(e, w, t).0.Accepted() <==>
        t.path in w.server.registrations && w.server.registrations[t.path].owner == e.owner(t.credentials)
  {
    AnswerVerdict(e, w, i);
    TaskIsOk(e, w, i);
    var t := w.tasks[i];
    IdIsOk(e, w, t.path);
    hide Inv, SetMetadata, Body, Consistent, Live;
    if t.path in w.server.registrations && w.server.registrations[t.path].owner == e.owner(t.credentials) {
      UpdateIsMetadata(e, w, i);
    }
  }

  lemma UpdateIsMetadata(e: Env, w: World, i: nat)
    requires e.Valid() && Inv(e, w) && i < |w.tasks| && w.tasks[i].phase.Sent? && w.tasks[i].phase.known.Some?
    requires w.tasks[i].path in w.server.registrations
    requires w.server.registrations[w.tasks[i].path].owner == e.owner(w.tasks[i].credentials)
    ensures Answer(e, w, w.tasks[i]).0.Accepted()
  {
    RequestFacts(e, w, i);
    TaskIsOk(e, w, i);
    IdIsOk(e, w, w.tasks[i].path);
    var t := w.tasks[i];
    hide Inv, Consistent, Body, SetMetadata, Live;
    ClientMetadata(e, w.server, t.path, t.phase.parentId, e.owner(t.credentials));
  }

  // ----- never again -----

  lemma StepStaysDeleted(e: Env, w: World, ev: Event, path: string)
    requires e.Valid() && Inv(e, w) && Enabled(w, ev)
    requires path in w.ids && path !in w.server.registrations
    ensures path in Apply(e, w, ev).ids && path !in Apply(e, w, ev).server.registrations
  {
    IdsAreWriteOnce(e, w, ev);
    if ev.Step? && w.tasks[ev.task].phase.Sent? {
      AnswerVerdict(e, w, ev.task);
      TaskIsOk(e, w, ev.task);
      if w.tasks[ev.task].path == path { UpdateAcceptedIff(e, w, ev.task); }
      hide Inv, Answer;
    } else {
      hide Inv, Emit, RegistrationSpec.Disown;
    }
  }

  lemma {:induction false} StaysDeleted(e: Env, w: World, events: seq<Event>, path: string)
    requires e.Valid() && Inv(e, w) && IsRun(e, w, events)
    requires path in w.ids && path !in w.server.registrations
    ensures path in After(e, w, events).ids && path !in After(e, w, events).server.registrations
    decreases |events|
  {
    hide Inv, Apply, Enabled;
    if events != [] {
      ApplyKeepsInv(e, w, events[0]);
      StepStaysDeleted(e, w, events[0], path);
      StaysDeleted(e, Apply(e, w, events[0]), events[1..], path);
    }
  }

  ghost predicate LeadsToRegistration(e: Env, w: World, events: seq<Event>, path: string) {
    IsRun(e, w, events) && path in After(e, w, events).server.registrations
  }

  /** A resource with a stored id can be registered at the server at any later time exactly when it is registered
      now. */
  lemma RegisteredAgainIff(e: Env, w: World, path: string)
    requires e.Valid() && Inv(e, w) && path in w.ids
    ensures (exists events :: LeadsToRegistration(e, w, events, path)) <==> path in w.server.registrations
  {
    if path in w.server.registrations {
      var nothing: seq<Event> := [];
      assert LeadsToRegistration(e, w, nothing, path);
    } else {
      forall events | IsRun(e, w, events) ensures path !in After(e, w, events).server.registrations {
        StaysDeleted(e, w, events, path);
      }
    }
  }

  // ----- a lock that is never released -----

  predicate NotStarted(phase: Phase) {
    phase.Ready? || phase.AwaitLock? || phase.ParentWait?
  }

  lemma EmitLeaves(e: Env, tasks: seq<Task>, key: Key, j: nat)
    requires j < |tasks|
    ensures j < |Emit(e, tasks, key)| && Emit(e, tasks, key)[j].path == tasks[j].path
    ensures tasks[j].phase.Stuck? ==> Emit(e, tasks, key)[j] == tasks[j]
    ensures NotStarted(tasks[j].phase) ==> NotStarted(Emit(e, tasks, key)[j].phase)
  {}

  /** A step of one task leaves failed and waiting ones as they are, but for wake-ups. */
  lemma RunLeaves(e: Env, w: World, i: nat, cached: bool, j: nat)
    requires i < |w.tasks| && Runnable(w.tasks[i].phase) && j < |w.tasks| && j != i
    ensures var v := Run(e, w, i, cached);
      && j < |v.tasks| && v.tasks[j].path == w.tasks[j].path
      && (w.tasks[j].phase.Stuck? ==> v.tasks[j] == w.tasks[j])
      && (NotStarted(w.tasks[j].phase) ==> NotStarted(v.tasks[j].phase))
  {
    var t := w.tasks[i];
    EmitLeaves(e, w.tasks[i := t.(phase := Finished)], PathKey(t.path), j);
    if t.phase.FetchPat? { EmitLeaves(e, w.tasks[i := t.(phase := HavePat(t.phase.known))], PatKey, j); }
    hide Emit, Answer, NotStarted;
  }

  lemma StepLeavesStuck(e: Env, w: World, ev: Event, i: nat)
    requires Enabled(w, ev) && i < |w.tasks| && w.tasks[i].phase.Stuck?
    ensures i < |Apply(e, w, ev).tasks| && Apply(e, w, ev).tasks[i] == w.tasks[i]
  {
    hide Run, RegistrationSpec.Remove;
    if ev.Step? { RunLeaves(e, w, ev.task, ev.cached, i); }
  }

  lemma StepLeavesWaiting(e: Env, w: World, ev: Event, j: nat)
    requires Enabled(w, ev) && j < |w.tasks| && NotStarted(w.tasks[j].phase) && PathKey(w.tasks[j].path) in w.inProgress
    ensures j < |Apply(e, w, ev).tasks| && Apply(e, w, ev).tasks[j].path == w.tasks[j].path
    ensures NotStarted(Apply(e, w, ev).tasks[j].phase)
  {
    if ev.Step? && ev.task != j {
      RunLeaves(e, w, ev.task, ev.cached, j);
      hide Run;
    } else {
      hide RegistrationSpec.Remove;
    }
  }

  /** A failed registration stays as it is and keeps its lock, and other calls for its path go on waiting. */
  lemma StepStaysStuck(e: Env, w: World, ev: Event, i: nat, j: nat)
    requires Inv(e, w) && Enabled(w, ev)
    requires i < |w.tasks| && j < |w.tasks| && w.tasks[i].phase.Stuck? && w.tasks[i].path != ""
    requires w.tasks[j].path == w.tasks[i].path && NotStarted(w.tasks[j].phase)
    ensures var v := Apply(e, w, ev);
      && i < |v.tasks| && j < |v.tasks| && v.tasks[i] == w.tasks[i]
      && v.tasks[j].path == w.tasks[j].path && NotStarted(v.tasks[j].phase)
  {
    TaskIsOk(e, w, i);
    assert PathKey(w.tasks[j].path) in w.inProgress;
    hide Inv, Apply, TaskOk, NotStarted;
    StepLeavesStuck(e, w, ev, i);
    StepLeavesWaiting(e, w, ev, j);
  }

  lemma {:induction false} StaysStuck(e: Env, w: World, events: seq<Event>, i: nat, j: nat)
    requires e.Valid() && Inv(e, w) && IsRun(e, w, events)
    requires i < |w.tasks| && j < |w.tasks| && w.tasks[i].phase.Stuck? && w.tasks[i].path != ""
    requires w.tasks[j].path == w.tasks[i].path && NotStarted(w.tasks[j].phase)
    ensures var v := After(e, w, events);
      && i < |v.tasks| && j < |v.tasks| && v.tasks[i] == w.tasks[i] && NotStarted(v.tasks[j].phase)
      && PathKey(w.tasks[i].path) in v.inProgress
    decreases |events|
  {
    TaskIsOk(e, w, i);
    assert PathKey(w.tasks[i].path) in w.inProgress;
    hide Inv, Apply, Enabled, NotStarted, TaskOk;
    if events != [] {
      ApplyKeepsInv(e, w, events[0]);
      StepStaysStuck(e, w, events[0], i, j);
      StaysStuck(e, Apply(e, w, events[0]), events[1..], i, j);
    }
  }

  // ----- the run -----

  lemma {:induction false} Extend(e: Env, w: World, events: seq<Event>, ev: Event)
    requires IsRun(e, w, events) && Enabled(After(e, w, events), ev)
    ensures IsRun(e, w, events + [ev]) && After(e, w, events + [ev]) == Apply(e, After(e, w, events), ev)
    decreases |events|
  {
    hide Apply, Enabled;
    if events == [] {
      assert [ev][1..] == [];
      assert [] + [ev] == [ev];
    } else {
      assert (events + [ev])[0] == events[0] && (events + [ev])[1..] == events[1..] + [ev];
      Extend(e, Apply(e, w, events[0]), events[1..], ev);
    }
  }

  /** A task takes one step, to this phase, without a wake-up. */
  lemma Advance(e: Env, w: World, events: seq<Event>, i: nat, phase: Phase) returns (more: seq<Event>)
    requires e.Valid() && IsRun(e, w, events) && Inv(e, After(e, w, events))
    requires i < |After(e, w, events).tasks| && Runnable(After(e, w, events).tasks[i].phase)
    requires i < |Run(e, After(e, w, events), i, false).tasks|
    requires Run(e, After(e, w, events), i, false).tasks[i].phase == phase
    ensures IsRun(e, w, more) && Inv(e, After(e, w, more))
    ensures After(e, w, more) == Run(e, After(e, w, events), i, false)
    ensures i < |After(e, w, more).tasks| && After(e, w, more).tasks[i].phase == phase
  {
    hide Inv, Run;
    more := events + [Step(i, false)];
    Extend(e, w, events, Step(i, false));
    RunKeepsInv(e, After(e, w, events), i, false);
  }

  /** Nothing is in progress: every call has finished, and no lock is taken. */
  predicate AllFinished(w: World) {
    w.inProgress == map[] && forall t | t in w.tasks :: t.phase.Finished?
  }

  lemma CallRuns(e: Env, w: World, events: seq<Event>, path: string, credentials: string)
    requires IsRun(e, w, events) && path != ""
    ensures IsRun(e, w, events + [NewCall(path, credentials)])
    ensures After(e, w, events + [NewCall(path, credentials)]) == Call(After(e, w, events), path, credentials)
  {
    Extend(e, w, events, NewCall(path, credentials));
  }

  /** One call was added to finished ones, and is in this phase. */
  predicate Added(w: World, v: World, path: string, credentials: string, phase: Phase, keys: set<Key>) {
    && AllFinished(w) && v.tasks == w.tasks + [Task(path, credentials, phase)]
    && v.server == w.server && v.ids == w.ids && v.inProgress == map key | key in keys :: |w.tasks|
  }

  /** Whatever it does next, it is the only one. */
  lemma AddedRuns(e: Env, w: World, v: World, path: string, credentials: string, phase: Phase)
    requires Runnable(phase) && path != "" && e.isRoot(path)
    requires phase.HavePat? || phase.FetchPat? || phase.PatEntry?
    requires Added(w, v, path, credentials, phase, if phase.FetchPat? then {PathKey(path), PatKey} else {PathKey(path)})
    ensures var next := if phase.HavePat? then Sent(phase.known, None)
                        else if phase.FetchPat? then HavePat(phase.known) else FetchPat(phase.known);
      Added(w, Run(e, v, |w.tasks|, false), path, credentials, next,
            if phase.PatEntry? then {PathKey(path), PatKey} else {PathKey(path)})
  {
    match phase
    case HavePat(known) =>
    case FetchPat(known) =>
      assert Run(e, v, |w.tasks|, false).tasks == w.tasks + [Task(path, credentials, HavePat(known))];
    case PatEntry(known) =>
  }

  /** The call of a root when nothing is in progress, until it asks for a PAT. */
  lemma UntilPat(e: Env, before: seq<Event>, path: string, credentials: string) returns (events: seq<Event>)
    requires e.Valid() && path != ""
    requires IsRun(e, Start, before) && Inv(e, After(e, Start, before)) && AllFinished(After(e, Start, before))
    ensures IsRun(e, Start, events)
    ensures var w, v := After(e, Start, before), After(e, Start, events);
      Inv(e, v) && Added(w, v, path, credentials, PatEntry(Lookup(w.ids, path)), {PathKey(path)})
  {
    hide Inv, IsRun, After;
    var w := After(e, Start, before);
    CallKeepsInv(e, w, path, credentials);
    CallRuns(e, Start, before, path, credentials);
    events := before + [NewCall(path, credentials)];
    events := Advance(e, Start, events, |w.tasks|, AwaitConfig);
    events := Advance(e, Start, events, |w.tasks|, AwaitKnown);
    events := Advance(e, Start, events, |w.tasks|, PatEntry(Lookup(w.ids, path)));
  }

  lemma AddedIs(w: World, v: World, path: string, credentials: string, phase: Phase, keys: set<Key>)
    requires Added(w, v, path, credentials, phase, keys)
    ensures |w.tasks| < |v.tasks| && v.tasks[|w.tasks|].phase == phase
  {}

  /** Until its request is about to be sent. */
  lemma UntilSent(e: Env, before: seq<Event>, path: string, credentials: string) returns (events: seq<Event>)
    requires e.Valid() && e.isRoot(path) && path != ""
    requires IsRun(e, Start, before) && Inv(e, After(e, Start, before)) && AllFinished(After(e, Start, before))
    ensures IsRun(e, Start, events)
    ensures var w, v := After(e, Start, before), After(e, Start, events);
      Inv(e, v) && Added(w, v, path, credentials, Sent(Lookup(w.ids, path), None), {PathKey(path)})
  {
    var w := After(e, Start, before);
    var known, i := Lookup(w.ids, path), |w.tasks|;
    events := UntilPat(e, before, path, credentials);
    hide Inv, IsRun, After, Lookup, Run, Added;
    var phases := [PatEntry(known), FetchPat(known), HavePat(known), Sent(known, None)];
    for k := 0 to 3
      invariant IsRun(e, Start, events) && Inv(e, After(e, Start, events))
      invariant Added(w, After(e, Start, events), path, credentials, phases[k],
                      if k == 1 then {PathKey(path), PatKey} else {PathKey(path)})
    {
      var v := After(e, Start, events);
      AddedIs(w, v, path, credentials, phases[k], if k == 1 then {PathKey(path), PatKey} else {PathKey(path)});
      AddedRuns(e, w, v, path, credentials, phases[k]);
      AddedIs(w, Run(e, v, i, false), path, credentials, phases[k + 1],
              if k == 0 then {PathKey(path), PatKey} else {PathKey(path)});
      events := Advance(e, Start, events, i, phases[k + 1]);
    }
  }

  lemma NothingRan(e: Env)
    ensures IsRun(e, Start, []) && After(e, Start, []) == Start && Inv(e, Start)
  {}

  /** The server accepts the first request. */
  lemma FirstIsCreated(e: Env, w: World, path: string, credentials: string)
    requires e.Valid() && Inv(e, w) && w.ids == map[]
    requires w.tasks == [Task(path, credentials, Sent(None, None))]
    ensures var v := Deliver(e, w, 0);
      && v.tasks == [Task(path, credentials, Replied(None, path))] && v.ids == map[] && v.inProgress == w.inProgress
      && path in v.server.registrations && v.server.registrations[path].owner == e.owner(credentials)
  {
    AnswerVerdict(e, w, 0);
    hide Inv, Answer, Body, Consistent, Live;
  }

  lemma RootIsRegistered(e: Env, path: string, credentials: string) returns (events: seq<Event>)
    requires e.Valid() && e.isRoot(path) && path != ""
    ensures IsRun(e, Start, events)
    ensures var w := After(e, Start, events);
      && Inv(e, w) && AllFinished(w) && w.ids == map[path := path] && path in w.server.registrations
      && w.server.registrations[path].owner == e.owner(credentials)
  {
    NothingRan(e);
    hide IsRun, After, Inv, Deliver, Send;
    events := UntilSent(e, [], path, credentials);
    FirstIsCreated(e, After(e, Start, events), path, credentials);
    events := Advance(e, Start, events, 0, Replied(None, path));
    events := Advance(e, Start, events, 0, Storing(path));
    events := Advance(e, Start, events, 0, Releasing);
    events := Advance(e, Start, events, 0, Finished);
    assert After(e, Start, events).inProgress == map[];
  }

  /** From the start: a root is registered and then deleted. It has an id that the server does not know any more. */
  lemma RootIsDeleted(e: Env, path: string, credentials: string) returns (events: seq<Event>)
    requires e.Valid() && e.isRoot(path) && path != ""
    ensures IsRun(e, Start, events)
    ensures var w := After(e, Start, events);
      Inv(e, w) && AllFinished(w) && w.ids == map[path := path] && path !in w.server.registrations
  {
    events := RootIsRegistered(e, path, credentials);
    UnregisterKeepsInv(e, After(e, Start, events), path, credentials);
    hide IsRun, After, Inv, RegistrationSpec.Disown;
    Extend(e, Start, events, Deletion(path, credentials));
    events := events + [Deletion(path, credentials)];
  }

  /** When it is called for again, with whatever credentials, its update is refused, and the call keeps the lock. */
  lemma RootIsStuck(e: Env, path: string, credentials: string, again: string) returns (events: seq<Event>, i: nat)
    requires e.Valid() && e.isRoot(path) && path != ""
    ensures IsRun(e, Start, events)
    ensures var w := After(e, Start, events);
      && Inv(e, w) && i < |w.tasks| && w.tasks[i] == Task(path, again, Stuck(false))
      && PathKey(path) in w.inProgress && w.inProgress[PathKey(path)] == i
  {
    events := RootIsDeleted(e, path, credentials);
    i := |After(e, Start, events).tasks|;
    hide IsRun, After, Inv, Answer;
    events := UntilSent(e, events, path, again);
    UpdateAcceptedIff(e, After(e, Start, events), i);
    events := Advance(e, Start, events, i, Stuck(false));
  }
}
