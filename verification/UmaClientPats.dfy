/** Which access tokens (PATs) the client uses: its own, a fresh one, and no more than it needs. */
module UmaClientPats {
  import opened Rdf
  import opened RegistrationSpec
  import opened UmaClient
  import opened UmaClientSafety

  /** The task has obtained a PAT. */
  predicate HasPat(phase: Phase) {
    || phase.HavePat? || phase.AwaitParent? || phase.HaveParent? || phase.Sent? || phase.Replied?
    || phase.Storing? || phase.Releasing? || phase.Finished?
  }

  /** The event is the arrival of a PAT that the task requested. */
  predicate Fetches(w: World, ev: Event, i: nat) {
    ev.Step? && ev.task == i && i < |w.tasks| && w.tasks[i].phase.FetchPat?
  }

  ghost predicate FetchedBy(e: Env, w: World, events: seq<Event>, i: nat)
    requires IsRun(e, w, events)
    decreases |events|
  {
    events != [] && (Fetches(w, events[0], i) || FetchedBy(e, Apply(e, w, events[0]), events[1..], i))
  }

  predicate FetchesFor(w: World, ev: Event, credentials: string) {
    ev.Step? && Fetches(w, ev, ev.task) && w.tasks[ev.task].credentials == credentials
  }

  /** How often a PAT arrives for these credentials. */
  function Fetched(e: Env, w: World, events: seq<Event>, credentials: string): nat
    requires IsRun(e, w, events)
    decreases |events|
  {
    if events == [] then 0
    else (if FetchesFor(w, events[0], credentials) then 1 else 0)
         + Fetched(e, Apply(e, w, events[0]), events[1..], credentials)
  }

  // ----- one step -----

  lemma EmitPats(e: Env, tasks: seq<Task>, key: Key, j: nat)
    requires j < |tasks|
    ensures j < |Emit(e, tasks, key)| && Emit(e, tasks, key)[j].credentials == tasks[j].credentials
    ensures HasPat(Emit(e, tasks, key)[j].phase) <==> HasPat(tasks[j].phase)
    ensures Emit(e, tasks, key)[j].phase.FetchPat? ==> Emit(e, tasks, key)[j] == tasks[j]
  {}

  lemma RunStores(e: Env, w: World, i: nat, cached: bool, j: nat)
    requires i < |w.tasks| && Runnable(w.tasks[i].phase) && j < |w.tasks|
    ensures var v := Run(e, w, i, cached);
      && v.pats == (if w.tasks[i].phase.FetchPat? then w.pats + {w.tasks[i].credentials} else w.pats)
      && j < |v.tasks| && v.tasks[j].credentials == w.tasks[j].credentials
  {
    var t := w.tasks[i];
    EmitPats(e, w.tasks[i := t.(phase := Finished)], PathKey(t.path), j);
    if t.phase.FetchPat? { EmitPats(e, w.tasks[i := t.(phase := HavePat(t.phase.known))], PatKey, j); }
    hide Emit, Answer, HasPat;
  }

  /** New tasks have no PAT yet. */
  lemma RunLaunches(e: Env, w: World, i: nat, cached: bool, j: nat)
    requires i < |w.tasks| && Runnable(w.tasks[i].phase) && |w.tasks| <= j < |Run(e, w, i, cached).tasks|
    ensures Run(e, w, i, cached).tasks[j].phase.AwaitConfig? || Run(e, w, i, cached).tasks[j].phase.ParentWait?
  {
    hide Answer;
  }

  /** Other tasks only wake up. */
  lemma RunLeavesPats(e: Env, w: World, i: nat, cached: bool, j: nat)
    requires i < |w.tasks| && Runnable(w.tasks[i].phase) && j < |w.tasks| && j != i
    ensures var v := Run(e, w, i, cached);
      && j < |v.tasks|
      && (HasPat(v.tasks[j].phase) <==> HasPat(w.tasks[j].phase))
      && (v.tasks[j].phase.FetchPat? <==> w.tasks[j].phase.FetchPat?)
  {
    var t := w.tasks[i];
    EmitPats(e, w.tasks[i := t.(phase := Finished)], PathKey(t.path), j);
    if t.phase.FetchPat? { EmitPats(e, w.tasks[i := t.(phase := HavePat(t.phase.known))], PatKey, j); }
    hide Emit, Answer, HasPat;
  }

  lemma EmitKeeps(e: Env, tasks: seq<Task>, key: Key, j: nat)
    requires j < |tasks| && HasPat(tasks[j].phase)
    ensures Emit(e, tasks, key)[j] == tasks[j]
  {}

  /** A task gets a PAT by fetching one, or by taking the one that is stored for its credentials while it is fresh;
      and it fetches one exactly when it cannot do so and nobody else is fetching. */
  lemma RunPats(e: Env, w: World, i: nat, cached: bool)
    requires i < |w.tasks| && Runnable(w.tasks[i].phase)
    ensures var phase, v := w.tasks[i].phase, Run(e, w, i, cached);
      var usable := cached && w.tasks[i].credentials in w.pats;
      && i < |v.tasks|
      && (HasPat(v.tasks[i].phase) && !HasPat(phase) ==> phase.FetchPat? || (phase.PatEntry? && usable))
      && (v.tasks[i].phase.FetchPat? ==> phase.PatEntry? && !usable && PatKey !in w.inProgress)
  {
    var t := w.tasks[i];
    EmitKeeps(e, w.tasks[i := t.(phase := Finished)], PathKey(t.path), i);
    if t.phase.FetchPat? { EmitKeeps(e, w.tasks[i := t.(phase := HavePat(t.phase.known))], PatKey, i); }
    hide Emit, Answer;
  }

  // ----- every run -----

  /** Whoever has a PAT, a PAT was fetched for its credentials. */
  ghost predicate Own(w: World) {
    forall i | 0 <= i < |w.tasks| && HasPat(w.tasks[i].phase) :: w.tasks[i].credentials in w.pats
  }

  lemma StepKeepsOwn(e: Env, w: World, ev: Event)
    requires Own(w) && Enabled(w, ev)
    ensures Own(Apply(e, w, ev))
  {
    var v := Apply(e, w, ev);
    forall j | 0 <= j < |v.tasks| && HasPat(v.tasks[j].phase) ensures v.tasks[j].credentials in v.pats {
      if ev.Step? {
        if j >= |w.tasks| {
          RunLaunches(e, w, ev.task, ev.cached, j);
        } else {
          RunStores(e, w, ev.task, ev.cached, j);
          if j == ev.task { RunPats(e, w, j, ev.cached); } else { RunLeavesPats(e, w, ev.task, ev.cached, j); }
        }
        hide Run;
      } else {
        hide RegistrationSpec.Remove;
      }
    }
  }

  lemma StepStores(e: Env, w: World, ev: Event, credentials: string)
    requires Enabled(w, ev)
    ensures credentials in Apply(e, w, ev).pats <==> credentials in w.pats || FetchesFor(w, ev, credentials)
  {
    hide RegistrationSpec.Remove;
    if ev.Step? { RunStores(e, w, ev.task, ev.cached, ev.task); hide Run; }
  }

  lemma {:induction false} StoredIsFetched(e: Env, w: World, events: seq<Event>, credentials: string)
    requires IsRun(e, w, events)
    ensures credentials in After(e, w, events).pats <==>
      credentials in w.pats || Fetched(e, w, events, credentials) > 0
    decreases |events|
  {
    hide Apply, Enabled, FetchesFor;
    if events != [] {
      StepStores(e, w, events[0], credentials);
      StoredIsFetched(e, Apply(e, w, events[0]), events[1..], credentials);
    }
  }

  lemma {:induction false} RunKeepsOwn(e: Env, w: World, events: seq<Event>)
    requires IsRun(e, w, events) && Own(w)
    ensures Own(After(e, w, events))
    decreases |events|
  {
    hide Apply, Enabled, Own;
    if events != [] {
      StepKeepsOwn(e, w, events[0]);
      RunKeepsOwn(e, Apply(e, w, events[0]), events[1..]);
    }
  }

  /** No task goes on with a token that was fetched for the credentials of another owner. */
  lemma TokensAreOwn(e: Env, events: seq<Event>, i: nat)
    requires IsRun(e, Start, events) && i < |After(e, Start, events).tasks|
    requires HasPat(After(e, Start, events).tasks[i].phase)
    ensures Fetched(e, Start, events, After(e, Start, events).tasks[i].credentials) > 0
  {
    hide IsRun, After, Fetched;
    RunKeepsOwn(e, Start, events);
    StoredIsFetched(e, Start, events, After(e, Start, events).tasks[i].credentials);
  }

  // ----- no token is fetched without need -----

  /** Whoever is fetching a PAT needs one. */
  ghost predicate Needed(w: World) {
    forall i | 0 <= i < |w.tasks| && w.tasks[i].phase.FetchPat? :: w.tasks[i].credentials !in w.pats
  }

  lemma OneFetches(e: Env, w: World, i: nat, j: nat)
    requires Inv(e, w) && i < |w.tasks| && j < |w.tasks| && w.tasks[i].phase.FetchPat? && w.tasks[j].phase.FetchPat?
    ensures i == j
  {
    TaskIsOk(e, w, i);
    TaskIsOk(e, w, j);
  }

  lemma StepKeepsNeeded(e: Env, w: World, ev: Event)
    requires Inv(e, w) && Needed(w) && Enabled(w, ev) && (ev.Step? ==> ev.cached)
    ensures Needed(Apply(e, w, ev))
  {
    var v := Apply(e, w, ev);
    hide Inv;
    forall j | 0 <= j < |v.tasks| && v.tasks[j].phase.FetchPat? ensures v.tasks[j].credentials !in v.pats {
      if ev.Step? {
        if j >= |w.tasks| {
          RunLaunches(e, w, ev.task, ev.cached, j);
        } else {
          RunStores(e, w, ev.task, ev.cached, j);
          if j == ev.task {
            RunPats(e, w, j, ev.cached);
          } else {
            RunLeavesPats(e, w, ev.task, ev.cached, j);
            if w.tasks[ev.task].phase.FetchPat? { OneFetches(e, w, j, ev.task); }
          }
        }
        hide Run;
      } else {
        hide RegistrationSpec.Remove;
      }
    }
  }

  predicate AllFresh(events: seq<Event>) {
    forall ev | ev in events && ev.Step? :: ev.cached
  }

  lemma {:induction false} FetchedWhileFresh(e: Env, w: World, events: seq<Event>, credentials: string)
    requires e.Valid() && Inv(e, w) && Needed(w) && IsRun(e, w, events) && AllFresh(events)
    ensures Fetched(e, w, events, credentials) <= if credentials in w.pats then 0 else 1
    decreases |events|
  {
    hide Inv, Apply, Enabled, Needed;
    if events != [] {
      assert events[0] in events;
      StepKeepsNeeded(e, w, events[0]);
      ApplyKeepsInv(e, w, events[0]);
      StepStores(e, w, events[0], credentials);
      FetchedWhileFresh(e, Apply(e, w, events[0]), events[1..], credentials);
      if FetchesFor(w, events[0], credentials) { FetchIsNeeded(w, events[0].task); }
    }
  }

  lemma FetchIsNeeded(w: World, i: nat)
    requires Needed(w) && i < |w.tasks| && w.tasks[i].phase.FetchPat?
    ensures w.tasks[i].credentials !in w.pats
  {}

  /** As long as tokens stay fresh, one is fetched at most once for each set of credentials. */
  lemma FetchedAtMostOnce(e: Env, events: seq<Event>, credentials: string)
    requires e.Valid() && IsRun(e, Start, events) && AllFresh(events)
    ensures Fetched(e, Start, events, credentials) <= 1
  {
    assert Inv(e, Start) && Needed(Start);
    hide Inv, Needed, IsRun, Fetched, AllFresh;
    FetchedWhileFresh(e, Start, events, credentials);
  }

  // ----- no stale token is used -----

  predicate NoneFresh(events: seq<Event>) {
    forall ev | ev in events && ev.Step? :: !ev.cached
  }

  lemma StepGetsPat(e: Env, w: World, ev: Event, i: nat)
    requires Enabled(w, ev) && i < |Apply(e, w, ev).tasks| && (ev.Step? ==> !ev.cached)
    requires HasPat(Apply(e, w, ev).tasks[i].phase) && (i < |w.tasks| ==> !HasPat(w.tasks[i].phase))
    ensures Fetches(w, ev, i)
  {
    if ev.Step? {
      if i >= |w.tasks| { RunLaunches(e, w, ev.task, ev.cached, i); }
      else if i == ev.task { RunPats(e, w, i, ev.cached); }
      else { RunLeavesPats(e, w, ev.task, ev.cached, i); }
      hide Run;
    } else {
      hide RegistrationSpec.Remove;
    }
  }

  /** When stored tokens are no longer fresh, every task that gets a PAT in a run fetched it itself. */
  lemma {:induction false} StaleIsFetchedAgain(e: Env, w: World, events: seq<Event>, i: nat)
    requires IsRun(e, w, events) && NoneFresh(events)
    requires (i < |w.tasks| ==> !HasPat(w.tasks[i].phase))
    requires i < |After(e, w, events).tasks| && HasPat(After(e, w, events).tasks[i].phase)
    ensures FetchedBy(e, w, events, i)
    decreases |events|
  {
    hide Apply, Enabled, HasPat;
    assert events != [];
    var v := Apply(e, w, events[0]);
    assert events[0] in events;
    if i < |v.tasks| && HasPat(v.tasks[i].phase) {
      StepGetsPat(e, w, events[0], i);
    } else {
      StaleIsFetchedAgain(e, v, events[1..], i);
    }
  }
}
