/** What the server knows of the resources of the client: what every registration describes, and whose it is. */
module UmaClientDescriptions {
  import opened Rdf
  import opened RegistrationSpec
  import opened UmaClient
  import opened UmaClientSafety

  /** The resource offers all scopes under its path, has a collection of what it contains exactly when it is a
      container, and is related to nothing but its parent, by the id that is stored for the parent. */
  ghost predicate Describes(e: Env, ids: map<string, string>, path: string, d: ResourceDescription) {
    && d.name == Some(path) && d.scopes == e.scopes && d.derivedFrom == []
    && (d.defaults.Some? <==> e.isContainer(path))
    && (d.defaults.Some? ==> d.defaults.value.normal == map[CONTAINS := e.scopes] && d.defaults.value.reverse == map[])
    && (d.relations.Some? ==>
          && !e.isRoot(path) && e.parent(path) in ids
          && d.relations.value.normal == map[] && d.relations.value.reverse == map[CONTAINS := [ids[e.parent(path)]]])
  }

  /** A call of `registerResource` with these credentials, somewhere in the run. */
  predicate Called(events: seq<Event>, credentials: string) {
    exists ev | ev in events :: ev.NewCall? && ev.credentials == credentials
  }

  /** These credentials were used in the run, or belong to a task that was there before. */
  ghost predicate Uses(w: World, events: seq<Event>, credentials: string) {
    || Called(events, credentials)
    || exists i | 0 <= i < |w.tasks| :: w.tasks[i].path != "" && w.tasks[i].credentials == credentials
  }

  ghost predicate Known(e: Env, w: World, owners: set<string>) {
    forall p | p in w.server.registrations ::
      Describes(e, w.ids, p, w.server.registrations[p].description) && w.server.registrations[p].owner in owners
  }

  // ----- one step -----

  lemma RequestDescribes(e: Env, w: World, i: nat)
    requires Inv(e, w) && i < |w.tasks| && w.tasks[i].phase.Sent?
    ensures Describes(e, w.ids, w.tasks[i].path, Body(e, w.tasks[i].path, w.tasks[i].phase.parentId))
  {
    TaskIsOk(e, w, i);
    var parentId := w.tasks[i].phase.parentId;
    if parentId.Some? { IdIsOk(e, w, e.parent(w.tasks[i].path)); }
    hide Inv;
  }

  lemma DescribesWithMoreIds(e: Env, ids: map<string, string>, more: map<string, string>, path: string,
                             d: ResourceDescription)
    requires Describes(e, ids, path, d) && forall p | p in ids :: p in more && more[p] == ids[p]
    ensures Describes(e, more, path, d)
  {}

  /** Only an accepted request changes what is registered, apart from deletions. */
  lemma OthersRegisterNothing(e: Env, w: World, ev: Event)
    requires Enabled(w, ev) && !(ev.Step? && w.tasks[ev.task].phase.Sent?)
    ensures var before, after := w.server.registrations, Apply(e, w, ev).server.registrations;
      forall p | p in after :: p in before && after[p] == before[p]
  {
    hide Emit, RegistrationSpec.Disown;
  }

  lemma DeliverKeepsKnown(e: Env, w: World, i: nat, owners: set<string>)
    requires e.Valid() && Inv(e, w) && i < |w.tasks| && w.tasks[i].phase.Sent? && Known(e, w, owners)
    requires e.owner(w.tasks[i].credentials) in owners
    ensures Known(e, Deliver(e, w, i), owners)
  {
    var t, v := w.tasks[i], Deliver(e, w, i);
    AnswerVerdict(e, w, i);
    RequestDescribes(e, w, i);
    hide Describes, Body, Inv, Answer;
    assert v.ids == w.ids;
    assert v.server.registrations == w.server.registrations || v.server.registrations ==
      w.server.registrations[t.path := Entry(e.owner(t.credentials), Body(e, t.path, t.phase.parentId))];
    hide Deliver;
  }

  lemma StepKeepsKnown(e: Env, w: World, ev: Event, owners: set<string>)
    requires e.Valid() && Inv(e, w) && Enabled(w, ev) && Known(e, w, owners)
    requires forall i | 0 <= i < |w.tasks| && w.tasks[i].path != "" :: e.owner(w.tasks[i].credentials) in owners
    ensures Known(e, Apply(e, w, ev), owners)
  {
    var v := Apply(e, w, ev);
    if ev.Step? && w.tasks[ev.task].phase.Sent? {
      SenderHasPath(e, w, ev.task);
      hide Inv, Known, Deliver;
      DeliverKeepsKnown(e, w, ev.task, owners);
    } else {
      IdsAreWriteOnce(e, w, ev);
      OthersRegisterNothing(e, w, ev);
      hide Apply, Inv;
      forall p | p in v.server.registrations
        ensures Describes(e, v.ids, p, v.server.registrations[p].description)
      {
        DescribesWithMoreIds(e, w.ids, v.ids, p, w.server.registrations[p].description);
      }
      hide Describes;
    }
  }

  /** Tasks keep their credentials, and new ones have those of the task that starts them. */
  lemma RunCredentials(e: Env, w: World, i: nat, cached: bool)
    requires i < |w.tasks| && Runnable(w.tasks[i].phase)
    ensures forall j | 0 <= j < |w.tasks| ::
      && j < |Run(e, w, i, cached).tasks| && Run(e, w, i, cached).tasks[j].path == w.tasks[j].path
      && Run(e, w, i, cached).tasks[j].credentials == w.tasks[j].credentials
    ensures forall j | |w.tasks| <= j < |Run(e, w, i, cached).tasks| ::
      Run(e, w, i, cached).tasks[j].credentials == w.tasks[i].credentials
    ensures |w.tasks| < |Run(e, w, i, cached).tasks| ==> w.tasks[i].phase.HavePat? || w.tasks[i].phase.HaveParent?
    ensures |w.tasks| < |Run(e, w, i, cached).tasks| && w.tasks[i].phase.HavePat? ==> w.tasks[i].path != ""
  {
    hide Answer;
  }

  lemma StepCredentials(e: Env, w: World, ev: Event, i: nat)
    requires Inv(e, w) && Enabled(w, ev) && i < |Apply(e, w, ev).tasks| && Apply(e, w, ev).tasks[i].path != ""
    ensures Uses(w, [ev], Apply(e, w, ev).tasks[i].credentials)
  {
    var v := Apply(e, w, ev);
    if ev.Step? {
      SenderHasPath(e, w, ev.task);
      RunCredentials(e, w, ev.task, ev.cached);
      hide Inv, Run;
      var j := if i < |w.tasks| then i else ev.task;
      assert w.tasks[j].path != "" && w.tasks[j].credentials == v.tasks[i].credentials;
    } else {
      hide RegistrationSpec.Remove, Inv;
      if i < |w.tasks| { assert w.tasks[i].path != "" && w.tasks[i].credentials == v.tasks[i].credentials; }
      if ev.NewCall? && i == |w.tasks| { assert ev in [ev]; }
    }
  }

  lemma SenderHasPath(e: Env, w: World, i: nat)
    requires Inv(e, w) && i < |w.tasks|
    ensures w.tasks[i].path == "" ==> PatOnly(w.tasks[i].phase)
  {
    TaskIsOk(e, w, i);
  }

  // ----- every run -----

  lemma {:induction false} RunKeepsKnown(e: Env, w: World, events: seq<Event>, owners: set<string>)
    requires e.Valid() && Inv(e, w) && IsRun(e, w, events) && Known(e, w, owners)
    requires forall c | Uses(w, events, c) :: e.owner(c) in owners
    ensures Known(e, After(e, w, events), owners)
    decreases |events|
  {
    if events != [] {
      var v := Apply(e, w, events[0]);
      forall i | 0 <= i < |w.tasks| && w.tasks[i].path != "" ensures e.owner(w.tasks[i].credentials) in owners {
        assert Uses(w, events, w.tasks[i].credentials);
      }
      ApplyKeepsInv(e, w, events[0]);
      StepKeepsKnown(e, w, events[0], owners);
      forall c | Uses(v, events[1..], c) ensures e.owner(c) in owners {
        UsedBefore(e, w, events, c);
      }
      hide Inv, Known, Uses, Apply;
      RunKeepsKnown(e, v, events[1..], owners);
    }
  }

  lemma UsedBefore(e: Env, w: World, events: seq<Event>, c: string)
    requires Inv(e, w) && events != [] && Enabled(w, events[0])
    requires Uses(Apply(e, w, events[0]), events[1..], c)
    ensures Uses(w, events, c)
  {
    hide Inv, Apply;
    var v := Apply(e, w, events[0]);
    if i :| 0 <= i < |v.tasks| && v.tasks[i].path != "" && v.tasks[i].credentials == c {
      StepCredentials(e, w, events[0], i);
      assert Called([events[0]], c) ==> Called(events, c);
    }
    if Called(events[1..], c) {
      var ev :| ev in events[1..] && ev.NewCall? && ev.credentials == c;
      assert ev in events;
    }
  }

  /** In every run from the start: each registered path is described as it is, with all scopes and, if anything, its
      parent, and is registered for the owner of credentials of some call. */
  lemma DescriptionsAreExact(e: Env, events: seq<Event>, path: string)
    requires e.Valid() && IsRun(e, Start, events) && path in After(e, Start, events).server.registrations
    ensures var w := After(e, Start, events);
      Describes(e, w.ids, path, w.server.registrations[path].description)
    ensures exists ev | ev in events ::
      ev.NewCall? && After(e, Start, events).server.registrations[path].owner == e.owner(ev.credentials)
  {
    assert Inv(e, Start);
    var owners := set ev | ev in events && ev.NewCall? :: e.owner(ev.credentials);
    hide Inv, After, IsRun, Describes;
    RunKeepsKnown(e, Start, events, owners);
  }
}
