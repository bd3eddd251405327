/** What holds in every reachable state of the client and the server, failures and deletions included. */
module UmaClientSafety {
  import opened Rdf
  import opened RegistrationSpec
  import opened RegistrationTheory
  import opened UmaClient

  /** The task is between taking and releasing the lock on its path. */
  predicate Holds(t: Task) {
    t.path != "" && !(t.phase.Ready? || t.phase.AwaitLock? || t.phase.ParentWait? || t.phase.Finished?)
  }

  /** The phases of a task that only obtains a PAT. */
  predicate PatOnly(phase: Phase) {
    phase.PatEntry? || phase.AwaitPat? || phase.FetchPat? || phase.HavePat? || phase.Stuck? || phase.Finished?
  }

  predicate HoldsPat(phase: Phase) {
    phase.FetchPat? || phase == Stuck(true)
  }

  /** The server has answered the POST of this task, but the client has not stored the id. */
  predicate AfterPost(phase: Phase) {
    (phase.Replied? && phase.known.None?) || phase.Storing? || phase.Stuck?
  }

  function Contains(path: string): Meta {
    Meta(CONTAINS, path, false)
  }

  /** Children can be related to `path` at the server. */
  ghost predicate Joinable(e: Env, w: World, path: string) {
    e.isContainer(path) ==> Live(Contains(path), w.server.quads)
  }

  ghost predicate ParentIdOk(e: Env, w: World, path: string, parentId: Option<string>) {
    parentId.Some? ==> !e.isRoot(path) && parentId.value == e.parent(path) && e.parent(path) in w.ids
  }

  ghost predicate PhaseOk(e: Env, w: World, path: string, phase: Phase) {
    match phase
    case AwaitLock => PathKey(path) in w.inProgress
    case ParentWait => !e.isRoot(path) && PathKey(e.parent(path)) in w.inProgress
    case AwaitPat(known) => known == Lookup(w.ids, path) && PatKey in w.inProgress
    case PatEntry(known) => known == Lookup(w.ids, path)
    case FetchPat(known) => known == Lookup(w.ids, path)
    case HavePat(known) => known == Lookup(w.ids, path)
    case AwaitParent(known) => known == Lookup(w.ids, path) && !e.isRoot(path)
    case HaveParent(known, parentId) =>
      known == Lookup(w.ids, path) && !e.isRoot(path) && ParentIdOk(e, w, path, parentId)
    case Sent(known, parentId) => known == Lookup(w.ids, path) && ParentIdOk(e, w, path, parentId)
    case Replied(known, umaId) =>
      known == Lookup(w.ids, path) && (known.None? ==> umaId == path && path in w.created && Joinable(e, w, path))
    case Storing(id) => id == path && path !in w.ids && path in w.created && Joinable(e, w, path)
    case Releasing => path in w.ids
    case Finished => path == "" || path in w.ids
    case _ => true
  }

  ghost predicate TaskOk(e: Env, w: World, i: nat)
    requires i < |w.tasks|
  {
    var t := w.tasks[i];
    && (t.path == "" ==> PatOnly(t.phase))
    && (Holds(t) ==> PathKey(t.path) in w.inProgress && w.inProgress[PathKey(t.path)] == i)
    && (HoldsPat(t.phase) ==> PatKey in w.inProgress && w.inProgress[PatKey] == i)
    && PhaseOk(e, w, t.path, t.phase)
  }

  ghost predicate LockOk(w: World, key: Key)
    requires key in w.inProgress
  {
    var i := w.inProgress[key];
    && i < |w.tasks|
    && (key.PathKey? ==> Holds(w.tasks[i]) && w.tasks[i].path == key.path)
    && (key.PatKey? ==> HoldsPat(w.tasks[i].phase))
  }

  /** `path` was created, and its id is stored or its creator is still at it (or stuck). */
  ghost predicate CreatedOk(w: World, path: string) {
    path in w.ids
    || (PathKey(path) in w.inProgress && w.inProgress[PathKey(path)] < |w.tasks|
        && AfterPost(w.tasks[w.inProgress[PathKey(path)]].phase))
  }

  ghost predicate ClientDescription(e: Env, path: string, description: ResourceDescription) {
    || description == Body(e, path, None)
    || (!e.isRoot(path) && description == Body(e, path, Some(e.parent(path))))
  }

  ghost predicate ServerOk(e: Env, w: World) {
    && Consistent(w.server)
    && w.server.registrations.Keys <= w.created
    && forall p | p in w.server.registrations :: ClientDescription(e, p, w.server.registrations[p].description)
  }

  ghost predicate IdOk(e: Env, w: World, path: string)
    requires path in w.ids
  {
    path != "" && w.ids[path] == path && path in w.created && Joinable(e, w, path)
  }

  ghost predicate Inv(e: Env, w: World) {
    && (forall i | 0 <= i < |w.tasks| :: TaskOk(e, w, i))
    && (forall k | k in w.inProgress :: LockOk(w, k))
    && (forall p | p in w.ids :: IdOk(e, w, p))
    && (forall p | p in w.created :: CreatedOk(w, p))
    && ServerOk(e, w)
  }

  // ----- the server's side of one client request -----

  lemma BodyMetas(e: Env, path: string, parentId: Option<string>)
    requires e.Valid()
    ensures DefaultsOf(Some(Body(e, path, parentId)), path) == if e.isContainer(path) then {Contains(path)} else {}
    ensures RelationsOf(Some(Body(e, path, parentId))) == if parentId.Some? then {Contains(parentId.value)} else {}
  {
    var body := Body(e, path, parentId);
    if e.isContainer(path) {
      assert CONTAINS in body.defaults.value.normal;
      assert Contains(path) in DefaultsOf(Some(body), path);
    }
    if parentId.Some? {
      assert parentId.value in body.relations.value.reverse[CONTAINS];
      assert Contains(parentId.value) in RelationsOf(Some(body));
    }
  }

  /** What the client sends is always accepted as metadata, and never closes a collection. */
  lemma ClientMetadata(e: Env, s: Stores, path: string, parentId: Option<string>, owner: string)
    requires e.Valid() && Consistent(s)
    requires path in s.registrations ==> ClientDescription(e, path, s.registrations[path].description)
    requires parentId.Some? ==> Live(Contains(parentId.value), s.quads)
    ensures var (status, t) := SetMetadata(s, path, Body(e, path, parentId), owner, PreviousOf(s, path));
      && status.Updated? && Consistent(t)
      && t.registrations == s.registrations[path := Entry(owner, Body(e, path, parentId))]
      && (forall m | Live(m, s.quads) :: Live(m, t.quads))
      && (e.isContainer(path) ==> Live(Contains(path), t.quads))
  {
    var body := Body(e, path, parentId);
    var previous := PreviousOf(s, path);
    var d := DiffOf(path, body, previous);
    BodyMetas(e, path, parentId);
    BodyMetas(e, path, None);
    BodyMetas(e, path, Some(e.parent(path)));
    assert d.lostDefaults == {};
    FoundIffLive(d.newRelations, s.quads);
    FoundIffLive(d.lostRelations, s.quads);
    assert AllLive(d.lostRelations, s.quads) by {
      forall m | m in d.lostRelations ensures Live(m, s.quads) { assert m in DescribedRelations(s, path); }
    }
    var (status, t) := SetMetadata(s, path, body, owner, previous);
    assert status.Updated? && t.registrations == s.registrations[path := Entry(owner, body)];
    hide SetMetadata;
    SetMetadataConsistentIff(s, path, body, owner);
    AcceptedEffect(s, path, body, owner);
    hide FindCollections;
    if e.isContainer(path) && Contains(path) !in d.newDefaults {
      assert Contains(path) in DescribedDefaults(s, path);
    }
  }

  // ----- each step -----

  lemma MoveKeepsInv(e: Env, w: World, i: nat, phase: Phase)
    requires Inv(e, w) && i < |w.tasks|
    requires Holds(w.tasks[i].(phase := phase)) == Holds(w.tasks[i])
    requires HoldsPat(phase) == HoldsPat(w.tasks[i].phase) && (w.tasks[i].path == "" ==> PatOnly(phase))
    requires PhaseOk(e, w, w.tasks[i].path, phase)
    requires AfterPost(w.tasks[i].phase) ==> AfterPost(phase)
    ensures Inv(e, Move(w, i, phase))
  {
    hide Consistent, FindCollections, Body;
    var v := Move(w, i, phase);
    forall j | 0 <= j < |v.tasks| ensures TaskOk(e, v, j) { assert TaskOk(e, w, j); }
    forall k | k in v.inProgress ensures LockOk(v, k) { assert LockOk(w, k); }
    forall p | p in v.created ensures CreatedOk(v, p) { assert CreatedOk(w, p); }
  }

  lemma EnterKeepsInv(e: Env, w: World, i: nat)
    requires Inv(e, w) && i < |w.tasks| && w.tasks[i].phase.Ready?
    ensures Inv(e, Enter(w, i))
  {
    var key := PathKey(w.tasks[i].path);
    assert TaskOk(e, w, i);
    if key in w.inProgress {
      MoveKeepsInv(e, w, i, AwaitLock);
    } else {
      hide Consistent, FindCollections, Body;
      var v := Enter(w, i);
      forall j | 0 <= j < |v.tasks| ensures TaskOk(e, v, j) { assert TaskOk(e, w, j); }
      forall k | k in v.inProgress ensures LockOk(v, k) { if k != key { assert LockOk(w, k); } }
      forall p | p in v.created ensures CreatedOk(v, p) { assert CreatedOk(w, p); }
    }
  }

  lemma EnterPatKeepsInv(e: Env, w: World, i: nat, known: Option<string>, cached: bool)
    requires Inv(e, w) && i < |w.tasks| && w.tasks[i].phase == PatEntry(known)
    ensures Inv(e, EnterPat(w, i, known, cached))
  {
    assert TaskOk(e, w, i);
    if cached && w.tasks[i].credentials in w.pats {
      MoveKeepsInv(e, w, i, HavePat(known));
    } else if PatKey in w.inProgress {
      MoveKeepsInv(e, w, i, AwaitPat(known));
    } else {
      TakePatKeepsInv(e, w, i, known);
    }
  }

  lemma TakePatKeepsInv(e: Env, w: World, i: nat, known: Option<string>)
    requires Inv(e, w) && i < |w.tasks| && w.tasks[i].phase == PatEntry(known) && PatKey !in w.inProgress
    ensures Inv(e, Move(w, i, FetchPat(known)).(inProgress := w.inProgress[PatKey := i]))
  {
    hide Consistent, FindCollections, Body;
    var v := Move(w, i, FetchPat(known)).(inProgress := w.inProgress[PatKey := i]);
    assert TaskOk(e, w, i);
    forall j | 0 <= j < |v.tasks| ensures TaskOk(e, v, j) { assert TaskOk(e, w, j); }
    forall k | k in v.inProgress ensures LockOk(v, k) { if k != PatKey { assert LockOk(w, k); } }
    forall p | p in v.created ensures CreatedOk(v, p) { assert CreatedOk(w, p); }
  }

  lemma StorePatTaskOk(e: Env, w: World, i: nat, known: Option<string>, j: nat)
    requires Inv(e, w) && i < |w.tasks| && w.tasks[i].phase == FetchPat(known)
    requires j < |w.tasks|
    ensures TaskOk(e, StorePat(e, w, i, known), j)
  {
    assert TaskOk(e, w, i) && TaskOk(e, w, j);
    hide Inv, FindCollections;
  }

  lemma StorePatKeepsInv(e: Env, w: World, i: nat, known: Option<string>)
    requires Inv(e, w) && i < |w.tasks| && w.tasks[i].phase == FetchPat(known)
    ensures Inv(e, StorePat(e, w, i, known))
  {
    var v := StorePat(e, w, i, known);
    assert ServerOk(e, v);
    hide ServerOk, FindCollections;
    forall j | 0 <= j < |v.tasks| ensures TaskOk(e, v, j) { StorePatTaskOk(e, w, i, known, j); }
    forall k | k in v.inProgress ensures LockOk(v, k) { assert LockOk(w, k); }
    forall p | p in v.created ensures CreatedOk(v, p) { assert CreatedOk(w, p); }
  }

  lemma LaunchKeepsInv(e: Env, w: World, path: string, credentials: string)
    requires Inv(e, w) && path != "" && PathKey(path) !in w.inProgress
    ensures Inv(e, Launch(w, path, credentials))
  {
    hide Consistent, FindCollections, Body;
    var v := Launch(w, path, credentials);
    forall j | 0 <= j < |v.tasks| ensures TaskOk(e, v, j) { if j < |w.tasks| { assert TaskOk(e, w, j); } }
    forall k | k in v.inProgress ensures LockOk(v, k) { if k in w.inProgress { assert LockOk(w, k); } }
    forall p | p in v.created ensures CreatedOk(v, p) { assert CreatedOk(w, p); }
  }

  lemma WaitKeepsInv(e: Env, w: World, path: string, credentials: string)
    requires Inv(e, w) && path != "" && !e.isRoot(path) && PathKey(e.parent(path)) in w.inProgress
    ensures Inv(e, WaitForParent(w, path, credentials))
  {
    hide Consistent, FindCollections, Body;
    var v := WaitForParent(w, path, credentials);
    forall j | 0 <= j < |v.tasks| ensures TaskOk(e, v, j) { if j < |w.tasks| { assert TaskOk(e, w, j); } }
    forall k | k in v.inProgress ensures LockOk(v, k) { assert LockOk(w, k); }
    forall p | p in v.created ensures CreatedOk(v, p) { assert CreatedOk(w, p); }
  }

  lemma TaskIsOk(e: Env, w: World, i: nat)
    requires Inv(e, w) && i < |w.tasks|
    ensures TaskOk(e, w, i)
  {
    hide TaskOk, LockOk, IdOk, CreatedOk, ServerOk;
  }

  lemma SendKeepsInv(e: Env, w: World, i: nat, known: Option<string>, parentId: Option<string>)
    requires e.Valid() && Inv(e, w) && i < |w.tasks|
    requires w.tasks[i].phase == HaveParent(known, parentId)
          || (w.tasks[i].phase == HavePat(known) && e.isRoot(w.tasks[i].path) && w.tasks[i].path != ""
            && parentId.None?)
    ensures Inv(e, Send(e, w, i, known, parentId))
  {
    hide Inv, Consistent, FindCollections, Body;
    var t := w.tasks[i];
    assert TaskOk(e, w, i) by { TaskIsOk(e, w, i); }
    MoveKeepsInv(e, w, i, Sent(known, parentId));
    if !e.isRoot(t.path) && parentId.None? {
      var sent := Move(w, i, Sent(known, parentId));
      if PathKey(e.parent(t.path)) !in w.inProgress { LaunchKeepsInv(e, sent, e.parent(t.path), t.credentials); }
      var launched := if PathKey(e.parent(t.path)) in w.inProgress then sent
                      else Launch(sent, e.parent(t.path), t.credentials);
      WaitKeepsInv(e, launched, t.path, t.credentials);
    }
  }

  lemma StoreIdKeepsInv(e: Env, w: World, i: nat, id: string)
    requires Inv(e, w) && i < |w.tasks| && w.tasks[i].phase == Storing(id)
    ensures Inv(e, StoreId(w, i, id))
  {
    var v := StoreId(w, i, id);
    assert ServerOk(e, v);
    hide ServerOk, FindCollections;
    assert TaskOk(e, w, i);
    forall j | 0 <= j < |v.tasks| ensures TaskOk(e, v, j) { assert TaskOk(e, w, j); }
    forall k | k in v.inProgress ensures LockOk(v, k) { assert LockOk(w, k); }
    forall p | p in v.created ensures CreatedOk(v, p) { assert CreatedOk(w, p); }
  }

  lemma ReleaseTaskOk(e: Env, w: World, i: nat, j: nat)
    requires Inv(e, w) && i < |w.tasks|
      && (w.tasks[i].phase.Releasing? || (w.tasks[i].phase.Replied? && w.tasks[i].phase.known.Some?))
    requires j < |w.tasks|
    ensures TaskOk(e, Release(e, w, i), j)
  {
    assert TaskOk(e, w, i) && TaskOk(e, w, j);
    hide Inv, FindCollections;
  }

  lemma ReleaseKeepsInv(e: Env, w: World, i: nat)
    requires Inv(e, w) && i < |w.tasks|
    requires w.tasks[i].phase.Releasing? || (w.tasks[i].phase.Replied? && w.tasks[i].phase.known.Some?)
    ensures Inv(e, Release(e, w, i))
  {
    var v := Release(e, w, i);
    assert ServerOk(e, v);
    hide ServerOk, FindCollections;
    assert TaskOk(e, w, i);
    forall j | 0 <= j < |v.tasks| ensures TaskOk(e, v, j) { ReleaseTaskOk(e, w, i, j); }
    forall k | k in v.inProgress ensures LockOk(v, k) { assert LockOk(w, k); }
    forall p | p in v.created ensures CreatedOk(v, p) { assert CreatedOk(w, p); }
  }

  /** What the invariant says about the path of a request in flight. */
  lemma RequestFacts(e: Env, w: World, i: nat)
    requires Inv(e, w) && i < |w.tasks| && w.tasks[i].phase.Sent?
    ensures var t := w.tasks[i];
      && t.path != "" && Consistent(w.server) && w.server.registrations.Keys <= w.created
      && t.phase.known == Lookup(w.ids, t.path)
      && (t.phase.known.Some? ==> t.phase.known.value == t.path && Joinable(e, w, t.path))
      && (t.phase.known.None? ==> t.path !in w.created)
      && ParentIdOk(e, w, t.path, t.phase.parentId)
      && (t.phase.parentId.Some? ==> Joinable(e, w, t.phase.parentId.value))
      && (t.path in w.server.registrations ==>
            ClientDescription(e, t.path, w.server.registrations[t.path].description))
  {
    hide Consistent, Body, Joinable, ClientDescription;
    var t := w.tasks[i];
    assert TaskOk(e, w, i);
    if t.phase.parentId.Some? { assert IdOk(e, w, t.phase.parentId.value); }
    if t.phase.known.None? {
      assert t.path in w.created ==> CreatedOk(w, t.path);
    } else {
      assert IdOk(e, w, t.path);
    }
  }

  /** The server's verdict on a request in flight: a POST is always accepted, and a PUT is only refused
      because the registration is gone or belongs to someone else. */
  lemma AnswerVerdict(e: Env, w: World, i: nat)
    requires e.Valid() && Inv(e, w) && i < |w.tasks| && w.tasks[i].phase.Sent?
    ensures var t := w.tasks[i];
      var (status, server) := Answer(e, w, t);
      var entry := Entry(e.owner(t.credentials), Body(e, t.path, t.phase.parentId));
      && (if t.phase.known.None? then status == Created(t.path) && t.path !in w.created
          else status in {Updated, NotFound, Forbidden})
      && (status.Accepted() ==>
          && Consistent(server)
          && server.registrations == w.server.registrations[t.path := entry]
          && (forall m | Live(m, w.server.quads) :: Live(m, server.quads))
          && (e.isContainer(t.path) ==> Live(Contains(t.path), server.quads)))
  {
    hide Inv, TaskOk, Consistent, Live, Body, SetMetadata;
    RequestFacts(e, w, i);
    var t := w.tasks[i];
    ClientMetadata(e, w.server, t.path, t.phase.parentId, e.owner(t.credentials));
    BodyName(e, t.path, t.phase.parentId);
    var body := Body(e, t.path, t.phase.parentId);
    var m := SetMetadata(w.server, t.path, body, e.owner(t.credentials), PreviousOf(w.server, t.path)).1;
    var server := Answer(e, w, t).1;
    if Answer(e, w, t).0.Accepted() {
      assert server.quads == m.quads && server.registrations == m.registrations;
      SameStoresConsistent(m, server);
    }
  }

  lemma BodyName(e: Env, path: string, parentId: Option<string>)
    requires path != ""
    ensures var body := Body(e, path, parentId);
      body.name == Some(path) && NewId(body, "") == path
  {}

  /** A served request: the server moved on, and the response is on its way. */
  lemma ServedKeepsInv(e: Env, w: World, i: nat, server: Stores, umaId: string)
    requires Inv(e, w) && i < |w.tasks| && w.tasks[i].phase.Sent?
    requires var t := w.tasks[i];
      && ServerOk(e, w.(server := server, created := w.created + {t.path}))
      && (forall p | Joinable(e, w, p) :: Joinable(e, w.(server := server), p))
      && Joinable(e, w.(server := server), t.path)
      && (t.phase.known.None? ==> umaId == t.path)
    ensures var known := w.tasks[i].phase.known;
      Inv(e, Move(w, i, Replied(known, umaId)).(server := server,
               created := if known.None? then w.created + {w.tasks[i].path} else w.created))
  {
    var t := w.tasks[i];
    var v := Move(w, i, Replied(t.phase.known, umaId)).(server := server,
               created := if t.phase.known.None? then w.created + {t.path} else w.created);
    assert TaskOk(e, w, i);
    assert t.phase.known.Some? ==> IdOk(e, w, t.path);
    assert w.created + {t.path} == v.created;
    assert ServerOk(e, v);
    forall p | Joinable(e, w, p) ensures Joinable(e, v, p) { assert Joinable(e, w.(server := server), p); }
    assert Joinable(e, v, t.path);
    hide ServerOk, Joinable;
    forall j | 0 <= j < |v.tasks| ensures TaskOk(e, v, j) { assert TaskOk(e, w, j); }
    forall k | k in v.inProgress ensures LockOk(v, k) { assert LockOk(w, k); }
    forall p | p in v.created ensures CreatedOk(v, p) { if p in w.created { assert CreatedOk(w, p); } }
    forall p | p in v.ids ensures IdOk(e, v, p) { assert IdOk(e, w, p); }
  }

  lemma ServerOkAfter(e: Env, w: World, t: Task, server: Stores, owner: string)
    requires ServerOk(e, w) && t.phase.Sent? && ParentIdOk(e, w, t.path, t.phase.parentId) && Consistent(server)
    requires server.registrations == w.server.registrations[t.path := Entry(owner, Body(e, t.path, t.phase.parentId))]
    ensures ServerOk(e, w.(server := server, created := w.created + {t.path}))
  {
    hide Consistent, Body;
    assert t.phase.parentId == None || t.phase.parentId == Some(e.parent(t.path));
    forall p | p in server.registrations ensures ClientDescription(e, p, server.registrations[p].description) {
      if p != t.path { assert p in w.server.registrations; }
    }
  }

  lemma AnswerServerOk(e: Env, w: World, i: nat)
    requires e.Valid() && Inv(e, w) && i < |w.tasks| && w.tasks[i].phase.Sent?
    requires Answer(e, w, w.tasks[i]).0.Accepted()
    ensures var t := w.tasks[i];
      var (status, server) := Answer(e, w, t);
      && ServerOk(e, w.(server := server, created := w.created + {t.path}))
      && (forall p | Joinable(e, w, p) :: Joinable(e, w.(server := server), p))
      && Joinable(e, w.(server := server), t.path)
      && (t.phase.known.None? ==> status == Created(t.path))
  {
    hide Answer, Consistent, FindCollections, Body, Live;
    AnswerVerdict(e, w, i);
    assert TaskOk(e, w, i) && ServerOk(e, w);
    var t := w.tasks[i];
    assert ParentIdOk(e, w, t.path, t.phase.parentId);
    hide Inv, TaskOk, ServerOk, ParentIdOk;
    ServerOkAfter(e, w, t, Answer(e, w, t).1, e.owner(t.credentials));
  }

  lemma DeliverKeepsInv(e: Env, w: World, i: nat)
    requires e.Valid() && Inv(e, w) && i < |w.tasks| && w.tasks[i].phase.Sent?
    ensures Inv(e, Deliver(e, w, i))
  {
    hide Inv, Answer, ServerOk, Joinable;
    var (status, server) := Answer(e, w, w.tasks[i]);
    if !status.Accepted() {
      MoveKeepsInv(e, w, i, Stuck(false));
    } else {
      AnswerServerOk(e, w, i);
      ServedKeepsInv(e, w, i, server, if status.Created? then status.id else "");
    }
  }

  lemma UnregisterKeepsInv(e: Env, w: World, path: string, credentials: string)
    requires Inv(e, w) && path in w.ids
    ensures Inv(e, Unregister(e, w, path, credentials))
  {
    var v := Unregister(e, w, path, credentials);
    RemoveKeepsConsistent(w.server, e.owner(credentials), w.ids[path]);
    hide Consistent, FindCollections, Body;
    forall j | 0 <= j < |v.tasks| ensures TaskOk(e, v, j) { assert TaskOk(e, w, j); }
    forall k | k in v.inProgress ensures LockOk(v, k) { assert LockOk(w, k); }
    forall p | p in v.created ensures CreatedOk(v, p) { assert CreatedOk(w, p); }
    forall p | p in v.ids ensures IdOk(e, v, p) { assert IdOk(e, w, p); }
  }

  lemma CallKeepsInv(e: Env, w: World, path: string, credentials: string)
    requires Inv(e, w) && path != ""
    ensures Inv(e, Call(w, path, credentials))
  {
    hide Consistent, FindCollections, Body;
    var v := Call(w, path, credentials);
    forall j | 0 <= j < |v.tasks| ensures TaskOk(e, v, j) { if j < |w.tasks| { assert TaskOk(e, w, j); } }
    forall k | k in v.inProgress ensures LockOk(v, k) { assert LockOk(w, k); }
    forall p | p in v.created ensures CreatedOk(v, p) { assert CreatedOk(w, p); }
  }

  lemma ObtainKeepsInv(e: Env, w: World, credentials: string)
    requires Inv(e, w)
    ensures Inv(e, Obtain(w, credentials))
  {
    hide Consistent, FindCollections, Body;
    var v := Obtain(w, credentials);
    assert "" in w.ids ==> IdOk(e, w, "");
    forall j | 0 <= j < |v.tasks| ensures TaskOk(e, v, j) { if j < |w.tasks| { assert TaskOk(e, w, j); } }
    forall k | k in v.inProgress ensures LockOk(v, k) { assert LockOk(w, k); }
    forall p | p in v.created ensures CreatedOk(v, p) { assert CreatedOk(w, p); }
  }

  lemma FailKeepsInv(e: Env, w: World, i: nat)
    requires Inv(e, w) && i < |w.tasks| && MayFail(w.tasks[i].phase)
    ensures Inv(e, Fail(w, i))
  {
    MoveKeepsInv(e, w, i, Stuck(w.tasks[i].phase.FetchPat?));
  }

  lemma IdIsOk(e: Env, w: World, path: string)
    requires Inv(e, w) && path in w.ids
    ensures IdOk(e, w, path)
  {
    hide TaskOk, LockOk, IdOk, CreatedOk, ServerOk;
  }

  lemma RunKeepsInv(e: Env, w: World, i: nat, cached: bool)
    requires e.Valid() && Inv(e, w) && i < |w.tasks| && Runnable(w.tasks[i].phase)
    ensures Inv(e, Run(e, w, i, cached))
  {
    hide Inv, Enter, EnterPat, StorePat, Send, Deliver, StoreId, Release, Move, Consistent, FindCollections, Body;
    var t := w.tasks[i];
    TaskIsOk(e, w, i);
    match t.phase
    case Ready => EnterKeepsInv(e, w, i);
    case AwaitConfig => MoveKeepsInv(e, w, i, AwaitKnown);
    case AwaitKnown => MoveKeepsInv(e, w, i, PatEntry(Lookup(w.ids, t.path)));
    case PatEntry(known) => EnterPatKeepsInv(e, w, i, known, cached);
    case FetchPat(known) => StorePatKeepsInv(e, w, i, known);
    case HavePat(known) =>
      if t.path == "" { MoveKeepsInv(e, w, i, Finished); }
      else if e.isRoot(t.path) { SendKeepsInv(e, w, i, known, None); }
      else { MoveKeepsInv(e, w, i, AwaitParent(known)); }
    case AwaitParent(known) =>
      if e.parent(t.path) in w.ids { IdIsOk(e, w, e.parent(t.path)); }
      MoveKeepsInv(e, w, i, HaveParent(known, Lookup(w.ids, e.parent(t.path))));
    case HaveParent(known, parentId) => SendKeepsInv(e, w, i, known, parentId);
    case Sent(_, _) => DeliverKeepsInv(e, w, i);
    case Replied(known, umaId) =>
      if known.Some? { ReleaseKeepsInv(e, w, i); } else { MoveKeepsInv(e, w, i, Storing(umaId)); }
    case Storing(id) => StoreIdKeepsInv(e, w, i, id);
    case Releasing => ReleaseKeepsInv(e, w, i);
  }

  lemma ApplyKeepsInv(e: Env, w: World, ev: Event)
    requires e.Valid() && Inv(e, w) && Enabled(w, ev)
    ensures Inv(e, Apply(e, w, ev))
  {
    match ev
    case Step(i, cached) => RunKeepsInv(e, w, i, cached);
    case Failure(i) => FailKeepsInv(e, w, i);
    case NewCall(path, credentials) => CallKeepsInv(e, w, path, credentials);
    case PatCall(credentials) => ObtainKeepsInv(e, w, credentials);
    case Deletion(path, credentials) => UnregisterKeepsInv(e, w, path, credentials);
  }

  // ----- every run -----

  lemma {:induction false} RunsKeepInv(e: Env, w: World, events: seq<Event>)
    requires e.Valid() && Inv(e, w) && IsRun(e, w, events)
    ensures Inv(e, After(e, w, events))
    decreases |events|
  {
    if events != [] {
      ApplyKeepsInv(e, w, events[0]);
      RunsKeepInv(e, Apply(e, w, events[0]), events[1..]);
    }
  }

  lemma ReachableInv(e: Env, events: seq<Event>)
    requires e.Valid() && IsRun(e, Start, events)
    ensures Inv(e, After(e, Start, events))
  {
    RunsKeepInv(e, Start, events);
  }

  /** At most one activation per path is between taking and releasing its lock. */
  lemma MutualExclusion(e: Env, events: seq<Event>, i: nat, j: nat)
    requires e.Valid() && IsRun(e, Start, events)
    requires var w := After(e, Start, events);
      && i < |w.tasks| && j < |w.tasks| && w.tasks[i].path == w.tasks[j].path
      && Holds(w.tasks[i]) && Holds(w.tasks[j])
    ensures i == j
  {
    ReachableInv(e, events);
    var w := After(e, Start, events);
    assert TaskOk(e, w, i) && TaskOk(e, w, j);
  }

  /** No step overwrites or forgets a stored id. */
  lemma IdsAreWriteOnce(e: Env, w: World, ev: Event)
    requires Inv(e, w) && Enabled(w, ev)
    ensures forall p | p in w.ids :: p in Apply(e, w, ev).ids && Apply(e, w, ev).ids[p] == w.ids[p]
  {
    hide ServerOk, Body, Post, Put;
    if ev.Step? && w.tasks[ev.task].phase.Storing? { assert TaskOk(e, w, ev.task); }
  }

  /** The event is the server's acceptance of a POST for `path`. */
  predicate Creates(e: Env, w: World, ev: Event, path: string)
    requires Enabled(w, ev)
  {
    && ev.Step? && w.tasks[ev.task].phase.Sent? && w.tasks[ev.task].phase.known.None?
    && w.tasks[ev.task].path == path && Answer(e, w, w.tasks[ev.task]).0.Accepted()
  }

  function Creations(e: Env, w: World, events: seq<Event>, path: string): nat
    requires IsRun(e, w, events)
    decreases |events|
  {
    if events == [] then 0
    else (if Creates(e, w, events[0], path) then 1 else 0) + Creations(e, Apply(e, w, events[0]), events[1..], path)
  }

  lemma CreatedGrows(e: Env, w: World, ev: Event, path: string)
    requires e.Valid() && Inv(e, w) && Enabled(w, ev)
    ensures path in w.created ==> path in Apply(e, w, ev).created && !Creates(e, w, ev, path)
    ensures Creates(e, w, ev, path) ==> path in Apply(e, w, ev).created
  {
    hide Answer;
    if ev.Step? && w.tasks[ev.task].phase.Sent? { AnswerVerdict(e, w, ev.task); }
    hide Inv, FindCollections, Consistent, Emit;
  }

  /** Each path is created by at most one successful POST, whatever fails or is deleted. */
  lemma {:induction false} CreatedAtMostOnce(e: Env, w: World, events: seq<Event>, path: string)
    requires e.Valid() && Inv(e, w) && IsRun(e, w, events)
    ensures Creations(e, w, events, path) <= if path in w.created then 0 else 1
    decreases |events|
  {
    if events != [] {
      CreatedGrows(e, w, events[0], path);
      ApplyKeepsInv(e, w, events[0]);
      CreatedAtMostOnce(e, Apply(e, w, events[0]), events[1..], path);
    }
  }
}
