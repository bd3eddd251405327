/** Without failures, the server ends up knowing the parent of every registered resource. */
module UmaClientAgreement {
  import opened Rdf
  import opened RegistrationSpec
  import opened RegistrationTheory
  import opened UmaClient
  import opened UmaClientSafety

  /** No failure, no deletion, and the server accepts what it is asked. */
  predicate Succeeds(e: Env, w: World, ev: Event)
    requires Enabled(w, ev)
  {
    match ev
    case Step(i, _) => w.tasks[i].phase.Sent? ==> Answer(e, w, w.tasks[i]).0.Accepted()
    case NewCall(_, _) => true
    case PatCall(_) => true
    case _ => false
  }

  ghost predicate SucceedingRun(e: Env, w: World, events: seq<Event>)
    requires IsRun(e, w, events)
    decreases |events|
  {
    events != [] ==> Succeeds(e, w, events[0]) && SucceedingRun(e, Apply(e, w, events[0]), events[1..])
  }

  predicate HasParent(e: Env, path: string) {
    path != "" && !e.isRoot(path)
  }

  /** The task will still send the relation of `path` to its parent, or start one that does. */
  predicate Owes(t: Task, path: string) {
    t.path == path &&
    match t.phase
    case Sent(_, parentId) => parentId.Some?
    case Replied(_, _) => false
    case Storing(_) => false
    case Releasing => false
    case Stuck(_) => false
    case Finished => false
    case _ => true
  }

  ghost predicate Pending(w: World, path: string) {
    exists j :: 0 <= j < |w.tasks| && Owes(w.tasks[j], path)
  }

  /** The server's description of `path` names its parent. */
  predicate Related(w: World, path: string) {
    path in w.server.registrations && w.server.registrations[path].description.relations.Some?
  }

  ghost predicate Agreeing(e: Env, w: World) {
    && (forall i | 0 <= i < |w.tasks| :: !w.tasks[i].phase.Stuck?)
    && w.created <= w.server.registrations.Keys
    && (forall p | p in w.created && HasParent(e, p) :: Related(w, p) || Pending(w, p))
    && (forall i | 0 <= i < |w.tasks| && w.tasks[i].phase.Sent? && HasParent(e, w.tasks[i].path) ::
          Pending(w, w.tasks[i].path))
  }

  /** The same task, or the same task after a wake-up. */
  predicate SameOrWoken(t: Task, u: Task) {
    u == t || (u.path == t.path && u.credentials == t.credentials
               && (t.phase.AwaitLock? || t.phase.AwaitPat? || t.phase.ParentWait?)
               && (u.phase.Ready? || u.phase.PatEntry?))
  }

  /** What every step but the server's answer leaves as it was. */
  ghost predicate Quiet(e: Env, w: World, v: World, i: nat) {
    && v.server == w.server && v.created == w.created
    && i < |w.tasks| <= |v.tasks| && !v.tasks[i].phase.Stuck?
    && (forall j | 0 <= j < |w.tasks| && j != i :: SameOrWoken(w.tasks[j], v.tasks[j]))
    && (forall j | |w.tasks| <= j < |v.tasks| :: !v.tasks[j].phase.Stuck? && !v.tasks[j].phase.Sent?)
    && (forall j | |w.tasks| <= j < |v.tasks| :: v.tasks[j].credentials == w.tasks[i].credentials)
    && v.tasks[i].path == w.tasks[i].path && v.tasks[i].credentials == w.tasks[i].credentials
  }

  /** The task pays no debt without a new task that owes the same. */
  predicate KeepsDebt(e: Env, w: World, v: World, i: nat)
    requires i < |w.tasks| <= |v.tasks|
  {
    var path := w.tasks[i].path;
    HasParent(e, path) ==>
      && (Owes(w.tasks[i], path) ==> Owes(v.tasks[i], path) || Owes(v.tasks[|v.tasks| - 1], path))
      && (v.tasks[i].phase.Sent? ==> Owes(w.tasks[i], path))
  }

  lemma PendingKept(e: Env, w: World, v: World, i: nat, path: string)
    requires Quiet(e, w, v, i) && Pending(w, path) && HasParent(e, path)
    requires Owes(w.tasks[i], path) ==> Pending(v, path)
    ensures Pending(v, path)
  {
    var j :| 0 <= j < |w.tasks| && Owes(w.tasks[j], path);
    if j != i { assert Owes(v.tasks[j], path); }
  }

  lemma QuietKeepsAgreeing(e: Env, w: World, v: World, i: nat)
    requires Agreeing(e, w) && Quiet(e, w, v, i)
    requires forall p | Owes(w.tasks[i], p) && HasParent(e, p) :: Pending(v, p)
    requires v.tasks[i].phase.Sent? && HasParent(e, v.tasks[i].path) ==> Pending(v, v.tasks[i].path)
    ensures Agreeing(e, v)
  {
    forall p | p in v.created && HasParent(e, p) ensures Related(v, p) || Pending(v, p) {
      if !Related(w, p) { PendingKept(e, w, v, i, p); }
    }
    forall j | 0 <= j < |v.tasks| && v.tasks[j].phase.Sent? && HasParent(e, v.tasks[j].path)
      ensures Pending(v, v.tasks[j].path)
    {
      if j != i { PendingKept(e, w, v, i, v.tasks[j].path); }
    }
  }

  lemma SendIsQuiet(e: Env, w: World, i: nat, known: Option<string>, parentId: Option<string>)
    requires i < |w.tasks| && (w.tasks[i].phase.HaveParent? || e.isRoot(w.tasks[i].path))
    ensures Quiet(e, w, Send(e, w, i, known, parentId), i) && KeepsDebt(e, w, Send(e, w, i, known, parentId), i)
  {}

  lemma StorePatIsQuiet(e: Env, w: World, i: nat, known: Option<string>)
    requires i < |w.tasks|
    ensures Quiet(e, w, StorePat(e, w, i, known), i) && KeepsDebt(e, w, StorePat(e, w, i, known), i)
  {}

  lemma ReleaseIsQuiet(e: Env, w: World, i: nat)
    requires i < |w.tasks|
    ensures Quiet(e, w, Release(e, w, i), i)
      && (Owes(w.tasks[i], w.tasks[i].path) || KeepsDebt(e, w, Release(e, w, i), i))
  {}

  lemma RunIsQuiet(e: Env, w: World, i: nat, cached: bool)
    requires i < |w.tasks| && Runnable(w.tasks[i].phase) && !w.tasks[i].phase.Sent?
    ensures Quiet(e, w, Run(e, w, i, cached), i) && KeepsDebt(e, w, Run(e, w, i, cached), i)
  {
    var t := w.tasks[i];
    match t.phase
    case FetchPat(known) => StorePatIsQuiet(e, w, i, known); hide StorePat, Quiet, KeepsDebt;
    case HavePat(known) =>
      if e.isRoot(t.path) { SendIsQuiet(e, w, i, known, None); hide Send, Quiet, KeepsDebt; }
    case HaveParent(known, parentId) => SendIsQuiet(e, w, i, known, parentId); hide Send, Quiet, KeepsDebt;
    case Replied(known, _) => ReleaseIsQuiet(e, w, i); hide Release, Quiet;
    case Releasing => ReleaseIsQuiet(e, w, i); hide Release, Quiet;
    case _ =>
  }

  lemma StepKeepsAgreeing(e: Env, w: World, i: nat, cached: bool)
    requires Inv(e, w) && Agreeing(e, w)
    requires i < |w.tasks| && Runnable(w.tasks[i].phase) && !w.tasks[i].phase.Sent?
    ensures Agreeing(e, Run(e, w, i, cached))
  {
    var v := Run(e, w, i, cached);
    RunIsQuiet(e, w, i, cached);
    hide Inv, Run, Agreeing;
    QuietKeepsAgreeing(e, w, v, i);
  }

  /** What the server's acceptance of the request of task `i` changes. */
  ghost predicate Answered(e: Env, w: World, v: World, i: nat)
    requires i < |w.tasks| && w.tasks[i].phase.Sent?
  {
    var t := w.tasks[i];
    && |v.tasks| == |w.tasks| && v.tasks == w.tasks[i := v.tasks[i]] && v.tasks[i].phase.Replied?
    && v.created <= w.created + {t.path}
    && t.path in v.server.registrations
    && v.server.registrations == w.server.registrations[t.path := v.server.registrations[t.path]]
    && (t.phase.parentId.Some? ==> Related(v, t.path))
    && forall j | 0 <= j < |w.tasks| && w.tasks[j].phase.Sent? && j != i :: w.tasks[j].path != t.path
  }

  lemma AnsweredKeepsAgreeing(e: Env, w: World, v: World, i: nat)
    requires Agreeing(e, w) && i < |w.tasks| && w.tasks[i].phase.Sent? && Answered(e, w, v, i)
    ensures Agreeing(e, v)
  {
    var t := w.tasks[i];
    forall p | Pending(w, p) && (p != t.path || t.phase.parentId.None?) ensures Pending(v, p) {
      var j :| 0 <= j < |w.tasks| && Owes(w.tasks[j], p);
      assert Owes(v.tasks[j], p);
    }
    forall p | p in v.created && HasParent(e, p) ensures Related(v, p) || Pending(v, p) {
      if p != t.path { assert Related(w, p) ==> Related(v, p); }
    }
  }

  lemma DeliverAnswers(e: Env, w: World, i: nat)
    requires e.Valid() && Inv(e, w)
    requires i < |w.tasks| && w.tasks[i].phase.Sent? && Answer(e, w, w.tasks[i]).0.Accepted()
    ensures Answered(e, w, Deliver(e, w, i), i)
  {
    AnswerVerdict(e, w, i);
    assert TaskOk(e, w, i);
    hide Answer;
    forall j | 0 <= j < |w.tasks| && w.tasks[j].phase.Sent? && j != i ensures w.tasks[j].path != w.tasks[i].path {
      assert TaskOk(e, w, j);
    }
    hide Inv, TaskOk;
  }

  lemma AcceptedKeepsAgreeing(e: Env, w: World, i: nat)
    requires e.Valid() && Inv(e, w) && Agreeing(e, w)
    requires i < |w.tasks| && w.tasks[i].phase.Sent? && Answer(e, w, w.tasks[i]).0.Accepted()
    ensures Agreeing(e, Deliver(e, w, i))
  {
    hide Inv, Agreeing, Answer, Deliver;
    DeliverAnswers(e, w, i);
    AnsweredKeepsAgreeing(e, w, Deliver(e, w, i), i);
  }

  lemma CallKeepsAgreeing(e: Env, w: World, path: string, credentials: string)
    requires Agreeing(e, w)
    ensures Agreeing(e, Call(w, path, credentials))
  {
    var v := Call(w, path, credentials);
    forall p | Pending(w, p) ensures Pending(v, p) {
      var j :| 0 <= j < |w.tasks| && Owes(w.tasks[j], p);
      assert Owes(v.tasks[j], p);
    }
  }

  lemma ObtainKeepsAgreeing(e: Env, w: World, credentials: string)
    requires Agreeing(e, w)
    ensures Agreeing(e, Obtain(w, credentials))
  {
    var v := Obtain(w, credentials);
    forall p | Pending(w, p) ensures Pending(v, p) {
      var j :| 0 <= j < |w.tasks| && Owes(w.tasks[j], p);
      assert Owes(v.tasks[j], p);
    }
  }

  lemma ApplyKeepsAgreeing(e: Env, w: World, ev: Event)
    requires e.Valid() && Inv(e, w) && Agreeing(e, w) && Enabled(w, ev) && Succeeds(e, w, ev)
    ensures Agreeing(e, Apply(e, w, ev))
  {
    hide Agreeing, Inv, Answer;
    match ev
    case Step(i, cached) =>
      if w.tasks[i].phase.Sent? { AcceptedKeepsAgreeing(e, w, i); } else { StepKeepsAgreeing(e, w, i, cached); }
    case NewCall(path, credentials) => CallKeepsAgreeing(e, w, path, credentials);
    case PatCall(credentials) => ObtainKeepsAgreeing(e, w, credentials);
  }

  lemma {:induction false} RunsAgree(e: Env, w: World, events: seq<Event>)
    requires e.Valid() && Inv(e, w) && Agreeing(e, w) && IsRun(e, w, events) && SucceedingRun(e, w, events)
    ensures Inv(e, After(e, w, events)) && Agreeing(e, After(e, w, events))
    decreases |events|
  {
    if events != [] {
      ApplyKeepsInv(e, w, events[0]);
      ApplyKeepsAgreeing(e, w, events[0]);
      RunsAgree(e, Apply(e, w, events[0]), events[1..]);
    }
  }

  // ----- deadlock freedom -----

  predicate Idle(w: World) {
    forall i | 0 <= i < |w.tasks| :: !Runnable(w.tasks[i].phase)
  }

  /** Whoever waits on an event waits for a task that holds the key; a holder of a path lock only ever
      waits for the PAT, whose holder never waits. So someone can run until everyone is finished. */
  lemma NoDeadlock(e: Env, w: World)
    requires Inv(e, w) && Idle(w)
    requires forall i | 0 <= i < |w.tasks| :: !w.tasks[i].phase.Stuck?
    ensures forall i | 0 <= i < |w.tasks| :: w.tasks[i].phase.Finished?
  {
    hide ServerOk, IdOk, CreatedOk;
    assert PatKey in w.inProgress ==> LockOk(w, PatKey);
    forall p ensures PathKey(p) !in w.inProgress {
      assert PathKey(p) in w.inProgress ==> LockOk(w, PathKey(p)) && TaskOk(e, w, w.inProgress[PathKey(p)]);
    }
    forall i | 0 <= i < |w.tasks| ensures w.tasks[i].phase.Finished? { assert TaskOk(e, w, i); }
  }

  // ----- agreement -----

  /** The policy store says that `path` is part of the collection of what its parent contains. */
  predicate KnowsParent(e: Env, w: World, path: string) {
    Quad(Iri(path), PartOf, Collection(Contains(e.parent(path)))) in w.server.quads
  }

  lemma RelatedKnowsParent(e: Env, w: World, path: string)
    requires e.Valid() && Inv(e, w) && Related(w, path)
    ensures KnowsParent(e, w, path) && Live(Contains(e.parent(path)), w.server.quads)
  {
    var d := w.server.registrations[path].description;
    assert ClientDescription(e, path, d);
    BodyMetas(e, path, Some(e.parent(path)));
    assert Contains(e.parent(path)) in DescribedRelations(w.server, path);
    hide FindCollections;
    assert PartOfCollection(path, Contains(e.parent(path)), w.server.quads);
  }

  /** When nothing is left to run, every call has finished, every called path has an id, and every
      non-root path with an id is part of its parent's collection at the server. */
  lemma QuiescentAgreement(e: Env, events: seq<Event>)
    requires e.Valid() && IsRun(e, Start, events) && SucceedingRun(e, Start, events)
    requires Idle(After(e, Start, events))
    ensures var w := After(e, Start, events);
      && (forall i | 0 <= i < |w.tasks| :: w.tasks[i].phase.Finished?)
      && (forall i | 0 <= i < |w.tasks| && w.tasks[i].path != "" :: w.tasks[i].path in w.ids)
      && (forall p | p in w.ids && !e.isRoot(p) ::
            KnowsParent(e, w, p) && Live(Contains(e.parent(p)), w.server.quads))
  {
    var w := After(e, Start, events);
    RunsAgree(e, Start, events);
    NoDeadlock(e, w);
    hide Consistent, FindCollections, PhaseOk, Pending;
    forall i | 0 <= i < |w.tasks| && w.tasks[i].path != "" ensures w.tasks[i].path in w.ids { assert TaskOk(e, w, i); }
    forall p | p in w.ids && !e.isRoot(p)
      ensures KnowsParent(e, w, p) && Live(Contains(e.parent(p)), w.server.quads)
    {
      assert IdOk(e, w, p);
      RelatedKnowsParent(e, w, p);
    }
  }

  // ----- when every request succeeds -----

  /** Everything is registered with credentials of one resource owner. */
  ghost predicate OneOwner(e: Env, w: World, owner: string) {
    && (forall i | 0 <= i < |w.tasks| :: e.owner(w.tasks[i].credentials) == owner)
    && (forall p | p in w.server.registrations :: w.server.registrations[p].owner == owner)
  }

  /** With one owner, and as long as nothing was deleted, the server accepts every request it is sent. */
  lemma OneOwnerSucceeds(e: Env, w: World, i: nat, owner: string)
    requires e.Valid() && Inv(e, w) && Agreeing(e, w) && OneOwner(e, w, owner)
    requires i < |w.tasks| && w.tasks[i].phase.Sent?
    ensures Answer(e, w, w.tasks[i]).0.Accepted()
  {
    AnswerVerdict(e, w, i);
    RequestFacts(e, w, i);
    var t := w.tasks[i];
    if t.phase.known.Some? { IdIsOk(e, w, t.path); }
    hide Inv, Consistent, Body, SetMetadata, Live, Pending;
    if t.phase.known.Some? {
      ClientMetadata(e, w.server, t.path, t.phase.parentId, owner);
    }
  }

  /** Calls, all with credentials of `owner`, and steps; nothing fails and nothing is deleted. */
  predicate OwnCalls(e: Env, events: seq<Event>, owner: string) {
    forall k | 0 <= k < |events| ::
      events[k].Step? || ((events[k].NewCall? || events[k].PatCall?) && e.owner(events[k].credentials) == owner)
  }

  lemma ApplyKeepsOneOwner(e: Env, w: World, ev: Event, owner: string)
    requires e.Valid() && Inv(e, w) && Agreeing(e, w) && OneOwner(e, w, owner)
    requires Enabled(w, ev) && OwnCalls(e, [ev], owner)
    ensures Succeeds(e, w, ev) && OneOwner(e, Apply(e, w, ev), owner)
  {
    hide Inv, Agreeing, Answer, Body, Quiet, FindCollections, Consistent, TaskOk;
    assert [ev][0] == ev;
    if ev.Step? && w.tasks[ev.task].phase.Sent? {
      OneOwnerSucceeds(e, w, ev.task, owner);
      AnswerVerdict(e, w, ev.task);
    } else if ev.Step? {
      hide Run, KeepsDebt;
      RunIsQuiet(e, w, ev.task, ev.cached);
      QuietKeepsOneOwner(e, w, Run(e, w, ev.task, ev.cached), ev.task, owner);
    }
  }

  lemma QuietKeepsOneOwner(e: Env, w: World, v: World, i: nat, owner: string)
    requires OneOwner(e, w, owner) && Quiet(e, w, v, i)
    ensures OneOwner(e, v, owner)
  {}

  lemma {:induction false} OneOwnerRunsSucceed(e: Env, w: World, events: seq<Event>, owner: string)
    requires e.Valid() && Inv(e, w) && Agreeing(e, w) && OneOwner(e, w, owner)
    requires IsRun(e, w, events) && OwnCalls(e, events, owner)
    ensures SucceedingRun(e, w, events)
    decreases |events|
  {
    if events != [] {
      ApplyKeepsOneOwner(e, w, events[0], owner);
      ApplyKeepsInv(e, w, events[0]);
      ApplyKeepsAgreeing(e, w, events[0]);
      OneOwnerRunsSucceed(e, Apply(e, w, events[0]), events[1..], owner);
    }
  }
}
