/** All endpoints that write to the one policy store, interleaved: registrations, collections, access requests
    and policies. Their invariants hold together. */
module SharedStore {
  import opened Rdf
  import opened RegistrationSpec
  import opened RegistrationTheory
  import opened CollectionSpec
  import opened AuthorizationServer
  import opened CollectionWrites
  import opened PolicyView
  import opened PolicyWrites
  import Requests = AccessRequests

  datatype State = State(stores: Stores, minted: nat, granted: map<Term, Term>)

  /** What one HTTP request does; the owner who decides is known by the list of resources he owns. */
  datatype Step =
    | Serving(request: Request)
    | Asking(json: Requests.AccessRequest, client: Term)
    | Deciding(asked: Term, owner: string, target: Term, party: Term, verdict: Requests.Verdict)
    | WritingPolicies(policies: PolicyRequest)

  function RequestsOf(s: State): Requests.Store {
    Requests.Store(s.stores.quads, s.minted, s.granted)
  }

  function OwnedTerms(s: Stores, owner: string): set<Term> {
    set id | id in Owned(s, owner) :: Iri(id)
  }

  /** The step as access requests see it. */
  function OperationOf(s: State, step: Step): Requests.Operation {
    match step
    case Serving(request) => Requests.OtherEndpoint(Serve(s.stores, request).1.quads)
    case Asking(json, client) => Requests.AddRequest(json, client)
    case Deciding(asked, owner, target, party, verdict) =>
      Requests.DecideRequest(asked, Iri(owner), OwnedTerms(s.stores, owner), target, party, verdict)
    case WritingPolicies(r) => Requests.WritePolicies(Dropped(s.stores.quads, r), Inserted(s.stores.quads, r))
  }

  function Take(s: State, step: Step): State {
    var t := Requests.Perform(RequestsOf(s), OperationOf(s, step)).1;
    State(if step.Serving? then Serve(s.stores, step.request).1 else s.stores.(quads := t.quads), t.serial, t.granted)
  }

  ghost predicate LeavesCollections(quads: set<Quad>, after: set<Quad>) {
    forall q | OfCollections(q) :: q in after <==> q in quads
  }

  /** What is assumed of a step. Of a request to the policy endpoint it is exactly what keeps the invariants. */
  ghost predicate Allowed(s: State, step: Step) {
    match step
    case Serving(request) => Permitted(s.stores, request)
    case Asking(_, _) => true
    case Deciding(_, _, _, _, _) => Requests.WellFormed(RequestsOf(s), OperationOf(s, step))
    case WritingPolicies(r) =>
      var removed, body := Dropped(s.stores.quads, r), Inserted(s.stores.quads, r);
      Requests.SoundWrite(RequestsOf(s), removed, body) && SoundForCollections(s.stores, removed, body)
  }

  ghost predicate Invariant(s: State) {
    Inv(s.stores) && Requests.Inv(RequestsOf(s))
  }

  // ----- registrations and collections leave requests alone -----

  lemma MetadataLeavesRequests(s: Stores, id: string, description: ResourceDescription, owner: string)
    requires Consistent(s) && SetMetadata(s, id, description, owner, PreviousOf(s, id)).0.Accepted()
    ensures Requests.LeavesRequests(s.quads, SetMetadata(s, id, description, owner, PreviousOf(s, id)).1.quads)
  {
    hide SetMetadata, DiffOf, Consistent, Rewritten;
    AcceptedQuads(s, id, description, owner);
    var t := SetMetadata(s, id, description, owner, PreviousOf(s, id)).1;
    RewrittenLeavesRequests(s.quads, t.quads, id, owner, s.serial, DiffOf(id, description, PreviousOf(s, id)));
  }

  lemma RewrittenLeavesRequests(quads: set<Quad>, after: set<Quad>, id: string, owner: string, serial: nat, d: Diff)
    requires Rewritten(quads, after, id, owner, serial, d)
    ensures Requests.LeavesRequests(quads, after)
  {
    hide Requests.Reserved, Describes, Joins;
    forall q | Requests.Reserved(q) ensures q in after <==> q in quads {
      NotReserved(q, Absent(d.newDefaults, quads), id, owner, serial);
      NotReserved(q, d.lostDefaults, id, owner, serial + 1);
      NotReserved(q, d.newRelations, id, owner, serial);
      NotReserved(q, d.lostRelations, id, owner, serial);
    }
  }

  lemma NotReserved(q: Quad, metas: set<Meta>, id: string, owner: string, serial: nat)
    requires Requests.Reserved(q)
    ensures !Describes(q, metas, owner, serial) && !Joins(q, id, metas)
  {}

  lemma ReplacedLeavesRequests(s: Stores, t: Stores, url: string, body: set<Quad>)
    requires Consistent(s) && Replaced(s, t, url, body)
    requires forall q | q in s.quads && Requests.Reserved(q) :: Requests.Serial(q.s).Some?
    ensures Requests.LeavesRequests(s.quads, t.quads)
  {
    hide FindCollections, DescribedRelations, DescribedDefaults;
    assert forall q | q in s.quads && q.p == PartOf :: q.s.Iri?;
    hide Consistent;
  }

  lemma RemoveLeavesRequests(s: Stores, owner: string, id: string)
    requires forall q | q in s.quads && Requests.Reserved(q) :: Requests.Serial(q.s).Some?
    ensures Requests.LeavesRequests(s.quads, RegistrationSpec.Remove(s, owner, id).1.quads)
  {}

  lemma ServeLeavesRequests(s: Stores, r: Request)
    requires Inv(s) && Permitted(s, r)
    requires forall q | q in s.quads && Requests.Reserved(q) :: Requests.Serial(q.s).Some?
    ensures Requests.LeavesRequests(s.quads, Serve(s, r).1.quads)
  {
    if !Serve(s, r).0.Accepted() {
      RejectedChangesNothing(s, r);
    } else {
      hide SetMetadata, Requests.LeavesRequests, Requests.Reserved;
      match r
      case PostResource(owner, body, uuid) =>
        PostEffect(s, owner, body, uuid);
        MetadataLeavesRequests(s, NewId(body, uuid), body, owner);
      case PutResource(owner, id, body) => MetadataLeavesRequests(s, id, body, owner);
      case DeleteResource(owner, id) => RemoveLeavesRequests(s, owner, id);
      case _ =>
        var body := ReplacesCollection(s, r);
        ReplacedLeavesRequests(s, Serve(s, r).1, r.url, body);
    }
  }

  // ----- requests and policies leave collections alone -----

  lemma SameCollections(quads: set<Quad>, after: set<Quad>)
    requires LeavesCollections(quads, after) && Shape(quads)
    ensures Shape(after) && (forall m :: Live(m, after) <==> Live(m, quads))
    ensures forall x, m :: PartOfCollection(x, m, after) <==> PartOfCollection(x, m, quads)
  {
    forall q: Quad | OfCollections(q) ensures q in after <==> q in quads {}
    assert Shape(after);
    forall m ensures Live(m, after) <==> Live(m, quads) { LiveFromSameQuads(m, quads, after); }
  }

  lemma SameCollectionsParts(s: Stores, after: set<Quad>)
    requires PartsOwned(s) && LeavesCollections(s.quads, after)
    ensures PartsOwned(s.(quads := after))
  {
    forall q: Quad | OfCollections(q) ensures q in after <==> q in s.quads {}
    forall c ensures IsAssetCollection(c, after) <==> IsAssetCollection(c, s.quads)
             ensures ObjectsOf(after, c, Creator) == ObjectsOf(s.quads, c, Creator)
    {
      assert OfCollections(Quad(c, RdfType, Known(AssetCollection)));
      forall q: Quad | q.p == Creator ensures q in after <==> q in s.quads { assert OfCollections(q); }
    }
    hide ObjectsOf, IsAssetCollection;
  }

  lemma SameCollectionsInv(s: Stores, after: set<Quad>)
    requires Inv(s) && LeavesCollections(s.quads, after)
    ensures Inv(s.(quads := after))
  {
    SameCollections(s.quads, after);
    SameCollectionsParts(s, after);
    SameOwners(s, s.(quads := after));
    hide LeavesCollections, Shape, Live, PartOfCollection, PartsOwned, OwnersExact, DefaultsOf, RelationsOf;
    var t := s.(quads := after);
    forall x ensures DescribedDefaults(t, x) == DescribedDefaults(s, x)
             ensures DescribedRelations(t, x) == DescribedRelations(s, x) {}
  }

  lemma AddLeavesCollections(s: Requests.Store, json: Requests.AccessRequest, client: Term)
    ensures LeavesCollections(s.quads, Requests.Add(s, json, client).1.quads)
  {
    hide Requests.RequestQuads, Requests.Add;
    var subject := Minted(s.serial);
    if json.scopes != [] {
      Requests.AddIs(s, json, client);
      forall q | q in Requests.RequestQuads(subject, json, client) ensures !OfCollections(q) {
        RequestQuadIsNone(subject, json, client, q);
      }
    } else {
      Requests.NothingAdded(s, json, client);
    }
  }

  lemma RequestQuadIsNone(subject: Term, json: Requests.AccessRequest, client: Term, q: Quad)
    requires q in Requests.RequestQuads(subject, json, client)
    ensures !OfCollections(q)
  {
    hide Requests.ConstraintQuads;
    if q in Requests.ConstraintQuads(subject, json.constraints, 1) {
      Requests.ConstraintQuadsSpec(subject, json.constraints, 1);
      Requests.ConstraintPredicates(subject, json.constraints, 1);
    }
  }

  lemma DecidedLeavesCollections(s: Requests.Store, request: Term, client: Term, target: Term, party: Term,
                                 verdict: Requests.Verdict)
    ensures LeavesCollections(s.quads, Requests.Decided(s, request, client, target, party, verdict).quads)
  {
    var t := Requests.Decided(s, request, client, target, party, verdict);
    var resolved := Requests.Resolve(s.quads, request, verdict);
    Requests.DecidedIs(s, request, client, target, party, verdict);
    hide Requests.PolicyQuads, ObjectsOf, Requests.Decided;
    forall q | OfCollections(q) ensures q in t.quads <==> q in s.quads {
      assert q in resolved <==> q in s.quads;
      if q in t.quads && q !in resolved {
        Requests.GeneratedQuad(resolved, request, Minted(s.serial), target, party, client, q);
      }
    }
  }

  lemma OperationLeavesCollections(s: Requests.Store, op: Requests.Operation)
    requires op.AddRequest? || op.DecideRequest?
    ensures LeavesCollections(s.quads, Requests.Perform(s, op).1.quads)
  {
    hide LeavesCollections, Requests.Add, Requests.Decided, Requests.Check;
    NothingLeaves(s.quads);
    match op
    case AddRequest(json, client) => AddLeavesCollections(s, json, client);
    case DecideRequest(request, client, owned, target, party, verdict) =>
      DecidedLeavesCollections(s, request, client, target, party, verdict);
  }

  lemma NothingLeaves(quads: set<Quad>)
    ensures LeavesCollections(quads, quads)
  {}

  // ----- every step -----

  /** Access requests see every step as one of their operations. */
  lemma StepIsOperation(s: State, step: Step)
    requires Invariant(s) && Allowed(s, step)
    ensures Requests.WellFormed(RequestsOf(s), OperationOf(s, step))
    ensures RequestsOf(Take(s, step)) == Requests.Perform(RequestsOf(s), OperationOf(s, step)).1
  {
    if step.Serving? {
      Requests.ReservedIsOld(RequestsOf(s));
      hide Requests.Inv, Inv, Serve, Permitted;
      assert forall q | q in s.stores.quads && Requests.Reserved(q) :: Requests.Serial(q.s).Some?;
      ServeLeavesRequests(s.stores, step.request);
    }
  }

  lemma PolicyStepIs(s: State, r: PolicyRequest)
    ensures Take(s, WritingPolicies(r)) == s.(stores := s.stores.(quads := ServePolicy(s.stores.quads, r).1))
    ensures ServePolicy(s.stores.quads, r).1
         == Overwritten(s.stores.quads, Dropped(s.stores.quads, r), Inserted(s.stores.quads, r))
  {
    hide ServePolicy, Dropped, Inserted, Overwritten;
    PolicyRequestIsWrite(s.stores.quads, r);
  }

  /** A request to the policy endpoint keeps the invariants exactly when it is allowed. */
  lemma PolicyStepKeepsInvariantIff(s: State, r: PolicyRequest)
    requires Invariant(s)
    ensures Invariant(Take(s, WritingPolicies(r))) <==> Allowed(s, WritingPolicies(r))
  {
    hide Inv, Requests.Inv, Requests.SoundWrite, SoundForCollections, ServePolicy, Dropped, Inserted, Overwritten, Take;
    PolicyStepIs(s, r);
    Requests.WriteKeepsInvIff(RequestsOf(s), Dropped(s.stores.quads, r), Inserted(s.stores.quads, r));
    WriteKeepsCollectionsIff(s.stores, Dropped(s.stores.quads, r), Inserted(s.stores.quads, r));
  }

  lemma TakeKeepsInvariant(s: State, step: Step)
    requires Invariant(s) && Allowed(s, step)
    ensures Invariant(Take(s, step))
  {
    hide Inv, Requests.Inv, Requests.WellFormed, Requests.Perform, Requests.LeavesRequests, LeavesCollections,
         Permitted, Serve, Requests.SoundWrite, SoundForCollections, Dropped, Inserted;
    if step.WritingPolicies? {
      PolicyStepKeepsInvariantIff(s, step.policies);
    } else {
      StepIsOperation(s, step);
      Requests.PerformKeepsInv(RequestsOf(s), OperationOf(s, step));
      if step.Serving? {
        ServeKeepsInv(s.stores, step.request);
      } else {
        OperationLeavesCollections(RequestsOf(s), OperationOf(s, step));
        SameCollectionsInv(s.stores, RequestsOf(Take(s, step)).quads);
      }
    }
  }

  // ----- every run -----

  function TakeAll(s: State, steps: seq<Step>): State
    decreases |steps|
  {
    if steps == [] then s else TakeAll(Take(s, steps[0]), steps[1..])
  }

  ghost predicate AllAllowed(s: State, steps: seq<Step>)
    decreases |steps|
  {
    steps != [] ==> Allowed(s, steps[0]) && AllAllowed(Take(s, steps[0]), steps[1..])
  }

  lemma {:induction false} RunKeepsInvariant(s: State, steps: seq<Step>)
    requires Invariant(s) && AllAllowed(s, steps)
    ensures Invariant(TakeAll(s, steps))
    decreases |steps|
  {
    hide Invariant, Take, Allowed;
    if steps != [] {
      TakeKeepsInvariant(s, steps[0]);
      RunKeepsInvariant(Take(s, steps[0]), steps[1..]);
    }
  }

  /** The invariants of registrations, collections and access requests hold together, whatever was stored before
      the first access request and however requests to the four endpoints are interleaved. */
  lemma ReachableInvariant(s: State, steps: seq<Step>)
    requires Inv(s.stores) && Requests.Unasked(RequestsOf(s)) && AllAllowed(s, steps)
    ensures Invariant(TakeAll(s, steps))
  {
    hide Inv, Requests.Inv, Requests.Unasked, AllAllowed, TakeAll;
    Requests.UnaskedInv(RequestsOf(s));
    RunKeepsInvariant(s, steps);
  }

  /** The step is no request to the policy endpoint that changes what is said about this property. */
  ghost predicate KeepsSaying(s: State, step: Step, x: Term, p: Predicate) {
    Requests.KeepsSaying(RequestsOf(s), OperationOf(s, step), x, p)
  }

  /** Whenever the status of a request changes, either the registered owner of its target decided it while it was
      open, or a request to the policy endpoint did not restate it. */
  lemma DecidedByOwner(s: State, step: Step, r: Term)
    requires Invariant(s) && Allowed(s, step) && r in Requests.Typed(s.stores.quads, EvaluationRequest)
    requires ObjectsOf(Take(s, step).stores.quads, r, RequestStatus) != ObjectsOf(s.stores.quads, r, RequestStatus)
    ensures KeepsSaying(s, step, r, RequestStatus) ==>
      && step.Deciding? && step.asked == r && ObjectsOf(s.stores.quads, r, RequestStatus) == {Known(Requested)}
      && step.target.Iri? && step.target.value in s.stores.registrations
      && s.stores.registrations[step.target.value].owner == step.owner
      && ObjectsOf(s.stores.quads, r, RequestedTarget) == {step.target}
    ensures !KeepsSaying(s, step, r, RequestStatus) ==> step.WritingPolicies?
  {
    hide Requests.Inv, Requests.WellFormed, Requests.Perform, ObjectsOf, Requests.Typed, Consistent, PartsOwned,
         Serve, Allowed, Requests.Restates;
    StepIsOperation(s, step);
    Requests.StatusStep(RequestsOf(s), OperationOf(s, step), r);
    if KeepsSaying(s, step, r, RequestStatus) {
      var id :| id in Owned(s.stores, step.owner) && step.target == Iri(id);
    }
  }

  // ----- requests to the policy endpoint -----

  /** A DELETE keeps the invariants exactly when what is deleted is neither a generated policy, nor the permission of
      one, nor an accepted request, nor a resource with relations, and leaves every described collection to be found. */
  lemma DeleteKeepsInvariantIff(s: State, uid: Term, client: Term)
    requires Invariant(s)
    ensures var removed := SubjectsIn(GetPolicy(s.stores.quads, uid, client));
      Invariant(Take(s, WritingPolicies(DeletePolicies(uid, client)))) <==>
        && NoRecords(RequestsOf(s), removed)
        && (forall id | Iri(id) in removed :: DescribedRelations(s.stores, id) == {})
        && (forall m | Described(s.stores, m) :: StaysDescribed(s.stores.quads, removed, m))
  {
    hide Inv, Requests.Inv, NoRecords, Described, DescribedRelations, StaysDescribed, Overwritten, GetPolicy, Take;
    PolicyStepIs(s, DeletePolicies(uid, client));
    GetIsAboutSubjects(s.stores.quads, uid, client);
    DeleteKeepsInvIff(RequestsOf(s), uid, client);
    RemovalKeepsCollectionsIff(s.stores, SubjectsIn(GetPolicy(s.stores.quads, uid, client)));
  }

  /** An ordinary policy, which uses neither names that the server gave out as subjects nor the vocabularies of requests
      and collections, may always be posted. */
  lemma OrdinaryPolicyIsAllowed(s: State, body: set<Quad>, client: Term)
    requires Invariant(s) && Plain(body) && forall q | q in body :: !Requests.OfRequest(q) && !OfCollections(q)
    ensures Allowed(s, WritingPolicies(PostPolicies(body, client)))
  {
    hide Inv, Requests.Inv, Overwritten, Requests.SoundWrite, SoundForCollections, CheckPolicy, Clashes;
    var inserted := Inserted(s.stores.quads, PostPolicies(body, client));
    assert inserted == {} || inserted == body;
    PlainIsSound(s, inserted);
  }

  lemma PlainIsSound(s: State, body: set<Quad>)
    requires Invariant(s) && Plain(body) && forall q | q in body :: !Requests.OfRequest(q) && !OfCollections(q)
    ensures Requests.SoundWrite(RequestsOf(s), {}, body) && SoundForCollections(s.stores, {}, body)
  {
    hide Inv, Requests.Inv, Overwritten, Requests.SoundWrite, SoundForCollections;
    PlainWriteKeepsInvIff(RequestsOf(s), {}, body);
    Requests.WriteKeepsInvIff(RequestsOf(s), {}, body);
    OtherBodyIsSound(s.stores, body);
  }

  // ----- rules, without any invariant -----

  /** What policies and their rules consist of. */
  predicate OfRules(p: Predicate) {
    || p == Uid || p == HasPermission || p == Target || p == Action || p == Assignee || p == Assigner
    || p == HasConstraint || p == OvcConstraint || p == LeftOperand || p == Operator || p == RightOperand
  }

  lemma MetadataLeavesRule(s: Stores, id: string, description: ResourceDescription, owner: string,
                           previous: Option<ResourceDescription>, q: Quad)
    requires OfRules(q.p)
    ensures q in SetMetadata(s, id, description, owner, previous).1.quads <==> q in s.quads
  {
    hide FindCollections, DefaultsOf, RelationsOf, Occupied, AllFound, UpdateDerivations, DiffOf;
    var d := DiffOf(id, description, previous);
    forall metas, n: nat
      ensures q !in NewCollectionTriples(metas, s.quads, owner, n)
      ensures q !in OldCollectionTriples(metas, s.quads, owner, n)
      ensures q !in PartOfTriples(id, metas, s.quads) {}
    hide NewCollectionTriples, OldCollectionTriples, PartOfTriples;
  }

  lemma ServeLeavesRule(s: Stores, r: Request, q: Quad)
    requires OfRules(q.p) && !q.s.Iri?
    ensures q in Serve(s, r).1.quads <==> q in s.quads
  {
    hide SetMetadata, CheckBody, CheckOwnership, Disown, Owned;
    match r
    case PostResource(owner, body, uuid) => MetadataLeavesRule(s, NewId(body, uuid), body, owner, None, q);
    case PutResource(owner, id, body) =>
      if id in s.registrations {
        MetadataLeavesRule(s, id, body, owner, Some(s.registrations[id].description), q);
      }
    case _ =>
  }

  lemma ServeLeavesObjects(s: Stores, r: Request, x: Term, p: Predicate)
    requires OfRules(p) && !x.Iri?
    ensures ObjectsOf(Serve(s, r).1.quads, x, p) == ObjectsOf(s.quads, x, p)
  {
    forall q: Quad | q.s == x && q.p == p ensures q in Serve(s, r).1.quads <==> q in s.quads {
      ServeLeavesRule(s, r, q);
    }
    hide Serve;
  }

  lemma AddLeavesObjects(s: Requests.Store, json: Requests.AccessRequest, client: Term, x: Term, p: Predicate)
    requires Requests.IsOld(x, s.serial)
    ensures ObjectsOf(Requests.Add(s, json, client).1.quads, x, p) == ObjectsOf(s.quads, x, p)
    ensures s.serial <= Requests.Add(s, json, client).1.serial
  {
    hide Requests.Add, Requests.RequestQuads;
    if json.scopes == [] {
      Requests.NothingAdded(s, json, client);
    } else {
      Requests.AddIs(s, json, client);
      Requests.RequestQuadsSpec(Minted(s.serial), json, client);
    }
  }

  lemma DecidedLeavesObjects(s: Requests.Store, request: Term, client: Term, target: Term, party: Term,
                             verdict: Requests.Verdict, x: Term, p: Predicate)
    requires Requests.IsOld(x, s.serial) && p != RequestStatus
    ensures var t := Requests.Decided(s, request, client, target, party, verdict);
      ObjectsOf(t.quads, x, p) == ObjectsOf(s.quads, x, p) && s.serial <= t.serial
  {
    var t := Requests.Decided(s, request, client, target, party, verdict);
    var resolved := Requests.Resolve(s.quads, request, verdict);
    Requests.DecidedIs(s, request, client, target, party, verdict);
    hide Requests.PolicyQuads, Requests.Decided;
    forall q: Quad | q.s == x && q.p == p ensures q in t.quads <==> q in s.quads {
      assert q in resolved <==> q in s.quads;
      if q in t.quads && q !in resolved {
        Requests.GeneratedQuad(resolved, request, Minted(s.serial), target, party, client, q);
      }
    }
  }

  /** In any state whatever: what a rule says about a name that was given out is changed by nothing but requests to the
      policy endpoint that do not restate it. */
  lemma StepKeepsRule(s: State, step: Step, x: Term, p: Predicate)
    requires Requests.IsOld(x, s.minted) && OfRules(p) && KeepsSaying(s, step, x, p)
    ensures ObjectsOf(Take(s, step).stores.quads, x, p) == ObjectsOf(s.stores.quads, x, p)
    ensures s.minted <= Take(s, step).minted
  {
    hide Serve, Requests.Add, Requests.Decided, Requests.Check, ObjectsOf, Overwritten, Requests.Restates, Dropped,
         Inserted;
    match step
    case Serving(request) => ServeLeavesObjects(s.stores, request, x, p);
    case Asking(json, client) => AddLeavesObjects(RequestsOf(s), json, client, x, p);
    case Deciding(asked, owner, target, party, verdict) =>
      DecidedLeavesObjects(RequestsOf(s), asked, Iri(owner), target, party, verdict, x, p);
    case WritingPolicies(r) =>
      Requests.RestatesIff(s.stores.quads, Dropped(s.stores.quads, r), Inserted(s.stores.quads, r), x, p);
  }

  ghost predicate AllKeepSaying(s: State, steps: seq<Step>, x: Term, p: Predicate)
    decreases |steps|
  {
    steps != [] ==> KeepsSaying(s, steps[0], x, p) && AllKeepSaying(Take(s, steps[0]), steps[1..], x, p)
  }

  lemma {:induction false} RunKeepsRule(s: State, steps: seq<Step>, x: Term, p: Predicate)
    requires Requests.IsOld(x, s.minted) && OfRules(p) && AllKeepSaying(s, steps, x, p)
    ensures ObjectsOf(TakeAll(s, steps).stores.quads, x, p) == ObjectsOf(s.stores.quads, x, p)
    decreases |steps|
  {
    hide Take, KeepsSaying, ObjectsOf, OfRules;
    if steps != [] {
      StepKeepsRule(s, steps[0], x, p);
      RunKeepsRule(Take(s, steps[0]), steps[1..], x, p);
    }
  }
}
