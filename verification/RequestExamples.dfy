/** Runs from the empty server in which requests to the policy endpoint, all of them accepted, change what was asked,
    decided, granted or registered. */
module RequestExamples {
  import opened Rdf
  import opened RegistrationSpec
  import opened RegistrationTheory
  import opened AuthorizationServer
  import opened SharedStore
  import opened CollectionWrites
  import opened PolicyView
  import opened PolicyWrites
  import opened AcceptedPolicy
  import Requests = AccessRequests

  const READING := Requests.AccessRequest(Iri("a"), [Known(Read)], [])
  const EMPTY := State(Empty, 0, map[])
  const REGISTERING := Serving(PostResource("o", CONTAINER, "x"))
  const ACCEPTING := [
    Asking(READING, Iri("p")),
    Deciding(Minted(0), "o", Iri("a"), Iri("p"), Requests.Accept)]

  lemma EmptyIsInvariant()
    ensures Invariant(EMPTY) && Inv(Empty) && Requests.Unasked(RequestsOf(EMPTY))
  {
    Requests.UnaskedInv(RequestsOf(EMPTY));
    hide Requests.Inv;
  }

  lemma Registered()
    ensures var s := Take(EMPTY, REGISTERING);
      && Allowed(EMPTY, REGISTERING) && Invariant(s) && s.minted == 0 && s.granted == map[]
      && s.stores.registrations.Keys == {"a"} && Iri("a") in OwnedTerms(s.stores, "o")
  {
    EmptyIsInvariant();
    ContainerMetas();
    var request := REGISTERING.request;
    hide Serve, Inv, Invariant, RelationsOf, DefaultsOf;
    Registers(Empty, request, "a");
    TakeKeepsInvariant(EMPTY, REGISTERING);
    OwnerOwns(Serve(Empty, request).1, "a", "o");
  }

  lemma OwnerOwns(s: Stores, id: string, owner: string)
    requires Inv(s) && id in s.registrations && s.registrations[id].owner == owner
    ensures Iri(id) in OwnedTerms(s, owner)
  {
    hide Consistent, PartsOwned;
    assert id in Owned(s, owner);
  }

  // ----- a policy whose constraint names something else -----

  /** A policy with these further uids, and with a constraint that is not the policy's own. */
  function Naming(p: Term, permission: Term, uids: set<Term>, c: Term, client: Term): set<Quad> {
    { Quad(p, RdfType, Known(PolicySet)), Quad(p, HasPermission, permission),
      Quad(permission, RdfType, Known(PermissionClass)), Quad(permission, Action, Known(Read)),
      Quad(permission, Target, Iri("t")), Quad(permission, Assigner, client), Quad(permission, HasConstraint, c) }
    + set u | u in uids + {p} :: Quad(p, Uid, u)
  }

  lemma NamingIsPolicy(p: Term, permission: Term, uids: set<Term>, c: Term, client: Term, body: set<Quad>)
    requires Naming(p, permission, uids, c, client) <= body
    ensures CheckPolicy(body, client) == Success
  {
    assert forall q | q in Naming(p, permission, uids, c, client) :: q in body;
    assert client in {client};
    assert permission in SubjectsOf(body, Assigner, client) by { assert Quad(permission, Assigner, client) in body; }
    assert Quad(p, Uid, p) in body;
    assert IsPosted(body, client, p, permission);
    assert Quad(p, HasPermission, permission) in body;
  }

  /** Posting the policy and deleting it again deletes everything that was said about what its constraint names. */
  lemma NamedIsDeleted(quads: set<Quad>, p: Term, permission: Term, uids: set<Term>, c: Term, client: Term, uid: Term)
    requires Naming(p, permission, uids, c, client) <= quads && uid in uids + {p}
    ensures c in SubjectsIn(quads) ==> c in SubjectsIn(GetPolicy(quads, uid, client))
    ensures QuadsOf(DeletePolicy(quads, uid, client).1, c) == {}
  {
    NamingIsRow(quads, p, permission, uids, c, client, uid);
    RowIsViewed(quads, Some(uid), client, p, permission);
    assert Quad(permission, HasConstraint, c) in quads;
    forall q | q in quads && q.s == c ensures q in GetPolicy(quads, uid, client) {
      assert q in PermissionQuads(quads, permission);
    }
    hide View, IsRow;
  }

  lemma NamingIsRow(quads: set<Quad>, p: Term, permission: Term, uids: set<Term>, c: Term, client: Term, uid: Term)
    requires Naming(p, permission, uids, c, client) <= quads && uid in uids + {p}
    ensures IsRow(quads, Some(uid), client, p, permission)
  {
    assert Quad(p, Uid, uid) in quads && Quad(permission, Target, Iri("t")) in quads;
  }

  /** Nothing else in the store is assigned by the client, or linked to the policy and its permission. */
  ghost predicate OnlyLinks(quads: set<Quad>, p: Term, permission: Term, c: Term, client: Term) {
    forall q | q in quads ::
      && (q.p == Assigner && q.o == client ==> q.s == permission)
      && (q.p == HasPermission ==> q.o != p && (q.o == permission ==> q.s == p))
      && (q.p == HasConstraint ==> q.s != p && (q.s == permission ==> q.o == c))
  }

  lemma OnlyNamedIsExtracted(quads: set<Quad>, p: Term, permission: Term, c: Term, client: Term, uid: Term)
    requires OnlyLinks(quads, p, permission, c, client)
    ensures SubjectsIn(GetPolicy(quads, uid, client)) <= {p, permission, c}
  {
    hide View;
    forall q | q in GetPolicy(quads, uid, client) ensures q.s in {p, permission, c} {
      var policy, rule := RowOf(quads, Some(uid), client, q);
      assert Quad(rule, Assigner, client) in quads && Quad(policy, HasPermission, rule) in quads;
      assert rule == permission && policy == p;
      assert q in PermissionQuads(quads, p) || q in PermissionQuads(quads, permission);
    }
  }

  // ----- what the stores of the runs are about -----

  /** No policies. */
  ghost predicate NoRules(quads: set<Quad>) {
    forall q | q in quads :: !OfRules(q.p)
  }

  /** Besides names that the server gave out, only these are subjects. */
  ghost predicate OnlyIris(quads: set<Quad>, ids: set<string>) {
    forall q | q in quads && q.s.Iri? :: q.s.value in ids
  }

  /** The only policy is one that was generated for a request of the owner. */
  ghost predicate OnlyPolicy(quads: set<Quad>, g: Term, owner: Term) {
    forall q | q in quads ::
      && (q.p == HasPermission ==> q == Quad(g, HasPermission, PermissionOf(g)))
      && (q.p == Uid ==> q == Quad(g, Uid, g))
      && (q.p == Assigner ==> q == Quad(PermissionOf(g), Assigner, owner))
      && q.p != HasConstraint
  }

  lemma RegisteringAdds(s: Stores, r: Request, id: string, ids: set<string>)
    requires Inv(s) && r.PostResource? && r.uuid != "" && r.uuid !in s.registrations && id !in s.registrations
    requires r.body.name == Some(id) && id != "" && Serve(s, r).0.Accepted()
    requires OnlyIris(s.quads, ids) && NoRules(s.quads)
    ensures OnlyIris(Serve(s, r).1.quads, ids + {id}) && NoRules(Serve(s, r).1.quads)
  {
    PostEffect(s, r.owner, r.body, r.uuid);
    hide SetMetadata, Consistent, DiffOf, Rewritten, OnlyIris, OfRules, PartsOwned, OwnersExact;
    AcceptedQuads(s, id, r.body, r.owner);
    var after := SetMetadata(s, id, r.body, r.owner, None).1.quads;
    RewrittenIris(s.quads, after, id, r.owner, s.serial, DiffOf(id, r.body, None), ids);
    forall q | q in after && OfRules(q.p) ensures q in s.quads { MetadataLeavesRule(s, id, r.body, r.owner, None, q); }
  }

  lemma RewrittenIris(quads: set<Quad>, after: set<Quad>, id: string, owner: string, serial: nat, d: Diff,
                      ids: set<string>)
    requires Rewritten(quads, after, id, owner, serial, d) && OnlyIris(quads, ids)
    ensures OnlyIris(after, ids + {id})
  {
    forall q | q in after && q.s.Iri? ensures q.s.value in ids + {id} {
      assert !Describes(q, Absent(d.newDefaults, quads), owner, serial);
      assert Joins(q, id, d.newRelations) ==> q.s == Iri(id);
    }
  }

  lemma AskingAdds(s: Requests.Store, json: Requests.AccessRequest, party: Term, ids: set<string>)
    requires OnlyIris(s.quads, ids) && NoRules(s.quads) && json.constraints == [] && json.scopes != []
    ensures var quads := Requests.Add(s, json, party).1.quads;
      OnlyIris(quads, ids) && NoRules(quads)
  {
    hide Requests.Add, Requests.RequestQuads;
    var subject := Minted(s.serial);
    Requests.AddIs(s, json, party);
    Requests.RequestQuadsSpec(subject, json, party);
    NoConstraints(subject, json);
    forall q | q in Requests.RequestQuads(subject, json, party) ensures !OfRules(q.p) {
      RequestIsNoRule(subject, json, party, q);
    }
  }

  lemma RequestIsNoRule(r: Term, json: Requests.AccessRequest, party: Term, q: Quad)
    requires Requests.ConstraintQuads(r, json.constraints, 1) == {} && q in Requests.RequestQuads(r, json, party)
    ensures !OfRules(q.p)
  {
    hide Requests.ConstraintQuads;
  }

  lemma RejectingAdds(quads: set<Quad>, r: Term, ids: set<string>)
    requires OnlyIris(quads, ids) && NoRules(quads) && !r.Iri?
    ensures var after := Requests.Resolve(quads, r, Requests.Reject);
      OnlyIris(after, ids) && NoRules(after)
  {}

  lemma AcceptingAdds(s: Requests.Store, r: Term, owner: Term, target: Term, party: Term, ids: set<string>)
    requires OnlyIris(s.quads, ids) && NoRules(s.quads) && !r.Iri?
    ensures var quads := Requests.Decided(s, r, owner, target, party, Requests.Accept).quads;
      OnlyIris(quads, ids) && OnlyPolicy(quads, Minted(s.serial), owner)
  {
    var resolved := Requests.Resolve(s.quads, r, Requests.Accept);
    var g := Minted(s.serial);
    Requests.DecidedIs(s, r, owner, target, party, Requests.Accept);
    hide Requests.PolicyQuads, Requests.Decided;
    assert NoRules(resolved) && OnlyIris(resolved, ids);
    NothingConstrained(resolved, r);
    hide Requests.Resolve, ObjectsOf;
    forall q | q in Requests.PolicyQuads(resolved, r, g, target, party, owner) && q !in resolved
      ensures !q.s.Iri? && q.p != HasConstraint
      ensures q.p == Assigner ==> q == Quad(PermissionOf(g), Assigner, owner)
      ensures q.p == HasPermission ==> q == Quad(g, HasPermission, PermissionOf(g))
      ensures q.p == Uid ==> q == Quad(g, Uid, g)
    {
      Requests.GeneratedQuad(resolved, r, g, target, party, owner, q);
    }
  }

  lemma NothingConstrained(quads: set<Quad>, r: Term)
    requires NoRules(quads)
    ensures ObjectsOf(quads, r, HasConstraint) == {}
  {}

  /** Names that are not in use can be used for a new policy. */
  lemma NamingIsPosted(quads: set<Quad>, ids: set<string>, p: string, permission: string, uids: set<Term>, c: Term,
                       client: Term)
    requires OnlyIris(quads, ids) && p !in ids && permission !in ids
    ensures PostPolicy(quads, Naming(Iri(p), Iri(permission), uids, c, client), client)
         == (Success, quads + Naming(Iri(p), Iri(permission), uids, c, client))
  {
    hide Naming, CheckPolicy;
    var body := Naming(Iri(p), Iri(permission), uids, c, client);
    NamingIsPolicy(Iri(p), Iri(permission), uids, c, client, body);
    NamingSubjects(Iri(p), Iri(permission), uids, c, client);
    forall q | q in body ensures QuadsOf(quads, q.s) == {} {}
  }

  lemma NamingSubjects(p: Term, permission: Term, uids: set<Term>, c: Term, client: Term)
    ensures forall q | q in Naming(p, permission, uids, c, client) :: q.s == p || q.s == permission
  {}

  lemma NamingIsOrdinary(p: string, permission: string, uids: set<Term>, c: Term, client: Term)
    ensures var body := Naming(Iri(p), Iri(permission), uids, c, client);
      Plain(body) && forall q | q in body :: !Requests.OfRequest(q) && !OfCollections(q)
  {}

  lemma NamingLinks(quads: set<Quad>, ids: set<string>, p: string, permission: string, uids: set<Term>, c: Term,
                    client: Term)
    requires OnlyIris(quads, ids) && p !in ids && permission !in ids && p != permission
    requires forall q | q in quads && q.p == Assigner :: q.o != client
    requires forall q | q in quads && q.p == HasPermission :: !q.o.Iri?
    ensures OnlyLinks(quads + Naming(Iri(p), Iri(permission), uids, c, client), Iri(p), Iri(permission), c, client)
  {}

  // ----- the runs -----

  const DENYING := [
    Asking(READING, Iri("p")),
    Deciding(Minted(0), "o", Iri("a"), Iri("p"), Requests.Reject)]

  lemma RegisteredSubjects()
    ensures OnlyIris(Take(EMPTY, REGISTERING).stores.quads, {"a"}) && NoRules(Take(EMPTY, REGISTERING).stores.quads)
  {
    EmptyIsInvariant();
    ContainerMetas();
    hide Serve, Inv, RelationsOf, DefaultsOf;
    Registers(Empty, REGISTERING.request, "a");
    RegisteringAdds(Empty, REGISTERING.request, "a", {});
    assert {} + {"a"} == {"a"};
  }

  /** The state after a request was asked, and after it was accepted. */
  lemma AcceptedState() returns (t: State)
    ensures t == TakeAll(Take(EMPTY, REGISTERING), ACCEPTING)
    ensures Allowed(EMPTY, REGISTERING) && AllAllowed(Take(EMPTY, REGISTERING), ACCEPTING) && Invariant(t)
    ensures AcceptedFor(t.stores.quads, Minted(0), Iri("a"), Iri("p"), Known(Read))
    ensures AssignedTo(RequestsOf(t), Minted(1), Minted(0), Iri("o"))
    ensures OnlyIris(t.stores.quads, {"a"}) && OnlyPolicy(t.stores.quads, Minted(1), Iri("o"))
  {
    hide Take, TakeAll, AllAllowed, Allowed, Invariant, AcceptedFor, AssignedTo, OwnedTerms, OnlyIris, OnlyPolicy,
         NoRules, Accepts;
    var s := Take(EMPTY, REGISTERING);
    Registered();
    RegisteredSubjects();
    assert Known(Read) in READING.scopes;
    AskThenAccept(s, READING, Iri("p"), "o", Known(Read));
    RunKeepsInvariant(s, ACCEPTING);
    t := TakeAll(s, ACCEPTING);
    AcceptedQuadsAre(s);
  }

  lemma AcceptedQuadsAre(s: State)
    requires s.minted == 0 && OnlyIris(s.stores.quads, {"a"}) && NoRules(s.stores.quads)
    requires Accepts(Take(s, ACCEPTING[0]), Minted(0), "o", Iri("a"), Iri("p"))
    ensures var quads := TakeAll(s, ACCEPTING).stores.quads;
      OnlyIris(quads, {"a"}) && OnlyPolicy(quads, Minted(1), Iri("o"))
  {
    hide OnlyIris, OnlyPolicy, NoRules, Accepts, Take, Requests.Decided, Requests.Add, Requests.RequestQuads;
    var asked := Take(s, ACCEPTING[0]);
    AskingIsAdding(s, READING, Iri("p"));
    Requests.AddIs(RequestsOf(s), READING, Iri("p"));
    AskingAdds(RequestsOf(s), READING, Iri("p"), {"a"});
    AcceptingIsDecided(asked, Minted(0), "o", Iri("a"), Iri("p"));
    AcceptingAdds(RequestsOf(asked), Minted(0), Iri("o"), Iri("a"), Iri("p"), {"a"});
    TwoSteps(s, ACCEPTING[0], ACCEPTING[1]);
  }

  /** The request is accepted, and no policy answers it. */
  predicate Unanswered(quads: set<Quad>, r: Term, g: Term) {
    r in Requests.WithStatus(quads, Accepted) && g !in Requests.Agreements(quads)
  }

  lemma DeletedIsUnanswered(s: Requests.Store, g: Term, r: Term, uid: Term, client: Term)
    requires g in SubjectsIn(GetPolicy(s.quads, uid, client)) && r !in SubjectsIn(GetPolicy(s.quads, uid, client))
    requires r in Requests.WithStatus(s.quads, Accepted)
    ensures Unanswered(DeletePolicy(s.quads, uid, client).1, r, g)
  {
    GetIsAboutSubjects(s.quads, uid, client);
    hide GetPolicy, SubjectsIn;
    var after := DeletePolicy(s.quads, uid, client).1;
    assert Quad(r, RequestStatus, Known(Accepted)) in after;
    assert Quad(g, RdfType, Known(Agreement)) !in after;
  }

  lemma OwnExtract(s: Requests.Store, g: Term, r: Term, owner: Term)
    requires Requests.Inv(s) && AssignedTo(s, g, r, owner) && OnlyPolicy(s.quads, g, owner)
    requires r.Minted? && r != g
    ensures g in SubjectsIn(GetPolicy(s.quads, g, owner)) && r !in SubjectsIn(GetPolicy(s.quads, g, owner))
  {
    hide GetPolicy, Requests.Inv;
    GeneratedIsViewed(s, g, owner);
    assert OnlyLinks(s.quads, g, PermissionOf(g), g, owner);
    OnlyNamedIsExtracted(s.quads, g, PermissionOf(g), g, owner, g);
  }

  /** A resource is registered, access to it is asked for and accepted by its owner, who then deletes the generated
      policy through the policy endpoint: the request stays accepted, and nothing answers it. */
  lemma AcceptanceIsUndone()
    ensures var t := TakeAll(Take(EMPTY, REGISTERING), ACCEPTING);
      var u := Take(t, WritingPolicies(DeletePolicies(Minted(1), Iri("o"))));
      && Allowed(EMPTY, REGISTERING) && AllAllowed(Take(EMPTY, REGISTERING), ACCEPTING) && Invariant(t)
      && AcceptedFor(t.stores.quads, Minted(0), Iri("a"), Iri("p"), Known(Read))
      && Unanswered(u.stores.quads, Minted(0), Minted(1)) && !Invariant(u)
  {
    hide Take, TakeAll, AllAllowed, Allowed, AcceptedFor, GetPolicy, AssignedTo, OnlyPolicy, Unanswered, Inv,
         Requests.Inv, DeletePolicy, SubjectsIn, OnlyIris;
    var t := AcceptedState();
    AcceptedHasStatus(t.stores.quads, Minted(0), Iri("a"), Iri("p"), Known(Read));
    PolicyStepIs(t, DeletePolicies(Minted(1), Iri("o")));
    OwnExtract(RequestsOf(t), Minted(1), Minted(0), Iri("o"));
    DeletedIsUnanswered(RequestsOf(t), Minted(1), Minted(0), Minted(1), Iri("o"));
    UnansweredBreaks(t, DeletePolicies(Minted(1), Iri("o")), Minted(0), Minted(1), Iri("o"));
  }

  lemma AcceptedHasStatus(quads: set<Quad>, r: Term, target: Term, party: Term, scope: Term)
    requires AcceptedFor(quads, r, target, party, scope)
    ensures r in Requests.WithStatus(quads, Accepted)
  {}

  lemma UnansweredBreaks(t: State, request: PolicyRequest, r: Term, g: Term, owner: Term)
    requires AssignedTo(RequestsOf(t), g, r, owner)
    requires Unanswered(ServePolicy(t.stores.quads, request).1, r, g)
    ensures !Invariant(Take(t, WritingPolicies(request)))
  {
    PolicyStepIs(t, request);
    hide ServePolicy, Take, Inv, Requests.Agreements, Requests.WithStatus, Overwritten, Requests.Dated,
         Requests.Mirrors;
  }

  /** Somebody who assigned nothing posts a policy that also has the uid of the generated one, and names it as a
      constraint; deleting by that uid then deletes the generated policy. */
  lemma StrangerUndoesAcceptance()
    ensures var t := TakeAll(Take(EMPTY, REGISTERING), ACCEPTING);
      var body := Naming(Iri("x"), Iri("y"), {Minted(1)}, Minted(1), Iri("me"));
      var u := Take(t, WritingPolicies(PostPolicies(body, Iri("me"))));
      var v := Take(u, WritingPolicies(DeletePolicies(Minted(1), Iri("me"))));
      && Quad(PermissionOf(Minted(1)), Assigner, Iri("me")) !in t.stores.quads
      && PostPolicy(t.stores.quads, body, Iri("me")).0 == Success
      && Invariant(t) && Allowed(t, WritingPolicies(PostPolicies(body, Iri("me")))) && Invariant(u)
      && Unanswered(v.stores.quads, Minted(0), Minted(1)) && !Invariant(v)
  {
    hide Take, TakeAll, AllAllowed, Allowed, AcceptedFor, GetPolicy, AssignedTo, OnlyPolicy, Unanswered, Inv,
         Requests.Inv, DeletePolicy, SubjectsIn, OnlyIris, Naming, PostPolicy, Invariant;
    var t := AcceptedState();
    StrangerPosts(t);
    var body := Naming(Iri("x"), Iri("y"), {Minted(1)}, Minted(1), Iri("me"));
    var u := Take(t, WritingPolicies(PostPolicies(body, Iri("me"))));
    var quads := u.stores.quads;
    OnlyNamedIsExtracted(quads, Iri("x"), Iri("y"), Minted(1), Iri("me"), Minted(1));
    NamedIsDeleted(quads, Iri("x"), Iri("y"), {Minted(1)}, Minted(1), Iri("me"), Minted(1));
    PolicyStepIs(u, DeletePolicies(Minted(1), Iri("me")));
    DeletedIsUnanswered(RequestsOf(u), Minted(1), Minted(0), Minted(1), Iri("me"));
    UnansweredBreaks(u, DeletePolicies(Minted(1), Iri("me")), Minted(0), Minted(1), Iri("o"));
  }

  /** The state after the stranger's POST. */
  lemma StrangerPosts(t: State)
    requires Invariant(t) && AcceptedFor(t.stores.quads, Minted(0), Iri("a"), Iri("p"), Known(Read))
    requires AssignedTo(RequestsOf(t), Minted(1), Minted(0), Iri("o"))
    requires OnlyIris(t.stores.quads, {"a"}) && OnlyPolicy(t.stores.quads, Minted(1), Iri("o"))
    ensures var body := Naming(Iri("x"), Iri("y"), {Minted(1)}, Minted(1), Iri("me"));
      var step := WritingPolicies(PostPolicies(body, Iri("me")));
      var u := Take(t, step);
      && Quad(PermissionOf(Minted(1)), Assigner, Iri("me")) !in t.stores.quads
      && PostPolicy(t.stores.quads, body, Iri("me")).0 == Success
      && Allowed(t, step) && Invariant(u)
      && body <= u.stores.quads && OnlyLinks(u.stores.quads, Iri("x"), Iri("y"), Minted(1), Iri("me"))
      && AssignedTo(RequestsOf(u), Minted(1), Minted(0), Iri("o"))
      && Minted(0) in Requests.WithStatus(u.stores.quads, Accepted) && Minted(1) in SubjectsIn(u.stores.quads)
  {
    hide Take, Allowed, Inv, Requests.Inv, Naming, PostPolicy, Invariant, AcceptedFor, OnlyIris, Requests.WithStatus,
         SubjectsIn;
    var quads := t.stores.quads;
    var body := Naming(Iri("x"), Iri("y"), {Minted(1)}, Minted(1), Iri("me"));
    NamesAreFree();
    NamingIsPosted(quads, {"a"}, "x", "y", {Minted(1)}, Minted(1), Iri("me"));
    NamingIsOrdinary("x", "y", {Minted(1)}, Minted(1), Iri("me"));
    OrdinaryPolicyIsAllowed(t, body, Iri("me"));
    PolicyStepIs(t, PostPolicies(body, Iri("me")));
    PolicyStepKeepsInvariantIff(t, PostPolicies(body, Iri("me")));
    NamingLinks(quads, {"a"}, "x", "y", {Minted(1)}, Minted(1), Iri("me"));
    AcceptedHasStatus(quads, Minted(0), Iri("a"), Iri("p"), Known(Read));
    MoreQuads(t, body, Minted(0), Minted(1));
  }

  lemma NamesAreFree()
    ensures "x" !in {"a"} && "y" !in {"a"} && "x" != "y" && Iri("o") != Iri("me")
  {
    assert "x"[0] != "a"[0] && "y"[0] != "a"[0] && "x"[0] != "y"[0];
    assert |"o"| != |"me"|;
  }

  lemma MoreQuads(t: State, body: set<Quad>, r: Term, g: Term)
    requires Invariant(t) && g in t.granted && r in Requests.WithStatus(t.stores.quads, Accepted)
    ensures r in Requests.WithStatus(t.stores.quads + body, Accepted) && g in SubjectsIn(t.stores.quads + body)
  {
    hide Inv, Requests.Inv;
    RecordsHaveSerials(RequestsOf(t), g);
    assert Quad(r, RequestStatus, Known(Accepted)) in t.stores.quads + body;
  }

  // ----- a denied request is gone -----

  lemma OpenRequest() returns (s: State)
    ensures s == Take(Take(EMPTY, REGISTERING), DENYING[0])
    ensures Allowed(Take(EMPTY, REGISTERING), DENYING[0]) && Invariant(s)
    ensures AsAsked(s.stores.quads, Minted(0), READING, Iri("p")) && Iri("a") in OwnedTerms(s.stores, "o")
    ensures OnlyIris(s.stores.quads, {"a"}) && NoRules(s.stores.quads) && s.minted == 1
    ensures s.granted == map[] && s.stores.registrations.Keys == {"a"}
  {
    hide Take, Allowed, Invariant, AsAsked, OnlyIris, NoRules, Requests.Add, Requests.RequestQuads;
    var open := Take(EMPTY, REGISTERING);
    Registered();
    RegisteredSubjects();
    AskedState(open, READING, Iri("p"));
    s := Take(open, DENYING[0]);
    TakeKeepsInvariant(open, DENYING[0]);
    AskingIsAdding(open, READING, Iri("p"));
    Requests.AddIs(RequestsOf(open), READING, Iri("p"));
    AskingAdds(RequestsOf(open), READING, Iri("p"), {"a"});
  }

  lemma Rejecting(s: State, r: Term, json: Requests.AccessRequest, party: Term, owner: string)
    requires AsAsked(s.stores.quads, r, json, party)
    requires json.scopes != [] && json.resource in OwnedTerms(s.stores, owner)
    ensures var step := Deciding(r, owner, json.resource, party, Requests.Reject);
      && Allowed(s, step)
      && Take(s, step) == s.(stores := s.stores.(quads := Requests.Resolve(s.stores.quads, r, Requests.Reject)))
    ensures ObjectsOf(Requests.Resolve(s.stores.quads, r, Requests.Reject), r, RequestStatus) == {Known(Denied)}
  {
    hide ObjectsOf, OwnedTerms, Requests.Resolve, AsAsked, Requests.Check, Requests.Decided, Requests.WellFormed;
    RejectPassesChecks(s, r, json, party, owner);
    Requests.DecidedIs(RequestsOf(s), r, Iri(owner), json.resource, party, Requests.Reject);
    AskedIsOpen(s.stores.quads, r, json, party);
    Requests.ResolveEffect(s.stores.quads, r, Requests.Reject);
  }

  lemma AskedIsOpen(quads: set<Quad>, r: Term, json: Requests.AccessRequest, party: Term)
    requires AsAsked(quads, r, json, party)
    ensures ObjectsOf(quads, r, RequestStatus) == {Known(Requested)}
  {
    hide ObjectsOf;
  }

  lemma RejectPassesChecks(s: State, r: Term, json: Requests.AccessRequest, party: Term, owner: string)
    requires AsAsked(s.stores.quads, r, json, party)
    requires json.scopes != [] && json.resource in OwnedTerms(s.stores, owner)
    ensures var owned := OwnedTerms(s.stores, owner);
      && Requests.Check(s.stores.quads, r, owned, json.resource, Requests.Reject) == Requests.Done
      && Requests.WellFormed(RequestsOf(s),
           Requests.DecideRequest(r, Iri(owner), owned, json.resource, party, Requests.Reject))
  {
    hide ObjectsOf, OwnedTerms;
    assert json.scopes[0] in ObjectsOf(s.stores.quads, r, RequestedAction);
  }

  /** Removing only terms that are neither collections, nor their blank nodes, nor resources with relations. */
  lemma NamesKeepCollections(s: Stores, removed: set<Term>)
    requires Inv(s)
    requires forall x | x in removed :: x.Minted? || (x.Iri? && DescribedRelations(s, x.value) == {})
    ensures forall id | Iri(id) in removed :: DescribedRelations(s, id) == {}
    ensures forall m | Described(s, m) :: StaysDescribed(s.quads, removed, m)
  {
    hide DescribedRelations, Described, Inv;
    forall m | Described(s, m) ensures StaysDescribed(s.quads, removed, m) {
      DescribedIsLive(s, m);
      InvShape(s);
      var blank := TriplesOfLive(m, s.quads);
    }
  }

  lemma DeniedState() returns (t: State)
    ensures t == TakeAll(Take(EMPTY, REGISTERING), DENYING) && AllAllowed(Take(EMPTY, REGISTERING), DENYING)
    ensures Invariant(t) && ObjectsOf(t.stores.quads, Minted(0), RequestStatus) == {Known(Denied)}
    ensures OnlyIris(t.stores.quads, {"a"}) && NoRules(t.stores.quads)
    ensures t.granted == map[] && t.stores.registrations.Keys == {"a"}
  {
    hide Take, TakeAll, AllAllowed, Allowed, Invariant, AsAsked, OnlyIris, NoRules, ObjectsOf, OwnedTerms,
         Requests.Resolve;
    var asked := OpenRequest();
    t := Take(asked, DENYING[1]);
    Rejecting(asked, Minted(0), READING, Iri("p"), "o");
    TakeKeepsInvariant(asked, DENYING[1]);
    RejectingAdds(asked.stores.quads, Minted(0), {"a"});
    TwoSteps(Take(EMPTY, REGISTERING), DENYING[0], DENYING[1]);
  }

  /** A policy that names the term is posted and deleted again. */
  lemma PostedAndDeleted(t: State, ids: set<string>, c: Term, client: Term)
    requires Invariant(t) && OnlyIris(t.stores.quads, ids) && "x" !in ids && "y" !in ids && NoRules(t.stores.quads)
    ensures var body := Naming(Iri("x"), Iri("y"), {}, c, client);
      var post := WritingPolicies(PostPolicies(body, client));
      var u := Take(t, post);
      var v := Take(u, WritingPolicies(DeletePolicies(Iri("x"), client)));
      && PostPolicy(t.stores.quads, body, client).0 == Success && Allowed(t, post) && Invariant(u)
      && QuadsOf(v.stores.quads, c) == {} && v.stores.registrations == t.stores.registrations
      && (c in SubjectsIn(u.stores.quads) ==> c in SubjectsIn(GetPolicy(u.stores.quads, Iri("x"), client)))
      && SubjectsIn(GetPolicy(u.stores.quads, Iri("x"), client)) <= {Iri("x"), Iri("y"), c}
      && u.granted == t.granted && u.stores == t.stores.(quads := t.stores.quads + body)
  {
    hide Take, Allowed, Invariant, OnlyIris, Naming, QuadsOf, PostPolicy, GetPolicy, DeletePolicy, SubjectsIn;
    var body := Naming(Iri("x"), Iri("y"), {}, c, client);
    assert |"x"| == 1 && "x"[0] != "y"[0];
    NamingIsPosted(t.stores.quads, ids, "x", "y", {}, c, client);
    NamingIsOrdinary("x", "y", {}, c, client);
    OrdinaryPolicyIsAllowed(t, body, client);
    PolicyStepIs(t, PostPolicies(body, client));
    PolicyStepKeepsInvariantIff(t, PostPolicies(body, client));
    var u := Take(t, WritingPolicies(PostPolicies(body, client)));
    PolicyStepIs(u, DeletePolicies(Iri("x"), client));
    NamedIsDeleted(u.stores.quads, Iri("x"), Iri("y"), {}, c, client, Iri("x"));
    NamingLinks(t.stores.quads, ids, "x", "y", {}, c, client);
    OnlyNamedIsExtracted(u.stores.quads, Iri("x"), Iri("y"), c, client, Iri("x"));
  }

  /** The requester posts a policy whose constraint names the denied request, and deletes it: the request is gone.
      Both steps keep the invariants, only finality is lost. */
  lemma DenialIsErased()
    ensures var t := TakeAll(Take(EMPTY, REGISTERING), DENYING);
      var body := Naming(Iri("x"), Iri("y"), {}, Minted(0), Iri("p"));
      var u := Take(t, WritingPolicies(PostPolicies(body, Iri("p"))));
      var v := Take(u, WritingPolicies(DeletePolicies(Iri("x"), Iri("p"))));
      && AllAllowed(Take(EMPTY, REGISTERING), DENYING) && Invariant(t)
      && ObjectsOf(t.stores.quads, Minted(0), RequestStatus) == {Known(Denied)}
      && PostPolicy(t.stores.quads, body, Iri("p")).0 == Success && Invariant(u) && Invariant(v)
      && QuadsOf(v.stores.quads, Minted(0)) == {}
  {
    hide Take, TakeAll, AllAllowed, Allowed, Invariant, OnlyIris, NoRules, Naming, ObjectsOf, QuadsOf, PostPolicy,
         GetPolicy, SubjectsIn;
    var t := DeniedState();
    NamesAreFree();
    PostedAndDeleted(t, {"a"}, Minted(0), Iri("p"));
    var u := Take(t, WritingPolicies(PostPolicies(Naming(Iri("x"), Iri("y"), {}, Minted(0), Iri("p")), Iri("p"))));
    UngrantedDelete(u, Iri("x"), Iri("p"));
  }

  lemma UngrantedDelete(u: State, uid: Term, client: Term)
    requires Invariant(u) && u.granted == map[] && u.stores.registrations.Keys == {"a"}
    requires SubjectsIn(GetPolicy(u.stores.quads, uid, client)) <= {Iri("x"), Iri("y"), Minted(0)}
    ensures Invariant(Take(u, WritingPolicies(DeletePolicies(uid, client))))
  {
    hide GetPolicy, Take, SubjectsIn, Inv, Requests.Inv, Described, StaysDescribed;
    NamesAreFree();
    NamesKeepCollections(u.stores, SubjectsIn(GetPolicy(u.stores.quads, uid, client)));
    DeleteKeepsInvariantIff(u, uid, client);
  }

  // ----- a body with the vocabulary of requests -----

  /** The policy of a body is looked at, the rest of the body is stored with it: here a status of something that is no
      request. */
  lemma StatusIsPosted()
    ensures var body := Naming(Iri("x"), Iri("y"), {}, Iri("c"), Iri("me"))
                      + {Quad(Iri("x"), RequestStatus, Known(Accepted))};
      && PostPolicy(EMPTY.stores.quads, body, Iri("me")).0 == Success && Invariant(EMPTY)
      && !Requests.Inv(RequestsOf(Take(EMPTY, WritingPolicies(PostPolicies(body, Iri("me"))))))
  {
    hide Requests.Inv, Inv, CheckPolicy, Naming, Take;
    EmptyIsInvariant();
    var naming := Naming(Iri("x"), Iri("y"), {}, Iri("c"), Iri("me"));
    var q := Quad(Iri("x"), RequestStatus, Known(Accepted));
    var body := naming + {q};
    NamingIsPolicy(Iri("x"), Iri("y"), {}, Iri("c"), Iri("me"), body);
    NamingSubjects(Iri("x"), Iri("y"), {}, Iri("c"), Iri("me"));
    assert !Clashes({}, body);
    hide Clashes;
    PolicyStepIs(EMPTY, PostPolicies(body, Iri("me")));
    PlainWriteKeepsInvIff(RequestsOf(EMPTY), {}, body);
    NothingOverwritten({}, body);
    assert q in body && Requests.OfRequest(q);
  }

  /** A PUT does not look at the subjects of its body: here the open request gets a second status. */
  lemma StatusIsDoubled()
    ensures var s := Take(Take(EMPTY, REGISTERING), DENYING[0]);
      var body := Naming(Iri("x"), Iri("y"), {}, Iri("c"), Iri("me"))
                + {Quad(Minted(0), RequestStatus, Known(Denied))};
      var quads := Take(s, WritingPolicies(PutPolicies(Iri("x"), body, Iri("me")))).stores.quads;
      && Invariant(s) && ObjectsOf(s.stores.quads, Minted(0), RequestStatus) == {Known(Requested)}
      && PutPolicy(s.stores.quads, Iri("x"), body, Iri("me")).0 == Success
      && ObjectsOf(quads, Minted(0), RequestStatus) == {Known(Requested), Known(Denied)}
  {
    hide Take, Invariant, AsAsked, OnlyIris, NoRules, Naming, ObjectsOf, CheckPolicy, GetPolicy, OwnedTerms,
         Overwritten;
    var s := OpenRequest();
    var naming := Naming(Iri("x"), Iri("y"), {}, Iri("c"), Iri("me"));
    var body := naming + {Quad(Minted(0), RequestStatus, Known(Denied))};
    NamingIsPolicy(Iri("x"), Iri("y"), {}, Iri("c"), Iri("me"), body);
    NamingSubjects(Iri("x"), Iri("y"), {}, Iri("c"), Iri("me"));
    AskedIsOpen(s.stores.quads, Minted(0), READING, Iri("p"));
    PolicyStepIs(s, PutPolicies(Iri("x"), body, Iri("me")));
    NothingIsExtracted(s.stores.quads, Iri("x"), Iri("me"));
    NothingOverwritten(s.stores.quads, body);
    Requests.OverwrittenObjects(s.stores.quads, {}, body, Minted(0), RequestStatus);
  }

  lemma NothingIsExtracted(quads: set<Quad>, uid: Term, client: Term)
    requires NoRules(quads)
    ensures GetPolicy(quads, uid, client) == {} && SubjectsIn(GetPolicy(quads, uid, client)) == {}
  {
    StrangersSeeNothing(quads, uid, client);
    hide GetPolicy;
  }

  // ----- a membership is gone -----

  const CONTAINING := Serving(PostResource("o", CONTAINED, "x"))

  lemma ContainedState() returns (s: State)
    ensures s == Take(Take(EMPTY, REGISTERING), CONTAINING) && Invariant(s)
    ensures Allowed(Take(EMPTY, REGISTERING), CONTAINING)
    ensures OnlyIris(s.stores.quads, {"a", "u"}) && NoRules(s.stores.quads)
    ensures Meta("c", "a", false) in DescribedRelations(s.stores, "u")
  {
    var open := Take(EMPTY, REGISTERING);
    Registered();
    RegisteredSubjects();
    ContainedRelations();
    ContainerState();
    hide Take, Serve, Inv, Requests.Inv, Live, DefaultsOf, RelationsOf, OnlyIris, NoRules;
    ContainerIsLive(open.stores);
    Registers(open.stores, CONTAINING.request, "u");
    RegisteringAdds(open.stores, CONTAINING.request, "u", {"a"});
    assert {"a"} + {"u"} == {"a", "u"};
    s := Take(open, CONTAINING);
    ServingIs(open, CONTAINING.request);
    TakeKeepsInvariant(open, CONTAINING);
  }

  lemma ContainerState()
    ensures var s := Take(EMPTY, REGISTERING).stores;
      "a" in s.registrations && s.registrations["a"].description == CONTAINER && "u" !in s.registrations
  {
    EmptyIsInvariant();
    ContainerMetas();
    hide Serve, Inv, RelationsOf, DefaultsOf;
    Registers(Empty, REGISTERING.request, "a");
    assert "u"[0] != "a"[0];
  }

  lemma ServingIs(s: State, r: Request)
    ensures Take(s, Serving(r)).stores == Serve(s.stores, r).1
  {}

  /** A policy whose constraint names a resource is posted and deleted: the memberships of the resource are gone, and
      its description still has them. */
  lemma MembershipIsErased()
    ensures var s := Take(Take(EMPTY, REGISTERING), CONTAINING);
      var body := Naming(Iri("x"), Iri("y"), {}, Iri("u"), Iri("me"));
      var u := Take(s, WritingPolicies(PostPolicies(body, Iri("me"))));
      var v := Take(u, WritingPolicies(DeletePolicies(Iri("x"), Iri("me"))));
      var m := Meta("c", "a", false);
      && Invariant(s) && PostPolicy(s.stores.quads, body, Iri("me")).0 == Success && Invariant(u)
      && m in DescribedRelations(v.stores, "u") && !PartOfCollection("u", m, v.stores.quads)
  {
    hide Take, Allowed, Invariant, OnlyIris, NoRules, Naming, QuadsOf, PostPolicy, GetPolicy, RelationsOf;
    var s := ContainedState();
    assert "x"[0] != "a"[0] && "x"[0] != "u"[0] && "y"[0] != "a"[0] && "y"[0] != "u"[0];
    PostedAndDeleted(s, {"a", "u"}, Iri("u"), Iri("me"));
    var body := Naming(Iri("x"), Iri("y"), {}, Iri("u"), Iri("me"));
    var u := Take(s, WritingPolicies(PostPolicies(body, Iri("me"))));
    NoQuadsNoMembership(Take(u, WritingPolicies(DeletePolicies(Iri("x"), Iri("me")))).stores.quads, "u");
  }

  lemma NoQuadsNoMembership(quads: set<Quad>, id: string)
    requires QuadsOf(quads, Iri(id)) == {}
    ensures forall m :: !PartOfCollection(id, m, quads)
  {
    forall m ensures !PartOfCollection(id, m, quads) {
      assert Quad(Iri(id), PartOf, Collection(m)) !in QuadsOf(quads, Iri(id));
    }
  }
}
