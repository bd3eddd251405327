/** The policy of an accepted request: who finds it, and what it grants in every later state of the server. */
module AcceptedPolicy {
  import opened Rdf
  import opened Permissions
  import opened PolicyView
  import opened AcceptedAccess
  import opened SharedStore
  import AuthorizationServer
  import Requests = AccessRequests
  import Odrl = SimpleOdrlAuthorizer

  // ----- the policy endpoint -----

  /** Where the quads of the store come from. */
  lemma AcceptedQuad(quads: set<Quad>, request: Term, policy: Term, target: Term, party: Term, owner: Term, q: Quad)
    requires policy.Minted? && q in StoreAfter(quads, request, policy, target, party, owner) && q.p != RequestStatus
    ensures q in quads || (q.s == policy || q.s == PermissionOf(policy))
    ensures q !in quads && q.p == HasPermission ==> q.o == PermissionOf(policy)
    ensures q !in quads && q.p == Uid ==> q.s == policy
    ensures q !in quads && q.p == Assigner ==> q.o == owner
    ensures q !in quads && q.p == Target ==> q.s == PermissionOf(policy)
  {
    hide Requests.PolicyQuads, ObjectsOf;
    var resolved := Requests.Resolve(quads, request, Requests.Accept);
    if q !in resolved { Requests.GeneratedQuad(resolved, request, policy, target, party, owner, q); }
  }

  lemma PolicyIsStored(quads: set<Quad>, request: Term, policy: Term, target: Term, party: Term, owner: Term)
    requires policy.Minted?
    ensures var after := StoreAfter(quads, request, policy, target, party, owner);
      && Quad(policy, RdfType, Known(Agreement)) in after && Quad(policy, Uid, policy) in after
      && Quad(policy, HasPermission, PermissionOf(policy)) in after
      && Quad(PermissionOf(policy), Assigner, owner) in after && Quad(PermissionOf(policy), Target, target) in after
  {
    hide Requests.PolicyQuads, ObjectsOf;
    Requests.GeneratedQuads(Requests.Resolve(quads, request, Requests.Accept), request, policy, target, party, owner);
  }

  /** The owner who accepted finds the generated policy through the policy endpoint, with its permission. */
  lemma OwnerFindsPolicy(quads: set<Quad>, request: Term, policy: Term, target: Term, party: Term, owner: Term)
    requires policy.Minted?
    ensures var after := StoreAfter(quads, request, policy, target, party, owner);
      && QuadsOf(after, policy) + QuadsOf(after, PermissionOf(policy)) <= GetPolicy(after, policy, owner)
      && Quad(policy, HasPermission, PermissionOf(policy)) in GetPolicy(after, policy, owner)
  {
    hide StoreAfter, View;
    var after := StoreAfter(quads, request, policy, target, party, owner);
    var permission := PermissionOf(policy);
    PolicyIsStored(quads, request, policy, target, party, owner);
    assert Quad(permission, Target, target) in after;
    assert IsRow(after, Some(policy), owner, policy, permission);
    RowIsViewed(after, Some(policy), owner, policy, permission);
    hide IsRow;
    assert QuadsOf(after, policy) + QuadsOf(after, permission) <= RowQuads(after, Some(policy), policy, permission);
  }

  /** Nobody else finds any of it. */
  lemma OthersFindNothing(quads: set<Quad>, request: Term, policy: Term, target: Term, party: Term, owner: Term,
                          other: Term)
    requires policy.Minted? && other != owner
    requires forall q | q in quads :: q.s != policy && q.o != policy && q.s != PermissionOf(policy)
    ensures GetPolicy(StoreAfter(quads, request, policy, target, party, owner), policy, other) == {}
  {
    hide StoreAfter, View;
    var after := StoreAfter(quads, request, policy, target, party, owner);
    forall p, permission | Quad(p, Uid, policy) in after && Quad(p, HasPermission, permission) in after
      ensures Quad(permission, Assigner, other) !in after
    {
      AcceptedQuad(quads, request, policy, target, party, owner, Quad(p, Uid, policy));
      AcceptedQuad(quads, request, policy, target, party, owner, Quad(p, HasPermission, permission));
      var assigner := Quad(permission, Assigner, other);
      if assigner in after { AcceptedQuad(quads, request, policy, target, party, owner, assigner); }
    }
    StrangersSeeNothing(after, policy, other);
  }

  // ----- deleting a generated policy -----

  /** Whoever assigns the permission of a generated policy can delete it: the request is still accepted, and nothing
      answers it any more. */
  lemma DeletedPolicyLeavesNoAnswer(s: Requests.Store, g: Term, owner: Term)
    requires Requests.Inv(s) && g in s.granted && Quad(PermissionOf(g), Assigner, owner) in s.quads
    requires s.granted[g] !in SubjectsIn(GetPolicy(s.quads, g, owner))
    ensures var after := s.quads - GetPolicy(s.quads, g, owner);
      && s.granted[g] in Requests.WithStatus(after, Accepted) && g !in Requests.Agreements(after)
      && !Requests.Inv(s.(quads := after))
  {
    hide GetPolicy, Requests.Mirrors, Requests.RequestOk, Requests.Attributed, Requests.Dated;
    var after := s.quads - GetPolicy(s.quads, g, owner);
    GeneratedIsViewed(s, g, owner);
    assert Quad(g, RdfType, Known(Agreement)) !in after;
    NotTyped(after, g);
    assert s.granted[g] in s.granted.Values;
    assert Quad(s.granted[g], RequestStatus, Known(Accepted)) in after;
    hide Requests.Agreements;
  }

  lemma NotTyped(quads: set<Quad>, g: Term)
    requires Quad(g, RdfType, Known(Agreement)) !in quads
    ensures g !in Requests.Agreements(quads)
  {}

  lemma GeneratedIsViewed(s: Requests.Store, g: Term, owner: Term)
    requires Requests.Inv(s) && g in s.granted && Quad(PermissionOf(g), Assigner, owner) in s.quads
    ensures Quad(g, RdfType, Known(Agreement)) in GetPolicy(s.quads, g, owner)
  {
    hide View, RowQuads, IsRow;
    var permission := PermissionOf(g);
    GeneratedLinks(s, g);
    ObjectsAndQuads(s.quads, g, permission);
    GeneratedRow(s.quads, g, owner);
    RowIsViewed(s.quads, Some(g), owner, g, permission);
    TypeIsExtracted(s.quads, g, permission);
  }

  lemma GeneratedLinks(s: Requests.Store, g: Term)
    requires Requests.Inv(s) && g in s.granted
    ensures Quad(g, RdfType, Known(Agreement)) in s.quads && Requests.Mirrors(s.quads, g, s.granted[g])
    ensures ObjectsOf(s.quads, PermissionOf(g), Target) != {}
  {
    hide ObjectsOf, Requests.Dated, Requests.Attributed;
    Requests.AcceptedIsTyped(s.quads);
    assert s.granted[g] in s.granted.Values;
    assert g in Requests.Agreements(s.quads);
    assert Requests.RequestOk(s.quads, s.granted[g]);
  }

  lemma ObjectsAndQuads(quads: set<Quad>, g: Term, permission: Term)
    requires ObjectsOf(quads, g, HasPermission) == {permission} && ObjectsOf(quads, g, Uid) == {g}
    ensures Quad(g, HasPermission, permission) in quads && Quad(g, Uid, g) in quads
  {
    assert permission in ObjectsOf(quads, g, HasPermission) && g in ObjectsOf(quads, g, Uid);
  }

  lemma GeneratedRow(quads: set<Quad>, g: Term, owner: Term)
    requires Quad(g, RdfType, Known(Agreement)) in quads && Quad(PermissionOf(g), Assigner, owner) in quads
    requires Quad(g, HasPermission, PermissionOf(g)) in quads && Quad(g, Uid, g) in quads
    requires ObjectsOf(quads, PermissionOf(g), Target) != {}
    ensures IsRow(quads, Some(g), owner, g, PermissionOf(g))
  {
    var target :| target in ObjectsOf(quads, PermissionOf(g), Target);
    assert Quad(PermissionOf(g), Target, target) in quads;
  }

  lemma TypeIsExtracted(store: set<Quad>, policy: Term, permission: Term)
    requires Quad(policy, RdfType, Known(Agreement)) in store
    ensures Quad(policy, RdfType, Known(Agreement)) in RowQuads(store, Some(policy), policy, permission)
  {}

  // ----- from acceptance to access -----

  /** The request is accepted and unconstrained, and this is what it asks for. */
  ghost predicate AcceptedFor(quads: set<Quad>, r: Term, target: Term, party: Term, scope: Term) {
    && r in Requests.WithStatus(quads, Accepted) && ObjectsOf(quads, r, HasConstraint) == {}
    && target in ObjectsOf(quads, r, RequestedTarget) && party in ObjectsOf(quads, r, RequestingParty)
    && scope in ObjectsOf(quads, r, RequestedAction)
  }

  /** No policy forbids what the generated permission allows, and no other rule that applies interferes. */
  ghost predicate Undisturbed(e: Odrl.Env, store: seq<Quad>, claims: ClaimSet, target: Term, scope: Term, rule: Term) {
    && (forall q | q in store && q.o == rule :: q.p != HasProhibition)
    && OthersBehave(e, store, claims, target, scope, rule)
  }

  /** Every accepted request has a generated policy of its own. */
  lemma PolicyOf(s: Requests.Store, r: Term) returns (g: Term)
    requires Requests.Inv(s) && r in Requests.WithStatus(s.quads, Accepted)
    ensures g in s.granted && s.granted[g] == r && g.Minted? && Requests.Mirrors(s.quads, g, r)
  {
    hide Requests.Mirrors, Requests.Dated, Requests.Attributed, Requests.RequestOk, Requests.WithStatus;
    assert r in s.granted.Values;
    g :| g in s.granted && s.granted[g] == r;
  }

  lemma AcceptedParties(s: Requests.Store, r: Term, target: Term, party: Term, scope: Term)
    requires Requests.Inv(s) && AcceptedFor(s.quads, r, target, party, scope)
    ensures ObjectsOf(s.quads, r, RequestedTarget) == {target} && ObjectsOf(s.quads, r, RequestingParty) == {party}
  {
    Requests.AcceptedIsTyped(s.quads);
    assert Requests.RequestOk(s.quads, r);
    hide Requests.Inv, Requests.WithStatus, Requests.Typed, ObjectsOf;
    Requests.Singleton(ObjectsOf(s.quads, r, RequestedTarget), target);
    Requests.Singleton(ObjectsOf(s.quads, r, RequestingParty), party);
  }

  lemma MirroredIsGenerated(quads: set<Quad>, r: Term, g: Term, target: Term, party: Term)
    requires Requests.Mirrors(quads, g, r) && (forall q | q in quads && q.o == PermissionOf(g) :: q.p != HasProhibition)
    requires ObjectsOf(quads, r, RequestedTarget) == {target} && ObjectsOf(quads, r, RequestingParty) == {party}
    ensures Generated(quads, quads, r, g, target, party)
  {
    assert PermissionOf(g) in ObjectsOf(quads, g, HasPermission);
    assert Quad(g, HasPermission, PermissionOf(g)) in quads;
    hide ObjectsOf;
  }

  /** In every state, however much was asked, decided and written since: an accepted, unconstrained request gives
      its party each requested scope that is not a CSS scope, as long as no other rule interferes. */
  lemma AcceptedIsGranted(e: Odrl.Env, store: seq<Quad>, s: Requests.Store, r: Term, g: Term, target: Term,
                          party: Term, claims: ClaimSet, scope: Term)
    requires Requests.Inv(s) && Lists(store, s.quads) && AcceptedFor(s.quads, r, target, party, scope)
    requires g.Minted? && Requests.Mirrors(s.quads, g, r)
    requires Identifies(e, claims, party) && Undisturbed(e, store, claims, target, scope, PermissionOf(g))
    requires !IsCssScope(scope)
    ensures Odrl.Decide(e, store, claims, target, scope) == Odrl.Grant
  {
    hide Odrl.Candidates, Odrl.RuleVerdict, Odrl.PlainPermission, Odrl.Decide, Requests.Inv, Requests.Mirrors,
         Generated, Identifies, ObjectsOf, Requests.WithStatus;
    AcceptedParties(s, r, target, party, scope);
    MirroredIsGenerated(s.quads, r, g, target, party);
    GeneratedCandidate(e, store, s.quads, s.quads, r, g, target, party, claims, scope);
    Odrl.GrantedIff(e, store, claims, target, scope);
  }

  /** In every reachable state of the server, every accepted request has its own generated policy, and is granted. */
  lemma ReachableIsGranted(start: State, steps: seq<Step>, r: Term, target: Term, party: Term, scope: Term,
                           e: Odrl.Env, store: seq<Quad>, claims: ClaimSet) returns (g: Term)
    requires AuthorizationServer.Inv(start.stores) && Requests.Unasked(RequestsOf(start)) && AllAllowed(start, steps)
    requires Lists(store, TakeAll(start, steps).stores.quads)
    requires AcceptedFor(TakeAll(start, steps).stores.quads, r, target, party, scope) && !IsCssScope(scope)
    requires Identifies(e, claims, party)
    ensures g in TakeAll(start, steps).granted && TakeAll(start, steps).granted[g] == r
    ensures Undisturbed(e, store, claims, target, scope, PermissionOf(g)) ==>
      Odrl.Decide(e, store, claims, target, scope) == Odrl.Grant
  {
    hide Odrl.Decide, Undisturbed, Identifies, AuthorizationServer.Inv, Requests.Inv, Requests.Mirrors, TakeAll,
         Requests.Unasked, AllAllowed, Requests.WithStatus, ObjectsOf, Lists;
    ReachableInvariant(start, steps);
    var s := RequestsOf(TakeAll(start, steps));
    g := PolicyOf(s, r);
    if Undisturbed(e, store, claims, target, scope, PermissionOf(g)) {
      AcceptedIsGranted(e, store, s, r, g, target, party, claims, scope);
    }
  }

  // ----- from acceptance to access, whatever else is in the store -----

  /** The owner accepts a request of the party for the target, in some state of the server. */
  ghost predicate Accepts(s: State, r: Term, owner: string, target: Term, party: Term) {
    && Requests.Dated(RequestsOf(s))
    && Requests.WellFormed(RequestsOf(s), OperationOf(s, Deciding(r, owner, target, party, Requests.Accept)))
    && Requests.Check(s.stores.quads, r, OwnedTerms(s.stores, owner), target, Requests.Accept) == Requests.Done
  }

  function AfterAccepting(s: State, r: Term, owner: string, target: Term, party: Term): State {
    Take(s, Deciding(r, owner, target, party, Requests.Accept))
  }

  /** No request to the policy endpoint changes what the policy and its permission say. */
  ghost predicate LeavesPolicy(s: State, steps: seq<Step>, g: Term) {
    && AllKeepSaying(s, steps, g, HasPermission)
    && forall p | p in {Target, Action, Assignee, HasConstraint, OvcConstraint} ::
         AllKeepSaying(s, steps, PermissionOf(g), p)
  }

  lemma AcceptingIsDecided(s: State, r: Term, owner: string, target: Term, party: Term)
    requires Accepts(s, r, owner, target, party)
    ensures RequestsOf(AfterAccepting(s, r, owner, target, party))
         == Requests.Decided(RequestsOf(s), r, Iri(owner), target, party, Requests.Accept)
  {
    hide Requests.Check, Requests.Decided, Requests.Dated;
  }

  lemma ResolvedIsDated(s: Requests.Store, r: Term, target: Term)
    requires Requests.Dated(s) && target in ObjectsOf(s.quads, r, RequestedTarget)
    ensures Requests.Dated(s.(quads := Requests.Resolve(s.quads, r, Requests.Accept)))
  {
    assert Quad(r, RequestedTarget, target) in s.quads;
  }

  lemma AcceptedTarget(s: State, r: Term, owner: string, target: Term, party: Term)
    requires Accepts(s, r, owner, target, party)
    ensures target in ObjectsOf(s.stores.quads, r, RequestedTarget)
  {
    hide Requests.Dated, ObjectsOf;
    Requests.DoneHasParties(RequestsOf(s), OperationOf(s, Deciding(r, owner, target, party, Requests.Accept)));
  }

  /** What the store says about the generated policy right after acceptance. */
  lemma JustGenerated(s: State, r: Term, owner: string, target: Term, party: Term)
    requires Accepts(s, r, owner, target, party)
    ensures var quads := AfterAccepting(s, r, owner, target, party).stores.quads;
      var g, permission := Minted(s.minted), PermissionOf(Minted(s.minted));
      && ObjectsOf(quads, g, HasPermission) == {permission}
      && ObjectsOf(quads, permission, Target) == {target} && ObjectsOf(quads, permission, Assignee) == {party}
      && ObjectsOf(quads, permission, Action) == ObjectsOf(s.stores.quads, r, RequestedAction)
      && ObjectsOf(quads, permission, HasConstraint) == ObjectsOf(s.stores.quads, r, HasConstraint)
      && ObjectsOf(quads, permission, OvcConstraint) == {}
    ensures AfterAccepting(s, r, owner, target, party).minted == s.minted + 1
  {
    hide ObjectsOf, Requests.PolicyQuads, Requests.Decided, Requests.Dated, Requests.Check, Requests.WellFormed,
         AfterAccepting, Requests.Resolve;
    var requests := RequestsOf(s);
    var resolved := Requests.Resolve(s.stores.quads, r, Requests.Accept);
    var added := Requests.PolicyQuads(resolved, r, Minted(s.minted), target, party, Iri(owner));
    AcceptingIsDecided(s, r, owner, target, party);
    AcceptedTarget(s, r, owner, target, party);
    Requests.DecidedIs(requests, r, Iri(owner), target, party, Requests.Accept);
    ResolvedIsDated(requests, r, target);
    ResolvedObjects(s.stores.quads, r, RequestedAction);
    ResolvedObjects(s.stores.quads, r, HasConstraint);
    Requests.PermissionObjects(requests, resolved, r, target, party, Iri(owner));
    forall x, p | x in {Minted(s.minted), PermissionOf(Minted(s.minted))}
      ensures ObjectsOf(resolved + added, x, p) == ObjectsOf(added, x, p)
    {
      Requests.FreshSubjects(requests.(quads := resolved), resolved + added, added, x, p);
    }
  }

  /** As long as the policy endpoint leaves it alone, the store goes on saying this, whatever else happens. */
  lemma StillGenerated(s: State, r: Term, owner: string, target: Term, party: Term, steps: seq<Step>, quads: set<Quad>)
    requires Accepts(s, r, owner, target, party)
    requires LeavesPolicy(AfterAccepting(s, r, owner, target, party), steps, Minted(s.minted))
    requires quads == TakeAll(AfterAccepting(s, r, owner, target, party), steps).stores.quads
    requires forall q | q in quads && q.o == PermissionOf(Minted(s.minted)) :: q.p != HasProhibition
    ensures Generated(quads, s.stores.quads, r, Minted(s.minted), target, party)
  {
    hide ObjectsOf, Accepts, AfterAccepting, TakeAll, AllKeepSaying;
    var t, g := AfterAccepting(s, r, owner, target, party), Minted(s.minted);
    JustGenerated(s, r, owner, target, party);
    RunKeepsRule(t, steps, g, HasPermission);
    forall p | p in {Target, Action, Assignee, HasConstraint, OvcConstraint}
      ensures ObjectsOf(quads, PermissionOf(g), p) == ObjectsOf(t.stores.quads, PermissionOf(g), p)
    {
      RunKeepsRule(t, steps, PermissionOf(g), p);
    }
    LinkIsThere(quads, g);
  }

  lemma LinkIsThere(quads: set<Quad>, g: Term)
    requires ObjectsOf(quads, g, HasPermission) == {PermissionOf(g)}
    ensures Quad(g, HasPermission, PermissionOf(g)) in quads
  {
    assert PermissionOf(g) in ObjectsOf(quads, g, HasPermission);
  }

  /** Whatever was in the store before, and whatever is asked, decided, registered and written after the owner
      accepted a request: the policies give the party each requested scope that is not a CSS scope, as long as the
      generated policy is left alone and no other rule interferes. */
  lemma AskAcceptGranted(s: State, r: Term, owner: string, target: Term, party: Term, steps: seq<Step>,
                         e: Odrl.Env, store: seq<Quad>, claims: ClaimSet, scope: Term)
    requires Accepts(s, r, owner, target, party) && ObjectsOf(s.stores.quads, r, HasConstraint) == {}
    requires scope in ObjectsOf(s.stores.quads, r, RequestedAction) && !IsCssScope(scope)
    requires LeavesPolicy(AfterAccepting(s, r, owner, target, party), steps, Minted(s.minted))
    requires Lists(store, TakeAll(AfterAccepting(s, r, owner, target, party), steps).stores.quads)
    requires Identifies(e, claims, party)
    requires Undisturbed(e, store, claims, target, scope, PermissionOf(Minted(s.minted)))
    ensures Odrl.Decide(e, store, claims, target, scope) == Odrl.Grant
  {
    hide Odrl.Candidates, Odrl.RuleVerdict, Odrl.PlainPermission, Odrl.Decide, Accepts, Generated, Identifies,
         ObjectsOf, AfterAccepting, TakeAll, LeavesPolicy;
    var quads := TakeAll(AfterAccepting(s, r, owner, target, party), steps).stores.quads;
    StillGenerated(s, r, owner, target, party, steps, quads);
    GeneratedCandidate(e, store, quads, s.stores.quads, r, Minted(s.minted), target, party, claims, scope);
    Odrl.GrantedIff(e, store, claims, target, scope);
  }

  /** Nothing interferes when no other rule targets the resource or a collection that it is part of. */
  lemma OnlyRuleIsUndisturbed(e: Odrl.Env, store: seq<Quad>, claims: ClaimSet, resource: Term, scope: Term, rule: Term)
    requires forall q | q in store && q.o == rule :: q.p != HasProhibition
    requires forall q | q in store && q.p == Target && (q.o == resource || Quad(resource, PartOf, q.o) in store) ::
      q.s == rule
    ensures Undisturbed(e, store, claims, resource, scope, rule)
  {
    hide Odrl.Candidates, Odrl.RuleVerdict, Odrl.PlainPermission, Odrl.ActionMatches, Odrl.AssigneeMatches;
    forall r | r in Odrl.Candidates(e, store, claims, resource, scope) ensures r == rule {
      CandidateIff(e, store, claims, resource, scope, r);
      var t :| (t == resource || Quad(resource, PartOf, t) in store) && Quad(r, Target, t) in store;
    }
  }

  // ----- asking and accepting, in any state -----

  /** The store describes the request as it was asked. */
  ghost predicate AsAsked(quads: set<Quad>, r: Term, json: Requests.AccessRequest, party: Term) {
    && ObjectsOf(quads, r, RequestedTarget) == {json.resource}
    && ObjectsOf(quads, r, RequestingParty) == {party}
    && ObjectsOf(quads, r, RequestStatus) == {Known(Requested)}
    && ObjectsOf(quads, r, RequestedAction) == (set s | s in json.scopes)
    && ObjectsOf(quads, r, HasConstraint) == {}
  }

  lemma NoConstraints(r: Term, json: Requests.AccessRequest)
    requires json.constraints == []
    ensures Requests.ConstraintQuads(r, json.constraints, 1) == {}
  {}

  lemma RequestQuad(r: Term, json: Requests.AccessRequest, party: Term, q: Quad)
    requires Requests.ConstraintQuads(r, json.constraints, 1) == {} && q in Requests.RequestQuads(r, json, party)
    ensures q.s == r && q.p != HasConstraint
    ensures q.p == RequestedTarget ==> q.o == json.resource
    ensures q.p == RequestingParty ==> q.o == party
    ensures q.p == RequestStatus ==> q.o == Known(Requested)
    ensures q.p == RequestedAction ==> q.o in json.scopes
  {
    hide Requests.ConstraintQuads;
  }

  lemma RequestHas(r: Term, json: Requests.AccessRequest, party: Term)
    ensures var quads := Requests.RequestQuads(r, json, party);
      && Quad(r, RequestedTarget, json.resource) in quads && Quad(r, RequestingParty, party) in quads
      && Quad(r, RequestStatus, Known(Requested)) in quads
      && forall s | s in json.scopes :: Quad(r, RequestedAction, s) in quads
  {
    hide Requests.ConstraintQuads;
  }

  lemma RequestReads(r: Term, json: Requests.AccessRequest, party: Term)
    requires json.constraints == []
    ensures AsAsked(Requests.RequestQuads(r, json, party), r, json, party)
  {
    hide ObjectsOf, Requests.RequestQuads;
    var quads := Requests.RequestQuads(r, json, party);
    NoConstraints(r, json);
    hide Requests.ConstraintQuads;
    RequestHas(r, json, party);
    forall q | q in quads
      ensures q.p != HasConstraint
      ensures q.p == RequestedTarget ==> q.o == json.resource
      ensures q.p == RequestingParty ==> q.o == party
      ensures q.p == RequestStatus ==> q.o == Known(Requested)
      ensures q.p == RequestedAction ==> q.o in json.scopes
    {
      RequestQuad(r, json, party, q);
    }
    ObjectsAre(quads, r, RequestedTarget, {json.resource});
    ObjectsAre(quads, r, RequestingParty, {party});
    ObjectsAre(quads, r, RequestStatus, {Known(Requested)});
    ObjectsAre(quads, r, RequestedAction, set s | s in json.scopes);
    ObjectsAre(quads, r, HasConstraint, {});
  }

  lemma AddedReads(s: Requests.Store, json: Requests.AccessRequest, party: Term)
    requires Requests.Inv(s) && json.scopes != [] && json.constraints == []
    ensures AsAsked(Requests.Add(s, json, party).1.quads, Minted(s.serial), json, party)
  {
    hide Requests.RequestQuads, Requests.Add, Requests.Inv, Requests.Dated, ObjectsOf;
    var r := Minted(s.serial);
    var added := Requests.RequestQuads(r, json, party);
    Requests.AddIs(s, json, party);
    Requests.InvParts(s);
    RequestReads(r, json, party);
    forall p ensures ObjectsOf(s.quads + added, r, p) == ObjectsOf(added, r, p) {
      Requests.FreshSubjects(s, s.quads + added, added, r, p);
    }
  }

  lemma AskedPassesChecks(s: Requests.Store, r: Term, json: Requests.AccessRequest, party: Term, owned: set<Term>)
    requires AsAsked(s.quads, r, json, party) && json.scopes != [] && json.resource in owned
    ensures Requests.Check(s.quads, r, owned, json.resource, Requests.Accept) == Requests.Done
    ensures forall client :: Requests.WellFormed(s,
      Requests.DecideRequest(r, client, owned, json.resource, party, Requests.Accept))
  {
    hide ObjectsOf;
    assert json.scopes[0] in ObjectsOf(s.quads, r, RequestedAction);
  }

  lemma AcceptedReads(s: Requests.Store, r: Term, json: Requests.AccessRequest, party: Term, owned: set<Term>,
                      client: Term, scope: Term)
    requires Requests.Inv(s) && AsAsked(s.quads, r, json, party)
    requires json.resource in owned && scope in json.scopes
    ensures AcceptedFor(Requests.Decided(s, r, client, json.resource, party, Requests.Accept).quads,
                        r, json.resource, party, scope)
  {
    hide ObjectsOf, Requests.Inv, Requests.Typed, Requests.Decided, Requests.RequestOk, Requests.IsOld,
         Requests.Agreements, Requests.Mirrors, Requests.Attributed, Requests.Dated;
    AskedPassesChecks(s, r, json, party, owned);
    Requests.CheckedRequest(s, r, owned, json.resource, party, Requests.Accept);
    Requests.DecisionKeepsInv(s, r, client, json.resource, party, Requests.Accept);
    Requests.InvOld(s);
  }

  /** In any state, whoever asks for a resource and is accepted by its owner has an accepted request. */
  lemma AskThenAccept(s: State, json: Requests.AccessRequest, party: Term, owner: string, scope: Term)
    requires Invariant(s) && json.constraints == [] && scope in json.scopes
    requires json.resource in OwnedTerms(s.stores, owner)
    ensures var r := Minted(s.minted);
      var steps := [Asking(json, party), Deciding(r, owner, json.resource, party, Requests.Accept)];
      && AllAllowed(s, steps)
      && AcceptedFor(TakeAll(s, steps).stores.quads, r, json.resource, party, scope)
      && AssignedTo(RequestsOf(TakeAll(s, steps)), Minted(s.minted + 1), r, Iri(owner))
      && Accepts(Take(s, steps[0]), r, owner, json.resource, party)
      && ObjectsOf(Take(s, steps[0]).stores.quads, r, HasConstraint) == {}
  {
    hide Invariant, AsAsked, Requests.Inv, Requests.Check, Requests.Decided, AcceptedFor, Requests.WellFormed, Allowed,
         Take, ObjectsOf, AssignedTo, Requests.Add, Requests.RequestQuads, Accepts;
    var r := Minted(s.minted);
    var ask, accept := Asking(json, party), Deciding(r, owner, json.resource, party, Requests.Accept);
    var asked, owned := Take(s, ask), OwnedTerms(s.stores, owner);
    AskedState(s, json, party);
    assert OwnedTerms(asked.stores, owner) == owned;
    hide OwnedTerms;
    AskedPassesChecks(RequestsOf(asked), r, json, party, owned);
    AcceptingIsDeciding(asked, r, json, party, owner);
    AcceptedReads(RequestsOf(asked), r, json, party, owned, Iri(owner), scope);
    DecidedAssigns(RequestsOf(asked), r, Iri(owner), json.resource, party);
    AskedIsAcceptable(asked, r, json, party, owner);
    AskedIsFree(asked.stores.quads, r, json, party);
    TwoSteps(s, ask, accept);
  }

  lemma AskedIsFree(quads: set<Quad>, r: Term, json: Requests.AccessRequest, party: Term)
    requires AsAsked(quads, r, json, party)
    ensures ObjectsOf(quads, r, HasConstraint) == {}
  {
    hide ObjectsOf;
  }

  lemma AskedIsAcceptable(s: State, r: Term, json: Requests.AccessRequest, party: Term, owner: string)
    requires Requests.Inv(RequestsOf(s)) && AsAsked(s.stores.quads, r, json, party)
    requires json.scopes != [] && json.resource in OwnedTerms(s.stores, owner)
    ensures Accepts(s, r, owner, json.resource, party)
  {
    hide Requests.Inv, Requests.Check, Requests.Dated, OwnedTerms, Requests.WellFormed;
    Requests.InvParts(RequestsOf(s));
    AskedPassesChecks(RequestsOf(s), r, json, party, OwnedTerms(s.stores, owner));
  }

  lemma AskedState(s: State, json: Requests.AccessRequest, party: Term)
    requires Invariant(s) && json.constraints == [] && json.scopes != []
    ensures var asked := Take(s, Asking(json, party));
      && Allowed(s, Asking(json, party)) && Requests.Inv(RequestsOf(asked))
      && AsAsked(asked.stores.quads, Minted(s.minted), json, party)
      && asked.minted == s.minted + 1 && asked.stores.ownership == s.stores.ownership
  {
    hide Invariant, AsAsked, Requests.Inv, Allowed, Take, Requests.Add, Requests.RequestQuads;
    AskingIsAdding(s, json, party);
    Requests.AddIs(RequestsOf(s), json, party);
    TakeKeepsInvariant(s, Asking(json, party));
    InvariantParts(s);
    InvariantParts(Take(s, Asking(json, party)));
    AddedReads(RequestsOf(s), json, party);
  }

  /** The policy was generated for the request, and the owner assigns its permission. */
  ghost predicate AssignedTo(s: Requests.Store, g: Term, r: Term, owner: Term) {
    g in s.granted && s.granted[g] == r && Quad(PermissionOf(g), Assigner, owner) in s.quads
  }

  lemma DecidedAssigns(s: Requests.Store, r: Term, owner: Term, target: Term, party: Term)
    ensures AssignedTo(Requests.Decided(s, r, owner, target, party, Requests.Accept), Minted(s.serial), r, owner)
  {
    hide Requests.PolicyQuads, Requests.Decided, ObjectsOf;
    Requests.DecidedIs(s, r, owner, target, party, Requests.Accept);
    Requests.GeneratedQuads(Requests.Resolve(s.quads, r, Requests.Accept), r, Minted(s.serial), target, party, owner);
  }

  lemma InvariantParts(s: State)
    requires Invariant(s)
    ensures Requests.Inv(RequestsOf(s))
  {}

  lemma AskingIsAdding(s: State, json: Requests.AccessRequest, party: Term)
    ensures var asked := Take(s, Asking(json, party));
      && Allowed(s, Asking(json, party)) && RequestsOf(asked) == Requests.Add(RequestsOf(s), json, party).1
      && asked.stores == s.stores.(quads := asked.stores.quads)
  {
    hide Requests.Add;
  }

  lemma AcceptingIsDeciding(s: State, r: Term, json: Requests.AccessRequest, party: Term, owner: string)
    requires var owned := OwnedTerms(s.stores, owner);
      && Requests.Check(s.stores.quads, r, owned, json.resource, Requests.Accept) == Requests.Done
      && Requests.WellFormed(RequestsOf(s),
        Requests.DecideRequest(r, Iri(owner), owned, json.resource, party, Requests.Accept))
    ensures var step := Deciding(r, owner, json.resource, party, Requests.Accept);
      && Allowed(s, step)
      && RequestsOf(Take(s, step))
           == Requests.Decided(RequestsOf(s), r, Iri(owner), json.resource, party, Requests.Accept)
  {
    hide Requests.Check, Requests.Decided;
  }

  lemma TwoSteps(s: State, a: Step, b: Step)
    ensures AllAllowed(s, [a, b]) <==> Allowed(s, a) && Allowed(Take(s, a), b)
    ensures TakeAll(s, [a, b]) == Take(Take(s, a), b)
  {
    hide Allowed, Take;
    assert [a, b][1..] == [b] && [b][1..] == [];
    assert TakeAll(Take(s, a), [b]) == Take(Take(s, a), b);
    assert AllAllowed(Take(s, a), [b]) <==> Allowed(Take(s, a), b);
  }
}
