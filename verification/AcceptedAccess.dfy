/** From an accepted access request to the decision of the authorizer on the resulting store. */
module AcceptedAccess {
  import opened Rdf
  import opened Permissions
  import Requests = AccessRequests
  import Odrl = SimpleOdrlAuthorizer
  import Meaning = OdrlMeaning

  /** What accepting `request` leaves in the policy store, whatever else the store contains. */
  function StoreAfter(quads: set<Quad>, request: Term, policy: Term, target: Term, party: Term, owner: Term): set<Quad>
    requires policy.Minted?
  {
    Requests.Decided(Requests.Store(quads, policy.serial, map[]), request, owner, target, party, Requests.Accept).quads
  }

  /** The owner of `target` may accept the request, `party` made it, and the new name is fresh. */
  ghost predicate Acceptable(quads: set<Quad>, request: Term, policy: Term, target: Term, party: Term, owned: set<Term>)
  {
    && Requests.Check(quads, request, owned, target, Requests.Accept) == Requests.Done
    && target in ObjectsOf(quads, request, RequestedTarget) && party in ObjectsOf(quads, request, RequestingParty)
    && policy.Minted? && request != PermissionOf(policy)
    && (forall q | q in quads :: q.s != PermissionOf(policy) && q.o != PermissionOf(policy))
  }

  ghost predicate Lists(store: seq<Quad>, quads: set<Quad>) {
    forall q :: q in store <==> q in quads
  }

  /** A policy with these actions covers the scope. */
  predicate Covers(actions: set<Term>, scope: Term) {
    var action := Odrl.OdrlAction(scope);
    action in actions || ((action == Known(Append) || action == Known(Write)) && Known(Modify) in actions)
  }

  /** The claims identify the party. */
  predicate Identifies(e: Odrl.Env, claims: ClaimSet, party: Term) {
    exists c | c in ClaimsFor(claims, WEBID) :: c.Text? && e.named(c.value) == party
  }

  /** Every rule but `rule` that applies is simple, supported, and no prohibition. */
  ghost predicate OthersBehave(e: Odrl.Env, store: seq<Quad>, claims: ClaimSet, resource: Term, scope: Term, rule: Term)
  {
    forall r | r in Odrl.Candidates(e, store, claims, resource, scope) && r != rule ::
      && Odrl.RuleVerdict(e, store, claims, r) != Odrl.Complex
      && (Odrl.RuleVerdict(e, store, claims, r) == Odrl.Holds ==> Odrl.PlainPermission(store, r))
  }

  // ----- the rules that apply -----

  /** A rule applies when it targets the resource or one of its collections, allows the action,
      and is assigned to nobody or to the party or one of its collections. */
  lemma CandidateIff(e: Odrl.Env, store: seq<Quad>, claims: ClaimSet, resource: Term, scope: Term, rule: Term)
    ensures rule in Odrl.Candidates(e, store, claims, resource, scope) <==>
      && (Quad(rule, Target, resource) in store
          || exists t :: Quad(resource, PartOf, t) in store && Quad(rule, Target, t) in store)
      && (exists action | Quad(rule, Action, action) in store :: Meaning.Includes(action, scope))
      && ((forall a :: Quad(rule, Assignee, a) !in store)
          || exists a | Quad(rule, Assignee, a) in store :: Meaning.IsParty(e, store, claims, a))
    ensures rule in Odrl.Candidates(e, store, claims, resource, scope) <==>
      && (Quad(rule, Target, resource) in store
          || exists t :: Quad(resource, PartOf, t) in store && Quad(rule, Target, t) in store)
      && Odrl.ActionMatches(store, rule, scope)
      && Odrl.AssigneeMatches(e, store, rule, claims)
  {
    Meaning.ActionIff(store, rule, scope);
    Meaning.AssigneeIff(e, store, rule, claims);
    var targets := [resource] + Odrl.Objects(store, resource, PartOf);
    Odrl.ObjectsSpec(store, resource, PartOf);
    Odrl.TargetingSpec(store, targets);
    Odrl.MatchingSpec(e, store, claims, scope, Odrl.Targeting(store, targets));
    hide Odrl.Objects, Odrl.Targeting, Odrl.Matching, Odrl.ActionMatches, Odrl.AssigneeMatches, Meaning.Includes,
         Meaning.IsParty;
    assert forall t :: t in targets <==> t == resource || Quad(resource, PartOf, t) in store;
  }

  lemma {:induction false} PartiesInclude(e: Odrl.Env, store: seq<Quad>, users: seq<ClaimValue>, user: ClaimValue)
    requires user in users && user.Text?
    ensures e.named(user.value) in Odrl.Parties(e, store, users)
  {
    hide Odrl.Objects;
    if user != users[0] { PartiesInclude(e, store, users[1..], user); }
  }

  // ----- the generated permission -----

  /** What the store says about a permission generated from `request`. */
  ghost predicate Generated(after: set<Quad>, quads: set<Quad>, request: Term, policy: Term, target: Term, party: Term)
  {
    var permission := PermissionOf(policy);
    && ObjectsOf(after, permission, Target) == {target} && ObjectsOf(after, permission, Assignee) == {party}
    && ObjectsOf(after, permission, Action) == ObjectsOf(quads, request, RequestedAction)
    && ObjectsOf(after, permission, HasConstraint) == ObjectsOf(quads, request, HasConstraint)
    && ObjectsOf(after, permission, OvcConstraint) == {}
    && Quad(policy, HasPermission, permission) in after
    && (forall q | q in after && q.o == permission :: q.p != HasProhibition)
  }

  lemma GeneratedPermission(quads: set<Quad>, request: Term, policy: Term, target: Term, party: Term, owner: Term,
                            owned: set<Term>)
    requires Acceptable(quads, request, policy, target, party, owned)
    ensures Generated(StoreAfter(quads, request, policy, target, party, owner), quads, request, policy, target, party)
  {
    hide ObjectsOf, Requests.PolicyQuads, Requests.Check;
    var resolved := Requests.Resolve(quads, request, Requests.Accept);
    assert StoreAfter(quads, request, policy, target, party, owner)
        == resolved + Requests.PolicyQuads(resolved, request, policy, target, party, owner);
    hide Requests.Resolve, Requests.Decided;
    ResolvedObjects(quads, request, RequestedAction);
    ResolvedObjects(quads, request, HasConstraint);
    PermissionIsNew(quads, request, policy);
    var added := Requests.PolicyQuads(resolved, request, policy, target, party, owner);
    GeneratedFrom(resolved, added, request, policy, target, party, owner);
  }

  lemma GeneratedFrom(quads: set<Quad>, added: set<Quad>, request: Term, policy: Term, target: Term, party: Term,
                      owner: Term)
    requires policy.Minted? && added == Requests.PolicyQuads(quads, request, policy, target, party, owner)
    requires forall q | q in quads :: q.s != PermissionOf(policy) && q.o != PermissionOf(policy)
    ensures Generated(quads + added, quads, request, policy, target, party)
  {
    hide ObjectsOf, Requests.PolicyQuads;
    var permission := PermissionOf(policy);
    Requests.GeneratedQuads(quads, request, policy, target, party, owner);
    AboutPermission(quads, request, policy, target, party, owner);
    PointsToPermission(quads, request, policy, target, party, owner);
    ObjectsAre(quads + added, permission, Target, {target});
    ObjectsAre(quads + added, permission, Assignee, {party});
    ObjectsAre(quads + added, permission, Action, ObjectsOf(quads, request, RequestedAction));
    ObjectsAre(quads + added, permission, HasConstraint, ObjectsOf(quads, request, HasConstraint));
    ObjectsAre(quads + added, permission, OvcConstraint, {});
  }

  lemma ResolvedObjects(quads: set<Quad>, request: Term, property: Predicate)
    requires property != RequestStatus
    ensures ObjectsOf(Requests.Resolve(quads, request, Requests.Accept), request, property)
      == ObjectsOf(quads, request, property)
  {
    var after := Requests.Resolve(quads, request, Requests.Accept);
    assert forall q: Quad | q.p == property :: q in after <==> q in quads;
  }

  lemma PermissionIsNew(quads: set<Quad>, request: Term, policy: Term)
    requires policy.Minted? && request != PermissionOf(policy)
    requires forall q | q in quads :: q.s != PermissionOf(policy) && q.o != PermissionOf(policy)
    ensures forall q | q in Requests.Resolve(quads, request, Requests.Accept) ::
      q.s != PermissionOf(policy) && q.o != PermissionOf(policy)
  {}

  lemma AboutPermission(quads: set<Quad>, request: Term, policy: Term, target: Term, party: Term, owner: Term)
    requires policy.Minted?
    requires forall q | q in quads :: q.s != PermissionOf(policy)
    ensures forall q | q in Requests.PolicyQuads(quads, request, policy, target, party, owner)
                    && q.s == PermissionOf(policy) ::
      && (q.p == Target ==> q.o == target) && (q.p == Assignee ==> q.o == party)
      && (q.p == Action ==> q.o in ObjectsOf(quads, request, RequestedAction))
      && (q.p == HasConstraint ==> q.o in ObjectsOf(quads, request, HasConstraint))
      && q.p != OvcConstraint
  {
    hide ObjectsOf;
  }

  lemma PointsToPermission(quads: set<Quad>, request: Term, policy: Term, target: Term, party: Term, owner: Term)
    requires policy.Minted?
    requires forall q | q in quads :: q.o != PermissionOf(policy)
    ensures Quad(policy, HasPermission, PermissionOf(policy))
         in Requests.PolicyQuads(quads, request, policy, target, party, owner)
    ensures forall q | q in Requests.PolicyQuads(quads, request, policy, target, party, owner)
                    && q.o == PermissionOf(policy) ::
      q.p != HasProhibition
  {
    hide ObjectsOf;
  }

  // ----- the decision -----

  lemma PermissionCovers(store: seq<Quad>, after: set<Quad>, actions: set<Term>, permission: Term, scope: Term)
    requires Lists(store, after) && ObjectsOf(after, permission, Action) == actions
    ensures Odrl.ActionMatches(store, permission, scope) <==> Covers(actions, scope)
  {
    forall a ensures Quad(permission, Action, a) in store <==> a in actions {
      assert Quad(permission, Action, a) in after <==> a in ObjectsOf(after, permission, Action);
    }
  }

  lemma PermissionAssigned(e: Odrl.Env, store: seq<Quad>, after: set<Quad>, claims: ClaimSet, permission: Term,
                           party: Term)
    requires Lists(store, after) && ObjectsOf(after, permission, Assignee) == {party} && Identifies(e, claims, party)
    ensures Odrl.AssigneeMatches(e, store, permission, claims)
  {
    assert party in ObjectsOf(after, permission, Assignee);
    assert Quad(permission, Assignee, party) in store;
    Odrl.ObjectsSpec(store, permission, Assignee);
    hide Odrl.Objects, Odrl.Parties;
    var c :| c in ClaimsFor(claims, WEBID) && c.Text? && e.named(c.value) == party;
    PartiesInclude(e, store, ClaimsFor(claims, WEBID), c);
  }

  lemma UnconstrainedHolds(e: Odrl.Env, store: seq<Quad>, after: set<Quad>, claims: ClaimSet, permission: Term)
    requires Lists(store, after)
    requires ObjectsOf(after, permission, HasConstraint) == {} && ObjectsOf(after, permission, OvcConstraint) == {}
    ensures Odrl.RuleVerdict(e, store, claims, permission) == Odrl.Holds
  {
    forall o ensures Quad(permission, HasConstraint, o) !in store && Quad(permission, OvcConstraint, o) !in store {
      assert Quad(permission, HasConstraint, o) in after ==> o in ObjectsOf(after, permission, HasConstraint);
      assert Quad(permission, OvcConstraint, o) in after ==> o in ObjectsOf(after, permission, OvcConstraint);
    }
    Odrl.ObjectsSpec(store, permission, HasConstraint);
    Odrl.ObjectsSpec(store, permission, OvcConstraint);
    Odrl.HoldsIffAllHold(e, store, claims, permission);
    hide Odrl.Objects, Odrl.RuleVerdict, Odrl.ConstraintAt, Odrl.Judge, Odrl.JudgeOvc;
  }

  lemma GeneratedIsPlain(store: seq<Quad>, after: set<Quad>, policy: Term)
    requires Lists(store, after) && Quad(policy, HasPermission, PermissionOf(policy)) in after
    requires forall q | q in after && q.o == PermissionOf(policy) :: q.p != HasProhibition
    ensures Odrl.PlainPermission(store, PermissionOf(policy))
  {
    Odrl.PredicatesSpec(store, PermissionOf(policy));
    hide Odrl.PredicatesTo;
    forall s ensures Quad(s, HasProhibition, PermissionOf(policy)) !in store {
      assert Quad(s, HasProhibition, PermissionOf(policy)) in after ==> false;
    }
  }

  lemma GeneratedApplies(e: Odrl.Env, store: seq<Quad>, after: set<Quad>, quads: set<Quad>, request: Term,
                         policy: Term, target: Term, party: Term, claims: ClaimSet, scope: Term)
    requires Lists(store, after) && Generated(after, quads, request, policy, target, party)
    requires Identifies(e, claims, party)
    ensures var permission := PermissionOf(policy);
      && (permission in Odrl.Candidates(e, store, claims, target, scope)
          <==> Covers(ObjectsOf(quads, request, RequestedAction), scope))
      && Odrl.PlainPermission(store, permission)
  {
    hide Odrl.Candidates, Odrl.RuleVerdict, Odrl.PlainPermission, Odrl.AssigneeMatches, Odrl.ActionMatches,
         Identifies, Covers;
    var permission := PermissionOf(policy);
    assert target in ObjectsOf(after, permission, Target);
    assert Quad(permission, Target, target) in store;
    hide ObjectsOf;
    CandidateIff(e, store, claims, target, scope, permission);
    PermissionCovers(store, after, ObjectsOf(quads, request, RequestedAction), permission, scope);
    PermissionAssigned(e, store, after, claims, permission, party);
    GeneratedIsPlain(store, after, policy);
  }

  lemma GeneratedCandidate(e: Odrl.Env, store: seq<Quad>, after: set<Quad>, quads: set<Quad>, request: Term,
                           policy: Term, target: Term, party: Term, claims: ClaimSet, scope: Term)
    requires Lists(store, after) && Generated(after, quads, request, policy, target, party)
    requires ObjectsOf(quads, request, HasConstraint) == {} && Identifies(e, claims, party)
    ensures var permission := PermissionOf(policy);
      && (permission in Odrl.Candidates(e, store, claims, target, scope)
          <==> Covers(ObjectsOf(quads, request, RequestedAction), scope))
      && Odrl.RuleVerdict(e, store, claims, permission) == Odrl.Holds
      && Odrl.PlainPermission(store, permission)
  {
    GeneratedApplies(e, store, after, quads, request, policy, target, party, claims, scope);
    hide Odrl.Candidates, Odrl.RuleVerdict, Odrl.PlainPermission, Identifies, Covers, ObjectsOf;
    UnconstrainedHolds(e, store, after, claims, PermissionOf(policy));
  }

  /** Accepting an unconstrained request gives the requesting party a scope on the target exactly when the
      requested actions cover it, or another rule already did; provided that no other rule interferes. */
  lemma AcceptedDecision(e: Odrl.Env, store: seq<Quad>, quads: set<Quad>, request: Term, policy: Term, target: Term,
                         party: Term, owner: Term, owned: set<Term>, claims: ClaimSet, scope: Term)
    requires Acceptable(quads, request, policy, target, party, owned)
    requires Lists(store, StoreAfter(quads, request, policy, target, party, owner))
    requires ObjectsOf(quads, request, HasConstraint) == {} && Identifies(e, claims, party)
    requires OthersBehave(e, store, claims, target, scope, PermissionOf(policy))
    ensures Odrl.Decide(e, store, claims, target, scope) == Odrl.Grant <==>
      || Covers(ObjectsOf(quads, request, RequestedAction), scope)
      || exists r | r in Odrl.Candidates(e, store, claims, target, scope) && r != PermissionOf(policy) ::
           Odrl.RuleVerdict(e, store, claims, r) == Odrl.Holds
  {
    hide Odrl.Candidates, Odrl.RuleVerdict, Odrl.PlainPermission, Odrl.Decide, Requests.Check, StoreAfter, Generated,
         Covers, Identifies;
    GeneratedPermission(quads, request, policy, target, party, owner, owned);
    GeneratedCandidate(e, store, StoreAfter(quads, request, policy, target, party, owner), quads, request, policy,
                       target, party, claims, scope);
    Odrl.GrantedIff(e, store, claims, target, scope);
  }

  predicate IsCssScope(scope: Term) {
    Odrl.OdrlAction(scope) != scope
  }

  /** Every requested scope that is not one of the CSS scopes is granted. */
  lemma RequestedScopesAreGranted(e: Odrl.Env, store: seq<Quad>, quads: set<Quad>, request: Term, policy: Term,
                                  target: Term,
                                  party: Term, owner: Term, owned: set<Term>, claims: ClaimSet, scope: Term)
    requires Acceptable(quads, request, policy, target, party, owned)
    requires Lists(store, StoreAfter(quads, request, policy, target, party, owner))
    requires ObjectsOf(quads, request, HasConstraint) == {} && Identifies(e, claims, party)
    requires OthersBehave(e, store, claims, target, scope, PermissionOf(policy))
    requires scope in ObjectsOf(quads, request, RequestedAction) && !IsCssScope(scope)
    ensures Odrl.Decide(e, store, claims, target, scope) == Odrl.Grant
  {
    hide Odrl.Candidates, Odrl.RuleVerdict, Odrl.Decide, Acceptable, StoreAfter, Identifies, OthersBehave, ObjectsOf;
    AcceptedDecision(e, store, quads, request, policy, target, party, owner, owned, claims, scope);
  }

  /** A CSS scope is translated when it is evaluated but not when it is requested: on its own, its
      acceptance gives nothing. */
  lemma CssScopesAreNot(e: Odrl.Env, store: seq<Quad>, quads: set<Quad>, request: Term, policy: Term, target: Term,
                        party: Term, owner: Term, owned: set<Term>, claims: ClaimSet, scope: Term)
    requires Acceptable(quads, request, policy, target, party, owned)
    requires Lists(store, StoreAfter(quads, request, policy, target, party, owner))
    requires ObjectsOf(quads, request, HasConstraint) == {} && Identifies(e, claims, party)
    requires forall r | r in Odrl.Candidates(e, store, claims, target, scope) :: r == PermissionOf(policy)
    requires ObjectsOf(quads, request, RequestedAction) == {scope} && IsCssScope(scope)
    ensures Odrl.Decide(e, store, claims, target, scope) == Odrl.Deny
  {
    hide Odrl.Candidates, Odrl.RuleVerdict, Odrl.Decide, Odrl.PlainPermission, Requests.Check, StoreAfter, Generated,
         Identifies;
    GeneratedPermission(quads, request, policy, target, party, owner, owned);
    GeneratedCandidate(e, store, StoreAfter(quads, request, policy, target, party, owner), quads, request, policy,
                       target, party, claims, scope);
    SomeMember(Odrl.Candidates(e, store, claims, target, scope));
    NoCandidates(e, store, claims, target, scope);
  }

  lemma NoCandidates(e: Odrl.Env, store: seq<Quad>, claims: ClaimSet, resource: Term, scope: Term)
    requires Odrl.Candidates(e, store, claims, resource, scope) == []
    ensures Odrl.Decide(e, store, claims, resource, scope) == Odrl.Deny
  {
    hide Odrl.Candidates, Odrl.RuleVerdict;
  }
}
