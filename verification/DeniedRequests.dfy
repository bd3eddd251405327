/** The status of access requests plays no part in decisions: a denial changes none of them. */
module DeniedRequests {
  import opened Rdf
  import opened Permissions
  import opened SimpleOdrlAuthorizer
  import opened AcceptedAccess
  import Requests = AccessRequests

  /** The store, enumerated in its order, without the status of requests. */
  function WithoutStatus(store: seq<Quad>): seq<Quad> {
    if store == [] then []
    else (if store[0].p == RequestStatus then [] else [store[0]]) + WithoutStatus(store[1..])
  }

  lemma {:induction false} SameQuads(store: seq<Quad>, q: Quad)
    requires q.p != RequestStatus
    ensures q in store <==> q in WithoutStatus(store)
  {
    if store != [] {
      SameQuads(store[1..], q);
      assert store == [store[0]] + store[1..];
    }
  }

  lemma {:induction false} SameObjects(store: seq<Quad>, subject: Term, property: Predicate)
    requires property != RequestStatus
    ensures Objects(store, subject, property) == Objects(WithoutStatus(store), subject, property)
  {
    if store != [] {
      SameObjects(store[1..], subject, property);
      var rest := WithoutStatus(store[1..]);
      assert WithoutStatus(store) == if store[0].p == RequestStatus then rest else [store[0]] + rest;
      assert ([store[0]] + rest)[1..] == rest;
    }
  }

  lemma {:induction false} SameSubjects(store: seq<Quad>, property: Predicate, value: Term)
    requires property != RequestStatus
    ensures SubjectsWith(store, property, value) == SubjectsWith(WithoutStatus(store), property, value)
  {
    if store != [] {
      SameSubjects(store[1..], property, value);
      var rest := WithoutStatus(store[1..]);
      assert WithoutStatus(store) == if store[0].p == RequestStatus then rest else [store[0]] + rest;
      assert ([store[0]] + rest)[1..] == rest;
    }
  }

  lemma SameLinks(store: seq<Quad>, value: Term, p: Predicate)
    requires p != RequestStatus
    ensures p in PredicatesTo(store, value) <==> p in PredicatesTo(WithoutStatus(store), value)
  {
    hide PredicatesTo, WithoutStatus;
    PredicatesSpec(store, value);
    PredicatesSpec(WithoutStatus(store), value);
    forall s ensures Quad(s, p, value) in store <==> Quad(s, p, value) in WithoutStatus(store) {
      SameQuads(store, Quad(s, p, value));
    }
  }

  // ----- rules -----

  lemma {:induction false} SameConstraints(store: seq<Quad>, terms: seq<Term>, left: Predicate)
    requires left != RequestStatus
    ensures ConstraintsOf(store, terms, left) == ConstraintsOf(WithoutStatus(store), terms, left)
  {
    hide Objects, WithoutStatus;
    if terms != [] {
      SameConstraints(store, terms[1..], left);
      SameObjects(store, terms[0], left);
      SameObjects(store, terms[0], Operator);
      SameObjects(store, terms[0], RightOperand);
      SameObjects(store, terms[0], OvcSubjectType);
    }
  }

  lemma SameVerdict(e: Env, store: seq<Quad>, claims: ClaimSet, rule: Term)
    ensures RuleVerdict(e, store, claims, rule) == RuleVerdict(e, WithoutStatus(store), claims, rule)
  {
    hide Objects, WithoutStatus, ConstraintsOf, JudgeAll, JudgeAllOvc;
    SameObjects(store, rule, HasConstraint);
    SameObjects(store, rule, OvcConstraint);
    SameConstraints(store, Objects(store, rule, HasConstraint), LeftOperand);
    SameConstraints(store, Objects(store, rule, OvcConstraint), OvcLeftOperand);
  }

  lemma {:induction false} SameParties(e: Env, store: seq<Quad>, users: seq<ClaimValue>)
    ensures Parties(e, store, users) == Parties(e, WithoutStatus(store), users)
  {
    hide Objects, WithoutStatus;
    if users != [] {
      SameParties(e, store, users[1..]);
      if users[0].Text? { SameObjects(store, e.named(users[0].value), PartOf); }
    }
  }

  lemma {:induction false} SameTargeting(store: seq<Quad>, targets: seq<Term>)
    ensures Targeting(store, targets) == Targeting(WithoutStatus(store), targets)
  {
    hide SubjectsWith, WithoutStatus;
    if targets != [] {
      SameTargeting(store, targets[1..]);
      SameSubjects(store, Target, targets[0]);
    }
  }

  lemma {:induction false} SameMatching(e: Env, store: seq<Quad>, claims: ClaimSet, scope: Term, rules: seq<Term>)
    ensures Matching(e, store, claims, scope, rules) == Matching(e, WithoutStatus(store), claims, scope, rules)
  {
    hide Objects, WithoutStatus, Parties;
    if rules != [] {
      SameMatching(e, store, claims, scope, rules[1..]);
      SameObjects(store, rules[0], Assignee);
      SameParties(e, store, ClaimsFor(claims, WEBID));
      SameQuads(store, Quad(rules[0], Action, OdrlAction(scope)));
      SameQuads(store, Quad(rules[0], Action, Known(Modify)));
    }
  }

  lemma SameCandidatesBut(e: Env, store: seq<Quad>, claims: ClaimSet, resource: Term, scope: Term)
    ensures Candidates(e, store, claims, resource, scope)
      == Candidates(e, WithoutStatus(store), claims, resource, scope)
  {
    hide Objects, WithoutStatus, Targeting, Matching;
    SameObjects(store, resource, PartOf);
    var targets := [resource] + Objects(store, resource, PartOf);
    SameTargeting(store, targets);
    SameMatching(e, store, claims, scope, Targeting(store, targets));
  }

  // ----- the decision -----

  lemma {:induction false} SameSatisfied(e: Env, store: seq<Quad>, claims: ClaimSet, rules: seq<Term>)
    ensures Satisfied(e, store, claims, rules) == Satisfied(e, WithoutStatus(store), claims, rules)
  {
    hide RuleVerdict, WithoutStatus;
    if rules != [] {
      SameSatisfied(e, store, claims, rules[1..]);
      SameVerdict(e, store, claims, rules[0]);
    }
  }

  lemma {:induction false} SameConclusion(store: seq<Quad>, rules: seq<Term>)
    ensures Conclude(store, rules) == Conclude(WithoutStatus(store), rules)
  {
    hide PredicatesTo, WithoutStatus;
    if rules != [] {
      SameConclusion(store, rules[1..]);
      SameLinks(store, rules[0], HasProhibition);
      SameLinks(store, rules[0], HasPermission);
    }
  }

  lemma SameDecision(e: Env, store: seq<Quad>, claims: ClaimSet, resource: Term, scope: Term)
    ensures Decide(e, store, claims, resource, scope) == Decide(e, WithoutStatus(store), claims, resource, scope)
  {
    hide Candidates, RuleVerdict, WithoutStatus, Satisfied, Conclude;
    SameCandidatesBut(e, store, claims, resource, scope);
    var candidates := Candidates(e, store, claims, resource, scope);
    forall r ensures RuleVerdict(e, store, claims, r) == RuleVerdict(e, WithoutStatus(store), claims, r) {
      SameVerdict(e, store, claims, r);
    }
    SameSatisfied(e, store, claims, candidates);
    SameConclusion(store, Satisfied(e, store, claims, candidates));
  }

  /** Denying a request changes no decision, on any resource, scope and claims, when the store
      enumerates everything but the status of the request as before. */
  lemma DenialChangesNoDecision(quads: set<Quad>, request: Term, before: seq<Quad>, after: seq<Quad>,
                                e: Env, claims: ClaimSet, resource: Term, scope: Term)
    requires Lists(before, quads) && Lists(after, Requests.Resolve(quads, request, Requests.Reject))
    requires WithoutStatus(before) == WithoutStatus(after)
    ensures Decide(e, before, claims, resource, scope) == Decide(e, after, claims, resource, scope)
  {
    hide Decide, WithoutStatus;
    SameDecision(e, before, claims, resource, scope);
    SameDecision(e, after, claims, resource, scope);
  }
}
