/** Why the order of enumeration needs single-valued operands: a constraint with two right operands. */
module OdrlOrder {
  import opened Rdf
  import opened Permissions
  import opened SimpleOdrlAuthorizer

  const RULE := Iri("rule")
  const TARGET := Iri("target")
  const CONSTRAINT := Iri("constraint")

  /** A permission to read for the clients that match a constraint, in the given order of its right operands. */
  function StoreWith(first: Term, second: Term): seq<Quad> {
    [Quad(RULE, Target, TARGET), Quad(RULE, Action, Known(Read)), Quad(Iri("policy"), HasPermission, RULE),
     Quad(CONSTRAINT, LeftOperand, Known(DeliveryChannel)), Quad(CONSTRAINT, Operator, Known(Eq)),
     Quad(RULE, HasConstraint, CONSTRAINT)]
    + [Quad(CONSTRAINT, RightOperand, first), Quad(CONSTRAINT, RightOperand, second)]
  }

  lemma {:induction false} ObjectsAppend(a: seq<Quad>, b: seq<Quad>, subject: Term, property: Predicate)
    ensures Objects(a + b, subject, property) == Objects(a, subject, property) + Objects(b, subject, property)
  {
    if a == [] {
      assert a + b == b;
    } else {
      assert (a + b)[1..] == a[1..] + b;
      ObjectsAppend(a[1..], b, subject, property);
    }
  }

  /** What follows the last quad of its kind does not matter to what is found first. */
  lemma FirstObject(before: seq<Quad>, q: Quad, rest: seq<Quad>)
    requires forall o :: Quad(q.s, q.p, o) !in before
    ensures var objects := Objects(before + [q] + rest, q.s, q.p); objects != [] && objects[0] == q.o
  {
    ObjectsAppend(before + [q], rest, q.s, q.p);
    ObjectsAppend(before, [q], q.s, q.p);
    ObjectsSpec(before, q.s, q.p);
    SomeMember(Objects(before, q.s, q.p));
    assert [q][1..] == [] && Objects([q], q.s, q.p) == [q.o];
  }

  lemma OnlyObject(before: seq<Quad>, q: Quad, rest: seq<Quad>)
    requires forall o :: Quad(q.s, q.p, o) !in before
    requires forall o :: Quad(q.s, q.p, o) !in rest
    ensures Objects(before + [q] + rest, q.s, q.p) == [q.o]
  {
    FirstObject(before, q, []);
    ObjectsAppend(before + [q], rest, q.s, q.p);
    ObjectsAppend(before, [q], q.s, q.p);
    ObjectsSpec(before, q.s, q.p);
    ObjectsSpec(rest, q.s, q.p);
    SomeMember(Objects(before, q.s, q.p));
    SomeMember(Objects(rest, q.s, q.p));
    assert [q][1..] == [] && Objects([q], q.s, q.p) == [q.o];
  }

  lemma NoObject(store: seq<Quad>, subject: Term, property: Predicate)
    requires forall o :: Quad(subject, property, o) !in store
    ensures Objects(store, subject, property) == []
  {
    ObjectsSpec(store, subject, property);
    SomeMember(Objects(store, subject, property));
  }

  /** The constraint is read with the first of its right operands. */
  lemma ConstraintRead(first: Term, second: Term)
    ensures var store := StoreWith(first, second);
      && Objects(store, RULE, HasConstraint) == [CONSTRAINT] && Objects(store, RULE, OvcConstraint) == []
      && ConstraintAt(store, CONSTRAINT, LeftOperand)
         == Constraint(Some(Known(DeliveryChannel)), Some(Known(Eq)), Some(first), None)
  {
    var store := StoreWith(first, second);
    hide Objects;
    OnlyObject(store[..5], store[5], store[6..]);
    OnlyObject(store[..3], store[3], store[4..]);
    OnlyObject(store[..4], store[4], store[5..]);
    FirstObject(store[..6], store[6], store[7..]);
    assert store == store[..5] + [store[5]] + store[6..] == store[..3] + [store[3]] + store[4..];
    assert store == store[..4] + [store[4]] + store[5..] == store[..6] + [store[6]] + store[7..];
    NoObject(store, RULE, OvcConstraint);
    NoObject(store, CONSTRAINT, OvcSubjectType);
  }

  /** The verdict on the rule is the verdict on its first right operand. */
  lemma RuleRead(e: Env, claims: ClaimSet, first: Term, second: Term)
    ensures RuleVerdict(e, StoreWith(first, second), claims, RULE)
         == if Text(e.lexical(first)) in ClaimsFor(claims, CLIENTID) then Holds else Fails
  {
    ConstraintRead(first, second);
    var store := StoreWith(first, second);
    hide StoreWith, Objects, ConstraintAt;
    var c := ConstraintAt(store, CONSTRAINT, LeftOperand);
    assert [CONSTRAINT][1..] == [] && ConstraintsOf(store, [], LeftOperand) == [];
    assert ConstraintsOf(store, [CONSTRAINT], LeftOperand) == [c];
    assert [c][1..] == [] && JudgeAll(e, claims, [c]) == Judge(e, claims, c);
    assert ConstraintsOf(store, [], OvcLeftOperand) == [];
  }

  lemma OnlyRule(e: Env, claims: ClaimSet, first: Term, second: Term)
    ensures var store := StoreWith(first, second);
      && (forall r :: r in Candidates(e, store, claims, TARGET, Known(Read)) <==> r == RULE)
      && PlainPermission(store, RULE)
  {
    var store := StoreWith(first, second);
    hide Candidates, Objects;
    NoObject(store, RULE, Assignee);
    NoObject(store, TARGET, PartOf);
    PredicatesSpec(store, RULE);
    assert store[0] == Quad(RULE, Target, TARGET) && store[1] == Quad(RULE, Action, Known(Read));
    assert store[2] == Quad(Iri("policy"), HasPermission, RULE) && store[2] in store;
    hide PredicatesTo;
    forall r ensures r in Candidates(e, store, claims, TARGET, Known(Read)) <==> r == RULE {
      CandidateSpec(e, store, claims, r);
    }
  }

  lemma CandidateSpec(e: Env, store: seq<Quad>, claims: ClaimSet, rule: Term)
    requires Objects(store, TARGET, PartOf) == []
    ensures rule in Candidates(e, store, claims, TARGET, Known(Read)) <==>
      Quad(rule, Target, TARGET) in store && Quad(rule, Action, Known(Read)) in store
        && AssigneeMatches(e, store, rule, claims)
  {
    TargetingSpec(store, [TARGET]);
    MatchingSpec(e, store, claims, Known(Read), Targeting(store, [TARGET]));
    assert [TARGET] + Objects(store, TARGET, PartOf) == [TARGET];
    hide Objects, Targeting, Matching, AssigneeMatches;
    assert TARGET in [TARGET];
  }

  /** With two right operands, one presented and one not, the order decides between a grant and a denial. */
  lemma TwoOperandsFlip(e: Env, claims: ClaimSet, presented: Term, other: Term)
    requires Text(e.lexical(presented)) in ClaimsFor(claims, CLIENTID)
    requires Text(e.lexical(other)) !in ClaimsFor(claims, CLIENTID)
    ensures SameQuads(StoreWith(presented, other), StoreWith(other, presented))
    ensures Decide(e, StoreWith(presented, other), claims, TARGET, Known(Read)) == Grant
    ensures Decide(e, StoreWith(other, presented), claims, TARGET, Known(Read)) == Deny
  {
    var p, q := StoreWith(presented, other), StoreWith(other, presented);
    OnlyRule(e, claims, presented, other);
    OnlyRule(e, claims, other, presented);
    RuleRead(e, claims, presented, other);
    RuleRead(e, claims, other, presented);
    GrantedIff(e, p, claims, TARGET, Known(Read));
    hide Candidates, RuleVerdict, PlainPermission, Conclude, Satisfied;
    SatisfiedSpec(e, q, claims, Candidates(e, q, claims, TARGET, Known(Read)));
    SomeMember(Satisfied(e, q, claims, Candidates(e, q, claims, TARGET, Known(Read))));
  }
}
