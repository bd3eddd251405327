/** The authorizer that evaluates plain ODRL rules itself and delegates the rest.

    The policy store is a list of quads: its order is the order in which the store enumerates. */
module SimpleOdrlAuthorizer {
  import opened Rdf
  import opened Permissions

  /** What comes from outside: the clock, dates, JSON path queries, and IRIs as strings. */
  datatype Env = Env(
    now: int,
    date: Term -> Option<int>,
    query: (ClaimValue, string) -> seq<string>,
    named: string -> Term,
    lexical: Term -> string)

  datatype Verdict = Holds | Fails | Complex

  datatype Decision = Grant | Deny | Delegate

  // ----- enumerating the store -----

  function Objects(store: seq<Quad>, subject: Term, property: Predicate): seq<Term> {
    if store == [] then []
    else var rest := Objects(store[1..], subject, property);
         if store[0].s == subject && store[0].p == property then [store[0].o] + rest else rest
  }

  function SubjectsWith(store: seq<Quad>, property: Predicate, value: Term): seq<Term> {
    if store == [] then []
    else var rest := SubjectsWith(store[1..], property, value);
         if store[0].p == property && store[0].o == value then [store[0].s] + rest else rest
  }

  function PredicatesTo(store: seq<Quad>, value: Term): seq<Predicate> {
    if store == [] then []
    else var rest := PredicatesTo(store[1..], value);
         if store[0].o == value then [store[0].p] + rest else rest
  }

  function First(terms: seq<Term>): Option<Term> {
    if terms == [] then None else Some(terms[0])
  }

  // ----- constraints -----

  /** A constraint with the operands that the store yields first. */
  datatype Constraint = Constraint(left: Option<Term>, operator: Option<Term>, right: Option<Term>,
                                   subjectType: Option<Term>) {
    predicate Complete() {
      left.Some? && operator.Some? && right.Some?
    }
  }

  function ConstraintAt(store: seq<Quad>, c: Term, left: Predicate): Constraint {
    Constraint(First(Objects(store, c, left)), First(Objects(store, c, Operator)),
               First(Objects(store, c, RightOperand)), First(Objects(store, c, OvcSubjectType)))
  }

  function ConstraintsOf(store: seq<Quad>, terms: seq<Term>, left: Predicate): seq<Constraint> {
    if terms == [] then [] else [ConstraintAt(store, terms[0], left)] + ConstraintsOf(store, terms[1..], left)
  }

  /** Dates are objects, and two objects are never identical: equality always fails. */
  function CompareDates(operator: Term, now: int, date: Option<int>): bool {
    date.Some? &&
    match operator
    case Known(Lt) => now < date.value
    case Known(Lteq) => now <= date.value
    case Known(Gt) => now > date.value
    case Known(Gteq) => now >= date.value
    case _ => false
  }

  predicate AllText(values: seq<ClaimValue>) {
    forall v | v in values :: v.Text?
  }

  function Judge(e: Env, claims: ClaimSet, c: Constraint): Verdict
    requires c.Complete()
  {
    var left, operator, right := c.left.value, c.operator.value, c.right.value;
    if left == Known(DateTime) then
      if CompareDates(operator, e.now, e.date(right)) then Holds else Fails
    else if left == Known(DeliveryChannel) then
      if operator == Known(Eq) && Text(e.lexical(right)) in ClaimsFor(claims, CLIENTID) then Holds else Fails
    else if e.lexical(left) in claims && AllText(claims[e.lexical(left)]) && operator == Known(Eq) then
      if Text(e.lexical(right)) in claims[e.lexical(left)] then Holds else Fails
    else Complex
  }

  predicate Presents(e: Env, vc: ClaimValue, c: Constraint)
    requires c.Complete()
  {
    && e.lexical(c.right.value) in e.query(vc, e.lexical(c.left.value))
    && (c.subjectType.Some? ==> e.lexical(c.subjectType.value) in e.query(vc, "$.type"))
  }

  function JudgeOvc(e: Env, claims: ClaimSet, c: Constraint): Verdict
    requires c.Complete()
  {
    if c.operator.value != Known(Eq) then Complex
    else if exists vc | vc in ClaimsFor(claims, VC) :: Presents(e, vc, c) then Holds
    else Fails
  }

  /** The constraints are tried in order, up to the first that does not hold. */
  function JudgeAll(e: Env, claims: ClaimSet, constraints: seq<Constraint>): Verdict
    requires forall c | c in constraints :: c.Complete()
  {
    if constraints == [] then Holds
    else if Judge(e, claims, constraints[0]) != Holds then Judge(e, claims, constraints[0])
    else JudgeAll(e, claims, constraints[1..])
  }

  function JudgeAllOvc(e: Env, claims: ClaimSet, constraints: seq<Constraint>): Verdict
    requires forall c | c in constraints :: c.Complete()
  {
    if constraints == [] then Holds
    else if JudgeOvc(e, claims, constraints[0]) != Holds then JudgeOvc(e, claims, constraints[0])
    else JudgeAllOvc(e, claims, constraints[1..])
  }

  function PlainVerdict(e: Env, store: seq<Quad>, claims: ClaimSet, rule: Term): Verdict {
    var constraints := ConstraintsOf(store, Objects(store, rule, HasConstraint), LeftOperand);
    if exists c | c in constraints :: !c.Complete() then Complex else JudgeAll(e, claims, constraints)
  }

  function OvcVerdict(e: Env, store: seq<Quad>, claims: ClaimSet, rule: Term): Verdict {
    var constraints := ConstraintsOf(store, Objects(store, rule, OvcConstraint), OvcLeftOperand);
    if exists c | c in constraints :: !c.Complete() then Complex
    else if constraints == [] then Holds
    else if ClaimsFor(claims, VC) == [] then Fails
    else JudgeAllOvc(e, claims, constraints)
  }

  function RuleVerdict(e: Env, store: seq<Quad>, claims: ClaimSet, rule: Term): Verdict {
    var plain := PlainVerdict(e, store, claims, rule);
    var ovc := OvcVerdict(e, store, claims, rule);
    if plain == Holds && ovc == Holds then Holds
    else if plain == Complex || ovc == Complex then Complex
    else Fails
  }

  // ----- candidates -----

  function OdrlAction(scope: Term): Term {
    match scope
    case Known(CssRead) => Known(Read)
    case Known(CssAppend) => Known(Append)
    case Known(CssCreate) => Known(Create)
    case Known(CssDelete) => Known(Delete)
    case Known(CssWrite) => Known(Write)
    case _ => scope
  }

  predicate ActionMatches(store: seq<Quad>, rule: Term, scope: Term) {
    var action := OdrlAction(scope);
    || Quad(rule, Action, action) in store
    || ((action == Known(Append) || action == Known(Write)) && Quad(rule, Action, Known(Modify)) in store)
  }

  /** The parties a rule may be assigned to: anyone, each user, and the collections of each user. */
  function Parties(e: Env, store: seq<Quad>, users: seq<ClaimValue>): seq<Term> {
    if users == [] then [Known(Anonymous)]
    else var rest := Parties(e, store, users[1..]);
         if users[0].Text?
         then rest + [e.named(users[0].value)] + Objects(store, e.named(users[0].value), PartOf)
         else rest
  }

  predicate AssigneeMatches(e: Env, store: seq<Quad>, rule: Term, claims: ClaimSet) {
    var assignees := Objects(store, rule, Assignee);
    assignees == [] || exists a | a in assignees :: a in Parties(e, store, ClaimsFor(claims, WEBID))
  }

  function Targeting(store: seq<Quad>, targets: seq<Term>): seq<Term> {
    if targets == [] then [] else SubjectsWith(store, Target, targets[0]) + Targeting(store, targets[1..])
  }

  function Matching(e: Env, store: seq<Quad>, claims: ClaimSet, scope: Term, rules: seq<Term>): seq<Term> {
    if rules == [] then []
    else var rest := Matching(e, store, claims, scope, rules[1..]);
         if ActionMatches(store, rules[0], scope) && AssigneeMatches(e, store, rules[0], claims)
         then [rules[0]] + rest else rest
  }

  function Candidates(e: Env, store: seq<Quad>, claims: ClaimSet, resource: Term, scope: Term): seq<Term> {
    Matching(e, store, claims, scope, Targeting(store, [resource] + Objects(store, resource, PartOf)))
  }

  // ----- decision -----

  function Satisfied(e: Env, store: seq<Quad>, claims: ClaimSet, rules: seq<Term>): seq<Term> {
    if rules == [] then []
    else var rest := Satisfied(e, store, claims, rules[1..]);
         if RuleVerdict(e, store, claims, rules[0]) == Holds then [rules[0]] + rest else rest
  }

  /** The rules that apply, in order, up to the first that is not a plain permission. */
  function Conclude(store: seq<Quad>, rules: seq<Term>): Decision {
    if rules == [] then Grant else
    var predicates := PredicatesTo(store, rules[0]);
    if predicates == [] then Delegate
    else if HasProhibition in predicates then Deny
    else if HasPermission !in predicates then Delegate
    else Conclude(store, rules[1..])
  }

  function Decide(e: Env, store: seq<Quad>, claims: ClaimSet, resource: Term, scope: Term): Decision {
    var candidates := Candidates(e, store, claims, resource, scope);
    if exists r | r in candidates :: RuleVerdict(e, store, claims, r) == Complex then Delegate else
    var satisfied := Satisfied(e, store, claims, candidates);
    if satisfied == [] then Deny else Conclude(store, satisfied)
  }

  // ----- what a decision means -----

  lemma {:induction false} ObjectsSpec(store: seq<Quad>, subject: Term, property: Predicate)
    ensures forall o :: o in Objects(store, subject, property) <==> Quad(subject, property, o) in store
  {
    if store != [] { ObjectsSpec(store[1..], subject, property); assert store == [store[0]] + store[1..]; }
  }

  lemma {:induction false} SubjectsSpec(store: seq<Quad>, property: Predicate, value: Term)
    ensures forall s :: s in SubjectsWith(store, property, value) <==> Quad(s, property, value) in store
  {
    if store != [] { SubjectsSpec(store[1..], property, value); assert store == [store[0]] + store[1..]; }
  }

  lemma {:induction false} PredicatesSpec(store: seq<Quad>, value: Term)
    ensures forall p :: p in PredicatesTo(store, value) <==> exists s :: Quad(s, p, value) in store
  {
    if store != [] {
      PredicatesSpec(store[1..], value);
      assert store == [store[0]] + store[1..];
      forall p ensures p in PredicatesTo(store, value) <==> exists s :: Quad(s, p, value) in store {
        if store[0].o == value && store[0].p == p { assert Quad(store[0].s, p, value) in store; }
        if s :| Quad(s, p, value) in store && Quad(s, p, value) != store[0] { assert Quad(s, p, value) in store[1..]; }
      }
    }
  }

  lemma {:induction false} TargetingSpec(store: seq<Quad>, targets: seq<Term>)
    ensures forall r :: r in Targeting(store, targets) <==> exists t | t in targets :: Quad(r, Target, t) in store
  {
    if targets != [] {
      TargetingSpec(store, targets[1..]);
      SubjectsSpec(store, Target, targets[0]);
      assert targets == [targets[0]] + targets[1..];
    }
  }

  lemma {:induction false} MatchingSpec(e: Env, store: seq<Quad>, claims: ClaimSet, scope: Term, rules: seq<Term>)
    ensures forall r :: r in Matching(e, store, claims, scope, rules) <==>
      r in rules && ActionMatches(store, r, scope) && AssigneeMatches(e, store, r, claims)
  {
    if rules != [] {
      MatchingSpec(e, store, claims, scope, rules[1..]);
      assert rules == [rules[0]] + rules[1..];
      hide ActionMatches, AssigneeMatches;
    }
  }

  lemma {:induction false} SatisfiedSpec(e: Env, store: seq<Quad>, claims: ClaimSet, rules: seq<Term>)
    ensures forall r :: r in Satisfied(e, store, claims, rules) <==>
      r in rules && RuleVerdict(e, store, claims, r) == Holds
  {
    if rules != [] {
      SatisfiedSpec(e, store, claims, rules[1..]);
      assert rules == [rules[0]] + rules[1..];
      hide RuleVerdict;
    }
  }

  predicate PlainPermission(store: seq<Quad>, rule: Term) {
    HasPermission in PredicatesTo(store, rule) && HasProhibition !in PredicatesTo(store, rule)
  }

  lemma {:induction false} ConcludeSpec(store: seq<Quad>, rules: seq<Term>)
    ensures Conclude(store, rules) == Grant <==> forall r | r in rules :: PlainPermission(store, r)
    ensures Conclude(store, rules) == Deny ==> exists r | r in rules :: HasProhibition in PredicatesTo(store, r)
  {
    if rules != [] {
      ConcludeSpec(store, rules[1..]);
      assert rules == [rules[0]] + rules[1..];
      assert Conclude(store, rules) == Grant <==>
        PlainPermission(store, rules[0]) && Conclude(store, rules[1..]) == Grant;
      assert HasProhibition in PredicatesTo(store, rules[0]) || Conclude(store, rules) == Deny ==>
        HasProhibition in PredicatesTo(store, rules[0]) || Conclude(store, rules[1..]) == Deny;
      hide Conclude, PlainPermission, PredicatesTo;
    }
  }

  /** A scope is granted exactly when some candidate is satisfied, no candidate is too complex, and
      every satisfied candidate is a permission and none a prohibition. */
  lemma GrantedIff(e: Env, store: seq<Quad>, claims: ClaimSet, resource: Term, scope: Term)
    ensures var candidates := Candidates(e, store, claims, resource, scope);
      Decide(e, store, claims, resource, scope) == Grant <==>
        && (exists r | r in candidates :: RuleVerdict(e, store, claims, r) == Holds)
        && (forall r | r in candidates :: RuleVerdict(e, store, claims, r) != Complex)
        && (forall r | r in candidates && RuleVerdict(e, store, claims, r) == Holds :: PlainPermission(store, r))
  {
    var candidates := Candidates(e, store, claims, resource, scope);
    var satisfied := Satisfied(e, store, claims, candidates);
    SatisfiedSpec(e, store, claims, candidates);
    ConcludeSpec(store, satisfied);
    hide RuleVerdict, PlainPermission, Candidates, Satisfied, Conclude;
    assert satisfied != [] ==> satisfied[0] in satisfied;
  }

  // ----- the order of enumeration -----

  /** The same store, enumerated in another order. */
  ghost predicate SameQuads(p: seq<Quad>, q: seq<Quad>) {
    forall x :: x in p <==> x in q
  }

  ghost predicate SingleValued(store: seq<Quad>, property: Predicate) {
    forall c, a, b | Quad(c, property, a) in store && Quad(c, property, b) in store :: a == b
  }

  ghost predicate SingleOperands(store: seq<Quad>) {
    && SingleValued(store, LeftOperand) && SingleValued(store, OvcLeftOperand) && SingleValued(store, Operator)
    && SingleValued(store, RightOperand) && SingleValued(store, OvcSubjectType)
  }

  lemma SameObjects(p: seq<Quad>, q: seq<Quad>, subject: Term, property: Predicate)
    requires SameQuads(p, q)
    ensures forall o :: o in Objects(p, subject, property) <==> o in Objects(q, subject, property)
    ensures SingleValued(p, property) ==> First(Objects(p, subject, property)) == First(Objects(q, subject, property))
  {
    ObjectsSpec(p, subject, property);
    ObjectsSpec(q, subject, property);
    var a, b := Objects(p, subject, property), Objects(q, subject, property);
    assert a != [] ==> a[0] in a;
    assert b != [] ==> b[0] in b;
    hide Objects;
    if SingleValued(p, property) && a != [] && b != [] {
      assert Quad(subject, property, a[0]) in p && Quad(subject, property, b[0]) in p;
    }
  }

  lemma SameConstraint(p: seq<Quad>, q: seq<Quad>, c: Term, left: Predicate)
    requires SameQuads(p, q) && SingleOperands(p) && left in {LeftOperand, OvcLeftOperand}
    ensures ConstraintAt(p, c, left) == ConstraintAt(q, c, left)
  {
    SameObjects(p, q, c, left);
    SameObjects(p, q, c, Operator);
    SameObjects(p, q, c, RightOperand);
    SameObjects(p, q, c, OvcSubjectType);
    hide Objects;
  }

  lemma {:induction false} ConstraintsSpec(store: seq<Quad>, terms: seq<Term>, left: Predicate)
    ensures forall c :: c in ConstraintsOf(store, terms, left) <==>
      exists t | t in terms :: c == ConstraintAt(store, t, left)
  {
    if terms != [] {
      ConstraintsSpec(store, terms[1..], left);
      assert terms == [terms[0]] + terms[1..];
      hide ConstraintAt;
    }
  }

  lemma {:induction false} JudgeAllSpec(e: Env, claims: ClaimSet, constraints: seq<Constraint>)
    requires forall c | c in constraints :: c.Complete()
    ensures JudgeAll(e, claims, constraints) == Holds <==> forall c | c in constraints :: Judge(e, claims, c) == Holds
    ensures JudgeAllOvc(e, claims, constraints) == Holds <==>
      forall c | c in constraints :: JudgeOvc(e, claims, c) == Holds
  {
    if constraints != [] {
      JudgeAllSpec(e, claims, constraints[1..]);
      assert constraints == [constraints[0]] + constraints[1..];
      hide Judge, JudgeOvc;
    }
  }

  /** A rule is satisfied when all its constraints are, whatever the order they are tried in. */
  ghost predicate AllHold(e: Env, store: seq<Quad>, claims: ClaimSet, rule: Term) {
    && (forall t | t in Objects(store, rule, HasConstraint) ::
          var c := ConstraintAt(store, t, LeftOperand); c.Complete() && Judge(e, claims, c) == Holds)
    && (forall t | t in Objects(store, rule, OvcConstraint) ::
          var c := ConstraintAt(store, t, OvcLeftOperand); c.Complete() && JudgeOvc(e, claims, c) == Holds)
  }

  lemma PlainHoldsIff(e: Env, store: seq<Quad>, claims: ClaimSet, rule: Term)
    ensures PlainVerdict(e, store, claims, rule) == Holds <==>
      forall t | t in Objects(store, rule, HasConstraint) ::
        var c := ConstraintAt(store, t, LeftOperand); c.Complete() && Judge(e, claims, c) == Holds
  {
    hide Objects, ConstraintsOf, ConstraintAt, Judge, JudgeAll;
    var constraints := ConstraintsOf(store, Objects(store, rule, HasConstraint), LeftOperand);
    ConstraintsSpec(store, Objects(store, rule, HasConstraint), LeftOperand);
    if forall c | c in constraints :: c.Complete() { JudgeAllSpec(e, claims, constraints); }
  }

  lemma OvcHoldsIff(e: Env, store: seq<Quad>, claims: ClaimSet, rule: Term)
    ensures OvcVerdict(e, store, claims, rule) == Holds <==>
      forall t | t in Objects(store, rule, OvcConstraint) ::
        var c := ConstraintAt(store, t, OvcLeftOperand); c.Complete() && JudgeOvc(e, claims, c) == Holds
  {
    assert forall c: Constraint | c.Complete() && JudgeOvc(e, claims, c) == Holds :: ClaimsFor(claims, VC) != [];
    hide Objects, ConstraintsOf, ConstraintAt, JudgeOvc, JudgeAllOvc, ClaimsFor;
    var constraints := ConstraintsOf(store, Objects(store, rule, OvcConstraint), OvcLeftOperand);
    ConstraintsSpec(store, Objects(store, rule, OvcConstraint), OvcLeftOperand);
    assert constraints != [] ==> constraints[0] in constraints;
    if forall c | c in constraints :: c.Complete() { JudgeAllSpec(e, claims, constraints); }
  }

  lemma HoldsIffAllHold(e: Env, store: seq<Quad>, claims: ClaimSet, rule: Term)
    ensures RuleVerdict(e, store, claims, rule) == Holds <==> AllHold(e, store, claims, rule)
  {
    hide PlainVerdict, OvcVerdict, Objects, ConstraintAt, Judge, JudgeOvc;
    PlainHoldsIff(e, store, claims, rule);
    OvcHoldsIff(e, store, claims, rule);
  }

  lemma SameVerdict(e: Env, p: seq<Quad>, q: seq<Quad>, claims: ClaimSet, rule: Term)
    requires SameQuads(p, q) && SingleOperands(p)
    ensures RuleVerdict(e, p, claims, rule) == Holds <==> RuleVerdict(e, q, claims, rule) == Holds
  {
    HoldsIffAllHold(e, p, claims, rule);
    HoldsIffAllHold(e, q, claims, rule);
    SameObjects(p, q, rule, HasConstraint);
    SameObjects(p, q, rule, OvcConstraint);
    forall t ensures ConstraintAt(p, t, LeftOperand) == ConstraintAt(q, t, LeftOperand)
                  && ConstraintAt(p, t, OvcLeftOperand) == ConstraintAt(q, t, OvcLeftOperand)
    {
      SameConstraint(p, q, t, LeftOperand);
      SameConstraint(p, q, t, OvcLeftOperand);
    }
    hide RuleVerdict, Objects, ConstraintAt, Judge, JudgeOvc;
  }

  lemma {:induction false} SameParties(e: Env, p: seq<Quad>, q: seq<Quad>, users: seq<ClaimValue>)
    requires SameQuads(p, q)
    ensures forall a :: a in Parties(e, p, users) <==> a in Parties(e, q, users)
  {
    if users != [] {
      SameParties(e, p, q, users[1..]);
      if users[0].Text? { SameObjects(p, q, e.named(users[0].value), PartOf); }
      hide Objects;
    }
  }

  lemma SameCandidates(e: Env, p: seq<Quad>, q: seq<Quad>, claims: ClaimSet, resource: Term, scope: Term)
    requires SameQuads(p, q)
    ensures forall r ::
      r in Candidates(e, p, claims, resource, scope) <==> r in Candidates(e, q, claims, resource, scope)
  {
    var ps, qs := [resource] + Objects(p, resource, PartOf), [resource] + Objects(q, resource, PartOf);
    SameObjects(p, q, resource, PartOf);
    TargetingSpec(p, ps);
    TargetingSpec(q, qs);
    MatchingSpec(e, p, claims, scope, Targeting(p, ps));
    MatchingSpec(e, q, claims, scope, Targeting(q, qs));
    SameParties(e, p, q, ClaimsFor(claims, WEBID));
    hide Objects, Parties, Targeting, Matching;
    forall r ensures AssigneeMatches(e, p, r, claims) <==> AssigneeMatches(e, q, r, claims) {
      SameObjects(p, q, r, Assignee);
      var a, b := Objects(p, r, Assignee), Objects(q, r, Assignee);
      assert a != [] ==> a[0] in a;
      assert b != [] ==> b[0] in b;
    }
    forall r ensures ActionMatches(p, r, scope) <==> ActionMatches(q, r, scope) {}
    hide AssigneeMatches, ActionMatches;
  }

  /** The order of enumeration may turn a grant or a denial into a delegation, but never one into the other. */
  lemma OrderNeverFlips(e: Env, p: seq<Quad>, q: seq<Quad>, claims: ClaimSet, resource: Term, scope: Term)
    requires SameQuads(p, q) && SingleOperands(p)
    ensures Decide(e, p, claims, resource, scope) == Grant ==> Decide(e, q, claims, resource, scope) != Deny
    ensures Decide(e, p, claims, resource, scope) == Deny ==> Decide(e, q, claims, resource, scope) != Grant
  {
    hide Candidates, RuleVerdict, Decide, PredicatesTo;
    SameCandidates(e, p, q, claims, resource, scope);
    GrantedIff(e, p, claims, resource, scope);
    GrantedIff(e, q, claims, resource, scope);
    if Decide(e, p, claims, resource, scope) == Deny { DeniedOnlyIf(e, p, claims, resource, scope); }
    if Decide(e, q, claims, resource, scope) == Deny { DeniedOnlyIf(e, q, claims, resource, scope); }
    forall r ensures RuleVerdict(e, p, claims, r) == Holds <==> RuleVerdict(e, q, claims, r) == Holds {
      SameVerdict(e, p, q, claims, r);
    }
    forall r, x ensures x in PredicatesTo(p, r) <==> x in PredicatesTo(q, r) {
      PredicatesSpec(p, r);
      PredicatesSpec(q, r);
    }
  }

  lemma DeniedOnlyIf(e: Env, store: seq<Quad>, claims: ClaimSet, resource: Term, scope: Term)
    requires Decide(e, store, claims, resource, scope) == Deny
    ensures var candidates := Candidates(e, store, claims, resource, scope);
      || (forall r | r in candidates :: RuleVerdict(e, store, claims, r) != Holds)
      || (exists r | r in candidates ::
        RuleVerdict(e, store, claims, r) == Holds && HasProhibition in PredicatesTo(store, r))
  {
    var candidates := Candidates(e, store, claims, resource, scope);
    var satisfied := Satisfied(e, store, claims, candidates);
    SatisfiedSpec(e, store, claims, candidates);
    ConcludeSpec(store, satisfied);
    hide RuleVerdict, Candidates, Satisfied, Conclude, PredicatesTo;
  }

  // ----- the authorizer as it runs -----

  method ValidateConstraints(e: Env, policies: seq<Quad>, claims: ClaimSet, rule: Term) returns (verdict: Verdict)
    ensures verdict == PlainVerdict(e, policies, claims, rule)
  {
    var constraints := ConstraintsOf(policies, Objects(policies, rule, HasConstraint), LeftOperand);
    if exists c | c in constraints :: !c.Complete() { return Complex; }
    for i := 0 to |constraints|
      invariant JudgeAll(e, claims, constraints) == JudgeAll(e, claims, constraints[i..])
    {
      assert constraints[i..][0] == constraints[i] && constraints[i..][1..] == constraints[i + 1..];
      verdict := Judge(e, claims, constraints[i]);
      if verdict != Holds { return; }
    }
    return Holds;
  }

  method ValidateOvcConstraints(e: Env, policies: seq<Quad>, claims: ClaimSet, rule: Term) returns (verdict: Verdict)
    ensures verdict == OvcVerdict(e, policies, claims, rule)
  {
    var constraints := ConstraintsOf(policies, Objects(policies, rule, OvcConstraint), OvcLeftOperand);
    if exists c | c in constraints :: !c.Complete() { return Complex; }
    if constraints == [] { return Holds; }
    if ClaimsFor(claims, VC) == [] { return Fails; }
    for i := 0 to |constraints|
      invariant JudgeAllOvc(e, claims, constraints) == JudgeAllOvc(e, claims, constraints[i..])
    {
      assert constraints[i..][0] == constraints[i] && constraints[i..][1..] == constraints[i + 1..];
      verdict := JudgeOvc(e, claims, constraints[i]);
      if verdict != Holds { return; }
    }
    return Holds;
  }

  lemma SatisfiedFrom(e: Env, store: seq<Quad>, claims: ClaimSet, rules: seq<Term>, i: nat)
    requires i < |rules|
    ensures Satisfied(e, store, claims, rules[i..]) ==
      (if RuleVerdict(e, store, claims, rules[i]) == Holds then [rules[i]] else [])
        + Satisfied(e, store, claims, rules[i + 1..])
  {
    hide RuleVerdict;
    assert rules[i..][0] == rules[i] && rules[i..][1..] == rules[i + 1..];
  }

  lemma ConcludeFrom(store: seq<Quad>, rules: seq<Term>, i: nat)
    requires i < |rules|
    ensures var predicates := PredicatesTo(store, rules[i]);
      Conclude(store, rules[i..]) ==
        if predicates == [] then Delegate
        else if HasProhibition in predicates then Deny
        else if HasPermission !in predicates then Delegate
        else Conclude(store, rules[i + 1..])
  {
    hide PredicatesTo;
    assert rules[i..][0] == rules[i] && rules[i..][1..] == rules[i + 1..];
  }

  lemma DecideByRule(e: Env, store: seq<Quad>, claims: ClaimSet, resource: Term, scope: Term, i: nat)
    requires var candidates := Candidates(e, store, claims, resource, scope);
      i < |candidates| && RuleVerdict(e, store, claims, candidates[i]) == Complex
    ensures Decide(e, store, claims, resource, scope) == Delegate
  {
    hide Candidates, RuleVerdict, Satisfied, Conclude;
    assert Candidates(e, store, claims, resource, scope)[i] in Candidates(e, store, claims, resource, scope);
  }

  lemma DecideBySatisfied(e: Env, store: seq<Quad>, claims: ClaimSet, resource: Term, scope: Term)
    requires var candidates := Candidates(e, store, claims, resource, scope);
      forall i | 0 <= i < |candidates| :: RuleVerdict(e, store, claims, candidates[i]) != Complex
    ensures var satisfied := Satisfied(e, store, claims, Candidates(e, store, claims, resource, scope));
      Decide(e, store, claims, resource, scope) == if satisfied == [] then Deny else Conclude(store, satisfied)
  {
    hide Candidates, RuleVerdict, Satisfied, Conclude;
  }

  method GetPermissions(e: Env, policies: seq<Quad>, claims: ClaimSet, resource: Term, scope: Term)
    returns (decision: Decision)
    ensures decision == Decide(e, policies, claims, resource, scope)
  {
    hide Candidates, RuleVerdict, PlainVerdict, OvcVerdict, PredicatesTo, Satisfied, Conclude, Decide;
    var rules := Candidates(e, policies, claims, resource, scope);
    NoRules(e, policies, claims);
    if rules == [] {
      DecideBySatisfied(e, policies, claims, resource, scope);
      return Deny;
    }
    var validRules := [];
    for i := 0 to |rules|
      invariant forall j | 0 <= j < i :: RuleVerdict(e, policies, claims, rules[j]) != Complex
      invariant Satisfied(e, policies, claims, rules) == validRules + Satisfied(e, policies, claims, rules[i..])
    {
      SatisfiedFrom(e, policies, claims, rules, i);
      var plain := ValidateConstraints(e, policies, claims, rules[i]);
      var ovc := ValidateOvcConstraints(e, policies, claims, rules[i]);
      VerdictOf(e, policies, claims, rules[i]);
      if plain == Holds && ovc == Holds {
        validRules := validRules + [rules[i]];
      } else if plain == Complex || ovc == Complex {
        DecideByRule(e, policies, claims, resource, scope, i);
        return Delegate;
      }
    }
    assert rules[|rules|..] == [] && validRules == Satisfied(e, policies, claims, rules);
    DecideBySatisfied(e, policies, claims, resource, scope);
    if validRules == [] { return Deny; }
    for i := 0 to |validRules|
      invariant Conclude(policies, validRules) == Conclude(policies, validRules[i..])
    {
      ConcludeFrom(policies, validRules, i);
      var predicates := PredicatesTo(policies, validRules[i]);
      if predicates == [] { return Delegate; }
      if HasProhibition in predicates { return Deny; }
      if HasPermission !in predicates { return Delegate; }
    }
    assert validRules[|validRules|..] == [];
    return Grant;
  }

  lemma NoRules(e: Env, store: seq<Quad>, claims: ClaimSet)
    ensures Satisfied(e, store, claims, []) == [] && Conclude(store, []) == Grant
  {}

  lemma VerdictOf(e: Env, policies: seq<Quad>, claims: ClaimSet, rule: Term)
    ensures var plain, ovc := PlainVerdict(e, policies, claims, rule), OvcVerdict(e, policies, claims, rule);
      RuleVerdict(e, policies, claims, rule) ==
        if plain == Holds && ovc == Holds then Holds else if plain == Complex || ovc == Complex then Complex else Fails
  {}

  predicate NeedsDelegation(e: Env, store: seq<Quad>, claims: ClaimSet, query: seq<Permission>) {
    exists p, s | p in query && s in p.scopes :: Decide(e, store, claims, p.resource, s) == Delegate
  }

  function Allowed(e: Env, store: seq<Quad>, claims: ClaimSet, resource: Term, scopes: seq<Term>): seq<Term> {
    if scopes == [] then [] else
    var last := scopes[|scopes| - 1];
    Allowed(e, store, claims, resource, scopes[..|scopes| - 1])
    + if Decide(e, store, claims, resource, last) == Grant then [last] else []
  }

  function Grants(e: Env, store: seq<Quad>, claims: ClaimSet, query: seq<Permission>): seq<Permission> {
    if query == [] then [] else
    var p := query[|query| - 1];
    var allowed := Allowed(e, store, claims, p.resource, p.scopes);
    Grants(e, store, claims, query[..|query| - 1]) + if allowed == [] then [] else [Permission(p.resource, allowed)]
  }

  /** The whole query is delegated when one of its scopes is too complex. */
  function Authorize(e: Env, store: seq<Quad>, claims: ClaimSet, query: seq<Permission>,
                     evaluator: Authorizer): seq<Permission>
  {
    if NeedsDelegation(e, store, claims, query) then evaluator(claims, query) else Grants(e, store, claims, query)
  }

  lemma {:induction false} AllowedSpec(e: Env, store: seq<Quad>, claims: ClaimSet, resource: Term, scopes: seq<Term>)
    ensures forall s :: s in Allowed(e, store, claims, resource, scopes) <==>
      s in scopes && Decide(e, store, claims, resource, s) == Grant
  {
    hide Decide;
    if scopes != [] {
      AllowedSpec(e, store, claims, resource, scopes[..|scopes| - 1]);
      assert scopes == scopes[..|scopes| - 1] + [scopes[|scopes| - 1]];
    }
  }

  /** Without delegation, exactly the pairs are granted whose own decision is to grant. */
  lemma {:induction false} GrantsSpec(e: Env, store: seq<Quad>, claims: ClaimSet, query: seq<Permission>)
    ensures forall pair :: pair in Pairs(Grants(e, store, claims, query)) <==>
      pair in Pairs(query) && Decide(e, store, claims, pair.0, pair.1) == Grant
  {
    hide Decide, Allowed;
    if query != [] {
      var n := |query| - 1;
      var p := query[n];
      var allowed := Allowed(e, store, claims, p.resource, p.scopes);
      GrantsSpec(e, store, claims, query[..n]);
      AllowedSpec(e, store, claims, p.resource, p.scopes);
      assert query == query[..n] + [p];
      PairsAppend(query[..n], [p]);
      var added := if allowed == [] then [] else [Permission(p.resource, allowed)];
      PairsAppend(Grants(e, store, claims, query[..n]), added);
      OnePermission(p);
      OnePermission(Permission(p.resource, allowed));
      hide Pairs;
    }
  }

  lemma OnePermission(p: Permission)
    ensures forall pair :: pair in Pairs([p]) <==> pair.0 == p.resource && pair.1 in p.scopes
    ensures Pairs([]) == {}
  {
    assert p in [p];
  }

  lemma AuthorizeIsBounded(e: Env, store: seq<Quad>, claims: ClaimSet, query: seq<Permission>, evaluator: Authorizer)
    requires Bounded(evaluator)
    ensures Pairs(Authorize(e, store, claims, query, evaluator)) <= Pairs(query)
  {
    hide Grants, Decide, Pairs;
    GrantsSpec(e, store, claims, query);
  }

  method AuthorizePermissions(e: Env, policies: seq<Quad>, claims: ClaimSet, query: seq<Permission>,
                              evaluator: Authorizer)
    returns (permissions: seq<Permission>)
    ensures permissions == Authorize(e, policies, claims, query, evaluator)
  {
    hide Decide;
    permissions := [];
    for i := 0 to |query|
      invariant forall p, s | p in query[..i] && s in p.scopes :: Decide(e, policies, claims, p.resource, s) != Delegate
      invariant permissions == Grants(e, policies, claims, query[..i])
    {
      var p := query[i];
      var allowed := [];
      for j := 0 to |p.scopes|
        invariant forall s | s in p.scopes[..j] :: Decide(e, policies, claims, p.resource, s) != Delegate
        invariant allowed == Allowed(e, policies, claims, p.resource, p.scopes[..j])
      {
        var result := GetPermissions(e, policies, claims, p.resource, p.scopes[j]);
        assert p.scopes[..j + 1] == p.scopes[..j] + [p.scopes[j]];
        if result == Delegate {
          assert p in query && p.scopes[j] in p.scopes;
          return evaluator(claims, query);
        }
        if result == Grant { allowed := allowed + [p.scopes[j]]; }
      }
      assert query[..i + 1] == query[..i] + [p];
      assert p.scopes[..|p.scopes|] == p.scopes;
      if allowed != [] { permissions := permissions + [Permission(p.resource, allowed)]; }
    }
    assert query[..|query|] == query;
  }
}
