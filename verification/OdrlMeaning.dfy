/** What the policy authorizer decides, in terms of the quads of the store and the claims that were presented. */
module OdrlMeaning {
  import opened Rdf
  import opened Permissions
  import opened SimpleOdrlAuthorizer

  // ----- who a rule is for -----

  /** The claims say that this is the user. */
  predicate IsUser(e: Env, claims: ClaimSet, user: Term) {
    WEBID in claims && exists c | c in claims[WEBID] :: c.Text? && e.named(c.value) == user
  }

  /** A rule without assignees is for everybody; otherwise one assignee is anybody, the user, or has the user as a
      part. */
  ghost predicate IsFor(e: Env, store: seq<Quad>, claims: ClaimSet, rule: Term) {
    || (forall a :: Quad(rule, Assignee, a) !in store)
    || exists a | Quad(rule, Assignee, a) in store :: IsParty(e, store, claims, a)
  }

  ghost predicate IsParty(e: Env, store: seq<Quad>, claims: ClaimSet, party: Term) {
    party == Known(Anonymous) || IsUser(e, claims, party)
    || exists user | IsUser(e, claims, user) :: Quad(user, PartOf, party) in store
  }

  lemma {:induction false} PartiesSpec(e: Env, store: seq<Quad>, users: seq<ClaimValue>, a: Term)
    ensures a in Parties(e, store, users) <==>
      || a == Known(Anonymous)
      || exists c | c in users :: c.Text? && (a == e.named(c.value) || Quad(e.named(c.value), PartOf, a) in store)
  {
    if users != [] {
      PartiesSpec(e, store, users[1..], a);
      assert users == [users[0]] + users[1..];
      if users[0].Text? { ObjectsSpec(store, e.named(users[0].value), PartOf); }
      hide Objects;
    }
  }

  lemma AssigneeIff(e: Env, store: seq<Quad>, rule: Term, claims: ClaimSet)
    ensures AssigneeMatches(e, store, rule, claims) <==> IsFor(e, store, claims, rule)
  {
    var assignees, users := Objects(store, rule, Assignee), ClaimsFor(claims, WEBID);
    ObjectsSpec(store, rule, Assignee);
    SomeMember(assignees);
    forall a ensures a in Parties(e, store, users) <==> IsParty(e, store, claims, a) {
      PartiesSpec(e, store, users, a);
      if c :| c in users && c.Text? && Quad(e.named(c.value), PartOf, a) in store {
        assert IsUser(e, claims, e.named(c.value));
      }
    }
    hide Objects, Parties, IsParty;
  }

  // ----- what a rule is about -----

  /** Which scopes an action of a rule stands for. */
  predicate Includes(action: Term, scope: Term) {
    match action
    case Known(Read) => scope == Known(Read) || scope == Known(CssRead)
    case Known(Append) => scope == Known(Append) || scope == Known(CssAppend)
    case Known(Create) => scope == Known(Create) || scope == Known(CssCreate)
    case Known(Delete) => scope == Known(Delete) || scope == Known(CssDelete)
    case Known(Write) => scope == Known(Write) || scope == Known(CssWrite)
    case Known(Modify) =>
      scope in {Known(Modify), Known(Append), Known(CssAppend), Known(Write), Known(CssWrite)}
    case Known(word) => scope == action && word !in {CssRead, CssAppend, CssCreate, CssDelete, CssWrite}
    case _ => scope == action
  }

  ghost predicate Allows(store: seq<Quad>, rule: Term, scope: Term) {
    exists action | Quad(rule, Action, action) in store :: Includes(action, scope)
  }

  ghost predicate Targets(store: seq<Quad>, rule: Term, resource: Term) {
    || Quad(rule, Target, resource) in store
    || exists t :: Quad(resource, PartOf, t) in store && Quad(rule, Target, t) in store
  }

  lemma ActionIff(store: seq<Quad>, rule: Term, scope: Term)
    ensures ActionMatches(store, rule, scope) <==> Allows(store, rule, scope)
  {
    if ActionMatches(store, rule, scope) {
      var action := if Quad(rule, Action, OdrlAction(scope)) in store then OdrlAction(scope) else Known(Modify);
      assert Quad(rule, Action, action) in store && Includes(action, scope);
    }
  }

  /** A rule applies when it targets the resource or a collection of it, allows the scope and is for the user. */
  ghost predicate Applies(e: Env, store: seq<Quad>, claims: ClaimSet, resource: Term, scope: Term, rule: Term) {
    Targets(store, rule, resource) && Allows(store, rule, scope) && IsFor(e, store, claims, rule)
  }

  lemma AppliesIff(e: Env, store: seq<Quad>, claims: ClaimSet, resource: Term, scope: Term, rule: Term)
    ensures rule in Candidates(e, store, claims, resource, scope) <==> Applies(e, store, claims, resource, scope, rule)
  {
    var targets := [resource] + Objects(store, resource, PartOf);
    ObjectsSpec(store, resource, PartOf);
    TargetingSpec(store, targets);
    MatchingSpec(e, store, claims, scope, Targeting(store, targets));
    ActionIff(store, rule, scope);
    AssigneeIff(e, store, rule, claims);
    hide Objects, Targeting, Matching, ActionMatches, AssigneeMatches, Allows, IsFor;
    assert forall t :: t in targets <==> t == resource || Quad(resource, PartOf, t) in store;
  }

  /** Nobody is granted anything by rules that are for others. */
  lemma OthersAreDenied(e: Env, store: seq<Quad>, claims: ClaimSet, resource: Term, scope: Term)
    requires forall rule | Targets(store, rule, resource) && Allows(store, rule, scope) ::
      && (exists a :: Quad(rule, Assignee, a) in store)
      && forall a | Quad(rule, Assignee, a) in store :: !IsParty(e, store, claims, a)
    ensures Decide(e, store, claims, resource, scope) == Deny
  {
    hide RuleVerdict, Candidates, Targets, Allows, IsParty;
    var candidates := Candidates(e, store, claims, resource, scope);
    forall rule ensures rule !in candidates { AppliesIff(e, store, claims, resource, scope, rule); }
    SomeMember(candidates);
  }

  // ----- constraints -----

  /** What a plain constraint demands. */
  predicate Demands(e: Env, claims: ClaimSet, left: Term, operator: Term, right: Term) {
    if left == Known(DateTime) then
      && e.date(right).Some?
      && var date := e.date(right).value;
         || (operator == Known(Lt) && e.now < date) || (operator == Known(Gt) && date < e.now)
         || (operator == Known(Lteq) && !(date < e.now)) || (operator == Known(Gteq) && !(e.now < date))
    else
      && operator == Known(Eq)
      && var key := if left == Known(DeliveryChannel) then CLIENTID else e.lexical(left);
         && key in claims && Text(e.lexical(right)) in claims[key]
         && (left == Known(DeliveryChannel) || forall c | c in claims[key] :: c.Text?)
  }

  /** The authorizer knows what the constraint means. */
  predicate IsClear(e: Env, claims: ClaimSet, left: Term, operator: Term) {
    || left == Known(DateTime) || left == Known(DeliveryChannel)
    || (operator == Known(Eq) && e.lexical(left) in claims && forall c | c in claims[e.lexical(left)] :: c.Text?)
  }

  lemma JudgeMeans(e: Env, claims: ClaimSet, c: Constraint)
    requires c.Complete()
    ensures Judge(e, claims, c) == Holds <==> Demands(e, claims, c.left.value, c.operator.value, c.right.value)
    ensures Judge(e, claims, c) != Complex <==> IsClear(e, claims, c.left.value, c.operator.value)
  {}

  /** One credential says it all: the value, and the type when there is one. */
  ghost predicate Shows(e: Env, store: seq<Quad>, t: Term, credential: ClaimValue, left: Term, right: Term) {
    && e.lexical(right) in e.query(credential, e.lexical(left))
    && forall kind | Quad(t, OvcSubjectType, kind) in store :: e.lexical(kind) in e.query(credential, "$.type")
  }

  ghost predicate IsMet(e: Env, store: seq<Quad>, claims: ClaimSet, t: Term) {
    exists left, operator, right ::
      && Quad(t, LeftOperand, left) in store && Quad(t, Operator, operator) in store
      && Quad(t, RightOperand, right) in store && Demands(e, claims, left, operator, right)
  }

  ghost predicate IsShown(e: Env, store: seq<Quad>, claims: ClaimSet, t: Term) {
    exists left, right ::
      && Quad(t, OvcLeftOperand, left) in store && Quad(t, Operator, Known(Eq)) in store
      && Quad(t, RightOperand, right) in store
      && VC in claims && exists credential | credential in claims[VC] :: Shows(e, store, t, credential, left, right)
  }

  ghost predicate IsSatisfied(e: Env, store: seq<Quad>, claims: ClaimSet, rule: Term) {
    && (forall t | Quad(rule, HasConstraint, t) in store :: IsMet(e, store, claims, t))
    && (forall t | Quad(rule, OvcConstraint, t) in store :: IsShown(e, store, claims, t))
  }

  lemma FirstIs(store: seq<Quad>, t: Term, p: Predicate)
    requires SingleValued(store, p)
    ensures forall o :: Quad(t, p, o) in store <==> First(Objects(store, t, p)) == Some(o)
  {
    ObjectsSpec(store, t, p);
    var objects := Objects(store, t, p);
    hide Objects;
    if objects != [] { assert objects[0] in objects; }
  }

  lemma MetIff(e: Env, store: seq<Quad>, claims: ClaimSet, t: Term)
    requires SingleOperands(store)
    ensures var c := ConstraintAt(store, t, LeftOperand);
      c.Complete() && Judge(e, claims, c) == Holds <==> IsMet(e, store, claims, t)
  {
    FirstIs(store, t, LeftOperand);
    FirstIs(store, t, Operator);
    FirstIs(store, t, RightOperand);
    var c := ConstraintAt(store, t, LeftOperand);
    hide Judge, Objects, Demands;
    if c.Complete() { JudgeMeans(e, claims, c); }
  }

  lemma ShownIff(e: Env, store: seq<Quad>, claims: ClaimSet, t: Term)
    requires SingleOperands(store)
    ensures var c := ConstraintAt(store, t, OvcLeftOperand);
      c.Complete() && JudgeOvc(e, claims, c) == Holds <==> IsShown(e, store, claims, t)
  {
    FirstIs(store, t, OvcLeftOperand);
    FirstIs(store, t, Operator);
    FirstIs(store, t, RightOperand);
    FirstIs(store, t, OvcSubjectType);
    var c := ConstraintAt(store, t, OvcLeftOperand);
    hide Objects;
    if c.Complete() {
      forall credential
        ensures Presents(e, credential, c) <==> Shows(e, store, t, credential, c.left.value, c.right.value) {}
      hide Presents, Shows;
    }
  }

  /** A rule is satisfied exactly when each of its constraints is met: dates by the clock, the client and other claims
      by the values that were presented, credentials by one that shows all. */
  lemma SatisfiedIff(e: Env, store: seq<Quad>, claims: ClaimSet, rule: Term)
    requires SingleOperands(store)
    ensures RuleVerdict(e, store, claims, rule) == Holds <==> IsSatisfied(e, store, claims, rule)
  {
    HoldsIffAllHold(e, store, claims, rule);
    ObjectsSpec(store, rule, HasConstraint);
    ObjectsSpec(store, rule, OvcConstraint);
    hide RuleVerdict, Objects, ConstraintAt, Judge, JudgeOvc, IsMet, IsShown, SingleOperands;
    forall t | Quad(rule, HasConstraint, t) in store { MetIff(e, store, claims, t); }
    forall t | Quad(rule, OvcConstraint, t) in store { ShownIff(e, store, claims, t); }
  }

  // ----- decisions -----

  /** Every constraint of the rule has its operands, and the authorizer knows what it means. */
  ghost predicate IsSimple(e: Env, store: seq<Quad>, claims: ClaimSet, rule: Term) {
    && (forall t | Quad(rule, HasConstraint, t) in store :: IsUnderstood(e, store, claims, t))
    && (forall t | Quad(rule, OvcConstraint, t) in store ::
          HasOperands(store, t, OvcLeftOperand) && Quad(t, Operator, Known(Eq)) in store)
  }

  ghost predicate HasOperands(store: seq<Quad>, t: Term, left: Predicate) {
    exists l, operator, right ::
      Quad(t, left, l) in store && Quad(t, Operator, operator) in store && Quad(t, RightOperand, right) in store
  }

  ghost predicate IsUnderstood(e: Env, store: seq<Quad>, claims: ClaimSet, t: Term) {
    && HasOperands(store, t, LeftOperand)
    && exists left, operator ::
         Quad(t, LeftOperand, left) in store && Quad(t, Operator, operator) in store
           && IsClear(e, claims, left, operator)
  }

  lemma OperandsIff(store: seq<Quad>, t: Term, left: Predicate)
    requires left in {LeftOperand, OvcLeftOperand}
    ensures ConstraintAt(store, t, left).Complete() <==> HasOperands(store, t, left)
  {
    var c := ConstraintAt(store, t, left);
    ObjectsSpec(store, t, left);
    ObjectsSpec(store, t, Operator);
    ObjectsSpec(store, t, RightOperand);
    SomeMember(Objects(store, t, left));
    SomeMember(Objects(store, t, Operator));
    SomeMember(Objects(store, t, RightOperand));
    hide Objects;
    if c.Complete() {
      assert Quad(t, left, c.left.value) in store && Quad(t, Operator, c.operator.value) in store
          && Quad(t, RightOperand, c.right.value) in store;
    }
  }

  lemma UnderstoodIff(e: Env, store: seq<Quad>, claims: ClaimSet, t: Term)
    requires SingleOperands(store)
    ensures var c := ConstraintAt(store, t, LeftOperand);
      c.Complete() && Judge(e, claims, c) != Complex <==> IsUnderstood(e, store, claims, t)
  {
    OperandsIff(store, t, LeftOperand);
    FirstIs(store, t, LeftOperand);
    FirstIs(store, t, Operator);
    var c := ConstraintAt(store, t, LeftOperand);
    hide Judge, Objects, IsClear, HasOperands;
    if c.Complete() { JudgeMeans(e, claims, c); }
  }

  lemma {:induction false} JudgedOneByOne(e: Env, claims: ClaimSet, constraints: seq<Constraint>)
    requires forall c | c in constraints :: c.Complete()
    ensures (forall c | c in constraints :: Judge(e, claims, c) != Complex) ==>
      JudgeAll(e, claims, constraints) != Complex
    ensures (forall c | c in constraints :: Judge(e, claims, c) != Fails) ==> JudgeAll(e, claims, constraints) != Fails
    ensures (forall c | c in constraints :: JudgeOvc(e, claims, c) != Complex) ==>
      JudgeAllOvc(e, claims, constraints) != Complex
  {
    if constraints != [] {
      JudgedOneByOne(e, claims, constraints[1..]);
      assert constraints == [constraints[0]] + constraints[1..];
      hide Judge, JudgeOvc;
    }
  }

  lemma SimpleIsPlain(e: Env, store: seq<Quad>, claims: ClaimSet, rule: Term)
    requires SingleOperands(store)
    requires forall t | Quad(rule, HasConstraint, t) in store :: IsUnderstood(e, store, claims, t)
    ensures PlainVerdict(e, store, claims, rule) != Complex
  {
    var terms := Objects(store, rule, HasConstraint);
    ObjectsSpec(store, rule, HasConstraint);
    ConstraintsSpec(store, terms, LeftOperand);
    var constraints := ConstraintsOf(store, terms, LeftOperand);
    hide Objects, ConstraintsOf, ConstraintAt, Judge, IsUnderstood;
    forall c | c in constraints ensures c.Complete() && Judge(e, claims, c) != Complex {
      var t :| t in terms && c == ConstraintAt(store, t, LeftOperand);
      UnderstoodIff(e, store, claims, t);
    }
    JudgedOneByOne(e, claims, constraints);
  }

  lemma SimpleIsShown(e: Env, store: seq<Quad>, claims: ClaimSet, rule: Term)
    requires SingleOperands(store)
    requires forall t | Quad(rule, OvcConstraint, t) in store ::
      HasOperands(store, t, OvcLeftOperand) && Quad(t, Operator, Known(Eq)) in store
    ensures OvcVerdict(e, store, claims, rule) != Complex
  {
    var terms := Objects(store, rule, OvcConstraint);
    ObjectsSpec(store, rule, OvcConstraint);
    ConstraintsSpec(store, terms, OvcLeftOperand);
    var constraints := ConstraintsOf(store, terms, OvcLeftOperand);
    hide Objects, ConstraintsOf, HasOperands, Presents;
    forall c | c in constraints ensures c.Complete() && JudgeOvc(e, claims, c) != Complex {
      var t :| t in terms && c == ConstraintAt(store, t, OvcLeftOperand);
      OperandsIff(store, t, OvcLeftOperand);
      FirstIs(store, t, Operator);
    }
    JudgedOneByOne(e, claims, constraints);
  }

  /** Some policy has the rule in this role. */
  ghost predicate Serves(store: seq<Quad>, role: Predicate, rule: Term) {
    exists policy :: Quad(policy, role, rule) in store
  }

  /** Where every rule that applies is simple, and every one that is satisfied is a permission or a prohibition, the
      decision is to grant exactly when some such rule is satisfied and none of these is a prohibition, and to deny
      otherwise. */
  lemma DecisionMeans(e: Env, store: seq<Quad>, claims: ClaimSet, resource: Term, scope: Term)
    requires SingleOperands(store)
    requires forall rule | Applies(e, store, claims, resource, scope, rule) :: IsSimple(e, store, claims, rule)
    requires forall rule | Applies(e, store, claims, resource, scope, rule) && IsSatisfied(e, store, claims, rule) ::
      Serves(store, HasPermission, rule) || Serves(store, HasProhibition, rule)
    ensures Decide(e, store, claims, resource, scope) ==
      if (exists rule | Applies(e, store, claims, resource, scope, rule) :: IsSatisfied(e, store, claims, rule))
        && (forall rule | Applies(e, store, claims, resource, scope, rule) && IsSatisfied(e, store, claims, rule) ::
              !Serves(store, HasProhibition, rule))
      then Grant else Deny
  {
    var candidates := Candidates(e, store, claims, resource, scope);
    forall rule
      ensures rule in candidates <==> Applies(e, store, claims, resource, scope, rule)
      ensures RuleVerdict(e, store, claims, rule) == Holds <==> IsSatisfied(e, store, claims, rule)
      ensures rule in candidates ==> RuleVerdict(e, store, claims, rule) != Complex
      ensures HasPermission in PredicatesTo(store, rule) <==> Serves(store, HasPermission, rule)
      ensures HasProhibition in PredicatesTo(store, rule) <==> Serves(store, HasProhibition, rule)
    {
      AppliesIff(e, store, claims, resource, scope, rule);
      SatisfiedIff(e, store, claims, rule);
      PredicatesSpec(store, rule);
      if rule in candidates { SimpleIsDecided(e, store, claims, rule); }
    }
    hide Candidates, RuleVerdict, PredicatesTo, Serves, Applies, IsSatisfied, IsSimple, SingleOperands, Decide;
    GrantedIff(e, store, claims, resource, scope);
    SupportedIsDecided(e, store, claims, resource, scope);
  }

  lemma SimpleIsDecided(e: Env, store: seq<Quad>, claims: ClaimSet, rule: Term)
    requires SingleOperands(store) && IsSimple(e, store, claims, rule)
    ensures RuleVerdict(e, store, claims, rule) != Complex
  {
    SimpleIsPlain(e, store, claims, rule);
    SimpleIsShown(e, store, claims, rule);
    hide PlainVerdict, OvcVerdict;
  }

  lemma {:induction false} ConcludesWithSupported(store: seq<Quad>, rules: seq<Term>)
    requires forall r | r in rules ::
      HasPermission in PredicatesTo(store, r) || HasProhibition in PredicatesTo(store, r)
    ensures Conclude(store, rules) != Delegate
  {
    if rules != [] {
      ConcludesWithSupported(store, rules[1..]);
      assert rules[0] in rules;
      hide PredicatesTo;
    }
  }

  lemma SupportedIsDecided(e: Env, store: seq<Quad>, claims: ClaimSet, resource: Term, scope: Term)
    requires forall r | r in Candidates(e, store, claims, resource, scope) ::
      && RuleVerdict(e, store, claims, r) != Complex
      && (RuleVerdict(e, store, claims, r) == Holds ==>
            HasPermission in PredicatesTo(store, r) || HasProhibition in PredicatesTo(store, r))
    ensures Decide(e, store, claims, resource, scope) != Delegate
  {
    var candidates := Candidates(e, store, claims, resource, scope);
    SatisfiedSpec(e, store, claims, candidates);
    hide Candidates, RuleVerdict, PredicatesTo;
    ConcludesWithSupported(store, Satisfied(e, store, claims, candidates));
  }

  /** A rule that applies and has a constraint which is incomplete or not understood, and none that plainly fails, is
      left to the other authorizer. */
  lemma UnclearIsDelegated(e: Env, store: seq<Quad>, claims: ClaimSet, resource: Term, scope: Term, rule: Term, t: Term)
    requires SingleOperands(store) && Applies(e, store, claims, resource, scope, rule)
    requires Quad(rule, HasConstraint, t) in store && !IsUnderstood(e, store, claims, t)
    requires forall u | Quad(rule, HasConstraint, u) in store ::
      !HasOperands(store, t, LeftOperand) || IsMet(e, store, claims, u) || !IsUnderstood(e, store, claims, u)
    ensures Decide(e, store, claims, resource, scope) == Delegate
  {
    AppliesIff(e, store, claims, resource, scope, rule);
    UnclearIsComplex(e, store, claims, rule, t);
    hide Candidates, PlainVerdict, OvcVerdict, Applies, IsUnderstood, IsMet, SingleOperands;
    assert RuleVerdict(e, store, claims, rule) == Complex;
    hide RuleVerdict;
  }

  lemma UnclearIsComplex(e: Env, store: seq<Quad>, claims: ClaimSet, rule: Term, t: Term)
    requires SingleOperands(store) && Quad(rule, HasConstraint, t) in store && !IsUnderstood(e, store, claims, t)
    requires forall u | Quad(rule, HasConstraint, u) in store ::
      !HasOperands(store, t, LeftOperand) || IsMet(e, store, claims, u) || !IsUnderstood(e, store, claims, u)
    ensures PlainVerdict(e, store, claims, rule) == Complex
  {
    var terms := Objects(store, rule, HasConstraint);
    ObjectsSpec(store, rule, HasConstraint);
    ConstraintsSpec(store, terms, LeftOperand);
    UnderstoodIff(e, store, claims, t);
    OperandsIff(store, t, LeftOperand);
    var constraints := ConstraintsOf(store, terms, LeftOperand);
    var c := ConstraintAt(store, t, LeftOperand);
    assert c in constraints;
    hide Objects, ConstraintsOf, ConstraintAt, Judge, IsUnderstood, IsMet, HasOperands, SingleOperands;
    if forall d | d in constraints :: d.Complete() {
      forall d | d in constraints ensures Judge(e, claims, d) != Fails {
        var u :| u in terms && d == ConstraintAt(store, u, LeftOperand);
        UnderstoodIff(e, store, claims, u);
        MetIff(e, store, claims, u);
      }
      JudgedOneByOne(e, claims, constraints);
      JudgeAllSpec(e, claims, constraints);
    }
  }

  /** The whole query is left to the other authorizer as soon as one decision is. Otherwise exactly the scopes are
      granted that are decided so. */
  lemma AuthorizeMeans(e: Env, store: seq<Quad>, claims: ClaimSet, query: seq<Permission>, evaluator: Authorizer)
    ensures var granted := Authorize(e, store, claims, query, evaluator);
      if exists p, s | p in query && s in p.scopes :: Decide(e, store, claims, p.resource, s) == Delegate
      then granted == evaluator(claims, query)
      else forall resource, scope :: (resource, scope) in Pairs(granted) <==>
             (resource, scope) in Pairs(query) && Decide(e, store, claims, resource, scope) == Grant
  {
    hide Decide, Grants, Pairs;
    GrantsSpec(e, store, claims, query);
  }
}
