/** Access requests with constraints: what is stored, and what their acceptance gives. */
module ConstrainedAccess {
  import opened Rdf
  import opened Permissions
  import RegistrationSpec
  import opened SharedStore
  import opened AcceptedAccess
  import opened AcceptedPolicy
  import Requests = AccessRequests
  import Odrl = SimpleOdrlAuthorizer
  import Meaning = OdrlMeaning

  type Triple = (Term, Term, Term)

  function Node(r: Term, k: int): Term
    requires 0 <= k
  {
    ConstraintOf(r, k + 1)
  }

  function Nodes(r: Term, n: nat): set<Term> {
    set k | 0 <= k < n :: Node(r, k)
  }

  /** The constraint has this left operand, operator and right operand, and no others. */
  ghost predicate HasOperands(quads: set<Quad>, node: Term, c: Triple) {
    && ObjectsOf(quads, node, LeftOperand) == {c.0} && ObjectsOf(quads, node, Operator) == {c.1}
    && ObjectsOf(quads, node, RightOperand) == {c.2}
  }

  /** The request has exactly these constraints, in this order. */
  ghost predicate HasConstraints(quads: set<Quad>, r: Term, constraints: seq<Triple>) {
    && ObjectsOf(quads, r, HasConstraint) == Nodes(r, |constraints|)
    && forall k | 0 <= k < |constraints| :: HasOperands(quads, Node(r, k), constraints[k])
  }

  // ----- what is stored -----

  lemma {:induction false} ConstraintsAreThere(r: Term, constraints: seq<Triple>, index: nat, k: nat)
    requires k < |constraints|
    ensures var quads, node := Requests.ConstraintQuads(r, constraints, index), ConstraintOf(r, index + k);
      && Quad(r, HasConstraint, node) in quads && Quad(node, LeftOperand, constraints[k].0) in quads
      && Quad(node, Operator, constraints[k].1) in quads && Quad(node, RightOperand, constraints[k].2) in quads
  {
    if k > 0 { ConstraintsAreThere(r, constraints[1..], index + 1, k - 1); }
  }

  /** The quad is about one of the constraints, with its operands, or links the request to it. */
  predicate IsOfConstraints(q: Quad, r: Term, constraints: seq<Triple>, index: nat) {
    var node := if q.s == r then q.o else q.s;
    && node.ConstraintOf? && node.base == r && index <= node.index < index + |constraints|
    && var c := constraints[node.index - index];
       if q.s == r then q.p == HasConstraint
       else && (q.p == LeftOperand ==> q.o == c.0) && (q.p == Operator ==> q.o == c.1)
            && (q.p == RightOperand ==> q.o == c.2) && q.p != HasConstraint
  }

  lemma {:induction false} ConstraintsAreAll(r: Term, constraints: seq<Triple>, index: nat, q: Quad)
    requires q in Requests.ConstraintQuads(r, constraints, index) && !r.ConstraintOf?
    ensures IsOfConstraints(q, r, constraints, index)
  {
    if q in Requests.ConstraintQuads(r, constraints[1..], index + 1) {
      ConstraintsAreAll(r, constraints[1..], index + 1, q);
      hide Requests.ConstraintQuads;
    }
  }

  lemma RequestNames(r: Term, json: Requests.AccessRequest, party: Term, q: Quad)
    requires q in Requests.RequestQuads(r, json, party) && q !in Requests.ConstraintQuads(r, json.constraints, 1)
    ensures q.s == r && q.p != HasConstraint
  {
    hide Requests.ConstraintQuads;
  }

  lemma RequestContains(r: Term, json: Requests.AccessRequest, party: Term)
    ensures Requests.ConstraintQuads(r, json.constraints, 1) <= Requests.RequestQuads(r, json, party)
  {
    hide Requests.ConstraintQuads;
  }

  /** Everything a request says is about its constraints, or about itself and no constraint. */
  ghost predicate OnlyConstraints(quads: set<Quad>, r: Term, constraints: seq<Triple>) {
    forall q | q in quads :: IsOfConstraints(q, r, constraints, 1) || (q.s == r && q.p != HasConstraint)
  }

  lemma RequestSaysOnly(r: Term, json: Requests.AccessRequest, party: Term)
    requires r.Minted?
    ensures OnlyConstraints(Requests.RequestQuads(r, json, party), r, json.constraints)
  {
    var quads := Requests.RequestQuads(r, json, party);
    forall q | q in quads
      ensures IsOfConstraints(q, r, json.constraints, 1) || (q.s == r && q.p != HasConstraint)
    {
      if q in Requests.ConstraintQuads(r, json.constraints, 1) { ConstraintsAreAll(r, json.constraints, 1, q); }
      else { RequestNames(r, json, party, q); }
    }
    hide Requests.RequestQuads, Requests.ConstraintQuads;
  }

  lemma NodeHasOperands(quads: set<Quad>, r: Term, constraints: seq<Triple>, k: nat)
    requires r.Minted? && k < |constraints| && OnlyConstraints(quads, r, constraints)
    requires Requests.ConstraintQuads(r, constraints, 1) <= quads
    ensures Quad(r, HasConstraint, Node(r, k)) in quads && HasOperands(quads, Node(r, k), constraints[k])
  {
    ConstraintsAreThere(r, constraints, 1, k);
    assert Node(r, k) == ConstraintOf(r, 1 + k);
    hide Requests.ConstraintQuads, ObjectsOf;
    ObjectsAre(quads, Node(r, k), LeftOperand, {constraints[k].0});
    ObjectsAre(quads, Node(r, k), Operator, {constraints[k].1});
    ObjectsAre(quads, Node(r, k), RightOperand, {constraints[k].2});
  }

  lemma LinksAreNodes(quads: set<Quad>, r: Term, constraints: seq<Triple>)
    requires r.Minted? && OnlyConstraints(quads, r, constraints)
    requires forall k | 0 <= k < |constraints| :: Quad(r, HasConstraint, Node(r, k)) in quads
    ensures ObjectsOf(quads, r, HasConstraint) == Nodes(r, |constraints|)
  {
    hide ObjectsOf;
    forall q | q in quads && q.s == r && q.p == HasConstraint ensures q.o in Nodes(r, |constraints|) {
      assert q.o == Node(r, q.o.index - 1);
    }
    ObjectsAre(quads, r, HasConstraint, Nodes(r, |constraints|));
  }

  lemma RequestHasConstraints(r: Term, json: Requests.AccessRequest, party: Term)
    requires r.Minted?
    ensures HasConstraints(Requests.RequestQuads(r, json, party), r, json.constraints)
  {
    var quads := Requests.RequestQuads(r, json, party);
    RequestContains(r, json, party);
    RequestSaysOnly(r, json, party);
    hide Requests.RequestQuads, Requests.ConstraintQuads, OnlyConstraints, HasOperands, ObjectsOf;
    forall k | 0 <= k < |json.constraints|
      ensures Quad(r, HasConstraint, Node(r, k)) in quads && HasOperands(quads, Node(r, k), json.constraints[k])
    {
      NodeHasOperands(quads, r, json.constraints, k);
    }
    LinksAreNodes(quads, r, json.constraints);
  }

  lemma OperandsKept(quads: set<Quad>, after: set<Quad>, node: Term, c: Triple)
    requires HasOperands(quads, node, c)
    requires forall p | p in {LeftOperand, Operator, RightOperand} ::
      ObjectsOf(after, node, p) == ObjectsOf(quads, node, p)
    ensures HasOperands(after, node, c)
  {
    hide ObjectsOf;
  }

  lemma FreshNode(s: Requests.Store, after: set<Quad>, added: set<Quad>, node: Term, c: Triple)
    requires Requests.Dated(s) && after == s.quads + added && Requests.Serial(node) == Some(s.serial)
    requires HasOperands(added, node, c)
    ensures HasOperands(after, node, c)
  {
    Requests.FreshSubjects(s, after, added, node, LeftOperand);
    Requests.FreshSubjects(s, after, added, node, Operator);
    Requests.FreshSubjects(s, after, added, node, RightOperand);
    OperandsKept(added, after, node, c);
    hide HasOperands, ObjectsOf;
  }

  lemma AddedHasConstraints(s: Requests.Store, after: set<Quad>, added: set<Quad>, r: Term, constraints: seq<Triple>)
    requires Requests.Dated(s) && after == s.quads + added && r == Minted(s.serial)
    requires HasConstraints(added, r, constraints)
    ensures HasConstraints(after, r, constraints)
  {
    Requests.FreshSubjects(s, after, added, r, HasConstraint);
    hide Requests.Dated, ObjectsOf, HasOperands, Nodes;
    forall k | 0 <= k < |constraints| ensures HasOperands(after, Node(r, k), constraints[k]) {
      FreshNode(s, after, added, Node(r, k), constraints[k]);
    }
  }

  /** A request that is asked for with constraints has exactly these, with their operands. */
  lemma AskedHasConstraints(s: Requests.Store, json: Requests.AccessRequest, party: Term)
    requires Requests.Dated(s) && json.scopes != []
    ensures HasConstraints(Requests.Add(s, json, party).1.quads, Minted(s.serial), json.constraints)
  {
    var r := Minted(s.serial);
    Requests.AddIs(s, json, party);
    RequestHasConstraints(r, json, party);
    hide Requests.RequestQuads, Requests.Add, Requests.Dated, HasConstraints;
    AddedHasConstraints(s, Requests.Add(s, json, party).1.quads, Requests.RequestQuads(r, json, party), r,
                        json.constraints);
  }

  // ----- what acceptance gives -----

  predicate IsDemanded(e: Odrl.Env, claims: ClaimSet, c: Triple) {
    Meaning.Demands(e, claims, c.0, c.1, c.2)
  }

  predicate IsClear(e: Odrl.Env, claims: ClaimSet, c: Triple) {
    Meaning.IsClear(e, claims, c.0, c.1)
  }

  lemma ConstraintIs(store: seq<Quad>, quads: set<Quad>, node: Term, c: Triple)
    requires Lists(store, quads) && HasOperands(quads, node, c)
    ensures Odrl.ConstraintAt(store, node, LeftOperand).left == Some(c.0)
    ensures Odrl.ConstraintAt(store, node, LeftOperand).operator == Some(c.1)
    ensures Odrl.ConstraintAt(store, node, LeftOperand).right == Some(c.2)
  {
    OnlyObject(store, quads, node, LeftOperand, c.0);
    OnlyObject(store, quads, node, Operator, c.1);
    OnlyObject(store, quads, node, RightOperand, c.2);
    hide Odrl.Objects, ObjectsOf;
  }

  lemma OnlyObject(store: seq<Quad>, quads: set<Quad>, node: Term, p: Predicate, o: Term)
    requires Lists(store, quads) && ObjectsOf(quads, node, p) == {o}
    ensures Odrl.First(Odrl.Objects(store, node, p)) == Some(o)
  {
    Odrl.ObjectsSpec(store, node, p);
    assert o in ObjectsOf(quads, node, p);
    assert Quad(node, p, o) in store;
    var objects := Odrl.Objects(store, node, p);
    hide Odrl.Objects;
    assert objects[0] in objects;
    assert objects[0] in ObjectsOf(quads, node, p);
  }

  /** The verdict over a rule with the constraints of a request. */
  lemma ConstrainedVerdict(e: Odrl.Env, store: seq<Quad>, quads: set<Quad>, claims: ClaimSet, rule: Term, r: Term,
                           constraints: seq<Triple>)
    requires Lists(store, quads)
    requires ObjectsOf(quads, rule, HasConstraint) == Nodes(r, |constraints|)
    requires forall k | 0 <= k < |constraints| :: HasOperands(quads, Node(r, k), constraints[k])
    requires ObjectsOf(quads, rule, OvcConstraint) == {}
    ensures Odrl.RuleVerdict(e, store, claims, rule) == Odrl.Holds <==>
      forall k | 0 <= k < |constraints| :: IsDemanded(e, claims, constraints[k])
    ensures (forall k | 0 <= k < |constraints| :: IsClear(e, claims, constraints[k])) ==>
      Odrl.RuleVerdict(e, store, claims, rule) != Odrl.Complex
  {
    var terms := Odrl.Objects(store, rule, HasConstraint);
    ConstraintTerms(store, quads, rule, r, |constraints|);
    forall k | 0 <= k < |constraints|
      ensures var c := Odrl.ConstraintAt(store, Node(r, k), LeftOperand);
        && c.Complete()
        && (Odrl.Judge(e, claims, c) == Odrl.Holds <==> IsDemanded(e, claims, constraints[k]))
        && (IsClear(e, claims, constraints[k]) ==> Odrl.Judge(e, claims, c) != Odrl.Complex)
    {
      ConstraintIs(store, quads, Node(r, k), constraints[k]);
      Meaning.JudgeMeans(e, claims, Odrl.ConstraintAt(store, Node(r, k), LeftOperand));
    }
    hide Odrl.Objects, Odrl.ConstraintAt, Odrl.Judge, Odrl.JudgeOvc, IsDemanded, IsClear, ObjectsOf, HasOperands,
         Odrl.RuleVerdict;
    Odrl.HoldsIffAllHold(e, store, claims, rule);
    forall k | 0 <= k < |constraints| ensures Node(r, k) in terms {}
    if forall k | 0 <= k < |constraints| :: IsClear(e, claims, constraints[k]) {
      ClearIsDecided(e, store, claims, rule, r, constraints);
    }
  }

  lemma ConstraintTerms(store: seq<Quad>, quads: set<Quad>, rule: Term, r: Term, n: nat)
    requires Lists(store, quads) && ObjectsOf(quads, rule, HasConstraint) == Nodes(r, n)
    requires ObjectsOf(quads, rule, OvcConstraint) == {}
    ensures forall t :: t in Odrl.Objects(store, rule, HasConstraint) <==> t in Nodes(r, n)
    ensures Odrl.Objects(store, rule, OvcConstraint) == []
  {
    Odrl.ObjectsSpec(store, rule, HasConstraint);
    Odrl.ObjectsSpec(store, rule, OvcConstraint);
    SomeMember(Odrl.Objects(store, rule, OvcConstraint));
    forall t ensures Quad(rule, HasConstraint, t) in store <==> t in ObjectsOf(quads, rule, HasConstraint)
             ensures Quad(rule, OvcConstraint, t) in store <==> t in ObjectsOf(quads, rule, OvcConstraint) {}
    hide Odrl.Objects, ObjectsOf;
  }

  lemma ClearIsDecided(e: Odrl.Env, store: seq<Quad>, claims: ClaimSet, rule: Term, r: Term, constraints: seq<Triple>)
    requires forall t :: t in Odrl.Objects(store, rule, HasConstraint) <==> t in Nodes(r, |constraints|)
    requires Odrl.Objects(store, rule, OvcConstraint) == []
    requires forall k | 0 <= k < |constraints| ::
      var c := Odrl.ConstraintAt(store, Node(r, k), LeftOperand);
      c.Complete() && Odrl.Judge(e, claims, c) != Odrl.Complex
    ensures Odrl.RuleVerdict(e, store, claims, rule) != Odrl.Complex
  {
    var terms := Odrl.Objects(store, rule, HasConstraint);
    var all := Odrl.ConstraintsOf(store, terms, LeftOperand);
    Odrl.ConstraintsSpec(store, terms, LeftOperand);
    hide Odrl.Judge, Odrl.ConstraintAt, Odrl.JudgeAll;
    forall c | c in all ensures c.Complete() && Odrl.Judge(e, claims, c) != Odrl.Complex {
      var t :| t in terms && c == Odrl.ConstraintAt(store, t, LeftOperand);
      var k :| 0 <= k < |constraints| && t == Node(r, k);
    }
    Meaning.JudgedOneByOne(e, claims, all);
  }

  // ----- from asking to access -----

  /** No request to the policy endpoint changes what the constraints of the request say. */
  ghost predicate LeavesConstraints(s: State, steps: seq<Step>, r: Term, n: nat) {
    forall k, p | 0 <= k < n && p in {LeftOperand, Operator, RightOperand} :: AllKeepSaying(s, steps, Node(r, k), p)
  }

  /** No other rule that applies is satisfied. */
  ghost predicate OthersFail(e: Odrl.Env, store: seq<Quad>, claims: ClaimSet, resource: Term, scope: Term, rule: Term) {
    forall other | other in Odrl.Candidates(e, store, claims, resource, scope) && other != rule ::
      Odrl.RuleVerdict(e, store, claims, other) == Odrl.Fails
  }

  lemma OperandStays(s: State, deciding: Step, steps: seq<Step>, node: Term, p: Predicate)
    requires Requests.IsOld(node, s.minted) && OfRules(p) && deciding.Deciding?
    requires AllKeepSaying(Take(s, deciding), steps, node, p)
    ensures ObjectsOf(TakeAll(Take(s, deciding), steps).stores.quads, node, p) == ObjectsOf(s.stores.quads, node, p)
  {
    assert KeepsSaying(s, deciding, node, p);
    hide ObjectsOf, Take, TakeAll, AllKeepSaying, KeepsSaying, OfRules;
    StepKeepsRule(s, deciding, node, p);
    RunKeepsRule(Take(s, deciding), steps, node, p);
  }

  lemma StillConstrained(s: State, r: Term, owner: string, target: Term, party: Term, constraints: seq<Triple>,
                         steps: seq<Step>, k: nat)
    requires r.Minted? && r.serial < s.minted && k < |constraints|
    requires HasOperands(s.stores.quads, Node(r, k), constraints[k])
    requires LeavesConstraints(AfterAccepting(s, r, owner, target, party), steps, r, |constraints|)
    ensures HasOperands(TakeAll(AfterAccepting(s, r, owner, target, party), steps).stores.quads,
                        Node(r, k), constraints[k])
  {
    hide ObjectsOf, Take, TakeAll, AllKeepSaying, HasOperands;
    var deciding := Deciding(r, owner, target, party, Requests.Accept);
    var node := Node(r, k);
    assert Requests.IsOld(node, s.minted);
    forall p | p in {LeftOperand, Operator, RightOperand}
      ensures AllKeepSaying(Take(s, deciding), steps, Node(r, k), p) {}
    hide LeavesConstraints, Node;
    OperandStays(s, deciding, steps, node, LeftOperand);
    OperandStays(s, deciding, steps, node, Operator);
    OperandStays(s, deciding, steps, node, RightOperand);
    OperandsKept(s.stores.quads, TakeAll(Take(s, deciding), steps).stores.quads, node, constraints[k]);
  }

  /** In any state in which no name is used before it is given out: after an owner accepts a request with constraints,
      and whatever happens later, the party is granted each requested scope that is not a CSS scope when all of the
      constraints are met, and is denied it when one is not, as long as the policy endpoint leaves the generated policy
      and the constraints alone and no other rule interferes. */
  lemma AskAcceptConstrained(s: State, r: Term, owner: string, target: Term, party: Term, constraints: seq<Triple>,
                             steps: seq<Step>, e: Odrl.Env, store: seq<Quad>, claims: ClaimSet, scope: Term)
    requires Accepts(s, r, owner, target, party) && r.Minted? && r.serial < s.minted
    requires HasConstraints(s.stores.quads, r, constraints)
    requires scope in ObjectsOf(s.stores.quads, r, RequestedAction) && !IsCssScope(scope)
    requires LeavesPolicy(AfterAccepting(s, r, owner, target, party), steps, Minted(s.minted))
    requires LeavesConstraints(AfterAccepting(s, r, owner, target, party), steps, r, |constraints|)
    requires Lists(store, TakeAll(AfterAccepting(s, r, owner, target, party), steps).stores.quads)
    requires Identifies(e, claims, party)
    requires Undisturbed(e, store, claims, target, scope, PermissionOf(Minted(s.minted)))
    ensures (forall k | 0 <= k < |constraints| :: IsDemanded(e, claims, constraints[k])) ==>
      Odrl.Decide(e, store, claims, target, scope) == Odrl.Grant
    ensures ((forall k | 0 <= k < |constraints| :: IsClear(e, claims, constraints[k]))
             && (exists k | 0 <= k < |constraints| :: !IsDemanded(e, claims, constraints[k]))
             && OthersFail(e, store, claims, target, scope, PermissionOf(Minted(s.minted)))) ==>
      Odrl.Decide(e, store, claims, target, scope) == Odrl.Deny
  {
    hide Odrl.Candidates, Odrl.RuleVerdict, Odrl.PlainPermission, Odrl.Decide, Accepts, Generated, Identifies,
         ObjectsOf, AfterAccepting, TakeAll, LeavesPolicy, LeavesConstraints, HasOperands, IsDemanded, IsClear;
    var quads, rule := TakeAll(AfterAccepting(s, r, owner, target, party), steps).stores.quads,
                       PermissionOf(Minted(s.minted));
    StillGenerated(s, r, owner, target, party, steps, quads);
    forall k | 0 <= k < |constraints| ensures HasOperands(quads, Node(r, k), constraints[k]) {
      StillConstrained(s, r, owner, target, party, constraints, steps, k);
    }
    GeneratedApplies(e, store, quads, s.stores.quads, r, Minted(s.minted), target, party, claims, scope);
    GeneratedConstraints(quads, s.stores.quads, r, Minted(s.minted), target, party);
    ConstrainedVerdict(e, store, quads, claims, rule, r, constraints);
    Odrl.GrantedIff(e, store, claims, target, scope);
    if forall other | other in Odrl.Candidates(e, store, claims, target, scope) ::
      Odrl.RuleVerdict(e, store, claims, other) == Odrl.Fails
    {
      NothingHolds(e, store, claims, target, scope);
    }
  }

  lemma GeneratedConstraints(after: set<Quad>, quads: set<Quad>, r: Term, policy: Term, target: Term, party: Term)
    requires Generated(after, quads, r, policy, target, party)
    ensures ObjectsOf(after, PermissionOf(policy), HasConstraint) == ObjectsOf(quads, r, HasConstraint)
    ensures ObjectsOf(after, PermissionOf(policy), OvcConstraint) == {}
  {
    hide ObjectsOf;
  }

  lemma NothingHolds(e: Odrl.Env, store: seq<Quad>, claims: ClaimSet, resource: Term, scope: Term)
    requires forall r | r in Odrl.Candidates(e, store, claims, resource, scope) ::
      Odrl.RuleVerdict(e, store, claims, r) == Odrl.Fails
    ensures Odrl.Decide(e, store, claims, resource, scope) == Odrl.Deny
  {
    var candidates := Odrl.Candidates(e, store, claims, resource, scope);
    Odrl.SatisfiedSpec(e, store, claims, candidates);
    SomeMember(Odrl.Satisfied(e, store, claims, candidates));
    hide Odrl.Candidates, Odrl.RuleVerdict, Odrl.Satisfied;
  }

  /** Such requests can be made: whoever asks for a resource, with any constraints, can be accepted by its owner. */
  lemma AskedCanBeAccepted(s: State, json: Requests.AccessRequest, party: Term, owner: string)
    requires Invariant(s) && json.scopes != [] && json.resource in OwnedTerms(s.stores, owner)
    ensures var r, t := Minted(s.minted), Take(s, Asking(json, party));
      && Accepts(t, r, owner, json.resource, party) && r.serial < t.minted
      && HasConstraints(t.stores.quads, r, json.constraints)
      && forall scope | scope in json.scopes :: scope in ObjectsOf(t.stores.quads, r, RequestedAction)
  {
    var r, t := Minted(s.minted), Take(s, Asking(json, party));
    hide Invariant, Requests.Inv, Allowed, Take, Requests.Add, HasConstraints, Accepts, Requests.RequestQuads,
         OwnedTerms, Requests.Dated;
    AskingIsAdding(s, json, party);
    Requests.AddIs(RequestsOf(s), json, party);
    TakeKeepsInvariant(s, Asking(json, party));
    InvariantParts(s);
    InvariantParts(t);
    Requests.InvParts(RequestsOf(s));
    AskedHasConstraints(RequestsOf(s), json, party);
    SameOwnedTerms(s.stores, t.stores, owner);
    RequestHas(r, json, party);
    RequestIsTyped(r, json, party);
    StoredCanBeAccepted(t, r, json, party, owner);
  }

  lemma SameOwnedTerms(s: RegistrationSpec.Stores, t: RegistrationSpec.Stores, owner: string)
    requires t.ownership == s.ownership
    ensures OwnedTerms(t, owner) == OwnedTerms(s, owner)
  {}

  lemma RequestIsTyped(r: Term, json: Requests.AccessRequest, party: Term)
    ensures Quad(r, RdfType, Known(EvaluationRequest)) in Requests.RequestQuads(r, json, party)
  {
    hide Requests.ConstraintQuads;
  }

  lemma StoredCanBeAccepted(t: State, r: Term, json: Requests.AccessRequest, party: Term, owner: string)
    requires Requests.Inv(RequestsOf(t)) && json.resource in OwnedTerms(t.stores, owner)
    requires Quad(r, RdfType, Known(EvaluationRequest)) in t.stores.quads
    requires Quad(r, RequestedTarget, json.resource) in t.stores.quads
    requires Quad(r, RequestingParty, party) in t.stores.quads
    requires Quad(r, RequestStatus, Known(Requested)) in t.stores.quads
    ensures Accepts(t, r, owner, json.resource, party)
  {
    hide ObjectsOf, Requests.Inv, Requests.WellFormed, Requests.Check, OwnedTerms, Requests.Dated, Requests.Decided,
         Requests.Add;
    var op := OperationOf(t, Deciding(r, owner, json.resource, party, Requests.Accept));
    assert op == Requests.DecideRequest(r, Iri(owner), OwnedTerms(t.stores, owner), json.resource, party,
                                        Requests.Accept);
    StoredFits(RequestsOf(t), op);
    Requests.ResponsesAre(RequestsOf(t), json, op);
    Requests.InvParts(RequestsOf(t));
  }

  lemma StoredFits(s: Requests.Store, op: Requests.Operation)
    requires op.DecideRequest?
    requires Quad(op.request, RequestedTarget, op.target) in s.quads
    requires Quad(op.request, RequestingParty, op.party) in s.quads
    ensures Requests.WellFormed(s, op)
  {
    assert op.target in ObjectsOf(s.quads, op.request, RequestedTarget);
    assert op.party in ObjectsOf(s.quads, op.request, RequestingParty);
    hide ObjectsOf;
  }
}
