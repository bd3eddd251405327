/** Access requests: how they are stored, decided once, and turned into policies. */
module AccessRequests {
  import opened Rdf
  import opened RulesStorage

  datatype AccessRequest = AccessRequest(resource: Term, scopes: seq<Term>, constraints: seq<(Term, Term, Term)>)

  datatype Outcome = Done | BadRequest | NotFound | Forbidden | Conflict | InternalError

  datatype Verdict = Accept | Reject | Other

  function StatusWord(verdict: Verdict): Term {
    if verdict == Accept then Known(Accepted) else Known(Denied)
  }

  // ----- quads -----

  function ConstraintQuads(subject: Term, constraints: seq<(Term, Term, Term)>, index: nat): set<Quad> {
    if constraints == [] then {} else
    var node := ConstraintOf(subject, index);
    { Quad(subject, HasConstraint, node), Quad(node, RdfType, Known(ConstraintClass)),
      Quad(node, LeftOperand, constraints[0].0), Quad(node, Operator, constraints[0].1),
      Quad(node, RightOperand, constraints[0].2) } + ConstraintQuads(subject, constraints[1..], index + 1)
  }

  function RequestQuads(subject: Term, json: AccessRequest, client: Term): set<Quad> {
    { Quad(subject, RdfType, Known(EvaluationRequest)),
      Quad(subject, RequestedTarget, json.resource),
      Quad(subject, RequestingParty, client),
      Quad(subject, RequestStatus, Known(Requested)) }
    + (set s | s in json.scopes :: Quad(subject, RequestedAction, s))
    + ConstraintQuads(subject, json.constraints, 1)
  }

  /** The policy that grants what a request asks for. */
  function PolicyQuads(quads: set<Quad>, request: Term, policy: Term,
                       target: Term, party: Term, client: Term): set<Quad>
  {
    var permission := PermissionOf(policy);
    { Quad(policy, RdfType, Known(Agreement)), Quad(policy, Uid, policy), Quad(policy, HasPermission, permission),
      Quad(permission, RdfType, Known(PermissionClass)), Quad(permission, Target, target),
      Quad(permission, Assignee, party), Quad(permission, Assigner, client) }
    + (set a | a in ObjectsOf(quads, request, RequestedAction) :: Quad(permission, Action, a))
    + (set c | c in ObjectsOf(quads, request, HasConstraint) :: Quad(permission, HasConstraint, c))
    + (set q | q in quads && q.s in ObjectsOf(quads, request, HasConstraint))
  }

  // ----- operations -----

  /** `granted` records which request each generated policy answers; no operation reads it. */
  datatype Store = Store(quads: set<Quad>, serial: nat, granted: map<Term, Term>)

  function Add(s: Store, json: AccessRequest, client: Term): (Outcome, Store) {
    if json.scopes == [] then (BadRequest, s)
    else (Done, s.(quads := s.quads + RequestQuads(Minted(s.serial), json, client), serial := s.serial + 1))
  }

  /** The checks of a decision, in order. `target` is the first target that the store yields. */
  function Check(quads: set<Quad>, request: Term, owned: set<Term>, target: Term, verdict: Verdict): Outcome {
    var statuses := ObjectsOf(quads, request, RequestStatus);
    if ObjectsOf(quads, request, RequestedTarget) == {} then NotFound
    else if verdict == Other then BadRequest
    else if target !in owned then Forbidden
    else if |statuses| != 1 then InternalError
    else if Known(Requested) !in statuses then Conflict
    else if ObjectsOf(quads, request, RequestedAction) == {} || |ObjectsOf(quads, request, RequestingParty)| != 1
    then InternalError
    else Done
  }

  function Decided(s: Store, request: Term, client: Term, target: Term, party: Term, verdict: Verdict): Store {
    var resolved := (s.quads - {Quad(request, RequestStatus, Known(Requested))})
                  + {Quad(request, RequestStatus, StatusWord(verdict))};
    if verdict != Accept then s.(quads := resolved)
    else Store(resolved + PolicyQuads(resolved, request, Minted(s.serial), target, party, client),
               s.serial + 1, s.granted[Minted(s.serial) := request])
  }

  /** The last two stand for requests to the other endpoints that write to the same store. A request to the policy
      endpoint removes what is said about some subjects, and adds a body. */
  datatype Operation =
    | AddRequest(json: AccessRequest, client: Term)
    | DecideRequest(request: Term, client: Term, owned: set<Term>, target: Term, party: Term, verdict: Verdict)
    | OtherEndpoint(after: set<Quad>)
    | WritePolicies(removed: set<Term>, body: set<Quad>)

  /** The target and the party are the first ones that the store yields. The endpoints of registrations and
      collections do not touch requests and what was generated for them; the policy endpoint may, and the condition
      on it is exactly what keeps the invariant. */
  ghost predicate WellFormed(s: Store, op: Operation) {
    match op
    case AddRequest(_, _) => true
    case DecideRequest(request, _, _, target, party, _) =>
      var targets := ObjectsOf(s.quads, request, RequestedTarget);
      var parties := ObjectsOf(s.quads, request, RequestingParty);
      (targets == {} || target in targets) && (parties == {} || party in parties)
    case OtherEndpoint(after) => LeavesRequests(s.quads, after)
    case WritePolicies(removed, body) => SoundWrite(s, removed, body)
  }

  function Perform(s: Store, op: Operation): (Outcome, Store) {
    match op
    case AddRequest(json, client) => Add(s, json, client)
    case DecideRequest(request, client, owned, target, party, verdict) =>
      var outcome := Check(s.quads, request, owned, target, verdict);
      if outcome != Done then (outcome, s) else (Done, Decided(s, request, client, target, party, verdict))
    case OtherEndpoint(after) => (Done, s.(quads := after))
    case WritePolicies(removed, body) => (Done, s.(quads := Overwritten(s.quads, removed, body)))
  }

  // ----- what belongs to requests -----

  /** The number of the fresh name a term is built on. */
  function Serial(t: Term): Option<nat> {
    match t
    case Minted(n) => Some(n)
    case PermissionOf(Minted(n)) => Some(n)
    case ConstraintOf(Minted(n), _) => Some(n)
    case _ => None
  }

  /** The term is built on a name that was given out before. */
  predicate IsOld(t: Term, serial: nat) {
    Serial(t).Some? && Serial(t).value < serial
  }

  predicate OfRequests(p: Predicate) {
    p == RequestStatus || p == RequestedTarget || p == RequestedAction || p == RequestingParty
  }

  /** The quad is about a name that was given out here, or in the vocabulary of requests. */
  predicate Reserved(q: Quad) {
    Serial(q.s).Some? || OfRequests(q.p) || (q.p == RdfType && q.o == Known(EvaluationRequest))
  }

  ghost predicate LeavesRequests(quads: set<Quad>, after: set<Quad>) {
    forall q | Reserved(q) :: q in after <==> q in quads
  }

  // ----- invariants -----

  /** Names that were not given out are not used as subjects. The store may hold anything else. */
  ghost predicate Dated(s: Store) {
    forall q | q in s.quads && Serial(q.s).Some? :: IsOld(q.s, s.serial)
  }

  function Typed(quads: set<Quad>, word: Word): set<Term> {
    SubjectsOf(quads, RdfType, Known(word))
  }

  /** The agreements that were generated here; agreements that others wrote have other names. */
  function Agreements(quads: set<Quad>): set<Term> {
    set x | x in Typed(quads, Agreement) && Serial(x).Some?
  }

  function WithStatus(quads: set<Quad>, word: Word): set<Term> {
    SubjectsOf(quads, RequestStatus, Known(word))
  }

  /** One status, one target, one party and some actions. */
  ghost predicate RequestOk(quads: set<Quad>, r: Term) {
    && r.Minted?
    && (ObjectsOf(quads, r, RequestStatus) == {Known(Requested)}
        || ObjectsOf(quads, r, RequestStatus) == {Known(Accepted)}
        || ObjectsOf(quads, r, RequestStatus) == {Known(Denied)})
    && |ObjectsOf(quads, r, RequestedTarget)| == 1
    && |ObjectsOf(quads, r, RequestingParty)| == 1
    && ObjectsOf(quads, r, RequestedAction) != {}
  }

  /** The policy has one permission, which carries exactly what the request asked for. */
  ghost predicate Mirrors(quads: set<Quad>, policy: Term, r: Term) {
    var permission := PermissionOf(policy);
    && ObjectsOf(quads, policy, HasPermission) == {permission}
    && ObjectsOf(quads, policy, Uid) == {policy}
    && ObjectsOf(quads, permission, Action) == ObjectsOf(quads, r, RequestedAction)
    && ObjectsOf(quads, permission, Target) == ObjectsOf(quads, r, RequestedTarget)
    && ObjectsOf(quads, permission, Assignee) == ObjectsOf(quads, r, RequestingParty)
    && ObjectsOf(quads, permission, HasConstraint) == ObjectsOf(quads, r, HasConstraint)
    && ObjectsOf(quads, permission, OvcConstraint) == {}
  }

  /** Only requests have a status, a target, actions and a party. */
  ghost predicate Attributed(quads: set<Quad>) {
    forall q | q in quads && OfRequests(q.p) :: q.s in Typed(quads, EvaluationRequest)
  }

  /** The agreements answer the accepted requests, one each. */
  ghost predicate OneEach(granted: map<Term, Term>, agreements: set<Term>, accepted: set<Term>) {
    && granted.Keys == agreements
    && granted.Values == accepted
    && (forall p, q | p in granted && q in granted && granted[p] == granted[q] :: p == q)
  }

  ghost predicate Inv(s: Store) {
    && Dated(s)
    && Attributed(s.quads)
    && (forall r | r in Typed(s.quads, EvaluationRequest) :: RequestOk(s.quads, r))
    && (forall p | p in s.granted :: p.Minted?)
    && (forall p | p in s.granted :: Mirrors(s.quads, p, s.granted[p]))
    && OneEach(s.granted, Agreements(s.quads), WithStatus(s.quads, Accepted))
  }

  /** The quad says that its subject is a request, or something that only requests say. */
  predicate OfRequest(q: Quad) {
    OfRequests(q.p) || (q.p == RdfType && q.o == Known(EvaluationRequest))
  }

  /** The write removes or adds something about the term. */
  predicate Touches(removed: set<Term>, body: set<Quad>, x: Term) {
    x in removed || exists q | q in body :: q.s == x
  }

  /** The generated policy, its permission and the accepted request agree. */
  ghost predicate Answers(s: Store, quads: set<Quad>, g: Term)
    requires g in s.granted
  {
    g in Agreements(quads) && s.granted[g] in WithStatus(quads, Accepted) && Mirrors(quads, g, s.granted[g])
  }

  /** What a write of the policy endpoint has to see to: names that were not given out are not used, a request that the
      body speaks of is well formed afterwards, the body accepts no request and generates no agreement of its own,
      and every generated policy that the write touches still answers its request. */
  ghost predicate SoundWrite(s: Store, removed: set<Term>, body: set<Quad>) {
    var after := Overwritten(s.quads, removed, body);
    && (forall q | q in body && Serial(q.s).Some? :: IsOld(q.s, s.serial))
    && (forall q | q in body && OfRequest(q) :: q.s in Typed(after, EvaluationRequest) && RequestOk(after, q.s))
    && (forall q | q in body && q.p == RequestStatus && q.o == Known(Accepted) :: q.s in s.granted.Values)
    && (forall q | q in body && q.p == RdfType && q.o == Known(Agreement) && Serial(q.s).Some? :: q.s in s.granted)
    && (forall g | g in s.granted
          && (Touches(removed, body, g) || Touches(removed, body, PermissionOf(g))
              || Touches(removed, body, s.granted[g])) :: Answers(s, after, g))
  }

  /** Nothing that was said about names given out before changed, but for one status. */
  ghost predicate KeepsOld(s: Store, t: Store, request: Term) {
    forall x, p | IsOld(x, s.serial) && (x != request || p != RequestStatus) ::
      ObjectsOf(t.quads, x, p) == ObjectsOf(s.quads, x, p)
  }

  // ----- adding a request -----

  lemma {:induction false} ConstraintQuadsSpec(subject: Term, constraints: seq<(Term, Term, Term)>, index: nat)
    ensures forall q | q in ConstraintQuads(subject, constraints, index) ::
      && ((q.s == subject && q.p == HasConstraint) || (q.s.ConstraintOf? && q.s.base == subject))
      && !OfRequests(q.p)
      && (q.p == RdfType ==> q.o == Known(ConstraintClass))
  {
    if constraints != [] { ConstraintQuadsSpec(subject, constraints[1..], index + 1); }
  }

  lemma {:induction false} ConstraintPredicates(subject: Term, constraints: seq<(Term, Term, Term)>, index: nat)
    ensures forall q | q in ConstraintQuads(subject, constraints, index) ::
      q.p in {RdfType, HasConstraint, LeftOperand, Operator, RightOperand}
  {
    if constraints != [] { ConstraintPredicates(subject, constraints[1..], index + 1); }
  }

  /** What both operations may add: quads on fresh subjects. */
  ghost predicate AddsFresh(quads: set<Quad>, after: set<Quad>, serial: nat) {
    && quads <= after
    && forall q | q in after && q !in quads :: Serial(q.s) == Some(serial)
  }

  lemma OldSubjectsKept(s: Store, after: set<Quad>, x: Term, p: Predicate)
    requires Dated(s) && AddsFresh(s.quads, after, s.serial) && Serial(x) != Some(s.serial)
    ensures ObjectsOf(after, x, p) == ObjectsOf(s.quads, x, p)
  {}

  lemma FreshSubjects(s: Store, after: set<Quad>, added: set<Quad>, x: Term, p: Predicate)
    requires Dated(s) && after == s.quads + added && Serial(x) == Some(s.serial)
    ensures ObjectsOf(after, x, p) == ObjectsOf(added, x, p)
  {}

  lemma RequestQuadsSubjects(subject: Term, json: AccessRequest, client: Term)
    requires subject.Minted?
    ensures var quads := RequestQuads(subject, json, client);
      && (forall q | q in quads :: Serial(q.s) == Some(subject.serial))
      && Typed(quads, EvaluationRequest) == {subject} && Agreements(quads) == {}
      && WithStatus(quads, Accepted) == {} && Attributed(quads)
  {
    hide ConstraintQuads;
    ConstraintQuadsSpec(subject, json.constraints, 1);
    assert Quad(subject, RdfType, Known(EvaluationRequest)) in RequestQuads(subject, json, client);
  }

  lemma NewRequestOk(subject: Term, json: AccessRequest, client: Term)
    requires subject.Minted? && json.scopes != []
    ensures RequestOk(RequestQuads(subject, json, client), subject)
  {
    hide ConstraintQuads, Serial;
    var quads := RequestQuads(subject, json, client);
    ConstraintQuadsSpec(subject, json.constraints, 1);
    assert ObjectsOf(quads, subject, RequestStatus) == {Known(Requested)};
    assert ObjectsOf(quads, subject, RequestedTarget) == {json.resource};
    assert ObjectsOf(quads, subject, RequestingParty) == {client};
    assert Quad(subject, RequestedAction, json.scopes[0]) in quads;
    assert json.scopes[0] in ObjectsOf(quads, subject, RequestedAction);
  }

  lemma RequestQuadsSpec(subject: Term, json: AccessRequest, client: Term)
    requires subject.Minted? && json.scopes != []
    ensures var quads := RequestQuads(subject, json, client);
      && (forall q | q in quads :: Serial(q.s) == Some(subject.serial))
      && Typed(quads, EvaluationRequest) == {subject} && Agreements(quads) == {}
      && WithStatus(quads, Accepted) == {} && RequestOk(quads, subject)
      && Attributed(quads)
  {
    hide RequestQuads, Typed, WithStatus, RequestOk, Attributed;
    RequestQuadsSubjects(subject, json, client);
    NewRequestOk(subject, json, client);
  }

  lemma MirrorsKept(s: Store, after: set<Quad>, policy: Term, r: Term)
    requires Mirrors(s.quads, policy, r)
    requires forall x, p | x in {policy, PermissionOf(policy), r} && p != RequestStatus ::
      ObjectsOf(after, x, p) == ObjectsOf(s.quads, x, p)
    ensures Mirrors(after, policy, r)
  {
    hide ObjectsOf;
  }

  lemma RequestOkKept(s: Store, after: set<Quad>, r: Term)
    requires RequestOk(s.quads, r)
    requires forall p :: ObjectsOf(after, r, p) == ObjectsOf(s.quads, r, p)
    ensures RequestOk(after, r)
  {
    hide ObjectsOf;
  }

  /** Requests and generated policies have names that were given out. */
  ghost predicate Old(s: Store) {
    && (forall r | r in Typed(s.quads, EvaluationRequest) :: IsOld(r, s.serial))
    && (forall g | g in s.granted :: g.Minted? && IsOld(g, s.serial) && IsOld(PermissionOf(g), s.serial))
    && (forall g | g in s.granted :: s.granted[g] in Typed(s.quads, EvaluationRequest))
  }

  lemma TypedIsOld(s: Store, word: Word)
    requires Dated(s)
    ensures forall x | x in Typed(s.quads, word) && Serial(x).Some? :: IsOld(x, s.serial)
  {}

  lemma AcceptedIsTyped(quads: set<Quad>)
    requires Attributed(quads)
    ensures WithStatus(quads, Accepted) <= Typed(quads, EvaluationRequest)
  {
    hide Typed;
  }

  lemma InvOld(s: Store)
    requires Inv(s)
    ensures Old(s)
  {
    hide Mirrors, Typed, WithStatus, Dated, Attributed, ObjectsOf;
    TypedIsOld(s, EvaluationRequest);
    TypedIsOld(s, Agreement);
    AcceptedIsTyped(s.quads);
    assert forall r | r in Typed(s.quads, EvaluationRequest) :: r.Minted?;
    hide RequestOk;
    assert forall g | g in s.granted :: g in Agreements(s.quads);
  }

  /** What a successful `Add` does to everything the invariant speaks of. */
  ghost predicate Added(s: Store, t: Store, subject: Term) {
    && Dated(t) && Attributed(t.quads) && t.granted == s.granted && subject == Minted(s.serial)
    && Typed(t.quads, EvaluationRequest) == Typed(s.quads, EvaluationRequest) + {subject}
    && Agreements(t.quads) == Agreements(s.quads)
    && WithStatus(t.quads, Accepted) == WithStatus(s.quads, Accepted)
    && RequestOk(t.quads, subject)
    && KeepsOld(s, t, subject)
  }

  lemma AddEffect(s: Store, json: AccessRequest, client: Term)
    requires Dated(s) && Old(s) && Attributed(s.quads) && json.scopes != []
    ensures Added(s, Add(s, json, client).1, Minted(s.serial))
  {
    hide RequestQuads, Add, Dated, Old, Attributed, Typed, Agreements, WithStatus, RequestOk, Added, Serial;
    AddIs(s, json, client);
    RequestQuadsSpec(Minted(s.serial), json, client);
    AddEffectOn(s, Add(s, json, client).1, Minted(s.serial), RequestQuads(Minted(s.serial), json, client));
  }

  lemma AddIs(s: Store, json: AccessRequest, client: Term)
    requires json.scopes != []
    ensures var added := RequestQuads(Minted(s.serial), json, client);
      Add(s, json, client).1 == s.(quads := s.quads + added, serial := s.serial + 1)
  {
    hide RequestQuads;
  }

  lemma AddEffectOn(s: Store, t: Store, subject: Term, added: set<Quad>)
    requires Dated(s) && Old(s) && Attributed(s.quads) && subject == Minted(s.serial)
    requires t == s.(quads := s.quads + added, serial := s.serial + 1)
    requires forall q | q in added :: Serial(q.s) == Some(s.serial)
    requires Typed(added, EvaluationRequest) == {subject} && Agreements(added) == {}
    requires WithStatus(added, Accepted) == {} && RequestOk(added, subject) && Attributed(added)
    ensures Added(s, t, subject)
  {
    hide RequestOk, Serial, Typed, Agreements, WithStatus, ObjectsOf, Attributed, Dated, AddsFresh;
    assert AddsFresh(s.quads, t.quads, s.serial) by { FreshUnion(s.quads, added, s.serial); }
    FreshStaysDated(s, t.quads);
    forall x, p | IsOld(x, s.serial) ensures ObjectsOf(t.quads, x, p) == ObjectsOf(s.quads, x, p) {
      OldSubjectsKept(s, t.quads, x, p);
    }
    SubjectSerial(subject);
    forall p ensures ObjectsOf(t.quads, subject, p) == ObjectsOf(added, subject, p) {
      FreshSubjects(s, t.quads, added, subject, p);
    }
    RequestOkKept(Store(added, 0, map[]), t.quads, subject);
    TypesOfUnion(s.quads, added);
    AttributedUnion(s.quads, added);
  }

  lemma FreshUnion(quads: set<Quad>, added: set<Quad>, serial: nat)
    requires forall q | q in added :: Serial(q.s) == Some(serial)
    ensures AddsFresh(quads, quads + added, serial)
  {}

  lemma SubjectSerial(subject: Term)
    requires subject.Minted?
    ensures Serial(subject) == Some(subject.serial)
  {}

  lemma TypesOfUnion(quads: set<Quad>, added: set<Quad>)
    ensures Typed(quads + added, EvaluationRequest) == Typed(quads, EvaluationRequest) + Typed(added, EvaluationRequest)
    ensures Agreements(quads + added) == Agreements(quads) + Agreements(added)
    ensures WithStatus(quads + added, Accepted) == WithStatus(quads, Accepted) + WithStatus(added, Accepted)
  {}

  lemma AttributedUnion(quads: set<Quad>, added: set<Quad>)
    requires Attributed(quads) && Attributed(added)
    ensures Attributed(quads + added)
  {
    TypesOfUnion(quads, added);
    hide Typed, WithStatus;
  }

  lemma AddedKeepsInv(s: Store, t: Store, subject: Term)
    requires Inv(s) && Old(s) && Added(s, t, subject)
    ensures Inv(t)
  {
    hide ObjectsOf, SubjectsOf, Typed, Agreements, WithStatus, Dated, Attributed, RequestOk, Mirrors;
    forall r | r in Typed(s.quads, EvaluationRequest) ensures RequestOk(t.quads, r) { RequestOkKept(s, t.quads, r); }
    forall p | p in s.granted ensures Mirrors(t.quads, p, s.granted[p]) {
      MirrorsKept(s, t.quads, p, s.granted[p]);
    }
  }

  lemma AddKeepsInv(s: Store, json: AccessRequest, client: Term)
    requires Inv(s)
    ensures Inv(Add(s, json, client).1)
  {
    if json.scopes != [] {
      InvOld(s);
      AddEffect(s, json, client);
      hide Add;
      AddedKeepsInv(s, Add(s, json, client).1, Minted(s.serial));
    }
  }

  // ----- deciding a request -----

  function Resolve(quads: set<Quad>, request: Term, verdict: Verdict): set<Quad> {
    (quads - {Quad(request, RequestStatus, Known(Requested))}) + {Quad(request, RequestStatus, StatusWord(verdict))}
  }

  lemma ResolveEffect(quads: set<Quad>, request: Term, verdict: Verdict)
    requires ObjectsOf(quads, request, RequestStatus) == {Known(Requested)}
    ensures var after := Resolve(quads, request, verdict);
      && ObjectsOf(after, request, RequestStatus) == {StatusWord(verdict)}
      && (forall x, p | x != request || p != RequestStatus :: ObjectsOf(after, x, p) == ObjectsOf(quads, x, p))
      && (forall w :: Typed(after, w) == Typed(quads, w))
      && WithStatus(after, Accepted) == WithStatus(quads, Accepted) + (if verdict == Accept then {request} else {})
  {
    var after := Resolve(quads, request, verdict);
    assert Quad(request, RequestStatus, StatusWord(verdict)) in after;
    forall q | q in after && q.s == request && q.p == RequestStatus ensures q.o == StatusWord(verdict) {
      if q in quads { assert q.o in ObjectsOf(quads, request, RequestStatus); }
    }
    forall x, p | x != request || p != RequestStatus ensures ObjectsOf(after, x, p) == ObjectsOf(quads, x, p) {
      forall q: Quad | q.s == x && q.p == p ensures q in after <==> q in quads {}
    }
    forall w ensures Typed(after, w) == Typed(quads, w) {
      forall q: Quad | q.p == RdfType ensures q in after <==> q in quads {}
    }
    forall x | x in WithStatus(quads, Accepted) ensures x in WithStatus(after, Accepted) {
      assert Quad(x, RequestStatus, Known(Accepted)) in after;
    }
  }

  predicate OfPolicies(p: Predicate) {
    || p == RdfType || p == Uid || p == HasPermission
    || p == Target || p == Assignee || p == Assigner || p == Action || p == HasConstraint
  }

  /** What a generated policy says about the policy and its permission; the rest is copied. */
  lemma GeneratedQuad(quads: set<Quad>, request: Term, policy: Term, target: Term, party: Term, client: Term, q: Quad)
    requires q in PolicyQuads(quads, request, policy, target, party, client) && q !in quads
    ensures (q.s == policy || q.s == PermissionOf(policy)) && OfPolicies(q.p)
    ensures q.p == RdfType ==> q == Quad(policy, RdfType, Known(Agreement)) || q.o == Known(PermissionClass)
    ensures q.p == HasPermission ==> q == Quad(policy, HasPermission, PermissionOf(policy))
    ensures q.p == Uid ==> q.s == policy && q.o == policy
    ensures q.p == Target ==> q.s == PermissionOf(policy) && q.o == target
    ensures q.p == Assignee ==> q.o == party
    ensures q.p == Assigner ==> q == Quad(PermissionOf(policy), Assigner, client)
    ensures q.p == Action ==> q.o in ObjectsOf(quads, request, RequestedAction)
    ensures q.p == HasConstraint ==> q.o in ObjectsOf(quads, request, HasConstraint)
  {
    hide ObjectsOf;
  }

  lemma GeneratedQuads(quads: set<Quad>, request: Term, policy: Term, target: Term, party: Term, client: Term)
    ensures var permission := PermissionOf(policy);
      var added := PolicyQuads(quads, request, policy, target, party, client);
      && Quad(policy, RdfType, Known(Agreement)) in added && Quad(policy, Uid, policy) in added
      && Quad(policy, HasPermission, permission) in added && Quad(permission, Assigner, client) in added
      && Quad(permission, Target, target) in added && Quad(permission, Assignee, party) in added
      && (forall a | a in ObjectsOf(quads, request, RequestedAction) :: Quad(permission, Action, a) in added)
      && (forall c | c in ObjectsOf(quads, request, HasConstraint) :: Quad(permission, HasConstraint, c) in added)
  {
    hide ObjectsOf;
  }

  lemma PolicySubjects(s: Store, quads: set<Quad>, request: Term, target: Term, party: Term, client: Term)
    ensures var policy := Minted(s.serial);
      var after := quads + PolicyQuads(quads, request, policy, target, party, client);
      && AddsFresh(quads, after, s.serial)
      && (forall q | q in after && q !in quads :: !OfRequests(q.p)
            && (q.p == RdfType ==> q == Quad(policy, RdfType, Known(Agreement)) || q.o == Known(PermissionClass)))
      && Quad(policy, RdfType, Known(Agreement)) in after
  {
    hide PolicyQuads, ObjectsOf;
    var policy := Minted(s.serial);
    forall q | q in PolicyQuads(quads, request, policy, target, party, client) && q !in quads
      ensures Serial(q.s) == Some(s.serial) && !OfRequests(q.p)
      ensures q.p == RdfType ==> q == Quad(policy, RdfType, Known(Agreement)) || q.o == Known(PermissionClass)
    {
      GeneratedQuad(quads, request, policy, target, party, client, q);
    }
    GeneratedQuads(quads, request, policy, target, party, client);
  }

  lemma PolicyEffect(s: Store, quads: set<Quad>, request: Term, target: Term, party: Term, client: Term)
    requires Dated(s.(quads := quads)) && request.Minted? && request.serial < s.serial
    requires ObjectsOf(quads, request, RequestedTarget) == {target}
    requires ObjectsOf(quads, request, RequestingParty) == {party}
    ensures var policy := Minted(s.serial);
      var after := quads + PolicyQuads(quads, request, policy, target, party, client);
      && AddsFresh(quads, after, s.serial)
      && Mirrors(after, policy, request)
      && Agreements(after) == Agreements(quads) + {policy}
      && Typed(after, EvaluationRequest) == Typed(quads, EvaluationRequest)
      && WithStatus(after, Accepted) == WithStatus(quads, Accepted)
      && (forall q | q in after && q !in quads :: !OfRequests(q.p))
  {
    hide PolicyQuads, ObjectsOf, Mirrors;
    PolicySubjects(s, quads, request, target, party, client);
    PolicyMirrors(s, quads, request, target, party, client);
  }

  lemma PolicyMirrors(s: Store, quads: set<Quad>, request: Term, target: Term, party: Term, client: Term)
    requires Dated(s.(quads := quads)) && request.Minted? && request.serial < s.serial
    requires ObjectsOf(quads, request, RequestedTarget) == {target}
    requires ObjectsOf(quads, request, RequestingParty) == {party}
    requires AddsFresh(quads, quads + PolicyQuads(quads, request, Minted(s.serial), target, party, client), s.serial)
    ensures Mirrors(quads + PolicyQuads(quads, request, Minted(s.serial), target, party, client),
                    Minted(s.serial), request)
  {
    hide PolicyQuads;
    var permission := PermissionOf(Minted(s.serial));
    var added := PolicyQuads(quads, request, Minted(s.serial), target, party, client);
    forall p ensures ObjectsOf(quads + added, request, p) == ObjectsOf(quads, request, p) {
      OldSubjectsKept(s.(quads := quads), quads + added, request, p);
    }
    forall x, p | x in {Minted(s.serial), permission} ensures ObjectsOf(quads + added, x, p) == ObjectsOf(added, x, p) {
      FreshSubjects(s.(quads := quads), quads + added, added, x, p);
    }
    PermissionObjects(s, quads, request, target, party, client);
    hide ObjectsOf;
  }

  lemma PermissionObjects(s: Store, quads: set<Quad>, request: Term, target: Term, party: Term, client: Term)
    requires Dated(s.(quads := quads))
    ensures var policy, permission := Minted(s.serial), PermissionOf(Minted(s.serial));
      var added := PolicyQuads(quads, request, policy, target, party, client);
      && ObjectsOf(added, policy, HasPermission) == {permission} && ObjectsOf(added, policy, Uid) == {policy}
      && ObjectsOf(added, permission, Target) == {target} && ObjectsOf(added, permission, Assignee) == {party}
      && ObjectsOf(added, permission, Action) == ObjectsOf(quads, request, RequestedAction)
      && ObjectsOf(added, permission, HasConstraint) == ObjectsOf(quads, request, HasConstraint)
      && ObjectsOf(added, permission, OvcConstraint) == {}
  {
    hide PolicyQuads;
    var policy, permission := Minted(s.serial), PermissionOf(Minted(s.serial));
    var added := PolicyQuads(quads, request, policy, target, party, client);
    GeneratedQuads(quads, request, policy, target, party, client);
    forall q | q in added && (q.s == permission || q.s == policy)
      ensures q.p == HasPermission ==> q.o == permission
      ensures q.p == Uid ==> q.o == policy
      ensures q.p == Target ==> q.o == target
      ensures q.p == Assignee ==> q.o == party
      ensures q.p == Action ==> q.o in ObjectsOf(quads, request, RequestedAction)
      ensures q.p == HasConstraint ==> q.o in ObjectsOf(quads, request, HasConstraint)
      ensures q.p != OvcConstraint
    {
      assert Serial(q.s) == Some(s.serial) && q !in quads;
      GeneratedQuad(quads, request, policy, target, party, client, q);
    }
    ObjectsAre(added, policy, HasPermission, {permission});
    ObjectsAre(added, policy, Uid, {policy});
    ObjectsAre(added, permission, Target, {target});
    ObjectsAre(added, permission, Assignee, {party});
    ObjectsAre(added, permission, Action, ObjectsOf(quads, request, RequestedAction));
    ObjectsAre(added, permission, HasConstraint, ObjectsOf(quads, request, HasConstraint));
    ObjectsAre(added, permission, OvcConstraint, {});
  }

  /** What a decision does to everything the invariant speaks of. */
  ghost predicate Concluded(s: Store, t: Store, request: Term, verdict: Verdict) {
    var policy := Minted(s.serial);
    && Dated(t) && Attributed(t.quads)
    && Typed(t.quads, EvaluationRequest) == Typed(s.quads, EvaluationRequest)
    && Agreements(t.quads) == Agreements(s.quads) + (if verdict == Accept then {policy} else {})
    && WithStatus(t.quads, Accepted) == WithStatus(s.quads, Accepted) + (if verdict == Accept then {request} else {})
    && t.granted == (if verdict == Accept then s.granted[policy := request] else s.granted)
    && ObjectsOf(t.quads, request, RequestStatus) == {StatusWord(verdict)}
    && KeepsOld(s, t, request)
    && (verdict == Accept ==> Mirrors(t.quads, policy, request))
  }

  /** A decision goes through only for a known request that is still open. */
  lemma CheckedRequest(s: Store, request: Term, owned: set<Term>, target: Term, party: Term, verdict: Verdict)
    requires Inv(s) && Check(s.quads, request, owned, target, verdict) == Done
    requires target in ObjectsOf(s.quads, request, RequestedTarget)
    requires party in ObjectsOf(s.quads, request, RequestingParty)
    ensures request in Typed(s.quads, EvaluationRequest) && RequestOk(s.quads, request)
    ensures ObjectsOf(s.quads, request, RequestStatus) == {Known(Requested)}
    ensures ObjectsOf(s.quads, request, RequestedTarget) == {target}
    ensures ObjectsOf(s.quads, request, RequestingParty) == {party}
  {
    hide Mirrors, Dated;
    assert Quad(request, RequestedTarget, target) in s.quads;
    assert request in Typed(s.quads, EvaluationRequest);
    Singleton(ObjectsOf(s.quads, request, RequestedTarget), target);
    Singleton(ObjectsOf(s.quads, request, RequestingParty), party);
    hide Typed;
  }

  lemma Singleton(terms: set<Term>, t: Term)
    requires |terms| == 1 && t in terms
    ensures terms == {t}
  {
    assert |terms - {t}| == 0;
  }

  lemma ResolvedStaysDated(s: Store, request: Term, verdict: Verdict)
    requires Dated(s) && Attributed(s.quads)
    requires request in Typed(s.quads, EvaluationRequest) && request.Minted? && request.serial < s.serial
    requires Typed(Resolve(s.quads, request, verdict), EvaluationRequest) == Typed(s.quads, EvaluationRequest)
    ensures Dated(s.(quads := Resolve(s.quads, request, verdict)))
    ensures Attributed(Resolve(s.quads, request, verdict))
  {
    hide Typed;
  }

  lemma FreshStaysDated(s: Store, after: set<Quad>)
    requires Dated(s) && AddsFresh(s.quads, after, s.serial)
    ensures Dated(s.(quads := after, serial := s.serial + 1))
  {}

  lemma FreshStaysAttributed(quads: set<Quad>, after: set<Quad>)
    requires Attributed(quads) && Typed(after, EvaluationRequest) == Typed(quads, EvaluationRequest)
    requires forall q | q in after && q !in quads :: !OfRequests(q.p)
    ensures Attributed(after)
  {
    hide Typed;
  }

  /** An accepted request: the fresh policy leaves older subjects alone. */
  lemma AcceptedEffect(s: Store, request: Term, client: Term, target: Term, party: Term)
    requires Dated(s) && Attributed(s.quads) && request.Minted? && request.serial < s.serial
    requires ObjectsOf(s.quads, request, RequestedTarget) == {target}
    requires ObjectsOf(s.quads, request, RequestingParty) == {party}
    ensures var policy := Minted(s.serial);
      var t := s.(quads := s.quads + PolicyQuads(s.quads, request, policy, target, party, client),
                  serial := s.serial + 1);
      && Dated(t) && Attributed(t.quads)
      && (forall x, p | Serial(x).Some? && Serial(x) != Some(s.serial) ::
        ObjectsOf(t.quads, x, p) == ObjectsOf(s.quads, x, p))
  {
    hide PolicyQuads, Mirrors, WithStatus, Typed, Dated, Attributed, ObjectsOf, AddsFresh, OfRequests;
    PolicyEffect(s, s.quads, request, target, party, client);
    var after := s.quads + PolicyQuads(s.quads, request, Minted(s.serial), target, party, client);
    FreshStaysDated(s, after);
    FreshStaysAttributed(s.quads, after);
    forall x, p | Serial(x).Some? && Serial(x) != Some(s.serial)
      ensures ObjectsOf(after, x, p) == ObjectsOf(s.quads, x, p)
    {
      OldSubjectsKept(s, after, x, p);
    }
  }

  lemma DecidedEffect(s: Store, request: Term, client: Term, target: Term, party: Term, verdict: Verdict)
    requires Dated(s) && Old(s) && Attributed(s.quads)
    requires request in Typed(s.quads, EvaluationRequest) && request.Minted?
    requires ObjectsOf(s.quads, request, RequestStatus) == {Known(Requested)}
    requires ObjectsOf(s.quads, request, RequestedTarget) == {target}
    requires ObjectsOf(s.quads, request, RequestingParty) == {party}
    ensures Concluded(s, Decided(s, request, client, target, party, verdict), request, verdict)
  {
    hide ObjectsOf, SubjectsOf, Typed, WithStatus, Dated, Attributed, Mirrors, PolicyQuads;
    var resolved := Resolve(s.quads, request, verdict);
    ResolveEffect(s.quads, request, verdict);
    ResolvedStaysDated(s, request, verdict);
    if verdict == Accept {
      PolicyEffect(s, resolved, request, target, party, client);
      AcceptedEffect(s.(quads := resolved), request, client, target, party);
      SameDates(s.(quads := Decided(s, request, client, target, party, verdict).quads, serial := s.serial + 1),
                Decided(s, request, client, target, party, verdict));
    }
  }

  lemma SameDates(s: Store, t: Store)
    requires Dated(s) && s.quads == t.quads && s.serial == t.serial
    ensures Dated(t)
  {}

  lemma ConcludedKeepsRequests(s: Store, t: Store, request: Term, verdict: Verdict)
    requires Old(s) && Concluded(s, t, request, verdict) && RequestOk(s.quads, request)
    requires forall r | r in Typed(s.quads, EvaluationRequest) :: RequestOk(s.quads, r)
    requires request in Typed(s.quads, EvaluationRequest)
    ensures forall r | r in Typed(t.quads, EvaluationRequest) :: RequestOk(t.quads, r)
  {
    hide SubjectsOf, ObjectsOf, Typed, WithStatus, Dated, Attributed, Mirrors;
    forall r | r in Typed(t.quads, EvaluationRequest) ensures RequestOk(t.quads, r) {
      if r != request { RequestOkKept(s, t.quads, r); }
    }
  }

  lemma ConcludedKeepsMirrors(s: Store, t: Store, request: Term, verdict: Verdict)
    requires Old(s) && Concluded(s, t, request, verdict)
    requires forall p | p in s.granted :: Mirrors(s.quads, p, s.granted[p])
    ensures forall p | p in t.granted :: Mirrors(t.quads, p, t.granted[p])
  {
    hide SubjectsOf, ObjectsOf, Typed, WithStatus, Dated, Attributed, Mirrors, RequestOk;
    forall p | p in t.granted ensures Mirrors(t.quads, p, t.granted[p]) {
      if p in s.granted { MirrorsKept(s, t.quads, p, s.granted[p]); }
    }
  }

  lemma OneMore(granted: map<Term, Term>, agreements: set<Term>, accepted: set<Term>, policy: Term, request: Term)
    requires OneEach(granted, agreements, accepted) && policy !in agreements && request !in accepted
    ensures OneEach(granted[policy := request], agreements + {policy}, accepted + {request})
  {
    var after := granted[policy := request];
    assert after[policy] == request;
    forall p | p in granted ensures after[p] == granted[p] {}
    forall r ensures r in after.Values <==> r in accepted + {request} {
      if r in accepted { var p :| p in granted && granted[p] == r; assert after[p] == r; }
    }
  }

  lemma ConcludedKeepsInv(s: Store, t: Store, request: Term, verdict: Verdict)
    requires Inv(s) && Old(s) && Concluded(s, t, request, verdict)
    requires request in Typed(s.quads, EvaluationRequest) && RequestOk(s.quads, request)
    requires ObjectsOf(s.quads, request, RequestStatus) == {Known(Requested)}
    ensures Inv(t)
  {
    hide SubjectsOf, ObjectsOf, Typed, WithStatus, Dated, Attributed, Mirrors, Serial, RequestOk, OneEach, Old;
    AcceptedHaveStatus(s, request);
    PolicyIsNew(s);
    ConcludedKeepsRequests(s, t, request, verdict);
    ConcludedKeepsMirrors(s, t, request, verdict);
    OneMore(s.granted, Agreements(s.quads), WithStatus(s.quads, Accepted), Minted(s.serial), request);
    assert forall p | p in t.granted :: p.Minted?;
    if verdict != Accept {
      assert Agreements(t.quads) == Agreements(s.quads);
      assert WithStatus(t.quads, Accepted) == WithStatus(s.quads, Accepted);
    }
  }

  lemma AcceptedHaveStatus(s: Store, request: Term)
    requires ObjectsOf(s.quads, request, RequestStatus) == {Known(Requested)}
    ensures request !in WithStatus(s.quads, Accepted)
  {
    assert Quad(request, RequestStatus, Known(Accepted)) in s.quads ==>
      Known(Accepted) in ObjectsOf(s.quads, request, RequestStatus);
  }

  lemma PolicyIsNew(s: Store)
    requires Dated(s)
    ensures Minted(s.serial) !in Agreements(s.quads)
  {}

  lemma DecisionKeepsInv(s: Store, request: Term, client: Term, target: Term, party: Term, verdict: Verdict)
    requires Inv(s) && request in Typed(s.quads, EvaluationRequest) && RequestOk(s.quads, request)
    requires ObjectsOf(s.quads, request, RequestStatus) == {Known(Requested)}
    requires ObjectsOf(s.quads, request, RequestedTarget) == {target}
    requires ObjectsOf(s.quads, request, RequestingParty) == {party}
    ensures Concluded(s, Decided(s, request, client, target, party, verdict), request, verdict)
    ensures Inv(Decided(s, request, client, target, party, verdict))
  {
    hide ObjectsOf, Typed, Dated, Attributed, Decided, Concluded, Old, OneEach, Mirrors;
    InvOld(s);
    DecidedEffect(s, request, client, target, party, verdict);
    ConcludedKeepsInv(s, Decided(s, request, client, target, party, verdict), request, verdict);
  }

  // ----- the other endpoints -----

  lemma OtherKeepsObjects(s: Store, after: set<Quad>, x: Term, p: Predicate)
    requires LeavesRequests(s.quads, after) && Serial(x).Some?
    ensures ObjectsOf(after, x, p) == ObjectsOf(s.quads, x, p)
  {
    forall q: Quad | q.s == x ensures q in after <==> q in s.quads { assert Reserved(q); }
  }

  lemma OtherKeepsVocabulary(s: Store, after: set<Quad>)
    requires LeavesRequests(s.quads, after)
    ensures Typed(after, EvaluationRequest) == Typed(s.quads, EvaluationRequest)
    ensures Agreements(after) == Agreements(s.quads)
    ensures forall w :: WithStatus(after, w) == WithStatus(s.quads, w)
    ensures Attributed(s.quads) ==> Attributed(after)
    ensures Dated(s) ==> Dated(s.(quads := after))
  {
    forall q: Quad | Reserved(q) ensures q in after <==> q in s.quads {}
    forall x ensures x in Typed(after, EvaluationRequest) <==> x in Typed(s.quads, EvaluationRequest) {
      assert Reserved(Quad(x, RdfType, Known(EvaluationRequest)));
    }
    forall x ensures x in Agreements(after) <==> x in Agreements(s.quads) {
      assert Serial(x).Some? ==> Reserved(Quad(x, RdfType, Known(Agreement)));
    }
    forall w, x ensures x in WithStatus(after, w) <==> x in WithStatus(s.quads, w) {
      assert Reserved(Quad(x, RequestStatus, Known(w)));
    }
    hide Typed, Agreements, WithStatus, Serial;
  }

  lemma OtherKeepsOld(s: Store, after: set<Quad>)
    requires LeavesRequests(s.quads, after)
    ensures forall x, p | IsOld(x, s.serial) :: ObjectsOf(after, x, p) == ObjectsOf(s.quads, x, p)
  {
    hide LeavesRequests, ObjectsOf;
    forall x, p | IsOld(x, s.serial) ensures ObjectsOf(after, x, p) == ObjectsOf(s.quads, x, p) {
      OtherKeepsObjects(s, after, x, p);
    }
  }

  lemma OtherKeepsInv(s: Store, after: set<Quad>)
    requires Inv(s) && LeavesRequests(s.quads, after)
    ensures Inv(s.(quads := after))
  {
    hide ObjectsOf, SubjectsOf, Typed, Agreements, WithStatus, Dated, Attributed, RequestOk, Mirrors, LeavesRequests,
         IsOld, OneEach;
    InvOld(s);
    OtherKeepsVocabulary(s, after);
    OtherKeepsOld(s, after);
    forall r | r in Typed(s.quads, EvaluationRequest) ensures RequestOk(after, r) { RequestOkKept(s, after, r); }
    forall g | g in s.granted ensures Mirrors(after, g, s.granted[g]) { MirrorsKept(s, after, g, s.granted[g]); }
  }

  /** Everything in the vocabulary of requests is about names that were given out. */
  lemma ReservedIsOld(s: Store)
    requires Inv(s)
    ensures forall q | q in s.quads && Reserved(q) :: IsOld(q.s, s.serial)
  {
    InvOld(s);
    forall q | q in s.quads && Reserved(q) && Serial(q.s).None? ensures q.s in Typed(s.quads, EvaluationRequest) {}
    hide Typed, RequestOk, Mirrors;
  }

  // ----- the policy endpoint -----

  lemma UntouchedObjects(quads: set<Quad>, removed: set<Term>, body: set<Quad>, x: Term, p: Predicate)
    requires x !in removed && forall q | q in body && q.s == x :: q.p != p
    ensures ObjectsOf(Overwritten(quads, removed, body), x, p) == ObjectsOf(quads, x, p)
  {}

  lemma WriteKeepsRequestOk(s: Store, removed: set<Term>, body: set<Quad>, r: Term)
    requires Inv(s) && SoundWrite(s, removed, body)
    requires r in Typed(Overwritten(s.quads, removed, body), EvaluationRequest)
    ensures RequestOk(Overwritten(s.quads, removed, body), r)
  {
    var after := Overwritten(s.quads, removed, body);
    hide Mirrors, Dated, Attributed, OneEach, Answers, RequestOk, IsOld;
    if q :| q in body && q.s == r && OfRequest(q) {
    } else {
      assert Quad(r, RdfType, Known(EvaluationRequest)) in after;
      assert Quad(r, RdfType, Known(EvaluationRequest)) !in body;
      assert r in Typed(s.quads, EvaluationRequest) && r !in removed;
      forall p | OfRequests(p) ensures ObjectsOf(after, r, p) == ObjectsOf(s.quads, r, p) {
        UntouchedObjects(s.quads, removed, body, r, p);
      }
      RequestOkFrom(s.quads, after, r);
    }
  }

  lemma RequestOkFrom(quads: set<Quad>, after: set<Quad>, r: Term)
    requires RequestOk(quads, r) && forall p | OfRequests(p) :: ObjectsOf(after, r, p) == ObjectsOf(quads, r, p)
    ensures RequestOk(after, r)
  {
    hide ObjectsOf;
  }

  lemma WriteKeepsAnswers(s: Store, removed: set<Term>, body: set<Quad>, g: Term)
    requires Inv(s) && SoundWrite(s, removed, body) && g in s.granted
    ensures Answers(s, Overwritten(s.quads, removed, body), g)
  {
    hide Dated, Attributed, RequestOk, IsOld, Mirrors;
    var after, r := Overwritten(s.quads, removed, body), s.granted[g];
    if !Touches(removed, body, g) && !Touches(removed, body, PermissionOf(g)) && !Touches(removed, body, r) {
      assert r in s.granted.Values;
      assert g in Agreements(s.quads) && r in WithStatus(s.quads, Accepted);
      assert Quad(g, RdfType, Known(Agreement)) in after && Quad(r, RequestStatus, Known(Accepted)) in after;
      forall x, p | x in {g, PermissionOf(g), r} ensures ObjectsOf(after, x, p) == ObjectsOf(s.quads, x, p) {
        UntouchedObjects(s.quads, removed, body, x, p);
      }
      MirrorsKept(s, after, g, r);
    }
  }

  lemma WriteKeepsAttribution(s: Store, removed: set<Term>, body: set<Quad>)
    requires Inv(s) && SoundWrite(s, removed, body)
    ensures Attributed(Overwritten(s.quads, removed, body))
    ensures Dated(s.(quads := Overwritten(s.quads, removed, body)))
  {
    hide Mirrors, RequestOk, OneEach, Answers;
    var after := Overwritten(s.quads, removed, body);
    forall q | q in after && OfRequests(q.p) ensures q.s in Typed(after, EvaluationRequest) {
      if q !in body {
        assert q.s in Typed(s.quads, EvaluationRequest) && q.s !in removed;
        assert Quad(q.s, RdfType, Known(EvaluationRequest)) in after;
      }
    }
  }

  lemma WriteKeepsOneEach(s: Store, removed: set<Term>, body: set<Quad>)
    requires Inv(s) && SoundWrite(s, removed, body)
    ensures var after := Overwritten(s.quads, removed, body);
      OneEach(s.granted, Agreements(after), WithStatus(after, Accepted))
  {
    hide Inv, SoundWrite, Overwritten, Agreements, WithStatus, Mirrors;
    var after := Overwritten(s.quads, removed, body);
    forall g | g in s.granted ensures g in Agreements(after) && s.granted[g] in WithStatus(after, Accepted) {
      WriteKeepsAnswers(s, removed, body, g);
    }
    NothingElseAnswered(s, removed, body);
    InvOneEach(s);
  }

  lemma InvOneEach(s: Store)
    requires Inv(s)
    ensures OneEach(s.granted, Agreements(s.quads), WithStatus(s.quads, Accepted))
  {}

  lemma NothingElseAnswered(s: Store, removed: set<Term>, body: set<Quad>)
    requires Inv(s) && SoundWrite(s, removed, body)
    ensures var after := Overwritten(s.quads, removed, body);
      (forall x | x in Agreements(after) :: x in s.granted)
      && (forall r | r in WithStatus(after, Accepted) :: r in s.granted.Values)
  {
    hide Mirrors, RequestOk, Answers, Dated, Attributed;
    var after := Overwritten(s.quads, removed, body);
    forall x | x in Agreements(after) ensures x in s.granted {
      var q := Quad(x, RdfType, Known(Agreement));
      assert q in after;
      if q !in body { assert x in Agreements(s.quads); }
    }
    forall r | r in WithStatus(after, Accepted) ensures r in s.granted.Values {
      var q := Quad(r, RequestStatus, Known(Accepted));
      assert q in after;
      if q !in body { assert r in WithStatus(s.quads, Accepted); }
    }
  }

  lemma SoundWriteKeepsInv(s: Store, removed: set<Term>, body: set<Quad>)
    requires Inv(s) && SoundWrite(s, removed, body)
    ensures Inv(s.(quads := Overwritten(s.quads, removed, body)))
  {
    var after := Overwritten(s.quads, removed, body);
    WriteKeepsAttribution(s, removed, body);
    WriteKeepsOneEach(s, removed, body);
    forall r | r in Typed(after, EvaluationRequest) ensures RequestOk(after, r) {
      WriteKeepsRequestOk(s, removed, body, r);
    }
    forall g | g in s.granted ensures Mirrors(after, g, s.granted[g]) { WriteKeepsAnswers(s, removed, body, g); }
    hide SoundWrite, Overwritten, Mirrors, RequestOk, Dated, Attributed, OneEach, Typed, Agreements, WithStatus;
  }

  lemma InvMakesWriteSound(s: Store, removed: set<Term>, body: set<Quad>)
    requires Inv(s.(quads := Overwritten(s.quads, removed, body)))
    ensures SoundWrite(s, removed, body)
  {
    var after := Overwritten(s.quads, removed, body);
    assert forall q | q in body :: q in after;
    hide Overwritten, RequestOk, Mirrors;
    forall q | q in body && OfRequest(q) ensures q.s in Typed(after, EvaluationRequest) {}
    forall q | q in body && q.p == RequestStatus && q.o == Known(Accepted) ensures q.s in s.granted.Values {
      assert q.s in WithStatus(after, Accepted);
    }
    forall q | q in body && q.p == RdfType && q.o == Known(Agreement) && Serial(q.s).Some? ensures q.s in s.granted {
      assert q.s in Agreements(after);
    }
    forall g | g in s.granted ensures Answers(s, after, g) { assert s.granted[g] in s.granted.Values; }
  }

  /** A write of the policy endpoint keeps the invariant exactly when it is sound. */
  lemma WriteKeepsInvIff(s: Store, removed: set<Term>, body: set<Quad>)
    requires Inv(s)
    ensures Inv(s.(quads := Overwritten(s.quads, removed, body))) <==> SoundWrite(s, removed, body)
  {
    hide Inv, SoundWrite, Overwritten;
    if SoundWrite(s, removed, body) { SoundWriteKeepsInv(s, removed, body); }
    if Inv(s.(quads := Overwritten(s.quads, removed, body))) { InvMakesWriteSound(s, removed, body); }
  }

  /** After the write the store says the same as before about this property of the term: what is removed is
      put back, and nothing else is added. */
  ghost predicate Restates(quads: set<Quad>, removed: set<Term>, body: set<Quad>, x: Term, p: Predicate) {
    && (x in removed ==> forall o | o in ObjectsOf(quads, x, p) :: Quad(x, p, o) in body)
    && (forall o | Quad(x, p, o) in body :: o in ObjectsOf(quads, x, p))
  }

  lemma OverwrittenObjects(quads: set<Quad>, removed: set<Term>, body: set<Quad>, x: Term, p: Predicate)
    ensures forall o :: o in ObjectsOf(Overwritten(quads, removed, body), x, p) <==>
      (x !in removed && o in ObjectsOf(quads, x, p)) || Quad(x, p, o) in body
  {
    var after := Overwritten(quads, removed, body);
    forall o ensures o in ObjectsOf(after, x, p) <==>
      (x !in removed && o in ObjectsOf(quads, x, p)) || Quad(x, p, o) in body
    {
      assert o in ObjectsOf(after, x, p) <==> Quad(x, p, o) in after;
      assert o in ObjectsOf(quads, x, p) <==> Quad(x, p, o) in quads;
    }
  }

  lemma RestatesIff(quads: set<Quad>, removed: set<Term>, body: set<Quad>, x: Term, p: Predicate)
    ensures ObjectsOf(Overwritten(quads, removed, body), x, p) == ObjectsOf(quads, x, p)
       <==> Restates(quads, removed, body, x, p)
  {
    hide ObjectsOf, Overwritten;
    OverwrittenObjects(quads, removed, body, x, p);
  }

  /** The operation is no write of the policy endpoint that changes what is said about this property. */
  ghost predicate KeepsSaying(s: Store, op: Operation, x: Term, p: Predicate) {
    op.WritePolicies? ==> Restates(s.quads, op.removed, op.body, x, p)
  }

  // ----- one operation -----

  lemma PerformKeepsInv(s: Store, op: Operation)
    requires Inv(s) && WellFormed(s, op)
    ensures Inv(Perform(s, op).1)
  {
    hide Inv, Check, Decided, Add, Concluded, RequestOk, LeavesRequests, SoundWrite, Overwritten;
    match op
    case AddRequest(json, client) => AddKeepsInv(s, json, client);
    case DecideRequest(request, client, owned, target, party, verdict) =>
      if Check(s.quads, request, owned, target, verdict) == Done {
        DoneHasParties(s, op);
        CheckedRequest(s, request, owned, target, party, verdict);
        DecisionKeepsInv(s, request, client, target, party, verdict);
      }
    case OtherEndpoint(after) => OtherKeepsInv(s, after);
    case WritePolicies(removed, body) => WriteKeepsInvIff(s, removed, body);
  }

  lemma DoneHasParties(s: Store, op: Operation)
    requires op.DecideRequest? && WellFormed(s, op)
    requires Check(s.quads, op.request, op.owned, op.target, op.verdict) == Done
    ensures op.target in ObjectsOf(s.quads, op.request, RequestedTarget)
    ensures op.party in ObjectsOf(s.quads, op.request, RequestingParty)
    ensures op.verdict != Other && op.target in op.owned
  {
    hide ObjectsOf;
  }

  /** The owner of the target decides an open request. */
  ghost predicate Decides(s: Store, op: Operation, r: Term) {
    && op.DecideRequest? && op.request == r && op.verdict != Other && op.target in op.owned
    && ObjectsOf(s.quads, r, RequestStatus) == {Known(Requested)}
    && ObjectsOf(s.quads, r, RequestedTarget) == {op.target}
  }

  /** An operation changes nothing that was said about old names, but for the status of a request that it decides,
      and for what a policy request rewrites. */
  lemma StepKeepsOld(s: Store, op: Operation)
    requires Inv(s) && WellFormed(s, op)
    ensures s.serial <= Perform(s, op).1.serial
    ensures forall x, p | IsOld(x, s.serial) && KeepsSaying(s, op, x, p) ::
      || ObjectsOf(Perform(s, op).1.quads, x, p) == ObjectsOf(s.quads, x, p)
      || (p == RequestStatus && Decides(s, op, x)
          && ObjectsOf(Perform(s, op).1.quads, x, RequestStatus) == {StatusWord(op.verdict)})
    ensures forall g | g in s.granted :: g in Perform(s, op).1.granted && Perform(s, op).1.granted[g] == s.granted[g]
  {
    InvOld(s);
    hide Inv, Check, Decided, Add, RequestOk, ObjectsOf, Typed, Dated, Attributed, WithStatus, Mirrors, IsOld,
         LeavesRequests, SoundWrite, Overwritten, Restates;
    match op
    case AddRequest(json, client) =>
      if json.scopes == [] {
        NothingAdded(s, json, client);
      } else {
        InvParts(s);
        AddEffect(s, json, client);
        MintedIsNew(s);
      }
    case DecideRequest(request, client, owned, target, party, verdict) =>
      if Check(s.quads, request, owned, target, verdict) == Done {
        DoneHasParties(s, op);
        CheckedRequest(s, request, owned, target, party, verdict);
        DecisionKeepsInv(s, request, client, target, party, verdict);
        DecidedGrants(s, request, client, target, party, verdict);
      }
    case OtherEndpoint(after) => OtherKeepsOld(s, after);
    case WritePolicies(removed, body) =>
      forall x, p | Restates(s.quads, removed, body, x, p)
        ensures ObjectsOf(Overwritten(s.quads, removed, body), x, p) == ObjectsOf(s.quads, x, p)
      {
        RestatesIff(s.quads, removed, body, x, p);
      }
  }

  lemma MintedIsNew(s: Store)
    ensures !IsOld(Minted(s.serial), s.serial)
  {}

  lemma DecidedGrants(s: Store, request: Term, client: Term, target: Term, party: Term, verdict: Verdict)
    requires Old(s)
    ensures var t := Decided(s, request, client, target, party, verdict);
      s.serial <= t.serial && forall g | g in s.granted :: g in t.granted && t.granted[g] == s.granted[g]
  {
    hide PolicyQuads, Typed;
  }

  lemma NothingAdded(s: Store, json: AccessRequest, client: Term)
    requires json.scopes == []
    ensures Add(s, json, client).1 == s
  {}

  lemma InvParts(s: Store)
    requires Inv(s)
    ensures Dated(s) && Attributed(s.quads)
  {}

  lemma StatusIsTyped(s: Store, r: Term)
    requires Inv(s)
    ensures r in Typed(s.quads, EvaluationRequest) <==> ObjectsOf(s.quads, r, RequestStatus) != {}
  {
    hide Mirrors, Dated, OneEach;
    if r in Typed(s.quads, EvaluationRequest) {
      assert RequestOk(s.quads, r);
    } else {
      hide Typed;
      forall o ensures o !in ObjectsOf(s.quads, r, RequestStatus) {}
    }
  }

  /** The store has one value for the property of the term, and only one. */
  ghost predicate HasOne(quads: set<Quad>, x: Term, p: Predicate) {
    exists o :: Quad(x, p, o) in quads && forall other | Quad(x, p, other) in quads :: other == o
  }

  lemma OneObjectIff(quads: set<Quad>, x: Term, p: Predicate)
    ensures |ObjectsOf(quads, x, p)| == 1 <==> HasOne(quads, x, p)
  {
    var objects := ObjectsOf(quads, x, p);
    forall o ensures o in objects <==> Quad(x, p, o) in quads {}
    hide ObjectsOf;
    SingleIff(objects);
  }

  lemma SingleIff(objects: set<Term>)
    ensures |objects| == 1 <==> exists o :: o in objects && forall other | other in objects :: other == o
  {
    if |objects| == 1 {
      var o :| o in objects;
      assert |objects - {o}| == 0;
      forall other | other in objects ensures other == o { assert other !in objects - {o}; }
    }
    if o :| o in objects && forall other | other in objects :: other == o { assert objects == {o}; }
  }

  lemma NoObjectIff(quads: set<Quad>, x: Term, p: Predicate)
    ensures ObjectsOf(quads, x, p) == {} <==> forall o :: Quad(x, p, o) !in quads
  {
    forall o ensures o in ObjectsOf(quads, x, p) <==> Quad(x, p, o) in quads {}
    hide ObjectsOf;
  }

  /** The checks of a decision on any store, also one that others have disturbed: 500 for a request without exactly one
      status, some action and exactly one party. */
  lemma ChecksAre(quads: set<Quad>, r: Term, owned: set<Term>, target: Term, verdict: Verdict)
    ensures Check(quads, r, owned, target, verdict) ==
      if forall o :: Quad(r, RequestedTarget, o) !in quads then NotFound
      else if verdict == Other then BadRequest
      else if target !in owned then Forbidden
      else if !HasOne(quads, r, RequestStatus) then InternalError
      else if Quad(r, RequestStatus, Known(Requested)) !in quads then Conflict
      else if (forall o :: Quad(r, RequestedAction, o) !in quads) || !HasOne(quads, r, RequestingParty)
      then InternalError else Done
  {
    OneObjectIff(quads, r, RequestStatus);
    OneObjectIff(quads, r, RequestingParty);
    NoObjectIff(quads, r, RequestedTarget);
    NoObjectIff(quads, r, RequestedAction);
    assert Known(Requested) in ObjectsOf(quads, r, RequestStatus) <==>
      Quad(r, RequestStatus, Known(Requested)) in quads;
    hide ObjectsOf, HasOne;
  }

  lemma TypedIff(s: Store, r: Term)
    requires Inv(s)
    ensures Quad(r, RdfType, Known(EvaluationRequest)) in s.quads ==> RequestOk(s.quads, r)
    ensures Quad(r, RdfType, Known(EvaluationRequest)) !in s.quads ==> ObjectsOf(s.quads, r, RequestedTarget) == {}
  {
    hide Mirrors, Dated, OneEach, RequestOk;
    if Quad(r, RdfType, Known(EvaluationRequest)) in s.quads {
      assert r in Typed(s.quads, EvaluationRequest);
    } else {
      forall o ensures o !in ObjectsOf(s.quads, r, RequestedTarget) {}
    }
  }

  /** Asking is refused without scopes. A decision is answered with 404 when there is no such request, with 400 when it
      is none, with 403 when the target belongs to others and with 409 when the request was decided before; the internal
      errors of the code are never reached. */
  lemma ResponsesAre(s: Store, json: AccessRequest, op: Operation)
    requires Inv(s) && op.DecideRequest? && WellFormed(s, op)
    ensures Perform(s, AddRequest(json, op.client)).0 == if |json.scopes| == 0 then BadRequest else Done
    ensures Perform(s, op).0 ==
      if Quad(op.request, RdfType, Known(EvaluationRequest)) !in s.quads then NotFound
      else if op.verdict == Other then BadRequest
      else if op.target !in op.owned then Forbidden
      else if Quad(op.request, RequestStatus, Known(Requested)) !in s.quads then Conflict
      else Done
  {
    hide Inv, Decided, WellFormed, RequestQuads;
    TypedIff(s, op.request);
    assert Known(Requested) in ObjectsOf(s.quads, op.request, RequestStatus) <==>
      Quad(op.request, RequestStatus, Known(Requested)) in s.quads;
    hide ObjectsOf;
  }

  /** The status of a request changes exactly when the owner of its target decides it while it is open, or when a
      request to the policy endpoint does not restate it. */
  lemma StatusStep(s: Store, op: Operation, r: Term)
    requires Inv(s) && WellFormed(s, op) && r in Typed(s.quads, EvaluationRequest)
    ensures var before := ObjectsOf(s.quads, r, RequestStatus);
      var after := ObjectsOf(Perform(s, op).1.quads, r, RequestStatus);
      && (KeepsSaying(s, op, r, RequestStatus) ==>
            || after == before
            || (Decides(s, op, r) && after == {StatusWord(op.verdict)}))
      && (!KeepsSaying(s, op, r, RequestStatus) ==> after != before)
      && (after != {} ==> r in Typed(Perform(s, op).1.quads, EvaluationRequest))
  {
    hide Inv, ObjectsOf, Typed, WellFormed, Decides, Restates, Overwritten, Add, Check, Decided;
    InvOld(s);
    StepKeepsOld(s, op);
    PerformKeepsInv(s, op);
    StatusIsTyped(Perform(s, op).1, r);
    if op.WritePolicies? { RestatesIff(s.quads, op.removed, op.body, r, RequestStatus); }
  }

  // ----- whole runs -----

  function Run(s: Store, ops: seq<Operation>): Store
    decreases |ops|
  {
    if ops == [] then s else Run(Perform(s, ops[0]).1, ops[1..])
  }

  ghost predicate AllWellFormed(s: Store, ops: seq<Operation>)
    decreases |ops|
  {
    ops == [] || (WellFormed(s, ops[0]) && AllWellFormed(Perform(s, ops[0]).1, ops[1..]))
  }

  /** A store that knows nothing of access requests yet, whatever else it holds. */
  ghost predicate Unasked(s: Store) {
    s.granted == map[] && forall q | q in s.quads :: !Reserved(q)
  }

  lemma {:induction false} RunKeepsInv(s: Store, ops: seq<Operation>)
    requires Inv(s) && AllWellFormed(s, ops)
    ensures Inv(Run(s, ops))
    decreases |ops|
  {
    hide Inv, Perform, WellFormed;
    if ops != [] {
      PerformKeepsInv(s, ops[0]);
      RunKeepsInv(Perform(s, ops[0]).1, ops[1..]);
    }
  }

  lemma UnaskedInv(s: Store)
    requires Unasked(s)
    ensures Inv(s)
  {
    forall q | q in s.quads ensures !Reserved(q) {}
    forall x ensures x !in Typed(s.quads, EvaluationRequest) {
      assert Reserved(Quad(x, RdfType, Known(EvaluationRequest)));
    }
    forall x ensures x !in WithStatus(s.quads, Accepted) { assert Reserved(Quad(x, RequestStatus, Known(Accepted))); }
    forall x ensures x !in Agreements(s.quads) {
      assert Serial(x).Some? ==> Reserved(Quad(x, RdfType, Known(Agreement)));
    }
    assert Agreements(s.quads) == {} == WithStatus(s.quads, Accepted);
    hide Typed, Agreements, WithStatus, RequestOk, Mirrors, Serial;
  }

  /** Whatever is asked, decided, and written by other endpoints: every request has exactly one status, target and
      party, the generated agreements answer the accepted requests one each, and each has one permission, which
      carries exactly what its request asked for. */
  lemma ReachableInv(s: Store, ops: seq<Operation>)
    requires Unasked(s) && AllWellFormed(s, ops)
    ensures Inv(Run(s, ops))
  {
    UnaskedInv(s);
    hide Run, AllWellFormed, Inv, Unasked;
    RunKeepsInv(s, ops);
  }

  /** No request to the policy endpoint in the run changes what is said about this property. */
  ghost predicate AllKeepSaying(s: Store, ops: seq<Operation>, x: Term, p: Predicate)
    decreases |ops|
  {
    ops == [] || (KeepsSaying(s, ops[0], x, p) && AllKeepSaying(Perform(s, ops[0]).1, ops[1..], x, p))
  }

  /** `accepted` and `denied` are final, as long as every request to the policy endpoint restates them. */
  lemma {:induction false} DecisionsAreFinal(s: Store, ops: seq<Operation>, r: Term)
    requires Inv(s) && AllWellFormed(s, ops) && r in Typed(s.quads, EvaluationRequest)
    requires AllKeepSaying(s, ops, r, RequestStatus) && ObjectsOf(s.quads, r, RequestStatus) != {Known(Requested)}
    ensures ObjectsOf(Run(s, ops).quads, r, RequestStatus) == ObjectsOf(s.quads, r, RequestStatus)
    decreases |ops|
  {
    hide Inv, Perform, WellFormed, ObjectsOf, Typed, KeepsSaying;
    if ops != [] {
      PerformKeepsInv(s, ops[0]);
      StatusIsTyped(s, r);
      StatusStep(s, ops[0], r);
      DecisionsAreFinal(Perform(s, ops[0]).1, ops[1..], r);
    }
  }

  /** What a request asks for, and what a generated policy grants, never changes, but for requests to the policy
      endpoint that do not restate it. */
  lemma {:induction false} NothingIsRewritten(s: Store, ops: seq<Operation>, x: Term, p: Predicate)
    requires Inv(s) && AllWellFormed(s, ops) && IsOld(x, s.serial) && p != RequestStatus
    requires AllKeepSaying(s, ops, x, p)
    ensures ObjectsOf(Run(s, ops).quads, x, p) == ObjectsOf(s.quads, x, p)
    decreases |ops|
  {
    hide Inv, Perform, WellFormed, ObjectsOf, Serial, KeepsSaying;
    if ops != [] {
      PerformKeepsInv(s, ops[0]);
      StepKeepsOld(s, ops[0]);
      NothingIsRewritten(Perform(s, ops[0]).1, ops[1..], x, p);
    }
  }

  // ----- the controller -----

  lemma DecidedIs(s: Store, request: Term, client: Term, target: Term, party: Term, verdict: Verdict)
    ensures var resolved := Resolve(s.quads, request, verdict);
      Decided(s, request, client, target, party, verdict) ==
        if verdict != Accept then s.(quads := resolved)
        else Store(resolved + PolicyQuads(resolved, request, Minted(s.serial), target, party, client),
                   s.serial + 1, s.granted[Minted(s.serial) := request])
  {
    hide PolicyQuads;
  }

  class AccessRequestController {
    const storage: MemoryUCRulesStorage
    var ownershipStore: map<Term, seq<Term>>
    var serial: nat
    ghost var granted: map<Term, Term>

    constructor (storage: MemoryUCRulesStorage, ownershipStore: map<Term, seq<Term>>)
      ensures this.storage == storage && this.ownershipStore == ownershipStore
      ensures serial == 0 && granted == map[]
    {
      this.storage, this.ownershipStore := storage, ownershipStore;
      serial, granted := 0, map[];
    }

    ghost function State(): Store
      reads this, storage
    {
      Store(storage.store, serial, granted)
    }

    function OwnedBy(clientId: Term): set<Term>
      reads this
    {
      if clientId in ownershipStore then set r | r in ownershipStore[clientId] else {}
    }

    method AddEntity(json: AccessRequest, clientId: Term) returns (outcome: Outcome)
      modifies this`serial, storage
      ensures (outcome, State()) == Perform(old(State()), AddRequest(json, clientId))
    {
      if |json.scopes| == 0 { return BadRequest; }
      var subject := Minted(serial);
      serial := serial + 1;
      var request := {
        Quad(subject, RdfType, Known(EvaluationRequest)),
        Quad(subject, RequestedTarget, json.resource),
        Quad(subject, RequestingParty, clientId),
        Quad(subject, RequestStatus, Known(Requested)) };
      request := request + set s | s in json.scopes :: Quad(subject, RequestedAction, s);
      var constraintIdx := 0;
      for i := 0 to |json.constraints|
        invariant constraintIdx == i
        invariant request + ConstraintQuads(subject, json.constraints[i..], i + 1)
          == RequestQuads(subject, json, clientId)
      {
        var terms := json.constraints[i];
        constraintIdx := constraintIdx + 1;
        var constraintSubject := ConstraintOf(subject, constraintIdx);
        request := request + {
          Quad(subject, HasConstraint, constraintSubject),
          Quad(constraintSubject, RdfType, Known(ConstraintClass)),
          Quad(constraintSubject, LeftOperand, terms.0),
          Quad(constraintSubject, Operator, terms.1),
          Quad(constraintSubject, RightOperand, terms.2) };
        assert json.constraints[i..][1..] == json.constraints[i + 1..];
      }
      assert json.constraints[|json.constraints|..] == [] && request == RequestQuads(subject, json, clientId);
      storage.AddRule(request);
      return Done;
    }

    static method GeneratePolicy(store: set<Quad>, request: Term, policy: Term, actions: set<Term>,
                                 target: Term, party: Term, clientId: Term)
      returns (added: set<Quad>)
      requires actions == ObjectsOf(store, request, RequestedAction)
      ensures added == PolicyQuads(store, request, policy, target, party, clientId)
    {
      var permission := PermissionOf(policy);
      added := {
        Quad(policy, RdfType, Known(Agreement)), Quad(policy, Uid, policy), Quad(policy, HasPermission, permission),
        Quad(permission, RdfType, Known(PermissionClass)), Quad(permission, Target, target),
        Quad(permission, Assignee, party), Quad(permission, Assigner, clientId) };
      added := added + (set a | a in actions :: Quad(permission, Action, a));
      var constraints := ObjectsOf(store, request, HasConstraint);
      added := added + (set c | c in constraints :: Quad(permission, HasConstraint, c));
      added := added + (set q | q in store && q.s in constraints);
    }

    /** The checks, in order; without an error, the target and the party that the store yields. */
    method CheckDecision(store: set<Quad>, request: Term, clientId: Term, verdict: Verdict)
      returns (outcome: Outcome, target: Term, party: Term)
      ensures WellFormed(Store(store, serial, granted),
                         DecideRequest(request, clientId, OwnedBy(clientId), target, party, verdict))
      ensures outcome == Check(store, request, OwnedBy(clientId), target, verdict)
    {
      hide ObjectsOf, WellFormed;
      outcome, target, party := Done, request, request;
      var parties := ObjectsOf(store, request, RequestingParty);
      if parties != {} { party :| party in parties; }
      var targets := ObjectsOf(store, request, RequestedTarget);
      if targets != {} { target :| target in targets; }
      FirstOnesFit(Store(store, serial, granted),
        DecideRequest(request, clientId, OwnedBy(clientId), target, party, verdict));
      if targets == {} { return NotFound, target, party; }
      if verdict == Other { return BadRequest, target, party; }
      if target !in OwnedBy(clientId) { return Forbidden, target, party; }
      var statuses := ObjectsOf(store, request, RequestStatus);
      if |statuses| != 1 { return InternalError, target, party; }
      if Known(Requested) !in statuses { return Conflict, target, party; }
      var actions := ObjectsOf(store, request, RequestedAction);
      if actions == {} || |parties| != 1 { return InternalError, target, party; }
    }

    static lemma FirstOnesFit(s: Store, op: Operation)
      requires op.DecideRequest?
      requires ObjectsOf(s.quads, op.request, RequestedTarget) == {}
        || op.target in ObjectsOf(s.quads, op.request, RequestedTarget)
      requires ObjectsOf(s.quads, op.request, RequestingParty) == {}
        || op.party in ObjectsOf(s.quads, op.request, RequestingParty)
      ensures WellFormed(s, op)
    {}

    /** The update of the request and the new policy, on a copy of the store. */
    method PatchAccessRequest(store: set<Quad>, request: Term, clientId: Term, verdict: Verdict)
      returns (outcome: Outcome, patched: set<Quad>, ghost target: Term, ghost party: Term)
      modifies this`serial, this`granted
      ensures WellFormed(Store(store, old(serial), old(granted)),
                         DecideRequest(request, clientId, OwnedBy(clientId), target, party, verdict))
      ensures outcome == Check(store, request, OwnedBy(clientId), target, verdict)
      ensures Store(patched, serial, granted) ==
        var before := Store(store, old(serial), old(granted));
        if outcome == Done then Decided(before, request, clientId, target, party, verdict) else before
    {
      hide PolicyQuads, ObjectsOf, Decided, Check, WellFormed;
      var firstTarget, firstParty;
      outcome, firstTarget, firstParty := CheckDecision(store, request, clientId, verdict);
      patched, target, party := store, firstTarget, firstParty;
      if outcome != Done { return; }
      patched := patched - {Quad(request, RequestStatus, Known(Requested))};
      patched := patched + {Quad(request, RequestStatus, StatusWord(verdict))};
      if verdict == Accept {
        var policy := Minted(serial);
        var actions := ObjectsOf(patched, request, RequestedAction);
        var added := GeneratePolicy(patched, request, policy, actions, firstTarget, firstParty, clientId);
        patched := patched + added;
        granted := granted[policy := request];
        serial := serial + 1;
      }
      DecidedIs(Store(store, old(serial), old(granted)), request, clientId, target, party, verdict);
    }

    /** The request endpoint patches without isolating the request first. */
    method PatchEntity(request: Term, verdict: Verdict, clientId: Term) returns (outcome: Outcome)
      modifies this`serial, this`granted, storage
      ensures exists target, party ::
        var op := DecideRequest(request, clientId, OwnedBy(clientId), target, party, verdict);
        WellFormed(old(State()), op) && (outcome, State()) == Perform(old(State()), op)
    {
      hide Check, Decided, WellFormed;
      var filteredStore := storage.store;
      ghost var target, party;
      outcome, filteredStore, target, party := PatchAccessRequest(filteredStore, request, clientId, verdict);
      ghost var op := DecideRequest(request, clientId, OwnedBy(clientId), target, party, verdict);
      if outcome != Done {
        assert WellFormed(old(State()), op) && (outcome, State()) == Perform(old(State()), op);
        return;
      }
      var remove := storage.store - filteredStore;
      var add := filteredStore - storage.store;
      assert (storage.store - remove) + add == filteredStore;
      if remove != {} { storage.RemoveData(remove); }
      assert storage.store + add == filteredStore;
      if add != {} { storage.AddRule(add); }
      assert storage.store == filteredStore;
      assert op == DecideRequest(request, clientId, OwnedBy(clientId), target, party, verdict);
      assert WellFormed(old(State()), op) && (outcome, State()) == Perform(old(State()), op);
    }
  }
}
