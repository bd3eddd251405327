/** What a request to the policy endpoint does to access requests: exactly when it keeps them, and what was decided. */
module PolicyWrites {
  import opened Rdf
  import opened PolicyView
  import Requests = AccessRequests

  // ----- a request as a write -----

  datatype PolicyRequest =
    | PostPolicies(body: set<Quad>, client: Term)
    | PutPolicies(uid: Term, body: set<Quad>, client: Term)
    | PatchPolicies(uid: Term, patched: set<Quad>, client: Term)
    | DeletePolicies(uid: Term, client: Term)

  function ServePolicy(quads: set<Quad>, r: PolicyRequest): (Reply, set<Quad>) {
    match r
    case PostPolicies(body, client) => PostPolicy(quads, body, client)
    case PutPolicies(uid, body, client) => PutPolicy(quads, uid, body, client)
    case PatchPolicies(uid, patched, client) => PatchPolicy(quads, uid, patched, client)
    case DeletePolicies(uid, client) => DeletePolicy(quads, uid, client)
  }

  /** The subjects about which everything is removed. */
  function Dropped(quads: set<Quad>, r: PolicyRequest): set<Term> {
    if ServePolicy(quads, r).0 != Success || r.PostPolicies? then {}
    else SubjectsIn(GetPolicy(quads, r.uid, r.client))
  }

  /** What is added after that. */
  function Inserted(quads: set<Quad>, r: PolicyRequest): set<Quad> {
    if ServePolicy(quads, r).0 != Success || r.DeletePolicies? then {}
    else if r.PatchPolicies? then GetPolicy(r.patched, r.uid, r.client) else r.body
  }

  lemma NothingOverwritten(quads: set<Quad>, body: set<Quad>)
    ensures Overwritten(quads, {}, body) == quads + body && Overwritten(quads, {}, {}) == quads
  {}

  lemma OverwrittenIsRemovedAndAdded(quads: set<Quad>, removed: set<Term>, body: set<Quad>)
    ensures Overwritten(quads, removed, body) == Overwritten(quads, removed, {}) + body
  {}

  /** Every request to the endpoint removes all that is said about some subjects, and adds a body. */
  lemma PolicyRequestIsWrite(quads: set<Quad>, r: PolicyRequest)
    ensures ServePolicy(quads, r).1 == Overwritten(quads, Dropped(quads, r), Inserted(quads, r))
  {
    hide GetPolicy, Overwritten, CheckPolicy, Clashes, SubjectsOf, SubjectsIn;
    NothingOverwritten(quads, Inserted(quads, r));
    OverwrittenIsRemovedAndAdded(quads, Dropped(quads, r), Inserted(quads, r));
    if !r.PostPolicies? { GetIsAboutSubjects(quads, r.uid, r.client); }
  }

  lemma GetIsAboutSubjects(quads: set<Quad>, uid: Term, client: Term)
    ensures quads - GetPolicy(quads, uid, client) == Overwritten(quads, SubjectsIn(GetPolicy(quads, uid, client)), {})
  {
    hide View;
    ViewIsAboutSubjects(quads, Some(uid), client);
  }

  // ----- bodies without names that the server gave out -----

  /** No subject of the body is a name that the server gave out. */
  predicate Plain(body: set<Quad>) {
    forall q | q in body :: Requests.Serial(q.s).None?
  }

  /** No generated policy, no permission of one, and no accepted request is among the terms. */
  predicate NoRecords(s: Requests.Store, terms: set<Term>) {
    forall g | g in s.granted :: g !in terms && PermissionOf(g) !in terms && s.granted[g] !in terms
  }

  /** What the invariant says about one generated policy and its request. */
  lemma RecordIs(s: Requests.Store, g: Term)
    requires Requests.Inv(s) && g in s.granted
    ensures g.Minted? && g in Requests.Agreements(s.quads) && s.granted[g] in Requests.Typed(s.quads, EvaluationRequest)
    ensures Requests.RequestOk(s.quads, s.granted[g]) && Requests.Mirrors(s.quads, g, s.granted[g])
  {
    hide Requests.Mirrors, Requests.RequestOk, Requests.Dated, Requests.Attributed, Requests.Agreements,
         Requests.Typed, Requests.WithStatus;
    InvAttributed(s);
    Requests.AcceptedIsTyped(s.quads);
    assert s.granted[g] in s.granted.Values;
  }

  lemma InvAttributed(s: Requests.Store)
    requires Requests.Inv(s)
    ensures Requests.Attributed(s.quads)
  {}

  lemma RecordsHaveTarget(quads: set<Quad>, g: Term, r: Term)
    requires Requests.RequestOk(quads, r) && Requests.Mirrors(quads, g, r)
    ensures r.Minted? && ObjectsOf(quads, r, RequestedTarget) != {}
    ensures ObjectsOf(quads, PermissionOf(g), Target) == ObjectsOf(quads, r, RequestedTarget)
  {
    hide ObjectsOf;
  }

  lemma HasSubject(quads: set<Quad>, x: Term, p: Predicate)
    requires ObjectsOf(quads, x, p) != {}
    ensures x in SubjectsIn(quads)
  {
    var o :| o in ObjectsOf(quads, x, p);
    assert Quad(x, p, o) in quads;
  }

  lemma AgreementHasSubject(quads: set<Quad>, g: Term)
    requires g in Requests.Agreements(quads)
    ensures g in SubjectsIn(quads)
  {
    assert Quad(g, RdfType, Known(Agreement)) in quads;
  }

  /** Whatever belongs to a record is a name that the server gave out, about which the store says something. */
  lemma RecordsHaveSerials(s: Requests.Store, g: Term)
    requires Requests.Inv(s) && g in s.granted
    ensures g.Minted? && s.granted[g].Minted?
    ensures g in SubjectsIn(s.quads) && PermissionOf(g) in SubjectsIn(s.quads) && s.granted[g] in SubjectsIn(s.quads)
  {
    hide Requests.Inv, Requests.Mirrors, Requests.RequestOk, Requests.Agreements, SubjectsIn, ObjectsOf;
    RecordIs(s, g);
    RecordsHaveTarget(s.quads, g, s.granted[g]);
    AgreementHasSubject(s.quads, g);
    HasSubject(s.quads, s.granted[g], RequestedTarget);
    HasSubject(s.quads, PermissionOf(g), Target);
  }

  lemma PlainTouches(s: Requests.Store, removed: set<Term>, body: set<Quad>, x: Term)
    requires Plain(body) && Requests.Serial(x).Some?
    ensures Requests.Touches(removed, body, x) <==> x in removed
  {}

  lemma RemovedSaysNothing(quads: set<Quad>, removed: set<Term>, body: set<Quad>, x: Term, p: Predicate)
    requires Plain(body) && Requests.Serial(x).Some?
    ensures ObjectsOf(Overwritten(quads, removed, body), x, p) == if x in removed then {} else ObjectsOf(quads, x, p)
  {
    hide ObjectsOf, Overwritten;
    Requests.OverwrittenObjects(quads, removed, body, x, p);
  }

  lemma AnswersSpeak(s: Requests.Store, quads: set<Quad>, g: Term)
    requires g in s.granted && Requests.Answers(s, quads, g)
    ensures ObjectsOf(quads, g, RdfType) != {} && ObjectsOf(quads, s.granted[g], RequestStatus) != {}
    ensures ObjectsOf(quads, PermissionOf(g), Target) == ObjectsOf(quads, s.granted[g], RequestedTarget)
  {
    assert Known(Agreement) in ObjectsOf(quads, g, RdfType);
    assert Known(Accepted) in ObjectsOf(quads, s.granted[g], RequestStatus);
    hide ObjectsOf;
  }

  lemma PlainAnswers(s: Requests.Store, removed: set<Term>, body: set<Quad>, g: Term)
    requires Requests.Inv(s) && Plain(body) && g in s.granted
    requires g in removed || PermissionOf(g) in removed || s.granted[g] in removed
    ensures !Requests.Answers(s, Overwritten(s.quads, removed, body), g)
  {
    hide Requests.Inv, Requests.Mirrors, Requests.RequestOk, Requests.Answers, ObjectsOf, Overwritten, Plain;
    var after, r := Overwritten(s.quads, removed, body), s.granted[g];
    RecordsHaveSerials(s, g);
    RecordIs(s, g);
    RecordsHaveTarget(s.quads, g, r);
    RemovedSaysNothing(s.quads, removed, body, g, RdfType);
    RemovedSaysNothing(s.quads, removed, body, PermissionOf(g), Target);
    RemovedSaysNothing(s.quads, removed, body, r, RequestStatus);
    RemovedSaysNothing(s.quads, removed, body, r, RequestedTarget);
    if Requests.Answers(s, after, g) { AnswersSpeak(s, after, g); }
  }

  /** Removing what is said about some terms, and adding a body without names that the server gave out, keeps the
      invariant of access requests exactly when the body does not use the vocabulary of requests and none of the terms
      is a generated policy, its permission or an accepted request. */
  lemma PlainWriteKeepsInvIff(s: Requests.Store, removed: set<Term>, body: set<Quad>)
    requires Requests.Inv(s) && Plain(body)
    ensures Requests.Inv(s.(quads := Overwritten(s.quads, removed, body)))
       <==> NoRecords(s, removed) && forall q | q in body :: !Requests.OfRequest(q)
  {
    hide Requests.Inv, Requests.Touches, Requests.Answers, Requests.Typed, Overwritten;
    Requests.WriteKeepsInvIff(s, removed, body);
    forall q | q in body ensures !(Requests.RequestOk(Overwritten(s.quads, removed, body), q.s)) {}
    hide Requests.RequestOk;
    forall q | q in body && q.p == RequestStatus ensures Requests.OfRequest(q) {}
    forall g | g in s.granted
      ensures Requests.Touches(removed, body, g) <==> g in removed
      ensures Requests.Touches(removed, body, PermissionOf(g)) <==> PermissionOf(g) in removed
      ensures Requests.Touches(removed, body, s.granted[g]) <==> s.granted[g] in removed
      ensures (g in removed || PermissionOf(g) in removed || s.granted[g] in removed)
              ==> !Requests.Answers(s, Overwritten(s.quads, removed, body), g)
    {
      RecordsHaveSerials(s, g);
      PlainTouches(s, removed, body, g);
      PlainTouches(s, removed, body, PermissionOf(g));
      PlainTouches(s, removed, body, s.granted[g]);
      if g in removed || PermissionOf(g) in removed || s.granted[g] in removed { PlainAnswers(s, removed, body, g); }
    }
  }

  // ----- each kind of request -----

  /** Any request to the policy endpoint keeps the invariant of access requests exactly when its write is sound. */
  lemma RequestKeepsInvIff(s: Requests.Store, r: PolicyRequest)
    requires Requests.Inv(s)
    ensures Requests.Inv(s.(quads := ServePolicy(s.quads, r).1))
       <==> Requests.SoundWrite(s, Dropped(s.quads, r), Inserted(s.quads, r))
  {
    hide Requests.Inv, Requests.SoundWrite, ServePolicy, Dropped, Inserted;
    PolicyRequestIsWrite(s.quads, r);
    Requests.WriteKeepsInvIff(s, Dropped(s.quads, r), Inserted(s.quads, r));
  }

  /** Whoever deletes, and by whatever uid: the invariant is kept exactly when what is deleted is neither a generated
      policy, nor the permission of one, nor an accepted request. */
  lemma DeleteKeepsInvIff(s: Requests.Store, uid: Term, client: Term)
    requires Requests.Inv(s)
    ensures Requests.Inv(s.(quads := DeletePolicy(s.quads, uid, client).1))
       <==> NoRecords(s, SubjectsIn(GetPolicy(s.quads, uid, client)))
  {
    hide Requests.Inv, GetPolicy, Overwritten, NoRecords;
    GetIsAboutSubjects(s.quads, uid, client);
    PlainWriteKeepsInvIff(s, SubjectsIn(GetPolicy(s.quads, uid, client)), {});
  }

  /** The requests in the body are complete and not accepted, and it has no agreement with a name that the server
      gave out. */
  ghost predicate OnlyOpenRequests(s: Requests.Store, body: set<Quad>) {
    && (forall q | q in body && Requests.Serial(q.s).Some? :: Requests.IsOld(q.s, s.serial))
    && Requests.Attributed(body)
    && (forall r | r in Requests.Typed(body, EvaluationRequest) :: Requests.RequestOk(body, r))
    && Requests.WithStatus(body, Accepted) == {} && Requests.Agreements(body) == {}
  }

  lemma NewSubjects(quads: set<Quad>, body: set<Quad>, x: Term, p: Predicate)
    requires !Clashes(quads, body) && x in SubjectsIn(body)
    ensures ObjectsOf(quads + body, x, p) == ObjectsOf(body, x, p)
  {
    var q :| q in body && q.s == x;
    assert QuadsOf(quads, x) == {};
    forall other | other in quads ensures other.s != x { assert other !in QuadsOf(quads, x); }
  }

  lemma NewAreNotRecords(s: Requests.Store, body: set<Quad>, g: Term)
    requires Requests.Inv(s) && !Clashes(s.quads, body) && g in s.granted
    ensures g !in SubjectsIn(body) && PermissionOf(g) !in SubjectsIn(body) && s.granted[g] !in SubjectsIn(body)
  {
    hide Requests.Inv;
    RecordsHaveSerials(s, g);
    forall q | q in s.quads ensures q.s !in SubjectsIn(body) {
      assert q in QuadsOf(s.quads, q.s);
    }
  }

  lemma TypedIff(quads: set<Quad>, x: Term)
    ensures x in Requests.Typed(quads, EvaluationRequest) <==> Known(EvaluationRequest) in ObjectsOf(quads, x, RdfType)
  {
    assert x in Requests.Typed(quads, EvaluationRequest) <==> Quad(x, RdfType, Known(EvaluationRequest)) in quads;
  }

  lemma TypedByBody(quads: set<Quad>, body: set<Quad>, x: Term)
    requires !Clashes(quads, body) && x in SubjectsIn(body)
    ensures x in Requests.Typed(quads + body, EvaluationRequest) <==> x in Requests.Typed(body, EvaluationRequest)
    ensures Requests.RequestOk(quads + body, x) <==> Requests.RequestOk(body, x)
  {
    TypedIff(quads + body, x);
    TypedIff(body, x);
    forall p ensures ObjectsOf(quads + body, x, p) == ObjectsOf(body, x, p) { NewSubjects(quads, body, x, p); }
    hide ObjectsOf, Requests.Typed;
  }

  lemma NewBodyIsSoundIff(s: Requests.Store, body: set<Quad>)
    requires Requests.Inv(s) && !Clashes(s.quads, body)
    ensures Requests.SoundWrite(s, {}, body) <==> OnlyOpenRequests(s, body)
  {
    NothingOverwritten(s.quads, body);
    NoRecordsInBody(s, body);
    hide Requests.Inv, Overwritten, Requests.RequestOk, Requests.Answers, Requests.Typed, Clashes, Requests.Agreements;
    var after := s.quads + body;
    forall q | q in body
      ensures q.s in Requests.Typed(after, EvaluationRequest) <==> q.s in Requests.Typed(body, EvaluationRequest)
      ensures Requests.RequestOk(after, q.s) <==> Requests.RequestOk(body, q.s)
    {
      TypedByBody(s.quads, body, q.s);
    }
    RequestsOfBody(body);
  }

  /** What a new body speaks of is no record, so it may neither accept a request nor be an agreement of the server. */
  lemma NoRecordsInBody(s: Requests.Store, body: set<Quad>)
    requires Requests.Inv(s) && !Clashes(s.quads, body)
    ensures forall q | q in body :: q.s !in s.granted && q.s !in s.granted.Values
    ensures forall g | g in s.granted :: !Requests.Touches({}, body, g) && !Requests.Touches({}, body, PermissionOf(g))
                                      && !Requests.Touches({}, body, s.granted[g])
  {
    hide Requests.Inv, Clashes;
    forall g | g in s.granted
      ensures !Requests.Touches({}, body, g) && !Requests.Touches({}, body, PermissionOf(g))
           && !Requests.Touches({}, body, s.granted[g])
      ensures forall q | q in body :: q.s != g && q.s != s.granted[g]
    {
      NewAreNotRecords(s, body, g);
      forall q | q in body ensures q.s in SubjectsIn(body) {}
    }
  }

  lemma RequestsOfBody(body: set<Quad>)
    ensures Requests.WithStatus(body, Accepted) == {} <==>
      forall q | q in body && q.p == RequestStatus :: q.o != Known(Accepted)
    ensures Requests.Agreements(body) == {} <==>
      forall q | q in body && q.p == RdfType && q.o == Known(Agreement) :: Requests.Serial(q.s).None?
    ensures forall r | r in Requests.Typed(body, EvaluationRequest) ::
      Quad(r, RdfType, Known(EvaluationRequest)) in body
    ensures forall q | q in body && q.p == RdfType && q.o == Known(EvaluationRequest) ::
      q.s in Requests.Typed(body, EvaluationRequest)
  {
    forall q | q in body && q.p == RequestStatus && q.o == Known(Accepted)
      ensures q.s in Requests.WithStatus(body, Accepted) {}
    forall q | q in body && q.p == RdfType && q.o == Known(Agreement) && Requests.Serial(q.s).Some?
      ensures q.s in Requests.Agreements(body) {}
  }

  /** An accepted POST keeps the invariant exactly when the requests in its body are complete and open or denied. */
  lemma PostKeepsInvIff(s: Requests.Store, body: set<Quad>, client: Term)
    requires Requests.Inv(s) && PostPolicy(s.quads, body, client).0 == Success
    ensures Requests.Inv(s.(quads := PostPolicy(s.quads, body, client).1)) <==> OnlyOpenRequests(s, body)
  {
    hide Requests.Inv, Requests.SoundWrite, OnlyOpenRequests, CheckPolicy, Clashes, Overwritten;
    NothingOverwritten(s.quads, body);
    NewBodyIsSoundIff(s, body);
    Requests.WriteKeepsInvIff(s, {}, body);
  }

  // ----- what was said before -----

  /** Any request to the policy endpoint keeps what is said about a property of a term exactly when it restates it. */
  lemma RequestKeepsSayingIff(quads: set<Quad>, r: PolicyRequest, x: Term, p: Predicate)
    ensures ObjectsOf(ServePolicy(quads, r).1, x, p) == ObjectsOf(quads, x, p)
       <==> Requests.Restates(quads, Dropped(quads, r), Inserted(quads, r), x, p)
  {
    hide ServePolicy, Dropped, Inserted, ObjectsOf, Requests.Restates, Overwritten;
    PolicyRequestIsWrite(quads, r);
    Requests.RestatesIff(quads, Dropped(quads, r), Inserted(quads, r), x, p);
  }

  /** A DELETE keeps the status of a request, decided or not, exactly when it does not extract anything about it. */
  lemma DeleteKeepsStatusIff(s: Requests.Store, uid: Term, client: Term, r: Term)
    requires Requests.Inv(s) && r in Requests.Typed(s.quads, EvaluationRequest)
    ensures ObjectsOf(DeletePolicy(s.quads, uid, client).1, r, RequestStatus) == ObjectsOf(s.quads, r, RequestStatus)
       <==> r !in SubjectsIn(GetPolicy(s.quads, uid, client))
  {
    hide Requests.Inv, GetPolicy, Overwritten, ObjectsOf;
    Requests.StatusIsTyped(s, r);
    GetIsAboutSubjects(s.quads, uid, client);
    var removed := SubjectsIn(GetPolicy(s.quads, uid, client));
    Requests.RestatesIff(s.quads, removed, {}, r, RequestStatus);
    if r in removed { var o :| o in ObjectsOf(s.quads, r, RequestStatus); }
  }
}
