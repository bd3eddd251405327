/** What the policy endpoint accepts and shows, in terms of the quads of bodies and of the store. */
module PolicyMeaning {
  import opened Rdf
  import opened PolicyView

  // ----- what a client sees -----

  /** The client assigns this permission of the policy, which has the uid, a type and a target. */
  predicate Owns(store: set<Quad>, uid: Term, client: Term, policy: Term, permission: Term) {
    && Quad(policy, Uid, uid) in store && Quad(policy, HasPermission, permission) in store
    && (Quad(policy, RdfType, Known(Agreement)) in store || Quad(policy, RdfType, Known(PolicySet)) in store)
    && Quad(permission, Assigner, client) in store && exists q | q in store :: q.s == permission && q.p == Target
  }

  /** What is shown along with a policy and a permission: the terms themselves, their constraints, and the policies they
      are permissions of. */
  predicate IsNear(store: set<Quad>, x: Term, policy: Term, permission: Term) {
    || x == policy || x == permission
    || Quad(policy, HasConstraint, x) in store || Quad(permission, HasConstraint, x) in store
    || Quad(x, HasPermission, policy) in store || Quad(x, HasPermission, permission) in store
  }

  /** A quad is shown to a client under a uid exactly when its subject is near a permission that the client assigns. */
  lemma ViewIff(store: set<Quad>, uid: Term, client: Term, q: Quad)
    ensures q in GetPolicy(store, uid, client) <==>
      q in store && exists link | link in store && link.p == HasPermission ::
        Owns(store, uid, client, link.s, link.o) && IsNear(store, q.s, link.s, link.o)
  {
    forall policy, permission
      ensures IsRow(store, Some(uid), client, policy, permission) <==> Owns(store, uid, client, policy, permission)
      ensures q in RowQuads(store, Some(uid), policy, permission) <==>
        q in store && IsNear(store, q.s, policy, permission) {}
    hide IsRow, RowQuads, Owns, IsNear;
  }

  lemma OwnedIsShown(store: set<Quad>, uid: Term, client: Term, policy: Term, permission: Term)
    requires Owns(store, uid, client, policy, permission)
    ensures QuadsOf(store, policy) + QuadsOf(store, permission) <= GetPolicy(store, uid, client)
  {
    var link := Quad(policy, HasPermission, permission);
    hide GetPolicy;
    forall q | q in store && (q.s == policy || q.s == permission) ensures q in GetPolicy(store, uid, client) {
      ViewIff(store, uid, client, q);
      assert link in store && IsNear(store, q.s, link.s, link.o);
    }
  }

  // ----- what a client may write -----

  /** A policy of the body, with a permission of the client that says what may be done to what; an agreement also has
      to say who may do it. */
  predicate IsComplete(body: set<Quad>, client: Term, policy: Term, permission: Term) {
    && Quad(policy, Uid, policy) in body && Quad(policy, HasPermission, permission) in body
    && (Quad(policy, RdfType, Known(PolicySet)) in body
        || (Quad(policy, RdfType, Known(Agreement)) in body
            && exists q | q in body :: q.s == permission && q.p == Assignee))
    && Quad(permission, RdfType, Known(PermissionClass)) in body && Quad(permission, Assigner, client) in body
    && (exists q | q in body :: q.s == permission && q.p == Target)
    && (exists q | q in body :: q.s == permission && q.p == Action)
  }

  predicate Assigns(body: set<Quad>, client: Term) {
    exists q | q in body :: q.p == Assigner && q.o == client
  }

  predicate HasPolicy(body: set<Quad>, client: Term) {
    exists link | link in body && link.p == HasPermission :: IsComplete(body, client, link.s, link.o)
  }

  predicate IsKnown(store: set<Quad>, body: set<Quad>) {
    exists q, other | q in body && other in store :: q.s == other.s
  }

  lemma CheckIff(body: set<Quad>, client: Term)
    ensures CheckPolicy(body, client) == if !Assigns(body, client) then NotAssigner
                                         else if HasPolicy(body, client) then Success else NoPolicy
  {
    forall policy, permission
      ensures IsPosted(body, client, policy, permission) <==> IsComplete(body, client, policy, permission) {}
    hide IsPosted, IsComplete;
    if q :| q in body && q.p == Assigner && q.o == client { assert q.s in SubjectsOf(body, Assigner, client); }
  }

  lemma ClashesIff(store: set<Quad>, body: set<Quad>)
    ensures Clashes(store, body) <==> IsKnown(store, body)
  {
    if Clashes(store, body) {
      var q :| q in body && QuadsOf(store, q.s) != {};
      var other :| other in QuadsOf(store, q.s);
      assert other in store && q.s == other.s;
    }
    if IsKnown(store, body) {
      var q, other :| q in body && other in store && q.s == other.s;
      assert other in QuadsOf(store, q.s);
    }
  }

  /** A body is refused by whom assigns nothing in it (403), without a complete policy, and, for a POST, when one of its
      subjects is known (409); an update is refused when there is nothing to update, which means that the client assigns
      nothing under the uid. */
  lemma RepliesAre(store: set<Quad>, uid: Term, body: set<Quad>, client: Term)
    ensures PostPolicy(store, body, client).0 ==
      if !Assigns(body, client) then NotAssigner else if !HasPolicy(body, client) then NoPolicy
      else if IsKnown(store, body) then Clash else Success
    ensures PutPolicy(store, uid, body, client).0 ==
      if !Assigns(body, client) then NotAssigner else if !HasPolicy(body, client) then NoPolicy else Success
    ensures PatchPolicy(store, uid, body, client).0 ==
      if exists link | link in store && link.p == HasPermission :: Owns(store, uid, client, link.s, link.o)
      then Success else NotAssigner
  {
    CheckIff(body, client);
    ClashesIff(store, body);
    PatchedIff(store, uid, client);
    hide Assigns, HasPolicy, IsKnown, Owns, CheckPolicy, Clashes, GetPolicy;
  }

  lemma PatchedIff(store: set<Quad>, uid: Term, client: Term)
    ensures SubjectsOf(GetPolicy(store, uid, client), Assigner, client) != {} <==>
      exists link | link in store && link.p == HasPermission :: Owns(store, uid, client, link.s, link.o)
  {
    var view := GetPolicy(store, uid, client);
    hide GetPolicy;
    if link :| link in store && link.p == HasPermission && Owns(store, uid, client, link.s, link.o) {
      OwnedIsShown(store, uid, client, link.s, link.o);
      assert Quad(link.o, Assigner, client) in view;
      assert link.o in SubjectsOf(view, Assigner, client);
    }
    if x :| x in SubjectsOf(view, Assigner, client) {
      assert Quad(x, Assigner, client) in view;
      ViewIff(store, uid, client, Quad(x, Assigner, client));
    }
  }

  /** The quad is what the client sees under the uid. */
  ghost predicate IsShown(store: set<Quad>, uid: Term, client: Term, q: Quad) {
    q in store && exists link | link in store && link.p == HasPermission ::
      Owns(store, uid, client, link.s, link.o) && IsNear(store, q.s, link.s, link.o)
  }

  lemma ShownIff(store: set<Quad>, uid: Term, client: Term, q: Quad)
    ensures IsShown(store, uid, client, q) <==> q in GetPolicy(store, uid, client)
  {
    hide GetPolicy, Owns, IsNear;
    ViewIff(store, uid, client, q);
  }

  /** What the store says after each accepted request: a POST adds the body, a DELETE takes away what the client sees, a
      PUT does both, and a PATCH puts what the client sees of the patched policy in place of what the client saw. */
  lemma WritesAre(store: set<Quad>, uid: Term, body: set<Quad>, client: Term, q: Quad)
    ensures PostPolicy(store, body, client).0 == Success ==>
      (q in PostPolicy(store, body, client).1 <==> q in store || q in body)
    ensures q in DeletePolicy(store, uid, client).1 <==> q in store && !IsShown(store, uid, client, q)
    ensures PutPolicy(store, uid, body, client).0 == Success ==>
      (q in PutPolicy(store, uid, body, client).1 <==> q in body || (q in store && !IsShown(store, uid, client, q)))
    ensures PatchPolicy(store, uid, body, client).0 == Success ==>
      (q in PatchPolicy(store, uid, body, client).1 <==>
         IsShown(body, uid, client, q) || (q in store && !IsShown(store, uid, client, q)))
    ensures PostPolicy(store, body, client).0 != Success ==> PostPolicy(store, body, client).1 == store
    ensures PutPolicy(store, uid, body, client).0 != Success ==> PutPolicy(store, uid, body, client).1 == store
    ensures PatchPolicy(store, uid, body, client).0 != Success ==> PatchPolicy(store, uid, body, client).1 == store
  {
    hide IsShown, GetPolicy, CheckPolicy, Clashes, SubjectsOf;
    ShownIff(store, uid, client, q);
    ShownIff(body, uid, client, q);
  }

  /** Whoever assigns nothing under a uid can neither change nor delete anything by it. */
  lemma StrangersChangeNothing(store: set<Quad>, uid: Term, patched: set<Quad>, client: Term)
    requires forall policy, permission :: !Owns(store, uid, client, policy, permission)
    ensures PatchPolicy(store, uid, patched, client) == (NotAssigner, store)
    ensures DeletePolicy(store, uid, client) == (Success, store)
  {
    RepliesAre(store, uid, patched, client);
    hide GetPolicy, Owns;
    forall q ensures q !in GetPolicy(store, uid, client) { ViewIff(store, uid, client, q); }
    assert GetPolicy(store, uid, client) == {} && store - {} == store;
  }

  /** What was posted or put can be read back: the client finds the policy, under its own IRI, with all that the store
      says about it and its permission. */
  lemma WrittenIsFound(store: set<Quad>, uid: Term, body: set<Quad>, client: Term)
    returns (policy: Term, permission: Term)
    requires CheckPolicy(body, client) == Success
    ensures IsComplete(body, client, policy, permission)
    ensures var posted := PostPolicy(store, body, client);
      posted.0 == Success ==> QuadsOf(posted.1, policy) + QuadsOf(posted.1, permission)
                              <= GetPolicy(posted.1, policy, client)
    ensures var put := PutPolicy(store, uid, body, client);
      QuadsOf(put.1, policy) + QuadsOf(put.1, permission) <= GetPolicy(put.1, policy, client)
  {
    policy, permission := CompletePolicy(body, client);
    BodyIsStored(store, uid, body, client);
    hide GetPolicy, IsComplete, CheckPolicy, PostPolicy, PutPolicy, QuadsOf;
    CompleteIsFound(body, PutPolicy(store, uid, body, client).1, client, policy, permission);
    var posted := PostPolicy(store, body, client);
    if posted.0 == Success { CompleteIsFound(body, posted.1, client, policy, permission); }
  }

  lemma CompletePolicy(body: set<Quad>, client: Term) returns (policy: Term, permission: Term)
    requires CheckPolicy(body, client) == Success
    ensures IsComplete(body, client, policy, permission)
  {
    CheckIff(body, client);
    hide IsComplete, CheckPolicy;
    var link :| link in body && link.p == HasPermission && IsComplete(body, client, link.s, link.o);
    policy, permission := link.s, link.o;
  }

  lemma BodyIsStored(store: set<Quad>, uid: Term, body: set<Quad>, client: Term)
    requires CheckPolicy(body, client) == Success
    ensures body <= PutPolicy(store, uid, body, client).1
    ensures PostPolicy(store, body, client).0 == Success ==> body <= PostPolicy(store, body, client).1
  {
    hide CheckPolicy, Clashes, GetPolicy;
  }

  lemma CompleteIsFound(body: set<Quad>, store: set<Quad>, client: Term, policy: Term, permission: Term)
    requires IsComplete(body, client, policy, permission) && body <= store
    ensures QuadsOf(store, policy) + QuadsOf(store, permission) <= GetPolicy(store, policy, client)
  {
    CompleteIsOwned(body, store, client, policy, permission);
    OwnedIsShown(store, policy, client, policy, permission);
    hide GetPolicy, Owns, IsComplete;
  }

  lemma CompleteIsOwned(body: set<Quad>, store: set<Quad>, client: Term, policy: Term, permission: Term)
    requires IsComplete(body, client, policy, permission) && body <= store
    ensures Owns(store, policy, client, policy, permission)
  {}

  // ----- all policies -----

  /** The client assigns this permission of the policy, under whatever uid. */
  predicate OwnsSome(store: set<Quad>, client: Term, policy: Term, permission: Term) {
    && Quad(policy, HasPermission, permission) in store
    && (Quad(policy, RdfType, Known(Agreement)) in store || Quad(policy, RdfType, Known(PolicySet)) in store)
    && Quad(permission, Assigner, client) in store && exists q | q in store :: q.s == permission && q.p == Target
  }

  /** All policies of a client: what is said about the permissions that the client assigns, about their constraints and
      about the policies they belong to. */
  lemma AllPoliciesIff(store: set<Quad>, client: Term, q: Quad)
    ensures q in View(store, None, client) <==>
      q in store && exists link | link in store && link.p == HasPermission ::
        && OwnsSome(store, client, link.s, link.o)
        && (q.s == link.o || Quad(link.o, HasConstraint, q.s) in store || Quad(q.s, HasPermission, link.o) in store)
  {
    forall policy, permission
      ensures IsRow(store, None, client, policy, permission) <==> OwnsSome(store, client, policy, permission)
      ensures q in RowQuads(store, None, policy, permission) <==>
        q in store && (q.s == permission || Quad(permission, HasConstraint, q.s) in store
                       || Quad(q.s, HasPermission, permission) in store) {}
    hide IsRow, RowQuads, OwnsSome;
  }
}
