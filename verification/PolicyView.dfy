/** The part of the policy store that one owner sees as a policy, and the requests that act on it. */
module PolicyView {
  import opened Rdf
  import opened RulesStorage

  // ----- the view -----

  /** A row of the query for one policy, or for all policies when no id is given. */
  predicate IsRow(store: set<Quad>, uid: Option<Term>, owner: Term, policy: Term, permission: Term) {
    && (uid.Some? ==> Quad(policy, Uid, uid.value) in store)
    && Quad(policy, HasPermission, permission) in store
    && Quad(permission, Assigner, owner) in store
    && (exists q | q in store :: q.s == permission && q.p == Target)
    && (Quad(policy, RdfType, Known(Agreement)) in store || Quad(policy, RdfType, Known(PolicySet)) in store)
  }

  /** The quads of a term, of its constraints, and of the policies that have it as a permission. */
  function PermissionQuads(store: set<Quad>, term: Term): set<Quad> {
    set q | q in store &&
      (q.s == term || Quad(q.s, HasPermission, term) in store || Quad(term, HasConstraint, q.s) in store)
  }

  function RowQuads(store: set<Quad>, uid: Option<Term>, policy: Term, permission: Term): set<Quad> {
    (if uid.Some? then PermissionQuads(store, policy) else {}) + PermissionQuads(store, permission)
  }

  function View(store: set<Quad>, uid: Option<Term>, owner: Term): set<Quad> {
    set link, q | link in store && link.p == HasPermission && IsRow(store, uid, owner, link.s, link.o)
               && q in RowQuads(store, uid, link.s, link.o) :: q
  }

  function GetPolicy(store: set<Quad>, uid: Term, owner: Term): set<Quad> {
    View(store, Some(uid), owner)
  }

  // ----- the view is a projection -----

  lemma PermissionQuadsMonotone(store: set<Quad>, more: set<Quad>, term: Term)
    requires store <= more
    ensures PermissionQuads(store, term) <= PermissionQuads(more, term) && PermissionQuads(store, term) <= store
  {}

  lemma RowMonotone(store: set<Quad>, more: set<Quad>, uid: Option<Term>, owner: Term, policy: Term, permission: Term)
    requires store <= more && IsRow(store, uid, owner, policy, permission)
    ensures IsRow(more, uid, owner, policy, permission)
    ensures RowQuads(store, uid, policy, permission) <= RowQuads(more, uid, policy, permission)
    ensures RowQuads(store, uid, policy, permission) <= store
  {
    PermissionQuadsMonotone(store, more, policy);
    PermissionQuadsMonotone(store, more, permission);
  }

  lemma RowIsViewed(store: set<Quad>, uid: Option<Term>, owner: Term, policy: Term, permission: Term)
    requires IsRow(store, uid, owner, policy, permission)
    ensures RowQuads(store, uid, policy, permission) <= View(store, uid, owner)
  {
    var link := Quad(policy, HasPermission, permission);
    assert link in store && link.s == policy && link.o == permission;
    hide IsRow, RowQuads;
  }

  lemma RowOf(store: set<Quad>, uid: Option<Term>, owner: Term, q: Quad) returns (policy: Term, permission: Term)
    requires q in View(store, uid, owner)
    ensures IsRow(store, uid, owner, policy, permission) && q in RowQuads(store, uid, policy, permission)
  {
    hide IsRow, RowQuads;
    var link :| link in store && link.p == HasPermission && IsRow(store, uid, owner, link.s, link.o)
             && q in RowQuads(store, uid, link.s, link.o);
    policy, permission := link.s, link.o;
  }

  lemma ViewIsContainedAndMonotone(store: set<Quad>, more: set<Quad>, uid: Option<Term>, owner: Term)
    requires store <= more
    ensures View(store, uid, owner) <= store
    ensures View(store, uid, owner) <= View(more, uid, owner)
  {
    hide IsRow, RowQuads, View;
    forall q | q in View(store, uid, owner) ensures q in store && q in View(more, uid, owner) {
      var policy, permission := RowOf(store, uid, owner, q);
      RowMonotone(store, more, uid, owner, policy, permission);
      RowIsViewed(more, uid, owner, policy, permission);
    }
  }

  /** Whatever keeps what a row extracts keeps the row, and its extract. */
  lemma RowSurvives(store: set<Quad>, view: set<Quad>, uid: Option<Term>, owner: Term, policy: Term, permission: Term)
    requires IsRow(store, uid, owner, policy, permission)
    requires view <= store && RowQuads(store, uid, policy, permission) <= view
    ensures IsRow(view, uid, owner, policy, permission)
    ensures RowQuads(view, uid, policy, permission) == RowQuads(store, uid, policy, permission)
  {
    var link := Quad(policy, HasPermission, permission);
    assert link in store && link.s == policy && PermissionQuads(store, permission) <= view;
    forall q | q in store && (q.s == policy || q.s == permission) ensures q in view {
      assert q in PermissionQuads(store, permission);
    }
    PermissionQuadsSurvive(store, view, permission);
    if uid.Some? { PermissionQuadsSurvive(store, view, policy); }
  }

  lemma PermissionQuadsSurvive(store: set<Quad>, view: set<Quad>, term: Term)
    requires view <= store && PermissionQuads(store, term) <= view
    ensures PermissionQuads(view, term) == PermissionQuads(store, term)
  {
    forall q | q in PermissionQuads(store, term) ensures q in PermissionQuads(view, term) {
      var link, constraint := Quad(q.s, HasPermission, term), Quad(term, HasConstraint, q.s);
      assert link in store ==> link in PermissionQuads(store, term);
      assert constraint in store ==> constraint in PermissionQuads(store, term);
    }
  }

  /** Extracting the view of a view changes nothing. */
  lemma ViewIsIdempotent(store: set<Quad>, uid: Option<Term>, owner: Term)
    ensures View(View(store, uid, owner), uid, owner) == View(store, uid, owner)
  {
    hide IsRow, RowQuads, View;
    var view := View(store, uid, owner);
    ViewIsContainedAndMonotone(store, store, uid, owner);
    ViewIsContainedAndMonotone(view, store, uid, owner);
    forall q | q in view ensures q in View(view, uid, owner) {
      var policy, permission := RowOf(store, uid, owner, q);
      RowIsViewed(store, uid, owner, policy, permission);
      RowSurvives(store, view, uid, owner, policy, permission);
      RowIsViewed(view, uid, owner, policy, permission);
    }
  }

  /** Once its view is removed from a store, nothing of it can be seen. */
  lemma NothingLeftToSee(store: set<Quad>, uid: Option<Term>, owner: Term)
    ensures View(store - View(store, uid, owner), uid, owner) == {}
  {
    hide View, RowQuads;
    var view := View(store, uid, owner);
    var rest := store - view;
    forall q | q in View(rest, uid, owner) ensures false {
      var policy, permission := RowOf(rest, uid, owner, q);
      RowMonotone(rest, store, uid, owner, policy, permission);
      RowIsViewed(store, uid, owner, policy, permission);
      LinkIsViewed(rest, store, uid, owner, policy, permission);
    }
  }

  lemma LinkIsViewed(rest: set<Quad>, store: set<Quad>, uid: Option<Term>, owner: Term, policy: Term, permission: Term)
    requires IsRow(rest, uid, owner, policy, permission) && rest <= store
    ensures exists q | q in rest :: q in RowQuads(store, uid, policy, permission)
  {
    assert Quad(policy, HasPermission, permission) in PermissionQuads(store, permission);
  }

  /** Someone who assigns no permission of a policy sees nothing of it. */
  lemma StrangersSeeNothing(store: set<Quad>, uid: Term, owner: Term)
    requires forall policy, permission |
      Quad(policy, Uid, uid) in store && Quad(policy, HasPermission, permission) in store ::
        Quad(permission, Assigner, owner) !in store
    ensures GetPolicy(store, uid, owner) == {}
  {}

  lemma RowIsAboutSubjects(store: set<Quad>, uid: Option<Term>, policy: Term, permission: Term, q: Quad, other: Quad)
    requires q in RowQuads(store, uid, policy, permission) && other in store && other.s == q.s
    ensures other in RowQuads(store, uid, policy, permission)
  {}

  /** A view is everything that the store says about some subjects. */
  lemma ViewIsAboutSubjects(store: set<Quad>, uid: Option<Term>, owner: Term)
    ensures View(store, uid, owner) == set q | q in store && q.s in SubjectsIn(View(store, uid, owner))
    ensures store - View(store, uid, owner) == Overwritten(store, SubjectsIn(View(store, uid, owner)), {})
  {
    hide View, IsRow, RowQuads;
    var view := View(store, uid, owner);
    ViewIsContainedAndMonotone(store, store, uid, owner);
    forall other | other in store && other.s in SubjectsIn(view) ensures other in view {
      var q :| q in view && q.s == other.s;
      var policy, permission := RowOf(store, uid, owner, q);
      RowIsAboutSubjects(store, uid, policy, permission, q, other);
      RowIsViewed(store, uid, owner, policy, permission);
    }
  }

  // ----- requests, on values -----

  datatype Reply = Success | NotAssigner | NoPolicy | Clash

  /** A row of the query that a posted body has to answer. */
  predicate IsPosted(body: set<Quad>, client: Term, policy: Term, permission: Term) {
    && Quad(policy, HasPermission, permission) in body && Quad(policy, Uid, policy) in body
    && ((Quad(policy, RdfType, Known(Agreement)) in body
         && exists q | q in body :: q.s == permission && q.p == Assignee)
        || Quad(policy, RdfType, Known(PolicySet)) in body)
    && Quad(permission, RdfType, Known(PermissionClass)) in body
    && (exists q | q in body :: q.s == permission && q.p == Action)
    && (exists q | q in body :: q.s == permission && q.p == Target)
    && Quad(permission, Assigner, client) in body
  }

  /** One policy with a permission of the client is enough: the rest of the body is not looked at. */
  function CheckPolicy(body: set<Quad>, client: Term): Reply {
    if SubjectsOf(body, Assigner, client) == {} then NotAssigner
    else if !exists q | q in body && q.p == HasPermission :: IsPosted(body, client, q.s, q.o) then NoPolicy
    else Success
  }

  /** Some subject of the body is known already. */
  predicate Clashes(store: set<Quad>, body: set<Quad>) {
    exists q | q in body :: QuadsOf(store, q.s) != {}
  }

  function PostPolicy(store: set<Quad>, body: set<Quad>, client: Term): (Reply, set<Quad>) {
    if CheckPolicy(body, client) != Success then (CheckPolicy(body, client), store)
    else if Clashes(store, body) then (Clash, store)
    else (Success, store + body)
  }

  function DeletePolicy(store: set<Quad>, uid: Term, client: Term): (Reply, set<Quad>) {
    (Success, store - GetPolicy(store, uid, client))
  }

  /** What was there before is not looked at, and neither are the subjects of the body. */
  function PutPolicy(store: set<Quad>, uid: Term, body: set<Quad>, client: Term): (Reply, set<Quad>) {
    if CheckPolicy(body, client) != Success then (CheckPolicy(body, client), store)
    else (Success, (store - GetPolicy(store, uid, client)) + body)
  }

  /** `patched` is what the update makes of the view. */
  function PatchPolicy(store: set<Quad>, uid: Term, patched: set<Quad>, client: Term): (Reply, set<Quad>) {
    var view := GetPolicy(store, uid, client);
    if SubjectsOf(view, Assigner, client) == {} then (NotAssigner, store)
    else (Success, (store - view) + GetPolicy(patched, uid, client))
  }

  // ----- the extraction as it runs -----

  method PermissionToQuads(store: set<Quad>, permission: Term) returns (result: set<Quad>)
    ensures result == PermissionQuads(store, permission)
  {
    var policies := SubjectsOf(store, HasPermission, permission);
    result := QuadsOfAll(store, policies);
    result := result + QuadsOf(store, permission);
    var constraints := ObjectsOf(store, permission, HasConstraint);
    var deeper := QuadsOfAll(store, constraints);
    result := result + deeper;
    assert forall x :: x in policies <==> Quad(x, HasPermission, permission) in store;
    assert forall x :: x in constraints <==> Quad(permission, HasConstraint, x) in store;
  }

  method QuadsOfAll(store: set<Quad>, subjects: set<Term>) returns (result: set<Quad>)
    ensures result == set q | q in store && q.s in subjects
  {
    result := {};
    var todo := subjects;
    while todo != {}
      invariant todo <= subjects
      invariant result == set q | q in store && q.s in subjects - todo
    {
      var subject :| subject in todo;
      result := result + QuadsOf(store, subject);
      todo := todo - {subject};
    }
  }

  /** Collects the extracts of all rows of the query. */
  method ExecuteGet(store: set<Quad>, uid: Option<Term>, owner: Term) returns (result: set<Quad>)
    ensures result == View(store, uid, owner)
  {
    hide IsRow, PermissionQuads;
    var rows := set q | q in store && q.p == HasPermission && IsRow(store, uid, owner, q.s, q.o);
    result := {};
    var todo := rows;
    while todo != {}
      invariant todo <= rows
      invariant forall q :: q in result <==> exists row | row in rows - todo :: q in RowQuads(store, uid, row.s, row.o)
    {
      var row :| row in todo;
      if uid.Some? {
        var policyQuads := PermissionToQuads(store, row.s);
        result := result + policyQuads;
      }
      var permissionQuads := PermissionToQuads(store, row.o);
      result := result + permissionQuads;
      todo := todo - {row};
    }
  }

  // ----- requests -----

  /** The policy endpoint. `patch` is what the update of a request does to the store it runs on. */
  class PolicyController {
    const storage: MemoryUCRulesStorage

    constructor (storage: MemoryUCRulesStorage)
      ensures this.storage == storage
    {
      this.storage := storage;
    }

    /** One result per row of the query; without any the body is refused. */
    method ExecutePost(body: set<Quad>, clientId: Term) returns (reply: Reply)
      ensures reply == CheckPolicy(body, clientId)
    {
      hide IsPosted;
      if SubjectsOf(body, Assigner, clientId) == {} { return NotAssigner; }
      var results := 0;
      var todo := set q | q in body && q.p == HasPermission;
      while todo != {}
        invariant todo <= body && forall q | q in todo :: q.p == HasPermission
        invariant results == 0 ==> forall q | q in body && q.p == HasPermission && q !in todo ::
          !IsPosted(body, clientId, q.s, q.o)
        invariant results > 0 ==> exists q | q in body && q.p == HasPermission :: IsPosted(body, clientId, q.s, q.o)
      {
        var row :| row in todo;
        if IsPosted(body, clientId, row.s, row.o) { results := results + 1; }
        todo := todo - {row};
      }
      return if results == 0 then NoPolicy else Success;
    }

    method AlreadyDefined(body: set<Quad>) returns (defined: bool)
      ensures defined == Clashes(storage.store, body)
    {
      var todo := body;
      while todo != {}
        invariant todo <= body
        invariant forall q | q in body && q !in todo :: QuadsOf(storage.store, q.s) == {}
      {
        var q :| q in todo;
        if QuadsOf(storage.store, q.s) != {} { return true; }
        todo := todo - {q};
      }
      return false;
    }

    method AddEntity(body: set<Quad>, clientId: Term) returns (reply: Reply)
      modifies storage
      ensures (reply, storage.store) == PostPolicy(old(storage.store), body, clientId)
    {
      hide CheckPolicy, Clashes;
      reply := ExecutePost(body, clientId);
      if reply != Success { return; }
      var defined := AlreadyDefined(body);
      if defined { return Clash; }
      storage.AddRule(body);
    }

    method DeleteEntity(entityId: Term, clientId: Term)
      modifies storage
      ensures storage.store == DeletePolicy(old(storage.store), entityId, clientId).1
    {
      var filteredStore := storage.store;
      filteredStore := filteredStore - GetPolicy(filteredStore, entityId, clientId);
      storage.RemoveData(storage.store - filteredStore);
      ViewIsContainedAndMonotone(old(storage.store), old(storage.store), Some(entityId), clientId);
    }

    /** The policy is isolated, patched, isolated again and put back. */
    method PatchEntity(entityId: Term, patch: set<Quad> -> set<Quad>, clientId: Term) returns (reply: Reply)
      modifies storage
      ensures (reply, storage.store) ==
        PatchPolicy(old(storage.store), entityId, patch(GetPolicy(old(storage.store), entityId, clientId)), clientId)
    {
      hide GetPolicy;
      var filteredStore := GetPolicy(storage.store, entityId, clientId);
      var omitStore := storage.store - filteredStore;
      if SubjectsOf(filteredStore, Assigner, clientId) == {} { return NotAssigner; }
      filteredStore := patch(filteredStore);
      filteredStore := GetPolicy(filteredStore, entityId, clientId);
      omitStore := omitStore + filteredStore;
      filteredStore := omitStore;
      var remove := storage.store - filteredStore;
      var add := filteredStore - storage.store;
      assert (storage.store - remove) + add == filteredStore;
      if remove != {} { storage.RemoveData(remove); }
      assert storage.store + add == filteredStore;
      if add != {} { storage.AddRule(add); }
      assert storage.store == filteredStore;
      return Success;
    }

    /** The body is checked as for a new policy, but its subjects may be known already. */
    method PutEntity(body: set<Quad>, entityId: Term, clientId: Term) returns (reply: Reply)
      modifies storage
      ensures (reply, storage.store) == PutPolicy(old(storage.store), entityId, body, clientId)
    {
      hide CheckPolicy, GetPolicy;
      reply := ExecutePost(body, clientId);
      if reply != Success { return; }
      DeleteEntity(entityId, clientId);
      storage.AddRule(body);
    }
  }

  /** Whatever the update makes of the view, what is outside the view stays, and what is added is again a
      policy of the same owner. An update that changes nothing leaves the whole store as it was. */
  lemma PatchIsLocal(store: set<Quad>, uid: Term, patched: set<Quad>, owner: Term)
    ensures var view := GetPolicy(store, uid, owner);
      var after := PatchPolicy(store, uid, patched, owner).1;
      && store - view <= after
      && after - store <= GetPolicy(after, uid, owner)
      && (patched == view ==> after == store)
  {
    hide View, SubjectsOf;
    ViewIsContainedAndMonotone(store, store, Some(uid), owner);
    ViewIsIdempotent(store, Some(uid), owner);
    ViewIsIdempotent(patched, Some(uid), owner);
    var added := GetPolicy(patched, uid, owner);
    ViewIsContainedAndMonotone(added, (store - GetPolicy(store, uid, owner)) + added, Some(uid), owner);
  }
}
