/** The registration and collection endpoints together: what holds after any sequence of requests. */
module AuthorizationServer {
  import opened Rdf
  import opened RegistrationSpec
  import opened RegistrationTheory
  import opened CollectionSpec

  datatype Request =
    | PostResource(owner: string, body: ResourceDescription, uuid: string)
    | PutResource(owner: string, id: string, body: ResourceDescription)
    | DeleteResource(owner: string, id: string)
    | PostAssets(user: string, collection: CollectionBody, url: string)
    | PutAssets(user: string, url: string, collection: CollectionBody)
    | DeleteAssets(user: string, url: string)

  function Serve(s: Stores, r: Request): (Status, Stores) {
    match r
    case PostResource(owner, body, uuid) => Post(s, owner, body, uuid)
    case PutResource(owner, id, body) => Put(s, owner, id, body)
    case DeleteResource(owner, id) => RegistrationSpec.Remove(s, owner, id)
    case PostAssets(user, collection, url) => PostCollection(s, user, collection, url)
    case PutAssets(user, url, collection) => PutCollection(s, user, url, collection)
    case DeleteAssets(user, url) => RemoveCollection(s, user, url)
  }

  function ServeAll(s: Stores, requests: seq<Request>): Stores
    decreases |requests|
  {
    if requests == [] then s else ServeAll(Serve(s, requests[0]).1, requests[1..])
  }

  // ----- invariants -----

  predicate NoDuplicates(list: seq<string>) {
    forall i, j | 0 <= i < j < |list| :: list[i] != list[j]
  }

  /** Each owner's list holds exactly the ids registered to that owner, once, and is never empty. */
  ghost predicate OwnersExact(s: Stores) {
    && (forall o | o in s.ownership :: s.ownership[o] != [] && NoDuplicates(s.ownership[o]))
    && (forall o, id :: id in Owned(s, o) <==> id in s.registrations && s.registrations[id].owner == o)
  }

  predicate IsAssetCollection(c: Term, quads: set<Quad>) {
    Quad(c, RdfType, Known(AssetCollection)) in quads
  }

  /** Every part of a custom asset collection is a registered resource of its only creator. */
  ghost predicate PartsOwned(s: Stores) {
    forall q | q in s.quads && q.p == PartOf && q.o.Iri? && IsAssetCollection(q.o, s.quads) ::
      && q.s.Iri? && q.s.value in s.registrations
      && ObjectsOf(s.quads, q.o, Creator) == {Iri(s.registrations[q.s.value].owner)}
  }

  ghost predicate Inv(s: Stores) {
    Consistent(s) && OwnersExact(s) && PartsOwned(s)
  }

  /** What is assumed of a request: random ids and URLs are fresh, no description joins a collection that it
      drops, and no custom collection that is replaced or removed has the name of a resource with relations. */
  ghost predicate Permitted(s: Stores, r: Request) {
    match r
    case PostResource(owner, body, uuid) => uuid != "" && uuid !in s.registrations
    case PutResource(owner, id, body) => !JoinsWhatItDrops(s, id, body)
    case DeleteResource(_, _) => true
    case PostAssets(_, _, url) => CollectionQuads(s.quads, Iri(url)) == {}
    case PutAssets(_, url, _) => DescribedRelations(s, url) == {}
    case DeleteAssets(_, url) => DescribedRelations(s, url) == {}
  }

  ghost predicate PermittedRun(s: Stores, requests: seq<Request>)
    decreases |requests|
  {
    requests != [] ==> Permitted(s, requests[0]) && PermittedRun(Serve(s, requests[0]).1, requests[1..])
  }

  // ----- ownership -----

  lemma {:induction false} WithoutSpec(list: seq<string>, x: string)
    requires NoDuplicates(list)
    ensures NoDuplicates(Without(list, x))
    ensures forall y :: y in Without(list, x) <==> y in list && y != x
  {
    if list != [] {
      WithoutSpec(list[1..], x);
      assert list == [list[0]] + list[1..];
      if list[0] != x {
        var rest := Without(list[1..], x);
        assert Without(list, x) == [list[0]] + rest && list[0] !in rest;
      }
    }
  }

  lemma PostOwners(s: Stores, owner: string, body: ResourceDescription, uuid: string)
    requires OwnersExact(s) && uuid !in s.registrations && Post(s, owner, body, uuid).0.Accepted()
    ensures OwnersExact(Post(s, owner, body, uuid).1)
  {
    hide SetMetadata;
    var t := Post(s, owner, body, uuid).1;
    var id := NewId(body, uuid);
    assert t.registrations == s.registrations[id := Entry(owner, body)] by { PostEffect(s, owner, body, uuid); }
    assert id !in s.registrations;
    forall o, x ensures x in Owned(t, o) <==> x in t.registrations && t.registrations[x].owner == o {
      assert x in Owned(s, o) <==> x in s.registrations && s.registrations[x].owner == o;
    }
  }

  lemma PostEffect(s: Stores, owner: string, body: ResourceDescription, uuid: string)
    requires Post(s, owner, body, uuid).0.Accepted()
    ensures var id := NewId(body, uuid);
      var m := SetMetadata(s, id, body, owner, None);
      && m.0.Accepted()
      && m.1.registrations == s.registrations[id := Entry(owner, body)]
      && m.1.ownership == s.ownership
      && Post(s, owner, body, uuid).1 == m.1.(ownership := s.ownership[owner := Owned(s, owner) + [id]])
  {}

  lemma RemoveOwners(s: Stores, owner: string, id: string)
    requires OwnersExact(s)
    ensures OwnersExact(RegistrationSpec.Remove(s, owner, id).1)
  {
    var t := RegistrationSpec.Remove(s, owner, id).1;
    if id in s.registrations && s.registrations[id].owner == owner {
      assert id in Owned(s, owner);
      WithoutSpec(s.ownership[owner], id);
      forall o, x ensures x in Owned(t, o) <==> x in t.registrations && t.registrations[x].owner == o {
        assert x in Owned(s, o) <==> x in s.registrations && s.registrations[x].owner == o;
      }
    }
  }

  lemma {:induction false} WithoutIsCut(list: seq<string>, x: string) returns (k: nat)
    requires x in list
    ensures k < |list| && list[k] == x && Without(list, x) == list[..k] + list[k + 1..]
  {
    if list[0] == x {
      k := 0;
      assert list[..0] + list[1..] == list[1..];
    } else {
      var j := WithoutIsCut(list[1..], x);
      k := j + 1;
      CutInTail(list, j);
      hide Without;
    }
  }

  lemma CutInTail(list: seq<string>, j: nat)
    requires j + 1 < |list|
    ensures [list[0]] + (list[1..][..j] + list[1..][j + 1..]) == list[..j + 1] + list[j + 2..]
  {}

  /** The list of an owner is in the order of registration: new ids come last, and deleted ones are cut out. */
  lemma OwnersInOrder(s: Stores, owner: string, id: string, body: ResourceDescription, uuid: string)
    requires OwnersExact(s)
    ensures Post(s, owner, body, uuid).0.Created? ==>
      Owned(Post(s, owner, body, uuid).1, owner) == Owned(s, owner) + [Post(s, owner, body, uuid).0.id]
    ensures RegistrationSpec.Remove(s, owner, id).0.Removed? ==> exists k ::
      && 0 <= k < |Owned(s, owner)| && Owned(s, owner)[k] == id
      && Owned(RegistrationSpec.Remove(s, owner, id).1, owner) == Owned(s, owner)[..k] + Owned(s, owner)[k + 1..]
  {
    hide SetMetadata;
    if RegistrationSpec.Remove(s, owner, id).0.Removed? {
      assert id in Owned(s, owner);
      var k := WithoutIsCut(Owned(s, owner), id);
    }
  }

  // ----- custom collections -----

  /** Nothing that concerns a custom collection changed. */
  ghost predicate SameCustom(quads: set<Quad>, after: set<Quad>) {
    forall q: Quad | if q.p == PartOf then q.o.Iri? else q.s.Iri? :: q in after <==> q in quads
  }

  lemma MetadataKeepsCustom(s: Stores, id: string, description: ResourceDescription, owner: string)
    requires Consistent(s)
    requires SetMetadata(s, id, description, owner, PreviousOf(s, id)).0.Accepted()
    ensures var t := SetMetadata(s, id, description, owner, PreviousOf(s, id)).1;
      SameCustom(s.quads, t.quads) && t.registrations == s.registrations[id := Entry(owner, description)]
  {
    AcceptedQuads(s, id, description, owner);
    hide SetMetadata, DiffOf, Consistent, Live;
  }

  lemma SameCustomPartsOwned(s: Stores, t: Stores)
    requires PartsOwned(s) && SameCustom(s.quads, t.quads)
    requires forall x | x in s.registrations ::
      x in t.registrations && t.registrations[x].owner == s.registrations[x].owner
    ensures PartsOwned(t)
  {
    forall q | q in t.quads && q.p == PartOf && q.o.Iri? && IsAssetCollection(q.o, t.quads)
      ensures q.s.Iri? && q.s.value in t.registrations
           && ObjectsOf(t.quads, q.o, Creator) == {Iri(t.registrations[q.s.value].owner)}
    {
      assert q in s.quads && IsAssetCollection(q.o, s.quads);
      assert ObjectsOf(t.quads, q.o, Creator) == ObjectsOf(s.quads, q.o, Creator);
    }
  }

  lemma RegistrationKeepsInv(s: Stores, id: string, description: ResourceDescription, owner: string)
    requires Inv(s) && SetMetadata(s, id, description, owner, PreviousOf(s, id)).0.Accepted()
    requires id in s.registrations ==> s.registrations[id].owner == owner
    requires !JoinsWhatItDrops(s, id, description)
    ensures var t := SetMetadata(s, id, description, owner, PreviousOf(s, id)).1;
      Consistent(t) && PartsOwned(t) && t.registrations == s.registrations[id := Entry(owner, description)]
  {
    hide SetMetadata;
    var t := SetMetadata(s, id, description, owner, PreviousOf(s, id)).1;
    SetMetadataConsistentIff(s, id, description, owner);
    MetadataKeepsCustom(s, id, description, owner);
    SameCustomPartsOwned(s, t);
  }

  lemma PostKeepsInv(s: Stores, owner: string, body: ResourceDescription, uuid: string)
    requires Inv(s) && uuid !in s.registrations && Post(s, owner, body, uuid).0.Accepted()
    ensures Inv(Post(s, owner, body, uuid).1)
  {
    var id := NewId(body, uuid);
    PostEffect(s, owner, body, uuid);
    PostOwners(s, owner, body, uuid);
    assert id !in s.registrations;
    hide SetMetadata, Post;
    RegistrationKeepsInv(s, id, body, owner);
    var m := SetMetadata(s, id, body, owner, None).1;
    var t := Post(s, owner, body, uuid).1;
    SameStoresConsistent(m, t);
    SameCustomPartsOwned(m, t);
  }

  lemma PutKeepsInv(s: Stores, owner: string, id: string, body: ResourceDescription)
    requires Inv(s) && Put(s, owner, id, body).0.Accepted() && !JoinsWhatItDrops(s, id, body)
    ensures Inv(Put(s, owner, id, body).1)
  {
    assert Put(s, owner, id, body) == SetMetadata(s, id, body, owner, PreviousOf(s, id));
    RegistrationKeepsInv(s, id, body, owner);
    var t := Put(s, owner, id, body).1;
    assert t.ownership == s.ownership;
    hide SetMetadata, Put;
    forall o, x ensures x in Owned(t, o) <==> x in t.registrations && t.registrations[x].owner == o {
      assert x in Owned(s, o) <==> x in s.registrations && s.registrations[x].owner == o;
    }
  }

  lemma RemoveKeepsInv(s: Stores, owner: string, id: string)
    requires Inv(s)
    ensures Inv(RegistrationSpec.Remove(s, owner, id).1)
  {
    RemoveOwners(s, owner, id);
    var t := RegistrationSpec.Remove(s, owner, id).1;
    if t != s {
      RemoveKeepsConsistent(s, owner, id);
      hide Consistent, OwnersExact, Disown;
      forall q | q in t.quads && q.p == PartOf && q.o.Iri? && IsAssetCollection(q.o, t.quads)
        ensures q.s.Iri? && q.s.value in t.registrations
             && ObjectsOf(t.quads, q.o, Creator) == {Iri(t.registrations[q.s.value].owner)}
      {
        assert IsAssetCollection(q.o, s.quads);
        assert ObjectsOf(t.quads, q.o, Creator) == ObjectsOf(s.quads, q.o, Creator);
      }
    }
  }

  ghost predicate AboutOnly(quads: set<Quad>, subject: Term) {
    forall q | q in quads ::
      if q.p == PartOf then q.s.Iri? && q.o == subject
      else && q.s == subject && (q.p == RdfType || q.p == Description || q.p == Creator)
           && (q.p == RdfType ==> q.o == Known(AssetCollection) || q.o == Known(PartyCollection))
  }

  /** `t` differs from `s` in the quads of one custom collection only, which are now `body`. */
  ghost predicate Replaced(s: Stores, t: Stores, url: string, body: set<Quad>) {
    && t == s.(quads := t.quads)
    && AboutOnly(body, Iri(url))
    && (forall q: Quad :: q in t.quads <==>
          if q.s == Iri(url) || (q.p == PartOf && q.o == Iri(url)) then q in body else q in s.quads)
  }

  /** Whatever had the URL of the collection as its subject is gone, memberships of a resource included. */
  lemma ReplacedConsistentIff(s: Stores, t: Stores, url: string, body: set<Quad>)
    requires Consistent(s) && Replaced(s, t, url, body)
    ensures Consistent(t) <==> DescribedRelations(s, url) == {}
  {
    hide FindCollections, RelationsOf, DefaultsOf;
    assert Shape(t.quads);
    forall m ensures Live(m, s.quads) <==> Live(m, t.quads) { LiveFromSameQuads(m, s.quads, t.quads); }
    forall x ensures DescribedDefaults(t, x) == DescribedDefaults(s, x)
             ensures DescribedRelations(t, x) == DescribedRelations(s, x) {}
    forall m ensures !PartOfCollection(url, m, t.quads) {}
    forall x, m | x != url ensures PartOfCollection(x, m, t.quads) <==> m in DescribedRelations(t, x) {
      assert PartOfCollection(x, m, s.quads) <==> m in DescribedRelations(s, x);
    }
    if m :| m in DescribedRelations(s, url) {
      assert !(PartOfCollection(url, m, t.quads) <==> m in DescribedRelations(t, url));
    }
    forall x, m | m in DescribedDefaults(t, x) ensures Live(m, t.quads) { assert m in DescribedDefaults(s, x); }
    forall x, m | m in DescribedRelations(t, x) ensures Live(m, t.quads) { assert m in DescribedRelations(s, x); }
  }

  lemma SameOwners(s: Stores, t: Stores)
    requires OwnersExact(s) && t.ownership == s.ownership && t.registrations == s.registrations
    ensures OwnersExact(t)
  {
    forall o, x ensures x in Owned(t, o) <==> x in t.registrations && t.registrations[x].owner == o {
      assert x in Owned(s, o) <==> x in s.registrations && s.registrations[x].owner == o;
    }
  }

  lemma ReplacedPartsOwned(s: Stores, t: Stores, url: string, body: set<Quad>)
    requires PartsOwned(s) && Replaced(s, t, url, body)
    requires forall q | q in body && q.p == PartOf && IsAssetCollection(Iri(url), body) ::
      && q.s.Iri? && q.s.value in s.registrations
      && ObjectsOf(body, Iri(url), Creator) == {Iri(s.registrations[q.s.value].owner)}
    ensures PartsOwned(t)
  {
    var subject := Iri(url);
    forall q | q in t.quads && q.p == PartOf && q.o.Iri? && IsAssetCollection(q.o, t.quads)
      ensures q.s.Iri? && q.s.value in t.registrations
           && ObjectsOf(t.quads, q.o, Creator) == {Iri(t.registrations[q.s.value].owner)}
    {
      if q.o == subject {
        assert q in body && IsAssetCollection(subject, body);
        assert ObjectsOf(t.quads, subject, Creator) == ObjectsOf(body, subject, Creator);
      } else {
        assert IsAssetCollection(q.o, s.quads);
        assert ObjectsOf(t.quads, q.o, Creator) == ObjectsOf(s.quads, q.o, Creator);
      }
    }
  }

  /** A body that passed its checks only lists resources of the user, who is the only creator. */
  lemma CheckedBody(s: Stores, user: string, body: CollectionBody, url: string)
    requires OwnersExact(s) && CheckBody(s, user, body).None?
    ensures var quads := BodyQuads(body, user, Iri(url));
      && AboutOnly(quads, Iri(url))
      && (forall q | q in quads && q.p == PartOf && IsAssetCollection(Iri(url), quads) ::
            && q.s.Iri? && q.s.value in s.registrations
            && ObjectsOf(quads, Iri(url), Creator) == {Iri(s.registrations[q.s.value].owner)})
  {
    BodyIsAboutSubject(body, user, Iri(url));
    var quads := BodyQuads(body, user, Iri(url));
    if IsAssetCollection(Iri(url), quads) {
      AssetBody(body, user, Iri(url));
      hide BodyQuads, AboutOnly;
    }
  }

  lemma BodyIsAboutSubject(body: CollectionBody, user: string, subject: Term)
    requires subject.Iri?
    ensures AboutOnly(BodyQuads(body, user, subject), subject)
  {}

  lemma AssetBody(body: CollectionBody, user: string, subject: Term)
    requires subject.Iri? && IsAssetCollection(subject, BodyQuads(body, user, subject))
    ensures body.Asset? && ObjectsOf(BodyQuads(body, user, subject), subject, Creator) == {Iri(user)}
    ensures forall q | q in BodyQuads(body, user, subject) && q.p == PartOf :: q.s.Iri? && q.s.value in body.parts
  {
    assert Quad(subject, Creator, Iri(user)) in BodyQuads(body, user, subject);
  }

  predicate OnCollection(r: Request) {
    r.PostAssets? || r.PutAssets? || r.DeleteAssets?
  }

  lemma ReplacesCollection(s: Stores, r: Request) returns (body: set<Quad>)
    requires OwnersExact(s) && OnCollection(r) && Serve(s, r).0.Accepted()
    requires r.PostAssets? ==> CollectionQuads(s.quads, Iri(r.url)) == {}
    ensures Replaced(s, Serve(s, r).1, r.url, body)
    ensures forall q | q in body && q.p == PartOf && IsAssetCollection(Iri(r.url), body) ::
      && q.s.Iri? && q.s.value in s.registrations
      && ObjectsOf(body, Iri(r.url), Creator) == {Iri(s.registrations[q.s.value].owner)}
  {
    hide BodyQuads, AboutOnly, OwnersExact, Replaced, CollectionQuads;
    match r
    case PostAssets(user, collection, url) =>
      body := BodyQuads(collection, user, Iri(url));
      CheckedBody(s, user, collection, url);
      PostReplaces(s, user, collection, url);
    case PutAssets(user, url, collection) =>
      body := BodyQuads(collection, user, Iri(url));
      CheckedBody(s, user, collection, url);
      PutReplaces(s, user, url, collection);
    case DeleteAssets(user, url) =>
      body := {};
      RemoveReplaces(s, user, url);
  }

  lemma PostReplaces(s: Stores, user: string, body: CollectionBody, url: string)
    requires AboutOnly(BodyQuads(body, user, Iri(url)), Iri(url)) && CollectionQuads(s.quads, Iri(url)) == {}
    requires PostCollection(s, user, body, url).0.Accepted()
    ensures Replaced(s, PostCollection(s, user, body, url).1, url, BodyQuads(body, user, Iri(url)))
  {
    hide BodyQuads, CollectionQuads;
    NothingAbout(s.quads, Iri(url));
  }

  lemma PutReplaces(s: Stores, user: string, url: string, body: CollectionBody)
    requires AboutOnly(BodyQuads(body, user, Iri(url)), Iri(url))
    requires PutCollection(s, user, url, body).0.Accepted()
    ensures Replaced(s, PutCollection(s, user, url, body).1, url, BodyQuads(body, user, Iri(url)))
  {
    hide BodyQuads;
  }

  lemma RemoveReplaces(s: Stores, user: string, url: string)
    requires RemoveCollection(s, user, url).0.Accepted()
    ensures Replaced(s, RemoveCollection(s, user, url).1, url, {})
  {}

  lemma NothingAbout(quads: set<Quad>, subject: Term)
    requires CollectionQuads(quads, subject) == {}
    ensures forall q | q in quads :: q.s != subject && !(q.p == PartOf && q.o == subject)
  {
    assert forall q | q in quads :: q !in CollectionQuads(quads, subject);
  }

  /** An accepted request on a custom collection keeps the invariant, exactly when the URL of the collection
      is not also the name of a resource with relations: the memberships of that resource are lost. */
  lemma CollectionKeepsInvIff(s: Stores, r: Request)
    requires Inv(s) && OnCollection(r) && Serve(s, r).0.Accepted()
    requires r.PostAssets? ==> CollectionQuads(s.quads, Iri(r.url)) == {}
    ensures Inv(Serve(s, r).1) <==> DescribedRelations(s, r.url) == {}
    ensures Consistent(Serve(s, r).1) <==> DescribedRelations(s, r.url) == {}
  {
    var t := Serve(s, r).1;
    var body := ReplacesCollection(s, r);
    hide BodyQuads, AboutOnly, Serve;
    ReplacedConsistentIff(s, t, r.url, body);
    SameOwners(s, t);
    ReplacedPartsOwned(s, t, r.url, body);
  }

  /** No resource has a fresh URL as its name and relations of its own. */
  lemma FreshHasNoRelations(s: Stores, url: string)
    requires Consistent(s) && CollectionQuads(s.quads, Iri(url)) == {}
    ensures DescribedRelations(s, url) == {}
  {
    hide FindCollections, RelationsOf, DefaultsOf, Shape, Live;
    forall m ensures m !in DescribedRelations(s, url) {
      assert PartOfCollection(url, m, s.quads) <==> m in DescribedRelations(s, url);
      assert Quad(Iri(url), PartOf, Collection(m)) !in CollectionQuads(s.quads, Iri(url));
    }
  }

  // ----- every run -----

  /** A rejected request changes none of the stores. */
  lemma RejectedChangesNothing(s: Stores, r: Request)
    requires !Serve(s, r).0.Accepted()
    ensures Serve(s, r).1 == s
  {}

  lemma ServeKeepsInv(s: Stores, r: Request)
    requires Inv(s) && Permitted(s, r)
    ensures Inv(Serve(s, r).1)
  {
    if !Serve(s, r).0.Accepted() {
      RejectedChangesNothing(s, r);
    } else {
      match r
      case PostResource(owner, body, uuid) => PostKeepsInv(s, owner, body, uuid);
      case PutResource(owner, id, body) => PutKeepsInv(s, owner, id, body);
      case DeleteResource(owner, id) => RemoveKeepsInv(s, owner, id);
      case PostAssets(_, _, url) =>
        FreshHasNoRelations(s, url);
        CollectionKeepsInvIff(s, r);
      case _ => CollectionKeepsInvIff(s, r);
    }
  }

  lemma {:induction false} RunKeepsInv(s: Stores, requests: seq<Request>)
    requires Inv(s) && PermittedRun(s, requests)
    ensures Inv(ServeAll(s, requests))
    decreases |requests|
  {
    if requests != [] {
      ServeKeepsInv(s, requests[0]);
      RunKeepsInv(Serve(s, requests[0]).1, requests[1..]);
    }
  }

  lemma ReachableInv(requests: seq<Request>)
    requires PermittedRun(Empty, requests)
    ensures Inv(ServeAll(Empty, requests))
  {
    RunKeepsInv(Empty, requests);
  }

  // ----- a collection that has the name of a resource -----

  const NOTHING := CollectionBody.Asset("", [])
  const CONTAINED :=
    ResourceDescription(Some("u"), [], None, Some(Links(map[], map["c" := ["a"]])), [])
  const ALIASING :=
    [PostAssets("o", NOTHING, "u"), PostResource("o", CONTAINER, "x"), PostResource("o", CONTAINED, "x")]

  lemma ContainedRelations()
    ensures RelationsOf(Some(CONTAINED)) == {Meta("c", "a", false)}
  {
    assert Meta("c", "a", false) in LinkedMetas(map["c" := ["a"]], false);
  }

  lemma FirstCollection()
    ensures Permitted(Empty, ALIASING[0]) && Inv(Empty) && Inv(Serve(Empty, ALIASING[0]).1)
    ensures Quad(Iri("u"), Creator, Iri("o")) in Serve(Empty, ALIASING[0]).1.quads
    ensures Serve(Empty, ALIASING[0]).1.registrations == map[]
  {
    assert CollectionQuads(Empty.quads, Iri("u")) == {};
    ServeKeepsInv(Empty, ALIASING[0]);
  }

  /** A resource that is accepted with its parents known. */
  lemma Registers(s: Stores, r: Request, id: string)
    requires Inv(s) && r.PostResource? && r.uuid != "" && r.uuid !in s.registrations && id !in s.registrations
    requires r.body.name == Some(id) && id != "" && AllLive(RelationsOf(Some(r.body)), s.quads)
    ensures Serve(s, r).0 == Created(id) && Inv(Serve(s, r).1)
    ensures Serve(s, r).1.registrations == s.registrations[id := Entry(r.owner, r.body)]
    ensures SameCustom(s.quads, Serve(s, r).1.quads)
  {
    var metas := RelationsOf(Some(r.body));
    FoundIffLive(metas, s.quads);
    FoundIffLive({}, s.quads);
    var d := DiffOf(id, r.body, None);
    assert DefaultsOf(None, id) == {} && RelationsOf(None) == {};
    assert d.lostDefaults == {} && d.lostRelations == {} && d.newRelations == metas;
    assert SetMetadata(s, id, r.body, r.owner, None).0.Accepted();
    ServeKeepsInv(s, r);
    PostEffect(s, r.owner, r.body, r.uuid);
    hide SetMetadata, DiffOf, Inv;
    MetadataKeepsCustom(s, id, r.body, r.owner);
  }

  lemma ThreeSteps(s: Stores, a: Request, b: Request, c: Request)
    ensures var t := Serve(s, a).1;
      var u := Serve(t, b).1;
      && (PermittedRun(s, [a, b, c]) <==> Permitted(s, a) && Permitted(t, b) && Permitted(u, c))
      && ServeAll(s, [a, b, c]) == Serve(u, c).1
  {
    hide Serve, Permitted;
    assert [a, b, c][1..] == [b, c] && [b, c][1..] == [c] && [c][1..] == [];
    var t := Serve(s, a).1;
    var u := Serve(t, b).1;
    assert ServeAll(t, [b, c]) == ServeAll(u, [c]) == Serve(u, c).1;
    assert PermittedRun(u, [c]) <==> Permitted(u, c);
    assert PermittedRun(t, [b, c]) <==> Permitted(t, b) && PermittedRun(u, [c]);
  }

  lemma AliasingRun()
    ensures PermittedRun(Empty, ALIASING) && Inv(ServeAll(Empty, ALIASING))
    ensures Quad(Iri("u"), Creator, Iri("o")) in ServeAll(Empty, ALIASING).quads
    ensures DescribedRelations(ServeAll(Empty, ALIASING), "u") != {}
  {
    hide Serve, Inv, Live, DefaultsOf, RelationsOf, SameCustom, Consistent, CollectionQuads, JoinsWhatItDrops,
         PermittedRun, ServeAll;
    FirstCollection();
    ContainerMetas();
    ContainedRelations();
    ThreeSteps(Empty, ALIASING[0], ALIASING[1], ALIASING[2]);
    var s := Serve(Empty, ALIASING[0]).1;
    Registers(s, ALIASING[1], "a");
    var s2 := Serve(s, ALIASING[1]).1;
    ContainerIsLive(s2);
    Registers(s2, ALIASING[2], "u");
    CreatorStays(s, s2, Serve(s2, ALIASING[2]).1);
  }

  /** A custom collection gets a URL, a resource is registered under that URL as part of a container, and then
      the collection is replaced by its owner: all four requests are accepted, and the membership is lost. */
  lemma AliasedCollection()
    ensures PermittedRun(Empty, ALIASING) && Consistent(ServeAll(Empty, ALIASING))
    ensures var (status, t) := Serve(ServeAll(Empty, ALIASING), PutAssets("o", "u", NOTHING));
      status == Updated && !Consistent(t)
  {
    AliasingRun();
    hide Serve, ServeAll, DescribedRelations, Consistent;
    var s := ServeAll(Empty, ALIASING);
    MayReplace(s);
    CollectionKeepsInvIff(s, PutAssets("o", "u", NOTHING));
  }

  lemma ContainerIsLive(s: Stores)
    requires Inv(s) && "a" in s.registrations && s.registrations["a"].description == CONTAINER
    ensures Live(Meta("c", "a", false), s.quads)
  {
    ContainerMetas();
    assert Meta("c", "a", false) in DescribedDefaults(s, "a");
  }

  lemma CreatorStays(s: Stores, s2: Stores, s3: Stores)
    requires Quad(Iri("u"), Creator, Iri("o")) in s.quads
    requires SameCustom(s.quads, s2.quads) && SameCustom(s2.quads, s3.quads)
    ensures Quad(Iri("u"), Creator, Iri("o")) in s3.quads
  {}

  lemma MayReplace(s: Stores)
    requires Inv(s) && Quad(Iri("u"), Creator, Iri("o")) in s.quads
    ensures Serve(s, PutAssets("o", "u", NOTHING)).0 == Updated
  {
    assert Shape(s.quads);
    assert Iri("o") in ObjectsOf(s.quads, Iri("u"), Creator);
    assert ObjectsOf(s.quads, Iri("u"), Relation) == {};
    assert CheckOwnership(s.quads, Iri("u"), "o").None?;
    hide BodyQuads, CollectionQuads, CheckOwnership;
  }
}
