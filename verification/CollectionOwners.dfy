/** Who may change a custom collection: its creators, and nobody else. */
module CollectionOwners {
  import opened Rdf
  import opened RegistrationSpec
  import opened RegistrationTheory
  import opened CollectionSpec
  import opened AuthorizationServer

  predicate IsCreator(quads: set<Quad>, url: string, user: string) {
    Quad(Iri(url), Creator, Iri(user)) in quads
  }

  predicate IsRelationCollection(quads: set<Quad>, url: string) {
    exists q | q in quads :: q.s == Iri(url) && q.p == Relation
  }

  predicate HasCreator(quads: set<Quad>, url: string) {
    exists q | q in quads :: q.s == Iri(url) && q.p == Creator
  }

  /** Every party of a collection of parties may be an owner, if the user is one; assets have to be the user's. */
  ghost predicate IsWelcome(s: Stores, user: string, body: CollectionBody) {
    if body.Party? then exists k | 0 <= k < |body.owners| :: body.owners[k] == user
    else forall k | 0 <= k < |body.parts| ::
           body.parts[k] in s.registrations && s.registrations[body.parts[k]].owner == user
  }

  lemma MayChangeIff(quads: set<Quad>, url: string, user: string)
    ensures CheckOwnership(quads, Iri(url), user).None? <==>
      IsCreator(quads, url, user) && !IsRelationCollection(quads, url)
    ensures CheckOwnership(quads, Iri(url), user) == Some(NotFound) <==>
      !HasCreator(quads, url) && !IsRelationCollection(quads, url)
    ensures CheckOwnership(quads, Iri(url), user) in {None, Some(NotFound), Some(Forbidden)}
  {
    var owners, relations := ObjectsOf(quads, Iri(url), Creator), ObjectsOf(quads, Iri(url), Relation);
    forall q | q in quads && q.s == Iri(url) ensures q.p == Creator ==> q.o in owners
                                             ensures q.p == Relation ==> q.o in relations {}
    if o :| o in relations { assert Quad(Iri(url), Relation, o) in quads; }
    if o :| o in owners { assert Quad(Iri(url), Creator, o) in quads; }
    if IsCreator(quads, url, user) { assert Iri(user) in owners; }
    hide ObjectsOf;
  }

  lemma WelcomeIff(s: Stores, user: string, body: CollectionBody)
    requires OwnersExact(s)
    ensures CheckBody(s, user, body).None? <==> IsWelcome(s, user, body)
    ensures CheckBody(s, user, body) in {None, Some(if body.Party? then BadRequest else Forbidden)}
  {
    if body.Asset? {
      forall p ensures p in Owned(s, user) <==> p in s.registrations && s.registrations[p].owner == user {}
    }
  }

  /** Creating, replacing and removing a collection are answered as follows: 404 for what does not exist, 403 for a
      collection that is based on a relation or belongs to others, and for resources that belong to others, and 400 for
      a collection of parties that the user would lose. */
  lemma ResponsesAre(s: Stores, r: Request)
    requires OwnersExact(s) && OnCollection(r)
    ensures var status := Serve(s, r).0;
      var allowed := r.PostAssets? || (IsCreator(s.quads, r.url, r.user) && !IsRelationCollection(s.quads, r.url));
      && (status.Accepted() <==> allowed && (r.DeleteAssets? || IsWelcome(s, r.user, r.collection)))
      && (status.Accepted() ==> status == match r
            case PostAssets(_, _, url) => Created(url)
            case PutAssets(_, _, _) => Updated
            case _ => Removed)
      && (status == NotFound <==>
            !r.PostAssets? && !HasCreator(s.quads, r.url) && !IsRelationCollection(s.quads, r.url))
      && (status == BadRequest <==>
            allowed && !r.DeleteAssets? && r.collection.Party? && !IsWelcome(s, r.user, r.collection))
      && (!status.Accepted() && status != NotFound && status != BadRequest ==> status == Forbidden)
  {
    MayChangeIff(s.quads, r.url, r.user);
    if !r.DeleteAssets? { WelcomeIff(s, r.user, r.collection); }
    hide OwnersExact, CheckOwnership, CheckBody, CollectionQuads, BodyQuads, IsWelcome;
    assert IsCreator(s.quads, r.url, r.user) ==> HasCreator(s.quads, r.url);
  }

  // ----- every run -----

  /** The quad says something about the collection, or puts something in it. */
  predicate IsSaidOf(q: Quad, url: string) {
    if q.p == PartOf then q.o == Iri(url) else q.s == Iri(url)
  }

  /** One of the creators of the collection, as the store has them, replaces or removes it. */
  predicate IsByCreator(s: Stores, r: Request, url: string) {
    (r.PutAssets? || r.DeleteAssets?) && r.url == url && IsCreator(s.quads, url, r.user)
  }

  /** The request takes a resource out of all collections: it deletes it, or replaces or removes the custom collection
      that has the name of the resource as its URL. */
  predicate DropsMember(r: Request, q: Quad) {
    q.p == PartOf && match r
                     case DeleteResource(_, id) => q.s == Iri(id)
                     case PutAssets(_, url, _) => q.s == Iri(url)
                     case DeleteAssets(_, url) => q.s == Iri(url)
                     case _ => false
  }

  lemma RegistrationLeavesCustom(s: Stores, r: Request, q: Quad, url: string)
    requires Consistent(s) && Permitted(s, r) && (r.PostResource? || r.PutResource?) && IsSaidOf(q, url)
    ensures q in Serve(s, r).1.quads <==> q in s.quads
  {
    hide SetMetadata, Consistent;
    if Serve(s, r).0.Accepted() {
      if r.PostResource? {
        PostEffect(s, r.owner, r.body, r.uuid);
        assert NewId(r.body, r.uuid) !in s.registrations;
        MetadataKeepsCustom(s, NewId(r.body, r.uuid), r.body, r.owner);
      } else {
        MetadataKeepsCustom(s, r.id, r.body, r.owner);
      }
    } else {
      RejectedChangesNothing(s, r);
    }
  }

  lemma CollectionLeavesOthers(s: Stores, r: Request, q: Quad, url: string)
    requires OwnersExact(s) && Permitted(s, r) && OnCollection(r) && IsSaidOf(q, url) && HasCreator(s.quads, url)
    requires !IsByCreator(s, r, url) && !DropsMember(r, q)
    ensures q in Serve(s, r).1.quads <==> q in s.quads
  {
    ResponsesAre(s, r);
    RejectedIsUnchanged(s, r);
    if Serve(s, r).0.Accepted() {
      if r.PostAssets? { CreatorIsKnown(s.quads, url); }
      assert r.url != url;
      var body := ReplacesCollection(s, r);
      hide Serve, OwnersExact;
      assert q in body ==> q.p == PartOf;
    }
  }

  lemma RejectedIsUnchanged(s: Stores, r: Request)
    ensures !Serve(s, r).0.Accepted() ==> Serve(s, r).1 == s
  {
    if !Serve(s, r).0.Accepted() { RejectedChangesNothing(s, r); }
  }

  lemma CreatorIsKnown(quads: set<Quad>, url: string)
    requires HasCreator(quads, url)
    ensures CollectionQuads(quads, Iri(url)) != {}
  {
    var q :| q in quads && q.s == Iri(url) && q.p == Creator;
    assert q in CollectionQuads(quads, Iri(url));
  }

  lemma StepLeavesCollection(s: Stores, r: Request, q: Quad, url: string)
    requires Inv(s) && Permitted(s, r) && IsSaidOf(q, url) && HasCreator(s.quads, url)
    requires !IsByCreator(s, r, url) && !DropsMember(r, q)
    ensures q in Serve(s, r).1.quads <==> q in s.quads
  {
    hide Consistent, OwnersExact, PartsOwned, Permitted, IsByCreator;
    if OnCollection(r) {
      CollectionLeavesOthers(s, r, q, url);
    } else if r.DeleteResource? {
      hide Disown;
    } else {
      RegistrationLeavesCustom(s, r, q, url);
    }
  }

  lemma StillHasCreator(s: Stores, r: Request, url: string)
    requires Inv(s) && Permitted(s, r) && HasCreator(s.quads, url) && !IsByCreator(s, r, url)
    ensures HasCreator(Serve(s, r).1.quads, url)
  {
    hide Inv, Permitted, IsByCreator;
    var q :| q in s.quads && q.s == Iri(url) && q.p == Creator;
    StepLeavesCollection(s, r, q, url);
  }

  /** Some request of the run is by one of the creators that the collection has at that time. */
  ghost predicate SomeByCreator(s: Stores, requests: seq<Request>, url: string)
    decreases |requests|
  {
    && requests != []
    && (IsByCreator(s, requests[0], url) || SomeByCreator(Serve(s, requests[0]).1, requests[1..], url))
  }

  /** What is said about a custom collection, and what is in it, only changes in a run when one of its creators
      replaces or removes it, apart from members that are themselves deleted. */
  lemma {:induction false} ChangedOnlyByCreators(s: Stores, requests: seq<Request>, url: string, q: Quad)
    requires Inv(s) && PermittedRun(s, requests) && HasCreator(s.quads, url) && IsSaidOf(q, url)
    requires forall r | r in requests :: !DropsMember(r, q)
    requires !(q in ServeAll(s, requests).quads <==> q in s.quads)
    ensures SomeByCreator(s, requests, url)
    decreases |requests|
  {
    hide Inv, Serve, Permitted, IsByCreator, HasCreator, IsSaidOf, DropsMember;
    assert requests != [];
    var r := requests[0];
    assert r in requests;
    if !IsByCreator(s, r, url) {
      ServeKeepsInv(s, r);
      StepLeavesCollection(s, r, q, url);
      StillHasCreator(s, r, url);
      ChangedOnlyByCreators(Serve(s, r).1, requests[1..], url, q);
    }
  }

  /** In particular strangers change nothing, however often they try: a run in which all requests for the collection
      are by users who do not own it at the start leaves what is said about it. */
  lemma {:induction false} StrangersChangeNothing(s: Stores, requests: seq<Request>, url: string)
    requires Inv(s) && PermittedRun(s, requests) && HasCreator(s.quads, url)
    requires forall r | r in requests && OnCollection(r) && r.url == url :: !IsCreator(s.quads, url, r.user)
    ensures forall q: Quad | q.s == Iri(url) && q.p != PartOf :: q in ServeAll(s, requests).quads <==> q in s.quads
    decreases |requests|
  {
    hide Inv, Serve, Permitted, HasCreator;
    if requests != [] {
      var r, t := requests[0], Serve(s, requests[0]).1;
      assert r in requests && !IsByCreator(s, r, url);
      ServeKeepsInv(s, r);
      StillHasCreator(s, r, url);
      forall q: Quad | q.s == Iri(url) && q.p != PartOf ensures q in t.quads <==> q in s.quads {
        StepLeavesCollection(s, r, q, url);
      }
      StrangersChangeNothing(t, requests[1..], url);
    }
  }
}
