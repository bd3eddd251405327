/** What a write of the policy endpoint does to collections: exactly when it keeps their invariant. */
module CollectionWrites {
  import opened Rdf
  import opened RegistrationSpec
  import opened RegistrationTheory
  import opened CollectionSpec
  import opened AuthorizationServer

  /** Some registered description defines the collection, or makes its resource part of it. */
  ghost predicate Described(s: Stores, m: Meta) {
    exists id :: m in DescribedDefaults(s, id) || m in DescribedRelations(s, id)
  }

  /** Something of the description of the collection is removed: a quad about it, or about its blank node. */
  predicate Undescribes(quads: set<Quad>, removed: set<Term>, m: Meta) {
    Collection(m) in removed || exists b | b in ObjectsOf(quads, Collection(m), Relation) :: b in removed
  }

  /** Something that matters for the membership changes: the membership itself, or what is said of the collection. */
  predicate Changes(removed: set<Term>, body: set<Quad>, q: Quad) {
    q in body || q.o in removed || exists other | other in body :: other.s == q.o
  }

  /** The part is registered to the only creator of the collection. */
  ghost predicate IsOwned(s: Stores, quads: set<Quad>, q: Quad) {
    && q.s.Iri? && q.s.value in s.registrations
    && ObjectsOf(quads, q.o, Creator) == {Iri(s.registrations[q.s.value].owner)}
  }

  predicate IsCustomPart(quads: set<Quad>, q: Quad) {
    q.p == PartOf && q.o.Iri? && IsAssetCollection(q.o, quads)
  }

  /** What a write has to see to: its body describes relation collections as the server does, and puts resources only in
      those that their descriptions name; what it removes of such memberships, and of described collections, it puts
      back; and parts of custom asset collections that it changes belong to the only creator. */
  ghost predicate SoundForCollections(s: Stores, removed: set<Term>, body: set<Quad>) {
    var after := Overwritten(s.quads, removed, body);
    && Shape(body)
    && (forall id, m | PartOfCollection(id, m, body) :: m in DescribedRelations(s, id))
    && (forall id, m | Iri(id) in removed && m in DescribedRelations(s, id) :: PartOfCollection(id, m, body))
    && (forall m | Described(s, m) && Undescribes(s.quads, removed, m) :: Live(m, after))
    && (forall q | q in after && IsCustomPart(after, q) && Changes(removed, body, q) :: IsOwned(s, after, q))
  }

  lemma OverwrittenShape(quads: set<Quad>, removed: set<Term>, body: set<Quad>)
    requires Shape(quads) && Shape(body)
    ensures Shape(Overwritten(quads, removed, body))
  {}

  lemma PartsOfShape(quads: set<Quad>, part: set<Quad>)
    requires Shape(quads) && part <= quads
    ensures Shape(part)
  {}

  lemma OverwrittenMembership(quads: set<Quad>, removed: set<Term>, body: set<Quad>, id: string, m: Meta)
    ensures PartOfCollection(id, m, Overwritten(quads, removed, body)) <==>
      (Iri(id) !in removed && PartOfCollection(id, m, quads)) || PartOfCollection(id, m, body)
  {}

  /** A live collection whose description is left alone stays live. */
  lemma UndescribedStaysLive(quads: set<Quad>, removed: set<Term>, body: set<Quad>, m: Meta)
    requires Shape(quads) && Shape(body) && Live(m, quads) && !Undescribes(quads, removed, m)
    ensures Live(m, Overwritten(quads, removed, body))
  {
    var after := Overwritten(quads, removed, body);
    OverwrittenShape(quads, removed, body);
    var blank := TriplesOfLive(m, quads);
    if m.reverse { assert blank in ObjectsOf(quads, Collection(m), Relation); }
    hide Live, FindCollections, Shape, ObjectsOf;
    assert forall q | q in quads && q.s !in removed :: q in after;
    LiveByTriples(m, after, blank);
  }

  lemma OverwrittenParts(s: Stores, removed: set<Term>, body: set<Quad>, q: Quad)
    requires PartsOwned(s) && q in Overwritten(s.quads, removed, body)
    requires IsCustomPart(Overwritten(s.quads, removed, body), q) && !Changes(removed, body, q)
    ensures IsOwned(s, Overwritten(s.quads, removed, body), q)
  {
    var after := Overwritten(s.quads, removed, body);
    assert q in s.quads;
    assert forall other: Quad | other.s == q.o :: other in after <==> other in s.quads;
    assert IsAssetCollection(q.o, s.quads);
    assert ObjectsOf(after, q.o, Creator) == ObjectsOf(s.quads, q.o, Creator);
  }

  lemma SoundKeepsConsistent(s: Stores, removed: set<Term>, body: set<Quad>)
    requires Consistent(s) && SoundForCollections(s, removed, body)
    ensures Consistent(s.(quads := Overwritten(s.quads, removed, body)))
  {
    var after := Overwritten(s.quads, removed, body);
    var t := s.(quads := after);
    OverwrittenShape(s.quads, removed, body);
    hide Shape, Live, DefaultsOf, RelationsOf, Overwritten, Undescribes, IsCustomPart, Changes, IsOwned,
         PartOfCollection;
    forall x ensures DescribedDefaults(t, x) == DescribedDefaults(s, x)
             ensures DescribedRelations(t, x) == DescribedRelations(s, x) {}
    hide DescribedDefaults, DescribedRelations;
    forall id, m ensures PartOfCollection(id, m, after) <==> m in DescribedRelations(t, id) {
      OverwrittenMembership(s.quads, removed, body, id, m);
      assert PartOfCollection(id, m, s.quads) <==> m in DescribedRelations(s, id);
    }
    forall m | Described(s, m) ensures Live(m, after) {
      if !Undescribes(s.quads, removed, m) { UndescribedStaysLive(s.quads, removed, body, m); }
    }
    forall id, m | m in DescribedDefaults(t, id) ensures Live(m, after) { assert Described(s, m); }
    forall id, m | m in DescribedRelations(t, id) ensures Live(m, after) { assert Described(s, m); }
  }

  lemma SoundKeepsParts(s: Stores, removed: set<Term>, body: set<Quad>)
    requires PartsOwned(s) && SoundForCollections(s, removed, body)
    ensures PartsOwned(s.(quads := Overwritten(s.quads, removed, body)))
  {
    var after := Overwritten(s.quads, removed, body);
    hide Shape, Live, Overwritten, Undescribes, Changes, PartOfCollection, Described;
    forall q | q in after && IsCustomPart(after, q) ensures IsOwned(s, after, q) {
      if !Changes(removed, body, q) { OverwrittenParts(s, removed, body, q); }
    }
  }

  lemma InvMakesSound(s: Stores, removed: set<Term>, body: set<Quad>)
    requires Inv(s.(quads := Overwritten(s.quads, removed, body)))
    ensures SoundForCollections(s, removed, body)
  {
    var after := Overwritten(s.quads, removed, body);
    var t := s.(quads := after);
    PartsOfShape(after, body);
    hide Shape, Live, DefaultsOf, RelationsOf, Overwritten, Undescribes, Changes, OwnersExact, PartOfCollection;
    forall x ensures DescribedDefaults(t, x) == DescribedDefaults(s, x)
             ensures DescribedRelations(t, x) == DescribedRelations(s, x) {}
    hide DescribedDefaults, DescribedRelations;
    forall id, m
      ensures PartOfCollection(id, m, body) ==> m in DescribedRelations(s, id)
      ensures Iri(id) in removed && m in DescribedRelations(s, id) ==> PartOfCollection(id, m, body)
    {
      OverwrittenMembership(s.quads, removed, body, id, m);
      assert PartOfCollection(id, m, after) <==> m in DescribedRelations(t, id);
    }
    forall m | Described(s, m) ensures Live(m, after) {
      var id :| m in DescribedDefaults(s, id) || m in DescribedRelations(s, id);
      assert m in DescribedDefaults(t, id) || m in DescribedRelations(t, id);
    }
    forall q | q in after && IsCustomPart(after, q) ensures IsOwned(s, after, q) {}
  }

  /** A write of the policy endpoint keeps the invariant of registrations and collections exactly when it is sound. */
  lemma WriteKeepsCollectionsIff(s: Stores, removed: set<Term>, body: set<Quad>)
    requires Inv(s)
    ensures Inv(s.(quads := Overwritten(s.quads, removed, body))) <==> SoundForCollections(s, removed, body)
  {
    hide SoundForCollections, Overwritten, Consistent, PartsOwned, OwnersExact;
    if SoundForCollections(s, removed, body) {
      SoundKeepsConsistent(s, removed, body);
      SoundKeepsParts(s, removed, body);
      SameOwners(s, s.(quads := Overwritten(s.quads, removed, body)));
    }
    if Inv(s.(quads := Overwritten(s.quads, removed, body))) { InvMakesSound(s, removed, body); }
  }

  // ----- a removal -----

  /** The collection can still be found: it is not removed, and neither is every blank node of its relation. */
  ghost predicate StaysDescribed(quads: set<Quad>, removed: set<Term>, m: Meta) {
    && Collection(m) !in removed
    && (m.reverse ==> exists b | b !in removed ::
          Quad(Collection(m), Relation, b) in quads && Quad(b, InverseOf, Iri(m.relation)) in quads)
  }

  lemma StaysLiveIff(quads: set<Quad>, removed: set<Term>, m: Meta)
    requires Shape(quads) && Live(m, quads)
    ensures Live(m, Overwritten(quads, removed, {})) <==> StaysDescribed(quads, removed, m)
  {
    var after := Overwritten(quads, removed, {});
    assert Shape(after);
    assert forall q :: q in after <==> q in quads && q.s !in removed;
    hide Shape, FindCollections, Overwritten;
    if StaysDescribed(quads, removed, m) {
      var blank := TriplesOfLive(m, quads);
      if m.reverse {
        blank :| blank !in removed && Quad(Collection(m), Relation, blank) in quads
              && Quad(blank, InverseOf, Iri(m.relation)) in quads;
      }
      LiveByTriples(m, after, blank);
    }
    if Live(m, after) {
      var blank := TriplesOfLive(m, after);
      assert Quad(Collection(m), Source, Iri(m.source)) in after;
    }
  }

  lemma NothingIsCustomPart(quads: set<Quad>, removed: set<Term>, q: Quad)
    requires q in Overwritten(quads, removed, {}) && IsCustomPart(Overwritten(quads, removed, {}), q)
    ensures !Changes(removed, {}, q)
  {}

  /** Removing what is said about some terms keeps the invariant exactly when none of them is a resource with relations,
      and every described collection can still be found. */
  lemma RemovalKeepsCollectionsIff(s: Stores, removed: set<Term>)
    requires Inv(s)
    ensures Inv(s.(quads := Overwritten(s.quads, removed, {}))) <==>
      && (forall id | Iri(id) in removed :: DescribedRelations(s, id) == {})
      && (forall m | Described(s, m) :: StaysDescribed(s.quads, removed, m))
  {
    WriteKeepsCollectionsIff(s, removed, {});
    assert Shape({});
    var after := Overwritten(s.quads, removed, {});
    forall q | q in after && IsCustomPart(after, q) ensures !Changes(removed, {}, q) {
      NothingIsCustomPart(s.quads, removed, q);
    }
    forall m | Described(s, m) ensures Live(m, s.quads) { DescribedIsLive(s, m); }
    hide Inv, Live, IsCustomPart, Changes, IsOwned, Overwritten, Described, DescribedRelations;
    InvShape(s);
    hide Shape;
    forall m | Described(s, m)
      ensures Live(m, after) <==> StaysDescribed(s.quads, removed, m)
      ensures !Undescribes(s.quads, removed, m) ==> Live(m, after)
    {
      StaysLiveIff(s.quads, removed, m);
      if !Undescribes(s.quads, removed, m) { EmptyLeaves(s.quads, removed, m); }
    }
    hide StaysDescribed, Undescribes;
    forall id, m ensures !PartOfCollection(id, m, {}) {}
  }

  lemma EmptyLeaves(quads: set<Quad>, removed: set<Term>, m: Meta)
    requires Shape(quads) && Live(m, quads) && !Undescribes(quads, removed, m)
    ensures Live(m, Overwritten(quads, removed, {}))
  {
    assert Shape({});
    UndescribedStaysLive(quads, removed, {}, m);
  }

  lemma DescribedIsLive(s: Stores, m: Meta)
    requires Inv(s) && Described(s, m)
    ensures Live(m, s.quads)
  {
    hide Live, DescribedDefaults, DescribedRelations, Shape, PartOfCollection;
  }

  lemma InvShape(s: Stores)
    requires Inv(s)
    ensures Shape(s.quads)
  {}

  // ----- a body without collections -----

  /** The quad describes a collection or makes something part of one. */
  predicate OfCollections(q: Quad) {
    || q.p == Source || q.p == Relation || q.p == InverseOf || q.p == PartOf || q.p == Creator
    || (q.p == RdfType && q.o == Known(AssetCollection))
  }

  /** Adding a body that does not describe collections keeps the invariant. */
  lemma OtherBodyIsSound(s: Stores, body: set<Quad>)
    requires Inv(s) && forall q | q in body :: !OfCollections(q)
    ensures SoundForCollections(s, {}, body)
  {
    hide Consistent, OwnersExact, Live;
    var after := Overwritten(s.quads, {}, body);
    assert after == s.quads + body;
    assert Shape(body);
    forall q | q in after && IsCustomPart(after, q) ensures IsOwned(s, after, q) {
      assert q in s.quads && IsAssetCollection(q.o, s.quads);
      assert ObjectsOf(after, q.o, Creator) == ObjectsOf(s.quads, q.o, Creator);
    }
    forall m ensures !Undescribes(s.quads, {}, m) {}
  }
}
