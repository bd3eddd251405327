/** What the registration endpoint promises, in terms of the entries of descriptions and the quads of the store. */
module RegistrationMeaning {
  import opened Rdf
  import opened RegistrationSpec
  import opened RegistrationTheory

  // ----- entries -----

  /** The description has a default for the relation, so there is a collection of what `source` is related to:
      `relation` leads from the source to the parts, or the other way around when it is reversed. */
  predicate Gives(d: Option<ResourceDescription>, id: string, m: Meta) {
    && m.source == id && d.Some? && d.value.defaults.Some?
    && var entries := if m.reverse then d.value.defaults.value.reverse else d.value.defaults.value.normal;
       m.relation in entries && |entries[m.relation]| > 0
  }

  /** The description says that the resource is related to the source, so it is part of the collection: being the
      subject of the relation means being in the collection of the reversed relation. */
  predicate Takes(d: Option<ResourceDescription>, m: Meta) {
    && d.Some? && d.value.relations.Some?
    && var entries := if m.reverse then d.value.relations.value.normal else d.value.relations.value.reverse;
       m.relation in entries && m.source in entries[m.relation]
  }

  /** The quads that make `c` the collection for the relation and the source. */
  predicate IsCollectionFor(quads: set<Quad>, c: Term, m: Meta) {
    && Quad(c, Source, Iri(m.source)) in quads
    && if m.reverse then exists q | q in quads :: q.s == c && q.p == Relation
                                               && Quad(q.o, InverseOf, Iri(m.relation)) in quads
       else Quad(c, Relation, Iri(m.relation)) in quads
  }

  ghost predicate IsOnlyCollectionFor(quads: set<Quad>, c: Term, m: Meta) {
    forall b :: IsCollectionFor(quads, b, m) <==> b == c
  }

  predicate IsPart(quads: set<Quad>, id: string, m: Meta) {
    exists q | q in quads :: q.s == Iri(id) && q.p == PartOf && IsCollectionFor(quads, q.o, m)
  }

  predicate Exists(quads: set<Quad>, m: Meta) {
    exists q | q in quads :: q.p == Source && IsCollectionFor(quads, q.s, m)
  }

  lemma DefaultsAreGiven(d: Option<ResourceDescription>, id: string, m: Meta)
    ensures m in DefaultsOf(d, id) <==> Gives(d, id, m)
  {}

  lemma LinkedIff(entries: map<string, seq<string>>, reverse: bool, m: Meta)
    ensures m in LinkedMetas(entries, reverse) <==>
      m.reverse == reverse && m.relation in entries && m.source in entries[m.relation]
  {}

  lemma RelationsAreTaken(d: Option<ResourceDescription>, m: Meta)
    ensures m in RelationsOf(d) <==> Takes(d, m)
  {
    if d.Some? && d.value.relations.Some? {
      LinkedIff(d.value.relations.value.normal, true, m);
      LinkedIff(d.value.relations.value.reverse, false, m);
      var entries := if m.reverse then d.value.relations.value.normal else d.value.relations.value.reverse;
      assert m in RelationsOf(d) <==> m.relation in entries && m.source in entries[m.relation];
    }
  }

  lemma FoundAre(m: Meta, quads: set<Quad>, c: Term)
    ensures c in FindCollections(m, quads) <==> IsCollectionFor(quads, c, m)
  {
    if IsCollectionFor(quads, c, m) { assert Quad(c, Source, Iri(m.source)) in quads; }
  }

  lemma SomeFoundIff(m: Meta, quads: set<Quad>)
    ensures FindCollections(m, quads) != {} <==> Exists(quads, m)
  {
    if Exists(quads, m) {
      var q :| q in quads && q.p == Source && IsCollectionFor(quads, q.s, m);
      FoundAre(m, quads, q.s);
    }
    if c :| c in FindCollections(m, quads) {
      FoundAre(m, quads, c);
      assert Quad(c, Source, Iri(m.source)) in quads;
    }
  }

  lemma LiveIsOnlyOne(quads: set<Quad>, m: Meta)
    requires Shape(quads) && Live(m, quads)
    ensures Exists(quads, m) && IsOnlyCollectionFor(quads, Collection(m), m)
  {
    SomeFoundIff(m, quads);
    forall c ensures IsCollectionFor(quads, c, m) <==> c == Collection(m) { FoundAre(m, quads, c); }
    hide IsCollectionFor, Exists;
  }

  lemma PartsAreCollections(quads: set<Quad>, id: string, m: Meta)
    requires Shape(quads)
    ensures IsPart(quads, id, m) ==> PartOfCollection(id, m, quads)
    ensures PartOfCollection(id, m, quads) && Live(m, quads) ==> IsPart(quads, id, m)
  {
    OnlyOneCollection(m, quads);
    if IsPart(quads, id, m) {
      var q :| q in quads && q.s == Iri(id) && q.p == PartOf && IsCollectionFor(quads, q.o, m);
      FoundAre(m, quads, q.o);
    }
    if Live(m, quads) {
      FoundAre(m, quads, Collection(m));
      assert PartOfCollection(id, m, quads) ==> Quad(Iri(id), PartOf, Collection(m)) in quads;
    }
  }

  /** In consistent stores a resource is part of exactly the collections that its description names, and every
      collection that a description gives or names is there, once. */
  lemma DescriptionsAreQuads(s: Stores, id: string, m: Meta)
    requires Consistent(s) && id in s.registrations
    ensures var d := Some(s.registrations[id].description);
      && (IsPart(s.quads, id, m) <==> Takes(d, m))
      && (Gives(d, id, m) || Takes(d, m) ==>
            Exists(s.quads, m) && exists c :: IsOnlyCollectionFor(s.quads, c, m))
  {
    var d := Some(s.registrations[id].description);
    DefaultsAreGiven(d, id, m);
    RelationsAreTaken(d, m);
    hide FindCollections, IsCollectionFor, Gives, Takes, DefaultsOf, RelationsOf, Exists, IsPart, Live;
    assert PartOfCollection(id, m, s.quads) <==> m in DescribedRelations(s, id);
    assert m in DescribedRelations(s, id) ==> Live(m, s.quads);
    assert m in DescribedDefaults(s, id) ==> Live(m, s.quads);
    hide Consistent;
    PartsAreCollections(s.quads, id, m);
    if Live(m, s.quads) { LiveIsOnlyOne(s.quads, m); }
  }

  // ----- responses -----

  /** The collection is given up by the update although something is in it. */
  predicate IsOccupied(quads: set<Quad>, m: Meta) {
    exists q | q in quads :: q.p == PartOf && IsCollectionFor(quads, q.o, m)
  }

  /** The update is refused: it gives up a collection that is not empty. */
  ghost predicate GivesUpParts(quads: set<Quad>, id: string, body: ResourceDescription,
                               previous: Option<ResourceDescription>) {
    exists m :: Gives(previous, id, m) && !Gives(Some(body), id, m) && IsOccupied(quads, m)
  }

  /** The update is refused: a collection that it joins or leaves is not there. */
  ghost predicate MissesCollection(quads: set<Quad>, body: ResourceDescription, previous: Option<ResourceDescription>) {
    exists m :: (Takes(Some(body), m) != Takes(previous, m)) && !Exists(quads, m)
  }

  lemma OccupiedIff(quads: set<Quad>, m: Meta)
    ensures IsOccupied(quads, m) <==> exists c | c in FindCollections(m, quads) :: QuadsTo(quads, PartOf, c) != {}
  {
    if IsOccupied(quads, m) {
      var q :| q in quads && q.p == PartOf && IsCollectionFor(quads, q.o, m);
      FoundAre(m, quads, q.o);
      assert q in QuadsTo(quads, PartOf, q.o);
    }
    if c :| c in FindCollections(m, quads) && QuadsTo(quads, PartOf, c) != {} {
      FoundAre(m, quads, c);
      var q :| q in QuadsTo(quads, PartOf, c);
      assert q in quads && q.p == PartOf && q.o == c;
    }
  }

  lemma MetadataResponse(s: Stores, id: string, body: ResourceDescription, owner: string,
                         previous: Option<ResourceDescription>)
    ensures SetMetadata(s, id, body, owner, previous).0 ==
      if GivesUpParts(s.quads, id, body, previous) then Conflict
      else if MissesCollection(s.quads, body, previous) then BadRequest else Updated
  {
    var d := DiffOf(id, body, previous);
    forall m ensures m in d.lostDefaults <==> Gives(previous, id, m) && !Gives(Some(body), id, m)
             ensures m in d.newRelations + d.lostRelations <==> Takes(Some(body), m) != Takes(previous, m)
             ensures FindCollections(m, s.quads) != {} <==> Exists(s.quads, m)
             ensures IsOccupied(s.quads, m)
                <==> exists c | c in FindCollections(m, s.quads) :: QuadsTo(s.quads, PartOf, c) != {}
    {
      DefaultsAreGiven(previous, id, m);
      DefaultsAreGiven(Some(body), id, m);
      RelationsAreTaken(previous, m);
      RelationsAreTaken(Some(body), m);
      SomeFoundIff(m, s.quads);
      OccupiedIff(s.quads, m);
    }
    assert SetMetadata(s, id, body, owner, previous).0 ==
      if Occupied(d.lostDefaults, s.quads) then Conflict
      else if !AllFound(d.newRelations, s.quads) || !AllFound(d.lostRelations, s.quads) then BadRequest else Updated;
    hide SetMetadata, DiffOf, FindCollections, Gives, Takes, IsOccupied, Exists, QuadsTo;
  }

  /** Registrations are answered as follows: 409 for a name that is taken and for an update that gives up a collection
      with parts, 404 for what does not exist, 403 for what belongs to others, and 400 when a collection that the
      description joins or leaves is not there. */
  lemma ResponsesAre(s: Stores, owner: string, id: string, body: ResourceDescription, uuid: string)
    ensures var named := body.name.Some? && |body.name.value| > 0;
      Post(s, owner, body, uuid).0 ==
        if named && body.name.value in s.registrations then Conflict
        else if MissesCollection(s.quads, body, None) then BadRequest
        else Created(if named then body.name.value else uuid)
    ensures Put(s, owner, id, body).0 ==
      if id !in s.registrations then NotFound
      else if s.registrations[id].owner != owner then Forbidden
      else if GivesUpParts(s.quads, id, body, Some(s.registrations[id].description)) then Conflict
      else if MissesCollection(s.quads, body, Some(s.registrations[id].description)) then BadRequest else Updated
    ensures Remove(s, owner, id).0 ==
      if id !in s.registrations then NotFound else if s.registrations[id].owner != owner then Forbidden else Removed
  {
    MetadataResponse(s, NewId(body, uuid), body, owner, None);
    assert !GivesUpParts(s.quads, NewId(body, uuid), body, None);
    if id in s.registrations { MetadataResponse(s, id, body, owner, Some(s.registrations[id].description)); }
    hide SetMetadata, GivesUpParts, MissesCollection, Disown;
  }

  // ----- what else changes -----

  /** A deletion takes the registration away, and the resource out of all collections; the issuers of its derivations,
      all other registrations and what others own stay. */
  lemma DeletedRegistration(s: Stores, owner: string, id: string)
    requires Remove(s, owner, id).0.Accepted()
    ensures var t := Remove(s, owner, id).1;
      && (forall x :: x in t.registrations <==> x in s.registrations && x != id)
      && (forall x | x in t.registrations :: t.registrations[x] == s.registrations[x])
      && t.derivations == s.derivations && (forall other | other != owner :: Owned(t, other) == Owned(s, other))
      && forall q: Quad :: q in t.quads <==> q in s.quads && !(q.s == Iri(id) && q.p == PartOf)
  {}

  /** An accepted registration or update stores its own description for its owner, leaves all others, and what other
      owners own. */
  lemma AcceptedRegistration(s: Stores, owner: string, id: string, body: ResourceDescription, uuid: string)
    ensures var (status, t) := Post(s, owner, body, uuid);
      status.Created? ==>
        && t.registrations == s.registrations[status.id := Entry(owner, body)]
        && forall other | other != owner :: Owned(t, other) == Owned(s, other)
    ensures var (status, t) := Put(s, owner, id, body);
      status.Updated? ==> t.registrations == s.registrations[id := Entry(owner, body)] && t.ownership == s.ownership
  {
    hide DiffOf, Occupied, AllFound, Rewrite, UpdateDerivations;
  }

  // ----- new collections -----

  /** A collection that was not there before an accepted request is the collection of a default of its description: an
      asset collection, created by the owner of the resource. */
  lemma NewCollectionsAreOwned(s: Stores, id: string, body: ResourceDescription, owner: string, m: Meta)
    requires Consistent(s) && SetMetadata(s, id, body, owner, PreviousOf(s, id)).0.Accepted()
    requires !Exists(s.quads, m) && Exists(SetMetadata(s, id, body, owner, PreviousOf(s, id)).1.quads, m)
    ensures var after := SetMetadata(s, id, body, owner, PreviousOf(s, id)).1.quads;
      && Gives(Some(body), id, m)
      && exists c :: IsCollectionFor(after, c, m) && Quad(c, RdfType, Known(AssetCollection)) in after
                  && Quad(c, Creator, Iri(owner)) in after
  {
    var d := DiffOf(id, body, PreviousOf(s, id));
    AcceptedQuads(s, id, body, owner);
    DefaultsAreGiven(Some(body), id, m);
    assert d.newDefaults !! d.lostDefaults && d.newDefaults <= DefaultsOf(Some(body), id);
    hide SetMetadata, Exists, Gives, DiffOf, IsCollectionFor, DefaultsOf, RelationsOf, Rewritten;
    NewCollectionIn(s.quads, SetMetadata(s, id, body, owner, PreviousOf(s, id)).1.quads, id, owner, s.serial, d, m);
  }

  lemma NewCollectionIn(quads: set<Quad>, after: set<Quad>, id: string, owner: string, serial: nat, d: Diff, m: Meta)
    requires Shape(quads) && Rewritten(quads, after, id, owner, serial, d) && d.newDefaults !! d.lostDefaults
    requires !Exists(quads, m) && Exists(after, m)
    ensures m in d.newDefaults && IsCollectionFor(after, Collection(m), m)
    ensures Quad(Collection(m), RdfType, Known(AssetCollection)) in after
    ensures Quad(Collection(m), Creator, Iri(owner)) in after
  {
    hide Exists, IsCollectionFor;
    RewrittenShape(quads, after, id, owner, serial, d);
    SomeFoundIff(m, quads);
    SomeFoundIff(m, after);
    OnlyOneCollection(m, after);
    FoundAre(m, after, Collection(m));
    assert Live(m, after) && !Live(m, quads);
    hide FindCollections, Live;
    RewrittenLive(quads, after, id, owner, serial, d, m);
    hide Rewritten;
    NewTriplesAreThere(quads, after, id, owner, serial, d, m);
  }

  lemma NewTriplesAreThere(quads: set<Quad>, after: set<Quad>, id: string, owner: string, serial: nat, d: Diff, m: Meta)
    requires Rewritten(quads, after, id, owner, serial, d)
    requires m in d.newDefaults && m !in d.lostDefaults && !Live(m, quads)
    ensures Quad(Collection(m), RdfType, Known(AssetCollection)) in after
    ensures Quad(Collection(m), Creator, Iri(owner)) in after
  {
    assert m in Absent(d.newDefaults, quads);
  }

  // ----- collections that are given up -----

  /** Blank nodes are numbered in the order in which they are made. */
  ghost predicate BlanksAreOld(s: Stores) {
    forall q | q in s.quads :: (q.s.Blank? ==> q.s.serial < s.serial) && (q.o.Blank? ==> q.o.serial < s.serial)
  }

  /** What is said about the collection after its description was taken away. */
  predicate IsLeft(quads: set<Quad>, c: Term, owner: string, m: Meta, q: Quad) {
    && q in quads && q != Quad(c, RdfType, Known(AssetCollection)) && q != Quad(c, Source, Iri(m.source))
    && q != Quad(c, Creator, Iri(owner)) && q != Quad(c, Relation, Iri(m.relation))
  }

  lemma GivenUpQuad(s: Stores, after: set<Quad>, id: string, owner: string, d: Diff, m: Meta, q: Quad)
    requires Consistent(s) && BlanksAreOld(s) && Rewritten(s.quads, after, id, owner, s.serial, d)
    requires m in d.lostDefaults && m !in d.newDefaults && q.s == Collection(m)
    ensures q in after <==> IsLeft(s.quads, Collection(m), owner, m, q)
  {
    assert !Joins(q, id, d.newRelations) && !Joins(q, id, d.lostRelations);
    assert !Describes(q, Absent(d.newDefaults, s.quads), owner, s.serial);
    assert q in s.quads && q.o.Blank? ==> q.o.serial < s.serial;
  }

  lemma GivenUpMeta(s: Stores, id: string, body: ResourceDescription, m: Meta, c: Term)
    requires Consistent(s) && IsCollectionFor(s.quads, c, m)
    requires Gives(PreviousOf(s, id), id, m) && !Gives(Some(body), id, m)
    ensures var d := DiffOf(id, body, PreviousOf(s, id)); m in d.lostDefaults && m !in d.newDefaults
    ensures c == Collection(m)
  {
    DefaultsAreGiven(PreviousOf(s, id), id, m);
    DefaultsAreGiven(Some(body), id, m);
    FoundAre(m, s.quads, c);
    OnlyOneCollection(m, s.quads);
    hide Gives, DefaultsOf, RelationsOf, FindCollections, IsCollectionFor;
  }

  lemma ReversedIsLeft(quads: set<Quad>, after: set<Quad>, c: Term, owner: string, m: Meta)
    requires Shape(quads) && IsCollectionFor(quads, c, m) && c == Collection(m)
    requires forall q: Quad | q.s == c :: q in after <==> IsLeft(quads, c, owner, m, q)
    ensures m.reverse <==> exists q :: q in after && q.s == c && q.p == Relation
  {
    if m.reverse {
      var q :| q in quads && q.s == c && q.p == Relation && Quad(q.o, InverseOf, Iri(m.relation)) in quads;
      assert q in after;
    }
  }

  /** A collection that an accepted description gives up loses its type, its source, its creator and the relation it is
      based on. But a reversed relation hangs on a blank node, and the one to be removed is a new one: the relation of
      such a collection stays. */
  lemma GivenUpCollections(s: Stores, id: string, body: ResourceDescription, owner: string, m: Meta, c: Term)
    requires Consistent(s) && BlanksAreOld(s)
    requires SetMetadata(s, id, body, owner, PreviousOf(s, id)).0.Accepted()
    requires Gives(PreviousOf(s, id), id, m) && !Gives(Some(body), id, m) && IsCollectionFor(s.quads, c, m)
    ensures var after := SetMetadata(s, id, body, owner, PreviousOf(s, id)).1.quads;
      && (forall q: Quad | q.s == c :: q in after <==> IsLeft(s.quads, c, owner, m, q))
      && (m.reverse <==> exists q :: q in after && q.s == c && q.p == Relation)
  {
    var d, after := DiffOf(id, body, PreviousOf(s, id)), SetMetadata(s, id, body, owner, PreviousOf(s, id)).1.quads;
    GivenUpMeta(s, id, body, m, c);
    AcceptedQuads(s, id, body, owner);
    hide SetMetadata, DiffOf, Gives, Rewritten, IsCollectionFor, IsLeft, BlanksAreOld;
    forall q: Quad | q.s == c ensures q in after <==> IsLeft(s.quads, c, owner, m, q) {
      GivenUpQuad(s, after, id, owner, d, m, q);
    }
    ReversedIsLeft(s.quads, after, c, owner, m);
  }

  // ----- the smallest case in which something is left -----

  const REVERSED := ResourceDescription(Some("a"), [], Some(Links(map[], map["c" := ["r"]])), None, [])
  const NOTHING := REVERSED.(defaults := None)

  lemma ReversedMetas()
    ensures DefaultsOf(Some(REVERSED), "a") == {Meta("c", "a", true)} && RelationsOf(Some(REVERSED)) == {}
    ensures DefaultsOf(Some(NOTHING), "a") == {} && RelationsOf(Some(NOTHING)) == {}
    ensures DefaultsOf(None, "a") == {} && RelationsOf(None) == {}
  {
    assert Meta("c", "a", true) in OwnMetas(map["c" := ["r"]], true, "a");
  }

  lemma ReversedIsCreated()
    ensures var (status, s) := Post(Empty, "o", REVERSED, "");
      && status == Created("a") && Consistent(s) && BlanksAreOld(s)
      && s.registrations == map["a" := Entry("o", REVERSED)]
      && QuadsTo(s.quads, PartOf, Collection(Meta("c", "a", true))) == {}
  {
    ReversedMetas();
    hide FindCollections, DefaultsOf, RelationsOf, Rewrite;
    assert DiffOf("a", REVERSED, None) == Diff({Meta("c", "a", true)}, {}, {}, {});
    var t, s := SetMetadata(Empty, "a", REVERSED, "o", None).1, Post(Empty, "o", REVERSED, "").1;
    SetMetadataConsistentIff(Empty, "a", REVERSED, "o");
    AcceptedQuads(Empty, "a", REVERSED, "o");
    SameStoresConsistent(t, s);
    OnlyNewBlanks(t, "a", "o", DiffOf("a", REVERSED, None));
    hide Consistent;
    NobodyIsPart(s, Meta("c", "a", true));
  }

  lemma OnlyNewBlanks(t: Stores, id: string, owner: string, d: Diff)
    requires Rewritten({}, t.quads, id, owner, 0, d) && t.serial == 2
    ensures BlanksAreOld(t)
  {}

  /** A resource is registered with a reversed default and then updated without it: both requests are accepted, and the
      relation of the collection is still there. */
  lemma ReversedRelationStays()
    ensures var (created, s) := Post(Empty, "o", REVERSED, "");
      var (updated, t) := Put(s, "o", "a", NOTHING);
      && created == Created("a") && updated == Updated
      && exists q :: q in t.quads && q.s == Collection(Meta("c", "a", true)) && q.p == Relation
  {
    var s, m := Post(Empty, "o", REVERSED, "").1, Meta("c", "a", true);
    ReversedIsCreated();
    ReversedMetas();
    hide Post, Rewrite;
    assert m in DescribedDefaults(s, "a") && Live(m, s.quads);
    LiveIsOnlyOne(s.quads, m);
    NotOccupied(s.quads, m);
    assert DiffOf("a", NOTHING, PreviousOf(s, "a")) == Diff({}, {m}, {}, {});
    assert SetMetadata(s, "a", NOTHING, "o", PreviousOf(s, "a")).0 == Updated;
    DefaultsAreGiven(Some(REVERSED), "a", m);
    DefaultsAreGiven(Some(NOTHING), "a", m);
    hide SetMetadata, Consistent, BlanksAreOld, Live, IsCollectionFor;
    GivenUpCollections(s, "a", NOTHING, "o", m, Collection(m));
  }

  lemma NotOccupied(quads: set<Quad>, m: Meta)
    requires Live(m, quads) && QuadsTo(quads, PartOf, Collection(m)) == {}
    ensures !Occupied({m}, quads) && AllFound({}, quads)
  {}
}
