/** Invariants of the four stores that the registration endpoint keeps in step. */
module RegistrationTheory {
  import opened Rdf
  import opened RegistrationSpec

  // ----- collections -----

  /** How the quads that describe relation collections are built. */
  ghost predicate Shape(quads: set<Quad>) {
    forall q | q in quads ::
      && (q.p == Source ==> q.s.Collection? && q.o == Iri(q.s.meta.source))
      && (q.p == Relation ==>
            && q.s.Collection?
            && if q.s.meta.reverse then q.o.Blank? && q.o.about == q.s else q.o == Iri(q.s.meta.relation))
      && (q.p == InverseOf ==> q.s.Blank? && q.s.about.Collection? && q.o == Iri(q.s.about.meta.relation))
      && (q.p == PartOf ==> q.s.Iri?)
  }

  ghost predicate Live(m: Meta, quads: set<Quad>) {
    FindCollections(m, quads) == {Collection(m)}
  }

  ghost predicate AllLive(metas: set<Meta>, quads: set<Quad>) {
    forall m | m in metas :: Live(m, quads)
  }

  ghost predicate PartOfCollection(id: string, m: Meta, quads: set<Quad>) {
    Quad(Iri(id), PartOf, Collection(m)) in quads
  }

  function DescribedDefaults(s: Stores, id: string): set<Meta> {
    if id in s.registrations then DefaultsOf(Some(s.registrations[id].description), id) else {}
  }

  function DescribedRelations(s: Stores, id: string): set<Meta> {
    if id in s.registrations then RelationsOf(Some(s.registrations[id].description)) else {}
  }

  /** Membership says what the stored descriptions say, and no description names a missing collection. */
  ghost predicate Consistent(s: Stores) {
    && Shape(s.quads)
    && (forall id, m :: PartOfCollection(id, m, s.quads) <==> m in DescribedRelations(s, id))
    && (forall id, m | m in DescribedDefaults(s, id) :: Live(m, s.quads))
    && (forall id, m | m in DescribedRelations(s, id) :: Live(m, s.quads))
  }

  lemma OnlyOneCollection(m: Meta, quads: set<Quad>)
    requires Shape(quads)
    ensures FindCollections(m, quads) <= {Collection(m)}
  {}

  lemma FoundIffLive(metas: set<Meta>, quads: set<Quad>)
    requires Shape(quads)
    ensures AllFound(metas, quads) <==> forall m | m in metas :: Live(m, quads)
  {
    forall m ensures FindCollections(m, quads) != {} <==> Live(m, quads) {
      OnlyOneCollection(m, quads);
    }
  }

  lemma PartOfTriplesOfLive(id: string, metas: set<Meta>, quads: set<Quad>)
    requires AllLive(metas, quads)
    ensures PartOfTriples(id, metas, quads) == set m | m in metas :: Quad(Iri(id), PartOf, Collection(m))
  {
    assert forall m | m in metas :: FindCollections(m, quads) == {Collection(m)};
    hide FindCollections, Live;
    forall m | m in metas ensures Quad(Iri(id), PartOf, Collection(m)) in PartOfTriples(id, metas, quads) {
      assert Collection(m) in FindCollections(m, quads);
    }
  }

  /** `q` is one of the triples of a relation collection among `metas`. */
  predicate Describes(q: Quad, metas: set<Meta>, owner: string, serial: nat) {
    || (q.s.Collection? && q.s.meta in metas &&
        match q.p
        case RdfType => q.o == Known(AssetCollection)
        case Source => q.o == Iri(q.s.meta.source)
        case Creator => q.o == Iri(owner)
        case Relation => q.o == if q.s.meta.reverse then Blank(serial, q.s) else Iri(q.s.meta.relation)
        case _ => false)
    || (q.s.Blank? && q.s.serial == serial && q.s.about.Collection? && q.s.about.meta in metas
        && q.s.about.meta.reverse && q.p == InverseOf && q.o == Iri(q.s.about.meta.relation))
  }

  /** `q` puts `id` in a relation collection among `metas`. */
  predicate Joins(q: Quad, id: string, metas: set<Meta>) {
    q.s == Iri(id) && q.p == PartOf && q.o.Collection? && q.o.meta in metas
  }

  /** `after` is `quads` with the update applied, quad by quad. */
  ghost predicate Rewritten(quads: set<Quad>, after: set<Quad>, id: string, owner: string, serial: nat, d: Diff) {
    forall q :: q in after <==>
      && (q in quads || Describes(q, Absent(d.newDefaults, quads), owner, serial) || Joins(q, id, d.newRelations))
      && !Describes(q, d.lostDefaults, owner, serial + 1)
      && !Joins(q, id, d.lostRelations)
  }

  ghost function Absent(metas: set<Meta>, quads: set<Quad>): set<Meta> {
    set m | m in metas && !Live(m, quads)
  }

  lemma DescribesIffTriple(q: Quad, m: Meta, owner: string, serial: nat)
    ensures q in CollectionTriples(m, owner, Collection(m), serial) <==> Describes(q, {m}, owner, serial)
  {}

  lemma NewTriples(q: Quad, metas: set<Meta>, quads: set<Quad>, owner: string, serial: nat)
    requires Shape(quads)
    ensures q in NewCollectionTriples(metas, quads, owner, serial) <==>
      Describes(q, Absent(metas, quads), owner, serial)
  {
    forall m ensures q in CollectionTriples(m, owner, Collection(m), serial) <==> Describes(q, {m}, owner, serial)
             ensures FindCollections(m, quads) == {} <==> !Live(m, quads)
    {
      DescribesIffTriple(q, m, owner, serial);
      OnlyOneCollection(m, quads);
    }
    if Describes(q, Absent(metas, quads), owner, serial) {
      var m := if q.s.Collection? then q.s.meta else q.s.about.meta;
      assert m in metas && q in CollectionTriples(m, owner, Collection(m), serial);
    }
  }

  lemma OldTriples(q: Quad, metas: set<Meta>, quads: set<Quad>, owner: string, serial: nat)
    requires AllLive(metas, quads)
    ensures q in OldCollectionTriples(metas, quads, owner, serial) <==> Describes(q, metas, owner, serial)
  {
    forall m ensures q in CollectionTriples(m, owner, Collection(m), serial) <==> Describes(q, {m}, owner, serial) {
      DescribesIffTriple(q, m, owner, serial);
    }
    if Describes(q, metas, owner, serial) {
      var m := if q.s.Collection? then q.s.meta else q.s.about.meta;
      assert m in metas && Collection(m) in FindCollections(m, quads);
    }
  }

  lemma RewriteQuadByQuad(quads: set<Quad>, id: string, owner: string, serial: nat, d: Diff)
    requires Shape(quads) && AllLive(d.lostDefaults + d.newRelations + d.lostRelations, quads)
    ensures Rewritten(quads, Rewrite(quads, id, owner, serial, d), id, owner, serial, d)
  {
    var after := Rewrite(quads, id, owner, serial, d);
    forall q: Quad
      ensures q in after <==>
        && (q in quads || Describes(q, Absent(d.newDefaults, quads), owner, serial) || Joins(q, id, d.newRelations))
        && !Describes(q, d.lostDefaults, owner, serial + 1) && !Joins(q, id, d.lostRelations)
    {
      NewTriples(q, d.newDefaults, quads, owner, serial);
      OldTriples(q, d.lostDefaults, quads, owner, serial + 1);
      PartOfTriplesOfLive(id, d.newRelations, quads);
      PartOfTriplesOfLive(id, d.lostRelations, quads);
    }
  }

  lemma RewrittenShape(quads: set<Quad>, after: set<Quad>, id: string, owner: string, serial: nat, d: Diff)
    requires Shape(quads) && Rewritten(quads, after, id, owner, serial, d)
    ensures Shape(after)
  {}

  lemma RewrittenMembership(quads: set<Quad>, after: set<Quad>, id: string, owner: string, serial: nat, d: Diff,
                            x: string, m: Meta)
    requires Rewritten(quads, after, id, owner, serial, d) && d.newRelations !! d.lostRelations
    ensures PartOfCollection(x, m, after) <==>
            if x == id && m in d.newRelations + d.lostRelations then m in d.newRelations
            else PartOfCollection(x, m, quads)
  {}

  lemma LiveByTriples(m: Meta, quads: set<Quad>, blank: Term)
    requires Shape(quads)
    requires Quad(Collection(m), Source, Iri(m.source)) in quads
    requires if m.reverse
             then Quad(Collection(m), Relation, blank) in quads && Quad(blank, InverseOf, Iri(m.relation)) in quads
             else Quad(Collection(m), Relation, Iri(m.relation)) in quads
    ensures Live(m, quads)
  {
    OnlyOneCollection(m, quads);
    assert Collection(m) in FindCollections(m, quads);
  }

  lemma TriplesOfLive(m: Meta, quads: set<Quad>) returns (blank: Term)
    requires Shape(quads) && Live(m, quads)
    ensures Quad(Collection(m), Source, Iri(m.source)) in quads
    ensures if m.reverse
            then && blank.Blank? && blank.about == Collection(m)
                 && Quad(Collection(m), Relation, blank) in quads && Quad(blank, InverseOf, Iri(m.relation)) in quads
            else Quad(Collection(m), Relation, Iri(m.relation)) in quads
  {
    assert Collection(m) in FindCollections(m, quads);
    blank := Collection(m);
    if m.reverse {
      var b :| b in quads && b.s == Collection(m) && b.p == Relation && Quad(b.o, InverseOf, Iri(m.relation)) in quads;
      blank := b.o;
    }
  }

  lemma RewrittenLive(quads: set<Quad>, after: set<Quad>, id: string, owner: string, serial: nat, d: Diff, m: Meta)
    requires Shape(quads) && Shape(after) && Rewritten(quads, after, id, owner, serial, d)
    requires d.newDefaults !! d.lostDefaults
    ensures Live(m, after) <==> m !in d.lostDefaults && (Live(m, quads) || m in d.newDefaults)
  {
    var c := Collection(m);
    if m in d.lostDefaults {
      assert Quad(c, Source, Iri(m.source)) !in after;
      if Live(m, after) { var _ := TriplesOfLive(m, after); }
    } else if Live(m, quads) {
      var blank := TriplesOfLive(m, quads);
      LiveByTriples(m, after, blank);
    } else if m in d.newDefaults {
      LiveByTriples(m, after, Blank(serial, c));
    } else if Live(m, after) {
      var blank := TriplesOfLive(m, after);
      LiveByTriples(m, quads, blank);
    }
  }

  // ----- one request -----

  function PreviousOf(s: Stores, id: string): Option<ResourceDescription> {
    if id in s.registrations then Some(s.registrations[id].description) else None
  }

  /** A description that gives up a collection and joins it in the same update. */
  predicate JoinsWhatItDrops(s: Stores, id: string, description: ResourceDescription) {
    var d := DiffOf(id, description, PreviousOf(s, id));
    d.lostDefaults * d.newRelations != {}
  }

  lemma AcceptedDiff(s: Stores, id: string, description: ResourceDescription, owner: string)
    requires Consistent(s) && SetMetadata(s, id, description, owner, PreviousOf(s, id)).0.Accepted()
    ensures var d := DiffOf(id, description, PreviousOf(s, id));
      && AllLive(d.lostDefaults + d.newRelations + d.lostRelations, s.quads)
      && forall m, x | m in d.lostDefaults :: m !in DescribedRelations(s, x)
  {
    var d := DiffOf(id, description, PreviousOf(s, id));
    FoundIffLive(d.newRelations, s.quads);
    forall m | m in d.lostDefaults ensures Live(m, s.quads) && forall x :: m !in DescribedRelations(s, x) {
      assert m in DescribedDefaults(s, id);
      assert Live(m, s.quads);
      assert FindCollections(m, s.quads) == {Collection(m)};
      assert Collection(m) in FindCollections(m, s.quads);
      assert QuadsTo(s.quads, PartOf, Collection(m)) == {};
      forall x ensures m !in DescribedRelations(s, x) {
        assert Quad(Iri(x), PartOf, Collection(m)) !in QuadsTo(s.quads, PartOf, Collection(m));
      }
    }
    forall m | m in d.lostRelations ensures Live(m, s.quads) { assert m in DescribedRelations(s, id); }
  }

  lemma DefaultsNameTheirResource(s: Stores, id: string, m: Meta)
    requires m in DescribedDefaults(s, id)
    ensures m.source == id
  {}

  /** What an accepted description does to the live collections and to the memberships. */
  ghost predicate Effect(s: Stores, t: Stores, id: string, d: Diff) {
    && Shape(t.quads)
    && (forall m :: Live(m, t.quads) <==> m !in d.lostDefaults && (Live(m, s.quads) || m in d.newDefaults))
    && (forall x, m :: PartOfCollection(x, m, t.quads) <==> m in DescribedRelations(t, x))
    && (forall x | x != id :: DescribedDefaults(t, x) == DescribedDefaults(s, x))
    && (forall x | x != id :: DescribedRelations(t, x) == DescribedRelations(s, x))
    && DescribedDefaults(t, id) == DescribedDefaults(s, id) + d.newDefaults - d.lostDefaults
    && DescribedRelations(t, id) == DescribedRelations(s, id) + d.newRelations - d.lostRelations
  }

  lemma AcceptedEffect(s: Stores, id: string, description: ResourceDescription, owner: string)
    requires Consistent(s) && SetMetadata(s, id, description, owner, PreviousOf(s, id)).0.Accepted()
    ensures Effect(s, SetMetadata(s, id, description, owner, PreviousOf(s, id)).1, id,
                   DiffOf(id, description, PreviousOf(s, id)))
  {
    var t := SetMetadata(s, id, description, owner, PreviousOf(s, id)).1;
    var d := DiffOf(id, description, PreviousOf(s, id));
    hide SetMetadata, Rewritten, FindCollections;
    AcceptedDiff(s, id, description, owner);
    AcceptedQuads(s, id, description, owner);
    DescribedAfter(s, t, id, description, owner);
    assert d.newDefaults !! d.lostDefaults && d.newRelations !! d.lostRelations;
    assert d.lostRelations <= DescribedRelations(s, id);
    hide AllLive, DefaultsOf, RelationsOf, DiffOf;
    RewrittenShape(s.quads, t.quads, id, owner, s.serial, d);
    forall m ensures Live(m, t.quads) <==> m !in d.lostDefaults && (Live(m, s.quads) || m in d.newDefaults) {
      RewrittenLive(s.quads, t.quads, id, owner, s.serial, d, m);
    }
    forall x, m ensures PartOfCollection(x, m, t.quads) <==> m in DescribedRelations(t, x) {
      RewrittenMembership(s.quads, t.quads, id, owner, s.serial, d, x, m);
      assert PartOfCollection(x, m, s.quads) <==> m in DescribedRelations(s, x);
    }
  }

  lemma AcceptedQuads(s: Stores, id: string, description: ResourceDescription, owner: string)
    requires Consistent(s) && SetMetadata(s, id, description, owner, PreviousOf(s, id)).0.Accepted()
    ensures var t := SetMetadata(s, id, description, owner, PreviousOf(s, id)).1;
      && t.registrations == s.registrations[id := Entry(owner, description)]
      && t.ownership == s.ownership
      && t.serial == s.serial + 2
      && Rewritten(s.quads, t.quads, id, owner, s.serial, DiffOf(id, description, PreviousOf(s, id)))
  {
    var d := DiffOf(id, description, PreviousOf(s, id));
    AcceptedDiff(s, id, description, owner);
    assert SetMetadata(s, id, description, owner, PreviousOf(s, id)).1.quads
      == Rewrite(s.quads, id, owner, s.serial, d);
    hide SetMetadata, Rewrite, Rewritten, FindCollections, DefaultsOf, RelationsOf;
    RewriteQuadByQuad(s.quads, id, owner, s.serial, d);
  }

  lemma DescribedAfter(s: Stores, t: Stores, id: string, description: ResourceDescription, owner: string)
    requires t.registrations == s.registrations[id := Entry(owner, description)]
    ensures var d := DiffOf(id, description, PreviousOf(s, id));
      && (forall x | x != id :: DescribedDefaults(t, x) == DescribedDefaults(s, x))
      && (forall x | x != id :: DescribedRelations(t, x) == DescribedRelations(s, x))
      && DescribedDefaults(t, id) == DescribedDefaults(s, id) + d.newDefaults - d.lostDefaults
      && DescribedRelations(t, id) == DescribedRelations(s, id) + d.newRelations - d.lostRelations
  {
    assert DefaultsOf(None, id) == {} && RelationsOf(None) == {};
    hide DefaultsOf, RelationsOf;
  }

  lemma EffectConsistentIff(s: Stores, t: Stores, id: string, d: Diff)
    requires Consistent(s) && Effect(s, t, id, d)
    requires d.lostDefaults <= DescribedDefaults(s, id) && d.newRelations !! d.lostRelations
    requires forall m, x | m in d.lostDefaults :: m !in DescribedRelations(s, x)
    requires AllLive(d.newRelations, s.quads)
    ensures Consistent(t) <==> d.lostDefaults * d.newRelations == {}
  {
    hide FindCollections, DefaultsOf, RelationsOf;
    if m :| m in d.lostDefaults * d.newRelations {
      assert m in DescribedRelations(t, id) && !Live(m, t.quads);
    } else {
      forall x, m | m in DescribedDefaults(t, x) ensures Live(m, t.quads) {
        if m in d.lostDefaults {
          DefaultsNameTheirResource(s, id, m);
          DefaultsNameTheirResource(t, x, m);
        }
        assert m in d.newDefaults || m in DescribedDefaults(s, x);
      }
      forall x, m | m in DescribedRelations(t, x) ensures Live(m, t.quads) {
        assert m !in d.lostDefaults * d.newRelations;
        assert m in d.newRelations || m in DescribedRelations(s, x);
      }
    }
  }

  /** An accepted description keeps the stores consistent, unless it joins a collection that it drops.
      The check for an empty collection looks at the store before the update, so it misses that case. */
  lemma SetMetadataConsistentIff(s: Stores, id: string, description: ResourceDescription, owner: string)
    requires Consistent(s) && SetMetadata(s, id, description, owner, PreviousOf(s, id)).0.Accepted()
    ensures Consistent(SetMetadata(s, id, description, owner, PreviousOf(s, id)).1)
            <==> !JoinsWhatItDrops(s, id, description)
  {
    var d := DiffOf(id, description, PreviousOf(s, id));
    AcceptedDiff(s, id, description, owner);
    AcceptedEffect(s, id, description, owner);
    EffectConsistentIff(s, SetMetadata(s, id, description, owner, PreviousOf(s, id)).1, id, d);
  }

  lemma SameStoresConsistent(s: Stores, t: Stores)
    requires Consistent(s) && t.registrations == s.registrations && t.quads == s.quads
    ensures Consistent(t)
  {
    hide FindCollections, RelationsOf, DefaultsOf;
    forall x ensures DescribedDefaults(t, x) == DescribedDefaults(s, x)
             ensures DescribedRelations(t, x) == DescribedRelations(s, x) {}
  }

  /** Collections live as long as their own quads do. */
  lemma LiveFromSameQuads(m: Meta, quads: set<Quad>, after: set<Quad>)
    requires Shape(quads) && Shape(after)
    requires forall q: Quad | q.p in {Source, Relation, InverseOf} :: q in after <==> q in quads
    ensures Live(m, quads) <==> Live(m, after)
  {
    if Live(m, quads) { var b := TriplesOfLive(m, quads); LiveByTriples(m, after, b); }
    if Live(m, after) { var b := TriplesOfLive(m, after); LiveByTriples(m, quads, b); }
  }

  lemma RemoveKeepsConsistent(s: Stores, owner: string, id: string)
    requires Consistent(s)
    ensures var t := Remove(s, owner, id).1;
      Consistent(t) && t.registrations.Keys <= s.registrations.Keys && t.serial == s.serial
      && (forall x | x in t.registrations :: t.registrations[x] == s.registrations[x])
      && (forall m | Live(m, s.quads) :: Live(m, t.quads))
  {
    var t := Remove(s, owner, id).1;
    if t != s {
      hide FindCollections, RelationsOf, DefaultsOf, Disown;
      assert Shape(t.quads);
      forall m ensures Live(m, s.quads) <==> Live(m, t.quads) { LiveFromSameQuads(m, s.quads, t.quads); }
      forall x, m ensures PartOfCollection(x, m, t.quads) <==> m in DescribedRelations(t, x) {
        assert PartOfCollection(x, m, s.quads) <==> m in DescribedRelations(s, x);
      }
      forall x, m | m in DescribedDefaults(t, x) ensures Live(m, t.quads) { assert m in DescribedDefaults(s, x); }
      forall x, m | m in DescribedRelations(t, x) ensures Live(m, t.quads) { assert m in DescribedRelations(s, x); }
    }
  }

  // ----- two ways in which an accepted update loses something -----

  const CONTAINER := ResourceDescription(Some("a"), [], Some(Links(map["c" := ["r"]], map[])), None, [])
  const IN_ITSELF := ResourceDescription(Some("a"), [], None, Some(Links(map[], map["c" := ["a"]])), [])

  lemma ContainerMetas()
    ensures DefaultsOf(Some(CONTAINER), "a") == {Meta("c", "a", false)} && RelationsOf(Some(CONTAINER)) == {}
    ensures DefaultsOf(None, "a") == {} && RelationsOf(None) == {}
  {
    assert Meta("c", "a", false) in OwnMetas(map["c" := ["r"]], false, "a");
  }

  lemma NobodyIsPart(s: Stores, m: Meta)
    requires Consistent(s) && forall x :: m !in DescribedRelations(s, x)
    ensures QuadsTo(s.quads, PartOf, Collection(m)) == {}
  {
    hide FindCollections, DefaultsOf, RelationsOf;
    forall q | q in s.quads && q.s.Iri? ensures q.p != PartOf || q.o != Collection(m) {
      assert !PartOfCollection(q.s.value, m, s.quads);
    }
  }

  lemma ContainerIsCreated()
    ensures var (status, s) := Post(Empty, "o", CONTAINER, "");
      && status == Created("a") && Consistent(s)
      && s.registrations == map["a" := Entry("o", CONTAINER)]
      && DefaultsOf(Some(CONTAINER), "a") == {Meta("c", "a", false)}
      && QuadsTo(s.quads, PartOf, Collection(Meta("c", "a", false))) == {}
  {
    ContainerMetas();
    hide FindCollections, DefaultsOf, RelationsOf, Rewrite;
    assert DiffOf("a", CONTAINER, None) == Diff({Meta("c", "a", false)}, {}, {}, {});
    var t, s := SetMetadata(Empty, "a", CONTAINER, "o", None).1, Post(Empty, "o", CONTAINER, "").1;
    SetMetadataConsistentIff(Empty, "a", CONTAINER, "o");
    SameStoresConsistent(t, s);
    hide Consistent;
    NobodyIsPart(s, Meta("c", "a", false));
  }

  /** The smallest case of `JoinsWhatItDrops`: a container is created, then updated to drop its
      collection of contained resources and to become part of it. Both requests are accepted. */
  lemma DropAndJoinIsAccepted()
    ensures var (created, s) := Post(Empty, "o", CONTAINER, "");
      var (updated, t) := Put(s, "o", "a", IN_ITSELF);
      created == Created("a") && Consistent(s) && updated == Updated && !Consistent(t)
  {
    var s := Post(Empty, "o", CONTAINER, "").1;
    var m := Meta("c", "a", false);
    ContainerIsCreated();
    hide Post, FindCollections;
    assert RelationsOf(Some(IN_ITSELF)) == {m} by { assert m in LinkedMetas(map["c" := ["a"]], false); }
    assert m in DescribedDefaults(s, "a") && Live(m, s.quads);
    FoundIffLive({m}, s.quads);
    FoundIffLive({}, s.quads);
    var d := DiffOf("a", IN_ITSELF, PreviousOf(s, "a"));
    assert d == Diff({}, {m}, {m}, {});
    assert FindCollections(m, s.quads) == {Collection(m)};
    assert !Occupied(d.lostDefaults, s.quads);
    assert SetMetadata(s, "a", IN_ITSELF, "o", PreviousOf(s, "a")).0.Accepted();
    hide Consistent;
    SetMetadataConsistentIff(s, "a", IN_ITSELF, "o");
  }

  function DescribedDerivations(s: Stores, id: string): set<string> {
    if id in s.registrations then DerivationIds(Some(s.registrations[id].description)) else {}
  }

  /** Every derivation named by a registration has an issuer. */
  ghost predicate DerivationsKnown(s: Stores) {
    forall id, d | d in DescribedDerivations(s, id) :: d in s.derivations
  }

  lemma {:induction false} IssuersCover(entries: seq<Derivation>)
    ensures Issuers(entries).Keys == set e | e in entries :: e.id
  {
    if entries != [] {
      var n := |entries| - 1;
      IssuersCover(entries[..n]);
      assert entries == entries[..n] + [entries[n]];
    }
  }

  /** An accepted description keeps the issuer of every derivation in use, exactly when no other
      registration uses a derivation that it drops: the entry is deleted without looking. */
  lemma DerivationsKnownIff(s: Stores, id: string, description: ResourceDescription, owner: string)
    requires DerivationsKnown(s) && SetMetadata(s, id, description, owner, PreviousOf(s, id)).0.Accepted()
    ensures DerivationsKnown(SetMetadata(s, id, description, owner, PreviousOf(s, id)).1) <==>
      forall x | x != id ::
        DescribedDerivations(s, x) !! (DescribedDerivations(s, id) - DerivationIds(Some(description)))
  {
    var t := SetMetadata(s, id, description, owner, PreviousOf(s, id)).1;
    IssuersCover(description.derivedFrom);
    var lost := DescribedDerivations(s, id) - DerivationIds(Some(description));
    assert t.derivations.Keys == s.derivations.Keys + DerivationIds(Some(description)) - lost;
    hide SetMetadata;
    forall x | x != id ensures DescribedDerivations(t, x) == DescribedDerivations(s, x) {}
    if DerivationsKnown(t) {
      forall x | x != id ensures DescribedDerivations(s, x) !! lost {
        forall d | d in DescribedDerivations(s, x) ensures d !in lost { assert d in DescribedDerivations(t, x); }
      }
    } else {
      var x, d :| d in DescribedDerivations(t, x) && d !in t.derivations;
      assert x != id && d in DescribedDerivations(s, x) && d in lost;
    }
  }

  /** The entry is the last one of the description for its derivation. */
  predicate IsLast(entries: seq<Derivation>, k: int) {
    0 <= k < |entries| && forall j | k < j < |entries| :: entries[j].id != entries[k].id
  }

  predicate Names(entries: seq<Derivation>, d: string) {
    exists k | 0 <= k < |entries| :: entries[k].id == d
  }

  /** The last entry for each derivation gives its issuer, what only the old description names is gone, and everything
      else is as it was. */
  ghost predicate IssuersFollow(before: map<string, string>, after: map<string, string>, entries: seq<Derivation>,
                                previous: seq<Derivation>) {
    && (forall k | IsLast(entries, k) :: entries[k].id in after && after[entries[k].id] == entries[k].issuer)
    && (forall d | Names(previous, d) && !Names(entries, d) :: d !in after)
    && (forall d | !Names(previous, d) && !Names(entries, d) ::
          (d in after <==> d in before) && (d in after ==> after[d] == before[d]))
  }

  lemma {:induction false} IssuersAreLast(entries: seq<Derivation>)
    ensures forall d :: d in Issuers(entries) <==> Names(entries, d)
    ensures forall k | IsLast(entries, k) ::
      entries[k].id in Issuers(entries) && Issuers(entries)[entries[k].id] == entries[k].issuer
  {
    if entries != [] {
      var n := |entries| - 1;
      IssuersAreLast(entries[..n]);
      assert entries == entries[..n] + [entries[n]];
      forall d ensures Names(entries, d) <==> Names(entries[..n], d) || d == entries[n].id {
        if Names(entries[..n], d) { var k :| 0 <= k < n && entries[..n][k].id == d; assert entries[k].id == d; }
        if Names(entries, d) && d != entries[n].id {
          var k :| 0 <= k < |entries| && entries[k].id == d;
          assert entries[..n][k].id == d;
        }
      }
      forall k | IsLast(entries, k) && k < n
        ensures entries[k].id in Issuers(entries) && Issuers(entries)[entries[k].id] == entries[k].issuer
      {
        assert IsLast(entries[..n], k) && entries[..n][k] == entries[k];
      }
    }
  }

  lemma DerivationIdsAreNames(description: ResourceDescription)
    ensures forall d :: d in DerivationIds(Some(description)) <==> Names(description.derivedFrom, d)
  {
    forall d | d in DerivationIds(Some(description)) ensures Names(description.derivedFrom, d) {
      var e :| e in description.derivedFrom && e.id == d;
    }
  }

  function Derivations(description: Option<ResourceDescription>): seq<Derivation> {
    if description.None? then [] else description.value.derivedFrom
  }

  lemma UpdatedIssuers(before: map<string, string>, description: ResourceDescription,
                       previous: Option<ResourceDescription>)
    ensures IssuersFollow(before, UpdateDerivations(before, description, previous),
                          description.derivedFrom, Derivations(previous))
  {
    IssuersAreLast(description.derivedFrom);
    DerivationIdsAreNames(description);
    if previous.Some? { DerivationIdsAreNames(previous.value); }
    LastIsNamed(description.derivedFrom);
    assert DerivationIds(None) == {};
    assert previous.None? ==> forall d :: !Names(Derivations(previous), d);
    hide Issuers, DerivationIds, Names, IsLast;
  }

  lemma LastIsNamed(entries: seq<Derivation>)
    ensures forall k | IsLast(entries, k) :: 0 <= k < |entries| && Names(entries, entries[k].id)
  {}

  lemma MetadataDerivations(s: Stores, id: string, description: ResourceDescription, owner: string,
                            previous: Option<ResourceDescription>)
    ensures var (status, t) := SetMetadata(s, id, description, owner, previous);
      status.Accepted() ==> t.derivations == UpdateDerivations(s.derivations, description, previous)
  {
    hide Rewrite, DiffOf, Occupied, AllFound, UpdateDerivations;
  }

  /** An accepted registration or update stores, for each derivation that its description names, the issuer that it
      names last, also when another one was stored before; it forgets the derivations that only the old description
      names, and leaves all others alone. */
  lemma AcceptedIssuers(s: Stores, owner: string, id: string, body: ResourceDescription, uuid: string)
    ensures Post(s, owner, body, uuid).0.Accepted() ==>
      IssuersFollow(s.derivations, Post(s, owner, body, uuid).1.derivations, body.derivedFrom, [])
    ensures Put(s, owner, id, body).0.Accepted() ==>
      IssuersFollow(s.derivations, Put(s, owner, id, body).1.derivations, body.derivedFrom,
                    s.registrations[id].description.derivedFrom)
  {
    MetadataDerivations(s, NewId(body, uuid), body, owner, None);
    UpdatedIssuers(s.derivations, body, None);
    if id in s.registrations {
      MetadataDerivations(s, id, body, owner, Some(s.registrations[id].description));
      UpdatedIssuers(s.derivations, body, Some(s.registrations[id].description));
    }
    hide IssuersFollow, UpdateDerivations, SetMetadata;
  }

  const DERIVED_A := ResourceDescription(Some("a"), [], None, None, [Derivation("issuer", "d")])
  const DERIVED_B := DERIVED_A.(name := Some("b"))
  const UNDERIVED_A := DERIVED_A.(derivedFrom := [])

  /** A description without defaults and relations is always accepted. */
  lemma PlainMetadata(s: Stores, id: string, description: ResourceDescription, owner: string)
    requires description.defaults.None? && description.relations.None?
    requires id in s.registrations ==> s.registrations[id].description.defaults.None?
    requires id in s.registrations ==> s.registrations[id].description.relations.None?
    ensures var (status, t) := SetMetadata(s, id, description, owner, PreviousOf(s, id));
      status == Updated && t.registrations == s.registrations[id := Entry(owner, description)]
  {}

  lemma PlainPost(s: Stores, owner: string, body: ResourceDescription, id: string)
    requires DerivationsKnown(s) && body.defaults.None? && body.relations.None?
    requires body.name == Some(id) && id != "" && id !in s.registrations
    ensures var (status, t) := Post(s, owner, body, "");
      status == Created(id) && t.registrations == s.registrations[id := Entry(owner, body)] && DerivationsKnown(t)
  {
    PlainMetadata(s, id, body, owner);
    DerivationsKnownIff(s, id, body, owner);
    var m, t := SetMetadata(s, id, body, owner, None).1, Post(s, owner, body, "").1;
    hide SetMetadata;
    forall x ensures DescribedDerivations(t, x) == DescribedDerivations(m, x) {}
  }

  /** Two resources are registered with one derivation, and one of them is updated to drop it:
      all requests are accepted, and the derivation of the other has no issuer any more. */
  lemma SharedDerivationIsLost()
    ensures var (first, s) := Post(Empty, "o", DERIVED_A, "");
      var (second, t) := Post(s, "o", DERIVED_B, "");
      var (third, u) := Put(t, "o", "a", UNDERIVED_A);
      && first == Created("a") && second == Created("b") && third == Updated
      && DerivationsKnown(s) && DerivationsKnown(t) && !DerivationsKnown(u)
  {
    hide Post, SetMetadata, DerivationsKnown;
    NothingDerived();
    PlainPost(Empty, "o", DERIVED_A, "a");
    var s := Post(Empty, "o", DERIVED_A, "").1;
    PlainPost(s, "o", DERIVED_B, "b");
    var t := Post(s, "o", DERIVED_B, "").1;
    PlainMetadata(t, "a", UNDERIVED_A, "o");
    assert DERIVED_A.derivedFrom[0] == Derivation("issuer", "d");
    assert "d" in DescribedDerivations(t, "a") && "d" in DescribedDerivations(t, "b");
    DerivationsKnownIff(t, "a", UNDERIVED_A, "o");
  }

  lemma NothingDerived()
    ensures DerivationsKnown(Empty)
  {}
}
