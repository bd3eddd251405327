/** What can be read back of a custom collection after it was created, replaced or removed. */
module CollectionTheory {
  import opened Rdf
  import opened RegistrationSpec
  import opened CollectionSpec
  import opened AuthorizationServer

  /** The store describes the collection by exactly this body. */
  ghost predicate Reads(quads: set<Quad>, subject: Term, body: CollectionBody, user: string) {
    && ObjectsOf(quads, subject, RdfType) == {Known(if body.Asset? then AssetCollection else PartyCollection)}
    && ObjectsOf(quads, subject, Description) == (if body.description == "" then {} else {Literal(body.description)})
    && ObjectsOf(quads, subject, Creator) == (set c | c in (if body.Party? then body.owners else [user]) :: Iri(c))
    && SubjectsOf(quads, PartOf, subject) == (set p | p in body.parts :: Iri(p))
    && ObjectsOf(quads, subject, Relation) == {}
  }

  /** Nothing about any other subject or collection changed. */
  ghost predicate OnlyAbout(quads: set<Quad>, after: set<Quad>, subject: Term) {
    forall q: Quad | q.s != subject && !(q.p == PartOf && q.o == subject) :: q in after <==> q in quads
  }

  lemma BodyQuad(body: CollectionBody, user: string, subject: Term, q: Quad)
    requires q in BodyQuads(body, user, subject)
    ensures q.p == RdfType ==> q.o == Known(if body.Asset? then AssetCollection else PartyCollection)
    ensures q.p == Description ==> body.description != "" && q.o == Literal(body.description)
    ensures q.p == Creator ==> exists c | c in (if body.Party? then body.owners else [user]) :: q.o == Iri(c)
    ensures q.p == PartOf ==> exists p | p in body.parts :: q.s == Iri(p)
    ensures q.p != Relation
  {}

  lemma BodyHas(body: CollectionBody, user: string, subject: Term)
    ensures var quads := BodyQuads(body, user, subject);
      && Quad(subject, RdfType, Known(if body.Asset? then AssetCollection else PartyCollection)) in quads
      && (body.description != "" ==> Quad(subject, Description, Literal(body.description)) in quads)
      && (forall c | c in (if body.Party? then body.owners else [user]) :: Quad(subject, Creator, Iri(c)) in quads)
      && (forall p | p in body.parts :: Quad(Iri(p), PartOf, subject) in quads)
  {}

  lemma BodyReads(body: CollectionBody, user: string, subject: Term)
    requires subject.Iri?
    ensures Reads(BodyQuads(body, user, subject), subject, body, user)
    ensures AboutOnly(BodyQuads(body, user, subject), subject)
  {
    hide ObjectsOf, BodyQuads;
    var quads := BodyQuads(body, user, subject);
    BodyIsAboutSubject(body, user, subject);
    BodyHas(body, user, subject);
    forall q | q in quads && q.p != PartOf
      ensures q.p == RdfType ==> q.o == Known(if body.Asset? then AssetCollection else PartyCollection)
      ensures q.p == Description ==> body.description != "" && q.o == Literal(body.description)
      ensures q.p == Creator ==> exists c | c in (if body.Party? then body.owners else [user]) :: q.o == Iri(c)
      ensures q.p != Relation
    {
      BodyQuad(body, user, subject, q);
    }
    forall q | q in quads && q.p == PartOf ensures exists p | p in body.parts :: q.s == Iri(p) {
      BodyQuad(body, user, subject, q);
    }
    hide AboutOnly;
    var creators := if body.Party? then body.owners else [user];
    ObjectsAre(quads, subject, RdfType, {Known(if body.Asset? then AssetCollection else PartyCollection)});
    ObjectsAre(quads, subject, Description, if body.description == "" then {} else {Literal(body.description)});
    ObjectsAre(quads, subject, Creator, set c | c in creators :: Iri(c));
    ObjectsAre(quads, subject, Relation, {});
    forall p | p in body.parts ensures Iri(p) in SubjectsOf(quads, PartOf, subject) {
      assert Quad(Iri(p), PartOf, subject) in quads;
    }
  }

  lemma ReadsOfReplaced(quads: set<Quad>, after: set<Quad>, body: CollectionBody, user: string, subject: Term)
    requires subject.Iri?
    requires forall q: Quad :: q in after <==>
      if q.s == subject || (q.p == PartOf && q.o == subject) then q in BodyQuads(body, user, subject) else q in quads
    ensures Reads(after, subject, body, user) && OnlyAbout(quads, after, subject)
  {
    BodyReads(body, user, subject);
    var own := BodyQuads(body, user, subject);
    hide BodyQuads;
    forall p ensures ObjectsOf(after, subject, p) == ObjectsOf(own, subject, p) {}
    assert SubjectsOf(after, PartOf, subject) == SubjectsOf(own, PartOf, subject);
    hide ObjectsOf, SubjectsOf;
  }

  /** A new collection reads as its description; what is known of others stays, if its URL is fresh. */
  lemma PostedReadsBack(s: Stores, user: string, body: CollectionBody, url: string)
    requires PostCollection(s, user, body, url).0.Accepted()
    requires CollectionQuads(s.quads, Iri(url)) == {}
    ensures var after := PostCollection(s, user, body, url).1.quads;
      Reads(after, Iri(url), body, user) && OnlyAbout(s.quads, after, Iri(url))
  {
    hide BodyQuads, Reads, AboutOnly, CollectionQuads;
    var subject := Iri(url);
    BodyReads(body, user, subject);
    ReplacesNothing(s.quads, BodyQuads(body, user, subject), subject);
    ReadsOfReplaced(s.quads, PostCollection(s, user, body, url).1.quads, body, user, subject);
  }

  lemma ReplacesNothing(quads: set<Quad>, own: set<Quad>, subject: Term)
    requires CollectionQuads(quads, subject) == {} && AboutOnly(own, subject)
    ensures forall q: Quad :: q in quads + own <==>
      if q.s == subject || (q.p == PartOf && q.o == subject) then q in own else q in quads
  {
    assert forall q | q in quads :: q !in CollectionQuads(quads, subject);
  }

  /** A replaced collection reads as the new description: nothing of the old one is left. */
  lemma PutReadsBack(s: Stores, user: string, url: string, body: CollectionBody)
    requires PutCollection(s, user, url, body).0.Accepted()
    ensures var after := PutCollection(s, user, url, body).1.quads;
      Reads(after, Iri(url), body, user) && OnlyAbout(s.quads, after, Iri(url))
  {
    var subject := Iri(url);
    BodyIsAboutSubject(body, user, subject);
    PutReplaces(s, user, url, body);
    hide BodyQuads, Reads, PutCollection, CollectionQuads, AboutOnly;
    ReadsOfReplaced(s.quads, PutCollection(s, user, url, body).1.quads, body, user, subject);
  }

  /** Of a removed collection nothing is left, and it is not found again. */
  lemma RemovedIsGone(s: Stores, user: string, url: string)
    requires RemoveCollection(s, user, url).0.Accepted()
    ensures var after := RemoveCollection(s, user, url).1.quads;
      CollectionQuads(after, Iri(url)) == {} && OnlyAbout(s.quads, after, Iri(url))
    ensures CheckOwnership(RemoveCollection(s, user, url).1.quads, Iri(url), user) == Some(NotFound)
  {}
}
