/** What the resource registration endpoint computes, on values:
    four stores, and how POST, PUT and DELETE change them. */
module RegistrationSpec {
  import opened Rdf

  datatype Links = Links(normal: map<string, seq<string>>, reverse: map<string, seq<string>>)

  datatype Derivation = Derivation(issuer: string, id: string)

  datatype ResourceDescription = ResourceDescription(
    name: Option<string>,
    scopes: seq<string>,
    defaults: Option<Links>,
    relations: Option<Links>,
    derivedFrom: seq<Derivation>)

  datatype Entry = Entry(owner: string, description: ResourceDescription)

  datatype Stores = Stores(
    registrations: map<string, Entry>,
    ownership: map<string, seq<string>>,
    derivations: map<string, string>,
    quads: set<Quad>,
    serial: nat)

  datatype Status = Created(id: string) | Updated | Removed | BadRequest | Forbidden | NotFound | Conflict {
    predicate Accepted() { Created? || Updated? || Removed? }
  }

  const Empty := Stores(map[], map[], map[], {}, 0)

  // ----- collection metadata -----

  /** The collections whose source is the described resource `id` itself. */
  function OwnMetas(entries: map<string, seq<string>>, reverse: bool, id: string): set<Meta> {
    set r | r in entries && entries[r] != [] :: Meta(r, id, reverse)
  }

  /** The collections whose sources are the listed values. */
  function LinkedMetas(entries: map<string, seq<string>>, reverse: bool): set<Meta> {
    set r, s | r in entries && s in entries[r] :: Meta(r, s, reverse)
  }

  function DefaultsOf(description: Option<ResourceDescription>, id: string): set<Meta> {
    if description.None? || description.value.defaults.None? then {} else
    var links := description.value.defaults.value;
    OwnMetas(links.normal, false, id) + OwnMetas(links.reverse, true, id)
  }

  function RelationsOf(description: Option<ResourceDescription>): set<Meta> {
    if description.None? || description.value.relations.None? then {} else
    var links := description.value.relations.value;
    LinkedMetas(links.normal, true) + LinkedMetas(links.reverse, false)
  }

  // ----- quads -----

  function FindCollections(m: Meta, quads: set<Quad>): set<Term> {
    if m.reverse then
      set q, b | q in quads && q.p == Source && q.o == Iri(m.source)
              && b in quads && b.s == q.s && b.p == Relation
              && Quad(b.o, InverseOf, Iri(m.relation)) in quads :: q.s
    else
      set q | q in quads && q.p == Source && q.o == Iri(m.source)
           && Quad(q.s, Relation, Iri(m.relation)) in quads :: q.s
  }

  function CollectionTriples(m: Meta, owner: string, c: Term, serial: nat): set<Quad> {
    { Quad(c, RdfType, Known(AssetCollection)),
      Quad(c, Source, Iri(m.source)),
      Quad(c, Creator, Iri(owner)) } +
    if m.reverse then
      { Quad(c, Relation, Blank(serial, c)),
        Quad(Blank(serial, c), InverseOf, Iri(m.relation)) }
    else
      { Quad(c, Relation, Iri(m.relation)) }
  }

  function NewCollectionTriples(metas: set<Meta>, quads: set<Quad>, owner: string, serial: nat): set<Quad> {
    set m, q | m in metas && FindCollections(m, quads) == {}
            && q in CollectionTriples(m, owner, Collection(m), serial) :: q
  }

  function OldCollectionTriples(metas: set<Meta>, quads: set<Quad>, owner: string, serial: nat): set<Quad> {
    set m, c, q | m in metas && c in FindCollections(m, quads)
               && q in CollectionTriples(m, owner, c, serial) :: q
  }

  function PartOfTriples(id: string, metas: set<Meta>, quads: set<Quad>): set<Quad> {
    set m, c | m in metas && c in FindCollections(m, quads) :: Quad(Iri(id), PartOf, c)
  }

  /** The entries that one description gains and loses with respect to the previous one. */
  datatype Diff = Diff(newDefaults: set<Meta>, lostDefaults: set<Meta>,
                       newRelations: set<Meta>, lostRelations: set<Meta>)

  function DiffOf(id: string, description: ResourceDescription, previous: Option<ResourceDescription>): Diff {
    Diff(DefaultsOf(Some(description), id) - DefaultsOf(previous, id),
         DefaultsOf(previous, id) - DefaultsOf(Some(description), id),
         RelationsOf(Some(description)) - RelationsOf(previous),
         RelationsOf(previous) - RelationsOf(Some(description)))
  }

  /** The policy store after one update. What is both added and removed ends up removed. */
  function Rewrite(quads: set<Quad>, id: string, owner: string, serial: nat, d: Diff): set<Quad> {
    (quads + NewCollectionTriples(d.newDefaults, quads, owner, serial) + PartOfTriples(id, d.newRelations, quads))
    - OldCollectionTriples(d.lostDefaults, quads, owner, serial + 1) - PartOfTriples(id, d.lostRelations, quads)
  }

  predicate Occupied(metas: set<Meta>, quads: set<Quad>) {
    exists m, c | m in metas && c in FindCollections(m, quads) :: QuadsTo(quads, PartOf, c) != {}
  }

  predicate AllFound(metas: set<Meta>, quads: set<Quad>) {
    forall m | m in metas :: FindCollections(m, quads) != {}
  }

  // ----- derivations -----

  function DerivationIds(description: Option<ResourceDescription>): set<string> {
    if description.None? then {} else set e | e in description.value.derivedFrom :: e.id
  }

  /** The issuer of the last entry of `entries` for each derivation id. */
  function Issuers(entries: seq<Derivation>): map<string, string> {
    if entries == [] then map[]
    else var last := entries[|entries| - 1];
         Issuers(entries[..|entries| - 1])[last.id := last.issuer]
  }

  function UpdateDerivations(store: map<string, string>, description: ResourceDescription,
                             previous: Option<ResourceDescription>): map<string, string> {
    (store + Issuers(description.derivedFrom)) - (DerivationIds(previous) - DerivationIds(Some(description)))
  }

  // ----- requests -----

  /** Replaces the description of `id`; an error leaves the stores as they were. */
  function SetMetadata(s: Stores, id: string, description: ResourceDescription, owner: string,
                       previous: Option<ResourceDescription>): (Status, Stores) {
    var d := DiffOf(id, description, previous);
    if Occupied(d.lostDefaults, s.quads) then (Conflict, s)
    else if !AllFound(d.newRelations, s.quads) then (BadRequest, s)
    else if !AllFound(d.lostRelations, s.quads) then (BadRequest, s)
    else (Updated, Stores(
      s.registrations[id := Entry(owner, description)],
      s.ownership,
      UpdateDerivations(s.derivations, description, previous),
      Rewrite(s.quads, id, owner, s.serial, d),
      s.serial + 2))
  }

  function Owned(s: Stores, owner: string): seq<string> {
    if owner in s.ownership then s.ownership[owner] else []
  }

  /** The identifier a POST uses: the name when there is one, otherwise the given random one. */
  function NewId(body: ResourceDescription, uuid: string): string {
    if body.name.Some? && body.name.value != "" then body.name.value else uuid
  }

  function Post(s: Stores, owner: string, body: ResourceDescription, uuid: string): (Status, Stores) {
    var id := NewId(body, uuid);
    if body.name.Some? && body.name.value != "" && id in s.registrations then (Conflict, s) else
    var (status, t) := SetMetadata(s, id, body, owner, None);
    if !status.Accepted() then (status, s)
    else (Created(id), t.(ownership := s.ownership[owner := Owned(s, owner) + [id]]))
  }

  function Put(s: Stores, owner: string, id: string, body: ResourceDescription): (Status, Stores) {
    if id !in s.registrations then (NotFound, s)
    else if s.registrations[id].owner != owner then (Forbidden, s)
    else SetMetadata(s, id, body, owner, Some(s.registrations[id].description))
  }

  /** The list without the first occurrence of `x`. */
  function Without(list: seq<string>, x: string): seq<string> {
    if list == [] then [] else if list[0] == x then list[1..] else [list[0]] + Without(list[1..], x)
  }

  function Disown(ownership: map<string, seq<string>>, owner: string, id: string): map<string, seq<string>> {
    if owner !in ownership || id !in ownership[owner] then ownership
    else
      var rest := Without(ownership[owner], id);
      if rest == [] then ownership - {owner} else ownership[owner := rest]
  }

  function Remove(s: Stores, owner: string, id: string): (Status, Stores) {
    if id !in s.registrations then (NotFound, s)
    else if s.registrations[id].owner != owner then (Forbidden, s)
    else (Removed, s.(registrations := s.registrations - {id},
                      ownership := Disown(s.ownership, owner, id),
                      quads := s.quads - set q | q in s.quads && q.s == Iri(id) && q.p == PartOf))
  }
}
