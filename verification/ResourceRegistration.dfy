/** The registration endpoint as it runs: one object, four stores updated in place. */
module ResourceRegistration {
  import opened Rdf
  import opened RegistrationSpec
  import opened RegistrationTheory

  class ResourceRegistrationRequestHandler {
    var derivationStore: map<string, string>
    var registrationStore: map<string, Entry>
    var ownershipStore: map<string, seq<string>>
    var policies: set<Quad>
    var serial: nat

    ghost function View(): Stores
      reads this
    {
      Stores(registrationStore, ownershipStore, derivationStore, policies, serial)
    }

    constructor ()
      ensures View() == Empty
    {
      derivationStore, registrationStore, ownershipStore, policies, serial := map[], map[], map[], {}, 0;
    }

    // ----- requests -----

    method HandlePost(body: ResourceDescription, owner: string, uuid: string) returns (status: Status)
      modifies this
      ensures (status, View()) == Post(old(View()), owner, body, uuid)
    {
      var resource := uuid;
      if body.name.Some? && body.name.value != "" {
        resource := body.name.value;
        if resource in registrationStore { return Conflict; }
      }
      status := SetResourceMetadata(resource, body, owner, None);
      if !status.Accepted() {
        assert View() == old(View());
        return;
      }
      var owned := if owner in ownershipStore then ownershipStore[owner] else [];
      ownershipStore := ownershipStore[owner := owned + [resource]];
      return Created(resource);
    }

    method HandlePut(id: string, body: ResourceDescription, owner: string) returns (status: Status)
      modifies this
      ensures (status, View()) == Put(old(View()), owner, id, body)
    {
      if id !in registrationStore { return NotFound; }
      if registrationStore[id].owner != owner { return Forbidden; }
      status := SetResourceMetadata(id, body, owner, Some(registrationStore[id].description));
    }

    method HandleDelete(id: string, owner: string) returns (status: Status)
      modifies this
      ensures (status, View()) == RegistrationSpec.Remove(old(View()), owner, id)
    {
      if id !in registrationStore { return NotFound; }
      if registrationStore[id].owner != owner { return Forbidden; }
      registrationStore := registrationStore - {id};
      if owner in ownershipStore && id in ownershipStore[owner] {
        var rest := Without(ownershipStore[owner], id);
        if rest == [] {
          ownershipStore := ownershipStore - {owner};
        } else {
          ownershipStore := ownershipStore[owner := rest];
        }
      }
      policies := policies - set q | q in policies && q.s == Iri(id) && q.p == PartOf;
      return Removed;
    }

    // ----- metadata -----

    /** Computes all changes first: the stores are only written when nothing can fail any more. */
    method SetResourceMetadata(id: string, description: ResourceDescription, owner: string,
                               previous: Option<ResourceDescription>) returns (status: Status)
      modifies this
      ensures (status, View()) == SetMetadata(old(View()), id, description, owner, previous)
    {
      ghost var d := DiffOf(id, description, previous);
      var free, addCollections, removeCollections := UpdateCollections(id, owner, description, previous);
      if !free { return Conflict; }
      var found, addParts, removeParts := UpdateRelations(id, description, previous);
      if !found { return BadRequest; }
      assert Rewrite(policies, id, owner, serial, d)
          == (policies + (addCollections + addParts)) - (removeCollections + removeParts);
      policies := policies + (addCollections + addParts);
      policies := policies - (removeCollections + removeParts);
      serial := serial + 2;
      SetDerivations(description, previous);
      registrationStore := registrationStore[id := Entry(owner, description)];
      return Updated;
    }

    method SetDerivations(description: ResourceDescription, previous: Option<ResourceDescription>)
      modifies this`derivationStore
      ensures derivationStore == UpdateDerivations(old(derivationStore), description, previous)
      ensures IssuersFollow(old(derivationStore), derivationStore, description.derivedFrom, Derivations(previous))
    {
      hide Issuers, IssuersFollow;
      UpdatedIssuers(derivationStore, description, previous);
      var entries := description.derivedFrom;
      var removed := DerivationIds(previous);
      assert Issuers([]) == map[] by { IssuersOfPrefix(entries, 0); }
      for i := 0 to |entries|
        invariant derivationStore == old(derivationStore) + Issuers(entries[..i])
        invariant removed == DerivationIds(previous) - set e | e in entries[..i] :: e.id
      {
        IssuersOfPrefix(entries, i);
        assert entries[..i + 1] == entries[..i] + [entries[i]];
        derivationStore := derivationStore[entries[i].id := entries[i].issuer];
        removed := removed - {entries[i].id};
      }
      assert entries[..|entries|] == entries;
      RemoveDerivations(removed);
    }

    static lemma IssuersOfPrefix(entries: seq<Derivation>, i: nat)
      requires i <= |entries|
      ensures Issuers([]) == map[]
      ensures i < |entries| ==> Issuers(entries[..i + 1]) == Issuers(entries[..i])[entries[i].id := entries[i].issuer]
    {
      if i < |entries| { assert entries[..i + 1][..i] == entries[..i]; }
    }

    method RemoveDerivations(ids: set<string>)
      modifies this`derivationStore
      ensures derivationStore == old(derivationStore) - ids
    {
      var removed := ids;
      while removed != {}
        invariant removed <= ids
        invariant derivationStore == old(derivationStore) - (ids - removed)
      {
        var id :| id in removed;
        derivationStore := derivationStore - {id};
        removed := removed - {id};
      }
    }

    method UpdateCollections(id: string, owner: string, description: ResourceDescription,
                             previous: Option<ResourceDescription>)
      returns (free: bool, addQuads: set<Quad>, removeQuads: set<Quad>)
      ensures var d := DiffOf(id, description, previous);
        && (free <==> !Occupied(d.lostDefaults, policies))
        && (free ==> addQuads == NewCollectionTriples(d.newDefaults, policies, owner, serial))
        && (free ==> removeQuads == OldCollectionTriples(d.lostDefaults, policies, owner, serial + 1))
    {
      var add := CollectionMetadata(true, Some(description), id);
      var remove := CollectionMetadata(true, previous, id);
      add, remove := FilterRelationEntries(add, remove);
      addQuads, removeQuads := {}, {};
      var todo := add;
      while todo != {}
        invariant todo <= add
        invariant addQuads == NewCollectionTriples(add - todo, policies, owner, serial)
      {
        var entry :| entry in todo;
        if FindCollections(entry, policies) == {} {
          addQuads := addQuads + CollectionTriples(entry, owner, Collection(entry), serial);
        }
        todo := todo - {entry};
      }
      todo := remove;
      var next := serial + 1;
      while todo != {}
        invariant todo <= remove
        invariant !Occupied(remove - todo, policies)
        invariant removeQuads == OldCollectionTriples(remove - todo, policies, owner, next)
      {
        var entry :| entry in todo;
        var collections := FindCollections(entry, policies);
        if exists c | c in collections :: QuadsTo(policies, PartOf, c) != {} { return false, {}, {}; }
        removeQuads := removeQuads +
          set c, q | c in collections && q in CollectionTriples(entry, owner, c, next) :: q;
        todo := todo - {entry};
      }
      free := true;
    }

    method UpdateRelations(id: string, description: ResourceDescription, previous: Option<ResourceDescription>)
      returns (found: bool, addQuads: set<Quad>, removeQuads: set<Quad>)
      ensures var d := DiffOf(id, description, previous);
        && (found <==> AllFound(d.newRelations, policies) && AllFound(d.lostRelations, policies))
        && (found ==> addQuads == PartOfTriples(id, d.newRelations, policies))
        && (found ==> removeQuads == PartOfTriples(id, d.lostRelations, policies))
    {
      var add := CollectionMetadata(false, Some(description), id);
      var remove := CollectionMetadata(false, previous, id);
      add, remove := FilterRelationEntries(add, remove);
      found, addQuads := GeneratePartOfTriples(id, add);
      removeQuads := {};
      if found { found, removeQuads := GeneratePartOfTriples(id, remove); }
    }

    method GeneratePartOfTriples(id: string, entries: set<Meta>) returns (found: bool, quads: set<Quad>)
      ensures found <==> AllFound(entries, policies)
      ensures found ==> quads == PartOfTriples(id, entries, policies)
    {
      quads := {};
      var todo := entries;
      while todo != {}
        invariant todo <= entries
        invariant AllFound(entries - todo, policies)
        invariant quads == PartOfTriples(id, entries - todo, policies)
      {
        var entry :| entry in todo;
        var collections := FindCollections(entry, policies);
        if collections == {} { return false, {}; }
        quads := quads + set c | c in collections :: Quad(Iri(id), PartOf, c);
        todo := todo - {entry};
      }
      found := true;
    }

    // ----- entries -----

    /** The entries of one field of a description: its defaults, or else its relations. */
    static method CollectionMetadata(defaults: bool, description: Option<ResourceDescription>, id: string)
      returns (result: set<Meta>)
      ensures result == if defaults then DefaultsOf(description, id) else RelationsOf(description)
    {
      if description.None? { return {}; }
      var field := if defaults then description.value.defaults else description.value.relations;
      if field.None? { return {}; }
      var source := if defaults then Some(id) else None;
      var normal := EntriesToCollectionMetadata(field.value.normal, !defaults, source);
      var reverse := EntriesToCollectionMetadata(field.value.reverse, defaults, source);
      result := normal + reverse;
    }

    static method EntriesToCollectionMetadata(entries: map<string, seq<string>>, reverse: bool, id: Option<string>)
      returns (result: set<Meta>)
      ensures result == if id.Some? then OwnMetas(entries, reverse, id.value) else LinkedMetas(entries, reverse)
    {
      result := {};
      var todo := entries.Keys;
      while todo != {}
        invariant todo <= entries.Keys
        invariant forall m :: m in result <==> m.relation !in todo && Matches(m, entries, reverse, id)
      {
        var relation :| relation in todo;
        var value := entries[relation];
        if value != [] {
          var sources := if id.Some? then [id.value] else value;
          ghost var before := result;
          for i := 0 to |sources|
            invariant forall m :: m in result <==>
              m in before || (m.relation == relation && m.reverse == reverse && m.source in sources[..i])
          {
            result := result + {Meta(relation, sources[i], reverse)};
          }
          assert sources[..|sources|] == sources;
        }
        todo := todo - {relation};
      }
    }

    /** `m` stems from one of the entries. */
    static predicate Matches(m: Meta, entries: map<string, seq<string>>, reverse: bool, id: Option<string>) {
      && m.reverse == reverse && m.relation in entries && entries[m.relation] != []
      && if id.Some? then m.source == id.value else m.source in entries[m.relation]
    }

    /** Drops the entries present in both. */
    static method FilterRelationEntries(record1: set<Meta>, record2: set<Meta>)
      returns (only1: set<Meta>, only2: set<Meta>)
      ensures only1 == record1 - record2 && only2 == record2 - record1
    {
      only1, only2 := record1, record2;
      var todo := record1;
      while todo != {}
        invariant todo <= record1
        invariant only1 == record1 - (record2 * (record1 - todo))
        invariant only2 == record2 - (record1 - todo)
      {
        var key :| key in todo;
        if key in only2 {
          only1 := only1 - {key};
          only2 := only2 - {key};
        }
        todo := todo - {key};
      }
    }
  }
}
