/** The custom collection endpoint as it runs, on the stores of the registration endpoint. */
module CollectionHandler {
  import opened Rdf
  import opened RegistrationSpec
  import opened CollectionSpec
  import opened CollectionOwners
  import opened ResourceRegistration

  class CollectionRequestHandler {
    const resources: ResourceRegistrationRequestHandler

    constructor (resources: ResourceRegistrationRequestHandler)
      ensures this.resources == resources
    {
      this.resources := resources;
    }

    method HandlePost(user: string, body: CollectionBody, url: string) returns (status: Status)
      modifies resources`policies
      ensures (status, resources.View()) == PostCollection(old(resources.View()), user, body, url)
    {
      hide BodyQuads;
      var subject := Iri(url);
      var check, quads := DescriptionToQuads(body, user, subject);
      if check.Some? { return check.value; }
      resources.policies := resources.policies + quads;
      return Created(url);
    }

    /** Only the difference between the old and the new quads is written. */
    method HandlePut(user: string, url: string, body: CollectionBody) returns (status: Status)
      modifies resources`policies
      ensures (status, resources.View()) == PutCollection(old(resources.View()), user, url, body)
      ensures status.Accepted() ==> IsCreator(old(resources.policies), url, user)
    {
      var subject := Iri(url);
      MayChangeIff(resources.policies, url, user);
      hide BodyQuads, CollectionQuads, CheckOwnership, CheckBody, IsCreator, IsRelationCollection, HasCreator;
      var refused := VerifyOwnership(subject, user);
      if refused.Some? { return refused.value; }
      var check, newStore := DescriptionToQuads(body, user, subject);
      if check.Some? { return check.value; }
      var oldStore := CollectionQuads(resources.policies, subject);
      var add := newStore - oldStore;
      var remove := oldStore - newStore;
      WriteDifference(add, remove);
      return Updated;
    }

    method WriteDifference(add: set<Quad>, remove: set<Quad>)
      modifies resources`policies
      ensures resources.policies == (old(resources.policies) + add) - remove
    {
      if add != {} { resources.policies := resources.policies + add; }
      assert resources.policies == old(resources.policies) + add;
      if remove != {} { resources.policies := resources.policies - remove; }
      assert resources.policies == (old(resources.policies) + add) - remove;
    }

    method HandleDelete(user: string, url: string) returns (status: Status)
      modifies resources`policies
      ensures (status, resources.View()) == RemoveCollection(old(resources.View()), user, url)
      ensures status.Accepted() ==> IsCreator(old(resources.policies), url, user)
    {
      var subject := Iri(url);
      MayChangeIff(resources.policies, url, user);
      hide CollectionQuads, CheckOwnership, IsCreator, IsRelationCollection, HasCreator;
      var refused := VerifyOwnership(subject, user);
      if refused.Some? { return refused.value; }
      resources.policies := resources.policies - CollectionQuads(resources.policies, subject);
      return Removed;
    }

    method VerifyOwnership(subject: Term, user: string) returns (refused: Option<Status>)
      ensures refused == CheckOwnership(resources.policies, subject, user)
    {
      if ObjectsOf(resources.policies, subject, Relation) != {} { return Some(Forbidden); }
      var owners := ObjectsOf(resources.policies, subject, Creator);
      if |owners| == 0 { return Some(NotFound); }
      if Iri(user) !in owners { return Some(Forbidden); }
      return None;
    }

    method DescriptionToQuads(body: CollectionBody, user: string, subject: Term)
      returns (refused: Option<Status>, quads: set<Quad>)
      ensures refused == CheckBody(resources.View(), user, body)
      ensures refused.None? ==> quads == BodyQuads(body, user, subject)
    {
      match body
      case Party(_, owners, _) =>
        if user !in owners { return Some(BadRequest), {}; }
        return None, BodyQuads(body, user, subject);
      case Asset(_, parts) =>
        var owned := if user in resources.ownershipStore then resources.ownershipStore[user] else [];
        for i := 0 to |parts|
          invariant forall p | p in parts[..i] :: p in owned
        {
          assert parts[..i + 1] == parts[..i] + [parts[i]];
          if parts[i] !in owned {
            assert parts[i] in parts;
            return Some(Forbidden), {};
          }
        }
        assert parts[..|parts|] == parts;
        return None, BodyQuads(body, user, subject);
    }
  }
}
