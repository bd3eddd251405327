/** What the custom collection endpoint computes, on the same stores. */
module CollectionSpec {
  import opened Rdf
  import opened RegistrationSpec

  datatype CollectionBody =
    | Asset(description: string, parts: seq<string>)
    | Party(description: string, owners: seq<string>, parts: seq<string>)

  function BodyQuads(body: CollectionBody, user: string, subject: Term): set<Quad> {
    var creators := if body.Party? then body.owners else [user];
    { Quad(subject, RdfType, Known(if body.Asset? then AssetCollection else PartyCollection)) }
    + (if body.description == "" then {} else { Quad(subject, Description, Literal(body.description)) })
    + (set c | c in creators :: Quad(subject, Creator, Iri(c)))
    + (set p | p in body.parts :: Quad(Iri(p), PartOf, subject))
  }

  /** What a request on one collection replaces or removes. */
  function CollectionQuads(quads: set<Quad>, subject: Term): set<Quad> {
    QuadsOf(quads, subject) + QuadsTo(quads, PartOf, subject)
  }

  function CheckBody(s: Stores, user: string, body: CollectionBody): Option<Status> {
    match body
    case Party(_, owners, _) => if user in owners then None else Some(BadRequest)
    case Asset(_, parts) => if forall p | p in parts :: p in Owned(s, user) then None else Some(Forbidden)
  }

  /** None when the user may change the collection. */
  function CheckOwnership(quads: set<Quad>, subject: Term, user: string): Option<Status> {
    var owners := ObjectsOf(quads, subject, Creator);
    if ObjectsOf(quads, subject, Relation) != {} then Some(Forbidden)
    else if owners == {} then Some(NotFound)
    else if Iri(user) !in owners then Some(Forbidden)
    else None
  }

  /** `url` is the random URL of the new collection. Like any string it may also be the name of a resource. */
  function PostCollection(s: Stores, user: string, body: CollectionBody, url: string): (Status, Stores) {
    var check := CheckBody(s, user, body);
    if check.Some? then (check.value, s)
    else (Created(url), s.(quads := s.quads + BodyQuads(body, user, Iri(url))))
  }

  function PutCollection(s: Stores, user: string, url: string, body: CollectionBody): (Status, Stores) {
    var subject := Iri(url);
    var ownership := CheckOwnership(s.quads, subject, user);
    if ownership.Some? then (ownership.value, s) else
    var check := CheckBody(s, user, body);
    if check.Some? then (check.value, s) else
    var before, after := CollectionQuads(s.quads, subject), BodyQuads(body, user, subject);
    (Updated, s.(quads := (s.quads + (after - before)) - (before - after)))
  }

  function RemoveCollection(s: Stores, user: string, url: string): (Status, Stores) {
    var subject := Iri(url);
    var ownership := CheckOwnership(s.quads, subject, user);
    if ownership.Some? then (ownership.value, s)
    else (Removed, s.(quads := s.quads - CollectionQuads(s.quads, subject)))
  }
}
