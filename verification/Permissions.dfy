/** Requested and granted permissions, and the claims they are decided on. */
module Permissions {
  import opened Rdf

  datatype Permission = Permission(resource: Term, scopes: seq<Term>)

  /** A claim is a string, or a JSON value such as a credential or an access claim. */
  datatype ClaimValue =
    | Text(value: string)
    | Credential(serial: nat)
    | Access(resource: Term, scopes: seq<Term>)

  type ClaimSet = map<string, seq<ClaimValue>>

  type Authorizer = (ClaimSet, seq<Permission>) -> seq<Permission>

  const WEBID := "urn:solidlab:uma:claims:types:webid"
  const CLIENTID := "urn:solidlab:uma:claims:types:clientid"
  const ORIGINAL_WEBID := "urn:solidlab:uma:claims:types:original:webid"
  const ORIGINAL_CLIENTID := "urn:solidlab:uma:claims:types:original:clientid"
  const VC := "urn:solidlab:uma:claims:types:vc"
  const ACCESS := "urn:solidlab:uma:claims:types:access"

  function ClaimsFor(claims: ClaimSet, key: string): seq<ClaimValue> {
    if key in claims then claims[key] else []
  }

  /** The (resource, scope) pairs of a list of permissions. */
  function Pairs(permissions: seq<Permission>): set<(Term, Term)> {
    set p, s | p in permissions && s in p.scopes :: (p.resource, s)
  }

  /** An authorizer that grants nothing it was not asked for. */
  ghost predicate Bounded(authorizer: Authorizer) {
    forall claims, query :: Pairs(authorizer(claims, query)) <= Pairs(query)
  }

  lemma PairsAppend(a: seq<Permission>, b: seq<Permission>)
    ensures Pairs(a + b) == Pairs(a) + Pairs(b)
  {}
}
