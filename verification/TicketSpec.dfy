/** What the ticketing strategies compute, on values: a ticket is created for some permissions,
    collects claims, and is resolved to granted permissions or to what is still missing. */
module TicketSpec {
  import opened Rdf
  import opened Permissions

  datatype TicketValue = TicketValue(derivedIds: seq<Term>, permissions: seq<Permission>, provided: ClaimSet)

  datatype RequiredClaim =
    | MissingScopes(scopes: set<Term>)
    | MissingAccess(issuer: string, id: Term)

  datatype Resolution = Granted(permissions: seq<Permission>) | Required(claims: seq<RequiredClaim>) | Broken

  /** What the strategies are configured with, and what the stores they consult contain. */
  datatype Setup = Setup(
    authorizer: Authorizer,
    allowPartial: bool,
    derivedFrom: map<Term, seq<Term>>,
    issuers: map<Term, string>,
    decode: Term -> Option<Term>)

  const READ_SOURCE := Known(DerivationRead)

  // ----- claims -----

  /** For each type of claim, the earlier values and then the new ones. */
  function Merge(provided: ClaimSet, claims: ClaimSet): ClaimSet {
    map key | key in provided.Keys + claims.Keys :: ClaimsFor(provided, key) + ClaimsFor(claims, key)
  }

  /** The resources for which the claims prove derivation-read access. */
  function ReadIds(claims: ClaimSet): set<Term> {
    set c | c in ClaimsFor(claims, ACCESS) && c.Access? && READ_SOURCE in c.scopes :: c.resource
  }

  // ----- creation -----

  function SourcesOf(setup: Setup, resource: Term): seq<Term> {
    if resource in setup.derivedFrom then setup.derivedFrom[resource] else []
  }

  function AllSources(setup: Setup, permissions: seq<Permission>): seq<Term> {
    if permissions == [] then []
    else SourcesOf(setup, permissions[0].resource) + AllSources(setup, permissions[1..])
  }

  function SourcePermissions(ids: seq<Term>): seq<Permission> {
    seq(|ids|, i requires 0 <= i < |ids| => Permission(ids[i], [READ_SOURCE]))
  }

  /** None when a derived resource is requested with anything but a single read scope. */
  function Initialize(setup: Setup, permissions: seq<Permission>): Option<TicketValue> {
    if exists p | p in permissions :: SourcesOf(setup, p.resource) != [] && p.scopes != [Known(Read)] then None else
    var ids := AllSources(setup, permissions);
    Some(TicketValue(ids, permissions + SourcePermissions(ids), map[]))
  }

  // ----- validation -----

  function WithoutScope(scopes: seq<Term>, scope: Term): seq<Term> {
    if scopes == [] then []
    else (if scopes[0] == scope then [] else [scopes[0]]) + WithoutScope(scopes[1..], scope)
  }

  /** A permission that stands for access to a source of the requested resource. */
  predicate IsSource(derivedIds: seq<Term>, p: Permission) {
    p.resource in derivedIds && READ_SOURCE in p.scopes
  }

  function SatisfyOne(derivedIds: seq<Term>, read: set<Term>, p: Permission): seq<Permission> {
    if !IsSource(derivedIds, p) || p.resource !in read then [p] else
    var remaining := WithoutScope(p.scopes, READ_SOURCE);
    if remaining == [] then [] else [Permission(p.resource, remaining)]
  }

  /** Drops the derivation-read scopes for which access was proved. */
  function Satisfy(derivedIds: seq<Term>, read: set<Term>, permissions: seq<Permission>): seq<Permission> {
    if permissions == [] then []
    else SatisfyOne(derivedIds, read, permissions[0]) + Satisfy(derivedIds, read, permissions[1..])
  }

  /** The permission names a resource of this server by an identifier that was given to an aggregator. */
  predicate IsEncoded(setup: Setup, derivedIds: seq<Term>, p: Permission) {
    p.resource !in derivedIds && READ_SOURCE in p.scopes && setup.decode(p.resource).Some?
  }

  function DecodeOne(setup: Setup, derivedIds: seq<Term>, p: Permission): Permission {
    if IsEncoded(setup, derivedIds, p) then p.(resource := setup.decode(p.resource).value) else p
  }

  function Decode(setup: Setup, derivedIds: seq<Term>, permissions: seq<Permission>): seq<Permission> {
    seq(|permissions|, i requires 0 <= i < |permissions| => DecodeOne(setup, derivedIds, permissions[i]))
  }

  /** For each decoded identifier, the last identifier that decoded to it. */
  function DecodedIds(setup: Setup, derivedIds: seq<Term>, permissions: seq<Permission>): map<Term, Term> {
    if permissions == [] then map[] else
    var n := |permissions| - 1;
    var before := DecodedIds(setup, derivedIds, permissions[..n]);
    if IsEncoded(setup, derivedIds, permissions[n])
    then before[setup.decode(permissions[n].resource).value := permissions[n].resource]
    else before
  }

  function EncodeOne(decodedIds: map<Term, Term>, p: Permission): Permission {
    if p.resource in decodedIds then p.(resource := decodedIds[p.resource]) else p
  }

  function Encode(decodedIds: map<Term, Term>, permissions: seq<Permission>): seq<Permission> {
    seq(|permissions|, i requires 0 <= i < |permissions| => EncodeOne(decodedIds, permissions[i]))
  }

  /** The ticket after one set of claims. */
  function Validate(setup: Setup, t: TicketValue, claims: ClaimSet): TicketValue {
    var permissions := Satisfy(t.derivedIds, ReadIds(claims), t.permissions);
    t.(permissions := Encode(DecodedIds(setup, t.derivedIds, permissions), Decode(setup, t.derivedIds, permissions)),
       provided := Merge(t.provided, claims))
  }

  // ----- resolution -----

  function NonEmpty(permissions: seq<Permission>): seq<Permission> {
    if permissions == [] then []
    else (if permissions[0].scopes == [] then [] else [permissions[0]]) + NonEmpty(permissions[1..])
  }

  function Ungranted(granted: seq<Permission>, p: Permission): set<Term> {
    set s | s in p.scopes && (p.resource, s) !in Pairs(granted)
  }

  /** The scopes that were not granted, for each required permission that lacks some. */
  function Unmatched(granted: seq<Permission>, required: seq<Permission>): seq<RequiredClaim> {
    if required == [] then [] else
    var missing := Ungranted(granted, required[0]);
    (if missing == {} then [] else [MissingScopes(missing)]) + Unmatched(granted, required[1..])
  }

  function ResolveImmediately(authorizer: Authorizer, allowPartial: bool, permissions: seq<Permission>,
                              provided: ClaimSet): Resolution
  {
    var granted := NonEmpty(authorizer(provided, permissions));
    if granted == [] then Required([])
    else if allowPartial then Granted(granted)
    else if Unmatched(granted, permissions) != [] then Required(Unmatched(granted, permissions))
    else Granted(granted)
  }

  predicate HasIssuer(setup: Setup, id: Term) {
    id in setup.issuers && setup.issuers[id] != ""
  }

  function IssuerOf(setup: Setup, id: Term): string {
    if id in setup.issuers then setup.issuers[id] else ""
  }

  function SourcesMissing(setup: Setup, derivedIds: seq<Term>, permissions: seq<Permission>): seq<RequiredClaim> {
    if permissions == [] then []
    else (if IsSource(derivedIds, permissions[0])
          then [MissingAccess(IssuerOf(setup, permissions[0].resource), permissions[0].resource)] else [])
         + SourcesMissing(setup, derivedIds, permissions[1..])
  }

  function Resolve(setup: Setup, t: TicketValue): Resolution {
    if exists p | p in t.permissions :: IsSource(t.derivedIds, p) && !HasIssuer(setup, p.resource) then Broken else
    var missing := SourcesMissing(setup, t.derivedIds, t.permissions);
    var decoded := Decode(setup, t.derivedIds, t.permissions);
    match ResolveImmediately(setup.authorizer, setup.allowPartial, decoded, t.provided)
    case Granted(granted) =>
      if missing != [] then Required(missing)
      else Granted(Encode(DecodedIds(setup, t.derivedIds, t.permissions), granted))
    case Required(claims) => Required(claims + missing)
    case Broken => Broken
  }

  /** Whether a response is marked as partial. */
  predicate IsPartial(requested: seq<Permission>, granted: seq<Permission>) {
    || |requested| != |granted|
    || exists r | r in requested :: forall g | g in granted ::
         g.resource != r.resource || |g.scopes| != |r.scopes| || exists s | s in r.scopes :: s !in g.scopes
  }
}
