/** What becomes of a ticket, in terms of its permissions and of what the authorizer answers. */
module TicketMeaning {
  import opened Rdf
  import opened Permissions
  import opened TicketSpec
  import opened TicketTheory

  // ----- new tickets -----

  /** The resource was derived from others. */
  predicate IsDerived(setup: Setup, resource: Term) {
    resource in setup.derivedFrom && |setup.derivedFrom[resource]| > 0
  }

  /** A derived resource can be requested for a single read and nothing else. Otherwise the sources that the ticket has
      to prove access to are exactly those of the requested resources. */
  lemma NewTickets(setup: Setup, permissions: seq<Permission>)
    ensures Initialize(setup, permissions).None? <==>
      exists k | 0 <= k < |permissions| :: IsDerived(setup, permissions[k].resource)
                                        && permissions[k].scopes != [Known(Read)]
    ensures Initialize(setup, permissions).Some? ==> forall d ::
      d in Initialize(setup, permissions).value.derivedIds <==>
        exists p | p in permissions :: p.resource in setup.derivedFrom && d in setup.derivedFrom[p.resource]
  {
    SourcesComplete(setup, permissions);
    hide AllSources;
    if exists p | p in permissions :: SourcesOf(setup, p.resource) != [] && p.scopes != [Known(Read)] {
      var p :| p in permissions && SourcesOf(setup, p.resource) != [] && p.scopes != [Known(Read)];
      var k :| 0 <= k < |permissions| && permissions[k] == p;
    }
  }

  // ----- what the authorizer is asked -----

  /** The permission uses an identifier that stands for a resource of this server: it asks for derivation-read access,
      does not name a source of its own ticket, and can be decoded. */
  predicate StandsFor(setup: Setup, t: TicketValue, p: Permission, resource: Term) {
    && Known(DerivationRead) in p.scopes && p.resource !in t.derivedIds
    && setup.decode(p.resource) == Some(resource)
  }

  /** The query has the permissions of the ticket, with the resources that identifiers stand for in place of them. */
  ghost predicate IsQuery(setup: Setup, t: TicketValue, query: seq<Permission>) {
    && |query| == |t.permissions|
    && forall i | 0 <= i < |query| ::
         && query[i].scopes == t.permissions[i].scopes
         && (query[i].resource == t.permissions[i].resource
             || StandsFor(setup, t, t.permissions[i], query[i].resource))
         && forall x | StandsFor(setup, t, t.permissions[i], x) :: query[i].resource == x
  }

  lemma DecodedIsQuery(setup: Setup, t: TicketValue)
    ensures IsQuery(setup, t, Decode(setup, t.derivedIds, t.permissions))
  {}

  lemma QueryIsDecoded(setup: Setup, t: TicketValue, query: seq<Permission>)
    requires IsQuery(setup, t, query)
    ensures query == Decode(setup, t.derivedIds, t.permissions)
  {
    var decoded := Decode(setup, t.derivedIds, t.permissions);
    forall i | 0 <= i < |query| ensures query[i] == decoded[i] {
      var p := t.permissions[i];
      if IsEncoded(setup, t.derivedIds, p) { assert StandsFor(setup, t, p, setup.decode(p.resource).value); }
    }
  }

  // ----- what a ticket is resolved to -----

  /** The ticket still requires access to this source. */
  predicate Lacks(t: TicketValue, d: Term) {
    d in t.derivedIds && exists p | p in t.permissions :: p.resource == d && Known(DerivationRead) in p.scopes
  }

  /** A ticket fails for good when the issuer of a source that it lacks is not known. It is granted exactly when it
      lacks no source and the authorizer grants something, and without partial success everything. */
  lemma ResolvesIff(setup: Setup, t: TicketValue, query: seq<Permission>)
    requires IsQuery(setup, t, query)
    ensures Resolve(setup, t).Broken? <==>
      exists d | Lacks(t, d) :: d !in setup.issuers || setup.issuers[d] == ""
    ensures Resolve(setup, t).Granted? <==>
      && (forall d :: !Lacks(t, d))
      && Pairs(setup.authorizer(t.provided, query)) != {}
      && (setup.allowPartial || Pairs(query) <= Pairs(setup.authorizer(t.provided, query)))
  {
    QueryIsDecoded(setup, t, query);
    MissingSources(setup, t.derivedIds, t.permissions);
    LacksIff(setup, t);
    ImmediateIff(setup, query, t.provided);
    hide ResolveImmediately, SourcesMissing, Pairs, Decode, Encode, DecodedIds, IsSource, HasIssuer, Lacks;
  }

  lemma LacksIff(setup: Setup, t: TicketValue)
    ensures (exists p | p in t.permissions :: IsSource(t.derivedIds, p)) <==> exists d :: Lacks(t, d)
    ensures (exists p | p in t.permissions :: IsSource(t.derivedIds, p) && !HasIssuer(setup, p.resource)) <==>
      exists d | Lacks(t, d) :: d !in setup.issuers || setup.issuers[d] == ""
  {
    forall p | p in t.permissions && IsSource(t.derivedIds, p) ensures Lacks(t, p.resource) {}
    if d :| Lacks(t, d) && (d !in setup.issuers || setup.issuers[d] == "") {
      var p :| p in t.permissions && p.resource == d && Known(DerivationRead) in p.scopes;
      assert IsSource(t.derivedIds, p) && !HasIssuer(setup, p.resource);
    }
  }

  lemma ImmediateIff(setup: Setup, query: seq<Permission>, provided: ClaimSet)
    ensures var inner := ResolveImmediately(setup.authorizer, setup.allowPartial, query, provided);
      var granted := setup.authorizer(provided, query);
      && !inner.Broken?
      && (inner.Granted? <==> Pairs(granted) != {} && (setup.allowPartial || Pairs(query) <= Pairs(granted)))
  {
    var granted := setup.authorizer(provided, query);
    NonEmptyPairs(granted);
    NonEmptyScopes(granted);
    NothingUnmatchedIff(NonEmpty(granted), query);
    NothingGranted(NonEmpty(granted));
    hide Unmatched, NonEmpty, Pairs;
  }

  lemma NothingGranted(granted: seq<Permission>)
    requires forall p | p in granted :: p.scopes != []
    ensures granted == [] <==> Pairs(granted) == {}
  {
    if granted != [] {
      assert granted[0] in granted && granted[0].scopes[0] in granted[0].scopes;
      assert (granted[0].resource, granted[0].scopes[0]) in Pairs(granted);
    }
  }

  lemma {:induction false} MissingAre(setup: Setup, derivedIds: seq<Term>, permissions: seq<Permission>)
    ensures forall c :: c in SourcesMissing(setup, derivedIds, permissions) <==>
      exists p | p in permissions :: IsSource(derivedIds, p)
                                  && c == MissingAccess(IssuerOf(setup, p.resource), p.resource)
  {
    hide IsSource, IssuerOf;
    if permissions != [] {
      MissingAre(setup, derivedIds, permissions[1..]);
      assert permissions == [permissions[0]] + permissions[1..];
    }
  }

  /** These are the scopes of the permission that were not granted. */
  ghost predicate IsRefused(p: Permission, granted: seq<Permission>, scopes: set<Term>) {
    forall s :: s in scopes <==> s in p.scopes && (p.resource, s) !in Pairs(granted)
  }

  /** What is asked for when a ticket is neither granted nor broken: a token of the right issuer for each source that it
      lacks, and, without partial success, the scopes that were not granted when others were. */
  lemma RequiredAre(setup: Setup, t: TicketValue, query: seq<Permission>)
    requires IsQuery(setup, t, query) && Resolve(setup, t).Required?
    ensures forall issuer, d :: MissingAccess(issuer, d) in Resolve(setup, t).claims <==>
      Lacks(t, d) && d in setup.issuers && setup.issuers[d] == issuer
    ensures forall scopes :: MissingScopes(scopes) in Resolve(setup, t).claims <==>
      && !setup.allowPartial && Pairs(setup.authorizer(t.provided, query)) != {} && scopes != {}
      && exists p | p in query :: IsRefused(p, setup.authorizer(t.provided, query), scopes)
  {
    QueryIsDecoded(setup, t, query);
    ResolvesIff(setup, t, query);
    MissingAre(setup, t.derivedIds, t.permissions);
    ScopesAre(setup, query, t.provided);
    var missing := SourcesMissing(setup, t.derivedIds, t.permissions);
    var inner := ResolveImmediately(setup.authorizer, setup.allowPartial, query, t.provided);
    assert Resolve(setup, t).claims == if inner.Granted? then missing else inner.claims + missing;
    hide Resolve, ResolveImmediately, SourcesMissing, Pairs, IsQuery, Decode, IsRefused;
    forall issuer, d ensures MissingAccess(issuer, d) in missing <==>
      Lacks(t, d) && d in setup.issuers && setup.issuers[d] == issuer
    {
      if Lacks(t, d) {
        var p :| p in t.permissions && p.resource == d && Known(DerivationRead) in p.scopes;
        assert IsSource(t.derivedIds, p);
      }
    }
    hide Lacks;
  }

  lemma ScopesAre(setup: Setup, query: seq<Permission>, provided: ClaimSet)
    ensures var inner := ResolveImmediately(setup.authorizer, setup.allowPartial, query, provided);
      var granted := setup.authorizer(provided, query);
      && (inner.Required? ==> forall issuer, d :: MissingAccess(issuer, d) !in inner.claims)
      && forall scopes :: (inner.Required? && MissingScopes(scopes) in inner.claims) <==>
           && !setup.allowPartial && Pairs(granted) != {} && scopes != {}
           && exists p | p in query :: IsRefused(p, granted, scopes)
  {
    var granted := setup.authorizer(provided, query);
    NonEmptyPairs(granted);
    NonEmptyScopes(granted);
    NothingGranted(NonEmpty(granted));
    UnmatchedSpec(NonEmpty(granted), query);
    NothingUnmatchedIff(NonEmpty(granted), query);
    hide Unmatched, NonEmpty, Pairs;
    forall scopes, p | p in query
      ensures IsRefused(p, granted, scopes) <==> scopes == Ungranted(NonEmpty(granted), p) {}
    hide Ungranted, IsRefused;
  }

  // ----- which identifiers come back -----

  /** The k-th permission uses an identifier that stands for the resource. */
  predicate StandsAt(setup: Setup, t: TicketValue, k: int, x: Term) {
    0 <= k < |t.permissions| && StandsFor(setup, t, t.permissions[k], x)
  }

  /** The resource is named by the last identifier on the ticket that stands for it, or by itself. */
  ghost predicate IsNamed(setup: Setup, t: TicketValue, x: Term, named: Term) {
    || (named == x && forall k :: !StandsAt(setup, t, k, x))
    || exists k | StandsAt(setup, t, k, x) ::
         named == t.permissions[k].resource && forall j | k < j :: !StandsAt(setup, t, j, x)
  }

  lemma {:induction false} DecodedIdsAreLast(setup: Setup, t: TicketValue, n: nat, x: Term)
    requires n <= |t.permissions|
    ensures var ids := DecodedIds(setup, t.derivedIds, t.permissions[..n]);
      if x !in ids then forall k | 0 <= k < n :: !StandsAt(setup, t, k, x)
      else exists k | 0 <= k < n && StandsAt(setup, t, k, x) ::
             ids[x] == t.permissions[k].resource && forall j | k < j < n :: !StandsAt(setup, t, j, x)
  {
    if n > 0 {
      DecodedIdsAreLast(setup, t, n - 1, x);
      assert t.permissions[..n][..n - 1] == t.permissions[..n - 1];
      var p, before := t.permissions[n - 1], DecodedIds(setup, t.derivedIds, t.permissions[..n - 1]);
      assert DecodedIds(setup, t.derivedIds, t.permissions[..n]) ==
        if IsEncoded(setup, t.derivedIds, p) then before[setup.decode(p.resource).value := p.resource] else before;
      hide DecodedIds;
      if StandsAt(setup, t, n - 1, x) { assert IsEncoded(setup, t.derivedIds, p); }
    }
  }

  lemma NameOf(setup: Setup, t: TicketValue, x: Term, named: Term)
    ensures var ids := DecodedIds(setup, t.derivedIds, t.permissions);
      IsNamed(setup, t, x, named) <==> named == if x in ids then ids[x] else x
  {
    DecodedIdsAreLast(setup, t, |t.permissions|, x);
    assert t.permissions[..|t.permissions|] == t.permissions;
    hide DecodedIds, StandsFor;
  }

  /** A granted ticket gives what the authorizer grants, on the identifiers that the ticket used. */
  lemma GrantsAre(setup: Setup, t: TicketValue, query: seq<Permission>, named: Term, scope: Term)
    requires IsQuery(setup, t, query) && Resolve(setup, t).Granted?
    ensures (named, scope) in Pairs(Resolve(setup, t).permissions) <==>
      exists x | (x, scope) in Pairs(setup.authorizer(t.provided, query)) :: IsNamed(setup, t, x, named)
  {
    QueryIsDecoded(setup, t, query);
    ResolvedFrom(setup, t);
    var granted, ids := setup.authorizer(t.provided, query), DecodedIds(setup, t.derivedIds, t.permissions);
    NonEmptyPairs(granted);
    assert ResolveImmediately(setup.authorizer, setup.allowPartial, query, t.provided).permissions == NonEmpty(granted);
    hide Resolve, DecodedIds, Encode, Pairs, NonEmpty, IsNamed, Decode, IsQuery, Unmatched;
    if (named, scope) in Pairs(Encode(ids, NonEmpty(granted))) {
      var x := EncodedPair(ids, NonEmpty(granted), named, scope);
      NameOf(setup, t, x, named);
    }
    if x :| (x, scope) in Pairs(granted) && IsNamed(setup, t, x, named) {
      EncodeKeepsPair(ids, NonEmpty(granted), x, scope);
      NameOf(setup, t, x, named);
    }
  }

  // ----- what a token says -----

  predicate Distinct(scopes: seq<Term>) {
    forall i, j | 0 <= i < j < |scopes| :: scopes[i] != scopes[j]
  }

  ghost predicate SameScopes(a: seq<Term>, b: seq<Term>) {
    forall s :: s in a <==> s in b
  }

  lemma {:induction false} DistinctCount(a: seq<Term>, b: seq<Term>)
    requires Distinct(a) && Distinct(b) && forall s | s in a :: s in b
    ensures |a| <= |b| && (|a| == |b| <==> forall s | s in b :: s in a)
  {
    DistinctSize(a);
    DistinctSize(b);
    var x, y := (set s | s in a), (set s | s in b);
    assert x <= y && |y - x| == |y| - |x|;
    if |a| == |b| {
      assert y - x == {};
      forall s | s in b ensures s in a { assert s in y; }
    }
    if forall s | s in b :: s in a { assert x == y; }
  }

  lemma {:induction false} DistinctSize(a: seq<Term>)
    requires Distinct(a)
    ensures |(set s | s in a)| == |a|
  {
    if a != [] {
      DistinctSize(a[1..]);
      assert (set s | s in a) == {a[0]} + set s | s in a[1..];
      assert a[0] !in a[1..];
    }
  }

  /** A token is not marked as partial exactly when it has one permission for each one requested, on the same resource
      and with the same scopes. */
  lemma WholeIff(requested: seq<Permission>, granted: seq<Permission>)
    requires forall p | p in requested + granted :: Distinct(p.scopes)
    ensures !IsPartial(requested, granted) <==>
      && |requested| == |granted|
      && forall r | r in requested :: exists g | g in granted ::
           g.resource == r.resource && SameScopes(g.scopes, r.scopes)
  {
    forall r, g | r in requested && g in granted
      ensures (|g.scopes| == |r.scopes| && forall s | s in r.scopes :: s in g.scopes) <==>
        SameScopes(g.scopes, r.scopes)
    {
      if forall s | s in r.scopes :: s in g.scopes { DistinctCount(r.scopes, g.scopes); }
    }
    hide Distinct, SameScopes;
  }
}
