/** What the ticketing strategies guarantee about identifiers, grants, failures and derivations. */
module TicketTheory {
  import opened Rdf
  import opened Permissions
  import opened TicketSpec

  // ----- identifiers there and back -----

  /** `ids` maps what encoded permissions decode to back to one of them. */
  ghost predicate Restores(setup: Setup, derivedIds: seq<Term>, permissions: seq<Permission>, ids: map<Term, Term>,
                           x: Term)
  {
    x in ids && exists p | p in permissions && IsEncoded(setup, derivedIds, p) ::
      setup.decode(p.resource).value == x && ids[x] == p.resource
  }

  lemma {:induction false} DecodedIdsSpec(setup: Setup, derivedIds: seq<Term>, permissions: seq<Permission>)
    ensures forall p | p in permissions && IsEncoded(setup, derivedIds, p) ::
      setup.decode(p.resource).value in DecodedIds(setup, derivedIds, permissions)
    ensures forall x | x in DecodedIds(setup, derivedIds, permissions) ::
      Restores(setup, derivedIds, permissions, DecodedIds(setup, derivedIds, permissions), x)
  {
    if permissions != [] {
      var n := |permissions| - 1;
      DecodedIdsSpec(setup, derivedIds, permissions[..n]);
      assert permissions == permissions[..n] + [permissions[n]];
      var before, ids := DecodedIds(setup, derivedIds, permissions[..n]), DecodedIds(setup, derivedIds, permissions);
      forall x | x in ids ensures Restores(setup, derivedIds, permissions, ids, x) {
        if x in before && ids[x] == before[x] {
          assert Restores(setup, derivedIds, permissions[..n], before, x);
        } else {
          assert permissions[n] in permissions;
        }
      }
    }
  }

  /** The permission whose identifier is restored for a decoded one. */
  lemma EncodedFor(setup: Setup, derivedIds: seq<Term>, permissions: seq<Permission>, x: Term) returns (p: Permission)
    requires x in DecodedIds(setup, derivedIds, permissions)
    ensures p in permissions && IsEncoded(setup, derivedIds, p)
    ensures setup.decode(p.resource).value == x && DecodedIds(setup, derivedIds, permissions)[x] == p.resource
  {
    DecodedIdsSpec(setup, derivedIds, permissions);
    hide DecodedIds;
    p :| p in permissions && IsEncoded(setup, derivedIds, p)
      && setup.decode(p.resource).value == x && DecodedIds(setup, derivedIds, permissions)[x] == p.resource;
  }

  /** Two permissions that name the same resource once decoded, one of them by an encoded identifier,
      use the same identifier. */
  ghost predicate Unambiguous(setup: Setup, derivedIds: seq<Term>, permissions: seq<Permission>) {
    forall p, q | p in permissions && q in permissions && IsEncoded(setup, derivedIds, p)
      && DecodeOne(setup, derivedIds, q).resource == setup.decode(p.resource).value ::
      q.resource == p.resource
  }

  lemma RestoredIfUnambiguous(setup: Setup, derivedIds: seq<Term>, permissions: seq<Permission>, q: Permission)
    requires Unambiguous(setup, derivedIds, permissions) && q in permissions
    ensures EncodeOne(DecodedIds(setup, derivedIds, permissions), DecodeOne(setup, derivedIds, q)) == q
  {
    DecodedIdsSpec(setup, derivedIds, permissions);
    var x := DecodeOne(setup, derivedIds, q).resource;
    if x in DecodedIds(setup, derivedIds, permissions) {
      var p := EncodedFor(setup, derivedIds, permissions, x);
      hide DecodedIds;
      assert q.resource == p.resource;
    }
  }

  /** Encoding undoes decoding exactly when the permissions are unambiguous. */
  lemma RoundTripIff(setup: Setup, derivedIds: seq<Term>, permissions: seq<Permission>)
    ensures Encode(DecodedIds(setup, derivedIds, permissions), Decode(setup, derivedIds, permissions)) == permissions
            <==> Unambiguous(setup, derivedIds, permissions)
  {
    var ids := DecodedIds(setup, derivedIds, permissions);
    var back := Encode(ids, Decode(setup, derivedIds, permissions));
    if Unambiguous(setup, derivedIds, permissions) {
      forall i | 0 <= i < |permissions| ensures back[i] == permissions[i] {
        RestoredIfUnambiguous(setup, derivedIds, permissions, permissions[i]);
      }
    }
    if back == permissions {
      forall p, q | p in permissions && q in permissions && IsEncoded(setup, derivedIds, p)
        && DecodeOne(setup, derivedIds, q).resource == setup.decode(p.resource).value
        ensures q.resource == p.resource
      {
        DecodedIdsSpec(setup, derivedIds, permissions);
        hide DecodedIds;
        var i :| 0 <= i < |permissions| && permissions[i] == p;
        var j :| 0 <= j < |permissions| && permissions[j] == q;
        assert back[i] == EncodeOne(ids, DecodeOne(setup, derivedIds, p));
        assert back[j] == EncodeOne(ids, DecodeOne(setup, derivedIds, q));
      }
    }
  }

  /** Encoded results name no decoded identifier, whatever was granted, exactly when no identifier that
      is restored is itself a decoded one. */
  lemma EncodeHidesIff(ids: map<Term, Term>)
    ensures (forall granted, p | p in Encode(ids, granted) :: p.resource !in ids)
            <==> (forall x | x in ids :: ids[x] !in ids)
  {
    if forall x | x in ids :: ids[x] !in ids {
      forall granted, p | p in Encode(ids, granted) ensures p.resource !in ids {
        var i :| 0 <= i < |granted| && p == EncodeOne(ids, granted[i]);
      }
    }
    if forall granted, p | p in Encode(ids, granted) :: p.resource !in ids {
      forall x | x in ids ensures ids[x] !in ids {
        var granted := [Permission(x, [])];
        assert Encode(ids, granted)[0] == Permission(ids[x], []);
        assert Permission(ids[x], []) in Encode(ids, granted);
      }
    }
  }

  /** A successful resolution names no internal identifier. */
  lemma ResolvedHidesIds(setup: Setup, t: TicketValue)
    requires forall p, q | p in t.permissions && q in t.permissions
      && IsEncoded(setup, t.derivedIds, p) && IsEncoded(setup, t.derivedIds, q) ::
      setup.decode(p.resource).value != q.resource
    requires Resolve(setup, t).Granted?
    ensures forall g, p | g in Resolve(setup, t).permissions && p in t.permissions
                       && IsEncoded(setup, t.derivedIds, p) ::
      g.resource != setup.decode(p.resource).value
  {
    var ids := DecodedIds(setup, t.derivedIds, t.permissions);
    DecodedIdsSpec(setup, t.derivedIds, t.permissions);
    hide DecodedIds, ResolveImmediately;
    forall x | x in ids ensures ids[x] !in ids {
      var q := EncodedFor(setup, t.derivedIds, t.permissions, x);
      if ids[x] in ids { var p := EncodedFor(setup, t.derivedIds, t.permissions, ids[x]); }
    }
    EncodeHidesIff(ids);
  }

  // ----- grants -----

  lemma {:induction false} NonEmptyPairs(permissions: seq<Permission>)
    ensures Pairs(NonEmpty(permissions)) == Pairs(permissions)
    ensures forall p | p in NonEmpty(permissions) :: p in permissions
  {
    if permissions != [] {
      NonEmptyPairs(permissions[1..]);
      assert permissions == [permissions[0]] + permissions[1..];
      PairsAppend([permissions[0]], permissions[1..]);
      PairsAppend(if permissions[0].scopes == [] then [] else [permissions[0]], NonEmpty(permissions[1..]));
    }
  }

  /** The reported failures are exactly the scopes not granted, for each permission that lacks some. */
  lemma {:induction false} UnmatchedSpec(granted: seq<Permission>, required: seq<Permission>)
    ensures forall c :: c in Unmatched(granted, required) <==>
      exists p | p in required :: Ungranted(granted, p) != {} && c == MissingScopes(Ungranted(granted, p))
  {
    hide Ungranted;
    if required != [] {
      UnmatchedSpec(granted, required[1..]);
      assert required == [required[0]] + required[1..];
    }
  }

  lemma NothingUnmatchedIff(granted: seq<Permission>, required: seq<Permission>)
    ensures Unmatched(granted, required) == [] <==> Pairs(required) <= Pairs(granted)
  {
    UnmatchedSpec(granted, required);
    hide Unmatched, Pairs;
    if Unmatched(granted, required) == [] {
      forall pair | pair in Pairs(required) ensures pair in Pairs(granted) {
        var p := PermissionWith(required, pair.0, pair.1);
        assert MissingScopes(Ungranted(granted, p)) !in Unmatched(granted, required);
        assert pair.1 !in Ungranted(granted, p);
      }
    } else {
      var c := Unmatched(granted, required)[0];
      assert c in Unmatched(granted, required);
      var p :| p in required && Ungranted(granted, p) != {} && c == MissingScopes(Ungranted(granted, p));
      var s :| s in Ungranted(granted, p);
      PairOf(required, p, s);
    }
  }

  lemma PermissionWith(permissions: seq<Permission>, resource: Term, scope: Term) returns (p: Permission)
    requires (resource, scope) in Pairs(permissions)
    ensures p in permissions && p.resource == resource && scope in p.scopes
  {
    p :| p in permissions && p.resource == resource && scope in p.scopes;
  }

  lemma PairOf(permissions: seq<Permission>, p: Permission, scope: Term)
    requires p in permissions && scope in p.scopes
    ensures (p.resource, scope) in Pairs(permissions)
  {}

  /** Grants only what the query asks for, and without partial success all of it. */
  lemma ImmediateGrants(setup: Setup, permissions: seq<Permission>, provided: ClaimSet)
    requires ResolveImmediately(setup.authorizer, setup.allowPartial, permissions, provided).Granted?
    ensures var granted := ResolveImmediately(setup.authorizer, setup.allowPartial, permissions, provided).permissions;
      && granted != [] && (forall p | p in granted :: p.scopes != [])
      && (Bounded(setup.authorizer) ==> Pairs(granted) <= Pairs(permissions))
      && (!setup.allowPartial ==> Pairs(permissions) <= Pairs(granted))
  {
    NonEmptyPairs(setup.authorizer(provided, permissions));
    NothingUnmatchedIff(NonEmpty(setup.authorizer(provided, permissions)), permissions);
    NonEmptyScopes(setup.authorizer(provided, permissions));
    hide Unmatched, NonEmpty, Pairs;
  }

  lemma {:induction false} NonEmptyScopes(permissions: seq<Permission>)
    ensures forall p | p in NonEmpty(permissions) :: p.scopes != []
  {
    if permissions != [] { NonEmptyScopes(permissions[1..]); }
  }

  /** A failure without derivations lists exactly the ungranted scopes; it is empty when nothing was granted. */
  lemma FailureListsUngranted(setup: Setup, permissions: seq<Permission>, provided: ClaimSet)
    requires ResolveImmediately(setup.authorizer, setup.allowPartial, permissions, provided).Required?
    ensures var granted := NonEmpty(setup.authorizer(provided, permissions));
      var claims := ResolveImmediately(setup.authorizer, setup.allowPartial, permissions, provided).claims;
      && (claims == [] <==> granted == [])
      && (claims != [] ==> !setup.allowPartial && forall c :: c in claims <==>
            exists p | p in permissions :: Ungranted(granted, p) != {} && c == MissingScopes(Ungranted(granted, p)))
  {
    UnmatchedSpec(NonEmpty(setup.authorizer(provided, permissions)), permissions);
    hide Unmatched, NonEmpty, Ungranted;
  }

  lemma DecodedPair(setup: Setup, derivedIds: seq<Term>, permissions: seq<Permission>, resource: Term, scope: Term)
    returns (q: Permission)
    requires (resource, scope) in Pairs(Decode(setup, derivedIds, permissions))
    ensures q in permissions && scope in q.scopes && DecodeOne(setup, derivedIds, q).resource == resource
  {
    var d := PermissionWith(Decode(setup, derivedIds, permissions), resource, scope);
    var i :| 0 <= i < |permissions| && Decode(setup, derivedIds, permissions)[i] == d;
    q := permissions[i];
  }

  lemma EncodedPair(ids: map<Term, Term>, granted: seq<Permission>, resource: Term, scope: Term) returns (x: Term)
    requires (resource, scope) in Pairs(Encode(ids, granted))
    ensures (x, scope) in Pairs(granted) && resource == if x in ids then ids[x] else x
  {
    var p := PermissionWith(Encode(ids, granted), resource, scope);
    var i :| 0 <= i < |granted| && Encode(ids, granted)[i] == p;
    x := granted[i].resource;
    PairOf(granted, granted[i], scope);
  }

  lemma EncodeKeepsPair(ids: map<Term, Term>, granted: seq<Permission>, x: Term, scope: Term)
    requires (x, scope) in Pairs(granted)
    ensures (if x in ids then ids[x] else x, scope) in Pairs(Encode(ids, granted))
  {
    var p := PermissionWith(granted, x, scope);
    var i :| 0 <= i < |granted| && granted[i] == p;
    assert Encode(ids, granted)[i] == EncodeOne(ids, p);
    PairOf(Encode(ids, granted), EncodeOne(ids, p), scope);
  }

  lemma DecodeKeepsPair(setup: Setup, derivedIds: seq<Term>, permissions: seq<Permission>, q: Permission, scope: Term)
    requires q in permissions && scope in q.scopes
    ensures (DecodeOne(setup, derivedIds, q).resource, scope) in Pairs(Decode(setup, derivedIds, permissions))
  {
    var i :| 0 <= i < |permissions| && permissions[i] == q;
    assert Decode(setup, derivedIds, permissions)[i] == DecodeOne(setup, derivedIds, q);
    PairOf(Decode(setup, derivedIds, permissions), DecodeOne(setup, derivedIds, q), scope);
  }

  /** A resolved ticket grants nothing that is not on it; without partial success, everything that is. */
  lemma GrantsMatchTicket(setup: Setup, t: TicketValue)
    requires Unambiguous(setup, t.derivedIds, t.permissions) && Resolve(setup, t).Granted?
    ensures Bounded(setup.authorizer) ==> Pairs(Resolve(setup, t).permissions) <= Pairs(t.permissions)
    ensures !setup.allowPartial ==> Pairs(t.permissions) <= Pairs(Resolve(setup, t).permissions)
  {
    var ids := DecodedIds(setup, t.derivedIds, t.permissions);
    var decoded := Decode(setup, t.derivedIds, t.permissions);
    var inner := ResolveImmediately(setup.authorizer, setup.allowPartial, decoded, t.provided);
    assert inner.Granted? && Resolve(setup, t).permissions == Encode(ids, inner.permissions) by {
      ResolvedFrom(setup, t);
    }
    ImmediateGrants(setup, decoded, t.provided);
    hide Resolve, ResolveImmediately, DecodedIds, Pairs, Encode, Decode, DecodeOne, Bounded;
    if Bounded(setup.authorizer) {
      forall pair | pair in Pairs(Encode(ids, inner.permissions)) ensures pair in Pairs(t.permissions) {
        var x := EncodedPair(ids, inner.permissions, pair.0, pair.1);
        var q := DecodedPair(setup, t.derivedIds, t.permissions, x, pair.1);
        RestoredIfUnambiguous(setup, t.derivedIds, t.permissions, q);
        PairOf(t.permissions, q, pair.1);
      }
    }
    if !setup.allowPartial {
      forall pair | pair in Pairs(t.permissions) ensures pair in Pairs(Encode(ids, inner.permissions)) {
        var q := PermissionWith(t.permissions, pair.0, pair.1);
        DecodeKeepsPair(setup, t.derivedIds, t.permissions, q, pair.1);
        EncodeKeepsPair(ids, inner.permissions, DecodeOne(setup, t.derivedIds, q).resource, pair.1);
        RestoredIfUnambiguous(setup, t.derivedIds, t.permissions, q);
      }
    }
  }

  lemma ResolvedFrom(setup: Setup, t: TicketValue)
    requires Resolve(setup, t).Granted?
    ensures var decoded := Decode(setup, t.derivedIds, t.permissions);
      var inner := ResolveImmediately(setup.authorizer, setup.allowPartial, decoded, t.provided);
      && inner.Granted?
      && Resolve(setup, t).permissions == Encode(DecodedIds(setup, t.derivedIds, t.permissions), inner.permissions)
    ensures SourcesMissing(setup, t.derivedIds, t.permissions) == []
  {
    hide ResolveImmediately, Decode, Encode, DecodedIds;
  }

  /** A response that is not marked as partial grants every scope on the ticket. */
  lemma NotPartialGrantsAll(requested: seq<Permission>, granted: seq<Permission>)
    requires !IsPartial(requested, granted)
    ensures Pairs(requested) <= Pairs(granted)
  {
    forall pair | pair in Pairs(requested) ensures pair in Pairs(granted) {
      var r := PermissionWith(requested, pair.0, pair.1);
      var g :| g in granted && g.resource == r.resource && forall s | s in r.scopes :: s in g.scopes;
    }
  }

  // ----- derivations -----

  /** Every added source is required with the derivation-read scope. */
  ghost predicate SourcesRequired(t: TicketValue) {
    forall d | d in t.derivedIds :: (d, READ_SOURCE) in Pairs(t.permissions)
  }

  lemma {:induction false} SourcesComplete(setup: Setup, permissions: seq<Permission>)
    ensures forall d :: d in AllSources(setup, permissions) <==>
      exists p | p in permissions :: d in SourcesOf(setup, p.resource)
  {
    if permissions != [] {
      SourcesComplete(setup, permissions[1..]);
      assert permissions == [permissions[0]] + permissions[1..];
      hide SourcesOf;
    }
  }

  /** A new ticket requires what was asked for, and access to every source of a derived resource. */
  lemma InitializeSpec(setup: Setup, permissions: seq<Permission>)
    requires Initialize(setup, permissions).Some?
    ensures var t := Initialize(setup, permissions).value;
      && SourcesRequired(t) && t.provided == map[] && t.permissions[..|permissions|] == permissions
      && (forall p, d | p in permissions && d in SourcesOf(setup, p.resource) :: d in t.derivedIds)
      && Pairs(t.permissions) == Pairs(permissions) + set d | d in t.derivedIds :: (d, READ_SOURCE)
  {
    var t := Initialize(setup, permissions).value;
    SourcesComplete(setup, permissions);
    hide AllSources, SourcesOf, Initialize;
    PairsAppend(permissions, SourcePermissions(t.derivedIds));
    SourcePairs(t.derivedIds);
    hide Pairs, SourcePermissions;
  }

  lemma SourcePairs(ids: seq<Term>)
    ensures Pairs(SourcePermissions(ids)) == set d | d in ids :: (d, READ_SOURCE)
  {
    var permissions := SourcePermissions(ids);
    forall d | d in ids ensures (d, READ_SOURCE) in Pairs(permissions) {
      var i :| 0 <= i < |ids| && ids[i] == d;
      assert permissions[i] == Permission(d, [READ_SOURCE]);
      PairOf(permissions, permissions[i], READ_SOURCE);
    }
    forall pair | pair in Pairs(permissions) ensures pair.0 in ids && pair.1 == READ_SOURCE {
      var p := PermissionWith(permissions, pair.0, pair.1);
      var i :| 0 <= i < |ids| && permissions[i] == p;
    }
  }

  /** No identifier on the ticket decodes to one of the added sources. */
  ghost predicate NoCollision(setup: Setup, t: TicketValue) {
    forall p | p in t.permissions && IsEncoded(setup, t.derivedIds, p) ::
      setup.decode(p.resource).value !in t.derivedIds
  }

  lemma {:induction false} SatisfySpec(derivedIds: seq<Term>, read: set<Term>, permissions: seq<Permission>)
    ensures forall q :: q in Satisfy(derivedIds, read, permissions) <==>
      exists p | p in permissions :: q in SatisfyOne(derivedIds, read, p)
  {
    hide SatisfyOne;
    if permissions != [] {
      SatisfySpec(derivedIds, read, permissions[1..]);
      assert permissions == [permissions[0]] + permissions[1..];
    }
  }

  lemma SatisfiedFrom(derivedIds: seq<Term>, read: set<Term>, permissions: seq<Permission>, q: Permission)
    returns (p: Permission)
    requires q in Satisfy(derivedIds, read, permissions)
    ensures p in permissions && q in SatisfyOne(derivedIds, read, p)
  {
    SatisfySpec(derivedIds, read, permissions);
    hide Satisfy, SatisfyOne;
    p :| p in permissions && q in SatisfyOne(derivedIds, read, p);
  }

  lemma {:induction false} WithoutScopeSpec(scopes: seq<Term>, scope: Term)
    ensures forall s :: s in WithoutScope(scopes, scope) <==> s in scopes && s != scope
  {
    if scopes != [] {
      WithoutScopeSpec(scopes[1..], scope);
      assert scopes == [scopes[0]] + scopes[1..];
    }
  }

  /** What a permission on the validated ticket stems from. */
  lemma ValidatedFrom(setup: Setup, t: TicketValue, claims: ClaimSet, r: Permission)
    returns (p: Permission, q: Permission)
    requires r in Validate(setup, t, claims).permissions
    ensures p in t.permissions && q in SatisfyOne(t.derivedIds, ReadIds(claims), p)
    ensures var satisfied := Satisfy(t.derivedIds, ReadIds(claims), t.permissions);
      && q in satisfied
      && r == EncodeOne(DecodedIds(setup, t.derivedIds, satisfied), DecodeOne(setup, t.derivedIds, q))
  {
    var satisfied := Satisfy(t.derivedIds, ReadIds(claims), t.permissions);
    hide Satisfy, SatisfyOne, DecodedIds, EncodeOne, DecodeOne;
    var i :| 0 <= i < |satisfied| && r == Validate(setup, t, claims).permissions[i];
    q := satisfied[i];
    p := SatisfiedFrom(t.derivedIds, ReadIds(claims), t.permissions, q);
  }

  lemma SatisfiedIsEncoded(setup: Setup, derivedIds: seq<Term>, read: set<Term>, p: Permission, q: Permission)
    requires q in SatisfyOne(derivedIds, read, p)
    ensures q.resource == p.resource && (q.resource !in derivedIds ==> q == p)
    ensures READ_SOURCE in q.scopes ==> q == p
    ensures IsSource(derivedIds, q) ==> q.resource !in read
    ensures IsEncoded(setup, derivedIds, q) ==> IsEncoded(setup, derivedIds, p)
  {
    WithoutScopeSpec(p.scopes, READ_SOURCE);
    hide WithoutScope;
  }

  /** The identifiers restored on a validated ticket were on it before, and are not added sources. */
  lemma RestoredIds(setup: Setup, t: TicketValue, claims: ClaimSet, x: Term) returns (p: Permission)
    requires x in DecodedIds(setup, t.derivedIds, Satisfy(t.derivedIds, ReadIds(claims), t.permissions))
    ensures p in t.permissions && IsEncoded(setup, t.derivedIds, p) && setup.decode(p.resource).value == x
    ensures DecodedIds(setup, t.derivedIds, Satisfy(t.derivedIds, ReadIds(claims), t.permissions))[x] == p.resource
  {
    var satisfied := Satisfy(t.derivedIds, ReadIds(claims), t.permissions);
    var q := EncodedFor(setup, t.derivedIds, satisfied, x);
    p := SatisfiedFrom(t.derivedIds, ReadIds(claims), t.permissions, q);
    hide DecodedIds, Satisfy, IsEncoded, SatisfyOne;
    SatisfiedIsEncoded(setup, t.derivedIds, ReadIds(claims), p, q);
  }

  lemma ValidateKeepsNoCollision(setup: Setup, t: TicketValue, claims: ClaimSet)
    requires NoCollision(setup, t)
    ensures NoCollision(setup, Validate(setup, t, claims))
  {
    var v := Validate(setup, t, claims);
    forall r | r in v.permissions && IsEncoded(setup, v.derivedIds, r)
      ensures setup.decode(r.resource).value !in v.derivedIds
    {
      var p, q := ValidatedFrom(setup, t, claims, r);
      SatisfiedIsEncoded(setup, t.derivedIds, ReadIds(claims), p, q);
      var satisfied := Satisfy(t.derivedIds, ReadIds(claims), t.permissions);
      var x := DecodeOne(setup, t.derivedIds, q).resource;
      DecodedIdsSpec(setup, t.derivedIds, satisfied);
      hide Validate, Satisfy, DecodedIds, SatisfyOne, ReadIds;
      if x in DecodedIds(setup, t.derivedIds, satisfied) { var e := RestoredIds(setup, t, claims, x); }
    }
  }

  /** A source whose access was not proved stays required. */
  lemma ValidateKeepsUncovered(setup: Setup, t: TicketValue, claims: ClaimSet, d: Term)
    requires NoCollision(setup, t) && d in t.derivedIds && d !in ReadIds(claims)
    requires (d, READ_SOURCE) in Pairs(t.permissions)
    ensures (d, READ_SOURCE) in Pairs(Validate(setup, t, claims).permissions)
  {
    var p := PermissionWith(t.permissions, d, READ_SOURCE);
    var satisfied := Satisfy(t.derivedIds, ReadIds(claims), t.permissions);
    var ids := DecodedIds(setup, t.derivedIds, satisfied);
    SatisfySpec(t.derivedIds, ReadIds(claims), t.permissions);
    assert p in SatisfyOne(t.derivedIds, ReadIds(claims), p);
    assert p in satisfied && DecodeOne(setup, t.derivedIds, p) == p;
    if d in ids { var e := RestoredIds(setup, t, claims, d); }
    hide Satisfy, DecodedIds, SatisfyOne, ReadIds, Pairs, IsEncoded, DecodeOne;
    var i :| 0 <= i < |satisfied| && satisfied[i] == p;
    assert Validate(setup, t, claims).permissions[i] == p;
    PairOf(Validate(setup, t, claims).permissions, p, READ_SOURCE);
  }

  /** The claims of one round, validated one after the other. */
  function ValidateAll(setup: Setup, t: TicketValue, round: seq<ClaimSet>): TicketValue {
    if round == [] then t
    else Validate(setup, ValidateAll(setup, t, round[..|round| - 1]), round[|round| - 1])
  }

  /** The claims show that another server gave derivation-read access to the resource. */
  predicate Proves(claims: ClaimSet, d: Term) {
    ACCESS in claims && exists c | c in claims[ACCESS] ::
      c.Access? && c.resource == d && Known(DerivationRead) in c.scopes
  }

  lemma ReadIdsAreProved(claims: ClaimSet)
    ensures forall d :: d in ReadIds(claims) <==> Proves(claims, d)
  {}

  predicate Covered(round: seq<ClaimSet>, d: Term) {
    exists c | c in round :: Proves(c, d)
  }

  lemma {:induction false} RoundKeepsUncovered(setup: Setup, t: TicketValue, round: seq<ClaimSet>, d: Term)
    requires NoCollision(setup, t) && d in t.derivedIds && (d, READ_SOURCE) in Pairs(t.permissions)
    ensures var v := ValidateAll(setup, t, round);
      v.derivedIds == t.derivedIds && NoCollision(setup, v)
      && (!Covered(round, d) ==> (d, READ_SOURCE) in Pairs(v.permissions))
  {
    if round != [] {
      var n := |round| - 1;
      RoundKeepsUncovered(setup, t, round[..n], d);
      var v := ValidateAll(setup, t, round[..n]);
      assert round == round[..n] + [round[n]];
      ValidateKeepsNoCollision(setup, v, round[n]);
      if !Covered(round, d) {
        assert round[n] in round;
        assert !Covered(round[..n], d);
        ReadIdsAreProved(round[n]);
        ValidateKeepsUncovered(setup, v, round[n], d);
      }
      hide ReadIds, Proves, Pairs, NoCollision;
    }
  }

  lemma {:induction false} MissingSources(setup: Setup, derivedIds: seq<Term>, permissions: seq<Permission>)
    ensures SourcesMissing(setup, derivedIds, permissions) == [] <==>
      forall p | p in permissions :: !IsSource(derivedIds, p)
  {
    hide IsSource;
    if permissions != [] {
      MissingSources(setup, derivedIds, permissions[1..]);
      assert permissions == [permissions[0]] + permissions[1..];
    }
  }

  /** A resolved ticket requires no more access to sources. */
  lemma ResolvedHasNoSource(setup: Setup, t: TicketValue, d: Term)
    requires Resolve(setup, t).Granted? && d in t.derivedIds
    ensures (d, READ_SOURCE) !in Pairs(t.permissions)
  {
    ResolvedFrom(setup, t);
    MissingSources(setup, t.derivedIds, t.permissions);
    hide Resolve, SourcesMissing;
    if (d, READ_SOURCE) in Pairs(t.permissions) { var p := PermissionWith(t.permissions, d, READ_SOURCE); }
  }

  /** A ticket is resolved only if access to every added source was proved in the successful round. */
  lemma ResolvedOnlyIfCovered(setup: Setup, t: TicketValue, round: seq<ClaimSet>, d: Term)
    requires NoCollision(setup, t) && SourcesRequired(t) && d in t.derivedIds
    requires Resolve(setup, ValidateAll(setup, t, round)).Granted?
    ensures Covered(round, d)
  {
    hide Resolve, Pairs;
    assert (d, READ_SOURCE) in Pairs(t.permissions);
    RoundKeepsUncovered(setup, t, round, d);
    ResolvedHasNoSource(setup, ValidateAll(setup, t, round), d);
  }

  // ----- when an added source is not checked -----

  /** Claims that prove access to all these resources. */
  function AccessClaims(ids: seq<Term>): ClaimSet {
    map[ACCESS := seq(|ids|, i requires 0 <= i < |ids| => Access(ids[i], [READ_SOURCE]))]
  }

  lemma AccessClaimsRead(ids: seq<Term>)
    ensures forall x :: x in ReadIds(AccessClaims(ids)) <==> x in ids
  {
    var claims := AccessClaims(ids);
    forall x | x in ids ensures x in ReadIds(claims) {
      var i :| 0 <= i < |ids| && ids[i] == x;
      assert claims[ACCESS][i] == Access(x, [READ_SOURCE]);
    }
    forall x | x in ReadIds(claims) ensures x in ids {
      var i :| 0 <= i < |ids| && claims[ACCESS][i].resource == x;
    }
  }

  /** An identifier that decodes to an added source is put in its place, and is no added source itself. */
  lemma CollisionHidesSource(setup: Setup, t: TicketValue, claims: ClaimSet, e: Permission, r: Permission)
    requires e in t.permissions && IsEncoded(setup, t.derivedIds, e)
    requires forall x | x in t.derivedIds && x != setup.decode(e.resource).value :: x in ReadIds(claims)
    requires r in Validate(setup, t, claims).permissions
    ensures !IsSource(t.derivedIds, r)
  {
    var satisfied := Satisfy(t.derivedIds, ReadIds(claims), t.permissions);
    var ids := DecodedIds(setup, t.derivedIds, satisfied);
    var p, q := ValidatedFrom(setup, t, claims, r);
    SatisfiedIsEncoded(setup, t.derivedIds, ReadIds(claims), p, q);
    DecodedIdsSpec(setup, t.derivedIds, satisfied);
    EncodedStays(setup, t, claims, e);
    hide Satisfy, DecodedIds, ReadIds, Validate, Restores;
    var x := DecodeOne(setup, t.derivedIds, q).resource;
    if x in ids { var f := EncodedFor(setup, t.derivedIds, satisfied, x); }
  }

  lemma EncodedStays(setup: Setup, t: TicketValue, claims: ClaimSet, e: Permission)
    requires e in t.permissions && IsEncoded(setup, t.derivedIds, e)
    ensures e in Satisfy(t.derivedIds, ReadIds(claims), t.permissions)
  {
    SatisfySpec(t.derivedIds, ReadIds(claims), t.permissions);
    assert e in SatisfyOne(t.derivedIds, ReadIds(claims), e);
    hide Satisfy, SatisfyOne;
  }

  lemma EncodedStaysRequired(setup: Setup, t: TicketValue, claims: ClaimSet, e: Permission)
    requires e in t.permissions && IsEncoded(setup, t.derivedIds, e)
    ensures Pairs(Validate(setup, t, claims).permissions) != {}
  {
    EncodedStays(setup, t, claims, e);
    var satisfied := Satisfy(t.derivedIds, ReadIds(claims), t.permissions);
    var ids := DecodedIds(setup, t.derivedIds, satisfied);
    hide Satisfy, DecodedIds, ReadIds, Pairs;
    var i :| 0 <= i < |satisfied| && satisfied[i] == e;
    var r := Validate(setup, t, claims).permissions[i];
    assert r.scopes == e.scopes;
    PairOf(Validate(setup, t, claims).permissions, r, READ_SOURCE);
  }

  /** An authorizer that grants whatever it is asked resolves every ticket that requires something. */
  lemma GrantingAllResolves(setup: Setup, permissions: seq<Permission>, provided: ClaimSet)
    requires setup.authorizer(provided, permissions) == permissions && Pairs(permissions) != {}
    ensures ResolveImmediately(setup.authorizer, setup.allowPartial, permissions, provided).Granted?
  {
    NonEmptyPairs(permissions);
    NothingUnmatchedIff(NonEmpty(permissions), permissions);
    hide Unmatched, NonEmpty;
  }

  lemma DecodeKeepsSomePair(setup: Setup, derivedIds: seq<Term>, permissions: seq<Permission>)
    requires Pairs(permissions) != {}
    ensures Pairs(Decode(setup, derivedIds, permissions)) != {}
  {
    var pair :| pair in Pairs(permissions);
    var q := PermissionWith(permissions, pair.0, pair.1);
    DecodeKeepsPair(setup, derivedIds, permissions, q, pair.1);
  }

  lemma CollisionSlipsThrough(setup: Setup, t: TicketValue, e: Permission)
    requires (forall claims, query :: setup.authorizer(claims, query) == query)
    requires e in t.permissions && IsEncoded(setup, t.derivedIds, e) && setup.decode(e.resource).value in t.derivedIds
    ensures var d := setup.decode(e.resource).value;
      var claims := AccessClaims(WithoutScope(t.derivedIds, d));
      !Proves(claims, d) && Resolve(setup, Validate(setup, t, claims)).Granted?
  {
    var d := setup.decode(e.resource).value;
    var claims := AccessClaims(WithoutScope(t.derivedIds, d));
    AccessClaimsRead(WithoutScope(t.derivedIds, d));
    ReadIdsAreProved(claims);
    WithoutScopeSpec(t.derivedIds, d);
    hide AccessClaims, ReadIds, Proves, Pairs;
    var v := Validate(setup, t, claims);
    assert v.derivedIds == t.derivedIds;
    forall r | r in v.permissions ensures !IsSource(v.derivedIds, r) { CollisionHidesSource(setup, t, claims, e, r); }
    EncodedStaysRequired(setup, t, claims, e);
    hide Validate, IsEncoded, IsSource;
    MissingSources(setup, v.derivedIds, v.permissions);
    DecodeKeepsSomePair(setup, v.derivedIds, v.permissions);
    GrantingAllResolves(setup, Decode(setup, v.derivedIds, v.permissions), v.provided);
    hide ResolveImmediately, Decode, SourcesMissing, DecodedIds;
  }

  /** Every resolution checks the access to all added sources, whatever the authorizer and the claims,
      exactly when no identifier on the ticket decodes to one of them. */
  lemma SourcesAreCheckedIff(setup: Setup, t: TicketValue)
    requires SourcesRequired(t)
    ensures NoCollision(setup, t) <==> forall authorizer: Authorizer, claims: ClaimSet ::
      Resolve(setup.(authorizer := authorizer), Validate(setup.(authorizer := authorizer), t, claims)).Granted? ==>
        forall d | d in t.derivedIds :: Proves(claims, d)
  {
    hide Resolve, Validate, Proves, Pairs;
    if NoCollision(setup, t) {
      forall authorizer: Authorizer, claims: ClaimSet, d |
        Resolve(setup.(authorizer := authorizer), Validate(setup.(authorizer := authorizer), t, claims)).Granted?
        && d in t.derivedIds
        ensures Proves(claims, d)
      {
        var other := setup.(authorizer := authorizer);
        SameEncoding(setup, other, t);
        OneValidation(other, t, claims);
        ResolvedOnlyIfCovered(other, t, [claims], d);
      }
    } else {
      var e :| e in t.permissions && IsEncoded(setup, t.derivedIds, e)
        && setup.decode(e.resource).value in t.derivedIds;
      var all: Authorizer := (claims, query) => query;
      var other := setup.(authorizer := all);
      SameEncoding(setup, other, t);
      CollisionSlipsThrough(other, t, e);
      var d := setup.decode(e.resource).value;
      var claims := AccessClaims(WithoutScope(t.derivedIds, d));
      assert Resolve(setup.(authorizer := all), Validate(setup.(authorizer := all), t, claims)).Granted?;
    }
  }

  lemma SameEncoding(setup: Setup, other: Setup, t: TicketValue)
    requires other.decode == setup.decode
    ensures NoCollision(other, t) <==> NoCollision(setup, t)
    ensures forall p :: IsEncoded(other, t.derivedIds, p) <==> IsEncoded(setup, t.derivedIds, p)
  {}

  lemma OneValidation(setup: Setup, t: TicketValue, claims: ClaimSet)
    ensures ValidateAll(setup, t, [claims]) == Validate(setup, t, claims)
  {
    assert [claims][..0] == [];
    assert ValidateAll(setup, t, [claims][..0]) == t;
  }
}
