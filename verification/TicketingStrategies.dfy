/** The ticketing strategies as they run. A ticket refers to the claims provided for it: tickets that were
    made from one another share that object, and new claims are added to it in place. */
module TicketingStrategies {
  import opened Rdf
  import opened Permissions
  import opened TicketSpec
  import opened TicketTheory

  class Provided {
    var claims: ClaimSet

    constructor ()
      ensures claims == map[]
    {
      claims := map[];
    }
  }

  datatype Ticket = Ticket(derivedIds: seq<Term>, permissions: seq<Permission>, provided: Provided)

  ghost function Value(t: Ticket): TicketValue
    reads t.provided
  {
    TicketValue(t.derivedIds, t.permissions, t.provided.claims)
  }

  class ImmediateAuthorizerStrategy {
    var authorizer: Authorizer
    const allowPartialSuccess: bool

    constructor (authorizer: Authorizer, allowPartialSuccess: bool)
      ensures this.authorizer == authorizer && this.allowPartialSuccess == allowPartialSuccess
    {
      this.authorizer, this.allowPartialSuccess := authorizer, allowPartialSuccess;
    }

    method InitializeTicket(permissions: seq<Permission>) returns (ticket: Ticket)
      ensures fresh(ticket.provided) && Value(ticket) == TicketValue([], permissions, map[])
    {
      var provided := new Provided();
      ticket := Ticket([], permissions, provided);
    }

    method ValidateClaims(ticket: Ticket, claims: ClaimSet) returns (validated: Ticket)
      modifies ticket.provided
      ensures validated == ticket && ticket.provided.claims == Merge(old(ticket.provided.claims), claims)
    {
      hide Merge;
      var provided := ticket.provided;
      ghost var before := provided.claims;
      MergeNothing(before, claims);
      var keys := claims.Keys;
      while keys != {}
        invariant keys <= claims.Keys
        invariant provided.claims == Merge(before, claims - keys)
      {
        var key :| key in keys;
        MergeOneMore(before, claims, keys, key);
        if key !in provided.claims {
          provided.claims := provided.claims[key := []];
        }
        provided.claims := provided.claims[key := provided.claims[key] + claims[key]];
        keys := keys - {key};
      }
      assert claims - {} == claims;
      validated := ticket;
    }

    static lemma MergeNothing(before: ClaimSet, claims: ClaimSet)
      ensures Merge(before, claims - claims.Keys) == before
    {
      forall key | key in before ensures Merge(before, claims - claims.Keys)[key] == before[key] {
        assert before[key] + [] == before[key];
      }
    }

    static lemma MergeOneMore(before: ClaimSet, claims: ClaimSet, keys: set<string>, key: string)
      requires key in keys && key in claims
      ensures var merged := Merge(before, claims - keys);
        Merge(before, claims - (keys - {key})) == merged[key := ClaimsFor(merged, key) + claims[key]]
    {
      var merged, more := Merge(before, claims - keys), Merge(before, claims - (keys - {key}));
      assert ClaimsFor(merged, key) == ClaimsFor(before, key) by {
        assert ClaimsFor(before, key) + [] == ClaimsFor(before, key);
      }
    }

    method ResolveTicket(ticket: Ticket) returns (resolution: Resolution)
      ensures resolution
        == ResolveImmediately(authorizer, allowPartialSuccess, ticket.permissions, ticket.provided.claims)
    {
      var permissions := NonEmpty(authorizer(ticket.provided.claims, ticket.permissions));
      if permissions == [] { return Required([]); }
      if allowPartialSuccess { return Granted(permissions); }
      var unmatched := UnmatchedPermissions(ticket.permissions, permissions);
      return if unmatched != [] then Required(unmatched) else Granted(permissions);
    }

    static method UnmatchedPermissions(required: seq<Permission>, permissions: seq<Permission>)
      returns (unmatched: seq<RequiredClaim>)
      ensures unmatched == Unmatched(permissions, required)
    {
      hide Ungranted, Unmatched;
      NoneUnmatched(permissions, required);
      unmatched := [];
      for i := 0 to |required|
        invariant unmatched + Unmatched(permissions, required[i..]) == Unmatched(permissions, required)
      {
        UnmatchedFrom(permissions, required, i);
        var missing := MissingFor(required[i], permissions);
        if missing != {} { unmatched := unmatched + [MissingScopes(missing)]; }
      }
    }

    static lemma NoneUnmatched(granted: seq<Permission>, required: seq<Permission>)
      ensures required[0..] == required && required[|required|..] == [] && Unmatched(granted, []) == []
    {}

    static lemma UnmatchedFrom(granted: seq<Permission>, required: seq<Permission>, i: nat)
      requires i < |required|
      ensures var missing := Ungranted(granted, required[i]);
        Unmatched(granted, required[i..]) ==
          (if missing == {} then [] else [MissingScopes(missing)]) + Unmatched(granted, required[i + 1..])
    {
      hide Ungranted;
      assert required[i..][1..] == required[i + 1..];
    }

    /** The scopes of a required permission that no result covers. */
    static method MissingFor(required: Permission, results: seq<Permission>) returns (missing: set<Term>)
      ensures missing == Ungranted(results, required)
    {
      hide Pairs;
      var scopeMatch := map s | s in required.scopes :: false;
      assert forall s :: (required.resource, s) !in Pairs(results[..0]) by { NoPairs(required, results); }
      for i := 0 to |results|
        invariant forall s | s in required.scopes :: s in scopeMatch
        invariant forall s | s in scopeMatch :: s in required.scopes || scopeMatch[s]
        invariant forall s | s in scopeMatch :: scopeMatch[s] <==> (required.resource, s) in Pairs(results[..i])
      {
        PairsOfNext(results, i);
        if required.resource == results[i].resource {
          scopeMatch := Mark(scopeMatch, results[i].scopes);
        }
      }
      assert results[..|results|] == results;
      missing := set s | s in scopeMatch && !scopeMatch[s];
    }

    static method Mark(scopeMatch: map<Term, bool>, scopes: seq<Term>) returns (marked: map<Term, bool>)
      ensures marked == scopeMatch + map s | s in scopes :: true
    {
      marked := scopeMatch;
      for j := 0 to |scopes|
        invariant marked == scopeMatch + map s | s in scopes[..j] :: true
      {
        marked := marked[scopes[j] := true];
      }
      assert scopes[..|scopes|] == scopes;
    }

    static lemma NoPairs(required: Permission, results: seq<Permission>)
      ensures forall s :: (required.resource, s) !in Pairs(results[..0])
    {}

    static lemma PairsOfNext(results: seq<Permission>, i: nat)
      requires i < |results|
      ensures forall r, s :: (r, s) in Pairs(results[..i + 1]) <==>
        (r, s) in Pairs(results[..i]) || (r == results[i].resource && s in results[i].scopes)
    {
      assert results[..i + 1] == results[..i] + [results[i]];
      PairsAppend(results[..i], [results[i]]);
      assert results[i] in [results[i]];
    }
  }

  class AggregatorStrategy {
    const strategy: ImmediateAuthorizerStrategy
    var registrationStore: map<Term, seq<Term>>         // the sources of the derived resources
    var derivationStore: map<Term, string>
    const decodeAggregateId: Term -> Option<Term>

    constructor (strategy: ImmediateAuthorizerStrategy, registrationStore: map<Term, seq<Term>>,
                 derivationStore: map<Term, string>, decodeAggregateId: Term -> Option<Term>)
      ensures this.strategy == strategy && this.decodeAggregateId == decodeAggregateId
      ensures this.registrationStore == registrationStore && this.derivationStore == derivationStore
    {
      this.strategy, this.decodeAggregateId := strategy, decodeAggregateId;
      this.registrationStore, this.derivationStore := registrationStore, derivationStore;
    }

    ghost function Settings(): Setup
      reads this, strategy
    {
      Setup(strategy.authorizer, strategy.allowPartialSuccess, registrationStore, derivationStore, decodeAggregateId)
    }

    method InitializeTicket(permissions: seq<Permission>) returns (ticket: Option<Ticket>)
      ensures ticket.Some? ==> fresh(ticket.value.provided)
      ensures (if ticket.Some? then Some(Value(ticket.value)) else None) == Initialize(Settings(), permissions)
    {
      ghost var setup := Settings();
      hide AllSources;
      var derivedIds, additional := [], [];
      NoSources(setup, permissions);
      for i := 0 to |permissions|
        invariant additional == SourcePermissions(derivedIds)
        invariant derivedIds + AllSources(setup, permissions[i..]) == AllSources(setup, permissions)
        invariant forall p | p in permissions[..i] :: SourcesOf(setup, p.resource) == [] || p.scopes == [Known(Read)]
      {
        var id, scopes := permissions[i].resource, permissions[i].scopes;
        var derivedFrom := if id in registrationStore then registrationStore[id] else [];
        if |derivedFrom| > 0 && (|scopes| != 1 || scopes[0] != Known(Read)) { return None; }
        ghost var before := derivedIds;
        for j := 0 to |derivedFrom|
          invariant derivedIds == before + derivedFrom[..j] && additional == SourcePermissions(derivedIds)
        {
          SourcePermissionsAppend(derivedIds, derivedFrom[j]);
          assert derivedFrom[..j + 1] == derivedFrom[..j] + [derivedFrom[j]];
          derivedIds := derivedIds + [derivedFrom[j]];
          additional := additional + [Permission(derivedFrom[j], [READ_SOURCE])];
        }
        assert derivedFrom[..|derivedFrom|] == derivedFrom;
        AllSourcesFrom(setup, permissions, i);
        assert permissions[..i + 1] == permissions[..i] + [permissions[i]];
      }
      assert permissions[..|permissions|] == permissions;
      assert derivedIds == AllSources(setup, permissions);
      var inner := strategy.InitializeTicket(permissions + additional);
      assert derivedIds + inner.derivedIds == derivedIds;
      ticket := Some(inner.(derivedIds := derivedIds + inner.derivedIds));
    }

    method ValidateClaims(ticket: Ticket, claims: ClaimSet) returns (validated: Ticket)
      modifies ticket.provided
      ensures validated.provided == ticket.provided
      ensures Value(validated) == Validate(Settings(), old(Value(ticket)), claims)
    {
      var read := DerivedReadIds(claims);
      var updated := RemainingPermissions(ticket, read);
      var newTicket, decodedIds := DecodeIds(ticket.(permissions := updated));
      var sourceTicket := strategy.ValidateClaims(newTicket, claims);
      validated := EncodeIds(sourceTicket, decodedIds);
    }

    static method DerivedReadIds(claims: ClaimSet) returns (ids: set<Term>)
      ensures ids == ReadIds(claims)
    {
      ids := {};
      if ACCESS in claims {
        var values := claims[ACCESS];
        for i := 0 to |values|
          invariant ids == set c | c in values[..i] && c.Access? && READ_SOURCE in c.scopes :: c.resource
        {
          assert values[..i + 1] == values[..i] + [values[i]];
          if values[i].Access? && READ_SOURCE in values[i].scopes { ids := ids + {values[i].resource}; }
        }
        assert values[..|values|] == values;
      }
    }

    method RemainingPermissions(ticket: Ticket, read: set<Term>) returns (updated: seq<Permission>)
      ensures updated == Satisfy(ticket.derivedIds, read, ticket.permissions)
    {
      hide Satisfy, WithoutScope;
      updated := [];
      NothingLeft(ticket, read);
      for i := 0 to |ticket.permissions|
        invariant updated + Satisfy(ticket.derivedIds, read, ticket.permissions[i..])
               == Satisfy(ticket.derivedIds, read, ticket.permissions)
      {
        var p := ticket.permissions[i];
        SatisfyFrom(ticket, read, i);
        if p.resource in ticket.derivedIds && p.resource in read && READ_SOURCE in p.scopes {
          var remaining := WithoutScope(p.scopes, READ_SOURCE);
          if |remaining| > 0 { updated := updated + [Permission(p.resource, remaining)]; }
        } else {
          updated := updated + [p];
        }
      }
    }

    static lemma NothingLeft(ticket: Ticket, read: set<Term>)
      ensures ticket.permissions[0..] == ticket.permissions && ticket.permissions[|ticket.permissions|..] == []
      ensures Satisfy(ticket.derivedIds, read, []) == []
    {}

    static lemma SatisfyFrom(ticket: Ticket, read: set<Term>, i: nat)
      requires i < |ticket.permissions|
      ensures Satisfy(ticket.derivedIds, read, ticket.permissions[i..])
           == SatisfyOne(ticket.derivedIds, read, ticket.permissions[i])
            + Satisfy(ticket.derivedIds, read, ticket.permissions[i + 1..])
    {
      hide SatisfyOne;
      assert ticket.permissions[i..][1..] == ticket.permissions[i + 1..];
    }

    method DecodeIds(ticket: Ticket) returns (decoded: Ticket, decodedIds: map<Term, Term>)
      ensures decodedIds == DecodedIds(Settings(), ticket.derivedIds, ticket.permissions)
      ensures decoded == ticket.(permissions := Decode(Settings(), ticket.derivedIds, ticket.permissions))
    {
      ghost var setup := Settings();
      decodedIds := map[];
      var updated := [];
      for i := 0 to |ticket.permissions|
        invariant decodedIds == DecodedIds(setup, ticket.derivedIds, ticket.permissions[..i])
        invariant updated == Decode(setup, ticket.derivedIds, ticket.permissions[..i])
      {
        var p := ticket.permissions[i];
        DecodeNext(setup, ticket.derivedIds, ticket.permissions, i);
        if p.resource !in ticket.derivedIds && READ_SOURCE in p.scopes && decodeAggregateId(p.resource).Some? {
          var id := decodeAggregateId(p.resource).value;
          decodedIds := decodedIds[id := p.resource];
          updated := updated + [p.(resource := id)];
        } else {
          updated := updated + [p];
        }
      }
      assert ticket.permissions[..|ticket.permissions|] == ticket.permissions;
      decoded := ticket.(permissions := updated);
    }

    static method EncodeIds(ticket: Ticket, decodedIds: map<Term, Term>) returns (encoded: Ticket)
      ensures encoded == ticket.(permissions := Encode(decodedIds, ticket.permissions))
    {
      if |decodedIds| == 0 {
        assert Encode(decodedIds, ticket.permissions) == ticket.permissions;
        return ticket;
      }
      encoded := ticket.(permissions := Encode(decodedIds, ticket.permissions));
    }

    method ResolveTicket(ticket: Ticket) returns (resolution: Resolution)
      ensures resolution == Resolve(Settings(), Value(ticket))
    {
      ghost var setup := Settings();
      hide SourcesMissing;
      NoneMissing(setup, ticket.derivedIds, ticket.permissions);
      var required := [];
      for i := 0 to |ticket.permissions|
        invariant forall p | p in ticket.permissions[..i] && IsSource(ticket.derivedIds, p) ::
          HasIssuer(setup, p.resource)
        invariant required + SourcesMissing(setup, ticket.derivedIds, ticket.permissions[i..])
               == SourcesMissing(setup, ticket.derivedIds, ticket.permissions)
      {
        var p := ticket.permissions[i];
        SourcesMissingFrom(setup, ticket.derivedIds, ticket.permissions, i);
        assert ticket.permissions[..i + 1] == ticket.permissions[..i] + [p];
        if p.resource in ticket.derivedIds && READ_SOURCE in p.scopes {
          if p.resource !in derivationStore || derivationStore[p.resource] == "" {
            assert p in ticket.permissions && IsSource(ticket.derivedIds, p);
            return Broken;
          }
          required := required + [MissingAccess(derivationStore[p.resource], p.resource)];
        }
      }
      assert ticket.permissions[..|ticket.permissions|] == ticket.permissions;
      var decoded, decodedIds := DecodeIds(ticket);
      var result := strategy.ResolveTicket(decoded);
      match result
      case Granted(permissions) =>
        if |required| > 0 { return Required(required); }
        return Granted(Encode(decodedIds, permissions));
      case Required(claims) => return Required(claims + required);
      case Broken => return Broken;
    }

    // ----- one more element -----

    static lemma NoSources(setup: Setup, permissions: seq<Permission>)
      ensures permissions[0..] == permissions && permissions[|permissions|..] == [] && AllSources(setup, []) == []
    {}

    static lemma AllSourcesFrom(setup: Setup, permissions: seq<Permission>, i: nat)
      requires i < |permissions|
      ensures AllSources(setup, permissions[i..])
           == SourcesOf(setup, permissions[i].resource) + AllSources(setup, permissions[i + 1..])
    {
      assert permissions[i..][1..] == permissions[i + 1..];
    }

    static lemma SourcePermissionsAppend(ids: seq<Term>, id: Term)
      ensures SourcePermissions(ids + [id]) == SourcePermissions(ids) + [Permission(id, [READ_SOURCE])]
    {}

    static lemma DecodeNext(setup: Setup, derivedIds: seq<Term>, permissions: seq<Permission>, i: nat)
      requires i < |permissions|
      ensures Decode(setup, derivedIds, permissions[..i + 1])
           == Decode(setup, derivedIds, permissions[..i]) + [DecodeOne(setup, derivedIds, permissions[i])]
      ensures var before := DecodedIds(setup, derivedIds, permissions[..i]);
        DecodedIds(setup, derivedIds, permissions[..i + 1]) ==
          if IsEncoded(setup, derivedIds, permissions[i])
          then before[setup.decode(permissions[i].resource).value := permissions[i].resource] else before
    {
      assert permissions[..i + 1][..i] == permissions[..i];
    }

    static lemma NoneMissing(setup: Setup, derivedIds: seq<Term>, permissions: seq<Permission>)
      ensures permissions[0..] == permissions && permissions[|permissions|..] == []
      ensures SourcesMissing(setup, derivedIds, []) == []
    {}

    static lemma SourcesMissingFrom(setup: Setup, derivedIds: seq<Term>, permissions: seq<Permission>, i: nat)
      requires i < |permissions|
      ensures SourcesMissing(setup, derivedIds, permissions[i..]) ==
        (if IsSource(derivedIds, permissions[i])
         then [MissingAccess(IssuerOf(setup, permissions[i].resource), permissions[i].resource)] else [])
        + SourcesMissing(setup, derivedIds, permissions[i + 1..])
    {
      assert permissions[i..][1..] == permissions[i + 1..];
    }
  }
}
