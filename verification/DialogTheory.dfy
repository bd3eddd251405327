/** What holds over a whole token dialog and over any sequence of requests. */
module DialogTheory {
  import opened Rdf
  import opened Permissions
  import opened TicketSpec
  import opened TicketTheory
  import opened DialogSpec

  // ----- claims accumulate -----

  /** The values of one type of claim, over all claims of a round in order. */
  function Presented(round: seq<ClaimSet>, key: string): seq<ClaimValue> {
    if round == [] then [] else Presented(round[..|round| - 1], key) + ClaimsFor(round[|round| - 1], key)
  }

  lemma MergeSpec(provided: ClaimSet, claims: ClaimSet, key: string)
    ensures ClaimsFor(Merge(provided, claims), key) == ClaimsFor(provided, key) + ClaimsFor(claims, key)
  {}

  lemma ValidateMerges(setup: Setup, t: TicketValue, claims: ClaimSet, key: string)
    ensures Validate(setup, t, claims).derivedIds == t.derivedIds
    ensures ClaimsFor(Validate(setup, t, claims).provided, key) == ClaimsFor(t.provided, key) + ClaimsFor(claims, key)
  {
    hide Merge, ClaimsFor, Satisfy, Decode, Encode, DecodedIds;
    MergeSpec(t.provided, claims, key);
  }

  lemma {:induction false} RoundAccumulates(setup: Setup, t: TicketValue, round: seq<ClaimSet>, key: string)
    ensures ClaimsFor(ValidateAll(setup, t, round).provided, key) == ClaimsFor(t.provided, key) + Presented(round, key)
    ensures ValidateAll(setup, t, round).derivedIds == t.derivedIds
  {
    hide Validate, ClaimsFor;
    if round != [] {
      var n := |round| - 1;
      RoundAccumulates(setup, t, round[..n], key);
      ValidateMerges(setup, ValidateAll(setup, t, round[..n]), round[n], key);
      var a, b, c := ClaimsFor(t.provided, key), Presented(round[..n], key), ClaimsFor(round[n], key);
      assert (a + b) + c == a + (b + c);
    } else {
      assert ClaimsFor(t.provided, key) + [] == ClaimsFor(t.provided, key);
    }
  }

  /** A request for more information gives up the old ticket id for a fresh one. The ticket keeps its
      permissions, and has for each type of claim the earlier values and then those of this round. */
  lemma NeedInfoAccumulates(w: World, s: DialogState, input: Input, now: int, key: string)
    requires input.ticket.Some? && input.ticket.value in s.tickets && Negotiate(w, s, input, now).0.NeedInfo?
    ensures var (response, after) := Negotiate(w, s, input, now);
      && response.ticket == s.serial && after.refresh == s.refresh && after.serial == s.serial + 1
      && s.serial in after.tickets && after.tickets - {s.serial} == s.tickets - {input.ticket.value} - {s.serial}
    ensures var before, t := s.tickets[input.ticket.value], Negotiate(w, s, input, now).1.tickets[s.serial];
      && t.permissions == before.permissions && t.derivedIds == before.derivedIds
      && AcceptedTokens(w, s.refresh, now, input.tokens) == |input.tokens|
      && ClaimsFor(t.provided, key)
         == ClaimsFor(before.provided, key) + Presented(Round(w, s.refresh, now, input.tokens), key)
  {
    NeedInfoState(w, s, input, now);
    hide Negotiate, ValidateAll, Presented, ClaimsFor;
    RoundAccumulates(w.setup, s.tickets[input.ticket.value], Round(w, s.refresh, now, input.tokens), key);
  }

  lemma NeedInfoState(w: World, s: DialogState, input: Input, now: int)
    requires input.ticket.Some? && input.ticket.value in s.tickets && Negotiate(w, s, input, now).0.NeedInfo?
    ensures AcceptedTokens(w, s.refresh, now, input.tokens) == |input.tokens|
    ensures var t := s.tickets[input.ticket.value];
      var (response, after) := Negotiate(w, s, input, now);
      && response.ticket == s.serial
      && after == DialogState(
           (s.tickets - {input.ticket.value})[s.serial :=
             t.(provided := ValidateAll(w.setup, t, Round(w, s.refresh, now, input.tokens)).provided)],
           s.refresh, s.serial + 1)
  {
    hide Resolve, ValidateAll, IsPartial, SubOf;
    RefusalsAreErrors(w, s.refresh, now, input.tokens);
  }

  lemma RefusalsAreErrors(w: World, refresh: map<nat, RefreshInformation>, now: int, tokens: seq<CredentialToken>)
    ensures var n := AcceptedTokens(w, refresh, now, tokens);
      n < |tokens| ==> Verify(w, refresh, now, tokens[n]).response in {BadRequest, Forbidden}
  {}

  // ----- issued tokens -----

  /** Where an issued token comes from. */
  lemma IssuedFrom(w: World, s: DialogState, input: Input, now: int) returns (t: TicketValue, round: seq<ClaimSet>)
    requires Negotiate(w, s, input, now).0.TokenIssued?
    ensures TakeTicket(w, s, input).0 == Some(t)
    ensures AcceptedTokens(w, s.refresh, now, input.tokens) == |input.tokens|
      && round == Round(w, s.refresh, now, input.tokens)
    ensures Resolve(w.setup, ValidateAll(w.setup, t, round)).Granted?
    ensures Negotiate(w, s, input, now) == Issue(w, TakeTicket(w, s, input).1, ValidateAll(w.setup, t, round),
              Resolve(w.setup, ValidateAll(w.setup, t, round)).permissions, now)
  {
    RefusalsAreErrors(w, s.refresh, now, input.tokens);
    hide Resolve, ValidateAll, TakeTicket, Issue;
    t := TakeTicket(w, s, input).0.value;
    round := Round(w, s.refresh, now, input.tokens);
  }

  /** Every stored ticket still requires access to its sources. */
  ghost predicate TicketsOk(s: DialogState) {
    && (forall id | id in s.tickets :: id < s.serial && SourcesRequired(s.tickets[id]))
    && (forall id | id in s.refresh :: id < s.serial)
  }

  lemma TakenIsOk(w: World, s: DialogState, input: Input)
    requires TicketsOk(s) && TakeTicket(w, s, input).0.Some?
    ensures SourcesRequired(TakeTicket(w, s, input).0.value)
  {
    if input.ticket.None? { InitializeSpec(w.setup, input.permissions.value); }
    hide Initialize, SourcesRequired;
  }

  /** A token is issued only if access to every source added to its ticket was proved in that same round. */
  lemma IssuedOnlyIfCovered(w: World, s: DialogState, input: Input, now: int, d: Term)
    requires TicketsOk(s) && Negotiate(w, s, input, now).0.TokenIssued?
    requires NoCollision(w.setup, TakeTicket(w, s, input).0.value) && d in TakeTicket(w, s, input).0.value.derivedIds
    ensures AcceptedTokens(w, s.refresh, now, input.tokens) == |input.tokens|
    ensures Covered(Round(w, s.refresh, now, input.tokens), d)
  {
    hide Negotiate, TakeTicket, SourcesRequired, NoCollision, Covered, Resolve, ValidateAll;
    var t, round := IssuedFrom(w, s, input, now);
    TakenIsOk(w, s, input);
    ResolvedOnlyIfCovered(w.setup, t, round, d);
  }

  // ----- what validation does to the permissions -----

  lemma ValidateUnambiguous(setup: Setup, t: TicketValue, claims: ClaimSet)
    requires Unambiguous(setup, t.derivedIds, t.permissions)
    ensures Validate(setup, t, claims).permissions == Satisfy(t.derivedIds, ReadIds(claims), t.permissions)
    ensures Unambiguous(setup, t.derivedIds, Validate(setup, t, claims).permissions)
  {
    var read := ReadIds(claims);
    var satisfied := Satisfy(t.derivedIds, read, t.permissions);
    hide Satisfy, ReadIds, DecodedIds, SatisfyOne;
    forall p, q | p in satisfied && q in satisfied && IsEncoded(setup, t.derivedIds, p)
      && DecodeOne(setup, t.derivedIds, q).resource == setup.decode(p.resource).value
      ensures q.resource == p.resource
    {
      var p0 := SatisfiedFrom(t.derivedIds, read, t.permissions, p);
      var q0 := SatisfiedFrom(t.derivedIds, read, t.permissions, q);
      SatisfiedIsEncoded(setup, t.derivedIds, read, p0, p);
      SatisfiedIsEncoded(setup, t.derivedIds, read, q0, q);
    }
    RoundTripIff(setup, t.derivedIds, satisfied);
  }

  /** The derivation-read scopes of added sources. */
  predicate IsSourcePair(derivedIds: seq<Term>, pair: (Term, Term)) {
    pair.0 in derivedIds && pair.1 == READ_SOURCE
  }

  lemma SatisfyPairs(derivedIds: seq<Term>, read: set<Term>, permissions: seq<Permission>)
    ensures forall pair :: pair in Pairs(Satisfy(derivedIds, read, permissions)) <==>
      pair in Pairs(permissions) && !(IsSourcePair(derivedIds, pair) && pair.0 in read)
  {
    var satisfied := Satisfy(derivedIds, read, permissions);
    forall pair | pair in Pairs(satisfied)
      ensures pair in Pairs(permissions) && !(IsSourcePair(derivedIds, pair) && pair.0 in read)
    {
      var q := PermissionWith(satisfied, pair.0, pair.1);
      var p := SatisfiedFrom(derivedIds, read, permissions, q);
      WithoutScopeSpec(p.scopes, READ_SOURCE);
      PairOf(permissions, p, pair.1);
    }
    forall pair | pair in Pairs(permissions) && !(IsSourcePair(derivedIds, pair) && pair.0 in read)
      ensures pair in Pairs(satisfied)
    {
      var p := PermissionWith(permissions, pair.0, pair.1);
      SatisfyKeeps(derivedIds, read, permissions, p, pair.1);
    }
  }

  lemma SatisfyKeeps(derivedIds: seq<Term>, read: set<Term>, permissions: seq<Permission>, p: Permission, scope: Term)
    requires p in permissions && scope in p.scopes
      && !(IsSourcePair(derivedIds, (p.resource, scope)) && p.resource in read)
    ensures (p.resource, scope) in Pairs(Satisfy(derivedIds, read, permissions))
  {
    SatisfySpec(derivedIds, read, permissions);
    WithoutScopeSpec(p.scopes, READ_SOURCE);
    hide Satisfy, WithoutScope, Pairs;
    var kept := SatisfyOne(derivedIds, read, p);
    assert kept != [] && kept[0] in kept && kept[0].resource == p.resource && scope in kept[0].scopes;
    assert kept[0] in Satisfy(derivedIds, read, permissions);
    PairOf(Satisfy(derivedIds, read, permissions), kept[0], scope);
  }

  lemma CoveredAtLast(round: seq<ClaimSet>)
    requires round != []
    ensures forall d :: Covered(round, d) <==> Covered(round[..|round| - 1], d) || Proves(round[|round| - 1], d)
  {
    hide Proves;
    assert round == round[..|round| - 1] + [round[|round| - 1]];
  }

  lemma {:induction false} RoundPairs(setup: Setup, t: TicketValue, round: seq<ClaimSet>)
    requires Unambiguous(setup, t.derivedIds, t.permissions)
    ensures var v := ValidateAll(setup, t, round);
      v.derivedIds == t.derivedIds && Unambiguous(setup, v.derivedIds, v.permissions)
    ensures forall pair :: pair in Pairs(ValidateAll(setup, t, round).permissions) <==>
      pair in Pairs(t.permissions) && !(IsSourcePair(t.derivedIds, pair) && Covered(round, pair.0))
  {
    if round != [] {
      var n := |round| - 1;
      RoundPairs(setup, t, round[..n]);
      var v := ValidateAll(setup, t, round[..n]);
      ValidateUnambiguous(setup, v, round[n]);
      SatisfyPairs(t.derivedIds, ReadIds(round[n]), v.permissions);
      ReadIdsAreProved(round[n]);
      hide Unambiguous, Pairs, ReadIds, Proves, Satisfy;
      CoveredAtLast(round);
      hide Covered, ValidateAll;
    }
  }

  /** The token grants only what its ticket asks for, and no access to sources. Without partial success, and whenever
      the response is not marked as partial, it grants all of it, apart from the access to sources. */
  lemma TokenMatchesTicket(w: World, s: DialogState, input: Input, now: int)
    requires Negotiate(w, s, input, now).0.TokenIssued?
    requires var t := TakeTicket(w, s, input).0.value; Unambiguous(w.setup, t.derivedIds, t.permissions)
    ensures var t := TakeTicket(w, s, input).0.value;
      var response := Negotiate(w, s, input, now).0;
      && (Bounded(w.setup.authorizer) ==> forall pair | pair in Pairs(response.permissions) ::
            pair in Pairs(t.permissions) && !IsSourcePair(t.derivedIds, pair))
      && (!w.setup.allowPartial || !response.partial ==>
            forall pair | pair in Pairs(t.permissions) && !IsSourcePair(t.derivedIds, pair) ::
              pair in Pairs(response.permissions))
  {
    hide Negotiate, TakeTicket, Resolve, ValidateAll, Unambiguous, Pairs, IsPartial, Bounded, Covered;
    var t, round := IssuedFrom(w, s, input, now);
    var v := ValidateAll(w.setup, t, round);
    RoundPairs(w.setup, t, round);
    GrantsMatchTicket(w.setup, v);
    forall d | d in t.derivedIds
      ensures (d, READ_SOURCE) !in Pairs(v.permissions) { ResolvedHasNoSource(w.setup, v, d); }
    if !Negotiate(w, s, input, now).0.partial { NotPartialGrantsAll(v.permissions, Resolve(w.setup, v).permissions); }
  }

  // ----- every run -----

  lemma NegotiateKeepsOk(w: World, s: DialogState, input: Input, now: int)
    requires TicketsOk(s)
    ensures TicketsOk(Negotiate(w, s, input, now).1)
  {
    hide SourcesRequired, Initialize, ValidateAll, Resolve, IsPartial, AcceptedTokens, Pairs;
    if TakeTicket(w, s, input).0.Some? {
      TakenIsOk(w, s, input);
      StillRequired(TakeTicket(w, s, input).0.value);
    }
  }

  lemma StillRequired(t: TicketValue)
    requires SourcesRequired(t)
    ensures forall claims :: SourcesRequired(t.(provided := claims))
  {}

  lemma DeriveKeepsOk(w: World, s: DialogState, input: Input, now: int)
    requires TicketsOk(s)
    ensures TicketsOk(Derive(w, s, input, now).1)
  {
    hide Negotiate;
    if input.ticket.Some? && input.ticket.value in s.tickets && |s.tickets[input.ticket.value].permissions| == 1 {
      var t := s.tickets[input.ticket.value];
      var p := t.permissions[0];
      var extended := t.(permissions := [p.(scopes := p.scopes + [Known(DerivationCreation)])]);
      ExtendedIsOk(t, extended, p);
      hide SourcesRequired;
      NegotiateKeepsOk(w, s.(tickets := s.tickets[input.ticket.value := extended]), input, now);
    }
  }

  lemma ExtendedIsOk(t: TicketValue, extended: TicketValue, p: Permission)
    requires SourcesRequired(t) && t.permissions == [p] && extended.derivedIds == t.derivedIds
    requires extended.permissions == [p.(scopes := p.scopes + [Known(DerivationCreation)])]
    ensures SourcesRequired(extended)
  {
    forall d | d in t.derivedIds ensures (d, READ_SOURCE) in Pairs(extended.permissions) {
      var q := PermissionWith(t.permissions, d, READ_SOURCE);
      PairOf(extended.permissions, extended.permissions[0], READ_SOURCE);
    }
  }

  lemma HandleKeepsOk(w: World, s: DialogState, r: DialogRequest)
    requires TicketsOk(s)
    ensures TicketsOk(Handle(w, s, r).1) && s.serial <= Handle(w, s, r).1.serial
  {
    HandleGrows(w, s, r);
    hide Negotiate, Derive, SourcesRequired, Initialize, Resolve;
    match r
    case AskTicket(permissions) =>
      if Initialize(w.setup, permissions).Some? { InitializeSpec(w.setup, permissions); }
    case AskToken(input, now) => NegotiateKeepsOk(w, s, input, now);
    case AskDerivation(input, now) => DeriveKeepsOk(w, s, input, now);
    case AskRefresh(id, now, later) =>
      if id in s.refresh {
        NegotiateKeepsOk(w, s, Input(None, Some(s.refresh[id].permissions), [RefreshToken(id)]), later);
      }
  }

  /** New identifiers are fresh: an identifier that is gone, or that was never given out below the next one,
      does not come back. */
  ghost predicate Grows(s: DialogState, after: DialogState) {
    && s.serial <= after.serial
    && (forall id | id in after.tickets && id !in s.tickets :: s.serial <= id < after.serial)
    && (forall id | id in after.refresh && id !in s.refresh :: s.serial <= id < after.serial)
  }

  lemma NegotiateGrows(w: World, s: DialogState, input: Input, now: int)
    ensures Grows(s, Negotiate(w, s, input, now).1)
  {
    hide Initialize, ValidateAll, Resolve, IsPartial, AcceptedTokens, SubOf;
  }

  lemma HandleGrows(w: World, s: DialogState, r: DialogRequest)
    ensures Grows(s, Handle(w, s, r).1)
  {
    hide Negotiate, Initialize, Resolve;
    match r
    case AskTicket(permissions) =>
    case AskToken(input, now) => NegotiateGrows(w, s, input, now);
    case AskDerivation(input, now) =>
      if input.ticket.Some? && input.ticket.value in s.tickets && |s.tickets[input.ticket.value].permissions| == 1 {
        var p := s.tickets[input.ticket.value].permissions[0];
        var extended :=
          s.tickets[input.ticket.value].(permissions := [p.(scopes := p.scopes + [Known(DerivationCreation)])]);
        NegotiateGrows(w, s.(tickets := s.tickets[input.ticket.value := extended]), input, now);
      }
    case AskRefresh(id, now, later) =>
      if id in s.refresh {
        NegotiateGrows(w, s, Input(None, Some(s.refresh[id].permissions), [RefreshToken(id)]), later);
      }
  }

  const NOTHING := DialogState(map[], map[], 0)

  /** In every reachable state, each ticket requires access to all sources that were added to it. */
  lemma {:induction false} RunsKeepOk(s: DialogState, run: seq<(World, DialogRequest)>)
    requires TicketsOk(s)
    ensures TicketsOk(HandleAll(s, run))
    decreases |run|
  {
    hide Handle, TicketsOk;
    if run != [] {
      HandleKeepsOk(run[0].0, s, run[0].1);
      RunsKeepOk(Handle(run[0].0, s, run[0].1).1, run[1..]);
    }
  }

  // ----- identifiers are used once -----

  /** The request takes the ticket out of the store. */
  predicate Redeems(s: DialogState, r: DialogRequest, id: nat) {
    && id in s.tickets
    && match r
       case AskToken(input, _) => input.ticket == Some(id)
       case AskDerivation(input, _) => input.ticket == Some(id) && |s.tickets[id].permissions| == 1
       case _ => false
  }

  predicate Refreshes(w: World, s: DialogState, r: DialogRequest, id: nat) {
    r.AskRefresh? && r.id == id && Handle(w, s, r).0.TokenIssued?
  }

  lemma RedeemedIsGone(w: World, s: DialogState, r: DialogRequest, id: nat)
    requires Redeems(s, r, id) && id < s.serial
    ensures id !in Handle(w, s, r).1.tickets
  {
    hide Initialize, ValidateAll, Resolve, IsPartial, AcceptedTokens, SubOf, AfterVerify, Verify;
  }

  lemma RefreshedIsGone(w: World, s: DialogState, r: DialogRequest, id: nat)
    requires Refreshes(w, s, r, id)
    ensures id in s.refresh && id !in Handle(w, s, r).1.refresh
  {
    hide Negotiate;
  }

  function Redemptions(s: DialogState, run: seq<(World, DialogRequest)>, id: nat): nat
    decreases |run|
  {
    if run == [] then 0
    else (if Redeems(s, run[0].1, id) then 1 else 0) + Redemptions(Handle(run[0].0, s, run[0].1).1, run[1..], id)
  }

  function Refreshments(s: DialogState, run: seq<(World, DialogRequest)>, id: nat): nat
    decreases |run|
  {
    if run == [] then 0
    else (if Refreshes(run[0].0, s, run[0].1, id) then 1 else 0)
         + Refreshments(Handle(run[0].0, s, run[0].1).1, run[1..], id)
  }

  /** Each ticket is redeemed at most once, and not at all when it is gone. */
  lemma {:induction false} TicketsAreUsedOnce(s: DialogState, run: seq<(World, DialogRequest)>, id: nat)
    requires TicketsOk(s)
    ensures Redemptions(s, run, id) <= if id in s.tickets || s.serial <= id then 1 else 0
    decreases |run|
  {
    hide Handle, Redeems, TicketsOk;
    if run != [] {
      var after := Handle(run[0].0, s, run[0].1).1;
      HandleKeepsOk(run[0].0, s, run[0].1);
      HandleGrows(run[0].0, s, run[0].1);
      TicketsAreUsedOnce(after, run[1..], id);
      if Redeems(s, run[0].1, id) {
        TicketIsKnown(s, run[0].1, id);
        RedeemedIsGone(run[0].0, s, run[0].1, id);
      }
    }
  }

  lemma TicketIsKnown(s: DialogState, r: DialogRequest, id: nat)
    requires TicketsOk(s) && Redeems(s, r, id)
    ensures id in s.tickets && id < s.serial
  {}

  lemma RefreshIsKnown(s: DialogState, id: nat)
    requires TicketsOk(s) && id in s.refresh
    ensures id < s.serial
  {}

  /** Refresh requests give a new token for each refresh token at most once. Token requests may also present it,
      as a credential: those are not counted here. */
  lemma {:induction false} RefreshTokensAreUsedOnce(s: DialogState, run: seq<(World, DialogRequest)>, id: nat)
    requires TicketsOk(s)
    ensures Refreshments(s, run, id) <= if id in s.refresh || s.serial <= id then 1 else 0
    decreases |run|
  {
    hide Handle, Refreshes, TicketsOk;
    if run != [] {
      var after := Handle(run[0].0, s, run[0].1).1;
      HandleKeepsOk(run[0].0, s, run[0].1);
      HandleGrows(run[0].0, s, run[0].1);
      RefreshTokensAreUsedOnce(after, run[1..], id);
      if Refreshes(run[0].0, s, run[0].1, id) {
        RefreshedIsGone(run[0].0, s, run[0].1, id);
        RefreshIsKnown(s, id);
      }
    }
  }
}
