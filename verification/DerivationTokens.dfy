/** Tokens for the creation of derived resources: whoever gets one was granted the derivation-creation scope. */
module DerivationTokens {
  import opened Rdf
  import opened Permissions
  import opened TicketSpec
  import opened TicketTheory
  import opened DialogSpec
  import opened DialogTheory
  import opened RefreshTheory
  import opened PlainDialog

  const CREATION := Known(DerivationCreation)

  /** The ticket that is redeemed: the stored one, which has one permission, with the scope. */
  lemma DerivationTicket(w: World, s: DialogState, input: Input, now: int)
    returns (t: TicketValue, p: Permission, before: DialogState)
    requires Handle(w, s, AskDerivation(input, now)).0.TokenIssued?
    ensures input.ticket.Some? && input.ticket.value in s.tickets
    ensures s.tickets[input.ticket.value].permissions == [p]
    ensures TakeTicket(w, before, input).0 == Some(t) && before.refresh == s.refresh
    ensures t == s.tickets[input.ticket.value].(permissions := t.permissions)
    ensures exists scopes :: t.permissions == [Permission(p.resource, scopes)] && CREATION in scopes
    ensures Negotiate(w, before, input, now).0.TokenIssued?
    ensures var response := Handle(w, s, AskDerivation(input, now)).0;
      && response.permissions == Negotiate(w, before, input, now).0.permissions
      && response.partial == Negotiate(w, before, input, now).0.partial
      && response.derivation == Some(w.encode(p.resource))
  {
    hide Negotiate;
    var stored := s.tickets[input.ticket.value];
    p := stored.permissions[0];
    var scopes := p.scopes + [CREATION];
    t := stored.(permissions := [Permission(p.resource, scopes)]);
    before := s.(tickets := s.tickets[input.ticket.value := t]);
    assert CREATION in scopes && t.permissions == [Permission(p.resource, scopes)];
  }

  lemma OnePermissionIsUnambiguous(setup: Setup, derivedIds: seq<Term>, p: Permission)
    ensures Unambiguous(setup, derivedIds, [p])
  {
    assert forall q | q in [p] :: q == p;
  }

  /** Every token for a derivation names the resource of its ticket to the aggregator, and grants the scope on it,
      unless it is marked as partial. */
  lemma TokenIsForCreation(w: World, s: DialogState, input: Input, now: int)
    requires Handle(w, s, AskDerivation(input, now)).0.TokenIssued?
    ensures input.ticket.Some? && input.ticket.value in s.tickets && |s.tickets[input.ticket.value].permissions| == 1
    ensures var response := Handle(w, s, AskDerivation(input, now)).0;
      var resource := s.tickets[input.ticket.value].permissions[0].resource;
      && response.derivation == Some(w.encode(resource))
      && (!w.setup.allowPartial || !response.partial ==> (resource, CREATION) in Pairs(response.permissions))
  {
    var t, p, before := DerivationTicket(w, s, input, now);
    hide Handle, Negotiate, Unambiguous, TakeTicket;
    OnePermissionIsUnambiguous(w.setup, t.derivedIds, t.permissions[0]);
    assert t.permissions == [t.permissions[0]] && t.permissions[0] in t.permissions;
    assert (p.resource, CREATION) in Pairs(t.permissions);
    TokenMatchesTicket(w, before, input, now);
  }

  /** What a derivation-creation request is answered with is no token, or one that is for the derivation. */
  ghost predicate IsForCreation(w: World, s: DialogState, input: Input, response: Response) {
    response.TokenIssued? ==>
      && input.ticket.Some? && input.ticket.value in s.tickets && |s.tickets[input.ticket.value].permissions| == 1
      && var resource := s.tickets[input.ticket.value].permissions[0].resource;
         && response.derivation == Some(w.encode(resource))
         && (!w.setup.allowPartial || !response.partial ==> (resource, CREATION) in Pairs(response.permissions))
  }

  lemma DeriveIsForCreation(w: World, s: DialogState, input: Input, now: int)
    ensures IsForCreation(w, s, input, Derive(w, s, input, now).0)
  {
    if Handle(w, s, AskDerivation(input, now)).0.TokenIssued? { TokenIsForCreation(w, s, input, now); }
    hide Derive;
  }

  /** Someone presented claims for which the authorizer granted the scope, on the resource of the ticket or on the one
      that its identifier stands for. */
  lemma CreationIsDecided(w: World, s: DialogState, input: Input, now: int)
    returns (resource: Term, claims: ClaimSet, query: seq<Permission>)
    requires Handle(w, s, AskDerivation(input, now)).0.TokenIssued?
    requires !w.setup.allowPartial || !Handle(w, s, AskDerivation(input, now)).0.partial
    ensures (resource, CREATION) in Pairs(w.setup.authorizer(claims, query))
    ensures var named := s.tickets[input.ticket.value].permissions[0].resource;
      resource == named || w.setup.decode(named) == Some(resource)
    ensures AcceptedTokens(w, s.refresh, now, input.tokens) == |input.tokens|
    ensures forall key :: ClaimsFor(claims, key) == ClaimsFor(s.tickets[input.ticket.value].provided, key)
                                                  + Presented(Round(w, s.refresh, now, input.tokens), key)
  {
    TokenIsForCreation(w, s, input, now);
    var t, p, before := DerivationTicket(w, s, input, now);
    hide Handle, Negotiate, TakeTicket, Resolve, ValidateAll, Presented, ClaimsFor, Issue;
    var taken, round := IssuedFrom(w, before, input, now);
    assert taken == t;
    var v := ValidateAll(w.setup, t, round);
    forall key ensures ClaimsFor(v.provided, key) == ClaimsFor(t.provided, key) + Presented(round, key) {
      RoundAccumulates(w.setup, t, round, key);
    }
    claims := v.provided;
    IssuedPermissions(w, before, v, taken, round, input, now);
    resource, query := GrantedPair(w.setup, v, p.resource, CREATION);
  }

  lemma IssuedPermissions(w: World, before: DialogState, v: TicketValue, t: TicketValue, round: seq<ClaimSet>,
                          input: Input, now: int)
    requires Negotiate(w, before, input, now).0.TokenIssued? && Resolve(w.setup, v).Granted?
    requires Negotiate(w, before, input, now)
          == Issue(w, TakeTicket(w, before, input).1, v, Resolve(w.setup, v).permissions, now)
    ensures Negotiate(w, before, input, now).0.permissions == Resolve(w.setup, v).permissions
  {
    hide Negotiate, Resolve, TakeTicket, IsPartial, SubOf;
  }

  /** What a resolved ticket grants, the authorizer granted, on the resource itself or on the one it stands for. */
  lemma GrantedPair(setup: Setup, v: TicketValue, named: Term, scope: Term)
    returns (resource: Term, query: seq<Permission>)
    requires Resolve(setup, v).Granted? && (named, scope) in Pairs(Resolve(setup, v).permissions)
    ensures (resource, scope) in Pairs(setup.authorizer(v.provided, query))
    ensures resource == named || setup.decode(named) == Some(resource)
  {
    ResolvedFrom(setup, v);
    query := Decode(setup, v.derivedIds, v.permissions);
    var granted := setup.authorizer(v.provided, query);
    NonEmptyPairs(granted);
    hide Resolve, Decode, DecodedIds, Encode, Pairs, NonEmpty, Unmatched;
    var inner := NonEmpty(granted);
    var ids := DecodedIds(setup, v.derivedIds, v.permissions);
    assert ResolveImmediately(setup.authorizer, setup.allowPartial, query, v.provided).permissions == inner;
    resource := EncodedPair(ids, inner, named, scope);
    if resource in ids { var p := EncodedFor(setup, v.derivedIds, v.permissions, resource); }
  }

  /** Hence nobody gets such a token whom the authorizer refuses the scope on the resource, whatever the claims. */
  lemma RefusedGetsNoToken(w: World, s: DialogState, input: Input, now: int)
    requires !w.setup.allowPartial && input.ticket.Some? && input.ticket.value in s.tickets
    requires forall resource, claims, query |
      && |s.tickets[input.ticket.value].permissions| == 1
      && var named := s.tickets[input.ticket.value].permissions[0].resource;
         resource == named || w.setup.decode(named) == Some(resource) ::
      (resource, CREATION) !in Pairs(w.setup.authorizer(claims, query))
    ensures !Handle(w, s, AskDerivation(input, now)).0.TokenIssued?
  {
    hide Handle, Pairs;
    if Handle(w, s, AskDerivation(input, now)).0.TokenIssued? {
      TokenIsForCreation(w, s, input, now);
      var resource, claims, query := CreationIsDecided(w, s, input, now);
    }
  }

  /** Without a known ticket for exactly one permission nothing is negotiated. */
  lemma OtherTicketsAreRefused(w: World, s: DialogState, input: Input, now: int)
    requires input.ticket.None? || input.ticket.value !in s.tickets
      || |s.tickets[input.ticket.value].permissions| != 1
    ensures Handle(w, s, AskDerivation(input, now)) == (BadRequest, s)
  {}

  // ----- partial success -----

  /** A server that allows partial success, and grants this whatever it is asked for. */
  function Partly(granted: seq<Permission>): World {
    World(Setup((claims: ClaimSet, query: seq<Permission>) => granted, true, map[], map[], (x: Term) => None),
          {PUBLIC.resource}, (token: string, format: string) => None, None, (x: Term) => x, false, 0)
  }

  lemma PublicTicketIsStored()
    ensures Handle(Partly([]), NOTHING, AskTicket([PUBLIC])) ==
      (TicketCreated(0), DialogState(map[0 := TicketValue([], [PUBLIC], map[])], map[], 1))
  {
    assert Plain(Partly([]).setup);
    PlainTicket(Partly([]).setup, PUBLIC);
    PlainResolve(Partly([]).setup, TicketValue([], [PUBLIC], map[]));
    hide Initialize, Resolve;
    assert NOTHING.tickets[0 := TicketValue([], [PUBLIC], map[])] == map[0 := TicketValue([], [PUBLIC], map[])];
  }

  /** With partial success a token for a derivation need not grant the scope: here it grants the rest of the ticket, and
      the derivation is named all the same. */
  lemma PartialTokenLacksScope()
    ensures var s := Handle(Partly([]), NOTHING, AskTicket([PUBLIC])).1;
      var response := Handle(Partly([PUBLIC]), s, AskDerivation(Input(Some(0), None, []), 0)).0;
      && response.TokenIssued? && response.partial && response.derivation == Some(PUBLIC.resource)
      && (PUBLIC.resource, CREATION) !in Pairs(response.permissions)
  {
    PublicTicketIsStored();
    var w, p := Partly([PUBLIC]), Permission(PUBLIC.resource, [Known(Read), CREATION]);
    var t := TicketValue([], [p], map[]);
    assert Plain(w.setup);
    PlainResolve(w.setup, t);
    assert NonEmpty([PUBLIC]) == [PUBLIC] by { assert [PUBLIC][1..] == []; }
    assert Resolve(w.setup, t) == Granted([PUBLIC]);
    assert IsPartial([p], [PUBLIC]) by { assert p in [p]; }
    assert PUBLIC.scopes + [CREATION] == p.scopes;
    hide Resolve, IsPartial;
    assert ValidateAll(w.setup, t, []) == t;
    assert Round(w, map[], 0, []) == [];
    hide ValidateAll;
  }
}
