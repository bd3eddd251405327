/** The token dialog without aggregation: resolution is that of the inner strategy, and a ticket for one
    permission gives a token for it or nothing. */
module PlainDialog {
  import opened Rdf
  import opened Permissions
  import opened TicketSpec
  import opened TicketTheory
  import opened DialogSpec
  import opened DialogTheory
  import opened RefreshTheory

  // ----- tickets without aggregation -----

  lemma {:induction false} NothingToSatisfy(read: set<Term>, permissions: seq<Permission>)
    ensures Satisfy([], read, permissions) == permissions
  {
    if permissions != [] {
      NothingToSatisfy(read, permissions[1..]);
      assert permissions == [permissions[0]] + permissions[1..];
    }
  }

  lemma {:induction false} PlainRound(setup: Setup, t: TicketValue, round: seq<ClaimSet>)
    requires Plain(setup) && t.derivedIds == []
    ensures var v := ValidateAll(setup, t, round); v.derivedIds == [] && v.permissions == t.permissions
  {
    if round != [] {
      var n := |round| - 1;
      PlainRound(setup, t, round[..n]);
      var v := ValidateAll(setup, t, round[..n]);
      ValidateUnambiguous(setup, v, round[n]);
      NothingToSatisfy(ReadIds(round[n]), v.permissions);
      hide Satisfy, ReadIds, Unambiguous;
    }
  }

  lemma {:induction false} NothingDecoded(setup: Setup, permissions: seq<Permission>)
    requires Plain(setup)
    ensures DecodedIds(setup, [], permissions) == map[]
  {
    if permissions != [] { NothingDecoded(setup, permissions[..|permissions| - 1]); }
  }

  lemma PlainResolve(setup: Setup, t: TicketValue)
    requires Plain(setup) && t.derivedIds == []
    ensures Resolve(setup, t) == ResolveImmediately(setup.authorizer, setup.allowPartial, t.permissions, t.provided)
  {
    NothingDecoded(setup, t.permissions);
    MissingSources(setup, [], t.permissions);
    hide ResolveImmediately, DecodedIds, SourcesMissing, SourcesOf;
    assert Decode(setup, [], t.permissions) == t.permissions;
    var inner := ResolveImmediately(setup.authorizer, setup.allowPartial, t.permissions, t.provided);
    if inner.Granted? { assert Encode(map[], inner.permissions) == inner.permissions; }
    if inner.Required? { assert inner.claims + [] == inner.claims; }
  }

  // ----- a ticket for one permission -----

  /** A ticket for one permission, all of whose scopes are decided alike. */
  lemma OnePermissionResolves(setup: Setup, p: Permission, provided: ClaimSet)
    requires p.scopes != [] && setup.authorizer(provided, [p]) in {[p], []}
    ensures ResolveImmediately(setup.authorizer, setup.allowPartial, [p], provided)
         == if setup.authorizer(provided, [p]) == [p] then Granted([p]) else Required([])
  {
    NothingUnmatchedIff([p], [p]);
    assert NonEmpty([p]) == [p] by { assert [p][1..] == []; }
    hide Unmatched, Pairs;
  }

  lemma OnePermissionIsWhole(p: Permission)
    ensures !IsPartial([p], [p])
  {
    assert p in [p];
  }

  lemma PlainTicket(setup: Setup, p: Permission)
    requires Plain(setup)
    ensures Initialize(setup, [p]) == Some(TicketValue([], [p], map[]))
  {
    PlainIsFaithful(setup, [p]);
    hide AllSources, SourcesOf;
    assert [p] + SourcePermissions([]) == [p];
  }

  /** The claims that a ticket holds after an accepted round of credentials. */
  ghost function ClaimsAfter(w: World, s: DialogState, t: TicketValue, tokens: seq<CredentialToken>, now: int): ClaimSet
    requires AcceptedTokens(w, s.refresh, now, tokens) == |tokens|
  {
    ValidateAll(w.setup, t, Round(w, s.refresh, now, tokens)).provided
  }

  /** The request takes a ticket for just this permission, from the store or by creating it. */
  ghost predicate TakesTicketFor(w: World, s: DialogState, input: Input, p: Permission) {
    && TakeTicket(w, s, input).0.Some?
    && TakeTicket(w, s, input).0.value.derivedIds == [] && TakeTicket(w, s, input).0.value.permissions == [p]
  }

  lemma NewTicketIsFor(w: World, s: DialogState, p: Permission, tokens: seq<CredentialToken>)
    requires Plain(w.setup)
    ensures TakesTicketFor(w, s, Input(None, Some([p]), tokens), p)
    ensures TakeTicket(w, s, Input(None, Some([p]), tokens)) == (Some(TicketValue([], [p], map[])), s)
  {
    PlainTicket(w.setup, p);
    hide Initialize;
  }

  /** The state after a token for `p` was issued on these claims. */
  function IssuedState(w: World, taken: DialogState, p: Permission, claims: ClaimSet, now: int): DialogState {
    if w.refreshes
    then taken.(refresh := taken.refresh[taken.serial := RefreshInformation(claims, [p], now + w.lifetime)],
                serial := taken.serial + 1)
    else taken
  }

  lemma NegotiateOne(w: World, s: DialogState, input: Input, p: Permission, now: int)
    requires Plain(w.setup) && TakesTicketFor(w, s, input, p) && p.scopes != []
    requires AcceptedTokens(w, s.refresh, now, input.tokens) == |input.tokens|
    requires w.setup.authorizer(ClaimsAfter(w, s, TakeTicket(w, s, input).0.value, input.tokens, now), [p]) in {[p], []}
    ensures var (ticket, taken) := TakeTicket(w, s, input);
      var claims := ClaimsAfter(w, s, ticket.value, input.tokens, now);
      Negotiate(w, s, input, now) ==
        if w.setup.authorizer(claims, [p]) == [p]
        then (TokenIssued([p], false, SubOf(claims), if w.refreshes then Some(s.serial) else None, None),
              IssuedState(w, taken, p, claims, now))
        else (Forbidden, taken)
  {
    hide Initialize, ValidateAll, Resolve, ResolveImmediately, IsPartial, SubOf, Plain;
    var t := TakeTicket(w, s, input).0.value;
    var round := Round(w, s.refresh, now, input.tokens);
    PlainRound(w.setup, t, round);
    PlainResolve(w.setup, ValidateAll(w.setup, t, round));
    OnePermissionResolves(w.setup, p, ClaimsAfter(w, s, t, input.tokens, now));
    OnePermissionIsWhole(p);
  }

  // ----- claims of a single credential -----

  lemma OneCredential(w: World, s: DialogState, t: TicketValue, c: CredentialToken, now: int)
    requires Verify(w, s.refresh, now, c).Verified? && t.provided == map[]
    ensures AcceptedTokens(w, s.refresh, now, [c]) == |[c]|
    ensures ClaimsAfter(w, s, t, [c], now) == Verify(w, s.refresh, now, c).claims
  {
    hide Verify, Validate;
    assert [c][1..] == [];
    assert AcceptedTokens(w, s.refresh, now, []) == 0;
    var claims := Verify(w, s.refresh, now, c).claims;
    var round := Round(w, s.refresh, now, [c]);
    assert round == [claims];
    OneValidation(w.setup, t, claims);
    ProvidedAfter(w.setup, t, claims);
    MergeIntoNothing(claims);
  }

  // ----- a server that grants every token request -----

  const PUBLIC := Permission(Known(Read), [Known(Read)])

  /** Policies that allow everything, without aggregation; tokens can be refreshed. */
  function Generous(): World {
    World(Setup((claims: ClaimSet, permissions: seq<Permission>) => permissions,
                false, map[], map[], (x: Term) => None),
          {}, (token: string, format: string) => None, None, (x: Term) => x, true, 10)
  }

  lemma GenerousIsPlain()
    ensures Plain(Generous().setup)
  {}
}
