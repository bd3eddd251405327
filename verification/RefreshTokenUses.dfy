/** How often a refresh token gives a new token: it can be refreshed once, but it can also be presented as a
    credential with a token request, which does not use it up. */
module RefreshTokenUses {
  import opened Rdf
  import opened Permissions
  import opened TicketSpec
  import opened TicketTheory
  import opened DialogSpec
  import opened DialogTheory
  import opened RefreshTheory
  import opened PlainDialog

  /** A token request with the refresh token among its credentials. */
  predicate IsCredential(r: DialogRequest, id: nat) {
    match r
    case AskToken(input, _) => RefreshToken(id) in input.tokens
    case AskDerivation(input, _) => RefreshToken(id) in input.tokens
    case _ => false
  }

  predicate Presents(r: DialogRequest, id: nat) {
    IsCredential(r, id) || (r.AskRefresh? && r.id == id)
  }

  /** The refresh token is presented, and a new token comes out. */
  predicate Uses(w: World, s: DialogState, r: DialogRequest, id: nat) {
    Presents(r, id) && Handle(w, s, r).0.TokenIssued?
  }

  function UsesOf(s: DialogState, run: seq<(World, DialogRequest)>, id: nat): nat
    decreases |run|
  {
    if run == [] then 0
    else (if Uses(run[0].0, s, run[0].1, id) then 1 else 0) + UsesOf(Handle(run[0].0, s, run[0].1).1, run[1..], id)
  }

  // ----- one use -----

  lemma {:induction false} AcceptedAreKnown(w: World, refresh: map<nat, RefreshInformation>, now: int,
                                            tokens: seq<CredentialToken>, id: nat)
    requires AcceptedTokens(w, refresh, now, tokens) == |tokens| && RefreshToken(id) in tokens
    ensures id in refresh && now <= refresh[id].expiration
  {
    var i :| 0 <= i < |tokens| && tokens[i] == RefreshToken(id);
    assert Verify(w, refresh, now, tokens[i]).Verified?;
  }

  /** A successful negotiation leaves every refresh token as it was. */
  lemma IssuedKeepsRefresh(w: World, s: DialogState, input: Input, now: int)
    requires Negotiate(w, s, input, now).0.TokenIssued?
    ensures AcceptedTokens(w, s.refresh, now, input.tokens) == |input.tokens|
    ensures forall id | id in s.refresh && id < s.serial ::
      id in Negotiate(w, s, input, now).1.refresh && Negotiate(w, s, input, now).1.refresh[id] == s.refresh[id]
  {
    hide Negotiate, Initialize, ValidateAll, Resolve, IsPartial, SubOf;
    var t, round := IssuedFrom(w, s, input, now);
  }

  lemma CredentialIsKept(w: World, s: DialogState, r: DialogRequest, id: nat)
    requires TicketsOk(s) && Uses(w, s, r, id) && IsCredential(r, id)
    ensures id in s.refresh && id in Handle(w, s, r).1.refresh
    ensures Handle(w, s, r).1.refresh[id] == s.refresh[id]
  {
    hide Negotiate, AcceptedTokens;
    match r
    case AskToken(input, now) =>
      IssuedKeepsRefresh(w, s, input, now);
      AcceptedAreKnown(w, s.refresh, now, input.tokens, id);
    case AskDerivation(input, now) =>
      var p := s.tickets[input.ticket.value].permissions[0];
      var extended :=
        s.tickets[input.ticket.value].(permissions := [p.(scopes := p.scopes + [Known(DerivationCreation)])]);
      IssuedKeepsRefresh(w, s.(tickets := s.tickets[input.ticket.value := extended]), input, now);
      AcceptedAreKnown(w, s.refresh, now, input.tokens, id);
  }

  lemma UsedIsKnown(w: World, s: DialogState, r: DialogRequest, id: nat)
    requires TicketsOk(s) && Uses(w, s, r, id)
    ensures id in s.refresh && id < s.serial
  {
    hide Handle;
    if IsCredential(r, id) {
      CredentialIsKept(w, s, r, id);
    } else {
      RefreshedIsGone(w, s, r, id);
    }
    RefreshIsKnown(s, id);
  }

  lemma {:induction false} GoneIsNotUsed(s: DialogState, run: seq<(World, DialogRequest)>, id: nat)
    requires TicketsOk(s) && id !in s.refresh && id < s.serial
    ensures UsesOf(s, run, id) == 0
    decreases |run|
  {
    hide Handle, Uses, TicketsOk;
    if run != [] {
      HandleKeepsOk(run[0].0, s, run[0].1);
      HandleGrows(run[0].0, s, run[0].1);
      if Uses(run[0].0, s, run[0].1, id) { UsedIsKnown(run[0].0, s, run[0].1, id); }
      GoneIsNotUsed(Handle(run[0].0, s, run[0].1).1, run[1..], id);
    }
  }

  // ----- token requests that are granted -----

  function AskingWith(tokens: seq<CredentialToken>, now: int): DialogRequest {
    AskToken(Input(None, Some([PUBLIC]), tokens), now)
  }

  lemma GenerousGrants(s: DialogState, tokens: seq<CredentialToken>, now: int)
    requires AcceptedTokens(Generous(), s.refresh, now, tokens) == |tokens|
    ensures var (response, after) := Handle(Generous(), s, AskingWith(tokens, now));
      && response.TokenIssued? && response.refresh == Some(s.serial) && after.serial == s.serial + 1
      && s.serial in after.refresh && after.refresh[s.serial].expiration == now + 10
  {
    hide Negotiate, AcceptedTokens, ClaimsAfter, Plain;
    GenerousIsPlain();
    var input := Input(None, Some([PUBLIC]), tokens);
    NewTicketIsFor(Generous(), s, PUBLIC, tokens);
    hide TakeTicket;
    NegotiateOne(Generous(), s, input, PUBLIC, now);
  }

  lemma RefreshTokenAccepted(s: DialogState, id: nat, now: int)
    requires id in s.refresh && now <= s.refresh[id].expiration
    ensures AcceptedTokens(Generous(), s.refresh, now, [RefreshToken(id)]) == 1
  {
    assert [RefreshToken(id)][1..] == [];
    assert AcceptedTokens(Generous(), s.refresh, now, []) == 0;
  }

  /** A token request can use any refresh token that has not expired. */
  lemma CanBeUsed(s: DialogState, id: nat, now: int)
    requires TicketsOk(s) && id in s.refresh && now <= s.refresh[id].expiration
    ensures Uses(Generous(), s, AskingWith([RefreshToken(id)], now), id)
  {
    hide Handle;
    RefreshTokenAccepted(s, id, now);
    GenerousGrants(s, [RefreshToken(id)], now);
  }

  // ----- how often a refresh token can be used -----

  /** A use uses the refresh token up exactly when it is a refresh. */
  lemma UsedUpIff(w: World, s: DialogState, r: DialogRequest, id: nat)
    requires TicketsOk(s) && Uses(w, s, r, id)
    ensures (forall run :: UsesOf(Handle(w, s, r).1, run, id) == 0) <==> r.AskRefresh?
  {
    hide Handle, TicketsOk;
    var after := Handle(w, s, r).1;
    HandleKeepsOk(w, s, r);
    UsedIsKnown(w, s, r, id);
    if r.AskRefresh? {
      RefreshedIsGone(w, s, r, id);
      forall run ensures UsesOf(after, run, id) == 0 { GoneIsNotUsed(after, run, id); }
    } else {
      CredentialIsKept(w, s, r, id);
      var again := AskingWith([RefreshToken(id)], after.refresh[id].expiration);
      CanBeUsed(after, id, after.refresh[id].expiration);
      assert UsesOf(after, [(Generous(), again)], id) > 0;
    }
  }

  predicate OnlyRefreshed(run: seq<(World, DialogRequest)>, id: nat) {
    forall i | 0 <= i < |run| :: !IsCredential(run[i].1, id)
  }

  /** A refresh token that no token request presents as a credential gives a new token at most once. */
  lemma {:induction false} OnlyRefreshedIsUsedOnce(s: DialogState, run: seq<(World, DialogRequest)>, id: nat)
    requires TicketsOk(s) && OnlyRefreshed(run, id)
    ensures UsesOf(s, run, id) <= 1
    decreases |run|
  {
    hide Handle, TicketsOk, IsCredential;
    if run != [] {
      var after := Handle(run[0].0, s, run[0].1).1;
      HandleKeepsOk(run[0].0, s, run[0].1);
      if Uses(run[0].0, s, run[0].1, id) {
        UsedIsKnown(run[0].0, s, run[0].1, id);
        RefreshedIsGone(run[0].0, s, run[0].1, id);
        GoneIsNotUsed(after, run[1..], id);
      } else {
        OnlyRefreshedIsUsedOnce(after, run[1..], id);
      }
    }
  }

  function Repeated(step: (World, DialogRequest), n: nat): seq<(World, DialogRequest)> {
    if n == 0 then [] else [step] + Repeated(step, n - 1)
  }

  /** One and the same token request can be repeated any number of times. */
  lemma {:induction false} RepeatedUses(s: DialogState, id: nat, now: int, n: nat)
    requires TicketsOk(s) && id in s.refresh && now <= s.refresh[id].expiration
    ensures UsesOf(s, Repeated((Generous(), AskingWith([RefreshToken(id)], now)), n), id) == n
    decreases n
  {
    hide Handle, TicketsOk, Generous, AskingWith;
    if n > 0 {
      var step := (Generous(), AskingWith([RefreshToken(id)], now));
      CanBeUsed(s, id, now);
      AskingPresents(id, now);
      HandleKeepsOk(step.0, s, step.1);
      CredentialIsKept(step.0, s, step.1, id);
      RepeatedUses(Handle(step.0, s, step.1).1, id, now, n - 1);
      assert Repeated(step, n)[1..] == Repeated(step, n - 1);
    }
  }

  lemma AskingPresents(id: nat, now: int)
    ensures IsCredential(AskingWith([RefreshToken(id)], now), id)
  {}

  /** Every stored refresh token gives at most one new token in every run, exactly when token requests may not
      present it as a credential. */
  lemma AtMostOnceIff(s: DialogState, id: nat, credentials: bool)
    requires TicketsOk(s) && id in s.refresh
    ensures (forall run | credentials || OnlyRefreshed(run, id) :: UsesOf(s, run, id) <= 1) <==> !credentials
  {
    hide TicketsOk, UsesOf, OnlyRefreshed;
    if credentials {
      var now := s.refresh[id].expiration;
      RepeatedUses(s, id, now, 2);
      assert UsesOf(s, Repeated((Generous(), AskingWith([RefreshToken(id)], now)), 2), id) > 1;
    } else {
      forall run | OnlyRefreshed(run, id) ensures UsesOf(s, run, id) <= 1 { OnlyRefreshedIsUsedOnce(s, run, id); }
    }
  }

  /** From an empty server: one token request gives a refresh token, and any number of token requests
      with that refresh token as their only credential each give a new token. */
  lemma UsedAnyNumberOfTimes(n: nat)
    ensures var first, again := AskingWith([], 0), AskingWith([RefreshToken(0)], 0);
      && Handle(Generous(), NOTHING, first).0.TokenIssued? && Handle(Generous(), NOTHING, first).0.refresh == Some(0)
      && UsesOf(NOTHING, [(Generous(), first)] + Repeated((Generous(), again), n), 0) == n
  {
    hide Handle, Generous, TicketsOk;
    var first := (Generous(), AskingWith([], 0));
    var rest := Repeated((Generous(), AskingWith([RefreshToken(0)], 0)), n);
    NothingIsOk();
    GenerousGrants(NOTHING, [], 0);
    HandleKeepsOk(first.0, NOTHING, first.1);
    RepeatedUses(Handle(first.0, NOTHING, first.1).1, 0, 0, n);
    assert ([first] + rest)[0] == first && ([first] + rest)[1..] == rest;
  }

  lemma NothingIsOk()
    ensures TicketsOk(NOTHING) && AcceptedTokens(Generous(), NOTHING.refresh, 0, []) == 0
  {}
}
