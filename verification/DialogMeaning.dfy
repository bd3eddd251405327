/** How the token dialog answers, in terms of registrations, credentials, the clock and the authorizer. */
module DialogMeaning {
  import opened Rdf
  import opened Permissions
  import opened TicketSpec
  import opened TicketTheory
  import opened TicketMeaning
  import opened DialogSpec
  import opened DialogTheory
  import opened RefreshTheory

  // ----- ticket requests -----

  predicate IsMisused(setup: Setup, permissions: seq<Permission>) {
    exists k | 0 <= k < |permissions| :: IsDerived(setup, permissions[k].resource)
                                      && permissions[k].scopes != [Known(Read)]
  }

  /** The permissions are granted to anybody, without claims. */
  ghost predicate IsPublic(setup: Setup, permissions: seq<Permission>) {
    exists query | IsQuery(setup, TicketValue([], permissions, map[]), query) ::
      && Pairs(setup.authorizer(map[], query)) != {}
      && (setup.allowPartial || Pairs(query) <= Pairs(setup.authorizer(map[], query)))
  }

  predicate SomeDerived(setup: Setup, permissions: seq<Permission>) {
    exists p | p in permissions :: IsDerived(setup, p.resource)
  }

  lemma NewTicketOf(setup: Setup, permissions: seq<Permission>)
    requires Initialize(setup, permissions).Some? && !SomeDerived(setup, permissions)
    ensures Initialize(setup, permissions).value == TicketValue([], permissions, map[])
  {
    NewTickets(setup, permissions);
    var t := Initialize(setup, permissions).value;
    forall d ensures d !in t.derivedIds {}
    SomeMember(t.derivedIds);
    hide AllSources;
    assert permissions + SourcePermissions([]) == permissions;
  }

  lemma PublicIff(setup: Setup, permissions: seq<Permission>)
    ensures Resolve(setup, TicketValue([], permissions, map[])).Granted? <==> IsPublic(setup, permissions)
  {
    var t := TicketValue([], permissions, map[]);
    var query := Decode(setup, [], permissions);
    DecodedIsQuery(setup, t);
    ResolvesIff(setup, t, query);
    hide Resolve, Pairs, IsQuery, Decode;
    if IsPublic(setup, permissions) {
      var other :| IsQuery(setup, t, other) && Pairs(setup.authorizer(map[], other)) != {}
        && (setup.allowPartial || Pairs(other) <= Pairs(setup.authorizer(map[], other)));
      QueryIsDecoded(setup, t, other);
    }
  }

  lemma DerivedLacks(setup: Setup, permissions: seq<Permission>)
    requires Initialize(setup, permissions).Some? && SomeDerived(setup, permissions)
    ensures exists d :: Lacks(Initialize(setup, permissions).value, d)
  {
    NewTickets(setup, permissions);
    InitializeSpec(setup, permissions);
    hide Initialize, Pairs;
    var t := Initialize(setup, permissions).value;
    var p :| p in permissions && IsDerived(setup, p.resource);
    var d := setup.derivedFrom[p.resource][0];
    assert d in t.derivedIds && (d, READ_SOURCE) in Pairs(t.permissions);
    var source := PermissionWith(t.permissions, d, READ_SOURCE);
    assert Lacks(t, d);
  }

  lemma NewTicketResolves(setup: Setup, permissions: seq<Permission>)
    requires Initialize(setup, permissions).Some?
    ensures Resolve(setup, Initialize(setup, permissions).value).Granted? <==>
      !SomeDerived(setup, permissions) && IsPublic(setup, permissions)
  {
    var t := Initialize(setup, permissions).value;
    hide Initialize, Resolve, IsQuery, Pairs, Decode, IsPublic, SomeDerived, Lacks;
    DecodedIsQuery(setup, t);
    ResolvesIff(setup, t, Decode(setup, t.derivedIds, t.permissions));
    if SomeDerived(setup, permissions) {
      DerivedLacks(setup, permissions);
    } else {
      NewTicketOf(setup, permissions);
      PublicIff(setup, permissions);
    }
  }

  /** A resource server gets no ticket for resources that are not registered, for derived resources with other scopes
      than a single read, and for what anybody may do, which derived resources never are. */
  lemma TicketResponses(w: World, s: DialogState, permissions: seq<Permission>)
    ensures var response := Handle(w, s, AskTicket(permissions)).0;
      var registered := forall p | p in permissions :: p.resource in w.registered;
      && (response == InvalidResource <==> !registered)
      && (response == BadRequest <==> registered && IsMisused(w.setup, permissions))
      && (response == NoTicketNeeded <==>
            && registered && !IsMisused(w.setup, permissions)
            && !SomeDerived(w.setup, permissions) && IsPublic(w.setup, permissions))
      && (response.TicketCreated? <==> response !in {InvalidResource, BadRequest, NoTicketNeeded, InternalError})
  {
    NewTickets(w.setup, permissions);
    if Initialize(w.setup, permissions).Some? { NewTicketResolves(w.setup, permissions); }
    hide Initialize, Resolve, IsPublic, SomeDerived;
  }

  /** A ticket is stored under a fresh id, without claims and with what was asked for; nothing else changes. */
  lemma TicketIsStored(w: World, s: DialogState, permissions: seq<Permission>)
    ensures var (response, after) := Handle(w, s, AskTicket(permissions));
      if !response.TicketCreated? then after == s else
      && response.ticket == s.serial && s.serial in after.tickets && after.serial == s.serial + 1
      && after == s.(tickets := s.tickets[s.serial := after.tickets[s.serial]], serial := after.serial)
      && after.tickets[s.serial].provided == map[]
      && after.tickets[s.serial].permissions[..|permissions|] == permissions
  {
    if Initialize(w.setup, permissions).Some? { InitializeSpec(w.setup, permissions); }
    hide Initialize, Resolve, SourcesRequired, Pairs;
  }

  // ----- credentials -----

  /** What a credential says, once the identifiers of users and clients are made absolute; as what they were is kept. */
  ghost predicate IsAbsolute(iris: Iris, before: seq<ClaimValue>, after: seq<ClaimValue>) {
    && |after| == |before|
    && forall i | 0 <= i < |before| :: after[i] ==
         match before[i]
         case Text(x) => if iris.isIri(x) then before[i] else Text(iris.absolute(x))
         case _ => before[i]
  }

  ghost predicate IsRewritten(iris: Option<Iris>, before: ClaimSet, after: ClaimSet) {
    if iris.None? then after == before else
    && (WEBID in before ==>
          && WEBID in after && IsAbsolute(iris.value, before[WEBID], after[WEBID])
          && ORIGINAL_WEBID in after && after[ORIGINAL_WEBID] == before[WEBID])
    && (CLIENTID in before ==>
          && CLIENTID in after && IsAbsolute(iris.value, before[CLIENTID], after[CLIENTID])
          && ORIGINAL_CLIENTID in after && after[ORIGINAL_CLIENTID] == before[CLIENTID])
    && (forall key | key !in {WEBID, CLIENTID, ORIGINAL_WEBID, ORIGINAL_CLIENTID} ::
          (key in after <==> key in before) && (key in before ==> after[key] == before[key]))
    && (forall key | key in after :: key in before || key in {ORIGINAL_WEBID, ORIGINAL_CLIENTID})
  }

  lemma NormaliseRewrites(iris: Option<Iris>, claims: ClaimSet)
    ensures IsRewritten(iris, claims, Normalise(iris, claims))
  {
    if iris.Some? {
      KeysDiffer();
      var first := NormaliseKey(iris.value, claims, WEBID, ORIGINAL_WEBID);
      NormaliseKeyIff(iris.value, claims, WEBID, ORIGINAL_WEBID);
      NormaliseKeyIff(iris.value, first, CLIENTID, ORIGINAL_CLIENTID);
      NormaliseSpec(iris.value, claims);
      forall values ensures IsAbsolute(iris.value, values, AllAbsolute(iris.value, values)) {}
      hide WEBID, CLIENTID, ORIGINAL_WEBID, ORIGINAL_CLIENTID, AllAbsolute, IsAbsolute;
    }
  }

  /** A refresh token is accepted as long as it is stored and not expired, and stands for the claims behind it; any
      other credential is accepted when its verifier accepts it. */
  lemma CredentialsAre(w: World, refresh: map<nat, RefreshInformation>, now: int, c: CredentialToken)
    ensures var verification := Verify(w, refresh, now, c);
      match c
      case RefreshToken(id) =>
        if id in refresh && now <= refresh[id].expiration
        then verification.Verified? && IsRewritten(w.iris, refresh[id].claims, verification.claims)
        else verification == Refused(if id in refresh then Forbidden else BadRequest)
      case OtherToken(token, format) =>
        if w.external(token, format).Some?
        then verification.Verified? && IsRewritten(w.iris, w.external(token, format).value, verification.claims)
        else verification == Refused(BadRequest)
      case Incomplete => verification == Refused(BadRequest)
  {
    hide Normalise, IsRewritten;
    match c
    case RefreshToken(id) => if id in refresh { NormaliseRewrites(w.iris, refresh[id].claims); }
    case OtherToken(token, format) =>
      if w.external(token, format).Some? { NormaliseRewrites(w.iris, w.external(token, format).value); }
    case _ =>
  }

  /** The first credential that is refused ends a token request. The ticket is used up, and so is a refresh token that
      has expired; nothing else changes. */
  lemma RefusedCredential(w: World, s: DialogState, input: Input, now: int, k: nat)
    requires TakeTicket(w, s, input).0.Some? && k < |input.tokens|
      && Verify(w, s.refresh, now, input.tokens[k]).Refused?
    requires forall j | 0 <= j < k :: Verify(w, s.refresh, now, input.tokens[j]).Verified?
    ensures var c := input.tokens[k];
      var expired := c.RefreshToken? && c.id in s.refresh;
      Negotiate(w, s, input, now) ==
        (if expired then Forbidden else BadRequest,
         s.(tickets := if input.ticket.Some? then s.tickets - {input.ticket.value} else s.tickets,
            refresh := if expired then s.refresh - {c.id} else s.refresh))
  {
    CredentialsAre(w, s.refresh, now, input.tokens[k]);
    hide Verify, Initialize, IsRewritten, Conclude;
    var n := AcceptedTokens(w, s.refresh, now, input.tokens);
    assert n == k;
  }

  // ----- token requests -----

  lemma NegotiatedWith(w: World, s: DialogState, input: Input, now: int) returns (t: TicketValue, v: TicketValue)
    requires TakeTicket(w, s, input).0.Some? && AcceptedTokens(w, s.refresh, now, input.tokens) == |input.tokens|
    ensures TakeTicket(w, s, input).0 == Some(t)
    ensures v == ValidateAll(w.setup, t, Round(w, s.refresh, now, input.tokens))
    ensures Negotiate(w, s, input, now) == Conclude(w, TakeTicket(w, s, input).1, t, v, now)
  {
    hide Conclude, ValidateAll, TakeTicket;
    t := TakeTicket(w, s, input).0.value;
    v := ValidateAll(w.setup, t, Round(w, s.refresh, now, input.tokens));
  }

  /** Once all credentials are accepted, the ticket as it then stands decides: a token when it lacks no source and
      enough is granted, an internal error when the issuer of a source is not known, a refusal when nothing is granted
      and nothing is left to prove, and a request for more information otherwise. */
  lemma TokenResponses(w: World, s: DialogState, input: Input, now: int, query: seq<Permission>)
    requires TakeTicket(w, s, input).0.Some? && AcceptedTokens(w, s.refresh, now, input.tokens) == |input.tokens|
    requires IsQuery(w.setup, ValidateAll(w.setup, TakeTicket(w, s, input).0.value,
                                          Round(w, s.refresh, now, input.tokens)), query)
    ensures var v := ValidateAll(w.setup, TakeTicket(w, s, input).0.value, Round(w, s.refresh, now, input.tokens));
      var response, granted := Negotiate(w, s, input, now).0, w.setup.authorizer(v.provided, query);
      && (response.TokenIssued? <==>
            (forall d :: !Lacks(v, d)) && Pairs(granted) != {}
            && (w.setup.allowPartial || Pairs(query) <= Pairs(granted)))
      && (response == InternalError <==> exists d | Lacks(v, d) :: d !in w.setup.issuers || w.setup.issuers[d] == "")
      && (response == Forbidden <==> (forall d :: !Lacks(v, d)) && Pairs(granted) == {})
      && (response.NeedInfo? <==> !response.TokenIssued? && response != InternalError && response != Forbidden)
  {
    var t, v := NegotiatedWith(w, s, input, now);
    hide TakeTicket, ValidateAll, Negotiate, Resolve, Lacks, IsQuery, Pairs;
    ResolvesIff(w.setup, v, query);
    if Resolve(w.setup, v).Required? { NothingRequiredIff(w.setup, v, query); }
    hide IsPartial, SubOf;
  }

  lemma NothingRequiredIff(setup: Setup, v: TicketValue, query: seq<Permission>)
    requires IsQuery(setup, v, query) && Resolve(setup, v).Required?
    ensures Resolve(setup, v).claims == [] <==>
      (forall d :: !Lacks(v, d)) && Pairs(setup.authorizer(v.provided, query)) == {}
  {
    QueryIsDecoded(setup, v, query);
    MissingSources(setup, v.derivedIds, v.permissions);
    LacksIff(setup, v);
    ImmediateIff(setup, query, v.provided);
    NonEmptyPairs(setup.authorizer(v.provided, query));
    NonEmptyScopes(setup.authorizer(v.provided, query));
    NothingGranted(NonEmpty(setup.authorizer(v.provided, query)));
    if ResolveImmediately(setup.authorizer, setup.allowPartial, query, v.provided).Required? {
      FailureListsUngranted(setup, query, v.provided);
    }
    hide ResolveImmediately, SourcesMissing, Pairs, Decode, Encode, DecodedIds, IsSource, HasIssuer, Lacks, NonEmpty,
         Ungranted, IsQuery;
  }

  // ----- tokens -----

  /** A token names the user as the first credential did, even when the identifier was made absolute since. */
  lemma SubjectIsOriginal(w: World, s: DialogState, input: Input, now: int, claims: ClaimSet, user: string)
    requires Negotiate(w, s, input, now).0.TokenIssued? && TakeTicket(w, s, input).0.value.provided == map[]
    requires |input.tokens| == 1 && input.tokens[0].OtherToken?
    requires w.external(input.tokens[0].token, input.tokens[0].format) == Some(claims)
    requires WEBID in claims && |claims[WEBID]| > 0 && claims[WEBID][0] == Text(user) && ORIGINAL_WEBID !in claims
    ensures Negotiate(w, s, input, now).0.sub == Some(user)
  {
    hide Negotiate, TakeTicket, Resolve, ValidateAll, Validate, Issue, Normalise, IsRewritten;
    var t, round := IssuedFrom(w, s, input, now);
    CredentialsAre(w, s.refresh, now, input.tokens[0]);
    assert round == [round[0]];
    OneValidation(w.setup, t, round[0]);
    ProvidedAfter(w.setup, t, round[0]);
    MergeIntoNothing(round[0]);
    RewrittenUser(w.iris, claims, round[0], user);
    IssuedSubject(w, TakeTicket(w, s, input).1, Validate(w.setup, t, round[0]),
                  Resolve(w.setup, Validate(w.setup, t, round[0])).permissions, now);
  }

  lemma RewrittenUser(iris: Option<Iris>, before: ClaimSet, after: ClaimSet, user: string)
    requires IsRewritten(iris, before, after) && ORIGINAL_WEBID !in before
    requires WEBID in before && |before[WEBID]| > 0 && before[WEBID][0] == Text(user)
    ensures SubOf(after) == Some(user)
  {
    KeysDiffer();
    hide WEBID, CLIENTID, ORIGINAL_WEBID, ORIGINAL_CLIENTID, IsAbsolute;
  }

  lemma IssuedSubject(w: World, s: DialogState, v: TicketValue, granted: seq<Permission>, now: int)
    ensures Issue(w, s, v, granted, now).0.sub == SubOf(v.provided)
  {
    hide SubOf, IsPartial;
  }

  /** A refresh token that comes with an access token can be used, by refreshing or as a credential, until its lifetime
      is over, and not afterwards. */
  lemma RefreshableUntil(w: World, s: DialogState, input: Input, now: int, later: World, time: int)
    requires Negotiate(w, s, input, now).0.TokenIssued? && w.refreshes
    ensures var (response, after) := Negotiate(w, s, input, now);
      && response.refresh.Some? && response.refresh.value in after.refresh
      && (time <= now + w.lifetime <==>
        Verify(later, after.refresh, time, RefreshToken(response.refresh.value)).Verified?)
      && (now + w.lifetime < time ==> forall again ::
            Refresh(later, after, response.refresh.value, time, again)
              == (Forbidden, after.(refresh := after.refresh - {response.refresh.value})))
  {
    hide Negotiate, TakeTicket, Resolve, ValidateAll, Normalise;
    var t, round := IssuedFrom(w, s, input, now);
    var v := ValidateAll(w.setup, t, round);
    IssueState(w, TakeTicket(w, s, input).1, v, Resolve(w.setup, v).permissions, now);
    hide Issue;
  }
}
