/** Refreshing: what one refresh does to the stored information, and what any chain of refreshes keeps. */
module RefreshTheory {
  import opened Rdf
  import opened Permissions
  import opened TicketSpec
  import opened TicketTheory
  import opened DialogSpec
  import opened DialogTheory

  /** The ticket that a refresh of these permissions starts from. */
  function RefreshTicket(setup: Setup, permissions: seq<Permission>): TicketValue
    requires Initialize(setup, permissions).Some?
  {
    Initialize(setup, permissions).value
  }

  lemma MergeIntoNothing(claims: ClaimSet)
    ensures Merge(map[], claims) == claims
  {
    forall key | key in claims ensures Merge(map[], claims)[key] == claims[key] {
      assert [] + claims[key] == claims[key];
    }
  }

  /** One successful refresh replaces the entry of the token by a new one. */
  lemma RefreshStep(w: World, s: DialogState, id: nat, now: int, later: int)
    requires id in s.refresh && Refresh(w, s, id, now, later).0.TokenIssued? && w.refreshes
    ensures now <= s.refresh[id].expiration && later <= s.refresh[id].expiration
    ensures var (response, after) := Refresh(w, s, id, now, later);
      && response.refresh == Some(s.serial) && after.tickets == s.tickets && after.serial == s.serial + 1
      && after.refresh == s.refresh[s.serial := RefreshInformation(
           Normalise(w.iris, s.refresh[id].claims), response.permissions, later + w.lifetime)] - {id}
  {
    hide Negotiate, Resolve, Normalise, ValidateAll, Validate, Initialize, Issue, TakeTicket;
    var input := Input(None, Some(s.refresh[id].permissions), [RefreshToken(id)]);
    var t, round := IssuedFrom(w, s, input, later);
    OneToken(w, s, id, later, input.tokens);
    OneValidation(w.setup, t, round[0]);
    TakenIsEmpty(w, s, input);
    ProvidedAfter(w.setup, t, round[0]);
    MergeIntoNothing(round[0]);
    var v := Validate(w.setup, t, round[0]);
    IssueState(w, s, v, Resolve(w.setup, v).permissions, later);
  }

  lemma IssueState(w: World, s: DialogState, v: TicketValue, granted: seq<Permission>, now: int)
    requires w.refreshes
    ensures var (response, after) := Issue(w, s, v, granted, now);
      && response.TokenIssued? && response.permissions == granted && response.refresh == Some(s.serial)
      && after == s.(refresh := s.refresh[s.serial := RefreshInformation(v.provided, granted, now + w.lifetime)],
                     serial := s.serial + 1)
  {
    hide IsPartial, SubOf;
  }

  lemma TakenIsEmpty(w: World, s: DialogState, input: Input)
    requires input.ticket.None? && TakeTicket(w, s, input).0.Some?
    ensures TakeTicket(w, s, input).0.value.provided == map[] && TakeTicket(w, s, input).1 == s
  {
    hide AllSources, SourcePermissions;
  }

  lemma ProvidedAfter(setup: Setup, t: TicketValue, claims: ClaimSet)
    ensures Validate(setup, t, claims).provided == Merge(t.provided, claims)
  {
    hide Merge, Satisfy, Decode, Encode, DecodedIds;
  }

  lemma OneToken(w: World, s: DialogState, id: nat, now: int, tokens: seq<CredentialToken>)
    requires id in s.refresh && tokens == [RefreshToken(id)] && AcceptedTokens(w, s.refresh, now, tokens) == |tokens|
    ensures now <= s.refresh[id].expiration
    ensures Round(w, s.refresh, now, tokens) == [Normalise(w.iris, s.refresh[id].claims)]
  {
    hide Normalise;
    assert Verify(w, s.refresh, now, tokens[0]).Verified?;
  }

  // ----- permissions -----

  /** The identifiers of the permissions are restored when they are decoded. */
  ghost predicate Faithful(setup: Setup, permissions: seq<Permission>) {
    Initialize(setup, permissions).Some? ==>
      Unambiguous(setup, RefreshTicket(setup, permissions).derivedIds, RefreshTicket(setup, permissions).permissions)
  }

  /** No aggregation: no resource has sources, and no identifier decodes to another one. */
  ghost predicate Plain(setup: Setup) {
    (forall x :: setup.decode(x).None?) && (forall x :: SourcesOf(setup, x) == [])
  }

  lemma PlainIsFaithful(setup: Setup, permissions: seq<Permission>)
    requires Plain(setup)
    ensures Faithful(setup, permissions)
    ensures Initialize(setup, permissions).Some? && RefreshTicket(setup, permissions).derivedIds == []
  {
    SourcesComplete(setup, permissions);
    var ids := AllSources(setup, permissions);
    SomeMember(ids);
    hide AllSources, SourcesOf;
  }

  /** A refresh grants no more than before. Without partial success it grants the same,
      when access to the sources of a derived resource is not among it. */
  lemma RefreshShrinks(w: World, s: DialogState, id: nat, now: int, later: int)
    requires id in s.refresh && Refresh(w, s, id, now, later).0.TokenIssued?
    requires Bounded(w.setup.authorizer) && Faithful(w.setup, s.refresh[id].permissions)
    ensures Pairs(Refresh(w, s, id, now, later).0.permissions) <= Pairs(s.refresh[id].permissions)
    ensures Initialize(w.setup, s.refresh[id].permissions).Some?
    ensures !w.setup.allowPartial && (forall pair | pair in Pairs(s.refresh[id].permissions) ::
              !IsSourcePair(RefreshTicket(w.setup, s.refresh[id].permissions).derivedIds, pair))
            ==> Pairs(Refresh(w, s, id, now, later).0.permissions) == Pairs(s.refresh[id].permissions)
  {
    var permissions := s.refresh[id].permissions;
    var input := Input(None, Some(permissions), [RefreshToken(id)]);
    hide Negotiate, Bounded, Unambiguous;
    var t, round := IssuedFrom(w, s, input, later);
    TokenMatchesTicket(w, s, input, later);
    InitializeSpec(w.setup, permissions);
    hide Initialize, Pairs;
  }

  // ----- claims -----

  /** Nothing is left to make absolute, and the original identifiers are the absolute ones. */
  ghost predicate Normalised(iris: Option<Iris>, claims: ClaimSet) {
    || iris.None?
    || (KeyNormalised(iris.value, claims, WEBID, ORIGINAL_WEBID)
        && KeyNormalised(iris.value, claims, CLIENTID, ORIGINAL_CLIENTID))
  }

  ghost predicate KeyNormalised(iris: Iris, claims: ClaimSet, key: string, original: string) {
    key in claims ==> original in claims && claims[original] == claims[key] == AllAbsolute(iris, claims[key])
  }

  lemma NormaliseKeyIff(iris: Iris, claims: ClaimSet, key: string, original: string)
    requires key != original
    ensures var after := NormaliseKey(iris, claims, key, original);
      && (after == claims <==> KeyNormalised(iris, claims, key, original))
      && (key in after <==> key in claims)
      && (key in claims ==>
            original in after && after[original] == claims[key] && after[key] == AllAbsolute(iris, claims[key]))
      && (forall k | k != key && k != original ::
            (k in after <==> k in claims) && (k in claims ==> after[k] == claims[k]))
  {
    hide AllAbsolute;
  }

  lemma KeysDiffer()
    ensures WEBID != CLIENTID && WEBID != ORIGINAL_WEBID && WEBID != ORIGINAL_CLIENTID
    ensures CLIENTID != ORIGINAL_WEBID && CLIENTID != ORIGINAL_CLIENTID && ORIGINAL_WEBID != ORIGINAL_CLIENTID
  {
    assert |WEBID| == 35 && |CLIENTID| == 38 && |ORIGINAL_WEBID| == 44 && |ORIGINAL_CLIENTID| == 47;
  }

  /** A refresh keeps the claims exactly when the user and client were given by absolute identifiers:
      otherwise what they were originally is lost. */
  lemma NormaliseFixedIff(iris: Option<Iris>, claims: ClaimSet)
    ensures Normalise(iris, claims) == claims <==> Normalised(iris, claims)
  {
    if iris.Some? {
      KeysDiffer();
      hide WEBID, CLIENTID, ORIGINAL_WEBID, ORIGINAL_CLIENTID, AllAbsolute;
      var first := NormaliseKey(iris.value, claims, WEBID, ORIGINAL_WEBID);
      NormaliseKeyIff(iris.value, claims, WEBID, ORIGINAL_WEBID);
      NormaliseKeyIff(iris.value, first, CLIENTID, ORIGINAL_CLIENTID);
    }
  }

  lemma AbsoluteTwice(iris: Iris, values: seq<ClaimValue>)
    requires forall x :: iris.isIri(iris.absolute(x))
    ensures AllAbsolute(iris, AllAbsolute(iris, values)) == AllAbsolute(iris, values)
  {}

  /** From the second refresh on, the claims do not change any more. */
  lemma NormaliseSettles(iris: Option<Iris>, claims: ClaimSet)
    requires iris.Some? ==> forall x :: iris.value.isIri(iris.value.absolute(x))
    ensures Normalised(iris, Normalise(iris, Normalise(iris, claims)))
  {
    if iris.Some? {
      KeysDiffer();
      hide WEBID, CLIENTID, ORIGINAL_WEBID, ORIGINAL_CLIENTID, AllAbsolute;
      var i := iris.value;
      var once, twice := Normalise(iris, claims), Normalise(iris, Normalise(iris, claims));
      NormaliseSpec(i, claims);
      NormaliseSpec(i, once);
      hide NormaliseKey, Normalise;
      if WEBID in claims { AbsoluteTwice(i, claims[WEBID]); }
      if CLIENTID in claims { AbsoluteTwice(i, claims[CLIENTID]); }
    }
  }

  lemma NormaliseSpec(iris: Iris, claims: ClaimSet)
    ensures var after := Normalise(Some(iris), claims);
      && (WEBID in after <==> WEBID in claims) && (CLIENTID in after <==> CLIENTID in claims)
      && (WEBID in claims ==> after[WEBID] == AllAbsolute(iris, claims[WEBID]))
      && (WEBID in claims ==> ORIGINAL_WEBID in after && after[ORIGINAL_WEBID] == claims[WEBID])
      && (CLIENTID in claims ==> after[CLIENTID] == AllAbsolute(iris, claims[CLIENTID]))
      && (CLIENTID in claims ==> ORIGINAL_CLIENTID in after && after[ORIGINAL_CLIENTID] == claims[CLIENTID])
  {
    KeysDiffer();
    hide WEBID, CLIENTID, ORIGINAL_WEBID, ORIGINAL_CLIENTID, AllAbsolute;
    var first := NormaliseKey(iris, claims, WEBID, ORIGINAL_WEBID);
    NormaliseKeyIff(iris, claims, WEBID, ORIGINAL_WEBID);
    NormaliseKeyIff(iris, first, CLIENTID, ORIGINAL_CLIENTID);
  }

  // ----- refusals -----

  /** A refused refresh of an unexpired token leaves the refresh store as it was. */
  lemma RefusedRefreshChangesNothing(w: World, s: DialogState, id: nat, now: int, later: int)
    requires !Refresh(w, s, id, now, later).0.TokenIssued?
    requires id in s.refresh ==> now <= s.refresh[id].expiration && later <= s.refresh[id].expiration
    ensures Refresh(w, s, id, now, later).1.refresh == s.refresh
  {
    hide Initialize, ValidateAll, Resolve, IsPartial, SubOf, Normalise;
  }

  // ----- chains -----

  /** One refresh after the other, each with the token that the previous one gave. */
  ghost predicate Chain(s: DialogState, id: nat, steps: seq<(World, int, int)>)
    decreases |steps|
  {
    steps != [] ==>
      var (response, after) := Refresh(steps[0].0, s, id, steps[0].1, steps[0].2);
      && id in s.refresh && steps[0].0.refreshes
      && response.TokenIssued? && response.refresh.Some?
      && Bounded(steps[0].0.setup.authorizer) && Faithful(steps[0].0.setup, s.refresh[id].permissions)
      && Chain(after, response.refresh.value, steps[1..])
  }

  function EndOf(s: DialogState, id: nat, steps: seq<(World, int, int)>): (DialogState, nat)
    decreases |steps|
  {
    if steps == [] then (s, id) else
    var (response, after) := Refresh(steps[0].0, s, id, steps[0].1, steps[0].2);
    if response.TokenIssued? && response.refresh.Some?
    then EndOf(after, response.refresh.value, steps[1..]) else (s, id)
  }

  /** Along a chain of refreshes, what is granted only shrinks, and the claims stay the same as long as
      identifiers are not rewritten. */
  lemma {:induction false} ChainShrinks(s: DialogState, id: nat, steps: seq<(World, int, int)>)
    requires TicketsOk(s) && id in s.refresh && Chain(s, id, steps)
    ensures var (end, last) := EndOf(s, id, steps);
      && last in end.refresh && Pairs(end.refresh[last].permissions) <= Pairs(s.refresh[id].permissions)
      && ((forall k | 0 <= k < |steps| :: Normalised(steps[k].0.iris, s.refresh[id].claims)) ==>
            end.refresh[last].claims == s.refresh[id].claims)
    decreases |steps|
  {
    hide Refresh, TicketsOk, Normalise, Normalised, Bounded, Faithful, Pairs;
    if steps != [] {
      var (w, now, later) := steps[0];
      var (response, after) := Refresh(w, s, id, now, later);
      RefreshStep(w, s, id, now, later);
      RefreshShrinks(w, s, id, now, later);
      NormaliseFixedIff(w.iris, s.refresh[id].claims);
      StepKeepsOk(w, s, id, now, later);
      ChainShrinks(after, response.refresh.value, steps[1..]);
    }
  }

  lemma StepKeepsOk(w: World, s: DialogState, id: nat, now: int, later: int)
    requires TicketsOk(s) && id in s.refresh
    ensures TicketsOk(Refresh(w, s, id, now, later).1) && id != s.serial
  {
    HandleKeepsOk(w, s, AskRefresh(id, now, later));
    hide Refresh;
  }

  /** Without aggregation and without partial success, every token of the chain grants the same. */
  lemma {:induction false} PlainChainGrantsTheSame(s: DialogState, id: nat, steps: seq<(World, int, int)>)
    requires TicketsOk(s) && id in s.refresh && Chain(s, id, steps)
    requires forall k | 0 <= k < |steps| :: Plain(steps[k].0.setup) && !steps[k].0.setup.allowPartial
    ensures var (end, last) := EndOf(s, id, steps);
      last in end.refresh && Pairs(end.refresh[last].permissions) == Pairs(s.refresh[id].permissions)
    decreases |steps|
  {
    hide Refresh, TicketsOk, Normalise, Bounded, Faithful, Pairs, Plain;
    if steps != [] {
      var (w, now, later) := steps[0];
      var (response, after) := Refresh(w, s, id, now, later);
      RefreshStep(w, s, id, now, later);
      PlainIsFaithful(w.setup, s.refresh[id].permissions);
      RefreshShrinks(w, s, id, now, later);
      StepKeepsOk(w, s, id, now, later);
      PlainChainGrantsTheSame(after, response.refresh.value, steps[1..]);
    }
  }
}
