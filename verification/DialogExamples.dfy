/** Two dialogs, from the empty server, in which a token does not say what the request said. */
module DialogExamples {
  import opened Rdf
  import opened Permissions
  import opened TicketSpec
  import opened TicketTheory
  import opened DialogSpec
  import opened DialogTheory
  import opened RefreshTheory
  import opened PlainDialog

  // ----- a user who is given by a relative identifier -----

  const RELATIVE := "alice"
  const ABSOLUTE := "http://example.com/alice"

  /** Everybody is the same user, whose identifier is relative; everything is allowed. */
  function Relative(): World {
    Generous().(external := (token: string, format: string) => Some(map[WEBID := [Text(RELATIVE)]]),
                iris := Some(Iris((x: string) => x == ABSOLUTE, (x: string) => ABSOLUTE)))
  }

  lemma RelativeIsPlain()
    ensures Plain(Relative().setup)
  {}

  lemma RelativeIssues(s: DialogState, c: CredentialToken)
    requires Verify(Relative(), s.refresh, 0, c).Verified?
    ensures var claims := Verify(Relative(), s.refresh, 0, c).claims;
      Negotiate(Relative(), s, Input(None, Some([PUBLIC]), [c]), 0) ==
        (TokenIssued([PUBLIC], false, SubOf(claims), Some(s.serial), None),
         DialogState(s.tickets, s.refresh[s.serial := RefreshInformation(claims, [PUBLIC], 10)], s.serial + 1))
  {
    hide Negotiate, AcceptedTokens, ClaimsAfter, Plain, Verify, SubOf;
    RelativeIsPlain();
    NewTicketIsFor(Relative(), s, PUBLIC, [c]);
    OneCredential(Relative(), s, TicketValue([], [PUBLIC], map[]), c, 0);
    hide TakeTicket;
    NegotiateOne(Relative(), s, Input(None, Some([PUBLIC]), [c]), PUBLIC, 0);
  }

  lemma NormaliseRelative(claims: ClaimSet)
    requires WEBID in claims && |claims[WEBID]| == 1 && claims[WEBID][0].Text?
    ensures var after := Normalise(Relative().iris, claims);
      && WEBID in after && after[WEBID] == [Text(ABSOLUTE)]
      && ORIGINAL_WEBID in after && after[ORIGINAL_WEBID] == claims[WEBID]
      && SubOf(after) == Some(claims[WEBID][0].value)
  {
    NormaliseSpec(Relative().iris.value, claims);
    hide Normalise;
  }

  /** A user whose identifier is relative gets a token for that identifier, and after a refresh one for the absolute
      identifier: the stored claims are not those of the first token any more. */
  lemma RelativeUserIsLost()
    ensures var (first, s) :=
      Handle(Relative(), NOTHING, AskToken(Input(None, Some([PUBLIC]), [OtherToken("t", "f")]), 0));
      var (second, t) := Handle(Relative(), s, AskRefresh(0, 0, 0));
      && first.TokenIssued? && first.sub == Some(RELATIVE) && first.refresh == Some(0) && 0 in s.refresh
      && second.TokenIssued? && second.sub == Some(ABSOLUTE) && second.refresh == Some(1) && 1 in t.refresh
      && t.refresh[1].claims != s.refresh[0].claims
  {
    hide Negotiate, Normalise, SubOf, WEBID, ORIGINAL_WEBID, RELATIVE, ABSOLUTE;
    var claims: ClaimSet := map[WEBID := [Text(RELATIVE)]];
    RelativeIssues(NOTHING, OtherToken("t", "f"));
    NormaliseRelative(claims);
    var s := Negotiate(Relative(), NOTHING, Input(None, Some([PUBLIC]), [OtherToken("t", "f")]), 0).1;
    RelativeIssues(s, RefreshToken(0));
    NormaliseRelative(s.refresh[0].claims);
    NamesDiffer();
  }

  lemma NamesDiffer()
    ensures RELATIVE != ABSOLUTE
  {
    assert |RELATIVE| == 5 && |ABSOLUTE| == 24;
  }

  // ----- one resource under two identifiers -----

  const RESOURCE := Iri("x")
  const FIRST := Permission(Iri("e1"), [READ_SOURCE])
  const SECOND := Permission(Iri("e2"), [READ_SOURCE])

  /** Two identifiers were given to aggregators for the same resource; everybody is accepted. */
  function Twice(): World {
    Generous().(setup := Generous().setup.(decode :=
                  (x: Term) => if x == FIRST.resource || x == SECOND.resource then Some(RESOURCE) else None),
                external := (token: string, format: string) => Some(map[]))
  }

  lemma BothDecode(a: Permission)
    requires a in {FIRST, SECOND}
    ensures var setup := Twice().setup;
      && DecodedIds(setup, [], [a, SECOND]) == map[RESOURCE := SECOND.resource]
      && Decode(setup, [], [a, SECOND]) == [Permission(RESOURCE, [READ_SOURCE]), Permission(RESOURCE, [READ_SOURCE])]
      && Encode(DecodedIds(setup, [], [a, SECOND]), Decode(setup, [], [a, SECOND])) == [SECOND, SECOND]
  {
    var setup := Twice().setup;
    assert [a, SECOND][..1] == [a] && [a][..0] == [];
    assert DecodedIds(setup, [], [a]) == map[RESOURCE := a.resource];
    assert DecodedIds(setup, [], [a, SECOND]) == map[RESOURCE := a.resource][RESOURCE := SECOND.resource];
  }

  lemma TwiceTicket(tokens: seq<CredentialToken>)
    ensures TakeTicket(Twice(), NOTHING, Input(None, Some([FIRST, SECOND]), tokens))
         == (Some(TicketValue([], [FIRST, SECOND], map[])), NOTHING)
  {
    var setup := Twice().setup;
    assert AllSources(setup, [FIRST, SECOND][1..]) == AllSources(setup, [FIRST, SECOND]) == [];
    assert [FIRST, SECOND] + SourcePermissions([]) == [FIRST, SECOND];
  }

  lemma TwiceValidated()
    ensures Validate(Twice().setup, TicketValue([], [FIRST, SECOND], map[]), map[])
         == TicketValue([], [SECOND, SECOND], map[])
  {
    BothDecode(FIRST);
    NothingToSatisfy(ReadIds(map[]), [FIRST, SECOND]);
    MergeIntoNothing(map[]);
    hide DecodedIds, Decode, Encode, Satisfy, ReadIds, Merge, Twice;
  }

  lemma TwiceResolved()
    ensures Resolve(Twice().setup, TicketValue([], [SECOND, SECOND], map[])) == Granted([SECOND, SECOND])
  {
    var setup := Twice().setup;
    var decoded := Permission(RESOURCE, [READ_SOURCE]);
    BothDecode(SECOND);
    NothingUnmatchedIff([decoded, decoded], [decoded, decoded]);
    assert [decoded, decoded][1..] == [decoded] && NonEmpty([decoded]) == [decoded];
    assert NonEmpty([decoded, decoded]) == [decoded, decoded];
    MissingSources(setup, [], [SECOND, SECOND]);
    hide DecodedIds, Decode, Encode, Unmatched, Pairs, NonEmpty, SourcesMissing;
  }

  /** A client asks for one resource under two identifiers: the token names the second one only, twice,
      and is not marked as partial. */
  lemma FirstIdentifierIsLost()
    ensures var response :=
        Handle(Twice(), NOTHING, AskToken(Input(None, Some([FIRST, SECOND]), [OtherToken("t", "f")]), 0)).0;
      response.TokenIssued? && response.permissions == [SECOND, SECOND] && !response.partial
  {
    hide Validate, Resolve, TakeTicket, SubOf;
    var c := OtherToken("t", "f");
    var t := TicketValue([], [FIRST, SECOND], map[]);
    TwiceTicket([c]);
    assert [c][1..] == [] && AcceptedTokens(Twice(), NOTHING.refresh, 0, []) == 0;
    assert AcceptedTokens(Twice(), NOTHING.refresh, 0, [c]) == 1;
    assert Round(Twice(), NOTHING.refresh, 0, [c]) == [map[]];
    OneValidation(Twice().setup, t, map[]);
    TwiceValidated();
    TwiceResolved();
    assert !IsPartial([SECOND, SECOND], [SECOND, SECOND]) by { assert SECOND in [SECOND, SECOND]; }
  }
}
