/** The dialog as it runs: the handlers share the stores, and tickets share the claims provided for them. */
module TokenDialog {
  import opened Rdf
  import opened Permissions
  import opened TicketSpec
  import opened TicketTheory
  import opened TicketingStrategies
  import opened DialogSpec
  import DerivationTokens

  class DialogStores {
    var ticketStore: map<nat, Ticket>
    var refreshStore: map<nat, RefreshInformation>
    var serial: nat

    constructor ()
      ensures ticketStore == map[] && refreshStore == map[] && serial == 0
      ensures Valid()
    {
      ticketStore, refreshStore, serial := map[], map[], 0;
    }

    ghost function Claims(): set<Provided>
      reads this
    {
      set id | id in ticketStore :: ticketStore[id].provided
    }

    /** Stored tickets do not share their claims with one another, and their numbers were given out. */
    ghost predicate Valid()
      reads this
    {
      && (forall a, b | a in ticketStore && b in ticketStore && a != b ::
        ticketStore[a].provided != ticketStore[b].provided)
      && (forall id | id in ticketStore :: id < serial)
    }

    ghost function State(): DialogState
      reads this, Claims()
    {
      DialogState(map id | id in ticketStore :: Value(ticketStore[id]), refreshStore, serial)
    }

    method FreshId() returns (id: nat)
      modifies this`serial
      ensures id == old(serial) && serial == id + 1
    {
      id := serial;
      serial := serial + 1;
    }
  }

  /** Storing a ticket whose claims no stored ticket refers to. */
  method StoreTicket(stores: DialogStores, ticket: Ticket) returns (id: nat)
    requires stores.Valid() && ticket.provided !in stores.Claims()
    modifies stores`ticketStore, stores`serial
    ensures stores.Valid() && id == old(stores.serial) && stores.serial == id + 1
    ensures stores.State().tickets == old(stores.State()).tickets[id := Value(ticket)]
  {
    id := stores.FreshId();
    stores.ticketStore := stores.ticketStore[id := ticket];
  }

  class Verifier {
    const stores: DialogStores
    const external: (string, string) -> Option<ClaimSet>
    const iris: Option<Iris>

    constructor (stores: DialogStores, external: (string, string) -> Option<ClaimSet>, iris: Option<Iris>)
      ensures this.stores == stores && this.external == external && this.iris == iris
    {
      this.stores, this.external, this.iris := stores, external, iris;
    }

    method Verify(c: CredentialToken, now: int, ghost w: World) returns (v: Verification)
      requires w.external == external && w.iris == iris
      modifies stores`refreshStore
      ensures v == DialogSpec.Verify(w, old(stores.refreshStore), now, c)
      ensures stores.refreshStore == AfterVerify(old(stores.refreshStore), now, c)
    {
      match c
      case Incomplete => return Refused(BadRequest);
      case RefreshToken(id) =>
        if id !in stores.refreshStore { return Refused(BadRequest); }
        if now > stores.refreshStore[id].expiration {
          stores.refreshStore := stores.refreshStore - {id};
          return Refused(Forbidden);
        }
        return Verified(Normalise(iris, stores.refreshStore[id].claims));
      case OtherToken(token, format) =>
        if external(token, format).None? { return Refused(BadRequest); }
        return Verified(Normalise(iris, external(token, format).value));
    }
  }

  class StoredRefreshTokenIssuer {
    const stores: DialogStores
    const refreshExpiration: nat

    constructor (stores: DialogStores, refreshExpiration: nat)
      ensures this.stores == stores && this.refreshExpiration == refreshExpiration
    {
      this.stores, this.refreshExpiration := stores, refreshExpiration;
    }

    method Issue(claims: ClaimSet, permissions: seq<Permission>, now: int) returns (refreshToken: nat)
      modifies stores`refreshStore, stores`serial
      ensures refreshToken == old(stores.serial) && stores.serial == refreshToken + 1
      ensures stores.refreshStore
           == old(stores.refreshStore)[refreshToken := RefreshInformation(claims, permissions, now + refreshExpiration)]
    {
      refreshToken := stores.FreshId();
      stores.refreshStore :=
        stores.refreshStore[refreshToken := RefreshInformation(claims, permissions, now + refreshExpiration)];
    }
  }

  class BaseNegotiator {
    const stores: DialogStores
    const verifier: Verifier
    const ticketingStrategy: AggregatorStrategy
    const refreshTokenIssuer: StoredRefreshTokenIssuer?

    constructor (stores: DialogStores, verifier: Verifier, ticketingStrategy: AggregatorStrategy,
                 refreshTokenIssuer: StoredRefreshTokenIssuer?)
      ensures this.stores == stores && this.verifier == verifier
      ensures this.ticketingStrategy == ticketingStrategy && this.refreshTokenIssuer == refreshTokenIssuer
    {
      this.stores, this.verifier := stores, verifier;
      this.ticketingStrategy, this.refreshTokenIssuer := ticketingStrategy, refreshTokenIssuer;
    }

    /** `w` is the configuration of this negotiator and of what it uses. */
    ghost predicate Fits(w: World)
      reads ticketingStrategy, ticketingStrategy.strategy
    {
      && verifier.stores == stores && w.external == verifier.external && w.iris == verifier.iris
      && w.setup == ticketingStrategy.Settings()
      && (w.refreshes <==> refreshTokenIssuer != null)
      && (refreshTokenIssuer != null ==>
        refreshTokenIssuer.stores == stores && w.lifetime == refreshTokenIssuer.refreshExpiration)
    }

    method Negotiate(input: Input, now: int, ghost w: World) returns (response: Response)
      requires stores.Valid() && Fits(w)
      modifies stores, stores.Claims()
      ensures stores.Valid()
      ensures (response, stores.State()) == DialogSpec.Negotiate(w, old(stores.State()), input, now)
    {
      hide TakeTicket, ValidateAll, Round, Resolve, Issue, AfterVerify, DialogSpec.Verify;
      var taken := GetTicket(input, w);
      if taken.None? { return BadRequest; }
      var ticket := taken.value;
      var refused, updatedTicket := ProcessCredentials(input, ticket, now, w);
      if refused.Some? { return refused.value; }
      var resolved := ticketingStrategy.ResolveTicket(updatedTicket);
      match resolved
      case Broken => return InternalError;
      case Granted(permissions) =>
        response := IssueToken(updatedTicket, permissions, now, w);
      case Required(claims) =>
        response := DenyRequest(ticket, claims);
    }

    /** The token, and a refresh token for the claims and permissions behind it. */
    method IssueToken(ticket: Ticket, permissions: seq<Permission>, now: int, ghost w: World)
      returns (response: Response)
      requires stores.Valid() && Fits(w)
      modifies stores`refreshStore, stores`serial
      ensures stores.Valid()
      ensures (response, stores.State()) == DialogSpec.Issue(w, old(stores.State()), Value(ticket), permissions, now)
    {
      var partial := IsPartialResult(ticket.permissions, permissions);
      var sub := SubOf(ticket.provided.claims);
      var refreshToken := None;
      if refreshTokenIssuer != null {
        var id := refreshTokenIssuer.Issue(ticket.provided.claims, permissions, now);
        refreshToken := Some(id);
      }
      response := TokenIssued(permissions, partial, sub, refreshToken, None);
      assert stores.State().tickets == old(stores.State()).tickets;
    }

    /** The ticket is stored as it was when the request began, under a new number. */
    method DenyRequest(ticket: Ticket, requirements: seq<RequiredClaim>) returns (response: Response)
      requires stores.Valid() && ticket.provided !in stores.Claims()
      modifies stores`ticketStore, stores`serial
      ensures stores.Valid()
      ensures var s := old(stores.State());
        (response, stores.State()) ==
          if requirements == [] then (Forbidden, s)
          else (NeedInfo(s.serial, requirements),
                s.(tickets := s.tickets[s.serial := Value(ticket)], serial := s.serial + 1))
    {
      if |requirements| == 0 { return Forbidden; }
      var id := StoreTicket(stores, ticket);
      response := NeedInfo(id, requirements);
    }

    static method IsPartialResult(requested: seq<Permission>, granted: seq<Permission>) returns (partial: bool)
      ensures partial == IsPartial(requested, granted)
    {
      if |requested| != |granted| { return true; }
      for i := 0 to |requested|
        invariant forall r | r in requested[..i] :: exists g | g in granted ::
          g.resource == r.resource && |g.scopes| == |r.scopes| && forall s | s in r.scopes :: s in g.scopes
      {
        assert requested[..i + 1] == requested[..i] + [requested[i]];
        if forall g | g in granted ::
             g.resource != requested[i].resource || |g.scopes| != |requested[i].scopes|
             || exists s | s in requested[i].scopes :: s !in g.scopes
        {
          assert requested[i] in requested;
          return true;
        }
      }
      assert requested[..|requested|] == requested;
      partial := false;
    }

    method GetTicket(input: Input, ghost w: World) returns (ticket: Option<Ticket>)
      requires stores.Valid() && w.setup == ticketingStrategy.Settings()
      modifies stores`ticketStore
      ensures stores.Valid() && stores.Claims() <= old(stores.Claims())
      ensures ticket.Some? ==> ticket.value.provided !in stores.Claims()
      ensures ticket.Some? ==> ticket.value.provided in old(stores.Claims()) || fresh(ticket.value.provided)
      ensures (if ticket.Some? then Some(Value(ticket.value)) else None, stores.State())
           == TakeTicket(w, old(stores.State()), input)
    {
      if input.ticket.Some? {
        var id := input.ticket.value;
        if id !in stores.ticketStore { return None; }
        ticket := Some(stores.ticketStore[id]);
        stores.ticketStore := stores.ticketStore - {id};
        assert stores.State().tickets == old(stores.State()).tickets - {id};
        return;
      }
      if input.permissions.None? { return None; }
      ticket := ticketingStrategy.InitializeTicket(input.permissions.value);
      assert stores.State().tickets == old(stores.State()).tickets;
    }

    method ProcessCredentials(input: Input, ticket: Ticket, now: int, ghost w: World)
      returns (refused: Option<Response>, updated: Ticket)
      requires stores.Valid() && Fits(w) && ticket.provided !in stores.Claims()
      modifies ticket.provided, stores`refreshStore
      ensures stores.Valid() && updated.provided == ticket.provided
      ensures stores.State().tickets == old(stores.State()).tickets
      ensures refused.Some? ==>
        Refuses(w, old(stores.refreshStore), now, input.tokens, refused.value, stores.refreshStore)
      ensures refused.None? ==> stores.refreshStore == old(stores.refreshStore)
      ensures refused.None? ==>
        Accepts(w, old(stores.refreshStore), now, input.tokens, old(Value(ticket)), Value(updated))
    {
      hide ValidateAll, Validate, Round, DialogSpec.Verify, AfterVerify, AcceptedTokens;
      updated := ticket;
      ghost var refresh, before := stores.refreshStore, Value(ticket);
      NoRound(w, refresh, now, input.tokens, before);
      for i := 0 to |input.tokens|
        invariant stores.refreshStore == refresh && updated.provided == ticket.provided
        invariant stores.State().tickets == old(stores.State()).tickets
        invariant AllVerified(w, refresh, now, input.tokens, i)
        invariant Value(updated) == ValidateAll(w.setup, before, Round(w, refresh, now, input.tokens[..i]))
      {
        var verification := verifier.Verify(input.tokens[i], now, w);
        if verification.Refused? {
          FirstRefusal(w, refresh, now, input.tokens, i);
          return Some(verification.response), updated;
        }
        VerifiedKeepsStore(w, refresh, now, input.tokens[i]);
        RoundNext(w, refresh, now, input.tokens, i, before);
        updated := ticketingStrategy.ValidateClaims(updated, verification.claims);
      }
      assert input.tokens[..|input.tokens|] == input.tokens;
      refused := None;
    }

    static ghost predicate AllVerified(w: World, refresh: map<nat, RefreshInformation>, now: int,
                                       tokens: seq<CredentialToken>, i: nat)
    {
      i <= |tokens| && forall j | 0 <= j < i :: DialogSpec.Verify(w, refresh, now, tokens[j]).Verified?
    }

    /** The first token that is not accepted decides the response, and what becomes of the refresh tokens. */
    static ghost predicate Refuses(w: World, refresh: map<nat, RefreshInformation>, now: int,
                                   tokens: seq<CredentialToken>,
                                   response: Response, after: map<nat, RefreshInformation>)
    {
      var n := AcceptedTokens(w, refresh, now, tokens);
      && n < |tokens| && after == AfterVerify(refresh, now, tokens[n])
      && response == DialogSpec.Verify(w, refresh, now, tokens[n]).response
    }

    static ghost predicate Accepts(w: World, refresh: map<nat, RefreshInformation>, now: int,
                                   tokens: seq<CredentialToken>, t: TicketValue, v: TicketValue)
    {
      && AcceptedTokens(w, refresh, now, tokens) == |tokens|
      && v == ValidateAll(w.setup, t, Round(w, refresh, now, tokens))
    }

    static lemma NoRound(w: World, refresh: map<nat, RefreshInformation>, now: int, tokens: seq<CredentialToken>,
                         t: TicketValue)
      ensures t == ValidateAll(w.setup, t, Round(w, refresh, now, tokens[..0]))
    {}

    static lemma FirstRefusal(w: World, refresh: map<nat, RefreshInformation>, now: int, tokens: seq<CredentialToken>,
                              i: nat)
      requires AllVerified(w, refresh, now, tokens, i) && i < |tokens|
      requires DialogSpec.Verify(w, refresh, now, tokens[i]).Refused?
      ensures AcceptedTokens(w, refresh, now, tokens) == i
    {}

    static lemma VerifiedKeepsStore(w: World, refresh: map<nat, RefreshInformation>, now: int, c: CredentialToken)
      requires DialogSpec.Verify(w, refresh, now, c).Verified?
      ensures AfterVerify(refresh, now, c) == refresh
    {
      hide Normalise;
    }

    static lemma RoundNext(w: World, refresh: map<nat, RefreshInformation>, now: int, tokens: seq<CredentialToken>,
                           i: nat, t: TicketValue)
      requires AllVerified(w, refresh, now, tokens, i) && i < |tokens|
      requires DialogSpec.Verify(w, refresh, now, tokens[i]).Verified?
      ensures AllVerified(w, refresh, now, tokens, i + 1)
      ensures ValidateAll(w.setup, t, Round(w, refresh, now, tokens[..i + 1]))
           == Validate(w.setup, ValidateAll(w.setup, t, Round(w, refresh, now, tokens[..i])),
                       DialogSpec.Verify(w, refresh, now, tokens[i]).claims)
    {
      hide DialogSpec.Verify, Validate;
      var round := Round(w, refresh, now, tokens[..i + 1]);
      assert round[..i] == Round(w, refresh, now, tokens[..i]);
    }
  }

  class AggregatorNegotiator {
    const stores: DialogStores
    const negotiator: BaseNegotiator
    const encodeAggregateId: Term -> Term

    constructor (stores: DialogStores, negotiator: BaseNegotiator, encodeAggregateId: Term -> Term)
      ensures this.stores == stores && this.negotiator == negotiator && this.encodeAggregateId == encodeAggregateId
    {
      this.stores, this.negotiator, this.encodeAggregateId := stores, negotiator, encodeAggregateId;
    }

    ghost predicate Fits(w: World)
      reads negotiator.ticketingStrategy, negotiator.ticketingStrategy.strategy
    {
      negotiator.stores == stores && negotiator.Fits(w) && w.encode == encodeAggregateId
    }

    method Negotiate(input: Input, scopes: seq<Term>, now: int, ghost w: World) returns (response: Response)
      requires stores.Valid() && Fits(w)
      modifies stores, stores.Claims()
      ensures stores.Valid()
      ensures Known(DerivationCreation) !in scopes ==>
        (response, stores.State()) == DialogSpec.Negotiate(w, old(stores.State()), input, now)
      ensures Known(DerivationCreation) in scopes ==>
        (response, stores.State()) == Derive(w, old(stores.State()), input, now)
    {
      if Known(DerivationCreation) !in scopes {
        response := negotiator.Negotiate(input, now, w);
      } else {
        response := NegotiateDerivationCreation(input, now, w);
      }
    }

    static lemma SameClaims(before: map<nat, Ticket>, after: map<nat, Ticket>)
      requires before.Keys == after.Keys && forall id | id in before :: before[id].provided == after[id].provided
      ensures (set id | id in before :: before[id].provided) == (set id | id in after :: after[id].provided)
    {
      var was := set id | id in before :: before[id].provided;
      var now := set id | id in after :: after[id].provided;
      forall p | p in was ensures p in now {
        var id :| id in before && before[id].provided == p;
        assert id in after && after[id].provided == p;
      }
    }

    /** The scope is added to the stored ticket before that ticket is redeemed. */
    method NegotiateDerivationCreation(input: Input, now: int, ghost w: World) returns (response: Response)
      requires stores.Valid() && Fits(w)
      modifies stores, stores.Claims()
      ensures stores.Valid()
      ensures (response, stores.State()) == Derive(w, old(stores.State()), input, now)
      ensures DerivationTokens.IsForCreation(w, old(stores.State()), input, response)
    {
      hide DialogSpec.Negotiate, DerivationTokens.IsForCreation;
      DerivationTokens.DeriveIsForCreation(w, stores.State(), input, now);
      if input.ticket.None? { return BadRequest; }
      var id := input.ticket.value;
      if id !in stores.ticketStore { return BadRequest; }
      var ticket := stores.ticketStore[id];
      if |ticket.permissions| != 1 { return BadRequest; }
      var permission := ticket.permissions[0];
      var scopes := permission.scopes + [Known(DerivationCreation)];
      stores.ticketStore := stores.ticketStore[id := ticket.(permissions := [permission.(scopes := scopes)])];
      SameClaims(old(stores.ticketStore), stores.ticketStore);
      assert stores.State().tickets == old(stores.State()).tickets[id := Value(stores.ticketStore[id])];
      response := negotiator.Negotiate(input, now, w);
      if response.TokenIssued? {
        response := response.(derivation := Some(encodeAggregateId(permission.resource)));
      }
    }
  }

  class TicketRequestHandler {
    const stores: DialogStores
    const ticketingStrategy: AggregatorStrategy
    var registered: set<Term>

    constructor (stores: DialogStores, ticketingStrategy: AggregatorStrategy, registered: set<Term>)
      ensures this.stores == stores && this.ticketingStrategy == ticketingStrategy && this.registered == registered
    {
      this.stores, this.ticketingStrategy, this.registered := stores, ticketingStrategy, registered;
    }

    method Handle(permissions: seq<Permission>, ghost w: World) returns (response: Response)
      requires stores.Valid() && w.setup == ticketingStrategy.Settings() && w.registered == registered
      modifies stores`ticketStore, stores`serial
      ensures stores.Valid()
      ensures (response, stores.State()) == RequestTicket(w, old(stores.State()), permissions)
    {
      hide Initialize, Resolve;
      var known := AllKnown(permissions);
      if !known {
        assert stores.State() == old(stores.State());
        return InvalidResource;
      }
      var ticket := ticketingStrategy.InitializeTicket(permissions);
      assert stores.State() == old(stores.State());
      if ticket.None? { return BadRequest; }
      ghost var t := Value(ticket.value);
      var resolved := ticketingStrategy.ResolveTicket(ticket.value);
      assert Initialize(w.setup, permissions) == Some(t) && resolved == Resolve(w.setup, t);
      assert stores.State() == old(stores.State());
      match resolved
      case Granted(_) => return NoTicketNeeded;
      case Broken => return InternalError;
      case Required(_) =>
        var id := StoreTicket(stores, ticket.value);
        return TicketCreated(id);
    }

    method AllKnown(permissions: seq<Permission>) returns (known: bool)
      ensures known <==> !exists p | p in permissions :: p.resource !in registered
    {
      for i := 0 to |permissions|
        invariant forall p | p in permissions[..i] :: p.resource in registered
      {
        assert permissions[..i + 1] == permissions[..i] + [permissions[i]];
        if permissions[i].resource !in registered {
          assert permissions[i] in permissions;
          return false;
        }
      }
      assert permissions[..|permissions|] == permissions;
      known := true;
    }
  }

  class RefreshTokenHandler {
    const stores: DialogStores
    const negotiator: AggregatorNegotiator

    constructor (stores: DialogStores, negotiator: AggregatorNegotiator)
      ensures this.stores == stores && this.negotiator == negotiator
    {
      this.stores, this.negotiator := stores, negotiator;
    }

    method Handle(refreshToken: nat, now: int, later: int, ghost w: World) returns (response: Response)
      requires stores.Valid() && negotiator.stores == stores && negotiator.Fits(w)
      modifies stores, stores.Claims()
      ensures stores.Valid()
      ensures (response, stores.State()) == Refresh(w, old(stores.State()), refreshToken, now, later)
    {
      hide DialogSpec.Negotiate;
      if refreshToken !in stores.refreshStore { return BadRequest; }
      var information := stores.refreshStore[refreshToken];
      if now > information.expiration {
        stores.refreshStore := stores.refreshStore - {refreshToken};
        assert stores.State().tickets == old(stores.State()).tickets;
        return Forbidden;
      }
      var input := Input(None, Some(information.permissions), [RefreshToken(refreshToken)]);
      response := negotiator.Negotiate(input, [], later, w);
      ghost var after := stores.State();
      if response.TokenIssued? {
        stores.refreshStore := stores.refreshStore - {refreshToken};
        assert stores.State().tickets == after.tickets;
      }
    }
  }
}
