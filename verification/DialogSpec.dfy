/** The token dialog on values: tickets and refresh tokens are consumed and issued, request by request. */
module DialogSpec {
  import opened Rdf
  import opened Permissions
  import opened TicketSpec
  import opened TicketTheory

  datatype RefreshInformation = RefreshInformation(claims: ClaimSet, permissions: seq<Permission>, expiration: int)

  /** Random identifiers are numbers that were not used before. */
  datatype DialogState = DialogState(tickets: map<nat, TicketValue>, refresh: map<nat, RefreshInformation>, serial: nat)

  datatype CredentialToken =
    | RefreshToken(id: nat)
    | OtherToken(token: string, format: string)
    | Incomplete                                        // without a token or without a format

  datatype Input = Input(ticket: Option<nat>, permissions: Option<seq<Permission>>, tokens: seq<CredentialToken>)

  datatype Response =
    | TokenIssued(permissions: seq<Permission>, partial: bool, sub: Option<string>,
                  refresh: Option<nat>, derivation: Option<Term>)
    | NeedInfo(ticket: nat, required: seq<RequiredClaim>)
    | TicketCreated(ticket: nat)
    | NoTicketNeeded
    | InvalidResource
    | BadRequest
    | Forbidden
    | InternalError

  datatype Iris = Iris(isIri: string -> bool, absolute: string -> string)

  /** What a request finds outside the dialog: registrations, policies, and verifiers of other tokens.
      `iris` is None when identifiers are not made absolute. */
  datatype World = World(
    setup: Setup,
    registered: set<Term>,
    external: (string, string) -> Option<ClaimSet>,
    iris: Option<Iris>,
    encode: Term -> Term,
    refreshes: bool,
    lifetime: nat)

  // ----- credentials -----

  function Absolute(iris: Iris, v: ClaimValue): ClaimValue {
    if v.Text? && !iris.isIri(v.value) then Text(iris.absolute(v.value)) else v
  }

  function AllAbsolute(iris: Iris, values: seq<ClaimValue>): seq<ClaimValue> {
    seq(|values|, i requires 0 <= i < |values| => Absolute(iris, values[i]))
  }

  function NormaliseKey(iris: Iris, claims: ClaimSet, key: string, original: string): ClaimSet {
    if key in claims then claims[original := claims[key]][key := AllAbsolute(iris, claims[key])] else claims
  }

  /** Makes user and client identifiers absolute, and keeps what they were. */
  function Normalise(iris: Option<Iris>, claims: ClaimSet): ClaimSet {
    if iris.None? then claims
    else NormaliseKey(iris.value, NormaliseKey(iris.value, claims, WEBID, ORIGINAL_WEBID), CLIENTID, ORIGINAL_CLIENTID)
  }

  datatype Verification = Verified(claims: ClaimSet) | Refused(response: Response)

  function Verify(w: World, refresh: map<nat, RefreshInformation>, now: int, c: CredentialToken): Verification {
    match c
    case RefreshToken(id) =>
      if id !in refresh then Refused(BadRequest)
      else if now > refresh[id].expiration then Refused(Forbidden)
      else Verified(Normalise(w.iris, refresh[id].claims))
    case OtherToken(token, format) =>
      if w.external(token, format).None? then Refused(BadRequest)
      else Verified(Normalise(w.iris, w.external(token, format).value))
    case Incomplete => Refused(BadRequest)
  }

  /** Verifying an expired refresh token removes it. */
  function AfterVerify(refresh: map<nat, RefreshInformation>, now: int, c: CredentialToken)
    : map<nat, RefreshInformation>
  {
    if c.RefreshToken? && c.id in refresh && now > refresh[c.id].expiration then refresh - {c.id} else refresh
  }

  /** How many tokens are accepted before one is refused. */
  function AcceptedTokens(w: World, refresh: map<nat, RefreshInformation>, now: int, tokens: seq<CredentialToken>)
    : (n: nat)
    ensures n <= |tokens|
    ensures forall i | 0 <= i < n :: Verify(w, refresh, now, tokens[i]).Verified?
    ensures n < |tokens| ==> Verify(w, refresh, now, tokens[n]).Refused?
  {
    if tokens == [] || Verify(w, refresh, now, tokens[0]).Refused? then 0
    else 1 + AcceptedTokens(w, refresh, now, tokens[1..])
  }

  function Round(w: World, refresh: map<nat, RefreshInformation>, now: int, tokens: seq<CredentialToken>): seq<ClaimSet>
    requires forall i | 0 <= i < |tokens| :: Verify(w, refresh, now, tokens[i]).Verified?
  {
    seq(|tokens|, i requires 0 <= i < |tokens| => Verify(w, refresh, now, tokens[i]).claims)
  }

  // ----- negotiation -----

  function TakeTicket(w: World, s: DialogState, input: Input): (Option<TicketValue>, DialogState) {
    if input.ticket.Some? then
      if input.ticket.value in s.tickets
      then (Some(s.tickets[input.ticket.value]), s.(tickets := s.tickets - {input.ticket.value}))
      else (None, s)
    else if input.permissions.Some? then (Initialize(w.setup, input.permissions.value), s)
    else (None, s)
  }

  function SubOf(provided: ClaimSet): Option<string> {
    var subs := if ORIGINAL_WEBID in provided then provided[ORIGINAL_WEBID] else ClaimsFor(provided, WEBID);
    if subs != [] && subs[0].Text? then Some(subs[0].value) else None
  }

  function Issue(w: World, s: DialogState, v: TicketValue, granted: seq<Permission>, now: int): (Response, DialogState)
  {
    var partial := IsPartial(v.permissions, granted);
    if w.refreshes then
      (TokenIssued(granted, partial, SubOf(v.provided), Some(s.serial), None),
       s.(refresh := s.refresh[s.serial := RefreshInformation(v.provided, granted, now + w.lifetime)],
          serial := s.serial + 1))
    else (TokenIssued(granted, partial, SubOf(v.provided), None, None), s)
  }

  /** `t` is the ticket as it was taken, `v` the validated one; the claims are those of both. */
  function Conclude(w: World, s: DialogState, t: TicketValue, v: TicketValue, now: int): (Response, DialogState) {
    match Resolve(w.setup, v)
    case Broken => (InternalError, s)
    case Granted(granted) => Issue(w, s, v, granted, now)
    case Required(claims) =>
      if claims == [] then (Forbidden, s)
      else (NeedInfo(s.serial, claims),
            s.(tickets := s.tickets[s.serial := t.(provided := v.provided)], serial := s.serial + 1))
  }

  function Negotiate(w: World, s: DialogState, input: Input, now: int): (Response, DialogState) {
    var (ticket, taken) := TakeTicket(w, s, input);
    if ticket.None? then (BadRequest, taken) else
    var n := AcceptedTokens(w, s.refresh, now, input.tokens);
    if n < |input.tokens| then
      (Verify(w, s.refresh, now, input.tokens[n]).response,
       taken.(refresh := AfterVerify(s.refresh, now, input.tokens[n])))
    else
      Conclude(w, taken, ticket.value,
               ValidateAll(w.setup, ticket.value, Round(w, s.refresh, now, input.tokens)), now)
  }

  /** A token request that creates a derivation: its ticket also asks for the derivation-creation scope. */
  function Derive(w: World, s: DialogState, input: Input, now: int): (Response, DialogState) {
    if input.ticket.None? || input.ticket.value !in s.tickets then (BadRequest, s) else
    var t := s.tickets[input.ticket.value];
    if |t.permissions| != 1 then (BadRequest, s) else
    var p := t.permissions[0];
    var extended := t.(permissions := [p.(scopes := p.scopes + [Known(DerivationCreation)])]);
    var (response, after) := Negotiate(w, s.(tickets := s.tickets[input.ticket.value := extended]), input, now);
    (if response.TokenIssued? then response.(derivation := Some(w.encode(p.resource))) else response, after)
  }

  /** The clock is read when the request arrives, and again when the token is verified. */
  function Refresh(w: World, s: DialogState, id: nat, now: int, later: int): (Response, DialogState) {
    if id !in s.refresh then (BadRequest, s)
    else if now > s.refresh[id].expiration then (Forbidden, s.(refresh := s.refresh - {id})) else
    var (response, after) := Negotiate(w, s, Input(None, Some(s.refresh[id].permissions), [RefreshToken(id)]), later);
    (response, if response.TokenIssued? then after.(refresh := after.refresh - {id}) else after)
  }

  /** A resource server asks for a ticket on behalf of a client without claims. */
  function RequestTicket(w: World, s: DialogState, permissions: seq<Permission>): (Response, DialogState) {
    if exists p | p in permissions :: p.resource !in w.registered then (InvalidResource, s) else
    var ticket := Initialize(w.setup, permissions);
    if ticket.None? then (BadRequest, s) else
    match Resolve(w.setup, ticket.value)
    case Broken => (InternalError, s)
    case Granted(_) => (NoTicketNeeded, s)
    case Required(_) =>
      (TicketCreated(s.serial), s.(tickets := s.tickets[s.serial := ticket.value], serial := s.serial + 1))
  }

  // ----- runs -----

  datatype DialogRequest =
    | AskTicket(permissions: seq<Permission>)
    | AskToken(input: Input, now: int)
    | AskDerivation(input: Input, now: int)
    | AskRefresh(id: nat, now: int, later: int)

  function Handle(w: World, s: DialogState, r: DialogRequest): (Response, DialogState) {
    match r
    case AskTicket(permissions) => RequestTicket(w, s, permissions)
    case AskToken(input, now) => Negotiate(w, s, input, now)
    case AskDerivation(input, now) => Derive(w, s, input, now)
    case AskRefresh(id, now, later) => Refresh(w, s, id, now, later)
  }

  /** Registrations, policies and the clock may change from one request to the next. */
  function HandleAll(s: DialogState, run: seq<(World, DialogRequest)>): DialogState
    decreases |run|
  {
    if run == [] then s else HandleAll(Handle(run[0].0, s, run[0].1).1, run[1..])
  }
}
