/** From an access request to the access token: the policy store, the decision and the dialog together. */
module EndToEnd {
  import opened Rdf
  import opened Permissions
  import opened TicketSpec
  import opened TicketTheory
  import opened DialogSpec
  import opened DialogTheory
  import opened RefreshTheory
  import opened PlainDialog
  import opened AcceptedAccess
  import opened AcceptedPolicy
  import opened DeniedRequests
  import opened SharedStore
  import AuthorizationServer
  import Requests = AccessRequests
  import Odrl = SimpleOdrlAuthorizer

  /** The server decides by the policies in `store`, without aggregation. */
  ghost predicate DecidesBy(w: World, e: Odrl.Env, store: seq<Quad>, evaluator: Authorizer) {
    Plain(w.setup) && forall claims, query ::
      w.setup.authorizer(claims, query) == Odrl.Authorize(e, store, claims, query, evaluator)
  }

  // ----- decisions on one permission -----

  lemma {:induction false} EveryScopeAllowed(e: Odrl.Env, store: seq<Quad>, claims: ClaimSet, resource: Term,
                                             scopes: seq<Term>)
    requires forall s | s in scopes :: Odrl.Decide(e, store, claims, resource, s) == Odrl.Grant
    ensures Odrl.Allowed(e, store, claims, resource, scopes) == scopes
  {
    hide Odrl.Decide;
    if scopes != [] {
      var n := |scopes| - 1;
      assert scopes == scopes[..n] + [scopes[n]];
      EveryScopeAllowed(e, store, claims, resource, scopes[..n]);
    }
  }

  lemma {:induction false} NoScopeAllowed(e: Odrl.Env, store: seq<Quad>, claims: ClaimSet, resource: Term,
                                          scopes: seq<Term>)
    requires forall s | s in scopes :: Odrl.Decide(e, store, claims, resource, s) == Odrl.Deny
    ensures Odrl.Allowed(e, store, claims, resource, scopes) == []
  {
    hide Odrl.Decide;
    if scopes != [] {
      var n := |scopes| - 1;
      assert scopes == scopes[..n] + [scopes[n]];
      NoScopeAllowed(e, store, claims, resource, scopes[..n]);
    }
  }

  lemma AuthorizeOne(e: Odrl.Env, store: seq<Quad>, claims: ClaimSet, p: Permission, evaluator: Authorizer)
    requires forall s | s in p.scopes :: Odrl.Decide(e, store, claims, p.resource, s) != Odrl.Delegate
    ensures var allowed := Odrl.Allowed(e, store, claims, p.resource, p.scopes);
      Odrl.Authorize(e, store, claims, [p], evaluator)
        == if allowed == [] then [] else [Permission(p.resource, allowed)]
  {
    hide Odrl.Decide, Odrl.Allowed;
    assert [p][..0] == [] && Odrl.Grants(e, store, claims, []) == [];
    assert Odrl.Grants(e, store, claims, [p][..0]) == [];
  }

  // ----- from asking to the token -----

  /** The request asks for all scopes of the permission, in the terms in which policies are written. */
  ghost predicate AsksFor(quads: set<Quad>, r: Term, p: Permission) {
    p.scopes != [] && forall scope | scope in p.scopes ::
      scope in ObjectsOf(quads, r, RequestedAction) && !IsCssScope(scope)
  }

  /** No other rule interferes with what was generated for the request. */
  ghost predicate AllUndisturbed(e: Odrl.Env, store: seq<Quad>, claims: ClaimSet, p: Permission, g: Term) {
    forall scope | scope in p.scopes :: Undisturbed(e, store, claims, p.resource, scope, PermissionOf(g))
  }

  lemma TokenForGranted(e: Odrl.Env, store: seq<Quad>, evaluator: Authorizer,
                        w: World, s: DialogState, input: Input, p: Permission, now: int)
    requires DecidesBy(w, e, store, evaluator) && TakesTicketFor(w, s, input, p) && p.scopes != []
    requires AcceptedTokens(w, s.refresh, now, input.tokens) == |input.tokens|
    requires forall scope | scope in p.scopes ::
      Odrl.Decide(e, store, ClaimsAfter(w, s, TakeTicket(w, s, input).0.value, input.tokens, now), p.resource, scope)
        == Odrl.Grant
    ensures var response := Negotiate(w, s, input, now).0;
      response.TokenIssued? && response.permissions == [p] && !response.partial
  {
    hide Odrl.Decide, Odrl.Authorize, Odrl.Allowed, Negotiate, ClaimsAfter, TakeTicket, Plain;
    var claims := ClaimsAfter(w, s, TakeTicket(w, s, input).0.value, input.tokens, now);
    EveryScopeAllowed(e, store, claims, p.resource, p.scopes);
    AuthorizeOne(e, store, claims, p, evaluator);
    NegotiateOne(w, s, input, p, now);
  }

  lemma NoTokenForDenied(e: Odrl.Env, store: seq<Quad>, evaluator: Authorizer,
                         w: World, s: DialogState, input: Input, p: Permission, now: int)
    requires DecidesBy(w, e, store, evaluator) && TakesTicketFor(w, s, input, p) && p.scopes != []
    requires AcceptedTokens(w, s.refresh, now, input.tokens) == |input.tokens|
    requires forall scope | scope in p.scopes ::
      Odrl.Decide(e, store, ClaimsAfter(w, s, TakeTicket(w, s, input).0.value, input.tokens, now), p.resource, scope)
        == Odrl.Deny
    ensures Negotiate(w, s, input, now).0 == Forbidden
  {
    hide Odrl.Decide, Odrl.Authorize, Odrl.Allowed, Negotiate, ClaimsAfter, TakeTicket, Plain;
    var claims := ClaimsAfter(w, s, TakeTicket(w, s, input).0.value, input.tokens, now);
    NoScopeAllowed(e, store, claims, p.resource, p.scopes);
    AuthorizeOne(e, store, claims, p, evaluator);
    NegotiateOne(w, s, input, p, now);
  }

  /** Whatever was in the store before, and whatever is asked, decided, registered and written after the owner
      accepted a request: a token request whose ticket asks for scopes of the request, and whose claims identify the
      requesting party, gives an access token for exactly those scopes, as long as the generated policy is left alone
      and no other rule interferes. */
  lemma AcceptedGetsToken(s: State, r: Term, owner: string, party: Term, steps: seq<Step>,
                          e: Odrl.Env, store: seq<Quad>, evaluator: Authorizer,
                          w: World, dialog: DialogState, input: Input, p: Permission, now: int)
    requires Accepts(s, r, owner, p.resource, party) && AsksFor(s.stores.quads, r, p)
    requires ObjectsOf(s.stores.quads, r, HasConstraint) == {}
    requires LeavesPolicy(AfterAccepting(s, r, owner, p.resource, party), steps, Minted(s.minted))
    requires Lists(store, TakeAll(AfterAccepting(s, r, owner, p.resource, party), steps).stores.quads)
    requires DecidesBy(w, e, store, evaluator) && TakesTicketFor(w, dialog, input, p)
    requires AcceptedTokens(w, dialog.refresh, now, input.tokens) == |input.tokens|
    requires var claims := ClaimsAfter(w, dialog, TakeTicket(w, dialog, input).0.value, input.tokens, now);
      Identifies(e, claims, party) && AllUndisturbed(e, store, claims, p, Minted(s.minted))
    ensures var response := Negotiate(w, dialog, input, now).0;
      response.TokenIssued? && response.permissions == [p] && !response.partial
  {
    hide Odrl.Decide, Undisturbed, Identifies, Accepts, AfterAccepting, LeavesPolicy, TakeAll, ObjectsOf, Lists,
         Negotiate, ClaimsAfter, TakeTicket, DecidesBy;
    var claims := ClaimsAfter(w, dialog, TakeTicket(w, dialog, input).0.value, input.tokens, now);
    forall scope | scope in p.scopes ensures Odrl.Decide(e, store, claims, p.resource, scope) == Odrl.Grant {
      AskAcceptGranted(s, r, owner, p.resource, party, steps, e, store, claims, scope);
    }
    TokenForGranted(e, store, evaluator, w, dialog, input, p, now);
  }

  /** If the owner denies an open request, a token request that was refused stays refused, in any state of the server:
      the denial changes no decision. */
  lemma DeniedGetsNoToken(s: State, r: Term, owner: string, target: Term, party: Term,
                          e: Odrl.Env, before: seq<Quad>, after: seq<Quad>, evaluator: Authorizer,
                          w: World, dialog: DialogState, input: Input, p: Permission, now: int)
    requires Requests.Check(s.stores.quads, r, OwnedTerms(s.stores, owner), target, Requests.Reject) == Requests.Done
    requires Lists(before, s.stores.quads)
    requires Lists(after, Take(s, Deciding(r, owner, target, party, Requests.Reject)).stores.quads)
    requires WithoutStatus(before) == WithoutStatus(after)
    requires DecidesBy(w, e, after, evaluator) && p.scopes != []
    requires TakesTicketFor(w, dialog, input, p)
    requires AcceptedTokens(w, dialog.refresh, now, input.tokens) == |input.tokens|
    requires forall scope | scope in p.scopes ::
      Odrl.Decide(e, before, ClaimsAfter(w, dialog, TakeTicket(w, dialog, input).0.value, input.tokens, now),
                  p.resource, scope) == Odrl.Deny
    ensures Negotiate(w, dialog, input, now).0 == Forbidden
  {
    DenialResolves(s, r, owner, target, party);
    hide Odrl.Decide, Lists, Negotiate, ClaimsAfter, TakeTicket, DecidesBy, WithoutStatus, Requests.Resolve,
         Take, Requests.Check;
    var claims := ClaimsAfter(w, dialog, TakeTicket(w, dialog, input).0.value, input.tokens, now);
    forall scope | scope in p.scopes ensures Odrl.Decide(e, after, claims, p.resource, scope) == Odrl.Deny {
      DenialChangesNoDecision(s.stores.quads, r, before, after, e, claims, p.resource, scope);
    }
    NoTokenForDenied(e, after, evaluator, w, dialog, input, p, now);
  }

  lemma DenialResolves(s: State, r: Term, owner: string, target: Term, party: Term)
    requires Requests.Check(s.stores.quads, r, OwnedTerms(s.stores, owner), target, Requests.Reject) == Requests.Done
    ensures Take(s, Deciding(r, owner, target, party, Requests.Reject)).stores.quads
         == Requests.Resolve(s.stores.quads, r, Requests.Reject)
  {
    hide Requests.Check;
  }

  // ----- from a stored ticket -----

  /** A ticket requested for one permission is stored under a fresh id. */
  lemma RequestedTicket(w: World, s: DialogState, p: Permission)
    requires Plain(w.setup) && RequestTicket(w, s, [p]).0.TicketCreated?
    ensures var (response, after) := RequestTicket(w, s, [p]);
      response.ticket in after.tickets && after.tickets[response.ticket] == TicketValue([], [p], map[])
  {
    PlainTicket(w.setup, p);
    hide Initialize, Resolve;
  }

  lemma KeptUnlessRedeemed(w: World, s: DialogState, r: DialogRequest, id: nat)
    requires id in s.tickets && id < s.serial && !Redeems(s, r, id)
    ensures id in Handle(w, s, r).1.tickets && Handle(w, s, r).1.tickets[id] == s.tickets[id]
  {
    hide Initialize, ValidateAll, Resolve, IsPartial, AcceptedTokens, SubOf, AfterVerify, Verify;
  }

  /** A ticket that is not redeemed stays as it is, whatever else is asked. */
  lemma {:induction false} StoredUntilRedeemed(s: DialogState, run: seq<(World, DialogRequest)>, id: nat)
    requires TicketsOk(s) && id in s.tickets && Redemptions(s, run, id) == 0
    ensures id in HandleAll(s, run).tickets && HandleAll(s, run).tickets[id] == s.tickets[id]
    decreases |run|
  {
    hide Handle, Redeems, TicketsOk;
    if run != [] {
      HandleKeepsOk(run[0].0, s, run[0].1);
      TicketBelow(s, id);
      KeptUnlessRedeemed(run[0].0, s, run[0].1, id);
      StoredUntilRedeemed(Handle(run[0].0, s, run[0].1).1, run[1..], id);
    }
  }

  lemma TicketBelow(s: DialogState, id: nat)
    requires TicketsOk(s) && id in s.tickets
    ensures id < s.serial
  {}

  /** The same through a resource server, which requests the ticket before the client has any claims, with any
      requests of others in between: `AcceptedGetsToken` and `DeniedGetsNoToken` apply to the stored ticket. */
  lemma RequestedTicketIsTaken(w0: World, s: DialogState, p: Permission, run: seq<(World, DialogRequest)>,
                               w: World, tokens: seq<CredentialToken>)
    requires TicketsOk(s) && Plain(w0.setup) && RequestTicket(w0, s, [p]).0.TicketCreated?
    requires Redemptions(RequestTicket(w0, s, [p]).1, run, RequestTicket(w0, s, [p]).0.ticket) == 0
    ensures var (response, after) := RequestTicket(w0, s, [p]);
      TakesTicketFor(w, HandleAll(after, run), Input(Some(response.ticket), None, tokens), p)
  {
    hide TicketsOk, Plain, RequestTicket, HandleAll, Redemptions;
    RequestedTicket(w0, s, p);
    TicketIsStep(w0, s, p);
    HandleKeepsOk(w0, s, AskTicket([p]));
    StoredUntilRedeemed(RequestTicket(w0, s, [p]).1, run, RequestTicket(w0, s, [p]).0.ticket);
  }

  lemma TicketIsStep(w: World, s: DialogState, p: Permission)
    ensures Handle(w, s, AskTicket([p])) == RequestTicket(w, s, [p])
  {}
}
