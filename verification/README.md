# Verified model of the UMA authorization server and its resource server client

A Dafny model of the parts of this repository in which state is shared, updated by
differences, or passed back and forth between two parties, with proofs of what
they guarantee. `dafny verify dfyconfig.toml` checks the whole project.

The modules follow the components:

- `Rdf`: terms, quads and the vocabulary. A store is a set of quads, except where the order of
  enumeration matters (`SimpleOdrlAuthorizer`), where it is a list.
- `RegistrationSpec`, `RegistrationTheory`, `ResourceRegistration`: the registration endpoint. The
  first says on values what POST, PUT and DELETE do to the four stores, the last is the endpoint as
  it runs, with loops and stores updated in place, proved to do just that.
- `CollectionSpec`, `CollectionTheory`, `CollectionHandler`: custom collections on the same stores, in the
  same way.
- `AuthorizationServer`: both endpoints together, over any sequence of requests.
- `RegistrationMeaning`, `CollectionOwners`: what these endpoints promise in terms of entries and quads, how they
  answer, and who may change what.
- `UmaClient`, `UmaClientSafety`, `UmaClientAgreement`, `UmaClientTermination`, `UmaClientTickets`,
  `UmaClientTicketTokens`, `UmaClientTicketTermination`: the client of the resource server as a step relation, one
  step per stretch between two awaits, composed with the registration endpoint. Wake-ups, lost responses and
  deletions are steps too.
- `UmaClientDescriptions`, `UmaClientPats`, `UmaClientDeletion`: what the server knows of the resources of the
  client, which PATs the client uses, and what becomes of a resource after `deleteResource`.
- `RulesStorage`, `PolicyView`, `PolicyMeaning`, `AccessRequests`: the policy store, the policy endpoint with the view
  one owner has of a policy, and the life cycle of access requests.
- `PolicyWrites`, `CollectionWrites`: what a request to the policy endpoint does to access requests, and to
  registrations and collections: the exact conditions under which it keeps what holds of them.
- `SharedStore`, `RequestExamples`: the endpoints that share the one policy store, interleaved, and the runs in which
  the policy endpoint breaks what the others promise.
- `SimpleOdrlAuthorizer`, `OdrlMeaning`, `OdrlOrder`, `NamespacedAuthorizer`, `Permissions`: decisions on policies,
  and what they mean for the quads of a store.
- `AcceptedAccess`, `AcceptedPolicy`, `ConstrainedAccess`, `DeniedRequests`: from an accepted access request to the
  decision on the resulting store and on every later one, and to the policy that its owner finds there; and why a
  denial changes no decision.
- `TicketSpec`, `TicketTheory`, `TicketMeaning`, `TicketingStrategies`: tickets. The claims of a ticket are one object
  that all tickets made from it share, and that is updated in place.
- `DialogSpec`, `DialogTheory`, `DialogMeaning`, `DerivationTokens`, `RefreshTheory`, `RefreshTokenUses`,
  `PlainDialog`, `DialogExamples`, `TokenDialog`: the token dialog, tokens for derivations, and refresh tokens.
- `EndToEnd`: from an access request over the decision of the owner to the access token.

Where a method and a function have the same subject, the function specifies the method, and the
lemmas are about the function. The modules whose names end in `Meaning` and `Owners` state what such functions compute
without naming them.

What the code forces the statements to assume:

- Random identifiers and blank nodes are fresh. They are numbered, or they are constructors of their own.
- The chain of parents of a path is finite and ends at a root, and parents are containers.
- The names of relation collections, and the keys that entries are compared by, are concatenations.
  They are taken to be injective.
- The names of relation collections, access requests and generated policies are not used as the URL of a custom
  collection, nor as the name of a resource. The URL of a custom collection may be the name of a resource.

Of the policies that clients write nothing is assumed: which requests to the policy endpoint keep the invariants is
stated exactly, for each of its operations (`SharedStore.Allowed`, `PolicyStepKeepsInvariantIff`).

Where a promise does not hold on all inputs, the exact condition is proved:

- A refresh token is not used up when a token request presents it as a credential: it then gives any number of
  tokens until it expires (`AtMostOnceIff`, `UsedUpIff`, `UsedAnyNumberOfTimes`).
- Replacing or removing a custom collection also removes the memberships of a resource that has the URL of the
  collection as its name (`CollectionKeepsInvIff`, `AliasedCollection`).
- The policy endpoint takes away generated policies, requests and memberships: whatever a permission of the client
  names as a constraint is part of the view that a DELETE, PUT or PATCH removes. `documentation/access-request-management.md`
  says that requests can not be modified once accepted or denied, and also that generated policies can be modified
  through the policy API. Deleting one leaves its request accepted and unanswered, for the owner and, by a second
  policy with the same uid, for anybody (`DeleteKeepsInvIff`, `AcceptanceIsUndone`, `StrangerUndoesAcceptance`); a denied
  request can be removed without a trace (`DeleteKeepsStatusIff`, `DenialIsErased`); so can the memberships of a
  resource (`RemovalKeepsCollectionsIff`, `MembershipIsErased`).
- The policy endpoint stores whatever comes with a policy that is in order: a POST may bring requests and statuses
  (`PostKeepsInvIff`, `StatusIsPosted`), and a PUT may add to what is known already (`WriteKeepsInvIff`,
  `RestatesIff`, `StatusIsDoubled`).
- After `deleteResource` the client keeps the id: calls for the path are refused as updates, keep their lock, and the
  resource is never registered again (`RegisteredAgainIff`, `UpdateAcceptedIff`, `StaysStuck`, `RootIsStuck`).
- An update that gives up a collection and joins it is accepted, as the check for an empty collection
  looks at the store before the update (`SetMetadataConsistentIff`, `DropAndJoinIsAccepted`).
- `documentation/collections.md` says that the triples of a collection are removed with its entry. Those of a reversed
  relation are not, as they hang on a blank node and a new one is made to remove them (`GivenUpCollections`,
  `ReversedRelationStays`).
- A derivation that several registrations name loses its issuer when one of them drops it
  (`DerivationsKnownIff`, `SharedDerivationIsLost`).
- An identifier that decodes to an added source replaces it on the ticket (`SourcesAreCheckedIff`).
- Two identifiers for one resource on a ticket are not told apart afterwards (`RoundTripIff`,
  `FirstIdentifierIsLost`).
- With partial success a token that names a derivation need not grant the derivation-creation scope; without, and
  whenever it is not marked as partial, it does (`TokenIsForCreation`, `PartialTokenLacksScope`).
- A refresh loses the original identifiers of user and client if they had to be made absolute
  (`NormaliseFixedIff`, `RelativeUserIsLost`).
- Accepting a request grants a scope iff the requested actions cover it once translated, which a CSS scope
  alone does not (`AcceptedDecision`, `CssScopesAreNot`).

Where documentation and code differ, the code is followed: `documentation/collections.md` says that a
relation described from both sides is one relation that either side can remove, but the code keeps two
memberships in two collections, one for each description; and `BaseController.getEntity` promises 404
for an empty result, but answers 200 (so the check before a PUT never fails); and `documentation/policy-management.md`
describes DELETE as a SPARQL update, but the code removes what the view of the policy extracts.

## Model

| member | source | states |
|---|---|---|
| UmaClientAgreement.QuiescentAgreement | packages/css/src/uma/UmaClient.ts:398-417 | Main result. Client and server composed, any interleaving of any calls in which requests succeed: when nothing is left to run, every call has finished (those for a PAT alone included), every called path has an id, and every non-root path with an id is part of the collection of its parent in the policy store, also when the child was registered first |
| UmaClientAgreement.NoDeadlock | packages/css/src/uma/UmaClient.ts:110-144 | If no task can run and none has failed, all tasks are finished: a listener implies a holder of its key, a holder of a path never waits on another path, and the holder of the PAT key never waits |
| UmaClientTermination.RunsAreBounded | packages/css/src/uma/UmaClient.ts:363-459 | Main result. However the tasks interleave after the last call, the number of steps plus the final measure is at most the initial measure, so the cascade of registrations of parents ends |
| UmaClientTermination.MeasureDrops | packages/css/src/uma/UmaClient.ts:398-417 | Progress in the sense of `Drops` (less registration work that may still be caused, or the same and one asking task fewer) makes the natural-number measure strictly smaller |
| UmaClientTermination.RunDrops | packages/css/src/uma/UmaClient.ts:363-459 | Every step of every task makes progress, including one that starts a registration of the parent and a second one of the child |
| UmaClientSafety.AnswerVerdict | packages/css/src/uma/UmaClient.ts:372-402 | In every state that satisfies the invariant the server accepts every POST of the client (never 409, never 400 for a missing parent collection); a PUT is only refused with 404 or 403. An accepted request stores the description of this path, for the owner of the credentials of the task (what it says is the next row), and keeps the server consistent and every collection alive |
| UmaClientDescriptions.DescriptionsAreExact | packages/css/src/uma/UmaClient.ts:378-402 | Main result. In every run from the start, each registered path is described under its own name with all scopes, with the default collection of what it contains exactly when it is a container, and with no relation but the reverse one to its parent, by the id that is stored for the parent; and it is registered for the owner of credentials that some call used |
| UmaClientPats.TokensAreOwn | packages/css/src/uma/UmaClient.ts:110-144 | In every run from the start, whoever goes on with a PAT goes on with one that was fetched for its own credentials in that run |
| UmaClientPats.FetchedAtMostOnce | packages/css/src/uma/UmaClient.ts:110-144 | As long as stored PATs are fresh, at most one is fetched for each set of credentials, however many calls and ticket requests need one at once |
| UmaClientPats.StaleIsFetchedAgain | packages/css/src/uma/UmaClient.ts:110-116 | When no stored PAT is fresh any more, every task that obtains a PAT in a run fetched it itself |
| UmaClientSafety.ReachableInv | packages/css/src/uma/UmaClient.ts:363-478 | The invariant of client and server holds in every reachable state, lost responses, failures and deletions included |
| UmaClientSafety.RunsKeepInv | packages/css/src/uma/UmaClient.ts:363-478 | Any run keeps that invariant |
| UmaClientSafety.MutualExclusion | packages/css/src/uma/UmaClient.ts:364-371 | At most one activation per path is between taking and releasing its lock, in every reachable state |
| UmaClientSafety.IdsAreWriteOnce | packages/css/src/uma/UmaClient.ts:447-450 | No step overwrites or forgets a stored id |
| UmaClientSafety.CreatedAtMostOnce | packages/css/src/uma/UmaClient.ts:433-454 | In any run each path is created by at most one accepted POST |
| UmaClientSafety.EnterPatKeepsInv | packages/css/src/uma/UmaClient.ts:110-119 | Using a cached PAT, waiting for the PAT key and taking it keep the invariant |
| UmaClientSafety.StorePatKeepsInv | packages/css/src/uma/UmaClient.ts:135-143 | Storing a PAT releases the key and wakes all its listeners |
| UmaClientSafety.SendKeepsInv | packages/css/src/uma/UmaClient.ts:398-417 | Sending without a parent id registers a listener on the parent and starts a registration of the parent unless one is in progress |
| UmaClientSafety.ReleaseKeepsInv | packages/css/src/uma/UmaClient.ts:452-454 | Removing a path from the lock set and firing its event keeps the invariant |
| UmaClientSafety.UnregisterKeepsInv | packages/css/src/uma/UmaClient.ts:465-478 | Deleting a registration at the server while the client keeps its id keeps the invariant |
| UmaClientDeletion.RegisteredAgainIff | packages/css/src/uma/UmaClient.ts:465-478 | Main result. A resource whose id is stored is registered at some later time, in some run, if and only if the server knows it now: after `deleteResource` no run ever registers it again |
| UmaClientDeletion.UpdateAcceptedIff | packages/css/src/uma/UmaClient.ts:433-446 | The request for a resource with a stored id is accepted if and only if the server still has the registration, of the same owner |
| UmaClientDeletion.StaysStuck | packages/css/src/uma/UmaClient.ts:433-454 | A registration that failed, such as one whose request was refused, keeps its lock in every run, and every other call for that path that waits for it, or is yet to start, goes on waiting for ever |
| UmaClientDeletion.RootIsStuck | packages/css/src/uma/UmaClient.ts:465-478 | The run from the start: a root is registered, deleted and called for again; the call fails and keeps the lock |
| UmaClientAgreement.OneOwnerSucceeds | packages/css/src/uma/UmaClient.ts:419-446 | Without deletions, and with credentials of one resource owner, the server accepts every request it is sent |
| UmaClientAgreement.OneOwnerRunsSucceed | packages/css/src/uma/UmaClient.ts:419-446 | Hence every run of such calls is one in which all requests succeed |
| UmaClientTickets.TicketBodiesAreExact | packages/css/src/uma/UmaClient.ts:172-210 | However ticket requests and registrations interleave and fail: a request that is ready to be sent has, for each target in order, the id stored for it, and the error for a registered target without an id never occurs |
| UmaClientTickets.WakeKeepsFetch | packages/css/src/uma/UmaClient.ts:182-192 | A ticket request that waits for a registration is woken by the very step that gives up the lock: no wake-up is lost |
| UmaClientTickets.RequestsCanMove | packages/css/src/uma/UmaClient.ts:182-212 | When nothing else is left to run and nothing failed, every unfinished ticket request can take a step, be it waiting for a registration or for a PAT |
| UmaClientSafety.ObtainKeepsInv | packages/css/src/uma/UmaClient.ts:110-119 | Obtaining a PAT outside of a registration, as ticket requests do, keeps the invariant |
| UmaClientTickets.TicketIdsAreRegistered | packages/css/src/uma/UmaClient.ts:207-210 | In every run from the start in which no registration fails or is deleted, whatever happens to the ticket requests: the server knows every id a ticket is requested for |
| UmaClientTickets.SystemRunsAgree | packages/css/src/uma/UmaClient.ts:183-214 | Ticket requests, which start registrations and PAT calls themselves, keep the agreement of client and server in such runs |
| UmaClientTicketTokens.TicketTokensAreOwn | packages/css/src/uma/UmaClient.ts:212-214 | In every run from the start each ticket is requested with a PAT that was fetched, in that run, for the credentials of the request |
| UmaClientTicketTokens.RegistrationsAreExact | packages/css/src/uma/UmaClient.ts:172-214 | With ticket requests among the tasks, too, each registered path is described exactly as above, and registered for the owner of credentials that some call or ticket request used |
| UmaClientTicketTokens.WaitsForRegistration | packages/css/src/uma/UmaClient.ts:182-192 | A ticket request whose target is being registered waits until that registration gives up its lock, in any run, and does not register the target again |
| UmaClientTicketTokens.AbsentIsNotRegistered | packages/css/src/uma/UmaClient.ts:192-202 | Ticket requests register nothing that does not exist: without calls from outside and without existing targets no run ever registers anything |
| UmaClientTicketTermination.SystemRunsAreBounded | packages/css/src/uma/UmaClient.ts:172-214 | Main result. With ticket requests among the tasks, which start registrations and PAT calls themselves, the number of steps after the last call from outside plus the final measure is at most the initial measure |
| UmaClientTicketTermination.StepDrops | packages/css/src/uma/UmaClient.ts:172-214 | Every step of a ticket request or a registration makes progress: what a request may still start is paid for by its remaining targets |
| UmaClientTicketTermination.SystemMeasureDrops | packages/css/src/uma/UmaClient.ts:172-214 | Progress makes the natural-number measure of the whole client strictly smaller |
| RegistrationTheory.SetMetadataConsistentIff | packages/uma/src/routes/ResourceRegistration.ts:209-239 | Main result. An accepted description keeps the stores consistent (part of a relation collection iff the stored description has the entry; every default and relation entry has a collection) if and only if it does not join a collection that it gives up |
| RegistrationTheory.DropAndJoinIsAccepted | packages/uma/src/routes/ResourceRegistration.ts:285-295 | The smallest case in which it does: two accepted requests lead from the empty stores to an inconsistent state |
| RegistrationTheory.RewrittenMembership | packages/uma/src/routes/ResourceRegistration.ts:309-324 | After an update a resource is part of a relation collection iff the update adds it, or it was and the update does not remove it |
| RegistrationTheory.RewrittenLive | packages/uma/src/routes/ResourceRegistration.ts:250-299 | After an update a relation collection can be found iff it is not given up and it could be found before or is a new default |
| RegistrationTheory.RewriteQuadByQuad | packages/uma/src/routes/ResourceRegistration.ts:209-222 | Which quads exactly the policy store has after an update, quad by quad |
| RegistrationTheory.FoundIffLive | packages/uma/src/routes/ResourceRegistration.ts:420-434 | Relations are accepted iff every one of their collections can be found |
| RegistrationTheory.DerivationsKnownIff | packages/uma/src/routes/ResourceRegistration.ts:224-232 | An accepted description keeps an issuer for every derivation in use if and only if no other registration uses a derivation that it drops |
| RegistrationTheory.AcceptedIssuers | packages/uma/src/routes/ResourceRegistration.ts:224-232 | After an accepted POST or PUT the last entry of the description for a derivation gives its stored issuer, also when another one was stored; what only the previous description names is gone, and every other derivation keeps its issuer |
| RegistrationTheory.SharedDerivationIsLost | packages/uma/src/routes/ResourceRegistration.ts:224-232 | The smallest case in which it does not: two resources are registered with one derivation, one of them drops it, and the other is left without an issuer; all three requests are accepted |
| RegistrationTheory.RemoveKeepsConsistent | packages/uma/src/routes/ResourceRegistration.ts:164-200 | Removing a registration keeps the stores consistent and every collection alive |
| RegistrationTheory.LiveFromSameQuads | packages/uma/src/routes/ResourceRegistration.ts:442-454 | Whether a collection is found depends only on its source, relation and inverse quads |
| RegistrationMeaning.DescriptionsAreQuads | packages/uma/src/routes/ResourceRegistration.ts:332-434 | In consistent stores, in terms of entries and quads: a resource is part of exactly the collections that its relations name, in the right direction, and every collection that its defaults or relations name is there exactly once |
| RegistrationMeaning.ResponsesAre | packages/uma/src/routes/ResourceRegistration.ts:90-204 | How POST, PUT and DELETE are answered on any stores: 409 for a name that is taken and for giving up a collection that has parts, 404 and 403 for what does not exist or belongs to others, 400 when a collection that is joined or left is not there |
| RegistrationMeaning.DeletedRegistration | packages/uma/src/routes/ResourceRegistration.ts:164-204 | A deletion takes away the registration and the memberships of the resource and nothing else: the issuers of its derivations, all other registrations and what others own stay |
| RegistrationMeaning.NewCollectionsAreOwned | packages/uma/src/routes/ResourceRegistration.ts:250-299 | A collection that an accepted description brings about is given by one of its defaults, is an asset collection, and has the owner of the resource as its creator |
| RegistrationMeaning.GivenUpCollections | packages/uma/src/routes/ResourceRegistration.ts:274-299 | What is left, quad by quad, of a collection that an accepted description gives up: its type, source, creator and relation are gone, except that the relation stays if and only if it is a reversed one |
| RegistrationMeaning.ReversedRelationStays | packages/uma/src/routes/ResourceRegistration.ts:442-454 | The smallest case in which it stays: a resource is registered with a reversed default and then updated without it |
| ResourceRegistration.ResourceRegistrationRequestHandler.HandlePost | packages/uma/src/routes/ResourceRegistration.ts:90-129 | POST in place: the response and all four stores afterwards are those of the specification |
| ResourceRegistration.ResourceRegistrationRequestHandler.HandlePut | packages/uma/src/routes/ResourceRegistration.ts:131-162 | PUT in place, likewise |
| ResourceRegistration.ResourceRegistrationRequestHandler.HandleDelete | packages/uma/src/routes/ResourceRegistration.ts:164-204 | DELETE in place, likewise |
| ResourceRegistration.ResourceRegistrationRequestHandler.SetResourceMetadata | packages/uma/src/routes/ResourceRegistration.ts:209-239 | All changes are computed before any store is written; an error leaves all of them as they were |
| ResourceRegistration.ResourceRegistrationRequestHandler.SetDerivations | packages/uma/src/routes/ResourceRegistration.ts:224-232 | The derivation store gets the issuer of the last entry for each id, whatever was stored before, loses the ids that only the previous description names, and keeps all others |
| ResourceRegistration.ResourceRegistrationRequestHandler.UpdateCollections | packages/uma/src/routes/ResourceRegistration.ts:250-299 | The quads of new collections that are missing and of old ones; refused iff an old one still has parts |
| ResourceRegistration.ResourceRegistrationRequestHandler.UpdateRelations | packages/uma/src/routes/ResourceRegistration.ts:309-324 | The memberships to add and remove; refused iff a collection is missing |
| ResourceRegistration.ResourceRegistrationRequestHandler.GeneratePartOfTriples | packages/uma/src/routes/ResourceRegistration.ts:420-434 | One membership per matching collection, or an error when an entry has none |
| ResourceRegistration.ResourceRegistrationRequestHandler.CollectionMetadata | packages/uma/src/routes/ResourceRegistration.ts:332-357 | The collections a description defines, or those it makes its resource part of |
| ResourceRegistration.ResourceRegistrationRequestHandler.EntriesToCollectionMetadata | packages/uma/src/routes/ResourceRegistration.ts:365-386 | The entries of one direction, with the resource itself or the listed values as sources; empty lists define nothing |
| ResourceRegistration.ResourceRegistrationRequestHandler.FilterRelationEntries | packages/uma/src/routes/ResourceRegistration.ts:402-412 | Both records lose exactly the entries they share |
| AuthorizationServer.ReachableInv | packages/uma/src/routes/ResourceRegistration.ts:90-204 | Main result. After any sequence of requests to both endpoints: consistency, exact ownership lists without duplicates and never empty, and every part of a custom asset collection is a registered resource of its only creator. Collection URLs may also be names of resources; only the two failing cases below are excluded |
| AuthorizationServer.RejectedChangesNothing | packages/uma/src/routes/ResourceRegistration.ts:209-239 | A rejected request to either endpoint changes none of the stores |
| AuthorizationServer.ServeKeepsInv | packages/uma/src/routes/ResourceRegistration.ts:90-204 | Each single request keeps that invariant |
| AuthorizationServer.CollectionKeepsInvIff | packages/uma/src/routes/Collection.ts:113-180 | Replacing and removing a custom collection keep it if and only if the URL of the collection is not also the name of a resource with relations, whose memberships are lost otherwise; creating one under a fresh URL always keeps it |
| AuthorizationServer.AliasedCollection | packages/uma/src/routes/Collection.ts:140-152 | The smallest case in which they are lost: a resource is registered under the URL of a custom collection, as part of a container, and then the collection is replaced by its creator; all requests are accepted |
| AuthorizationServer.CheckedBody | packages/uma/src/routes/Collection.ts:195-229 | A description that passes its checks lists only resources registered to the user, who becomes the only creator |
| AuthorizationServer.RemoveOwners | packages/uma/src/routes/ResourceRegistration.ts:178-190 | A deletion removes the id from the list of its owner, and the list when it becomes empty |
| AuthorizationServer.OwnersInOrder | packages/uma/src/routes/ResourceRegistration.ts:113-190 | The list of an owner is in the order of registration: a new id comes last, and a deleted one is cut out of its place |
| CollectionOwners.ChangedOnlyByCreators | packages/uma/src/routes/Collection.ts:182-193 | Main result. In any run of both endpoints, what is said about a custom collection and what is in it changes only if one of the creators that it has at that time replaces or removes it, apart from members that are deleted themselves |
| CollectionOwners.StrangersChangeNothing | packages/uma/src/routes/Collection.ts:127-193 | A run in which all requests for the collection are by users who do not own it at the start leaves what is said about it, however often they try |
| CollectionOwners.ResponsesAre | packages/uma/src/routes/Collection.ts:113-229 | How requests on custom collections are answered: accepted only for a creator of a collection that is not based on a relation, with a body of owned assets or of parties among them the user; 404, 403 and 400 otherwise, each exactly when |
| CollectionTheory.PostedReadsBack | packages/uma/src/routes/Collection.ts:113-125 | A new collection reads back as exactly its description under its fresh URL, and nothing else changes |
| CollectionTheory.PutReadsBack | packages/uma/src/routes/Collection.ts:127-156 | A replaced collection reads back as exactly the new description: nothing of the old one is left, and nothing else changes |
| CollectionTheory.RemovedIsGone | packages/uma/src/routes/Collection.ts:158-180 | Of a removed collection nothing is left, it is not found again, and nothing else changes |
| CollectionHandler.CollectionRequestHandler.HandlePost | packages/uma/src/routes/Collection.ts:113-125 | POST in place: the response with the location of the new collection, and the stores, are those of the specification |
| CollectionHandler.CollectionRequestHandler.HandlePut | packages/uma/src/routes/Collection.ts:127-156 | PUT in place, by a creator of the collection only: the difference of the old and new quads is written |
| CollectionHandler.CollectionRequestHandler.HandleDelete | packages/uma/src/routes/Collection.ts:158-177 | DELETE in place, by a creator of the collection only |
| CollectionHandler.CollectionRequestHandler.DescriptionToQuads | packages/uma/src/routes/Collection.ts:195-229 | Refuses party collections without the user as owner and asset collections with a resource the user does not own |
| RulesStorage.ExtractQuadsRecursive | packages/uma/src/ucp/util/Util.ts:11-29 | Main result. Terminates on every finite graph, although `existing` is only the current path, and returns exactly the quads whose subject can be reached by a walk that avoids that path after its first node |
| RulesStorage.ClosureIsLeastClosed | packages/uma/src/ucp/util/Util.ts:11-29 | From the empty path that is the least set with the quads of the subject and of every object in it: nothing is missed on cycles and nothing else is included |
| RulesStorage.ReachesByFirstEdge | packages/uma/src/ucp/util/Util.ts:16-26 | A node is reachable iff it is the start or reachable from a successor without coming back to the start |
| RulesStorage.MemoryUCRulesStorage.DeleteRule | packages/uma/src/ucp/storage/MemoryUCRulesStorage.ts:28-31 | Removes exactly that closure |
| RulesStorage.MemoryUCRulesStorage.DeleteRuleFromPolicy | packages/uma/src/ucp/storage/MemoryUCRulesStorage.ts:33-37 | Removes the links from the policy to the rule and then the closure of the rule in what remains |
| RulesStorage.MemoryUCRulesStorage.GetRule | packages/uma/src/ucp/storage/MemoryUCRulesStorage.ts:23-26 | Returns that closure |
| SimpleOdrlAuthorizer.GrantedIff | packages/uma/src/policies/authorizers/SimpleOdrlAuthorizer.ts:79-159 | Main result. A scope is granted iff some candidate rule is satisfied, no candidate is too complex, and every satisfied candidate is a permission and none a prohibition |
| SimpleOdrlAuthorizer.OrderNeverFlips | packages/uma/src/policies/authorizers/SimpleOdrlAuthorizer.ts:79-159 | Main result. With single-valued operands, enumerating the store in another order may turn a grant or a denial into a delegation, but never one into the other |
| OdrlMeaning.DecisionMeans | packages/uma/src/policies/authorizers/SimpleOdrlAuthorizer.ts:79-159 | Main result. Where the rules that apply are within reach of the authorizer, a scope is granted if and only if some of them is satisfied and none of these is a prohibition, and denied otherwise; all in terms of the quads of the store, the claims and the clock, as in the next rows |
| OdrlMeaning.AppliesIff | packages/uma/src/policies/authorizers/SimpleOdrlAuthorizer.ts:79-121 | A rule applies exactly when it targets the resource or a collection that it is part of, has an action that stands for the scope (CSS scopes and `modify` included), and has no assignee or one that is anybody, a user in the claims, or a collection that such a user is part of |
| OdrlMeaning.OthersAreDenied | packages/uma/src/policies/authorizers/SimpleOdrlAuthorizer.ts:106-121 | When every rule on the resource and scope is assigned, and to nobody that the claims identify, the decision is to deny |
| OdrlMeaning.SatisfiedIff | packages/uma/src/policies/authorizers/SimpleOdrlAuthorizer.ts:168-257 | A rule is satisfied exactly when each plain constraint holds of the clock, the client or the presented values, and each credential constraint is shown by one credential, value and type alike |
| OdrlMeaning.UnclearIsDelegated | packages/uma/src/policies/authorizers/SimpleOdrlAuthorizer.ts:168-210 | A rule that applies with a constraint that is incomplete or not understood, and none that fails, delegates the decision |
| OdrlOrder.TwoOperandsFlip | packages/uma/src/policies/authorizers/SimpleOdrlAuthorizer.ts:169-173 | That needs single-valued operands: with two right operands, one presented and one not, the order decides between a grant and a denial |
| SimpleOdrlAuthorizer.GetPermissions | packages/uma/src/policies/authorizers/SimpleOdrlAuthorizer.ts:79-159 | The loops with early returns compute that decision, of which `OdrlMeaning.DecisionMeans` says what it is |
| SimpleOdrlAuthorizer.ValidateConstraints | packages/uma/src/policies/authorizers/SimpleOdrlAuthorizer.ts:168-210 | The verdict over plain constraints: tried in order up to the first that does not hold, and too complex when an operand is missing |
| SimpleOdrlAuthorizer.ValidateOvcConstraints | packages/uma/src/policies/authorizers/SimpleOdrlAuthorizer.ts:213-257 | The same over credential constraints, which fail without credentials |
| SimpleOdrlAuthorizer.HoldsIffAllHold | packages/uma/src/policies/authorizers/SimpleOdrlAuthorizer.ts:168-257 | A rule is satisfied iff every one of its constraints is complete and holds, whatever the order |
| SimpleOdrlAuthorizer.DeniedOnlyIf | packages/uma/src/policies/authorizers/SimpleOdrlAuthorizer.ts:136-155 | A denial means that no candidate is satisfied or that a satisfied one is a prohibition |
| SimpleOdrlAuthorizer.SameCandidates | packages/uma/src/policies/authorizers/SimpleOdrlAuthorizer.ts:82-121 | The candidates do not depend on the order of enumeration |
| SimpleOdrlAuthorizer.AuthorizePermissions | packages/uma/src/policies/authorizers/SimpleOdrlAuthorizer.ts:50-77 | The whole query is delegated as soon as one scope is too complex |
| SimpleOdrlAuthorizer.GrantsSpec | packages/uma/src/policies/authorizers/SimpleOdrlAuthorizer.ts:57-76 | Without delegation exactly the requested pairs are granted whose own decision is to grant |
| OdrlMeaning.AuthorizeMeans | packages/uma/src/policies/authorizers/SimpleOdrlAuthorizer.ts:50-77 | The whole query goes to the other authorizer as soon as one decision is delegated; otherwise exactly the pairs are granted that are decided so |
| SimpleOdrlAuthorizer.AuthorizeIsBounded | packages/uma/src/policies/authorizers/SimpleOdrlAuthorizer.ts:50-77 | Grants nothing that was not asked for, if the authorizer it delegates to does not |
| NamespacedAuthorizer.AuthorizePermissions | packages/uma/src/policies/authorizers/NamespacedAuthorizer.ts:32-83 | The grouping loop and the merge: no answer when some requested resource has a registered name that is not a URL, otherwise the answers of the needed authorizers to their parts of the query, in order of first need |
| NamespacedAuthorizer.GroupsPartitionQuery | packages/uma/src/policies/authorizers/NamespacedAuthorizer.ts:38-51 | The groups together are the query: every permission goes to exactly one authorizer, as often as it was requested |
| NamespacedAuthorizer.NamespaceDecides | packages/uma/src/policies/authorizers/NamespacedAuthorizer.ts:38-58 | Main result. A scope on a resource is granted if and only if the authorizer grants it that is registered for the namespace of the resource, or the fallback without a namespace or registration; and it is asked exactly the permissions of the query whose resources belong to it |
| NamespacedAuthorizer.NamespacedIsBounded | packages/uma/src/policies/authorizers/NamespacedAuthorizer.ts:53-58 | Grants never exceed the query if those of the single authorizers do not |
| NamespacedAuthorizer.WithPoliciesIsBounded | packages/uma/src/policies/authorizers/NamespacedAuthorizer.ts:32-58 | In particular with the policy authorizer among them |
| PolicyView.ViewIsIdempotent | packages/uma/src/util/routeSpecific/get.ts:17-89 | Main result. The view of the view is the view |
| PolicyView.ViewIsContainedAndMonotone | packages/uma/src/util/routeSpecific/get.ts:17-89 | The view is part of the store and grows with it |
| PolicyMeaning.ViewIff | packages/uma/src/util/routeSpecific/get.ts:53-140 | What a client sees under a uid, quad by quad: what is said about a policy with that uid and a permission of it that the client assigns, and about their constraints and the policies they belong to |
| PolicyMeaning.AllPoliciesIff | packages/uma/src/util/routeSpecific/get.ts:91-140 | Likewise for all policies of a client, without a uid |
| PolicyMeaning.RepliesAre | packages/uma/src/util/routeSpecific/post.ts:17-102 | How POST, PUT and PATCH of policies are answered: a body needs a complete policy with a permission of the client, a POST only unknown subjects, and a PATCH something that the client sees |
| PolicyMeaning.WritesAre | packages/uma/src/controller/BaseController.ts:74-176 | What the store says after each request, quad by quad: a POST adds the body, a DELETE takes away what the client sees, a PUT does both, a PATCH puts what the client sees of the patched policy in place of what was seen, and a refused request changes nothing |
| PolicyMeaning.StrangersChangeNothing | packages/uma/src/controller/BaseController.ts:94-150 | Whoever assigns no permission of a policy can neither patch nor delete anything by its uid |
| PolicyMeaning.WrittenIsFound | packages/uma/src/controller/BaseController.ts:74-176 | What a client posts or puts can be read back: the policy of an accepted body is found under its own IRI, with its permission and all that is said about both |
| PolicyView.ExecuteGet | packages/uma/src/util/routeSpecific/get.ts:17-51 | The loop over the rows of the query collects exactly the view |
| PolicyView.PermissionToQuads | packages/uma/src/util/routeSpecific/get.ts:126-140 | The quads of a term, of the policies that permit it, and of its constraints |
| PolicyView.NothingLeftToSee | packages/uma/src/controller/PolicyRequestController.ts:30-33 | After a policy is removed, the same owner sees nothing of it |
| PolicyView.StrangersSeeNothing | packages/uma/src/util/routeSpecific/get.ts:61-77 | Someone who assigns no permission of a policy sees nothing of it, so deleting it as such changes nothing |
| PolicyView.PatchIsLocal | packages/uma/src/controller/BaseController.ts:115-150 | Main result. Whatever a patch does, the quads outside the view stay, what it adds is again part of the view of its owner, and a patch that changes nothing leaves the store as it was |
| PolicyView.ViewIsAboutSubjects | packages/uma/src/util/routeSpecific/get.ts:126-140 | A view is everything that the store says about some terms, so removing it leaves nothing about them, and all about others |
| PolicyView.PolicyController.ExecutePost | packages/uma/src/util/routeSpecific/post.ts:17-102 | The loop over the results of the query: refused unless the client assigns something (403) and one policy with a permission of the client is complete; the rest of the body is not looked at |
| PolicyView.PolicyController.AddEntity | packages/uma/src/controller/BaseController.ts:74-83 | POST: the whole body is stored, unless one of its subjects is known already (409) |
| PolicyView.PolicyController.DeleteEntity | packages/uma/src/controller/BaseController.ts:94-100 | Removes exactly the view |
| PolicyView.PolicyController.PatchEntity | packages/uma/src/controller/BaseController.ts:115-150 | Refused for a client who assigns nothing in the view; otherwise isolates, patches, isolates again and puts back, and the difference is written to the storage |
| PolicyView.PolicyController.PutEntity | packages/uma/src/controller/BaseController.ts:163-176 | Checks the body as for a POST, but not whether its subjects are known; then removes the view and adds the body |
| AccessRequests.ReachableInv | packages/uma/src/controller/AccessRequestController.ts:69-230 | Main result. On any policy store that knows no access requests yet, whatever else it holds, after any interleaving of requests, decisions, writes of the other endpoints, and writes of the policy endpoint that meet the exact condition of `WriteKeepsInvIff`: every request has exactly one status, target and party and some action; the generated agreements answer the accepted requests one each; each has one permission, with exactly the actions, target, party and constraints of its request |
| AccessRequests.DecisionsAreFinal | packages/uma/src/controller/AccessRequestController.ts:193-199 | Main result. The status of an accepted or denied request never changes, as long as every write of the policy endpoint restates it. Writes that do not are accepted all the same (`DenialIsErased`, `StatusIsDoubled`) |
| AccessRequests.NothingIsRewritten | packages/uma/src/controller/AccessRequestController.ts:209-230 | What a request asks for, and what a generated policy and its permission say, is never changed by any number of later requests and decisions, nor by a write of the policy endpoint that restates it |
| AccessRequests.StatusStep | packages/uma/src/controller/AccessRequestController.ts:173-213 | A status changes exactly when an owner of the target decides an open request, or when a write of the policy endpoint does not restate it; and what still has a status is still a request |
| AccessRequests.PerformKeepsInv | packages/uma/src/controller/AccessRequestController.ts:69-230 | Each single operation keeps the invariant: asking, deciding, a write of the registration or collection endpoint, and a write of the policy endpoint that meets its exact condition |
| AccessRequests.WriteKeepsInvIff | packages/uma/src/controller/BaseController.ts:94-176 | Main result. Removing all that is said about some terms and adding any body keeps the invariant if and only if: the body uses no name that is yet to be given out, every request it speaks of is complete afterwards, it accepts no request and generates no agreement of its own, and every generated policy that is touched still answers its request |
| AccessRequests.RestatesIff | packages/uma/src/controller/BaseController.ts:94-176 | Such a write keeps what is said about a property of a term if and only if it puts back what it removes and adds nothing else about it |
| PolicyWrites.PolicyRequestIsWrite | packages/uma/src/controller/BaseController.ts:74-176 | Every POST, PUT, PATCH and DELETE of the policy endpoint is such a write: the terms are the subjects of the view of the client, because a view is all that the store says about its subjects |
| PolicyWrites.RequestKeepsInvIff | packages/uma/src/controller/BaseController.ts:74-176 | Hence each request to the policy endpoint keeps the invariant of access requests if and only if the write it makes meets that condition |
| PolicyWrites.DeleteKeepsInvIff | packages/uma/src/controller/BaseController.ts:94-100 | Main result. A DELETE of any uid by any client keeps the invariant if and only if the view it extracts has neither a generated policy, nor the permission of one, nor an accepted request among its subjects |
| PolicyWrites.PostKeepsInvIff | packages/uma/src/controller/BaseController.ts:74-83 | Main result. An accepted POST keeps it if and only if the requests in the body are complete and not accepted, the body has no agreement with a generated name, and uses no name that is yet to be given out |
| PolicyWrites.PlainWriteKeepsInvIff | packages/uma/src/controller/BaseController.ts:94-176 | A PUT or PATCH whose body is about none of the names that the server gave out keeps it if and only if the body has nothing of the vocabulary of requests, and what is removed is none of those three |
| PolicyWrites.RequestKeepsSayingIff | packages/uma/src/controller/BaseController.ts:74-176 | Any request to the policy endpoint keeps the status of a request, or any other property, if and only if it restates it, on any store |
| PolicyWrites.DeleteKeepsStatusIff | packages/uma/src/util/routeSpecific/get.ts:126-140 | In particular a DELETE keeps the status of a request if and only if it does not extract the request, as the constraint of a permission or otherwise |
| CollectionWrites.WriteKeepsCollectionsIff | packages/uma/src/controller/BaseController.ts:94-176 | The same write keeps the invariant of registrations and collections if and only if it adds and removes memberships as the descriptions have them, leaves every described collection to be found, and makes no member that its creator does not own; creators, sources and memberships of anything else may be written |
| CollectionWrites.RemovalKeepsCollectionsIff | packages/uma/src/controller/BaseController.ts:94-100 | For a removal: if and only if no resource with relations is removed and every described collection keeps its quads |
| AccessRequests.PolicyEffect | packages/uma/src/controller/AccessRequestController.ts:212-226 | What acceptance adds to any store is about the new policy and its permission only, which mirrors the request |
| AccessRequests.ResponsesAre | packages/uma/src/controller/AccessRequestController.ts:69-207 | How requests and decisions are answered in states that satisfy the invariant: 404 without a request, 400 for no decision, 403 for the targets of others, 409 for what is decided; the internal errors are never reached |
| AccessRequests.ChecksAre | packages/uma/src/controller/AccessRequestController.ts:173-207 | The same on any store, also one that policy writes have disturbed: 500 for a request without exactly one status, some action and exactly one party |
| ConstrainedAccess.AskedHasConstraints | packages/uma/src/controller/AccessRequestController.ts:92-108 | A request is stored with exactly the constraints that were asked for, each with its left operand, operator and right operand |
| ConstrainedAccess.AskAcceptConstrained | packages/uma/src/controller/AccessRequestController.ts:209-230 | Main result. After a request with constraints is accepted, and any number of further requests to the four endpoints: the party is granted each requested scope that is not a CSS scope when all of its constraints are met, and denied it when one is not, as long as the policy endpoint leaves the generated policy and the constraints alone and no other rule interferes |
| AccessRequests.AccessRequestController.AddEntity | packages/uma/src/controller/AccessRequestController.ts:69-112 | The request and its numbered constraints, in a loop, or 400 without scopes |
| AccessRequests.AccessRequestController.CheckDecision | packages/uma/src/controller/AccessRequestController.ts:173-207 | The checks in order: target, body, ownership, one status, still open, some action and one party |
| AccessRequests.AccessRequestController.PatchAccessRequest | packages/uma/src/controller/AccessRequestController.ts:173-230 | After those checks the status change, and the policy of an accepted request; nothing otherwise |
| AccessRequests.AccessRequestController.GeneratePolicy | packages/uma/src/controller/AccessRequestController.ts:214-226 | The quads of that policy |
| AccessRequests.AccessRequestController.PatchEntity | packages/uma/src/controller/BaseController.ts:115-150 | The same on the storage, without isolation: the differences to the patched copy are removed and added |
| SharedStore.ReachableInvariant | packages/uma/src/controller/AccessRequestController.ts:69-230 | Main result, across the endpoints that share the policy store. However requests to the registration, collection, access request and policy endpoints are interleaved, each allowed by its exact condition, the invariants of registrations, collections and access requests hold together |
| SharedStore.TakeKeepsInvariant | packages/uma/src/controller/AccessRequestController.ts:69-230 | Each request to one of the four endpoints that meets its condition keeps both invariants |
| SharedStore.PolicyStepKeepsInvariantIff | packages/uma/src/controller/BaseController.ts:74-176 | Main result. A POST, PUT, PATCH or DELETE of the policy endpoint keeps both invariants if and only if it is allowed: nothing more is assumed of policies than is necessary |
| SharedStore.DeleteKeepsInvariantIff | packages/uma/src/controller/BaseController.ts:94-100 | A DELETE is allowed if and only if what it extracts is neither a generated policy, nor the permission of one, nor an accepted request, nor a resource with relations, and leaves every described collection to be found |
| SharedStore.OrdinaryPolicyIsAllowed | packages/uma/src/util/routeSpecific/post.ts:17-102 | Every POST of ordinary policies, about names of their own and without the vocabularies of requests and collections, is allowed |
| SharedStore.RunKeepsRule | packages/uma/src/controller/BaseController.ts:74-176 | In any state whatever, what a rule says about a name that was given out is changed by nothing but requests to the policy endpoint that do not restate it |
| SharedStore.StepIsOperation | packages/uma/src/routes/ResourceRegistration.ts:90-204 | To access requests, each request to one of the four endpoints is one of their own operations; registrations and collections write no quad of the request vocabulary and none about a name that access requests gave out |
| SharedStore.DecidedByOwner | packages/uma/src/controller/AccessRequestController.ts:173-213 | Whenever the status of a request changes and no request to the policy endpoint changed it, the request was open, its target is a registered resource, and the one who decided is its registered owner |
| AcceptedAccess.AcceptedDecision | packages/uma/src/controller/AccessRequestController.ts:209-230 | Main result. On the store after acceptance of an unconstrained request, when no other applicable rule is too complex, unsupported or a prohibition, the authorizer grants the party a scope on the target iff the requested actions cover it or another rule did already |
| AcceptedAccess.RequestedScopesAreGranted | packages/uma/src/controller/AccessRequestController.ts:209-230 | Hence every requested scope that is not a CSS scope is granted |
| AcceptedAccess.CssScopesAreNot | packages/uma/src/policies/authorizers/SimpleOdrlAuthorizer.ts:89-101 | A CSS scope is translated when it is evaluated but not when it is requested: accepting it alone gives nothing |
| AcceptedPolicy.AskAcceptGranted | packages/uma/src/controller/AccessRequestController.ts:69-230 | Main result. In any state in which no name is used before it is given out, with or without the other invariants: after an owner accepts a request without constraints, and after any number of further requests to the four endpoints, the authorizer grants the party every requested scope that is not a CSS scope, as long as the policy endpoint leaves the generated policy as it is and no other rule interferes |
| AcceptedPolicy.ReachableIsGranted | packages/uma/src/controller/AccessRequestController.ts:69-230 | In every state that is reached from any initial stores by allowed requests, every accepted request without constraints has a generated policy of its own, whose party is granted the same |
| ConstrainedAccess.AskedCanBeAccepted | packages/uma/src/controller/AccessRequestController.ts:69-207 | Such requests are made: in every state that satisfies the invariants, whoever asks for a resource, with whatever constraints, can be accepted by its owner |
| AcceptedPolicy.AskThenAccept | packages/uma/src/controller/AccessRequestController.ts:69-230 | Acceptance is reached: in every state that satisfies the invariant, whoever asks for a resource can be accepted by its registered owner, for every requested scope |
| AcceptedPolicy.OnlyRuleIsUndisturbed | packages/uma/src/policies/authorizers/SimpleOdrlAuthorizer.ts:82-121 | No other rule interferes when none targets the resource or a collection it is part of |
| RequestExamples.AcceptanceIsUndone | packages/uma/src/controller/BaseController.ts:94-100 | A run from the empty stores: a resource is registered, access is asked for and accepted by the owner, who then deletes the generated policy; afterwards the request is accepted and its agreement is gone |
| RequestExamples.StrangerUndoesAcceptance | packages/uma/src/util/routeSpecific/get.ts:126-140 | The same for somebody who assigned nothing: a POST that keeps all invariants, of a policy that has the uid of the generated one too and names it as a constraint, and then a DELETE of that uid |
| RequestExamples.DenialIsErased | packages/uma/src/util/routeSpecific/get.ts:126-140 | Finality fails on a run of which every state satisfies the invariants: the requester posts a policy whose constraint names the denied request and deletes that policy; nothing is left of the request |
| RequestExamples.StatusIsDoubled | packages/uma/src/controller/BaseController.ts:163-176 | A PUT does not look at the subjects of its body: an open request gets a second status |
| RequestExamples.StatusIsPosted | packages/uma/src/util/routeSpecific/post.ts:17-51 | A POST stores the whole body once one policy in it is in order: something that is no request gets the status of an accepted one |
| RequestExamples.MembershipIsErased | packages/uma/src/util/routeSpecific/get.ts:126-140 | A policy whose constraint names a registered resource is posted and deleted: its memberships are gone, and its description still has them |
| DeniedRequests.DenialChangesNoDecision | packages/uma/src/controller/AccessRequestController.ts:193-208 | Denying a request changes no decision of the authorizer, on any store, resource, scope and claims, as long as everything but the status is enumerated as before |
| AcceptedPolicy.OwnerFindsPolicy | packages/uma/src/util/routeSpecific/get.ts:61-89 | The owner who accepted finds the generated policy and its permission through the policy endpoint |
| AcceptedPolicy.OthersFindNothing | packages/uma/src/util/routeSpecific/get.ts:61-89 | Nobody else finds any of it |
| AcceptedAccess.CandidateIff | packages/uma/src/policies/authorizers/SimpleOdrlAuthorizer.ts:82-121 | When a rule is a candidate, in terms of the quads of the store and the users in the claims: targets, actions, and no assignee or one that is anybody, the user or a collection of the user |
| TicketTheory.RoundTripIff | packages/uma/src/ticketing/strategy/AggregatorStrategy.ts:138-179 | Main result. `encodeIds` after `decodeIds` restores the permissions iff no two of them name the same resource by different identifiers once decoded |
| DialogExamples.FirstIdentifierIsLost | packages/uma/src/ticketing/strategy/AggregatorStrategy.ts:138-179 | The smallest case in which it does not: a client asks for one resource under two identifiers, and gets a token that names the second one twice, not marked as partial |
| TicketTheory.ResolvedHidesIds | packages/uma/src/ticketing/strategy/AggregatorStrategy.ts:115-133 | A successful resolution names no decoded identifier |
| TicketTheory.EncodeHidesIff | packages/uma/src/ticketing/strategy/AggregatorStrategy.ts:119-127 | That is so whatever was granted iff no restored identifier is itself a decoded one |
| TicketTheory.SourcesAreCheckedIff | packages/uma/src/ticketing/strategy/AggregatorStrategy.ts:61-121 | Main result. Every successful resolution has checked the access to all added sources, whatever the authorizer and the claims, iff no identifier on the ticket decodes to one of them |
| TicketTheory.ResolvedOnlyIfCovered | packages/uma/src/ticketing/strategy/AggregatorStrategy.ts:61-121 | Over a round with any number of credentials |
| TicketTheory.CollisionSlipsThrough | packages/uma/src/ticketing/strategy/AggregatorStrategy.ts:166-179 | The other half: the identifier that decodes to a source takes its place on the ticket, where it is no longer checked |
| TicketTheory.InitializeSpec | packages/uma/src/ticketing/strategy/AggregatorStrategy.ts:27-59 | A new ticket requires what was asked for and derivation-read access to every source of a derived resource, and nothing else |
| TicketMeaning.NewTickets | packages/uma/src/ticketing/strategy/AggregatorStrategy.ts:27-59 | No ticket is made for a derived resource with anything but a single read; otherwise the sources on the ticket are exactly those of the requested resources |
| TicketMeaning.ResolvesIff | packages/uma/src/ticketing/strategy/AggregatorStrategy.ts:95-136 | Main result. A ticket is granted if and only if it lacks no source and the authorizer, asked for the permissions with decoded identifiers, grants something, and without partial success everything; it is an internal error exactly when the issuer of a lacking source is unknown |
| TicketMeaning.GrantsAre | packages/uma/src/ticketing/strategy/AggregatorStrategy.ts:115-179 | A granted ticket gives exactly the scopes that the authorizer grants, each on the last identifier of the ticket that stands for the resource, or on the resource itself |
| TicketMeaning.RequiredAre | packages/uma/src/ticketing/strategy/AggregatorStrategy.ts:97-113 | What a failure asks for: a token of the stored issuer for each lacking source, and the scopes that were not granted when others were |
| TicketMeaning.WholeIff | packages/uma/src/dialog/BaseNegotiator.ts:111-128 | A token is not marked as partial exactly when it has one permission for each one requested, on the same resource with the same scopes |
| TicketTheory.GrantsMatchTicket | packages/uma/src/ticketing/strategy/ImmediateAuthorizerStrategy.ts:54-90 | A resolved ticket grants nothing that is not on it, and without partial success all that is |
| TicketTheory.FailureListsUngranted | packages/uma/src/ticketing/strategy/ImmediateAuthorizerStrategy.ts:68-89 | A failure lists exactly the ungranted scopes of each permission that lacks some, and nothing only when nothing was granted |
| TicketTheory.NotPartialGrantsAll | packages/uma/src/dialog/BaseNegotiator.ts:111-128 | A response that is not marked as partial grants every scope on the ticket |
| TicketingStrategies.ImmediateAuthorizerStrategy.InitializeTicket | packages/uma/src/ticketing/strategy/ImmediateAuthorizerStrategy.ts:27-34 | A ticket with claims of its own, none yet |
| TicketingStrategies.ImmediateAuthorizerStrategy.ValidateClaims | packages/uma/src/ticketing/strategy/ImmediateAuthorizerStrategy.ts:37-51 | Appends the new values to the claims in place; the ticket is the same |
| TicketingStrategies.ImmediateAuthorizerStrategy.ResolveTicket | packages/uma/src/ticketing/strategy/ImmediateAuthorizerStrategy.ts:54-96 | The filtered grants, subject to the coverage check |
| TicketingStrategies.ImmediateAuthorizerStrategy.UnmatchedPermissions | packages/uma/src/ticketing/strategy/ImmediateAuthorizerStrategy.ts:68-82 | What that check reports |
| TicketingStrategies.ImmediateAuthorizerStrategy.MissingFor | packages/uma/src/ticketing/strategy/ImmediateAuthorizerStrategy.ts:70-78 | The scopes of a required permission that no grant covers |
| TicketingStrategies.AggregatorStrategy.InitializeTicket | packages/uma/src/ticketing/strategy/AggregatorStrategy.ts:27-59 | Adds the sources of derived resources; refuses derived resources with other scopes than a single read |
| TicketingStrategies.AggregatorStrategy.ValidateClaims | packages/uma/src/ticketing/strategy/AggregatorStrategy.ts:61-93 | Drops proved derivation-read scopes, and decodes and encodes around the inner strategy; the new ticket shares the claims of the old one |
| TicketingStrategies.AggregatorStrategy.DerivedReadIds | packages/uma/src/ticketing/strategy/AggregatorStrategy.ts:62-70 | The resources with proved derivation-read access |
| TicketingStrategies.AggregatorStrategy.RemainingPermissions | packages/uma/src/ticketing/strategy/AggregatorStrategy.ts:72-85 | The permissions without the proved scopes |
| TicketingStrategies.AggregatorStrategy.DecodeIds | packages/uma/src/ticketing/strategy/AggregatorStrategy.ts:138-164 | The decoded permissions, and for each decoded identifier the last one that decoded to it |
| TicketingStrategies.AggregatorStrategy.EncodeIds | packages/uma/src/ticketing/strategy/AggregatorStrategy.ts:166-180 | The identifiers put back |
| TicketingStrategies.AggregatorStrategy.ResolveTicket | packages/uma/src/ticketing/strategy/AggregatorStrategy.ts:95-136 | An error for a source without issuer; the missing sources; encoded grants |
| DialogTheory.NeedInfoAccumulates | packages/uma/src/dialog/BaseNegotiator.ts:90-103 | Main result. A round that needs more information moves the ticket to a fresh id with the same permissions and, per type of claim, the earlier values followed by those of this round in order; all other tickets stay |
| DialogTheory.TicketsAreUsedOnce | packages/uma/src/dialog/BaseNegotiator.ts:138-154 | Main result. In any run each ticket is redeemed at most once |
| DialogTheory.IssuedOnlyIfCovered | packages/uma/src/dialog/BaseNegotiator.ts:46-88 | Main result. A token is issued only if access to every added source was proved in that same round, unless an identifier decodes to a source |
| DialogTheory.TokenMatchesTicket | packages/uma/src/dialog/BaseNegotiator.ts:61-88 | Main result. A token grants only what its ticket asks for and no access to sources; without partial success, and whenever it is not marked as partial, it grants all the rest |
| DerivationTokens.TokenIsForCreation | packages/uma/src/dialog/AggregatorNegotiator.ts:30-48 | Main result. A token for a derivation is given for a stored ticket with one permission; it names the encoding of its resource, and grants the derivation-creation scope on it unless it is marked as partial |
| DerivationTokens.CreationIsDecided | packages/uma/src/dialog/AggregatorNegotiator.ts:38-48 | The authorizer granted that scope for the claims of the ticket and of this round, on the resource or on the one that its identifier stands for |
| DerivationTokens.RefusedGetsNoToken | packages/uma/src/dialog/AggregatorNegotiator.ts:38-48 | Hence, without partial success, no such token is given where the authorizer refuses the scope |
| DerivationTokens.PartialTokenLacksScope | packages/uma/src/dialog/AggregatorNegotiator.ts:43-48 | With partial success a derivation can be named by a token that does not grant the scope: a run from the empty server |
| DialogMeaning.TokenResponses | packages/uma/src/dialog/BaseNegotiator.ts:46-103 | How a token request with accepted credentials is answered: a token, an internal error, a refusal or a request for more information, each exactly when the ticket as it then stands and the answer of the authorizer say so |
| DialogMeaning.TicketResponses | packages/uma/src/routes/Ticket.ts:35-71 | A resource server gets no ticket exactly for resources that are not registered (400), for derived resources with other scopes than a read (400), and for what is granted to anybody (200), which derived resources never are |
| DialogMeaning.TicketIsStored | packages/uma/src/routes/Ticket.ts:53-70 | A ticket is stored under a fresh id, without claims and with what was asked for, and nothing else changes |
| DialogMeaning.CredentialsAre | packages/uma/src/credentials/verify/RefreshTokenVerifier.ts:26-41 | Which credentials are accepted, and what they say once user and client are made absolute, with what they were kept beside it |
| DialogMeaning.RefusedCredential | packages/uma/src/dialog/BaseNegotiator.ts:138-183 | The first refused credential ends the request: 403 for an expired refresh token, which is then gone, 400 for anything else; the ticket is used up and nothing else changes |
| DialogMeaning.SubjectIsOriginal | packages/uma/src/dialog/BaseNegotiator.ts:61-70 | A token names the user as the credential did, even if the identifier was made absolute since |
| DialogMeaning.RefreshableUntil | packages/uma/src/tokens/StoredRefreshTokenIssuer.ts:23-31 | A refresh token can be used until its lifetime is over, and not afterwards |
| DialogTheory.RunsKeepOk | packages/uma/src/dialog/BaseNegotiator.ts:94-103 | In any run every stored ticket still requires access to all sources that were added to it |
| DialogTheory.HandleGrows | packages/uma/src/dialog/BaseNegotiator.ts:94-103 | New tickets and refresh tokens get fresh identifiers |
| DialogTheory.RefreshTokensAreUsedOnce | packages/uma/src/routes/token/RefreshTokenHandler.ts:53-55 | In any run refresh requests give a new token for each refresh token at most once. Token requests that present it as a credential are counted by the next rows |
| RefreshTokenUses.AtMostOnceIff | packages/uma/src/credentials/verify/RefreshTokenVerifier.ts:26-41 | Main result. In every run every stored refresh token gives at most one new token, if and only if token requests may not present it as a credential |
| RefreshTokenUses.UsedUpIff | packages/uma/src/routes/Token.ts:36-46 | A successful use of a refresh token uses it up if and only if it is a refresh request; after any other use it can be used again |
| RefreshTokenUses.OnlyRefreshedIsUsedOnce | packages/uma/src/routes/token/RefreshTokenHandler.ts:41-61 | A refresh token that no token request of a run presents gives a new token at most once in that run |
| RefreshTokenUses.UsedAnyNumberOfTimes | packages/uma/src/credentials/verify/RefreshTokenVerifier.ts:26-41 | The run that shows it: from the empty server one token request gives a refresh token, and any number of token requests with it as their only credential each give a new token |
| DialogTheory.RoundPairs | packages/uma/src/ticketing/strategy/AggregatorStrategy.ts:72-92 | After a round a ticket with unambiguous identifiers has lost exactly the proved source scopes |
| RefreshTheory.RefreshStep | packages/uma/src/routes/token/RefreshTokenHandler.ts:41-61 | A successful refresh replaces the entry by one with the verified claims and the granted permissions, and leaves all tickets |
| RefreshTheory.RefreshShrinks | packages/uma/src/routes/token/RefreshTokenHandler.ts:47-55 | A refresh grants no more than before; without partial success the same, unless access to sources was among it |
| RefreshTheory.ChainShrinks | packages/uma/src/routes/token/RefreshTokenHandler.ts:41-61 | Main result. Along any chain of refreshes the granted pairs only shrink, and the claims stay equal as long as no identifier is rewritten |
| RefreshTheory.PlainChainGrantsTheSame | packages/uma/src/routes/token/RefreshTokenHandler.ts:41-61 | Without aggregation and partial success they stay equal |
| RefreshTheory.RefusedRefreshChangesNothing | packages/uma/src/routes/token/RefreshTokenHandler.ts:41-51 | A refused refresh of an unexpired token leaves the refresh store as it was |
| RefreshTheory.NormaliseFixedIff | packages/uma/src/credentials/verify/IriVerifier.ts:17-36 | Verifying the stored claims keeps them iff user and client were given by absolute identifiers; otherwise the original ones are lost |
| DialogExamples.RelativeUserIsLost | packages/uma/src/credentials/verify/IriVerifier.ts:17-36 | The smallest case in which they are lost: a user with a relative identifier gets a token for that identifier, and after a refresh one for the absolute identifier |
| RefreshTheory.NormaliseSettles | packages/uma/src/credentials/verify/IriVerifier.ts:17-36 | From the second refresh on the claims do not change any more |
| EndToEnd.AcceptedGetsToken | packages/uma/src/dialog/BaseNegotiator.ts:46-91 | Main result, across the components. After an owner accepts a request without constraints, in any state in which no name is used before it is given out, and after any number of further requests to the four endpoints: a token request whose ticket is for scopes of it, none of them a CSS scope, and whose claims identify the requesting party, gives a token for exactly these scopes, not marked as partial, as long as the policy endpoint leaves the generated policy as it is and no other rule interferes |
| EndToEnd.DeniedGetsNoToken | packages/uma/src/dialog/BaseNegotiator.ts:90-96 | In any state whatever, if the owner denies an open request, a token request whose scopes were denied before is still refused |
| EndToEnd.RequestedTicketIsTaken | packages/uma/src/routes/Ticket.ts:35-71 | Both hold as well when a resource server requests the ticket first and the client redeems it later, with any requests of others in between |
| PlainDialog.PlainResolve | packages/uma/src/ticketing/strategy/AggregatorStrategy.ts:95-136 | Without aggregation a ticket is resolved just as by the inner strategy |
| PlainDialog.NegotiateOne | packages/uma/src/dialog/BaseNegotiator.ts:46-91 | Without aggregation a ticket for one permission that is granted or denied as a whole gives a token for it, its subject and a stored refresh token, or is refused |
| TokenDialog.BaseNegotiator.Negotiate | packages/uma/src/dialog/BaseNegotiator.ts:46-91 | One round on the shared stores: response and state are those of the specification |
| TokenDialog.BaseNegotiator.GetTicket | packages/uma/src/dialog/BaseNegotiator.ts:138-154 | Takes the ticket out of the store; no other stored ticket refers to its claims |
| TokenDialog.BaseNegotiator.ProcessCredentials | packages/uma/src/dialog/BaseNegotiator.ts:165-183 | Validates the credentials in order, up to the first that is refused; only the claims of this ticket change |
| TokenDialog.BaseNegotiator.DenyRequest | packages/uma/src/dialog/BaseNegotiator.ts:94-103 | Stores the ticket as it was taken under a fresh id; through the shared claims it has those of this round |
| TokenDialog.BaseNegotiator.IsPartialResult | packages/uma/src/dialog/BaseNegotiator.ts:111-128 | Whether a requested permission has no grant with exactly its scopes |
| TokenDialog.BaseNegotiator.IssueToken | packages/uma/src/dialog/BaseNegotiator.ts:61-88 | The token, its subject, and a refresh token for the claims and grants behind it |
| TokenDialog.AggregatorNegotiator.NegotiateDerivationCreation | packages/uma/src/dialog/AggregatorNegotiator.ts:30-48 | Adds the derivation-creation scope to the stored ticket, which must have one permission, before it is redeemed; a token names the derivation and grants the scope, unless it is partial |
| TokenDialog.AggregatorNegotiator.Negotiate | packages/uma/src/dialog/AggregatorNegotiator.ts:20-28 | Only requests for that scope are treated so |
| TokenDialog.TicketRequestHandler.Handle | packages/uma/src/routes/Ticket.ts:35-71 | 400 for an unknown resource, 200 when nothing is needed, otherwise a stored ticket under a fresh id |
| TokenDialog.RefreshTokenHandler.Handle | packages/uma/src/routes/token/RefreshTokenHandler.ts:24-62 | Reads, negotiates, and deletes the token only after success, or when it is expired |
| TokenDialog.Verifier.Verify | packages/uma/src/credentials/verify/RefreshTokenVerifier.ts:26-41 | The stored claims of a refresh token; an expired one is removed |
| TokenDialog.StoredRefreshTokenIssuer.Issue | packages/uma/src/tokens/StoredRefreshTokenIssuer.ts:23-31 | A new entry under a fresh id |

## Left out

- HTTP, content negotiation, routing, configuration, logging and error texts: errors are statuses.
- Shape checks of request bodies (`reType`): inputs are well typed. An access claim is a resource with scopes.
- Cryptography: tokens are values, `decodeAggregateId` is a partial function, and the verifiers of all tokens but refresh tokens are one partial function.
- GET of registrations, collections, policies and access requests, apart from the policy view: they only read.
- Parsing of policies and the SPARQL update of a PATCH: the quads of the body and the effect of the update on the view are parameters.
- The ODRL evaluator, its conflict strategy, JSON path and date parsing: an authorizer and uninterpreted functions. Errors of JSON path are not modelled.
- `ContractNegotiator`, account settings, pods, containers, file storages, seeding, retries: wrappers and demonstrations.
- Interleaving of two requests inside one handler of the server: each request is one step.
- The cache of server configurations in the client: fetching one is an await that may fail, nothing more.
- One authorization server per run: the issuer is not a parameter of the client's steps.
- The promise returned by `registerResource` joins its own request with the registrations it waits for or starts. The join is not modelled; a ticket request goes on after the registration itself is finished, which allows more interleavings.
- The request of a ticket that follows once its body and PAT are there; its answer is the subject of `TokenDialog.TicketRequestHandler`.
- The timeout of a waiting ticket request is a failure that may happen at any time.
- Order and duplicates of the entries of a description, and of quads: entries are sets.
- Arrays of scopes are values: `AggregatorNegotiator` extends the array of the stored permission in place, here it replaces the permission.
- Stored claims of a refresh token are values: the arrays that the code shares with the ticket it came from are not changed after that ticket is gone.
- `IriVerifier` rewrites the arrays of the claims it verifies in place. For a refresh token these are the stored ones, but everything stored went through the same rewriting, so nothing changes there.
- Expiry timers of the token storage: an expired refresh token is still there until it is looked at.
