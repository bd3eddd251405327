/** The authorizer that splits a query over other authorizers by the namespace of each resource. */
module NamespacedAuthorizer {
  import opened Rdf
  import opened Permissions
  import Odrl = SimpleOdrlAuthorizer

  /** What the registered name of a resource says: nothing when there is none, and parsing it may fail. */
  datatype Namespace = NoName | NotAUrl | Segment(value: string)

  /** Authorizers are named by their position, as several namespaces may share one. */
  datatype Routing = Routing(
    authorizers: seq<Authorizer>,
    table: map<string, nat>,
    fallback: nat,
    namespaceOf: Term -> Namespace)
  {
    ghost predicate Valid() {
      fallback < |authorizers| && forall ns | ns in table :: table[ns] < |authorizers|
    }

    function AuthorizerFor(resource: Term): nat {
      var ns := namespaceOf(resource);
      if ns.Segment? && ns.value != "" && ns.value in table then table[ns.value] else fallback
    }

    /** Some resource of the query has a name that is not a URL: there is no answer, whatever else is asked. */
    predicate Fails(query: seq<Permission>) {
      exists p | p in query :: namespaceOf(p.resource).NotAUrl?
    }
  }

  /** The part of the query that goes to one authorizer, in order. */
  function GroupOf(c: Routing, query: seq<Permission>, k: nat): seq<Permission> {
    if query == [] then [] else
    var last := query[|query| - 1];
    GroupOf(c, query[..|query| - 1], k) + if c.AuthorizerFor(last.resource) == k then [last] else []
  }

  /** The authorizers that are needed, in the order in which the query first needs them. */
  function KeysOf(c: Routing, query: seq<Permission>): seq<nat> {
    if query == [] then [] else
    var before := KeysOf(c, query[..|query| - 1]);
    var k := c.AuthorizerFor(query[|query| - 1].resource);
    if k in before then before else before + [k]
  }

  predicate InRange(c: Routing, keys: seq<nat>) {
    forall i | 0 <= i < |keys| :: keys[i] < |c.authorizers|
  }

  function Merged(c: Routing, claims: ClaimSet, query: seq<Permission>, keys: seq<nat>): seq<Permission>
    requires InRange(c, keys)
  {
    if keys == [] then []
    else c.authorizers[keys[0]](claims, GroupOf(c, query, keys[0])) + Merged(c, claims, query, keys[1..])
  }

  // ----- the groups partition the query -----

  lemma {:induction false} KeysSpec(c: Routing, query: seq<Permission>)
    ensures forall i, j | 0 <= i < j < |KeysOf(c, query)| :: KeysOf(c, query)[i] != KeysOf(c, query)[j]
    ensures forall k :: k in KeysOf(c, query) <==> exists p | p in query :: c.AuthorizerFor(p.resource) == k
  {
    if query != [] {
      var n := |query| - 1;
      KeysSpec(c, query[..n]);
      assert query == query[..n] + [query[n]];
    }
  }

  lemma KeysInRange(c: Routing, query: seq<Permission>)
    requires c.Valid()
    ensures InRange(c, KeysOf(c, query))
  {
    KeysSpec(c, query);
    hide KeysOf;
    forall i | 0 <= i < |KeysOf(c, query)| ensures KeysOf(c, query)[i] < |c.authorizers| {
      assert KeysOf(c, query)[i] in KeysOf(c, query);
    }
  }

  lemma {:induction false} GroupCounts(c: Routing, query: seq<Permission>, k: nat, p: Permission)
    ensures multiset(GroupOf(c, query, k))[p] == if c.AuthorizerFor(p.resource) == k then multiset(query)[p] else 0
  {
    if query != [] {
      var n := |query| - 1;
      GroupCounts(c, query[..n], k, p);
      assert query == query[..n] + [query[n]];
    }
  }

  function Groups(c: Routing, query: seq<Permission>, keys: seq<nat>): seq<Permission> {
    if keys == [] then [] else GroupOf(c, query, keys[0]) + Groups(c, query, keys[1..])
  }

  lemma {:induction false} GroupsCount(c: Routing, query: seq<Permission>, keys: seq<nat>, p: Permission)
    requires forall i, j | 0 <= i < j < |keys| :: keys[i] != keys[j]
    ensures multiset(Groups(c, query, keys))[p] == if c.AuthorizerFor(p.resource) in keys then multiset(query)[p] else 0
  {
    if keys != [] {
      GroupsCount(c, query, keys[1..], p);
      GroupCounts(c, query, keys[0], p);
      assert keys == [keys[0]] + keys[1..];
      hide GroupOf;
    }
  }

  /** Every requested permission goes to exactly one authorizer, as often as it was requested. */
  lemma GroupsPartitionQuery(c: Routing, query: seq<Permission>)
    ensures multiset(Groups(c, query, KeysOf(c, query))) == multiset(query)
  {
    var keys := KeysOf(c, query);
    KeysSpec(c, query);
    hide KeysOf, Groups;
    forall p ensures multiset(Groups(c, query, keys))[p] == multiset(query)[p] {
      GroupsCount(c, query, keys, p);
      if p in query { assert c.AuthorizerFor(p.resource) in keys; }
    }
  }

  // ----- what is granted -----

  /** The authorizer grants the pair for its part of the query. */
  predicate GrantedBy(c: Routing, claims: ClaimSet, query: seq<Permission>, k: nat, pair: (Term, Term))
    requires k < |c.authorizers|
  {
    pair in Pairs(c.authorizers[k](claims, GroupOf(c, query, k)))
  }

  lemma {:induction false} MergedPairs(c: Routing, claims: ClaimSet, query: seq<Permission>, keys: seq<nat>,
                                       pair: (Term, Term))
    requires InRange(c, keys)
    ensures pair in Pairs(Merged(c, claims, query, keys)) <==>
      exists i | 0 <= i < |keys| :: GrantedBy(c, claims, query, keys[i], pair)
  {
    if keys != [] {
      MergedPairs(c, claims, query, keys[1..], pair);
      PairsAppend(c.authorizers[keys[0]](claims, GroupOf(c, query, keys[0])), Merged(c, claims, query, keys[1..]));
      assert GrantedBy(c, claims, query, keys[0], pair) <==>
        pair in Pairs(c.authorizers[keys[0]](claims, GroupOf(c, query, keys[0])));
      hide Pairs, GroupOf, GrantedBy;
      forall i | 0 <= i < |keys| - 1 ensures keys[1..][i] == keys[i + 1] {}
      forall i | 1 <= i < |keys| ensures keys[i] == keys[1..][i - 1] {}
    }
  }

  lemma {:induction false} GroupIsPart(c: Routing, query: seq<Permission>, k: nat)
    ensures Pairs(GroupOf(c, query, k)) <= Pairs(query)
    ensures forall p | p in GroupOf(c, query, k) :: p in query && c.AuthorizerFor(p.resource) == k
  {
    if query != [] {
      var n := |query| - 1;
      GroupIsPart(c, query[..n], k);
      assert query == query[..n] + [query[n]];
    }
  }

  /** If no authorizer grants more than it is asked for, neither do all of them together. */
  lemma NamespacedIsBounded(c: Routing, claims: ClaimSet, query: seq<Permission>)
    requires c.Valid() && forall k | 0 <= k < |c.authorizers| :: Bounded(c.authorizers[k])
    ensures InRange(c, KeysOf(c, query))
    ensures Pairs(Merged(c, claims, query, KeysOf(c, query))) <= Pairs(query)
  {
    var keys := KeysOf(c, query);
    KeysInRange(c, query);
    hide Merged, KeysOf, Pairs, GroupOf;
    forall pair | pair in Pairs(Merged(c, claims, query, keys)) ensures pair in Pairs(query) {
      MergedPairs(c, claims, query, keys, pair);
      var i :| 0 <= i < |keys| && GrantedBy(c, claims, query, keys[i], pair);
      assert Bounded(c.authorizers[keys[i]]);
      GroupIsPart(c, query, keys[i]);
    }
  }

  /** In particular with the policy authorizer among them, whatever it delegates to. */
  lemma WithPoliciesIsBounded(c: Routing, e: Odrl.Env, store: seq<Quad>, evaluator: Authorizer,
                              claims: ClaimSet, query: seq<Permission>)
    requires c.Valid() && Bounded(evaluator)
    requires forall k | 0 <= k < |c.authorizers| ::
      Bounded(c.authorizers[k]) || forall cl, q :: c.authorizers[k](cl, q) == Odrl.Authorize(e, store, cl, q, evaluator)
    ensures InRange(c, KeysOf(c, query))
    ensures Pairs(Merged(c, claims, query, KeysOf(c, query))) <= Pairs(query)
  {
    hide Merged, KeysOf, Pairs;
    forall k | 0 <= k < |c.authorizers| ensures Bounded(c.authorizers[k]) {
      if !Bounded(c.authorizers[k]) {
        forall cl, q ensures Pairs(c.authorizers[k](cl, q)) <= Pairs(q) {
          Odrl.AuthorizeIsBounded(e, store, cl, q, evaluator);
        }
      }
    }
    NamespacedIsBounded(c, claims, query);
  }

  /** Which authorizer a resource belongs to: the one registered for its namespace, or the fallback when it has no
      namespace or one that is not registered. */
  predicate IsResponsible(c: Routing, k: nat, resource: Term) {
    var ns := c.namespaceOf(resource);
    || (ns.Segment? && ns.value != "" && ns.value in c.table && c.table[ns.value] == k)
    || (c.fallback == k && (!ns.Segment? || ns.value == "" || ns.value !in c.table))
  }

  lemma {:induction false} OthersAreNotAsked(c: Routing, query: seq<Permission>, k: nat)
    requires k !in KeysOf(c, query)
    ensures GroupOf(c, query, k) == []
  {
    if query != [] { OthersAreNotAsked(c, query[..|query| - 1], k); }
  }

  /** Each resource is decided by the authorizer it belongs to and by no other; that one is asked for exactly the
      permissions of the query whose resources belong to it. */
  lemma NamespaceDecides(c: Routing, claims: ClaimSet, query: seq<Permission>, k: nat, resource: Term, scope: Term)
    requires c.Valid() && k < |c.authorizers| && IsResponsible(c, k, resource)
    requires forall j | 0 <= j < |c.authorizers| :: Bounded(c.authorizers[j])
    ensures InRange(c, KeysOf(c, query))
    ensures (resource, scope) in Pairs(Merged(c, claims, query, KeysOf(c, query))) <==>
      (resource, scope) in Pairs(c.authorizers[k](claims, GroupOf(c, query, k)))
    ensures forall p :: multiset(GroupOf(c, query, k))[p]
                     == if IsResponsible(c, k, p.resource) then multiset(query)[p] else 0
  {
    var keys, pair := KeysOf(c, query), (resource, scope);
    KeysInRange(c, query);
    MergedPairs(c, claims, query, keys, pair);
    forall p ensures multiset(GroupOf(c, query, k))[p]
                  == if IsResponsible(c, k, p.resource) then multiset(query)[p] else 0
    {
      GroupCounts(c, query, k, p);
    }
    assert c.AuthorizerFor(resource) == k;
    hide Merged, KeysOf, GroupOf, IsResponsible;
    forall j | 0 <= j < |keys| && GrantedBy(c, claims, query, keys[j], pair) ensures keys[j] == k {
      GroupHasPair(c, claims, query, keys[j], pair);
    }
    if pair in Pairs(c.authorizers[k](claims, GroupOf(c, query, k))) {
      GroupHasPair(c, claims, query, k, pair);
      if k !in keys { OthersAreNotAsked(c, query, k); }
      var j :| 0 <= j < |keys| && keys[j] == k;
      assert GrantedBy(c, claims, query, keys[j], pair);
    }
  }

  lemma GroupHasPair(c: Routing, claims: ClaimSet, query: seq<Permission>, k: nat, pair: (Term, Term))
    requires k < |c.authorizers| && Bounded(c.authorizers[k])
    requires pair in Pairs(c.authorizers[k](claims, GroupOf(c, query, k)))
    ensures c.AuthorizerFor(pair.0) == k && GroupOf(c, query, k) != []
  {
    GroupIsPart(c, query, k);
    var group := GroupOf(c, query, k);
    hide GroupOf;
    assert pair in Pairs(group);
    var p :| p in group && p.resource == pair.0 && pair.1 in p.scopes;
  }

  // ----- the authorizer as it runs -----

  method AuthorizePermissions(c: Routing, claims: ClaimSet, query: seq<Permission>)
    returns (result: Option<seq<Permission>>)
    requires c.Valid()
    ensures InRange(c, KeysOf(c, query))
    ensures result == if c.Fails(query) then None else Some(Merged(c, claims, query, KeysOf(c, query)))
    ensures result.None? <==> exists k | 0 <= k < |query| :: c.namespaceOf(query[k].resource) == NotAUrl
  {
    KeysInRange(c, query);
    if |query| == 0 { return Some([]); }
    var failed, grouped, order := Group(c, query);
    if failed { return None; }
    hide KeysOf, GroupOf, Merged;
    var merged := Collect(c, claims, query, grouped, order);
    return Some(merged);
  }

  /** The grants of all groups, one after the other. */
  method Collect(c: Routing, claims: ClaimSet, query: seq<Permission>, grouped: map<nat, seq<Permission>>,
                 order: seq<nat>)
    returns (result: seq<Permission>)
    requires InRange(c, order)
    requires forall j | 0 <= j < |order| :: order[j] in grouped && grouped[order[j]] == GroupOf(c, query, order[j])
    ensures result == Merged(c, claims, query, order)
  {
    hide GroupOf, Merged;
    NothingMerged(c, claims, query, order);
    result := [];
    for j := 0 to |order|
      invariant InRange(c, order[j..])
      invariant result + Merged(c, claims, query, order[j..]) == Merged(c, claims, query, order)
    {
      MergedFrom(c, claims, query, order, j);
      var authorizer := c.authorizers[order[j]];
      result := result + authorizer(claims, grouped[order[j]]);
    }
  }

  lemma NothingMerged(c: Routing, claims: ClaimSet, query: seq<Permission>, keys: seq<nat>)
    ensures keys[0..] == keys && keys[|keys|..] == [] && Merged(c, claims, query, []) == []
  {}

  lemma MergedFrom(c: Routing, claims: ClaimSet, query: seq<Permission>, keys: seq<nat>, j: nat)
    requires InRange(c, keys) && j < |keys|
    ensures InRange(c, keys[j..]) && InRange(c, keys[j + 1..])
    ensures Merged(c, claims, query, keys[j..])
         == c.authorizers[keys[j]](claims, GroupOf(c, query, keys[j])) + Merged(c, claims, query, keys[j + 1..])
  {
    assert keys[j..][1..] == keys[j + 1..];
  }

  /** A map from authorizers to their part of the query; `order` is the order of its insertions. */
  method Group(c: Routing, query: seq<Permission>)
    returns (failed: bool, grouped: map<nat, seq<Permission>>, order: seq<nat>)
    ensures failed == c.Fails(query)
    ensures !failed ==> order == KeysOf(c, query)
    ensures !failed ==> forall k :: if k in order then k in grouped && grouped[k] == GroupOf(c, query, k)
                                    else k !in grouped && GroupOf(c, query, k) == []
  {
    failed, grouped, order := false, map[], [];
    for i := 0 to |query|
      invariant forall p | p in query[..i] :: !c.namespaceOf(p.resource).NotAUrl?
      invariant order == KeysOf(c, query[..i])
      invariant forall k :: if k in order then k in grouped && grouped[k] == GroupOf(c, query[..i], k)
                            else k !in grouped && GroupOf(c, query[..i], k) == []
    {
      var permission := query[i];
      if c.namespaceOf(permission.resource).NotAUrl? {
        assert permission in query;
        return true, grouped, order;
      }
      assert query[..i + 1] == query[..i] + [permission];
      var authorizer := c.AuthorizerFor(permission.resource);
      assert query[..i + 1][..i] == query[..i] && query[..i + 1][i] == permission;
      if authorizer in grouped {
        grouped := grouped[authorizer := grouped[authorizer] + [permission]];
      } else {
        grouped := grouped[authorizer := [permission]];
        order := order + [authorizer];
      }
    }
    assert query[..|query|] == query;
  }
}
