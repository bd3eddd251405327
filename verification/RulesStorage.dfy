/** The in-memory policy storage and the closure of a subject that it extracts and deletes. */
module RulesStorage {
  import opened Rdf

  // ----- reachability -----

  predicate Edge(store: set<Quad>, a: Term, b: Term) {
    exists q | q in store :: q.s == a && q.o == b
  }

  /** A walk along edges whose nodes after the first are not in `avoid`. */
  ghost predicate Walk(store: set<Quad>, path: seq<Term>, avoid: set<Term>) {
    && (forall k | 0 <= k < |path| - 1 :: Edge(store, path[k], path[k + 1]))
    && (forall k | 1 <= k < |path| :: path[k] !in avoid)
  }

  ghost predicate IsPath(store: set<Quad>, path: seq<Term>, avoid: set<Term>) {
    path != [] && Walk(store, path, avoid)
  }

  ghost predicate Reaches(store: set<Quad>, x: Term, y: Term, avoid: set<Term>) {
    exists path :: IsPath(store, path, avoid) && path[0] == x && path[|path| - 1] == y
  }

  /** All quads whose subject can be reached. */
  ghost function Closure(store: set<Quad>, x: Term, avoid: set<Term>): set<Quad> {
    set q | q in store && Reaches(store, x, q.s, avoid)
  }

  lemma {:induction false} LastVisit(path: seq<Term>, x: Term) returns (k: nat)
    requires path != [] && path[0] == x
    ensures k < |path| && path[k] == x && forall j | k < j < |path| :: path[j] != x
  {
    k := |path| - 1;
    while path[k] != x
      invariant k < |path| && forall j | k < j < |path| :: path[j] != x
      decreases k
    {
      k := k - 1;
    }
  }

  lemma PathTo(store: set<Quad>, path: seq<Term>, avoid: set<Term>)
    requires IsPath(store, path, avoid)
    ensures Reaches(store, path[0], path[|path| - 1], avoid)
  {}

  lemma PrependEdge(store: set<Quad>, x: Term, path: seq<Term>, avoid: set<Term>)
    requires IsPath(store, path, avoid + {x}) && Edge(store, x, path[0]) && path[0] !in avoid
    ensures IsPath(store, [x] + path, avoid)
  {
    hide Edge;
    var longer := [x] + path;
    forall k | 1 <= k < |longer| - 1 ensures Edge(store, longer[k], longer[k + 1]) {
      assert longer[k] == path[k - 1] && longer[k + 1] == path[k - 1 + 1];
    }
  }

  /** What follows the last visit of the first node. */
  lemma AfterLastVisit(store: set<Quad>, path: seq<Term>, avoid: set<Term>, k: nat)
    requires IsPath(store, path, avoid) && k < |path| - 1 && path[k] == path[0]
    requires forall j | k < j < |path| :: path[j] != path[0]
    ensures IsPath(store, path[k + 1..], avoid + {path[0]}) && Edge(store, path[0], path[k + 1])
  {
    hide Edge;
    var rest := path[k + 1..];
    assert Edge(store, path[k], path[k + 1]);
    forall j | 0 <= j < |rest| - 1 ensures Edge(store, rest[j], rest[j + 1]) {
      assert rest[j] == path[j + k + 1] && rest[j + 1] == path[j + k + 1 + 1];
    }
  }

  lemma OwnPath(store: set<Quad>, x: Term, avoid: set<Term>)
    ensures Reaches(store, x, x, avoid)
  {
    PathTo(store, [x], avoid);
  }

  lemma PathOf(store: set<Quad>, x: Term, y: Term, avoid: set<Term>) returns (path: seq<Term>)
    requires Reaches(store, x, y, avoid)
    ensures IsPath(store, path, avoid) && path[0] == x && path[|path| - 1] == y
  {
    hide Walk;
    path :| IsPath(store, path, avoid) && path[0] == x && path[|path| - 1] == y;
  }

  lemma EdgeBetween(store: set<Quad>, q: Quad)
    requires q in store
    ensures Edge(store, q.s, q.o)
  {}

  lemma QuadOf(store: set<Quad>, a: Term, b: Term) returns (q: Quad)
    requires Edge(store, a, b)
    ensures q in QuadsOf(store, a) && q.o == b
  {
    q :| q in store && q.s == a && q.o == b;
  }

  lemma NodesAvoid(store: set<Quad>, path: seq<Term>, avoid: set<Term>, k: nat)
    requires IsPath(store, path, avoid) && 1 <= k < |path|
    ensures path[k] !in avoid
  {}

  /** Leaving `x` for good: a walk from `x` is a first edge and a walk that never comes back. */
  lemma ReachesByFirstEdge(store: set<Quad>, x: Term, y: Term, avoid: set<Term>)
    ensures Reaches(store, x, y, avoid) <==>
      y == x || exists q | q in QuadsOf(store, x) && q.o !in avoid + {x} :: Reaches(store, q.o, y, avoid + {x})
  {
    hide Walk, Reaches, Edge;
    if y == x { OwnPath(store, x, avoid); }
    if q :| q in QuadsOf(store, x) && q.o !in avoid + {x} && Reaches(store, q.o, y, avoid + {x}) {
      var path := PathOf(store, q.o, y, avoid + {x});
      EdgeBetween(store, q);
      PrependEdge(store, x, path, avoid);
      PathTo(store, [x] + path, avoid);
    }
    if Reaches(store, x, y, avoid) && y != x {
      var path := PathOf(store, x, y, avoid);
      var k := LastVisit(path, x);
      AfterLastVisit(store, path, avoid, k);
      PathTo(store, path[k + 1..], avoid + {x});
      var q := QuadOf(store, x, path[k + 1]);
      assert path[k + 1] !in avoid by { NodesAvoid(store, path, avoid, k + 1); }
    }
  }

  ghost function Closures(store: set<Quad>, quads: set<Quad>, avoid: set<Term>): set<Quad> {
    set q, r | q in quads && q.o !in avoid && r in Closure(store, q.o, avoid) :: r
  }

  lemma ClosureByFirstEdge(store: set<Quad>, x: Term, avoid: set<Term>)
    ensures Closure(store, x, avoid) == QuadsOf(store, x) + Closures(store, QuadsOf(store, x), avoid + {x})
  {
    forall r | r in store
      ensures r in Closure(store, x, avoid) <==>
              r in QuadsOf(store, x) + Closures(store, QuadsOf(store, x), avoid + {x})
    {
      ReachesByFirstEdge(store, x, r.s, avoid);
      hide Reaches;
      if q :| q in QuadsOf(store, x) && q.o !in avoid + {x} && Reaches(store, q.o, r.s, avoid + {x}) {
        assert r in Closure(store, q.o, avoid + {x});
      }
    }
  }

  // ----- extraction -----

  function Subjects(store: set<Quad>): set<Term> {
    set q | q in store :: q.s
  }

  function Elements(list: seq<Term>): set<Term> {
    set t | t in list
  }

  /** `existing` is the path walked so far, not the set of all visited subjects; cycles end all the same. */
  method ExtractQuadsRecursive(store: set<Quad>, subject: Term, existing: seq<Term>) returns (temp: set<Quad>)
    ensures temp == Closure(store, subject, Elements(existing))
    decreases Subjects(store) - Elements(existing), if subject in existing then 1 else 0
  {
    var subjectQuads := QuadsOf(store, subject);
    temp := subjectQuads;
    var existingSubjects := existing + [subject];
    assert Elements(existingSubjects) == Elements(existing) + {subject};
    var todo := subjectQuads;
    while todo != {}
      invariant todo <= subjectQuads
      invariant temp == subjectQuads + Closures(store, subjectQuads - todo, Elements(existingSubjects))
    {
      var q :| q in todo;
      if q.o !in existingSubjects {
        assert subject in Subjects(store);
        var reached := ExtractQuadsRecursive(store, q.o, existingSubjects);
        temp := temp + reached;
      } else {
        temp := temp + {q};
      }
      todo := todo - {q};
    }
    ClosureByFirstEdge(store, subject, Elements(existing));
  }

  // ----- the closure without paths -----

  /** The set contains the quads of `x`, and the quads of every object it contains. */
  ghost predicate Closed(store: set<Quad>, x: Term, quads: set<Quad>) {
    && QuadsOf(store, x) <= quads
    && forall q | q in quads :: QuadsOf(store, q.o) <= quads
  }

  lemma {:induction false} ClosedContainsPath(store: set<Quad>, path: seq<Term>, quads: set<Quad>)
    requires IsPath(store, path, {}) && Closed(store, path[0], quads)
    ensures QuadsOf(store, path[|path| - 1]) <= quads
  {
    if |path| > 1 {
      var shorter := path[..|path| - 1];
      forall k | 0 <= k < |shorter| - 1 ensures Edge(store, shorter[k], shorter[k + 1]) {
        assert shorter[k] == path[k] && shorter[k + 1] == path[k + 1];
      }
      ClosedContainsPath(store, shorter, quads);
      var k := |path| - 2;
      assert Edge(store, path[k], path[k + 1]);
      var q :| q in store && q.s == path[k] && q.o == path[k + 1];
      assert q in QuadsOf(store, path[k]);
    }
  }

  /** What is extracted for a subject is the least closed set: nothing it leads to is missed, whatever
      cycles there are, and nothing else is included. */
  lemma ClosureIsLeastClosed(store: set<Quad>, x: Term)
    ensures Closed(store, x, Closure(store, x, {})) && Closure(store, x, {}) <= store
    ensures forall quads | Closed(store, x, quads) :: Closure(store, x, {}) <= quads
  {
    assert IsPath(store, [x], {}) && [x][0] == x && [x][|[x]| - 1] == x;
    forall q, r | q in Closure(store, x, {}) && r in QuadsOf(store, q.o) ensures r in Closure(store, x, {}) {
      var path :| IsPath(store, path, {}) && path[0] == x && path[|path| - 1] == q.s;
      var longer := path + [q.o];
      assert Edge(store, q.s, q.o);
      forall k | 0 <= k < |longer| - 1 ensures Edge(store, longer[k], longer[k + 1]) {
        if k < |path| - 1 { assert longer[k] == path[k] && longer[k + 1] == path[k + 1]; }
      }
      assert IsPath(store, longer, {}) && longer[0] == x && longer[|longer| - 1] == r.s;
    }
    forall quads, q | Closed(store, x, quads) && q in Closure(store, x, {}) ensures q in quads {
      var path :| IsPath(store, path, {}) && path[0] == x && path[|path| - 1] == q.s;
      ClosedContainsPath(store, path, quads);
      assert q in QuadsOf(store, q.s);
    }
  }

  // ----- storage -----

  class MemoryUCRulesStorage {
    var store: set<Quad>

    constructor ()
      ensures store == {}
    {
      store := {};
    }

    method AddRule(rule: set<Quad>)
      modifies this
      ensures store == old(store) + rule
    {
      store := store + rule;
    }

    method RemoveData(data: set<Quad>)
      modifies this
      ensures store == old(store) - data
    {
      store := store - data;
    }

    method GetRule(identifier: Term) returns (rule: set<Quad>)
      ensures rule == Closure(store, identifier, {})
    {
      rule := ExtractQuadsRecursive(store, identifier, []);
    }

    method DeleteRule(identifier: Term)
      modifies this
      ensures store == old(store) - Closure(old(store), identifier, {})
    {
      var rule := GetRule(identifier);
      store := store - rule;
    }

    method DeleteRuleFromPolicy(ruleId: Term, policyId: Term)
      modifies this
      ensures var links := set q | q in old(store) && q.s == policyId && q.o == ruleId;
        store == old(store) - links - Closure(old(store) - links, ruleId, {})
    {
      store := store - set q | q in store && q.s == policyId && q.o == ruleId;
      DeleteRule(ruleId);
    }
  }
}
