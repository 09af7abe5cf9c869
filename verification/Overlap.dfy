/** The overlap search among active commit intents: connected components by an explicit stack. */
module Overlap {
  import opened Sequences

  type Graph = map<string, set<string>>

  ghost predicate IsWalk(g: Graph, p: seq<string>) {
    p != [] && forall i :: 0 <= i < |p| - 1 ==> p[i] in g && p[i + 1] in g[p[i]]
  }

  ghost predicate Connected(g: Graph, a: string, b: string) {
    exists p :: IsWalk(g, p) && p[0] == a && p[|p| - 1] == b
  }

  /** Edges stay inside the graph, go both ways, and never loop. */
  ghost predicate Simple(g: Graph) {
    forall a, b :: a in g && b in g[a] ==> b in g && a in g[b] && a != b
  }

  lemma WalkExtends(g: Graph, a: string, b: string, c: string)
    requires Connected(g, a, b) && b in g && c in g[b]
    ensures Connected(g, a, c)
  {
    var p :| IsWalk(g, p) && p[0] == a && p[|p| - 1] == b;
    assert IsWalk(g, p + [c]) && (p + [c])[0] == a;
  }

  lemma ConnectedToItself(g: Graph, a: string)
    ensures Connected(g, a, a)
  {
    assert IsWalk(g, [a]);
  }

  /** A set that holds the start of a walk and all neighbours of its members holds the whole walk. */
  lemma {:induction false} WalkStaysInside(g: Graph, s: set<string>, p: seq<string>)
    requires IsWalk(g, p) && p[0] in s && forall x :: x in s && x in g ==> g[x] <= s
    ensures p[|p| - 1] in s
    decreases |p|
  {
    if |p| > 1 {
      var front := p[..|p| - 1];
      assert forall i :: 0 <= i < |front| ==> front[i] == p[i];
      WalkStaysInside(g, s, front);
    }
  }

  method PushAll(stack: seq<string>, xs: set<string>) returns (taller: seq<string>)
    ensures stack <= taller
    ensures forall x :: x in taller <==> x in stack || x in xs
  {
    taller := stack;
    var rest := xs;
    while rest != {}
      invariant rest <= xs && stack <= taller
      invariant forall x :: x in taller <==> x in stack || x in xs - rest
    {
      var x :| x in rest;
      taller := taller + [x];
      rest := rest - {x};
    }
  }

  /** What the search knows: everything found is connected, every neighbour is found or waiting. */
  ghost predicate Searching(g: Graph, start: string, component: set<string>, stack: seq<string>) {
    && (start in component || start in stack)
    && component <= g.Keys
    && (forall x :: x in stack ==> x in g && Connected(g, start, x))
    && (forall x :: x in component ==> Connected(g, start, x))
    && (forall x, y :: x in component && y in g[x] ==> y in component || y in stack)
  }

  lemma VisitKeepsSearching(g: Graph, start: string, component: set<string>, before: seq<string>,
                            current: string, after: seq<string>)
    requires Simple(g) && Searching(g, start, component, before) && current in before
    requires current !in component
    requires forall x :: x in before ==> x in after || x == current
    requires forall x :: x in after ==> x in before || x in g[current]
    requires forall y :: y in g[current] ==> y in component + {current} || y in after
    ensures Searching(g, start, component + {current}, after)
  {
    hide Connected;
    forall y | y in g[current]
      ensures Connected(g, start, y)
    {
      WalkExtends(g, start, current, y);
    }
  }

  /** The depth-first search from `start` collects exactly its connected component. */
  method Component(g: Graph, start: string) returns (component: set<string>)
    requires Simple(g) && start in g
    ensures forall x :: x in component <==> Connected(g, start, x)
    ensures component <= g.Keys
  {
    component := {};
    var stack := [start];
    ConnectedToItself(g, start);
    while stack != []
      invariant Searching(g, start, component, stack)
      decreases g.Keys - component, |stack|
    {
      var current := stack[|stack| - 1];
      ghost var before := stack;
      stack := stack[..|stack| - 1];
      assert forall x :: x in before <==> x in stack || x == current;
      if current !in component {
        var ahead := g[current] - (component + {current});
        stack := PushAll(stack, ahead);
        VisitKeepsSearching(g, start, component, before, current, stack);
        component := component + {current};
      }
    }
    ClosedHoldsAll(g, start, component);
  }

  lemma ClosedHoldsAll(g: Graph, start: string, s: set<string>)
    requires start in s && forall x :: x in s && x in g ==> g[x] <= s
    ensures forall x :: Connected(g, start, x) ==> x in s
  {
    forall x | Connected(g, start, x)
      ensures x in s
    {
      var p :| IsWalk(g, p) && p[0] == start && p[|p| - 1] == x;
      WalkStaysInside(g, s, p);
    }
  }

  /** A component has several members exactly when its members have neighbours. */
  lemma SingletonIffIsolated(g: Graph, start: string, component: set<string>, x: string)
    requires Simple(g) && start in g && x in component && component <= g.Keys
    requires forall y :: y in component <==> Connected(g, start, y)
    ensures |component| > 1 <==> g[x] != {}
  {
    if y :| y in g[x] {
      WalkExtends(g, start, x, y);
      assert {x, y} <= component && |{x, y}| == 2;
      SubsetSize({x, y}, component);
    }
    if |component| > 1 {
      NeighbourExists(g, start, component, x);
    }
  }

  lemma NeighbourExists(g: Graph, start: string, component: set<string>, x: string)
    requires Simple(g) && start in g && x in component && component <= g.Keys && |component| > 1
    requires forall y :: y in component <==> Connected(g, start, y)
    ensures g[x] != {}
  {
    if x == start {
      assert component != {x};
      var z :| z in component && z != x;
      var p :| IsWalk(g, p) && p[0] == start && p[|p| - 1] == z;
      assert p[1] in g[start];
    } else {
      var p :| IsWalk(g, p) && p[0] == start && p[|p| - 1] == x;
      assert x in g[p[|p| - 2]];
      assert p[|p| - 2] in g[x];
    }
  }

  lemma SubsetSize(a: set<string>, b: set<string>)
    requires a <= b
    ensures |a| <= |b|
  {
    assert b == a + (b - a);
  }

  /** Members of one component see the same component. */
  lemma SameComponent(g: Graph, a: string, b: string, x: string)
    requires Simple(g) && a in g && Connected(g, a, b) && Connected(g, a, x)
    ensures Connected(g, b, x)
  {
    WalkBack(g, a, b);
    var p :| IsWalk(g, p) && p[0] == b && p[|p| - 1] == a;
    var q :| IsWalk(g, q) && q[0] == a && q[|q| - 1] == x;
    assert IsWalk(g, p + q[1..]);
    assert (p + q[1..])[|p + q[1..]| - 1] == x;
  }

  lemma WalkBack(g: Graph, a: string, b: string)
    requires Simple(g) && a in g && Connected(g, a, b)
    ensures Connected(g, b, a)
  {
    var p :| IsWalk(g, p) && p[0] == a && p[|p| - 1] == b;
    var n := |p|;
    var r := seq(n, i requires 0 <= i < n => p[n - 1 - i]);
    forall i | 0 <= i < n - 1
      ensures r[i] in g && r[i + 1] in g[r[i]]
    {
      var k := n - 2 - i;
      assert p[k] in g && p[k + 1] in g[p[k]];
    }
    assert IsWalk(g, r) && r[0] == b && r[|r| - 1] == a;
  }

  /** The vertices lying in a component of more than one member. */
  method MarkComponents(g: Graph) returns (marked: set<string>)
    requires Simple(g)
    ensures marked == set c | c in g && g[c] != {}
  {
    marked := {};
    var visited, rest := {}, g.Keys;
    while rest != {}
      invariant rest <= g.Keys && visited <= g.Keys && g.Keys - rest <= visited
      invariant marked == set c | c in visited && g[c] != {}
    {
      var start :| start in rest;
      rest := rest - {start};
      if start !in visited {
        var component := Component(g, start);
        ConnectedToItself(g, start);
        forall c | c in component
          ensures |component| > 1 <==> g[c] != {}
        {
          SingletonIffIsolated(g, start, component, c);
        }
        visited := visited + component;
        if |component| > 1 {
          marked := marked + component;
        }
      }
    }
  }

  // -------------------------------------------------------------------------
  // From active commit intents to the graph
  // -------------------------------------------------------------------------

  /** For each commit id, the order ids its fill references name. */
  type Claims = map<string, set<string>>

  predicate Overlapping(claims: Claims, c: string, other: string) {
    c in claims && other in claims && c != other && claims[c] * claims[other] != {}
  }

  /** Invert the claims: which commit ids name an order. */
  method Invert(claims: Claims) returns (owners: map<string, set<string>>)
    ensures forall o :: o in owners <==> exists c :: c in claims && o in claims[c]
    ensures forall o :: o in owners ==> owners[o] == set c | c in claims && o in claims[c]
  {
    owners := map[];
    var rest := claims.Keys;
    while rest != {}
      invariant rest <= claims.Keys
      invariant forall o :: o in owners <==> exists c :: c in claims.Keys - rest && o in claims[c]
      invariant forall o :: o in owners ==> owners[o] == set c | c in claims.Keys - rest && o in claims[c]
    {
      var cid :| cid in rest;
      owners := AddOwner(owners, cid, claims[cid]);
      rest := rest - {cid};
      assert claims.Keys - rest == claims.Keys - (rest + {cid}) + {cid};
    }
  }

  method AddOwner(owners: map<string, set<string>>, cid: string, claimed: set<string>)
    returns (owners': map<string, set<string>>)
    ensures owners'.Keys == owners.Keys + claimed
    ensures forall o :: o in owners' ==>
              owners'[o] == (if o in owners then owners[o] else {}) + (if o in claimed then {cid} else {})
  {
    owners' := owners;
    var todo := claimed;
    while todo != {}
      invariant todo <= claimed && owners'.Keys == owners.Keys + (claimed - todo)
      invariant forall o :: o in owners' ==>
                  owners'[o] == (if o in owners then owners[o] else {}) + (if o in claimed - todo then {cid} else {})
    {
      var o :| o in todo;
      owners' := owners'[o := (if o in owners' then owners'[o] else {}) + {cid}];
      todo := todo - {o};
    }
  }

  /** Join every two commit ids that claim one order. */
  method BuildAdjacency(claims: Claims, owners: map<string, set<string>>) returns (g: Graph)
    requires forall o :: o in owners <==> exists c :: c in claims && o in claims[c]
    requires forall o :: o in owners ==> owners[o] == set c | c in claims && o in claims[c]
    ensures g.Keys == claims.Keys
    ensures forall c :: c in g ==> g[c] == set d | d in claims && Overlapping(claims, c, d)
  {
    g := map c | c in claims :: {};
    var rest := owners.Keys;
    while rest != {}
      invariant rest <= owners.Keys && g.Keys == claims.Keys
      invariant forall c, d :: c in g ==> (d in g[c] <==> Joined(claims, owners.Keys - rest, c, d))
    {
      var o :| o in rest;
      rest := rest - {o};
      var clique := owners[o];
      assert owners.Keys - rest == owners.Keys - (rest + {o}) + {o};
      assert forall c, d :: Joined(claims, owners.Keys - rest, c, d) <==>
          Joined(claims, owners.Keys - (rest + {o}), c, d) || (c in clique && d in clique && c != d);
      if |clique| > 1 {
        g := map c | c in g :: if c in clique then g[c] + (clique - {c}) else g[c];
      } else {
        SmallClique(clique);
      }
    }
    assert forall c, d :: Overlapping(claims, c, d) ==>
        exists o :: o in claims[c] * claims[d] && o in owners;
  }

  /** Two commit ids claim one of the given orders together. */
  ghost predicate Joined(claims: Claims, orders: set<string>, c: string, d: string) {
    c in claims && d in claims && c != d && exists o :: o in orders && o in claims[c] && o in claims[d]
  }

  lemma SmallClique(s: set<string>)
    requires |s| <= 1
    ensures forall c, d :: c in s && d in s ==> c == d
  {
    if c, d :| c in s && d in s && c != d {
      SubsetSize({c, d}, s);
    }
  }

  /** The commit intents that share an order with another one, found through their components. */
  method FindOverlaps(claims: Claims) returns (invalid: set<string>)
    ensures invalid == set c, d | c in claims && d in claims && Overlapping(claims, c, d) :: c
  {
    var owners := Invert(claims);
    var g := BuildAdjacency(claims, owners);
    invalid := MarkComponents(g);
    assert forall c :: c in invalid <==> c in claims && exists d :: d in claims && Overlapping(claims, c, d);
  }
}
