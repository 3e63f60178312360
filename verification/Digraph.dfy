/** Finite directed graphs with ordered nodes: paths, strongly connected components,
    cycles, and the lexicographic order on node lists. */
module Digraph {
  type Node = nat
  type Graph = map<Node, set<Node>>

  // Every edge leads to a node of the graph.
  ghost predicate Closed(g: Graph) {
    forall n, m | n in g && m in g[n] :: m in g
  }

  ghost predicate Path(g: Graph, p: seq<Node>) {
    && |p| > 0
    && (forall i | 0 <= i < |p| :: p[i] in g)
    && (forall i | 0 <= i < |p| - 1 :: p[i + 1] in g[p[i]])
  }

  ghost predicate PathFromTo(g: Graph, p: seq<Node>, a: Node, b: Node) {
    Path(g, p) && p[0] == a && p[|p| - 1] == b
  }

  ghost predicate Reach(g: Graph, a: Node, b: Node) {
    exists p :: PathFromTo(g, p, a, b)
  }

  ghost predicate SameComponent(g: Graph, a: Node, b: Node) {
    Reach(g, a, b) && Reach(g, b, a)
  }

  ghost function Component(g: Graph, a: Node): set<Node> {
    set b | b in g && SameComponent(g, a, b)
  }

  // No node reaches itself over one or more edges.
  ghost predicate Acyclic(g: Graph) {
    forall a, b | a in g && b in g[a] :: !Reach(g, b, a)
  }

  // A strongly connected component with an edge inside it.
  ghost predicate CyclicComponent(g: Graph, c: set<Node>) {
    exists a :: a in g && c == Component(g, a) && (c != {a} || a in g[a])
  }

  lemma ReachSelf(g: Graph, a: Node)
    requires a in g
    ensures Reach(g, a, a)
  {
    assert PathFromTo(g, [a], a, a);
  }

  lemma ReachEdge(g: Graph, a: Node, b: Node)
    requires a in g && b in g && b in g[a]
    ensures Reach(g, a, b)
  {
    assert PathFromTo(g, [a, b], a, b);
  }

  lemma ReachTrans(g: Graph, a: Node, b: Node, c: Node)
    requires Reach(g, a, b) && Reach(g, b, c)
    ensures Reach(g, a, c)
  {
    var p :| PathFromTo(g, p, a, b);
    var q :| PathFromTo(g, q, b, c);
    var r := p + q[1..];
    forall i | 0 <= i < |r| - 1 ensures r[i] in g && r[i + 1] in g[r[i]] {
      if i >= |p| - 1 {
        assert r[i] == q[i - (|p| - 1)];
      }
    }
    assert PathFromTo(g, r, a, c);
  }

  lemma SubPath(g: Graph, p: seq<Node>, i: nat, j: nat)
    requires Path(g, p) && i <= j < |p|
    ensures Reach(g, p[i], p[j])
  {
    assert PathFromTo(g, p[i..j + 1], p[i], p[j]);
  }

  // A set that holds a and every successor of its members that a reaches holds all that a reaches.
  lemma ReachStaysIn(g: Graph, s: set<Node>, a: Node, b: Node)
    requires a in s && Reach(g, a, b)
    requires forall x, y | x in s && x in g && y in g[x] && Reach(g, a, x) :: y in s
    ensures b in s
  {
    var p :| PathFromTo(g, p, a, b);
    var i := 0;
    while i < |p| - 1
      invariant 0 <= i < |p| && p[i] in s
    {
      SubPath(g, p, 0, i);
      i := i + 1;
    }
  }

  lemma SameComponentTrans(g: Graph, a: Node, b: Node, c: Node)
    requires SameComponent(g, a, b) && SameComponent(g, b, c)
    ensures SameComponent(g, a, c)
  {
    ReachTrans(g, a, b, c);
    ReachTrans(g, c, b, a);
  }

  lemma ComponentEq(g: Graph, a: Node, b: Node)
    requires SameComponent(g, a, b)
    ensures Component(g, a) == Component(g, b)
  {
    forall x | x in g ensures SameComponent(g, a, x) <==> SameComponent(g, b, x) {
      if SameComponent(g, a, x) {
        SameComponentTrans(g, b, a, x);
      }
      if SameComponent(g, b, x) {
        SameComponentTrans(g, a, b, x);
      }
    }
  }

  lemma ReachInGraph(g: Graph, a: Node, b: Node)
    requires Reach(g, a, b)
    ensures a in g && b in g
  {
    var p :| PathFromTo(g, p, a, b);
    assert p[0] in g && p[|p| - 1] in g;
  }

  // Cycles exist exactly where some component is cyclic.
  lemma AcyclicIffNoCyclicComponent(g: Graph)
    requires Closed(g)
    ensures Acyclic(g) <==> !exists c :: CyclicComponent(g, c)
  {
    if !Acyclic(g) {
      var a, b :| a in g && b in g[a] && Reach(g, b, a);
      ReachSelf(g, a);
      ReachEdge(g, a, b);
      assert b in Component(g, a);
      assert CyclicComponent(g, Component(g, a));
    }
    if exists c :: CyclicComponent(g, c) {
      var c :| CyclicComponent(g, c);
      var a :| a in g && c == Component(g, a) && (c != {a} || a in g[a]);
      ReachSelf(g, a);
      if c != {a} {
        assert a in c;
        var b :| b in c && b != a;
        var p :| PathFromTo(g, p, a, b);
        assert |p| > 1 && p[1] in g[a];
        SubPath(g, p, 1, |p| - 1);
        ReachTrans(g, p[1], b, a);
      }
    }
  }

  // x is reached over one or more edges from a, the first of them inside s.
  ghost predicate ReachBeyond(g: Graph, s: set<Node>, a: Node, x: Node)
    requires a in g
  {
    exists b :: b in g[a] && b in s && Reach(g, b, x)
  }

  lemma ReachBeyondEdge(g: Graph, s: set<Node>, a: Node, x: Node, y: Node)
    requires a in g && ReachBeyond(g, s, a, x) && y in g && y in g[x]
    ensures ReachBeyond(g, s, a, y)
  {
    var b :| b in g[a] && b in s && Reach(g, b, x);
    ReachInGraph(g, b, x);
    ReachEdge(g, x, y);
    ReachTrans(g, b, x, y);
  }

  // A nonempty set in which every node has a successor inside the set contains a cycle.
  lemma {:induction false} EndlessSetHasCycle(g: Graph, s: set<Node>)
    requires s != {} && s <= g.Keys
    requires forall x | x in s :: g[x] * s != {}
    ensures !Acyclic(g)
    decreases |s|
  {
    var a :| a in s;
    var t := set x | x in s && ReachBeyond(g, s, a, x);
    if a in t {
      var c :| c in g[a] && c in s && Reach(g, c, a);
    } else {
      var b :| b in g[a] * s;
      ReachSelf(g, b);
      assert b in t;
      forall x | x in t ensures g[x] * t != {} {
        var y :| y in g[x] * s;
        ReachBeyondEdge(g, s, a, x, y);
        assert y in g[x] * t;
      }
      CardLess(t, s);
      EndlessSetHasCycle(g, t);
    }
  }

  lemma {:induction false} CardLess(a: set<Node>, b: set<Node>)
    requires a < b
    ensures |a| < |b|
  {
    var d := b - a;
    assert b == a + d && a !! d;
    assert d != {};
  }

  // ----- reversed graph -----

  ghost function Reverse(g: Graph): Graph {
    map n | n in g :: set m | m in g && n in g[m]
  }

  lemma ReverseReach(g: Graph, a: Node, b: Node)
    ensures Reach(Reverse(g), a, b) <==> Reach(g, b, a)
  {
    if Reach(g, b, a) {
      var p :| PathFromTo(g, p, b, a);
      assert PathFromTo(Reverse(g), seq(|p|, i requires 0 <= i < |p| => p[|p| - 1 - i]), a, b);
    }
    if Reach(Reverse(g), a, b) {
      var p :| PathFromTo(Reverse(g), p, a, b);
      var q := seq(|p|, i requires 0 <= i < |p| => p[|p| - 1 - i]);
      forall i | 0 <= i < |q| - 1 ensures q[i] in g && q[i + 1] in g[q[i]] {
        var j := |p| - 2 - i;
        assert p[j + 1] in Reverse(g)[p[j]];
      }
      assert PathFromTo(g, q, b, a);
    }
  }

  // ----- elements and order -----

  function Elements(s: seq<Node>): set<Node> {
    set n | n in s
  }

  ghost predicate Distinct(s: seq<Node>) {
    forall i, j | 0 <= i < j < |s| :: s[i] != s[j]
  }

  ghost predicate Sorted(s: seq<Node>) {
    forall i, j | 0 <= i < j < |s| :: s[i] < s[j]
  }

  // The ascending list of a set.
  ghost predicate SortedListOf(s: seq<Node>, c: set<Node>) {
    Sorted(s) && Elements(s) == c
  }

  predicate LexLe(a: seq<Node>, b: seq<Node>) {
    if a == [] then true
    else if b == [] then false
    else a[0] < b[0] || (a[0] == b[0] && LexLe(a[1..], b[1..]))
  }

  lemma {:induction false} LexRefl(a: seq<Node>)
    ensures LexLe(a, a)
  {
    if a != [] {
      LexRefl(a[1..]);
    }
  }

  lemma {:induction false} LexTrans(a: seq<Node>, b: seq<Node>, c: seq<Node>)
    requires LexLe(a, b) && LexLe(b, c)
    ensures LexLe(a, c)
  {
    if a != [] && a[0] == b[0] == c[0] {
      LexTrans(a[1..], b[1..], c[1..]);
    }
  }

  lemma {:induction false} LexTotal(a: seq<Node>, b: seq<Node>)
    ensures LexLe(a, b) || LexLe(b, a)
  {
    if a != [] && b != [] {
      LexTotal(a[1..], b[1..]);
    }
  }

  lemma {:induction false} LexAntisymmetric(a: seq<Node>, b: seq<Node>)
    requires LexLe(a, b) && LexLe(b, a)
    ensures a == b
  {
    if a != [] && b != [] {
      LexAntisymmetric(a[1..], b[1..]);
      assert a == [a[0]] + a[1..] && b == [b[0]] + b[1..];
    }
  }

  // Lists that agree before k and are smaller at k are smaller.
  lemma {:induction false} LexFirstDifference(a: seq<Node>, b: seq<Node>, k: nat)
    requires k < |a| && k < |b| && a[..k] == b[..k] && a[k] < b[k]
    ensures LexLe(a, b)
  {
    if k > 0 {
      assert a[0] == a[..k][0] == b[..k][0] == b[0];
      assert a[1..][..k - 1] == a[..k][1..] == b[..k][1..] == b[1..][..k - 1];
      LexFirstDifference(a[1..], b[1..], k - 1);
    }
  }

  lemma {:induction false} LeastExists(s: set<Node>)
    requires s != {}
    ensures exists m :: m in s && forall x | x in s :: m <= x
    decreases |s|
  {
    var y :| y in s;
    var t := s - {y};
    if t == {} {
      assert s == {y};
    } else {
      LeastExists(t);
      var m :| m in t && forall x | x in t :: m <= x;
      var least := if y < m then y else m;
      assert forall x | x in s :: x == y || x in t;
      assert least in s && forall x | x in s :: least <= x;
    }
  }

  // The first element of an ordered set.
  function Least(s: set<Node>): (m: Node)
    requires s != {}
    ensures m in s && forall x | x in s :: m <= x
  {
    LeastExists(s);
    var m :| m in s && forall x | x in s :: m <= x;
    m
  }

  lemma ElementsAppend(s: seq<Node>, n: Node)
    ensures Elements(s + [n]) == Elements(s) + {n}
  {
  }

  lemma {:induction false} DistinctCard(s: seq<Node>)
    requires Distinct(s)
    ensures |Elements(s)| == |s|
  {
    if s != [] {
      var t, n := s[..|s| - 1], s[|s| - 1];
      DistinctCard(t);
      assert s == t + [n];
      ElementsAppend(t, n);
      assert n !in t;
    }
  }

  // A set has one ascending list.
  lemma {:induction false} SortedListUnique(a: seq<Node>, b: seq<Node>, c: set<Node>)
    requires SortedListOf(a, c) && SortedListOf(b, c)
    ensures a == b
  {
    DistinctCard(a);
    DistinctCard(b);
    if a != [] {
      assert a[0] in c && b[0] in c;
      assert a[0] in Elements(b) && b[0] in Elements(a);
      assert a[0] == b[0];
      assert Elements(a[1..]) == c - {a[0]};
      assert Elements(b[1..]) == c - {b[0]};
      SortedListUnique(a[1..], b[1..], c - {a[0]});
      assert a == [a[0]] + a[1..] && b == [b[0]] + b[1..];
    }
  }
}
