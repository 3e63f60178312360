/** The activation order of plugins (Kahn's algorithm) and the cycle diagnostic
    (Kosaraju's algorithm) of crates/plugin/plugin/src/graph.rs. */
module PluginGraph {
  import opened Digraph

  type PluginId = Node

  // ---------------------------------------------------------------------
  // First walk: the finish order of a depth-first search.
  // ---------------------------------------------------------------------

  // z is finished and everything it reaches finished no later than z.
  ghost predicate Settled(g: Graph, finishOrder: seq<PluginId>, z: PluginId) {
    exists i :: 0 <= i < |finishOrder| && finishOrder[i] == z
      && forall y | Reach(g, z, y) :: y in finishOrder[..i + 1]
  }

  // The component of x still has an open visit, or holds a settled node.
  ghost predicate Covered(g: Graph, visited: set<PluginId>, finishOrder: seq<PluginId>, x: PluginId) {
    exists z :: SameComponent(g, x, z) && z in visited
      && (z !in finishOrder || Settled(g, finishOrder, z))
  }

  // What every state of the first walk satisfies.
  ghost predicate WalkInvariant(g: Graph, visited: set<PluginId>, finishOrder: seq<PluginId>) {
    && visited <= g.Keys
    && Elements(finishOrder) <= visited
    && Distinct(finishOrder)
    && (forall x, y | x in finishOrder && y in g[x] :: y in visited)
    && (forall x | x in finishOrder :: Covered(g, visited, finishOrder, x))
  }

  lemma SettledExtends(g: Graph, finishOrder: seq<PluginId>, n: PluginId, z: PluginId)
    requires Settled(g, finishOrder, z)
    ensures Settled(g, finishOrder + [n], z)
  {
    var i :| 0 <= i < |finishOrder| && finishOrder[i] == z
      && forall y | Reach(g, z, y) :: y in finishOrder[..i + 1];
    assert (finishOrder + [n])[..i + 1] == finishOrder[..i + 1];
    assert (finishOrder + [n])[i] == z;
  }

  // Opening a visit keeps the invariant.
  lemma OpenVisit(g: Graph, visited: set<PluginId>, finishOrder: seq<PluginId>, n: PluginId)
    requires WalkInvariant(g, visited, finishOrder) && n in g
    ensures WalkInvariant(g, visited + {n}, finishOrder)
  {
    forall x | x in finishOrder ensures Covered(g, visited + {n}, finishOrder, x) {
      var z :| SameComponent(g, x, z) && z in visited && (z !in finishOrder || Settled(g, finishOrder, z));
      assert z in visited + {n};
    }
  }

  // A node whose successors are all visited and which reaches no open visit but its own
  // reaches only finished nodes.
  lemma ReachesOnlyFinished(g: Graph, visited: set<PluginId>, finishOrder: seq<PluginId>, n: PluginId)
    requires Closed(g) && WalkInvariant(g, visited, finishOrder)
    requires n in visited && g[n] <= visited
    requires forall w | w in visited && w !in finishOrder && w != n :: !Reach(g, n, w)
    ensures forall y | Reach(g, n, y) :: y in finishOrder + [n]
  {
    var s := Elements(finishOrder) + {n};
    forall x, y | x in s && x in g && y in g[x] && Reach(g, n, x) ensures y in s {
      ReachEdge(g, x, y);
      ReachTrans(g, n, x, y);
      assert y in visited;
    }
    forall y | Reach(g, n, y) ensures y in finishOrder + [n] {
      ReachStaysIn(g, s, n, y);
    }
  }

  // Closing a visit keeps the invariant when every open visit reaches the closing node.
  lemma CloseVisit(g: Graph, visited: set<PluginId>, finishOrder: seq<PluginId>, n: PluginId)
    requires Closed(g) && WalkInvariant(g, visited, finishOrder)
    requires n in visited && n !in finishOrder && g[n] <= visited
    requires forall w | w in visited && w !in finishOrder :: Reach(g, w, n)
    ensures WalkInvariant(g, visited, finishOrder + [n])
  {
    var after := finishOrder + [n];
    assert Covered(g, visited, after, n) by {
      if w :| w in visited && w !in finishOrder && w != n && Reach(g, n, w) {
        assert SameComponent(g, n, w) && w !in after;
      } else {
        ReachesOnlyFinished(g, visited, finishOrder, n);
        assert after[..|finishOrder| + 1] == after && after[|finishOrder|] == n;
        assert Settled(g, after, n);
        ReachSelf(g, n);
      }
    }
    forall x | x in finishOrder ensures Covered(g, visited, after, x) {
      var z :| SameComponent(g, x, z) && z in visited && (z !in finishOrder || Settled(g, finishOrder, z));
      if z in finishOrder {
        SettledExtends(g, finishOrder, n, z);
      } else if z == n {
        var w :| SameComponent(g, n, w) && w in visited && (w !in after || Settled(g, after, w));
        SameComponentTrans(g, x, n, w);
      } else {
        assert z !in after;
      }
    }
  }

  method VisitDependencies(plugin: PluginId, dependencies: Graph,
                           visited0: set<PluginId>, finishOrder0: seq<PluginId>)
      returns (visited: set<PluginId>, finishOrder: seq<PluginId>)
    requires Closed(dependencies) && plugin in dependencies
    requires WalkInvariant(dependencies, visited0, finishOrder0)
    requires forall w | w in visited0 && w !in finishOrder0 :: Reach(dependencies, w, plugin)
    ensures WalkInvariant(dependencies, visited, finishOrder)
    ensures visited0 + {plugin} <= visited
    ensures visited - Elements(finishOrder) == visited0 - Elements(finishOrder0)
    decreases dependencies.Keys - visited0
  {
    visited, finishOrder := visited0, finishOrder0;
    if plugin in visited {
      return;
    }
    visited := visited + {plugin};
    OpenVisit(dependencies, visited0, finishOrder, plugin);
    ReachSelf(dependencies, plugin);
    var open := visited - Elements(finishOrder);
    var required := dependencies[plugin];
    while required != {}
      invariant required <= dependencies[plugin]
      invariant WalkInvariant(dependencies, visited, finishOrder)
      invariant visited0 + {plugin} <= visited
      invariant visited - Elements(finishOrder) == open
      invariant dependencies[plugin] - required <= visited
      decreases required
    {
      var dependency := Least(required);
      required := required - {dependency};
      ReachEdge(dependencies, plugin, dependency);
      forall w | w in visited && w !in finishOrder ensures Reach(dependencies, w, dependency) {
        assert w in open;
        ReachTrans(dependencies, w, plugin, dependency);
      }
      visited, finishOrder := VisitDependencies(dependency, dependencies, visited, finishOrder);
    }
    assert forall w | w in visited && w !in finishOrder :: w in open;
    assert plugin in open;
    CloseVisit(dependencies, visited, finishOrder, plugin);
    assert Elements(finishOrder + [plugin]) == Elements(finishOrder) + {plugin};
    finishOrder := finishOrder + [plugin];
  }

  // ---------------------------------------------------------------------
  // Second walk: one component of the reversed graph.
  // ---------------------------------------------------------------------

  method CollectComponent(plugin: PluginId, reverse: Graph,
                          visited0: set<PluginId>, component0: seq<PluginId>)
      returns (visited: set<PluginId>, component: seq<PluginId>)
    requires Closed(reverse) && plugin in reverse && visited0 <= reverse.Keys
    requires Distinct(component0) && Elements(component0) <= visited0
    ensures visited0 + {plugin} <= visited <= reverse.Keys
    ensures component0 <= component && Distinct(component)
    ensures Elements(component) == Elements(component0) + (visited - visited0)
    ensures forall x | x in visited - visited0 :: Reach(reverse, plugin, x) && reverse[x] <= visited
    decreases reverse.Keys - visited0
  {
    visited, component := visited0, component0;
    if plugin in visited {
      return;
    }
    visited := visited + {plugin};
    component := component + [plugin];
    assert Elements(component) == Elements(component0) + {plugin};
    ReachSelf(reverse, plugin);
    var dependents := reverse[plugin];
    while dependents != {}
      invariant dependents <= reverse[plugin]
      invariant visited0 + {plugin} <= visited <= reverse.Keys
      invariant component0 <= component && Distinct(component)
      invariant Elements(component) == Elements(component0) + (visited - visited0)
      invariant reverse[plugin] - dependents <= visited
      invariant forall x | x in visited - visited0 :: Reach(reverse, plugin, x)
      invariant forall x | x in visited - visited0 && x != plugin :: reverse[x] <= visited
      decreases dependents
    {
      var dependent := Least(dependents);
      dependents := dependents - {dependent};
      ghost var before := visited;
      visited, component := CollectComponent(dependent, reverse, visited, component);
      ReachEdge(reverse, plugin, dependent);
      forall x | x in visited - before ensures Reach(reverse, plugin, x) {
        ReachTrans(reverse, plugin, dependent, x);
      }
    }
  }

  // The walk from r over the reversed graph stays inside r's component, and covers it, when
  // every unvisited node that reaches r lies in that component and visited is a union of components.
  lemma CollectsComponent(g: Graph, r: PluginId, before: set<PluginId>, after: set<PluginId>)
    requires Closed(g) && r in g && r !in before && r in after && after <= g.Keys
    requires forall x | x in after - before :: Reach(Reverse(g), r, x) && Reverse(g)[x] <= after
    requires forall x, y | x in before && SameComponent(g, x, y) :: y in before
    requires forall x | x in g && x !in before && Reach(g, x, r) :: SameComponent(g, r, x)
    ensures after - before == Component(g, r)
  {
    forall x | x in after - before ensures x in Component(g, r) {
      ReverseReach(g, r, x);
    }
    forall x | x in Component(g, r) ensures x in after - before {
      ReverseReach(g, r, x);
      var p :| PathFromTo(Reverse(g), p, r, x);
      var i := 0;
      while i < |p| - 1
        invariant 0 <= i < |p| && p[i] in after - before
      {
        SubPath(Reverse(g), p, 0, i + 1);
        SubPath(Reverse(g), p, i + 1, |p| - 1);
        ReverseReach(g, r, p[i + 1]);
        ReverseReach(g, p[i + 1], x);
        ReachTrans(g, r, x, p[i + 1]);
        assert SameComponent(g, p[i + 1], r);
        i := i + 1;
      }
    }
  }

  // Of the unvisited nodes, those that reach the last finished one share its component.
  lemma LastFinishedAbsorbs(g: Graph, finishOrder: seq<PluginId>, i: nat, before: set<PluginId>, x: PluginId)
    requires WalkInvariant(g, g.Keys, finishOrder) && Elements(finishOrder) == g.Keys
    requires i < |finishOrder| && finishOrder[i] !in before
    requires forall j | i < j < |finishOrder| :: finishOrder[j] in before
    requires forall x, y | x in before && SameComponent(g, x, y) :: y in before
    requires x in g && x !in before && Reach(g, x, finishOrder[i])
    ensures SameComponent(g, finishOrder[i], x)
  {
    var r := finishOrder[i];
    assert Covered(g, g.Keys, finishOrder, x);
    var z :| SameComponent(g, x, z) && z in g.Keys && (z !in finishOrder || Settled(g, finishOrder, z));
    assert z in Elements(finishOrder);
    var k :| 0 <= k < |finishOrder| && finishOrder[k] == z
      && forall y | Reach(g, z, y) :: y in finishOrder[..k + 1];
    ReachTrans(g, z, x, r);
    assert r in finishOrder[..k + 1];
    assert k >= i;
    if k > i {
      assert z in before && SameComponent(g, z, x);
      assert false;
    }
  }

  // So the second walk, started there, collects exactly its component.
  lemma LastFinishedComponent(g: Graph, finishOrder: seq<PluginId>, i: nat, before: set<PluginId>, after: set<PluginId>)
    requires Closed(g) && WalkInvariant(g, g.Keys, finishOrder) && Elements(finishOrder) == g.Keys
    requires i < |finishOrder| && finishOrder[i] !in before && finishOrder[i] in after && after <= g.Keys
    requires SuffixVisited(finishOrder, i + 1, before) && UnionOfComponents(g, before)
    requires forall x | x in after - before :: Reach(Reverse(g), finishOrder[i], x) && Reverse(g)[x] <= after
    ensures after - before == Component(g, finishOrder[i])
  {
    forall x | x in g && x !in before && Reach(g, x, finishOrder[i]) ensures SameComponent(g, finishOrder[i], x) {
      LastFinishedAbsorbs(g, finishOrder, i, before, x);
    }
    assert finishOrder[i] in Elements(finishOrder);
    CollectsComponent(g, finishOrder[i], before, after);
  }

  // Everything from position i on is visited.
  ghost predicate SuffixVisited(finishOrder: seq<PluginId>, i: nat, visited: set<PluginId>) {
    forall j | i <= j < |finishOrder| :: finishOrder[j] in visited
  }

  lemma SuffixStep(finishOrder: seq<PluginId>, i: nat, before: set<PluginId>, after: set<PluginId>)
    requires i < |finishOrder| && SuffixVisited(finishOrder, i + 1, before)
    requires before <= after && finishOrder[i] in after
    ensures SuffixVisited(finishOrder, i, after)
  {
  }

  ghost predicate UnionOfComponents(g: Graph, visited: set<PluginId>) {
    visited <= g.Keys && forall x, y | x in visited && SameComponent(g, x, y) :: y in visited
  }

  // ---------------------------------------------------------------------
  // The diagnostic.
  // ---------------------------------------------------------------------

  // The least ascending member list among the cyclic components.
  ghost predicate LeastCyclicComponent(g: Graph, plugins: seq<PluginId>) {
    && CyclicComponent(g, Elements(plugins))
    && Sorted(plugins)
    && forall c, l | CyclicComponent(g, c) && SortedListOf(l, c) :: LexLe(plugins, l)
  }

  lemma SortedAppend(s: seq<PluginId>, m: PluginId)
    requires Sorted(s) && forall x | x in Elements(s) :: x < m
    ensures Sorted(s + [m]) && Distinct(s + [m])
  {
    forall i | 0 <= i < |s| ensures s[i] < m {
      assert s[i] in Elements(s);
    }
  }

  method SortUnstable(s: seq<PluginId>) returns (r: seq<PluginId>)
    requires Distinct(s)
    ensures SortedListOf(r, Elements(s)) && |r| == |s|
  {
    r := [];
    var rest := Elements(s);
    DistinctCard(s);
    while rest != {}
      invariant rest <= Elements(s) && |r| + |rest| == |s|
      invariant Sorted(r) && Elements(r) == Elements(s) - rest
      invariant forall x, y | x in Elements(s) - rest && y in rest :: x < y
      decreases rest
    {
      var m := Least(rest);
      SortedAppend(r, m);
      ElementsAppend(r, m);
      rest, r := rest - {m}, r + [m];
    }
  }

  method BuildReverse(dependencies: Graph) returns (reverse: Graph)
    requires Closed(dependencies)
    ensures reverse == Reverse(dependencies)
    ensures reverse.Keys == dependencies.Keys && Closed(reverse)
  {
    reverse := map n | n in dependencies :: {};
    var plugins := dependencies.Keys;
    while plugins != {}
      invariant plugins <= dependencies.Keys && reverse.Keys == dependencies.Keys
      invariant forall n, m | n in reverse ::
          m in reverse[n] <==> (m in dependencies && m !in plugins && n in dependencies[m])
      decreases plugins
    {
      var plugin := Least(plugins);
      plugins := plugins - {plugin};
      var required := dependencies[plugin];
      while required != {}
        invariant required <= dependencies[plugin] && reverse.Keys == dependencies.Keys
        invariant forall n, m | n in reverse :: m in reverse[n] <==>
          (m in dependencies && m !in plugins && n in dependencies[m] && (m == plugin ==> n !in required))
        decreases required
      {
        var dependency := Least(required);
        required := required - {dependency};
        reverse := reverse[dependency := reverse[dependency] + {plugin}];
      }
    }
    forall n | n in dependencies ensures reverse[n] == Reverse(dependencies)[n] {
    }
  }

  method MinComponent(components: seq<seq<PluginId>>) returns (least: Option<seq<PluginId>>)
    ensures least.None? <==> components == []
    ensures least.Some? ==> least.value in components && forall c | c in components :: LexLe(least.value, c)
  {
    if components == [] {
      return None;
    }
    var best := components[0];
    LexRefl(best);
    for i := 1 to |components|
      invariant best in components
      invariant forall j | 0 <= j < i :: LexLe(best, components[j])
    {
      if !LexLe(best, components[i]) {
        LexTotal(best, components[i]);
        LexRefl(components[i]);
        forall j | 0 <= j < i ensures LexLe(components[i], components[j]) {
          LexTrans(components[i], best, components[j]);
        }
        best := components[i];
      }
    }
    return Some(best);
  }

  datatype Option<+T> = None | Some(value: T)

  // The first walk over every plugin, in id order.
  method FinishOrder(dependencies: Graph) returns (finishOrder: seq<PluginId>)
    requires Closed(dependencies)
    ensures WalkInvariant(dependencies, dependencies.Keys, finishOrder)
    ensures Elements(finishOrder) == dependencies.Keys
  {
    var visited: set<PluginId> := {};
    finishOrder := [];
    var keys := dependencies.Keys;
    while keys != {}
      invariant keys <= dependencies.Keys
      invariant WalkInvariant(dependencies, visited, finishOrder)
      invariant dependencies.Keys - keys <= visited
      invariant visited - Elements(finishOrder) == {}
      decreases keys
    {
      var plugin := Least(keys);
      keys := keys - {plugin};
      ghost var stillOpen := visited - Elements(finishOrder);
      assert forall w | w in visited && w !in finishOrder :: w in stillOpen;
      visited, finishOrder := VisitDependencies(plugin, dependencies, visited, finishOrder);
    }
    assert visited == dependencies.Keys;
    assert visited <= (visited - Elements(finishOrder)) + Elements(finishOrder);
  }

  // Every listed entry is a cyclic component met so far, none is listed twice, and those met so far are all listed.
  ghost predicate Listed(g: Graph, visited: set<PluginId>, components: seq<seq<PluginId>>) {
    && (forall c | c in components :: Sorted(c) && CyclicComponent(g, Elements(c)) && Elements(c) <= visited)
    && (forall i, j | 0 <= i < j < |components| :: components[i] != components[j])
    && (forall x | x in visited :: CyclicComponent(g, Component(g, x)) ==>
          exists c :: c in components && SortedListOf(c, Component(g, x)))
  }

  lemma ListedStep(g: Graph, r: PluginId, before: set<PluginId>, after: set<PluginId>,
                   known: seq<seq<PluginId>>, component: seq<PluginId>)
    requires r in g && Listed(g, before, known)
    requires before <= after && after - before == Component(g, r)
    requires SortedListOf(component, Component(g, r))
    ensures CyclicComponent(g, Component(g, r)) ==> Listed(g, after, known + [component])
    ensures !CyclicComponent(g, Component(g, r)) ==> Listed(g, after, known)
  {
    var cyclic := CyclicComponent(g, Component(g, r));
    var next := if cyclic then known + [component] else known;
    assert r in Elements(component) && r !in before by { ReachSelf(g, r); }
    forall c | c in known ensures c != component {
      assert Elements(c) <= before;
    }
    forall x | x in after && CyclicComponent(g, Component(g, x))
      ensures exists l :: l in next && SortedListOf(l, Component(g, x))
    {
      if x in before {
        var l :| l in known && SortedListOf(l, Component(g, x));
        assert l in next;
      } else {
        assert x in after - before;
        ComponentEq(g, r, x);
        assert component in next;
      }
    }
  }

  // One component of the second walk, listed when it is cyclic.
  method VisitComponent(dependencies: Graph, reverse: Graph, plugin: PluginId, visited0: set<PluginId>,
                        components0: seq<seq<PluginId>>, ghost finishOrder: seq<PluginId>, ghost i: nat)
      returns (visited: set<PluginId>, components: seq<seq<PluginId>>)
    requires Closed(dependencies) && reverse == Reverse(dependencies)
    requires reverse.Keys == dependencies.Keys && Closed(reverse)
    requires WalkInvariant(dependencies, dependencies.Keys, finishOrder)
    requires Elements(finishOrder) == dependencies.Keys
    requires i < |finishOrder| && finishOrder[i] == plugin && plugin !in visited0 && visited0 <= dependencies.Keys
    requires SuffixVisited(finishOrder, i + 1, visited0) && UnionOfComponents(dependencies, visited0)
    requires Listed(dependencies, visited0, components0)
    ensures visited0 + {plugin} <= visited <= dependencies.Keys
    ensures UnionOfComponents(dependencies, visited) && Listed(dependencies, visited, components)
  {
    hide *;
    FinishedAt(dependencies, finishOrder, i);
    NothingVisited(dependencies, finishOrder);
    var component;
    visited, component := CollectComponent(plugin, reverse, visited0, []);
    LastFinishedComponent(dependencies, finishOrder, i, visited0, visited);
    component := SortUnstable(component);
    CyclicTest(dependencies, plugin, component);
    ListedStep(dependencies, plugin, visited0, visited, components0, component);
    ComponentStep(dependencies, plugin, visited0, visited);
    components := components0;
    var isSelfCycle := |component| == 1
      && component[0] in dependencies && component[0] in dependencies[component[0]];
    if |component| > 1 || isSelfCycle {
      components := components + [component];
    }
  }

  // The second walk: unvisited plugins in reverse finish order.
  method CyclicComponents(dependencies: Graph, finishOrder: seq<PluginId>) returns (components: seq<seq<PluginId>>)
    requires Closed(dependencies)
    requires WalkInvariant(dependencies, dependencies.Keys, finishOrder)
    requires Elements(finishOrder) == dependencies.Keys
    ensures Listed(dependencies, dependencies.Keys, components)
  {
    hide *;
    var reverse := BuildReverse(dependencies);
    var visited: set<PluginId> := {};
    components := [];
    var i := |finishOrder|;
    NothingVisited(dependencies, finishOrder);
    while i > 0
      invariant 0 <= i <= |finishOrder| && visited <= dependencies.Keys
      invariant SuffixVisited(finishOrder, i, visited)
      invariant UnionOfComponents(dependencies, visited)
      invariant Listed(dependencies, visited, components)
      decreases i
    {
      i := i - 1;
      var plugin := finishOrder[i];
      ghost var before := visited;
      if plugin !in visited {
        visited, components := VisitComponent(dependencies, reverse, plugin, visited, components, finishOrder, i);
      }
      SuffixStep(finishOrder, i, before, visited);
    }
    AllVisited(dependencies, finishOrder, visited);
  }

  lemma NothingVisited(g: Graph, finishOrder: seq<PluginId>)
    ensures SuffixVisited(finishOrder, |finishOrder|, {}) && UnionOfComponents(g, {}) && Listed(g, {}, [])
    ensures Distinct([]) && Elements([]) == {}
  {
  }

  lemma FinishedAt(g: Graph, finishOrder: seq<PluginId>, i: nat)
    requires Elements(finishOrder) == g.Keys && i < |finishOrder|
    ensures finishOrder[i] in g
  {
    assert finishOrder[i] in Elements(finishOrder);
  }

  lemma AllVisited(g: Graph, finishOrder: seq<PluginId>, visited: set<PluginId>)
    requires Elements(finishOrder) == g.Keys && visited <= g.Keys
    requires SuffixVisited(finishOrder, 0, visited)
    ensures visited == g.Keys
  {
    forall x | x in g ensures x in visited {
      assert x in Elements(finishOrder);
    }
  }

  lemma ListedOf(g: Graph, components: seq<seq<PluginId>>, c: set<PluginId>)
    requires Listed(g, g.Keys, components) && CyclicComponent(g, c)
    ensures exists l :: l in components && SortedListOf(l, c)
  {
    var a :| a in g && c == Component(g, a) && (c != {a} || a in g[a]);
    hide Component;
  }

  lemma NoneListed(g: Graph)
    requires Closed(g) && Listed(g, g.Keys, [])
    ensures Acyclic(g)
  {
    AcyclicIffNoCyclicComponent(g);
    hide Acyclic, CyclicComponent, Listed;
    if c :| CyclicComponent(g, c) {
      ListedOf(g, [], c);
    }
  }

  lemma LeastOfListed(g: Graph, components: seq<seq<PluginId>>, least: seq<PluginId>)
    requires Closed(g) && Listed(g, g.Keys, components) && least in components && forall c | c in components ::
        LexLe(least, c)
    ensures LeastCyclicComponent(g, least) && !Acyclic(g)
  {
    AcyclicIffNoCyclicComponent(g);
    assert Sorted(least) && CyclicComponent(g, Elements(least));
    hide Acyclic, CyclicComponent, Listed;
    forall c, l | CyclicComponent(g, c) && SortedListOf(l, c) ensures LexLe(least, l) {
      ListedOf(g, components, c);
      var k :| k in components && SortedListOf(k, c);
      SortedListUnique(k, l, c);
    }
  }

  /** None exactly for an acyclic map; otherwise the least cyclic component. */
  method SmallestCyclicComponent(dependencies: Graph) returns (plugins: Option<seq<PluginId>>)
    requires Closed(dependencies)
    ensures plugins.None? <==> Acyclic(dependencies)
    ensures plugins.Some? ==> LeastCyclicComponent(dependencies, plugins.value)
  {
    hide *;
    var finishOrder := FinishOrder(dependencies);
    var components := CyclicComponents(dependencies, finishOrder);
    plugins := MinComponent(components);
    if plugins.Some? {
      LeastOfListed(dependencies, components, plugins.value);
    } else {
      NoneListed(dependencies);
    }
  }

  // More than one member, or a self-dependency, is what makes a component cyclic.
  lemma CyclicTest(g: Graph, r: PluginId, component: seq<PluginId>)
    requires r in g && SortedListOf(component, Component(g, r))
    ensures CyclicComponent(g, Component(g, r)) <==>
      |component| > 1 || (|component| == 1 && component[0] in g && component[0] in g[component[0]])
  {
    var c := Component(g, r);
    ReachSelf(g, r);
    assert r in c;
    assert r in Elements(component);
    if |component| == 1 {
      assert component == [r];
      assert Elements(component) == {r};
      if CyclicComponent(g, c) {
        var a :| a in g && c == Component(g, a) && (c != {a} || a in g[a]);
        ReachSelf(g, a);
        assert a in c;
      }
    } else {
      assert |component| > 1;
      var other := if component[0] == r then component[1] else component[0];
      assert other in c && other != r;
    }
  }

  lemma ComponentStep(g: Graph, r: PluginId, before: set<PluginId>, after: set<PluginId>)
    requires r in g && before <= after && after - before == Component(g, r)
    requires UnionOfComponents(g, before)
    ensures UnionOfComponents(g, after)
  {
    assert after <= before + (after - before);
    forall x, y | x in after && SameComponent(g, x, y) ensures y in after {
      if x !in before {
        assert x in after - before;
        SameComponentTrans(g, r, x, y);
        ReachInGraph(g, x, y);
        assert y in Component(g, r);
      }
    }
  }

  // ---------------------------------------------------------------------
  // The activation order.
  // ---------------------------------------------------------------------

  // Every plugin once, dependencies first.
  ghost predicate TopologicalOrder(g: Graph, t: seq<PluginId>) {
    && Distinct(t) && Elements(t) == g.Keys
    && forall i, d | 0 <= i < |t| && d in g[t[i]] :: d in t[..i]
  }

  ghost predicate LeastTopologicalOrder(g: Graph, t: seq<PluginId>) {
    TopologicalOrder(g, t) && forall u | TopologicalOrder(g, u) :: LexLe(t, u)
  }

  // The plugins outside `done` whose dependencies are all in it.
  ghost function Available(g: Graph, done: set<PluginId>): set<PluginId> {
    set p | p in g && p !in done && g[p] <= done
  }

  // Each position holds the least plugin available there.
  ghost predicate Greedy(g: Graph, t: seq<PluginId>) {
    forall i | 0 <= i < |t| ::
      t[i] in Available(g, Elements(t[..i])) && forall p | p in Available(g, Elements(t[..i])) :: t[i] <= p
  }

  lemma GreedyAppend(g: Graph, t: seq<PluginId>, p: PluginId)
    requires Greedy(g, t) && Distinct(t)
    requires p in Available(g, Elements(t)) && forall q | q in Available(g, Elements(t)) :: p <= q
    ensures Greedy(g, t + [p]) && Distinct(t + [p])
  {
    var u := t + [p];
    forall i | 0 <= i < |u|
      ensures u[i] in Available(g, Elements(u[..i])) && forall q | q in Available(g, Elements(u[..i])) :: u[i] <= q
    {
      assert u[..i] == t[..i];
      if i == |t| {
        assert t[..i] == t;
      }
    }
  }

  lemma GreedyIsLeast(g: Graph, t: seq<PluginId>)
    requires Greedy(g, t) && Distinct(t) && Elements(t) == g.Keys
    ensures LeastTopologicalOrder(g, t)
  {
    forall i, d | 0 <= i < |t| && d in g[t[i]] ensures d in t[..i] {
      assert t[i] in Available(g, Elements(t[..i]));
    }
    forall u | TopologicalOrder(g, u) ensures LexLe(t, u) {
      DistinctCard(t);
      DistinctCard(u);
      if t == u {
        LexRefl(t);
      } else {
        var k :| 0 <= k < |t| && t[..k] == u[..k] && t[k] != u[k] by { FirstDifference(t, u); }
        assert forall j | 0 <= j < k :: u[..k][j] == u[j];
        assert u[k] in Elements(u);
        assert u[k] in Available(g, Elements(u[..k]));
        LexFirstDifference(t, u, k);
      }
    }
  }

  lemma {:induction false} FirstDifference(a: seq<PluginId>, b: seq<PluginId>)
    requires |a| == |b| && a != b
    ensures exists k :: 0 <= k < |a| && a[..k] == b[..k] && a[k] != b[k]
  {
    var k := 0;
    while k < |a| && a[k] == b[k]
      invariant 0 <= k <= |a| && a[..k] == b[..k]
    {
      k := k + 1;
    }
  }

  // Where a topological order exists there is no cycle.
  lemma OrderedIsAcyclic(g: Graph, t: seq<PluginId>)
    requires Closed(g) && TopologicalOrder(g, t)
    ensures Acyclic(g)
  {
    forall a, b | a in g && b in g[a] ensures !Reach(g, b, a) {
      assert a in Elements(t);
      var i :| 0 <= i < |t| && t[i] == a;
      var before := Elements(t[..i]);
      assert b in before;
      if Reach(g, b, a) {
        forall x, y | x in before && x in g && y in g[x] ensures y in before {
          var j :| 0 <= j < i && t[j] == x;
          assert y in t[..j];
        }
        ReachStaysIn(g, before, b, a);
        assert false;
      }
    }
  }

  // With nothing available, either every plugin is placed or the rest contains a cycle.
  lemma StuckMeansCycle(g: Graph, done: set<PluginId>)
    requires Closed(g) && done <= g.Keys && Available(g, done) == {} && done != g.Keys
    ensures !Acyclic(g)
  {
    var rest := g.Keys - done;
    forall x | x in rest ensures g[x] * rest != {} {
      assert x !in Available(g, done);
      var d :| d in g[x] && d !in done;
      assert d in g[x] * rest;
    }
    EndlessSetHasCycle(g, rest);
  }

  ghost predicate DependentsOf(g: Graph, dependents: Graph, plugins: set<PluginId>)
    requires plugins <= g.Keys
  {
    && (forall d, p | d in dependents :: p in dependents[d] <==> p in plugins && d in g[p])
    && (forall p, d | p in plugins && d in g[p] :: d in dependents)
  }

  lemma DependentsAre(g: Graph, dependents: Graph, d: PluginId)
    requires DependentsOf(g, dependents, g.Keys)
    ensures (if d in dependents then dependents[d] else {}) == set p | p in g && d in g[p]
    ensures forall p | p in (if d in dependents then dependents[d] else {}) :: p in g && d in g[p]
  {
    var entries := if d in dependents then dependents[d] else {};
    forall p ensures p in entries <==> p in g && d in g[p] {
    }
  }

  method CountDegrees(dependencies: Graph) returns (indegrees: map<PluginId, nat>, dependents: Graph)
    ensures indegrees.Keys == dependencies.Keys && forall p | p in dependencies :: indegrees[p] == |dependencies[p]|
    ensures DependentsOf(dependencies, dependents, dependencies.Keys)
  {
    indegrees, dependents := map[], map[];
    var plugins := dependencies.Keys;
    while plugins != {}
      invariant plugins <= dependencies.Keys
      invariant indegrees.Keys == dependencies.Keys - plugins
      invariant forall p | p in indegrees :: indegrees[p] == |dependencies[p]|
      invariant DependentsOf(dependencies, dependents, dependencies.Keys - plugins)
      decreases plugins
    {
      var plugin := Least(plugins);
      ghost var counted := dependencies.Keys - plugins;
      plugins := plugins - {plugin};
      indegrees := indegrees[plugin := |dependencies[plugin]|];
      var required := dependencies[plugin];
      while required != {}
        invariant required <= dependencies[plugin]
        invariant forall d, p | d in dependents :: p in dependents[d] <==>
          ((p in counted && d in dependencies[p]) || (p == plugin && d in dependencies[plugin] - required))
        invariant forall p, d | p in counted && d in dependencies[p] :: d in dependents
        invariant dependencies[plugin] - required <= dependents.Keys
        decreases required
      {
        var dependency := Least(required);
        required := required - {dependency};
        var entry := if dependency in dependents then dependents[dependency] else {};
        dependents := dependents[dependency := entry + {plugin}];
      }
      assert dependencies.Keys - plugins == counted + {plugin};
    }
    assert dependencies.Keys - plugins == dependencies.Keys;
  }

  ghost predicate DependencyClosed(g: Graph, done: set<PluginId>) {
    forall p, d | p in done && p in g && d in g[p] :: d in done
  }

  // The counters and the ready set agree with the plugins placed so far, except that the plugins
  // in `late` have not yet been told of the last placed one.
  ghost predicate Counted(g: Graph, indegrees: map<PluginId, nat>, ready: set<PluginId>,
                          done: set<PluginId>, last: PluginId, late: set<PluginId>) {
    && indegrees.Keys == g.Keys
    && (forall p | p in g && p !in done :: indegrees[p] == |g[p] - (if p in late then done - {last} else done)|)
    && (forall p :: p in ready <==> p in Available(g, done) && p !in late)
  }

  lemma ReadyIsAvailable(g: Graph, indegrees: map<PluginId, nat>, ready: set<PluginId>,
                         done: set<PluginId>, last: PluginId)
    requires Counted(g, indegrees, ready, done, last, {})
    ensures ready == Available(g, done)
    ensures forall p | p in ready :: p in g && p !in done
  {
  }

  // Telling one dependent of the plugin just placed.
  lemma TellDependent(g: Graph, indegrees: map<PluginId, nat>, ready: set<PluginId>,
                      done: set<PluginId>, last: PluginId, late: set<PluginId>, p: PluginId)
    requires Counted(g, indegrees, ready, done, last, late)
    requires p in late && p in g && p !in done && last in g[p] && last in done
    ensures indegrees[p] > 0
    ensures var n := indegrees[p] - 1;
      Counted(g, indegrees[p := n], if n == 0 then ready + {p} else ready, done, last, late - {p})
  {
    var n := indegrees[p] - 1;
    ToldOnce(g[p], done, last);
    assert p in Available(g, done) <==> n == 0;
  }

  lemma ToldOnce(dependencies: set<PluginId>, done: set<PluginId>, last: PluginId)
    requires last in dependencies && last in done
    ensures |dependencies - (done - {last})| == |dependencies - done| + 1
    ensures |dependencies - done| == 0 <==> dependencies <= done
  {
    assert dependencies - (done - {last}) == (dependencies - done) + {last};
    assert |dependencies - done| == 0 <==> dependencies - done == {};
    assert dependencies <= (dependencies - done) + done;
  }

  datatype Resolution = Order(order: seq<nat>) | DependencyCycle(plugins: seq<PluginId>)

  // Placing the least ready plugin leaves its dependents to be told.
  lemma PlacePlugin(g: Graph, indegrees: map<PluginId, nat>, ready: set<PluginId>,
                    done: set<PluginId>, last: PluginId, plugin: PluginId, late: set<PluginId>)
    requires Counted(g, indegrees, ready, done, last, {}) && plugin in ready
    requires late == set p | p in g && plugin in g[p]
    requires plugin !in done && DependencyClosed(g, done)
    ensures Counted(g, indegrees, ready - {plugin}, done + {plugin}, plugin, late)
    ensures late !! done + {plugin} && DependencyClosed(g, done + {plugin})
  {
    var after := done + {plugin};
    forall p | p in g && p !in after
      ensures indegrees[p] == |g[p] - (if p in late then after - {plugin} else after)|
    {
      assert after - {plugin} == done;
      if p !in late {
        assert g[p] - after == g[p] - done;
      }
    }
  }

  method TellDependents(dependencies: Graph, entries0: set<PluginId>, indegrees0: map<PluginId, nat>,
                        ready0: set<PluginId>, ghost done: set<PluginId>, ghost plugin: PluginId)
      returns (indegrees: map<PluginId, nat>, ready: set<PluginId>)
    requires entries0 <= dependencies.Keys && entries0 !! done && plugin in done
    requires forall p | p in entries0 :: plugin in dependencies[p]
    requires Counted(dependencies, indegrees0, ready0, done, plugin, entries0)
    ensures Counted(dependencies, indegrees, ready, done, plugin, {})
  {
    var entries := entries0;
    indegrees, ready := indegrees0, ready0;
    while entries != {}
      invariant entries <= entries0
      invariant Counted(dependencies, indegrees, ready, done, plugin, entries)
      decreases entries
    {
      var dependent := Least(entries);
      TellDependent(dependencies, indegrees, ready, done, plugin, entries, dependent);
      entries := entries - {dependent};
      var indegree := indegrees[dependent] - 1;
      indegrees := indegrees[dependent := indegree];
      if indegree == 0 {
        ready := ready + {dependent};
      }
    }
  }

  // The submitted position of each plugin of `ids`, in turn.
  ghost predicate AtPositions(indices: map<PluginId, seq<nat>>, ids: seq<PluginId>, order: seq<nat>) {
    && |order| == |ids|
    && forall i | 0 <= i < |ids| :: ids[i] in indices && indices[ids[i]] != [] && order[i] == indices[ids[i]][0]
  }

  lemma AtPositionsAppend(indices: map<PluginId, seq<nat>>, ids: seq<PluginId>, order: seq<nat>, p: PluginId)
    requires AtPositions(indices, ids, order) && p in indices && indices[p] != []
    ensures AtPositions(indices, ids + [p], order + [indices[p][0]])
  {
  }

  // Distinct plugins, each the least available one when its turn came, until none was available.
  ghost predicate Exhausts(g: Graph, ids: seq<PluginId>) {
    Elements(ids) <= g.Keys && Distinct(ids) && Greedy(g, ids) && Available(g, Elements(ids)) == {}
  }

  // The main loop: place the least ready plugin until none is ready.
  method PlaceReady(indices: map<PluginId, seq<nat>>, dependencies: Graph) returns (order: seq<nat>)
    requires indices.Keys == dependencies.Keys && forall p | p in indices :: indices[p] != []
    ensures exists ids :: Exhausts(dependencies, ids) && AtPositions(indices, ids, order)
  {
    var indegrees, dependents := CountDegrees(dependencies);
    var ready := set p | p in indegrees && indegrees[p] == 0;
    order := [];
    ghost var ids: seq<PluginId> := [];
    ghost var last: PluginId := 0;
    ghost var done: set<PluginId> := {};
    InitiallyCounted(dependencies, indegrees, ready, last);
    hide *;
    while ready != {}
      invariant done == Elements(ids) <= dependencies.Keys && DependencyClosed(dependencies, done)
      invariant Distinct(ids) && Greedy(dependencies, ids)
      invariant Counted(dependencies, indegrees, ready, done, last, {})
      invariant AtPositions(indices, ids, order)
      decreases dependencies.Keys - done
    {
      var plugin := Least(ready);
      ReadyIsAvailable(dependencies, indegrees, ready, done, last);
      AtPositionsAppend(indices, ids, order, plugin);
      GreedyAppend(dependencies, ids, plugin);
      ElementsAppend(ids, plugin);
      order, ids := order + [indices[plugin][0]], ids + [plugin];
      var entries := if plugin in dependents then dependents[plugin] else {};
      DependentsAre(dependencies, dependents, plugin);
      PlacePlugin(dependencies, indegrees, ready, done, last, plugin, entries);
      last, done := plugin, done + {plugin};
      indegrees, ready := TellDependents(dependencies, entries, indegrees, ready - {plugin}, done, plugin);
    }
    ReadyIsAvailable(dependencies, indegrees, ready, done, last);
    Exhausted(dependencies, ids);
    assert Exhausts(dependencies, ids) && AtPositions(indices, ids, order);
  }

  lemma Exhausted(g: Graph, ids: seq<PluginId>)
    requires Elements(ids) <= g.Keys && Distinct(ids) && Greedy(g, ids) && Available(g, Elements(ids)) == {}
    ensures Exhausts(g, ids)
  {
  }

  /** Dependencies before dependents, least id first among the available ones; otherwise the
      least cyclic component. */
  method ResolveOrder(nodeCount: nat, indices: map<PluginId, seq<nat>>, dependencies: Graph)
      returns (r: Resolution)
    requires Closed(dependencies) && nodeCount == |dependencies|
    requires indices.Keys == dependencies.Keys && forall p | p in indices :: indices[p] != []
    ensures r.Order? <==> Acyclic(dependencies)
    ensures r.Order? ==> exists ids :: LeastTopologicalOrder(dependencies, ids) && AtPositions(indices, ids, r.order)
    ensures r.DependencyCycle? ==> LeastCyclicComponent(dependencies, r.plugins)
  {
    var order := PlaceReady(indices, dependencies);
    ghost var ids :| Exhausts(dependencies, ids) && AtPositions(indices, ids, order);
    DistinctCard(ids);
    if |order| != nodeCount {
      StuckMeansCycle(dependencies, Elements(ids));
      var plugins := SmallestCyclicComponent(dependencies);
      return DependencyCycle(plugins.value);
    }
    SubsetSameSize(Elements(ids), dependencies.Keys);
    GreedyIsLeast(dependencies, ids);
    OrderedIsAcyclic(dependencies, ids);
    return Order(order);
  }

  lemma NoDependencies(g: Graph, p: PluginId)
    requires p in g
    ensures |g[p] - {}| == |g[p]|
    ensures p in Available(g, {}) <==> |g[p]| == 0
  {
    assert g[p] - {} == g[p];
    assert |g[p]| == 0 <==> g[p] == {};
  }

  lemma InitiallyCounted(g: Graph, indegrees: map<PluginId, nat>, ready: set<PluginId>, last: PluginId)
    requires indegrees.Keys == g.Keys && forall p | p in g :: indegrees[p] == |g[p]|
    requires forall p :: p in ready <==> p in indegrees && indegrees[p] == 0
    ensures Counted(g, indegrees, ready, {}, last, {})
  {
    forall p | p in g
      ensures indegrees[p] == |g[p] - {}| && (p in Available(g, {}) <==> indegrees[p] == 0)
    {
      NoDependencies(g, p);
    }
  }

  lemma SubsetSameSize(a: set<PluginId>, b: set<PluginId>)
    requires a <= b && |a| == |b|
    ensures a == b
  {
    if a != b {
      CardLess(a, b);
    }
  }
}
