/** The target check before a rule may run (internal/storage/cache_execution_eligibility.go). */
module RuleGraph {
  import opened Base
  import opened Strings

  /** Successor lists; a missing key has none. */
  type Graph = map<string, seq<string>>

  function Successors(g: Graph, node: string): seq<string>
  {
    if node in g then g[node] else []
  }

  predicate Edge(g: Graph, a: string, b: string)
  {
    b in Successors(g, a)
  }

  predicate Path(g: Graph, p: seq<string>)
  {
    forall i | 0 <= i < |p| - 1 :: Edge(g, p[i], p[i + 1])
  }

  ghost predicate Cyclic(g: Graph)
  {
    exists p: seq<string> :: |p| >= 2 && p[0] == p[|p| - 1] && Path(g, p)
  }

  function Nodes(g: Graph): set<string>
  {
    g.Keys + set a, b | a in g && b in g[a] :: b
  }

  // --- finishing orders -----------------------------------------------------------------

  /** Every successor of a listed node is listed before it. */
  ghost predicate Ordered(g: Graph, order: seq<string>)
  {
    forall i, b | 0 <= i < |order| && Edge(g, order[i], b) :: b in order[..i]
  }

  /** The first place of a listed node. */
  function Rank(order: seq<string>, node: string): (i: nat)
    requires node in order
    ensures i < |order| && order[i] == node && node !in order[..i]
  {
    if order[0] == node then 0
    else
      var i := Rank(order[1..], node);
      assert order[..i + 1] == [order[0]] + order[1..][..i];
      i + 1
  }

  lemma RankFalls(g: Graph, order: seq<string>, a: string, b: string)
    requires Ordered(g, order) && a in order && Edge(g, a, b)
    ensures b in order && Rank(order, b) < Rank(order, a)
  {
    var i := Rank(order, a);
    assert b in order[..i];
    var k :| 0 <= k < i && order[k] == b;
    assert forall m | 0 <= m < Rank(order, b) :: order[m] == order[..Rank(order, b)][m];
  }

  lemma {:induction false} PathFalls(g: Graph, order: seq<string>, p: seq<string>)
    requires Ordered(g, order) && |p| >= 2 && Path(g, p) && p[0] in order
    ensures p[|p| - 1] in order && Rank(order, p[|p| - 1]) < Rank(order, p[0])
  {
    assert Edge(g, p[0], p[1]);
    RankFalls(g, order, p[0], p[1]);
    if |p| > 2 {
      forall i | 0 <= i < |p[1..]| - 1 ensures Edge(g, p[1..][i], p[1..][i + 1]) {
        assert Edge(g, p[i + 1], p[i + 1 + 1]);
      }
      PathFalls(g, order, p[1..]);
    }
  }

  lemma OrderedIsAcyclic(g: Graph, order: seq<string>)
    requires Ordered(g, order) && forall n | n in g :: n in order
    ensures !Cyclic(g)
  {
    if Cyclic(g) {
      var p :| |p| >= 2 && p[0] == p[|p| - 1] && Path(g, p);
      assert Edge(g, p[0], p[1]);
      PathFalls(g, order, p);
    }
  }

  /** A step from the end of a path back into it closes a cycle. */
  lemma Closes(g: Graph, path: seq<string>, node: string)
    requires Path(g, path) && path != [] && node in path && Edge(g, path[|path| - 1], node)
    ensures Cyclic(g)
  {
    var k :| 0 <= k < |path| && path[k] == node;
    var p := path[k..] + [node];
    forall i | 0 <= i < |p| - 1 ensures Edge(g, p[i], p[i + 1]) {
      if i < |path| - k - 1 {
        assert p[i] == path[k + i] && p[i + 1] == path[k + i + 1];
      }
    }
    assert p[0] == node && p[|p| - 1] == node;
  }

  lemma PathExtends(g: Graph, path: seq<string>, node: string)
    requires Path(g, path) && (path != [] ==> Edge(g, path[|path| - 1], node))
    ensures Path(g, path + [node]) && Elements(path + [node]) == Elements(path) + {node}
  {
    hide Edge;
    var p := path + [node];
    forall i | 0 <= i < |p| - 1 ensures Edge(g, p[i], p[i + 1]) {
      if i < |path| - 1 {
        assert Edge(g, path[i], path[i + 1]);
      }
    }
  }

  lemma OrderExtends(g: Graph, order: seq<string>, node: string)
    requires Ordered(g, order) && forall b | b in Successors(g, node) :: b in order
    ensures Ordered(g, order + [node]) && Elements(order + [node]) == Elements(order) + {node}
  {
    var after := order + [node];
    forall i, b | 0 <= i < |after| && Edge(g, after[i], b) ensures b in after[..i] {
      assert after[..|order|] == order;
      if i < |order| {
        assert after[..i] == order[..i];
      }
    }
  }

  /** The visited set is a finishing order, the active set a path of calls. */
  ghost predicate Sound(g: Graph, visited: set<string>, active: set<string>, order: seq<string>, path: seq<string>)
  {
    visited == Elements(order) && active == Elements(path) && Ordered(g, order) && Path(g, path)
  }

  lemma Entered(g: Graph, visited: set<string>, active: set<string>, order: seq<string>, path: seq<string>, node: string)
    requires Sound(g, visited, active, order, path) && (path != [] ==> Edge(g, path[|path| - 1], node))
    ensures Sound(g, visited, active + {node}, order, path + [node])
  {
    PathExtends(g, path, node);
  }

  lemma Left(g: Graph, visited: set<string>, active: set<string>, order: seq<string>, path: seq<string>, node: string)
    requires Sound(g, visited, active, order, path + [node]) && node !in Elements(path) && Path(g, path)
    requires forall b | b in Successors(g, node) :: b in visited
    ensures Sound(g, visited + {node}, active - {node}, order + [node], path)
  {
    hide Ordered, Path;
    OrderExtends(g, order, node);
  }

  /** The recursive search over its visited and active sets; the ghosts record finishing order and call path. */
  class CycleSearch {
    const graph: Graph
    var visited: set<string>
    var active: set<string>
    ghost var order: seq<string>
    ghost var path: seq<string>

    ghost predicate Valid()
      reads this
    {
      Sound(graph, visited, active, order, path)
    }

    constructor (g: Graph)
      ensures Valid() && graph == g && path == [] && visited == {}
    {
      graph := g;
      visited, active := {}, {};
      order, path := [], [];
    }

    /** True exactly with a cycle at hand; otherwise the node and all it reaches are visited. */
    method Visit(node: string) returns (cycle: bool)
      requires Valid() && node in Nodes(graph)
      requires path != [] ==> Edge(graph, path[|path| - 1], node)
      modifies this
      ensures cycle ==> Cyclic(graph)
      ensures !cycle ==> Valid() && node in visited && path == old(path) && active == old(active) && old(visited) <= visited
      decreases |Nodes(graph) - active|, 0
    {
      if node in active {
        Closes(graph, path, node);
        return true;
      }
      if node in visited {
        return false;
      }
      ghost var caller := path;
      Deeper(graph, active, node);
      Entered(graph, visited, active, order, path, node);
      hide Edge, Ordered, Nodes, Elements, Sound;
      active := active + {node};
      path := path + [node];
      cycle := VisitSuccessors(node);
      if !cycle {
        Left(graph, visited, active, order, caller, node);
        active := active - {node};
        path := caller;
        visited := visited + {node};
        order := order + [node];
      }
    }

    /** The loop over the successors of the node the search is at. */
    method VisitSuccessors(node: string) returns (cycle: bool)
      requires Valid() && path != [] && path[|path| - 1] == node
      modifies this
      ensures cycle ==> Cyclic(graph)
      ensures !cycle ==> Valid() && path == old(path) && active == old(active) && old(visited) <= visited
                         && forall b | b in Successors(graph, node) :: b in visited
      decreases |Nodes(graph) - active|, 1
    {
      hide Edge, Path, Ordered, Nodes, Sound;
      var next := Successors(graph, node);
      for i := 0 to |next|
        invariant Valid() && path == old(path) && active == old(active) && old(visited) <= visited
        invariant forall k | 0 <= k < i :: next[k] in visited
      {
        NextNode(graph, node, next[i]);
        cycle := Visit(next[i]);
        if cycle {
          return true;
        }
      }
      return false;
    }
  }

  lemma Deeper(g: Graph, active: set<string>, node: string)
    requires node in Nodes(g) && node !in active
    ensures |Nodes(g) - (active + {node})| < |Nodes(g) - active|
  {
    hide Nodes;
    Shrinks(Nodes(g) - (active + {node}), Nodes(g) - active);
  }

  lemma NextNode(g: Graph, node: string, next: string)
    requires next in Successors(g, node)
    ensures Edge(g, node, next) && next in Nodes(g)
  {
  }

  lemma Shrinks(a: set<string>, b: set<string>)
    requires a < b
    ensures |a| < |b|
  {
    var x :| x in b && x !in a;
    assert a <= b - {x};
    SubsetSize(a, b - {x});
  }

  /** Every key is visited in turn, in whatever order the map yields them. */
  method HasCycle(g: Graph) returns (cyclic: bool)
    ensures cyclic <==> Cyclic(g)
  {
    var search := new CycleSearch(g);
    var todo := g.Keys;
    while todo != {}
      invariant search.Valid() && search.graph == g && search.path == []
      invariant todo <= g.Keys && g.Keys - todo <= search.visited
      decreases |todo|
    {
      var node :| node in todo;
      var found := search.Visit(node);
      if found {
        return true;
      }
      Shrinks(todo - {node}, todo);
      todo := todo - {node};
    }
    OrderedIsAcyclic(g, search.order);
    return false;
  }

  // --- the eligibility check ---------------------------------------------------------------

  datatype Mode = Direct | CachedInstances | UnknownMode

  datatype Route = Route(source: string, target: string, sourceProvider: string, targetProvider: string)
  {
    function From(): string { sourceProvider + "\0" + source }

    function To(): string { targetProvider + "\0" + target }

    predicate Physical()
    {
      (sourceProvider == "google" ==> !InvalidPhysicalId(source)) && (targetProvider == "google" ==> !InvalidPhysicalId(target))
    }
  }

  /** The rule to run; ready: both ends connected, enabled, readable and writable, and no foreign mapping kind. */
  datatype OwnRule = OwnRule(mode: Mode, route: Route, ready: bool)

  datatype OtherRule = OtherRule(cached: bool, enabled: bool, legacy: bool, copies: bool, route: Route)

  predicate InvalidPhysicalId(id: string)
  {
    id == "" || TrimSpace(id) != id || ToLower(id) == "primary" || '\0' in id
  }

  predicate Relevant(own: OwnRule, other: OtherRule)
  {
    other.enabled || other.legacy || other.copies || (own.mode.Direct? && other.cached)
  }

  /** Two rules, one of them cached, that may write to the same Google calendar. */
  predicate Conflicts(own: OwnRule, other: OtherRule)
  {
    && own.route.targetProvider == "google" && other.route.targetProvider == "google"
    && (own.mode.CachedInstances? || other.cached)
    && (InvalidPhysicalId(own.route.target) || InvalidPhysicalId(other.route.target) || own.route.target == other.route.target)
  }

  predicate OwnReady(own: OwnRule)
  {
    && !own.mode.UnknownMode?
    && (own.mode.CachedInstances? ==>
          && own.ready && own.route.sourceProvider == "google" && own.route.targetProvider == "google"
          && !InvalidPhysicalId(own.route.source) && !InvalidPhysicalId(own.route.target) && own.route.source != own.route.target)
  }

  /** The routes of the relevant other rules, in order. */
  function Routes(own: OwnRule, others: seq<OtherRule>): seq<Route>
  {
    if others == [] then [own.route]
    else
      var last := others[|others| - 1];
      Routes(own, others[..|others| - 1]) + (if Relevant(own, last) then [last.route] else [])
  }

  predicate AnyCached(own: OwnRule, others: seq<OtherRule>)
  {
    own.mode.CachedInstances? || exists i | 0 <= i < |others| :: Relevant(own, others[i]) && others[i].cached
  }

  /** A closed walk along relevant rules: each route starts where the one before it ends. */
  ghost predicate RouteCycle(routes: seq<Route>)
  {
    exists p: seq<string> :: |p| >= 2 && p[0] == p[|p| - 1]
      && forall i | 0 <= i < |p| - 1 :: Leads(routes, p[i], p[i + 1])
  }

  predicate Leads(routes: seq<Route>, a: string, b: string)
  {
    exists r | 0 <= r < |routes| :: routes[r].From() == a && routes[r].To() == b
  }

  /** What the check promises: no ambiguous or shared target, and with cached rules no cycle of routes. */
  ghost predicate Eligible(own: OwnRule, others: seq<OtherRule>)
  {
    && OwnReady(own)
    && (forall i | 0 <= i < |others| :: Relevant(own, others[i]) ==> !Conflicts(own, others[i]))
    && (AnyCached(own, others) ==>
          && (forall r | 0 <= r < |Routes(own, others)| :: Routes(own, others)[r].Physical())
          && !RouteCycle(Routes(own, others)))
  }

  ghost predicate GraphOf(g: Graph, routes: seq<Route>)
  {
    forall a, b :: Edge(g, a, b) <==> Leads(routes, a, b)
  }

  lemma SameCycles(g: Graph, routes: seq<Route>)
    requires GraphOf(g, routes)
    ensures Cyclic(g) <==> RouteCycle(routes)
  {
    hide Leads, Edge;
    if Cyclic(g) {
      var p: seq<string> :| |p| >= 2 && p[0] == p[|p| - 1] && Path(g, p);
      assert forall i | 0 <= i < |p| - 1 :: Edge(g, p[i], p[i + 1]) && Leads(routes, p[i], p[i + 1]);
    }
    if RouteCycle(routes) {
      var p: seq<string> :| |p| >= 2 && p[0] == p[|p| - 1] && forall i | 0 <= i < |p| - 1 :: Leads(routes, p[i], p[i + 1]);
      assert Path(g, p);
    }
  }

  lemma LeadsMore(routes: seq<Route>, i: nat)
    requires i < |routes|
    ensures forall a, b :: Leads(routes[..i + 1], a, b) <==> Leads(routes[..i], a, b) || (a == routes[i].From() && b == routes[i].To())
  {
    assert routes[..i + 1] == routes[..i] + [routes[i]];
    forall a, b ensures Leads(routes[..i + 1], a, b) <==> Leads(routes[..i], a, b) || (a == routes[i].From() && b == routes[i].To()) {
      if Leads(routes[..i], a, b) {
        var r :| 0 <= r < i && routes[..i][r].From() == a && routes[..i][r].To() == b;
        assert routes[..i + 1][r] == routes[..i][r];
      }
      if a == routes[i].From() && b == routes[i].To() {
        assert routes[..i + 1][i] == routes[i];
      }
    }
  }

  lemma EdgeAdded(g: Graph, from: string, to: string)
    ensures var after := g[from := Successors(g, from) + [to]];
            forall a, b :: Edge(after, a, b) <==> Edge(g, a, b) || (a == from && b == to)
  {
  }

  /** The successor lists, filled route by route; a route without a physical Google ID stops the search. */
  method BuildGraph(routes: seq<Route>) returns (ok: bool, g: Graph)
    ensures ok <==> forall r | 0 <= r < |routes| :: routes[r].Physical()
    ensures ok ==> GraphOf(g, routes)
  {
    g := map[];
    for i := 0 to |routes|
      invariant forall r | 0 <= r < i :: routes[r].Physical()
      invariant GraphOf(g, routes[..i])
    {
      if !routes[i].Physical() {
        return false, g;
      }
      LeadsMore(routes, i);
      EdgeAdded(g, routes[i].From(), routes[i].To());
      hide Leads, Edge;
      g := g[routes[i].From() := Successors(g, routes[i].From()) + [routes[i].To()]];
    }
    assert routes[..|routes|] == routes;
    return true, g;
  }

  /** CheckSyncTargetEligibility. */
  method CheckSyncTargetEligibility(own: OwnRule, others: seq<OtherRule>) returns (ok: bool)
    ensures ok <==> Eligible(own, others)
  {
    hide Conflicts, InvalidPhysicalId, RouteCycle, Cyclic;
    if !OwnReady(own) {
      return false;
    }
    var routes, cached := [own.route], own.mode.CachedInstances?;
    assert others[..0] == [];
    for i := 0 to |others|
      invariant forall k | 0 <= k < i :: Relevant(own, others[k]) ==> !Conflicts(own, others[k])
      invariant routes == Routes(own, others[..i]) && cached == AnyCached(own, others[..i])
    {
      assert others[..i + 1][..i] == others[..i];
      CachedMore(own, others, i);
      hide AnyCached;
      if Relevant(own, others[i]) {
        cached := cached || others[i].cached;
        routes := routes + [others[i].route];
        if Conflicts(own, others[i]) {
          return false;
        }
      }
    }
    assert others[..|others|] == others;
    if !cached {
      return true;
    }
    var physical, g := BuildGraph(routes);
    if !physical {
      return false;
    }
    SameCycles(g, routes);
    var cyclic := HasCycle(g);
    return !cyclic;
  }

  lemma CachedMore(own: OwnRule, others: seq<OtherRule>, i: nat)
    requires i < |others|
    ensures AnyCached(own, others[..i + 1]) <==> AnyCached(own, others[..i]) || (Relevant(own, others[i]) && others[i].cached)
  {
    hide Relevant;
    var before, after := others[..i], others[..i + 1];
    assert after[i] == others[i] && forall k | 0 <= k < i :: after[k] == before[k];
    if exists k | 0 <= k < |before| :: Relevant(own, before[k]) && before[k].cached {
      var k :| 0 <= k < |before| && Relevant(own, before[k]) && before[k].cached;
      assert Relevant(own, after[k]) && after[k].cached;
    }
  }

  // --- what eligibility gives -----------------------------------------------------------------------

  /** A rule that runs, has written before, or is cached while the asking rule is not. */
  predicate Counts(own: OwnRule, other: OtherRule)
  {
    other.enabled || other.legacy || other.copies || (own.mode.Direct? && other.cached)
  }

  /** A written-out Google calendar ID: not empty, without blanks around it, not the alias of the primary calendar. */
  predicate Named(id: string)
  {
    id != "" && TrimSpace(id) == id && ToLower(id) != "primary" && '\0' !in id
  }

  /**
   * An eligible rule shares its Google target with no rule that counts if either of the two is cached, and both
   * targets are written out. A cached one is ready, between two different written-out Google calendars.
   */
  lemma TargetsApart(own: OwnRule, others: seq<OtherRule>)
    requires Eligible(own, others)
    ensures own.mode.CachedInstances? ==>
              && own.ready && own.route.sourceProvider == own.route.targetProvider == "google"
              && Named(own.route.source) && Named(own.route.target) && own.route.source != own.route.target
    ensures forall i | 0 <= i < |others| && Counts(own, others[i]) && (own.mode.CachedInstances? || others[i].cached)
                       && own.route.targetProvider == others[i].route.targetProvider == "google" ::
              Named(own.route.target) && Named(others[i].route.target) && own.route.target != others[i].route.target
  {
  }

  /** A step of some rule: its own route, or that of a rule that counts. */
  predicate Carried(own: OwnRule, others: seq<OtherRule>, a: string, b: string)
  {
    || (own.route.From() == a && own.route.To() == b)
    || exists i | 0 <= i < |others| :: Counts(own, others[i]) && others[i].route.From() == a && others[i].route.To() == b
  }

  lemma LeadsAppended(routes: seq<Route>, last: Route, a: string, b: string)
    ensures Leads(routes + [last], a, b) <==> Leads(routes, a, b) || (last.From() == a && last.To() == b)
  {
    var all := routes + [last];
    assert all[..|routes|] == routes && all[..|routes| + 1] == all;
    LeadsMore(all, |routes|);
  }

  lemma {:induction false} RoutesLead(own: OwnRule, others: seq<OtherRule>, a: string, b: string)
    ensures Leads(Routes(own, others), a, b) <==> Carried(own, others, a, b)
  {
    if others == [] {
      assert Routes(own, others)[0] == own.route;
    } else {
      var n := |others| - 1;
      RoutesLead(own, others[..n], a, b);
      if Relevant(own, others[n]) {
        LeadsAppended(Routes(own, others[..n]), others[n].route, a, b);
      } else {
        assert Routes(own, others) == Routes(own, others[..n]);
      }
      hide Leads;
      assert forall i | 0 <= i < n :: others[..n][i] == others[i];
    }
  }

  /** With a cached rule about, no event can travel from a calendar along rules that count and come back to it. */
  lemma NoFeedback(own: OwnRule, others: seq<OtherRule>, p: seq<string>)
    requires Eligible(own, others)
    requires own.mode.CachedInstances? || exists i | 0 <= i < |others| :: Counts(own, others[i]) && others[i].cached
    requires |p| >= 2 && forall i | 0 <= i < |p| - 1 :: Carried(own, others, p[i], p[i + 1])
    ensures p[0] != p[|p| - 1]
  {
    forall i | 0 <= i < |p| - 1 ensures Leads(Routes(own, others), p[i], p[i + 1]) {
      RoutesLead(own, others, p[i], p[i + 1]);
    }
    if i :| 0 <= i < |others| && Counts(own, others[i]) && others[i].cached {
      assert Relevant(own, others[i]) && others[i].cached;
    }
    assert AnyCached(own, others);
    hide Leads, Carried;
  }
}
