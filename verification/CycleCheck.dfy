/** The depth-first searches of the specification validator: dependency cycles between invariants, and supersession
    cycles between decision records. */
module CycleCheck {
  type Node = string

  /** The successors of each known id, in order; ids that are not keys are unknown and not followed. */
  type Graph = map<Node, seq<Node>>

  // Paths and cycles -------------------------------------------------------------------------------------------

  function NodesOf(p: seq<Node>): set<Node> { set i | 0 <= i < |p| :: p[i] }

  predicate Edge(g: Graph, u: Node, v: Node) { u in g && v in g[u] && v in g }

  predicate IsPath(g: Graph, p: seq<Node>) {
    && (forall i :: 0 <= i < |p| ==> p[i] in g)
    && (forall i :: 0 < i < |p| ==> Edge(g, p[i - 1], p[i]))
  }

  /** A closed path of at least one edge, among known ids. */
  predicate IsCycle(g: Graph, p: seq<Node>) { |p| >= 2 && IsPath(g, p) && p[0] == p[|p| - 1] }

  ghost predicate OnCycle(g: Graph, n: Node) { exists p :: IsCycle(g, p) && p[0] == n }

  ghost predicate HasCycle(g: Graph) { exists p :: IsCycle(g, p) }

  /** Every successor of a listed node is listed before it. */
  ghost predicate Ranked(g: Graph, order: seq<Node>) {
    forall i, v :: 0 <= i < |order| && Edge(g, order[i], v) ==> v in order[..i]
  }

  function Rank(order: seq<Node>, n: Node): (r: nat)
    requires n in order
    ensures r < |order| && order[r] == n && n !in order[..r]
  {
    if order[0] == n then 0 else 1 + Rank(order[1..], n)
  }

  lemma {:induction false} RankIsFirst(order: seq<Node>, j: nat)
    requires j < |order|
    ensures Rank(order, order[j]) <= j
  {
    if order[0] != order[j] { RankIsFirst(order[1..], j - 1); }
  }

  /** A path through ranked nodes goes strictly down. */
  lemma {:induction false} PathsGoDown(g: Graph, order: seq<Node>, p: seq<Node>, k: nat)
    requires Ranked(g, order) && IsPath(g, p) && k < |p| && forall n :: n in g ==> n in order
    ensures Rank(order, p[k]) + k <= Rank(order, p[0])
  {
    if k > 0 {
      PathsGoDown(g, order, p, k - 1);
      assert Edge(g, p[k - 1], p[k]);
      var i := Rank(order, p[k - 1]);
      assert p[k] in order[..i];
      var j :| 0 <= j < i && order[j] == p[k];
      RankIsFirst(order, j);
    }
  }

  lemma RankedHasNoCycle(g: Graph, order: seq<Node>)
    requires Ranked(g, order) && forall n :: n in g ==> n in order
    ensures !HasCycle(g)
  {
    forall p | IsCycle(g, p) ensures false { PathsGoDown(g, order, p, |p| - 1); }
  }

  /** Meeting a node of the current path closes a cycle through it. */
  lemma PathCloses(g: Graph, path: seq<Node>, node: Node)
    requires IsPath(g, path) && node in NodesOf(path) && (path != [] ==> Edge(g, path[|path| - 1], node))
    ensures OnCycle(g, node)
  {
    var i :| 0 <= i < |path| && path[i] == node;
    var p := path[i..] + [node];
    forall k | 0 < k < |p| ensures Edge(g, p[k - 1], p[k]) {
      if k < |p| - 1 { assert p[k - 1] == path[i + k - 1] && p[k] == path[i + k]; }
    }
    assert IsCycle(g, p);
  }

  lemma PathExtends(g: Graph, path: seq<Node>, node: Node)
    requires IsPath(g, path) && node in g && (path != [] ==> Edge(g, path[|path| - 1], node))
    ensures IsPath(g, path + [node]) && NodesOf(path + [node]) == NodesOf(path) + {node}
  {
    var p := path + [node];
    forall i | 0 < i < |p| ensures Edge(g, p[i - 1], p[i]) {
      if i < |path| { assert Edge(g, path[i - 1], path[i]); }
    }
    forall n | n in NodesOf(path) + {node} ensures n in NodesOf(p) {
      if n == node {
        assert p[|path|] == n;
      } else {
        var i :| 0 <= i < |path| && path[i] == n;
        assert p[i] == n;
      }
    }
  }

  lemma EdgeTo(g: Graph, u: Node, i: nat)
    requires u in g && i < |g[u]| && g[u][i] in g
    ensures Edge(g, u, g[u][i])
  {
  }

  lemma AllFollowed(g: Graph, u: Node, seen: set<Node>)
    requires u in g && forall i :: 0 <= i < |g[u]| && g[u][i] in g ==> g[u][i] in seen
    ensures forall v :: Edge(g, u, v) ==> v in seen
  {
  }

  predicate Single(g: Graph) { forall n :: n in g ==> |g[n]| == 1 }

  lemma OnlySuccessor(g: Graph, node: Node)
    requires Single(g) && node in g
    ensures |g[node]| == 1
  {
  }

  // The search -------------------------------------------------------------------------------------------------

  class Search {
    const graph: Graph
    var visiting: set<Node>
    var visited: set<Node>
    var errors: seq<Node>
    /** visited nodes in the order they were finished */
    ghost var order: seq<Node>

    constructor (graph: Graph)
      ensures this.graph == graph && Valid([]) && errors == [] && visited == {}
    {
      this.graph := graph;
      visiting, visited, errors, order := {}, {}, [], [];
    }

    /** The nodes being visited form the current path; reported nodes lie on cycles; without a report the finished
        nodes are ranked. */
    ghost predicate Valid(path: seq<Node>)
      reads this
    {
      && IsPath(graph, path) && NodesOf(path) == visiting
      && visiting !! visited && visited <= graph.Keys && NodesOf(order) == visited
      && (forall n :: n in errors ==> OnCycle(graph, n))
      && (errors == [] ==> Ranked(graph, order))
    }

    /** Nodes neither being visited nor finished. */
    ghost function Unseen(): set<Node>
      reads this
    {
      graph.Keys - visiting - visited
    }

    /** Starts visiting a node that is neither on the path nor finished. */
    method Enter(node: Node, ghost path: seq<Node>)
      requires Valid(path) && node in graph && (path != [] ==> Edge(graph, path[|path| - 1], node))
      requires node !in visiting && node !in visited
      modifies this`visiting
      ensures Valid(path + [node]) && visiting == old(visiting) + {node} && node !in NodesOf(path)
      ensures Unseen() < old(Unseen())
    {
      visiting := visiting + {node};
      PathExtends(graph, path, node);
      assert node in old(Unseen()) && node !in Unseen();
    }

    /** Reports a node of the current path that is met again. */
    method Report(node: Node, ghost path: seq<Node>)
      requires Valid(path) && node in visiting && (path != [] ==> Edge(graph, path[|path| - 1], node))
      modifies this`errors
      ensures Valid(path) && errors == old(errors) + [node]
    {
      hide IsPath, NodesOf, Ranked, OnCycle, Edge;
      PathCloses(graph, path, node);
      errors := errors + [node];
    }

    /** The nested function `visit`. */
    method Visit(node: Node, ghost path: seq<Node>)
      requires Valid(path) && node in graph && (path != [] ==> Edge(graph, path[|path| - 1], node))
      modifies this
      ensures Valid(path) && visiting == old(visiting) && old(visited) <= visited && old(errors) <= errors
      ensures Unseen() <= old(Unseen())
      ensures node in visiting || node in visited
      ensures errors == [] ==> node in visited
      decreases |Unseen()|
    {
      hide Valid, NodesOf, Edge;
      if node in visiting {
        Report(node, path);
        return;
      }
      if node in visited { return; }
      ghost var inner := path + [node];
      Enter(node, path);
      LastOfExtended(path, node);
      var children := graph[node];
      var i := 0;
      while i < |children|
        invariant 0 <= i <= |children| && Valid(inner) && visiting == old(visiting) + {node}
        invariant old(visited) <= visited && old(errors) <= errors && Unseen() < old(Unseen())
        invariant errors == [] ==> forall j :: 0 <= j < i && children[j] in graph ==> children[j] in visited
      {
        var child := children[i];
        if child in graph {
          EdgeTo(graph, node, i);
          SmallerSet(Unseen(), old(Unseen()));
          Visit(child, inner);
        }
        i := i + 1;
      }
      if errors == [] { AllFollowed(graph, node, visited); }
      Finish(node, path);
    }

    /** Leaves a node whose successors have all been followed. */
    method Finish(node: Node, ghost path: seq<Node>)
      requires Valid(path + [node]) && node !in NodesOf(path)
      requires errors == [] ==> forall v :: Edge(graph, node, v) ==> v in visited
      modifies this`visiting, this`visited, this`order
      ensures Valid(path) && visiting == old(visiting) - {node} && visited == old(visited) + {node}
    {
      ghost var inner := path + [node];
      assert inner[|path|] == node && node in visiting;
      assert NodesOf(path) == visiting - {node} by {
        forall n | n in NodesOf(path) ensures n in NodesOf(inner) {
          var i :| 0 <= i < |path| && path[i] == n;
          assert inner[i] == n;
        }
      }
      visiting := visiting - {node};
      visited := visited + {node};
      order := order + [node];
      assert NodesOf(order) == visited by {
        assert forall i :: 0 <= i < |old(order)| ==> order[i] == old(order)[i];
        assert order[|old(order)|] == node;
      }
      assert IsPath(graph, path) by {
        forall i | 0 < i < |path| ensures Edge(graph, path[i - 1], path[i]) { assert Edge(graph, inner[i - 1], inner[i]); }
        forall i | 0 <= i < |path| ensures path[i] in graph { assert inner[i] in graph; }
      }
      if errors == [] {
        forall i, v | 0 <= i < |order| && Edge(graph, order[i], v) ensures v in order[..i] {
          assert order[..|old(order)|] == old(order);
          if i < |old(order)| { assert order[..i] == old(order)[..i]; } else { assert v in NodesOf(old(order)); }
        }
      }
    }

    /** The nested function `visit_adr`, where every node has one successor. */
    method VisitAdr(node: Node, ghost path: seq<Node>)
      requires Valid(path) && node in graph && (path != [] ==> Edge(graph, path[|path| - 1], node))
      requires Single(graph)
      modifies this
      ensures Valid(path) && visiting == old(visiting) && old(visited) <= visited && old(errors) <= errors
      ensures Unseen() <= old(Unseen())
      ensures node in visiting || node in visited
      ensures errors == [] ==> node in visited
      decreases |Unseen()|
    {
      hide Valid, NodesOf, Single, Edge;
      if node in visiting {
        Report(node, path);
        return;
      }
      if node in visited { return; }
      OnlySuccessor(graph, node);
      Enter(node, path);
      ghost var inner := path + [node];
      LastOfExtended(path, node);
      var replacement := graph[node][0];
      if replacement in graph {
        EdgeTo(graph, node, 0);
        SmallerSet(Unseen(), old(Unseen()));
        VisitAdr(replacement, inner);
      }
      if errors == [] { AllFollowed(graph, node, visited); }
      Finish(node, path);
    }

    lemma LastOfExtended(path: seq<Node>, node: Node)
      ensures var inner := path + [node]; inner != [] && inner[|inner| - 1] == node
    {
    }

    lemma SmallerSet(a: set<Node>, b: set<Node>)
      requires a < b
      ensures |a| < |b|
    {
      assert |b - a| == |b| - |a|;
      assert b - a != {};
    }
  }

  // The two checks ---------------------------------------------------------------------------------------------

  /** The check of invariant dependencies: reports something exactly when there is a cycle among known ids, and only
      nodes that lie on one. */
  method CheckDependencies(graph: Graph) returns (errors: set<Node>)
    ensures errors != {} <==> HasCycle(graph)
    ensures forall n :: n in errors ==> OnCycle(graph, n)
  {
    var search := new Search(graph);
    var rest := graph.Keys;
    while rest != {}
      invariant rest <= graph.Keys && search.graph == graph && fresh(search)
      invariant search.Valid([]) && (search.errors == [] ==> graph.Keys - rest <= search.visited)
      decreases |rest|
    {
      var node :| node in rest;
      search.Visit(node, []);
      rest := rest - {node};
    }
    errors := Reported(search);
  }

  /** The check of decision records: a record may be superseded by one other. */
  method CheckSupersession(replacements: map<Node, Node>) returns (errors: set<Node>)
    ensures errors != {} <==> HasCycle(Singly(replacements))
    ensures forall n :: n in errors ==> OnCycle(Singly(replacements), n)
  {
    var graph := Singly(replacements);
    var search := new Search(graph);
    var rest := graph.Keys;
    while rest != {}
      invariant rest <= graph.Keys && search.graph == graph && fresh(search)
      invariant search.Valid([]) && (search.errors == [] ==> graph.Keys - rest <= search.visited)
      decreases |rest|
    {
      var node :| node in rest;
      search.VisitAdr(node, []);
      rest := rest - {node};
    }
    errors := Reported(search);
  }

  function Singly(replacements: map<Node, Node>): Graph { map n | n in replacements :: [replacements[n]] }

  /** `set(errors)` at the end of a search that has visited everything. */
  method Reported(search: Search) returns (errors: set<Node>)
    requires search.Valid([]) && (search.errors == [] ==> search.graph.Keys <= search.visited)
    ensures errors != {} <==> HasCycle(search.graph)
    ensures forall n :: n in errors ==> OnCycle(search.graph, n)
  {
    errors := set n | n in search.errors;
    if search.errors == [] {
      assert forall n :: n in search.graph ==> n in NodesOf(search.order);
      RankedHasNoCycle(search.graph, search.order);
    } else {
      assert search.errors[0] in errors && OnCycle(search.graph, search.errors[0]);
    }
  }
}
