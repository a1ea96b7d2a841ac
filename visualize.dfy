/**
 * The graph-building part of visualize.py: its own copy of the dependency
 * walk, and add_edges, which turns the nested dictionary into the edges of a
 * directed graph.
 */
module Visualize {
  import opened Generate

  type Edge = (string, string)  // (parent, child)

  /** visualize.py's extract_hierarchy, written out again as that file does. */
  function ExtractHierarchy(taskId: string, taskDict: map<string, TaskEntry>, depth: int, currentLevel: int): Hierarchy
    decreases depth - currentLevel
  {
    if currentLevel < depth && HasDependencies(taskDict, taskId) then
      var dependencies := taskDict[taskId].dependencies;
      Hierarchy(map[taskId := Hierarchy(
        map dep | dep in dependencies.Values :: ExtractHierarchy(dep, taskDict, depth, currentLevel + 1))])
    else
      Empty
  }

  /** The two copies of extract_hierarchy agree on every input. */
  lemma {:induction false} SameAsGenerate(taskId: string, taskDict: map<string, TaskEntry>, depth: int, currentLevel: int)
    ensures ExtractHierarchy(taskId, taskDict, depth, currentLevel)
         == Generate.ExtractHierarchy(taskId, taskDict, depth, currentLevel)
    decreases depth - currentLevel
  {
    if currentLevel < depth && HasDependencies(taskDict, taskId) {
      var dependencies := taskDict[taskId].dependencies;
      var mine := map dep | dep in dependencies.Values :: ExtractHierarchy(dep, taskDict, depth, currentLevel + 1);
      var theirs := map dep | dep in dependencies.Values :: Generate.ExtractHierarchy(dep, taskDict, depth, currentLevel + 1);
      forall dep | dep in dependencies.Values
        ensures mine[dep] == theirs[dep]
      {
        SameAsGenerate(dep, taskDict, depth, currentLevel + 1);
      }
      assert mine == theirs;
    }
  }

  /** The edges add_edges puts in for a tree: every (parent, child) pair at every level. */
  ghost function TreeEdges(tree: Hierarchy): set<Edge>
    decreases tree, 1
  {
    set p, e | p in tree.entries && e in ChildEdges(p, tree.entries[p]) :: e
  }

  /** The edges contributed by one parent: one per child, plus those under each child. */
  ghost function ChildEdges(parent: string, children: Hierarchy): set<Edge>
    decreases children, 0
  {
    (set c | c in children.entries :: (parent, c)) +
    (set c, e | c in children.entries && e in TreeEdges(children.entries[c]) :: e)
  }

  /** The edges under the parents in `done`, all of them keys of `tree`. */
  ghost function EdgesOfParents(tree: Hierarchy, done: set<string>): set<Edge>
    requires done <= tree.entries.Keys
  {
    set p, e | p in done && e in ChildEdges(p, tree.entries[p]) :: e
  }

  /** The edges from `parent` to the children in `done` and below them. */
  ghost function EdgesOfChildren(parent: string, children: Hierarchy, done: set<string>): set<Edge>
    requires done <= children.entries.Keys
  {
    (set c | c in done :: (parent, c)) +
    (set c, e | c in done && e in TreeEdges(children.entries[c]) :: e)
  }

  /** Both endpoints of every edge in `es`. */
  ghost function Ends(es: set<Edge>): set<string> {
    (set e | e in es :: e.0) + (set e | e in es :: e.1)
  }

  /** Adding one edge and a subtree's edges adds both endpoints and the subtree's endpoints. */
  lemma EndsEdgeStep(before: set<Edge>, parent: string, child: string, below: set<Edge>)
    ensures Ends(before + {(parent, child)} + below) == Ends(before) + {parent, child} + Ends(below)
  {
    EndsUnion(before + {(parent, child)}, below);
    EndsUnion(before, {(parent, child)});
    assert Ends({(parent, child)}) == {parent, child};
  }

  /** The endpoints of a union are the endpoints of each part. */
  lemma EndsUnion(a: set<Edge>, b: set<Edge>)
    ensures Ends(a + b) == Ends(a) + Ends(b)
  {
  }

  /** A directed graph, kept as its node and edge sets (a networkx DiGraph without attributes). */
  class DiGraph {
    var nodes: set<string>
    var edges: set<Edge>

    constructor ()
      ensures nodes == {} && edges == {}
    {
      nodes, edges := {}, {};
    }

    /** add_edge: adds both endpoints and the edge; adding it again changes nothing. */
    method AddEdge(u: string, v: string)
      modifies this
      ensures nodes == old(nodes) + {u, v}
      ensures edges == old(edges) + {(u, v)}
    {
      nodes := nodes + {u, v};
      edges := edges + {(u, v)};
    }
  }

  /**
   * add_edges(graph, tree): for each parent key of the tree, adds the edges
   * to its children (AddChildEdges, the inner loop). Edges are only ever added.
   */
  method AddEdges(graph: DiGraph, tree: Hierarchy)
    modifies graph
    ensures graph.nodes == old(graph.nodes) + Ends(TreeEdges(tree))
    ensures graph.edges == old(graph.edges) + TreeEdges(tree)
    decreases tree, 1
  {
    var parents := tree.entries.Keys;
    ghost var done: set<string> := {};
    while parents != {}
      invariant parents + done == tree.entries.Keys && parents !! done
      invariant graph.nodes == old(graph.nodes) + Ends(EdgesOfParents(tree, done))
      invariant graph.edges == old(graph.edges) + EdgesOfParents(tree, done)
      decreases parents
    {
      var parent :| parent in parents;
      AddChildEdges(graph, parent, tree.entries[parent]);
      EdgesOfParentsStep(tree, done, parent);
      EndsUnion(EdgesOfParents(tree, done), ChildEdges(parent, tree.entries[parent]));
      parents := parents - {parent};
      done := done + {parent};
    }
    assert EdgesOfParents(tree, done) == TreeEdges(tree);
  }

  /**
   * The inner loop of add_edges for one parent: for each child, adds the edge
   * (parent, child) and recurses into the child's subtree.
   */
  method AddChildEdges(graph: DiGraph, parent: string, children: Hierarchy)
    modifies graph
    ensures graph.nodes == old(graph.nodes) + Ends(ChildEdges(parent, children))
    ensures graph.edges == old(graph.edges) + ChildEdges(parent, children)
    decreases children, 0
  {
    var pending := children.entries.Keys;
    ghost var visited: set<string> := {};
    while pending != {}
      invariant pending + visited == children.entries.Keys && pending !! visited
      invariant graph.nodes == old(graph.nodes) + Ends(EdgesOfChildren(parent, children, visited))
      invariant graph.edges == old(graph.edges) + EdgesOfChildren(parent, children, visited)
      decreases pending
    {
      var child :| child in pending;
      ghost var before := EdgesOfChildren(parent, children, visited);
      ghost var below := TreeEdges(children.entries[child]);
      graph.AddEdge(parent, child);
      AddEdges(graph, children.entries[child]);
      EdgesOfChildrenStep(parent, children, visited, child);
      EndsEdgeStep(before, parent, child, below);
      pending := pending - {child};
      visited := visited + {child};
    }
    assert EdgesOfChildren(parent, children, visited) == ChildEdges(parent, children);
  }

  lemma EdgesOfParentsStep(tree: Hierarchy, done: set<string>, parent: string)
    requires done <= tree.entries.Keys && parent in tree.entries
    ensures EdgesOfParents(tree, done + {parent})
         == EdgesOfParents(tree, done) + ChildEdges(parent, tree.entries[parent])
  {
  }

  lemma EdgesOfChildrenStep(parent: string, children: Hierarchy, visited: set<string>, child: string)
    requires visited <= children.entries.Keys && child in children.entries
    ensures EdgesOfChildren(parent, children, visited + {child})
         == EdgesOfChildren(parent, children, visited) + {(parent, child)} + TreeEdges(children.entries[child])
  {
  }

  /** An empty tree contributes no edges. */
  lemma EmptyTreeNoEdges()
    ensures TreeEdges(Empty) == {}
  {
  }

  /** The edges add_edges puts in for the walk from `taskId`. */
  ghost function WalkEdges(taskId: string, taskDict: map<string, TaskEntry>, depth: int, currentLevel: int): set<Edge> {
    TreeEdges(ExtractHierarchy(taskId, taskDict, depth, currentLevel))
  }

  /** The edges of the walks from each id in `deps`, all at the same level. */
  ghost function DependencyEdges(deps: set<string>, taskDict: map<string, TaskEntry>, depth: int, level: int): set<Edge> {
    set d, e | d in deps && e in WalkEdges(d, taskDict, depth, level) :: e
  }

  /**
   * The edges of a walk's tree are the edges from its root to each dependency
   * together with the edges of each dependency's own walk one level down.
   */
  lemma ExtractedTreeEdges(taskId: string, taskDict: map<string, TaskEntry>, depth: int, currentLevel: int)
    requires currentLevel < depth && HasDependencies(taskDict, taskId)
    ensures var deps := taskDict[taskId].dependencies.Values;
      WalkEdges(taskId, taskDict, depth, currentLevel)
      == (set d | d in deps :: (taskId, d)) + DependencyEdges(deps, taskDict, depth, currentLevel + 1)
  {
    var deps := taskDict[taskId].dependencies.Values;
    var r := ExtractHierarchy(taskId, taskDict, depth, currentLevel);
    var inner := r.entries[taskId];
    assert r.entries.Keys == {taskId};
    assert TreeEdges(r) == ChildEdges(taskId, inner);
    assert inner.entries.Keys == deps;
    forall d | d in deps
      ensures TreeEdges(inner.entries[d]) == WalkEdges(d, taskDict, depth, currentLevel + 1)
    {
      assert inner.entries[d] == ExtractHierarchy(d, taskDict, depth, currentLevel + 1);
    }
  }

  /** On a walk's tree, every edge (p, c) has c among the dependency ids of p. */
  lemma {:induction false} EdgesFollowDependencies(taskId: string, taskDict: map<string, TaskEntry>, depth: int, currentLevel: int)
    ensures forall e | e in WalkEdges(taskId, taskDict, depth, currentLevel) ::
      HasDependencies(taskDict, e.0) && e.1 in taskDict[e.0].dependencies.Values
    decreases depth - currentLevel
  {
    if currentLevel < depth && HasDependencies(taskDict, taskId) {
      ExtractedTreeEdges(taskId, taskDict, depth, currentLevel);
      var deps := taskDict[taskId].dependencies.Values;
      forall d | d in deps
        ensures forall e | e in WalkEdges(d, taskDict, depth, currentLevel + 1) ::
          HasDependencies(taskDict, e.0) && e.1 in taskDict[e.0].dependencies.Values
      {
        EdgesFollowDependencies(d, taskDict, depth, currentLevel + 1);
      }
    }
  }

  /** On a walk's tree, every edge starts at the root or at the end of another edge. */
  lemma {:induction false} EdgeSourcesReached(taskId: string, taskDict: map<string, TaskEntry>, depth: int, currentLevel: int)
    ensures var edges := WalkEdges(taskId, taskDict, depth, currentLevel);
      forall e | e in edges :: e.0 == taskId || exists f | f in edges :: f.1 == e.0
    decreases depth - currentLevel
  {
    if currentLevel < depth && HasDependencies(taskDict, taskId) {
      ExtractedTreeEdges(taskId, taskDict, depth, currentLevel);
      var edges := WalkEdges(taskId, taskDict, depth, currentLevel);
      var deps := taskDict[taskId].dependencies.Values;
      forall e | e in edges
        ensures e.0 == taskId || exists f | f in edges :: f.1 == e.0
      {
        if e.0 != taskId {
          var d :| d in deps && e in WalkEdges(d, taskDict, depth, currentLevel + 1);
          EdgeSourcesReached(d, taskDict, depth, currentLevel + 1);
          if e.0 == d {
            assert (taskId, d) in edges;
          }
        }
      }
    }
  }

  /**
   * The script's top level: the walk from test-apk-fenix-debug with depth
   * limit 3, then add_edges into a fresh directed graph.
   */
  method BuildDependencyGraph(taskDict: map<string, TaskEntry>) returns (graph: DiGraph)
    ensures fresh(graph)
    ensures graph.nodes == Ends(graph.edges)
    ensures graph.edges == WalkEdges(SPECIFIC_TASK, taskDict, DEPTH_LIMIT, 0)
  {
    var hierarchyTree := ExtractHierarchy(SPECIFIC_TASK, taskDict, DEPTH_LIMIT, 0);
    graph := new DiGraph();
    AddEdges(graph, hierarchyTree);
  }
}
