/**
  The lineage view: a bounded level-by-level walk over the visible edges, in both directions,
  from one asset.
 */
module Lineage {
  import opened Wrappers
  import opened Reachability
  import opened Store

  /** What the lineage queries return: active rows nobody has rejected. */
  predicate Visible(e: Edge) {
    e.active && e.review != Rejected
  }

  function VisibleKeys(edges: map<Key, Edge>): set<Key> {
    set k | k in edges && Visible(edges[k])
  }

  function ListEdgesByMultipleTargets(edges: map<Key, Edge>, level: seq<NodeId>): set<Key> {
    set k | k in edges && Visible(edges[k]) && k.target in level
  }

  function ListEdgesByMultipleSources(edges: map<Key, Edge>, level: seq<NodeId>): set<Key> {
    set k | k in edges && Visible(edges[k]) && k.source in level
  }

  /** ListNodesByIDs, and the filter after it. */
  function ListedNodes(t: Tables, ids: set<NodeId>): set<NodeId> {
    set n | n in ids && n in t.nodes && t.nodes[n].lifecycle != Archived && t.nodes[n].lifecycle != Trashed
  }

  /** The visible edges, walkable from either end. */
  function Undirected(edges: map<Key, Edge>): Relation {
    (set k | k in VisibleKeys(edges) :: (k.source, k.target))
        + (set k | k in VisibleKeys(edges) :: (k.target, k.source))
  }

  /** Two nodes are neighbours when an active edge nobody has rejected joins them, whichever way. */
  lemma NeighboursIff(edges: map<Key, Edge>, a: NodeId, b: NodeId)
    ensures (a, b) in Undirected(edges) <==>
              exists k :: k in edges && edges[k].active && edges[k].review != Rejected
                && ((k.source == a && k.target == b) || (k.source == b && k.target == a))
  {
    if (a, b) in Undirected(edges) {
      var k :| k in VisibleKeys(edges) && ((k.source, k.target) == (a, b) || (k.target, k.source) == (a, b));
      assert k in edges;
    }
  }

  // ---- Distance ----

  ghost predicate Near(E: Relation, root: NodeId, x: NodeId, d: nat) {
    exists n: nat :: n <= d && ReachIn(E, root, x, n)
  }

  ghost predicate AtDistance(E: Relation, root: NodeId, x: NodeId, d: nat) {
    Near(E, root, x, d) && forall n: nat :: n < d ==> !Near(E, root, x, n)
  }

  lemma {:induction false} WalkOn(E: Relation, a: NodeId, b: NodeId, c: NodeId, n: nat)
    requires ReachIn(E, a, b, n) && (b, c) in E
    ensures ReachIn(E, a, c, n + 1)
    decreases n
  {
    if n == 0 {
      assert ReachIn(E, c, c, 0);
    } else {
      var x :| (a, x) in E && ReachIn(E, x, b, n - 1);
      WalkOn(E, x, b, c, n - 1);
    }
  }

  lemma {:induction false} LastStep(E: Relation, a: NodeId, c: NodeId, n: nat) returns (b: NodeId)
    requires n > 0 && ReachIn(E, a, c, n)
    ensures ReachIn(E, a, b, n - 1) && (b, c) in E
    decreases n
  {
    var x :| (a, x) in E && ReachIn(E, x, c, n - 1);
    if n == 1 {
      b := a;
    } else {
      b := LastStep(E, x, c, n - 1);
    }
  }

  // ---- The walk ----

  datatype Walk = Walk(visited: set<NodeId>, level: set<NodeId>)

  /** Everything seen after d levels, and the nodes of the d-th. */
  function WalkTo(E: Relation, root: NodeId, d: nat): Walk {
    if d == 0 then Walk({root}, {root})
    else
      var w := WalkTo(E, root, d - 1);
      var next := Successors(E, w.level) - w.visited;
      Walk(w.visited + next, next)
  }

  /** The walk has seen exactly the nodes within distance d, and its d-th level holds exactly
      those at distance d: each node enters one level, the one equal to its distance. */
  lemma {:induction false} WalkExact(E: Relation, root: NodeId, d: nat, x: NodeId)
    ensures x in WalkTo(E, root, d).visited <==> Near(E, root, x, d)
    ensures x in WalkTo(E, root, d).level <==> AtDistance(E, root, x, d)
    decreases d
  {
    if d == 0 {
      assert ReachIn(E, root, root, 0);
    } else {
      WalkExact(E, root, d - 1, x);
      var w := WalkTo(E, root, d - 1);
      if x in Successors(E, w.level) {
        var e :| e in E && e.0 in w.level && e.1 == x;
        WalkExact(E, root, d - 1, e.0);
        var n: nat :| n <= d - 1 && ReachIn(E, root, e.0, n);
        assert e == (e.0, x);
        WalkOn(E, root, e.0, x, n);
      }
      if Near(E, root, x, d) && !Near(E, root, x, d - 1) {
        StepOut(E, root, d, x);
      }
    }
  }

  /** A node at distance d hangs on a node of the level before. */
  lemma StepOut(E: Relation, root: NodeId, d: nat, x: NodeId)
    requires d > 0 && Near(E, root, x, d) && !Near(E, root, x, d - 1)
    ensures x in Successors(E, WalkTo(E, root, d - 1).level)
    decreases d, 0
  {
    assert ReachIn(E, root, x, d);
    var b := LastStep(E, root, x, d);
    WalkExact(E, root, d - 1, b);
    forall n: nat | n < d - 1 ensures !Near(E, root, b, n) {
      if Near(E, root, b, n) {
        var m: nat :| m <= n && ReachIn(E, root, b, m);
        WalkOn(E, root, b, x, m);
      }
    }
    assert (b, x).1 == x;
  }

  /** An empty level ends the walk. */
  lemma {:induction false} WalkEnds(E: Relation, root: NodeId, d: nat, d': nat)
    requires d <= d' && WalkTo(E, root, d).level == {}
    ensures WalkTo(E, root, d').visited == WalkTo(E, root, d).visited && WalkTo(E, root, d').level == {}
    decreases d'
  {
    if d < d' {
      WalkEnds(E, root, d, d' - 1);
      assert Successors(E, {}) == {};
    }
  }

  // ---- The handler ----

  datatype Outcome = AssetNotFound | Found(nodes: set<NodeId>, edges: set<Key>)

  function Members(level: seq<NodeId>): set<NodeId> {
    set n | n in level
  }

  ghost predicate NoRepeats(level: seq<NodeId>) {
    forall i, j :: 0 <= i < j < |level| ==> level[i] != level[j]
  }

  /** Append the far ends of one query's rows that were not seen before. */
  method Collect(seen: set<NodeId>, next: seq<NodeId>, rows: set<Key>,
                 parents: bool) returns (seen': set<NodeId>, next': seq<NodeId>)
    requires NoRepeats(next) && Members(next) <= seen
    ensures NoRepeats(next') && Members(next') <= seen'
    ensures seen' == seen + set k | k in rows :: if parents then k.source else k.target
    ensures Members(next') == Members(next) + (seen' - seen)
  {
    seen', next' := seen, next;
    var todo := rows;
    while todo != {}
      invariant todo <= rows && NoRepeats(next') && Members(next') <= seen'
      invariant seen' == seen + set k | k in rows - todo :: if parents then k.source else k.target
      invariant Members(next') == Members(next) + (seen' - seen)
      decreases todo
    {
      var k :| k in todo;
      var n := if parents then k.source else k.target;
      todo := todo - {k};
      assert rows - todo == (rows - todo - {k}) + {k};
      if n !in seen' {
        assert n !in Members(next');
        seen' := seen' + {n};
        assert Members(next' + [n]) == Members(next') + {n};
        next' := next' + [n];
      }
    }
    assert rows - todo == rows;
  }

  lemma LevelNeighbours(edges: map<Key, Edge>, level: seq<NodeId>)
    ensures Successors(Undirected(edges), Members(level))
         == (set k | k in ListEdgesByMultipleTargets(edges, level) :: k.source)
            + (set k | k in ListEdgesByMultipleSources(edges, level) :: k.target)
  {
    var E := Undirected(edges);
    var out := (set k | k in ListEdgesByMultipleTargets(edges, level) :: k.source)
               + (set k | k in ListEdgesByMultipleSources(edges, level) :: k.target);
    forall x | x in Successors(E, Members(level)) ensures x in out {
      var e :| e in E && e.0 in level && e.1 == x;
      var k :| k in VisibleKeys(edges) && (e == (k.source, k.target) || e == (k.target, k.source));
      if e == (k.source, k.target) {
        assert k in ListEdgesByMultipleSources(edges, level);
      } else {
        assert k in ListEdgesByMultipleTargets(edges, level);
      }
    }
    forall x | x in out ensures x in Successors(E, Members(level)) {
      if k :| k in ListEdgesByMultipleTargets(edges, level) && k.source == x {
        assert k in VisibleKeys(edges) && (k.target, k.source) in E && (k.target, k.source).1 == x;
      } else {
        var k :| k in ListEdgesByMultipleSources(edges, level) && k.target == x;
        assert k in VisibleKeys(edges) && (k.source, k.target) in E && (k.source, k.target).1 == x;
      }
    }
  }

  /** One level out. */
  method NextLevel(edges: map<Key, Edge>, seen: set<NodeId>,
                   level: seq<NodeId>) returns (seen': set<NodeId>, next: seq<NodeId>)
    ensures NoRepeats(next) && Members(next) == Successors(Undirected(edges), Members(level)) - seen
    ensures seen' == seen + Members(next)
  {
    assert Members([]) == {};
    LevelNeighbours(edges, level);
    seen', next := Collect(seen, [], ListEdgesByMultipleTargets(edges, level), true);
    seen', next := Collect(seen', next, ListEdgesByMultipleSources(edges, level), false);
  }

  method HandleAssetLineage(db: Database, root: NodeId, depth: int) returns (r: Outcome)
    ensures r.AssetNotFound? <==> root !in db.tables.nodes || db.tables.nodes[root].lifecycle == Archived
    ensures r.Found? ==> forall x :: x in r.nodes <==>
              && Near(Undirected(db.tables.edges), root, x, if depth < 1 then 2 else if depth > 5 then 5 else depth)
              && x in db.tables.nodes && db.tables.nodes[x].lifecycle != Archived
              && db.tables.nodes[x].lifecycle != Trashed
    ensures r.Found? ==> forall k :: k in r.edges <==>
              && k in db.tables.edges && db.tables.edges[k].active && db.tables.edges[k].review != Rejected
              && k.source in r.nodes && k.target in r.nodes
  {
    var t := db.tables;
    if root !in t.nodes || t.nodes[root].lifecycle == Archived {
      return AssetNotFound;
    }
    var bound := depth;
    if bound < 1 {
      bound := 2;
    } else if bound > 5 {
      bound := 5;
    }
    ghost var E := Undirected(t.edges);
    var nodeIDs, currentLevel := {root}, [root];
    assert Members([root]) == {root};
    var d := 0;
    while d < bound
      invariant d <= bound && WalkTo(E, root, d) == Walk(nodeIDs, Members(currentLevel))
    {
      if |currentLevel| == 0 {
        WalkEnds(E, root, d, bound);
        break;
      }
      nodeIDs, currentLevel := NextLevel(t.edges, nodeIDs, currentLevel);
      d := d + 1;
    }
    forall x ensures x in nodeIDs <==> Near(E, root, x, bound) {
      WalkExact(E, root, bound, x);
    }
    var valid := ListedNodes(t, nodeIDs);
    return Found(valid, set k | k in t.edges && Visible(t.edges[k]) && k.source in valid && k.target in valid);
  }

  /** The walk is the same in both directions: x is in root's view at depth d exactly when
      root is in x's. */
  lemma NearIsMutual(edges: map<Key, Edge>, root: NodeId, x: NodeId, d: nat)
    ensures Near(Undirected(edges), root, x, d) <==> Near(Undirected(edges), x, root, d)
  {
    if Near(Undirected(edges), root, x, d) {
      var n: nat :| n <= d && ReachIn(Undirected(edges), root, x, n);
      WalkBack(edges, root, x, n);
    }
    if Near(Undirected(edges), x, root, d) {
      var n: nat :| n <= d && ReachIn(Undirected(edges), x, root, n);
      WalkBack(edges, x, root, n);
    }
  }

  lemma {:induction false} WalkBack(edges: map<Key, Edge>, a: NodeId, b: NodeId, n: nat)
    requires ReachIn(Undirected(edges), a, b, n)
    ensures ReachIn(Undirected(edges), b, a, n)
    decreases n
  {
    if n > 0 {
      var x :| (a, x) in Undirected(edges) && ReachIn(Undirected(edges), x, b, n - 1);
      WalkBack(edges, x, b, n - 1);
      assert (x, a) in Undirected(edges);
      WalkOn(Undirected(edges), b, x, a, n - 1);
    }
  }
}
