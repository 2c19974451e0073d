/**
  Directed reachability over a finite edge relation, and what adding edges into one
  node does to it. Every lineage writer leans on these facts: the cycle check walks the
  proposed child's descendants, and a new edge only ever points INTO that child.
 */
module Reachability {

  /** A node is named by its node_uuid, which is UNIQUE and never changes. */
  type NodeId = string

  /** Edges as (source, target) = (parent, child). */
  type Relation = set<(NodeId, NodeId)>

  /** b is n edges away from a. */
  ghost predicate ReachIn(E: Relation, a: NodeId, b: NodeId, n: nat)
    decreases n
  {
    if n == 0 then a == b else exists c :: (a, c) in E && ReachIn(E, c, b, n - 1)
  }

  ghost predicate Reaches(E: Relation, a: NodeId, b: NodeId) {
    exists n: nat :: ReachIn(E, a, b, n)
  }

  /** No edge can be followed back to where it started. */
  ghost predicate Acyclic(E: Relation) {
    forall a, b :: (a, b) in E ==> !Reaches(E, b, a)
  }

  /** E' is E plus edges that all point into t. */
  ghost predicate GrowsInto(E: Relation, E': Relation, t: NodeId) {
    E <= E' && forall e :: e in E' && e !in E ==> e.1 == t
  }

  lemma ReachesSelf(E: Relation, a: NodeId)
    ensures Reaches(E, a, a)
  {
    assert ReachIn(E, a, a, 0);
  }

  lemma ReachesEdge(E: Relation, a: NodeId, b: NodeId, c: NodeId)
    requires (a, b) in E && Reaches(E, b, c)
    ensures Reaches(E, a, c)
  {
    var n: nat :| ReachIn(E, b, c, n);
    assert ReachIn(E, a, c, n + 1);
  }

  lemma {:induction false} ReachInTransitive(E: Relation, a: NodeId, b: NodeId, c: NodeId, m: nat, n: nat)
    requires ReachIn(E, a, b, m) && ReachIn(E, b, c, n)
    ensures ReachIn(E, a, c, m + n)
    decreases m
  {
    if m > 0 {
      var x :| (a, x) in E && ReachIn(E, x, b, m - 1);
      ReachInTransitive(E, x, b, c, m - 1, n);
    }
  }

  lemma ReachesTransitive(E: Relation, a: NodeId, b: NodeId, c: NodeId)
    requires Reaches(E, a, b) && Reaches(E, b, c)
    ensures Reaches(E, a, c)
  {
    var m: nat :| ReachIn(E, a, b, m);
    var n: nat :| ReachIn(E, b, c, n);
    ReachInTransitive(E, a, b, c, m, n);
  }

  lemma {:induction false} ReachInMonotone(E: Relation, E': Relation, a: NodeId, b: NodeId, n: nat)
    requires E <= E' && ReachIn(E, a, b, n)
    ensures ReachIn(E', a, b, n)
    decreases n
  {
    if n > 0 {
      var x :| (a, x) in E && ReachIn(E, x, b, n - 1);
      ReachInMonotone(E, E', x, b, n - 1);
    }
  }

  lemma ReachesMonotone(E: Relation, E': Relation, a: NodeId, b: NodeId)
    requires E <= E' && Reaches(E, a, b)
    ensures Reaches(E', a, b)
  {
    var n: nat :| ReachIn(E, a, b, n);
    ReachInMonotone(E, E', a, b, n);
  }

  /** A walk in the grown relation either is one in the old relation, or leaves the old
      relation through some new edge (s, t): a reaches s and t reaches x in the old one. */
  lemma {:induction false} Detour(E: Relation, E': Relation, t: NodeId, a: NodeId, x: NodeId, n: nat)
    requires GrowsInto(E, E', t) && ReachIn(E', a, x, n)
    ensures Reaches(E, a, x)
         || (Reaches(E, t, x) && exists s :: (s, t) in E' && (s, t) !in E && Reaches(E, a, s))
    decreases n
  {
    ReachesSelf(E, a);
    if n > 0 {
      var c :| (a, c) in E' && ReachIn(E', c, x, n - 1);
      Detour(E, E', t, c, x, n - 1);
      if (a, c) in E {
        if Reaches(E, c, x) {
          ReachesEdge(E, a, c, x);
        } else {
          var s :| (s, t) in E' && (s, t) !in E && Reaches(E, c, s);
          ReachesEdge(E, a, c, s);
        }
      }
    }
  }

  /** Adding edges into t never changes what t reaches -- even when they close a cycle. */
  lemma GrowthKeepsDescendants(E: Relation, E': Relation, t: NodeId, x: NodeId)
    requires GrowsInto(E, E', t)
    ensures Reaches(E', t, x) <==> Reaches(E, t, x)
  {
    if Reaches(E', t, x) {
      var n: nat :| ReachIn(E', t, x, n);
      Detour(E, E', t, t, x, n);
    }
    if Reaches(E, t, x) {
      ReachesMonotone(E, E', t, x);
    }
  }

  /** Edges added into t keep a relation acyclic exactly when it was acyclic and t reached
      none of their sources. */
  lemma GrowthAcyclicIff(E: Relation, E': Relation, t: NodeId)
    requires GrowsInto(E, E', t)
    ensures Acyclic(E') <==>
            Acyclic(E) && forall s :: (s, t) in E' && (s, t) !in E ==> !Reaches(E, t, s)
  {
    if Acyclic(E) && forall s :: (s, t) in E' && (s, t) !in E ==> !Reaches(E, t, s) {
      forall a, b | (a, b) in E' ensures !Reaches(E', b, a) {
        if Reaches(E', b, a) {
          GrownCycleIsOld(E, E', t, a, b);
        }
      }
    }
    if Acyclic(E') {
      forall a, b | (a, b) in E ensures !Reaches(E, b, a) {
        if Reaches(E, b, a) {
          ReachesMonotone(E, E', b, a);
        }
      }
      forall s | (s, t) in E' && (s, t) !in E ensures !Reaches(E, t, s) {
        if Reaches(E, t, s) {
          ReachesMonotone(E, E', t, s);
        }
      }
    }
  }

  /** A cycle of the grown relation shows up in the old one, or through one new source. */
  lemma GrownCycleIsOld(E: Relation, E': Relation, t: NodeId, a: NodeId, b: NodeId)
    requires GrowsInto(E, E', t) && (a, b) in E' && Reaches(E', b, a)
    ensures !Acyclic(E) || exists s :: (s, t) in E' && (s, t) !in E && Reaches(E, t, s)
  {
    var n: nat :| ReachIn(E', b, a, n);
    Detour(E, E', t, b, a, n);
    if (a, b) in E && !Reaches(E, b, a) {
      var s :| (s, t) in E' && (s, t) !in E && Reaches(E, b, s);
      ReachesEdge(E, a, b, s);
      ReachesTransitive(E, t, a, s);
    }
  }

  lemma {:induction false} RankGrows(E: Relation, rank: map<NodeId, int>, a: NodeId, b: NodeId, n: nat)
    requires forall e :: e in E ==> e.0 in rank && e.1 in rank && rank[e.0] < rank[e.1]
    requires a in rank && ReachIn(E, a, b, n)
    ensures b in rank && rank[a] <= rank[b]
    decreases n
  {
    if n > 0 {
      var c :| (a, c) in E && ReachIn(E, c, b, n - 1);
      RankGrows(E, rank, c, b, n - 1);
    }
  }

  /** Edges that all climb a ranking close no cycle. */
  lemma RankedAcyclic(E: Relation, rank: map<NodeId, int>)
    requires forall e :: e in E ==> e.0 in rank && e.1 in rank && rank[e.0] < rank[e.1]
    ensures Acyclic(E)
  {
    forall a, b | (a, b) in E ensures !Reaches(E, b, a) {
      if Reaches(E, b, a) {
        var n: nat :| ReachIn(E, b, a, n);
        RankGrows(E, rank, b, a, n);
      }
    }
  }

  /** Removing edges never closes a cycle. */
  lemma ShrinkAcyclic(E: Relation, E': Relation)
    requires E' <= E && Acyclic(E)
    ensures Acyclic(E')
  {
    forall a, b | (a, b) in E' ensures !Reaches(E', b, a) {
      if Reaches(E', b, a) {
        ReachesMonotone(E', E, b, a);
      }
    }
  }

  // ---- The recursive descendant walk (a UNION query run to its fixed point) ----

  function Successors(E: Relation, S: set<NodeId>): set<NodeId> {
    set e | e in E && e.0 in S :: e.1
  }

  function Close(E: Relation, S: set<NodeId>): (closed: set<NodeId>)
    ensures S <= closed
    decreases (set e | e in E :: e.1) - S
  {
    var next := S + Successors(E, S);
    if next == S then S
    else
      assert exists e :: e in E && e.0 in S && e.1 !in S;
      Close(E, next)
  }

  function Descendants(E: Relation, root: NodeId): set<NodeId> {
    Close(E, {root})
  }

  lemma {:induction false} CloseSound(E: Relation, S: set<NodeId>, x: NodeId)
    requires x in Close(E, S)
    ensures exists a :: a in S && Reaches(E, a, x)
    decreases (set e | e in E :: e.1) - S
  {
    var next := S + Successors(E, S);
    if next == S {
      ReachesSelf(E, x);
    } else {
      assert exists e :: e in E && e.0 in S && e.1 !in S;
      CloseSound(E, next, x);
      var a :| a in next && Reaches(E, a, x);
      if a !in S {
        var e :| e in E && e.0 in S && e.1 == a;
        assert e == (e.0, e.1);
        ReachesEdge(E, e.0, a, x);
      }
    }
  }

  lemma {:induction false} CloseIsClosed(E: Relation, S: set<NodeId>)
    ensures Successors(E, Close(E, S)) <= Close(E, S)
    decreases (set e | e in E :: e.1) - S
  {
    var next := S + Successors(E, S);
    if next != S {
      assert exists e :: e in E && e.0 in S && e.1 !in S;
      CloseIsClosed(E, next);
    }
  }

  lemma {:induction false} ClosedAbsorbs(E: Relation, C: set<NodeId>, a: NodeId, x: NodeId, n: nat)
    requires Successors(E, C) <= C && a in C && ReachIn(E, a, x, n)
    ensures x in C
    decreases n
  {
    if n > 0 {
      var c :| (a, c) in E && ReachIn(E, c, x, n - 1);
      assert (a, c).1 in Successors(E, C);
      ClosedAbsorbs(E, C, c, x, n - 1);
    }
  }

  /** The fixed-point walk from root collects exactly what root reaches. */
  lemma DescendantsExact(E: Relation, root: NodeId, x: NodeId)
    ensures x in Descendants(E, root) <==> Reaches(E, root, x)
  {
    if x in Descendants(E, root) {
      CloseSound(E, {root}, x);
    }
    if Reaches(E, root, x) {
      var n: nat :| ReachIn(E, root, x, n);
      CloseIsClosed(E, {root});
      ClosedAbsorbs(E, Close(E, {root}), root, x, n);
    }
  }
}
