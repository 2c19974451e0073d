/**
  The graph engine: merge every resolver's candidates, cycle-check and upsert the
  survivors in one transaction, re-derive graph_status of the children it touched.
 */
module Engine {
  import opened Wrappers
  import opened Reachability
  import opened Store

  const NEEDS_REVIEW_FLOOR := 50

  /** 0.85 for heuristic (Tier 3) evidence, 0.90 otherwise. */
  function AutoAcceptThresholdForTier(tier: int): int {
    if tier == 3 then 85 else 90
  }

  datatype Candidate = Candidate(
    parent: NodeId, child: NodeId, rel: Relationship,
    confidence: int, tier: int, resolver: string, evidence: Evidence)
  {
    function Key(): Key {
      Store.Key(parent, child, rel)
    }

    function ToEdge(): Edge {
      var review := if confidence >= AutoAcceptThresholdForTier(tier) then AutoAccepted else NeedsReview;
      Edge(confidence, tier, resolver, evidence, review, true)
    }
  }

  // ---- mergeCandidates ----

  /** The distinct keys in the order they first appear. */
  function FirstSeen(cs: seq<Candidate>): (keys: seq<Key>)
    ensures forall k :: k in keys <==> exists i :: 0 <= i < |cs| && cs[i].Key() == k
    ensures forall i, j :: 0 <= i < j < |keys| ==> keys[i] != keys[j]
  {
    if cs == [] then []
    else
      var keys := FirstSeen(cs[..|cs| - 1]);
      var k := cs[|cs| - 1].Key();
      assert forall i :: 0 <= i < |cs| - 1 ==> cs[..|cs| - 1][i] == cs[i];
      if k in keys then keys else keys + [k]
  }

  /** The evidence each resolver last gave for k. */
  function Signals(cs: seq<Candidate>, k: Key): map<string, Evidence> {
    if cs == [] then map[]
    else
      var last := cs[|cs| - 1];
      var earlier := Signals(cs[..|cs| - 1], k);
      if last.Key() == k then earlier[last.resolver := last.evidence] else earlier
  }

  /** Index of the candidate whose confidence, resolver and tier stand for k. */
  function Winner(cs: seq<Candidate>, k: Key): (w: nat)
    requires k in FirstSeen(cs)
    ensures w < |cs| && cs[w].Key() == k
    ensures forall j :: 0 <= j < |cs| && cs[j].Key() == k ==>
              cs[j].confidence <= cs[w].confidence && (j < w ==> cs[j].confidence < cs[w].confidence)
  {
    var n := |cs| - 1;
    if k in FirstSeen(cs[..n]) then
      assert forall j :: 0 <= j < n ==> cs[..n][j] == cs[j];
      var w := Winner(cs[..n], k);
      if cs[n].Key() == k && cs[n].confidence > cs[w].confidence then n else w
    else n
  }

  function Merged(cs: seq<Candidate>, k: Key): Candidate
    requires k in FirstSeen(cs)
  {
    var w := cs[Winner(cs, k)];
    w.(evidence := PerResolver(Signals(cs, k)))
  }

  function Merge(cs: seq<Candidate>): seq<Candidate> {
    var keys := FirstSeen(cs);
    seq(|keys|, i requires 0 <= i < |keys| => Merged(cs, keys[i]))
  }

  /** Keys come out in first-seen order: whatever comes later in the output was also first
      seen later in the input. */
  lemma {:induction false} FirstSeenOrder(cs: seq<Candidate>, i: nat, j: nat, b: nat)
    requires i < j < |FirstSeen(cs)| && b < |cs| && cs[b].Key() == FirstSeen(cs)[j]
    ensures exists a :: 0 <= a < b && cs[a].Key() == FirstSeen(cs)[i]
    decreases |cs|
  {
    var n := |cs| - 1;
    var earlier := FirstSeen(cs[..n]);
    assert FirstSeen(cs)[i] in earlier;
    if b < n {
      assert cs[..n][b].Key() in earlier;
      FirstSeenOrder(cs[..n], i, j, b);
      var a :| 0 <= a < b && cs[..n][a].Key() == earlier[i];
      assert cs[a].Key() == earlier[i];
    } else {
      var a :| 0 <= a < n && cs[..n][a].Key() == FirstSeen(cs)[i];
      assert cs[a].Key() == FirstSeen(cs)[i];
    }
  }

  /** One candidate per key, carrying the maximum confidence over that key's candidates and
      the resolver and tier of the FIRST candidate to reach it: a later tie changes nothing. */
  lemma MergeKeepsFirstMaximum(cs: seq<Candidate>, i: nat)
    requires i < |Merge(cs)|
    ensures Merge(cs)[i].Key() == FirstSeen(cs)[i] && |Merge(cs)| == |FirstSeen(cs)|
    ensures forall j :: 0 <= j < |Merge(cs)| && j != i ==> Merge(cs)[j].Key() != Merge(cs)[i].Key()
    ensures exists w :: 0 <= w < |cs| && cs[w].Key() == Merge(cs)[i].Key()
              && Merge(cs)[i] == cs[w].(evidence := PerResolver(Signals(cs, cs[w].Key())))
              && forall j :: 0 <= j < |cs| && cs[j].Key() == cs[w].Key() ==>
                   cs[j].confidence <= cs[w].confidence && (j < w ==> cs[j].confidence < cs[w].confidence)
  {
    var k := FirstSeen(cs)[i];
    var w := Winner(cs, k);
    assert forall j :: 0 <= j < |Merge(cs)| ==> Merge(cs)[j].Key() == FirstSeen(cs)[j];
  }

  /** Exactly the contributing resolvers are in the merged evidence. */
  lemma {:induction false} SignalsDomain(cs: seq<Candidate>, k: Key, r: string)
    ensures r in Signals(cs, k) <==> exists i :: 0 <= i < |cs| && cs[i].Key() == k && cs[i].resolver == r
    decreases |cs|
  {
    if cs != [] {
      SignalsDomain(cs[..|cs| - 1], k, r);
      assert forall j :: 0 <= j < |cs| - 1 ==> cs[..|cs| - 1][j] == cs[j];
    }
  }

  /** ...each with its last word: candidate i's, after which the resolver is silent on k. */
  lemma {:induction false} SignalsAreLastWords(cs: seq<Candidate>, k: Key, r: string) returns (i: nat)
    requires r in Signals(cs, k)
    ensures i < |cs| && cs[i].Key() == k && cs[i].resolver == r && Signals(cs, k)[r] == cs[i].evidence
    ensures forall j :: i < j < |cs| && cs[j].Key() == k ==> cs[j].resolver != r
    decreases |cs|
  {
    var n := |cs| - 1;
    if cs[n].Key() == k && cs[n].resolver == r {
      i := n;
    } else {
      i := SignalsAreLastWords(cs[..n], k, r);
      assert forall j :: i < j < n ==> cs[j] == cs[..n][j];
    }
  }

  /** What one more candidate does to the merge of the earlier ones. */
  function Absorb(existing: Candidate, c: Candidate): Candidate
    requires existing.evidence.PerResolver?
  {
    var signals := existing.evidence.signals[c.resolver := c.evidence];
    var best := if c.confidence > existing.confidence
                then existing.(confidence := c.confidence, resolver := c.resolver, tier := c.tier)
                else existing;
    best.(evidence := PerResolver(signals))
  }

  lemma MergeOneMore(cs: seq<Candidate>, c: Candidate, k: Key)
    requires k in FirstSeen(cs) || k == c.Key()
    ensures k in FirstSeen(cs + [c])
    ensures Merged(cs + [c], k) ==
            if k != c.Key() then Merged(cs, k)
            else if k in FirstSeen(cs) then Absorb(Merged(cs, k), c)
            else c.(evidence := PerResolver(map[c.resolver := c.evidence]))
  {
    var more := cs + [c];
    assert more[..|more| - 1] == cs;
    if k !in FirstSeen(cs) {
      UnseenHasNoSignals(cs, k);
    } else {
      var w := Winner(cs, k);
      assert more[w] == cs[w];
    }
  }

  /** The map and the order slice after the candidates `cs`. */
  ghost predicate Merging(cs: seq<Candidate>, merged: map<Key, Candidate>, order: seq<Key>) {
    && order == FirstSeen(cs)
    && (forall k :: k in merged <==> k in order)
    && (forall k :: k in order ==> merged[k] == Merged(cs, k))
  }

  lemma MergingNew(cs: seq<Candidate>, c: Candidate, merged: map<Key, Candidate>, order: seq<Key>)
    requires Merging(cs, merged, order) && c.Key() !in merged
    ensures Merging(cs + [c], merged[c.Key() := c.(evidence := PerResolver(map[c.resolver := c.evidence]))],
                    order + [c.Key()])
  {
    assert (cs + [c])[..|cs|] == cs;
    forall k | k in order + [c.Key()] {
      MergeOneMore(cs, c, k);
    }
  }

  lemma MergingKnown(cs: seq<Candidate>, c: Candidate, merged: map<Key, Candidate>, order: seq<Key>)
    requires Merging(cs, merged, order) && c.Key() in merged
    ensures Merging(cs + [c], merged[c.Key() := Absorb(merged[c.Key()], c)], order)
  {
    assert (cs + [c])[..|cs|] == cs;
    forall k | k in order {
      MergeOneMore(cs, c, k);
    }
  }

  method MergeCandidates(cs: seq<Candidate>) returns (out: seq<Candidate>)
    ensures out == Merge(cs)
  {
    var merged: map<Key, Candidate> := map[];
    var order: seq<Key> := [];
    for i := 0 to |cs|
      invariant Merging(cs[..i], merged, order)
    {
      var c := cs[i];
      var k := c.Key();
      assert cs[..i + 1] == cs[..i] + [c];
      if k !in merged {
        MergingNew(cs[..i], c, merged, order);
        merged := merged[k := c.(evidence := PerResolver(map[c.resolver := c.evidence]))];
        order := order + [k];
      } else {
        MergingKnown(cs[..i], c, merged, order);
        merged := merged[k := Absorb(merged[k], c)];
      }
    }
    assert cs[..|cs|] == cs;
    out := seq(|order|, i requires 0 <= i < |order| => merged[order[i]]);
  }

  lemma UnseenHasNoSignals(cs: seq<Candidate>, k: Key)
    requires k !in FirstSeen(cs)
    ensures Signals(cs, k) == map[]
  {
    if cs != [] {
      UnseenHasNoSignals(cs[..|cs| - 1], k);
    }
  }

  // ---- ResolveAndCommit ----

  datatype EngineError = ConstraintFailed

  /** The running transaction: the tables, the rows committed so far, how many were new. */
  datatype Pass = Pass(tables: Tables, committed: seq<(Key, Edge)>, created: nat)

  function CommitOne(p: Pass, c: Candidate): Result<Pass, EngineError> {
    var k, t := c.Key(), p.tables;
    if c.confidence < NEEDS_REVIEW_FLOOR || WouldCreateCycle(t, c.parent, c.child) then Ok(p)
    else if k !in t.edges && !Insertable(t, k) then Err(ConstraintFailed)
    else
      match UpsertMediaEdge(t.edges, k, c.ToEdge())
      case None => Ok(p.(committed := p.committed + [(k, t.edges[k])]))
      case Some(edges) =>
        Ok(Pass(t.(edges := edges), p.committed + [(k, edges[k])],
                p.created + if MediaEdgeExists(t.edges, k) then 0 else 1))
  }

  function CommitAll(p: Pass, cs: seq<Candidate>): Result<Pass, EngineError>
    decreases |cs|
  {
    if cs == [] then Ok(p)
    else
      var q :- CommitOne(p, cs[0]);
      CommitAll(q, cs[1..])
  }

  /** Children with a non-rejected edge in this pass. */
  function Touched(committed: seq<(Key, Edge)>): set<NodeId> {
    set i | 0 <= i < |committed| && committed[i].1.review != Rejected :: committed[i].0.target
  }

  /** The whole transaction on the tables it starts from. */
  function EnginePass(t: Tables, candidates: seq<Candidate>): Result<Pass, EngineError> {
    var p :- CommitAll(Pass(t, [], 0), Merge(candidates));
    Ok(p.(tables := RecomputeAll(p.tables, Touched(p.committed))))
  }

  lemma RecomputeOneMore(t: Tables, done: set<NodeId>, n: NodeId)
    ensures Recompute(RecomputeAll(t, done), n) == RecomputeAll(t, done + {n})
  {
  }

  lemma IneligiblePassIsEmpty(p: Pass, cs: seq<Candidate>)
    requires forall i :: 0 <= i < |cs| ==> cs[i].confidence < NEEDS_REVIEW_FLOOR
    ensures CommitAll(p, cs) == Ok(p)
    decreases |cs|
  {
    if cs != [] {
      IneligiblePassIsEmpty(p, cs[1..]);
    }
  }

  lemma CommitFrom(p: Pass, cs: seq<Candidate>, i: nat)
    requires i < |cs|
    ensures CommitAll(p, cs[i..]) ==
            match CommitOne(p, cs[i]) case Ok(q) => CommitAll(q, cs[i + 1..]) case Err(e) => Err(e)
  {
    assert cs[i..][0] == cs[i] && cs[i..][1..] == cs[i + 1..];
  }

  /** What one candidate leaves behind: below the floor, under a human decision or closing a
      cycle it changes nothing; otherwise its row takes it in, accepted from the tier's line on
      and up for review below. No other row and no human decision changes, no cycle closes, and
      `created` is the growth in active rows. */
  ghost predicate CandidateFiled(t: Tables, t': Tables, c: Candidate, created: int) {
    && t' == t.(edges := t'.edges) && KeepsDecisions(t.edges, t'.edges)
    && OnlyRow(t.edges, t'.edges, c.Key())
    && (AcyclicEdges(t) ==> AcyclicEdges(t')) && (Referential(t) ==> Referential(t'))
    && created == |ActiveKeys(t'.edges)| - |ActiveKeys(t.edges)|
    && (if c.confidence < 50 || Decided(t.edges, c.Key()) || WouldCreateCycle(t, c.parent, c.child)
        then t'.edges == t.edges
        else RowTakes(t.edges, t'.edges, c.Key(), Edge(c.confidence, c.tier, c.resolver, c.evidence,
               if c.confidence >= (if c.tier == 3 then 85 else 90) then AutoAccepted else NeedsReview, true)))
  }

  lemma UpsertCounts(edges: map<Key, Edge>, k: Key, e: Edge)
    requires !Locked(e) && UpsertMediaEdge(edges, k, e).Some?
    ensures var after := UpsertMediaEdge(edges, k, e).value;
            |ActiveKeys(after)| - |ActiveKeys(edges)| == if MediaEdgeExists(edges, k) then 0 else 1
  {
    UpsertKeeps(edges, k, e);
    assert ActiveKeys(UpsertMediaEdge(edges, k, e).value)
           == if k in ActiveKeys(edges) then ActiveKeys(edges) else ActiveKeys(edges) + {k};
  }

  ghost predicate OnlyRow(edges: map<Key, Edge>, edges': map<Key, Edge>, k: Key) {
    forall j :: j != k ==> (j in edges' <==> j in edges) && (j in edges && j in edges' ==> edges'[j] == edges[j])
  }

  lemma UpsertOnlyRow(edges: map<Key, Edge>, k: Key, e: Edge)
    requires UpsertMediaEdge(edges, k, e).Some?
    ensures OnlyRow(edges, UpsertMediaEdge(edges, k, e).value, k)
  {
    hide Refreshed;
  }

  lemma NothingChanged(edges: map<Key, Edge>, k: Key)
    ensures KeepsDecisions(edges, edges) && OnlyRow(edges, edges, k)
  {
  }

  lemma CommitOneRows(p: Pass, c: Candidate)
    requires CommitOne(p, c).Ok?
    ensures var q := CommitOne(p, c).value;
            && q.tables == p.tables.(edges := q.tables.edges) && KeepsDecisions(p.tables.edges, q.tables.edges)
            && OnlyRow(p.tables.edges, q.tables.edges, c.Key())
            && q.created - p.created == |ActiveKeys(q.tables.edges)| - |ActiveKeys(p.tables.edges)|
  {
    hide WouldCreateCycle, UpsertMediaEdge, MediaEdgeExists, ActiveKeys, KeepsDecisions, OnlyRow, SameIncoming,
         Insertable;
    NothingChanged(p.tables.edges, c.Key());
    if UpsertMediaEdge(p.tables.edges, c.Key(), c.ToEdge()).Some? {
      UpsertKeeps(p.tables.edges, c.Key(), c.ToEdge());
      UpsertCounts(p.tables.edges, c.Key(), c.ToEdge());
      UpsertOnlyRow(p.tables.edges, c.Key(), c.ToEdge());
    }
  }

  lemma CommitOneOutcome(p: Pass, c: Candidate)
    requires CommitOne(p, c).Ok?
    ensures CandidateFiled(p.tables, CommitOne(p, c).value.tables, c, CommitOne(p, c).value.created - p.created)
  {
    hide CommitOne, WouldCreateCycle, AcyclicEdges, Referential, KeepsDecisions, RowTakes;
    CommitOneRow(p, c);
    CommitOneRows(p, c);
    CommitOneSafe(p, c);
  }

  // ---- What every pass keeps ----

  /** An upsert that returns its row: only that row changes, it ends up active and
      unreviewed, and no human decision is among the rows it could have changed. */
  lemma UpsertKeeps(edges: map<Key, Edge>, k: Key, e: Edge)
    requires !Locked(e) && UpsertMediaEdge(edges, k, e).Some?
    ensures var after := UpsertMediaEdge(edges, k, e).value;
            && after.Keys == edges.Keys + {k} && !Locked(after[k])
            && ActiveKeys(after) == ActiveKeys(edges) + {k}
            && KeepsDecisions(edges, after)
            && forall n :: n != k.target ==> SameIncoming(edges, after, n)
  {
  }

  /** What a running pass has done to the rows since the ones it started from. */
  ghost predicate Grew(edges: map<Key, Edge>, edges': map<Key, Edge>, touched: set<NodeId>, created: int) {
    && KeepsDecisions(edges, edges')
    && (forall n :: n !in touched ==> SameIncoming(edges, edges', n))
    && edges.Keys <= edges'.Keys
    && ActiveKeys(edges) <= ActiveKeys(edges')
    && edges'.Keys - edges.Keys <= ActiveKeys(edges')
    && created == |ActiveKeys(edges')| - |ActiveKeys(edges)|
  }

  lemma GrewOneMore(edges: map<Key, Edge>, before: map<Key, Edge>, k: Key, e: Edge, touched: set<NodeId>, created: int)
    requires Grew(edges, before, touched, created)
    requires !Locked(e) && UpsertMediaEdge(before, k, e).Some?
    ensures Grew(edges, UpsertMediaEdge(before, k, e).value, touched + {k.target},
                 created + if MediaEdgeExists(before, k) then 0 else 1)
  {
    var after := UpsertMediaEdge(before, k, e).value;
    UpsertKeeps(before, k, e);
    if k in ActiveKeys(before) {
      assert ActiveKeys(after) == ActiveKeys(before);
    }
    forall n | n !in touched + {k.target} ensures SameIncoming(edges, after, n) {
      assert SameIncoming(edges, before, n) && SameIncoming(before, after, n);
    }
  }

  lemma TouchedGrows(committed: seq<(Key, Edge)>, k: Key, e: Edge)
    ensures Touched(committed + [(k, e)]) == Touched(committed) + if e.review == Rejected then {} else {k.target}
  {
    var more := committed + [(k, e)];
    forall n | n in Touched(committed) ensures n in Touched(more) {
      var i :| 0 <= i < |committed| && committed[i].1.review != Rejected && committed[i].0.target == n;
      assert more[i] == committed[i];
    }
    assert more[|committed|] == (k, e);
  }

  ghost predicate Kept(t: Tables, p: Pass) {
    && p.tables == t.(edges := p.tables.edges)
    && Grew(t.edges, p.tables.edges, Touched(p.committed), p.created)
  }

  lemma CommitOneKeeps(t: Tables, p: Pass, c: Candidate)
    requires Kept(t, p) && CommitOne(p, c).Ok?
    ensures Kept(t, CommitOne(p, c).value)
  {
    var k, q := c.Key(), CommitOne(p, c).value;
    if q != p {
      TouchedGrows(p.committed, k, q.tables.edges[k]);
      if UpsertMediaEdge(p.tables.edges, k, c.ToEdge()).Some? {
        GrewOneMore(t.edges, p.tables.edges, k, c.ToEdge(), Touched(p.committed), p.created);
        UpsertKeeps(p.tables.edges, k, c.ToEdge());
      }
    }
  }

  lemma CommitOneSafe(p: Pass, c: Candidate)
    requires CommitOne(p, c).Ok?
    ensures AcyclicEdges(p.tables) ==> AcyclicEdges(CommitOne(p, c).value.tables)
    ensures Referential(p.tables) ==> Referential(CommitOne(p, c).value.tables)
  {
    var k, q := c.Key(), CommitOne(p, c).value;
    if q.tables != p.tables {
      UpsertKeeps(p.tables.edges, k, c.ToEdge());
      if AcyclicEdges(p.tables) {
        CheckedActivationAcyclic(p.tables, q.tables.edges, k);
      }
    }
  }

  lemma {:induction false} CommitAllKeeps(t: Tables, p: Pass, cs: seq<Candidate>)
    requires Kept(t, p) && CommitAll(p, cs).Ok?
    ensures Kept(t, CommitAll(p, cs).value)
    ensures AcyclicEdges(p.tables) ==> AcyclicEdges(CommitAll(p, cs).value.tables)
    ensures Referential(p.tables) ==> Referential(CommitAll(p, cs).value.tables)
    decreases |cs|
  {
    if cs != [] {
      CommitOneKeeps(t, p, cs[0]);
      CommitOneSafe(p, cs[0]);
      CommitAllKeeps(t, CommitOne(p, cs[0]).value, cs[1..]);
    }
  }

  lemma EmptyPassKept(t: Tables)
    ensures Kept(t, Pass(t, [], 0))
  {
  }

  /** Whatever the resolvers propose, a committed pass keeps the lineage acyclic, every
      human decision, the foreign keys and the graph_status derivation. */
  lemma EnginePassKeeps(t: Tables, candidates: seq<Candidate>)
    requires EnginePass(t, candidates).Ok?
    ensures var t' := EnginePass(t, candidates).value.tables;
            && (AcyclicEdges(t) ==> AcyclicEdges(t'))
            && (Referential(t) ==> Referential(t'))
            && (StatusDerived(t) ==> StatusDerived(t'))
            && KeepsDecisions(t.edges, t'.edges)
            && t'.nodes.Keys == t.nodes.Keys
            && t' == t.(nodes := t'.nodes, edges := t'.edges)
  {
    var p := CommitAll(Pass(t, [], 0), Merge(candidates)).value;
    EmptyPassKept(t);
    CommitAllKeeps(t, Pass(t, [], 0), Merge(candidates));
    if StatusDerived(t) {
      RecomputeAllDerives(t, p.tables, Touched(p.committed));
    }
  }

  // ---- What every pass gets done ----

  /** The edge is on file at this confidence or better, or a person has decided about it. */
  predicate OnFile(edges: map<Key, Edge>, k: Key, confidence: int) {
    k in edges && (Locked(edges[k]) || (edges[k].active && edges[k].confidence >= confidence))
  }

  lemma CommitOneFiles(p: Pass, c: Candidate)
    requires CommitOne(p, c).Ok? && c.confidence >= NEEDS_REVIEW_FLOOR
    ensures OnFile(CommitOne(p, c).value.tables.edges, c.Key(), c.confidence)
            || WouldCreateCycle(p.tables, c.parent, c.child)
  {
    hide Descendants;
  }

  /** Later commits lower nothing and let go of no cycle. */
  lemma CommitOneKeepsFiled(p: Pass, c: Candidate, k: Key, confidence: int)
    requires CommitOne(p, c).Ok?
    ensures var after := CommitOne(p, c).value.tables;
            && (OnFile(p.tables.edges, k, confidence) ==> OnFile(after.edges, k, confidence))
            && (WouldCreateCycle(p.tables, k.source, k.target) ==> WouldCreateCycle(after, k.source, k.target))
  {
    var after := CommitOne(p, c).value.tables;
    if after != p.tables {
      UpsertKeeps(p.tables.edges, c.Key(), c.ToEdge());
      ActivationGrowsInto(p.tables.edges, after.edges, c.child);
    }
    if WouldCreateCycle(p.tables, k.source, k.target) {
      DescendantsExact(ActiveRelation(p.tables.edges), k.target, k.source);
      ReachesMonotone(ActiveRelation(p.tables.edges), ActiveRelation(after.edges), k.target, k.source);
      DescendantsExact(ActiveRelation(after.edges), k.target, k.source);
    }
  }

  lemma {:induction false} CommitAllKeepsFiled(p: Pass, cs: seq<Candidate>, k: Key, confidence: int)
    requires CommitAll(p, cs).Ok?
    requires OnFile(p.tables.edges, k, confidence) || WouldCreateCycle(p.tables, k.source, k.target)
    ensures var after := CommitAll(p, cs).value.tables;
            OnFile(after.edges, k, confidence) || WouldCreateCycle(after, k.source, k.target)
    decreases |cs|
  {
    hide OnFile, WouldCreateCycle, CommitOne;
    if cs != [] {
      CommitOneKeepsFiled(p, cs[0], k, confidence);
      CommitAllKeepsFiled(CommitOne(p, cs[0]).value, cs[1..], k, confidence);
    }
  }

  lemma {:induction false} CommitAllFiles(p: Pass, cs: seq<Candidate>, i: nat)
    requires CommitAll(p, cs).Ok? && i < |cs| && cs[i].confidence >= NEEDS_REVIEW_FLOOR
    ensures var after := CommitAll(p, cs).value.tables;
            OnFile(after.edges, cs[i].Key(), cs[i].confidence) || WouldCreateCycle(after, cs[i].parent, cs[i].child)
    decreases |cs|
  {
    hide OnFile, WouldCreateCycle, CommitOne;
    if i == 0 {
      CommitOneFiles(p, cs[0]);
      CommitOneKeepsFiled(p, cs[0], cs[0].Key(), cs[0].confidence);
      CommitAllKeepsFiled(CommitOne(p, cs[0]).value, cs[1..], cs[0].Key(), cs[0].confidence);
    } else {
      CommitAllFiles(CommitOne(p, cs[0]).value, cs[1..], i - 1);
    }
  }

  /** Nothing eligible is dropped: after a committed pass, every candidate a resolver gave, at
      or above the review floor, is on file with at least its confidence or under a human
      decision -- unless its child by now reaches its parent. */
  lemma NothingIsDropped(t: Tables, candidates: seq<Candidate>, c: nat)
    requires EnginePass(t, candidates).Ok? && c < |candidates| && candidates[c].confidence >= NEEDS_REVIEW_FLOOR
    ensures var after := EnginePass(t, candidates).value.tables;
            || OnFile(after.edges, candidates[c].Key(), candidates[c].confidence)
            || WouldCreateCycle(after, candidates[c].parent, candidates[c].child)
  {
    hide OnFile, WouldCreateCycle, CommitOne, CommitAll;
    var k, merged := candidates[c].Key(), Merge(candidates);
    assert candidates[c].Key() == k && k in FirstSeen(candidates);
    var i :| 0 <= i < |FirstSeen(candidates)| && FirstSeen(candidates)[i] == k;
    MergeKeepsFirstMaximum(candidates, i);
    CommitAllFiles(Pass(t, [], 0), merged, i);
    var after := CommitAll(Pass(t, [], 0), merged).value.tables;
    OnFileWeakens(after.edges, k, merged[i].confidence, candidates[c].confidence);
    SameEdgesSameCycles(after, EnginePass(t, candidates).value.tables, k);
  }

  lemma OnFileWeakens(edges: map<Key, Edge>, k: Key, confidence: int, lower: int)
    requires lower <= confidence
    ensures OnFile(edges, k, confidence) ==> OnFile(edges, k, lower)
  {
  }

  lemma SameEdgesSameCycles(t: Tables, t': Tables, k: Key)
    requires t.edges == t'.edges
    ensures WouldCreateCycle(t, k.source, k.target) == WouldCreateCycle(t', k.source, k.target)
  {
  }

  // ---- Running a pass again ----

  /** The row a candidate would write is already there, or a person has decided about it. */
  predicate Settled(edges: map<Key, Edge>, c: Candidate) {
    var k := c.Key();
    k in edges && (Locked(edges[k]) || (edges[k].active && Refreshed(edges[k], c.ToEdge()) == edges[k]))
  }

  /** Committing the candidate would change nothing. */
  predicate Quiet(t: Tables, c: Candidate) {
    c.confidence < NEEDS_REVIEW_FLOOR || WouldCreateCycle(t, c.parent, c.child) || Settled(t.edges, c)
  }

  lemma CommitOneSettles(p: Pass, c: Candidate)
    requires CommitOne(p, c).Ok?
    ensures Quiet(CommitOne(p, c).value.tables, c)
  {
    hide Descendants;
    if c.Key() in p.tables.edges {
      RefreshedKeepsBest(p.tables.edges[c.Key()], c.ToEdge());
    }
  }

  lemma CommitOneKeepsQuiet(p: Pass, c: Candidate, d: Candidate)
    requires CommitOne(p, c).Ok? && d.Key() != c.Key() && Quiet(p.tables, d)
    ensures Quiet(CommitOne(p, c).value.tables, d)
  {
    hide WouldCreateCycle, Refreshed;
    CommitOneKeepsFiled(p, c, d.Key(), d.confidence);
  }

  lemma {:induction false} CommitAllKeepsQuiet(p: Pass, cs: seq<Candidate>, d: Candidate)
    requires CommitAll(p, cs).Ok? && Quiet(p.tables, d) && forall i :: 0 <= i < |cs| ==> cs[i].Key() != d.Key()
    ensures Quiet(CommitAll(p, cs).value.tables, d)
    decreases |cs|
  {
    hide Quiet, CommitOne;
    if cs != [] {
      CommitOneKeepsQuiet(p, cs[0], d);
      CommitAllKeepsQuiet(CommitOne(p, cs[0]).value, cs[1..], d);
    }
  }

  lemma {:induction false} CommitAllSettles(p: Pass, cs: seq<Candidate>, i: nat)
    requires CommitAll(p, cs).Ok? && i < |cs| && forall j, k :: 0 <= j < k < |cs| ==> cs[j].Key() != cs[k].Key()
    ensures Quiet(CommitAll(p, cs).value.tables, cs[i])
    decreases |cs|
  {
    hide Quiet, CommitOne;
    if i == 0 {
      CommitOneSettles(p, cs[0]);
      CommitAllKeepsQuiet(CommitOne(p, cs[0]).value, cs[1..], cs[0]);
    } else {
      CommitAllSettles(CommitOne(p, cs[0]).value, cs[1..], i - 1);
    }
  }

  lemma QuietCommit(p: Pass, c: Candidate)
    requires Quiet(p.tables, c)
    ensures CommitOne(p, c).Ok? && CommitOne(p, c).value.tables == p.tables
    ensures CommitOne(p, c).value.created == p.created
  {
    hide WouldCreateCycle;
    var edges, k := p.tables.edges, c.Key();
    if Settled(edges, c) && !Locked(edges[k]) {
      assert edges[k := edges[k]] == edges;
    }
  }

  lemma {:induction false} QuietRunIsIdle(p: Pass, cs: seq<Candidate>)
    requires forall i :: 0 <= i < |cs| ==> Quiet(p.tables, cs[i])
    ensures CommitAll(p, cs).Ok? && CommitAll(p, cs).value.tables == p.tables
    ensures CommitAll(p, cs).value.created == p.created
    decreases |cs|
  {
    hide Quiet, CommitOne;
    if cs != [] {
      QuietCommit(p, cs[0]);
      QuietRunIsIdle(CommitOne(p, cs[0]).value, cs[1..]);
    }
  }

  /** A second pass over the same candidates succeeds, creates nothing and changes nothing --
      whatever cycles, locks or duplicates the first one met. */
  lemma RerunIsIdle(t: Tables, candidates: seq<Candidate>)
    requires StatusDerived(t) && EnginePass(t, candidates).Ok?
    ensures var t' := EnginePass(t, candidates).value.tables;
            EnginePass(t', candidates).Ok? && EnginePass(t', candidates).value.tables == t'
            && EnginePass(t', candidates).value.created == 0
  {
    hide Quiet, CommitOne, CommitAll, Merge, StatusOf;
    var merged, first := Merge(candidates), CommitAll(Pass(t, [], 0), Merge(candidates)).value;
    var t' := EnginePass(t, candidates).value.tables;
    MergedKeysDiffer(candidates);
    forall i | 0 <= i < |merged| ensures Quiet(t', merged[i]) {
      CommitAllSettles(Pass(t, [], 0), merged, i);
      QuietIgnoresNodes(first.tables, t', merged[i]);
    }
    QuietRunIsIdle(Pass(t', [], 0), merged);
    EnginePassKeeps(t, candidates);
    RecomputeAllIdle(t', Touched(CommitAll(Pass(t', [], 0), merged).value.committed));
  }

  lemma MergedKeysDiffer(candidates: seq<Candidate>)
    ensures forall j, k :: 0 <= j < k < |Merge(candidates)| ==> Merge(candidates)[j].Key() != Merge(candidates)[k].Key()
  {
    hide Merge;
    forall j, k | 0 <= j < k < |Merge(candidates)| ensures Merge(candidates)[j].Key() != Merge(candidates)[k].Key() {
      MergeKeepsFirstMaximum(candidates, j);
    }
  }

  lemma QuietIgnoresNodes(t: Tables, t': Tables, c: Candidate)
    requires t.edges == t'.edges
    ensures Quiet(t, c) == Quiet(t', c)
  {
  }

  lemma RecomputeAllIdle(t: Tables, touched: set<NodeId>)
    requires StatusDerived(t)
    ensures RecomputeAll(t, touched) == t
  {
    assert RecomputeAll(t, touched).nodes == t.nodes;
  }

  // ---- What `created` counts ----

  /** Stored rows the pass switched back on. */
  function Revived(edges: map<Key, Edge>, edges': map<Key, Edge>): set<Key> {
    set k | k in edges && !edges[k].active && k in edges' && edges'[k].active
  }

  lemma CountGrowth(rows: set<Key>, rows': set<Key>, on: set<Key>, on': set<Key>)
    requires rows <= rows' && on <= rows && on <= on' && rows' - rows <= on' <= rows'
    ensures |on'| - |on| == |rows'| - |rows| + |on' * rows - on|
  {
    var added := rows' - rows;
    assert on' == on + (on' * rows - on) + added;
    assert on !! (on' * rows - on) && (on + (on' * rows - on)) !! added;
    assert rows' == rows + added;
  }

  lemma GrowthSplits(edges: map<Key, Edge>, edges': map<Key, Edge>, touched: set<NodeId>, created: int)
    requires Grew(edges, edges', touched, created)
    ensures created == |edges'| - |edges| + |Revived(edges, edges')|
  {
    assert Revived(edges, edges') == ActiveKeys(edges') * edges.Keys - ActiveKeys(edges);
    CountGrowth(edges.Keys, edges'.Keys, ActiveKeys(edges), ActiveKeys(edges'));
    assert |edges| == |edges.Keys| && |edges'| == |edges'.Keys|;
  }

  /** Committing c, here and now, would switch a stored row back on: the row is there,
      inactive and unreviewed, and c is eligible and closes no cycle. */
  predicate SwitchesOn(t: Tables, c: Candidate) {
    && c.confidence >= NEEDS_REVIEW_FLOOR && !WouldCreateCycle(t, c.parent, c.child)
    && c.Key() in t.edges && !t.edges[c.Key()].active && !Locked(t.edges[c.Key()])
  }

  /** Some candidate does, on the tables of its own turn. */
  predicate SomeSwitchesOn(p: Pass, cs: seq<Candidate>)
    decreases |cs|
  {
    cs != [] && CommitOne(p, cs[0]).Ok?
    && (SwitchesOn(p.tables, cs[0]) || SomeSwitchesOn(CommitOne(p, cs[0]).value, cs[1..]))
  }

  function InactiveKeys(edges: map<Key, Edge>): set<Key> {
    edges.Keys - ActiveKeys(edges)
  }

  /** One turn switches on the row of its candidate, or no stored row. */
  lemma CommitOneSwitches(p: Pass, c: Candidate)
    requires CommitOne(p, c).Ok?
    ensures var after := CommitOne(p, c).value.tables.edges;
            && ActiveKeys(p.tables.edges) <= ActiveKeys(after)
            && InactiveKeys(after) == InactiveKeys(p.tables.edges) - (if SwitchesOn(p.tables, c) then {c.Key()} else {})
            && (SwitchesOn(p.tables, c) ==> c.Key() in InactiveKeys(p.tables.edges))
  {
    hide WouldCreateCycle;
    if CommitOne(p, c).value.tables != p.tables {
      UpsertKeeps(p.tables.edges, c.Key(), c.ToEdge());
    }
  }

  lemma {:induction false} CommitAllSwitches(p: Pass, cs: seq<Candidate>)
    requires CommitAll(p, cs).Ok?
    ensures InactiveKeys(CommitAll(p, cs).value.tables.edges) <= InactiveKeys(p.tables.edges)
    ensures var after := CommitAll(p, cs).value.tables.edges;
            InactiveKeys(after) == InactiveKeys(p.tables.edges) <==> !SomeSwitchesOn(p, cs)
    decreases |cs|
  {
    hide SwitchesOn, CommitOne, InactiveKeys;
    if cs != [] {
      CommitOneSwitches(p, cs[0]);
      CommitAllSwitches(CommitOne(p, cs[0]).value, cs[1..]);
    }
  }

  lemma RevivedAreReactivated(edges: map<Key, Edge>, edges': map<Key, Edge>)
    requires edges.Keys <= edges'.Keys
    ensures Revived(edges, edges') == InactiveKeys(edges) - InactiveKeys(edges')
  {
  }

  /** The rows a pass switched back on: none exactly when no candidate does so at its turn. */
  lemma RevivedIff(t: Tables, candidates: seq<Candidate>)
    requires EnginePass(t, candidates).Ok?
    ensures Revived(t.edges, EnginePass(t, candidates).value.tables.edges) == {}
       <==> !SomeSwitchesOn(Pass(t, [], 0), Merge(candidates))
  {
    hide Merge, CommitAll, SomeSwitchesOn, Revived, InactiveKeys;
    var start, after := Pass(t, [], 0), EnginePass(t, candidates).value.tables.edges;
    CommitAllSwitches(start, Merge(candidates));
    EmptyPassKept(t);
    CommitAllKeeps(t, start, Merge(candidates));
    RevivedAreReactivated(t.edges, after);
    NothingTaken(InactiveKeys(t.edges), InactiveKeys(after));
  }

  lemma NothingTaken(all: set<Key>, left: set<Key>)
    requires left <= all
    ensures all - left == {} <==> left == all
  {
    if all - left == {} {
      forall k | k in all ensures k in left {
        assert k !in all - left;
      }
    }
  }

  /** `created` counts the growth in ACTIVE rows. It counts the growth in stored rows -- the
      documented exact number of new rows -- if and only if no candidate, at its own turn,
      switches a stored row back on. */
  lemma CreatedCountsActivations(t: Tables, candidates: seq<Candidate>)
    requires EnginePass(t, candidates).Ok?
    ensures var p := EnginePass(t, candidates).value;
            && p.created == |ActiveKeys(p.tables.edges)| - |ActiveKeys(t.edges)|
            && p.created == |p.tables.edges| - |t.edges| + |Revived(t.edges, p.tables.edges)|
            && (p.created == |p.tables.edges| - |t.edges| <==> !SomeSwitchesOn(Pass(t, [], 0), Merge(candidates)))
  {
    hide SomeSwitchesOn, Merge, InactiveKeys;
    EmptyPassKept(t);
    CommitAllKeeps(t, Pass(t, [], 0), Merge(candidates));
    var p := EnginePass(t, candidates).value;
    GrowthSplits(t.edges, p.tables.edges, Touched(p.committed), p.created);
    RevivedIff(t, candidates);
  }

  /** The caller's view: `created` is exact when no eligible merged candidate names a stored
      row that is inactive and unreviewed before the pass. */
  lemma CreatedIsExact(t: Tables, candidates: seq<Candidate>)
    requires EnginePass(t, candidates).Ok?
    requires forall i :: 0 <= i < |Merge(candidates)| && Merge(candidates)[i].confidence >= NEEDS_REVIEW_FLOOR ==>
               !NamesInactive(t.edges, Merge(candidates)[i].Key())
    ensures EnginePass(t, candidates).value.created == |EnginePass(t, candidates).value.tables.edges| - |t.edges|
  {
    hide SomeSwitchesOn, Merge, CommitAll, EnginePass;
    CreatedCountsActivations(t, candidates);
    NoneSwitchesOn(Pass(t, [], 0), Merge(candidates));
  }

  predicate NamesInactive(edges: map<Key, Edge>, k: Key) {
    k in edges && !edges[k].active && !Locked(edges[k])
  }

  lemma {:induction false} NoneSwitchesOn(p: Pass, cs: seq<Candidate>)
    requires forall i :: 0 <= i < |cs| && cs[i].confidence >= NEEDS_REVIEW_FLOOR ==>
      !NamesInactive(p.tables.edges, cs[i].Key())
    ensures !SomeSwitchesOn(p, cs)
    decreases |cs|
  {
    if cs != [] && CommitOne(p, cs[0]).Ok? {
      var after := CommitOne(p, cs[0]).value;
      forall k ensures NamesInactive(after.tables.edges, k) ==> NamesInactive(p.tables.edges, k) {
        NoNewInactive(p, cs[0], k);
      }
      NoneSwitchesOn(after, cs[1..]);
    }
  }

  lemma NoNewInactive(p: Pass, c: Candidate, k: Key)
    requires CommitOne(p, c).Ok?
    ensures NamesInactive(CommitOne(p, c).value.tables.edges, k) ==> NamesInactive(p.tables.edges, k)
  {
    hide WouldCreateCycle;
  }

  lemma MergeOfOne(c: Candidate)
    ensures Merge([c]) == [c.(evidence := PerResolver(map[c.resolver := c.evidence]))]
  {
    MergeOneMore([], c, c.Key());
    assert [] + [c] == [c] && [c][..0] == [];
    assert FirstSeen([c]) == [c.Key()];
  }

  /** The existence check looks at active rows only, so a single eligible candidate that
      names a stored, inactive, unreviewed edge is reported as a created row although the
      table gains none. */
  lemma RevivalIsCountedAsCreation(t: Tables, c: Candidate)
    requires c.confidence >= NEEDS_REVIEW_FLOOR && !WouldCreateCycle(t, c.parent, c.child)
    requires c.Key() in t.edges && !t.edges[c.Key()].active && !Locked(t.edges[c.Key()])
    ensures var p := EnginePass(t, [c]); p.Ok? && p.value.created == 1 && |p.value.tables.edges| == |t.edges|
  {
    MergeOfOne(c);
    var m := c.(evidence := PerResolver(map[c.resolver := c.evidence]));
    var p := Pass(t, [], 0);
    assert CommitAll(p, [m]) == CommitAll(CommitOne(p, m).value, [m][1..]);
    var after := UpsertMediaEdge(t.edges, c.Key(), m.ToEdge()).value;
    assert after.Keys == t.edges.Keys;
    assert |after| == |after.Keys| && |t.edges| == |t.edges.Keys|;
  }

  // ---- What a pass leaves in every row ----

  predicate Proposes(c: Candidate, k: Key) {
    c.parent == k.source && c.child == k.target && c.rel == k.rel
  }

  /** Candidate w speaks for k: nobody is more confident, and nobody was as confident before. */
  ghost predicate Leads(cs: seq<Candidate>, k: Key, w: nat) {
    && w < |cs| && Proposes(cs[w], k)
    && forall j :: 0 <= j < |cs| && Proposes(cs[j], k) ==>
         cs[j].confidence <= cs[w].confidence && (j < w ==> cs[j].confidence < cs[w].confidence)
  }

  /** Exactly the resolvers that proposed k, each with the last evidence it gave. */
  ghost predicate LastWords(cs: seq<Candidate>, k: Key, e: Evidence) {
    && e.PerResolver?
    && (forall r :: r in e.signals <==> exists i :: 0 <= i < |cs| && Proposes(cs[i], k) && cs[i].resolver == r)
    && (forall r :: r in e.signals ==>
          exists i :: 0 <= i < |cs| && Proposes(cs[i], k) && cs[i].resolver == r && e.signals[r] == cs[i].evidence
            && forall j :: i < j < |cs| && Proposes(cs[j], k) ==> cs[j].resolver != r)
  }

  /** The row the candidates make of k: confidence, tier and resolver of the one that leads,
      accepted at once from 0.85 in Tier 3 and from 0.90 elsewhere, up for review below. */
  ghost predicate ProposedRow(cs: seq<Candidate>, k: Key, e: Edge) {
    && (exists w: nat :: Leads(cs, k, w)
          && e.confidence == cs[w].confidence && e.tier == cs[w].tier && e.resolver == cs[w].resolver)
    && LastWords(cs, k, e.evidence) && e.active
    && e.review == if e.confidence >= (if e.tier == 3 then 85 else 90) then AutoAccepted else NeedsReview
  }

  ghost predicate RowTakes(edges: map<Key, Edge>, edges': map<Key, Edge>, k: Key, e: Edge) {
    k in edges' && edges'[k].active && if k in edges then Combined(edges[k], e, edges'[k]) else edges'[k] == e
  }

  ghost predicate RowWritten(cs: seq<Candidate>, edges: map<Key, Edge>, edges': map<Key, Edge>, k: Key) {
    exists e :: ProposedRow(cs, k, e) && RowTakes(edges, edges', k, e)
  }

  /** At or above the review floor of 0.50. */
  ghost predicate SomeoneEligible(cs: seq<Candidate>, k: Key) {
    exists i :: 0 <= i < |cs| && Proposes(cs[i], k) && cs[i].confidence >= 50
  }

  /** What a pass makes of row k. It is written exactly when somebody eligible proposes it, no
      person has decided about it and it closes no cycle at its turn -- which may only be
      because of the rows written before it. From an acyclic lineage, the cycles at the end
      tell. */
  ghost predicate PassRow(t: Tables, cs: seq<Candidate>, t': Tables, k: Key) {
    && (RowKept(t.edges, t'.edges, k) || RowWritten(cs, t.edges, t'.edges, k))
    && (!SomeoneEligible(cs, k) || Decided(t.edges, k) || WouldCreateCycle(t, k.source, k.target) ==>
          RowKept(t.edges, t'.edges, k))
    && (SomeoneEligible(cs, k) && !Decided(t.edges, k) && !WouldCreateCycle(t', k.source, k.target) ==>
          RowWritten(cs, t.edges, t'.edges, k))
    && (AcyclicEdges(t) && WouldCreateCycle(t', k.source, k.target) ==> RowKept(t.edges, t'.edges, k))
  }

  /** The rows a pass reports: as they now stand, each once, and exactly those of eligible
      candidates that closed no cycle -- human decisions included. */
  ghost predicate Reports(cs: seq<Candidate>, t': Tables, committed: seq<(Key, Edge)>) {
    && (forall i :: 0 <= i < |committed| ==>
          && committed[i].0 in t'.edges && committed[i].1 == t'.edges[committed[i].0]
          && SomeoneEligible(cs, committed[i].0))
    && (forall i, j :: 0 <= i < j < |committed| ==> committed[i].0 != committed[j].0)
    && (forall k :: SomeoneEligible(cs, k) && !WouldCreateCycle(t', k.source, k.target) ==>
          exists i :: 0 <= i < |committed| && committed[i].0 == k)
  }

  /** Statuses follow the rows for the children of reported rows that are not rejected, and stay
      as they were for everybody else. */
  ghost predicate PassStatuses(t: Tables, t': Tables, committed: seq<(Key, Edge)>) {
    t'.nodes.Keys == t.nodes.Keys
    && forall n :: n in t.nodes ==>
         if exists i :: 0 <= i < |committed| && committed[i].0.target == n && committed[i].1.review != Rejected
         then RowsSay(t'.edges, n, t'.nodes[n].status)
              && t'.nodes[n] == t.nodes[n].(status := t'.nodes[n].status)
         else t'.nodes[n] == t.nodes[n]
  }

  ghost predicate PassDone(t: Tables, cs: seq<Candidate>, t': Tables, committed: seq<(Key, Edge)>) {
    && t' == t.(nodes := t'.nodes, edges := t'.edges)
    && (forall k :: PassRow(t, cs, t', k))
    && Reports(cs, t', committed) && PassStatuses(t, t', committed)
  }

  lemma KeyProposes(c: Candidate, k: Key)
    ensures c.Key() == k <==> Proposes(c, k)
  {
  }

  lemma MergedIsProposed(cs: seq<Candidate>, k: Key)
    requires k in FirstSeen(cs)
    ensures Merged(cs, k).Key() == k && ProposedRow(cs, k, Merged(cs, k).ToEdge())
    ensures Merged(cs, k).confidence >= 50 <==> SomeoneEligible(cs, k)
  {
    var w, row := Winner(cs, k), Merged(cs, k).ToEdge();
    assert Leads(cs, k, w);
    forall r ensures r in Signals(cs, k) <==> exists i :: 0 <= i < |cs| && Proposes(cs[i], k) && cs[i].resolver == r {
      SignalsDomain(cs, k, r);
    }
    forall r | r in Signals(cs, k)
      ensures exists i :: 0 <= i < |cs| && Proposes(cs[i], k) && cs[i].resolver == r
                && Signals(cs, k)[r] == cs[i].evidence
                && forall j :: i < j < |cs| && Proposes(cs[j], k) ==> cs[j].resolver != r
    {
      var i := SignalsAreLastWords(cs, k, r);
    }
    assert LastWords(cs, k, row.evidence);
  }

  lemma CommitOneRow(p: Pass, c: Candidate)
    requires CommitOne(p, c).Ok?
    ensures var edges, edges', k := p.tables.edges, CommitOne(p, c).value.tables.edges, c.Key();
            && OnlyRow(edges, edges', k)
            && if c.confidence < 50 || Decided(edges, k) || WouldCreateCycle(p.tables, c.parent, c.child)
               then edges' == edges else RowTakes(edges, edges', k, c.ToEdge())
  {
    hide WouldCreateCycle;
    CommitOneRows(p, c);
    if c.Key() in p.tables.edges {
      RefreshedKeepsBest(p.tables.edges[c.Key()], c.ToEdge());
    }
  }

  lemma {:induction false} OtherRowsKept(p: Pass, cs: seq<Candidate>, k: Key)
    requires CommitAll(p, cs).Ok? && forall i :: 0 <= i < |cs| ==> cs[i].Key() != k
    ensures RowKept(p.tables.edges, CommitAll(p, cs).value.tables.edges, k)
    decreases |cs|
  {
    hide CommitOne;
    if cs != [] {
      CommitOneRows(p, cs[0]);
      OtherRowsKept(CommitOne(p, cs[0]).value, cs[1..], k);
    }
  }

  lemma {:induction false} CyclesStay(p: Pass, cs: seq<Candidate>, k: Key)
    requires CommitAll(p, cs).Ok? && WouldCreateCycle(p.tables, k.source, k.target)
    ensures WouldCreateCycle(CommitAll(p, cs).value.tables, k.source, k.target)
    decreases |cs|
  {
    hide OnFile, WouldCreateCycle, CommitOne;
    if cs != [] {
      CommitOneKeepsFiled(p, cs[0], k, 0);
      CyclesStay(CommitOne(p, cs[0]).value, cs[1..], k);
    }
  }

  ghost predicate DistinctKeys(cs: seq<Candidate>) {
    forall j, k :: 0 <= j < k < |cs| ==> cs[j].Key() != cs[k].Key()
  }

  /** Row k is decided at the turn of its one candidate. */
  lemma {:induction false} CommitAllRow(p: Pass, cs: seq<Candidate>, i: nat)
    requires CommitAll(p, cs).Ok? && i < |cs| && DistinctKeys(cs)
    ensures var t, t', c, k := p.tables, CommitAll(p, cs).value.tables, cs[i], cs[i].Key();
            && (RowKept(t.edges, t'.edges, k) || RowTakes(t.edges, t'.edges, k, c.ToEdge()))
            && (c.confidence < 50 || Decided(t.edges, k) || WouldCreateCycle(t, c.parent, c.child) ==>
                  RowKept(t.edges, t'.edges, k))
            && (c.confidence >= 50 && !Decided(t.edges, k) && !WouldCreateCycle(t', c.parent, c.child) ==>
                  RowTakes(t.edges, t'.edges, k, c.ToEdge()))
    decreases |cs|
  {
    hide WouldCreateCycle, CommitOne, Combined, CommitAll;
    CommitAllStep(p, cs);
    var c, k, q := cs[i], cs[i].Key(), CommitOne(p, cs[0]).value;
    CommitOneRow(p, cs[0]);
    if i == 0 {
      OtherRowsKept(q, cs[1..], k);
      if WouldCreateCycle(p.tables, c.parent, c.child) {
        CyclesStay(p, cs, k);
      }
    } else {
      CommitAllRow(q, cs[1..], i - 1);
      if WouldCreateCycle(p.tables, c.parent, c.child) {
        CommitOneKeepsFiled(p, cs[0], k, 0);
      }
    }
  }

  lemma CommitAllStep(p: Pass, cs: seq<Candidate>)
    requires CommitAll(p, cs).Ok? && cs != []
    ensures CommitOne(p, cs[0]).Ok? && CommitAll(CommitOne(p, cs[0]).value, cs[1..]) == CommitAll(p, cs)
  {
  }

  /** An active row of an acyclic lineage closes no cycle. */
  lemma ActiveRowIsNoCycle(t: Tables, k: Key)
    requires AcyclicEdges(t) && k in t.edges && t.edges[k].active
    ensures !WouldCreateCycle(t, k.source, k.target)
  {
    assert (k.source, k.target) in ActiveRelation(t.edges);
    DescendantsExact(ActiveRelation(t.edges), k.target, k.source);
  }

  lemma PassRowExact(t: Tables, cs: seq<Candidate>, k: Key)
    requires EnginePass(t, cs).Ok?
    ensures PassRow(t, cs, EnginePass(t, cs).value.tables, k)
  {
    hide WouldCreateCycle, CommitAll, CommitOne, AcyclicEdges, ProposedRow, SomeoneEligible, RowTakes, Merge, RowKept;
    var start, merged := Pass(t, [], 0), Merge(cs);
    var after, t' := CommitAll(start, merged).value.tables, EnginePass(t, cs).value.tables;
    MergedKeys(cs, k);
    SameEdgesSameCycles(after, t', k);
    if k in FirstSeen(cs) {
      var i :| 0 <= i < |merged| && merged[i].Key() == k;
      MergedIsProposed(cs, k);
      CommitAllRow(start, merged, i);
      EnginePassKeeps(t, cs);
      if RowTakes(t.edges, t'.edges, k, merged[i].ToEdge()) {
        assert RowWritten(cs, t.edges, t'.edges, k);
        TakenIsActive(t.edges, t'.edges, k, merged[i].ToEdge());
        if AcyclicEdges(t) {
          ActiveRowIsNoCycle(t', k);
        }
      }
    } else {
      NobodyEligible(cs, k);
      OtherRowsKept(start, merged, k);
    }
  }

  lemma TakenIsActive(edges: map<Key, Edge>, edges': map<Key, Edge>, k: Key, e: Edge)
    requires RowTakes(edges, edges', k, e)
    ensures k in edges' && edges'[k].active
  {
  }

  lemma NobodyEligible(cs: seq<Candidate>, k: Key)
    requires k !in FirstSeen(cs)
    ensures !SomeoneEligible(cs, k)
  {
    assert forall i :: 0 <= i < |cs| ==> cs[i].Key() != k;
  }

  lemma MergedKeys(cs: seq<Candidate>, k: Key)
    ensures DistinctKeys(Merge(cs))
    ensures k in FirstSeen(cs) <==> exists i :: 0 <= i < |Merge(cs)| && Merge(cs)[i].Key() == k
    ensures forall i :: 0 <= i < |Merge(cs)| ==>
              Merge(cs)[i].Key() in FirstSeen(cs) && Merge(cs)[i] == Merged(cs, Merge(cs)[i].Key())
  {
    assert forall j :: 0 <= j < |Merge(cs)| ==> Merge(cs)[j].Key() == FirstSeen(cs)[j];
    if k in FirstSeen(cs) {
      var i :| 0 <= i < |FirstSeen(cs)| && FirstSeen(cs)[i] == k;
      assert Merge(cs)[i].Key() == k;
    }
  }

  // What committing `cs` adds to the report: rows as they stand at the end, each with an
  // eligible candidate and none twice, and all that closed no cycle.

  ghost predicate Entered(cs: seq<Candidate>, k: Key) {
    exists i :: 0 <= i < |cs| && cs[i].Key() == k && cs[i].confidence >= 50
  }

  ghost predicate Sourced(p: Pass, cs: seq<Candidate>, q: Pass) {
    p.committed <= q.committed
    && forall j :: |p.committed| <= j < |q.committed| ==>
         && q.committed[j].0 in q.tables.edges && q.committed[j].1 == q.tables.edges[q.committed[j].0]
         && Entered(cs, q.committed[j].0)
  }

  ghost predicate NoneTwice(p: Pass, q: Pass) {
    forall j, j' :: |p.committed| <= j < j' < |q.committed| ==> q.committed[j].0 != q.committed[j'].0
  }

  ghost predicate Reported(committed: seq<(Key, Edge)>, k: Key) {
    exists j :: 0 <= j < |committed| && committed[j].0 == k
  }

  ghost predicate AllListed(cs: seq<Candidate>, q: Pass) {
    forall i :: 0 <= i < |cs| && cs[i].confidence >= 50 && !WouldCreateCycle(q.tables, cs[i].parent, cs[i].child) ==>
      Reported(q.committed, cs[i].Key())
  }

  lemma CommitOneReport(p: Pass, c: Candidate)
    requires CommitOne(p, c).Ok?
    ensures var q := CommitOne(p, c).value;
            if c.confidence < 50 || WouldCreateCycle(p.tables, c.parent, c.child) then q == p
            else c.Key() in q.tables.edges && q.committed == p.committed + [(c.Key(), q.tables.edges[c.Key()])]
  {
    hide WouldCreateCycle;
  }

  lemma {:induction false} CommitAllReport(p: Pass, cs: seq<Candidate>)
    requires CommitAll(p, cs).Ok? && DistinctKeys(cs)
    ensures var q := CommitAll(p, cs).value; Sourced(p, cs, q) && NoneTwice(p, q) && AllListed(cs, q)
    decreases |cs|
  {
    hide WouldCreateCycle, CommitOne, CommitAll, Reported, Sourced, NoneTwice, Entered;
    if cs == [] {
      EmptyCommit(p);
    } else {
      CommitAllStep(p, cs);
      var c, one, q := cs[0], CommitOne(p, cs[0]).value, CommitAll(p, cs).value;
      CommitOneReport(p, c);
      CommitAllReport(one, cs[1..]);
      OtherRowsKept(one, cs[1..], c.Key());
      if WouldCreateCycle(p.tables, c.parent, c.child) {
        CyclesStay(p, cs, c.Key());
      }
      ReportStep(p, cs, one, q);
    }
  }

  lemma ReportStep(p: Pass, cs: seq<Candidate>, one: Pass, q: Pass)
    requires cs != [] && DistinctKeys(cs) && Sourced(one, cs[1..], q) && NoneTwice(one, q) && AllListed(cs[1..], q)
    requires RowKept(one.tables.edges, q.tables.edges, cs[0].Key())
    requires one == p
             || (cs[0].confidence >= 50 && cs[0].Key() in one.tables.edges
                 && one.committed == p.committed + [(cs[0].Key(), one.tables.edges[cs[0].Key()])])
    requires one == p ==> cs[0].confidence < 50 || WouldCreateCycle(q.tables, cs[0].parent, cs[0].child)
    ensures Sourced(p, cs, q) && NoneTwice(p, q) && AllListed(cs, q)
  {
    hide WouldCreateCycle;
    forall k ensures Entered(cs[1..], k) ==> Entered(cs, k) && k != cs[0].Key() {
      if Entered(cs[1..], k) {
        var i :| 0 <= i < |cs[1..]| && cs[1..][i].Key() == k && cs[1..][i].confidence >= 50;
        assert cs[i + 1] == cs[1..][i];
      }
    }
    forall j | |p.committed| <= j < |one.committed| ensures q.committed[j] == one.committed[j] {
    }
    if one != p {
      assert q.committed[|p.committed|] == (cs[0].Key(), one.tables.edges[cs[0].Key()]);
    }
    forall i | 0 < i < |cs| && cs[i].confidence >= 50 && !WouldCreateCycle(q.tables, cs[i].parent, cs[i].child)
      ensures Reported(q.committed, cs[i].Key())
    {
      assert cs[1..][i - 1] == cs[i];
    }
  }

  lemma EmptyCommit(p: Pass)
    ensures CommitAll(p, []) == Ok(p)
    ensures Sourced(p, [], p) && NoneTwice(p, p)
  {
  }

  lemma PassReports(t: Tables, cs: seq<Candidate>)
    requires EnginePass(t, cs).Ok?
    ensures Reports(cs, EnginePass(t, cs).value.tables, EnginePass(t, cs).value.committed)
  {
    hide WouldCreateCycle, CommitAll, CommitOne, SomeoneEligible, Merge, Reported, Entered, AllListed;
    var start, merged, p := Pass(t, [], 0), Merge(cs), EnginePass(t, cs).value;
    var q := CommitAll(start, merged).value;
    CommitAllReport(start, merged) by {
      MergedKeys(cs, Key("", "", DerivedFrom));
    }
    forall k: Key ensures Entered(merged, k) <==> SomeoneEligible(cs, k) {
      EnteredIff(cs, k);
    }
    forall k: Key | SomeoneEligible(cs, k) && !WouldCreateCycle(p.tables, k.source, k.target)
      ensures exists i :: 0 <= i < |p.committed| && p.committed[i].0 == k
    {
      SameEdgesSameCycles(q.tables, p.tables, k);
      EnteredIsListed(merged, q, k);
    }
  }

  lemma EnteredIsListed(cs: seq<Candidate>, q: Pass, k: Key)
    requires AllListed(cs, q) && Entered(cs, k) && !WouldCreateCycle(q.tables, k.source, k.target)
    ensures exists j :: 0 <= j < |q.committed| && q.committed[j].0 == k
  {
    hide WouldCreateCycle;
    var i :| 0 <= i < |cs| && cs[i].Key() == k && cs[i].confidence >= 50;
  }

  lemma EnteredIff(cs: seq<Candidate>, k: Key)
    ensures Entered(Merge(cs), k) <==> SomeoneEligible(cs, k)
  {
    hide Merge, SomeoneEligible, Merged;
    MergedKeys(cs, k);
    if k in FirstSeen(cs) {
      MergedIsProposed(cs, k);
    } else {
      NobodyEligible(cs, k);
    }
  }

  /** A committed pass, row by row and status by status, from the candidates alone. */
  lemma PassOutcome(t: Tables, cs: seq<Candidate>)
    requires EnginePass(t, cs).Ok?
    ensures PassDone(t, cs, EnginePass(t, cs).value.tables, EnginePass(t, cs).value.committed)
  {
    hide PassRow, Reports, CommitAll, Merge, StatusOf;
    var p := EnginePass(t, cs).value;
    EnginePassKeeps(t, cs);
    forall k ensures PassRow(t, cs, p.tables, k) {
      PassRowExact(t, cs, k);
    }
    PassReports(t, cs);
    var q := CommitAll(Pass(t, [], 0), Merge(cs)).value;
    EmptyPassKept(t);
    CommitAllKeeps(t, Pass(t, [], 0), Merge(cs));
    forall n | n in t.nodes && n in Touched(p.committed) ensures RowsSay(p.tables.edges, n, p.tables.nodes[n].status) {
      StatusIsWhatRowsSay(p.tables.edges, n, p.tables.nodes[n].status);
    }
  }

  /** A pass fails on an unknown node only. */
  lemma {:induction false} CommitAllSucceeds(p: Pass, cs: seq<Candidate>)
    requires forall i :: 0 <= i < |cs| && cs[i].confidence >= 50 ==>
               cs[i].parent in p.tables.nodes && cs[i].child in p.tables.nodes
    ensures CommitAll(p, cs).Ok?
    decreases |cs|
  {
    if cs != [] {
      CommitOneSucceeds(p, cs[0]);
      CommitAllSucceeds(CommitOne(p, cs[0]).value, cs[1..]);
    }
  }

  lemma CommitOneSucceeds(p: Pass, c: Candidate)
    requires c.confidence >= 50 ==> c.parent in p.tables.nodes && c.child in p.tables.nodes
    ensures CommitOne(p, c).Ok? && CommitOne(p, c).value.tables.nodes == p.tables.nodes
  {
    hide Descendants;
    ReachesSelf(ActiveRelation(p.tables.edges), c.child);
    DescendantsExact(ActiveRelation(p.tables.edges), c.child, c.child);
  }

  lemma PassSucceeds(t: Tables, cs: seq<Candidate>)
    requires forall i :: 0 <= i < |cs| && cs[i].confidence >= 50 ==> cs[i].parent in t.nodes && cs[i].child in t.nodes
    ensures EnginePass(t, cs).Ok?
  {
    hide CommitAll, Merge;
    var merged := Merge(cs);
    forall i | 0 <= i < |merged| && merged[i].confidence >= 50
      ensures merged[i].parent in t.nodes && merged[i].child in t.nodes
    {
      MergedKeys(cs, merged[i].Key());
      MergedIsProposed(cs, merged[i].Key());
      var w :| 0 <= w < |cs| && Proposes(cs[w], merged[i].Key()) && cs[w].confidence >= 50;
    }
    CommitAllSucceeds(Pass(t, [], 0), merged);
  }

  // ---- The loops ----

  /** One iteration of the commit loop; the tables are only written when it succeeds. */
  method CommitCandidate(db: Database, c: Candidate, committed: seq<(Key, Edge)>, created: nat)
    returns (r: Result<(seq<(Key, Edge)>, nat), EngineError>)
    modifies db
    ensures match CommitOne(Pass(old(db.tables), committed, created), c)
            case Ok(q) => r == Ok((q.committed, q.created)) && db.tables == q.tables
            case Err(e) => r == Err(e) && db.tables == old(db.tables)
    ensures r.Ok? ==> CandidateFiled(old(db.tables), db.tables, c, r.value.1 - created)
  {
    hide Descendants;
    if CommitOne(Pass(db.tables, committed, created), c).Ok? {
      CommitOneOutcome(Pass(db.tables, committed, created), c);
    }
    var k := c.Key();
    if c.confidence < NEEDS_REVIEW_FLOOR {
      return Ok((committed, created));
    }
    if WouldCreateCycle(db.tables, c.parent, c.child) {
      return Ok((committed, created));
    }
    var existed := MediaEdgeExists(db.tables.edges, k);
    if k !in db.tables.edges && !Insertable(db.tables, k) {
      return Err(ConstraintFailed);
    }
    var upserted := UpsertMediaEdge(db.tables.edges, k, c.ToEdge());
    if upserted.None? {
      return Ok((committed + [(k, db.tables.edges[k])], created));
    }
    db.tables := db.tables.(edges := upserted.value);
    return Ok((committed + [(k, db.tables.edges[k])], created + if existed then 0 else 1));
  }

  /** The status loop over the touched children, in any order. */
  method RecomputeTouched(db: Database, children: set<NodeId>)
    modifies db
    ensures db.tables == RecomputeAll(old(db.tables), children)
  {
    ghost var start := db.tables;
    var touched := children;
    while touched != {}
      invariant touched <= children
      invariant db.tables == RecomputeAll(start, children - touched)
      decreases touched
    {
      var n :| n in touched;
      RecomputeOneMore(start, children - touched, n);
      assert children - (touched - {n}) == children - touched + {n};
      db.RecomputeStatusFromPersistedEdges(n);
      touched := touched - {n};
    }
  }

  method ResolveAndCommit(db: Database, candidates: seq<Candidate>)
    returns (r: Result<(seq<(Key, Edge)>, nat), EngineError>)
    modifies db
    ensures match EnginePass(old(db.tables), candidates)
            case Ok(p) => db.tables == p.tables && r == Ok((p.committed, p.created))
            case Err(e) => db.tables == old(db.tables) && r == Err(e)
    ensures r.Ok? ==> PassDone(old(db.tables), candidates, db.tables, r.value.0)
  {
    hide CommitOne, Merge, StatusOf, PassDone;
    if EnginePass(db.tables, candidates).Ok? {
      PassOutcome(db.tables, candidates);
    }
    var merged := MergeCandidates(candidates);
    var start := db.tables;
    ghost var empty := Pass(start, [], 0);
    var eligible := false;
    for i := 0 to |merged|
      invariant !eligible ==> forall j :: 0 <= j < i ==> merged[j].confidence < NEEDS_REVIEW_FLOOR
    {
      if merged[i].confidence >= NEEDS_REVIEW_FLOOR {
        eligible := true;
        break;
      }
    }
    if !eligible {
      IneligiblePassIsEmpty(empty, merged);
      assert RecomputeAll(start, Touched([])) == start;
      return Ok(([], 0));
    }

    var committed: seq<(Key, Edge)>, created := [], 0;
    assert merged[0..] == merged;
    for i := 0 to |merged|
      invariant CommitAll(empty, merged) == CommitAll(Pass(db.tables, committed, created), merged[i..])
    {
      CommitFrom(Pass(db.tables, committed, created), merged, i);
      var step := CommitCandidate(db, merged[i], committed, created);
      if step.Err? {
        db.tables := start;
        return Err(step.error);
      }
      committed, created := step.value.0, step.value.1;
    }
    RecomputeTouched(db, Touched(committed));
    return Ok((committed, created));
  }
}
