/**
  The tables every writer shares, and the queries the writers are built from. A query that
  changes rows is a function from the tables before to the tables after; `Database` is the
  writer connection whose contents the methods of the other modules replace.
 */
module Store {
  import opened Wrappers
  import opened Reachability

  datatype Relationship = DerivedFrom | FinalExport | ProxyOf | ProjectSidecar | DuplicateOf

  datatype Review = AutoAccepted | NeedsReview | Confirmed | Rejected

  datatype Lifecycle = Active | Missing | Archived | Hidden | Trashed

  datatype GraphStatus = Unlinked | Linked | InReview

  /** The three evidence fields anything on the server reads back. */
  datatype EvidenceFields = EvidenceFields(mediaFilePath: string, mediaFilePaths: seq<string>, timelineId: string)

  /** A JSON text with its decoding (None when it does not decode), or the object the engine
      builds with one entry per contributing resolver. */
  datatype Evidence =
    | Json(text: string, fields: Option<EvidenceFields>)
    | PerResolver(signals: map<string, Evidence>)
  {
    function Decode(): Option<EvidenceFields> {
      match this
      case Json(_, fields) => fields
      case PerResolver(_) => Some(EvidenceFields("", [], ""))
    }
  }

  /** UNIQUE (source, target, relationship): the key stands for the row id. */
  datatype Key = Key(source: NodeId, target: NodeId, rel: Relationship)

  /** Confidence is in hundredths. */
  datatype Edge = Edge(confidence: int, tier: int, resolver: string, evidence: Evidence, review: Review, active: bool)

  datatype Node = Node(
    path: string, fileName: string, mtime: int,
    fullHash: Option<string>, indexedFull: bool,
    status: GraphStatus, lifecycle: Lifecycle)

  datatype Alias = Alias(canonical: NodeId, agent: string)

  datatype HashSource = Server | Agent

  datatype Provenance = Provenance(fullHash: string, source: HashSource)

  datatype Tables = Tables(
    nodes: map<NodeId, Node>,
    edges: map<Key, Edge>,
    creators: map<NodeId, string>,
    aliases: map<NodeId, Alias>,
    provenance: map<NodeId, Provenance>,
    scopes: set<(string, string, NodeId)>)

  const EMPTY_TABLES := Tables(map[], map[], map[], map[], map[], {})

  /** What storage.Guard.Resolve says about a path. */
  datatype Location = Location(rootPath: string, readOnly: bool, tier3: bool, isVirtual: bool)

  // ---- Reading edges ----

  /** A human decision. */
  predicate Locked(e: Edge) {
    e.review == Confirmed || e.review == Rejected
  }

  predicate Accepted(e: Edge) {
    e.review == AutoAccepted || e.review == Confirmed
  }

  /** The keys of the rows with is_active = 1. */
  function ActiveKeys(edges: map<Key, Edge>): set<Key> {
    set k | k in edges && edges[k].active
  }

  /** The relation the recursive queries walk: active rows only, whatever their review state. */
  function ActiveRelation(edges: map<Key, Edge>): Relation {
    set k | k in edges && edges[k].active :: (k.source, k.target)
  }

  function DescendantNodeIDs(t: Tables, root: NodeId): set<NodeId> {
    Descendants(ActiveRelation(t.edges), root)
  }

  predicate WouldCreateCycle(t: Tables, parent: NodeId, child: NodeId) {
    parent in DescendantNodeIDs(t, child)
  }

  function ListEdgesByTarget(edges: map<Key, Edge>, n: NodeId): set<Key> {
    set k | k in edges && k.target == n && edges[k].active
  }

  predicate MediaEdgeExists(edges: map<Key, Edge>, k: Key) {
    k in edges && edges[k].active
  }

  // ---- Writing edges ----

  /** The schema's CHECK (source <> target) and its two foreign keys. */
  predicate Insertable(t: Tables, k: Key) {
    k.source in t.nodes && k.target in t.nodes && k.source != k.target
  }

  /** The UPDATE branch of UpsertMediaEdge: confidence never falls, and provenance follows
      the side that supplied it -- except a tie that would undo an automatic acceptance. */
  function Refreshed(stored: Edge, incoming: Edge): Edge {
    var wins := incoming.confidence >= stored.confidence
             && !(incoming.confidence == stored.confidence
               && stored.review == AutoAccepted && incoming.review == NeedsReview);
    var confidence := if incoming.confidence > stored.confidence then incoming.confidence else stored.confidence;
    (if wins then incoming else stored).(confidence := confidence, active := true)
  }

  /** The better side is taken whole, the incoming one on a tie -- unless it would then undo an
      automatic acceptance; the row ends up active. */
  predicate Combined(stored: Edge, incoming: Edge, after: Edge) {
    if incoming.confidence > stored.confidence then after == incoming.(active := true)
    else if incoming.confidence < stored.confidence then after == stored.(active := true)
    else if stored.review == AutoAccepted && incoming.review == NeedsReview then after == stored.(active := true)
    else after == incoming.(active := true)
  }

  /** The stored confidence is the best seen; everything else comes from one side, whole, a tie
      going to the incoming one; an automatic acceptance is undone only by strictly better
      evidence; and hearing the same evidence again changes nothing. */
  lemma RefreshedKeepsBest(stored: Edge, incoming: Edge)
    ensures var r := Refreshed(stored, incoming);
            && r.confidence >= stored.confidence && r.confidence >= incoming.confidence
            && (r.confidence == stored.confidence || r.confidence == incoming.confidence)
            && (r == stored.(confidence := r.confidence, active := true)
                || r == incoming.(confidence := r.confidence, active := true))
            && (stored.review == AutoAccepted && r.review == NeedsReview ==> incoming.confidence > stored.confidence)
            && Combined(stored, incoming, r)
            && Refreshed(r, incoming) == r
  {
  }

  /** None: a human-locked row, left alone and not returned. */
  function UpsertMediaEdge(edges: map<Key, Edge>, k: Key, e: Edge): Option<map<Key, Edge>> {
    if k !in edges then Some(edges[k := e.(active := true)])
    else if Locked(edges[k]) then None
    else Some(edges[k := Refreshed(edges[k], e)])
  }

  /** CreateMediaEdge has no ON CONFLICT: an existing key or a broken constraint fails. */
  function CreateMediaEdge(t: Tables, k: Key, e: Edge): Option<Tables> {
    if k in t.edges || !Insertable(t, k) then None
    else Some(t.(edges := t.edges[k := e.(active := true)]))
  }

  // ---- Writing nodes ----

  /** Held by ux_media_nodes_live_path. */
  predicate HoldsPath(n: Node) {
    n.lifecycle != Archived && n.lifecycle != Trashed
  }

  /** Held by ux_media_nodes_live_full_hash, and what content deduplication looks for. */
  predicate Live(n: Node) {
    n.lifecycle == Active || n.lifecycle == Hidden
  }

  /** Two rows the unique indexes do not allow side by side. */
  predicate Clash(a: Node, b: Node) {
    || (HoldsPath(a) && HoldsPath(b) && a.path == b.path)
    || (Live(a) && Live(b) && a.fullHash.Some? && a.fullHash == b.fullHash)
  }

  /** Would row `id`, if it read `n`, break one of the two unique indexes? */
  predicate Collides(nodes: map<NodeId, Node>, id: NodeId, n: Node) {
    exists j :: j in nodes && j != id && Clash(n, nodes[j])
  }

  /** The schema's CHECK on full_hash. */
  predicate HashLengthOk(n: Node) {
    n.fullHash.Some? ==> |n.fullHash.value| == 64
  }

  function InsertMediaNode(t: Tables, id: NodeId, n: Node): Option<Tables> {
    if id in t.nodes || !HashLengthOk(n) || Collides(t.nodes, id, n) then None
    else Some(t.(nodes := t.nodes[id := n]))
  }

  /** First writer wins. */
  function SetNodeCreator(creators: map<NodeId, string>, n: NodeId, agent: string): map<NodeId, string> {
    if n in creators then creators else creators[n := agent]
  }

  /** RecordFullHashSource: an agent's word never downgrades what the server vouches for. */
  function RecordFullHashSource(p: map<NodeId, Provenance>, n: NodeId, h: Option<string>,
                                source: HashSource): map<NodeId, Provenance> {
    if h.None? || |h.value| != 64 then p
    else if source == Server || (n in p && p[n] == Provenance(h.value, Server)) then p[n := Provenance(h.value, Server)]
    else p[n := Provenance(h.value, Agent)]
  }

  /** RefreshMediaNodeAfterInPlaceWrite: the server rewrote the file, so no hash stands -- but
      the provenance row of the old one stays. */
  function RefreshAfterInPlaceWrite(t: Tables, n: NodeId, mtime: int): Tables {
    if n in t.nodes then t.(nodes := t.nodes[n := t.nodes[n].(mtime := mtime, fullHash := None, indexedFull := false)])
    else t
  }

  /** A person has decided about row k. */
  predicate Decided(edges: map<Key, Edge>, k: Key) {
    k in edges && (edges[k].review == Confirmed || edges[k].review == Rejected)
  }

  /** Row k is there as it was, or absent as it was. */
  predicate RowKept(edges: map<Key, Edge>, edges': map<Key, Edge>, k: Key) {
    (k in edges' <==> k in edges) && (k in edges && k in edges' ==> edges'[k] == edges[k])
  }

  // ---- graph_status ----

  /** What the node's active incoming edges say about it. */
  function StatusOf(edges: map<Key, Edge>, n: NodeId): GraphStatus {
    if exists k :: k in ListEdgesByTarget(edges, n) && Accepted(edges[k]) then Linked
    else if exists k :: k in ListEdgesByTarget(edges, n) && edges[k].review != Rejected then InReview
    else Unlinked
  }

  /** What graph_status promises, row by row: LINKED when some active incoming edge is accepted,
      UNLINKED when every one of them is rejected (or there is none), else up for review. */
  ghost predicate RowsSay(edges: map<Key, Edge>, n: NodeId, status: GraphStatus) {
    && (status == Linked <==>
          exists k :: k in edges && k.target == n && edges[k].active
            && (edges[k].review == AutoAccepted || edges[k].review == Confirmed))
    && (status == Unlinked <==>
          forall k :: k in edges && k.target == n && edges[k].active ==> edges[k].review == Rejected)
  }

  /** There is exactly one such status. */
  lemma StatusIsWhatRowsSay(edges: map<Key, Edge>, n: NodeId, status: GraphStatus)
    ensures RowsSay(edges, n, status) <==> status == StatusOf(edges, n)
  {
    assert forall k :: k in ListEdgesByTarget(edges, n) <==> k in edges && k.target == n && edges[k].active;
  }

  function UpdateGraphStatus(nodes: map<NodeId, Node>, n: NodeId, status: GraphStatus): map<NodeId, Node> {
    if n in nodes then nodes[n := nodes[n].(status := status)] else nodes
  }

  function Recompute(t: Tables, n: NodeId): Tables {
    t.(nodes := UpdateGraphStatus(t.nodes, n, StatusOf(t.edges, n)))
  }

  /** Every node of `touched` recomputed; the order does not matter. */
  function RecomputeAll(t: Tables, touched: set<NodeId>): Tables {
    t.(nodes := map n | n in t.nodes ::
      if n in touched then t.nodes[n].(status := StatusOf(t.edges, n)) else t.nodes[n])
  }

  ghost predicate StatusesMatch(nodes: map<NodeId, Node>, edges: map<Key, Edge>) {
    forall n :: n in nodes ==> nodes[n].status == StatusOf(edges, n)
  }

  /** graph_status is a function of the active incoming edges, for every node. */
  ghost predicate StatusDerived(t: Tables) {
    StatusesMatch(t.nodes, t.edges)
  }

  lemma StatusDerivedIff(t: Tables)
    ensures StatusDerived(t) <==> forall n :: n in t.nodes ==> RowsSay(t.edges, n, t.nodes[n].status)
  {
    forall n | n in t.nodes
      ensures RowsSay(t.edges, n, t.nodes[n].status) <==> t.nodes[n].status == StatusOf(t.edges, n)
    {
      StatusIsWhatRowsSay(t.edges, n, t.nodes[n].status);
    }
  }

  ghost predicate SameIncoming(edges: map<Key, Edge>, edges': map<Key, Edge>, n: NodeId) {
    forall k: Key :: k.target == n ==>
      (k in edges <==> k in edges') && (k in edges && k in edges' ==> edges[k] == edges'[k])
  }

  lemma StatusIsLocal(edges: map<Key, Edge>, edges': map<Key, Edge>, n: NodeId)
    requires SameIncoming(edges, edges', n)
    ensures StatusOf(edges, n) == StatusOf(edges', n)
  {
    assert ListEdgesByTarget(edges, n) == ListEdgesByTarget(edges', n);
  }

  /** Recomputing the targets of every changed row re-establishes the derivation. */
  lemma RecomputeAllDerives(t: Tables, t': Tables, touched: set<NodeId>)
    requires StatusDerived(t) && t'.nodes == t.nodes
    requires forall n :: n !in touched ==> SameIncoming(t.edges, t'.edges, n)
    ensures StatusDerived(RecomputeAll(t', touched))
  {
    var r := RecomputeAll(t', touched);
    forall n | n in r.nodes ensures r.nodes[n].status == StatusOf(r.edges, n) {
      if n !in touched {
        StatusIsLocal(t.edges, t'.edges, n);
      }
    }
  }

  lemma RecomputeDerives(t: Tables, t': Tables, n: NodeId)
    requires StatusDerived(t) && t'.nodes == t.nodes
    requires forall m :: m != n ==> SameIncoming(t.edges, t'.edges, m)
    ensures StatusDerived(Recompute(t', n))
  {
    RecomputeAllDerives(t, t', {n});
    assert Recompute(t', n).nodes == RecomputeAll(t', {n}).nodes;
  }

  /** Recomputing a derived status changes nothing. */
  lemma RecomputeIdle(t: Tables, n: NodeId)
    requires StatusDerived(t)
    ensures Recompute(t, n) == t
  {
    assert Recompute(t, n).nodes == t.nodes;
  }

  // ---- Invariants of the tables ----

  ghost predicate EndpointsKnown(edges: map<Key, Edge>, known: set<NodeId>) {
    forall k :: k in edges ==> k.source in known && k.target in known && k.source != k.target
  }

  /** Every row that names a node names a stored one (all foreign keys are RESTRICT). */
  ghost predicate Referential(t: Tables) {
    && EndpointsKnown(t.edges, t.nodes.Keys)
    && t.creators.Keys <= t.nodes.Keys
    && t.provenance.Keys <= t.nodes.Keys
    && (forall a :: a in t.aliases ==> t.aliases[a].canonical in t.nodes && t.aliases[a].canonical != a)
  }

  ghost predicate NoClashes(nodes: map<NodeId, Node>) {
    && (forall a :: a in nodes ==> HashLengthOk(nodes[a]))
    && (forall a, b :: a in nodes && b in nodes && a != b ==> !Clash(nodes[a], nodes[b]))
  }

  /** The two unique indexes hold: no two live rows share a path or a full hash. */
  ghost predicate Indexed(t: Tables) {
    NoClashes(t.nodes)
  }

  ghost predicate AcyclicEdges(t: Tables) {
    Acyclic(ActiveRelation(t.edges))
  }

  /** Every human decision of `edges` is still there, field for field. */
  ghost predicate KeepsDecisions(edges: map<Key, Edge>, edges': map<Key, Edge>) {
    forall k :: k in edges && Locked(edges[k]) ==> k in edges' && edges'[k] == edges[k]
  }

  /** Active rows stay active, and every newly active row points into n. */
  ghost predicate ActivatesOnlyInto(edges: map<Key, Edge>, edges': map<Key, Edge>, n: NodeId) {
    && ActiveKeys(edges) <= ActiveKeys(edges')
    && forall k :: k in ActiveKeys(edges') && k !in ActiveKeys(edges) ==> k.target == n
  }

  lemma ActivationGrowsInto(edges: map<Key, Edge>, edges': map<Key, Edge>, n: NodeId)
    requires ActivatesOnlyInto(edges, edges', n)
    ensures GrowsInto(ActiveRelation(edges), ActiveRelation(edges'), n)
  {
    forall e | e in ActiveRelation(edges) ensures e in ActiveRelation(edges') {
      var k :| k in edges && edges[k].active && (k.source, k.target) == e;
      assert k in ActiveKeys(edges');
    }
    forall e | e in ActiveRelation(edges') && e !in ActiveRelation(edges) ensures e.1 == n {
      var k :| k in edges' && edges'[k].active && (k.source, k.target) == e;
      assert k in ActiveKeys(edges');
    }
  }

  /** One checked activation keeps the lineage acyclic: the check every writer but the
      snapshot refresh makes. */
  lemma CheckedActivationAcyclic(t: Tables, edges': map<Key, Edge>, k: Key)
    requires AcyclicEdges(t) && !WouldCreateCycle(t, k.source, k.target)
    requires ActivatesOnlyInto(t.edges, edges', k.target)
    requires forall j :: j in ActiveKeys(edges') && j !in ActiveKeys(t.edges) ==> j == k
    ensures Acyclic(ActiveRelation(edges'))
  {
    var E, E' := ActiveRelation(t.edges), ActiveRelation(edges');
    ActivationGrowsInto(t.edges, edges', k.target);
    forall s | (s, k.target) in E' && (s, k.target) !in E ensures !Reaches(E, k.target, s) {
      var j :| j in edges' && edges'[j].active && (j.source, j.target) == (s, k.target);
      assert j in ActiveKeys(edges');
      DescendantsExact(E, k.target, s);
    }
    GrowthAcyclicIff(E, E', k.target);
  }

  // ---- The writer connection ----

  /** The single writer connection: `tables` is what is committed or being written. */
  class Database {
    var tables: Tables

    constructor (initial: Tables)
      ensures tables == initial
    {
      tables := initial;
    }

    method RecomputeStatusFromPersistedEdges(n: NodeId)
      modifies this
      ensures tables == Recompute(old(tables), n)
      ensures tables == old(tables).(nodes := tables.nodes) && tables.nodes.Keys == old(tables).nodes.Keys
      ensures forall m :: m in tables.nodes && m != n ==> tables.nodes[m] == old(tables).nodes[m]
      ensures n in tables.nodes ==> tables.nodes[n] == old(tables).nodes[n].(status := tables.nodes[n].status)
      ensures n in tables.nodes ==> RowsSay(tables.edges, n, tables.nodes[n].status)
    {
      StatusIsWhatRowsSay(tables.edges, n, StatusOf(tables.edges, n));
      var edges := tables.edges;
      var rows := ListEdgesByTarget(edges, n);
      var status := Unlinked;
      while rows != {}
        invariant rows <= ListEdgesByTarget(edges, n)
        invariant status != Linked
        invariant forall k :: k in ListEdgesByTarget(edges, n) - rows ==> !Accepted(edges[k])
        invariant status == InReview <==>
                  exists k :: k in ListEdgesByTarget(edges, n) - rows && edges[k].review != Rejected
        decreases rows
      {
        var k :| k in rows;
        if Accepted(edges[k]) {
          status := Linked;
          break;
        }
        if edges[k].review != Rejected {
          status := InReview;
        }
        rows := rows - {k};
      }
      tables := tables.(nodes := UpdateGraphStatus(tables.nodes, n, status));
    }
  }
}
