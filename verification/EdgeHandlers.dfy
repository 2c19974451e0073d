/**
  The remaining edge writers: a person linking, confirming, rejecting or resetting an edge,
  and an upload that records the export it just made of a fresh master.
 */
module EdgeHandlers {
  import opened Wrappers
  import opened Reachability
  import opened Store

  datatype HandlerError = NotFound | Invalid | WouldCloseCycle | NotReviewed

  /** The relationships metadata inheritance treats as identity ancestry. */
  predicate ValidParentRelationship(rel: Relationship) {
    rel == DerivedFrom || rel == FinalExport || rel == ProxyOf
  }

  /** CreateManualMediaEdge: a manual link is born CONFIRMED and overrides whatever row held
      its key, keeping only that row's evidence. */
  function ManualRow(edges: map<Key, Edge>, k: Key): Edge {
    var evidence := if k in edges then edges[k].evidence else Json("{}", Some(EvidenceFields("", [], "")));
    Edge(100, 1, "manual", evidence, Confirmed, true)
  }

  /** isProjectFile: the projectfile registry has a parser for the path. */
  function CreateEdge(t: Tables, isProjectFile: string -> bool, k: Key): Result<Tables, HandlerError> {
    if k.source == k.target then Err(Invalid)
    else if k.target !in t.nodes || t.nodes[k.target].lifecycle == Archived then Err(NotFound)
    else if isProjectFile(t.nodes[k.target].path) && ValidParentRelationship(k.rel) then Err(Invalid)
    else if k.source !in t.nodes || t.nodes[k.source].lifecycle == Archived then Err(NotFound)
    else if WouldCreateCycle(t, k.source, k.target) then Err(WouldCloseCycle)
    else Ok(Recompute(t.(edges := t.edges[k := ManualRow(t.edges, k)]), k.target))
  }

  function Review(t: Tables, k: Key, review: Review): Result<Tables, HandlerError> {
    if k !in t.edges then Err(NotFound)
    else Ok(Recompute(t.(edges := t.edges[k := t.edges[k].(review := review)]), k.target))
  }

  /** Only a CONFIRMED or REJECTED review can be handed back to the queue. */
  function ResetReview(t: Tables, k: Key): Result<Tables, HandlerError> {
    if k !in t.edges then Err(NotFound)
    else if !Locked(t.edges[k]) then Err(NotReviewed)
    else Review(t, k, NeedsReview)
  }

  /** After an accepted link: the row is CONFIRMED, active, manual, certain and first-tier, with the
      evidence it had before; no other row changed, the child is LINKED, and no cycle closed. */
  ghost predicate LinkDone(t: Tables, k: Key, t': Tables) {
    && k in t'.edges && t'.edges[k] == Edge(100, 1, "manual", t'.edges[k].evidence, Confirmed, true)
    && (k in t.edges ==> t'.edges[k].evidence == t.edges[k].evidence)
    && (k !in t.edges ==> t'.edges[k].evidence.Json? && t'.edges[k].evidence.text == "{}")
    && OnlyRowChanged(t, t', k)
    && k.target in t'.nodes && t'.nodes[k.target].status == Linked
    && (AcyclicEdges(t) ==> AcyclicEdges(t')) && (Referential(t) ==> Referential(t'))
    && (StatusDerived(t) ==> StatusDerived(t'))
  }

  /** Row k and its child's graph_status apart, everything is as it was. */
  ghost predicate OnlyRowChanged(t: Tables, t': Tables, k: Key) {
    && t' == t.(nodes := t'.nodes, edges := t'.edges)
    && (forall j :: j != k ==>
          (j in t'.edges <==> j in t.edges) && (j in t.edges && j in t'.edges ==> t'.edges[j] == t.edges[j]))
    && t'.nodes.Keys == t.nodes.Keys
    && (forall n :: n in t.nodes ==>
          t'.nodes[n] == if n == k.target then t.nodes[n].(status := t'.nodes[n].status) else t.nodes[n])
  }

  /** A link is refused exactly for an unknown or archived end, one node twice, a project file as
      the child of an ancestry relationship, or a cycle. */
  predicate Linkable(t: Tables, isProjectFile: string -> bool, k: Key) {
    && k.source != k.target && k.source in t.nodes && k.target in t.nodes
    && t.nodes[k.source].lifecycle != Archived && t.nodes[k.target].lifecycle != Archived
    && !(isProjectFile(t.nodes[k.target].path) && k.rel in {DerivedFrom, FinalExport, ProxyOf})
    && !WouldCreateCycle(t, k.source, k.target)
  }

  method HandleCreateEdge(db: Database, isProjectFile: string -> bool, k: Key) returns (r: Result<(), HandlerError>)
    modifies db
    ensures match CreateEdge(old(db.tables), isProjectFile, k)
            case Ok(t) => r == Ok(()) && db.tables == t
            case Err(e) => r == Err(e) && db.tables == old(db.tables)
    ensures r.Ok? <==> Linkable(old(db.tables), isProjectFile, k)
    ensures if r.Ok? then LinkDone(old(db.tables), k, db.tables) else db.tables == old(db.tables)
  {
    hide Descendants, LinkDone, StatusOf;
    if CreateEdge(db.tables, isProjectFile, k).Ok? {
      CreateEdgeOutcome(db.tables, isProjectFile, k);
    }
    var nodes := db.tables.nodes;
    if k.source == k.target {
      return Err(Invalid);
    }
    if k.target !in nodes || nodes[k.target].lifecycle == Archived {
      return Err(NotFound);
    }
    if isProjectFile(nodes[k.target].path) && ValidParentRelationship(k.rel) {
      return Err(Invalid);
    }
    if k.source !in nodes || nodes[k.source].lifecycle == Archived {
      return Err(NotFound);
    }
    if WouldCreateCycle(db.tables, k.source, k.target) {
      return Err(WouldCloseCycle);
    }
    db.tables := db.tables.(edges := db.tables.edges[k := ManualRow(db.tables.edges, k)]);
    db.RecomputeStatusFromPersistedEdges(k.target);
    return Ok(());
  }

  /** After a review: the row carries the decision and is otherwise as it was, no other row
      changed, no row was switched on or off, and the child's status is derived again: LINKED when
      an active row was confirmed, UNLINKED when the only active one was rejected, up for review
      when an active one was reset and no other is accepted. */
  ghost predicate ReviewDone(t: Tables, k: Key, review: Review, t': Tables) {
    && k in t.edges && k in t'.edges && t'.edges[k] == t.edges[k].(review := review)
    && OnlyRowChanged(t, t', k) && ActiveRelation(t'.edges) == ActiveRelation(t.edges)
    && (Referential(t) ==> Referential(t')) && (StatusDerived(t) ==> StatusDerived(t'))
    && (k.target in t.nodes ==> RowsSay(t'.edges, k.target, t'.nodes[k.target].status))
    && (review == Confirmed && t.edges[k].active && k.target in t.nodes ==> t'.nodes[k.target].status == Linked)
    && (review == Rejected && k.target in t.nodes && OnlyActive(t, k) ==> t'.nodes[k.target].status == Unlinked)
    && (review == NeedsReview && t.edges[k].active && k.target in t.nodes && !OtherAccepted(t, k) ==>
          t'.nodes[k.target].status == InReview)
  }

  /** No other active row points to k's child. */
  ghost predicate OnlyActive(t: Tables, k: Key) {
    forall j :: j in t.edges && j != k && j.target == k.target ==> !t.edges[j].active
  }

  /** Another active row to k's child is accepted. */
  ghost predicate OtherAccepted(t: Tables, k: Key) {
    exists j :: j in t.edges && j != k && j.target == k.target && t.edges[j].active
      && (t.edges[j].review == AutoAccepted || t.edges[j].review == Confirmed)
  }

  /** handleConfirmEdge (confirmed) and handleRejectEdge. */
  method HandleReviewEdge(db: Database, k: Key, confirmed: bool) returns (r: Result<(), HandlerError>)
    modifies db
    ensures match Review(old(db.tables), k, if confirmed then Confirmed else Rejected)
            case Ok(t) => r == Ok(()) && db.tables == t
            case Err(e) => r == Err(e) && db.tables == old(db.tables)
    ensures r.Ok? <==> k in old(db.tables).edges
    ensures if r.Ok? then ReviewDone(old(db.tables), k, if confirmed then Confirmed else Rejected, db.tables)
            else db.tables == old(db.tables)
  {
    hide ReviewDone, StatusOf;
    if k !in db.tables.edges {
      return Err(NotFound);
    }
    var review := if confirmed then Confirmed else Rejected;
    ReviewOutcome(db.tables, k, review);
    db.tables := db.tables.(edges := db.tables.edges[k := db.tables.edges[k].(review := review)]);
    db.RecomputeStatusFromPersistedEdges(k.target);
    return Ok(());
  }

  /** Deciding k again as it was decided in `edges` brings those edges back. */
  ghost predicate DecidedBack(t: Tables, k: Key, edges: map<Key, Edge>) {
    k in edges && Review(t, k, edges[k].review).Ok? && Review(t, k, edges[k].review).value.edges == edges
  }

  /** A reset hands back exactly a decided row, and confirming or rejecting it again as it was
      undoes the reset. */
  method HandleResetEdgeReview(db: Database, k: Key) returns (r: Result<(), HandlerError>)
    modifies db
    ensures match ResetReview(old(db.tables), k)
            case Ok(t) => r == Ok(()) && db.tables == t
            case Err(e) => r == Err(e) && db.tables == old(db.tables)
    ensures r.Ok? <==> k in old(db.tables).edges && Locked(old(db.tables).edges[k])
    ensures if r.Ok? then ReviewDone(old(db.tables), k, NeedsReview, db.tables) else db.tables == old(db.tables)
    ensures r.Ok? ==> DecidedBack(db.tables, k, old(db.tables).edges)
  {
    hide ReviewDone, StatusOf;
    if k !in db.tables.edges {
      return Err(NotFound);
    }
    if !Locked(db.tables.edges[k]) {
      return Err(NotReviewed);
    }
    ReviewOutcome(db.tables, k, NeedsReview);
    ResetUndoesReview(db.tables, k);
    db.tables := db.tables.(edges := db.tables.edges[k := db.tables.edges[k].(review := NeedsReview)]);
    db.RecomputeStatusFromPersistedEdges(k.target);
    return Ok(());
  }

  /** The upload's transaction: a fresh master with the hash the server computed and, for a
      device's upload, its creator; a fresh export of it; one edge between. */
  function UploadExport(t: Tables, master: NodeId, masterRow: Node, creator: string, export_: NodeId,
                        exportRow: Node): Option<Tables> {
    match InsertMediaNode(t, master, masterRow.(status := Unlinked, lifecycle := Active))
    case None => None
    case Some(inserted) =>
      var t1 := inserted.(
        provenance := RecordFullHashSource(inserted.provenance, master, masterRow.fullHash, Server),
        creators := if creator == "" then inserted.creators else SetNodeCreator(inserted.creators, master, creator));
      match InsertMediaNode(t1, export_, exportRow.(status := Linked, lifecycle := Active, fullHash := None))
      case None => None
      case Some(t2) =>
        var evidence := Json("{\"reason\":\"immich_hardlink_export\"}", Some(EvidenceFields("", [], "")));
        CreateMediaEdge(t2, Key(master, export_, FinalExport),
                        Edge(100, 1, "immich_export", evidence, AutoAccepted, true))
  }

  // ---- What they keep ----

  /** A manual link keeps the lineage acyclic even when it switches a stored row back on. */
  lemma CreateEdgeKeeps(t: Tables, isProjectFile: string -> bool, k: Key)
    requires CreateEdge(t, isProjectFile, k).Ok?
    ensures var t' := CreateEdge(t, isProjectFile, k).value;
            && (AcyclicEdges(t) ==> AcyclicEdges(t'))
            && (Referential(t) ==> Referential(t'))
            && (StatusDerived(t) ==> StatusDerived(t'))
  {
    hide StatusOf, Acyclic, Descendants, NoClashes;
    var after := t.(edges := t.edges[k := ManualRow(t.edges, k)]);
    assert ActiveKeys(after.edges) == ActiveKeys(t.edges) + {k};
    if AcyclicEdges(t) {
      CheckedActivationAcyclic(t, after.edges, k);
    }
    if StatusDerived(t) {
      RecomputeDerives(t, after, k.target);
    }
  }

  lemma CreateEdgeOutcome(t: Tables, isProjectFile: string -> bool, k: Key)
    requires CreateEdge(t, isProjectFile, k).Ok?
    ensures LinkDone(t, k, CreateEdge(t, isProjectFile, k).value)
  {
    hide Descendants, AcyclicEdges, Referential, StatusesMatch;
    CreateEdgeKeeps(t, isProjectFile, k);
    var t' := CreateEdge(t, isProjectFile, k).value;
    assert k in ListEdgesByTarget(t'.edges, k.target) && Accepted(t'.edges[k]);
  }

  lemma ReviewOutcome(t: Tables, k: Key, review: Review)
    requires k in t.edges
    ensures Review(t, k, review).Ok? && ReviewDone(t, k, review, Review(t, k, review).value)
  {
    hide Referential, StatusesMatch, StatusOf, ActiveRelation;
    ReviewKeeps(t, k, review);
    var t' := Review(t, k, review).value;
    StatusIsWhatRowsSay(t'.edges, k.target, StatusOf(t'.edges, k.target));
  }

  /** A review decision switches no row on or off; it re-derives the child's graph_status,
      which is LINKED after a confirmation of an active row. */
  lemma ReviewKeeps(t: Tables, k: Key, review: Review)
    requires Review(t, k, review).Ok?
    ensures var t' := Review(t, k, review).value;
            && ActiveRelation(t'.edges) == ActiveRelation(t.edges)
            && (Referential(t) ==> Referential(t'))
            && (StatusDerived(t) ==> StatusDerived(t'))
            && (review == Confirmed && t.edges[k].active && k.target in t.nodes ==> t'.nodes[k.target].status == Linked)
            && (review != Confirmed && review != AutoAccepted && k.target in t.nodes
                && t'.nodes[k.target].status == Linked ==>
                  exists j :: j != k && j.target == k.target && j in t.edges
                    && t.edges[j].active && Accepted(t.edges[j]))
  {
    var after := t.(edges := t.edges[k := t.edges[k].(review := review)]);
    if StatusDerived(t) {
      RecomputeDerives(t, after, k.target);
    }
    forall e | e in ActiveRelation(t.edges) ensures e in ActiveRelation(after.edges) {
      var j :| j in t.edges && t.edges[j].active && (j.source, j.target) == e;
      assert j in after.edges && after.edges[j].active;
    }
    forall e | e in ActiveRelation(after.edges) ensures e in ActiveRelation(t.edges) {
      var j :| j in after.edges && after.edges[j].active && (j.source, j.target) == e;
      assert j in t.edges && t.edges[j].active;
    }
    assert k in after.edges;
    if t.edges[k].active {
      assert k in ListEdgesByTarget(after.edges, k.target);
    }
  }

  /** Resetting a review and deciding the same again restores the edge exactly. */
  lemma ResetUndoesReview(t: Tables, k: Key)
    requires k in t.edges && Locked(t.edges[k])
    ensures ResetReview(t, k).Ok?
    ensures var r := Review(ResetReview(t, k).value, k, t.edges[k].review); r.Ok? && r.value.edges == t.edges
    ensures StatusDerived(t) ==> Review(ResetReview(t, k).value, k, t.edges[k].review).value == t
  {
    hide StatusOf;
    var once := ResetReview(t, k).value;
    var r := Review(once, k, t.edges[k].review).value;
    assert r.edges == t.edges;
    if StatusDerived(t) {
      assert r.nodes == t.nodes;
    }
  }

  /** The tables after an upload: two more nodes, one more row, everything else as it was. */
  ghost predicate Uploaded(t: Tables, t': Tables, master: NodeId, export_: NodeId) {
    var k := Key(master, export_, FinalExport);
    && master !in t.nodes && export_ !in t.nodes && master != export_
    && t'.nodes.Keys == t.nodes.Keys + {master, export_} && (forall n :: n in t.nodes ==> t'.nodes[n] == t.nodes[n])
    && t'.nodes[master].status == Unlinked && t'.nodes[export_].status == Linked
    && k !in t.edges && k in t'.edges && t'.edges == t.edges[k := t'.edges[k]]
    && t'.edges[k].active && t'.edges[k].review == AutoAccepted
    && t' == t.(nodes := t'.nodes, edges := t'.edges, provenance := t'.provenance, creators := t'.creators)
    && t'.provenance.Keys <= t.provenance.Keys + {master} && t'.creators.Keys <= t.creators.Keys + {master}
    && (forall n :: n in t.provenance && n != master ==> n in t'.provenance && t'.provenance[n] == t.provenance[n])
    && (forall n :: n in t.creators ==> n in t'.creators && t'.creators[n] == t.creators[n])
  }

  lemma UploadExportShape(t: Tables, master: NodeId, masterRow: Node, creator: string, export_: NodeId, exportRow: Node)
    requires UploadExport(t, master, masterRow, creator, export_, exportRow).Some?
    ensures Uploaded(t, UploadExport(t, master, masterRow, creator, export_, exportRow).value, master, export_)
  {
  }

  /** The server hashed the bytes itself, so it vouches for the master's hash from the start; a
      device that sent them is the master's creator, and the export has neither. */
  lemma UploadIsVouchedFor(t: Tables, master: NodeId, masterRow: Node, creator: string, export_: NodeId,
                           exportRow: Node)
    requires Referential(t) && masterRow.fullHash.Some?
    requires UploadExport(t, master, masterRow, creator, export_, exportRow).Some?
    ensures var t' := UploadExport(t, master, masterRow, creator, export_, exportRow).value;
            && t'.nodes[master] == masterRow.(status := Unlinked, lifecycle := Active)
            && t'.nodes[export_] == exportRow.(status := Linked, lifecycle := Active, fullHash := None)
            && var k := Key(master, export_, FinalExport);
            && k in t'.edges && t'.edges[k] == Edge(100, 1, "immich_export", t'.edges[k].evidence, AutoAccepted, true)
            && t'.edges[k].evidence.Json? && t'.edges[k].evidence.text == "{\"reason\":\"immich_hardlink_export\"}"
            && master in t'.provenance && t'.provenance[master] == Provenance(masterRow.fullHash.value, Server)
            && (master in t'.creators <==> creator != "") && (creator != "" ==> t'.creators[master] == creator)
            && export_ !in t'.provenance && export_ !in t'.creators
  {
    hide EndpointsKnown, Collides;
    assert master !in t.nodes && export_ !in t.nodes;
  }

  /** Two fresh nodes and an edge between them cannot close a cycle; the export's LINKED
      status is what its one edge says. */
  lemma UploadExportKeeps(t: Tables, t': Tables, master: NodeId, export_: NodeId)
    requires Referential(t) && Uploaded(t, t', master, export_)
    ensures AcyclicEdges(t) ==> AcyclicEdges(t')
    ensures Referential(t')
    ensures StatusDerived(t) ==> StatusDerived(t')
    ensures KeepsDecisions(t.edges, t'.edges)
  {
    var k := Key(master, export_, FinalExport);
    forall j | j in t'.edges ensures Insertable(t', j) {
      assert j != k ==> Insertable(t, j);
    }
    if AcyclicEdges(t) {
      assert ActiveKeys(t'.edges) == ActiveKeys(t.edges) + {k};
      FreshNodeReachesNothing(t, export_, master);
      CheckedActivationAcyclic(t, t'.edges, k);
    }
    if StatusDerived(t) {
      UploadStatus(t, t', master, export_);
    }
  }

  lemma FreshNodeReachesNothing(t: Tables, n: NodeId, other: NodeId)
    requires Referential(t) && n !in t.nodes && other != n
    ensures !WouldCreateCycle(t, other, n)
  {
    var E := ActiveRelation(t.edges);
    forall e | e in E ensures e.0 != n {
      var j :| j in t.edges && t.edges[j].active && (j.source, j.target) == e;
      assert Insertable(t, j);
    }
    assert Successors(E, {n}) == {};
  }

  lemma UploadStatus(t: Tables, t': Tables, master: NodeId, export_: NodeId)
    requires Referential(t) && StatusDerived(t) && Uploaded(t, t', master, export_)
    ensures StatusDerived(t')
  {
    var k := Key(master, export_, FinalExport);
    forall n | n in t'.nodes ensures t'.nodes[n].status == StatusOf(t'.edges, n) {
      if n in t.nodes {
        StatusIsLocal(t.edges, t'.edges, n);
      } else if n == export_ {
        assert k in ListEdgesByTarget(t'.edges, n);
      } else {
        forall j | j in t.edges ensures j.target != n {
          assert Insertable(t, j);
        }
        assert ListEdgesByTarget(t'.edges, n) == {};
      }
    }
  }
}
