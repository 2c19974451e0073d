/**
  The apply functions as the drainer runs them: lookups, checks and row writes one after the
  other inside a transaction. Each promises what an accepted event brings about and what it
  keeps. One that fails may have written already; InTx takes that back.
 */
module AgentWorker {
  import opened Wrappers
  import opened Reachability
  import opened Store
  import opened Engine
  import opened AgentEvents
  import opened AgentRules
  import opened AgentAcceptance
  import opened AgentOutcomes

  type Outcome = Result<Option<NodeId>, EventError>

  /** What an apply method owes its caller: on success exactly the specified tables and
      resolve target; on failure the specified error, and nothing about the tables. */
  ghost predicate Meets(spec: Result<Applied, EventError>, r: Outcome, after: Tables) {
    match spec
    case Ok(a) => r == Ok(a.resolve) && after == a.tables
    case Err(e) => r == Err(e)
  }

  /** An accepted creation is done as CreatedDone says and breaks no invariant; so for the others. */
  method ApplyNodeCreated(db: Database, w: World, agent: string, p: Payload) returns (r: Outcome)
    requires Sound(db.tables) && p.NodeCreated?
    modifies db
    ensures Meets(AgentEvents.ApplyNodeCreated(old(db.tables), w, agent, p), r, db.tables)
    ensures r.Ok? <==> CreationAcceptable(old(db.tables), w, agent, p)
    ensures r.Ok? ==> Safe(old(db.tables), db.tables) && CreatedDone(old(db.tables), w, agent, p, db.tables, r.value)
  {
    hide StatusesMatch, EndpointsKnown, Safe, CreatedDone, NoClashes, Collides, CreationAcceptable, CreationWaits;
    CreationIff(db.tables, w, agent, p);
    if AgentEvents.ApplyNodeCreated(db.tables, w, agent, p).Ok? {
      CreatedOutcome(db.tables, w, agent, p);
    }
    if !ValidNodeUUID(p.uuid) {
      return Err(InvalidNodeUUID);
    }
    if p.path == "" {
      return Err(MalformedPayload);
    }
    var h := NonEmpty(p.fullHash);
    if h.Some? && !ValidFullHash(h.value) {
      return Err(MalformedPayload);
    }
    if LookupNodeByUUID(db.tables, agent, p.uuid).Some? {
      return Ok(None);
    }
    if h.Some? {
      var existing := GetMediaNodeByFullHash(db.tables, h.value);
      if existing.Some? {
        db.tables := RecordContentAlias(db.tables, p.uuid, existing.value, agent);
        return Ok(None);
      }
    }
    if w.guard.None? {
      return Err(GuardNotConfigured);
    }
    if w.guard.value(p.path).None? {
      return Err(MalformedPayload);
    }
    var fileName := p.fileName;
    if fileName == "" {
      fileName := w.baseName(p.path);
    }
    var mtime := p.mtime;
    if mtime == 0 {
      mtime := w.now;
    }
    r := InsertOwned(db, agent, p.uuid, Node(p.path, fileName, mtime, h, h.Some?, Unlinked, Active));
  }

  /** Insert, record the creator, record who computed the hash. */
  method InsertOwned(db: Database, agent: string, n: NodeId, row: Node) returns (r: Outcome)
    modifies db
    ensures match InsertDeviceNode(old(db.tables), agent, n, row)
            case Some(t) => r == Ok(Some(n)) && db.tables == t
            case None => r == Err(ConstraintFailure)
  {
    hide NoClashes, Collides;
    var inserted := InsertMediaNode(db.tables, n, row);
    if inserted.None? {
      return Err(ConstraintFailure);
    }
    db.tables := inserted.value;
    db.tables := db.tables.(creators := SetNodeCreator(db.tables.creators, n, agent));
    db.tables := db.tables.(provenance := RecordFullHashSource(db.tables.provenance, n, row.fullHash, Agent));
    return Ok(Some(n));
  }

  method ApplyEdgeAttached(db: Database, agent: string, p: Payload) returns (r: Outcome)
    requires Sound(db.tables) && p.EdgeAttached?
    modifies db
    ensures Meets(AgentEvents.ApplyEdgeAttached(old(db.tables), agent, p), r, db.tables)
    ensures r.Ok? ==> Safe(old(db.tables), db.tables) && EdgeDone(old(db.tables), agent, p, db.tables)
    ensures r.Ok? <==> EdgeAcceptable(old(db.tables), agent, p)
  {
    hide NoClashes, StatusesMatch, EndpointsKnown, Safe, EdgeDone, StatusOf, WouldCreateCycle, ValidNodeUUID;
    EdgeIff(db.tables, agent, p);
    if AgentEvents.ApplyEdgeAttached(db.tables, agent, p).Ok? {
      EdgeAttachedOutcome(db.tables, agent, p);
    }
    if p.sourceId != 0 || p.targetId != 0 {
      return Err(MalformedPayload);
    }
    if p.sourceUuid == "" || p.targetUuid == "" {
      return Err(MalformedPayload);
    }
    if !ValidNodeUUID(p.sourceUuid) || !ValidNodeUUID(p.targetUuid) {
      return Err(InvalidNodeUUID);
    }
    var rel := ParseRelationship(p.relationship);
    if rel.None? {
      return Err(MalformedPayload);
    }
    var tier := p.tier;
    if tier <= 0 {
      tier := 1;
    }
    if tier > AGENT_MAX_EDGE_TIER {
      tier := AGENT_MAX_EDGE_TIER;
    }
    if p.reviewState == "CONFIRMED" || p.reviewState == "REJECTED" {
      return Err(MalformedPayload);
    }
    if p.confidence <= 0 || p.confidence > 100 {
      return Err(MalformedPayload);
    }
    if p.confidence < NEEDS_REVIEW_FLOOR {
      return Err(MalformedPayload);
    }
    var source := LookupNodeByUUID(db.tables, agent, p.sourceUuid);
    if source.None? {
      return Err(NodeNotFound);
    }
    var target := LookupNodeByUUID(db.tables, agent, p.targetUuid);
    if target.None? {
      return Err(NodeNotFound);
    }
    var review := NeedsReview;
    if Owns(db.tables, agent, target.value.0) && p.confidence >= AutoAcceptThresholdForTier(tier) {
      review := AutoAccepted;
    }
    if WouldCreateCycle(db.tables, source.value.0, target.value.0) {
      return Err(ClosesCycle);
    }
    var k := Key(source.value.0, target.value.0, rel.value);
    var evidence := if p.evidence.Some? then p.evidence.value else Json("{}", Some(EvidenceFields("", [], "")));
    var created := CreateMediaEdge(db.tables, k,
                                   Edge(p.confidence, tier, OrElse(p.resolver, "agent"), evidence, review, true));
    if created.Some? {
      db.tables := created.value;
    } else if k !in db.tables.edges {
      return Err(ConstraintFailure);
    }
    db.RecomputeStatusFromPersistedEdges(target.value.0);
    return Ok(None);
  }

  method ApplyNodeMoved(db: Database, w: World, agent: string, p: Payload) returns (r: Outcome)
    requires Sound(db.tables) && p.NodeMoved?
    modifies db
    ensures Meets(AgentEvents.ApplyNodeMoved(old(db.tables), w, agent, p), r, db.tables)
    ensures r.Ok? <==> MoveAcceptable(old(db.tables), w, agent, p)
    ensures r.Ok? ==> Safe(old(db.tables), db.tables) && MovedDone(old(db.tables), w, agent, p, db.tables)
  {
    hide NoClashes, StatusesMatch, EndpointsKnown, Safe, MovedDone, Collides, ValidNodeUUID, MoveAcceptable, MoveWaits;
    MoveIff(db.tables, w, agent, p);
    if AgentEvents.ApplyNodeMoved(db.tables, w, agent, p).Ok? {
      MovedOutcome(db.tables, w, agent, p);
    }
    if !ValidNodeUUID(p.uuid) {
      return Err(InvalidNodeUUID);
    }
    if p.path == "" {
      return Err(MalformedPayload);
    }
    var found := LookupNodeByUUID(db.tables, agent, p.uuid);
    if found.None? {
      return Err(NodeNotFound);
    }
    if found.value.1 {
      return Ok(None);
    }
    var node := db.tables.nodes[found.value.0];
    if node.lifecycle == Archived {
      return Err(ArchivedNode);
    }
    if node.lifecycle == Trashed {
      return Err(TrashedNode);
    }
    if !Owns(db.tables, agent, found.value.0) {
      return Err(NotNodeOwner);
    }
    if w.guard.None? {
      return Err(GuardNotConfigured);
    }
    var loc := ResolveRebaseTarget(w, w.guard.value, p.path);
    if loc.Err? {
      return Err(loc.error);
    }
    var fileName := p.fileName;
    if fileName == "" {
      fileName := w.baseName(p.path);
    }
    var mtime := p.mtime;
    if mtime == 0 {
      mtime := node.mtime;
    }
    var rebased := RebaseNodePath(db.tables, found.value.0, p.path, fileName, mtime);
    if rebased.None? {
      return Err(ConstraintFailure);
    }
    db.tables := rebased.value;
    return Ok(None);
  }

  lemma TrashOneMore(t: Tables, done: set<NodeId>, x: NodeId)
    ensures Trash(Trash(t, done), {x}) == Trash(t, done + {x})
  {
  }

  /** The cascade loop, over the exports in any order: every movable one is trashed, and one
      that cannot be moved although it should be fails the whole delete. */
  method PurgeLinkedExports(db: Database, w: World, n: NodeId) returns (failed: bool)
    modifies db
    ensures var t := old(db.tables);
            && (failed <==> exists x :: x in CascadeCandidates(t, n) && ExportMoves(w, t.nodes[x]).None?)
            && (!failed ==> db.tables == Trash(t,
                  set x | x in CascadeCandidates(t, n) && ExportMoves(w, t.nodes[x]) == Some(true)))
  {
    hide ExportMoves, CascadeEdge;
    ghost var t := db.tables;
    var exports := CascadeCandidates(db.tables, n);
    var rows := db.tables.nodes;
    var todo := exports;
    assert Trash(t, {}) == t;
    while todo != {}
      invariant todo <= exports
      invariant forall x :: x in exports - todo ==> ExportMoves(w, rows[x]).Some?
      invariant db.tables == Trash(t, set x | x in exports - todo && ExportMoves(w, rows[x]) == Some(true))
      decreases todo
    {
      var x :| x in todo;
      ghost var done := set y | y in exports - todo && ExportMoves(w, rows[y]) == Some(true);
      var moves := ExportMoves(w, rows[x]);
      if moves.None? {
        return true;
      }
      if moves.value {
        TrashOneMore(t, done, x);
        db.tables := Trash(db.tables, {x});
      }
      assert (set y | y in exports - (todo - {x}) && ExportMoves(w, rows[y]) == Some(true))
          == if moves.value then done + {x} else done;
      todo := todo - {x};
    }
    assert exports - todo == exports;
    return false;
  }

  method TrashAssetTx(db: Database, w: World, n: NodeId) returns (r: Result<(), EventError>)
    requires n in db.tables.nodes
    modifies db
    ensures match TrashAsset(old(db.tables), w, n)
            case Ok(t) => r == Ok(()) && db.tables == t
            case Err(e) => r == Err(e)
  {
    hide ExportMoves, CascadeEdge;
    var row := db.tables.nodes[n];
    if row.lifecycle == Trashed {
      return Ok(());
    }
    if w.guard.Some? && row.path != "" {
      var loc := w.guard.value(row.path);
      if loc.None? {
        return Err(TrashFailed);
      }
      if !loc.value.isVirtual && !loc.value.readOnly && !loc.value.tier3 && !w.movable(row.path) {
        return Err(TrashFailed);
      }
    }
    ghost var exports :=
      set x | x in CascadeCandidates(db.tables, n) && ExportMoves(w, db.tables.nodes[x]) == Some(true);
    TrashOneMore(db.tables, exports, n);
    assert exports + {n} == {n} + exports;
    var failed := PurgeLinkedExports(db, w, n);
    if failed {
      return Err(TrashFailed);
    }
    db.tables := Trash(db.tables, {n});
    return Ok(());
  }

  method ApplyNodeDeleted(db: Database, w: World, agent: string, p: Payload) returns (r: Outcome)
    requires Sound(db.tables) && p.NodeDeleted?
    modifies db
    ensures Meets(AgentEvents.ApplyNodeDeleted(old(db.tables), w, agent, p), r, db.tables)
    ensures r.Ok? <==> DeleteAcceptable(old(db.tables), w, agent, p)
    ensures r.Ok? ==> Safe(old(db.tables), db.tables) && DeletedDone(old(db.tables), w, agent, p, db.tables)
  {
    hide NoClashes, StatusesMatch, EndpointsKnown, Safe, DeletedDone, TrashAsset, ValidNodeUUID, DeleteAcceptable,
         DeleteWaits;
    DeleteIff(db.tables, w, agent, p);
    if AgentEvents.ApplyNodeDeleted(db.tables, w, agent, p).Ok? {
      DeletedOutcome(db.tables, w, agent, p);
    }
    if !ValidNodeUUID(p.uuid) {
      return Err(InvalidNodeUUID);
    }
    var found := LookupNodeByUUID(db.tables, agent, p.uuid);
    if found.None? {
      return Err(NodeNotFound);
    }
    if found.value.1 {
      return Ok(None);
    }
    if !Owns(db.tables, agent, found.value.0) {
      return Err(NotNodeOwner);
    }
    if db.tables.nodes[found.value.0].lifecycle != Archived {
      var trashed := TrashAssetTx(db, w, found.value.0);
      if trashed.Err? {
        return Err(trashed.error);
      }
    }
    return Ok(None);
  }

  /** The branch for a node the device named: decide on the hash first, then move the row,
      then write the hash. */
  method RebaseInPlace(db: Database, agent: string, n: NodeId, p: Payload, fileName: string,
                       mtime: int) returns (r: Outcome)
    requires p.PathRebased? && n in db.tables.nodes
    modifies db
    ensures Meets(RebaseKnown(old(db.tables), agent, n, p, fileName, mtime), r, db.tables)
  {
    hide Collides, ValidFullHash, RecordFullHashSource;
    var existing, h := db.tables.nodes[n], NonEmpty(p.fullHash);
    if existing.lifecycle == Archived {
      return Err(ArchivedNode);
    }
    if existing.lifecycle == Trashed {
      return Err(TrashedNode);
    }
    if !Owns(db.tables, agent, n) {
      return Err(NotNodeOwner);
    }
    var setHash := false;
    if h.Some? {
      var update := FullHashUpdate(existing.fullHash, h.value);
      if update.Err? {
        return Err(update.error);
      }
      setHash := update.value;
    }
    var rebased := RebaseNodePath(db.tables, n, p.path, fileName, mtime);
    if rebased.None? {
      return Err(ConstraintFailure);
    }
    db.tables := rebased.value;
    if setHash {
      var full := db.tables.nodes[n].(fullHash := h, indexedFull := true);
      if Collides(db.tables.nodes, n, full) {
        return Err(ConstraintFailure);
      }
      db.tables := db.tables.(nodes := db.tables.nodes[n := full]);
      db.tables := db.tables.(provenance := RecordFullHashSource(db.tables.provenance, n, h, Agent));
    } else if NonEmpty(existing.fullHash).Some? {
      db.tables := db.tables.(nodes := db.tables.nodes[n := db.tables.nodes[n].(indexedFull := true)]);
    }
    return Ok(None);
  }

  method ApplyPathRebased(db: Database, w: World, agent: string, p: Payload) returns (r: Outcome)
    requires Sound(db.tables) && p.PathRebased?
    modifies db
    ensures Meets(AgentEvents.ApplyPathRebased(old(db.tables), w, agent, p), r, db.tables)
    ensures r.Ok? <==> RebaseAcceptable(old(db.tables), w, agent, p)
    ensures r.Ok? ==> Safe(old(db.tables), db.tables) && RebasedDone(old(db.tables), w, agent, p, db.tables, r.value)
  {
    hide StatusesMatch, EndpointsKnown, Safe, RebasedDone, NoClashes, RebaseKnown, InsertDeviceNode, ValidNodeUUID,
         RebaseAcceptable, RebaseWaits;
    RebaseIff(db.tables, w, agent, p);
    if AgentEvents.ApplyPathRebased(db.tables, w, agent, p).Ok? {
      RebasedOutcome(db.tables, w, agent, p);
    }
    if !ValidNodeUUID(p.uuid) {
      return Err(InvalidNodeUUID);
    }
    if p.path == "" {
      return Err(MalformedPayload);
    }
    var found := LookupNodeByUUID(db.tables, agent, p.uuid);
    if found.Some? && found.value.1 {
      return Ok(None);
    }
    if w.guard.None? {
      return Err(GuardNotConfigured);
    }
    var loc := ResolveRebaseTarget(w, w.guard.value, p.path);
    if loc.Err? {
      return Err(loc.error);
    }
    var fileName := p.fileName;
    if fileName == "" {
      fileName := w.baseName(p.path);
    }
    var mtime := p.mtime;
    if mtime == 0 {
      mtime := w.now;
    }
    if found.Some? {
      r := RebaseInPlace(db, agent, found.value.0, p, fileName, mtime);
      return;
    }
    var h := NonEmpty(p.fullHash);
    if h.Some? {
      var duplicate := GetMediaNodeByFullHash(db.tables, h.value);
      if duplicate.Some? {
        db.tables := RecordContentAlias(db.tables, p.uuid, duplicate.value, agent);
        return Ok(None);
      }
    }
    r := InsertOwned(db, agent, p.uuid, Node(p.path, fileName, mtime, h, h.Some?, Unlinked, Active));
  }

  method ApplyVirtualNodeCreated(db: Database, w: World, agent: string, p: Payload) returns (r: Outcome)
    requires Sound(db.tables) && p.VirtualNodeCreated?
    modifies db
    ensures Meets(AgentEvents.ApplyVirtualNodeCreated(old(db.tables), w, agent, p), r, db.tables)
    ensures r.Ok? <==> VirtualAcceptable(old(db.tables), w, agent, p)
    ensures r.Ok? ==> Safe(old(db.tables), db.tables) && VirtualDone(old(db.tables), w, agent, p, db.tables, r.value)
  {
    hide StatusesMatch, EndpointsKnown, Safe, VirtualDone, NoClashes, Collides, ExtractPathAgentSegment,
         ValidNodeUUID, VirtualAcceptable, VirtualWaits;
    VirtualIff(db.tables, w, agent, p);
    if AgentEvents.ApplyVirtualNodeCreated(db.tables, w, agent, p).Ok? {
      VirtualOutcome(db.tables, w, agent, p);
    }
    if !ValidNodeUUID(p.uuid) {
      return Err(InvalidNodeUUID);
    }
    if p.path == "" {
      return Err(MalformedPayload);
    }
    if p.uuid in db.tables.nodes {
      return Ok(None);
    }
    if w.guard.None? {
      return Err(GuardNotConfigured);
    }
    var loc := w.guard.value(p.path);
    if loc.None? {
      return Err(MalformedPayload);
    }
    if !loc.value.isVirtual {
      return Err(PathNotVirtual);
    }
    var displayName := p.displayName;
    if displayName == "" {
      displayName := w.baseName(p.path);
    }
    var inserted := InsertMediaNode(db.tables, p.uuid, Node(p.path, displayName, 0, None, false, Unlinked, Active));
    if inserted.None? {
      var existing := GetMediaNodeByFilePath(db.tables, p.path);
      if existing.Some? {
        var segment := ExtractPathAgentSegment(p.path, loc.value.rootPath);
        if segment == Some(agent) || segment == None {
          return Ok(Some(existing.value));
        }
        return Err(CrossAgentCollision);
      }
      return Err(ConstraintFailure);
    }
    db.tables := inserted.value;
    db.tables := db.tables.(creators := SetNodeCreator(db.tables.creators, p.uuid, agent));
    return Ok(Some(p.uuid));
  }

  method ApplyEvent(db: Database, w: World, ev: Event) returns (r: Outcome)
    requires Sound(db.tables)
    modifies db
    ensures Meets(AgentEvents.ApplyEvent(old(db.tables), w, ev), r, db.tables)
    ensures r.Ok? ==> Safe(old(db.tables), db.tables)
  {
    hide NoClashes, StatusesMatch, EndpointsKnown, Safe, CreatedDone, EdgeDone, MovedDone, DeletedDone, RebasedDone,
         VirtualDone, WouldCreateCycle, AgentEvents.ApplyNodeCreated, AgentEvents.ApplyEdgeAttached,
         AgentEvents.ApplyNodeMoved, AgentEvents.ApplyNodeDeleted, AgentEvents.ApplyPathRebased,
         AgentEvents.ApplyVirtualNodeCreated;
    match ev.payload {
      case NodeCreated(_, _, _, _, _) => r := ApplyNodeCreated(db, w, ev.agent, ev.payload);
      case EdgeAttached(_, _, _, _, _, _, _, _, _, _) => r := ApplyEdgeAttached(db, ev.agent, ev.payload);
      case NodeMoved(_, _, _, _) => r := ApplyNodeMoved(db, w, ev.agent, ev.payload);
      case NodeDeleted(_) => r := ApplyNodeDeleted(db, w, ev.agent, ev.payload);
      case PathRebased(_, _, _, _, _) => r := ApplyPathRebased(db, w, ev.agent, ev.payload);
      case VirtualNodeCreated(_, _, _) => r := ApplyVirtualNodeCreated(db, w, ev.agent, ev.payload);
      case Undecodable => return Err(MalformedPayload);
      case UnknownType => return Err(UnknownEventType);
    }
  }

  /** The transaction around an event: all of it, or the tables as they were. */
  method ApplyInTx(db: Database, w: World, ev: Event) returns (r: Outcome)
    requires Sound(db.tables)
    modifies db
    ensures match AgentEvents.ApplyEvent(old(db.tables), w, ev)
            case Ok(a) => r == Ok(a.resolve) && db.tables == a.tables
            case Err(e) => r == Err(e) && db.tables == old(db.tables)
    ensures Safe(old(db.tables), db.tables)
    ensures r.Ok? <==> Acceptable(old(db.tables), w, ev)
    ensures r.Err? && !Fatal(r.error) <==> Waits(old(db.tables), w, ev)
  {
    hide NoClashes, StatusesMatch, EndpointsKnown, AgentEvents.ApplyEvent, Acceptable, Waits, Fatal;
    EventDecided(db.tables, w, ev);
    var start := db.tables;
    r := ApplyEvent(db, w, ev);
    if r.Err? {
      db.tables := start;
    }
  }
}
