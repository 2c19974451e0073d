/**
  What every accepted agent event keeps, kind by kind: the foreign keys, the unique indexes,
  the graph_status derivation, the acyclic lineage and every human decision.
 */
module AgentRules {
  import opened Wrappers
  import opened Reachability
  import opened Store
  import opened Engine
  import opened AgentEvents

  // ---- The unique indexes ----

  lemma IndexedWrite(t: Tables, n: NodeId, row: Node)
    requires Indexed(t) && HashLengthOk(row) && !Collides(t.nodes, n, row)
    ensures Indexed(t.(nodes := t.nodes[n := row]))
  {
  }

  /** Rows that differ in nothing the indexes look at, or were retired. */
  ghost predicate SameIndexed(nodes: map<NodeId, Node>, nodes': map<NodeId, Node>) {
    nodes'.Keys == nodes.Keys
    && forall n :: n in nodes ==> nodes'[n].path == nodes[n].path && nodes'[n].fullHash == nodes[n].fullHash
                                  && (nodes'[n].lifecycle == nodes[n].lifecycle || nodes'[n].lifecycle == Trashed)
  }

  lemma IndexedKept(t: Tables, t': Tables)
    requires Indexed(t) && SameIndexed(t.nodes, t'.nodes)
    ensures Indexed(t')
  {
    forall a, b | a in t'.nodes && b in t'.nodes && a != b ensures !Clash(t'.nodes[a], t'.nodes[b]) {
      assert !Clash(t.nodes[a], t.nodes[b]);
    }
  }

  lemma NoClashAt(t: Tables, n: NodeId)
    requires Indexed(t) && n in t.nodes
    ensures HashLengthOk(t.nodes[n]) && !Collides(t.nodes, n, t.nodes[n])
  {
  }

  // ---- What every event keeps ----

  /** The invariants every committed transaction leaves behind. */
  ghost predicate Sound(t: Tables) {
    Referential(t) && StatusDerived(t) && Indexed(t)
  }

  /** What no machine step breaks: the invariants, acyclicity, and every human decision. */
  ghost predicate Safe(t: Tables, t': Tables) {
    Sound(t') && (AcyclicEdges(t) ==> AcyclicEdges(t')) && KeepsDecisions(t.edges, t'.edges)
  }

  lemma ReferentialKept(t: Tables, t': Tables)
    requires Referential(t) && t'.edges == t.edges && t.nodes.Keys <= t'.nodes.Keys
    requires t'.creators.Keys <= t'.nodes.Keys && t'.provenance.Keys <= t'.nodes.Keys
    requires forall a :: a in t'.aliases ==> t'.aliases[a].canonical in t'.nodes && t'.aliases[a].canonical != a
    ensures Referential(t')
  {
  }

  lemma StatusInsert(t: Tables, n: NodeId, row: Node)
    requires Referential(t) && StatusDerived(t) && n !in t.nodes && row.status == Unlinked
    ensures StatusDerived(t.(nodes := t.nodes[n := row]))
  {
    assert ListEdgesByTarget(t.edges, n) == {};
  }

  /** Adding a node no row mentions, and claiming it. */
  lemma InsertSound(t: Tables, agent: string, n: NodeId, row: Node)
    requires Sound(t) && row.status == Unlinked && InsertMediaNode(t, n, row).Some?
    ensures Sound(InsertMediaNode(t, n, row).value.(creators := SetNodeCreator(t.creators, n, agent)))
  {
    var t' := InsertMediaNode(t, n, row).value.(creators := SetNodeCreator(t.creators, n, agent));
    IndexedWrite(t, n, row);
    StatusInsert(t, n, row);
    ReferentialKept(t, t');
  }

  lemma ProvenanceSound(t: Tables, n: NodeId, h: Option<string>)
    requires Sound(t) && n in t.nodes
    ensures Sound(t.(provenance := RecordFullHashSource(t.provenance, n, h, Agent)))
  {
    ReferentialKept(t, t.(provenance := RecordFullHashSource(t.provenance, n, h, Agent)));
  }

  lemma DeviceInsertSound(t: Tables, agent: string, n: NodeId, row: Node)
    requires Sound(t) && row.status == Unlinked && InsertDeviceNode(t, agent, n, row).Some?
    ensures Sound(InsertDeviceNode(t, agent, n, row).value)
  {
    InsertSound(t, agent, n, row);
    ProvenanceSound(InsertMediaNode(t, n, row).value.(creators := SetNodeCreator(t.creators, n, agent)), n,
                    row.fullHash);
  }

  lemma AliasSound(t: Tables, alias: NodeId, canonical: NodeId, agent: string)
    requires Sound(t) && canonical in t.nodes
    ensures Sound(RecordContentAlias(t, alias, canonical, agent))
  {
    hide NoClashes, StatusesMatch, EndpointsKnown;
    ReferentialKept(t, RecordContentAlias(t, alias, canonical, agent));
  }

  /** Rewriting one node's row, graph_status aside. */
  lemma WriteSound(t: Tables, n: NodeId, row: Node)
    requires Sound(t) && n in t.nodes && row.status == t.nodes[n].status
    requires HashLengthOk(row) && !Collides(t.nodes, n, row)
    ensures Sound(t.(nodes := t.nodes[n := row]))
  {
    IndexedWrite(t, n, row);
    ReferentialKept(t, t.(nodes := t.nodes[n := row]));
  }

  lemma InPlaceWriteSound(t: Tables, n: NodeId, mtime: int)
    requires Sound(t)
    ensures Sound(RefreshAfterInPlaceWrite(t, n, mtime))
  {
    hide StatusesMatch, EndpointsKnown;
    if n in t.nodes {
      NoClashAt(t, n);
      WriteSound(t, n, t.nodes[n].(mtime := mtime, fullHash := None, indexedFull := false));
    }
  }

  lemma RebaseSound(t: Tables, n: NodeId, path: string, fileName: string, mtime: int)
    requires Sound(t) && n in t.nodes && RebaseNodePath(t, n, path, fileName, mtime).Some?
    ensures Sound(RebaseNodePath(t, n, path, fileName, mtime).value)
  {
    assert HashLengthOk(t.nodes[n]);
    WriteSound(t, n, t.nodes[n].(path := path, fileName := fileName, mtime := mtime, lifecycle := Active));
  }

  lemma NodeCreatedSound(t: Tables, w: World, agent: string, p: Payload)
    requires Sound(t) && p.NodeCreated? && ApplyNodeCreated(t, w, agent, p).Ok?
    ensures Sound(ApplyNodeCreated(t, w, agent, p).value.tables)
    ensures ApplyNodeCreated(t, w, agent, p).value.tables.edges == t.edges
  {
    hide NoClashes, StatusesMatch, EndpointsKnown;
    var h, t' := NonEmpty(p.fullHash), ApplyNodeCreated(t, w, agent, p).value.tables;
    if LookupNodeByUUID(t, agent, p.uuid).None? {
      if h.Some? && GetMediaNodeByFullHash(t, h.value).Some? {
        AliasSound(t, p.uuid, GetMediaNodeByFullHash(t, h.value).value, agent);
      } else {
        DeviceInsertSound(t, agent, p.uuid, t'.nodes[p.uuid]);
      }
    }
  }

  lemma CheckedInsertSound(t: Tables, k: Key, row: Edge)
    requires Sound(t) && k !in t.edges && Insertable(t, k) && row.active
    requires !WouldCreateCycle(t, k.source, k.target)
    ensures var t' := Recompute(t.(edges := t.edges[k := row]), k.target);
            Sound(t') && (AcyclicEdges(t) ==> AcyclicEdges(t'))
  {
    hide NoClashes, StatusesMatch, Acyclic, Clash;
    var after := t.(edges := t.edges[k := row]);
    RecomputeDerives(t, after, k.target);
    assert ActiveKeys(after.edges) == ActiveKeys(t.edges) + {k};
    if AcyclicEdges(t) {
      CheckedActivationAcyclic(t, after.edges, k);
    }
    IndexedKept(t, Recompute(after, k.target));
  }

  lemma EdgeAttachedSound(t: Tables, agent: string, p: Payload)
    requires Sound(t) && p.EdgeAttached? && ApplyEdgeAttached(t, agent, p).Ok?
    ensures Sound(ApplyEdgeAttached(t, agent, p).value.tables)
    ensures AcyclicEdges(t) ==> AcyclicEdges(ApplyEdgeAttached(t, agent, p).value.tables)
    ensures KeepsDecisions(t.edges, ApplyEdgeAttached(t, agent, p).value.tables.edges)
  {
    hide NoClashes, StatusesMatch, EndpointsKnown, Acyclic, StatusOf;
    var t' := ApplyEdgeAttached(t, agent, p).value.tables;
    var source := LookupNodeByUUID(t, agent, p.sourceUuid).value.0;
    var target := LookupNodeByUUID(t, agent, p.targetUuid).value.0;
    var k := Key(source, target, ParseRelationship(p.relationship).value);
    if k in t.edges {
      RecomputeIdle(t, target);
    } else {
      CheckedInsertSound(t, k, t'.edges[k]);
    }
  }

  lemma NodeMovedSound(t: Tables, w: World, agent: string, p: Payload)
    requires Sound(t) && p.NodeMoved? && ApplyNodeMoved(t, w, agent, p).Ok?
    ensures Sound(ApplyNodeMoved(t, w, agent, p).value.tables)
    ensures ApplyNodeMoved(t, w, agent, p).value.tables.edges == t.edges
  {
    hide NoClashes, StatusesMatch, EndpointsKnown;
    var found := LookupNodeByUUID(t, agent, p.uuid).value;
    if !found.1 {
      RebaseSound(t, found.0, p.path, OrElse(p.fileName, w.baseName(p.path)),
                  if p.mtime == 0 then t.nodes[found.0].mtime else p.mtime);
    }
  }

  lemma TrashSound(t: Tables, ns: set<NodeId>)
    requires Sound(t)
    ensures Sound(Trash(t, ns))
  {
    IndexedKept(t, Trash(t, ns));
    ReferentialKept(t, Trash(t, ns));
  }

  lemma NodeDeletedSound(t: Tables, w: World, agent: string, p: Payload)
    requires Sound(t) && p.NodeDeleted? && ApplyNodeDeleted(t, w, agent, p).Ok?
    ensures Sound(ApplyNodeDeleted(t, w, agent, p).value.tables)
    ensures ApplyNodeDeleted(t, w, agent, p).value.tables.edges == t.edges
  {
    hide NoClashes, StatusesMatch, EndpointsKnown;
    var n := LookupNodeByUUID(t, agent, p.uuid).value.0;
    var exports := CascadeCandidates(t, n);
    TrashSound(t, {n} + set x | x in exports && ExportMoves(w, t.nodes[x]) == Some(true));
  }

  lemma RebaseKnownSound(t: Tables, agent: string, n: NodeId, p: Payload, fileName: string, mtime: int)
    requires Sound(t) && p.PathRebased? && n in t.nodes && RebaseKnown(t, agent, n, p, fileName, mtime).Ok?
    ensures Sound(RebaseKnown(t, agent, n, p, fileName, mtime).value.tables)
         && RebaseKnown(t, agent, n, p, fileName, mtime).value.tables.edges == t.edges
  {
    hide NoClashes, StatusesMatch, EndpointsKnown;
    var h := NonEmpty(p.fullHash);
    RebaseSound(t, n, p.path, fileName, mtime);
    var moved := RebaseNodePath(t, n, p.path, fileName, mtime).value;
    var setHash := if h.Some? then FullHashUpdate(t.nodes[n].fullHash, h.value).value else false;
    if setHash {
      var full := moved.nodes[n].(fullHash := h, indexedFull := true);
      WriteSound(moved, n, full);
      ProvenanceSound(moved.(nodes := moved.nodes[n := full]), n, h);
    } else {
      NoClashAt(moved, n);
      WriteSound(moved, n, moved.nodes[n].(indexedFull := true));
    }
  }

  lemma PathRebasedSound(t: Tables, w: World, agent: string, p: Payload)
    requires Sound(t) && p.PathRebased? && ApplyPathRebased(t, w, agent, p).Ok?
    ensures Sound(ApplyPathRebased(t, w, agent, p).value.tables)
    ensures ApplyPathRebased(t, w, agent, p).value.tables.edges == t.edges
  {
    hide NoClashes, StatusesMatch, EndpointsKnown;
    var h, found := NonEmpty(p.fullHash), LookupNodeByUUID(t, agent, p.uuid);
    var fileName, mtime := OrElse(p.fileName, w.baseName(p.path)), if p.mtime == 0 then w.now else p.mtime;
    if found.Some? {
      if !found.value.1 {
        RebaseKnownSound(t, agent, found.value.0, p, fileName, mtime);
      }
    } else if h.Some? && GetMediaNodeByFullHash(t, h.value).Some? {
      AliasSound(t, p.uuid, GetMediaNodeByFullHash(t, h.value).value, agent);
    } else {
      DeviceInsertSound(t, agent, p.uuid, Node(p.path, fileName, mtime, h, h.Some?, Unlinked, Active));
    }
  }

  lemma VirtualSound(t: Tables, w: World, agent: string, p: Payload)
    requires Sound(t) && p.VirtualNodeCreated? && ApplyVirtualNodeCreated(t, w, agent, p).Ok?
    ensures Sound(ApplyVirtualNodeCreated(t, w, agent, p).value.tables)
         && ApplyVirtualNodeCreated(t, w, agent, p).value.tables.edges == t.edges
  {
    hide NoClashes, StatusesMatch, EndpointsKnown;
    var row := Node(p.path, OrElse(p.displayName, w.baseName(p.path)), 0, None, false, Unlinked, Active);
    if p.uuid !in t.nodes && InsertMediaNode(t, p.uuid, row).Some? {
      InsertSound(t, agent, p.uuid, row);
    }
  }

  lemma SameEdgesSafe(t: Tables, t': Tables)
    requires Sound(t') && t'.edges == t.edges
    ensures Safe(t, t')
  {
  }

  /** Every accepted event, whatever its kind, payload, device and world, keeps the foreign
      keys, the unique indexes, the graph_status derivation, the acyclic lineage and every
      human decision. */
  lemma EventKeeps(t: Tables, w: World, ev: Event)
    requires Sound(t) && ApplyEvent(t, w, ev).Ok?
    ensures Sound(ApplyEvent(t, w, ev).value.tables)
    ensures AcyclicEdges(t) ==> AcyclicEdges(ApplyEvent(t, w, ev).value.tables)
    ensures KeepsDecisions(t.edges, ApplyEvent(t, w, ev).value.tables.edges)
  {
    match ev.payload {
      case NodeCreated(_, _, _, _, _) => NodeCreatedSound(t, w, ev.agent, ev.payload);
      case EdgeAttached(_, _, _, _, _, _, _, _, _, _) => EdgeAttachedSound(t, ev.agent, ev.payload);
      case NodeMoved(_, _, _, _) => NodeMovedSound(t, w, ev.agent, ev.payload);
      case NodeDeleted(_) => NodeDeletedSound(t, w, ev.agent, ev.payload);
      case PathRebased(_, _, _, _, _) => PathRebasedSound(t, w, ev.agent, ev.payload);
      case VirtualNodeCreated(_, _, _) => VirtualSound(t, w, ev.agent, ev.payload);
      case Undecodable =>
      case UnknownType =>
    }
  }
}
