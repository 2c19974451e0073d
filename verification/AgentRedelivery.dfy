/**
  The queue delivers at least once: an event may be applied again after it committed. A second
  delivery changes nothing (a rebase that carries no mtime refreshes that one field).
 */
module AgentRedelivery {
  import opened Wrappers
  import opened Reachability
  import opened Store
  import opened AgentEvents
  import opened AgentRules
  import opened AgentAuthority

  /** t'' is t', but for the clock-supplied mtime of a rebased node. */
  predicate SameButMtime(t': Tables, t'': Tables, p: Payload, now: int) {
    || t'' == t'
    || (p.PathRebased? && p.mtime == 0 && p.uuid in t'.nodes
        && t'' == t'.(nodes := t'.nodes[p.uuid := t'.nodes[p.uuid].(mtime := now)]))
  }

  lemma CreatedAgain(t: Tables, w: World, w': World, agent: string, p: Payload)
    requires Sound(t) && p.NodeCreated? && ApplyNodeCreated(t, w, agent, p).Ok?
    ensures var t' := ApplyNodeCreated(t, w, agent, p).value.tables;
            Indexed(t') ==> ApplyNodeCreated(t', w', agent, p) == Ok(Applied(t', None))
  {
    hide StatusesMatch, EndpointsKnown, Clash;
    var t' := ApplyNodeCreated(t, w, agent, p).value.tables;
    if Indexed(t') && LookupNodeByUUID(t', agent, p.uuid).None? {
      var h := NonEmpty(p.fullHash);
      assert h.Some? && GetMediaNodeByFullHash(t, h.value).Some?;
      assert t' == t;
    }
  }

  /** The re-check cannot find a cycle: the first check found the child not reaching the
      parent, and the edge since added points into the child. No acyclicity is needed. */
  lemma AttachedAgain(t: Tables, agent: string, p: Payload)
    requires Sound(t) && p.EdgeAttached? && ApplyEdgeAttached(t, agent, p).Ok?
    ensures var t' := ApplyEdgeAttached(t, agent, p).value.tables;
            ApplyEdgeAttached(t', agent, p) == Ok(Applied(t', None))
  {
    hide NoClashes, EndpointsKnown, Clash, StatusOf;
    var t' := ApplyEdgeAttached(t, agent, p).value.tables;
    var source := LookupNodeByUUID(t, agent, p.sourceUuid).value.0;
    var target := LookupNodeByUUID(t, agent, p.targetUuid).value.0;
    var k := Key(source, target, ParseRelationship(p.relationship).value);
    if k in t.edges {
      RecomputeIdle(t, target);
    } else {
      assert ActiveKeys(t'.edges) == ActiveKeys(t.edges) + {k};
      SameAnswerAfterAttach(t, t', k);
      EdgeAttachedSound(t, agent, p);
      RecomputeIdle(t', target);
    }
  }

  lemma SameAnswerAfterAttach(t: Tables, t': Tables, k: Key)
    requires ActivatesOnlyInto(t.edges, t'.edges, k.target)
    ensures WouldCreateCycle(t', k.source, k.target) == WouldCreateCycle(t, k.source, k.target)
  {
    var E, E' := ActiveRelation(t.edges), ActiveRelation(t'.edges);
    ActivationGrowsInto(t.edges, t'.edges, k.target);
    GrowthKeepsDescendants(E, E', k.target, k.source);
    DescendantsExact(E, k.target, k.source);
    DescendantsExact(E', k.target, k.source);
  }

  lemma MovedAgain(t: Tables, w: World, w': World, agent: string, p: Payload)
    requires Sound(t) && p.NodeMoved? && ApplyNodeMoved(t, w, agent, p).Ok? && w'.baseName == w.baseName
    requires var t' := ApplyNodeMoved(t, w, agent, p).value.tables; ApplyNodeMoved(t', w', agent, p).Ok?
    ensures var t' := ApplyNodeMoved(t, w, agent, p).value.tables;
            ApplyNodeMoved(t', w', agent, p).value.tables == t'
  {
    hide NoClashes, StatusesMatch, EndpointsKnown, Clash, Collides;
  }

  lemma DeletedAgain(t: Tables, w: World, w': World, agent: string, p: Payload)
    requires Sound(t) && p.NodeDeleted? && ApplyNodeDeleted(t, w, agent, p).Ok?
    ensures var t' := ApplyNodeDeleted(t, w, agent, p).value.tables;
            ApplyNodeDeleted(t', w', agent, p) == Ok(Applied(t', None))
  {
    hide NoClashes, StatusesMatch, EndpointsKnown, Clash;
  }

  /** Does the rebase bring the node its first hash? */
  predicate FirstHash(row: Node, p: Payload)
    requires p.PathRebased?
  {
    NonEmpty(row.fullHash).None? && NonEmpty(p.fullHash).Some?
  }

  function RebasedRow(row: Node, p: Payload, fileName: string, mtime: int): Node
    requires p.PathRebased?
  {
    var hash := if FirstHash(row, p) then p.fullHash else row.fullHash;
    row.(path := p.path, fileName := fileName, mtime := mtime, lifecycle := Active,
         fullHash := hash, indexedFull := NonEmpty(hash).Some? || row.indexedFull)
  }

  lemma RebaseKnownShape(t: Tables, agent: string, n: NodeId, p: Payload, fileName: string, mtime: int)
    requires p.PathRebased? && n in t.nodes && RebaseKnown(t, agent, n, p, fileName, mtime).Ok?
    ensures RebaseKnown(t, agent, n, p, fileName, mtime).value.tables
         == t.(nodes := t.nodes[n := RebasedRow(t.nodes[n], p, fileName, mtime)],
               provenance := if FirstHash(t.nodes[n], p) then RecordFullHashSource(t.provenance, n, p.fullHash, Agent)
                  else t.provenance)
  {
    hide Collides, RecordFullHashSource, ValidFullHash;
  }

  lemma RebasedKnownAgain(t: Tables, agent: string, n: NodeId, p: Payload, fileName: string, mtime: int, mtime': int)
    requires p.PathRebased? && n in t.nodes && RebaseKnown(t, agent, n, p, fileName, mtime).Ok?
    requires var t' := RebaseKnown(t, agent, n, p, fileName, mtime).value.tables;
             n in t'.nodes && RebaseKnown(t', agent, n, p, fileName, mtime').Ok?
    ensures var t' := RebaseKnown(t, agent, n, p, fileName, mtime).value.tables;
            t'.nodes[n].mtime == mtime
            && RebaseKnown(t', agent, n, p, fileName, mtime').value.tables
               == t'.(nodes := t'.nodes[n := t'.nodes[n].(mtime := mtime')])
  {
    hide RebaseKnown, RecordFullHashSource;
    RebaseKnownShape(t, agent, n, p, fileName, mtime);
    RebaseKnownShape(RebaseKnown(t, agent, n, p, fileName, mtime).value.tables, agent, n, p, fileName, mtime');
  }

  lemma RebasedAgain(t: Tables, w: World, w': World, agent: string, p: Payload)
    requires Sound(t) && p.PathRebased? && ApplyPathRebased(t, w, agent, p).Ok? && w'.baseName == w.baseName
    requires var t' := ApplyPathRebased(t, w, agent, p).value.tables;
             Sound(t') && ApplyPathRebased(t', w', agent, p).Ok?
    ensures var t' := ApplyPathRebased(t, w, agent, p).value.tables;
            SameButMtime(t', ApplyPathRebased(t', w', agent, p).value.tables, p, w'.now)
  {
    hide StatusesMatch, EndpointsKnown, NoClashes, RebaseKnown, RebaseUnknown;
    var t' := ApplyPathRebased(t, w, agent, p).value.tables;
    var fileName := OrElse(p.fileName, w.baseName(p.path));
    var mtime, mtime' := if p.mtime == 0 then w.now else p.mtime, if p.mtime == 0 then w'.now else p.mtime;
    if p.uuid in t.nodes {
      RebaseKnownShape(t, agent, p.uuid, p, fileName, mtime);
      RebasedKnownAgain(t, agent, p.uuid, p, fileName, mtime, mtime');
    } else if LookupNodeByUUID(t, agent, p.uuid).None? {
      RebasedUnknownAgain(t, agent, p, fileName, mtime, mtime');
    }
  }

  lemma RebasedUnknownAgain(t: Tables, agent: string, p: Payload, fileName: string, mtime: int, mtime': int)
    requires Sound(t) && p.PathRebased? && LookupNodeByUUID(t, agent, p.uuid).None?
    requires RebaseUnknown(t, agent, p, fileName, mtime).Ok?
    ensures var t' := RebaseUnknown(t, agent, p, fileName, mtime).value.tables;
            var found := LookupNodeByUUID(t', agent, p.uuid);
            if found.None? then
              && t' == t && RebaseUnknown(t, agent, p, fileName, mtime').Ok?
              && RebaseUnknown(t, agent, p, fileName, mtime').value.tables == t
            else if found.value.1 then true
            else
              found.value.0 == p.uuid && t'.nodes[p.uuid].mtime == mtime
              && (RebaseKnown(t', agent, p.uuid, p, fileName, mtime').Ok? ==>
                    RebaseKnown(t', agent, p.uuid, p, fileName, mtime').value.tables
                    == t'.(nodes := t'.nodes[p.uuid := t'.nodes[p.uuid].(mtime := mtime')]))
  {
    hide StatusesMatch, EndpointsKnown, NoClashes, RebaseKnown;
    var t' := RebaseUnknown(t, agent, p, fileName, mtime).value.tables;
    if p.uuid in t'.nodes && RebaseKnown(t', agent, p.uuid, p, fileName, mtime').Ok? {
      RebaseKnownShape(t', agent, p.uuid, p, fileName, mtime');
    }
  }

  lemma VirtualAgain(t: Tables, w: World, w': World, agent: string, p: Payload)
    requires Sound(t) && p.VirtualNodeCreated? && ApplyVirtualNodeCreated(t, w, agent, p).Ok?
    requires var t' := ApplyVirtualNodeCreated(t, w, agent, p).value.tables;
      Indexed(t') && ApplyVirtualNodeCreated(t', w', agent, p).Ok?
    ensures var t' := ApplyVirtualNodeCreated(t, w, agent, p).value.tables;
            ApplyVirtualNodeCreated(t', w', agent, p).value.tables == t'
  {
  }

  /** Delivering a committed event once more -- later, with the guard and the files in
      whatever state they are by then -- leaves nodes, edges, aliases, creators, provenance
      and statuses as they are, up to that one mtime. */
  lemma RedeliveryIsIdle(t: Tables, d: Delivery, w': World)
    requires Sound(t) && ApplyEvent(t, d.w, d.ev).Ok? && w'.baseName == d.w.baseName
    ensures Sound(Deliver(t, d))
    ensures SameButMtime(Deliver(t, d), Deliver(Deliver(t, d), Delivery(w', d.ev)), d.ev.payload, w'.now)
  {
    hide NoClashes, StatusesMatch, EndpointsKnown, Clash;
    DeliverSound(t, d);
    var t' := Deliver(t, d);
    if ApplyEvent(t', w', d.ev).Ok? {
      match d.ev.payload {
        case NodeCreated(_, _, _, _, _) => CreatedAgain(t, d.w, w', d.ev.agent, d.ev.payload);
        case EdgeAttached(_, _, _, _, _, _, _, _, _, _) => AttachedAgain(t, d.ev.agent, d.ev.payload);
        case NodeMoved(_, _, _, _) => MovedAgain(t, d.w, w', d.ev.agent, d.ev.payload);
        case NodeDeleted(_) => DeletedAgain(t, d.w, w', d.ev.agent, d.ev.payload);
        case PathRebased(_, _, _, _, _) => RebasedAgain(t, d.w, w', d.ev.agent, d.ev.payload);
        case VirtualNodeCreated(_, _, _) => VirtualAgain(t, d.w, w', d.ev.agent, d.ev.payload);
      }
    }
  }

  /** However late an edge event comes back -- other writers having been at work meanwhile --
      it is acknowledged and changes nothing, as long as its edge is still active: the
      re-check cannot find a cycle because the lineage has none. */
  lemma LateEdgeRedelivery(t: Tables, u: Tables, agent: string, p: Payload)
    requires Sound(u) && AcyclicEdges(u) && p.EdgeAttached? && ApplyEdgeAttached(t, agent, p).Ok?
    requires LookupNodeByUUID(u, agent, p.sourceUuid) == LookupNodeByUUID(t, agent, p.sourceUuid)
    requires LookupNodeByUUID(u, agent, p.targetUuid) == LookupNodeByUUID(t, agent, p.targetUuid)
    requires var k := Key(LookupNodeByUUID(t, agent, p.sourceUuid).value.0,
                          LookupNodeByUUID(t, agent, p.targetUuid).value.0,
                          ParseRelationship(p.relationship).value);
             k in u.edges && u.edges[k].active
    ensures ApplyEdgeAttached(u, agent, p) == Ok(Applied(u, None))
  {
    hide NoClashes, EndpointsKnown, Clash, StatusOf;
    var source := LookupNodeByUUID(t, agent, p.sourceUuid).value.0;
    var target := LookupNodeByUUID(t, agent, p.targetUuid).value.0;
    var k := Key(source, target, ParseRelationship(p.relationship).value);
    assert (k.source, k.target) in ActiveRelation(u.edges);
    DescendantsExact(ActiveRelation(u.edges), target, source);
    RecomputeIdle(u, target);
  }
}
