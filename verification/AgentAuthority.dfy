/**
  The limits of a device's authority. Every accepted event, whatever it asked for, amounts
  to one of six permitted effects; everything a device can or cannot bring about, over any
  run of events, follows from what those effects may touch.
 */
module AgentAuthority {
  import opened Wrappers
  import opened Reachability
  import opened Store
  import opened AgentEvents
  import opened AgentRules

  datatype Effect =
    | Nothing
    | AddAlias(alias: NodeId, canonical: NodeId)
    | AddNode(n: NodeId, row: Node)
    | AddEdge(k: Key, edge: Edge)
    | Rewrite(n: NodeId, row: Node, newHash: Option<string>)
    | Retire(n: NodeId, exports: set<NodeId>)

  function Perform(t: Tables, agent: string, e: Effect): Tables {
    match e
    case Nothing => t
    case AddAlias(alias, canonical) => t.(aliases := t.aliases[alias := Alias(canonical, agent)])
    case AddNode(n, row) =>
      t.(nodes := t.nodes[n := row], creators := SetNodeCreator(t.creators, n, agent),
         provenance := RecordFullHashSource(t.provenance, n, row.fullHash, Agent))
    case AddEdge(k, edge) => Recompute(t.(edges := t.edges[k := edge]), k.target)
    case Rewrite(n, row, newHash) =>
      t.(nodes := t.nodes[n := row], provenance := RecordFullHashSource(t.provenance, n, newHash, Agent))
    case Retire(n, exports) => Trash(t, {n} + exports)
  }

  predicate Retired(row: Node) {
    row.lifecycle == Archived || row.lifecycle == Trashed
  }

  /** What a device may do to tables t. */
  ghost predicate Permitted(t: Tables, agent: string, e: Effect) {
    match e
    case Nothing => true
    case AddAlias(alias, canonical) => alias !in t.nodes && alias !in t.aliases && canonical in t.nodes
    case AddNode(n, row) => n !in t.nodes && row.lifecycle == Active && row.status == Unlinked
    case AddEdge(k, edge) =>
      && k !in t.edges && k.source in t.nodes && k.target in t.nodes && edge.active && !Locked(edge)
      && !WouldCreateCycle(t, k.source, k.target)
      && (Accepted(edge) ==> Owns(t, agent, k.target))
    case Rewrite(n, row, newHash) =>
      && n in t.nodes && Owns(t, agent, n) && !Retired(t.nodes[n])
      && row.lifecycle == Active && row.status == t.nodes[n].status
      && (if newHash.None? then row.fullHash == t.nodes[n].fullHash
          else NonEmpty(t.nodes[n].fullHash).None? && row.fullHash == newHash)
    case Retire(n, exports) =>
      n in t.nodes && Owns(t, agent, n) && !Retired(t.nodes[n]) && exports <= CascadeCandidates(t, n)
  }

  // ---- Six kinds of event, six effects ----

  lemma NodeCreatedEffect(t: Tables, w: World, agent: string, p: Payload) returns (e: Effect)
    requires Sound(t) && p.NodeCreated? && ApplyNodeCreated(t, w, agent, p).Ok?
    ensures Permitted(t, agent, e) && ApplyNodeCreated(t, w, agent, p).value.tables == Perform(t, agent, e)
    ensures e.AddAlias? || e.AddNode? || e.Nothing?
  {
    hide NoClashes, StatusesMatch, EndpointsKnown, Clash;
    var h, t' := NonEmpty(p.fullHash), ApplyNodeCreated(t, w, agent, p).value.tables;
    e := Nothing;
    if LookupNodeByUUID(t, agent, p.uuid).None? {
      if h.Some? && GetMediaNodeByFullHash(t, h.value).Some? {
        if t' != t {
          e := AddAlias(p.uuid, GetMediaNodeByFullHash(t, h.value).value);
        }
      } else {
        e := AddNode(p.uuid, t'.nodes[p.uuid]);
      }
    }
  }

  lemma EdgeAttachedEffect(t: Tables, agent: string, p: Payload) returns (e: Effect)
    requires Sound(t) && p.EdgeAttached? && ApplyEdgeAttached(t, agent, p).Ok?
    ensures Permitted(t, agent, e) && ApplyEdgeAttached(t, agent, p).value.tables == Perform(t, agent, e)
    ensures e.AddEdge? || e.Nothing?
  {
    hide NoClashes, StatusesMatch, EndpointsKnown, Clash, StatusOf;
    var source := LookupNodeByUUID(t, agent, p.sourceUuid).value.0;
    var target := LookupNodeByUUID(t, agent, p.targetUuid).value.0;
    var k := Key(source, target, ParseRelationship(p.relationship).value);
    if k in t.edges {
      RecomputeIdle(t, target);
      e := Nothing;
    } else {
      e := AddEdge(k, ApplyEdgeAttached(t, agent, p).value.tables.edges[k]);
    }
  }

  lemma NodeMovedEffect(t: Tables, w: World, agent: string, p: Payload) returns (e: Effect)
    requires Sound(t) && p.NodeMoved? && ApplyNodeMoved(t, w, agent, p).Ok?
    ensures Permitted(t, agent, e) && ApplyNodeMoved(t, w, agent, p).value.tables == Perform(t, agent, e)
    ensures (e.Rewrite? && e.n == p.uuid && e.newHash.None?) || e.Nothing?
  {
    hide NoClashes, StatusesMatch, EndpointsKnown, Clash;
    var found := LookupNodeByUUID(t, agent, p.uuid).value;
    var moved := ApplyNodeMoved(t, w, agent, p).value.tables;
    e := if found.1 then Nothing else Rewrite(found.0, moved.nodes[found.0], None);
  }

  lemma NodeDeletedEffect(t: Tables, w: World, agent: string, p: Payload) returns (e: Effect)
    requires Sound(t) && p.NodeDeleted? && ApplyNodeDeleted(t, w, agent, p).Ok?
    ensures Permitted(t, agent, e) && ApplyNodeDeleted(t, w, agent, p).value.tables == Perform(t, agent, e)
    ensures (e.Retire? && e.n == p.uuid) || e.Nothing?
  {
    hide NoClashes, StatusesMatch, EndpointsKnown, Clash;
    var found := LookupNodeByUUID(t, agent, p.uuid).value;
    var n, exports := found.0, CascadeCandidates(t, found.0);
    if found.1 || Retired(t.nodes[n]) {
      e := Nothing;
    } else {
      e := Retire(n, set x | x in exports && ExportMoves(w, t.nodes[x]) == Some(true));
    }
  }

  /** A rebase of a node the device knows is a rewrite of that node. */
  lemma RebaseKnownEffect(t: Tables, agent: string, n: NodeId, p: Payload, fileName: string,
                          mtime: int) returns (e: Effect)
    requires p.PathRebased? && n in t.nodes && RebaseKnown(t, agent, n, p, fileName, mtime).Ok?
    ensures Permitted(t, agent, e) && RebaseKnown(t, agent, n, p, fileName, mtime).value.tables == Perform(t, agent, e)
    ensures e.Rewrite? && e.n == n && (e.newHash.Some? ==> e.newHash == p.fullHash)
  {
    hide Collides, ValidFullHash;
    var h := NonEmpty(p.fullHash);
    var setHash := if h.Some? then FullHashUpdate(t.nodes[n].fullHash, h.value).value else false;
    e := Rewrite(n, RebaseKnown(t, agent, n, p, fileName, mtime).value.tables.nodes[n], if setHash then h else None);
  }

  lemma PathRebasedEffect(t: Tables, w: World, agent: string, p: Payload) returns (e: Effect)
    requires Sound(t) && p.PathRebased? && ApplyPathRebased(t, w, agent, p).Ok?
    ensures Permitted(t, agent, e) && ApplyPathRebased(t, w, agent, p).value.tables == Perform(t, agent, e)
    ensures e.AddAlias? || e.AddNode? || e.Nothing?
         || (e.Rewrite? && e.n == p.uuid && (e.newHash.Some? ==> e.newHash == p.fullHash))
  {
    hide NoClashes, StatusesMatch, EndpointsKnown, Clash, RebaseKnown;
    var h, found := NonEmpty(p.fullHash), LookupNodeByUUID(t, agent, p.uuid);
    var t' := ApplyPathRebased(t, w, agent, p).value.tables;
    if found.Some? {
      e := Nothing;
      if !found.value.1 {
        e := RebaseKnownEffect(t, agent, found.value.0, p, OrElse(p.fileName, w.baseName(p.path)),
                               if p.mtime == 0 then w.now else p.mtime);
      }
    } else if h.Some? && GetMediaNodeByFullHash(t, h.value).Some? {
      e := if t' == t then Nothing else AddAlias(p.uuid, GetMediaNodeByFullHash(t, h.value).value);
    } else {
      e := AddNode(p.uuid, t'.nodes[p.uuid]);
    }
  }

  lemma VirtualEffect(t: Tables, w: World, agent: string, p: Payload) returns (e: Effect)
    requires Sound(t) && p.VirtualNodeCreated? && ApplyVirtualNodeCreated(t, w, agent, p).Ok?
    ensures Permitted(t, agent, e) && ApplyVirtualNodeCreated(t, w, agent, p).value.tables == Perform(t, agent, e)
    ensures e.AddNode? || e.Nothing?
  {
    hide NoClashes, StatusesMatch, EndpointsKnown, Clash;
    var t' := ApplyVirtualNodeCreated(t, w, agent, p).value.tables;
    e := if p.uuid !in t.nodes && p.uuid in t'.nodes then AddNode(p.uuid, t'.nodes[p.uuid]) else Nothing;
  }

  /** Every accepted event is one permitted effect. */
  lemma EventEffect(t: Tables, w: World, ev: Event) returns (e: Effect)
    requires Sound(t) && ApplyEvent(t, w, ev).Ok?
    ensures Permitted(t, ev.agent, e) && ApplyEvent(t, w, ev).value.tables == Perform(t, ev.agent, e)
    ensures e.Retire? ==> ev.payload == NodeDeleted(e.n)
    ensures e.Rewrite? && e.newHash.Some? ==>
      ev.payload.PathRebased? && ev.payload.uuid == e.n && ev.payload.fullHash == e.newHash
  {
    hide NoClashes, StatusesMatch, EndpointsKnown, Clash, Permitted, Perform;
    match ev.payload {
      case NodeCreated(_, _, _, _, _) => e := NodeCreatedEffect(t, w, ev.agent, ev.payload);
      case EdgeAttached(_, _, _, _, _, _, _, _, _, _) => e := EdgeAttachedEffect(t, ev.agent, ev.payload);
      case NodeMoved(_, _, _, _) => e := NodeMovedEffect(t, w, ev.agent, ev.payload);
      case NodeDeleted(_) => e := NodeDeletedEffect(t, w, ev.agent, ev.payload);
      case PathRebased(_, _, _, _, _) => e := PathRebasedEffect(t, w, ev.agent, ev.payload);
      case VirtualNodeCreated(_, _, _) => e := VirtualEffect(t, w, ev.agent, ev.payload);
    }
  }

  // ---- Runs of events ----

  datatype Delivery = Delivery(w: World, ev: Event)

  /** One delivery: the event's tables, or the tables as they were when it fails. */
  function Deliver(t: Tables, d: Delivery): Tables
    requires Indexed(t)
  {
    match ApplyEvent(t, d.w, d.ev)
    case Ok(a) => a.tables
    case Err(_) => t
  }

  lemma DeliverSound(t: Tables, d: Delivery)
    requires Sound(t)
    ensures Sound(Deliver(t, d))
    ensures AcyclicEdges(t) ==> AcyclicEdges(Deliver(t, d))
  {
    if ApplyEvent(t, d.w, d.ev).Ok? {
      EventKeeps(t, d.w, d.ev);
    }
  }

  /** A delivery is one permitted effect of its device: a failed one has none. */
  lemma DeliverEffect(t: Tables, d: Delivery) returns (e: Effect)
    requires Sound(t)
    ensures Permitted(t, d.ev.agent, e) && Deliver(t, d) == Perform(t, d.ev.agent, e)
    ensures e.Retire? ==> d.ev.payload == NodeDeleted(e.n)
    ensures e.Rewrite? && e.newHash.Some? ==>
      d.ev.payload.PathRebased? && d.ev.payload.uuid == e.n && d.ev.payload.fullHash == e.newHash
  {
    e := Nothing;
    if ApplyEvent(t, d.w, d.ev).Ok? {
      e := EventEffect(t, d.w, d.ev);
    }
  }

  ghost function DeliverAll(t: Tables, ds: seq<Delivery>): (t': Tables)
    requires Sound(t)
    ensures Sound(t')
    decreases |ds|
  {
    if ds == [] then t
    else
      DeliverSound(t, ds[0]);
      DeliverAll(Deliver(t, ds[0]), ds[1..])
  }

  /** Node n between two moments of a run of events: retirement is one-way, a hash is written
      once, and the creator on record never changes. */
  ghost predicate Evolves(t: Tables, t': Tables, n: NodeId) {
    n in t.nodes ==>
      && n in t'.nodes
      && (Retired(t.nodes[n]) ==> Retired(t'.nodes[n]))
      && (NonEmpty(t.nodes[n].fullHash).Some? ==> t'.nodes[n].fullHash == t.nodes[n].fullHash)
      && (n in t.creators <==> n in t'.creators) && (n in t.creators ==> t'.creators[n] == t.creators[n])
  }

  lemma DeliverEvolves(t: Tables, d: Delivery, n: NodeId)
    requires Sound(t)
    ensures Evolves(t, Deliver(t, d), n)
  {
    hide NoClashes, StatusesMatch, EndpointsKnown, Clash, WouldCreateCycle, ApplyEvent;
    var e := DeliverEffect(t, d);
  }

  /** Over any run of events, from any devices, in any worlds: an ARCHIVED or TRASHED node
      never becomes ACTIVE again, a recorded full hash never changes, and no node changes
      hands; the lineage stays acyclic. */
  lemma {:induction false} RunEvolves(t: Tables, ds: seq<Delivery>, n: NodeId)
    requires Sound(t)
    ensures Evolves(t, DeliverAll(t, ds), n)
    ensures AcyclicEdges(t) ==> AcyclicEdges(DeliverAll(t, ds))
    decreases |ds|
  {
    if ds != [] {
      DeliverSound(t, ds[0]);
      DeliverEvolves(t, ds[0], n);
      RunEvolves(Deliver(t, ds[0]), ds[1..], n);
    }
  }

  // ---- Nodes a device did not create ----

  /** The accepted edges into n, whatever their activity. */
  function AcceptedInto(edges: map<Key, Edge>, n: NodeId): set<Key> {
    set k | k in edges && k.target == n && Accepted(edges[k])
  }

  /** Node n as one device's events may leave it when the device did not create it. */
  ghost predicate LeftAlone(t: Tables, t': Tables, n: NodeId)
    requires n in t.nodes
  {
    && n in t'.nodes && t'.nodes[n].path == t.nodes[n].path && t'.nodes[n].fileName == t.nodes[n].fileName
    && t'.nodes[n].fullHash == t.nodes[n].fullHash && t'.nodes[n].mtime == t.nodes[n].mtime
    && AcceptedInto(t'.edges, n) == AcceptedInto(t.edges, n)
    && (t'.nodes[n].lifecycle == t.nodes[n].lifecycle || t'.nodes[n].lifecycle == Trashed)
  }

  lemma DeliverLeavesAlone(t: Tables, d: Delivery, n: NodeId)
    requires Sound(t) && n in t.nodes && !Owns(t, d.ev.agent, n)
    ensures LeftAlone(t, Deliver(t, d), n) && !Owns(Deliver(t, d), d.ev.agent, n)
  {
    hide NoClashes, StatusesMatch, EndpointsKnown, Clash, WouldCreateCycle, ApplyEvent, StatusOf;
    var e := DeliverEffect(t, d);
    var t' := Deliver(t, d);
    if e.AddEdge? {
      assert AcceptedInto(t'.edges, n) == AcceptedInto(t.edges, n);
    }
  }

  /** In any run of one device's events, a node it did not create keeps its path, name, hash
      and set of accepted incoming edges -- whether the device names it outright or through an
      alias. Its lifecycle can change only to TRASHED. */
  lemma {:induction false} RunLeavesAlone(t: Tables, ds: seq<Delivery>, agent: string, n: NodeId)
    requires Sound(t) && n in t.nodes && !Owns(t, agent, n)
    requires forall i :: 0 <= i < |ds| ==> ds[i].ev.agent == agent
    ensures LeftAlone(t, DeliverAll(t, ds), n)
    decreases |ds|
  {
    if ds != [] {
      DeliverSound(t, ds[0]);
      DeliverLeavesAlone(t, ds[0], n);
      RunLeavesAlone(Deliver(t, ds[0]), ds[1..], agent, n);
    }
  }

  lemma EffectOnLifecycle(t: Tables, agent: string, e: Effect, n: NodeId)
    requires Permitted(t, agent, e) && n in t.nodes
    ensures n in Perform(t, agent, e).nodes
    ensures Perform(t, agent, e).nodes[n].lifecycle != t.nodes[n].lifecycle ==>
              (e.Retire? && (n == e.n || n in e.exports)) || (e.Rewrite? && n == e.n)
  {
    hide WouldCreateCycle, StatusOf;
  }

  /** The one way a foreign node's lifecycle changes: it is an accepted export of a master
      the device created and now deletes. In particular a delete that NAMES a node changes
      that node's lifecycle only if the device created it. */
  lemma ForeignLifecycleOnlyByCascade(t: Tables, d: Delivery, n: NodeId)
    requires Sound(t) && n in t.nodes && !Owns(t, d.ev.agent, n)
    requires n in Deliver(t, d).nodes && Deliver(t, d).nodes[n].lifecycle != t.nodes[n].lifecycle
    ensures d.ev.payload.NodeDeleted? && d.ev.payload.uuid != n
    ensures var master := d.ev.payload.uuid;
            master in t.nodes && Owns(t, d.ev.agent, master) && n in CascadeCandidates(t, master)
  {
    hide NoClashes, StatusesMatch, EndpointsKnown, Clash, WouldCreateCycle, ApplyEvent, StatusOf, Perform, Deliver;
    var e := DeliverEffect(t, d);
    EffectOnLifecycle(t, d.ev.agent, e, n);
  }
}
