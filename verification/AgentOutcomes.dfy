/**
  What accepted agent events bring about, field by field -- the other half of AgentAuthority,
  which says what they may not touch.
 */
module AgentOutcomes {
  import opened Wrappers
  import opened Reachability
  import opened Store
  import opened Engine
  import opened AgentEvents
  import opened AgentRules
  import opened AgentAcceptance
  import opened AgentAuthority

  // ---- Aliases ----

  /** First writer wins, for good: over any run of events a recorded alias keeps its node and
      its device. */
  lemma {:induction false} AliasesAreKept(t: Tables, ds: seq<Delivery>, a: NodeId)
    requires Sound(t) && a in t.aliases
    ensures a in DeliverAll(t, ds).aliases && DeliverAll(t, ds).aliases[a] == t.aliases[a]
    decreases |ds|
  {
    hide NoClashes, StatusesMatch, EndpointsKnown, Clash, WouldCreateCycle, ApplyEvent, StatusOf, Deliver;
    if ds != [] {
      DeliverSound(t, ds[0]);
      var e := DeliverEffect(t, ds[0]);
      EffectKeepsAliases(t, ds[0].ev.agent, e, a);
      AliasesAreKept(Deliver(t, ds[0]), ds[1..], a);
    }
  }

  lemma EffectKeepsAliases(t: Tables, agent: string, e: Effect, a: NodeId)
    requires Permitted(t, agent, e) && a in t.aliases
    ensures a in Perform(t, agent, e).aliases && Perform(t, agent, e).aliases[a] == t.aliases[a]
  {
    hide WouldCreateCycle, StatusOf;
  }

  // ---- EVENT_NODE_CREATED ----

  predicate Given(h: Option<string>) {
    h.Some? && h.value != ""
  }

  /** The file's name as the event gives it, or the last segment of its path. */
  function NameOf(w: World, fileName: string, path: string): string {
    if fileName != "" then fileName else w.baseName(path)
  }

  /** One new node, active and unlinked, created by this device; the device vouches for its hash. */
  ghost predicate NewNode(t: Tables, agent: string, n: NodeId, row: Node, t': Tables) {
    && n !in t.nodes && row.status == Unlinked && row.lifecycle == Active
    && row.indexedFull == row.fullHash.Some?
    && t' == t.(
         nodes := t.nodes[n := row], creators := t.creators[n := agent],
         provenance := if row.fullHash.Some? then t.provenance[n := Provenance(row.fullHash.value, Agent)]
                       else t.provenance)
  }

  /** The UUID becomes this device's alias of the live node with that content -- unless some
      device holds it as an alias already. */
  ghost predicate AliasOfContent(t: Tables, agent: string, uuid: string, h: string, t': Tables) {
    exists n :: n in t.nodes && t.nodes[n].lifecycle in {Active, Hidden} && t.nodes[n].fullHash == Some(h)
      && t' == if n == uuid || uuid in t.aliases then t else t.(aliases := t.aliases[uuid := Alias(n, agent)])
  }

  /** An accepted creation: nothing when the device's UUID already resolves; an alias for content
      the server has; otherwise one new node at the event's path, due for a resolve pass. */
  ghost predicate CreatedDone(t: Tables, w: World, agent: string, p: Payload, t': Tables, resolve: Option<NodeId>)
    requires p.NodeCreated?
  {
    if Named(t, agent, p.uuid) then t' == t && resolve.None?
    else if Given(p.fullHash) && ContentKnown(t, p.fullHash.value) then
      AliasOfContent(t, agent, p.uuid, p.fullHash.value, t') && resolve.None?
    else
      && Located(w, p.path) && resolve == Some(p.uuid)
      && p.uuid in t'.nodes && NewNode(t, agent, p.uuid, t'.nodes[p.uuid], t')
      && var row := t'.nodes[p.uuid];
      row.path == p.path && row.fileName == NameOf(w, p.fileName, p.path)
      && row.mtime == (if p.mtime != 0 then p.mtime else w.now)
      && row.fullHash == if Given(p.fullHash) then p.fullHash else None
  }

  lemma DeviceInsert(t: Tables, agent: string, n: NodeId, row: Node)
    requires Sound(t) && InsertDeviceNode(t, agent, n, row).Some?
    requires row.status == Unlinked && row.lifecycle == Active && row.indexedFull == row.fullHash.Some?
    ensures NewNode(t, agent, n, row, InsertDeviceNode(t, agent, n, row).value)
  {
    hide Collides, StatusesMatch, NoClashes, EndpointsKnown;
    assert n !in t.creators && n !in t.provenance;
  }

  lemma ContentAlias(t: Tables, agent: string, uuid: string, h: string)
    requires Indexed(t) && ContentKnown(t, h)
    ensures GetMediaNodeByFullHash(t, h).Some?
    ensures AliasOfContent(t, agent, uuid, h,
                           RecordContentAlias(t, uuid, GetMediaNodeByFullHash(t, h).value, agent))
  {
    hide NoClashes;
    KnownContent(t, h);
  }

  lemma CreatedOutcome(t: Tables, w: World, agent: string, p: Payload)
    requires Sound(t) && p.NodeCreated? && ApplyNodeCreated(t, w, agent, p).Ok?
    ensures var a := ApplyNodeCreated(t, w, agent, p).value;
            Safe(t, a.tables) && CreatedDone(t, w, agent, p, a.tables, a.resolve)
  {
    hide NoClashes, StatusesMatch, EndpointsKnown, Clash, Safe, ContentKnown, AliasOfContent, NewNode, InsertDeviceNode,
         RecordContentAlias;
    var a, h := ApplyNodeCreated(t, w, agent, p).value, NonEmpty(p.fullHash);
    NodeCreatedSound(t, w, agent, p);
    SameEdgesSafe(t, a.tables);
    if h.Some? {
      KnownContent(t, h.value);
    }
    if Named(t, agent, p.uuid) {
    } else if h.Some? && ContentKnown(t, h.value) {
      ContentAlias(t, agent, p.uuid, h.value);
    } else {
      var row := Node(p.path, OrElse(p.fileName, w.baseName(p.path)), if p.mtime == 0 then w.now else p.mtime, h,
                      h.Some?, Unlinked, Active);
      DeviceInsert(t, agent, p.uuid, row);
      InsertedRow(t, agent, p.uuid, row);
    }
  }

  lemma InsertedRow(t: Tables, agent: string, n: NodeId, row: Node)
    requires InsertDeviceNode(t, agent, n, row).Some?
    ensures n in InsertDeviceNode(t, agent, n, row).value.nodes
    ensures InsertDeviceNode(t, agent, n, row).value.nodes[n] == row
  {
    hide Collides, RecordFullHashSource;
  }

  // ---- EVENT_EDGE_ATTACHED ----

  function RelationshipName(rel: Relationship): string {
    match rel
    case DerivedFrom => "DERIVED_FROM"
    case FinalExport => "FINAL_EXPORT"
    case ProxyOf => "PROXY_OF"
    case ProjectSidecar => "PROJECT_SIDECAR"
    case DuplicateOf => "DUPLICATE_OF"
  }

  /** The five names, and nothing for DERIVED_FROM. */
  predicate Names(s: string, rel: Relationship) {
    s == RelationshipName(rel) || (s == "" && rel == DerivedFrom)
  }

  lemma ParseUndoesName(s: string, rel: Relationship)
    ensures ParseRelationship(s) == Some(rel) <==> Names(s, rel)
  {
  }

  /** The row an edge event asks for: tier 1 or 2, never 3; accepted without review exactly from
      0.90 on and when the device created the child. */
  predicate AttachedRow(t: Tables, agent: string, p: Payload, child: NodeId, e: Edge)
    requires p.EdgeAttached?
  {
    && e.active && e.confidence == p.confidence && e.tier == (if p.tier >= 2 then 2 else 1)
    && e.resolver == (if p.resolver != "" then p.resolver else "agent")
    && (p.evidence.Some? ==> e.evidence == p.evidence.value)
    && (p.evidence.None? ==> e.evidence.Json? && e.evidence.text == "{}")
    && e.review == if p.confidence >= 90 && Owned(t, agent, child) then AutoAccepted else NeedsReview
  }

  /** After an accepted edge event its edge is on file: left as it is if it was, otherwise as the
      event asked; and the child's status follows. */
  ghost predicate EdgeDone(t: Tables, agent: string, p: Payload, t': Tables)
    requires p.EdgeAttached?
  {
    && EndsNamed(t, agent, p)
    && exists rel :: Names(p.relationship, rel)
         && var k := Key(Meant(t, agent, p.sourceUuid), Meant(t, agent, p.targetUuid), rel);
         if k in t.edges then t' == t
         else
           && k in t'.edges && AttachedRow(t, agent, p, k.target, t'.edges[k])
           && t' == t.(edges := t.edges[k := t'.edges[k]], nodes := t'.nodes)
           && k.target in t'.nodes && RowsSay(t'.edges, k.target, t'.nodes[k.target].status)
           && t'.nodes == t.nodes[k.target := t.nodes[k.target].(status := t'.nodes[k.target].status)]
  }

  lemma EdgeAttachedOutcome(t: Tables, agent: string, p: Payload)
    requires Sound(t) && p.EdgeAttached? && ApplyEdgeAttached(t, agent, p).Ok?
    ensures Safe(t, ApplyEdgeAttached(t, agent, p).value.tables)
    ensures EdgeDone(t, agent, p, ApplyEdgeAttached(t, agent, p).value.tables)
  {
    hide NoClashes, StatusesMatch, EndpointsKnown, Clash, StatusOf, WouldCreateCycle, AcyclicEdges, KeepsDecisions,
         RowsSay, ValidNodeUUID;
    EdgeAttachedSound(t, agent, p);
    var t', rel := ApplyEdgeAttached(t, agent, p).value.tables, ParseRelationship(p.relationship).value;
    ParseUndoesName(p.relationship, rel);
    var target := LookupNodeByUUID(t, agent, p.targetUuid).value.0;
    RecomputeIdle(t, target);
    StatusIsWhatRowsSay(t'.edges, target, StatusOf(t'.edges, target));
    hide ParseRelationship, RelationshipName;
    assert Names(p.relationship, rel);
  }

  // ---- EVENT_NODE_MOVED ----

  /** An accepted move through an alias changes nothing; otherwise it puts the device's unretired
      node at a place it may use, with the event's name and time or their defaults, and changes
      nothing else. */
  ghost predicate MovedDone(t: Tables, w: World, agent: string, p: Payload, t': Tables)
    requires p.NodeMoved?
  {
    if AliasNamed(t, agent, p.uuid) then t' == t
    else
      && Holds(t, agent, p.uuid) && MayPlace(w, p.path)
      && t' == t.(nodes := t.nodes[p.uuid := t.nodes[p.uuid].(
                 path := p.path, fileName := NameOf(w, p.fileName, p.path),
                 mtime := if p.mtime != 0 then p.mtime else t.nodes[p.uuid].mtime, lifecycle := Active)])
  }

  lemma MovedOutcome(t: Tables, w: World, agent: string, p: Payload)
    requires Sound(t) && p.NodeMoved? && ApplyNodeMoved(t, w, agent, p).Ok?
    ensures Safe(t, ApplyNodeMoved(t, w, agent, p).value.tables)
    ensures MovedDone(t, w, agent, p, ApplyNodeMoved(t, w, agent, p).value.tables)
  {
    hide NoClashes, StatusesMatch, EndpointsKnown, Clash, Collides, Safe;
    NodeMovedSound(t, w, agent, p);
    SameEdgesSafe(t, ApplyNodeMoved(t, w, agent, p).value.tables);
  }

  // ---- EVENT_NODE_DELETED ----

  /** An accepted delete of a node that is not already retired sends exactly that node and those
      of its accepted exports the trash takes to TRASHED, and changes nothing else. */
  ghost predicate DeletedDone(t: Tables, w: World, agent: string, p: Payload, t': Tables)
    requires p.NodeDeleted?
  {
    if AliasNamed(t, agent, p.uuid) || (p.uuid in t.nodes && t.nodes[p.uuid].lifecycle in {Archived, Trashed})
    then t' == t
    else
      && Holds(t, agent, p.uuid) && t' == t.(nodes := t'.nodes) && t'.nodes.Keys == t.nodes.Keys
      && forall x :: x in t.nodes ==>
           t'.nodes[x] == if x == p.uuid || (ExportOf(t, p.uuid, x) && Takeable(w, t.nodes[x].path))
                          then t.nodes[x].(lifecycle := Trashed) else t.nodes[x]
  }

  lemma DeletedOutcome(t: Tables, w: World, agent: string, p: Payload)
    requires Sound(t) && p.NodeDeleted? && ApplyNodeDeleted(t, w, agent, p).Ok?
    ensures Safe(t, ApplyNodeDeleted(t, w, agent, p).value.tables)
    ensures DeletedDone(t, w, agent, p, ApplyNodeDeleted(t, w, agent, p).value.tables)
  {
    hide NoClashes, StatusesMatch, EndpointsKnown, Clash, ExportMoves, Safe, CascadeCandidates, ExportOf, Takeable;
    NodeDeletedSound(t, w, agent, p);
    SameEdgesSafe(t, ApplyNodeDeleted(t, w, agent, p).value.tables);
    forall x | x in t.nodes
      ensures x in CascadeCandidates(t, p.uuid) <==> ExportOf(t, p.uuid, x)
      ensures ExportMoves(w, t.nodes[x]) == Some(true) <==> Takeable(w, t.nodes[x].path)
    {
      CascadeIff(t, p.uuid, x);
      ExportMovesIff(w, t.nodes[x]);
    }
  }

  // ---- EVENT_PATH_REBASED ----

  /** The agent's word for a hash stands beside its own, never over the server's. */
  function Vouched(provenance: map<NodeId, Provenance>, n: NodeId, h: string): map<NodeId, Provenance> {
    if n in provenance && provenance[n] == Provenance(h, Server) then provenance
    else provenance[n := Provenance(h, Agent)]
  }

  /** The device's node stands ACTIVE at the new path, with the event's hash if it brought one. */
  ghost predicate NodeRebased(t: Tables, w: World, agent: string, p: Payload, t': Tables)
    requires p.PathRebased?
  {
    && Holds(t, agent, p.uuid) && HashSettable(t.nodes[p.uuid], p.fullHash)
    && var row, h := t.nodes[p.uuid], HashAfter(t.nodes[p.uuid], p.fullHash);
    t' == t.(
      nodes := t.nodes[p.uuid := row.(
        path := p.path, fileName := NameOf(w, p.fileName, p.path),
        mtime := if p.mtime != 0 then p.mtime else w.now, lifecycle := Active,
        fullHash := h, indexedFull := row.indexedFull || Given(h))],
      provenance := if Given(p.fullHash) && row.fullHash != p.fullHash
                    then Vouched(t.provenance, p.uuid, p.fullHash.value) else t.provenance)
  }

  /** An accepted rebase: nothing through an alias; otherwise, at a place the device may use, the
      node is rewritten, or an unknown file goes on record -- as an alias of its content or as a
      new node due for a resolve pass. */
  ghost predicate RebasedDone(t: Tables, w: World, agent: string, p: Payload, t': Tables, resolve: Option<NodeId>)
    requires p.PathRebased?
  {
    if AliasNamed(t, agent, p.uuid) then t' == t && resolve.None?
    else
      && MayPlace(w, p.path)
      && if p.uuid in t.nodes then NodeRebased(t, w, agent, p, t') && resolve.None?
      else if Given(p.fullHash) && ContentKnown(t, p.fullHash.value) then
        AliasOfContent(t, agent, p.uuid, p.fullHash.value, t') && resolve.None?
      else
        && resolve == Some(p.uuid) && p.uuid in t'.nodes && NewNode(t, agent, p.uuid, t'.nodes[p.uuid], t')
        && var row := t'.nodes[p.uuid];
        row.path == p.path && row.fileName == NameOf(w, p.fileName, p.path)
        && row.mtime == (if p.mtime != 0 then p.mtime else w.now)
        && row.fullHash == if Given(p.fullHash) then p.fullHash else None
  }

  lemma RebasedOutcome(t: Tables, w: World, agent: string, p: Payload)
    requires Sound(t) && p.PathRebased? && ApplyPathRebased(t, w, agent, p).Ok?
    ensures var a := ApplyPathRebased(t, w, agent, p).value;
            Safe(t, a.tables) && RebasedDone(t, w, agent, p, a.tables, a.resolve)
  {
    hide NoClashes, StatusesMatch, EndpointsKnown, Clash, Collides, RebaseKnown, Safe, NodeRebased, ContentKnown,
         AliasOfContent, NewNode, InsertDeviceNode, RecordContentAlias, ValidNodeUUID;
    var a, h := ApplyPathRebased(t, w, agent, p).value, NonEmpty(p.fullHash);
    PathRebasedSound(t, w, agent, p);
    SameEdgesSafe(t, a.tables);
    var fileName, mtime := OrElse(p.fileName, w.baseName(p.path)), if p.mtime == 0 then w.now else p.mtime;
    if p.uuid in t.nodes {
      RebaseKnownOutcome(t, w, agent, p);
    } else if AliasNamed(t, agent, p.uuid) {
    } else {
      if h.Some? {
        KnownContent(t, h.value);
      }
      if h.Some? && ContentKnown(t, h.value) {
        ContentAlias(t, agent, p.uuid, h.value);
      } else {
        var row := Node(p.path, fileName, mtime, h, h.Some?, Unlinked, Active);
        DeviceInsert(t, agent, p.uuid, row);
        InsertedRow(t, agent, p.uuid, row);
      }
    }
  }

  lemma RebaseKnownOutcome(t: Tables, w: World, agent: string, p: Payload)
    requires Sound(t) && p.PathRebased? && p.uuid in t.nodes
    requires var fileName, mtime := OrElse(p.fileName, w.baseName(p.path)), if p.mtime == 0 then w.now else p.mtime;
             RebaseKnown(t, agent, p.uuid, p, fileName, mtime).Ok?
    ensures var fileName, mtime := OrElse(p.fileName, w.baseName(p.path)), if p.mtime == 0 then w.now else p.mtime;
            var a := RebaseKnown(t, agent, p.uuid, p, fileName, mtime).value;
            a.resolve.None? && NodeRebased(t, w, agent, p, a.tables)
  {
    hide Collides, ValidFullHash, NoClashes, StatusesMatch, EndpointsKnown, RecordFullHashSource, Vouched;
    NoClashAt(t, p.uuid);
    FullHashIs64(p.fullHash);
    if p.fullHash.Some? && |p.fullHash.value| == 64 {
      RecordVouches(t.provenance, p.uuid, p.fullHash.value);
    }
  }

  lemma RecordVouches(provenance: map<NodeId, Provenance>, n: NodeId, h: string)
    requires |h| == 64
    ensures RecordFullHashSource(provenance, n, Some(h), Agent) == Vouched(provenance, n, h)
  {
  }

  lemma FullHashIs64(h: Option<string>)
    ensures h.Some? && ValidFullHash(h.value) ==> |h.value| == 64
  {
  }

  // ---- EVENT_VIRTUAL_NODE_CREATED ----

  /** After an accepted virtual creation the UUID is on record, or a node that is not retired
      holds the path and the path's agent segment is nobody else's; that node is due for a
      resolve pass. A node at another device's path is never handed out. */
  ghost predicate VirtualDone(t: Tables, w: World, agent: string, p: Payload, t': Tables, resolve: Option<NodeId>)
    requires p.VirtualNodeCreated?
  {
    if p.uuid in t.nodes then t' == t && resolve.None?
    else
      && Located(w, p.path) && w.guard.value(p.path).value.isVirtual
      && if PathTaken(t, p.path, p.uuid) then
        && t' == t && resolve.Some? && resolve.value in t.nodes && t.nodes[resolve.value].path == p.path
        && t.nodes[resolve.value].lifecycle in {Active, Missing, Hidden}
        && !SomebodyElses(p.path, w.guard.value(p.path).value.rootPath, agent)
      else
        && resolve == Some(p.uuid)
        && NewNode(t, agent, p.uuid,
                   Node(p.path, NameOf(w, p.displayName, p.path), 0, None, false, Unlinked, Active), t')
  }

  lemma VirtualOutcome(t: Tables, w: World, agent: string, p: Payload)
    requires Sound(t) && p.VirtualNodeCreated? && ApplyVirtualNodeCreated(t, w, agent, p).Ok?
    ensures var a := ApplyVirtualNodeCreated(t, w, agent, p).value;
            Safe(t, a.tables) && VirtualDone(t, w, agent, p, a.tables, a.resolve)
  {
    hide NoClashes, StatusesMatch, EndpointsKnown, Clash, Collides, ExtractPathAgentSegment, Safe, PathTaken,
         SomebodyElses, ValidNodeUUID;
    VirtualSound(t, w, agent, p);
    SameEdgesSafe(t, ApplyVirtualNodeCreated(t, w, agent, p).value.tables);
    CollidesIff(t, p.uuid, Node(p.path, OrElse(p.displayName, w.baseName(p.path)), 0, None, false, Unlinked, Active));
    if Located(w, p.path) {
      SegmentAllows(p.path, w.guard.value(p.path).value.rootPath, agent);
    }
    assert p.uuid !in t.nodes ==> p.uuid !in t.creators;
  }

  // ---- Every kind ----

  /** What an accepted event brought about, and the node a resolve pass is due for. */
  ghost predicate EventDone(t: Tables, w: World, ev: Event, t': Tables, resolve: Option<NodeId>) {
    match ev.payload
    case NodeCreated(_, _, _, _, _) => CreatedDone(t, w, ev.agent, ev.payload, t', resolve)
    case EdgeAttached(_, _, _, _, _, _, _, _, _, _) => EdgeDone(t, ev.agent, ev.payload, t') && resolve.None?
    case NodeMoved(_, _, _, _) => MovedDone(t, w, ev.agent, ev.payload, t') && resolve.None?
    case NodeDeleted(_) => DeletedDone(t, w, ev.agent, ev.payload, t') && resolve.None?
    case PathRebased(_, _, _, _, _) => RebasedDone(t, w, ev.agent, ev.payload, t', resolve)
    case VirtualNodeCreated(_, _, _) => VirtualDone(t, w, ev.agent, ev.payload, t', resolve)
    case Undecodable => false
    case UnknownType => false
  }

  lemma EventOutcome(t: Tables, w: World, ev: Event)
    requires Sound(t) && ApplyEvent(t, w, ev).Ok?
    ensures EventDone(t, w, ev, ApplyEvent(t, w, ev).value.tables, ApplyEvent(t, w, ev).value.resolve)
  {
    hide NoClashes, StatusesMatch, EndpointsKnown, Safe, CreatedDone, EdgeDone, MovedDone, DeletedDone, RebasedDone,
         VirtualDone, ApplyNodeCreated, ApplyPathRebased, ApplyVirtualNodeCreated, WouldCreateCycle, ValidNodeUUID,
         TrashAsset, Collides;
    match ev.payload {
      case NodeCreated(_, _, _, _, _) => CreatedOutcome(t, w, ev.agent, ev.payload);
      case EdgeAttached(_, _, _, _, _, _, _, _, _, _) => EdgeAttachedOutcome(t, ev.agent, ev.payload);
      case NodeMoved(_, _, _, _) => MovedOutcome(t, w, ev.agent, ev.payload);
      case NodeDeleted(_) => DeletedOutcome(t, w, ev.agent, ev.payload);
      case PathRebased(_, _, _, _, _) => RebasedOutcome(t, w, ev.agent, ev.payload);
      case VirtualNodeCreated(_, _, _) => VirtualOutcome(t, w, ev.agent, ev.payload);
      case Undecodable =>
      case UnknownType =>
    }
  }
}
