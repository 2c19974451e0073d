/**
  What one agent event does to the tables: six kinds of payload under the ownership, alias,
  lifecycle and write-once-hash rules. Each apply function is a transaction body: it yields
  the tables to commit, or the error that rolls everything back.
 */
module AgentEvents {
  import opened Wrappers
  import opened Reachability
  import opened Store
  import opened Engine

  // ---- Payloads ----

  datatype Payload =
    | NodeCreated(uuid: string, path: string, fileName: string, mtime: int, fullHash: Option<string>)
    | EdgeAttached(sourceId: int, targetId: int, sourceUuid: string, targetUuid: string, relationship: string,
                   confidence: int, tier: int, resolver: string, evidence: Option<Evidence>, reviewState: string)
    | NodeMoved(uuid: string, path: string, fileName: string, mtime: int)
    | NodeDeleted(uuid: string)
    | PathRebased(uuid: string, path: string, fileName: string, mtime: int, fullHash: Option<string>)
    | VirtualNodeCreated(uuid: string, path: string, displayName: string)
    | Undecodable
    | UnknownType

  datatype Event = Event(agent: string, payload: Payload)

  datatype EventError =
    | MalformedPayload | UnknownEventType | InvalidNodeUUID | ReadOnlyRebase | ArchivedNode | TrashedNode
    | ClosesCycle | PathNotVirtual | CrossAgentCollision | NotNodeOwner | HashConflict | ConstraintFailure
    | NodeNotFound | FileNotYetPresent | GuardNotConfigured | TrashFailed | TransactionFailed

  /** The errors retrying cannot change. */
  predicate Fatal(e: EventError) {
    e !in {NodeNotFound, FileNotYetPresent, GuardNotConfigured, TrashFailed, TransactionFailed}
  }

  /** The world an event is applied in: the guard (None: not configured), whether a file is
      there (None: the check failed), whether a file can be moved to the trash, the last
      path segment, and the clock. */
  datatype World = World(
    guard: Option<string -> Option<Location>>,
    present: string -> Option<bool>,
    movable: string -> bool,
    baseName: string -> string,
    now: int)

  /** The tables to commit, and the node a resolve pass is due for. */
  datatype Applied = Applied(tables: Tables, resolve: Option<NodeId>)

  // ---- Validation ----

  predicate HexDigit(c: char) {
    '0' <= c <= '9' || 'a' <= c <= 'f' || 'A' <= c <= 'F'
  }

  predicate ValidNodeUUID(s: string) {
    |s| == 36 && forall i :: 0 <= i < 36 ==>
      if i == 8 || i == 13 || i == 18 || i == 23 then s[i] == '-' else HexDigit(s[i])
  }

  predicate ValidFullHash(s: string) {
    |s| == 64 && forall i :: 0 <= i < |s| ==> '0' <= s[i] <= '9' || 'a' <= s[i] <= 'f'
  }

  /** An empty string stands for no value. */
  function NonEmpty(s: Option<string>): Option<string> {
    if s == Some("") then None else s
  }

  function OrElse(s: string, default_: string): string {
    if s == "" then default_ else s
  }

  function ParseRelationship(s: string): Option<Relationship> {
    if s == "" || s == "DERIVED_FROM" then Some(DerivedFrom)
    else if s == "FINAL_EXPORT" then Some(FinalExport)
    else if s == "PROXY_OF" then Some(ProxyOf)
    else if s == "PROJECT_SIDECAR" then Some(ProjectSidecar)
    else if s == "DUPLICATE_OF" then Some(DuplicateOf)
    else None
  }

  // ---- Lookups ----

  /** The node a device means by a UUID, and whether it got there through an alias. Only the
      device's own aliases are followed. */
  function LookupNodeByUUID(t: Tables, agent: string, uuid: string): Option<(NodeId, bool)> {
    if uuid in t.nodes then Some((uuid, false))
    else if uuid in t.aliases && t.aliases[uuid].agent == agent && t.aliases[uuid].canonical in t.nodes
    then Some((t.aliases[uuid].canonical, true))
    else None
  }

  function GetMediaNodeByFullHash(t: Tables, h: string): (r: Option<NodeId>)
    requires Indexed(t)
    ensures r.Some? ==> r.value in t.nodes && Live(t.nodes[r.value]) && t.nodes[r.value].fullHash == Some(h)
    ensures r.None? ==> forall n :: n in t.nodes && Live(t.nodes[n]) ==> t.nodes[n].fullHash != Some(h)
  {
    if exists n :: n in t.nodes && Live(t.nodes[n]) && t.nodes[n].fullHash == Some(h)
    then
      var n :| n in t.nodes && Live(t.nodes[n]) && t.nodes[n].fullHash == Some(h);
      Some(n)
    else None
  }

  function GetMediaNodeByFilePath(t: Tables, path: string): (r: Option<NodeId>)
    requires Indexed(t)
    ensures r.Some? ==> r.value in t.nodes && HoldsPath(t.nodes[r.value]) && t.nodes[r.value].path == path
    ensures r.None? ==> forall n :: n in t.nodes && HoldsPath(t.nodes[n]) ==> t.nodes[n].path != path
  {
    if exists n :: n in t.nodes && HoldsPath(t.nodes[n]) && t.nodes[n].path == path
    then
      var n :| n in t.nodes && HoldsPath(t.nodes[n]) && t.nodes[n].path == path;
      Some(n)
    else None
  }

  /** RequireNodeOwner: a node with no recorded creator belongs to no device. */
  predicate Owns(t: Tables, agent: string, n: NodeId) {
    n in t.creators && t.creators[n] != "" && t.creators[n] == agent
  }

  // ---- Writes shared by several kinds ----

  /** First writer wins; a node is never its own alias. */
  function RecordContentAlias(t: Tables, alias: NodeId, canonical: NodeId, agent: string): Tables {
    if alias == canonical || alias in t.aliases then t
    else t.(aliases := t.aliases[alias := Alias(canonical, agent)])
  }

  /** RebaseNodePathByUUID: unconditionally ACTIVE; the unique indexes may refuse it. */
  function RebaseNodePath(t: Tables, n: NodeId, path: string, fileName: string, mtime: int): Option<Tables>
    requires n in t.nodes
  {
    var row := t.nodes[n].(path := path, fileName := fileName, mtime := mtime, lifecycle := Active);
    if Collides(t.nodes, n, row) then None else Some(t.(nodes := t.nodes[n := row]))
  }

  function ResolveRebaseTarget(w: World, guard: string -> Option<Location>,
                               path: string): Result<Location, EventError> {
    match guard(path)
    case None => Err(MalformedPayload)
    case Some(loc) =>
      if !loc.readOnly && !loc.tier3 then Ok(loc)
      else if !loc.tier3 then Err(ReadOnlyRebase)
      else
        match w.present(path)
        case None => Err(MalformedPayload)
        case Some(there) => if there then Ok(loc) else Err(FileNotYetPresent)
  }

  /** FullHashUpdate: set it once, skip the same value, refuse another. */
  function FullHashUpdate(existing: Option<string>, incoming: string): Result<bool, EventError> {
    if !ValidFullHash(incoming) then Err(MalformedPayload)
    else if NonEmpty(existing).None? then Ok(true)
    else if existing == Some(incoming) then Ok(false)
    else Err(HashConflict)
  }

  // ---- EVENT_NODE_CREATED ----

  /** Insert a node this device created, with its creator and its hash's provenance. */
  function InsertDeviceNode(t: Tables, agent: string, n: NodeId, row: Node): Option<Tables> {
    match InsertMediaNode(t, n, row)
    case None => None
    case Some(t') =>
      Some(t'.(creators := SetNodeCreator(t'.creators, n, agent),
               provenance := RecordFullHashSource(t'.provenance, n, row.fullHash, Agent)))
  }

  function ApplyNodeCreated(t: Tables, w: World, agent: string, p: Payload): Result<Applied, EventError>
    requires Indexed(t) && p.NodeCreated?
  {
    var h := NonEmpty(p.fullHash);
    if !ValidNodeUUID(p.uuid) then Err(InvalidNodeUUID)
    else if p.path == "" || (h.Some? && !ValidFullHash(h.value)) then Err(MalformedPayload)
    else if LookupNodeByUUID(t, agent, p.uuid).Some? then Ok(Applied(t, None))
    else if h.Some? && GetMediaNodeByFullHash(t, h.value).Some? then
      Ok(Applied(RecordContentAlias(t, p.uuid, GetMediaNodeByFullHash(t, h.value).value, agent), None))
    else if w.guard.None? then Err(GuardNotConfigured)
    else if w.guard.value(p.path).None? then Err(MalformedPayload)
    else
      var mtime := if p.mtime == 0 then w.now else p.mtime;
      var row := Node(p.path, OrElse(p.fileName, w.baseName(p.path)), mtime, h, h.Some?, Unlinked, Active);
      match InsertDeviceNode(t, agent, p.uuid, row)
      case Some(t') => Ok(Applied(t', Some(p.uuid)))
      case None => Err(ConstraintFailure)
  }

  // ---- EVENT_EDGE_ATTACHED ----

  const AGENT_MAX_EDGE_TIER := 2

  function ClampTier(tier: int): int {
    if tier <= 0 then 1 else if tier > AGENT_MAX_EDGE_TIER then AGENT_MAX_EDGE_TIER else tier
  }

  function ApplyEdgeAttached(t: Tables, agent: string, p: Payload): Result<Applied, EventError>
    requires p.EdgeAttached?
  {
    if p.sourceId != 0 || p.targetId != 0 || p.sourceUuid == "" || p.targetUuid == "" then Err(MalformedPayload)
    else if !ValidNodeUUID(p.sourceUuid) || !ValidNodeUUID(p.targetUuid) then Err(InvalidNodeUUID)
    else if ParseRelationship(p.relationship).None? then Err(MalformedPayload)
    else if p.reviewState == "CONFIRMED" || p.reviewState == "REJECTED" then Err(MalformedPayload)
    else if p.confidence <= 0 || p.confidence > 100 || p.confidence < NEEDS_REVIEW_FLOOR then Err(MalformedPayload)
    else
      match (LookupNodeByUUID(t, agent, p.sourceUuid), LookupNodeByUUID(t, agent, p.targetUuid))
      case (Some((source, _)), Some((target, _))) =>
        var tier := ClampTier(p.tier);
        var review := if Owns(t, agent, target) && p.confidence >= AutoAcceptThresholdForTier(tier) then AutoAccepted
            else NeedsReview;
        var k := Key(source, target, ParseRelationship(p.relationship).value);
        var evidence := if p.evidence.Some? then p.evidence.value else Json("{}", Some(EvidenceFields("", [], "")));
        var row := Edge(p.confidence, tier, OrElse(p.resolver, "agent"), evidence, review, true);
        if WouldCreateCycle(t, source, target) then Err(ClosesCycle)
        else if k in t.edges then Ok(Applied(Recompute(t, target), None))
        else
          (match CreateMediaEdge(t, k, row)
           case None => Err(ConstraintFailure)
           case Some(t') => Ok(Applied(Recompute(t', target), None)))
      case _ => Err(NodeNotFound)
  }

  // ---- EVENT_NODE_MOVED ----

  function ApplyNodeMoved(t: Tables, w: World, agent: string, p: Payload): Result<Applied, EventError>
    requires p.NodeMoved?
  {
    if !ValidNodeUUID(p.uuid) then Err(InvalidNodeUUID)
    else if p.path == "" then Err(MalformedPayload)
    else
      match LookupNodeByUUID(t, agent, p.uuid)
      case None => Err(NodeNotFound)
      case Some((n, aliased)) =>
        if aliased then Ok(Applied(t, None))
        else if t.nodes[n].lifecycle == Archived then Err(ArchivedNode)
        else if t.nodes[n].lifecycle == Trashed then Err(TrashedNode)
        else if !Owns(t, agent, n) then Err(NotNodeOwner)
        else if w.guard.None? then Err(GuardNotConfigured)
        else
          var _ :- ResolveRebaseTarget(w, w.guard.value, p.path);
          var mtime := if p.mtime == 0 then t.nodes[n].mtime else p.mtime;
          match RebaseNodePath(t, n, p.path, OrElse(p.fileName, w.baseName(p.path)), mtime)
          case None => Err(ConstraintFailure)
          case Some(t') => Ok(Applied(t', None))
  }

  // ---- EVENT_NODE_DELETED ----

  /** The accepted exports that go to the trash with their master. */
  predicate CascadeEdge(e: Edge, k: Key) {
    e.active && (k.rel == FinalExport || e.resolver == "immich_export") && Accepted(e)
  }

  /** Does the export's own location let it be moved? (None: the move is attempted and fails.) */
  function ExportMoves(w: World, row: Node): Option<bool> {
    if w.guard.None? || row.path == "" then Some(true)
    else
      match w.guard.value(row.path)
      case None => Some(false)
      case Some(loc) =>
        if loc.readOnly || loc.isVirtual || loc.tier3 then Some(false)
        else if w.movable(row.path) then Some(true)
        else None
  }

  function CascadeCandidates(t: Tables, n: NodeId): set<NodeId> {
    set k | k in t.edges && k.source == n && CascadeEdge(t.edges[k], k)
            && k.target in t.nodes && t.nodes[k.target].lifecycle != Trashed && t.nodes[k.target].lifecycle != Missing
          :: k.target
  }

  /** Mark a set of nodes TRASHED. */
  function Trash(t: Tables, ns: set<NodeId>): Tables {
    t.(nodes := map n | n in t.nodes :: if n in ns then t.nodes[n].(lifecycle := Trashed) else t.nodes[n])
  }

  /** TrashAssetTx with its export cascade, for a node that is not ARCHIVED. */
  function TrashAsset(t: Tables, w: World, n: NodeId): Result<Tables, EventError>
    requires n in t.nodes
  {
    var row := t.nodes[n];
    if row.lifecycle == Trashed then Ok(t)
    else if w.guard.Some? && row.path != "" && w.guard.value(row.path).None? then Err(TrashFailed)
    else if w.guard.Some? && row.path != "" && !w.guard.value(row.path).value.isVirtual
            && !w.guard.value(row.path).value.readOnly && !w.guard.value(row.path).value.tier3
            && !w.movable(row.path) then Err(TrashFailed)
    else
      var exports := CascadeCandidates(t, n);
      if exists x :: x in exports && ExportMoves(w, t.nodes[x]).None? then Err(TrashFailed)
      else Ok(Trash(t, {n} + set x | x in exports && ExportMoves(w, t.nodes[x]) == Some(true)))
  }

  function ApplyNodeDeleted(t: Tables, w: World, agent: string, p: Payload): Result<Applied, EventError>
    requires p.NodeDeleted?
  {
    if !ValidNodeUUID(p.uuid) then Err(InvalidNodeUUID)
    else
      match LookupNodeByUUID(t, agent, p.uuid)
      case None => Err(NodeNotFound)
      case Some((n, aliased)) =>
        if aliased then Ok(Applied(t, None))
        else if !Owns(t, agent, n) then Err(NotNodeOwner)
        else if t.nodes[n].lifecycle == Archived then Ok(Applied(t, None))
        else
          var t' :- TrashAsset(t, w, n);
          Ok(Applied(t', None))
  }

  // ---- EVENT_PATH_REBASED ----

  function ApplyPathRebased(t: Tables, w: World, agent: string, p: Payload): Result<Applied, EventError>
    requires Indexed(t) && p.PathRebased?
  {
    var found := LookupNodeByUUID(t, agent, p.uuid);
    if !ValidNodeUUID(p.uuid) then Err(InvalidNodeUUID)
    else if p.path == "" then Err(MalformedPayload)
    else if found.Some? && found.value.1 then Ok(Applied(t, None))
    else if w.guard.None? then Err(GuardNotConfigured)
    else
      var _ :- ResolveRebaseTarget(w, w.guard.value, p.path);
      var fileName := OrElse(p.fileName, w.baseName(p.path));
      var mtime := if p.mtime == 0 then w.now else p.mtime;
      if found.Some? then RebaseKnown(t, agent, found.value.0, p, fileName, mtime)
      else RebaseUnknown(t, agent, p, fileName, mtime)
  }

  function RebaseKnown(t: Tables, agent: string, n: NodeId, p: Payload, fileName: string,
                       mtime: int): Result<Applied, EventError>
    requires p.PathRebased? && n in t.nodes
  {
    var row, h := t.nodes[n], NonEmpty(p.fullHash);
    if row.lifecycle == Archived then Err(ArchivedNode)
    else if row.lifecycle == Trashed then Err(TrashedNode)
    else if !Owns(t, agent, n) then Err(NotNodeOwner)
    else
      var setHash :- if h.Some? then FullHashUpdate(row.fullHash, h.value) else Ok(false);
      match RebaseNodePath(t, n, p.path, fileName, mtime)
      case None => Err(ConstraintFailure)
      case Some(moved) =>
        if setHash then
          var full := moved.nodes[n].(fullHash := h, indexedFull := true);
          if Collides(moved.nodes, n, full) then Err(ConstraintFailure)
          else Ok(Applied(moved.(nodes := moved.nodes[n := full],
                                 provenance := RecordFullHashSource(moved.provenance, n, h, Agent)), None))
        else if NonEmpty(row.fullHash).Some? then
          Ok(Applied(moved.(nodes := moved.nodes[n := moved.nodes[n].(indexedFull := true)]), None))
        else Ok(Applied(moved, None))
  }

  /** The device is the source of truth for an offline staged file: create the node. */
  function RebaseUnknown(t: Tables, agent: string, p: Payload, fileName: string,
                         mtime: int): Result<Applied, EventError>
    requires Indexed(t) && p.PathRebased?
  {
    var h := NonEmpty(p.fullHash);
    if h.Some? && GetMediaNodeByFullHash(t, h.value).Some? then
      Ok(Applied(RecordContentAlias(t, p.uuid, GetMediaNodeByFullHash(t, h.value).value, agent), None))
    else
      match InsertDeviceNode(t, agent, p.uuid, Node(p.path, fileName, mtime, h, h.Some?, Unlinked, Active))
      case Some(t') => Ok(Applied(t', Some(p.uuid)))
      case None => Err(ConstraintFailure)
  }

  // ---- EVENT_VIRTUAL_NODE_CREATED ----

  function IndexOf(s: string, c: char): (i: nat)
    ensures i <= |s| && (i < |s| ==> s[i] == c) && forall j :: 0 <= j < i ==> s[j] != c
  {
    if s == "" || s[0] == c then 0 else 1 + IndexOf(s[1..], c)
  }

  /** The <agent> segment of "<root>/<agent>/...", or None for the legacy unscoped form. */
  function ExtractPathAgentSegment(path: string, root: string): Option<string> {
    var prefix := root + "/";
    if !(prefix <= path) then None
    else
      var rest := path[|prefix|..];
      var slash := IndexOf(rest, '/');
      if slash == |rest| || slash == 0 then None else Some(rest[..slash])
  }

  function ApplyVirtualNodeCreated(t: Tables, w: World, agent: string, p: Payload): Result<Applied, EventError>
    requires Indexed(t) && p.VirtualNodeCreated?
  {
    if !ValidNodeUUID(p.uuid) then Err(InvalidNodeUUID)
    else if p.path == "" then Err(MalformedPayload)
    else if p.uuid in t.nodes then Ok(Applied(t, None))
    else if w.guard.None? then Err(GuardNotConfigured)
    else
      match w.guard.value(p.path)
      case None => Err(MalformedPayload)
      case Some(loc) =>
        if !loc.isVirtual then Err(PathNotVirtual)
        else
          var row := Node(p.path, OrElse(p.displayName, w.baseName(p.path)), 0, None, false, Unlinked, Active);
          match InsertMediaNode(t, p.uuid, row)
          case Some(t') => Ok(Applied(t'.(creators := SetNodeCreator(t'.creators, p.uuid, agent)), Some(p.uuid)))
          case None =>
            match GetMediaNodeByFilePath(t, p.path)
            case None => Err(ConstraintFailure)
            case Some(existing) =>
              var segment := ExtractPathAgentSegment(p.path, loc.rootPath);
              if segment == None || segment == Some(agent) then Ok(Applied(t, Some(existing)))
              else Err(CrossAgentCollision)
  }

  function ApplyEvent(t: Tables, w: World, ev: Event): Result<Applied, EventError>
    requires Indexed(t)
  {
    match ev.payload
    case NodeCreated(_, _, _, _, _) => ApplyNodeCreated(t, w, ev.agent, ev.payload)
    case EdgeAttached(_, _, _, _, _, _, _, _, _, _) => ApplyEdgeAttached(t, ev.agent, ev.payload)
    case NodeMoved(_, _, _, _) => ApplyNodeMoved(t, w, ev.agent, ev.payload)
    case NodeDeleted(_) => ApplyNodeDeleted(t, w, ev.agent, ev.payload)
    case PathRebased(_, _, _, _, _) => ApplyPathRebased(t, w, ev.agent, ev.payload)
    case VirtualNodeCreated(_, _, _) => ApplyVirtualNodeCreated(t, w, ev.agent, ev.payload)
    case Undecodable => Err(MalformedPayload)
    case UnknownType => Err(UnknownEventType)
  }
}
