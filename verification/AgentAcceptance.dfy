/**
  When an agent event is accepted, when it has to wait, and when it never will be -- stated
  over the tables, the guard and the files alone.
 */
module AgentAcceptance {
  import opened Wrappers
  import opened Reachability
  import opened Store
  import opened Engine
  import opened AgentEvents
  import opened AgentRules

  // ---- Places ----

  /** The guard is configured and knows the path. */
  predicate Located(w: World, path: string) {
    w.guard.Some? && w.guard.value(path).Some?
  }

  /** Where a device may put one of its nodes: a writable place outside Tier 3, or a Tier 3
      place at which the file already is. */
  predicate MayPlace(w: World, path: string) {
    && Located(w, path)
    && var loc := w.guard.value(path).value;
    (!loc.readOnly && !loc.tier3) || (loc.tier3 && w.present(path) == Some(true))
  }

  /** A Tier 3 place whose bytes are not there yet. */
  predicate AwaitsFile(w: World, path: string) {
    Located(w, path) && w.guard.value(path).value.tier3 && w.present(path) == Some(false)
  }

  /** Another node that is neither archived nor trashed holds the path. */
  ghost predicate PathTaken(t: Tables, path: string, n: NodeId) {
    exists j :: j in t.nodes && j != n && t.nodes[j].lifecycle in {Active, Missing, Hidden} && t.nodes[j].path == path
  }

  /** Another live node has this content. */
  ghost predicate ContentTaken(t: Tables, h: string, n: NodeId) {
    exists j :: j in t.nodes && j != n && t.nodes[j].lifecycle in {Active, Hidden} && t.nodes[j].fullHash == Some(h)
  }

  /** Some live node has this content. */
  ghost predicate ContentKnown(t: Tables, h: string) {
    exists j :: j in t.nodes && t.nodes[j].lifecycle in {Active, Hidden} && t.nodes[j].fullHash == Some(h)
  }

  lemma CollidesIff(t: Tables, n: NodeId, row: Node)
    ensures Collides(t.nodes, n, row) <==>
              || (row.lifecycle in {Active, Missing, Hidden} && PathTaken(t, row.path, n))
              || (row.lifecycle in {Active, Hidden} && row.fullHash.Some? && ContentTaken(t, row.fullHash.value, n))
  {
    if PathTaken(t, row.path, n) && row.lifecycle in {Active, Missing, Hidden} {
      var j :| j in t.nodes && j != n && t.nodes[j].lifecycle in {Active, Missing, Hidden}
        && t.nodes[j].path == row.path;
      assert Clash(row, t.nodes[j]);
    }
    if row.fullHash.Some? && ContentTaken(t, row.fullHash.value, n) && row.lifecycle in {Active, Hidden} {
      var j :| j in t.nodes && j != n && t.nodes[j].lifecycle in {Active, Hidden}
        && t.nodes[j].fullHash == row.fullHash;
      assert Clash(row, t.nodes[j]);
    }
  }

  lemma KnownContent(t: Tables, h: string)
    requires Indexed(t)
    ensures GetMediaNodeByFullHash(t, h).Some? <==> ContentKnown(t, h)
  {
    hide NoClashes;
  }

  // ---- Nodes ----

  /** The device created the node, and it is neither archived nor trashed. */
  predicate Holds(t: Tables, agent: string, n: NodeId) {
    && n in t.nodes && t.nodes[n].lifecycle !in {Archived, Trashed}
    && agent != "" && n in t.creators && t.creators[n] == agent
  }

  /** The UUID names a node, or is this device's alias of one. */
  predicate Named(t: Tables, agent: string, uuid: string) {
    uuid in t.nodes || AliasNamed(t, agent, uuid)
  }

  predicate AliasNamed(t: Tables, agent: string, uuid: string) {
    && uuid !in t.nodes && uuid in t.aliases
    && t.aliases[uuid].agent == agent && t.aliases[uuid].canonical in t.nodes
  }

  predicate HashFits(h: Option<string>) {
    h.Some? && h.value != "" ==> ValidFullHash(h.value)
  }

  /** Five groups of hexadecimal digits, of either case. */
  lemma UuidIff(s: string)
    ensures ValidNodeUUID(s) <==>
              && |s| == 36 && s[8] == s[13] == s[18] == s[23] == '-'
              && forall c :: c in s[..8] + s[9..13] + s[14..18] + s[19..23] + s[24..] ==> c in "0123456789abcdefABCDEF"
  {
    if |s| == 36 {
      var digits := s[..8] + s[9..13] + s[14..18] + s[19..23] + s[24..];
      assert forall i :: 0 <= i < 36 && i !in {8, 13, 18, 23} ==> s[i] in digits;
      assert forall c :: c in digits ==> exists i :: 0 <= i < 36 && i !in {8, 13, 18, 23} && s[i] == c;
      forall c: char ensures HexDigit(c) <==> c in "0123456789abcdefABCDEF" {
        HexDigits(c);
      }
    }
  }

  lemma HexDigits(c: char)
    ensures HexDigit(c) <==> c in "0123456789abcdefABCDEF"
    ensures '0' <= c <= '9' || 'a' <= c <= 'f' <==> c in "0123456789abcdef"
  {
    if HexDigit(c) {
      var i := if c <= '9' then c as int - '0' as int
               else if c <= 'F' then 16 + (c as int - 'A' as int) else 10 + (c as int - 'a' as int);
      assert "0123456789abcdefABCDEF"[i] == c;
      if !('A' <= c <= 'F') {
        assert "0123456789abcdef"[i] == c;
      }
    }
  }

  /** 64 lower-case hexadecimal digits. */
  lemma FullHashIff(s: string)
    ensures ValidFullHash(s) <==> |s| == 64 && forall c :: c in s ==> c in "0123456789abcdef"
  {
    forall i | 0 <= i < |s|
      ensures s[i] in s && ('0' <= s[i] <= '9' || 'a' <= s[i] <= 'f' <==> s[i] in "0123456789abcdef")
    {
      HexDigits(s[i]);
    }
  }

  // ---- Creations ----

  ghost predicate CreationKnown(t: Tables, agent: string, p: Payload)
    requires p.NodeCreated?
  {
    Named(t, agent, p.uuid) || (p.fullHash.Some? && p.fullHash.value != "" && ContentKnown(t, p.fullHash.value))
  }

  ghost predicate CreationAcceptable(t: Tables, w: World, agent: string, p: Payload)
    requires p.NodeCreated?
  {
    && ValidNodeUUID(p.uuid) && p.path != "" && HashFits(p.fullHash)
    && (CreationKnown(t, agent, p) || (Located(w, p.path) && !PathTaken(t, p.path, p.uuid)))
  }

  ghost predicate CreationWaits(t: Tables, w: World, agent: string, p: Payload)
    requires p.NodeCreated?
  {
    && ValidNodeUUID(p.uuid) && p.path != "" && HashFits(p.fullHash)
    && !CreationKnown(t, agent, p) && w.guard.None?
  }

  lemma CreationIff(t: Tables, w: World, agent: string, p: Payload)
    requires Sound(t) && p.NodeCreated?
    ensures var r := ApplyNodeCreated(t, w, agent, p);
            && (r.Ok? <==> CreationAcceptable(t, w, agent, p))
            && (r.Err? && !Fatal(r.error) <==> CreationWaits(t, w, agent, p))
  {
    hide NoClashes, StatusesMatch, EndpointsKnown, ValidNodeUUID, ValidFullHash, RecordFullHashSource, Collides,
         PathTaken, ContentTaken, ContentKnown;
    var h := NonEmpty(p.fullHash);
    if h.Some? {
      KnownContent(t, h.value);
      TakenIsKnown(t, h.value, p.uuid);
    }
    var row := Node(p.path, OrElse(p.fileName, w.baseName(p.path)), if p.mtime == 0 then w.now else p.mtime, h, h.Some?,
                    Unlinked, Active);
    CollidesIff(t, p.uuid, row);
    HashFitsLength(p.fullHash);
  }

  lemma TakenIsKnown(t: Tables, h: string, n: NodeId)
    ensures ContentTaken(t, h, n) ==> ContentKnown(t, h)
  {
  }

  lemma HashFitsLength(h: Option<string>)
    ensures HashFits(h) && NonEmpty(h).Some? ==> |h.value| == 64
  {
  }

  // ---- Edges ----

  predicate EdgeWellFormed(p: Payload)
    requires p.EdgeAttached?
  {
    && p.sourceId == 0 && p.targetId == 0 && ValidNodeUUID(p.sourceUuid) && ValidNodeUUID(p.targetUuid)
    && ParseRelationship(p.relationship).Some? && p.reviewState !in {"CONFIRMED", "REJECTED"}
    && 50 <= p.confidence <= 100
  }

  predicate EndsNamed(t: Tables, agent: string, p: Payload)
    requires p.EdgeAttached?
  {
    Named(t, agent, p.sourceUuid) && Named(t, agent, p.targetUuid)
  }

  /** The node a device means. */
  function Meant(t: Tables, agent: string, uuid: string): NodeId
    requires Named(t, agent, uuid)
  {
    if uuid in t.nodes then uuid else t.aliases[uuid].canonical
  }

  predicate EdgeAcceptable(t: Tables, agent: string, p: Payload)
    requires p.EdgeAttached?
  {
    && EdgeWellFormed(p) && EndsNamed(t, agent, p)
    && !WouldCreateCycle(t, Meant(t, agent, p.sourceUuid), Meant(t, agent, p.targetUuid))
  }

  lemma EmptyIsNoUUID()
    ensures !ValidNodeUUID("")
  {
  }

  /** Accepted exactly when it is well formed, both ends are known and it closes no cycle; no
      constraint is left to fail. It waits exactly while an end is not known yet. */
  lemma EdgeIff(t: Tables, agent: string, p: Payload)
    requires Sound(t) && p.EdgeAttached?
    ensures var r := ApplyEdgeAttached(t, agent, p);
            && (r.Ok? <==> EdgeAcceptable(t, agent, p))
            && (r == Err(NodeNotFound) <==> EdgeWellFormed(p) && !EndsNamed(t, agent, p))
            && (r == Err(ClosesCycle) <==> EdgeWellFormed(p) && EndsNamed(t, agent, p) && !EdgeAcceptable(t, agent, p))
            && (r.Err? && !Fatal(r.error) <==> EdgeWellFormed(p) && !EndsNamed(t, agent, p))
  {
    hide NoClashes, StatusesMatch, EndpointsKnown, StatusOf, ValidNodeUUID, ParseRelationship;
    EmptyIsNoUUID();
    var s, c := LookupNodeByUUID(t, agent, p.sourceUuid), LookupNodeByUUID(t, agent, p.targetUuid);
    if s.Some? && c.Some? {
      ReachesSelf(ActiveRelation(t.edges), c.value.0);
      DescendantsExact(ActiveRelation(t.edges), c.value.0, c.value.0);
    }
  }

  // ---- Moves ----

  ghost predicate MoveAcceptable(t: Tables, w: World, agent: string, p: Payload)
    requires p.NodeMoved?
  {
    && ValidNodeUUID(p.uuid) && p.path != ""
    && (AliasNamed(t, agent, p.uuid)
        || (Holds(t, agent, p.uuid) && MayPlace(w, p.path) && Fits(t, p.uuid, p.path, t.nodes[p.uuid].fullHash)))
  }

  /** Node n can stand at the path with this content. */
  ghost predicate Fits(t: Tables, n: NodeId, path: string, h: Option<string>) {
    !PathTaken(t, path, n) && (h.Some? ==> !ContentTaken(t, h.value, n))
  }

  ghost predicate MoveWaits(t: Tables, w: World, agent: string, p: Payload)
    requires p.NodeMoved?
  {
    && ValidNodeUUID(p.uuid) && p.path != ""
    && (!Named(t, agent, p.uuid) || (Holds(t, agent, p.uuid) && (w.guard.None? || AwaitsFile(w, p.path))))
  }

  lemma MoveIff(t: Tables, w: World, agent: string, p: Payload)
    requires Sound(t) && p.NodeMoved?
    ensures var r := ApplyNodeMoved(t, w, agent, p);
            && (r.Ok? <==> MoveAcceptable(t, w, agent, p))
            && (r.Err? && !Fatal(r.error) <==> MoveWaits(t, w, agent, p))
            && (r == Err(FileNotYetPresent) <==>
                  && ValidNodeUUID(p.uuid) && p.path != "" && Holds(t, agent, p.uuid) && AwaitsFile(w, p.path))
            && (r == Err(ReadOnlyRebase) <==>
                  && ValidNodeUUID(p.uuid) && p.path != "" && Holds(t, agent, p.uuid) && Located(w, p.path)
                  && w.guard.value(p.path).value.readOnly && !w.guard.value(p.path).value.tier3)
  {
    hide NoClashes, StatusesMatch, EndpointsKnown, ValidNodeUUID, Collides, PathTaken, ContentTaken;
    if p.uuid in t.nodes {
      var mtime := if p.mtime == 0 then t.nodes[p.uuid].mtime else p.mtime;
      CollidesIff(t, p.uuid, t.nodes[p.uuid].(path := p.path, fileName := OrElse(p.fileName, w.baseName(p.path)),
                                              mtime := mtime, lifecycle := Active));
    }
  }

  // ---- Deletes ----

  /** A file in a writable place that the trash should take and cannot. */
  predicate Stuck(w: World, path: string) {
    && Located(w, path)
    && var loc := w.guard.value(path).value;
    !loc.isVirtual && !loc.readOnly && !loc.tier3 && !w.movable(path)
  }

  /** k makes x an export that goes to the trash with n: an active, accepted FINAL_EXPORT edge, or
      one the Immich export wrote, to a node that is neither trashed nor missing. */
  predicate ExportEdge(t: Tables, n: NodeId, k: Key, x: NodeId) {
    && k in t.edges && k.source == n && k.target == x && t.edges[k].active
    && (k.rel == FinalExport || t.edges[k].resolver == "immich_export")
    && (t.edges[k].review == AutoAccepted || t.edges[k].review == Confirmed)
    && x in t.nodes && t.nodes[x].lifecycle != Trashed && t.nodes[x].lifecycle != Missing
  }

  ghost predicate ExportOf(t: Tables, n: NodeId, x: NodeId) {
    exists k :: ExportEdge(t, n, k, x)
  }

  /** The trash takes the export: nothing is known of its place, or it can be moved from there. */
  predicate Takeable(w: World, path: string) {
    w.guard.None? || path == "" || (
      && Located(w, path)
      && var loc := w.guard.value(path).value;
      !loc.readOnly && !loc.isVirtual && !loc.tier3 && w.movable(path))
  }

  lemma CascadeIff(t: Tables, n: NodeId, x: NodeId)
    ensures x in CascadeCandidates(t, n) <==> ExportOf(t, n, x)
  {
    if x in CascadeCandidates(t, n) {
      var k :| k in t.edges && k.source == n && CascadeEdge(t.edges[k], k) && k.target == x;
      assert ExportEdge(t, n, k, x);
    }
    if ExportOf(t, n, x) {
      var k :| ExportEdge(t, n, k, x);
      assert CascadeEdge(t.edges[k], k);
    }
  }

  lemma ExportMovesIff(w: World, row: Node)
    ensures ExportMoves(w, row) == Some(true) <==> Takeable(w, row.path)
    ensures ExportMoves(w, row).None? <==> row.path != "" && Stuck(w, row.path)
  {
  }

  /** The node's own place is unknown, or it or one of its exports is stuck. */
  ghost predicate TrashFails(t: Tables, w: World, n: NodeId)
    requires n in t.nodes
  {
    || (w.guard.Some? && t.nodes[n].path != "" && (!Located(w, t.nodes[n].path) || Stuck(w, t.nodes[n].path)))
    || exists x :: x in t.nodes && ExportOf(t, n, x) && t.nodes[x].path != "" && Stuck(w, t.nodes[x].path)
  }

  ghost predicate DeleteAcceptable(t: Tables, w: World, agent: string, p: Payload)
    requires p.NodeDeleted?
  {
    && ValidNodeUUID(p.uuid)
    && (AliasNamed(t, agent, p.uuid)
        || (Owned(t, agent, p.uuid)
            && (t.nodes[p.uuid].lifecycle in {Archived, Trashed} || !TrashFails(t, w, p.uuid))))
  }

  predicate Owned(t: Tables, agent: string, n: NodeId) {
    n in t.nodes && agent != "" && n in t.creators && t.creators[n] == agent
  }

  ghost predicate DeleteWaits(t: Tables, w: World, agent: string, p: Payload)
    requires p.NodeDeleted?
  {
    ValidNodeUUID(p.uuid) && (!Named(t, agent, p.uuid) || (Holds(t, agent, p.uuid) && TrashFails(t, w, p.uuid)))
  }

  lemma TrashIff(t: Tables, w: World, n: NodeId)
    requires n in t.nodes && t.nodes[n].lifecycle !in {Archived, Trashed}
    ensures TrashAsset(t, w, n) == Err(TrashFailed) <==> TrashFails(t, w, n)
    ensures TrashAsset(t, w, n).Err? ==> TrashAsset(t, w, n) == Err(TrashFailed)
  {
    hide CascadeCandidates, ExportMoves, ExportOf;
    forall x ensures x in CascadeCandidates(t, n) <==> ExportOf(t, n, x) {
      CascadeIff(t, n, x);
    }
    forall x | x in t.nodes
      ensures ExportMoves(w, t.nodes[x]).None? <==> t.nodes[x].path != "" && Stuck(w, t.nodes[x].path)
    {
      ExportMovesIff(w, t.nodes[x]);
    }
    ExportsAreStored(t, n);
  }

  lemma ExportsAreStored(t: Tables, n: NodeId)
    ensures CascadeCandidates(t, n) <= t.nodes.Keys
  {
  }

  lemma DeleteIff(t: Tables, w: World, agent: string, p: Payload)
    requires Sound(t) && p.NodeDeleted?
    ensures var r := ApplyNodeDeleted(t, w, agent, p);
            && (r.Ok? <==> DeleteAcceptable(t, w, agent, p))
            && (r.Err? && !Fatal(r.error) <==> DeleteWaits(t, w, agent, p))
  {
    hide NoClashes, StatusesMatch, EndpointsKnown, ValidNodeUUID, TrashFails, CascadeCandidates, ExportMoves;
    if p.uuid in t.nodes && t.nodes[p.uuid].lifecycle !in {Archived, Trashed} {
      TrashIff(t, w, p.uuid);
    }
  }

  // ---- Rebases ----

  /** A node the device created takes the hash: none given, the one it has, or its first. */
  predicate HashSettable(row: Node, h: Option<string>) {
    h.Some? && h.value != "" ==>
      ValidFullHash(h.value) && (row.fullHash == h || row.fullHash.None? || row.fullHash == Some(""))
  }

  function HashAfter(row: Node, h: Option<string>): Option<string> {
    if h.Some? && h.value != "" then h else row.fullHash
  }

  ghost predicate RebaseAcceptable(t: Tables, w: World, agent: string, p: Payload)
    requires p.PathRebased?
  {
    && ValidNodeUUID(p.uuid) && p.path != ""
    && (AliasNamed(t, agent, p.uuid) || (MayPlace(w, p.path) &&
          if p.uuid in t.nodes
          then && Holds(t, agent, p.uuid) && HashSettable(t.nodes[p.uuid], p.fullHash)
               && Fits(t, p.uuid, p.path, HashAfter(t.nodes[p.uuid], p.fullHash))
          else || (p.fullHash.Some? && p.fullHash.value != "" && ContentKnown(t, p.fullHash.value))
               || ((p.fullHash.Some? && p.fullHash.value != "" ==> |p.fullHash.value| == 64)
                   && !PathTaken(t, p.path, p.uuid))))
  }

  ghost predicate RebaseWaits(t: Tables, w: World, agent: string, p: Payload)
    requires p.PathRebased?
  {
    && ValidNodeUUID(p.uuid) && p.path != "" && !AliasNamed(t, agent, p.uuid)
    && (w.guard.None? || AwaitsFile(w, p.path))
  }

  lemma RebaseKnownIff(t: Tables, agent: string, n: NodeId, p: Payload, fileName: string, mtime: int)
    requires Sound(t) && p.PathRebased? && n in t.nodes
    ensures var r := RebaseKnown(t, agent, n, p, fileName, mtime);
            && (r.Ok? <==> && Holds(t, agent, n) && HashSettable(t.nodes[n], p.fullHash)
                           && Fits(t, n, p.path, HashAfter(t.nodes[n], p.fullHash)))
            && (r.Err? ==> Fatal(r.error) && r.error !in {ReadOnlyRebase, FileNotYetPresent})
  {
    hide NoClashes, StatusesMatch, EndpointsKnown, ValidFullHash, RecordFullHashSource, PathTaken, ContentTaken,
         Collides;
    NoClashAt(t, n);
    var row := t.nodes[n].(path := p.path, fileName := fileName, mtime := mtime, lifecycle := Active);
    var full := row.(fullHash := NonEmpty(p.fullHash), indexedFull := true);
    CollidesIff(t, n, row);
    CollidesIff(t, n, full);
    CollidesIff(t.(nodes := t.nodes[n := row]), n, full);
    OthersAreTheSame(t, t.(nodes := t.nodes[n := row]), n, p.path, NonEmpty(p.fullHash));
  }

  lemma OthersAreTheSame(t: Tables, t': Tables, n: NodeId, path: string, h: Option<string>)
    requires forall j :: j != n ==> (j in t.nodes <==> j in t'.nodes) && (j in t.nodes ==> t'.nodes[j] == t.nodes[j])
    ensures PathTaken(t', path, n) <==> PathTaken(t, path, n)
    ensures h.Some? ==> (ContentTaken(t', h.value, n) <==> ContentTaken(t, h.value, n))
  {
  }

  lemma RebaseUnknownIff(t: Tables, agent: string, p: Payload, fileName: string, mtime: int)
    requires Sound(t) && p.PathRebased? && p.uuid !in t.nodes
    ensures var r, h := RebaseUnknown(t, agent, p, fileName, mtime), p.fullHash;
            && (r.Ok? <==>
                  || (h.Some? && h.value != "" && ContentKnown(t, h.value))
                  || ((h.Some? && h.value != "" ==> |h.value| == 64) && !PathTaken(t, p.path, p.uuid)))
            && (r.Err? ==> Fatal(r.error) && r.error !in {ReadOnlyRebase, FileNotYetPresent})
  {
    hide NoClashes, StatusesMatch, EndpointsKnown, RecordFullHashSource, PathTaken, ContentTaken, ContentKnown,
         Collides;
    var h := NonEmpty(p.fullHash);
    if h.Some? {
      KnownContent(t, h.value);
      TakenIsKnown(t, h.value, p.uuid);
    }
    CollidesIff(t, p.uuid, Node(p.path, fileName, mtime, h, h.Some?, Unlinked, Active));
  }

  lemma RebaseIff(t: Tables, w: World, agent: string, p: Payload)
    requires Sound(t) && p.PathRebased?
    ensures var r := ApplyPathRebased(t, w, agent, p);
            && (r.Ok? <==> RebaseAcceptable(t, w, agent, p))
            && (r.Err? && !Fatal(r.error) <==> RebaseWaits(t, w, agent, p))
            && (r == Err(FileNotYetPresent) <==>
                  ValidNodeUUID(p.uuid) && p.path != "" && !AliasNamed(t, agent, p.uuid) && AwaitsFile(w, p.path))
            && (r == Err(ReadOnlyRebase) <==>
                  && ValidNodeUUID(p.uuid) && p.path != "" && !AliasNamed(t, agent, p.uuid) && Located(w, p.path)
                  && w.guard.value(p.path).value.readOnly && !w.guard.value(p.path).value.tier3)
  {
    hide NoClashes, StatusesMatch, EndpointsKnown, ValidNodeUUID, PathTaken, ContentKnown, HashSettable, Fits,
         RebaseKnown, RebaseUnknown;
    var fileName, mtime := OrElse(p.fileName, w.baseName(p.path)), if p.mtime == 0 then w.now else p.mtime;
    if p.uuid in t.nodes {
      RebaseKnownIff(t, agent, p.uuid, p, fileName, mtime);
    } else {
      RebaseUnknownIff(t, agent, p, fileName, mtime);
    }
  }

  // ---- Virtual nodes ----

  /** "<root>/<segment>/" opens the path, and the segment is another device's. */
  ghost predicate SomebodyElses(path: string, root: string, agent: string) {
    exists segment :: segment != "" && '/' !in segment && root + "/" + segment + "/" <= path && segment != agent
  }

  ghost predicate VirtualAcceptable(t: Tables, w: World, agent: string, p: Payload)
    requires p.VirtualNodeCreated?
  {
    && ValidNodeUUID(p.uuid) && p.path != ""
    && (p.uuid in t.nodes || (
          && Located(w, p.path) && w.guard.value(p.path).value.isVirtual
          && (PathTaken(t, p.path, p.uuid) ==> !SomebodyElses(p.path, w.guard.value(p.path).value.rootPath, agent))))
  }

  ghost predicate VirtualWaits(t: Tables, w: World, p: Payload)
    requires p.VirtualNodeCreated?
  {
    ValidNodeUUID(p.uuid) && p.path != "" && p.uuid !in t.nodes && w.guard.None?
  }

  /** The agent segment of a virtual path: what stands between "<root>/" and the next slash. */
  lemma SegmentExact(path: string, root: string, segment: string)
    ensures ExtractPathAgentSegment(path, root) == Some(segment) <==>
              segment != "" && '/' !in segment && root + "/" + segment + "/" <= path
  {
    var prefix := root + "/";
    assert (prefix + segment + "/")[..|prefix|] == prefix;
    if prefix <= path {
      var rest := path[|prefix|..];
      assert path == prefix + rest;
      var slash := IndexOf(rest, '/');
      if segment != "" && '/' !in segment && prefix + segment + "/" <= path {
        assert forall i :: 0 <= i <= |segment| ==>
              rest[i] == path[|prefix| + i] == (prefix + segment + "/")[|prefix| + i];
        assert rest[..|segment|] == segment && rest[|segment|] == '/';
        assert forall i :: 0 <= i < |segment| ==> rest[i] == segment[i];
        assert slash == |segment|;
      }
      if ExtractPathAgentSegment(path, root) == Some(segment) {
        assert prefix + segment + "/" == path[..|prefix| + slash + 1];
      }
    }
  }

  lemma SegmentAllows(path: string, root: string, agent: string)
    ensures ExtractPathAgentSegment(path, root) in {None, Some(agent)} <==> !SomebodyElses(path, root, agent)
  {
    hide ExtractPathAgentSegment;
    var found := ExtractPathAgentSegment(path, root);
    if found.Some? {
      SegmentExact(path, root, found.value);
    }
    if SomebodyElses(path, root, agent) {
      var segment :| segment != "" && '/' !in segment && root + "/" + segment + "/" <= path && segment != agent;
      SegmentExact(path, root, segment);
    }
  }

  lemma VirtualIff(t: Tables, w: World, agent: string, p: Payload)
    requires Sound(t) && p.VirtualNodeCreated?
    ensures var r := ApplyVirtualNodeCreated(t, w, agent, p);
            && (r.Ok? <==> VirtualAcceptable(t, w, agent, p))
            && (r.Err? && !Fatal(r.error) <==> VirtualWaits(t, w, p))
  {
    hide NoClashes, StatusesMatch, EndpointsKnown, ValidNodeUUID, Collides, ExtractPathAgentSegment, SomebodyElses;
    CollidesIff(t, p.uuid, Node(p.path, OrElse(p.displayName, w.baseName(p.path)), 0, None, false, Unlinked, Active));
    if Located(w, p.path) {
      SegmentAllows(p.path, w.guard.value(p.path).value.rootPath, agent);
    }
  }

  // ---- Every kind ----

  ghost predicate Acceptable(t: Tables, w: World, ev: Event) {
    match ev.payload
    case NodeCreated(_, _, _, _, _) => CreationAcceptable(t, w, ev.agent, ev.payload)
    case EdgeAttached(_, _, _, _, _, _, _, _, _, _) => EdgeAcceptable(t, ev.agent, ev.payload)
    case NodeMoved(_, _, _, _) => MoveAcceptable(t, w, ev.agent, ev.payload)
    case NodeDeleted(_) => DeleteAcceptable(t, w, ev.agent, ev.payload)
    case PathRebased(_, _, _, _, _) => RebaseAcceptable(t, w, ev.agent, ev.payload)
    case VirtualNodeCreated(_, _, _) => VirtualAcceptable(t, w, ev.agent, ev.payload)
    case Undecodable => false
    case UnknownType => false
  }

  /** What is missing may still come: the other node, the file, the guard, or room to move. */
  ghost predicate Waits(t: Tables, w: World, ev: Event) {
    match ev.payload
    case NodeCreated(_, _, _, _, _) => CreationWaits(t, w, ev.agent, ev.payload)
    case EdgeAttached(_, _, _, _, _, _, _, _, _, _) =>
      EdgeWellFormed(ev.payload) && !EndsNamed(t, ev.agent, ev.payload)
    case NodeMoved(_, _, _, _) => MoveWaits(t, w, ev.agent, ev.payload)
    case NodeDeleted(_) => DeleteWaits(t, w, ev.agent, ev.payload)
    case PathRebased(_, _, _, _, _) => RebaseWaits(t, w, ev.agent, ev.payload)
    case VirtualNodeCreated(_, _, _) => VirtualWaits(t, w, ev.payload)
    case Undecodable => false
    case UnknownType => false
  }

  /** Every event is accepted, waits, or is refused for good -- and which of the three can be
      read off the tables, the guard and the files. */
  lemma EventDecided(t: Tables, w: World, ev: Event)
    requires Sound(t)
    ensures ApplyEvent(t, w, ev).Ok? <==> Acceptable(t, w, ev)
    ensures ApplyEvent(t, w, ev).Err? && !Fatal(ApplyEvent(t, w, ev).error) <==> Waits(t, w, ev)
  {
    hide NoClashes, StatusesMatch, EndpointsKnown, ApplyNodeCreated, ApplyEdgeAttached, ApplyNodeMoved,
         ApplyNodeDeleted, ApplyPathRebased, ApplyVirtualNodeCreated, CreationAcceptable, CreationWaits,
         EdgeAcceptable, EdgeWellFormed, EndsNamed, MoveAcceptable, MoveWaits, DeleteAcceptable, DeleteWaits,
         RebaseAcceptable, RebaseWaits, VirtualAcceptable, VirtualWaits;
    match ev.payload {
      case NodeCreated(_, _, _, _, _) => CreationIff(t, w, ev.agent, ev.payload);
      case EdgeAttached(_, _, _, _, _, _, _, _, _, _) => EdgeIff(t, ev.agent, ev.payload);
      case NodeMoved(_, _, _, _) => MoveIff(t, w, ev.agent, ev.payload);
      case NodeDeleted(_) => DeleteIff(t, w, ev.agent, ev.payload);
      case PathRebased(_, _, _, _, _) => RebaseIff(t, w, ev.agent, ev.payload);
      case VirtualNodeCreated(_, _, _) => VirtualIff(t, w, ev.agent, ev.payload);
      case Undecodable =>
      case UnknownType =>
    }
  }
}
