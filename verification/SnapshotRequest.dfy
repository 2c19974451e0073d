/**
  The Resolve snapshot endpoint around the reconcile: validate the whole body, then in one
  transaction register its timelines, reconcile every timeline of the scope and retire the
  timelines of a superseded scope.
 */
module SnapshotRequest {
  import opened Wrappers
  import opened Reachability
  import opened Store
  import opened Snapshot

  datatype TimelineIn = TimelineIn(timelineId: string, nodeUuid: string, filePath: string, displayName: string,
                                   evidenceIsJson: bool)

  /** An empty sourceNodeUuid is a member the agent could not resolve. */
  datatype MembershipIn = MembershipIn(timelineId: string, mediaFilePath: string, sourceNodeUuid: string,
                                       evidence: Evidence)

  datatype Body = Body(agentId: string, scopeId: string, timelines: seq<TimelineIn>, memberships: seq<MembershipIn>,
                       legacyUuids: seq<string>, retireScopeId: string)

  /** What the endpoint is given: who calls, the storage guard (None: not configured), UUID
      parsing, which virtual nodes an agent's processed events named, and the order in which
      the scope query happens to return its rows. */
  datatype Context = Context(
    principal: string,
    guard: Option<string -> Option<Location>>,
    parseUuid: string -> Option<NodeId>,
    createdVirtual: set<(string, NodeId)>,
    listing: set<NodeId> -> seq<NodeId>)

  const MAX_ENTRIES := 10_000

  // ---- Validation ----

  /** "timeline \0 path", the text both duplicate checks use. */
  function JointKey(timelineId: string, path: string): string {
    timelineId + "\0" + path
  }

  predicate LowerHex(c: char) {
    '0' <= c <= '9' || 'a' <= c <= 'f'
  }

  predicate ValidScopeId(id: string) {
    |id| == 64 && forall i :: 0 <= i < |id| ==> LowerHex(id[i])
  }

  predicate Resolved(m: MembershipIn) {
    m.sourceNodeUuid != ""
  }

  predicate ResolvedOk(ctx: Context, m: MembershipIn) {
    && ctx.parseUuid(m.sourceNodeUuid).Some?
    && m.evidence.Decode().Some?
    && m.evidence.Decode().value.mediaFilePath == m.mediaFilePath
    && m.evidence.Decode().value.timelineId == m.timelineId
  }

  predicate MembershipOk(ctx: Context, ids: set<string>, m: MembershipIn) {
    m.timelineId in ids && m.mediaFilePath != "" && (Resolved(m) ==> ResolvedOk(ctx, m))
  }

  function Canonical(ctx: Context, m: MembershipIn): Membership
    requires ResolvedOk(ctx, m)
  {
    Membership(m.timelineId, m.mediaFilePath, ctx.parseUuid(m.sourceNodeUuid).value, m.evidence)
  }

  /** The resolved members of a timeline, and the paths of its unresolved ones. */
  function ResolvedMembers(ctx: Context, ms: seq<MembershipIn>, timelineId: string): set<Membership> {
    set i | 0 <= i < |ms| && ms[i].timelineId == timelineId && Resolved(ms[i]) && ResolvedOk(ctx, ms[i])
      :: Canonical(ctx, ms[i])
  }

  function UnresolvedPaths(ms: seq<MembershipIn>, timelineId: string): set<string> {
    set i | 0 <= i < |ms| && ms[i].timelineId == timelineId && !Resolved(ms[i]) :: ms[i].mediaFilePath
  }

  function CountUnresolved(ms: seq<MembershipIn>): nat {
    |set i | 0 <= i < |ms| && !Resolved(ms[i])|
  }

  /** No path named twice and no source named twice for one timeline. */
  ghost predicate NoDuplicates(ctx: Context, ms: seq<MembershipIn>) {
    forall i, j :: 0 <= i < j < |ms| ==>
      && JointKey(ms[i].timelineId, ms[i].mediaFilePath) != JointKey(ms[j].timelineId, ms[j].mediaFilePath)
      && (Resolved(ms[i]) && Resolved(ms[j]) && ms[i].timelineId == ms[j].timelineId ==>
            ctx.parseUuid(ms[i].sourceNodeUuid) != ctx.parseUuid(ms[j].sourceNodeUuid))
  }

  datatype Plan = Plan(desired: map<string, map<string, Membership>>, protectedPaths: map<string, set<string>>,
                       unresolved: nat)

  function DesiredFor(desired: map<string, map<string, Membership>>, timelineId: string): set<Membership> {
    if timelineId in desired then desired[timelineId].Values else {}
  }

  function ProtectedFor(protectedPaths: map<string, set<string>>, timelineId: string): set<string> {
    if timelineId in protectedPaths then protectedPaths[timelineId] else {}
  }

  function SeenResolved(desired: map<string, map<string, Membership>>): set<string> {
    set tl, path | tl in desired && path in desired[tl] :: JointKey(tl, path)
  }

  // The maps of the validation loop, seen as what they hold.

  /** The members of the prefix `ms`, filed under their timeline and path. */
  ghost predicate Filed(ctx: Context, ms: seq<MembershipIn>, desired: map<string, map<string, Membership>>) {
    && (forall i :: 0 <= i < |ms| && Resolved(ms[i]) ==>
          ResolvedOk(ctx, ms[i]) && ms[i].timelineId in desired && ms[i].mediaFilePath in desired[ms[i].timelineId]
          && desired[ms[i].timelineId][ms[i].mediaFilePath] == Canonical(ctx, ms[i]))
    && (forall tl, path :: tl in desired && path in desired[tl] ==>
          exists i :: 0 <= i < |ms| && Resolved(ms[i]) && ms[i].timelineId == tl && ms[i].mediaFilePath == path)
  }

  lemma FiledIsResolved(ctx: Context, ms: seq<MembershipIn>, desired: map<string, map<string, Membership>>,
                        timelineId: string)
    requires Filed(ctx, ms, desired)
    ensures DesiredFor(desired, timelineId) == ResolvedMembers(ctx, ms, timelineId)
  {
    forall m | m in DesiredFor(desired, timelineId) ensures m in ResolvedMembers(ctx, ms, timelineId) {
      var path :| path in desired[timelineId] && desired[timelineId][path] == m;
      var i :| 0 <= i < |ms| && Resolved(ms[i]) && ms[i].timelineId == timelineId && ms[i].mediaFilePath == path;
    }
    forall m | m in ResolvedMembers(ctx, ms, timelineId) ensures m in DesiredFor(desired, timelineId) {
      var i :| 0 <= i < |ms| && ms[i].timelineId == timelineId && Resolved(ms[i]) && ResolvedOk(ctx, ms[i])
        && Canonical(ctx, ms[i]) == m;
      assert desired[timelineId][ms[i].mediaFilePath] == m;
    }
  }

  lemma ResolvedAreDistinct(ctx: Context, ms: seq<MembershipIn>, timelineId: string)
    requires NoDuplicates(ctx, ms)
    ensures DistinctSources(ResolvedMembers(ctx, ms, timelineId))
  {
  }

  function ResolvedKeys(ms: seq<MembershipIn>): set<string> {
    set i | 0 <= i < |ms| && Resolved(ms[i]) :: JointKey(ms[i].timelineId, ms[i].mediaFilePath)
  }

  lemma ResolvedKeysExtend(ms: seq<MembershipIn>, m: MembershipIn)
    ensures ResolvedKeys(ms + [m]) == ResolvedKeys(ms)
      + if Resolved(m) then {JointKey(m.timelineId, m.mediaFilePath)} else {}
    ensures CountUnresolved(ms + [m]) == CountUnresolved(ms) + if Resolved(m) then 0 else 1
  {
    var all := ms + [m];
    assert all[|ms|] == m && forall i :: 0 <= i < |ms| ==> all[i] == ms[i];
    forall s | s in ResolvedKeys(ms) ensures s in ResolvedKeys(all) {
      var i :| 0 <= i < |ms| && Resolved(ms[i]) && JointKey(ms[i].timelineId, ms[i].mediaFilePath) == s;
      assert Resolved(all[i]);
    }
    assert (set i | 0 <= i < |all| && !Resolved(all[i]))
        == (set i | 0 <= i < |ms| && !Resolved(ms[i])) + if Resolved(m) then {} else {|ms|};
  }

  lemma {:induction false} ResolvedKeysCount(ctx: Context, ms: seq<MembershipIn>)
    requires NoDuplicates(ctx, ms)
    ensures |ResolvedKeys(ms)| + CountUnresolved(ms) == |ms|
    decreases |ms|
  {
    if ms == [] {
      assert ResolvedKeys(ms) == {} && CountUnresolved(ms) == 0;
    } else {
      var n := |ms| - 1;
      assert ms == ms[..n] + [ms[n]];
      ResolvedKeysCount(ctx, ms[..n]);
      ResolvedKeysExtend(ms[..n], ms[n]);
      assert JointKey(ms[n].timelineId, ms[n].mediaFilePath) !in ResolvedKeys(ms[..n]);
    }
  }

  /** len(memberships) - len(seenResolved(desired)) is the number of unresolved members. */
  lemma UnresolvedIsCounted(ctx: Context, ms: seq<MembershipIn>, desired: map<string, map<string, Membership>>)
    requires NoDuplicates(ctx, ms) && Filed(ctx, ms, desired)
    ensures |SeenResolved(desired)| <= |ms| && |ms| - |SeenResolved(desired)| == CountUnresolved(ms)
  {
    ResolvedKeysCount(ctx, ms);
    assert SeenResolved(desired) == ResolvedKeys(ms);
  }

  ghost predicate AllOk(ctx: Context, ids: set<string>, ms: seq<MembershipIn>) {
    forall i :: 0 <= i < |ms| ==> MembershipOk(ctx, ids, ms[i])
  }

  function FileMember(desired: map<string, map<string, Membership>>,
                      m: Membership): map<string, map<string, Membership>> {
    desired[m.timelineId := (if m.timelineId in desired then desired[m.timelineId] else map[])[m.mediaFilePath := m]]
  }

  function FilePath(protectedPaths: map<string, set<string>>, m: MembershipIn): map<string, set<string>> {
    protectedPaths[m.timelineId := ProtectedFor(protectedPaths, m.timelineId) + {m.mediaFilePath}]
  }

  lemma FiledExtends(ctx: Context, ms: seq<MembershipIn>, m: MembershipIn,
                     desired: map<string, map<string, Membership>>)
    requires Filed(ctx, ms, desired) && NoDuplicates(ctx, ms + [m])
    requires Resolved(m) && ResolvedOk(ctx, m)
    ensures Filed(ctx, ms + [m], FileMember(desired, Canonical(ctx, m)))
  {
    var all, filed := ms + [m], FileMember(desired, Canonical(ctx, m));
    forall i | 0 <= i < |all| && Resolved(all[i])
      ensures ResolvedOk(ctx, all[i]) && all[i].timelineId in filed && all[i].mediaFilePath in filed[all[i].timelineId]
      ensures filed[all[i].timelineId][all[i].mediaFilePath] == Canonical(ctx, all[i])
    {
      if i < |ms| {
        assert all[i] == ms[i];
        assert JointKey(all[i].timelineId, all[i].mediaFilePath)
            != JointKey(all[|ms|].timelineId, all[|ms|].mediaFilePath);
      }
    }
    forall tl, path | tl in filed && path in filed[tl]
      ensures exists i :: 0 <= i < |all| && Resolved(all[i]) && all[i].timelineId == tl && all[i].mediaFilePath == path
    {
      if tl == m.timelineId && path == m.mediaFilePath {
        assert all[|ms|] == m;
      } else {
        var i :| 0 <= i < |ms| && Resolved(ms[i]) && ms[i].timelineId == tl && ms[i].mediaFilePath == path;
        assert all[i] == ms[i];
      }
    }
  }

  lemma FiledSkips(ctx: Context, ms: seq<MembershipIn>, m: MembershipIn, desired: map<string, map<string, Membership>>)
    requires Filed(ctx, ms, desired) && !Resolved(m)
    ensures Filed(ctx, ms + [m], desired)
  {
    var all := ms + [m];
    forall tl, path | tl in desired && path in desired[tl]
      ensures exists i :: 0 <= i < |all| && Resolved(all[i]) && all[i].timelineId == tl && all[i].mediaFilePath == path
    {
      var i :| 0 <= i < |ms| && Resolved(ms[i]) && ms[i].timelineId == tl && ms[i].mediaFilePath == path;
      assert all[i] == ms[i];
    }
  }

  ghost predicate Shields(ms: seq<MembershipIn>, protectedPaths: map<string, set<string>>) {
    forall tl :: ProtectedFor(protectedPaths, tl) == UnresolvedPaths(ms, tl)
  }

  lemma ShieldsExtends(ms: seq<MembershipIn>, m: MembershipIn, protectedPaths: map<string, set<string>>)
    requires Shields(ms, protectedPaths)
    ensures Shields(ms + [m], if Resolved(m) then protectedPaths
                              else FilePath(protectedPaths, m))
  {
    var all := ms + [m];
    forall tl
      ensures UnresolvedPaths(all, tl) == UnresolvedPaths(ms, tl)
        + if !Resolved(m) && m.timelineId == tl then {m.mediaFilePath} else {}
    {
      assert all[|ms|] == m;
      forall p | p in UnresolvedPaths(ms, tl) ensures p in UnresolvedPaths(all, tl) {
        var i :| 0 <= i < |ms| && ms[i].timelineId == tl && !Resolved(ms[i]) && ms[i].mediaFilePath == p;
        assert all[i] == ms[i];
      }
    }
  }

  /** The sources recorded so far, per timeline. */
  ghost predicate Recorded(ctx: Context, ms: seq<MembershipIn>, sources: set<(string, NodeId)>) {
    sources == set i | 0 <= i < |ms| && Resolved(ms[i]) && ctx.parseUuid(ms[i].sourceNodeUuid).Some?
                    :: (ms[i].timelineId, ctx.parseUuid(ms[i].sourceNodeUuid).value)
  }

  ghost predicate SeenKeys(ms: seq<MembershipIn>, seen: set<string>) {
    seen == set i | 0 <= i < |ms| :: JointKey(ms[i].timelineId, ms[i].mediaFilePath)
  }

  lemma NoDuplicatesExtends(ctx: Context, ms: seq<MembershipIn>, m: MembershipIn, seen: set<string>,
                            sources: set<(string, NodeId)>)
    requires NoDuplicates(ctx, ms) && SeenKeys(ms, seen) && Recorded(ctx, ms, sources)
    requires Resolved(m) ==> ctx.parseUuid(m.sourceNodeUuid).Some?
    ensures NoDuplicates(ctx, ms + [m]) <==>
            JointKey(m.timelineId, m.mediaFilePath) !in seen
            && (Resolved(m) ==> (m.timelineId, ctx.parseUuid(m.sourceNodeUuid).value) !in sources)
    ensures SeenKeys(ms + [m], seen + {JointKey(m.timelineId, m.mediaFilePath)})
    ensures Recorded(ctx, ms + [m],
                     if Resolved(m) then sources + {(m.timelineId, ctx.parseUuid(m.sourceNodeUuid).value)} else sources)
  {
    var all := ms + [m];
    assert all[|ms|] == m && forall i :: 0 <= i < |ms| ==> all[i] == ms[i];
  }

  /** The state of the membership loop after the prefix `ms`. */
  ghost predicate Validated(ctx: Context, ids: set<string>, ms: seq<MembershipIn>, seen: set<string>,
                            sources: set<(string, NodeId)>,
                            desired: map<string, map<string, Membership>>, protectedPaths: map<string, set<string>>) {
    && AllOk(ctx, ids, ms) && NoDuplicates(ctx, ms)
    && SeenKeys(ms, seen) && Recorded(ctx, ms, sources)
    && Filed(ctx, ms, desired) && Shields(ms, protectedPaths)
  }

  /** One more member, accepted exactly when it is well formed and new. */
  lemma ValidatedExtends(ctx: Context, ids: set<string>, ms: seq<MembershipIn>, m: MembershipIn, seen: set<string>,
                         sources: set<(string, NodeId)>, desired: map<string, map<string, Membership>>,
                         protectedPaths: map<string, set<string>>)
    requires Validated(ctx, ids, ms, seen, sources, desired, protectedPaths)
    requires MembershipOk(ctx, ids, m) && JointKey(m.timelineId, m.mediaFilePath) !in seen
    requires Resolved(m) ==> (m.timelineId, ctx.parseUuid(m.sourceNodeUuid).value) !in sources
    ensures var seen' := seen + {JointKey(m.timelineId, m.mediaFilePath)};
            if Resolved(m)
            then Validated(ctx, ids, ms + [m], seen', sources + {(m.timelineId, ctx.parseUuid(m.sourceNodeUuid).value)},
                           FileMember(desired, Canonical(ctx, m)), protectedPaths)
            else Validated(ctx, ids, ms + [m], seen', sources, desired, FilePath(protectedPaths, m))
  {
    NoDuplicatesExtends(ctx, ms, m, seen, sources);
    ShieldsExtends(ms, m, protectedPaths);
    if Resolved(m) {
      FiledExtends(ctx, ms, m, desired);
    } else {
      FiledSkips(ctx, ms, m, desired);
    }
  }

  /** A refused member spoils the whole list. */
  lemma RefusedMemberSpoils(ctx: Context, ids: set<string>, ms: seq<MembershipIn>, i: nat, seen: set<string>,
                            sources: set<(string, NodeId)>)
    requires i < |ms| && NoDuplicates(ctx, ms[..i]) && SeenKeys(ms[..i], seen) && Recorded(ctx, ms[..i], sources)
    requires || !MembershipOk(ctx, ids, ms[i])
             || JointKey(ms[i].timelineId, ms[i].mediaFilePath) in seen
             || (Resolved(ms[i]) && (ms[i].timelineId, ctx.parseUuid(ms[i].sourceNodeUuid).value) in sources)
    ensures !(AllOk(ctx, ids, ms) && NoDuplicates(ctx, ms))
  {
    if MembershipOk(ctx, ids, ms[i]) {
      NoDuplicatesExtends(ctx, ms[..i], ms[i], seen, sources);
      assert ms[..i + 1] == ms[..i] + [ms[i]];
      PrefixHasNoDuplicates(ctx, ms, i + 1);
    }
  }

  lemma PrefixHasNoDuplicates(ctx: Context, ms: seq<MembershipIn>, n: nat)
    requires n <= |ms|
    ensures NoDuplicates(ctx, ms) ==> NoDuplicates(ctx, ms[..n])
  {
  }

  /** The maps hold exactly the resolved members and the paths of the unresolved ones. */
  ghost predicate PlanExact(ctx: Context, ms: seq<MembershipIn>, plan: Plan) {
    && plan.unresolved == CountUnresolved(ms)
    && forall tl :: && DesiredFor(plan.desired, tl) == ResolvedMembers(ctx, ms, tl)
                    && DistinctSources(DesiredFor(plan.desired, tl))
                    && ProtectedFor(plan.protectedPaths, tl) == UnresolvedPaths(ms, tl)
  }

  lemma ValidatedIsExact(ctx: Context, ids: set<string>, ms: seq<MembershipIn>, seen: set<string>,
                         sources: set<(string, NodeId)>,
                         desired: map<string, map<string, Membership>>, protectedPaths: map<string, set<string>>)
    requires Validated(ctx, ids, ms, seen, sources, desired, protectedPaths)
    ensures |SeenResolved(desired)| <= |ms|
    ensures PlanExact(ctx, ms, Plan(desired, protectedPaths, |ms| - |SeenResolved(desired)|))
  {
    UnresolvedIsCounted(ctx, ms, desired);
    forall tl
      ensures DesiredFor(desired, tl) == ResolvedMembers(ctx, ms, tl) && DistinctSources(DesiredFor(desired, tl))
    {
      FiledIsResolved(ctx, ms, desired, tl);
      ResolvedAreDistinct(ctx, ms, tl);
    }
  }

  lemma NothingValidated(ctx: Context, ids: set<string>)
    ensures Validated(ctx, ids, [], {}, {}, map[], map[])
  {
  }

  /** The membership loop: every member well formed and none named twice, or the whole
      request is refused. */
  method ValidateMemberships(ctx: Context, ids: set<string>,
                             ms: seq<MembershipIn>) returns (r: Result<Plan, SnapshotError>)
    ensures r.Ok? <==> AllOk(ctx, ids, ms) && NoDuplicates(ctx, ms)
    ensures r.Err? ==> r.error == BadRequest
    ensures r.Ok? ==> PlanExact(ctx, ms, r.value)
  {
    hide JointKey, SeenKeys, Recorded, Filed, Shields, FileMember, Canonical, PlanExact, SeenResolved;
    var desired: map<string, map<string, Membership>> := map[];
    var protectedPaths: map<string, set<string>> := map[];
    NothingValidated(ctx, ids);
    var seen: set<string>, sources: set<(string, NodeId)> := {}, {};
    for i := 0 to |ms|
      invariant Validated(ctx, ids, ms[..i], seen, sources, desired, protectedPaths)
    {
      var m := ms[i];
      var key := JointKey(m.timelineId, m.mediaFilePath);
      if !MembershipOk(ctx, ids, m) || key in seen
         || (Resolved(m) && (m.timelineId, ctx.parseUuid(m.sourceNodeUuid).value) in sources) {
        RefusedMemberSpoils(ctx, ids, ms, i, seen, sources);
        return Err(BadRequest);
      }
      ValidatedExtends(ctx, ids, ms[..i], m, seen, sources, desired, protectedPaths);
      assert ms[..i + 1] == ms[..i] + [m];
      seen := seen + {key};
      if !Resolved(m) {
        protectedPaths := FilePath(protectedPaths, m);
        continue;
      }
      sources := sources + {(m.timelineId, ctx.parseUuid(m.sourceNodeUuid).value)};
      desired := FileMember(desired, Canonical(ctx, m));
    }
    assert ms[..|ms|] == ms;
    ValidatedIsExact(ctx, ids, ms, seen, sources, desired, protectedPaths);
    return Ok(Plan(desired, protectedPaths, |ms| - |SeenResolved(desired)|));
  }

  // ---- Timelines ----

  predicate TimelineOk(ctx: Context, guard: string -> Option<Location>, tl: TimelineIn) {
    && tl.timelineId != "" && tl.displayName != "" && tl.filePath != "" && tl.evidenceIsJson
    && ctx.parseUuid(tl.nodeUuid).Some?
    && guard(tl.filePath).Some? && guard(tl.filePath).value.isVirtual
  }

  /** Every timeline is well formed and virtual, and no id or node is named twice. */
  ghost predicate TimelinesOk(ctx: Context, guard: string -> Option<Location>, tls: seq<TimelineIn>) {
    && (forall i :: 0 <= i < |tls| ==> TimelineOk(ctx, guard, tls[i]))
    && (forall i, j :: 0 <= i < j < |tls| ==>
          tls[i].timelineId != tls[j].timelineId && ctx.parseUuid(tls[i].nodeUuid) != ctx.parseUuid(tls[j].nodeUuid))
  }

  method ValidateTimelines(ctx: Context, guard: string -> Option<Location>, tls: seq<TimelineIn>)
    returns (r: Result<set<string>, SnapshotError>)
    ensures r.Ok? <==> TimelinesOk(ctx, guard, tls)
    ensures r.Err? ==> r.error == BadRequest || r.error == OutsideStorage
    ensures r.Ok? ==> r.value == set i | 0 <= i < |tls| :: tls[i].timelineId
  {
    var ids: set<string>, nodes: set<NodeId> := {}, {};
    for i := 0 to |tls|
      invariant TimelinesOk(ctx, guard, tls[..i])
      invariant ids == set j | 0 <= j < i :: tls[j].timelineId
      invariant nodes == set j | 0 <= j < i && ctx.parseUuid(tls[j].nodeUuid).Some?
                           :: ctx.parseUuid(tls[j].nodeUuid).value
    {
      var tl := tls[i];
      if tl.timelineId == "" || tl.displayName == "" || tl.filePath == "" || !tl.evidenceIsJson {
        return Err(BadRequest);
      }
      var parsed := ctx.parseUuid(tl.nodeUuid);
      if parsed.None? || tl.timelineId in ids || parsed.value in nodes {
        return Err(BadRequest);
      }
      var loc := guard(tl.filePath);
      if loc.None? || !loc.value.isVirtual {
        return Err(OutsideStorage);
      }
      ids, nodes := ids + {tl.timelineId}, nodes + {parsed.value};
    }
    return Ok(ids);
  }

  // ---- The transaction ----

  /** The tables being written, and the timelines of this request by node. */
  datatype Tx = Tx(tables: Tables, targets: map<NodeId, string>)

  function TimelineNode(tl: TimelineIn): Node {
    Node(tl.filePath, tl.displayName, 0, None, false, Unlinked, Active)
  }

  /** Find or insert the timeline's node, check that the agent may claim it, register it. */
  function RegisterTimeline(ctx: Context, guard: string -> Option<Location>, body: Body, tx: Tx,
                            tl: TimelineIn): Result<Tx, SnapshotError> {
    var t, n := tx.tables, tl.nodeUuid;
    var inserted := n !in t.nodes;
    if inserted && (guard(tl.filePath).None? || !guard(tl.filePath).value.isVirtual) then Err(Conflict)
    else if inserted && InsertMediaNode(t, n, TimelineNode(tl)).None? then Err(Internal)
    else
      var t1 := if inserted then InsertMediaNode(t, n, TimelineNode(tl)).value else t;
      if t1.nodes[n].path != tl.filePath then Err(Conflict)
      else if (body.agentId, body.scopeId, n) !in t1.scopes && !inserted
          && (body.agentId, n) !in ctx.createdVirtual then Err(Conflict)
      else
        Ok(Tx(t1.(scopes := t1.scopes + {(body.agentId, body.scopeId, n)},
                  nodes := t1.nodes[n := t1.nodes[n].(fileName := tl.displayName)]),
              tx.targets[n := tl.timelineId]))
  }

  /** A timeline the agent knew before scopes existed. */
  function RegisterLegacy(ctx: Context, body: Body, tx: Tx, id: string): Result<Tx, SnapshotError> {
    if ctx.parseUuid(id).None? then Err(Conflict)
    else if id !in tx.tables.nodes then Err(Internal)
    else if id in tx.targets then Ok(tx)
    else if (body.agentId, id) !in ctx.createdVirtual then Err(Conflict)
    else Ok(tx.(tables := tx.tables.(scopes := tx.tables.scopes + {(body.agentId, body.scopeId, id)})))
  }

  function RegisterAll(ctx: Context, guard: string -> Option<Location>, body: Body, tx: Tx,
                       tls: seq<TimelineIn>): Result<Tx, SnapshotError>
    decreases |tls|
  {
    if tls == [] then Ok(tx)
    else
      var tx' :- RegisterTimeline(ctx, guard, body, tx, tls[0]);
      RegisterAll(ctx, guard, body, tx', tls[1..])
  }

  function RegisterAllLegacy(ctx: Context, body: Body, tx: Tx, ids: seq<string>): Result<Tx, SnapshotError>
    decreases |ids|
  {
    if ids == [] then Ok(tx)
    else
      var tx' :- RegisterLegacy(ctx, body, tx, ids[0]);
      RegisterAllLegacy(ctx, body, tx', ids[1..])
  }

  function ScopeRows(t: Tables, agent: string, scope: string): set<NodeId> {
    set row | row in t.scopes && row.0 == agent && row.1 == scope :: row.2
  }

  /** One reconcile call. */
  datatype Job = Job(target: NodeId, timelineId: string, members: set<Membership>, protectedPaths: set<string>)

  function JobOf(ctx: Context, ms: seq<MembershipIn>, targets: map<NodeId, string>, id: NodeId): Job {
    var tl := if id in targets then targets[id] else "";
    Job(id, tl, ResolvedMembers(ctx, ms, tl), UnresolvedPaths(ms, tl))
  }

  /** The timelines of the scope, in the order the query returned them. */
  function ScopeJobs(ctx: Context, ms: seq<MembershipIn>, targets: map<NodeId, string>, ids: seq<NodeId>): seq<Job> {
    seq(|ids|, i requires 0 <= i < |ids| => JobOf(ctx, ms, targets, ids[i]))
  }

  /** The superseded scope's other timelines, emptied. */
  function RetireJobs(targets: map<NodeId, string>, ids: seq<NodeId>): seq<Job> {
    if ids == [] then []
    else (if ids[0] in targets then [] else [Job(ids[0], "", {}, {})]) + RetireJobs(targets, ids[1..])
  }

  function RetiredJobs(ctx: Context, body: Body, tx: Tx): seq<Job> {
    if body.retireScopeId != "" && body.retireScopeId != body.scopeId
    then RetireJobs(tx.targets, ctx.listing(ScopeRows(tx.tables, body.agentId, body.retireScopeId)))
    else []
  }

  function Jobs(ctx: Context, body: Body, tx: Tx): seq<Job> {
    ScopeJobs(ctx, body.memberships, tx.targets, ctx.listing(ScopeRows(tx.tables, body.agentId, body.scopeId)))
    + RetiredJobs(ctx, body, tx)
  }

  ghost predicate JobRefused(t: Tables, j: Job, sources: map<NodeId, Lifecycle>) {
    Refused(t, j.target, j.timelineId, j.members, j.protectedPaths, sources)
  }

  ghost function RunJob(t: Tables, j: Job): Tables {
    Reconciled(t, j.target, j.timelineId, j.members, j.protectedPaths)
  }

  function JobStats(stats: Stats, t: Tables, j: Job): Stats {
    StatsAfter(stats, t.edges, j.target, j.timelineId, Sources(j.members), j.protectedPaths, j.members,
               ListResolveEdges(t.edges, j.target))
  }

  /** All reconcile calls in turn; None as soon as one is refused. */
  ghost function RunJobs(t: Tables, stats: Stats, jobs: seq<Job>, sources: map<NodeId,
                         Lifecycle>): Option<(Tables, Stats)>
    decreases |jobs|
  {
    if jobs == [] then Some((t, stats))
    else if JobRefused(t, jobs[0], sources) then None
    else RunJobs(RunJob(t, jobs[0]), JobStats(stats, t, jobs[0]), jobs[1..], sources)
  }

  /** batchResolveSourceNodes: the lifecycle of every node some member names, read before
      anything is written. */
  function SourceRows(t: Tables, ctx: Context, ms: seq<MembershipIn>): map<NodeId, Lifecycle> {
    map i | 0 <= i < |ms| && Resolved(ms[i]) && ctx.parseUuid(ms[i].sourceNodeUuid).Some?
            && ctx.parseUuid(ms[i].sourceNodeUuid).value in t.nodes
          :: ctx.parseUuid(ms[i].sourceNodeUuid).value := t.nodes[ctx.parseUuid(ms[i].sourceNodeUuid).value].lifecycle
  }

  predicate HeaderOk(ctx: Context, body: Body) {
    && body.agentId == ctx.principal
    && ValidScopeId(body.scopeId) && (body.retireScopeId != "" ==> ValidScopeId(body.retireScopeId))
    && |body.memberships| <= MAX_ENTRIES && |body.timelines| <= MAX_ENTRIES && |body.legacyUuids| <= MAX_ENTRIES
    && ctx.guard.Some?
  }

  ghost predicate BodyOk(ctx: Context, body: Body) {
    && HeaderOk(ctx, body)
    && TimelinesOk(ctx, ctx.guard.value, body.timelines)
    && AllOk(ctx, set i | 0 <= i < |body.timelines| :: body.timelines[i].timelineId, body.memberships)
    && NoDuplicates(ctx, body.memberships)
  }

  function Registered(t: Tables, ctx: Context, body: Body): Result<Tx, SnapshotError>
    requires ctx.guard.Some?
  {
    var tx :- RegisterAll(ctx, ctx.guard.value, body, Tx(t, map[]), body.timelines);
    RegisterAllLegacy(ctx, body, tx, body.legacyUuids)
  }

  /** The whole request on the tables it finds: None when it is refused and rolled back. */
  ghost function SnapshotTx(t: Tables, ctx: Context, body: Body): Option<(Tables, Stats)> {
    if !BodyOk(ctx, body) then None
    else
      match Registered(t, ctx, body)
      case Err(_) => None
      case Ok(tx) =>
        RunJobs(tx.tables, Stats(0, 0, 0, 0, CountUnresolved(body.memberships), 0), Jobs(ctx, body, tx),
                SourceRows(t, ctx, body.memberships))
  }

  lemma RegisterFrom(ctx: Context, guard: string -> Option<Location>, body: Body, tx: Tx, tls: seq<TimelineIn>, i: nat)
    requires i < |tls|
    ensures RegisterAll(ctx, guard, body, tx, tls[i..]) ==
            match RegisterTimeline(ctx, guard, body, tx, tls[i])
            case Ok(tx') => RegisterAll(ctx, guard, body, tx', tls[i + 1..])
            case Err(e) => Err(e)
  {
    assert tls[i..][0] == tls[i] && tls[i..][1..] == tls[i + 1..];
  }

  lemma RegisterLegacyFrom(ctx: Context, body: Body, tx: Tx, ids: seq<string>, i: nat)
    requires i < |ids|
    ensures RegisterAllLegacy(ctx, body, tx, ids[i..]) ==
            match RegisterLegacy(ctx, body, tx, ids[i])
            case Ok(tx') => RegisterAllLegacy(ctx, body, tx', ids[i + 1..])
            case Err(e) => Err(e)
  {
    assert ids[i..][0] == ids[i] && ids[i..][1..] == ids[i + 1..];
  }

  lemma RunFrom(t: Tables, stats: Stats, jobs: seq<Job>, sources: map<NodeId, Lifecycle>, i: nat)
    requires i < |jobs|
    ensures RunJobs(t, stats, jobs[i..], sources) ==
            if JobRefused(t, jobs[i], sources) then None
            else RunJobs(RunJob(t, jobs[i]), JobStats(stats, t, jobs[i]), jobs[i + 1..], sources)
  {
    assert jobs[i..][0] == jobs[i] && jobs[i..][1..] == jobs[i + 1..];
  }

  /** The two registration loops. */
  method Register(db: Database, ctx: Context, body: Body) returns (r: Result<map<NodeId, string>, SnapshotError>)
    requires ctx.guard.Some?
    modifies db
    ensures r.Err? ==> r.error == Conflict || r.error == Internal
    ensures match Registered(old(db.tables), ctx, body)
            case Ok(tx) => db.tables == tx.tables && r == Ok(tx.targets)
            case Err(e) => r == Err(e)
  {
    var guard := ctx.guard.value;
    var targets: map<NodeId, string> := map[];
    ghost var start := Tx(db.tables, map[]);
    assert body.timelines[0..] == body.timelines && body.legacyUuids[0..] == body.legacyUuids;
    for i := 0 to |body.timelines|
      invariant RegisterAll(ctx, guard, body, start, body.timelines)
             == RegisterAll(ctx, guard, body, Tx(db.tables, targets), body.timelines[i..])
    {
      RegisterFrom(ctx, guard, body, Tx(db.tables, targets), body.timelines, i);
      var one := RegisterTimeline(ctx, guard, body, Tx(db.tables, targets), body.timelines[i]);
      if one.Err? {
        return Err(one.error);
      }
      db.tables, targets := one.value.tables, one.value.targets;
    }
    ghost var claimed := Tx(db.tables, targets);
    for i := 0 to |body.legacyUuids|
      invariant RegisterAllLegacy(ctx, body, claimed, body.legacyUuids)
             == RegisterAllLegacy(ctx, body, Tx(db.tables, targets), body.legacyUuids[i..])
    {
      RegisterLegacyFrom(ctx, body, Tx(db.tables, targets), body.legacyUuids, i);
      var one := RegisterLegacy(ctx, body, Tx(db.tables, targets), body.legacyUuids[i]);
      if one.Err? {
        return Err(one.error);
      }
      db.tables, targets := one.value.tables, one.value.targets;
    }
    return Ok(targets);
  }

  lemma {:induction false} RunAppend(t: Tables, stats: Stats, first: seq<Job>, second: seq<Job>,
                                      sources: map<NodeId, Lifecycle>)
    ensures RunJobs(t, stats, first + second, sources) ==
            match RunJobs(t, stats, first, sources)
            case None => None
            case Some(mid) => RunJobs(mid.0, mid.1, second, sources)
    decreases |first|
  {
    if first == [] {
      assert first + second == second;
    } else {
      assert (first + second)[0] == first[0] && (first + second)[1..] == first[1..] + second;
      if !JobRefused(t, first[0], sources) {
        RunAppend(RunJob(t, first[0]), JobStats(stats, t, first[0]), first[1..], second, sources);
      }
    }
  }

  method RunOne(db: Database, j: Job, sources: map<NodeId, Lifecycle>,
                stats: Stats) returns (r: Result<Stats, SnapshotError>)
    requires DistinctSources(j.members)
    modifies db
    ensures r.Err? ==> r.error == Conflict || r.error == Internal
    ensures r.Err? <==> JobRefused(old(db.tables), j, sources)
    ensures r.Ok? ==> db.tables == RunJob(old(db.tables), j) && r.value == JobStats(stats, old(db.tables), j)
    ensures r.Ok? ==> db.tables.scopes == old(db.tables.scopes)
  {
    r := ReconcileResolveTimeline(db, j.target, j.timelineId, j.members, j.protectedPaths, sources, stats);
  }

  /** The loop over the scope's timelines. */
  method ReconcileScope(db: Database, ctx: Context, ms: seq<MembershipIn>, plan: Plan, targets: map<NodeId, string>,
                        sources: map<NodeId, Lifecycle>, ids: seq<NodeId>, counted: Stats)
    returns (r: Result<Stats, SnapshotError>)
    requires PlanExact(ctx, ms, plan)
    modifies db
    ensures r.Err? ==> r.error == Conflict || r.error == Internal
    ensures match RunJobs(old(db.tables), counted, ScopeJobs(ctx, ms, targets, ids), sources)
            case Some(after) => r == Ok(after.1) && db.tables == after.0
            case None => r.Err?
    ensures r.Ok? ==> db.tables.scopes == old(db.tables.scopes)
  {
    ghost var jobs := ScopeJobs(ctx, ms, targets, ids);
    var stats := counted;
    assert jobs[0..] == jobs;
    for i := 0 to |ids|
      invariant db.tables.scopes == old(db.tables.scopes)
      invariant RunJobs(old(db.tables), counted, jobs, sources) == RunJobs(db.tables, stats, jobs[i..], sources)
    {
      RunFrom(db.tables, stats, jobs, sources, i);
      var tl := if ids[i] in targets then targets[ids[i]] else "";
      var job := Job(ids[i], tl, DesiredFor(plan.desired, tl), ProtectedFor(plan.protectedPaths, tl));
      assert jobs[i] == job;
      var one := RunOne(db, job, sources, stats);
      if one.Err? {
        return one;
      }
      stats := one.value;
    }
    return Ok(stats);
  }

  /** The loop over the superseded scope's timelines. */
  method RetireScope(db: Database, targets: map<NodeId, string>, sources: map<NodeId, Lifecycle>, ids: seq<NodeId>,
                     counted: Stats)
    returns (r: Result<Stats, SnapshotError>)
    modifies db
    ensures r.Err? ==> r.error == Conflict || r.error == Internal
    ensures match RunJobs(old(db.tables), counted, RetireJobs(targets, ids), sources)
            case Some(after) => r == Ok(after.1) && db.tables == after.0
            case None => r.Err?
  {
    var stats := counted;
    assert ids[0..] == ids;
    for i := 0 to |ids|
      invariant RunJobs(old(db.tables), counted, RetireJobs(targets, ids), sources)
             == RunJobs(db.tables, stats, RetireJobs(targets, ids[i..]), sources)
    {
      assert ids[i..][0] == ids[i] && ids[i..][1..] == ids[i + 1..];
      if ids[i] in targets {
        assert RetireJobs(targets, ids[i..]) == RetireJobs(targets, ids[i + 1..]);
        continue;
      }
      var job := Job(ids[i], "", {}, {});
      ghost var rest := RetireJobs(targets, ids[i..]);
      assert rest[0] == job && rest[1..] == RetireJobs(targets, ids[i + 1..]);
      var one := RunOne(db, job, sources, stats);
      if one.Err? {
        return one;
      }
      stats := one.value;
    }
    return Ok(stats);
  }

  // ---- What an accepted request keeps ----

  /** Registration writes nodes and scopes only. */
  lemma RegisterTimelineKeeps(ctx: Context, guard: string -> Option<Location>, body: Body, tx: Tx, tl: TimelineIn)
    requires RegisterTimeline(ctx, guard, body, tx, tl).Ok?
    ensures var t' := RegisterTimeline(ctx, guard, body, tx, tl).value.tables;
            && t'.edges == tx.tables.edges
            && (Referential(tx.tables) ==> Referential(t'))
            && (Referential(tx.tables) && StatusDerived(tx.tables) ==> StatusDerived(t'))
  {
    var t, t' := tx.tables, RegisterTimeline(ctx, guard, body, tx, tl).value.tables;
    if Referential(t) && tl.nodeUuid !in t.nodes {
      assert ListEdgesByTarget(t.edges, tl.nodeUuid) == {} by {
        forall k | k in t.edges ensures k.target != tl.nodeUuid {
          assert Insertable(t, k);
        }
      }
    }
    if Referential(t) {
      assert t.nodes.Keys <= t'.nodes.Keys;
      forall k | k in t'.edges ensures Insertable(t', k) {
        assert Insertable(t, k);
      }
    }
  }

  lemma {:induction false} RegisterAllKeeps(ctx: Context, guard: string -> Option<Location>, body: Body, tx: Tx,
                                            tls: seq<TimelineIn>)
    requires RegisterAll(ctx, guard, body, tx, tls).Ok?
    ensures var t' := RegisterAll(ctx, guard, body, tx, tls).value.tables;
            && t'.edges == tx.tables.edges
            && (Referential(tx.tables) ==> Referential(t'))
            && (Referential(tx.tables) && StatusDerived(tx.tables) ==> StatusDerived(t'))
    decreases |tls|
  {
    if tls != [] {
      RegisterTimelineKeeps(ctx, guard, body, tx, tls[0]);
      RegisterAllKeeps(ctx, guard, body, RegisterTimeline(ctx, guard, body, tx, tls[0]).value, tls[1..]);
    }
  }

  lemma {:induction false} RegisterAllLegacyKeeps(ctx: Context, body: Body, tx: Tx, ids: seq<string>)
    requires RegisterAllLegacy(ctx, body, tx, ids).Ok?
    ensures var tx' := RegisterAllLegacy(ctx, body, tx, ids).value;
            tx'.targets == tx.targets && tx'.tables == tx.tables.(scopes := tx'.tables.scopes)
            && tx.tables.scopes <= tx'.tables.scopes
    decreases |ids|
  {
    if ids != [] {
      RegisterAllLegacyKeeps(ctx, body, RegisterLegacy(ctx, body, tx, ids[0]).value, ids[1..]);
    }
  }

  lemma RegisteredKeeps(t: Tables, ctx: Context, body: Body)
    requires ctx.guard.Some? && Registered(t, ctx, body).Ok?
    ensures var t' := Registered(t, ctx, body).value.tables;
            && t'.edges == t.edges
            && (Referential(t) ==> Referential(t'))
            && (Referential(t) && StatusDerived(t) ==> StatusDerived(t'))
  {
    var tx := RegisterAll(ctx, ctx.guard.value, body, Tx(t, map[]), body.timelines);
    RegisterAllKeeps(ctx, ctx.guard.value, body, Tx(t, map[]), body.timelines);
    RegisterAllLegacyKeeps(ctx, body, tx.value, body.legacyUuids);
  }

  ghost predicate JobsDistinct(jobs: seq<Job>) {
    forall i :: 0 <= i < |jobs| ==> DistinctSources(jobs[i].members)
  }

  lemma {:induction false} RunJobsKeeps(t: Tables, stats: Stats, jobs: seq<Job>, sources: map<NodeId, Lifecycle>)
    requires RunJobs(t, stats, jobs, sources).Some?
    ensures var t' := RunJobs(t, stats, jobs, sources).value.0;
            && KeepsDecisions(t.edges, t'.edges)
            && (StatusDerived(t) ==> StatusDerived(t'))
            && (Referential(t) ==> Referential(t'))
    decreases |jobs|
  {
    if jobs != [] {
      var j := jobs[0];
      ReconcileKeeps(t, j.target, j.timelineId, j.members, j.protectedPaths, sources);
      RunJobsKeeps(RunJob(t, j), JobStats(stats, t, j), jobs[1..], sources);
    }
  }

  /** An accepted snapshot request keeps every human decision, the foreign keys and the
      graph_status derivation. */
  lemma SnapshotKeeps(t: Tables, ctx: Context, body: Body)
    requires SnapshotTx(t, ctx, body).Some?
    ensures var t' := SnapshotTx(t, ctx, body).value.0;
            && KeepsDecisions(t.edges, t'.edges)
            && (Referential(t) ==> Referential(t'))
            && (Referential(t) && StatusDerived(t) ==> StatusDerived(t'))
  {
    var tx := Registered(t, ctx, body).value;
    RegisteredKeeps(t, ctx, body);
    RunJobsKeeps(tx.tables, Stats(0, 0, 0, 0, CountUnresolved(body.memberships), 0), Jobs(ctx, body, tx),
                 SourceRows(t, ctx, body.memberships));
  }

  // ---- Acyclicity of a request ----

  /** No reconcile call of the request switches a row back on whose source its timeline
      already reaches. */
  ghost predicate JobsGuarded(t: Tables, jobs: seq<Job>)
    decreases |jobs|
  {
    jobs == [] || (
      && RefreshesGuarded(t, jobs[0].target, jobs[0].members)
      && JobsGuarded(RunJob(t, jobs[0]), jobs[1..]))
  }

  /** The lineage is acyclic after every reconcile call. */
  ghost predicate AcyclicThroughout(t: Tables, jobs: seq<Job>)
    decreases |jobs|
  {
    AcyclicEdges(t) && (jobs == [] || AcyclicThroughout(RunJob(t, jobs[0]), jobs[1..]))
  }

  lemma {:induction false} JobsAcyclicIff(t: Tables, stats: Stats, jobs: seq<Job>, sources: map<NodeId, Lifecycle>)
    requires AcyclicEdges(t) && JobsDistinct(jobs) && RunJobs(t, stats, jobs, sources).Some?
    ensures AcyclicThroughout(t, jobs) <==> JobsGuarded(t, jobs)
    ensures JobsGuarded(t, jobs) ==> AcyclicEdges(RunJobs(t, stats, jobs, sources).value.0)
    decreases |jobs|
  {
    if jobs != [] {
      var j := jobs[0];
      ReconcileAcyclicIff(t, j.target, j.timelineId, j.members, j.protectedPaths, sources);
      if AcyclicEdges(RunJob(t, j)) {
        JobsAcyclicIff(RunJob(t, j), JobStats(stats, t, j), jobs[1..], sources);
      }
    }
  }

  lemma JobsAreDistinct(ctx: Context, body: Body, tx: Tx)
    requires NoDuplicates(ctx, body.memberships)
    ensures JobsDistinct(Jobs(ctx, body, tx))
  {
    var first := ScopeJobs(ctx, body.memberships, tx.targets,
                           ctx.listing(ScopeRows(tx.tables, body.agentId, body.scopeId)));
    forall i | 0 <= i < |first| ensures DistinctSources(first[i].members) {
      ResolvedAreDistinct(ctx, body.memberships, first[i].timelineId);
    }
    RetireJobsEmpty(tx.targets, ctx.listing(ScopeRows(tx.tables, body.agentId, body.retireScopeId)));
  }

  lemma RetireJobsEmpty(targets: map<NodeId, string>, ids: seq<NodeId>)
    ensures forall j :: j in RetireJobs(targets, ids) ==>
      j.timelineId == "" && j.members == {} && j.target in ids && j.target !in targets
  {
  }

  ghost predicate SnapshotGuarded(t: Tables, ctx: Context, body: Body) {
    BodyOk(ctx, body) && Registered(t, ctx, body).Ok? ==>
      var tx := Registered(t, ctx, body).value;
      JobsGuarded(tx.tables, Jobs(ctx, body, tx))
  }

  /** From an acyclic lineage, an accepted request keeps it acyclic after every reconcile
      call exactly when every call's refreshes are guarded -- and then at commit. */
  lemma SnapshotAcyclicIff(t: Tables, ctx: Context, body: Body)
    requires AcyclicEdges(t) && SnapshotTx(t, ctx, body).Some?
    ensures var tx := Registered(t, ctx, body).value;
            AcyclicThroughout(tx.tables, Jobs(ctx, body, tx)) <==> SnapshotGuarded(t, ctx, body)
    ensures SnapshotGuarded(t, ctx, body) ==> AcyclicEdges(SnapshotTx(t, ctx, body).value.0)
  {
    var tx := Registered(t, ctx, body).value;
    RegisteredKeeps(t, ctx, body);
    JobsAreDistinct(ctx, body, tx);
    JobsAcyclicIff(tx.tables, Stats(0, 0, 0, 0, CountUnresolved(body.memberships), 0), Jobs(ctx, body, tx),
                   SourceRows(t, ctx, body.memberships));
  }

  // Why the equivalence is about the states inside the transaction: a later call of the same
  // request may take apart the cycle an earlier one closed.

  /** clip -> first is switched off; first -> second and second -> clip are on. */
  predicate Triangle(t: Tables, clip: NodeId, first: NodeId, second: NodeId, evidence: Evidence) {
    && clip != first && clip != second && first != second && evidence.Decode().Some?
    && t.edges == map[
         SidecarKey(clip, first) := NewRow(evidence).(active := false),
         SidecarKey(first, second) := NewRow(evidence),
         Key(second, clip, DerivedFrom) := Edge(100, 1, "manual", evidence, Confirmed, true)]
  }

  function ClipBack(clip: NodeId, first: NodeId, evidence: Evidence): Job {
    Job(first, "one", {Membership("one", "clip", clip, evidence)}, {})
  }

  function EmptySecond(second: NodeId): Job {
    Job(second, "two", {}, {})
  }

  lemma TriangleRelation(t: Tables, clip: NodeId, first: NodeId, second: NodeId, evidence: Evidence)
    requires Triangle(t, clip, first, second, evidence)
    ensures ActiveRelation(t.edges) == {(first, second), (second, clip)}
  {
    assert SidecarKey(first, second) in t.edges && Key(second, clip, DerivedFrom) in t.edges;
  }

  lemma TriangleIsOpen(t: Tables, clip: NodeId, first: NodeId, second: NodeId, evidence: Evidence)
    requires Triangle(t, clip, first, second, evidence)
    ensures AcyclicEdges(t) && WouldCreateCycle(t, clip, first)
  {
    hide Triangle, Acyclic, Descendants, ActiveRelation, Reaches;
    var E := ActiveRelation(t.edges);
    TriangleRelation(t, clip, first, second, evidence);
    assert clip != first && clip != second && first != second by {
      TriangleCorners(t, clip, first, second, evidence);
    }
    RankedAcyclic(E, map[first := 0, second := 1, clip := 2]);
    ReachesSelf(E, clip);
    ReachesEdge(E, second, clip, clip);
    ReachesEdge(E, first, second, clip);
    DescendantsExact(E, first, clip);
  }

  lemma TriangleCorners(t: Tables, clip: NodeId, first: NodeId, second: NodeId, evidence: Evidence)
    requires Triangle(t, clip, first, second, evidence)
    ensures clip != first && clip != second && first != second
  {
  }

  lemma FirstCallAccepted(t: Tables, clip: NodeId, first: NodeId, second: NodeId, evidence: Evidence,
                          sources: map<NodeId, Lifecycle>)
    requires Triangle(t, clip, first, second, evidence) && clip in sources && sources[clip] == Active
    ensures var m := Membership("one", "clip", clip, evidence);
            !JobRefused(t, ClipBack(clip, first, evidence), sources) && Reactivates(t.edges, first, m)
    ensures Gone(t.edges, first, "one", {clip}, {}) == {}
  {
    hide WouldCreateCycle, StatusOf;
    var m := Membership("one", "clip", clip, evidence);
    assert Sources({m}) == {clip} by {
      assert m.source in Sources({m});
    }
    assert ListResolveEdges(t.edges, first) == {SidecarKey(clip, first)};
  }

  lemma FirstCallClosesCycle(t: Tables, clip: NodeId, first: NodeId, second: NodeId, evidence: Evidence,
                             sources: map<NodeId, Lifecycle>)
    requires Triangle(t, clip, first, second, evidence) && clip in sources && sources[clip] == Active
    ensures AcyclicEdges(t) && !JobRefused(t, ClipBack(clip, first, evidence), sources)
    ensures !RefreshesGuarded(t, first, ClipBack(clip, first, evidence).members)
    ensures RunJob(t, ClipBack(clip, first, evidence)).edges == t.edges[SidecarKey(clip, first) := NewRow(evidence)]
  {
    hide StatusOf, Acyclic, WouldCreateCycle, Refused, Gone, RowAfter;
    var m, k := Membership("one", "clip", clip, evidence), SidecarKey(clip, first);
    TriangleIsOpen(t, clip, first, second, evidence);
    FirstCallAccepted(t, clip, first, second, evidence, sources);
    assert Sources({m}) == {clip} by {
      assert m.source in Sources({m});
    }
    MemberRow(t, first, "one", {m}, {}, m);
    RestUntouched(t.edges, first, {m}, k);
  }

  lemma RestUntouched(rows: map<Key, Edge>, target: NodeId, members: set<Membership>, k: Key)
    requires forall m :: m in members ==> SidecarKey(m.source, target) == k
    requires k in rows && IsMemberKey(target, members, k)
    ensures RowsAfter(rows, target, members, {}) == rows[k := RowAfter(rows, target, members, {}, k)]
  {
    assert RowsAfter(rows, target, members, {}).Keys == rows.Keys;
    forall j | j in rows && j != k ensures !IsMemberKey(target, members, j) {
      forall m | m in members ensures SidecarKey(m.source, target) != j {
      }
    }
  }

  lemma SecondCallRows(t: Tables, second: NodeId, k: Key, sources: map<NodeId, Lifecycle>)
    requires k in t.edges && ListResolveEdges(t.edges, second) == {k}
    requires t.edges[k].active && t.edges[k].resolver == RESOLVE && !Locked(t.edges[k])
    requires t.edges[k].evidence.Decode().Some?
    ensures !JobRefused(t, EmptySecond(second), sources)
    ensures RunJob(t, EmptySecond(second)).edges == t.edges[k := t.edges[k].(active := false)]
  {
    hide StatusOf, WouldCreateCycle;
    assert Sources({}) == {};
    assert Gone(t.edges, second, "two", {}, {}) == {k};
  }

  lemma SecondCallOpensIt(t: Tables, clip: NodeId, first: NodeId, second: NodeId, evidence: Evidence,
                          sources: map<NodeId, Lifecycle>)
    requires clip != first && clip != second && first != second && evidence.Decode().Some?
    requires t.edges == map[
               SidecarKey(clip, first) := NewRow(evidence), SidecarKey(first, second) := NewRow(evidence),
               Key(second, clip, DerivedFrom) := Edge(100, 1, "manual", evidence, Confirmed, true)]
    ensures !JobRefused(t, EmptySecond(second), sources) && AcyclicEdges(RunJob(t, EmptySecond(second)))
  {
    hide Acyclic, RunJob, JobRefused, EmptySecond;
    var k := SidecarKey(first, second);
    SecondCallRows(t, second, k, sources);
    var F := ActiveRelation(RunJob(t, EmptySecond(second)).edges);
    assert forall e :: e in F ==> e == (clip, first) || e == (second, clip);
    RankedAcyclic(F, map[second := 0, clip := 1, first := 2]);
  }

  /** Two calls, both accepted: the first is unguarded and closes a cycle, the second opens it
      again, and the request commits an acyclic lineage. */
  lemma UnguardedMayCommitAcyclic(t: Tables, clip: NodeId, first: NodeId, second: NodeId, evidence: Evidence,
                                  stats: Stats, sources: map<NodeId, Lifecycle>)
    requires Triangle(t, clip, first, second, evidence) && clip in sources && sources[clip] == Active
    ensures var jobs := [ClipBack(clip, first, evidence), EmptySecond(second)];
            && AcyclicEdges(t) && !JobsGuarded(t, jobs)
            && RunJobs(t, stats, jobs, sources).Some? && AcyclicEdges(RunJobs(t, stats, jobs, sources).value.0)
  {
    hide RunJob, JobStats, Acyclic, JobRefused, ClipBack, EmptySecond, RefreshesGuarded;
    var one, two := ClipBack(clip, first, evidence), EmptySecond(second);
    var jobs := [one, two];
    FirstCallClosesCycle(t, clip, first, second, evidence, sources);
    assert one.target == first && one.members == ClipBack(clip, first, evidence).members by {
      ClipBackTarget(clip, first, evidence);
    }
    var mid := RunJob(t, one);
    SecondCallOpensIt(mid, clip, first, second, evidence, sources);
    assert jobs[1..] == [two] && [two][1..] == [];
    assert RunJobs(mid, JobStats(stats, t, one), [two], sources)
        == RunJobs(RunJob(mid, two), JobStats(JobStats(stats, t, one), mid, two), [], sources);
  }

  lemma ClipBackTarget(clip: NodeId, first: NodeId, evidence: Evidence)
    ensures ClipBack(clip, first, evidence).target == first
  {
  }

  // ---- What an accepted request leaves open, timeline by timeline ----

  lemma {:induction false} OtherJobsLeaveRows(t: Tables, stats: Stats, jobs: seq<Job>, sources: map<NodeId, Lifecycle>,
                                              n: NodeId)
    requires RunJobs(t, stats, jobs, sources).Some? && forall i :: 0 <= i < |jobs| ==> jobs[i].target != n
    ensures SameIncoming(t.edges, RunJobs(t, stats, jobs, sources).value.0.edges, n)
    decreases |jobs|
  {
    if jobs != [] {
      var j := jobs[0];
      RowsAfterKeeps(t.edges, j.target, j.timelineId, j.members, j.protectedPaths);
      assert SameIncoming(t.edges, RunJob(t, j).edges, n);
      OtherJobsLeaveRows(RunJob(t, j), JobStats(stats, t, j), jobs[1..], sources, n);
    }
  }

  /** When exactly one of the calls is for n, it alone decides what is open on n. */
  lemma {:induction false} OneJobDecides(t: Tables, stats: Stats, jobs: seq<Job>, sources: map<NodeId, Lifecycle>,
                                         i: nat, s: NodeId)
    requires RunJobs(t, stats, jobs, sources).Some? && i < |jobs|
    requires forall j :: 0 <= j < |jobs| && j != i ==> jobs[j].target != jobs[i].target
    ensures var k, edges := SidecarKey(s, jobs[i].target), RunJobs(t, stats, jobs, sources).value.0.edges;
            OpenRow(edges, k) <==>
              || (s in Sources(jobs[i].members) && !(k in t.edges && Locked(t.edges[k])))
              || (s !in Sources(jobs[i].members) && OpenRow(t.edges, k)
                  && ProtectedRow(t.edges, jobs[i].timelineId, jobs[i].protectedPaths, k))
    decreases |jobs|
  {
    var j, next := jobs[0], RunJob(t, jobs[0]);
    var k := SidecarKey(s, jobs[i].target);
    if i == 0 {
      OpenRowsExact(t, j.target, j.timelineId, j.members, j.protectedPaths, sources, s);
      OtherJobsLeaveRows(next, JobStats(stats, t, j), jobs[1..], sources, j.target);
    } else {
      RowsAfterKeeps(t.edges, j.target, j.timelineId, j.members, j.protectedPaths);
      assert SameIncoming(t.edges, next.edges, jobs[i].target);
      OneJobDecides(next, JobStats(stats, t, j), jobs[1..], sources, i - 1, s);
    }
  }

  /** The scope query returns each of its rows once. */
  ghost predicate Lists(ids: seq<NodeId>, rows: set<NodeId>) {
    (forall n :: n in ids <==> n in rows) && forall i, j :: 0 <= i < j < |ids| ==> ids[i] != ids[j]
  }

  ghost predicate ListsRows(ctx: Context) {
    forall rows :: Lists(ctx.listing(rows), rows)
  }

  /** A timeline this request names has one call, the one with its own members. */
  lemma NamedTimelineHasOneJob(ctx: Context, body: Body, tx: Tx, n: NodeId) returns (i: nat)
    requires ListsRows(ctx) && n in tx.targets && n in ScopeRows(tx.tables, body.agentId, body.scopeId)
    ensures i < |Jobs(ctx, body, tx)| && Jobs(ctx, body, tx)[i] == JobOf(ctx, body.memberships, tx.targets, n)
    ensures forall j :: 0 <= j < |Jobs(ctx, body, tx)| && j != i ==> Jobs(ctx, body, tx)[j].target != n
  {
    var ids := ctx.listing(ScopeRows(tx.tables, body.agentId, body.scopeId));
    assert Lists(ids, ScopeRows(tx.tables, body.agentId, body.scopeId));
    i :| 0 <= i < |ids| && ids[i] == n;
    var first, jobs := ScopeJobs(ctx, body.memberships, tx.targets, ids), Jobs(ctx, body, tx);
    RetireJobsEmpty(tx.targets, ctx.listing(ScopeRows(tx.tables, body.agentId, body.retireScopeId)));
    forall j | 0 <= j < |jobs| && j != i ensures jobs[j].target != n {
      if j < |first| {
        assert jobs[j] == first[j] && first[j].target == ids[j];
      } else {
        assert jobs[j] in RetiredJobs(ctx, body, tx);
      }
    }
  }

  /** Everything a request names is registered under its scope. */
  ghost predicate Registers(body: Body, tx: Tx) {
    forall n :: n in tx.targets ==> (body.agentId, body.scopeId, n) in tx.tables.scopes
  }

  lemma {:induction false} RegisterAllRegisters(ctx: Context, guard: string -> Option<Location>, body: Body, tx: Tx,
                                                tls: seq<TimelineIn>)
    requires Registers(body, tx) && RegisterAll(ctx, guard, body, tx, tls).Ok?
    ensures Registers(body, RegisterAll(ctx, guard, body, tx, tls).value)
    decreases |tls|
  {
    if tls != [] {
      RegisterAllRegisters(ctx, guard, body, RegisterTimeline(ctx, guard, body, tx, tls[0]).value, tls[1..]);
    }
  }

  lemma NamedIsInScope(t: Tables, ctx: Context, body: Body, n: NodeId)
    requires ctx.guard.Some? && Registered(t, ctx, body).Ok? && n in Registered(t, ctx, body).value.targets
    ensures n in ScopeRows(Registered(t, ctx, body).value.tables, body.agentId, body.scopeId)
  {
    hide RegisterAll, RegisterAllLegacy;
    var tx := RegisterAll(ctx, ctx.guard.value, body, Tx(t, map[]), body.timelines).value;
    RegisterAllRegisters(ctx, ctx.guard.value, body, Tx(t, map[]), body.timelines);
    RegisterAllLegacyKeeps(ctx, body, tx, body.legacyUuids);
    var row := (body.agentId, body.scopeId, n);
    assert row in Registered(t, ctx, body).value.tables.scopes && row.2 == n;
  }

  /** After an accepted request, on every timeline it names: the open rows are exactly the
      resolved sources no human has reviewed plus the previously open rows protected by one
      of the timeline's unresolved paths. */
  lemma SnapshotIsAuthoritative(t: Tables, ctx: Context, body: Body, n: NodeId, s: NodeId)
    requires ListsRows(ctx) && SnapshotTx(t, ctx, body).Some?
    requires n in Registered(t, ctx, body).value.targets
    ensures var edges, tl, k := SnapshotTx(t, ctx, body).value.0.edges,
      Registered(t, ctx, body).value.targets[n], SidecarKey(s, n);
            var wanted := Sources(ResolvedMembers(ctx, body.memberships, tl));
            OpenRow(edges, k) <==>
              || (s in wanted && !(k in t.edges && Locked(t.edges[k])))
              || (s !in wanted && OpenRow(t.edges, k)
                  && ProtectedRow(t.edges, tl, UnresolvedPaths(body.memberships, tl), k))
  {
    hide Registered, RunJobs, Jobs, ListsRows;
    var tx := Registered(t, ctx, body).value;
    NamedIsInScope(t, ctx, body, n);
    RegisteredKeeps(t, ctx, body);
    var i := NamedTimelineHasOneJob(ctx, body, tx, n);
    OneJobDecides(tx.tables, Stats(0, 0, 0, 0, CountUnresolved(body.memberships), 0), Jobs(ctx, body, tx),
                  SourceRows(t, ctx, body.memberships), i, s);
  }

  /** The call for a node with one call explains every field of its rows. */
  lemma {:induction false} OneJobExplains(t: Tables, stats: Stats, jobs: seq<Job>, sources: map<NodeId, Lifecycle>,
                                          i: nat, s: NodeId)
    requires RunJobs(t, stats, jobs, sources).Some? && JobsDistinct(jobs) && i < |jobs|
    requires forall j :: 0 <= j < |jobs| && j != i ==> jobs[j].target != jobs[i].target
    ensures RowExplained(t.edges, RunJobs(t, stats, jobs, sources).value.0.edges, jobs[i].target, jobs[i].timelineId,
                         jobs[i].members, jobs[i].protectedPaths, s)
    ensures forall m :: m in jobs[i].members ==> m.source in sources && sources[m.source] in {Active, Hidden}
    decreases |jobs|
  {
    hide Refused, StatsAfter, Reconciled;
    var j, next := jobs[0], RunJob(t, jobs[0]);
    if i == 0 {
      RowsExplained(t, j.target, j.timelineId, j.members, j.protectedPaths, sources, s);
      MembersAreLive(t, j, sources);
      OtherJobsLeaveRows(next, JobStats(stats, t, j), jobs[1..], sources, j.target);
    } else {
      JobLeavesRows(t, j, jobs[i].target);
      OneJobExplains(next, JobStats(stats, t, j), jobs[1..], sources, i - 1, s);
    }
  }

  lemma MembersAreLive(t: Tables, j: Job, sources: map<NodeId, Lifecycle>)
    requires !JobRefused(t, j, sources)
    ensures forall m :: m in j.members ==> m.source in sources && sources[m.source] in {Active, Hidden}
  {
    hide FateOf, WouldCreateCycle, DetachmentOf;
    forall m | m in j.members ensures m.source in sources && sources[m.source] in {Active, Hidden} {
      assert !MemberRefused(t, j.target, m, sources);
    }
  }

  lemma JobLeavesRows(t: Tables, j: Job, n: NodeId)
    requires j.target != n
    ensures SameIncoming(t.edges, RunJob(t, j).edges, n)
  {
    RowsAfterKeeps(t.edges, j.target, j.timelineId, j.members, j.protectedPaths);
  }

  /** Membership i wants an edge from s to the timeline. */
  predicate Wants(ctx: Context, m: MembershipIn, timelineId: string, s: NodeId) {
    m.timelineId == timelineId && m.sourceNodeUuid != "" && ctx.parseUuid(m.sourceNodeUuid) == Some(s)
  }

  /** What an accepted request makes of the row from s to its timeline i, field by field. A member
      that wants it was on record and live, and gets a new certain, accepted, first-tier row, or its
      old one with the new evidence switched on, or its reviewed one as it was; otherwise the row
      stays, and is switched off exactly when it is active, the snapshot's own, not reviewed, and
      not shielded by an unresolved member. */
  lemma SnapshotRowsExplained(t: Tables, ctx: Context, body: Body, i: nat, s: NodeId)
    requires ListsRows(ctx) && SnapshotTx(t, ctx, body).Some? && i < |body.timelines|
    ensures var tl, after := body.timelines[i], SnapshotTx(t, ctx, body).value.0.edges;
            var k := SidecarKey(s, tl.nodeUuid);
            && (forall m :: m in body.memberships && Wants(ctx, m, tl.timelineId, s) ==>
                  && s in t.nodes && t.nodes[s].lifecycle in {Active, Hidden}
                  && k in after && after[k].resolver == "resolve_project_db"
                  && after[k] ==
                       if k !in t.edges then Edge(100, 1, "resolve_project_db", m.evidence, AutoAccepted, true)
                       else if t.edges[k].review == Confirmed || t.edges[k].review == Rejected then t.edges[k]
                       else t.edges[k].(evidence := m.evidence, active := true))
            && ((forall m :: m in body.memberships ==> !Wants(ctx, m, tl.timelineId, s)) ==>
                  var shielded := set m | m in body.memberships && m.timelineId == tl.timelineId
                                          && m.sourceNodeUuid == "" :: m.mediaFilePath;
                  && (k in after <==> k in t.edges)
                  && (k in t.edges ==>
                        after[k] ==
                          if Unwanted(t.edges, tl.timelineId, shielded, k)
                          then t.edges[k].(active := false) else t.edges[k]))
  {
    hide Registered, RunJobs, Jobs, ListsRows, TimelinesOk, NoDuplicates, SnapshotTx;
    var tl, ms := body.timelines[i], body.memberships;
    var job := NamedJob(t, ctx, body, i, s);
    assert job.protectedPaths == set m | m in ms && m.timelineId == tl.timelineId && m.sourceNodeUuid == ""
                                       :: m.mediaFilePath;
    forall m | m in ms && Wants(ctx, m, tl.timelineId, s)
      ensures ResolvedOk(ctx, m) && Canonical(ctx, m) in job.members
    {
      var x :| 0 <= x < |ms| && ms[x] == m;
      WantedIsOk(t, ctx, body, x);
    }
    if forall m :: m in ms ==> !Wants(ctx, m, tl.timelineId, s) {
      assert s !in Sources(job.members);
    }
  }

  lemma WantedIsOk(t: Tables, ctx: Context, body: Body, x: nat)
    requires SnapshotTx(t, ctx, body).Some? && x < |body.memberships| && body.memberships[x].sourceNodeUuid != ""
    ensures ResolvedOk(ctx, body.memberships[x])
  {
  }

  /** The call for timeline i, and what it made of its row from s. */
  lemma NamedJob(t: Tables, ctx: Context, body: Body, i: nat, s: NodeId) returns (job: Job)
    requires ListsRows(ctx) && SnapshotTx(t, ctx, body).Some? && i < |body.timelines|
    ensures var tl, ms := body.timelines[i], body.memberships;
            job == Job(tl.nodeUuid, tl.timelineId, ResolvedMembers(ctx, ms, tl.timelineId),
                       UnresolvedPaths(ms, tl.timelineId))
    ensures RowExplained(t.edges, SnapshotTx(t, ctx, body).value.0.edges, job.target, job.timelineId, job.members,
                         job.protectedPaths, s)
    ensures forall m :: m in job.members ==> m.source in t.nodes && t.nodes[m.source].lifecycle in {Active, Hidden}
  {
    hide Registered, RunJobs, Jobs, ListsRows, TimelinesOk, AllOk, NoDuplicates, RowExplained, ResolvedMembers,
         UnresolvedPaths;
    var tx, sources := Registered(t, ctx, body).value, SourceRows(t, ctx, body.memberships);
    NamedTarget(t, ctx, body, i);
    NamedIsInScope(t, ctx, body, body.timelines[i].nodeUuid);
    RegisteredKeeps(t, ctx, body);
    JobsAreDistinct(ctx, body, tx);
    var j := NamedTimelineHasOneJob(ctx, body, tx, body.timelines[i].nodeUuid);
    job := Jobs(ctx, body, tx)[j];
    OneJobExplains(tx.tables, Stats(0, 0, 0, 0, CountUnresolved(body.memberships), 0), Jobs(ctx, body, tx), sources, j,
                   s);
  }

  lemma NamedTarget(t: Tables, ctx: Context, body: Body, i: nat)
    requires BodyOk(ctx, body) && Registered(t, ctx, body).Ok? && i < |body.timelines|
    ensures var targets := Registered(t, ctx, body).value.targets;
            body.timelines[i].nodeUuid in targets && targets[body.timelines[i].nodeUuid] == body.timelines[i].timelineId
  {
    hide RegisterAll, RegisterAllLegacy;
    var tx := RegisterAll(ctx, ctx.guard.value, body, Tx(t, map[]), body.timelines).value;
    RegisterAllTargets(ctx, ctx.guard.value, body, Tx(t, map[]), body.timelines, i);
    RegisterAllLegacyKeeps(ctx, body, tx, body.legacyUuids);
  }

  lemma {:induction false} RegisterAllTargets(ctx: Context, guard: string -> Option<Location>, body: Body, tx: Tx,
                                              tls: seq<TimelineIn>, i: nat)
    requires RegisterAll(ctx, guard, body, tx, tls).Ok? && i < |tls|
    requires forall x, y :: 0 <= x < y < |tls| ==> ctx.parseUuid(tls[x].nodeUuid) != ctx.parseUuid(tls[y].nodeUuid)
    ensures var targets := RegisterAll(ctx, guard, body, tx, tls).value.targets;
            tls[i].nodeUuid in targets && targets[tls[i].nodeUuid] == tls[i].timelineId
    decreases |tls|
  {
    hide InsertMediaNode;
    var one := RegisterTimeline(ctx, guard, body, tx, tls[0]).value;
    if i > 0 {
      RegisterAllTargets(ctx, guard, body, one, tls[1..], i - 1);
    } else {
      OtherTargets(ctx, guard, body, one, tls[1..], tls[0].nodeUuid);
    }
  }

  lemma {:induction false} OtherTargets(ctx: Context, guard: string -> Option<Location>, body: Body, tx: Tx,
                                        tls: seq<TimelineIn>, n: NodeId)
    requires RegisterAll(ctx, guard, body, tx, tls).Ok? && n in tx.targets
    requires forall x :: 0 <= x < |tls| ==> tls[x].nodeUuid != n
    ensures var targets := RegisterAll(ctx, guard, body, tx, tls).value.targets;
            n in targets && targets[n] == tx.targets[n]
    decreases |tls|
  {
    hide InsertMediaNode;
    if tls != [] {
      OtherTargets(ctx, guard, body, RegisterTimeline(ctx, guard, body, tx, tls[0]).value, tls[1..], n);
    }
  }

  /** Once a timeline has been emptied, later calls that want nothing from it keep it so. */
  lemma {:induction false} EmptiedStaysEmpty(t: Tables, stats: Stats, jobs: seq<Job>, sources: map<NodeId, Lifecycle>,
                                             n: NodeId, s: NodeId)
    requires RunJobs(t, stats, jobs, sources).Some?
    requires forall j :: j in jobs && j.target == n ==> j.timelineId == "" && j.members == {}
    requires !OpenRow(t.edges, SidecarKey(s, n)) || exists j :: j in jobs && j.target == n
    ensures !OpenRow(RunJobs(t, stats, jobs, sources).value.0.edges, SidecarKey(s, n))
    decreases |jobs|
  {
    if jobs != [] {
      var j, next := jobs[0], RunJob(t, jobs[0]);
      OpenRowsExact(t, j.target, j.timelineId, j.members, j.protectedPaths, sources, s);
      RowsAfterKeeps(t.edges, j.target, j.timelineId, j.members, j.protectedPaths);
      assert j.target != n ==> SameIncoming(t.edges, next.edges, n);
      assert j in jobs && forall x :: x in jobs ==> x == j || x in jobs[1..];
      EmptiedStaysEmpty(next, JobStats(stats, t, j), jobs[1..], sources, n, s);
    }
  }

  lemma UnnamedTimelineIsEmptied(ctx: Context, body: Body, tx: Tx, n: NodeId)
    requires ListsRows(ctx) && n !in tx.targets && BodyOk(ctx, body)
    requires || n in ScopeRows(tx.tables, body.agentId, body.scopeId)
             || (body.retireScopeId != "" && n in ScopeRows(tx.tables, body.agentId, body.retireScopeId))
    ensures exists j :: j in Jobs(ctx, body, tx) && j.target == n
    ensures forall j :: j in Jobs(ctx, body, tx) && j.target == n ==> j.timelineId == "" && j.members == {}
  {
    var rows := ScopeRows(tx.tables, body.agentId, body.scopeId);
    var retired := ScopeRows(tx.tables, body.agentId, body.retireScopeId);
    assert Lists(ctx.listing(rows), rows) && Lists(ctx.listing(retired), retired);
    var first := ScopeJobs(ctx, body.memberships, tx.targets, ctx.listing(rows));
    assert ResolvedMembers(ctx, body.memberships, "") == {};
    RetireJobsEmpty(tx.targets, ctx.listing(retired));
    if n in rows {
      var i :| 0 <= i < |ctx.listing(rows)| && ctx.listing(rows)[i] == n;
      assert first[i].target == n && first[i] in first;
    } else {
      RetireJobsCover(tx.targets, ctx.listing(retired), n);
    }
  }

  lemma RetireJobsCover(targets: map<NodeId, string>, ids: seq<NodeId>, n: NodeId)
    requires n in ids && n !in targets
    ensures exists j :: j in RetireJobs(targets, ids) && j.target == n
  {
    if ids[0] == n {
      assert Job(n, "", {}, {}) in RetireJobs(targets, ids);
    }
  }

  /** A timeline registered under the scope or the superseded one that the request no longer
      names has no open row left. */
  lemma SnapshotRetires(t: Tables, ctx: Context, body: Body, n: NodeId, s: NodeId)
    requires ListsRows(ctx) && SnapshotTx(t, ctx, body).Some?
    requires var tx := Registered(t, ctx, body).value;
             n !in tx.targets
             && (n in ScopeRows(tx.tables, body.agentId, body.scopeId)
                 || (body.retireScopeId != "" && n in ScopeRows(tx.tables, body.agentId, body.retireScopeId)))
    ensures !OpenRow(SnapshotTx(t, ctx, body).value.0.edges, SidecarKey(s, n))
  {
    var tx := Registered(t, ctx, body).value;
    UnnamedTimelineIsEmptied(ctx, body, tx, n);
    EmptiedStaysEmpty(tx.tables, Stats(0, 0, 0, 0, CountUnresolved(body.memberships), 0), Jobs(ctx, body, tx),
                      SourceRows(t, ctx, body.memberships), n, s);
  }

  // ---- What a request counts ----

  lemma {:induction false} RunJobsCreate(t: Tables, stats: Stats, jobs: seq<Job>, sources: map<NodeId, Lifecycle>)
    requires RunJobs(t, stats, jobs, sources).Some? && JobsDistinct(jobs)
    ensures var after := RunJobs(t, stats, jobs, sources).value;
            && after.1.created - stats.created == |after.0.edges| - |t.edges|
            && after.1.unresolved == stats.unresolved
    decreases |jobs|
  {
    hide RunJob, JobRefused;
    if jobs != [] {
      JobCreates(t, stats, jobs[0], sources);
      RunJobsCreate(RunJob(t, jobs[0]), JobStats(stats, t, jobs[0]), jobs[1..], sources);
    }
  }

  lemma JobCreates(t: Tables, stats: Stats, j: Job, sources: map<NodeId, Lifecycle>)
    requires DistinctSources(j.members) && !JobRefused(t, j, sources)
    ensures JobStats(stats, t, j).created - stats.created == |RunJob(t, j).edges| - |t.edges|
    ensures JobStats(stats, t, j).unresolved == stats.unresolved
  {
    hide Refused, StatsAfter, Reconciled;
    CountersAreRows(t, j.target, j.timelineId, j.members, j.protectedPaths, sources, stats);
  }

  /** The created count of an accepted request is the number of rows the edge table gained, over
      all its calls; the unresolved count is the number of members it could not resolve. */
  lemma SnapshotCreates(t: Tables, ctx: Context, body: Body)
    requires SnapshotTx(t, ctx, body).Some?
    ensures var after := SnapshotTx(t, ctx, body).value;
            && after.1.created == |after.0.edges| - |t.edges|
            && after.1.unresolved == |set i | 0 <= i < |body.memberships| && body.memberships[i].sourceNodeUuid == ""|
  {
    hide Registered, Jobs, RunJobs, TimelinesOk, AllOk, NoDuplicates;
    var tx := Registered(t, ctx, body).value;
    RegisteredKeeps(t, ctx, body);
    JobsAreDistinct(ctx, body, tx);
    RunJobsCreate(tx.tables, Stats(0, 0, 0, 0, CountUnresolved(body.memberships), 0), Jobs(ctx, body, tx),
                  SourceRows(t, ctx, body.memberships));
    var ms := body.memberships;
    assert (set i | 0 <= i < |ms| && !Resolved(ms[i])) == set i | 0 <= i < |ms| && ms[i].sourceNodeUuid == "";
  }
}
