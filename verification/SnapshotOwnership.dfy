/**
  Whose timelines a snapshot may touch. The endpoint names nodes by UUID, so what keeps one
  device off another's timelines is the claim check of the registration; everything a request
  writes -- scope rows, names, resolve rows, statuses -- stays behind it.
 */
module SnapshotOwnership {
  import opened Wrappers
  import opened Reachability
  import opened Store
  import opened Snapshot
  import opened SnapshotRequest
  import opened SnapshotRerun

  /** The caller's scope holds the node, or a processed event of the caller created it. */
  predicate Claimable(t: Tables, ctx: Context, scope: string, n: NodeId) {
    (ctx.principal, scope, n) in t.scopes || (ctx.principal, n) in ctx.createdVirtual
  }

  /** What a request may reach: nodes it inserts, nodes the caller can claim, and those of the
      scope it retires. */
  predicate InReach(t: Tables, ctx: Context, body: Body, n: NodeId) {
    || n !in t.nodes
    || Claimable(t, ctx, body.scopeId, n)
    || (body.retireScopeId != "" && (ctx.principal, body.retireScopeId, n) in t.scopes)
  }

  // ---- Registration ----

  /** Timeline tl of a registration that took t to t'. */
  predicate TimelineClaimed(t: Tables, ctx: Context, body: Body, tl: TimelineIn, t': Tables) {
    var n := tl.nodeUuid;
    && (body.agentId, body.scopeId, n) in t'.scopes && n in t'.nodes
    && if n in t.nodes then
      && t.nodes[n].path == tl.filePath && t'.nodes[n] == t.nodes[n].(fileName := tl.displayName)
      && ((body.agentId, body.scopeId, n) in t.scopes || (body.agentId, n) in ctx.createdVirtual)
    else t'.nodes[n] == Node(tl.filePath, tl.displayName, 0, None, false, Unlinked, Active)
  }

  predicate NamedBy(tls: seq<TimelineIn>, n: NodeId) {
    exists i :: 0 <= i < |tls| && tls[i].nodeUuid == n
  }

  /** What registering the timelines does: each is claimed, nobody else is touched. */
  ghost predicate AllClaimed(t: Tables, ctx: Context, body: Body, tls: seq<TimelineIn>, t': Tables) {
    && t' == t.(nodes := t'.nodes, scopes := t'.scopes) && t.scopes <= t'.scopes
    && (forall i :: 0 <= i < |tls| ==> TimelineClaimed(t, ctx, body, tls[i], t'))
    && (forall row :: row in t'.scopes && row !in t.scopes ==>
          row.0 == body.agentId && row.1 == body.scopeId && NamedBy(tls, row.2))
    && (forall n :: n in t'.nodes ==> n in t.nodes || NamedBy(tls, n))
    && (forall n :: n in t.nodes && !NamedBy(tls, n) ==> n in t'.nodes && t'.nodes[n] == t.nodes[n])
  }

  lemma RegisterOneClaims(ctx: Context, guard: string -> Option<Location>, body: Body, tx: Tx, tl: TimelineIn)
    requires RegisterTimeline(ctx, guard, body, tx, tl).Ok?
    ensures AllClaimed(tx.tables, ctx, body, [tl], RegisterTimeline(ctx, guard, body, tx, tl).value.tables)
  {
    hide Collides;
    assert [tl][0] == tl;
  }

  lemma {:induction false} RegisterAllClaims(ctx: Context, guard: string -> Option<Location>, body: Body, tx: Tx,
                                             tls: seq<TimelineIn>)
    requires RegisterAll(ctx, guard, body, tx, tls).Ok? && DistinctNodes(tls)
    ensures AllClaimed(tx.tables, ctx, body, tls, RegisterAll(ctx, guard, body, tx, tls).value.tables)
    decreases |tls|
  {
    hide RegisterTimeline;
    if tls != [] {
      var one := RegisterTimeline(ctx, guard, body, tx, tls[0]).value;
      RegisterOneClaims(ctx, guard, body, tx, tls[0]);
      RegisterAllClaims(ctx, guard, body, one, tls[1..]);
      ClaimsChain(tx.tables, ctx, body, tls, one.tables, RegisterAll(ctx, guard, body, tx, tls).value.tables);
    }
  }

  lemma ClaimsChain(t: Tables, ctx: Context, body: Body, tls: seq<TimelineIn>, t1: Tables, t2: Tables)
    requires tls != [] && DistinctNodes(tls)
    requires AllClaimed(t, ctx, body, [tls[0]], t1) && AllClaimed(t1, ctx, body, tls[1..], t2)
    ensures AllClaimed(t, ctx, body, tls, t2)
  {
    assert [tls[0]][0] == tls[0] && TimelineClaimed(t, ctx, body, [tls[0]][0], t1);
    forall n ensures NamedBy(tls, n) <==> n == tls[0].nodeUuid || NamedBy(tls[1..], n) {
      if n == tls[0].nodeUuid {
        assert tls[0].nodeUuid == n;
      }
      if NamedBy(tls[1..], n) {
        var i :| 0 <= i < |tls[1..]| && tls[1..][i].nodeUuid == n;
        assert tls[i + 1] == tls[1..][i];
      }
      if NamedBy(tls, n) && n != tls[0].nodeUuid {
        var i :| 0 <= i < |tls| && tls[i].nodeUuid == n;
        assert tls[1..][i - 1] == tls[i];
      }
    }
    assert !NamedBy(tls[1..], tls[0].nodeUuid);
    assert forall n :: NamedBy([tls[0]], n) ==> n == tls[0].nodeUuid;
    forall i | 0 <= i < |tls| ensures TimelineClaimed(t, ctx, body, tls[i], t2) {
      if i > 0 {
        assert tls[1..][i - 1] == tls[i];
        assert TimelineClaimed(t1, ctx, body, tls[1..][i - 1], t2);
        assert tls[i].nodeUuid != tls[0].nodeUuid;
      }
    }
  }

  /** Legacy timelines only gain the scope row, and only those an event of the agent created. */
  lemma {:induction false} LegacyClaims(ctx: Context, body: Body, tx: Tx, ids: seq<string>)
    requires RegisterAllLegacy(ctx, body, tx, ids).Ok?
    ensures var t' := RegisterAllLegacy(ctx, body, tx, ids).value.tables;
            && t' == tx.tables.(scopes := t'.scopes) && tx.tables.scopes <= t'.scopes
            && forall row :: row in t'.scopes && row !in tx.tables.scopes ==>
                 row.0 == body.agentId && row.1 == body.scopeId && (body.agentId, row.2) in ctx.createdVirtual
    decreases |ids|
  {
    if ids != [] {
      LegacyClaims(ctx, body, RegisterLegacy(ctx, body, tx, ids[0]).value, ids[1..]);
    }
  }

  // ---- The reconcile calls ----

  lemma JobTouches(t: Tables, j: Job)
    ensures var t' := RunJob(t, j);
            && t' == t.(nodes := t'.nodes, edges := t'.edges) && t'.nodes.Keys == t.nodes.Keys
            && (forall n :: n in t.nodes ==>
                  t'.nodes[n] == if n == j.target then t.nodes[n].(status := t'.nodes[n].status) else t.nodes[n])
            && forall k: Key :: k.target != j.target || k.rel != ProjectSidecar ==> RowKept(t.edges, t'.edges, k)
  {
    hide StatusOf, DetachmentOf;
    RowsElsewhere(t.edges, j.target, j.timelineId, j.members, j.protectedPaths);
  }

  lemma RowsElsewhere(edges: map<Key, Edge>, target: NodeId, timelineId: string, members: set<Membership>,
                      protectedPaths: set<string>)
    ensures var after := RowsAfter(edges, target, members,
                                   Gone(edges, target, timelineId, Sources(members), protectedPaths));
            forall k: Key :: k.target != target || k.rel != ProjectSidecar ==> RowKept(edges, after, k)
  {
    hide DetachmentOf;
  }

  /** The calls of a request write rows, names and statuses of their own timelines only. */
  lemma {:induction false} JobsTouch(t: Tables, stats: Stats, jobs: seq<Job>, sources: map<NodeId, Lifecycle>,
                                     n: NodeId)
    requires RunJobs(t, stats, jobs, sources).Some?
    ensures var t' := RunJobs(t, stats, jobs, sources).value.0;
            && t' == t.(nodes := t'.nodes, edges := t'.edges) && t'.nodes.Keys == t.nodes.Keys
            && (n in t.nodes ==> t'.nodes[n] == t.nodes[n].(status := t'.nodes[n].status))
            && (forall k: Key :: k.rel != ProjectSidecar ==> RowKept(t.edges, t'.edges, k))
            && ((forall i :: 0 <= i < |jobs| ==> jobs[i].target != n) ==>
                  && (n in t.nodes ==> t'.nodes[n] == t.nodes[n])
                  && forall k: Key :: k.target == n ==> RowKept(t.edges, t'.edges, k))
    decreases |jobs|
  {
    hide RunJob, JobRefused, JobStats;
    if jobs != [] {
      JobTouches(t, jobs[0]);
      JobsTouch(RunJob(t, jobs[0]), JobStats(stats, t, jobs[0]), jobs[1..], sources, n);
    }
  }

  /** Every call is for a node of the scope or of the retired scope. */
  lemma CallsAreListed(ctx: Context, body: Body, tx: Tx, i: nat)
    requires ListsRows(ctx) && i < |Jobs(ctx, body, tx)|
    ensures var n := Jobs(ctx, body, tx)[i].target;
            || (body.agentId, body.scopeId, n) in tx.tables.scopes
            || (body.retireScopeId != "" && body.retireScopeId != body.scopeId
                && (body.agentId, body.retireScopeId, n) in tx.tables.scopes)
  {
    var rows := ScopeRows(tx.tables, body.agentId, body.scopeId);
    var retired := ScopeRows(tx.tables, body.agentId, body.retireScopeId);
    assert Lists(ctx.listing(rows), rows) && Lists(ctx.listing(retired), retired);
    var first := ScopeJobs(ctx, body.memberships, tx.targets, ctx.listing(rows));
    var n := Jobs(ctx, body, tx)[i].target;
    if i < |first| {
      assert n == ctx.listing(rows)[i] && n in rows;
    } else {
      RetireJobsEmpty(tx.targets, ctx.listing(retired));
      assert RetiredJobs(ctx, body, tx)[i - |first|] in RetiredJobs(ctx, body, tx);
      assert n in retired;
    }
  }

  // ---- When a registration is accepted ----

  /** Some node that is neither archived nor trashed stands at the path. */
  ghost predicate PathHeld(t: Tables, path: string) {
    exists j :: j in t.nodes && t.nodes[j].lifecycle in {Active, Missing, Hidden} && t.nodes[j].path == path
  }

  /** Timeline i can be registered: it is on record at its path and the agent's to claim; or it is
      new, its place is virtual and free, and no new timeline before it takes the place. */
  ghost predicate Registrable(t: Tables, ctx: Context, guard: string -> Option<Location>, body: Body,
                              tls: seq<TimelineIn>, i: nat)
    requires i < |tls|
  {
    var n, path := tls[i].nodeUuid, tls[i].filePath;
    if n in t.nodes then
      t.nodes[n].path == path
      && ((body.agentId, body.scopeId, n) in t.scopes || (body.agentId, n) in ctx.createdVirtual)
    else
      && guard(path).Some? && guard(path).value.isVirtual && !PathHeld(t, path)
      && forall j :: 0 <= j < i && tls[j].nodeUuid !in t.nodes ==> tls[j].filePath != path
  }

  lemma RegisterTimelineIff(ctx: Context, guard: string -> Option<Location>, body: Body, tx: Tx, tls: seq<TimelineIn>)
    requires tls != []
    ensures RegisterTimeline(ctx, guard, body, tx, tls[0]).Ok? <==> Registrable(tx.tables, ctx, guard, body, tls, 0)
  {
    var t, n, row := tx.tables, tls[0].nodeUuid, TimelineNode(tls[0]);
    if PathHeld(t, row.path) && n !in t.nodes {
      var j :| j in t.nodes && t.nodes[j].lifecycle in {Active, Missing, Hidden} && t.nodes[j].path == row.path;
      assert Clash(row, t.nodes[j]);
    }
  }

  lemma {:induction false} RegisterAllIff(ctx: Context, guard: string -> Option<Location>, body: Body, tx: Tx,
                                          tls: seq<TimelineIn>)
    requires DistinctNodes(tls)
    ensures RegisterAll(ctx, guard, body, tx, tls).Ok?
       <==> forall i :: 0 <= i < |tls| ==> Registrable(tx.tables, ctx, guard, body, tls, i)
    decreases |tls|
  {
    hide RegisterTimeline, Registrable;
    if tls != [] {
      RegisterTimelineIff(ctx, guard, body, tx, tls);
      if RegisterTimeline(ctx, guard, body, tx, tls[0]).Ok? {
        var one := RegisterTimeline(ctx, guard, body, tx, tls[0]).value;
        RegisterOneClaims(ctx, guard, body, tx, tls[0]);
        RegisterAllIff(ctx, guard, body, one, tls[1..]);
        forall i | 0 < i < |tls|
          ensures Registrable(one.tables, ctx, guard, body, tls[1..], i - 1)
             <==> Registrable(tx.tables, ctx, guard, body, tls, i)
        {
          RegistrableLater(tx.tables, ctx, guard, body, tls, one.tables, i);
        }
        assert forall i :: 0 <= i < |tls[1..]| ==>
            (Registrable(one.tables, ctx, guard, body, tls[1..], i)
             <==> Registrable(tx.tables, ctx, guard, body, tls, i + 1));
      }
    }
  }

  lemma RegistrableLater(t: Tables, ctx: Context, guard: string -> Option<Location>, body: Body, tls: seq<TimelineIn>,
                         t1: Tables, i: nat)
    requires 0 < i < |tls| && DistinctNodes(tls) && AllClaimed(t, ctx, body, [tls[0]], t1)
    ensures Registrable(t1, ctx, guard, body, tls[1..], i - 1) <==> Registrable(t, ctx, guard, body, tls, i)
  {
    assert [tls[0]][0] == tls[0] && TimelineClaimed(t, ctx, body, [tls[0]][0], t1);
    assert forall n :: NamedBy([tls[0]], n) <==> n == tls[0].nodeUuid;
    assert tls[1..][i - 1] == tls[i] && tls[i].nodeUuid != tls[0].nodeUuid;
    var path := tls[i].filePath;
    PathHeldLater(t, ctx, body, tls[0], t1, path);
    assert forall j :: 0 < j < i ==> tls[1..][j - 1] == tls[j];
    if forall j :: 0 <= j < i - 1 && tls[1..][j].nodeUuid !in t1.nodes ==> tls[1..][j].filePath != path {
      forall j | 0 < j < i && tls[j].nodeUuid !in t.nodes ensures tls[j].filePath != path {
        assert tls[1..][j - 1] == tls[j] && tls[j].nodeUuid != tls[0].nodeUuid;
      }
    }
    if forall j :: 0 <= j < i && tls[j].nodeUuid !in t.nodes ==> tls[j].filePath != path {
      forall j | 0 <= j < i - 1 && tls[1..][j].nodeUuid !in t1.nodes ensures tls[1..][j].filePath != path {
        assert tls[j + 1] == tls[1..][j];
      }
    }
  }

  lemma PathHeldLater(t: Tables, ctx: Context, body: Body, tl: TimelineIn, t1: Tables, path: string)
    requires AllClaimed(t, ctx, body, [tl], t1)
    ensures PathHeld(t1, path) <==> PathHeld(t, path) || (tl.nodeUuid !in t.nodes && tl.filePath == path)
  {
    assert [tl][0] == tl && TimelineClaimed(t, ctx, body, [tl][0], t1);
    assert forall n :: NamedBy([tl], n) <==> n == tl.nodeUuid;
    if PathHeld(t, path) {
      var j :| j in t.nodes && t.nodes[j].lifecycle in {Active, Missing, Hidden} && t.nodes[j].path == path;
      assert j in t1.nodes && t1.nodes[j].path == path && t1.nodes[j].lifecycle == t.nodes[j].lifecycle;
    }
    if PathHeld(t1, path) {
      var j :| j in t1.nodes && t1.nodes[j].lifecycle in {Active, Missing, Hidden} && t1.nodes[j].path == path;
      if j in t.nodes {
        assert t.nodes[j].path == path && t.nodes[j].lifecycle == t1.nodes[j].lifecycle;
      }
    }
    if tl.nodeUuid !in t.nodes && tl.filePath == path {
      assert tl.nodeUuid in t1.nodes && t1.nodes[tl.nodeUuid].path == path;
    }
  }

  lemma {:induction false} RegisterLegacyIff(ctx: Context, body: Body, tx: Tx, ids: seq<string>)
    ensures RegisterAllLegacy(ctx, body, tx, ids).Ok?
       <==> forall i :: 0 <= i < |ids| ==>
              && ctx.parseUuid(ids[i]).Some? && ids[i] in tx.tables.nodes
              && (ids[i] in tx.targets || (body.agentId, ids[i]) in ctx.createdVirtual)
    decreases |ids|
  {
    if ids != [] {
      var one := RegisterLegacy(ctx, body, tx, ids[0]);
      if one.Ok? {
        RegisterLegacyIff(ctx, body, one.value, ids[1..]);
        assert forall i :: 0 < i < |ids| ==> ids[1..][i - 1] == ids[i];
        assert forall i :: 0 <= i < |ids[1..]| ==> ids[1..][i] == ids[i + 1];
      }
    }
  }

  lemma {:induction false} RegisterTargets(ctx: Context, guard: string -> Option<Location>, body: Body, tx: Tx,
                                           tls: seq<TimelineIn>, n: NodeId)
    requires RegisterAll(ctx, guard, body, tx, tls).Ok?
    ensures n in RegisterAll(ctx, guard, body, tx, tls).value.targets <==> n in tx.targets || NamedBy(tls, n)
    decreases |tls|
  {
    if tls != [] {
      var one := RegisterTimeline(ctx, guard, body, tx, tls[0]).value;
      RegisterTargets(ctx, guard, body, one, tls[1..], n);
      assert forall i :: 0 < i < |tls| ==> tls[1..][i - 1] == tls[i];
      assert forall i :: 0 <= i < |tls[1..]| ==> tls[1..][i] == tls[i + 1];
    }
  }

  /** Every timeline the request names can be registered, and every legacy one is named too or was
      created by an event of the agent. */
  ghost predicate AllRegistrable(t: Tables, ctx: Context, body: Body)
    requires ctx.guard.Some?
  {
    && (forall i :: 0 <= i < |body.timelines| ==> Registrable(t, ctx, ctx.guard.value, body, body.timelines, i))
    && (forall i :: 0 <= i < |body.legacyUuids| ==>
          var id := body.legacyUuids[i];
          ctx.parseUuid(id).Some?
          && (NamedBy(body.timelines, id) || (id in t.nodes && (body.agentId, id) in ctx.createdVirtual)))
  }

  /** The registration of a well-formed request succeeds exactly then. */
  lemma RegisteredIff(t: Tables, ctx: Context, body: Body)
    requires BodyOk(ctx, body)
    ensures Registered(t, ctx, body).Ok? <==> AllRegistrable(t, ctx, body)
  {
    hide RegisterAll, RegisterAllLegacy, Registrable, NamedBy;
    DistinctTimelines(ctx, body);
    var start := Tx(t, map[]);
    RegisterAllIff(ctx, ctx.guard.value, body, start, body.timelines);
    if RegisterAll(ctx, ctx.guard.value, body, start, body.timelines).Ok? {
      var tx := RegisterAll(ctx, ctx.guard.value, body, start, body.timelines).value;
      RegisterLegacyIff(ctx, body, tx, body.legacyUuids);
      forall n ensures n in tx.targets <==> NamedBy(body.timelines, n) {
        RegisterTargets(ctx, ctx.guard.value, body, start, body.timelines, n);
      }
      RegisterAllClaims(ctx, ctx.guard.value, body, start, body.timelines);
      forall n ensures n in tx.tables.nodes <==> n in t.nodes || NamedBy(body.timelines, n) {
        RegisteredNodes(t, ctx, body, tx.tables, n);
      }
    }
  }

  lemma RegisteredNodes(t: Tables, ctx: Context, body: Body, t1: Tables, n: NodeId)
    requires AllClaimed(t, ctx, body, body.timelines, t1)
    ensures n in t1.nodes <==> n in t.nodes || NamedBy(body.timelines, n)
  {
    if NamedBy(body.timelines, n) {
      var i :| 0 <= i < |body.timelines| && body.timelines[i].nodeUuid == n;
      assert TimelineClaimed(t, ctx, body, body.timelines[i], t1);
    }
  }

  // ---- What a whole request may touch ----

  /** One node. */
  ghost predicate NodeWithin(t: Tables, ctx: Context, body: Body, t': Tables, n: NodeId) {
    && (n in t'.nodes ==> n in t.nodes || NamedBy(body.timelines, n))
    && (n in t.nodes ==>
          && n in t'.nodes
          && t'.nodes[n] == t.nodes[n].(fileName := t'.nodes[n].fileName, status := t'.nodes[n].status)
          && (t'.nodes[n].fileName != t.nodes[n].fileName ==> Claimable(t, ctx, body.scopeId, n))
          && (t'.nodes[n] != t.nodes[n] ==> InReach(t, ctx, body, n)))
  }

  /** One named timeline. */
  ghost predicate TimelineWithin(t: Tables, ctx: Context, body: Body, tl: TimelineIn, t': Tables) {
    && tl.nodeUuid in t'.nodes && (ctx.principal, body.scopeId, tl.nodeUuid) in t'.scopes
    && t'.nodes[tl.nodeUuid].path == tl.filePath && t'.nodes[tl.nodeUuid].fileName == tl.displayName
    && (tl.nodeUuid in t.nodes ==>
          t.nodes[tl.nodeUuid].path == tl.filePath && Claimable(t, ctx, body.scopeId, tl.nodeUuid))
  }

  /** The limits of a request that takes t to t'. Scope rows are the caller's own, for nodes it
      inserted or can claim. Every timeline it names is on record under its path and name, and
      one that was there already stood at that path and was the caller's to claim. A node that
      was there keeps everything but its name and status; its name changes only if the caller
      can claim it, its status only within reach. Of the edges, only resolve rows within reach
      change. */
  ghost predicate WithinAuthority(t: Tables, ctx: Context, body: Body, t': Tables) {
    && t' == t.(nodes := t'.nodes, edges := t'.edges, scopes := t'.scopes)
    && t.scopes <= t'.scopes
    && (forall row :: row in t'.scopes && row !in t.scopes ==>
          row.0 == ctx.principal && row.1 == body.scopeId
          && (row.2 !in t.nodes || Claimable(t, ctx, body.scopeId, row.2)))
    && (forall i :: 0 <= i < |body.timelines| ==> TimelineWithin(t, ctx, body, body.timelines[i], t'))
    && (forall n :: NodeWithin(t, ctx, body, t', n))
    && (forall k: Key :: RowKept(t.edges, t'.edges, k) || (k.rel == ProjectSidecar && InReach(t, ctx, body, k.target)))
  }

  /** Registration in two steps: the named timelines, then the legacy scope rows. */
  lemma RegistrationClaims(t: Tables, ctx: Context, body: Body) returns (mid: Tables)
    requires BodyOk(ctx, body) && Registered(t, ctx, body).Ok?
    ensures AllClaimed(t, ctx, body, body.timelines, mid)
    ensures var t' := Registered(t, ctx, body).value.tables;
            && t' == mid.(scopes := t'.scopes) && mid.scopes <= t'.scopes
            && forall row :: row in t'.scopes && row !in mid.scopes ==>
                 row.0 == body.agentId && row.1 == body.scopeId && (body.agentId, row.2) in ctx.createdVirtual
  {
    hide RegisterAll, RegisterAllLegacy, AllClaimed;
    DistinctTimelines(ctx, body);
    var tx := RegisterAll(ctx, ctx.guard.value, body, Tx(t, map[]), body.timelines).value;
    RegisterAllClaims(ctx, ctx.guard.value, body, Tx(t, map[]), body.timelines);
    LegacyClaims(ctx, body, tx, body.legacyUuids);
    mid := tx.tables;
  }

  /** A new scope row is for a node the request inserted, or one the caller can claim. */
  lemma NewScopeRow(t: Tables, ctx: Context, body: Body, row: (string, string, NodeId))
    requires BodyOk(ctx, body) && Registered(t, ctx, body).Ok?
    requires row in Registered(t, ctx, body).value.tables.scopes && row !in t.scopes
    ensures row.0 == ctx.principal && row.1 == body.scopeId
    ensures row.2 !in t.nodes || Claimable(t, ctx, body.scopeId, row.2)
  {
    hide Registered, TimelinesOk, AllOk, NoDuplicates;
    var mid := RegistrationClaims(t, ctx, body);
    if row in mid.scopes {
      var i :| 0 <= i < |body.timelines| && body.timelines[i].nodeUuid == row.2;
      assert TimelineClaimed(t, ctx, body, body.timelines[i], mid);
    }
  }

  /** Every call of the request is within reach. */
  lemma CallsInReach(t: Tables, ctx: Context, body: Body, i: nat)
    requires BodyOk(ctx, body) && Registered(t, ctx, body).Ok? && ListsRows(ctx)
    requires i < |Jobs(ctx, body, Registered(t, ctx, body).value)|
    ensures InReach(t, ctx, body, Jobs(ctx, body, Registered(t, ctx, body).value)[i].target)
  {
    hide Registered, TimelinesOk, AllOk, NoDuplicates, Jobs, ListsRows;
    var tx := Registered(t, ctx, body).value;
    CallsAreListed(ctx, body, tx, i);
    var n := Jobs(ctx, body, tx)[i].target;
    forall row | row in tx.tables.scopes && row !in t.scopes
      ensures row.1 == body.scopeId && (row.2 !in t.nodes || Claimable(t, ctx, body.scopeId, row.2))
    {
      NewScopeRow(t, ctx, body, row);
    }
  }

  /** An accepted request stays within its caller's authority. */
  lemma SnapshotWithinAuthority(t: Tables, ctx: Context, body: Body)
    requires ListsRows(ctx) && SnapshotTx(t, ctx, body).Some?
    ensures WithinAuthority(t, ctx, body, SnapshotTx(t, ctx, body).value.0)
  {
    hide Registered, RunJobs, Jobs, TimelinesOk, AllOk, NoDuplicates, ListsRows, InReach, Claimable, NamedBy;
    var tx, t' := Registered(t, ctx, body).value, SnapshotTx(t, ctx, body).value.0;
    var mid := RegistrationClaims(t, ctx, body);
    forall row | row in t'.scopes && row !in t.scopes
      ensures row.0 == ctx.principal && row.1 == body.scopeId
      ensures row.2 !in t.nodes || Claimable(t, ctx, body.scopeId, row.2)
    {
      RequestTouches(t, ctx, body, row.2);
      NewScopeRow(t, ctx, body, row);
    }
    forall n ensures NodeWithin(t, ctx, body, t', n) {
      NodeIsWithin(t, ctx, body, mid, n);
    }
    forall k: Key
      ensures RowKept(t.edges, t'.edges, k) || (k.rel == ProjectSidecar && InReach(t, ctx, body, k.target))
    {
      RequestTouches(t, ctx, body, k.target);
      RegisteredKeeps(t, ctx, body);
    }
    RequestTouches(t, ctx, body, "");
    forall i | 0 <= i < |body.timelines| ensures TimelineWithin(t, ctx, body, body.timelines[i], t') {
      TimelineIsWithin(t, ctx, body, mid, i);
    }
  }

  /** What the calls make of node n, by itself. */
  lemma RequestTouches(t: Tables, ctx: Context, body: Body, n: NodeId)
    requires ListsRows(ctx) && SnapshotTx(t, ctx, body).Some?
    ensures var t1, t' := Registered(t, ctx, body).value.tables, SnapshotTx(t, ctx, body).value.0;
            && t' == t1.(nodes := t'.nodes, edges := t'.edges) && t'.nodes.Keys == t1.nodes.Keys
            && (n in t1.nodes ==> t'.nodes[n] == t1.nodes[n].(status := t'.nodes[n].status))
            && (forall k: Key :: k.rel != ProjectSidecar ==> RowKept(t1.edges, t'.edges, k))
            && (!InReach(t, ctx, body, n) ==>
                  && (n in t1.nodes ==> t'.nodes[n] == t1.nodes[n])
                  && forall k: Key :: k.target == n ==> RowKept(t1.edges, t'.edges, k))
  {
    hide Registered, RunJobs, Jobs, TimelinesOk, AllOk, NoDuplicates, ListsRows, InReach, RowKept;
    var tx := Registered(t, ctx, body).value;
    var jobs := Jobs(ctx, body, tx);
    JobsTouch(tx.tables, Stats(0, 0, 0, 0, CountUnresolved(body.memberships), 0), jobs,
              SourceRows(t, ctx, body.memberships), n);
    forall i | 0 <= i < |jobs| && !InReach(t, ctx, body, n) ensures jobs[i].target != n {
      CallsInReach(t, ctx, body, i);
    }
  }

  lemma NodeIsWithin(t: Tables, ctx: Context, body: Body, mid: Tables, n: NodeId)
    requires ListsRows(ctx) && SnapshotTx(t, ctx, body).Some? && AllClaimed(t, ctx, body, body.timelines, mid)
    requires Registered(t, ctx, body).value.tables.nodes == mid.nodes
    ensures NodeWithin(t, ctx, body, SnapshotTx(t, ctx, body).value.0, n)
  {
    hide Registered, RunJobs, Jobs, TimelinesOk, AllOk, NoDuplicates, ListsRows, InReach;
    RequestTouches(t, ctx, body, n);
    if NamedBy(body.timelines, n) {
      var i :| 0 <= i < |body.timelines| && body.timelines[i].nodeUuid == n;
      assert TimelineClaimed(t, ctx, body, body.timelines[i], mid);
      ClaimReaches(t, ctx, body, n);
    }
  }

  lemma ClaimReaches(t: Tables, ctx: Context, body: Body, n: NodeId)
    ensures Claimable(t, ctx, body.scopeId, n) ==> InReach(t, ctx, body, n)
  {
  }

  lemma TimelineIsWithin(t: Tables, ctx: Context, body: Body, mid: Tables, i: nat)
    requires ListsRows(ctx) && SnapshotTx(t, ctx, body).Some? && AllClaimed(t, ctx, body, body.timelines, mid)
    requires Registered(t, ctx, body).value.tables.nodes == mid.nodes && i < |body.timelines|
    requires mid.scopes <= Registered(t, ctx, body).value.tables.scopes
    ensures TimelineWithin(t, ctx, body, body.timelines[i], SnapshotTx(t, ctx, body).value.0)
  {
    hide Registered, RunJobs, Jobs, TimelinesOk, AllOk, NoDuplicates, ListsRows, InReach;
    RequestTouches(t, ctx, body, body.timelines[i].nodeUuid);
    assert TimelineClaimed(t, ctx, body, body.timelines[i], mid);
  }

  // ---- Over a run ----

  datatype Request = Request(ctx: Context, body: Body)

  ghost function Post(t: Tables, r: Request): Tables {
    if SnapshotTx(t, r.ctx, r.body).Some? then SnapshotTx(t, r.ctx, r.body).value.0 else t
  }

  ghost function PostAll(t: Tables, rs: seq<Request>): Tables
    decreases |rs|
  {
    if rs == [] then t else PostAll(Post(t, rs[0]), rs[1..])
  }

  /** Node n is on record and no business of this device: in none of its scopes. */
  predicate Foreign(t: Tables, device: string, n: NodeId) {
    n in t.nodes && forall row :: row in t.scopes ==> !(row.0 == device && row.2 == n)
  }

  lemma OneSnapshotLeavesForeignAlone(t: Tables, device: string, r: Request, n: NodeId)
    requires Foreign(t, device, n)
    requires r.ctx.principal == device && ListsRows(r.ctx) && (device, n) !in r.ctx.createdVirtual
    ensures var t' := Post(t, r);
            && Foreign(t', device, n) && t'.nodes[n] == t.nodes[n]
            && forall k: Key :: k.target == n ==> RowKept(t.edges, t'.edges, k)
  {
    hide SnapshotTx, ListsRows, InReach, Claimable, RowKept;
    OutOfReach(t, r, device, n);
    if SnapshotTx(t, r.ctx, r.body).Some? {
      SnapshotWithinAuthority(t, r.ctx, r.body);
      var t' := Post(t, r);
      assert NodeWithin(t, r.ctx, r.body, t', n);
    } else {
      RowsKept(t.edges);
    }
  }

  lemma RowsKept(edges: map<Key, Edge>)
    ensures forall k: Key :: RowKept(edges, edges, k)
  {
  }

  /** However many snapshots a device posts, whatever they name: a node that is in none of its
      scopes and that no processed event of it created keeps its row, name and status included,
      and every edge into it -- and stays out of its scopes. */
  lemma {:induction false} SnapshotsLeaveForeignAlone(t: Tables, device: string, rs: seq<Request>, n: NodeId)
    requires Foreign(t, device, n)
    requires forall i :: 0 <= i < |rs| ==>
               rs[i].ctx.principal == device && ListsRows(rs[i].ctx) && (device, n) !in rs[i].ctx.createdVirtual
    ensures var t' := PostAll(t, rs);
            && Foreign(t', device, n) && t'.nodes[n] == t.nodes[n]
            && forall k: Key :: k.target == n ==> RowKept(t.edges, t'.edges, k)
    decreases |rs|
  {
    hide SnapshotTx, ListsRows;
    if rs != [] {
      var r := rs[0];
      OneSnapshotLeavesForeignAlone(t, device, r, n);
      SnapshotsLeaveForeignAlone(Post(t, r), device, rs[1..], n);
    }
  }

  lemma OutOfReach(t: Tables, r: Request, device: string, n: NodeId)
    requires Foreign(t, device, n) && r.ctx.principal == device && (device, n) !in r.ctx.createdVirtual
    ensures !InReach(t, r.ctx, r.body, n) && !Claimable(t, r.ctx, r.body.scopeId, n)
  {
  }
}
