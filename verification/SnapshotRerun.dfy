/**
  Sending the same snapshot request again. The first one settles every row it speaks for, so
  the second is accepted, writes nothing and counts nothing created, refreshed or removed.
 */
module SnapshotRerun {
  import opened Wrappers
  import opened Reachability
  import opened Store
  import opened Snapshot
  import opened SnapshotRequest

  // ---- One call on settled rows ----

  /** The rows already are what the call would make them. */
  ghost predicate SettledFor(edges: map<Key, Edge>, j: Job, sources: map<NodeId, Lifecycle>) {
    && (forall m :: m in j.members ==>
          !Unusable(edges, j.target, m, sources) && FateOf(edges, j.target, m) !in {Create, Refresh})
    && (forall k :: k in ListResolveEdges(edges, j.target) ==>
          DetachmentOf(edges, j.timelineId, Sources(j.members), j.protectedPaths, k) !in {Broken, Remove})
  }

  /** ...which only the timeline's own incoming rows decide. */
  lemma SettledIsLocal(edges: map<Key, Edge>, edges': map<Key, Edge>, j: Job, sources: map<NodeId, Lifecycle>)
    requires SettledFor(edges, j, sources) && SameIncoming(edges, edges', j.target)
    ensures SettledFor(edges', j, sources)
  {
    forall k | k in ListResolveEdges(edges', j.target)
      ensures DetachmentOf(edges', j.timelineId, Sources(j.members), j.protectedPaths, k) !in {Broken, Remove}
    {
      assert k in ListResolveEdges(edges, j.target);
    }
  }

  lemma CallSettles(t: Tables, j: Job, sources: map<NodeId, Lifecycle>)
    requires DistinctSources(j.members) && !JobRefused(t, j, sources)
    ensures SettledFor(RunJob(t, j).edges, j, sources)
  {
    hide WouldCreateCycle, StatusOf;
    RerunIsIdle(t, j.target, j.timelineId, j.members, j.protectedPaths, sources);
    var rows := RunJob(t, j).edges;
    forall m | m in j.members
      ensures !Unusable(rows, j.target, m, sources) && FateOf(rows, j.target, m) !in {Create, Refresh}
    {
      assert !MemberRefused(RunJob(t, j), j.target, m, sources);
      assert m !in WithFate(rows, j.target, j.members, Create) && m !in WithFate(rows, j.target, j.members, Refresh);
    }
    forall k | k in ListResolveEdges(rows, j.target)
      ensures DetachmentOf(rows, j.timelineId, Sources(j.members), j.protectedPaths, k) !in {Broken, Remove}
    {
      assert k !in Gone(rows, j.target, j.timelineId, Sources(j.members), j.protectedPaths);
    }
  }

  /** Created, refreshed and removed stay where they were. */
  predicate NothingDone(stats: Stats, stats': Stats) {
    stats'.created == stats.created && stats'.refreshed == stats.refreshed && stats'.removed == stats.removed
    && stats'.unresolved == stats.unresolved
  }

  lemma SettledRowsStay(edges: map<Key, Edge>, j: Job, sources: map<NodeId, Lifecycle>)
    requires SettledFor(edges, j, sources) && DistinctSources(j.members)
    ensures Gone(edges, j.target, j.timelineId, Sources(j.members), j.protectedPaths) == {}
    ensures RowsAfter(edges, j.target, j.members, {}) == edges
  {
    var again := RowsAfter(edges, j.target, j.members, {});
    forall k | k in again ensures k in edges && again[k] == edges[k] {
      if IsMemberKey(j.target, j.members, k) {
        var m :| m in j.members && m.source == k.source;
        assert k == SidecarKey(m.source, j.target);
        EvidenceIsTheMembers(j.members, m);
      }
    }
    assert again.Keys == edges.Keys;
  }

  lemma SettledCounts(edges: map<Key, Edge>, j: Job, sources: map<NodeId, Lifecycle>, stats: Stats)
    requires SettledFor(edges, j, sources)
    ensures var listed := ListResolveEdges(edges, j.target);
            NothingDone(stats, StatsAfter(stats, edges, j.target, j.timelineId, Sources(j.members), j.protectedPaths,
                                          j.members, listed))
  {
    hide DetachmentOf, FateOf, Unusable;
    assert WithFate(edges, j.target, j.members, Create) == {} == WithFate(edges, j.target, j.members, Refresh);
    var listed := ListResolveEdges(edges, j.target);
    assert WithDetachment(edges, j.timelineId, Sources(j.members), j.protectedPaths, listed, Remove) == {};
  }

  lemma SettledCallIsIdle(t: Tables, j: Job, sources: map<NodeId, Lifecycle>, stats: Stats)
    requires SettledFor(t.edges, j, sources) && DistinctSources(j.members) && StatusDerived(t)
    ensures !JobRefused(t, j, sources) && RunJob(t, j) == t && NothingDone(stats, JobStats(stats, t, j))
  {
    hide WouldCreateCycle, StatusOf, DetachmentOf, RowsAfter, Gone, FateOf, Unusable, NothingDone;
    SettledRowsStay(t.edges, j, sources);
    SettledCounts(t.edges, j, sources, stats);
    assert !JobRefused(t, j, sources);
    RecomputeIdle(t, j.target);
  }

  // ---- All calls of a request ----

  /** Two calls for one timeline are the same call. */
  ghost predicate OnePerTarget(jobs: seq<Job>) {
    forall i, k :: 0 <= i < k < |jobs| && jobs[i].target == jobs[k].target ==> jobs[i] == jobs[k]
  }

  lemma {:induction false} LaterCallsKeepSettled(t: Tables, stats: Stats, jobs: seq<Job>,
                                                  sources: map<NodeId, Lifecycle>, j: Job)
    requires RunJobs(t, stats, jobs, sources).Some? && JobsDistinct(jobs) && SettledFor(t.edges, j, sources)
    requires forall i :: 0 <= i < |jobs| && jobs[i].target == j.target ==> jobs[i] == j
    ensures SettledFor(RunJobs(t, stats, jobs, sources).value.0.edges, j, sources)
    decreases |jobs|
  {
    hide SettledFor, JobRefused, RunJob, JobStats;
    if jobs != [] {
      var next := RunJob(t, jobs[0]);
      if jobs[0].target == j.target {
        CallSettles(t, j, sources);
      } else {
        OtherTargetUntouched(t, jobs[0], j.target);
        SettledIsLocal(t.edges, next.edges, j, sources);
      }
      LaterCallsKeepSettled(next, JobStats(stats, t, jobs[0]), jobs[1..], sources, j);
    }
  }

  lemma OtherTargetUntouched(t: Tables, j: Job, n: NodeId)
    requires j.target != n
    ensures SameIncoming(t.edges, RunJob(t, j).edges, n)
  {
    hide StatusOf;
    RowsAfterKeeps(t.edges, j.target, j.timelineId, j.members, j.protectedPaths);
  }

  lemma {:induction false} AllSettled(t: Tables, stats: Stats, jobs: seq<Job>, sources: map<NodeId, Lifecycle>, i: nat)
    requires RunJobs(t, stats, jobs, sources).Some? && JobsDistinct(jobs) && OnePerTarget(jobs) && i < |jobs|
    ensures SettledFor(RunJobs(t, stats, jobs, sources).value.0.edges, jobs[i], sources)
    decreases |jobs|
  {
    hide SettledFor, JobRefused, RunJob, JobStats;
    var next, rest := RunJob(t, jobs[0]), jobs[1..];
    if i == 0 {
      CallSettles(t, jobs[0], sources);
      LaterCallsKeepSettled(next, JobStats(stats, t, jobs[0]), rest, sources, jobs[0]);
    } else {
      AllSettled(next, JobStats(stats, t, jobs[0]), rest, sources, i - 1);
    }
  }

  lemma {:induction false} SettledRunIsIdle(t: Tables, stats: Stats, jobs: seq<Job>, sources: map<NodeId, Lifecycle>)
    requires StatusDerived(t) && JobsDistinct(jobs)
    requires forall i :: 0 <= i < |jobs| ==> SettledFor(t.edges, jobs[i], sources)
    ensures var r := RunJobs(t, stats, jobs, sources); r.Some? && r.value.0 == t && NothingDone(stats, r.value.1)
    decreases |jobs|
  {
    hide SettledFor, JobRefused, RunJob, JobStats, StatusesMatch;
    if jobs != [] {
      SettledCallIsIdle(t, jobs[0], sources, stats);
      SettledRunIsIdle(t, JobStats(stats, t, jobs[0]), jobs[1..], sources);
    }
  }

  /** The sources are looked up again; for the members that matter the answer is the same. */
  lemma SettledAgain(edges: map<Key, Edge>, j: Job, sources: map<NodeId, Lifecycle>, sources': map<NodeId, Lifecycle>)
    requires SettledFor(edges, j, sources)
    requires forall n :: n in sources ==> n in sources' && sources'[n] == sources[n]
    ensures SettledFor(edges, j, sources')
  {
    hide FateOf, DetachmentOf;
  }

  // ---- Registration and lookups the second time ----

  lemma JobsAreOnePerTarget(ctx: Context, body: Body, tx: Tx)
    requires BodyOk(ctx, body) && ListsRows(ctx)
    ensures OnePerTarget(Jobs(ctx, body, tx))
  {
    hide BodyOk, ScopeRows;
    var rows := ScopeRows(tx.tables, body.agentId, body.scopeId);
    var ids, retired := ctx.listing(rows), ctx.listing(ScopeRows(tx.tables, body.agentId, body.retireScopeId));
    assert Lists(ids, rows);
    var first, jobs := ScopeJobs(ctx, body.memberships, tx.targets, ids), Jobs(ctx, body, tx);
    RetireJobsEmpty(tx.targets, retired);
    NobodyWantsUnnamed(ctx, body);
    RetireJobsShape(tx.targets, retired);
    assert forall x :: 0 <= x < |first| ==> jobs[x].target == ids[x];
    forall i, k | 0 <= i < k < |jobs| && jobs[i].target == jobs[k].target ensures jobs[i] == jobs[k] {
      if k >= |first| {
        assert jobs[k] in RetiredJobs(ctx, body, tx);
        assert jobs[k] == Job(jobs[k].target, "", {}, {}) && jobs[k].target !in tx.targets;
        if i < |first| {
          assert jobs[i] == JobOf(ctx, body.memberships, tx.targets, ids[i]);
        } else {
          assert jobs[i] in RetiredJobs(ctx, body, tx);
        }
      }
    }
  }

  lemma RetireJobsShape(targets: map<NodeId, string>, ids: seq<NodeId>)
    ensures forall j :: j in RetireJobs(targets, ids) ==> j == Job(j.target, "", {}, {})
  {
  }

  /** No member can name the empty timeline. */
  lemma NobodyWantsUnnamed(ctx: Context, body: Body)
    requires BodyOk(ctx, body)
    ensures ResolvedMembers(ctx, body.memberships, "") == {} && UnresolvedPaths(body.memberships, "") == {}
  {
  }

  /** The tables after a registered timeline: on record under its path, name and scope. */
  ghost predicate OnRecord(t: Tables, ctx: Context, body: Body, tl: TimelineIn) {
    && tl.nodeUuid in t.nodes && t.nodes[tl.nodeUuid].path == tl.filePath
    && t.nodes[tl.nodeUuid].fileName == tl.displayName
    && (body.agentId, body.scopeId, tl.nodeUuid) in t.scopes
  }

  lemma RegisterOnce(ctx: Context, guard: string -> Option<Location>, body: Body, tx: Tx, tl: TimelineIn)
    requires RegisterTimeline(ctx, guard, body, tx, tl).Ok?
    ensures var tx' := RegisterTimeline(ctx, guard, body, tx, tl).value;
            && OnRecord(tx'.tables, ctx, body, tl) && tx'.targets == tx.targets[tl.nodeUuid := tl.timelineId]
            && tx.tables.scopes <= tx'.tables.scopes
            && forall n :: n in tx.tables.nodes && n != tl.nodeUuid ==>
              n in tx'.tables.nodes && tx'.tables.nodes[n] == tx.tables.nodes[n]
  {
    hide Collides;
  }

  lemma RegisterAgain(ctx: Context, guard: string -> Option<Location>, body: Body, tx: Tx, tl: TimelineIn)
    requires OnRecord(tx.tables, ctx, body, tl)
    ensures RegisterTimeline(ctx, guard, body, tx, tl) == Ok(Tx(tx.tables, tx.targets[tl.nodeUuid := tl.timelineId]))
  {
    var t, n := tx.tables, tl.nodeUuid;
    assert t.nodes[n := t.nodes[n].(fileName := tl.displayName)] == t.nodes;
    assert t.scopes + {(body.agentId, body.scopeId, n)} == t.scopes;
  }

  ghost predicate DistinctNodes(tls: seq<TimelineIn>) {
    forall i, k :: 0 <= i < k < |tls| ==> tls[i].nodeUuid != tls[k].nodeUuid
  }

  /** All timelines of the body are on record after the first registration... */
  lemma {:induction false} RegisterAllOnce(ctx: Context, guard: string -> Option<Location>, body: Body, tx: Tx,
                                           tls: seq<TimelineIn>, i: nat)
    requires RegisterAll(ctx, guard, body, tx, tls).Ok? && DistinctNodes(tls) && i < |tls|
    ensures OnRecord(RegisterAll(ctx, guard, body, tx, tls).value.tables, ctx, body, tls[i])
    decreases |tls|
  {
    hide RegisterTimeline;
    var next := RegisterTimeline(ctx, guard, body, tx, tls[0]).value;
    RegisterOnce(ctx, guard, body, tx, tls[0]);
    if i == 0 {
      RegisterOthers(ctx, guard, body, next, tls[1..], tls[0].nodeUuid);
    } else {
      RegisterAllOnce(ctx, guard, body, next, tls[1..], i - 1);
    }
  }

  lemma {:induction false} RegisterOthers(ctx: Context, guard: string -> Option<Location>, body: Body, tx: Tx,
                                          tls: seq<TimelineIn>, n: NodeId)
    requires RegisterAll(ctx, guard, body, tx, tls).Ok? && n in tx.tables.nodes
    requires forall i :: 0 <= i < |tls| ==> tls[i].nodeUuid != n
    ensures var t' := RegisterAll(ctx, guard, body, tx, tls).value.tables;
            n in t'.nodes && t'.nodes[n] == tx.tables.nodes[n] && tx.tables.scopes <= t'.scopes
    decreases |tls|
  {
    hide RegisterTimeline;
    if tls != [] {
      RegisterOnce(ctx, guard, body, tx, tls[0]);
      RegisterOthers(ctx, guard, body, RegisterTimeline(ctx, guard, body, tx, tls[0]).value, tls[1..], n);
    }
  }

  /** ...so the second registration finds the same targets and writes nothing. */
  lemma {:induction false} RegisterAllAgain(ctx: Context, guard: string -> Option<Location>, body: Body, tx: Tx,
                                            first: Tx, tls: seq<TimelineIn>)
    requires RegisterAll(ctx, guard, body, first, tls).Ok? && tx.targets == first.targets
    requires forall i :: 0 <= i < |tls| ==> OnRecord(tx.tables, ctx, body, tls[i])
    ensures RegisterAll(ctx, guard, body, tx, tls)
            == Ok(Tx(tx.tables, RegisterAll(ctx, guard, body, first, tls).value.targets))
    decreases |tls|
  {
    hide RegisterTimeline;
    if tls != [] {
      RegisterOnce(ctx, guard, body, first, tls[0]);
      RegisterAgain(ctx, guard, body, tx, tls[0]);
      RegisterAllAgain(ctx, guard, body, RegisterTimeline(ctx, guard, body, tx, tls[0]).value,
                       RegisterTimeline(ctx, guard, body, first, tls[0]).value, tls[1..]);
    }
  }

  /** A legacy timeline is claimed the second time as it was the first. */
  lemma {:induction false} LegacyAgain(ctx: Context, body: Body, first: Tx, tx: Tx, ids: seq<string>)
    requires RegisterAllLegacy(ctx, body, first, ids).Ok? && tx.targets == first.targets
    requires first.tables.nodes.Keys <= tx.tables.nodes.Keys
    requires RegisterAllLegacy(ctx, body, first, ids).value.tables.scopes <= tx.tables.scopes
    ensures RegisterAllLegacy(ctx, body, tx, ids) == Ok(tx)
    decreases |ids|
  {
    if ids != [] {
      var next := RegisterLegacy(ctx, body, first, ids[0]).value;
      RegisterAllLegacyKeeps(ctx, body, next, ids[1..]);
      assert RegisterLegacy(ctx, body, tx, ids[0]).Ok? && RegisterLegacy(ctx, body, tx, ids[0]).value == tx by {
        var row := (body.agentId, body.scopeId, ids[0]);
        if ids[0] !in first.targets {
          assert row in next.tables.scopes;
          assert tx.tables.scopes + {row} == tx.tables.scopes;
        }
      }
      LegacyAgain(ctx, body, next, tx, ids[1..]);
    }
  }

  // ---- The request again ----

  /** What the calls of a request leave in place besides edges and statuses. */
  ghost predicate SameButStatus(t: Tables, t': Tables) {
    && t'.scopes == t.scopes && t'.nodes.Keys == t.nodes.Keys
    && forall n :: n in t.nodes ==> t'.nodes[n] == t.nodes[n].(status := t'.nodes[n].status)
  }

  lemma {:induction false} JobsKeepNodes(t: Tables, stats: Stats, jobs: seq<Job>, sources: map<NodeId, Lifecycle>)
    requires RunJobs(t, stats, jobs, sources).Some?
    ensures SameButStatus(t, RunJobs(t, stats, jobs, sources).value.0)
    decreases |jobs|
  {
    hide JobRefused, RunJob, JobStats;
    if jobs != [] {
      CallKeepsNodes(t, jobs[0]);
      JobsKeepNodes(RunJob(t, jobs[0]), JobStats(stats, t, jobs[0]), jobs[1..], sources);
    }
  }

  lemma CallKeepsNodes(t: Tables, j: Job)
    ensures SameButStatus(t, RunJob(t, j))
  {
    hide StatusOf, RowsAfter;
  }

  lemma DistinctTimelines(ctx: Context, body: Body)
    requires BodyOk(ctx, body)
    ensures DistinctNodes(body.timelines)
  {
  }

  /** The second registration, on the tables the first request left. */
  lemma RegisteredAgain(t: Tables, ctx: Context, body: Body, t': Tables)
    requires BodyOk(ctx, body) && Registered(t, ctx, body).Ok?
    requires SameButStatus(Registered(t, ctx, body).value.tables, t')
    ensures Registered(t', ctx, body) == Ok(Tx(t', Registered(t, ctx, body).value.targets))
  {
    hide RegisterAll, RegisterAllLegacy, TimelinesOk, AllOk, NoDuplicates, OnRecord;
    var guard := ctx.guard.value;
    var first := RegisterAll(ctx, guard, body, Tx(t, map[]), body.timelines).value;
    DistinctTimelines(ctx, body);
    RegisterAllLegacyKeeps(ctx, body, first, body.legacyUuids);
    forall i | 0 <= i < |body.timelines| ensures OnRecord(t', ctx, body, body.timelines[i]) {
      RegisterAllOnce(ctx, guard, body, Tx(t, map[]), body.timelines, i);
      OnRecordStays(first.tables, t', ctx, body, body.timelines[i]);
    }
    RegisterAllAgain(ctx, guard, body, Tx(t', map[]), Tx(t, map[]), body.timelines);
    LegacyAgain(ctx, body, first, Tx(t', first.targets), body.legacyUuids);
  }

  lemma OnRecordStays(t: Tables, t': Tables, ctx: Context, body: Body, tl: TimelineIn)
    requires OnRecord(t, ctx, body, tl) && t.scopes <= t'.scopes && t.nodes.Keys <= t'.nodes.Keys
    requires forall n :: n in t.nodes ==> t'.nodes[n] == t.nodes[n].(status := t'.nodes[n].status)
    ensures OnRecord(t', ctx, body, tl)
  {
  }

  /** Registration never changes the lifecycle of a node it finds. */
  lemma {:induction false} RegisterKeepsLifecycles(ctx: Context, guard: string -> Option<Location>, body: Body, tx: Tx,
                                                   tls: seq<TimelineIn>)
    requires RegisterAll(ctx, guard, body, tx, tls).Ok?
    ensures var t' := RegisterAll(ctx, guard, body, tx, tls).value.tables;
            forall n :: n in tx.tables.nodes ==> n in t'.nodes && t'.nodes[n].lifecycle == tx.tables.nodes[n].lifecycle
    decreases |tls|
  {
    if tls != [] {
      RegisterKeepsLifecycles(ctx, guard, body, RegisterTimeline(ctx, guard, body, tx, tls[0]).value, tls[1..]);
    }
  }

  lemma SourcesAgain(t: Tables, t': Tables, ctx: Context, ms: seq<MembershipIn>)
    requires forall n :: n in t.nodes ==> n in t'.nodes && t'.nodes[n].lifecycle == t.nodes[n].lifecycle
    ensures forall n :: n in SourceRows(t, ctx, ms) ==>
      n in SourceRows(t', ctx, ms) && SourceRows(t', ctx, ms)[n] == SourceRows(t, ctx, ms)[n]
  {
  }

  /** The same request, sent again after it was accepted, is accepted again: it leaves every
      table as it is and reports nothing created, nothing refreshed, nothing removed. */
  lemma RequestRerunIsIdle(t: Tables, ctx: Context, body: Body)
    requires ListsRows(ctx) && Referential(t) && StatusDerived(t) && SnapshotTx(t, ctx, body).Some?
    ensures var t' := SnapshotTx(t, ctx, body).value.0;
            var again := SnapshotTx(t', ctx, body);
            && again.Some? && again.value.0 == t'
            && again.value.1.created == 0 && again.value.1.refreshed == 0 && again.value.1.removed == 0
            && again.value.1.unresolved == CountUnresolved(body.memberships)
  {
    hide TimelinesOk, AllOk, NoDuplicates, Registered, RunJobs, Jobs, SourceRows, StatusesMatch, EndpointsKnown,
         ListsRows, SameButStatus, ScopeRows,
         JobsDistinct, OnePerTarget, SettledFor;
    var tx, zero := Registered(t, ctx, body).value, Stats(0, 0, 0, 0, CountUnresolved(body.memberships), 0);
    var jobs, sources := Jobs(ctx, body, tx), SourceRows(t, ctx, body.memberships);
    var t' := SnapshotTx(t, ctx, body).value.0;
    SnapshotKeeps(t, ctx, body);
    JobsKeepNodes(tx.tables, zero, jobs, sources);
    RegisteredAgain(t, ctx, body, t');
    JobsAgain(ctx, body, tx, t');
    JobsReady(ctx, body, tx);
    LifecyclesKept(t, ctx, body, t');
    SourcesAgain(t, t', ctx, body.memberships);
    forall i | 0 <= i < |jobs| ensures SettledFor(t'.edges, jobs[i], SourceRows(t', ctx, body.memberships)) {
      AllSettled(tx.tables, zero, jobs, sources, i);
      SettledAgain(t'.edges, jobs[i], sources, SourceRows(t', ctx, body.memberships));
    }
    SettledRunIsIdle(t', zero, jobs, SourceRows(t', ctx, body.memberships));
  }

  lemma JobsReady(ctx: Context, body: Body, tx: Tx)
    requires BodyOk(ctx, body) && ListsRows(ctx)
    ensures JobsDistinct(Jobs(ctx, body, tx)) && OnePerTarget(Jobs(ctx, body, tx))
  {
    hide OnePerTarget, JobsDistinct, Jobs, ListsRows, NoDuplicates, AllOk, TimelinesOk;
    JobsAreDistinct(ctx, body, tx);
    JobsAreOnePerTarget(ctx, body, tx);
  }

  lemma JobsAgain(ctx: Context, body: Body, tx: Tx, t': Tables)
    requires SameButStatus(tx.tables, t')
    ensures Jobs(ctx, body, Tx(t', tx.targets)) == Jobs(ctx, body, tx)
  {
    assert ScopeRows(t', body.agentId, body.scopeId) == ScopeRows(tx.tables, body.agentId, body.scopeId);
    assert ScopeRows(t', body.agentId, body.retireScopeId) == ScopeRows(tx.tables, body.agentId, body.retireScopeId);
  }

  lemma LifecyclesKept(t: Tables, ctx: Context, body: Body, t': Tables)
    requires ctx.guard.Some? && Registered(t, ctx, body).Ok? && SameButStatus(Registered(t, ctx, body).value.tables, t')
    ensures forall n :: n in t.nodes ==> n in t'.nodes && t'.nodes[n].lifecycle == t.nodes[n].lifecycle
  {
    hide RegisterAll, RegisterAllLegacy;
    var first := RegisterAll(ctx, ctx.guard.value, body, Tx(t, map[]), body.timelines).value;
    RegisterKeepsLifecycles(ctx, ctx.guard.value, body, Tx(t, map[]), body.timelines);
    RegisterAllLegacyKeeps(ctx, body, first, body.legacyUuids);
  }
}
