/**
  Every writer at once: runs that interleave engine passes, agent events, Resolve snapshots,
  manual links, reviews, resets and uploads in any order. The writer pool is one connection
  and InTx is all-or-nothing, so a run is a sequence of steps, each leaving its tables or
  none.
 */
module Runs {
  import opened Wrappers
  import opened Reachability
  import opened Store
  import opened Engine
  import opened AgentEvents
  import opened AgentRules
  import opened AgentAuthority
  import opened EventQueue
  import S = Snapshot
  import R = SnapshotRequest
  import H = EdgeHandlers

  datatype Step =
    | ResolvePass(candidates: seq<Candidate>)
    | AgentEvent(delivery: Delivery)
    | ResolveSnapshot(ctx: R.Context, body: R.Body)
    | ManualLink(isProjectFile: string -> bool, k: Key)
    | ReviewEdge(k: Key, confirmed: bool)
    | ResetReview(k: Key)
    | UploadOf(master: NodeId, masterRow: Node, creator: string, export_: NodeId, exportRow: Node)
    | InPlaceWrite(n: NodeId, mtime: int)

  /** The tables after a step: what it commits, or what it found. */
  ghost function Take(t: Tables, step: Step): Tables
    requires Indexed(t)
  {
    match step
    case ResolvePass(cs) => if EnginePass(t, cs).Ok? then EnginePass(t, cs).value.tables else t
    case AgentEvent(d) => Deliver(t, d)
    case ResolveSnapshot(ctx, body) =>
      if R.SnapshotTx(t, ctx, body).Some? then R.SnapshotTx(t, ctx, body).value.0 else t
    case ManualLink(isProjectFile, k) => H.CreateEdge(t, isProjectFile, k).GetOr(t)
    case ReviewEdge(k, confirmed) => H.Review(t, k, if confirmed then Confirmed else Rejected).GetOr(t)
    case ResetReview(k) => H.ResetReview(t, k).GetOr(t)
    case UploadOf(m, mRow, creator, x, xRow) => H.UploadExport(t, m, mRow, creator, x, xRow).GetOr(t)
    case InPlaceWrite(n, mtime) => RefreshAfterInPlaceWrite(t, n, mtime)
  }

  predicate Human(step: Step) {
    step.ManualLink? || step.ReviewEdge? || step.ResetReview?
  }

  // ---- The unique indexes under the writers that are not agents ----

  lemma {:induction false} JobsIndexed(t: Tables, stats: S.Stats, jobs: seq<R.Job>, sources: map<NodeId, Lifecycle>)
    requires Indexed(t) && R.RunJobs(t, stats, jobs, sources).Some?
    ensures Indexed(R.RunJobs(t, stats, jobs, sources).value.0)
    decreases |jobs|
  {
    hide NoClashes, StatusesMatch, EndpointsKnown, R.JobRefused, R.JobStats;
    if jobs != [] {
      var j := jobs[0];
      IndexedKept(t, R.RunJob(t, j));
      JobsIndexed(R.RunJob(t, j), R.JobStats(stats, t, j), jobs[1..], sources);
    }
  }

  lemma RegisterTimelineIndexed(ctx: R.Context, guard: string -> Option<Location>, body: R.Body, tx: R.Tx,
                                tl: R.TimelineIn)
    requires Indexed(tx.tables) && R.RegisterTimeline(ctx, guard, body, tx, tl).Ok?
    ensures Indexed(R.RegisterTimeline(ctx, guard, body, tx, tl).value.tables)
  {
    hide NoClashes, Clash;
    var t, n := tx.tables, tl.nodeUuid;
    var t' := R.RegisterTimeline(ctx, guard, body, tx, tl).value.tables;
    if n in t.nodes {
      IndexedKept(t, t');
    } else {
      IndexedWrite(t, n, R.TimelineNode(tl));
      IndexedKept(InsertMediaNode(t, n, R.TimelineNode(tl)).value, t');
    }
  }

  lemma {:induction false} RegisterAllIndexed(ctx: R.Context, guard: string -> Option<Location>, body: R.Body, tx: R.Tx,
                                              tls: seq<R.TimelineIn>)
    requires Indexed(tx.tables) && R.RegisterAll(ctx, guard, body, tx, tls).Ok?
    ensures Indexed(R.RegisterAll(ctx, guard, body, tx, tls).value.tables)
    decreases |tls|
  {
    hide NoClashes, R.RegisterTimeline;
    if tls != [] {
      RegisterTimelineIndexed(ctx, guard, body, tx, tls[0]);
      RegisterAllIndexed(ctx, guard, body, R.RegisterTimeline(ctx, guard, body, tx, tls[0]).value, tls[1..]);
    }
  }

  lemma SnapshotIndexed(t: Tables, ctx: R.Context, body: R.Body)
    requires Indexed(t) && R.SnapshotTx(t, ctx, body).Some?
    ensures Indexed(R.SnapshotTx(t, ctx, body).value.0)
  {
    hide NoClashes, R.RegisterAll, R.RegisterAllLegacy, R.RunJobs, R.Jobs, R.TimelinesOk, R.AllOk, R.NoDuplicates;
    var guard := ctx.guard.value;
    var tx := R.RegisterAll(ctx, guard, body, R.Tx(t, map[]), body.timelines).value;
    var registered := R.Registered(t, ctx, body).value;
    RegisterAllIndexed(ctx, guard, body, R.Tx(t, map[]), body.timelines);
    R.RegisterAllLegacyKeeps(ctx, body, tx, body.legacyUuids);
    JobsIndexed(registered.tables, S.Stats(0, 0, 0, 0, R.CountUnresolved(body.memberships), 0),
                R.Jobs(ctx, body, registered),
                R.SourceRows(t, ctx, body.memberships));
  }

  lemma UploadIndexed(t: Tables, master: NodeId, masterRow: Node, creator: string, export_: NodeId, exportRow: Node)
    requires Indexed(t) && H.UploadExport(t, master, masterRow, creator, export_, exportRow).Some?
    ensures Indexed(H.UploadExport(t, master, masterRow, creator, export_, exportRow).value)
  {
    hide NoClashes, Clash, Collides;
    var m := masterRow.(status := Unlinked, lifecycle := Active);
    var x := exportRow.(status := Linked, lifecycle := Active, fullHash := None);
    IndexedWrite(t, master, m);
    IndexedWrite(InsertMediaNode(t, master, m).value, export_, x);
  }

  lemma ReviewSound(t: Tables, k: Key, review: Review)
    requires Sound(t)
    ensures Sound(H.Review(t, k, review).GetOr(t))
  {
    hide StatusesMatch, EndpointsKnown, NoClashes, Clash, StatusOf;
    if H.Review(t, k, review).Ok? {
      H.ReviewKeeps(t, k, review);
      IndexedKept(t, H.Review(t, k, review).value);
    }
  }

  // ---- One step ----

  /** Whatever the step, the foreign keys, the unique indexes and the graph_status derivation
      survive it. */
  lemma StepSound(t: Tables, step: Step)
    requires Sound(t)
    ensures Sound(Take(t, step))
  {
    hide StatusesMatch, EndpointsKnown, NoClashes, Clash, R.SnapshotTx, H.UploadExport, H.Uploaded, EnginePass,
         ApplyEvent;
    match step {
      case ResolvePass(cs) =>
        if EnginePass(t, cs).Ok? {
          EnginePassSound(t, cs);
        }
      case AgentEvent(d) => DeliverSound(t, d);
      case ResolveSnapshot(ctx, body) =>
        if R.SnapshotTx(t, ctx, body).Some? {
          R.SnapshotKeeps(t, ctx, body);
          SnapshotIndexed(t, ctx, body);
        }
      case ManualLink(isProjectFile, k) =>
        if H.CreateEdge(t, isProjectFile, k).Ok? {
          H.CreateEdgeKeeps(t, isProjectFile, k);
          IndexedKept(t, Take(t, step));
        }
      case ReviewEdge(k, confirmed) => ReviewSound(t, k, if confirmed then Confirmed else Rejected);
      case ResetReview(k) => ReviewSound(t, k, NeedsReview);
      case UploadOf(m, mRow, creator, x, xRow) =>
        if H.UploadExport(t, m, mRow, creator, x, xRow).Some? {
          H.UploadExportShape(t, m, mRow, creator, x, xRow);
          H.UploadExportKeeps(t, Take(t, step), m, x);
          UploadIndexed(t, m, mRow, creator, x, xRow);
        }
      case InPlaceWrite(n, mtime) => InPlaceWriteSound(t, n, mtime);
    }
  }

  /** No machine step touches a human decision; a human step touches only the row it names. */
  lemma StepKeepsDecisions(t: Tables, step: Step)
    requires Sound(t)
    ensures !Human(step) ==> KeepsDecisions(t.edges, Take(t, step).edges)
    ensures Human(step) ==> forall k :: k in t.edges && k != step.k ==>
      k in Take(t, step).edges && Take(t, step).edges[k] == t.edges[k]
  {
    hide StatusesMatch, EndpointsKnown, NoClashes, Clash, R.SnapshotTx, H.UploadExport, H.Uploaded, EnginePass,
         ApplyEvent, StatusOf;
    match step {
      case ResolvePass(cs) =>
        if EnginePass(t, cs).Ok? {
          EnginePassKeeps(t, cs);
        }
      case AgentEvent(d) =>
        if ApplyEvent(t, d.w, d.ev).Ok? {
          EventKeeps(t, d.w, d.ev);
        }
      case ResolveSnapshot(ctx, body) =>
        if R.SnapshotTx(t, ctx, body).Some? {
          R.SnapshotKeeps(t, ctx, body);
        }
      case UploadOf(m, mRow, creator, x, xRow) =>
        if H.UploadExport(t, m, mRow, creator, x, xRow).Some? {
          H.UploadExportShape(t, m, mRow, creator, x, xRow);
          H.UploadExportKeeps(t, Take(t, step), m, x);
        }
      case _ =>
    }
  }

  /** The guard a snapshot's refreshes lack. Every other step carries its own. */
  ghost predicate StepGuarded(t: Tables, step: Step) {
    step.ResolveSnapshot? && R.SnapshotTx(t, step.ctx, step.body).Some? ==> R.SnapshotGuarded(t, step.ctx, step.body)
  }

  /** Acyclic when the step is done and, within a snapshot, after each of its reconcile calls. */
  ghost predicate StepAcyclic(t: Tables, step: Step)
    requires Indexed(t)
  {
    && AcyclicEdges(Take(t, step))
    && (step.ResolveSnapshot? && R.SnapshotTx(t, step.ctx, step.body).Some? ==>
          var tx := R.Registered(t, step.ctx, step.body).value;
          R.AcyclicThroughout(tx.tables, R.Jobs(step.ctx, step.body, tx)))
  }

  lemma StepAcyclicIff(t: Tables, step: Step)
    requires Sound(t) && AcyclicEdges(t)
    ensures StepAcyclic(t, step) <==> StepGuarded(t, step)
  {
    hide StatusesMatch, EndpointsKnown, NoClashes, Clash, Acyclic, R.RunJobs, R.AcyclicThroughout, R.SnapshotGuarded,
         R.Jobs, R.BodyOk,
         H.UploadExport, H.Uploaded, H.CreateEdge, H.Review, EnginePass, ApplyEvent, StatusOf;
    match step {
      case ResolvePass(cs) =>
        if EnginePass(t, cs).Ok? {
          EnginePassKeeps(t, cs);
        }
      case AgentEvent(d) => DeliverSound(t, d);
      case ResolveSnapshot(ctx, body) =>
        if R.SnapshotTx(t, ctx, body).Some? {
          R.SnapshotAcyclicIff(t, ctx, body);
        }
      case ManualLink(isProjectFile, k) =>
        if H.CreateEdge(t, isProjectFile, k).Ok? {
          H.CreateEdgeKeeps(t, isProjectFile, k);
        }
      case ReviewEdge(k, confirmed) =>
        var review := if confirmed then Confirmed else Rejected;
        if H.Review(t, k, review).Ok? {
          H.ReviewKeeps(t, k, review);
        }
      case ResetReview(k) =>
        if H.ResetReview(t, k).Ok? {
          H.ReviewKeeps(t, k, NeedsReview);
        }
      case UploadOf(m, mRow, creator, x, xRow) =>
        if H.UploadExport(t, m, mRow, creator, x, xRow).Some? {
          H.UploadExportShape(t, m, mRow, creator, x, xRow);
          H.UploadExportKeeps(t, Take(t, step), m, x);
        }
      case InPlaceWrite(_, _) =>
    }
  }

  // ---- Whole runs ----

  ghost function TakeAll(t: Tables, steps: seq<Step>): (t': Tables)
    requires Sound(t)
    ensures Sound(t')
    decreases |steps|
  {
    hide StatusesMatch, EndpointsKnown, NoClashes, Take;
    if steps == [] then t
    else
      StepSound(t, steps[0]);
      TakeAll(Take(t, steps[0]), steps[1..])
  }

  ghost predicate RunGuarded(t: Tables, steps: seq<Step>)
    requires Sound(t)
    decreases |steps|
  {
    steps == [] || (
      StepSound(t, steps[0]);
      StepGuarded(t, steps[0]) && RunGuarded(Take(t, steps[0]), steps[1..]))
  }

  /** The lineage is acyclic at every moment of the run. */
  ghost predicate RunAcyclic(t: Tables, steps: seq<Step>)
    requires Sound(t)
    decreases |steps|
  {
    AcyclicEdges(t) && (steps == [] || (
      StepSound(t, steps[0]);
      StepAcyclic(t, steps[0]) && RunAcyclic(Take(t, steps[0]), steps[1..])))
  }

  /** In every run of every writer from an acyclic lineage, the lineage stays acyclic
      throughout exactly when every snapshot's refreshes are guarded -- in particular in every
      run in which no snapshot switches a row back on. */
  lemma {:induction false} RunAcyclicIff(t: Tables, steps: seq<Step>)
    requires Sound(t) && AcyclicEdges(t)
    ensures RunAcyclic(t, steps) <==> RunGuarded(t, steps)
    ensures RunGuarded(t, steps) ==> AcyclicEdges(TakeAll(t, steps))
    decreases |steps|
  {
    hide StatusesMatch, EndpointsKnown, NoClashes, AcyclicEdges, Take, StepGuarded;
    if steps != [] {
      StepSound(t, steps[0]);
      StepAcyclicIff(t, steps[0]);
      if StepAcyclic(t, steps[0]) {
        RunAcyclicIff(Take(t, steps[0]), steps[1..]);
      }
    }
  }

  /** After any run, every node is LINKED when some active incoming edge of it is accepted, UNLINKED
      when all of them are rejected or there is none, up for review otherwise; and the indexes and
      foreign keys hold. */
  lemma RunSound(t: Tables, steps: seq<Step>, n: NodeId)
    requires Sound(t)
    ensures var t' := TakeAll(t, steps);
            Referential(t') && Indexed(t') && (n in t'.nodes ==> RowsSay(t'.edges, n, t'.nodes[n].status))
  {
    hide TakeAll, StatusOf, RowsSay;
    var t' := TakeAll(t, steps);
    StatusIsWhatRowsSay(t'.edges, n, StatusOf(t'.edges, n));
  }

  /** What may have happened to row k: it is still there, and if a human decision stood on it
      and no human step of the run named it, it stands unchanged. */
  lemma {:induction false} RunKeepsDecision(t: Tables, steps: seq<Step>, k: Key)
    requires Sound(t) && k in t.edges && Locked(t.edges[k])
    requires forall i :: 0 <= i < |steps| && Human(steps[i]) ==> steps[i].k != k
    ensures k in TakeAll(t, steps).edges && TakeAll(t, steps).edges[k] == t.edges[k]
    decreases |steps|
  {
    hide StatusesMatch, EndpointsKnown, NoClashes, Take;
    if steps != [] {
      StepSound(t, steps[0]);
      StepKeepsDecisions(t, steps[0]);
      RunKeepsDecision(Take(t, steps[0]), steps[1..], k);
    }
  }

  // ---- The run that closes a cycle ----

  /** Tables with two live nodes and no edges. */
  predicate TwoNodes(t: Tables, media: NodeId, timeline: NodeId) {
    && media != timeline && t.nodes.Keys == {media, timeline} && t.edges == map[]
    && Live(t.nodes[media]) && Live(t.nodes[timeline])
  }

  lemma FirstSnapshot(t: Tables, target: NodeId, m: S.Membership, sources: map<NodeId, Lifecycle>)
    requires TwoNodes(t, m.source, target) && m.source in sources && sources[m.source] == t.nodes[m.source].lifecycle
    ensures !S.Refused(t, target, m.timelineId, {m}, {}, sources)
    ensures S.Reconciled(t, target, m.timelineId, {m}, {}).edges
            == map[S.SidecarKey(m.source, target) := S.NewRow(m.evidence)]
  {
    hide StatusOf;
    var k := S.SidecarKey(m.source, target);
    S.MemberRow(t, target, m.timelineId, {m}, {}, m);
    assert Successors(ActiveRelation(t.edges), {target}) == {};
    assert S.Reconciled(t, target, m.timelineId, {m}, {}).edges.Keys == {k};
  }

  /** The member is gone from the next snapshot: its row is kept, switched off. */
  lemma SecondSnapshot(t: Tables, target: NodeId, m: S.Membership, sources: map<NodeId, Lifecycle>)
    requires t.edges == map[S.SidecarKey(m.source, target) := S.NewRow(m.evidence)] && m.evidence.Decode().Some?
    ensures !S.Refused(t, target, m.timelineId, {}, {}, sources)
    ensures S.Reconciled(t, target, m.timelineId, {}, {}).edges
         == map[S.SidecarKey(m.source, target) := S.NewRow(m.evidence).(active := false)]
  {
    var k := S.SidecarKey(m.source, target);
    assert S.Sources({}) == {};
    assert k in S.Gone(t.edges, target, m.timelineId, {}, {});
    assert S.Reconciled(t, target, m.timelineId, {}, {}).edges.Keys == {k};
  }

  /** A person links the timeline as the parent of the clip: no active row forbids it. */
  lemma LinkBack(t: Tables, isProjectFile: string -> bool, off: Key, back: Key)
    requires off in t.edges && t.edges == map[off := t.edges[off]] && !t.edges[off].active
    requires back == Key(off.target, off.source, DerivedFrom) && off.source != off.target
    requires off.source in t.nodes && off.target in t.nodes && Live(t.nodes[off.source]) && Live(t.nodes[off.target])
    requires !isProjectFile(t.nodes[off.source].path)
    ensures H.CreateEdge(t, isProjectFile, back).Ok?
    ensures H.CreateEdge(t, isProjectFile, back).value.edges == t.edges[back := H.ManualRow(t.edges, back)]
  {
    assert Successors(ActiveRelation(t.edges), {off.source}) == {};
  }

  /** Four accepted steps -- a snapshot with the clip, one without it, a manual link the other
      way, the first snapshot again -- take any two live nodes without edges to a cycle. */
  lemma CycleIsReachable(t: Tables, target: NodeId, m: S.Membership, sources: map<NodeId, Lifecycle>,
                         isProjectFile: string -> bool)
    requires TwoNodes(t, m.source, target) && m.evidence.Decode().Some? && !isProjectFile(t.nodes[m.source].path)
    requires m.source in sources && sources[m.source] == t.nodes[m.source].lifecycle
    ensures var t1 := S.Reconciled(t, target, m.timelineId, {m}, {});
            var t2 := S.Reconciled(t1, target, m.timelineId, {}, {});
            var linked := H.CreateEdge(t2, isProjectFile, Key(target, m.source, DerivedFrom));
            && !S.Refused(t, target, m.timelineId, {m}, {}, sources)
            && !S.Refused(t1, target, m.timelineId, {}, {}, sources)
            && linked.Ok?
            && !S.Refused(linked.value, target, m.timelineId, {m}, {}, sources)
            && !AcyclicEdges(S.Reconciled(linked.value, target, m.timelineId, {m}, {}))
  {
    hide S.Refused, S.Reconciled, H.CreateEdge, StatusOf;
    var off, back := S.SidecarKey(m.source, target), Key(target, m.source, DerivedFrom);
    FirstSnapshot(t, target, m, sources);
    var t1 := S.Reconciled(t, target, m.timelineId, {m}, {});
    ReconciledNodes(t, target, m.timelineId, {m});
    SecondSnapshot(t1, target, m, sources);
    var t2 := S.Reconciled(t1, target, m.timelineId, {}, {});
    ReconciledNodes(t1, target, m.timelineId, {});
    LinkBack(t2, isProjectFile, off, back);
    LastSnapshot(H.CreateEdge(t2, isProjectFile, back).value, target, m, sources);
  }

  lemma ReconciledNodes(t: Tables, target: NodeId, timelineId: string, members: set<S.Membership>)
    ensures var nodes := S.Reconciled(t, target, timelineId, members, {}).nodes;
            nodes.Keys == t.nodes.Keys && forall n :: n in nodes ==>
              nodes[n].lifecycle == t.nodes[n].lifecycle && nodes[n].path == t.nodes[n].path
  {
  }

  /** The row switched off by the second snapshot, and the link back. */
  predicate LinkedBack(edges: map<Key, Edge>, target: NodeId, m: S.Membership) {
    var off, back := S.SidecarKey(m.source, target), Key(target, m.source, DerivedFrom);
    && m.source != target && edges.Keys == {off, back}
    && edges[off] == S.NewRow(m.evidence).(active := false) && edges[back].active
  }

  lemma LastAccepted(t: Tables, target: NodeId, m: S.Membership, sources: map<NodeId, Lifecycle>)
    requires LinkedBack(t.edges, target, m)
    requires m.source in sources && (sources[m.source] == Active || sources[m.source] == Hidden)
    ensures !S.Refused(t, target, m.timelineId, {m}, {}, sources)
  {
    hide WouldCreateCycle;
    assert m.source in S.Sources({m});
  }

  lemma LastSnapshot(t: Tables, target: NodeId, m: S.Membership, sources: map<NodeId, Lifecycle>)
    requires LinkedBack(t.edges, target, m)
    requires m.source in sources && (sources[m.source] == Active || sources[m.source] == Hidden)
    ensures !S.Refused(t, target, m.timelineId, {m}, {}, sources)
    ensures !AcyclicEdges(S.Reconciled(t, target, m.timelineId, {m}, {}))
  {
    hide S.Refused, S.Reconciled, Acyclic, Descendants;
    var back := Key(target, m.source, DerivedFrom);
    LastAccepted(t, target, m, sources);
    assert (back.source, back.target) in ActiveRelation(t.edges);
    ReachesSelf(ActiveRelation(t.edges), m.source);
    ReachesEdge(ActiveRelation(t.edges), target, m.source, m.source);
    DescendantsExact(ActiveRelation(t.edges), target, m.source);
    S.UnguardedRefreshCycles(t, target, m.timelineId, {m}, {}, m);
  }
}
