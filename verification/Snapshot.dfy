/**
  The Resolve snapshot reconcile: a declarative diff between one timeline's stored
  PROJECT_SIDECAR rows and the memberships the agent reports. The cycle check is hoisted:
  one descendant walk of the timeline, taken at the first new edge, serves every later one.
 */
module Snapshot {
  import opened Wrappers
  import opened Reachability
  import opened Store

  const RESOLVE := "resolve_project_db"

  datatype SnapshotError = Forbidden | BadRequest | TooLarge | NotConfigured | OutsideStorage | Conflict | Internal

  datatype Membership = Membership(timelineId: string, mediaFilePath: string, source: NodeId, evidence: Evidence)

  datatype Stats = Stats(created: nat, refreshed: nat, removed: nat, untouched: nat, unresolved: nat,
                         reviewedConflicts: nat)

  function SidecarKey(source: NodeId, target: NodeId): Key {
    Key(source, target, ProjectSidecar)
  }

  /** ListResolveEdgesForTimeline: every stored row, active or not, whatever its resolver. */
  function ListResolveEdges(edges: map<Key, Edge>, target: NodeId): set<Key> {
    set k | k in edges && k.target == target && k.rel == ProjectSidecar
  }

  function Sources(members: set<Membership>): set<NodeId> {
    set m | m in members :: m.source
  }

  function NewRow(evidence: Evidence): Edge {
    Edge(100, 1, RESOLVE, evidence, AutoAccepted, true)
  }

  // ---- What happens to one desired member ----

  datatype Fate = Create | Refresh | Unchanged | ReviewedAsIs | ReviewedStale

  function FateOf(edges: map<Key, Edge>, target: NodeId, m: Membership): Fate {
    var k := SidecarKey(m.source, target);
    if k !in edges then Create
    else
      var current := edges[k].evidence == m.evidence && edges[k].active;
      if Locked(edges[k]) then (if current then ReviewedAsIs else ReviewedStale)
      else if current then Unchanged
      else Refresh
  }

  /** Source gone or not live, or its row belongs to another resolver. */
  predicate Unusable(edges: map<Key, Edge>, target: NodeId, m: Membership, sources: map<NodeId, Lifecycle>) {
    || m.source !in sources
    || (sources[m.source] != Active && sources[m.source] != Hidden)
    || (SidecarKey(m.source, target) in edges && edges[SidecarKey(m.source, target)].resolver != RESOLVE)
  }

  /** One turn of the member loop. `rows` are the rows read before the loop; `blocked` is the
      cycle check's answer, consulted for a new edge only. */
  function AttachOne(t: Tables, rows: map<Key, Edge>, target: NodeId, m: Membership,
                     sources: map<NodeId, Lifecycle>, blocked: bool): Result<Tables, SnapshotError> {
    var k := SidecarKey(m.source, target);
    if Unusable(rows, target, m, sources) then Err(Conflict)
    else
      match FateOf(rows, target, m)
      case Create =>
        if blocked then Err(Conflict)
        else
          (match CreateMediaEdge(t, k, NewRow(m.evidence))
           case Some(t') => Ok(t')
           case None => Err(Internal))
      case Refresh =>
        if k in t.edges && !Locked(t.edges[k]) && t.edges[k].resolver == RESOLVE
        then Ok(t.(edges := t.edges[k := t.edges[k].(evidence := m.evidence, active := true)]))
        else Ok(t)
      case _ => Ok(t)
  }

  // ---- The hoisted check refuses and accepts exactly what a fresh check would ----

  /** The loop with a fresh cycle check before each new edge. */
  function AttachFresh(t: Tables, rows: map<Key, Edge>, target: NodeId, order: seq<Membership>,
                       sources: map<NodeId, Lifecycle>): Result<Tables, SnapshotError>
    decreases |order|
  {
    if order == [] then Ok(t)
    else
      var t' :- AttachOne(t, rows, target, order[0], sources, WouldCreateCycle(t, order[0].source, target));
      AttachFresh(t', rows, target, order[1..], sources)
  }

  /** The loop as written: the descendant set is taken at the first new edge and kept. */
  function AttachHoisted(t: Tables, rows: map<Key, Edge>, target: NodeId, order: seq<Membership>,
                         sources: map<NodeId, Lifecycle>, memo: Option<set<NodeId>>): Result<Tables, SnapshotError>
    decreases |order|
  {
    if order == [] then Ok(t)
    else
      var needed := !Unusable(rows, target, order[0], sources) && FateOf(rows, target, order[0]) == Create;
      var memo' := if needed && memo.None? then Some(DescendantNodeIDs(t, target)) else memo;
      var blocked := needed && order[0].source in memo'.value;
      var t' :- AttachOne(t, rows, target, order[0], sources, blocked);
      AttachHoisted(t', rows, target, order[1..], sources, memo')
  }

  /** A turn of the loop only switches on rows into the target... */
  lemma AttachActivatesInto(t: Tables, rows: map<Key, Edge>, target: NodeId, m: Membership,
                            sources: map<NodeId, Lifecycle>, blocked: bool)
    requires AttachOne(t, rows, target, m, sources, blocked).Ok?
    ensures ActivatesOnlyInto(t.edges, AttachOne(t, rows, target, m, sources, blocked).value.edges, target)
  {
  }

  /** ...so what the target reaches stays the same, cycle or no cycle. */
  lemma AttachKeepsDescendants(t: Tables, rows: map<Key, Edge>, target: NodeId, m: Membership,
                               sources: map<NodeId, Lifecycle>, blocked: bool)
    requires AttachOne(t, rows, target, m, sources, blocked).Ok?
    ensures DescendantNodeIDs(AttachOne(t, rows, target, m, sources, blocked).value, target)
            == DescendantNodeIDs(t, target)
  {
    var t' := AttachOne(t, rows, target, m, sources, blocked).value;
    AttachActivatesInto(t, rows, target, m, sources, blocked);
    ActivatingIntoKeepsDescendants(t.edges, t'.edges, target);
  }

  lemma ActivatingIntoKeepsDescendants(edges: map<Key, Edge>, edges': map<Key, Edge>, target: NodeId)
    requires ActivatesOnlyInto(edges, edges', target)
    ensures Descendants(ActiveRelation(edges'), target) == Descendants(ActiveRelation(edges), target)
  {
    var E, E' := ActiveRelation(edges), ActiveRelation(edges');
    ActivationGrowsInto(edges, edges', target);
    forall x ensures x in Descendants(E', target) <==> x in Descendants(E, target) {
      DescendantsExact(E, target, x);
      DescendantsExact(E', target, x);
      GrowthKeepsDescendants(E, E', target, x);
    }
  }

  /** In every order of the members, and for any tables the loop starts from: one hoisted
      descendant set accepts and refuses exactly the same edges, with the same tables and
      the same error, as a fresh check before each insert. */
  lemma {:induction false} HoistedCheckIsFresh(t: Tables, rows: map<Key, Edge>, target: NodeId, order: seq<Membership>,
                                               sources: map<NodeId, Lifecycle>, memo: Option<set<NodeId>>)
    requires memo.None? || memo.value == DescendantNodeIDs(t, target)
    ensures AttachHoisted(t, rows, target, order, sources, memo) == AttachFresh(t, rows, target, order, sources)
    decreases |order|
  {
    if order != [] {
      var m := order[0];
      var needed := !Unusable(rows, target, m, sources) && FateOf(rows, target, m) == Create;
      var memo' := if needed && memo.None? then Some(DescendantNodeIDs(t, target)) else memo;
      var blocked := needed && m.source in memo'.value;
      var one := AttachOne(t, rows, target, m, sources, blocked);
      assert one == AttachOne(t, rows, target, m, sources, WouldCreateCycle(t, m.source, target));
      if one.Ok? {
        AttachKeepsDescendants(t, rows, target, m, sources, blocked);
        HoistedCheckIsFresh(one.value, rows, target, order[1..], sources, memo');
      }
    }
  }

  // ---- What happens to one stored row that may no longer be wanted ----

  datatype Detachment = Leave | Broken | Reviewed | Remove

  predicate ProtectedPath(fields: EvidenceFields, protectedPaths: set<string>) {
    fields.mediaFilePath in protectedPaths ||
      exists i :: 0 <= i < |fields.mediaFilePaths| && fields.mediaFilePaths[i] in protectedPaths
  }

  function DetachmentOf(rows: map<Key, Edge>, timelineId: string, keep: set<NodeId>, protectedPaths: set<string>,
                        k: Key): Detachment
    requires k in rows
  {
    if !rows[k].active || rows[k].resolver != RESOLVE || k.source in keep then Leave
    else
      match rows[k].evidence.Decode()
      case None => Broken
      case Some(fields) =>
        if timelineId != "" && ProtectedPath(fields, protectedPaths) then Leave
        else if Locked(rows[k]) then Reviewed
        else Remove
  }

  // ---- The reconcile as one statement, with no order in it ----

  /** The request validation refuses a source named twice for one timeline. */
  ghost predicate DistinctSources(members: set<Membership>) {
    forall m, m' :: m in members && m' in members && m.source == m'.source ==> m == m'
  }

  ghost function EvidenceFor(members: set<Membership>, source: NodeId): Evidence
    requires source in Sources(members)
  {
    var m :| m in members && m.source == source;
    m.evidence
  }

  ghost predicate IsMemberKey(target: NodeId, members: set<Membership>, k: Key) {
    k.target == target && k.rel == ProjectSidecar && k.source in Sources(members)
  }

  /** Row k once `members` are attached and the rows of `gone` are switched off. */
  ghost function RowAfter(rows: map<Key, Edge>, target: NodeId, members: set<Membership>, gone: set<Key>, k: Key): Edge
    requires k in rows || IsMemberKey(target, members, k)
  {
    if IsMemberKey(target, members, k) then
      if k !in rows then NewRow(EvidenceFor(members, k.source))
      else if Locked(rows[k]) then rows[k]
      else rows[k].(evidence := EvidenceFor(members, k.source), active := true)
    else if k in gone then rows[k].(active := false)
    else rows[k]
  }

  ghost function RowsAfter(rows: map<Key, Edge>, target: NodeId, members: set<Membership>,
                           gone: set<Key>): map<Key, Edge> {
    map k | k in rows.Keys + (set m | m in members :: SidecarKey(m.source, target))
      :: RowAfter(rows, target, members, gone, k)
  }

  function Gone(rows: map<Key, Edge>, target: NodeId, timelineId: string, keep: set<NodeId>,
                protectedPaths: set<string>): set<Key> {
    set k | k in ListResolveEdges(rows, target) && DetachmentOf(rows, timelineId, keep, protectedPaths, k) == Remove
  }

  ghost predicate MemberRefused(t: Tables, target: NodeId, m: Membership, sources: map<NodeId, Lifecycle>) {
    || Unusable(t.edges, target, m, sources)
    || (FateOf(t.edges, target, m) == Create
        && (WouldCreateCycle(t, m.source, target) || !Insertable(t, SidecarKey(m.source, target))))
  }

  /** The call fails: some member is refused, or a row to be removed has unreadable evidence. */
  ghost predicate Refused(t: Tables, target: NodeId, timelineId: string, members: set<Membership>,
                          protectedPaths: set<string>, sources: map<NodeId, Lifecycle>) {
    || (exists m :: m in members && MemberRefused(t, target, m, sources))
    || (exists k :: k in ListResolveEdges(t.edges, target)
          && DetachmentOf(t.edges, timelineId, Sources(members), protectedPaths, k) == Broken)
  }

  /** The tables after a call that is not refused. */
  ghost function Reconciled(t: Tables, target: NodeId, timelineId: string, members: set<Membership>,
                            protectedPaths: set<string>): Tables {
    var gone := Gone(t.edges, target, timelineId, Sources(members), protectedPaths);
    Recompute(t.(edges := RowsAfter(t.edges, target, members, gone)), target)
  }

  function WithFate(rows: map<Key, Edge>, target: NodeId, members: set<Membership>, fate: Fate): set<Membership> {
    set m | m in members && FateOf(rows, target, m) == fate
  }

  function WithDetachment(rows: map<Key, Edge>, timelineId: string, keep: set<NodeId>, protectedPaths: set<string>,
                          ks: set<Key>, d: Detachment): set<Key>
    requires ks <= rows.Keys
  {
    set k | k in ks && DetachmentOf(rows, timelineId, keep, protectedPaths, k) == d
  }

  /** The counters after the members `done` and the rows `checked`. */
  function StatsAfter(stats: Stats, rows: map<Key, Edge>, target: NodeId, timelineId: string, keep: set<NodeId>,
                      protectedPaths: set<string>, done: set<Membership>, checked: set<Key>): Stats
    requires checked <= rows.Keys
  {
    stats.(
      created := stats.created + |WithFate(rows, target, done, Create)|,
      refreshed := stats.refreshed + |WithFate(rows, target, done, Refresh)|,
      untouched := stats.untouched + |WithFate(rows, target, done, Unchanged)|,
      reviewedConflicts := stats.reviewedConflicts + |WithFate(rows, target, done, ReviewedStale)|
                           + |WithDetachment(rows, timelineId, keep, protectedPaths, checked, Reviewed)|,
      removed := stats.removed + |WithDetachment(rows, timelineId, keep, protectedPaths, checked, Remove)|)
  }

  lemma EvidenceIsTheMembers(members: set<Membership>, m: Membership)
    requires DistinctSources(members) && m in members
    ensures m.source in Sources(members) && EvidenceFor(members, m.source) == m.evidence
  {
    assert m.source in Sources(members);
  }

  lemma RowAfterUnaffected(rows: map<Key, Edge>, target: NodeId, done: set<Membership>, m: Membership, gone: set<Key>,
                           j: Key)
    requires DistinctSources(done + {m}) && m !in done
    requires (j in rows || IsMemberKey(target, done, j)) && j != SidecarKey(m.source, target)
    ensures RowAfter(rows, target, done + {m}, gone, j) == RowAfter(rows, target, done, gone, j)
  {
    var more := done + {m};
    assert Sources(more) == Sources(done) + {m.source};
    if IsMemberKey(target, done, j) {
      var m' :| m' in done && m'.source == j.source;
      EvidenceIsTheMembers(more, m');
      EvidenceIsTheMembers(done, m');
    }
  }

  lemma RowsExtend(rows: map<Key, Edge>, target: NodeId, done: set<Membership>, m: Membership)
    requires DistinctSources(done + {m}) && m !in done
    ensures var k := SidecarKey(m.source, target);
            IsMemberKey(target, done + {m}, k)
            && RowsAfter(rows, target, done + {m}, {})
               == RowsAfter(rows, target, done, {})[k := RowAfter(rows, target, done + {m}, {}, k)]
  {
    hide RowAfter;
    var k, more := SidecarKey(m.source, target), done + {m};
    var before, after := RowsAfter(rows, target, done, {}), RowsAfter(rows, target, more, {});
    RowsExtendKeys(rows, target, done, m);
    hide RowsAfter;
    forall j | j in before && j != k ensures after[j] == before[j] {
      RowsExtendElsewhere(rows, target, done, m, j);
    }
  }

  lemma RowsExtendKeys(rows: map<Key, Edge>, target: NodeId, done: set<Membership>, m: Membership)
    ensures var k, more := SidecarKey(m.source, target), done + {m};
            && IsMemberKey(target, more, k)
            && RowsAfter(rows, target, more, {}).Keys == RowsAfter(rows, target, done, {}).Keys + {k}
            && RowsAfter(rows, target, more, {})[k] == RowAfter(rows, target, more, {}, k)
  {
    hide RowAfter;
    assert m in done + {m};
  }

  lemma RowsExtendElsewhere(rows: map<Key, Edge>, target: NodeId, done: set<Membership>, m: Membership, j: Key)
    requires DistinctSources(done + {m}) && m !in done
    requires j in RowsAfter(rows, target, done, {}) && j != SidecarKey(m.source, target)
    ensures j in RowsAfter(rows, target, done + {m}, {})
    ensures RowsAfter(rows, target, done + {m}, {})[j] == RowsAfter(rows, target, done, {})[j]
  {
    hide RowAfter;
    if j !in rows {
      var m' :| m' in done && SidecarKey(m'.source, target) == j;
      assert m' in done + {m};
    }
    RowAfterUnaffected(rows, target, done, m, {}, j);
  }

  lemma NotYetAttached(rows: map<Key, Edge>, target: NodeId, done: set<Membership>, m: Membership)
    requires DistinctSources(done + {m}) && m !in done
    ensures var k, before := SidecarKey(m.source, target), RowsAfter(rows, target, done, {});
            (k in before <==> k in rows) && (k in rows ==> before[k] == rows[k])
  {
    assert m.source !in Sources(done);
  }

  /** A successful turn of the member loop extends the closed form by that member. */
  lemma AttachExtends(t: Tables, rows: map<Key, Edge>, target: NodeId, done: set<Membership>, m: Membership,
                      sources: map<NodeId, Lifecycle>, blocked: bool)
    requires DistinctSources(done + {m}) && m !in done
    requires t.edges == RowsAfter(rows, target, done, {})
    requires AttachOne(t, rows, target, m, sources, blocked).Ok?
    ensures var t' := AttachOne(t, rows, target, m, sources, blocked).value;
            t' == t.(edges := RowsAfter(rows, target, done + {m}, {}))
  {
    NotYetAttached(rows, target, done, m);
    RowsExtend(rows, target, done, m);
    EvidenceIsTheMembers(done + {m}, m);
  }

  lemma FateCountsExtend(rows: map<Key, Edge>, target: NodeId, done: set<Membership>, m: Membership, fate: Fate)
    requires m !in done
    ensures |WithFate(rows, target, done + {m}, fate)|
         == |WithFate(rows, target, done, fate)| + if FateOf(rows, target, m) == fate then 1 else 0
  {
    var before, after := WithFate(rows, target, done, fate), WithFate(rows, target, done + {m}, fate);
    assert after == if FateOf(rows, target, m) == fate then before + {m} else before;
  }

  lemma DetachmentCountsExtend(rows: map<Key, Edge>, timelineId: string, keep: set<NodeId>, protectedPaths: set<string>,
                               checked: set<Key>, k: Key, d: Detachment)
    requires checked <= rows.Keys && k in rows && k !in checked
    ensures |WithDetachment(rows, timelineId, keep, protectedPaths, checked + {k}, d)|
         == |WithDetachment(rows, timelineId, keep, protectedPaths, checked, d)|
            + if DetachmentOf(rows, timelineId, keep, protectedPaths, k) == d then 1 else 0
  {
    var before := WithDetachment(rows, timelineId, keep, protectedPaths, checked, d);
    var after := WithDetachment(rows, timelineId, keep, protectedPaths, checked + {k}, d);
    assert after == if DetachmentOf(rows, timelineId, keep, protectedPaths, k) == d then before + {k} else before;
  }

  lemma RowsAtStart(rows: map<Key, Edge>, target: NodeId)
    ensures RowsAfter(rows, target, {}, {}) == rows
  {
  }

  /** Given the starting tables' answer of the cycle check, a turn succeeds exactly when the
      member is not refused. */
  lemma AttachOkIff(t: Tables, start: Tables, target: NodeId, done: set<Membership>, m: Membership,
                    sources: map<NodeId, Lifecycle>, blocked: bool)
    requires DistinctSources(done + {m}) && m !in done
    requires t == start.(edges := RowsAfter(start.edges, target, done, {}))
    requires FateOf(start.edges, target, m) == Create ==> blocked == WouldCreateCycle(start, m.source, target)
    ensures AttachOne(t, start.edges, target, m, sources, blocked).Ok? <==> !MemberRefused(start, target, m, sources)
  {
    NotYetAttached(start.edges, target, done, m);
  }

  function Tally(stats: Stats, fate: Fate): Stats {
    match fate
    case Create => stats.(created := stats.created + 1)
    case Refresh => stats.(refreshed := stats.refreshed + 1)
    case Unchanged => stats.(untouched := stats.untouched + 1)
    case ReviewedAsIs => stats
    case ReviewedStale => stats.(reviewedConflicts := stats.reviewedConflicts + 1)
  }

  lemma TallyExtends(stats: Stats, rows: map<Key, Edge>, target: NodeId, done: set<Membership>, m: Membership)
    requires m !in done
    ensures Tally(StatsAfter(stats, rows, target, "", {}, {}, done, {}), FateOf(rows, target, m))
         == StatsAfter(stats, rows, target, "", {}, {}, done + {m}, {})
  {
    FateCountsExtend(rows, target, done, m, Create);
    FateCountsExtend(rows, target, done, m, Refresh);
    FateCountsExtend(rows, target, done, m, Unchanged);
    FateCountsExtend(rows, target, done, m, ReviewedStale);
  }

  /** The member loop, in whatever order the map yields them. */
  method AttachMembers(db: Database, target: NodeId, members: set<Membership>, sources: map<NodeId, Lifecycle>,
                       stats: Stats)
    returns (r: Result<Stats, SnapshotError>)
    requires DistinctSources(members)
    modifies db
    ensures r.Err? ==> r.error == Conflict || r.error == Internal
    ensures r.Ok? <==> forall m :: m in members ==> !MemberRefused(old(db.tables), target, m, sources)
    ensures r.Ok? ==> r.value == StatsAfter(stats, old(db.tables).edges, target, "", {}, {}, members, {})
    ensures r.Ok? ==> db.tables == old(db.tables).(edges := RowsAfter(old(db.tables).edges, target, members, {}))
  {
    var start := db.tables;
    var rows := start.edges;
    var todo, descendantsOfTarget: Option<set<NodeId>> := members, None;
    var counted := stats;
    RowsAtStart(rows, target);
    while todo != {}
      invariant todo <= members
      invariant db.tables == start.(edges := RowsAfter(rows, target, members - todo, {}))
      invariant descendantsOfTarget.None? || descendantsOfTarget.value == DescendantNodeIDs(start, target)
      invariant DescendantNodeIDs(db.tables, target) == DescendantNodeIDs(start, target)
      invariant forall m :: m in members - todo ==> !MemberRefused(start, target, m, sources)
      invariant counted == StatsAfter(stats, rows, target, "", {}, {}, members - todo, {})
      decreases todo
    {
      var m :| m in todo;
      ghost var done := members - todo;
      assert members - (todo - {m}) == done + {m};
      var needed := !Unusable(rows, target, m, sources) && FateOf(rows, target, m) == Create;
      if needed && descendantsOfTarget.None? {
        descendantsOfTarget := Some(DescendantNodeIDs(db.tables, target));
      }
      var blocked := needed && m.source in descendantsOfTarget.value;
      var step := AttachOne(db.tables, rows, target, m, sources, blocked);
      AttachOkIff(db.tables, start, target, done, m, sources, blocked || WouldCreateCycle(start, m.source, target));
      assert step == AttachOne(db.tables, rows, target, m, sources,
                               blocked || WouldCreateCycle(start, m.source, target));
      if step.Err? {
        return Err(step.error);
      }
      AttachExtends(db.tables, rows, target, done, m, sources, blocked);
      AttachKeepsDescendants(db.tables, rows, target, m, sources, blocked);
      TallyExtends(stats, rows, target, done, m);
      db.tables := step.value;
      counted := Tally(counted, FateOf(rows, target, m));
      todo := todo - {m};
    }
    assert members - todo == members;
    return Ok(counted);
  }

  /** Switching off one more row of the closed form. */
  lemma GoneExtends(rows: map<Key, Edge>, target: NodeId, members: set<Membership>, gone: set<Key>, k: Key)
    requires k in ListResolveEdges(rows, target) && k.source !in Sources(members)
    ensures var before := RowsAfter(rows, target, members, gone);
            k in before && RowsAfter(rows, target, members, gone + {k}) == before[k := rows[k].(active := false)]
            && (k !in gone ==> before[k] == rows[k])
  {
  }

  function TallyDetached(stats: Stats, d: Detachment): Stats {
    match d
    case Reviewed => stats.(reviewedConflicts := stats.reviewedConflicts + 1)
    case Remove => stats.(removed := stats.removed + 1)
    case _ => stats
  }

  lemma TallyDetachedExtends(stats: Stats, rows: map<Key, Edge>, target: NodeId, timelineId: string, keep: set<NodeId>,
                             protectedPaths: set<string>, checked: set<Key>, k: Key)
    requires checked <= rows.Keys && k in rows && k !in checked
    ensures TallyDetached(StatsAfter(stats, rows, target, timelineId, keep, protectedPaths, {}, checked),
                          DetachmentOf(rows, timelineId, keep, protectedPaths, k))
         == StatsAfter(stats, rows, target, timelineId, keep, protectedPaths, {}, checked + {k})
  {
    DetachmentCountsExtend(rows, timelineId, keep, protectedPaths, checked, k, Reviewed);
    DetachmentCountsExtend(rows, timelineId, keep, protectedPaths, checked, k, Remove);
  }

  /** One turn of the removal loop on the tables. */
  function DetachOne(t: Tables, k: Key, d: Detachment): Tables {
    if d == Remove && k in t.edges && !Locked(t.edges[k]) && t.edges[k].resolver == RESOLVE
    then t.(edges := t.edges[k := t.edges[k].(active := false)])
    else t
  }

  lemma DetachExtends(t: Tables, rows: map<Key, Edge>, target: NodeId, timelineId: string, members: set<Membership>,
                      protectedPaths: set<string>, checked: set<Key>, k: Key)
    requires checked <= rows.Keys && k in ListResolveEdges(rows, target) && k !in checked
    requires t.edges == RowsAfter(rows, target, members,
                                  WithDetachment(rows, timelineId, Sources(members), protectedPaths, checked, Remove))
    ensures DetachOne(t, k, DetachmentOf(rows, timelineId, Sources(members), protectedPaths, k))
         == t.(edges := RowsAfter(rows, target, members, WithDetachment(rows, timelineId, Sources(members),
                                                                        protectedPaths, checked + {k}, Remove)))
  {
    var gone := WithDetachment(rows, timelineId, Sources(members), protectedPaths, checked, Remove);
    var more := WithDetachment(rows, timelineId, Sources(members), protectedPaths, checked + {k}, Remove);
    if DetachmentOf(rows, timelineId, Sources(members), protectedPaths, k) == Remove {
      assert more == gone + {k};
      GoneExtends(rows, target, members, gone, k);
    } else {
      assert more == gone;
    }
  }

  /** The removal loop over the rows read at the start, in any order. */
  method DetachRows(db: Database, target: NodeId, timelineId: string, ghost members: set<Membership>, keep: set<NodeId>,
                    protectedPaths: set<string>, rows: map<Key, Edge>, stats: Stats)
    returns (r: Result<Stats, SnapshotError>)
    requires keep == Sources(members)
    requires db.tables.edges == RowsAfter(rows, target, members, {})
    modifies db
    ensures r.Err? ==> r.error == Conflict || r.error == Internal
    ensures r.Ok? <==> forall k :: k in ListResolveEdges(rows, target) ==>
              DetachmentOf(rows, timelineId, keep, protectedPaths, k) != Broken
    ensures r.Ok? ==> r.value == StatsAfter(stats, rows, target, timelineId, keep, protectedPaths, {},
                                            ListResolveEdges(rows, target))
    ensures r.Ok? ==> db.tables == old(db.tables).(
              edges := RowsAfter(rows, target, members, Gone(rows, target, timelineId, keep, protectedPaths)))
  {
    hide RowsAfter, DetachmentOf;
    ghost var start := db.tables;
    var existing := ListResolveEdges(rows, target);
    var todo, counted := existing, stats;
    assert WithDetachment(rows, timelineId, keep, protectedPaths, {}, Remove) == {};
    while todo != {}
      invariant todo <= existing
      invariant db.tables == start.(edges := RowsAfter(rows, target, members,
                                      WithDetachment(rows, timelineId, keep, protectedPaths, existing - todo, Remove)))
      invariant forall k :: k in existing - todo ==> DetachmentOf(rows, timelineId, keep, protectedPaths, k) != Broken
      invariant counted == StatsAfter(stats, rows, target, timelineId, keep, protectedPaths, {}, existing - todo)
      decreases todo
    {
      var k :| k in todo;
      var d := DetachmentOf(rows, timelineId, keep, protectedPaths, k);
      if d == Broken {
        return Err(Conflict);
      }
      DetachExtends(db.tables, rows, target, timelineId, members, protectedPaths, existing - todo, k);
      TallyDetachedExtends(stats, rows, target, timelineId, keep, protectedPaths, existing - todo, k);
      assert existing - (todo - {k}) == existing - todo + {k};
      db.tables := DetachOne(db.tables, k, d);
      counted := TallyDetached(counted, d);
      todo := todo - {k};
    }
    assert existing - todo == existing;
    assert WithDetachment(rows, timelineId, keep, protectedPaths, existing, Remove)
        == Gone(rows, target, timelineId, keep, protectedPaths);
    return Ok(counted);
  }

  /** The whole call. Its outcome, its tables and its counters depend on the set of members
      only: the loops above may visit them in any order. */
  method ReconcileResolveTimeline(db: Database, target: NodeId, timelineId: string, members: set<Membership>,
                                  protectedPaths: set<string>, sources: map<NodeId, Lifecycle>, stats: Stats)
    returns (r: Result<Stats, SnapshotError>)
    requires DistinctSources(members)
    modifies db
    ensures r.Err? ==> r.error == Conflict || r.error == Internal
    ensures r.Ok? <==> !Refused(old(db.tables), target, timelineId, members, protectedPaths, sources)
    ensures r.Ok? ==> db.tables == Reconciled(old(db.tables), target, timelineId, members, protectedPaths)
    ensures r.Ok? ==> r.value == StatsAfter(stats, old(db.tables).edges, target, timelineId, Sources(members),
                                            protectedPaths,
                                            members, ListResolveEdges(old(db.tables).edges, target))
  {
    hide RowsAfter, DetachmentOf, StatusOf, FateOf, MemberRefused, ProtectedPath;
    var rows := db.tables.edges;
    var attached := AttachMembers(db, target, members, sources, stats);
    if attached.Err? {
      return attached;
    }
    var detached := DetachRows(db, target, timelineId, members, Sources(members), protectedPaths, rows, attached.value);
    if detached.Err? {
      return detached;
    }
    db.RecomputeStatusFromPersistedEdges(target);
    return detached;
  }

  // ---- What a successful reconcile leaves behind ----

  /** An active, unreviewed row of the snapshot's own resolver. */
  predicate OpenRow(edges: map<Key, Edge>, k: Key) {
    k in edges && edges[k].active && edges[k].resolver == RESOLVE && !Locked(edges[k])
  }

  predicate ProtectedRow(edges: map<Key, Edge>, timelineId: string, protectedPaths: set<string>, k: Key)
    requires k in edges
  {
    timelineId != "" && edges[k].evidence.Decode().Some?
    && var fields := edges[k].evidence.Decode().value;
    exists path :: path in protectedPaths && (path == fields.mediaFilePath || path in fields.mediaFilePaths)
  }

  /** Exactly when a call is refused: a member's source is not on record or not live, its row belongs
      to another resolver, or it has no row yet and the timeline reaches it or an end is unknown;
      or a row to be dropped carries evidence that cannot be read. */
  lemma RefusedIff(t: Tables, target: NodeId, timelineId: string, members: set<Membership>,
                   protectedPaths: set<string>, sources: map<NodeId, Lifecycle>)
    ensures Refused(t, target, timelineId, members, protectedPaths, sources) <==>
              || (exists m :: m in members && (
                    var k := SidecarKey(m.source, target);
                    || m.source !in sources || sources[m.source] in {Missing, Archived, Trashed}
                    || (k in t.edges && t.edges[k].resolver != "resolve_project_db")
                    || (k !in t.edges
                        && (WouldCreateCycle(t, m.source, target)
                            || m.source !in t.nodes || target !in t.nodes || m.source == target))))
              || (exists k :: k in t.edges && k.target == target && k.rel == ProjectSidecar && t.edges[k].active
                    && t.edges[k].resolver == "resolve_project_db" && k.source !in Sources(members)
                    && t.edges[k].evidence.Decode().None?)
  {
    hide WouldCreateCycle, ProtectedPath;
    forall k | k in t.edges
      ensures k in ListResolveEdges(t.edges, target) <==> k.target == target && k.rel == ProjectSidecar
    {
    }
    forall k | k in ListResolveEdges(t.edges, target)
      ensures DetachmentOf(t.edges, timelineId, Sources(members), protectedPaths, k) == Broken <==>
                t.edges[k].active && t.edges[k].resolver == "resolve_project_db" && k.source !in Sources(members)
                && t.edges[k].evidence.Decode().None?
    {
    }
    hide DetachmentOf, ListResolveEdges;
  }

  /** The open rows of the timeline afterwards are exactly the desired sources no human has
      reviewed, and the previously open rows an unresolved member protects by path or alias. */
  lemma OpenRowsExact(t: Tables, target: NodeId, timelineId: string, members: set<Membership>,
                      protectedPaths: set<string>,
                      sources: map<NodeId, Lifecycle>, s: NodeId)
    requires !Refused(t, target, timelineId, members, protectedPaths, sources)
    ensures var k := SidecarKey(s, target);
            OpenRow(Reconciled(t, target, timelineId, members, protectedPaths).edges, k) <==>
              || (s in Sources(members) && !(k in t.edges && Locked(t.edges[k])))
              || (s !in Sources(members) && OpenRow(t.edges, k) && ProtectedRow(t.edges, timelineId, protectedPaths, k))
  {
    hide StatusOf, WouldCreateCycle;
    var k := SidecarKey(s, target);
    if s in Sources(members) {
      var m :| m in members && m.source == s;
      assert SidecarKey(m.source, target) == k;
      assert !Unusable(t.edges, target, m, sources);
    } else if k in t.edges {
      assert k in ListResolveEdges(t.edges, target);
    }
  }

  /** Every desired member is counted once: created, refreshed, untouched or human-reviewed. */
  lemma MembersAreCounted(rows: map<Key, Edge>, target: NodeId, members: set<Membership>)
    ensures |members| == |WithFate(rows, target, members, Create)| + |WithFate(rows, target, members, Refresh)|
                       + |WithFate(rows, target, members, Unchanged)|
                       + |WithFate(rows, target, members, ReviewedAsIs)|
                       + |WithFate(rows, target, members, ReviewedStale)|
  {
    if members != {} {
      var m :| m in members;
      MembersAreCounted(rows, target, members - {m});
      assert members - {m} + {m} == members;
      FateCountsExtend(rows, target, members - {m}, m, Create);
      FateCountsExtend(rows, target, members - {m}, m, Refresh);
      FateCountsExtend(rows, target, members - {m}, m, Unchanged);
      FateCountsExtend(rows, target, members - {m}, m, ReviewedAsIs);
      FateCountsExtend(rows, target, members - {m}, m, ReviewedStale);
    }
  }

  lemma MemberRow(t: Tables, target: NodeId, timelineId: string, members: set<Membership>, protectedPaths: set<string>,
                  m: Membership)
    requires DistinctSources(members) && m in members
    ensures var k := SidecarKey(m.source, target);
            var rows := Reconciled(t, target, timelineId, members, protectedPaths).edges;
            k in rows && rows[k] == if k !in t.edges then NewRow(m.evidence)
                                    else if Locked(t.edges[k]) then t.edges[k]
                                    else t.edges[k].(evidence := m.evidence, active := true)
  {
    EvidenceIsTheMembers(members, m);
  }

  /** A row into the timeline that no member speaks for and that has to go: active, written by the
      snapshot, not reviewed, and not shielded by an unresolved member. */
  predicate Unwanted(edges: map<Key, Edge>, timelineId: string, protectedPaths: set<string>, k: Key)
    requires k in edges
  {
    && edges[k].active && edges[k].resolver == "resolve_project_db"
    && edges[k].review != Confirmed && edges[k].review != Rejected
    && !ProtectedRow(edges, timelineId, protectedPaths, k)
  }

  /** Every field of the row from s. A member's new row is certain, first-tier and accepted; its old
      one takes the evidence and is switched on; its reviewed one stays. Of the others exactly the
      unwanted are switched off. */
  ghost predicate RowExplained(edges: map<Key, Edge>, after: map<Key, Edge>, target: NodeId, timelineId: string,
                               members: set<Membership>, protectedPaths: set<string>, s: NodeId) {
    var k := SidecarKey(s, target);
    && (forall m :: m in members && m.source == s ==>
          && k in after && after[k].resolver == "resolve_project_db"
          && after[k] ==
               if k !in edges then Edge(100, 1, "resolve_project_db", m.evidence, AutoAccepted, true)
               else if edges[k].review == Confirmed || edges[k].review == Rejected then edges[k]
               else edges[k].(evidence := m.evidence, active := true))
    && (s !in Sources(members) ==>
          && (k in after <==> k in edges)
          && (k in edges ==>
                after[k] == if Unwanted(edges, timelineId, protectedPaths, k) then edges[k].(active := false)
                            else edges[k]))
  }

  lemma RowsExplained(t: Tables, target: NodeId, timelineId: string, members: set<Membership>,
                      protectedPaths: set<string>, sources: map<NodeId, Lifecycle>, s: NodeId)
    requires DistinctSources(members) && !Refused(t, target, timelineId, members, protectedPaths, sources)
    ensures RowExplained(t.edges, Reconciled(t, target, timelineId, members, protectedPaths).edges, target, timelineId,
                         members, protectedPaths, s)
  {
    hide StatusOf, WouldCreateCycle, ProtectedPath;
    var k := SidecarKey(s, target);
    forall m | m in members && m.source == s ensures !Unusable(t.edges, target, m, sources) {
      MemberRow(t, target, timelineId, members, protectedPaths, m);
      assert !MemberRefused(t, target, m, sources);
    }
    if s !in Sources(members) && k in t.edges {
      assert k in ListResolveEdges(t.edges, target);
      ProtectedIff(t.edges, timelineId, protectedPaths, k);
    }
  }

  lemma ProtectedIff(edges: map<Key, Edge>, timelineId: string, protectedPaths: set<string>, k: Key)
    requires k in edges
    ensures ProtectedRow(edges, timelineId, protectedPaths, k) <==>
              timelineId != "" && edges[k].evidence.Decode().Some?
              && ProtectedPath(edges[k].evidence.Decode().value, protectedPaths)
  {
  }

  // ---- What the counters count ----

  function MemberKeys(target: NodeId, members: set<Membership>): set<Key> {
    set m | m in members :: SidecarKey(m.source, target)
  }

  lemma KeysOfMembers(target: NodeId, members: set<Membership>)
    requires DistinctSources(members)
    ensures |MemberKeys(target, members)| == |members|
  {
    if members != {} {
      var m :| m in members;
      var rest := members - {m};
      KeysOfMembers(target, rest);
      var all, fewer := MemberKeys(target, members), MemberKeys(target, rest);
      assert all == fewer + {SidecarKey(m.source, target)};
      assert SidecarKey(m.source, target) !in fewer;
    }
  }

  /** The member's row is there, on, and carries its evidence. */
  predicate Current(edges: map<Key, Edge>, target: NodeId, m: Membership) {
    var k := SidecarKey(m.source, target);
    k in edges && edges[k].active && edges[k].evidence == m.evidence
  }

  lemma UntouchedAreCurrent(t: Tables, target: NodeId, members: set<Membership>)
    ensures WithFate(t.edges, target, members, Unchanged)
         == set m | m in members && Current(t.edges, target, m) && !Decided(t.edges, SidecarKey(m.source, target))
    ensures WithFate(t.edges, target, members, ReviewedStale)
         == set m | m in members && Decided(t.edges, SidecarKey(m.source, target)) && !Current(t.edges, target, m)
  {
  }

  lemma ConflictsAreReviewed(t: Tables, target: NodeId, timelineId: string, members: set<Membership>,
                             protectedPaths: set<string>, sources: map<NodeId, Lifecycle>)
    requires !Refused(t, target, timelineId, members, protectedPaths, sources)
    ensures WithDetachment(t.edges, timelineId, Sources(members), protectedPaths, ListResolveEdges(t.edges, target),
                           Reviewed)
         == set k | k in ListResolveEdges(t.edges, target) && k.source !in Sources(members)
                    && t.edges[k].active && t.edges[k].resolver == "resolve_project_db" && Decided(t.edges, k)
                    && !ProtectedRow(t.edges, timelineId, protectedPaths, k)
  {
    hide ProtectedPath, StatusOf, WouldCreateCycle, ProtectedRow;
    forall k | k in ListResolveEdges(t.edges, target)
      ensures ProtectedRow(t.edges, timelineId, protectedPaths, k) <==>
                timelineId != "" && t.edges[k].evidence.Decode().Some?
                && ProtectedPath(t.edges[k].evidence.Decode().value, protectedPaths)
    {
      ProtectedIff(t.edges, timelineId, protectedPaths, k);
    }
  }

  /** The counters are the rows: created those that are new, refreshed those that were there,
      differ and are on now, removed those that were on and are off now; untouched the members
      whose unreviewed row needed nothing; conflicts the reviewed rows that disagree. */
  lemma CountersAreRows(t: Tables, target: NodeId, timelineId: string, members: set<Membership>,
                        protectedPaths: set<string>, sources: map<NodeId, Lifecycle>, stats: Stats)
    requires DistinctSources(members) && !Refused(t, target, timelineId, members, protectedPaths, sources)
    ensures var after := Reconciled(t, target, timelineId, members, protectedPaths).edges;
            var counted := StatsAfter(stats, t.edges, target, timelineId, Sources(members), protectedPaths, members,
                                      ListResolveEdges(t.edges, target));
            && t.edges.Keys <= after.Keys
            && counted.created - stats.created == |after.Keys - t.edges.Keys| == |after| - |t.edges|
            && counted.refreshed - stats.refreshed
               == |set k | k in t.edges && after[k] != t.edges[k] && after[k].active|
            && counted.removed - stats.removed == |set k | k in t.edges && t.edges[k].active && !after[k].active|
            && counted.unresolved == stats.unresolved
            && counted.untouched - stats.untouched
               == |set m | m in members && Current(t.edges, target, m)
                           && !Decided(t.edges, SidecarKey(m.source, target))|
            && counted.reviewedConflicts - stats.reviewedConflicts
               == |set m | m in members && Decided(t.edges, SidecarKey(m.source, target))
                           && !Current(t.edges, target, m)|
                  + |set k | k in ListResolveEdges(t.edges, target) && k.source !in Sources(members)
                             && t.edges[k].active && t.edges[k].resolver == "resolve_project_db" && Decided(t.edges, k)
                             && !ProtectedRow(t.edges, timelineId, protectedPaths, k)|
  {
    ConflictsAreReviewed(t, target, timelineId, members, protectedPaths, sources);
    UntouchedAreCurrent(t, target, members);
    hide StatusOf, WouldCreateCycle, DetachmentOf, ProtectedPath, Refused, Current, ProtectedRow, FateOf;
    CreatedAreNew(t, target, timelineId, members, protectedPaths);
    RefreshedAreChanged(t, target, timelineId, members, protectedPaths);
    RemovedAreOff(t, target, timelineId, members, protectedPaths);
  }

  lemma KeysAfter(t: Tables, target: NodeId, timelineId: string, members: set<Membership>, protectedPaths: set<string>)
    ensures Reconciled(t, target, timelineId, members, protectedPaths).edges.Keys
         == t.edges.Keys + MemberKeys(target, members)
  {
    hide RowAfter, Gone, StatusOf;
  }

  lemma CreatedAreNew(t: Tables, target: NodeId, timelineId: string, members: set<Membership>,
                      protectedPaths: set<string>)
    requires DistinctSources(members)
    ensures var after := Reconciled(t, target, timelineId, members, protectedPaths).edges;
            && t.edges.Keys <= after.Keys
            && |WithFate(t.edges, target, members, Create)| == |after.Keys - t.edges.Keys| == |after| - |t.edges|
  {
    hide Reconciled, FateOf;
    var after := Reconciled(t, target, timelineId, members, protectedPaths).edges;
    var created := WithFate(t.edges, target, members, Create);
    var fresh_ := MemberKeys(target, created);
    KeysAfter(t, target, timelineId, members, protectedPaths);
    CreatedKeys(t.edges, target, members, created);
    KeysOfMembers(target, created);
    hide MemberKeys, WithFate;
    KeysGrow(t.edges.Keys, after.Keys, fresh_);
    assert |after| == |after.Keys| && |t.edges| == |t.edges.Keys|;
  }

  lemma KeysGrow(before: set<Key>, after: set<Key>, fresh_: set<Key>)
    requires after == before + fresh_ && before !! fresh_
    ensures after - before == fresh_ && |after| == |before| + |fresh_|
  {
  }

  lemma CreatedKeys(edges: map<Key, Edge>, target: NodeId, members: set<Membership>, created: set<Membership>)
    requires created == WithFate(edges, target, members, Create)
    ensures edges.Keys + MemberKeys(target, members) == edges.Keys + MemberKeys(target, created)
    ensures edges.Keys !! MemberKeys(target, created)
  {
  }

  lemma RefreshedAreChanged(t: Tables, target: NodeId, timelineId: string, members: set<Membership>,
                            protectedPaths: set<string>)
    requires DistinctSources(members)
    ensures var after := Reconciled(t, target, timelineId, members, protectedPaths).edges;
            t.edges.Keys <= after.Keys
            && |WithFate(t.edges, target, members, Refresh)|
               == |set k | k in t.edges && after[k] != t.edges[k] && after[k].active|
  {
    hide StatusOf, DetachmentOf;
    var after := Reconciled(t, target, timelineId, members, protectedPaths).edges;
    var refreshed := WithFate(t.edges, target, members, Refresh);
    KeysOfMembers(target, refreshed);
    var changed := set k | k in t.edges && after[k] != t.edges[k] && after[k].active;
    forall k | k in changed ensures exists m :: m in refreshed && SidecarKey(m.source, target) == k {
      assert IsMemberKey(target, members, k);
      var m :| m in members && m.source == k.source;
      EvidenceIsTheMembers(members, m);
      assert m in refreshed && SidecarKey(m.source, target) == k;
    }
    forall m | m in refreshed ensures SidecarKey(m.source, target) in changed {
      EvidenceIsTheMembers(members, m);
    }
    assert changed == MemberKeys(target, refreshed);
  }

  lemma RemovedAreOff(t: Tables, target: NodeId, timelineId: string, members: set<Membership>,
                      protectedPaths: set<string>)
    requires DistinctSources(members)
    ensures var after := Reconciled(t, target, timelineId, members, protectedPaths).edges;
            t.edges.Keys <= after.Keys
            && WithDetachment(t.edges, timelineId, Sources(members), protectedPaths, ListResolveEdges(t.edges, target),
                              Remove)
               == set k | k in t.edges && t.edges[k].active && !after[k].active
  {
    hide StatusOf, ProtectedPath;
  }

  /** Running the same snapshot again is accepted, changes nothing, and creates, refreshes
      and removes nothing. */
  lemma RerunIsIdle(t: Tables, target: NodeId, timelineId: string, members: set<Membership>,
                    protectedPaths: set<string>,
                    sources: map<NodeId, Lifecycle>)
    requires DistinctSources(members)
    requires !Refused(t, target, timelineId, members, protectedPaths, sources)
    ensures var t' := Reconciled(t, target, timelineId, members, protectedPaths);
            && !Refused(t', target, timelineId, members, protectedPaths, sources)
            && Reconciled(t', target, timelineId, members, protectedPaths) == t'
            && WithFate(t'.edges, target, members, Create) == {} == WithFate(t'.edges, target, members, Refresh)
            && Gone(t'.edges, target, timelineId, Sources(members), protectedPaths) == {}
  {
    hide StatusOf, WouldCreateCycle;
    var t' := Reconciled(t, target, timelineId, members, protectedPaths);
    forall m | m in members
      ensures !MemberRefused(t', target, m, sources) && FateOf(t'.edges, target, m) !in {Create, Refresh}
    {
      MemberRow(t, target, timelineId, members, protectedPaths, m);
      assert !Unusable(t.edges, target, m, sources);
    }
    forall k | k in ListResolveEdges(t'.edges, target)
      ensures DetachmentOf(t'.edges, timelineId, Sources(members), protectedPaths, k) !in {Broken, Remove}
    {
      if k.source !in Sources(members) {
        assert k in ListResolveEdges(t.edges, target);
      }
    }
    RerunRows(t, target, timelineId, members, protectedPaths);
  }

  lemma RerunRows(t: Tables, target: NodeId, timelineId: string, members: set<Membership>, protectedPaths: set<string>)
    requires DistinctSources(members)
    requires var t' := Reconciled(t, target, timelineId, members, protectedPaths);
             Gone(t'.edges, target, timelineId, Sources(members), protectedPaths) == {}
    ensures var t' := Reconciled(t, target, timelineId, members, protectedPaths);
            Reconciled(t', target, timelineId, members, protectedPaths) == t'
  {
    hide StatusOf, DetachmentOf;
    var t' := Reconciled(t, target, timelineId, members, protectedPaths);
    var again := RowsAfter(t'.edges, target, members, {});
    forall k | k in again ensures k in t'.edges && again[k] == t'.edges[k] {
      if IsMemberKey(target, members, k) {
        var m :| m in members && m.source == k.source;
        assert k == SidecarKey(m.source, target);
        MemberRow(t, target, timelineId, members, protectedPaths, m);
        EvidenceIsTheMembers(members, m);
      }
    }
    assert again.Keys == t'.edges.Keys;
    assert again == t'.edges;
  }

  /** The row work touches neither a human decision nor a row of another node. */
  lemma RowsAfterKeeps(rows: map<Key, Edge>, target: NodeId, timelineId: string, members: set<Membership>,
                       protectedPaths: set<string>)
    ensures var rows' := RowsAfter(rows, target, members,
                                   Gone(rows, target, timelineId, Sources(members), protectedPaths));
            && KeepsDecisions(rows, rows')
            && rows.Keys <= rows'.Keys
            && forall n :: n != target ==> SameIncoming(rows, rows', n)
  {
  }

  lemma RowsAfterReferential(t: Tables, target: NodeId, timelineId: string, members: set<Membership>,
                             protectedPaths: set<string>,
                             sources: map<NodeId, Lifecycle>)
    requires Referential(t) && !Refused(t, target, timelineId, members, protectedPaths, sources)
    ensures Referential(Reconciled(t, target, timelineId, members, protectedPaths))
  {
    var t' := Reconciled(t, target, timelineId, members, protectedPaths);
    forall k | k in t'.edges ensures Insertable(t, k) {
      if k !in t.edges {
        var m :| m in members && SidecarKey(m.source, target) == k;
        assert !MemberRefused(t, target, m, sources);
      }
    }
  }

  /** A reconcile keeps every human decision, the foreign keys and the graph_status
      derivation; it changes no node but the timeline, and that only in its graph_status. */
  lemma ReconcileKeeps(t: Tables, target: NodeId, timelineId: string, members: set<Membership>,
                       protectedPaths: set<string>,
                       sources: map<NodeId, Lifecycle>)
    requires !Refused(t, target, timelineId, members, protectedPaths, sources)
    ensures var t' := Reconciled(t, target, timelineId, members, protectedPaths);
            && KeepsDecisions(t.edges, t'.edges)
            && (StatusDerived(t) ==> StatusDerived(t'))
            && (Referential(t) ==> Referential(t'))
            && t' == t.(nodes := UpdateGraphStatus(t.nodes, target, StatusOf(t'.edges, target)), edges := t'.edges)
  {
    RowsAfterKeeps(t.edges, target, timelineId, members, protectedPaths);
    if StatusDerived(t) {
      RecomputeDerives(t, t.(edges := Reconciled(t, target, timelineId, members, protectedPaths).edges), target);
    }
    if Referential(t) {
      RowsAfterReferential(t, target, timelineId, members, protectedPaths, sources);
    }
  }

  // ---- Acyclicity, and the refresh that is not checked ----

  /** The member would switch a stored, inactive, unreviewed row back on. */
  predicate Reactivates(rows: map<Key, Edge>, target: NodeId, m: Membership) {
    FateOf(rows, target, m) == Refresh && !rows[SidecarKey(m.source, target)].active
  }

  /** Every row the call switches back on passes the check the code leaves out. */
  ghost predicate RefreshesGuarded(t: Tables, target: NodeId, members: set<Membership>) {
    forall m :: m in members && Reactivates(t.edges, target, m) ==> !WouldCreateCycle(t, m.source, target)
  }

  lemma GuardedAttachAcyclic(t: Tables, target: NodeId, members: set<Membership>, sources: map<NodeId, Lifecycle>)
    requires AcyclicEdges(t) && RefreshesGuarded(t, target, members)
    requires forall m :: m in members ==> !MemberRefused(t, target, m, sources)
    ensures Acyclic(ActiveRelation(RowsAfter(t.edges, target, members, {})))
  {
    var attached := RowsAfter(t.edges, target, members, {});
    var E, A := ActiveRelation(t.edges), ActiveRelation(attached);
    AttachedActivatesInto(t.edges, target, members);
    ActivationGrowsInto(t.edges, attached, target);
    forall s | (s, target) in A && (s, target) !in E ensures !Reaches(E, target, s) {
      NewlyActive(t, target, members, s);
      var m :| m in members && m.source == s && FateOf(t.edges, target, m) in {Create, Refresh}
            && (FateOf(t.edges, target, m) == Refresh ==> Reactivates(t.edges, target, m));
      assert !MemberRefused(t, target, m, sources);
      DescendantsExact(E, target, s);
    }
    GrowthAcyclicIff(E, A, target);
  }

  lemma UnguardedRefreshCycles(t: Tables, target: NodeId, timelineId: string, members: set<Membership>,
                               protectedPaths: set<string>,
                               m: Membership)
    requires DistinctSources(members) && m in members
    requires Reactivates(t.edges, target, m) && WouldCreateCycle(t, m.source, target)
    ensures !AcyclicEdges(Reconciled(t, target, timelineId, members, protectedPaths))
  {
    var attached := RowsAfter(t.edges, target, members, {});
    var final := Reconciled(t, target, timelineId, members, protectedPaths).edges;
    var E, A, F := ActiveRelation(t.edges), ActiveRelation(attached), ActiveRelation(final);
    AttachedActivatesInto(t.edges, target, members);
    ActivationGrowsInto(t.edges, attached, target);
    DetachingShrinks(t.edges, target, timelineId, members, protectedPaths);
    ActivationGrowsInto(final, attached, target);
    var k := SidecarKey(m.source, target);
    MemberRow(t, target, timelineId, members, protectedPaths, m);
    assert k in final && (k.source, k.target) in F;
    DescendantsExact(E, target, m.source);
    GrowthKeepsDescendants(E, A, target, m.source);
    GrowthKeepsDescendants(F, A, target, m.source);
  }

  /** RefreshResolveEdge is the one activation with no cycle check before it. From an acyclic
      lineage, a successful reconcile stays acyclic exactly when the timeline reaches the
      source of none of the rows it switches back on. */
  lemma ReconcileAcyclicIff(t: Tables, target: NodeId, timelineId: string, members: set<Membership>,
                            protectedPaths: set<string>,
                            sources: map<NodeId, Lifecycle>)
    requires AcyclicEdges(t) && DistinctSources(members)
    requires !Refused(t, target, timelineId, members, protectedPaths, sources)
    ensures var after := Reconciled(t, target, timelineId, members, protectedPaths);
            AcyclicEdges(after) <==> RefreshesGuarded(t, target, members)
  {
    if RefreshesGuarded(t, target, members) {
      var attached := RowsAfter(t.edges, target, members, {});
      var final := Reconciled(t, target, timelineId, members, protectedPaths).edges;
      GuardedAttachAcyclic(t, target, members, sources);
      DetachingShrinks(t.edges, target, timelineId, members, protectedPaths);
      ActivationGrowsInto(final, attached, target);
      ShrinkAcyclic(ActiveRelation(attached), ActiveRelation(final));
    } else {
      var m :| m in members && Reactivates(t.edges, target, m) && WouldCreateCycle(t, m.source, target);
      UnguardedRefreshCycles(t, target, timelineId, members, protectedPaths, m);
    }
  }

  lemma AttachedActivatesInto(rows: map<Key, Edge>, target: NodeId, members: set<Membership>)
    ensures ActivatesOnlyInto(rows, RowsAfter(rows, target, members, {}), target)
  {
  }

  lemma DetachingShrinks(rows: map<Key, Edge>, target: NodeId, timelineId: string, members: set<Membership>,
                         protectedPaths: set<string>)
    ensures ActivatesOnlyInto(RowsAfter(rows, target, members,
                                        Gone(rows, target, timelineId, Sources(members), protectedPaths)),
                              RowsAfter(rows, target, members, {}), target)
  {
  }

  /** An edge of the relation that attaching added comes from a created or revived member. */
  lemma NewlyActive(t: Tables, target: NodeId, members: set<Membership>, s: NodeId)
    requires (s, target) in ActiveRelation(RowsAfter(t.edges, target, members, {}))
    requires (s, target) !in ActiveRelation(t.edges)
    ensures exists m :: m in members && m.source == s && FateOf(t.edges, target, m) in {Create, Refresh}
              && (FateOf(t.edges, target, m) == Refresh ==> Reactivates(t.edges, target, m))
  {
    var attached := RowsAfter(t.edges, target, members, {});
    var k :| k in attached && attached[k].active && (k.source, k.target) == (s, target);
    assert !(k in t.edges && t.edges[k].active);
    assert IsMemberKey(target, members, k);
    var m :| m in members && m.source == s;
    assert SidecarKey(m.source, target) == k;
  }
}
