/**
  The Resolve snapshot endpoint: validate, then register, reconcile and retire in one
  transaction, or change nothing.
 */
module SnapshotEndpoint {
  import opened Wrappers
  import opened Reachability
  import opened Store
  import opened Snapshot
  import opened SnapshotRequest
  import opened SnapshotOwnership

  lemma RequestOutcome(t: Tables, ctx: Context, body: Body)
    requires SnapshotTx(t, ctx, body).Some?
    ensures BodyOk(ctx, body) && AllRegistrable(t, ctx, body)
    ensures ListsRows(ctx) ==> WithinAuthority(t, ctx, body, SnapshotTx(t, ctx, body).value.0)
    ensures SnapshotTx(t, ctx, body).value.1.created == |SnapshotTx(t, ctx, body).value.0.edges| - |t.edges|
  {
    hide WithinAuthority, Registrable, RunJobs, Registered;
    RegisteredIff(t, ctx, body);
    SnapshotCreates(t, ctx, body);
    if ListsRows(ctx) {
      SnapshotWithinAuthority(t, ctx, body);
    }
  }

  /** The endpoint: all of it, or nothing. */
  method HandleResolveSnapshot(db: Database, ctx: Context, body: Body) returns (r: Result<Stats, SnapshotError>)
    modifies db
    ensures match SnapshotTx(old(db.tables), ctx, body)
            case Some(after) => r == Ok(after.1) && db.tables == after.0
            case None => r.Err? && db.tables == old(db.tables)
    ensures var scopesOk := ValidScopeId(body.scopeId) &&
                (body.retireScopeId == "" || ValidScopeId(body.retireScopeId));
            var small := |body.memberships| <= 10_000 && |body.timelines| <= 10_000 && |body.legacyUuids| <= 10_000;
            && (r == Err(Forbidden) <==> body.agentId != ctx.principal)
            && (r == Err(TooLarge) <==> body.agentId == ctx.principal && scopesOk && !small)
            && (body.agentId == ctx.principal && !scopesOk ==> r == Err(BadRequest))
            && (r == Err(NotConfigured) <==> body.agentId == ctx.principal && scopesOk && small && ctx.guard.None?)
    ensures r.Err? && BodyOk(ctx, body) ==> r.error == Conflict || r.error == Internal
    ensures r.Ok? ==> BodyOk(ctx, body) && AllRegistrable(old(db.tables), ctx, body)
    ensures r.Ok? && ListsRows(ctx) ==> WithinAuthority(old(db.tables), ctx, body, db.tables)
    ensures r.Ok? ==> r.value.created == |db.tables.edges| - |old(db.tables).edges|
  {
    hide Registrable;
    if SnapshotTx(db.tables, ctx, body).Some? {
      RequestOutcome(db.tables, ctx, body);
    }
    if body.agentId != ctx.principal {
      return Err(Forbidden);
    }
    if !ValidScopeId(body.scopeId) || (body.retireScopeId != "" && !ValidScopeId(body.retireScopeId)) {
      return Err(BadRequest);
    }
    if |body.memberships| > MAX_ENTRIES || |body.timelines| > MAX_ENTRIES || |body.legacyUuids| > MAX_ENTRIES {
      return Err(TooLarge);
    }
    if ctx.guard.None? {
      return Err(NotConfigured);
    }
    var timelineIds := ValidateTimelines(ctx, ctx.guard.value, body.timelines);
    if timelineIds.Err? {
      return Err(timelineIds.error);
    }
    var plan := ValidateMemberships(ctx, timelineIds.value, body.memberships);
    if plan.Err? {
      return Err(plan.error);
    }
    assert BodyOk(ctx, body);
    var start := db.tables;
    var sources := SourceRows(db.tables, ctx, body.memberships);
    var targets := Register(db, ctx, body);
    if targets.Err? {
      db.tables := start;
      return Err(targets.error);
    }
    ghost var registered, zero := db.tables, Stats(0, 0, 0, 0, plan.value.unresolved, 0);
    var ids := ctx.listing(ScopeRows(db.tables, body.agentId, body.scopeId));
    RunAppend(registered, zero, ScopeJobs(ctx, body.memberships, targets.value, ids),
              RetiredJobs(ctx, body, Tx(registered, targets.value)), sources);
    r := ReconcileScope(db, ctx, body.memberships, plan.value, targets.value, sources, ids,
                        Stats(0, 0, 0, 0, plan.value.unresolved, 0));
    if r.Ok? && body.retireScopeId != "" && body.retireScopeId != body.scopeId {
      var oldIds := ctx.listing(ScopeRows(db.tables, body.agentId, body.retireScopeId));
      r := RetireScope(db, targets.value, sources, oldIds, r.value);
    }
    if r.Err? {
      db.tables := start;
    }
  }
}
