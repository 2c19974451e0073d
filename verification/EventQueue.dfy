/**
  The drainer's durable queue: list the due rows oldest first, apply each in its own
  transaction, and mark it PROCESSED, mark it FAILED, or defer it. Clocks, files, resolver
  results and failing writes come from outside, one reading at a time.
 */
module EventQueue {
  import opened Wrappers
  import opened Reachability
  import opened Store
  import opened Engine
  import opened AgentEvents
  import opened AgentRules
  import opened AgentAcceptance
  import opened AgentOutcomes
  import AgentWorker
  import opened Retry

  datatype Status = Pending | Processed | Failed

  datatype Row = Row(createdAt: int, event: Event, status: Status, retryCount: nat, nextAttemptAt: int)

  type Queue = map<nat, Row>

  /** What the drainer meets at its n-th look outside: the world (clock included), whether the
      transaction that applies an event can begin and commit, whether the FAILED mark and the
      deferral can be written, and what the resolvers propose for a node. */
  datatype Env = Env(
    world: nat -> World, applyOk: nat -> bool, failOk: nat -> bool, deferOk: nat -> bool,
    candidates: nat -> seq<Candidate>)

  // ---- Listing ----

  predicate Due(r: Row, now: int) {
    r.status == Pending && r.nextAttemptAt <= now
  }

  function DueRows(q: Queue, now: int): set<nat> {
    set id | id in q && Due(q[id], now)
  }

  /** ORDER BY created_at, id. */
  predicate Before(q: Queue, a: nat, b: nat)
    requires a in q && b in q
  {
    q[a].createdAt < q[b].createdAt || (q[a].createdAt == q[b].createdAt && a < b)
  }

  /** The first `limit` due rows, oldest first. */
  ghost predicate IsListing(q: Queue, now: int, limit: nat, ids: seq<nat>) {
    && (forall i :: 0 <= i < |ids| ==> ids[i] in DueRows(q, now))
    && (forall i, j :: 0 <= i < j < |ids| ==> Before(q, ids[i], ids[j]))
    && |ids| <= limit
    && (|ids| < limit ==> forall id :: id in DueRows(q, now) ==> id in ids)
    && (forall id, i :: id in DueRows(q, now) && id !in ids && 0 <= i < |ids| ==> Before(q, ids[i], id))
  }

  method Oldest(q: Queue, ids: set<nat>) returns (first: nat)
    requires ids != {} && ids <= q.Keys
    ensures first in ids && forall id :: id in ids && id != first ==> Before(q, first, id)
  {
    first :| first in ids;
    var rest := ids - {first};
    while rest != {}
      invariant rest <= ids && first in ids && first !in rest
      invariant forall id :: id in ids && id !in rest && id != first ==> Before(q, first, id)
      decreases rest
    {
      var id :| id in rest;
      if Before(q, id, first) {
        first := id;
      }
      rest := rest - {id};
    }
  }

  method ListPending(q: Queue, now: int, limit: nat) returns (ids: seq<nat>)
    ensures IsListing(q, now, limit, ids)
  {
    ids := [];
    var rest := DueRows(q, now);
    while rest != {} && |ids| < limit
      invariant forall id :: id in DueRows(q, now) <==> id in rest || id in ids
      invariant forall i :: 0 <= i < |ids| ==> ids[i] !in rest
      invariant forall i, j :: 0 <= i < j < |ids| ==> Before(q, ids[i], ids[j])
      invariant |ids| <= limit
      invariant forall id, i :: id in rest && 0 <= i < |ids| ==> Before(q, ids[i], id)
      decreases rest
    {
      var id := Oldest(q, rest);
      ids := ids + [id];
      rest := rest - {id};
    }
  }

  /** What a listing is: pending rows that have come due, oldest first, ties by id; and a due row is
      left out only by the limit, behind everything listed. */
  lemma ListingOrder(q: Queue, now: int, limit: nat, ids: seq<nat>)
    requires IsListing(q, now, limit, ids)
    ensures forall i :: 0 <= i < |ids| ==>
              ids[i] in q && q[ids[i]].status == Pending && q[ids[i]].nextAttemptAt <= now
    ensures forall i, j :: 0 <= i < j < |ids| ==>
              || q[ids[i]].createdAt < q[ids[j]].createdAt
              || (q[ids[i]].createdAt == q[ids[j]].createdAt && ids[i] < ids[j])
    ensures forall id :: id in q && q[id].status == Pending && q[id].nextAttemptAt <= now && id !in ids ==>
              |ids| == limit
              && forall i :: 0 <= i < |ids| ==>
                   || q[ids[i]].createdAt < q[id].createdAt
                   || (q[ids[i]].createdAt == q[id].createdAt && ids[i] < id)
  {
  }

  /** The order and the limit leave no choice: two listings of one queue are the same. */
  lemma {:induction false} ListingUnique(q: Queue, now: int, limit: nat, a: seq<nat>, b: seq<nat>, n: nat)
    requires IsListing(q, now, limit, a) && IsListing(q, now, limit, b)
    requires n <= |a| && n <= |b|
    ensures a[..n] == b[..n]
  {
    if n > 0 {
      ListingUnique(q, now, limit, a, b, n - 1);
      var x, y := a[n - 1], b[n - 1];
      if x != y {
        assert forall i :: 0 <= i < n - 1 ==> a[i] == a[..n - 1][i] == b[..n - 1][i] == b[i];
        ListingHead(q, now, limit, b, n - 1, x);
        ListingHead(q, now, limit, a, n - 1, y);
      }
    }
  }

  /** A due row not among the first n of a listing does not come before the next one. */
  lemma ListingHead(q: Queue, now: int, limit: nat, ids: seq<nat>, n: nat, x: nat)
    requires IsListing(q, now, limit, ids) && n < |ids|
    requires x in DueRows(q, now) && forall i :: 0 <= i < n ==> ids[i] != x
    ensures x == ids[n] || Before(q, ids[n], x)
  {
    if x in ids {
      var i :| 0 <= i < |ids| && ids[i] == x;
    }
  }

  // ---- One event ----

  /** The drainer's state; `tick` counts its looks outside. */
  datatype State = State(queue: Queue, tables: Tables, tick: nat, processed: nat, failed: nat)

  /** The resolve pass after a committed event; its failure is logged, not fatal. */
  function AfterCommit(env: Env, tick: nat, a: Applied): Tables {
    if a.resolve.None? then a.tables
    else
      match EnginePass(a.tables, env.candidates(tick))
      case Ok(p) => p.tables
      case Err(_) => a.tables
  }

  /** The transaction that applies an event and marks its row PROCESSED. */
  function Applying(env: Env, s: State, ev: Event): Result<Applied, EventError>
    requires Indexed(s.tables)
  {
    if env.applyOk(s.tick) then ApplyEvent(s.tables, env.world(s.tick), ev) else Err(TransactionFailed)
  }

  /** What becomes of the row of an event that failed: counted and marked FAILED, or deferred.
      A mark that cannot be written leaves the row as it was -- and is counted all the same. */
  function GiveUpOrDefer(env: Env, maxRetries: nat, s: State, id: nat, e: EventError): State
    requires id in s.queue
  {
    var row := s.queue[id];
    var attempts := row.retryCount + 1;
    if Fatal(e) || attempts >= maxRetries then
      s.(queue := if env.failOk(s.tick) then s.queue[id := row.(status := Failed)] else s.queue,
         tick := s.tick + 1, failed := s.failed + 1)
    else
      var due := env.world(s.tick).now + Delay(attempts);
      s.(queue := if env.deferOk(s.tick)
                  then s.queue[id := row.(retryCount := attempts, nextAttemptAt := due)]
                  else s.queue,
         tick := s.tick + 1)
  }

  function Attempt(env: Env, maxRetries: nat, s: State, id: nat): State
    requires id in s.queue && Indexed(s.tables)
  {
    match Applying(env, s, s.queue[id].event)
    case Ok(a) =>
      s.(queue := s.queue[id := s.queue[id].(status := Processed)], tables := AfterCommit(env, s.tick, a),
         tick := s.tick + 1, processed := s.processed + 1)
    case Err(e) => GiveUpOrDefer(env, maxRetries, s.(tick := s.tick + 1), id, e)
  }

  lemma EnginePassSound(t: Tables, cs: seq<Candidate>)
    requires Sound(t) && EnginePass(t, cs).Ok?
    ensures Sound(EnginePass(t, cs).value.tables)
  {
    hide StatusesMatch, EndpointsKnown, NoClashes, Clash, KeepsDecisions;
    EnginePassKeeps(t, cs);
    var p := CommitAll(Pass(t, [], 0), Merge(cs)).value;
    EmptyPassKept(t);
    CommitAllKeeps(t, Pass(t, [], 0), Merge(cs));
    IndexedKept(t, EnginePass(t, cs).value.tables);
  }

  lemma AttemptSafe(env: Env, maxRetries: nat, s: State, id: nat)
    requires id in s.queue && Sound(s.tables)
    ensures Safe(s.tables, Attempt(env, maxRetries, s, id).tables)
  {
    hide StatusesMatch, EndpointsKnown, NoClashes, Clash, ApplyEvent, EnginePass;
    var ev := s.queue[id].event;
    if Applying(env, s, ev).Ok? {
      EventKeeps(s.tables, env.world(s.tick), ev);
      var a := Applying(env, s, ev).value;
      if a.resolve.Some? && EnginePass(a.tables, env.candidates(s.tick)).Ok? {
        EnginePassKeeps(a.tables, env.candidates(s.tick));
        EnginePassSound(a.tables, env.candidates(s.tick));
      }
    }
  }

  // ---- A batch ----

  ghost function RunBatch(env: Env, maxRetries: nat, s: State, ids: seq<nat>): (s': State)
    requires Sound(s.tables) && forall i :: 0 <= i < |ids| ==> ids[i] in s.queue
    ensures Safe(s.tables, s'.tables) && s'.queue.Keys == s.queue.Keys && s'.tick >= s.tick
    decreases |ids|
  {
    hide StatusesMatch, EndpointsKnown, NoClashes, AcyclicEdges, KeepsDecisions, Attempt;
    if ids == [] then s
    else
      AttemptSafe(env, maxRetries, s, ids[0]);
      AttemptKeys(env, maxRetries, s, ids[0]);
      RunBatch(env, maxRetries, Attempt(env, maxRetries, s, ids[0]), ids[1..])
  }

  lemma {:induction false} RunBatchSplit(env: Env, maxRetries: nat, s: State, ids: seq<nat>, n: nat)
    requires Sound(s.tables) && n <= |ids| && forall i :: 0 <= i < |ids| ==> ids[i] in s.queue
    ensures RunBatch(env, maxRetries, s, ids)
         == RunBatch(env, maxRetries, RunBatch(env, maxRetries, s, ids[..n]), ids[n..])
    decreases n
  {
    hide StatusesMatch, EndpointsKnown, NoClashes, AcyclicEdges, KeepsDecisions, Attempt;
    if n == 0 {
      assert ids[0..] == ids;
    } else {
      AttemptSafe(env, maxRetries, s, ids[0]);
      AttemptKeys(env, maxRetries, s, ids[0]);
      assert ids[..n][1..] == ids[1..][..n - 1] && ids[n..] == ids[1..][n - 1..];
      RunBatchSplit(env, maxRetries, Attempt(env, maxRetries, s, ids[0]), ids[1..], n - 1);
    }
  }

  lemma AttemptKeys(env: Env, maxRetries: nat, s: State, id: nat)
    requires id in s.queue && Sound(s.tables)
    ensures var s' := Attempt(env, maxRetries, s, id);
            s'.queue.Keys == s.queue.Keys && s'.tick >= s.tick &&
            forall j :: j in s.queue && j != id ==> s'.queue[j] == s.queue[j]
  {
    hide StatusesMatch, EndpointsKnown, NoClashes, Applying, AfterCommit;
  }

  lemma {:induction false} RunBatchFrame(env: Env, maxRetries: nat, s: State, ids: seq<nat>, j: nat)
    requires Sound(s.tables) && j in s.queue && j !in ids && forall i :: 0 <= i < |ids| ==> ids[i] in s.queue
    ensures RunBatch(env, maxRetries, s, ids).queue[j] == s.queue[j]
    decreases |ids|
  {
    hide StatusesMatch, EndpointsKnown, NoClashes, AcyclicEdges, KeepsDecisions, Attempt;
    if ids != [] {
      AttemptSafe(env, maxRetries, s, ids[0]);
      AttemptKeys(env, maxRetries, s, ids[0]);
      RunBatchFrame(env, maxRetries, Attempt(env, maxRetries, s, ids[0]), ids[1..], j);
    }
  }

  /** Each listed row is decided exactly once, by its own attempt: until then it stands as it
      was listed, and nothing later in the batch touches it. */
  lemma DecidedOnce(env: Env, maxRetries: nat, s: State, ids: seq<nat>, i: nat)
    requires Sound(s.tables) && i < |ids| && forall k :: 0 <= k < |ids| ==> ids[k] in s.queue
    requires forall j, k :: 0 <= j < k < |ids| ==> ids[j] != ids[k]
    ensures var turn, id := RunBatch(env, maxRetries, s, ids[..i]), ids[i];
            && turn.queue[id] == s.queue[id]
            && Attempt(env, maxRetries, turn, id).queue[id] == RunBatch(env, maxRetries, s, ids).queue[id]
  {
    hide StatusesMatch, EndpointsKnown, NoClashes, AcyclicEdges, KeepsDecisions, Attempt;
    RunBatchSplit(env, maxRetries, s, ids, i);
    RunBatchFrame(env, maxRetries, s, ids[..i], ids[i]);
    var turn := RunBatch(env, maxRetries, s, ids[..i]);
    var rest := ids[i..];
    assert rest[0] == ids[i] && ids[i] !in rest[1..];
    AttemptSafe(env, maxRetries, turn, ids[i]);
    AttemptKeys(env, maxRetries, turn, ids[i]);
    RunBatchFrame(env, maxRetries, Attempt(env, maxRetries, turn, ids[i]), rest[1..], ids[i]);
  }

  // ---- What a run of attempts adds up to ----

  /** The attempts a row may still cost: none once it is decided, otherwise what is left of
      its retry budget -- and one, even when a lowered budget leaves none. */
  function Cost(r: Row, maxRetries: nat): nat {
    if r.status != Pending then 0 else if r.retryCount < maxRetries then maxRetries - r.retryCount else 1
  }

  ghost function Work(q: Queue, maxRetries: nat, ids: set<nat>): nat
    requires ids <= q.Keys
  {
    if ids == {} then 0
    else
      var id :| id in ids;
      Cost(q[id], maxRetries) + Work(q, maxRetries, ids - {id})
  }

  lemma {:induction false} WorkAt(q: Queue, maxRetries: nat, ids: set<nat>, x: nat)
    requires ids <= q.Keys && x in ids
    ensures Work(q, maxRetries, ids) == Cost(q[x], maxRetries) + Work(q, maxRetries, ids - {x})
    decreases ids
  {
    var id :| id in ids && Work(q, maxRetries, ids) == Cost(q[id], maxRetries) + Work(q, maxRetries, ids - {id});
    if id != x {
      WorkAt(q, maxRetries, ids - {id}, x);
      WorkAt(q, maxRetries, ids - {x}, id);
      assert ids - {id} - {x} == ids - {x} - {id};
    }
  }

  lemma {:induction false} WorkSame(q: Queue, q': Queue, maxRetries: nat, ids: set<nat>)
    requires ids <= q.Keys && ids <= q'.Keys && forall id :: id in ids ==> q[id] == q'[id]
    ensures Work(q, maxRetries, ids) == Work(q', maxRetries, ids)
    decreases ids
  {
    if ids != {} {
      var id :| id in ids;
      WorkAt(q, maxRetries, ids, id);
      WorkAt(q', maxRetries, ids, id);
      WorkSame(q, q', maxRetries, ids - {id});
    }
  }

  lemma WorkUpdate(q: Queue, maxRetries: nat, x: nat, r: Row)
    requires x in q
    ensures Work(q[x := r], maxRetries, q[x := r].Keys)
            == Work(q, maxRetries, q.Keys) - Cost(q[x], maxRetries) + Cost(r, maxRetries)
  {
    assert q[x := r].Keys == q.Keys;
    WorkAt(q, maxRetries, q.Keys, x);
    WorkAt(q[x := r], maxRetries, q.Keys, x);
    WorkSame(q, q[x := r], maxRetries, q.Keys - {x});
  }

  function RowsIn(q: Queue, status: Status): set<nat> {
    set id | id in q && q[id].status == status
  }

  /** From s to s' by attempts on pending rows. */
  ghost predicate Progress(maxRetries: nat, s: State, s': State) {
    && s'.queue.Keys == s.queue.Keys
    && (forall id :: id in s.queue && s.queue[id].status != Pending ==> s'.queue[id] == s.queue[id])
    && s'.processed == s.processed + |RowsIn(s'.queue, Processed)| - |RowsIn(s.queue, Processed)|
    && s'.failed >= s.failed + |RowsIn(s'.queue, Failed)| - |RowsIn(s.queue, Failed)|
    && s'.processed >= s.processed && s'.failed >= s.failed
    && Work(s'.queue, maxRetries, s'.queue.Keys) <= Work(s.queue, maxRetries, s.queue.Keys)
    && (s'.processed == s.processed ==> s'.tables == s.tables)
  }

  /** ... when every FAILED mark gets written. */
  ghost predicate FullProgress(maxRetries: nat, s: State, s': State) {
    && s'.failed == s.failed + |RowsIn(s'.queue, Failed)| - |RowsIn(s.queue, Failed)|
    && Work(s'.queue, maxRetries, s'.queue.Keys) + (s'.processed - s.processed) + (s'.failed - s.failed)
         <= Work(s.queue, maxRetries, s.queue.Keys)
  }

  ghost predicate FailedMarksSucceed(env: Env) {
    forall n :: env.failOk(n)
  }

  lemma Settle(q: Queue, id: nat, status: Status)
    requires id in q && q[id].status == Pending && status != Pending
    ensures var q' := q[id := q[id].(status := status)];
            && RowsIn(q', status) == RowsIn(q, status) + {id} && id !in RowsIn(q, status)
            && forall other :: other != status && other != Pending ==> RowsIn(q', other) == RowsIn(q, other)
  {
  }

  lemma AttemptProgress(env: Env, maxRetries: nat, s: State, id: nat)
    requires id in s.queue && s.queue[id].status == Pending && Sound(s.tables)
    ensures Progress(maxRetries, s, Attempt(env, maxRetries, s, id))
    ensures FailedMarksSucceed(env) ==> FullProgress(maxRetries, s, Attempt(env, maxRetries, s, id))
  {
    hide StatusesMatch, EndpointsKnown, NoClashes, Applying, AfterCommit, Work, Delay, Fatal;
    var s' := Attempt(env, maxRetries, s, id);
    if s'.queue != s.queue {
      var r := s'.queue[id];
      WorkUpdate(s.queue, maxRetries, id, r);
      assert s'.queue == s.queue[id := r];
      if r.status != Pending {
        Settle(s.queue, id, r.status);
      } else {
        assert forall other :: other != Pending ==> RowsIn(s'.queue, other) == RowsIn(s.queue, other);
      }
    }
  }

  lemma {:induction false} BatchProgress(env: Env, maxRetries: nat, s: State, ids: seq<nat>)
    requires Sound(s.tables) && forall i :: 0 <= i < |ids| ==> ids[i] in s.queue && s.queue[ids[i]].status == Pending
    requires forall i, j :: 0 <= i < j < |ids| ==> ids[i] != ids[j]
    ensures Progress(maxRetries, s, RunBatch(env, maxRetries, s, ids))
    ensures FailedMarksSucceed(env) ==> FullProgress(maxRetries, s, RunBatch(env, maxRetries, s, ids))
    decreases |ids|
  {
    hide StatusesMatch, EndpointsKnown, NoClashes, AcyclicEdges, KeepsDecisions, Attempt, Work, RowsIn;
    if ids != [] {
      AttemptSafe(env, maxRetries, s, ids[0]);
      AttemptKeys(env, maxRetries, s, ids[0]);
      AttemptProgress(env, maxRetries, s, ids[0]);
      BatchProgress(env, maxRetries, Attempt(env, maxRetries, s, ids[0]), ids[1..]);
    }
  }

  /** The row of a deferred event: one more failure on record, still within the budget, and
      not due again before the backoff has passed. */
  ghost predicate DeferredAt(now: int, maxRetries: nat, before: Row, after: Row) {
    && after.retryCount == before.retryCount + 1 < maxRetries
    && now + BASE_DELAY <= after.nextAttemptAt == now + Delay(after.retryCount) <= now + MAX_DELAY
    && after == before.(retryCount := after.retryCount, nextAttemptAt := after.nextAttemptAt)
  }

  /** This attempt applies the event: its transaction runs, and the event is acceptable. */
  ghost predicate Succeeds(env: Env, n: nat, t: Tables, ev: Event) {
    env.applyOk(n) && Acceptable(t, env.world(n), ev)
  }

  /** What stood in its way may pass: the transaction could not run, or the event waits. */
  ghost predicate MayPass(env: Env, n: nat, t: Tables, ev: Event) {
    !env.applyOk(n) || Waits(t, env.world(n), ev)
  }

  /** One attempt, decided by the tables, the guard and the files as it meets them. Acceptable:
      PROCESSED. Otherwise no table changes: an event that waits goes back to the queue while its
      budget lasts, and everything else is FAILED at once and counted. */
  ghost predicate TurnDecided(env: Env, maxRetries: nat, s: State, s': State, id: nat)
    requires id in s.queue
  {
    && id in s'.queue
    && var row, row' := s.queue[id], s'.queue[id];
    if Succeeds(env, s.tick, s.tables, row.event) then
      row' == row.(status := Processed) && s'.processed == s.processed + 1 && s'.failed == s.failed
    else
      && s'.tables == s.tables && s'.processed == s.processed
      && if MayPass(env, s.tick, s.tables, row.event) && row.retryCount + 1 < maxRetries then
        && s'.failed == s.failed
        && if env.deferOk(s.tick + 1) then DeferredAt(env.world(s.tick + 1).now, maxRetries, row, row')
        else row' == row
      else
        && s'.failed == s.failed + 1
        && row' == if env.failOk(s.tick + 1) then row.(status := Failed) else row
  }

  lemma AttemptDecides(env: Env, maxRetries: nat, s: State, id: nat)
    requires id in s.queue && Sound(s.tables)
    ensures TurnDecided(env, maxRetries, s, Attempt(env, maxRetries, s, id), id)
  {
    hide NoClashes, StatusesMatch, EndpointsKnown, ApplyEvent, AfterCommit, Acceptable, Waits, Delay;
    EventDecided(s.tables, env.world(s.tick), s.queue[id].event);
    DelaySchedule(s.queue[id].retryCount + 1);
  }

  /** Every eligible candidate is about known nodes. */
  ghost predicate EndpointsStored(t: Tables, cs: seq<Candidate>) {
    forall i :: 0 <= i < |cs| && cs[i].confidence >= 50 ==> cs[i].parent in t.nodes && cs[i].child in t.nodes
  }

  /** A processed event did what its kind promises -- `mid` -- and then, when that leaves a node to
      resolve, the pass over the resolvers' candidates ran to its end on top of it. */
  ghost predicate TurnDone(env: Env, s: State, ev: Event, t': Tables, mid: Tables, resolve: Option<NodeId>) {
    && EventDone(s.tables, env.world(s.tick), ev, mid, resolve)
    && (resolve.None? ==> t' == mid)
    && (resolve.Some? && EndpointsStored(mid, env.candidates(s.tick)) ==>
          exists committed :: PassDone(mid, env.candidates(s.tick), t', committed))
  }

  lemma AttemptDone(env: Env, maxRetries: nat, s: State, id: nat)
    requires id in s.queue && Sound(s.tables) && Succeeds(env, s.tick, s.tables, s.queue[id].event)
    ensures exists mid, resolve ::
              TurnDone(env, s, s.queue[id].event, Attempt(env, maxRetries, s, id).tables, mid, resolve)
  {
    hide NoClashes, StatusesMatch, EndpointsKnown, ApplyEvent, Acceptable, EnginePass, EventDone, PassDone;
    var ev, cs := s.queue[id].event, env.candidates(s.tick);
    EventDecided(s.tables, env.world(s.tick), ev);
    EventOutcome(s.tables, env.world(s.tick), ev);
    var a := ApplyEvent(s.tables, env.world(s.tick), ev).value;
    if a.resolve.Some? && EndpointsStored(a.tables, cs) {
      PassSucceeds(a.tables, cs);
      PassOutcome(a.tables, cs);
    }
    assert TurnDone(env, s, ev, Attempt(env, maxRetries, s, id).tables, a.tables, a.resolve);
  }

  /** A file on its way is waited for. A move or rebase to a Tier 3 place where the file is not
      there yet goes back to the queue at each attempt within the budget; and once the file has
      arrived -- the tables as they were, nothing else in the way -- the next attempt processes
      it. */
  lemma WaitsForItsFile(env: Env, maxRetries: nat, s: State, id: nat, s2: State)
    requires id in s.queue && Sound(s.tables) && env.applyOk(s.tick) && env.deferOk(s.tick + 1)
    requires s.queue[id].status == Pending && s.queue[id].retryCount + 1 < maxRetries
    requires s2 == Attempt(env, maxRetries, s, id).(tick := s2.tick) && env.applyOk(s2.tick)
    requires var p := s.queue[id].event.payload;
             && (p.NodeMoved? || p.PathRebased?) && !AliasNamed(s.tables, s.queue[id].event.agent, p.uuid)
             && AwaitsFile(env.world(s.tick), p.path) && env.world(s2.tick).guard == env.world(s.tick).guard
             && env.world(s2.tick).present(p.path) == Some(true)
    requires Acceptable(s.tables, env.world(s2.tick), s.queue[id].event)
    ensures s2.tables == s.tables && DeferredAt(env.world(s.tick + 1).now, maxRetries, s.queue[id], s2.queue[id])
    ensures s2.queue[id].status == Pending
    ensures Attempt(env, maxRetries, s2, id).queue[id].status == Processed
  {
    hide NoClashes, StatusesMatch, EndpointsKnown, Attempt;
    AttemptDecides(env, maxRetries, s, id);
    assert Waits(s.tables, env.world(s.tick), s.queue[id].event);
    AttemptKeys(env, maxRetries, s, id);
    AttemptDecides(env, maxRetries, s2, id);
  }

  /** When the marks can be written, a listed row leaves the batch PROCESSED, FAILED, or
      deferred -- decided by what its own turn meets -- and an event that did not end up
      PROCESSED left the tables as it met them. */
  lemma BatchOutcome(env: Env, maxRetries: nat, s: State, ids: seq<nat>, i: nat)
    requires Sound(s.tables) && i < |ids|
    requires forall k :: 0 <= k < |ids| ==> ids[k] in s.queue && s.queue[ids[k]].status == Pending
    requires forall j, k :: 0 <= j < k < |ids| ==> ids[j] != ids[k]
    requires FailedMarksSucceed(env) && forall n :: env.deferOk(n)
    ensures var before, after := s.queue[ids[i]], RunBatch(env, maxRetries, s, ids).queue[ids[i]];
            var turn := RunBatch(env, maxRetries, s, ids[..i]);
            var retried := MayPass(env, turn.tick, turn.tables, before.event) && before.retryCount + 1 < maxRetries;
            && (after.status != Processed ==> Attempt(env, maxRetries, turn, ids[i]).tables == turn.tables)
            && if Succeeds(env, turn.tick, turn.tables, before.event) then after == before.(status := Processed)
               else if retried then DeferredAt(env.world(turn.tick + 1).now, maxRetries, before, after)
               else after == before.(status := Failed)
  {
    hide StatusesMatch, EndpointsKnown, NoClashes, AcyclicEdges, KeepsDecisions, Attempt, MayPass, Succeeds;
    DecidedOnce(env, maxRetries, s, ids, i);
    AttemptDecides(env, maxRetries, RunBatch(env, maxRetries, s, ids[..i]), ids[i]);
  }

  /** Whenever it is tried, the event fails for good: it is neither acceptable nor waiting, or its
      budget is spent. */
  ghost predicate Hopeless(env: Env, maxRetries: nat, t: Tables, r: Row) {
    forall n: nat ::
      !Succeeds(env, n, t, r.event) && (!MayPass(env, n, t, r.event) || r.retryCount + 1 >= maxRetries)
  }

  /** For one: an event of an unknown type, as long as its transaction can run at all. */
  lemma UnknownTypeIsHopeless(env: Env, maxRetries: nat, t: Tables, r: Row)
    requires r.event.payload.UnknownType? && forall n :: env.applyOk(n)
    ensures Hopeless(env, maxRetries, t, r)
  {
  }

  /** A batch of hopeless rows whose FAILED marks cannot be written counts every one of them and
      changes nothing. */
  lemma {:induction false} UnwrittenMarksSpin(env: Env, maxRetries: nat, s: State, ids: seq<nat>)
    requires Sound(s.tables)
    requires forall k :: 0 <= k < |ids| ==> ids[k] in s.queue && Hopeless(env, maxRetries, s.tables, s.queue[ids[k]])
    requires forall n :: !env.failOk(n)
    ensures RunBatch(env, maxRetries, s, ids) == s.(tick := s.tick + 2 * |ids|, failed := s.failed + |ids|)
    decreases |ids|
  {
    hide StatusesMatch, EndpointsKnown, NoClashes, AcyclicEdges, KeepsDecisions, Attempt, Hopeless;
    if ids != [] {
      AttemptSafe(env, maxRetries, s, ids[0]);
      HopelessAttempt(env, maxRetries, s, ids[0]);
      UnwrittenMarksSpin(env, maxRetries, Attempt(env, maxRetries, s, ids[0]), ids[1..]);
    }
  }

  lemma HopelessAttempt(env: Env, maxRetries: nat, s: State, id: nat)
    requires Sound(s.tables) && id in s.queue && Hopeless(env, maxRetries, s.tables, s.queue[id])
    requires forall n :: !env.failOk(n)
    ensures Attempt(env, maxRetries, s, id) == s.(tick := s.tick + 2, failed := s.failed + 1)
  {
    hide StatusesMatch, EndpointsKnown, NoClashes, ApplyEvent, AfterCommit, Acceptable, Waits, Delay;
    EventDecided(s.tables, env.world(s.tick), s.queue[id].event);
    assert !Succeeds(env, s.tick, s.tables, s.queue[id].event);
  }

  lemma {:induction false} OldestExists(q: Queue, ids: set<nat>) returns (first: nat)
    requires ids != {} && ids <= q.Keys
    ensures first in ids && forall id :: id in ids && id != first ==> Before(q, first, id)
    decreases ids
  {
    var id :| id in ids;
    assert forall x :: x in ids ==> x == id || x in ids - {id};
    if ids - {id} == {} {
      first := id;
    } else {
      first := OldestExists(q, ids - {id});
      if Before(q, id, first) {
        first := id;
      }
    }
  }

  lemma {:induction false} ListingExists(q: Queue, now: int, limit: nat) returns (ids: seq<nat>)
    ensures IsListing(q, now, limit, ids)
    decreases limit
  {
    if limit == 0 {
      ids := [];
    } else {
      ids := ListingExists(q, now, limit - 1);
      var rest := DueRows(q, now) - Listed(ids);
      if |ids| == limit - 1 && rest != {} {
        var next := OldestExists(q, rest);
        ids := ids + [next];
      }
      if rest == {} {
        forall id | id in DueRows(q, now) ensures id in ids {
          assert id !in rest;
        }
      }
    }
  }

  /** m rounds of the drain loop, none of which met an exit: some row was due at the first
      reading, and the batch listed at the second counted something. */
  ghost predicate Rounds(env: Env, maxRetries: nat, s: State, m: nat, s': State)
    decreases m
  {
    if m == 0 then s' == s
    else
      exists mid, ids ::
        Rounds(env, maxRetries, s, m - 1, mid) && RoundRan(env, maxRetries, mid, ids, s')
  }

  ghost predicate RoundRan(env: Env, maxRetries: nat, s: State, ids: seq<nat>, s': State) {
    && Sound(s.tables) && DueRows(s.queue, env.world(s.tick).now) != {}
    && IsListing(s.queue, env.world(s.tick + 1).now, DRAIN_BATCH, ids)
    && s' == RunBatch(env, maxRetries, s.(tick := s.tick + 2), ids)
    && (s'.processed > s.processed || s'.failed > s.failed)
  }

  /** And the drain loop never stops on such rows: while one of them is due, for every m it goes
      through m rounds, counts at least m failures, and changes neither queue nor tables. */
  lemma {:induction false} NeverStops(env: Env, maxRetries: nat, s: State, due: nat, m: nat) returns (s': State)
    requires Sound(s.tables) && forall n :: !env.failOk(n)
    requires forall id :: id in s.queue && s.queue[id].status == Pending ==>
      Hopeless(env, maxRetries, s.tables, s.queue[id])
    requires due in s.queue && forall n :: Due(s.queue[due], env.world(n).now)
    ensures Rounds(env, maxRetries, s, m, s')
    ensures s'.queue == s.queue && s'.tables == s.tables && s'.failed >= s.failed + m
    decreases m
  {
    hide StatusesMatch, EndpointsKnown, NoClashes, Hopeless, RunBatch;
    if m == 0 {
      s' := s;
    } else {
      var mid := NeverStops(env, maxRetries, s, due, m - 1);
      var ids := ListingExists(mid.queue, env.world(mid.tick + 1).now, DRAIN_BATCH);
      assert due in DueRows(mid.queue, env.world(mid.tick).now)
          && due in DueRows(mid.queue, env.world(mid.tick + 1).now);
      ListedAreStored(mid.queue, env.world(mid.tick + 1).now, DRAIN_BATCH, ids);
      UnwrittenMarksSpin(env, maxRetries, mid.(tick := mid.tick + 2), ids);
      s' := RunBatch(env, maxRetries, mid.(tick := mid.tick + 2), ids);
      assert |ids| > 0;
      assert RoundRan(env, maxRetries, mid, ids, s');
    }
  }

  function Listed(ids: seq<nat>): set<nat> {
    set id | id in ids
  }

  lemma {:induction false} DistinctSize(ids: seq<nat>)
    requires forall i, j :: 0 <= i < j < |ids| ==> ids[i] != ids[j]
    ensures |Listed(ids)| == |ids|
    decreases |ids|
  {
    if ids == [] {
      assert Listed(ids) == {};
    } else {
      DistinctSize(ids[1..]);
      assert Listed(ids) == {ids[0]} + Listed(ids[1..]);
    }
  }

  lemma AttemptCounters(env: Env, maxRetries: nat, s: State, id: nat)
    requires id in s.queue && Sound(s.tables)
    ensures var s' := Attempt(env, maxRetries, s, id);
            && s'.processed >= s.processed && s'.failed >= s.failed
            && (s'.processed == s.processed && s'.failed == s.failed ==>
                  && s'.tick == s.tick + 2
                  && s'.queue[id] ==
                     if env.deferOk(s.tick + 1) then Deferral(env, s.queue[id], s.tick + 1) else s.queue[id])
  {
    hide NoClashes, StatusesMatch, EndpointsKnown, Applying, AfterCommit, Fatal, Delay;
  }

  /** A row deferred at the n-th look outside. */
  function Deferral(env: Env, row: Row, n: nat): Row {
    row.(retryCount := row.retryCount + 1, nextAttemptAt := env.world(n).now + Delay(row.retryCount + 1))
  }

  lemma {:induction false} BatchCounters(env: Env, maxRetries: nat, s: State, ids: seq<nat>)
    requires Sound(s.tables) && forall i :: 0 <= i < |ids| ==> ids[i] in s.queue
    ensures RunBatch(env, maxRetries, s, ids).processed >= s.processed
    ensures RunBatch(env, maxRetries, s, ids).failed >= s.failed
    decreases |ids|
  {
    hide StatusesMatch, EndpointsKnown, NoClashes, AcyclicEdges, KeepsDecisions, Attempt;
    if ids != [] {
      AttemptSafe(env, maxRetries, s, ids[0]);
      AttemptKeys(env, maxRetries, s, ids[0]);
      AttemptCounters(env, maxRetries, s, ids[0]);
      BatchCounters(env, maxRetries, Attempt(env, maxRetries, s, ids[0]), ids[1..]);
    }
  }

  /** The batch processed and failed nothing. */
  ghost predicate Quiet(env: Env, maxRetries: nat, s: State, ids: seq<nat>)
    requires Sound(s.tables) && forall i :: 0 <= i < |ids| ==> ids[i] in s.queue
  {
    var s' := RunBatch(env, maxRetries, s, ids);
    s'.processed == s.processed && s'.failed == s.failed
  }

  /** Every prefix of a quiet batch is quiet, and every turn of it took two looks outside. */
  lemma {:induction false} QuietPrefix(env: Env, maxRetries: nat, s: State, ids: seq<nat>, i: nat)
    requires Sound(s.tables) && i <= |ids| && forall k :: 0 <= k < |ids| ==> ids[k] in s.queue
    requires Quiet(env, maxRetries, s, ids)
    ensures Quiet(env, maxRetries, s, ids[..i]) && RunBatch(env, maxRetries, s, ids[..i]).tick == s.tick + 2 * i
    decreases i
  {
    hide StatusesMatch, EndpointsKnown, NoClashes, AcyclicEdges, KeepsDecisions, Attempt;
    if i > 0 {
      var next := Attempt(env, maxRetries, s, ids[0]);
      AttemptSafe(env, maxRetries, s, ids[0]);
      AttemptKeys(env, maxRetries, s, ids[0]);
      AttemptCounters(env, maxRetries, s, ids[0]);
      BatchCounters(env, maxRetries, next, ids[1..]);
      QuietPrefix(env, maxRetries, next, ids[1..], i - 1);
      assert ids[..i][1..] == ids[1..][..i - 1];
    }
  }

  /** A row listed in a quiet batch leaves it deferred, or as it was when its own deferral could
      not be written. */
  lemma QuietRow(env: Env, maxRetries: nat, s: State, ids: seq<nat>, i: nat)
    requires Sound(s.tables) && i < |ids| && forall k :: 0 <= k < |ids| ==> ids[k] in s.queue
    requires forall j, k :: 0 <= j < k < |ids| ==> ids[j] != ids[k]
    requires Quiet(env, maxRetries, s, ids)
    ensures var n, row := s.tick + 2 * i + 1, s.queue[ids[i]];
            RunBatch(env, maxRetries, s, ids).queue[ids[i]] == if env.deferOk(n) then Deferral(env, row, n) else row
  {
    hide StatusesMatch, EndpointsKnown, NoClashes, AcyclicEdges, KeepsDecisions, Attempt, Deferral;
    DecidedOnce(env, maxRetries, s, ids, i);
    QuietPrefix(env, maxRetries, s, ids, i);
    QuietPrefix(env, maxRetries, s, ids, i + 1);
    var turn := RunBatch(env, maxRetries, s, ids[..i]);
    RunBatchSplit(env, maxRetries, s, ids[..i + 1], i);
    assert ids[..i + 1][..i] == ids[..i] && ids[..i + 1][i..] == [ids[i]];
    OneTurn(env, maxRetries, turn, ids[i]);
    AttemptCounters(env, maxRetries, turn, ids[i]);
  }

  lemma OneTurn(env: Env, maxRetries: nat, s: State, id: nat)
    requires Sound(s.tables) && id in s.queue
    ensures RunBatch(env, maxRetries, s, [id]) == Attempt(env, maxRetries, s, id)
  {
    hide StatusesMatch, EndpointsKnown, NoClashes, AcyclicEdges, KeepsDecisions, Attempt;
    AttemptSafe(env, maxRetries, s, id);
    AttemptKeys(env, maxRetries, s, id);
    assert [id][1..] == [];
  }

  /** The listed row is due again at the listing's reading: its deferral was not written, or the
      clock had gone back by the whole delay when it was. */
  predicate StillDue(env: Env, s: State, ids: seq<nat>, i: nat, now: int)
    requires i < |ids| && ids[i] in s.queue
  {
    !env.deferOk(s.tick + 2 * i + 1) || Deferral(env, s.queue[ids[i]], s.tick + 2 * i + 1).nextAttemptAt <= now
  }

  function StillDueRows(env: Env, s: State, ids: seq<nat>, now: int): set<nat>
    requires forall i :: 0 <= i < |ids| ==> ids[i] in s.queue
  {
    set i | 0 <= i < |ids| && StillDue(env, s, ids, i, now) :: ids[i]
  }

  lemma QuietBatchRow(env: Env, maxRetries: nat, s: State, limit: nat, ids: seq<nat>, now: int, id: nat)
    requires Sound(s.tables) && IsListing(s.queue, now, limit, ids) && id in s.queue
    requires Quiet(env, maxRetries, s, ids)
    ensures id in DueRows(RunBatch(env, maxRetries, s, ids).queue, now) <==>
              || (id in DueRows(s.queue, now) && id !in ids)
              || exists i :: 0 <= i < |ids| && ids[i] == id && StillDue(env, s, ids, i, now)
  {
    hide StatusesMatch, EndpointsKnown, NoClashes, AcyclicEdges, KeepsDecisions, Attempt, Delay, Safe;
    if id in ids {
      var i :| 0 <= i < |ids| && ids[i] == id;
      QuietRow(env, maxRetries, s, ids, i);
    } else {
      RunBatchFrame(env, maxRetries, s, ids, id);
    }
  }

  lemma RoomIff(q: Queue, now: int, limit: nat, ids: seq<nat>)
    requires IsListing(q, now, limit, ids)
    ensures DueRows(q, now) - Listed(ids) == {} <==> |DueRows(q, now)| <= limit
  {
    var due, listed := DueRows(q, now), Listed(ids);
    DistinctSize(ids);
    assert due == listed + (due - listed) && |listed + (due - listed)| == |listed| + |due - listed|;
  }

  lemma QuietLeaves(env: Env, maxRetries: nat, s: State, limit: nat, ids: seq<nat>, now: int)
    requires Sound(s.tables) && IsListing(s.queue, now, limit, ids) && Quiet(env, maxRetries, s, ids)
    ensures DueRows(RunBatch(env, maxRetries, s, ids).queue, now)
         == DueRows(s.queue, now) - Listed(ids) + StillDueRows(env, s, ids, now)
  {
    hide StatusesMatch, EndpointsKnown, NoClashes, Safe, Attempt, StillDue, Quiet, Due, IsListing;
    ListedAreStored(s.queue, now, limit, ids);
    var s' := RunBatch(env, maxRetries, s, ids);
    forall id | id in s.queue
      ensures id in DueRows(s'.queue, now) <==>
            id in DueRows(s.queue, now) - Listed(ids) + StillDueRows(env, s, ids, now)
    {
      QuietBatchRow(env, maxRetries, s, limit, ids, now, id);
    }
  }

  lemma ListedAreStored(q: Queue, now: int, limit: nat, ids: seq<nat>)
    requires IsListing(q, now, limit, ids)
    ensures forall i :: 0 <= i < |ids| ==> ids[i] in q && q[ids[i]].status == Pending
    ensures forall i, j :: 0 <= i < j < |ids| ==> ids[i] != ids[j]
  {
  }

  /** What the loop's second exit leaves due, at the reading the batch was listed with: the rows
      the batch had no room for, and the listed rows whose deferral was not written (or was
      written by a clock gone back by the whole delay). "None are left" therefore holds exactly
      when the due rows fitted into that one batch and every deferral took. */
  lemma QuietExitIff(env: Env, maxRetries: nat, s: State, limit: nat, ids: seq<nat>, now: int)
    requires Sound(s.tables) && IsListing(s.queue, now, limit, ids) && Quiet(env, maxRetries, s, ids)
    ensures var left := DueRows(RunBatch(env, maxRetries, s, ids).queue, now);
            && left == DueRows(s.queue, now) - Listed(ids) + StillDueRows(env, s, ids, now)
            && (left == {} <==>
                  |DueRows(s.queue, now)| <= limit && forall i :: 0 <= i < |ids| ==> !StillDue(env, s, ids, i, now))
    ensures forall i :: 0 <= i < |ids| && env.world(s.tick + 2 * i + 1).now >= now ==>
              (StillDue(env, s, ids, i, now) <==> !env.deferOk(s.tick + 2 * i + 1))
  {
    hide StatusesMatch, EndpointsKnown, NoClashes, RunBatch, StillDue, DueRows, Quiet, IsListing, Listed;
    ListedAreStored(s.queue, now, limit, ids);
    QuietLeaves(env, maxRetries, s, limit, ids, now);
    RoomIff(s.queue, now, limit, ids);
    forall i | 0 <= i < |ids| && env.world(s.tick + 2 * i + 1).now >= now
      ensures StillDue(env, s, ids, i, now) <==> !env.deferOk(s.tick + 2 * i + 1)
    {
      ForwardClock(env, s, ids, i, now);
    }
    assert forall i :: 0 <= i < |ids| && StillDue(env, s, ids, i, now) ==> ids[i] in StillDueRows(env, s, ids, now);
  }

  lemma ForwardClock(env: Env, s: State, ids: seq<nat>, i: nat, now: int)
    requires i < |ids| && ids[i] in s.queue && env.world(s.tick + 2 * i + 1).now >= now
    ensures StillDue(env, s, ids, i, now) <==> !env.deferOk(s.tick + 2 * i + 1)
  {
    DelaySchedule(s.queue[ids[i]].retryCount + 1);
  }

  const NOBODY := "00000000-0000-0000-0000-000000000000"

  /** One row more than a batch holds, each deleting a node nobody has. */
  const BACKLOG: Queue := map id: nat | id <= DRAIN_BATCH :: Row(0, Event("device", NodeDeleted(NOBODY)), Pending, 0, 0)

  lemma BacklogTurn(env: Env, s: State, id: nat)
    requires s.tables == EMPTY_TABLES && id in s.queue && id in BACKLOG && s.queue[id] == BACKLOG[id]
    requires forall n :: env.applyOk(n)
    ensures Sound(s.tables)
    ensures var s' := Attempt(env, DEFAULT_MAX_RETRIES, s, id);
            s'.tables == s.tables && s'.processed == s.processed && s'.failed == s.failed
  {
    assert ApplyEvent(s.tables, env.world(s.tick), s.queue[id].event) in {Err(InvalidNodeUUID), Err(NodeNotFound)};
    assert ValidNodeUUID(NOBODY);
  }

  lemma {:induction false} BacklogIsQuiet(env: Env, s: State, ids: seq<nat>)
    requires s.tables == EMPTY_TABLES && Sound(s.tables) && forall n :: env.applyOk(n)
    requires forall i :: 0 <= i < |ids| ==> ids[i] in s.queue && ids[i] in BACKLOG && s.queue[ids[i]] == BACKLOG[ids[i]]
    requires forall i, j :: 0 <= i < j < |ids| ==> ids[i] != ids[j]
    ensures Quiet(env, DEFAULT_MAX_RETRIES, s, ids)
    decreases |ids|
  {
    hide StatusesMatch, EndpointsKnown, NoClashes, AcyclicEdges, KeepsDecisions, Attempt, BACKLOG;
    if ids != [] {
      BacklogTurn(env, s, ids[0]);
      AttemptSafe(env, DEFAULT_MAX_RETRIES, s, ids[0]);
      AttemptKeys(env, DEFAULT_MAX_RETRIES, s, ids[0]);
      BacklogIsQuiet(env, Attempt(env, DEFAULT_MAX_RETRIES, s, ids[0]), ids[1..]);
    }
  }

  lemma BacklogIsListed(ids: seq<nat>)
    requires ids == seq(DRAIN_BATCH, (i: nat) => i)
    ensures IsListing(BACKLOG, 0, DRAIN_BATCH, ids)
  {
    assert forall i :: 0 <= i < |ids| ==> ids[i] == i && ids[i] in DueRows(BACKLOG, 0);
    forall id: nat | id < DRAIN_BATCH ensures id in ids {
      assert ids[id] == id;
    }
  }

  /** The second exit does leave due rows: with every transaction and every write succeeding and
      the clock moving forward, a backlog of 101 such rows ends with the last one still due. */
  lemma QuietExitLeavesDue(env: Env)
    requires forall n :: env.applyOk(n) && env.deferOk(n) && env.world(n).now >= 0
    ensures var s, ids := State(BACKLOG, EMPTY_TABLES, 0, 0, 0), seq(DRAIN_BATCH, (i: nat) => i);
            && Sound(s.tables) && IsListing(s.queue, 0, DRAIN_BATCH, ids) && Quiet(env, DEFAULT_MAX_RETRIES, s, ids)
            && DueRows(RunBatch(env, DEFAULT_MAX_RETRIES, s, ids).queue, 0) == {DRAIN_BATCH}
  {
    var s, ids := State(BACKLOG, EMPTY_TABLES, 0, 0, 0), seq(DRAIN_BATCH, (i: nat) => i);
    BacklogTurn(env, s, 0);
    BacklogIsListed(ids);
    BacklogIsQuiet(env, s, ids);
    QuietExitIff(env, DEFAULT_MAX_RETRIES, s, DRAIN_BATCH, ids, 0);
    hide StatusesMatch, EndpointsKnown, NoClashes, RunBatch, StillDue, Quiet;
    assert StillDueRows(env, s, ids, 0) == {};
    forall id: nat | id < DRAIN_BATCH ensures id in Listed(ids) {
      assert ids[id] == id;
    }
    assert DueRows(BACKLOG, 0) == BACKLOG.Keys;
    assert DRAIN_BATCH !in Listed(ids);
    assert BACKLOG.Keys - Listed(ids) == {DRAIN_BATCH};
  }

  /** s with larger counters. */
  function Ahead(s: State, p: nat, f: nat): State {
    s.(processed := s.processed + p, failed := s.failed + f)
  }

  lemma AttemptCarries(env: Env, maxRetries: nat, s: State, id: nat, p: nat, f: nat)
    requires id in s.queue && Indexed(s.tables)
    ensures Attempt(env, maxRetries, Ahead(s, p, f), id) == Ahead(Attempt(env, maxRetries, s, id), p, f)
  {
    hide NoClashes, ApplyEvent, AfterCommit, Fatal, Delay;
  }

  lemma {:induction false} CountersCarry(env: Env, maxRetries: nat, s: State, ids: seq<nat>, p: nat, f: nat)
    requires Sound(s.tables) && forall i :: 0 <= i < |ids| ==> ids[i] in s.queue
    ensures RunBatch(env, maxRetries, Ahead(s, p, f), ids) == Ahead(RunBatch(env, maxRetries, s, ids), p, f)
    decreases |ids|
  {
    hide StatusesMatch, EndpointsKnown, NoClashes, AcyclicEdges, KeepsDecisions, Attempt;
    if ids != [] {
      AttemptSafe(env, maxRetries, s, ids[0]);
      AttemptKeys(env, maxRetries, s, ids[0]);
      AttemptCarries(env, maxRetries, s, ids[0], p, f);
      CountersCarry(env, maxRetries, Attempt(env, maxRetries, s, ids[0]), ids[1..], p, f);
    }
  }

  /** A batch's own counts added to the totals so far. */
  lemma BatchCounts(env: Env, maxRetries: nat, s: State, ids: seq<nat>, p: nat, f: nat, end: State)
    requires Sound(s.tables) && FailedMarksSucceed(env)
    requires IsListing(s.queue, env.world(s.tick).now, DRAIN_BATCH, ids) && end.processed == p && end.failed == f
    requires end == RunBatch(env, maxRetries, s.(tick := s.tick + 1, processed := 0, failed := 0), ids)
    ensures var s' := end.(processed := s.processed + p, failed := s.failed + f);
            && s' == RunBatch(env, maxRetries, s.(tick := s.tick + 1), ids)
            && Drains(maxRetries, s, s')
  {
    hide StatusesMatch, EndpointsKnown, NoClashes, AcyclicEdges, KeepsDecisions, Attempt, Work, RowsIn;
    var zero := s.(tick := s.tick + 1, processed := 0, failed := 0);
    CountersCarry(env, maxRetries, zero, ids, s.processed, s.failed);
    BatchProgress(env, maxRetries, zero, ids);
  }

  /** What one turn of the batch loop brings about: every store invariant and every human
      decision kept, only its own row touched, terminal rows left alone, the counters in step
      with the rows, and no table changed unless the event was processed. */
  ghost predicate TurnTaken(maxRetries: nat, s: State, s': State, id: nat)
    requires id in s.queue
  {
    && Safe(s.tables, s'.tables) && s'.queue.Keys == s.queue.Keys
    && (forall j :: j in s.queue && j != id ==> s'.queue[j] == s.queue[j])
    && (s.queue[id].status == Pending ==> Progress(maxRetries, s, s'))
  }

  lemma AttemptTurn(env: Env, maxRetries: nat, s: State, id: nat)
    requires id in s.queue && Sound(s.tables)
    ensures TurnTaken(maxRetries, s, Attempt(env, maxRetries, s, id), id)
  {
    hide NoClashes, StatusesMatch, EndpointsKnown, Attempt, Progress, Safe;
    AttemptSafe(env, maxRetries, s, id);
    AttemptKeys(env, maxRetries, s, id);
    if s.queue[id].status == Pending {
      AttemptProgress(env, maxRetries, s, id);
    }
  }

  /** Everything that holds from one state of a draining to a later one. */
  ghost predicate Drains(maxRetries: nat, s: State, s': State) {
    Progress(maxRetries, s, s') && FullProgress(maxRetries, s, s') && Safe(s.tables, s'.tables)
  }

  lemma DrainsStart(maxRetries: nat, s: State)
    requires Sound(s.tables)
    ensures Drains(maxRetries, s, s)
  {
  }

  lemma DrainsClock(maxRetries: nat, s: State, s': State, tick: nat)
    requires Drains(maxRetries, s, s')
    ensures Drains(maxRetries, s, s'.(tick := tick)) && Sound(s'.tables)
  {
    hide StatusesMatch, EndpointsKnown, NoClashes, AcyclicEdges, Work, RowsIn;
  }

  lemma DrainsChain(maxRetries: nat, s: State, s1: State, s2: State)
    requires Drains(maxRetries, s, s1) && Drains(maxRetries, s1, s2)
    ensures Drains(maxRetries, s, s2)
  {
    hide StatusesMatch, EndpointsKnown, NoClashes, AcyclicEdges, Work, RowsIn;
  }

  lemma DrainsWork(maxRetries: nat, s: State, s': State)
    requires Drains(maxRetries, s, s')
    ensures Sound(s'.tables) && s'.processed >= s.processed && s'.failed >= s.failed
    ensures Work(s'.queue, maxRetries, s'.queue.Keys) + (s'.processed - s.processed) + (s'.failed - s.failed)
         <= Work(s.queue, maxRetries, s.queue.Keys)
  {
  }

  /** One round of the drain loop: listed at s, done at `end` (which counts this batch only). */
  lemma DrainsRound(env: Env, maxRetries: nat, s0: State, s: State, ids: seq<nat>, end: State)
    requires Drains(maxRetries, s0, s) && Sound(s.tables) && FailedMarksSucceed(env)
    requires IsListing(s.queue, env.world(s.tick).now, DRAIN_BATCH, ids)
    requires end == RunBatch(env, maxRetries, s.(tick := s.tick + 1, processed := 0, failed := 0), ids)
    ensures var s' := end.(processed := s.processed + end.processed, failed := s.failed + end.failed);
            && Drains(maxRetries, s0, s') && Sound(s'.tables)
            && (end.processed == 0 && end.failed == 0 ==> OnlyDeferred(env, maxRetries, s, ids, s'))
            && Work(s'.queue, maxRetries, s'.queue.Keys) + end.processed + end.failed
               <= Work(s.queue, maxRetries, s.queue.Keys)
  {
    hide StatusesMatch, EndpointsKnown, NoClashes, Drains, RunBatch, Work, IsListing;
    var s' := end.(processed := s.processed + end.processed, failed := s.failed + end.failed);
    BatchCounts(env, maxRetries, s, ids, end.processed, end.failed, end);
    DrainsWork(maxRetries, s, s');
    DrainsChain(maxRetries, s0, s, s');
  }

  // ---- The drainer ----

  const DEFAULT_BATCH := 50
  const DRAIN_BATCH := 100

  class Drainer {
    var queue: Queue
    var tick: nat
    var maxRetries: nat
    const db: Database

    constructor (queue: Queue, db: Database)
      requires Sound(db.tables)
      ensures this.queue == queue && this.db == db && maxRetries == DEFAULT_MAX_RETRIES && Valid()
    {
      this.queue, this.tick, this.maxRetries, this.db := queue, 0, DEFAULT_MAX_RETRIES, db;
    }

    ghost predicate Valid()
      reads this, db
    {
      Sound(db.tables) && maxRetries >= 1
    }

    /** The drainer with the given counters. */
    ghost function Seen(processed: nat, failed: nat): State
      reads this, db
    {
      State(queue, db.tables, tick, processed, failed)
    }

    method SetMaxRetries(n: int)
      requires Valid()
      modifies this`maxRetries
      ensures Valid() && maxRetries >= 1 && (n >= 1 ==> maxRetries == n) && (n < 1 ==> maxRetries == 1)
    {
      maxRetries := if n <= 0 then 1 else n;
    }

    /** One turn of the batch loop. */
    method ProcessEvent(env: Env, id: nat, processed: nat, failed: nat) returns (processed': nat, failed': nat)
      requires Valid() && id in queue
      modifies this`queue, this`tick, db
      ensures Seen(processed', failed') == Attempt(env, maxRetries, old(Seen(processed, failed)), id)
      ensures TurnTaken(maxRetries, old(Seen(processed, failed)), Seen(processed', failed'), id)
      ensures TurnDecided(env, maxRetries, old(Seen(processed, failed)), Seen(processed', failed'), id)
    {
      hide NoClashes, StatusesMatch, EndpointsKnown, ApplyEvent, EnginePass, Fatal, Delay, TurnTaken, TurnDecided,
           PassDone, Acceptable, Waits;
      AttemptTurn(env, maxRetries, Seen(processed, failed), id);
      AttemptDecides(env, maxRetries, Seen(processed, failed), id);
      processed', failed' := processed, failed;
      var row := queue[id];
      var candidates := env.candidates(tick);
      var outcome: AgentWorker.Outcome := Err(TransactionFailed);
      if env.applyOk(tick) {
        outcome := AgentWorker.ApplyInTx(db, env.world(tick), row.event);
      }
      tick := tick + 1;
      if outcome.Ok? {
        queue := queue[id := row.(status := Processed)];
        processed' := processed + 1;
        if outcome.value.Some? {
          var _ := ResolveAndCommit(db, candidates);
        }
        return;
      }
      var attempts := row.retryCount + 1;
      if Fatal(outcome.error) || attempts >= maxRetries {
        if env.failOk(tick) {
          queue := queue[id := row.(status := Failed)];
        }
        failed' := failed + 1;
      } else {
        var delay := RetryDelay(attempts);
        if env.deferOk(tick) {
          queue := queue[id := row.(retryCount := attempts, nextAttemptAt := env.world(tick).now + delay)];
        }
      }
      tick := tick + 1;
    }

    method ProcessPending(env: Env, batchSize: int) returns (processed: nat, failed: nat)
      requires Valid()
      modifies this`queue, this`tick, db
      ensures Valid()
      ensures var limit := if batchSize <= 0 then 50 else batchSize;
              exists ids ::
                IsListing(old(queue), env.world(old(tick)).now, limit, ids)
                && Seen(processed, failed) == RunBatch(env, maxRetries, old(Seen(0, 0)).(tick := old(tick) + 1), ids)
    {
      hide StatusesMatch, EndpointsKnown, NoClashes, AcyclicEdges, KeepsDecisions, Attempt;
      processed, failed := 0, 0;
      var limit := batchSize;
      if limit <= 0 {
        limit := DEFAULT_BATCH;
      }
      var ids := ListPending(queue, env.world(tick).now, limit);
      tick := tick + 1;
      ghost var start := Seen(0, 0);
      assert forall k :: 0 <= k < |ids| ==> ids[k] in start.queue;
      assert ids[0..] == ids;
      for i := 0 to |ids|
        invariant Valid() && queue.Keys == start.queue.Keys
        invariant RunBatch(env, maxRetries, start, ids) == RunBatch(env, maxRetries, Seen(processed, failed), ids[i..])
      {
        ghost var before := Seen(processed, failed);
        AttemptSafe(env, maxRetries, before, ids[i]);
        AttemptKeys(env, maxRetries, before, ids[i]);
        assert ids[i..][0] == ids[i] && ids[i..][1..] == ids[i + 1..];
        processed, failed := ProcessEvent(env, ids[i], processed, failed);
      }
    }

    /** Processes due events until none are left, or a batch does nothing but defer. */
    method DrainAll(env: Env) returns (processed: nat, failed: nat)
      requires Valid() && FailedMarksSucceed(env)
      modifies this`queue, this`tick, db
      ensures Valid() && Drains(maxRetries, old(Seen(0, 0)), Seen(processed, failed))
      ensures (tick > old(tick) && DueRows(queue, env.world(tick - 1).now) == {})
           || exists s: State, ids ::
                Drains(maxRetries, old(Seen(0, 0)), s) && OnlyDeferred(env, maxRetries, s, ids, Seen(processed, failed))
    {
      hide StatusesMatch, EndpointsKnown, NoClashes, Drains, RunBatch, Work, IsListing, OnlyDeferred, Due;
      processed, failed := 0, 0;
      DrainsStart(maxRetries, Seen(0, 0));
      while true
        invariant tick >= old(tick) && Valid()
        invariant Drains(maxRetries, old(Seen(0, 0)), Seen(processed, failed))
        decreases Work(queue, maxRetries, queue.Keys)
      {
        var due := |DueRows(queue, env.world(tick).now)|;
        DrainsClock(maxRetries, old(Seen(0, 0)), Seen(processed, failed), tick + 1);
        tick := tick + 1;
        if due == 0 {
          break;
        }
        ghost var start := Seen(processed, failed);
        var p, f := ProcessPending(env, DRAIN_BATCH);
        ghost var ids := BatchRan(env, maxRetries, start, Seen(p, f));
        DrainsRound(env, maxRetries, old(Seen(0, 0)), start, ids, Seen(p, f));
        processed, failed := processed + p, failed + f;
        if p == 0 && f == 0 {
          assert Drains(maxRetries, old(Seen(0, 0)), start);
          assert OnlyDeferred(env, maxRetries, start, ids, Seen(processed, failed));
          break;
        }
      }
    }
  }

  lemma BatchRan(env: Env, maxRetries: nat, s: State, end: State) returns (ids: seq<nat>)
    requires Sound(s.tables)
    requires exists ids :: IsListing(s.queue, env.world(s.tick).now, DRAIN_BATCH, ids)
               && end == RunBatch(env, maxRetries, s.(tick := s.tick + 1, processed := 0, failed := 0), ids)
    ensures IsListing(s.queue, env.world(s.tick).now, DRAIN_BATCH, ids)
         && end == RunBatch(env, maxRetries, s.(tick := s.tick + 1, processed := 0, failed := 0), ids)
  {
    ids :| IsListing(s.queue, env.world(s.tick).now, DRAIN_BATCH, ids)
        && end == RunBatch(env, maxRetries, s.(tick := s.tick + 1, processed := 0, failed := 0), ids);
  }

  /** The batch listed from s, after which the drainer stood at s', processed and failed
      nothing. */
  ghost predicate OnlyDeferred(env: Env, maxRetries: nat, s: State, ids: seq<nat>, s': State) {
    && Sound(s.tables) && IsListing(s.queue, env.world(s.tick).now, 100, ids)
    && s' == RunBatch(env, maxRetries, s.(tick := s.tick + 1), ids)
    && s'.processed == s.processed && s'.failed == s.failed
  }
}
