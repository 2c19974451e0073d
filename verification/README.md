# branchdam: the version graph and everything that writes to it

This project models how branchdam keeps its lineage graph, and proves what its writers keep
and what they do not. The store is a table of nodes, a table of edges keyed by (source,
target, relationship), and the creator, alias, hash-provenance and timeline-scope tables
(`Store`). Its writers are

- the graph engine (`Engine`): merge the resolvers' candidates, check for cycles, upsert,
  re-derive graph_status;
- the Resolve snapshot (`Snapshot`, `SnapshotRequest`, `SnapshotOwnership`, `SnapshotRerun`,
  `SnapshotEndpoint`): a declarative diff of one scope's timelines behind a claim check, with one
  hoisted descendant walk per timeline instead of a check per edge;
- the agent drainer (`AgentEvents`, `AgentAcceptance`, `AgentOutcomes`, `AgentWorker`,
  `AgentRules`, `AgentAuthority`, `AgentVerification`, `AgentRedelivery`, `Retry`, `EventQueue`,
  `QueueRedelivery`): six kinds of event under ownership, alias, lifecycle and write-once-hash
  rules, behind a durable queue with backoff;
- people and uploads (`EdgeHandlers`), and the metadata-inheritance endpoint, which rewrites a
  file in place and clears its hash (`Store.RefreshAfterInPlaceWrite`).

`Runs` puts them together: any interleaving of any of them is one run. `Lineage` is the
bounded walk that reads the result. Five smaller protocols stand beside the graph: the nonce
cache (`Replay`), the last-used throttle (`TouchThrottle`), the bootstrap token
(`Bootstrap`), filename stems (`Naming`) and the resolvers' direction and tie-break rules
(`Resolvers`). `Reachability` is the graph theory they share.

A writing query is a function from the tables before to the tables after. A handler or
worker that changes rows step by step is a method on `Database`, proved equal to such a
function; the theorems are about the functions, one step at a time and over whole runs. What a
writer promises -- when it accepts, what it leaves in every field -- is stated beside the
functions in terms of rows, candidates, guards and files, not of the functions' own parts.

## Where the code does not do what it says

Each of these is proved, with the exact condition under which the promise does hold.

- Acyclicity. The recursive cycle queries walk active rows only
  (`internal/db/queries/media_edges.sql:1-40`), and `RefreshResolveEdge` switches a stored row
  back on without a check. `Runs.CycleIsReachable` is a four-step run from any two live nodes to
  a cycle; `Runs.RunAcyclicIff` says that the lineage stays acyclic through a run exactly when
  the timeline of each refresh reaches none of the sources it switches back on.
- The `created` count of an engine pass is documented as the exact number of new rows. The
  existence check looks at active rows only, so it counts newly active rows; the two agree
  exactly when no candidate, at its own turn, switches a stored inactive row back on
  (`Engine.CreatedCountsActivations`), so in particular when no eligible candidate names an
  inactive unreviewed row to begin with (`Engine.CreatedIsExact`).
- A device can gain a server-verified hash. Metadata inheritance clears a node's hash after
  rewriting its file (`internal/pipeline/inherit.go:246`,
  `internal/db/queries/media_nodes.sql:396-421`) but leaves the SERVER provenance row; the device
  that created the node, rebasing it with the hash of the bytes before the rewrite, makes the two
  agree again (`AgentVerification.StaleHashIsVerifiedAgain`). No event grants a verification in
  any other way (`AgentVerification.VerifiedIff`).
- The same signed request can be accepted twice. The skew check admits `timestamp + window`,
  where the cache already counts the nonce as expired (`Replay.BoundaryReplay`). And a request
  takes its clock reading before its body is read (`internal/auth/agent.go:228`): a copy whose
  body stalls while a later request sweeps the cache is accepted with a reading well inside the
  window (`Replay.StalledBodyReplays`). `Replay.ReplayIff` is the exact condition for any
  arrivals in any order; `Replay.NoReplayInsideWindow` is the guarantee that remains.
- `DrainAll` is documented to run until nothing is due. It also stops after a batch that only
  deferred, and then leaves exactly the due rows the batch had no room for and the listed rows
  whose deferral was not written or not into the future (`EventQueue.QuietExitIff`, with a
  backlog of 101 in `EventQueue.QuietExitLeavesDue`). It counts an event as failed even when the
  FAILED mark was not written, and goes on for as long as the mark cannot be
  (`EventQueue.NeverStops`).
- A bootstrap boot reports success although no file holds the token, exactly when the operator
  deleted the claimed file meanwhile (`Bootstrap.SuccessHoldsIff`). A revocation after a failed
  sync or close, of a token that already is in the file at the path, begins a lockout -- a file
  that answers "already minted" for a dead token -- and nothing else does
  (`Bootstrap.LockoutBeginsAtRevoke`); a crash before the file is removed makes it last
  (`Bootstrap.LockoutIsReachable`).
- The stem resolver's two calls on one pair agree on the direction exactly when one of them turns
  the pair; a role-suffixed raw against a bare export makes both turn it
  (`Resolvers.DirectionsAgreeIff`), as DSC1_edit.arw next to DSC1.jpg does
  (`Resolvers.EditedRawNextToJpeg`).
- The lineage queries return neither ARCHIVED nor TRASHED nodes, while the root is refused only
  when it is missing or ARCHIVED (`Lineage.HandleAssetLineage`).

## Model

| member | source | states |
|---|---|---|
| Reachability.DescendantsExact | internal/db/queries/media_edges.sql:20-40 | the recursive descendant query collects exactly the nodes its root reaches |
| Reachability.GrowthKeepsDescendants | internal/httpapi/agent_resolve_snapshot.go:347-402 | edges added into a node never change what that node reaches, even when they close a cycle |
| Reachability.GrowthAcyclicIff | internal/db/queries/media_edges.sql:1-18 | edges into t keep a relation acyclic exactly when it was acyclic and t reached none of their sources |
| Store.CheckedActivationAcyclic | internal/graph/engine.go:120-200 | switching on one row that passed the cycle check, new or stored, keeps the active lineage acyclic |
| Store.Database.RecomputeStatusFromPersistedEdges | internal/graph/status.go:30-46 | the early-exit loop leaves LINKED if and only if some active incoming row is AUTO_ACCEPTED or CONFIRMED, UNLINKED if and only if every one is REJECTED or there is none, NEEDS_REVIEW otherwise, and changes nothing else |
| Store.StatusIsWhatRowsSay | internal/graph/status.go:30-46 | exactly one status fits the rows in that sense, and it is the one every writer stores |
| Store.RecomputeAllDerives | internal/graph/engine.go:202-228 | recomputing the targets of every changed row makes every node's status derived again |
| Store.RecomputeIdle | internal/graph/status.go:30-46 | recomputing a derived status changes nothing |
| Engine.FirstSeenOrder | internal/graph/engine.go:241-272 | merged candidates come out in the order their keys were first seen |
| Engine.MergeKeepsFirstMaximum | internal/graph/engine.go:241-272 | one candidate per key, with the maximum confidence and the resolver and tier of the first to reach it: a later tie keeps the earlier tier |
| Engine.SignalsDomain | internal/graph/engine.go:241-272 | the merged evidence names exactly the resolvers that contributed |
| Engine.SignalsAreLastWords | internal/graph/engine.go:241-272 | for each of them it holds the last evidence given |
| Engine.MergeCandidates | internal/graph/engine.go:241-272 | the map-and-order loop computes that merge |
| Engine.CommitCandidate | internal/graph/engine.go:137-199 | one turn of the commit loop: below 0.50, under a human decision or closing a cycle nothing changes; otherwise the candidate's row takes it in, AUTO_ACCEPTED from 0.85 in Tier 3 and 0.90 elsewhere; no other row changes, no cycle closes, and the count grows by the active rows gained |
| Engine.ResolveAndCommit | internal/graph/engine.go:91-237 | the whole pass commits, row by row and status by status, exactly what the candidates make of the stored rows, reports each eligible row once as it now stands, or rolls back to what it found |
| Engine.PassOutcome | internal/graph/engine.go:91-237 | what that is: a written row carries the maximum confidence of its candidates, tier and resolver of the first to reach it, the last evidence of each, and a review state by that tier's line; against a stored row the better side is taken whole, a tie going to the new one unless that would undo an automatic acceptance; ineligible, decided and cyclic keys keep their rows |
| Engine.PassSucceeds | internal/graph/engine.go:91-237 | a pass whose eligible candidates name known nodes never fails |
| Store.RefreshedKeepsBest | internal/db/queries/media_edges_resolve.sql:1-86 | an upsert keeps the best confidence, takes the rest from one side whole -- on a tie the incoming one, unless it would undo an automatic acceptance -- and is idempotent |
| Engine.UpsertKeeps | internal/db/queries/media_edges_resolve.sql:1-86 | an upsert changes one row, leaves it active and unreviewed, and touches no human decision |
| Engine.EnginePassKeeps | internal/graph/engine.go:91-237 | whatever the resolvers propose, a pass keeps the lineage acyclic, the foreign keys, every human decision and the status derivation |
| Engine.NothingIsDropped | internal/graph/engine.go:102-199 | every candidate at or above the review floor ends up on file with at least its confidence, or under a human decision, or its child reaches its parent |
| Engine.RerunIsIdle | internal/graph/engine.go:91-237 | a second pass over the same candidates creates nothing and changes nothing |
| Engine.CreatedCountsActivations | internal/graph/engine.go:137-199 | created is the growth in active rows; it is the growth in stored rows if and only if no candidate, on the tables of its own turn, switches a stored row back on |
| Engine.CreatedIsExact | internal/graph/engine.go:137-199 | before the pass: created is exact when no eligible merged candidate names a stored row that is inactive and unreviewed |
| Engine.RevivalIsCountedAsCreation | internal/graph/engine.go:137-199 | a candidate naming an inactive unreviewed row counts one creation although the table gains none |
| Snapshot.HoistedCheckIsFresh | internal/httpapi/agent_resolve_snapshot.go:347-402 | one descendant set taken at the first new edge accepts, refuses and writes exactly what a fresh check before every insert would |
| Snapshot.AttachMembers | internal/httpapi/agent_resolve_snapshot.go:353-404 | the member loop, in any order, succeeds exactly when no member is refused, and then leaves one determined table and one determined set of counters |
| Snapshot.DetachRows | internal/httpapi/agent_resolve_snapshot.go:405-436 | the removal loop fails exactly on unreadable evidence and otherwise switches off exactly the unprotected, unreviewed, unwanted rows |
| Snapshot.ReconcileResolveTimeline | internal/httpapi/agent_resolve_snapshot.go:337-438 | whether the call succeeds, and then its tables and counters, are functions of the member set: map iteration order cannot show in them; which of two errors is reported is left open |
| Snapshot.RefusedIff | internal/httpapi/agent_resolve_snapshot.go:353-425 | a call is refused if and only if a member's source is unknown or not live, its row is another resolver's, a new row would close a cycle or hang in the air, or evidence of a row to drop cannot be read |
| Snapshot.RowsExplained | internal/httpapi/agent_resolve_snapshot.go:353-436 | every field of every row into the timeline afterwards: new, refreshed, kept or switched off |
| Snapshot.OpenRowsExact | internal/httpapi/agent_resolve_snapshot.go:337-438 | the open rows afterwards are exactly the desired sources no human reviewed plus the previously open rows protected by path or alias |
| Snapshot.MembersAreCounted | internal/httpapi/agent_resolve_snapshot.go:353-404 | desired members equal created plus refreshed plus unchanged plus human-reviewed |
| Snapshot.CountersAreRows | internal/httpapi/agent_resolve_snapshot.go:337-438 | the five counters are numbers of rows: new ones, changed ones, ones switched off, unreviewed ones that needed nothing, reviewed ones that disagree |
| Snapshot.RerunIsIdle | internal/httpapi/agent_resolve_snapshot.go:337-438 | the same snapshot again is accepted, changes nothing, and creates, refreshes and removes nothing |
| Snapshot.ReconcileKeeps | internal/httpapi/agent_resolve_snapshot.go:337-438 | a reconcile keeps human decisions, foreign keys and derived statuses, and touches no node but the timeline |
| Snapshot.UnguardedRefreshCycles | internal/db/queries/resolve_snapshot.sql:15-19 | a refresh that switches on a row whose source the timeline reaches ends in a cycle |
| Snapshot.ReconcileAcyclicIff | internal/httpapi/agent_resolve_snapshot.go:353-404 | an accepted reconcile keeps an acyclic lineage acyclic if and only if no refresh does that |
| SnapshotRequest.UnresolvedIsCounted | internal/httpapi/agent_resolve_snapshot.go:174-174 | memberships minus the distinct resolved keys is the number of unresolved members |
| SnapshotRequest.ValidateMemberships | internal/httpapi/agent_resolve_snapshot.go:128-171 | the loop accepts exactly well-formed lists that name no path and no source twice for a timeline, and files each member where it belongs |
| SnapshotRequest.ValidateTimelines | internal/httpapi/agent_resolve_snapshot.go:104-127 | the loop accepts exactly well-formed virtual timelines with distinct ids and nodes |
| SnapshotEndpoint.HandleResolveSnapshot | internal/httpapi/agent_resolve_snapshot.go:83-289 | the endpoint commits exactly the specified tables and counters or leaves everything as it was; accepted only when everything it names can be registered, and then within the caller's authority and with as many created as the edge table gained |
| SnapshotRequest.SnapshotKeeps | internal/httpapi/agent_resolve_snapshot.go:175-289 | an accepted request keeps human decisions, foreign keys and derived statuses |
| SnapshotRequest.SnapshotAcyclicIff | internal/httpapi/agent_resolve_snapshot.go:175-289 | the lineage is acyclic after every reconcile call inside the request if and only if every call's refreshes are guarded; at commit, guarded implies acyclic |
| SnapshotRequest.UnguardedMayCommitAcyclic | internal/httpapi/agent_resolve_snapshot.go:231-279 | why at commit it is one way: an unguarded first call closes a cycle, the second call of the request opens it again |
| SnapshotRequest.SnapshotIsAuthoritative | internal/httpapi/agent_resolve_snapshot.go:175-289 | on each timeline the request names, the open rows are exactly its unreviewed resolved sources and its protected old rows |
| SnapshotRequest.SnapshotRowsExplained | internal/httpapi/agent_resolve_snapshot.go:175-289 | over the whole request, every field of every row into a named timeline, from the tables before and the body alone; a wanted source was on record and live |
| SnapshotRequest.SnapshotCreates | internal/httpapi/agent_resolve_snapshot.go:172-174 | over the whole request, created is the number of rows the edge table gained and unresolved the number of members without a source |
| SnapshotRequest.SnapshotRetires | internal/httpapi/agent_resolve_snapshot.go:257-279 | a timeline of the scope, or of the retired scope, that the request does not name ends with no open row |
| SnapshotOwnership.RegisteredIff | internal/httpapi/agent_resolve_snapshot.go:181-246 | a registration succeeds if and only if each named timeline is on record at its path and claimed by scope or by an event of the agent, or new at a free virtual place, and each legacy one is named or was created by the agent |
| SnapshotOwnership.SnapshotWithinAuthority | internal/httpapi/agent_resolve_snapshot.go:210-246 | an accepted request adds scope rows of its caller only, renames only nodes it inserted or its caller can claim, and changes resolve rows and statuses only of those and of the scope it retires |
| SnapshotOwnership.SnapshotsLeaveForeignAlone | internal/httpapi/agent_resolve_snapshot.go:210-220 | over any number of snapshots of one device, a node in none of its scopes that no event of it created keeps its row, status and every edge into it, and stays out of its scopes |
| SnapshotRerun.RequestRerunIsIdle | internal/httpapi/agent_resolve_snapshot.go:83-289 | the same request again is accepted, leaves every table as it is, and counts nothing created, refreshed or removed |
| EdgeHandlers.HandleCreateEdge | internal/httpapi/routes.go:1266-1381 | accepted if and only if both ends exist unarchived and differ, the child is no project file under an ancestry relationship, and no cycle closes; then the row is CONFIRMED, active, certain, first-tier and manual with its old evidence, the child LINKED, no other row or node touched, and acyclicity kept |
| EdgeHandlers.HandleReviewEdge | internal/httpapi/routes.go:1706-1777 | accepted if and only if the row exists; then it carries the decision, no row is switched on or off, and nothing else changes but the child's status, which is what its rows say: LINKED when an active row was confirmed, UNLINKED when the only active one was rejected |
| EdgeHandlers.HandleResetEdgeReview | internal/httpapi/routes.go:1803-1850 | accepted if and only if the row is CONFIRMED or REJECTED; then it awaits review, and the child does too unless another active row is accepted; deciding it again as before brings the edges back |
| EdgeHandlers.CreateEdgeKeeps | internal/httpapi/routes.go:1342-1380 | a manual link keeps the lineage acyclic even when it switches a stored row back on |
| EdgeHandlers.ReviewKeeps | internal/httpapi/routes.go:1706-1777 | a review switches no row on or off; a confirmed active edge makes its child LINKED, and a child stays LINKED otherwise only through another accepted edge |
| EdgeHandlers.ResetUndoesReview | internal/httpapi/routes.go:1803-1850 | resetting a decision and deciding the same again restores edge and status exactly |
| EdgeHandlers.UploadExportKeeps | internal/httpapi/upload_engine.go:505-614 | an upload's two fresh nodes and their edge keep acyclicity, foreign keys, decisions and statuses |
| EdgeHandlers.UploadIsVouchedFor | internal/httpapi/upload_engine.go:543-553 | both rows and the edge of the upload field by field: the master's hash is the server's word, its creator the sending device if one sent it; the export has neither |
| AgentRules.EventKeeps | internal/agent/drainer.go:407-424 | every accepted event of every kind keeps foreign keys, unique indexes, derived statuses, the acyclic lineage and every human decision |
| AgentAuthority.EventEffect | internal/agent/drainer.go:407-424 | every accepted event amounts to one of six permitted effects |
| AgentAuthority.EdgeAttachedEffect | internal/agent/drainer.go:687-828 | an edge event adds one checked, unreviewed edge at most, auto-accepted only into a node the device created |
| AgentAuthority.NodeDeletedEffect | internal/agent/drainer.go:907-968 | a delete retires at most the named, owned node and its cascade |
| AgentAuthority.RunEvolves | internal/agent/drainer.go:862-869 | over any run of events a retired node never becomes active, a non-empty hash never changes, creators never change, and the lineage stays acyclic |
| AgentAuthority.RunLeavesAlone | internal/agent/drainer.go:760-776 | over any run of one device's events, a node it did not create keeps path, name, hash, mtime and its set of accepted incoming edges |
| AgentAuthority.ForeignLifecycleOnlyByCascade | internal/agent/drainer.go:923-954 | a node another device created changes lifecycle only as an accepted export of a master the device created and deletes |
| AgentVerification.VerifiedIff | internal/db/hash_provenance.go:29-38 | a delivery removes no server verification and grants one if and only if it is a rebase by the creator, to a place it may use and that is free, of the value a stale SERVER record still vouches for -- a condition on tables, guard, file and event |
| AgentVerification.RunKeepsVerified | internal/agent/drainer.go:1048-1099 | without such stale records no run of events changes who is server-verified |
| AgentVerification.FirstHashAcceptedIff | internal/agent/drainer.go:1048-1099 | a rebase that brings a known node its first hash is accepted if and only if node, path and hash are well formed, the place is writable outside Tier 3 or a Tier 3 place with its file there, the device holds the node, and path and content are free |
| AgentVerification.InPlaceWriteLeavesDormant | internal/db/queries/media_nodes.sql:396-421 | an in-place write ends exactly the verification of the node it wrote and leaves a stale SERVER record behind |
| AgentVerification.StaleHashIsVerifiedAgain | internal/pipeline/inherit.go:246-251 | after it, its creator's rebase with the old hash makes the node server-verified although the server never hashed the present bytes |
| AgentVerification.FalseVerificationHappens | internal/db/hash_provenance.go:29-38 | such tables and such a delivery exist: one uploaded clip, one in-place write, one rebase |
| AgentWorker.ApplyNodeCreated | internal/agent/drainer.go:441-627 | accepted exactly as CreationIff says; then nothing if the device's UUID resolves, one alias if the content is there, else one new active node of its own with every field from the event or its default, vouched for by the device |
| AgentWorker.ApplyEdgeAttached | internal/agent/drainer.go:687-828 | accepted if and only if well formed, both ends known and no cycle closes; an edge on file is left alone, a new one has the event's confidence, tier 1 or 2, and is auto-accepted exactly from 0.90 for the child's creator |
| AgentWorker.ApplyNodeMoved | internal/agent/drainer.go:830-905 | accepted exactly as MoveIff says; then the device's unretired node stands at a place that is writable outside Tier 3, or a Tier 3 place with its file there, and nothing else changes; through an alias nothing does |
| AgentWorker.PurgeLinkedExports | internal/pipeline/trash.go:655-711 | the cascade loop, in any order, trashes every movable accepted export, and fails exactly when one cannot be moved although it should be |
| AgentWorker.ApplyNodeDeleted | internal/agent/drainer.go:907-968 | accepted unless the node's place is unknown or it or an export is stuck; then exactly the named node and its active accepted exports the trash can take become TRASHED |
| AgentWorker.ApplyPathRebased | internal/agent/drainer.go:995-1153 | accepted exactly as RebaseIff says; then, at such a place, the device's node is ACTIVE with the event's hash, or an unknown file goes on record as an alias of its content or a new node |
| AgentWorker.ApplyVirtualNodeCreated | internal/agent/drainer.go:1216-1355 | accepted unless the place is not virtual or held at another device's path; then the node is on record, or the holder of the path is handed on to the resolve pass |
| AgentWorker.ApplyInTx | internal/agent/drainer.go:241-262 | an event is accepted, waits or is refused for good as the tables, the guard and the files say; its writes are all kept, or all taken back, and every store invariant and human decision stands either way |
| AgentOutcomes.AliasesAreKept | internal/agent/alias.go:46-61 | over any run a recorded alias keeps its node and its device |
| AgentAcceptance.EdgeIff | internal/agent/drainer.go:687-815 | an edge event is accepted if and only if it is well formed, both ends are known to the device and it closes no cycle; the other outcomes are characterised the same way |
| AgentAcceptance.CreationIff | internal/agent/drainer.go:441-627 | accepted if and only if well formed and either known already or at a path the guard knows and nobody holds; it waits exactly while no guard is configured |
| AgentAcceptance.MoveIff | internal/agent/drainer.go:830-905 | accepted if and only if the device holds the node, the place is writable outside Tier 3 or Tier 3 with its file there, and path and content are free; FileNotYetPresent exactly for a Tier 3 place without its file, ReadOnlyRebase exactly for a read-only one outside Tier 3 |
| AgentAcceptance.RebaseIff | internal/agent/drainer.go:995-1187 | the same for a rebase, with the hash given, kept or set for the first time, and for an unknown file |
| AgentAcceptance.DeleteIff | internal/pipeline/trash.go:112-207 | a delete fails exactly when the node's own place is unknown, or its file or an accepted export's should be moved and cannot be |
| AgentAcceptance.VirtualIff | internal/agent/drainer.go:1216-1355 | accepted if and only if known already, or at a virtual place that is free or whose agent segment is nobody else's |
| AgentAcceptance.EventDecided | internal/agent/drainer.go:289-304 | every event of every kind is accepted, waits for something that may still come, or is refused for good, and which it is can be read off tables, guard and files |
| AgentOutcomes.ParseUndoesName | internal/agent/drainer.go:700-720 | the five relationship names parse to their relationships, nothing to DERIVED_FROM, and nothing else parses |
| AgentAcceptance.SegmentExact | internal/agent/drainer.go:1194-1209 | the agent segment is what stands between the root and the next slash, when both are there |
| AgentRedelivery.AttachedAgain | internal/agent/drainer.go:785-822 | a second delivery of an edge event cannot meet a cycle and changes nothing; acyclicity is not needed |
| AgentRedelivery.RedeliveryIsIdle | internal/agent/drainer.go:407-424 | redelivering any committed event changes nothing, up to the clock-supplied mtime of a rebase without one |
| AgentRedelivery.LateEdgeRedelivery | internal/agent/drainer.go:785-822 | much later, after other writers, it still changes nothing while its edge is active -- because the lineage is acyclic |
| QueueRedelivery.RedeliveredAttemptIsIdle | internal/agent/drainer.go:228-305 | a second attempt of a processed event, resolve pass included, at any later time, leaves the tables as the first left them, up to that mtime, while the resolvers propose the same |
| Retry.RetryDelay | internal/agent/types.go:209-221 | the doubling loop computes the capped power of two |
| Retry.DelaySchedule | internal/agent/types.go:195-221 | delays start at 5 s, never shrink, double until the hour, and reach it exactly at the eleventh failure |
| Retry.DefaultBudgetSpansTenHours | internal/agent/types.go:195-208 | twenty attempts span 37515 seconds of deferral |
| EventQueue.ListPending | internal/db/queries/event_queue.sql:10-19 | the listing is the first due rows in (created_at, id) order |
| EventQueue.ListingOrder | internal/db/queries/event_queue.sql:10-19 | that is: pending rows that have come due, oldest first, ties by id, and a due row is left out only by the limit, behind everything listed |
| EventQueue.ListingUnique | internal/db/queries/event_queue.sql:10-19 | order and limit determine the listing |
| EventQueue.AttemptSafe | internal/agent/drainer.go:228-270 | one event and its after-commit resolve pass keep every store invariant and every human decision |
| EventQueue.DecidedOnce | internal/agent/drainer.go:220-330 | each listed row is decided once, by its own attempt, as it was listed |
| EventQueue.BatchOutcome | internal/agent/drainer.go:220-330 | in a batch each listed row is decided by what its own turn meets: PROCESSED when the event is acceptable then, deferred when it waits within its budget, FAILED otherwise; and an event not processed leaves the tables alone |
| EventQueue.AttemptDecides | internal/agent/drainer.go:220-330 | one attempt: acceptable means PROCESSED; a missing node or file, an unset guard, a stuck file or a transaction that could not run means deferred while the budget lasts; everything else means FAILED at once |
| EventQueue.WaitsForItsFile | internal/agent/types.go:45-56 | a move or rebase to a Tier 3 place without its file goes back to the queue, and the attempt after the file arrived processes it |
| EventQueue.AttemptDone | internal/agent/drainer.go:228-286 | a processed event did what its kind promises and then, when it left a node to resolve, the pass over the candidates ran to its end on top |
| EventQueue.BatchProgress | internal/agent/drainer.go:220-330 | a batch never leaves a terminal state, its counters are the growth of the terminal rows, and the remaining work falls by what it counts |
| EventQueue.UnwrittenMarksSpin | internal/agent/drainer.go:309-317 | a batch of rows that fail at every attempt, or have spent their budget, counts them all and changes nothing while FAILED marks cannot be written |
| EventQueue.NeverStops | internal/agent/drainer.go:355-400 | on such rows the drain loop runs m rounds for every m, with m failures counted and neither queue nor tables changed |
| EventQueue.QuietExitIff | internal/agent/drainer.go:385-395 | under any clock and any failing writes, a batch that only deferred leaves exactly the due rows it had no room for and the listed rows whose deferral did not take; none if and only if the due rows fitted and every deferral took |
| EventQueue.QuietExitLeavesDue | internal/agent/drainer.go:385-395 | with every write succeeding and the clock moving forward, a backlog of 101 deferrable rows ends with the last one still due |
| EventQueue.Drainer.ProcessEvent | internal/agent/drainer.go:220-330 | one turn of the batch loop ends as AttemptDecides says, touches its own row only, leaves terminal rows alone, changes no table unless the event was processed, and keeps every store invariant and human decision |
| EventQueue.Drainer.ProcessPending | internal/agent/drainer.go:195-350 | the batch is the unique listing run in order |
| EventQueue.Drainer.DrainAll | internal/agent/drainer.go:355-400 | under any clock the loop terminates when FAILED marks can be written; it stops with nothing due, or after a state it went through whose batch only deferred, and keeps every invariant |
| Runs.StepSound | internal/db/open.go:110-123 | every step of every writer keeps foreign keys, unique indexes and derived statuses |
| Runs.StepKeepsDecisions | internal/graph/engine.go:175-195 | no machine step touches a human decision, and a human step only the row it names |
| Runs.RunKeepsDecision | internal/httpapi/agent_resolve_snapshot.go:367-372 | over any run a CONFIRMED or REJECTED edge stays as it is, every field of it, until a human step names it |
| Runs.RunSound | internal/graph/status.go:30-46 | after any run of all writers each node is LINKED if and only if some active incoming row is accepted, UNLINKED if and only if all are rejected or there is none, NEEDS_REVIEW otherwise |
| Runs.RunAcyclicIff | internal/httpapi/agent_resolve_snapshot.go:383-402 | over any run of all writers the lineage is acyclic throughout if and only if every snapshot's refreshes are guarded |
| Runs.CycleIsReachable | internal/db/queries/resolve_snapshot.sql:15-19 | four accepted steps take any two live nodes without edges to a cycle |
| Lineage.WalkExact | internal/httpapi/routes.go:888-930 | the walk has seen exactly the nodes within the distance, and each level holds exactly the nodes at that distance |
| Lineage.NextLevel | internal/httpapi/routes.go:900-929 | one level out: the unseen neighbours in both directions, each once |
| Lineage.HandleAssetLineage | internal/httpapi/routes.go:869-975 | the output is exactly the unretired nodes within the undirected distance asked for -- 2 below 1, 5 above 5 -- and every active, not rejected edge between two of them |
| Lineage.NearIsMutual | internal/httpapi/routes.go:888-930 | one asset is in another's view at a depth exactly when the other is in its |
| Lineage.NeighboursIff | internal/httpapi/routes.go:888-930 | two nodes are one apart when an active, not rejected edge joins them, whichever way |
| Replay.ReplayCache.CheckAndRecord | internal/auth/replay.go:39-64 | the lazily sweeping check, entry by entry: accepted exactly when the nonce is not blocked, and another entry goes only when expired, at a sweep at least a second after the last |
| Replay.CheckSignedRequest | internal/auth/agent.go:208-296 | accepted if and only if all headers are there, the timestamp is within the window on either side, the body is readable, the signature right and the nonce not blocked; then the nonce is blocked for exactly the rest of the window; any other request leaves every nonce as it was |
| Replay.LazySweepIsExact | internal/auth/replay.go:39-64 | as long as no later reading has reached the cache first, it blocks exactly what one that never deletes would, whatever the order of the readings before |
| Replay.ReplayIff | internal/auth/agent.go:228-296 | for requests arriving in any order of their readings: a nonce is accepted again if and only if the reading is at or past its expiry or a request in between swept the cache with such a reading; for the same pair that reading is timestamp + window exactly |
| Replay.NoReplayInsideWindow | internal/auth/replay.go:39-64 | whatever the arrival order, no nonce is accepted again while no request has reached the cache with a reading at or past its expiry |
| Replay.RefusedLeavesNoTrace | internal/auth/agent.go:208-296 | a refused request does not use up a nonce |
| Replay.EntriesExact | internal/auth/replay.go:39-64 | the cache holds exactly the accepted requests not accepted again and not swept since |
| Replay.BoundaryReplay | internal/auth/agent.go:228-236 | the boundary instant does admit a replay, for every window |
| Replay.StalledBodyReplays | internal/auth/agent.go:228-284 | a copy whose body stalled past a sweep is accepted with a reading inside the window, on a clock that never steps back |
| TouchThrottle.PATMiddleware.ShouldTouch | internal/auth/pat.go:130-148 | the evicting map, entry by entry: granted a minute after the last grant on record; from 4096 entries on, what is a minute old goes |
| TouchThrottle.ThrottleIsExact | internal/auth/pat.go:112-148 | a touch that no later reading has overtaken is refused exactly when one of the same token was granted less than a window ago, however much was evicted |
| TouchThrottle.GrantedAgainIff | internal/auth/pat.go:112-148 | a token is granted again if and only if its reading is a window past the last grant or a request in between evicted with such a reading |
| TouchThrottle.TouchesAreSpaced | internal/auth/pat.go:112-148 | in any order of arrival, a token is not granted again while no request has reached the map with a reading a window past its last grant |
| Bootstrap.StepKeepsInv | internal/auth/pat.go:703-896 | every step, failure, crash and deletion keeps the protocol's invariant |
| Bootstrap.AtMostOneLive | internal/auth/pat.go:806-855 | after any interleaving of boots at most one bootstrap token is live |
| Bootstrap.SuccessHoldsIff | internal/auth/pat.go:872-896 | a successful boot minted the one live token, and the file holds it if and only if the operator deleted nothing since the claim |
| Bootstrap.ConsumedOnce | internal/auth/pat.go:662-677 | until the operator deletes the file, no later boot mints anything or changes file or token |
| Bootstrap.SuccessIsFinal | internal/auth/pat.go:662-677 | from any start: once a boot has succeeded with its file in place, that token stays the only live one, in that file, and no later boot mints, until the operator deletes |
| Bootstrap.AlreadyMintedTouchedNothing | internal/auth/pat.go:742-790 | a boot that answers "already minted" changed nothing with any of its steps, whoever else was booting |
| Bootstrap.LockoutBeginsAtRevoke | internal/auth/pat.go:857-891 | a step begins a lockout if and only if it is a successful revocation of a token that stands in the file at the path; it follows a failed sync or close, and the boot's own clean-up ends it |
| Bootstrap.LockoutIsReachable | internal/auth/pat.go:798-891 | a crash right after it makes that state last |
| Bootstrap.SuccessWithoutFileIsReachable | internal/auth/pat.go:872-896 | a deletion between claim and write ends in a reported success without a file |
| Bootstrap.Host.ClaimPath | internal/auth/pat.go:742-790 | a free path or a crashed empty claim is claimed, a symlink fails, anything else is refused |
| Bootstrap.Host.RunBootstrapPAT | internal/auth/pat.go:703-896 | an undisturbed boot is a legal run; without failing calls it mints exactly when the path is free or an empty claim, so an empty claim never blocks |
| Naming.IndexMarkerExact | internal/naming/naming.go:38-51 | a suffix matches the index expression exactly when it is the one found |
| Naming.RoleMarkerExact | internal/naming/naming.go:53-54 | likewise for the role expression |
| Naming.Analyze | internal/naming/naming.go:70-94 | the loop computes the stripped stem and the kind |
| Naming.StemIsBare | internal/naming/naming.go:70-94 | any name is its stem plus markers, the stem ends in none, and the kind is that of the markers |
| Naming.StripUndoesAppend | internal/naming/naming.go:70-94 | stripping undoes appending any markers in any order to a bare base |
| Naming.AnalyzeUndoesNaming | internal/naming/naming.go:70-94 | base plus markers plus extension analyses back to the base: Index iff some marker was an index, Role iff only roles, None iff none |
| Resolvers.ResolveStem | internal/graph/resolvers.go:211-412 | one candidate per looked-up row that yields one, in row order |
| Resolvers.DirectionExact | internal/graph/resolvers.go:224-400 | which pairs yield a candidate, which of the two files is its child, and with which label |
| Resolvers.LabelExact | internal/graph/resolvers.go:95-152 | PROXY_OF for a proxy by name or extension, FINAL_EXPORT for an undotted export of an undotted raw, DERIVED_FROM otherwise |
| Resolvers.ScoreExact | internal/graph/resolvers.go:374-400 | 0.60, and 0.15 for one day, 0.10 for one camera, 0.10 for one directory, at most 0.90, or 0.89 with an index suffix |
| Resolvers.TelemetryExact | internal/graph/resolvers.go:241-295 | when an .srt yields a candidate next to a video, which, and with which confidence |
| Resolvers.IndexRules | internal/graph/resolvers.go:154-240 | no index-suffixed parent; an index pair has a bare parent and stays at 0.89 or below |
| Resolvers.IndexOnlyBatchYieldsNothing | internal/graph/resolvers.go:170-200 | a batch of index-suffixed files yields nothing |
| Resolvers.ProxyPair | internal/graph/resolvers.go:296-409 | for a file and its proxy each call proposes nothing or the same PROXY_OF edge with the proxy as child, and which of the two is determined |
| Resolvers.DirectionsAgreeIff | internal/graph/resolvers.go:345-409 | for other pairs both calls agree on the parent exactly when one of them turns the pair |
| Resolvers.RoleRawAgainstBareExport | internal/graph/resolvers.go:360-367 | a role-suffixed raw and a bare export are turned by both |
| Resolvers.EditedRawNextToJpeg | internal/graph/resolvers.go:345-409 | for example DSC1_edit.arw and DSC1.jpg: each call makes the other file the child |
| Resolvers.Best | internal/graph/resolvers.go:465-528 | the loop keeps an unbeaten eligible row |
| Resolvers.ResolveHeuristic | internal/graph/resolvers.go:455-534 | no candidate exactly without a serial or a comparable row; otherwise the one of the row no other goes before in confidence, hash distance, seconds apart and id |
| Resolvers.ScoreRowExact | internal/graph/resolvers.go:465-508 | which rows are comparable -- a captured raw for a captured export, hashes at most 10 bits apart -- and their confidence, distance and seconds apart |
| Resolvers.WinnerIsOrderFree | internal/graph/resolvers.go:465-534 | the winner is the same for every permutation of the rows and goes before every other comparable row |
| Resolvers.HeuristicBand | internal/graph/resolvers.go:475-508 | scores stay within 0.70-0.89 and reach 0.85 exactly with matching lens and close pHashes |
| Resolvers.DottedExtensionIsNotExport | internal/graph/resolvers.go:95-106 | a dotted raw extension is turned as a raw but labelled DERIVED_FROM, and the heuristic does not see it |

## Left out

- AgentRedelivery.RedeliveryIsIdle: a redelivery that itself fails (the guard or the file changed meanwhile) is included as changing nothing; that it would be counted as FAILED in the queue is not part of this statement.
- EventQueue.Drainer.DrainAll: reads of the queue succeed, nothing is enqueued while it runs, the retry budget does not change during it, and the context is not cancelled.
- Bootstrap: writing and syncing the plaintext is one step (a write that fails leaves the file empty, one that fails to sync leaves the whole token); the operator deletes the token file only, not the lock file, and puts nothing in its place; the retry loop of flockExclusive is the choice between acquiring and timing out.
- Replay: the API-key lookup and the HMAC itself; durations do not saturate. A run lists requests in the order they reach the cache; each carries the reading it took on its own.
- QueueRedelivery.RedeliveredAttemptIsIdle: nothing else is written between the two deliveries; later deliveries of an edge event after other writers are AgentRedelivery.LateEdgeRedelivery.
- SnapshotOwnership.SnapshotsLeaveForeignAlone: which virtual nodes a device's processed events named is read from the event queue by the endpoint and is a parameter of each request here.
- SnapshotRerun.RequestRerunIsIdle: nothing else is written between the two requests, and the context (the guard, the listing order, which nodes the device created) is the same for both.
- Naming: lowercasing is ASCII; Unicode case mapping is not modelled.
- Resolvers: the XMP and project-sidecar resolvers, file sniffing and Hamming distance (parameters), evidence content, and the cap on looked-up rows.
- Runs: scan commits, pruning and other writers of nodes; only the writers of edges, reviews and statuses listed above and the in-place write are steps.
- Snapshot.ReconcileResolveTimeline: which error a failing call reports; with two members refused for different reasons that follows the iteration order in the code too.
- Store: the row id of a node is identified with its node_uuid, and that of an edge with its unique key; CHECK constraints on confidence and tier are not modelled.
- Evidence is opaque except for the three fields the snapshot reads back; JSON decoding is a parameter of the value.
- node_metadata, audit rows, reviewed_by and reviewed_at, timestamps of rows, upload user ids, GPS metadata: written beside the rows here and read by nothing modelled.
- HTTP routing, authentication and admin checks, response bodies, log messages, nudges, the Immich rescan hook and undoing file moves after a rollback.
