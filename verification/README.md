# Radar and the chat bus: verified model

This project models the parts of the repository that coordinate independent writers, and proves what each of them
keeps over whole runs. Each component is a specification on values (the state before and after one operation), a class
or method that does the same step by step where the source does, and theorems over every run.

- **Projection of writer lanes.** `CommitGraph`, `WriterLanes`, `CentralProjection` and `ProjectionChunks` are the commit
  graph, the validation of unseen commits, the collection of new message files and the greedy batching.
  `ProjectionJournal` is the fenced journal. `TrustedProjection` lets any number of projectors interleave over one graph
  while branches move arbitrarily; `ProjectLanes` is one projector run as a program.
- **Exact-head append.** `MessageGrammar` holds the two header parsers, character by character. `CommitObjects` are
  content-addressed commits. `SafeLaneAppend` lets any number of appends interleave with other pushes and with updates
  that raise and land later; `SafeLaneAppender` is one append as a program over a branch that others move between calls.
- **Assignments.** `AssignmentPlane` is the fixed-point reconciler of explicit assignment messages; `Ledger` is the
  transition ledger with its triggers and guard; `Workflow` is the dependency graph.
- **In-process runtime.** `Registry`, `Routing` and `Runtime` are name resolution and routing, the bounded queue and the
  duplicate window, and the accounting of every message.
- **Projection of colliding messages and the workstation relay.** `Collision` and `WorkstationRelay`.

`Wrappers`, `Sequences` and `Text` hold shared vocabulary. `dafny verify dfyconfig.toml` checks everything.

## Conventions

- An exception or error return of the source is a `Result`, an error value in the state, or a `Raised` outcome. A statement,
  trigger or locked section is one atomic step.
- Digests are replaced by what they digest, so equal digests are equal contents; uuids and new commits are parameters
  that the legality of a step requires to be fresh.
- The environment (Git, the control snapshot, the relay target) answers calls in any way that its role allows: reads may
  raise or find nothing, and what they return is true when they return it. The one exception is the check of the message
  path before the objects are built: it may raise, but does not overlook a file that is there.
- `Legal` says what a step assumes of its environment, `Next` or an `After...` function what it does, `Inv` what every
  reachable state satisfies. `hide` statements only keep definitions out of a proof that does not need them.

## Findings

- The claim that the canonical grammar accepts what the strict parser accepts needs the strict parser to have found a
  message id and a writer. Without that, front matter whose every header line starts with a hyphen is accepted by one and
  refused by the other; `MessageGrammar.ListItemHeaderText` shows such a text and `MessageGrammar.GrammarAcceptsIff` gives the
  exact condition.
- `ProjectionJournal.record_file_result` (src/radar/reconciliation_journal.py:196-208) checks the token and the active
  batch, but neither the lease nor the control cut; only finalization does. The model follows the code.
- The schema lets a row be inserted into `assignments` with any columns that pass its CHECKs, for example INTERRUPTED out of
  PAUSED without a `nested_pause_state`. The validation accepts the recovery of such a row, and the projected row then fails
  a CHECK (`Ledger.UnknownPauseIsLost`); `Ledger.AcceptedEventAppliesIff` shows that nothing else stops an accepted event
  with an unused operation id. A row is the fold of its events exactly if it was inserted with the columns that `create_assignment` gives it
  (`Ledger.InsertRowKeepsInvIff`), and the theorems on reachable ledgers are about those.
- The reconciler never looks at an invalid envelope again, so registering its assignee later does not revive it. The
  confluence theorem therefore fixes the identities.
- A reconciled assignment chain may move from any allowed state to any other: the function has no transition table, unlike
  the ledger.

## Model

| member | source | states |
|---|---|---|
| CommitGraph.SingleParentListingIsLine | src/radar/trusted_reconciler.py:95-101 | If every listed commit has one parent, what Git lists for base..head is the single-parent path from base to head, each commit once, in order. |
| CommitGraph.LineUnique | src/radar/trusted_reconciler.py:95-101 | Between two commits there is at most one such path. |
| WriterLanes.MessageIdsAtCommit | src/radar/writer_lanes.py:231-252 | Either some message file of the tree is unreadable, or the result is exactly the set of its folded message ids. |
| WriterLanes.ValidateCommitPaths | src/radar/writer_lanes.py:289-344 | Accepts a commit exactly if it has one parent, every changed path is an added message file of this writer and namespace, and the new ids are fresh and distinct up to case. |
| WriterLanes.ValidateActiveWriterRange | src/radar/trusted_lane_validation.py:34-75 | Accepts a range exactly if base is an ancestor of head, the range is empty only if they are equal, and every commit is admissible; the result is the listing itself. |
| WriterLanes.LineOnlyAppends | src/radar/writer_lanes.py:289-344 | Along an admissible path every file stays as it was and every new file is a message of the lane. |
| WriterLanes.LineKeepsUniqueIds | src/radar/writer_lanes.py:231-344 | If message ids are unique up to case at the base of an admissible path, they are at its head. |
| CentralProjection.CollectProjectionFiles | src/radar/central_projection.py:45-101 | Succeeds exactly if no commit is a merge, no path comes twice and no file is too large, and then returns what the commits add, in order. |
| CentralProjection.CollectedIsTreeDifference | src/radar/central_projection.py:55-101 | On a validated path the collected files are exactly the message files of the head tree that the base tree lacks, each once and with the head's content, so PROJECTION_PATH_REPEATED cannot fire. |
| CentralProjection.CollectedConcat | src/radar/central_projection.py:55-101 | Collecting two ranges one after the other is collecting their concatenation. |
| ProjectionChunks.GreedyStaysAhead | src/radar/central_projection.py:104-134 | Greedy chunks are never behind any other partition within the limits, even if that one has a head start. |
| ProjectionChunks.ChunkProjectionFiles | src/radar/central_projection.py:104-134 | Succeeds exactly if the limits are positive and every file fits alone; the chunks are non-empty, within the limits, concatenate to the input, and are as few as any contiguous partition needs. |
| ProjectionJournal.Journal.SeedLaneState | src/radar/reconciliation_journal.py:82-93 | Seeds a lane once; a different second seed is refused and changes nothing. |
| ProjectionJournal.Journal.SetControlCut | src/radar/reconciliation_journal.py:101-117 | Binds the cut of a seeded lane and changes nothing else. |
| ProjectionJournal.Journal.ClaimBatch | src/radar/reconciliation_journal.py:119-183 | Issues a claim only for the current cursor and cut and only if no live claim holds the lane; otherwise nothing changes. |
| ProjectionJournal.Journal.RecordFileResult | src/radar/reconciliation_journal.py:196-208 | Records a result of the current claim's own file; a stale, complete or contradicting one is refused. |
| ProjectionJournal.Journal.FinalizeBatch | src/radar/reconciliation_journal.py:210-238 | Completes the batch and moves the cursor by compare-and-set, only for the active claim within its lease, under its cut and cursor, with every file a success; replaying it changes nothing. |
| ProjectionJournal.StepValid | src/radar/reconciliation_journal.py:60-238 | Every operation keeps that a lane has at most one active batch, which is incomplete, and that complete batches hold successes alone. |
| ProjectionJournal.SupersededForever | src/radar/reconciliation_journal.py:185-238 | A superseded incomplete batch never again records a file or completes. |
| ProjectionJournal.BrokenForever | src/radar/reconciliation_journal.py:196-238 | A batch with a FAILED or CONFLICT file never completes. |
| ProjectionJournal.CompleteForever | src/radar/reconciliation_journal.py:210-218 | A complete batch stays as it is, and replaying its finalization changes nothing. |
| ProjectionJournal.CursorIsHistory | src/radar/reconciliation_journal.py:210-238 | A seeded cursor changes by finalizations alone: each expected what the one before left, and the cursor is where the last one left it. |
| ProjectionJournal.FinalizedOnce | src/radar/reconciliation_journal.py:210-238 | No batch is finalized twice in a run. |
| TrustedProjection.DispositionMeaning | src/radar/trusted_reconciler.py:176-227 | The dispositions in terms of ancestry: FORWARD exactly if the observed head strictly descends from the cursor and both from the anchor, and so on. |
| TrustedProjection.FinalizationMovesForward | scripts/radar_trusted_project.py:113-193 | Over any interleaving and any branch moves, a finalization takes the cursor to a strict descendant; the first one takes it to the anchor or a descendant of it; no other step moves it. |
| TrustedProjection.CursorNeverGoesBack | scripts/radar_trusted_project.py:113-193 | Wherever a lane's cursor stood, it stands at a descendant in every later state. |
| TrustedProjection.FinalizedBatchesCoverThePath | scripts/radar_trusted_project.py:113-193 | The commit ranges of a lane's finalized batches, in order, are exactly the single-parent path to the cursor, and their files exactly the messages that path adds. |
| TrustedProjection.CursorKeepsMessageIdsUnique | src/radar/writer_lanes.py:231-344 | If message ids were unique at the start of a lane, they are at its cursor in every reachable state. |
| TrustedProjection.CollectionFailsOnlyOnSize | src/radar/central_projection.py:55-101 | On a range that passed the validation the collection can fail for the size of a file alone. |
| ProjectLanes.ProjectLane | scripts/radar_trusted_project.py:113-193 | A lane whose report names a finalized head has its cursor, and no other, moved to the observed head by a complete batch of exactly the collected files; any other run leaves all cursors alone. |
| ProjectLanes.ProjectRequestedLanes | scripts/radar_trusted_project.py:84-200 | The lanes are worked through in order up to the first failure; a cursor has moved only if a report says so, and then to the observed head. |
| MessageGrammar.ParseMetadataHeaders | src/radar/safe_lane_append.py:223-290 | The loop finds the headers, or the error, that the strict block grammar assigns to the text. |
| MessageGrammar.SplitDocument | src/radar/message_grammar.py:121-155 | The loop finds the headers of the document grammar, and the body is an exact suffix of the text. |
| MessageGrammar.ParsersAgree | src/radar/safe_lane_append.py:209-308 | What the strict parser accepts with a message id and a writer, the canonical grammar accepts, with equal values for every key not starting with an underscore. |
| MessageGrammar.GrammarAcceptsIff | src/radar/message_grammar.py:92-155 | For any text that the strict parser accepts: the grammar accepts it exactly if there is no front matter or some line of it is a header for both. |
| MessageGrammar.ListItemHeaderText | src/radar/message_grammar.py:92-119 | A text that one parser accepts and the other refuses. |
| MessageGrammar.AppendingKeepsHeaders | src/radar/safe_lane_append.py:223-290 | Once the header block has ended, appending any text leaves the headers of both parsers as they are. |
| CommitObjects.AncestorAntisymmetric | src/radar/safe_lane_append.py:619-633 | Ancestry of commits, with merges or without, has no cycles. |
| SafeLaneAppend.PredecessorChecked | src/radar/safe_lane_append.py:492-508 | If a complete history passes the predecessor check for a fresh id, the message names the last message of the lane's chain, or nothing on an empty lane. |
| SafeLaneAppend.ObservedTrue | src/radar/safe_lane_append.py:550-633 | Whatever is read back after an update, it leads on to the verification with the commit on the branch, or to an error whose effect state is true of the branch. |
| SafeLaneAppend.NextKeepsInv | src/radar/safe_lane_append.py:363-848 | Every call of every append, every push of others, and every late or lost update keeps what all appends rely on. |
| SafeLaneAppend.OutcomeTrueForever | src/radar/safe_lane_append.py:363-848 | Over any schedule, every error and receipt is true when it is given and in all later states: NONE_ESTABLISHED that the commit can never reach the branch, PRESENT that it is on it, APPENDED that it has the expected head as its one parent, changes the message path alone and holds the exact text, ALREADY_COMMITTED that the exact text stands in a commit of the branch. |
| SafeLaneAppend.NoneEstablishedNeverLands | src/radar/safe_lane_append.py:550-617 | A commit reported with NONE_ESTABLISHED is on the branch in no later state. |
| SafeLaneAppend.RetryLandsOnce | src/radar/safe_lane_append.py:389-453 | Of two appends of one message id, whatever became of the first, at most one commit is ever on the branch. |
| SafeLaneAppend.LandingOnExpected | src/radar/safe_lane_append.py:439-453 | A commit lands only on the expected head, when no message of the branch has its id. |
| SafeLaneAppend.HeadStoodStill | src/radar/safe_lane_append.py:389-453 | From the read of the head to the landing the head was the expected head in every state between. |
| SafeLaneAppend.LaneStaysAChain | src/radar/safe_lane_append.py:389-508 | With any number of appends, on a branch to which others push no merges and only messages that themselves go on with the chain, the messages keep unique ids, each names the one before it in commit order, and the log grows at its end only. |
| SafeLaneAppend.ChainIdsUnique | src/radar/safe_lane_append.py:396-404 | On such a branch one message id stands in one commit and one file. |
| SafeLaneAppender.GitBackend.UpdateRef | src/radar/safe_lane_append.py:141-164 | An update moves the branch forward to the commit or not at all; one that raises may have landed, be lost, or stay in flight. |
| SafeLaneAppender.SafeLaneAppender.AppendBusMessage | src/radar/safe_lane_append.py:363-453 | The program as a whole, with other pushes and late landings between any two calls: its error or receipt is true of the branch when it returns. |
| AssignmentPlane.PassProgress | supabase/migrations/20260903001906_radar_assignment_plane_v1.sql:129-378 | A pass that projects something leaves fewer messages without an event, so the loop ends. |
| AssignmentPlane.ReconcileIdempotent | supabase/migrations/20260903001906_radar_assignment_plane_v1.sql:127-378 | Reconciling again without a new message changes nothing and observes nothing. |
| AssignmentPlane.EveryMessageAccounted | supabase/migrations/20260903001906_radar_assignment_plane_v1.sql:55-424 | After a reconcile every assignment message is projected, or observed as invalid, in conflict, or waiting for a predecessor that has no event. |
| AssignmentPlane.EventsFormChains | supabase/migrations/20260903001906_radar_assignment_plane_v1.sql:127-378 | In every reachable state each assignment's events are one unbranched chain of messages from its root, each event starts in the state where the one before ended, and the row shows the last. |
| AssignmentPlane.ReconciledChainsComplete | supabase/migrations/20260903001906_radar_assignment_plane_v1.sql:127-378 | After a reconcile no usable message continues a chain or roots a missing one. |
| AssignmentPlane.CompleteChainUnique | supabase/migrations/20260903001906_radar_assignment_plane_v1.sql:127-378 | If no two usable messages share a root or a predecessor, an assignment has exactly one complete chain. |
| AssignmentPlane.ConflictNeverProjected | supabase/migrations/20260903001906_radar_assignment_plane_v1.sql:169-331 | A message reported as a conflict is never projected, whatever arrives later. |
| AssignmentPlane.ArrivalOrderIrrelevant | supabase/migrations/20260903001906_radar_assignment_plane_v1.sql:127-452 | Without rivals, reconciling after every insert in any order of arrival shows the same chains and rows as one reconcile at the end. |
| AssignmentPlane.Projection.ProjectToFixedPoint | supabase/migrations/20260903001906_radar_assignment_plane_v1.sql:127-378 | The nested loops with their progress flag end, compute the fixed point and count what they inserted. |
| AssignmentPlane.Projection.Reconcile | supabase/migrations/20260903001906_radar_assignment_plane_v1.sql:18-434 | The three phases in order give the reconciled tables, and the returned counts are what each table gained. |
| AssignmentPlane.Projection.InsertMessage | supabase/migrations/20260903001906_radar_assignment_plane_v1.sql:436-452 | The insert trigger reconciles; a second message with the same id changes nothing. |
| Ledger.AcceptedEventApplies | src/chat_bus/schema.sql:139-281 | An event that the validation accepts, with an unused operation id, is never stopped by the guard or a CHECK. |
| Ledger.ProjectionIsAdvance | src/chat_bus/schema.sql:247-281 | The trigger's update of the context columns is the push or pop of a stack of return states, and the new row passes every CHECK. |
| Ledger.AcceptedEventAppliesIff | src/chat_bus/schema.sql:139-281 | With rows inserted in any way that the schema permits, such an event goes in exactly if it is no recovery to PAUSED of a row without nested_pause_state. |
| Ledger.UnknownPauseIsLost | src/chat_bus/schema.sql:36-49 | A row that passes every CHECK, and an event for it that passes the validation and is then stopped by a CHECK. |
| Ledger.RunKeepsSchema | src/chat_bus/schema.sql:12-301 | Over any statements, inserts of rows with any columns among them, every row passes its CHECKs and references. |
| Ledger.InsertRowKeepsInvIff | src/chat_bus/ledger.py:45-65 | An inserted row is the fold of its events exactly if its columns are those that create_assignment gives it. |
| Ledger.ReachableInv | src/chat_bus/schema.sql:12-301 | In every ledger whose rows come from create_assignment, over any statements, each row is the fold of its events, its context columns spell out a stack of at most two states, each event continues its assignment's last, and receipts are of CONFIRMED assignments. |
| Ledger.ResumeReturnsToPushed | src/chat_bus/schema.sql:36-49 | A resume or recovery returns to the exact state that the last open pause or interrupt pushed; nested_pause_state is set exactly while an interrupted assignment was paused before. |
| Ledger.StopsInOneStep | src/chat_bus/schema.sql:303-338 | The operator can stop every reachable assignment that is not in a final state, at once. |
| Ledger.FinalForGood | src/chat_bus/schema.sql:303-338 | No event is accepted for an assignment in a final state. |
| Ledger.ReturnIsPossible | src/chat_bus/schema.sql:182-203 | A paused or interrupted assignment can always be taken back to the state on top of its stack. |
| Ledger.OnlyTopAccepted | src/chat_bus/schema.sql:182-203 | A resume or recovery to any other state is refused. |
| Ledger.DirectUpdateChangesNothing | src/chat_bus/schema.sql:208-242 | A direct UPDATE of a row of a reachable ledger succeeds only if it changes no column. |
| Ledger.TransitionAccepted | src/chat_bus/ledger.py:67-131 | The exact condition under which apply_transition's event is accepted. |
| Ledger.Store.ApplyTransition | src/chat_bus/ledger.py:67-131 | The errors for each refusal; on success one event is added, the row stands on it, and neither PROJECTION_NOT_ADVANCED nor PROJECTION_STATE_MISMATCH can occur. |
| Ledger.Store.RecordFinalAcceptance | src/chat_bus/ledger.py:152-186 | A receipt is recorded only for a CONFIRMED assignment of the same mode, once, and PASS only with readback. |
| Registry.ResolutionStable | src/radar/registry.py:80-120 | Once a name resolves to an identity it does so after every further registration, subscription or status change. |
| Registry.NextKeepsValid | src/radar/registry.py:80-287 | Identities and aliases never overlap, aliases lead to identities, and nodes to registered ones, after every operation. |
| Registry.IdentityRegistry.RegisterIdentity | src/radar/registry.py:80-110 | An identity is registered with all its aliases or not at all. |
| Registry.IdentityRegistry.RoutableSubscriberNodeIds | src/radar/registry.py:332-390 | The loops find the nodes, or the error, that the query selects in one snapshot. |
| Routing.RouteExact | src/radar/routing.py:28-53 | A valid envelope reaches exactly the live subscribed nodes of the identities it names, or of all if it names nobody, in audience-then-node order and each once; an audience that resolves to nobody reaches nobody. |
| Routing.Router.RouteEnvelope | src/radar/routing.py:28-53 | The loop over the audience computes that route. |
| Routing.PushLosesOnlyTheWorst | src/radar/routing.py:72-88 | A push keeps order and bound; it loses at most the worst and newest entry, of non-zero priority, for a priority-zero envelope and a full queue, and fails exactly if the queue is full and there is no such entry. |
| Routing.PopTakesTheSoonest | src/radar/routing.py:90-94 | A pop takes the entry that no other precedes by priority and then by arrival, and nothing else. |
| Routing.DedupeWindow.AcceptKey | src/radar/routing.py:126-151 | The answer is that of an unbounded history of acceptances, although the loop prunes the window. |
| Routing.WindowRefinesHistory | src/radar/routing.py:126-164 | Over any calls accept returns false exactly if an acceptance of the key that was not rolled back is at most window_ms old. |
| Routing.RollbackForgets | src/radar/routing.py:153-164 | An acceptance that is rolled back at once leaves no trace: at all later times the window answers as if accept had not been called, at earlier ones as if only its clock had moved. |
| Runtime.AdmitAccounts | src/radar/runtime.py:89-154 | An admission that does not raise is accounted for once, its receipt is of its own message, and a priority-zero message that is no duplicate is dispatched whatever the queue holds. |
| Runtime.DispatchAccounts | src/radar/runtime.py:156-175 | A dispatch takes the soonest message, counts it once and reports on that message; it raises, and changes nothing, only for an invalid time or an empty queue. |
| Runtime.NothingIsLost | src/radar/runtime.py:97-175 | Over any operations the admissions are the routed, dropped, dead-lettered and queued messages, and each queued message is queued still or has one fate. |
| Runtime.RadarRuntime.AdmitMessage | src/radar/runtime.py:89-154 | The object does so with its window, queue, router and counters. |
| Runtime.RadarRuntime.DispatchNextMessage | src/radar/runtime.py:156-175 | The object does so with its queue, router and counters. |
| WorkstationRelay.AckBindsEnvelope | src/radar/workstation_relay.py:117-135 | Equal acknowledgement texts have the same message id, nonce, body digest and status. |
| WorkstationRelay.SubmitAtMostOnce | src/radar/workstation_relay.py:184-361 | Over any runs and crashes submit is called at most once for a message id. |
| WorkstationRelay.RowTellsSubmission | src/radar/workstation_relay_state.py:149-239 | The durable state bounds what was sent; a receipt's transitions are a documented path, and ACK_VERIFIED has the full path, a target, a prewrite and a presubmit snapshot that all match the descriptor for the recipient and are of one window, equal prewrite and presubmit digests, the rendered readback and the exact acknowledgement. |
| WorkstationRelay.ReceiptForGood | src/radar/workstation_relay_state.py:207-239 | A finalized receipt is never replaced. |
| WorkstationRelay.LaterRunReturnsReceipt | src/radar/workstation_relay.py:184-193 | Every later run of the same envelope returns the receipt. |
| WorkstationRelay.RelayStore.ClaimRow | src/radar/workstation_relay_state.py:149-184 | A message id is claimed once; an old row is reported and left alone. |
| WorkstationRelay.WorkstationRelay.RunOnce | src/radar/workstation_relay.py:168-361 | An old row decides alone; otherwise submit is called at most once and the row ends with a receipt that tells what happened. |
| Workflow.EdgeAcceptable | src/radar/workflow.py:165-170 | In a graph without cycles an edge keeps it so exactly if its end does not already lead to its start. |
| Workflow.SomeIncompleteIsReady | src/radar/workflow.py:172-178 | In every graph without cycles, if some assignment is incomplete then some incomplete assignment is ready. |
| Workflow.DependencyGraph.Reachable | src/radar/workflow.py:190-206 | The search with a stack ends, and finds the target exactly if a path leads to it. |
| Workflow.DependencyGraph.AddEdge | src/radar/workflow.py:165-170 | An edge between known assignments is accepted exactly if the graph stays without cycles; a refusal changes nothing. |
| Workflow.DependencyGraph.Ready | src/radar/workflow.py:176-178 | An assignment is ready exactly if all it waits for is complete. |
| Collision.ReplayIsIdempotent | supabase/migrations/20260902231445_radar_live_message_collision_v1.sql:45-198 | A call that returned has a row with its hash under one of its three ids in every later state, and made again it says so and adds nothing. |
| Collision.RowsOnlyGrow | supabase/migrations/20260902231445_radar_live_message_collision_v1.sql:45-198 | No existing row and no conflict event is ever changed. |
| Collision.FailsOnlyWhenAllTaken | supabase/migrations/20260902231445_radar_live_message_collision_v1.sql:52-79 | A well-formed call fails exactly if the plain, the short and the full id are all taken by other contents. |
| Collision.MessageTable.ProjectBusMessage | supabase/migrations/20260902231445_radar_live_message_collision_v1.sql:6-200 | The procedure does so on its table: rows stay, and what it reports as projected is kept. |

## Left out

- Fold: `casefold`, `lower` and `upper` fold ASCII letters only; other characters are their own fold.
- Type checks of arguments, and the text checks of identities, branches and owners in the journal, are not modelled; nor are NULL arguments of `project_bus_message_v1`.
- Git subprocesses, JSON files, OIDC, HTTP, the Supabase handler, Slack rendering, the Firefox driver, clocks and sleeping: their results are parameters or replies.
- SHA-256, uuids and datetime parsing; blob ids that the append compares beside the contents; the receipt fields of an append that repeat the control snapshot.
- The layout of `heapq`: the queue holds its entries in the order in which they pop.
- Locks: each locked section, trigger or transaction is one step. Counters, event tables and message tables only grow.
- Switching a lane to another generation during an append, and a newer topology at its end (`current_lane_after_readback`).
- The interleaving of appends and of projectors is a step system on values; `SafeLaneAppender` and `ProjectLanes` are single programs against it.
- The projector's provider is the journal itself; its remote protocol is not part of this model.
- In `WriterLanes` what the message grammar makes of a file, strictly and under the historical policy, is part of the file's record.
- Timestamps and digests in ledger rows beyond `created_at_ms`, deletion and REPLACE of ledger rows, and direct changes of `transition_events`.
- Conflict and observation rows of the reconcilers are kept by code, message id and reason; their detail documents are not.
- The timeouts and poll interval of the relay: the readback loop ends when a reply says that its deadline has passed.
- Endpoints, node re-registration and the read-only listings of the registry; `peek`, `is_full` and `clear` of the queue.
- The dead-letter store, heartbeat, maintenance, operator, visual identity, reconcile-diff, shadow-comparison and effect-scope code: short branches with nothing to prove across them.
