# The native ownership layer of the DuckDB binding

This project models `lib/ffi`, the C layer through which OCaml owns DuckDB databases, connections,
prepared statements, appenders and cancellable requests, and proves what that layer promises its
callers. The C code is modelled branch by branch; the engine, the OCaml runtime and the allocator are
adversaries whose answers are arbitrary parameters ("scripts") or arbitrary steps.

There are six parts.

1. **Interrupt delivery.** `native.dfy` holds the critical sections on the fields under the native
   guard, `stubs.dfy` every stub as a tree of guarded sections, admissions and engine calls,
   `delivery.dfy` the concurrent system: any number of connections, each with a worker that runs stubs
   one microstep at a time with the runtime released, and one controller whose runtime-held operations
   interleave with them. `trace.dfy` says what an event history means; `delivery_invariant.dfy`,
   `delivery_theorems.dfy` and `delivery_progress.dfy` prove safety over all runs and that draining
   always ends in a detached request. `connection.dfy` has the same operations as classes updated in
   place, proved equal to the critical sections of `native.dfy`, and the two execution stubs, proved to
   run along paths of their programs in `stubs.dfy`.
2. **Ownership.** `ownership.dfy`, `ownership_invariant.dfy`: databases, connections, children and
   requests with reference counts, explicit closes and finalizers in any order, and the `live` counter with
   what raising column selections leak from it.
3. **Schema epoch.** `epoch.dfy`: reads, DDL executions and settlements of any number of connections.
4. **Appender.** `staging.dfy` is one batch as a flat list of rows; `appender_spec.dfy` an appender as
   a state with a sticky status; `appender_runs.dfy` what holds over its histories; `pool.dfy` and
   `appender.dfy` the class with the pool of fixed-size chunks, proved to refine the flat list.
5. **Vector cache and views.** `bytes.dfy` (element encodings), `words.dfy` and `scans.dfy` (mask words
   and the word-at-a-time scans), `vectors.dfy` (bulk copies), `prepared.dfy` (the prepared owner, its
   cache, and cached against direct reads).
6. **Round trip.** `roundtrip.dfy`: what is staged is what a view reads.

`dafny verify dfyconfig.toml` checks everything.

## Environment

The C layer relies on its OCaml caller. These are the assumptions, each an enabling condition or a
precondition in the model.

- One worker at a time per connection; its stubs run one after the other.
- Operations with the runtime held are serialized by the runtime lock, so one is in progress at a time;
  a worker with the runtime released interleaves with its parts. One controller per request, and only it
  retires a reservation.
- A request is finalized only after its reservation is retired and with no worker on its owner. The first
  half is not checked by the code and is needed: see below.
- No stub starts on a closing connection, and no request is installed while a close of the same connection
  waits for its own first section.
- Held-runtime finish calls and finalizers run only on an owner with no worker, no guard user and (for
  a connection) no installed request.
- `open`, `connect`, `prepare` and `create_appender` are called once per owner; `execute_prepared` only
  after an earlier result was closed; `fetch` only with a result; `select_columns` only on an appender
  that was created.
- A database or connection is closed explicitly only after its children are finished and its request is
  detached. Without explicit closes any finish and finalizer order is allowed.
- Names given to `select_columns` are columns of the catalog; their indices may be others' positions.
- Atomics are sequentially consistent steps.
- The engine: a call that fails moves no row; a flush writes the whole buffer; an append or an added
  column may write some of it; destroying an appender may write what is still buffered; a fetched chunk
  has the result's column types, data for each row and a mask word for every 64 rows; a settlement may fail
  and leave the transaction open, and a `BEGIN` may be issued, and accepted or rejected, anywhere.

## Where the code and its documentation differ

- `lib/ffi/duckdb_ffi.mli:127-128` says that equal epoch reads bracket a window with no visible schema
  change. The code advances the epoch before a DDL execution and again after it, and after a settlement,
  so a read inside such a window and a later one before the closing advance are equal although a change
  became visible between them. `Epoch.CalmReadsAreExact` and `Epoch.RestlessReadsCanBreak` give the exact
  condition: no DDL is executing and no open transaction has run any at the first read.
- `lib/ffi/resource_stubs.c:497-500` marks a connection whose transaction ran DDL and advances the epoch when
  it settles. A `BEGIN` inside that transaction, rejected or not, and a COMMIT or ROLLBACK that leaves it open
  clear the mark, and the settlement that follows publishes with no advance. `Epoch.MarkIsExact` says that a
  settlement can lose its advance exactly when it starts unmarked, `Epoch.WhatLosesTheMark` which steps take
  the mark away, and two lemmas build the losing runs.
- `lib/ffi/appender_stubs.c:82-83` says that no destructor may silently flush discarded rows. That holds for
  every destructor exactly when `duckdb_appender_clear` succeeds or nothing is left to clear:
  `AppenderRuns.CloseDiscards` for one close, `DestructorsAreHarmless` and `DestructorsCanHarm` over histories.
- `lib/ffi/appender_stubs.c:451-453` says that the column types are remapped to the active order. They
  agree with the engine's exactly while at most one selection has gone through, and only if that one names a
  column and its names match its indices (or the table has no columns): `AppenderRuns.InStepExactly`.
- If copying a column name runs out of memory in `select_columns`, the arrays and copies made so far stay
  counted in `live` and are lost: `Appender.AppenderOwner.SelectColumns`. So `live` returns to 0 with the last
  owner exactly when no selection raised: `OwnershipInvariant.LiveIsConserved`.
- `lib/ffi/resource_stubs.c:283-285` says that a dead owner tree needs no wait in a request's finalizer. A
  reservation left unretired makes that finalizer fatal on a quiescent owner:
  `DeliveryTheorems.FinalizerFatalIff` and `DeliveryProgress.ReservedFinalizerDies`.
- The direct integer reader loads eight bytes from a FLOAT column whose elements have four, and so leaves the
  vector in the second half of its rows: `Prepared.PreparedOwner.FloatReadsAgreeIff` and
  `FloatReadsLeaveTheVector`. Cached reads, and the direct float reader, have no such case.

## Model

| member | source | states |
|---|---|---|
| DeliveryTheorems.InterruptReachesOnlyItsOwnWork | lib/ffi/resource_stubs.c:616-654 | in every run, each engine interrupt comes while its request is the installed one, latched and reserved, inside a still open interruptible admission of that same request; if the engine is busy, it is busy with a user subcall |
| DeliveryTheorems.OtherCallsAreNeverInterrupted | lib/ffi/resource_stubs.c:130-179 | while a rollback, bind, destructor, disconnect or other call outside a user window occupies the engine, no request interrupts that connection |
| DeliveryTheorems.PhaseIsTruthful | lib/ffi/resource_stubs.c:104-159 | the phase is USER exactly in an open user window, only with foreign work, depth 0, not closing and that request installed; otherwise it is the derived phase |
| DeliveryTheorems.NeverFatal | lib/ffi/resource_stubs.c:96-292 | no interleaving of any stubs, operations, fallbacks and finalizers reaches any of the nine fatal errors, and no interrupt hits an unopened connection |
| DeliveryTheorems.FinalizerFatalIff | lib/ffi/resource_stubs.c:280-292 | in any reachable state a request's finalizer, run without the environment's assumption, is fatal exactly when the request is installed and its owner's guard is taken, its work pending or its reservation not retired |
| DeliveryProgress.ReservedFinalizerDies | lib/ffi/resource_stubs.c:253-292 | from every state with a reserved installed request, settling without retiring leads to a quiescent owner whose request finalizer is fatal |
| DeliveryTheorems.LatchStopsAdmission | lib/ffi/resource_stubs.c:130-148 | after the latch no admission succeeds for the request, and at most one admitted subcall is still made for it |
| DeliveryTheorems.RetirementEndsDelivery | lib/ffi/resource_stubs.c:625-672 | in every run an interrupt that follows a retirement of the same request comes after a new reservation |
| DeliveryTheorems.CommitAfterLatchWasAdmittedBefore | lib/ffi/resource_stubs.c:490-505 | a COMMIT issued for a cancelled request was admitted before the latch |
| DeliveryTheorems.RollbackAlwaysExecutes | lib/ffi/resource_stubs.c:490-505 | every finished rollback stub has issued ROLLBACK, whatever the latch says |
| DeliveryTheorems.RequestLifecycle | lib/ffi/resource_stubs.c:280-292 | a request moves FRESH, INSTALLED, DETACHED one step at a time, disposal never takes an installed one, only its finalizer does, a latch is never withdrawn |
| DeliveryTheorems.IdentityHolds | lib/ffi/resource_stubs.c:253-278 | the owner's active pointer names a request exactly when that request is INSTALLED on that owner |
| DeliveryTheorems.UninstalledIsHarmless | lib/ffi/resource_stubs.c:253-278 | after a successful uninstall the request is never installed again and never interrupts |
| DeliveryInvariant.EveryStepKeeps | lib/ffi/resource_stubs.c:81-189 | the inductive invariant of guard, phase, requests, program position and history is kept by every step |
| DeliveryInvariant.HeldPathsBalance | lib/ffi/resource_stubs.c:205-227 | the runtime-held fallbacks pass every check on a quiescent owner and leave it idle, or closing |
| DeliveryProgress.DrainingDecreases | lib/ffi/resource_stubs.c:96-129 | every draining step (finishing the stub, the operation in progress, retiring the reservation) strictly decreases the work left |
| DeliveryProgress.SomethingCanDrain | lib/ffi/resource_stubs.c:96-129 | until all is drained some draining step is enabled: guard, reservation and uninstall cannot deadlock |
| DeliveryProgress.DrainedUninstalls | lib/ffi/resource_stubs.c:253-278 | from a drained state uninstall answers UNINSTALLED and detaches |
| DeliveryProgress.UninstallIsAlwaysReachable | lib/ffi/resource_stubs.c:625-672 | from every state of the invariant with an installed request, draining and uninstalling detach it |
| Stubs.StubsBalanced | lib/ffi/resource_stubs.c:416-527 | every stub, on every path and for any number of chunks or columns, passes each bracket's check, calls the engine only under its licence and hands back an idle owner |
| Stubs.BindInt64Keeps | lib/ffi/typed_stubs.c:36-68 | the nested cleanup of temporal binding balances on every path |
| Stubs.CreateAppenderKeeps | lib/ffi/appender_stubs.c:137-228 | appender creation balances through all its admissions and every early exit |
| Stubs.CloseAppenderKeeps | lib/ffi/appender_stubs.c:84-104 | the flushing and the discarding close balance, failures of clear included |
| Stubs.PlainFollows | lib/ffi/resource_stubs.c:416-479 | every plain execution, however far its subcalls get and whatever it has to destroy, is a path of the execution stub |
| Stubs.LegacyFollows | lib/ffi/resource_stubs.c:416-430 | so is the legacy control execution, which asks no latch |
| Stubs.ControlFollows | lib/ffi/resource_stubs.c:482-512 | so is BEGIN, COMMIT or ROLLBACK, issued or, of the first two, refused |
| Trace.WindowMeaning | lib/ffi/resource_stubs.c:130-159 | an open window means: an interruptible admission with no later admission decision and no published end |
| Trace.NoAdmissionAfterLatch | lib/ffi/resource_stubs.c:576-580 | in a safe history no admission follows the request's latch |
| Trace.AtMostOneSubcallAfterLatch | lib/ffi/resource_stubs.c:130-148 | two admitted subcalls after the latch are never both for the latched request |
| Connection.ConnectionOwner.NativeLock | lib/ffi/resource_stubs.c:96-103 | with the runtime released the guard is taken however many yields its holder needs; with the runtime held one failed attempt is the fatal case and leaves the holder's guard |
| Connection.ConnectionOwner.WorkBegin | lib/ffi/resource_stubs.c:110-119 | the WorkBegin section, or the fatal check with nothing changed |
| Connection.ConnectionOwner.WorkEnd | lib/ffi/resource_stubs.c:120-129 | the WorkEnd section, or the fatal check with nothing changed |
| Connection.ConnectionOwner.CallBegin | lib/ffi/resource_stubs.c:130-148 | admission exactly by the latch of the active request; the phase becomes USER only for an admitted interruptible call with a request |
| Connection.ConnectionOwner.CallEnd | lib/ffi/resource_stubs.c:155-159 | the phase is derived again |
| Connection.ConnectionOwner.CleanupBegin | lib/ffi/resource_stubs.c:160-169 | one level deeper; with the runtime held a contended guard and overlap with foreign work are fatal and change nothing |
| Connection.ConnectionOwner.CleanupEnd | lib/ffi/resource_stubs.c:170-179 | one level up; fatal without a matching entry, or on a contended guard with the runtime held, with nothing changed |
| Connection.ConnectionOwner.CloseBegin | lib/ffi/resource_stubs.c:180-189 | closing is permanent and needs completed work and a detached request; otherwise, or on a contended guard with the runtime held, fatal with nothing changed |
| Connection.ConnectionOwner.Install | lib/ffi/resource_stubs.c:594-614 | a fresh request on a live shell: the five answers in the code's order; only REQUEST_INSTALLED changes anything, and it takes one reference |
| Connection.ConnectionOwner.InstallOn | lib/ffi/resource_stubs.c:594-614 | the six answers on whatever the slot holds: a used request first, then an empty slot, then contention and the owner's state |
| Connection.ConnectionOwner.Uninstall | lib/ffi/resource_stubs.c:253-278 | the five answers in the code's order on any request; only a true uninstall changes anything, gives its reference back and tells whether it was the last |
| Connection.ConnectionOwner.ReserveDelivery | lib/ffi/resource_stubs.c:625-639 | a reservation is granted exactly to an eligible unreserved request |
| Connection.ConnectionOwner.TryInterrupt | lib/ffi/resource_stubs.c:641-654 | the engine is interrupted exactly when eligibility holds again under the guard |
| Connection.ConnectionOwner.ClearWork | lib/ffi/resource_stubs.c:205-215 | leftovers of an execution are released, one count each; depth and phase are restored |
| Connection.ConnectionOwner.Clear | lib/ffi/resource_stubs.c:216-223 | nothing stays held, the owner is closing for good; counts match |
| Connection.ConnectionOwner.Connect | lib/ffi/resource_stubs.c:372-386 | the handle is published and counted exactly when the engine returned one |
| Connection.ConnectionOwner.Execute | lib/ffi/resource_stubs.c:416-479 | each of the three subcalls is made exactly when all before it went well and its latch load passes, the legacy flag makes one query instead; the status tells which way it ended; owner idle, nothing held, two advances exactly for an executed DDL; the sections, admissions and calls it made are a path of the stub's program |
| Connection.ConnectionOwner.ExecuteControl | lib/ffi/resource_stubs.c:482-512 | BEGIN and COMMIT issued exactly when the latch passes, ROLLBACK always; settlement advances exactly when dirty; owner idle, nothing held; what it did is a path of the stub's program |
| OwnershipInvariant.ReferencesAreHolders | lib/ffi/resource_stubs.c:200-227 | in every history of closes, finishes, finalizers, uninstalls and raising selections, a count is the number of live holders, positive while the shell lives, and nothing freed is touched |
| OwnershipInvariant.FreedExactlyOnce | lib/ffi/resource_stubs.c:200-233 | every shell is in the graph or was freed, exactly once |
| OwnershipInvariant.DestroyOrder | lib/ffi/resource_stubs.c:193-227 | the engine destroys children before their connection and connections before their database |
| OwnershipInvariant.LiveIsConserved | lib/ffi/resource_stubs.c:78-80 | live is the number of shells plus what they hold plus what raising selections leaked; nothing leaked exactly when no selection raised; live is 0 exactly when no owner is left and nothing leaked |
| OwnershipInvariant.AllFinishedMeansEmpty | lib/ffi/resource_stubs.c:228-233 | when every slot has been cleared, in any order, no shell keeps another alive, and live is what was leaked |
| OwnershipInvariant.FinalizerBadIff | lib/ffi/resource_stubs.c:280-292 | in any reachable graph finalizing a request goes wrong exactly when it is installed and its uninstall is refused |
| OwnershipInvariant.EveryStepKeeps | lib/ffi/resource_stubs.c:280-321 | creation, closes, finishes, installs, uninstalls and disposals keep the ownership invariant |
| Epoch.EqualReadsPrecedeTheAdvance | lib/ffi/resource_stubs.c:387-402 | if a change becomes visible between equal reads, no advance lies between them |
| Epoch.VisibleChangeAlwaysAdvances | lib/ffi/resource_stubs.c:457-459 | whenever every settlement so far started marked, a connection with a visible unclosed change cannot rest or go on before its advance, which is enabled, whether its transaction ends or not |
| Epoch.MarkIsExact | lib/ffi/resource_stubs.c:495-500 | a settlement can publish and come to rest with its advance owed exactly when it starts unmarked |
| Epoch.WhatLosesTheMark | lib/ffi/resource_stubs.c:499-500 | the mark is lost exactly by a BEGIN in the transaction that ran DDL, or by a settlement that leaves it open |
| Epoch.UnmarkedSettlementLosesTheAdvance | lib/ffi/resource_stubs.c:495-500 | from any unmarked state, equal reads around a whole settlement that published a change |
| Epoch.OldValueIsNeverReadAgain | lib/ffi/query_native.h:41-47 | a value read before a change is never read again after the advance that closes it |
| Epoch.FirstReadFollowsEnter | lib/ffi/resource_stubs.c:395-401 | for an execution's own visibility between equal reads, the first read follows that execution's enter |
| Epoch.NoDdlNoAdvance | lib/ffi/resource_stubs.c:495-500 | runs without DDL never advance the epoch |
| Epoch.CalmReadsAreExact | lib/ffi/duckdb_ffi.mli:127-129 | from a first read with no DDL executing and none in an open transaction, equal reads mean no visible change |
| Epoch.RestlessReadsCanBreak | lib/ffi/duckdb_ffi.mli:127-129 | from any other first read some continuation has equal reads around a visible change |
| Epoch.NestedBeginLosesTheAdvance | lib/ffi/resource_stubs.c:495-500 | a BEGIN inside a transaction that ran DDL, accepted or rejected, lets it settle with no advance |
| Epoch.FailedCommitLosesTheAdvance | lib/ffi/resource_stubs.c:495-500 | a settlement that fails and leaves the transaction open spends the advance; the next one publishes with none |
| Staging.FailsIffSomeCallDoes | lib/ffi/appender_stubs.c:302-333 | a batch fails exactly when one of its staging calls does, and then nothing stays staged |
| Staging.LastWriteWins | lib/ffi/appender_stubs.c:275-333 | each cell of a batch holds its last staged value and is NULL exactly when nulled in this batch |
| Staging.ColumnarIsCellByCell | lib/ffi/appender_stubs.c:365-399 | blit then mask leaves the same batch as int64 and null staging row by row, for integer, boolean and temporal columns |
| Staging.MismatchFailsTheBatch | lib/ffi/appender_stubs.c:350-376 | any range or kind mismatch fails the whole batch, whatever came before and after |
| Staging.PutColumnAt | lib/ffi/appender_stubs.c:377-381 | a blit changes exactly rows 0..n of its column, booleans normalized |
| Staging.MarkColumnAt | lib/ffi/appender_stubs.c:391-397 | a mask nulls exactly the rows whose byte is 0 |
| AppenderSpec.CeilIsDivision | lib/ffi/appender_stubs.c:237-237 | the rounded-up division is the number of chunks of n rows |
| AppenderRuns.ChunkShape | lib/ffi/appender_stubs.c:411-413 | the k-th chunk offered is rows k*size on, full unless it is the last, never empty |
| AppenderRuns.ChunksConcatenate | lib/ffi/appender_stubs.c:411-420 | the first k chunks concatenate to the rows they cover, all of them to rows 0..n-1 |
| AppenderRuns.AppendIsExact | lib/ffi/appender_stubs.c:406-433 | exactly the chunks before the first one not admitted or failed are accepted; the status is OK exactly when all were; at most 16 chunks are kept |
| AppenderRuns.FailedBatch | lib/ffi/appender_stubs.c:402-410 | a failed batch appends nothing and becomes the status only in append_staged; a cleared stage drops it |
| AppenderRuns.BatchReachesTheEngine | lib/ffi/appender_stubs.c:233-433 | for every answer of latch and engine, from stage_begin to append_staged a prefix of whole chunks reaches the engine, all n rows exactly when the status stays OK, each cell with its last staged value and exactly this batch's NULLs; nothing does if a staging call failed |
| AppenderRuns.StagingIsPrivate | lib/ffi/appender_stubs.c:275-402 | staging calls change no status, make no engine call and move no row |
| AppenderRuns.PoisonIsForever | lib/ffi/appender_stubs.c:35-55 | once not OK the status never changes and no append, flush or column call is issued, in any continuation |
| AppenderRuns.StepKeeps | lib/ffi/appender_stubs.c:233-490 | every operation keeps rows within capacity times size, and table, buffer and discarded rows in balance with the accepted ones; no row leaves the table |
| AppenderRuns.TableIsAPrefix | lib/ffi/appender_stubs.c:82-104 | over any history the table only grows, holds a prefix of the accepted rows, and an open appender has lost none |
| AppenderRuns.NoCallNoRow | lib/ffi/appender_stubs.c:82-104 | over any history whose closes clear or have nothing to clear, rows reach the table only with an issued engine call, and never after the status left OK |
| AppenderRuns.CloseDiscards | lib/ffi/appender_stubs.c:84-104 | a close, flushing or not and whatever its flush answers, adds no row to the table beyond those its own flush wrote, for every destructor, exactly when the clear succeeded or nothing was left to clear; every accepted row ends in the table or discarded |
| AppenderRuns.DestructorsAreHarmless | lib/ffi/appender_stubs.c:82-104 | a history whose closes clear or have nothing to clear writes the same table whatever its destructors do |
| AppenderRuns.DestructorsCanHarm | lib/ffi/appender_stubs.c:82-104 | in any other history another destructor gives another table, so the condition is exact |
| AppenderRuns.SelectionInStep | lib/ffi/appender_stubs.c:451-489 | after a successful selection the owner's types are the engine's active ones exactly for a first selection that names a column |
| AppenderRuns.InStepExactly | lib/ffi/appender_stubs.c:233-489 | over every history from creation, an appender that ends open and OK has the engine's active types exactly when no selection went through, or one that names a column and whose names match its indices, or the table has no columns |
| Pool.GridPut | lib/ffi/appender_stubs.c:268-274 | a store at chunk r / size, offset r % size changes that cell of the flat list and no other |
| Pool.GridFill | lib/ffi/appender_stubs.c:377-380 | the bulk copy into the first chunk is the column write on the flat list |
| Pool.ChunkIsOffered | lib/ffi/appender_stubs.c:411-417 | the k-th pooled chunk with its length set is the k-th chunk of the flat list |
| Appender.AppenderOwner.Create | lib/ffi/appender_stubs.c:137-228 | gate by gate, the status tells which query, admission, allocation or column read stopped it; an appender is held exactly when its gate was passed; if OK the types are the engine's; counts match on every outcome, raised Out_of_memory included |
| Appender.AppenderOwner.StageBegin | lib/ffi/appender_stubs.c:233-267 | the Begin operation with growth and allocation failures, the pool made of the types the engine gives when asked; new rows are never NULL and strings never stale |
| Appender.AppenderOwner.StageInt | lib/ffi/appender_stubs.c:275-289 | the flat integer store, ignored out of range or on another column kind |
| Appender.AppenderOwner.StageDouble | lib/ffi/appender_stubs.c:291-300 | the flat float store, ignored out of range or on another column kind |
| Appender.AppenderOwner.StageText | lib/ffi/appender_stubs.c:302-326 | the flat string store; invalid UTF-8 in VARCHAR fails the batch |
| Appender.AppenderOwner.StageNullRow | lib/ffi/appender_stubs.c:327-333 | the flat NULL mark |
| Appender.AppenderOwner.StageColumn | lib/ffi/appender_stubs.c:365-382 | the flat column write, or the failed batch |
| Appender.AppenderOwner.StageNulls | lib/ffi/appender_stubs.c:383-399 | the flat column mask, or the failed batch |
| Appender.AppenderOwner.ClearStage | lib/ffi/appender_stubs.c:67-69 | rows and staging failure are dropped, nothing else |
| Appender.AppenderOwner.AppendStaged | lib/ffi/appender_stubs.c:406-433 | the append of the flat rows' chunks, and the pool cut back to 16 with matching counts |
| Appender.AppenderOwner.Shrink | lib/ffi/appender_stubs.c:422-430 | at most 16 chunks are kept and every dropped one released once |
| Appender.AppenderOwner.Release | lib/ffi/appender_stubs.c:70-81 | pool, array and types are gone, each released once |
| Appender.AppenderOwner.Offer | lib/ffi/appender_stubs.c:416-420 | the admission loop makes exactly the flat batch's append calls until one stops it |
| Appender.AppenderOwner.FlushAppender | lib/ffi/appender_stubs.c:434-445 | one admitted flush |
| Appender.AppenderOwner.CloseNative | lib/ffi/appender_stubs.c:84-104 | optional flush, then clear, then destroy, then the pool released; counts match |
| Appender.AppenderOwner.Delete | lib/ffi/appender_stubs.c:105-114 | nothing is left held and everything held was released once |
| Appender.AppenderOwner.SelectColumns | lib/ffi/appender_stubs.c:454-489 | the selection; a raised Out_of_memory leaves the owner unchanged and leaks exactly three counts plus the copies made, nothing else leaks |
| RoundTrip.StagedThenViewed | lib/ffi/view_stubs.c:30-36 | the default-0 view of a staged integer is its cast to the column width, itself exactly when in range, 0 when nulled; a boolean column tells nonzero |
| Bytes.StoreThenLoad | lib/ffi/appender_stubs.c:278-287 | store then load is the C cast, the identity exactly on the values the width holds |
| Bytes.EncodeSigned | lib/ffi/appender_stubs.c:377-380 | load then store restores the bytes |
| Scans.NullCount | lib/ffi/view_stubs.c:87-97 | the word scan returns the number of NULL rows below min(length, rows), reading only words of those rows |
| Scans.FirstNull | lib/ffi/view_stubs.c:99-111 | the word scan returns the least NULL row below min(length, rows), or -1 when there is none |
| Scans.WordContributes | lib/ffi/view_stubs.c:91-95 | popcount of the masked complement is the word's NULL rows |
| Scans.NullsBelowCounts | lib/ffi/view_stubs.c:85-86 | the row-by-row count is the size of the set of NULL rows |
| Words.MissingBit | lib/ffi/view_stubs.c:104-107 | a bit of the masked complement is a row below the count that is not valid |
| Vectors.CopyRows | lib/ffi/view_stubs.c:126-129 | bulk copy then zeroing gives each slot the row's element or zeros, and touches no other byte |
| Vectors.CopyValidity | lib/ffi/view_stubs.c:138-139 | one byte per row, 1 valid and 0 NULL, and no other byte |
| Prepared.PreparedOwner.Prepare | lib/ffi/prepared_stubs.c:56-89 | the status tells the engine's and the latch's answers exactly; only a statement stays held |
| Prepared.PreparedOwner.ExecutePrepared | lib/ffi/prepared_stubs.c:90-106 | a result is held exactly when admitted; an executed DDL advances the epoch twice and marks the connection, a refused one does neither |
| Prepared.PreparedOwner.CacheVectors | lib/ffi/prepared_stubs.c:110-127 | the cache is allocated once per result and afterwards points at the current chunk, with its row count |
| Prepared.PreparedOwner.Fetch | lib/ffi/prepared_stubs.c:128-147 | the old chunk dies before the new one; 1, 0 and -1 by chunk and status; counts match |
| Prepared.PreparedOwner.ClearResult | lib/ffi/prepared_stubs.c:18-26 | chunk, cache and result are gone, each released once |
| Prepared.PreparedOwner.ClearPrepared | lib/ffi/prepared_stubs.c:27-35 | nothing is held and everything held was released once |
| Prepared.PreparedOwner.Readable | lib/ffi/view_stubs.c:24-27 | an entry is found exactly for an in-range row of the current cached chunk at its width, and its pointer is live |
| Prepared.PreparedOwner.Read | lib/ffi/view_stubs.c:30-34 | a cached read is the direct load of the same bytes, in bounds, or refused |
| Prepared.PreparedOwner.CachedReadIsDirectRead | lib/ffi/typed_stubs.c:104-130 | on every cached row the cached value is the direct one: integers, booleans and temporal values by the integer reader, FLOAT and DOUBLE by the float reader |
| Prepared.PreparedOwner.FloatReadsAgreeIff | lib/ffi/typed_stubs.c:109-119 | on a FLOAT column, where the eight bytes are in the vector, the integer reader agrees with the cached one exactly when they are the element's four, sign-extended |
| Prepared.PreparedOwner.FloatReadsLeaveTheVector | lib/ffi/typed_stubs.c:109-119 | in a vector with just the rows' bytes the eight-byte load leaves it exactly in the second half of the rows |
| Prepared.FloatReadsCanDiffer | lib/ffi/typed_stubs.c:117-117 | bytes for which the condition of FloatReadsAgreeIff fails |
| Prepared.PreparedOwner.OtherReadsRefused | lib/ffi/view_stubs.c:14-18 | without a chunk, off it, uncached or at another width, reads give 0 or the default |
| Prepared.PreparedOwner.ViewIntOr | lib/ffi/view_stubs.c:35-36 | the cached value of a valid readable row, else the default |
| Prepared.PreparedOwner.ViewValid | lib/ffi/view_stubs.c:54-57 | agrees with the direct validity on the cached chunk and is false off it |
| Prepared.PreparedOwner.ViewNullCount | lib/ffi/view_stubs.c:85-97 | counts exactly the rows view_valid calls NULL, below the length and the cached rows |
| Prepared.PreparedOwner.ViewFirstNull | lib/ffi/view_stubs.c:98-111 | the least such row, or -1 |
| Prepared.PreparedOwner.ViewBlit | lib/ffi/view_stubs.c:112-131 | accepted exactly under the code's conditions, for an array of any rank bounded by its first dimension; then each slot is the default-0 read and no other byte changes; refused, nothing changes |
| Prepared.PreparedOwner.DefaultZeroIsTheRead | lib/ffi/view_stubs.c:116-119 | the blitted element and the default-0 cached read are the same value |
| Prepared.PreparedOwner.ViewBlitValidity | lib/ffi/view_stubs.c:132-141 | agrees with view_valid row by row and changes nothing else |

## Left out

- The engine beyond its answers, the OCaml runtime beyond held or released, signal delivery, boxing and
  bytecode variants, error-message texts, `ml_duckdb_open`'s configuration and version check.
- C weak-memory effects: the atomics are sequentially consistent steps.
- Floating-point bit patterns: floats are opaque bytes, in staging and in views.
- The unguarded `ml_duckdb_interrupt` (`lib/ffi/resource_stubs.c:560`), which delivers without a request.
- `lib/ffi/local_file_stubs.c` beyond the admission, its engine-free call and its connection reference.
- Reading strings out of chunks, parameter and column introspection, and bound values; binding is modelled
  as its brackets and admissions.
- The OCaml layers above `lib/ffi`.
- Ownership: on values, not on objects, because freeing a shell and touching a freed one must be
  observable; aliasing of slots is the `slot` flag.
- Prepared and appender brackets: the classes `PreparedOwner` and `AppenderOwner` model the data, the epoch
  and the counts; their work, admission and cleanup brackets are the programs in `Stubs`. Only the two
  execution stubs of `ConnectionOwner` are proved to follow their programs.
- Connection.ConnectionOwner.NativeLock: does not say what the other holder changes under the guard, which is
  the subject of `Delivery`.
- Connection.ConnectionOwner.Execute: the legacy control branch tells the epoch nothing, as in the code, and
  has no step in `Epoch`.
- Appender.AppenderOwner.StageBegin: asks for an appender in step with the engine when it is open and OK,
  because the bytes of a store at one width into a vector of another are not modelled; which histories keep
  it in step is `AppenderRuns.InStepExactly`.
- Words: mask words are naturals below 2 to the 64 with complement, and, shift, popcount and ctz by place
  value, not bit-vectors.
- A connection disconnected with an open transaction: the epoch model has no disconnect.
