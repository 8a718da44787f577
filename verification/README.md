# Verified models of the RetroAchievements core

This project models six cores of the XM8 emulator's RetroAchievements support and proves properties of them.
Each core is a small set of modules; the functions say what a step means, the classes are the program's objects
with their loops and updates in place, proved against those functions, and the lemmas are about all runs.

| modules | what they model |
|---|---|
| MediaTable, MediaRuns | the generated transition table of the disk change protocol, its reduction, and every walk through it |
| MediaRunner, MediaRunnerProofs, MediaRunnerTokens, MediaRunnerLiveness | the re-entrant runner: tokens, queue, cancellation and rebinding while a handler is on the stack |
| MediaOwner, MediaOwnerProofs, MediaOwnerGood, MediaOwnerEnds, MediaOwnerResets, MediaOwnerExact, MediaOwnerEjected, MediaApp | the application's effect handlers over two drives, the RA service's game, verification and media change, and the session |
| UnlockStore, Outbox, OutboxProofs, OutboxConfirmed, OutboxReuse, OutboxGate, OutboxDrains, OutboxAnswers, OutboxService | the durable unlock outbox: award and leaderboard submissions, synchronization, cancellation, the HTTP bridge and the table of pending unlocks |
| LibraryTables, LibraryMerge, LibrarySplit, LibraryResolve, LibraryConflicts, LibraryChosen, LibrarySync, LibraryIdentified, LibraryStore | the library's conflict resolution and synchronization as row-by-row transactions under the schema's constraints |
| Crc32, StateStore, StateStoreProofs | the RA state container, its two checksums and its footer |
| NoticeQueue | the priority notice queue on a wrapping 32-bit clock |
| AudioRing | the audio ring buffer |
| TextSanitizer | the UTF-8 sanitizer |
| Extremes | lowest and highest members of sets of numbers |

Network, VM, store and library calls are choices of the environment: a response may name any request id and say
anything, any number of times and in any order; opening a disk may fail and leave the drive in any condition;
every handler may call back into the runner in any way. Such choices appear as parameters named luck or script.
While a media operation waits, the service may answer, connectivity may change, and Drive 2 may be ejected where the
program allows it. MediaOwner hands each posted result straight to the table; that the runner takes only the
outstanding result of the awaited event, and at most one, is what MediaRunnerProofs shows.
SQLite is maps with constraints: a statement that would break a constraint fails and the transaction is undone.

## Hypotheses

- An unlock's row id is not assigned to another unlock while a request, or a captured row that the synchronization under
  way is still to send, holds it (`SafeRun`). The table has no AUTOINCREMENT, so the program does not guarantee this by
  itself. `EnqueueLosesExactly` says for each enqueue whether it can lose an unlock, and `FirstSubmissionsLoseNothing`
  that none can while every submission is of an unlock not stored already.
- For the load gate only: removing a confirmed row succeeds (`StoreWorks`). `GateOpensOverStoredExactly` says when one
  failure opens the gate over a stored row.
- rcheevos does not submit anything new from inside a callback that a cancellation loop invokes, reports each login
  once, and the bridge has its HTTP client.
- The device's audio buffer length and the length it asks for are positive multiples of 4 bytes.
- Gaps between notice clock readings and notice durations are below 2^31 ms (`WrappedDifferenceExact` says exactly
  when one computed difference is right).
- Counters of 64 bits do not wrap.
- A media operation starts as its callers start it (`MayStart`): no request of the service pending, and the session
  either active, whatever Drive 1 holds, or starting for the disk the request puts in Drive 1.

## Findings

- Drive 1 may be ejected while the session is active and nothing is pending (Source/UI/app.cpp:1279-1299), and a disk
  may then be opened in Drive 2 (Source/UI/app.cpp:1022-1027). That operation succeeds with the session active and
  Drive 1 empty, so a completed operation does not imply that Drive 1 holds the session's disk. `DriveAgreesExactly`
  says when it does, `EjectedDriveStaysOut` that this start always has such a run, and `EjectedStartEnds` gives one.
- A pending unlock is deleted by row id (Source/RA/ra_service.cpp:1956-1962, 643-710), and ids are given again once the
  highest row is gone (Source/RA/ra_library.cpp:444). A request that outlives its row can therefore delete a later
  unlock under the same id. `EnqueueLosesExactly` says when, and `ReusedIdLosesAnUnlock` gives a run. Every such run
  submits some unlock while it is still stored, in the one given while its first request is still under way
  (`FirstSubmissionsLoseNothing`); whether rcheevos ever does so is not part of this model.
- A MERGE moves the games that conflict over an RA id into the lowest of them (Source/RA/ra_library.cpp:1264-1371), which
  need not be the game the user chose. `ChosenIsMergedExactly` says when the chosen game is merged at all, and
  `ResolvingThirdMergesOthers` is an input where it is not.
- A confirmed award whose row cannot be removed leaves the synchronization state at succeeded
  (Source/RA/ra_service.cpp:1956-1962), so the load gate opens over a stored unlock, unless the integrity failure recorded
  at the same time ends the session first: `GateOpensOverStoredExactly`.
- The callbacks of an award and of a synchronization request judge two kinds of answers differently
  (Source/RA/ra_service.cpp:1953-1974 and 679-692): a readable success that does not confirm, under a status to retry, is
  held by synchronization only; a readable refusal without a message, under a status not to retry, by the award only.
  `KindsDifferExactly` shows that there is no other difference.
- The renumbering of a SPLIT lists media through their banks (Source/RA/ra_library.cpp:1381-1386), so a medium without
  banks keeps its ordinal and can be in the way: `DistributeExactly` and `ResolveSplitExactly` say when. Media are
  registered together with their banks.

## Model

| member | source | states |
|---|---|---|
| MediaTable.Reduce | Source/RA/ra_media_operation.h:18-40 | the scan of one table row decides as the table means it: a foreign value or an event that is not normal leaves the state, a normal one takes the only transition that lists the value |
| MediaTable.ListedIsChosen | Source/RA/ra_media_operation_table.generated.h:31-77 | within a row no two transitions list the same value, so the first match is the only one |
| MediaTable.EveryResultIsDecided | Source/RA/ra_media_operation_table.generated.h:31-97 | a state decides a value exactly when its own event may carry it: the scan never runs off a row |
| MediaRuns.RowShape | Source/RA/ra_media_operation_table.generated.h:31-134 | in every row only the last effect has a result, it is the event the next state waits for, and a row that goes to Idle ends with one finishing effect |
| MediaRuns.WalkIsBounded | Source/RA/ra_media_operation_table.generated.h:31-77 | from any state every sequence of accepted results is at most as long as the rank of the state, 14 from Prepare |
| MediaRuns.FourteenResultsCanHappen | Source/RA/ra_media_operation_table.generated.h:31-77 | the bound is reached: some request accepts exactly 14 results |
| MediaRuns.EveryRequest | Source/RA/ra_media_operation_table.generated.h:31-77 | over every run of a request: at most 14 results, the VM applied at most once and restored exactly when the apply failed, one finishing effect at the end, success exactly when the apply returned ok, and a rejection never touched the VM |
| MediaRuns.LocalStaysLocal | Source/UI/app.cpp:1411-1490 | a request answered as OpenLocalDiskBatch answers it never touches the session or asks anything of the service |
| MediaRuns.LocalRequest | Source/UI/app.cpp:1411-1490 | the local request that succeeds prepares, applies the VM once and completes |
| MediaRunner.Runner.Start | Source/RA/ra_media_operation_runner.h:29-40 | starting changes the runner as the machine starts: refused while active, inside a handler or without one |
| MediaRunner.Runner.Post | Source/RA/ra_media_operation_runner.h:41-44 | posting queues and, unless a handler is running, drains |
| MediaRunner.Runner.RebindSession | Source/RA/ra_media_operation_runner.h:47-52 | rebinding replaces the outstanding token and nothing else |
| MediaRunner.Runner.Cancel | Source/RA/ra_media_operation_runner.h:55-64 | cancelling empties the queue and leaves Idle, also from inside a handler |
| MediaRunner.Runner.Execute | Source/RA/ra_media_operation_runner.h:70-92 | the effects of a row with the handler calls made inside them, cut short by a cancellation, refine the machine |
| MediaRunner.Runner.Drain | Source/RA/ra_media_operation_runner.h:93-110 | the re-entrant drain loop refines turn after turn of the machine until the queue is empty |
| MediaRunnerProofs.RunnerSettles | Source/RA/ra_media_operation_runner.h:29-110 | under any calls from outside, with any calls made inside handlers, whenever no handler runs the queue is empty and the runner is inactive in Idle or waits for the one event normal in its state |
| MediaRunnerProofs.NewRunnerSettled | Source/RA/ra_media_operation_runner.h:25-28 | a new runner is in such a state of rest |
| MediaRunnerProofs.EndedRequest | Source/RA/ra_media_operation_runner.h:70-110 | what an uncancelled request accepted is a walk of the table to Idle and what it ran are that walk's effects, so the bounds of every request hold for the runner |
| MediaRunnerProofs.IssuedOnce | Source/RA/ra_media_operation_runner.h:70-92 | token numbers only grow, so no result token is issued twice |
| MediaRunnerProofs.StaleTokensAreIgnored | Source/RA/ra_media_operation_runner.h:93-110 | once a later token is issued, an earlier one is neither accepted nor refused again, however its message is queued |
| MediaRunnerProofs.AcceptedOnce | Source/RA/ra_media_operation_runner.h:93-110 | each token advances the machine at most once |
| MediaRunnerTokens.RebindIssuesExactly | Source/RA/ra_media_operation_runner.h:47-52 | from outside or inside a handler, an active waiting runner gains exactly one issued token, of the new generation and above every earlier number, which is then outstanding; everything else, state, queue and awaited event among it, stays; any other runner is left as it is |
| MediaRunnerTokens.RebindRetiresTokens | Source/RA/ra_media_operation_runner.h:47-110 | whatever calls follow a rebinding, no message with a token issued before it is accepted or even refused |
| MediaRunnerTokens.CancelEnds | Source/RA/ra_media_operation_runner.h:55-64 | cancelling an active request leaves Idle with an empty queue and records its end, and does nothing to an inactive runner |
| MediaRunnerTokens.CancelRetiresTokens | Source/RA/ra_media_operation_runner.h:55-110 | after a cancellation no token issued before it is accepted or refused again, in whatever later requests |
| MediaRunnerTokens.PostExactly | Source/RA/ra_media_operation_runner.h:93-110 | a posted result is accepted exactly when it has the outstanding token, the awaited event and a value the state decides; with that token but nothing fitting it is refused; any other changes nothing |
| MediaRunnerTokens.StartExactly | Source/RA/ra_media_operation_runner.h:29-40 | a start issues the first token of a new request and runs its first effect exactly when no request is active and there is a handler |
| MediaRunnerLiveness.AnsweringHandlerFinishes | Source/RA/ra_media_operation_runner.h:29-110 | a handler that posts one result for each effect that has one brings every request to its end before Start returns |
| MediaOwnerProofs.RunKeeps | Source/UI/app.cpp:1752-2036 | the invariant of all eighteen states is kept by every delivery, service tick, failed launch and outside event of every run |
| MediaOwnerProofs.EveryEndIsConsistent | Source/UI/app.cpp:1811-2036 | when an operation completes, the session is Offline or the service and the owner name one hash; success leaves both drives as requested; a refusal, and a failure whose restore succeeded, leave both as they were; whatever Drive 1 held at the start |
| MediaOwnerProofs.DriveAgreesExactly | Source/UI/app.cpp:1811-2036 | an operation that does not end Offline leaves Drive 1 in agreement with service and owner if Drive 1 held the session's disk at the start, or the request mounts it and the operation ended well; and, from a Drive 1 that is empty or holds that disk, only then |
| MediaOwnerEjected.EjectedDriveStaysOut | Source/UI/app.cpp:1698-1721 | from every active session with Drive 1 ejected, a disk for Drive 2 can be mounted with success while Drive 1 stays empty |
| MediaOwnerEjected.EjectedStartEnds | Source/UI/app.cpp:1279-1299 | one such start, and the run that ends active and out of agreement |
| MediaOwnerEnds.EveryGoodRunEndsWell | Source/UI/app.cpp:1766-2036 | if loads and checks are answered well, the network stays and all calls succeed, every run of a launch, an anchor change or a disk for Drive 2 that ends has ended well in an active session with the drives as asked, and with Drive 1, service and owner in agreement if Drive 1 was or is mounted |
| MediaOwnerEnds.EveryResetReturns | Source/UI/app.cpp:1872-1931 | after an Offline fallback whose mounts went through, a requested reset brings the session back: every such run that ends is active and in agreement for the disk in Drive 1 |
| MediaOwnerEnds.EveryFailedCommitIsUndone | Source/UI/app.cpp:1988-2036 | a commit that fails outside a launch ends, once restored and rolled back, as a failure with the session active and both drives and hashes as they were |
| MediaOwnerEnds.EndIsReached | Source/UI/app.cpp:1766-2036 | from every state on one of these three courses there is a run to the end |
| MediaOwnerEnds.ResolvedExactly | Source/UI/app.cpp:1843-1871 | a new disk answered to be of the loaded game goes on to Drive 2 and is changed to; one of another game is launched |
| MediaOwnerEnds.DiskChangeAsks | Source/UI/app.cpp:1843-1848 | a disk change that asks the service about its new disk, so that both answers can come |
| MediaOwnerEnds.StartsReachTheirEnds | Source/UI/app.cpp:1698-1760 | a first launch and a disk change that meet the conditions, each with a run to its end |
| MediaOwnerEnds.FallsReachTheirEnds | Source/UI/app.cpp:1951-2036 | a fallen-back and a failed commit that meet the conditions, each with a run to its end |
| MediaOwnerResets.ResetsExactly | Source/UI/app.cpp:2004-2017 | over all runs an ended operation has reset the VM exactly once if it went through and the request asked for it, and else not at all; and the RA progress exactly once if it went through without ending Offline and the request asked for a reset or is a launch |
| MediaOwnerExact.AnsweredIsNotStuck | Source/UI/app.cpp:1766-1809 | once the service has answered, well or badly, the next poll posts a result and its delivery brings the operation nearer to its end |
| MediaOwnerExact.NothingIsAskedDisconnected | Source/UI/app.cpp:1843-1945 | without a connection no step asks the service to check or change a disk, and a session begins only for a launch |
| MediaOwnerExact.KnownNeedsNoConnection | Source/UI/app.cpp:1917-1930 | a Drive 2 disk known to be of the game is taken without a question, connected or not |
| MediaOwnerExact.VerifiedDriveIsNotChecked | Source/UI/app.cpp:1900-1916 | a Drive 2 that an anchor operation verified before is not checked again |
| MediaOwnerExact.PlansExactly | Source/UI/app.cpp:1838-1842 | a launch loads at once, a new disk known to be of the game is taken as it is, any other is asked about |
| MediaOwnerExact.CommitsExactly | Source/UI/app.cpp:1951-1986 | a commit goes through exactly when every disk opens and, unless Offline, registration succeeds and the profile of an anchor or a pair is saved; what each failure leaves in the drives |
| MediaOwnerExact.RestoresExactly | Source/UI/app.cpp:1988-2003 | a restore counts as good exactly when every saved disk was reopened, and a drive that reopens holds what it held at the start |
| MediaOwnerExact.RefusedExactly | Source/UI/app.cpp:1824-1837 | a request is refused exactly when a disk to mount cannot be probed |
| MediaOwnerExact.RefusalLeaves | Source/UI/app.cpp:2023-2026 | a refusal leaves session, game and drives as they were, and ends the session of a launch |
| MediaOwnerExact.EveryEndReleases | Source/UI/app.cpp:2023-2036 | however an operation ends, no check of it is left in the service, and no change of an anchor |
| MediaOwnerExact.CacheAnswers | Source/RA/ra_service.cpp:880-960 | a hash in the cache is answered at once, well exactly for the expected game; any other is sent |
| MediaOwnerExact.KnownOtherIsNotSent | Source/RA/ra_service.cpp:779-879 | a change to a disk known to be of another game fails without being sent |
| MediaOwnerExact.DisconnectionIsUndone | Source/RA/ra_session_state.h:24-60 | a lost connection that comes back leaves the session as it was |
| MediaOwnerExact.SessionGraph | Source/RA/ra_session_state.h:24-60 | which signals enter Active, Starting and Ready, and that Offline is left only by stopping |
| MediaOwnerProofs.EveryLaunchIsJustified | Source/UI/app.cpp:1850-1930 | a launch is activated only with its game load succeeded, its mounts committed, and Drive 2 empty or verified against the game just loaded, on the first launch and after a reset |
| MediaOwnerProofs.OwnerNeverMisreports | Source/UI/app.cpp:1811-2036 | the owner never posts a result that the machine has no transition for |
| MediaOwnerProofs.EffectRepliesFit | Source/UI/app.cpp:1811-2036 | what a handler posts is a result of the event its own effect awaits |
| MediaOwnerProofs.OfflineCommit | Source/UI/app.cpp:1946-1986 | a commit after the Offline fallback either mounts what was asked in a session that is gone, or fails with untouched drives intact |
| MediaApp.App.Apply | Source/UI/diskmounttargets.h:39-52 | the loop over the drives stops at the first failure and leaves the later drive alone |
| MediaApp.App.Restore | Source/UI/diskmountsnapshot.h:36-51 | every saved drive is attempted, and success means every one was reopened |
| MediaApp.App.ApplyVm | Source/UI/app.cpp:1951-1986 | refines the commit: registration, both drives, the launch profile, the owner's hash, in that order, with each failure |
| MediaApp.App.ExecuteRaMediaEffect | Source/UI/app.cpp:1811-2036 | each effect changes session, drives, service and operation as its world function says and replies with its value |
| MediaApp.App.ProcessRaMediaOperation | Source/UI/app.cpp:1766-1809 | the service tick posts what the waiting state calls for and clears the service result it consumed |
| MediaApp.App.RunEffects | Source/RA/ra_media_operation_runner.h:70-92 | running a row on the object is running it on the world |
| MediaOwnerProofs.SessionStarts | Source/UI/app.cpp:2542-2587 | from any session a new one starts for the disk of a drive: it names that hash, nothing is loaded or asked of the service, and drives and operation are as they were |
| MediaOwnerProofs.OfflineIsGone | Source/UI/app.cpp:2086-2113 | once any session has begun, going Offline leaves no game, no hash and no pending request of it, and drives and operation are as they were |
| OutboxProofs.RunsAreSound | Source/RA/ra_service.cpp:1635-1995 | over all runs each callback is owed by exactly one live request or parked retry, or was invoked exactly once, and every tracked request has a live entry of the current generation |
| OutboxProofs.EntryIsTracked | Source/RA/ra_rc_client_http.cpp:54-91 | a response of the current generation finds its context tracked, and no tracked entry is ever of an old generation |
| OutboxProofs.AdvanceSound | Source/RA/ra_rc_client_http.cpp:128-131 | advancing the generation strands nobody when nothing is tracked, which is when it is done |
| OutboxProofs.ShutdownSettlesEverything | Source/RA/ra_service.cpp:1274-1305 | after a shutdown exactly the submissions made had their callbacks invoked, none twice |
| OutboxProofs.RetryDelaysGrow | Source/RA/ra_service.cpp:149-155 | the first retry is immediate, later delays never shrink and never exceed two minutes |
| OutboxDrains.SyncSendsExactly | Source/RA/ra_service.cpp:513-641 | a synchronization sends a request, for the first listed row, exactly when it can list rows, has one, none is held and the request can be built; with no row it succeeds; otherwise it fails and sends nothing; the store stays |
| OutboxDrains.SyncDrains | Source/RA/ra_service.cpp:513-710 | from any sound logged-in state without held rows, after k confirming responses exactly the first k rows of the listing are gone, and after as many as there were rows the account has none left, nothing is under way and a load may start |
| OutboxAnswers.RetriesAsRcheevosDoes | Source/RA/ra_service.cpp:110-128 | what the service tries again is what rcheevos itself would, and a leaderboard entry with no body besides |
| OutboxAnswers.ConfirmsOne | Source/RA/ra_service.cpp:1944-1952 | a response confirms one achievement only, unless it says the user has it; it is a readable 2xx success |
| OutboxAnswers.KeptExactly | Source/RA/ra_service.cpp:1953-1974 | an unconfirmed award is tried again exactly under a status rcheevos would retry, or when the answer was unreadable and without a message |
| OutboxAnswers.KindsDifferExactly | Source/RA/ra_service.cpp:664-692 | the two answers on which the award and the synchronization callback decide differently |
| OutboxAnswers.SomeKinds | Source/RA/ra_service.cpp:1944-1974 | nine answers and what becomes of them |
| OutboxAnswers.AwardAnsweredExactly | Source/RA/ra_service.cpp:1927-1995 | the whole effect of an answered award: callback, row, phase, and no other row |
| OutboxAnswers.ForeignAwardExactly | Source/RA/ra_service.cpp:1937-1942 | an award of another account is only called back |
| OutboxAnswers.SyncStopsExactly | Source/RA/ra_service.cpp:676-708 | an answer that does not confirm stops the batch, counts an attempt, and fails it exactly when the row is held |
| OutboxAnswers.AwardSubmittedExactly | Source/RA/ra_service.cpp:1635-1705 | an accepted submission is stored and sent with its callback owed; any other is called back at once and leaves nothing |
| OutboxAnswers.UpsertsOneRow | Source/RA/ra_library.cpp:2669-2701 | an upsert writes one row: the newest hash, the earlier time, attempts and status kept; a new row is pending |
| OutboxAnswers.RefusedRecords | Source/RA/ra_library.cpp:2669-2678 | which records the table refuses |
| OutboxAnswers.BoardAnsweredExactly | Source/RA/ra_service.cpp:1881-1925 | a leaderboard entry is called back unless the answer is to be retried; its first retry is sent at once, every later one parked until its delay has passed |
| OutboxAnswers.BoardOutcomes | Source/RA/ra_service.cpp:1881-1925 | the whole new state of each of these three outcomes |
| OutboxAnswers.BoardIsSent | Source/RA/ra_service.cpp:1707-1776 | a usable leaderboard submission of a known account is sent as a first attempt |
| OutboxAnswers.BoardIsRefused | Source/RA/ra_service.cpp:1707-1776 | any other is called back at once and leaves nothing |
| OutboxAnswers.DelaysDouble | Source/RA/ra_service.cpp:149-155 | each delay is double the one before, from one second to 64, and two minutes from then on |
| OutboxAnswers.RetryTickExactly | Source/RA/ra_service.cpp:1778-1798 | a tick sends every parked entry whose time has come, once, and leaves the others parked |
| OutboxAnswers.LoadBeginsExactly | Source/RA/ra_service.cpp:721-777 | a load starts exactly with the user logged in, the outbox found empty, nothing under way and no load; it outdates every response still to come |
| OutboxAnswers.LoadFinishesExactly | Source/RA/ra_service.cpp:2040-2069 | a load that succeeds leaves every request alone, one that fails calls them back |
| OutboxAnswers.LoginBeginsExactly | Source/RA/ra_service.cpp:431-512 | a login attempt changes nothing while logged in, and replaces a pending one |
| OutboxAnswers.LoginFinishesExactly | Source/RA/ra_service.cpp:1996-2038 | a login that succeeds takes its account and begins the synchronization; one that fails begins nothing |
| OutboxAnswers.LogoutExactly | Source/RA/ra_service.cpp:1241-1272 | which logouts delete the account's rows, and which log the user out |
| OutboxAnswers.ShutdownDeafens | Source/RA/ra_service.cpp:1274-1305 | after a shutdown no late response reaches anything |
| OutboxAnswers.SyncGenerationsAdvance | Source/RA/ra_service.cpp:513-530 | a new synchronization outdates what an earlier one still expects |
| OutboxConfirmed.UnlocksLeaveOnlyConfirmed | Source/RA/ra_service.cpp:1927-1995 | at every step of a run, an unlock that leaves the store does so because a request for this very unlock was answered by a 2xx success that names its achievement or says it is held already, or because the user deletes its account's rows; in every run that gives no insert a row id held for another unlock |
| OutboxConfirmed.EnqueueFaithfulExactly | Source/RA/ra_library.cpp:2669-2701 | an enqueue keeps what every request under way holds about its row exactly when it updates in place or its new row id is held by nothing under way |
| OutboxReuse.EnqueueLosesExactly | Source/RA/ra_library.cpp:2669-2701 | after an enqueue some run without further submissions deletes an unlock that no request for it confirmed, exactly when the new row id is held for another unlock by a live award, a live synchronization request, or a row the synchronization under way is still to send |
| OutboxReuse.AwardHolderLoses | Source/RA/ra_service.cpp:1951-1962 | a live award that names another unlock's row deletes that unlock on its own confirmation, after a login back to its account if need be |
| OutboxReuse.CapturedHolderLoses | Source/RA/ra_service.cpp:564-710 | a captured row whose id now names another unlock deletes it once the synchronization reaches it |
| OutboxReuse.SafeRunsReach | Source/RA/ra_service.cpp:513-710 | the states of that statement are those of every run that was safe so far |
| OutboxReuse.RunsAreOrderly | Source/RA/ra_service.cpp:513-710 | over all runs there is at most one synchronization request, for the captured row at the offset; captured rows are distinct and of the account; while logged in awards are of the account |
| OutboxReuse.FirstSubmissionsLoseNothing | Source/RA/ra_library.cpp:444-445 | a run that submits no unlock which is still stored loses none |
| OutboxReuse.ReusedIdLosesAnUnlock | Source/RA/ra_library.cpp:444-445 | five steps from any empty outbox, two of them submissions of one unlock, that delete an unlock on a response to another |
| OutboxGate.RunsAreGated | Source/RA/ra_service.cpp:513-642 | while synchronization has succeeded every stored unlock of the account has a live award request, over all runs |
| OutboxGate.LoadsStartEmpty | Source/RA/ra_service.cpp:721-777 | a game load starts only when the account has nothing stored |
| OutboxGate.FailedRemovalExactly | Source/RA/ra_service.cpp:1956-1962 | a failed removal of a confirmed row keeps that invariant exactly when another live request has the same row |
| OutboxGate.GateOpensOverStoredExactly | Source/RA/ra_service.cpp:1956-1962 | after a failed removal the next load starts over the stored row exactly when the confirmed award was the last one live |
| UnlockStore.UpsertKeeps | Source/RA/ra_library.cpp:2669-2701 | the upsert keeps the uniqueness of unlocks and leaves all other rows alone, and a new row gets one more than the highest id |
| UnlockStore.SortedOrders | Source/RA/ra_library.cpp:2703-2751 | a listing comes by unlock time and id, each row once |
| UnlockStore.SortedListsAll | Source/RA/ra_library.cpp:2703-2751 | a listing leaves out no row of the account |
| OutboxService.UnlockTable.EnqueuePendingUnlock | Source/RA/ra_library.cpp:2669-2701 | a malformed record is refused and changes nothing; for any other the row scan gives the upsert and its id |
| OutboxService.UnlockTable.ListPendingUnlocks | Source/RA/ra_library.cpp:2703-2751 | the selection loop gives the ordered listing, or fails as a whole exactly when one of its rows is invalid |
| UnlockStore.ListingIsListable | Source/RA/ra_library.cpp:2719-2743 | a listing fails exactly when one of the rows it would give is not what the table takes |
| OutboxProofs.GoneIdsStayGone | Source/RA/ra_rc_client_http.cpp:17-91 | over all runs a request id that was answered or abandoned never names an entry again, so a late response for it changes nothing |
| OutboxService.HttpBridge.Abandon | Source/RA/ra_rc_client_http.cpp:100-111 | the entry is gone, and the result says whether it was there |
| OutboxService.RaService.CancelPendingAwardRequests | Source/RA/ra_service.cpp:1834-1850 | the loop ends every award lowest id first, abandons its entry and invokes its callback |
| OutboxService.RaService.CancelPendingLeaderboardRequests | Source/RA/ra_service.cpp:1852-1868 | both loops: live requests and parked retries |
| OutboxService.RaService.CancelPendingUnlockSyncRequests | Source/RA/ra_service.cpp:1870-1879 | every synchronization request is abandoned without a callback |
| OutboxService.RaService.InterceptAwardRequest | Source/RA/ra_service.cpp:1635-1705 | an unusable or unsaved submission is refused at once; any other is stored before it is sent |
| OutboxService.RaService.PendingAwardCallback | Source/RA/ra_service.cpp:1927-1995 | a confirmed award removes its row, any other keeps it pending or held, and the callback is invoked once |
| OutboxService.RaService.InterceptLeaderboardSubmission | Source/RA/ra_service.cpp:1707-1776 | an unusable submission is refused at once, any other is sent as a first attempt |
| OutboxService.RaService.PendingLeaderboardCallback | Source/RA/ra_service.cpp:1881-1925 | a retryable answer restarts or parks the submission, any other completes it |
| OutboxService.RaService.ProcessPendingLeaderboardRetries | Source/RA/ra_service.cpp:1778-1798 | every due retry is restarted and no other |
| OutboxService.RaService.BeginPendingUnlockSync | Source/RA/ra_service.cpp:513-562 | cancels what is live, lists the account's rows and starts with the first unless one is held |
| OutboxService.RaService.StartNextPendingUnlock | Source/RA/ra_service.cpp:564-641 | sends the next captured row, or at the end looks again before it declares success |
| OutboxService.RaService.PendingSyncCallback | Source/RA/ra_service.cpp:643-710 | a confirmed row is removed and the next one sent; anything else stops the batch |
| OutboxService.RaService.Deliver | Source/RA/ra_rc_client_http.cpp:54-91 | one response: unknown ids are ignored, stale entries dropped, current ones dispatched |
| OutboxService.RaService.BeginLoadGameByHash | Source/RA/ra_service.cpp:721-777 | starts exactly when the gate is open, and advances the generation |
| OutboxService.RaService.Logout | Source/RA/ra_service.cpp:1241-1272 | cancels everything first, then deletes credentials and, if asked, the account's rows, which stay deleted when the confirmation of the recovery then fails |
| OutboxService.RaService.HandleLoadGameCallback | Source/RA/ra_service.cpp:2040-2069 | the end of a load; a failed one ends the game session's submissions |
| OutboxService.RaService.HandleLoginCallback | Source/RA/ra_service.cpp:1996-2038 | the end of a login, and with it the start of the synchronization |
| LibraryTables.MoveKeeps | Source/RA/ra_library.cpp:355-414 | a media row without launch profiles may move to a vacant place of an existing game without breaking any constraint |
| LibraryTables.IdentifyKeepsExactly | Source/RA/ra_library.cpp:341-354 | an RA id may be written to a game exactly when no other game has it |
| LibraryTables.ByOrdinalRises | Source/RA/ra_library.cpp:1318-1333 | the media of a game come in strictly rising order |
| LibraryMerge.PourSucceeds | Source/RA/ra_library.cpp:1299-1358 | emptying one game into another breaks no constraint at any row update, loses no medium and keeps the source's order after all the target had |
| LibraryMerge.MergeGameMediaExactly | Source/RA/ra_library.cpp:1513-1656 | commits exactly for two existing different games of which the source has media |
| LibraryMerge.MergeExactly | Source/RA/ra_library.cpp:1264-1371 | MERGE commits exactly when no game outside it holds the RA id; then the lowest game owns all merged media, the other merged games and their launch profiles are gone, and every other row, progress included, is as it was |
| LibraryMerge.NextOrdinalIsVacant | Source/RA/ra_library.cpp:1299-1317 | media poured in are numbered from one more than the highest ordinal in use |
| LibrarySplit.NextPlaceIsVacantExactly | Source/RA/ra_library.cpp:1456-1473 | each new ordinal of the renumbering is at most the row's old one and below every row still to come, so it is vacant unless a medium without banks has it |
| LibrarySplit.DistributeExactly | Source/RA/ra_library.cpp:1381-1473 | the renumbering succeeds exactly when no medium without banks, which the join leaves out, has one of the ordinals counted up for the old game; every destination then has its media with banks at ordinals 0 to k - 1 |
| LibrarySplit.DistributeKeepsOrder | Source/RA/ra_library.cpp:1456-1473 | media of one id keep their order |
| LibrarySplit.MakeGamesExactly | Source/RA/ra_library.cpp:1435-1455 | the new games can be created exactly when nobody holds any of their RA ids |
| LibrarySplit.InsertAnchorsSucceeds | Source/RA/ra_library.cpp:1485-1504 | one Drive 1 anchor for each destination, on its own medium, with no constraint in the way |
| LibraryResolve.ResolveSplitExactly | Source/RA/ra_library.cpp:1372-1511 | SPLIT commits exactly when there is an anchor, the RA ids are free and no medium without banks is in the way; each resulting game then owns exactly the media whose banks all have its id, numbered without gaps, with exactly one anchor profile, and media without banks stay; the old game keeps the anchor's id and its anchor, a new one starts from the first bank of its first medium, media of one id keep their order, and no other game, profile or progress changes |
| LibraryResolve.ResolveMergeExactly | Source/RA/ra_library.cpp:1229-1371 | a MERGE conflict is committed or leaves everything as it was |
| LibraryResolve.ResolveLosesNothing | Source/RA/ra_library.cpp:1229-1511 | whatever the conflict, no medium and no bank is lost and the constraints hold |
| LibraryConflicts.KindExactly | Source/RA/ra_library.cpp:1084-1227 | the inspection in terms of the rows: MERGE for one id that two wholly identified conflicting games carry; SPLIT for two ids or more, every medium with banks wholly of one id, and none of the ids on another game's media |
| LibraryConflicts.ResolvesExactly | Source/RA/ra_library.cpp:1084-1511 | from the tables alone: resolving succeeds exactly for a mergeable or a splittable game, and otherwise changes nothing |
| LibraryConflicts.SplitSeparates | Source/RA/ra_library.cpp:1372-1511 | after a committed SPLIT every bank with one of the ids is on a medium of that id's game |
| LibraryConflicts.PairIsSplit | Source/RA/ra_library.cpp:1372-1511 | an input: two media of different ids in one game become two games |
| LibraryChosen.ChosenIsMergedExactly | Source/RA/ra_library.cpp:1264-1297 | the game the user chose is among the games merged exactly when all its banks are identified |
| LibraryChosen.ChosenIsLeftBehind | Source/RA/ra_library.cpp:1264-1371 | otherwise it stays as it was, still in conflict, with its media |
| LibraryChosen.ResolvingThirdMergesOthers | Source/RA/ra_library.cpp:1264-1371 | an input: resolving the third of three games merges the other two |
| LibrarySync.SyncExactly | Source/RA/ra_library.cpp:2104-2373 | a sync commits exactly when its payload is valid and complete, user name and progress included; no update breaks uniqueness and no title is missed; every game then has its verdict, identified games have distinct RA ids, and the user's progress rows are exactly the payload's |
| LibraryIdentified.IdentifiedExactly | Source/RA/ra_library.cpp:2225-2330 | in terms of the payload: a game is identified as r exactly when its anchor bank is matched to r, no bank of its media to another id, and no other game claims r so; it is in conflict exactly when its banks are matched to two ids or its anchor's id is claimed twice |
| LibraryIdentified.UnknownExactly | Source/RA/ra_library.cpp:2290-2294 | otherwise it is unidentified exactly when it has no anchor bank with a hash, and unregistered exactly when that hash is unmatched |
| LibraryIdentified.BanksExactly | Source/RA/ra_library.cpp:2167-2222 | a bank has an id exactly when its hash is matched to it |
| LibraryIdentified.CommitsExactly | Source/RA/ra_library.cpp:2107-2158 | a sync commits exactly when the payload names a user, distinct valid hashes, distinct titles for all their games, and distinct possible progress |
| LibraryIdentified.AloneIsIdentified | Source/RA/ra_library.cpp:2225-2330 | an input: one game with one known disk ends identified |
| LibrarySync.RivalsConflict | Source/RA/ra_library.cpp:2270-2294 | two games that claim one RA id are both marked conflict and neither holds it |
| LibrarySync.IdentifiedClaimsAlone | Source/RA/ra_library.cpp:2270-2294 | a game found identified is the only one to claim its id |
| LibrarySync.SyncedBankStates | Source/RA/ra_library.cpp:2167-2222 | after a sync a bank is identified exactly when it has an id, which is one of the matches |
| LibrarySync.InsertProgressSucceeds | Source/RA/ra_library.cpp:2331-2358 | inserting entries of different games for which the user has no row never meets a row, and leaves everybody else's rows alone |
| LibraryStore.Library.InspectGameConflict | Source/RA/ra_library.cpp:1084-1227 | refines the classification |
| LibraryStore.Library.MergeGameMedia | Source/RA/ra_library.cpp:1513-1656 | commits or puts back the saved tables |
| LibraryStore.Library.DistributeMedia | Source/RA/ra_library.cpp:1454-1473 | the loop with its running counts refines the renumbering |
| LibraryStore.Library.ResolveGameConflict | Source/RA/ra_library.cpp:1229-1511 | commits MERGE or SPLIT, or restores everything |
| LibraryStore.Library.ApplyLibrarySync | Source/RA/ra_library.cpp:2104-2373 | commits the sync or restores everything |
| Crc32.ComputeCrc32 | Source/RA/ra_state_store.cpp:75-86 | the loop computes the checksum of the register function |
| Crc32.ByteStepInjective | Source/RA/ra_state_store.cpp:75-86 | one step of the register is injective in the register and, for one register, in the byte |
| Crc32.ChecksumDetectsOneByte | Source/RA/ra_state_store.cpp:75-86 | two messages of any length that differ in exactly one byte have different checksums |
| Crc32.CheckValue | Source/RA/ra_state_store.cpp:75-86 | the checksum of the digits 1 to 9 is CBF43926, the check value of the CRC-32 of ISO 3309 |
| StateStore.BuildRaState | Source/RA/ra_state_store.cpp:109-188 | builds exactly the documented layout of every valid record, and nothing for an invalid one |
| StateStore.ParseRaState | Source/RA/ra_state_store.cpp:190-302 | accepts exactly the consistent files and returns their record |
| StateStoreProofs.ParseInvertsBuild | Source/RA/ra_state_store.cpp:109-302 | parsing what was built gives the record back |
| StateStoreProofs.BuildInvertsParse | Source/RA/ra_state_store.cpp:109-302 | rebuilding what was parsed gives the file back byte for byte |
| StateStoreProofs.AcceptedExactlyTheBuilt | Source/RA/ra_state_store.cpp:190-302 | a file is accepted exactly when it is the image of a valid record, and of only one |
| StateStoreProofs.ChangedByteIsRefused | Source/RA/ra_state_store.cpp:190-302 | an accepted file with one byte changed, anywhere but in the trailing size, is refused |
| StateStoreProofs.LayoutSections | Source/RA/ra_state_store.cpp:14-29 | where each group of fields, the progress and the footer are in a built file |
| StateStoreProofs.ModesExactly | Source/RA/ra_state_store.cpp:109-156 | modes 1 and 2 name a game and its media and carry progress, mode 3 none of it, and there is no other mode |
| StateStoreProofs.LimitsExactly | Source/RA/ra_state_store.h:11-13 | 16 MiB of progress and 256 MiB of file |
| StateStoreProofs.Md5Digits | Source/RA/ra_state_store.cpp:88-99 | an MD5 is 32 hexadecimal digits with small letters |
| TextSanitizer.SanitizeUtf8 | Source/RA/ra_text_converter.cpp:38-113 | the loop ends on every byte string and computes the sanitizing function and its replacement count |
| TextSanitizer.ThreeByteTest | Source/RA/ra_text_converter.cpp:75-89 | the code's tests for three-byte forms are those of the UTF-8 grammar of section 4 of RFC 3629 |
| TextSanitizer.OutputIsClean | Source/RA/ra_text_converter.cpp:38-113 | the output is well-formed UTF-8 without control characters and without four-byte forms |
| TextSanitizer.KeptExactlyWhenClean | Source/RA/ra_text_converter.cpp:38-113 | text is kept as it is exactly when it is clean, exactly when nothing is counted |
| TextSanitizer.SanitizeIsIdempotent | Source/RA/ra_text_converter.cpp:38-113 | sanitizing twice is sanitizing once |
| TextSanitizer.SanitizeDistributes | Source/RA/ra_text_converter.cpp:38-113 | text after a well-formed prefix is treated as if it stood alone |
| TextSanitizer.DistributionNeedsWellFormedPrefix | Source/RA/ra_text_converter.cpp:11-36 | without a well-formed prefix that fails: a lone lead byte swallows a continuation |
| TextSanitizer.OutputLength | Source/RA/ra_text_converter.cpp:11-113 | the output is never longer than the input, and there are no more replacements than output bytes |
| TextSanitizer.EachCharacterIsShown | Source/RA/ra_text_converter.cpp:38-113 | well-formed text is shown character by character, each control or four-byte character as one question mark, counted once |
| TextSanitizer.MalformedIsOneMark | Source/RA/ra_text_converter.cpp:11-36 | a byte that begins no character is shown, with the continuation bytes behind it, as one question mark |
| AudioRing.ScalePreservesOrder | Source/UI/audio.cpp:399-433 | scaling fits 16 bits and keeps the order of samples |
| AudioRing.PatchAppends | Source/UI/audio.cpp:385-436 | writing at the write position, across the wrap and with write equal to size, appends to the queue |
| AudioRing.WindowSplits | Source/UI/audio.cpp:463-505 | reading at the read position, across the wrap, takes the front of the queue |
| AudioRing.RunKeepsOrder | Source/UI/audio.cpp:315-505 | over any run without underrun what was played and what is queued is what was accepted, in order |
| AudioRing.RunAcceptsAll | Source/UI/audio.cpp:358-505 | if no write found the ring too full, everything offered was accepted |
| AudioRing.PlaysWhatWasOffered | Source/UI/audio.cpp:315-505 | over any run without underrun or overflow the 16-bit samples played, and then those queued, are the scaled samples offered, in order |
| AudioRing.AcceptedExactly | Source/UI/audio.cpp:385-436 | a write takes the oldest samples offered, as many as there is room for |
| AudioRing.UnderrunRestarts | Source/UI/audio.cpp:463-505 | after an underrun the device heard silence and the ring holds the rest of half a ring of it |
| AudioRing.HalfFullIsHalf | Source/UI/audio.cpp:315-326 | half full is the first whole number of frames that is at least half the ring |
| AudioRing.FillPercentExact | Source/UI/audio.cpp:379-383 | the fill report is the largest number of 256ths that are filled, at most 255 |
| AudioRing.LittleEndian | Source/UI/audio.cpp:399-433 | a stored sample has its low byte first |
| AudioRing.Audio.Write | Source/UI/audio.cpp:358-442 | appends the oldest part of the input that fits and drops the newest rest |
| AudioRing.Audio.Callback | Source/UI/audio.cpp:463-505 | returns the queued samples in order, and on an underrun what a half-full ring of silence gives |
| AudioRing.Audio.Reset | Source/UI/audio.cpp:315-326 | the ring is half full of silence |
| AudioRing.Audio.GetFreeSamples | Source/UI/audio.cpp:332-352 | the frames that can be written without loss |
| NoticeQueue.WrappedDifferenceExact | Source/RA/ra_overlay.cpp:568-603 | the clamped wrapped difference is the true time left exactly when the true difference fits a signed word |
| NoticeQueue.UrgencyOrders | Source/RA/ra_overlay.h:68-73 | critical goes before important, important before normal, normal before low, and the older first among equals |
| NoticeQueue.ClockFollows | Source/RA/ra_overlay.cpp:144-163 | when time is read: no time of a pause is ever charged |
| NoticeQueue.ShownForItsDuration | Source/RA/ra_overlay.cpp:568-603 | through any run of looks, pushes and pauses a notice is queued while it was shown for less than its duration, and gone for good once it was shown for all of it or overflow dropped it |
| NoticeQueue.LeaderExists | Source/RA/ra_overlay.cpp:568-603 | a queue with distinct numbers has exactly one leader: highest priority, oldest |
| NoticeQueue.DroppingKeepsLeader | Source/RA/ra_overlay.cpp:102-134 | overflow never drops the leader |
| NoticeQueue.HappenKeepsOrder | Source/RA/ra_overlay.cpp:102-193 | numbers stay distinct and at most 64 notices are queued |
| NoticeQueue.ChargingSettles | Source/RA/ra_overlay.cpp:568-603 | charging the active notice on the wrapped clock charges the ideal one by the true gap |
| NoticeQueue.Overlay.RebalanceNotices | Source/RA/ra_overlay.cpp:568-603 | after a look at most one notice is active, it is the leader, and every time left matches the ideal queue |
| NoticeQueue.Overlay.AddNotice | Source/RA/ra_overlay.cpp:102-134 | a push matches the ideal push, overflow included |
| NoticeQueue.Overlay.SetNoticesPaused | Source/RA/ra_overlay.cpp:144-163 | pausing stops the time, resuming starts it, across a wrap |
| NoticeQueue.Overlay.VisibleNotices | Source/RA/ra_overlay.cpp:176-193 | shows the leader and only it |

## Left out

- Windows, menus, fonts, drawing, input and joystick code of the application and the overlay: user interface.
- Platform HTTP clients, connectivity monitors, credential stores and file utilities: foreign calls.
- rcheevos and rc_api internals, image decoding and MD5: a response is given as what was read from it.
- Titles, badges, timestamps, points, the sync_state table and the media table's own RA columns: they take part in no constraint or decision modelled here.
- SQLite itself, migrations, quarantine and recovery of the database; a recovery that is required only appears as a refusal to synchronize.
- The second inspection inside ResolveGameConflict's transaction: with one connection it reads what the first one read.
- OpenLocalDiskBatch: the table's Local rows are covered by the walks, its synchronous handler is an answering handler of the runner.
- Error texts, notices and menu status of media operations.
- Calls from completion handlers to start another operation at once: the runner refuses them while it runs a handler.
- The trailing size field of the state container in the corruption property: changing it moves the start of the chunk, so the checksums need not notice.
- Shift-JIS conversion and the other text helpers beside the sanitizer: they would add only easy members.
- BeginSync: the record's elapsed time and token are not modelled, because they only travel in the request.
