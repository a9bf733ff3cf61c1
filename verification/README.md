# Agent rooms, workspaces and contexts: a verified model

This project models the stateful and algorithmic core of the agent subsystem and
proves what its callers rely on. One module stands for one component.

**Room delivery.** A room agent session has a FIFO queue of deliveries. Workers
claim the oldest open delivery under a lease (worker, delivery, expiry) fenced by
a generation that every claim advances. A claimed delivery is finished, retried,
or claimed again when its lease lapses. Events of a room are numbered and mirrored
by an outbox. `RoomProtocol` is this protocol as a state machine over values: a
list of operations, each with whatever lease and clock reading its caller has,
describes any interleaving of live, late and crashed workers. `RoomInvariants`,
`RoomGuarantees` and `RoomLedger` prove what holds over every such list, from any
seeds whose delivery ids and sequences are distinct and whose cursor is not past
the first delivery. `RoomHistory` says what a store owes its callers without
looking at its fields: from the calls made so far and the answers they got it tells
who holds a session, which delivery comes next and what its worker may resume from.
`RoomRecall` proves that every answer of every run is the one owed, and `RoomTold`
the same of every public event. `RoomStore` is the in-memory store as a class whose
methods perform exactly these steps on its fields. `RoomSqlStore` is the SQL store as a
class over rows, statement by statement with compare-and-swap updates, unique keys
and roll-back; `RoomRefinement` proves that it makes the same transitions,
`RoomSeeds` that this holds from any seeds, and `RoomPublicLog` that its event and
outbox tables are the in-memory log. Where the stores differ, `RoomReplay` says what
a repeated finish is told and `RoomDrafts` which output a claim hands on. `Host` is the process that serves claims:
polling, settlement, interruption and the retry delay, in any interleaving of its
tasks. `RoomFleet` lets any number of such processes work on one store and proves
how often a delivery can be handed out.

**Room context.** `ContextModel` says what a context is: access checks, removal of
repeated entries, the walk along reply pointers, and greedy allocation under block
and character budgets, per category and in total. `ContextBuilder` is the builder
with its loops, maps and counters, proved to compute it. `ContextIntake`,
`ContextAllocation`, `ContextGuarantees` and `ContextDisplay` prove accounting,
budgets, coverage, provenance, reading order and independence from input order;
`ContextFairness` which entries a short budget is spent on, and `ContextReasons`
that every reason given against an entry is true.
`RoomDigest` is the incrementally maintained digest of older messages;
`CanonicalJson` is the canonical form under every hash, with what assigning an own
`__proto__` member does to the object it is built in.

**Workspaces.** `Lifecycle` is the staged durable receipt of an attempt.
`GitWorktree` is prepare, finalize and cleanup against a repository -- a commit
graph, refs with compare-and-swap, and a private clone -- where a run can be cut
between any two effects and others go on moving their branches; `GitWorktreePort`
is the class that does it. `Attempt` is the daemon's attempt: any number of
workers, each of which may be overtaken or die at any point, around one receipt;
`AttemptOutcome` and `AttemptWorkers` say what it ends with and what each worker
does, `AttemptRestarts` exactly when one of them can run again after the
completion. `TrustedMerge` moves the default branch.
`Matcher` chooses the runtime for an execution.

Code that changes state is a class or a method with loops, and each such method is
tied to a function whose properties are the lemmas listed below. Where a property
one would expect does not hold of the code, the code is kept, a lemma gives an
input that shows it, and the exact condition under which it does hold is proved:
`ResumedRetryCanUnsettle` with `ResumedRetryIffOwned` and
`ResumedRetryKeepsIffInFlight`; `CursorCanPassMessages` with `StaysWithinIff`;
`TwoHeadsCanSucceed` with `BothSucceedIff`; `OvertakenWorkerRestarts` with
`RestartsIff`; `LateCancelIsTold` with `ReportTellsCompletionIff`;
`SecondReclaimLosesDraft` with `PendingOutputsAgreeIff`; `TiedSlicesFollowInput`
with `SliceOrderIff`; `DifferentSlicesCollide` with `SameSliceIff`; `ProtoMemberIsLost`
with `ToldApartIffNoProto`; `ForeignPrototypeIsRefused` with
`CanonIsIdempotentIff`; and by themselves `PrepareResumesIff` and
`Matcher.OrderDoesNotMatterIff`.

`Prelude`, `Sorting` and `Text` hold the shared vocabulary: options, a stable sort
with the lemmas that make it a canonical form, filters, sums, and text order.

## Model

| member | source | states |
|---|---|---|
| RoomGuarantees.SeedWorldInv | src/agent/room-host/in-memory-store.ts:128-186 | a store constructed from well-formed seeds satisfies every invariant of the protocol, with an empty log |
| RoomGuarantees.RunKeeps | src/agent/room-host/in-memory-store.ts:285-515 | any list of operations, with any leases and clocks, keeps the invariants |
| RoomGuarantees.QueueShape | src/agent/room-host/in-memory-store.ts:285-304 | in every reachable state a queue is settled deliveries, then at most one in flight, which is exactly the leased one, then pending ones, in rising sequence |
| RoomGuarantees.ConservationOfEpochs | src/agent/room-host/in-memory-store.ts:285-304 | generations granted equal raised attempts plus settled deliveries plus one if one is in flight |
| RoomLedger.ClaimsAccountedFor | src/agent/room-host/in-memory-store.ts:285-304 | delivery by delivery, the number of times a run granted it is its raised attempts, plus one unless it is pending; and its attempts were raised once by each takeover in flight and each accepted retry |
| RoomGuarantees.SettledExactlyOnce | src/agent/room-host/in-memory-store.ts:398-470 | a completed (failed) delivery has exactly one completed (failed) event, every other none; at most one agent message, only on completion; published messages are the stored ones |
| RoomGuarantees.GapFreeLog | src/agent/room-host/in-memory-store.ts:584-609 | the events of a room are numbered base+1, base+2, ... whichever sessions write them, and the outbox mirrors them entry by entry |
| RoomGuarantees.CursorNeverFallsBack | src/agent/room-host/in-memory-store.ts:369-470 | all three parts of a cursor only grow; its event part never passes the room's counter |
| RoomLedger.MessageCursorWithin | src/agent/room-host/in-memory-store.ts:458-466 | once a room has every message a session is seeded with, the message part of the cursor never passes the room's message counter |
| RoomLedger.FinishStaysWithin | src/agent/room-host/in-memory-store.ts:458-466 | an accepted finish from a cursor within the room's messages leaves it there exactly when the room has the delivery's message before the call, or gets it by the message the call publishes |
| RoomLedger.StaysWithinIff | src/agent/room-host/in-memory-store.ts:138-186 | over every run the message part of a session's cursor stays within its room's messages exactly when the room has, at seeding, every message the session has read or is to be sent |
| RoomLedger.CursorCanPassMessages | src/agent/room-host/in-memory-store.ts:458-466 | a seeded run of two calls after which the cursor is past the room's message counter |
| RoomGuarantees.SettledForever | src/agent/room-host/in-memory-store.ts:452-457 | the record of a settled delivery never changes again |
| RoomGuarantees.StaleLeaseChangesNothing | src/agent/room-host/in-memory-store.ts:540-556 | after a lease was used to finish or retry, or its session was claimed again, no call carrying it ever changes anything |
| RoomGuarantees.GenerationsNeverRepeat | src/agent/room-host/in-memory-store.ts:291-304 | a later claim of a session always gets a larger generation |
| RoomGuarantees.AppendReplay | src/agent/room-host/in-memory-store.ts:351-367 | repeating a stored runtime event, however late, changes nothing and answers duplicate exactly while the lease is owned |
| RoomGuarantees.FinishReplay | src/agent/room-host/in-memory-store.ts:398-413 | repeating a terminal fact, under any lease naming the delivery, changes nothing and answers duplicate |
| RoomGuarantees.ResumedRetryIffOwned | src/agent/room-host/in-memory-store.ts:472-515 | what a retry writes after its suspension is a retry exactly when the lease is still owned then |
| RoomGuarantees.ResumedRetryKeepsIffInFlight | src/agent/room-host/in-memory-store.ts:472-515 | the resumed retry keeps the store's invariant exactly when the delivery is still in flight |
| RoomGuarantees.ResumedRetryCanUnsettle | src/agent/room-host/in-memory-store.ts:472-515 | a run in which a completed delivery returns to the queue through that suspension |
| RoomRecall.EveryAnswerFollows | src/agent/room-host/in-memory-store.ts:285-515 | after any calls on any seeds, the answer to the next one follows from the calls and answers before it: a claim is granted exactly when the next delivery is free, and then hands out the seeded envelope with its raised attempt, the next generation, the last checkpoint accepted, the output drafted since the last finish or retry, the runtime session last bound and the cursor read up to; every other call is answered as owner, late holder or repetition |
| RoomRecall.RunRemembers | src/agent/room-host/in-memory-store.ts:285-515 | over every run, every field of every session and delivery is what the calls and their answers say |
| RoomRecall.FreeIffClaimable | src/agent/room-host/in-memory-store.ts:620-634 | a session can be claimed exactly when its history says that nobody holds it and its next delivery is available, or that the holder's time is up |
| RoomRecall.HoldsIffOwned | src/agent/room-host/in-memory-store.ts:540-556 | a lease is owned exactly when it is the last one granted, was not given back, and has not run out as last renewed |
| RoomTold.LogTellsHistory | src/agent/room-host/in-memory-store.ts:558-609 | the public events a call adds are those its answer stands for: what they say, who says it, under which keys, and the next numbers of the room |
| RoomTold.StartsFromSeeds | src/agent/room-host/in-memory-store.ts:138-186 | a seeded room starts its two counters at the largest event and message any of its seeds names, and has the seeded sessions only |
| RoomStore.InMemoryRoomHostStore.Create | src/agent/room-host/in-memory-store.ts:128-136 | a store constructed from seeds is the seeded world, and fails exactly when a session is seeded twice |
| RoomStore.InMemoryRoomHostStore.AddSession | src/agent/room-host/in-memory-store.ts:138-186 | adds the seeded session and raises the room's counters, or reports that it exists and changes nothing |
| RoomStore.InMemoryRoomHostStore.Claim | src/agent/room-host/in-memory-store.ts:285-322 | new state and answer are the protocol's claim; a grant hands out the session's own checkpoint, cursor, runtime session and pending output, for the worker that asked, under the next generation |
| RoomStore.InMemoryRoomHostStore.Heartbeat | src/agent/room-host/in-memory-store.ts:324-333 | new state and answer are the protocol's heartbeat |
| RoomStore.InMemoryRoomHostStore.BindRuntime | src/agent/room-host/in-memory-store.ts:335-349 | new state and answer are the protocol's bind |
| RoomStore.InMemoryRoomHostStore.AppendEvent | src/agent/room-host/in-memory-store.ts:351-387 | new state and answer are the protocol's append, duplicates and changed replays included |
| RoomStore.InMemoryRoomHostStore.PersistCheckpoint | src/agent/room-host/in-memory-store.ts:389-396 | new state and answer are the protocol's checkpoint write |
| RoomStore.InMemoryRoomHostStore.FinishDelivery | src/agent/room-host/in-memory-store.ts:398-470 | new state and answer are the protocol's finish |
| RoomStore.InMemoryRoomHostStore.RetryDelivery | src/agent/room-host/in-memory-store.ts:472-515 | new state and answer are the protocol's retry |
| RoomStore.InMemoryRoomHostStore.OwnsSession | src/agent/room-host/in-memory-store.ts:540-556 | reads off the fields whether the lease owns its session |
| RoomStore.InMemoryRoomHostStore.AppendPublicEvent | src/agent/room-host/in-memory-store.ts:584-609 | one more event of the room and its outbox record, under the next sequence |
| RoomStore.InMemoryRoomHostStore.Serve | src/agent/room-host/in-memory-store.ts:113-136 | serving a list of calls leaves the store in the state the protocol's run reaches |
| RoomSqlStore.OldestIsUnique | prisma/schema.prisma:877-877 | under the unique index a session has one oldest open delivery |
| RoomSqlStore.SequencesStayUnique | prisma/schema.prisma:877-877 | no transaction touches the columns of the unique index |
| RoomSqlStore.PrismaRoomHostStore.LoadOldestDelivery | src/agent/room-host/prisma-store.ts:908-981 | finds the open row with the smallest sequence, or that there is none |
| RoomSqlStore.PrismaRoomHostStore.UpdateSessionForClaim | src/agent/room-host/prisma-store.ts:315-355 | writes the session row if and only if its generation, runtime, lease and queue condition still hold, and nothing else |
| RoomSqlStore.PrismaRoomHostStore.Claim | src/agent/room-host/prisma-store.ts:281-401 | rows and answer are the net claim transaction, the grant read back from the rows included |
| RoomSqlStore.PrismaRoomHostStore.LoadPendingOutput | src/agent/room-host/prisma-store.ts:1223-1256 | finds the output of the stored message-ready event with the highest number among those of one generation of the delivery, or that there is none |
| RoomSqlStore.PrismaRoomHostStore.Heartbeat | src/agent/room-host/prisma-store.ts:403-435 | rows and answer are the net heartbeat |
| RoomSqlStore.PrismaRoomHostStore.BindRuntime | src/agent/room-host/prisma-store.ts:437-470 | rows and answer are the net bind |
| RoomSqlStore.PrismaRoomHostStore.AppendEvent | src/agent/room-host/prisma-store.ts:472-553 | rows, public event, outbox row and answer are the net append transaction; the cursor told is that of the session row, up to the delivery being served and the stored event |
| RoomSqlStore.PrismaRoomHostStore.PersistCheckpoint | src/agent/room-host/prisma-store.ts:555-589 | rows and answer are the net checkpoint transaction |
| RoomSqlStore.PrismaRoomHostStore.FinishDelivery | src/agent/room-host/prisma-store.ts:591-769 | rows, public message and terminal event, outbox rows and answer are the net finish transaction; an exception gives every row back |
| RoomSqlStore.PrismaRoomHostStore.RetryDelivery | src/agent/room-host/prisma-store.ts:771-883 | rows, public events, outbox rows and answer are the net retry transaction; an exception gives every row back |
| RoomSqlStore.PrismaRoomHostStore.PublishFinish | src/agent/room-host/prisma-store.ts:655-711 | the message event, if output is published, and the terminal event under consecutive sequences, each with its outbox row |
| RoomSqlStore.PrismaRoomHostStore.LockOwnedSession | src/agent/room-host/prisma-store.ts:1258-1290 | owned exactly when session and delivery rows carry the unexpired lease on a claimed delivery |
| RoomSqlStore.PrismaRoomHostStore.AllocateRoomSequences | src/agent/room-host/prisma-store.ts:1378-1416 | raises both counters of a room, or reports that there is no such room |
| RoomSqlStore.PrismaRoomHostStore.AppendRuntimeEvent | src/agent/room-host/prisma-store.ts:1311-1359 | stores an event once under its key, with its public event and outbox row, and recognises the same content again |
| RoomRefinement.OldestIsFirst | src/agent/room-host/prisma-store.ts:908-981 | the oldest open row of a session is its first open delivery |
| RoomRefinement.SameFence | src/agent/room-host/prisma-store.ts:1280-1290 | the row fence and the in-memory fence agree on every lease |
| RoomRefinement.ClaimRefines | src/agent/room-host/prisma-store.ts:281-401 | from related states both stores claim alike and grant alike: the same lease, runtime, runtime session, checkpoint, delivery, attempt and message cursor |
| RoomRefinement.AppendRefines | src/agent/room-host/prisma-store.ts:472-553 | from related states both stores append alike and answer alike |
| RoomRefinement.FinishRefines | src/agent/room-host/prisma-store.ts:591-769 | from related states both stores finish alike, and answer alike unless the delivery was settled before |
| RoomRefinement.RetryRefines | src/agent/room-host/prisma-store.ts:771-883 | from related states both stores retry alike and answer alike |
| RoomRefinement.StepRefines | src/agent/room-host/prisma-store.ts:281-883 | every operation keeps the two stores related, with equal answers, grants field by field, to all calls other than a repeated finish |
| RoomRefinement.RunRefines | src/agent/room-host/prisma-store.ts:281-883 | so does every list of operations |
| RoomRefinement.StoresAgree | src/agent/room-host/prisma-store.ts:281-883 | after any calls with any leases both stores show the same generation, lease, current delivery, checkpoint, and per delivery the same status, attempt and availability |
| RoomSeeds.SeededRowsRelate | src/agent/room-host/in-memory-store.ts:138-186 | for all well-formed seeds with delivery ids distinct across sessions, the rows seeded with them and the in-memory store are related, and the unique index holds |
| RoomSeeds.SeededStoresAgree | src/agent/room-host/prisma-store.ts:281-883 | seeded alike, the two stores stand alike after any calls with any leases and clocks |
| RoomPublicLog.PublicLogsAgree | src/agent/room-host/prisma-store.ts:1418-1450 | seeded alike, after any calls with any leases and clocks, the event and outbox tables of the SQL store hold row by row what the in-memory store has published |
| RoomPublicLog.DurableLogIsGapFree | src/agent/room-host/prisma-store.ts:1378-1416 | the SQL store numbers the events of a room base+1, base+2, ... whichever sessions write them, with one outbox row for each in the same order |
| RoomPublicLog.AppendCursorsAgree | src/agent/room-host/prisma-store.ts:528-548 | the cursor told for a stored event has the same message part in both stores, the same event part when new and at least that when repeated, and stands just before the delivery being served |
| RoomReplay.DurableAnswersFollow | src/agent/room-host/prisma-store.ts:281-883 | after any calls the SQL store answers every call of the right kind as the history says it must, other than a repeated finish; event cursor and pending output of a grant apart |
| RoomReplay.DurableFinishReplay | src/agent/room-host/prisma-store.ts:600-633 | once the SQL store has accepted a finish, any later finish of that delivery changes no row and is told duplicate exactly when it is the same in generation, fact, checkpoint and published output, and otherwise that it changed |
| RoomReplay.RepeatsAreToldIff | src/agent/room-host/prisma-store.ts:600-633 | a finish is told that it is a repetition exactly when an earlier call of the run was accepted as the finish of that delivery |
| RoomReplay.OnlyWrongKindsBreak | src/agent/room-host/prisma-store.ts:1613-1636 | the SQL store raises only for an append of an ending event, or a finish or retry by an event that ends nothing; such a call is never accepted and changes no row |
| RoomDrafts.SecondReclaimLosesDraft | src/agent/room-host/prisma-store.ts:389-397 | a run in which a claim is granted after two takeovers and the SQL store hands out no pending output, while the in-memory store hands out the stored one |
| RoomDrafts.PendingOutputsAgreeIff | src/agent/room-host/prisma-store.ts:389-397 | over every run each store hands out the pending output its history says, and the two are equal exactly when there is none or the last generation drafted one itself |
| Host.SettledAtMostOnce | src/agent/room-host/host.ts:615-756 | in any interleaving of consumers, heartbeats, interrupts and the poll loop, interrupts that settle after their session was left included, each claim makes at most one finish or retry call, and no more sessions are served than the limit |
| Host.ServedByOne | src/agent/room-host/host.ts:326-358 | no two consumers of a worker run for one session, and a session whose interrupt is still to settle is not served under another claim |
| Host.InterruptSettlesLate | src/agent/room-host/host.ts:737-756 | a run in which an interrupt retries its claim after the session was left |
| Host.DelayIsBounded | src/agent/room-host/host.ts:891-897 | the retry delay lies between base and maximum and does not shrink from one attempt to the next |
| Host.DelayDoubles | src/agent/room-host/host.ts:891-897 | the first delay is the base, each next one is twice the one before up to the maximum, and none grows after the thirtieth attempt |
| Host.CallsHaveReasons | src/agent/room-host/host.ts:648-756 | every call of every run has its reason: an ordinary retry is a retryable failure below the maximum attempt, a finish is a completion, a failure that is final, or a runtime that is not registered |
| Host.FailureDecides | src/agent/room-host/host.ts:648-735 | a failure of a claim that may still write settles it, whatever happens before and after: by a retry when it is retryable and attempts remain, by a finish otherwise, and by nothing else |
| Host.DrainTakesNothing | src/agent/room-host/host.ts:240-257 | after a drain or a forced shutdown with no claim under way, no run takes on another claim or serves another session |
| RoomFleet.ClaimsAreBounded | src/agent/room-host/host.ts:648-756 | for any number of workers and any delay and order of their calls, a session is claimed at most once per attempt left to its deliveries and once more for every takeover and every forced interrupt; when that is used up nothing is pending |
| RoomFleet.SettlesWithinAttempts | src/agent/room-host/host.ts:648-756 | delivery by delivery, it is handed out at most as often as attempts remained to it and once more for every takeover and every forced interrupt of it, and by then it is no longer pending |
| Host.RoomSessionHost.ConsiderCandidate | src/agent/room-host/host.ts:286-295 | goes on to claim only with a free slot and for a session not served already |
| Host.RoomSessionHost.Launch | src/agent/room-host/host.ts:297-358 | a granted claim is served under its session id, or failed at once when its runtime is not registered |
| Host.RoomSessionHost.BeginSettlement | src/agent/room-host/host.ts:918-922 | opens the settlement once, and only while the lease is trusted |
| Host.RoomSessionHost.Finish | src/agent/room-host/host.ts:615-646 | the new state is the settlement step with a finish call |
| Host.RoomSessionHost.RetryOrFinish | src/agent/room-host/host.ts:648-735 | the new state is the settlement step, a retry exactly when the failure is retryable and attempts remain, and a finish otherwise |
| Host.RoomSessionHost.Interrupt | src/agent/room-host/host.ts:240-250 | polling stops and exactly the sessions now served, unsettled and trusted, begin an interrupt |
| Host.RoomSessionHost.RetryInterrupted | src/agent/room-host/host.ts:743-755 | with its checkpoint an interrupt settles its claim by a retry, whatever the attempt, if nothing else has |
| Host.RoomSessionHost.AbandonSession | src/agent/room-host/host.ts:852-866 | ends trust in the lease and touches nothing else |
| Host.RoomSessionHost.EndSession | src/agent/room-host/host.ts:353-357 | a consumer that has returned removes its session's entry |
| ContextBuilder.BuildRoomContext | src/agent/context/builder.ts:316-752 | the builder computes the context of the model, or its error |
| ContextBuilder.CheckBudget | src/agent/context/budget.ts:48-96 | accepts exactly the valid budgets |
| ContextBuilder.TakeSummary | src/agent/context/builder.ts:365-418 | considers the summary and offers it or counts the reason against it |
| ContextBuilder.GroupById | src/agent/context/builder.ts:420-427 | the map lists the replies of each id in input order, and has no other entry |
| ContextBuilder.WalkReplies | src/agent/context/builder.ts:428-471 | the loop over reply pointers computes the recursive walk, its exclusions and the unused rest |
| ContextBuilder.CountKeys | src/agent/context/builder.ts:499-505 | the map counts how often each key occurs |
| ContextBuilder.Gather | src/agent/context/builder.ts:472-599 | filtering, sorting, counting and checking one category gives the model's bin |
| ContextBuilder.Place | src/agent/context/builder.ts:606-676 | offering one candidate is refused for the first reason that applies, or cuts and selects it |
| ContextBuilder.Allocate | src/agent/context/builder.ts:601-678 | the double loop offers every candidate in allocation order |
| ContextIntake.GatheredAccounts | src/agent/context/builder.ts:472-599 | every entry of a category becomes one candidate or one counted exclusion |
| ContextIntake.GatheredAgrees | src/agent/context/builder.ts:494-599 | when no two different accepted entries of a category tie, any order of the entries gives the same candidates in the same order, the same counters and reasons |
| ContextIntake.TiedSlicesFollowInput | src/agent/context/builder.ts:532-541 | two slices that tie in every compared field keep their input order, so there the order shows |
| ContextIntake.SliceOrderIff | src/agent/context/builder.ts:522-567 | the slices in any order give the same candidates, counters and reasons exactly when no two different accepted slices tie in every compared field |
| ContextIntake.DistinctIdsDoNotTie | src/agent/context/builder.ts:535-541 | when all slice ids are distinct no two accepted slices tie |
| ContextIntake.WalkAccounts | src/agent/context/builder.ts:428-467 | every reply the walk uses is an ancestor or an exclusion; an id met twice adds one exclusion |
| ContextIntake.WalkConsumes | src/agent/context/builder.ts:428-471 | the walk never uses a reply twice |
| ContextIntake.WalkFollows | src/agent/context/builder.ts:428-467 | the ancestors found are what the reply pointers name, one after the other, each before the one it answers |
| ContextAllocation.OfferAllFair | src/agent/context/builder.ts:601-678 | however many candidates are offered, counters are those of the selected blocks, no limit is passed, and truncation closes its category |
| ContextAllocation.PrefixServed | src/agent/context/builder.ts:601-678 | of candidates with fresh keys a beginning is selected, cut short only when a budget is spent |
| ContextAllocation.DeltaBeyondSummary | src/agent/context/builder.ts:607-615 | after the summary is placed only later messages are selected |
| ContextGuarantees.AccountsBalance | src/agent/context/builder.ts:328-340 | considered = included + excluded in every category, one more for a reply id met twice; reasons add up; used characters and blocks are those returned |
| ContextGuarantees.BudgetsHold | src/agent/context/budget.ts:84-93 | no block or character limit is exceeded, per category or in total |
| ContextGuarantees.CurrentAlwaysIncluded | src/agent/context/builder.ts:342-363 | every context contains the current message |
| ContextGuarantees.TruncatedIsLast | src/agent/context/builder.ts:633-676 | a truncated block is the last selected of its category, and no source is selected twice |
| ContextGuarantees.EveryBlockReadable | src/agent/context/builder.ts:133-150 | every block comes from an input the session may read and is a beginning of it |
| ContextGuarantees.RepliesAreAncestors | src/agent/context/builder.ts:428-467 | the included replies are a gap-free beginning of the ancestor chain with strictly falling sequences, cut short only by a spent budget |
| ContextGuarantees.RepliesAreOneRun | src/agent/context/builder.ts:601-606 | in order of selection the replies are one run right after the opening blocks |
| ContextGuarantees.NoDeltaCovered | src/agent/context/builder.ts:607-615 | no included message is covered by an included untruncated summary |
| ContextFairness.NewestDeltaFirst | src/agent/context/builder.ts:494-498 | a sound, readable, unrepeated and uncovered delta message is missing only when a budget is spent, and then no included delta message is older, nor of the same number with a later id |
| ContextFairness.MostRelevantSliceFirst | src/agent/context/builder.ts:532-538 | a sound, readable, unrepeated slice is missing only when a budget is spent, and then no included slice is less relevant, or ties and comes later by document, place and id |
| ContextFairness.BestHitFirst | src/agent/context/builder.ts:580-585 | a sound, readable, unrepeated hit is missing only when a budget is spent, and then no included hit has a higher rank, or the same rank and a lower score, or ties and has a later id |
| ContextFairness.SoundSummaryShown | src/agent/context/builder.ts:365-418 | a readable summary without any defect is missing only when a budget is spent |
| ContextFairness.CrowdedOut | src/agent/context/builder.ts:601-678 | an offered candidate, in any category, is missing only when its category's limits are spent, or the total is and no later category has a block; and what was included of its category came before it |
| ContextFairness.WalkGoesOn | src/agent/context/builder.ts:428-467 | the reply walk stops only where no reply input extends it |
| ContextFairness.EveryBlockShowable | src/agent/context/builder.ts:133-150 | every block comes from an input that is sound and readable, field by field, and is a beginning of it |
| ContextReasons.FailsIff | src/agent/context/builder.ts:342-363 | a context fails exactly when the budget is unusable or the current message is foreign, numbered badly or unreadable, and the error says which |
| ContextReasons.ProblemsAreCounted | src/agent/context/builder.ts:472-599 | each reason of a category is counted once for every input that has this problem and no earlier one |
| ContextReasons.SummaryProblemIsTrue | src/agent/context/builder.ts:365-418 | a summary is refused for a defect it has, and offered exactly when it is readable and has none |
| ContextReasons.NamedBudgetsAreSpent | src/agent/context/builder.ts:601-650 | every further exclusion names a budget that is spent in the finished context, a summary that covers it, or a repetition |
| ContextReasons.SameSliceIff | src/agent/context/builder.ts:539-540 | two slices have one key exactly when their places are equal and their documents and revisions are, as joined; the same of their dedupe keys with the other separator |
| ContextReasons.DifferentSlicesCollide | src/agent/context/builder.ts:219-219 | two slices of different documents that the intake tells apart and the allocation does not |
| ContextDisplay.EveryBlockPresentsAnInput | src/agent/context/builder.ts:171-262 | every block is the presentation of an input that was given for its category |
| ContextDisplay.BlocksStandInOrder | src/agent/context/builder.ts:680-690 | blocks stand in the reading order of categories, and within one by message sequence, by document and place, or by rank |
| ContextDisplay.TrustIsEarned | src/agent/context/builder.ts:151-169 | name, text and trust of a block are those of its source: only the current message may ask, and exactly what the system said instructs |
| ContextGuarantees.OrderDoesNotMatter | src/agent/context/builder.ts:420-705 | replies, delta, slices (of which no two accepted ones tie) and hits in any order give the same result |
| RoomDigest.BuildSummaryContent | src/agent/room-host/prisma-context-source.ts:638-668 | the trimming loop computes the digest of the stored lines and the new ones |
| RoomDigest.BodyReadsBack | src/agent/room-host/prisma-context-source.ts:638-668 | the lines read back from a stored digest are the lines it was made of |
| RoomDigest.TrimTwice | src/agent/room-host/prisma-context-source.ts:660-668 | trimming before or after more lines arrive makes no difference |
| RoomDigest.TrimDropsFewest | src/agent/room-host/prisma-context-source.ts:660-668 | trimming drops the oldest lines and no more of them than the limit forces |
| RoomDigest.IncrementalIsBatch | src/agent/room-host/prisma-context-source.ts:545-566 | folding A and then B gives the text of folding A and B at once, within the limit |
| RoomDigest.ReloadExtends | src/agent/room-host/prisma-context-source.ts:474-492 | a load on a reusable row folds exactly the messages between the old and the new coverage |
| RoomDigest.ReloadStartsAnew | src/agent/room-host/prisma-context-source.ts:474-492 | a load without a reusable row covers a whole range of messages again |
| RoomDigest.LoadStopsBeforeDelta | src/agent/room-host/prisma-context-source.ts:460-492 | a load that folds messages leaves a row ending before the current message and every message of the delta; unless it filled its limit on a reused row, no message of the room lies after that row and before all of them |
| RoomDigest.LoadedIs | src/agent/room-host/prisma-context-source.ts:460-492 | what a load folds are the messages after the reused row and before the delta: all of them within the limit, else the oldest on a reused row and the newest without one |
| RoomDigest.ToldIsForQuery | src/agent/room-host/prisma-context-source.ts:434-458 | a summary told is of this room, session, version and readers, well formed, and ends before the current message |
| RoomDigest.ForeignRowIsIgnored | src/agent/room-host/prisma-context-source.ts:495-523 | a stored row that is not for the query has no effect on what is told or written |
| RoomDigest.SecondLoadReuses | src/agent/room-host/prisma-context-source.ts:434-492 | a load that left nothing behind is not repeated: the next one folds nothing, keeps the row and tells it |
| RoomDigest.SourceHashChains | src/agent/room-host/prisma-context-source.ts:552-564 | the source hash written is that of the reused row, if any, and the messages folded |
| RoomDigest.ReloadKeepsCover | src/agent/room-host/prisma-context-source.ts:525-611 | a row that is the digest of its range still is after a load |
| RoomDigest.DigestStaysExact | src/agent/room-host/prisma-context-source.ts:434-611 | over any history of messages and loads, by any sessions under any configuration versions, every cached row is the batch digest of exactly the range it names |
| CanonicalJson.Canonicalize | src/agent/context/hash.ts:17-74 | refuses exactly the values that are not plain, and otherwise returns the object that filling in key order builds, its prototype included |
| CanonicalJson.StableJson | src/agent/context/hash.ts:76-84 | the text hashed is that of the canonical form; none for a refused value or a bare undefined |
| CanonicalJson.CanonShape | src/agent/context/hash.ts:17-74 | the canonical form of an array is that of its items with null for undefined, of an object that of its defined members by key, and of anything else itself |
| CanonicalJson.SameCanonIffAgree | src/agent/context/hash.ts:76-84 | two plain values without an own `__proto__` member have one canonical form exactly when they agree up to key order, undefined members, and undefined read as null in arrays |
| CanonicalJson.SameCanonIffVisibleAgree | src/agent/context/hash.ts:64-73 | any two plain values have one canonical form exactly when they agree so in all but their own `__proto__` members |
| CanonicalJson.ToldApartIffNoProto | src/agent/context/hash.ts:64-73 | what is hashed tells a value from every value without such a member that does not agree with it exactly when it has none itself, at any depth |
| CanonicalJson.ProtoMemberIsLost | src/agent/context/hash.ts:64-73 | an object with only an own `__proto__` member is hashed as the empty object |
| CanonicalJson.CanonIsIdempotentIff | src/agent/context/hash.ts:17-74 | canonicalizing a canonical form is accepted and changes nothing exactly when no own `__proto__` member inside held an object or an array |
| CanonicalJson.ForeignPrototypeIsRefused | src/agent/context/hash.ts:42-61 | a value whose canonical form is refused when it is canonicalized again |
| Lifecycle.ReachableIff | src/agent/execution/workspace-lifecycle.ts:143-272 | the receipts advances can reach from nothing are exactly the parse-valid ones whose cleaned stage follows a failed run, or a finalized one with its change request if files changed |
| Lifecycle.ReachableIffCoherent | src/agent/execution/workspace-lifecycle.ts:143-272 | a receipt can come about exactly when all it says hangs together: a finalized stage is of the prepared job, attempt, branch and base and follows a success, a change request follows changed files, a cleanup follows all that was due |
| Lifecycle.AdvancesIff | src/agent/execution/workspace-lifecycle.ts:237-272 | a receipt that came about may be replaced by itself and by the coherent receipts with one stage more, and by no other |
| Lifecycle.FirstIff | src/agent/execution/workspace-lifecycle.ts:237-248 | over nothing, only a coherent receipt without any stage may be written |
| Lifecycle.AtMostFiveAdvances | src/agent/execution/workspace-lifecycle.ts:237-272 | a receipt is written with new content at most five times |
| Lifecycle.MutualAdvanceIsEquality | src/agent/execution/workspace-lifecycle.ts:237-272 | two receipts that advance to each other are equal |
| Lifecycle.StagesNeverChange | src/agent/execution/workspace-lifecycle.ts:249-265 | what a stage says is what it says in every later receipt |
| GitWorktree.FinalizeAnswers | src/agent/knowledge/git-worktree.ts:388-497 | what a finalize run answers is settled by the edits alone; it answers when it has time for its steps; a commit once made is the only one |
| GitWorktree.AnswersRepeat | src/agent/knowledge/git-worktree.ts:388-497 | after any runs cut anywhere, while others move their branches and the default branch forward, an answer once given is repeated by every later run |
| GitWorktree.FinalizeIsContained | src/agent/knowledge/git-worktree.ts:388-497 | whatever runs leave behind, they have moved only the proposal branch, and to a child of the base with the edited tree; every other branch is where others put it |
| GitWorktree.ProposalMovesOnce | src/agent/knowledge/git-worktree.ts:624-701 | the proposal branch moves at most once |
| GitWorktree.NeverSeenAsDrifted | src/agent/knowledge/git-worktree.ts:518-552 | however finalize is cut, recovery never takes the worktree for a foreign one |
| GitWorktree.CleanupAfterFinalize | src/agent/knowledge/git-worktree.ts:503-516 | cleanup then succeeds, can be repeated, and leaves every branch |
| GitWorktree.PrepareResumesIff | src/agent/knowledge/git-worktree.ts:268-380 | a cut prepare can be resumed exactly when it was cut before its directory existed or after its marker was written |
| GitWorktree.PrepareSucceedsIff | src/agent/knowledge/git-worktree.ts:268-380 | from any repository a prepare with time for its steps succeeds exactly when the base stands and all is prepared already, or there is no directory and the branch is new or, where recovery is allowed, still at the base; refused, it changes nothing |
| GitWorktree.FinalizeSucceedsIff | src/agent/knowledge/git-worktree.ts:388-497 | from any repository a finalize with time for its steps answers exactly when base, marker, checked-out branch, author and message are this receipt's, nothing or the whole edit is to be published, and the proposal branch is free; refused, it moves no branch |
| GitWorktree.FinalizeTellsTheTruth | src/agent/knowledge/git-worktree.ts:388-497 | unchanged is told only of a worktree clean on the base and changes nothing; a head told is a child of the base with the edited tree, this author and this message, and the proposal branch shows it |
| GitWorktree.SeenByItsMarks | src/agent/knowledge/git-worktree.ts:518-552 | recovery sees a worktree as absent, prepared or finalized exactly by its marker, branch, head, index and files |
| GitWorktree.CleanupAllowedIff | src/agent/knowledge/git-worktree.ts:503-516 | cleanup is allowed exactly when the base stands and the directory is gone or carries this receipt's marker; it then removes the directory, and otherwise changes nothing |
| GitWorktreePort.LocalGitWorktreePort.PrepareInternal | src/agent/knowledge/git-worktree.ts:268-380 | the repository after a prepare run, cut or not, and its answer |
| GitWorktreePort.LocalGitWorktreePort.FinalizeOrRecover | src/agent/knowledge/git-worktree.ts:388-497 | the repository after a finalize run, cut or not, and its answer |
| GitWorktreePort.LocalGitWorktreePort.RecoverFinalized | src/agent/knowledge/git-worktree.ts:624-701 | the repository after recovering a commit that was already made |
| GitWorktreePort.LocalGitWorktreePort.CleanupOrRecover | src/agent/knowledge/git-worktree.ts:503-516 | the repository after a cleanup and whether it was allowed |
| GitWorktreePort.LocalGitWorktreePort.UpdateRef | src/agent/knowledge/git-worktree.ts:624-701 | moves the ref exactly when it is at the expected commit |
| Attempt.WriteKeepsStore | src/agent/execution/daemon.ts:1507-1539 | a receipt write goes through only for the current generation and only forward, and otherwise changes nothing |
| Attempt.WorktreeOutlivesResult | src/agent/execution/daemon.ts:825-926 | a worktree is removed only once a completion is durable and, for a succeeded run, the finalized result and its change request; never under the owner's runtime |
| Attempt.CompletedOnlyWhenClean | src/agent/execution/prisma-daemon-store.ts:330-365 | an attempt is completed only with a cleaned receipt, or as cancelled without one |
| AttemptOutcome.StatusIsDurable | src/agent/execution/daemon.ts:929-937 | in every run, an attempt completed with a receipt has the status of that receipt's completion, or is cancelled and its reporting worker had been; the store keeps that status and receipt |
| AttemptOutcome.StatusWasReported | src/agent/execution/prisma-daemon-store.ts:330-365 | the status the store shows is one that a worker reported |
| AttemptOutcome.LateCancelIsTold | src/agent/execution/daemon.ts:929-937 | a run in which a worker cancelled late reports its attempt as cancelled over a durable success |
| AttemptOutcome.ReportTellsCompletionIff | src/agent/execution/daemon.ts:929-937 | an accepted report tells the durable completion exactly when its worker was not cancelled or the completion is a cancellation itself |
| AttemptOutcome.CanAlwaysComplete | src/agent/execution/daemon.ts:776-937 | from every reachable state of an open attempt, a further claim can bring it to its end with the durable completion, or with the next one reported |
| AttemptOutcome.ReceiptIsSupplied | src/agent/execution/daemon.ts:776-937 | every stage of the durable receipt says what the run, the finalize, the change request and the removal of some worker reported |
| AttemptWorkers.CompletesIff | src/agent/execution/prisma-daemon-store.ts:330-365 | an attempt is completed exactly under the current generation, while open, and with its receipt cleaned or, without one, as cancelled |
| AttemptWorkers.CancelledNeverStarts | src/agent/execution/daemon.ts:785-810 | a cancelled worker never starts its runtime |
| AttemptWorkers.EndedIsRecorded | src/agent/execution/daemon.ts:785-823 | however the others move in between, the write after a worker's run ends stores the receipt it held with the run's completion, or a cancellation if it was cancelled, exactly when it is still the current holder of an open attempt and the receipt goes forward; otherwise it stores nothing |
| AttemptWorkers.WriteSettles | src/agent/execution/daemon.ts:1507-1539 | a receipt write stores its receipt for the current holder of an open attempt if it goes forward, and otherwise ends the worker |
| AttemptWorkers.OwnerWorksInWorktree | src/agent/execution/daemon.ts:778-926 | while the current holder of an open attempt runs, finalizes or requests, the worktree is there |
| Attempt.OwnerNeverRestarts | src/agent/execution/daemon.ts:785-823 | the lease holder never starts a runtime once a completion is durable |
| Attempt.OvertakenWorkerRestarts | src/agent/execution/daemon.ts:778-792 | a run in which an overtaken worker starts a runtime after the completion |
| AttemptRestarts.RestartsIff | src/agent/execution/daemon.ts:778-823 | an uncancelled worker about to start its runtime can do so after a durable completion, with no new claim, exactly when it has been overtaken and the completion is durable already or the new holder has not stopped |
| AttemptRestarts.TakeoverMakesItPossible | src/agent/execution/daemon.ts:778-823 | with a further claim allowed, every such worker can |
| AttemptRestarts.StoppedHolderPreventsIt | src/agent/execution/daemon.ts:778-823 | an attempt whose overtaken worker cannot, because the new holder stopped before it wrote anything |
| TrustedMerge.TrustedKnowledgeGitPort.Merge | src/agent/knowledge/trusted-merge.ts:121-161 | merged is told exactly for different commits, the base an ancestor of the head, the proposal branch at the head, and the default branch at the base or the head already; the branch moves only then, to the head; each refusal is told for its reason |
| TrustedMerge.TrustedKnowledgeGitPort.CompareAndSwap | src/agent/knowledge/trusted-merge.ts:134-146 | moves the branch exactly when it is at the expected commit |
| TrustedMerge.TrustedKnowledgeGitPort.IsAncestor | src/agent/knowledge/trusted-merge.ts:180-188 | walking up the parents decides ancestry |
| TrustedMerge.StepsAreTheCall | src/agent/knowledge/trusted-merge.ts:121-161 | undisturbed, a merger's four steps are one call |
| TrustedMerge.DefaultOnlyAdvances | src/agent/knowledge/trusted-merge.ts:121-200 | under any interleaving the default branch only moves to strict descendants and never shows a commit again |
| TrustedMerge.SuccessIsReal | src/agent/knowledge/trusted-merge.ts:121-161 | at the moment a success is told the branch is at that head |
| TrustedMerge.MovesWereProposed | src/agent/knowledge/trusted-merge.ts:121-200 | under any interleaving the default branch moves only by a merger whose head descends from the base it stood at, and whose proposal branch was seen at that head since the merger's call |
| TrustedMerge.SuccessWasProposed | src/agent/knowledge/trusted-merge.ts:121-200 | success is told only of a head that the default branch has shown and that the proposal branch stood at since the call |
| TrustedMerge.OutcomeIsTrue | src/agent/knowledge/trusted-merge.ts:121-200 | what a merger is told at a step, success or refusal, is true of the branches at that step |
| TrustedMerge.OneMovePerBase | src/agent/knowledge/trusted-merge.ts:134-146 | after a move from a base no other merger ever moves the branch from that base |
| TrustedMerge.SuccessesAreComparable | src/agent/knowledge/trusted-merge.ts:121-161 | two successes are of one commit or of a commit and its descendant |
| TrustedMerge.TwoHeadsCanSucceed | src/agent/knowledge/trusted-merge.ts:125-128 | a run in which two heads of one base are both reported merged |
| TrustedMerge.BothSucceedIff | src/agent/knowledge/trusted-merge.ts:121-161 | two heads of one base can both be reported merged exactly when one descends from the other |
| Matcher.CollectDuplicateRuntimeIds | src/agent/execution/matcher.ts:323-337 | finds exactly the ids that occur more than once |
| Matcher.CreatePreferenceRanks | src/agent/execution/matcher.ts:339-351 | ranks each preferred id by its first place |
| Matcher.EvaluateCandidate | src/agent/execution/matcher.ts:43-321 | collects every reason against a candidate, in order |
| Matcher.RejectedForIff | src/agent/execution/matcher.ts:43-321 | a reason is given against a candidate exactly when the candidate has that defect |
| Matcher.MatchExecutionRuntime | src/agent/execution/matcher.ts:400-506 | evaluations and selection are those of the model |
| Matcher.EligibleIffFit | src/agent/execution/matcher.ts:43-321 | no reason is collected exactly when every requirement and policy is met |
| Matcher.MoreDemandsNeverHelp | src/agent/execution/matcher.ts:43-321 | asking for more never makes an ineligible candidate eligible |
| Matcher.AutomaticIsBest | src/agent/execution/matcher.ts:357-391 | automatic selection returns a fit candidate that none ranks before, or none exactly when none is fit |
| Matcher.ChosenBeatsEveryOther | src/agent/execution/matcher.ts:357-391 | the candidate chosen automatically is listed before every other fit one in the preference; or neither is listed and it wins by priority, then health, then free slots, then id; and it is told whether preference chose it |
| Matcher.RankedFirst | src/agent/execution/matcher.ts:339-351 | of two ids one is ranked before the other exactly when it is listed first, and neither is ranked exactly when none is listed |
| Matcher.ExplicitIsExact | src/agent/execution/matcher.ts:433-474 | an explicit request selects that runtime if it is registered and fit, and otherwise says which it is not |
| Matcher.OrderDoesNotMatterIff | src/agent/execution/matcher.ts:400-506 | candidates in any order give the same selection or failure exactly when ids are repeated, a runtime is requested by id, or at most one candidate is best |
| Matcher.BestTie | src/agent/execution/matcher.ts:357-391 | two best candidates have equal preference, priority, health and slots, and ids the collation finds equal |
| Matcher.SeparatedIdsDecide | src/agent/execution/matcher.ts:388-390 | a collation that separates different ids leaves one best candidate |
| Matcher.ReasonsAreItsOwn | src/agent/execution/matcher.ts:43-321 | each candidate is found the same reasons wherever it is listed |

## Left out

- Strings the room stores join from parts (event ids, artifact ids, outbox keys) and SHA-256 hashes are values of the parts, so they are taken to be injective; JSON text comparison is equality of values, and 0 and -0 are one number.
- Room stores: `listCandidates`, `load`, custom id factories, the claim's policy and the bound session descriptor; organization scoping, the `active` status column, and the shape and identity validators of the SQL store, except the one that decides which events may end a delivery.
- Room retry: the in-memory interface calls the operation atomic, but the code suspends between storing the failed event and requeueing; the code is followed. `Retry` in a run is the uninterrupted call, and the suspended one is covered by the `ResumedRetry` lemmas.
- RoomRefinement.StoresAgree: does not compare the event part of a cursor, which the SQL store raises at a retry and the in-memory store does not, nor the pending output and the answer to a repeated finish, which `RoomDrafts` and `RoomReplay` settle.
- RoomReplay.DurableAnswersFollow: leaves the event part of a granted cursor at a lower bound, and the envelope of a granted delivery to its sequences and attempt, for the same reason and because the message and its sender are joined in from other tables.
- RoomRefinement.StepRefines: speaks of operations the SQL store's event validator lets through; the in-memory store has no such validator.
- RoomSqlStore: the cursor told for a repeated finish; the id and time of a public event and of an outbox row, and the author of a posted message. Delivery sequences start at one: the code would refuse to tell a cursor for a delivery numbered zero.
- Host: start of the process, the batch limit of a poll, heartbeat timing, context loading and event validation.
- RoomFleet: a store call may take effect at any time after it was made, and more than once; a grant may reach any worker, once.
- Context: text is a sequence of characters standing for UTF-16 units, scores are reals, block hashes, the context hash and the trace hash repeat values that are kept, and the list of exclusions is kept as its counts. Reply inputs are distinct objects.
- ContextGuarantees.OrderDoesNotMatter: for a whole context the condition on slices is sufficient only, because budgets, access and display order can hide a difference that `SliceOrderIff` finds in the gathered slices.
- RoomDigest: redaction and shortening of message text are part of a message's line. The results hold for lines that fit beside the header and contain no newline; the rendering folds white space in the text, but an actor's display name is used as it is. A load that folds nothing tells the stored summary even where it ends inside the delta, as the code does, so `LoadStopsBeforeDelta` is about loads that fold.
- CanonicalJson: cyclic values are not representable, an array has no holes, and keys are in one fixed order. A prototype is that of plain objects, none, or an object or array assigned through `__proto__`.
- Git itself, the file system, path safety and process environments; a clone and a directory removal are single steps; nobody edits the worktree while finalize runs, and others leave the proposal branch alone and only move the default branch forward; the first finalize step that resets the clone has no effect the model sees.
- Attempt: operator discards, quarantine records and attempts without a workspace. The store commands that add a terminal event and a change request, which are not part of this model, are taken to add their stage atomically with the fence. Workers are steps over values rather than a class, because a method cannot be cut between its effects.
- TrustedMerge: reading the diff and comparing its hash, which only adds a refusal before the branch is read; repository and branch name checks.
- Matcher: the locale's collation is a parameter, taken to be a strict weak order.
- User interface, routing, policies, delegation guards, tool policy, registries, process composition and configuration parsing.
