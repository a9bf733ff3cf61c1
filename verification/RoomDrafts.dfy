/**
 * The output a reclaiming worker is handed to publish. The process-local store
 * remembers the last one; the durable store looks for it among the events of the
 * generation it takes over from. They agree exactly when that worker wrote one, or
 * nobody did.
 */
module RoomDrafts {
  import opened Prelude
  import opened RoomProtocol
  import opened RoomInvariants
  import opened RoomGuarantees
  import opened RoomLedger
  import opened RoomSqlStore
  import opened RoomRefinement
  import opened RoomSeeds
  import opened RoomHistory
  import opened RoomRecall
  import opened RoomReplay

  /** The output of the last message-ready event stored for the session under this generation. */
  function DraftedUnder(p: Past, sid: string, generation: nat): Option<Output> {
    match p
    case Nothing => None
    case Then(before, op, reply) =>
      if Took(sid, op, reply) && op.AppendEvent? && op.lease.generation == generation && op.event.payload.MessageReady?
      then Some(op.event.payload.output)
      else DraftedUnder(before, sid, generation)
  }

  /** The generation of the last grant. */
  function LastGeneration(seed: Seed, p: Past, sid: string): nat {
    seed.generation.GetOr(0) + Grants(p, sid)
  }

  // ----- the history alone

  /** Nothing is drafted under a generation to come; what the holder drafted is what was drafted last; drafts need a holder. */
  ghost predicate DraftFacts(seed: Seed, p: Past, sid: string) {
    && (forall g: nat | LastGeneration(seed, p, sid) < g :: DraftedUnder(p, sid, g).None?)
    && (Holder(p, sid).None? ==> Drafted(p, sid).None?)
    && (Holder(p, sid).Some? && DraftedUnder(p, sid, LastGeneration(seed, p, sid)).Some? ==>
          DraftedUnder(p, sid, LastGeneration(seed, p, sid)) == Drafted(p, sid))
  }

  lemma NextDraftFacts(seed: Seed, p: Past, op: Operation, r: Reply, sid: string)
    requires DraftFacts(seed, p, sid)
    requires Took(sid, op, r) && !op.Claim? ==>
      Holder(p, sid).Some? && op.lease.generation == LastGeneration(seed, p, sid)
    ensures DraftFacts(seed, Then(p, op, r), sid)
  {
    var q := Then(p, op, r);
    var g := LastGeneration(seed, p, sid);
    assert Grants(q, sid) == Grants(p, sid) + if Took(sid, op, r) && op.Claim? then 1 else 0;
    forall h: nat | LastGeneration(seed, q, sid) < h ensures DraftedUnder(q, sid, h).None? {
      assert DraftedUnder(p, sid, h).None?;
    }
    if Took(sid, op, r) && op.Claim? { assert DraftedUnder(p, sid, g + 1).None?; }
  }

  lemma TakenUnderLease(start: World, p: Past, w: World, op: Operation, sid: string)
    requires Remembers(start, p, w) && Took(sid, op, Apply(w, op).1) && !op.Claim?
    ensures sid in start.sessions && Holder(p, sid).Some?
    ensures op.lease.generation == LastGeneration(start.sessions[sid].seed, p, sid)
  {
    TakenIsOwned(w, op);
    HoldsIffOwned(start, p, w, op.lease, op.now);
    RecallOf(start, p, w, sid);
    hide Apply, Remembers, Owned, RecallsQueue, RecallsEvents, RecallsSettled, RecallsCursor, Holder, Took;
    LeasedTarget(op);
  }

  lemma TakenIsOwned(w: World, op: Operation)
    requires Took(Target(op), op, Apply(w, op).1) && !op.Claim?
    ensures Owned(w, op.lease, op.now) && op.lease.roomSessionId in w.sessions && Target(op) == op.lease.roomSessionId
  {
    LeasedTarget(op);
    if op.Finish? {
      FinishDeclined(w, op);
      FinishTook(w, Nothing, op, Apply(w, op).1);
    } else if op.Retry? {
      RetryForm(w, op);
      RetryTook(w, Nothing, op, Apply(w, op).1);
    } else if op.AppendEvent? {
      AppendForm(w, op.lease, op.event, op.now);
      ApplyAppend(w, op);
      AppendTook(w, Nothing, op, Apply(w, op).1);
    } else {
      LeasedForm(w, op);
    }
    hide Apply, DoAppend, DoFinish, DoRetry;
  }

  lemma {:induction false} DraftsFollow(seeds: seq<Seed>, ops: seq<Operation>, sid: string)
    requires (forall seed | seed in seeds :: ValidSeed(seed)) && SeedWorld(seeds).Some?
    requires sid in SeedWorld(seeds).value.sessions
    ensures DraftFacts(SeedWorld(seeds).value.sessions[sid].seed, Trace(SeedWorld(seeds).value, ops), sid)
    decreases |ops|
  {
    var start := SeedWorld(seeds).value;
    var seed := start.sessions[sid].seed;
    if ops != [] {
      var front, last := ops[..|ops| - 1], ops[|ops| - 1];
      hide Remembers, Apply, Run, Trace, SeedWorld, ValidSeed, DraftFacts, Took, LastGeneration, Holder;
      DraftsFollow(seeds, front, sid);
      RunRemembers(seeds, front);
      var (p, w) := (Trace(start, front), Run(start, front));
      if Took(sid, last, Apply(w, last).1) && !last.Claim? { TakenUnderLease(start, p, w, last, sid); }
      NextDraftFacts(seed, p, last, Apply(w, last).1, sid);
      TraceMore(start, ops);
    }
  }

  // ----- the rows

  /** Runtime events belong to known rooms and are numbered below the room's counter, all differently within a session. */
  ghost predicate RowsNumbered(db: Database) {
    && DistinctEvents(db.events)
    && forall key | key in db.events && key.RuntimeRowId? && db.events[key].RuntimeRow? ::
         && key.roomSessionId in db.sessions && db.sessions[key.roomSessionId].roomId in db.rooms
         && db.events[key].sequence <= db.rooms[db.sessions[key.roomSessionId].roomId].eventSequence
  }

  /** One more runtime event at most, with the room's next number. */
  ghost predicate OneStored(db: Database, db': Database, lease: Lease, event: RuntimeEvent) {
    var key := RuntimeRowId(lease.roomSessionId, lease.generation, event.eventId);
    && lease.roomSessionId in db.sessions && db.sessions[lease.roomSessionId].roomId in db.rooms
    && key !in db.events && key in db'.events
    && db'.events[key] ==
         RuntimeRow(lease.deliveryId, event, db.rooms[db.sessions[lease.roomSessionId].roomId].eventSequence + 1)
    && (forall k: RowId | k.RuntimeRowId? && k != key :: (k in db'.events <==> k in db.events) && (k in db.events ==> db'.events[k] == db.events[k]))
    && db'.rooms.Keys == db.rooms.Keys
    && db.rooms[db.sessions[lease.roomSessionId].roomId].eventSequence < db'.rooms[db.sessions[lease.roomSessionId].roomId].eventSequence
  }

  ghost predicate NoneStored(db: Database, db': Database) {
    forall k: RowId | k.RuntimeRowId? :: (k in db'.events <==> k in db.events) && (k in db.events ==> db'.events[k] == db.events[k])
  }

  ghost predicate RoomsKept(db: Database, db': Database) {
    && db'.sessions.Keys == db.sessions.Keys && (forall sid | sid in db.sessions :: db'.sessions[sid].roomId == db.sessions[sid].roomId)
    && (forall room | room in db.rooms :: room in db'.rooms && db.rooms[room].eventSequence <= db'.rooms[room].eventSequence)
  }

  lemma NumberedAfter(db: Database, db': Database, lease: Lease, event: RuntimeEvent)
    requires RowsNumbered(db) && RoomsKept(db, db') && (NoneStored(db, db') || OneStored(db, db', lease, event))
    ensures RowsNumbered(db')
  {
    var key := RuntimeRowId(lease.roomSessionId, lease.generation, event.eventId);
    forall sid: string, g: nat, h: nat, e: string, f: string |
      && RuntimeRowId(sid, g, e) in db'.events && RuntimeRowId(sid, h, f) in db'.events && (g != h || e != f)
      && db'.events[RuntimeRowId(sid, g, e)].RuntimeRow? && db'.events[RuntimeRowId(sid, h, f)].RuntimeRow?
      ensures db'.events[RuntimeRowId(sid, g, e)].sequence != db'.events[RuntimeRowId(sid, h, f)].sequence
    {
      var (a, b) := (RuntimeRowId(sid, g, e), RuntimeRowId(sid, h, f));
      assert a != key || NoneStored(db, db') ==> a in db.events && db'.events[a] == db.events[a];
      assert b != key || NoneStored(db, db') ==> b in db.events && db'.events[b] == db.events[b];
    }
    forall k | k in db'.events && k.RuntimeRowId? && db'.events[k].RuntimeRow?
      ensures
        && k.roomSessionId in db'.sessions && db'.sessions[k.roomSessionId].roomId in db'.rooms
        && db'.events[k].sequence <= db'.rooms[db'.sessions[k.roomSessionId].roomId].eventSequence
    {
      assert k != key || NoneStored(db, db') ==> k in db.events && db'.events[k] == db.events[k];
    }
  }

  lemma StoreStores(db: Database, lease: Lease, event: RuntimeEvent)
    requires lease.roomSessionId in db.sessions
    ensures
      var (db', r) := AppendRuntime(db, db.sessions[lease.roomSessionId].roomId, lease, event);
      && RoomsKept(db, db') && (if r.EventAppended? then OneStored(db, db', lease, event) else db' == db)
  {
  }

  lemma OwnedRows(db: Database, lease: Lease, now: int)
    requires RowOwned(db, lease, now)
    ensures lease.roomSessionId in db.sessions && lease.deliveryId in db.deliveries
  {
  }

  lemma AppendStores(db: Database, op: Operation)
    requires op.AppendEvent?
    ensures
      var (db', r) := SqlAppend(db, op.lease, op.event, op.now);
      && RoomsKept(db, db') && (if r.EventAppended? then OneStored(db, db', op.lease, op.event) else NoneStored(db, db'))
  {
    if RowOwned(db, op.lease, op.now) {
      OwnedRows(db, op.lease, op.now);
      StoreStores(db, op.lease, op.event);
      hide AppendRuntime, RowOwned;
    }
  }

  lemma RequeueStores(db: Database, lease: Lease, failure: Failure, checkpoint: Option<Checkpoint>, availableAt: int)
    requires lease.roomSessionId in db.sessions && lease.deliveryId in db.deliveries
    ensures
      var db' := SqlRequeue(db, lease, failure, checkpoint, availableAt).0;
      RoomsKept(db, db') && NoneStored(db, db')
  {
  }

  lemma ThenStored(db: Database, db1: Database, db2: Database, lease: Lease, event: RuntimeEvent)
    requires OneStored(db, db1, lease, event) && RoomsKept(db, db1) && NoneStored(db1, db2) && RoomsKept(db1, db2)
    requires db2.rooms.Keys == db1.rooms.Keys
    ensures OneStored(db, db2, lease, event) && RoomsKept(db, db2)
  {
  }

  lemma RequeueRooms(db: Database, lease: Lease, failure: Failure, checkpoint: Option<Checkpoint>, availableAt: int)
    requires lease.roomSessionId in db.sessions && lease.deliveryId in db.deliveries
    ensures SqlRequeue(db, lease, failure, checkpoint, availableAt).0.rooms.Keys == db.rooms.Keys
  {
  }

  lemma RetryStores(db: Database, op: Operation)
    requires op.Retry?
    ensures
      var db' := SqlRetry(db, op.lease, op.failure, op.failedBy, op.checkpoint, op.availableAt, op.now).0;
      && RoomsKept(db, db')
      && (NoneStored(db, db') || (op.failedBy.Some? && !op.failedBy.value.payload.MessageReady? && OneStored(db, db', op.lease, op.failedBy.value)))
  {
    hide RoomsKept, NoneStored, OneStored, AppendRuntime, SqlRequeue, RowOwned;
    NothingStored(db);
    if RowOwned(db, op.lease, op.now) {
      OwnedRows(db, op.lease, op.now);
      RequeueStores(db, op.lease, op.failure, op.checkpoint, op.availableAt);
      if op.failedBy.Some? && EndsDelivery(op.failedBy.value) {
        StoreStores(db, op.lease, op.failedBy.value);
        RowsStay(db, db.sessions[op.lease.roomSessionId].roomId, op.lease, op.failedBy.value);
        var db1 := AppendRuntime(db, db.sessions[op.lease.roomSessionId].roomId, op.lease, op.failedBy.value).0;
        RequeueStores(db1, op.lease, op.failure, op.checkpoint, op.availableAt);
        RequeueRooms(db1, op.lease, op.failure, op.checkpoint, op.availableAt);
        if AppendRuntime(db, db.sessions[op.lease.roomSessionId].roomId, op.lease, op.failedBy.value).1.EventAppended? {
          ThenStored(db, db1, SqlRequeue(db1, op.lease, op.failure, op.checkpoint, op.availableAt).0, op.lease, op.failedBy.value);
        }
      }
    }
  }

  lemma NothingStored(db: Database)
    ensures RoomsKept(db, db) && NoneStored(db, db)
  {
  }

  lemma FinishStoresNone(db: Database, op: Operation)
    requires op.Finish?
    ensures
      var db' := SqlFinish(db, op.lease, op.terminal, op.output, op.checkpoint, op.now).0;
      RoomsKept(db, db') && NoneStored(db, db')
  {
    hide SessionFence, SameCommit, EndsDelivery, FinishAnnounces;
  }

  lemma OtherStoresNone(db: Database, fallback: Option<string>, op: Operation)
    requires !op.AppendEvent? && !op.Retry? && !op.Finish?
    ensures RoomsKept(db, SqlApply(db, fallback, op).0) && NoneStored(db, SqlApply(db, fallback, op).0)
  {
    hide SqlRetry, SqlFinish, SqlAppend, RowDraft, SessionFence;
  }

  /** Each call stores at most one runtime event, and a message-ready one only when it appends it. */
  lemma StoredBy(db: Database, fallback: Option<string>, op: Operation)
    ensures
      var (db', r) := SqlApply(db, fallback, op);
      && RoomsKept(db, db')
      && (NoneStored(db, db')
          || (op.AppendEvent? && r.EventAppended? && OneStored(db, db', op.lease, op.event))
          || (op.Retry? && op.failedBy.Some? && !op.failedBy.value.payload.MessageReady? && OneStored(db, db', op.lease, op.failedBy.value)))
      && (op.AppendEvent? && r.EventAppended? ==> OneStored(db, db', op.lease, op.event))
  {
    hide RoomsKept, NoneStored, OneStored, SqlRetry, SqlFinish, SqlAppend, SqlClaim, SqlHeartbeat, SqlBind, SqlPersist;
    if op.AppendEvent? { AppendStores(db, op); }
    else if op.Retry? { RetryStores(db, op); }
    else if op.Finish? { FinishStoresNone(db, op); }
    else { OtherStoresNone(db, fallback, op); }
  }

  // ----- what the rows say is what the history says

  ghost predicate RowsSay(db: Database, sid: string, id: string, generation: nat, drafted: Option<Output>) {
    match drafted
    case None => forall e: string :: !IsDraft(db.events, sid, id, generation, e)
    case Some(output) => exists e: string :: LatestDraftSays(db.events, sid, id, generation, e, output)
  }

  /** Other sessions' events, and events of other kinds, leave the drafts of a session as they were. */
  lemma SameDrafts(db: Database, db': Database, lease: Lease, event: RuntimeEvent, sid: string, id: string, g: nat, drafted: Option<Output>)
    requires RowsSay(db, sid, id, g, drafted)
    requires NoneStored(db, db')
      || (OneStored(db, db', lease, event) && (lease.roomSessionId != sid || !event.payload.MessageReady?))
    ensures RowsSay(db', sid, id, g, drafted)
  {
    forall e: string ensures IsDraft(db'.events, sid, id, g, e) <==> IsDraft(db.events, sid, id, g, e)
      ensures IsDraft(db.events, sid, id, g, e) ==> db'.events[RuntimeRowId(sid, g, e)] == db.events[RuntimeRowId(sid, g, e)]
    {
      var k := RuntimeRowId(sid, g, e);
      assert k.RuntimeRowId?;
    }
    if drafted.Some? {
      var e: string :| LatestDraftSays(db.events, sid, id, g, e, drafted.value);
      assert LatestDraftSays(db'.events, sid, id, g, e, drafted.value);
    }
  }

  lemma NewDraft(db: Database, db': Database, lease: Lease, event: RuntimeEvent)
    requires RowsNumbered(db) && OneStored(db, db', lease, event) && event.payload.MessageReady?
    ensures RowsSay(db', lease.roomSessionId, lease.deliveryId, lease.generation, Some(event.payload.output))
  {
    var (sid, id, g) := (lease.roomSessionId, lease.deliveryId, lease.generation);
    forall other: string | IsDraft(db'.events, sid, id, g, other)
      ensures db'.events[RuntimeRowId(sid, g, other)].sequence <= db'.events[RuntimeRowId(sid, g, event.eventId)].sequence
    {
      var k := RuntimeRowId(sid, g, other);
      if other != event.eventId { assert k in db.events && db'.events[k] == db.events[k]; }
    }
    assert LatestDraftSays(db'.events, sid, id, g, event.eventId, event.payload.output);
  }

  /** For every delivery in flight, the rows of its generation hold what the history says was drafted under it. */
  ghost predicate DraftsAgree(db: Database, p: Past, w: World) {
    forall sid | sid in w.sessions && w.sessions[sid].currentDeliveryId.Some? ::
      RowsSay(db, sid, w.sessions[sid].currentDeliveryId.value, w.sessions[sid].generation,
              DraftedUnder(p, sid, w.sessions[sid].generation))
  }

  lemma NoRowsToCome(db: Database, w: World, base: map<string, nat>, fallback: Option<string>, sid: string, id: string, g: nat)
    requires Related(db, w, fallback) && WorldInv(w, base) && sid in w.sessions && w.sessions[sid].generation < g
    ensures RowsSay(db, sid, id, g, None)
  {
    InRelation(db, w, fallback, sid);
    InStore(w, base, sid);
    var s := w.sessions[sid];
    forall e: string ensures !IsDraft(db.events, sid, id, g, e) {
      assert RuntimeRowId(sid, g, e) in db.events <==> RuntimeEventId(s.seed.organizationId, sid, g, e) in s.runtimeEvents;
    }
  }

  /** A call that is no claim leaves the lease of a session as it is, if it leaves one. */
  lemma SameLease(start: World, p: Past, w: World, op: Operation, sid: string)
    requires Remembers(start, p, w) && !(Took(sid, op, Apply(w, op).1) && op.Claim?)
    requires Holder(Then(p, op, Apply(w, op).1), sid).Some?
    ensures Holder(p, sid).Some? && Holder(Then(p, op, Apply(w, op).1), sid).value.lease == Holder(p, sid).value.lease
  {
    if Took(sid, op, Apply(w, op).1) {
      TakenIsOwned(w, op);
      HoldsIffOwned(start, p, w, op.lease, op.now);
    }
    hide Apply, Remembers, Owned;
  }

  lemma HolderIs(start: World, p: Past, w: World, sid: string)
    requires Remembers(start, p, w) && sid in w.sessions
    ensures w.sessions[sid].currentDeliveryId.Some? <==> Holder(p, sid).Some?
    ensures Holder(p, sid).Some? ==>
      && w.sessions[sid].currentDeliveryId == Some(Holder(p, sid).value.lease.deliveryId)
      && w.sessions[sid].generation == Holder(p, sid).value.lease.generation
    ensures sid in start.sessions && w.sessions[sid].generation == LastGeneration(start.sessions[sid].seed, p, sid)
  {
    RecallOf(start, p, w, sid);
    hide RecallsQueue, RecallsEvents, RecallsSettled, RecallsCursor, Holder;
  }

  lemma AppendTakenIff(w: World, op: Operation, r': SqlReply)
    requires op.AppendEvent? && SameReply(Apply(w, op).1, r')
    ensures r'.EventAppended? <==> Took(op.lease.roomSessionId, op, Apply(w, op).1)
  {
    AppendTook(w, Nothing, op, Apply(w, op).1);
    hide Apply, SameGrant;
  }

  lemma ClaimStoresNone(db: Database, fallback: Option<string>, op: Operation)
    requires op.Claim?
    ensures NoneStored(db, SqlApply(db, fallback, op).0)
  {
    OtherStoresNone(db, fallback, op);
  }

  lemma SessionDrafts(db: Database, w: World, base: map<string, nat>, fallback: Option<string>, start: World, p: Past, op: Operation,
                      sid: string)
    requires Related(db, w, fallback) && WorldInv(w, base) && Accepted(op) && Remembers(start, p, w) && RowsNumbered(db)
    requires DraftsAgree(db, p, w) && sid in w.sessions && sid in start.sessions
    requires DraftFacts(start.sessions[sid].seed, p, sid)
    requires Remembers(start, Then(p, op, Apply(w, op).1), Apply(w, op).0) && sid in Apply(w, op).0.sessions
    requires Apply(w, op).0.sessions[sid].currentDeliveryId.Some?
    ensures
      var (s', q) := (Apply(w, op).0.sessions[sid], Then(p, op, Apply(w, op).1));
      RowsSay(SqlApply(db, fallback, op).0, sid, s'.currentDeliveryId.value, s'.generation, DraftedUnder(q, sid, s'.generation))
  {
    hide *;
    var ((w', r), (db', r')) := (Apply(w, op), SqlApply(db, fallback, op));
    var (s, s', q) := (w.sessions[sid], w'.sessions[sid], Then(p, op, r));
    HolderIs(start, p, w, sid);
    HolderIs(start, q, w', sid);
    StepRefines(db, w, base, fallback, op);
    StoredBy(db, fallback, op);
    if Took(sid, op, r) && op.Claim? {
      ClaimStoresNone(db, fallback, op);
      NextGeneration(start.sessions[sid].seed, p, op, r, sid);
      NoRowsToCome(db, w, base, fallback, sid, s'.currentDeliveryId.value, s'.generation);
      SameDrafts(db, db', Lease("", "", "", 0), AnyEvent(), sid, s'.currentDeliveryId.value, s'.generation, None);
    } else {
      SameLease(start, p, w, op, sid);
      AgreeAt(db, p, w, sid);
      OtherSteps(db, db', w, r, r', p, op, sid);
    }
  }

  function AnyEvent(): RuntimeEvent {
    RuntimeEvent("", 0, OtherPayload("", ""))
  }

  lemma AgreeAt(db: Database, p: Past, w: World, sid: string)
    requires DraftsAgree(db, p, w) && sid in w.sessions && w.sessions[sid].currentDeliveryId.Some?
    ensures RowsSay(db, sid, w.sessions[sid].currentDeliveryId.value, w.sessions[sid].generation,
                    DraftedUnder(p, sid, w.sessions[sid].generation))
  {
  }

  /** A new claim starts a generation under which nothing was drafted. */
  lemma NextGeneration(seed: Seed, p: Past, op: Operation, r: Reply, sid: string)
    requires DraftFacts(seed, p, sid) && Took(sid, op, r) && op.Claim?
    ensures LastGeneration(seed, p, sid) < LastGeneration(seed, Then(p, op, r), sid)
    ensures DraftedUnder(Then(p, op, r), sid, LastGeneration(seed, Then(p, op, r), sid)).None?
  {
    assert DraftedUnder(p, sid, LastGeneration(seed, p, sid) + 1).None?;
  }

  lemma OtherSteps(db: Database, db': Database, w: World, r: Reply, r': SqlReply, p: Past, op: Operation, sid: string)
    requires RowsNumbered(db) && sid in w.sessions && w.sessions[sid].currentDeliveryId.Some? && !(Took(sid, op, r) && op.Claim?)
    requires NoneStored(db, db')
      || (op.AppendEvent? && r'.EventAppended? && OneStored(db, db', op.lease, op.event))
      || (op.Retry? && op.failedBy.Some? && !op.failedBy.value.payload.MessageReady? && OneStored(db, db', op.lease, op.failedBy.value))
    requires op.AppendEvent? && r'.EventAppended? ==> OneStored(db, db', op.lease, op.event)
    requires
      var s := w.sessions[sid];
      RowsSay(db, sid, s.currentDeliveryId.value, s.generation, DraftedUnder(p, sid, s.generation))
    requires r == Apply(w, op).1 && (AnswersMayDiffer(w, op) || SameReply(r, r'))
    ensures
      var s := w.sessions[sid];
      RowsSay(db', sid, s.currentDeliveryId.value, s.generation, DraftedUnder(Then(p, op, r), sid, s.generation))
  {
    var s := w.sessions[sid];
    MayDifferIsFinish(w, op);
    DraftedNext(p, op, r, sid, s.generation);
    hide *;
    var (id, g, before) := (s.currentDeliveryId.value, s.generation, DraftedUnder(p, sid, s.generation));
    if op.AppendEvent? {
      AppendTakenIff(w, op, r');
      if r'.EventAppended? && op.lease.roomSessionId == sid && op.event.payload.MessageReady? {
        TakenIsOwned(w, op);
        OwnedFields(w, op.lease, op.now);
        NewDraft(db, db', op.lease, op.event);
      } else {
        SameDrafts(db, db', op.lease, op.event, sid, id, g, before);
      }
    } else if op.Retry? && op.failedBy.Some? {
      SameDrafts(db, db', op.lease, op.failedBy.value, sid, id, g, before);
    } else {
      SameDrafts(db, db', Lease("", "", "", 0), AnyEvent(), sid, id, g, before);
    }
  }

  lemma MayDifferIsFinish(w: World, op: Operation)
    ensures AnswersMayDiffer(w, op) ==> op.Finish?
  {
  }

  lemma DraftedNext(p: Past, op: Operation, r: Reply, sid: string, g: nat)
    ensures DraftedUnder(Then(p, op, r), sid, g) ==
      if Took(sid, op, r) && op.AppendEvent? && op.lease.generation == g && op.event.payload.MessageReady?
      then Some(op.event.payload.output) else DraftedUnder(p, sid, g)
    ensures op.AppendEvent? && Took(sid, op, r) ==> op.lease.roomSessionId == sid && Target(op) == sid
  {
  }

  // ----- over every run

  lemma DraftsStep(db: Database, w: World, base: map<string, nat>, fallback: Option<string>, start: World, p: Past, op: Operation)
    requires Related(db, w, fallback) && WorldInv(w, base) && Accepted(op) && Remembers(start, p, w) && RowsNumbered(db)
    requires DraftsAgree(db, p, w)
    requires forall sid | sid in start.sessions :: DraftFacts(start.sessions[sid].seed, p, sid)
    ensures DraftsAgree(SqlApply(db, fallback, op).0, Then(p, op, Apply(w, op).1), Apply(w, op).0)
    ensures RowsNumbered(SqlApply(db, fallback, op).0)
  {
    ApplyRemembers(start, base, p, w, op);
    StoredBy(db, fallback, op);
    if op.AppendEvent? {
      NumberedAfter(db, SqlApply(db, fallback, op).0, op.lease, op.event);
    } else if op.Retry? && op.failedBy.Some? {
      NumberedAfter(db, SqlApply(db, fallback, op).0, op.lease, op.failedBy.value);
    } else {
      NumberedAfter(db, SqlApply(db, fallback, op).0, Lease("", "", "", 0), AnyEvent());
    }
    CountersOf(start, p, w);
    CountersOf(start, Then(p, op, Apply(w, op).1), Apply(w, op).0);
    hide Related, WorldInv, Accepted, Remembers, RowsNumbered, DraftFacts, RowsSay, Apply, SqlApply, RoomsKept, NoneStored, OneStored;
    forall sid | sid in Apply(w, op).0.sessions && Apply(w, op).0.sessions[sid].currentDeliveryId.Some?
      ensures RowsSay(SqlApply(db, fallback, op).0, sid, Apply(w, op).0.sessions[sid].currentDeliveryId.value,
                      Apply(w, op).0.sessions[sid].generation,
                      DraftedUnder(Then(p, op, Apply(w, op).1), sid, Apply(w, op).0.sessions[sid].generation))
    {
      SessionDrafts(db, w, base, fallback, start, p, op, sid);
    }
  }

  /** Everything the two stores and the history share after a run from seeds. */
  ghost predicate Together(seeds: seq<Seed>, fallback: Option<string>, ops: seq<Operation>, db: Database, p: Past, w: World) {
    && SeedWorld(seeds).Some? && db == SqlRun(SeedRows(seeds), fallback, ops) && w == Run(SeedWorld(seeds).value, ops)
    && p == Trace(SeedWorld(seeds).value, ops)
    && Related(db, w, fallback) && WorldInv(w, SeedWorld(seeds).value.roomEventSequences)
    && Remembers(SeedWorld(seeds).value, p, w) && RowsNumbered(db) && DraftsAgree(db, p, w)
  }

  lemma SeededTogether(seeds: seq<Seed>, fallback: Option<string>)
    requires SeedWorld(seeds).Some? && DistinctAcross(seeds) && forall seed | seed in seeds :: ValidSeed(seed)
    ensures Together(seeds, fallback, [], SeedRows(seeds), Nothing, SeedWorld(seeds).value)
  {
    hide *;
    SeededRowsRelate(seeds, fallback);
    SeedWorldInv(seeds);
    SeededRemembers(seeds);
    var (db, w) := (SeedRows(seeds), SeedWorld(seeds).value);
    SeededWithoutEvents(seeds);
    NothingNumbered(db);
    forall sid | sid in w.sessions ensures w.sessions[sid].currentDeliveryId.None? {
      HolderIs(w, Nothing, w, sid);
      NobodyYet(sid);
    }
    NothingAgrees(db, w);
    NoCalls(w, db, fallback);
    TogetherIf(seeds, fallback, [], db, Nothing, w);
  }

  lemma NobodyYet(sid: string)
    ensures Holder(Nothing, sid).None?
  {
  }

  lemma NothingNumbered(db: Database)
    requires db.events == map[]
    ensures RowsNumbered(db)
  {
  }

  lemma NothingAgrees(db: Database, w: World)
    requires forall sid | sid in w.sessions :: w.sessions[sid].currentDeliveryId.None?
    ensures DraftsAgree(db, Nothing, w)
  {
  }

  lemma NoCalls(w: World, db: Database, fallback: Option<string>)
    ensures Run(w, []) == w && Trace(w, []) == Nothing && SqlRun(db, fallback, []) == db
  {
  }

  lemma TogetherIf(seeds: seq<Seed>, fallback: Option<string>, ops: seq<Operation>, db: Database, p: Past, w: World)
    requires SeedWorld(seeds).Some? && db == SqlRun(SeedRows(seeds), fallback, ops) && w == Run(SeedWorld(seeds).value, ops)
    requires p == Trace(SeedWorld(seeds).value, ops)
    requires Related(db, w, fallback) && WorldInv(w, SeedWorld(seeds).value.roomEventSequences)
    requires Remembers(SeedWorld(seeds).value, p, w) && RowsNumbered(db) && DraftsAgree(db, p, w)
    ensures Together(seeds, fallback, ops, db, p, w)
  {
  }

  lemma {:induction false} RunTogether(seeds: seq<Seed>, fallback: Option<string>, ops: seq<Operation>)
    requires SeedWorld(seeds).Some? && DistinctAcross(seeds) && forall seed | seed in seeds :: ValidSeed(seed)
    requires forall op | op in ops :: Accepted(op)
    ensures Together(seeds, fallback, ops, SqlRun(SeedRows(seeds), fallback, ops), Trace(SeedWorld(seeds).value, ops),
                     Run(SeedWorld(seeds).value, ops))
    decreases |ops|
  {
    var start := SeedWorld(seeds).value;
    if ops == [] {
      SeededTogether(seeds, fallback);
    } else {
      var front, last := ops[..|ops| - 1], ops[|ops| - 1];
      assert last in ops && forall op | op in front :: op in ops;
      hide SeedWorld, SeedRows, SqlRun, Run, Trace, Related, WorldInv, Remembers, RowsNumbered, DraftsAgree, Apply, SqlApply,
           ValidSeed, DistinctAcross, Accepted, DraftFacts;
      RunTogether(seeds, fallback, front);
      var (db, p, w, base) := (SqlRun(SeedRows(seeds), fallback, front), Trace(start, front), Run(start, front), start.roomEventSequences);
      forall sid | sid in start.sessions ensures DraftFacts(start.sessions[sid].seed, p, sid) { DraftsFollow(seeds, front, sid); }
      DraftsStep(db, w, base, fallback, start, p, last);
      StepRefines(db, w, base, fallback, last);
      ApplyKeeps(w, base, last);
      ApplyRemembers(start, base, p, w, last);
      OneMore(start, ops);
      TraceMore(start, ops);
      RunSplits(SeedRows(seeds), fallback, ops);
    }
  }

  /** What the durable store hands a claim to publish. */
  function DraftOwed(seed: Seed, p: Past, sid: string): Option<Output> {
    if Holder(p, sid).None? then None else DraftedUnder(p, sid, LastGeneration(seed, p, sid))
  }

  lemma SaidIs(db: Database, sid: string, id: string, g: nat, drafted: Option<Output>)
    requires DistinctEvents(db.events) && RowsSay(db, sid, id, g, drafted)
    ensures RowDraft(db.events, sid, id, g) == drafted
  {
    if drafted.Some? {
      var e: string :| LatestDraftSays(db.events, sid, id, g, e, drafted.value);
      LatestDraftIs(db.events, sid, id, g, e);
    }
  }

  lemma ClaimDraft(db: Database, fallback: Option<string>, op: Operation)
    requires op.Claim? && SqlApply(db, fallback, op).1.ClaimedAs?
    ensures op.roomSessionId in db.sessions
    ensures
      var g := SqlApply(db, fallback, op).1.grant;
      && g.lease.deliveryId in db.deliveries
      && g.pendingOutput == RowDraft(db.events, op.roomSessionId, g.lease.deliveryId,
                                     DraftGeneration(db.sessions[op.roomSessionId], db.deliveries[g.lease.deliveryId]))
  {
    hide RowDraft, RowClaimable, RuntimeOf;
  }

  /** The delivery granted is in flight before the claim exactly when somebody holds the session. */
  lemma GrantedRow(db: Database, w: World, base: map<string, nat>, fallback: Option<string>, start: World, p: Past, op: Operation)
    requires Related(db, w, fallback) && WorldInv(w, base) && Remembers(start, p, w) && op.Claim?
    requires Apply(w, op).1.Granted? && SameReply(Apply(w, op).1, SqlApply(db, fallback, op).1)
    ensures SqlApply(db, fallback, op).1.ClaimedAs? && op.roomSessionId in db.sessions && op.roomSessionId in w.sessions
    ensures
      var (id, s) := (SqlApply(db, fallback, op).1.grant.lease.deliveryId, w.sessions[op.roomSessionId]);
      && id in db.deliveries && db.sessions[op.roomSessionId].generation == s.generation
      && (db.deliveries[id].status == InFlight <==> Holder(p, op.roomSessionId).Some?)
      && (Holder(p, op.roomSessionId).Some? ==> s.currentDeliveryId == Some(id))
  {
    hide *;
    var sid := op.roomSessionId;
    ClaimRefused(w, op);
    GrantsAlikeIn(Apply(w, op).1, SqlApply(db, fallback, op).1);
    ClaimForm(w, op);
    var s := w.sessions[sid];
    var k := FirstOpen(s.deliveries);
    GrantNames(s, ClaimSession(s, k, op.workerId, op.now + op.leaseDuration), k, op.workerId, op.now + op.leaseDuration);
    SameHead(db, w, base, fallback, sid, op.now);
    RecallOf(start, p, w, sid);
    RecallsSplit(start, p, sid, s);
    InFlightIffHeld(w, base, p, sid);
    RowIs(db.sessions[sid], s, fallback, sid, s.deliveries[k]);
    ClaimDraft(db, fallback, op);
    if Holder(p, sid).Some? { HeldIsFirst(w, base, sid, k); }
  }

  lemma GrantsAlikeIn(r: Reply, r': SqlReply)
    requires r.Granted? && SameReply(r, r')
    ensures r'.ClaimedAs? && r'.grant.lease == r.grant.lease
  {
  }

  lemma GrantNames(s: Session, s': Session, k: nat, workerId: string, expiresAt: int)
    requires k < |s.deliveries| && s' == ClaimSession(s, k, workerId, expiresAt)
    ensures k < |s'.deliveries| && GrantFor(s, s', k, workerId).lease.deliveryId == s.deliveries[k].envelope.deliveryId
  {
  }

  lemma RowIs(row: SessionRow, s: Session, fallback: Option<string>, sid: string, d: Delivery)
    requires RowAgrees(row, s, fallback)
    ensures row.generation == s.generation && RowFor(sid, d).status == d.status
  {
  }

  lemma HeldIsFirst(w: World, base: map<string, nat>, sid: string, k: nat)
    requires WorldInv(w, base) && sid in w.sessions && HasClaim(w.sessions[sid].deliveries)
    requires k == FirstOpen(w.sessions[sid].deliveries) && k < |w.sessions[sid].deliveries|
    ensures w.sessions[sid].currentDeliveryId == Some(w.sessions[sid].deliveries[k].envelope.deliveryId)
  {
    LeaseAt(w, base, sid);
  }

  lemma NumberedApart(db: Database)
    requires RowsNumbered(db)
    ensures DistinctEvents(db.events)
  {
  }

  lemma DurableDraft(db: Database, w: World, base: map<string, nat>, fallback: Option<string>, start: World, p: Past, op: Operation)
    requires Related(db, w, fallback) && WorldInv(w, base) && Remembers(start, p, w) && RowsNumbered(db) && DraftsAgree(db, p, w)
    requires op.Claim? && Apply(w, op).1.Granted? && SameReply(Apply(w, op).1, SqlApply(db, fallback, op).1)
    ensures SqlApply(db, fallback, op).1.ClaimedAs? && op.roomSessionId in start.sessions
    ensures SqlApply(db, fallback, op).1.grant.pendingOutput == DraftOwed(start.sessions[op.roomSessionId].seed, p, op.roomSessionId)
  {
    hide *;
    var sid := op.roomSessionId;
    GrantedRow(db, w, base, fallback, start, p, op);
    ClaimDraft(db, fallback, op);
    HolderIs(start, p, w, sid);
    NumberedApart(db);
    var (row, d, id) := (db.sessions[sid], db.deliveries[SqlApply(db, fallback, op).1.grant.lease.deliveryId],
                         SqlApply(db, fallback, op).1.grant.lease.deliveryId);
    GenerationIs(row, d);
    OwedIs(start.sessions[sid].seed, p, sid);
    if Holder(p, sid).Some? {
      AgreeAt(db, p, w, sid);
      SaidIs(db, sid, id, row.generation, DraftedUnder(p, sid, row.generation));
    } else {
      NoRowsToCome(db, w, base, fallback, sid, id, row.generation + 1);
      SaidIs(db, sid, id, row.generation + 1, None);
    }
  }

  lemma GenerationIs(row: SessionRow, d: DeliveryRow)
    ensures DraftGeneration(row, d) == if d.status == InFlight then row.generation else row.generation + 1
  {
  }

  lemma OwedIs(seed: Seed, p: Past, sid: string)
    ensures DraftOwed(seed, p, sid)
      == if Holder(p, sid).None? then None else DraftedUnder(p, sid, LastGeneration(seed, p, sid))
  {
  }

  /**
   * Over every run from seeds: the durable store hands a claim the output last
   * drafted under the generation it takes over from, the process-local store the one
   * last drafted at all since the last finish or retry. They hand out the same exactly
   * when the worker taken over from drafted one itself, or nobody has.
   */
  lemma PendingOutputsAgreeIff(seeds: seq<Seed>, fallback: Option<string>, ops: seq<Operation>, op: Operation)
    requires SeedWorld(seeds).Some? && DistinctAcross(seeds) && forall seed | seed in seeds :: ValidSeed(seed)
    requires (forall before | before in ops :: !WrongKind(before)) && op.Claim?
    requires Apply(Run(SeedWorld(seeds).value, ops), op).1.Granted?
    ensures op.roomSessionId in SeedWorld(seeds).value.sessions
    ensures SqlApply(SqlRun(SeedRows(seeds), fallback, ops), fallback, op).1.ClaimedAs?
    ensures
      var start := SeedWorld(seeds).value;
      var (p, sid) := (Trace(start, ops), op.roomSessionId);
      var seed := start.sessions[sid].seed;
      var here := Apply(Run(start, ops), op).1.grant.pendingOutput;
      var durable := SqlApply(SqlRun(SeedRows(seeds), fallback, ops), fallback, op).1.grant.pendingOutput;
      && here == Drafted(p, sid) && durable == DraftOwed(seed, p, sid)
      && (here == durable <==> Drafted(p, sid).None? || DraftedUnder(p, sid, LastGeneration(seed, p, sid)).Some?)
  {
    hide *;
    var start := SeedWorld(seeds).value;
    var (db, p, w, base) := (SqlRun(SeedRows(seeds), fallback, ops), Trace(start, ops), Run(start, ops), start.roomEventSequences);
    forall before | before in ops ensures Accepted(before) { AcceptedIff(before); }
    RunTogether(seeds, fallback, ops);
    TogetherParts(seeds, fallback, ops, db, p, w);
    ClaimIsAccepted(w, op);
    StepRefines(db, w, base, fallback, op);
    DurableDraft(db, w, base, fallback, start, p, op);
    DraftsFollow(seeds, ops, op.roomSessionId);
    HereIs(start, p, w, op);
    AgreeWhen(start.sessions[op.roomSessionId].seed, p, op.roomSessionId);
  }

  lemma TogetherParts(seeds: seq<Seed>, fallback: Option<string>, ops: seq<Operation>, db: Database, p: Past, w: World)
    requires Together(seeds, fallback, ops, db, p, w)
    ensures SeedWorld(seeds).Some?
    ensures Related(db, w, fallback) && WorldInv(w, SeedWorld(seeds).value.roomEventSequences)
    ensures Remembers(SeedWorld(seeds).value, p, w) && RowsNumbered(db) && DraftsAgree(db, p, w)
  {
  }

  lemma ClaimIsAccepted(w: World, op: Operation)
    requires op.Claim?
    ensures Accepted(op) && !AnswersMayDiffer(w, op)
  {
  }

  lemma HereIs(start: World, p: Past, w: World, op: Operation)
    requires Remembers(start, p, w) && op.Claim? && Apply(w, op).1.Granted?
    ensures Apply(w, op).1.grant.pendingOutput == Drafted(p, op.roomSessionId)
  {
    hide *;
    ClaimRefused(w, op);
    ClaimForm(w, op);
    RecallOf(start, p, w, op.roomSessionId);
    PendingIs(start, p, op.roomSessionId, w.sessions[op.roomSessionId], FirstOpen(w.sessions[op.roomSessionId].deliveries),
              op.workerId, op.now + op.leaseDuration);
  }

  lemma PendingIs(start: World, p: Past, sid: string, s: Session, k: nat, workerId: string, expiresAt: int)
    requires Recalls(start, p, sid, s) && k < |s.deliveries|
    ensures GrantFor(s, ClaimSession(s, k, workerId, expiresAt), k, workerId).pendingOutput == Drafted(p, sid)
  {
    hide RecallsHolder, RecallsQueue, RecallsEvents, RecallsSettled, RecallsCursor;
  }

  lemma AgreeWhen(seed: Seed, p: Past, sid: string)
    requires DraftFacts(seed, p, sid)
    ensures Drafted(p, sid) == DraftOwed(seed, p, sid)
       <==> Drafted(p, sid).None? || DraftedUnder(p, sid, LastGeneration(seed, p, sid)).Some?
  {
  }

  // ----- and they can differ

  /** The lone session is claimable whenever its lease has run out. */
  lemma LoneClaim(w: World, workerId: string, now: int)
    requires "session" in w.sessions && w.sessions["session"].seed == LONE_SEED && |w.sessions["session"].deliveries| == 1
    requires
      var (s, d) := (w.sessions["session"], w.sessions["session"].deliveries[0]);
      && !Settled(d.status) && d.envelope.deliveryId == "delivery"
      && (if d.status == Pending then d.availableAt <= now else s.currentDeliveryId == Some("delivery") && LeaseLapsed(s, now))
    ensures
      var (w', r) := Apply(w, Operation.Claim("session", "runtime", workerId, 10, now));
      && r.Granted? && "session" in w'.sessions
      && var (s, s') := (w.sessions["session"], w'.sessions["session"]);
      && s'.seed == LONE_SEED && s'.generation == s.generation + 1 && s'.leaseOwnerId == Some(workerId)
      && s'.leaseExpiresAt == Some(now + 10) && s'.currentDeliveryId == Some("delivery") && s'.runtimeEvents == s.runtimeEvents
      && |s'.deliveries| == 1 && s'.deliveries[0].status == InFlight && s'.deliveries[0].envelope.deliveryId == "delivery"
  {
    var ds := w.sessions["session"].deliveries;
    assert FirstOpen(ds) == 0;
  }

  lemma LoneAppend(w: World, event: RuntimeEvent)
    requires "session" in w.sessions && w.sessions["session"].runtimeEvents == map[] && Owned(w, LONE_LEASE, 1)
    ensures
      var (w', r) := Apply(w, AppendEvent(LONE_LEASE, event, 1));
      && r.Appended? && "session" in w'.sessions
      && w'.sessions["session"] == w.sessions["session"].(
           runtimeEvents := w'.sessions["session"].runtimeEvents, cursor := w'.sessions["session"].cursor,
           pendingOutput := w'.sessions["session"].pendingOutput, checkpoint := w'.sessions["session"].checkpoint)
  {
  }

  lemma ThreeCalls(start: World, a: Operation, b: Operation, c: Operation)
    ensures
      var (w1, w2) := (Apply(start, a).0, Apply(Apply(start, a).0, b).0);
      && Run(start, [a, b, c]) == Apply(w2, c).0
      && Trace(start, [a, b, c]) == Then(Then(Then(Nothing, a, Apply(start, a).1), b, Apply(w1, b).1), c, Apply(w2, c).1)
  {
    hide Apply;
    assert [a, b, c][..2] == [a, b] && [a, b][..1] == [a] && [a][..0] == [];
    OneMore(start, [a, b, c]);
    OneMore(start, [a, b]);
    OneMore(start, [a]);
    TraceMore(start, [a, b, c]);
    TraceMore(start, [a, b]);
    TraceMore(start, [a]);
    assert Trace(start, []) == Nothing && Run(start, []) == start;
  }

  /** What those calls drafted: an output, but not under the last generation. */
  lemma DraftedBefore(output: Output, r1: Reply, r2: Reply, r3: Reply, a: Operation, b: Operation, c: Operation)
    requires a.Claim? && a.roomSessionId == "session" && r1.Granted? && c.Claim? && c.roomSessionId == "session" && r3.Granted?
    requires b == AppendEvent(LONE_LEASE, RuntimeEvent("e", 1, MessageReady("r", output)), 1) && r2.Appended?
    ensures
      var p := Then(Then(Then(Nothing, a, r1), b, r2), c, r3);
      Drafted(p, "session") == Some(output) && DraftedUnder(p, "session", LastGeneration(LONE_SEED, p, "session")) == None
  {
    var p1 := Then(Nothing, a, r1);
    var p2 := Then(p1, b, r2);
    assert Drafted(p2, "session") == Some(output);
    assert Grants(p1, "session") == 1 && Grants(p2, "session") == 1;
    assert DraftedUnder(p2, "session", 2) == DraftedUnder(p1, "session", 2) == None;
  }

  /**
   * A worker drafts an output and dies, the next one dies before it drafts: the third
   * is handed the output by the process-local store and nothing by the durable one.
   */
  lemma SecondReclaimLosesDraft(fallback: Option<string>, output: Output)
    ensures
      var ops := [Operation.Claim("session", "runtime", "worker", 10, 0),
                  AppendEvent(LONE_LEASE, RuntimeEvent("e", 1, MessageReady("r", output)), 1),
                  Operation.Claim("session", "runtime", "second", 10, 20)];
      var third := Operation.Claim("session", "runtime", "third", 10, 40);
      && SeedWorld([LONE_SEED]).Some?
      && var (r, r') := (Apply(Run(SeedWorld([LONE_SEED]).value, ops), third).1,
                         SqlApply(SqlRun(SeedRows([LONE_SEED]), fallback, ops), fallback, third).1);
      && r.Granted? && r'.ClaimedAs? && r.grant.pendingOutput == Some(output) && r'.grant.pendingOutput == None
  {
    hide *;
    LoneSeedIsValid();
    var w0 := SeedWorld([LONE_SEED]).value;
    LoneSession(w0);
    LoneStart();
    var a := Operation.Claim("session", "runtime", "worker", 10, 0);
    var b := AppendEvent(LONE_LEASE, RuntimeEvent("e", 1, MessageReady("r", output)), 1);
    var c := Operation.Claim("session", "runtime", "second", 10, 20);
    var third := Operation.Claim("session", "runtime", "third", 10, 40);
    PendingMay(w0.sessions["session"].deliveries[0]);
    LoneClaim(w0, "worker", 0);
    var w1 := Apply(w0, a).0;
    LoneOwned(w1);
    LoneAppend(w1, b.event);
    var w2 := Apply(w1, b).0;
    LapsedAt(w2.sessions["session"], 20);
    InFlightMay(w2.sessions["session"].deliveries[0]);
    LoneClaim(w2, "second", 20);
    var w3 := Apply(w2, c).0;
    LapsedAt(w3.sessions["session"], 40);
    InFlightMay(w3.sessions["session"].deliveries[0]);
    LoneClaim(w3, "third", 40);
    ThreeCalls(w0, a, b, c);
    LoneDistinct();
    NoWrongKinds(a, b, c);
    PendingOutputsAgreeIff([LONE_SEED], fallback, [a, b, c], third);
    DraftedBefore(output, Apply(w0, a).1, Apply(w1, b).1, Apply(w2, c).1, a, b, c);
    SeedIs(w0);
    OwedIs(LONE_SEED, Trace(w0, [a, b, c]), "session");
  }

  lemma LoneStart()
    ensures
      var s := SeededSession(LONE_SEED);
      && s.seed == LONE_SEED && s.generation == 0 && |s.deliveries| == 1 && s.runtimeEvents == map[]
      && s.deliveries[0].status == Pending && s.deliveries[0].availableAt == 0
      && s.deliveries[0].envelope.deliveryId == "delivery"
  {
    LoneQueue();
    hide SortedEnvelopes;
  }

  lemma PendingMay(d: Delivery)
    requires d.status == Pending
    ensures !Settled(d.status)
  {
  }

  lemma InFlightMay(d: Delivery)
    requires d.status == InFlight
    ensures !Settled(d.status)
  {
  }

  lemma LapsedAt(s: Session, now: int)
    requires s.leaseExpiresAt.Some? && s.leaseExpiresAt.value <= now
    ensures LeaseLapsed(s, now)
  {
  }

  lemma LoneOwned(w: World)
    requires "session" in w.sessions
    requires
      var s := w.sessions["session"];
      s.generation == 1 && s.leaseOwnerId == Some("worker") && s.leaseExpiresAt == Some(10) && s.currentDeliveryId == Some("delivery")
    ensures Owned(w, LONE_LEASE, 1)
  {
  }

  lemma LoneDistinct()
    ensures DistinctAcross([LONE_SEED])
  {
  }

  lemma NoWrongKinds(a: Operation, b: Operation, c: Operation)
    requires a.Claim? && c.Claim? && b.AppendEvent? && b.event.payload.MessageReady?
    ensures forall op | op in [a, b, c] :: !WrongKind(op)
  {
  }

  lemma SeedIs(w: World)
    requires "session" in w.sessions && w.sessions["session"] == SeededSession(LONE_SEED)
    ensures w.sessions["session"].seed == LONE_SEED
  {
    NamesItsSeed(LONE_SEED);
    hide SeededSession;
  }
}
