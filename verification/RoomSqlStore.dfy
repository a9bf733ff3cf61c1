/**
 * The durable store: the same protocol as compare-and-swap updates on database
 * rows inside transactions.
 *
 * The functions give the net effect of each transaction. The class carries the
 * transactions out statement by statement: a statement that changes a row repeats
 * its conditions and reports how many rows it changed, and a transaction whose
 * count is wrong gives back the rows it started from.
 */
module RoomSqlStore {
  import opened Prelude
  import opened RoomProtocol

  datatype SessionRow = SessionRow(
    roomId: string, generation: nat, leaseOwnerId: Option<string>, leaseExpiresAt: Option<int>,
    runtimeId: Option<string>, runtimeSessionId: Option<string>, currentDeliveryId: Option<string>,
    lastRoomSequence: nat, lastEventSequence: nat, checkpoint: Option<Checkpoint>)

  datatype DeliveryRow = DeliveryRow(
    roomSessionId: string, deliverySequence: nat, messageSequence: nat, attempt: nat,
    status: Status, availableAt: int, lastError: Option<string>)

  datatype RoomRow = RoomRow(messageSequence: nat, eventSequence: nat)

  /** Primary keys of the event table; the parts stand for the hashes the store joins. */
  datatype RowId =
    | RuntimeRowId(roomSessionId: string, generation: nat, providerEventId: string)
    | TerminalRowId(roomSessionId: string, deliveryId: string)
    | RetryRowId(roomSessionId: string, deliveryId: string, generation: nat)

  datatype Commit = Commit(checkpoint: Option<Checkpoint>, output: Option<Output>, terminal: Terminal)

  datatype EventRow =
    | RuntimeRow(deliveryId: string, event: RuntimeEvent, sequence: nat)
    | TerminalRow(generation: nat, commit: Commit, sequence: nat)
    | RetryRow(nextAttempt: nat, failure: Failure, sequence: nat)

  /** What a room's readers see of an event. */
  datatype PublicData =
    | RuntimeStored(event: RuntimeEvent)
    | MessagePosted(sequence: nat, text: string, mentions: seq<string>, attachments: seq<string>, correlationId: Option<string>)
    | DeliveryEnded(completed: bool, deliveryId: string, roomSessionId: string, terminal: Terminal)
    | DeliveryRequeued(deliveryId: string, generation: nat, nextAttempt: nat, failure: Failure)

  datatype PublicRow = PublicRow(roomId: string, sequence: nat, data: PublicData)
  datatype OutboxRow = OutboxRow(roomId: string, eventSequence: nat)

  /** The event and outbox tables in the order of insertion. */
  datatype PublicLog = PublicLog(events: seq<PublicRow>, outbox: seq<OutboxRow>)

  /** `events` finds the events of deliveries again by key; `log` is what readers get to see. */
  datatype Database = Database(
    sessions: map<string, SessionRow>, deliveries: map<string, DeliveryRow>,
    rooms: map<string, RoomRow>, events: map<RowId, EventRow>, log: PublicLog)

  /** The cursor a worker gets: up to its delivery, and as far as the events that are stored. */
  datatype RowCursor = RowCursor(messageSequence: nat, deliverySequence: int, eventSequence: nat)

  /** What a claim hands out, read back from the claimed rows. */
  datatype RowGrant = RowGrant(
    lease: Lease, runtimeId: string, runtimeSessionId: Option<string>, checkpoint: Option<Checkpoint>, cursor: RowCursor,
    deliverySequence: nat, messageSequence: nat, attempt: nat, pendingOutput: Option<Output>)

  /** What a caller learns; `Broken` stands for an exception raised inside the transaction. */
  datatype SqlReply =
    | NotClaimed
    | ClaimedAs(grant: RowGrant)
    | LeaseRenewed
    | RuntimeBound
    | EventAppended(sequence: nat)
    | EventDuplicate
    | EventChanged
    | CheckpointSaved
    | DeliveryFinished(messageSequence: nat)
    | DeliveryDuplicate
    | TerminalChanged
    | DeliveryRetried
    | LeaseFenced
    | Broken

  predicate Throws(r: SqlReply) {
    r.EventChanged? || r.TerminalChanged? || r.LeaseFenced? || r.Broken?
  }

  // ----- queries

  predicate OpenRow(db: Database, sid: string, id: string) {
    id in db.deliveries && db.deliveries[id].roomSessionId == sid && !Settled(db.deliveries[id].status)
  }

  ghost predicate IsOldestOpen(db: Database, sid: string, id: string) {
    && OpenRow(db, sid, id)
    && forall other | OpenRow(db, sid, other) ::
         db.deliveries[id].deliverySequence <= db.deliveries[other].deliverySequence
  }

  /** The schema's unique index on session and delivery sequence. */
  ghost predicate UniqueSequences(db: Database) {
    forall a, b | a in db.deliveries && b in db.deliveries && a != b ::
      db.deliveries[a].roomSessionId != db.deliveries[b].roomSessionId
      || db.deliveries[a].deliverySequence != db.deliveries[b].deliverySequence
  }

  ghost function OldestOpen(db: Database, sid: string): (r: Option<string>)
    ensures r.Some? ==> IsOldestOpen(db, sid, r.value)
    ensures r.None? ==> forall id :: !IsOldestOpen(db, sid, id)
  {
    if id :| IsOldestOpen(db, sid, id) then Some(id) else None
  }

  lemma OldestIsUnique(db: Database, sid: string, a: string, b: string)
    requires UniqueSequences(db) && IsOldestOpen(db, sid, a) && IsOldestOpen(db, sid, b)
    ensures a == b
  {
  }

  predicate Lapsed(row: SessionRow, now: int) {
    row.leaseExpiresAt.None? || row.leaseExpiresAt.value <= now
  }

  predicate RowClaimable(row: SessionRow, id: string, d: DeliveryRow, now: int) {
    if d.status == Pending then d.availableAt <= now && (row.currentDeliveryId.None? || Lapsed(row, now))
    else d.status == InFlight && row.currentDeliveryId == Some(id) && Lapsed(row, now)
  }

  /** The join of session and delivery rows carries the lease, unexpired, on a claimed delivery. */
  predicate RowOwned(db: Database, lease: Lease, now: int) {
    && lease.roomSessionId in db.sessions && lease.deliveryId in db.deliveries
    && db.deliveries[lease.deliveryId].roomSessionId == lease.roomSessionId
    && db.deliveries[lease.deliveryId].status == InFlight
    && SessionFence(db.sessions[lease.roomSessionId], lease, now)
  }

  predicate SessionFence(row: SessionRow, lease: Lease, now: int) {
    && row.generation == lease.generation && row.leaseOwnerId == Some(lease.workerId)
    && row.currentDeliveryId == Some(lease.deliveryId)
    && row.leaseExpiresAt.Some? && now < row.leaseExpiresAt.value
  }

  /** A message-ready event of this session, delivery and generation. */
  predicate IsDraft(events: map<RowId, EventRow>, sid: string, id: string, generation: nat, e: string) {
    var key := RuntimeRowId(sid, generation, e);
    key in events && events[key].RuntimeRow? && events[key].deliveryId == id && events[key].event.payload.MessageReady?
  }

  ghost predicate IsLatestDraft(events: map<RowId, EventRow>, sid: string, id: string, generation: nat, e: string) {
    && IsDraft(events, sid, id, generation, e)
    && forall other | IsDraft(events, sid, id, generation, other) ::
         events[RuntimeRowId(sid, generation, other)].sequence <= events[RuntimeRowId(sid, generation, e)].sequence
  }

  ghost predicate LatestDraftSays(events: map<RowId, EventRow>, sid: string, id: string, generation: nat, e: string, output: Output) {
    IsLatestDraft(events, sid, id, generation, e) && events[RuntimeRowId(sid, generation, e)].event.payload.output == output
  }

  /** The output of the latest one: what a reclaiming worker may publish without running again. */
  ghost function RowDraft(events: map<RowId, EventRow>, sid: string, id: string, generation: nat): (r: Option<Output>)
    ensures r.None? ==> forall e: string :: !IsLatestDraft(events, sid, id, generation, e)
    ensures r.Some? ==> exists e: string :: LatestDraftSays(events, sid, id, generation, e, r.value)
  {
    assert forall e: string | IsLatestDraft(events, sid, id, generation, e) ::
      LatestDraftSays(events, sid, id, generation, e, events[RuntimeRowId(sid, generation, e)].event.payload.output);
    if e: string :| IsLatestDraft(events, sid, id, generation, e)
    then Some(events[RuntimeRowId(sid, generation, e)].event.payload.output) else None
  }

  /** The schema's unique index on room and event sequence, as far as the runtime events of one session go. */
  ghost predicate DistinctEvents(events: map<RowId, EventRow>) {
    forall sid: string, g: nat, h: nat, e: string, f: string |
      && RuntimeRowId(sid, g, e) in events && RuntimeRowId(sid, h, f) in events && (g != h || e != f)
      && events[RuntimeRowId(sid, g, e)].RuntimeRow? && events[RuntimeRowId(sid, h, f)].RuntimeRow? ::
      events[RuntimeRowId(sid, g, e)].sequence != events[RuntimeRowId(sid, h, f)].sequence
  }

  lemma LatestDraftIs(events: map<RowId, EventRow>, sid: string, id: string, generation: nat, e: string)
    requires DistinctEvents(events) && IsLatestDraft(events, sid, id, generation, e)
    ensures RowDraft(events, sid, id, generation) == Some(events[RuntimeRowId(sid, generation, e)].event.payload.output)
  {
    var f: string :| LatestDraftSays(events, sid, id, generation, f, RowDraft(events, sid, id, generation).value);
  }

  // ----- transactions, as their net effect

  function RuntimeOf(row: SessionRow, fallback: Option<string>): Option<string> {
    if row.runtimeId.Some? then row.runtimeId else fallback
  }

  function GrantRow(sid: string, id: string, row: SessionRow, d: DeliveryRow, workerId: string, runtimeId: string,
                    pendingOutput: Option<Output>): RowGrant
  {
    RowGrant(Lease(sid, id, workerId, row.generation), runtimeId, row.runtimeSessionId, row.checkpoint,
             RowCursor(row.lastRoomSequence, d.deliverySequence - 1, row.lastEventSequence),
             d.deliverySequence, d.messageSequence, d.attempt, pendingOutput)
  }

  /** The generation whose drafts a claim looks for: the one it takes over from, or its own. */
  function DraftGeneration(row: SessionRow, d: DeliveryRow): nat {
    if d.status == InFlight then row.generation else row.generation + 1
  }

  ghost function SqlClaim(db: Database, fallback: Option<string>, sid: string, runtimeId: string,
                          workerId: string, leaseDuration: nat, now: int): (Database, SqlReply)
  {
    var oldest := OldestOpen(db, sid);
    if sid !in db.sessions || oldest.None?
       || RuntimeOf(db.sessions[sid], fallback) != Some(runtimeId)
       || !RowClaimable(db.sessions[sid], oldest.value, db.deliveries[oldest.value], now)
    then (db, NotClaimed)
    else
      var id := oldest.value;
      var row, d := db.sessions[sid], db.deliveries[id];
      var row' := row.(
        generation := row.generation + 1, leaseOwnerId := Some(workerId),
        leaseExpiresAt := Some(now + leaseDuration), runtimeId := Some(runtimeId), currentDeliveryId := Some(id));
      var d' := d.(status := InFlight, attempt := d.attempt + if d.status == InFlight then 1 else 0);
      (db.(sessions := db.sessions[sid := row'], deliveries := db.deliveries[id := d']),
       ClaimedAs(GrantRow(sid, id, row', d', workerId, runtimeId, RowDraft(db.events, sid, id, DraftGeneration(row, d)))))
  }

  function WriteSession(db: Database, sid: string, row: SessionRow): Database {
    db.(sessions := db.sessions[sid := row])
  }

  function SqlHeartbeat(db: Database, lease: Lease, leaseDuration: nat, now: int): (Database, SqlReply) {
    if !RowOwned(db, lease, now) then (db, LeaseFenced)
    else
      (WriteSession(db, lease.roomSessionId,
         db.sessions[lease.roomSessionId].(leaseExpiresAt := Some(now + leaseDuration))), LeaseRenewed)
  }

  function SqlBind(db: Database, lease: Lease, handle: Handle, now: int): (Database, SqlReply) {
    if handle.roomSessionId != lease.roomSessionId || handle.generation != lease.generation
       || !RowOwned(db, lease, now) || db.sessions[lease.roomSessionId].runtimeId != Some(handle.runtimeId)
    then (db, LeaseFenced)
    else
      (WriteSession(db, lease.roomSessionId,
         db.sessions[lease.roomSessionId].(runtimeSessionId := Some(handle.runtimeSessionId))), RuntimeBound)
  }

  predicate SameStored(row: EventRow, lease: Lease, event: RuntimeEvent) {
    row.RuntimeRow? && row.event == event && row.deliveryId == lease.deliveryId
  }

  function Raise(room: RoomRow, messages: nat, events: nat): RoomRow {
    RoomRow(room.messageSequence + messages, room.eventSequence + events)
  }

  function OutboxOf(row: PublicRow): OutboxRow {
    OutboxRow(row.roomId, row.sequence)
  }

  function Announce(log: PublicLog, row: PublicRow): PublicLog {
    PublicLog(log.events + [row], log.outbox + [OutboxOf(row)])
  }

  /** Stores a runtime event once: replays of the same content are recognised by key. */
  function AppendRuntime(db: Database, roomId: string, lease: Lease, event: RuntimeEvent): (Database, SqlReply) {
    var id := RuntimeRowId(lease.roomSessionId, lease.generation, event.eventId);
    if id in db.events then
      (db, if SameStored(db.events[id], lease, event) then EventDuplicate else EventChanged)
    else if roomId !in db.rooms then (db, Broken)
    else
      var room := Raise(db.rooms[roomId], 0, 1);
      (db.(rooms := db.rooms[roomId := room],
           events := db.events[id := RuntimeRow(lease.deliveryId, event, room.eventSequence)],
           log := Announce(db.log, PublicRow(roomId, room.eventSequence, RuntimeStored(event)))),
       EventAppended(room.eventSequence))
  }

  /** The events that end a delivery: a finish or a retry may carry one, an append may not. */
  predicate EndsDelivery(event: RuntimeEvent) {
    event.payload.DeliveryCompleted? || event.payload.RuntimeError?
  }

  /** Stores a runtime event and, when it is new, moves the session row along. */
  function StoreEvent(db: Database, lease: Lease, event: RuntimeEvent): (Database, SqlReply)
    requires lease.roomSessionId in db.sessions
  {
    var row := db.sessions[lease.roomSessionId];
    var (db1, stored) := AppendRuntime(db, row.roomId, lease, event);
    if !stored.EventAppended? then (db, stored)
    else
      (WriteSession(db1, lease.roomSessionId, row.(
         lastEventSequence := stored.sequence,
         checkpoint := if event.payload.CheckpointReady? then Some(event.payload.checkpoint) else row.checkpoint)),
       stored)
  }

  function SqlAppend(db: Database, lease: Lease, event: RuntimeEvent, now: int): (Database, SqlReply) {
    if EndsDelivery(event) then (db, Broken)
    else if !RowOwned(db, lease, now) then (db, LeaseFenced)
    else StoreEvent(db, lease, event)
  }

  function AppendCursor(db: Database, lease: Lease, event: RuntimeEvent, stored: SqlReply): RowCursor
    requires lease.roomSessionId in db.sessions && lease.deliveryId in db.deliveries
    requires stored.EventAppended? || RuntimeRowId(lease.roomSessionId, lease.generation, event.eventId) in db.events
  {
    var row := db.sessions[lease.roomSessionId];
    RowCursor(row.lastRoomSequence, db.deliveries[lease.deliveryId].deliverySequence - 1,
              if stored.EventAppended? then stored.sequence
              else Max(row.lastEventSequence, db.events[RuntimeRowId(lease.roomSessionId, lease.generation, event.eventId)].sequence))
  }

  function SqlPersist(db: Database, lease: Lease, saved: Checkpoint, now: int): (Database, SqlReply) {
    if !RowOwned(db, lease, now) then (db, LeaseFenced)
    else (WriteSession(db, lease.roomSessionId, db.sessions[lease.roomSessionId].(checkpoint := Some(saved))),
          CheckpointSaved)
  }

  function Effective(terminal: Terminal, output: Option<Output>): Option<Output> {
    if IsSuccess(terminal) then output else None
  }

  predicate SameCommit(row: EventRow, lease: Lease, commit: Commit) {
    row.TerminalRow? && row.generation == lease.generation && row.commit == commit
  }

  /** The session row a finish or a retry leaves behind. */
  function Released(row: SessionRow, lastRoomSequence: nat, lastEventSequence: nat,
                    checkpoint: Option<Checkpoint>): SessionRow
  {
    row.(lastRoomSequence := lastRoomSequence, lastEventSequence := lastEventSequence,
         checkpoint := if checkpoint.Some? then checkpoint else row.checkpoint,
         leaseOwnerId := None, leaseExpiresAt := None, currentDeliveryId := None)
  }

  /** The message a finish posts, if any, and the end of the delivery under the room's last two sequences. */
  function FinishAnnounces(log: PublicLog, roomId: string, lease: Lease, terminal: Terminal, posted: Option<Output>,
                           room: RoomRow): PublicLog
    requires posted.Some? ==> 1 <= room.eventSequence
  {
    var log1 :=
      if posted.None? then log
      else Announce(log, PublicRow(roomId, room.eventSequence - 1,
             MessagePosted(room.messageSequence, posted.value.text, posted.value.mentions,
                           posted.value.attachments.GetOr([]), Some(lease.deliveryId))));
    Announce(log1, PublicRow(roomId, room.eventSequence,
      DeliveryEnded(IsSuccess(terminal), lease.deliveryId, lease.roomSessionId, terminal)))
  }

  function SqlFinish(db: Database, lease: Lease, terminal: Terminal, output: Option<Output>,
                     checkpoint: Option<Checkpoint>, now: int): (Database, SqlReply)
  {
    var key := TerminalRowId(lease.roomSessionId, lease.deliveryId);
    var effective := Effective(terminal, output);
    var commit := Commit(checkpoint, effective, terminal);
    if key in db.events then
      (db, if SameCommit(db.events[key], lease, commit) then DeliveryDuplicate else TerminalChanged)
    else if !RowOwned(db, lease, now) then (db, LeaseFenced)
    else
      var row, d := db.sessions[lease.roomSessionId], db.deliveries[lease.deliveryId];
      if row.roomId !in db.rooms || (terminal.ByRuntime? && !EndsDelivery(terminal.event)) then (db, Broken)
      else
        var room := Raise(db.rooms[row.roomId], if effective.Some? then 1 else 0, if effective.Some? then 2 else 1);
        var lastRoomSequence := Max(Max(row.lastRoomSequence, d.messageSequence),
                                    if effective.Some? then room.messageSequence else 0);
        (Database(
           db.sessions[lease.roomSessionId := Released(row, lastRoomSequence, room.eventSequence, checkpoint)],
           db.deliveries[lease.deliveryId := d.(
             status := if IsSuccess(terminal) then Completed else Failed, lastError := TerminalError(terminal))],
           db.rooms[row.roomId := room],
           db.events[key := TerminalRow(lease.generation, commit, room.eventSequence)],
           FinishAnnounces(db.log, row.roomId, lease, terminal, effective, room)),
         DeliveryFinished(lastRoomSequence))
  }

  /** What a retry writes once the failed runtime event, if there is one, is stored. */
  function SqlRequeue(db: Database, lease: Lease, failure: Failure, checkpoint: Option<Checkpoint>, availableAt: int)
    : (Database, SqlReply)
    requires lease.roomSessionId in db.sessions && lease.deliveryId in db.deliveries
  {
    var row, d := db.sessions[lease.roomSessionId], db.deliveries[lease.deliveryId];
    var key := RetryRowId(lease.roomSessionId, lease.deliveryId, lease.generation);
    if row.roomId !in db.rooms || key in db.events then (db, Broken)
    else
      var room := Raise(db.rooms[row.roomId], 0, 1);
      (Database(
         db.sessions[lease.roomSessionId := Released(row, row.lastRoomSequence, room.eventSequence, checkpoint)],
         db.deliveries[lease.deliveryId := d.(
           attempt := d.attempt + 1, status := Pending, availableAt := availableAt, lastError := Some(failure.message))],
         db.rooms[row.roomId := room],
         db.events[key := RetryRow(d.attempt + 1, failure, room.eventSequence)],
         Announce(db.log, PublicRow(row.roomId, room.eventSequence,
           DeliveryRequeued(lease.deliveryId, lease.generation, d.attempt + 1, failure)))),
       DeliveryRetried)
  }

  function SqlRetry(db: Database, lease: Lease, failure: Failure, failedBy: Option<RuntimeEvent>,
                    checkpoint: Option<Checkpoint>, availableAt: int, now: int): (Database, SqlReply)
  {
    if !RowOwned(db, lease, now) then (db, LeaseFenced)
    else if failedBy.Some? && !EndsDelivery(failedBy.value) then (db, Broken)
    else
      var (db1, stored) :=
        if failedBy.Some? then AppendRuntime(db, db.sessions[lease.roomSessionId].roomId, lease, failedBy.value)
        else (db, EventDuplicate);
      if stored == EventChanged || stored == Broken then (db, stored)
      else
        var (db2, r) := SqlRequeue(db1, lease, failure, checkpoint, availableAt);
        if r == Broken then (db, Broken) else (db2, r)
  }

  ghost function SqlApply(db: Database, fallback: Option<string>, op: Operation): (Database, SqlReply) {
    match op
    case Claim(sid, runtimeId, workerId, leaseDuration, now) =>
      SqlClaim(db, fallback, sid, runtimeId, workerId, leaseDuration, now)
    case Heartbeat(lease, leaseDuration, now) => SqlHeartbeat(db, lease, leaseDuration, now)
    case BindRuntime(lease, handle, now) => SqlBind(db, lease, handle, now)
    case AppendEvent(lease, event, now) => SqlAppend(db, lease, event, now)
    case PersistCheckpoint(lease, saved, now) => SqlPersist(db, lease, saved, now)
    case Finish(lease, terminal, output, checkpoint, now) => SqlFinish(db, lease, terminal, output, checkpoint, now)
    case Retry(lease, failure, failedBy, checkpoint, availableAt, now) =>
      SqlRetry(db, lease, failure, failedBy, checkpoint, availableAt, now)
  }

  ghost function SqlRun(db: Database, fallback: Option<string>, ops: seq<Operation>): Database
    decreases |ops|
  {
    if ops == [] then db else SqlRun(SqlApply(db, fallback, ops[0]).0, fallback, ops[1..])
  }

  /** Same deliveries, in the columns of the unique index. */
  ghost predicate IndexKept(db: Database, db': Database) {
    && db'.deliveries.Keys == db.deliveries.Keys
    && forall id | id in db.deliveries ::
         db'.deliveries[id].roomSessionId == db.deliveries[id].roomSessionId
         && db'.deliveries[id].deliverySequence == db.deliveries[id].deliverySequence
  }

  lemma RetryKeepsIndex(db: Database, op: Operation)
    requires op.Retry?
    ensures IndexKept(db, SqlRetry(db, op.lease, op.failure, op.failedBy, op.checkpoint, op.availableAt, op.now).0)
  {
    hide SessionFence, SameStored, EndsDelivery;
  }

  lemma FinishKeepsIndex(db: Database, op: Operation)
    requires op.Finish?
    ensures IndexKept(db, SqlFinish(db, op.lease, op.terminal, op.output, op.checkpoint, op.now).0)
  {
    hide SessionFence, SameCommit, EndsDelivery;
  }

  lemma OtherKeepsIndex(db: Database, fallback: Option<string>, op: Operation)
    requires !op.Retry? && !op.Finish?
    ensures IndexKept(db, SqlApply(db, fallback, op).0)
  {
    hide SqlRetry, SqlFinish, SessionFence, Lapsed, SameStored, EndsDelivery, RowOwned;
  }

  lemma UniqueAfter(db: Database, db': Database)
    requires UniqueSequences(db) && IndexKept(db, db')
    ensures UniqueSequences(db')
  {
  }

  lemma ApplyIs(db: Database, fallback: Option<string>, op: Operation)
    ensures op.Retry? ==> SqlApply(db, fallback, op) == SqlRetry(db, op.lease, op.failure, op.failedBy, op.checkpoint, op.availableAt, op.now)
    ensures op.Finish? ==> SqlApply(db, fallback, op) == SqlFinish(db, op.lease, op.terminal, op.output, op.checkpoint, op.now)
  {
    hide SqlRetry, SqlFinish;
  }

  /** No transaction touches the columns of the unique index. */
  lemma SequencesStayUnique(db: Database, fallback: Option<string>, op: Operation)
    requires UniqueSequences(db)
    ensures UniqueSequences(SqlApply(db, fallback, op).0)
  {
    hide *;
    ApplyIs(db, fallback, op);
    if op.Retry? {
      RetryKeepsIndex(db, op);
    } else if op.Finish? {
      FinishKeepsIndex(db, op);
    } else {
      OtherKeepsIndex(db, fallback, op);
    }
    UniqueAfter(db, SqlApply(db, fallback, op).0);
  }

  // ----- the store, statement by statement

  class PrismaRoomHostStore {
    var sessions: map<string, SessionRow>
    var deliveries: map<string, DeliveryRow>
    var rooms: map<string, RoomRow>
    var events: map<RowId, EventRow>
    var publicEvents: seq<PublicRow>
    var outbox: seq<OutboxRow>
    const fallback: Option<string>

    ghost function Db(): Database
      reads this
    {
      Database(sessions, deliveries, rooms, events, PublicLog(publicEvents, outbox))
    }

    constructor (stored: Database, defaultRuntimeId: Option<string>)
      ensures Db() == stored && fallback == defaultRuntimeId
    {
      sessions, deliveries, rooms, events := stored.sessions, stored.deliveries, stored.rooms, stored.events;
      publicEvents, outbox := stored.log.events, stored.log.outbox;
      fallback := defaultRuntimeId;
    }

    /** Selects the open delivery of a session with the smallest sequence. */
    method LoadOldestDelivery(sid: string) returns (r: Option<string>)
      requires UniqueSequences(Db())
      ensures r == OldestOpen(Db(), sid)
    {
      r := None;
      var unseen := deliveries.Keys;
      while unseen != {}
        invariant unseen <= deliveries.Keys
        invariant r.Some? ==> OpenRow(Db(), sid, r.value)
        invariant forall id | id in deliveries && id !in unseen && OpenRow(Db(), sid, id) ::
          r.Some? && deliveries[r.value].deliverySequence <= deliveries[id].deliverySequence
        decreases unseen
      {
        var id :| id in unseen;
        unseen := unseen - {id};
        var row := deliveries[id];
        if row.roomSessionId == sid && !Settled(row.status)
           && (r.None? || row.deliverySequence < deliveries[r.value].deliverySequence)
        {
          r := Some(id);
        }
      }
      if r.Some? { assert IsOldestOpen(Db(), sid, r.value); }
      ghost var oldest := OldestOpen(Db(), sid);
      if oldest.Some? && r.Some? { OldestIsUnique(Db(), sid, oldest.value, r.value); }
    }

    /** Of the message-ready events of one generation, the one stored last. */
    method LoadPendingOutput(sid: string, id: string, generation: nat) returns (r: Option<Output>)
      requires DistinctEvents(events)
      ensures r == RowDraft(events, sid, id, generation)
    {
      r := None;
      ghost var latest := "";
      var last := 0;
      var unseen := events.Keys;
      while unseen != {}
        invariant unseen <= events.Keys
        invariant r.Some? ==>
          && IsDraft(events, sid, id, generation, latest) && RuntimeRowId(sid, generation, latest) !in unseen
          && last == events[RuntimeRowId(sid, generation, latest)].sequence
          && r.value == events[RuntimeRowId(sid, generation, latest)].event.payload.output
        invariant forall e: string | IsDraft(events, sid, id, generation, e) && RuntimeRowId(sid, generation, e) !in unseen ::
          r.Some? && events[RuntimeRowId(sid, generation, e)].sequence <= last
        decreases unseen
      {
        var key :| key in unseen;
        unseen := unseen - {key};
        if key.RuntimeRowId? && key.roomSessionId == sid && key.generation == generation {
          var row := events[key];
          if row.RuntimeRow? && row.deliveryId == id && row.event.payload.MessageReady? && (r.None? || last < row.sequence) {
            r, last, latest := Some(row.event.payload.output), row.sequence, key.providerEventId;
          }
        }
      }
      if r.Some? {
        assert IsLatestDraft(events, sid, id, generation, latest);
        LatestDraftIs(events, sid, id, generation, latest);
      }
    }

    method Claim(sid: string, runtimeId: string, workerId: string, leaseDuration: nat, now: int) returns (r: SqlReply)
      requires UniqueSequences(Db()) && DistinctEvents(events)
      modifies `sessions, `deliveries
      ensures (Db(), r) == SqlClaim(old(Db()), fallback, sid, runtimeId, workerId, leaseDuration, now)
    {
      var before := sessions;
      r := NotClaimed;
      var oldest := LoadOldestDelivery(sid);
      if oldest.Some? && sid in sessions {
        var id := oldest.value;
        var seen, current := sessions[sid], deliveries[id];
        if RuntimeOf(seen, fallback) == Some(runtimeId) && RowClaimable(seen, id, current, now) {
          var reclaim := current.status == InFlight;
          var updated := UpdateSessionForClaim(sid, id, seen.generation, current.status, runtimeId, workerId,
                                               now + leaseDuration, now);
          if updated == 1 {
            var changed := UpdateDelivery(sid, id, current.status,
              current.(status := InFlight, attempt := current.attempt + if reclaim then 1 else 0));
            if changed == 1 {
              var row, d := sessions[sid], deliveries[id];
              var pendingOutput := LoadPendingOutput(sid, id, if reclaim then seen.generation else row.generation);
              r := ClaimedAs(RowGrant(
                Lease(sid, id, row.leaseOwnerId.GetOr(""), row.generation), row.runtimeId.GetOr(""), row.runtimeSessionId,
                row.checkpoint, RowCursor(row.lastRoomSequence, d.deliverySequence - 1, row.lastEventSequence),
                d.deliverySequence, d.messageSequence, d.attempt, pendingOutput));
            }
          }
        }
      }
      if r.NotClaimed? { sessions := before; }
    }

    /** The compare-and-swap on the session row, with the queue condition in its subquery. */
    method UpdateSessionForClaim(sid: string, id: string, generation: nat, status: Status, runtimeId: string,
                                 workerId: string, expiresAt: int, now: int) returns (changed: nat)
      modifies `sessions
      ensures changed == if
        && sid in old(sessions) && old(sessions)[sid].generation == generation
        && RuntimeOf(old(sessions)[sid], fallback) == Some(runtimeId)
        && (old(sessions)[sid].currentDeliveryId.None? || Lapsed(old(sessions)[sid], now))
        && IsOldestOpen(old(Db()), sid, id) && deliveries[id].status == status
        && (status == Pending ==> deliveries[id].availableAt <= now) then 1 else 0
      ensures changed == 0 ==> sessions == old(sessions)
      ensures changed == 1 ==> sessions == old(sessions)[sid := old(sessions)[sid].(
        generation := generation + 1, leaseOwnerId := Some(workerId), leaseExpiresAt := Some(expiresAt),
        runtimeId := Some(runtimeId), currentDeliveryId := Some(id))]
    {
      if sid !in sessions || id !in deliveries { return 0; }
      var row, d := sessions[sid], deliveries[id];
      if row.generation != generation || RuntimeOf(row, fallback) != Some(runtimeId)
         || !(row.currentDeliveryId.None? || Lapsed(row, now))
         || d.roomSessionId != sid || d.status != status
         || !((d.status == Pending && d.availableAt <= now) || d.status == InFlight)
         || exists earlier :: earlier in deliveries && deliveries[earlier].roomSessionId == sid
              && !Settled(deliveries[earlier].status) && deliveries[earlier].deliverySequence < d.deliverySequence
      {
        return 0;
      }
      sessions := sessions[sid := row.(
        generation := row.generation + 1, leaseOwnerId := Some(workerId), leaseExpiresAt := Some(expiresAt),
        runtimeId := Some(row.runtimeId.GetOr(runtimeId)), currentDeliveryId := Some(id))];
      return 1;
    }

    method UpdateDelivery(sid: string, id: string, expected: Status, row: DeliveryRow) returns (changed: nat)
      modifies `deliveries
      ensures changed == if id in old(deliveries) && old(deliveries)[id].roomSessionId == sid
                            && old(deliveries)[id].status == expected then 1 else 0
      ensures deliveries == if changed == 1 then old(deliveries)[id := row] else old(deliveries)
    {
      if id !in deliveries || deliveries[id].roomSessionId != sid || deliveries[id].status != expected { return 0; }
      deliveries := deliveries[id := row];
      return 1;
    }

    method UpdateFenced(lease: Lease, now: int, row: SessionRow) returns (changed: nat)
      modifies `sessions
      ensures changed == if lease.roomSessionId in old(sessions)
                            && SessionFence(old(sessions)[lease.roomSessionId], lease, now) then 1 else 0
      ensures sessions == if changed == 1 then old(sessions)[lease.roomSessionId := row] else old(sessions)
    {
      if lease.roomSessionId !in sessions || !SessionFence(sessions[lease.roomSessionId], lease, now) { return 0; }
      sessions := sessions[lease.roomSessionId := row];
      return 1;
    }

    /** The session row joined with the leased delivery row, if the lease owns them. */
    method LockOwnedSession(lease: Lease, now: int) returns (owned: bool)
      ensures owned == RowOwned(Db(), lease, now)
    {
      if lease.roomSessionId !in sessions || lease.deliveryId !in deliveries { return false; }
      var row, d := sessions[lease.roomSessionId], deliveries[lease.deliveryId];
      return d.roomSessionId == lease.roomSessionId && row.generation == lease.generation
          && row.leaseOwnerId == Some(lease.workerId) && row.currentDeliveryId == Some(lease.deliveryId)
          && d.status == InFlight && row.leaseExpiresAt.Some? && row.leaseExpiresAt.value > now;
    }

    method Heartbeat(lease: Lease, leaseDuration: nat, now: int) returns (r: SqlReply)
      modifies `sessions
      ensures (Db(), r) == SqlHeartbeat(old(Db()), lease, leaseDuration, now)
    {
      var owned := LockOwnedSession(lease, now);
      if !owned { return LeaseFenced; }
      sessions := sessions[lease.roomSessionId :=
        sessions[lease.roomSessionId].(leaseExpiresAt := Some(now + leaseDuration))];
      return LeaseRenewed;
    }

    method BindRuntime(lease: Lease, handle: Handle, now: int) returns (r: SqlReply)
      modifies `sessions
      ensures (Db(), r) == SqlBind(old(Db()), lease, handle, now)
    {
      if handle.roomSessionId != lease.roomSessionId || handle.generation != lease.generation { return LeaseFenced; }
      var owned := LockOwnedSession(lease, now);
      if !owned || sessions[lease.roomSessionId].runtimeId != Some(handle.runtimeId) { return LeaseFenced; }
      sessions := sessions[lease.roomSessionId := sessions[lease.roomSessionId].(
        runtimeId := Some(handle.runtimeId), runtimeSessionId := Some(handle.runtimeSessionId))];
      return RuntimeBound;
    }

    /** Raises a room's counters; `ok` is false when there is no such room. */
    method AllocateRoomSequences(roomId: string, messages: nat, events_: nat) returns (ok: bool, room: RoomRow)
      modifies `rooms
      ensures ok == (roomId in old(rooms))
      ensures ok ==> room == Raise(old(rooms)[roomId], messages, events_)
      ensures rooms == if ok then old(rooms)[roomId := room] else old(rooms)
    {
      if roomId !in rooms { return false, RoomRow(0, 0); }
      rooms := rooms[roomId := Raise(rooms[roomId], messages, events_)];
      return true, rooms[roomId];
    }

    method InsertPublicEvent(roomId: string, sequence: nat, data: PublicData) returns (row: PublicRow)
      modifies `publicEvents
      ensures row == PublicRow(roomId, sequence, data) && publicEvents == old(publicEvents) + [row]
    {
      row := PublicRow(roomId, sequence, data);
      publicEvents := publicEvents + [row];
    }

    method InsertOutbox(row: PublicRow)
      modifies `outbox
      ensures outbox == old(outbox) + [OutboxOf(row)]
    {
      outbox := outbox + [OutboxRow(row.roomId, row.sequence)];
    }

    /** Every public event comes with its outbox row. */
    method Publish(roomId: string, sequence: nat, data: PublicData)
      modifies `publicEvents, `outbox
      ensures PublicLog(publicEvents, outbox)
           == Announce(PublicLog(old(publicEvents), old(outbox)), PublicRow(roomId, sequence, data))
    {
      var row := InsertPublicEvent(roomId, sequence, data);
      InsertOutbox(row);
    }

    method AppendRuntimeEvent(roomId: string, lease: Lease, event: RuntimeEvent) returns (r: SqlReply)
      modifies `rooms, `events, `publicEvents, `outbox
      ensures (Db(), r) == AppendRuntime(old(Db()), roomId, lease, event)
    {
      var id := RuntimeRowId(lease.roomSessionId, lease.generation, event.eventId);
      if id in events {
        if !SameStored(events[id], lease, event) { return EventChanged; }
        return EventDuplicate;
      }
      var ok, room := AllocateRoomSequences(roomId, 0, 1);
      if !ok { return Broken; }
      events := events[id := RuntimeRow(lease.deliveryId, event, room.eventSequence)];
      Publish(roomId, room.eventSequence, RuntimeStored(event));
      return EventAppended(room.eventSequence);
    }

    /** The end of a transaction: one that raised an exception gives back the rows it began with. */
    method Conclude(r: SqlReply, s: map<string, SessionRow>, d: map<string, DeliveryRow>,
                    q: map<string, RoomRow>, e: map<RowId, EventRow>, p: seq<PublicRow>, o: seq<OutboxRow>)
      modifies `sessions, `deliveries, `rooms, `events, `publicEvents, `outbox
      ensures Db() == if Throws(r) then Database(s, d, q, e, PublicLog(p, o)) else old(Db())
    {
      if Throws(r) { sessions, deliveries, rooms, events, publicEvents, outbox := s, d, q, e, p, o; }
    }

    method AppendEvent(lease: Lease, event: RuntimeEvent, now: int) returns (r: SqlReply, cursor: RowCursor)
      modifies `sessions, `deliveries, `rooms, `events, `publicEvents, `outbox
      ensures (Db(), r) == SqlAppend(old(Db()), lease, event, now)
      ensures r.EventAppended? || r.EventDuplicate? ==>
        && RowOwned(old(Db()), lease, now)
        && (r.EventDuplicate? ==> RuntimeRowId(lease.roomSessionId, lease.generation, event.eventId) in old(events))
        && cursor == AppendCursor(old(Db()), lease, event, r)
    {
      cursor := RowCursor(0, 0, 0);
      if EndsDelivery(event) { return Broken, cursor; }
      var s, d, q, e, p, o := sessions, deliveries, rooms, events, publicEvents, outbox;
      var owned := LockOwnedSession(lease, now);
      if !owned { return LeaseFenced, cursor; }
      var row, delivery := sessions[lease.roomSessionId], deliveries[lease.deliveryId];
      r := AppendRuntimeEvent(row.roomId, lease, event);
      if r.EventAppended? {
        cursor := RowCursor(row.lastRoomSequence, delivery.deliverySequence - 1, r.sequence);
        var updated := UpdateFenced(lease, now, row.(
          lastEventSequence := r.sequence,
          checkpoint := if event.payload.CheckpointReady? then Some(event.payload.checkpoint) else row.checkpoint));
        if updated != 1 { r := LeaseFenced; }
      } else if r.EventDuplicate? {
        var stored := events[RuntimeRowId(lease.roomSessionId, lease.generation, event.eventId)].sequence;
        cursor := RowCursor(row.lastRoomSequence, delivery.deliverySequence - 1, Max(row.lastEventSequence, stored));
      }
      Conclude(r, s, d, q, e, p, o);
    }

    method PersistCheckpoint(lease: Lease, saved: Checkpoint, now: int) returns (r: SqlReply)
      modifies `sessions
      ensures (Db(), r) == SqlPersist(old(Db()), lease, saved, now)
    {
      var owned := LockOwnedSession(lease, now);
      if !owned { return LeaseFenced; }
      var updated := UpdateFenced(lease, now, sessions[lease.roomSessionId].(checkpoint := Some(saved)));
      return if updated == 1 then CheckpointSaved else LeaseFenced;
    }

    method PublishFinish(roomId: string, lease: Lease, terminal: Terminal, posted: Option<Output>, room: RoomRow)
      requires posted.Some? ==> 1 <= room.eventSequence
      modifies `publicEvents, `outbox
      ensures PublicLog(publicEvents, outbox)
           == FinishAnnounces(PublicLog(old(publicEvents), old(outbox)), roomId, lease, terminal, posted, room)
    {
      hide Announce;
      var next := room.eventSequence;
      if posted.Some? {
        next := room.eventSequence - 1;
        var output := posted.value;
        Publish(roomId, next,
          MessagePosted(room.messageSequence, output.text, output.mentions, output.attachments.GetOr([]), Some(lease.deliveryId)));
        next := next + 1;
      }
      Publish(roomId, next, DeliveryEnded(IsSuccess(terminal), lease.deliveryId, lease.roomSessionId, terminal));
    }

    method FinishDelivery(lease: Lease, terminal: Terminal, output: Option<Output>, checkpoint: Option<Checkpoint>, now: int)
      returns (r: SqlReply)
      modifies `sessions, `deliveries, `rooms, `events, `publicEvents, `outbox
      ensures (Db(), r) == SqlFinish(old(Db()), lease, terminal, output, checkpoint, now)
    {
      var s, d, q, e, p, o := sessions, deliveries, rooms, events, publicEvents, outbox;
      var owned := LockOwnedSession(lease, now);
      var key := TerminalRowId(lease.roomSessionId, lease.deliveryId);
      var effective := Effective(terminal, output);
      var commit := Commit(checkpoint, effective, terminal);
      if key in events {
        if !SameCommit(events[key], lease, commit) { return TerminalChanged; }
        return DeliveryDuplicate;
      }
      if !owned { return LeaseFenced; }
      if terminal.ByRuntime? && !EndsDelivery(terminal.event) { return Broken; }
      var locked, delivery := sessions[lease.roomSessionId], deliveries[lease.deliveryId];
      var ok, room := AllocateRoomSequences(locked.roomId, if effective.Some? then 1 else 0, if effective.Some? then 2 else 1);
      r := Broken;
      if ok {
        events := events[key := TerminalRow(lease.generation, commit, room.eventSequence)];
        PublishFinish(locked.roomId, lease, terminal, effective, room);
        var changed := UpdateDelivery(lease.roomSessionId, lease.deliveryId, InFlight, delivery.(
          status := if IsSuccess(terminal) then Completed else Failed, lastError := TerminalError(terminal)));
        var lastRoomSequence := Max(Max(locked.lastRoomSequence, delivery.messageSequence),
                                    if effective.Some? then room.messageSequence else 0);
        var updated := UpdateFenced(lease, now, Released(locked, lastRoomSequence, room.eventSequence, checkpoint));
        r := if changed == 1 && updated == 1 then DeliveryFinished(lastRoomSequence) else LeaseFenced;
      }
      Conclude(r, s, d, q, e, p, o);
    }

    method RetryDelivery(lease: Lease, failure: Failure, failedBy: Option<RuntimeEvent>, checkpoint: Option<Checkpoint>,
                         availableAt: int, now: int) returns (r: SqlReply)
      modifies `sessions, `deliveries, `rooms, `events, `publicEvents, `outbox
      ensures (Db(), r) == SqlRetry(old(Db()), lease, failure, failedBy, checkpoint, availableAt, now)
    {
      var s, d, q, e, p, o := sessions, deliveries, rooms, events, publicEvents, outbox;
      var owned := LockOwnedSession(lease, now);
      if !owned { return LeaseFenced; }
      if failedBy.Some? && !EndsDelivery(failedBy.value) { return Broken; }
      r := EventDuplicate;
      if failedBy.Some? { r := AppendRuntimeEvent(sessions[lease.roomSessionId].roomId, lease, failedBy.value); }
      if !Throws(r) { r := Requeue(lease, failure, checkpoint, availableAt, now); }
      Conclude(r, s, d, q, e, p, o);
    }

    method Requeue(lease: Lease, failure: Failure, checkpoint: Option<Checkpoint>, availableAt: int, now: int)
      returns (r: SqlReply)
      requires RowOwned(Db(), lease, now)
      modifies `sessions, `deliveries, `rooms, `events, `publicEvents, `outbox
      ensures r == SqlRequeue(old(Db()), lease, failure, checkpoint, availableAt).1
      ensures r != Broken ==> Db() == SqlRequeue(old(Db()), lease, failure, checkpoint, availableAt).0
    {
      hide Announce;
      var row, delivery := sessions[lease.roomSessionId], deliveries[lease.deliveryId];
      var ok, room := AllocateRoomSequences(row.roomId, 0, 1);
      var key := RetryRowId(lease.roomSessionId, lease.deliveryId, lease.generation);
      if !ok || key in events { return Broken; }
      events := events[key := RetryRow(delivery.attempt + 1, failure, room.eventSequence)];
      Publish(row.roomId, room.eventSequence,
        DeliveryRequeued(lease.deliveryId, lease.generation, delivery.attempt + 1, failure));
      var changed := UpdateDelivery(lease.roomSessionId, lease.deliveryId, InFlight, delivery.(
        attempt := delivery.attempt + 1, status := Pending, availableAt := availableAt,
        lastError := Some(failure.message)));
      var updated := UpdateFenced(lease, now, Released(row, row.lastRoomSequence, room.eventSequence, checkpoint));
      return if changed == 1 && updated == 1 then DeliveryRetried else LeaseFenced;
    }
  }
}
