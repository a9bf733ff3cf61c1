/**
 * What a room's readers see: the durable store inserts the same public events, in
 * the same order and under the same sequences, as the process-local one publishes,
 * and one outbox row for each.
 */
module RoomPublicLog {
  import opened Prelude
  import opened RoomProtocol
  import opened RoomInvariants
  import opened RoomGuarantees
  import opened RoomSqlStore
  import opened RoomRefinement
  import opened RoomSeeds

  function Shown(data: EventData): PublicData {
    match data
    case RuntimeData(event) => RuntimeStored(event)
    case MessageCreated(m) => MessagePosted(m.sequence, m.text, m.mentions, m.attachments, m.correlationId)
    case DeliverySettled(completed, deliveryId, roomSessionId, terminal, _) =>
      DeliveryEnded(completed, deliveryId, roomSessionId, terminal)
    case DeliveryRetrying(deliveryId, generation, nextAttempt, failure) =>
      DeliveryRequeued(deliveryId, generation, nextAttempt, failure)
  }

  function ShownAs(e: PublicEvent): PublicRow {
    PublicRow(e.roomId, e.sequence, Shown(e.data))
  }

  ghost predicate EventsAlike(log: PublicLog, events: seq<PublicEvent>, outbox: seq<OutboxRecord>) {
    && |log.events| == |events| && (forall i | 0 <= i < |events| :: log.events[i] == ShownAs(events[i]))
    && |log.outbox| == |outbox|
    && forall i | 0 <= i < |outbox| :: log.outbox[i] == OutboxRow(outbox[i].roomId, outbox[i].eventSequence)
  }

  ghost predicate LogsAlike(log: PublicLog, w: World) {
    EventsAlike(log, w.publicEvents, w.outbox)
  }

  lemma AnnouncedAlike(log: PublicLog, w: World, roomId: string, data: EventData, now: int, eventId: EventId)
    requires LogsAlike(log, w)
    ensures
      var row := PublicRow(roomId, Counter(w.roomEventSequences, roomId) + 1, Shown(data));
      LogsAlike(Announce(log, row), AppendPublic(w, roomId, data, now, eventId))
  {
  }

  /** A world with the same events and outbox. */
  lemma SameLog(log: PublicLog, w: World, w': World)
    requires LogsAlike(log, w) && w'.publicEvents == w.publicEvents && w'.outbox == w.outbox
    ensures LogsAlike(log, w')
  {
  }

  // ----- runtime events

  lemma StoreLogs(db: Database, lease: Lease, event: RuntimeEvent)
    requires lease.roomSessionId in db.sessions
    ensures
      var roomId := db.sessions[lease.roomSessionId].roomId;
      var (db', r) := StoreEvent(db, lease, event);
      if r.EventAppended?
      then roomId in db.rooms && r.sequence == db.rooms[roomId].eventSequence + 1
           && db'.log == Announce(db.log, PublicRow(roomId, r.sequence, RuntimeStored(event)))
      else db' == db
  {
  }

  lemma MemoryLogs(w: World, lease: Lease, event: RuntimeEvent, now: int)
    ensures
      var (w', r) := DoAppend(w, lease, event, now);
      if r.Appended?
      then lease.roomSessionId in w.sessions
           && var s := w.sessions[lease.roomSessionId];
           var w1 := AppendPublic(w, s.seed.roomId, RuntimeData(event), now, RuntimeKey(s, lease, event));
           w'.publicEvents == w1.publicEvents && w'.outbox == w1.outbox
           && r.cursor.eventSequence == Counter(w.roomEventSequences, s.seed.roomId) + 1
      else w' == w
  {
  }

  lemma RoomOfRow(db: Database, w: World, fallback: Option<string>, sid: string)
    requires Related(db, w, fallback) && sid in w.sessions
    ensures sid in db.sessions && db.sessions[sid].roomId == w.sessions[sid].seed.roomId && db.sessions[sid].roomId in db.rooms
    ensures db.rooms[db.sessions[sid].roomId]
              == RoomRow(Counter(w.roomMessageSequences, w.sessions[sid].seed.roomId),
                         Counter(w.roomEventSequences, w.sessions[sid].seed.roomId))
  {
    InRelation(db, w, fallback, sid);
    RoomsInRelation(db, w, fallback);
    hide Related, QueueAgrees, RuntimeRowsAgree, OutcomeRowsAgree;
  }

  lemma NamesCurrent(w: World, lease: Lease, now: int)
    requires Owned(w, lease, now)
    ensures lease.roomSessionId in w.sessions && w.sessions[lease.roomSessionId].currentDeliveryId == Some(lease.deliveryId)
  {
  }

  lemma StoresLogAlike(db: Database, w: World, base: map<string, nat>, fallback: Option<string>, lease: Lease,
                       event: RuntimeEvent, now: int)
    requires Related(db, w, fallback) && WorldInv(w, base) && Owned(w, lease, now) && LogsAlike(db.log, w)
    ensures lease.roomSessionId in db.sessions
    ensures LogsAlike(StoreEvent(db, lease, event).0.log, DoAppend(w, lease, event, now).0)
  {
    hide *;
    var sid := lease.roomSessionId;
    NamesCurrent(w, lease, now);
    RoomOfRow(db, w, fallback, sid);
    StoreRelates(db, w, base, fallback, lease, event, now);
    StoreLogs(db, lease, event);
    MemoryLogs(w, lease, event, now);
    BothAppended(DoAppend(w, lease, event, now).1, StoreEvent(db, lease, event).1);
    if StoreEvent(db, lease, event).1.EventAppended? {
      var s := w.sessions[sid];
      ShowsRuntime(event);
      AnnouncedAlike(db.log, w, s.seed.roomId, RuntimeData(event), now, RuntimeKey(s, lease, event));
      SameLog(StoreEvent(db, lease, event).0.log,
              AppendPublic(w, s.seed.roomId, RuntimeData(event), now, RuntimeKey(s, lease, event)),
              DoAppend(w, lease, event, now).0);
    }
  }

  lemma BothAppended(r: Reply, r': SqlReply)
    requires SameReply(r, r')
    ensures r.Appended? <==> r'.EventAppended?
    ensures r.Appended? ==> r'.sequence == r.cursor.eventSequence
  {
  }

  lemma ShowsRuntime(event: RuntimeEvent)
    ensures Shown(RuntimeData(event)) == RuntimeStored(event)
  {
  }

  lemma AppendLogsAlike(db: Database, w: World, base: map<string, nat>, fallback: Option<string>, op: Operation)
    requires Related(db, w, fallback) && WorldInv(w, base) && LogsAlike(db.log, w) && Accepted(op) && op.AppendEvent?
    ensures LogsAlike(SqlApply(db, fallback, op).0.log, Apply(w, op).0)
  {
    FenceAlike(db, w, base, fallback, op.lease, op.now);
    if Owned(w, op.lease, op.now) { StoresLogAlike(db, w, base, fallback, op.lease, op.event, op.now); }
    hide Related, WorldInv, Owned, RowOwned, LogsAlike, StoreEvent;
  }

  lemma MemoryAnswers(w: World, lease: Lease, event: RuntimeEvent, now: int)
    requires Owned(w, lease, now) && DoAppend(w, lease, event, now).1 != ReplayChanged
    ensures lease.roomSessionId in w.sessions
    ensures
      var (r, c) := (DoAppend(w, lease, event, now).1, w.sessions[lease.roomSessionId].cursor);
      r == Duplicate(c) || (r.Appended? && r.cursor.messageSequence == c.messageSequence)
  {
    hide AppendPublic;
  }

  lemma StoreAnswers(db: Database, lease: Lease, event: RuntimeEvent)
    requires lease.roomSessionId in db.sessions
    ensures StoreEvent(db, lease, event).1.EventDuplicate? ==>
      RuntimeRowId(lease.roomSessionId, lease.generation, event.eventId) in db.events
  {
  }

  lemma BothAnswer(r: Reply, r': SqlReply)
    requires SameReply(r, r')
    ensures r.Appended? ==> r'.EventAppended? && r'.sequence == r.cursor.eventSequence
    ensures r.Duplicate? ==> r'.EventDuplicate?
  {
  }

  lemma CursorFrom(db: Database, lease: Lease, event: RuntimeEvent, r: Reply, r': SqlReply, s: Session, fallback: Option<string>)
    requires lease.roomSessionId in db.sessions && lease.deliveryId in db.deliveries && RowAgrees(db.sessions[lease.roomSessionId], s, fallback)
    requires r == Duplicate(s.cursor) || (r.Appended? && r.cursor.messageSequence == s.cursor.messageSequence)
    requires r.Appended? ==> r'.EventAppended? && r'.sequence == r.cursor.eventSequence
    requires r.Duplicate? ==>
      r'.EventDuplicate? && RuntimeRowId(lease.roomSessionId, lease.generation, event.eventId) in db.events
    ensures
      var answered := AppendCursor(db, lease, event, r');
      && answered.messageSequence == r.cursor.messageSequence && r.cursor.eventSequence <= answered.eventSequence
      && (r.Appended? ==> answered.eventSequence == r.cursor.eventSequence)
      && answered.deliverySequence + 1 == db.deliveries[lease.deliveryId].deliverySequence
  {
  }

  /**
   * A stored event is answered with the same message part in both stores; a new one
   * with the same event part, a repeated one with at least that. The delivery part of
   * the durable answer always stands just before the delivery being served.
   */
  lemma AppendCursorsAgree(db: Database, w: World, base: map<string, nat>, fallback: Option<string>, lease: Lease,
                           event: RuntimeEvent, now: int)
    requires Related(db, w, fallback) && WorldInv(w, base) && Owned(w, lease, now) && DoAppend(w, lease, event, now).1 != ReplayChanged
    ensures lease.roomSessionId in db.sessions && lease.deliveryId in db.deliveries
    ensures
      var (r, r') := (DoAppend(w, lease, event, now).1, StoreEvent(db, lease, event).1);
      && (r.Appended? || r.Duplicate?)
      && (r'.EventAppended? || RuntimeRowId(lease.roomSessionId, lease.generation, event.eventId) in db.events)
      && var answered := AppendCursor(db, lease, event, r');
      && answered.messageSequence == r.cursor.messageSequence && r.cursor.eventSequence <= answered.eventSequence
      && (r.Appended? ==> answered.eventSequence == r.cursor.eventSequence)
      && answered.deliverySequence + 1 == db.deliveries[lease.deliveryId].deliverySequence
  {
    hide *;
    FenceAlike(db, w, base, fallback, lease, now);
    FenceNames(db, w, lease, now);
    RowInRelation(db, w, fallback, lease.roomSessionId);
    StoreRelates(db, w, base, fallback, lease, event, now);
    MemoryAnswers(w, lease, event, now);
    StoreAnswers(db, lease, event);
    BothAnswer(DoAppend(w, lease, event, now).1, StoreEvent(db, lease, event).1);
    CursorFrom(db, lease, event, DoAppend(w, lease, event, now).1, StoreEvent(db, lease, event).1,
               w.sessions[lease.roomSessionId], fallback);
  }

  // ----- finishes

  lemma SqlFinishLogs(db: Database, op: Operation)
    requires op.Finish? && RowOwned(db, op.lease, op.now)
    requires db.sessions[op.lease.roomSessionId].roomId in db.rooms && (op.terminal.ByRuntime? ==> EndsDelivery(op.terminal.event))
    requires TerminalRowId(op.lease.roomSessionId, op.lease.deliveryId) !in db.events
    ensures
      var roomId := db.sessions[op.lease.roomSessionId].roomId;
      var posted := Effective(op.terminal, op.output);
      SqlFinish(db, op.lease, op.terminal, op.output, op.checkpoint, op.now).0.log
        == FinishAnnounces(db.log, roomId, op.lease, op.terminal, posted,
                           RoomAfterFinish(db.rooms[roomId], posted.Some?))
  {
    hide FinishAnnounces, Released;
  }

  /** The message a finish publishes and its terminal event, as the process-local store appends them. */
  function FinishedLog(w: World, s: Session, lease: Lease, terminal: Terminal, output: Option<Output>, now: int): World {
    var publishes := IsSuccess(terminal) && output.Some?;
    var w1 := if publishes then PublishOutput(w, s, lease, output.value, now) else w;
    var id := if publishes then Some(AgentMessage(w, s, output.value, now).messageId) else None;
    AppendPublic(w1, s.seed.roomId,
      DeliverySettled(IsSuccess(terminal), lease.deliveryId, s.seed.roomSessionId, terminal, id), now,
      ArtifactOf(s, lease, TerminalArtifact))
  }

  lemma MemoryFinishLogs(w: World, op: Operation)
    requires op.Finish? && Owned(w, op.lease, op.now) && !AlreadyFinished(w, op.lease, op.terminal)
    requires IndexOf(w.sessions[op.lease.roomSessionId].deliveries, op.lease.deliveryId)
               < |w.sessions[op.lease.roomSessionId].deliveries|
    ensures
      var w' := DoFinish(w, op.lease, op.terminal, op.output, op.checkpoint, op.now).0;
      var w2 := FinishedLog(w, w.sessions[op.lease.roomSessionId], op.lease, op.terminal, op.output, op.now);
      w'.publicEvents == w2.publicEvents && w'.outbox == w2.outbox
  {
    hide AlreadyFinished, Owned, FinishSession, PublishOutput;
  }

  lemma PublishedAlike(log: PublicLog, w: World, s: Session, lease: Lease, output: Output, now: int)
    requires LogsAlike(log, w) && s.currentDeliveryId == Some(lease.deliveryId)
    ensures
      var posted := MessagePosted(Counter(w.roomMessageSequences, s.seed.roomId) + 1, output.text, output.mentions,
                                  output.attachments.GetOr([]), Some(lease.deliveryId));
      var w' := PublishOutput(w, s, lease, output, now);
      && LogsAlike(Announce(log, PublicRow(s.seed.roomId, Counter(w.roomEventSequences, s.seed.roomId) + 1, posted)), w')
      && Counter(w'.roomEventSequences, s.seed.roomId) == Counter(w.roomEventSequences, s.seed.roomId) + 1
  {
    var m := AgentMessage(w, s, output, now);
    var w1 := AppendMessage(w, m);
    SameLog(log, w, w1);
    AnnouncedAlike(log, w1, s.seed.roomId, MessageCreated(m), now, ArtifactOf(s, lease, MessageArtifact));
    hide LogsAlike, Announce, ArtifactOf;
  }

  lemma FinishedAlikeIn(log: PublicLog, w: World, s: Session, lease: Lease, terminal: Terminal, output: Option<Output>, now: int)
    requires LogsAlike(log, w) && s.currentDeliveryId == Some(lease.deliveryId) && s.seed.roomSessionId == lease.roomSessionId
    ensures
      var room := RoomRow(Counter(w.roomMessageSequences, s.seed.roomId), Counter(w.roomEventSequences, s.seed.roomId));
      var posted := Effective(terminal, output);
      LogsAlike(FinishAnnounces(log, s.seed.roomId, lease, terminal, posted, RoomAfterFinish(room, posted.Some?)),
                FinishedLog(w, s, lease, terminal, output, now))
  {
    hide LogsAlike, Announce, AppendPublic, PublishOutput, ArtifactOf, Counter;
    var publishes := IsSuccess(terminal) && output.Some?;
    var id := if publishes then Some(AgentMessage(w, s, output.value, now).messageId) else None;
    var ended := DeliverySettled(IsSuccess(terminal), lease.deliveryId, s.seed.roomSessionId, terminal, id);
    if publishes {
      PublishedAlike(log, w, s, lease, output.value, now);
      var posted := MessagePosted(Counter(w.roomMessageSequences, s.seed.roomId) + 1, output.value.text, output.value.mentions,
                                  output.value.attachments.GetOr([]), Some(lease.deliveryId));
      var log1 := Announce(log, PublicRow(s.seed.roomId, Counter(w.roomEventSequences, s.seed.roomId) + 1, posted));
      AnnouncedAlike(log1, PublishOutput(w, s, lease, output.value, now), s.seed.roomId, ended, now, ArtifactOf(s, lease, TerminalArtifact));
    } else {
      AnnouncedAlike(log, w, s.seed.roomId, ended, now, ArtifactOf(s, lease, TerminalArtifact));
    }
  }

  lemma OpenIsUnsettled(w: World, base: map<string, nat>, lease: Lease, terminal: Terminal, now: int)
    requires WorldInv(w, base) && Owned(w, lease, now)
    ensures !AlreadySettled(w, lease) && !AlreadyFinished(w, lease, terminal)
    ensures w.sessions[lease.roomSessionId].seed.roomSessionId == lease.roomSessionId
    ensures IndexOf(w.sessions[lease.roomSessionId].deliveries, lease.deliveryId) < |w.sessions[lease.roomSessionId].deliveries|
  {
    OwnedIsCurrent(w, base, lease, now);
    InStore(w, base, lease.roomSessionId);
    hide WorldInv, SessionInv;
  }

  lemma FinishUnownedLogs(db: Database, w: World, op: Operation)
    requires op.Finish? && !RowOwned(db, op.lease, op.now) && !Owned(w, op.lease, op.now)
    ensures SqlFinish(db, op.lease, op.terminal, op.output, op.checkpoint, op.now).0 == db
    ensures DoFinish(w, op.lease, op.terminal, op.output, op.checkpoint, op.now).0 == w
  {
    hide RowOwned, Owned;
  }

  lemma FinishLogsAlike(db: Database, w: World, base: map<string, nat>, fallback: Option<string>, op: Operation)
    requires Related(db, w, fallback) && WorldInv(w, base) && LogsAlike(db.log, w) && op.Finish?
    requires op.terminal.ByRuntime? ==> EndsDelivery(op.terminal.event)
    ensures LogsAlike(SqlFinish(db, op.lease, op.terminal, op.output, op.checkpoint, op.now).0.log,
                      DoFinish(w, op.lease, op.terminal, op.output, op.checkpoint, op.now).0)
  {
    hide *;
    FenceAlike(db, w, base, fallback, op.lease, op.now);
    if Owned(w, op.lease, op.now) {
      var sid := op.lease.roomSessionId;
      NamesCurrent(w, op.lease, op.now);
      OpenIsUnsettled(w, base, op.lease, op.terminal, op.now);
      SettledRow(db, w, fallback, op.lease);
      RoomOfRow(db, w, fallback, sid);
      SqlFinishLogs(db, op);
      MemoryFinishLogs(w, op);
      FinishedAlikeIn(db.log, w, w.sessions[sid], op.lease, op.terminal, op.output, op.now);
      SameLog(SqlFinish(db, op.lease, op.terminal, op.output, op.checkpoint, op.now).0.log,
              FinishedLog(w, w.sessions[sid], op.lease, op.terminal, op.output, op.now),
              DoFinish(w, op.lease, op.terminal, op.output, op.checkpoint, op.now).0);
    } else {
      FinishUnownedLogs(db, w, op);
    }
  }

  // ----- retries

  lemma RequeueLogs(db: Database, lease: Lease, failure: Failure, checkpoint: Option<Checkpoint>, availableAt: int)
    requires lease.roomSessionId in db.sessions && lease.deliveryId in db.deliveries
    ensures
      var roomId := db.sessions[lease.roomSessionId].roomId;
      var (db', r) := SqlRequeue(db, lease, failure, checkpoint, availableAt);
      if r == Broken then db' == db
      else roomId in db.rooms
           && db'.log == Announce(db.log, PublicRow(roomId, db.rooms[roomId].eventSequence + 1,
                DeliveryRequeued(lease.deliveryId, lease.generation, db.deliveries[lease.deliveryId].attempt + 1, failure)))
  {
    hide Released;
  }

  lemma CommitLogsAlike(log: PublicLog, w: World, lease: Lease, k: nat, failure: Failure, checkpoint: Option<Checkpoint>,
                        availableAt: int, now: int)
    requires LogsAlike(log, w) && lease.roomSessionId in w.sessions && k < |w.sessions[lease.roomSessionId].deliveries|
    ensures
      var (s, e) := (w.sessions[lease.roomSessionId], w.sessions[lease.roomSessionId].deliveries[k].envelope);
      LogsAlike(Announce(log, PublicRow(s.seed.roomId, Counter(w.roomEventSequences, s.seed.roomId) + 1,
                  DeliveryRequeued(e.deliveryId, lease.generation, e.attempt + 1, failure))),
                CommitRetry(w, lease, k, failure, checkpoint, availableAt, now))
  {
    var (s, e) := (w.sessions[lease.roomSessionId], w.sessions[lease.roomSessionId].deliveries[k].envelope);
    AnnouncedAlike(log, w, s.seed.roomId, DeliveryRetrying(e.deliveryId, lease.generation, e.attempt + 1, failure), now,
                   ArtifactOf(s, lease, RetryArtifact));
    hide Announce, RetrySession, ArtifactOf;
  }

  lemma RequeueLogsAlike(db: Database, w: World, lease: Lease, k: nat, failure: Failure, checkpoint: Option<Checkpoint>,
                         availableAt: int, now: int)
    requires LogsAlike(db.log, w) && lease.roomSessionId in w.sessions && k < |w.sessions[lease.roomSessionId].deliveries|
    requires lease.roomSessionId in db.sessions && lease.deliveryId in db.deliveries
    requires
      var (s, roomId) := (w.sessions[lease.roomSessionId], db.sessions[lease.roomSessionId].roomId);
      && roomId == s.seed.roomId && s.deliveries[k].envelope.deliveryId == lease.deliveryId
      && (roomId in db.rooms ==> db.rooms[roomId].eventSequence == Counter(w.roomEventSequences, roomId))
      && db.deliveries[lease.deliveryId].attempt == s.deliveries[k].envelope.attempt
    requires SqlRequeue(db, lease, failure, checkpoint, availableAt).1.DeliveryRetried?
    ensures LogsAlike(SqlRequeue(db, lease, failure, checkpoint, availableAt).0.log,
                      CommitRetry(w, lease, k, failure, checkpoint, availableAt, now))
  {
    hide SqlRequeue, CommitRetry, Announce, LogsAlike, Counter;
    RequeueLogs(db, lease, failure, checkpoint, availableAt);
    CommitLogsAlike(db.log, w, lease, k, failure, checkpoint, availableAt, now);
  }

  /** Storing a runtime event on its own and as part of an append insert the same rows. */
  lemma StoresTheSame(db: Database, lease: Lease, event: RuntimeEvent)
    requires lease.roomSessionId in db.sessions
    ensures
      var db1 := AppendRuntime(db, db.sessions[lease.roomSessionId].roomId, lease, event).0;
      var db2 := StoreEvent(db, lease, event).0;
      db1.log == db2.log && db1.rooms == db2.rooms
    ensures lease.roomSessionId in StoreEvent(db, lease, event).0.sessions
    ensures StoreEvent(db, lease, event).0.sessions[lease.roomSessionId].roomId == db.sessions[lease.roomSessionId].roomId
  {
    hide SameStored, Announce;
  }

  lemma RowOfHead(db: Database, w: World, base: map<string, nat>, fallback: Option<string>, lease: Lease, now: int, k: nat)
    requires Related(db, w, fallback) && WorldInv(w, base) && Owned(w, lease, now)
    requires lease.roomSessionId in w.sessions && k == IndexOf(w.sessions[lease.roomSessionId].deliveries, lease.deliveryId)
    ensures k < |w.sessions[lease.roomSessionId].deliveries| && lease.deliveryId in db.deliveries
    ensures
      var e := w.sessions[lease.roomSessionId].deliveries[k].envelope;
      e.deliveryId == lease.deliveryId && db.deliveries[lease.deliveryId].attempt == e.attempt
  {
    SameFence(db, w, base, fallback, lease, now);
    hide Related, WorldInv, IndexOf;
  }

  lemma RetryEventLogs(db: Database, w: World, base: map<string, nat>, fallback: Option<string>, lease: Lease,
                       failure: Failure, event: RuntimeEvent, checkpoint: Option<Checkpoint>, availableAt: int, now: int, k: nat)
    requires Related(db, w, fallback) && WorldInv(w, base) && Owned(w, lease, now) && RowOwned(db, lease, now)
    requires LogsAlike(db.log, w) && EndsDelivery(event) && DoAppend(w, lease, event, now).1 != ReplayChanged
    requires lease.roomSessionId in w.sessions && lease.roomSessionId in db.sessions && lease.deliveryId in db.deliveries
    requires k == IndexOf(w.sessions[lease.roomSessionId].deliveries, lease.deliveryId) < |w.sessions[lease.roomSessionId].deliveries|
    ensures LogsAlike(SqlRetry(db, lease, failure, Some(event), checkpoint, availableAt, now).0.log,
                      DoRetry(w, lease, failure, Some(event), checkpoint, availableAt, now).0)
  {
    hide *;
    var sid := lease.roomSessionId;
    var w1, db1 := DoAppend(w, lease, event, now).0, AppendRuntime(db, db.sessions[sid].roomId, lease, event).0;
    StoreRelates(db, w, base, fallback, lease, event, now);
    StoresLogAlike(db, w, base, fallback, lease, event, now);
    StoreKeepsQueue(db, lease, event);
    StoresTheSame(db, lease, event);
    RetryAfterEvent(db, w, base, fallback, lease, failure, event, checkpoint, availableAt, now, k);
    RetryWithEvent(db, w, lease, failure, event, checkpoint, availableAt, now, k, w1, db1);
    RoomOfRow(StoreEvent(db, lease, event).0, w1, fallback, sid);
    RowOfHead(db, w, base, fallback, lease, now, k);
    AppendKeepsQueue(w, lease, event, now);
    RequeueLogsAlike(db1, w1, lease, k, failure, checkpoint, availableAt, now);
  }

  lemma RetryHeldLogs(db: Database, w: World, base: map<string, nat>, fallback: Option<string>, lease: Lease,
                      failure: Failure, failedBy: Option<RuntimeEvent>, checkpoint: Option<Checkpoint>, availableAt: int, now: int)
    requires Related(db, w, fallback) && WorldInv(w, base) && Owned(w, lease, now) && RowOwned(db, lease, now)
    requires LogsAlike(db.log, w) && (failedBy.Some? ==> EndsDelivery(failedBy.value))
    requires lease.roomSessionId in w.sessions && lease.roomSessionId in db.sessions && lease.deliveryId in db.deliveries
    ensures LogsAlike(SqlRetry(db, lease, failure, failedBy, checkpoint, availableAt, now).0.log,
                      DoRetry(w, lease, failure, failedBy, checkpoint, availableAt, now).0)
  {
    hide *;
    var sid := lease.roomSessionId;
    var k := IndexOf(w.sessions[sid].deliveries, lease.deliveryId);
    RowOfHead(db, w, base, fallback, lease, now, k);
    if failedBy.None? {
      RequeueRelates(db, w, base, fallback, lease, k, failure, checkpoint, availableAt, now);
      RetryPlain(db, w, lease, failure, checkpoint, availableAt, now, k);
      RoomOfRow(db, w, fallback, sid);
      RequeueLogsAlike(db, w, lease, k, failure, checkpoint, availableAt, now);
    } else if DoAppend(w, lease, failedBy.value, now).1 == ReplayChanged {
      StoreRelates(db, w, base, fallback, lease, failedBy.value, now);
      StoreKeepsQueue(db, lease, failedBy.value);
      ChangedAlike(w, lease, failedBy.value, now, AppendRuntime(db, db.sessions[sid].roomId, lease, failedBy.value).1);
      RetryChanged(db, w, lease, failure, failedBy.value, checkpoint, availableAt, now);
    } else {
      RetryEventLogs(db, w, base, fallback, lease, failure, failedBy.value, checkpoint, availableAt, now, k);
    }
  }

  lemma RetryLogsAlike(db: Database, w: World, base: map<string, nat>, fallback: Option<string>, op: Operation)
    requires Related(db, w, fallback) && WorldInv(w, base) && LogsAlike(db.log, w) && op.Retry?
    requires op.failedBy.Some? ==> EndsDelivery(op.failedBy.value)
    ensures LogsAlike(SqlRetry(db, op.lease, op.failure, op.failedBy, op.checkpoint, op.availableAt, op.now).0.log,
                      DoRetry(w, op.lease, op.failure, op.failedBy, op.checkpoint, op.availableAt, op.now).0)
  {
    hide *;
    FenceAlike(db, w, base, fallback, op.lease, op.now);
    if Owned(w, op.lease, op.now) {
      FenceNames(db, w, op.lease, op.now);
      RetryHeldLogs(db, w, base, fallback, op.lease, op.failure, op.failedBy, op.checkpoint, op.availableAt, op.now);
    } else {
      RetryUnowned(db, w, fallback, op.lease, op.failure, op.failedBy, op.checkpoint, op.availableAt, op.now);
    }
  }

  // ----- every call, and so every run

  lemma OthersLogNothing(db: Database, w: World, fallback: Option<string>, op: Operation)
    requires !op.AppendEvent? && !op.Finish? && !op.Retry?
    ensures SqlApply(db, fallback, op).0.log == db.log
    ensures Apply(w, op).0.publicEvents == w.publicEvents && Apply(w, op).0.outbox == w.outbox
  {
    hide RowOwned, Owned, OldestOpen, RowClaimable, FirstOpen, Claimable;
  }

  lemma StepLogsAlike(db: Database, w: World, base: map<string, nat>, fallback: Option<string>, op: Operation)
    requires Related(db, w, fallback) && WorldInv(w, base) && LogsAlike(db.log, w) && Accepted(op)
    ensures LogsAlike(SqlApply(db, fallback, op).0.log, Apply(w, op).0)
  {
    hide Related, WorldInv, LogsAlike, SqlFinish, SqlRetry, SqlAppend, DoFinish, DoRetry, DoAppend, SqlClaim, DoClaim;
    match op
    case AppendEvent(_, _, _) => AppendLogsAlike(db, w, base, fallback, op);
    case Finish(_, _, _, _, _) => FinishLogsAlike(db, w, base, fallback, op);
    case Retry(_, _, _, _, _, _) => RetryLogsAlike(db, w, base, fallback, op);
    case _ =>
      OthersLogNothing(db, w, fallback, op);
      SameLog(db.log, w, Apply(w, op).0);
  }

  lemma {:induction false} RunLogsAlike(db: Database, w: World, base: map<string, nat>, fallback: Option<string>, ops: seq<Operation>)
    requires Related(db, w, fallback) && WorldInv(w, base) && LogsAlike(db.log, w) && forall op | op in ops :: Accepted(op)
    ensures LogsAlike(SqlRun(db, fallback, ops).log, Run(w, ops))
    decreases |ops|
  {
    hide Related, WorldInv, SqlApply, Apply, LogsAlike;
    if ops != [] {
      assert ops[0] in ops && forall op | op in ops[1..] :: op in ops;
      StepRefines(db, w, base, fallback, ops[0]);
      StepLogsAlike(db, w, base, fallback, ops[0]);
      ApplyKeeps(w, base, ops[0]);
      RunLogsAlike(SqlApply(db, fallback, ops[0]).0, Apply(w, ops[0]).0, base, fallback, ops[1..]);
    }
  }

  lemma {:induction false} SeededEmpty(seeds: seq<Seed>)
    requires SeedWorld(seeds).Some?
    ensures LogsAlike(SeedRows(seeds).log, SeedWorld(seeds).value)
  {
    hide SeededSession, SortedEnvelopes, QueueRows, SeedRow;
    if seeds != [] { SeededEmpty(seeds[..|seeds| - 1]); }
  }

  /**
   * Seeded alike, after any calls with any leases and clocks, readers of the durable
   * store have seen event by event what readers of the process-local one have.
   */
  lemma PublicLogsAgree(seeds: seq<Seed>, fallback: Option<string>, ops: seq<Operation>)
    requires SeedWorld(seeds).Some? && DistinctAcross(seeds) && forall seed | seed in seeds :: ValidSeed(seed)
    requires forall op | op in ops :: Accepted(op)
    ensures LogsAlike(SqlRun(SeedRows(seeds), fallback, ops).log, Run(SeedWorld(seeds).value, ops))
  {
    hide *;
    SeededRowsRelate(seeds, fallback);
    SeedWorldInv(seeds);
    SeededEmpty(seeds);
    RunLogsAlike(SeedRows(seeds), SeedWorld(seeds).value, SeedWorld(seeds).value.roomEventSequences, fallback, ops);
  }

  // ----- the durable log on its own

  /** The rows of one room, in the order of insertion. */
  function RoomRows(rows: seq<PublicRow>, roomId: string): seq<PublicRow> {
    if rows == [] then []
    else
      var last := rows[|rows| - 1];
      RoomRows(rows[..|rows| - 1], roomId) + (if last.roomId == roomId then [last] else [])
  }

  lemma {:induction false} RoomRowsAlike(rows: seq<PublicRow>, events: seq<PublicEvent>, roomId: string)
    requires |rows| == |events| && forall i | 0 <= i < |events| :: rows[i] == ShownAs(events[i])
    ensures
      var (a, b) := (RoomRows(rows, roomId), RoomLog(events, roomId));
      |a| == |b| && forall i | 0 <= i < |b| :: a[i] == ShownAs(b[i])
  {
    hide Shown;
    if events != [] { RoomRowsAlike(rows[..|rows| - 1], events[..|events| - 1], roomId); }
  }

  /**
   * The durable store numbers the events of a room without gap or repeat, whichever
   * sessions write them, and inserts one outbox row for each, in the same order.
   */
  lemma DurableLogIsGapFree(seeds: seq<Seed>, fallback: Option<string>, ops: seq<Operation>, roomId: string)
    requires SeedWorld(seeds).Some? && DistinctAcross(seeds) && forall seed | seed in seeds :: ValidSeed(seed)
    requires forall op | op in ops :: Accepted(op)
    ensures
      var log := SqlRun(SeedRows(seeds), fallback, ops).log;
      var (rows, base) := (RoomRows(log.events, roomId), Counter(BaseCounters(seeds), roomId));
      && (forall i | 0 <= i < |rows| :: rows[i].sequence == base + 1 + i)
      && |log.outbox| == |log.events| && forall i | 0 <= i < |log.events| :: log.outbox[i] == OutboxOf(log.events[i])
  {
    hide SqlRun, Run, SeedRows, ValidSeed, DistinctAcross, Accepted, RoomRows, RoomLog;
    var w := Run(SeedWorld(seeds).value, ops);
    PublicLogsAgree(seeds, fallback, ops);
    GapFreeLog(seeds, ops, w, roomId);
    RoomRowsAlike(SqlRun(SeedRows(seeds), fallback, ops).log.events, w.publicEvents, roomId);
  }
}
