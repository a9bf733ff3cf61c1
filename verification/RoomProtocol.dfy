/**
 * The room delivery protocol as a state machine over values: a per-session FIFO
 * queue guarded by a lease (worker, delivery, expiry) and by a generation that
 * every claim advances, plus a public event log with an outbox for each room.
 *
 * Every operation takes whatever lease and clock reading its caller sends, so a
 * sequence of operations describes any interleaving of workers, crashed workers
 * (whose next operation never comes), late workers and drifting clocks.
 */
module RoomProtocol {
  import opened Prelude
  import opened Sorting

  // ----- values that cross the store boundary

  datatype Output = Output(text: string, mentions: seq<string>, attachments: Option<seq<string>>)
  datatype Checkpoint = Checkpoint(checkpointId: string, runtimeState: string)
  datatype Failure = Failure(kind: string, code: string, message: string, retryable: bool)

  datatype Payload =
    | MessageReady(responseId: string, output: Output)
    | CheckpointReady(checkpoint: Checkpoint)
    | DeliveryCompleted(disposition: string)
    | RuntimeError(code: string, message: string, retryable: bool)
    | OtherPayload(kind: string, detail: string)

  datatype RuntimeEvent = RuntimeEvent(eventId: string, eventSequence: nat, payload: Payload)

  datatype Terminal = ByRuntime(event: RuntimeEvent) | ByHost(failure: Failure)

  predicate IsSuccess(t: Terminal) {
    t.ByRuntime? && t.event.payload.DeliveryCompleted?
  }

  function TerminalError(t: Terminal): Option<string> {
    match t
    case ByHost(failure) => Some(failure.message)
    case ByRuntime(event) => if event.payload.RuntimeError? then Some(event.payload.message) else None
  }

  datatype Lease = Lease(roomSessionId: string, deliveryId: string, workerId: string, generation: nat)
  datatype Handle = Handle(roomSessionId: string, generation: nat, runtimeId: string, runtimeSessionId: string)
  datatype Cursor = Cursor(messageSequence: nat, deliverySequence: nat, eventSequence: nat)

  // ----- stored state

  datatype Status = Pending | InFlight | Completed | Failed

  predicate Settled(s: Status) {
    s == Completed || s == Failed
  }

  datatype Envelope = Envelope(
    deliveryId: string, deliverySequence: nat, attempt: nat, createdAt: int, messageSequence: nat)

  datatype Delivery = Delivery(
    envelope: Envelope, status: Status, availableAt: int, completedAt: Option<int>,
    lastError: Option<string>, terminal: Option<Terminal>)

  datatype ArtifactKind = MessageArtifact | RetryArtifact | TerminalArtifact

  /** Durable event names; the fields stand for the parts the store joins into one string. */
  datatype EventId =
    | RuntimeEventId(organizationId: string, roomSessionId: string, generation: nat, providerEventId: string)
    | ArtifactId(kind: ArtifactKind, organizationId: string, roomSessionId: string, generation: nat, deliveryId: string)

  datatype GeneratedId = GeneratedId(kind: string, number: nat)

  datatype Message = Message(
    messageId: GeneratedId, roomId: string, sequence: nat, createdAt: int, agentId: string,
    text: string, mentions: seq<string>, attachments: seq<string>, correlationId: Option<string>)

  datatype EventData =
    | RuntimeData(event: RuntimeEvent)
    | MessageCreated(message: Message)
    | DeliverySettled(completed: bool, deliveryId: string, roomSessionId: string,
                      terminal: Terminal, outputMessageId: Option<GeneratedId>)
    | DeliveryRetrying(deliveryId: string, generation: nat, nextAttempt: nat, failure: Failure)

  datatype PublicEvent = PublicEvent(eventId: EventId, roomId: string, sequence: nat, data: EventData, createdAt: int)
  datatype OutboxRecord = OutboxRecord(id: GeneratedId, roomId: string, eventSequence: nat)
  datatype StoredEvent = StoredEvent(event: RuntimeEvent, durableSequence: nat)

  datatype Seed = Seed(
    organizationId: string, roomId: string, roomSessionId: string, agentId: string, runtimeId: string,
    runtimeSessionId: Option<string>, checkpoint: Option<Checkpoint>, cursor: Option<Cursor>,
    throughMessageSequence: nat, contextSequences: seq<nat>, generation: Option<nat>,
    deliveries: seq<Envelope>)

  datatype Session = Session(
    seed: Seed, generation: nat, runtimeSessionId: Option<string>, checkpoint: Option<Checkpoint>,
    cursor: Cursor, leaseOwnerId: Option<string>, leaseExpiresAt: Option<int>,
    currentDeliveryId: Option<string>, pendingOutput: Option<Output>, deliveries: seq<Delivery>,
    runtimeEvents: map<EventId, StoredEvent>)

  datatype World = World(
    sessions: map<string, Session>, roomMessageSequences: map<string, nat>,
    roomEventSequences: map<string, nat>, idSequence: nat,
    messages: seq<Message>, publicEvents: seq<PublicEvent>, outbox: seq<OutboxRecord>)

  // ----- seeding

  const EMPTY_WORLD := World(map[], map[], map[], 0, [], [], [])

  function SeedCursor(seed: Seed): Cursor {
    seed.cursor.GetOr(Cursor(0, 0, 0))
  }

  predicate EarlierEnvelope(a: Envelope, b: Envelope) {
    a.deliverySequence < b.deliverySequence
  }

  function SortedEnvelopes(seed: Seed): seq<Envelope> {
    Sort(seed.deliveries, EarlierEnvelope)
  }

  function FreshDeliveries(envelopes: seq<Envelope>): seq<Delivery> {
    seq(|envelopes|, i requires 0 <= i < |envelopes| =>
      Delivery(envelopes[i], Pending, envelopes[i].createdAt, None, None, None))
  }

  function SeededSession(seed: Seed): Session {
    Session(seed, seed.generation.GetOr(0), seed.runtimeSessionId, seed.checkpoint, SeedCursor(seed),
            None, None, None, None, FreshDeliveries(SortedEnvelopes(seed)), map[])
  }

  function Counter(counters: map<string, nat>, roomId: string): nat {
    if roomId in counters then counters[roomId] else 0
  }

  function Largest(start: nat, values: seq<nat>): (r: nat)
    ensures start <= r
    ensures forall v | v in values :: v <= r
    ensures r == start || r in values
  {
    if values == [] then start
    else
      var rest := Largest(start, values[1..]);
      assert values == [values[0]] + values[1..];
      if rest < values[0] then values[0] else rest
  }

  /** None when the session already exists: the store throws and changes nothing. */
  function AddSession(w: World, seed: Seed): Option<World> {
    if seed.roomSessionId in w.sessions then None
    else Some(w.(
      sessions := w.sessions[seed.roomSessionId := SeededSession(seed)],
      roomMessageSequences := w.roomMessageSequences[seed.roomId :=
        Largest(Counter(w.roomMessageSequences, seed.roomId),
                [seed.throughMessageSequence] + seed.contextSequences)],
      roomEventSequences := w.roomEventSequences[seed.roomId :=
        Max(Counter(w.roomEventSequences, seed.roomId), SeedCursor(seed).eventSequence)]))
  }

  function SeedWorld(seeds: seq<Seed>): Option<World> {
    if seeds == [] then Some(EMPTY_WORLD)
    else
      match SeedWorld(seeds[..|seeds| - 1])
      case None => None
      case Some(w) => AddSession(w, seeds[|seeds| - 1])
  }

  // ----- looking things up

  /** The oldest delivery that is neither completed nor failed; the length when all are settled. */
  function FirstOpen(ds: seq<Delivery>): (k: nat)
    ensures k <= |ds|
    ensures forall i | 0 <= i < k :: Settled(ds[i].status)
    ensures k < |ds| ==> !Settled(ds[k].status)
  {
    if ds == [] || !Settled(ds[0].status) then 0 else 1 + FirstOpen(ds[1..])
  }

  /** The first delivery with this id; the length when there is none. */
  function IndexOf(ds: seq<Delivery>, deliveryId: string): (k: nat)
    ensures k <= |ds|
    ensures forall i | 0 <= i < k :: ds[i].envelope.deliveryId != deliveryId
    ensures k < |ds| ==> ds[k].envelope.deliveryId == deliveryId
  {
    if ds == [] || ds[0].envelope.deliveryId == deliveryId then 0 else 1 + IndexOf(ds[1..], deliveryId)
  }

  predicate LeaseLapsed(s: Session, now: int) {
    s.leaseExpiresAt.None? || s.leaseExpiresAt.value <= now
  }

  predicate Claimable(s: Session, d: Delivery, now: int) {
    if d.status == Pending then d.availableAt <= now
    else d.status == InFlight && s.currentDeliveryId == Some(d.envelope.deliveryId) && LeaseLapsed(s, now)
  }

  /** The fence in front of every write: all four lease fields match and the lease is unexpired. */
  predicate Owned(w: World, lease: Lease, now: int) {
    && lease.roomSessionId in w.sessions
    && var s := w.sessions[lease.roomSessionId];
    && s.generation == lease.generation
    && s.leaseOwnerId == Some(lease.workerId)
    && s.currentDeliveryId == Some(lease.deliveryId)
    && s.leaseExpiresAt.Some? && now < s.leaseExpiresAt.value
  }

  // ----- effects on one session

  function ClaimSession(s: Session, k: nat, workerId: string, expiresAt: int): Session
    requires k < |s.deliveries|
  {
    var d := s.deliveries[k];
    var attempt := if d.status == InFlight then d.envelope.attempt + 1 else d.envelope.attempt;
    s.(generation := s.generation + 1, leaseOwnerId := Some(workerId), leaseExpiresAt := Some(expiresAt),
       currentDeliveryId := Some(d.envelope.deliveryId),
       deliveries := s.deliveries[k := d.(envelope := d.envelope.(attempt := attempt), status := InFlight)])
  }

  function FinishSession(s: Session, k: nat, terminal: Terminal, checkpoint: Option<Checkpoint>,
                         outputSequence: nat, terminalSequence: nat, now: int): Session
    requires k < |s.deliveries|
  {
    var d := s.deliveries[k];
    s.(checkpoint := if checkpoint.Some? then checkpoint else s.checkpoint,
       deliveries := s.deliveries[k := d.(
         status := if IsSuccess(terminal) then Completed else Failed,
         completedAt := Some(now), lastError := TerminalError(terminal), terminal := Some(terminal))],
       cursor := Cursor(Max(Max(s.cursor.messageSequence, d.envelope.messageSequence), outputSequence),
                        d.envelope.deliverySequence, terminalSequence),
       pendingOutput := None, leaseOwnerId := None, leaseExpiresAt := None, currentDeliveryId := None)
  }

  function RetrySession(s: Session, k: nat, failure: Failure, checkpoint: Option<Checkpoint>, availableAt: int): Session
    requires k < |s.deliveries|
  {
    var d := s.deliveries[k];
    s.(checkpoint := if checkpoint.Some? then checkpoint else s.checkpoint,
       deliveries := s.deliveries[k := d.(
         envelope := d.envelope.(attempt := d.envelope.attempt + 1),
         status := Pending, availableAt := availableAt, lastError := Some(failure.message))],
       pendingOutput := None, leaseOwnerId := None, leaseExpiresAt := None, currentDeliveryId := None)
  }

  // ----- effects on the shared log

  /** The next event of a room and, with it, the outbox record that announces it. */
  function AppendPublic(w: World, roomId: string, data: EventData, now: int, eventId: EventId): World {
    var sequence := Counter(w.roomEventSequences, roomId) + 1;
    w.(roomEventSequences := w.roomEventSequences[roomId := sequence],
       publicEvents := w.publicEvents + [PublicEvent(eventId, roomId, sequence, data, now)],
       idSequence := w.idSequence + 1,
       outbox := w.outbox + [OutboxRecord(GeneratedId("outbox", w.idSequence + 1), roomId, sequence)])
  }

  function AgentMessage(w: World, s: Session, output: Output, now: int): Message {
    Message(GeneratedId("message", w.idSequence + 1), s.seed.roomId,
            Counter(w.roomMessageSequences, s.seed.roomId) + 1, now, s.seed.agentId,
            output.text, output.mentions, output.attachments.GetOr([]), s.currentDeliveryId)
  }

  function AppendMessage(w: World, m: Message): World {
    w.(roomMessageSequences := w.roomMessageSequences[m.roomId := m.sequence],
       idSequence := w.idSequence + 1,
       messages := w.messages + [m])
  }

  function ArtifactOf(s: Session, lease: Lease, kind: ArtifactKind): EventId {
    ArtifactId(kind, s.seed.organizationId, lease.roomSessionId, lease.generation, lease.deliveryId)
  }

  // ----- the operations

  datatype ClaimGrant = ClaimGrant(
    lease: Lease, runtimeId: string, runtimeSessionId: Option<string>, checkpoint: Option<Checkpoint>,
    cursor: Cursor, delivery: Envelope, pendingOutput: Option<Output>)

  datatype Reply =
    | Refused
    | Granted(grant: ClaimGrant)
    | Renewed
    | Bound
    | Appended(cursor: Cursor)
    | Duplicate(cursor: Cursor)
    | Persisted
    | Finished(cursor: Cursor)
    | Retried
    | Fenced
    | ReplayChanged

  datatype Operation =
    | Claim(roomSessionId: string, runtimeId: string, workerId: string, leaseDuration: nat, now: int)
    | Heartbeat(lease: Lease, leaseDuration: nat, now: int)
    | BindRuntime(lease: Lease, handle: Handle, now: int)
    | AppendEvent(lease: Lease, event: RuntimeEvent, now: int)
    | PersistCheckpoint(lease: Lease, saved: Checkpoint, now: int)
    | Finish(lease: Lease, terminal: Terminal, output: Option<Output>, checkpoint: Option<Checkpoint>, now: int)
    | Retry(lease: Lease, failure: Failure, failedBy: Option<RuntimeEvent>, checkpoint: Option<Checkpoint>,
            availableAt: int, now: int)

  function Put(w: World, sid: string, s: Session): World {
    w.(sessions := w.sessions[sid := s])
  }

  /** The session runs on this runtime and its oldest open delivery is free to take. */
  predicate CanClaim(w: World, sid: string, runtimeId: string, now: int) {
    && sid in w.sessions && w.sessions[sid].seed.runtimeId == runtimeId
    && var s := w.sessions[sid];
    && var k := FirstOpen(s.deliveries);
    && k < |s.deliveries| && Claimable(s, s.deliveries[k], now)
  }

  function GrantedSession(w: World, sid: string, workerId: string, expiresAt: int): Session
    requires sid in w.sessions && FirstOpen(w.sessions[sid].deliveries) < |w.sessions[sid].deliveries|
  {
    ClaimSession(w.sessions[sid], FirstOpen(w.sessions[sid].deliveries), workerId, expiresAt)
  }

  function GrantFor(s: Session, s': Session, k: nat, workerId: string): ClaimGrant
    requires k < |s'.deliveries|
  {
    ClaimGrant(Lease(s.seed.roomSessionId, s'.deliveries[k].envelope.deliveryId, workerId, s'.generation),
               s.seed.runtimeId, s.runtimeSessionId, s.checkpoint, s.cursor, s'.deliveries[k].envelope, s.pendingOutput)
  }

  function DoClaim(w: World, sid: string, runtimeId: string, workerId: string, leaseDuration: nat, now: int)
    : (World, Reply)
  {
    if !CanClaim(w, sid, runtimeId, now) then (w, Refused)
    else
      var s' := GrantedSession(w, sid, workerId, now + leaseDuration);
      (Put(w, sid, s'), Granted(GrantFor(w.sessions[sid], s', FirstOpen(w.sessions[sid].deliveries), workerId)))
  }

  function DoHeartbeat(w: World, lease: Lease, leaseDuration: nat, now: int): (World, Reply) {
    if !Owned(w, lease, now) then (w, Fenced)
    else (Put(w, lease.roomSessionId,
              w.sessions[lease.roomSessionId].(leaseExpiresAt := Some(now + leaseDuration))), Renewed)
  }

  function DoBind(w: World, lease: Lease, handle: Handle, now: int): (World, Reply) {
    if !Owned(w, lease, now) || handle.roomSessionId != lease.roomSessionId
       || handle.generation != lease.generation
       || handle.runtimeId != w.sessions[lease.roomSessionId].seed.runtimeId
    then (w, Fenced)
    else (Put(w, lease.roomSessionId,
              w.sessions[lease.roomSessionId].(runtimeSessionId := Some(handle.runtimeSessionId))), Bound)
  }

  function RuntimeKey(s: Session, lease: Lease, event: RuntimeEvent): EventId {
    RuntimeEventId(s.seed.organizationId, lease.roomSessionId, lease.generation, event.eventId)
  }

  /** How a newly stored runtime event changes its session. */
  function RecordEvent(s: Session, key: EventId, event: RuntimeEvent, sequence: nat): Session {
    s.(runtimeEvents := s.runtimeEvents[key := StoredEvent(event, sequence)],
       cursor := s.cursor.(eventSequence := sequence),
       pendingOutput := if event.payload.MessageReady? then Some(event.payload.output) else s.pendingOutput,
       checkpoint := if event.payload.CheckpointReady? then Some(event.payload.checkpoint) else s.checkpoint)
  }

  function DoAppend(w: World, lease: Lease, event: RuntimeEvent, now: int): (World, Reply) {
    if !Owned(w, lease, now) then (w, Fenced)
    else
      var s := w.sessions[lease.roomSessionId];
      var key := RuntimeKey(s, lease, event);
      if key in s.runtimeEvents then
        if s.runtimeEvents[key].event != event then (w, ReplayChanged) else (w, Duplicate(s.cursor))
      else
        var w1 := AppendPublic(w, s.seed.roomId, RuntimeData(event), now, key);
        var s' := RecordEvent(s, key, event, w1.roomEventSequences[s.seed.roomId]);
        (Put(w1, lease.roomSessionId, s'), Appended(s'.cursor))
  }

  function DoPersistCheckpoint(w: World, lease: Lease, saved: Checkpoint, now: int): (World, Reply) {
    if !Owned(w, lease, now) then (w, Fenced)
    else (Put(w, lease.roomSessionId, w.sessions[lease.roomSessionId].(checkpoint := Some(saved))), Persisted)
  }

  /** A delivery already settled with this very terminal fact answers any later report of it. */
  predicate AlreadyFinished(w: World, lease: Lease, terminal: Terminal) {
    && lease.roomSessionId in w.sessions
    && var ds := w.sessions[lease.roomSessionId].deliveries;
    && var k := IndexOf(ds, lease.deliveryId);
    && k < |ds| && Settled(ds[k].status) && ds[k].terminal == Some(terminal)
  }

  /** The agent message and its public event that a successful delivery with output publishes. */
  function PublishOutput(w: World, s: Session, lease: Lease, output: Output, now: int): World {
    var m := AgentMessage(w, s, output, now);
    AppendPublic(AppendMessage(w, m), s.seed.roomId, MessageCreated(m), now, ArtifactOf(s, lease, MessageArtifact))
  }

  function DoFinish(w: World, lease: Lease, terminal: Terminal, output: Option<Output>,
                    checkpoint: Option<Checkpoint>, now: int): (World, Reply)
  {
    if AlreadyFinished(w, lease, terminal) then (w, Duplicate(w.sessions[lease.roomSessionId].cursor))
    else if !Owned(w, lease, now) then (w, Fenced)
    else
      var s := w.sessions[lease.roomSessionId];
      var k := IndexOf(s.deliveries, lease.deliveryId);
      if k == |s.deliveries| then (w, Fenced)
      else
        var publishes := IsSuccess(terminal) && output.Some?;
        var m := if publishes then Some(AgentMessage(w, s, output.value, now)) else None;
        var w1 := if publishes then PublishOutput(w, s, lease, output.value, now) else w;
        var w2 := AppendPublic(w1, s.seed.roomId,
          DeliverySettled(IsSuccess(terminal), lease.deliveryId, s.seed.roomSessionId, terminal,
                          if m.Some? then Some(m.value.messageId) else None),
          now, ArtifactOf(s, lease, TerminalArtifact));
        var s' := FinishSession(s, k, terminal, checkpoint, if m.Some? then m.value.sequence else 0,
                                w2.roomEventSequences[s.seed.roomId], now);
        (Put(w2, lease.roomSessionId, s'), Finished(s'.cursor))
  }

  /**
   * The second half of a retry: what the store writes once the failed runtime
   * event, if there is one, has been stored. It trusts the ownership that was
   * checked before that event was stored.
   */
  function CommitRetry(w: World, lease: Lease, k: nat, failure: Failure, checkpoint: Option<Checkpoint>,
                       availableAt: int, now: int): World
    requires lease.roomSessionId in w.sessions && k < |w.sessions[lease.roomSessionId].deliveries|
  {
    var s := w.sessions[lease.roomSessionId];
    var d := s.deliveries[k];
    var w1 := AppendPublic(w, s.seed.roomId,
      DeliveryRetrying(d.envelope.deliveryId, lease.generation, d.envelope.attempt + 1, failure),
      now, ArtifactOf(s, lease, RetryArtifact));
    Put(w1, lease.roomSessionId, RetrySession(s, k, failure, checkpoint, availableAt))
  }

  function DoRetry(w: World, lease: Lease, failure: Failure, failedBy: Option<RuntimeEvent>,
                   checkpoint: Option<Checkpoint>, availableAt: int, now: int): (World, Reply)
  {
    if !Owned(w, lease, now) then (w, Fenced)
    else
      var k := IndexOf(w.sessions[lease.roomSessionId].deliveries, lease.deliveryId);
      if k == |w.sessions[lease.roomSessionId].deliveries| then (w, Fenced)
      else
        var (w1, stored) := if failedBy.Some? then DoAppend(w, lease, failedBy.value, now) else (w, Renewed);
        if stored == ReplayChanged then (w, ReplayChanged)
        else (CommitRetry(w1, lease, k, failure, checkpoint, availableAt, now), Retried)
  }

  function Apply(w: World, op: Operation): (World, Reply) {
    match op
    case Claim(sid, runtimeId, workerId, leaseDuration, now) => DoClaim(w, sid, runtimeId, workerId, leaseDuration, now)
    case Heartbeat(lease, leaseDuration, now) => DoHeartbeat(w, lease, leaseDuration, now)
    case BindRuntime(lease, handle, now) => DoBind(w, lease, handle, now)
    case AppendEvent(lease, event, now) => DoAppend(w, lease, event, now)
    case PersistCheckpoint(lease, saved, now) => DoPersistCheckpoint(w, lease, saved, now)
    case Finish(lease, terminal, output, checkpoint, now) => DoFinish(w, lease, terminal, output, checkpoint, now)
    case Retry(lease, failure, failedBy, checkpoint, availableAt, now) =>
      DoRetry(w, lease, failure, failedBy, checkpoint, availableAt, now)
  }

  function Run(w: World, ops: seq<Operation>): World
    decreases |ops|
  {
    if ops == [] then w else Run(Apply(w, ops[0]).0, ops[1..])
  }
}
