/**
 * What the room store owes its callers, told from the calls made so far and the
 * answers they got: who holds a session, what its worker may resume from, which
 * delivery comes next. Nothing here looks at the store's own fields after seeding.
 */
module RoomHistory {
  import opened Prelude
  import opened RoomProtocol

  /** The calls made since the store was seeded, each with the answer it got. */
  datatype Past = Nothing | Then(before: Past, op: Operation, reply: Reply)

  function Target(op: Operation): string {
    match op
    case Claim(sid, _, _, _, _) => sid
    case _ => op.lease.roomSessionId
  }

  predicate Delivers(terminal: Terminal) {
    terminal.ByRuntime? && terminal.event.payload.DeliveryCompleted?
  }

  function ErrorOf(terminal: Terminal): Option<string> {
    if terminal.ByHost? then Some(terminal.failure.message)
    else if terminal.event.payload.RuntimeError? then Some(terminal.event.payload.message)
    else None
  }

  /** The call went to this session and was answered as done, now and for the first time. */
  predicate Took(sid: string, op: Operation, reply: Reply) {
    && Target(op) == sid
    && match op
       case Claim(_, _, _, _, _) => reply.Granted?
       case Heartbeat(_, _, _) => reply.Renewed?
       case BindRuntime(_, _, _) => reply.Bound?
       case AppendEvent(_, _, _) => reply.Appended?
       case PersistCheckpoint(_, _, _) => reply.Persisted?
       case Finish(_, _, _, _, _) => reply.Finished?
       case Retry(_, _, _, _, _, _) => reply.Retried?
  }

  // ----- what the history of one session says

  /** A lease as it was handed out, and the moment it runs out. */
  datatype Held = Held(lease: Lease, until: int)

  /** The last lease granted and not given back by a finish or a retry, as last renewed. */
  function Holder(p: Past, sid: string): Option<Held> {
    match p
    case Nothing => None
    case Then(before, op, reply) =>
      if !Took(sid, op, reply) then Holder(before, sid)
      else
        match op
        case Claim(_, _, _, leaseDuration, now) => Some(Held(reply.grant.lease, now + leaseDuration))
        case Heartbeat(lease, leaseDuration, now) => Some(Held(lease, now + leaseDuration))
        case Finish(_, _, _, _, _) => None
        case Retry(_, _, _, _, _, _) => None
        case _ => Holder(before, sid)
  }

  predicate Holds(p: Past, lease: Lease, now: int) {
    && Holder(p, lease.roomSessionId).Some?
    && Holder(p, lease.roomSessionId).value.lease == lease
    && now < Holder(p, lease.roomSessionId).value.until
  }

  function Grants(p: Past, sid: string): nat {
    match p
    case Nothing => 0
    case Then(before, op, reply) => Grants(before, sid) + if Took(sid, op, reply) && op.Claim? then 1 else 0
  }

  /** The runtime events stored for the session, by generation and event id, as first stored. */
  function Stored(p: Past, sid: string): map<(nat, string), RuntimeEvent> {
    match p
    case Nothing => map[]
    case Then(before, op, reply) =>
      var known := Stored(before, sid);
      if !Took(sid, op, reply) then known
      else
        match op
        case AppendEvent(lease, event, _) => known[(lease.generation, event.eventId) := event]
        case Retry(lease, _, failedBy, _, _, _) =>
          if failedBy.Some? && (lease.generation, failedBy.value.eventId) !in known
          then known[(lease.generation, failedBy.value.eventId) := failedBy.value]
          else known
        case _ => known
  }

  /** A retry's failed runtime event is stored with it unless it was stored before. */
  predicate NewlyStored(before: Past, lease: Lease, failedBy: Option<RuntimeEvent>) {
    failedBy.Some? && (lease.generation, failedBy.value.eventId) !in Stored(before, lease.roomSessionId)
  }

  /** The last checkpoint accepted, whichever call brought it; the seed's before any. */
  function Saved(p: Past, sid: string, seeded: Option<Checkpoint>): Option<Checkpoint> {
    match p
    case Nothing => seeded
    case Then(before, op, reply) =>
      var last := Saved(before, sid, seeded);
      if !Took(sid, op, reply) then last
      else
        match op
        case AppendEvent(_, event, _) => if event.payload.CheckpointReady? then Some(event.payload.checkpoint) else last
        case PersistCheckpoint(_, saved, _) => Some(saved)
        case Finish(_, _, _, checkpoint, _) => if checkpoint.Some? then checkpoint else last
        case Retry(lease, _, failedBy, checkpoint, _, _) =>
          if checkpoint.Some? then checkpoint
          else if NewlyStored(before, lease, failedBy) && failedBy.value.payload.CheckpointReady?
          then Some(failedBy.value.payload.checkpoint)
          else last
        case _ => last
  }

  /** The output of the last message-ready event stored since the last finish or retry. */
  function Drafted(p: Past, sid: string): Option<Output> {
    match p
    case Nothing => None
    case Then(before, op, reply) =>
      if !Took(sid, op, reply) then Drafted(before, sid)
      else
        match op
        case AppendEvent(_, event, _) =>
          if event.payload.MessageReady? then Some(event.payload.output) else Drafted(before, sid)
        case Finish(_, _, _, _, _) => None
        case Retry(_, _, _, _, _, _) => None
        case _ => Drafted(before, sid)
  }

  /** The runtime session last bound; the seed's before any. */
  function BoundTo(p: Past, sid: string, seeded: Option<string>): Option<string> {
    match p
    case Nothing => seeded
    case Then(before, op, reply) =>
      if Took(sid, op, reply) && op.BindRuntime? then Some(op.handle.runtimeSessionId)
      else BoundTo(before, sid, seeded)
  }

  // ----- what the history of one delivery says

  /** The terminal facts accepted for the session, by delivery. */
  function Terminals(p: Past, sid: string): map<string, Terminal> {
    match p
    case Nothing => map[]
    case Then(before, op, reply) =>
      if Took(sid, op, reply) && op.Finish? then Terminals(before, sid)[op.lease.deliveryId := op.terminal]
      else Terminals(before, sid)
  }

  /** How often the attempt number was raised: by each takeover while held, and by each retry. */
  function Raised(p: Past, sid: string, id: string): nat {
    match p
    case Nothing => 0
    case Then(before, op, reply) =>
      Raised(before, sid, id) +
      if !Took(sid, op, reply) then 0
      else
        match op
        case Claim(_, _, _, _, _) =>
          if reply.grant.delivery.deliveryId == id && Holder(before, sid).Some? then 1 else 0
        case Retry(lease, _, _, _, _, _) => if lease.deliveryId == id then 1 else 0
        case _ => 0
  }

  /** When the delivery may be taken: as its last retry said, or from its creation. */
  function AvailableFrom(p: Past, sid: string, id: string, createdAt: int): int {
    match p
    case Nothing => createdAt
    case Then(before, op, reply) =>
      if Took(sid, op, reply) && op.Retry? && op.lease.deliveryId == id then op.availableAt
      else AvailableFrom(before, sid, id, createdAt)
  }

  function ClosedAt(p: Past, sid: string, id: string): Option<int> {
    match p
    case Nothing => None
    case Then(before, op, reply) =>
      if Took(sid, op, reply) && op.Finish? && op.lease.deliveryId == id then Some(op.now)
      else ClosedAt(before, sid, id)
  }

  function LastError(p: Past, sid: string, id: string): Option<string> {
    match p
    case Nothing => None
    case Then(before, op, reply) =>
      if !Took(sid, op, reply) || op.Claim? || op.lease.deliveryId != id then LastError(before, sid, id)
      else
        match op
        case Finish(_, terminal, _, _, _) => ErrorOf(terminal)
        case Retry(_, failure, _, _, _, _) => Some(failure.message)
        case _ => LastError(before, sid, id)
  }

  // ----- what the history of a room says

  function RoomOf(start: World, op: Operation): Option<string> {
    if Target(op) in start.sessions then Some(start.sessions[Target(op)].seed.roomId) else None
  }

  /** How many public events a call wrote. */
  function Spoken(before: Past, op: Operation, reply: Reply): nat {
    if !Took(Target(op), op, reply) then 0
    else
      match op
      case AppendEvent(_, _, _) => 1
      case Finish(_, terminal, output, _, _) => if Delivers(terminal) && output.Some? then 2 else 1
      case Retry(lease, _, failedBy, _, _, _) => if NewlyStored(before, lease, failedBy) then 2 else 1
      case _ => 0
  }

  /** The number of the last public event of a room. */
  function LastEvent(start: World, p: Past, room: string): nat {
    match p
    case Nothing => Counter(start.roomEventSequences, room)
    case Then(before, op, reply) =>
      LastEvent(start, before, room) + if RoomOf(start, op) == Some(room) then Spoken(before, op, reply) else 0
  }

  /** The number of the last message of a room. */
  function LastMessage(start: World, p: Past, room: string): nat {
    match p
    case Nothing => Counter(start.roomMessageSequences, room)
    case Then(before, op, reply) =>
      LastMessage(start, before, room) +
      if RoomOf(start, op) == Some(room) && Took(Target(op), op, reply)
         && op.Finish? && Delivers(op.terminal) && op.output.Some? then 1 else 0
  }

  /** The envelope of this id among the seeded ones. */
  ghost predicate Sent(seed: Seed, e: Envelope, id: string) {
    e in seed.deliveries && e.deliveryId == id
  }

  /** What the session has read: its own last event, the last delivery settled, and the last message of either. */
  ghost function ReadUpTo(start: World, p: Past, sid: string): Cursor
    requires sid in start.sessions
  {
    match p
    case Nothing => start.sessions[sid].seed.cursor.GetOr(Cursor(0, 0, 0))
    case Then(before, op, reply) =>
      var c := ReadUpTo(start, before, sid);
      var seed := start.sessions[sid].seed;
      if !Took(sid, op, reply) then c
      else
        match op
        case AppendEvent(_, _, _) => c.(eventSequence := LastEvent(start, p, seed.roomId))
        case Finish(lease, terminal, output, _, _) =>
          if e: Envelope :| Sent(seed, e, lease.deliveryId) then
            Cursor(Max(Max(c.messageSequence, e.messageSequence),
                       if Delivers(terminal) && output.Some? then LastMessage(start, p, seed.roomId) else 0),
                   e.deliverySequence, LastEvent(start, p, seed.roomId))
          else c
        case Retry(lease, _, failedBy, _, _, _) =>
          if NewlyStored(before, lease, failedBy) then c.(eventSequence := LastEvent(start, before, seed.roomId) + 1) else c
        case _ => c
  }

  // ----- what a call is owed

  /** The oldest seeded delivery that no finish has settled. */
  ghost predicate NextUp(seed: Seed, p: Past, sid: string, e: Envelope) {
    && e in seed.deliveries && e.deliveryId !in Terminals(p, sid)
    && forall f | f in seed.deliveries && f.deliverySequence < e.deliverySequence :: f.deliveryId in Terminals(p, sid)
  }

  /** Nobody holds the session and its next delivery is available, or the holder's time is up. */
  ghost predicate Free(seed: Seed, p: Past, sid: string, now: int) {
    exists e ::
      && NextUp(seed, p, sid, e)
      && match Holder(p, sid)
         case None => AvailableFrom(p, sid, e.deliveryId, e.createdAt) <= now
         case Some(held) => held.until <= now
  }

  /** A grant hands out the next delivery under a new generation, with all there is to resume from. */
  ghost predicate Resumes(start: World, p: Past, sid: string, workerId: string, grant: ClaimGrant)
    requires sid in start.sessions
  {
    var seed := start.sessions[sid].seed;
    && grant.lease == Lease(sid, grant.delivery.deliveryId, workerId, seed.generation.GetOr(0) + Grants(p, sid) + 1)
    && grant.runtimeId == seed.runtimeId
    && grant.runtimeSessionId == BoundTo(p, sid, seed.runtimeSessionId)
    && grant.checkpoint == Saved(p, sid, seed.checkpoint)
    && grant.pendingOutput == Drafted(p, sid)
    && grant.cursor == ReadUpTo(start, p, sid)
    && exists e :: NextUp(seed, p, sid, e)
         && grant.delivery == e.(attempt := e.attempt + Raised(p, sid, e.deliveryId) + if Holder(p, sid).Some? then 1 else 0)
  }

  ghost predicate ClaimOwed(start: World, p: Past, sid: string, runtimeId: string, workerId: string, now: int, reply: Reply) {
    if sid in start.sessions && start.sessions[sid].seed.runtimeId == runtimeId && Free(start.sessions[sid].seed, p, sid, now)
    then reply.Granted? && Resumes(start, p, sid, workerId, reply.grant)
    else reply == Refused
  }

  predicate BindOwed(start: World, p: Past, lease: Lease, handle: Handle, now: int, reply: Reply) {
    reply ==
      if Holds(p, lease, now) && lease.roomSessionId in start.sessions
         && handle.roomSessionId == lease.roomSessionId && handle.generation == lease.generation
         && handle.runtimeId == start.sessions[lease.roomSessionId].seed.runtimeId
      then Bound else Fenced
  }

  ghost predicate AppendOwed(start: World, p: Past, lease: Lease, event: RuntimeEvent, now: int, reply: Reply) {
    var known := Stored(p, lease.roomSessionId);
    var key := (lease.generation, event.eventId);
    if !Holds(p, lease, now) then reply == Fenced
    else
      && lease.roomSessionId in start.sessions
      && var read := ReadUpTo(start, p, lease.roomSessionId);
      && reply ==
           if key !in known then
             Appended(read.(eventSequence := LastEvent(start, p, start.sessions[lease.roomSessionId].seed.roomId) + 1))
           else if known[key] == event then Duplicate(read)
           else ReplayChanged
  }

  ghost predicate FinishOwed(start: World, p: Past, lease: Lease, terminal: Terminal, output: Option<Output>, now: int, reply: Reply) {
    var sid := lease.roomSessionId;
    var settled := Terminals(p, sid);
    if lease.deliveryId in settled && settled[lease.deliveryId] == terminal then
      sid in start.sessions && reply == Duplicate(ReadUpTo(start, p, sid))
    else if !Holds(p, lease, now) then reply == Fenced
    else
      && sid in start.sessions
      && var seed := start.sessions[sid].seed;
      && var read := ReadUpTo(start, p, sid);
      && var spoke := Delivers(terminal) && output.Some?;
      && reply.Finished?
      && exists e :: Sent(seed, e, lease.deliveryId)
           && reply.cursor == Cursor(
                Max(Max(read.messageSequence, e.messageSequence), if spoke then LastMessage(start, p, seed.roomId) + 1 else 0),
                e.deliverySequence, LastEvent(start, p, seed.roomId) + if spoke then 2 else 1)
  }

  predicate RetryOwed(p: Past, lease: Lease, failedBy: Option<RuntimeEvent>, now: int, reply: Reply) {
    var known := Stored(p, lease.roomSessionId);
    reply ==
      if !Holds(p, lease, now) then Fenced
      else if failedBy.Some? && (lease.generation, failedBy.value.eventId) in known
              && known[(lease.generation, failedBy.value.eventId)] != failedBy.value then ReplayChanged
      else Retried
  }

  /** The one answer the history of the calls before it leaves open. */
  ghost predicate Owed(start: World, p: Past, op: Operation, reply: Reply) {
    match op
    case Claim(sid, runtimeId, workerId, _, now) => ClaimOwed(start, p, sid, runtimeId, workerId, now, reply)
    case Heartbeat(lease, _, now) => reply == if Holds(p, lease, now) then Renewed else Fenced
    case BindRuntime(lease, handle, now) => BindOwed(start, p, lease, handle, now, reply)
    case AppendEvent(lease, event, now) => AppendOwed(start, p, lease, event, now, reply)
    case PersistCheckpoint(lease, _, now) => reply == if Holds(p, lease, now) then Persisted else Fenced
    case Finish(lease, terminal, output, _, now) => FinishOwed(start, p, lease, terminal, output, now, reply)
    case Retry(lease, _, failedBy, _, _, now) => RetryOwed(p, lease, failedBy, now, reply)
  }

  // ----- what a call publishes

  /** The runtime event as its room reads it. */
  function RuntimeNotice(seed: Seed, lease: Lease, event: RuntimeEvent, number: nat, now: int): PublicEvent {
    PublicEvent(RuntimeEventId(seed.organizationId, lease.roomSessionId, lease.generation, event.eventId),
                seed.roomId, number, RuntimeData(event), now)
  }

  function Notice(seed: Seed, lease: Lease, kind: ArtifactKind, number: nat, data: EventData, now: int): PublicEvent {
    PublicEvent(ArtifactId(kind, seed.organizationId, lease.roomSessionId, lease.generation, lease.deliveryId),
                seed.roomId, number, data, now)
  }

  /** The agent's message carries the output as given and names the delivery it answers. */
  predicate Carries(seed: Seed, lease: Lease, output: Output, number: nat, now: int, m: Message) {
    && m.roomId == seed.roomId && m.sequence == number && m.createdAt == now && m.agentId == seed.agentId
    && m.text == output.text && m.mentions == output.mentions
    && m.attachments == (if output.attachments.Some? then output.attachments.value else [])
    && m.correlationId == Some(lease.deliveryId)
  }

  ghost predicate FinishPublishes(seed: Seed, lease: Lease, terminal: Terminal, output: Option<Output>, now: int,
                                  event: nat, message: nat, events: seq<PublicEvent>)
  {
    if Delivers(terminal) && output.Some? then
      exists m: Message ::
        && Carries(seed, lease, output.value, message + 1, now, m)
        && events == [Notice(seed, lease, MessageArtifact, event + 1, MessageCreated(m), now),
                      Notice(seed, lease, TerminalArtifact, event + 2,
                             DeliverySettled(true, lease.deliveryId, lease.roomSessionId, terminal, Some(m.messageId)), now)]
    else
      events == [Notice(seed, lease, TerminalArtifact, event + 1,
                        DeliverySettled(Delivers(terminal), lease.deliveryId, lease.roomSessionId, terminal, None), now)]
  }

  /** A retry writes its own event, after the failed runtime event if it is the first to store that. */
  function RetryEvents(seed: Seed, p: Past, lease: Lease, failedBy: Option<RuntimeEvent>, retrying: EventData, event: nat, now: int)
    : seq<PublicEvent>
  {
    if NewlyStored(p, lease, failedBy) then
      [RuntimeNotice(seed, lease, failedBy.value, event + 1, now), Notice(seed, lease, RetryArtifact, event + 2, retrying, now)]
    else [Notice(seed, lease, RetryArtifact, event + 1, retrying, now)]
  }

  ghost predicate RetryPublishes(seed: Seed, p: Past, lease: Lease, failure: Failure, failedBy: Option<RuntimeEvent>, now: int,
                                 event: nat, events: seq<PublicEvent>)
  {
    exists e :: Sent(seed, e, lease.deliveryId) &&
      var attempt := e.attempt + Raised(p, lease.roomSessionId, lease.deliveryId) + 1;
      events == RetryEvents(seed, p, lease, failedBy, DeliveryRetrying(lease.deliveryId, lease.generation, attempt, failure),
                            event, now)
  }

  /** The events a call adds to the public log, which is nothing unless it was taken. */
  ghost predicate Publishes(start: World, p: Past, op: Operation, reply: Reply, events: seq<PublicEvent>) {
    if !Took(Target(op), op, reply) || Target(op) !in start.sessions then events == []
    else
      var seed := start.sessions[Target(op)].seed;
      var event, message := LastEvent(start, p, seed.roomId), LastMessage(start, p, seed.roomId);
      match op
      case AppendEvent(lease, said, now) => events == [RuntimeNotice(seed, lease, said, event + 1, now)]
      case Finish(lease, terminal, output, _, now) =>
        FinishPublishes(seed, lease, terminal, output, now, event, message, events)
      case Retry(lease, failure, failedBy, _, _, now) => RetryPublishes(seed, p, lease, failure, failedBy, now, event, events)
      case _ => events == []
  }

  /** The calls of a run with the answers they got. */
  function Trace(start: World, ops: seq<Operation>): Past
    decreases |ops|
  {
    if ops == [] then Nothing
    else
      var front, last := ops[..|ops| - 1], ops[|ops| - 1];
      Then(Trace(start, front), last, Apply(Run(start, front), last).1)
  }
}
