/**
 * The process-local store: the protocol carried out by updating the store's
 * fields. Session and delivery records live in maps and sequences of values;
 * nothing outside the store refers to them.
 */
module RoomStore {
  import opened Prelude
  import opened RoomProtocol
  import opened RoomInvariants
  import opened RoomGuarantees

  class InMemoryRoomHostStore {
    var sessions: map<string, Session>
    var roomMessageSequences: map<string, nat>
    var roomEventSequences: map<string, nat>
    var idSequence: nat
    var messages: seq<Message>
    var publicEvents: seq<PublicEvent>
    var outbox: seq<OutboxRecord>

    ghost function State(): World
      reads this
    {
      World(sessions, roomMessageSequences, roomEventSequences, idSequence, messages, publicEvents, outbox)
    }

    constructor ()
      ensures State() == EMPTY_WORLD
    {
      sessions, roomMessageSequences, roomEventSequences := map[], map[], map[];
      idSequence, messages, publicEvents, outbox := 0, [], [], [];
    }

    /** Builds a store from seeds; `ok` is false when two seeds name the same session. */
    static method Create(seeds: seq<Seed>) returns (store: InMemoryRoomHostStore, ok: bool)
      ensures fresh(store)
      ensures ok <==> RoomProtocol.SeedWorld(seeds).Some?
      ensures ok ==> store.State() == RoomProtocol.SeedWorld(seeds).value
      ensures ok && (forall seed | seed in seeds :: ValidSeed(seed)) ==> Reached(seeds, [], store.State())
    {
      store := new InMemoryRoomHostStore();
      ok := true;
      var i := 0;
      while i < |seeds| && ok
        invariant fresh(store) && 0 <= i <= |seeds|
        invariant ok <==> RoomProtocol.SeedWorld(seeds[..i]).Some?
        invariant ok ==> store.State() == RoomProtocol.SeedWorld(seeds[..i]).value
      {
        ok := store.AddSession(seeds[i]);
        assert seeds[..i + 1][..i] == seeds[..i];
        i := i + 1;
      }
      if !ok { SeedFailureSpreads(seeds, i); }
      assert ok ==> seeds[..i] == seeds;
    }

    method AddSession(seed: Seed) returns (ok: bool)
      modifies this
      ensures ok == RoomProtocol.AddSession(old(State()), seed).Some?
      ensures State() == if ok then RoomProtocol.AddSession(old(State()), seed).value else old(State())
    {
      if seed.roomSessionId in sessions { return false; }
      var cursor := SeedCursor(seed);
      var ordered := SortedEnvelopes(seed);
      sessions := sessions[seed.roomSessionId := Session(
        seed, seed.generation.GetOr(0), seed.runtimeSessionId, seed.checkpoint, cursor,
        None, None, None, None, FreshDeliveries(ordered), map[])];
      roomMessageSequences := roomMessageSequences[seed.roomId :=
        Largest(Counter(roomMessageSequences, seed.roomId), [seed.throughMessageSequence] + seed.contextSequences)];
      roomEventSequences := roomEventSequences[seed.roomId :=
        Max(Counter(roomEventSequences, seed.roomId), cursor.eventSequence)];
      return true;
    }

    method Claim(roomSessionId: string, runtimeId: string, workerId: string, leaseDuration: nat, now: int)
      returns (r: Reply)
      modifies this
      ensures (State(), r) == Apply(old(State()), Operation.Claim(roomSessionId, runtimeId, workerId, leaseDuration, now))
      ensures r.Granted? ==>
        && roomSessionId in old(sessions) && old(sessions)[roomSessionId].seed.runtimeId == runtimeId == r.grant.runtimeId
        && var s := old(sessions)[roomSessionId];
        && r.grant.runtimeSessionId == s.runtimeSessionId && r.grant.checkpoint == s.checkpoint && r.grant.cursor == s.cursor
        && r.grant.pendingOutput == s.pendingOutput && r.grant.lease.workerId == workerId
        && r.grant.lease.generation == s.generation + 1 && r.grant.lease.deliveryId == r.grant.delivery.deliveryId
    {
      if roomSessionId !in sessions || sessions[roomSessionId].seed.runtimeId != runtimeId { return Refused; }
      var session := sessions[roomSessionId];
      var k := FirstOpen(session.deliveries);
      if k == |session.deliveries| || !Claimable(session, session.deliveries[k], now) { return Refused; }
      var delivery := session.deliveries[k];
      if delivery.status == InFlight {
        delivery := delivery.(envelope := delivery.envelope.(attempt := delivery.envelope.attempt + 1));
      }
      var generation := session.generation + 1;
      r := Granted(ClaimGrant(
        Lease(session.seed.roomSessionId, delivery.envelope.deliveryId, workerId, generation),
        session.seed.runtimeId, session.runtimeSessionId, session.checkpoint, session.cursor,
        delivery.envelope, session.pendingOutput));
      sessions := sessions[roomSessionId := session.(
        generation := generation, leaseOwnerId := Some(workerId), leaseExpiresAt := Some(now + leaseDuration),
        currentDeliveryId := Some(delivery.envelope.deliveryId),
        deliveries := session.deliveries[k := delivery.(status := InFlight)])];
    }

    method Heartbeat(lease: Lease, leaseDuration: nat, now: int) returns (r: Reply)
      modifies this
      ensures (State(), r) == Apply(old(State()), Operation.Heartbeat(lease, leaseDuration, now))
    {
      var owned := OwnsSession(lease, now);
      if !owned { return Fenced; }
      var session := sessions[lease.roomSessionId];
      sessions := sessions[lease.roomSessionId := session.(leaseExpiresAt := Some(now + leaseDuration))];
      return Renewed;
    }

    method BindRuntime(lease: Lease, handle: Handle, now: int) returns (r: Reply)
      modifies this
      ensures (State(), r) == Apply(old(State()), Operation.BindRuntime(lease, handle, now))
    {
      var owned := OwnsSession(lease, now);
      if !owned || handle.roomSessionId != lease.roomSessionId || handle.generation != lease.generation
         || handle.runtimeId != sessions[lease.roomSessionId].seed.runtimeId
      {
        return Fenced;
      }
      var session := sessions[lease.roomSessionId];
      sessions := sessions[lease.roomSessionId := session.(runtimeSessionId := Some(handle.runtimeSessionId))];
      return Bound;
    }

    method AppendEvent(lease: Lease, event: RuntimeEvent, now: int) returns (r: Reply)
      modifies this
      ensures (State(), r) == Apply(old(State()), Operation.AppendEvent(lease, event, now))
    {
      var owned := OwnsSession(lease, now);
      if !owned { return Fenced; }
      var session := sessions[lease.roomSessionId];
      var key := RuntimeEventId(session.seed.organizationId, lease.roomSessionId, lease.generation, event.eventId);
      if key in session.runtimeEvents {
        if session.runtimeEvents[key].event != event { return ReplayChanged; }
        return Duplicate(session.cursor);
      }
      var sequence := AppendPublicEvent(session.seed.roomId, RuntimeData(event), now, key);
      session := session.(runtimeEvents := session.runtimeEvents[key := StoredEvent(event, sequence)]);
      session := session.(cursor := session.cursor.(eventSequence := sequence));
      if event.payload.MessageReady? {
        session := session.(pendingOutput := Some(event.payload.output));
      } else if event.payload.CheckpointReady? {
        session := session.(checkpoint := Some(event.payload.checkpoint));
      }
      sessions := sessions[lease.roomSessionId := session];
      return Appended(session.cursor);
    }

    method PersistCheckpoint(lease: Lease, saved: Checkpoint, now: int) returns (r: Reply)
      modifies this
      ensures (State(), r) == Apply(old(State()), Operation.PersistCheckpoint(lease, saved, now))
    {
      var owned := OwnsSession(lease, now);
      if !owned { return Fenced; }
      sessions := sessions[lease.roomSessionId := sessions[lease.roomSessionId].(checkpoint := Some(saved))];
      return Persisted;
    }

    method FinishDelivery(lease: Lease, terminal: Terminal, output: Option<Output>, checkpoint: Option<Checkpoint>, now: int)
      returns (r: Reply)
      modifies this
      ensures (State(), r) == Apply(old(State()), Operation.Finish(lease, terminal, output, checkpoint, now))
    {
      if lease.roomSessionId in sessions {
        var known := sessions[lease.roomSessionId];
        var j := IndexOf(known.deliveries, lease.deliveryId);
        if j < |known.deliveries| && Settled(known.deliveries[j].status)
           && known.deliveries[j].terminal == Some(terminal)
        {
          return Duplicate(known.cursor);
        }
      }
      var owned := OwnsSession(lease, now);
      if !owned { return Fenced; }
      var session := sessions[lease.roomSessionId];
      var k := IndexOf(session.deliveries, lease.deliveryId);
      if k == |session.deliveries| { return Fenced; }
      var outputMessageId, outputSequence := None, 0;
      if IsSuccess(terminal) && output.Some? {
        var message := PublishAgentOutput(session, lease, output.value, now);
        outputMessageId, outputSequence := Some(message.messageId), message.sequence;
      }
      session := Settle(session, k, lease, terminal, checkpoint, outputMessageId, outputSequence, now);
      return Finished(session.cursor);
    }

    /** Records the terminal fact, moves the cursor and gives up the lease. */
    method Settle(session: Session, k: nat, lease: Lease, terminal: Terminal, checkpoint: Option<Checkpoint>,
                  outputMessageId: Option<GeneratedId>, outputSequence: nat, now: int) returns (settled: Session)
      requires k < |session.deliveries|
      modifies this
      ensures
        var w := AppendPublic(old(State()), session.seed.roomId,
          DeliverySettled(IsSuccess(terminal), lease.deliveryId, session.seed.roomSessionId, terminal, outputMessageId),
          now, ArtifactOf(session, lease, TerminalArtifact));
        && settled == FinishSession(session, k, terminal, checkpoint, outputSequence,
                                    w.roomEventSequences[session.seed.roomId], now)
        && State() == Put(w, lease.roomSessionId, settled)
    {
      settled := session;
      if checkpoint.Some? { settled := settled.(checkpoint := checkpoint); }
      var terminalSequence := AppendPublicEvent(
        session.seed.roomId,
        DeliverySettled(IsSuccess(terminal), lease.deliveryId, session.seed.roomSessionId, terminal, outputMessageId),
        now, ArtifactOf(session, lease, TerminalArtifact));
      var delivery := settled.deliveries[k].(
        status := if IsSuccess(terminal) then Completed else Failed, completedAt := Some(now),
        lastError := TerminalError(terminal), terminal := Some(terminal));
      settled := settled.(
        deliveries := settled.deliveries[k := delivery],
        cursor := Cursor(Max(Max(settled.cursor.messageSequence, delivery.envelope.messageSequence), outputSequence),
                         delivery.envelope.deliverySequence, terminalSequence),
        pendingOutput := None);
      settled := ClearLease(settled);
      sessions := sessions[lease.roomSessionId := settled];
    }

    method RetryDelivery(lease: Lease, failure: Failure, failedBy: Option<RuntimeEvent>, checkpoint: Option<Checkpoint>,
                         availableAt: int, now: int) returns (r: Reply)
      modifies this
      ensures (State(), r) == Apply(old(State()), Retry(lease, failure, failedBy, checkpoint, availableAt, now))
    {
      var owned := OwnsSession(lease, now);
      if !owned { return Fenced; }
      var k := IndexOf(sessions[lease.roomSessionId].deliveries, lease.deliveryId);
      if k == |sessions[lease.roomSessionId].deliveries| { return Fenced; }
      if failedBy.Some? {
        var stored := AppendEvent(lease, failedBy.value, now);
        if stored == ReplayChanged { return ReplayChanged; }
        if stored == Fenced { return Fenced; }
      }
      Requeue(lease, k, failure, checkpoint, availableAt, now);
      return Retried;
    }

    /** What a retry writes after the failed runtime event is stored. */
    method Requeue(lease: Lease, k: nat, failure: Failure, checkpoint: Option<Checkpoint>, availableAt: int, now: int)
      requires lease.roomSessionId in sessions && k < |sessions[lease.roomSessionId].deliveries|
      modifies this
      ensures State() == CommitRetry(old(State()), lease, k, failure, checkpoint, availableAt, now)
    {
      var session := sessions[lease.roomSessionId];
      if checkpoint.Some? { session := session.(checkpoint := checkpoint); }
      var delivery := session.deliveries[k];
      var nextAttempt := delivery.envelope.attempt + 1;
      var _ := AppendPublicEvent(
        session.seed.roomId,
        DeliveryRetrying(delivery.envelope.deliveryId, lease.generation, nextAttempt, failure),
        now, ArtifactOf(session, lease, RetryArtifact));
      delivery := delivery.(
        envelope := delivery.envelope.(attempt := nextAttempt), status := Pending,
        availableAt := availableAt, lastError := Some(failure.message));
      session := session.(deliveries := session.deliveries[k := delivery], pendingOutput := None);
      sessions := sessions[lease.roomSessionId := ClearLease(session)];
    }

    method OwnsSession(lease: Lease, now: int) returns (owned: bool)
      ensures owned == Owned(State(), lease, now)
    {
      if lease.roomSessionId !in sessions { return false; }
      var session := sessions[lease.roomSessionId];
      return session.generation == lease.generation
          && session.leaseOwnerId == Some(lease.workerId)
          && session.currentDeliveryId == Some(lease.deliveryId)
          && session.leaseExpiresAt.Some?
          && session.leaseExpiresAt.value > now;
    }

    method AppendAgentMessage(session: Session, output: Output, now: int) returns (message: Message)
      modifies this
      ensures message == AgentMessage(old(State()), session, output, now)
      ensures State() == AppendMessage(old(State()), message)
    {
      var roomId := session.seed.roomId;
      var sequence := Counter(roomMessageSequences, roomId) + 1;
      roomMessageSequences := roomMessageSequences[roomId := sequence];
      idSequence := idSequence + 1;
      message := Message(GeneratedId("message", idSequence), roomId, sequence, now, session.seed.agentId,
                         output.text, output.mentions, output.attachments.GetOr([]), session.currentDeliveryId);
      messages := messages + [message];
    }

    method PublishAgentOutput(session: Session, lease: Lease, output: Output, now: int) returns (message: Message)
      modifies this
      ensures message == AgentMessage(old(State()), session, output, now)
      ensures State() == PublishOutput(old(State()), session, lease, output, now)
    {
      message := AppendAgentMessage(session, output, now);
      var _ := AppendPublicEvent(session.seed.roomId, MessageCreated(message), now,
                                 ArtifactOf(session, lease, MessageArtifact));
    }

    method AppendPublicEvent(roomId: string, data: EventData, now: int, eventId: EventId) returns (sequence: nat)
      modifies this
      ensures State() == AppendPublic(old(State()), roomId, data, now, eventId)
      ensures roomId in roomEventSequences && sequence == roomEventSequences[roomId]
    {
      sequence := Counter(roomEventSequences, roomId) + 1;
      roomEventSequences := roomEventSequences[roomId := sequence];
      publicEvents := publicEvents + [PublicEvent(eventId, roomId, sequence, data, now)];
      idSequence := idSequence + 1;
      outbox := outbox + [OutboxRecord(GeneratedId("outbox", idSequence), roomId, sequence)];
    }

    /** Serves a whole sequence of calls, whoever makes them. */
    method Serve(ops: seq<Operation>)
      modifies this
      ensures State() == Run(old(State()), ops)
    {
      var i := 0;
      while i < |ops|
        invariant 0 <= i <= |ops|
        invariant Run(State(), ops[i..]) == Run(old(State()), ops)
      {
        var r;
        match ops[i] {
          case Claim(sid, runtimeId, workerId, leaseDuration, now) => r := Claim(sid, runtimeId, workerId, leaseDuration, now);
          case Heartbeat(lease, leaseDuration, now) => r := Heartbeat(lease, leaseDuration, now);
          case BindRuntime(lease, handle, now) => r := BindRuntime(lease, handle, now);
          case AppendEvent(lease, event, now) => r := AppendEvent(lease, event, now);
          case PersistCheckpoint(lease, saved, now) => r := PersistCheckpoint(lease, saved, now);
          case Finish(lease, terminal, output, checkpoint, now) => r := FinishDelivery(lease, terminal, output, checkpoint, now);
          case Retry(lease, failure, failedBy, checkpoint, availableAt, now) =>
            r := RetryDelivery(lease, failure, failedBy, checkpoint, availableAt, now);
        }
        assert ops[i..][1..] == ops[i + 1..];
        i := i + 1;
      }
    }
  }

  function ClearLease(s: Session): Session {
    s.(leaseOwnerId := None, leaseExpiresAt := None, currentDeliveryId := None)
  }

  lemma {:induction false} SeedFailureSpreads(seeds: seq<Seed>, i: nat)
    requires i <= |seeds| && SeedWorld(seeds[..i]).None?
    ensures SeedWorld(seeds).None?
    decreases |seeds| - i
  {
    if i < |seeds| {
      assert seeds[..i + 1][..i] == seeds[..i];
      SeedFailureSpreads(seeds, i + 1);
    } else {
      assert seeds[..i] == seeds;
    }
  }
}
