/**
 * What every call of a run adds to the public log, told from the history before
 * it, and what the history starts from: the seeds.
 */
module RoomTold {
  import opened Prelude
  import opened RoomProtocol
  import opened RoomInvariants
  import opened RoomGuarantees
  import opened RoomLedger
  import opened RoomHistory
  import opened RoomRecall

  lemma AppendTold(start: World, p: Past, w: World, op: Operation)
    requires Remembers(start, p, w) && op.AppendEvent? && Apply(w, op).1.Appended?
    ensures Target(op) in start.sessions
    ensures
      var seed := start.sessions[Target(op)].seed;
      Apply(w, op).0.publicEvents == w.publicEvents +
        [RuntimeNotice(seed, op.lease, op.event, LastEvent(start, p, seed.roomId) + 1, op.now)]
  {
    hide *;
    LeasedTarget(op);
    ApplyAppend(w, op);
    AppendForm(w, op.lease, op.event, op.now);
    SeedOf(start, p, w, op.lease.roomSessionId);
    FirstSays(w, op.lease, op.event, op.now, w.sessions[op.lease.roomSessionId].seed);
  }

  /** The events an accepted finish appends, by what it publishes. */
  lemma FinishSays(w: World, op: Operation, k: nat)
    requires op.Finish? && !AlreadyFinished(w, op.lease, op.terminal) && Owned(w, op.lease, op.now)
    requires op.lease.roomSessionId in w.sessions
    requires w.sessions[op.lease.roomSessionId].seed.roomSessionId == op.lease.roomSessionId
    requires k == IndexOf(w.sessions[op.lease.roomSessionId].deliveries, op.lease.deliveryId)
    requires k < |w.sessions[op.lease.roomSessionId].deliveries|
    ensures
      var seed := w.sessions[op.lease.roomSessionId].seed;
      exists events ::
        && Apply(w, op).0.publicEvents == w.publicEvents + events
        && FinishPublishes(seed, op.lease, op.terminal, op.output, op.now, Counter(w.roomEventSequences, seed.roomId),
                           Counter(w.roomMessageSequences, seed.roomId), events)
  {
    hide *;
    OwnedFields(w, op.lease, op.now);
    var s := w.sessions[op.lease.roomSessionId];
    var seed := s.seed;
    var event, message := Counter(w.roomEventSequences, seed.roomId), Counter(w.roomMessageSequences, seed.roomId);
    FinishLogs(w, op, k, s);
    FinishLogsAsTold(w, s, op, event, message);
  }

  /** The events a finish logs, as the store makes them. */
  function FinishLog(w: World, s: Session, op: Operation): seq<PublicEvent>
    requires op.Finish?
  {
    var room, n := s.seed.roomId, Counter(w.roomEventSequences, s.seed.roomId);
    if IsSuccess(op.terminal) && op.output.Some? then
      var m := AgentMessage(w, s, op.output.value, op.now);
      [PublicEvent(ArtifactOf(s, op.lease, MessageArtifact), room, n + 1, MessageCreated(m), op.now),
       PublicEvent(ArtifactOf(s, op.lease, TerminalArtifact), room, n + 2,
         DeliverySettled(true, op.lease.deliveryId, s.seed.roomSessionId, op.terminal, Some(m.messageId)), op.now)]
    else
      [PublicEvent(ArtifactOf(s, op.lease, TerminalArtifact), room, n + 1,
         DeliverySettled(IsSuccess(op.terminal), op.lease.deliveryId, s.seed.roomSessionId, op.terminal, None), op.now)]
  }

  lemma FinishLogs(w: World, op: Operation, k: nat, s: Session)
    requires op.Finish? && !AlreadyFinished(w, op.lease, op.terminal) && Owned(w, op.lease, op.now)
    requires op.lease.roomSessionId in w.sessions && s == w.sessions[op.lease.roomSessionId]
    requires k == IndexOf(s.deliveries, op.lease.deliveryId) && k < |s.deliveries|
    ensures Apply(w, op).0.publicEvents == w.publicEvents + FinishLog(w, s, op)
  {
    hide AlreadyFinished, Owned, FinishSession, IndexOf, AgentMessage, ArtifactOf, IsSuccess;
  }

  lemma FinishLogsAsTold(w: World, s: Session, op: Operation, event: nat, message: nat)
    requires op.Finish? && s.seed.roomSessionId == op.lease.roomSessionId && s.currentDeliveryId == Some(op.lease.deliveryId)
    requires event == Counter(w.roomEventSequences, s.seed.roomId) && message == Counter(w.roomMessageSequences, s.seed.roomId)
    ensures FinishPublishes(s.seed, op.lease, op.terminal, op.output, op.now, event, message, FinishLog(w, s, op))
  {
    if IsSuccess(op.terminal) && op.output.Some? {
      assert Carries(s.seed, op.lease, op.output.value, message + 1, op.now, AgentMessage(w, s, op.output.value, op.now));
    }
  }

  lemma FinishTold(start: World, base: map<string, nat>, p: Past, w: World, op: Operation)
    requires WorldInv(w, base) && Remembers(start, p, w) && op.Finish? && Apply(w, op).1.Finished?
    ensures Target(op) in start.sessions
    ensures exists events ::
      && Apply(w, op).0.publicEvents == w.publicEvents + events
      && Publishes(start, p, op, Apply(w, op).1, events)
  {
    hide *;
    var sid := op.lease.roomSessionId;
    FinishDeclined(w, op);
    FinishTook(start, p, op, Apply(w, op).1);
    OwnedOpen(w, base, op.lease, op.now);
    QueueFacts(w, base, sid);
    SeedOf(start, p, w, sid);
    var seed := w.sessions[sid].seed;
    FinishSays(w, op, IndexOf(w.sessions[sid].deliveries, op.lease.deliveryId));
    var events :|
      && Apply(w, op).0.publicEvents == w.publicEvents + events
      && FinishPublishes(seed, op.lease, op.terminal, op.output, op.now, Counter(w.roomEventSequences, seed.roomId),
                         Counter(w.roomMessageSequences, seed.roomId), events);
    FinishIs(start, p, op, Apply(w, op).1, events);
  }

  lemma FinishIs(start: World, p: Past, op: Operation, r: Reply, events: seq<PublicEvent>)
    requires op.Finish? && Took(Target(op), op, r) && Target(op) in start.sessions
    requires
      var seed := start.sessions[Target(op)].seed;
      FinishPublishes(seed, op.lease, op.terminal, op.output, op.now, LastEvent(start, p, seed.roomId),
                      LastMessage(start, p, seed.roomId), events)
    ensures Publishes(start, p, op, r, events)
  {
    hide FinishPublishes, LastEvent, LastMessage, Took;
  }

  lemma CommitSays(w: World, lease: Lease, k: nat, failure: Failure, checkpoint: Option<Checkpoint>, availableAt: int, now: int,
                   seed: Seed, event: nat)
    requires lease.roomSessionId in w.sessions && k < |w.sessions[lease.roomSessionId].deliveries|
    requires w.sessions[lease.roomSessionId].seed == seed && event == Counter(w.roomEventSequences, seed.roomId)
    requires w.sessions[lease.roomSessionId].deliveries[k].envelope.deliveryId == lease.deliveryId
    ensures
      var attempt := w.sessions[lease.roomSessionId].deliveries[k].envelope.attempt;
      CommitRetry(w, lease, k, failure, checkpoint, availableAt, now).publicEvents == w.publicEvents +
        [Notice(seed, lease, RetryArtifact, event + 1,
                DeliveryRetrying(lease.deliveryId, lease.generation, attempt + 1, failure), now)]
  {
    hide RetrySession;
  }

  /** What storing the failed event does to the log before the retry is written. */
  lemma FirstSays(w: World, lease: Lease, event: RuntimeEvent, now: int, seed: Seed)
    requires lease.roomSessionId in w.sessions && w.sessions[lease.roomSessionId].seed == seed
    ensures
      var (w1, r) := DoAppend(w, lease, event, now);
      if !r.Appended? then w1 == w
      else
        && lease.roomSessionId in w1.sessions && w1.sessions[lease.roomSessionId].seed == seed
        && w1.publicEvents == w.publicEvents +
             [RuntimeNotice(seed, lease, event, Counter(w.roomEventSequences, seed.roomId) + 1, now)]
        && Counter(w1.roomEventSequences, seed.roomId) == Counter(w.roomEventSequences, seed.roomId) + 1
  {
    AppendForm(w, lease, event, now);
    hide DoAppend, Owned;
  }

  lemma RetryIs(start: World, p: Past, op: Operation, r: Reply, e: Envelope)
    requires op.Retry? && Took(Target(op), op, r) && Target(op) in start.sessions
    requires Sent(start.sessions[Target(op)].seed, e, op.lease.deliveryId)
    ensures
      var seed := start.sessions[Target(op)].seed;
      var attempt := e.attempt + Raised(p, op.lease.roomSessionId, op.lease.deliveryId) + 1;
      Publishes(start, p, op, r,
        RetryEvents(seed, p, op.lease, op.failedBy, DeliveryRetrying(op.lease.deliveryId, op.lease.generation, attempt, op.failure),
                    LastEvent(start, p, seed.roomId), op.now))
  {
    hide LastEvent, LastMessage, Took, Sent, Raised, RetryEvents;
  }

  lemma RetryEventsAre(seed: Seed, p: Past, op: Operation, retrying: EventData, event: nat)
    requires op.Retry?
    ensures RetryEvents(seed, p, op.lease, op.failedBy, retrying, event, op.now) ==
      (if NewlyStored(p, op.lease, op.failedBy) then [RuntimeNotice(seed, op.lease, op.failedBy.value, event + 1, op.now)] else [])
      + [Notice(seed, op.lease, RetryArtifact, if NewlyStored(p, op.lease, op.failedBy) then event + 2 else event + 1, retrying, op.now)]
  {
  }

  lemma RetryTold(start: World, base: map<string, nat>, p: Past, w: World, op: Operation)
    requires WorldInv(w, base) && Remembers(start, p, w) && op.Retry? && Apply(w, op).1.Retried?
    ensures Target(op) in start.sessions
    ensures exists events ::
      && Apply(w, op).0.publicEvents == w.publicEvents + events
      && Publishes(start, p, op, Apply(w, op).1, events)
  {
    hide *;
    var sid := op.lease.roomSessionId;
    RetryTook(start, p, op, Apply(w, op).1);
    RetryForm(w, op);
    SeedOf(start, p, w, sid);
    OwnedOpen(w, base, op.lease, op.now);
    RecallOf(start, p, w, sid);
    var s := w.sessions[sid];
    RecallsSplit(start, p, sid, s);
    var seed, k := s.seed, IndexOf(s.deliveries, op.lease.deliveryId);
    KnownIsSent(p, sid, s, k);
    RecallsId(p, sid, s, k);
    var e := SortedEnvelopes(seed)[k];
    AttemptOf(p, sid, e, s.deliveries[k]);
    RetrySays(start, p, w, op, k, e);
  }

  /** A retry writes its own event after the one it stores, if it stores one. */
  lemma RetryWrites(start: World, p: Past, w: World, op: Operation, seed: Seed, k: nat, event: nat, retrying: EventData)
    requires op.Retry? && op.lease.roomSessionId in w.sessions
    requires k == IndexOf(w.sessions[op.lease.roomSessionId].deliveries, op.lease.deliveryId)
    requires k < |w.sessions[op.lease.roomSessionId].deliveries|
    requires w.sessions[op.lease.roomSessionId].deliveries[k].envelope.deliveryId == op.lease.deliveryId
    requires retrying == DeliveryRetrying(op.lease.deliveryId, op.lease.generation,
               w.sessions[op.lease.roomSessionId].deliveries[k].envelope.attempt + 1, op.failure)
    requires w.sessions[op.lease.roomSessionId].seed == seed && event == Counter(w.roomEventSequences, seed.roomId)
    requires Remembers(start, p, w) && Apply(w, op).1.Retried?
    ensures Apply(w, op).0.publicEvents ==
              w.publicEvents + RetryEvents(seed, p, op.lease, op.failedBy, retrying, event, op.now)
  {
    hide *;
    StoredOrNot(p, op);
    RetryEventsAre(seed, p, op, retrying, event);
    RetryForm(w, op);
    if op.failedBy.Some? {
      FirstSays(w, op.lease, op.failedBy.value, op.now, seed);
      AppendAnswer(start, p, w, op.lease, op.failedBy.value, op.now);
    }
    if NewlyStored(p, op.lease, op.failedBy) {
      var w1 := DoAppend(w, op.lease, op.failedBy.value, op.now).0;
      CommitSays(w1, op.lease, k, op.failure, op.checkpoint, op.availableAt, op.now, seed, event + 1);
    } else {
      CommitSays(w, op.lease, k, op.failure, op.checkpoint, op.availableAt, op.now, seed, event);
    }
  }

  /** Both events of a retry, or the one, in terms of the envelope that was sent. */
  lemma RetrySays(start: World, p: Past, w: World, op: Operation, k: nat, e: Envelope)
    requires op.Retry? && op.lease.roomSessionId in w.sessions
    requires k == IndexOf(w.sessions[op.lease.roomSessionId].deliveries, op.lease.deliveryId)
    requires k < |w.sessions[op.lease.roomSessionId].deliveries|
    requires
      var d := w.sessions[op.lease.roomSessionId].deliveries[k];
      && d.envelope.deliveryId == op.lease.deliveryId
      && d.envelope.attempt == e.attempt + Raised(p, op.lease.roomSessionId, op.lease.deliveryId)
    requires Sent(w.sessions[op.lease.roomSessionId].seed, e, op.lease.deliveryId)
    requires Remembers(start, p, w) && Apply(w, op).1.Retried?
    ensures exists events ::
      && Apply(w, op).0.publicEvents == w.publicEvents + events
      && Publishes(start, p, op, Apply(w, op).1, events)
  {
    hide *;
    var sid := op.lease.roomSessionId;
    SeedOf(start, p, w, sid);
    RetryTook(start, p, op, Apply(w, op).1);
    var seed := w.sessions[sid].seed;
    var event := Counter(w.roomEventSequences, seed.roomId);
    var retrying := DeliveryRetrying(op.lease.deliveryId, op.lease.generation,
                                     w.sessions[sid].deliveries[k].envelope.attempt + 1, op.failure);
    RetryWrites(start, p, w, op, seed, k, event, retrying);
    RetryIs(start, p, op, Apply(w, op).1, e);
  }

  lemma AttemptOf(p: Past, sid: string, e: Envelope, d: Delivery)
    requires RecallsDelivery(p, sid, e, d)
    ensures d.envelope.attempt == e.attempt + Raised(p, sid, d.envelope.deliveryId)
  {
  }

  lemma StoredOrNot(p: Past, op: Operation)
    requires op.Retry?
    ensures NewlyStored(p, op.lease, op.failedBy) <==>
      op.failedBy.Some? && (op.lease.generation, op.failedBy.value.eventId) !in Stored(p, op.lease.roomSessionId)
  {
  }

  lemma SilentIs(start: World, p: Past, op: Operation, r: Reply)
    requires Silent(op) || !Took(Target(op), op, r)
    ensures Publishes(start, p, op, r, [])
  {
    hide Took, LastEvent, LastMessage;
  }

  lemma SilentSays(w: World, op: Operation)
    requires Silent(op)
    ensures Apply(w, op).0.publicEvents == w.publicEvents
  {
  }

  lemma AppendIs(start: World, p: Past, op: Operation, r: Reply)
    requires op.AppendEvent? && Took(Target(op), op, r) && Target(op) in start.sessions
    ensures
      var seed := start.sessions[Target(op)].seed;
      Publishes(start, p, op, r, [RuntimeNotice(seed, op.lease, op.event, LastEvent(start, p, seed.roomId) + 1, op.now)])
  {
    hide LastEvent, LastMessage, Took;
  }

  lemma NothingSaid(start: World, p: Past, w: World, op: Operation, r: Reply, w': World)
    requires w'.publicEvents == w.publicEvents && Publishes(start, p, op, r, [])
    ensures exists events :: w'.publicEvents == w.publicEvents + events && Publishes(start, p, op, r, events)
  {
    hide Publishes;
    assert w'.publicEvents == w.publicEvents + [];
  }

  lemma CallTold(start: World, base: map<string, nat>, p: Past, w: World, op: Operation)
    requires WorldInv(w, base) && Remembers(start, p, w)
    ensures exists events ::
      && Apply(w, op).0.publicEvents == w.publicEvents + events
      && Publishes(start, p, op, Apply(w, op).1, events)
  {
    hide *;
    var r := Apply(w, op).1;
    TookWhat(op, r);
    if Silent(op) {
      SilentIs(start, p, op, r);
      SilentSays(w, op);
      NothingSaid(start, p, w, op, r, Apply(w, op).0);
    } else if !Took(Target(op), op, r) {
      SilentIs(start, p, op, r);
      NotTakenSays(w, op);
      NothingSaid(start, p, w, op, r, Apply(w, op).0);
    } else if op.AppendEvent? {
      AppendTold(start, p, w, op);
      AppendIs(start, p, op, r);
    } else if op.Finish? {
      FinishTold(start, base, p, w, op);
    } else {
      RetryTold(start, base, p, w, op);
    }
  }

  /**
   * The public log of every run says what was done and nothing else: each call
   * taken adds the events the history before it asks for, numbered on from the
   * room's last, and every other call adds none. The log of a seeded store is empty.
   */
  lemma LogTellsHistory(seeds: seq<Seed>, ops: seq<Operation>, w: World, op: Operation)
    requires Reached(seeds, ops, w)
    ensures SeedWorld(seeds).value.publicEvents == []
    ensures exists events ::
      && Apply(w, op).0.publicEvents == w.publicEvents + events
      && Publishes(SeedWorld(seeds).value, Trace(SeedWorld(seeds).value, ops), op, Apply(w, op).1, events)
  {
    RunRemembers(seeds, ops);
    ReachedInv(seeds, ops, w);
    SeedWorldInv(seeds);
    StartOf(seeds, ops, w);
    hide *;
    CallTold(SeedWorld(seeds).value, BaseCounters(seeds), Trace(SeedWorld(seeds).value, ops), w, op);
  }

  lemma TookWhat(op: Operation, r: Reply)
    ensures Silent(op) || op.AppendEvent? || op.Finish? || op.Retry?
    ensures op.AppendEvent? ==> (Took(Target(op), op, r) <==> r.Appended?)
    ensures op.Finish? ==> (Took(Target(op), op, r) <==> r.Finished?)
    ensures op.Retry? ==> (Took(Target(op), op, r) <==> r.Retried?)
  {
  }

  lemma NotTakenSays(w: World, op: Operation)
    requires !Silent(op) && !Took(Target(op), op, Apply(w, op).1)
    ensures Apply(w, op).0 == w
  {
    TookWhat(op, Apply(w, op).1);
    if op.AppendEvent? {
      ApplyAppend(w, op);
      AppendForm(w, op.lease, op.event, op.now);
    } else if op.Retry? {
      RetryForm(w, op);
    } else {
      FinishUntaken(w, op);
    }
    hide *;
  }

  lemma FinishUntaken(w: World, op: Operation)
    requires op.Finish? && !Apply(w, op).1.Finished?
    ensures Apply(w, op).0 == w
  {
    hide PublishOutput, FinishSession, AlreadyFinished, Owned, IndexOf, AgentMessage;
  }

  // ----- what the history starts from

  ghost predicate InRoom(seeds: seq<Seed>, seed: Seed, room: string) {
    seed in seeds && seed.roomId == room
  }

  lemma {:induction false} SeedsGiven(seeds: seq<Seed>, sid: string)
    requires SeedWorld(seeds).Some?
    ensures sid in SeedWorld(seeds).value.sessions <==> exists seed :: seed in seeds && seed.roomSessionId == sid
    ensures sid in SeedWorld(seeds).value.sessions ==>
      var seed := SeedWorld(seeds).value.sessions[sid].seed;
      seed in seeds && seed.roomSessionId == sid
  {
    if seeds != [] {
      var front, last := seeds[..|seeds| - 1], seeds[|seeds| - 1];
      assert seeds == front + [last];
      SeedsGiven(front, sid);
      NamesItsSeed(last);
      hide SeededSession;
    }
  }

  /** The counters of a room start at the furthest its seeds have read, its messages at the last they know. */
  ghost predicate StartsAt(seeds: seq<Seed>, room: string, events: nat, messages: nat) {
    && (forall seed | InRoom(seeds, seed, room) ::
          && seed.cursor.GetOr(Cursor(0, 0, 0)).eventSequence <= events && seed.throughMessageSequence <= messages
          && forall n | n in seed.contextSequences :: n <= messages)
    && (events == 0 ||
        exists seed :: InRoom(seeds, seed, room) && seed.cursor.GetOr(Cursor(0, 0, 0)).eventSequence == events)
    && (messages == 0 ||
        exists seed :: InRoom(seeds, seed, room)
          && (seed.throughMessageSequence == messages || messages in seed.contextSequences))
  }

  lemma StartsWith(front: seq<Seed>, last: Seed, room: string, events: nat, messages: nat, events': nat, messages': nat)
    requires StartsAt(front, room, events, messages)
    requires if last.roomId != room then events' == events && messages' == messages
      else
        && events' == Max(events, SeedCursor(last).eventSequence)
        && messages' == Largest(messages, [last.throughMessageSequence] + last.contextSequences)
    ensures StartsAt(front + [last], room, events', messages')
  {
    var seeds := front + [last];
    var known := [last.throughMessageSequence] + last.contextSequences;
    forall seed | InRoom(front, seed, room) ensures InRoom(seeds, seed, room) {}
    assert InRoom(seeds, last, last.roomId);
    forall seed | InRoom(seeds, seed, room) && seed != last ensures InRoom(front, seed, room) {}
    if last.roomId == room {
      assert last.throughMessageSequence in known;
      forall n | n in last.contextSequences ensures n in known {}
    }
    hide InRoom, Largest;
  }

  /** A run starts from its seeds: their sessions and no others, and counters no seed is ahead of. */
  lemma {:induction false} StartsFromSeeds(seeds: seq<Seed>, room: string)
    requires SeedWorld(seeds).Some?
    ensures
      var start := SeedWorld(seeds).value;
      && StartsAt(seeds, room, LastEvent(start, Nothing, room), LastMessage(start, Nothing, room))
      && (forall sid :: sid in start.sessions <==> exists seed :: seed in seeds && seed.roomSessionId == sid)
      && (forall sid | sid in start.sessions :: start.sessions[sid].seed in seeds && start.sessions[sid].seed.roomSessionId == sid)
  {
    var start := SeedWorld(seeds).value;
    forall sid: string ensures
      && (sid in start.sessions <==> exists seed :: seed in seeds && seed.roomSessionId == sid)
      && (sid in start.sessions ==> start.sessions[sid].seed in seeds && start.sessions[sid].seed.roomSessionId == sid)
    {
      SeedsGiven(seeds, sid);
    }
    hide SeededSession;
    if seeds != [] {
      var front, last := seeds[..|seeds| - 1], seeds[|seeds| - 1];
      assert seeds == front + [last];
      StartsFromSeeds(front, room);
      var before := SeedWorld(front).value;
      StartsWith(front, last, room, LastEvent(before, Nothing, room), LastMessage(before, Nothing, room),
                 LastEvent(start, Nothing, room), LastMessage(start, Nothing, room));
    }
  }
}
