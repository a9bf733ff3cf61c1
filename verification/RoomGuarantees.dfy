/**
 * What callers may rely on, over every run: any interleaving of any operations
 * with any leases and clock readings, starting from any well-formed seeds.
 */
module RoomGuarantees {
  import opened Prelude
  import opened Sorting
  import opened RoomProtocol
  import opened RoomInvariants

  // ----- seeds establish the invariant

  /** Distinct delivery ids and sequences; the cursor does not point past the first delivery. */
  ghost predicate ValidSeed(seed: Seed) {
    && DistinctBy(seed.deliveries, (e: Envelope) => e.deliveryId)
    && DistinctBy(seed.deliveries, (e: Envelope) => e.deliverySequence)
    && forall e | e in seed.deliveries :: SeedCursor(seed).deliverySequence <= e.deliverySequence
  }

  lemma EnvelopesInOrder(seed: Seed)
    requires ValidSeed(seed)
    ensures
      var es := SortedEnvelopes(seed);
      && DistinctBy(es, (e: Envelope) => e.deliveryId)
      && (forall i, j | 0 <= i < j < |es| :: es[i].deliverySequence < es[j].deliverySequence)
      && (forall e | e in es :: e in seed.deliveries)
  {
    var es := SortedEnvelopes(seed);
    SortPermutes(seed.deliveries, EarlierEnvelope);
    SortSorted(seed.deliveries, EarlierEnvelope);
    DistinctPermutes(seed.deliveries, es, (e: Envelope) => e.deliveryId);
    DistinctPermutes(seed.deliveries, es, (e: Envelope) => e.deliverySequence);
    forall i, j | 0 <= i < j < |es| ensures es[i].deliverySequence < es[j].deliverySequence {
      assert !EarlierEnvelope(es[j], es[i]);
      var key := (e: Envelope) => e.deliverySequence;
      assert key(es[i]) != key(es[j]);
    }
  }

  lemma {:induction false} FreshEpochs(envelopes: seq<Envelope>)
    ensures Epochs(FreshDeliveries(envelopes), envelopes) == 0
  {
    if envelopes != [] {
      assert FreshDeliveries(envelopes)[1..] == FreshDeliveries(envelopes[1..]);
      FreshEpochs(envelopes[1..]);
    }
  }

  lemma SeededSessionInv(seed: Seed)
    requires ValidSeed(seed)
    ensures SessionInv(SeededSession(seed))
  {
    var s := SeededSession(seed);
    var es := SortedEnvelopes(seed);
    EnvelopesInOrder(seed);
    FreshEpochs(es);
    FirstOpenIs(s.deliveries, 0);
    assert DistinctIds(s.deliveries) by {
      var key := (e: Envelope) => e.deliveryId;
      forall i, j | 0 <= i < j < |es| ensures es[i].deliveryId != es[j].deliveryId {
        assert key(es[i]) != key(es[j]);
      }
    }
  }

  lemma {:induction false} SeedWorldInv(seeds: seq<Seed>)
    requires forall seed | seed in seeds :: ValidSeed(seed)
    requires SeedWorld(seeds).Some?
    ensures
      var w := SeedWorld(seeds).value;
      WorldInv(w, w.roomEventSequences) && w.publicEvents == []
  {
    if seeds != [] {
      var front, seed := seeds[..|seeds| - 1], seeds[|seeds| - 1];
      SeedWorldInv(front);
      AddSessionInv(SeedWorld(front).value, SeedWorld(seeds).value, seed);
    }
  }

  lemma AddedLog(w: World, w': World, seed: Seed)
    requires LogInv(w, w.roomEventSequences) && w.publicEvents == [] && AddSession(w, seed) == Some(w')
    ensures LogInv(w', w'.roomEventSequences) && w'.publicEvents == []
  {
    hide SeededSession;
    forall r: string ensures Contiguous(w', w'.roomEventSequences, r) { assert Contiguous(w, w.roomEventSequences, r); }
  }

  lemma InvOf(w: World, base: map<string, nat>)
    requires LogInv(w, base) && forall sid | sid in w.sessions :: SessionInStore(w, sid) && ExactlyOnce(w, sid)
    ensures WorldInv(w, base)
  {
  }

  /** Adding a session raises counters, never past what any session remembers. */
  lemma AddSessionInv(w: World, w': World, seed: Seed)
    requires WorldInv(w, w.roomEventSequences) && w.publicEvents == []
    requires ValidSeed(seed) && AddSession(w, seed) == Some(w')
    ensures WorldInv(w', w'.roomEventSequences) && w'.publicEvents == []
  {
    hide *;
    LogIn(w, w.roomEventSequences);
    AddedLog(w, w', seed);
    forall sid | sid in w'.sessions ensures SessionInStore(w', sid) && ExactlyOnce(w', sid) {
      if sid == seed.roomSessionId { NewSessionInStore(w, w', seed); } else { OldSessionInStore(w, w', seed, sid); }
    }
    InvOf(w', w'.roomEventSequences);
  }

  lemma NewSessionInStore(w: World, w': World, seed: Seed)
    requires ValidSeed(seed) && AddSession(w, seed) == Some(w') && w.publicEvents == []
    ensures seed.roomSessionId in w'.sessions && SessionInStore(w', seed.roomSessionId) && ExactlyOnce(w', seed.roomSessionId)
  {
    SeededSessionInv(seed);
    hide SessionInv, ValidSeed, SortedEnvelopes;
  }

  lemma OldSessionInStore(w: World, w': World, seed: Seed, sid: string)
    requires WorldInv(w, w.roomEventSequences) && AddSession(w, seed) == Some(w') && sid in w'.sessions
    requires sid != seed.roomSessionId && w.publicEvents == []
    ensures SessionInStore(w', sid) && ExactlyOnce(w', sid)
  {
    InStore(w, w.roomEventSequences, sid);
    hide WorldInv, SessionInv, SeededSession;
  }

  // ----- every operation, and so every run, keeps the invariant

  lemma ApplyKeeps(w: World, base: map<string, nat>, op: Operation)
    requires WorldInv(w, base)
    ensures WorldInv(Apply(w, op).0, base)
  {
    hide WorldInv;
    match op
    case Claim(sid, runtimeId, workerId, leaseDuration, now) => ClaimKeeps(w, base, sid, runtimeId, workerId, leaseDuration, now);
    case Heartbeat(lease, leaseDuration, now) => RenewKeeps(w, base, lease, leaseDuration, now);
    case BindRuntime(lease, handle, now) => BindKeeps(w, base, lease, handle, now);
    case AppendEvent(lease, event, now) => AppendKeeps(w, base, lease, event, now);
    case PersistCheckpoint(lease, saved, now) => PersistKeeps(w, base, lease, saved, now);
    case Finish(lease, terminal, output, checkpoint, now) => FinishKeeps(w, base, lease, terminal, output, checkpoint, now);
    case Retry(lease, failure, failedBy, checkpoint, availableAt, now) =>
      RetryKeeps(w, base, lease, failure, failedBy, checkpoint, availableAt, now);
  }

  lemma {:induction false} RunKeeps(w: World, base: map<string, nat>, ops: seq<Operation>)
    requires WorldInv(w, base)
    ensures WorldInv(Run(w, ops), base)
    decreases |ops|
  {
    if ops != [] {
      ApplyKeeps(w, base, ops[0]);
      RunKeeps(Apply(w, ops[0]).0, base, ops[1..]);
    }
  }

  // ----- what one step may do to a session

  ghost predicate CursorAdvances(c: Cursor, c': Cursor) {
    c.messageSequence <= c'.messageSequence && c.deliverySequence <= c'.deliverySequence
    && c.eventSequence <= c'.eventSequence
  }

  ghost predicate Progress(s: Session, s': Session) {
    && s'.seed == s.seed && |s'.deliveries| == |s.deliveries|
    && s.generation <= s'.generation
    && (s.generation == s'.generation && s.currentDeliveryId.None? ==> s'.currentDeliveryId.None?)
    && (forall i | 0 <= i < |s.deliveries| ::
          && (Settled(s.deliveries[i].status) ==> s'.deliveries[i] == s.deliveries[i])
          && s'.deliveries[i].envelope.deliveryId == s.deliveries[i].envelope.deliveryId)
    && CursorAdvances(s.cursor, s'.cursor)
    && (forall key | key in s.runtimeEvents :: key in s'.runtimeEvents && s'.runtimeEvents[key] == s.runtimeEvents[key])
  }

  ghost predicate AllProgress(w: World, w': World) {
    forall sid | sid in w.sessions :: sid in w'.sessions && Progress(w.sessions[sid], w'.sessions[sid])
  }

  lemma PutProgress(w: World, w': World, sid: string, s': Session)
    requires sid in w.sessions && w'.sessions == w.sessions[sid := s']
    requires Progress(w.sessions[sid], s')
    ensures AllProgress(w, w')
  {
  }

  lemma ClaimSessionProgress(s: Session, k: nat, workerId: string, expiresAt: int)
    requires k < |s.deliveries| && !Settled(s.deliveries[k].status)
    ensures Progress(s, ClaimSession(s, k, workerId, expiresAt))
  {
  }

  lemma RecordProgress(s: Session, key: EventId, event: RuntimeEvent, sequence: nat)
    requires key !in s.runtimeEvents && s.cursor.eventSequence <= sequence
    ensures Progress(s, RecordEvent(s, key, event, sequence))
  {
  }

  lemma RetrySessionProgress(s: Session, k: nat, failure: Failure, checkpoint: Option<Checkpoint>, availableAt: int)
    requires k < |s.deliveries| && !Settled(s.deliveries[k].status)
    ensures Progress(s, RetrySession(s, k, failure, checkpoint, availableAt))
  {
  }

  lemma FinishSessionProgress(s: Session, k: nat, terminal: Terminal, checkpoint: Option<Checkpoint>,
                              outputSequence: nat, terminalSequence: nat, now: int)
    requires SessionInv(s) && k == FirstOpen(s.deliveries) < |s.deliveries|
    requires s.cursor.eventSequence <= terminalSequence
    ensures Progress(s, FinishSession(s, k, terminal, checkpoint, outputSequence, terminalSequence, now))
  {
    assert CursorOnQueue(s) && Increasing(s.deliveries);
  }

  lemma ClaimProgress(w: World, sid: string, runtimeId: string, workerId: string, leaseDuration: nat, now: int)
    ensures AllProgress(w, DoClaim(w, sid, runtimeId, workerId, leaseDuration, now).0)
  {
    hide AllProgress, Progress;
    if CanClaim(w, sid, runtimeId, now) {
      var s := w.sessions[sid];
      ClaimSessionProgress(s, FirstOpen(s.deliveries), workerId, now + leaseDuration);
      PutProgress(w, DoClaim(w, sid, runtimeId, workerId, leaseDuration, now).0, sid,
        GrantedSession(w, sid, workerId, now + leaseDuration));
    } else {
      NoProgressNeeded(w);
    }
  }

  lemma AppendProgress(w: World, base: map<string, nat>, lease: Lease, event: RuntimeEvent, now: int)
    requires WorldInv(w, base)
    ensures AllProgress(w, DoAppend(w, lease, event, now).0)
  {
    hide WorldInv, AllProgress, Progress;
    if DoAppend(w, lease, event, now).1.Appended? {
      var s := w.sessions[lease.roomSessionId];
      var key := RuntimeKey(s, lease, event);
      var next := Counter(w.roomEventSequences, s.seed.roomId) + 1;
      InStore(w, base, lease.roomSessionId);
      RecordProgress(s, key, event, next);
      PutProgress(w, DoAppend(w, lease, event, now).0, lease.roomSessionId, RecordEvent(s, key, event, next));
    } else {
      NoProgressNeeded(w);
    }
  }

  /** The one session a finish rewrites. */
  lemma FinishWrites(w: World, lease: Lease, terminal: Terminal, output: Option<Output>, checkpoint: Option<Checkpoint>,
                     now: int, k: nat)
    requires !AlreadyFinished(w, lease, terminal) && Owned(w, lease, now)
    requires k == IndexOf(w.sessions[lease.roomSessionId].deliveries, lease.deliveryId)
    requires k < |w.sessions[lease.roomSessionId].deliveries|
    ensures
      var s := w.sessions[lease.roomSessionId];
      var publishes := IsSuccess(terminal) && output.Some?;
      var w1 := if publishes then PublishOutput(w, s, lease, output.value, now) else w;
      var outputSequence := if publishes then AgentMessage(w, s, output.value, now).sequence else 0;
      var next := Counter(w1.roomEventSequences, s.seed.roomId) + 1;
      DoFinish(w, lease, terminal, output, checkpoint, now).0.sessions
        == w.sessions[lease.roomSessionId := FinishSession(s, k, terminal, checkpoint, outputSequence, next, now)]
  {
    hide AlreadyFinished, Owned, FinishSession;
  }

  lemma CursorWithin(w: World, base: map<string, nat>, sid: string, w1: World)
    requires WorldInv(w, base) && sid in w.sessions && CountersGrow(w, w1)
    ensures SessionInv(w.sessions[sid])
    ensures w.sessions[sid].cursor.eventSequence <= Counter(w1.roomEventSequences, w.sessions[sid].seed.roomId) + 1
  {
    InStore(w, base, sid);
    hide WorldInv, SessionInv;
    assert Counter(w.roomEventSequences, w.sessions[sid].seed.roomId) <= Counter(w1.roomEventSequences, w.sessions[sid].seed.roomId);
  }

  lemma FinishProgress(w: World, base: map<string, nat>, lease: Lease, terminal: Terminal, output: Option<Output>,
                       checkpoint: Option<Checkpoint>, now: int)
    requires WorldInv(w, base)
    ensures AllProgress(w, DoFinish(w, lease, terminal, output, checkpoint, now).0)
  {
    hide *;
    LogIn(w, base);
    if AlreadyFinished(w, lease, terminal) || !Owned(w, lease, now) {
      FinishNothing(w, lease, terminal, output, checkpoint, now);
      NoProgressNeeded(w);
    } else {
      OwnedInStore(w, lease, now);
      OwnedIsCurrent(w, base, lease, now);
      var s := w.sessions[lease.roomSessionId];
      var k := IndexOf(s.deliveries, lease.deliveryId);
      var publishes := IsSuccess(terminal) && output.Some?;
      var w1 := if publishes then PublishOutput(w, s, lease, output.value, now) else w;
      var outputSequence := if publishes then AgentMessage(w, s, output.value, now).sequence else 0;
      var next := Counter(w1.roomEventSequences, s.seed.roomId) + 1;
      var s' := FinishSession(s, k, terminal, checkpoint, outputSequence, next, now);
      SaysNothing(w, s, lease, terminal);
      if publishes { PublishKeepsLog(w, base, s, lease, output.value, now); }
      assert CountersGrow(w, w1);
      CursorWithin(w, base, lease.roomSessionId, w1);
      FinishWrites(w, lease, terminal, output, checkpoint, now, k);
      FinishSessionProgress(s, k, terminal, checkpoint, outputSequence, next, now);
      PutProgress(w, DoFinish(w, lease, terminal, output, checkpoint, now).0, lease.roomSessionId, s');
    }
  }

  lemma CommitRetryProgress(w: World, lease: Lease, k: nat, failure: Failure,
                            checkpoint: Option<Checkpoint>, availableAt: int, now: int)
    requires lease.roomSessionId in w.sessions
    requires k < |w.sessions[lease.roomSessionId].deliveries|
    requires !Settled(w.sessions[lease.roomSessionId].deliveries[k].status)
    ensures AllProgress(w, CommitRetry(w, lease, k, failure, checkpoint, availableAt, now))
  {
    hide AllProgress, Progress;
    var s := w.sessions[lease.roomSessionId];
    RetrySessionProgress(s, k, failure, checkpoint, availableAt);
    PutProgress(w, CommitRetry(w, lease, k, failure, checkpoint, availableAt, now), lease.roomSessionId,
      RetrySession(s, k, failure, checkpoint, availableAt));
  }

  lemma ProgressIsTransitive(w: World, w1: World, w2: World)
    requires AllProgress(w, w1) && AllProgress(w1, w2)
    ensures AllProgress(w, w2)
  {
    forall sid | sid in w.sessions ensures sid in w2.sessions && Progress(w.sessions[sid], w2.sessions[sid]) {
      var s, s1, s2 := w.sessions[sid], w1.sessions[sid], w2.sessions[sid];
      assert Progress(s, s1) && Progress(s1, s2);
    }
  }

  lemma RetryProgress(w: World, base: map<string, nat>, lease: Lease, failure: Failure, failedBy: Option<RuntimeEvent>,
                      checkpoint: Option<Checkpoint>, availableAt: int, now: int)
    requires WorldInv(w, base)
    ensures AllProgress(w, DoRetry(w, lease, failure, failedBy, checkpoint, availableAt, now).0)
  {
    hide WorldInv, AllProgress, Progress;
    if Owned(w, lease, now) {
      OwnedIsCurrent(w, base, lease, now);
      var k := IndexOf(w.sessions[lease.roomSessionId].deliveries, lease.deliveryId);
      if failedBy.Some? {
        var w1 := DoAppend(w, lease, failedBy.value, now).0;
        AppendKeeps(w, base, lease, failedBy.value, now);
        AppendKeepsQueue(w, lease, failedBy.value, now);
        AppendProgress(w, base, lease, failedBy.value, now);
        CommitRetryProgress(w1, lease, k, failure, checkpoint, availableAt, now);
        ProgressIsTransitive(w, w1, CommitRetry(w1, lease, k, failure, checkpoint, availableAt, now));
      } else {
        CommitRetryProgress(w, lease, k, failure, checkpoint, availableAt, now);
      }
    } else {
      NoProgressNeeded(w);
    }
  }

  lemma NoProgressNeeded(w: World)
    ensures AllProgress(w, w)
  {
  }

  /** Renewing a lease, binding a runtime and saving a checkpoint touch nothing that progress speaks of. */
  lemma QuietProgress(w: World, lease: Lease, now: int, s': Session)
    requires Owned(w, lease, now)
    requires
      var s := w.sessions[lease.roomSessionId];
      s' == s.(leaseExpiresAt := s'.leaseExpiresAt, runtimeSessionId := s'.runtimeSessionId, checkpoint := s'.checkpoint)
    ensures AllProgress(w, Put(w, lease.roomSessionId, s'))
  {
    PutProgress(w, Put(w, lease.roomSessionId, s'), lease.roomSessionId, s');
  }

  lemma ApplyProgress(w: World, base: map<string, nat>, op: Operation)
    requires WorldInv(w, base)
    ensures AllProgress(w, Apply(w, op).0)
  {
    hide WorldInv, AllProgress, Progress;
    NoProgressNeeded(w);
    match op
    case Claim(sid, runtimeId, workerId, leaseDuration, now) => ClaimProgress(w, sid, runtimeId, workerId, leaseDuration, now);
    case AppendEvent(lease, event, now) => AppendProgress(w, base, lease, event, now);
    case Finish(lease, terminal, output, checkpoint, now) => FinishProgress(w, base, lease, terminal, output, checkpoint, now);
    case Retry(lease, failure, failedBy, checkpoint, availableAt, now) =>
      RetryProgress(w, base, lease, failure, failedBy, checkpoint, availableAt, now);
    case Heartbeat(lease, leaseDuration, now) =>
      if Owned(w, lease, now) {
        QuietProgress(w, lease, now, w.sessions[lease.roomSessionId].(leaseExpiresAt := Some(now + leaseDuration)));
      }
    case BindRuntime(lease, handle, now) =>
      if Owned(w, lease, now) {
        QuietProgress(w, lease, now, w.sessions[lease.roomSessionId].(runtimeSessionId := Some(handle.runtimeSessionId)));
      }
    case PersistCheckpoint(lease, saved, now) =>
      if Owned(w, lease, now) {
        QuietProgress(w, lease, now, w.sessions[lease.roomSessionId].(checkpoint := Some(saved)));
      }
  }

  lemma {:induction false} RunProgress(w: World, base: map<string, nat>, ops: seq<Operation>)
    requires WorldInv(w, base)
    ensures AllProgress(w, Run(w, ops))
    decreases |ops|
  {
    hide WorldInv, AllProgress, Progress;
    if ops != [] {
      var w1 := Apply(w, ops[0]).0;
      ApplyKeeps(w, base, ops[0]);
      ApplyProgress(w, base, ops[0]);
      RunProgress(w1, base, ops[1..]);
      ProgressIsTransitive(w, w1, Run(w, ops));
    } else {
      NoProgressNeeded(w);
    }
  }

  // ----- guarantees over every run

  /** `w` is the state after `ops` on a store constructed from well-formed seeds. */
  ghost predicate Reached(seeds: seq<Seed>, ops: seq<Operation>, w: World) {
    && (forall seed | seed in seeds :: ValidSeed(seed))
    && SeedWorld(seeds).Some? && w == Run(SeedWorld(seeds).value, ops)
  }

  function BaseCounters(seeds: seq<Seed>): map<string, nat> {
    if SeedWorld(seeds).Some? then SeedWorld(seeds).value.roomEventSequences else map[]
  }

  lemma ReachedInv(seeds: seq<Seed>, ops: seq<Operation>, w: World)
    requires Reached(seeds, ops, w)
    ensures WorldInv(w, BaseCounters(seeds))
  {
    SeedWorldInv(seeds);
    RunKeeps(SeedWorld(seeds).value, BaseCounters(seeds), ops);
  }

  /** Settled deliveries, then at most one in flight under exactly the current lease, then pending ones. */
  lemma QueueShape(seeds: seq<Seed>, ops: seq<Operation>, w: World, sid: string)
    requires Reached(seeds, ops, w) && sid in w.sessions
    ensures
      var s := w.sessions[sid];
      var k := FirstOpen(s.deliveries);
      && (forall i | 0 <= i < k :: Settled(s.deliveries[i].status))
      && (forall i | k < i < |s.deliveries| :: s.deliveries[i].status == Pending)
      && (s.currentDeliveryId.Some? <==> k < |s.deliveries| && s.deliveries[k].status == InFlight)
      && (s.currentDeliveryId.Some? ==>
            s.currentDeliveryId.value == s.deliveries[k].envelope.deliveryId
            && s.leaseOwnerId.Some? && s.leaseExpiresAt.Some?)
      && (s.currentDeliveryId.None? ==> s.leaseOwnerId.None? && s.leaseExpiresAt.None?)
      && (forall i, j | 0 <= i < j < |s.deliveries| ::
            s.deliveries[i].envelope.deliverySequence < s.deliveries[j].envelope.deliverySequence)
  {
    ReachedInv(seeds, ops, w);
    InStore(w, BaseCounters(seeds), sid);
    assert QueueInv(w.sessions[sid].deliveries);
  }

  function AttemptsBeyond(ds: seq<Delivery>, seeded: seq<Envelope>): int
    requires |ds| == |seeded|
  {
    if ds == [] then 0 else ds[0].envelope.attempt - seeded[0].attempt + AttemptsBeyond(ds[1..], seeded[1..])
  }

  function CountSettled(ds: seq<Delivery>): nat {
    if ds == [] then 0 else (if Settled(ds[0].status) then 1 else 0) + CountSettled(ds[1..])
  }

  lemma {:induction false} EpochSplit(ds: seq<Delivery>, seeded: seq<Envelope>)
    requires |ds| == |seeded| && Fifo(ds)
    ensures Epochs(ds, seeded) == AttemptsBeyond(ds, seeded) + CountSettled(ds) + (if HasClaim(ds) then 1 else 0)
  {
    if ds != [] {
      var rest := ds[1..];
      forall i, j | 0 <= i < j < |rest| ensures !Settled(rest[i].status) ==> rest[j].status == Pending {
        assert !Settled(ds[i + 1].status) ==> ds[j + 1].status == Pending;
      }
      EpochSplit(rest, seeded[1..]);
      if !Settled(ds[0].status) && rest != [] {
        assert rest[0].status == Pending;
        FirstOpenIs(rest, 0);
      }
    }
  }

  /** Every claim ever granted is a raised attempt, a settled delivery, or the one now in flight. */
  lemma ConservationOfEpochs(seeds: seq<Seed>, ops: seq<Operation>, w: World, sid: string)
    requires Reached(seeds, ops, w) && sid in w.sessions
    ensures
      var s := w.sessions[sid];
      && |s.deliveries| == |SortedEnvelopes(s.seed)|
      && s.generation - s.seed.generation.GetOr(0)
         == AttemptsBeyond(s.deliveries, SortedEnvelopes(s.seed)) + CountSettled(s.deliveries)
            + (if s.currentDeliveryId.Some? then 1 else 0)
  {
    ReachedInv(seeds, ops, w);
    InStore(w, BaseCounters(seeds), sid);
    EpochSplit(w.sessions[sid].deliveries, SortedEnvelopes(w.sessions[sid].seed));
  }

  /** One settlement event of the right kind per settled delivery, none for the others; messages only with completion. */
  lemma SettledExactlyOnce(seeds: seq<Seed>, ops: seq<Operation>, w: World, sid: string, i: nat)
    requires Reached(seeds, ops, w) && sid in w.sessions && i < |w.sessions[sid].deliveries|
    ensures
      var d := w.sessions[sid].deliveries[i];
      var id := d.envelope.deliveryId;
      && SettlementsOf(w.publicEvents, sid, id, true) == (if d.status == Completed then 1 else 0)
      && SettlementsOf(w.publicEvents, sid, id, false) == (if d.status == Failed then 1 else 0)
      && MessagesOf(w.publicEvents, sid, id) <= (if d.status == Completed then 1 else 0)
      && Published(w.publicEvents) == w.messages
  {
    ReachedInv(seeds, ops, w);
    InStore(w, BaseCounters(seeds), sid);
    assert OnceFor(w.publicEvents, sid, w.sessions[sid].deliveries[i]);
  }

  /** Room events are numbered without gap or repeat, whichever sessions write them, and the outbox mirrors them. */
  lemma GapFreeLog(seeds: seq<Seed>, ops: seq<Operation>, w: World, roomId: string)
    requires Reached(seeds, ops, w)
    ensures
      var log := RoomLog(w.publicEvents, roomId);
      var base := Counter(BaseCounters(seeds), roomId);
      && (forall i | 0 <= i < |log| :: log[i].sequence == base + 1 + i)
      && Counter(w.roomEventSequences, roomId) == base + |log|
      && OutboxMirrors(w)
  {
    ReachedInv(seeds, ops, w);
    assert Contiguous(w, BaseCounters(seeds), roomId);
  }

  /** A session's cursor only moves forward and its event part never passes the room's counter. */
  lemma CursorNeverFallsBack(seeds: seq<Seed>, ops: seq<Operation>, w: World, more: seq<Operation>, sid: string)
    requires Reached(seeds, ops, w) && sid in w.sessions
    ensures
      var w' := Run(w, more);
      && sid in w'.sessions && CursorAdvances(w.sessions[sid].cursor, w'.sessions[sid].cursor)
      && w'.sessions[sid].cursor.eventSequence <= Counter(w'.roomEventSequences, w'.sessions[sid].seed.roomId)
  {
    ReachedInv(seeds, ops, w);
    RunProgress(w, BaseCounters(seeds), more);
    RunKeeps(w, BaseCounters(seeds), more);
    InStore(Run(w, more), BaseCounters(seeds), sid);
  }

  /** A settled delivery's record never changes again. */
  lemma SettledForever(seeds: seq<Seed>, ops: seq<Operation>, w: World, more: seq<Operation>, sid: string, i: nat)
    requires Reached(seeds, ops, w) && sid in w.sessions
    requires i < |w.sessions[sid].deliveries| && Settled(w.sessions[sid].deliveries[i].status)
    ensures
      var w' := Run(w, more);
      && sid in w'.sessions && i < |w'.sessions[sid].deliveries|
      && w'.sessions[sid].deliveries[i] == w.sessions[sid].deliveries[i]
  {
    ReachedInv(seeds, ops, w);
    RunProgress(w, BaseCounters(seeds), more);
  }

  // ----- leases

  /** A lease that no operation can ever use again. */
  predicate Spent(w: World, lease: Lease) {
    && lease.roomSessionId in w.sessions
    && var s := w.sessions[lease.roomSessionId];
    (lease.generation < s.generation || (lease.generation == s.generation && s.currentDeliveryId.None?))
  }

  function LeaseOf(op: Operation): Option<Lease> {
    if op.Claim? then None else Some(op.lease)
  }

  lemma SpentIsInert(w: World, op: Operation)
    requires LeaseOf(op).Some? && Spent(w, op.lease)
    ensures Apply(w, op).0 == w
  {
    assert !Owned(w, op.lease, op.now);
  }

  lemma SpentStaysSpent(w: World, base: map<string, nat>, lease: Lease, more: seq<Operation>)
    requires WorldInv(w, base) && Spent(w, lease)
    ensures Spent(Run(w, more), lease)
  {
    RunProgress(w, base, more);
    assert Progress(w.sessions[lease.roomSessionId], Run(w, more).sessions[lease.roomSessionId]);
  }

  lemma SettlingSpends(w: World, op: Operation)
    requires (op.Finish? && Apply(w, op).1.Finished?) || (op.Retry? && Apply(w, op).1.Retried?)
    ensures Spent(Apply(w, op).0, op.lease)
  {
    if op.Retry? && op.failedBy.Some? {
      AppendKeepsQueue(w, op.lease, op.failedBy.value, op.now);
    }
  }

  lemma ReclaimSpends(w: World, op: Operation, lease: Lease)
    requires op.Claim? && Apply(w, op).1.Granted? && lease.roomSessionId == op.roomSessionId
    requires lease.generation <= w.sessions[op.roomSessionId].generation
    ensures Spent(Apply(w, op).0, lease)
  {
  }

  /**
   * Fencing: once a lease has been used to finish or retry, or its session has
   * been claimed again, no operation carrying it changes anything, ever.
   */
  lemma StaleLeaseChangesNothing(seeds: seq<Seed>, ops: seq<Operation>, w: World, op: Operation, lease: Lease,
                                 more: seq<Operation>, late: Operation)
    requires Reached(seeds, ops, w) && LeaseOf(late) == Some(lease)
    requires
      || (op.Finish? && op.lease == lease && Apply(w, op).1.Finished?)
      || (op.Retry? && op.lease == lease && Apply(w, op).1.Retried?)
      || (op.Claim? && Apply(w, op).1.Granted? && op.roomSessionId == lease.roomSessionId
          && lease.generation <= w.sessions[op.roomSessionId].generation)
    ensures var w' := Run(Apply(w, op).0, more); Apply(w', late).0 == w'
  {
    var base := BaseCounters(seeds);
    ReachedInv(seeds, ops, w);
    ApplyKeeps(w, base, op);
    if op.Claim? { ReclaimSpends(w, op, lease); } else { SettlingSpends(w, op); }
    SpentStaysSpent(Apply(w, op).0, base, lease, more);
    SpentIsInert(Run(Apply(w, op).0, more), late);
  }

  /** No two claims of a session are ever granted the same generation. */
  lemma GenerationsNeverRepeat(seeds: seq<Seed>, ops: seq<Operation>, w: World, first: Operation,
                               more: seq<Operation>, second: Operation)
    requires Reached(seeds, ops, w) && first.Claim? && second.Claim? && first.roomSessionId == second.roomSessionId
    requires Apply(w, first).1.Granted? && Apply(Run(Apply(w, first).0, more), second).1.Granted?
    ensures Apply(w, first).1.grant.lease.generation
          < Apply(Run(Apply(w, first).0, more), second).1.grant.lease.generation
  {
    var base := BaseCounters(seeds);
    ReachedInv(seeds, ops, w);
    ApplyKeeps(w, base, first);
    RunProgress(Apply(w, first).0, base, more);
  }

  // ----- replays

  /** Reporting a stored runtime event again changes nothing, however much later. */
  lemma AppendReplay(seeds: seq<Seed>, ops: seq<Operation>, w: World, lease: Lease, event: RuntimeEvent, now: int,
                     more: seq<Operation>, later: int)
    requires Reached(seeds, ops, w) && Apply(w, AppendEvent(lease, event, now)).1.Appended?
    ensures
      var w' := Run(Apply(w, AppendEvent(lease, event, now)).0, more);
      var (w2, reply) := Apply(w', AppendEvent(lease, event, later));
      && w2 == w' && (reply == Fenced || reply == Duplicate(w'.sessions[lease.roomSessionId].cursor))
      && (reply == Fenced <==> !Owned(w', lease, later))
  {
    hide *;
    ReachedInv(seeds, ops, w);
    var w1 := Apply(w, AppendEvent(lease, event, now)).0;
    AppendRecords(w, lease, event, now);
    ApplyKeeps(w, BaseCounters(seeds), AppendEvent(lease, event, now));
    RunProgress(w1, BaseCounters(seeds), more);
    RecordedForGood(w1, Run(w1, more), lease, event);
    RecordedReplay(Run(w1, more), lease, event, later);
  }

  /** The event of a lease stands in its session under the lease's own generation. */
  ghost predicate Recorded(w: World, lease: Lease, event: RuntimeEvent) {
    && lease.roomSessionId in w.sessions
    && var s := w.sessions[lease.roomSessionId];
    && var key := RuntimeKey(s, lease, event);
    && key in s.runtimeEvents && s.runtimeEvents[key].event == event
  }

  lemma AppendRecords(w: World, lease: Lease, event: RuntimeEvent, now: int)
    requires Apply(w, AppendEvent(lease, event, now)).1.Appended?
    ensures Recorded(Apply(w, AppendEvent(lease, event, now)).0, lease, event)
  {
    hide Owned;
  }

  lemma RecordedForGood(w: World, w': World, lease: Lease, event: RuntimeEvent)
    requires Recorded(w, lease, event) && AllProgress(w, w')
    ensures Recorded(w', lease, event)
  {
    assert Progress(w.sessions[lease.roomSessionId], w'.sessions[lease.roomSessionId]);
  }

  lemma RecordedReplay(w: World, lease: Lease, event: RuntimeEvent, later: int)
    requires Recorded(w, lease, event)
    ensures lease.roomSessionId in w.sessions
    ensures
      var (w2, reply) := Apply(w, AppendEvent(lease, event, later));
      && w2 == w && (reply == Fenced || reply == Duplicate(w.sessions[lease.roomSessionId].cursor))
      && (reply == Fenced <==> !Owned(w, lease, later))
  {
    hide Owned;
  }

  /** Reporting the same terminal fact of a delivery again changes nothing, under any lease naming that delivery. */
  lemma FinishReplay(seeds: seq<Seed>, ops: seq<Operation>, w: World, op: Operation, more: seq<Operation>, again: Operation)
    requires Reached(seeds, ops, w) && op.Finish? && Apply(w, op).1.Finished?
    requires again.Finish? && again.terminal == op.terminal
    requires again.lease.roomSessionId == op.lease.roomSessionId && again.lease.deliveryId == op.lease.deliveryId
    ensures
      var w' := Run(Apply(w, op).0, more);
      && op.lease.roomSessionId in w'.sessions
      && Apply(w', again) == (w', Duplicate(w'.sessions[op.lease.roomSessionId].cursor))
  {
    var base := BaseCounters(seeds);
    var sid := op.lease.roomSessionId;
    ReachedInv(seeds, ops, w);
    OwnedIsCurrent(w, base, op.lease, op.now);
    var w1 := Apply(w, op).0;
    var k := IndexOf(w.sessions[sid].deliveries, op.lease.deliveryId);
    ApplyKeeps(w, base, op);
    RunKeeps(w1, base, more);
    RunProgress(w1, base, more);
    assert Progress(w1.sessions[sid], Run(w1, more).sessions[sid]);
    InStore(Run(w1, more), base, sid);
    IndexOfIs(Run(w1, more).sessions[sid].deliveries, k);
  }

  // ----- the gap inside a retry

  lemma DistinctInQueue(w: World, base: map<string, nat>, sid: string)
    requires WorldInv(w, base) && sid in w.sessions
    ensures DistinctIds(w.sessions[sid].deliveries)
  {
    InStore(w, base, sid);
    assert QueueInv(w.sessions[sid].deliveries);
  }

  lemma CommitSaysOne(w: World, lease: Lease, k: nat, failure: Failure, checkpoint: Option<Checkpoint>, availableAt: int, now: int)
    requires lease.roomSessionId in w.sessions && k < |w.sessions[lease.roomSessionId].deliveries|
    ensures CommitRetry(w, lease, k, failure, checkpoint, availableAt, now) != w
  {
    hide RetrySession, ArtifactOf;
    assert |CommitRetry(w, lease, k, failure, checkpoint, availableAt, now).publicEvents| == |w.publicEvents| + 1;
  }

  lemma PlainRetry(w: World, lease: Lease, k: nat, failure: Failure, checkpoint: Option<Checkpoint>, availableAt: int, now: int)
    requires lease.roomSessionId in w.sessions && k < |w.sessions[lease.roomSessionId].deliveries|
    requires k == IndexOf(w.sessions[lease.roomSessionId].deliveries, lease.deliveryId)
    ensures Apply(w, Retry(lease, failure, None, checkpoint, availableAt, now)).0
         == if Owned(w, lease, now) then CommitRetry(w, lease, k, failure, checkpoint, availableAt, now) else w
  {
    hide CommitRetry, IndexOf, Owned;
  }

  /**
   * A retry that first stores a runtime event suspends before it requeues the
   * delivery, and does not check ownership again. What it then does is a retry
   * exactly when the lease is still owned at that moment.
   */
  lemma ResumedRetryIffOwned(seeds: seq<Seed>, ops: seq<Operation>, w: World, lease: Lease, k: nat, failure: Failure,
                             checkpoint: Option<Checkpoint>, availableAt: int, now: int)
    requires Reached(seeds, ops, w) && lease.roomSessionId in w.sessions
    requires k < |w.sessions[lease.roomSessionId].deliveries|
    requires w.sessions[lease.roomSessionId].deliveries[k].envelope.deliveryId == lease.deliveryId
    ensures CommitRetry(w, lease, k, failure, checkpoint, availableAt, now)
              == Apply(w, Retry(lease, failure, None, checkpoint, availableAt, now)).0
            <==> Owned(w, lease, now)
  {
    hide *;
    ReachedInv(seeds, ops, w);
    DistinctInQueue(w, BaseCounters(seeds), lease.roomSessionId);
    IndexOfIs(w.sessions[lease.roomSessionId].deliveries, k);
    CommitSaysOne(w, lease, k, failure, checkpoint, availableAt, now);
    PlainRetry(w, lease, k, failure, checkpoint, availableAt, now);
  }

  /** The store's invariant survives the resumed retry exactly when the delivery is still in flight. */
  lemma ResumedRetryKeepsIffInFlight(seeds: seq<Seed>, ops: seq<Operation>, w: World, lease: Lease, k: nat, failure: Failure,
                                     checkpoint: Option<Checkpoint>, availableAt: int, now: int)
    requires Reached(seeds, ops, w) && lease.roomSessionId in w.sessions
    requires k < |w.sessions[lease.roomSessionId].deliveries|
    ensures WorldInv(CommitRetry(w, lease, k, failure, checkpoint, availableAt, now), BaseCounters(seeds))
            <==> w.sessions[lease.roomSessionId].deliveries[k].status == InFlight
  {
    var base := BaseCounters(seeds);
    var sid := lease.roomSessionId;
    var s := w.sessions[sid];
    var w' := CommitRetry(w, lease, k, failure, checkpoint, availableAt, now);
    ReachedInv(seeds, ops, w);
    InStore(w, base, sid);
    if s.deliveries[k].status == InFlight {
      assert k == FirstOpen(s.deliveries);
      CommitRetryKeeps(w, base, lease, k, failure, checkpoint, availableAt, now);
    } else {
      var s' := w'.sessions[sid];
      EpochsAfter(s.deliveries, SortedEnvelopes(s.seed), k, s'.deliveries[k]);
      if s.deliveries[k].status == Pending {
        assert !EpochsBalance(s');
      } else {
        var id := s.deliveries[k].envelope.deliveryId;
        assert OnceFor(w.publicEvents, sid, s.deliveries[k]);
        Tally(w.publicEvents, w'.publicEvents[|w.publicEvents|], sid, id, true);
        Tally(w.publicEvents, w'.publicEvents[|w.publicEvents|], sid, id, false);
        assert !OnceFor(w'.publicEvents, sid, s'.deliveries[k]);
      }
      if WorldInv(w', base) { InStore(w', base, sid); }
    }
  }

  /** One session with one delivery, for the example below. */
  const LONE_SEED := Seed("org", "room", "session", "agent", "runtime", None, None, None, 0, [], None,
                          [Envelope("delivery", 1, 1, 0, 1)])
  const LONE_LEASE := Lease("session", "delivery", "worker", 1)

  lemma LoneSeedIsValid()
    ensures ValidSeed(LONE_SEED)
    ensures SortedEnvelopes(LONE_SEED) == LONE_SEED.deliveries
    ensures SeedWorld([LONE_SEED]) == AddSession(EMPTY_WORLD, LONE_SEED) && SeedWorld([LONE_SEED]).Some?
  {
    LoneIsSorted();
    LoneWorld();
    hide SortedEnvelopes, SeedWorld, AddSession;
  }

  lemma LoneIsSorted()
    ensures SortedEnvelopes(LONE_SEED) == LONE_SEED.deliveries
  {
    var es := LONE_SEED.deliveries;
    assert |es| == 1 && es[..0] == [] && Sort(es[..0], EarlierEnvelope) == [];
  }

  lemma LoneWorld()
    ensures SeedWorld([LONE_SEED]) == AddSession(EMPTY_WORLD, LONE_SEED) && SeedWorld([LONE_SEED]).Some?
  {
    hide SeededSession;
    assert [LONE_SEED][..0] == [];
  }

  /**
   * The worker's own finish, arriving while its retry is suspended, is lost: the
   * completed delivery returns to the queue although its completion was announced.
   */
  lemma ResumedRetryCanUnsettle(failed: RuntimeEvent, done: RuntimeEvent, failure: Failure)
    requires done.payload.DeliveryCompleted?
    ensures
      var ops := [Claim("session", "runtime", "worker", 10, 0), AppendEvent(LONE_LEASE, failed, 1),
                  Finish(LONE_LEASE, ByRuntime(done), None, None, 1)];
      var w := if SeedWorld([LONE_SEED]).Some? then Run(SeedWorld([LONE_SEED]).value, ops) else EMPTY_WORLD;
      && Reached([LONE_SEED], ops, w) && "session" in w.sessions && |w.sessions["session"].deliveries| == 1
      && w.sessions["session"].deliveries[0].status == Completed
      && CommitRetry(w, LONE_LEASE, 0, failure, None, 5, 1).sessions["session"].deliveries[0].status == Pending
  {
    LoneSeedIsValid();
    var w0 := SeedWorld([LONE_SEED]).value;
    var claim := Claim("session", "runtime", "worker", 10, 0);
    var append := AppendEvent(LONE_LEASE, failed, 1);
    var finish := Finish(LONE_LEASE, ByRuntime(done), None, None, 1);
    var s0 := w0.sessions["session"];
    assert |s0.deliveries| == 1 && s0.deliveries[0].envelope == LONE_SEED.deliveries[0];
    assert FirstOpen(s0.deliveries) == 0;
    var w1 := Apply(w0, claim).0;
    assert Owned(w1, LONE_LEASE, 1);
    var w2 := Apply(w1, append).0;
    assert Owned(w2, LONE_LEASE, 1) && w2.sessions["session"].deliveries == w1.sessions["session"].deliveries;
    assert IndexOf(w2.sessions["session"].deliveries, "delivery") == 0;
    var w3 := Apply(w2, finish).0;
    assert w3.sessions["session"].deliveries[0].status == Completed;
    var ops := [claim, append, finish];
    assert ops[1..] == [append, finish] && ops[1..][1..] == [finish] && ops[1..][1..][1..] == [];
    assert Run(w0, ops) == Run(w1, ops[1..]);
    assert Run(w1, ops[1..]) == Run(w2, [finish]);
    assert Run(w2, [finish]) == w3;
  }
}
