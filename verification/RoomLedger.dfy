/**
 * Two ledgers kept along every run: how often each delivery was granted to a
 * worker, and how far a session's message cursor may get ahead of its room.
 */
module RoomLedger {
  import opened Prelude
  import opened Sorting
  import opened RoomProtocol
  import opened RoomInvariants
  import opened RoomGuarantees

  // ----- claims, delivery by delivery

  /** The delivery of this session that the operation hands to a worker. */
  function GrantedBy(w: World, op: Operation, sid: string): Option<string> {
    if op.Claim? && op.roomSessionId == sid && Apply(w, op).1.Granted?
    then Some(Apply(w, op).1.grant.lease.deliveryId) else None
  }

  /** How often a run grants one delivery. */
  function Claims(w: World, ops: seq<Operation>, sid: string, id: string): nat
    decreases |ops|
  {
    if ops == [] then 0
    else (if GrantedBy(w, ops[0], sid) == Some(id) then 1 else 0) + Claims(Apply(w, ops[0]).0, ops[1..], sid, id)
  }

  /** The delivery of this session whose attempt number the operation raises: taken over in flight, or put back by a retry. */
  function RaisedBy(w: World, op: Operation, sid: string): Option<string> {
    match op
    case Claim(at, runtimeId, _, _, now) =>
      if at == sid && CanClaim(w, at, runtimeId, now)
         && w.sessions[at].deliveries[FirstOpen(w.sessions[at].deliveries)].status == InFlight
      then Some(w.sessions[at].deliveries[FirstOpen(w.sessions[at].deliveries)].envelope.deliveryId) else None
    case Retry(lease, _, _, _, _, _) => if lease.roomSessionId == sid && Apply(w, op).1 == Retried then Some(lease.deliveryId) else None
    case _ => None
  }

  /** How often a run raises the attempt number of one delivery. */
  function Raises(w: World, ops: seq<Operation>, sid: string, id: string): nat
    decreases |ops|
  {
    if ops == [] then 0
    else (if RaisedBy(w, ops[0], sid) == Some(id) then 1 else 0) + Raises(Apply(w, ops[0]).0, ops[1..], sid, id)
  }

  function Once(chosen: Option<string>, id: string): nat {
    if chosen == Some(id) then 1 else 0
  }

  /** The attempt number, and one more once that attempt has been handed out. */
  function Spending(d: Delivery): int {
    d.envelope.attempt + if d.status == Pending then 0 else 1
  }

  /** The same queue, with the granted delivery, if any, one claim further and the raised one, if any, one attempt. */
  ghost predicate Charged(s: Session, s': Session, granted: Option<string>, raised: Option<string>) {
    && s'.seed == s.seed && |s'.deliveries| == |s.deliveries|
    && forall i | 0 <= i < |s.deliveries| ::
         var (e, e') := (s.deliveries[i].envelope, s'.deliveries[i].envelope);
         && e' == e.(attempt := e.attempt + Once(raised, e.deliveryId))
         && Spending(s'.deliveries[i]) == Spending(s.deliveries[i]) + Once(granted, e.deliveryId)
  }

  ghost predicate Steps(w: World, w': World, sid: string, granted: Option<string>, raised: Option<string>)
    requires sid in w.sessions
  {
    w'.sessions.Keys == w.sessions.Keys && Charged(w.sessions[sid], w'.sessions[sid], granted, raised)
  }

  lemma SameQueueSteps(w: World, w': World, sid: string)
    requires sid in w.sessions && w'.sessions.Keys == w.sessions.Keys
    requires w'.sessions[sid].seed == w.sessions[sid].seed && w'.sessions[sid].deliveries == w.sessions[sid].deliveries
    ensures Steps(w, w', sid, None, None)
  {
  }

  lemma PutSteps(w: World, w': World, sid: string, s': Session, granted: Option<string>, raised: Option<string>)
    requires sid in w.sessions && w'.sessions == w.sessions[sid := s'] && Charged(w.sessions[sid], s', granted, raised)
    ensures Steps(w, w', sid, granted, raised)
  {
  }

  lemma OneCharged(s: Session, s': Session, k: nat, d: Delivery, granted: Option<string>, raised: Option<string>)
    requires DistinctIds(s.deliveries) && k < |s.deliveries| && s'.seed == s.seed && s'.deliveries == s.deliveries[k := d]
    requires d.envelope == s.deliveries[k].envelope.(attempt := s.deliveries[k].envelope.attempt + if raised.Some? then 1 else 0)
    requires granted.Some? ==> granted.value == s.deliveries[k].envelope.deliveryId
    requires raised.Some? ==> raised.value == s.deliveries[k].envelope.deliveryId
    requires Spending(d) == Spending(s.deliveries[k]) + if granted.Some? then 1 else 0
    ensures Charged(s, s', granted, raised)
  {
    forall i | 0 <= i < |s.deliveries| && i != k ensures s.deliveries[i].envelope.deliveryId != s.deliveries[k].envelope.deliveryId {
      if i < k { assert DistinctIds(s.deliveries); }
    }
  }

  lemma ClaimCharges(w: World, base: map<string, nat>, op: Operation, sid: string)
    requires WorldInv(w, base) && sid in w.sessions && op.Claim?
    ensures Steps(w, Apply(w, op).0, sid, GrantedBy(w, op, sid), RaisedBy(w, op, sid))
  {
    hide WorldInv, Steps, Charged, DistinctIds, Claimable;
    if CanClaim(w, op.roomSessionId, op.runtimeId, op.now) {
      var s := w.sessions[op.roomSessionId];
      var k := FirstOpen(s.deliveries);
      var s' := GrantedSession(w, op.roomSessionId, op.workerId, op.now + op.leaseDuration);
      DistinctInQueue(w, base, op.roomSessionId);
      var id := s.deliveries[k].envelope.deliveryId;
      OneCharged(s, s', k, s'.deliveries[k], Some(id), if s.deliveries[k].status == InFlight then Some(id) else None);
      if op.roomSessionId == sid {
        PutSteps(w, Apply(w, op).0, sid, s', GrantedBy(w, op, sid), RaisedBy(w, op, sid));
      } else {
        OtherPut(w, Apply(w, op).0, op.roomSessionId, s', sid);
      }
    } else {
      SameQueueSteps(w, w, sid);
    }
  }

  lemma OtherPut(w: World, w': World, at: string, s': Session, sid: string)
    requires sid in w.sessions && at in w.sessions && at != sid && w'.sessions == w.sessions[at := s']
    ensures Steps(w, w', sid, None, None)
  {
    SameQueueSteps(w, w', sid);
  }

  lemma FinishCharges(w: World, base: map<string, nat>, lease: Lease, terminal: Terminal, output: Option<Output>,
                      checkpoint: Option<Checkpoint>, now: int, sid: string)
    requires WorldInv(w, base) && sid in w.sessions
    ensures Steps(w, DoFinish(w, lease, terminal, output, checkpoint, now).0, sid, None, None)
  {
    hide WorldInv, Steps, Charged, DistinctIds;
    var w' := DoFinish(w, lease, terminal, output, checkpoint, now).0;
    if !AlreadyFinished(w, lease, terminal) && Owned(w, lease, now) {
      OwnedIsCurrent(w, base, lease, now);
      var at := lease.roomSessionId;
      var s := w.sessions[at];
      var k := IndexOf(s.deliveries, lease.deliveryId);
      FinishWrites(w, lease, terminal, output, checkpoint, now, k);
      DistinctInQueue(w, base, at);
      OneCharged(s, w'.sessions[at], k, w'.sessions[at].deliveries[k], None, None);
      if at == sid { PutSteps(w, w', at, w'.sessions[at], None, None); } else { OtherPut(w, w', at, w'.sessions[at], sid); }
    } else {
      SameQueueSteps(w, w, sid);
    }
  }

  lemma CommitCharges(w: World, base: map<string, nat>, lease: Lease, k: nat, failure: Failure,
                      checkpoint: Option<Checkpoint>, availableAt: int, now: int, sid: string)
    requires WorldInv(w, base) && sid in w.sessions && lease.roomSessionId in w.sessions
    requires k < |w.sessions[lease.roomSessionId].deliveries|
    requires w.sessions[lease.roomSessionId].deliveries[k].status == InFlight
    ensures Steps(w, CommitRetry(w, lease, k, failure, checkpoint, availableAt, now), sid, None,
                  if lease.roomSessionId == sid then Some(w.sessions[sid].deliveries[k].envelope.deliveryId) else None)
  {
    hide WorldInv, Steps, Charged, DistinctIds;
    var s := w.sessions[lease.roomSessionId];
    var s' := RetrySession(s, k, failure, checkpoint, availableAt);
    DistinctInQueue(w, base, lease.roomSessionId);
    var w' := CommitRetry(w, lease, k, failure, checkpoint, availableAt, now);
    OneCharged(s, s', k, s'.deliveries[k], None, Some(s.deliveries[k].envelope.deliveryId));
    if lease.roomSessionId == sid {
      PutSteps(w, w', sid, s', None, Some(s.deliveries[k].envelope.deliveryId));
    } else {
      OtherPut(w, w', lease.roomSessionId, s', sid);
    }
  }

  lemma AppendCharges(w: World, lease: Lease, event: RuntimeEvent, now: int, sid: string)
    requires sid in w.sessions
    ensures Steps(w, DoAppend(w, lease, event, now).0, sid, None, None)
  {
    hide Steps;
    SameQueueSteps(w, DoAppend(w, lease, event, now).0, sid);
  }

  lemma StepsTogether(w: World, w1: World, w2: World, sid: string, raised: Option<string>)
    requires sid in w.sessions && Steps(w, w1, sid, None, None) && Steps(w1, w2, sid, None, raised)
    ensures Steps(w, w2, sid, None, raised)
  {
  }

  lemma RetryCharges(w: World, base: map<string, nat>, lease: Lease, failure: Failure, failedBy: Option<RuntimeEvent>,
                     checkpoint: Option<Checkpoint>, availableAt: int, now: int, sid: string)
    requires WorldInv(w, base) && sid in w.sessions
    ensures
      var (w', reply) := DoRetry(w, lease, failure, failedBy, checkpoint, availableAt, now);
      Steps(w, w', sid, None, if lease.roomSessionId == sid && reply == Retried then Some(lease.deliveryId) else None)
  {
    hide WorldInv, Charged;
    SameQueueSteps(w, w, sid);
    if Owned(w, lease, now) {
      OwnedIsCurrent(w, base, lease, now);
      var k := IndexOf(w.sessions[lease.roomSessionId].deliveries, lease.deliveryId);
      if failedBy.Some? {
        var w1 := DoAppend(w, lease, failedBy.value, now).0;
        AppendKeeps(w, base, lease, failedBy.value, now);
        AppendKeepsQueue(w, lease, failedBy.value, now);
        AppendCharges(w, lease, failedBy.value, now, sid);
        CommitCharges(w1, base, lease, k, failure, checkpoint, availableAt, now, sid);
        hide CommitRetry, DoAppend, Owned;
        StepsTogether(w, w1, CommitRetry(w1, lease, k, failure, checkpoint, availableAt, now), sid,
                      if lease.roomSessionId == sid then Some(lease.deliveryId) else None);
      } else {
        CommitCharges(w, base, lease, k, failure, checkpoint, availableAt, now, sid);
      }
    }
  }

  lemma ApplyCharges(w: World, base: map<string, nat>, op: Operation, sid: string)
    requires WorldInv(w, base) && sid in w.sessions
    ensures Steps(w, Apply(w, op).0, sid, GrantedBy(w, op, sid), RaisedBy(w, op, sid))
  {
    hide WorldInv, Steps;
    match op
    case Claim(_, _, _, _, _) => ClaimCharges(w, base, op, sid);
    case AppendEvent(lease, event, now) => AppendCharges(w, lease, event, now, sid);
    case Finish(lease, terminal, output, checkpoint, now) => FinishCharges(w, base, lease, terminal, output, checkpoint, now, sid);
    case Retry(lease, failure, failedBy, checkpoint, availableAt, now) =>
      RetryCharges(w, base, lease, failure, failedBy, checkpoint, availableAt, now, sid);
    case _ => SameQueueSteps(w, Apply(w, op).0, sid);
  }

  lemma {:induction false} RunCharges(w: World, base: map<string, nat>, ops: seq<Operation>, sid: string, i: nat)
    requires WorldInv(w, base) && sid in w.sessions && i < |w.sessions[sid].deliveries|
    ensures
      var w' := Run(w, ops);
      && w'.sessions.Keys == w.sessions.Keys && w'.sessions[sid].seed == w.sessions[sid].seed
      && i < |w'.sessions[sid].deliveries|
      && Spending(w'.sessions[sid].deliveries[i])
           == Spending(w.sessions[sid].deliveries[i]) + Claims(w, ops, sid, w.sessions[sid].deliveries[i].envelope.deliveryId)
      && w'.sessions[sid].deliveries[i].envelope.attempt
           == w.sessions[sid].deliveries[i].envelope.attempt + Raises(w, ops, sid, w.sessions[sid].deliveries[i].envelope.deliveryId)
    decreases |ops|
  {
    hide WorldInv, Apply, Spending, GrantedBy, RaisedBy;
    if ops != [] {
      ApplyKeeps(w, base, ops[0]);
      ApplyCharges(w, base, ops[0], sid);
      RunCharges(Apply(w, ops[0]).0, base, ops[1..], sid, i);
    }
  }

  lemma NamesItsSeed(seed: Seed)
    ensures SeededSession(seed).seed == seed
  {
  }

  lemma {:induction false} SeededAsGiven(seeds: seq<Seed>, sid: string)
    requires SeedWorld(seeds).Some? && sid in SeedWorld(seeds).value.sessions
    ensures var s := SeedWorld(seeds).value.sessions[sid]; s == SeededSession(s.seed)
  {
    if seeds != [] { NamesItsSeed(seeds[|seeds| - 1]); }
    hide SeededSession;
    if seeds != [] && sid in SeedWorld(seeds[..|seeds| - 1]).value.sessions { SeededAsGiven(seeds[..|seeds| - 1], sid); }
  }

  lemma {:induction false} SessionsStay(w: World, ops: seq<Operation>)
    ensures Run(w, ops).sessions.Keys == w.sessions.Keys
    decreases |ops|
  {
    if ops != [] {
      OneStaysPut(w, ops[0]);
      SessionsStay(Apply(w, ops[0]).0, ops[1..]);
    }
  }

  lemma OneStaysPut(w: World, op: Operation)
    ensures Apply(w, op).0.sessions.Keys == w.sessions.Keys
  {
    hide FinishSession, RetrySession, ClaimSession, RecordEvent, IndexOf, FirstOpen, Claimable, AlreadyFinished, ArtifactOf;
    if op.Finish? {
      if !AlreadyFinished(w, op.lease, op.terminal) && Owned(w, op.lease, op.now) {
        var k := IndexOf(w.sessions[op.lease.roomSessionId].deliveries, op.lease.deliveryId);
        if k < |w.sessions[op.lease.roomSessionId].deliveries| {
          FinishWrites(w, op.lease, op.terminal, op.output, op.checkpoint, op.now, k);
        }
      }
    }
  }

  /**
   * Every grant of a delivery is accounted for by that delivery alone: each but the
   * last was followed by one rise of the attempt number, by a takeover or by an
   * accepted retry, and the last is in flight or has settled the delivery.
   */
  lemma ClaimsAccountedFor(seeds: seq<Seed>, ops: seq<Operation>, w: World, sid: string, i: nat)
    requires Reached(seeds, ops, w) && sid in w.sessions && i < |w.sessions[sid].deliveries|
    ensures
      var d := w.sessions[sid].deliveries[i];
      var seeded := SortedEnvelopes(w.sessions[sid].seed);
      && |seeded| == |w.sessions[sid].deliveries| && seeded[i].deliveryId == d.envelope.deliveryId
      && Claims(SeedWorld(seeds).value, ops, sid, d.envelope.deliveryId)
           == d.envelope.attempt - seeded[i].attempt + (if d.status == Pending then 0 else 1)
      && Raises(SeedWorld(seeds).value, ops, sid, d.envelope.deliveryId) == d.envelope.attempt - seeded[i].attempt
  {
    var w0 := SeedWorld(seeds).value;
    SessionsStay(w0, ops);
    SeededAsGiven(seeds, sid);
    SeedWorldInv(seeds);
    ReachedInv(seeds, ops, w);
    InStore(w, BaseCounters(seeds), sid);
    SeedFixed(w0, BaseCounters(seeds), ops, sid);
    assert FromSeed(w.sessions[sid]);
    RunCharges(w0, BaseCounters(seeds), ops, sid, i);
  }

  lemma SeedFixed(w: World, base: map<string, nat>, ops: seq<Operation>, sid: string)
    requires WorldInv(w, base) && sid in w.sessions
    ensures sid in Run(w, ops).sessions && Run(w, ops).sessions[sid].seed == w.sessions[sid].seed
  {
    RunProgress(w, base, ops);
    assert Progress(w.sessions[sid], Run(w, ops).sessions[sid]);
  }

  // ----- the message cursor and the room's message counter

  function MessageCounter(w: World, sid: string): nat
    requires sid in w.sessions
  {
    Counter(w.roomMessageSequences, w.sessions[sid].seed.roomId)
  }

  /** The room has every message this session has read or is still to be sent. */
  ghost predicate MessagesKnown(w: World, sid: string)
    requires sid in w.sessions
  {
    && w.sessions[sid].cursor.messageSequence <= MessageCounter(w, sid)
    && forall i | 0 <= i < |w.sessions[sid].deliveries| ::
         w.sessions[sid].deliveries[i].envelope.messageSequence <= MessageCounter(w, sid)
  }

  lemma MessagesGrow(w: World, op: Operation, room: string)
    ensures Counter(w.roomMessageSequences, room) <= Counter(Apply(w, op).0.roomMessageSequences, room)
  {
    hide Owned, FinishSession, RetrySession, ClaimSession, RecordEvent, IndexOf, FirstOpen, Claimable;
  }

  lemma FinishMovesOwn(w: World, op: Operation, sid: string)
    requires sid in w.sessions && op.Finish?
    ensures sid in Apply(w, op).0.sessions
    ensures (Apply(w, op).1.Finished? && op.lease.roomSessionId == sid)
            || Apply(w, op).0.sessions[sid].cursor.messageSequence == w.sessions[sid].cursor.messageSequence
  {
    hide Owned, FinishSession, IndexOf, AlreadyFinished, ArtifactOf;
  }

  /** No operation but a finish moves a message cursor; a finish moves its own session's only. */
  lemma CursorMoves(w: World, op: Operation, sid: string)
    requires sid in w.sessions
    ensures sid in Apply(w, op).0.sessions
    ensures (Apply(w, op).1.Finished? && op.Finish? && op.lease.roomSessionId == sid)
            || Apply(w, op).0.sessions[sid].cursor.messageSequence == w.sessions[sid].cursor.messageSequence
  {
    if op.Finish? { FinishMovesOwn(w, op, sid); }
    hide DoFinish, Owned, IndexOf, FirstOpen, Claimable, ArtifactOf;
  }

  /** An accepted finish moves the cursor to the furthest of where it was, the delivery's message and the published one. */
  lemma FinishMoves(w: World, base: map<string, nat>, op: Operation, k: nat)
    requires WorldInv(w, base) && op.Finish? && Apply(w, op).1.Finished?
    requires op.lease.roomSessionId in w.sessions && k == IndexOf(w.sessions[op.lease.roomSessionId].deliveries, op.lease.deliveryId)
    ensures k < |w.sessions[op.lease.roomSessionId].deliveries|
    ensures
      var (s, w') := (w.sessions[op.lease.roomSessionId], Apply(w, op).0);
      var before := Counter(w.roomMessageSequences, s.seed.roomId);
      var published := if IsSuccess(op.terminal) && op.output.Some? then before + 1 else 0;
      && op.lease.roomSessionId in w'.sessions && w'.sessions[op.lease.roomSessionId].seed == s.seed
      && w'.sessions[op.lease.roomSessionId].cursor.messageSequence
           == Max(Max(s.cursor.messageSequence, s.deliveries[k].envelope.messageSequence), published)
      && Counter(w'.roomMessageSequences, s.seed.roomId) == Max(before, published)
  {
    hide WorldInv;
    assert !AlreadyFinished(w, op.lease, op.terminal) && Owned(w, op.lease, op.now);
    hide AlreadyFinished, Owned;
    FinishWrites(w, op.lease, op.terminal, op.output, op.checkpoint, op.now, k);
  }

  /**
   * A finish that starts from a cursor within the room's messages leaves it there
   * exactly when the room has the delivery's message, or publishes it in this call.
   */
  lemma FinishStaysWithin(seeds: seq<Seed>, ops: seq<Operation>, w: World, op: Operation, k: nat)
    requires Reached(seeds, ops, w) && op.Finish? && Apply(w, op).1.Finished?
    requires op.lease.roomSessionId in w.sessions && k == IndexOf(w.sessions[op.lease.roomSessionId].deliveries, op.lease.deliveryId)
    requires w.sessions[op.lease.roomSessionId].cursor.messageSequence <= MessageCounter(w, op.lease.roomSessionId)
    ensures op.lease.roomSessionId in Apply(w, op).0.sessions && k < |w.sessions[op.lease.roomSessionId].deliveries|
    ensures
      var (sid, w') := (op.lease.roomSessionId, Apply(w, op).0);
      w'.sessions[sid].cursor.messageSequence <= MessageCounter(w', sid)
      <==> w.sessions[sid].deliveries[k].envelope.messageSequence
             <= MessageCounter(w, sid) + (if IsSuccess(op.terminal) && op.output.Some? then 1 else 0)
  {
    ReachedInv(seeds, ops, w);
    hide *;
    FinishMoves(w, BaseCounters(seeds), op, k);
    CounterIs(w, op.lease.roomSessionId);
    CounterIs(Apply(w, op).0, op.lease.roomSessionId);
  }

  lemma CounterIs(w: World, sid: string)
    requires sid in w.sessions
    ensures MessageCounter(w, sid) == Counter(w.roomMessageSequences, w.sessions[sid].seed.roomId)
  {
  }

  lemma ApplyKnows(w: World, base: map<string, nat>, op: Operation, sid: string)
    requires WorldInv(w, base) && sid in w.sessions && MessagesKnown(w, sid)
    ensures sid in Apply(w, op).0.sessions && MessagesKnown(Apply(w, op).0, sid)
  {
    var w' := Apply(w, op).0;
    hide WorldInv, Apply, Spending;
    ApplyCharges(w, base, op, sid);
    MessagesGrow(w, op, w.sessions[sid].seed.roomId);
    CursorMoves(w, op, sid);
    if Apply(w, op).1.Finished? && op.Finish? && op.lease.roomSessionId == sid {
      FinishMoves(w, base, op, IndexOf(w.sessions[sid].deliveries, op.lease.deliveryId));
    }
    forall i | 0 <= i < |w'.sessions[sid].deliveries|
      ensures w'.sessions[sid].deliveries[i].envelope.messageSequence <= MessageCounter(w', sid)
    {
      assert w.sessions[sid].deliveries[i].envelope.messageSequence <= MessageCounter(w, sid);
    }
  }

  /**
   * When the room already has every message a session is seeded with, the message
   * part of its cursor never passes the room's message counter either.
   */
  lemma {:induction false} MessageCursorWithin(w: World, base: map<string, nat>, ops: seq<Operation>, sid: string)
    requires WorldInv(w, base) && sid in w.sessions && MessagesKnown(w, sid)
    ensures sid in Run(w, ops).sessions && MessagesKnown(Run(w, ops), sid)
    decreases |ops|
  {
    hide WorldInv, Apply, MessagesKnown;
    if ops != [] {
      ApplyKeeps(w, base, ops[0]);
      ApplyKnows(w, base, ops[0], sid);
      MessageCursorWithin(Apply(w, ops[0]).0, base, ops[1..], sid);
    }
  }

  // ----- exactly when the message cursor stays within the room's messages

  ghost predicate WithinMessages(w: World, sid: string) {
    sid in w.sessions && w.sessions[sid].cursor.messageSequence <= MessageCounter(w, sid)
  }

  /** The first `k` deliveries are settled and the others wait for their first claim. */
  ghost predicate ServedUpTo(w: World, sid: string, k: nat) {
    && sid in w.sessions
    && var ds := w.sessions[sid].deliveries;
    && k <= |ds| && (forall i | 0 <= i < k :: Settled(ds[i].status)) && forall i | k <= i < |ds| :: ds[i].status == Pending
  }

  /** What failing one delivery without output does to a session. */
  ghost predicate OneFailed(w: World, w': World, sid: string, k: nat)
    requires ServedUpTo(w, sid, k)
  {
    var (s, ds) := (w.sessions[sid], w.sessions[sid].deliveries);
    && k < |ds| && ServedUpTo(w', sid, k + 1) && w'.sessions[sid].seed == s.seed
    && |w'.sessions[sid].deliveries| == |ds|
    && (forall i | 0 <= i < |ds| :: w'.sessions[sid].deliveries[i].envelope.messageSequence == ds[i].envelope.messageSequence)
    && w'.sessions[sid].cursor.messageSequence == Max(s.cursor.messageSequence, ds[k].envelope.messageSequence)
    && w'.roomMessageSequences == w.roomMessageSequences
  }

  function FailOne(w: World, sid: string, k: nat): seq<Operation>
    requires sid in w.sessions && k < |w.sessions[sid].deliveries|
  {
    var (s, d) := (w.sessions[sid], w.sessions[sid].deliveries[k]);
    [Operation.Claim(sid, s.seed.runtimeId, "worker", 1, d.availableAt),
     Finish(Lease(sid, d.envelope.deliveryId, "worker", s.generation + 1), ByHost(Failure("", "", "", false)), None, None,
            d.availableAt)]
  }

  /** What the claim of the delivery at `k` leaves behind. */
  ghost predicate HoldsOne(w: World, w1: World, sid: string, k: nat)
    requires ServedUpTo(w, sid, k) && k < |w.sessions[sid].deliveries|
  {
    && sid in w1.sessions && w1.roomMessageSequences == w.roomMessageSequences
    && var (s, s1, d) := (w.sessions[sid], w1.sessions[sid], w.sessions[sid].deliveries[k]);
    && s1.seed == s.seed && s1.cursor == s.cursor && s1.generation == s.generation + 1
    && s1.leaseOwnerId == Some("worker") && s1.leaseExpiresAt == Some(d.availableAt + 1)
    && s1.currentDeliveryId == Some(d.envelope.deliveryId)
    && s1.deliveries == s.deliveries[k := d.(status := InFlight)]
  }

  /** What a finish that publishes nothing leaves behind. */
  ghost predicate EndsOne(w1: World, w2: World, sid: string, k: nat)
    requires sid in w1.sessions && k < |w1.sessions[sid].deliveries|
  {
    && sid in w2.sessions && w2.roomMessageSequences == w1.roomMessageSequences
    && var (s1, s2, ds) := (w1.sessions[sid], w2.sessions[sid], w1.sessions[sid].deliveries);
    && s2.seed == s1.seed && |s2.deliveries| == |ds|
    && s2.cursor.messageSequence == Max(s1.cursor.messageSequence, ds[k].envelope.messageSequence)
    && s2.deliveries[k].envelope == ds[k].envelope && Settled(s2.deliveries[k].status)
    && forall i | 0 <= i < |ds| && i != k :: s2.deliveries[i] == ds[i]
  }

  lemma ClaimedOne(w: World, sid: string, k: nat)
    requires ServedUpTo(w, sid, k) && k < |w.sessions[sid].deliveries|
    ensures HoldsOne(w, Apply(w, FailOne(w, sid, k)[0]).0, sid, k)
  {
    FirstOpenIs(w.sessions[sid].deliveries, k);
    hide FirstOpen;
  }

  lemma FinishedOne(w1: World, op: Operation, k: nat)
    requires op.Finish? && op.terminal.ByHost? && op.output.None? && Owned(w1, op.lease, op.now)
    requires k == IndexOf(w1.sessions[op.lease.roomSessionId].deliveries, op.lease.deliveryId)
    requires k < |w1.sessions[op.lease.roomSessionId].deliveries|
    requires !Settled(w1.sessions[op.lease.roomSessionId].deliveries[k].status)
    ensures EndsOne(w1, Apply(w1, op).0, op.lease.roomSessionId, k)
  {
    assert !AlreadyFinished(w1, op.lease, op.terminal);
    hide IndexOf, Owned, AlreadyFinished, ArtifactOf;
  }

  lemma SameIds(ds: seq<Delivery>, k: nat, d: Delivery)
    requires DistinctIds(ds) && k < |ds| && d.envelope.deliveryId == ds[k].envelope.deliveryId
    ensures IndexOf(ds[k := d], d.envelope.deliveryId) == k
  {
    assert DistinctIds(ds[k := d]);
    IndexOfIs(ds[k := d], k);
  }

  /** The finish of `FailOne` finds its delivery in flight under its own lease. */
  lemma HoldsOwned(w: World, w1: World, sid: string, k: nat, op: Operation)
    requires ServedUpTo(w, sid, k) && k < |w.sessions[sid].deliveries| && op == FailOne(w, sid, k)[1]
    requires HoldsOne(w, w1, sid, k) && DistinctIds(w.sessions[sid].deliveries)
    ensures op.Finish? && op.terminal.ByHost? && op.output.None? && op.lease.roomSessionId == sid
    ensures Owned(w1, op.lease, op.now) && k == IndexOf(w1.sessions[sid].deliveries, op.lease.deliveryId)
    ensures k < |w1.sessions[sid].deliveries| && !Settled(w1.sessions[sid].deliveries[k].status)
  {
    var ds := w.sessions[sid].deliveries;
    hide DistinctIds, IndexOf, ServedUpTo;
    SameIds(ds, k, ds[k].(status := InFlight));
  }

  lemma HeldThenEnded(w: World, w1: World, w2: World, sid: string, k: nat)
    requires ServedUpTo(w, sid, k) && k < |w.sessions[sid].deliveries|
    requires HoldsOne(w, w1, sid, k) && EndsOne(w1, w2, sid, k)
    ensures OneFailed(w, w2, sid, k)
  {
  }

  lemma OneFails(w: World, base: map<string, nat>, sid: string, k: nat)
    requires WorldInv(w, base) && ServedUpTo(w, sid, k) && k < |w.sessions[sid].deliveries|
    ensures OneFailed(w, Run(w, FailOne(w, sid, k)), sid, k)
  {
    var ops := FailOne(w, sid, k);
    assert ops == [ops[0], ops[1]];
    hide *;
    var w1 := Apply(w, ops[0]).0;
    DistinctInQueue(w, base, sid);
    ClaimedOne(w, sid, k);
    HoldsOwned(w, w1, sid, k, ops[1]);
    FinishedOne(w1, ops[1], k);
    TwoOps(w, ops[0], ops[1]);
    HeldThenEnded(w, w1, Apply(w1, ops[1]).0, sid, k);
  }

  lemma TwoOps(w: World, x: Operation, y: Operation)
    ensures Run(w, [x, y]) == Apply(Apply(w, x).0, y).0
  {
    hide Apply;
    assert [x, y][1..] == [y] && [y][1..] == [];
    assert Run(Apply(w, x).0, [y]) == Run(Apply(Apply(w, x).0, y).0, []);
  }

  lemma {:induction false} RunJoins(w: World, first: seq<Operation>, more: seq<Operation>)
    ensures Run(w, first + more) == Run(Run(w, first), more)
    decreases |first|
  {
    hide Apply;
    if first == [] {
      assert first + more == more;
    } else {
      assert (first + more)[1..] == first[1..] + more;
      RunJoins(Apply(w, first[0]).0, first[1..], more);
    }
  }

  /** Failing every delivery up to the one at `i` takes the cursor to its message and publishes nothing. */
  lemma {:induction false} FailUpTo(w: World, base: map<string, nat>, sid: string, k: nat, i: nat) returns (ops: seq<Operation>)
    requires WorldInv(w, base) && ServedUpTo(w, sid, k) && k <= i < |w.sessions[sid].deliveries|
    ensures
      var w' := Run(w, ops);
      && sid in w'.sessions && w'.sessions[sid].seed == w.sessions[sid].seed
      && w'.roomMessageSequences == w.roomMessageSequences
      && w.sessions[sid].deliveries[i].envelope.messageSequence <= w'.sessions[sid].cursor.messageSequence
    decreases i - k
  {
    var first := FailOne(w, sid, k);
    hide FailOne, Run, WorldInv;
    var w1 := Run(w, first);
    OneFails(w, base, sid, k);
    RunKeeps(w, base, first);
    if k == i {
      ops := first;
    } else {
      var more := FailUpTo(w1, base, sid, k + 1, i);
      RunJoins(w, first, more);
      ops := first + more;
    }
  }

  lemma SeededIsUnserved(seeds: seq<Seed>, sid: string)
    requires SeedWorld(seeds).Some? && sid in SeedWorld(seeds).value.sessions
    ensures ServedUpTo(SeedWorld(seeds).value, sid, 0)
  {
    SeededAsGiven(seeds, sid);
  }

  /** A seeded delivery the room has no message for: some run takes the cursor past the room's messages. */
  lemma UnknownMessagePasses(seeds: seq<Seed>, sid: string) returns (ops: seq<Operation>)
    requires SeedWorld(seeds).Some? && (forall seed | seed in seeds :: ValidSeed(seed)) && sid in SeedWorld(seeds).value.sessions
    requires !MessagesKnown(SeedWorld(seeds).value, sid)
    ensures !WithinMessages(Run(SeedWorld(seeds).value, ops), sid)
  {
    var w := SeedWorld(seeds).value;
    if w.sessions[sid].cursor.messageSequence > MessageCounter(w, sid) {
      ops := [];
    } else {
      var i :| 0 <= i < |w.sessions[sid].deliveries|
               && w.sessions[sid].deliveries[i].envelope.messageSequence > MessageCounter(w, sid);
      SeedWorldInv(seeds);
      SeededIsUnserved(seeds, sid);
      ops := FailUpTo(w, w.roomEventSequences, sid, 0, i);
      hide Run;
    }
  }

  /**
   * Over every run the message part of a session's cursor stays within its room's
   * messages exactly when the room has, at seeding, every message the session has
   * read or is to be sent.
   */
  lemma StaysWithinIff(seeds: seq<Seed>, sid: string)
    requires SeedWorld(seeds).Some? && (forall seed | seed in seeds :: ValidSeed(seed)) && sid in SeedWorld(seeds).value.sessions
    ensures (forall ops :: WithinMessages(Run(SeedWorld(seeds).value, ops), sid)) <==> MessagesKnown(SeedWorld(seeds).value, sid)
  {
    var w := SeedWorld(seeds).value;
    SeedWorldInv(seeds);
    if MessagesKnown(w, sid) {
      forall ops ensures WithinMessages(Run(w, ops), sid) { MessageCursorWithin(w, w.roomEventSequences, ops, sid); }
    } else {
      var ops := UnknownMessagePasses(seeds, sid);
    }
  }

  lemma LoneCounters(w: World)
    requires AddSession(EMPTY_WORLD, LONE_SEED) == Some(w)
    ensures Counter(w.roomMessageSequences, "room") == 0
  {
    hide SeededSession;
    assert [LONE_SEED.throughMessageSequence] + LONE_SEED.contextSequences == [0];
  }

  lemma LoneSession(w: World)
    requires AddSession(EMPTY_WORLD, LONE_SEED) == Some(w)
    ensures "session" in w.sessions && w.sessions["session"] == SeededSession(LONE_SEED)
  {
    hide SeededSession;
  }

  lemma LoneQueue()
    ensures
      var s := SeededSession(LONE_SEED);
      && s.seed == LONE_SEED && s.generation == 0 && |s.deliveries| == 1 && s.deliveries[0].availableAt == 0
      && s.deliveries[0].envelope.deliveryId == LONE_LEASE.deliveryId && s.deliveries[0].envelope.messageSequence == 1
      && s.cursor.messageSequence == 0
  {
    LoneIsSorted();
    hide SortedEnvelopes;
  }

  lemma LoneRun(w: World)
    requires "session" in w.sessions && w.sessions["session"] == SeededSession(LONE_SEED)
    ensures 0 < |w.sessions["session"].deliveries|
    ensures FailOne(w, "session", 0) == [Operation.Claim("session", "runtime", "worker", 1, 0),
                                         Finish(LONE_LEASE, ByHost(Failure("", "", "", false)), None, None, 0)]
  {
    hide SeededSession;
    LoneQueue();
  }

  lemma LonePasses(w: World, w': World)
    requires "session" in w.sessions && w.sessions["session"] == SeededSession(LONE_SEED)
    requires ServedUpTo(w, "session", 0) && OneFailed(w, w', "session", 0) && Counter(w.roomMessageSequences, "room") == 0
    ensures "session" in w'.sessions && w'.sessions["session"].cursor.messageSequence == 1 && MessageCounter(w', "session") == 0
  {
    hide SeededSession;
    LoneQueue();
  }

  /** A room that counts no messages yet, and a delivery of its first one that ends without output. */
  lemma CursorCanPassMessages()
    ensures
      var ops := [Operation.Claim("session", "runtime", "worker", 1, 0),
                  Finish(LONE_LEASE, ByHost(Failure("", "", "", false)), None, None, 0)];
      && SeedWorld([LONE_SEED]).Some?
      && var w := Run(SeedWorld([LONE_SEED]).value, ops);
      && "session" in w.sessions && w.sessions["session"].cursor.messageSequence == 1 && MessageCounter(w, "session") == 0
  {
    hide *;
    LoneSeedIsValid();
    SeedWorldInv([LONE_SEED]);
    var w := SeedWorld([LONE_SEED]).value;
    LoneSession(w);
    SeededIsUnserved([LONE_SEED], "session");
    LoneCounters(w);
    LoneRun(w);
    OneFails(w, w.roomEventSequences, "session", 0);
    LonePasses(w, Run(w, FailOne(w, "session", 0)));
  }
}
