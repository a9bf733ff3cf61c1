/**
 * The store remembers exactly what its history says: every field of a session is
 * what the calls so far and their answers make it, so every answer follows from
 * the answers before it.
 */
module RoomRecall {
  import opened Prelude
  import opened Sorting
  import opened RoomProtocol
  import opened RoomInvariants
  import opened RoomGuarantees
  import opened RoomLedger
  import opened RoomHistory

  // ----- what it is for a session to remember its history

  ghost predicate RecallsHolder(p: Past, sid: string, s: Session) {
    match Holder(p, sid)
    case None => s.leaseOwnerId.None? && s.leaseExpiresAt.None? && s.currentDeliveryId.None?
    case Some(held) =>
      && held.lease.roomSessionId == sid && held.lease.generation == s.generation
      && s.leaseOwnerId == Some(held.lease.workerId)
      && s.currentDeliveryId == Some(held.lease.deliveryId)
      && s.leaseExpiresAt == Some(held.until)
  }

  ghost predicate RecallsRuntime(p: Past, sid: string, s: Session) {
    && s.generation == s.seed.generation.GetOr(0) + Grants(p, sid)
    && s.runtimeSessionId == BoundTo(p, sid, s.seed.runtimeSessionId)
    && s.checkpoint == Saved(p, sid, s.seed.checkpoint)
    && s.pendingOutput == Drafted(p, sid)
  }

  ghost predicate RecallsDelivery(p: Past, sid: string, e: Envelope, d: Delivery) {
    var settled := Terminals(p, sid);
    && d.envelope == e.(attempt := e.attempt + Raised(p, sid, e.deliveryId))
    && d.availableAt == AvailableFrom(p, sid, e.deliveryId, e.createdAt)
    && d.completedAt == ClosedAt(p, sid, e.deliveryId)
    && d.lastError == LastError(p, sid, e.deliveryId)
    && (if e.deliveryId in settled
        then d.terminal == Some(settled[e.deliveryId])
             && d.status == if Delivers(settled[e.deliveryId]) then Completed else Failed
        else d.terminal.None? && !Settled(d.status))
  }

  ghost predicate RecallsQueue(p: Past, sid: string, s: Session) {
    var es := SortedEnvelopes(s.seed);
    && |s.deliveries| == |es|
    && forall i | 0 <= i < |es| :: RecallsDelivery(p, sid, es[i], s.deliveries[i])
  }

  ghost predicate RecallsEvents(p: Past, sid: string, s: Session) {
    var known := Stored(p, sid);
    && (forall key | key in s.runtimeEvents ::
          && key.RuntimeEventId? && key.organizationId == s.seed.organizationId && key.roomSessionId == sid
          && (key.generation, key.providerEventId) in known
          && s.runtimeEvents[key].event == known[(key.generation, key.providerEventId)])
    && (forall k | k in known :: RuntimeEventId(s.seed.organizationId, sid, k.0, k.1) in s.runtimeEvents)
  }

  /** Whatever was settled was sent. */
  ghost predicate RecallsSettled(p: Past, sid: string, s: Session) {
    forall id | id in Terminals(p, sid) :: exists e :: Sent(s.seed, e, id)
  }

  ghost predicate RecallsCursor(start: World, p: Past, sid: string, s: Session) {
    sid in start.sessions && s.cursor == ReadUpTo(start, p, sid)
  }

  ghost predicate Recalls(start: World, p: Past, sid: string, s: Session) {
    && sid in start.sessions && s.seed == start.sessions[sid].seed
    && RecallsHolder(p, sid, s) && RecallsRuntime(p, sid, s) && RecallsQueue(p, sid, s)
    && RecallsEvents(p, sid, s) && RecallsSettled(p, sid, s) && RecallsCursor(start, p, sid, s)
  }

  ghost predicate RecallsCounters(start: World, p: Past, w: World) {
    forall room: string ::
      && Counter(w.roomEventSequences, room) == LastEvent(start, p, room)
      && Counter(w.roomMessageSequences, room) == LastMessage(start, p, room)
  }

  /** Every call taken so far went to a session of the store. */
  ghost predicate Told(start: World, p: Past) {
    p.Then? ==> Told(start, p.before) && (Took(Target(p.op), p.op, p.reply) ==> Target(p.op) in start.sessions)
  }

  ghost predicate Remembers(start: World, p: Past, w: World) {
    && w.sessions.Keys == start.sessions.Keys && Told(start, p)
    && RecallsCounters(start, p, w)
    && forall sid | sid in w.sessions :: Recalls(start, p, sid, w.sessions[sid])
  }

  lemma RecallsSplit(start: World, p: Past, sid: string, s: Session)
    ensures Recalls(start, p, sid, s) <==>
      && sid in start.sessions && s.seed == start.sessions[sid].seed
      && RecallsHolder(p, sid, s) && RecallsRuntime(p, sid, s) && RecallsQueue(p, sid, s)
      && RecallsEvents(p, sid, s) && RecallsSettled(p, sid, s) && RecallsCursor(start, p, sid, s)
  {
  }

  lemma SettledStay(p: Past, q: Past, sid: string, s: Session, s': Session)
    requires RecallsSettled(p, sid, s) && Terminals(q, sid) == Terminals(p, sid) && s'.seed == s.seed
    ensures RecallsSettled(q, sid, s')
  {
    hide Terminals, Sent;
  }

  // ----- a call that was not taken leaves the history of a session as it was

  lemma UntoldDelivery(p: Past, op: Operation, r: Reply, sid: string, e: Envelope, d: Delivery)
    requires !Took(sid, op, r) && RecallsDelivery(p, sid, e, d)
    ensures RecallsDelivery(Then(p, op, r), sid, e, d)
  {
  }

  lemma UntoldQueue(p: Past, op: Operation, r: Reply, sid: string, s: Session)
    requires !Took(sid, op, r) && RecallsQueue(p, sid, s)
    ensures RecallsQueue(Then(p, op, r), sid, s)
  {
    hide RecallsDelivery, Took, SortedEnvelopes;
    var es := SortedEnvelopes(s.seed);
    forall i | 0 <= i < |es| ensures RecallsDelivery(Then(p, op, r), sid, es[i], s.deliveries[i]) {
      UntoldDelivery(p, op, r, sid, es[i], s.deliveries[i]);
    }
  }

  lemma UntoldFields(start: World, p: Past, op: Operation, r: Reply, sid: string, s: Session)
    requires !Took(sid, op, r)
    ensures RecallsHolder(p, sid, s) ==> RecallsHolder(Then(p, op, r), sid, s)
    ensures RecallsRuntime(p, sid, s) ==> RecallsRuntime(Then(p, op, r), sid, s)
    ensures RecallsEvents(p, sid, s) ==> RecallsEvents(Then(p, op, r), sid, s)
    ensures RecallsSettled(p, sid, s) ==> RecallsSettled(Then(p, op, r), sid, s)
    ensures RecallsCursor(start, p, sid, s) ==> RecallsCursor(start, Then(p, op, r), sid, s)
  {
    if RecallsSettled(p, sid, s) { SettledStay(p, Then(p, op, r), sid, s, s); }
    hide Took, RecallsSettled;
  }

  lemma Untold(start: World, p: Past, op: Operation, r: Reply, sid: string, s: Session)
    requires !Took(sid, op, r) && Recalls(start, p, sid, s)
    ensures Recalls(start, Then(p, op, r), sid, s)
  {
    UntoldQueue(p, op, r, sid, s);
    UntoldFields(start, p, op, r, sid, s);
    hide RecallsHolder, RecallsRuntime, RecallsQueue, RecallsEvents, RecallsSettled, RecallsCursor, Took;
  }

  /** After a call that changed nothing, nothing else is remembered. */
  lemma NothingTaken(start: World, p: Past, op: Operation, r: Reply, w: World)
    requires Remembers(start, p, w) && !Took(Target(op), op, r)
    ensures Remembers(start, Then(p, op, r), w)
  {
    forall sid | sid in w.sessions ensures Recalls(start, Then(p, op, r), sid, w.sessions[sid]) {
      hide Recalls, RecallsCounters, Told;
      RecallOf(start, p, w, sid);
      NotItsCall(sid, op, r);
      Untold(start, p, op, r, sid, w.sessions[sid]);
    }
    hide Recalls, Took, Target;
  }

  /** A call that was taken rewrites one session and the counters of its room. */
  lemma OneTaken(start: World, p: Past, op: Operation, r: Reply, w: World, w': World, s': Session)
    requires Remembers(start, p, w) && Target(op) in w.sessions
    requires w'.sessions == w.sessions[Target(op) := s']
    requires Recalls(start, Then(p, op, r), Target(op), s')
    requires RecallsCounters(start, Then(p, op, r), w')
    ensures Remembers(start, Then(p, op, r), w')
  {
    hide *;
    CountersOf(start, p, w);
    ToldThen(start, p, op, r);
    forall sid | sid in w'.sessions ensures Recalls(start, Then(p, op, r), sid, w'.sessions[sid]) {
      if sid != Target(op) {
        RecallOf(start, p, w, sid);
        NotItsCall(sid, op, r);
        Untold(start, p, op, r, sid, w.sessions[sid]);
      }
    }
    RemembersIf(start, Then(p, op, r), w');
  }

  lemma RemembersIf(start: World, p: Past, w: World)
    requires w.sessions.Keys == start.sessions.Keys && Told(start, p) && RecallsCounters(start, p, w)
    requires forall sid | sid in w.sessions :: Recalls(start, p, sid, w.sessions[sid])
    ensures Remembers(start, p, w)
  {
    hide Told, RecallsCounters, Recalls;
  }

  lemma NotItsCall(sid: string, op: Operation, r: Reply)
    requires sid != Target(op) || !Took(Target(op), op, r)
    ensures !Took(sid, op, r)
  {
  }

  // ----- the queue

  /** The delivery a call is about; heartbeats and the like are about none. */
  predicate About(op: Operation, r: Reply, id: string) {
    match op
    case Claim(_, _, _, _, _) => r.Granted? && r.grant.delivery.deliveryId == id
    case Finish(lease, _, _, _, _) => lease.deliveryId == id
    case Retry(lease, _, _, _, _, _) => lease.deliveryId == id
    case _ => false
  }

  lemma OtherDelivery(p: Past, op: Operation, r: Reply, sid: string, e: Envelope, d: Delivery)
    requires !About(op, r, e.deliveryId) && RecallsDelivery(p, sid, e, d)
    ensures RecallsDelivery(Then(p, op, r), sid, e, d)
  {
  }

  lemma QuietQueue(p: Past, op: Operation, r: Reply, sid: string, s: Session, s': Session)
    requires RecallsQueue(p, sid, s) && s'.seed == s.seed && s'.deliveries == s.deliveries
    requires forall id: string :: !About(op, r, id)
    ensures RecallsQueue(Then(p, op, r), sid, s')
  {
    hide RecallsDelivery, About, SortedEnvelopes;
    var es := SortedEnvelopes(s.seed);
    forall i | 0 <= i < |es| ensures RecallsDelivery(Then(p, op, r), sid, es[i], s.deliveries[i]) {
      assert !About(op, r, es[i].deliveryId);
      OtherDelivery(p, op, r, sid, es[i], s.deliveries[i]);
    }
  }

  lemma RecallsId(p: Past, sid: string, s: Session, i: nat)
    requires RecallsQueue(p, sid, s) && i < |s.deliveries|
    ensures i < |SortedEnvelopes(s.seed)|
    ensures SortedEnvelopes(s.seed)[i].deliveryId == s.deliveries[i].envelope.deliveryId
    ensures RecallsDelivery(p, sid, SortedEnvelopes(s.seed)[i], s.deliveries[i])
  {
    assert RecallsDelivery(p, sid, SortedEnvelopes(s.seed)[i], s.deliveries[i]);
  }

  lemma OneDelivery(p: Past, op: Operation, r: Reply, sid: string, s: Session, s': Session, k: nat, d: Delivery)
    requires RecallsQueue(p, sid, s) && s'.seed == s.seed && DistinctIds(s.deliveries)
    requires k < |s.deliveries| && s'.deliveries == s.deliveries[k := d]
    requires forall id: string | About(op, r, id) :: id == s.deliveries[k].envelope.deliveryId
    requires k < |SortedEnvelopes(s.seed)| && RecallsDelivery(Then(p, op, r), sid, SortedEnvelopes(s.seed)[k], d)
    ensures RecallsQueue(Then(p, op, r), sid, s')
  {
    hide RecallsDelivery, About, SortedEnvelopes;
    var es := SortedEnvelopes(s.seed);
    forall i | 0 <= i < |es| ensures RecallsDelivery(Then(p, op, r), sid, es[i], s'.deliveries[i]) {
      if i != k {
        RecallsId(p, sid, s, i);
        assert !About(op, r, es[i].deliveryId);
        OtherDelivery(p, op, r, sid, es[i], s.deliveries[i]);
      }
    }
  }

  // ----- holding

  lemma RecallOf(start: World, p: Past, w: World, sid: string)
    requires Remembers(start, p, w) && sid in w.sessions
    ensures Recalls(start, p, sid, w.sessions[sid])
  {
  }

  /** The fence lets through exactly who the history says holds the session. */
  lemma OwnedIffHolds(start: World, p: Past, w: World, lease: Lease, now: int)
    requires Remembers(start, p, w) && lease.roomSessionId in w.sessions
    ensures Owned(w, lease, now) <==> Holds(p, lease, now)
  {
    RecallOf(start, p, w, lease.roomSessionId);
    hide Remembers, RecallsRuntime, RecallsQueue, RecallsEvents, RecallsCursor, Holder;
  }

  lemma {:induction false} NothingOfStrangers(start: World, p: Past, sid: string)
    requires Told(start, p) && sid !in start.sessions
    ensures Holder(p, sid).None? && Terminals(p, sid) == map[] && Stored(p, sid) == map[]
  {
    if p.Then? { NothingOfStrangers(start, p.before, sid); }
  }

  // ----- a claim

  /** A delivery is in flight exactly when somebody holds the session. */
  lemma InFlightIffHeld(w: World, base: map<string, nat>, p: Past, sid: string)
    requires WorldInv(w, base) && sid in w.sessions && RecallsHolder(p, sid, w.sessions[sid])
    ensures
      var s := w.sessions[sid];
      && DistinctIds(s.deliveries) && s.seed.roomSessionId == sid
      && (HasClaim(s.deliveries) <==> Holder(p, sid).Some?)
  {
    InStore(w, base, sid);
    hide WorldInv, Holder, Fifo, Increasing, TerminalMatches, CursorOnQueue, FromSeed, EpochsBalance, RuntimeKeys,
         SequencesWithin, ExactlyOnce, FirstOpen, HasClaim;
  }

  lemma ClaimedDelivery(p: Past, op: Operation, r: Reply, sid: string, s: Session, k: nat, expiresAt: int)
    requires op.Claim? && Took(sid, op, r) && k < |s.deliveries| && RecallsQueue(p, sid, s)
    requires !Settled(s.deliveries[k].status)
    requires s.deliveries[k].status == InFlight <==> Holder(p, sid).Some?
    requires r.grant.delivery.deliveryId == s.deliveries[k].envelope.deliveryId
    ensures k < |SortedEnvelopes(s.seed)|
    ensures RecallsDelivery(Then(p, op, r), sid, SortedEnvelopes(s.seed)[k],
                            ClaimSession(s, k, op.workerId, expiresAt).deliveries[k])
  {
    RecallsId(p, sid, s, k);
    hide RecallsQueue, Took, Holder, SortedEnvelopes;
  }

  lemma ClaimFields(start: World, p: Past, op: Operation, r: Reply, sid: string, s: Session, k: nat)
    requires op.Claim? && Took(sid, op, r) && k < |s.deliveries| && Recalls(start, p, sid, s) && s.seed.roomSessionId == sid
    requires r.grant == GrantFor(s, ClaimSession(s, k, op.workerId, op.now + op.leaseDuration), k, op.workerId)
    ensures
      var s' := ClaimSession(s, k, op.workerId, op.now + op.leaseDuration);
      && RecallsHolder(Then(p, op, r), sid, s') && RecallsRuntime(Then(p, op, r), sid, s')
      && RecallsEvents(Then(p, op, r), sid, s') && RecallsSettled(Then(p, op, r), sid, s')
      && RecallsCursor(start, Then(p, op, r), sid, s')
  {
    SettledStay(p, Then(p, op, r), Target(op), s, ClaimSession(s, k, op.workerId, op.now + op.leaseDuration));
    hide RecallsSettled;
    hide RecallsQueue;
  }

  lemma ClaimRecalls(start: World, p: Past, op: Operation, r: Reply, sid: string, s: Session, k: nat)
    requires op.Claim? && Took(sid, op, r) && k < |s.deliveries| && Recalls(start, p, sid, s) && s.seed.roomSessionId == sid
    requires r.grant == GrantFor(s, ClaimSession(s, k, op.workerId, op.now + op.leaseDuration), k, op.workerId)
    requires DistinctIds(s.deliveries) && !Settled(s.deliveries[k].status)
    requires s.deliveries[k].status == InFlight <==> Holder(p, sid).Some?
    ensures Recalls(start, Then(p, op, r), sid, ClaimSession(s, k, op.workerId, op.now + op.leaseDuration))
  {
    var s' := ClaimSession(s, k, op.workerId, op.now + op.leaseDuration);
    assert r.grant.delivery.deliveryId == s.deliveries[k].envelope.deliveryId;
    assert s'.seed == s.seed && s'.deliveries == s.deliveries[k := s'.deliveries[k]];
    ClaimFields(start, p, op, r, sid, s, k);
    ClaimedDelivery(p, op, r, sid, s, k, op.now + op.leaseDuration);
    assert forall id: string | About(op, r, id) :: id == s.deliveries[k].envelope.deliveryId;
    hide *;
    RecallsSplit(start, p, sid, s);
    OneDelivery(p, op, r, sid, s, s', k, s'.deliveries[k]);
    RecallsSplit(start, Then(p, op, r), sid, s');
  }

  // ----- the counters of the rooms

  predicate Silent(op: Operation) {
    op.Claim? || op.Heartbeat? || op.BindRuntime? || op.PersistCheckpoint?
  }

  lemma SilentCounters(start: World, p: Past, op: Operation, r: Reply, w: World, w': World)
    requires RecallsCounters(start, p, w) && Silent(op)
    requires w'.roomEventSequences == w.roomEventSequences && w'.roomMessageSequences == w.roomMessageSequences
    ensures RecallsCounters(start, Then(p, op, r), w')
  {
    hide Took, Target, RoomOf;
    forall room: string ensures
      && Counter(w'.roomEventSequences, room) == LastEvent(start, Then(p, op, r), room)
      && Counter(w'.roomMessageSequences, room) == LastMessage(start, Then(p, op, r), room)
    {
      assert Counter(w.roomEventSequences, room) == LastEvent(start, p, room);
      assert Counter(w.roomMessageSequences, room) == LastMessage(start, p, room);
    }
  }

  /** A call of one room moves that room's counters by what it wrote. */
  lemma SpokenCounters(start: World, p: Past, op: Operation, r: Reply, w: World, w': World, room: string, spoke: bool)
    requires RecallsCounters(start, p, w) && RoomOf(start, op) == Some(room)
    requires spoke <==> Took(Target(op), op, r) && op.Finish? && Delivers(op.terminal) && op.output.Some?
    requires w'.roomEventSequences == w.roomEventSequences[room := Counter(w.roomEventSequences, room) + Spoken(p, op, r)]
    requires w'.roomMessageSequences ==
      if spoke then w.roomMessageSequences[room := Counter(w.roomMessageSequences, room) + 1] else w.roomMessageSequences
    ensures RecallsCounters(start, Then(p, op, r), w')
    ensures LastEvent(start, Then(p, op, r), room) == Counter(w.roomEventSequences, room) + Spoken(p, op, r)
    ensures LastMessage(start, Then(p, op, r), room) == Counter(w.roomMessageSequences, room) + if spoke then 1 else 0
  {
    hide Took, Target, RoomOf, Spoken, Delivers;
    assert Counter(w.roomEventSequences, room) == LastEvent(start, p, room);
    forall other: string ensures
      && Counter(w'.roomEventSequences, other) == LastEvent(start, Then(p, op, r), other)
      && Counter(w'.roomMessageSequences, other) == LastMessage(start, Then(p, op, r), other)
    {
      assert Counter(w.roomEventSequences, other) == LastEvent(start, p, other);
      assert Counter(w.roomMessageSequences, other) == LastMessage(start, p, other);
    }
  }

  lemma ToldThen(start: World, p: Past, op: Operation, r: Reply)
    requires Told(start, p) && (Took(Target(op), op, r) ==> Target(op) in start.sessions)
    ensures Told(start, Then(p, op, r))
  {
  }

  // ----- each call, from a store that remembers

  /** What an accepted claim writes and answers. */
  lemma ClaimForm(w: World, op: Operation)
    requires op.Claim? && CanClaim(w, op.roomSessionId, op.runtimeId, op.now)
    ensures
      var (w', r) := Apply(w, op);
      var s := w.sessions[op.roomSessionId];
      var k := FirstOpen(s.deliveries);
      && k < |s.deliveries| && !Settled(s.deliveries[k].status)
      && (HasClaim(s.deliveries) <==> s.deliveries[k].status == InFlight)
      && var s' := ClaimSession(s, k, op.workerId, op.now + op.leaseDuration);
      && r == Granted(GrantFor(s, s', k, op.workerId)) && w'.sessions == w.sessions[op.roomSessionId := s']
      && w'.roomEventSequences == w.roomEventSequences && w'.roomMessageSequences == w.roomMessageSequences
  {
    hide Claimable, ClaimSession, GrantFor;
  }

  lemma ClaimTook(op: Operation, r: Reply)
    requires op.Claim?
    ensures Target(op) == op.roomSessionId && Silent(op) && (Took(Target(op), op, r) <==> r.Granted?)
  {
  }

  lemma ClaimRefused(w: World, op: Operation)
    requires op.Claim?
    ensures CanClaim(w, op.roomSessionId, op.runtimeId, op.now) ==> op.roomSessionId in w.sessions
    ensures !CanClaim(w, op.roomSessionId, op.runtimeId, op.now) ==> Apply(w, op) == (w, Refused)
  {
    hide Claimable, ClaimSession, GrantFor;
  }

  lemma ClaimRemembers(start: World, base: map<string, nat>, p: Past, w: World, op: Operation)
    requires WorldInv(w, base) && Remembers(start, p, w) && op.Claim?
    ensures Remembers(start, Then(p, op, Apply(w, op).1), Apply(w, op).0)
  {
    hide *;
    var sid := op.roomSessionId;
    var (w', r) := Apply(w, op);
    ClaimTook(op, r);
    ClaimRefused(w, op);
    if CanClaim(w, sid, op.runtimeId, op.now) {
      ClaimForm(w, op);
      var s := w.sessions[sid];
      var k := FirstOpen(s.deliveries);
      RecallOf(start, p, w, sid);
      RecallsSplit(start, p, sid, s);
      InFlightIffHeld(w, base, p, sid);
      ClaimRecalls(start, p, op, r, sid, s, k);
      CountersOf(start, p, w);
      SilentCounters(start, p, op, r, w, w');
      OneTaken(start, p, op, r, w, w', ClaimSession(s, k, op.workerId, op.now + op.leaseDuration));
    } else {
      NothingTaken(start, p, op, r, w);
    }
  }

  lemma CountersOf(start: World, p: Past, w: World)
    requires Remembers(start, p, w)
    ensures RecallsCounters(start, p, w) && Told(start, p) && w.sessions.Keys == start.sessions.Keys
  {
  }

  /** A call under a lease that writes the session's own row and nothing else. */
  lemma QuietCall(start: World, base: map<string, nat>, p: Past, w: World, op: Operation, r: Reply, s': Session)
    requires WorldInv(w, base) && Remembers(start, p, w)
    requires Silent(op) && !op.Claim? && Took(Target(op), op, r) && Owned(w, op.lease, op.now)
    requires Target(op) in w.sessions && QuietWrite(w.sessions[Target(op)], op, s')
    ensures Remembers(start, Then(p, op, r), Put(w, Target(op), s'))
  {
    hide *;
    var sid := Target(op);
    var w' := Put(w, sid, s');
    RecallOf(start, p, w, sid);
    RecallsSplit(start, p, sid, w.sessions[sid]);
    CountersOf(start, p, w);
    OwnedFields(w, op.lease, op.now);
    LeasedTarget(op);
    QuietFields(start, p, op, r, w.sessions[sid], s');
    QuietIs(w, op, r, w.sessions[sid], s');
    QuietQueue(p, op, r, sid, w.sessions[sid], s');
    RecallsSplit(start, Then(p, op, r), sid, s');
    SilentCounters(start, p, op, r, w, w');
    OneTaken(start, p, op, r, w, w', s');
  }

  lemma LeasedTarget(op: Operation)
    requires !op.Claim?
    ensures Target(op) == op.lease.roomSessionId
  {
  }

  lemma QuietIs(w: World, op: Operation, r: Reply, s: Session, s': Session)
    requires Silent(op) && !op.Claim? && QuietWrite(s, op, s')
    ensures s'.seed == s.seed && s'.deliveries == s.deliveries && forall id: string :: !About(op, r, id)
    ensures
      var w' := Put(w, Target(op), s');
      && w'.sessions == w.sessions[Target(op) := s']
      && w'.roomEventSequences == w.roomEventSequences && w'.roomMessageSequences == w.roomMessageSequences
  {
  }

  predicate QuietWrite(s: Session, op: Operation, s': Session)
    requires Silent(op)
  {
    match op
    case Heartbeat(_, leaseDuration, now) => s' == s.(leaseExpiresAt := Some(now + leaseDuration))
    case BindRuntime(_, handle, _) => s' == s.(runtimeSessionId := Some(handle.runtimeSessionId))
    case PersistCheckpoint(_, saved, _) => s' == s.(checkpoint := Some(saved))
    case _ => false
  }

  lemma QuietFields(start: World, p: Past, op: Operation, r: Reply, s: Session, s': Session)
    requires Silent(op) && Took(Target(op), op, r) && !op.Claim?
    requires Recalls(start, p, Target(op), s) && QuietWrite(s, op, s')
    requires
      && s.generation == op.lease.generation && s.leaseOwnerId == Some(op.lease.workerId)
      && s.currentDeliveryId == Some(op.lease.deliveryId)
    ensures
      var sid := Target(op);
      && RecallsHolder(Then(p, op, r), sid, s') && RecallsRuntime(Then(p, op, r), sid, s')
      && RecallsEvents(Then(p, op, r), sid, s') && RecallsSettled(Then(p, op, r), sid, s')
      && RecallsCursor(start, Then(p, op, r), sid, s')
  {
    SettledStay(p, Then(p, op, r), Target(op), s, s');
    hide RecallsSettled;
    hide RecallsQueue;
  }

  lemma OwnedFields(w: World, lease: Lease, now: int)
    requires Owned(w, lease, now)
    ensures lease.roomSessionId in w.sessions
    ensures
      var s := w.sessions[lease.roomSessionId];
      s.generation == lease.generation && s.leaseOwnerId == Some(lease.workerId) && s.currentDeliveryId == Some(lease.deliveryId)
  {
  }

  lemma LeasedForm(w: World, op: Operation)
    requires op.Heartbeat? || op.BindRuntime? || op.PersistCheckpoint?
    ensures
      var (w', r) := Apply(w, op);
      if !Took(Target(op), op, r) then w' == w
      else
        && Owned(w, op.lease, op.now) && Target(op) == op.lease.roomSessionId && Target(op) in w.sessions
        && var s' := w'.sessions[Target(op)];
        && QuietWrite(w.sessions[Target(op)], op, s') && w' == Put(w, Target(op), s')
  {
  }

  lemma LeasedRemembers(start: World, base: map<string, nat>, p: Past, w: World, op: Operation)
    requires WorldInv(w, base) && Remembers(start, p, w)
    requires op.Heartbeat? || op.BindRuntime? || op.PersistCheckpoint?
    ensures Remembers(start, Then(p, op, Apply(w, op).1), Apply(w, op).0)
  {
    LeasedForm(w, op);
    var (w', r) := Apply(w, op);
    assert Silent(op);
    hide *;
    if Took(Target(op), op, r) {
      QuietCall(start, base, p, w, op, r, w'.sessions[Target(op)]);
    } else {
      NothingTaken(start, p, op, r, w);
    }
  }

  // ----- storing a runtime event

  lemma StoredIffRecorded(start: World, p: Past, sid: string, s: Session, lease: Lease, event: RuntimeEvent)
    requires RecallsEvents(p, sid, s) && lease.roomSessionId == sid
    ensures RuntimeKey(s, lease, event) in s.runtimeEvents <==> (lease.generation, event.eventId) in Stored(p, sid)
    ensures RuntimeKey(s, lease, event) in s.runtimeEvents ==>
      s.runtimeEvents[RuntimeKey(s, lease, event)].event == Stored(p, sid)[(lease.generation, event.eventId)]
  {
  }

  lemma RecordedEvents(p: Past, op: Operation, r: Reply, s: Session, sequence: nat)
    requires op.AppendEvent? && Took(Target(op), op, r) && RecallsEvents(p, Target(op), s)
    ensures RecallsEvents(Then(p, op, r), Target(op), RecordEvent(s, RuntimeKey(s, op.lease, op.event), op.event, sequence))
  {
    var sid := Target(op);
    var known, known' := Stored(p, sid), Stored(Then(p, op, r), sid);
    assert known' == known[(op.lease.generation, op.event.eventId) := op.event];
    assert sid == op.lease.roomSessionId;
    var s' := RecordEvent(s, RuntimeKey(s, op.lease, op.event), op.event, sequence);
    hide Took, Stored, Target;
    forall k | k in known' ensures RuntimeEventId(s'.seed.organizationId, sid, k.0, k.1) in s'.runtimeEvents {
      assert k in known || k == (op.lease.generation, op.event.eventId);
    }
  }

  lemma RecordedFields(start: World, p: Past, op: Operation, r: Reply, s: Session, sequence: nat)
    requires op.AppendEvent? && Took(Target(op), op, r) && Recalls(start, p, Target(op), s)
    requires sequence == LastEvent(start, Then(p, op, r), s.seed.roomId)
    ensures
      var sid := Target(op);
      var s' := RecordEvent(s, RuntimeKey(s, op.lease, op.event), op.event, sequence);
      && RecallsHolder(Then(p, op, r), sid, s') && RecallsRuntime(Then(p, op, r), sid, s')
      && RecallsSettled(Then(p, op, r), sid, s') && RecallsCursor(start, Then(p, op, r), sid, s')
  {
    SettledStay(p, Then(p, op, r), Target(op), s, RecordEvent(s, RuntimeKey(s, op.lease, op.event), op.event, sequence));
    hide RecallsSettled;
    hide RecallsQueue, RecallsEvents, LastEvent;
  }

  lemma RecordRecalls(start: World, p: Past, op: Operation, r: Reply, s: Session, sequence: nat)
    requires op.AppendEvent? && Took(Target(op), op, r) && Recalls(start, p, Target(op), s)
    requires sequence == LastEvent(start, Then(p, op, r), s.seed.roomId)
    ensures Recalls(start, Then(p, op, r), Target(op), RecordEvent(s, RuntimeKey(s, op.lease, op.event), op.event, sequence))
  {
    var s' := RecordEvent(s, RuntimeKey(s, op.lease, op.event), op.event, sequence);
    assert s'.seed == s.seed && s'.deliveries == s.deliveries;
    assert forall id: string :: !About(op, r, id);
    RecordedFields(start, p, op, r, s, sequence);
    hide *;
    RecallsSplit(start, p, Target(op), s);
    RecordedEvents(p, op, r, s, sequence);
    QuietQueue(p, op, r, Target(op), s, s');
    RecallsSplit(start, Then(p, op, r), Target(op), s');
  }

  lemma AppendTook(start: World, p: Past, op: Operation, r: Reply)
    requires op.AppendEvent?
    ensures Target(op) == op.lease.roomSessionId && (Took(Target(op), op, r) <==> r.Appended?)
    ensures r.Appended? ==> Spoken(p, op, r) == 1
    ensures Target(op) in start.sessions ==> RoomOf(start, op) == Some(start.sessions[Target(op)].seed.roomId)
  {
  }

  lemma AppendedCounters(w: World, roomId: string, data: EventData, now: int, eventId: EventId, sid: string, s: Session)
    ensures
      var w' := Put(AppendPublic(w, roomId, data, now, eventId), sid, s);
      && w'.sessions == w.sessions[sid := s] && w'.roomMessageSequences == w.roomMessageSequences
      && w'.roomEventSequences == w.roomEventSequences[roomId := Counter(w.roomEventSequences, roomId) + 1]
  {
  }

  lemma AppendRemembers(start: World, p: Past, w: World, op: Operation)
    requires Remembers(start, p, w) && op.AppendEvent?
    ensures Remembers(start, Then(p, op, Apply(w, op).1), Apply(w, op).0)
  {
    var (w', r) := DoAppend(w, op.lease, op.event, op.now);
    assert Apply(w, op) == (w', r);
    hide *;
    AppendTook(start, p, op, r);
    AppendForm(w, op.lease, op.event, op.now);
    if r.Appended? {
      var sid := Target(op);
      var s := w.sessions[sid];
      var room := s.seed.roomId;
      var key := RuntimeKey(s, op.lease, op.event);
      var n := Counter(w.roomEventSequences, room) + 1;
      CountersOf(start, p, w);
      RecallOf(start, p, w, sid);
      RecallsSplit(start, p, sid, s);
      AppendedCounters(w, room, RuntimeData(op.event), op.now, key, sid, RecordEvent(s, key, op.event, n));
      SpokenCounters(start, p, op, r, w, w', room, false);
      RecordRecalls(start, p, op, r, s, n);
      OneTaken(start, p, op, r, w, w', RecordEvent(s, key, op.event, n));
    } else {
      NothingTaken(start, p, op, r, w);
    }
  }

  // ----- a retry

  lemma RetriedDelivery(p: Past, op: Operation, r: Reply, s: Session, k: nat)
    requires op.Retry? && Took(Target(op), op, r) && k < |s.deliveries| && RecallsQueue(p, Target(op), s)
    requires !Settled(s.deliveries[k].status) && s.deliveries[k].envelope.deliveryId == op.lease.deliveryId
    ensures k < |SortedEnvelopes(s.seed)|
    ensures RecallsDelivery(Then(p, op, r), Target(op), SortedEnvelopes(s.seed)[k],
                            RetrySession(s, k, op.failure, op.checkpoint, op.availableAt).deliveries[k])
  {
    RecallsId(p, Target(op), s, k);
    hide RecallsQueue, Took, SortedEnvelopes;
  }

  lemma RetriedFields(start: World, p: Past, op: Operation, r: Reply, s: Session, k: nat)
    requires op.Retry? && Took(Target(op), op, r) && k < |s.deliveries| && Recalls(start, p, Target(op), s)
    requires !NewlyStored(p, op.lease, op.failedBy)
    ensures
      var sid := Target(op);
      var s' := RetrySession(s, k, op.failure, op.checkpoint, op.availableAt);
      && RecallsHolder(Then(p, op, r), sid, s') && RecallsRuntime(Then(p, op, r), sid, s')
      && RecallsEvents(Then(p, op, r), sid, s') && RecallsSettled(Then(p, op, r), sid, s')
      && RecallsCursor(start, Then(p, op, r), sid, s')
  {
    SettledStay(p, Then(p, op, r), Target(op), s, RetrySession(s, k, op.failure, op.checkpoint, op.availableAt));
    hide RecallsSettled;
    hide RecallsQueue;
  }

  lemma RetryRecalls(start: World, p: Past, op: Operation, r: Reply, s: Session, k: nat)
    requires op.Retry? && Took(Target(op), op, r) && k < |s.deliveries| && Recalls(start, p, Target(op), s)
    requires !NewlyStored(p, op.lease, op.failedBy) && DistinctIds(s.deliveries)
    requires !Settled(s.deliveries[k].status) && s.deliveries[k].envelope.deliveryId == op.lease.deliveryId
    ensures Recalls(start, Then(p, op, r), Target(op), RetrySession(s, k, op.failure, op.checkpoint, op.availableAt))
  {
    var s' := RetrySession(s, k, op.failure, op.checkpoint, op.availableAt);
    assert s'.seed == s.seed && s'.deliveries == s.deliveries[k := s'.deliveries[k]];
    assert forall id: string | About(op, r, id) :: id == s.deliveries[k].envelope.deliveryId;
    hide *;
    RecallsSplit(start, p, Target(op), s);
    RetriedFields(start, p, op, r, s, k);
    RetriedDelivery(p, op, r, s, k);
    OneDelivery(p, op, r, Target(op), s, s', k, s'.deliveries[k]);
    RecallsSplit(start, Then(p, op, r), Target(op), s');
  }

  lemma RetryTook(start: World, p: Past, op: Operation, r: Reply)
    requires op.Retry?
    ensures Target(op) == op.lease.roomSessionId && (Took(Target(op), op, r) <==> r.Retried?)
    ensures r.Retried? ==> Spoken(p, op, r) == if NewlyStored(p, op.lease, op.failedBy) then 2 else 1
    ensures Target(op) in start.sessions ==> RoomOf(start, op) == Some(start.sessions[Target(op)].seed.roomId)
  {
  }

  lemma QueueFacts(w: World, base: map<string, nat>, sid: string)
    requires WorldInv(w, base) && sid in w.sessions
    ensures DistinctIds(w.sessions[sid].deliveries) && Increasing(w.sessions[sid].deliveries)
    ensures Fifo(w.sessions[sid].deliveries) && w.sessions[sid].seed.roomSessionId == sid
  {
    InStore(w, base, sid);
  }

  lemma OwnedOpen(w: World, base: map<string, nat>, lease: Lease, now: int)
    requires WorldInv(w, base) && Owned(w, lease, now)
    ensures lease.roomSessionId in w.sessions
    ensures
      var ds := w.sessions[lease.roomSessionId].deliveries;
      var k := IndexOf(ds, lease.deliveryId);
      k == FirstOpen(ds) < |ds| && !Settled(ds[k].status) && ds[k].envelope.deliveryId == lease.deliveryId
  {
    OwnedIsCurrent(w, base, lease, now);
    hide WorldInv;
  }

  /** A retry whose failed event, if it names one, was stored before. */
  lemma CommitRemembers(start: World, base: map<string, nat>, p: Past, w: World, op: Operation, k: nat)
    requires WorldInv(w, base) && Remembers(start, p, w) && op.Retry? && Owned(w, op.lease, op.now)
    requires op.lease.roomSessionId in w.sessions && !NewlyStored(p, op.lease, op.failedBy)
    requires k == IndexOf(w.sessions[op.lease.roomSessionId].deliveries, op.lease.deliveryId)
    requires k < |w.sessions[op.lease.roomSessionId].deliveries|
    ensures Remembers(start, Then(p, op, Retried),
                      CommitRetry(w, op.lease, k, op.failure, op.checkpoint, op.availableAt, op.now))
  {
    hide *;
    OwnedOpen(w, base, op.lease, op.now);
    var sid := op.lease.roomSessionId;
    var s := w.sessions[sid];
    var d := s.deliveries[k];
    var data := DeliveryRetrying(d.envelope.deliveryId, op.lease.generation, d.envelope.attempt + 1, op.failure);
    var s' := RetrySession(s, k, op.failure, op.checkpoint, op.availableAt);
    var w' := CommitRetry(w, op.lease, k, op.failure, op.checkpoint, op.availableAt, op.now);
    RetryTook(start, p, op, Retried);
    CountersOf(start, p, w);
    RecallOf(start, p, w, sid);
    RecallsSplit(start, p, sid, s);
    QueueFacts(w, base, sid);
    CommitRetryShape(w, op.lease, k, op.failure, op.checkpoint, op.availableAt, op.now, data);
    AppendedCounters(w, s.seed.roomId, data, op.now, ArtifactOf(s, op.lease, RetryArtifact), sid, s');
    SpokenCounters(start, p, op, Retried, w, w', s.seed.roomId, false);
    RetryRecalls(start, p, op, Retried, s, k);
    OneTaken(start, p, op, Retried, w, w', s');
  }

  // ----- a retry that stores its failed event is that event and then the retry

  lemma TogetherFields(start: World, p: Past, op: Operation, c: Cursor, sid: string, s: Session)
    requires op.Retry? && NewlyStored(p, op.lease, op.failedBy) && Target(op) == op.lease.roomSessionId
    ensures
      var q := Then(Then(p, AppendEvent(op.lease, op.failedBy.value, op.now), Appended(c)), op, Retried);
      && (RecallsHolder(q, sid, s) ==> RecallsHolder(Then(p, op, Retried), sid, s))
      && (RecallsRuntime(q, sid, s) ==> RecallsRuntime(Then(p, op, Retried), sid, s))
      && (RecallsEvents(q, sid, s) ==> RecallsEvents(Then(p, op, Retried), sid, s))
      && (RecallsSettled(q, sid, s) ==> RecallsSettled(Then(p, op, Retried), sid, s))
  {
    var q1 := Then(p, AppendEvent(op.lease, op.failedBy.value, op.now), Appended(c));
    var q := Then(q1, op, Retried);
    var seed := s.seed;
    assert Grants(q, sid) == Grants(q1, sid) == Grants(p, sid);
    assert Terminals(q, sid) == Terminals(q1, sid) == Terminals(p, sid);
    assert BoundTo(q, sid, seed.runtimeSessionId) == BoundTo(q1, sid, seed.runtimeSessionId);
    assert !NewlyStored(q1, op.lease, op.failedBy);
    if sid == Target(op) {
      assert Saved(q, sid, seed.checkpoint) ==
        if op.checkpoint.Some? then op.checkpoint else Saved(q1, sid, seed.checkpoint);
      assert Stored(q, sid) == Stored(q1, sid);
    } else {
      assert Saved(q, sid, seed.checkpoint) == Saved(q1, sid, seed.checkpoint) == Saved(p, sid, seed.checkpoint);
      assert Drafted(q, sid) == Drafted(q1, sid) == Drafted(p, sid);
      assert Holder(q, sid) == Holder(q1, sid) == Holder(p, sid);
      assert Stored(q, sid) == Stored(q1, sid) == Stored(p, sid);
    }
  }

  lemma TogetherCursor(start: World, p: Past, op: Operation, c: Cursor, sid: string)
    requires op.Retry? && NewlyStored(p, op.lease, op.failedBy) && sid in start.sessions
    ensures
      var q := Then(Then(p, AppendEvent(op.lease, op.failedBy.value, op.now), Appended(c)), op, Retried);
      ReadUpTo(start, q, sid) == ReadUpTo(start, Then(p, op, Retried), sid)
  {
    var q1 := Then(p, AppendEvent(op.lease, op.failedBy.value, op.now), Appended(c));
    assert !NewlyStored(q1, op.lease, op.failedBy);
  }

  lemma TogetherCounters(start: World, p: Past, op: Operation, c: Cursor, w: World)
    requires op.Retry? && NewlyStored(p, op.lease, op.failedBy)
    ensures
      var q := Then(Then(p, AppendEvent(op.lease, op.failedBy.value, op.now), Appended(c)), op, Retried);
      (RecallsCounters(start, q, w) ==> RecallsCounters(start, Then(p, op, Retried), w)) && (Told(start, q) ==> Told(start, Then(p, op, Retried)))
  {
    var q1 := Then(p, AppendEvent(op.lease, op.failedBy.value, op.now), Appended(c));
    var q := Then(q1, op, Retried);
    assert !NewlyStored(q1, op.lease, op.failedBy);
    assert Told(start, q) ==> Told(start, q1) && (Took(Target(op), op, Retried) ==> Target(op) in start.sessions);
    assert Told(start, q1) ==> Told(start, p);
    forall room: string ensures
      && LastEvent(start, q, room) == LastEvent(start, Then(p, op, Retried), room)
      && LastMessage(start, q, room) == LastMessage(start, Then(p, op, Retried), room) {}
  }

  lemma TogetherDelivery(p: Past, op: Operation, c: Cursor, sid: string, e: Envelope, d: Delivery)
    requires op.Retry? && NewlyStored(p, op.lease, op.failedBy)
    requires RecallsDelivery(Then(Then(p, AppendEvent(op.lease, op.failedBy.value, op.now), Appended(c)), op, Retried), sid, e, d)
    ensures RecallsDelivery(Then(p, op, Retried), sid, e, d)
  {
    var q1 := Then(p, AppendEvent(op.lease, op.failedBy.value, op.now), Appended(c));
    var id := e.deliveryId;
    assert Terminals(q1, sid) == Terminals(p, sid) && Raised(q1, sid, id) == Raised(p, sid, id);
    assert AvailableFrom(q1, sid, id, e.createdAt) == AvailableFrom(p, sid, id, e.createdAt);
    assert ClosedAt(q1, sid, id) == ClosedAt(p, sid, id) && LastError(q1, sid, id) == LastError(p, sid, id);
    hide NewlyStored, Stored;
  }

  lemma Together(start: World, p: Past, op: Operation, c: Cursor, w: World)
    requires op.Retry? && NewlyStored(p, op.lease, op.failedBy)
    requires Remembers(start, Then(Then(p, AppendEvent(op.lease, op.failedBy.value, op.now), Appended(c)), op, Retried), w)
    ensures Remembers(start, Then(p, op, Retried), w)
  {
    var q := Then(Then(p, AppendEvent(op.lease, op.failedBy.value, op.now), Appended(c)), op, Retried);
    RetryTook(start, p, op, Retried);
    TogetherCounters(start, p, op, c, w);
    forall sid | sid in w.sessions ensures Recalls(start, Then(p, op, Retried), sid, w.sessions[sid]) {
      var s := w.sessions[sid];
      assert Recalls(start, q, sid, s);
      hide *;
      RecallsSplit(start, q, sid, s);
      TogetherFields(start, p, op, c, sid, s);
      TogetherCursor(start, p, op, c, sid);
      CursorRecalled(start, q, Then(p, op, Retried), sid, s);
      TogetherQueue(p, op, c, sid, s);
      RecallsSplit(start, Then(p, op, Retried), sid, s);
    }
    hide Recalls, RecallsCounters, Told, NewlyStored, Target, Took;
  }

  lemma CursorRecalled(start: World, q: Past, q': Past, sid: string, s: Session)
    requires RecallsCursor(start, q, sid, s)
    requires sid in start.sessions ==> ReadUpTo(start, q, sid) == ReadUpTo(start, q', sid)
    ensures RecallsCursor(start, q', sid, s)
  {
    hide ReadUpTo;
  }

  lemma TogetherQueue(p: Past, op: Operation, c: Cursor, sid: string, s: Session)
    requires op.Retry? && NewlyStored(p, op.lease, op.failedBy)
    requires RecallsQueue(Then(Then(p, AppendEvent(op.lease, op.failedBy.value, op.now), Appended(c)), op, Retried), sid, s)
    ensures RecallsQueue(Then(p, op, Retried), sid, s)
  {
    hide RecallsDelivery, SortedEnvelopes, NewlyStored;
    var es := SortedEnvelopes(s.seed);
    forall i | 0 <= i < |es| ensures RecallsDelivery(Then(p, op, Retried), sid, es[i], s.deliveries[i]) {
      TogetherDelivery(p, op, c, sid, es[i], s.deliveries[i]);
    }
  }

  /** What a retry does, told apart by whether it stores its failed event. */
  lemma RetryForm(w: World, op: Operation)
    requires op.Retry?
    ensures
      var (w', r) := Apply(w, op);
      if !r.Retried? then w' == w
      else
        && Owned(w, op.lease, op.now) && op.lease.roomSessionId in w.sessions
        && var k := IndexOf(w.sessions[op.lease.roomSessionId].deliveries, op.lease.deliveryId);
        && k < |w.sessions[op.lease.roomSessionId].deliveries|
        && var (w1, stored) :=
             if op.failedBy.Some? then DoAppend(w, op.lease, op.failedBy.value, op.now) else (w, Renewed);
        && !stored.ReplayChanged? && !stored.Fenced? && op.lease.roomSessionId in w1.sessions
        && w1.sessions[op.lease.roomSessionId].deliveries == w.sessions[op.lease.roomSessionId].deliveries
        && w' == CommitRetry(w1, op.lease, k, op.failure, op.checkpoint, op.availableAt, op.now)
  {
    hide CommitRetry;
    if op.failedBy.Some? && Owned(w, op.lease, op.now) { AppendKeepsQueue(w, op.lease, op.failedBy.value, op.now); }
  }

  /** An owner's event is stored exactly when the history does not hold one of that name. */
  lemma AppendAnswer(start: World, p: Past, w: World, lease: Lease, event: RuntimeEvent, now: int)
    requires Remembers(start, p, w) && Owned(w, lease, now)
    ensures lease.roomSessionId in w.sessions
    ensures
      var known := Stored(p, lease.roomSessionId);
      var key := (lease.generation, event.eventId);
      var r := DoAppend(w, lease, event, now).1;
      && (r.Appended? <==> key !in known)
      && (r == ReplayChanged <==> key in known && known[key] != event)
      && (key in known && known[key] == event ==> r == Duplicate(w.sessions[lease.roomSessionId].cursor))
      && (r.Appended? ==> r.cursor == w.sessions[lease.roomSessionId].cursor.(
            eventSequence := Counter(w.roomEventSequences, w.sessions[lease.roomSessionId].seed.roomId) + 1))
  {
    RecallOf(start, p, w, lease.roomSessionId);
    StoredIffRecorded(start, p, lease.roomSessionId, w.sessions[lease.roomSessionId], lease, event);
    hide Remembers, RecallsHolder, RecallsRuntime, RecallsQueue, RecallsCursor, RecallsEvents, Stored, RuntimeKey;
  }

  lemma RetryRemembers(start: World, base: map<string, nat>, p: Past, w: World, op: Operation)
    requires WorldInv(w, base) && Remembers(start, p, w) && op.Retry?
    ensures Remembers(start, Then(p, op, Apply(w, op).1), Apply(w, op).0)
  {
    var (w', r) := Apply(w, op);
    assert op.failedBy.None? ==> !NewlyStored(p, op.lease, op.failedBy);
    assert op.failedBy.Some? ==>
      (NewlyStored(p, op.lease, op.failedBy) <==> (op.lease.generation, op.failedBy.value.eventId) !in Stored(p, op.lease.roomSessionId));
    hide *;
    RetryTook(start, p, op, r);
    RetryForm(w, op);
    if !r.Retried? {
      NothingTaken(start, p, op, r, w);
    } else if op.failedBy.Some? {
      RetriedIs(r);
      var k := IndexOf(w.sessions[op.lease.roomSessionId].deliveries, op.lease.deliveryId);
      var (w1, stored) := DoAppend(w, op.lease, op.failedBy.value, op.now);
      AppendAnswer(start, p, w, op.lease, op.failedBy.value, op.now);
      AppendForm(w, op.lease, op.failedBy.value, op.now);
      if stored.Appended? {
        var call := AppendEvent(op.lease, op.failedBy.value, op.now);
        ApplyAppend(w, call);
        AppendRemembers(start, p, w, call);
        AppendKeeps(w, base, op.lease, op.failedBy.value, op.now);
        AppendKeepsQueue(w, op.lease, op.failedBy.value, op.now);
        var q := Then(p, call, stored);
        NotNewAgain(p, op, stored.cursor);
        CommitRemembers(start, base, q, w1, op, k);
        Together(start, p, op, stored.cursor, w');
      } else {
        CommitRemembers(start, base, p, w, op, k);
      }
    } else {
      RetriedIs(r);
      CommitRemembers(start, base, p, w, op, IndexOf(w.sessions[op.lease.roomSessionId].deliveries, op.lease.deliveryId));
    }
  }

  lemma RetriedIs(r: Reply)
    requires r.Retried?
    ensures r == Retried
  {
  }

  lemma ApplyAppend(w: World, op: Operation)
    requires op.AppendEvent?
    ensures Apply(w, op) == DoAppend(w, op.lease, op.event, op.now)
  {
  }

  lemma NotNewAgain(p: Past, op: Operation, c: Cursor)
    requires op.Retry? && op.failedBy.Some?
    ensures !NewlyStored(Then(p, AppendEvent(op.lease, op.failedBy.value, op.now), Appended(c)), op.lease, op.failedBy)
  {
  }

  // ----- a finish

  /** The seeded envelope of a delivery is the only one with its id. */
  lemma SentIs(p: Past, sid: string, s: Session, k: nat, e: Envelope)
    requires RecallsQueue(p, sid, s) && DistinctIds(s.deliveries) && k < |s.deliveries|
    requires Sent(s.seed, e, s.deliveries[k].envelope.deliveryId)
    ensures k < |SortedEnvelopes(s.seed)| && e == SortedEnvelopes(s.seed)[k]
  {
    hide RecallsDelivery;
    var es := SortedEnvelopes(s.seed);
    SortPermutes(s.seed.deliveries, EarlierEnvelope);
    assert e in multiset(es);
    var i :| 0 <= i < |es| && es[i] == e;
    RecallsId(p, sid, s, i);
    RecallsId(p, sid, s, k);
  }

  lemma KnownIsSent(p: Past, sid: string, s: Session, k: nat)
    requires RecallsQueue(p, sid, s) && k < |s.deliveries|
    ensures k < |SortedEnvelopes(s.seed)|
    ensures Sent(s.seed, SortedEnvelopes(s.seed)[k], s.deliveries[k].envelope.deliveryId)
  {
    RecallsId(p, sid, s, k);
    hide RecallsQueue, RecallsDelivery;
    var es := SortedEnvelopes(s.seed);
    SortPermutes(s.seed.deliveries, EarlierEnvelope);
    assert es[k] in multiset(es);
  }

  lemma FinishedDelivery(p: Past, op: Operation, r: Reply, s: Session, k: nat, outputSequence: nat, terminalSequence: nat)
    requires op.Finish? && Took(Target(op), op, r) && k < |s.deliveries| && RecallsQueue(p, Target(op), s)
    requires s.deliveries[k].envelope.deliveryId == op.lease.deliveryId
    ensures k < |SortedEnvelopes(s.seed)|
    ensures RecallsDelivery(Then(p, op, r), Target(op), SortedEnvelopes(s.seed)[k],
              FinishSession(s, k, op.terminal, op.checkpoint, outputSequence, terminalSequence, op.now).deliveries[k])
  {
    RecallsId(p, Target(op), s, k);
    hide RecallsQueue, Took, SortedEnvelopes;
  }

  lemma FinishedFields(start: World, p: Past, op: Operation, r: Reply, s: Session, k: nat, outputSequence: nat, terminalSequence: nat)
    requires op.Finish? && Took(Target(op), op, r) && k < |s.deliveries| && Recalls(start, p, Target(op), s)
    requires s.deliveries[k].envelope.deliveryId == op.lease.deliveryId
    ensures
      var sid := Target(op);
      var s' := FinishSession(s, k, op.terminal, op.checkpoint, outputSequence, terminalSequence, op.now);
      && RecallsHolder(Then(p, op, r), sid, s') && RecallsRuntime(Then(p, op, r), sid, s')
      && RecallsEvents(Then(p, op, r), sid, s') && RecallsSettled(Then(p, op, r), sid, s')
  {
    KnownIsSent(p, Target(op), s, k);
    hide RecallsQueue, RecallsCursor, SortedEnvelopes;
  }

  lemma FinishedCursor(start: World, p: Past, op: Operation, r: Reply, s: Session, k: nat, outputSequence: nat, terminalSequence: nat)
    requires op.Finish? && Took(Target(op), op, r) && k < |s.deliveries| && Recalls(start, p, Target(op), s)
    requires s.deliveries[k].envelope.deliveryId == op.lease.deliveryId && DistinctIds(s.deliveries)
    requires terminalSequence == LastEvent(start, Then(p, op, r), s.seed.roomId)
    requires outputSequence ==
      if Delivers(op.terminal) && op.output.Some? then LastMessage(start, Then(p, op, r), s.seed.roomId) else 0
    ensures RecallsCursor(start, Then(p, op, r), Target(op),
              FinishSession(s, k, op.terminal, op.checkpoint, outputSequence, terminalSequence, op.now))
  {
    var sid := Target(op);
    KnownIsSent(p, sid, s, k);
    RecallsId(p, sid, s, k);
    forall e: Envelope | Sent(s.seed, e, op.lease.deliveryId) ensures e == SortedEnvelopes(s.seed)[k] {
      SentIs(p, sid, s, k, e);
    }
    hide RecallsQueue, RecallsHolder, RecallsRuntime, RecallsEvents, RecallsSettled, SortedEnvelopes, LastEvent, LastMessage, Took, Sent;
  }

  lemma FinishRecalls(start: World, p: Past, op: Operation, r: Reply, s: Session, k: nat, outputSequence: nat, terminalSequence: nat)
    requires op.Finish? && Took(Target(op), op, r) && k < |s.deliveries| && Recalls(start, p, Target(op), s)
    requires s.deliveries[k].envelope.deliveryId == op.lease.deliveryId && DistinctIds(s.deliveries)
    requires terminalSequence == LastEvent(start, Then(p, op, r), s.seed.roomId)
    requires outputSequence ==
      if Delivers(op.terminal) && op.output.Some? then LastMessage(start, Then(p, op, r), s.seed.roomId) else 0
    ensures Recalls(start, Then(p, op, r), Target(op),
              FinishSession(s, k, op.terminal, op.checkpoint, outputSequence, terminalSequence, op.now))
  {
    var s' := FinishSession(s, k, op.terminal, op.checkpoint, outputSequence, terminalSequence, op.now);
    assert s'.seed == s.seed && s'.deliveries == s.deliveries[k := s'.deliveries[k]];
    assert forall id: string | About(op, r, id) :: id == s.deliveries[k].envelope.deliveryId;
    hide *;
    RecallsSplit(start, p, Target(op), s);
    FinishedFields(start, p, op, r, s, k, outputSequence, terminalSequence);
    FinishedCursor(start, p, op, r, s, k, outputSequence, terminalSequence);
    FinishedDelivery(p, op, r, s, k, outputSequence, terminalSequence);
    OneDelivery(p, op, r, Target(op), s, s', k, s'.deliveries[k]);
    RecallsSplit(start, Then(p, op, r), Target(op), s');
  }

  lemma FinishTook(start: World, p: Past, op: Operation, r: Reply)
    requires op.Finish?
    ensures Target(op) == op.lease.roomSessionId && (Took(Target(op), op, r) <==> r.Finished?)
    ensures r.Finished? ==> Spoken(p, op, r) == if Delivers(op.terminal) && op.output.Some? then 2 else 1
    ensures Target(op) in start.sessions ==> RoomOf(start, op) == Some(start.sessions[Target(op)].seed.roomId)
  {
  }

  /** What an accepted finish writes and answers. */
  lemma FinishedForm(w: World, op: Operation, k: nat)
    requires op.Finish? && !AlreadyFinished(w, op.lease, op.terminal) && Owned(w, op.lease, op.now)
    requires op.lease.roomSessionId in w.sessions
    requires k == IndexOf(w.sessions[op.lease.roomSessionId].deliveries, op.lease.deliveryId)
    requires k < |w.sessions[op.lease.roomSessionId].deliveries|
    ensures
      var s := w.sessions[op.lease.roomSessionId];
      var room := s.seed.roomId;
      var spoke := Delivers(op.terminal) && op.output.Some?;
      var message := Counter(w.roomMessageSequences, room) + 1;
      var last := Counter(w.roomEventSequences, room) + if spoke then 2 else 1;
      var (w', r) := Apply(w, op);
      var s' := FinishSession(s, k, op.terminal, op.checkpoint, if spoke then message else 0, last, op.now);
      && w'.sessions == w.sessions[op.lease.roomSessionId := s'] && r == Finished(s'.cursor)
      && w'.roomEventSequences == w.roomEventSequences[room := last]
      && w'.roomMessageSequences == if spoke then w.roomMessageSequences[room := message] else w.roomMessageSequences
  {
    hide AlreadyFinished, Owned, FinishSession, IndexOf, ArtifactOf;
  }

  lemma FinishDeclined(w: World, op: Operation)
    requires op.Finish?
    ensures AlreadyFinished(w, op.lease, op.terminal) || !Owned(w, op.lease, op.now) ==>
              Apply(w, op).0 == w && !Apply(w, op).1.Finished?
  {
    hide FinishSession, PublishOutput, AgentMessage;
  }

  lemma FinishRemembers(start: World, base: map<string, nat>, p: Past, w: World, op: Operation)
    requires WorldInv(w, base) && Remembers(start, p, w) && op.Finish?
    ensures Remembers(start, Then(p, op, Apply(w, op).1), Apply(w, op).0)
  {
    hide *;
    var (w', r) := Apply(w, op);
    FinishTook(start, p, op, r);
    FinishDeclined(w, op);
    if AlreadyFinished(w, op.lease, op.terminal) || !Owned(w, op.lease, op.now) {
      NothingTaken(start, p, op, r, w);
    } else {
      var sid := op.lease.roomSessionId;
      OwnedOpen(w, base, op.lease, op.now);
      var s := w.sessions[sid];
      var k := IndexOf(s.deliveries, op.lease.deliveryId);
      FinishedForm(w, op, k);
      var room := s.seed.roomId;
      var spoke := Delivers(op.terminal) && op.output.Some?;
      CountersOf(start, p, w);
      RecallOf(start, p, w, sid);
      RecallsSplit(start, p, sid, s);
      QueueFacts(w, base, sid);
      SpokenCounters(start, p, op, r, w, w', room, spoke);
      FinishRecalls(start, p, op, r, s, k, if spoke then Counter(w.roomMessageSequences, room) + 1 else 0,
                    Counter(w.roomEventSequences, room) + if spoke then 2 else 1);
      OneTaken(start, p, op, r, w, w', w'.sessions[sid]);
    }
  }

  // ----- every run remembers its history

  lemma ApplyRemembers(start: World, base: map<string, nat>, p: Past, w: World, op: Operation)
    requires WorldInv(w, base) && Remembers(start, p, w)
    ensures Remembers(start, Then(p, op, Apply(w, op).1), Apply(w, op).0)
  {
    hide *;
    match op
    case Claim(_, _, _, _, _) => ClaimRemembers(start, base, p, w, op);
    case AppendEvent(_, _, _) => AppendRemembers(start, p, w, op);
    case Finish(_, _, _, _, _) => FinishRemembers(start, base, p, w, op);
    case Retry(_, _, _, _, _, _) => RetryRemembers(start, base, p, w, op);
    case _ => LeasedRemembers(start, base, p, w, op);
  }

  lemma FreshRecalled(start: World, seed: Seed, sid: string)
    requires sid in start.sessions && start.sessions[sid].seed == seed
    ensures Recalls(start, Nothing, sid, SeededSession(seed))
  {
    hide SortedEnvelopes;
  }

  lemma SeededRemembers(seeds: seq<Seed>)
    requires SeedWorld(seeds).Some?
    ensures Remembers(SeedWorld(seeds).value, Nothing, SeedWorld(seeds).value)
  {
    var start := SeedWorld(seeds).value;
    forall sid | sid in start.sessions ensures Recalls(start, Nothing, sid, start.sessions[sid]) {
      SeededAsGiven(seeds, sid);
      FreshRecalled(start, start.sessions[sid].seed, sid);
    }
    hide Recalls, SeedWorld;
  }

  lemma OneMore(start: World, ops: seq<Operation>)
    requires ops != []
    ensures Run(start, ops) == Apply(Run(start, ops[..|ops| - 1]), ops[|ops| - 1]).0
  {
    hide Apply;
    var front, last := ops[..|ops| - 1], ops[|ops| - 1];
    assert ops == front + [last];
    RunJoins(start, front, [last]);
    assert [last][1..] == [];
    assert Run(Run(start, front), [last]) == Run(Apply(Run(start, front), last).0, []);
  }

  lemma TraceMore(start: World, ops: seq<Operation>)
    requires ops != []
    ensures Trace(start, ops) ==
      Then(Trace(start, ops[..|ops| - 1]), ops[|ops| - 1], Apply(Run(start, ops[..|ops| - 1]), ops[|ops| - 1]).1)
  {
    hide Apply, Run;
  }

  lemma {:induction false} RunRemembers(seeds: seq<Seed>, ops: seq<Operation>)
    requires (forall seed | seed in seeds :: ValidSeed(seed)) && SeedWorld(seeds).Some?
    ensures Remembers(SeedWorld(seeds).value, Trace(SeedWorld(seeds).value, ops), Run(SeedWorld(seeds).value, ops))
    decreases |ops|
  {
    var start := SeedWorld(seeds).value;
    if ops == [] {
      SeededRemembers(seeds);
    } else {
      var front, last := ops[..|ops| - 1], ops[|ops| - 1];
      hide Remembers, Apply, WorldInv, Run, Trace, SeedWorld, ValidSeed;
      RunRemembers(seeds, front);
      SeedWorldInv(seeds);
      RunKeeps(start, start.roomEventSequences, front);
      ApplyRemembers(start, start.roomEventSequences, Trace(start, front), Run(start, front), last);
      OneMore(start, ops);
      TraceMore(start, ops);
    }
  }

  // ----- and so every answer follows from the ones before

  /** The queue read as its seeded envelopes: same ids and order, settled as the history says. */
  ghost predicate Mirrors(p: Past, sid: string, es: seq<Envelope>, ds: seq<Delivery>) {
    && |es| == |ds|
    && forall i | 0 <= i < |ds| ::
         && es[i].deliverySequence == ds[i].envelope.deliverySequence
         && (es[i].deliveryId in Terminals(p, sid) <==> Settled(ds[i].status))
  }

  lemma QueueMirrors(p: Past, sid: string, s: Session)
    requires RecallsQueue(p, sid, s)
    ensures Mirrors(p, sid, SortedEnvelopes(s.seed), s.deliveries)
    ensures forall e :: e in s.seed.deliveries <==> e in SortedEnvelopes(s.seed)
  {
    SortPermutes(s.seed.deliveries, EarlierEnvelope);
    hide Terminals, Raised, AvailableFrom, ClosedAt, LastError;
    var es := SortedEnvelopes(s.seed);
    forall i | 0 <= i < |es| ensures es[i].deliverySequence == s.deliveries[i].envelope.deliverySequence
        && (es[i].deliveryId in Terminals(p, sid) <==> Settled(s.deliveries[i].status)) {
      assert RecallsDelivery(p, sid, es[i], s.deliveries[i]);
    }
  }

  lemma FirstIsNext(p: Past, sid: string, seed: Seed, es: seq<Envelope>, ds: seq<Delivery>, k: nat)
    requires Mirrors(p, sid, es, ds) && Increasing(ds) && (forall e :: e in seed.deliveries <==> e in es)
    requires k < |ds| && !Settled(ds[k].status) && forall i | 0 <= i < k :: Settled(ds[i].status)
    ensures NextUp(seed, p, sid, es[k])
  {
    hide Terminals;
    forall f | f in seed.deliveries && f.deliverySequence < es[k].deliverySequence ensures f.deliveryId in Terminals(p, sid) {
      var i :| 0 <= i < |es| && es[i] == f;
      assert i < k;
    }
  }

  lemma NextIsFirst(p: Past, sid: string, seed: Seed, es: seq<Envelope>, ds: seq<Delivery>, k: nat, e: Envelope)
    requires Mirrors(p, sid, es, ds) && Increasing(ds) && (forall e :: e in seed.deliveries <==> e in es)
    requires k <= |ds| && (k < |ds| ==> !Settled(ds[k].status)) && forall i | 0 <= i < k :: Settled(ds[i].status)
    requires NextUp(seed, p, sid, e)
    ensures k < |ds| && e == es[k]
  {
    hide Terminals;
    var i :| 0 <= i < |es| && es[i] == e;
    assert k <= i;
    assert es[k] in seed.deliveries;
  }

  lemma NextIsFirstOpen(p: Past, sid: string, s: Session, e: Envelope)
    requires RecallsQueue(p, sid, s) && Increasing(s.deliveries)
    ensures
      var k := FirstOpen(s.deliveries);
      && |SortedEnvelopes(s.seed)| == |s.deliveries|
      && (NextUp(s.seed, p, sid, e) <==> k < |s.deliveries| && e == SortedEnvelopes(s.seed)[k])
  {
    hide *;
    var es, ds, k := SortedEnvelopes(s.seed), s.deliveries, FirstOpen(s.deliveries);
    QueueMirrors(p, sid, s);
    MirrorsAlike(p, sid, es, ds);
    if k < |ds| { FirstIsNext(p, sid, s.seed, es, ds, k); }
    if NextUp(s.seed, p, sid, e) { NextIsFirst(p, sid, s.seed, es, ds, k, e); }
  }

  lemma MirrorsAlike(p: Past, sid: string, es: seq<Envelope>, ds: seq<Delivery>)
    requires Mirrors(p, sid, es, ds)
    ensures |es| == |ds|
  {
  }

  lemma FreeIffClaimable(w: World, base: map<string, nat>, start: World, p: Past, sid: string, now: int)
    requires WorldInv(w, base) && Remembers(start, p, w) && sid in w.sessions
    ensures
      var s := w.sessions[sid];
      var k := FirstOpen(s.deliveries);
      Free(s.seed, p, sid, now) <==> k < |s.deliveries| && Claimable(s, s.deliveries[k], now)
  {
    var s := w.sessions[sid];
    var k := FirstOpen(s.deliveries);
    hide *;
    RecallOf(start, p, w, sid);
    RecallsSplit(start, p, sid, s);
    QueueFacts(w, base, sid);
    InFlightIffHeld(w, base, p, sid);
    LeaseAt(w, base, sid);
    forall e ensures |SortedEnvelopes(s.seed)| == |s.deliveries|
        && (NextUp(s.seed, p, sid, e) <==> k < |s.deliveries| && e == SortedEnvelopes(s.seed)[k]) {
      NextIsFirstOpen(p, sid, s, e);
    }
    if k < |s.deliveries| {
      RecallsId(p, sid, s, k);
      OneFree(p, sid, s, k, now);
    } else {
      NoneFree(s.seed, p, sid, now);
    }
  }

  lemma NoneFree(seed: Seed, p: Past, sid: string, now: int)
    requires forall e :: !NextUp(seed, p, sid, e)
    ensures !Free(seed, p, sid, now)
  {
    hide NextUp;
  }

  lemma LeaseAt(w: World, base: map<string, nat>, sid: string)
    requires WorldInv(w, base) && sid in w.sessions
    ensures LeaseMatches(w.sessions[sid])
  {
    InStore(w, base, sid);
  }

  lemma OneFree(p: Past, sid: string, s: Session, k: nat, now: int)
    requires k == FirstOpen(s.deliveries) < |s.deliveries| == |SortedEnvelopes(s.seed)|
    requires forall e :: NextUp(s.seed, p, sid, e) <==> e == SortedEnvelopes(s.seed)[k]
    requires RecallsDelivery(p, sid, SortedEnvelopes(s.seed)[k], s.deliveries[k]) && RecallsHolder(p, sid, s)
    requires LeaseMatches(s) && (HasClaim(s.deliveries) <==> Holder(p, sid).Some?)
    ensures Free(s.seed, p, sid, now) <==> Claimable(s, s.deliveries[k], now)
  {
    hide NextUp, Holder, Raised, AvailableFrom, ClosedAt, LastError, Terminals;
    assert NextUp(s.seed, p, sid, SortedEnvelopes(s.seed)[k]);
    hide SortedEnvelopes;
  }

  lemma Resumed(start: World, p: Past, sid: string, s: Session, k: nat, workerId: string, expiresAt: int)
    requires Recalls(start, p, sid, s) && k < |s.deliveries| && s.seed.roomSessionId == sid
    requires k < |SortedEnvelopes(s.seed)| && NextUp(s.seed, p, sid, SortedEnvelopes(s.seed)[k])
    requires s.deliveries[k].status == InFlight <==> Holder(p, sid).Some?
    ensures Resumes(start, p, sid, workerId, GrantFor(s, ClaimSession(s, k, workerId, expiresAt), k, workerId))
  {
    RecallsId(p, sid, s, k);
    hide RecallsHolder, RecallsQueue, RecallsEvents, RecallsSettled, NextUp, SortedEnvelopes, Holder, BoundTo, Saved, Drafted,
         ReadUpTo, Raised, Terminals, AvailableFrom, LastError, ClosedAt, Grants;
  }

  lemma OwedIf(start: World, p: Past, w: World, op: Operation, r: Reply)
    requires op.Claim? && start.sessions.Keys == w.sessions.Keys
    requires op.roomSessionId in w.sessions ==> w.sessions[op.roomSessionId].seed == start.sessions[op.roomSessionId].seed
    requires op.roomSessionId in w.sessions ==>
      var s := w.sessions[op.roomSessionId];
      var k := FirstOpen(s.deliveries);
      Free(s.seed, p, op.roomSessionId, op.now) <==> k < |s.deliveries| && Claimable(s, s.deliveries[k], op.now)
    requires CanClaim(w, op.roomSessionId, op.runtimeId, op.now)
             ==> op.roomSessionId in start.sessions && r.Granted? && Resumes(start, p, op.roomSessionId, op.workerId, r.grant)
    requires !CanClaim(w, op.roomSessionId, op.runtimeId, op.now) ==> r == Refused
    ensures Owed(start, p, op, r)
  {
    hide Resumes, Free, Claimable, FirstOpen;
  }

  lemma ClaimAsOwed(start: World, base: map<string, nat>, p: Past, w: World, op: Operation)
    requires WorldInv(w, base) && Remembers(start, p, w) && op.Claim?
    ensures Owed(start, p, op, Apply(w, op).1)
  {
    hide *;
    var sid := op.roomSessionId;
    var r := Apply(w, op).1;
    CountersOf(start, p, w);
    ClaimRefused(w, op);
    if sid in w.sessions {
      var s := w.sessions[sid];
      var k := FirstOpen(s.deliveries);
      RecallOf(start, p, w, sid);
      RecallsSplit(start, p, sid, s);
      FreeIffClaimable(w, base, start, p, sid, op.now);
      if CanClaim(w, sid, op.runtimeId, op.now) {
        ClaimForm(w, op);
        QueueFacts(w, base, sid);
        InFlightIffHeld(w, base, p, sid);
        RecallsId(p, sid, s, k);
        NextIsFirstOpen(p, sid, s, SortedEnvelopes(s.seed)[k]);
        Resumed(start, p, sid, s, k, op.workerId, op.now + op.leaseDuration);
      }
    }
    OwedIf(start, p, w, op, r);
  }

  lemma SeedOf(start: World, p: Past, w: World, sid: string)
    requires Remembers(start, p, w) && sid in w.sessions
    ensures sid in start.sessions && w.sessions[sid].seed == start.sessions[sid].seed
    ensures w.sessions[sid].cursor == ReadUpTo(start, p, sid)
    ensures Counter(w.roomEventSequences, w.sessions[sid].seed.roomId) == LastEvent(start, p, w.sessions[sid].seed.roomId)
    ensures Counter(w.roomMessageSequences, w.sessions[sid].seed.roomId) == LastMessage(start, p, w.sessions[sid].seed.roomId)
  {
    RecallOf(start, p, w, sid);
    hide RecallsHolder, RecallsRuntime, RecallsQueue, RecallsEvents, RecallsSettled, ReadUpTo, LastEvent, LastMessage;
  }

  lemma HoldsIffOwned(start: World, p: Past, w: World, lease: Lease, now: int)
    requires Remembers(start, p, w)
    ensures Owned(w, lease, now) <==> Holds(p, lease, now)
  {
    CountersOf(start, p, w);
    if lease.roomSessionId in w.sessions {
      OwnedIffHolds(start, p, w, lease, now);
    } else {
      NothingOfStrangers(start, p, lease.roomSessionId);
    }
  }

  lemma LeasedAsOwed(start: World, p: Past, w: World, op: Operation)
    requires Remembers(start, p, w) && (op.Heartbeat? || op.BindRuntime? || op.PersistCheckpoint?)
    ensures Owed(start, p, op, Apply(w, op).1)
  {
    HoldsIffOwned(start, p, w, op.lease, op.now);
    if op.lease.roomSessionId in w.sessions { SeedOf(start, p, w, op.lease.roomSessionId); }
    CountersOf(start, p, w);
    hide Remembers, Holds, ReadUpTo, LastEvent, LastMessage, Told;
  }

  lemma AppendAsOwed(start: World, p: Past, w: World, op: Operation)
    requires Remembers(start, p, w) && op.AppendEvent?
    ensures Owed(start, p, op, Apply(w, op).1)
  {
    hide *;
    HoldsIffOwned(start, p, w, op.lease, op.now);
    ApplyAppend(w, op);
    AppendReplies(w, op.lease, op.event, op.now);
    if Owned(w, op.lease, op.now) {
      AppendAnswer(start, p, w, op.lease, op.event, op.now);
      SeedOf(start, p, w, op.lease.roomSessionId);
    }
    AppendIsOwed(start, p, op, Apply(w, op).1);
  }

  lemma AppendIsOwed(start: World, p: Past, op: Operation, r: Reply)
    requires op.AppendEvent?
    requires
      var known := Stored(p, op.lease.roomSessionId);
      var key := (op.lease.generation, op.event.eventId);
      if !Holds(p, op.lease, op.now) then r == Fenced
      else
        && op.lease.roomSessionId in start.sessions
        && var read := ReadUpTo(start, p, op.lease.roomSessionId);
        && var next := LastEvent(start, p, start.sessions[op.lease.roomSessionId].seed.roomId) + 1;
        && (key !in known ==> r == Appended(read.(eventSequence := next)))
        && (key in known && known[key] == op.event ==> r == Duplicate(read))
        && (key in known && known[key] != op.event ==> r == ReplayChanged)
    ensures Owed(start, p, op, r)
  {
    hide Holds, ReadUpTo, LastEvent, Stored;
  }

  lemma AppendReplies(w: World, lease: Lease, event: RuntimeEvent, now: int)
    ensures !Owned(w, lease, now) ==> DoAppend(w, lease, event, now).1 == Fenced
    ensures
      var r := DoAppend(w, lease, event, now).1;
      r.Appended? ==> r == Appended(r.cursor)
  {
    hide RecordEvent, RuntimeKey, AppendPublic;
  }

  /** A delivery answers a repeated finish exactly when the history settled it with that very fact. */
  lemma FinishedIffTold(start: World, base: map<string, nat>, p: Past, w: World, lease: Lease, terminal: Terminal)
    requires WorldInv(w, base) && Remembers(start, p, w)
    ensures
      var settled := Terminals(p, lease.roomSessionId);
      AlreadyFinished(w, lease, terminal) <==> lease.deliveryId in settled && settled[lease.deliveryId] == terminal
  {
    hide *;
    var sid := lease.roomSessionId;
    CountersOf(start, p, w);
    FinishedAt(w, lease, terminal);
    if sid in w.sessions {
      var s := w.sessions[sid];
      RecallOf(start, p, w, sid);
      RecallsSplit(start, p, sid, s);
      SettledIffTold(p, sid, s, lease.deliveryId, terminal);
    } else {
      NothingOfStrangers(start, p, sid);
    }
  }

  lemma FinishedAt(w: World, lease: Lease, terminal: Terminal)
    ensures AlreadyFinished(w, lease, terminal) <==>
      && lease.roomSessionId in w.sessions
      && var ds := w.sessions[lease.roomSessionId].deliveries;
      && var k := IndexOf(ds, lease.deliveryId);
      && k < |ds| && Settled(ds[k].status) && ds[k].terminal == Some(terminal)
  {
    hide IndexOf, Settled;
  }

  lemma SettledIffTold(p: Past, sid: string, s: Session, id: string, terminal: Terminal)
    requires RecallsQueue(p, sid, s) && RecallsSettled(p, sid, s)
    ensures
      var k := IndexOf(s.deliveries, id);
      (k < |s.deliveries| && Settled(s.deliveries[k].status) && s.deliveries[k].terminal == Some(terminal))
      <==> (id in Terminals(p, sid) && Terminals(p, sid)[id] == terminal)
  {
    hide IndexOf, SortedEnvelopes, RecallsQueue;
    var k := IndexOf(s.deliveries, id);
    if k < |s.deliveries| {
      RecallsId(p, sid, s, k);
    } else if id in Terminals(p, sid) {
      var e :| Sent(s.seed, e, id);
      InQueue(p, sid, s, e);
    }
  }

  lemma InQueue(p: Past, sid: string, s: Session, e: Envelope)
    requires RecallsQueue(p, sid, s) && e in s.seed.deliveries
    ensures exists i :: 0 <= i < |s.deliveries| && s.deliveries[i].envelope.deliveryId == e.deliveryId
  {
    var es := SortedEnvelopes(s.seed);
    SortPermutes(s.seed.deliveries, EarlierEnvelope);
    var i :| 0 <= i < |es| && es[i] == e;
    RecallsId(p, sid, s, i);
  }

  lemma FinishedAsOwed(start: World, base: map<string, nat>, p: Past, w: World, op: Operation)
    requires WorldInv(w, base) && Remembers(start, p, w) && op.Finish?
    requires !AlreadyFinished(w, op.lease, op.terminal) && Owned(w, op.lease, op.now)
    ensures Owed(start, p, op, Apply(w, op).1)
  {
    hide *;
    var sid := op.lease.roomSessionId;
    OwnedOpen(w, base, op.lease, op.now);
    var s := w.sessions[sid];
    var k := IndexOf(s.deliveries, op.lease.deliveryId);
    HoldsIffOwned(start, p, w, op.lease, op.now);
    FinishedIffTold(start, base, p, w, op.lease, op.terminal);
    FinishedForm(w, op, k);
    SeedOf(start, p, w, sid);
    RecallOf(start, p, w, sid);
    RecallsSplit(start, p, sid, s);
    KnownIsSent(p, sid, s, k);
    RecallsId(p, sid, s, k);
    FinishedAnswer(start, p, op, s, k, Apply(w, op).1, Counter(w.roomEventSequences, s.seed.roomId),
                   Counter(w.roomMessageSequences, s.seed.roomId));
  }

  lemma FinishedAnswer(start: World, p: Past, op: Operation, s: Session, k: nat, r: Reply, events: nat, messages: nat)
    requires op.Finish? && op.lease.roomSessionId in start.sessions && s.seed == start.sessions[op.lease.roomSessionId].seed
    requires
      var settled := Terminals(p, op.lease.roomSessionId);
      !(op.lease.deliveryId in settled && settled[op.lease.deliveryId] == op.terminal)
    requires Holds(p, op.lease, op.now) && s.cursor == ReadUpTo(start, p, op.lease.roomSessionId)
    requires events == LastEvent(start, p, s.seed.roomId) && messages == LastMessage(start, p, s.seed.roomId)
    requires k < |s.deliveries| && k < |SortedEnvelopes(s.seed)| && s.deliveries[k].envelope.deliveryId == op.lease.deliveryId
    requires Sent(s.seed, SortedEnvelopes(s.seed)[k], op.lease.deliveryId)
    requires RecallsDelivery(p, op.lease.roomSessionId, SortedEnvelopes(s.seed)[k], s.deliveries[k])
    requires
      var spoke := Delivers(op.terminal) && op.output.Some?;
      r == Finished(FinishSession(s, k, op.terminal, op.checkpoint, if spoke then messages + 1 else 0,
                                  events + if spoke then 2 else 1, op.now).cursor)
    ensures Owed(start, p, op, r)
  {
    hide Terminals, Holds, ReadUpTo, LastEvent, LastMessage, SortedEnvelopes, Sent, Raised, AvailableFrom, ClosedAt, LastError, Delivers;
  }

  lemma FinishAsOwed(start: World, base: map<string, nat>, p: Past, w: World, op: Operation)
    requires WorldInv(w, base) && Remembers(start, p, w) && op.Finish?
    ensures Owed(start, p, op, Apply(w, op).1)
  {
    hide WorldInv, Remembers;
    FinishedIffTold(start, base, p, w, op.lease, op.terminal);
    HoldsIffOwned(start, p, w, op.lease, op.now);
    if AlreadyFinished(w, op.lease, op.terminal) {
      SeedOf(start, p, w, op.lease.roomSessionId);
    } else if Owned(w, op.lease, op.now) {
      FinishedAsOwed(start, base, p, w, op);
    }
    hide Owned, AlreadyFinished, Holds, Terminals, ReadUpTo, LastEvent, LastMessage;
  }

  lemma RetryAsOwed(start: World, base: map<string, nat>, p: Past, w: World, op: Operation)
    requires WorldInv(w, base) && Remembers(start, p, w) && op.Retry?
    ensures Owed(start, p, op, Apply(w, op).1)
  {
    hide WorldInv, Remembers;
    HoldsIffOwned(start, p, w, op.lease, op.now);
    if Owned(w, op.lease, op.now) {
      OwnedOpen(w, base, op.lease, op.now);
      if op.failedBy.Some? { AppendAnswer(start, p, w, op.lease, op.failedBy.value, op.now); }
    }
    hide Owned, Holds, Stored, DoAppend, CommitRetry, IndexOf;
  }

  /**
   * Every answer of every run follows from the calls before it and their answers:
   * who holds a session, whether it is free, the delivery handed out, and all a
   * worker is given to resume from.
   */
  lemma EveryAnswerFollows(seeds: seq<Seed>, ops: seq<Operation>, w: World, op: Operation)
    requires Reached(seeds, ops, w)
    ensures Owed(SeedWorld(seeds).value, Trace(SeedWorld(seeds).value, ops), op, Apply(w, op).1)
  {
    RunRemembers(seeds, ops);
    ReachedInv(seeds, ops, w);
    hide *;
    StartOf(seeds, ops, w);
    var start, base, p := SeedWorld(seeds).value, BaseCounters(seeds), Trace(SeedWorld(seeds).value, ops);
    match op
    case Claim(_, _, _, _, _) => ClaimAsOwed(start, base, p, w, op);
    case AppendEvent(_, _, _) => AppendAsOwed(start, p, w, op);
    case Finish(_, _, _, _, _) => FinishAsOwed(start, base, p, w, op);
    case Retry(_, _, _, _, _, _) => RetryAsOwed(start, base, p, w, op);
    case _ => LeasedAsOwed(start, p, w, op);
  }

  lemma StartOf(seeds: seq<Seed>, ops: seq<Operation>, w: World)
    requires Reached(seeds, ops, w)
    ensures SeedWorld(seeds).Some? && w == Run(SeedWorld(seeds).value, ops)
  {
  }
}
