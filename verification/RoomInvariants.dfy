/**
 * What every operation of the room protocol keeps, proved first for one session
 * and then for the whole store.
 */
module RoomInvariants {
  import opened Prelude
  import opened Sorting
  import opened RoomProtocol

  // ----- one session

  /** Settled deliveries come first; behind an open delivery everything is still pending. */
  ghost predicate Fifo(ds: seq<Delivery>) {
    forall i, j | 0 <= i < j < |ds| :: !Settled(ds[i].status) ==> ds[j].status == Pending
  }

  ghost predicate DistinctIds(ds: seq<Delivery>) {
    forall i, j | 0 <= i < j < |ds| :: ds[i].envelope.deliveryId != ds[j].envelope.deliveryId
  }

  ghost predicate Increasing(ds: seq<Delivery>) {
    forall i, j | 0 <= i < j < |ds| :: ds[i].envelope.deliverySequence < ds[j].envelope.deliverySequence
  }

  predicate HasClaim(ds: seq<Delivery>) {
    var k := FirstOpen(ds);
    k < |ds| && ds[k].status == InFlight
  }

  /** The lease names exactly the delivery in flight; with none in flight there is no lease. */
  ghost predicate LeaseMatches(s: Session) {
    if HasClaim(s.deliveries) then
      && s.leaseOwnerId.Some? && s.leaseExpiresAt.Some?
      && s.currentDeliveryId == Some(s.deliveries[FirstOpen(s.deliveries)].envelope.deliveryId)
    else
      s.leaseOwnerId.None? && s.leaseExpiresAt.None? && s.currentDeliveryId.None?
  }

  ghost predicate TerminalMatches(ds: seq<Delivery>) {
    forall i | 0 <= i < |ds| ::
      && (Settled(ds[i].status) <==> ds[i].terminal.Some?)
      && (ds[i].terminal.Some? ==> (ds[i].status == Completed <==> IsSuccess(ds[i].terminal.value)))
  }

  /** The delivery cursor stands on the last settled delivery, or where the seed put it. */
  ghost predicate CursorOnQueue(s: Session) {
    var k := FirstOpen(s.deliveries);
    s.cursor.deliverySequence ==
      if k == 0 then SeedCursor(s.seed).deliverySequence
      else s.deliveries[k - 1].envelope.deliverySequence
  }

  /** Each delivery is a seeded one with its attempt number raised. */
  ghost predicate FromSeed(s: Session) {
    var envelopes := SortedEnvelopes(s.seed);
    && |s.deliveries| == |envelopes|
    && forall i | 0 <= i < |envelopes| ::
         && envelopes[i].attempt <= s.deliveries[i].envelope.attempt
         && s.deliveries[i].envelope == envelopes[i].(attempt := s.deliveries[i].envelope.attempt)
  }

  /** Claims a delivery has consumed: its extra attempts, and the one that is in flight or settled it. */
  function EpochsOf(d: Delivery, seeded: Envelope): int {
    d.envelope.attempt - seeded.attempt + if d.status == Pending then 0 else 1
  }

  function Epochs(ds: seq<Delivery>, envelopes: seq<Envelope>): int
    requires |ds| == |envelopes|
  {
    if ds == [] then 0 else EpochsOf(ds[0], envelopes[0]) + Epochs(ds[1..], envelopes[1..])
  }

  ghost predicate RuntimeKeys(s: Session) {
    forall key | key in s.runtimeEvents ::
      && key.RuntimeEventId?
      && key.organizationId == s.seed.organizationId && key.roomSessionId == s.seed.roomSessionId
      && key.generation <= s.generation
      && key.providerEventId == s.runtimeEvents[key].event.eventId
  }

  ghost predicate QueueInv(ds: seq<Delivery>) {
    Fifo(ds) && DistinctIds(ds) && Increasing(ds) && TerminalMatches(ds)
  }

  /** Every claim is accounted for by a raised attempt or by the attempt now in flight or settled. */
  ghost predicate EpochsBalance(s: Session) {
    && |s.deliveries| == |SortedEnvelopes(s.seed)|
    && s.generation == s.seed.generation.GetOr(0) + Epochs(s.deliveries, SortedEnvelopes(s.seed))
  }

  ghost predicate SessionInv(s: Session) {
    && QueueInv(s.deliveries) && LeaseMatches(s) && CursorOnQueue(s)
    && FromSeed(s) && EpochsBalance(s) && RuntimeKeys(s)
    && (s.deliveries != [] ==> SeedCursor(s.seed).deliverySequence <= s.deliveries[0].envelope.deliverySequence)
  }

  lemma {:induction false} FirstOpenIs(ds: seq<Delivery>, k: nat)
    requires k <= |ds|
    requires forall i | 0 <= i < k :: Settled(ds[i].status)
    requires k < |ds| ==> !Settled(ds[k].status)
    ensures FirstOpen(ds) == k
  {
  }

  lemma {:induction false} IndexOfIs(ds: seq<Delivery>, k: nat)
    requires k < |ds| && DistinctIds(ds)
    ensures IndexOf(ds, ds[k].envelope.deliveryId) == k
  {
    var m := IndexOf(ds, ds[k].envelope.deliveryId);
    assert m <= k;
  }

  /** Replacing one delivery shifts the epoch total by exactly what it consumed. */
  lemma {:induction false} EpochsAfter(ds: seq<Delivery>, envelopes: seq<Envelope>, k: nat, d: Delivery)
    requires |ds| == |envelopes| && k < |ds|
    ensures Epochs(ds[k := d], envelopes)
         == Epochs(ds, envelopes) - EpochsOf(ds[k], envelopes[k]) + EpochsOf(d, envelopes[k])
  {
    if k == 0 {
      assert ds[0 := d][1..] == ds[1..];
    } else {
      assert ds[k := d][1..] == ds[1..][k - 1 := d];
      EpochsAfter(ds[1..], envelopes[1..], k - 1, d);
    }
  }

  /** Same delivery, later in its life: identity fixed, attempts not lowered, terminal fact consistent. */
  predicate Succeeds(d: Delivery, d': Delivery) {
    && d'.envelope == d.envelope.(attempt := d'.envelope.attempt)
    && d.envelope.attempt <= d'.envelope.attempt
    && (Settled(d'.status) <==> d'.terminal.Some?)
    && (d'.terminal.Some? ==> (d'.status == Completed <==> IsSuccess(d'.terminal.value)))
  }

  lemma ReplaceKeepsOrder(ds: seq<Delivery>, k: nat, d: Delivery)
    requires QueueInv(ds) && k == FirstOpen(ds) < |ds| && Succeeds(ds[k], d)
    ensures QueueInv(ds[k := d])
  {
    var ds' := ds[k := d];
    forall i, j | 0 <= i < j < |ds'|
      ensures !Settled(ds'[i].status) ==> ds'[j].status == Pending
      ensures ds'[i].envelope.deliverySequence < ds'[j].envelope.deliverySequence
      ensures ds'[i].envelope.deliveryId != ds'[j].envelope.deliveryId
    {
      assert ds[i].envelope.deliverySequence < ds[j].envelope.deliverySequence;
      assert ds[i].envelope.deliveryId != ds[j].envelope.deliveryId;
      if k < j { assert ds[j].status == Pending; }
    }
  }

  /** Moving the oldest open delivery on keeps the queue in order. */
  lemma ReplaceOpen(ds: seq<Delivery>, k: nat, d: Delivery)
    requires QueueInv(ds) && k == FirstOpen(ds) < |ds| && Succeeds(ds[k], d)
    ensures QueueInv(ds[k := d])
    ensures FirstOpen(ds[k := d]) == if Settled(d.status) then k + 1 else k
  {
    var ds' := ds[k := d];
    ReplaceKeepsOrder(ds, k, d);
    assert k + 1 < |ds| ==> ds[k + 1].status == Pending;
    FirstOpenIs(ds', if Settled(d.status) then k + 1 else k);
  }

  lemma ReplaceFromSeed(s: Session, s': Session, k: nat, d: Delivery)
    requires FromSeed(s) && EpochsBalance(s) && k < |s.deliveries| && Succeeds(s.deliveries[k], d)
    requires s'.seed == s.seed && s'.deliveries == s.deliveries[k := d]
    requires
      var seeded := SortedEnvelopes(s.seed)[k];
      s'.generation - s.generation == EpochsOf(d, seeded) - EpochsOf(s.deliveries[k], seeded)
    ensures FromSeed(s') && EpochsBalance(s')
  {
    EpochsAfter(s.deliveries, SortedEnvelopes(s.seed), k, d);
  }

  lemma ClaimKeepsSession(s: Session, k: nat, workerId: string, expiresAt: int)
    requires SessionInv(s) && k == FirstOpen(s.deliveries) < |s.deliveries|
    ensures SessionInv(ClaimSession(s, k, workerId, expiresAt))
    ensures FirstOpen(ClaimSession(s, k, workerId, expiresAt).deliveries) == k
  {
    var s' := ClaimSession(s, k, workerId, expiresAt);
    ReplaceOpen(s.deliveries, k, s'.deliveries[k]);
    ReplaceFromSeed(s, s', k, s'.deliveries[k]);
  }

  lemma FinishKeepsSession(s: Session, k: nat, terminal: Terminal, checkpoint: Option<Checkpoint>,
                           outputSequence: nat, terminalSequence: nat, now: int)
    requires SessionInv(s) && k == FirstOpen(s.deliveries) < |s.deliveries| && s.deliveries[k].status == InFlight
    ensures SessionInv(FinishSession(s, k, terminal, checkpoint, outputSequence, terminalSequence, now))
  {
    var s' := FinishSession(s, k, terminal, checkpoint, outputSequence, terminalSequence, now);
    ReplaceOpen(s.deliveries, k, s'.deliveries[k]);
    ReplaceFromSeed(s, s', k, s'.deliveries[k]);
  }

  lemma RetryKeepsSession(s: Session, k: nat, failure: Failure, checkpoint: Option<Checkpoint>, availableAt: int)
    requires SessionInv(s) && k == FirstOpen(s.deliveries) < |s.deliveries| && s.deliveries[k].status == InFlight
    ensures SessionInv(RetrySession(s, k, failure, checkpoint, availableAt))
  {
    var s' := RetrySession(s, k, failure, checkpoint, availableAt);
    ReplaceOpen(s.deliveries, k, s'.deliveries[k]);
    ReplaceFromSeed(s, s', k, s'.deliveries[k]);
  }

  // ----- the shared log

  /** The events of one room, in log order. */
  function RoomLog(events: seq<PublicEvent>, roomId: string): seq<PublicEvent> {
    if events == [] then []
    else
      var last := events[|events| - 1];
      RoomLog(events[..|events| - 1], roomId) + (if last.roomId == roomId then [last] else [])
  }

  /** The messages announced by the log, in log order. */
  function Published(events: seq<PublicEvent>): seq<Message> {
    if events == [] then []
    else
      var last := events[|events| - 1];
      Published(events[..|events| - 1]) + (if last.data.MessageCreated? then [last.data.message] else [])
  }

  /** Room events carry base+1, base+2, ... where base is the counter the room was seeded with. */
  ghost predicate Contiguous(w: World, base: map<string, nat>, roomId: string) {
    var log := RoomLog(w.publicEvents, roomId);
    && Counter(w.roomEventSequences, roomId) == Counter(base, roomId) + |log|
    && forall i | 0 <= i < |log| :: log[i].sequence == Counter(base, roomId) + 1 + i
  }

  ghost predicate OutboxMirrors(w: World) {
    && |w.outbox| == |w.publicEvents|
    && (forall i | 0 <= i < |w.outbox| ::
          && w.outbox[i].roomId == w.publicEvents[i].roomId
          && w.outbox[i].eventSequence == w.publicEvents[i].sequence)
    && (forall i, j | 0 <= i < j < |w.outbox| :: w.outbox[i].id.number < w.outbox[j].id.number)
    && (forall i | 0 <= i < |w.outbox| :: w.outbox[i].id.number <= w.idSequence)
  }

  ghost predicate LogInv(w: World, base: map<string, nat>) {
    && (forall roomId: string :: Contiguous(w, base, roomId))
    && OutboxMirrors(w)
    && Published(w.publicEvents) == w.messages
  }

  lemma AppendKeepsLog(w: World, base: map<string, nat>, roomId: string, data: EventData, now: int, eventId: EventId)
    requires forall r: string :: Contiguous(w, base, r)
    requires OutboxMirrors(w)
    ensures
      var w' := AppendPublic(w, roomId, data, now, eventId);
      && (forall r: string :: Contiguous(w', base, r))
      && OutboxMirrors(w')
      && Published(w'.publicEvents)
         == Published(w.publicEvents) + (if data.MessageCreated? then [data.message] else [])
  {
    var w' := AppendPublic(w, roomId, data, now, eventId);
    assert w'.publicEvents[..|w'.publicEvents| - 1] == w.publicEvents;
    forall r: string ensures Contiguous(w', base, r) {
      assert Contiguous(w, base, r);
    }
  }

  // ----- exactly once

  predicate SettlesAs(e: PublicEvent, sid: string, deliveryId: string, completed: bool) {
    && e.data.DeliverySettled? && e.data.roomSessionId == sid
    && e.data.deliveryId == deliveryId && e.data.completed == completed
  }

  /** A message event names its session and delivery in the id the store gives it. */
  predicate Speaks(e: PublicEvent, sid: string, deliveryId: string) {
    && e.data.MessageCreated? && e.eventId.ArtifactId?
    && e.eventId.roomSessionId == sid && e.eventId.deliveryId == deliveryId
  }

  function SettlementsOf(events: seq<PublicEvent>, sid: string, deliveryId: string, completed: bool): nat {
    if events == [] then 0 else
      SettlementsOf(events[..|events| - 1], sid, deliveryId, completed)
      + (if SettlesAs(events[|events| - 1], sid, deliveryId, completed) then 1 else 0)
  }

  function MessagesOf(events: seq<PublicEvent>, sid: string, deliveryId: string): nat {
    if events == [] then 0 else
      MessagesOf(events[..|events| - 1], sid, deliveryId)
      + (if Speaks(events[|events| - 1], sid, deliveryId) then 1 else 0)
  }

  lemma Tally(events: seq<PublicEvent>, e: PublicEvent, sid: string, deliveryId: string, completed: bool)
    ensures SettlementsOf(events + [e], sid, deliveryId, completed)
         == SettlementsOf(events, sid, deliveryId, completed) + if SettlesAs(e, sid, deliveryId, completed) then 1 else 0
    ensures MessagesOf(events + [e], sid, deliveryId)
         == MessagesOf(events, sid, deliveryId) + if Speaks(e, sid, deliveryId) then 1 else 0
  {
    assert (events + [e])[..|events|] == events;
  }

  /** One settlement event of the right kind for a settled delivery, none for an open one. */
  ghost predicate OnceFor(events: seq<PublicEvent>, sid: string, d: Delivery) {
    var id := d.envelope.deliveryId;
    && SettlementsOf(events, sid, id, true) == (if d.status == Completed then 1 else 0)
    && SettlementsOf(events, sid, id, false) == (if d.status == Failed then 1 else 0)
    && MessagesOf(events, sid, id) <= (if d.status == Completed then 1 else 0)
  }

  ghost predicate ExactlyOnce(w: World, sid: string)
    requires sid in w.sessions
  {
    forall i | 0 <= i < |w.sessions[sid].deliveries| ::
      OnceFor(w.publicEvents, sid, w.sessions[sid].deliveries[i])
  }

  // ----- the whole store

  /** No sequence a session remembers runs ahead of the room's counter. */
  ghost predicate SequencesWithin(s: Session, counter: nat) {
    && s.cursor.eventSequence <= counter
    && forall key | key in s.runtimeEvents :: s.runtimeEvents[key].durableSequence <= counter
  }

  ghost predicate SessionInStore(w: World, sid: string)
    requires sid in w.sessions
  {
    var s := w.sessions[sid];
    && s.seed.roomSessionId == sid && SessionInv(s)
    && SequencesWithin(s, Counter(w.roomEventSequences, s.seed.roomId))
  }

  ghost predicate WorldInv(w: World, base: map<string, nat>) {
    && LogInv(w, base)
    && (forall sid | sid in w.sessions :: SessionInStore(w, sid))
    && (forall sid | sid in w.sessions :: ExactlyOnce(w, sid))
  }

  lemma InStore(w: World, base: map<string, nat>, sid: string)
    requires WorldInv(w, base) && sid in w.sessions
    ensures SessionInStore(w, sid) && ExactlyOnce(w, sid)
  {
  }

  /** Ownership can only be of the session's oldest open delivery, and that one is in flight. */
  lemma OwnedIsCurrent(w: World, base: map<string, nat>, lease: Lease, now: int)
    requires WorldInv(w, base) && Owned(w, lease, now)
    ensures
      var ds := w.sessions[lease.roomSessionId].deliveries;
      var k := IndexOf(ds, lease.deliveryId);
      k == FirstOpen(ds) < |ds| && ds[k].status == InFlight && !AlreadyFinishedAt(ds, k)
  {
    var s := w.sessions[lease.roomSessionId];
    assert SessionInStore(w, lease.roomSessionId);
    assert HasClaim(s.deliveries);
    IndexOfIs(s.deliveries, FirstOpen(s.deliveries));
  }

  predicate AlreadyFinishedAt(ds: seq<Delivery>, k: nat)
    requires k < |ds|
  {
    Settled(ds[k].status)
  }

  ghost predicate OnlyAbout(events: seq<PublicEvent>, sid: string) {
    forall e | e in events ::
      && (e.data.DeliverySettled? ==> e.data.roomSessionId == sid)
      && (e.data.MessageCreated? && e.eventId.ArtifactId? ==> e.eventId.roomSessionId == sid)
  }

  /** Events about one session leave every other session's tallies alone. */
  lemma {:induction false} TallyElsewhere(events: seq<PublicEvent>, extra: seq<PublicEvent>, sid: string,
                                          other: string, deliveryId: string, completed: bool)
    requires OnlyAbout(extra, sid) && other != sid
    ensures SettlementsOf(events + extra, other, deliveryId, completed) == SettlementsOf(events, other, deliveryId, completed)
    ensures MessagesOf(events + extra, other, deliveryId) == MessagesOf(events, other, deliveryId)
  {
    if extra == [] {
      assert events + extra == events;
    } else {
      var front, last := extra[..|extra| - 1], extra[|extra| - 1];
      assert events + extra == (events + front) + [last];
      Tally(events + front, last, other, deliveryId, completed);
      TallyElsewhere(events, front, sid, other, deliveryId, completed);
    }
  }

  ghost predicate CountersGrow(w: World, w': World) {
    forall r: string :: Counter(w.roomEventSequences, r) <= Counter(w'.roomEventSequences, r)
  }

  lemma OtherSessionKeeps(w: World, w': World, extra: seq<PublicEvent>, sid: string, other: string)
    requires other in w.sessions && other in w'.sessions && w'.sessions[other] == w.sessions[other] && other != sid
    requires SessionInStore(w, other) && ExactlyOnce(w, other)
    requires w'.publicEvents == w.publicEvents + extra && OnlyAbout(extra, sid) && CountersGrow(w, w')
    ensures SessionInStore(w', other) && ExactlyOnce(w', other)
  {
    var s := w.sessions[other];
    assert Counter(w.roomEventSequences, s.seed.roomId) <= Counter(w'.roomEventSequences, s.seed.roomId);
    forall i | 0 <= i < |s.deliveries| ensures OnceFor(w'.publicEvents, other, s.deliveries[i]) {
      assert OnceFor(w.publicEvents, other, s.deliveries[i]);
      TallyElsewhere(w.publicEvents, extra, sid, other, s.deliveries[i].envelope.deliveryId, true);
      TallyElsewhere(w.publicEvents, extra, sid, other, s.deliveries[i].envelope.deliveryId, false);
    }
  }

  /** A step that writes one session and appends events about it keeps the store. */
  lemma LocalStepKeeps(w: World, w': World, base: map<string, nat>, extra: seq<PublicEvent>, sid: string)
    requires WorldInv(w, base) && sid in w.sessions
    requires sid in w'.sessions && w'.sessions == w.sessions[sid := w'.sessions[sid]]
    requires w'.publicEvents == w.publicEvents + extra && OnlyAbout(extra, sid) && CountersGrow(w, w')
    requires LogInv(w', base) && SessionInStore(w', sid) && ExactlyOnce(w', sid)
    ensures WorldInv(w', base)
  {
    forall r | r in w'.sessions ensures SessionInStore(w', r) && ExactlyOnce(w', r) {
      if r != sid { OtherSessionKeeps(w, w', extra, sid, r); }
    }
  }

  lemma SameLogKeeps(w: World, w': World, base: map<string, nat>)
    requires LogInv(w, base)
    requires w'.publicEvents == w.publicEvents && w'.roomEventSequences == w.roomEventSequences
    requires w'.outbox == w.outbox && w'.idSequence == w.idSequence && w'.messages == w.messages
    ensures LogInv(w', base) && CountersGrow(w, w')
  {
    forall r: string ensures Contiguous(w', base, r) { assert Contiguous(w, base, r); }
  }

  /** Deliveries keep their ids, and only open ones change status, staying open. */
  ghost predicate NothingSettled(ds: seq<Delivery>, ds': seq<Delivery>) {
    && |ds'| == |ds|
    && forall i | 0 <= i < |ds| ::
         && ds'[i].envelope.deliveryId == ds[i].envelope.deliveryId
         && (ds'[i].status == ds[i].status || (!Settled(ds'[i].status) && !Settled(ds[i].status)))
  }

  /** A change confined to one session, with nothing logged. */
  lemma QuietPutKeeps(w: World, base: map<string, nat>, sid: string, s': Session)
    requires WorldInv(w, base) && sid in w.sessions && SessionInv(s')
    requires s'.seed == w.sessions[sid].seed && s'.cursor == w.sessions[sid].cursor
    requires s'.runtimeEvents == w.sessions[sid].runtimeEvents
    requires NothingSettled(w.sessions[sid].deliveries, s'.deliveries)
    ensures WorldInv(Put(w, sid, s'), base)
  {
    var w' := Put(w, sid, s');
    var ds := w.sessions[sid].deliveries;
    assert SessionInStore(w, sid) && ExactlyOnce(w, sid);
    assert w'.publicEvents == w.publicEvents + [];
    SameLogKeeps(w, w', base);
    forall i | 0 <= i < |ds| ensures OnceFor(w'.publicEvents, sid, s'.deliveries[i]) {
      assert OnceFor(w.publicEvents, sid, ds[i]);
    }
    LocalStepKeeps(w, w', base, [], sid);
  }

  lemma GrantKeeps(w: World, base: map<string, nat>, sid: string, workerId: string, expiresAt: int)
    requires WorldInv(w, base) && sid in w.sessions
    requires FirstOpen(w.sessions[sid].deliveries) < |w.sessions[sid].deliveries|
    ensures WorldInv(Put(w, sid, GrantedSession(w, sid, workerId, expiresAt)), base)
  {
    hide *;
    InStore(w, base, sid);
    GrantIsQuiet(w, sid, workerId, expiresAt);
    QuietPutKeeps(w, base, sid, GrantedSession(w, sid, workerId, expiresAt));
  }

  /** A granted claim settles nothing and moves no cursor. */
  lemma GrantIsQuiet(w: World, sid: string, workerId: string, expiresAt: int)
    requires sid in w.sessions && SessionInv(w.sessions[sid])
    requires FirstOpen(w.sessions[sid].deliveries) < |w.sessions[sid].deliveries|
    ensures
      var (s, s') := (w.sessions[sid], GrantedSession(w, sid, workerId, expiresAt));
      && SessionInv(s') && NothingSettled(s.deliveries, s'.deliveries)
      && s'.seed == s.seed && s'.cursor == s.cursor && s'.runtimeEvents == s.runtimeEvents
  {
    var s := w.sessions[sid];
    ClaimKeepsSession(s, FirstOpen(s.deliveries), workerId, expiresAt);
    hide SessionInv;
  }

  lemma ClaimKeeps(w: World, base: map<string, nat>, sid: string, runtimeId: string, workerId: string, leaseDuration: nat, now: int)
    requires WorldInv(w, base)
    ensures WorldInv(DoClaim(w, sid, runtimeId, workerId, leaseDuration, now).0, base)
  {
    hide WorldInv;
    if CanClaim(w, sid, runtimeId, now) {
      GrantKeeps(w, base, sid, workerId, now + leaseDuration);
    }
  }

  /** A renewed lease, a bound runtime and a saved checkpoint leave the session invariant alone. */
  lemma QuietSession(s: Session, s': Session)
    requires SessionInv(s) && (s.leaseExpiresAt.Some? <==> s'.leaseExpiresAt.Some?)
    requires s' == s.(leaseExpiresAt := s'.leaseExpiresAt, runtimeSessionId := s'.runtimeSessionId, checkpoint := s'.checkpoint)
    ensures SessionInv(s') && NothingSettled(s.deliveries, s'.deliveries)
  {
  }

  lemma QuietWriteKeeps(w: World, base: map<string, nat>, lease: Lease, now: int, s': Session)
    requires WorldInv(w, base) && Owned(w, lease, now)
    requires
      var s := w.sessions[lease.roomSessionId];
      && (s.leaseExpiresAt.Some? <==> s'.leaseExpiresAt.Some?)
      && s' == s.(leaseExpiresAt := s'.leaseExpiresAt, runtimeSessionId := s'.runtimeSessionId, checkpoint := s'.checkpoint)
    ensures WorldInv(Put(w, lease.roomSessionId, s'), base)
  {
    hide WorldInv;
    InStore(w, base, lease.roomSessionId);
    hide SessionInv;
    QuietSession(w.sessions[lease.roomSessionId], s');
    QuietPutKeeps(w, base, lease.roomSessionId, s');
  }

  lemma RenewKeeps(w: World, base: map<string, nat>, lease: Lease, leaseDuration: nat, now: int)
    requires WorldInv(w, base)
    ensures WorldInv(DoHeartbeat(w, lease, leaseDuration, now).0, base)
  {
    hide WorldInv;
    if Owned(w, lease, now) {
      QuietWriteKeeps(w, base, lease, now, w.sessions[lease.roomSessionId].(leaseExpiresAt := Some(now + leaseDuration)));
    }
  }

  lemma BindKeeps(w: World, base: map<string, nat>, lease: Lease, handle: Handle, now: int)
    requires WorldInv(w, base)
    ensures WorldInv(DoBind(w, lease, handle, now).0, base)
  {
    hide WorldInv;
    if Owned(w, lease, now) {
      QuietWriteKeeps(w, base, lease, now,
        w.sessions[lease.roomSessionId].(runtimeSessionId := Some(handle.runtimeSessionId)));
    }
  }

  lemma PersistKeeps(w: World, base: map<string, nat>, lease: Lease, saved: Checkpoint, now: int)
    requires WorldInv(w, base)
    ensures WorldInv(DoPersistCheckpoint(w, lease, saved, now).0, base)
  {
    hide WorldInv;
    if Owned(w, lease, now) {
      QuietWriteKeeps(w, base, lease, now, w.sessions[lease.roomSessionId].(checkpoint := Some(saved)));
    }
  }

  lemma AppendGrows(w: World, roomId: string, data: EventData, now: int, eventId: EventId)
    ensures CountersGrow(w, AppendPublic(w, roomId, data, now, eventId))
  {
  }

  /** Logging one event about `sid` that settles nothing, and rewriting that session. */
  lemma LogAndPutKeeps(w: World, base: map<string, nat>, sid: string, s': Session,
                       data: EventData, now: int, eventId: EventId)
    requires WorldInv(w, base) && sid in w.sessions && SessionInv(s')
    requires !data.DeliverySettled? && !data.MessageCreated?
    requires s'.seed == w.sessions[sid].seed && NothingSettled(w.sessions[sid].deliveries, s'.deliveries)
    requires SequencesWithin(s', Counter(w.roomEventSequences, s'.seed.roomId) + 1)
    ensures WorldInv(Put(AppendPublic(w, w.sessions[sid].seed.roomId, data, now, eventId), sid, s'), base)
  {
    var s := w.sessions[sid];
    var w1 := AppendPublic(w, s.seed.roomId, data, now, eventId);
    var w' := Put(w1, sid, s');
    var e := w1.publicEvents[|w.publicEvents|];
    assert SessionInStore(w, sid) && ExactlyOnce(w, sid);
    AppendKeepsLog(w, base, s.seed.roomId, data, now, eventId);
    SameLogKeeps(w1, w', base);
    AppendGrows(w, s.seed.roomId, data, now, eventId);
    forall i | 0 <= i < |s'.deliveries| ensures OnceFor(w'.publicEvents, sid, s'.deliveries[i]) {
      assert OnceFor(w.publicEvents, sid, s.deliveries[i]);
      Tally(w.publicEvents, e, sid, s.deliveries[i].envelope.deliveryId, true);
      Tally(w.publicEvents, e, sid, s.deliveries[i].envelope.deliveryId, false);
    }
    LocalStepKeeps(w, w', base, [e], sid);
  }

  /** The session invariant reads neither checkpoints, drafts nor event sequences. */
  lemma SameQueueSession(s: Session, s': Session)
    requires SessionInv(s) && RuntimeKeys(s')
    requires s'.seed == s.seed && s'.deliveries == s.deliveries && s'.generation == s.generation
    requires s'.leaseOwnerId == s.leaseOwnerId && s'.leaseExpiresAt == s.leaseExpiresAt
    requires s'.currentDeliveryId == s.currentDeliveryId
    requires s'.cursor.deliverySequence == s.cursor.deliverySequence
    ensures SessionInv(s')
  {
  }

  lemma RecordKeepsSession(s: Session, key: EventId, event: RuntimeEvent, sequence: nat)
    requires SessionInv(s)
    requires key.RuntimeEventId? && key.organizationId == s.seed.organizationId
    requires key.roomSessionId == s.seed.roomSessionId && key.generation <= s.generation
    requires key.providerEventId == event.eventId
    requires SequencesWithin(s, sequence)
    ensures
      var s' := RecordEvent(s, key, event, sequence);
      && SessionInv(s') && s'.seed == s.seed && s'.deliveries == s.deliveries && s'.generation == s.generation
      && SequencesWithin(s', sequence)
  {
    var s' := RecordEvent(s, key, event, sequence);
    assert RuntimeKeys(s);
    assert forall other | other in s'.runtimeEvents ::
      other == key || (other in s.runtimeEvents && s'.runtimeEvents[other] == s.runtimeEvents[other]);
    SameQueueSession(s, s');
  }

  /** An owned event's key carries the session's own generation, and its sequence is beyond every one the session holds. */
  lemma RecordFacts(w: World, base: map<string, nat>, lease: Lease, event: RuntimeEvent, now: int, s: Session, key: EventId)
    requires WorldInv(w, base) && Owned(w, lease, now) && s == w.sessions[lease.roomSessionId]
    requires key == RuntimeKey(s, lease, event)
    ensures SessionInv(s) && SequencesWithin(s, Counter(w.roomEventSequences, s.seed.roomId) + 1)
    ensures key == RuntimeEventId(s.seed.organizationId, s.seed.roomSessionId, s.generation, event.eventId)
  {
    InStore(w, base, lease.roomSessionId);
    hide WorldInv, SessionInv;
  }

  lemma OwnedInStore(w: World, lease: Lease, now: int)
    requires Owned(w, lease, now)
    ensures lease.roomSessionId in w.sessions
  {
  }

  lemma NothingSettles(ds: seq<Delivery>)
    ensures NothingSettled(ds, ds)
  {
  }

  lemma RecordReady(w: World, base: map<string, nat>, lease: Lease, event: RuntimeEvent, now: int)
    requires WorldInv(w, base) && Owned(w, lease, now)
    ensures
      var s := w.sessions[lease.roomSessionId];
      var next := Counter(w.roomEventSequences, s.seed.roomId) + 1;
      var s' := RecordEvent(s, RuntimeKey(s, lease, event), event, next);
      && SessionInv(s') && s'.seed == s.seed
      && NothingSettled(s.deliveries, s'.deliveries) && SequencesWithin(s', next)
  {
    hide *;
    OwnedInStore(w, lease, now);
    var s := w.sessions[lease.roomSessionId];
    RecordFacts(w, base, lease, event, now, s, RuntimeKey(s, lease, event));
    NothingSettles(s.deliveries);
    RecordKeepsSession(s, RuntimeKey(s, lease, event), event, Counter(w.roomEventSequences, s.seed.roomId) + 1);
  }

  lemma AppendForm(w: World, lease: Lease, event: RuntimeEvent, now: int)
    ensures
      var (w', r) := DoAppend(w, lease, event, now);
      if !r.Appended? then w' == w
      else
        && Owned(w, lease, now) && lease.roomSessionId in w.sessions
        && var s := w.sessions[lease.roomSessionId];
        && var key := RuntimeKey(s, lease, event);
        w' == Put(AppendPublic(w, s.seed.roomId, RuntimeData(event), now, key), lease.roomSessionId,
                  RecordEvent(s, key, event, Counter(w.roomEventSequences, s.seed.roomId) + 1))
  {
    hide RecordEvent;
  }

  lemma AppendKeeps(w: World, base: map<string, nat>, lease: Lease, event: RuntimeEvent, now: int)
    requires WorldInv(w, base)
    ensures WorldInv(DoAppend(w, lease, event, now).0, base)
    ensures DoAppend(w, lease, event, now).1.Appended? || DoAppend(w, lease, event, now).0 == w
  {
    hide *;
    AppendForm(w, lease, event, now);
    if DoAppend(w, lease, event, now).1.Appended? {
      var s := w.sessions[lease.roomSessionId];
      var key := RuntimeKey(s, lease, event);
      RecordReady(w, base, lease, event, now);
      LogAndPutKeeps(w, base, lease.roomSessionId,
        RecordEvent(s, key, event, Counter(w.roomEventSequences, s.seed.roomId) + 1), RuntimeData(event), now, key);
    }
  }

  lemma RetryReady(w: World, base: map<string, nat>, sid: string, k: nat, failure: Failure,
                   checkpoint: Option<Checkpoint>, availableAt: int)
    requires WorldInv(w, base) && sid in w.sessions
    requires
      var ds := w.sessions[sid].deliveries;
      k == FirstOpen(ds) < |ds| && ds[k].status == InFlight
    ensures
      var s' := RetrySession(w.sessions[sid], k, failure, checkpoint, availableAt);
      && SessionInv(s') && s'.seed == w.sessions[sid].seed
      && NothingSettled(w.sessions[sid].deliveries, s'.deliveries)
      && SequencesWithin(s', Counter(w.roomEventSequences, s'.seed.roomId) + 1)
  {
    hide WorldInv;
    InStore(w, base, sid);
    hide SessionInv;
    RetryKeepsSession(w.sessions[sid], k, failure, checkpoint, availableAt);
  }

  lemma CommitRetryShape(w: World, lease: Lease, k: nat, failure: Failure,
                         checkpoint: Option<Checkpoint>, availableAt: int, now: int, data: EventData)
    requires lease.roomSessionId in w.sessions && k < |w.sessions[lease.roomSessionId].deliveries|
    requires
      var d := w.sessions[lease.roomSessionId].deliveries[k];
      data == DeliveryRetrying(d.envelope.deliveryId, lease.generation, d.envelope.attempt + 1, failure)
    ensures
      var s := w.sessions[lease.roomSessionId];
      CommitRetry(w, lease, k, failure, checkpoint, availableAt, now)
        == Put(AppendPublic(w, s.seed.roomId, data, now, ArtifactOf(s, lease, RetryArtifact)), lease.roomSessionId,
               RetrySession(s, k, failure, checkpoint, availableAt))
  {
  }

  lemma CommitRetryKeeps(w: World, base: map<string, nat>, lease: Lease, k: nat, failure: Failure,
                         checkpoint: Option<Checkpoint>, availableAt: int, now: int)
    requires WorldInv(w, base) && lease.roomSessionId in w.sessions
    requires
      var ds := w.sessions[lease.roomSessionId].deliveries;
      k == FirstOpen(ds) < |ds| && ds[k].status == InFlight
    ensures WorldInv(CommitRetry(w, lease, k, failure, checkpoint, availableAt, now), base)
  {
    hide *;
    var sid := lease.roomSessionId;
    var s := w.sessions[sid];
    var d := s.deliveries[k];
    var data := DeliveryRetrying(d.envelope.deliveryId, lease.generation, d.envelope.attempt + 1, failure);
    RetryReady(w, base, sid, k, failure, checkpoint, availableAt);
    CommitRetryShape(w, lease, k, failure, checkpoint, availableAt, now, data);
    LogAndPutKeeps(w, base, sid, RetrySession(s, k, failure, checkpoint, availableAt), data, now, ArtifactOf(s, lease, RetryArtifact));
  }

  /** Storing the failed runtime event leaves the queue, and hence the delivery to retry, in place. */
  lemma AppendKeepsQueue(w: World, lease: Lease, event: RuntimeEvent, now: int)
    requires Owned(w, lease, now)
    ensures
      var w1 := DoAppend(w, lease, event, now).0;
      && lease.roomSessionId in w1.sessions
      && w1.sessions[lease.roomSessionId].deliveries == w.sessions[lease.roomSessionId].deliveries
      && Owned(w1, lease, now)
  {
  }

  lemma RetryKeeps(w: World, base: map<string, nat>, lease: Lease, failure: Failure, failedBy: Option<RuntimeEvent>,
                   checkpoint: Option<Checkpoint>, availableAt: int, now: int)
    requires WorldInv(w, base)
    ensures WorldInv(DoRetry(w, lease, failure, failedBy, checkpoint, availableAt, now).0, base)
  {
    hide WorldInv;
    if Owned(w, lease, now) {
      OwnedIsCurrent(w, base, lease, now);
      var k := IndexOf(w.sessions[lease.roomSessionId].deliveries, lease.deliveryId);
      if failedBy.Some? {
        AppendKeeps(w, base, lease, failedBy.value, now);
        AppendKeepsQueue(w, lease, failedBy.value, now);
        CommitRetryKeeps(DoAppend(w, lease, failedBy.value, now).0, base, lease, k, failure, checkpoint, availableAt, now);
      } else {
        CommitRetryKeeps(w, base, lease, k, failure, checkpoint, availableAt, now);
      }
    }
  }

  /** What a finish may log before the settlement: nothing, or the message of that very delivery. */
  ghost predicate SaidBy(said: seq<PublicEvent>, s: Session, lease: Lease, terminal: Terminal) {
    && |said| <= 1
    && (forall e | e in said ::
          e.data.MessageCreated? && e.eventId == ArtifactOf(s, lease, MessageArtifact) && IsSuccess(terminal))
  }

  lemma FinishTally(events: seq<PublicEvent>, said: seq<PublicEvent>, settled: PublicEvent, s: Session, lease: Lease,
                    terminal: Terminal, d: Delivery, d': Delivery)
    requires SaidBy(said, s, lease, terminal) && OnceFor(events, lease.roomSessionId, d)
    requires settled.data.DeliverySettled? && settled.data.roomSessionId == lease.roomSessionId
    requires settled.data.deliveryId == lease.deliveryId && settled.data.completed == IsSuccess(terminal)
    requires d'.envelope.deliveryId == d.envelope.deliveryId
    requires if d.envelope.deliveryId == lease.deliveryId
             then d.status == InFlight && d'.status == (if IsSuccess(terminal) then Completed else Failed)
             else d'.status == d.status
    ensures OnceFor(events + (said + [settled]), lease.roomSessionId, d')
  {
    var sid, id := lease.roomSessionId, d.envelope.deliveryId;
    if said == [] {
      assert events + (said + [settled]) == events + [settled];
      Tally(events, settled, sid, id, true);
      Tally(events, settled, sid, id, false);
    } else {
      var e := said[0];
      assert e in said && said == [e];
      assert events + (said + [settled]) == (events + [e]) + [settled];
      Tally(events, e, sid, id, true);
      Tally(events, e, sid, id, false);
      Tally(events + [e], settled, sid, id, true);
      Tally(events + [e], settled, sid, id, false);
    }
  }

  lemma FinishReady(w: World, base: map<string, nat>, lease: Lease, now: int, s': Session, k: nat, terminal: Terminal,
                    checkpoint: Option<Checkpoint>, outputSequence: nat, terminalSequence: nat)
    requires WorldInv(w, base) && Owned(w, lease, now)
    requires k == IndexOf(w.sessions[lease.roomSessionId].deliveries, lease.deliveryId)
    requires k < |w.sessions[lease.roomSessionId].deliveries|
    requires s' == FinishSession(w.sessions[lease.roomSessionId], k, terminal, checkpoint, outputSequence, terminalSequence, now)
    requires Counter(w.roomEventSequences, s'.seed.roomId) <= terminalSequence
    ensures SessionInv(s') && SequencesWithin(s', terminalSequence)
  {
    InStore(w, base, lease.roomSessionId);
    OwnedIsCurrent(w, base, lease, now);
    FinishKeepsSession(w.sessions[lease.roomSessionId], k, terminal, checkpoint, outputSequence, terminalSequence, now);
  }

  lemma FinishOnce(w: World, base: map<string, nat>, lease: Lease, now: int, s': Session, k: nat, terminal: Terminal,
                   said: seq<PublicEvent>, settled: PublicEvent)
    requires WorldInv(w, base) && Owned(w, lease, now)
    requires k == IndexOf(w.sessions[lease.roomSessionId].deliveries, lease.deliveryId)
    requires k < |w.sessions[lease.roomSessionId].deliveries|
    requires SaidBy(said, w.sessions[lease.roomSessionId], lease, terminal)
    requires settled.data.DeliverySettled? && settled.data.roomSessionId == lease.roomSessionId
    requires settled.data.deliveryId == lease.deliveryId && settled.data.completed == IsSuccess(terminal)
    requires
      var ds := w.sessions[lease.roomSessionId].deliveries;
      && |s'.deliveries| == |ds| && s'.deliveries[k].envelope == ds[k].envelope
      && s'.deliveries[k].status == (if IsSuccess(terminal) then Completed else Failed)
      && forall i | 0 <= i < |ds| && i != k :: s'.deliveries[i] == ds[i]
    ensures forall i | 0 <= i < |s'.deliveries| ::
      OnceFor(w.publicEvents + (said + [settled]), lease.roomSessionId, s'.deliveries[i])
  {
    var s := w.sessions[lease.roomSessionId];
    InStore(w, base, lease.roomSessionId);
    OwnedIsCurrent(w, base, lease, now);
    assert DistinctIds(s.deliveries);
    forall i | 0 <= i < |s.deliveries|
      ensures OnceFor(w.publicEvents + (said + [settled]), lease.roomSessionId, s'.deliveries[i])
    {
      assert OnceFor(w.publicEvents, lease.roomSessionId, s.deliveries[i]);
      FinishTally(w.publicEvents, said, settled, s, lease, terminal, s.deliveries[i], s'.deliveries[i]);
    }
  }

  /** The log and its counters once one more event follows a longer log and a session is rewritten. */
  lemma AppendThenPut(w: World, w1: World, base: map<string, nat>, sid: string, s': Session,
                      roomId: string, data: EventData, now: int, eventId: EventId)
    requires LogInv(w1, base) && CountersGrow(w, w1) && !data.MessageCreated?
    ensures
      var w2 := AppendPublic(w1, roomId, data, now, eventId);
      && LogInv(Put(w2, sid, s'), base) && CountersGrow(w, Put(w2, sid, s'))
      && Counter(w.roomEventSequences, roomId) <= w2.roomEventSequences[roomId]
  {
    var w2 := AppendPublic(w1, roomId, data, now, eventId);
    AppendKeepsLog(w1, base, roomId, data, now, eventId);
    SameLogKeeps(w2, Put(w2, sid, s'), base);
    assert Counter(w.roomEventSequences, roomId) <= Counter(w1.roomEventSequences, roomId);
    forall r: string ensures Counter(w.roomEventSequences, r) <= Counter(Put(w2, sid, s').roomEventSequences, r) {
      assert Counter(w.roomEventSequences, r) <= Counter(w1.roomEventSequences, r);
    }
  }

  /** What a settled session changes in its queue, and where the log and the counter then stand. */
  lemma SettledQueue(w: World, w1: World, lease: Lease, now: int, said: seq<PublicEvent>, settled: PublicEvent,
                     terminal: Terminal, checkpoint: Option<Checkpoint>, outputSequence: nat, w2: World, s': Session, k: nat)
    requires lease.roomSessionId in w.sessions && CountersGrow(w, w1) && w1.publicEvents == w.publicEvents + said
    requires
      var s := w.sessions[lease.roomSessionId];
      && k < |s.deliveries|
      && w2 == AppendPublic(w1, s.seed.roomId, settled.data, now, settled.eventId)
      && settled == w2.publicEvents[|w1.publicEvents|]
      && s' == FinishSession(s, k, terminal, checkpoint, outputSequence, w2.roomEventSequences[s.seed.roomId], now)
    ensures
      var s := w.sessions[lease.roomSessionId];
      && s'.seed == s.seed && |s'.deliveries| == |s.deliveries| && s'.deliveries[k].envelope == s.deliveries[k].envelope
      && s'.deliveries[k].status == (if IsSuccess(terminal) then Completed else Failed)
      && (forall i | 0 <= i < |s.deliveries| && i != k :: s'.deliveries[i] == s.deliveries[i])
      && s.seed.roomId in w2.roomEventSequences
      && Counter(w.roomEventSequences, s.seed.roomId) <= w2.roomEventSequences[s.seed.roomId]
      && w2.publicEvents == w.publicEvents + (said + [settled])
  {
    assert Counter(w.roomEventSequences, w.sessions[lease.roomSessionId].seed.roomId)
        <= Counter(w1.roomEventSequences, w.sessions[lease.roomSessionId].seed.roomId);
  }

  lemma SettledStored(w2: World, sid: string, s': Session, log: seq<PublicEvent>, sequence: nat, s: Session)
    requires SessionInv(s') && s'.seed == s.seed && s.seed.roomSessionId == sid && w2.publicEvents == log
    requires s.seed.roomId in w2.roomEventSequences && sequence == w2.roomEventSequences[s.seed.roomId]
    requires SequencesWithin(s', sequence)
    requires forall i | 0 <= i < |s'.deliveries| :: OnceFor(log, sid, s'.deliveries[i])
    ensures SessionInStore(Put(w2, sid, s'), sid) && ExactlyOnce(Put(w2, sid, s'), sid)
  {
    hide SessionInv, OnceFor;
  }

  lemma SettleSession(w: World, w1: World, base: map<string, nat>, lease: Lease, terminal: Terminal, said: seq<PublicEvent>,
                      settled: PublicEvent, checkpoint: Option<Checkpoint>, outputSequence: nat, now: int,
                      w2: World, s': Session)
    requires WorldInv(w, base) && Owned(w, lease, now) && CountersGrow(w, w1)
    requires w1.publicEvents == w.publicEvents + said && SaidBy(said, w.sessions[lease.roomSessionId], lease, terminal)
    requires
      var s := w.sessions[lease.roomSessionId];
      var k := IndexOf(s.deliveries, lease.deliveryId);
      && k < |s.deliveries|
      && w2 == AppendPublic(w1, s.seed.roomId, settled.data, now, settled.eventId)
      && settled.data.DeliverySettled? && settled.data.roomSessionId == lease.roomSessionId
      && settled.data.deliveryId == lease.deliveryId && settled.data.completed == IsSuccess(terminal)
      && settled == w2.publicEvents[|w1.publicEvents|]
      && s' == FinishSession(s, k, terminal, checkpoint, outputSequence, w2.roomEventSequences[s.seed.roomId], now)
    ensures
      var w' := Put(w2, lease.roomSessionId, s');
      SessionInStore(w', lease.roomSessionId) && ExactlyOnce(w', lease.roomSessionId)
  {
    var sid := lease.roomSessionId;
    var s := w.sessions[sid];
    var k := IndexOf(s.deliveries, lease.deliveryId);
    SettledQueue(w, w1, lease, now, said, settled, terminal, checkpoint, outputSequence, w2, s', k);
    hide *;
    InStore(w, base, sid);
    FinishReady(w, base, lease, now, s', k, terminal, checkpoint, outputSequence, w2.roomEventSequences[s.seed.roomId]);
    FinishOnce(w, base, lease, now, s', k, terminal, said, settled);
    SettledStored(w2, sid, s', w.publicEvents + (said + [settled]), w2.roomEventSequences[s.seed.roomId], s);
  }

  /** Settling a delivery after `said` has been logged for it. */
  /** The settlement event a finish logs, and the log after it. */
  lemma SettledFacts(w: World, w1: World, lease: Lease, terminal: Terminal, said: seq<PublicEvent>,
                     outputId: Option<GeneratedId>, now: int, w2: World, s: Session) returns (settled: PublicEvent)
    requires s.seed.roomSessionId == lease.roomSessionId && SaidBy(said, s, lease, terminal)
    requires w1.publicEvents == w.publicEvents + said
    requires w2 == AppendPublic(w1, s.seed.roomId,
      DeliverySettled(IsSuccess(terminal), lease.deliveryId, s.seed.roomSessionId, terminal, outputId),
      now, ArtifactOf(s, lease, TerminalArtifact))
    ensures settled.data.DeliverySettled? && settled.data.roomSessionId == lease.roomSessionId
    ensures settled.data.deliveryId == lease.deliveryId && settled.data.completed == IsSuccess(terminal)
    ensures w2 == AppendPublic(w1, s.seed.roomId, settled.data, now, settled.eventId) && w2.sessions == w1.sessions
    ensures |w1.publicEvents| < |w2.publicEvents| && settled == w2.publicEvents[|w1.publicEvents|]
    ensures w2.publicEvents == w.publicEvents + (said + [settled]) && OnlyAbout(said + [settled], lease.roomSessionId)
    ensures s.seed.roomId in w2.roomEventSequences
  {
    settled := w2.publicEvents[|w1.publicEvents|];
  }

  lemma NamesItself(w: World, base: map<string, nat>, sid: string)
    requires WorldInv(w, base) && sid in w.sessions
    ensures w.sessions[sid].seed.roomSessionId == sid
  {
    assert SessionInStore(w, sid);
  }

  lemma PutIs(w: World, sid: string, s: Session)
    ensures Put(w, sid, s).sessions == w.sessions[sid := s] && Put(w, sid, s).publicEvents == w.publicEvents
  {
  }

  lemma SettleKeeps(w: World, w1: World, base: map<string, nat>, lease: Lease, terminal: Terminal, said: seq<PublicEvent>,
                    outputId: Option<GeneratedId>, checkpoint: Option<Checkpoint>, outputSequence: nat, now: int,
                    w2: World, s': Session)
    requires WorldInv(w, base) && Owned(w, lease, now) && LogInv(w1, base) && CountersGrow(w, w1)
    requires w1.sessions == w.sessions && w1.publicEvents == w.publicEvents + said
    requires SaidBy(said, w.sessions[lease.roomSessionId], lease, terminal)
    requires
      var s := w.sessions[lease.roomSessionId];
      var k := IndexOf(s.deliveries, lease.deliveryId);
      && k < |s.deliveries|
      && w2 == AppendPublic(w1, s.seed.roomId,
           DeliverySettled(IsSuccess(terminal), lease.deliveryId, s.seed.roomSessionId, terminal, outputId),
           now, ArtifactOf(s, lease, TerminalArtifact))
      && s' == FinishSession(s, k, terminal, checkpoint, outputSequence, w2.roomEventSequences[s.seed.roomId], now)
    ensures WorldInv(Put(w2, lease.roomSessionId, s'), base)
  {
    hide *;
    OwnedInStore(w, lease, now);
    var sid := lease.roomSessionId;
    var s := w.sessions[sid];
    NamesItself(w, base, sid);
    var settled := SettledFacts(w, w1, lease, terminal, said, outputId, now, w2, s);
    SettleSession(w, w1, base, lease, terminal, said, settled, checkpoint, outputSequence, now, w2, s');
    AppendThenPut(w, w1, base, sid, s', s.seed.roomId, settled.data, now, settled.eventId);
    PutIs(w2, sid, s');
    LocalStepKeeps(w, Put(w2, sid, s'), base, said + [settled], sid);
  }

  lemma PublishKeepsLog(w: World, base: map<string, nat>, s: Session, lease: Lease, output: Output, now: int)
    requires LogInv(w, base)
    ensures
      var w1 := PublishOutput(w, s, lease, output, now);
      LogInv(w1, base) && CountersGrow(w, w1) && w1.sessions == w.sessions
  {
    var m := AgentMessage(w, s, output, now);
    var spoken := AppendMessage(w, m);
    forall r: string ensures Contiguous(spoken, base, r) { assert Contiguous(w, base, r); }
    AppendKeepsLog(spoken, base, s.seed.roomId, MessageCreated(m), now, ArtifactOf(s, lease, MessageArtifact));
  }

  /** A finish with the message and the log states it goes through named. */
  lemma FinishForm(w: World, lease: Lease, terminal: Terminal, output: Option<Output>, checkpoint: Option<Checkpoint>, now: int,
                   s: Session, k: nat, m: Option<Message>, w1: World, w2: World)
    requires lease.roomSessionId in w.sessions && s == w.sessions[lease.roomSessionId] && Owned(w, lease, now)
    requires k == IndexOf(s.deliveries, lease.deliveryId) < |s.deliveries| && !AlreadyFinished(w, lease, terminal)
    requires m == if IsSuccess(terminal) && output.Some? then Some(AgentMessage(w, s, output.value, now)) else None
    requires w1 == if m.Some? then PublishOutput(w, s, lease, output.value, now) else w
    requires w2 == AppendPublic(w1, s.seed.roomId,
      DeliverySettled(IsSuccess(terminal), lease.deliveryId, s.seed.roomSessionId, terminal,
                      if m.Some? then Some(m.value.messageId) else None),
      now, ArtifactOf(s, lease, TerminalArtifact))
    requires s.seed.roomId in w2.roomEventSequences
    ensures
      var s' := FinishSession(s, k, terminal, checkpoint, if m.Some? then m.value.sequence else 0,
                              w2.roomEventSequences[s.seed.roomId], now);
      DoFinish(w, lease, terminal, output, checkpoint, now) == (Put(w2, lease.roomSessionId, s'), Finished(s'.cursor))
  {
    hide PublishOutput, AgentMessage, AppendPublic, FinishSession, Owned, IndexOf, AlreadyFinished, ArtifactOf, Put;
  }

  lemma FinishNothing(w: World, lease: Lease, terminal: Terminal, output: Option<Output>, checkpoint: Option<Checkpoint>, now: int)
    requires AlreadyFinished(w, lease, terminal) || !Owned(w, lease, now)
    ensures DoFinish(w, lease, terminal, output, checkpoint, now).0 == w
  {
  }

  lemma SaysNothing(w: World, s: Session, lease: Lease, terminal: Terminal)
    ensures SaidBy([], s, lease, terminal) && CountersGrow(w, w) && w.publicEvents == w.publicEvents + []
  {
  }

  lemma PublishSays(w: World, s: Session, lease: Lease, terminal: Terminal, output: Output, now: int)
    returns (said: seq<PublicEvent>)
    requires IsSuccess(terminal)
    ensures SaidBy(said, s, lease, terminal)
    ensures PublishOutput(w, s, lease, output, now).publicEvents == w.publicEvents + said
  {
    var m := AgentMessage(w, s, output, now);
    said := [PublicEvent(ArtifactOf(s, lease, MessageArtifact), s.seed.roomId,
                         Counter(w.roomEventSequences, s.seed.roomId) + 1, MessageCreated(m), now)];
  }

  lemma LogIn(w: World, base: map<string, nat>)
    requires WorldInv(w, base)
    ensures LogInv(w, base)
  {
  }

  lemma AppendCounts(w: World, roomId: string, data: EventData, now: int, eventId: EventId)
    ensures roomId in AppendPublic(w, roomId, data, now, eventId).roomEventSequences
  {
  }

  lemma FinishKeeps(w: World, base: map<string, nat>, lease: Lease, terminal: Terminal, output: Option<Output>,
                    checkpoint: Option<Checkpoint>, now: int)
    requires WorldInv(w, base)
    ensures WorldInv(DoFinish(w, lease, terminal, output, checkpoint, now).0, base)
  {
    hide *;
    if AlreadyFinished(w, lease, terminal) || !Owned(w, lease, now) {
      FinishNothing(w, lease, terminal, output, checkpoint, now);
    } else {
      OwnedInStore(w, lease, now);
      OwnedIsCurrent(w, base, lease, now);
      var s := w.sessions[lease.roomSessionId];
      var k := IndexOf(s.deliveries, lease.deliveryId);
      LogIn(w, base);
      SaysNothing(w, s, lease, terminal);
      var w1, said, m: Option<Message> := w, [], None;
      if IsSuccess(terminal) && output.Some? {
        w1 := PublishOutput(w, s, lease, output.value, now);
        m := Some(AgentMessage(w, s, output.value, now));
        said := PublishSays(w, s, lease, terminal, output.value, now);
        PublishKeepsLog(w, base, s, lease, output.value, now);
      }
      var outputId := if m.Some? then Some(m.value.messageId) else None;
      var data := DeliverySettled(IsSuccess(terminal), lease.deliveryId, s.seed.roomSessionId, terminal, outputId);
      var w2 := AppendPublic(w1, s.seed.roomId, data, now, ArtifactOf(s, lease, TerminalArtifact));
      AppendCounts(w1, s.seed.roomId, data, now, ArtifactOf(s, lease, TerminalArtifact));
      FinishForm(w, lease, terminal, output, checkpoint, now, s, k, m, w1, w2);
      var outputSequence := if m.Some? then m.value.sequence else 0;
      SettleKeeps(w, w1, base, lease, terminal, said, outputId, checkpoint, outputSequence, now, w2,
        FinishSession(s, k, terminal, checkpoint, outputSequence, w2.roomEventSequences[s.seed.roomId], now));
    }
  }
}
