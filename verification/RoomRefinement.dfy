/**
 * The durable store takes the same steps as the process-local one: whatever
 * sequence of calls both receive, the lease, the generation, the runtime binding
 * and every delivery's status, attempt, availability and error stay equal.
 *
 * Two differences are part of the relation. A durable retry moves the session's
 * event cursor and a process-local one does not, so the durable cursor may be
 * ahead. And a settled delivery answers a repeated finish by comparing more in
 * the durable store than in the process-local one.
 */
module RoomRefinement {
  import opened Prelude
  import opened RoomProtocol
  import opened RoomInvariants
  import opened RoomGuarantees
  import opened RoomSqlStore

  // ----- the relation

  ghost predicate RoomsAgree(rooms: map<string, RoomRow>, w: World) {
    forall r | r in rooms ::
      rooms[r] == RoomRow(Counter(w.roomMessageSequences, r), Counter(w.roomEventSequences, r))
  }

  predicate RowAgrees(row: SessionRow, s: Session, fallback: Option<string>) {
    && row.roomId == s.seed.roomId && row.generation == s.generation
    && row.leaseOwnerId == s.leaseOwnerId && row.leaseExpiresAt == s.leaseExpiresAt
    && row.currentDeliveryId == s.currentDeliveryId && row.checkpoint == s.checkpoint
    && row.runtimeSessionId == s.runtimeSessionId
    && RuntimeOf(row, fallback) == Some(s.seed.runtimeId)
    && (row.currentDeliveryId.Some? ==> row.runtimeId.Some?)
    && row.lastRoomSequence == s.cursor.messageSequence
    && s.cursor.eventSequence <= row.lastEventSequence
  }

  function RowFor(sid: string, d: Delivery): DeliveryRow {
    DeliveryRow(sid, d.envelope.deliverySequence, d.envelope.messageSequence, d.envelope.attempt,
                d.status, d.availableAt, d.lastError)
  }

  ghost predicate QueueAgrees(rows: map<string, DeliveryRow>, sid: string, ds: seq<Delivery>) {
    && (forall i | 0 <= i < |ds| ::
          ds[i].envelope.deliveryId in rows && rows[ds[i].envelope.deliveryId] == RowFor(sid, ds[i]))
    && (forall id | id in rows && rows[id].roomSessionId == sid :: IndexOf(ds, id) < |ds|)
  }

  predicate SettledIn(ds: seq<Delivery>, id: string) {
    IndexOf(ds, id) < |ds| && Settled(ds[IndexOf(ds, id)].status)
  }

  ghost predicate RuntimeRowsAgree(events: map<RowId, EventRow>, sid: string, s: Session) {
    && (forall g: nat, e: string ::
          RuntimeRowId(sid, g, e) in events <==> RuntimeEventId(s.seed.organizationId, sid, g, e) in s.runtimeEvents)
    && (forall g: nat, e: string | RuntimeRowId(sid, g, e) in events ::
          && events[RuntimeRowId(sid, g, e)].RuntimeRow?
          && events[RuntimeRowId(sid, g, e)].event
             == s.runtimeEvents[RuntimeEventId(s.seed.organizationId, sid, g, e)].event
          && (g == s.generation && s.currentDeliveryId.Some? ==>
                events[RuntimeRowId(sid, g, e)].deliveryId == s.currentDeliveryId.value))
  }

  /** One terminal row per settled delivery, and no retry row that the current claim could collide with. */
  ghost predicate OutcomeRowsAgree(events: map<RowId, EventRow>, sid: string, s: Session) {
    && (forall id: string :: TerminalRowId(sid, id) in events <==> SettledIn(s.deliveries, id))
    && (forall id: string, g: nat | RetryRowId(sid, id, g) in events ::
          g <= s.generation && (s.currentDeliveryId.Some? ==> g < s.generation))
  }

  ghost predicate SessionAgrees(db: Database, sid: string, s: Session, fallback: Option<string>) {
    && sid in db.sessions && s.seed.roomId in db.rooms
    && RowAgrees(db.sessions[sid], s, fallback)
    && QueueAgrees(db.deliveries, sid, s.deliveries)
    && RuntimeRowsAgree(db.events, sid, s) && OutcomeRowsAgree(db.events, sid, s)
  }

  ghost predicate Related(db: Database, w: World, fallback: Option<string>) {
    && db.sessions.Keys == w.sessions.Keys && RoomsAgree(db.rooms, w)
    && (forall key | key in db.events :: key.roomSessionId in db.sessions)
    && forall sid | sid in w.sessions :: SessionAgrees(db, sid, w.sessions[sid], fallback)
  }

  lemma InRelation(db: Database, w: World, fallback: Option<string>, sid: string)
    requires Related(db, w, fallback) && sid in w.sessions
    ensures SessionAgrees(db, sid, w.sessions[sid], fallback)
  {
  }

  /**
   * A worker is handed the same lease, delivery and checkpoint, and the same
   * runtime to go on with; its message cursor is the same, and its event cursor
   * in the durable store is at least that of the process-local one.
   */
  predicate SameGrant(grant: ClaimGrant, grant': RowGrant) {
    && grant'.lease == grant.lease && grant'.runtimeId == grant.runtimeId
    && grant'.runtimeSessionId == grant.runtimeSessionId && grant'.checkpoint == grant.checkpoint
    && grant'.deliverySequence == grant.delivery.deliverySequence && grant'.messageSequence == grant.delivery.messageSequence
    && grant'.attempt == grant.delivery.attempt
    && grant'.cursor.messageSequence == grant.cursor.messageSequence
    && grant'.cursor.deliverySequence == grant.delivery.deliverySequence - 1
    && grant.cursor.eventSequence <= grant'.cursor.eventSequence
  }

  /** The two stores tell their callers the same thing. */
  predicate SameReply(r: Reply, r': SqlReply) {
    match r
    case Refused => r'.NotClaimed?
    case Granted(grant) =>
      r'.ClaimedAs? && SameGrant(grant, r'.grant)
    case Renewed => r'.LeaseRenewed?
    case Bound => r'.RuntimeBound?
    case Appended(cursor) => r' == EventAppended(cursor.eventSequence)
    case Duplicate(_) => r'.EventDuplicate?
    case Persisted => r'.CheckpointSaved?
    case Finished(cursor) => r' == DeliveryFinished(cursor.messageSequence)
    case Retried => r'.DeliveryRetried?
    case Fenced => r'.LeaseFenced?
    case ReplayChanged => r'.EventChanged?
  }

  // ----- steps that touch one session

  /** The rows of every other session are as they were. */
  ghost predicate OnlyTouches(db: Database, db': Database, sid: string) {
    && sid in db.sessions && db'.sessions.Keys == db.sessions.Keys
    && (forall o | o in db.sessions && o != sid :: db'.sessions[o] == db.sessions[o])
    && db'.deliveries.Keys == db.deliveries.Keys
    && (forall id | id in db.deliveries ::
          db'.deliveries[id] == db.deliveries[id]
          || (db.deliveries[id].roomSessionId == sid && db'.deliveries[id].roomSessionId == sid))
    && db'.rooms.Keys == db.rooms.Keys
    && (forall key: RowId | key.roomSessionId != sid ::
          (key in db'.events <==> key in db.events) && (key in db.events ==> db'.events[key] == db.events[key]))
  }

  lemma OtherAgrees(db: Database, db': Database, sid: string, other: string, s: Session, fallback: Option<string>)
    requires OnlyTouches(db, db', sid) && other != sid && SessionAgrees(db, other, s, fallback)
    ensures SessionAgrees(db', other, s, fallback)
  {
    forall g: nat, e: string
      ensures RuntimeRowId(other, g, e) in db'.events <==> RuntimeRowId(other, g, e) in db.events
      ensures RuntimeRowId(other, g, e) in db.events ==>
        db'.events[RuntimeRowId(other, g, e)] == db.events[RuntimeRowId(other, g, e)]
    {
      assert RuntimeRowId(other, g, e).roomSessionId == other;
    }
    assert RuntimeRowsAgree(db'.events, other, s);
    assert forall id: string :: TerminalRowId(other, id).roomSessionId == other;
    assert forall id: string, g: nat :: RetryRowId(other, id, g).roomSessionId == other;
  }

  lemma EventsBelong(db: Database, db': Database, sid: string)
    requires OnlyTouches(db, db', sid) && forall key | key in db.events :: key.roomSessionId in db.sessions
    ensures forall key | key in db'.events :: key.roomSessionId in db'.sessions
  {
  }

  lemma StepRelates(db: Database, db': Database, w: World, w': World, fallback: Option<string>, sid: string)
    requires Related(db, w, fallback) && OnlyTouches(db, db', sid) && sid in w.sessions
    requires sid in w'.sessions && w'.sessions == w.sessions[sid := w'.sessions[sid]]
    requires RoomsAgree(db'.rooms, w') && SessionAgrees(db', sid, w'.sessions[sid], fallback)
    ensures Related(db', w', fallback)
  {
    hide SessionAgrees, RoomsAgree;
    EventsBelong(db, db', sid);
    forall o | o in w'.sessions ensures SessionAgrees(db', o, w'.sessions[o], fallback) {
      if o != sid { OtherAgrees(db, db', sid, o, w.sessions[o], fallback); }
    }
  }

  // ----- ownership and the head of the queue

  /** Both stores read the same answer off the fence. */
  lemma SameFence(db: Database, w: World, base: map<string, nat>, fallback: Option<string>, lease: Lease, now: int)
    requires Related(db, w, fallback) && WorldInv(w, base)
    ensures RowOwned(db, lease, now) <==> Owned(w, lease, now)
    ensures Owned(w, lease, now) ==>
      var ds := w.sessions[lease.roomSessionId].deliveries;
      var k := IndexOf(ds, lease.deliveryId);
      k == FirstOpen(ds) < |ds| && ds[k].status == InFlight && ds[k].envelope.deliveryId == lease.deliveryId
      && db.deliveries[lease.deliveryId] == RowFor(lease.roomSessionId, ds[k])
  {
    hide WorldInv;
    if lease.roomSessionId in w.sessions { InRelation(db, w, fallback, lease.roomSessionId); }
    if Owned(w, lease, now) { OwnedIsCurrent(w, base, lease, now); }
  }

  /** An open row is an open delivery at or behind the first one. */
  lemma OpenRowAt(db: Database, sid: string, ds: seq<Delivery>, id: string) returns (j: nat)
    requires QueueAgrees(db.deliveries, sid, ds) && OpenRow(db, sid, id)
    ensures FirstOpen(ds) <= j < |ds| && ds[j].envelope.deliveryId == id
    ensures id in db.deliveries && db.deliveries[id].deliverySequence == ds[j].envelope.deliverySequence
  {
    j := IndexOf(ds, id);
    hide IndexOf, FirstOpen;
    assert db.deliveries[id] == RowFor(sid, ds[j]);
  }

  lemma FirstIsOpen(db: Database, sid: string, ds: seq<Delivery>, k: nat)
    requires QueueAgrees(db.deliveries, sid, ds) && k == FirstOpen(ds) < |ds|
    ensures OpenRow(db, sid, ds[k].envelope.deliveryId)
    ensures db.deliveries[ds[k].envelope.deliveryId].deliverySequence == ds[k].envelope.deliverySequence
  {
    hide FirstOpen, IndexOf;
    assert db.deliveries[ds[k].envelope.deliveryId] == RowFor(sid, ds[k]);
  }

  lemma FirstIsOldest(db: Database, sid: string, ds: seq<Delivery>, k: nat)
    requires QueueAgrees(db.deliveries, sid, ds) && Increasing(ds) && k == FirstOpen(ds) < |ds|
    ensures IsOldestOpen(db, sid, ds[k].envelope.deliveryId)
  {
    hide QueueAgrees, FirstOpen, OpenRow;
    FirstIsOpen(db, sid, ds, k);
    forall id | OpenRow(db, sid, id)
      ensures id in db.deliveries && ds[k].envelope.deliverySequence <= db.deliveries[id].deliverySequence
    {
      var j := OpenRowAt(db, sid, ds, id);
    }
  }

  /** With sequences rising along the queue, the oldest open row is the first open delivery. */
  lemma OldestIsFirst(db: Database, sid: string, ds: seq<Delivery>)
    requires QueueAgrees(db.deliveries, sid, ds) && QueueInv(ds)
    ensures OldestOpen(db, sid) == if FirstOpen(ds) == |ds| then None else Some(ds[FirstOpen(ds)].envelope.deliveryId)
  {
    var k, oldest := FirstOpen(ds), OldestOpen(db, sid);
    assert Increasing(ds);
    hide QueueAgrees, OpenRow, FirstOpen, OldestOpen, QueueInv;
    if k < |ds| {
      FirstIsOpen(db, sid, ds, k);
      FirstIsOldest(db, sid, ds, k);
      var j := OpenRowAt(db, sid, ds, oldest.value);
      assert ds[j].envelope.deliverySequence <= ds[k].envelope.deliverySequence;
    } else if oldest.Some? {
      var j := OpenRowAt(db, sid, ds, oldest.value);
      assert false;
    }
  }

  lemma {:induction false} IndexUnmoved(ds: seq<Delivery>, k: nat, d: Delivery, id: string)
    requires k < |ds| && d.envelope.deliveryId == ds[k].envelope.deliveryId
    ensures IndexOf(ds[k := d], id) == IndexOf(ds, id)
  {
    if k == 0 {
      assert ds[0 := d][1..] == ds[1..];
    } else {
      assert ds[k := d][1..] == ds[1..][k - 1 := d];
      IndexUnmoved(ds[1..], k - 1, d, id);
    }
  }

  lemma ReplacedAgrees(rows: map<string, DeliveryRow>, sid: string, ds: seq<Delivery>, k: nat, d: Delivery)
    requires QueueAgrees(rows, sid, ds) && DistinctIds(ds) && k < |ds|
    requires d.envelope.deliveryId == ds[k].envelope.deliveryId
    ensures QueueAgrees(rows[d.envelope.deliveryId := RowFor(sid, d)], sid, ds[k := d])
  {
    var rows' := rows[d.envelope.deliveryId := RowFor(sid, d)];
    forall id | id in rows' && rows'[id].roomSessionId == sid ensures IndexOf(ds[k := d], id) < |ds| {
      IndexUnmoved(ds, k, d, id);
      assert rows[ds[k].envelope.deliveryId] == RowFor(sid, ds[k]);
    }
  }

  lemma ReplacedSettles(ds: seq<Delivery>, k: nat, d: Delivery, id: string)
    requires DistinctIds(ds) && k < |ds| && d.envelope.deliveryId == ds[k].envelope.deliveryId
    ensures SettledIn(ds[k := d], id)
       <==> if id == d.envelope.deliveryId then Settled(d.status) else SettledIn(ds, id)
  {
    IndexUnmoved(ds, k, d, id);
    if id == d.envelope.deliveryId { IndexOfIs(ds, k); }
  }

  // ----- claim

  lemma ClaimAgrees(db: Database, s: Session, sid: string, fallback: Option<string>, k: nat, workerId: string, expiresAt: int,
                    row': SessionRow, s': Session, rows': map<string, DeliveryRow>)
    requires SessionAgrees(db, sid, s, fallback) && SessionInv(s) && s.seed.roomSessionId == sid
    requires k == FirstOpen(s.deliveries) < |s.deliveries|
    requires s' == ClaimSession(s, k, workerId, expiresAt)
    requires row' == db.sessions[sid].(
      generation := db.sessions[sid].generation + 1, leaseOwnerId := Some(workerId), leaseExpiresAt := Some(expiresAt),
      runtimeId := Some(s.seed.runtimeId), currentDeliveryId := Some(s.deliveries[k].envelope.deliveryId))
    requires rows' == db.deliveries[s.deliveries[k].envelope.deliveryId := RowFor(sid, s'.deliveries[k])]
    ensures SessionAgrees(db.(sessions := db.sessions[sid := row'], deliveries := rows'), sid, s', fallback)
  {
    ReplacedAgrees(db.deliveries, sid, s.deliveries, k, s'.deliveries[k]);
    forall id: string ensures SettledIn(s'.deliveries, id) <==> SettledIn(s.deliveries, id) {
      ReplacedSettles(s.deliveries, k, s'.deliveries[k], id);
      IndexOfIs(s.deliveries, k);
    }
    assert forall g: nat, e: string | RuntimeRowId(sid, g, e) in db.events :: g <= s.generation by {
      forall g: nat, e: string | RuntimeRowId(sid, g, e) in db.events ensures g <= s.generation {
        assert RuntimeEventId(s.seed.organizationId, sid, g, e) in s.runtimeEvents;
      }
    }
    assert RuntimeRowsAgree(db.events, sid, s');
  }

  // ----- calls that rewrite one session row

  lemma SessionQuiet(db: Database, sid: string, s: Session, fallback: Option<string>, row': SessionRow, s': Session)
    requires SessionAgrees(db, sid, s, fallback)
    requires s' == s.(leaseExpiresAt := s'.leaseExpiresAt, runtimeSessionId := s'.runtimeSessionId, checkpoint := s'.checkpoint)
    requires row' == db.sessions[sid].(
      leaseExpiresAt := s'.leaseExpiresAt, runtimeSessionId := s'.runtimeSessionId, checkpoint := s'.checkpoint)
    ensures SessionAgrees(WriteSession(db, sid, row'), sid, s', fallback)
  {
    hide QueueAgrees;
  }

  lemma RoomsInRelation(db: Database, w: World, fallback: Option<string>)
    requires Related(db, w, fallback)
    ensures RoomsAgree(db.rooms, w) && db.sessions.Keys == w.sessions.Keys
    ensures forall key | key in db.events :: key.roomSessionId in db.sessions
  {
  }

  lemma WriteTouches(db: Database, sid: string, row': SessionRow)
    requires sid in db.sessions
    ensures OnlyTouches(db, WriteSession(db, sid, row'), sid) && WriteSession(db, sid, row').rooms == db.rooms
  {
  }

  lemma QuietTouches(db: Database, w: World, fallback: Option<string>, sid: string, row': SessionRow, s': Session)
    requires Related(db, w, fallback) && sid in w.sessions
    ensures OnlyTouches(db, WriteSession(db, sid, row'), sid)
    ensures
      var w' := Put(w, sid, s');
      sid in w'.sessions && w'.sessions == w.sessions[sid := w'.sessions[sid]] && w'.sessions[sid] == s'
    ensures RoomsAgree(WriteSession(db, sid, row').rooms, Put(w, sid, s'))
  {
    hide *;
    RoomsInRelation(db, w, fallback);
    WriteTouches(db, sid, row');
    PutRooms(db.rooms, w, sid, s');
  }

  lemma QuietAgrees(db: Database, w: World, base: map<string, nat>, fallback: Option<string>, lease: Lease, now: int,
                    row': SessionRow, s': Session)
    requires Related(db, w, fallback) && WorldInv(w, base) && Owned(w, lease, now)
    requires
      var s := w.sessions[lease.roomSessionId];
      s' == s.(leaseExpiresAt := s'.leaseExpiresAt, runtimeSessionId := s'.runtimeSessionId, checkpoint := s'.checkpoint)
    requires
      lease.roomSessionId in db.sessions &&
      row' == db.sessions[lease.roomSessionId].(
        leaseExpiresAt := s'.leaseExpiresAt, runtimeSessionId := s'.runtimeSessionId, checkpoint := s'.checkpoint)
    ensures Related(WriteSession(db, lease.roomSessionId, row'), Put(w, lease.roomSessionId, s'), fallback)
  {
    var sid := lease.roomSessionId;
    InRelation(db, w, fallback, sid);
    hide *;
    var db', w' := WriteSession(db, sid, row'), Put(w, sid, s');
    SessionQuiet(db, sid, w.sessions[sid], fallback, row', s');
    QuietTouches(db, w, fallback, sid, row', s');
    StepRelates(db, db', w, w', fallback, sid);
  }

  /** Both stores look at the same delivery and judge it alike. */
  lemma RowReady(row: SessionRow, s: Session, d: Delivery, sid: string, fallback: Option<string>, now: int)
    requires RowAgrees(row, s, fallback)
    requires d.status == Pending ==> s.currentDeliveryId.None?
    requires d.status == Pending || d.status == InFlight
    ensures RowClaimable(row, d.envelope.deliveryId, RowFor(sid, d), now) <==> Claimable(s, d, now)
  {
  }

  /** The head of the queue is pending with no lease out, or in flight. */
  lemma HeadOfQueue(w: World, base: map<string, nat>, sid: string, k: nat)
    requires WorldInv(w, base) && sid in w.sessions && k == FirstOpen(w.sessions[sid].deliveries)
    ensures QueueInv(w.sessions[sid].deliveries)
    ensures k < |w.sessions[sid].deliveries| ==>
      var d := w.sessions[sid].deliveries[k];
      (d.status == Pending && w.sessions[sid].currentDeliveryId.None?) || d.status == InFlight
  {
    InStore(w, base, sid);
    hide WorldInv, FirstOpen, QueueInv, FromSeed, EpochsBalance, RuntimeKeys, CursorOnQueue;
    assert LeaseMatches(w.sessions[sid]);
  }

  lemma RowAt(db: Database, sid: string, ds: seq<Delivery>, k: nat)
    requires QueueAgrees(db.deliveries, sid, ds) && k < |ds|
    ensures ds[k].envelope.deliveryId in db.deliveries && db.deliveries[ds[k].envelope.deliveryId] == RowFor(sid, ds[k])
  {
    hide RowFor, IndexOf;
  }

  lemma SameHead(db: Database, w: World, base: map<string, nat>, fallback: Option<string>, sid: string, now: int)
    requires Related(db, w, fallback) && WorldInv(w, base) && sid in w.sessions
    ensures sid in db.sessions && RowAgrees(db.sessions[sid], w.sessions[sid], fallback)
    ensures
      var s := w.sessions[sid];
      var k := FirstOpen(s.deliveries);
      && OldestOpen(db, sid) == (if k == |s.deliveries| then None else Some(s.deliveries[k].envelope.deliveryId))
      && (k < |s.deliveries| ==>
            && s.deliveries[k].envelope.deliveryId in db.deliveries
            && db.deliveries[s.deliveries[k].envelope.deliveryId] == RowFor(sid, s.deliveries[k])
            && (RowClaimable(db.sessions[sid], s.deliveries[k].envelope.deliveryId, RowFor(sid, s.deliveries[k]), now)
                <==> Claimable(s, s.deliveries[k], now)))
  {
    hide *;
    InRelation(db, w, fallback, sid);
    var s := w.sessions[sid];
    var k := FirstOpen(s.deliveries);
    HeadOfQueue(w, base, sid, k);
    AgreesOn(db, sid, s, fallback);
    OldestIsFirst(db, sid, s.deliveries);
    if k < |s.deliveries| {
      RowAt(db, sid, s.deliveries, k);
      RowReady(db.sessions[sid], s, s.deliveries[k], sid, fallback, now);
    }
  }

  lemma RowsTouch(db: Database, db': Database, sid: string, id: string, key: RowId)
    requires sid in db.sessions && sid in db'.sessions && db'.sessions == db.sessions[sid := db'.sessions[sid]]
    requires id in db.deliveries && id in db'.deliveries && db'.deliveries == db.deliveries[id := db'.deliveries[id]]
    requires db.deliveries[id].roomSessionId == sid && db'.deliveries[id].roomSessionId == sid
    requires db'.rooms.Keys == db.rooms.Keys
    requires key.roomSessionId == sid
    requires db'.events == db.events || (key in db'.events && db'.events == db.events[key := db'.events[key]])
    ensures OnlyTouches(db, db', sid)
  {
  }

  /** The rows a successful claim writes, read off both transactions. */
  lemma GrantRows(db: Database, w: World, base: map<string, nat>, fallback: Option<string>, sid: string, runtimeId: string,
                  workerId: string, leaseDuration: nat, now: int, db': Database, w': World, k: nat)
    requires Related(db, w, fallback) && WorldInv(w, base) && CanClaim(w, sid, runtimeId, now)
    requires db' == SqlClaim(db, fallback, sid, runtimeId, workerId, leaseDuration, now).0
    requires w' == DoClaim(w, sid, runtimeId, workerId, leaseDuration, now).0
    requires k == FirstOpen(w.sessions[sid].deliveries)
    ensures k < |w.sessions[sid].deliveries|
    ensures
      var s := w.sessions[sid];
      var id := s.deliveries[k].envelope.deliveryId;
      && id in db'.deliveries && db'.deliveries[id].roomSessionId == sid
      && sid in db.sessions && id in db.deliveries && db.deliveries[id].roomSessionId == sid
      && w' == Put(w, sid, ClaimSession(s, k, workerId, now + leaseDuration))
      && db' == db.(
           sessions := db.sessions[sid := db.sessions[sid].(
             generation := db.sessions[sid].generation + 1, leaseOwnerId := Some(workerId),
             leaseExpiresAt := Some(now + leaseDuration), runtimeId := Some(s.seed.runtimeId), currentDeliveryId := Some(id))],
           deliveries := db.deliveries[id := RowFor(sid, ClaimSession(s, k, workerId, now + leaseDuration).deliveries[k])])
  {
    hide WorldInv, Related;
    SameHead(db, w, base, fallback, sid, now);
  }

  lemma PutShape(rooms: map<string, RoomRow>, w: World, sid: string, s': Session)
    ensures
      var w' := Put(w, sid, s');
      sid in w'.sessions && w'.sessions[sid] == s' && w'.sessions == w.sessions[sid := w'.sessions[sid]]
    ensures RoomsAgree(rooms, w) ==> RoomsAgree(rooms, Put(w, sid, s'))
  {
  }

  lemma GrantRelates(db: Database, w: World, base: map<string, nat>, fallback: Option<string>, sid: string, runtimeId: string,
                     workerId: string, leaseDuration: nat, now: int)
    requires Related(db, w, fallback) && WorldInv(w, base) && sid in w.sessions && CanClaim(w, sid, runtimeId, now)
    ensures Related(SqlClaim(db, fallback, sid, runtimeId, workerId, leaseDuration, now).0,
                    DoClaim(w, sid, runtimeId, workerId, leaseDuration, now).0, fallback)
  {
    hide *;
    var s := w.sessions[sid];
    var k := FirstOpen(s.deliveries);
    InRelation(db, w, fallback, sid);
    InStore(w, base, sid);
    RoomsInRelation(db, w, fallback);
    var w', db' := DoClaim(w, sid, runtimeId, workerId, leaseDuration, now).0,
                   SqlClaim(db, fallback, sid, runtimeId, workerId, leaseDuration, now).0;
    GrantRows(db, w, base, fallback, sid, runtimeId, workerId, leaseDuration, now, db', w', k);
    PutShape(db.rooms, w, sid, ClaimSession(s, k, workerId, now + leaseDuration));
    RowsTouch(db, db', sid, s.deliveries[k].envelope.deliveryId, TerminalRowId(sid, ""));
    ClaimAgrees(db, s, sid, fallback, k, workerId, now + leaseDuration, db'.sessions[sid], w'.sessions[sid], db'.deliveries);
    StepRelates(db, db', w, w', fallback, sid);
  }

  lemma ClaimRefines(db: Database, w: World, base: map<string, nat>, fallback: Option<string>, sid: string, runtimeId: string,
                     workerId: string, leaseDuration: nat, now: int)
    requires Related(db, w, fallback) && WorldInv(w, base)
    ensures
      var (db', r') := SqlClaim(db, fallback, sid, runtimeId, workerId, leaseDuration, now);
      var (w', r) := DoClaim(w, sid, runtimeId, workerId, leaseDuration, now);
      Related(db', w', fallback) && SameReply(r, r')
  {
    hide WorldInv, Related, SameGrant, GrantFor, GrantRow;
    RoomsInRelation(db, w, fallback);
    if sid in w.sessions {
      SameHead(db, w, base, fallback, sid, now);
      if CanClaim(w, sid, runtimeId, now) {
        GrantRelates(db, w, base, fallback, sid, runtimeId, workerId, leaseDuration, now);
        GrantsAgree(db, w, base, fallback, sid, runtimeId, workerId, leaseDuration, now);
      }
    }
  }

  lemma GrantsAgree(db: Database, w: World, base: map<string, nat>, fallback: Option<string>, sid: string, runtimeId: string,
                    workerId: string, leaseDuration: nat, now: int)
    requires Related(db, w, fallback) && WorldInv(w, base) && sid in w.sessions && CanClaim(w, sid, runtimeId, now)
    ensures
      var r' := SqlClaim(db, fallback, sid, runtimeId, workerId, leaseDuration, now).1;
      var r := DoClaim(w, sid, runtimeId, workerId, leaseDuration, now).1;
      r.Granted? && r'.ClaimedAs? && SameGrant(r.grant, r'.grant)
  {
    hide *;
    var k := FirstOpen(w.sessions[sid].deliveries);
    SameHead(db, w, base, fallback, sid, now);
    NamedInStore(w, base, sid);
    HeadIsClaimable(w, sid, runtimeId, now);
    GrantedIs(w, sid, runtimeId, workerId, leaseDuration, now, k);
    RuntimeAgrees(db.sessions[sid], w.sessions[sid], fallback);
    SqlGrants(db, fallback, sid, runtimeId, workerId, leaseDuration, now, w.sessions[sid], k);
    var row, d := db.sessions[sid], RowFor(sid, w.sessions[sid].deliveries[k]);
    GrantsAlike(row, w.sessions[sid], sid, k, workerId, now + leaseDuration, fallback, runtimeId,
                RowDraft(db.events, sid, w.sessions[sid].deliveries[k].envelope.deliveryId, DraftGeneration(row, d)));
  }

  lemma RuntimeAgrees(row: SessionRow, s: Session, fallback: Option<string>)
    requires RowAgrees(row, s, fallback)
    ensures RuntimeOf(row, fallback) == Some(s.seed.runtimeId)
  {
  }

  lemma NamedInStore(w: World, base: map<string, nat>, sid: string)
    requires WorldInv(w, base) && sid in w.sessions
    ensures w.sessions[sid].seed.roomSessionId == sid
  {
    InStore(w, base, sid);
  }

  lemma HeadIsClaimable(w: World, sid: string, runtimeId: string, now: int)
    requires CanClaim(w, sid, runtimeId, now)
    ensures sid in w.sessions
    ensures
      var s := w.sessions[sid];
      var k := FirstOpen(s.deliveries);
      && k < |s.deliveries| && Claimable(s, s.deliveries[k], now) && !Settled(s.deliveries[k].status)
      && runtimeId == s.seed.runtimeId
  {
    hide Claimable;
  }

  lemma GrantedIs(w: World, sid: string, runtimeId: string, workerId: string, leaseDuration: nat, now: int, k: nat)
    requires CanClaim(w, sid, runtimeId, now) && sid in w.sessions
    requires k == FirstOpen(w.sessions[sid].deliveries) < |w.sessions[sid].deliveries|
    ensures
      var s := w.sessions[sid];
      DoClaim(w, sid, runtimeId, workerId, leaseDuration, now).1
        == Granted(GrantFor(s, ClaimSession(s, k, workerId, now + leaseDuration), k, workerId))
  {
    hide CanClaim, ClaimSession, GrantFor, FirstOpen;
  }

  lemma SqlGrants(db: Database, fallback: Option<string>, sid: string, runtimeId: string, workerId: string, leaseDuration: nat,
                  now: int, s: Session, k: nat)
    requires sid in db.sessions && k < |s.deliveries|
    requires RuntimeOf(db.sessions[sid], fallback) == Some(runtimeId)
    requires OldestOpen(db, sid) == Some(s.deliveries[k].envelope.deliveryId)
    requires s.deliveries[k].envelope.deliveryId in db.deliveries
    requires db.deliveries[s.deliveries[k].envelope.deliveryId] == RowFor(sid, s.deliveries[k])
    requires RowClaimable(db.sessions[sid], s.deliveries[k].envelope.deliveryId, RowFor(sid, s.deliveries[k]), now)
    ensures
      var row, d := db.sessions[sid], RowFor(sid, s.deliveries[k]);
      SqlClaim(db, fallback, sid, runtimeId, workerId, leaseDuration, now).1
        == ClaimedAs(GrantRow(sid, s.deliveries[k].envelope.deliveryId, row.(generation := row.generation + 1),
             d.(attempt := d.attempt + if d.status == InFlight then 1 else 0), workerId, runtimeId,
             RowDraft(db.events, sid, s.deliveries[k].envelope.deliveryId, DraftGeneration(row, d))))
  {
    hide RowDraft, OldestOpen, RowClaimable, RowFor, RuntimeOf;
  }

  lemma GrantsAlike(row: SessionRow, s: Session, sid: string, k: nat, workerId: string, expiresAt: int,
                    fallback: Option<string>, runtimeId: string, draft: Option<Output>)
    requires k < |s.deliveries| && RowAgrees(row, s, fallback) && s.seed.roomSessionId == sid && runtimeId == s.seed.runtimeId
    ensures
      var d := RowFor(sid, s.deliveries[k]);
      SameGrant(GrantFor(s, ClaimSession(s, k, workerId, expiresAt), k, workerId),
                GrantRow(sid, s.deliveries[k].envelope.deliveryId, row.(generation := row.generation + 1),
                         d.(attempt := d.attempt + if d.status == InFlight then 1 else 0), workerId, runtimeId, draft))
  {
  }

  // ----- append

  /** Logging one event raises the room's counters alike in both stores. */
  lemma LoggedRooms(rooms: map<string, RoomRow>, w: World, roomId: string, data: EventData, now: int, eventId: EventId)
    requires RoomsAgree(rooms, w) && roomId in rooms
    ensures
      var w1 := AppendPublic(w, roomId, data, now, eventId);
      && RoomsAgree(rooms[roomId := Raise(rooms[roomId], 0, 1)], w1)
      && roomId in w1.roomEventSequences
      && w1.roomEventSequences[roomId] == Raise(rooms[roomId], 0, 1).eventSequence
      && w1.sessions == w.sessions
  {
  }

  lemma RecordedAgrees(events: map<RowId, EventRow>, sid: string, s: Session, lease: Lease, event: RuntimeEvent, sequence: nat)
    requires RuntimeRowsAgree(events, sid, s) && OutcomeRowsAgree(events, sid, s)
    requires lease.roomSessionId == sid && lease.generation == s.generation && s.currentDeliveryId == Some(lease.deliveryId)
    ensures
      var events' := events[RuntimeRowId(sid, lease.generation, event.eventId) := RuntimeRow(lease.deliveryId, event, sequence)];
      var s' := RecordEvent(s, RuntimeKey(s, lease, event), event, sequence);
      RuntimeRowsAgree(events', sid, s') && OutcomeRowsAgree(events', sid, s')
  {
  }

  lemma StoreTouches(db: Database, lease: Lease, event: RuntimeEvent)
    requires lease.roomSessionId in db.sessions
    ensures OnlyTouches(db, StoreEvent(db, lease, event).0, lease.roomSessionId)
  {
  }

  /** What a new event writes, read off both stores. */
  lemma StoreRows(db: Database, w: World, fallback: Option<string>, lease: Lease, event: RuntimeEvent, now: int, s: Session)
    requires lease.roomSessionId in w.sessions && s == w.sessions[lease.roomSessionId]
    requires Owned(w, lease, now) && SessionAgrees(db, lease.roomSessionId, s, fallback) && RoomsAgree(db.rooms, w)
    requires RuntimeKey(s, lease, event) !in s.runtimeEvents
    ensures
      var (db', r') := StoreEvent(db, lease, event);
      var (w', r) := DoAppend(w, lease, event, now);
      && SameReply(r, r') && RoomsAgree(db'.rooms, w')
      && lease.roomSessionId in w'.sessions
      && w'.sessions == w.sessions[lease.roomSessionId := w'.sessions[lease.roomSessionId]]
      && SessionAgrees(db', lease.roomSessionId, w'.sessions[lease.roomSessionId], fallback)
  {
    hide QueueAgrees;
    LoggedRooms(db.rooms, w, s.seed.roomId, RuntimeData(event), now, RuntimeKey(s, lease, event));
    assert RuntimeRowId(lease.roomSessionId, lease.generation, event.eventId) !in db.events;
    RecordedAgrees(db.events, lease.roomSessionId, s, lease, event, Raise(db.rooms[s.seed.roomId], 0, 1).eventSequence);
    hide RoomsAgree, RuntimeRowsAgree, OutcomeRowsAgree;
  }

  lemma StoreNewRelates(db: Database, w: World, fallback: Option<string>, lease: Lease, event: RuntimeEvent, now: int)
    requires Related(db, w, fallback) && lease.roomSessionId in w.sessions && Owned(w, lease, now)
    requires lease.roomSessionId in db.sessions
    requires RuntimeKey(w.sessions[lease.roomSessionId], lease, event) !in w.sessions[lease.roomSessionId].runtimeEvents
    ensures Related(StoreEvent(db, lease, event).0, DoAppend(w, lease, event, now).0, fallback)
    ensures SameReply(DoAppend(w, lease, event, now).1, StoreEvent(db, lease, event).1)
  {
    hide *;
    var sid := lease.roomSessionId;
    var s := w.sessions[sid];
    InRelation(db, w, fallback, sid);
    RoomsInRelation(db, w, fallback);
    StoreRows(db, w, fallback, lease, event, now, s);
    var db', w' := StoreEvent(db, lease, event).0, DoAppend(w, lease, event, now).0;
    StoreTouches(db, lease, event);
    StepRelates(db, db', w, w', fallback, sid);
  }

  lemma StoreRelates(db: Database, w: World, base: map<string, nat>, fallback: Option<string>, lease: Lease,
                     event: RuntimeEvent, now: int)
    requires Related(db, w, fallback) && WorldInv(w, base) && Owned(w, lease, now)
    ensures Related(StoreEvent(db, lease, event).0, DoAppend(w, lease, event, now).0, fallback)
    ensures SameReply(DoAppend(w, lease, event, now).1, StoreEvent(db, lease, event).1)
  {
    hide WorldInv, Related;
    var s := w.sessions[lease.roomSessionId];
    InRelation(db, w, fallback, lease.roomSessionId);
    if RuntimeKey(s, lease, event) !in s.runtimeEvents {
      StoreNewRelates(db, w, fallback, lease, event, now);
    } else {
      hide QueueAgrees, OutcomeRowsAgree;
      assert RuntimeRowId(lease.roomSessionId, s.generation, event.eventId) in db.events;
    }
  }

  // ----- finish

  /** The delivery named by the lease has its terminal fact: both stores now only answer. */
  predicate AlreadySettled(w: World, lease: Lease) {
    lease.roomSessionId in w.sessions && SettledIn(w.sessions[lease.roomSessionId].deliveries, lease.deliveryId)
  }

  /** Publishing an output raises both counters of the room alike in both stores. */
  lemma PublishedRooms(rooms: map<string, RoomRow>, w: World, s: Session, lease: Lease, output: Output, now: int)
    requires RoomsAgree(rooms, w) && s.seed.roomId in rooms
    ensures
      var w1 := PublishOutput(w, s, lease, output, now);
      && RoomsAgree(rooms[s.seed.roomId := Raise(rooms[s.seed.roomId], 1, 1)], w1)
      && AgentMessage(w, s, output, now).sequence == Raise(rooms[s.seed.roomId], 1, 1).messageSequence
      && w1.sessions == w.sessions
  {
  }

  /** The queue and the event table after the current delivery is settled. */
  lemma SettledAgrees(db: Database, sid: string, s: Session, k: nat, lease: Lease, terminal: Terminal, commit: Commit,
                      sequence: nat, s': Session)
    requires QueueAgrees(db.deliveries, sid, s.deliveries) && DistinctIds(s.deliveries)
    requires RuntimeRowsAgree(db.events, sid, s) && OutcomeRowsAgree(db.events, sid, s)
    requires k < |s.deliveries| && s.deliveries[k].envelope.deliveryId == lease.deliveryId && lease.roomSessionId == sid
    requires s'.seed == s.seed && s'.runtimeEvents == s.runtimeEvents && s'.generation == s.generation && s'.currentDeliveryId.None?
    requires |s'.deliveries| == |s.deliveries| && s'.deliveries == s.deliveries[k := s'.deliveries[k]]
    requires s'.deliveries[k].envelope == s.deliveries[k].envelope && Settled(s'.deliveries[k].status)
    ensures
      var events' := db.events[TerminalRowId(sid, lease.deliveryId) := TerminalRow(lease.generation, commit, sequence)];
      && RuntimeRowsAgree(events', sid, s') && OutcomeRowsAgree(events', sid, s')
      && QueueAgrees(db.deliveries[lease.deliveryId := RowFor(sid, s'.deliveries[k])], sid, s'.deliveries)
  {
    ReplacedAgrees(db.deliveries, sid, s.deliveries, k, s'.deliveries[k]);
    forall id: string ensures SettledIn(s'.deliveries, id) <==> SettledIn(s.deliveries, id) || id == lease.deliveryId {
      ReplacedSettles(s.deliveries, k, s'.deliveries[k], id);
    }
  }

  /** The room's counters after a finish, with or without a published message. */
  function RoomAfterFinish(room: RoomRow, publishes: bool): RoomRow {
    Raise(room, if publishes then 1 else 0, if publishes then 2 else 1)
  }

  /** The session a finish leaves behind, with the sequences the room's counters supply. */
  function SettledSession(s: Session, k: nat, terminal: Terminal, output: Option<Output>, checkpoint: Option<Checkpoint>,
                          room: RoomRow, now: int): Session
    requires k < |s.deliveries|
  {
    FinishSession(s, k, terminal, checkpoint, if Effective(terminal, output).Some? then room.messageSequence else 0,
                  room.eventSequence, now)
  }

  lemma NotYetFinished(w: World, lease: Lease, terminal: Terminal, k: nat)
    requires lease.roomSessionId in w.sessions && k == IndexOf(w.sessions[lease.roomSessionId].deliveries, lease.deliveryId)
    requires k < |w.sessions[lease.roomSessionId].deliveries| && !Settled(w.sessions[lease.roomSessionId].deliveries[k].status)
    ensures !AlreadyFinished(w, lease, terminal)
  {
  }

  lemma PutRooms(rooms: map<string, RoomRow>, w: World, sid: string, s: Session)
    requires RoomsAgree(rooms, w)
    ensures RoomsAgree(rooms, Put(w, sid, s)) && Put(w, sid, s).sessions == w.sessions[sid := s]
  {
  }

  lemma FinishLog(rooms: map<string, RoomRow>, w: World, lease: Lease, terminal: Terminal, output: Option<Output>,
                  checkpoint: Option<Checkpoint>, now: int, s: Session, k: nat, room: RoomRow, s': Session)
    requires lease.roomSessionId in w.sessions && s == w.sessions[lease.roomSessionId] && Owned(w, lease, now)
    requires k == IndexOf(s.deliveries, lease.deliveryId) < |s.deliveries| && !Settled(s.deliveries[k].status)
    requires RoomsAgree(rooms, w) && s.seed.roomId in rooms
    requires room == RoomAfterFinish(rooms[s.seed.roomId], Effective(terminal, output).Some?)
    requires s' == SettledSession(s, k, terminal, output, checkpoint, room, now)
    ensures
      var (w', r) := DoFinish(w, lease, terminal, output, checkpoint, now);
      && w'.sessions == w.sessions[lease.roomSessionId := s'] && r == Finished(s'.cursor)
      && RoomsAgree(rooms[s.seed.roomId := room], w')
  {
    hide PublishOutput, AgentMessage, AppendPublic, FinishSession, DoFinish, AlreadyFinished, Owned, IndexOf, RoomsAgree, Settled,
         ArtifactOf, Put;
    var roomId, publishes := s.seed.roomId, Effective(terminal, output).Some?;
    var w1, rooms1, m: Option<Message> := w, rooms, None;
    if publishes {
      PublishedRooms(rooms, w, s, lease, output.value, now);
      w1 := PublishOutput(w, s, lease, output.value, now);
      rooms1 := rooms[roomId := Raise(rooms[roomId], 1, 1)];
      m := Some(AgentMessage(w, s, output.value, now));
    }
    var data := DeliverySettled(IsSuccess(terminal), lease.deliveryId, s.seed.roomSessionId, terminal,
                                if m.Some? then Some(m.value.messageId) else None);
    LoggedRooms(rooms1, w1, roomId, data, now, ArtifactOf(s, lease, TerminalArtifact));
    var w2 := AppendPublic(w1, roomId, data, now, ArtifactOf(s, lease, TerminalArtifact));
    NotYetFinished(w, lease, terminal, k);
    FinishForm(w, lease, terminal, output, checkpoint, now, s, k, m, w1, w2);
    assert rooms1[roomId := Raise(rooms1[roomId], 0, 1)] == rooms[roomId := room];
    PutRooms(rooms[roomId := room], w2, lease.roomSessionId, s');
  }

  /** The rows a finish writes. */
  lemma FinishDb(db: Database, lease: Lease, terminal: Terminal, output: Option<Output>, checkpoint: Option<Checkpoint>,
                 now: int, s: Session, k: nat, fallback: Option<string>)
    requires RowOwned(db, lease, now) && SessionAgrees(db, lease.roomSessionId, s, fallback)
    requires k == IndexOf(s.deliveries, lease.deliveryId) < |s.deliveries| && !Settled(s.deliveries[k].status)
    requires terminal.ByRuntime? ==> EndsDelivery(terminal.event)
    ensures
      var sid := lease.roomSessionId;
      var room := RoomAfterFinish(db.rooms[s.seed.roomId], Effective(terminal, output).Some?);
      var s' := SettledSession(s, k, terminal, output, checkpoint, room, now);
      var (db', r') := SqlFinish(db, lease, terminal, output, checkpoint, now);
      && r' == DeliveryFinished(s'.cursor.messageSequence)
      && RowAgrees(db'.sessions[sid], s', fallback)
      && db'.sessions == db.sessions[sid := db'.sessions[sid]]
      && db'.deliveries == db.deliveries[lease.deliveryId := RowFor(sid, s'.deliveries[k])]
      && db'.rooms == db.rooms[s.seed.roomId := room]
      && db'.events == db.events[TerminalRowId(sid, lease.deliveryId) :=
           TerminalRow(lease.generation, Commit(checkpoint, Effective(terminal, output), terminal), room.eventSequence)]
  {
    assert !SettledIn(s.deliveries, lease.deliveryId);
    assert TerminalRowId(lease.roomSessionId, lease.deliveryId) !in db.events;
    assert db.deliveries[lease.deliveryId] == RowFor(lease.roomSessionId, s.deliveries[k]);
    hide RuntimeRowsAgree, OutcomeRowsAgree, QueueAgrees;
  }

  lemma SettledShape(s: Session, k: nat, terminal: Terminal, output: Option<Output>, checkpoint: Option<Checkpoint>,
                     room: RoomRow, now: int)
    requires k < |s.deliveries|
    ensures
      var s' := SettledSession(s, k, terminal, output, checkpoint, room, now);
      && s'.seed == s.seed && s'.runtimeEvents == s.runtimeEvents && s'.generation == s.generation && s'.currentDeliveryId.None?
      && |s'.deliveries| == |s.deliveries| && s'.deliveries == s.deliveries[k := s'.deliveries[k]]
      && s'.deliveries[k].envelope == s.deliveries[k].envelope && Settled(s'.deliveries[k].status)
  {
  }

  lemma AgreesApart(db: Database, sid: string, s: Session, fallback: Option<string>, k: nat)
    requires SessionAgrees(db, sid, s, fallback) && k < |s.deliveries|
    ensures sid in db.sessions && s.seed.roomId in db.rooms && RowAgrees(db.sessions[sid], s, fallback)
    ensures QueueAgrees(db.deliveries, sid, s.deliveries)
    ensures RuntimeRowsAgree(db.events, sid, s) && OutcomeRowsAgree(db.events, sid, s)
    ensures s.deliveries[k].envelope.deliveryId in db.deliveries
    ensures db.deliveries[s.deliveries[k].envelope.deliveryId].roomSessionId == sid
  {
    hide RowAgrees, RuntimeRowsAgree, OutcomeRowsAgree, IndexOf;
    assert db.deliveries[s.deliveries[k].envelope.deliveryId] == RowFor(sid, s.deliveries[k]);
  }

  lemma AgreesTogether(db: Database, sid: string, s: Session, fallback: Option<string>)
    requires sid in db.sessions && s.seed.roomId in db.rooms && RowAgrees(db.sessions[sid], s, fallback)
    requires QueueAgrees(db.deliveries, sid, s.deliveries)
    requires RuntimeRowsAgree(db.events, sid, s) && OutcomeRowsAgree(db.events, sid, s)
    ensures SessionAgrees(db, sid, s, fallback)
  {
    hide RowAgrees, RuntimeRowsAgree, OutcomeRowsAgree, QueueAgrees;
  }

  lemma AgreesOn(db: Database, sid: string, s: Session, fallback: Option<string>)
    requires SessionAgrees(db, sid, s, fallback)
    ensures sid in db.sessions && RowAgrees(db.sessions[sid], s, fallback) && QueueAgrees(db.deliveries, sid, s.deliveries)
  {
    hide RowAgrees, RuntimeRowsAgree, OutcomeRowsAgree, QueueAgrees;
  }

  lemma FinishedAlike(cursor: Cursor)
    ensures SameReply(Finished(cursor), DeliveryFinished(cursor.messageSequence))
  {
  }

  lemma RowOf(sid: string, d: Delivery)
    ensures RowFor(sid, d).roomSessionId == sid
  {
  }

  lemma FinishAgrees(db: Database, w: World, fallback: Option<string>, lease: Lease, terminal: Terminal, output: Option<Output>,
                     checkpoint: Option<Checkpoint>, now: int, s: Session, k: nat)
    requires lease.roomSessionId in w.sessions && s == w.sessions[lease.roomSessionId] && Owned(w, lease, now)
    requires SessionAgrees(db, lease.roomSessionId, s, fallback) && RoomsAgree(db.rooms, w)
    requires k == IndexOf(s.deliveries, lease.deliveryId) < |s.deliveries| && !Settled(s.deliveries[k].status)
    requires DistinctIds(s.deliveries) && RowOwned(db, lease, now) && (terminal.ByRuntime? ==> EndsDelivery(terminal.event))
    ensures
      var (db', r') := SqlFinish(db, lease, terminal, output, checkpoint, now);
      var (w', r) := DoFinish(w, lease, terminal, output, checkpoint, now);
      && SameReply(r, r') && RoomsAgree(db'.rooms, w')
      && OnlyTouches(db, db', lease.roomSessionId)
      && lease.roomSessionId in w'.sessions
      && w'.sessions == w.sessions[lease.roomSessionId := w'.sessions[lease.roomSessionId]]
      && SessionAgrees(db', lease.roomSessionId, w'.sessions[lease.roomSessionId], fallback)
  {
    hide *;
    var sid := lease.roomSessionId;
    AgreesApart(db, sid, s, fallback, k);
    var room := RoomAfterFinish(db.rooms[s.seed.roomId], Effective(terminal, output).Some?);
    var s' := SettledSession(s, k, terminal, output, checkpoint, room, now);
    FinishLog(db.rooms, w, lease, terminal, output, checkpoint, now, s, k, room, s');
    FinishDb(db, lease, terminal, output, checkpoint, now, s, k, fallback);
    var db' := SqlFinish(db, lease, terminal, output, checkpoint, now).0;
    SettledShape(s, k, terminal, output, checkpoint, room, now);
    SettledAgrees(db, sid, s, k, lease, terminal, Commit(checkpoint, Effective(terminal, output), terminal), room.eventSequence, s');
    RowOf(sid, s'.deliveries[k]);
    RowsTouch(db, db', sid, lease.deliveryId, TerminalRowId(sid, lease.deliveryId));
    AgreesTogether(db', sid, s', fallback);
    FinishedAlike(s'.cursor);
  }

  lemma FinishOwned(db: Database, w: World, base: map<string, nat>, fallback: Option<string>, lease: Lease, terminal: Terminal,
                    output: Option<Output>, checkpoint: Option<Checkpoint>, now: int)
    requires Related(db, w, fallback) && WorldInv(w, base) && Owned(w, lease, now)
    requires terminal.ByRuntime? ==> EndsDelivery(terminal.event)
    ensures Related(SqlFinish(db, lease, terminal, output, checkpoint, now).0,
                    DoFinish(w, lease, terminal, output, checkpoint, now).0, fallback)
    ensures SameReply(DoFinish(w, lease, terminal, output, checkpoint, now).1,
                      SqlFinish(db, lease, terminal, output, checkpoint, now).1)
  {
    var sid := lease.roomSessionId;
    var s := w.sessions[sid];
    SameFence(db, w, base, fallback, lease, now);
    InRelation(db, w, fallback, sid);
    RoomsInRelation(db, w, fallback);
    DistinctInStore(w, base, sid);
    hide *;
    FinishAgrees(db, w, fallback, lease, terminal, output, checkpoint, now, s, IndexOf(s.deliveries, lease.deliveryId));
    StepRelates(db, SqlFinish(db, lease, terminal, output, checkpoint, now).0, w,
                DoFinish(w, lease, terminal, output, checkpoint, now).0, fallback, sid);
  }

  lemma DistinctInStore(w: World, base: map<string, nat>, sid: string)
    requires WorldInv(w, base) && sid in w.sessions
    ensures DistinctIds(w.sessions[sid].deliveries)
  {
    InStore(w, base, sid);
  }

  lemma SettledRow(db: Database, w: World, fallback: Option<string>, lease: Lease)
    requires Related(db, w, fallback)
    ensures TerminalRowId(lease.roomSessionId, lease.deliveryId) in db.events <==> AlreadySettled(w, lease)
  {
    RoomsInRelation(db, w, fallback);
    hide Related;
    assert TerminalRowId(lease.roomSessionId, lease.deliveryId).roomSessionId == lease.roomSessionId;
    if lease.roomSessionId in w.sessions {
      InRelation(db, w, fallback, lease.roomSessionId);
    }
  }

  /** Without the lease a finish changes nothing in either store, and both know a settled delivery. */
  lemma FinishUnowned(db: Database, w: World, base: map<string, nat>, fallback: Option<string>, lease: Lease,
                      terminal: Terminal, output: Option<Output>, checkpoint: Option<Checkpoint>, now: int)
    requires Related(db, w, fallback) && !RowOwned(db, lease, now) && !Owned(w, lease, now)
    ensures
      var (db', r') := SqlFinish(db, lease, terminal, output, checkpoint, now);
      var (w', r) := DoFinish(w, lease, terminal, output, checkpoint, now);
      Related(db', w', fallback) && (AlreadySettled(w, lease) || SameReply(r, r'))
  {
    hide Related, Owned, RowOwned;
    SettledRow(db, w, fallback, lease);
  }

  lemma FinishRefines(db: Database, w: World, base: map<string, nat>, fallback: Option<string>, lease: Lease, terminal: Terminal,
                      output: Option<Output>, checkpoint: Option<Checkpoint>, now: int)
    requires Related(db, w, fallback) && WorldInv(w, base) && (terminal.ByRuntime? ==> EndsDelivery(terminal.event))
    ensures
      var (db', r') := SqlFinish(db, lease, terminal, output, checkpoint, now);
      var (w', r) := DoFinish(w, lease, terminal, output, checkpoint, now);
      Related(db', w', fallback) && (AlreadySettled(w, lease) || SameReply(r, r'))
  {
    hide *;
    SameFence(db, w, base, fallback, lease, now);
    if Owned(w, lease, now) {
      FinishOwned(db, w, base, fallback, lease, terminal, output, checkpoint, now);
    } else {
      FinishUnowned(db, w, base, fallback, lease, terminal, output, checkpoint, now);
    }
  }

  // ----- retry

  lemma RequeuedAgrees(db: Database, sid: string, s: Session, k: nat, lease: Lease, row: EventRow, s': Session)
    requires QueueAgrees(db.deliveries, sid, s.deliveries) && DistinctIds(s.deliveries)
    requires RuntimeRowsAgree(db.events, sid, s) && OutcomeRowsAgree(db.events, sid, s)
    requires k < |s.deliveries| && s.deliveries[k].envelope.deliveryId == lease.deliveryId && lease.roomSessionId == sid
    requires !Settled(s.deliveries[k].status) && lease.generation == s.generation
    requires s'.seed == s.seed && s'.runtimeEvents == s.runtimeEvents && s'.generation == s.generation && s'.currentDeliveryId.None?
    requires |s'.deliveries| == |s.deliveries| && s'.deliveries == s.deliveries[k := s'.deliveries[k]]
    requires s'.deliveries[k].envelope.deliveryId == lease.deliveryId && s'.deliveries[k].status == Pending
    ensures
      var events' := db.events[RetryRowId(sid, lease.deliveryId, lease.generation) := row];
      && RuntimeRowsAgree(events', sid, s') && OutcomeRowsAgree(events', sid, s')
      && QueueAgrees(db.deliveries[lease.deliveryId := RowFor(sid, s'.deliveries[k])], sid, s'.deliveries)
  {
    ReplacedAgrees(db.deliveries, sid, s.deliveries, k, s'.deliveries[k]);
    IndexOfIs(s.deliveries, k);
    forall id: string ensures SettledIn(s'.deliveries, id) <==> SettledIn(s.deliveries, id) {
      ReplacedSettles(s.deliveries, k, s'.deliveries[k], id);
    }
  }

  lemma RequeueLog(rooms: map<string, RoomRow>, w: World, lease: Lease, k: nat, failure: Failure,
                   checkpoint: Option<Checkpoint>, availableAt: int, now: int, s: Session)
    requires lease.roomSessionId in w.sessions && s == w.sessions[lease.roomSessionId]
    requires RoomsAgree(rooms, w) && s.seed.roomId in rooms && k < |s.deliveries|
    ensures
      var w' := CommitRetry(w, lease, k, failure, checkpoint, availableAt, now);
      && RoomsAgree(rooms[s.seed.roomId := Raise(rooms[s.seed.roomId], 0, 1)], w')
      && w'.sessions == w.sessions[lease.roomSessionId := RetrySession(s, k, failure, checkpoint, availableAt)]
  {
    var d := s.deliveries[k];
    LoggedRooms(rooms, w, s.seed.roomId,
      DeliveryRetrying(d.envelope.deliveryId, lease.generation, d.envelope.attempt + 1, failure),
      now, ArtifactOf(s, lease, RetryArtifact));
    hide AppendPublic;
  }

  /** The rows a retry writes. */
  lemma RequeueDb(db: Database, w: World, fallback: Option<string>, lease: Lease, k: nat, failure: Failure,
                  checkpoint: Option<Checkpoint>, availableAt: int, s: Session, row: EventRow, s': Session)
    requires lease.roomSessionId in w.sessions && s == w.sessions[lease.roomSessionId]
    requires lease.generation == s.generation && s.currentDeliveryId.Some?
    requires SessionAgrees(db, lease.roomSessionId, s, fallback) && RoomsAgree(db.rooms, w)
    requires k == IndexOf(s.deliveries, lease.deliveryId) < |s.deliveries| && lease.deliveryId in db.deliveries
    requires s.cursor.eventSequence <= Counter(w.roomEventSequences, s.seed.roomId)
    requires row == RetryRow(s.deliveries[k].envelope.attempt + 1, failure, Raise(db.rooms[s.seed.roomId], 0, 1).eventSequence)
    requires s' == RetrySession(s, k, failure, checkpoint, availableAt)
    ensures
      var sid := lease.roomSessionId;
      var (db', r') := SqlRequeue(db, lease, failure, checkpoint, availableAt);
      && r'.DeliveryRetried?
      && RowAgrees(db'.sessions[sid], s', fallback) && db'.sessions == db.sessions[sid := db'.sessions[sid]]
      && db'.deliveries == db.deliveries[lease.deliveryId := RowFor(sid, s'.deliveries[k])]
      && db'.rooms == db.rooms[s.seed.roomId := Raise(db.rooms[s.seed.roomId], 0, 1)]
      && db'.events == db.events[RetryRowId(sid, lease.deliveryId, lease.generation) := row]
  {
    assert RetryRowId(lease.roomSessionId, lease.deliveryId, lease.generation) !in db.events;
    assert db.deliveries[lease.deliveryId] == RowFor(lease.roomSessionId, s.deliveries[k]);
    hide RuntimeRowsAgree, OutcomeRowsAgree, QueueAgrees;
  }

  lemma RequeueAgrees(db: Database, w: World, fallback: Option<string>, lease: Lease, k: nat, failure: Failure,
                      checkpoint: Option<Checkpoint>, availableAt: int, now: int, s: Session)
    requires lease.roomSessionId in w.sessions && s == w.sessions[lease.roomSessionId] && Owned(w, lease, now)
    requires SessionAgrees(db, lease.roomSessionId, s, fallback) && RoomsAgree(db.rooms, w)
    requires k == IndexOf(s.deliveries, lease.deliveryId) < |s.deliveries| && !Settled(s.deliveries[k].status)
    requires DistinctIds(s.deliveries) && lease.deliveryId in db.deliveries
    requires s.cursor.eventSequence <= Counter(w.roomEventSequences, s.seed.roomId)
    ensures
      var (db', r') := SqlRequeue(db, lease, failure, checkpoint, availableAt);
      var w' := CommitRetry(w, lease, k, failure, checkpoint, availableAt, now);
      && r'.DeliveryRetried? && RoomsAgree(db'.rooms, w')
      && OnlyTouches(db, db', lease.roomSessionId)
      && lease.roomSessionId in w'.sessions
      && w'.sessions == w.sessions[lease.roomSessionId := w'.sessions[lease.roomSessionId]]
      && SessionAgrees(db', lease.roomSessionId, w'.sessions[lease.roomSessionId], fallback)
  {
    var sid := lease.roomSessionId;
    var s' := RetrySession(s, k, failure, checkpoint, availableAt);
    var db' := SqlRequeue(db, lease, failure, checkpoint, availableAt).0;
    var row := RetryRow(s.deliveries[k].envelope.attempt + 1, failure, Raise(db.rooms[s.seed.roomId], 0, 1).eventSequence);
    RequeueLog(db.rooms, w, lease, k, failure, checkpoint, availableAt, now, s);
    RequeueDb(db, w, fallback, lease, k, failure, checkpoint, availableAt, s, row, s');
    RequeuedAgrees(db, sid, s, k, lease, row, s');
    hide RuntimeRowsAgree, OutcomeRowsAgree, QueueAgrees, RoomsAgree, OnlyTouches, CommitRetry, SqlRequeue, Owned, DistinctIds;
    RowsTouch(db, db', sid, lease.deliveryId, RetryRowId(sid, lease.deliveryId, lease.generation));
  }

  lemma RequeueRelates(db: Database, w: World, base: map<string, nat>, fallback: Option<string>, lease: Lease, k: nat,
                       failure: Failure, checkpoint: Option<Checkpoint>, availableAt: int, now: int)
    requires Related(db, w, fallback) && WorldInv(w, base) && Owned(w, lease, now)
    requires lease.roomSessionId in w.sessions && k == IndexOf(w.sessions[lease.roomSessionId].deliveries, lease.deliveryId)
    requires lease.roomSessionId in db.sessions && lease.deliveryId in db.deliveries
    ensures k < |w.sessions[lease.roomSessionId].deliveries|
    ensures
      var (db', r') := SqlRequeue(db, lease, failure, checkpoint, availableAt);
      var w' := CommitRetry(w, lease, k, failure, checkpoint, availableAt, now);
      r'.DeliveryRetried? && Related(db', w', fallback)
  {
    var sid := lease.roomSessionId;
    var s := w.sessions[sid];
    SameFence(db, w, base, fallback, lease, now);
    InRelation(db, w, fallback, sid);
    RoomsInRelation(db, w, fallback);
    DistinctInStore(w, base, sid);
    InStore(w, base, sid);
    assert s.cursor.eventSequence <= Counter(w.roomEventSequences, s.seed.roomId);
    hide *;
    RequeueAgrees(db, w, fallback, lease, k, failure, checkpoint, availableAt, now, s);
    StepRelates(db, SqlRequeue(db, lease, failure, checkpoint, availableAt).0, w,
                CommitRetry(w, lease, k, failure, checkpoint, availableAt, now), fallback, sid);
  }

  /** A requeue overwrites the event cursor, so it does not matter whether storing the event moved it first. */
  lemma RequeueForgets(db: Database, lease: Lease, event: RuntimeEvent, failure: Failure, checkpoint: Option<Checkpoint>,
                       availableAt: int)
    requires lease.roomSessionId in db.sessions && lease.deliveryId in db.deliveries && EndsDelivery(event)
    requires SqlRequeue(StoreEvent(db, lease, event).0, lease, failure, checkpoint, availableAt).1.DeliveryRetried?
    ensures
      SqlRequeue(AppendRuntime(db, db.sessions[lease.roomSessionId].roomId, lease, event).0, lease, failure, checkpoint, availableAt)
        == SqlRequeue(StoreEvent(db, lease, event).0, lease, failure, checkpoint, availableAt)
  {
    var a := AppendRuntime(db, db.sessions[lease.roomSessionId].roomId, lease, event).0;
    var b := StoreEvent(db, lease, event).0;
    var a', b' := SqlRequeue(a, lease, failure, checkpoint, availableAt).0, SqlRequeue(b, lease, failure, checkpoint, availableAt).0;
    assert a'.sessions[lease.roomSessionId] == b'.sessions[lease.roomSessionId];
    assert a'.sessions == b'.sessions;
  }

  lemma RetryAfterEvent(db: Database, w: World, base: map<string, nat>, fallback: Option<string>, lease: Lease, failure: Failure,
                        event: RuntimeEvent, checkpoint: Option<Checkpoint>, availableAt: int, now: int, k: nat)
    requires Related(db, w, fallback) && WorldInv(w, base) && Owned(w, lease, now) && EndsDelivery(event)
    requires lease.roomSessionId in w.sessions && k == IndexOf(w.sessions[lease.roomSessionId].deliveries, lease.deliveryId)
    requires lease.roomSessionId in db.sessions && lease.deliveryId in db.deliveries
    requires DoAppend(w, lease, event, now).1 != ReplayChanged
    ensures
      var (w1, db1) := (DoAppend(w, lease, event, now).0,
                        AppendRuntime(db, db.sessions[lease.roomSessionId].roomId, lease, event).0);
      && lease.roomSessionId in w1.sessions && k < |w1.sessions[lease.roomSessionId].deliveries|
      && SqlRequeue(db1, lease, failure, checkpoint, availableAt).1.DeliveryRetried?
      && Related(SqlRequeue(db1, lease, failure, checkpoint, availableAt).0,
                 CommitRetry(w1, lease, k, failure, checkpoint, availableAt, now), fallback)
  {
    hide *;
    var w1, db1 := DoAppend(w, lease, event, now).0, StoreEvent(db, lease, event).0;
    StoreRelates(db, w, base, fallback, lease, event, now);
    AppendKeeps(w, base, lease, event, now);
    AppendKeepsQueue(w, lease, event, now);
    RoomsInRelation(db1, w1, fallback);
    StoreKeepsQueue(db, lease, event);
    RequeueRelates(db1, w1, base, fallback, lease, k, failure, checkpoint, availableAt, now);
    RequeueForgets(db, lease, event, failure, checkpoint, availableAt);
  }

  lemma StoreKeepsQueue(db: Database, lease: Lease, event: RuntimeEvent)
    requires lease.roomSessionId in db.sessions
    ensures
      var db1 := AppendRuntime(db, db.sessions[lease.roomSessionId].roomId, lease, event).0;
      db1.deliveries == db.deliveries && db1.sessions == db.sessions
    ensures StoreEvent(db, lease, event).0.deliveries == db.deliveries
    ensures StoreEvent(db, lease, event).0.sessions.Keys == db.sessions.Keys
    ensures
      StoreEvent(db, lease, event).1 == AppendRuntime(db, db.sessions[lease.roomSessionId].roomId, lease, event).1
  {
  }

  lemma RetryUnowned(db: Database, w: World, fallback: Option<string>, lease: Lease, failure: Failure,
                     failedBy: Option<RuntimeEvent>, checkpoint: Option<Checkpoint>, availableAt: int, now: int)
    requires !RowOwned(db, lease, now) && !Owned(w, lease, now)
    ensures SqlRetry(db, lease, failure, failedBy, checkpoint, availableAt, now) == (db, LeaseFenced)
    ensures DoRetry(w, lease, failure, failedBy, checkpoint, availableAt, now) == (w, Fenced)
    ensures SameReply(Fenced, LeaseFenced)
  {
  }

  /** A retry without a runtime event is its requeue. */
  lemma RetryPlain(db: Database, w: World, lease: Lease, failure: Failure, checkpoint: Option<Checkpoint>,
                   availableAt: int, now: int, k: nat)
    requires RowOwned(db, lease, now) && Owned(w, lease, now)
    requires k == IndexOf(w.sessions[lease.roomSessionId].deliveries, lease.deliveryId) < |w.sessions[lease.roomSessionId].deliveries|
    requires SqlRequeue(db, lease, failure, checkpoint, availableAt).1.DeliveryRetried?
    ensures DoRetry(w, lease, failure, None, checkpoint, availableAt, now).0
         == CommitRetry(w, lease, k, failure, checkpoint, availableAt, now)
    ensures SqlRetry(db, lease, failure, None, checkpoint, availableAt, now).0
         == SqlRequeue(db, lease, failure, checkpoint, availableAt).0
    ensures SameReply(DoRetry(w, lease, failure, None, checkpoint, availableAt, now).1,
                      SqlRetry(db, lease, failure, None, checkpoint, availableAt, now).1)
  {
    hide CommitRetry, SqlRequeue;
  }

  /** A retry with a runtime event is the event and then the requeue, unless the event changed on replay. */
  lemma MemoryRetry(w: World, lease: Lease, failure: Failure, event: RuntimeEvent, checkpoint: Option<Checkpoint>,
                    availableAt: int, now: int, k: nat, w1: World)
    requires Owned(w, lease, now)
    requires k == IndexOf(w.sessions[lease.roomSessionId].deliveries, lease.deliveryId) < |w.sessions[lease.roomSessionId].deliveries|
    requires w1 == DoAppend(w, lease, event, now).0 && DoAppend(w, lease, event, now).1 != ReplayChanged
    requires lease.roomSessionId in w1.sessions && k < |w1.sessions[lease.roomSessionId].deliveries|
    ensures DoRetry(w, lease, failure, Some(event), checkpoint, availableAt, now)
         == (CommitRetry(w1, lease, k, failure, checkpoint, availableAt, now), Retried)
  {
    hide CommitRetry, DoAppend, IndexOf;
  }

  lemma RowRetry(db: Database, lease: Lease, failure: Failure, event: RuntimeEvent, checkpoint: Option<Checkpoint>,
                 availableAt: int, now: int, db1: Database, stored: SqlReply)
    requires RowOwned(db, lease, now) && EndsDelivery(event)
    requires (db1, stored) == AppendRuntime(db, db.sessions[lease.roomSessionId].roomId, lease, event)
    requires stored != EventChanged && stored != Broken
    requires lease.roomSessionId in db1.sessions && lease.deliveryId in db1.deliveries
    requires SqlRequeue(db1, lease, failure, checkpoint, availableAt).1.DeliveryRetried?
    ensures SqlRetry(db, lease, failure, Some(event), checkpoint, availableAt, now)
         == SqlRequeue(db1, lease, failure, checkpoint, availableAt)
  {
    hide SqlRequeue, AppendRuntime, EndsDelivery, SessionFence;
  }

  lemma AppendAnswers(w: World, lease: Lease, event: RuntimeEvent, now: int, r': SqlReply)
    requires Owned(w, lease, now) && DoAppend(w, lease, event, now).1 != ReplayChanged
    requires SameReply(DoAppend(w, lease, event, now).1, r')
    ensures r' != EventChanged && r' != Broken
  {
    hide RecordEvent, AppendPublic, RuntimeKey, Put;
  }

  lemma RowOwnedRows(db: Database, lease: Lease, now: int)
    requires RowOwned(db, lease, now)
    ensures lease.roomSessionId in db.sessions && lease.deliveryId in db.deliveries
  {
  }

  lemma AppendKeepsRows(db: Database, roomId: string, lease: Lease, event: RuntimeEvent)
    ensures var db' := AppendRuntime(db, roomId, lease, event).0; db'.sessions == db.sessions && db'.deliveries == db.deliveries
  {
    hide SameStored;
  }

  lemma RetriedAlike(r': SqlReply)
    requires r'.DeliveryRetried?
    ensures SameReply(Retried, r')
  {
  }

  lemma RetryWithEvent(db: Database, w: World, lease: Lease, failure: Failure, event: RuntimeEvent,
                       checkpoint: Option<Checkpoint>, availableAt: int, now: int, k: nat, w1: World, db1: Database)
    requires RowOwned(db, lease, now) && Owned(w, lease, now) && EndsDelivery(event)
    requires k == IndexOf(w.sessions[lease.roomSessionId].deliveries, lease.deliveryId) < |w.sessions[lease.roomSessionId].deliveries|
    requires w1 == DoAppend(w, lease, event, now).0 && DoAppend(w, lease, event, now).1 != ReplayChanged
    requires db1 == AppendRuntime(db, db.sessions[lease.roomSessionId].roomId, lease, event).0
    requires SameReply(DoAppend(w, lease, event, now).1, AppendRuntime(db, db.sessions[lease.roomSessionId].roomId, lease, event).1)
    requires SqlRequeue(db1, lease, failure, checkpoint, availableAt).1.DeliveryRetried?
    requires lease.roomSessionId in w1.sessions && k < |w1.sessions[lease.roomSessionId].deliveries|
    ensures DoRetry(w, lease, failure, Some(event), checkpoint, availableAt, now).0
         == CommitRetry(w1, lease, k, failure, checkpoint, availableAt, now)
    ensures SqlRetry(db, lease, failure, Some(event), checkpoint, availableAt, now).0
         == SqlRequeue(db1, lease, failure, checkpoint, availableAt).0
    ensures SameReply(DoRetry(w, lease, failure, Some(event), checkpoint, availableAt, now).1,
                      SqlRetry(db, lease, failure, Some(event), checkpoint, availableAt, now).1)
  {
    hide *;
    RowOwnedRows(db, lease, now);
    AppendKeepsRows(db, db.sessions[lease.roomSessionId].roomId, lease, event);
    AppendAnswers(w, lease, event, now, AppendRuntime(db, db.sessions[lease.roomSessionId].roomId, lease, event).1);
    MemoryRetry(w, lease, failure, event, checkpoint, availableAt, now, k, w1);
    RowRetry(db, lease, failure, event, checkpoint, availableAt, now, db1,
      AppendRuntime(db, db.sessions[lease.roomSessionId].roomId, lease, event).1);
    RetriedAlike(SqlRequeue(db1, lease, failure, checkpoint, availableAt).1);
  }

  lemma RetryChanged(db: Database, w: World, lease: Lease, failure: Failure, event: RuntimeEvent,
                     checkpoint: Option<Checkpoint>, availableAt: int, now: int)
    requires RowOwned(db, lease, now) && Owned(w, lease, now) && EndsDelivery(event)
    requires IndexOf(w.sessions[lease.roomSessionId].deliveries, lease.deliveryId) < |w.sessions[lease.roomSessionId].deliveries|
    requires DoAppend(w, lease, event, now).1 == ReplayChanged
    requires AppendRuntime(db, db.sessions[lease.roomSessionId].roomId, lease, event).1 == EventChanged
    ensures DoRetry(w, lease, failure, Some(event), checkpoint, availableAt, now) == (w, ReplayChanged)
    ensures SqlRetry(db, lease, failure, Some(event), checkpoint, availableAt, now) == (db, EventChanged)
  {
    hide CommitRetry, SqlRequeue, AppendPublic;
  }

  lemma FenceNames(db: Database, w: World, lease: Lease, now: int)
    requires RowOwned(db, lease, now) && Owned(w, lease, now)
    ensures lease.roomSessionId in w.sessions && lease.roomSessionId in db.sessions && lease.deliveryId in db.deliveries
  {
  }

  lemma RetryHeldWithEvent(db: Database, w: World, base: map<string, nat>, fallback: Option<string>, lease: Lease,
                           failure: Failure, event: RuntimeEvent, checkpoint: Option<Checkpoint>, availableAt: int,
                           now: int, k: nat)
    requires Related(db, w, fallback) && WorldInv(w, base) && Owned(w, lease, now) && RowOwned(db, lease, now)
    requires lease.roomSessionId in w.sessions && lease.roomSessionId in db.sessions && lease.deliveryId in db.deliveries
    requires k == IndexOf(w.sessions[lease.roomSessionId].deliveries, lease.deliveryId) < |w.sessions[lease.roomSessionId].deliveries|
    requires EndsDelivery(event)
    ensures Related(SqlRetry(db, lease, failure, Some(event), checkpoint, availableAt, now).0,
                    DoRetry(w, lease, failure, Some(event), checkpoint, availableAt, now).0, fallback)
    ensures SameReply(DoRetry(w, lease, failure, Some(event), checkpoint, availableAt, now).1,
                      SqlRetry(db, lease, failure, Some(event), checkpoint, availableAt, now).1)
  {
    hide *;
    var w1, db1 := DoAppend(w, lease, event, now).0,
                   AppendRuntime(db, db.sessions[lease.roomSessionId].roomId, lease, event).0;
    StoreRelates(db, w, base, fallback, lease, event, now);
    StoreKeepsQueue(db, lease, event);
    if DoAppend(w, lease, event, now).1 == ReplayChanged {
      ChangedAlike(w, lease, event, now, AppendRuntime(db, db.sessions[lease.roomSessionId].roomId, lease, event).1);
      RetryChanged(db, w, lease, failure, event, checkpoint, availableAt, now);
    } else {
      RetryAfterEvent(db, w, base, fallback, lease, failure, event, checkpoint, availableAt, now, k);
      RetryWithEvent(db, w, lease, failure, event, checkpoint, availableAt, now, k, w1, db1);
    }
  }

  lemma ChangedAlike(w: World, lease: Lease, event: RuntimeEvent, now: int, r': SqlReply)
    requires DoAppend(w, lease, event, now).1 == ReplayChanged && SameReply(DoAppend(w, lease, event, now).1, r')
    ensures r' == EventChanged && SameReply(ReplayChanged, EventChanged)
  {
  }

  lemma RetryHeld(db: Database, w: World, base: map<string, nat>, fallback: Option<string>, lease: Lease, failure: Failure,
                  failedBy: Option<RuntimeEvent>, checkpoint: Option<Checkpoint>, availableAt: int, now: int)
    requires Related(db, w, fallback) && WorldInv(w, base) && Owned(w, lease, now) && RowOwned(db, lease, now)
    requires failedBy.Some? ==> EndsDelivery(failedBy.value)
    requires lease.roomSessionId in w.sessions && lease.roomSessionId in db.sessions && lease.deliveryId in db.deliveries
    ensures Related(SqlRetry(db, lease, failure, failedBy, checkpoint, availableAt, now).0,
                    DoRetry(w, lease, failure, failedBy, checkpoint, availableAt, now).0, fallback)
    ensures SameReply(DoRetry(w, lease, failure, failedBy, checkpoint, availableAt, now).1,
                      SqlRetry(db, lease, failure, failedBy, checkpoint, availableAt, now).1)
  {
    var k := IndexOf(w.sessions[lease.roomSessionId].deliveries, lease.deliveryId);
    SameFence(db, w, base, fallback, lease, now);
    hide *;
    if failedBy.None? {
      RequeueRelates(db, w, base, fallback, lease, k, failure, checkpoint, availableAt, now);
      RetryPlain(db, w, lease, failure, checkpoint, availableAt, now, k);
    } else {
      RetryHeldWithEvent(db, w, base, fallback, lease, failure, failedBy.value, checkpoint, availableAt, now, k);
    }
  }

  lemma RetryRefines(db: Database, w: World, base: map<string, nat>, fallback: Option<string>, lease: Lease, failure: Failure,
                     failedBy: Option<RuntimeEvent>, checkpoint: Option<Checkpoint>, availableAt: int, now: int)
    requires Related(db, w, fallback) && WorldInv(w, base) && (failedBy.Some? ==> EndsDelivery(failedBy.value))
    ensures
      var (db', r') := SqlRetry(db, lease, failure, failedBy, checkpoint, availableAt, now);
      var (w', r) := DoRetry(w, lease, failure, failedBy, checkpoint, availableAt, now);
      Related(db', w', fallback) && SameReply(r, r')
  {
    hide *;
    SameFence(db, w, base, fallback, lease, now);
    if Owned(w, lease, now) {
      FenceNames(db, w, lease, now);
      RetryHeld(db, w, base, fallback, lease, failure, failedBy, checkpoint, availableAt, now);
    } else {
      RetryUnowned(db, w, fallback, lease, failure, failedBy, checkpoint, availableAt, now);
    }
  }

  // ----- every call, and so every run

  /** What the durable store's validators demand of the events a call carries. */
  predicate Accepted(op: Operation) {
    match op
    case AppendEvent(_, event, _) => !EndsDelivery(event)
    case Finish(_, terminal, _, _, _) => terminal.ByRuntime? ==> EndsDelivery(terminal.event)
    case Retry(_, _, failedBy, _, _, _) => failedBy.Some? ==> EndsDelivery(failedBy.value)
    case _ => true
  }

  /** The repeated finish of a settled delivery is the one call the two stores may answer differently. */
  predicate AnswersMayDiffer(w: World, op: Operation) {
    op.Finish? && AlreadySettled(w, op.lease)
  }

  lemma FenceAlike(db: Database, w: World, base: map<string, nat>, fallback: Option<string>, lease: Lease, now: int)
    requires Related(db, w, fallback) && WorldInv(w, base)
    ensures RowOwned(db, lease, now) <==> Owned(w, lease, now)
  {
    SameFence(db, w, base, fallback, lease, now);
  }

  lemma RowInRelation(db: Database, w: World, fallback: Option<string>, sid: string)
    requires Related(db, w, fallback) && sid in w.sessions
    ensures sid in db.sessions && RowAgrees(db.sessions[sid], w.sessions[sid], fallback)
  {
    InRelation(db, w, fallback, sid);
  }

  lemma RenewRefines(db: Database, w: World, base: map<string, nat>, fallback: Option<string>, lease: Lease, leaseDuration: nat, now: int)
    requires Related(db, w, fallback) && WorldInv(w, base)
    ensures Related(SqlHeartbeat(db, lease, leaseDuration, now).0, DoHeartbeat(w, lease, leaseDuration, now).0, fallback)
    ensures SameReply(DoHeartbeat(w, lease, leaseDuration, now).1, SqlHeartbeat(db, lease, leaseDuration, now).1)
  {
    hide Related, WorldInv;
    FenceAlike(db, w, base, fallback, lease, now);
    if Owned(w, lease, now) {
      RowInRelation(db, w, fallback, lease.roomSessionId);
      var row, s := db.sessions[lease.roomSessionId], w.sessions[lease.roomSessionId];
      QuietAgrees(db, w, base, fallback, lease, now, row.(leaseExpiresAt := Some(now + leaseDuration)), s.(leaseExpiresAt := Some(now + leaseDuration)));
    }
  }

  lemma PersistRefines(db: Database, w: World, base: map<string, nat>, fallback: Option<string>, lease: Lease, saved: Checkpoint, now: int)
    requires Related(db, w, fallback) && WorldInv(w, base)
    ensures Related(SqlPersist(db, lease, saved, now).0, DoPersistCheckpoint(w, lease, saved, now).0, fallback)
    ensures SameReply(DoPersistCheckpoint(w, lease, saved, now).1, SqlPersist(db, lease, saved, now).1)
  {
    hide Related, WorldInv;
    FenceAlike(db, w, base, fallback, lease, now);
    if Owned(w, lease, now) {
      RowInRelation(db, w, fallback, lease.roomSessionId);
      var row, s := db.sessions[lease.roomSessionId], w.sessions[lease.roomSessionId];
      QuietAgrees(db, w, base, fallback, lease, now, row.(checkpoint := Some(saved)), s.(checkpoint := Some(saved)));
    }
  }

  lemma BindRefines(db: Database, w: World, base: map<string, nat>, fallback: Option<string>, lease: Lease, handle: Handle, now: int)
    requires Related(db, w, fallback) && WorldInv(w, base)
    ensures Related(SqlBind(db, lease, handle, now).0, DoBind(w, lease, handle, now).0, fallback)
    ensures SameReply(DoBind(w, lease, handle, now).1, SqlBind(db, lease, handle, now).1)
  {
    hide Related, WorldInv;
    FenceAlike(db, w, base, fallback, lease, now);
    if Owned(w, lease, now) {
      RowInRelation(db, w, fallback, lease.roomSessionId);
      var row, s := db.sessions[lease.roomSessionId], w.sessions[lease.roomSessionId];
      QuietAgrees(db, w, base, fallback, lease, now, row.(runtimeSessionId := Some(handle.runtimeSessionId)), s.(runtimeSessionId := Some(handle.runtimeSessionId)));
    }
  }

  lemma AppendRefines(db: Database, w: World, base: map<string, nat>, fallback: Option<string>, lease: Lease,
                      event: RuntimeEvent, now: int)
    requires Related(db, w, fallback) && WorldInv(w, base) && !EndsDelivery(event)
    ensures Related(SqlAppend(db, lease, event, now).0, DoAppend(w, lease, event, now).0, fallback)
    ensures SameReply(DoAppend(w, lease, event, now).1, SqlAppend(db, lease, event, now).1)
  {
    SameFence(db, w, base, fallback, lease, now);
    hide Related, WorldInv, StoreEvent;
    if Owned(w, lease, now) { StoreRelates(db, w, base, fallback, lease, event, now); }
  }

  /** One call: related states stay related, and both stores give the same answer. */
  lemma StepRefines(db: Database, w: World, base: map<string, nat>, fallback: Option<string>, op: Operation)
    requires Related(db, w, fallback) && WorldInv(w, base) && Accepted(op)
    ensures Related(SqlApply(db, fallback, op).0, Apply(w, op).0, fallback)
    ensures AnswersMayDiffer(w, op) || SameReply(Apply(w, op).1, SqlApply(db, fallback, op).1)
  {
    hide Related, WorldInv, SqlClaim, SqlHeartbeat, SqlBind, SqlPersist, SqlFinish, SqlRetry, SqlAppend, DoClaim, DoHeartbeat,
         DoBind, DoPersistCheckpoint, DoFinish, DoRetry, DoAppend, AlreadySettled, SameReply;
    match op
    case Claim(sid, runtimeId, workerId, leaseDuration, now) =>
      ClaimRefines(db, w, base, fallback, sid, runtimeId, workerId, leaseDuration, now);
    case AppendEvent(lease, event, now) => AppendRefines(db, w, base, fallback, lease, event, now);
    case Finish(lease, terminal, output, checkpoint, now) =>
      FinishRefines(db, w, base, fallback, lease, terminal, output, checkpoint, now);
    case Retry(lease, failure, failedBy, checkpoint, availableAt, now) =>
      RetryRefines(db, w, base, fallback, lease, failure, failedBy, checkpoint, availableAt, now);
    case Heartbeat(lease, leaseDuration, now) => RenewRefines(db, w, base, fallback, lease, leaseDuration, now);
    case BindRuntime(lease, handle, now) => BindRefines(db, w, base, fallback, lease, handle, now);
    case PersistCheckpoint(lease, saved, now) => PersistRefines(db, w, base, fallback, lease, saved, now);
  }

  lemma {:induction false} RunRefines(db: Database, w: World, base: map<string, nat>, fallback: Option<string>, ops: seq<Operation>)
    requires Related(db, w, fallback) && WorldInv(w, base) && forall op | op in ops :: Accepted(op)
    ensures Related(SqlRun(db, fallback, ops), Run(w, ops), fallback)
    decreases |ops|
  {
    hide Related, WorldInv, SqlApply, Apply;
    if ops != [] {
      assert ops[0] in ops && forall op | op in ops[1..] :: op in ops;
      StepRefines(db, w, base, fallback, ops[0]);
      ApplyKeeps(w, base, ops[0]);
      RunRefines(SqlApply(db, fallback, ops[0]).0, Apply(w, ops[0]).0, base, fallback, ops[1..]);
    }
  }

  /**
   * What the two stores agree on for one session: lease, generation, current
   * delivery, runtime session, checkpoint and room counters, the row of every
   * delivery, and which deliveries have a terminal event.
   */
  ghost predicate SameStanding(db: Database, w: World, sid: string) {
    && sid in db.sessions && sid in w.sessions
    && var (row, s) := (db.sessions[sid], w.sessions[sid]);
    && row.generation == s.generation && row.leaseOwnerId == s.leaseOwnerId && row.leaseExpiresAt == s.leaseExpiresAt
    && row.currentDeliveryId == s.currentDeliveryId && row.runtimeSessionId == s.runtimeSessionId
    && row.checkpoint == s.checkpoint && row.roomId in db.rooms
    && db.rooms[row.roomId].eventSequence == Counter(w.roomEventSequences, row.roomId)
    && db.rooms[row.roomId].messageSequence == Counter(w.roomMessageSequences, row.roomId)
    && forall i | 0 <= i < |s.deliveries| ::
         var (d, id) := (s.deliveries[i], s.deliveries[i].envelope.deliveryId);
         && id in db.deliveries
         && db.deliveries[id].status == d.status && db.deliveries[id].attempt == d.envelope.attempt
         && db.deliveries[id].availableAt == d.availableAt && db.deliveries[id].lastError == d.lastError
         && (TerminalRowId(sid, id) in db.events <==> Settled(d.status))
  }

  lemma RelatedStanding(db: Database, w: World, fallback: Option<string>, sid: string)
    requires Related(db, w, fallback) && sid in w.sessions && DistinctIds(w.sessions[sid].deliveries)
    ensures SameStanding(db, w, sid)
  {
    InRelation(db, w, fallback, sid);
    RoomsInRelation(db, w, fallback);
    hide Related, RuntimeRowsAgree;
    var ds := w.sessions[sid].deliveries;
    forall i | 0 <= i < |ds| ensures TerminalRowId(sid, ds[i].envelope.deliveryId) in db.events <==> Settled(ds[i].status) {
      IndexOfIs(ds, i);
    }
  }

  /** From related starting points, after any calls with any leases, the two stores stand alike. */
  lemma StoresAgree(seeds: seq<Seed>, before: seq<Operation>, w: World, db: Database, fallback: Option<string>,
                    ops: seq<Operation>, sid: string)
    requires Reached(seeds, before, w) && Related(db, w, fallback) && sid in w.sessions
    requires forall op | op in ops :: Accepted(op)
    ensures SameStanding(SqlRun(db, fallback, ops), Run(w, ops), sid)
  {
    var base := BaseCounters(seeds);
    ReachedInv(seeds, before, w);
    RunProgress(w, base, ops);
    assert sid in Run(w, ops).sessions;
    hide *;
    RunRefines(db, w, base, fallback, ops);
    RunKeeps(w, base, ops);
    DistinctInStore(Run(w, ops), base, sid);
    RelatedStanding(SqlRun(db, fallback, ops), Run(w, ops), fallback, sid);
  }
}
