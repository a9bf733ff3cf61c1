/**
 * The rows a seeded store starts from, and what follows for every run: the durable
 * store over those rows and the process-local store over the same seeds stay alike.
 */
module RoomSeeds {
  import opened Prelude
  import opened RoomProtocol
  import opened RoomInvariants
  import opened RoomGuarantees
  import opened RoomSqlStore
  import opened RoomRefinement

  function SeedRow(seed: Seed): SessionRow {
    SessionRow(seed.roomId, seed.generation.GetOr(0), None, None, Some(seed.runtimeId), seed.runtimeSessionId, None,
               SeedCursor(seed).messageSequence, SeedCursor(seed).eventSequence, seed.checkpoint)
  }

  function PendingRow(sid: string, e: Envelope): DeliveryRow {
    DeliveryRow(sid, e.deliverySequence, e.messageSequence, e.attempt, Pending, e.createdAt, None)
  }

  function QueueRows(rows: map<string, DeliveryRow>, sid: string, es: seq<Envelope>): map<string, DeliveryRow> {
    if es == [] then rows
    else QueueRows(rows, sid, es[..|es| - 1])[es[|es| - 1].deliveryId := PendingRow(sid, es[|es| - 1])]
  }

  /** One more session with its deliveries, and its room's counters as the seeded world has them. */
  function AddRows(db: Database, seed: Seed, w: World): Database {
    Database(db.sessions[seed.roomSessionId := SeedRow(seed)],
             QueueRows(db.deliveries, seed.roomSessionId, SortedEnvelopes(seed)),
             db.rooms[seed.roomId := RoomRow(Counter(w.roomMessageSequences, seed.roomId),
                                             Counter(w.roomEventSequences, seed.roomId))],
             db.events, db.log)
  }

  function SeedRows(seeds: seq<Seed>): Database
    requires SeedWorld(seeds).Some?
  {
    if seeds == [] then Database(map[], map[], map[], map[], PublicLog([], []))
    else AddRows(SeedRows(seeds[..|seeds| - 1]), seeds[|seeds| - 1], SeedWorld(seeds).value)
  }

  /** Delivery ids are primary keys: no two seeded sessions share one. */
  ghost predicate DistinctAcross(seeds: seq<Seed>) {
    forall i, j, e, f | 0 <= i < j < |seeds| && e in seeds[i].deliveries && f in seeds[j].deliveries ::
      e.deliveryId != f.deliveryId
  }

  ghost predicate DistinctEnvelopes(es: seq<Envelope>) {
    forall i, j | 0 <= i < j < |es| ::
      es[i].deliveryId != es[j].deliveryId && es[i].deliverySequence < es[j].deliverySequence
  }

  lemma {:induction false} QueueRowsHas(rows: map<string, DeliveryRow>, sid: string, es: seq<Envelope>, k: nat)
    requires DistinctEnvelopes(es) && k < |es|
    ensures es[k].deliveryId in QueueRows(rows, sid, es)
    ensures QueueRows(rows, sid, es)[es[k].deliveryId] == PendingRow(sid, es[k])
  {
    if k < |es| - 1 { QueueRowsHas(rows, sid, es[..|es| - 1], k); }
  }

  lemma {:induction false} QueueRowsElse(rows: map<string, DeliveryRow>, sid: string, es: seq<Envelope>, id: string)
    requires forall i | 0 <= i < |es| :: es[i].deliveryId != id
    ensures id in QueueRows(rows, sid, es) <==> id in rows
    ensures id in rows ==> QueueRows(rows, sid, es)[id] == rows[id]
  {
    if es != [] { QueueRowsElse(rows, sid, es[..|es| - 1], id); }
  }

  /** A row after the addition is a new delivery's or an old row. */
  lemma NewOrOld(rows: map<string, DeliveryRow>, sid: string, es: seq<Envelope>, id: string)
    requires DistinctEnvelopes(es) && id in QueueRows(rows, sid, es)
    ensures (exists k :: 0 <= k < |es| && es[k].deliveryId == id && QueueRows(rows, sid, es)[id] == PendingRow(sid, es[k]))
         || (id in rows && QueueRows(rows, sid, es)[id] == rows[id])
  {
    if k :| 0 <= k < |es| && es[k].deliveryId == id {
      QueueRowsHas(rows, sid, es, k);
    } else {
      QueueRowsElse(rows, sid, es, id);
    }
  }

  lemma SeedEnvelopes(seed: Seed)
    requires ValidSeed(seed)
    ensures DistinctEnvelopes(SortedEnvelopes(seed)) && forall e | e in SortedEnvelopes(seed) :: e in seed.deliveries
  {
    EnvelopesInOrder(seed);
    var es := SortedEnvelopes(seed);
    var key := (e: Envelope) => e.deliveryId;
    hide SortedEnvelopes;
    forall i, j | 0 <= i < j < |es| ensures es[i].deliveryId != es[j].deliveryId { assert key(es[i]) != key(es[j]); }
  }

  // ----- the relation, session by session

  ghost predicate Fresh(db: Database, seed: Seed) {
    && seed.roomSessionId !in db.sessions && db.events == map[]
    && (forall id | id in db.deliveries :: db.deliveries[id].roomSessionId in db.sessions)
    && forall e | e in seed.deliveries :: e.deliveryId !in db.deliveries
  }

  lemma NewQueueAgrees(db: Database, seed: Seed, es: seq<Envelope>)
    requires Fresh(db, seed) && DistinctEnvelopes(es)
    ensures QueueAgrees(QueueRows(db.deliveries, seed.roomSessionId, es), seed.roomSessionId, FreshDeliveries(es))
  {
    var sid, ds, rows := seed.roomSessionId, FreshDeliveries(es), QueueRows(db.deliveries, seed.roomSessionId, es);
    forall i | 0 <= i < |ds| ensures ds[i].envelope.deliveryId in rows && rows[ds[i].envelope.deliveryId] == RowFor(sid, ds[i]) {
      QueueRowsHas(db.deliveries, sid, es, i);
    }
    forall id | id in rows && rows[id].roomSessionId == sid ensures IndexOf(ds, id) < |ds| {
      NewOrOld(db.deliveries, sid, es, id);
      if k :| 0 <= k < |es| && es[k].deliveryId == id { assert ds[k].envelope.deliveryId == id; }
    }
  }

  lemma OldQueueAgrees(db: Database, seed: Seed, es: seq<Envelope>, other: string, ds: seq<Delivery>)
    requires Fresh(db, seed) && DistinctEnvelopes(es) && (forall e | e in es :: e in seed.deliveries)
    requires other != seed.roomSessionId && QueueAgrees(db.deliveries, other, ds)
    ensures QueueAgrees(QueueRows(db.deliveries, seed.roomSessionId, es), other, ds)
  {
    var sid, rows := seed.roomSessionId, QueueRows(db.deliveries, seed.roomSessionId, es);
    forall i | 0 <= i < |ds| ensures ds[i].envelope.deliveryId in rows && rows[ds[i].envelope.deliveryId] == RowFor(other, ds[i]) {
      QueueRowsElse(db.deliveries, sid, es, ds[i].envelope.deliveryId);
    }
    forall id | id in rows && rows[id].roomSessionId == other ensures IndexOf(ds, id) < |ds| {
      NewOrOld(db.deliveries, sid, es, id);
    }
  }

  lemma NothingHappened(sid: string, s: Session)
    requires s.runtimeEvents == map[] && forall i | 0 <= i < |s.deliveries| :: s.deliveries[i].status == Pending
    ensures RuntimeRowsAgree(map[], sid, s) && OutcomeRowsAgree(map[], sid, s)
  {
  }

  lemma SeededRowAgrees(seed: Seed, fallback: Option<string>)
    ensures RowAgrees(SeedRow(seed), SeededSession(seed), fallback)
    ensures SeededSession(seed).deliveries == FreshDeliveries(SortedEnvelopes(seed))
    ensures SeededSession(seed).seed == seed && SeededSession(seed).runtimeEvents == map[]
  {
    hide SortedEnvelopes, FreshDeliveries;
  }

  lemma NewSessionAgrees(db: Database, seed: Seed, w: World, fallback: Option<string>)
    requires Fresh(db, seed) && ValidSeed(seed)
    ensures SessionAgrees(AddRows(db, seed, w), seed.roomSessionId, SeededSession(seed), fallback)
  {
    SeedEnvelopes(seed);
    SeededRowAgrees(seed, fallback);
    NewQueueAgrees(db, seed, SortedEnvelopes(seed));
    NothingHappened(seed.roomSessionId, SeededSession(seed));
    hide SortedEnvelopes, SeededSession, QueueAgrees, RowAgrees, RuntimeRowsAgree, OutcomeRowsAgree, QueueRows;
  }

  lemma OldSessionAgrees(db: Database, seed: Seed, w: World, fallback: Option<string>, other: string, s: Session)
    requires Fresh(db, seed) && ValidSeed(seed) && other != seed.roomSessionId && SessionAgrees(db, other, s, fallback)
    ensures SessionAgrees(AddRows(db, seed, w), other, s, fallback)
  {
    SeedEnvelopes(seed);
    OldQueueAgrees(db, seed, SortedEnvelopes(seed), other, s.deliveries);
    hide SortedEnvelopes, QueueAgrees, RowAgrees, RuntimeRowsAgree, OutcomeRowsAgree, QueueRows;
  }

  lemma CountersMove(w: World, seed: Seed, w': World, rooms: map<string, RoomRow>)
    requires AddSession(w, seed) == Some(w') && RoomsAgree(rooms, w)
    ensures w'.sessions == w.sessions[seed.roomSessionId := SeededSession(seed)]
    ensures RoomsAgree(rooms[seed.roomId := RoomRow(Counter(w'.roomMessageSequences, seed.roomId),
                                                    Counter(w'.roomEventSequences, seed.roomId))], w')
  {
    hide SeededSession, Largest;
  }

  lemma RelatedParts(db: Database, w: World, fallback: Option<string>)
    requires Related(db, w, fallback)
    ensures db.sessions.Keys == w.sessions.Keys && RoomsAgree(db.rooms, w)
    ensures forall sid | sid in w.sessions :: SessionAgrees(db, sid, w.sessions[sid], fallback)
  {
  }

  lemma PartsRelated(db: Database, w: World, fallback: Option<string>)
    requires db.sessions.Keys == w.sessions.Keys && RoomsAgree(db.rooms, w) && db.events == map[]
    requires forall sid | sid in w.sessions :: SessionAgrees(db, sid, w.sessions[sid], fallback)
    ensures Related(db, w, fallback)
  {
    hide SessionAgrees, RoomsAgree;
  }

  lemma AddedRows(db: Database, seed: Seed, w: World)
    ensures
      var db' := AddRows(db, seed, w);
      && db'.sessions.Keys == db.sessions.Keys + {seed.roomSessionId} && db'.events == db.events
      && db'.rooms == db.rooms[seed.roomId := RoomRow(Counter(w.roomMessageSequences, seed.roomId),
                                                      Counter(w.roomEventSequences, seed.roomId))]
  {
    hide SeedRow, QueueRows, Counter;
  }

  lemma FreshParts(db: Database, seed: Seed)
    requires Fresh(db, seed)
    ensures seed.roomSessionId !in db.sessions && db.events == map[]
  {
  }

  lemma AddRelates(db: Database, w: World, seed: Seed, w': World, fallback: Option<string>)
    requires Related(db, w, fallback) && Fresh(db, seed) && ValidSeed(seed) && AddSession(w, seed) == Some(w')
    ensures Related(AddRows(db, seed, w'), w', fallback)
  {
    hide *;
    RelatedParts(db, w, fallback);
    CountersMove(w, seed, w', db.rooms);
    AddedRows(db, seed, w');
    FreshParts(db, seed);
    forall sid | sid in w'.sessions ensures SessionAgrees(AddRows(db, seed, w'), sid, w'.sessions[sid], fallback) {
      if sid == seed.roomSessionId {
        NewSessionAgrees(db, seed, w', fallback);
      } else {
        OldSessionAgrees(db, seed, w', fallback, sid, w.sessions[sid]);
      }
    }
    PartsRelated(AddRows(db, seed, w'), w', fallback);
  }

  lemma AddUnique(db: Database, seed: Seed, w: World)
    requires Fresh(db, seed) && ValidSeed(seed) && UniqueSequences(db)
    ensures UniqueSequences(AddRows(db, seed, w))
    ensures forall id | id in AddRows(db, seed, w).deliveries ::
      AddRows(db, seed, w).deliveries[id].roomSessionId in AddRows(db, seed, w).sessions
  {
    SeedEnvelopes(seed);
    var sid, es, rows := seed.roomSessionId, SortedEnvelopes(seed), AddRows(db, seed, w).deliveries;
    hide SortedEnvelopes, ValidSeed, QueueRows;
    forall id | id in rows ensures rows[id].roomSessionId in AddRows(db, seed, w).sessions { NewOrOld(db.deliveries, sid, es, id); }
    forall a, b | a in rows && b in rows && a != b
      ensures rows[a].roomSessionId != rows[b].roomSessionId || rows[a].deliverySequence != rows[b].deliverySequence
    {
      NewOrOld(db.deliveries, sid, es, a);
      NewOrOld(db.deliveries, sid, es, b);
      if i, j :| 0 <= i < |es| && 0 <= j < |es| && es[i].deliveryId == a && es[j].deliveryId == b { assert i < j || j < i; }
    }
  }

  /** Every row comes from a delivery of one of the seeds. */
  lemma {:induction false} RowsComeFromSeeds(seeds: seq<Seed>, id: string)
    requires SeedWorld(seeds).Some? && (forall seed | seed in seeds :: ValidSeed(seed)) && id in SeedRows(seeds).deliveries
    ensures exists i, e :: 0 <= i < |seeds| && e in seeds[i].deliveries && e.deliveryId == id
  {
    if seeds != [] {
      var front, seed := seeds[..|seeds| - 1], seeds[|seeds| - 1];
      SeedEnvelopes(seed);
      NewOrOld(SeedRows(front).deliveries, seed.roomSessionId, SortedEnvelopes(seed), id);
      if k :| 0 <= k < |SortedEnvelopes(seed)| && SortedEnvelopes(seed)[k].deliveryId == id {
        assert SortedEnvelopes(seed)[k] in seeds[|seeds| - 1].deliveries;
      } else {
        RowsComeFromSeeds(front, id);
        var i, e :| 0 <= i < |front| && e in front[i].deliveries && e.deliveryId == id;
        assert e in seeds[i].deliveries;
      }
    }
  }

  lemma FrontDiffers(seeds: seq<Seed>, front: seq<Seed>, e: Envelope)
    requires seeds != [] && front == seeds[..|seeds| - 1] && DistinctAcross(seeds) && e in seeds[|seeds| - 1].deliveries
    ensures forall i, f | 0 <= i < |front| && f in front[i].deliveries :: f.deliveryId != e.deliveryId
  {
    forall i, f | 0 <= i < |front| && f in front[i].deliveries ensures f.deliveryId != e.deliveryId {
      assert f in seeds[i].deliveries;
    }
  }

  lemma NextIsFresh(seeds: seq<Seed>, db: Database)
    requires seeds != [] && SeedWorld(seeds).Some? && DistinctAcross(seeds) && (forall seed | seed in seeds :: ValidSeed(seed))
    requires db == SeedRows(seeds[..|seeds| - 1]) && db.events == map[] && db.sessions.Keys == SeedWorld(seeds[..|seeds| - 1]).value.sessions.Keys
    requires forall id | id in db.deliveries :: db.deliveries[id].roomSessionId in db.sessions
    ensures Fresh(db, seeds[|seeds| - 1])
  {
    var front, seed := seeds[..|seeds| - 1], seeds[|seeds| - 1];
    hide ValidSeed, SeedRows, SeededSession, DistinctAcross;
    forall e | e in seed.deliveries ensures e.deliveryId !in db.deliveries {
      FrontDiffers(seeds, front, e);
      if e.deliveryId in db.deliveries { RowsComeFromSeeds(front, e.deliveryId); }
    }
  }

  /** The rows of the seeds and the store seeded with them are related, and the unique index holds. */
  lemma {:induction false} SeededRowsRelate(seeds: seq<Seed>, fallback: Option<string>)
    requires SeedWorld(seeds).Some? && DistinctAcross(seeds) && forall seed | seed in seeds :: ValidSeed(seed)
    ensures
      var db := SeedRows(seeds);
      && Related(db, SeedWorld(seeds).value, fallback) && UniqueSequences(db) && db.events == map[]
      && forall id | id in db.deliveries :: db.deliveries[id].roomSessionId in db.sessions
  {
    if seeds != [] {
      var front, seed := seeds[..|seeds| - 1], seeds[|seeds| - 1];
      hide Related, UniqueSequences, AddSession, ValidSeed, AddRows;
      SeededRowsRelate(front, fallback);
      var db, w, w' := SeedRows(front), SeedWorld(front).value, SeedWorld(seeds).value;
      RelatedParts(db, w, fallback);
      NextIsFresh(seeds, db);
      AddRelates(db, w, seed, w', fallback);
      AddUnique(db, seed, w');
      AddedRows(db, seed, w');
    }
  }

  /**
   * Seeded alike, and after any calls with any leases and clocks, the durable and
   * the process-local store stand alike in every session.
   */
  lemma SeededStoresAgree(seeds: seq<Seed>, fallback: Option<string>, ops: seq<Operation>, sid: string)
    requires SeedWorld(seeds).Some? && DistinctAcross(seeds) && forall seed | seed in seeds :: ValidSeed(seed)
    requires sid in SeedWorld(seeds).value.sessions && forall op | op in ops :: Accepted(op)
    ensures SameStanding(SqlRun(SeedRows(seeds), fallback, ops), Run(SeedWorld(seeds).value, ops), sid)
  {
    hide Related, ValidSeed, SameStanding, Accepted, SeedRows, DistinctAcross, SqlRun;
    SeededRowsRelate(seeds, fallback);
    assert Run(SeedWorld(seeds).value, []) == SeedWorld(seeds).value;
    assert Reached(seeds, [], SeedWorld(seeds).value);
    StoresAgree(seeds, [], SeedWorld(seeds).value, SeedRows(seeds), fallback, ops, sid);
  }
}
