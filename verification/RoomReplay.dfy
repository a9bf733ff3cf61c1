/**
 * Repeated finishes in the durable store: it remembers under which generation a
 * delivery was finished and with what, and tells an exact repetition from a
 * changed one for as long as it lives.
 */
module RoomReplay {
  import opened Prelude
  import opened RoomProtocol
  import opened RoomInvariants
  import opened RoomGuarantees
  import opened RoomSqlStore
  import opened RoomRefinement
  import opened RoomSeeds
  import opened RoomHistory
  import opened RoomRecall

  /** No event once stored is ever changed. */
  ghost predicate EventsKept(db: Database, db': Database) {
    forall key | key in db.events :: key in db'.events && db'.events[key] == db.events[key]
  }

  lemma StoreKeepsEvents(db: Database, roomId: string, lease: Lease, event: RuntimeEvent)
    ensures EventsKept(db, AppendRuntime(db, roomId, lease, event).0)
  {
  }

  lemma RequeueKeepsEvents(db: Database, lease: Lease, failure: Failure, checkpoint: Option<Checkpoint>, availableAt: int)
    requires lease.roomSessionId in db.sessions && lease.deliveryId in db.deliveries
    ensures EventsKept(db, SqlRequeue(db, lease, failure, checkpoint, availableAt).0)
  {
  }

  lemma RetryKeepsEvents(db: Database, op: Operation)
    requires op.Retry?
    ensures EventsKept(db, SqlRetry(db, op.lease, op.failure, op.failedBy, op.checkpoint, op.availableAt, op.now).0)
  {
    hide SessionFence, SameStored, EndsDelivery, AppendRuntime, SqlRequeue;
    if RowOwned(db, op.lease, op.now) {
      if op.failedBy.Some? {
        StoreKeepsEvents(db, db.sessions[op.lease.roomSessionId].roomId, op.lease, op.failedBy.value);
        RowsStay(db, db.sessions[op.lease.roomSessionId].roomId, op.lease, op.failedBy.value);
        RequeueKeepsEvents(AppendRuntime(db, db.sessions[op.lease.roomSessionId].roomId, op.lease, op.failedBy.value).0,
                           op.lease, op.failure, op.checkpoint, op.availableAt);
      }
      RequeueKeepsEvents(db, op.lease, op.failure, op.checkpoint, op.availableAt);
    }
  }

  lemma RowsStay(db: Database, roomId: string, lease: Lease, event: RuntimeEvent)
    ensures
      var db' := AppendRuntime(db, roomId, lease, event).0;
      db'.sessions == db.sessions && db'.deliveries == db.deliveries
  {
  }

  lemma FinishKeepsEvents(db: Database, op: Operation)
    requires op.Finish?
    ensures EventsKept(db, SqlFinish(db, op.lease, op.terminal, op.output, op.checkpoint, op.now).0)
  {
    hide SessionFence, SameCommit, EndsDelivery, FinishAnnounces;
  }

  lemma OwnedHasRows(db: Database, lease: Lease, now: int)
    requires RowOwned(db, lease, now)
    ensures lease.roomSessionId in db.sessions && lease.deliveryId in db.deliveries
  {
  }

  lemma OtherKeepsEvents(db: Database, fallback: Option<string>, op: Operation)
    requires !op.Retry? && !op.Finish?
    ensures EventsKept(db, SqlApply(db, fallback, op).0)
  {
    if op.AppendEvent? {
      hide SqlRetry, SqlFinish, SqlClaim, SessionFence, EndsDelivery, RowOwned, AppendRuntime;
      if RowOwned(db, op.lease, op.now) { OwnedHasRows(db, op.lease, op.now); }
      if op.lease.roomSessionId in db.sessions {
        StoreKeepsEvents(db, db.sessions[op.lease.roomSessionId].roomId, op.lease, op.event);
      }
    } else {
      hide SqlRetry, SqlFinish, SqlAppend, SessionFence, RowOwned;
    }
  }

  lemma ApplyKeepsEvents(db: Database, fallback: Option<string>, op: Operation)
    ensures EventsKept(db, SqlApply(db, fallback, op).0)
  {
    hide EventsKept, SqlRetry, SqlFinish, SqlClaim, SqlHeartbeat, SqlBind, SqlAppend, SqlPersist;
    if op.Retry? { RetryKeepsEvents(db, op); }
    else if op.Finish? { FinishKeepsEvents(db, op); }
    else { OtherKeepsEvents(db, fallback, op); }
  }

  lemma {:induction false} RunKeepsEvents(db: Database, fallback: Option<string>, ops: seq<Operation>)
    ensures EventsKept(db, SqlRun(db, fallback, ops))
    decreases |ops|
  {
    hide SqlApply;
    if ops != [] {
      ApplyKeepsEvents(db, fallback, ops[0]);
      RunKeepsEvents(SqlApply(db, fallback, ops[0]).0, fallback, ops[1..]);
    }
  }

  /** The same generation, terminal fact and checkpoint, and the same output where it was published. */
  predicate SameFinish(first: Operation, again: Operation)
    requires first.Finish? && again.Finish?
  {
    && again.lease.generation == first.lease.generation && again.terminal == first.terminal
    && again.checkpoint == first.checkpoint
    && (first.terminal.ByRuntime? && first.terminal.event.payload.DeliveryCompleted? ==> again.output == first.output)
  }

  lemma FinishStores(db: Database, op: Operation)
    requires op.Finish? && SqlFinish(db, op.lease, op.terminal, op.output, op.checkpoint, op.now).1.DeliveryFinished?
    ensures
      var events := SqlFinish(db, op.lease, op.terminal, op.output, op.checkpoint, op.now).0.events;
      var key := TerminalRowId(op.lease.roomSessionId, op.lease.deliveryId);
      key in events && events[key].TerminalRow? && events[key].generation == op.lease.generation
      && events[key].commit == Commit(op.checkpoint, Effective(op.terminal, op.output), op.terminal)
  {
    hide RowOwned, EndsDelivery, FinishAnnounces, Effective;
  }

  /**
   * After a finish was accepted, every later finish of that delivery, under whatever
   * lease and however late, changes nothing and is answered as a duplicate exactly
   * when it repeats the accepted one, and otherwise as changed.
   */
  lemma DurableFinishReplay(db: Database, fallback: Option<string>, first: Operation, more: seq<Operation>, again: Operation)
    requires first.Finish? && SqlApply(db, fallback, first).1.DeliveryFinished?
    requires again.Finish? && again.lease.roomSessionId == first.lease.roomSessionId
    requires again.lease.deliveryId == first.lease.deliveryId
    ensures
      var later := SqlRun(SqlApply(db, fallback, first).0, fallback, more);
      SqlApply(later, fallback, again) == (later, if SameFinish(first, again) then DeliveryDuplicate else TerminalChanged)
  {
    ApplyIs(db, fallback, first);
    var db1 := SqlApply(db, fallback, first).0;
    var later := SqlRun(db1, fallback, more);
    ApplyIs(later, fallback, again);
    hide SqlApply, SqlRun, RowOwned, EndsDelivery, FinishAnnounces;
    FinishStores(db, first);
    RunKeepsEvents(db1, fallback, more);
  }

  // ----- and no finish is answered so unless one was accepted before

  /** A finish of this delivery that the run accepted. */
  ghost predicate AcceptedFinish(db: Database, fallback: Option<string>, ops: seq<Operation>, i: nat, sid: string, id: string) {
    && i < |ops| && ops[i].Finish? && ops[i].lease.roomSessionId == sid && ops[i].lease.deliveryId == id
    && SqlApply(SqlRun(db, fallback, ops[..i]), fallback, ops[i]).1.DeliveryFinished?
  }

  lemma TerminalRowsGrow(db: Database, fallback: Option<string>, op: Operation, key: RowId)
    requires key.TerminalRowId? && key !in db.events && key in SqlApply(db, fallback, op).0.events
    ensures op.Finish? && op.lease.roomSessionId == key.roomSessionId && op.lease.deliveryId == key.deliveryId
    ensures SqlApply(db, fallback, op).1.DeliveryFinished?
  {
    ApplyIs(db, fallback, op);
    if op.Retry? {
      hide SqlApply, SqlFinish, RowOwned, SameStored, EndsDelivery;
    } else if op.Finish? {
      hide SqlApply, SqlRetry, RowOwned, SameCommit, EndsDelivery, FinishAnnounces;
    } else {
      hide SqlRetry, SqlFinish, RowOwned, SameStored, EndsDelivery, Lapsed;
    }
  }

  lemma RunSplits(db: Database, fallback: Option<string>, ops: seq<Operation>)
    requires ops != []
    ensures SqlRun(db, fallback, ops)
              == SqlApply(SqlRun(db, fallback, ops[..|ops| - 1]), fallback, ops[|ops| - 1]).0
    decreases |ops|
  {
    hide SqlApply;
    if |ops| == 1 {
      assert ops[1..] == [] && ops[..0] == [];
    } else {
      assert ops[1..][..|ops| - 2] == ops[..|ops| - 1][1..];
      RunSplits(SqlApply(db, fallback, ops[0]).0, fallback, ops[1..]);
    }
  }

  lemma {:induction false} TerminalRowsAreFinishes(db: Database, fallback: Option<string>, ops: seq<Operation>, sid: string, id: string)
    requires TerminalRowId(sid, id) !in db.events && TerminalRowId(sid, id) in SqlRun(db, fallback, ops).events
    ensures exists i: nat :: AcceptedFinish(db, fallback, ops, i, sid, id)
    decreases |ops|
  {
    hide SqlApply;
    if ops != [] {
      var front := ops[..|ops| - 1];
      RunSplits(db, fallback, ops);
      if TerminalRowId(sid, id) in SqlRun(db, fallback, front).events {
        TerminalRowsAreFinishes(db, fallback, front, sid, id);
        var i: nat :| AcceptedFinish(db, fallback, front, i, sid, id);
        assert front[..i] == ops[..i];
        assert AcceptedFinish(db, fallback, ops, i, sid, id);
      } else {
        TerminalRowsGrow(SqlRun(db, fallback, front), fallback, ops[|ops| - 1], TerminalRowId(sid, id));
        assert AcceptedFinish(db, fallback, ops, |ops| - 1, sid, id);
      }
    }
  }

  lemma DuplicateHasRow(db: Database, op: Operation)
    requires op.Finish?
    ensures
      var r := SqlFinish(db, op.lease, op.terminal, op.output, op.checkpoint, op.now).1;
      r.DeliveryDuplicate? || r.TerminalChanged? <==> TerminalRowId(op.lease.roomSessionId, op.lease.deliveryId) in db.events
  {
    hide RowOwned, SameCommit, EndsDelivery, FinishAnnounces;
  }

  lemma {:induction false} SeededWithoutEvents(seeds: seq<Seed>)
    requires SeedWorld(seeds).Some?
    ensures SeedRows(seeds).events == map[]
  {
    if seeds != [] {
      SeededWithoutEvents(seeds[..|seeds| - 1]);
      hide SeedRow, QueueRows;
    }
  }

  /**
   * From any seeds, a finish is answered as a repetition, exact or changed, exactly
   * when the run has accepted a finish of that delivery.
   */
  lemma RepeatsAreToldIff(seeds: seq<Seed>, fallback: Option<string>, ops: seq<Operation>, again: Operation)
    requires SeedWorld(seeds).Some? && again.Finish?
    ensures
      var db := SeedRows(seeds);
      var r := SqlApply(SqlRun(db, fallback, ops), fallback, again).1;
      r.DeliveryDuplicate? || r.TerminalChanged? <==>
        exists i: nat :: AcceptedFinish(db, fallback, ops, i, again.lease.roomSessionId, again.lease.deliveryId)
  {
    var (db, sid, id) := (SeedRows(seeds), again.lease.roomSessionId, again.lease.deliveryId);
    var later := SqlRun(db, fallback, ops);
    SeededWithoutEvents(seeds);
    ApplyIs(later, fallback, again);
    DuplicateHasRow(later, again);
    hide SqlApply, SqlFinish, SeedRows;
    if TerminalRowId(sid, id) in later.events {
      TerminalRowsAreFinishes(db, fallback, ops, sid, id);
    }
    forall i: nat | AcceptedFinish(db, fallback, ops, i, sid, id) ensures TerminalRowId(sid, id) in later.events {
      FinishLeavesRow(db, fallback, ops, i);
    }
  }

  lemma FinishLeavesRow(db: Database, fallback: Option<string>, ops: seq<Operation>, i: nat)
    requires i < |ops| && ops[i].Finish?
    requires SqlApply(SqlRun(db, fallback, ops[..i]), fallback, ops[i]).1.DeliveryFinished?
    ensures TerminalRowId(ops[i].lease.roomSessionId, ops[i].lease.deliveryId) in SqlRun(db, fallback, ops).events
  {
    var before := SqlRun(db, fallback, ops[..i]);
    ApplyIs(before, fallback, ops[i]);
    hide SqlApply, SqlFinish, SqlRun;
    FinishStores(before, ops[i]);
    RunKeepsEvents(SqlApply(before, fallback, ops[i]).0, fallback, ops[i + 1..]);
    RunGoesOn(db, fallback, ops, i);
  }

  lemma {:induction false} RunGoesOn(db: Database, fallback: Option<string>, ops: seq<Operation>, i: nat)
    requires i < |ops|
    ensures SqlRun(db, fallback, ops) == SqlRun(SqlApply(SqlRun(db, fallback, ops[..i]), fallback, ops[i]).0, fallback, ops[i + 1..])
    decreases i
  {
    hide SqlApply;
    if i == 0 {
      assert ops[..0] == [];
    } else {
      assert ops[..i][1..] == ops[1..][..i - 1] && ops[1..][i..] == ops[i + 1..];
      RunGoesOn(SqlApply(db, fallback, ops[0]).0, fallback, ops[1..], i - 1);
    }
  }

  // ----- the events a call may carry

  /** A completion or an error: the two kinds of runtime event that end a delivery. */
  predicate Ends(event: RuntimeEvent) {
    event.payload.DeliveryCompleted? || event.payload.RuntimeError?
  }

  /** An append must not carry an event that ends its delivery; a finish or a retry must not carry any other. */
  predicate WrongKind(op: Operation) {
    match op
    case AppendEvent(_, event, _) => Ends(event)
    case Finish(_, terminal, _, _, _) => terminal.ByRuntime? && !Ends(terminal.event)
    case Retry(_, _, failedBy, _, _, _) => failedBy.Some? && !Ends(failedBy.value)
    case _ => false
  }

  lemma WrongKindChangesNothing(db: Database, fallback: Option<string>, op: Operation)
    requires WrongKind(op)
    ensures
      var (db', r) := SqlApply(db, fallback, op);
      db' == db && !r.EventAppended? && !r.DeliveryFinished? && !r.DeliveryRetried?
  {
    hide RowOwned, SameStored, SameCommit, FinishAnnounces, SqlRequeue;
    ApplyIs(db, fallback, op);
  }

  lemma AcceptedIff(op: Operation)
    ensures Accepted(op) <==> !WrongKind(op)
  {
  }

  lemma NotBroken(r: Reply, r': SqlReply)
    requires SameReply(r, r')
    ensures !r'.Broken?
  {
    hide SameGrant;
  }

  lemma SettledIsAnswered(db: Database, w: World, fallback: Option<string>, op: Operation)
    requires Related(db, w, fallback) && AnswersMayDiffer(w, op)
    ensures !SqlApply(db, fallback, op).1.Broken?
  {
    InRelation(db, w, fallback, op.lease.roomSessionId);
    ApplyIs(db, fallback, op);
    hide Related, RowAgrees, QueueAgrees, RuntimeRowsAgree, SettledIn, RowOwned, FinishAnnounces, SqlApply;
  }

  /**
   * In every run of calls with events of the right kinds no call breaks; and a call
   * that carries an event of the wrong kind changes nothing and is never taken.
   */
  lemma OnlyWrongKindsBreak(seeds: seq<Seed>, fallback: Option<string>, ops: seq<Operation>, op: Operation)
    requires SeedWorld(seeds).Some? && DistinctAcross(seeds) && forall seed | seed in seeds :: ValidSeed(seed)
    requires forall before | before in ops :: !WrongKind(before)
    ensures
      var db := SqlRun(SeedRows(seeds), fallback, ops);
      var (db', r) := SqlApply(db, fallback, op);
      && (r.Broken? ==> WrongKind(op))
      && (WrongKind(op) ==> db' == db && !r.EventAppended? && !r.DeliveryFinished? && !r.DeliveryRetried?)
  {
    var w0 := SeedWorld(seeds).value;
    SeedWorldInv(seeds);
    hide *;
    var db := SqlRun(SeedRows(seeds), fallback, ops);
    if WrongKind(op) {
      WrongKindChangesNothing(db, fallback, op);
    } else {
      forall before | before in ops ensures Accepted(before) { AcceptedIff(before); }
      AcceptedIff(op);
      SeededRowsRelate(seeds, fallback);
      RunRefines(SeedRows(seeds), w0, w0.roomEventSequences, fallback, ops);
      RunKeeps(w0, w0.roomEventSequences, ops);
      var w := Run(w0, ops);
      StepRefines(db, w, w0.roomEventSequences, fallback, op);
      if AnswersMayDiffer(w, op) {
        SettledIsAnswered(db, w, fallback, op);
      } else {
        NotBroken(Apply(w, op).1, SqlApply(db, fallback, op).1);
      }
    }
  }

  /**
   * The durable store, too, answers from the history alone: what it tells a caller
   * is what the calls before leave open, apart from finishes of settled deliveries,
   * which it answers as above.
   */
  lemma DurableAnswersFollow(seeds: seq<Seed>, fallback: Option<string>, ops: seq<Operation>, op: Operation)
    requires SeedWorld(seeds).Some? && DistinctAcross(seeds) && forall seed | seed in seeds :: ValidSeed(seed)
    requires (forall before | before in ops :: !WrongKind(before)) && !WrongKind(op)
    ensures
      var start := SeedWorld(seeds).value;
      var p := Trace(start, ops);
      || (op.Finish? && op.lease.deliveryId in Terminals(p, op.lease.roomSessionId))
      || exists r :: Owed(start, p, op, r) && SameReply(r, SqlApply(SqlRun(SeedRows(seeds), fallback, ops), fallback, op).1)
  {
    var w0 := SeedWorld(seeds).value;
    SeedWorldInv(seeds);
    assert Reached(seeds, ops, Run(w0, ops)) by { hide Run, ValidSeed, SeedWorld; }
    hide *;
    var (w, base, p) := (Run(w0, ops), w0.roomEventSequences, Trace(w0, ops));
    forall before | before in ops ensures Accepted(before) { AcceptedIff(before); }
    AcceptedIff(op);
    SeededRowsRelate(seeds, fallback);
    RunRefines(SeedRows(seeds), w0, base, fallback, ops);
    RunKeeps(w0, base, ops);
    StepRefines(SqlRun(SeedRows(seeds), fallback, ops), w, base, fallback, op);
    EveryAnswerFollows(seeds, ops, w, op);
    if AnswersMayDiffer(w, op) {
      RunRemembers(seeds, ops);
      SettledIsTold(w0, p, w, op);
    } else {
      assert Owed(w0, p, op, Apply(w, op).1);
    }
  }

  lemma SettledIsTold(start: World, p: Past, w: World, op: Operation)
    requires Remembers(start, p, w) && AnswersMayDiffer(w, op)
    ensures op.Finish? && op.lease.deliveryId in Terminals(p, op.lease.roomSessionId)
  {
    var sid := op.lease.roomSessionId;
    RecallOf(start, p, w, sid);
    var ds := w.sessions[sid].deliveries;
    RecallsId(p, sid, w.sessions[sid], IndexOf(ds, op.lease.deliveryId));
    hide Remembers, RecallsHolder, RecallsRuntime, RecallsQueue, RecallsEvents, RecallsSettled, RecallsCursor, IndexOf, Terminals;
  }
}
