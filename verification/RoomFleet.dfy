/**
 * Any number of workers serving the sessions of one store. The store performs what
 * the workers ask for, at any later time and in any order; a worker learns of a
 * grant at any time after the store made it.
 */
module RoomFleet {
  import opened Prelude
  import opened Sorting
  import opened RoomProtocol
  import opened RoomInvariants
  import opened RoomGuarantees
  import opened RoomLedger
  import opened Host

  /** `granted` are the claims whose answers are still on their way to a worker. */
  datatype Fleet = Fleet(world: World, hosts: seq<HostState>, granted: set<Grant>)

  datatype Event =
    | HostTask(host: nat, task: Task)
    | StoreCall(op: Operation)
    | SettleCall(host: nat, call: nat, op: Operation)

  function NewFleet(w: World, limits: seq<nat>): Fleet {
    Fleet(w, seq(|limits|, i requires 0 <= i < |limits| => NewHost(limits[i])), {})
  }

  /** The operation is the settling call of this number that the worker has issued. */
  predicate Carries(h: HostState, k: nat, op: Operation) {
    && k < |h.calls| && h.calls[k].claim in h.servings
    && match h.calls[k]
       case FinishCall(claim) => op.Finish? && op.lease == h.servings[claim].grant.lease
       case RetryCall(claim, interrupted) =>
         op.Retry? && op.lease == h.servings[claim].grant.lease && (interrupted ==> op.failedBy.None?)
  }

  /** What the event makes the store do: a worker settles only through the calls it has issued. */
  function OpOf(f: Fleet, e: Event): Option<Operation> {
    match e
    case HostTask(_, _) => None
    case StoreCall(op) => if op.Finish? || op.Retry? then None else Some(op)
    case SettleCall(i, k, op) => if i < |f.hosts| && Carries(f.hosts[i], k, op) then Some(op) else None
  }

  function GrantOf(reply: Reply): set<Grant> {
    if reply.Granted? then {Grant(reply.grant.lease, reply.grant.delivery.attempt)} else {}
  }

  function Perform(f: Fleet, op: Operation): Fleet {
    f.(world := Apply(f.world, op).0, granted := f.granted + GrantOf(Apply(f.world, op).1))
  }

  /** A worker hears only of claims the store has granted. */
  predicate Heard(f: Fleet, t: Task) {
    t.ClaimReturned? && t.granted.Some? ==> t.granted.value in f.granted
  }

  function FleetStep(f: Fleet, e: Event, max: nat): Fleet {
    if e.HostTask? then
      if e.host < |f.hosts| && Heard(f, e.task)
      then f.(hosts := f.hosts[e.host := Step(f.hosts[e.host], e.task, max)],
              granted := if e.task.ClaimReturned? && e.task.granted.Some? then f.granted - {e.task.granted.value} else f.granted)
      else f
    else
      match OpOf(f, e)
      case None => f
      case Some(op) => Perform(f, op)
  }

  function FleetRun(f: Fleet, es: seq<Event>, max: nat): Fleet
    decreases |es|
  {
    if es == [] then f else FleetRun(FleetStep(f, es[0], max), es[1..], max)
  }

  function OpsOf(f: Fleet, es: seq<Event>, max: nat): seq<Operation>
    decreases |es|
  {
    if es == [] then []
    else (if OpOf(f, es[0]).Some? then [OpOf(f, es[0]).value] else []) + OpsOf(FleetStep(f, es[0], max), es[1..], max)
  }

  lemma StepPerforms(f: Fleet, e: Event, max: nat)
    ensures FleetStep(f, e, max).world == if OpOf(f, e).Some? then Apply(f.world, OpOf(f, e).value).0 else f.world
  {
    hide Apply, Step, Carries;
  }

  lemma {:induction false} WorldFollows(f: Fleet, es: seq<Event>, max: nat)
    ensures FleetRun(f, es, max).world == Run(f.world, OpsOf(f, es, max))
    decreases |es|
  {
    hide OpOf, Apply, FleetStep;
    if es != [] {
      var f' := FleetStep(f, es[0], max);
      var ops := OpsOf(f', es[1..], max);
      WorldFollows(f', es[1..], max);
      StepPerforms(f, es[0], max);
      if OpOf(f, es[0]).Some? {
        assert ([OpOf(f, es[0]).value] + ops)[1..] == ops;
      } else {
        assert [] + ops == ops;
      }
    }
  }

  // ----- what a worker remembers of its claim stays true for as long as its lease does

  ghost predicate Holds(w: World, g: Grant) {
    && g.lease.roomSessionId in w.sessions
    && var s := w.sessions[g.lease.roomSessionId];
    && g.lease.generation <= s.generation
    && (g.lease.generation == s.generation && s.currentDeliveryId == Some(g.lease.deliveryId) ==>
          var k := IndexOf(s.deliveries, g.lease.deliveryId);
          k < |s.deliveries| && s.deliveries[k].envelope.attempt == g.attempt)
  }

  /** A session later on: under the same generation either nothing is served, or the same delivery of the same queue. */
  ghost predicate Later(s: Session, s': Session) {
    && s.generation <= s'.generation
    && (s'.generation == s.generation && s'.currentDeliveryId.Some? ==>
          s'.currentDeliveryId == s.currentDeliveryId && s'.deliveries == s.deliveries)
  }

  lemma FinishIsLater(w: World, op: Operation, sid: string)
    requires sid in w.sessions && op.Finish?
    ensures sid in Apply(w, op).0.sessions && Later(w.sessions[sid], Apply(w, op).0.sessions[sid])
  {
    hide Owned, IndexOf, AlreadyFinished, ArtifactOf;
  }

  lemma CommitIsLater(w: World, lease: Lease, k: nat, failure: Failure, checkpoint: Option<Checkpoint>, availableAt: int,
                      now: int, sid: string)
    requires sid in w.sessions && lease.roomSessionId in w.sessions && k < |w.sessions[lease.roomSessionId].deliveries|
    ensures
      var w' := CommitRetry(w, lease, k, failure, checkpoint, availableAt, now);
      sid in w'.sessions && Later(w.sessions[sid], w'.sessions[sid])
  {
    hide ArtifactOf;
  }

  lemma AppendIsLater(w: World, lease: Lease, event: RuntimeEvent, now: int, sid: string)
    requires sid in w.sessions
    ensures
      var w' := DoAppend(w, lease, event, now).0;
      && sid in w'.sessions && w'.sessions[sid].generation == w.sessions[sid].generation
      && w'.sessions[sid].currentDeliveryId == w.sessions[sid].currentDeliveryId
      && w'.sessions[sid].deliveries == w.sessions[sid].deliveries
      && w'.sessions.Keys == w.sessions.Keys
  {
  }

  lemma RetryIsLater(w: World, op: Operation, sid: string)
    requires sid in w.sessions && op.Retry?
    ensures sid in Apply(w, op).0.sessions && Later(w.sessions[sid], Apply(w, op).0.sessions[sid])
  {
    hide CommitRetry, IndexOf, DoAppend;
    if Owned(w, op.lease, op.now) {
      var k := IndexOf(w.sessions[op.lease.roomSessionId].deliveries, op.lease.deliveryId);
      if k < |w.sessions[op.lease.roomSessionId].deliveries| {
        hide Owned;
        if op.failedBy.Some? {
          AppendIsLater(w, op.lease, op.failedBy.value, op.now, sid);
          AppendIsLater(w, op.lease, op.failedBy.value, op.now, op.lease.roomSessionId);
          CommitIsLater(DoAppend(w, op.lease, op.failedBy.value, op.now).0, op.lease, k, op.failure, op.checkpoint,
                        op.availableAt, op.now, sid);
        } else {
          CommitIsLater(w, op.lease, k, op.failure, op.checkpoint, op.availableAt, op.now, sid);
        }
      }
    }
  }

  lemma ApplyIsLater(w: World, op: Operation, sid: string)
    requires sid in w.sessions
    ensures sid in Apply(w, op).0.sessions && Later(w.sessions[sid], Apply(w, op).0.sessions[sid])
  {
    hide DoFinish, DoRetry, DoAppend, Owned, FirstOpen, Claimable;
    match op
    case Finish(_, _, _, _, _) => FinishIsLater(w, op, sid);
    case Retry(_, _, _, _, _, _) => RetryIsLater(w, op, sid);
    case AppendEvent(lease, event, now) => AppendIsLater(w, lease, event, now, sid);
    case _ =>
  }

  lemma HoldsOn(w: World, op: Operation, g: Grant)
    requires Holds(w, g)
    ensures Holds(Apply(w, op).0, g)
  {
    hide Apply, IndexOf;
    ApplyIsLater(w, op, g.lease.roomSessionId);
  }

  lemma GrantHolds(w: World, base: map<string, nat>, op: Operation, g: Grant)
    requires WorldInv(w, base) && g in GrantOf(Apply(w, op).1)
    ensures Holds(Apply(w, op).0, g)
  {
    OnlyClaimsGrant(w, op);
    var sid := op.roomSessionId;
    InStore(w, base, sid);
    DistinctInQueue(w, base, sid);
    var (ds, k) := (w.sessions[sid].deliveries, FirstOpen(w.sessions[sid].deliveries));
    SameIds(ds, k, Apply(w, op).0.sessions[sid].deliveries[k]);
    hide WorldInv, DistinctIds, IndexOf, FirstOpen, Claimable;
  }

  lemma OnlyClaimsGrant(w: World, op: Operation)
    requires Apply(w, op).1.Granted?
    ensures op.Claim? && CanClaim(w, op.roomSessionId, op.runtimeId, op.now)
  {
    hide Owned, IndexOf, AlreadyFinished, CanClaim, CommitRetry, FinishSession;
  }

  // ----- the fleet's invariant

  ghost predicate HostKnows(w: World, h: HostState, max: nat) {
    HostSound(h) && RetriesBelow(h, max) && forall claim | claim in h.servings :: Holds(w, h.servings[claim].grant)
  }

  ghost predicate FleetSound(f: Fleet, base: map<string, nat>, max: nat) {
    && WorldInv(f.world, base)
    && (forall i | 0 <= i < |f.hosts| :: HostKnows(f.world, f.hosts[i], max))
    && forall g | g in f.granted :: Holds(f.world, g)
  }

  lemma KnowsOn(w: World, op: Operation, h: HostState, max: nat)
    requires HostKnows(w, h, max)
    ensures HostKnows(Apply(w, op).0, h, max)
  {
    hide Apply, Holds, HostSound, RetriesBelow;
    forall claim | claim in h.servings ensures Holds(Apply(w, op).0, h.servings[claim].grant) {
      HoldsOn(w, op, h.servings[claim].grant);
    }
  }

  lemma PerformKeeps(f: Fleet, base: map<string, nat>, op: Operation, max: nat)
    requires FleetSound(f, base, max)
    ensures FleetSound(Perform(f, op), base, max)
  {
    hide Apply, WorldInv, Holds, HostKnows, GrantOf;
    ApplyKeeps(f.world, base, op);
    forall i | 0 <= i < |f.hosts| ensures HostKnows(Apply(f.world, op).0, f.hosts[i], max) {
      KnowsOn(f.world, op, f.hosts[i], max);
    }
    forall g | g in f.granted ensures Holds(Apply(f.world, op).0, g) { HoldsOn(f.world, op, g); }
    forall g | g in GrantOf(Apply(f.world, op).1) ensures Holds(Apply(f.world, op).0, g) { GrantHolds(f.world, base, op, g); }
  }

  lemma AnswerLearnt(h: HostState, granted: Option<Grant>, registered: bool, claim: nat)
    requires h.poll.Claiming? && claim in ClaimAnswered(h, granted, registered).servings
    ensures claim in h.servings || granted == Some(ClaimAnswered(h, granted, registered).servings[claim].grant)
  {
  }

  /** Every claim of a worker after a task is one it had, or the one it has just heard of. */
  lemma LearnsOne(h: HostState, t: Task, max: nat, claim: nat)
    requires HostSound(h) && claim in Step(h, t, max).servings
    ensures (claim in h.servings && Step(h, t, max).servings[claim].grant == h.servings[claim].grant)
            || (t.ClaimReturned? && t.granted == Some(Step(h, t, max).servings[claim].grant))
  {
    StepGrants(h, t, max);
    if t.ClaimReturned? && h.poll.Claiming? { AnswerLearnt(h, t.granted, t.registered, claim); }
    hide HostSound, ClaimAnswered, Settle, Left, InterruptAllBut, MaySettle, Retries;
  }

  lemma TaskKeeps(w: World, h: HostState, t: Task, max: nat)
    requires HostKnows(w, h, max)
    requires t.ClaimReturned? && t.granted.Some? ==> Holds(w, t.granted.value)
    ensures HostKnows(w, Step(h, t, max), max)
  {
    hide HostSound, RetriesBelow, Step, Holds;
    StepKeeps(h, t, max);
    StepBelow(h, t, max);
    forall claim | claim in Step(h, t, max).servings ensures Holds(w, Step(h, t, max).servings[claim].grant) {
      LearnsOne(h, t, max, claim);
    }
  }

  lemma FleetStepKeeps(f: Fleet, base: map<string, nat>, e: Event, max: nat)
    requires FleetSound(f, base, max)
    ensures FleetSound(FleetStep(f, e, max), base, max)
  {
    hide WorldInv, HostKnows, Holds, Perform, OpOf, Step;
    if e.HostTask? {
      if e.host < |f.hosts| && Heard(f, e.task) { TaskKeeps(f.world, f.hosts[e.host], e.task, max); }
    } else if OpOf(f, e).Some? {
      hide FleetSound;
      PerformKeeps(f, base, OpOf(f, e).value, max);
    }
  }

  lemma NewFleetSound(w: World, base: map<string, nat>, limits: seq<nat>, max: nat)
    requires WorldInv(w, base)
    ensures FleetSound(NewFleet(w, limits), base, max)
  {
    hide WorldInv;
  }

  // ----- how often a delivery is handed out

  /**
   * The two ways past a worker's limit on attempts: a delivery in flight is taken
   * over after its lease lapsed, or put back by a forced interrupt.
   */
  predicate Exceptional(f: Fleet, e: Event, sid: string, id: string) {
    && OpOf(f, e).Some? && RaisedBy(f.world, OpOf(f, e).value, sid) == Some(id)
    && (e.SettleCall? ==> f.hosts[e.host].calls[e.call].RetryCall? && f.hosts[e.host].calls[e.call].interrupted)
  }

  function Exceptions(f: Fleet, es: seq<Event>, max: nat, sid: string, id: string): nat
    decreases |es|
  {
    if es == [] then 0
    else (if Exceptional(f, es[0], sid, id) then 1 else 0) + Exceptions(FleetStep(f, es[0], max), es[1..], max, sid, id)
  }

  lemma RetriedIsOwned(w: World, op: Operation)
    requires op.Retry? && Apply(w, op).1 == Retried
    ensures Owned(w, op.lease, op.now)
  {
  }

  /** A worker's own retry that the store accepts finds its delivery below the maximum. */
  lemma OrdinaryRetryBelow(f: Fleet, base: map<string, nat>, e: Event, max: nat)
    requires FleetSound(f, base, max) && e.SettleCall? && e.host < |f.hosts| && Carries(f.hosts[e.host], e.call, e.op)
    requires e.op.Retry? && Apply(f.world, e.op).1 == Retried && !f.hosts[e.host].calls[e.call].interrupted
    ensures e.op.lease.roomSessionId in f.world.sessions
    ensures
      var ds := f.world.sessions[e.op.lease.roomSessionId].deliveries;
      var k := IndexOf(ds, e.op.lease.deliveryId);
      k < |ds| && ds[k].envelope.attempt < max
  {
    hide Apply, WorldInv, HostSound, IndexOf;
    RetriedIsOwned(f.world, e.op);
    assert HostKnows(f.world, f.hosts[e.host], max);
    var claim := f.hosts[e.host].calls[e.call].claim;
    assert Holds(f.world, f.hosts[e.host].servings[claim].grant);
  }

  /** One event raises an attempt number past the maximum only when it is exceptional. */
  lemma EventRaises(f: Fleet, base: map<string, nat>, e: Event, max: nat, sid: string, i: nat)
    requires FleetSound(f, base, max) && sid in f.world.sessions && i < |f.world.sessions[sid].deliveries|
    ensures
      var w' := FleetStep(f, e, max).world;
      && sid in w'.sessions && i < |w'.sessions[sid].deliveries|
      && var (d, d') := (f.world.sessions[sid].deliveries[i], w'.sessions[sid].deliveries[i]);
      && d'.envelope.deliveryId == d.envelope.deliveryId
      && d'.envelope.attempt <= Max(max, d.envelope.attempt) + if Exceptional(f, e, sid, d.envelope.deliveryId) then 1 else 0
  {
    hide *;
    var (w', d) := (FleetStep(f, e, max).world, f.world.sessions[sid].deliveries[i]);
    StepPerforms(f, e, max);
    if OpOf(f, e).Some? {
      var op := OpOf(f, e).value;
      WorldIsSound(f, base, max);
      ApplyCharges(f.world, base, op, sid);
      StepsAt(f.world, w', sid, GrantedBy(f.world, op, sid), RaisedBy(f.world, op, sid), i);
      var raised := RaisedBy(f.world, op, sid) == Some(d.envelope.deliveryId);
      var exceptional := Exceptional(f, e, sid, d.envelope.deliveryId);
      if raised && !exceptional { OrdinaryIsBelow(f, base, e, max, sid, i); }
      RaisedWithin(d.envelope.attempt, w'.sessions[sid].deliveries[i].envelope.attempt, max, raised, exceptional);
    } else {
      RaisedWithin(d.envelope.attempt, d.envelope.attempt, max, false, Exceptional(f, e, sid, d.envelope.deliveryId));
    }
  }

  lemma StepsAt(w: World, w': World, sid: string, granted: Option<string>, raised: Option<string>, i: nat)
    requires sid in w.sessions && Steps(w, w', sid, granted, raised) && i < |w.sessions[sid].deliveries|
    ensures sid in w'.sessions && i < |w'.sessions[sid].deliveries|
    ensures
      var (e, e') := (w.sessions[sid].deliveries[i].envelope, w'.sessions[sid].deliveries[i].envelope);
      && e'.deliveryId == e.deliveryId && e'.attempt == e.attempt + if raised == Some(e.deliveryId) then 1 else 0
  {
    hide Spending;
  }

  lemma RaisedWithin(a: nat, a': nat, max: nat, raised: bool, exceptional: bool)
    requires a' == a + (if raised then 1 else 0) && (raised && !exceptional ==> a < max)
    ensures a' <= Max(max, a) + if exceptional then 1 else 0
  {
  }

  lemma WorldIsSound(f: Fleet, base: map<string, nat>, max: nat)
    requires FleetSound(f, base, max)
    ensures WorldInv(f.world, base)
  {
  }

  lemma OrdinaryIsBelow(f: Fleet, base: map<string, nat>, e: Event, max: nat, sid: string, i: nat)
    requires FleetSound(f, base, max) && sid in f.world.sessions && i < |f.world.sessions[sid].deliveries|
    requires
      var id := f.world.sessions[sid].deliveries[i].envelope.deliveryId;
      OpOf(f, e).Some? && RaisedBy(f.world, OpOf(f, e).value, sid) == Some(id) && !Exceptional(f, e, sid, id)
    ensures f.world.sessions[sid].deliveries[i].envelope.attempt < max
  {
    hide Apply, FleetSound, CanClaim, FirstOpen, IndexOf;
    OrdinaryRetryBelow(f, base, e, max);
    WorldIsSound(f, base, max);
    DistinctInQueue(f.world, base, sid);
    IndexOfIs(f.world.sessions[sid].deliveries, i);
  }

  lemma {:induction false} FleetRaises(f: Fleet, base: map<string, nat>, es: seq<Event>, max: nat, sid: string, i: nat)
    requires FleetSound(f, base, max) && sid in f.world.sessions && i < |f.world.sessions[sid].deliveries|
    ensures
      var w' := FleetRun(f, es, max).world;
      && sid in w'.sessions && i < |w'.sessions[sid].deliveries|
      && var (d, d') := (f.world.sessions[sid].deliveries[i], w'.sessions[sid].deliveries[i]);
      && d'.envelope.attempt <= Max(max, d.envelope.attempt) + Exceptions(f, es, max, sid, d.envelope.deliveryId)
    decreases |es|
  {
    hide FleetSound, FleetStep, Exceptional;
    if es != [] {
      EventRaises(f, base, es[0], max, sid, i);
      FleetStepKeeps(f, base, es[0], max);
      FleetRaises(FleetStep(f, es[0], max), base, es[1..], max, sid, i);
    }
  }

  /** Where a fleet stands that started on these seeds. */
  ghost predicate Served(seeds: seq<Seed>, limits: seq<nat>, es: seq<Event>, max: nat, ops: seq<Operation>, w: World) {
    && (forall seed | seed in seeds :: ValidSeed(seed)) && SeedWorld(seeds).Some?
    && ops == OpsOf(NewFleet(SeedWorld(seeds).value, limits), es, max)
    && w == FleetRun(NewFleet(SeedWorld(seeds).value, limits), es, max).world
  }

  /** The attempts a worker allows, or the one the delivery was seeded with if that is already more. */
  function Allowed(seeds: seq<Seed>, limits: seq<nat>, es: seq<Event>, max: nat, sid: string, e: Envelope): int
    requires SeedWorld(seeds).Some?
  {
    Max(max, e.attempt) + Exceptions(NewFleet(SeedWorld(seeds).value, limits), es, max, sid, e.deliveryId)
  }

  lemma ServedReaches(seeds: seq<Seed>, limits: seq<nat>, es: seq<Event>, max: nat, ops: seq<Operation>, w: World)
    requires Served(seeds, limits, es, max, ops, w)
    ensures Reached(seeds, ops, w)
  {
    WorldFollows(NewFleet(SeedWorld(seeds).value, limits), es, max);
    hide FleetRun, OpsOf, Run;
  }

  lemma AttemptsStayAllowed(seeds: seq<Seed>, limits: seq<nat>, es: seq<Event>, max: nat, ops: seq<Operation>, w: World,
                            sid: string, i: nat)
    requires Served(seeds, limits, es, max, ops, w) && sid in w.sessions && i < |w.sessions[sid].deliveries|
    ensures |SortedEnvelopes(w.sessions[sid].seed)| == |w.sessions[sid].deliveries|
    ensures w.sessions[sid].deliveries[i].envelope.attempt
              <= Allowed(seeds, limits, es, max, sid, SortedEnvelopes(w.sessions[sid].seed)[i])
  {
    var w0 := SeedWorld(seeds).value;
    var f := NewFleet(w0, limits);
    ServedReaches(seeds, limits, es, max, ops, w);
    ClaimsAccountedFor(seeds, ops, w, sid, i);
    SeedWorldInv(seeds);
    SeededQueue(seeds, ops, w, sid);
    NewFleetSound(w0, BaseCounters(seeds), limits, max);
    FleetRaises(f, BaseCounters(seeds), es, max, sid, i);
  }

  lemma SeededQueue(seeds: seq<Seed>, ops: seq<Operation>, w: World, sid: string)
    requires Reached(seeds, ops, w) && sid in w.sessions
    ensures sid in SeedWorld(seeds).value.sessions
    ensures SeedWorld(seeds).value.sessions[sid].deliveries == FreshDeliveries(SortedEnvelopes(w.sessions[sid].seed))
  {
    var w0 := SeedWorld(seeds).value;
    SessionsStay(w0, ops);
    SeededAsGiven(seeds, sid);
    SeedWorldInv(seeds);
    SeedFixed(w0, BaseCounters(seeds), ops, sid);
  }

  /**
   * However many workers serve a session and however their calls are delayed and
   * mixed, a delivery is handed out at most as often as attempts remained to it,
   * and once more for every takeover after a lapsed lease and every forced
   * interrupt; by then it is no longer waiting.
   */
  lemma SettlesWithinAttempts(seeds: seq<Seed>, limits: seq<nat>, es: seq<Event>, max: nat, ops: seq<Operation>, w: World,
                              sid: string, i: nat)
    requires Served(seeds, limits, es, max, ops, w) && sid in w.sessions && i < |w.sessions[sid].deliveries|
    ensures |SortedEnvelopes(w.sessions[sid].seed)| == |w.sessions[sid].deliveries|
    ensures
      var (d, seeded) := (w.sessions[sid].deliveries[i], SortedEnvelopes(w.sessions[sid].seed)[i]);
      var claims := Claims(SeedWorld(seeds).value, ops, sid, d.envelope.deliveryId);
      var most := Allowed(seeds, limits, es, max, sid, seeded) - seeded.attempt + 1;
      claims <= most && (claims == most ==> d.status != Pending)
  {
    AttemptsStayAllowed(seeds, limits, es, max, ops, w, sid, i);
    ServedReaches(seeds, limits, es, max, ops, w);
    hide Served, Reached, Claims, SortedEnvelopes, Allowed;
    ClaimsAccountedFor(seeds, ops, w, sid, i);
  }

  /** What the deliveries of a session may be handed out in all. */
  function Allowance(seeds: seq<Seed>, limits: seq<nat>, es: seq<Event>, max: nat, sid: string, seeded: seq<Envelope>): int
    requires SeedWorld(seeds).Some?
  {
    if seeded == [] then 0
    else Allowed(seeds, limits, es, max, sid, seeded[0]) - seeded[0].attempt + 1
         + Allowance(seeds, limits, es, max, sid, seeded[1..])
  }

  lemma {:induction false} EpochsWithin(seeds: seq<Seed>, limits: seq<nat>, es: seq<Event>, max: nat, sid: string,
                                        ds: seq<Delivery>, seeded: seq<Envelope>)
    requires SeedWorld(seeds).Some? && |ds| == |seeded|
    requires forall i | 0 <= i < |ds| :: ds[i].envelope.attempt <= Allowed(seeds, limits, es, max, sid, seeded[i])
    ensures Epochs(ds, seeded) <= Allowance(seeds, limits, es, max, sid, seeded)
    ensures Epochs(ds, seeded) == Allowance(seeds, limits, es, max, sid, seeded) ==>
      forall i | 0 <= i < |ds| :: ds[i].status != Pending
  {
    hide Allowed;
    if ds != [] { EpochsWithin(seeds, limits, es, max, sid, ds[1..], seeded[1..]); }
  }

  /**
   * Session by session: the claims granted, which are the generations passed, stay
   * within what its deliveries allow in all, and when that is used up none is waiting.
   */
  lemma ClaimsAreBounded(seeds: seq<Seed>, limits: seq<nat>, es: seq<Event>, max: nat, ops: seq<Operation>, w: World, sid: string)
    requires Served(seeds, limits, es, max, ops, w) && sid in w.sessions
    ensures
      var s := w.sessions[sid];
      var claims := s.generation - s.seed.generation.GetOr(0);
      var most := Allowance(seeds, limits, es, max, sid, SortedEnvelopes(s.seed));
      claims <= most && (claims == most ==> forall i | 0 <= i < |s.deliveries| :: s.deliveries[i].status != Pending)
  {
    ServedReaches(seeds, limits, es, max, ops, w);
    ReachedInv(seeds, ops, w);
    InStore(w, BaseCounters(seeds), sid);
    var s := w.sessions[sid];
    assert SeedWorld(seeds).Some? && FromSeed(s) && EpochsBalance(s);
    hide WorldInv, Reached, Allowed, Served;
    forall i | 0 <= i < |s.deliveries|
      ensures s.deliveries[i].envelope.attempt <= Allowed(seeds, limits, es, max, sid, SortedEnvelopes(s.seed)[i])
    {
      AttemptsStayAllowed(seeds, limits, es, max, ops, w, sid, i);
    }
    EpochsWithin(seeds, limits, es, max, sid, s.deliveries, SortedEnvelopes(s.seed));
  }
}
