/**
 * The worker process that serves claimed deliveries. Its stream consumer, its
 * heartbeat and a forced interrupt run as separate tasks on one session and give
 * way to each other at every store or runtime call; each action below is what one
 * task does between two such points.
 */
module Host {
  import opened Prelude
  import opened RoomProtocol

  /** A claim the store granted, with the attempt its delivery was on. */
  datatype Grant = Grant(lease: Lease, attempt: nat)

  /**
   * What a worker keeps about one claim for as long as any task of it may still
   * act: `running` until its consumer has returned, `interrupts` counting the forced
   * interrupts that wait for a checkpoint before they settle.
   */
  datatype Serving = Serving(grant: Grant, running: bool, writable: bool, settling: bool, interrupts: nat)

  datatype Call = FinishCall(claim: nat) | RetryCall(claim: nat, interrupted: bool)

  datatype Poll = Idle | Claiming(sid: string)

  /** Claims are numbered as they arrive; `active` holds the number of the claim now served for a session. */
  datatype HostState = HostState(
    running: bool, active: map<string, nat>, servings: map<nat, Serving>, limit: nat, poll: Poll, nextClaim: nat,
    calls: seq<Call>)

  datatype Task =
    | Consider(sid: string)
    | ClaimReturned(granted: Option<Grant>, registered: bool)
    | SettleFinish(claim: nat)
    | SettleFailure(claim: nat, retryable: bool)
    | Drain
    | InterruptActive
    | SettleInterrupt(claim: nat)
    | Distrust(claim: nat)
    | Leave(claim: nat)

  /** The settlement gate: open once, and only while the lease is trusted. */
  predicate MaySettle(s: Serving) {
    s.writable && !s.settling
  }

  function SessionOf(h: HostState, claim: nat): string
    requires claim in h.servings
  {
    h.servings[claim].grant.lease.roomSessionId
  }

  /** The claim is the one its session is served under. */
  predicate Active(h: HostState, claim: nat) {
    claim in h.servings && SessionOf(h, claim) in h.active && h.active[SessionOf(h, claim)] == claim
  }

  predicate Runs(h: HostState, claim: nat) {
    claim in h.servings && h.servings[claim].running
  }

  function Settle(h: HostState, claim: nat, call: Call): HostState
    requires claim in h.servings
  {
    if !MaySettle(h.servings[claim]) then h
    else h.(servings := h.servings[claim := h.servings[claim].(settling := true)], calls := h.calls + [call])
  }

  /** A forced interrupt passes its first check: the consumer is told to stop and a checkpoint is asked for. */
  function Interrupted(s: Serving): Serving {
    if MaySettle(s) then s.(interrupts := s.interrupts + 1) else s
  }

  /** Every claim now served is interrupted, except those of the sessions still `pending`. */
  function InterruptAllBut(h: HostState, pending: set<string>): map<nat, Serving> {
    map claim | claim in h.servings ::
      if Active(h, claim) && SessionOf(h, claim) !in pending then Interrupted(h.servings[claim]) else h.servings[claim]
  }

  /** The store's answer to the claim of the session now polled; it never grants another one. */
  function ClaimAnswered(h: HostState, granted: Option<Grant>, registered: bool): HostState
    requires h.poll.Claiming?
  {
    if granted.None? then h.(poll := Idle)
    else if granted.value.lease.roomSessionId != h.poll.sid then h
    else if registered then
      h.(poll := Idle, nextClaim := h.nextClaim + 1, active := h.active[h.poll.sid := h.nextClaim],
         servings := h.servings[h.nextClaim := Serving(granted.value, true, true, false, 0)])
    else
      h.(poll := Idle, nextClaim := h.nextClaim + 1, calls := h.calls + [FinishCall(h.nextClaim)],
         servings := h.servings[h.nextClaim := Serving(granted.value, false, true, true, 0)])
  }

  /** The consumer of a claim has returned: its session's entry is removed, whichever claim it holds. */
  function Left(h: HostState, claim: nat): HostState
    requires claim in h.servings
  {
    h.(active := h.active - {SessionOf(h, claim)}, servings := h.servings[claim := h.servings[claim].(running := false)])
  }

  /** Retryable and below the maximum. */
  predicate Retries(s: Serving, retryable: bool, maxAttempts: nat) {
    retryable && s.grant.attempt < maxAttempts
  }

  function Step(h: HostState, t: Task, maxAttempts: nat): HostState {
    match t
    case Consider(sid) =>
      if h.running && h.poll == Idle && |h.active| < h.limit && sid !in h.active then h.(poll := Claiming(sid)) else h
    case ClaimReturned(granted, registered) => if h.poll == Idle then h else ClaimAnswered(h, granted, registered)
    case SettleFinish(claim) => if Runs(h, claim) then Settle(h, claim, FinishCall(claim)) else h
    case SettleFailure(claim, retryable) =>
      if !Runs(h, claim) then h
      else Settle(h, claim, if Retries(h.servings[claim], retryable, maxAttempts) then RetryCall(claim, false) else FinishCall(claim))
    case Drain => h.(running := false)
    case InterruptActive => h.(running := false, servings := InterruptAllBut(h, {}))
    case SettleInterrupt(claim) =>
      if claim !in h.servings || h.servings[claim].interrupts == 0 then h
      else Settle(h.(servings := h.servings[claim := h.servings[claim].(interrupts := h.servings[claim].interrupts - 1)]),
                  claim, RetryCall(claim, true))
    case Distrust(claim) =>
      if claim in h.servings then h.(servings := h.servings[claim := h.servings[claim].(writable := false)]) else h
    case Leave(claim) =>
      if Runs(h, claim) then Left(h, claim) else h
  }

  function Tasks(h: HostState, ts: seq<Task>, maxAttempts: nat): HostState
    decreases |ts|
  {
    if ts == [] then h else Tasks(Step(h, ts[0], maxAttempts), ts[1..], maxAttempts)
  }

  function NewHost(limit: nat): HostState {
    HostState(true, map[], map[], limit, Idle, 0, [])
  }

  function CallsFor(calls: seq<Call>, claim: nat): nat {
    if calls == [] then 0 else CallsFor(calls[..|calls| - 1], claim) + if calls[|calls| - 1].claim == claim then 1 else 0
  }

  // ----- one settling call for each claim

  /** A claim that has settled made one call, any other none. */
  ghost predicate CallsMatch(h: HostState) {
    && (forall claim | claim in h.servings :: claim < h.nextClaim)
    && forall claim :: CallsFor(h.calls, claim) == if claim in h.servings && h.servings[claim].settling then 1 else 0
  }

  /** A session is served under one claim, and that claim is the only one whose consumer still runs for it. */
  ghost predicate ServedApart(h: HostState) {
    && (forall sid | sid in h.active ::
          h.active[sid] in h.servings && h.servings[h.active[sid]].grant.lease.roomSessionId == sid
          && h.servings[h.active[sid]].running)
    && forall claim | claim in h.servings :: h.servings[claim].running ==> Active(h, claim)
  }

  ghost predicate HasRoom(h: HostState) {
    |h.active| <= h.limit && (h.poll.Claiming? ==> h.poll.sid !in h.active && |h.active| < h.limit)
  }

  /** A session under a forced interrupt is not taken up again by the same worker. */
  ghost predicate StopsForGood(h: HostState) {
    forall claim | claim in h.servings && h.servings[claim].interrupts > 0 ::
      && !h.running && (SessionOf(h, claim) in h.active ==> Active(h, claim))
      && (h.poll.Claiming? ==> h.poll.sid != SessionOf(h, claim))
  }

  ghost predicate HostSound(h: HostState) {
    CallsMatch(h) && ServedApart(h) && HasRoom(h) && StopsForGood(h)
  }

  lemma CallsGrow(calls: seq<Call>, call: Call, claim: nat)
    ensures CallsFor(calls + [call], claim) == CallsFor(calls, claim) + if call.claim == claim then 1 else 0
  {
    assert (calls + [call])[..|calls|] == calls;
  }

  /** The claims stay as they are, but for one whose gates may close. */
  ghost predicate OneCloses(h: HostState, h': HostState, claim: nat) {
    && claim in h.servings && claim in h'.servings && h'.servings == h.servings[claim := h'.servings[claim]]
    && h'.servings[claim].grant == h.servings[claim].grant && h'.servings[claim].running == h.servings[claim].running
    && h'.servings[claim].interrupts <= h.servings[claim].interrupts
    && h'.active == h.active && h'.poll == h.poll && h'.limit == h.limit && h'.running == h.running && h'.nextClaim == h.nextClaim
  }

  lemma ClosingKeeps(h: HostState, h': HostState, claim: nat)
    requires ServedApart(h) && HasRoom(h) && StopsForGood(h) && OneCloses(h, h', claim)
    ensures ServedApart(h') && HasRoom(h') && StopsForGood(h')
  {
  }

  lemma SettleMatches(h: HostState, claim: nat, call: Call)
    requires CallsMatch(h) && claim in h.servings && call.claim == claim
    ensures CallsMatch(Settle(h, claim, call))
  {
    if MaySettle(h.servings[claim]) {
      forall c ensures CallsFor(h.calls + [call], c) == CallsFor(h.calls, c) + if claim == c then 1 else 0 {
        CallsGrow(h.calls, call, c);
      }
    }
  }

  lemma SettleKeeps(h: HostState, claim: nat, call: Call)
    requires HostSound(h) && claim in h.servings && call.claim == claim
    ensures HostSound(Settle(h, claim, call))
  {
    hide CallsMatch, ServedApart, HasRoom, StopsForGood, CallsFor;
    SettleMatches(h, claim, call);
    ClosingKeeps(h, Settle(h, claim, call), claim);
  }

  lemma LargerSize<K, V>(a: map<K, V>, k: K, v: V)
    requires k !in a
    ensures |a[k := v]| == |a| + 1
  {
    assert |a.Keys| == |a| && |a[k := v].Keys| == |a[k := v]|;
    assert a[k := v].Keys == a.Keys + {k};
  }

  lemma SmallerSize<K, V>(a: map<K, V>, k: K)
    ensures |a - {k}| <= |a|
  {
    assert |a.Keys| == |a| && |(a - {k}).Keys| == |a - {k}|;
    assert (a - {k}).Keys == a.Keys - {k};
  }

  lemma AnswerMatches(h: HostState, granted: Option<Grant>, registered: bool)
    requires CallsMatch(h) && h.poll.Claiming?
    ensures CallsMatch(ClaimAnswered(h, granted, registered))
  {
    forall c ensures CallsFor(h.calls + [FinishCall(h.nextClaim)], c) == CallsFor(h.calls, c) + if h.nextClaim == c then 1 else 0 {
      CallsGrow(h.calls, FinishCall(h.nextClaim), c);
    }
  }

  lemma AnswerKeeps(h: HostState, granted: Option<Grant>, registered: bool)
    requires HostSound(h) && h.poll.Claiming?
    ensures HostSound(ClaimAnswered(h, granted, registered))
  {
    hide CallsMatch, CallsFor;
    AnswerMatches(h, granted, registered);
    LargerSize(h.active, h.poll.sid, h.nextClaim);
    AnswerServesApart(h, granted, registered);
  }

  /** A new claim is added, and its session had no entry. */
  ghost predicate OneAdded(h: HostState, h': HostState, s: Serving) {
    && h.nextClaim !in h.servings && h'.servings == h.servings[h.nextClaim := s] && s.interrupts == 0
    && h.poll.Claiming? && s.grant.lease.roomSessionId == h.poll.sid && h.poll.sid !in h.active
    && h'.active == (if s.running then h.active[h.poll.sid := h.nextClaim] else h.active)
    && h'.poll == Idle && h'.running == h.running
  }

  lemma AddedApart(h: HostState, h': HostState, s: Serving)
    requires ServedApart(h) && OneAdded(h, h', s)
    ensures ServedApart(h')
  {
    forall claim | claim in h'.servings && h'.servings[claim].running ensures Active(h', claim) {
      if claim != h.nextClaim { assert h.servings[claim].running; }
    }
  }

  lemma AddedStops(h: HostState, h': HostState, s: Serving)
    requires StopsForGood(h) && OneAdded(h, h', s)
    ensures StopsForGood(h')
  {
    forall claim | claim in h'.servings && h'.servings[claim].interrupts > 0
      ensures !h'.running && (SessionOf(h', claim) in h'.active ==> Active(h', claim))
    {
      assert claim in h.servings && SessionOf(h, claim) != h.poll.sid;
    }
  }

  lemma AnswerServesApart(h: HostState, granted: Option<Grant>, registered: bool)
    requires HostSound(h) && h.poll.Claiming?
    ensures ServedApart(ClaimAnswered(h, granted, registered)) && StopsForGood(ClaimAnswered(h, granted, registered))
  {
    hide CallsFor, ServedApart, StopsForGood;
    assert h.nextClaim !in h.servings;
    var h' := ClaimAnswered(h, granted, registered);
    if granted.Some? && granted.value.lease.roomSessionId == h.poll.sid {
      AddedApart(h, h', h'.servings[h.nextClaim]);
      AddedStops(h, h', h'.servings[h.nextClaim]);
    } else {
      UnpolledStops(h, h');
    }
  }

  lemma UnpolledStops(h: HostState, h': HostState)
    requires ServedApart(h) && StopsForGood(h) && (h' == h || h' == h.(poll := Idle))
    ensures ServedApart(h') && StopsForGood(h')
  {
  }

  lemma InterruptKeeps(h: HostState)
    requires HostSound(h)
    ensures HostSound(h.(running := false, servings := InterruptAllBut(h, {})))
  {
    hide CallsMatch, CallsFor;
    InterruptMatches(h);
  }

  lemma InterruptMatches(h: HostState)
    requires CallsMatch(h)
    ensures CallsMatch(h.(running := false, servings := InterruptAllBut(h, {})))
  {
    hide CallsFor, Active;
  }

  lemma ConsiderKeeps(h: HostState, sid: string)
    requires HostSound(h) && h.running && h.poll == Idle && |h.active| < h.limit && sid !in h.active
    ensures HostSound(h.(poll := Claiming(sid)))
  {
    hide CallsFor;
  }

  lemma DrainKeeps(h: HostState)
    requires HostSound(h)
    ensures HostSound(h.(running := false))
  {
    hide CallsFor;
  }

  lemma CloseKeeps(h: HostState, s: Serving, claim: nat)
    requires HostSound(h) && OneCloses(h, h.(servings := h.servings[claim := s]), claim) && s.settling == h.servings[claim].settling
    ensures HostSound(h.(servings := h.servings[claim := s]))
  {
    hide CallsFor, ServedApart, StopsForGood, HasRoom;
    ClosingKeeps(h, h.(servings := h.servings[claim := s]), claim);
  }

  lemma LeaveHasRoom(h: HostState, claim: nat)
    requires HasRoom(h) && Runs(h, claim)
    ensures HasRoom(Left(h, claim))
  {
    SmallerSize(h.active, SessionOf(h, claim));
  }

  lemma LeaveMatches(h: HostState, claim: nat)
    requires CallsMatch(h) && Runs(h, claim)
    ensures CallsMatch(Left(h, claim))
  {
    hide CallsFor;
  }

  lemma LeaveServesApart(h: HostState, claim: nat)
    requires ServedApart(h) && Runs(h, claim)
    ensures ServedApart(Left(h, claim))
  {
  }

  lemma LeaveStops(h: HostState, claim: nat)
    requires StopsForGood(h) && Runs(h, claim)
    ensures StopsForGood(Left(h, claim))
  {
  }

  lemma LeaveKeeps(h: HostState, claim: nat)
    requires HostSound(h) && Runs(h, claim)
    ensures HostSound(Left(h, claim))
  {
    hide CallsFor, CallsMatch, HasRoom, ServedApart, StopsForGood;
    LeaveHasRoom(h, claim);
    LeaveMatches(h, claim);
    LeaveServesApart(h, claim);
    LeaveStops(h, claim);
  }

  lemma StepKeeps(h: HostState, t: Task, maxAttempts: nat)
    requires HostSound(h)
    ensures HostSound(Step(h, t, maxAttempts))
  {
    hide HostSound, Settle, InterruptAllBut, ClaimAnswered, Left;
    match t
    case Consider(sid) =>
      if h.running && h.poll == Idle && |h.active| < h.limit && sid !in h.active { ConsiderKeeps(h, sid); }
    case ClaimReturned(granted, registered) => if h.poll.Claiming? { AnswerKeeps(h, granted, registered); }
    case SettleFinish(claim) => if Runs(h, claim) { SettleKeeps(h, claim, FinishCall(claim)); }
    case SettleFailure(claim, retryable) =>
      if Runs(h, claim) {
        SettleKeeps(h, claim, FinishCall(claim));
        SettleKeeps(h, claim, RetryCall(claim, false));
      }
    case Drain => DrainKeeps(h);
    case InterruptActive => InterruptKeeps(h);
    case SettleInterrupt(claim) =>
      if claim in h.servings && h.servings[claim].interrupts > 0 {
        var s := h.servings[claim].(interrupts := h.servings[claim].interrupts - 1);
        CloseKeeps(h, s, claim);
        SettleKeeps(h.(servings := h.servings[claim := s]), claim, RetryCall(claim, true));
      }
    case Distrust(claim) => if claim in h.servings { CloseKeeps(h, h.servings[claim].(writable := false), claim); }
    case Leave(claim) => if Runs(h, claim) { LeaveKeeps(h, claim); }
  }

  lemma {:induction false} TasksKeep(h: HostState, ts: seq<Task>, maxAttempts: nat)
    requires HostSound(h)
    ensures HostSound(Tasks(h, ts, maxAttempts)) && Tasks(h, ts, maxAttempts).limit == h.limit
    decreases |ts|
  {
    hide HostSound;
    if ts != [] {
      StepKeeps(h, ts[0], maxAttempts);
      hide Step;
      LimitFixed(h, ts[0], maxAttempts);
      TasksKeep(Step(h, ts[0], maxAttempts), ts[1..], maxAttempts);
    }
  }

  lemma LimitFixed(h: HostState, t: Task, maxAttempts: nat)
    ensures Step(h, t, maxAttempts).limit == h.limit
  {
    hide InterruptAllBut;
  }

  /**
   * In any interleaving of consumers, heartbeats, interrupts and the poll loop,
   * also when an interrupt gets its checkpoint only after its session was left:
   * each claim is settled by at most one finish or retry call, and no more sessions
   * are served than the limit.
   */
  lemma SettledAtMostOnce(limit: nat, ts: seq<Task>, maxAttempts: nat, claim: nat)
    ensures CallsFor(Tasks(NewHost(limit), ts, maxAttempts).calls, claim) <= 1
    ensures |Tasks(NewHost(limit), ts, maxAttempts).active| <= limit
  {
    TasksKeep(NewHost(limit), ts, maxAttempts);
  }

  /**
   * No two consumers of one worker run for the same session, so the one that ends
   * removes its own entry; and while an interrupt is still to settle, its session is
   * not served under any other claim.
   */
  lemma ServedByOne(limit: nat, ts: seq<Task>, maxAttempts: nat, a: nat, b: nat)
    ensures
      var h := Tasks(NewHost(limit), ts, maxAttempts);
      Runs(h, b) && a in h.servings && (Runs(h, a) || h.servings[a].interrupts > 0) && SessionOf(h, a) == SessionOf(h, b) ==>
        a == b && Active(h, a)
  {
    TasksKeep(NewHost(limit), ts, maxAttempts);
  }

  /** An interrupt can settle its claim by a retry after the session was left. */
  lemma InterruptSettlesLate(limit: nat, grant: Grant, maxAttempts: nat)
    requires 0 < limit
    ensures
      var left := Tasks(NewHost(limit), [Consider(grant.lease.roomSessionId), ClaimReturned(Some(grant), true),
                                         InterruptActive, Leave(0)], maxAttempts);
      left.active == map[] && left.calls == [] && Step(left, SettleInterrupt(0), maxAttempts).calls == [RetryCall(0, true)]
  {
    var sid := grant.lease.roomSessionId;
    var ts := [Consider(sid), ClaimReturned(Some(grant), true), InterruptActive, Leave(0)];
    var h1 := NewHost(limit).(poll := Claiming(sid));
    var h2 := h1.(poll := Idle, nextClaim := 1, active := map[sid := 0], servings := map[0 := Serving(grant, true, true, false, 0)]);
    var h3 := h2.(running := false, servings := map[0 := Serving(grant, true, true, false, 1)]);
    var h4 := h3.(active := map[], servings := map[0 := Serving(grant, false, true, false, 1)]);
    assert Step(NewHost(limit), ts[0], maxAttempts) == h1;
    assert Step(h1, ts[1], maxAttempts) == h2;
    assert InterruptAllBut(h2, {}) == h3.servings;
    assert Step(h3, ts[3], maxAttempts) == h4;
    hide Step, InterruptAllBut;
    FourTasks(NewHost(limit), ts[0], ts[1], ts[2], ts[3], maxAttempts);
  }

  lemma FourTasks(h: HostState, a: Task, b: Task, c: Task, d: Task, maxAttempts: nat)
    ensures Tasks(h, [a, b, c, d], maxAttempts)
              == Step(Step(Step(Step(h, a, maxAttempts), b, maxAttempts), c, maxAttempts), d, maxAttempts)
  {
    hide Step;
    var (h1, h2, h3) := (Step(h, a, maxAttempts), Step(Step(h, a, maxAttempts), b, maxAttempts),
                         Step(Step(Step(h, a, maxAttempts), b, maxAttempts), c, maxAttempts));
    assert [a, b, c, d][1..] == [b, c, d] && [b, c, d][1..] == [c, d] && [c, d][1..] == [d] && [d][1..] == [];
    assert Tasks(h3, [d], maxAttempts) == Tasks(Step(h3, d, maxAttempts), [], maxAttempts);
    assert Tasks(h2, [c, d], maxAttempts) == Tasks(h3, [d], maxAttempts);
    assert Tasks(h1, [b, c, d], maxAttempts) == Tasks(h2, [c, d], maxAttempts);
  }

  lemma NoneInterrupted(h: HostState)
    ensures InterruptAllBut(h, h.active.Keys) == h.servings
  {
  }

  lemma OneInterrupted(h: HostState, pending: set<string>, sid: string)
    requires ServedApart(h) && pending <= h.active.Keys && sid in pending
    ensures sid in h.active && h.active[sid] in InterruptAllBut(h, pending)
    ensures
      var before := InterruptAllBut(h, pending);
      InterruptAllBut(h, pending - {sid}) == before[h.active[sid] := Interrupted(before[h.active[sid]])]
  {
    hide Interrupted;
    var (claim, before) := (h.active[sid], InterruptAllBut(h, pending));
    assert Active(h, claim) && SessionOf(h, claim) == sid;
    forall c | c in h.servings && c != claim ensures InterruptAllBut(h, pending - {sid})[c] == before[c] {
      assert Active(h, c) ==> SessionOf(h, c) != sid;
    }
  }

  lemma AllInterrupted(h: HostState, h': HostState, maxAttempts: nat)
    requires h' == h.(running := false, servings := InterruptAllBut(h, {}))
    ensures h' == Step(h, Task.InterruptActive, maxAttempts)
  {
    hide InterruptAllBut;
  }

  // ----- a worker that stops takes up nothing more

  lemma {:induction false} StoppedTakesNothing(h: HostState, more: seq<Task>, maxAttempts: nat)
    requires !h.running && h.poll == Idle
    ensures
      var h' := Tasks(h, more, maxAttempts);
      !h'.running && h'.poll == Idle && h'.nextClaim == h.nextClaim && h'.active.Keys <= h.active.Keys
    decreases |more|
  {
    if more != [] {
      OneTakesNothing(h, more[0], maxAttempts);
      hide Step;
      StoppedTakesNothing(Step(h, more[0], maxAttempts), more[1..], maxAttempts);
    }
  }

  lemma OneTakesNothing(h: HostState, t: Task, maxAttempts: nat)
    requires !h.running && h.poll == Idle
    ensures
      var h' := Step(h, t, maxAttempts);
      !h'.running && h'.poll == Idle && h'.nextClaim == h.nextClaim && h'.active.Keys <= h.active.Keys
  {
    hide InterruptAllBut;
  }

  /**
   * Drained or interrupted, a worker takes up at most the one claim it is waiting
   * for: whatever happens after, no session comes to be served that is not served
   * by then.
   */
  lemma DrainTakesNothing(limit: nat, ts: seq<Task>, stop: Task, more: seq<Task>, maxAttempts: nat)
    requires stop == Drain || stop == Task.InterruptActive
    ensures
      var h := Step(Tasks(NewHost(limit), ts, maxAttempts), stop, maxAttempts);
      h.poll == Idle ==>
        var h' := Tasks(h, more, maxAttempts);
        h'.poll == Idle && h'.nextClaim == h.nextClaim && h'.active.Keys <= h.active.Keys
  {
    var h := Step(Tasks(NewHost(limit), ts, maxAttempts), stop, maxAttempts);
    assert !h.running by { hide Tasks, InterruptAllBut; }
    hide *;
    if h.poll == Idle { StoppedTakesNothing(h, more, maxAttempts); }
  }

  // ----- no ordinary retry at the maximum

  ghost predicate RetriesBelow(h: HostState, maxAttempts: nat) {
    && (forall k | 0 <= k < |h.calls| :: h.calls[k].claim in h.servings)
    && forall k | 0 <= k < |h.calls| ::
         h.calls[k].RetryCall? && !h.calls[k].interrupted ==> h.servings[h.calls[k].claim].grant.attempt < maxAttempts
  }

  /** What a worker learnt with a claim stays with it. */
  ghost predicate GrantsStay(h: HostState, h': HostState) {
    forall claim | claim in h.servings :: claim in h'.servings && h'.servings[claim].grant == h.servings[claim].grant
  }

  lemma SettleGrants(h: HostState, claim: nat, call: Call)
    requires claim in h.servings
    ensures GrantsStay(h, Settle(h, claim, call)) && Settle(h, claim, call).servings.Keys == h.servings.Keys
  {
  }

  lemma AnswerGrants(h: HostState, granted: Option<Grant>, registered: bool)
    requires CallsMatch(h) && h.poll.Claiming?
    ensures GrantsStay(h, ClaimAnswered(h, granted, registered))
  {
    hide CallsFor;
    assert h.nextClaim !in h.servings;
  }

  lemma InterruptGrants(h: HostState)
    ensures GrantsStay(h, h.(running := false, servings := InterruptAllBut(h, {})))
    ensures InterruptAllBut(h, {}).Keys == h.servings.Keys
  {
    hide Active;
  }

  lemma StepGrants(h: HostState, t: Task, maxAttempts: nat)
    requires HostSound(h)
    ensures GrantsStay(h, Step(h, t, maxAttempts))
    ensures t.ClaimReturned? || Step(h, t, maxAttempts).servings.Keys == h.servings.Keys
  {
    hide CallsMatch, ServedApart, HasRoom, StopsForGood, Settle, InterruptAllBut, ClaimAnswered, Retries;
    match t
    case ClaimReturned(granted, registered) => if h.poll.Claiming? { AnswerGrants(h, granted, registered); }
    case SettleFinish(claim) => if claim in h.servings { SettleGrants(h, claim, FinishCall(claim)); }
    case SettleFailure(claim, retryable) =>
      if claim in h.servings {
        SettleGrants(h, claim, FinishCall(claim));
        SettleGrants(h, claim, RetryCall(claim, false));
      }
    case InterruptActive => InterruptGrants(h);
    case SettleInterrupt(claim) =>
      if claim in h.servings && h.servings[claim].interrupts > 0 {
        var s := h.servings[claim].(interrupts := h.servings[claim].interrupts - 1);
        SettleGrants(h.(servings := h.servings[claim := s]), claim, RetryCall(claim, true));
      }
    case _ =>
  }

  lemma CallsBelow(h: HostState, h': HostState, maxAttempts: nat)
    requires RetriesBelow(h, maxAttempts) && GrantsStay(h, h')
    requires h'.calls == h.calls
             || (exists call :: h'.calls == h.calls + [call] && call.claim in h'.servings
                                && (call.RetryCall? && !call.interrupted ==> h'.servings[call.claim].grant.attempt < maxAttempts))
    ensures RetriesBelow(h', maxAttempts)
  {
    forall k | 0 <= k < |h.calls| ensures h'.calls[k] == h.calls[k] && h.calls[k].claim in h.servings {
    }
  }

  lemma StepBelow(h: HostState, t: Task, maxAttempts: nat)
    requires HostSound(h) && RetriesBelow(h, maxAttempts)
    ensures RetriesBelow(Step(h, t, maxAttempts), maxAttempts)
  {
    hide CallsFor, RetriesBelow, GrantsStay, HostSound, InterruptAllBut;
    StepGrants(h, t, maxAttempts);
    CallsBelow(h, Step(h, t, maxAttempts), maxAttempts);
  }

  // ----- why a claim was settled the way it was

  /** The call a task makes for a claim that is still unsettled: a failure is retried while attempts are left. */
  predicate Because(call: Call, t: Task, attempt: nat, maxAttempts: nat) {
    match t
    case ClaimReturned(granted, registered) => granted.Some? && !registered && call == FinishCall(call.claim)
    case SettleFinish(claim) => call == FinishCall(claim)
    case SettleFailure(claim, retryable) =>
      call.claim == claim &&
      if retryable && attempt < maxAttempts then call == RetryCall(claim, false) else call == FinishCall(claim)
    case SettleInterrupt(claim) => call == RetryCall(claim, true)
    case _ => false
  }

  /** One task makes no call, or one that it is the reason for. */
  lemma StepReason(h: HostState, t: Task, maxAttempts: nat)
    requires HostSound(h)
    ensures
      var h' := Step(h, t, maxAttempts);
      h'.calls == h.calls
      || (|h'.calls| == |h.calls| + 1 && h'.calls[..|h.calls|] == h.calls
          && var call := h'.calls[|h.calls|];
             call.claim in h'.servings && Because(call, t, h'.servings[call.claim].grant.attempt, maxAttempts))
  {
    hide CallsFor, CallsMatch, ServedApart, HasRoom, StopsForGood, InterruptAllBut;
  }

  lemma {:induction false} TasksSnoc(h: HostState, ts: seq<Task>, t: Task, maxAttempts: nat)
    ensures Tasks(h, ts + [t], maxAttempts) == Step(Tasks(h, ts, maxAttempts), t, maxAttempts)
    decreases |ts|
  {
    hide Step;
    if ts == [] {
      assert [t][1..] == [] && [] + [t] == [t];
      assert Tasks(h, [t], maxAttempts) == Tasks(Step(h, t, maxAttempts), [], maxAttempts);
    } else {
      assert (ts + [t])[1..] == ts[1..] + [t];
      TasksSnoc(Step(h, ts[0], maxAttempts), ts[1..], t, maxAttempts);
    }
  }

  /** The claim of a call was granted, and one of the tasks is the reason for the call. */
  predicate HasReason(h: HostState, ts: seq<Task>, k: nat, maxAttempts: nat)
    requires k < |h.calls|
  {
    && h.calls[k].claim in h.servings
    && exists t :: t in ts && Because(h.calls[k], t, h.servings[h.calls[k].claim].grant.attempt, maxAttempts)
  }

  lemma ReasonStays(h: HostState, front: seq<Task>, t: Task, k: nat, maxAttempts: nat)
    requires HostSound(h) && k < |h.calls| && HasReason(h, front, k, maxAttempts)
    ensures k < |Step(h, t, maxAttempts).calls| && HasReason(Step(h, t, maxAttempts), front + [t], k, maxAttempts)
  {
    StepReason(h, t, maxAttempts);
    StepGrants(h, t, maxAttempts);
    hide Step, HostSound, Because;
    var task :| task in front && Because(h.calls[k], task, h.servings[h.calls[k].claim].grant.attempt, maxAttempts);
    assert Step(h, t, maxAttempts).calls[..|h.calls|][k] == h.calls[k];
    assert task in front + [t];
  }

  lemma NewCallHasReason(h: HostState, front: seq<Task>, t: Task, k: nat, maxAttempts: nat)
    requires HostSound(h) && |h.calls| <= k < |Step(h, t, maxAttempts).calls|
    ensures HasReason(Step(h, t, maxAttempts), front + [t], k, maxAttempts)
  {
    StepReason(h, t, maxAttempts);
    hide Step, HostSound, Because;
    assert t in front + [t];
  }

  /**
   * Every call of every run has its reason among the tasks: an ordinary retry
   * stands for a retryable failure on an attempt below the maximum, and a finish
   * for a completion, for a failure that was not retryable or was the last attempt,
   * or for a claim whose runtime is not registered.
   */
  lemma {:induction false} CallsHaveReasons(limit: nat, ts: seq<Task>, maxAttempts: nat, k: nat)
    requires k < |Tasks(NewHost(limit), ts, maxAttempts).calls|
    ensures HasReason(Tasks(NewHost(limit), ts, maxAttempts), ts, k, maxAttempts)
    decreases |ts|
  {
    if ts != [] {
      var front, last := ts[..|ts| - 1], ts[|ts| - 1];
      assert ts == front + [last];
      TasksSnoc(NewHost(limit), front, last, maxAttempts);
      TasksKeep(NewHost(limit), front, maxAttempts);
      var h := Tasks(NewHost(limit), front, maxAttempts);
      hide *;
      if k < |h.calls| {
        CallsHaveReasons(limit, front, maxAttempts, k);
        ReasonStays(h, front, last, k, maxAttempts);
      } else {
        NewCallHasReason(h, front, last, k, maxAttempts);
      }
    }
  }

  lemma {:induction false} CallsStay(h: HostState, more: seq<Task>, maxAttempts: nat)
    requires HostSound(h)
    ensures HostSound(Tasks(h, more, maxAttempts)) && h.calls <= Tasks(h, more, maxAttempts).calls
    decreases |more|
  {
    if more != [] {
      var h' := Step(h, more[0], maxAttempts);
      StepKeeps(h, more[0], maxAttempts);
      StepReason(h, more[0], maxAttempts);
      hide Step, HostSound, Because;
      CallsStay(h', more[1..], maxAttempts);
    }
  }

  lemma {:induction false} CalledIsCounted(calls: seq<Call>, i: nat, j: nat)
    requires i < |calls| && j < |calls| && i != j && calls[i].claim == calls[j].claim
    ensures 2 <= CallsFor(calls, calls[i].claim)
  {
    var last := |calls| - 1;
    if i < last && j < last {
      CalledIsCounted(calls[..last], i, j);
    } else {
      CalledOnce(calls[..last], if i == last then j else i);
    }
  }

  lemma {:induction false} CalledOnce(calls: seq<Call>, i: nat)
    requires i < |calls|
    ensures 1 <= CallsFor(calls, calls[i].claim)
  {
    if i < |calls| - 1 { CalledOnce(calls[..|calls| - 1], i); }
  }

  /**
   * The first failure to reach an unsettled claim whose lease is trusted settles
   * it for good, whatever happens after: by a retry exactly when the failure is
   * retryable and its attempt is below the maximum, otherwise by a finish.
   */
  lemma FailureDecides(limit: nat, ts: seq<Task>, claim: nat, retryable: bool, more: seq<Task>, maxAttempts: nat)
    requires Runs(Tasks(NewHost(limit), ts, maxAttempts), claim)
    requires
      var h := Tasks(NewHost(limit), ts, maxAttempts);
      h.servings[claim].writable && CallsFor(h.calls, claim) == 0
    ensures
      var h := Tasks(NewHost(limit), ts, maxAttempts);
      var settled := Tasks(Step(h, SettleFailure(claim, retryable), maxAttempts), more, maxAttempts);
      var call := if retryable && h.servings[claim].grant.attempt < maxAttempts then RetryCall(claim, false) else FinishCall(claim);
      call in settled.calls && forall other | other in settled.calls && other.claim == claim :: other == call
  {
    var h := Tasks(NewHost(limit), ts, maxAttempts);
    var h' := Step(h, SettleFailure(claim, retryable), maxAttempts);
    var call := if retryable && h.servings[claim].grant.attempt < maxAttempts then RetryCall(claim, false) else FinishCall(claim);
    TasksKeep(NewHost(limit), ts, maxAttempts);
    assert h'.calls == h.calls + [call] by { hide Tasks, ServedApart, HasRoom, StopsForGood; }
    StepKeeps(h, SettleFailure(claim, retryable), maxAttempts);
    CallsStay(h', more, maxAttempts);
    var settled := Tasks(h', more, maxAttempts);
    assert CallsFor(settled.calls, claim) <= 1;
    hide *;
    var at := |h.calls|;
    assert settled.calls[at] == call;
    forall other | other in settled.calls && other.claim == claim ensures other == call {
      var j :| 0 <= j < |settled.calls| && settled.calls[j] == other;
      if j != at { CalledIsCounted(settled.calls, at, j); }
    }
  }

  // ----- the retry delay

  function PowerOfTwo(n: nat): (p: nat)
    ensures 1 <= p
  {
    if n == 0 then 1 else 2 * PowerOfTwo(n - 1)
  }

  function RetryDelay(attempt: nat, base: nat, max: nat): int {
    Min(max, base * PowerOfTwo(Min(Max(attempt - 1, 0), 30)))
  }

  lemma {:induction false} PowersGrow(m: nat, n: nat)
    requires m <= n
    ensures PowerOfTwo(m) <= PowerOfTwo(n)
    decreases n
  {
    if m < n { PowersGrow(m, n - 1); }
  }

  lemma Scaled(base: nat, p: nat, q: nat)
    requires p <= q
    ensures base * p <= base * q
  {
  }

  /** The delay stays between the base and the maximum and never shrinks from one attempt to the next. */
  lemma DelayIsBounded(a: nat, b: nat, base: nat, max: nat)
    requires 1 <= base <= max && a <= b
    ensures base <= RetryDelay(a, base, max) <= RetryDelay(b, base, max) <= max
  {
    var m, n := Min(Max(a - 1, 0), 30), Min(Max(b - 1, 0), 30);
    PowersGrow(m, n);
    Scaled(base, 1, PowerOfTwo(m));
    Scaled(base, PowerOfTwo(m), PowerOfTwo(n));
  }

  /** The delay is the base on the first attempt and doubles with each further one, up to the maximum and 30 times at most. */
  lemma DelayDoubles(attempt: nat, base: nat, max: nat)
    requires 1 <= base <= max
    ensures RetryDelay(0, base, max) == RetryDelay(1, base, max) == base
    ensures 1 <= attempt <= 30 ==> RetryDelay(attempt + 1, base, max) == Min(max, 2 * RetryDelay(attempt, base, max))
    ensures 30 < attempt ==> RetryDelay(attempt + 1, base, max) == RetryDelay(attempt, base, max)
  {
    if 1 <= attempt <= 30 {
      assert PowerOfTwo(attempt) == 2 * PowerOfTwo(attempt - 1);
      Doubled(base, PowerOfTwo(attempt - 1));
      Scaled(base, 1, PowerOfTwo(attempt - 1));
    }
  }

  lemma Doubled(base: nat, p: nat)
    ensures base * (2 * p) == 2 * (base * p)
  {
  }

  // ----- the same steps on the host's own fields

  class RoomSessionHost {
    var running: bool
    var activeSessions: map<string, nat>
    var servings: map<nat, Serving>
    var poll: Poll
    var nextClaim: nat
    ghost var calls: seq<Call>
    const maxConcurrentSessions: nat
    const maxDeliveryAttempts: nat

    ghost function State(): HostState
      reads this
    {
      HostState(running, activeSessions, servings, maxConcurrentSessions, poll, nextClaim, calls)
    }

    constructor (limit: nat, attempts: nat)
      ensures State() == NewHost(limit) && maxDeliveryAttempts == attempts
    {
      running, activeSessions, servings, poll, nextClaim, calls := true, map[], map[], Idle, 0, [];
      maxConcurrentSessions, maxDeliveryAttempts := limit, attempts;
    }

    /** Before asking the store for a candidate: a free slot, and not served already. */
    method ConsiderCandidate(sid: string) returns (claims: bool)
      requires poll == Idle
      modifies `poll
      ensures State() == Step(old(State()), Consider(sid), maxDeliveryAttempts) && claims == (poll == Claiming(sid))
      ensures claims == (running && |activeSessions| < maxConcurrentSessions && sid !in activeSessions)
    {
      if !running || |activeSessions| >= maxConcurrentSessions || sid in activeSessions { return false; }
      poll := Claiming(sid);
      return true;
    }

    /** A claim whose runtime is registered is served; any other is failed at once, without being served. */
    method Launch(granted: Option<Grant>, registered: bool)
      requires poll.Claiming? && (granted.Some? ==> granted.value.lease.roomSessionId == poll.sid)
      modifies this
      ensures State() == Step(old(State()), ClaimReturned(granted, registered), maxDeliveryAttempts)
      ensures poll == Idle
      ensures granted.Some? && registered ==>
        && activeSessions == old(activeSessions)[granted.value.lease.roomSessionId := old(nextClaim)] && calls == old(calls)
        && Runs(State(), old(nextClaim)) && MaySettle(servings[old(nextClaim)]) && servings[old(nextClaim)].grant == granted.value
      ensures granted.Some? && !registered ==>
        && activeSessions == old(activeSessions) && calls == old(calls) + [FinishCall(old(nextClaim))]
        && old(nextClaim) in servings && !MaySettle(servings[old(nextClaim)])
      ensures granted.None? ==> activeSessions == old(activeSessions) && servings == old(servings) && calls == old(calls)
    {
      if granted.Some? {
        if registered {
          servings := servings[nextClaim := Serving(granted.value, true, true, false, 0)];
          activeSessions := activeSessions[poll.sid := nextClaim];
        } else {
          servings := servings[nextClaim := Serving(granted.value, false, true, true, 0)];
          calls := calls + [FinishCall(nextClaim)];
        }
        nextClaim := nextClaim + 1;
      }
      poll := Idle;
    }

    method BeginSettlement(claim: nat) returns (begun: bool)
      requires claim in servings
      modifies `servings
      ensures begun == MaySettle(old(servings)[claim])
      ensures servings ==
        if begun then old(servings)[claim := old(servings)[claim].(settling := true)] else old(servings)
    {
      var s := servings[claim];
      if !s.writable || s.settling { return false; }
      servings := servings[claim := s.(settling := true)];
      return true;
    }

    method Finish(claim: nat) returns (called: bool)
      requires Runs(State(), claim)
      modifies `servings, `calls
      ensures State() == Step(old(State()), SettleFinish(claim), maxDeliveryAttempts)
      ensures called == (old(servings)[claim].writable && !old(servings)[claim].settling)
      ensures calls == if called then old(calls) + [FinishCall(claim)] else old(calls)
    {
      called := BeginSettlement(claim);
      if called { calls := calls + [FinishCall(claim)]; }
    }

    method RetryOrFinish(claim: nat, retryable: bool) returns (called: bool)
      requires Runs(State(), claim)
      modifies `servings, `calls
      ensures State() == Step(old(State()), SettleFailure(claim, retryable), maxDeliveryAttempts)
      ensures called == (old(servings)[claim].writable && !old(servings)[claim].settling)
      ensures calls ==
        if !called then old(calls)
        else old(calls) + [if retryable && servings[claim].grant.attempt < maxDeliveryAttempts
                           then RetryCall(claim, false) else FinishCall(claim)]
    {
      var retries := retryable && servings[claim].grant.attempt < maxDeliveryAttempts;
      called := BeginSettlement(claim);
      if called { calls := calls + [if retries then RetryCall(claim, false) else FinishCall(claim)]; }
    }

    /** An interrupt that finds the claim unsettled and trusted goes on to ask for a checkpoint. */
    method BeginInterrupt(claim: nat)
      requires claim in servings
      modifies `servings
      ensures servings == old(servings)[claim := Interrupted(old(servings)[claim])]
    {
      var s := servings[claim];
      if !s.writable || s.settling { return; }
      servings := servings[claim := s.(interrupts := s.interrupts + 1)];
    }

    /** Stops polling and begins an interrupt of every session now served. */
    method Interrupt()
      requires ServedApart(State())
      modifies `running, `servings
      ensures State() == Step(old(State()), Task.InterruptActive, maxDeliveryAttempts)
    {
      ghost var h := State();
      running := false;
      var pending := activeSessions.Keys;
      NoneInterrupted(h);
      hide *;
      while pending != {}
        invariant !running && pending <= h.active.Keys && servings == InterruptAllBut(h, pending)
        decreases |pending|
      {
        var sid :| sid in pending;
        OneInterrupted(h, pending, sid);
        BeginInterrupt(activeSessions[sid]);
        pending := pending - {sid};
      }
      AllInterrupted(h, State(), maxDeliveryAttempts);
    }

    /** What an interrupt does once it has its checkpoint, or has given up on one. */
    method RetryInterrupted(claim: nat) returns (called: bool)
      requires claim in servings && servings[claim].interrupts > 0
      modifies `servings, `calls
      ensures State() == Step(old(State()), SettleInterrupt(claim), maxDeliveryAttempts)
      ensures called == (old(servings)[claim].writable && !old(servings)[claim].settling)
      ensures calls == if called then old(calls) + [RetryCall(claim, true)] else old(calls)
    {
      servings := servings[claim := servings[claim].(interrupts := servings[claim].interrupts - 1)];
      called := BeginSettlement(claim);
      if called { calls := calls + [RetryCall(claim, true)]; }
    }

    method AbandonSession(claim: nat)
      requires claim in servings
      modifies `servings
      ensures State() == Step(old(State()), Distrust(claim), maxDeliveryAttempts)
    {
      servings := servings[claim := servings[claim].(writable := false)];
    }

    /** The consumer has returned: its session's entry is removed, whichever claim it holds. */
    method EndSession(claim: nat)
      requires Runs(State(), claim)
      modifies `activeSessions, `servings
      ensures State() == Step(old(State()), Leave(claim), maxDeliveryAttempts)
    {
      activeSessions := activeSessions - {servings[claim].grant.lease.roomSessionId};
      servings := servings[claim := servings[claim].(running := false)];
    }
  }
}
