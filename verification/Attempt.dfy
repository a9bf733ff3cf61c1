/**
 * One execution attempt with a private workspace: the durable receipt behind a
 * generation fence, and any number of daemon workers driving it, each of which
 * may be overtaken or die between any two effects.
 *
 * Operator-requested discards are not among the steps: they are the one way to
 * remove a worktree before its attempt is over.
 */
module Attempt {
  import opened Prelude
  import opened Lifecycle

  // ----- the durable side

  datatype Store = Store(generation: nat, lifecycle: Option<Receipt>, status: Option<Outcome>)

  datatype Written = Done | Fenced | Rejected

  predicate Holds(s: Store, generation: nat) {
    s.generation == generation && s.status.None?
  }

  function PersistLifecycle(s: Store, generation: nat, next: Receipt): (Store, Written) {
    if !Holds(s, generation) then (s, Fenced)
    else if !Advances(s.lifecycle, next) then (s, Rejected)
    else (s.(lifecycle := Some(next)), Done)
  }

  /** The gate in front of completion: the workspace is cleaned, or there never was one and the attempt was cancelled. */
  predicate MayComplete(s: Store, status: Outcome) {
    if s.lifecycle.None? then status == Cancelled else s.lifecycle.value.cleanedAt.Some?
  }

  function Complete(s: Store, generation: nat, status: Outcome): (Store, Written) {
    if !Holds(s, generation) || !MayComplete(s, status) then (s, Fenced)
    else (s.(status := Some(status)), Done)
  }

  // ----- a worker

  /** Where a worker is in its attempt; `next` is a receipt it is about to write. */
  datatype Place =
    | Preparing
    | WritingPrepared(next: Receipt)
    | Starting
    | Running
    | WritingCompletion(next: Receipt)
    | Finalizing
    | WritingFinalized(next: Receipt)
    | Requesting
    | Cleaning
    | WritingCleaned(next: Receipt)
    | Reporting
    | Over

  datatype Worker = Worker(generation: nat, place: Place, lifecycle: Option<Receipt>, cancelled: bool)

  /** After the receipt shows a completion, the next thing a worker does about it. */
  function Onward(r: Receipt): Place
    requires r.completion.Some?
  {
    if RunSucceeded(r) && r.finalized.None? then Finalizing
    else if RunSucceeded(r) && r.finalized.value.changed && r.changeRequestId.None? then Requesting
    else if r.cleanedAt.None? then Cleaning
    else Reporting
  }

  function AfterPrepare(r: Receipt): Place {
    if r.completion.Some? then Onward(r) else Starting
  }

  // ----- what has happened, with what was durable at that moment

  datatype Event =
    | RuntimeStarted(worker: nat, owner: nat, durable: Option<Receipt>)
    | WorktreeRemoved(durable: Option<Receipt>, ownerRunning: bool)
    | AttemptCompleted(worker: nat, status: Outcome, durable: Option<Receipt>)

  datatype Attempt = Attempt(store: Store, worktree: bool, workers: map<nat, Worker>, events: seq<Event>)

  datatype Action =
    | Claim
    | Cancel(worker: nat)
    | Stop(worker: nat)
    | PreparedAs(worker: nat, made: Receipt)
    | Write(worker: nat)
    | StartRuntime(worker: nat)
    | EndRuntime(worker: nat, completion: Completion)
    | FinalizedAs(worker: nat, finalized: Finalized)
    | ChangeRequested(worker: nat, id: string)
    | RemoveWorktree(worker: nat, at: string)
    | Report(worker: nat)

  function Move(a: Attempt, w: Worker): Attempt {
    a.(workers := a.workers[w.generation := w])
  }

  /** A new lease: the attempt's generation moves on and a worker starts from the stored receipt. */
  function DoClaim(a: Attempt): Attempt {
    if a.store.status.Some? then a
    else
      var g := a.store.generation + 1;
      Move(a.(store := a.store.(generation := g)), Worker(g, Preparing, a.store.lifecycle, false))
  }

  /** Prepare or recover: a stored receipt is kept, otherwise the one just made is to be written first. */
  function DoPrepare(a: Attempt, w: Worker, made: Receipt): Attempt {
    if w.lifecycle.Some? then
      Move(if w.lifecycle.value.completion.Some? || w.lifecycle.value.cleanedAt.Some? then a else a.(worktree := true),
           w.(place := WritingPrepared(w.lifecycle.value)))
    else if Advances(None, made) then Move(a.(worktree := true), w.(place := WritingPrepared(made)))
    else Move(a, w.(place := Over))
  }

  /** Writes the pending receipt; a worker whose write is refused gives up. */
  function DoWrite(a: Attempt, w: Worker): Attempt {
    if !(w.place.WritingPrepared? || w.place.WritingCompletion? || w.place.WritingFinalized? || w.place.WritingCleaned?) then a
    else
      var (s, r) := PersistLifecycle(a.store, w.generation, w.place.next);
      if r != Done then Move(a.(store := s), w.(place := Over))
      else
        Move(a.(store := s), w.(lifecycle := Some(w.place.next), place :=
          if w.place.WritingPrepared? then AfterPrepare(w.place.next)
          else if w.place.next.completion.Some? then Onward(w.place.next) else Over))
  }

  function DoStart(a: Attempt, w: Worker): Attempt
    requires w.lifecycle.Some?
  {
    if w.cancelled then
      var next := w.lifecycle.value.(completion := Some(Completion(Cancelled, "")));
      Move(a, w.(place := WritingCompletion(next)))
    else
      Move(a.(events := a.events + [RuntimeStarted(w.generation, a.store.generation, a.store.lifecycle)]), w.(place := Running))
  }

  function DoEnd(a: Attempt, w: Worker, completion: Completion): Attempt
    requires w.lifecycle.Some?
  {
    var reported := if w.cancelled then Completion(Cancelled, "") else completion;
    Move(a, w.(place := WritingCompletion(w.lifecycle.value.(completion := Some(reported)))))
  }

  function DoFinalize(a: Attempt, w: Worker, finalized: Finalized): Attempt
    requires w.lifecycle.Some?
  {
    var next := w.lifecycle.value.(finalized := Some(finalized));
    if Advances(w.lifecycle, next) then Move(a, w.(place := WritingFinalized(next))) else Move(a, w.(place := Over))
  }

  function DoRequest(a: Attempt, w: Worker, id: string): Attempt
    requires w.lifecycle.Some?
  {
    var next := w.lifecycle.value.(changeRequestId := Some(id));
    var (s, r) := PersistLifecycle(a.store, w.generation, next);
    Move(a.(store := s), if r == Done then w.(lifecycle := Some(next), place := Cleaning) else w.(place := Over))
  }

  predicate OwnerRunning(a: Attempt) {
    a.store.generation in a.workers && a.workers[a.store.generation].place == Running
  }

  /** The coordinator checks that cleaned is the next stage before it touches the directory. */
  function DoRemove(a: Attempt, w: Worker, at: string): Attempt
    requires w.lifecycle.Some?
  {
    var next := w.lifecycle.value.(cleanedAt := Some(at));
    if !Advances(w.lifecycle, next) then Move(a, w.(place := Over))
    else
      Move(a.(worktree := false, events := a.events + [WorktreeRemoved(a.store.lifecycle, OwnerRunning(a))]),
           w.(place := WritingCleaned(next)))
  }

  function DoReport(a: Attempt, w: Worker): Attempt
    requires w.lifecycle.Some? && w.lifecycle.value.completion.Some?
  {
    var status := if w.cancelled then Cancelled else w.lifecycle.value.completion.value.status;
    var (s, r) := Complete(a.store, w.generation, status);
    Move(if r == Done then a.(store := s, events := a.events + [AttemptCompleted(w.generation, status, a.store.lifecycle)]) else a,
         w.(place := Over))
  }

  function Step(a: Attempt, action: Action): Attempt {
    if action.Claim? then DoClaim(a)
    else if action.worker !in a.workers then a
    else
      var w := a.workers[action.worker];
      match action
      case Claim => a
      case Cancel(_) => Move(a, w.(cancelled := true))
      case Stop(_) => Move(a, w.(place := Over))
      case PreparedAs(_, made) => if w.place == Preparing then DoPrepare(a, w, made) else a
      case Write(_) => DoWrite(a, w)
      case StartRuntime(_) => if w.place == Starting && w.lifecycle.Some? then DoStart(a, w) else a
      case EndRuntime(_, completion) => if w.place == Running && w.lifecycle.Some? then DoEnd(a, w, completion) else a
      case FinalizedAs(_, finalized) => if w.place == Finalizing && w.lifecycle.Some? then DoFinalize(a, w, finalized) else a
      case ChangeRequested(_, id) => if w.place == Requesting && w.lifecycle.Some? then DoRequest(a, w, id) else a
      case RemoveWorktree(_, at) => if w.place == Cleaning && w.lifecycle.Some? then DoRemove(a, w, at) else a
      case Report(_) =>
        if w.place == Reporting && w.lifecycle.Some? && w.lifecycle.value.completion.Some? then DoReport(a, w) else a
  }

  function Steps(a: Attempt, actions: seq<Action>): Attempt
    decreases |actions|
  {
    if actions == [] then a else Steps(Step(a, actions[0]), actions[1..])
  }

  const NEW_ATTEMPT := Attempt(Store(0, None, None), false, map[], [])

  // ----- what every step keeps

  ghost predicate StoreSound(s: Store) {
    && (s.lifecycle.Some? ==> Valid(s.lifecycle.value) && InOrder(s.lifecycle.value))
    && (s.status.Some? ==> MayComplete(s, s.status.value))
  }

  ghost predicate Behind(r: Option<Receipt>, durable: Option<Receipt>) {
    r.Some? ==> Valid(r.value) && InOrder(r.value) && durable.Some? && Keeps(r.value, durable.value)
  }

  /** A worker's copy never says more than what is durable, and the owner's copy says exactly that. */
  ghost predicate WorkerSound(s: Store, g: nat, w: Worker) {
    && w.generation == g && g <= s.generation && Behind(w.lifecycle, s.lifecycle)
    && (g == s.generation && s.status.None? ==> w.lifecycle == s.lifecycle)
    && (w.place == Starting || w.place == Running ==> w.lifecycle.Some? && w.lifecycle.value.completion.None?)
    && ((w.place == Starting || w.place == Running) && g == s.generation ==>
          s.status.None? && s.lifecycle.Some? && s.lifecycle.value.completion.None?)
  }

  /** When a worktree may go: the run is over, and if it succeeded its result is safely recorded. */
  predicate ResultSafe(r: Receipt) {
    && r.completion.Some?
    && (RunSucceeded(r) ==> r.finalized.Some? && (r.finalized.value.changed ==> r.changeRequestId.Some?))
  }

  ghost predicate EventSound(e: Event) {
    match e
    case RuntimeStarted(worker, owner, durable) =>
      worker <= owner && (worker == owner ==> durable.Some? && durable.value.completion.None?)
    case WorktreeRemoved(durable, ownerRunning) => durable.Some? && ResultSafe(durable.value) && !ownerRunning
    case AttemptCompleted(_, status, durable) =>
      if durable.None? then status == Cancelled else durable.value.cleanedAt.Some? && ResultSafe(durable.value)
  }

  ghost predicate Sound(a: Attempt) {
    && StoreSound(a.store)
    && (forall g | g in a.workers :: WorkerSound(a.store, g, a.workers[g]))
    && (forall i | 0 <= i < |a.events| :: EventSound(a.events[i]))
  }

  lemma KeepsIsTransitive(a: Receipt, b: Receipt, c: Receipt)
    requires Keeps(a, b) && Keeps(b, c)
    ensures Keeps(a, c)
  {
  }

  lemma AdvanceKeepsAll(previous: Option<Receipt>, next: Receipt)
    requires Advances(previous, next) && (previous.Some? ==> InOrder(previous.value))
    ensures Valid(next) && InOrder(next) && (previous.Some? ==> Keeps(previous.value, next))
    ensures Behind(previous, Some(next))
  {
    if previous.Some? {
      AdvanceKeepsOrder(previous.value, next);
      if previous.value != next { StrictAdvance(previous.value, next); }
    }
  }

  /** A write that goes through leaves the store sound and every other worker behind it. */
  lemma WriteKeepsStore(s: Store, generation: nat, next: Receipt)
    requires StoreSound(s)
    ensures
      var (s', r) := PersistLifecycle(s, generation, next);
      && StoreSound(s') && s'.generation == s.generation && s'.status == s.status
      && (r == Done ==> s'.lifecycle == Some(next) && generation == s.generation && s.status.None? && Behind(s.lifecycle, s'.lifecycle))
      && (r != Done ==> s' == s)
  {
    if Holds(s, generation) && Advances(s.lifecycle, next) { AdvanceKeepsAll(s.lifecycle, next); }
  }

  /** Workers that do not hold the lease stay sound whatever the owner writes. */
  lemma OthersStaySound(a: Attempt, s': Store, w: Worker, g: nat)
    requires Sound(a) && g in a.workers && g != w.generation
    requires s'.generation == a.store.generation && Behind(a.store.lifecycle, s'.lifecycle)
    requires s' == a.store || w.generation == s'.generation
    ensures WorkerSound(s', g, a.workers[g])
  {
    assert WorkerSound(a.store, g, a.workers[g]);
    var r := a.workers[g].lifecycle;
    if r.Some? { KeepsIsTransitive(r.value, a.store.lifecycle.value, s'.lifecycle.value); }
  }

  /** Moving one worker, leaving the store alone. */
  lemma LocalMoveKeeps(a: Attempt, w: Worker)
    requires Sound(a) && WorkerSound(a.store, w.generation, w)
    ensures Sound(Move(a, w))
  {
  }

  lemma EventKeeps(a: Attempt, e: Event)
    requires Sound(a) && EventSound(e)
    ensures Sound(a.(events := a.events + [e]))
  {
  }

  lemma BehindSelf(s: Store)
    requires StoreSound(s)
    ensures Behind(s.lifecycle, s.lifecycle)
  {
  }

  lemma StoreMoveKeeps(a: Attempt, s': Store, w: Worker)
    requires Sound(a) && StoreSound(s') && w.generation in a.workers && WorkerSound(s', w.generation, w)
    requires s'.generation == a.store.generation && Behind(a.store.lifecycle, s'.lifecycle)
    requires s' == a.store || w.generation == s'.generation
    ensures Sound(Move(a.(store := s'), w))
  {
    forall g | g in a.workers && g != w.generation ensures WorkerSound(s', g, a.workers[g]) {
      OthersStaySound(a, s', w, g);
    }
  }

  lemma ClaimKeeps(a: Attempt)
    requires Sound(a)
    ensures Sound(DoClaim(a))
  {
    if a.store.status.None? {
      var s' := a.store.(generation := a.store.generation + 1);
      forall g | g in a.workers ensures WorkerSound(s', g, a.workers[g]) {
        assert WorkerSound(a.store, g, a.workers[g]);
      }
    }
  }

  lemma WriteKeeps(a: Attempt, w: Worker)
    requires Sound(a) && w.generation in a.workers && a.workers[w.generation] == w
    ensures Sound(DoWrite(a, w))
  {
    assert WorkerSound(a.store, w.generation, w);
    if w.place.WritingPrepared? || w.place.WritingCompletion? || w.place.WritingFinalized? || w.place.WritingCleaned? {
      WriteKeepsStore(a.store, w.generation, w.place.next);
      BehindSelf(a.store);
      var (s, r) := PersistLifecycle(a.store, w.generation, w.place.next);
      hide PersistLifecycle;
      if r == Done {
        var w' := DoWrite(a, w).workers[w.generation];
        StoreMoveKeeps(a, s, w');
      } else {
        StoreMoveKeeps(a, s, w.(place := Over));
      }
    }
  }

  lemma RequestKeeps(a: Attempt, w: Worker, id: string)
    requires Sound(a) && w.generation in a.workers && a.workers[w.generation] == w && w.lifecycle.Some?
    ensures Sound(DoRequest(a, w, id))
  {
    var next := w.lifecycle.value.(changeRequestId := Some(id));
    assert WorkerSound(a.store, w.generation, w);
    WriteKeepsStore(a.store, w.generation, next);
    BehindSelf(a.store);
    var (s, r) := PersistLifecycle(a.store, w.generation, next);
    hide PersistLifecycle;
    StoreMoveKeeps(a, s, if r == Done then w.(lifecycle := Some(next), place := Cleaning) else w.(place := Over));
  }

  lemma ReportKeeps(a: Attempt, w: Worker)
    requires Sound(a) && w.generation in a.workers && a.workers[w.generation] == w
    requires w.lifecycle.Some? && w.lifecycle.value.completion.Some?
    ensures Sound(DoReport(a, w))
  {
    assert WorkerSound(a.store, w.generation, w);
    BehindSelf(a.store);
    var status := if w.cancelled then Cancelled else w.lifecycle.value.completion.value.status;
    var (s, r) := Complete(a.store, w.generation, status);
    StoreMoveKeeps(a, s, w.(place := Over));
    if r == Done {
      EventKeeps(Move(a.(store := s), w.(place := Over)), AttemptCompleted(w.generation, status, a.store.lifecycle));
    }
  }

  lemma OwnerRunsOpen(a: Attempt)
    requires Sound(a)
    ensures OwnerRunning(a) ==> a.store.lifecycle.Some? && a.store.lifecycle.value.completion.None?
  {
    assert a.store.generation in a.workers ==> WorkerSound(a.store, a.store.generation, a.workers[a.store.generation]);
  }

  /** A worker about to remove the directory has the result in its copy, and so in the store. */
  lemma RemoveKeeps(a: Attempt, w: Worker, at: string)
    requires Sound(a) && w.generation in a.workers && a.workers[w.generation] == w && w.lifecycle.Some?
    ensures Sound(DoRemove(a, w, at))
  {
    var next := w.lifecycle.value.(cleanedAt := Some(at));
    assert WorkerSound(a.store, w.generation, w);
    if Advances(w.lifecycle, next) {
      if w.lifecycle.value != next { StrictAdvance(w.lifecycle.value, next); }
      assert ResultSafe(w.lifecycle.value) && ResultSafe(a.store.lifecycle.value);
      OwnerRunsOpen(a);
      EventKeeps(a, WorktreeRemoved(a.store.lifecycle, OwnerRunning(a)));
    }
  }

  lemma StartKeeps(a: Attempt, w: Worker)
    requires Sound(a) && w.generation in a.workers && a.workers[w.generation] == w
    requires w.lifecycle.Some? && w.place == Starting
    ensures Sound(DoStart(a, w))
  {
    assert WorkerSound(a.store, w.generation, w);
    if !w.cancelled {
      EventKeeps(a, RuntimeStarted(w.generation, a.store.generation, a.store.lifecycle));
    }
  }

  lemma PrepareKeeps(a: Attempt, w: Worker, made: Receipt)
    requires Sound(a) && w.generation in a.workers && a.workers[w.generation] == w
    ensures Sound(DoPrepare(a, w, made))
  {
    assert WorkerSound(a.store, w.generation, w);
  }

  lemma EndKeeps(a: Attempt, w: Worker, completion: Completion)
    requires Sound(a) && w.generation in a.workers && a.workers[w.generation] == w && w.lifecycle.Some?
    ensures Sound(DoEnd(a, w, completion))
  {
    assert WorkerSound(a.store, w.generation, w);
  }

  lemma FinalizedKeeps(a: Attempt, w: Worker, finalized: Finalized)
    requires Sound(a) && w.generation in a.workers && a.workers[w.generation] == w && w.lifecycle.Some?
    ensures Sound(DoFinalize(a, w, finalized))
  {
    assert WorkerSound(a.store, w.generation, w);
  }

  lemma StepKeeps(a: Attempt, action: Action)
    requires Sound(a)
    ensures Sound(Step(a, action))
  {
    hide DoClaim, DoPrepare, DoWrite, DoStart, DoEnd, DoFinalize, DoRequest, DoRemove, DoReport;
    if action.Claim? {
      ClaimKeeps(a);
    } else if action.worker in a.workers {
      var w := a.workers[action.worker];
      assert WorkerSound(a.store, action.worker, w);
      match action
      case Write(_) => WriteKeeps(a, w);
      case ChangeRequested(_, id) => if w.place == Requesting && w.lifecycle.Some? { RequestKeeps(a, w, id); }
      case RemoveWorktree(_, at) => if w.place == Cleaning && w.lifecycle.Some? { RemoveKeeps(a, w, at); }
      case Report(_) =>
        if w.place == Reporting && w.lifecycle.Some? && w.lifecycle.value.completion.Some? { ReportKeeps(a, w); }
      case StartRuntime(_) => if w.place == Starting && w.lifecycle.Some? { StartKeeps(a, w); }
      case Cancel(_) => LocalMoveKeeps(a, w.(cancelled := true));
      case Stop(_) => LocalMoveKeeps(a, w.(place := Over));
      case PreparedAs(_, made) => if w.place == Preparing { PrepareKeeps(a, w, made); }
      case EndRuntime(_, completion) => if w.place == Running && w.lifecycle.Some? { EndKeeps(a, w, completion); }
      case FinalizedAs(_, finalized) => if w.place == Finalizing && w.lifecycle.Some? { FinalizedKeeps(a, w, finalized); }
    }
  }

  // ----- over whole runs

  lemma {:induction false} StepsKeep(a: Attempt, actions: seq<Action>)
    requires Sound(a)
    ensures Sound(Steps(a, actions))
    decreases |actions|
  {
    hide Sound, Step;
    if actions != [] {
      StepKeeps(a, actions[0]);
      StepsKeep(Step(a, actions[0]), actions[1..]);
    }
  }

  lemma NewIsSound()
    ensures Sound(NEW_ATTEMPT)
  {
  }

  /**
   * Whatever workers do, in whatever order, and wherever they stop: the worktree
   * is removed only when a completion is durable and, if the run succeeded, the
   * finalized result too, with its change request when files changed; and never
   * while the current owner has a runtime in it.
   */
  lemma WorktreeOutlivesResult(actions: seq<Action>, i: nat)
    requires i < |Steps(NEW_ATTEMPT, actions).events| && Steps(NEW_ATTEMPT, actions).events[i].WorktreeRemoved?
    ensures
      var e := Steps(NEW_ATTEMPT, actions).events[i];
      e.durable.Some? && ResultSafe(e.durable.value) && !e.ownerRunning
  {
    NewIsSound();
    StepsKeep(NEW_ATTEMPT, actions);
    assert EventSound(Steps(NEW_ATTEMPT, actions).events[i]);
  }

  /** The attempt is completed only with a cleaned receipt, or as cancelled without one. */
  lemma CompletedOnlyWhenClean(actions: seq<Action>, i: nat)
    requires i < |Steps(NEW_ATTEMPT, actions).events| && Steps(NEW_ATTEMPT, actions).events[i].AttemptCompleted?
    ensures
      var e := Steps(NEW_ATTEMPT, actions).events[i];
      if e.durable.None? then e.status == Cancelled else e.durable.value.cleanedAt.Some? && ResultSafe(e.durable.value)
  {
    NewIsSound();
    StepsKeep(NEW_ATTEMPT, actions);
    assert EventSound(Steps(NEW_ATTEMPT, actions).events[i]);
  }

  /**
   * A worker that holds the lease never starts a runtime once a completion is
   * durable. Only a worker that has been overtaken since it wrote its prepared
   * receipt can.
   */
  lemma OwnerNeverRestarts(actions: seq<Action>, i: nat)
    requires i < |Steps(NEW_ATTEMPT, actions).events| && Steps(NEW_ATTEMPT, actions).events[i].RuntimeStarted?
    ensures
      var e := Steps(NEW_ATTEMPT, actions).events[i];
      e.worker == e.owner ==> e.durable.Some? && e.durable.value.completion.None?
  {
    NewIsSound();
    StepsKeep(NEW_ATTEMPT, actions);
    assert EventSound(Steps(NEW_ATTEMPT, actions).events[i]);
  }

  // ----- two runs

  lemma StepsConcat(a: Attempt, x: Action, rest: seq<Action>)
    ensures Steps(a, [x] + rest) == Steps(Step(a, x), rest)
  {
    assert ([x] + rest)[1..] == rest;
  }

  /** The attempt after its first worker has written the prepared receipt. */
  function PreparedAttempt(made: Receipt): Attempt {
    Attempt(Store(1, Some(made), None), true, map[1 := Worker(1, Starting, Some(made), false)], [])
  }

  lemma ReachPrepared(made: Receipt, rest: seq<Action>)
    requires Valid(made) && NothingPresent(made)
    ensures Steps(NEW_ATTEMPT, [Claim] + ([PreparedAs(1, made)] + ([Write(1)] + rest))) == Steps(PreparedAttempt(made), rest)
  {
    StepsConcat(NEW_ATTEMPT, Claim, [PreparedAs(1, made)] + ([Write(1)] + rest));
    var a := Step(NEW_ATTEMPT, Claim);
    StepsConcat(a, PreparedAs(1, made), [Write(1)] + rest);
    StepsConcat(Step(a, PreparedAs(1, made)), Write(1), rest);
    assert Step(Step(a, PreparedAs(1, made)), Write(1)) == PreparedAttempt(made);
  }

  /** The state once a second worker has taken over and recorded that its run failed. */
  function OvertakenAttempt(made: Receipt, failed: Completion): Attempt {
    var done := made.(completion := Some(failed));
    Attempt(Store(2, Some(done), None), true,
            map[1 := Worker(1, Starting, Some(made), false), 2 := Worker(2, Cleaning, Some(done), false)],
            [RuntimeStarted(2, 2, Some(made))])
  }

  lemma ReachOvertaken(made: Receipt, failed: Completion, rest: seq<Action>)
    requires Valid(made) && NothingPresent(made) && failed.status == FailedRun
    ensures
      Steps(PreparedAttempt(made),
            [Claim] + ([PreparedAs(2, made)] + ([Write(2)] + ([StartRuntime(2)] + ([EndRuntime(2, failed)] + ([Write(2)] + rest))))))
      == Steps(OvertakenAttempt(made, failed), rest)
  {
    var a0 := PreparedAttempt(made);
    var a1 := Step(a0, Claim);
    var a2 := Step(a1, PreparedAs(2, made));
    var a3 := Step(a2, Write(2));
    var a4 := Step(a3, StartRuntime(2));
    var a5 := Step(a4, EndRuntime(2, failed));
    TakenOver(made, failed, a1, a2, a3, a4, a5);
    hide *;
    var s5 := [Write(2)] + rest;
    var s4 := [EndRuntime(2, failed)] + s5;
    var s3 := [StartRuntime(2)] + s4;
    var s2 := [Write(2)] + s3;
    var s1 := [PreparedAs(2, made)] + s2;
    StepsConcat(a5, Write(2), rest);
    StepsConcat(a4, EndRuntime(2, failed), s5);
    StepsConcat(a3, StartRuntime(2), s4);
    StepsConcat(a2, Write(2), s3);
    StepsConcat(a1, PreparedAs(2, made), s2);
    StepsConcat(a0, Claim, s1);
  }

  lemma TakenOver(made: Receipt, failed: Completion, a1: Attempt, a2: Attempt, a3: Attempt, a4: Attempt, a5: Attempt)
    requires Valid(made) && NothingPresent(made) && failed.status == FailedRun
    requires a1 == Step(PreparedAttempt(made), Claim) && a2 == Step(a1, PreparedAs(2, made)) && a3 == Step(a2, Write(2))
    requires a4 == Step(a3, StartRuntime(2)) && a5 == Step(a4, EndRuntime(2, failed))
    ensures Step(a5, Write(2)) == OvertakenAttempt(made, failed)
  {
    var w1 := Worker(1, Starting, Some(made), false);
    var done := made.(completion := Some(failed));
    assert a3 == Attempt(Store(2, Some(made), None), true, map[1 := w1, 2 := Worker(2, Starting, Some(made), false)], []);
    assert a5.store == a3.store && a5.workers[2] == Worker(2, WritingCompletion(done), Some(made), false);
    assert Advances(Some(made), done);
  }

  /** An overtaken worker, stopped between writing its prepared receipt and starting, starts a runtime after the completion. */
  lemma OvertakenWorkerRestarts(made: Receipt, failed: Completion) returns (actions: seq<Action>)
    requires Valid(made) && NothingPresent(made) && failed.status == FailedRun
    ensures
      var events := Steps(NEW_ATTEMPT, actions).events;
      && events != []
      && var e := events[|events| - 1];
      e.RuntimeStarted? && e.worker < e.owner && e.durable.Some? && e.durable.value.completion == Some(failed)
  {
    var late := [StartRuntime(1)];
    var takeover := [Claim] + ([PreparedAs(2, made)] + ([Write(2)] + ([StartRuntime(2)] + ([EndRuntime(2, failed)] + ([Write(2)] + late)))));
    actions := [Claim] + ([PreparedAs(1, made)] + ([Write(1)] + takeover));
    ReachPrepared(made, takeover);
    ReachOvertaken(made, failed, late);
    var a := OvertakenAttempt(made, failed);
    assert late == late + [] && [StartRuntime(1)] + [] == late;
    StepsConcat(a, StartRuntime(1), []);
  }
}
