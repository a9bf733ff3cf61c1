/**
 * Exactly when a worker that is about to start a runtime can do so after the
 * attempt's completion is already durable.
 */
module AttemptRestarts {
  import opened Prelude
  import opened Lifecycle
  import opened Attempt

  predicate CompletionDurable(a: Attempt) {
    a.store.lifecycle.Some? && a.store.lifecycle.value.completion.Some?
  }

  /** The worker that holds the lease has not stopped. */
  predicate OwnerLive(a: Attempt) {
    a.store.generation in a.workers && a.workers[a.store.generation].place != Over
  }

  predicate StartedLate(e: Event, g: nat) {
    e.RuntimeStarted? && e.worker == g && e.durable.Some? && e.durable.value.completion.Some?
  }

  /** These steps have worker `g` start a runtime after a durable completion. */
  ghost predicate Restarts(a: Attempt, actions: seq<Action>, g: nat) {
    exists i :: |a.events| <= i < |Steps(a, actions).events| && StartedLate(Steps(a, actions).events[i], g)
  }

  ghost predicate NoClaims(actions: seq<Action>) {
    forall i | 0 <= i < |actions| :: !actions[i].Claim?
  }

  // ----- where a worker is and what it is about to write

  predicate PlaceSound(w: Worker) {
    match w.place
    case Preparing => true
    case WritingPrepared(next) => w.lifecycle.Some? ==> next == w.lifecycle.value
    case Starting => w.lifecycle.Some?
    case Running => w.lifecycle.Some?
    case WritingCompletion(next) =>
      w.lifecycle.Some? && next.completion.Some? && next == w.lifecycle.value.(completion := next.completion)
    case Over => true
    case _ => w.lifecycle.Some? && w.lifecycle.value.completion.Some?
  }

  ghost predicate PlacesSound(a: Attempt) {
    forall g | g in a.workers :: PlaceSound(a.workers[g])
  }

  lemma MovePlaces(a: Attempt, s: Store, w: Worker)
    requires PlacesSound(a) && PlaceSound(w)
    ensures PlacesSound(Move(a.(store := s), w)) && PlacesSound(Move(a, w))
  {
  }

  lemma WritePlaces(a: Attempt, w: Worker)
    requires PlacesSound(a) && PlaceSound(w)
    ensures PlacesSound(DoWrite(a, w))
  {
    if w.place.WritingPrepared? || w.place.WritingCompletion? || w.place.WritingFinalized? || w.place.WritingCleaned? {
      var (s, r) := PersistLifecycle(a.store, w.generation, w.place.next);
      hide PersistLifecycle;
      MovePlaces(a, s, w.(place := Over));
      if r == Done {
        var next := w.(lifecycle := Some(w.place.next), place :=
          if w.place.WritingPrepared? then AfterPrepare(w.place.next)
          else if w.place.next.completion.Some? then Onward(w.place.next) else Over);
        MovePlaces(a, s, next);
      }
    }
  }

  lemma StepPlaces(a: Attempt, action: Action)
    requires PlacesSound(a)
    ensures PlacesSound(Step(a, action))
  {
    hide PersistLifecycle, Complete, Advances, Onward, DoWrite;
    if !action.Claim? && action.worker in a.workers {
      var w := a.workers[action.worker];
      assert PlaceSound(w);
      if action.Write? { WritePlaces(a, w); }
    }
  }

  lemma {:induction false} StepsPlaces(a: Attempt, actions: seq<Action>)
    requires PlacesSound(a)
    ensures PlacesSound(Steps(a, actions))
    decreases |actions|
  {
    hide PlacesSound, Step;
    if actions != [] {
      StepPlaces(a, actions[0]);
      StepsPlaces(Step(a, actions[0]), actions[1..]);
    }
  }

  // ----- steps without a new lease

  /** One step adds at most one event, about the lease and the receipt of that moment. */
  ghost predicate Continues(a: Attempt, a': Attempt) {
    && a'.store.generation == a.store.generation && |a.events| <= |a'.events| && a'.events[..|a.events|] == a.events
    && forall i | |a.events| <= i < |a'.events| && a'.events[i].RuntimeStarted? :: a'.events[i].owner == a.store.generation
  }

  lemma StepContinues(a: Attempt, action: Action)
    requires !action.Claim?
    ensures Continues(a, Step(a, action))
  {
    hide Advances, Onward, AfterPrepare, OwnerRunning, MayComplete;
  }

  lemma ContinuesOn(a: Attempt, a1: Attempt, a2: Attempt)
    requires Continues(a, a1) && Continues(a1, a2)
    ensures Continues(a, a2)
  {
    forall i | |a.events| <= i < |a2.events| && a2.events[i].RuntimeStarted? ensures a2.events[i].owner == a.store.generation {
      if i < |a1.events| { assert a2.events[..|a1.events|][i] == a1.events[i]; }
    }
    assert a2.events[..|a.events|] == a2.events[..|a1.events|][..|a.events|];
  }

  lemma {:induction false} StepsContinue(a: Attempt, actions: seq<Action>)
    requires NoClaims(actions)
    ensures Continues(a, Steps(a, actions))
    decreases |actions|
  {
    if actions == [] {
      assert a.events[..|a.events|] == a.events;
    } else {
      assert NoClaims(actions[1..]) && !actions[0].Claim?;
      hide Continues, Step, NoClaims;
      StepContinues(a, actions[0]);
      StepsContinue(Step(a, actions[0]), actions[1..]);
      ContinuesOn(a, Step(a, actions[0]), Steps(a, actions));
    }
  }

  /** With its holder gone, the receipt stays as it is, and so does what every event reports. */
  ghost predicate Stalled(a: Attempt, a': Attempt) {
    && a'.store == a.store && !OwnerLive(a') && |a.events| <= |a'.events| && a'.events[..|a.events|] == a.events
    && (forall i | |a.events| <= i < |a'.events| && a'.events[i].RuntimeStarted? :: a'.events[i].durable == a.store.lifecycle)
  }

  lemma FencedOut(s: Store, g: nat)
    requires g != s.generation
    ensures forall next :: PersistLifecycle(s, g, next) == (s, Fenced)
    ensures forall status :: Complete(s, g, status) == (s, Fenced)
  {
  }

  lemma StoppedHolderStalls(a: Attempt, action: Action, w: Worker)
    requires !OwnerLive(a) && !action.Claim? && action.worker in a.workers && w == a.workers[action.worker]
    requires action.worker == a.store.generation && w.generation == action.worker
    ensures Stalled(a, Step(a, action))
  {
    assert w.place == Over;
  }

  lemma OthersStall(a: Attempt, action: Action, w: Worker)
    requires !OwnerLive(a) && !action.Claim? && action.worker in a.workers && w == a.workers[action.worker]
    requires action.worker != a.store.generation && w.generation == action.worker
    ensures Stalled(a, Step(a, action))
  {
    FencedOut(a.store, action.worker);
    hide Advances, Onward, AfterPrepare, OwnerRunning, PersistLifecycle, Complete;
  }

  lemma StepStalls(a: Attempt, action: Action)
    requires Sound(a) && !OwnerLive(a) && !action.Claim?
    ensures Stalled(a, Step(a, action))
  {
    hide *;
    if action.worker in a.workers {
      WorkerNamed(a, action.worker);
      if action.worker == a.store.generation {
        StoppedHolderStalls(a, action, a.workers[action.worker]);
      } else {
        OthersStall(a, action, a.workers[action.worker]);
      }
    } else {
      NobodyStalls(a, action);
    }
  }

  lemma WorkerNamed(a: Attempt, g: nat)
    requires Sound(a) && g in a.workers
    ensures a.workers[g].generation == g
  {
    assert WorkerSound(a.store, g, a.workers[g]);
  }

  lemma NobodyStalls(a: Attempt, action: Action)
    requires !OwnerLive(a) && !action.Claim? && action.worker !in a.workers
    ensures Stalled(a, Step(a, action))
  {
  }

  lemma StallsOn(a: Attempt, a1: Attempt, a2: Attempt)
    requires Stalled(a, a1) && Stalled(a1, a2)
    ensures Stalled(a, a2)
  {
    forall i | |a.events| <= i < |a2.events| && a2.events[i].RuntimeStarted? ensures a2.events[i].durable == a.store.lifecycle {
      if i < |a1.events| { assert a2.events[..|a1.events|][i] == a1.events[i]; }
    }
    assert a2.events[..|a.events|] == a2.events[..|a1.events|][..|a.events|];
  }

  lemma {:induction false} StepsStall(a: Attempt, actions: seq<Action>)
    requires Sound(a) && !OwnerLive(a) && NoClaims(actions)
    ensures Stalled(a, Steps(a, actions))
    decreases |actions|
  {
    if actions == [] {
      assert a.events[..|a.events|] == a.events;
    } else {
      assert NoClaims(actions[1..]) && !actions[0].Claim?;
      StepStalls(a, actions[0]);
      StepKeeps(a, actions[0]);
      assert !OwnerLive(Step(a, actions[0]));
      hide Stalled, Step, NoClaims, Sound, OwnerLive;
      StepsStall(Step(a, actions[0]), actions[1..]);
      StallsOn(a, Step(a, actions[0]), Steps(a, actions));
    }
  }

  /** A late start without a new lease: the worker is not the holder, and the completion is there or its holder can write it. */
  lemma LateStartNeeds(a: Attempt, actions: seq<Action>, g: nat)
    requires Sound(a) && NoClaims(actions) && Restarts(a, actions, g)
    ensures g < a.store.generation && (CompletionDurable(a) || OwnerLive(a))
  {
    var a' := Steps(a, actions);
    var i :| |a.events| <= i < |a'.events| && StartedLate(a'.events[i], g);
    StepsKeep(a, actions);
    StepsContinue(a, actions);
    assert EventSound(a'.events[i]);
    if !OwnerLive(a) { StepsStall(a, actions); }
    hide Steps, Sound;
  }

  // ----- the holder carries on until the completion is durable

  /** The holder can still record a completion, and `g` waits at its start. */
  ghost predicate Poised(a: Attempt, g: nat) {
    && Sound(a) && PlacesSound(a) && g < a.store.generation && g in a.workers
    && a.workers[g].place == Starting && !a.workers[g].cancelled
  }

  lemma WaitingStays(a: Attempt, action: Action, g: nat)
    requires Poised(a, g) && !action.Claim? && action.worker == a.store.generation
    ensures Poised(Step(a, action), g)
  {
    StepKeeps(a, action);
    StepPlaces(a, action);
    StepContinues(a, action);
    WaitingAlone(a, action, g);
    hide Sound, PlacesSound, Step;
  }

  lemma WaitingAlone(a: Attempt, action: Action, g: nat)
    requires !action.Claim? && g in a.workers && action.worker != g
    requires action.worker in a.workers ==> a.workers[action.worker].generation == action.worker
    ensures g in Step(a, action).workers && Step(a, action).workers[g] == a.workers[g]
  {
    hide Advances, Onward, AfterPrepare, OwnerRunning, MayComplete, Holds;
  }

  /** Steps a worker has left before its completion is durable. */
  function Left(p: Place): nat {
    match p
    case Preparing => 5
    case WritingPrepared(_) => 4
    case Starting => 3
    case Running => 2
    case WritingCompletion(_) => 1
    case _ => 0
  }

  function NextAction(w: Worker): Action {
    match w.place
    case Preparing => PreparedAs(w.generation, if w.lifecycle.Some? then w.lifecycle.value else ANY_RECEIPT)
    case Starting => StartRuntime(w.generation)
    case Running => EndRuntime(w.generation, Completion(FailedRun, ""))
    case _ => Write(w.generation)
  }

  const ANY_RECEIPT := Receipt(Binding("", "", "", None, "", ""), Prepared("", "", "", "", "", "", "", "", 0, None), None, None, None, None)

  lemma HolderKnows(a: Attempt)
    requires Sound(a) && PlacesSound(a) && a.store.lifecycle.Some? && !CompletionDurable(a) && OwnerLive(a)
    ensures
      var w := a.workers[a.store.generation];
      && a.store.status.None? && w.generation == a.store.generation && w.lifecycle == a.store.lifecycle
      && Left(w.place) > 0 && PlaceSound(w) && Valid(a.store.lifecycle.value) && NothingPresent(a.store.lifecycle.value)
  {
    assert WorkerSound(a.store, a.store.generation, a.workers[a.store.generation]);
    assert StoreSound(a.store);
  }

  lemma CompletionAdvances(r: Receipt, next: Receipt)
    requires Valid(r) && NothingPresent(r) && next == r.(completion := next.completion) && next.completion.Some?
    ensures Advances(Some(r), next)
  {
  }

  lemma ReplayAdvances(r: Receipt)
    requires Valid(r)
    ensures Advances(Some(r), r)
  {
  }

  lemma HolderMoves(a: Attempt, w: Worker)
    requires w.generation == a.store.generation && a.store.generation in a.workers && a.workers[a.store.generation] == w
    requires a.store.status.None? && a.store.lifecycle.Some? && w.lifecycle == a.store.lifecycle && PlaceSound(w) && Left(w.place) > 0
    requires Valid(a.store.lifecycle.value) && NothingPresent(a.store.lifecycle.value)
    ensures
      var a' := Step(a, NextAction(w));
      && a'.store.lifecycle.Some? && a'.store.generation == a.store.generation
      && (CompletionDurable(a') || (OwnerLive(a') && Left(a'.workers[a.store.generation].place) < Left(w.place)))
  {
    var r := a.store.lifecycle.value;
    ReplayAdvances(r);
    if w.place.WritingCompletion? { CompletionAdvances(r, w.place.next); }
    hide Advances, Valid, NothingPresent, OwnerRunning, MayComplete;
  }

  lemma {:induction false} HolderFinishes(a: Attempt, g: nat) returns (actions: seq<Action>)
    requires Poised(a, g) && a.store.lifecycle.Some? && (CompletionDurable(a) || OwnerLive(a))
    ensures NoClaims(actions) && Poised(Steps(a, actions), g) && CompletionDurable(Steps(a, actions))
    decreases if CompletionDurable(a) then 0 else Left(a.workers[a.store.generation].place)
  {
    if CompletionDurable(a) {
      actions := [];
    } else {
      HolderKnows(a);
      var w := a.workers[a.store.generation];
      HolderMoves(a, w);
      var x := NextAction(w);
      WaitingStays(a, x, g);
      hide Poised, Step, CompletionDurable, OwnerLive;
      var rest := HolderFinishes(Step(a, x), g);
      actions := [x] + rest;
      StepsConcat(a, x, rest);
    }
  }

  lemma {:induction false} StepsSplit(a: Attempt, first: seq<Action>, then_: seq<Action>)
    ensures Steps(a, first + then_) == Steps(Steps(a, first), then_)
    decreases |first|
  {
    if first == [] {
      assert first + then_ == then_;
    } else {
      assert (first + then_)[1..] == first[1..] + then_;
      StepsSplit(Step(a, first[0]), first[1..], then_);
    }
  }

  lemma StartsLate(a: Attempt, g: nat)
    requires Poised(a, g) && CompletionDurable(a)
    ensures
      var a' := Step(a, StartRuntime(g));
      |a'.events| == |a.events| + 1 && StartedLate(a'.events[|a.events|], g)
  {
    assert PlaceSound(a.workers[g]) && WorkerSound(a.store, g, a.workers[g]);
  }

  lemma OneStart(a: Attempt, g: nat)
    ensures Steps(a, [StartRuntime(g)]) == Step(a, StartRuntime(g))
  {
    assert [StartRuntime(g)] + [] == [StartRuntime(g)];
    StepsConcat(a, StartRuntime(g), []);
  }

  lemma LateStartReached(a: Attempt, g: nat) returns (actions: seq<Action>)
    requires Poised(a, g) && a.store.lifecycle.Some? && (CompletionDurable(a) || OwnerLive(a))
    ensures NoClaims(actions) && Restarts(a, actions, g)
  {
    var before := HolderFinishes(a, g);
    var a1 := Steps(a, before);
    StepsContinue(a, before);
    StartsLate(a1, g);
    OneStart(a1, g);
    actions := before + [StartRuntime(g)];
    StepsSplit(a, before, [StartRuntime(g)]);
    assert StartedLate(Steps(a, actions).events[|a1.events|], g);
    hide Steps, Poised;
  }

  // ----- the result

  ghost predicate Reached(a: Attempt) {
    exists actions :: a == Steps(NEW_ATTEMPT, actions)
  }

  lemma ReachedIsSound(a: Attempt)
    requires Reached(a)
    ensures Sound(a) && PlacesSound(a)
  {
    var actions :| a == Steps(NEW_ATTEMPT, actions);
    NewIsSound();
    StepsKeep(NEW_ATTEMPT, actions);
    StepsPlaces(NEW_ATTEMPT, actions);
  }

  ghost predicate CanRestart(a: Attempt, g: nat) {
    exists actions :: NoClaims(actions) && Restarts(a, actions, g)
  }

  lemma StarterKnowsReceipt(a: Attempt, g: nat)
    requires Sound(a) && g in a.workers && a.workers[g].place == Starting
    ensures a.store.lifecycle.Some? && g <= a.store.generation
  {
    assert WorkerSound(a.store, g, a.workers[g]);
  }

  /**
   * In every reachable attempt: an uncancelled worker about to start its runtime
   * can do so after a durable completion, with nobody taking a new lease, exactly
   * when another worker has taken the lease from it and either the completion is
   * durable already or that holder has not stopped.
   */
  lemma RestartsIff(a: Attempt, g: nat)
    requires Reached(a) && g in a.workers && a.workers[g].place == Starting && !a.workers[g].cancelled
    ensures CanRestart(a, g) <==> g < a.store.generation && (CompletionDurable(a) || OwnerLive(a))
  {
    ReachedIsSound(a);
    StarterKnowsReceipt(a, g);
    if g < a.store.generation && (CompletionDurable(a) || OwnerLive(a)) {
      var actions := LateStartReached(a, g);
    }
    if CanRestart(a, g) {
      var actions :| NoClaims(actions) && Restarts(a, actions, g);
      LateStartNeeds(a, actions, g);
    }
  }

  lemma ClaimMakesLive(a: Attempt, g: nat)
    requires Sound(a) && PlacesSound(a) && a.store.status.None? && g in a.workers && g <= a.store.generation
    requires a.workers[g].place == Starting && !a.workers[g].cancelled
    ensures Poised(Step(a, Claim), g) && OwnerLive(Step(a, Claim))
    ensures Step(a, Claim).store.lifecycle == a.store.lifecycle && Step(a, Claim).events == a.events
  {
    StepKeeps(a, Claim);
    StepPlaces(a, Claim);
    hide Sound, PlacesSound;
  }

  lemma EndedIsComplete(a: Attempt, g: nat)
    requires Sound(a) && a.store.status.Some? && g in a.workers && a.workers[g].place == Starting
    ensures CompletionDurable(a) && g < a.store.generation
  {
    assert WorkerSound(a.store, g, a.workers[g]) && StoreSound(a.store);
  }

  /** If leases may still be taken, every uncancelled worker about to start can end up doing so too late. */
  lemma TakeoverMakesItPossible(a: Attempt, g: nat) returns (actions: seq<Action>)
    requires Reached(a) && g in a.workers && a.workers[g].place == Starting && !a.workers[g].cancelled
    ensures Restarts(a, actions, g)
  {
    ReachedIsSound(a);
    StarterKnowsReceipt(a, g);
    if a.store.status.Some? {
      EndedIsComplete(a, g);
      actions := LateStartReached(a, g);
    } else {
      ClaimMakesLive(a, g);
      var a1 := Step(a, Claim);
      var rest := LateStartReached(a1, g);
      actions := [Claim] + rest;
      StepsConcat(a, Claim, rest);
      hide Steps, Poised, Step;
      var i :| |a1.events| <= i < |Steps(a1, rest).events| && StartedLate(Steps(a1, rest).events[i], g);
      assert StartedLate(Steps(a, actions).events[i], g);
    }
  }

  /** Being overtaken alone is not enough: the new holder stopped before it wrote anything. */
  lemma StoppedHolderPreventsIt(made: Receipt) returns (a: Attempt)
    requires Valid(made) && NothingPresent(made)
    ensures Reached(a) && 1 in a.workers && a.workers[1].place == Starting && !a.workers[1].cancelled
    ensures 1 < a.store.generation && !CanRestart(a, 1)
  {
    var a0 := PreparedAttempt(made);
    var more := [Claim] + ([Stop(2)] + []);
    ReachPrepared(made, more);
    a := Steps(a0, more);
    StepsConcat(a0, Claim, [Stop(2)] + []);
    StepsConcat(Step(a0, Claim), Stop(2), []);
    assert a == Attempt(Store(2, Some(made), None), true,
      map[1 := Worker(1, Starting, Some(made), false), 2 := Worker(2, Over, Some(made), false)], []);
    RestartsIff(a, 1);
  }
}
