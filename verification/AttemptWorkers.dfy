/**
 * What one worker of an attempt can rely on while others go their own way: a
 * cancelled one starts no runtime and records the cancellation, the lease holder
 * works in a worktree that is there, and a refused write is the end.
 */
module AttemptWorkers {
  import opened Prelude
  import opened Lifecycle
  import opened Attempt
  import opened AttemptRestarts

  // ----- cancellation

  predicate StartedBy(e: Event, g: nat) {
    e.RuntimeStarted? && e.worker == g
  }

  ghost predicate StartsNothing(a: Attempt, a': Attempt, g: nat) {
    && a.events <= a'.events && forall i | |a.events| <= i < |a'.events| :: !StartedBy(a'.events[i], g)
  }

  lemma ClaimKeepsWorkers(a: Attempt, g: nat)
    requires Sound(a) && g in a.workers
    ensures g in DoClaim(a).workers && DoClaim(a).workers[g] == a.workers[g] && DoClaim(a).events == a.events
  {
    assert WorkerSound(a.store, g, a.workers[g]);
  }

  lemma StepNames(a: Attempt, action: Action)
    requires Sound(a) && !action.Claim? && action.worker in a.workers
    ensures a.workers[action.worker].generation == action.worker
  {
    assert WorkerSound(a.store, action.worker, a.workers[action.worker]);
  }

  lemma StaysCancelled(a: Attempt, action: Action, g: nat)
    requires Sound(a) && g in a.workers && a.workers[g].cancelled
    ensures g in Step(a, action).workers && Step(a, action).workers[g].cancelled
    ensures StartsNothing(a, Step(a, action), g)
  {
    if action.Claim? {
      ClaimKeepsWorkers(a, g);
    } else if action.worker in a.workers {
      StepNames(a, action);
      OneEvent(a, action);
      hide Sound, PersistLifecycle, Complete, Advances, Onward, AfterPrepare, OwnerRunning;
      if action.StartRuntime? {
        hide DoPrepare, DoWrite, DoFinalize, DoRequest, DoRemove, DoReport, DoEnd;
      } else {
        hide DoStart, DoPrepare;
      }
    }
  }

  /** A step adds at most one event, and a start only as such. */
  lemma OneEvent(a: Attempt, action: Action)
    ensures a.events <= Step(a, action).events
  {
    hide PersistLifecycle, Complete, Advances, Onward, AfterPrepare, OwnerRunning;
  }

  lemma {:induction false} StaysCancelledOn(a: Attempt, more: seq<Action>, g: nat)
    requires Sound(a) && g in a.workers && a.workers[g].cancelled
    ensures StartsNothing(a, Steps(a, more), g)
    decreases |more|
  {
    if more != [] {
      StaysCancelled(a, more[0], g);
      StepKeeps(a, more[0]);
      hide Step, Sound;
      StaysCancelledOn(Step(a, more[0]), more[1..], g);
    }
  }

  /** Once told to cancel, a worker never starts a runtime, whatever it and the others do. */
  lemma CancelledNeverStarts(a: Attempt, g: nat, more: seq<Action>, i: nat)
    requires Reached(a) && g in a.workers && a.workers[g].cancelled
    requires |a.events| <= i < |Steps(a, more).events|
    ensures !(Steps(a, more).events[i].RuntimeStarted? && Steps(a, more).events[i].worker == g)
  {
    ReachedIsSound(a);
    hide Step, Sound;
    StaysCancelledOn(a, more, g);
  }

  // ----- what the end of a run is recorded as

  ghost predicate NotBy(actions: seq<Action>, g: nat) {
    forall i | 0 <= i < |actions| :: actions[i].Claim? || actions[i].worker != g
  }

  lemma OthersLeave(a: Attempt, action: Action, g: nat)
    requires Sound(a) && g in a.workers && (action.Claim? || action.worker != g)
    ensures g in Step(a, action).workers && Step(a, action).workers[g] == a.workers[g]
  {
    if action.Claim? {
      ClaimKeepsWorkers(a, g);
    } else if action.worker in a.workers {
      StepNames(a, action);
      hide Sound, PersistLifecycle, Complete, Advances, Onward, AfterPrepare, OwnerRunning;
    }
  }

  lemma {:induction false} OthersLeaveOn(a: Attempt, between: seq<Action>, g: nat)
    requires Sound(a) && g in a.workers && NotBy(between, g)
    ensures Sound(Steps(a, between))
    ensures g in Steps(a, between).workers && Steps(a, between).workers[g] == a.workers[g]
    decreases |between|
  {
    if between != [] {
      OthersLeave(a, between[0], g);
      StepKeeps(a, between[0]);
      hide Step, Sound;
      assert NotBy(between[1..], g);
      OthersLeaveOn(Step(a, between[0]), between[1..], g);
    }
  }

  /** The completion with which a run that has ended is recorded, or one that a cancelled worker did not start. */
  function EndedAs(w: Worker, completion: Completion): Completion {
    if w.cancelled then Completion(Cancelled, "") else completion
  }

  lemma Pending(a: Attempt, g: nat, ending: Action, c: Completion)
    requires g in a.workers && a.workers[g].generation == g && a.workers[g].lifecycle.Some?
    requires
      || (ending == EndRuntime(g, c) && a.workers[g].place == Running)
      || (ending == StartRuntime(g) && a.workers[g].place == Starting && a.workers[g].cancelled)
    ensures
      var (w, a') := (a.workers[g], Step(a, ending));
      g in a'.workers && a'.store == a.store && a'.events == a.events
      && a'.workers[g] == w.(place := WritingCompletion(w.lifecycle.value.(completion := Some(EndedAs(w, c)))))
  {
  }

  lemma PendingWrites(a: Attempt, g: nat, next: Receipt)
    requires g in a.workers && a.workers[g].generation == g && a.workers[g].place == WritingCompletion(next)
    ensures
      var a' := Step(a, Write(g));
      && (a'.store == a.store || a'.store == a.store.(lifecycle := Some(next)))
      && (a'.store == a.store.(lifecycle := Some(next)) ==> a.store.lifecycle == Some(next) || a'.store != a.store)
      && (Holds(a.store, g) && Advances(a.store.lifecycle, next) ==> a'.store.lifecycle == Some(next))
  {
    hide Advances, Onward;
  }

  /**
   * However others move between the end of a run and its record, the store then
   * either stays as it is or says of the run what its worker knew when it ended: that
   * it was cancelled, or else the very completion the runtime reported; the rest of
   * the receipt is what the worker had in hand. The same holds of a run that a
   * cancelled worker did not start.
   */
  lemma EndedIsRecorded(a: Attempt, g: nat, ending: Action, c: Completion, between: seq<Action>)
    requires Reached(a) && g in a.workers && a.workers[g].lifecycle.Some? && NotBy(between, g)
    requires
      || (ending == EndRuntime(g, c) && a.workers[g].place == Running)
      || (ending == StartRuntime(g) && a.workers[g].place == Starting && a.workers[g].cancelled)
    ensures
      var w := a.workers[g];
      var next := w.lifecycle.value.(completion := Some(if w.cancelled then Completion(Cancelled, "") else c));
      var before := Steps(Step(a, ending), between);
      var after := Step(before, Write(g));
      && (after.store == before.store || after.store == before.store.(lifecycle := Some(next)))
      && (before.store.generation == g && before.store.status.None? && Advances(before.store.lifecycle, next) ==>
            after.store.lifecycle == Some(next))
      && Step(a, ending).events == a.events
  {
    ReachedIsSound(a);
    assert WorkerSound(a.store, g, a.workers[g]);
    StepKeeps(a, ending);
    Pending(a, g, ending, c);
    hide Step, Sound, Advances, WorkerSound;
    OthersLeaveOn(Step(a, ending), between, g);
    var before := Steps(Step(a, ending), between);
    PendingWrites(before, g, a.workers[g].lifecycle.value.(completion := Some(EndedAs(a.workers[g], c))));
  }

  // ----- a refused write

  /** The receipt a worker is about to write, if it is. */
  function ToWrite(p: Place): Option<Receipt> {
    match p
    case WritingPrepared(next) => Some(next)
    case WritingCompletion(next) => Some(next)
    case WritingFinalized(next) => Some(next)
    case WritingCleaned(next) => Some(next)
    case _ => None
  }

  /**
   * A worker's write goes through exactly when it holds the lease of an attempt
   * that is not over and the receipt advances the durable one; its copy is then
   * the durable receipt. Refused, it changes nothing and the worker is done.
   */
  lemma WriteSettles(a: Attempt, g: nat)
    requires Reached(a) && g in a.workers && ToWrite(a.workers[g].place).Some?
    ensures
      var (next, a') := (ToWrite(a.workers[g].place).value, Step(a, Write(g)));
      && g in a'.workers && a'.events == a.events && a'.worktree == a.worktree
      && if g == a.store.generation && a.store.status.None? && Advances(a.store.lifecycle, next) then
           a'.store == a.store.(lifecycle := Some(next)) && a'.workers[g].lifecycle == Some(next)
         else
           a'.store == a.store && a'.workers[g].place == Over
  {
    ReachedIsSound(a);
    assert WorkerSound(a.store, g, a.workers[g]);
    hide Sound, Advances, Onward, AfterPrepare, WorkerSound;
  }

  // ----- the worktree

  /** The directory is there as long as the durable receipt does not say that the result is safe. */
  ghost predicate WorktreeSound(a: Attempt) {
    && (a.store.lifecycle.Some? && !ResultSafe(a.store.lifecycle.value) ==> a.worktree)
    && (a.store.lifecycle.None? ==> forall g | g in a.workers :: a.workers[g].place.WritingPrepared? ==> a.worktree)
  }

  lemma SafeStaysSafe(r: Receipt, later: Receipt)
    requires Keeps(r, later) && ResultSafe(r)
    ensures ResultSafe(later)
  {
  }

  /** A receipt written over an unsafe one, or over nothing by a worker that has prepared, finds the directory there. */
  lemma WrittenOver(a: Attempt, s: Store, g: nat, next: Receipt, w: Worker)
    requires Sound(a) && WorktreeSound(a) && (s, Done) == PersistLifecycle(a.store, g, next)
    requires a.store.lifecycle.None? ==> a.worktree
    ensures WorktreeSound(Move(a.(store := s), w))
  {
    AdvanceKeepsAll(a.store.lifecycle, next);
    if a.store.lifecycle.Some? && ResultSafe(a.store.lifecycle.value) { SafeStaysSafe(a.store.lifecycle.value, next); }
    hide Sound, Advances, ResultSafe;
  }

  lemma WriteKeepsWorktree(a: Attempt, w: Worker)
    requires Sound(a) && PlaceSound(w) && WorktreeSound(a) && w.generation in a.workers && a.workers[w.generation] == w
    ensures WorktreeSound(DoWrite(a, w))
  {
    assert WorkerSound(a.store, w.generation, w);
    if ToWrite(w.place).Some? {
      var (s, r) := PersistLifecycle(a.store, w.generation, w.place.next);
      if r == Done { WrittenOver(a, s, w.generation, w.place.next, DoWrite(a, w).workers[w.generation]); }
    }
    hide Sound, Advances, Onward, AfterPrepare, ResultSafe, WorkerSound;
  }

  lemma RequestKeepsWorktree(a: Attempt, w: Worker, id: string)
    requires Sound(a) && WorktreeSound(a) && w.generation in a.workers && a.workers[w.generation] == w && w.lifecycle.Some?
    ensures WorktreeSound(DoRequest(a, w, id))
  {
    assert WorkerSound(a.store, w.generation, w);
    var next := w.lifecycle.value.(changeRequestId := Some(id));
    var (s, r) := PersistLifecycle(a.store, w.generation, next);
    if r == Done { WrittenOver(a, s, w.generation, next, w.(lifecycle := Some(next), place := Cleaning)); }
    hide Sound, Advances, ResultSafe, WorkerSound;
  }

  lemma RemoveKeepsWorktree(a: Attempt, w: Worker, at: string)
    requires Sound(a) && WorktreeSound(a) && w.generation in a.workers && a.workers[w.generation] == w && w.lifecycle.Some?
    ensures WorktreeSound(DoRemove(a, w, at))
  {
    RemoveKeeps(a, w, at);
    var a' := DoRemove(a, w, at);
    if a'.events != a.events { assert EventSound(a'.events[|a.events|]); }
    hide Sound, Advances, ResultSafe, OwnerRunning;
  }

  lemma StepKeepsWorktree(a: Attempt, action: Action)
    requires Sound(a) && PlacesSound(a) && WorktreeSound(a)
    ensures WorktreeSound(Step(a, action))
  {
    if action.Claim? {
      hide Sound, ResultSafe;
    } else if action.worker in a.workers {
      StepNames(a, action);
      var w := a.workers[action.worker];
      assert WorkerSound(a.store, action.worker, w) && PlaceSound(w);
      hide Sound, PlacesSound, WorkerSound, ResultSafe, Advances, Onward, AfterPrepare, OwnerRunning, Complete, DoWrite, DoRequest, DoRemove;
      if action.Write? { WriteKeepsWorktree(a, w); }
      if action.ChangeRequested? && w.lifecycle.Some? { RequestKeepsWorktree(a, w, action.id); }
      if action.RemoveWorktree? && w.lifecycle.Some? { RemoveKeepsWorktree(a, w, action.at); }
    }
  }

  lemma {:induction false} StepsKeepWorktree(a: Attempt, actions: seq<Action>)
    requires Sound(a) && PlacesSound(a) && WorktreeSound(a)
    ensures WorktreeSound(Steps(a, actions))
    decreases |actions|
  {
    if actions != [] {
      StepKeeps(a, actions[0]);
      StepPlaces(a, actions[0]);
      StepKeepsWorktree(a, actions[0]);
      hide Sound, PlacesSound, WorktreeSound, Step;
      StepsKeepWorktree(Step(a, actions[0]), actions[1..]);
    }
  }

  /**
   * The lease holder of an attempt that is not over starts, runs and finalizes in a
   * worktree that is there: no other worker can have removed it under it.
   */
  lemma OwnerWorksInWorktree(a: Attempt)
    requires Reached(a) && a.store.status.None? && a.store.generation in a.workers
    requires
      var place := a.workers[a.store.generation].place;
      place == Starting || place == Running || place == Finalizing || place == Requesting
    ensures a.worktree
  {
    var w := a.workers[a.store.generation];
    var actions :| a == Steps(NEW_ATTEMPT, actions);
    ReachedIsSound(a);
    NewIsSound();
    StepsKeepWorktree(NEW_ATTEMPT, actions);
    assert WorkerSound(a.store, a.store.generation, w) && PlaceSound(w);
    StepsKnowWhy(actions);
    hide Sound, Step;
  }

  // ----- why a worker is where it is

  /** Finalizing follows a run that succeeded and is not finalized, requesting a change without a request. */
  predicate PlaceFits(w: Worker) {
    && (w.place == Finalizing ==> w.lifecycle.Some? && RunSucceeded(w.lifecycle.value) && w.lifecycle.value.finalized.None?)
    && (w.place == Requesting ==>
          && w.lifecycle.Some? && RunSucceeded(w.lifecycle.value) && w.lifecycle.value.finalized.Some?
          && w.lifecycle.value.finalized.value.changed && w.lifecycle.value.changeRequestId.None?)
  }

  ghost predicate PlacesFit(a: Attempt) {
    forall g | g in a.workers :: PlaceFits(a.workers[g])
  }

  lemma StepFits(a: Attempt, action: Action)
    requires PlacesFit(a)
    ensures PlacesFit(Step(a, action))
  {
    hide PersistLifecycle, Complete, Advances, OwnerRunning;
    if !action.Claim? && action.worker in a.workers { assert PlaceFits(a.workers[action.worker]); }
  }

  lemma {:induction false} StepsFit(a: Attempt, actions: seq<Action>)
    requires PlacesFit(a)
    ensures PlacesFit(Steps(a, actions))
    decreases |actions|
  {
    if actions != [] {
      StepFits(a, actions[0]);
      hide PlacesFit, Step;
      StepsFit(Step(a, actions[0]), actions[1..]);
    }
  }

  lemma StepsKnowWhy(actions: seq<Action>)
    ensures PlacesFit(Steps(NEW_ATTEMPT, actions))
  {
    StepsFit(NEW_ATTEMPT, actions);
  }

  // ----- the gate in front of completion

  /** An attempt is completed exactly by the lease holder, once, after its cleanup; without a receipt only as cancelled. */
  lemma CompletesIff(s: Store, generation: nat, status: Outcome)
    ensures
      var (s', r) := Complete(s, generation, status);
      var gate := if s.lifecycle.None? then status == Cancelled else s.lifecycle.value.cleanedAt.Some?;
      && (r == Done <==> generation == s.generation && s.status.None? && gate)
      && s' == if r == Done then Store(s.generation, s.lifecycle, Some(status)) else s
  {
  }
}
