/**
 * What an attempt ends with: the status told is that of the durable completion
 * unless the reporting worker was cancelled, everything a receipt says was supplied
 * by a step, and an attempt that was broken off can always be completed.
 */
module AttemptOutcome {
  import opened Prelude
  import opened Lifecycle
  import opened Attempt
  import opened AttemptRestarts

  // ----- the status

  /** The status fits the receipt beside it, or its worker was cancelled. */
  ghost predicate Fits(a: Attempt, e: Event) {
    e.AttemptCompleted? ==>
      && e.worker in a.workers && a.store.status == Some(e.status) && a.store.lifecycle == e.durable
      && e.durable.Some? && e.durable.value.completion.Some?
      && (e.status == e.durable.value.completion.value.status || (e.status == Cancelled && a.workers[e.worker].cancelled))
  }

  ghost predicate Completed(a: Attempt) {
    exists i :: 0 <= i < |a.events| && a.events[i].AttemptCompleted?
  }

  ghost predicate StatusSound(a: Attempt) {
    (forall i | 0 <= i < |a.events| :: Fits(a, a.events[i])) && (a.store.status.Some? ==> Completed(a))
  }

  /** No step but a report completes an attempt, and a completed attempt's receipt stays. */
  ghost predicate Quiet(a: Attempt, a': Attempt) {
    && a.events <= a'.events && (forall i | |a.events| <= i < |a'.events| :: !a'.events[i].AttemptCompleted?)
    && a'.store.status == a.store.status && (a.store.status.Some? ==> a'.store.lifecycle == a.store.lifecycle)
    && forall g | g in a.workers :: g in a'.workers && (a.workers[g].cancelled ==> a'.workers[g].cancelled)
  }

  lemma QuietKeeps(a: Attempt, a': Attempt)
    requires StatusSound(a) && Quiet(a, a')
    ensures StatusSound(a')
  {
    forall i | 0 <= i < |a'.events| ensures Fits(a', a'.events[i]) {
      if i < |a.events| { assert Fits(a, a.events[i]); }
    }
    if Completed(a) {
      var i :| 0 <= i < |a.events| && a.events[i].AttemptCompleted?;
      assert a'.events[i].AttemptCompleted?;
    }
  }

  lemma WriteIsQuiet(a: Attempt, w: Worker)
    requires w.generation in a.workers && a.workers[w.generation] == w
    ensures Quiet(a, DoWrite(a, w))
  {
    hide Advances, Onward, AfterPrepare;
  }

  lemma RequestIsQuiet(a: Attempt, w: Worker, id: string)
    requires w.generation in a.workers && a.workers[w.generation] == w && w.lifecycle.Some?
    ensures Quiet(a, DoRequest(a, w, id))
  {
    hide Advances;
  }

  lemma ClaimIsQuiet(a: Attempt)
    requires Sound(a)
    ensures Quiet(a, DoClaim(a))
  {
    forall g | g in a.workers ensures g != a.store.generation + 1 { assert WorkerSound(a.store, g, a.workers[g]); }
  }

  lemma OtherIsQuiet(a: Attempt, action: Action)
    requires Sound(a) && !action.Report?
    ensures Quiet(a, Step(a, action))
  {
    if action.Claim? {
      ClaimIsQuiet(a);
    } else if action.worker in a.workers {
      var w := a.workers[action.worker];
      assert WorkerSound(a.store, action.worker, w);
      hide Sound, WorkerSound, DoWrite, DoRequest, Advances, OwnerRunning;
      if action.Write? { WriteIsQuiet(a, w); }
      if action.ChangeRequested? && w.lifecycle.Some? { RequestIsQuiet(a, w, action.id); }
    }
  }

  lemma ReportFits(a: Attempt, w: Worker)
    requires Sound(a) && StatusSound(a) && w.generation in a.workers && a.workers[w.generation] == w
    requires w.lifecycle.Some? && w.lifecycle.value.completion.Some?
    ensures StatusSound(DoReport(a, w))
  {
    assert WorkerSound(a.store, w.generation, w);
    hide Sound, WorkerSound;
    var a' := DoReport(a, w);
    if a.store.status.None? {
      forall i | 0 <= i < |a.events| ensures !a.events[i].AttemptCompleted? { assert Fits(a, a.events[i]); }
      if a'.store.status.Some? { assert a'.events[|a.events|].AttemptCompleted?; }
    } else {
      QuietKeeps(a, a');
    }
  }

  lemma StepFits(a: Attempt, action: Action)
    requires Sound(a) && StatusSound(a)
    ensures StatusSound(Step(a, action))
  {
    if action.Report? {
      if action.worker in a.workers {
        var w := a.workers[action.worker];
        assert WorkerSound(a.store, action.worker, w);
        if w.place == Reporting && w.lifecycle.Some? && w.lifecycle.value.completion.Some? { ReportFits(a, w); }
      }
    } else {
      OtherIsQuiet(a, action);
      QuietKeeps(a, Step(a, action));
    }
    hide Sound, StatusSound, WorkerSound, DoReport;
  }

  lemma {:induction false} StepsFit(a: Attempt, actions: seq<Action>)
    requires Sound(a) && StatusSound(a)
    ensures StatusSound(Steps(a, actions))
    decreases |actions|
  {
    hide Sound, StatusSound, Step;
    if actions != [] {
      StepKeeps(a, actions[0]);
      StepFits(a, actions[0]);
      StepsFit(Step(a, actions[0]), actions[1..]);
    }
  }

  /**
   * Over every run: the status an attempt is completed with is that of the completion
   * in its receipt, or it is cancelled and the worker that reported had been told to
   * cancel; and it is the status the store has, beside that receipt, ever after.
   */
  lemma StatusIsDurable(actions: seq<Action>, i: nat)
    requires i < |Steps(NEW_ATTEMPT, actions).events| && Steps(NEW_ATTEMPT, actions).events[i].AttemptCompleted?
    ensures
      var (a, e) := (Steps(NEW_ATTEMPT, actions), Steps(NEW_ATTEMPT, actions).events[i]);
      && e.durable.Some? && e.durable.value.completion.Some?
      && (e.status == e.durable.value.completion.value.status
          || (e.status == Cancelled && e.worker in a.workers && a.workers[e.worker].cancelled))
      && a.store.status == Some(e.status) && a.store.lifecycle == e.durable
  {
    NewIsSound();
    StepsFit(NEW_ATTEMPT, actions);
    assert Fits(Steps(NEW_ATTEMPT, actions), Steps(NEW_ATTEMPT, actions).events[i]);
  }

  /** The store has a status only because a worker completed the attempt with it. */
  lemma StatusWasReported(actions: seq<Action>)
    requires Steps(NEW_ATTEMPT, actions).store.status.Some?
    ensures
      var a := Steps(NEW_ATTEMPT, actions);
      exists i :: 0 <= i < |a.events| && a.events[i].AttemptCompleted? && Some(a.events[i].status) == a.store.status
  {
    var a := Steps(NEW_ATTEMPT, actions);
    NewIsSound();
    StepsFit(NEW_ATTEMPT, actions);
    assert Completed(a);
    var i :| 0 <= i < |a.events| && a.events[i].AttemptCompleted?;
    assert Fits(a, a.events[i]);
  }

  // ----- one owner driving an attempt

  /** The lease holder is at this place, uncancelled, with the durable receipt in hand. */
  ghost predicate OwnerAt(a: Attempt, place: Place, r: Receipt) {
    && a.store == Store(a.store.generation, Some(r), None) && Valid(r) && InOrder(r)
    && a.store.generation in a.workers && a.workers[a.store.generation] == Worker(a.store.generation, place, Some(r), false)
  }

  lemma OwnerAdvances(r: Receipt, next: Receipt)
    requires Valid(r) && InOrder(r) && Valid(next) && NextStage(r).Some? && Stepped(r, next)
    ensures Advances(Some(r), next) && InOrder(next)
  {
  }

  /** The next receipt has exactly the next stage more. */
  predicate Stepped(r: Receipt, next: Receipt)
    requires NextStage(r).Some?
  {
    match NextStage(r).value
    case CompletionStage => next == r.(completion := next.completion) && next.completion.Some?
    case FinalizedStage => next == r.(finalized := next.finalized) && next.finalized.Some?
    case ChangeRequestStage => next == r.(changeRequestId := next.changeRequestId) && next.changeRequestId.Some?
    case CleanedStage => next == r.(cleanedAt := next.cleanedAt) && next.cleanedAt.Some?
  }

  /** The result a finalize of this receipt may bring. */
  function ResultOf(r: Receipt, changed: bool, head: string): Finalized {
    Finalized(r.binding.spaceId, r.prepared.jobId, r.prepared.attemptId, r.binding.agentId, changed, r.binding.baseCommit, head,
              r.prepared.branch, "")
  }

  /** Writing the next receipt takes the owner onward. */
  lemma OwnerWrites(a: Attempt, place: Place, r: Receipt, next: Receipt)
    requires OwnerAt(a, place, r) && next.completion.Some? && Advances(Some(r), next) && InOrder(next)
    requires place == WritingCompletion(next) || place == WritingFinalized(next) || place == WritingCleaned(next)
    ensures OwnerAt(Step(a, Write(a.store.generation)), Onward(next), next)
  {
    hide Advances, InOrder, Onward;
    assert Valid(next) by { ValidNext(r, next); }
    hide Valid;
  }

  lemma ValidNext(r: Receipt, next: Receipt)
    requires Advances(Some(r), next)
    ensures Valid(next)
  {
  }

  lemma OneStepMore(a: Attempt, x: Action)
    ensures Steps(a, [x] + []) == Step(a, x)
  {
    StepsConcat(a, x, []);
  }

  lemma TwoSteps(a: Attempt, x: Action, y: Action)
    ensures Steps(a, [x] + ([y] + [])) == Step(Step(a, x), y)
  {
    hide Step;
    StepsConcat(a, x, [y] + []);
    OneStepMore(Step(a, x), y);
  }

  lemma ThreeSteps(a: Attempt, x: Action, y: Action, z: Action)
    ensures Steps(a, [x] + ([y] + ([z] + []))) == Step(Step(Step(a, x), y), z)
  {
    hide Step;
    StepsConcat(a, x, [y] + ([z] + []));
    TwoSteps(Step(a, x), y, z);
  }

  lemma OwnerStarts(a: Attempt, r: Receipt)
    requires OwnerAt(a, Starting, r)
    ensures OwnerAt(Step(a, StartRuntime(a.store.generation)), Running, r)
    ensures Step(a, StartRuntime(a.store.generation)).store == a.store
  {
    hide Valid, InOrder;
  }

  lemma OwnerEnds(a: Attempt, r: Receipt, c: Completion)
    requires OwnerAt(a, Running, r)
    ensures OwnerAt(Step(a, EndRuntime(a.store.generation, c)), WritingCompletion(r.(completion := Some(c))), r)
    ensures Step(a, EndRuntime(a.store.generation, c)).store == a.store
  {
    hide Valid, InOrder;
  }

  lemma OwnerRuns(a: Attempt, r: Receipt, c: Completion)
    requires OwnerAt(a, Starting, r) && r.completion.None?
    ensures
      var (g, next) := (a.store.generation, r.(completion := Some(c)));
      OwnerAt(Steps(a, [StartRuntime(g)] + ([EndRuntime(g, c)] + ([Write(g)] + []))), Onward(next), next)
  {
    var (g, next) := (a.store.generation, r.(completion := Some(c)));
    OwnerAdvances(r, next);
    hide *;
    OwnerStarts(a, r);
    OwnerEnds(Step(a, StartRuntime(g)), r, c);
    OwnerWrites(Step(Step(a, StartRuntime(g)), EndRuntime(g, c)), WritingCompletion(next), r, next);
    ThreeSteps(a, StartRuntime(g), EndRuntime(g, c), Write(g));
  }

  lemma OwnerFinalizes(a: Attempt, r: Receipt, f: Finalized)
    requires OwnerAt(a, Finalizing, r) && RunSucceeded(r) && r.finalized.None? && r.changeRequestId.None? && r.cleanedAt.None?
    requires FinalizedAligned(r.binding, r.prepared, f)
    ensures
      var (g, next) := (a.store.generation, r.(finalized := Some(f)));
      OwnerAt(Steps(a, [FinalizedAs(g, f)] + ([Write(g)] + [])), Onward(next), next)
  {
    var (g, next) := (a.store.generation, r.(finalized := Some(f)));
    OwnerAdvances(r, next);
    var a1 := Step(a, FinalizedAs(g, f));
    hide Valid, InOrder, Advances, NextStage, Onward;
    assert OwnerAt(a1, WritingFinalized(next), r);
    OwnerWrites(a1, WritingFinalized(next), r, next);
    hide Step;
    StepsConcat(a1, Write(g), []);
    StepsConcat(a, FinalizedAs(g, f), [Write(g)] + []);
  }

  lemma OwnerRequests(a: Attempt, r: Receipt, id: string)
    requires OwnerAt(a, Requesting, r) && RunSucceeded(r) && r.finalized.Some? && r.finalized.value.changed
    requires r.changeRequestId.None? && r.cleanedAt.None? && id != ""
    ensures
      var (g, next) := (a.store.generation, r.(changeRequestId := Some(id)));
      OwnerAt(Steps(a, [ChangeRequested(g, id)] + []), Cleaning, next)
  {
    var (g, next) := (a.store.generation, r.(changeRequestId := Some(id)));
    OwnerAdvances(r, next);
    hide InOrder, Advances, NextStage;
    assert OwnerAt(Step(a, ChangeRequested(g, id)), Cleaning, next);
    hide Step;
    StepsConcat(a, ChangeRequested(g, id), []);
  }

  lemma OwnerRemoves(a: Attempt, r: Receipt, at: string)
    requires OwnerAt(a, Cleaning, r) && Advances(Some(r), r.(cleanedAt := Some(at)))
    ensures
      var a1 := Step(a, RemoveWorktree(a.store.generation, at));
      OwnerAt(a1, WritingCleaned(r.(cleanedAt := Some(at))), r) && !a1.worktree && a1.store == a.store
  {
    hide Valid, InOrder, Advances, OwnerRunning;
  }

  lemma WriteLeavesWorktree(a: Attempt, g: nat)
    ensures Step(a, Write(g)).worktree == a.worktree
  {
    hide PersistLifecycle, AfterPrepare, Onward;
  }

  lemma CleanedReports(r: Receipt, at: string)
    requires ResultSafe(r) && r.cleanedAt.None?
    ensures Onward(r.(cleanedAt := Some(at))) == Reporting
  {
  }

  lemma OwnerCleans(a: Attempt, r: Receipt, at: string)
    requires OwnerAt(a, Cleaning, r) && ResultSafe(r) && r.cleanedAt.None? && at != ""
    ensures
      var (g, next) := (a.store.generation, r.(cleanedAt := Some(at)));
      var a' := Steps(a, [RemoveWorktree(g, at)] + ([Write(g)] + []));
      OwnerAt(a', Reporting, next) && !a'.worktree
  {
    var (g, next) := (a.store.generation, r.(cleanedAt := Some(at)));
    OwnerAdvances(r, next);
    assert next.completion.Some?;
    hide *;
    CleanedReports(r, at);
    OwnerRemoves(a, r, at);
    OwnerWrites(Step(a, RemoveWorktree(g, at)), WritingCleaned(next), r, next);
    WriteLeavesWorktree(Step(a, RemoveWorktree(g, at)), g);
    TwoSteps(a, RemoveWorktree(g, at), Write(g));
  }

  /**
   * Whose report tells the durable completion: an accepted report completes the attempt
   * with the receipt's own status exactly when its worker was not told to cancel, or
   * the receipt says cancelled anyway.
   */
  lemma ReportTellsCompletionIff(a: Attempt, g: nat)
    requires Reached(a) && g in a.workers && a.workers[g].place == Reporting
    requires a.store.status.None? && Step(a, Report(g)).store.status.Some?
    ensures a.store.lifecycle.Some? && a.store.lifecycle.value.completion.Some?
    ensures
      var c := a.store.lifecycle.value.completion.value;
      && (Step(a, Report(g)).store.status == Some(c.status) <==> !a.workers[g].cancelled || c.status == Cancelled)
      && (a.workers[g].cancelled ==> Step(a, Report(g)).store.status == Some(Cancelled))
  {
    ReachedIsSound(a);
    assert WorkerSound(a.store, g, a.workers[g]);
    hide Sound;
  }

  lemma OwnerReports(a: Attempt, r: Receipt)
    requires OwnerAt(a, Reporting, r) && r.completion.Some? && r.cleanedAt.Some?
    ensures Steps(a, [Report(a.store.generation)] + []).store == Store(a.store.generation, Some(r), Some(r.completion.value.status))
    ensures Steps(a, [Report(a.store.generation)] + []).worktree == a.worktree
  {
    hide Valid, InOrder;
    var a1 := Step(a, Report(a.store.generation));
    assert a1.store == Store(a.store.generation, Some(r), Some(r.completion.value.status)) && a1.worktree == a.worktree;
    hide Step;
    StepsConcat(a, Report(a.store.generation), []);
  }

  lemma {:induction false} StepsJoin(a: Attempt, first: seq<Action>, more: seq<Action>)
    ensures Steps(a, first + more) == Steps(Steps(a, first), more)
    decreases |first|
  {
    hide Step;
    if first == [] {
      assert first + more == more;
    } else {
      assert (first + more)[1..] == first[1..] + more;
      StepsJoin(Step(a, first[0]), first[1..], more);
    }
  }

  /** What is supplied from outside to bring an attempt to its end. */
  datatype Supply = Supply(made: Receipt, completion: Completion, changed: bool, head: string, id: string, at: string)

  predicate Usable(supply: Supply) {
    Advances(None, supply.made) && supply.id != "" && supply.at != ""
  }

  /** The owner has cleaned up and is about to report this completion. */
  ghost predicate ReadyToReport(a: Attempt, c: Completion) {
    && a.store.lifecycle.Some? && OwnerAt(a, Reporting, a.store.lifecycle.value)
    && a.store.lifecycle.value.completion == Some(c) && a.store.lifecycle.value.cleanedAt.Some?
  }

  lemma FromCleaning(a: Attempt, r: Receipt, supply: Supply) returns (actions: seq<Action>)
    requires OwnerAt(a, Cleaning, r) && ResultSafe(r) && r.cleanedAt.None? && Usable(supply)
    ensures ReadyToReport(Steps(a, actions), r.completion.value) && !Steps(a, actions).worktree
  {
    OwnerCleans(a, r, supply.at);
    actions := [RemoveWorktree(a.store.generation, supply.at)] + ([Write(a.store.generation)] + []);
    hide Steps, Valid, InOrder;
  }

  lemma FromRequest(a: Attempt, r: Receipt, supply: Supply) returns (actions: seq<Action>)
    requires RunSucceeded(r) && r.finalized.Some? && r.cleanedAt.None? && OwnerAt(a, Onward(r), r) && Usable(supply)
    ensures ReadyToReport(Steps(a, actions), r.completion.value) && !Steps(a, actions).worktree
  {
    if r.finalized.value.changed && r.changeRequestId.None? {
      var first := [ChangeRequested(a.store.generation, supply.id)] + [];
      OwnerRequests(a, r, supply.id);
      var more := FromCleaning(Steps(a, first), r.(changeRequestId := Some(supply.id)), supply);
      actions := first + more;
      StepsJoin(a, first, more);
    } else {
      actions := FromCleaning(a, r, supply);
    }
    hide OwnerAt, Steps, ReadyToReport;
  }

  lemma FromCompletion(a: Attempt, r: Receipt, supply: Supply) returns (actions: seq<Action>)
    requires r.completion.Some? && OwnerAt(a, Onward(r), r) && Usable(supply)
    ensures ReadyToReport(Steps(a, actions), r.completion.value)
    ensures r.cleanedAt.None? ==> !Steps(a, actions).worktree
  {
    if r.cleanedAt.Some? {
      actions := [];
    } else if !RunSucceeded(r) {
      actions := FromCleaning(a, r, supply);
    } else if r.finalized.None? {
      var f := ResultOf(r, supply.changed, supply.head);
      var first := [FinalizedAs(a.store.generation, f)] + ([Write(a.store.generation)] + []);
      OwnerFinalizes(a, r, f);
      var more := FromRequest(Steps(a, first), r.(finalized := Some(f)), supply);
      actions := first + more;
      StepsJoin(a, first, more);
      hide OwnerAt, Steps, ReadyToReport;
    } else {
      actions := FromRequest(a, r, supply);
      hide OwnerAt, Steps, ReadyToReport;
    }
  }

  /** The completion an attempt will end with: the durable one, or the one its next run reports. */
  function EndsWith(a: Attempt, supply: Supply): Completion {
    if a.store.lifecycle.Some? && a.store.lifecycle.value.completion.Some? then a.store.lifecycle.value.completion.value
    else supply.completion
  }

  lemma ClaimTaken(a: Attempt)
    requires a.store.status.None?
    ensures
      var (g, a1) := (a.store.generation + 1, Step(a, Claim));
      a1.store == a.store.(generation := g) && g in a1.workers && a1.workers[g] == Worker(g, Preparing, a.store.lifecycle, false)
  {
  }

  lemma PrepareTaken(a: Attempt, g: nat, made: Receipt)
    requires g in a.workers && a.workers[g] == Worker(g, Preparing, a.store.lifecycle, false)
    requires a.store.lifecycle.Some? || Advances(None, made)
    ensures
      var (a1, r) := (Step(a, PreparedAs(g, made)), a.store.lifecycle.GetOr(made));
      a1.store == a.store && g in a1.workers && a1.workers[g] == Worker(g, WritingPrepared(r), a.store.lifecycle, false)
  {
    hide Advances;
  }

  lemma WriteTaken(a: Attempt, r: Receipt)
    requires a.store.status.None? && a.store.generation in a.workers && Advances(a.store.lifecycle, r) && Valid(r) && InOrder(r)
    requires a.workers[a.store.generation] == Worker(a.store.generation, WritingPrepared(r), a.store.lifecycle, false)
    ensures OwnerAt(Step(a, Write(a.store.generation)), AfterPrepare(r), r)
  {
    hide Advances, AfterPrepare, Valid, InOrder;
  }

  /** What a new worker finds durable it writes again; without a receipt it writes the one just made. */
  lemma ReplayAdvances(s: Store, made: Receipt)
    requires StoreSound(s) && Advances(None, made)
    ensures Advances(s.lifecycle, s.lifecycle.GetOr(made)) && Valid(s.lifecycle.GetOr(made)) && InOrder(s.lifecycle.GetOr(made))
  {
    hide NextStage, AddsExactly;
  }

  lemma SoundStore(a: Attempt)
    requires Sound(a)
    ensures StoreSound(a.store)
  {
  }

  lemma TakesUp(a: Attempt, supply: Supply)
    requires Reached(a) && a.store.status.None? && Usable(supply)
    ensures
      var g := a.store.generation + 1;
      var a' := Steps(a, [Claim] + ([PreparedAs(g, supply.made)] + ([Write(g)] + [])));
      OwnerAt(a', AfterPrepare(a.store.lifecycle.GetOr(supply.made)), a.store.lifecycle.GetOr(supply.made))
  {
    var g := a.store.generation + 1;
    assert Advances(None, supply.made);
    hide *;
    ReachedIsSound(a);
    SoundStore(a);
    ReplayAdvances(a.store, supply.made);
    ClaimTaken(a);
    PrepareTaken(Step(a, Claim), g, supply.made);
    WriteTaken(Step(Step(a, Claim), PreparedAs(g, supply.made)), a.store.lifecycle.GetOr(supply.made));
    ThreeSteps(a, Claim, PreparedAs(g, supply.made), Write(g));
  }

  lemma CanReachReport(a: Attempt, supply: Supply) returns (actions: seq<Action>)
    requires Reached(a) && a.store.status.None? && Usable(supply)
    ensures ReadyToReport(Steps(a, actions), EndsWith(a, supply))
  {
    var g := a.store.generation + 1;
    var r := a.store.lifecycle.GetOr(supply.made);
    var first := [Claim] + ([PreparedAs(g, supply.made)] + ([Write(g)] + []));
    TakesUp(a, supply);
    var a1 := Steps(a, first);
    if r.completion.Some? {
      var more := FromCompletion(a1, r, supply);
      actions := first + more;
      StepsJoin(a, first, more);
    } else {
      var h := a1.store.generation;
      var run := [StartRuntime(h)] + ([EndRuntime(h, supply.completion)] + ([Write(h)] + []));
      OwnerRuns(a1, r, supply.completion);
      var more := FromCompletion(Steps(a1, run), r.(completion := Some(supply.completion)), supply);
      actions := first + (run + more);
      StepsJoin(a1, run, more);
      StepsJoin(a, first, run + more);
    }
    hide OwnerAt, Steps, Step, ReadyToReport;
  }

  /**
   * From every reachable attempt that has not ended, wherever its workers died, a new
   * claim can take it up and complete it: with the durable completion if there is one,
   * and otherwise with what the run then reports.
   */
  lemma CanAlwaysComplete(a: Attempt, supply: Supply) returns (actions: seq<Action>)
    requires Reached(a) && a.store.status.None? && Usable(supply)
    ensures Steps(a, actions).store.status == Some(EndsWith(a, supply).status)
    ensures Steps(a, actions).store.lifecycle.Some? && Steps(a, actions).store.lifecycle.value.completion == Some(EndsWith(a, supply))
  {
    var first := CanReachReport(a, supply);
    var a1 := Steps(a, first);
    OwnerReports(a1, a1.store.lifecycle.value);
    actions := first + ([Report(a1.store.generation)] + []);
    StepsJoin(a, first, [Report(a1.store.generation)] + []);
    hide OwnerAt, Steps, Step, EndsWith;
  }

  lemma CancelTaken(a: Attempt, r: Receipt)
    requires OwnerAt(a, Reporting, r)
    ensures
      var (g, a1) := (a.store.generation, Step(a, Cancel(a.store.generation)));
      a1.store == a.store && g in a1.workers && a1.workers[g] == Worker(g, Reporting, Some(r), true)
  {
    hide Valid, InOrder;
  }

  lemma CancelledReport(a: Attempt, g: nat, r: Receipt)
    requires a.store == Store(g, Some(r), None) && g in a.workers && a.workers[g] == Worker(g, Reporting, Some(r), true)
    requires r.completion.Some? && r.cleanedAt.Some?
    ensures Step(a, Report(g)).store == Store(g, Some(r), Some(Cancelled))
  {
  }

  lemma OwnerStore(a: Attempt, place: Place, r: Receipt)
    requires OwnerAt(a, place, r)
    ensures a.store == Store(a.store.generation, Some(r), None)
  {
  }

  lemma OwnerReportsCancelled(a: Attempt, r: Receipt)
    requires OwnerAt(a, Reporting, r) && r.completion.Some? && r.cleanedAt.Some?
    ensures
      var g := a.store.generation;
      Steps(a, [Cancel(g)] + ([Report(g)] + [])).store == Store(g, Some(r), Some(Cancelled))
  {
    hide *;
    var g := a.store.generation;
    OwnerStore(a, Reporting, r);
    CancelTaken(a, r);
    CancelledReport(Step(a, Cancel(g)), g, r);
    TwoSteps(a, Cancel(g), Report(g));
  }

  /** A cancel that arrives after the run has succeeded, finalized and cleaned up: the attempt is completed as cancelled. */
  lemma LateCancelIsTold(supply: Supply) returns (actions: seq<Action>)
    requires Usable(supply) && supply.completion.status == Succeeded
    ensures
      var s := Steps(NEW_ATTEMPT, actions).store;
      s.status == Some(Cancelled) && s.lifecycle.Some? && s.lifecycle.value.completion == Some(supply.completion)
  {
    assert Steps(NEW_ATTEMPT, []) == NEW_ATTEMPT;
    assert Reached(NEW_ATTEMPT);
    var first := CanReachReport(NEW_ATTEMPT, supply);
    var a1 := Steps(NEW_ATTEMPT, first);
    OwnerReportsCancelled(a1, a1.store.lifecycle.value);
    actions := first + ([Cancel(a1.store.generation)] + ([Report(a1.store.generation)] + []));
    StepsJoin(NEW_ATTEMPT, first, [Cancel(a1.store.generation)] + ([Report(a1.store.generation)] + []));
    hide OwnerAt, Steps, Step;
  }

  // ----- where everything in a receipt comes from

  ghost predicate CompletionFrom(actions: seq<Action>, c: Completion) {
    || (exists w :: EndRuntime(w, c) in actions)
    || (c == Completion(Cancelled, "") && exists w :: Cancel(w) in actions)
  }

  /** Every stage of the receipt was supplied by one of these steps. */
  ghost predicate ReceiptFrom(actions: seq<Action>, r: Receipt) {
    && (exists w, made :: PreparedAs(w, made) in actions && made.binding == r.binding && made.prepared == r.prepared)
    && (r.completion.Some? ==> CompletionFrom(actions, r.completion.value))
    && (r.finalized.Some? ==> exists w :: FinalizedAs(w, r.finalized.value) in actions)
    && (r.changeRequestId.Some? ==> exists w :: ChangeRequested(w, r.changeRequestId.value) in actions)
    && (r.cleanedAt.Some? ==> exists w :: RemoveWorktree(w, r.cleanedAt.value) in actions)
  }

  /** The receipt a worker is about to write. */
  function Pending(p: Place): Option<Receipt> {
    if p.WritingPrepared? || p.WritingCompletion? || p.WritingFinalized? || p.WritingCleaned? then Some(p.next) else None
  }

  ghost predicate WorkerFrom(actions: seq<Action>, w: Worker) {
    && (w.lifecycle.Some? ==> ReceiptFrom(actions, w.lifecycle.value))
    && (Pending(w.place).Some? ==> ReceiptFrom(actions, Pending(w.place).value))
    && (w.cancelled ==> Cancel(w.generation) in actions)
  }

  ghost predicate AllFrom(actions: seq<Action>, a: Attempt) {
    && (a.store.lifecycle.Some? ==> ReceiptFrom(actions, a.store.lifecycle.value))
    && forall g | g in a.workers :: a.workers[g].generation == g && WorkerFrom(actions, a.workers[g])
  }

  lemma MoreActions(actions: seq<Action>, x: Action, r: Receipt)
    requires ReceiptFrom(actions, r)
    ensures ReceiptFrom(actions + [x], r)
  {
    assert forall y | y in actions :: y in actions + [x];
    hide *;
    ReceiptFromMore(actions, actions + [x], r);
  }

  lemma ReceiptFromMore(actions: seq<Action>, more: seq<Action>, r: Receipt)
    requires ReceiptFrom(actions, r) && forall y | y in actions :: y in more
    ensures ReceiptFrom(more, r)
  {
  }

  lemma AllFromMore(actions: seq<Action>, x: Action, a: Attempt)
    requires AllFrom(actions, a)
    ensures AllFrom(actions + [x], a)
  {
    hide ReceiptFrom;
    if a.store.lifecycle.Some? { MoreActions(actions, x, a.store.lifecycle.value); }
    forall g | g in a.workers ensures WorkerFrom(actions + [x], a.workers[g]) {
      var w := a.workers[g];
      if w.lifecycle.Some? { MoreActions(actions, x, w.lifecycle.value); }
      if Pending(w.place).Some? { MoreActions(actions, x, Pending(w.place).value); }
    }
  }

  /** Nothing but one worker and perhaps the durable receipt has changed. */
  lemma OneChangedFrom(actions: seq<Action>, a: Attempt, a': Attempt, w': Worker)
    requires AllFrom(actions, a) && WorkerFrom(actions, w') && a'.workers == a.workers[w'.generation := w']
    requires a'.store.lifecycle == a.store.lifecycle
             || (a'.store.lifecycle.Some? && ReceiptFrom(actions, a'.store.lifecycle.value))
    ensures AllFrom(actions, a')
  {
    hide ReceiptFrom;
  }

  lemma PendingFrom(actions: seq<Action>, w: Worker, p: Place)
    requires WorkerFrom(actions, w) && (Pending(p).Some? ==> ReceiptFrom(actions, Pending(p).value))
    ensures WorkerFrom(actions, w.(place := p))
  {
    hide ReceiptFrom;
  }

  lemma WriteLeaves(a: Attempt, w: Worker)
    requires Pending(w.place).Some?
    ensures
      var (a', next) := (DoWrite(a, w), Pending(w.place).value);
      && w.generation in a'.workers && a'.workers == a.workers[w.generation := a'.workers[w.generation]]
      && (a'.store.lifecycle == a.store.lifecycle || a'.store.lifecycle == Some(next))
      && var w' := a'.workers[w.generation];
      && w'.generation == w.generation && w'.cancelled == w.cancelled && Pending(w'.place).None?
      && (w'.lifecycle == w.lifecycle || w'.lifecycle == Some(next))
  {
    hide Advances;
  }

  lemma WriteFrom(actions: seq<Action>, a: Attempt, w: Worker)
    requires AllFrom(actions, a) && w.generation in a.workers && a.workers[w.generation] == w
    ensures AllFrom(actions, DoWrite(a, w))
  {
    assert WorkerFrom(actions, w);
    hide ReceiptFrom, PersistLifecycle;
    if Pending(w.place).Some? {
      WriteLeaves(a, w);
      hide DoWrite;
      OneChangedFrom(actions, a, DoWrite(a, w), DoWrite(a, w).workers[w.generation]);
    }
  }

  lemma PrepareFrom(actions: seq<Action>, a: Attempt, w: Worker, made: Receipt)
    requires AllFrom(actions, a) && w.generation in a.workers && a.workers[w.generation] == w
    requires PreparedAs(w.generation, made) in actions
    ensures AllFrom(actions, DoPrepare(a, w, made))
  {
    assert WorkerFrom(actions, w);
    if w.lifecycle.None? && Advances(None, made) { assert ReceiptFrom(actions, made); }
    hide ReceiptFrom;
    OneChangedFrom(actions, a, DoPrepare(a, w, made), DoPrepare(a, w, made).workers[w.generation]);
  }

  lemma StageFrom(actions: seq<Action>, w: Worker, next: Receipt)
    requires WorkerFrom(actions, w) && w.lifecycle.Some?
    requires
      || (exists c :: next == w.lifecycle.value.(completion := Some(c)) && CompletionFrom(actions, c))
      || (exists f, n :: next == w.lifecycle.value.(finalized := Some(f)) && FinalizedAs(n, f) in actions)
      || (exists id, n :: next == w.lifecycle.value.(changeRequestId := Some(id)) && ChangeRequested(n, id) in actions)
      || (exists at, n :: next == w.lifecycle.value.(cleanedAt := Some(at)) && RemoveWorktree(n, at) in actions)
    ensures ReceiptFrom(actions, next)
  {
    hide CompletionFrom;
  }

  lemma StartFrom(actions: seq<Action>, a: Attempt, w: Worker)
    requires AllFrom(actions, a) && w.generation in a.workers && a.workers[w.generation] == w && w.lifecycle.Some?
    ensures AllFrom(actions, DoStart(a, w))
  {
    assert WorkerFrom(actions, w);
    var next := w.lifecycle.value.(completion := Some(Completion(Cancelled, "")));
    if w.cancelled { StageFrom(actions, w, next); }
    hide ReceiptFrom, WorkerFrom;
    var w' := DoStart(a, w).workers[w.generation];
    PendingFrom(actions, w, w'.place);
    OneChangedFrom(actions, a, DoStart(a, w), w');
  }

  lemma EndFrom(actions: seq<Action>, a: Attempt, w: Worker, c: Completion)
    requires AllFrom(actions, a) && w.generation in a.workers && a.workers[w.generation] == w && w.lifecycle.Some?
    requires EndRuntime(w.generation, c) in actions
    ensures AllFrom(actions, DoEnd(a, w, c))
  {
    assert WorkerFrom(actions, w);
    StageFrom(actions, w, w.lifecycle.value.(completion := Some(if w.cancelled then Completion(Cancelled, "") else c)));
    hide ReceiptFrom, WorkerFrom;
    var w' := DoEnd(a, w, c).workers[w.generation];
    PendingFrom(actions, w, w'.place);
    OneChangedFrom(actions, a, DoEnd(a, w, c), w');
  }

  lemma FinalizeFrom(actions: seq<Action>, a: Attempt, w: Worker, f: Finalized)
    requires AllFrom(actions, a) && w.generation in a.workers && a.workers[w.generation] == w && w.lifecycle.Some?
    requires FinalizedAs(w.generation, f) in actions
    ensures AllFrom(actions, DoFinalize(a, w, f))
  {
    assert WorkerFrom(actions, w);
    StageFrom(actions, w, w.lifecycle.value.(finalized := Some(f)));
    hide ReceiptFrom, WorkerFrom, Advances;
    var w' := DoFinalize(a, w, f).workers[w.generation];
    PendingFrom(actions, w, w'.place);
    OneChangedFrom(actions, a, DoFinalize(a, w, f), w');
  }

  lemma RequestFrom(actions: seq<Action>, a: Attempt, w: Worker, id: string)
    requires AllFrom(actions, a) && w.generation in a.workers && a.workers[w.generation] == w && w.lifecycle.Some?
    requires ChangeRequested(w.generation, id) in actions
    ensures AllFrom(actions, DoRequest(a, w, id))
  {
    assert WorkerFrom(actions, w);
    var next := w.lifecycle.value.(changeRequestId := Some(id));
    StageFrom(actions, w, next);
    PendingFrom(actions, w, Over);
    assert WorkerFrom(actions, w.(lifecycle := Some(next), place := Cleaning));
    hide ReceiptFrom, WorkerFrom, Advances;
    OneChangedFrom(actions, a, DoRequest(a, w, id), DoRequest(a, w, id).workers[w.generation]);
  }

  lemma RemoveFrom(actions: seq<Action>, a: Attempt, w: Worker, at: string)
    requires AllFrom(actions, a) && w.generation in a.workers && a.workers[w.generation] == w && w.lifecycle.Some?
    requires RemoveWorktree(w.generation, at) in actions
    ensures AllFrom(actions, DoRemove(a, w, at))
  {
    assert WorkerFrom(actions, w);
    StageFrom(actions, w, w.lifecycle.value.(cleanedAt := Some(at)));
    hide ReceiptFrom, WorkerFrom, Advances, OwnerRunning;
    var w' := DoRemove(a, w, at).workers[w.generation];
    PendingFrom(actions, w, w'.place);
    OneChangedFrom(actions, a, DoRemove(a, w, at), w');
  }

  lemma ReportFrom(actions: seq<Action>, a: Attempt, w: Worker)
    requires AllFrom(actions, a) && w.generation in a.workers && a.workers[w.generation] == w
    requires w.lifecycle.Some? && w.lifecycle.value.completion.Some?
    ensures AllFrom(actions, DoReport(a, w))
  {
    assert WorkerFrom(actions, w);
    PendingFrom(actions, w, Over);
    hide ReceiptFrom, WorkerFrom, MayComplete;
    OneChangedFrom(actions, a, DoReport(a, w), w.(place := Over));
  }

  lemma OwnStepFrom(actions: seq<Action>, a: Attempt, action: Action)
    requires AllFrom(actions, a) && action in actions && !action.Claim? && action.worker in a.workers
    ensures AllFrom(actions, Step(a, action))
  {
    var w := a.workers[action.worker];
    assert WorkerFrom(actions, w) && w.generation == action.worker;
    hide ReceiptFrom, DoWrite, DoPrepare, DoStart, DoEnd, DoFinalize, DoRequest, DoRemove, DoReport;
    match action
    case Write(_) => WriteFrom(actions, a, w);
    case PreparedAs(_, made) => PrepareFrom(actions, a, w, made);
    case StartRuntime(_) => if w.lifecycle.Some? { StartFrom(actions, a, w); }
    case EndRuntime(_, c) => if w.lifecycle.Some? { EndFrom(actions, a, w, c); }
    case FinalizedAs(_, f) => if w.lifecycle.Some? { FinalizeFrom(actions, a, w, f); }
    case ChangeRequested(_, id) => if w.lifecycle.Some? { RequestFrom(actions, a, w, id); }
    case RemoveWorktree(_, at) => if w.lifecycle.Some? { RemoveFrom(actions, a, w, at); }
    case Report(_) => if w.lifecycle.Some? && w.lifecycle.value.completion.Some? { ReportFrom(actions, a, w); }
    case Cancel(_) => OneChangedFrom(actions, a, Step(a, action), w.(cancelled := true));
    case Stop(_) =>
      PendingFrom(actions, w, Over);
      OneChangedFrom(actions, a, Step(a, action), w.(place := Over));
  }

  lemma StepFrom(actions: seq<Action>, a: Attempt, action: Action)
    requires AllFrom(actions, a) && action in actions
    ensures AllFrom(actions, Step(a, action))
  {
    hide ReceiptFrom;
    if !action.Claim? && action.worker in a.workers { OwnStepFrom(actions, a, action); }
    hide DoWrite, DoPrepare, DoStart, DoEnd, DoFinalize, DoRequest, DoRemove, DoReport;
  }

  lemma {:induction false} StepsLast(a: Attempt, front: seq<Action>, last: Action)
    ensures Steps(a, front + [last]) == Step(Steps(a, front), last)
  {
    hide Step;
    StepsJoin(a, front, [last]);
    assert [last][1..] == [];
    assert Steps(Steps(a, front), [last]) == Steps(Step(Steps(a, front), last), []);
  }

  lemma {:induction false} StepsFrom(actions: seq<Action>)
    ensures AllFrom(actions, Steps(NEW_ATTEMPT, actions))
    decreases |actions|
  {
    if actions != [] {
      var front, last := actions[..|actions| - 1], actions[|actions| - 1];
      assert actions == front + [last];
      hide *;
      StepsFrom(front);
      StepsLast(NEW_ATTEMPT, front, last);
      AllFromMore(front, last, Steps(NEW_ATTEMPT, front));
      StepFrom(actions, Steps(NEW_ATTEMPT, front), last);
    }
  }

  /**
   * Nothing is made up: what is durable about an attempt was each supplied by a step --
   * the workspace by a prepare, the completion by the end of a runtime or a cancel, the
   * result by a finalize, the change request and the time of cleaning by theirs.
   */
  lemma ReceiptIsSupplied(actions: seq<Action>)
    requires Steps(NEW_ATTEMPT, actions).store.lifecycle.Some?
    ensures ReceiptFrom(actions, Steps(NEW_ATTEMPT, actions).store.lifecycle.value)
  {
    StepsFrom(actions);
  }
}
