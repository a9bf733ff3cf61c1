/**
 * The durable receipt of one workspace attempt. It grows by one stage at a time
 * -- prepared, runtime completion, finalized, change request, cleaned -- and a
 * stage once written never changes.
 */
module Lifecycle {
  import opened Prelude

  datatype Binding = Binding(
    bindingId: string, spaceId: string, workspaceId: string, agentId: Option<string>, defaultBranch: string, baseCommit: string)

  datatype Prepared = Prepared(
    spaceId: string, repositoryPath: string, worktreePath: string, defaultBranch: string, branch: string,
    baseCommit: string, jobId: string, attemptId: string, attemptNumber: nat, agentId: Option<string>)

  datatype Outcome = Succeeded | FailedRun | Cancelled
  datatype Completion = Completion(status: Outcome, detail: string)

  datatype Finalized = Finalized(
    spaceId: string, jobId: string, attemptId: string, agentId: Option<string>, changed: bool, baseCommit: string,
    headCommit: string, branch: string, detail: string)

  datatype Receipt = Receipt(
    binding: Binding, prepared: Prepared, completion: Option<Completion>, finalized: Option<Finalized>,
    changeRequestId: Option<string>, cleanedAt: Option<string>)

  datatype Stage = CompletionStage | FinalizedStage | ChangeRequestStage | CleanedStage

  // ----- what the parser accepts

  predicate PreparedAligned(b: Binding, p: Prepared) {
    p.spaceId == b.spaceId && p.agentId == b.agentId && p.defaultBranch == b.defaultBranch && p.baseCommit == b.baseCommit
  }

  predicate FinalizedAligned(b: Binding, p: Prepared, f: Finalized) {
    && f.spaceId == b.spaceId && f.jobId == p.jobId && f.attemptId == p.attemptId && f.agentId == b.agentId
    && f.baseCommit == b.baseCommit && f.branch == p.branch
  }

  predicate RunSucceeded(r: Receipt) {
    r.completion.Some? && r.completion.value.status == Succeeded
  }

  predicate Valid(r: Receipt) {
    && PreparedAligned(r.binding, r.prepared)
    && (r.finalized.Some? ==> RunSucceeded(r) && FinalizedAligned(r.binding, r.prepared, r.finalized.value))
    && (r.changeRequestId.Some? ==> r.changeRequestId.value != "" && r.finalized.Some? && r.finalized.value.changed)
    && (r.cleanedAt.Some? ==> r.cleanedAt.value != "")
  }

  // ----- advancing by one stage

  predicate Has(r: Receipt, stage: Stage) {
    match stage
    case CompletionStage => r.completion.Some?
    case FinalizedStage => r.finalized.Some?
    case ChangeRequestStage => r.changeRequestId.Some?
    case CleanedStage => r.cleanedAt.Some?
  }

  predicate SameStage(r: Receipt, r': Receipt, stage: Stage) {
    match stage
    case CompletionStage => r'.completion == r.completion
    case FinalizedStage => r'.finalized == r.finalized
    case ChangeRequestStage => r'.changeRequestId == r.changeRequestId
    case CleanedStage => r'.cleanedAt == r.cleanedAt
  }

  function NextStage(r: Receipt): Option<Stage> {
    if r.cleanedAt.Some? then None
    else if r.completion.None? then Some(CompletionStage)
    else if r.completion.value.status != Succeeded then Some(CleanedStage)
    else if r.finalized.None? then Some(FinalizedStage)
    else if !r.finalized.value.changed then Some(CleanedStage)
    else if r.changeRequestId.None? then Some(ChangeRequestStage)
    else Some(CleanedStage)
  }

  predicate NothingPresent(r: Receipt) {
    r.completion.None? && r.finalized.None? && r.changeRequestId.None? && r.cleanedAt.None?
  }

  /** The stages of `next` that `r` lacks are exactly this one. */
  predicate AddsExactly(r: Receipt, next: Receipt, stage: Stage) {
    forall s: Stage :: (!Has(r, s) && Has(next, s)) <==> s == stage
  }

  /** Exact replay, or the addition of exactly the next stage with all others kept as they were. */
  predicate Advances(previous: Option<Receipt>, next: Receipt) {
    && Valid(next)
    && match previous
       case None => NothingPresent(next)
       case Some(r) =>
         && Valid(r)
         && (r == next
             || (&& next.binding == r.binding && next.prepared == r.prepared
                 && (forall s: Stage | Has(r, s) :: Has(next, s) && SameStage(r, next, s))
                 && NextStage(r).Some? && AddsExactly(r, next, NextStage(r).value)))
  }

  /** A receipt may be written over nothing first, and then each over the one before. */
  ghost predicate Chain(chain: seq<Receipt>) {
    chain != [] && Advances(None, chain[0]) && forall i | 0 < i < |chain| :: Advances(Some(chain[i - 1]), chain[i])
  }

  ghost predicate Reachable(r: Receipt) {
    exists chain :: Chain(chain) && chain[|chain| - 1] == r
  }

  /** The rule that the stages were added in order, read off the final receipt alone. */
  predicate InOrder(r: Receipt) {
    r.cleanedAt.Some? ==>
      && r.completion.Some?
      && (r.completion.value.status != Succeeded
          || (r.finalized.Some? && (r.finalized.value.changed ==> r.changeRequestId.Some?)))
  }

  /** An advance that is not a replay, stage by stage. */
  lemma StrictAdvance(r: Receipt, next: Receipt)
    requires Advances(Some(r), next) && r != next
    ensures next.binding == r.binding && next.prepared == r.prepared
    ensures NextStage(r).Some?
    ensures
      match NextStage(r).value
      case CompletionStage => next == r.(completion := next.completion) && r.completion.None? && next.completion.Some?
      case FinalizedStage => next == r.(finalized := next.finalized) && r.finalized.None? && next.finalized.Some?
      case ChangeRequestStage =>
        next == r.(changeRequestId := next.changeRequestId) && r.changeRequestId.None? && next.changeRequestId.Some?
      case CleanedStage => next == r.(cleanedAt := next.cleanedAt) && r.cleanedAt.None? && next.cleanedAt.Some?
  {
    forall s: Stage ensures Has(next, s) <==> Has(r, s) || s == NextStage(r).value {}
    assert Has(r, CompletionStage) <==> r.completion.Some?;
    assert Has(r, FinalizedStage) <==> r.finalized.Some?;
    assert Has(r, ChangeRequestStage) <==> r.changeRequestId.Some?;
    assert Has(r, CleanedStage) <==> r.cleanedAt.Some?;
    assert Has(next, CompletionStage) <==> next.completion.Some?;
    assert Has(next, FinalizedStage) <==> next.finalized.Some?;
    assert Has(next, ChangeRequestStage) <==> next.changeRequestId.Some?;
    assert Has(next, CleanedStage) <==> next.cleanedAt.Some?;
  }

  lemma AdvanceKeepsOrder(r: Receipt, next: Receipt)
    requires Advances(Some(r), next) && InOrder(r)
    ensures InOrder(next)
  {
    if r != next { StrictAdvance(r, next); }
  }

  lemma {:induction false} ChainKeepsOrder(chain: seq<Receipt>)
    requires Chain(chain)
    ensures Valid(chain[|chain| - 1]) && InOrder(chain[|chain| - 1])
  {
    if |chain| > 1 {
      var front := chain[..|chain| - 1];
      assert forall i | 0 <= i < |front| :: front[i] == chain[i];
      ChainKeepsOrder(front);
      AdvanceKeepsOrder(chain[|chain| - 2], chain[|chain| - 1]);
    }
  }

  lemma Extend(chain: seq<Receipt>, next: Receipt) returns (longer: seq<Receipt>)
    requires Chain(chain) && Advances(Some(chain[|chain| - 1]), next)
    ensures Chain(longer) && longer[|longer| - 1] == next
  {
    longer := chain + [next];
    forall i | 0 < i < |longer| ensures Advances(Some(longer[i - 1]), longer[i]) {
      if i < |chain| { assert longer[i] == chain[i] && longer[i - 1] == chain[i - 1]; }
    }
  }

  /** Takes the latest stage off a receipt: the receipt it advanced from. */
  function Before(r: Receipt): Receipt {
    if r.cleanedAt.Some? then r.(cleanedAt := None)
    else if r.changeRequestId.Some? then r.(changeRequestId := None)
    else if r.finalized.Some? then r.(finalized := None)
    else r.(completion := None)
  }

  lemma BeforeAdvances(r: Receipt)
    requires Valid(r) && InOrder(r) && !NothingPresent(r)
    ensures Valid(Before(r)) && InOrder(Before(r)) && Advances(Some(Before(r)), r)
  {
  }

  function Size(r: Receipt): nat {
    (if r.completion.Some? then 1 else 0) + (if r.finalized.Some? then 1 else 0)
    + (if r.changeRequestId.Some? then 1 else 0) + (if r.cleanedAt.Some? then 1 else 0)
  }

  lemma {:induction false} BuildChain(r: Receipt) returns (chain: seq<Receipt>)
    requires Valid(r) && InOrder(r)
    ensures Chain(chain) && chain[|chain| - 1] == r
    decreases Size(r)
  {
    if NothingPresent(r) {
      chain := [r];
    } else {
      BeforeAdvances(r);
      var shorter := BuildChain(Before(r));
      chain := Extend(shorter, r);
    }
  }

  /** The receipts that advances can produce are exactly the parse-valid ones whose stages are in order. */
  lemma ReachableIff(r: Receipt)
    ensures Reachable(r) <==> Valid(r) && InOrder(r)
  {
    if Reachable(r) {
      var chain :| Chain(chain) && chain[|chain| - 1] == r;
      ChainKeepsOrder(chain);
    }
    if Valid(r) && InOrder(r) {
      var chain := BuildChain(r);
      assert Chain(chain) && chain[|chain| - 1] == r;
    }
  }

  // ----- how long a chain can be, and what it never changes

  function StrictSteps(chain: seq<Receipt>): nat {
    if |chain| < 2 then 0
    else StrictSteps(chain[..|chain| - 1]) + if chain[|chain| - 1] == chain[|chain| - 2] then 0 else 1
  }

  lemma {:induction false} StepsAreStages(chain: seq<Receipt>)
    requires Chain(chain)
    ensures StrictSteps(chain) == Size(chain[|chain| - 1])
  {
    if |chain| > 1 {
      var front := chain[..|chain| - 1];
      assert forall i | 0 <= i < |front| :: front[i] == chain[i];
      StepsAreStages(front);
      assert Advances(Some(chain[|chain| - 2]), chain[|chain| - 1]);
      if chain[|chain| - 2] != chain[|chain| - 1] { StrictAdvance(chain[|chain| - 2], chain[|chain| - 1]); }
    }
  }

  /** However often it is replayed, a receipt is written with new content at most five times, the first included. */
  lemma AtMostFiveAdvances(chain: seq<Receipt>)
    requires Chain(chain)
    ensures 1 + StrictSteps(chain) <= 5
  {
    StepsAreStages(chain);
  }

  /** Two receipts that each advance to the other are one. */
  lemma MutualAdvanceIsEquality(a: Receipt, b: Receipt)
    requires Advances(Some(a), b) && Advances(Some(b), a)
    ensures a == b
  {
    if a != b {
      StrictAdvance(a, b);
      StrictAdvance(b, a);
    }
  }

  /** Everything a receipt says, a later one says too. */
  predicate Keeps(r: Receipt, later: Receipt) {
    && later.binding == r.binding && later.prepared == r.prepared
    && (r.completion.Some? ==> later.completion == r.completion)
    && (r.finalized.Some? ==> later.finalized == r.finalized)
    && (r.changeRequestId.Some? ==> later.changeRequestId == r.changeRequestId)
    && (r.cleanedAt.Some? ==> later.cleanedAt == r.cleanedAt)
  }

  lemma {:induction false} StagesNeverChange(chain: seq<Receipt>, i: nat, j: nat)
    requires Chain(chain) && i <= j < |chain|
    ensures Keeps(chain[i], chain[j])
    decreases j
  {
    if i < j {
      StagesNeverChange(chain, i, j - 1);
      assert Advances(Some(chain[j - 1]), chain[j]);
      if chain[j - 1] != chain[j] { StrictAdvance(chain[j - 1], chain[j]); }
    }
  }

  // ----- the same, field by field

  /** Everything a receipt names belongs to one attempt on one base, and no stage stands without those before it. */
  predicate Coherent(r: Receipt) {
    && r.prepared.spaceId == r.binding.spaceId && r.prepared.agentId == r.binding.agentId
    && r.prepared.defaultBranch == r.binding.defaultBranch && r.prepared.baseCommit == r.binding.baseCommit
    && (r.finalized.Some? ==>
          && r.completion.Some? && r.completion.value.status == Succeeded
          && r.finalized.value.spaceId == r.prepared.spaceId && r.finalized.value.jobId == r.prepared.jobId
          && r.finalized.value.attemptId == r.prepared.attemptId && r.finalized.value.agentId == r.prepared.agentId
          && r.finalized.value.branch == r.prepared.branch && r.finalized.value.baseCommit == r.prepared.baseCommit)
    && (r.changeRequestId.Some? ==> r.finalized.Some? && r.finalized.value.changed && r.changeRequestId.value != "")
    && (r.cleanedAt.Some? ==>
          && r.cleanedAt.value != "" && r.completion.Some?
          && (r.completion.value.status == Succeeded ==>
                r.finalized.Some? && (r.finalized.value.changed ==> r.changeRequestId.Some?)))
  }

  /** A receipt can come about exactly when all it says hangs together. */
  lemma ReachableIffCoherent(r: Receipt)
    ensures Reachable(r) <==> Coherent(r)
  {
    ReachableIff(r);
    hide Reachable;
  }

  /** One stage more, and nothing else different. */
  predicate OneStageMore(r: Receipt, next: Receipt) {
    || (r.completion.None? && next.completion.Some? && next == r.(completion := next.completion))
    || (r.finalized.None? && next.finalized.Some? && next == r.(finalized := next.finalized))
    || (r.changeRequestId.None? && next.changeRequestId.Some? && next == r.(changeRequestId := next.changeRequestId))
    || (r.cleanedAt.None? && next.cleanedAt.Some? && next == r.(cleanedAt := next.cleanedAt))
  }

  lemma OneMoreAdvances(r: Receipt, next: Receipt)
    requires Coherent(r) && Coherent(next) && OneStageMore(r, next)
    ensures Advances(Some(r), next)
  {
    forall s: Stage ensures Has(r, s) ==> Has(next, s) && SameStage(r, next, s) {}
  }

  /** A receipt that came about may be replaced by itself and by the coherent receipts with one stage more, and by no other. */
  lemma AdvancesIff(r: Receipt, next: Receipt)
    requires Reachable(r)
    ensures Advances(Some(r), next) <==> next == r || (Coherent(next) && OneStageMore(r, next))
    ensures Advances(Some(r), next) ==> Reachable(next)
  {
    ReachableIff(r);
    ReachableIff(next);
    hide Reachable;
    if Advances(Some(r), next) {
      AdvanceKeepsOrder(r, next);
      if r != next { StrictAdvance(r, next); }
    }
    if Coherent(next) && OneStageMore(r, next) { OneMoreAdvances(r, next); }
  }

  /** Over nothing, only a receipt that names its worktree and no stage may be written. */
  lemma FirstIff(next: Receipt)
    ensures Advances(None, next) <==>
      Coherent(next) && next.completion.None? && next.finalized.None? && next.changeRequestId.None? && next.cleanedAt.None?
  {
  }
}
