/**
 * Choosing a runtime for an execution: every requirement and policy is applied to
 * every candidate first, and only then are the eligible ones ranked.
 *
 * Slots and priorities are real numbers; a slot count that is not finite is a case
 * of its own. The collation by which ids break a last tie is a parameter: it may
 * find two different ids equal, and then the order of the input decides.
 */
module Matcher {
  import opened Prelude
  import opened Sorting
  import opened Text

  datatype Streaming = NoStreaming | TextStreaming | TypedEvents
  datatype Interrupt = NoInterrupt | ProcessKill | Graceful
  datatype Workspace = NoWorkspace | Directory | GitWorktree

  function StreamingLevel(s: Streaming): nat {
    match s case NoStreaming => 0 case TextStreaming => 1 case TypedEvents => 2
  }

  function InterruptLevel(i: Interrupt): nat {
    match i case NoInterrupt => 0 case ProcessKill => 1 case Graceful => 2
  }

  function WorkspaceLevel(w: Workspace): nat {
    match w case NoWorkspace => 0 case Directory => 1 case GitWorktree => 2
  }

  datatype Capabilities = Capabilities(
    kinds: seq<string>, nativeResume: bool, checkpoint: bool, streaming: Streaming, interrupt: Interrupt,
    workspace: Workspace, sandbox: string, structuredArtifacts: bool, waitingForHuman: bool,
    supportedModels: seq<string>, features: seq<string>)

  datatype Requirements = Requirements(
    nativeResume: bool, checkpoint: bool, streaming: Option<Streaming>, interrupt: Option<Interrupt>,
    workspace: Option<Workspace>, sandbox: Option<seq<string>>, structuredArtifacts: bool, waitingForHuman: bool,
    features: seq<string>)

  datatype Health = Healthy | Degraded | Unavailable
  datatype Slots = Finite(count: real) | NotFinite

  datatype Candidate = Candidate(
    runtimeId: string, capabilities: Capabilities, priority: Option<real>, health: Health, acceptingNewAttempts: bool,
    slots: Slots)

  datatype Allowed = AnyRuntime | OnlyThese(runtimeIds: seq<string>)
  datatype Strategy = Automatic | Explicit(runtimeId: string)

  datatype Request = Request(
    candidates: seq<Candidate>, kind: string, model: string, requirements: Requirements, allowed: Allowed,
    allowDegraded: bool, strategy: Strategy, preference: seq<string>)

  datatype Rejection =
    | DuplicateRuntimeId | WaitingNeedsResume | NotExplicitRuntime | NotAllowedByOrganization | RuntimeDegraded
    | RuntimeUnhealthy | NotAcceptingAttempts | AtCapacity | KindNotSupported | NativeResumeRequired | CheckpointRequired
    | StreamingInsufficient | InterruptInsufficient | WorkspaceInsufficient | SandboxNotSupported
    | StructuredArtifactsRequired | WaitingForHumanRequired | ModelNotSupported | FeatureNotSupported(feature: string)

  datatype Evaluation = Evaluation(candidate: Candidate, preferenceRank: Option<nat>, rejections: seq<Rejection>)

  // ----- repeated ids and preferences

  function Ids(cs: seq<Candidate>): multiset<string> {
    SumOf(cs, (c: Candidate) => multiset{c.runtimeId})
  }

  method CollectDuplicateRuntimeIds(cs: seq<Candidate>) returns (duplicates: set<string>)
    ensures forall id :: id in duplicates <==> Ids(cs)[id] > 1
  {
    var seen: set<string> := {};
    duplicates := {};
    var i := 0;
    while i < |cs|
      invariant 0 <= i <= |cs|
      invariant forall id :: id in seen <==> Ids(cs[..i])[id] > 0
      invariant forall id :: id in duplicates <==> Ids(cs[..i])[id] > 1
    {
      assert cs[..i + 1][..i] == cs[..i];
      if cs[i].runtimeId in seen { duplicates := duplicates + {cs[i].runtimeId}; }
      seen := seen + {cs[i].runtimeId};
      i := i + 1;
    }
    assert cs[..i] == cs;
  }

  /** Position of an id in a preference list that counts each id once; None when it is not listed. */
  function RankIn(ids: seq<string>, id: string): (r: Option<nat>)
    ensures r.Some? <==> id in ids
  {
    if id !in ids then None
    else
      var front := ids[..|ids| - 1];
      if id in front then RankIn(front, id) else Some(|set x | x in front|)
  }

  method CreatePreferenceRanks(ids: seq<string>) returns (ranks: map<string, nat>)
    ensures forall id :: (if id in ranks then Some(ranks[id]) else None) == RankIn(ids, id)
  {
    ranks := map[];
    var i := 0;
    while i < |ids|
      invariant 0 <= i <= |ids|
      invariant ranks.Keys == set x | x in ids[..i]
      invariant forall id :: (if id in ranks then Some(ranks[id]) else None) == RankIn(ids[..i], id)
    {
      assert ids[..i + 1][..i] == ids[..i];
      assert forall x :: x in ids[..i + 1] <==> x in ids[..i] || x == ids[i];
      if ids[i] !in ranks {
        assert |ranks.Keys| == |ranks|;
        ranks := ranks[ids[i] := |ranks|];
      }
      i := i + 1;
    }
    assert ids[..i] == ids;
  }

  // ----- one candidate

  function When(condition: bool, r: Rejection): seq<Rejection> {
    if condition then [r] else []
  }

  function Missing(features: seq<string>, offered: seq<string>): seq<Rejection> {
    if features == [] then []
    else
      Missing(features[..|features| - 1], offered)
      + When(features[|features| - 1] !in offered, FeatureNotSupported(features[|features| - 1]))
  }

  /** What registry, strategy and policy have against a candidate. */
  function PolicyRejections(c: Candidate, r: Request): seq<Rejection> {
    When(Ids(r.candidates)[c.runtimeId] > 1, DuplicateRuntimeId)
    + When(c.capabilities.waitingForHuman && !c.capabilities.nativeResume, WaitingNeedsResume)
    + When(r.strategy.Explicit? && c.runtimeId != r.strategy.runtimeId, NotExplicitRuntime)
    + When(r.allowed.OnlyThese? && c.runtimeId !in r.allowed.runtimeIds, NotAllowedByOrganization)
  }

  /** What its health, its capacity and the kind of work have against it. */
  function ReadinessRejections(c: Candidate, allowDegraded: bool, kind: string): seq<Rejection> {
    When(c.health == Degraded && !allowDegraded, RuntimeDegraded)
    + When(c.health == Unavailable, RuntimeUnhealthy)
    + When(!c.acceptingNewAttempts, NotAcceptingAttempts)
    + When(c.slots.NotFinite? || c.slots.count <= 0.0, AtCapacity)
    + When(kind !in c.capabilities.kinds, KindNotSupported)
  }

  /** What the requirements have against its capabilities, features apart. */
  function CapabilityRejections(cap: Capabilities, req: Requirements, model: string): seq<Rejection> {
    When(req.nativeResume && !cap.nativeResume, NativeResumeRequired)
    + When(req.checkpoint && !cap.checkpoint, CheckpointRequired)
    + When(req.streaming.Some? && StreamingLevel(cap.streaming) < StreamingLevel(req.streaming.value), StreamingInsufficient)
    + When(req.interrupt.Some? && InterruptLevel(cap.interrupt) < InterruptLevel(req.interrupt.value), InterruptInsufficient)
    + When(req.workspace.Some? && WorkspaceLevel(cap.workspace) < WorkspaceLevel(req.workspace.value), WorkspaceInsufficient)
    + When(req.sandbox.Some? && cap.sandbox !in req.sandbox.value, SandboxNotSupported)
    + When(req.structuredArtifacts && !cap.structuredArtifacts, StructuredArtifactsRequired)
    + When(req.waitingForHuman && !cap.waitingForHuman, WaitingForHumanRequired)
    + When(model != "" && "*" !in cap.supportedModels && model !in cap.supportedModels, ModelNotSupported)
  }

  /** Everything that speaks against a candidate, in the order it is checked. */
  function Rejections(c: Candidate, r: Request): seq<Rejection> {
    PolicyRejections(c, r) + ReadinessRejections(c, r.allowDegraded, r.kind)
    + CapabilityRejections(c.capabilities, r.requirements, r.model)
    + Missing(r.requirements.features, c.capabilities.features)
  }

  /** Typed events do for text as well, and anything does for no streaming. */
  predicate Streams(offered: Streaming, asked: Streaming) {
    offered == asked || asked == NoStreaming || offered == TypedEvents
  }

  /** A graceful interrupt does where a kill would. */
  predicate Interrupts(offered: Interrupt, asked: Interrupt) {
    offered == asked || asked == NoInterrupt || offered == Graceful
  }

  /** A Git worktree does where a directory would. */
  predicate Houses(offered: Workspace, asked: Workspace) {
    offered == asked || asked == NoWorkspace || offered == GitWorktree
  }

  /** What the requirements alone ask of a candidate. */
  predicate Provides(cap: Capabilities, req: Requirements) {
    && (req.nativeResume ==> cap.nativeResume) && (req.checkpoint ==> cap.checkpoint)
    && (req.streaming.Some? ==> Streams(cap.streaming, req.streaming.value))
    && (req.interrupt.Some? ==> Interrupts(cap.interrupt, req.interrupt.value))
    && (req.workspace.Some? ==> Houses(cap.workspace, req.workspace.value))
    && (req.sandbox.Some? ==> cap.sandbox in req.sandbox.value)
    && (req.structuredArtifacts ==> cap.structuredArtifacts) && (req.waitingForHuman ==> cap.waitingForHuman)
    && (forall f | f in req.features :: f in cap.features)
  }

  /** Eligibility, stated without the order of the checks. */
  predicate Fit(c: Candidate, r: Request) {
    && Ids(r.candidates)[c.runtimeId] <= 1
    && (c.capabilities.waitingForHuman ==> c.capabilities.nativeResume)
    && (r.strategy.Explicit? ==> c.runtimeId == r.strategy.runtimeId)
    && (r.allowed.OnlyThese? ==> c.runtimeId in r.allowed.runtimeIds)
    && (c.health == Healthy || (c.health == Degraded && r.allowDegraded))
    && c.acceptingNewAttempts && c.slots.Finite? && 0.0 < c.slots.count
    && r.kind in c.capabilities.kinds
    && (r.model == "" || "*" in c.capabilities.supportedModels || r.model in c.capabilities.supportedModels)
    && Provides(c.capabilities, r.requirements)
  }

  lemma {:induction false} NothingMissing(features: seq<string>, offered: seq<string>)
    ensures Missing(features, offered) == [] <==> forall f | f in features :: f in offered
  {
    if features != [] {
      NothingMissing(features[..|features| - 1], offered);
      assert features == features[..|features| - 1] + [features[|features| - 1]];
    }
  }

  /** No rejection exactly when the candidate is fit. */
  lemma EligibleIffFit(c: Candidate, r: Request)
    ensures Rejections(c, r) == [] <==> Fit(c, r)
  {
    NothingMissing(r.requirements.features, c.capabilities.features);
    assert |Rejections(c, r)| == 0 <==> Rejections(c, r) == [];
  }

  /** What each reason says of the candidate. */
  ghost predicate Defect(c: Candidate, r: Request, reason: Rejection) {
    var (cap, req) := (c.capabilities, r.requirements);
    match reason
    case DuplicateRuntimeId => Ids(r.candidates)[c.runtimeId] > 1
    case WaitingNeedsResume => cap.waitingForHuman && !cap.nativeResume
    case NotExplicitRuntime => r.strategy.Explicit? && r.strategy.runtimeId != c.runtimeId
    case NotAllowedByOrganization => r.allowed.OnlyThese? && c.runtimeId !in r.allowed.runtimeIds
    case RuntimeDegraded => c.health == Degraded && !r.allowDegraded
    case RuntimeUnhealthy => c.health == Unavailable
    case NotAcceptingAttempts => !c.acceptingNewAttempts
    case AtCapacity => c.slots == NotFinite || c.slots.count <= 0.0
    case KindNotSupported => r.kind !in cap.kinds
    case NativeResumeRequired => req.nativeResume && !cap.nativeResume
    case CheckpointRequired => req.checkpoint && !cap.checkpoint
    case StreamingInsufficient => req.streaming.Some? && !Streams(cap.streaming, req.streaming.value)
    case InterruptInsufficient => req.interrupt.Some? && !Interrupts(cap.interrupt, req.interrupt.value)
    case WorkspaceInsufficient => req.workspace.Some? && !Houses(cap.workspace, req.workspace.value)
    case SandboxNotSupported => req.sandbox.Some? && cap.sandbox !in req.sandbox.value
    case StructuredArtifactsRequired => req.structuredArtifacts && !cap.structuredArtifacts
    case WaitingForHumanRequired => req.waitingForHuman && !cap.waitingForHuman
    case ModelNotSupported => r.model != "" && "*" !in cap.supportedModels && r.model !in cap.supportedModels
    case FeatureNotSupported(feature) => feature in req.features && feature !in cap.features
  }

  lemma {:induction false} MissingHas(features: seq<string>, offered: seq<string>, reason: Rejection)
    ensures reason in Missing(features, offered)
       <==> reason.FeatureNotSupported? && reason.feature in features && reason.feature !in offered
  {
    if features != [] {
      MissingHas(features[..|features| - 1], offered, reason);
      assert features == features[..|features| - 1] + [features[|features| - 1]];
    }
  }

  lemma PolicyHas(c: Candidate, r: Request, reason: Rejection)
    ensures reason in PolicyRejections(c, r) <==>
      (reason.DuplicateRuntimeId? || reason.WaitingNeedsResume? || reason.NotExplicitRuntime? || reason.NotAllowedByOrganization?)
      && Defect(c, r, reason)
  {
    hide Ids, Streams, Interrupts, Houses;
  }

  lemma ReadinessHas(c: Candidate, r: Request, reason: Rejection)
    ensures reason in ReadinessRejections(c, r.allowDegraded, r.kind) <==>
      (reason.RuntimeDegraded? || reason.RuntimeUnhealthy? || reason.NotAcceptingAttempts? || reason.AtCapacity?
       || reason.KindNotSupported?) && Defect(c, r, reason)
  {
    hide Ids, Streams, Interrupts, Houses;
  }

  predicate AboutCapability(reason: Rejection) {
    reason in {NativeResumeRequired, CheckpointRequired, StreamingInsufficient, InterruptInsufficient, WorkspaceInsufficient,
               SandboxNotSupported, StructuredArtifactsRequired, WaitingForHumanRequired, ModelNotSupported}
  }

  /** Nine conditions, each with the reason it gives. */
  function Nine(a: bool, b: bool, s: bool, i: bool, w: bool, x: bool, t: bool, h: bool, m: bool): seq<Rejection> {
    When(a, NativeResumeRequired) + When(b, CheckpointRequired) + When(s, StreamingInsufficient)
    + When(i, InterruptInsufficient) + When(w, WorkspaceInsufficient) + When(x, SandboxNotSupported)
    + When(t, StructuredArtifactsRequired) + When(h, WaitingForHumanRequired) + When(m, ModelNotSupported)
  }

  lemma NineHas(a: bool, b: bool, s: bool, i: bool, w: bool, x: bool, t: bool, h: bool, m: bool, reason: Rejection)
    ensures reason in Nine(a, b, s, i, w, x, t, h, m) <==>
      || (a && reason == NativeResumeRequired) || (b && reason == CheckpointRequired) || (s && reason == StreamingInsufficient)
      || (i && reason == InterruptInsufficient) || (w && reason == WorkspaceInsufficient) || (x && reason == SandboxNotSupported)
      || (t && reason == StructuredArtifactsRequired) || (h && reason == WaitingForHumanRequired)
      || (m && reason == ModelNotSupported)
  {
    hide When;
    InAllNine(When(a, NativeResumeRequired), When(b, CheckpointRequired), When(s, StreamingInsufficient),
              When(i, InterruptInsufficient), When(w, WorkspaceInsufficient), When(x, SandboxNotSupported),
              When(t, StructuredArtifactsRequired), When(h, WaitingForHumanRequired), When(m, ModelNotSupported), reason);
    WhenHas(a, NativeResumeRequired, reason);
    WhenHas(b, CheckpointRequired, reason);
    WhenHas(s, StreamingInsufficient, reason);
    WhenHas(i, InterruptInsufficient, reason);
    WhenHas(w, WorkspaceInsufficient, reason);
    WhenHas(x, SandboxNotSupported, reason);
    WhenHas(t, StructuredArtifactsRequired, reason);
    WhenHas(h, WaitingForHumanRequired, reason);
    WhenHas(m, ModelNotSupported, reason);
  }

  lemma CapabilityIn(cap: Capabilities, req: Requirements, model: string, reason: Rejection)
    ensures reason in CapabilityRejections(cap, req, model) <==>
      || (req.nativeResume && !cap.nativeResume && reason == NativeResumeRequired)
      || (req.checkpoint && !cap.checkpoint && reason == CheckpointRequired)
      || (req.streaming.Some? && StreamingLevel(cap.streaming) < StreamingLevel(req.streaming.value) && reason == StreamingInsufficient)
      || (req.interrupt.Some? && InterruptLevel(cap.interrupt) < InterruptLevel(req.interrupt.value) && reason == InterruptInsufficient)
      || (req.workspace.Some? && WorkspaceLevel(cap.workspace) < WorkspaceLevel(req.workspace.value) && reason == WorkspaceInsufficient)
      || (req.sandbox.Some? && cap.sandbox !in req.sandbox.value && reason == SandboxNotSupported)
      || (req.structuredArtifacts && !cap.structuredArtifacts && reason == StructuredArtifactsRequired)
      || (req.waitingForHuman && !cap.waitingForHuman && reason == WaitingForHumanRequired)
      || (model != "" && "*" !in cap.supportedModels && model !in cap.supportedModels && reason == ModelNotSupported)
  {
    hide When, StreamingLevel, InterruptLevel, WorkspaceLevel;
    NineHas(req.nativeResume && !cap.nativeResume, req.checkpoint && !cap.checkpoint,
            req.streaming.Some? && StreamingLevel(cap.streaming) < StreamingLevel(req.streaming.value),
            req.interrupt.Some? && InterruptLevel(cap.interrupt) < InterruptLevel(req.interrupt.value),
            req.workspace.Some? && WorkspaceLevel(cap.workspace) < WorkspaceLevel(req.workspace.value),
            req.sandbox.Some? && cap.sandbox !in req.sandbox.value,
            req.structuredArtifacts && !cap.structuredArtifacts, req.waitingForHuman && !cap.waitingForHuman,
            model != "" && "*" !in cap.supportedModels && model !in cap.supportedModels, reason);
  }

  lemma CapabilityHas(c: Candidate, r: Request, reason: Rejection)
    ensures reason in CapabilityRejections(c.capabilities, r.requirements, r.model) <==> AboutCapability(reason) && Defect(c, r, reason)
  {
    CapabilityIn(c.capabilities, r.requirements, r.model, reason);
    hide CapabilityRejections, Ids;
  }

  lemma WhenHas(condition: bool, why: Rejection, reason: Rejection)
    ensures reason in When(condition, why) <==> condition && reason == why
  {
  }

  lemma InAllNine(a: seq<Rejection>, b: seq<Rejection>, c: seq<Rejection>, d: seq<Rejection>, e: seq<Rejection>,
                  f: seq<Rejection>, g: seq<Rejection>, h: seq<Rejection>, i: seq<Rejection>, x: Rejection)
    ensures x in a + b + c + d + e + f + g + h + i <==>
      x in a || x in b || x in c || x in d || x in e || x in f || x in g || x in h || x in i
  {
  }

  /** A candidate is found exactly the reasons that are true of it. */
  lemma RejectedForIff(c: Candidate, r: Request, reason: Rejection)
    ensures reason in Rejections(c, r) <==> Defect(c, r, reason)
  {
    PolicyHas(c, r, reason);
    ReadinessHas(c, r, reason);
    CapabilityHas(c, r, reason);
    MissingHas(r.requirements.features, c.capabilities.features, reason);
    hide PolicyRejections, ReadinessRejections, CapabilityRejections, Missing, Ids, Streams, Interrupts, Houses;
  }

  /** Every demand of the first is made by the second as well, at least as strongly. */
  predicate AsksMore(req: Requirements, more: Requirements) {
    && (req.nativeResume ==> more.nativeResume) && (req.checkpoint ==> more.checkpoint)
    && (req.streaming.Some? ==> more.streaming.Some? && StreamingLevel(req.streaming.value) <= StreamingLevel(more.streaming.value))
    && (req.interrupt.Some? ==> more.interrupt.Some? && InterruptLevel(req.interrupt.value) <= InterruptLevel(more.interrupt.value))
    && (req.workspace.Some? ==> more.workspace.Some? && WorkspaceLevel(req.workspace.value) <= WorkspaceLevel(more.workspace.value))
    && (req.sandbox.Some? ==> more.sandbox.Some? && forall s | s in more.sandbox.value :: s in req.sandbox.value)
    && (req.structuredArtifacts ==> more.structuredArtifacts) && (req.waitingForHuman ==> more.waitingForHuman)
    && (forall f | f in req.features :: f in more.features)
  }

  /** Asking for more never makes an ineligible candidate eligible. */
  lemma MoreDemandsNeverHelp(c: Candidate, r: Request, more: Requirements)
    requires AsksMore(r.requirements, more) && Rejections(c, r) != []
    ensures Rejections(c, r.(requirements := more)) != []
  {
    EligibleIffFit(c, r);
    EligibleIffFit(c, r.(requirements := more));
    hide Rejections;
  }

  // ----- ranking

  function Priority(c: Candidate): real {
    c.priority.GetOr(0.0)
  }

  function HealthRank(c: Candidate): nat {
    if c.health == Healthy then 0 else 1
  }

  function Count(c: Candidate): real {
    if c.slots.Finite? then c.slots.count else 0.0
  }

  /** Preference first, then priority, health, free slots, and the id to break ties. */
  predicate Before(a: Evaluation, b: Evaluation, collates: (string, string) -> bool) {
    if a.preferenceRank != b.preferenceRank then
      a.preferenceRank.Some? && (b.preferenceRank.None? || a.preferenceRank.value < b.preferenceRank.value)
    else if Priority(a.candidate) != Priority(b.candidate) then Priority(a.candidate) > Priority(b.candidate)
    else if HealthRank(a.candidate) != HealthRank(b.candidate) then HealthRank(a.candidate) < HealthRank(b.candidate)
    else if Count(a.candidate) != Count(b.candidate) then Count(a.candidate) > Count(b.candidate)
    else collates(a.candidate.runtimeId, b.candidate.runtimeId)
  }

  function Ranking(collates: (string, string) -> bool): (Evaluation, Evaluation) -> bool {
    (a, b) => Before(a, b, collates)
  }

  lemma RankingOrder(collates: (string, string) -> bool)
    requires StrictWeakOrder(collates)
    ensures StrictWeakOrder(Ranking(collates))
  {
    var before := Ranking(collates);
    forall x, y, z | !before(x, y) && !before(y, z) ensures !before(x, z) {
      var (a, b, c) := (x.candidate.runtimeId, y.candidate.runtimeId, z.candidate.runtimeId);
      assert collates(a, c) ==> collates(a, b) || collates(b, c);
    }
  }

  // ----- the selection

  datatype Failure = InvalidRequest(duplicates: set<string>) | RequestedNotFound | RequestedIneligible | NoCompatibleRuntime
  datatype SelectedBy = ExplicitRequest | AgentPreference | AutomaticRanking
  datatype Selection = Selected(candidate: Candidate, selectedBy: SelectedBy) | Unmatched(failure: Failure)

  function Evaluate(c: Candidate, r: Request): Evaluation {
    Evaluation(c, RankIn(r.preference, c.runtimeId), Rejections(c, r))
  }

  function Evaluations(r: Request): seq<Evaluation> {
    seq(|r.candidates|, i requires 0 <= i < |r.candidates| => Evaluate(r.candidates[i], r))
  }

  function IsEligible(): Evaluation -> bool {
    (e: Evaluation) => e.rejections == []
  }

  function Ranked(r: Request, collates: (string, string) -> bool): seq<Evaluation> {
    Sort(Filter(Evaluations(r), IsEligible()), Ranking(collates))
  }

  method FindEvaluation(evaluations: seq<Evaluation>, id: string) returns (k: nat)
    ensures k <= |evaluations| && (forall j | 0 <= j < k :: evaluations[j].candidate.runtimeId != id)
    ensures k < |evaluations| ==> evaluations[k].candidate.runtimeId == id
  {
    k := 0;
    while k < |evaluations| && evaluations[k].candidate.runtimeId != id
      invariant 0 <= k <= |evaluations| && (forall j | 0 <= j < k :: evaluations[j].candidate.runtimeId != id)
    {
      k := k + 1;
    }
  }

  method MatchExecutionRuntime(r: Request, collates: (string, string) -> bool)
    returns (selection: Selection, evaluations: seq<Evaluation>)
    ensures evaluations == Evaluations(r)
    ensures selection == Match(r, collates)
  {
    var duplicates := CollectDuplicateRuntimeIds(r.candidates);
    var ranks := CreatePreferenceRanks(r.preference);
    evaluations := [];
    var i := 0;
    while i < |r.candidates|
      invariant 0 <= i <= |r.candidates| && evaluations == Evaluations(r)[..i]
    {
      var c := r.candidates[i];
      var rejections := EvaluateCandidate(c, r, duplicates);
      var rank := if c.runtimeId in ranks then Some(ranks[c.runtimeId]) else None;
      assert Evaluations(r)[..i + 1] == Evaluations(r)[..i] + [Evaluations(r)[i]];
      evaluations := evaluations + [Evaluation(c, rank, rejections)];
      i := i + 1;
    }
    DuplicatesAre(r.candidates, duplicates);
    if duplicates != {} { return Unmatched(InvalidRequest(duplicates)), evaluations; }
    if r.strategy.Explicit? {
      var k := FindEvaluation(evaluations, r.strategy.runtimeId);
      FirstWithIs(evaluations, r.strategy.runtimeId, k);
      if k == |evaluations| { return Unmatched(RequestedNotFound), evaluations; }
      if evaluations[k].rejections != [] { return Unmatched(RequestedIneligible), evaluations; }
      return Selected(evaluations[k].candidate, ExplicitRequest), evaluations;
    }
    var eligible := Sort(Filter(evaluations, IsEligible()), Ranking(collates));
    if eligible == [] { return Unmatched(NoCompatibleRuntime), evaluations; }
    return Selected(eligible[0].candidate,
                    if eligible[0].preferenceRank.None? then AutomaticRanking else AgentPreference), evaluations;
  }

  function Duplicates(cs: seq<Candidate>): set<string> {
    set c | c in cs && Ids(cs)[c.runtimeId] > 1 :: c.runtimeId
  }

  /** The first evaluation of a runtime; the length when it is not registered. */
  function FirstWith(es: seq<Evaluation>, id: string): (k: nat)
    ensures k <= |es|
    ensures forall j | 0 <= j < k :: es[j].candidate.runtimeId != id
    ensures k < |es| ==> es[k].candidate.runtimeId == id
  {
    if es == [] || es[0].candidate.runtimeId == id then 0 else 1 + FirstWith(es[1..], id)
  }

  lemma FirstWithIs(es: seq<Evaluation>, id: string, k: nat)
    requires k <= |es| && forall j | 0 <= j < k :: es[j].candidate.runtimeId != id
    requires k < |es| ==> es[k].candidate.runtimeId == id
    ensures FirstWith(es, id) == k
  {
  }

  function Match(r: Request, collates: (string, string) -> bool): Selection {
    var (es, ranked) := (Evaluations(r), Ranked(r, collates));
    if Duplicates(r.candidates) != {} then Unmatched(InvalidRequest(Duplicates(r.candidates)))
    else if r.strategy.Explicit? then
      var k := FirstWith(es, r.strategy.runtimeId);
      if k == |es| then Unmatched(RequestedNotFound)
      else if es[k].rejections != [] then Unmatched(RequestedIneligible)
      else Selected(es[k].candidate, ExplicitRequest)
    else if ranked == [] then Unmatched(NoCompatibleRuntime)
    else Selected(ranked[0].candidate, if ranked[0].preferenceRank.None? then AutomaticRanking else AgentPreference)
  }

  /** The checks one after the other; each missing feature adds a reason of its own. */
  method EvaluateCandidate(c: Candidate, r: Request, duplicates: set<string>) returns (reasons: seq<Rejection>)
    requires forall id :: id in duplicates <==> Ids(r.candidates)[id] > 1
    ensures reasons == Rejections(c, r)
  {
    var policy := PolicyReasons(c, r, duplicates);
    var readiness := ReadinessReasons(c, r.allowDegraded, r.kind);
    var capability := CapabilityReasons(c.capabilities, r.requirements, r.model);
    reasons := policy + readiness + capability;
    hide PolicyRejections, ReadinessRejections, CapabilityRejections;
    ghost var checked := reasons;
    var wanted := r.requirements.features;
    var i := 0;
    while i < |wanted|
      invariant 0 <= i <= |wanted|
      invariant reasons == checked + Missing(wanted[..i], c.capabilities.features)
    {
      assert wanted[..i + 1][..i] == wanted[..i];
      if wanted[i] !in c.capabilities.features { reasons := reasons + [FeatureNotSupported(wanted[i])]; }
      i := i + 1;
    }
    assert wanted[..i] == wanted;
  }

  method PushIf(reasons: seq<Rejection>, fails: bool, reason: Rejection) returns (more: seq<Rejection>)
    ensures more == reasons + When(fails, reason)
  {
    more := reasons;
    if fails { more := more + [reason]; }
  }

  method PolicyReasons(c: Candidate, r: Request, duplicates: set<string>) returns (reasons: seq<Rejection>)
    requires forall id :: id in duplicates <==> Ids(r.candidates)[id] > 1
    ensures reasons == PolicyRejections(c, r)
  {
    reasons := PushIf([], c.runtimeId in duplicates, DuplicateRuntimeId);
    assert reasons == When(Ids(r.candidates)[c.runtimeId] > 1, DuplicateRuntimeId);
    reasons := PushIf(reasons, c.capabilities.waitingForHuman && !c.capabilities.nativeResume, WaitingNeedsResume);
    reasons := PushIf(reasons, r.strategy.Explicit? && c.runtimeId != r.strategy.runtimeId, NotExplicitRuntime);
    reasons := PushIf(reasons, r.allowed.OnlyThese? && c.runtimeId !in r.allowed.runtimeIds, NotAllowedByOrganization);
  }

  method ReadinessReasons(c: Candidate, allowDegraded: bool, kind: string) returns (reasons: seq<Rejection>)
    ensures reasons == ReadinessRejections(c, allowDegraded, kind)
  {
    hide When;
    reasons := PushIf([], c.health == Degraded && !allowDegraded, RuntimeDegraded);
    assert reasons == When(c.health == Degraded && !allowDegraded, RuntimeDegraded);
    reasons := PushIf(reasons, c.health == Unavailable, RuntimeUnhealthy);
    reasons := PushIf(reasons, !c.acceptingNewAttempts, NotAcceptingAttempts);
    reasons := PushIf(reasons, c.slots.NotFinite? || c.slots.count <= 0.0, AtCapacity);
    reasons := PushIf(reasons, kind !in c.capabilities.kinds, KindNotSupported);
  }

  method CapabilityReasons(cap: Capabilities, req: Requirements, model: string) returns (reasons: seq<Rejection>)
    ensures reasons == CapabilityRejections(cap, req, model)
  {
    hide When, StreamingLevel, InterruptLevel, WorkspaceLevel;
    reasons := PushIf([], req.nativeResume && !cap.nativeResume, NativeResumeRequired);
    assert reasons == When(req.nativeResume && !cap.nativeResume, NativeResumeRequired);
    reasons := PushIf(reasons, req.checkpoint && !cap.checkpoint, CheckpointRequired);
    reasons := PushIf(reasons, req.streaming.Some? && StreamingLevel(cap.streaming) < StreamingLevel(req.streaming.value),
                      StreamingInsufficient);
    reasons := PushIf(reasons, req.interrupt.Some? && InterruptLevel(cap.interrupt) < InterruptLevel(req.interrupt.value),
                      InterruptInsufficient);
    reasons := PushIf(reasons, req.workspace.Some? && WorkspaceLevel(cap.workspace) < WorkspaceLevel(req.workspace.value),
                      WorkspaceInsufficient);
    reasons := PushIf(reasons, req.sandbox.Some? && cap.sandbox !in req.sandbox.value, SandboxNotSupported);
    reasons := PushIf(reasons, req.structuredArtifacts && !cap.structuredArtifacts, StructuredArtifactsRequired);
    reasons := PushIf(reasons, req.waitingForHuman && !cap.waitingForHuman, WaitingForHumanRequired);
    reasons := PushIf(reasons, model != "" && "*" !in cap.supportedModels && model !in cap.supportedModels, ModelNotSupported);
  }

  // ----- what the selection is worth

  lemma {:induction false} IdPresent(cs: seq<Candidate>, id: string)
    ensures Ids(cs)[id] > 0 ==> exists c :: c in cs && c.runtimeId == id
  {
    if cs != [] {
      IdPresent(cs[..|cs| - 1], id);
      if Ids(cs[..|cs| - 1])[id] > 0 {
        var c :| c in cs[..|cs| - 1] && c.runtimeId == id;
        assert c in cs;
      } else if cs[|cs| - 1].runtimeId == id {
        assert cs[|cs| - 1] in cs;
      }
    }
  }

  lemma DuplicatesAre(cs: seq<Candidate>, ids: set<string>)
    requires forall id :: id in ids <==> Ids(cs)[id] > 1
    ensures ids == Duplicates(cs)
  {
    forall id ensures id in ids <==> id in Duplicates(cs) { IdPresent(cs, id); }
  }

  /** Fit, and no fit candidate ranks before it. */
  ghost predicate Best(r: Request, collates: (string, string) -> bool, c: Candidate) {
    && c in r.candidates && Fit(c, r)
    && forall d | d in r.candidates && Fit(d, r) :: !Before(Evaluate(d, r), Evaluate(c, r), collates)
  }

  /** A best candidate is selected, or none is because none is fit. */
  ghost predicate Answers(r: Request, collates: (string, string) -> bool) {
    match Match(r, collates)
    case Selected(best, selectedBy) =>
      && Best(r, collates, best)
      && selectedBy == if Evaluate(best, r).preferenceRank.None? then AutomaticRanking else AgentPreference
    case Unmatched(failure) => failure == NoCompatibleRuntime && forall c | c in r.candidates :: !Fit(c, r)
  }

  /**
   * Automatic selection without repeated ids: the chosen runtime is fit, no fit
   * candidate ranks before it, and none is chosen exactly when none is fit.
   */
  lemma AutomaticIsBest(r: Request, collates: (string, string) -> bool)
    requires StrictWeakOrder(collates) && r.strategy == Automatic && Duplicates(r.candidates) == {}
    ensures Answers(r, collates)
  {
    var ranked := Ranked(r, collates);
    if ranked != [] {
      RankedIsFit(r, collates, ranked[0]);
      forall c | c in r.candidates && Fit(c, r) ensures !Before(Evaluate(c, r), Evaluate(ranked[0].candidate, r), collates) {
        FitIsRanked(r, collates, c);
        FirstIsBest(r, collates, Evaluate(c, r));
      }
    } else {
      forall c | c in r.candidates ensures !Fit(c, r) {
        if Fit(c, r) { FitIsRanked(r, collates, c); }
      }
    }
    hide Ranked, Fit, Before, Evaluate, Duplicates;
  }

  lemma EvaluationOf(r: Request, e: Evaluation)
    requires e in Evaluations(r)
    ensures e.candidate in r.candidates && e == Evaluate(e.candidate, r)
  {
    var i :| 0 <= i < |r.candidates| && Evaluations(r)[i] == e;
    hide Rejections;
  }

  lemma FitIsRanked(r: Request, collates: (string, string) -> bool, c: Candidate)
    requires c in r.candidates && Fit(c, r)
    ensures Evaluate(c, r) in Ranked(r, collates)
  {
    EligibleIffFit(c, r);
    hide Rejections, Fit;
    var i :| 0 <= i < |r.candidates| && r.candidates[i] == c;
    assert Evaluations(r)[i] == Evaluate(c, r);
    FilterHolds(Evaluations(r), IsEligible(), Evaluate(c, r));
    SortPermutes(Filter(Evaluations(r), IsEligible()), Ranking(collates));
  }

  lemma RankedIsFit(r: Request, collates: (string, string) -> bool, e: Evaluation)
    requires e in Ranked(r, collates)
    ensures e.candidate in r.candidates && Fit(e.candidate, r) && e == Evaluate(e.candidate, r)
  {
    SortPermutes(Filter(Evaluations(r), IsEligible()), Ranking(collates));
    assert e in Evaluations(r) && IsEligible()(e);
    EvaluationOf(r, e);
    EligibleIffFit(e.candidate, r);
    hide Rejections, Fit, Before, Evaluations;
  }

  lemma FirstIsBest(r: Request, collates: (string, string) -> bool, e: Evaluation)
    requires StrictWeakOrder(collates) && e in Ranked(r, collates)
    ensures !Before(e, Ranked(r, collates)[0], collates)
  {
    var ranked := Ranked(r, collates);
    RankingOrder(collates);
    SortSorted(Filter(Evaluations(r), IsEligible()), Ranking(collates));
    var j :| 0 <= j < |ranked| && ranked[j] == e;
    assert Sorted(ranked, Ranking(collates)) && !Ranking(collates)(e, e);
    hide Rejections, Before, Ranked;
    assert j == 0 || !Ranking(collates)(ranked[j], ranked[0]);
  }

  /** An explicit request selects that runtime or nothing: it must be registered, and fit. */
  lemma ExplicitIsExact(r: Request, collates: (string, string) -> bool)
    requires r.strategy.Explicit? && Duplicates(r.candidates) == {}
    ensures
      match Match(r, collates)
      case Selected(c, selectedBy) =>
        c in r.candidates && c.runtimeId == r.strategy.runtimeId && Fit(c, r) && selectedBy == ExplicitRequest
      case Unmatched(RequestedIneligible) =>
        exists c :: c in r.candidates && c.runtimeId == r.strategy.runtimeId && !Fit(c, r)
      case Unmatched(failure) =>
        failure == RequestedNotFound && forall c | c in r.candidates :: c.runtimeId != r.strategy.runtimeId
  {
    var es := Evaluations(r);
    var k := FirstWith(es, r.strategy.runtimeId);
    forall c | c in r.candidates ensures exists j :: 0 <= j < |es| && es[j].candidate == c {
      var j :| 0 <= j < |r.candidates| && r.candidates[j] == c;
      assert es[j].candidate == c;
    }
    if k < |es| {
      assert es[k] == Evaluate(r.candidates[k], r);
      EligibleIffFit(r.candidates[k], r);
    }
    hide Rejections, Fit;
  }

  // ----- the choice, field by field

  /** The first place at which `a` is listed comes before every place of `b`. */
  ghost predicate ListedBefore(ids: seq<string>, a: string, b: string) {
    exists i :: 0 <= i < |ids| && ids[i] == a && b !in ids[..i + 1]
  }

  lemma {:induction false} RankAt(ids: seq<string>, id: string) returns (i: nat)
    requires id in ids
    ensures i < |ids| && ids[i] == id && id !in ids[..i] && RankIn(ids, id) == Some(|set x | x in ids[..i]|)
  {
    var front := ids[..|ids| - 1];
    if id in front {
      i := RankAt(front, id);
      assert front[..i] == ids[..i];
    } else {
      i := |ids| - 1;
      assert ids == front + [ids[i]];
    }
  }

  lemma SmallerSet(a: set<string>, b: set<string>, x: string)
    requires a <= b && x in b && x !in a
    ensures |a| < |b|
  {
    var rest := b - a;
    assert b == a + rest && x in rest;
  }

  /** A rank is better exactly when the id is listed first, or is listed and the other is not. */
  lemma RankedFirst(ids: seq<string>, a: string, b: string)
    requires a != b
    ensures RankIn(ids, a) == RankIn(ids, b) <==> a !in ids && b !in ids
    ensures (RankIn(ids, a).Some? && (RankIn(ids, b).None? || RankIn(ids, a).value < RankIn(ids, b).value))
            <==> ListedBefore(ids, a, b)
  {
    if a in ids && b in ids {
      var i := RankAt(ids, a);
      var j := RankAt(ids, b);
      hide RankIn;
      var (before, before') := (set x | x in ids[..i], set x | x in ids[..j]);
      if i < j {
        assert ids[..i] <= ids[..j] && ids[..j][i] == a;
        SmallerSet(before, before', a);
        assert forall k | 0 <= k <= i :: ids[..j][k] == ids[k];
        assert b !in ids[..i + 1];
      } else {
        assert ids[..j] <= ids[..i] && ids[..i][j] == b;
        SmallerSet(before', before, b);
        forall k | 0 <= k < |ids| && ids[k] == a ensures b in ids[..k + 1] {
          assert i <= k && ids[..k + 1][j] == b;
        }
      }
    } else if a in ids {
      var i := RankAt(ids, a);
      assert b !in ids[..i + 1];
    }
  }

  /** Higher priority first, then the healthier, then the one with more free slots, then the id. */
  ghost predicate Outranks(c: Candidate, d: Candidate, collates: (string, string) -> bool) {
    var p, q := if c.priority.Some? then c.priority.value else 0.0, if d.priority.Some? then d.priority.value else 0.0;
    q < p || (q == p &&
      ((c.health == Healthy && d.health != Healthy) || (c.health == d.health && c.slots.Finite? && d.slots.Finite? &&
        (d.slots.count < c.slots.count || (d.slots.count == c.slots.count && !collates(d.runtimeId, c.runtimeId))))))
  }

  /**
   * The runtime chosen automatically is listed before every other fit one that is
   * listed at all; against one as little preferred as itself it has the higher
   * priority, at equal priority the better health, then more slots, then its id.
   */
  lemma ChosenBeatsEveryOther(r: Request, collates: (string, string) -> bool, d: Candidate)
    requires StrictWeakOrder(collates) && r.strategy == Automatic && Duplicates(r.candidates) == {}
    requires d in r.candidates && Fit(d, r)
    ensures Match(r, collates).Selected?
    ensures
      var c := Match(r, collates).candidate;
      && (Match(r, collates).selectedBy == AgentPreference <==> c.runtimeId in r.preference)
      && Match(r, collates).selectedBy != ExplicitRequest
      && (d == c || ListedBefore(r.preference, c.runtimeId, d.runtimeId)
          || (c.runtimeId !in r.preference && d.runtimeId !in r.preference && Outranks(c, d, collates)))
  {
    AutomaticIsBest(r, collates);
    var c := Match(r, collates).candidate;
    if d != c {
      IdsDiffer(r, c, d);
      RankedFirst(r.preference, c.runtimeId, d.runtimeId);
      RankedFirst(r.preference, d.runtimeId, c.runtimeId);
      NotListedTwice(r.preference, c.runtimeId, d.runtimeId);
    }
    hide Match, RankIn, Duplicates, Rejections, ListedBefore;
    Evaluated(c, r);
    Evaluated(d, r);
  }

  lemma NotListedTwice(ids: seq<string>, a: string, b: string)
    requires a != b
    ensures a in ids || b in ids ==> ListedBefore(ids, a, b) || ListedBefore(ids, b, a)
  {
    RankedFirst(ids, a, b);
    RankedFirst(ids, b, a);
    hide RankIn, ListedBefore;
  }

  lemma Evaluated(c: Candidate, r: Request)
    ensures Evaluate(c, r).candidate == c && Evaluate(c, r).preferenceRank == RankIn(r.preference, c.runtimeId)
    ensures RankIn(r.preference, c.runtimeId).Some? <==> c.runtimeId in r.preference
  {
  }

  // ----- does the order of the candidates matter?

  ghost predicate Reordered(r: Request, r': Request) {
    r' == r.(candidates := r'.candidates) && multiset(r.candidates) == multiset(r'.candidates)
  }

  /** At most one candidate is best: ids decide every last tie between two that would be. */
  ghost predicate OneBest(r: Request, collates: (string, string) -> bool) {
    forall c, d | Best(r, collates, c) && Best(r, collates, d) :: c == d
  }

  /** Two best candidates have the same preference, priority, health and slots, and ids the collation does not separate. */
  lemma BestTie(r: Request, collates: (string, string) -> bool, c: Candidate, d: Candidate)
    requires Best(r, collates, c) && Best(r, collates, d)
    ensures RankIn(r.preference, c.runtimeId) == RankIn(r.preference, d.runtimeId)
    ensures Priority(c) == Priority(d) && c.health == d.health && c.slots == d.slots
    ensures !collates(c.runtimeId, d.runtimeId) && !collates(d.runtimeId, c.runtimeId)
  {
    hide Rejections, RankIn;
    assert !Before(Evaluate(c, r), Evaluate(d, r), collates) && !Before(Evaluate(d, r), Evaluate(c, r), collates);
  }

  /** A collation that separates different ids leaves one best candidate. */
  lemma SeparatedIdsDecide(r: Request, collates: (string, string) -> bool)
    requires Duplicates(r.candidates) == {} && forall a, b :: a == b || collates(a, b) || collates(b, a)
    ensures OneBest(r, collates)
  {
    forall c, d | Best(r, collates, c) && Best(r, collates, d) ensures c == d {
      BestTie(r, collates, c, d);
      if c != d { IdsDiffer(r, c, d); }
    }
    hide Best, Duplicates, RankIn, Fit;
  }

  lemma SameCandidates(r: Request, r': Request)
    requires Reordered(r, r')
    ensures Ids(r.candidates) == Ids(r'.candidates) && Duplicates(r.candidates) == Duplicates(r'.candidates)
    ensures forall c :: c in r.candidates <==> c in r'.candidates
  {
    SumPermutes(r.candidates, r'.candidates, (c: Candidate) => multiset{c.runtimeId});
    assert forall c :: c in r.candidates <==> c in multiset(r.candidates);
    assert forall c :: c in r'.candidates <==> c in multiset(r'.candidates);
  }

  lemma SameReasons(r: Request, r': Request, c: Candidate)
    requires Reordered(r, r') && Ids(r.candidates) == Ids(r'.candidates)
    ensures Evaluate(c, r) == Evaluate(c, r') && (Fit(c, r) <==> Fit(c, r'))
  {
    EligibleIffFit(c, r);
    EligibleIffFit(c, r');
    hide Missing, When, Fit;
    assert PolicyRejections(c, r) == PolicyRejections(c, r');
    hide PolicyRejections, ReadinessRejections, CapabilityRejections;
  }

  lemma SameBest(r: Request, r': Request, collates: (string, string) -> bool, c: Candidate)
    requires Reordered(r, r')
    ensures Best(r, collates, c) <==> Best(r', collates, c)
  {
    SameCandidates(r, r');
    forall d ensures Evaluate(d, r) == Evaluate(d, r') && (Fit(d, r) <==> Fit(d, r')) { SameReasons(r, r', d); }
    hide Evaluate, Fit, Before, Ids;
  }

  lemma IdsDiffer(r: Request, a: Candidate, b: Candidate)
    requires Duplicates(r.candidates) == {} && a in r.candidates && b in r.candidates && a != b
    ensures a.runtimeId != b.runtimeId
  {
    SumHasBoth(r.candidates, a, b, (c: Candidate) => multiset{c.runtimeId}, a.runtimeId);
    assert a.runtimeId !in Duplicates(r.candidates);
  }

  /** With distinct ids at most one candidate carries the requested one, wherever it stands. */
  lemma SameExplicit(r: Request, r': Request, collates: (string, string) -> bool)
    requires Reordered(r, r') && Duplicates(r.candidates) == {} && r.strategy.Explicit?
    ensures Match(r, collates) == Match(r', collates)
  {
    SameCandidates(r, r');
    var id := r.strategy.runtimeId;
    var k, k' := FirstWith(Evaluations(r), id), FirstWith(Evaluations(r'), id);
    FoundIff(r, id);
    FoundIff(r', id);
    if k < |Evaluations(r)| && k' < |Evaluations(r')| {
      var e, e' := Evaluations(r)[k], Evaluations(r')[k'];
      EvaluationOf(r, e);
      EvaluationOf(r', e');
      if e.candidate != e'.candidate { IdsDiffer(r, e.candidate, e'.candidate); }
      SameReasons(r, r', e.candidate);
    }
    hide Evaluations, Evaluate, Duplicates, Ranked;
  }

  lemma FoundIff(r: Request, id: string)
    ensures FirstWith(Evaluations(r), id) < |Evaluations(r)| <==> exists c :: c in r.candidates && c.runtimeId == id
  {
    var es := Evaluations(r);
    var k := FirstWith(es, id);
    if k < |es| {
      assert r.candidates[k] in r.candidates && r.candidates[k].runtimeId == id;
    } else {
      forall c | c in r.candidates ensures c.runtimeId != id {
        var j :| 0 <= j < |r.candidates| && r.candidates[j] == c;
        assert es[j].candidate == c;
      }
    }
  }

  lemma SameAutomatic(r: Request, r': Request, collates: (string, string) -> bool)
    requires StrictWeakOrder(collates) && Reordered(r, r') && Duplicates(r.candidates) == {} && r.strategy.Automatic?
    requires OneBest(r, collates)
    ensures Match(r, collates) == Match(r', collates)
  {
    hide *;
    SameCandidates(r, r');
    SameRequest(r, r');
    AutomaticIsBest(r, collates);
    AutomaticIsBest(r', collates);
    forall c ensures Best(r, collates, c) <==> Best(r', collates, c) { SameBest(r, r', collates, c); }
    forall c ensures Evaluate(c, r) == Evaluate(c, r') && (Fit(c, r) <==> Fit(c, r')) { SameReasons(r, r', c); }
    BestIsThere(r, r', collates);
  }

  lemma SameRequest(r: Request, r': Request)
    requires Reordered(r, r')
    ensures r'.strategy == r.strategy && r'.preference == r.preference
  {
  }

  /** The two answers are each read off the best candidates, of which there is one. */
  lemma BestIsThere(r: Request, r': Request, collates: (string, string) -> bool)
    requires OneBest(r, collates) && (forall c :: Best(r, collates, c) <==> Best(r', collates, c))
    requires forall c :: c in r.candidates <==> c in r'.candidates
    requires forall c :: Evaluate(c, r) == Evaluate(c, r') && (Fit(c, r) <==> Fit(c, r'))
    requires Answers(r, collates) && Answers(r', collates)
    ensures Match(r, collates) == Match(r', collates)
  {
    hide Match, Evaluate, Fit, Before;
  }

  /** The evaluations that tie with this one. */
  function TiesWith(e: Evaluation, collates: (string, string) -> bool): Evaluation -> bool {
    (d: Evaluation) => !Before(d, e, collates) && !Before(e, d, collates)
  }

  lemma TiesAreUnordered(e: Evaluation, collates: (string, string) -> bool)
    requires StrictWeakOrder(collates)
    ensures Unordered(TiesWith(e, collates), Ranking(collates)) && TiesWith(e, collates)(e)
  {
    RankingOrder(collates);
    var before := Ranking(collates);
    forall y, z | TiesWith(e, collates)(y) && TiesWith(e, collates)(z) ensures !before(y, z) {
      assert before(y, z) ==> before(y, e) || before(e, z);
    }
    assert !before(e, e);
    hide Before;
  }

  /** A best candidate that stands first in the input is the one selected. */
  lemma FirstOfTheBestWins(r: Request, collates: (string, string) -> bool, c: Candidate)
    requires StrictWeakOrder(collates) && r.strategy.Automatic? && Duplicates(r.candidates) == {}
    requires r.candidates != [] && r.candidates[0] == c && Best(r, collates, c)
    ensures Match(r, collates).Selected? && Match(r, collates).candidate == c
  {
    var (e, ranked, eligible) := (Evaluate(c, r), Ranked(r, collates), Filter(Evaluations(r), IsEligible()));
    var tied := TiesWith(e, collates);
    EligibleIffFit(c, r);
    FitIsRanked(r, collates, c);
    assert Evaluations(r)[0] == e && IsEligible()(e);
    FirstKept(Evaluations(r), IsEligible(), 0);
    TiesAreUnordered(e, collates);
    FirstKept(eligible, tied, 0);
    SortStable(eligible, Ranking(collates), tied);
    FirstIsBest(r, collates, e);
    RankedIsFit(r, collates, ranked[0]);
    hide Fit, Evaluate, Before;
    assert tied(ranked[0]);
    FirstKept(ranked, tied, 0);
  }

  lemma ToTheFront(r: Request, c: Candidate) returns (r': Request)
    requires c in r.candidates
    ensures Reordered(r, r') && r'.candidates != [] && r'.candidates[0] == c && r'.strategy == r.strategy
  {
    var i :| 0 <= i < |r.candidates| && r.candidates[i] == c;
    SwapPermutes(r.candidates, 0, i);
    r' := r.(candidates := r.candidates[0 := r.candidates[i]][i := r.candidates[0]]);
  }

  lemma TiedBestShows(r: Request, collates: (string, string) -> bool, c: Candidate) returns (r': Request)
    requires StrictWeakOrder(collates) && r.strategy.Automatic? && Duplicates(r.candidates) == {} && Best(r, collates, c)
    ensures Reordered(r, r') && Match(r', collates).Selected? && Match(r', collates).candidate == c
  {
    r' := ToTheFront(r, c);
    SameCandidates(r, r');
    SameBest(r, r', collates, c);
    hide Best, Duplicates, Match;
    FirstOfTheBestWins(r', collates, c);
  }

  /** Repeated ids, an explicit request, or one best candidate at most. */
  ghost predicate Decided(r: Request, collates: (string, string) -> bool) {
    Duplicates(r.candidates) != {} || r.strategy.Explicit? || OneBest(r, collates)
  }

  lemma DecidedAgrees(r: Request, r': Request, collates: (string, string) -> bool)
    requires StrictWeakOrder(collates) && Reordered(r, r') && Decided(r, collates)
    ensures Match(r, collates) == Match(r', collates)
  {
    SameCandidates(r, r');
    if Duplicates(r.candidates) == {} {
      if r.strategy.Explicit? { SameExplicit(r, r', collates); } else { SameAutomatic(r, r', collates); }
    }
    hide Evaluations, Ranked, Duplicates, OneBest;
  }

  /**
   * Listing the candidates in another order never changes the answer exactly when
   * no two of them are best at once; a request by id and one with repeated ids are
   * answered alike in any order.
   */
  lemma OrderDoesNotMatterIff(r: Request, collates: (string, string) -> bool)
    requires StrictWeakOrder(collates)
    ensures (forall r' | Reordered(r, r') :: Match(r', collates) == Match(r, collates)) <==> Decided(r, collates)
  {
    if Decided(r, collates) {
      forall r' | Reordered(r, r') ensures Match(r', collates) == Match(r, collates) { DecidedAgrees(r, r', collates); }
    } else {
      var c, d :| Best(r, collates, c) && Best(r, collates, d) && c != d;
      var rc := TiedBestShows(r, collates, c);
      var rd := TiedBestShows(r, collates, d);
      hide Match, Best, Duplicates;
      assert Match(rc, collates) != Match(rd, collates);
    }
  }

  /** Each candidate is found the same reasons wherever it is listed. */
  lemma ReasonsAreItsOwn(r: Request, r': Request, c: Candidate)
    requires Reordered(r, r')
    ensures Evaluate(c, r) == Evaluate(c, r')
  {
    SameCandidates(r, r');
    SameReasons(r, r', c);
    hide Evaluate, Ids;
  }
}
