/**
 * Why a context left things out, and whether the trace says so truly: every
 * excluded entry is counted under the first thing that was wrong with it by its own
 * fields, and a budget is named only when that budget is spent.
 */
module ContextReasons {
  import opened Prelude
  import opened Sorting
  import opened Text
  import opened ContextModel
  import opened ContextIntake
  import opened ContextAllocation
  import opened ContextGuarantees
  import opened ContextFairness

  // ----- counting reasons

  /** How many entries have this property. */
  function HowMany<T>(s: seq<T>, p: T -> bool): nat {
    |Filter(s, p)|
  }

  function For<T>(why: T -> Option<Reason>, reason: Reason): T -> bool {
    x => why(x) == Some(reason)
  }

  lemma {:induction false} BagCounts<T(!new)>(s: seq<T>, why: T -> Option<Reason>, reason: Reason)
    ensures Bag(s, why)[reason] == HowMany(s, For(why, reason))
  {
    if s != [] {
      BagCounts(s[..|s| - 1], why, reason);
      assert AsBag(why)(s[|s| - 1]) == if why(s[|s| - 1]).Some? then multiset{why(s[|s| - 1]).value} else multiset{};
    }
  }

  /** What is wrong with an entry: itself, then a second sound one under its key, then its access. */
  function Wrong<T>(inputs: seq<T>, intake: Intake<T>): T -> Option<Reason> {
    x =>
      if intake.fault(x).Some? then intake.fault(x)
      else if |Filter(inputs, SameKey(intake, intake.key(x)))| > 1 then Some(DuplicateSource)
      else AccessReason(intake.access(x))
  }

  lemma {:induction false} HowManyAgree<T>(s: seq<T>, p: T -> bool, q: T -> bool)
    requires forall x | x in s :: p(x) == q(x)
    ensures HowMany(s, p) == HowMany(s, q)
  {
    SameFilter(s, p, q);
  }

  /** Counting among the sound entries is counting the sound ones. */
  lemma {:induction false} AmongSound<T>(s: seq<T>, sound: T -> bool, p: T -> bool, both: T -> bool)
    requires forall x | x in s :: both(x) == (sound(x) && p(x))
    ensures HowMany(Filter(s, sound), p) == HowMany(s, both)
  {
    if s != [] {
      var front, last := s[..|s| - 1], s[|s| - 1];
      assert last in s && forall x | x in front :: x in s;
      AmongSound(front, sound, p, both);
      assert s == front + [last];
      hide Filter;
      FilterAppend(front, last, sound);
      FilterAppend(front, last, both);
      var kept := Filter(front, sound);
      assert kept + [] == kept;
      if sound(last) {
        assert Filter(s, sound) == kept + [last];
        FilterAppend(kept, last, p);
      } else {
        assert Filter(s, sound) == kept;
      }
    }
  }

  lemma {:induction false} HowManyAdd<T>(s: seq<T>, p: T -> bool, q: T -> bool, either: T -> bool)
    requires forall x | x in s :: (either(x) <==> p(x) || q(x)) && !(p(x) && q(x))
    ensures HowMany(s, p) + HowMany(s, q) == HowMany(s, either)
  {
    if s != [] {
      var front, last := s[..|s| - 1], s[|s| - 1];
      assert last in s && forall x | x in front :: x in s;
      HowManyAdd(front, p, q, either);
      assert s == front + [last];
      FilterAppend(front, last, p);
      FilterAppend(front, last, q);
      FilterAppend(front, last, either);
    }
  }

  /** A gathered category counts every entry under the first thing wrong with it. */
  lemma GatheredCounts<T(!new)>(inputs: seq<T>, intake: Intake<T>, reason: Reason)
    ensures Gathered(inputs, intake).reasons[reason] == HowMany(inputs, For(Wrong(inputs, intake), reason))
  {
    var valid := Filter(inputs, Sound(intake));
    var keys := Keys(valid, intake.key);
    BagCounts(inputs, intake.fault, reason);
    BagCounts(valid, Refused(intake, keys), reason);
    assert Gathered(inputs, intake).reasons == Bag(inputs, intake.fault) + Bag(valid, Refused(intake, keys));
    var later := (x: T) => Sound(intake)(x) && For(Refused(intake, keys), reason)(x);
    hide Gathered, Bag;
    AmongSound(inputs, Sound(intake), For(Refused(intake, keys), reason), later);
    forall x | x in inputs
      ensures For(Wrong(inputs, intake), reason)(x) <==> For(intake.fault, reason)(x) || later(x)
      ensures !(For(intake.fault, reason)(x) && later(x))
    {
      KeysCounted(inputs, intake, intake.key(x));
    }
    hide Keys;
    HowManyAdd(inputs, For(intake.fault, reason), later, For(Wrong(inputs, intake), reason));
  }

  // ----- the delta, the slices and the hits, by their own fields

  /** How an access decision that does not let this session read is named. */
  function ReadProblem(acl: Acl, session: Session, resource: Resource): Option<Reason> {
    if MayRead(acl, session, resource) then None else if acl.Deny? then Some(AclDenied) else Some(AclBindingMismatch)
  }

  lemma ReadProblemIs(acl: Acl, session: Session, resource: Resource)
    ensures AccessReason(AclResult(acl, session, resource)) == ReadProblem(acl, session, resource)
  {
    AllowedIff(acl, session, resource);
    hide MayRead;
  }

  predicate ThisRoom(m: Message, session: Session) {
    && m.schemaVersion == CONTRACT_VERSION && m.envelopeType == "room.message" && NonEmpty(m.messageId)
    && m.organizationId == session.organizationId && m.roomId == session.roomId
  }

  predicate Earlier(r: Request, x: MessageInput) {
    ThisRoom(x.message, r.session) && 0 <= x.message.sequence <= MAX_SAFE_INTEGER
    && x.message.sequence < r.currentMessage.message.sequence
  }

  /** A delta entry is not before the current message, or otherwise no message of this room, or repeated, or not readable. */
  function DeltaProblem(r: Request): MessageInput -> Option<Reason> {
    (x: MessageInput) =>
      if !Earlier(r, x) then
        if -MAX_SAFE_INTEGER <= x.message.sequence <= MAX_SAFE_INTEGER && x.message.sequence >= r.currentMessage.message.sequence
        then Some(MessageNotBeforeCurrent) else Some(InvalidSource)
      else if HowMany(r.roomDelta, (z: MessageInput) => Earlier(r, z) && z.message.messageId == x.message.messageId) > 1
      then Some(DuplicateSource)
      else ReadProblem(x.acl, r.session, RoomResource(r.session.roomId))
  }

  lemma DeltaProblemIs(r: Request, x: MessageInput)
    ensures Wrong(r.roomDelta, DeltaIntake(r.session, r.currentMessage.message.sequence))(x) == DeltaProblem(r)(x)
  {
    var intake := DeltaIntake(r.session, r.currentMessage.message.sequence);
    ReadProblemIs(x.acl, r.session, RoomResource(r.session.roomId));
    hide AclResult, NonEmpty, ReadProblem, AccessReason;
    SameFilter(r.roomDelta, SameKey(intake, intake.key(x)),
               (z: MessageInput) => Earlier(r, z) && z.message.messageId == x.message.messageId);
  }

  predicate WholeSlice(x: Slice) {
    && NonEmpty(x.sliceId) && NonEmpty(x.documentId) && NonEmpty(x.revision)
    && 0 <= x.start && x.end <= MAX_SAFE_INTEGER && x.end == x.start + |x.content|
  }

  function SliceProblem(r: Request): Slice -> Option<Reason> {
    (x: Slice) =>
      if !WholeSlice(x) then Some(InvalidSource)
      else if HowMany(r.slices, (z: Slice) => WholeSlice(z) && SliceKey(z) == SliceKey(x)) > 1 then Some(DuplicateSource)
      else ReadProblem(x.acl, r.session, DocumentResource(x.documentId))
  }

  lemma SliceProblemIs(r: Request, x: Slice)
    ensures Wrong(r.slices, SliceIntake(r.session))(x) == SliceProblem(r)(x)
  {
    var intake := SliceIntake(r.session);
    ReadProblemIs(x.acl, r.session, DocumentResource(x.documentId));
    hide AclResult, NonEmpty, ReadProblem, AccessReason, SliceKey;
    SameFilter(r.slices, SameKey(intake, intake.key(x)), (z: Slice) => WholeSlice(z) && SliceKey(z) == SliceKey(x));
  }

  predicate WholeHit(x: Hit) {
    && NonEmpty(x.hitId) && NonEmpty(x.indexId) && NonEmpty(x.indexVersion) && NonEmpty(x.sourceType) && NonEmpty(x.sourceId)
    && 0 <= x.rank <= MAX_SAFE_INTEGER
  }

  function HitProblem(r: Request): Hit -> Option<Reason> {
    (x: Hit) =>
      if !WholeHit(x) then Some(InvalidSource)
      else if HowMany(r.hits, (z: Hit) => WholeHit(z) && z.hitId == x.hitId) > 1 then Some(DuplicateSource)
      else ReadProblem(x.acl, r.session,
                       if x.sourceType == "document" then DocumentResource(x.sourceId) else KnowledgeResource(x.sourceId))
  }

  lemma HitProblemIs(r: Request, x: Hit)
    ensures Wrong(r.hits, HitIntake(r.session))(x) == HitProblem(r)(x)
  {
    var intake := HitIntake(r.session);
    ReadProblemIs(x.acl, r.session, HitResource(x));
    hide AclResult, NonEmpty, ReadProblem, AccessReason;
    SameFilter(r.hits, SameKey(intake, intake.key(x)), (z: Hit) => WholeHit(z) && z.hitId == x.hitId);
  }

  /** Before anything is allocated the trace counts each entry of the three lists under its own problem, and no other. */
  lemma ProblemsAreCounted(r: Request, digest: string -> string, reason: Reason)
    ensures BinOf(r, digest, RoomDelta).reasons[reason] == HowMany(r.roomDelta, For(DeltaProblem(r), reason))
    ensures BinOf(r, digest, DocumentSlice).reasons[reason] == HowMany(r.slices, For(SliceProblem(r), reason))
    ensures BinOf(r, digest, RetrievalHit).reasons[reason] == HowMany(r.hits, For(HitProblem(r), reason))
  {
    GatheredCounts(r.roomDelta, DeltaIntake(r.session, r.currentMessage.message.sequence), reason);
    GatheredCounts(r.slices, SliceIntake(r.session), reason);
    GatheredCounts(r.hits, HitIntake(r.session), reason);
    hide Gathered, Wrong, DeltaProblem, SliceProblem, HitProblem, DeltaIntake, SliceIntake, HitIntake, HowMany;
    forall x | x in r.roomDelta
      ensures For(Wrong(r.roomDelta, DeltaIntake(r.session, r.currentMessage.message.sequence)), reason)(x)
           == For(DeltaProblem(r), reason)(x) { DeltaProblemIs(r, x); }
    forall x | x in r.slices
      ensures For(Wrong(r.slices, SliceIntake(r.session)), reason)(x) == For(SliceProblem(r), reason)(x) { SliceProblemIs(r, x); }
    forall x | x in r.hits
      ensures For(Wrong(r.hits, HitIntake(r.session)), reason)(x) == For(HitProblem(r), reason)(x) { HitProblemIs(r, x); }
    HowManyAgree(r.roomDelta, For(Wrong(r.roomDelta, DeltaIntake(r.session, r.currentMessage.message.sequence)), reason),
                 For(DeltaProblem(r), reason));
    HowManyAgree(r.slices, For(Wrong(r.slices, SliceIntake(r.session)), reason), For(SliceProblem(r), reason));
    HowManyAgree(r.hits, For(Wrong(r.hits, HitIntake(r.session)), reason), For(HitProblem(r), reason));
  }

  // ----- the summary

  /** What each name for an unusable summary says is wrong with it. */
  predicate SummaryDefect(s: Summary, x: Coverage, r: Request, digest: string -> string, reason: Reason) {
    match reason
    case InvalidSummaryVersion => s.schemaVersion != CONTRACT_VERSION
    case InvalidSummaryRoom => s.organizationId != r.session.organizationId || s.roomId != r.session.roomId
    case InvalidSummaryContent => !NonEmpty(s.summaryId) || !NonEmpty(s.content)
    case InvalidSummaryContentHash => !IsDigest(s.contentHash) || s.contentHash != digest(s.content)
    case InvalidSummarySequence =>
      !(0 <= s.source.fromSequence <= s.source.throughSequence <= MAX_SAFE_INTEGER)
      || s.source.fromSequence != x.fromSequence || s.source.throughSequence != x.throughSequence
    case SummaryNotBeforeCurrent => r.currentMessage.message.sequence <= s.source.throughSequence
    case InvalidSummarySourceHash => !IsDigest(s.source.sourceHash) || s.source.sourceHash != x.sourceHash
    case InvalidSummaryAclHash => !IsDigest(s.source.aclHash) || s.source.aclHash != x.aclHash
    case InvalidSummaryConfigVersion => s.configVersion != r.budget.summaryConfigVersion
    case _ => false
  }

  /** An unusable summary is counted once, under a defect it has; a readable one that has none of them is offered. */
  lemma SummaryProblemIsTrue(r: Request, digest: string -> string)
    requires r.summary.Some?
    ensures
      var (bin, s) := (BinOf(r, digest, SummaryText), r.summary.value);
      if !MayRead(s.acl, r.session, RoomResource(r.session.roomId)) then
        bin.reasons == multiset{if s.acl.Deny? then AclDenied else AclBindingMismatch} && bin.candidates == []
      else if bin.candidates == [] then
        exists reason :: SummaryDefect(s.summary, s.expected, r, digest, reason) && bin.reasons == multiset{reason}
      else
        bin.reasons == multiset{} && bin.candidates == [SummaryCandidate(s)]
        && forall reason :: !SummaryDefect(s.summary, s.expected, r, digest, reason)
  {
    var (bin, s) := (BinOf(r, digest, SummaryText), r.summary.value);
    ReadProblemIs(s.acl, r.session, RoomOf(r));
    var fault := SummaryFault(s, r, digest);
    assert fault.Some? ==> SummaryDefect(s.summary, s.expected, r, digest, fault.value) by {
      hide NonEmpty, IsDigest, MayRead, AclResult, SummaryBin;
    }
    assert fault.None? ==> forall reason :: !SummaryDefect(s.summary, s.expected, r, digest, reason) by {
      hide NonEmpty, IsDigest, MayRead, AclResult, SummaryBin;
    }
    hide SummaryFault, SummaryDefect, MayRead, AclResult;
    assert forall reason: Reason :: multiset{} + Times(reason, 1) == multiset{reason};
  }

  // ----- budgets

  /** The limit a reason names is spent, or the summary it names stands there whole. */
  ghost predicate Named(b: Budget, d: Desk, k: Category, reason: Reason)
    requires Roomy(b, d)
  {
    match reason
    case CategoryBlockBudget => b.categories[k].maxBlocks <= d.bins[k].usage.included
    case TotalBlockBudget => b.maxTotalBlocks <= d.includedBlocks
    case CategoryCharacterBudget => b.categories[k].maxCharacters <= d.bins[k].usage.usedCharacters
    case TotalCharacterBudget => b.maxTotalCharacters <= d.usedCharacters
    case CoveredBySummary => k == RoomDelta && d.through.Some?
    case DuplicateSource => true
    case _ => false
  }

  lemma RefusalNames(b: Budget, d: Desk, c: Candidate)
    requires Roomy(b, d) && Refusal(b, d, c).Some?
    ensures Named(b, d, c.category, Refusal(b, d, c).value)
  {
  }

  lemma NamedStays(b: Budget, d: Desk, d': Desk, k: Category, reason: Reason)
    requires Roomy(b, d) && Roomy(b, d') && Grown(d, d') && Named(b, d, k, reason)
    requires d.through.Some? ==> d'.through.Some?
    ensures Named(b, d', k, reason)
  {
  }

  /** Every reason given since `d0` is true of the desk. */
  ghost predicate TrulyNamed(b: Budget, d0: Desk, d: Desk)
    requires Roomy(b, d0) && Roomy(b, d)
  {
    forall k: Category, reason: Reason ::
      && d0.bins[k].reasons[reason] <= d.bins[k].reasons[reason]
      && (d0.bins[k].reasons[reason] < d.bins[k].reasons[reason] ==> Named(b, d, k, reason))
  }

  lemma OfferReasons(b: Budget, d: Desk, c: Candidate, k: Category, reason: Reason)
    requires Roomy(b, d)
    ensures Roomy(b, Offer(b, d, c))
    ensures Offer(b, d, c).bins[k].reasons[reason] ==
      d.bins[k].reasons[reason] + if k == c.category && Refusal(b, d, c) == Some(reason) then 1 else 0
    ensures d.through.Some? ==> Offer(b, d, c).through.Some?
  {
    hide Refusal, Available, CutTo;
    if Refusal(b, d, c).Some? {
      assert Exclude(d.bins[c.category], Refusal(b, d, c).value, 1).reasons[reason]
          == d.bins[c.category].reasons[reason] + if Refusal(b, d, c) == Some(reason) then 1 else 0;
      hide Exclude;
    }
  }

  lemma {:induction false} OfferAllNames(b: Budget, d: Desk, cs: seq<Candidate>)
    requires Roomy(b, d)
    ensures TrulyNamed(b, d, OfferAll(b, d, cs))
  {
    if cs != [] {
      var front, c := cs[..|cs| - 1], cs[|cs| - 1];
      OfferAllNames(b, d, front);
      var (d1, d2) := (OfferAll(b, d, front), OfferAll(b, d, cs));
      assert d2 == Offer(b, d1, c);
      hide Offer, OfferAll, Refusal, Named, Roomy, Grown;
      OfferGrows(b, d1, c);
      forall k: Category, reason: Reason
        ensures d.bins[k].reasons[reason] <= d2.bins[k].reasons[reason]
        ensures d.bins[k].reasons[reason] < d2.bins[k].reasons[reason] ==> Named(b, d2, k, reason)
      {
        OfferReasons(b, d1, c, k, reason);
        if k == c.category && Refusal(b, d1, c) == Some(reason) { RefusalNames(b, d1, c); }
        if Named(b, d1, k, reason) { NamedStays(b, d1, d2, k, reason); }
      }
    }
  }

  /** What a reason that only allocation gives says of the finished context. */
  ghost predicate TrueOf(b: Budget, ctx: Context, k: Category, reason: Reason) {
    match reason
    case CategoryBlockBudget => k in ctx.usage && k in b.categories && b.categories[k].maxBlocks <= ctx.usage[k].included
    case TotalBlockBudget => b.maxTotalBlocks <= ctx.includedBlocks
    case CategoryCharacterBudget =>
      k in ctx.usage && k in b.categories && b.categories[k].maxCharacters <= ctx.usage[k].usedCharacters
    case TotalCharacterBudget => b.maxTotalCharacters <= ctx.usedCharacters
    case CoveredBySummary =>
      k == RoomDelta && exists row :: row in ctx.blocks && row.candidate.category == SummaryText && !Truncated(row)
    case DuplicateSource => true
    case _ => false
  }

  lemma NamedIsTrue(b: Budget, d: Desk, ctx: Context, k: Category, reason: Reason)
    requires Roomy(b, d) && Named(b, d, k, reason) && ThroughShown(d)
    requires ctx.includedBlocks == d.includedBlocks && ctx.usedCharacters == d.usedCharacters
    requires k in ctx.usage && ctx.usage[k] == d.bins[k].usage && forall row :: row in ctx.blocks <==> row in d.rows
    ensures TrueOf(b, ctx, k, reason)
  {
  }

  lemma ReasonsOf(r: Request, digest: string -> string, k: Category)
    requires Build(r, digest).Built? && k in Allocated(r, digest).bins
    ensures k in Build(r, digest).context.reasons && Build(r, digest).context.reasons[k] == Allocated(r, digest).bins[k].reasons
  {
    BuiltFrom(r, digest);
    hide Build, Allocated, Sort;
  }

  lemma GatheredStart(r: Request, digest: string -> string, k: Category)
    requires ValidBudget(r.budget)
    ensures Roomy(r.budget, GatheredDesk(r, digest)) && GatheredDesk(r, digest).bins[k] == BinOf(r, digest, k)
  {
    GatheredBins(r, digest, k);
    hide BinOf;
  }

  /**
   * A reason counted for a category beyond those of its unusable entries is true of
   * the finished context: the limit it names is spent, or a summary stands there
   * whole that can cover; and reasons of other kinds are only those of the entries.
   */
  lemma NamedBudgetsAreSpent(r: Request, digest: string -> string, k: Category, reason: Reason)
    requires Build(r, digest).Built?
    ensures k in Build(r, digest).context.reasons
    ensures
      var (given, counted) := (BinOf(r, digest, k).reasons[reason], Build(r, digest).context.reasons[k][reason]);
      given <= counted && (given < counted ==> TrueOf(r.budget, Build(r, digest).context, k, reason))
  {
    hide *;
    BlocksOf(r, digest);
    GatheredStart(r, digest, k);
    AllocatedIs(r, digest);
    AllocatedFair(r, digest);
    AllocatedShows(r, digest);
    var (b, d0, d) := (r.budget, GatheredDesk(r, digest), Allocated(r, digest));
    OfferAllNames(b, d0, InOrder(d0));
    TrulyAt(b, d0, d, k, reason);
    RoomyHas(b, d, k);
    ReasonsOf(r, digest, k);
    if Named(b, d, k, reason) { NamedIsTrue(b, d, Build(r, digest).context, k, reason); }
  }

  lemma TrulyAt(b: Budget, d0: Desk, d: Desk, k: Category, reason: Reason)
    requires Roomy(b, d0) && Roomy(b, d) && TrulyNamed(b, d0, d)
    ensures k in d0.bins && k in d.bins && d0.bins[k].reasons[reason] <= d.bins[k].reasons[reason]
    ensures d0.bins[k].reasons[reason] < d.bins[k].reasons[reason] ==> Named(b, d, k, reason)
  {
    hide Named;
  }

  // ----- why there is no context at all

  predicate UsableBudget(b: Budget) {
    && b.schemaVersion == CONTRACT_VERSION && NonEmpty(b.configVersion) && NonEmpty(b.summaryConfigVersion)
    && 1 <= b.maxTotalCharacters <= MAX_SAFE_INTEGER && 1 <= b.maxTotalBlocks <= MAX_SAFE_INTEGER
    && (forall c: Category ::
          && c in b.categories && 0 <= b.categories[c].maxCharacters <= MAX_SAFE_INTEGER
          && 0 <= b.categories[c].maxBlocks <= MAX_SAFE_INTEGER)
    && 1 <= b.categories[CurrentMessage].maxBlocks && 1 <= b.categories[CurrentMessage].maxCharacters
  }

  lemma UsableIff(b: Budget)
    ensures UsableBudget(b) <==> ValidBudget(b)
  {
    hide NonEmpty;
    if ValidBudget(b) {
      forall c: Category ensures c in b.categories && 0 <= b.categories[c].maxCharacters <= MAX_SAFE_INTEGER
        && 0 <= b.categories[c].maxBlocks <= MAX_SAFE_INTEGER { assert Bounded(b, c); }
    }
  }

  /** A build fails exactly for the budget, then the current message, then its access, by the name of what is wrong. */
  lemma FailsIff(r: Request, digest: string -> string)
    ensures
      var m := r.currentMessage;
      var room := RoomResource(r.session.roomId);
      Build(r, digest).Failed? <==> !UsableBudget(r.budget) || !ThisRoom(m.message, r.session)
                                    || !(0 <= m.message.sequence <= MAX_SAFE_INTEGER) || !MayRead(m.acl, r.session, room)
    ensures Build(r, digest).Failed? ==>
      match Build(r, digest).error
      case InvalidBudget => !UsableBudget(r.budget)
      case InvalidCurrentMessage =>
        UsableBudget(r.budget) && !(ThisRoom(r.currentMessage.message, r.session)
                                   && 0 <= r.currentMessage.message.sequence <= MAX_SAFE_INTEGER)
      case CurrentMessageAccessDenied => r.currentMessage.acl.Deny?
      case CurrentMessageAclMismatch => r.currentMessage.acl.Allow?
  {
    AllowedIff(r.currentMessage.acl, r.session, RoomOf(r));
    UsableIff(r.budget);
    hide ValidBudget, UsableBudget, NonEmpty, MayRead, Allocated, Present;
  }

  // ----- the keys of slices

  predicate IsDigits(s: string) {
    forall i | 0 <= i < |s| :: '0' <= s[i] <= '9'
  }

  lemma {:induction false} DecimalIsDigits(n: nat)
    ensures IsDigits(Decimal(n)) && Decimal(n) != ""
  {
    if 10 <= n { DecimalIsDigits(n / 10); }
  }

  lemma {:induction false} DecimalTellsApart(m: nat, n: nat)
    requires Decimal(m) == Decimal(n)
    ensures m == n
  {
    if 10 <= m { DecimalIsDigits(m / 10); }
    if 10 <= n { DecimalIsDigits(n / 10); }
    if 10 <= m && 10 <= n {
      var (a, b) := (Decimal(m / 10), Decimal(n / 10));
      assert Decimal(m)[..|Decimal(m)| - 1] == a && Decimal(n)[..|Decimal(n)| - 1] == b;
      DecimalTellsApart(m / 10, n / 10);
      assert Decimal(m)[|a|] == Decimal(n)[|b|];
    }
  }

  /** The number after the last separator can be read back. */
  lemma LastNumber(a: string, b: string, m: nat, n: nat, sep: char)
    requires !('0' <= sep <= '9') && a + [sep] + Decimal(m) == b + [sep] + Decimal(n)
    ensures a == b && m == n
  {
    DecimalIsDigits(m);
    DecimalIsDigits(n);
    var (d, e) := (Decimal(m), Decimal(n));
    var s := a + [sep] + d;
    hide Decimal;
    assert s == b + [sep] + e;
    assert s[|a|] == sep && s[|b|] == sep;
    assert s[|a| + 1..] == d && s[|b| + 1..] == e && s[..|a|] == a && s[..|b|] == b;
    assert |a| == |b|;
    DecimalTellsApart(m, n);
  }

  /**
   * Two slices are the same source to the builder exactly when they cut the same
   * stretch and their document and revision read the same one after the other, with
   * a null character between them; to the allocation, with a colon.
   */
  lemma SameSliceIff(a: Slice, b: Slice)
    requires 0 <= a.start && 0 <= a.end && 0 <= b.start && 0 <= b.end
    ensures SliceKey(a) == SliceKey(b) <==>
      a.documentId + "\0" + a.revision == b.documentId + "\0" + b.revision && a.start == b.start && a.end == b.end
    ensures SliceCandidate(a).key == SliceCandidate(b).key <==>
      a.documentId + ":" + a.revision == b.documentId + ":" + b.revision && a.start == b.start && a.end == b.end
  {
    NumbersRead(a.documentId + "\0" + a.revision, b.documentId + "\0" + b.revision, a, b, '\0');
    NumbersRead("document:" + a.documentId + ":" + a.revision, "document:" + b.documentId + ":" + b.revision, a, b, ':');
    KeyParts(a);
    KeyParts(b);
    Prefixed("document:", a.documentId + ":" + a.revision, b.documentId + ":" + b.revision);
    Regrouped("document:", a.documentId, a.revision);
    Regrouped("document:", b.documentId, b.revision);
  }

  lemma Regrouped(p: string, d: string, v: string)
    ensures p + d + ":" + v == p + (d + ":" + v)
  {
  }

  lemma Prefixed(p: string, x: string, y: string)
    ensures p + x == p + y <==> x == y
  {
    assert (p + x)[|p|..] == x && (p + y)[|p|..] == y;
  }

  lemma KeyParts(a: Slice)
    ensures SliceKey(a) == a.documentId + "\0" + a.revision + ['\0'] + Decimal(a.start) + ['\0'] + Decimal(a.end)
    ensures SliceCandidate(a).key == "document:" + a.documentId + ":" + a.revision + [':'] + Decimal(a.start) + [':'] + Decimal(a.end)
  {
  }

  lemma NumbersRead(x: string, y: string, a: Slice, b: Slice, sep: char)
    requires 0 <= a.start && 0 <= a.end && 0 <= b.start && 0 <= b.end && !('0' <= sep <= '9')
    ensures x + [sep] + Decimal(a.start) + [sep] + Decimal(a.end) == y + [sep] + Decimal(b.start) + [sep] + Decimal(b.end)
       <==> x == y && a.start == b.start && a.end == b.end
  {
    hide Decimal;
    var (p, q) := (x + [sep] + Decimal(a.start), y + [sep] + Decimal(b.start));
    if p + [sep] + Decimal(a.end) == q + [sep] + Decimal(b.end) {
      LastNumber(p, q, a.end, b.end, sep);
      LastNumber(x, y, a.start, b.start, sep);
    }
  }

  /** Two different documents can so be one source to the allocation: the second is passed over as a duplicate. */
  lemma DifferentSlicesCollide(acl: Acl)
    ensures
      var (a, b) := (Slice("s1", "d", "1:x", 0, 1, 0.0, "p", acl), Slice("s2", "d:1", "x", 0, 1, 0.0, "q", acl));
      SliceKey(a) != SliceKey(b) && SliceCandidate(a).key == SliceCandidate(b).key && a.documentId != b.documentId
  {
    var (a, b) := (Slice("s1", "d", "1:x", 0, 1, 0.0, "p", acl), Slice("s2", "d:1", "x", 0, 1, 0.0, "q", acl));
    SameSliceIff(a, b);
    assert a.documentId + ":" + a.revision == "d:1:x" == b.documentId + ":" + b.revision;
    assert (a.documentId + "\0" + a.revision)[1] == '\0' && (b.documentId + "\0" + b.revision)[1] == ':';
  }
}
