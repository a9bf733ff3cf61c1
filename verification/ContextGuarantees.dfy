/**
 * What a built room context guarantees: balanced accounts, respected budgets,
 * a current message that is always there, reply chains without gaps, no delta
 * repeated by the summary, no block the session may not read, and a result that
 * does not depend on the order in which the inputs arrived.
 */
module ContextGuarantees {
  import opened Prelude
  import opened Sorting
  import opened ContextModel
  import opened ContextIntake
  import opened ContextAllocation

  // ----- before allocation

  ghost predicate Balanced(r: Request, c: Category, bin: Bin) {
    bin.usage.considered + (if c == ReplyChain && ReplyWalk(r).revisited then 1 else 0)
      == bin.usage.included + |bin.candidates| + bin.usage.excluded
  }

  lemma GatheredCategory<T(!new)>(inputs: seq<T>, intake: Intake<T>, c: Category)
    requires forall x :: intake.card(x).category == c
    ensures forall x | x in Gathered(inputs, intake).candidates :: x.category == c
  {
  }

  lemma BinsStart(r: Request, digest: string -> string, c: Category)
    ensures
      var bin := BinOf(r, digest, c);
      && Balanced(r, c, bin) && bin.usage.excluded == |bin.reasons|
      && bin.usage.included == 0 && bin.usage.usedCharacters == 0 && bin.usage.truncated == 0
      && forall x | x in bin.candidates :: x.category == c
  {
    hide Gathered, ReplyWalk;
    match c
    case RoomDelta =>
      GatheredAccounts(r.roomDelta, DeltaIntake(r.session, r.currentMessage.message.sequence));
      GatheredCategory(r.roomDelta, DeltaIntake(r.session, r.currentMessage.message.sequence), c);
    case DocumentSlice =>
      GatheredAccounts(r.slices, SliceIntake(r.session));
      GatheredCategory(r.slices, SliceIntake(r.session), c);
    case RetrievalHit =>
      GatheredAccounts(r.hits, HitIntake(r.session));
      GatheredCategory(r.hits, HitIntake(r.session), c);
    case ReplyChain => ReplyAccounts(r);
    case SummaryText =>
    case CurrentMessage =>
  }

  lemma StartsFair(r: Request, digest: string -> string)
    requires ValidBudget(r.budget)
    ensures Roomy(r.budget, GatheredDesk(r, digest)) && Fair(r.budget, GatheredDesk(r, digest))
  {
    var d := GatheredDesk(r, digest);
    forall c: Category ensures CategoryFair(r.budget, d, c) {
      BinsStart(r, digest, c);
      assert RowsIn(d.rows, c) == [] && Bounded(r.budget, c);
    }
  }

  lemma AllocatedFair(r: Request, digest: string -> string)
    requires ValidBudget(r.budget)
    ensures Roomy(r.budget, Allocated(r, digest)) && Fair(r.budget, Allocated(r, digest))
  {
    var d := GatheredDesk(r, digest);
    StartsFair(r, digest);
    hide Fair, GatheredDesk, Complete;
    OfferAllFair(r.budget, d, InOrder(d));
  }

  // ----- the accounts

  lemma {:induction false} NoneOfCategory(cs: seq<Candidate>, c: Category)
    requires forall x | x in cs :: x.category != c
    ensures Filter(cs, OfCategory(c)) == []
  {
    if cs != [] {
      assert forall x | x in cs[..|cs| - 1] :: x in cs;
      assert cs[|cs| - 1] in cs;
      NoneOfCategory(cs[..|cs| - 1], c);
    }
  }

  lemma {:induction false} AllOfCategory(cs: seq<Candidate>, c: Category)
    requires forall x | x in cs :: x.category == c
    ensures |Filter(cs, OfCategory(c))| == |cs|
  {
    if cs != [] {
      assert forall x | x in cs[..|cs| - 1] :: x in cs;
      assert cs[|cs| - 1] in cs;
      AllOfCategory(cs[..|cs| - 1], c);
    }
  }

  lemma FilterCountsAdd<T>(a: seq<T>, b: seq<T>, keep: T -> bool)
    ensures |Filter(a + b, keep)| == |Filter(a, keep)| + |Filter(b, keep)|
  {
    FilterConcat(a, b, keep);
  }

  ghost predicate OwnCategory(d: Desk) {
    forall c: Category, x | c in d.bins && x in d.bins[c].candidates :: x.category == c
  }

  lemma OfferedCount(d: Desk, c: Category, k: Category)
    requires OwnCategory(d) && c in d.bins
    ensures |Filter(d.bins[c].candidates, OfCategory(k))| == if c == k then |d.bins[c].candidates| else 0
  {
    if c == k { AllOfCategory(d.bins[c].candidates, k); } else { NoneOfCategory(d.bins[c].candidates, k); }
  }

  /** Each category's candidates are offered exactly once. */
  lemma OfferedOnce(d: Desk, k: Category)
    requires Complete(d) && OwnCategory(d)
    ensures |Filter(InOrder(d), OfCategory(k))| == |d.bins[k].candidates|
  {
    var a, s, p, m, x, h := d.bins[CurrentMessage].candidates, d.bins[SummaryText].candidates, d.bins[ReplyChain].candidates,
      d.bins[RoomDelta].candidates, d.bins[DocumentSlice].candidates, d.bins[RetrievalHit].candidates;
    hide OwnCategory, Filter;
    OfferedCount(d, CurrentMessage, k);
    OfferedCount(d, SummaryText, k);
    OfferedCount(d, ReplyChain, k);
    OfferedCount(d, RoomDelta, k);
    OfferedCount(d, DocumentSlice, k);
    OfferedCount(d, RetrievalHit, k);
    InOrderCounts(a, s, p, m, x, h, OfCategory(k));
    assert InOrder(d) == a + s + p + m + x + h;
  }

  lemma InOrderCounts<T>(a: seq<T>, s: seq<T>, p: seq<T>, m: seq<T>, x: seq<T>, h: seq<T>, keep: T -> bool)
    ensures |Filter(a + s + p + m + x + h, keep)|
      == |Filter(a, keep)| + |Filter(s, keep)| + |Filter(p, keep)| + |Filter(m, keep)| + |Filter(x, keep)| + |Filter(h, keep)|
  {
    hide *;
    FilterCountsAdd(a, s, keep);
    FilterCountsAdd(a + s, p, keep);
    FilterCountsAdd(a + s + p, m, keep);
    FilterCountsAdd(a + s + p + m, x, keep);
    FilterCountsAdd(a + s + p + m + x, h, keep);
  }

  /** What the allocation leaves in one category's counters, against the rows it selected. */
  ghost predicate Accounted(r: Request, d: Desk, c: Category) {
    && c in d.bins
    && var u := d.bins[c].usage;
    && u.considered + (if c == ReplyChain && ReplyWalk(r).revisited then 1 else 0) == u.included + u.excluded
    && u.excluded == |d.bins[c].reasons|
    && u.included == |RowsIn(d.rows, c)| && u.usedCharacters == Characters(RowsIn(d.rows, c))
    && u.truncated == CountTruncated(RowsIn(d.rows, c))
    && d.usedCharacters == Characters(d.rows) && d.includedBlocks == |d.rows|
  }

  /** The gathered bins before anything is selected. */
  lemma GatheredBins(r: Request, digest: string -> string, c: Category)
    ensures
      var d := GatheredDesk(r, digest);
      && Complete(d) && OwnCategory(d) && c in d.bins
      && Balanced(r, c, d.bins[c]) && d.bins[c].usage.included == 0
  {
    BinsStart(r, digest, c);
    forall k: Category, x | x in GatheredDesk(r, digest).bins[k].candidates ensures x.category == k { BinsStart(r, digest, k); }
    hide BinOf, ReplyWalk;
  }

  lemma AllocatedIs(r: Request, digest: string -> string)
    requires ValidBudget(r.budget)
    ensures Roomy(r.budget, GatheredDesk(r, digest))
    ensures Allocated(r, digest) == OfferAll(r.budget, GatheredDesk(r, digest), InOrder(GatheredDesk(r, digest)))
  {
    StartsFair(r, digest);
    hide OfferAll, InOrder, GatheredDesk;
  }

  lemma FairAccounts(r: Request, d: Desk, c: Category)
    requires Roomy(r.budget, d) && Fair(r.budget, d)
    requires
      var u := d.bins[c].usage;
      u.considered + (if c == ReplyChain && ReplyWalk(r).revisited then 1 else 0) == u.included + u.excluded
    ensures Accounted(r, d, c)
  {
    assert CategoryFair(r.budget, d, c) && TotalsFair(r.budget, d);
    hide Fair, Characters, CountTruncated, RowsIn, ReplyWalk;
  }

  lemma BalanceMoves(r: Request, before: Bin, after: Bin, c: Category, offered: nat)
    requires Balanced(r, c, before) && before.usage.included == 0 && offered == |before.candidates|
    requires after.usage.considered == before.usage.considered
    requires after.usage.included + after.usage.excluded == before.usage.included + before.usage.excluded + offered
    ensures after.usage.considered + (if c == ReplyChain && ReplyWalk(r).revisited then 1 else 0)
         == after.usage.included + after.usage.excluded
  {
    hide ReplyWalk;
  }

  lemma AllocatedAccounts(r: Request, digest: string -> string, c: Category)
    requires ValidBudget(r.budget)
    ensures Accounted(r, Allocated(r, digest), c)
  {
    hide *;
    var d := GatheredDesk(r, digest);
    GatheredBins(r, digest, c);
    AllocatedIs(r, digest);
    AllocatedFair(r, digest);
    OfferedOnce(d, c);
    OfferAllCounts(r.budget, d, InOrder(d), c);
    RoomyHas(r.budget, Allocated(r, digest), c);
    BalanceMoves(r, d.bins[c], Allocated(r, digest).bins[c], c, |d.bins[c].candidates|);
    FairAccounts(r, Allocated(r, digest), c);
  }

  lemma RoomyHas(b: Budget, d: Desk, c: Category)
    requires Roomy(b, d)
    ensures c in d.bins && c in b.categories
  {
  }

  lemma BuiltFrom(r: Request, digest: string -> string)
    requires Build(r, digest).Built?
    ensures ValidBudget(r.budget) && Build(r, digest).context == Present(Allocated(r, digest))
  {
    hide ValidBudget, Present, Allocated;
  }

  lemma PresentAccounts(r: Request, d: Desk, c: Category)
    requires Accounted(r, d, c)
    ensures
      var ctx := Present(d);
      && c in ctx.usage && c in ctx.reasons
      && var u := ctx.usage[c];
      && u.considered + (if c == ReplyChain && ReplyWalk(r).revisited then 1 else 0) == u.included + u.excluded
      && u.excluded == |ctx.reasons[c]|
      && u.included == |RowsIn(ctx.blocks, c)|
      && u.usedCharacters == Characters(RowsIn(ctx.blocks, c))
      && u.truncated == CountTruncated(RowsIn(ctx.blocks, c))
      && ctx.usedCharacters == Characters(ctx.blocks) && ctx.includedBlocks == |ctx.blocks|
  {
    SortPermutes(d.rows, DisplayBefore);
    PermutedRows(Sort(d.rows, DisplayBefore), d.rows, c);
    assert |multiset(Sort(d.rows, DisplayBefore))| == |multiset(d.rows)|;
    hide Sort, RowsIn, Characters, CountTruncated, ReplyWalk;
  }

  /**
   * Per category: everything considered is included or excluded, except that a
   * reply walk meeting an id twice adds one exclusion; the counted reasons add up
   * to the exclusions; and the counters are those of the blocks returned.
   */
  lemma AccountsBalance(r: Request, digest: string -> string, c: Category)
    requires Build(r, digest).Built?
    ensures
      var ctx := Build(r, digest).context;
      && c in ctx.usage && c in ctx.reasons
      && var u := ctx.usage[c];
      && u.considered + (if c == ReplyChain && ReplyWalk(r).revisited then 1 else 0) == u.included + u.excluded
      && u.excluded == |ctx.reasons[c]|
      && u.included == |RowsIn(ctx.blocks, c)|
      && u.usedCharacters == Characters(RowsIn(ctx.blocks, c))
      && u.truncated == CountTruncated(RowsIn(ctx.blocks, c))
      && ctx.usedCharacters == Characters(ctx.blocks) && ctx.includedBlocks == |ctx.blocks|
  {
    hide *;
    BuiltFrom(r, digest);
    AllocatedAccounts(r, digest, c);
    PresentAccounts(r, Allocated(r, digest), c);
  }

  lemma PermutedRows(a: seq<Block>, b: seq<Block>, c: Category)
    requires multiset(a) == multiset(b)
    ensures |RowsIn(a, c)| == |RowsIn(b, c)| && Characters(a) == Characters(b)
    ensures Characters(RowsIn(a, c)) == Characters(RowsIn(b, c))
    ensures CountTruncated(RowsIn(a, c)) == CountTruncated(RowsIn(b, c))
  {
    FilterPermutes(a, b, InCategory(c));
    SumPermutes(a, b, CharacterUnits());
    SumPermutes(RowsIn(a, c), RowsIn(b, c), CharacterUnits());
    FilterPermutes(RowsIn(a, c), RowsIn(b, c), IsTruncated());
  }

  // ----- the budgets

  /** No limit is exceeded, in any category or in total. */
  lemma BudgetsHold(r: Request, digest: string -> string, c: Category)
    requires Build(r, digest).Built?
    ensures
      var ctx := Build(r, digest).context;
      && |RowsIn(ctx.blocks, c)| <= r.budget.categories[c].maxBlocks
      && Characters(RowsIn(ctx.blocks, c)) <= r.budget.categories[c].maxCharacters
      && |ctx.blocks| <= r.budget.maxTotalBlocks && Characters(ctx.blocks) <= r.budget.maxTotalCharacters
  {
    AccountsBalance(r, digest, c);
    AllocatedFair(r, digest);
    assert CategoryFair(r.budget, Allocated(r, digest), c);
    hide Allocated, RowsIn, Characters;
  }

  // ----- the current message

  function CurrentCandidate(r: Request): Candidate {
    MessageCandidate(r.currentMessage, CurrentMessage)
  }

  /** The desk once the current message and the summary have been placed. */
  ghost function Opened(r: Request, digest: string -> string): (d: Desk)
    requires ValidBudget(r.budget)
    ensures Roomy(r.budget, d)
  {
    var d := GatheredDesk(r, digest);
    assert forall c: Category :: c in r.budget.categories;
    OfferAll(r.budget, d, [CurrentCandidate(r)] + SummaryBin(r, digest).candidates)
  }

  ghost function Replied(r: Request, digest: string -> string): (d: Desk)
    requires ValidBudget(r.budget)
    ensures Roomy(r.budget, d)
  {
    OfferAll(r.budget, Opened(r, digest), ReplyBin(r).candidates)
  }

  /** What is offered after the reply chain. */
  function Later(r: Request, digest: string -> string): seq<Candidate> {
    var d := GatheredDesk(r, digest);
    d.bins[RoomDelta].candidates + d.bins[DocumentSlice].candidates + d.bins[RetrievalHit].candidates
  }

  lemma OrderStages(r: Request, digest: string -> string)
    ensures InOrder(GatheredDesk(r, digest))
         == ([CurrentCandidate(r)] + SummaryBin(r, digest).candidates + ReplyBin(r).candidates) + Later(r, digest)
  {
    var d := GatheredDesk(r, digest);
    assert d.bins[CurrentMessage].candidates == [CurrentCandidate(r)];
    assert d.bins[SummaryText] == SummaryBin(r, digest) && d.bins[ReplyChain] == ReplyBin(r);
    hide GatheredDesk, SummaryBin, ReplyBin, CurrentCandidate;
    Regroup(d.bins[CurrentMessage].candidates, d.bins[SummaryText].candidates, d.bins[ReplyChain].candidates,
            d.bins[RoomDelta].candidates, d.bins[DocumentSlice].candidates, d.bins[RetrievalHit].candidates);
  }

  lemma Regroup(a: seq<Candidate>, b: seq<Candidate>, c: seq<Candidate>, d: seq<Candidate>, e: seq<Candidate>, f: seq<Candidate>)
    ensures a + b + c + d + e + f == (a + b + c) + (d + e + f)
  {
  }

  lemma InStages(r: Request, digest: string -> string)
    requires ValidBudget(r.budget)
    ensures Allocated(r, digest) == OfferAll(r.budget, Replied(r, digest), Later(r, digest))
  {
    var d := GatheredDesk(r, digest);
    var opening := [CurrentCandidate(r)] + SummaryBin(r, digest).candidates;
    assert forall c: Category :: c in r.budget.categories;
    OrderStages(r, digest);
    hide GatheredDesk, InOrder, Later, SummaryBin, ReplyBin;
    OfferAllConcat(r.budget, d, opening + ReplyBin(r).candidates, Later(r, digest));
    OfferAllConcat(r.budget, d, opening, ReplyBin(r).candidates);
  }

  /** The budget check reserves room for it: the current message is always the first row. */
  lemma CurrentIsFirst(r: Request, digest: string -> string)
    requires ValidBudget(r.budget)
    ensures
      var rows := Opened(r, digest).rows;
      && rows != [] && rows[0].candidate == CurrentCandidate(r)
      && (forall i | 1 <= i < |rows| :: rows[i].candidate.category == SummaryText)
      && |rows| <= 2
  {
    var d := GatheredDesk(r, digest);
    assert forall c: Category :: c in r.budget.categories;
    var c := CurrentCandidate(r);
    var d1 := OfferAll(r.budget, d, [c]);
    OfferOne(r.budget, d, c);
    assert d.bins[CurrentMessage].usage == Usage(1, 0, 0, 0, 0);
    assert d1.rows == [Block(c, d1.rows[0].content)];
    OfferAllConcat(r.budget, d, [c], SummaryBin(r, digest).candidates);
    OfferAllExtends(r.budget, d1, SummaryBin(r, digest).candidates);
    if SummaryBin(r, digest).candidates != [] {
      var s := SummaryBin(r, digest).candidates;
      assert s == [s[0]];
      OfferOne(r.budget, d1, s[0]);
    }
  }

  lemma CurrentAlwaysIncluded(r: Request, digest: string -> string)
    requires Build(r, digest).Built?
    ensures exists b :: b in Build(r, digest).context.blocks && b.candidate == CurrentCandidate(r)
  {
    hide *;
    BlocksAreRows(r, digest);
    CurrentIsFirst(r, digest);
    ReplyRows(r, digest);
    LaterRows(r, digest);
    var o, d := Opened(r, digest), Allocated(r, digest);
    assert d.rows[0] == o.rows[0];
    SortPermutes(d.rows, DisplayBefore);
    assert d.rows[0] in Build(r, digest).context.blocks;
  }

  // ----- truncation

  /**
   * In the order of selection a truncated block is the last of its category, so
   * each category has at most one; and no source is selected twice.
   */
  lemma TruncatedIsLast(r: Request, digest: string -> string, i: nat, j: nat)
    requires ValidBudget(r.budget) && i < j < |Allocated(r, digest).rows|
    ensures Allocated(r, digest).rows[i].candidate.key != Allocated(r, digest).rows[j].candidate.key
    ensures Allocated(r, digest).rows[i].candidate.category == Allocated(r, digest).rows[j].candidate.category
      ==> !Truncated(Allocated(r, digest).rows[i])
  {
    AllocatedFair(r, digest);
  }

  // ----- what the rows are made of

  lemma ChosenEntry<T(!new)>(inputs: seq<T>, intake: Intake<T>, x: T)
    requires x in Chosen(inputs, intake)
    ensures x in inputs && intake.fault(x).None? && intake.access(x) == Allowed
  {
    var valid := Filter(inputs, Sound(intake));
    var keys := Keys(valid, intake.key);
    SortPermutes(valid, intake.before);
    hide Filter, Sort, Keys;
    assert Accepted(intake, keys)(x) && x in valid && Sound(intake)(x);
    assert Refused(intake, keys)(x).None?;
  }

  /** Every candidate of a sorted category presents an entry that was sound and readable. */
  lemma GatheredCards<T(!new)>(inputs: seq<T>, intake: Intake<T>, c: Candidate)
    requires c in Gathered(inputs, intake).candidates
    ensures exists x :: x in inputs && intake.fault(x).None? && intake.access(x) == Allowed && intake.card(x) == c
  {
    var chosen := Chosen(inputs, intake);
    assert Gathered(inputs, intake).candidates == Cards(chosen, intake.card);
    hide Gathered, Chosen;
    var i :| 0 <= i < |chosen| && intake.card(chosen[i]) == c;
    ChosenEntry(inputs, intake, chosen[i]);
  }

  function ResourceOf(r: Request, source: Provenance): Resource {
    match source
    case MessageSource(_) => RoomOf(r)
    case SummarySource(_) => RoomOf(r)
    case SliceSource(slice) => DocumentResource(slice.documentId)
    case HitSource(hit) => HitResource(hit)
  }

  /** The access decision that came with it is bound to this session and to the thing shown. */
  predicate Readable(r: Request, c: Candidate) {
    AclResult(c.acl, r.session, ResourceOf(r, c.source)) == Allowed
  }

  /** A candidate's category tells where it came from. */
  predicate WellSourced(c: Candidate) {
    match c.category
    case SummaryText => c.source.SummarySource?
    case DocumentSlice => c.source.SliceSource?
    case RetrievalHit => c.source.HitSource?
    case _ => c.source.MessageSource?
  }

  lemma CandidateReadable(r: Request, digest: string -> string, k: Category, c: Candidate)
    requires AclResult(r.currentMessage.acl, r.session, RoomOf(r)) == Allowed
    requires c in BinOf(r, digest, k).candidates
    ensures Readable(r, c) && WellSourced(c) && c.category == k
  {
    BinsStart(r, digest, k);
    hide Gathered, WalkFrom;
    match k
    case RoomDelta => GatheredCards(r.roomDelta, DeltaIntake(r.session, r.currentMessage.message.sequence), c);
    case DocumentSlice => GatheredCards(r.slices, SliceIntake(r.session), c);
    case RetrievalHit => GatheredCards(r.hits, HitIntake(r.session), c);
    case ReplyChain =>
      var chain := ReplyWalk(r).ancestors;
      WalkFollows(r, r.currentMessage.message.replyToMessageId, r.currentMessage.message.sequence, {});
      var i :| 0 <= i < |chain| && MessageCandidate(chain[i], ReplyChain) == c;
      assert AncestorAt(r, chain, r.currentMessage.message.replyToMessageId, r.currentMessage.message.sequence, i);
    case SummaryText =>
    case CurrentMessage =>
  }

  lemma BlocksAreRows(r: Request, digest: string -> string)
    requires Build(r, digest).Built?
    ensures Fault(r).None? && ValidBudget(r.budget)
    ensures Build(r, digest).context.blocks == Sort(Allocated(r, digest).rows, DisplayBefore)
  {
    hide Allocated, ValidMessage, AclResult, DisplayBefore, Sort;
  }

  /** Nothing is shown that the session was not allowed to read. */
  lemma EveryBlockReadable(r: Request, digest: string -> string, b: Block)
    requires Build(r, digest).Built? && b in Build(r, digest).context.blocks
    ensures Readable(r, b.candidate) && WellSourced(b.candidate) && b.content <= b.candidate.content
  {
    hide *;
    BlocksAreRows(r, digest);
    var d := Allocated(r, digest);
    SortPermutes(d.rows, DisplayBefore);
    var i :| 0 <= i < |d.rows| && d.rows[i] == b;
    RowIsBeginning(r, digest, i);
    RowOffered(r, digest, i);
  }

  lemma RowIsBeginning(r: Request, digest: string -> string, i: nat)
    requires ValidBudget(r.budget) && i < |Allocated(r, digest).rows|
    ensures Allocated(r, digest).rows[i].content <= Allocated(r, digest).rows[i].candidate.content
  {
    AllocatedFair(r, digest);
  }

  lemma RowOffered(r: Request, digest: string -> string, i: nat)
    requires Fault(r).None? && i < |Allocated(r, digest).rows|
    ensures Readable(r, Allocated(r, digest).rows[i].candidate) && WellSourced(Allocated(r, digest).rows[i].candidate)
  {
    var d := GatheredDesk(r, digest);
    var c := Allocated(r, digest).rows[i].candidate;
    OfferAllExtends(r.budget, d, InOrder(d));
    assert c in InOrder(d);
    var k := OfferedBy(d, c);
    hide OfferAll, InOrder, Complete, Readable, WellSourced, BinOf;
    CandidateReadable(r, digest, k, c);
  }

  lemma OfferedBy(d: Desk, c: Candidate) returns (k: Category)
    requires Complete(d) && c in InOrder(d)
    ensures c in d.bins[k].candidates
  {
    k :| c in d.bins[k].candidates;
  }

  // ----- replies

  lemma MessageKeysDiffer(a: string, b: string)
    requires a != b
    ensures "room-message:" + a != "room-message:" + b
  {
    assert ("room-message:" + a)[13..] == a && ("room-message:" + b)[13..] == b;
  }

  lemma SummaryKeyDiffers(a: string, b: string)
    ensures "room-message:" + a != "summary:" + b
  {
    assert ("room-message:" + a)[0] == 'r' && ("summary:" + b)[0] == 's';
  }

  /** Along the walk no id occurs twice: each is the only reply with its id, and sequences fall. */
  lemma AncestorsDiffer(r: Request, chain: seq<MessageInput>, id: Option<string>, before: int, i: nat, j: nat)
    requires FollowsPointers(r, chain, id, before) && i < j < |chain|
    ensures chain[j].message.sequence < chain[i].message.sequence
    ensures chain[i].message.messageId != chain[j].message.messageId
    decreases j
  {
    assert AncestorAt(r, chain, id, before, i) && AncestorAt(r, chain, id, before, j);
    if i + 1 < j { AncestorsDiffer(r, chain, id, before, i, j - 1); }
  }

  /** Keys the opening can have taken: the current message's and the summary's. */
  lemma OpenedKeys(r: Request, digest: string -> string, key: string)
    requires ValidBudget(r.budget) && key in Opened(r, digest).keys
    ensures key == CurrentCandidate(r).key || (r.summary.Some? && key == "summary:" + r.summary.value.summary.summaryId)
  {
    assert forall c: Category :: c in r.budget.categories;
    var opening := [CurrentCandidate(r)] + SummaryBin(r, digest).candidates;
    KeysComeFromOffers(r.budget, GatheredDesk(r, digest), opening, key);
  }

  /**
   * The included replies are a gap-free beginning of the chain of ancestors the
   * reply pointers name, sequences falling strictly, and it is cut short only
   * when a budget is spent. (A reply carrying the current message's own id is a
   * repeat of it and is passed over.)
   */
  lemma RepliesAreAncestors(r: Request, digest: string -> string) returns (n: nat)
    requires Fault(r).None?
    requires forall x | x in r.replyChain :: x.message.messageId != r.currentMessage.message.messageId
    ensures
      FollowsPointers(r, ReplyWalk(r).ancestors, r.currentMessage.message.replyToMessageId, r.currentMessage.message.sequence)
    ensures Prefix(Opened(r, digest), Replied(r, digest), ReplyBin(r).candidates, n)
    ensures ReplyBin(r).candidates == Cards(ReplyWalk(r).ancestors, (x: MessageInput) => MessageCandidate(x, ReplyChain))
    ensures forall i, j | 0 <= i < j < |ReplyWalk(r).ancestors| ::
      ReplyWalk(r).ancestors[j].message.sequence < ReplyWalk(r).ancestors[i].message.sequence
    ensures n < |ReplyWalk(r).ancestors| ==> Spent(r.budget, Replied(r, digest), ReplyChain)
  {
    RepliesOffered(r, digest);
    hide WalkFrom, ReplyWalk, ReplyBin, Opened, FollowsPointers, OfferAll, Spent, MessageCandidate, Fault;
    n := PrefixServed(r.budget, Opened(r, digest), ReplyBin(r).candidates, ReplyChain);
  }

  /** The chain's candidates carry distinct keys, none of them taken by the opening. */
  lemma RepliesOffered(r: Request, digest: string -> string)
    requires ValidBudget(r.budget)
    requires forall x | x in r.replyChain :: x.message.messageId != r.currentMessage.message.messageId
    ensures
      var (chain, cards, m) := (ReplyWalk(r).ancestors, ReplyBin(r).candidates, r.currentMessage.message);
      && FollowsPointers(r, chain, m.replyToMessageId, m.sequence)
      && |cards| == |chain|
      && (forall i | 0 <= i < |chain| :: cards[i] == MessageCandidate(chain[i], ReplyChain))
      && (forall i | 0 <= i < |cards| :: cards[i].category == ReplyChain && cards[i].key !in Opened(r, digest).keys)
      && (forall i, j | 0 <= i < j < |cards| :: cards[i].key != cards[j].key)
      && (forall i, j | 0 <= i < j < |chain| :: chain[j].message.sequence < chain[i].message.sequence)
  {
    var m := r.currentMessage.message;
    var chain := ReplyWalk(r).ancestors;
    var cards := ReplyBin(r).candidates;
    WalkFollows(r, m.replyToMessageId, m.sequence, {});
    assert FollowsPointers(r, chain, m.replyToMessageId, m.sequence);
    hide WalkFrom, ReplyWalk, Opened;
    forall i, j | 0 <= i < j < |chain|
      ensures chain[j].message.sequence < chain[i].message.sequence && cards[i].key != cards[j].key
    {
      AncestorsDiffer(r, chain, m.replyToMessageId, m.sequence, i, j);
      MessageKeysDiffer(chain[i].message.messageId, chain[j].message.messageId);
    }
    forall i | 0 <= i < |cards| ensures cards[i].key !in Opened(r, digest).keys {
      AncestorIsReply(r, chain, m.replyToMessageId, m.sequence, i);
      MessageKeysDiffer(chain[i].message.messageId, m.messageId);
      if r.summary.Some? { SummaryKeyDiffers(chain[i].message.messageId, r.summary.value.summary.summaryId); }
      if cards[i].key in Opened(r, digest).keys { OpenedKeys(r, digest, cards[i].key); }
    }
  }

  lemma AncestorIsReply(r: Request, chain: seq<MessageInput>, id: Option<string>, before: int, i: nat)
    requires FollowsPointers(r, chain, id, before) && i < |chain|
    ensures chain[i] in r.replyChain
  {
    assert AncestorAt(r, chain, id, before, i);
    assert chain[i] in Matches(r.replyChain, chain[i].message.messageId);
  }

  /** Replies are placed after the current message and the summary. */
  lemma ReplyRows(r: Request, digest: string -> string)
    requires ValidBudget(r.budget)
    ensures Opened(r, digest).rows <= Replied(r, digest).rows
    ensures forall i | |Opened(r, digest).rows| <= i < |Replied(r, digest).rows| ::
      Replied(r, digest).rows[i].candidate.category == ReplyChain
  {
    var o := Opened(r, digest);
    BinsStart(r, digest, ReplyChain);
    assert forall c | c in ReplyBin(r).candidates :: c.category == ReplyChain;
    assert Replied(r, digest) == OfferAll(r.budget, o, ReplyBin(r).candidates);
    hide Opened, Replied, ReplyBin, OfferAll;
    OfferAllExtends(r.budget, o, ReplyBin(r).candidates);
  }

  lemma LaterCategories(r: Request, digest: string -> string)
    ensures forall c | c in Later(r, digest) ::
      c.category == RoomDelta || c.category == DocumentSlice || c.category == RetrievalHit
  {
    BinsStart(r, digest, RoomDelta);
    BinsStart(r, digest, DocumentSlice);
    BinsStart(r, digest, RetrievalHit);
    hide BinOf;
  }

  /** After the replies come only the delta, slices and hits. */
  lemma LaterRows(r: Request, digest: string -> string)
    requires ValidBudget(r.budget)
    ensures Replied(r, digest).rows <= Allocated(r, digest).rows
    ensures forall i | |Replied(r, digest).rows| <= i < |Allocated(r, digest).rows| ::
      var c := Allocated(r, digest).rows[i].candidate.category;
      c == RoomDelta || c == DocumentSlice || c == RetrievalHit
  {
    InStages(r, digest);
    LaterCategories(r, digest);
    hide Allocated, Replied, Later, OfferAll;
    OfferAllExtends(r.budget, Replied(r, digest), Later(r, digest));
  }

  /** In the order of selection the replies are one run, right after the opening rows. */
  lemma RepliesAreOneRun(r: Request, digest: string -> string, i: nat)
    requires ValidBudget(r.budget) && i < |Allocated(r, digest).rows|
    ensures Opened(r, digest).rows <= Replied(r, digest).rows <= Allocated(r, digest).rows
    ensures Allocated(r, digest).rows[i].candidate.category == ReplyChain
       <==> |Opened(r, digest).rows| <= i < |Replied(r, digest).rows|
  {
    hide *;
    CurrentIsFirst(r, digest);
    CurrentCategory(r);
    ReplyRows(r, digest);
    LaterRows(r, digest);
  }

  lemma CurrentCategory(r: Request)
    ensures CurrentCandidate(r).category == CurrentMessage
  {
  }

  // ----- the delta and the summary

  /** Every summary placed whole is the one whose cover is recorded. */
  ghost predicate SummaryNoted(d: Desk) {
    forall i | 0 <= i < |d.rows| && d.rows[i].candidate.category == SummaryText && !Truncated(d.rows[i]) ::
      d.rows[i].candidate.source.SummarySource?
      && d.through == Some(d.rows[i].candidate.source.summary.source.throughSequence)
  }

  ghost predicate NoSummaryRow(d: Desk) {
    forall i | 0 <= i < |d.rows| :: d.rows[i].candidate.category != SummaryText
  }

  lemma OfferNotes(b: Budget, d: Desk, c: Candidate)
    requires Roomy(b, d) && NoSummaryRow(d) && (c.category == SummaryText ==> c.source.SummarySource?)
    ensures SummaryNoted(Offer(b, d, c)) && (c.category != SummaryText ==> NoSummaryRow(Offer(b, d, c)))
  {
    hide Refusal, CutTo, Available;
  }

  lemma SummaryCards(r: Request, digest: string -> string)
    ensures
      var s := SummaryBin(r, digest).candidates;
      s == [] || (s == [s[0]] && s[0].category == SummaryText && s[0].source.SummarySource?)
  {
    hide SummaryReason;
  }

  /** Placing the summary whole records what it covers; nothing else does. */
  lemma OpenedThrough(r: Request, digest: string -> string, i: nat)
    requires ValidBudget(r.budget) && i < |Opened(r, digest).rows|
    requires Opened(r, digest).rows[i].candidate.category == SummaryText && !Truncated(Opened(r, digest).rows[i])
    ensures
      var (d, c) := (Opened(r, digest), Opened(r, digest).rows[i].candidate);
      c.source.SummarySource? && d.through == Some(c.source.summary.source.throughSequence)
  {
    var d := GatheredDesk(r, digest);
    assert forall c: Category :: c in r.budget.categories;
    var c, s := CurrentCandidate(r), SummaryBin(r, digest).candidates;
    hide SummaryBin, CurrentCandidate, ValidBudget, Offer, BinOf;
    CurrentCategory(r);
    SummaryCards(r, digest);
    OfferAllConcat(r.budget, d, [c], s);
    OfferOne(r.budget, d, c);
    OfferNotes(r.budget, d, c);
    if s != [] {
      OfferOne(r.budget, OfferAll(r.budget, d, [c]), s[0]);
      OfferNotes(r.budget, OfferAll(r.budget, d, [c]), s[0]);
    }
  }

  lemma SoundBudget(r: Request)
    requires Fault(r).None?
    ensures ValidBudget(r.budget)
  {
    hide ValidBudget;
  }

  lemma DeltaIsBeyond(d: Desk, j: nat)
    requires BeyondSummary(d) && j < |d.rows| && d.rows[j].candidate.category == RoomDelta && d.through.Some?
    requires WellSourced(d.rows[j].candidate)
    ensures d.rows[j].candidate.source.MessageSource? && d.through.value < d.rows[j].candidate.source.message.sequence
  {
    assert d.rows[j] in d.rows;
  }

  /** No message of the delta is shown that an untruncated summary in the context already covers. */
  lemma NoDeltaCovered(r: Request, digest: string -> string, i: nat, j: nat)
    requires Fault(r).None? && i < |Allocated(r, digest).rows| && j < |Allocated(r, digest).rows|
    requires Allocated(r, digest).rows[i].candidate.category == SummaryText && !Truncated(Allocated(r, digest).rows[i])
    requires Allocated(r, digest).rows[j].candidate.category == RoomDelta
    ensures
      var (s, m) := (Allocated(r, digest).rows[i].candidate.source, Allocated(r, digest).rows[j].candidate.source);
      s.SummarySource? && m.MessageSource? && s.summary.source.throughSequence < m.message.sequence
  {
    hide *;
    SoundBudget(r);
    RowOffered(r, digest, j);
    SummaryIsOpening(r, digest, i);
    OpenedThrough(r, digest, i);
    BeyondOpening(r, digest);
    DeltaIsBeyond(Allocated(r, digest), j);
  }

  lemma SummaryIsOpening(r: Request, digest: string -> string, i: nat)
    requires ValidBudget(r.budget) && i < |Allocated(r, digest).rows|
    requires Allocated(r, digest).rows[i].candidate.category == SummaryText
    ensures i < |Opened(r, digest).rows| && Opened(r, digest).rows[i] == Allocated(r, digest).rows[i]
  {
    hide *;
    ReplyRows(r, digest);
    LaterRows(r, digest);
  }

  lemma OpenedHasNoDelta(r: Request, digest: string -> string)
    requires ValidBudget(r.budget)
    ensures BeyondSummary(Opened(r, digest))
  {
    CurrentIsFirst(r, digest);
    CurrentCategory(r);
    hide Opened;
    assert forall row | row in Opened(r, digest).rows :: row.candidate.category != RoomDelta;
  }

  lemma ReplyCategories(r: Request, digest: string -> string)
    requires ValidBudget(r.budget)
    ensures forall c | c in ReplyBin(r).candidates :: c.category == ReplyChain
    ensures Replied(r, digest) == OfferAll(r.budget, Opened(r, digest), ReplyBin(r).candidates)
  {
    BinsStart(r, digest, ReplyChain);
    hide ReplyBin, Opened;
  }

  lemma BeyondOpening(r: Request, digest: string -> string)
    requires ValidBudget(r.budget)
    ensures Allocated(r, digest).through == Opened(r, digest).through && BeyondSummary(Allocated(r, digest))
  {
    hide *;
    var o, d := Opened(r, digest), Replied(r, digest);
    InStages(r, digest);
    OpenedHasNoDelta(r, digest);
    LaterCategories(r, digest);
    ReplyCategories(r, digest);
    ThroughIsKept(r.budget, o, ReplyBin(r).candidates);
    ThroughIsKept(r.budget, d, Later(r, digest));
    DeltaBeyondSummary(r.budget, o, ReplyBin(r).candidates);
    DeltaBeyondSummary(r.budget, d, Later(r, digest));
  }

  // ----- the order of the inputs

  /** The same request with its lists in another order. */
  ghost predicate Rearranged(r: Request, r': Request) {
    && r' == r.(replyChain := r'.replyChain, roomDelta := r'.roomDelta, slices := r'.slices, hits := r'.hits)
    && multiset(r.replyChain) == multiset(r'.replyChain) && multiset(r.roomDelta) == multiset(r'.roomDelta)
    && multiset(r.slices) == multiset(r'.slices) && multiset(r.hits) == multiset(r'.hits)
  }

  lemma BinsAgree(r: Request, r': Request, digest: string -> string, c: Category)
    requires Rearranged(r, r') && NoTies(r.slices, SliceIntake(r.session))
    ensures BinOf(r, digest, c) == BinOf(r', digest, c)
  {
    hide Gathered, ReplyBin;
    match c
    case RoomDelta => DeltaAgrees(r.roomDelta, r'.roomDelta, r.session, r.currentMessage.message.sequence);
    case DocumentSlice => SlicesAgree(r.slices, r'.slices, r.session);
    case RetrievalHit => HitsAgree(r.hits, r'.hits, r.session);
    case ReplyChain => RepliesAgree(r, r');
    case SummaryText => SummaryAgrees(r, r', digest);
    case CurrentMessage =>
  }

  lemma SummaryAgrees(r: Request, r': Request, digest: string -> string)
    requires Rearranged(r, r')
    ensures SummaryBin(r, digest) == SummaryBin(r', digest)
  {
  }

  lemma DesksAgree(r: Request, r': Request, digest: string -> string)
    requires Rearranged(r, r') && NoTies(r.slices, SliceIntake(r.session))
    ensures GatheredDesk(r, digest) == GatheredDesk(r', digest)
  {
    var d, d' := GatheredDesk(r, digest), GatheredDesk(r', digest);
    forall c: Category ensures d.bins[c] == d'.bins[c] {
      BinsAgree(r, r', digest, c);
    }
    hide BinOf;
    assert d.bins == d'.bins;
  }

  lemma AllocatedAgrees(r: Request, r': Request, digest: string -> string)
    requires Rearranged(r, r') && NoTies(r.slices, SliceIntake(r.session)) && ValidBudget(r.budget)
    ensures Allocated(r, digest) == Allocated(r', digest)
  {
    DesksAgree(r, r', digest);
    hide GatheredDesk, InOrder, OfferAll, ValidBudget;
  }

  /** The faults depend on the budget and the current message only. */
  lemma FaultAgrees(r: Request, r': Request)
    requires Rearranged(r, r')
    ensures Fault(r) == Fault(r') && (Fault(r).None? ==> ValidBudget(r.budget))
  {
    hide ValidBudget, ValidMessage, AclResult;
  }

  /**
   * The whole result -- blocks, counters, reasons and totals, or the error -- is
   * the same in whatever order replies, delta, slices and hits arrive. No two
   * accepted slices may tie, which is exactly what their order needs (SliceOrderIff).
   */
  lemma OrderDoesNotMatter(r: Request, r': Request, digest: string -> string)
    requires Rearranged(r, r') && NoTies(r.slices, SliceIntake(r.session))
    ensures Build(r, digest) == Build(r', digest)
  {
    FaultAgrees(r, r');
    hide Fault;
    if Fault(r).None? { AllocatedAgrees(r, r', digest); }
    hide Allocated, Present;
  }
}
