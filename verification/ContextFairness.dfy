/**
 * Who gets a place when there is not room for all: in every category the best
 * entries by their own fields, across categories the earlier ones; nothing that
 * may be shown is left out unless a budget is spent, and nothing is shown that is
 * not sound and readable, field by field.
 */
module ContextFairness {
  import opened Prelude
  import opened Sorting
  import opened Text
  import opened ContextModel
  import opened ContextIntake
  import opened ContextAllocation
  import opened ContextGuarantees

  // ----- budgets that are spent stay spent

  /** The category's own limits leave it nothing more. */
  ghost predicate OwnSpent(b: Budget, d: Desk, k: Category)
    requires Roomy(b, d)
  {
    d.bins[k].usage.included >= b.categories[k].maxBlocks || d.bins[k].usage.usedCharacters >= b.categories[k].maxCharacters
  }

  /** The limits on the whole context leave nothing more to anybody. */
  ghost predicate TotalSpent(b: Budget, d: Desk) {
    d.includedBlocks >= b.maxTotalBlocks || d.usedCharacters >= b.maxTotalCharacters
  }

  /** A later desk: rows and keys added, counters only grown. */
  ghost predicate Grown(d: Desk, d': Desk) {
    && d.rows <= d'.rows && d.keys <= d'.keys && d'.bins.Keys == d.bins.Keys
    && d.includedBlocks <= d'.includedBlocks && d.usedCharacters <= d'.usedCharacters
    && forall k | k in d.bins ::
         d.bins[k].usage.included <= d'.bins[k].usage.included && d.bins[k].usage.usedCharacters <= d'.bins[k].usage.usedCharacters
  }

  lemma OfferGrows(b: Budget, d: Desk, c: Candidate)
    requires Roomy(b, d)
    ensures Grown(d, Offer(b, d, c))
    ensures c.category != SummaryText ==> Offer(b, d, c).through == d.through
    ensures Refusal(b, d, c).None? ==> c.key in Offer(b, d, c).keys
    ensures Refusal(b, d, c).Some? ==> Offer(b, d, c).rows == d.rows && Offer(b, d, c).keys == d.keys
  {
    hide Refusal, CutTo, Available;
  }

  lemma GrowsOn(d: Desk, d': Desk, d'': Desk)
    requires Grown(d, d') && Grown(d', d'')
    ensures Grown(d, d'')
  {
  }

  lemma SpentStays(b: Budget, d: Desk, d': Desk, k: Category)
    requires Roomy(b, d) && Roomy(b, d') && Grown(d, d')
    ensures OwnSpent(b, d, k) ==> OwnSpent(b, d', k)
    ensures TotalSpent(b, d) ==> TotalSpent(b, d')
  {
  }

  /** The summary that stands in the context covers this message. */
  predicate Covered(c: Candidate, through: Option<int>) {
    c.category == RoomDelta && through.Some? && c.source.MessageSource? && c.source.message.sequence <= through.value
  }

  lemma RefusedWhy(b: Budget, d: Desk, c: Candidate)
    requires Roomy(b, d) && Refusal(b, d, c).Some?
    ensures Covered(c, d.through) || c.key in d.keys || OwnSpent(b, d, c.category) || TotalSpent(b, d)
  {
  }

  lemma SpentRefuses(b: Budget, d: Desk, c: Candidate)
    requires Roomy(b, d) && (OwnSpent(b, d, c.category) || TotalSpent(b, d))
    ensures Refusal(b, d, c).Some?
  {
  }

  /** Offers in one step and then the others. */
  lemma OfferFirst(b: Budget, d: Desk, c: Candidate, rest: seq<Candidate>)
    requires Roomy(b, d)
    ensures Roomy(b, Offer(b, d, c)) && OfferAll(b, d, [c] + rest) == OfferAll(b, Offer(b, d, c), rest)
  {
    OfferOne(b, d, c);
    OfferAllConcat(b, d, [c], rest);
    hide Offer;
  }

  /** While nothing is to be had for anybody, or for the one category offered, no row is added. */
  lemma {:induction false} NothingMore(b: Budget, d: Desk, cs: seq<Candidate>)
    requires Roomy(b, d) && forall c | c in cs :: OwnSpent(b, d, c.category) || TotalSpent(b, d)
    ensures OfferAll(b, d, cs).rows == d.rows && OfferAll(b, d, cs).keys == d.keys && Grown(d, OfferAll(b, d, cs))
  {
    if cs != [] {
      var front, c := cs[..|cs| - 1], cs[|cs| - 1];
      assert c in cs && forall x | x in front :: x in cs;
      NothingMore(b, d, front);
      var d1 := OfferAll(b, d, front);
      SpentStays(b, d, d1, c.category);
      SpentRefuses(b, d1, c);
      OfferGrows(b, d1, c);
      GrowsOn(d, d1, Offer(b, d1, c));
      hide Offer, Grown, OwnSpent, TotalSpent, Refusal;
    } else {
      assert Grown(d, d);
    }
  }

  lemma {:induction false} OfferAllGrows(b: Budget, d: Desk, cs: seq<Candidate>)
    requires Roomy(b, d)
    ensures Grown(d, OfferAll(b, d, cs))
  {
    if cs != [] {
      var front, c := cs[..|cs| - 1], cs[|cs| - 1];
      OfferAllGrows(b, d, front);
      OfferGrows(b, OfferAll(b, d, front), c);
      hide Offer, Grown;
      GrowsOn(d, OfferAll(b, d, front), Offer(b, OfferAll(b, d, front), c));
    } else {
      assert Grown(d, d);
    }
  }

  /** Every key taken is that of a row. */
  ghost predicate KeysShown(d: Desk) {
    forall key | key in d.keys :: exists row :: row in d.rows && row.candidate.key == key
  }

  lemma OfferShows(b: Budget, d: Desk, c: Candidate)
    requires Roomy(b, d) && KeysShown(d)
    ensures KeysShown(Offer(b, d, c))
  {
    var d' := Offer(b, d, c);
    hide CutTo, Available;
    if Refusal(b, d, c).None? {
      forall key | key in d'.keys ensures exists row :: row in d'.rows && row.candidate.key == key {
        if key in d.keys {
          var row :| row in d.rows && row.candidate.key == key;
          assert row in d'.rows;
        } else {
          assert d'.rows[|d.rows|] in d'.rows;
        }
      }
    }
    hide Refusal;
  }

  lemma {:induction false} OfferAllShows(b: Budget, d: Desk, cs: seq<Candidate>)
    requires Roomy(b, d) && KeysShown(d)
    ensures KeysShown(OfferAll(b, d, cs))
  {
    hide KeysShown, Offer;
    if cs != [] {
      OfferAllShows(b, d, cs[..|cs| - 1]);
      OfferShows(b, OfferAll(b, d, cs[..|cs| - 1]), cs[|cs| - 1]);
    }
  }

  /** What is recorded as covered is covered by a summary that stands there whole. */
  ghost predicate ThroughShown(d: Desk) {
    d.through.Some? ==>
      exists row :: row in d.rows && row.candidate.category == SummaryText && !Truncated(row)
                    && row.candidate.source.SummarySource? && row.candidate.source.summary.source.throughSequence == d.through.value
  }

  lemma OfferNotesCover(b: Budget, d: Desk, c: Candidate)
    requires Roomy(b, d) && ThroughShown(d)
    ensures ThroughShown(Offer(b, d, c))
  {
    var d' := Offer(b, d, c);
    hide Available;
    if Refusal(b, d, c).None? {
      if d'.through != d.through {
        assert d'.rows[|d.rows|] in d'.rows;
      } else if d.through.Some? {
        var row :| row in d.rows && row.candidate.category == SummaryText && !Truncated(row)
                   && row.candidate.source.SummarySource? && row.candidate.source.summary.source.throughSequence == d.through.value;
        assert row in d'.rows;
      }
    }
    hide Refusal;
  }

  lemma {:induction false} OfferAllNotesCover(b: Budget, d: Desk, cs: seq<Candidate>)
    requires Roomy(b, d) && ThroughShown(d)
    ensures ThroughShown(OfferAll(b, d, cs))
  {
    hide ThroughShown, Offer;
    if cs != [] {
      OfferAllNotesCover(b, d, cs[..|cs| - 1]);
      OfferNotesCover(b, OfferAll(b, d, cs[..|cs| - 1]), cs[|cs| - 1]);
    }
  }

  // ----- one candidate that is not shown

  /** A candidate whose key no row has in the end, and which no summary covers, was refused for a budget. */
  lemma RefusedForBudget(b: Budget, d: Desk, c: Candidate, rest: seq<Candidate>)
    requires Roomy(b, d) && c.key !in OfferAll(b, d, [c] + rest).keys && !Covered(c, OfferAll(b, d, [c] + rest).through)
    requires c.category == RoomDelta ==> forall x | x in rest :: x.category != SummaryText
    ensures OwnSpent(b, d, c.category) || TotalSpent(b, d)
  {
    var d1 := Offer(b, d, c);
    OfferFirst(b, d, c, rest);
    OfferGrows(b, d, c);
    OfferAllGrows(b, d1, rest);
    if c.category == RoomDelta { ThroughIsKept(b, d1, rest); }
    hide Offer, OfferAll, Roomy, Refusal, OwnSpent, TotalSpent;
    if Refusal(b, d, c).Some? { RefusedWhy(b, d, c); }
  }

  /** After that refusal its category gets no further row, and if the total was spent nobody does. */
  lemma NoneAfterRefusal(b: Budget, d: Desk, own: seq<Candidate>, rest: seq<Candidate>, k: Category)
    requires Roomy(b, d) && (OwnSpent(b, d, k) || TotalSpent(b, d)) && forall x | x in own :: x.category == k
    ensures OfferAll(b, d, own).rows == d.rows && Roomy(b, OfferAll(b, d, own + rest))
    ensures OfferAll(b, d, own + rest).rows == OfferAll(b, OfferAll(b, d, own), rest).rows
    ensures TotalSpent(b, d) ==> OfferAll(b, d, own + rest).rows == d.rows
    ensures OwnSpent(b, OfferAll(b, d, own + rest), k) || TotalSpent(b, OfferAll(b, d, own + rest))
    ensures OwnSpent(b, d, k) ==> OwnSpent(b, OfferAll(b, d, own + rest), k)
  {
    NothingMore(b, d, own);
    OfferAllConcat(b, d, own, rest);
    if TotalSpent(b, d) { NothingMore(b, d, own + rest); }
    OfferAllGrows(b, d, own + rest);
    SpentStays(b, d, OfferAll(b, d, own + rest), k);
    hide OfferAll, OwnSpent, TotalSpent, Grown;
  }

  // ----- the order of allocation

  function AllocationRank(c: Category): nat {
    match c
    case CurrentMessage => 0
    case SummaryText => 1
    case ReplyChain => 2
    case RoomDelta => 3
    case DocumentSlice => 4
    case RetrievalHit => 5
  }

  ghost predicate Ranked(cs: seq<Candidate>, low: int, high: int) {
    forall c | c in cs :: low <= AllocationRank(c.category) <= high
  }

  lemma OwnRank(d: Desk, k: Category, low: int, high: int)
    requires Complete(d) && OwnCategory(d) && low <= AllocationRank(k) <= high
    ensures Ranked(d.bins[k].candidates, low, high)
  {
  }

  function Earlier(d: Desk, k: Category): seq<Candidate>
    requires Complete(d)
  {
    var a, s, p, m, x := d.bins[CurrentMessage].candidates, d.bins[SummaryText].candidates, d.bins[ReplyChain].candidates,
      d.bins[RoomDelta].candidates, d.bins[DocumentSlice].candidates;
    match k
    case CurrentMessage => []
    case SummaryText => a
    case ReplyChain => a + s
    case RoomDelta => a + s + p
    case DocumentSlice => a + s + p + m
    case RetrievalHit => a + s + p + m + x
  }

  function Following(d: Desk, k: Category): seq<Candidate>
    requires Complete(d)
  {
    var s, p, m, x, h := d.bins[SummaryText].candidates, d.bins[ReplyChain].candidates, d.bins[RoomDelta].candidates,
      d.bins[DocumentSlice].candidates, d.bins[RetrievalHit].candidates;
    match k
    case CurrentMessage => s + p + m + x + h
    case SummaryText => p + m + x + h
    case ReplyChain => m + x + h
    case RoomDelta => x + h
    case DocumentSlice => h
    case RetrievalHit => []
  }

  lemma EarlierRanked(d: Desk, k: Category)
    requires Complete(d) && OwnCategory(d)
    ensures Ranked(Earlier(d, k), 0, AllocationRank(k) - 1)
  {
    SplitRanks(d, AllocationRank(k));
    hide OwnCategory;
  }

  lemma FollowingRanked(d: Desk, k: Category)
    requires Complete(d) && OwnCategory(d)
    ensures Ranked(Following(d, k), AllocationRank(k) + 1, 5)
  {
    SplitRanks(d, AllocationRank(k));
    hide OwnCategory;
  }

  /** Everything of the earlier categories is offered before, everything of the later ones after. */
  lemma SplitAt(d: Desk, k: Category)
    requires Complete(d)
    ensures InOrder(d) == Earlier(d, k) + (d.bins[k].candidates + Following(d, k))
  {
    Grouped(d.bins[CurrentMessage].candidates, d.bins[SummaryText].candidates, d.bins[ReplyChain].candidates,
            d.bins[RoomDelta].candidates, d.bins[DocumentSlice].candidates, d.bins[RetrievalHit].candidates);
  }

  lemma Grouped(a: seq<Candidate>, s: seq<Candidate>, p: seq<Candidate>, m: seq<Candidate>, x: seq<Candidate>, h: seq<Candidate>)
    ensures a + s + p + m + x + h == [] + (a + (s + p + m + x + h)) == a + (s + (p + m + x + h))
    ensures a + s + p + m + x + h == (a + s) + (p + (m + x + h)) == (a + s + p) + (m + (x + h))
    ensures a + s + p + m + x + h == (a + s + p + m) + (x + h) == (a + s + p + m + x) + (h + [])
  {
  }

  lemma SplitRanks(d: Desk, n: nat)
    requires Complete(d) && OwnCategory(d)
    ensures forall k: Category | AllocationRank(k) < n :: Ranked(d.bins[k].candidates, 0, n - 1)
    ensures forall k: Category | n < AllocationRank(k) :: Ranked(d.bins[k].candidates, n + 1, 5)
  {
    forall k: Category | AllocationRank(k) < n ensures Ranked(d.bins[k].candidates, 0, n - 1) { OwnRank(d, k, 0, n - 1); }
    forall k: Category | n < AllocationRank(k) ensures Ranked(d.bins[k].candidates, n + 1, 5) { OwnRank(d, k, n + 1, 5); }
  }

  // ----- the whole allocation

  lemma AllocatedShows(r: Request, digest: string -> string)
    requires ValidBudget(r.budget)
    ensures KeysShown(Allocated(r, digest)) && ThroughShown(Allocated(r, digest))
  {
    var d := GatheredDesk(r, digest);
    AllocatedIs(r, digest);
    assert KeysShown(d) && ThroughShown(d);
    hide GatheredDesk, InOrder, Allocated, KeysShown, ThroughShown, OfferAll;
    OfferAllShows(r.budget, d, InOrder(d));
    OfferAllNotesCover(r.budget, d, InOrder(d));
  }

  /** Rows of a category after `before` and the first part of its own candidates are of that part. */
  lemma RowsOfPart(b: Budget, d: Desk, before: seq<Candidate>, own: seq<Candidate>, k: Category)
    requires Roomy(b, d) && d.rows == [] && Ranked(before, 0, AllocationRank(k) - 1)
    ensures forall row | row in OfferAll(b, d, before + own).rows :: row.candidate in before + own
    ensures forall row | row in OfferAll(b, d, before + own).rows && row.candidate.category == k :: row.candidate in own
  {
    OfferAllExtends(b, d, before + own);
    hide OfferAll, Roomy;
  }

  lemma LaterRowsOf(b: Budget, d: Desk, after: seq<Candidate>, k: Category, row: Block)
    requires Roomy(b, d) && Ranked(after, AllocationRank(k) + 1, 5) && row in OfferAll(b, d, after).rows && row !in d.rows
    ensures AllocationRank(k) < AllocationRank(row.candidate.category)
  {
    OfferAllExtends(b, d, after);
    hide OfferAll, Roomy;
    var i :| 0 <= i < |OfferAll(b, d, after).rows| && OfferAll(b, d, after).rows[i] == row;
    if i < |d.rows| { assert false; }
  }

  /**
   * The candidate at `i` of a category, when it is not shown and not covered: a budget
   * is spent; the rows of its category are of candidates before it; and unless the
   * category's own limits are spent, no later category has a row.
   */
  lemma NotShown(r: Request, digest: string -> string, k: Category, i: nat)
    requires ValidBudget(r.budget) && k in GatheredDesk(r, digest).bins && i < |GatheredDesk(r, digest).bins[k].candidates|
    requires GatheredDesk(r, digest).bins[k].candidates[i].key !in Allocated(r, digest).keys
    requires !Covered(GatheredDesk(r, digest).bins[k].candidates[i], Allocated(r, digest).through)
    ensures Roomy(r.budget, Allocated(r, digest))
    ensures
      var (own, d) := (GatheredDesk(r, digest).bins[k].candidates, Allocated(r, digest));
      && (OwnSpent(r.budget, d, k) || TotalSpent(r.budget, d))
      && (forall row | row in d.rows && row.candidate.category == k :: row.candidate in own[..i])
      && (OwnSpent(r.budget, d, k)
          || forall row | row in d.rows :: AllocationRank(row.candidate.category) <= AllocationRank(k))
  {
    hide *;
    var (b, d) := (r.budget, GatheredDesk(r, digest));
    GatheredBins(r, digest, k);
    NothingYet(r, digest);
    AllocatedIs(r, digest);
    AllocatedFair(r, digest);
    var own := d.bins[k].candidates;
    var before, after := Earlier(d, k), Following(d, k);
    SplitAt(d, k);
    EarlierRanked(d, k);
    FollowingRanked(d, k);
    var c, rest := own[i], own[i + 1..];
    OwnAt(d, k, i);
    AtIndex(before, own, after, i);
    OfferAllConcat(b, d, before + own[..i], [c] + (rest + after));
    var d1 := OfferAll(b, d, before + own[..i]);
    NoSummaryLater(rest, after, k);
    RefusedForBudget(b, d1, c, rest + after);
    NoneAfterRefusal(b, d1, [c] + rest, after, k);
    OneMore(c, rest, after);
    RowsOfPart(b, d, before, own[..i], k);
    NotShownRows(b, d1, OfferAll(b, d1, [c] + rest), Allocated(r, digest), before, own[..i], after, k);
  }

  lemma NothingYet(r: Request, digest: string -> string)
    ensures GatheredDesk(r, digest).rows == []
  {
  }

  lemma OwnAt(d: Desk, k: Category, i: nat)
    requires Complete(d) && OwnCategory(d) && i < |d.bins[k].candidates|
    ensures d.bins[k].candidates[i].category == k && forall x | x in d.bins[k].candidates[i + 1..] :: x.category == k
    ensures forall x | x in d.bins[k].candidates[..i] :: x.category == k
    ensures forall x | x in [d.bins[k].candidates[i]] + d.bins[k].candidates[i + 1..] :: x.category == k
  {
    assert d.bins[k].candidates[i] in d.bins[k].candidates;
  }

  lemma AtIndex(before: seq<Candidate>, own: seq<Candidate>, after: seq<Candidate>, i: nat)
    requires i < |own|
    ensures before + (own + after) == (before + own[..i]) + ([own[i]] + (own[i + 1..] + after))
  {
    assert own == own[..i] + [own[i]] + own[i + 1..];
  }

  lemma OneMore(c: Candidate, rest: seq<Candidate>, after: seq<Candidate>)
    ensures [c] + (rest + after) == ([c] + rest) + after
  {
  }

  lemma NoSummaryLater(rest: seq<Candidate>, after: seq<Candidate>, k: Category)
    requires (forall x | x in rest :: x.category == k) && Ranked(after, AllocationRank(k) + 1, 5)
    ensures k == RoomDelta ==> forall x | x in rest + after :: x.category != SummaryText
  {
  }

  lemma NotShownRows(b: Budget, d1: Desk, d2: Desk, d': Desk, before: seq<Candidate>, own: seq<Candidate>, after: seq<Candidate>,
                     k: Category)
    requires Roomy(b, d1) && Roomy(b, d2) && d2.rows == d1.rows && Roomy(b, d')
    requires d'.rows == OfferAll(b, d2, after).rows && Ranked(after, AllocationRank(k) + 1, 5)
    requires Ranked(before, 0, AllocationRank(k) - 1) && forall x | x in own :: x.category == k
    requires forall row | row in d1.rows :: row.candidate in before + own
    requires forall row | row in d1.rows && row.candidate.category == k :: row.candidate in own
    requires OwnSpent(b, d1, k) || TotalSpent(b, d1)
    requires TotalSpent(b, d1) ==> d'.rows == d1.rows
    requires OwnSpent(b, d1, k) ==> OwnSpent(b, d', k)
    ensures forall row | row in d'.rows && row.candidate.category == k :: row.candidate in own
    ensures OwnSpent(b, d', k) || forall row | row in d'.rows :: AllocationRank(row.candidate.category) <= AllocationRank(k)
  {
    forall row | row in d'.rows && row.candidate.category == k ensures row.candidate in own {
      if row !in d1.rows { LaterRowsOf(b, d2, after, k, row); }
    }
    hide OfferAll, Roomy, OwnSpent;
  }

  // ----- in terms of the request and the context it gets

  /** No block stands under this key. */
  ghost predicate Missing(ctx: Context, key: string) {
    forall block | block in ctx.blocks :: block.candidate.key != key
  }

  /** No summary that stands there whole covers this sequence. */
  ghost predicate Uncovered(ctx: Context, sequence: int) {
    forall block | block in ctx.blocks && block.candidate.category == SummaryText && !Truncated(block)
                   && block.candidate.source.SummarySource? ::
      block.candidate.source.summary.source.throughSequence < sequence
  }

  ghost predicate Full(b: Budget, ctx: Context) {
    ctx.includedBlocks >= b.maxTotalBlocks || ctx.usedCharacters >= b.maxTotalCharacters
  }

  ghost predicate CategoryFull(b: Budget, ctx: Context, k: Category) {
    && k in ctx.usage && k in b.categories
    && (ctx.usage[k].included >= b.categories[k].maxBlocks || ctx.usage[k].usedCharacters >= b.categories[k].maxCharacters)
  }

  /** Why a candidate may be missing: the limits are spent, and if not its category's then no later category has a block. */
  ghost predicate Crowded(b: Budget, ctx: Context, k: Category) {
    && (CategoryFull(b, ctx, k) || Full(b, ctx))
    && (CategoryFull(b, ctx, k)
        || forall block | block in ctx.blocks :: AllocationRank(block.candidate.category) <= AllocationRank(k))
  }

  lemma BlocksOf(r: Request, digest: string -> string)
    requires Build(r, digest).Built?
    ensures ValidBudget(r.budget) && Fault(r).None?
    ensures forall block :: block in Build(r, digest).context.blocks <==> block in Allocated(r, digest).rows
    ensures Build(r, digest).context.includedBlocks == Allocated(r, digest).includedBlocks
    ensures Build(r, digest).context.usedCharacters == Allocated(r, digest).usedCharacters
    ensures forall k: Category | k in Allocated(r, digest).bins ::
      k in Build(r, digest).context.usage && Build(r, digest).context.usage[k] == Allocated(r, digest).bins[k].usage
  {
    BlocksAreRows(r, digest);
    BuiltFrom(r, digest);
    SortPermutes(Allocated(r, digest).rows, DisplayBefore);
    hide Build, Allocated, Sort, Fault;
  }

  lemma MissingKey(d: Desk, ctx: Context, key: string)
    requires KeysShown(d) && Missing(ctx, key) && forall block :: block in ctx.blocks <==> block in d.rows
    ensures key !in d.keys
  {
  }

  lemma UncoveredCandidate(d: Desk, ctx: Context, c: Candidate)
    requires ThroughShown(d) && forall block :: block in ctx.blocks <==> block in d.rows
    requires c.category == RoomDelta && c.source.MessageSource? ==> Uncovered(ctx, c.source.message.sequence)
    ensures !Covered(c, d.through)
  {
  }

  lemma CrowdedIs(b: Budget, d: Desk, ctx: Context, k: Category)
    requires Roomy(b, d) && (OwnSpent(b, d, k) || TotalSpent(b, d))
    requires OwnSpent(b, d, k) || forall row | row in d.rows :: AllocationRank(row.candidate.category) <= AllocationRank(k)
    requires forall block :: block in ctx.blocks <==> block in d.rows
    requires ctx.includedBlocks == d.includedBlocks && ctx.usedCharacters == d.usedCharacters
    requires k in ctx.usage && ctx.usage[k] == d.bins[k].usage
    ensures Crowded(b, ctx, k)
  {
  }

  /** A candidate that a category offers and that is not in the context was crowded out, by candidates offered before it. */
  lemma CrowdedOut(r: Request, digest: string -> string, k: Category, i: nat)
    requires Build(r, digest).Built? && i < |BinOf(r, digest, k).candidates|
    requires
      var (c, ctx) := (BinOf(r, digest, k).candidates[i], Build(r, digest).context);
      Missing(ctx, c.key) && (k == RoomDelta && c.source.MessageSource? ==> Uncovered(ctx, c.source.message.sequence))
    ensures Crowded(r.budget, Build(r, digest).context, k)
    ensures forall block | block in Build(r, digest).context.blocks && block.candidate.category == k ::
      block.candidate in BinOf(r, digest, k).candidates[..i]
  {
    hide *;
    BlocksOf(r, digest);
    var (d, ctx) := (Allocated(r, digest), Build(r, digest).context);
    DeskBins(r, digest, k);
    AllocatedShows(r, digest);
    MissingKey(d, ctx, BinOf(r, digest, k).candidates[i].key);
    UncoveredCandidate(d, ctx, BinOf(r, digest, k).candidates[i]);
    NotShown(r, digest, k, i);
    RoomyHas(r.budget, d, k);
    CrowdedIs(r.budget, d, ctx, k);
  }

  lemma DeskBins(r: Request, digest: string -> string, k: Category)
    ensures k in GatheredDesk(r, digest).bins && GatheredDesk(r, digest).bins[k] == BinOf(r, digest, k)
    ensures forall c | c in BinOf(r, digest, k).candidates :: c.category == k
  {
    BinsStart(r, digest, k);
    hide BinOf;
  }

  // ----- entries that may be shown

  /** The decision allows reading exactly this resource, to this session, under the current contract. */
  predicate MayRead(acl: Acl, session: Session, resource: Resource) {
    && acl.Allow? && acl.schemaVersion == CONTRACT_VERSION && acl.permission == "context.read"
    && acl.principalType == "room-agent-session" && acl.agentId == session.agentId
    && acl.organizationId == session.organizationId && acl.roomSessionId == session.roomSessionId
    && acl.resource == resource && NonEmpty(acl.policyVersion)
  }

  lemma AllowedIff(acl: Acl, session: Session, resource: Resource)
    ensures AclResult(acl, session, resource) == Allowed <==> MayRead(acl, session, resource)
  {
    hide NonEmpty;
  }

  function SameKey<T>(intake: Intake<T>, key: string): T -> bool {
    x => intake.fault(x).None? && intake.key(x) == key
  }

  /** Sound, readable, and the only sound entry under its key. */
  ghost predicate Eligible<T(!new)>(inputs: seq<T>, intake: Intake<T>, x: T) {
    && x in inputs && intake.fault(x).None? && intake.access(x) == Allowed
    && |Filter(inputs, SameKey(intake, intake.key(x)))| <= 1
  }

  lemma {:induction false} KeysCounted<T(!new)>(inputs: seq<T>, intake: Intake<T>, key: string)
    ensures Keys(Filter(inputs, Sound(intake)), intake.key)[key] == |Filter(inputs, SameKey(intake, key))|
  {
    if inputs != [] {
      var front, last := inputs[..|inputs| - 1], inputs[|inputs| - 1];
      KeysCounted(front, intake, key);
      assert inputs == front + [last];
      hide Filter;
      FilterAppend(front, last, Sound(intake));
      FilterAppend(front, last, SameKey(intake, key));
      assert Filter(front, Sound(intake)) + [] == Filter(front, Sound(intake));
      assert SameKey(intake, key)(last) <==> Sound(intake)(last) && intake.key(last) == key;
      hide Keys;
      if Sound(intake)(last) { KeyAdded(Filter(front, Sound(intake)), last, intake, key); }
    }
  }

  lemma KeyAdded<T(!new)>(s: seq<T>, x: T, intake: Intake<T>, key: string)
    ensures Keys(s + [x], intake.key)[key] == Keys(s, intake.key)[key] + if intake.key(x) == key then 1 else 0
  {
    assert (s + [x])[..|s|] == s;
    assert AsKey(intake.key)(x) == multiset{intake.key(x)};
  }

  lemma EligibleIsChosen<T(!new)>(inputs: seq<T>, intake: Intake<T>, x: T)
    requires Eligible(inputs, intake, x)
    ensures x in Chosen(inputs, intake)
  {
    var valid := Filter(inputs, Sound(intake));
    var keys := Keys(valid, intake.key);
    KeysCounted(inputs, intake, intake.key(x));
    assert keys[intake.key(x)] <= 1 && AccessReason(intake.access(x)).None?;
    assert Refused(intake, keys)(x).None?;
    assert Sound(intake)(x) && Accepted(intake, keys)(x);
    hide Keys, Sound, Accepted, Eligible;
    FilterHolds(inputs, Sound(intake), x);
    SortPermutes(valid, intake.before);
    FilterHolds(Sort(valid, intake.before), Accepted(intake, keys), x);
  }

  /** Of two chosen entries the one offered earlier is not after the other. */
  lemma ChosenSorted<T(!new)>(inputs: seq<T>, intake: Intake<T>)
    requires StrictWeakOrder(intake.before)
    ensures Sorted(Chosen(inputs, intake), intake.before)
  {
    var valid := Filter(inputs, Sound(intake));
    SortSorted(valid, intake.before);
    FilterSorted(Sort(valid, intake.before), Accepted(intake, Keys(valid, intake.key)), intake.before);
  }

  /** What an eligible entry that is missing says about the blocks of its category. */
  ghost predicate OutrankedBy<T(!new)>(ctx: Context, k: Category, intake: Intake<T>, inputs: seq<T>, x: T) {
    forall block | block in ctx.blocks && block.candidate.category == k ::
      exists y :: y in inputs && intake.card(y) == block.candidate && !intake.before(x, y)
  }

  lemma MissingEntry<T(!new)>(r: Request, digest: string -> string, k: Category, inputs: seq<T>, intake: Intake<T>, x: T)
    requires Build(r, digest).Built? && BinOf(r, digest, k) == Gathered(inputs, intake) && StrictWeakOrder(intake.before)
    requires Eligible(inputs, intake, x) && Missing(Build(r, digest).context, intake.card(x).key)
    requires k == RoomDelta && intake.card(x).source.MessageSource? ==>
      Uncovered(Build(r, digest).context, intake.card(x).source.message.sequence)
    ensures Crowded(r.budget, Build(r, digest).context, k)
    ensures OutrankedBy(Build(r, digest).context, k, intake, inputs, x)
  {
    var chosen := Chosen(inputs, intake);
    assert Gathered(inputs, intake).candidates == Cards(chosen, intake.card);
    hide Gathered, Chosen, Missing, Uncovered, Build, BinOf, Crowded;
    EligibleIsChosen(inputs, intake, x);
    ChosenSorted(inputs, intake);
    var i :| 0 <= i < |chosen| && chosen[i] == x;
    CrowdedOut(r, digest, k, i);
    forall block | block in Build(r, digest).context.blocks && block.candidate.category == k
      ensures exists y :: y in inputs && intake.card(y) == block.candidate && !intake.before(x, y)
    {
      var j :| 0 <= j < i && Cards(chosen, intake.card)[j] == block.candidate;
      ChosenEntry(inputs, intake, chosen[j]);
      assert intake.card(chosen[j]) == block.candidate && !intake.before(chosen[i], chosen[j]);
    }
  }

  // ----- the three categories that can be crowded, by their own fields

  /** A delta message that may be shown: sound, readable, and no other sound one has its id. */
  ghost predicate EligibleMessage(r: Request, x: MessageInput) {
    && x in r.roomDelta && ValidMessage(x, r.session, Some(r.currentMessage.message.sequence))
    && MayRead(x.acl, r.session, RoomOf(r))
    && |Filter(r.roomDelta, (z: MessageInput) =>
          ValidMessage(z, r.session, Some(r.currentMessage.message.sequence)) && z.message.messageId == x.message.messageId)| <= 1
  }

  lemma {:induction false} SameFilter<T>(s: seq<T>, p: T -> bool, q: T -> bool)
    requires forall x | x in s :: p(x) == q(x)
    ensures Filter(s, p) == Filter(s, q)
  {
    if s != [] {
      assert s[|s| - 1] in s && forall x | x in s[..|s| - 1] :: x in s;
      SameFilter(s[..|s| - 1], p, q);
    }
  }

  lemma MessageIsEligible(r: Request, x: MessageInput)
    requires EligibleMessage(r, x)
    ensures Eligible(r.roomDelta, DeltaIntake(r.session, r.currentMessage.message.sequence), x)
  {
    var intake := DeltaIntake(r.session, r.currentMessage.message.sequence);
    AllowedIff(x.acl, r.session, RoomOf(r));
    hide ValidMessage, MayRead, AclResult;
    SameFilter(r.roomDelta, SameKey(intake, intake.key(x)), (z: MessageInput) =>
      ValidMessage(z, r.session, Some(r.currentMessage.message.sequence)) && z.message.messageId == x.message.messageId);
  }

  lemma DeltaIsGathered(r: Request, digest: string -> string)
    ensures BinOf(r, digest, RoomDelta) == Gathered(r.roomDelta, DeltaIntake(r.session, r.currentMessage.message.sequence))
    ensures StrictWeakOrder(DeltaIntake(r.session, r.currentMessage.message.sequence).before)
  {
    DeltaOrder();
    hide Gathered, DeltaBefore;
  }

  lemma DeltaCard(r: Request, x: MessageInput)
    ensures
      var card := DeltaIntake(r.session, r.currentMessage.message.sequence).card(x);
      card.key == "room-message:" + x.message.messageId && card.source == MessageSource(x.message)
  {
  }

  /** A later message, or one of the same sequence whose id does not come after. */
  predicate NotOlderMessage(y: Message, x: Message) {
    x.sequence < y.sequence || (y.sequence == x.sequence && !TextBefore(x.messageId, y.messageId))
  }

  lemma NotOlder(r: Request, ctx: Context, x: MessageInput)
    requires OutrankedBy(ctx, RoomDelta, DeltaIntake(r.session, r.currentMessage.message.sequence), r.roomDelta, x)
    ensures forall block | block in ctx.blocks && block.candidate.category == RoomDelta ::
      block.candidate.source.MessageSource? && NotOlderMessage(block.candidate.source.message, x.message)
  {
    hide DeltaFault, AclResult, TextBefore;
    forall block | block in ctx.blocks && block.candidate.category == RoomDelta
      ensures block.candidate.source.MessageSource? && NotOlderMessage(block.candidate.source.message, x.message)
    {
      var y :| y in r.roomDelta && DeltaIntake(r.session, r.currentMessage.message.sequence).card(y) == block.candidate
               && !DeltaBefore(x, y);
    }
  }

  /**
   * A delta message that may be shown, is not covered by the summary shown and is
   * missing was crowded out, and only by messages that are not older.
   */
  lemma NewestDeltaFirst(r: Request, digest: string -> string, x: MessageInput)
    requires Build(r, digest).Built? && EligibleMessage(r, x)
    requires Missing(Build(r, digest).context, "room-message:" + x.message.messageId)
    requires Uncovered(Build(r, digest).context, x.message.sequence)
    ensures Crowded(r.budget, Build(r, digest).context, RoomDelta)
    ensures forall block | block in Build(r, digest).context.blocks && block.candidate.category == RoomDelta ::
      block.candidate.source.MessageSource? && NotOlderMessage(block.candidate.source.message, x.message)
  {
    hide *;
    MessageIsEligible(r, x);
    DeltaIsGathered(r, digest);
    DeltaCard(r, x);
    MissingEntry(r, digest, RoomDelta, r.roomDelta, DeltaIntake(r.session, r.currentMessage.message.sequence), x);
    NotOlder(r, Build(r, digest).context, x);
  }

  ghost predicate EligibleSlice(r: Request, x: Slice) {
    && x in r.slices && ValidSlice(x) && MayRead(x.acl, r.session, DocumentResource(x.documentId))
    && |Filter(r.slices, (z: Slice) => ValidSlice(z) && SliceKey(z) == SliceKey(x))| <= 1
  }

  lemma SliceIsEligible(r: Request, x: Slice)
    requires EligibleSlice(r, x)
    ensures Eligible(r.slices, SliceIntake(r.session), x)
  {
    var intake := SliceIntake(r.session);
    AllowedIff(x.acl, r.session, DocumentResource(x.documentId));
    hide ValidSlice, MayRead, AclResult, SliceKey;
    SameFilter(r.slices, SameKey(intake, intake.key(x)), (z: Slice) => ValidSlice(z) && SliceKey(z) == SliceKey(x));
  }

  lemma SlicesAreGathered(r: Request, digest: string -> string, x: Slice)
    ensures BinOf(r, digest, DocumentSlice) == Gathered(r.slices, SliceIntake(r.session))
    ensures StrictWeakOrder(SliceIntake(r.session).before) && SliceIntake(r.session).card(x) == SliceCandidate(x)
  {
    SliceOrder();
    hide Gathered, SliceBefore;
  }

  /** More relevant, or as relevant and standing no later by document, position and id. */
  predicate NotLesserSlice(y: Slice, x: Slice) {
    x.relevance < y.relevance || (y.relevance == x.relevance &&
      if y.documentId != x.documentId then !TextBefore(x.documentId, y.documentId)
      else y.start < x.start || (y.start == x.start && !TextBefore(x.sliceId, y.sliceId)))
  }

  lemma NotLessRelevant(r: Request, ctx: Context, x: Slice)
    requires OutrankedBy(ctx, DocumentSlice, SliceIntake(r.session), r.slices, x)
    ensures forall block | block in ctx.blocks && block.candidate.category == DocumentSlice ::
      block.candidate.source.SliceSource? && NotLesserSlice(block.candidate.source.slice, x)
  {
    hide ValidSlice, AclResult, SliceKey, TextBefore;
    forall block | block in ctx.blocks && block.candidate.category == DocumentSlice
      ensures block.candidate.source.SliceSource? && NotLesserSlice(block.candidate.source.slice, x)
    {
      var y :| y in r.slices && SliceIntake(r.session).card(y) == block.candidate && !SliceBefore(x, y);
    }
  }

  /** A slice that may be shown and is missing was crowded out, and only by slices that are not less relevant. */
  lemma MostRelevantSliceFirst(r: Request, digest: string -> string, x: Slice)
    requires Build(r, digest).Built? && EligibleSlice(r, x)
    requires Missing(Build(r, digest).context, SliceCandidate(x).key)
    ensures Crowded(r.budget, Build(r, digest).context, DocumentSlice)
    ensures forall block | block in Build(r, digest).context.blocks && block.candidate.category == DocumentSlice ::
      block.candidate.source.SliceSource? && NotLesserSlice(block.candidate.source.slice, x)
  {
    hide *;
    SliceIsEligible(r, x);
    SlicesAreGathered(r, digest, x);
    MissingEntry(r, digest, DocumentSlice, r.slices, SliceIntake(r.session), x);
    NotLessRelevant(r, Build(r, digest).context, x);
  }

  ghost predicate EligibleHit(r: Request, x: Hit) {
    && x in r.hits && ValidHit(x) && MayRead(x.acl, r.session, HitResource(x))
    && |Filter(r.hits, (z: Hit) => ValidHit(z) && z.hitId == x.hitId)| <= 1
  }

  lemma HitIsEligible(r: Request, x: Hit)
    requires EligibleHit(r, x)
    ensures Eligible(r.hits, HitIntake(r.session), x)
  {
    var intake := HitIntake(r.session);
    AllowedIff(x.acl, r.session, HitResource(x));
    hide ValidHit, MayRead, AclResult;
    SameFilter(r.hits, SameKey(intake, intake.key(x)), (z: Hit) => ValidHit(z) && z.hitId == x.hitId);
  }

  lemma HitsAreGathered(r: Request, digest: string -> string, x: Hit)
    ensures BinOf(r, digest, RetrievalHit) == Gathered(r.hits, HitIntake(r.session))
    ensures StrictWeakOrder(HitIntake(r.session).before)
    ensures HitIntake(r.session).card(x).key == "retrieval:" + x.hitId && HitIntake(r.session).card(x).source == HitSource(x)
  {
    HitOrder();
    hide Gathered, HitBefore;
  }

  /** Of better rank, or at the same rank of higher score, or at the same score of an id that does not come after. */
  predicate NotWorseHit(y: Hit, x: Hit) {
    y.rank < x.rank || (y.rank == x.rank && (x.score < y.score || (y.score == x.score && !TextBefore(x.hitId, y.hitId))))
  }

  lemma NotWorse(r: Request, ctx: Context, x: Hit)
    requires OutrankedBy(ctx, RetrievalHit, HitIntake(r.session), r.hits, x)
    ensures forall block | block in ctx.blocks && block.candidate.category == RetrievalHit ::
      block.candidate.source.HitSource? && NotWorseHit(block.candidate.source.hit, x)
  {
    hide ValidHit, AclResult, TextBefore;
    forall block | block in ctx.blocks && block.candidate.category == RetrievalHit
      ensures block.candidate.source.HitSource? && NotWorseHit(block.candidate.source.hit, x)
    {
      var y :| y in r.hits && HitIntake(r.session).card(y) == block.candidate && !HitBefore(x, y);
    }
  }

  /** A hit that may be shown and is missing was crowded out, and only by hits of no worse rank and, at its rank, no lower score. */
  lemma BestHitFirst(r: Request, digest: string -> string, x: Hit)
    requires Build(r, digest).Built? && EligibleHit(r, x) && Missing(Build(r, digest).context, "retrieval:" + x.hitId)
    ensures Crowded(r.budget, Build(r, digest).context, RetrievalHit)
    ensures forall block | block in Build(r, digest).context.blocks && block.candidate.category == RetrievalHit ::
      block.candidate.source.HitSource? && NotWorseHit(block.candidate.source.hit, x)
  {
    hide *;
    HitIsEligible(r, x);
    HitsAreGathered(r, digest, x);
    MissingEntry(r, digest, RetrievalHit, r.hits, HitIntake(r.session), x);
    NotWorse(r, Build(r, digest).context, x);
  }

  // ----- the summary and the replies

  /** A trustworthy summary that the session may read and that is missing was crowded out. */
  lemma SoundSummaryShown(r: Request, digest: string -> string)
    requires Build(r, digest).Built? && r.summary.Some? && MayRead(r.summary.value.acl, r.session, RoomOf(r))
    requires Trustworthy(r.summary.value.summary, r.summary.value.expected, r, digest)
    requires Missing(Build(r, digest).context, "summary:" + r.summary.value.summary.summaryId)
    ensures Crowded(r.budget, Build(r, digest).context, SummaryText)
  {
    AllowedIff(r.summary.value.acl, r.session, RoomOf(r));
    TrustworthyIff(r, digest);
    hide Build, Missing, Crowded, SummaryFault, AclResult, Uncovered, Trustworthy;
    CrowdedOut(r, digest, SummaryText, 0);
  }

  // ----- how far the reply walk goes

  /** The message at the end of a walk, and what it replies to. */
  function TipPointer(chain: seq<MessageInput>, id: Option<string>): Option<string> {
    if chain == [] then id else chain[|chain| - 1].message.replyToMessageId
  }

  function TipSequence(chain: seq<MessageInput>, before: int): int {
    if chain == [] then before else chain[|chain| - 1].message.sequence
  }

  /** This reply would lengthen the walk: the only one with the id the tip names, new, earlier, sound and readable. */
  ghost predicate Extends(r: Request, chain: seq<MessageInput>, id: Option<string>, before: int, visited: set<string>, m: MessageInput) {
    && TipPointer(chain, id) == Some(m.message.messageId) && m.message.messageId != ""
    && m.message.messageId !in visited && (forall x | x in chain :: x.message.messageId != m.message.messageId)
    && Matches(r.replyChain, m.message.messageId) == [m]
    && ValidMessage(m, r.session, Some(TipSequence(chain, before))) && MayRead(m.acl, r.session, RoomOf(r))
  }

  lemma {:induction false} WalkFromGoesOn(r: Request, id: Option<string>, before: int, visited: set<string>, m: MessageInput)
    ensures !Extends(r, WalkFrom(r, id, before, visited).ancestors, id, before, visited, m)
    decreases IdsOf(r.replyChain) - visited
  {
    var chain := WalkFrom(r, id, before, visited).ancestors;
    AllowedIff(m.acl, r.session, RoomOf(r));
    if chain != [] {
      var head := chain[0];
      assert Matches(r.replyChain, id.value) == [head];
      assert head in r.replyChain && WithId(id.value)(head);
      assert id.value in IdsOf(r.replyChain) - visited;
      var (next, at, seen) := (head.message.replyToMessageId, head.message.sequence, visited + {id.value});
      var rest := WalkFrom(r, next, at, seen).ancestors;
      assert chain == [head] + rest;
      WalkFromGoesOn(r, next, at, seen, m);
      hide WalkFrom, ValidMessage, MayRead, Matches, AclResult;
      ShorterExtends(r, head, rest, id, before, visited, m);
    }
  }

  lemma ShorterExtends(r: Request, head: MessageInput, rest: seq<MessageInput>, id: Option<string>, before: int,
                       visited: set<string>, m: MessageInput)
    requires id.Some? && head.message.messageId == id.value
    ensures Extends(r, [head] + rest, id, before, visited, m) ==>
      Extends(r, rest, head.message.replyToMessageId, head.message.sequence, visited + {id.value}, m)
  {
    hide ValidMessage, MayRead, Matches;
    assert head in [head] + rest && forall x | x in rest :: x in [head] + rest;
    assert rest != [] ==> ([head] + rest)[|[head] + rest| - 1] == rest[|rest| - 1];
  }

  /** The walk along reply pointers stops only where no reply can lengthen it. */
  lemma WalkGoesOn(r: Request, m: MessageInput)
    ensures !Extends(r, ReplyWalk(r).ancestors, r.currentMessage.message.replyToMessageId, r.currentMessage.message.sequence, {}, m)
  {
    WalkFromGoesOn(r, r.currentMessage.message.replyToMessageId, r.currentMessage.message.sequence, {}, m);
  }

  // ----- what is shown, by its own fields

  predicate InRoom(m: Message, session: Session) {
    && m.schemaVersion == CONTRACT_VERSION && m.envelopeType == "room.message" && NonEmpty(m.messageId)
    && m.organizationId == session.organizationId && m.roomId == session.roomId && 0 <= m.sequence <= MAX_SAFE_INTEGER
  }

  /** The summary is of this room, hashed, configured as asked, and says it covers what it is known to cover, all of it earlier. */
  predicate Trustworthy(s: Summary, expected: Coverage, r: Request, digest: string -> string) {
    && s.schemaVersion == CONTRACT_VERSION && s.organizationId == r.session.organizationId && s.roomId == r.session.roomId
    && NonEmpty(s.summaryId) && NonEmpty(s.content) && s.contentHash == digest(s.content) && IsDigest(s.contentHash)
    && s.source == expected && IsDigest(expected.sourceHash) && IsDigest(expected.aclHash)
    && SafeInteger(expected.fromSequence) && SafeInteger(expected.throughSequence)
    && 0 <= expected.fromSequence <= expected.throughSequence < r.currentMessage.message.sequence
    && s.configVersion == r.budget.summaryConfigVersion
  }

  lemma TrustworthyIff(r: Request, digest: string -> string)
    requires r.summary.Some?
    ensures SummaryFault(r.summary.value, r, digest).None?
       <==> Trustworthy(r.summary.value.summary, r.summary.value.expected, r, digest)
  {
    hide NonEmpty, IsDigest, SafeInteger;
  }

  /** What a thing must be to be shown in a category, and on what resource its access decision must be. */
  ghost predicate Showable(r: Request, digest: string -> string, c: Candidate) {
    match c.category
    case CurrentMessage =>
      c.source == MessageSource(r.currentMessage.message) && InRoom(r.currentMessage.message, r.session)
      && MayRead(c.acl, r.session, RoomResource(r.session.roomId))
    case SummaryText =>
      && r.summary.Some? && c.source == SummarySource(r.summary.value.summary)
      && Trustworthy(r.summary.value.summary, r.summary.value.expected, r, digest)
      && MayRead(c.acl, r.session, RoomResource(r.session.roomId))
    case DocumentSlice =>
      && c.source.SliceSource? && MayRead(c.acl, r.session, DocumentResource(c.source.slice.documentId))
      && c.content == c.source.slice.content && 0 <= c.source.slice.start
      && c.source.slice.end == c.source.slice.start + |c.content| <= MAX_SAFE_INTEGER
      && NonEmpty(c.source.slice.sliceId) && NonEmpty(c.source.slice.documentId) && NonEmpty(c.source.slice.revision)
    case RetrievalHit =>
      && c.source.HitSource? && c.content == c.source.hit.content && 0 <= c.source.hit.rank <= MAX_SAFE_INTEGER
      && NonEmpty(c.source.hit.hitId) && NonEmpty(c.source.hit.indexId) && NonEmpty(c.source.hit.indexVersion)
      && NonEmpty(c.source.hit.sourceType) && NonEmpty(c.source.hit.sourceId)
      && MayRead(c.acl, r.session, if c.source.hit.sourceType == "document" then DocumentResource(c.source.hit.sourceId)
                                   else KnowledgeResource(c.source.hit.sourceId))
    case _ =>
      && c.source.MessageSource? && InRoom(c.source.message, r.session)
      && c.source.message.sequence < r.currentMessage.message.sequence && c.content == c.source.message.text
      && MayRead(c.acl, r.session, RoomResource(r.session.roomId))
  }

  lemma MessageInRoom(x: MessageInput, session: Session, before: Option<int>)
    requires ValidMessage(x, session, before)
    ensures InRoom(x.message, session) && (before.Some? ==> x.message.sequence < before.value)
  {
    hide NonEmpty;
  }

  lemma CurrentShowable(r: Request, digest: string -> string, c: Candidate)
    requires Fault(r).None? && c in CurrentBin(r).candidates
    ensures Showable(r, digest, c)
  {
    hide ValidBudget;
    MessageInRoom(r.currentMessage, r.session, None);
    AllowedIff(r.currentMessage.acl, r.session, RoomOf(r));
    hide AclResult, MayRead, ValidMessage;
  }

  lemma SummaryShowable(r: Request, digest: string -> string, c: Candidate)
    requires c in SummaryBin(r, digest).candidates
    ensures Showable(r, digest, c)
  {
    TrustworthyIff(r, digest);
    AllowedIff(r.summary.value.acl, r.session, RoomOf(r));
    hide AclResult, MayRead, SummaryFault, Trustworthy;
  }

  lemma DeltaShowable(r: Request, digest: string -> string, c: Candidate)
    requires c in Gathered(r.roomDelta, DeltaIntake(r.session, r.currentMessage.message.sequence)).candidates
    ensures Showable(r, digest, c)
  {
    var intake := DeltaIntake(r.session, r.currentMessage.message.sequence);
    hide Gathered;
    GatheredCards(r.roomDelta, intake, c);
    var x :| x in r.roomDelta && intake.fault(x).None? && intake.access(x) == Allowed && intake.card(x) == c;
    AllowedIff(x.acl, r.session, RoomOf(r));
    hide AclResult, MayRead;
    MessageInRoom(x, r.session, Some(r.currentMessage.message.sequence));
    hide ValidMessage;
  }

  lemma SliceShowable(r: Request, digest: string -> string, c: Candidate)
    requires c in Gathered(r.slices, SliceIntake(r.session)).candidates
    ensures Showable(r, digest, c)
  {
    hide Gathered;
    GatheredCards(r.slices, SliceIntake(r.session), c);
    var x :| x in r.slices && SliceIntake(r.session).fault(x).None? && SliceIntake(r.session).access(x) == Allowed
             && SliceIntake(r.session).card(x) == c;
    AllowedIff(x.acl, r.session, DocumentResource(x.documentId));
    hide AclResult, MayRead, NonEmpty, SliceKey;
  }

  lemma HitShowable(r: Request, digest: string -> string, c: Candidate)
    requires c in Gathered(r.hits, HitIntake(r.session)).candidates
    ensures Showable(r, digest, c)
  {
    hide Gathered;
    GatheredCards(r.hits, HitIntake(r.session), c);
    var x :| x in r.hits && HitIntake(r.session).fault(x).None? && HitIntake(r.session).access(x) == Allowed
             && HitIntake(r.session).card(x) == c;
    AllowedIff(x.acl, r.session, HitResource(x));
    hide AclResult, MayRead, NonEmpty;
  }

  lemma {:induction false} AncestorsFall(r: Request, chain: seq<MessageInput>, id: Option<string>, before: int, i: nat)
    requires FollowsPointers(r, chain, id, before) && i < |chain|
    ensures chain[i].message.sequence < before && ValidMessage(chain[i], r.session, None)
    ensures AclResult(chain[i].acl, r.session, RoomOf(r)) == Allowed
  {
    assert AncestorAt(r, chain, id, before, i);
    if i > 0 { AncestorsFall(r, chain, id, before, i - 1); }
  }

  lemma ReplyShowable(r: Request, digest: string -> string, c: Candidate)
    requires c in ReplyBin(r).candidates
    ensures Showable(r, digest, c)
  {
    var (chain, m) := (ReplyWalk(r).ancestors, r.currentMessage.message);
    WalkFollows(r, m.replyToMessageId, m.sequence, {});
    var i :| 0 <= i < |chain| && MessageCandidate(chain[i], ReplyChain) == c;
    hide WalkFrom, AclResult, ValidMessage, FollowsPointers;
    AncestorsFall(r, chain, m.replyToMessageId, m.sequence, i);
    MessageInRoom(chain[i], r.session, None);
    AllowedIff(chain[i].acl, r.session, RoomOf(r));
    hide MayRead, ReplyWalk;
  }

  lemma CandidateShowable(r: Request, digest: string -> string, k: Category, c: Candidate)
    requires Fault(r).None? && c in BinOf(r, digest, k).candidates
    ensures Showable(r, digest, c)
  {
    hide Showable, Gathered, ReplyBin, SummaryBin, CurrentBin, Fault;
    match k
    case CurrentMessage => CurrentShowable(r, digest, c);
    case SummaryText => SummaryShowable(r, digest, c);
    case ReplyChain => ReplyShowable(r, digest, c);
    case RoomDelta => DeltaShowable(r, digest, c);
    case DocumentSlice => SliceShowable(r, digest, c);
    case RetrievalHit => HitShowable(r, digest, c);
  }

  /**
   * Every block shows a beginning of something that belongs there by its own fields --
   * a message of this room before the current one, a trustworthy summary, a slice as
   * long as it says, a hit -- under a decision that lets this session read just that.
   */
  lemma EveryBlockShowable(r: Request, digest: string -> string, b: Block)
    requires Build(r, digest).Built? && b in Build(r, digest).context.blocks
    ensures Showable(r, digest, b.candidate) && b.content <= b.candidate.content
  {
    hide *;
    BlocksOf(r, digest);
    var (d, d') := (GatheredDesk(r, digest), Allocated(r, digest));
    var i :| 0 <= i < |d'.rows| && d'.rows[i] == b;
    RowIsBeginning(r, digest, i);
    RowOfBin(r, digest, i);
    var k :| b.candidate in BinOf(r, digest, k).candidates;
    CandidateShowable(r, digest, k, b.candidate);
  }

  lemma RowOfBin(r: Request, digest: string -> string, i: nat)
    requires ValidBudget(r.budget) && i < |Allocated(r, digest).rows|
    ensures exists k :: Allocated(r, digest).rows[i].candidate in BinOf(r, digest, k).candidates
  {
    var d := GatheredDesk(r, digest);
    var c := Allocated(r, digest).rows[i].candidate;
    AllocatedIs(r, digest);
    OfferAllExtends(r.budget, d, InOrder(d));
    assert c in InOrder(d);
    var k := OfferedBy(d, c);
    hide OfferAll, InOrder, BinOf;
    assert d.bins[k] == BinOf(r, digest, k);
  }
}
