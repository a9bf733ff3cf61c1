/**
 * What the greedy allocation keeps, one candidate at a time: the ledger balances,
 * no budget is exceeded, and a truncated block closes its category.
 */
module ContextAllocation {
  import opened Prelude
  import opened Sorting
  import opened ContextModel

  function InCategory(c: Category): Block -> bool {
    (b: Block) => b.candidate.category == c
  }

  function OfCategory(c: Category): Candidate -> bool {
    (x: Candidate) => x.category == c
  }

  function RowsIn(rows: seq<Block>, c: Category): seq<Block> {
    Filter(rows, InCategory(c))
  }

  function CharacterUnits(): Block -> multiset<bool> {
    (b: Block) => multiset{}[true := |b.content|]
  }

  /** The summed lengths of the blocks' contents. */
  function Characters(rows: seq<Block>): nat {
    |SumOf(rows, CharacterUnits())|
  }

  function IsTruncated(): Block -> bool {
    (b: Block) => Truncated(b)
  }

  function CountTruncated(rows: seq<Block>): nat {
    |Filter(rows, IsTruncated())|
  }

  /** A category's counters say what its rows are, and stay within its limits. */
  ghost predicate CategoryFair(b: Budget, d: Desk, c: Category)
    requires Roomy(b, d)
  {
    var (rows, usage, limit) := (RowsIn(d.rows, c), d.bins[c].usage, b.categories[c]);
    && usage.included == |rows| && usage.usedCharacters == Characters(rows) && usage.truncated == CountTruncated(rows)
    && usage.excluded == |d.bins[c].reasons|
    && usage.included <= limit.maxBlocks && usage.usedCharacters <= limit.maxCharacters
  }

  ghost predicate TotalsFair(b: Budget, d: Desk) {
    && d.includedBlocks == |d.rows| && d.usedCharacters == Characters(d.rows)
    && d.includedBlocks <= b.maxTotalBlocks && d.usedCharacters <= b.maxTotalCharacters
  }

  /** A truncated row is the last of its category, because nothing is left to give it. */
  ghost predicate TruncationCloses(b: Budget, d: Desk)
    requires Roomy(b, d)
  {
    && (forall i | 0 <= i < |d.rows| && Truncated(d.rows[i]) :: Available(b, d, d.rows[i].candidate.category) <= 0)
    && (forall i, j | 0 <= i < j < |d.rows| && d.rows[i].candidate.category == d.rows[j].candidate.category ::
          !Truncated(d.rows[i]))
  }

  /** Rows are beginnings of what was offered, each dedupe key once. */
  ghost predicate RowsHonest(d: Desk) {
    && (forall i | 0 <= i < |d.rows| :: d.rows[i].content <= d.rows[i].candidate.content && d.rows[i].candidate.key in d.keys)
    && (forall i, j | 0 <= i < j < |d.rows| :: d.rows[i].candidate.key != d.rows[j].candidate.key)
  }

  ghost predicate Fair(b: Budget, d: Desk)
    requires Roomy(b, d)
  {
    (forall c: Category :: CategoryFair(b, d, c)) && TotalsFair(b, d) && TruncationCloses(b, d) && RowsHonest(d)
  }

  lemma AddRow(rows: seq<Block>, row: Block)
    ensures |rows + [row]| == |rows| + 1
    ensures Characters(rows + [row]) == Characters(rows) + |row.content|
    ensures CountTruncated(rows + [row]) == CountTruncated(rows) + if Truncated(row) then 1 else 0
  {
    assert (rows + [row])[..|rows|] == rows;
    assert SumOf(rows + [row], CharacterUnits()) == SumOf(rows, CharacterUnits()) + multiset{}[true := |row.content|];
  }

  lemma SelectShape(b: Budget, d: Desk, c: Candidate, d': Desk, row: Block)
    requires Roomy(b, d) && Refusal(b, d, c).None? && d' == Select(b, d, c)
    requires row == Block(c, CutTo(c.content, Available(b, d, c.category)))
    ensures d'.rows == d.rows + [row] && d'.rows[..|d.rows|] == d.rows
    ensures row.content <= c.content && |row.content| <= Available(b, d, c.category)
    ensures Truncated(row) ==> |row.content| == Available(b, d, c.category)
    ensures d'.usedCharacters == d.usedCharacters + |row.content| && d'.includedBlocks == d.includedBlocks + 1
    ensures forall k: Category | k != c.category :: d'.bins[k] == d.bins[k]
    ensures d'.bins[c.category] == d.bins[c.category].(usage := d'.bins[c.category].usage)
    ensures
      var (u, u') := (d.bins[c.category].usage, d'.bins[c.category].usage);
      u' == u.(included := u.included + 1, usedCharacters := u.usedCharacters + |row.content|,
               truncated := u.truncated + if Truncated(row) then 1 else 0)
    ensures forall k: Category ::
      RowsIn(d'.rows, k) == RowsIn(d.rows, k) + if k == c.category then [row] else []
  {
    assert (d.rows + [row])[..|d.rows|] == d.rows;
  }

  lemma SelectCategoryFair(b: Budget, d: Desk, c: Candidate, d': Desk, row: Block, k: Category)
    requires Roomy(b, d) && CategoryFair(b, d, k) && Refusal(b, d, c).None? && d' == Select(b, d, c)
    requires row == Block(c, CutTo(c.content, Available(b, d, c.category)))
    ensures CategoryFair(b, d', k)
  {
    SelectShape(b, d, c, d', row);
    var rows := RowsIn(d.rows, k);
    AddRow(rows, row);
    assert rows + [] == rows;
    hide Select, RowsIn, Characters, CountTruncated, CutTo;
  }

  /** A row cut to what its category had left leaves that category nothing. */
  lemma SelectCloses(b: Budget, d: Desk, c: Candidate, d': Desk, row: Block)
    requires Roomy(b, d) && Roomy(b, d') && TruncationCloses(b, d) && Refusal(b, d, c).None? && d' == Select(b, d, c)
    requires row == Block(c, CutTo(c.content, Available(b, d, c.category)))
    ensures TruncationCloses(b, d')
  {
    SelectShape(b, d, c, d', row);
    hide Select, RowsIn, CutTo, Refusal;
    forall i | 0 <= i < |d'.rows| && Truncated(d'.rows[i]) ensures Available(b, d', d'.rows[i].candidate.category) <= 0 {
      if i < |d.rows| { assert d'.rows[i] == d.rows[i]; }
    }
  }

  lemma SelectRoomy(b: Budget, d: Desk, c: Candidate)
    requires Roomy(b, d) && Refusal(b, d, c).None?
    ensures Roomy(b, Select(b, d, c))
  {
    hide RowsIn, CutTo;
  }

  lemma SelectTotals(b: Budget, d: Desk, c: Candidate, d': Desk, row: Block)
    requires Roomy(b, d) && Roomy(b, d') && TotalsFair(b, d) && RowsHonest(d) && Refusal(b, d, c).None? && d' == Select(b, d, c)
    requires row == Block(c, CutTo(c.content, Available(b, d, c.category)))
    ensures TotalsFair(b, d') && RowsHonest(d')
  {
    SelectShape(b, d, c, d', row);
    AddRow(d.rows, row);
    hide RowsIn, Characters, CountTruncated, CutTo;
  }

  lemma SelectFair(b: Budget, d: Desk, c: Candidate)
    requires Roomy(b, d) && Fair(b, d) && Refusal(b, d, c).None?
    ensures Roomy(b, Select(b, d, c)) && Fair(b, Select(b, d, c))
  {
    var d' := Select(b, d, c);
    var row := Block(c, CutTo(c.content, Available(b, d, c.category)));
    hide Select, CategoryFair, CutTo, Refusal, Roomy, TotalsFair, RowsHonest, TruncationCloses, Available;
    SelectRoomy(b, d, c);
    forall k: Category ensures CategoryFair(b, d', k) {
      assert CategoryFair(b, d, k);
      SelectCategoryFair(b, d, c, d', row, k);
    }
    SelectTotals(b, d, c, d', row);
    SelectCloses(b, d, c, d', row);
  }

  lemma ExcludeFair(b: Budget, d: Desk, c: Candidate, reason: Reason)
    requires Roomy(b, d) && Fair(b, d)
    ensures
      var d' := d.(bins := d.bins[c.category := Exclude(d.bins[c.category], reason, 1)]);
      Roomy(b, d') && Fair(b, d')
  {
    var d' := d.(bins := d.bins[c.category := Exclude(d.bins[c.category], reason, 1)]);
    forall k: Category ensures CategoryFair(b, d', k) {
      assert CategoryFair(b, d, k);
    }
  }

  lemma {:induction false} OfferAllFair(b: Budget, d: Desk, cs: seq<Candidate>)
    requires Roomy(b, d) && Fair(b, d)
    ensures Fair(b, OfferAll(b, d, cs))
  {
    if cs != [] {
      var front, c := OfferAll(b, d, cs[..|cs| - 1]), cs[|cs| - 1];
      OfferAllFair(b, d, cs[..|cs| - 1]);
      hide Fair;
      if Refusal(b, front, c).None? {
        SelectFair(b, front, c);
      } else {
        ExcludeFair(b, front, c, Refusal(b, front, c).value);
      }
    }
  }

  // ----- every candidate offered is included or excluded

  lemma {:induction false} OfferAllCounts(b: Budget, d: Desk, cs: seq<Candidate>, k: Category)
    requires Roomy(b, d)
    ensures
      var (u, u') := (d.bins[k].usage, OfferAll(b, d, cs).bins[k].usage);
      && u'.considered == u.considered
      && u'.included + u'.excluded == u.included + u.excluded + |Filter(cs, OfCategory(k))|
    ensures OfferAll(b, d, cs).bins[k].candidates == d.bins[k].candidates
  {
    if cs != [] {
      OfferAllCounts(b, d, cs[..|cs| - 1], k);
    }
  }

  lemma {:induction false} OfferAllConcat(b: Budget, d: Desk, a: seq<Candidate>, c: seq<Candidate>)
    requires Roomy(b, d)
    ensures OfferAll(b, d, a + c) == OfferAll(b, OfferAll(b, d, a), c)
  {
    if c == [] {
      assert a + c == a;
    } else {
      assert (a + c)[..|a + c| - 1] == a + c[..|c| - 1];
      OfferAllConcat(b, d, a, c[..|c| - 1]);
    }
  }

  lemma OfferOne(b: Budget, d: Desk, c: Candidate)
    requires Roomy(b, d)
    ensures OfferAll(b, d, [c]) == Offer(b, d, c)
  {
    var cs := [c];
    assert cs[..|cs| - 1] == [];
    assert OfferAll(b, d, cs[..|cs| - 1]) == d;
  }

  // ----- who may be in the rows

  /** Rows come from what was already there or from what was offered, in the order it was offered. */
  lemma {:induction false} OfferAllExtends(b: Budget, d: Desk, cs: seq<Candidate>)
    requires Roomy(b, d)
    ensures
      var d' := OfferAll(b, d, cs);
      && |d.rows| <= |d'.rows| && d'.rows[..|d.rows|] == d.rows
      && forall i | |d.rows| <= i < |d'.rows| :: d'.rows[i].candidate in cs
  {
    if cs != [] {
      OfferAllExtends(b, d, cs[..|cs| - 1]);
      assert forall c | c in cs[..|cs| - 1] :: c in cs;
    }
  }

  /** Candidates of other categories leave the summary's coverage alone. */
  lemma {:induction false} ThroughIsKept(b: Budget, d: Desk, cs: seq<Candidate>)
    requires Roomy(b, d) && forall c | c in cs :: c.category != SummaryText
    ensures OfferAll(b, d, cs).through == d.through
  {
    if cs != [] {
      assert cs[|cs| - 1] in cs && forall c | c in cs[..|cs| - 1] :: c in cs;
      ThroughIsKept(b, d, cs[..|cs| - 1]);
    }
  }

  ghost predicate BeyondSummary(d: Desk) {
    d.through.Some? ==>
      forall row | row in d.rows && row.candidate.category == RoomDelta && row.candidate.source.MessageSource? ::
        d.through.value < row.candidate.source.message.sequence
  }

  /** Once the summary is placed, only messages after the sequences it covers are selected from the delta. */
  lemma {:induction false} DeltaBeyondSummary(b: Budget, d: Desk, cs: seq<Candidate>)
    requires Roomy(b, d) && BeyondSummary(d) && forall c | c in cs :: c.category != SummaryText
    ensures BeyondSummary(OfferAll(b, d, cs))
  {
    if cs != [] {
      assert cs[|cs| - 1] in cs && forall c | c in cs[..|cs| - 1] :: c in cs;
      DeltaBeyondSummary(b, d, cs[..|cs| - 1]);
    }
  }

  // ----- a run of candidates of one category, none of them repeated, is served as a prefix

  /** The budgets are spent for this category: nothing more of it can be selected. */
  ghost predicate Spent(b: Budget, d: Desk, c: Category)
    requires Roomy(b, d)
  {
    d.bins[c].usage.included >= b.categories[c].maxBlocks || d.includedBlocks >= b.maxTotalBlocks || Available(b, d, c) <= 0
  }

  lemma {:induction false} KeysComeFromOffers(b: Budget, d: Desk, cs: seq<Candidate>, key: string)
    requires Roomy(b, d) && key in OfferAll(b, d, cs).keys && key !in d.keys
    ensures exists i :: 0 <= i < |cs| && cs[i].key == key
  {
    if cs != [] {
      var front := cs[..|cs| - 1];
      if key in OfferAll(b, d, front).keys {
        KeysComeFromOffers(b, d, front, key);
        var i :| 0 <= i < |front| && front[i].key == key;
        assert cs[i].key == key;
      } else {
        assert cs[|cs| - 1].key == key;
      }
    }
  }

  /** How many of a run of candidates were selected. */
  ghost predicate Prefix(d: Desk, d': Desk, cs: seq<Candidate>, n: nat) {
    && n <= |cs| && |d'.rows| == |d.rows| + n
    && forall i | 0 <= i < n :: d'.rows[|d.rows| + i].candidate == cs[i]
  }

  lemma {:induction false} PrefixServed(b: Budget, d: Desk, cs: seq<Candidate>, category: Category) returns (n: nat)
    requires Roomy(b, d) && category != RoomDelta
    requires forall i | 0 <= i < |cs| :: cs[i].category == category && cs[i].key !in d.keys
    requires forall i, j | 0 <= i < j < |cs| :: cs[i].key != cs[j].key
    ensures Prefix(d, OfferAll(b, d, cs), cs, n)
    ensures n < |cs| ==> Spent(b, OfferAll(b, d, cs), category)
  {
    if cs == [] {
      n := 0;
    } else {
      var front, c := cs[..|cs| - 1], cs[|cs| - 1];
      n := PrefixServed(b, d, front, category);
      var d1 := OfferAll(b, d, front);
      if c.key in d1.keys {
        KeysComeFromOffers(b, d, front, c.key);
      }
      PrefixStep(b, d, d1, cs, c, n, category);
      if n == |front| && Refusal(b, d1, c).None? { n := n + 1; }
    }
  }

  lemma PrefixStep(b: Budget, d: Desk, d1: Desk, cs: seq<Candidate>, c: Candidate, n: nat, category: Category)
    requires Roomy(b, d1) && cs != [] && c == cs[|cs| - 1] && c.category == category && category != RoomDelta
    requires c.key !in d1.keys && Prefix(d, d1, cs[..|cs| - 1], n) && (n < |cs| - 1 ==> Spent(b, d1, category))
    ensures
      if n == |cs| - 1 && Refusal(b, d1, c).None? then Prefix(d, Offer(b, d1, c), cs, n + 1)
      else Prefix(d, Offer(b, d1, c), cs, n) && Spent(b, Offer(b, d1, c), category)
  {
    var front := cs[..|cs| - 1];
    assert forall i | 0 <= i < |front| :: front[i] == cs[i];
  }
}
