/**
 * What a reader of the finished context sees: every block presents one of the
 * inputs of its category, and the blocks stand in reading order.
 */
module ContextDisplay {
  import opened Prelude
  import opened Sorting
  import opened Text
  import opened ContextModel
  import opened ContextIntake
  import opened ContextAllocation
  import opened ContextGuarantees

  // ----- where a block comes from

  /** The candidate is the presentation of an input that was given for its category. */
  ghost predicate Presents(r: Request, c: Candidate) {
    match c.category
    case CurrentMessage => c == CurrentCandidate(r)
    case SummaryText => r.summary.Some? && c == SummaryCandidate(r.summary.value)
    case ReplyChain => exists x :: x in r.replyChain && c == MessageCandidate(x, ReplyChain)
    case RoomDelta => exists x :: x in r.roomDelta && c == MessageCandidate(x, RoomDelta)
    case DocumentSlice => exists x :: x in r.slices && c == SliceCandidate(x)
    case RetrievalHit => exists x :: x in r.hits && c == HitCandidate(x)
  }

  lemma SummaryPresents(r: Request, digest: string -> string, c: Candidate)
    requires c in SummaryBin(r, digest).candidates
    ensures r.summary.Some? && c == SummaryCandidate(r.summary.value)
  {
    hide SummaryReason, SummaryCandidate;
  }

  lemma ReplyPresents(r: Request, c: Candidate)
    requires c in ReplyBin(r).candidates
    ensures exists x :: x in r.replyChain && c == MessageCandidate(x, ReplyChain)
  {
    var chain := ReplyWalk(r).ancestors;
    WalkFollows(r, r.currentMessage.message.replyToMessageId, r.currentMessage.message.sequence, {});
    hide WalkFrom;
    var i :| 0 <= i < |chain| && MessageCandidate(chain[i], ReplyChain) == c;
    assert AncestorAt(r, chain, r.currentMessage.message.replyToMessageId, r.currentMessage.message.sequence, i);
    assert chain[i] in Matches(r.replyChain, chain[i].message.messageId);
  }

  lemma DeltaPresents(r: Request, c: Candidate)
    requires c in Gathered(r.roomDelta, DeltaIntake(r.session, r.currentMessage.message.sequence)).candidates
    ensures c.category == RoomDelta && exists x :: x in r.roomDelta && c == MessageCandidate(x, RoomDelta)
  {
    hide Gathered;
    GatheredCards(r.roomDelta, DeltaIntake(r.session, r.currentMessage.message.sequence), c);
  }

  lemma SlicePresents(r: Request, c: Candidate)
    requires c in Gathered(r.slices, SliceIntake(r.session)).candidates
    ensures c.category == DocumentSlice && exists x :: x in r.slices && c == SliceCandidate(x)
  {
    hide Gathered;
    GatheredCards(r.slices, SliceIntake(r.session), c);
  }

  lemma HitPresents(r: Request, c: Candidate)
    requires c in Gathered(r.hits, HitIntake(r.session)).candidates
    ensures c.category == RetrievalHit && exists x :: x in r.hits && c == HitCandidate(x)
  {
    hide Gathered;
    GatheredCards(r.hits, HitIntake(r.session), c);
  }

  lemma CurrentPresents(r: Request, c: Candidate)
    requires c in CurrentBin(r).candidates
    ensures c == CurrentCandidate(r)
  {
    hide MessageCandidate;
  }

  lemma CandidatePresents(r: Request, digest: string -> string, k: Category, c: Candidate)
    requires c in BinOf(r, digest, k).candidates
    ensures Presents(r, c)
  {
    hide Gathered, ReplyBin, SummaryBin, CurrentBin, CurrentCandidate, SummaryCandidate, SliceCandidate, HitCandidate;
    CategoryOfBin(r, digest, k, c);
    match k
    case RoomDelta => DeltaPresents(r, c);
    case DocumentSlice => SlicePresents(r, c);
    case RetrievalHit => HitPresents(r, c);
    case ReplyChain => ReplyPresents(r, c);
    case SummaryText => SummaryPresents(r, digest, c);
    case CurrentMessage => CurrentPresents(r, c);
  }

  lemma CategoryOfBin(r: Request, digest: string -> string, k: Category, c: Candidate)
    requires c in BinOf(r, digest, k).candidates
    ensures c.category == k
  {
    BinsStart(r, digest, k);
  }

  lemma RowPresents(r: Request, digest: string -> string, i: nat)
    requires ValidBudget(r.budget) && i < |Allocated(r, digest).rows|
    ensures Presents(r, Allocated(r, digest).rows[i].candidate)
  {
    hide *;
    var k := RowFromBin(r, digest, i);
    CandidatePresents(r, digest, k, Allocated(r, digest).rows[i].candidate);
  }

  lemma RowFromBin(r: Request, digest: string -> string, i: nat) returns (k: Category)
    requires ValidBudget(r.budget) && i < |Allocated(r, digest).rows|
    ensures Allocated(r, digest).rows[i].candidate in BinOf(r, digest, k).candidates
  {
    var d := GatheredDesk(r, digest);
    var c := Allocated(r, digest).rows[i].candidate;
    AllocatedIs(r, digest);
    OfferAllExtends(r.budget, d, InOrder(d));
    assert c in InOrder(d);
    k := OfferedBy(d, c);
    hide OfferAll, InOrder, Complete, BinOf, ValidBudget, Allocated;
  }

  /** Every block of a context presents one of the inputs given for its category. */
  lemma EveryBlockPresentsAnInput(r: Request, digest: string -> string, b: Block)
    requires Build(r, digest).Built? && b in Build(r, digest).context.blocks
    ensures Presents(r, b.candidate)
  {
    hide *;
    BlocksAreRows(r, digest);
    var rows := Allocated(r, digest).rows;
    SortPermutes(rows, DisplayBefore);
    var i :| 0 <= i < |rows| && rows[i] == b;
    RowPresents(r, digest, i);
  }

  // ----- what a block says it is

  /** Name, text and trust of a block are those of its source: only the current message asks, only the system instructs. */
  predicate SaysWhatItIs(c: Candidate) {
    match c.source
    case MessageSource(m) =>
      && c.sourceId == m.messageId && c.content == m.text && c.key == "room-message:" + m.messageId
      && c.trust == (if m.bySystem then ControlInstruction
                     else if c.category == CurrentMessage then UserRequest else DataOnly("room-participant"))
    case SummarySource(s) =>
      && c.category == SummaryText && c.sourceId == s.summaryId && c.content == s.content && c.key == "summary:" + s.summaryId
      && c.trust == DataOnly("derived-summary")
    case SliceSource(s) =>
      && c.category == DocumentSlice && c.sourceId == s.sliceId && c.content == s.content
      && c.trust == DataOnly("workspace-document")
    case HitSource(h) =>
      && c.category == RetrievalHit && c.sourceId == h.hitId && c.content == h.content && c.key == "retrieval:" + h.hitId
      && c.trust == DataOnly("retrieval")
  }

  lemma PresentedSays(r: Request, c: Candidate)
    requires Presents(r, c)
    ensures SaysWhatItIs(c)
  {
  }

  /**
   * Every block is named, worded and trusted after its source. Nothing but the
   * current message is a request of the user, and nothing but a message of the
   * system is an instruction; all else is data, whatever it says.
   */
  lemma TrustIsEarned(r: Request, digest: string -> string, b: Block)
    requires Build(r, digest).Built? && b in Build(r, digest).context.blocks
    ensures SaysWhatItIs(b.candidate)
    ensures b.candidate.trust == UserRequest ==>
      b.candidate.category == CurrentMessage && b.candidate.source == MessageSource(r.currentMessage.message)
    ensures b.candidate.trust == ControlInstruction <==> b.candidate.source.MessageSource? && b.candidate.source.message.bySystem
  {
    hide *;
    EveryBlockPresentsAnInput(r, digest, b);
    PresentedSays(r, b.candidate);
    TrustOf(r, b.candidate);
  }

  lemma TrustOf(r: Request, c: Candidate)
    requires SaysWhatItIs(c) && Presents(r, c)
    ensures c.trust == UserRequest ==> c.category == CurrentMessage && c.source == MessageSource(r.currentMessage.message)
    ensures c.trust == ControlInstruction <==> c.source.MessageSource? && c.source.message.bySystem
  {
  }

  // ----- reading order

  /** Category first; then a document, a number or two, and a name. */
  datatype Place = Place(rank: nat, document: string, from: int, to: int, name: string)

  /** Summary, replies, delta, slices, hits, and the current message last. */
  function ReadingRank(c: Category): nat {
    match c
    case SummaryText => 0
    case ReplyChain => 1
    case RoomDelta => 2
    case DocumentSlice => 3
    case RetrievalHit => 4
    case CurrentMessage => 5
  }

  function PlaceOf(c: Candidate): Place {
    var rank := ReadingRank(c.category);
    match c.source
    case MessageSource(m) => Place(rank, "", m.sequence, 0, m.messageId)
    case SummarySource(s) => Place(rank, "", s.source.fromSequence, 0, s.summaryId)
    case SliceSource(s) => Place(rank, s.documentId, s.start, s.end, s.sliceId)
    case HitSource(h) => Place(rank, "", h.rank, 0, h.hitId)
  }

  predicate PlaceBefore(p: Place, q: Place) {
    if p.rank != q.rank then p.rank < q.rank
    else if p.document != q.document then TextBefore(p.document, q.document)
    else if p.from != q.from then p.from < q.from
    else if p.to != q.to then p.to < q.to
    else TextBefore(p.name, q.name)
  }

  predicate Earlier(a: Block, b: Block) {
    PlaceBefore(PlaceOf(a.candidate), PlaceOf(b.candidate))
  }

  /** The display order of a candidate is read off its source. */
  predicate Shaped(c: Candidate) {
    match c.source
    case MessageSource(m) =>
      c.category in {ReplyChain, RoomDelta, CurrentMessage} && c.displayOrder == [Number(m.sequence), Word(m.messageId)]
    case SummarySource(s) => c.category == SummaryText && c.displayOrder == [Number(s.source.fromSequence), Word(s.summaryId)]
    case SliceSource(s) =>
      c.category == DocumentSlice && c.displayOrder == [Word(s.documentId), Number(s.start), Number(s.end), Word(s.sliceId)]
    case HitSource(h) => c.category == RetrievalHit && c.displayOrder == [Number(h.rank), Word(h.hitId)]
  }

  lemma PresentedIsShaped(r: Request, c: Candidate)
    requires Presents(r, c)
    ensures Shaped(c)
  {
  }

  lemma ComparePairs(m: int, s: string, n: int, t: string)
    ensures CompareTuple([Number(m), Word(s)], [Number(n), Word(t)]) < 0 <==> m < n || (m == n && TextBefore(s, t))
  {
    var a, b := [Number(m), Word(s)], [Number(n), Word(t)];
    TextOrder();
    assert a[1..] == [Word(s)] && b[1..] == [Word(t)] && [Word(s)][1..] == [] && [Word(t)][1..] == [];
    assert CompareTuple([], []) == 0;
    assert CompareTuple([Word(s)], [Word(t)]) < 0 <==> TextBefore(s, t);
  }

  lemma CompareSlices(d: string, m: int, p: int, s: string, e: string, n: int, q: int, t: string)
    ensures
      CompareTuple([Word(d), Number(m), Number(p), Word(s)], [Word(e), Number(n), Number(q), Word(t)]) < 0
      <==> TextBefore(d, e) || (d == e && (m < n || (m == n && (p < q || (p == q && TextBefore(s, t))))))
  {
    var a, b := [Word(d), Number(m), Number(p), Word(s)], [Word(e), Number(n), Number(q), Word(t)];
    TextOrder();
    assert a[1..] == [Number(m), Number(p), Word(s)] && b[1..] == [Number(n), Number(q), Word(t)];
    assert a[1..][1..] == [Number(p), Word(s)] && b[1..][1..] == [Number(q), Word(t)];
    ComparePairs(p, s, q, t);
    hide TextBefore;
  }

  lemma DisplayIsReading(a: Block, b: Block)
    requires Shaped(a.candidate) && Shaped(b.candidate)
    ensures DisplayBefore(a, b) <==> Earlier(a, b)
  {
    if a.candidate.category == b.candidate.category {
      match (a.candidate.source, b.candidate.source)
      case (MessageSource(m), MessageSource(n)) => ComparePairs(m.sequence, m.messageId, n.sequence, n.messageId);
      case (SummarySource(m), SummarySource(n)) => ComparePairs(m.source.fromSequence, m.summaryId, n.source.fromSequence, n.summaryId);
      case (HitSource(m), HitSource(n)) => ComparePairs(m.rank, m.hitId, n.rank, n.hitId);
      case (SliceSource(m), SliceSource(n)) =>
        CompareSlices(m.documentId, m.start, m.end, m.sliceId, n.documentId, n.start, n.end, n.sliceId);
        TextOrder();
      case _ => assert false;
    }
    hide CompareTuple, TextBefore;
  }

  lemma ReadingOrder()
    ensures StrictWeakOrder(Earlier)
  {
    TextOrder();
    hide TextBefore;
  }

  lemma {:induction false} InsertSame<T>(s: seq<T>, x: T, before: (T, T) -> bool, earlier: (T, T) -> bool)
    requires forall y | y in s :: before(x, y) <==> earlier(x, y)
    ensures Insert(s, x, before) == Insert(s, x, earlier)
  {
    if s != [] {
      assert s[|s| - 1] in s;
      assert forall y | y in s[..|s| - 1] :: y in s;
      InsertSame(s[..|s| - 1], x, before, earlier);
    }
  }

  /** Orders that agree on the elements sort them alike. */
  lemma {:induction false} SortSame<T>(s: seq<T>, before: (T, T) -> bool, earlier: (T, T) -> bool)
    requires forall x, y | x in s && y in s :: before(x, y) <==> earlier(x, y)
    ensures Sort(s, before) == Sort(s, earlier)
  {
    if s != [] {
      var front, last := s[..|s| - 1], s[|s| - 1];
      assert last in s && forall y | y in front :: y in s;
      SortSame(front, before, earlier);
      SortLast(s, before);
      hide Sort;
      var sorted := Sort(front, before);
      forall y | y in sorted ensures before(last, y) <==> earlier(last, y) {
        InSorted(front, before, y);
        assert y in s;
      }
      InsertSame(sorted, last, before, earlier);
      SortLast(s, earlier);
    }
  }

  lemma InSorted<T>(s: seq<T>, before: (T, T) -> bool, y: T)
    requires y in Sort(s, before)
    ensures y in s
  {
    SortPermutes(s, before);
  }

  lemma BlocksAreSorted(r: Request, digest: string -> string)
    requires Build(r, digest).Built?
    ensures Sorted(Build(r, digest).context.blocks, Earlier)
  {
    hide *;
    BlocksAreRows(r, digest);
    var rows := Allocated(r, digest).rows;
    forall i | 0 <= i < |rows| ensures Shaped(rows[i].candidate) {
      RowPresents(r, digest, i);
      PresentedIsShaped(r, rows[i].candidate);
    }
    forall x, y | x in rows && y in rows ensures DisplayBefore(x, y) <==> Earlier(x, y) { DisplayIsReading(x, y); }
    SortSame(rows, DisplayBefore, Earlier);
    ReadingOrder();
    SortSorted(rows, Earlier);
  }

  /** What it means to be read no later. */
  ghost predicate ReadBy(a: Candidate, b: Candidate) {
    && ReadingRank(a.category) <= ReadingRank(b.category)
    && (a.category == b.category ==>
          && (a.source.MessageSource? && b.source.MessageSource? ==> a.source.message.sequence <= b.source.message.sequence)
          && (a.source.SliceSource? && b.source.SliceSource? ==>
                if a.source.slice.documentId == b.source.slice.documentId then a.source.slice.start <= b.source.slice.start
                else TextBefore(a.source.slice.documentId, b.source.slice.documentId))
          && (a.source.HitSource? && b.source.HitSource? ==> a.source.hit.rank <= b.source.hit.rank))
  }

  lemma NotEarlier(a: Block, b: Block)
    requires !Earlier(b, a)
    ensures ReadBy(a.candidate, b.candidate)
  {
    if a.candidate.source.SliceSource? && b.candidate.source.SliceSource? {
      TextTotal(a.candidate.source.slice.documentId, b.candidate.source.slice.documentId);
    }
    hide TextBefore;
  }

  /**
   * The blocks stand by category -- summary, replies, delta, slices, hits, current
   * message -- and within one by message sequence, by document and position, or by
   * rank.
   */
  lemma BlocksStandInOrder(r: Request, digest: string -> string, i: nat, j: nat)
    requires Build(r, digest).Built? && i < j < |Build(r, digest).context.blocks|
    ensures ReadBy(Build(r, digest).context.blocks[i].candidate, Build(r, digest).context.blocks[j].candidate)
  {
    hide *;
    BlocksAreSorted(r, digest);
    SortedAt(Build(r, digest).context.blocks, i, j);
    NotEarlier(Build(r, digest).context.blocks[i], Build(r, digest).context.blocks[j]);
  }

  lemma SortedAt(blocks: seq<Block>, i: nat, j: nat)
    requires Sorted(blocks, Earlier) && i < j < |blocks|
    ensures !Earlier(blocks[j], blocks[i])
  {
    hide Earlier;
  }
}
