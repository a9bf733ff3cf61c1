/**
 * What gathering keeps: every entry considered becomes a candidate or an
 * exclusion, and the outcome does not depend on the order of the entries.
 */
module ContextIntake {
  import opened Prelude
  import opened Sorting
  import opened Text
  import opened ContextModel

  // ----- the comparators

  lemma DeltaOrder()
    ensures StrictWeakOrder(DeltaBefore)
  {
    TextOrder();
  }

  lemma SliceOrder()
    ensures StrictWeakOrder(SliceBefore)
  {
    TextOrder();
  }

  lemma HitOrder()
    ensures StrictWeakOrder(HitBefore)
  {
    TextOrder();
  }

  // ----- delta, slices and hits

  /** Every entry ends up as one candidate or one counted exclusion. */
  lemma GatheredAccounts<T(!new)>(inputs: seq<T>, intake: Intake<T>)
    ensures
      var bin := Gathered(inputs, intake);
      && bin.usage.considered == |bin.candidates| + bin.usage.excluded
      && bin.usage.excluded == |bin.reasons|
      && bin.usage.included == 0 && bin.usage.usedCharacters == 0 && bin.usage.truncated == 0
  {
    var valid := Filter(inputs, Sound(intake));
    var keys := Keys(valid, intake.key);
    FilterAndSum(inputs, Sound(intake), AsBag(intake.fault));
    FilterAndSum(valid, Accepted(intake, keys), AsBag(Refused(intake, keys)));
    SortPermutes(valid, intake.before);
    FilterPermutes(Sort(valid, intake.before), valid, Accepted(intake, keys));
  }

  /** Two different accepted entries have different keys. */
  lemma AcceptedKeysDiffer<T(!new)>(valid: seq<T>, intake: Intake<T>, x: T, y: T)
    requires x in valid && y in valid && x != y
    requires Accepted(intake, Keys(valid, intake.key))(x)
    ensures intake.key(x) != intake.key(y)
  {
    var keys := Keys(valid, intake.key);
    assert Refused(intake, keys)(x).None?;
    assert keys[intake.key(x)] <= 1;
    SumHasBoth(valid, x, y, AsKey(intake.key), intake.key(x));
    assert AsKey(intake.key)(x)[intake.key(x)] == 1;
    assert intake.key(y) == intake.key(x) ==> AsKey(intake.key)(y)[intake.key(x)] == 1;
  }

  /** No two accepted entries tie, so sorting leaves their order no freedom. */
  ghost predicate Separates<T(!new)>(valid: seq<T>, intake: Intake<T>) {
    forall x, y | x in valid && y in valid && x != y && intake.key(x) != intake.key(y) ::
      intake.before(x, y) || intake.before(y, x)
  }

  /** The entries a category offers, in the order in which it offers them. */
  function Chosen<T>(inputs: seq<T>, intake: Intake<T>): seq<T> {
    var valid := Filter(inputs, Sound(intake));
    Filter(Sort(valid, intake.before), Accepted(intake, Keys(valid, intake.key)))
  }

  /** No two different accepted entries are equal in every compared field. */
  ghost predicate NoTies<T(!new)>(inputs: seq<T>, intake: Intake<T>) {
    TotalOn(Chosen(inputs, intake), intake.before)
  }

  lemma SeparateEntriesDoNotTie<T(!new)>(inputs: seq<T>, intake: Intake<T>)
    requires Separates(Filter(inputs, Sound(intake)), intake)
    ensures NoTies(inputs, intake)
  {
    var valid := Filter(inputs, Sound(intake));
    SortPermutes(valid, intake.before);
    var kept := Chosen(inputs, intake);
    forall x, y | x in kept && y in kept && x != y ensures intake.before(x, y) || intake.before(y, x) {
      AcceptedKeysDiffer(valid, intake, x, y);
    }
  }

  /** The same entries in any order give the same bin: counters, reasons and candidate sequence. */
  lemma GatheredAgrees<T(!new)>(a: seq<T>, b: seq<T>, intake: Intake<T>)
    requires multiset(a) == multiset(b) && StrictWeakOrder(intake.before) && NoTies(a, intake)
    ensures Gathered(a, intake) == Gathered(b, intake)
  {
    var va, vb := Filter(a, Sound(intake)), Filter(b, Sound(intake));
    assert |multiset(a)| == |multiset(b)|;
    FilterPermutes(a, b, Sound(intake));
    SumPermutes(va, vb, AsKey(intake.key));
    SumPermutes(a, b, AsBag(intake.fault));
    SumPermutes(va, vb, AsBag(Refused(intake, Keys(va, intake.key))));
    FilteredSortAgrees(va, vb, Accepted(intake, Keys(va, intake.key)), intake.before);
  }

  // ----- exactly when the order of the entries shows

  ghost function Either<T(!new)>(x: T, y: T): T -> bool {
    z => z == x || z == y
  }

  /** Two accepted entries that tie are offered in the order in which they came. */
  lemma TiedFollowInput<T(!new)>(inputs: seq<T>, intake: Intake<T>, x: T, y: T)
    requires Sound(intake)(x) && Sound(intake)(y)
    requires
      var accepted := Accepted(intake, Keys(Filter(inputs, Sound(intake)), intake.key));
      accepted(x) && accepted(y)
    requires Unordered(Either(x, y), intake.before)
    ensures Filter(Chosen(inputs, intake), Either(x, y)) == Filter(inputs, Either(x, y))
  {
    var valid := Filter(inputs, Sound(intake));
    var accepted := Accepted(intake, Keys(valid, intake.key));
    assert Implies(Either(x, y), Sound(intake)) && Implies(Either(x, y), accepted);
    hide Filter, Sort, Accepted, Sound, Either, Keys;
    FilterImplied(Sort(valid, intake.before), accepted, Either(x, y));
    SortStable(valid, intake.before, Either(x, y));
    FilterImplied(inputs, Sound(intake), Either(x, y));
  }

  lemma ChosenIsAccepted<T(!new)>(inputs: seq<T>, intake: Intake<T>, x: T)
    requires x in Chosen(inputs, intake)
    ensures x in inputs && Sound(intake)(x) && Accepted(intake, Keys(Filter(inputs, Sound(intake)), intake.key))(x)
  {
    SortPermutes(Filter(inputs, Sound(intake)), intake.before);
    hide Sort, Accepted, Sound, Keys;
  }

  /** The other of two elements first, and everything else in place. */
  lemma Swapped<T(!new)>(s: seq<T>, x: T, y: T) returns (b: seq<T>)
    requires x in s && y in s && x != y
    ensures multiset(b) == multiset(s) && Filter(b, Either(x, y)) != Filter(s, Either(x, y))
  {
    var i := FirstWhere(s, Either(x, y));
    var other := if s[i] == x then y else x;
    var j :| 0 <= j < |s| && s[j] == other;
    b := s[i := s[j]][j := s[i]];
    SwapPermutes(s, i, j);
    FirstKept(s, Either(x, y), i);
    FirstKept(b, Either(x, y), i);
  }

  lemma SameKeys<T(!new)>(a: seq<T>, b: seq<T>, intake: Intake<T>)
    requires multiset(a) == multiset(b)
    ensures Keys(Filter(a, Sound(intake)), intake.key) == Keys(Filter(b, Sound(intake)), intake.key)
  {
    FilterPermutes(a, b, Sound(intake));
    SumPermutes(Filter(a, Sound(intake)), Filter(b, Sound(intake)), AsKey(intake.key));
  }

  lemma TieIsUnordered<T(!new)>(x: T, y: T, before: (T, T) -> bool)
    requires !before(x, x) && !before(y, y) && !before(x, y) && !before(y, x)
    ensures Unordered(Either(x, y), before)
  {
  }

  /** If two different accepted entries tie, some arrangement of the entries is offered differently. */
  lemma TieShows<T(!new)>(inputs: seq<T>, intake: Intake<T>, x: T, y: T) returns (other: seq<T>)
    requires StrictWeakOrder(intake.before) && x in Chosen(inputs, intake) && y in Chosen(inputs, intake) && x != y
    requires !intake.before(x, y) && !intake.before(y, x)
    ensures multiset(other) == multiset(inputs) && Chosen(other, intake) != Chosen(inputs, intake)
  {
    ChosenIsAccepted(inputs, intake, x);
    ChosenIsAccepted(inputs, intake, y);
    TieIsUnordered(x, y, intake.before);
    hide *;
    other := Swapped(inputs, x, y);
    SameKeys(inputs, other, intake);
    TiedFollowInput(inputs, intake, x, y);
    TiedFollowInput(other, intake, x, y);
  }

  lemma SameCards<T(!new)>(a: seq<T>, b: seq<T>, intake: Intake<T>)
    requires Gathered(a, intake) == Gathered(b, intake) && forall x, y :: intake.card(x) == intake.card(y) ==> x == y
    ensures Chosen(a, intake) == Chosen(b, intake)
  {
    var ca, cb := Chosen(a, intake), Chosen(b, intake);
    assert Cards(ca, intake.card) == Cards(cb, intake.card);
    hide Chosen, Gathered;
    assert |Cards(ca, intake.card)| == |ca| && |Cards(cb, intake.card)| == |cb|;
    forall i | 0 <= i < |ca| ensures ca[i] == cb[i] {
      assert Cards(ca, intake.card)[i] == intake.card(ca[i]) && Cards(cb, intake.card)[i] == intake.card(cb[i]);
    }
  }

  /**
   * Every arrangement of the entries gives the same bin exactly when no two
   * different accepted entries tie.
   */
  lemma GatherOrderIff<T(!new)>(inputs: seq<T>, intake: Intake<T>)
    requires StrictWeakOrder(intake.before) && forall x, y :: intake.card(x) == intake.card(y) ==> x == y
    ensures (forall other | multiset(other) == multiset(inputs) :: Gathered(other, intake) == Gathered(inputs, intake))
            <==> NoTies(inputs, intake)
  {
    if NoTies(inputs, intake) {
      forall other | multiset(other) == multiset(inputs) ensures Gathered(other, intake) == Gathered(inputs, intake) {
        GatheredAgrees(inputs, other, intake);
      }
    } else {
      var x, y :| x in Chosen(inputs, intake) && y in Chosen(inputs, intake) && x != y
                  && !intake.before(x, y) && !intake.before(y, x);
      hide Chosen, Gathered;
      var other := TieShows(inputs, intake, x, y);
      if Gathered(other, intake) == Gathered(inputs, intake) { SameCards(other, inputs, intake); }
    }
  }

  lemma DeltaAgrees(a: seq<MessageInput>, b: seq<MessageInput>, session: Session, current: int)
    requires multiset(a) == multiset(b)
    ensures Gathered(a, DeltaIntake(session, current)) == Gathered(b, DeltaIntake(session, current))
  {
    DeltaOrder();
    TextOrder();
    SeparateEntriesDoNotTie(a, DeltaIntake(session, current));
    GatheredAgrees(a, b, DeltaIntake(session, current));
  }

  lemma SlicesAgree(a: seq<Slice>, b: seq<Slice>, session: Session)
    requires multiset(a) == multiset(b) && NoTies(a, SliceIntake(session))
    ensures Gathered(a, SliceIntake(session)) == Gathered(b, SliceIntake(session))
  {
    SliceOrder();
    hide Gathered, NoTies;
    GatheredAgrees(a, b, SliceIntake(session));
  }

  /**
   * Slices of a document can share relevance, start and slice id and still be told
   * apart by revision or end, which the comparison does not look at. The order of
   * the slices is without effect exactly when no two accepted ones do.
   */
  lemma SliceOrderIff(slices: seq<Slice>, session: Session)
    ensures (forall other | multiset(other) == multiset(slices) ::
               Gathered(other, SliceIntake(session)) == Gathered(slices, SliceIntake(session)))
            <==> (forall x, y | x in Chosen(slices, SliceIntake(session)) && y in Chosen(slices, SliceIntake(session)) && x != y ::
                    x.relevance != y.relevance || x.documentId != y.documentId || x.start != y.start || x.sliceId != y.sliceId)
  {
    SliceOrder();
    forall x, y ensures SliceIntake(session).card(x) == SliceIntake(session).card(y) ==> x == y {
      assert SliceCandidate(x).source == SliceSource(x) && SliceCandidate(y).source == SliceSource(y);
    }
    TextOrder();
    assert forall x, y :: (SliceBefore(x, y) || SliceBefore(y, x)) <==>
      (x.relevance != y.relevance || x.documentId != y.documentId || x.start != y.start || x.sliceId != y.sliceId);
    hide Gathered, Chosen, SliceBefore;
    GatherOrderIff(slices, SliceIntake(session));
  }

  /** Distinct slice ids are enough, though not needed. */
  lemma DistinctIdsDoNotTie(slices: seq<Slice>, session: Session)
    requires DistinctBy(slices, (s: Slice) => s.sliceId)
    ensures NoTies(slices, SliceIntake(session))
  {
    TextOrder();
    var kept := Chosen(slices, SliceIntake(session));
    forall x, y | x in kept && y in kept && x != y ensures SliceBefore(x, y) || SliceBefore(y, x) {
      ChosenIsAccepted(slices, SliceIntake(session), x);
      ChosenIsAccepted(slices, SliceIntake(session), y);
      KeysDiffer(slices, (s: Slice) => s.sliceId, x, y);
    }
  }

  /**
   * A pair that shows it: two sound, readable slices that tie in every compared
   * field, but cover different ranges or revisions, are offered as they came.
   */
  lemma TiedSlicesFollowInput(a: Slice, b: Slice, session: Session)
    requires ValidSlice(a) && ValidSlice(b) && SliceKey(a) != SliceKey(b)
    requires !SliceBefore(a, b) && !SliceBefore(b, a)
    requires AclResult(a.acl, session, DocumentResource(a.documentId)) == Allowed
    requires AclResult(b.acl, session, DocumentResource(b.documentId)) == Allowed
    ensures Gathered([a, b], SliceIntake(session)).candidates == [SliceCandidate(a), SliceCandidate(b)]
    ensures Gathered([a, b], SliceIntake(session)) != Gathered([b, a], SliceIntake(session))
  {
    PairOffered(a, b, session);
    PairOffered(b, a, session);
    assert SliceCandidate(a).source != SliceCandidate(b).source;
    assert Gathered([a, b], SliceIntake(session)).candidates[0] != Gathered([b, a], SliceIntake(session)).candidates[0];
  }

  lemma FilterPair<T>(a: T, b: T, keep: T -> bool)
    requires keep(a) && keep(b)
    ensures Filter([a, b], keep) == [a, b]
  {
    assert [a, b][..1] == [a] && [a][..0] == [];
    assert Filter([a], keep) == [a];
  }

  lemma PairOffered(a: Slice, b: Slice, session: Session)
    requires ValidSlice(a) && ValidSlice(b) && SliceKey(a) != SliceKey(b) && !SliceBefore(b, a)
    requires AclResult(a.acl, session, DocumentResource(a.documentId)) == Allowed
    requires AclResult(b.acl, session, DocumentResource(b.documentId)) == Allowed
    ensures Gathered([a, b], SliceIntake(session)).candidates == [SliceCandidate(a), SliceCandidate(b)]
  {
    var intake := SliceIntake(session);
    var keys := Keys([a, b], intake.key);
    PairKeys(a, b, intake.key);
    assert intake.key(a) == SliceKey(a) && intake.key(b) == SliceKey(b);
    assert Refused(intake, keys)(a).None? && Refused(intake, keys)(b).None?;
    assert Accepted(intake, keys)(a) && Accepted(intake, keys)(b) && Sound(intake)(a) && Sound(intake)(b);
    assert intake.card(a) == SliceCandidate(a) && intake.card(b) == SliceCandidate(b) && intake.before == SliceBefore;
    FilterPair(a, b, Sound(intake));
    FilterPair(a, b, Accepted(intake, keys));
    SortPair(a, b);
    assert intake.card(a) == SliceCandidate(a);
    GatheredPair(a, b, intake, keys);
  }

  /** Two entries that pass every check are offered as sorted. */
  lemma GatheredPair<T>(a: T, b: T, intake: Intake<T>, keys: multiset<string>)
    requires Filter([a, b], Sound(intake)) == [a, b] && Sort([a, b], intake.before) == [a, b]
    requires keys == Keys([a, b], intake.key) && Filter([a, b], Accepted(intake, keys)) == [a, b]
    ensures Gathered([a, b], intake).candidates == [intake.card(a), intake.card(b)]
  {
    hide Filter, Sort, Keys, Accepted, Sound;
  }

  lemma PairKeys(a: Slice, b: Slice, key: Slice -> string)
    requires key(a) != key(b)
    ensures Keys([a, b], key)[key(a)] == 1 && Keys([a, b], key)[key(b)] == 1
  {
    var of := AsKey(key);
    SumConcat([a], [b], of);
    assert [a] + [b] == [a, b];
    forall x: Slice ensures SumOf([x], of) == multiset{key(x)} {
      assert [x][..0] == [];
      assert SumOf([x][..0], of) == multiset{};
      assert of(x) == multiset{key(x)};
    }
    assert Keys([a, b], key) == multiset{key(a)} + multiset{key(b)};
  }

  lemma SortPair(a: Slice, b: Slice)
    requires !SliceBefore(b, a)
    ensures Sort([a, b], SliceBefore) == [a, b]
  {
    assert [a, b][..1] == [a] && [a][..0] == [];
    assert Sort([a], SliceBefore) == [a];
  }

  lemma HitsAgree(a: seq<Hit>, b: seq<Hit>, session: Session)
    requires multiset(a) == multiset(b)
    ensures Gathered(a, HitIntake(session)) == Gathered(b, HitIntake(session))
  {
    HitOrder();
    TextOrder();
    SeparateEntriesDoNotTie(a, HitIntake(session));
    GatheredAgrees(a, b, HitIntake(session));
  }

  // ----- replies

  function Unvisited(visited: set<string>): MessageInput -> bool {
    (x: MessageInput) => x.message.messageId !in visited
  }

  lemma {:induction false} MatchesAreUnvisited(replies: seq<MessageInput>, id: string, visited: set<string>)
    requires id !in visited
    ensures |Matches(replies, id)| + |Filter(replies, Unvisited(visited + {id}))| == |Filter(replies, Unvisited(visited))|
  {
    if replies != [] {
      MatchesAreUnvisited(replies[..|replies| - 1], id, visited);
    }
  }

  lemma Repeated(reason: Reason, n: nat)
    ensures |Times(reason, n)| == n
  {
  }

  /** The walk never consumes a reply twice. */
  lemma {:induction false} WalkConsumes(r: Request, id: Option<string>, before: int, visited: set<string>)
    ensures WalkFrom(r, id, before, visited).consumed <= |Filter(r.replyChain, Unvisited(visited))|
    decreases IdsOf(r.replyChain) - visited
  {
    if id.Some? && id.value != "" && id.value !in visited {
      var matches := Matches(r.replyChain, id.value);
      MatchesAreUnvisited(r.replyChain, id.value, visited);
      if |matches| == 1 {
        assert matches[0] in r.replyChain && WithId(id.value)(matches[0]);
        assert id.value in IdsOf(r.replyChain) - visited;
        WalkConsumes(r, matches[0].message.replyToMessageId, matches[0].message.sequence, visited + {id.value});
      }
    }
    hide Filter, Matches, IdsOf, Times, ValidMessage, AclResult;
  }

  /** Every reply the walk consumes is an ancestor or excluded; meeting an id again adds one exclusion. */
  lemma {:induction false} WalkAccounts(r: Request, id: Option<string>, before: int, visited: set<string>)
    ensures
      var walk := WalkFrom(r, id, before, visited);
      walk.consumed + (if walk.revisited then 1 else 0) == |walk.ancestors| + |walk.reasons|
    decreases IdsOf(r.replyChain) - visited
  {
    if id.Some? && id.value != "" && id.value !in visited {
      var matches := Matches(r.replyChain, id.value);
      Repeated(DuplicateSource, |matches|);
      if |matches| == 1 {
        assert matches[0] in r.replyChain && WithId(id.value)(matches[0]);
        assert id.value in IdsOf(r.replyChain) - visited;
        WalkAccounts(r, matches[0].message.replyToMessageId, matches[0].message.sequence, visited + {id.value});
      }
    }
    hide Matches, IdsOf, Times, ValidMessage, AclResult, AccessReason;
  }

  lemma ReplyAccounts(r: Request)
    ensures
      var bin := ReplyBin(r);
      && bin.usage.considered + (if ReplyWalk(r).revisited then 1 else 0) == |bin.candidates| + bin.usage.excluded
      && bin.usage.excluded == |bin.reasons|
      && bin.usage.included == 0 && bin.usage.usedCharacters == 0 && bin.usage.truncated == 0
  {
    WalkAccounts(r, r.currentMessage.message.replyToMessageId, r.currentMessage.message.sequence, {});
    WalkConsumes(r, r.currentMessage.message.replyToMessageId, r.currentMessage.message.sequence, {});
    assert |Filter(r.replyChain, Unvisited({}))| <= |r.replyChain|;
  }

  /** What it means to follow reply pointers from a message: each ancestor is the unique reply its child names. */
  ghost predicate AncestorAt(r: Request, chain: seq<MessageInput>, id: Option<string>, before: int, i: nat)
    requires i < |chain|
  {
    && (if i == 0 then id else chain[i - 1].message.replyToMessageId) == Some(chain[i].message.messageId)
    && Matches(r.replyChain, chain[i].message.messageId) == [chain[i]]
    && chain[i].message.sequence < (if i == 0 then before else chain[i - 1].message.sequence)
    && ValidMessage(chain[i], r.session, None)
    && AclResult(chain[i].acl, r.session, RoomOf(r)) == Allowed
  }

  ghost predicate FollowsPointers(r: Request, chain: seq<MessageInput>, id: Option<string>, before: int) {
    forall i | 0 <= i < |chain| :: AncestorAt(r, chain, id, before, i)
  }

  lemma {:induction false} WalkFollows(r: Request, id: Option<string>, before: int, visited: set<string>)
    ensures FollowsPointers(r, WalkFrom(r, id, before, visited).ancestors, id, before)
    decreases IdsOf(r.replyChain) - visited
  {
    var walk := WalkFrom(r, id, before, visited);
    if walk.ancestors != [] {
      var head := walk.ancestors[0];
      assert Matches(r.replyChain, id.value) == [head];
      assert head in r.replyChain && WithId(id.value)(head);
      assert id.value in IdsOf(r.replyChain) - visited;
      var rest := WalkFrom(r, head.message.replyToMessageId, head.message.sequence, visited + {id.value});
      WalkFollows(r, head.message.replyToMessageId, head.message.sequence, visited + {id.value});
      assert walk.ancestors == [head] + rest.ancestors;
      assert walk.ancestors[0] == head && forall i | 0 < i < |walk.ancestors| :: walk.ancestors[i] == rest.ancestors[i - 1];
      forall i | 0 <= i < |walk.ancestors| ensures AncestorAt(r, walk.ancestors, id, before, i) {
        if 0 < i {
          assert AncestorAt(r, rest.ancestors, head.message.replyToMessageId, head.message.sequence, i - 1);
        }
      }
    }
  }

  lemma SameMatches(a: seq<MessageInput>, b: seq<MessageInput>, id: string)
    requires multiset(a) == multiset(b)
    ensures |Matches(a, id)| == |Matches(b, id)|
    ensures |Matches(a, id)| == 1 ==> Matches(a, id) == Matches(b, id)
  {
    FilterPermutes(a, b, WithId(id));
    if |Matches(a, id)| == 1 {
      assert Matches(a, id)[0] in multiset(Matches(b, id));
    }
  }

  lemma {:induction false} WalkAgrees(r: Request, r': Request, id: Option<string>, before: int, visited: set<string>)
    requires r'.session == r.session && multiset(r.replyChain) == multiset(r'.replyChain)
    ensures WalkFrom(r, id, before, visited) == WalkFrom(r', id, before, visited)
    decreases IdsOf(r.replyChain) - visited
  {
    if id.Some? && id.value != "" && id.value !in visited {
      var matches := Matches(r.replyChain, id.value);
      SameMatches(r.replyChain, r'.replyChain, id.value);
      if |matches| == 1 {
        assert matches[0] in r.replyChain && WithId(id.value)(matches[0]);
        assert id.value in IdsOf(r.replyChain) - visited;
        WalkAgrees(r, r', matches[0].message.replyToMessageId, matches[0].message.sequence, visited + {id.value});
      }
    }
  }

  lemma RepliesAgree(r: Request, r': Request)
    requires r'.session == r.session && r'.currentMessage == r.currentMessage
    requires multiset(r.replyChain) == multiset(r'.replyChain)
    ensures ReplyBin(r) == ReplyBin(r')
  {
    assert |multiset(r.replyChain)| == |multiset(r'.replyChain)|;
    WalkAgrees(r, r', r.currentMessage.message.replyToMessageId, r.currentMessage.message.sequence, {});
  }
}
