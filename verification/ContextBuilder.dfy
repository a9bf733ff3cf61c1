/**
 * The builder itself: loops that count, group, filter, sort and allocate by
 * updating local counters, maps, sets and lists, proved to compute the context
 * that the model describes.
 */
module ContextBuilder {
  import opened Prelude
  import opened Sorting
  import opened Text
  import opened ContextModel
  import opened ContextIntake
  import opened ContextAllocation

  // ----- delta, slices and hits

  /** Counts, filters, sorts, drops repeated entries and checks access, for delta, slices and hits alike. */
  method Gather<T(!new)>(inputs: seq<T>, intake: Intake<T>) returns (bin: Bin)
    ensures bin == Gathered(inputs, intake)
  {
    bin := Consider(EMPTY_BIN, |inputs|);
    var valid: seq<T> := [];
    var i := 0;
    while i < |inputs|
      invariant 0 <= i <= |inputs|
      invariant valid == Filter(inputs[..i], Sound(intake))
      invariant bin == Partial(|inputs|, Bag(inputs[..i], intake.fault), [])
    {
      StepFault(inputs, i, intake.fault, |inputs|);
      StepFilter(inputs, i, Sound(intake));
      var fault := intake.fault(inputs[i]);
      if fault.Some? {
        bin := Exclude(bin, fault.value, 1);
      } else {
        valid := valid + [inputs[i]];
      }
      i := i + 1;
    }
    assert inputs[..i] == inputs;
    var ordered := Sort(valid, intake.before);
    GatheredFromSorted(inputs, intake, ordered);
    bin := AddSorted(bin, ordered, intake, |inputs|, Bag(inputs, intake.fault));
  }

  /** Of the sorted entries, adds those with a key of their own that the session may read. */
  method AddSorted<T(!new)>(start: Bin, ordered: seq<T>, intake: Intake<T>, ghost n: nat, ghost faults: multiset<Reason>)
    returns (bin: Bin)
    requires start == Partial(n, faults, [])
    ensures
      var keys := Keys(ordered, intake.key);
      bin == Partial(n, faults + Bag(ordered, Refused(intake, keys)), Cards(Filter(ordered, Accepted(intake, keys)), intake.card))
  {
    var counts := CountKeys(ordered, intake.key);
    ghost var keys := Keys(ordered, intake.key);
    bin := start;
    assert faults + Bag(ordered[..0], Refused(intake, keys)) == faults;
    assert Cards(Filter(ordered[..0], Accepted(intake, keys)), intake.card) == [];
    var i := 0;
    while i < |ordered|
      invariant 0 <= i <= |ordered|
      invariant bin == Partial(n, faults + Bag(ordered[..i], Refused(intake, keys)),
        Cards(Filter(ordered[..i], Accepted(intake, keys)), intake.card))
    {
      var entry := ordered[i];
      StepOffer(ordered, i, intake, keys, n, faults);
      if intake.key(entry) in counts && counts[intake.key(entry)] > 1 {
        bin := Exclude(bin, DuplicateSource, 1);
      } else {
        var access := intake.access(entry);
        if access != Allowed {
          bin := Exclude(bin, if access == Denied then AclDenied else AclBindingMismatch, 1);
        } else {
          bin := Add(bin, intake.card(entry));
        }
      }
      i := i + 1;
    }
    assert ordered[..i] == ordered;
  }

  lemma StepFault<T>(s: seq<T>, i: nat, why: T -> Option<Reason>, n: nat)
    requires i < |s|
    ensures
      if why(s[i]).None? then Bag(s[..i + 1], why) == Bag(s[..i], why)
      else Exclude(Partial(n, Bag(s[..i], why), []), why(s[i]).value, 1) == Partial(n, Bag(s[..i + 1], why), [])
  {
    StepBag(s, i, why, n, multiset{}, []);
    assert multiset{} + Bag(s[..i], why) == Bag(s[..i], why);
    assert multiset{} + Bag(s[..i + 1], why) == Bag(s[..i + 1], why);
  }

  lemma GatheredFromSorted<T(!new)>(inputs: seq<T>, intake: Intake<T>, ordered: seq<T>)
    requires ordered == Sort(Filter(inputs, Sound(intake)), intake.before)
    ensures
      var keys := Keys(ordered, intake.key);
      Gathered(inputs, intake) == Partial(|inputs|, Bag(inputs, intake.fault) + Bag(ordered, Refused(intake, keys)),
        Cards(Filter(ordered, Accepted(intake, keys)), intake.card))
  {
    var valid := Filter(inputs, Sound(intake));
    SortPermutes(valid, intake.before);
    SumPermutes(ordered, valid, AsKey(intake.key));
    SumPermutes(ordered, valid, AsBag(Refused(intake, Keys(valid, intake.key))));
  }

  /** One entry of the sorted list: refused and counted, or added. */
  lemma StepOffer<T(!new)>(s: seq<T>, i: nat, intake: Intake<T>, keys: multiset<string>, n: nat, faults: multiset<Reason>)
    requires i < |s|
    ensures
      var why := if keys[intake.key(s[i])] > 1 then Some(DuplicateSource) else AccessReason(intake.access(s[i]));
      var now := Partial(n, faults + Bag(s[..i], Refused(intake, keys)), Cards(Filter(s[..i], Accepted(intake, keys)), intake.card));
      var next := Partial(n, faults + Bag(s[..i + 1], Refused(intake, keys)),
                          Cards(Filter(s[..i + 1], Accepted(intake, keys)), intake.card));
      next == if why.Some? then Exclude(now, why.value, 1) else Add(now, intake.card(s[i]))
  {
    var chosen := Filter(s[..i], Accepted(intake, keys));
    StepBag(s, i, Refused(intake, keys), n, faults, Cards(chosen, intake.card));
    StepFilter(s, i, Accepted(intake, keys));
    StepCards(chosen, s[i], intake.card);
  }

  lemma StepBag<T>(s: seq<T>, i: nat, why: T -> Option<Reason>, n: nat, before: multiset<Reason>, cs: seq<Candidate>)
    requires i < |s|
    ensures s[..i + 1][..i] == s[..i]
    ensures
      var reason := why(s[i]);
      if reason.None? then Bag(s[..i + 1], why) == Bag(s[..i], why)
      else Exclude(Partial(n, before + Bag(s[..i], why), cs), reason.value, 1) == Partial(n, before + Bag(s[..i + 1], why), cs)
  {
    assert s[..i + 1][..i] == s[..i];
    var reason := why(s[i]);
    if reason.Some? {
      assert Times(reason.value, 1) == multiset{reason.value};
      assert Bag(s[..i + 1], why) == Bag(s[..i], why) + multiset{reason.value};
    } else {
      assert Bag(s[..i + 1], why) == Bag(s[..i], why) + multiset{};
    }
  }

  lemma StepFilter<T>(s: seq<T>, i: nat, keep: T -> bool)
    requires i < |s|
    ensures Filter(s[..i + 1], keep) == Filter(s[..i], keep) + if keep(s[i]) then [s[i]] else []
  {
    assert s[..i + 1][..i] == s[..i];
  }

  lemma StepCards<T>(s: seq<T>, x: T, card: T -> Candidate)
    ensures Cards(s + [x], card) == Cards(s, card) + [card(x)]
  {
  }

  /** A bin part-way through gathering. */
  function Partial(considered: nat, reasons: multiset<Reason>, candidates: seq<Candidate>): Bin {
    Bin(Usage(considered, 0, |reasons|, 0, 0), reasons, candidates)
  }

  /** How often each key occurs. */
  method CountKeys<T(!new)>(s: seq<T>, key: T -> string) returns (counts: map<string, nat>)
    ensures forall k :: (if k in counts then counts[k] else 0) == Keys(s, key)[k]
  {
    counts := map[];
    var i := 0;
    while i < |s|
      invariant 0 <= i <= |s|
      invariant forall k :: (if k in counts then counts[k] else 0) == Keys(s[..i], key)[k]
    {
      assert s[..i + 1][..i] == s[..i];
      var k := key(s[i]);
      counts := counts[k := (if k in counts then counts[k] else 0) + 1];
      i := i + 1;
    }
    assert s[..i] == s;
  }

  // ----- current message and summary

  method TakeSummary(r: Request, digest: string -> string) returns (bin: Bin)
    ensures bin == SummaryBin(r, digest)
  {
    bin := EMPTY_BIN;
    if r.summary.Some? {
      bin := Consider(bin, 1);
      var access := AclResult(r.summary.value.acl, r.session, RoomOf(r));
      if access != Allowed {
        bin := Exclude(bin, if access == Denied then AclDenied else AclBindingMismatch, 1);
      } else {
        var fault := SummaryFault(r.summary.value, r, digest);
        if fault.Some? {
          bin := Exclude(bin, fault.value, 1);
        } else {
          bin := Add(bin, SummaryCandidate(r.summary.value));
        }
      }
    }
  }

  // ----- the reply chain

  /** The replies with each id, in the order they came; an id without replies has no entry. */
  ghost predicate Groups(replies: seq<MessageInput>, groups: map<string, seq<MessageInput>>) {
    forall id: string ::
      if id in groups then groups[id] == Matches(replies, id) && groups[id] != [] else Matches(replies, id) == []
  }

  lemma GroupOneMore(replies: seq<MessageInput>, i: nat, groups: map<string, seq<MessageInput>>,
                     list: seq<MessageInput>, grown: map<string, seq<MessageInput>>)
    requires i < |replies| && Groups(replies[..i], groups)
    requires list == if replies[i].message.messageId in groups then groups[replies[i].message.messageId] else []
    requires grown == groups[replies[i].message.messageId := list + [replies[i]]]
    ensures Groups(replies[..i + 1], grown)
  {
    hide Matches;
    forall id: string
      ensures if id in grown then grown[id] == Matches(replies[..i + 1], id) && grown[id] != [] else Matches(replies[..i + 1], id) == []
    {
      MatchOneMore(replies, i, id);
    }
  }

  lemma MatchOneMore(replies: seq<MessageInput>, i: nat, id: string)
    requires i < |replies|
    ensures Matches(replies[..i + 1], id)
         == Matches(replies[..i], id) + if id == replies[i].message.messageId then [replies[i]] else []
  {
    StepFilter(replies, i, WithId(id));
  }

  lemma NoGroups(replies: seq<MessageInput>)
    ensures Groups(replies[..0], map[])
  {
  }

  method GroupById(replies: seq<MessageInput>) returns (groups: map<string, seq<MessageInput>>)
    ensures Groups(replies, groups)
  {
    hide *;
    groups := map[];
    var i := 0;
    NoGroups(replies);
    while i < |replies|
      invariant 0 <= i <= |replies| && Groups(replies[..i], groups)
    {
      var id := replies[i].message.messageId;
      var list := if id in groups then groups[id] else [];
      GroupOneMore(replies, i, groups, list, groups[id := list + [replies[i]]]);
      groups := groups[id := list + [replies[i]]];
      i := i + 1;
    }
    assert replies[..i] == replies;
  }

  lemma Lookup(replies: seq<MessageInput>, groups: map<string, seq<MessageInput>>, id: string)
    requires Groups(replies, groups)
    ensures if id in groups then groups[id] == Matches(replies, id) && groups[id] != [] else Matches(replies, id) == []
  {
  }

  function Shown(chain: seq<MessageInput>): seq<Candidate> {
    Cards(chain, (x: MessageInput) => MessageCandidate(x, ReplyChain))
  }

  /** The whole walk is what has been gathered so far and what remains of it. */
  ghost predicate Remaining(r: Request, rest: Walk, ancestors: seq<MessageInput>, consumed: nat) {
    var walk := ReplyWalk(r);
    walk.ancestors == ancestors + rest.ancestors && walk.reasons == rest.reasons && walk.consumed == consumed + rest.consumed
  }

  lemma OneStep(r: Request, id: string, before: int, visited: set<string>, ancestors: seq<MessageInput>, consumed: nat)
    requires id != "" && id !in visited && |Matches(r.replyChain, id)| == 1
    requires Remaining(r, WalkFrom(r, Some(id), before, visited), ancestors, consumed)
    ensures
      var reply := Matches(r.replyChain, id)[0];
      var reason := AccessReason(AclResult(reply.acl, r.session, RoomOf(r)));
      if !ValidMessage(reply, r.session, Some(before)) then
        Remaining(r, Walk([], multiset{InvalidSource}, 0, false), ancestors, consumed + 1)
      else if reason.Some? then
        Remaining(r, Walk([], multiset{reason.value}, 0, false), ancestors, consumed + 1)
      else
        && id in IdsOf(r.replyChain) - visited
        && Remaining(r, WalkFrom(r, reply.message.replyToMessageId, reply.message.sequence, visited + {id}),
                     ancestors + [reply], consumed + 1)
  {
    var reply := Matches(r.replyChain, id)[0];
    assert reply in r.replyChain && WithId(id)(reply);
    var rest := WalkFrom(r, reply.message.replyToMessageId, reply.message.sequence, visited + {id});
    assert ancestors + ([reply] + rest.ancestors) == (ancestors + [reply]) + rest.ancestors;
  }

  /** The walk is over: the bin holds all of it. */
  ghost predicate Walked(r: Request, bin: Bin, consumed: nat) {
    bin == Partial(|r.replyChain|, ReplyWalk(r).reasons, Shown(ReplyWalk(r).ancestors)) && consumed == ReplyWalk(r).consumed
  }

  lemma Stop(r: Request, rest: Walk, ancestors: seq<MessageInput>, consumed: nat, bin: Bin)
    requires Remaining(r, rest, ancestors, consumed) && rest.ancestors == []
    requires bin == Partial(|r.replyChain|, rest.reasons, Shown(ancestors))
    ensures Walked(r, bin, consumed + rest.consumed)
  {
    assert ancestors + [] == ancestors;
  }

  lemma Unused(r: Request, bin: Bin, consumed: nat)
    requires Walked(r, bin, consumed)
    ensures ReplyBin(r) ==
      if |r.replyChain| > consumed then Exclude(bin, NotReplyAncestor, |r.replyChain| - consumed) else bin
  {
    assert ReplyWalk(r).reasons + Times(NotReplyAncestor, 0) == ReplyWalk(r).reasons;
  }

  lemma StepExclude(n: nat, cs: seq<Candidate>, reason: Reason, count: nat)
    ensures Exclude(Partial(n, multiset{}, cs), reason, count) == Partial(n, Times(reason, count), cs)
    ensures Times(reason, 1) == multiset{reason}
  {
    assert multiset{} + Times(reason, count) == Times(reason, count);
  }

  /** Where a walk stops before it looks at a reply. */
  lemma WalkEnds(r: Request, id: Option<string>, before: int, visited: set<string>)
    ensures id.None? || id.value == "" ==> WalkFrom(r, id, before, visited) == Walk([], multiset{}, 0, false)
    ensures id.Some? && id.value != "" && id.value in visited ==>
      WalkFrom(r, id, before, visited) == Walk([], multiset{InvalidReplyChain}, 0, true)
    ensures id.Some? && id.value != "" && id.value !in visited && |Matches(r.replyChain, id.value)| != 1 ==>
      var n := |Matches(r.replyChain, id.value)|;
      WalkFrom(r, id, before, visited) == Walk([], Times(DuplicateSource, n), n, false)
  {
    hide Matches;
    assert Times(DuplicateSource, 0) == multiset{};
  }

  lemma WalkStarts(r: Request)
    ensures Remaining(r, WalkFrom(r, r.currentMessage.message.replyToMessageId, r.currentMessage.message.sequence, {}), [], 0)
    ensures Consider(EMPTY_BIN, |r.replyChain|) == Partial(|r.replyChain|, multiset{}, Shown([]))
  {
    hide WalkFrom;
  }

  lemma ShowOneMore(n: nat, ancestors: seq<MessageInput>, reply: MessageInput)
    ensures Add(Partial(n, multiset{}, Shown(ancestors)), MessageCandidate(reply, ReplyChain))
         == Partial(n, multiset{}, Shown(ancestors + [reply]))
  {
    StepCards(ancestors, reply, (x: MessageInput) => MessageCandidate(x, ReplyChain));
  }

  lemma NothingExcluded(reason: Reason)
    ensures Times(reason, 0) == multiset{}
  {
  }

  lemma ReasonOf(access: Access)
    ensures AccessReason(access) ==
      if access == Allowed then None else Some(if access == Denied then AclDenied else AclBindingMismatch)
  {
  }

  method WalkReplies(r: Request) returns (bin: Bin)
    ensures bin == ReplyBin(r)
  {
    hide *;
    bin := Consider(EMPTY_BIN, |r.replyChain|);
    var groups := GroupById(r.replyChain);
    var consumed: nat := 0;
    var visited: set<string> := {};
    var replyId := r.currentMessage.message.replyToMessageId;
    var before := r.currentMessage.message.sequence;
    ghost var ancestors: seq<MessageInput> := [];
    WalkStarts(r);
    while replyId.Some? && replyId.value != ""
      invariant bin == Partial(|r.replyChain|, multiset{}, Shown(ancestors))
      invariant Remaining(r, WalkFrom(r, replyId, before, visited), ancestors, consumed)
      decreases IdsOf(r.replyChain) - visited
    {
      var id := replyId.value;
      ghost var rest, earlier, cards := WalkFrom(r, replyId, before, visited), consumed, Shown(ancestors);
      Lookup(r.replyChain, groups, id);
      if id in visited {
        WalkEnds(r, replyId, before, visited);
        StepExclude(|r.replyChain|, cards, InvalidReplyChain, 1);
        bin := Exclude(bin, InvalidReplyChain, 1);
        Stop(r, rest, ancestors, earlier, bin);
        break;
      }
      if id !in groups {
        WalkEnds(r, replyId, before, visited);
        NothingExcluded(DuplicateSource);
        Stop(r, rest, ancestors, earlier, bin);
        break;
      }
      var matches := groups[id];
      consumed := consumed + |matches|;
      if |matches| != 1 {
        WalkEnds(r, replyId, before, visited);
        StepExclude(|r.replyChain|, cards, DuplicateSource, |matches|);
        bin := Exclude(bin, DuplicateSource, |matches|);
        Stop(r, rest, ancestors, earlier, bin);
        break;
      }
      OneStep(r, id, before, visited, ancestors, earlier);
      visited := visited + {id};
      var reply := matches[0];
      if !ValidMessage(reply, r.session, Some(before)) {
        StepExclude(|r.replyChain|, cards, InvalidSource, 1);
        bin := Exclude(bin, InvalidSource, 1);
        Stop(r, Walk([], multiset{InvalidSource}, 0, false), ancestors, consumed, bin);
        break;
      }
      var access := AclResult(reply.acl, r.session, RoomOf(r));
      ReasonOf(access);
      if access != Allowed {
        var reason := if access == Denied then AclDenied else AclBindingMismatch;
        StepExclude(|r.replyChain|, cards, reason, 1);
        bin := Exclude(bin, reason, 1);
        Stop(r, Walk([], multiset{reason}, 0, false), ancestors, consumed, bin);
        break;
      }
      ShowOneMore(|r.replyChain|, ancestors, reply);
      bin := Add(bin, MessageCandidate(reply, ReplyChain));
      ancestors := ancestors + [reply];
      before := reply.message.sequence;
      replyId := reply.message.replyToMessageId;
    }
    if replyId.None? || replyId.value == "" {
      WalkEnds(r, replyId, before, visited);
      Stop(r, WalkFrom(r, replyId, before, visited), ancestors, consumed, bin);
    }
    Unused(r, bin, consumed);
    var unused := |r.replyChain| - consumed;
    if unused > 0 {
      bin := Exclude(bin, NotReplyAncestor, unused);
    }
  }

  // ----- allocation

  /** What has been offered when the first `n` categories are done. */
  function Offered(d: Desk, n: nat): seq<Candidate>
    requires Complete(d) && n <= |ALLOCATION_ORDER|
  {
    if n == 0 then [] else Offered(d, n - 1) + d.bins[ALLOCATION_ORDER[n - 1]].candidates
  }

  lemma OfferedInOrder(d: Desk)
    requires Complete(d)
    ensures Offered(d, |ALLOCATION_ORDER|) == InOrder(d)
  {
    assert Offered(d, 1) == d.bins[CurrentMessage].candidates;
    assert Offered(d, 2) == Offered(d, 1) + d.bins[SummaryText].candidates;
    assert Offered(d, 3) == Offered(d, 2) + d.bins[ReplyChain].candidates;
    assert Offered(d, 4) == Offered(d, 3) + d.bins[RoomDelta].candidates;
    assert Offered(d, 5) == Offered(d, 4) + d.bins[DocumentSlice].candidates;
    assert Offered(d, 6) == Offered(d, 5) + d.bins[RetrievalHit].candidates;
  }

  /** Offers one candidate: it is passed over for a reason, or cut to what is left and selected. */
  method Place(budget: Budget, desk: Desk, c: Candidate) returns (placed: Desk)
    requires Roomy(budget, desk)
    ensures placed == Offer(budget, desk, c)
  {
    var bin, limit := desk.bins[c.category], budget.categories[c.category];
    if c.category == RoomDelta && desk.through.Some? && c.source.MessageSource?
       && c.source.message.sequence <= desk.through.value
    {
      return desk.(bins := desk.bins[c.category := Exclude(bin, CoveredBySummary, 1)]);
    }
    if c.key in desk.keys { return desk.(bins := desk.bins[c.category := Exclude(bin, DuplicateSource, 1)]); }
    if bin.usage.included >= limit.maxBlocks {
      return desk.(bins := desk.bins[c.category := Exclude(bin, CategoryBlockBudget, 1)]);
    }
    if desk.includedBlocks >= budget.maxTotalBlocks {
      return desk.(bins := desk.bins[c.category := Exclude(bin, TotalBlockBudget, 1)]);
    }
    var categoryRemaining := limit.maxCharacters - bin.usage.usedCharacters;
    var totalRemaining := budget.maxTotalCharacters - desk.usedCharacters;
    var available := Min(categoryRemaining, totalRemaining);
    if available <= 0 {
      var reason := if totalRemaining <= 0 then TotalCharacterBudget else CategoryCharacterBudget;
      return desk.(bins := desk.bins[c.category := Exclude(bin, reason, 1)]);
    }
    var content := if |c.content| <= available then c.content else c.content[..available];
    assert content == CutTo(c.content, available);
    var usage := bin.usage.(included := bin.usage.included + 1, usedCharacters := bin.usage.usedCharacters + |content|);
    if |content| < |c.content| { usage := usage.(truncated := usage.truncated + 1); }
    var through := desk.through;
    if c.category == SummaryText && |content| == |c.content| && c.source.SummarySource? {
      through := Some(c.source.summary.source.throughSequence);
    }
    return Desk(desk.bins[c.category := bin.(usage := usage)], desk.rows + [Block(c, content)], desk.keys + {c.key},
                through, desk.usedCharacters + |content|, desk.includedBlocks + 1);
  }

  /** One pass over every category in allocation order, selecting greedily. */
  method Allocate(budget: Budget, start: Desk) returns (desk: Desk)
    requires Roomy(budget, start)
    ensures desk == OfferAll(budget, start, InOrder(start))
  {
    desk := start;
    ghost var offered: seq<Candidate> := [];
    var i := 0;
    while i < |ALLOCATION_ORDER|
      invariant 0 <= i <= |ALLOCATION_ORDER| && offered == Offered(start, i)
      invariant desk == OfferAll(budget, start, offered)
    {
      OfferAllCounts(budget, start, offered, ALLOCATION_ORDER[i]);
      var candidates := desk.bins[ALLOCATION_ORDER[i]].candidates;
      ghost var before := offered;
      var j := 0;
      while j < |candidates|
        invariant 0 <= j <= |candidates| && offered == before + candidates[..j]
        invariant desk == OfferAll(budget, start, offered)
      {
        TakeOneMore(before, candidates, j);
        OfferNext(budget, start, offered, candidates[j]);
        desk := Place(budget, desk, candidates[j]);
        offered := offered + [candidates[j]];
        j := j + 1;
      }
      assert candidates[..j] == candidates;
      i := i + 1;
    }
    OfferedInOrder(start);
  }

  lemma TakeOneMore(before: seq<Candidate>, s: seq<Candidate>, j: nat)
    requires j < |s|
    ensures before + s[..j + 1] == (before + s[..j]) + [s[j]]
  {
  }

  lemma OfferNext(b: Budget, d: Desk, cs: seq<Candidate>, c: Candidate)
    requires Roomy(b, d)
    ensures OfferAll(b, d, cs + [c]) == Offer(b, OfferAll(b, d, cs), c)
  {
    assert (cs + [c])[..|cs|] == cs;
  }

  // ----- the whole build

  method BuildRoomContext(r: Request, digest: string -> string) returns (result: Result)
    ensures result == Build(r, digest)
  {
    var valid := CheckBudget(r.budget);
    if !valid { return Failed(InvalidBudget); }
    if !ValidMessage(r.currentMessage, r.session, None) { return Failed(InvalidCurrentMessage); }
    var access := AclResult(r.currentMessage.acl, r.session, RoomOf(r));
    if access == Denied { return Failed(CurrentMessageAccessDenied); }
    if access == Mismatch { return Failed(CurrentMessageAclMismatch); }
    var current := Add(Consider(EMPTY_BIN, 1), MessageCandidate(r.currentMessage, CurrentMessage));
    var summary := TakeSummary(r, digest);
    var replies := WalkReplies(r);
    var delta := Gather(r.roomDelta, DeltaIntake(r.session, r.currentMessage.message.sequence));
    var slices := Gather(r.slices, SliceIntake(r.session));
    var hits := Gather(r.hits, HitIntake(r.session));
    var desk := Desk(map[SummaryText := summary, ReplyChain := replies, RoomDelta := delta, DocumentSlice := slices,
                         RetrievalHit := hits, CurrentMessage := current], [], {}, None, 0, 0);
    FilledDesk(r, digest, desk, summary, replies, delta, slices, hits, current);
    desk := Allocate(r.budget, desk);
    return Built(Present(desk));
  }

  method CheckBudget(b: Budget) returns (valid: bool)
    ensures valid == ValidBudget(b)
  {
    if b.schemaVersion != CONTRACT_VERSION || !NonEmpty(b.configVersion) || !NonEmpty(b.summaryConfigVersion)
       || !SafeInteger(b.maxTotalCharacters) || !SafeInteger(b.maxTotalBlocks)
    {
      return false;
    }
    var order := [SummaryText, ReplyChain, RoomDelta, DocumentSlice, RetrievalHit, CurrentMessage];
    var i := 0;
    while i < |order|
      invariant 0 <= i <= |order|
      invariant forall j | 0 <= j < i :: Bounded(b, order[j])
    {
      var c := order[i];
      if c !in b.categories { return false; }
      var limit := b.categories[c];
      if limit.maxCharacters < 0 || limit.maxCharacters > MAX_SAFE_INTEGER
         || limit.maxBlocks < 0 || limit.maxBlocks > MAX_SAFE_INTEGER
      {
        assert !Bounded(b, c);
        return false;
      }
      i := i + 1;
    }
    forall c: Category ensures Bounded(b, c) && c in b.categories {
      assert order[DisplayRank(c)] == c;
    }
    return b.maxTotalBlocks >= 1 && b.maxTotalCharacters >= 1
      && b.categories[CurrentMessage].maxBlocks >= 1 && b.categories[CurrentMessage].maxCharacters >= 1;
  }

  lemma FilledDesk(r: Request, digest: string -> string, d: Desk, summary: Bin, replies: Bin, delta: Bin, slices: Bin,
                   hits: Bin, current: Bin)
    requires summary == SummaryBin(r, digest) && replies == ReplyBin(r) && current == CurrentBin(r)
    requires delta == Gathered(r.roomDelta, DeltaIntake(r.session, r.currentMessage.message.sequence))
    requires slices == Gathered(r.slices, SliceIntake(r.session)) && hits == Gathered(r.hits, HitIntake(r.session))
    requires d == Desk(map[SummaryText := summary, ReplyChain := replies, RoomDelta := delta, DocumentSlice := slices,
                           RetrievalHit := hits, CurrentMessage := current], [], {}, None, 0, 0)
    ensures d == GatheredDesk(r, digest)
  {
    hide SummaryBin, ReplyBin, CurrentBin, Gathered, DeltaIntake, SliceIntake, HitIntake;
    forall c: Category ensures c in d.bins && d.bins[c] == BinOf(r, digest, c) {
      match c case SummaryText => case ReplyChain => case RoomDelta => case DocumentSlice => case RetrievalHit => case CurrentMessage =>
    }
    assert d.bins == GatheredDesk(r, digest).bins;
  }
}
