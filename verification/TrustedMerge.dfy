/**
 * Merging proposals into the default branch: any number of mergers, each stepping
 * through validate, read, compare-and-swap and, when that fails, reread, with any
 * other merger's steps in between. Commits are the values of the worktree model.
 */
module TrustedMerge {
  import opened Prelude
  import GitWorktree

  type Commit = GitWorktree.Commit

  datatype Input = Input(proposalBranch: string, base: Commit, head: Commit)

  datatype Refusal = InvalidInput | BranchMissing | ProposalChanged | InvalidRange | DefaultChanged

  datatype Outcome = Merged(commit: Commit, replayed: bool) | Refused(why: Refusal)

  datatype Place = Validating | Reading | Swapping | Rereading | Finished(outcome: Outcome)

  datatype Merger = Merger(input: Input, place: Place)

  /** A success told to a caller, and how many moves the default branch had made by then. */
  datatype Report = Report(head: Commit, moves: nat)

  /** `heads` are the commits the default branch has pointed at, the last one being where it is now. */
  datatype State = State(
    heads: seq<Commit>, proposals: map<string, Commit>, mergers: map<nat, Merger>, reports: seq<Report>)

  datatype Action = Call(id: nat, input: Input) | Advance(id: nat) | Propose(branch: string, head: Commit)

  function Current(s: State): Commit
    requires s.heads != []
  {
    s.heads[|s.heads| - 1]
  }

  function Checked(s: State, input: Input): Place {
    if input.base == input.head then Finished(Refused(InvalidInput))
    else if input.proposalBranch !in s.proposals then Finished(Refused(BranchMissing))
    else if s.proposals[input.proposalBranch] != input.head then Finished(Refused(ProposalChanged))
    else if !GitWorktree.Ancestor(input.base, input.head) then Finished(Refused(InvalidRange))
    else Reading
  }

  /** Where a merger goes from here, not counting the move of the branch itself. */
  function NextPlace(s: State, m: Merger): Place
    requires s.heads != []
  {
    match m.place
    case Validating => Checked(s, m.input)
    case Reading =>
      if Current(s) == m.input.head then Finished(Merged(m.input.head, true))
      else if Current(s) != m.input.base then Finished(Refused(DefaultChanged))
      else Swapping
    case Swapping => if Current(s) == m.input.base then Finished(Merged(m.input.head, false)) else Rereading
    case Rereading => if Current(s) == m.input.head then Finished(Merged(m.input.head, true)) else Finished(Refused(DefaultChanged))
    case Finished(_) => m.place
  }

  /** One step of one merger: validate, read, compare-and-swap, or reread. */
  function StepMerger(s: State, id: nat, m: Merger): State
    requires s.heads != []
  {
    var place := NextPlace(s, m);
    var heads := if m.place == Swapping && Current(s) == m.input.base then s.heads + [m.input.head] else s.heads;
    var told := !m.place.Finished? && place.Finished? && place.outcome.Merged?;
    State(heads, s.proposals, s.mergers[id := m.(place := place)],
          s.reports + if told then [Report(place.outcome.commit, |heads| - 1)] else [])
  }

  function Step(s: State, action: Action): State {
    match action
    case Call(id, input) => if id in s.mergers then s else s.(mergers := s.mergers[id := Merger(input, Validating)])
    case Advance(id) => if id in s.mergers && s.heads != [] then StepMerger(s, id, s.mergers[id]) else s
    case Propose(branch, head) => s.(proposals := s.proposals[branch := head])
  }

  function Run(s: State, actions: seq<Action>): State
    decreases |actions|
  {
    if actions == [] then s else Run(Step(s, actions[0]), actions[1..])
  }

  function Untouched(start: Commit, proposals: map<string, Commit>): State {
    State([start], proposals, map[], [])
  }

  // ----- what every step keeps

  function Depth(c: Commit): nat {
    if c.Root? then 0 else 1 + Depth(c.parent)
  }

  lemma {:induction false} AncestorDepth(a: Commit, c: Commit)
    requires GitWorktree.Ancestor(a, c)
    ensures Depth(a) <= Depth(c) && (a != c ==> Depth(a) < Depth(c))
  {
    if a != c { AncestorDepth(a, c.parent); }
  }

  lemma {:induction false} AncestorTransitive(a: Commit, b: Commit, c: Commit)
    requires GitWorktree.Ancestor(a, b) && GitWorktree.Ancestor(b, c)
    ensures GitWorktree.Ancestor(a, c)
  {
    if b != c { AncestorTransitive(a, b, c.parent); }
  }

  ghost predicate Descends(a: Commit, b: Commit) {
    a != b && GitWorktree.Ancestor(a, b)
  }

  ghost predicate Rising(heads: seq<Commit>) {
    forall i | 0 <= i < |heads| - 1 :: Descends(heads[i], heads[i + 1])
  }

  /** Past validation, a merger's head is known to descend from its base. */
  ghost predicate MergerSound(m: Merger) {
    m.place.Reading? || m.place.Swapping? ==> Descends(m.input.base, m.input.head)
  }

  ghost predicate Sound(s: State) {
    && s.heads != [] && Rising(s.heads)
    && (forall id | id in s.mergers :: MergerSound(s.mergers[id]))
    && (forall i | 0 <= i < |s.reports| :: s.reports[i].moves < |s.heads| && s.heads[s.reports[i].moves] == s.reports[i].head)
  }

  lemma StepKeeps(s: State, action: Action)
    requires Sound(s)
    ensures Sound(Step(s, action)) && s.heads <= Step(s, action).heads
  {
    hide GitWorktree.Ancestor;
    if action.Advance? && action.id in s.mergers {
      var m := s.mergers[action.id];
      assert MergerSound(m);
    }
  }

  lemma {:induction false} RunKeeps(s: State, actions: seq<Action>)
    requires Sound(s)
    ensures Sound(Run(s, actions)) && s.heads <= Run(s, actions).heads
    decreases |actions|
  {
    hide Sound, Step;
    if actions != [] {
      StepKeeps(s, actions[0]);
      RunKeeps(Step(s, actions[0]), actions[1..]);
    }
  }

  // ----- over every interleaving

  lemma {:induction false} RisingHeads(heads: seq<Commit>, i: nat, j: nat)
    requires Rising(heads) && i <= j < |heads|
    ensures GitWorktree.Ancestor(heads[i], heads[j]) && (i < j ==> Depth(heads[i]) < Depth(heads[j]))
    decreases j
  {
    if i < j {
      RisingHeads(heads, i, j - 1);
      assert Descends(heads[j - 1], heads[j - 1 + 1]);
      AncestorTransitive(heads[i], heads[j - 1], heads[j]);
      AncestorDepth(heads[j - 1], heads[j]);
    }
  }

  /** The default branch only moves to strict descendants, so it never shows a commit again. */
  lemma DefaultOnlyAdvances(start: Commit, proposals: map<string, Commit>, actions: seq<Action>, i: nat, j: nat)
    requires i < j < |Run(Untouched(start, proposals), actions).heads|
    ensures
      var heads := Run(Untouched(start, proposals), actions).heads;
      heads[0] == start && GitWorktree.Ancestor(heads[i], heads[j]) && heads[i] != heads[j]
  {
    RunKeeps(Untouched(start, proposals), actions);
    RisingHeads(Run(Untouched(start, proposals), actions).heads, i, j);
  }

  /** A success told to a caller means the branch was at that commit at that moment. */
  lemma SuccessIsReal(start: Commit, proposals: map<string, Commit>, actions: seq<Action>, i: nat)
    requires i < |Run(Untouched(start, proposals), actions).reports|
    ensures
      var s := Run(Untouched(start, proposals), actions);
      s.reports[i].moves < |s.heads| && s.heads[s.reports[i].moves] == s.reports[i].head
  {
    RunKeeps(Untouched(start, proposals), actions);
  }

  /**
   * A move of the branch from a base is the only move from it: the
   * compare-and-swap succeeds for at most one of the heads proposed on a base,
   * however many mergers try and whenever they do.
   */
  lemma OneMovePerBase(s: State, first: nat, second: nat, more: seq<Action>)
    requires Sound(s) && first in s.mergers && s.mergers[first].place == Swapping
    requires s.mergers[first].input.base == Current(s)
    ensures
      var s1 := Step(s, Advance(first));
      var s2 := Run(s1, more);
      && s2.heads != []
      && (second in s2.mergers && s2.mergers[second].place == Swapping
          && s2.mergers[second].input.base == s.mergers[first].input.base
          ==> Step(s2, Advance(second)).heads == s2.heads && Step(s2, Advance(second)).mergers[second].place == Rereading)
  {
    var s1 := Step(s, Advance(first));
    var s2 := Run(s1, more);
    StepKeeps(s, Advance(first));
    RunKeeps(s1, more);
    var k := |s.heads| - 1;
    assert s2.heads[k] == s.heads[k];
    RisingHeads(s2.heads, k, |s2.heads| - 1);
  }

  // ----- what has to be proposed before it is merged

  /** In this state the merger has been called and its proposal branch stands at its head. */
  ghost predicate ShownIn(s: State, id: nat, input: Input) {
    && id in s.mergers && s.mergers[id].input == input
    && input.proposalBranch in s.proposals && s.proposals[input.proposalBranch] == input.head
  }

  /** At some moment since its call the merger's proposal branch stood at its head. */
  ghost predicate WasShown(s: State, actions: seq<Action>, id: nat, input: Input) {
    exists k :: 0 <= k <= |actions| && ShownIn(Run(s, actions[..k]), id, input)
  }

  /** A merger that goes on to read and swap, or has been told success. */
  predicate Accepted(p: Place) {
    match p
    case Validating => false
    case Finished(outcome) => outcome.Merged?
    case _ => true
  }

  lemma {:induction false} RunLast(s: State, front: seq<Action>, last: Action)
    ensures Run(s, front + [last]) == Step(Run(s, front), last)
    decreases |front|
  {
    hide Step;
    if front == [] {
      assert [] + [last] == [last] && [last][1..] == [];
      assert Run(s, [last]) == Run(Step(s, last), []);
    } else {
      assert (front + [last])[1..] == front[1..] + [last];
      RunLast(Step(s, front[0]), front[1..], last);
    }
  }

  /** One step: a merger accepted by it was accepted before, or has just found its branch at its head. */
  lemma StepAccepts(s: State, action: Action, id: nat)
    requires Sound(s) && id in Step(s, action).mergers && Accepted(Step(s, action).mergers[id].place)
    ensures id in s.mergers && s.mergers[id].input == Step(s, action).mergers[id].input
    ensures Accepted(s.mergers[id].place) || ShownIn(s, id, s.mergers[id].input)
    ensures Accepted(s.mergers[id].place) || Descends(s.mergers[id].input.base, s.mergers[id].input.head)
  {
  }

  /** Whatever is proposed meanwhile, an accepted merger's branch stood at its head, which descends from its base. */
  lemma {:induction false} AcceptedWasShown(start: Commit, proposals: map<string, Commit>, actions: seq<Action>, id: nat)
    requires id in Run(Untouched(start, proposals), actions).mergers
    requires Accepted(Run(Untouched(start, proposals), actions).mergers[id].place)
    ensures
      var input := Run(Untouched(start, proposals), actions).mergers[id].input;
      WasShown(Untouched(start, proposals), actions, id, input) && Descends(input.base, input.head)
    decreases |actions|
  {
    var s0 := Untouched(start, proposals);
    if actions != [] {
      var front, last := actions[..|actions| - 1], actions[|actions| - 1];
      var s := Run(s0, front);
      assert actions == front + [last];
      RunLast(s0, front, last);
      RunKeeps(s0, front);
      StepAccepts(s, last, id);
      hide Step, Accepted, ShownIn, Descends, Sound;
      if Accepted(s.mergers[id].place) {
        AcceptedWasShown(start, proposals, front, id);
        var k :| 0 <= k <= |front| && ShownIn(Run(s0, front[..k]), id, s.mergers[id].input);
        assert actions[..k] == front[..k];
      } else {
        assert actions[..|front|] == front;
      }
    }
  }

  /**
   * Over every run: the step that moves the default branch moves it from a merger's
   * base to that merger's head, which descends from it and which the merger's
   * proposal branch showed at some moment since its call.
   */
  lemma MovesWereProposed(start: Commit, proposals: map<string, Commit>, actions: seq<Action>, last: Action)
    requires Run(Untouched(start, proposals), actions + [last]).heads != Run(Untouched(start, proposals), actions).heads
    ensures
      var (s0, s) := (Untouched(start, proposals), Run(Untouched(start, proposals), actions));
      && last.Advance? && last.id in s.mergers && s.heads != []
      && var input := s.mergers[last.id].input;
      && Current(s) == input.base && Run(s0, actions + [last]).heads == s.heads + [input.head]
      && Descends(input.base, input.head) && WasShown(s0, actions, last.id, input)
  {
    var s0 := Untouched(start, proposals);
    RunKeeps(s0, actions);
    RunLast(s0, actions, last);
    assert last.Advance? && Run(s0, actions).mergers[last.id].place == Swapping;
    AcceptedWasShown(start, proposals, actions, last.id);
  }

  /** Over every run: whoever is told success is told of its own head, and its branch stood there since its call. */
  lemma SuccessWasProposed(start: Commit, proposals: map<string, Commit>, actions: seq<Action>, id: nat)
    requires id in Run(Untouched(start, proposals), actions).mergers
    requires
      var place := Run(Untouched(start, proposals), actions).mergers[id].place;
      place.Finished? && place.outcome.Merged?
    ensures
      var (s0, m) := (Untouched(start, proposals), Run(Untouched(start, proposals), actions).mergers[id]);
      && m.place.outcome.commit == m.input.head && m.input.head in Run(s0, actions).heads
      && Descends(m.input.base, m.input.head) && WasShown(s0, actions, id, m.input)
  {
    AcceptedWasShown(start, proposals, actions, id);
    RunWasThere(Untouched(start, proposals), actions);
    RunKeeps(Untouched(start, proposals), actions);
  }

  // ----- what an outcome says of the moment it was told

  /** Why a merger that has just finished was told so, by the branches at that moment. */
  ghost predicate Truly(s: State, s': State, input: Input, was: Place, outcome: Outcome)
    requires s.heads != []
  {
    match outcome
    case Merged(commit, replayed) =>
      commit == input.head && s'.heads != [] && Current(s') == input.head
      && if replayed then s'.heads == s.heads else Current(s) == input.base && s'.heads == s.heads + [input.head]
    case Refused(why) =>
      s'.heads == s.heads && match why
        case InvalidInput => input.base == input.head
        case BranchMissing => input.proposalBranch !in s.proposals
        case ProposalChanged => input.proposalBranch in s.proposals && s.proposals[input.proposalBranch] != input.head
        case InvalidRange => !GitWorktree.Ancestor(input.base, input.head)
        case DefaultChanged => !was.Validating? && Current(s) != input.head && (was.Reading? ==> Current(s) != input.base)
  }

  /**
   * A merger that finishes is told the truth of that moment: a merge of its own
   * exactly when its step moved the branch from its base, a replay when the branch
   * was at its head already, a changed default only when it was not; and one that goes
   * on has passed its checks, has seen the branch at its base, or has failed to move it.
   */
  lemma OutcomeIsTrue(s: State, id: nat)
    requires s.heads != [] && id in s.mergers && !s.mergers[id].place.Finished?
    ensures
      var (m, s') := (s.mergers[id], Step(s, Advance(id)));
      id in s'.mergers && s'.mergers[id].input == m.input &&
      match s'.mergers[id].place
      case Finished(outcome) => Truly(s, s', m.input, m.place, outcome)
      case Reading =>
        m.place.Validating? && s'.heads == s.heads && m.input.base != m.input.head
        && GitWorktree.Ancestor(m.input.base, m.input.head)
        && m.input.proposalBranch in s.proposals && s.proposals[m.input.proposalBranch] == m.input.head
      case Swapping => m.place.Reading? && s'.heads == s.heads && Current(s) == m.input.base && Current(s) != m.input.head
      case Rereading => m.place.Swapping? && s'.heads == s.heads && Current(s) != m.input.base
      case Validating => false
  {
    hide GitWorktree.Ancestor;
  }

  // ----- success without a move

  /** Two successes are always of one commit or of a commit and its descendant: of unrelated heads only one succeeds. */
  lemma SuccessesAreComparable(start: Commit, proposals: map<string, Commit>, actions: seq<Action>, i: nat, j: nat)
    requires i < |Run(Untouched(start, proposals), actions).reports| && j < |Run(Untouched(start, proposals), actions).reports|
    ensures
      var (a, c) := (Run(Untouched(start, proposals), actions).reports[i].head,
                     Run(Untouched(start, proposals), actions).reports[j].head);
      a == c || Descends(a, c) || Descends(c, a)
  {
    var s := Run(Untouched(start, proposals), actions);
    RunKeeps(Untouched(start, proposals), actions);
    var m, n := s.reports[i].moves, s.reports[j].moves;
    if m <= n { RisingHeads(s.heads, m, n); } else { RisingHeads(s.heads, n, m); }
  }

  lemma RunNothing(s: State)
    ensures Run(s, []) == s
  {
  }

  lemma RunStep(s: State, x: Action, rest: seq<Action>)
    ensures Run(s, [x] + rest) == Run(Step(s, x), rest)
  {
    assert ([x] + rest)[1..] == rest;
  }

  /** One step of the merger just written under `id`. */
  lemma OneStep(s: State, id: nat, input: Input, from: Place)
    requires s.heads != []
    ensures
      var m := Merger(input, from);
      var place := NextPlace(s, m);
      var heads := if from == Swapping && Current(s) == input.base then s.heads + [input.head] else s.heads;
      Step(s.(mergers := s.mergers[id := m]), Advance(id))
        == State(heads, s.proposals, s.mergers[id := Merger(input, place)],
                 if !from.Finished? && place.Finished? && place.outcome.Merged?
                 then s.reports + [Report(place.outcome.commit, |heads| - 1)] else s.reports)
  {
    assert s.mergers[id := Merger(input, from)][id := Merger(input, NextPlace(s, Merger(input, from)))]
        == s.mergers[id := Merger(input, NextPlace(s, Merger(input, from)))];
    assert s.reports + [] == s.reports;
    hide GitWorktree.Ancestor;
  }

  /** A merger that finds the branch at its base takes it to its head in three steps. */
  lemma MergeAlone(s: State, id: nat, input: Input, rest: seq<Action>)
    requires s.heads != [] && Current(s) == input.base && id !in s.mergers
    requires Descends(input.base, input.head)
    requires input.proposalBranch in s.proposals && s.proposals[input.proposalBranch] == input.head
    ensures
      var done := State(s.heads + [input.head], s.proposals,
                        s.mergers[id := Merger(input, Finished(Merged(input.head, false)))], s.reports + [Report(input.head, |s.heads|)]);
      Run(s, [Call(id, input)] + ([Advance(id)] + ([Advance(id)] + ([Advance(id)] + rest)))) == Run(done, rest)
  {
    var at := (place: Place) => s.(mergers := s.mergers[id := Merger(input, place)]);
    OneStep(s, id, input, Validating);
    OneStep(s, id, input, Reading);
    OneStep(s, id, input, Swapping);
    assert Step(s, Call(id, input)) == at(Validating);
    assert Checked(s, input) == Reading;
    hide Step, GitWorktree.Ancestor;
    RunStep(s, Call(id, input), [Advance(id)] + ([Advance(id)] + ([Advance(id)] + rest)));
    RunStep(at(Validating), Advance(id), [Advance(id)] + ([Advance(id)] + rest));
    RunStep(at(Reading), Advance(id), [Advance(id)] + rest);
    RunStep(at(Swapping), Advance(id), rest);
  }

  /**
   * When one head does descend from the other, both succeed with the same base in
   * this run: the first moves the branch, a third merger moves it on, and the
   * second finds its head already there.
   */
  lemma TwoHeadsCanSucceed(b: Commit, h1: Commit, h2: Commit) returns (actions: seq<Action>)
    requires Descends(b, h1) && Descends(h1, h2)
    ensures
      var s := Run(Untouched(b, map["p" := h1, "q" := h2]), actions);
      && 1 in s.mergers && s.mergers[1] == Merger(Input("p", b, h1), Finished(Merged(h1, false)))
      && 2 in s.mergers && s.mergers[2] == Merger(Input("q", b, h2), Finished(Merged(h2, true)))
      && h1 != h2
  {
    AncestorTransitive(b, h1, h2);
    AncestorDepth(b, h1);
    AncestorDepth(h1, h2);
    var s0 := Untouched(b, map["p" := h1, "q" := h2]);
    var last := [Call(2, Input("q", b, h2))] + ([Advance(2)] + ([Advance(2)] + []));
    var middle := [Call(3, Input("q", h1, h2))] + ([Advance(3)] + ([Advance(3)] + ([Advance(3)] + last)));
    actions := [Call(1, Input("p", b, h1))] + ([Advance(1)] + ([Advance(1)] + ([Advance(1)] + middle)));
    MergeAlone(s0, 1, Input("p", b, h1), middle);
    var m1 := Merger(Input("p", b, h1), Finished(Merged(h1, false)));
    var s1 := State([b, h1], s0.proposals, map[1 := m1], [Report(h1, 1)]);
    assert [b] + [h1] == [b, h1] && [] + [Report(h1, 1)] == [Report(h1, 1)];
    hide *;
    MergeAlone(s1, 3, Input("q", h1, h2), last);
    var s2 := State([b, h1] + [h2], s0.proposals, map[1 := m1][3 := Merger(Input("q", h1, h2), Finished(Merged(h2, false)))],
                    [Report(h1, 1)] + [Report(h2, 2)]);
    FoundThere(s2, 2, Input("q", b, h2), []);
    RunNothing(s2.(mergers := s2.mergers[2 := Merger(Input("q", b, h2), Finished(Merged(h2, true)))],
                   reports := s2.reports + [Report(h2, |s2.heads| - 1)]));
  }

  /** A merger that finds the branch at its head reports it as a replay. */
  lemma FoundThere(s: State, id: nat, input: Input, rest: seq<Action>)
    requires s.heads != [] && Current(s) == input.head && id !in s.mergers && Descends(input.base, input.head)
    requires input.proposalBranch in s.proposals && s.proposals[input.proposalBranch] == input.head
    ensures
      var done := s.(mergers := s.mergers[id := Merger(input, Finished(Merged(input.head, true)))],
                     reports := s.reports + [Report(input.head, |s.heads| - 1)]);
      Run(s, [Call(id, input)] + ([Advance(id)] + ([Advance(id)] + rest))) == Run(done, rest)
  {
    var at := (place: Place) => s.(mergers := s.mergers[id := Merger(input, place)]);
    OneStep(s, id, input, Validating);
    OneStep(s, id, input, Reading);
    assert Step(s, Call(id, input)) == at(Validating);
    assert Checked(s, input) == Reading;
    hide Step, GitWorktree.Ancestor;
    RunStep(s, Call(id, input), [Advance(id)] + ([Advance(id)] + rest));
    RunStep(at(Validating), Advance(id), [Advance(id)] + rest);
    RunStep(at(Reading), Advance(id), rest);
  }

  /** A merger that told its caller of success was merging its own head, and the branch has been there. */
  ghost predicate MergedWasThere(s: State) {
    forall id | id in s.mergers && s.mergers[id].place.Finished? && s.mergers[id].place.outcome.Merged? ::
      s.mergers[id].place.outcome.commit == s.mergers[id].input.head && s.mergers[id].input.head in s.heads
  }

  lemma StepWasThere(s: State, action: Action)
    requires s.heads != [] && MergedWasThere(s)
    ensures Step(s, action).heads != [] && MergedWasThere(Step(s, action))
  {
    hide Checked, GitWorktree.Ancestor;
    if action.Advance? && action.id in s.mergers {
      var m := s.mergers[action.id];
      if m.place == Validating { CheckedIsNoMerge(s, m.input); }
    }
  }

  lemma CheckedIsNoMerge(s: State, input: Input)
    ensures Checked(s, input).Finished? ==> !Checked(s, input).outcome.Merged?
  {
  }

  lemma {:induction false} RunWasThere(s: State, actions: seq<Action>)
    requires s.heads != [] && MergedWasThere(s)
    ensures MergedWasThere(Run(s, actions))
    decreases |actions|
  {
    hide MergedWasThere, Step;
    if actions != [] {
      StepWasThere(s, actions[0]);
      RunWasThere(Step(s, actions[0]), actions[1..]);
    }
  }

  /** Some caller that proposed this head on this base was told of success. */
  ghost predicate Succeeded(s: State, base: Commit, head: Commit) {
    exists id :: id in s.mergers && s.mergers[id].input.base == base && s.mergers[id].input.head == head
                 && s.mergers[id].place.Finished? && s.mergers[id].place.outcome.Merged?
  }

  ghost predicate BothSucceed(b: Commit, proposals: map<string, Commit>, actions: seq<Action>, h1: Commit, h2: Commit) {
    Succeeded(Run(Untouched(b, proposals), actions), b, h1) && Succeeded(Run(Untouched(b, proposals), actions), b, h2)
  }

  lemma BothAreComparable(b: Commit, proposals: map<string, Commit>, actions: seq<Action>, h1: Commit, h2: Commit)
    requires BothSucceed(b, proposals, actions, h1, h2) && h1 != h2
    ensures Descends(h1, h2) || Descends(h2, h1)
  {
    var s := Run(Untouched(b, proposals), actions);
    RunKeeps(Untouched(b, proposals), actions);
    RunWasThere(Untouched(b, proposals), actions);
    var i :| 0 <= i < |s.heads| && s.heads[i] == h1;
    var j :| 0 <= j < |s.heads| && s.heads[j] == h2;
    if i < j { RisingHeads(s.heads, i, j); } else { RisingHeads(s.heads, j, i); }
  }

  /**
   * Two different heads proposed on one base can both be reported merged, in some
   * interleaving, exactly when one of them descends from the other.
   */
  lemma BothSucceedIff(b: Commit, h1: Commit, h2: Commit)
    requires Descends(b, h1) && Descends(b, h2) && h1 != h2
    ensures (exists proposals, actions :: BothSucceed(b, proposals, actions, h1, h2)) <==> Descends(h1, h2) || Descends(h2, h1)
  {
    forall proposals, actions | BothSucceed(b, proposals, actions, h1, h2) ensures Descends(h1, h2) || Descends(h2, h1) {
      BothAreComparable(b, proposals, actions, h1, h2);
    }
    if Descends(h1, h2) {
      var actions := TwoHeadsCanSucceed(b, h1, h2);
      assert BothSucceed(b, map["p" := h1, "q" := h2], actions, h1, h2);
    } else if Descends(h2, h1) {
      var actions := TwoHeadsCanSucceed(b, h2, h1);
      assert BothSucceed(b, map["p" := h2, "q" := h1], actions, h1, h2);
    }
  }

  // ----- one merger with nobody in between

  /** Where the default branch is afterwards, and what the caller is told. */
  function MergeResult(current: Commit, proposals: map<string, Commit>, input: Input): (Commit, Outcome) {
    var checked := Checked(State([current], proposals, map[], []), input);
    if checked.Finished? then (current, checked.outcome)
    else if current == input.head then (current, Merged(input.head, true))
    else if current != input.base then (current, Refused(DefaultChanged))
    else (input.head, Merged(input.head, false))
  }

  /** The proposal branch shows the head, which is not the base and descends from it. */
  predicate MayMerge(proposals: map<string, Commit>, input: Input) {
    && input.base != input.head && GitWorktree.Ancestor(input.base, input.head)
    && input.proposalBranch in proposals && proposals[input.proposalBranch] == input.head
  }

  class TrustedKnowledgeGitPort {
    var defaultHead: Commit
    var proposals: map<string, Commit>

    constructor (current: Commit, branches: map<string, Commit>)
      ensures defaultHead == current && proposals == branches
    {
      defaultHead, proposals := current, branches;
    }

    /** `git update-ref` with the expected old commit. */
    method CompareAndSwap(to: Commit, expected: Commit) returns (moved: bool)
      modifies `defaultHead
      ensures moved == (old(defaultHead) == expected)
      ensures defaultHead == if moved then to else old(defaultHead)
    {
      moved := defaultHead == expected;
      if moved { defaultHead := to; }
    }

    method IsAncestor(a: Commit, c: Commit) returns (yes: bool)
      ensures yes == GitWorktree.Ancestor(a, c)
    {
      var at := c;
      while at != a && at.Child?
        invariant GitWorktree.Ancestor(a, c) <==> GitWorktree.Ancestor(a, at)
        decreases at
      {
        at := at.parent;
      }
      return at == a;
    }

    method Merge(input: Input) returns (outcome: Outcome)
      modifies `defaultHead
      ensures (defaultHead, outcome) == MergeResult(old(defaultHead), proposals, input)
      ensures outcome.Merged? <==> MayMerge(proposals, input) && (old(defaultHead) == input.head || old(defaultHead) == input.base)
      ensures defaultHead == if outcome.Merged? then input.head else old(defaultHead)
      ensures outcome.Merged? ==> outcome == Merged(input.head, old(defaultHead) == input.head)
      ensures outcome == Refused(DefaultChanged) <==> MayMerge(proposals, input) && old(defaultHead) !in {input.head, input.base}
      ensures outcome == Refused(ProposalChanged) <==>
        input.base != input.head && input.proposalBranch in proposals && proposals[input.proposalBranch] != input.head
      ensures outcome == Refused(InvalidInput) <==> input.base == input.head
    {
      if input.base == input.head { return Refused(InvalidInput); }
      if input.proposalBranch !in proposals { return Refused(BranchMissing); }
      if proposals[input.proposalBranch] != input.head { return Refused(ProposalChanged); }
      var ancestor := IsAncestor(input.base, input.head);
      if !ancestor { return Refused(InvalidRange); }
      var current := defaultHead;
      if current == input.head { return Merged(input.head, true); }
      if current != input.base { return Refused(DefaultChanged); }
      var moved := CompareAndSwap(input.head, input.base);
      if moved { return Merged(input.head, false); }
      return if defaultHead == input.head then Merged(input.head, true) else Refused(DefaultChanged);
    }
  }

  /** Undisturbed, a merger's four steps do what one call of the port does. */
  lemma StepsAreTheCall(s: State, id: nat, input: Input)
    requires s.heads != [] && id !in s.mergers
    ensures
      var s' := Run(s, [Call(id, input)] + ([Advance(id)] + ([Advance(id)] + ([Advance(id)] + []))));
      && s'.heads != [] && id in s'.mergers
      && s'.mergers[id].place == Finished(MergeResult(Current(s), s.proposals, input).1)
      && Current(s') == MergeResult(Current(s), s.proposals, input).0
  {
    var at := (place: Place) => s.(mergers := s.mergers[id := Merger(input, place)]);
    OneStep(s, id, input, Validating);
    assert Step(s, Call(id, input)) == at(Validating);
    assert Checked(s, input) == Checked(State([Current(s)], s.proposals, map[], []), input);
    RunStep(s, Call(id, input), [Advance(id)] + ([Advance(id)] + ([Advance(id)] + [])));
    RunStep(at(Validating), Advance(id), [Advance(id)] + ([Advance(id)] + []));
    if Checked(s, input) == Reading {
      if Current(s) == input.base {
        MergeAlone(s, id, input, []);
        RunNothing(State(s.heads + [input.head], s.proposals,
          s.mergers[id := Merger(input, Finished(Merged(input.head, false)))], s.reports + [Report(input.head, |s.heads|)]));
      } else {
        OneStep(s, id, input, Reading);
        var place := if Current(s) == input.head then Finished(Merged(input.head, true)) else Finished(Refused(DefaultChanged));
        var s2 := Step(at(Reading), Advance(id));
        RunStep(at(Reading), Advance(id), [Advance(id)] + []);
        RestDoesNothing(s2, id, []);
      }
    } else {
      RestDoesNothing(Step(at(Validating), Advance(id)), id, [Advance(id)] + []);
      RestDoesNothing(Step(at(Validating), Advance(id)), id, []);
    }
  }

  lemma RestDoesNothing(s: State, id: nat, rest: seq<Action>)
    requires s.heads != [] && id in s.mergers && s.mergers[id].place.Finished?
    ensures Run(s, [Advance(id)] + rest) == Run(s, rest)
    ensures Run(s, []) == s
  {
    assert s.mergers[id := s.mergers[id]] == s.mergers && s.reports + [] == s.reports;
    RunStep(s, Advance(id), rest);
  }
}
