/**
 * Preparing, finalizing and cleaning up a private worktree, one Git step at a
 * time. A commit is the value its id is the hash of, so two commits made at
 * different moments differ. `budget` is how many effects happen before the
 * process dies: an operation that would need more is cut there, keeping what it
 * has already done.
 */
module GitWorktree {
  import opened Prelude

  datatype Author = Author(name: string, email: string)

  datatype Commit =
    | Root(tree: string)
    | Child(parent: Commit, tree: string, author: Author, message: string, stamp: int)

  predicate Ancestor(a: Commit, c: Commit) {
    a == c || (c.Child? && Ancestor(a, c.parent))
  }

  datatype Receipt = Receipt(branch: string, defaultBranch: string, base: Commit, marker: string, message: string)

  /** A private clone: its own refs and objects, the staged tree and the files on disk. */
  datatype Clone = Clone(
    refs: map<string, Commit>, head: Option<string>, objects: set<Commit>, index: string, files: string,
    hasOrigin: bool, marker: Option<string>)

  datatype Git = Git(refs: map<string, Commit>, objects: set<Commit>, clone: Option<Clone>)

  datatype Finding = Unchanged | Changed(head: Commit)

  datatype Answer = Crashed | Refused | Found(finding: Finding)

  // ----- reading the state

  /** The receipt still names a base on the default branch. */
  predicate IdentityHolds(g: Git, p: Receipt) {
    p.defaultBranch in g.refs && p.base in g.objects && Ancestor(p.base, g.refs[p.defaultBranch])
  }

  predicate SafeClone(c: Clone, p: Receipt) {
    !c.hasOrigin && c.marker == Some(p.marker)
  }

  /** What HEAD resolves to, when the receipt's branch is checked out. */
  function CheckedOut(c: Clone, p: Receipt): Option<Commit> {
    if c.head == Some(p.branch) && p.branch in c.refs then Some(c.refs[p.branch]) else None
  }

  /** Nothing staged and nothing changed on disk. */
  predicate Clean(c: Clone, head: Commit) {
    c.index == head.tree && c.files == c.index
  }

  predicate Trusted(p: Receipt, author: Author, c: Commit) {
    c.Child? && c.parent == p.base && c.author == author && c.message == p.message
  }

  // ----- finalize

  /**
   * Completes a finalize that got as far as moving the clone's branch: checks the
   * commit, brings it into the repository and moves the proposal branch. `None`
   * when there is nothing it can vouch for.
   */
  function Recover(g: Git, p: Receipt, author: Author, known: Option<Commit>, budget: nat): (Git, Option<Answer>)
    requires g.clone.Some?
  {
    var c := g.clone.value;
    var checkedOut := CheckedOut(c, p);
    if checkedOut.None? then (g, None)
    else
      var head := checkedOut.value;
      if head == p.base || (known.Some? && head != known.value) || !Clean(c, head) || !Trusted(p, author, head)
      then (g, None)
      else
        var fetches := head !in g.objects;
        if fetches && budget == 0 then (g, Some(Crashed))
        else
          var g1 := g.(objects := g.objects + {head});
          if p.branch !in g.refs then (g1, None)
          else if g.refs[p.branch] == p.base then
            if budget == (if fetches then 1 else 0) then (g1, Some(Crashed))
            else (g1.(refs := g1.refs[p.branch := head]), Some(Found(Changed(head))))
          else if g.refs[p.branch] != head then (g1, None)
          else (g1, Some(Found(Changed(head))))
  }

  function Settle(r: (Git, Option<Answer>)): (Git, Answer) {
    (r.0, r.1.GetOr(Refused))
  }

  function Put(g: Git, c: Clone): Git {
    g.(clone := Some(c))
  }

  /** Stages, commits and publishes; `stamp` is the clock of the commit it would make. */
  function Publish(g: Git, p: Receipt, author: Author, budget: nat, stamp: int): (Git, Answer)
    requires g.clone.Some? && p.branch in g.clone.value.refs
  {
    var staged := g.clone.value.(index := g.clone.value.files);
    var commit := Child(p.base, staged.index, author, p.message, stamp);
    var committed := staged.(refs := staged.refs[p.branch := commit], objects := staged.objects + {commit});
    if budget == 0 then (g, Crashed)
    else if staged.index == p.base.tree then (Put(g, staged), Refused)
    else if budget == 1 then (Put(g, staged), Crashed)
    else if budget == 2 then (Put(g, committed), Crashed)
    else
      var fetched := Put(g, committed).(objects := g.objects + {commit});
      if budget == 3 then (fetched, Crashed)
      else if p.branch in g.refs && g.refs[p.branch] == p.base then
        Settle(Recover(fetched.(refs := fetched.refs[p.branch := commit]), p, author, Some(commit), budget - 4))
      else Settle(Recover(fetched, p, author, None, budget - 3))
  }

  function Finalize(g: Git, p: Receipt, author: Author, budget: nat, stamp: int): (Git, Answer) {
    if !IdentityHolds(g, p) || g.clone.None? || !SafeClone(g.clone.value, p) || CheckedOut(g.clone.value, p).None?
    then (g, Refused)
    else
      var head := CheckedOut(g.clone.value, p).value;
      if head != p.base then
        if Clean(g.clone.value, head) then Settle(Recover(g, p, author, Some(head), budget)) else (g, Refused)
      else if Clean(g.clone.value, head) then (g, Found(Unchanged))
      else Publish(g, p, author, budget, stamp)
  }

  // ----- runs of finalize, each cut wherever it is cut, while others go on using the repository

  datatype Try = Try(budget: nat, stamp: int)

  /** A run of finalize, or a branch moved by somebody else. */
  datatype Turn = Finalizing(try: Try) | Moved(branch: string, head: Commit)

  /** Others leave the receipt's branch alone and only move the default branch forward. */
  predicate OthersMay(refs: map<string, Commit>, p: Receipt, branch: string, head: Commit) {
    branch != p.branch && (branch == p.defaultBranch ==> branch in refs && Ancestor(refs[branch], head))
  }

  function Take(g: Git, p: Receipt, author: Author, t: Turn): Git {
    match t
    case Finalizing(try) => Finalize(g, p, author, try.budget, try.stamp).0
    case Moved(branch, head) =>
      if OthersMay(g.refs, p, branch, head) then g.(refs := g.refs[branch := head], objects := g.objects + {head}) else g
  }

  function After(g: Git, p: Receipt, author: Author, turns: seq<Turn>): Git
    decreases |turns|
  {
    if turns == [] then g else After(Take(g, p, author, turns[0]), p, author, turns[1..])
  }

  /** Where the branches would be without any run of finalize. */
  function Elsewhere(refs: map<string, Commit>, p: Receipt, turns: seq<Turn>): map<string, Commit>
    decreases |turns|
  {
    if turns == [] then refs
    else
      var t := turns[0];
      Elsewhere(if t.Moved? && OthersMay(refs, p, t.branch, t.head) then refs[t.branch := t.head] else refs, p, turns[1..])
  }

  /** A prepared worktree in which someone may have edited files: what finalize starts from. */
  ghost predicate Ready(g: Git, p: Receipt) {
    && IdentityHolds(g, p) && p.branch != p.defaultBranch
    && p.branch in g.refs && g.refs[p.branch] == p.base
    && g.clone.Some?
    && var c := g.clone.value;
    && SafeClone(c, p) && CheckedOut(c, p) == Some(p.base)
  }

  /** Every state that cut runs can leave behind, seen from where they started. */
  ghost predicate Underway(g0: Git, g: Git, p: Receipt, author: Author)
    requires Ready(g0, p)
  {
    && g.clone.Some?
    && var (c0, c) := (g0.clone.value, g.clone.value);
    && SafeClone(c, p) && c.head == Some(p.branch) && c.files == c0.files
    && p.branch in c.refs && p.branch in g.refs
    && IdentityHolds(g, p)
    && var head := c.refs[p.branch];
    && if head == p.base then
         && g.refs[p.branch] == p.base && (c.index == c0.index || (c.index == c0.files && !Clean(c0, p.base)))
       else
         && Trusted(p, author, head) && head.tree == c0.files && Clean(c, head)
         && c0.files != p.base.tree
         && (g.refs[p.branch] == p.base || (g.refs[p.branch] == head && head in g.objects))
  }

  /**
   * What the edits amount to: nothing, only something staged and taken back on
   * disk, or a change to publish. In the middle case the first run refuses, but
   * its staging step makes the worktree clean, so later runs answer that nothing
   * changed.
   */
  datatype Verdict = NothingToDo | NothingToCommit | SomethingToCommit

  function VerdictOn(g: Git, p: Receipt): Verdict
    requires g.clone.Some?
  {
    if Clean(g.clone.value, p.base) then NothingToDo
    else if g.clone.value.files == p.base.tree then NothingToCommit
    else SomethingToCommit
  }

  lemma StartsUnderway(g: Git, p: Receipt, author: Author)
    requires Ready(g, p)
    ensures Underway(g, g, p, author)
  {
  }

  lemma {:induction false} DescentJoins(a: Commit, b: Commit, c: Commit)
    requires Ancestor(a, b) && Ancestor(b, c)
    ensures Ancestor(a, c)
    decreases c
  {
    if b != c { DescentJoins(a, b, c.parent); }
  }

  lemma FinalizeKeeps(g0: Git, g: Git, p: Receipt, author: Author, budget: nat, stamp: int)
    requires Ready(g0, p) && Underway(g0, g, p, author)
    ensures Underway(g0, Finalize(g, p, author, budget, stamp).0, p, author)
  {
  }

  lemma TakeKeeps(g0: Git, g: Git, p: Receipt, author: Author, t: Turn)
    requires Ready(g0, p) && Underway(g0, g, p, author)
    ensures Underway(g0, Take(g, p, author, t), p, author)
  {
    if t.Finalizing? {
      FinalizeKeeps(g0, g, p, author, t.try.budget, t.try.stamp);
    } else if t.branch == p.defaultBranch && OthersMay(g.refs, p, t.branch, t.head) {
      DescentJoins(p.base, g.refs[t.branch], t.head);
    }
  }

  lemma {:induction false} TurnsKeep(g0: Git, g: Git, p: Receipt, author: Author, turns: seq<Turn>)
    requires Ready(g0, p) && Underway(g0, g, p, author)
    ensures Underway(g0, After(g, p, author, turns), p, author)
    decreases |turns|
  {
    if turns != [] {
      TakeKeeps(g0, g, p, author, turns[0]);
      TurnsKeep(g0, Take(g, p, author, turns[0]), p, author, turns[1..]);
    }
  }

  lemma FinalizeMovesOwn(g0: Git, g: Git, p: Receipt, author: Author, try: Try)
    requires Ready(g0, p) && Underway(g0, g, p, author)
    ensures
      var g' := Finalize(g, p, author, try.budget, try.stamp).0;
      p.branch in g'.refs && g'.refs == g.refs[p.branch := g'.refs[p.branch]]
  {
  }

  /** The runs of finalize leave every branch but the receipt's where the others put it. */
  lemma {:induction false} OthersUntouched(g0: Git, g: Git, p: Receipt, author: Author, turns: seq<Turn>, refs: map<string, Commit>)
    requires Ready(g0, p) && Underway(g0, g, p, author) && g.refs == refs[p.branch := g.refs[p.branch]]
    ensures
      var g' := After(g, p, author, turns);
      p.branch in g'.refs && g'.refs == Elsewhere(refs, p, turns)[p.branch := g'.refs[p.branch]]
    decreases |turns|
  {
    hide Underway, Finalize;
    HasBranch(g0, g, p, author);
    if turns != [] {
      var t := turns[0];
      TakeKeeps(g0, g, p, author, t);
      HasBranch(g0, Take(g, p, author, t), p, author);
      if t.Finalizing? { FinalizeMovesOwn(g0, g, p, author, t.try); }
      OthersUntouched(g0, Take(g, p, author, t), p, author, turns[1..],
                      if t.Moved? && OthersMay(refs, p, t.branch, t.head) then refs[t.branch := t.head] else refs);
    }
  }

  lemma HasBranch(g0: Git, g: Git, p: Receipt, author: Author)
    requires Ready(g0, p) && Underway(g0, g, p, author)
    ensures p.branch in g.refs && p.branch != p.defaultBranch
  {
  }

  /** The head that has been published or is on its way; none while still editing. */
  function Fixed(g: Git, p: Receipt): Option<Commit> {
    if g.clone.Some? && p.branch in g.clone.value.refs && g.clone.value.refs[p.branch] != p.base
    then Some(g.clone.value.refs[p.branch]) else None
  }

  /** Both branches point at this commit and the repository has it. */
  predicate Published(g: Git, p: Receipt, head: Commit) {
    && g.clone.Some? && p.branch in g.clone.value.refs && g.clone.value.refs[p.branch] == head
    && p.branch in g.refs && g.refs[p.branch] == head && head in g.objects
  }

  /** One run: what it answers is settled by the edits, and a commit once made is the only one there will be. */
  lemma FinalizeAnswers(g0: Git, g: Git, p: Receipt, author: Author, budget: nat, stamp: int)
    requires Ready(g0, p) && Underway(g0, g, p, author)
    ensures
      var (g', answer) := Finalize(g, p, author, budget, stamp);
      match VerdictOn(g0, p)
      case NothingToDo => answer == Found(Unchanged) && g' == g && Fixed(g', p).None?
      case NothingToCommit =>
        && Fixed(g', p).None? && (answer.Found? <==> Clean(g.clone.value, p.base))
        && (answer.Found? ==> answer == Found(Unchanged) && g' == g)
        && (0 < budget ==> Clean(g'.clone.value, p.base))
      case SomethingToCommit =>
        && (answer == Crashed || (answer.Found? && answer.finding.Changed? && Published(g', p, answer.finding.head)))
        && (Fixed(g, p).Some? ==> Fixed(g', p) == Fixed(g, p))
        && (answer.Found? ==> Fixed(g', p) == Some(answer.finding.head))
        && (Fixed(g', p).Some? ==> var h := Fixed(g', p).value; Trusted(p, author, h) && h.tree == g0.clone.value.files)
        && (4 <= budget ==> answer.Found?)
  {
  }

  lemma OneTryKeepsFixed(g0: Git, g: Git, p: Receipt, author: Author, try: Try)
    requires Ready(g0, p) && Underway(g0, g, p, author) && Fixed(g, p).Some?
    ensures
      var g' := Finalize(g, p, author, try.budget, try.stamp).0;
      Fixed(g', p) == Fixed(g, p) && (Published(g, p, Fixed(g, p).value) ==> g' == g)
  {
    assert Published(g, p, Fixed(g, p).value) ==> g.(objects := g.objects + {Fixed(g, p).value}) == g;
  }

  lemma {:induction false} FixedStays(g0: Git, g: Git, p: Receipt, author: Author, turns: seq<Turn>)
    requires Ready(g0, p) && Underway(g0, g, p, author) && Fixed(g, p).Some?
    ensures Fixed(After(g, p, author, turns), p) == Fixed(g, p)
    ensures Published(g, p, Fixed(g, p).value) ==> Published(After(g, p, author, turns), p, Fixed(g, p).value)
    decreases |turns|
  {
    if turns != [] {
      TakeKeeps(g0, g, p, author, turns[0]);
      if turns[0].Finalizing? { OneTryKeepsFixed(g0, g, p, author, turns[0].try); }
      hide Underway, Finalize;
      FixedStays(g0, Take(g, p, author, turns[0]), p, author, turns[1..]);
    }
  }

  /** Nothing made and nothing left to stage: every run finds the worktree unchanged. */
  predicate Idle(g: Git, p: Receipt) {
    g.clone.Some? && p.branch in g.clone.value.refs && g.clone.value.refs[p.branch] == p.base && Clean(g.clone.value, p.base)
  }

  lemma IdleAnswers(g0: Git, g: Git, p: Receipt, author: Author, try: Try)
    requires Ready(g0, p) && Underway(g0, g, p, author) && Idle(g, p)
    ensures Finalize(g, p, author, try.budget, try.stamp) == (g, Found(Unchanged))
  {
  }

  lemma {:induction false} IdleStays(g0: Git, g: Git, p: Receipt, author: Author, turns: seq<Turn>)
    requires Ready(g0, p) && Underway(g0, g, p, author) && Idle(g, p)
    ensures Idle(After(g, p, author, turns), p)
    decreases |turns|
  {
    if turns != [] {
      TakeKeeps(g0, g, p, author, turns[0]);
      if turns[0].Finalizing? { IdleAnswers(g0, g, p, author, turns[0].try); }
      hide Underway, Finalize;
      IdleStays(g0, Take(g, p, author, turns[0]), p, author, turns[1..]);
    }
  }

  lemma UnchangedIsIdle(g0: Git, g: Git, p: Receipt, author: Author, try: Try)
    requires Ready(g0, p) && Underway(g0, g, p, author)
    requires Finalize(g, p, author, try.budget, try.stamp).1 == Found(Unchanged)
    ensures Finalize(g, p, author, try.budget, try.stamp).0 == g && Idle(g, p)
  {
  }

  /**
   * Crash-idempotence: after any number of runs cut at any step, a run that
   * answers gives an answer which every later run repeats, cut or not, whatever
   * clock it reads and however others move their branches meanwhile.
   */
  lemma AnswersRepeat(g0: Git, p: Receipt, author: Author, before: seq<Turn>, answering: Try, between: seq<Turn>, later: Try)
    requires Ready(g0, p)
    requires Finalize(After(g0, p, author, before), p, author, answering.budget, answering.stamp).1.Found?
    ensures
      var (g1, answer) := Finalize(After(g0, p, author, before), p, author, answering.budget, answering.stamp);
      Finalize(After(g1, p, author, between), p, author, later.budget, later.stamp).1 == answer
  {
    var g := After(g0, p, author, before);
    var (g1, answer) := Finalize(g, p, author, answering.budget, answering.stamp);
    StartsUnderway(g0, p, author);
    TurnsKeep(g0, g0, p, author, before);
    FinalizeAnswers(g0, g, p, author, answering.budget, answering.stamp);
    FinalizeKeeps(g0, g, p, author, answering.budget, answering.stamp);
    TurnsKeep(g0, g1, p, author, between);
    var g2 := After(g1, p, author, between);
    hide Finalize, After, Underway;
    if answer == Found(Unchanged) {
      UnchangedIsIdle(g0, g, p, author, answering);
      IdleStays(g0, g1, p, author, between);
      IdleAnswers(g0, g2, p, author, later);
    } else {
      FixedStays(g0, g1, p, author, between);
      PublishedAnswers(g0, g2, p, author, later.budget, later.stamp, answer.finding.head);
    }
  }

  /** Once published there is nothing left to do, so even a run without budget answers. */
  lemma PublishedAnswers(g0: Git, g: Git, p: Receipt, author: Author, budget: nat, stamp: int, head: Commit)
    requires Ready(g0, p) && Underway(g0, g, p, author) && Published(g, p, head) && head != p.base
    ensures Finalize(g, p, author, budget, stamp).1 == Found(Changed(head))
  {
  }

  /**
   * What any runs leave behind: a changed result has the base as parent and the
   * edited tree; the proposal branch is at the base or at the one commit there
   * is; and every other branch, the default among them, is where others put it.
   */
  lemma FinalizeIsContained(g0: Git, p: Receipt, author: Author, turns: seq<Turn>)
    requires Ready(g0, p)
    ensures
      var g := After(g0, p, author, turns);
      && p.branch in g.refs && g.refs == Elsewhere(g0.refs, p, turns)[p.branch := g.refs[p.branch]]
      && (g.refs[p.branch] == p.base || Fixed(g, p) == Some(g.refs[p.branch]))
      && (Fixed(g, p).Some? ==>
            Fixed(g, p).value.Child? && Fixed(g, p).value.parent == p.base
            && Fixed(g, p).value.tree == g0.clone.value.files != p.base.tree)
  {
    StartsUnderway(g0, p, author);
    TurnsKeep(g0, g0, p, author, turns);
    assert g0.refs == g0.refs[p.branch := g0.refs[p.branch]];
    OthersUntouched(g0, g0, p, author, turns, g0.refs);
  }

  /** The proposal branch moves at most once: from the first commit it shows, it never moves again. */
  lemma ProposalMovesOnce(g0: Git, p: Receipt, author: Author, turns: seq<Turn>, more: seq<Turn>)
    requires Ready(g0, p)
    ensures
      var g := After(g0, p, author, turns);
      p.branch in g.refs && (g.refs[p.branch] != p.base ==>
        var g' := After(g, p, author, more);
        p.branch in g'.refs && g'.refs[p.branch] == g.refs[p.branch])
  {
    StartsUnderway(g0, p, author);
    TurnsKeep(g0, g0, p, author, turns);
    var g := After(g0, p, author, turns);
    if g.refs[p.branch] != p.base {
      FixedStays(g0, g, p, author, more);
    }
  }

  // ----- what a recovery inspection sees

  datatype Seen = Absent | PreparedClean | PreparedDirty | FinalizedClean | Drifted

  function Inspect(g: Git, p: Receipt, author: Author): Seen {
    if !IdentityHolds(g, p) then Drifted
    else if g.clone.None? then Absent
    else
      var c := g.clone.value;
      var head := CheckedOut(c, p);
      if !SafeClone(c, p) || head.None? then Drifted
      else if head.value == p.base then if Clean(c, head.value) then PreparedClean else PreparedDirty
      else if Clean(c, head.value) && Trusted(p, author, head.value) then FinalizedClean
      else Drifted
  }

  /** However finalize is cut, the worktree is never mistaken for a foreign one. */
  lemma NeverSeenAsDrifted(g0: Git, p: Receipt, author: Author, turns: seq<Turn>)
    requires Ready(g0, p)
    ensures
      var g := After(g0, p, author, turns);
      Inspect(g, p, author) ==
        if Fixed(g, p).Some? then FinalizedClean
        else if g.clone.Some? && Clean(g.clone.value, p.base) then PreparedClean else PreparedDirty
  {
    StartsUnderway(g0, p, author);
    TurnsKeep(g0, g0, p, author, turns);
  }

  // ----- cleanup

  /** Removing the directory; `false` when the receipt or the directory is not the expected one. */
  function Cleanup(g: Git, p: Receipt): (Git, bool) {
    if !IdentityHolds(g, p) then (g, false)
    else if g.clone.None? then (g, true)
    else if !SafeClone(g.clone.value, p) then (g, false)
    else (g.(clone := None), true)
  }

  /** After any finalize runs the directory can be removed, once or again, and every branch survives. */
  lemma CleanupAfterFinalize(g0: Git, p: Receipt, author: Author, turns: seq<Turn>)
    requires Ready(g0, p)
    ensures
      var g := After(g0, p, author, turns);
      var (g1, ok) := Cleanup(g, p);
      && ok && g1.clone.None? && g1.refs == g.refs && g1.objects == g.objects
      && Cleanup(g1, p) == (g1, true)
  {
    StartsUnderway(g0, p, author);
    TurnsKeep(g0, g0, p, author, turns);
  }

  // ----- prepare

  /** Branch, private clone, no origin, branch checked out, files as in the base, marker: one effect each. */
  function PrepareEffects(g: Git, p: Receipt, done: nat): Git
    requires p.defaultBranch in g.refs
  {
    var branched := g.(refs := g.refs[p.branch := p.base]);
    var cloned := Clone(map[p.defaultBranch := g.refs[p.defaultBranch]], Some(p.defaultBranch), g.objects, "", "", true, None);
    var detached := cloned.(hasOrigin := false);
    var checkedOut := detached.(refs := detached.refs[p.branch := p.base], head := Some(p.branch),
                                index := p.base.tree, files := p.base.tree);
    if done == 0 then g
    else if done == 1 then branched
    else if done == 2 then Put(branched, cloned)
    else if done == 3 then Put(branched, detached)
    else if done < 7 then Put(branched, checkedOut)
    else Put(branched, checkedOut.(marker := Some(p.marker)))
  }

  predicate Exact(g: Git, p: Receipt) {
    && g.clone.Some? && p.branch in g.refs && g.refs[p.branch] == p.base
    && SafeClone(g.clone.value, p) && CheckedOut(g.clone.value, p) == Some(p.base) && Clean(g.clone.value, p.base)
  }

  datatype PrepareAnswer = Prepared | PrepareCrashed | PrepareRefused

  function Prepare(g: Git, p: Receipt, branchOnlyRecovery: bool, budget: nat): (Git, PrepareAnswer) {
    if !IdentityHolds(g, p) then (g, PrepareRefused)
    else if Exact(g, p) then (g, Prepared)
    else if g.clone.Some? || (p.branch in g.refs && !(branchOnlyRecovery && g.refs[p.branch] == p.base))
    then (g, PrepareRefused)
    else if budget < 7 then (PrepareEffects(g, p, budget), PrepareCrashed)
    else (PrepareEffects(g, p, 7), Prepared)
  }

  /**
   * A prepare that was cut can be taken up again exactly when it was cut before
   * its clone directory existed or after its marker was written; in between the
   * directory is refused, and the attempt is quarantined.
   */
  lemma PrepareResumesIff(g: Git, p: Receipt, budget: nat)
    requires IdentityHolds(g, p) && g.clone.None? && p.branch !in g.refs
    ensures
      var (g1, first) := Prepare(g, p, true, budget);
      var (g2, second) := Prepare(g1, p, true, 7);
      && (second == Prepared <==> budget <= 1 || 7 <= budget)
      && (second == Prepared ==> Ready(g2, p) && Clean(g2.clone.value, p.base) && g2 == PrepareEffects(g, p, 7))
      && (second != Prepared ==> g2 == g1)
  {
    assert p.branch != p.defaultBranch;
    var g1 := PrepareEffects(g, p, 1);
    assert IdentityHolds(g1, p);
    assert PrepareEffects(g1, p, 7).refs == PrepareEffects(g, p, 7).refs;
    assert PrepareEffects(g1, p, 7) == PrepareEffects(g, p, 7);
  }

  // ----- what is refused, from any state

  /** The base is a known commit on the default branch's history. */
  predicate BaseStands(g: Git, p: Receipt) {
    p.base in g.objects && p.defaultBranch in g.refs && Ancestor(p.base, g.refs[p.defaultBranch])
  }

  /** There is a directory without a remote that carries this receipt's marker. */
  predicate OwnDirectory(g: Git, p: Receipt) {
    g.clone.Some? && !g.clone.value.hasOrigin && g.clone.value.marker == Some(p.marker)
  }

  /** The commit checked out is the base, or one that this author made on it under this message. */
  predicate OwnWork(p: Receipt, author: Author, head: Commit) {
    match head
    case Root(_) => head == p.base
    case Child(parent, _, signed, message, _) => head == p.base || (parent == p.base && signed == author && message == p.message)
  }

  /** The proposal branch is where prepare left it, or shows the very commit to publish. */
  predicate BranchFree(g: Git, p: Receipt, head: Commit) {
    p.branch in g.refs && (g.refs[p.branch] == p.base || g.refs[p.branch] == head)
  }

  /**
   * A finalize can answer when the worktree is this receipt's own with its branch
   * checked out, and either nothing was edited, or there is an edit to commit, or the
   * worktree stands clean on its own commit; and to publish, when the proposal branch is free.
   */
  predicate CanFinalize(g: Git, p: Receipt, author: Author, stamp: int) {
    && BaseStands(g, p) && OwnDirectory(g, p)
    && var c := g.clone.value;
    && c.head == Some(p.branch) && p.branch in c.refs
    && var head := c.refs[p.branch];
    && OwnWork(p, author, head)
    && if head == p.base then
         || (c.index == p.base.tree && c.files == p.base.tree)
         || (c.files != p.base.tree && BranchFree(g, p, Child(p.base, c.files, author, p.message, stamp)))
       else c.index == head.tree && c.files == head.tree && BranchFree(g, p, head)
  }

  /**
   * From any state a finalize with time for its steps answers exactly when it can
   * by the state it finds; cut or not, it never answers otherwise. What it does not
   * answer leaves every branch but the proposal branch alone, and that one too when
   * it refuses; the files are never touched.
   */
  lemma FinalizeSucceedsIff(g: Git, p: Receipt, author: Author, budget: nat, stamp: int)
    ensures
      var (g', answer) := Finalize(g, p, author, budget, stamp);
      && (4 <= budget ==> (answer.Found? <==> CanFinalize(g, p, author, stamp)))
      && (answer.Found? ==> CanFinalize(g, p, author, stamp))
      && (answer == Refused ==> g'.refs == g.refs)
      && (g'.refs == g.refs || (p.branch in g.refs && p.branch in g'.refs && g'.refs == g.refs[p.branch := g'.refs[p.branch]]))
      && g'.clone.Some? == g.clone.Some? && (g.clone.Some? ==> g'.clone.value.files == g.clone.value.files)
  {
    hide Ancestor;
  }

  /** What is answered is what is there: nothing changed, or a commit of exactly the files that both branches now show. */
  lemma FinalizeTellsTheTruth(g: Git, p: Receipt, author: Author, budget: nat, stamp: int)
    requires Finalize(g, p, author, budget, stamp).1.Found?
    ensures
      var (g', answer) := Finalize(g, p, author, budget, stamp);
      match answer.finding
      case Unchanged =>
        g' == g && g.clone.Some? && p.branch in g.clone.value.refs && g.clone.value.refs[p.branch] == p.base
        && g.clone.value.index == p.base.tree && g.clone.value.files == p.base.tree
      case Changed(head) =>
        head.Child? && head.parent == p.base && head.author == author && head.message == p.message
        && g.clone.Some? && head.tree == g.clone.value.files && p.branch in g.clone.value.refs
        && (if g.clone.value.refs[p.branch] == p.base then head.stamp == stamp else head == g.clone.value.refs[p.branch])
        && g'.clone.Some? && p.branch in g'.clone.value.refs && g'.clone.value.refs[p.branch] == head
        && p.branch in g'.refs && g'.refs[p.branch] == head && head in g'.objects
  {
    hide Ancestor;
  }

  /** The directory is this receipt's own, clean on the base, and the proposal branch is at the base. */
  predicate AlreadyPrepared(g: Git, p: Receipt) {
    && OwnDirectory(g, p) && p.branch in g.refs && g.refs[p.branch] == p.base
    && var c := g.clone.value;
    && c.head == Some(p.branch) && p.branch in c.refs && c.refs[p.branch] == p.base
    && c.index == p.base.tree && c.files == p.base.tree
  }

  /**
   * From any state a prepare with time for its steps succeeds exactly when the
   * base stands and either everything is prepared already, or there is no directory
   * and the branch is new or, where recovery is allowed, still at the base. It then
   * leaves a prepared worktree and every other branch as it was; refused, it changes nothing.
   */
  lemma PrepareSucceedsIff(g: Git, p: Receipt, branchOnlyRecovery: bool, budget: nat)
    ensures
      var (g', answer) := Prepare(g, p, branchOnlyRecovery, budget);
      var may := BaseStands(g, p) && (AlreadyPrepared(g, p)
        || (g.clone.None? && (p.branch !in g.refs || (branchOnlyRecovery && g.refs[p.branch] == p.base))));
      && (7 <= budget ==> (answer == Prepared <==> may)) && (answer == PrepareRefused <==> !may)
      && (answer == PrepareRefused ==> g' == g)
      && (answer == Prepared ==> AlreadyPrepared(g', p) && (AlreadyPrepared(g, p) ==> g' == g))
      && (answer == Prepared && g.clone.None? ==> g'.clone.value.objects == g.objects && g'.objects == g.objects)
      && (forall b | b != p.branch :: (b in g'.refs <==> b in g.refs) && (b in g.refs ==> g'.refs[b] == g.refs[b]))
      && (p.branch in g.refs ==> p.branch in g'.refs && g'.refs[p.branch] == g.refs[p.branch])
  {
    hide Ancestor;
  }

  /** A directory is removed exactly when it is this receipt's own; a missing one counts as removed, and nothing else changes. */
  lemma CleanupAllowedIff(g: Git, p: Receipt)
    ensures
      var (g', ok) := Cleanup(g, p);
      && (ok <==> BaseStands(g, p) && (g.clone.None? || OwnDirectory(g, p)))
      && g' == if ok then Git(g.refs, g.objects, None) else g
  {
    hide Ancestor;
  }

  /** A recovery inspection tells by the same marks: foreign or moved worktrees are all seen as drifted. */
  lemma SeenByItsMarks(g: Git, p: Receipt, author: Author)
    ensures
      var seen := Inspect(g, p, author);
      var own := BaseStands(g, p) && OwnDirectory(g, p) && g.clone.value.head == Some(p.branch) && p.branch in g.clone.value.refs;
      && (seen == Absent <==> BaseStands(g, p) && g.clone.None?)
      && (seen == PreparedClean || seen == PreparedDirty <==> own && g.clone.value.refs[p.branch] == p.base)
      && (seen == PreparedClean ==> g.clone.value.index == p.base.tree && g.clone.value.files == p.base.tree)
      && (seen == PreparedDirty ==> g.clone.value.index != p.base.tree || g.clone.value.files != p.base.tree)
      && (seen == FinalizedClean <==>
            && own && g.clone.value.refs[p.branch] != p.base && OwnWork(p, author, g.clone.value.refs[p.branch])
            && g.clone.value.index == g.clone.value.refs[p.branch].tree && g.clone.value.files == g.clone.value.index)
  {
    hide Ancestor;
  }
}
