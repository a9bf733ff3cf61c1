/**
 * The Git port, step by step: every assignment to a field is one Git command that
 * has run, and the process may die before each.
 */
module GitWorktreePort {
  import opened Prelude
  import opened GitWorktree

  class LocalGitWorktreePort {
    var refs: map<string, Commit>
    var objects: set<Commit>
    var clone: Option<Clone>

    ghost function State(): Git
      reads this
    {
      Git(refs, objects, clone)
    }

    constructor (repository: Git)
      ensures State() == repository
    {
      refs, objects, clone := repository.refs, repository.objects, repository.clone;
    }

    method IdentityIsValid(p: Receipt) returns (valid: bool)
      ensures valid == IdentityHolds(State(), p)
    {
      if p.defaultBranch !in refs || p.base !in objects { return false; }
      var at := refs[p.defaultBranch];
      while at != p.base && at.Child?
        invariant Ancestor(p.base, refs[p.defaultBranch]) <==> Ancestor(p.base, at)
        decreases at
      {
        at := at.parent;
      }
      return at == p.base;
    }

    /** `git update-ref` with an expected old value, in the repository. */
    method UpdateRef(branch: string, to: Commit, expected: Commit) returns (moved: bool)
      modifies `refs
      ensures moved == (branch in old(refs) && old(refs)[branch] == expected)
      ensures refs == if moved then old(refs)[branch := to] else old(refs)
    {
      if branch !in refs || refs[branch] != expected { return false; }
      refs := refs[branch := to];
      return true;
    }

    method FinalizeOrRecover(p: Receipt, author: Author, budget: nat, stamp: int) returns (answer: Answer)
      modifies this
      ensures (State(), answer) == Finalize(old(State()), p, author, budget, stamp)
    {
      var valid := IdentityIsValid(p);
      if !valid || clone.None? || clone.value.hasOrigin || clone.value.marker != Some(p.marker)
         || clone.value.head != Some(p.branch) || p.branch !in clone.value.refs
      {
        return Refused;
      }
      var head := clone.value.refs[p.branch];
      var dirty := clone.value.index != head.tree || clone.value.files != clone.value.index;
      if head != p.base {
        if dirty { return Refused; }
        var recovered := RecoverFinalized(p, author, Some(head), budget);
        return recovered.GetOr(Refused);
      }
      if !dirty { return Found(Unchanged); }

      if budget == 0 { return Crashed; }
      clone := Some(clone.value.(index := clone.value.files));
      if clone.value.index == p.base.tree { return Refused; }

      var commit := Child(p.base, clone.value.index, author, p.message, stamp);
      if budget == 1 { return Crashed; }
      clone := Some(clone.value.(refs := clone.value.refs[p.branch := commit], objects := clone.value.objects + {commit}));
      if budget == 2 { return Crashed; }
      objects := objects + {commit};
      if budget == 3 { return Crashed; }
      var moved := UpdateRef(p.branch, commit, p.base);
      var published;
      if moved {
        published := RecoverFinalized(p, author, Some(commit), budget - 4);
      } else {
        published := RecoverFinalized(p, author, None, budget - 3);
      }
      return published.GetOr(Refused);
    }

    method RecoverFinalized(p: Receipt, author: Author, known: Option<Commit>, budget: nat) returns (answer: Option<Answer>)
      requires clone.Some?
      modifies `refs, `objects
      ensures (State(), answer) == Recover(old(State()), p, author, known, budget)
    {
      if clone.value.head != Some(p.branch) || p.branch !in clone.value.refs { return None; }
      var head := clone.value.refs[p.branch];
      if head == p.base || (known.Some? && head != known.value) { return None; }
      if clone.value.index != head.tree || clone.value.files != clone.value.index { return None; }
      if !Trusted(p, author, head) { return None; }
      var left := budget;
      if head !in objects {
        if left == 0 { return Some(Crashed); }
        objects := objects + {head};
        left := left - 1;
      }
      assert objects == old(objects) + {head};
      if p.branch !in refs { return None; }
      if refs[p.branch] == p.base {
        if left == 0 { return Some(Crashed); }
        var _ := UpdateRef(p.branch, head, p.base);
      } else if refs[p.branch] != head {
        return None;
      }
      return Some(Found(Changed(head)));
    }

    method CleanupOrRecover(p: Receipt) returns (ok: bool)
      modifies `clone
      ensures (State(), ok) == Cleanup(old(State()), p)
    {
      var valid := IdentityIsValid(p);
      if !valid { return false; }
      if clone.None? { return true; }
      if clone.value.hasOrigin || clone.value.marker != Some(p.marker) { return false; }
      clone := None;
      return true;
    }

    method PrepareInternal(p: Receipt, branchOnlyRecovery: bool, budget: nat) returns (answer: PrepareAnswer)
      modifies this
      ensures (State(), answer) == Prepare(old(State()), p, branchOnlyRecovery, budget)
    {
      var valid := IdentityIsValid(p);
      if !valid { return PrepareRefused; }
      if Exact(Git(refs, objects, clone), p) { return Prepared; }
      if clone.Some? { return PrepareRefused; }
      if p.branch in refs && !(branchOnlyRecovery && refs[p.branch] == p.base) { return PrepareRefused; }

      var defaultHead := refs[p.defaultBranch];
      if budget == 0 { return PrepareCrashed; }
      refs := refs[p.branch := p.base];
      if budget == 1 { return PrepareCrashed; }
      clone := Some(Clone(map[p.defaultBranch := defaultHead], Some(p.defaultBranch), objects, "", "", true, None));
      if budget == 2 { return PrepareCrashed; }
      clone := Some(clone.value.(hasOrigin := false));
      if budget == 3 { return PrepareCrashed; }
      clone := Some(clone.value.(refs := clone.value.refs[p.branch := p.base], head := Some(p.branch),
                                 index := p.base.tree, files := p.base.tree));
      // Resetting to the base and removing the clone's logs change nothing kept here.
      if budget < 7 { return PrepareCrashed; }
      clone := Some(clone.value.(marker := Some(p.marker)));
      return Prepared;
    }
  }
}
