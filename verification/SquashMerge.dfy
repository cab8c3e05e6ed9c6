/** Squash-merging a task branch into its base branch, through the command line or through the object store. */
module SquashMerge {
  import opened Options
  import opened CommitGraph

  type Branch = string

  /** `dirty` holds the branches whose checkout has staged changes. */
  datatype Repository = Repository(commits: seq<Commit>, refs: map<Branch, nat>, dirty: set<Branch>)

  predicate Valid(r: Repository) {
    WellFormed(r.commits) && forall b :: b in r.refs ==> r.refs[b] < |r.commits|
  }

  datatype MergeError =
    | BranchNotFound(branch: Branch)
    | BranchesDiverged(behind: nat)
    | WorktreeDirty
    | NothingToCommit
    | MergeConflicts
    | Failed

  /** Where git or the file system may fail during one merge. */
  datatype Point = BeforeMerge | AtCommit | AtBaseRef | AfterBaseMoved

  datatype Circumstances = Circumstances(checkedOut: bool, fails: Option<Point>)

  // ---------------------------------------------------------------- branch status

  datatype Status = Status(ahead: nat, behind: nat)

  function GetBranchStatus(r: Repository, branch: Branch, base: Branch): Result<Status, MergeError>
    requires Valid(r)
  {
    if branch !in r.refs then Err(BranchNotFound(branch))
    else if base !in r.refs then Err(BranchNotFound(base))
    else Ok(Status(Missing(r.commits, r.refs[branch], r.refs[base]), Missing(r.commits, r.refs[base], r.refs[branch])))
  }

  /** Behind by nothing means the base tip is in the branch's history; level means one and the same commit. */
  lemma StatusMeans(r: Repository, branch: Branch, base: Branch)
    requires Valid(r) && branch in r.refs && base in r.refs
    ensures var s := GetBranchStatus(r, branch, base).value;
            && (s.behind == 0 <==> r.refs[base] in History(r.commits, r.refs[branch]))
            && (s.ahead == 0 <==> r.refs[branch] in History(r.commits, r.refs[base]))
            && (s == Status(0, 0) <==> r.refs[branch] == r.refs[base])
  {
    MissingNothing(r.commits, r.refs[base], r.refs[branch]);
    MissingNothing(r.commits, r.refs[branch], r.refs[base]);
    LevelIsSame(r.commits, r.refs[branch], r.refs[base]);
  }

  /** A commit on the branch adds one to ahead, a commit on the base adds one to behind; the other count stays. */
  lemma CommitsMoveTheStatus(r: Repository, branch: Branch, base: Branch, tree: Tree)
    requires Valid(r) && branch in r.refs && base in r.refs && branch != base
    ensures var s := GetBranchStatus(r, branch, base).value;
            && Valid(WithCommit(r, branch, tree)) && Valid(WithCommit(r, base, tree))
            && GetBranchStatus(WithCommit(r, branch, tree), branch, base) == Ok(Status(s.ahead + 1, s.behind))
            && GetBranchStatus(WithCommit(r, base, tree), branch, base) == Ok(Status(s.ahead, s.behind + 1))
  {
    CommitCounts(r.commits, r.refs[branch], r.refs[base], tree);
    CommitCounts(r.commits, r.refs[base], r.refs[branch], tree);
  }

  function WithCommit(r: Repository, branch: Branch, tree: Tree): Repository
    requires Valid(r) && branch in r.refs
  {
    r.(commits := r.commits + [Commit([r.refs[branch]], tree)], refs := r.refs[branch := |r.commits|])
  }

  // ---------------------------------------------------------------- what a merge does

  /**
   * The result of a merge. No three-way merge appears here: the commit that is made carries the task's tree,
   * which is what the methods below are proved to compute.
   */
  function Merged(r: Repository, base: Branch, task: Branch, at: Circumstances): (Repository, Result<nat, MergeError>)
    requires Valid(r)
  {
    var status := GetBranchStatus(r, task, base);
    if status.Err? then (r, Err(status.error))
    else if status.value.behind > 0 then (r, Err(BranchesDiverged(status.value.behind)))
    else if at.fails == Some(BeforeMerge) then (r, Err(Failed))
    else if at.checkedOut && base in r.dirty then (r, Err(WorktreeDirty))
    else
      var tree, was := r.commits[r.refs[task]].tree, r.refs[base];
      var made := r.(commits := r.commits + [Commit([was], tree)]);
      var id := |r.commits|;
      if at.checkedOut && tree == r.commits[was].tree then (r, Err(NothingToCommit))
      else if at.checkedOut && at.fails == Some(AtCommit) then (r.(dirty := r.dirty + {base}), Err(Failed))
      else if at.fails == Some(AtCommit) then (r, Err(Failed))
      else if !at.checkedOut && at.fails == Some(AtBaseRef) then (made, Err(Failed))
      else if at.fails == Some(AfterBaseMoved) then (made.(refs := r.refs[base := id]), Err(Failed))
      else (made.(refs := r.refs[base := id][task := id]), Ok(id))
  }

  /** The only property asked of three-way merging: if one side has not changed, the other side is the result. */
  ghost predicate ThreeWay(merge: (Tree, Tree, Tree) -> Option<Tree>) {
    forall b, t :: merge(b, b, t) == Some(t)
  }

  class Repo {
    var commits: seq<Commit>
    var refs: map<Branch, nat>
    var dirty: set<Branch>
    /** Three-way merging of trees, and the base to use when there is not exactly one merge base. */
    const merge: (Tree, Tree, Tree) -> Option<Tree>
    const virtualBase: set<nat> -> Tree

    function Now(): Repository
      reads this
    {
      Repository(commits, refs, dirty)
    }

    constructor (mergeTrees: (Tree, Tree, Tree) -> Option<Tree>, virtual: set<nat> -> Tree)
      ensures Now() == Repository([], map[], {}) && merge == mergeTrees && virtualBase == virtual
    {
      commits := [];
      refs := map[];
      dirty := {};
      merge := mergeTrees;
      virtualBase := virtual;
    }

    /** What merging two commits yields, or nothing if they conflict. */
    ghost function MergeTree(ours: nat, theirs: nat): Option<Tree>
      reads this
      requires Valid(Now()) && ours < |commits| && theirs < |commits|
    {
      var bases := MergeBases(commits, ours, theirs);
      var baseTree :=
        if exists c :: c in bases && bases == {c} then var c :| c in bases && bases == {c}; commits[c].tree
        else virtualBase(bases);
      merge(baseTree, commits[ours].tree, commits[theirs].tree)
    }

    /** If the first commit is in the second one's history, three-way merging gives the second one's tree. */
    lemma MergeIntoAncestor(ours: nat, theirs: nat)
      requires Valid(Now()) && theirs < |commits| && ours in History(commits, theirs) && ThreeWay(merge)
      ensures MergeTree(ours, theirs) == Some(commits[theirs].tree)
    {
      AncestorIsMergeBase(commits, ours, theirs);
      assert ours in MergeBases(commits, ours, theirs);
    }

    method MergeCommits(ours: nat, theirs: nat) returns (tree: Option<Tree>)
      requires Valid(Now()) && ours < |commits| && theirs < |commits|
      ensures tree == MergeTree(ours, theirs)
    {
      var bases := MergeBases(commits, ours, theirs);
      var baseTree;
      if c :| c in bases && bases == {c} {
        baseTree := commits[c].tree;
      } else {
        baseTree := virtualBase(bases);
      }
      tree := merge(baseTree, commits[ours].tree, commits[theirs].tree);
    }

    method NewCommit(parent: nat, tree: Tree) returns (id: nat)
      requires Valid(Now()) && parent < |commits|
      modifies this`commits
      ensures commits == old(commits) + [Commit([parent], tree)] && id == |old(commits)|
      ensures Valid(Now())
    {
      id := |commits|;
      commits := commits + [Commit([parent], tree)];
    }

    /** On the command line: check out the base, merge with --squash, commit. */
    method MergeSquashCommit(base: Branch, task: Branch, at: Circumstances) returns (r: Result<nat, MergeError>)
      requires Valid(Now()) && base in refs && task in refs && at.checkedOut && base !in dirty
      modifies this
      ensures Valid(Now())
      ensures var merged, was := old(MergeTree(refs[base], refs[task])), old(refs)[base];
              if merged.None? then r == Err(MergeConflicts) && Now() == old(Now()).(dirty := old(dirty) + {base})
              else if merged.value == old(commits)[was].tree then r == Err(NothingToCommit) && Now() == old(Now())
              else if at.fails == Some(AtCommit) then
                r == Err(Failed) && Now() == old(Now()).(dirty := old(dirty) + {base})
              else
                && r == Ok(|old(commits)|) && dirty == old(dirty)
                && commits == old(commits) + [Commit([was], merged.value)] && refs == old(refs)[base := |old(commits)|]
    {
      var tree := MergeCommits(refs[base], refs[task]);
      if tree.None? {
        dirty := dirty + {base};
        return Err(MergeConflicts);
      }
      if tree.value == commits[refs[base]].tree {
        return Err(NothingToCommit);
      }
      if at.fails == Some(AtCommit) {
        dirty := dirty + {base};
        return Err(Failed);
      }
      var id := NewCommit(refs[base], tree.value);
      refs := refs[base := id];
      return Ok(id);
    }

    /** In the object store: merge in memory, commit, move the base. */
    method PerformSquashMerge(baseCommit: nat, taskCommit: nat, base: Branch, at: Circumstances)
      returns (r: Result<nat, MergeError>)
      requires Valid(Now()) && baseCommit < |commits| && taskCommit < |commits| && base in refs
      modifies this
      ensures Valid(Now()) && dirty == old(dirty)
      ensures var merged := old(MergeTree(baseCommit, taskCommit));
              if merged.None? then r == Err(MergeConflicts) && Now() == old(Now())
              else if at.fails == Some(AtCommit) then r == Err(Failed) && Now() == old(Now())
              else
                && commits == old(commits) + [Commit([baseCommit], merged.value)]
                && (if at.fails == Some(AtBaseRef) then r == Err(Failed) && refs == old(refs)
                    else r == Ok(|old(commits)|) && refs == old(refs)[base := |old(commits)|])
    {
      var tree := MergeCommits(baseCommit, taskCommit);
      if tree.None? {
        return Err(MergeConflicts);
      }
      if at.fails == Some(AtCommit) {
        return Err(Failed);
      }
      var id := NewCommit(baseCommit, tree.value);
      if at.fails == Some(AtBaseRef) {
        return Err(Failed);
      }
      refs := refs[base := id];
      return Ok(id);
    }

    method MergeChanges(base: Branch, task: Branch, at: Circumstances) returns (r: Result<nat, MergeError>)
      requires Valid(Now()) && ThreeWay(merge)
      modifies this
      ensures Valid(Now())
      ensures (Now(), r) == Merged(old(Now()), base, task, at)
    {
      var status := GetBranchStatus(Now(), task, base);
      if status.Err? {
        return Err(status.error);
      }
      if status.value.behind > 0 {
        return Err(BranchesDiverged(status.value.behind));
      }
      StatusMeans(Now(), task, base);
      MergeIntoAncestor(refs[base], refs[task]);
      if at.fails == Some(BeforeMerge) {
        return Err(Failed);
      }
      if at.checkedOut {
        if base in dirty {
          return Err(WorktreeDirty);
        }
        r := MergeSquashCommit(base, task, at);
      } else {
        r := PerformSquashMerge(refs[base], refs[task], base, at);
      }
      if r.Err? {
        return;
      }
      if at.fails == Some(AfterBaseMoved) {
        return Err(Failed);
      }
      refs := refs[task := r.value];
    }
  }

  // ---------------------------------------------------------------- after a merge

  lemma MergeKeepsValid(r: Repository, base: Branch, task: Branch, at: Circumstances)
    requires Valid(r)
    ensures Valid(Merged(r, base, task, at).0)
  {}

  /**
   * A merge succeeds exactly when both branches exist, the base tip is in the task's history, nothing outside
   * fails, and, where the base is checked out, nothing is staged there and the task's tree differs.
   */
  lemma SucceedsExactlyWhen(r: Repository, base: Branch, task: Branch, at: Circumstances)
    requires Valid(r)
    ensures Merged(r, base, task, at).1.Ok? <==>
            && base in r.refs && task in r.refs && r.refs[base] in History(r.commits, r.refs[task])
            && (at.fails.None? || (at.checkedOut && at.fails == Some(AtBaseRef)))
            && (at.checkedOut ==> base !in r.dirty && r.commits[r.refs[task]].tree != r.commits[r.refs[base]].tree)
  {
    if base in r.refs && task in r.refs {
      StatusMeans(r, task, base);
    }
    if at.fails.Some? {
      match at.fails.value {
        case BeforeMerge =>
        case AtCommit =>
        case AtBaseRef =>
        case AfterBaseMoved =>
      }
    }
  }

  /**
   * After a merge both branches are at one new commit, whose only parent is the old base and whose tree is the
   * task's; they are level, and every other branch and every old commit is as it was.
   */
  lemma SuccessMeans(r: Repository, base: Branch, task: Branch, at: Circumstances)
    requires Valid(r) && Merged(r, base, task, at).1.Ok?
    ensures var (after, result) := Merged(r, base, task, at);
            var id := result.value;
            && id == |r.commits| && after.commits == r.commits + [Commit([r.refs[base]], r.commits[r.refs[task]].tree)]
            && base in after.refs && task in after.refs && after.refs[base] == after.refs[task] == id
            && Valid(after) && GetBranchStatus(after, task, base) == Ok(Status(0, 0))
            && (forall b :: b in r.refs && b != base && b != task ==> b in after.refs && after.refs[b] == r.refs[b])
            && History(after.commits, id) == History(r.commits, r.refs[base]) + {id}
  {
    SucceedsExactlyWhen(r, base, task, at);
    var after, id := Merged(r, base, task, at).0, |r.commits|;
    MergeKeepsValid(r, base, task, at);
    LevelIsSame(after.commits, id, id);
    OneParent(r.commits, r.refs[base], r.commits[r.refs[task]].tree);
  }

  /** The task's own commits are folded away: its old tip stays in its history only if it was the base's too. */
  lemma TaskHistoryIsFolded(r: Repository, base: Branch, task: Branch, at: Circumstances)
    requires Valid(r) && Merged(r, base, task, at).1.Ok?
    ensures var after := Merged(r, base, task, at).0;
            && Valid(after) && task in r.refs && base in r.refs && task in after.refs
            && (r.refs[task] in History(after.commits, after.refs[task]) <==> r.refs[task] == r.refs[base])
  {
    SuccessMeans(r, base, task, at);
    SucceedsExactlyWhen(r, base, task, at);
    StatusMeans(r, task, base);
  }

  /** A failed merge leaves the task where it was, and the base where it was or one new commit further. */
  lemma FailureMeans(r: Repository, base: Branch, task: Branch, at: Circumstances)
    requires Valid(r) && Merged(r, base, task, at).1.Err?
    ensures var after := Merged(r, base, task, at).0;
            && after.refs.Keys == r.refs.Keys
            && (forall b :: b in r.refs && (b != base || at.fails != Some(AfterBaseMoved)) ==> after.refs[b] == r.refs[b])
            && (after.refs != r.refs ==>
                  && base in r.refs && task in r.refs && after.refs[base] == |r.commits|
                  && after.commits == r.commits + [Commit([r.refs[base]], r.commits[r.refs[task]].tree)])
  {}

  predicate SameTree(r: Repository, base: Branch, task: Branch)
    requires Valid(r) && base in r.refs && task in r.refs
  {
    r.commits[r.refs[task]].tree == r.commits[r.refs[base]].tree
  }

  /** Nothing outside fails, and nothing is staged where the base is checked out. */
  predicate Attempts(r: Repository, base: Branch, at: Circumstances) {
    at.fails.None? && at.checkedOut && base !in r.dirty
  }

  /** Which error a refused merge reports, checked in this order; the repository is untouched but for staged changes. */
  lemma RefusalMeans(r: Repository, base: Branch, task: Branch, at: Circumstances)
    requires Valid(r)
    ensures var (after, result) := Merged(r, base, task, at);
            && (task !in r.refs ==> result == Err(BranchNotFound(task)))
            && (task in r.refs && base !in r.refs ==> result == Err(BranchNotFound(base)))
            && (task in r.refs && base in r.refs ==>
                  var behind := |History(r.commits, r.refs[base]) - History(r.commits, r.refs[task])|;
                  && (result == Err(BranchesDiverged(behind)) <==> behind > 0)
                  && (behind == 0 && at.fails.None? && at.checkedOut && base in r.dirty ==> result == Err(WorktreeDirty))
                  && (behind == 0 && Attempts(r, base, at) && SameTree(r, base, task) ==> result == Err(NothingToCommit)))
            && (result.Err? && result.error != Failed ==> after == r)
            && (after.dirty != r.dirty ==> at.fails == Some(AtCommit) && at.checkedOut && after == r.(dirty := r.dirty + {base}))
  {
  }

  /** A commit that git refuses leaves the squashed changes staged, and the next attempt there is refused for them. */
  lemma RefusedCommitBlocks(r: Repository, base: Branch, task: Branch, next: Circumstances)
    requires Valid(r) && Merged(r, base, task, Circumstances(true, None)).1.Ok? && next.checkedOut && next.fails.None?
    ensures var (after, result) := Merged(r, base, task, Circumstances(true, Some(AtCommit)));
            && result == Err(Failed) && after == r.(dirty := r.dirty + {base})
            && Valid(after) && Merged(after, base, task, next) == (after, Err(WorktreeDirty))
  {
  }

  /** After a merge that stopped between the two branches, the next attempt is refused as diverged. */
  lemma HalfDoneIsRefused(r: Repository, base: Branch, task: Branch, at: Circumstances, next: Circumstances)
    requires Valid(r) && base != task
    requires Merged(r, base, task, at).0.refs != r.refs && Merged(r, base, task, at).1.Err?
    ensures var after := Merged(r, base, task, at).0;
            Valid(after) && Merged(after, base, task, next) == (after, Err(BranchesDiverged(1)))
  {
    FailureMeans(r, base, task, at);
    var after := Merged(r, base, task, at).0;
    MergeKeepsValid(r, base, task, at);
    var b, t, id := r.refs[base], r.refs[task], |r.commits|;
    StatusMeans(r, task, base);
    MissingNothing(r.commits, b, t);
    OneParent(r.commits, b, r.commits[t].tree);
    HistoryGrows(r.commits, [Commit([b], r.commits[t].tree)], t);
    assert History(after.commits, id) - History(after.commits, t) == {id};
  }

  // ---------------------------------------------------------------- runs

  /**
   * Commit puts a commit on a branch, with further parents if it is a merge. Move points a branch anywhere, as
   * rebasing and resetting do; on a new name it creates the branch.
   */
  datatype Event =
    | Commit_(branch: Branch, others: seq<nat>, tree: Tree)
    | Move(branch: Branch, to: nat)
    | Merge(base: Branch, task: Branch, at: Circumstances)
    | Staging(dirty: set<Branch>)

  ghost predicate Possible(r: Repository, e: Event) {
    match e
    case Commit_(branch, others, _) => branch in r.refs && forall k :: 0 <= k < |others| ==> others[k] < |r.commits|
    case Move(_, to) => to < |r.commits|
    case Merge(_, _, _) => true
    case Staging(_) => true
  }

  ghost function Next(r: Repository, e: Event): Repository
    requires Valid(r) && Possible(r, e)
  {
    match e
    case Commit_(branch, others, tree) =>
      r.(commits := r.commits + [Commit([r.refs[branch]] + others, tree)], refs := r.refs[branch := |r.commits|])
    case Move(branch, to) => r.(refs := r.refs[branch := to])
    case Merge(base, task, at) => Merged(r, base, task, at).0
    case Staging(dirty) => r.(dirty := dirty)
  }

  /** The branch is neither moved by hand nor merged away as somebody's task. */
  ghost predicate Respects(e: Event, branch: Branch) {
    match e
    case Move(b, _) => b != branch
    case Merge(_, task, _) => task != branch
    case _ => true
  }

  ghost predicate RunOf(r: Repository, es: seq<Event>, branch: Branch)
    decreases |es|
  {
    Valid(r) && (|es| > 0 ==> Possible(r, es[0]) && Respects(es[0], branch) && RunOf(Next(r, es[0]), es[1..], branch))
  }

  ghost function Final(r: Repository, es: seq<Event>, branch: Branch): (f: Repository)
    requires RunOf(r, es, branch)
    ensures Valid(f)
    decreases |es|
  {
    if |es| == 0 then r else Final(Next(r, es[0]), es[1..], branch)
  }

  ghost predicate Keeps(r: Repository, f: Repository, branch: Branch)
    requires Valid(r) && Valid(f)
  {
    && branch in r.refs && branch in f.refs
    && r.commits <= f.commits
    && History(r.commits, r.refs[branch]) <= History(f.commits, f.refs[branch])
  }

  lemma CommitStep(r: Repository, branch: Branch, c: Commit)
    requires Valid(r) && forall k :: 0 <= k < |c.parents| ==> c.parents[k] < |r.commits|
    ensures Valid(r.(commits := r.commits + [c], refs := r.refs[branch := |r.commits|]))
  {}

  lemma StepValid(r: Repository, e: Event)
    requires Valid(r) && Possible(r, e)
    ensures Valid(Next(r, e)) && r.commits <= Next(r, e).commits
  {
    match e
    case Commit_(branch, others, tree) => CommitStep(r, branch, Commit([r.refs[branch]] + others, tree));
    case Move(_, _) =>
    case Merge(base, task, at) => MergeKeepsValid(r, base, task, at);
    case Staging(_) =>
  }

  lemma StepKeepsHistory(r: Repository, e: Event, branch: Branch)
    requires Valid(r) && Possible(r, e) && Respects(e, branch) && branch in r.refs
    ensures Valid(Next(r, e)) && Keeps(r, Next(r, e), branch)
  {
    StepValid(r, e);
    var f := Next(r, e);
    assert f.commits == r.commits + f.commits[|r.commits|..];
    HistoryGrows(r.commits, f.commits[|r.commits|..], r.refs[branch]);
    if f.refs[branch] != r.refs[branch] {
      assert f.refs[branch] == |r.commits| && |f.commits| == |r.commits| + 1;
      var parents := f.commits[|r.commits|].parents;
      assert parents[0] == r.refs[branch];
      assert Histories(f.commits, parents, |r.commits|)
             == History(f.commits, parents[0]) + Histories(f.commits, parents[1..], |r.commits|);
    }
  }

  /**
   * Over any run of commits, merges that succeed or fail, and moves of other branches, a branch loses none of
   * its history as long as nobody moves it by hand or merges it as a task.
   */
  lemma {:induction false} BaseKeepsItsHistory(r: Repository, es: seq<Event>, branch: Branch)
    requires RunOf(r, es, branch) && branch in r.refs
    ensures Keeps(r, Final(r, es, branch), branch)
    decreases |es|
  {
    if |es| > 0 {
      var n := Next(r, es[0]);
      StepKeepsHistory(r, es[0], branch);
      BaseKeepsItsHistory(n, es[1..], branch);
    }
  }
}
