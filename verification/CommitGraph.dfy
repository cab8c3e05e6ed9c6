/** The commit graph: history, ahead and behind, merge bases. */
module CommitGraph {

  type Tree = map<string, string>

  /** Commits are numbered in the order they were made; a commit's parents are older than itself. */
  datatype Commit = Commit(parents: seq<nat>, tree: Tree)

  predicate WellFormed(cs: seq<Commit>) {
    forall i, k :: 0 <= i < |cs| && 0 <= k < |cs[i].parents| ==> cs[i].parents[k] < i
  }

  /** A commit and everything it descends from. */
  function History(cs: seq<Commit>, i: nat): (h: set<nat>)
    requires WellFormed(cs) && i < |cs|
    ensures i in h && forall j :: j in h ==> j <= i
    decreases i, 1, 0
  {
    {i} + Histories(cs, cs[i].parents, i)
  }

  function Histories(cs: seq<Commit>, parents: seq<nat>, below: nat): (h: set<nat>)
    requires WellFormed(cs) && below < |cs| && forall k :: 0 <= k < |parents| ==> parents[k] < below
    ensures forall j :: j in h ==> j < below
    decreases below, 0, |parents|
  {
    if |parents| == 0 then {} else History(cs, parents[0]) + Histories(cs, parents[1..], below)
  }

  lemma {:induction false} HistoryIsClosed(cs: seq<Commit>, i: nat, j: nat)
    requires WellFormed(cs) && i < |cs| && j in History(cs, i)
    ensures History(cs, j) <= History(cs, i)
    decreases i, 1, 0
  {
    if j != i {
      HistoriesAreClosed(cs, cs[i].parents, i, j);
    }
  }

  lemma {:induction false} HistoriesAreClosed(cs: seq<Commit>, parents: seq<nat>, below: nat, j: nat)
    requires WellFormed(cs) && below < |cs| && forall k :: 0 <= k < |parents| ==> parents[k] < below
    requires j in Histories(cs, parents, below)
    ensures History(cs, j) <= Histories(cs, parents, below)
    decreases below, 0, |parents|
  {
    if j in History(cs, parents[0]) {
      HistoryIsClosed(cs, parents[0], j);
    } else {
      HistoriesAreClosed(cs, parents[1..], below, j);
    }
  }

  /** New commits do not change the history of old ones. */
  lemma {:induction false} HistoryGrows(cs: seq<Commit>, more: seq<Commit>, i: nat)
    requires WellFormed(cs) && WellFormed(cs + more) && i < |cs|
    ensures History(cs + more, i) == History(cs, i)
    decreases i, 1, 0
  {
    HistoriesGrow(cs, more, cs[i].parents, i);
  }

  lemma {:induction false} HistoriesGrow(cs: seq<Commit>, more: seq<Commit>, parents: seq<nat>, below: nat)
    requires WellFormed(cs) && WellFormed(cs + more) && below < |cs|
    requires forall k :: 0 <= k < |parents| ==> parents[k] < below
    ensures Histories(cs + more, parents, below) == Histories(cs, parents, below)
    decreases below, 0, |parents|
  {
    if |parents| > 0 {
      HistoryGrows(cs, more, parents[0]);
      HistoriesGrow(cs, more, parents[1..], below);
    }
  }

  // ---------------------------------------------------------------- ahead and behind

  /** How many commits of a are missing from b. */
  function Missing(cs: seq<Commit>, a: nat, b: nat): nat
    requires WellFormed(cs) && a < |cs| && b < |cs|
  {
    |History(cs, a) - History(cs, b)|
  }

  /** A branch is behind by nothing exactly when the other tip is in its history. */
  lemma MissingNothing(cs: seq<Commit>, a: nat, b: nat)
    requires WellFormed(cs) && a < |cs| && b < |cs|
    ensures Missing(cs, a, b) == 0 <==> a in History(cs, b)
    ensures Missing(cs, a, b) == 0 <==> History(cs, a) <= History(cs, b)
  {
    var left := History(cs, a) - History(cs, b);
    if a in History(cs, b) {
      HistoryIsClosed(cs, b, a);
      assert left == {};
    } else {
      assert a in left;
    }
  }

  /** Neither ahead nor behind means the same commit. */
  lemma LevelIsSame(cs: seq<Commit>, a: nat, b: nat)
    requires WellFormed(cs) && a < |cs| && b < |cs|
    ensures Missing(cs, a, b) == 0 && Missing(cs, b, a) == 0 <==> a == b
  {
    MissingNothing(cs, a, b);
    MissingNothing(cs, b, a);
  }

  lemma NewHistory(cs: seq<Commit>, c: Commit)
    requires WellFormed(cs) && forall k :: 0 <= k < |c.parents| ==> c.parents[k] < |cs|
    ensures WellFormed(cs + [c]) && History(cs + [c], |cs|) == {|cs|} + Histories(cs + [c], c.parents, |cs|)
  {
    assert (cs + [c])[|cs|] == c;
  }

  lemma OneParent(cs: seq<Commit>, p: nat, tree: Tree)
    requires WellFormed(cs) && p < |cs|
    ensures var more := cs + [Commit([p], tree)]; WellFormed(more) && History(more, |cs|) == History(cs, p) + {|cs|}
  {
    var c := Commit([p], tree);
    NewHistory(cs, c);
    HistoryGrows(cs, [c], p);
    assert [p][1..] == [];
    assert Histories(cs + [c], [], |cs|) == {};
  }

  lemma TwoParents(cs: seq<Commit>, p: nat, q: nat, tree: Tree)
    requires WellFormed(cs) && p < |cs| && q < |cs|
    ensures var more := cs + [Commit([p, q], tree)];
            WellFormed(more) && History(more, |cs|) == History(cs, p) + History(cs, q) + {|cs|}
  {
    var c := Commit([p, q], tree);
    NewHistory(cs, c);
    HistoryGrows(cs, [c], p);
    HistoryGrows(cs, [c], q);
    assert [p, q][1..] == [q] && [q][1..] == [];
    assert Histories(cs + [c], [], |cs|) == {};
  }

  /** A commit on a branch puts it one further ahead of any other tip, and no less behind. */
  lemma CommitCounts(cs: seq<Commit>, tip: nat, other: nat, tree: Tree)
    requires WellFormed(cs) && tip < |cs| && other < |cs|
    ensures var more := cs + [Commit([tip], tree)];
            && WellFormed(more)
            && Missing(more, |cs|, other) == Missing(cs, tip, other) + 1
            && Missing(more, other, |cs|) == Missing(cs, other, tip)
  {
    var c := Commit([tip], tree);
    OneParent(cs, tip, tree);
    HistoryGrows(cs, [c], other);
    var a, b := History(cs, tip), History(cs, other);
    assert (a + {|cs|}) - b == (a - b) + {|cs|};
    assert b - (a + {|cs|}) == b - a;
  }

  /** Merging the other tip into a branch leaves it behind by nothing, and one further ahead. */
  lemma MergeCounts(cs: seq<Commit>, tip: nat, other: nat, tree: Tree)
    requires WellFormed(cs) && tip < |cs| && other < |cs|
    ensures var more := cs + [Commit([tip, other], tree)];
            && WellFormed(more)
            && Missing(more, |cs|, other) == Missing(cs, tip, other) + 1
            && Missing(more, other, |cs|) == 0
  {
    var c := Commit([tip, other], tree);
    TwoParents(cs, tip, other, tree);
    HistoryGrows(cs, [c], other);
    var a, b := History(cs, tip), History(cs, other);
    hide History, WellFormed;
    assert (a + b + {|cs|}) - b == (a - b) + {|cs|};
    assert b - (a + b + {|cs|}) == {};
  }

  // ---------------------------------------------------------------- merge bases

  /** The common ancestors that no other common ancestor descends from. */
  function MergeBases(cs: seq<Commit>, a: nat, b: nat): set<nat>
    requires WellFormed(cs) && a < |cs| && b < |cs|
  {
    var common := History(cs, a) * History(cs, b);
    set c | c in common && forall d :: d in common && d != c ==> c !in History(cs, d)
  }

  /** A tip in the other's history is the one merge base. */
  lemma AncestorIsMergeBase(cs: seq<Commit>, base: nat, task: nat)
    requires WellFormed(cs) && base < |cs| && task < |cs| && base in History(cs, task)
    ensures MergeBases(cs, base, task) == {base}
  {
    HistoryIsClosed(cs, task, base);
    var common := History(cs, base) * History(cs, task);
    assert common == History(cs, base);
    forall d | d in common && d != base
      ensures base !in History(cs, d)
    {}
    assert base in MergeBases(cs, base, task);
    forall c | c in MergeBases(cs, base, task)
      ensures c == base
    {}
  }
}
