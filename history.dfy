/**
  The repository's commit history, abstracted from JGit's object store: a finite map
  from commit id to parent ids, the set `git log` yields from a tip, and the walk
  `getPrevHash` steps through to find the commit before a given one.
*/
module History {
  import opened Wrappers

  type CommitId = string

  /** Parent ids per commit; a commit the map does not list has no parents. */
  type Graph = map<CommitId, seq<CommitId>>

  function Parents(g: Graph, c: CommitId): seq<CommitId>
  {
    if c in g then g[c] else []
  }

  /** A chain of commits, each one a parent of the one before it. */
  ghost predicate IsPath(g: Graph, p: seq<CommitId>)
  {
    |p| > 0 && forall i :: 0 < i < |p| ==> p[i] in Parents(g, p[i - 1])
  }

  /** `to` is in the history of `from`: `from` itself or one of its ancestors. */
  ghost predicate Reaches(g: Graph, from: CommitId, to: CommitId)
  {
    exists p :: IsPath(g, p) && p[0] == from && p[|p| - 1] == to
  }

  /** Every commit the graph mentions, as a key or as a parent. */
  function Mentioned(g: Graph): set<CommitId>
  {
    g.Keys + set c, q | c in g && q in g[c] :: q
  }

  /** One round of the log walk: `seen` together with the parents of its members. */
  function Expand(g: Graph, seen: set<CommitId>): (r: set<CommitId>)
    ensures seen <= r <= seen + Mentioned(g)
  {
    seen + set c, q | c in seen && q in Parents(g, c) :: q
  }

  /** Dropping a member strictly shrinks a finite set. */
  lemma SmallerWithout(a: set<CommitId>, b: set<CommitId>, x: CommitId)
    requires a <= b && x in b && x !in a
    ensures |a| < |b|
  {
    assert b == a + (b - a);
    assert x in b - a;
  }

  /** Expanding until nothing new appears. */
  function Closure(g: Graph, seen: set<CommitId>): (r: set<CommitId>)
    ensures seen <= r && Expand(g, r) == r
    decreases |Mentioned(g) - seen|
  {
    var next := Expand(g, seen);
    if next == seen then seen
    else
      NewMemberShrinks(g, seen);
      Closure(g, next)
  }

  /** A round that adds something leaves fewer mentioned commits unseen. */
  lemma NewMemberShrinks(g: Graph, seen: set<CommitId>)
    requires Expand(g, seen) != seen
    ensures |Mentioned(g) - Expand(g, seen)| < |Mentioned(g) - seen|
  {
    var next := Expand(g, seen);
    var x :| x in next && x !in seen;
    SmallerWithout(Mentioned(g) - next, Mentioned(g) - seen, x);
  }

  /** The commits `git log <tip>` lists: the tip and all its ancestors. */
  function Log(g: Graph, tip: CommitId): (r: set<CommitId>)
    ensures tip in r && Expand(g, r) == r
  {
    Closure(g, {tip})
  }

  lemma ReachesParent(g: Graph, tip: CommitId, c: CommitId, q: CommitId)
    requires Reaches(g, tip, c) && q in Parents(g, c)
    ensures Reaches(g, tip, q)
  {
    var p :| IsPath(g, p) && p[0] == tip && p[|p| - 1] == c;
    var p' := p + [q];
    assert IsPath(g, p') && p'[0] == tip && p'[|p'| - 1] == q;
  }

  lemma {:induction false} ClosureReached(g: Graph, tip: CommitId, seen: set<CommitId>)
    requires forall x :: x in seen ==> Reaches(g, tip, x)
    ensures forall x :: x in Closure(g, seen) ==> Reaches(g, tip, x)
    decreases |Mentioned(g) - seen|
  {
    var next := Expand(g, seen);
    if next != seen {
      forall x | x in next ensures Reaches(g, tip, x) {
        if x !in seen {
          var c :| c in seen && x in Parents(g, c);
          ReachesParent(g, tip, c, x);
        }
      }
      NewMemberShrinks(g, seen);
      ClosureReached(g, tip, next);
    }
  }

  lemma {:induction false} ClosureClosed(g: Graph, seen: set<CommitId>)
    ensures seen <= Closure(g, seen)
    ensures Expand(g, Closure(g, seen)) == Closure(g, seen)
    decreases |Mentioned(g) - seen|
  {
    var next := Expand(g, seen);
    if next != seen {
      NewMemberShrinks(g, seen);
      ClosureClosed(g, next);
    }
  }

  /** A set closed under taking parents holds every commit a path from one of its members reaches. */
  lemma {:induction false} ClosedUnderPaths(g: Graph, s: set<CommitId>, p: seq<CommitId>)
    requires Expand(g, s) == s
    requires IsPath(g, p) && p[0] in s
    ensures p[|p| - 1] in s
    decreases |p|
  {
    if |p| > 1 {
      assert p[1] in Expand(g, s) by {
        assert p[0] in s && p[1] in Parents(g, p[0]);
      }
      assert IsPath(g, p[1..]);
      ClosedUnderPaths(g, s, p[1..]);
    }
  }

  /** `git log <tip>` yields exactly the commits in the history of `tip`. */
  lemma LogIsHistory(g: Graph, tip: CommitId, c: CommitId)
    ensures c in Log(g, tip) <==> Reaches(g, tip, c)
  {
    assert IsPath(g, [tip]);
    ClosureReached(g, tip, {tip});
    ClosureClosed(g, {tip});
    if Reaches(g, tip, c) {
      var p :| IsPath(g, p) && p[0] == tip && p[|p| - 1] == c;
      ClosedUnderPaths(g, Log(g, tip), p);
    }
  }

  /**
    A complete RevWalk from `start`: it yields `start` first and then every other commit
    of its history, each exactly once.
  */
  ghost predicate IsWalk(g: Graph, start: CommitId, walk: seq<CommitId>)
  {
    && |walk| > 0
    && walk[0] == start
    && (forall i, j :: 0 <= i < j < |walk| ==> walk[i] != walk[j])
    && (forall c :: c in walk <==> c in Log(g, start))
  }

  /**
    getPrevHash: step through the walk counting commits and return the one at count 1;
    None when the walk ends first.
  */
  method PrevHash(walk: seq<CommitId>) returns (prev: Option<CommitId>)
    ensures prev.None? <==> |walk| < 2
    ensures prev.Some? ==> prev.value == walk[1]
  {
    var count := 0;
    while count < |walk|
      invariant count <= 1 && count <= |walk|
    {
      if count == 1 {
        return Some(walk[count]);
      }
      count := count + 1;
    }
    return None;
  }

  /**
    On a complete walk, the previous commit is missing exactly when `start` has no parent
    other than itself (a root commit), and when present it is an ancestor of `start`
    distinct from `start`.
  */
  lemma WalkPrevious(g: Graph, start: CommitId, walk: seq<CommitId>)
    requires IsWalk(g, start, walk)
    ensures |walk| < 2 <==> forall q :: q in Parents(g, start) ==> q == start
    ensures |walk| >= 2 ==> walk[1] != start && Reaches(g, start, walk[1])
  {
    if |walk| >= 2 {
      assert walk[1] in walk;
      LogIsHistory(g, start, walk[1]);
    }
    if forall q :: q in Parents(g, start) ==> q == start {
      assert Expand(g, {start}) == {start};
    } else {
      var q :| q in Parents(g, start) && q != start;
      assert IsPath(g, [start, q]);
      LogIsHistory(g, start, q);
    }
  }

  /** The text getDiffOfCommit returns for a commit without a predecessor. */
  const StartOfRepo: string := "Start of repo"

  /**
    getDiffOfCommit: the sentinel when the walk from `newCommit` has no previous commit,
    otherwise what the diff formatter writes for the old tree against the new one. So a
    root commit gets the sentinel, and any other commit the diff against a proper ancestor.
  */
  method DiffOfCommit(ghost g: Graph, newCommit: CommitId, walk: seq<CommitId>,
                      format: (CommitId, CommitId) -> string)
    returns (diff: string)
    requires IsWalk(g, newCommit, walk)
    ensures |walk| < 2 ==> diff == StartOfRepo
    ensures |walk| >= 2 ==> diff == format(walk[1], newCommit)
    ensures (forall q :: q in Parents(g, newCommit) ==> q == newCommit) ==> diff == StartOfRepo
    ensures !(forall q :: q in Parents(g, newCommit) ==> q == newCommit) ==>
      && |walk| >= 2 && diff == format(walk[1], newCommit)
      && walk[1] != newCommit && Reaches(g, newCommit, walk[1])
  {
    WalkPrevious(g, newCommit, walk);
    var oldCommit := PrevHash(walk);
    if oldCommit.None? {
      return StartOfRepo;
    }
    diff := format(oldCommit.value, newCommit);
  }
}
