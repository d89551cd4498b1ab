/**
  getBranchOfCommit: which branch a commit came from. Every branch whose log contains the
  commit is collected; a main-line name is preferred, otherwise any collected branch is
  returned, and null when there is none.
*/
module Branches {
  import opened Wrappers
  import opened Strings
  import opened History

  /** A branch ref: its full name (as `branchList` lists it) and the commit it points at. */
  datatype Branch = Branch(name: string, tip: CommitId)

  datatype Repository = Repository(graph: Graph, branches: seq<Branch>)

  /**
    The main-line test, exactly as written: equal to `master` or `main`, or containing
    `/master` or `/main` anywhere (so `refs/heads/maintenance` passes too).
  */
  predicate IsMainLine(name: string)
  {
    name == "master" || name == "main" || Contains(name, "/master") || Contains(name, "/main")
  }

  ghost predicate ContainsCommit(repo: Repository, b: Branch, c: CommitId)
  {
    Reaches(repo.graph, b.tip, c)
  }

  /**
    What getBranchOfCommit promises about its answer `r` for commit `c`: null exactly when
    no branch contains `c`; otherwise the name of a branch that contains it, and a
    main-line one whenever some containing branch is main-line.
  */
  ghost predicate IsOriginatingBranch(repo: Repository, c: CommitId, r: Option<string>)
  {
    && (r.None? <==> forall b :: b in repo.branches ==> !ContainsCommit(repo, b, c))
    && (r.Some? ==> exists b :: b in repo.branches && b.name == r.value && ContainsCommit(repo, b, c))
    && ((exists b :: b in repo.branches && IsMainLine(b.name) && ContainsCommit(repo, b, c)) ==>
          r.Some? && IsMainLine(r.value))
  }

  /** Names of the branches among the first `n` whose log lists `c`. */
  ghost function Collected(repo: Repository, c: CommitId, n: nat): set<string>
    requires n <= |repo.branches|
  {
    set j | 0 <= j < n && c in Log(repo.graph, repo.branches[j].tip) :: repo.branches[j].name
  }

  method BranchOfCommit(repo: Repository, commitName: CommitId) returns (r: Option<string>)
    ensures IsOriginatingBranch(repo, commitName, r)
  {
    var containingBranches: set<string> := {};
    for i := 0 to |repo.branches|
      invariant containingBranches == Collected(repo, commitName, i)
    {
      var branch := repo.branches[i];
      if commitName in Log(repo.graph, branch.tip) {
        containingBranches := containingBranches + {branch.name};
      }
    }
    CollectedContain(repo, commitName);
    forall b | b in repo.branches && ContainsCommit(repo, b, commitName)
      ensures b.name in containingBranches
    {
    }

    if |containingBranches| == 0 {
      return None;
    }
    if exists b :: b in containingBranches && IsMainLine(b) {
      var b :| b in containingBranches && IsMainLine(b);
      return Some(b);
    }
    var b :| b in containingBranches;
    return Some(b);
  }

  /** The collected names are exactly the names of branches containing the commit. */
  lemma CollectedContain(repo: Repository, c: CommitId)
    ensures forall name :: name in Collected(repo, c, |repo.branches|) <==>
      exists b :: b in repo.branches && b.name == name && ContainsCommit(repo, b, c)
  {
    forall name | name in Collected(repo, c, |repo.branches|)
      ensures exists b :: b in repo.branches && b.name == name && ContainsCommit(repo, b, c)
    {
      var j :| 0 <= j < |repo.branches| && c in Log(repo.graph, repo.branches[j].tip) && repo.branches[j].name == name;
      LogIsHistory(repo.graph, repo.branches[j].tip, c);
    }
    forall name | exists b :: b in repo.branches && b.name == name && ContainsCommit(repo, b, c)
      ensures name in Collected(repo, c, |repo.branches|)
    {
      var b :| b in repo.branches && b.name == name && ContainsCommit(repo, b, c);
      var j :| 0 <= j < |repo.branches| && repo.branches[j] == b;
      LogIsHistory(repo.graph, b.tip, c);
    }
  }

  /**
    The test matches by substring: remote-qualified and longer names that merely contain
    `/main` pass.
  */
  lemma MainLineBySubstring()
    ensures IsMainLine("refs/heads/master") && IsMainLine("origin/main")
    ensures IsMainLine("refs/heads/maintenance")
  {
    assert OccursAt("refs/heads/master", "/master", 10);
    assert OccursAt("origin/main", "/main", 6);
    assert OccursAt("refs/heads/maintenance", "/main", 10);
  }

  /** A name without a slash is main-line only when it is exactly `main` or `master`. */
  lemma MainLineWithoutSlash(name: string)
    requires forall i :: 0 <= i < |name| ==> name[i] != '/'
    ensures IsMainLine(name) <==> name == "main" || name == "master"
  {
    LacksFirstChar(name, "/master");
    LacksFirstChar(name, "/main");
  }

  /** Commits A <- B <- C on `main`, and D on top of B on `dev`. */
  function Scenario(): Repository
  {
    Repository(map["A" := [], "B" := ["A"], "C" := ["B"], "D" := ["B"]],
               [Branch("dev", "D"), Branch("main", "C")])
  }

  /** B is in the history of both branches; the resolver must answer `main`. */
  lemma ScenarioPrefersMain(r: Option<string>)
    requires IsOriginatingBranch(Scenario(), "B", r)
    ensures r == Some("main")
  {
    var repo := Scenario();
    assert IsPath(repo.graph, ["C", "B"]);
    assert ContainsCommit(repo, Branch("main", "C"), "B");
    assert Branch("main", "C") in repo.branches && IsMainLine("main");
    DevIsNotMainLine();
  }

  lemma DevIsNotMainLine()
    ensures !IsMainLine("dev")
  {
    MainLineWithoutSlash("dev");
  }
}
