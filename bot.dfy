/**
  The Sorald repair step: initialisation, the loop over the configured rules, and what is
  done with the files one rule patched. The repair engine, git, the fork and the pull-request
  service are outside the model; what the step asks of them is recorded as a trace of events.
*/
module Bot {
  import opened Wrappers
  import opened History
  import opened Branches
  import opened Naming

  const RepoPath: string := "tmp_repo"
  /** `File.separator`, taken as the POSIX one. */
  const Separator: string := "/"
  const ErrorReason: string := "Error while repairing with Sorald"

  datatype TargetCommit = TargetCommit(commitId: CommitId, repoSlug: string)

  /**
    What checking out the target commit and running Sorald on one rule comes to: an
    exception, `null`, or the set of files it patched.
  */
  datatype EngineResult = Throws | Null | Files(files: set<string>)

  /** The rule produced something to commit: a non-null, non-empty file set. */
  predicate Patches(r: EngineResult)
  {
    r.Files? && r.files != {}
  }

  /**
    The outside world's answers for one rule: the engine's result, and the diff text git
    gives for the commit made for that rule.
  */
  datatype RuleEnv = RuleEnv(engine: EngineResult, diff: string)

  datatype RepairPatch = RepairPatch(toolName: string, description: string, diff: string)

  /** The calls the step makes on its collaborators, in order. */
  datatype Event =
    | Checkout(commitId: CommitId)
    | MarkPatched
    | RunRepair(rule: string)
    | Stage(files: set<string>)
    | Commit(message: string)
    | Notify(patches: seq<RepairPatch>)
    | DescribePR(text: string, title: string)
    | Push(remote: string, branch: string)
    | PullRequest(base: string, head: string)

  datatype Kind = KCheckout | KMarkPatched | KRunRepair | KStage | KCommit | KNotify | KDescribePR | KPush | KPullRequest

  function KindOf(e: Event): Kind
  {
    match e
    case Checkout(_) => KCheckout
    case MarkPatched => KMarkPatched
    case RunRepair(_) => KRunRepair
    case Stage(_) => KStage
    case Commit(_) => KCommit
    case Notify(_) => KNotify
    case DescribePR(_, _) => KDescribePR
    case Push(_, _) => KPush
    case PullRequest(_, _) => KPullRequest
  }

  /** How many events of kind `k` the trace holds. */
  function Count(es: seq<Event>, k: Kind): nat
  {
    if es == [] then 0 else (if KindOf(es[0]) == k then 1 else 0) + Count(es[1..], k)
  }

  lemma {:induction false} CountAppend(a: seq<Event>, b: seq<Event>, k: Kind)
    ensures Count(a + b, k) == Count(a, k) + Count(b, k)
  {
    if a == [] {
      assert a + b == b;
    } else {
      assert (a + b)[0] == a[0] && (a + b)[1..] == a[1..] + b;
      CountAppend(a[1..], b, k);
    }
  }

  lemma CountSnoc(a: seq<Event>, e: Event, k: Kind)
    ensures Count(a + [e], k) == Count(a, k) + (if KindOf(e) == k then 1 else 0)
  {
    CountAppend(a, [e], k);
    assert [e][1..] == [];
  }

  lemma AppendAssoc(a: seq<Event>, b: seq<Event>, c: seq<Event>)
    ensures (a + b) + c == a + (b + c)
  {
  }

  datatype StepStatus = Success | Skipped(reason: string)

  /** What the step knows while it processes rules. */
  datatype Config = Config(
    commitId: CommitId,
    toolName: string,
    forkedRepo: Option<string>,
    createPR: bool,
    baseBranch: string)

  /** The events of one piece of work, and whether it ended in an exception. */
  datatype Outcome = Outcome(events: seq<Event>, thrown: bool)

  /**
    The texts createPRWithSpecificPatchedFiles derives from the rule and the commit: the
    commit message, the PR description, and the patch branch's name where one can be formed.
  */
  datatype PatchTexts = PatchTexts(message: string, prText: string, branch: Option<string>)

  function TextsOf(commitId: CommitId, rule: string): PatchTexts
  {
    PatchTexts(CommitMessage(rule), PRText(rule), PatchBranchName(commitId, rule))
  }

  /** The events up to the notification: repair, stage the files, commit, notify with one patch. */
  function AppliedEvents(cfg: Config, files: set<string>, rule: string, diff: string, t: PatchTexts): seq<Event>
  {
    [RunRepair(rule), Stage(files), Commit(t.message), Notify([RepairPatch(cfg.toolName, "", diff)])]
  }

  /**
    The events after the notification, only with a fork: describe the PR; then, where the
    patch branch has a name, push it and, if PR creation is on, open the PR.
  */
  function ForkEvents(cfg: Config, t: PatchTexts): seq<Event>
  {
    match cfg.forkedRepo
    case None => []
    case Some(fork) =>
      var pushed := match t.branch
        case None => []
        case Some(name) => [Push(fork, name)] + if cfg.createPR then [PullRequest(cfg.baseBranch, name)] else [];
      [DescribePR(t.prText, PRTitle)] + pushed
  }

  /** The events of a patched rule, given its texts; it throws where a fork has no branch name. */
  function PatchEvents(cfg: Config, files: set<string>, rule: string, diff: string, t: PatchTexts): (o: Outcome)
    ensures o.thrown <==> cfg.forkedRepo.Some? && t.branch.None?
  {
    Outcome(AppliedEvents(cfg, files, rule, diff, t) + ForkEvents(cfg, t), cfg.forkedRepo.Some? && t.branch.None?)
  }

  /**
    createPRWithSpecificPatchedFiles: re-run the repair, stage exactly the patched files,
    commit, notify once with one patch; then, only with a fork, describe the PR, push a
    per-rule branch and, only if PR creation is on, open a PR against the original branch.
    It throws only where the commit id is too short to take ten characters from, which
    is reached only with a fork.
  */
  function PatchedRuleEvents(cfg: Config, files: set<string>, rule: string, diff: string): (o: Outcome)
    ensures o.thrown <==> cfg.forkedRepo.Some? && |cfg.commitId| < 10
  {
    PatchEvents(cfg, files, rule, diff, TextsOf(cfg.commitId, rule))
  }

  /** How many events of kind `k` a patched rule produces, `named` saying whether its patch branch has a name. */
  function PatchedKindCount(cfg: Config, named: bool, k: Kind): nat
  {
    var fork := cfg.forkedRepo.Some?;
    match k
    case KCheckout => 0
    case KMarkPatched => 0
    case KRunRepair => 1
    case KStage => 1
    case KCommit => 1
    case KNotify => 1
    case KDescribePR => if fork then 1 else 0
    case KPush => if fork && named then 1 else 0
    case KPullRequest => if fork && named && cfg.createPR then 1 else 0
  }

  lemma AppliedCount(cfg: Config, files: set<string>, rule: string, diff: string, t: PatchTexts, k: Kind)
    ensures Count(AppliedEvents(cfg, files, rule, diff, t), k) ==
      if k in {KRunRepair, KStage, KCommit, KNotify} then 1 else 0
  {
    var e0, e1, e2, e3 := RunRepair(rule), Stage(files), Commit(t.message), Notify([RepairPatch(cfg.toolName, "", diff)]);
    assert [e0][1..] == [];
    CountSnoc([e0], e1, k);
    CountSnoc([e0] + [e1], e2, k);
    CountSnoc([e0] + [e1] + [e2], e3, k);
    assert [e0] + [e1] + [e2] + [e3] == AppliedEvents(cfg, files, rule, diff, t);
  }

  lemma ForkCount(cfg: Config, t: PatchTexts, k: Kind)
    ensures Count(ForkEvents(cfg, t), k) ==
      PatchedKindCount(cfg, t.branch.Some?, k) - if k in {KRunRepair, KStage, KCommit, KNotify} then 1 else 0
  {
    match cfg.forkedRepo
    case None =>
    case Some(fork) =>
      var describe := [DescribePR(t.prText, PRTitle)];
      assert describe[1..] == [];
      match t.branch
      case None =>
        assert ForkEvents(cfg, t) == describe + [];
      case Some(name) =>
        CountSnoc(describe, Push(fork, name), k);
        if cfg.createPR {
          CountSnoc(describe + [Push(fork, name)], PullRequest(cfg.baseBranch, name), k);
          assert ForkEvents(cfg, t) == describe + [Push(fork, name)] + [PullRequest(cfg.baseBranch, name)];
        } else {
          assert ForkEvents(cfg, t) == describe + [Push(fork, name)];
        }
  }

  lemma PatchEventsCount(cfg: Config, files: set<string>, rule: string, diff: string, t: PatchTexts, k: Kind)
    ensures Count(PatchEvents(cfg, files, rule, diff, t).events, k) == PatchedKindCount(cfg, t.branch.Some?, k)
  {
    AppliedCount(cfg, files, rule, diff, t, k);
    ForkCount(cfg, t, k);
    CountAppend(AppliedEvents(cfg, files, rule, diff, t), ForkEvents(cfg, t), k);
  }

  /**
    A patched rule stages once, commits once and notifies once; it describes a PR only
    with a fork, pushes only with a fork (and a usable commit id), and opens a PR only when
    PR creation is also on.
  */
  lemma PatchedRuleCounts(cfg: Config, files: set<string>, rule: string, diff: string)
    ensures var es := PatchedRuleEvents(cfg, files, rule, diff).events;
      && Count(es, KRunRepair) == 1 && Count(es, KStage) == 1
      && Count(es, KCommit) == 1 && Count(es, KNotify) == 1
      && Count(es, KCheckout) == 0 && Count(es, KMarkPatched) == 0
      && Count(es, KDescribePR) == (if cfg.forkedRepo.Some? then 1 else 0)
      && Count(es, KPush) == (if cfg.forkedRepo.Some? && |cfg.commitId| >= 10 then 1 else 0)
      && Count(es, KPullRequest) == (if cfg.forkedRepo.Some? && |cfg.commitId| >= 10 && cfg.createPR then 1 else 0)
  {
    var t := TextsOf(cfg.commitId, rule);
    forall k ensures Count(PatchEvents(cfg, files, rule, diff, t).events, k) == PatchedKindCount(cfg, t.branch.Some?, k) {
      PatchEventsCount(cfg, files, rule, diff, t, k);
    }
  }

  /**
    Every event of a patched rule carries that rule's data: its files, its commit message,
    one patch with the tool name and its diff, its PR text, the fork and its patch branch,
    and the original branch as the PR's base.
  */
  predicate SaysRule(cfg: Config, files: set<string>, rule: string, diff: string, e: Event)
  {
    match e
    case Checkout(_) => false
    case MarkPatched => false
    case RunRepair(r) => r == rule
    case Stage(fs) => fs == files
    case Commit(m) => m == CommitMessage(rule)
    case Notify(ps) => ps == [RepairPatch(cfg.toolName, "", diff)]
    case DescribePR(text, title) => text == PRText(rule) && title == PRTitle
    case Push(remote, branch) => Some(remote) == cfg.forkedRepo && Some(branch) == PatchBranchName(cfg.commitId, rule)
    case PullRequest(base, head) => base == cfg.baseBranch && Some(head) == PatchBranchName(cfg.commitId, rule)
  }

  lemma PatchedRuleEventsSayRule(cfg: Config, files: set<string>, rule: string, diff: string)
    ensures forall e :: e in PatchedRuleEvents(cfg, files, rule, diff).events ==> SaysRule(cfg, files, rule, diff, e)
  {
  }

  /**
    One iteration of the rules loop: check out the target commit and run the engine; an
    exception ends the run, null or an empty set moves on with nothing else done, a
    non-empty set marks the job as patched and hands the files over.
  */
  function ProcessRule(cfg: Config, rule: string, env: RuleEnv): (o: Outcome)
    ensures |o.events| > 0 && o.events[0] == Checkout(cfg.commitId)
    ensures !Patches(env.engine) ==> o.events == [Checkout(cfg.commitId)] && (o.thrown <==> env.engine.Throws?)
    ensures Patches(env.engine) ==> (o.thrown <==> cfg.forkedRepo.Some? && |cfg.commitId| < 10)
  {
    var checkout := [Checkout(cfg.commitId)];
    match env.engine
    case Throws => Outcome(checkout, true)
    case Null => Outcome(checkout, false)
    case Files(files) =>
      if files == {} then Outcome(checkout, false)
      else
        var p := PatchedRuleEvents(cfg, files, rule, env.diff);
        Outcome([Checkout(cfg.commitId), MarkPatched] + p.events, p.thrown)
  }

  /** How many events of kind `k` processing one rule produces. */
  function RuleKindCount(cfg: Config, env: RuleEnv, k: Kind): nat
  {
    (if k == KCheckout then 1 else 0)
    + if Patches(env.engine) then (if k == KMarkPatched then 1 else 0) + PatchedKindCount(cfg, |cfg.commitId| >= 10, k)
      else 0
  }

  lemma ProcessRuleCount(cfg: Config, rule: string, env: RuleEnv, k: Kind)
    ensures Count(ProcessRule(cfg, rule, env).events, k) == RuleKindCount(cfg, env, k)
  {
    var checkout := [Checkout(cfg.commitId)];
    assert checkout[1..] == [];
    if Patches(env.engine) {
      var p := PatchedRuleEvents(cfg, env.engine.files, rule, env.diff);
      PatchEventsCount(cfg, env.engine.files, rule, env.diff, TextsOf(cfg.commitId, rule), k);
      CountSnoc(checkout, MarkPatched, k);
      assert checkout + [MarkPatched] == [Checkout(cfg.commitId), MarkPatched];
      CountAppend([Checkout(cfg.commitId), MarkPatched], p.events, k);
    }
  }

  /**
    Per rule: one checkout; and the patched flag, the staging, the commit and the
    notification once each when the engine patched something, never otherwise.
  */
  lemma ProcessRuleCounts(cfg: Config, rule: string, env: RuleEnv)
    ensures var es := ProcessRule(cfg, rule, env).events;
      var once := if Patches(env.engine) then 1 else 0;
      && Count(es, KCheckout) == 1
      && Count(es, KMarkPatched) == once
      && Count(es, KStage) == once && Count(es, KCommit) == once && Count(es, KNotify) == once
      && Count(es, KDescribePR) == (if cfg.forkedRepo.Some? then once else 0)
      && Count(es, KPush) == (if cfg.forkedRepo.Some? && |cfg.commitId| >= 10 then once else 0)
      && Count(es, KPullRequest) == (if cfg.forkedRepo.Some? && |cfg.commitId| >= 10 && cfg.createPR then once else 0)
  {
    forall k ensures Count(ProcessRule(cfg, rule, env).events, k) == RuleKindCount(cfg, env, k) {
      ProcessRuleCount(cfg, rule, env, k);
    }
  }

  /** After its checkout, a patched rule does nothing but mark the job and act on its own files. */
  lemma ProcessRuleSaysRule(cfg: Config, rule: string, env: RuleEnv)
    requires Patches(env.engine)
    ensures forall e :: e in ProcessRule(cfg, rule, env).events[1..] ==>
      e == MarkPatched || SaysRule(cfg, env.engine.files, rule, env.diff, e)
  {
    var p := PatchedRuleEvents(cfg, env.engine.files, rule, env.diff);
    PatchedRuleEventsSayRule(cfg, env.engine.files, rule, env.diff);
    assert ProcessRule(cfg, rule, env).events[1..] == [MarkPatched] + p.events;
  }

  /** The result of running the rules loop. */
  datatype Run = Run(events: seq<Event>, status: StepStatus)

  /** The rules loop of businessExecute: rules in order, stopping at the first exception. */
  function RunRules(cfg: Config, rules: seq<string>, world: seq<RuleEnv>): Run
    requires |world| == |rules|
    decreases |rules|
  {
    if rules == [] then Run([], Success)
    else
      var n := |rules| - 1;
      var prev := RunRules(cfg, rules[..n], world[..n]);
      if prev.status.Skipped? then prev
      else
        var o := ProcessRule(cfg, rules[n], world[n]);
        Run(prev.events + o.events, if o.thrown then Skipped(ErrorReason) else Success)
  }

  /** How many rules the engine patched something for. */
  function PatchedCount(world: seq<RuleEnv>): nat
  {
    if world == [] then 0
    else PatchedCount(world[..|world| - 1]) + (if Patches(world[|world| - 1].engine) then 1 else 0)
  }

  /** The run succeeds exactly when no rule's processing throws. */
  lemma {:induction false} SuccessIffNoRuleThrows(cfg: Config, rules: seq<string>, world: seq<RuleEnv>)
    requires |world| == |rules|
    ensures RunRules(cfg, rules, world).status == Success <==>
      forall k :: 0 <= k < |rules| ==> !ProcessRule(cfg, rules[k], world[k]).thrown
    decreases |rules|
  {
    if rules != [] {
      var n := |rules| - 1;
      SuccessIffNoRuleThrows(cfg, rules[..n], world[..n]);
      assert forall k :: 0 <= k < n ==> rules[..n][k] == rules[k] && world[..n][k] == world[k];
    }
  }

  /** The loop ends either in success or skipped with the step's one error reason. */
  lemma {:induction false} SuccessOrError(cfg: Config, rules: seq<string>, world: seq<RuleEnv>)
    requires |world| == |rules|
    ensures RunRules(cfg, rules, world).status in {Success, Skipped(ErrorReason)}
    decreases |rules|
  {
    if rules != [] {
      var n := |rules| - 1;
      SuccessOrError(cfg, rules[..n], world[..n]);
    }
  }

  /** Once the run is skipped, later rules add nothing to it. */
  lemma {:induction false} SkippedIsFinal(cfg: Config, rules: seq<string>, world: seq<RuleEnv>, k: nat)
    requires |world| == |rules| && k <= |rules|
    requires RunRules(cfg, rules[..k], world[..k]).status.Skipped?
    ensures RunRules(cfg, rules, world) == RunRules(cfg, rules[..k], world[..k])
    decreases |rules|
  {
    if |rules| == k {
      assert rules[..k] == rules && world[..k] == world;
    } else {
      var n := |rules| - 1;
      assert rules[..n][..k] == rules[..k] && world[..n][..k] == world[..k];
      SkippedIsFinal(cfg, rules[..n], world[..n], k);
    }
  }

  /**
    Fail fast: when rule `k` is the first whose processing throws, the run is skipped and
    its events are those of rules 0..k alone, one checkout each.
  */
  lemma StopsAtFirstThrow(cfg: Config, rules: seq<string>, world: seq<RuleEnv>, k: nat)
    requires |world| == |rules| && k < |rules|
    requires ProcessRule(cfg, rules[k], world[k]).thrown
    requires forall j :: 0 <= j < k ==> !ProcessRule(cfg, rules[j], world[j]).thrown
    ensures RunRules(cfg, rules, world) == RunRules(cfg, rules[..k + 1], world[..k + 1])
    ensures RunRules(cfg, rules, world).status == Skipped(ErrorReason)
    ensures Count(RunRules(cfg, rules, world).events, KCheckout) == k + 1
  {
    var pre, wpre := rules[..k], world[..k];
    assert forall j :: 0 <= j < k ==> pre[j] == rules[j] && wpre[j] == world[j];
    SuccessIffNoRuleThrows(cfg, pre, wpre);
    SuccessfulRunCount(cfg, pre, wpre, KCheckout);
    RunKindCounts(cfg, wpre);
    RunStep(cfg, rules, world, k);
    ProcessRuleCount(cfg, rules[k], world[k], KCheckout);
    CountAppend(RunRules(cfg, pre, wpre).events, ProcessRule(cfg, rules[k], world[k]).events, KCheckout);
    SkippedIsFinal(cfg, rules, world, k + 1);
  }

  /** How many events of kind `k` the rules produce when none of them throws. */
  function RunKindCount(cfg: Config, world: seq<RuleEnv>, k: Kind): nat
  {
    if world == [] then 0
    else RunKindCount(cfg, world[..|world| - 1], k) + RuleKindCount(cfg, world[|world| - 1], k)
  }

  lemma {:induction false} RunKindCounts(cfg: Config, world: seq<RuleEnv>)
    ensures var fork, named := cfg.forkedRepo.Some?, |cfg.commitId| >= 10;
      && RunKindCount(cfg, world, KCheckout) == |world|
      && RunKindCount(cfg, world, KMarkPatched) == PatchedCount(world)
      && RunKindCount(cfg, world, KRunRepair) == PatchedCount(world)
      && RunKindCount(cfg, world, KStage) == PatchedCount(world)
      && RunKindCount(cfg, world, KCommit) == PatchedCount(world)
      && RunKindCount(cfg, world, KNotify) == PatchedCount(world)
      && RunKindCount(cfg, world, KDescribePR) == (if fork then PatchedCount(world) else 0)
      && RunKindCount(cfg, world, KPush) == (if fork && named then PatchedCount(world) else 0)
      && RunKindCount(cfg, world, KPullRequest) == (if fork && named && cfg.createPR then PatchedCount(world) else 0)
  {
    if world != [] {
      RunKindCounts(cfg, world[..|world| - 1]);
    }
  }

  lemma {:induction false} SuccessfulRunCount(cfg: Config, rules: seq<string>, world: seq<RuleEnv>, k: Kind)
    requires |world| == |rules|
    requires RunRules(cfg, rules, world).status == Success
    ensures Count(RunRules(cfg, rules, world).events, k) == RunKindCount(cfg, world, k)
    decreases |rules|
  {
    if rules != [] {
      var n := |rules| - 1;
      SuccessfulRunCount(cfg, rules[..n], world[..n], k);
      ProcessRuleCount(cfg, rules[n], world[n], k);
      CountAppend(RunRules(cfg, rules[..n], world[..n]).events, ProcessRule(cfg, rules[n], world[n]).events, k);
    }
  }

  lemma {:induction false} NothingPatched(world: seq<RuleEnv>)
    requires forall i :: 0 <= i < |world| ==> !Patches(world[i].engine)
    ensures PatchedCount(world) == 0
  {
    if world != [] {
      NothingPatched(world[..|world| - 1]);
    }
  }

  /**
    A successful run checked out once per rule, and staged, committed and notified once per
    rule that patched something; it described a PR and pushed once per such rule exactly
    when a fork exists, and opened a PR once per such rule exactly when a fork exists and
    PR creation is on.
  */
  lemma SuccessfulRunCounts(cfg: Config, rules: seq<string>, world: seq<RuleEnv>)
    requires |world| == |rules|
    requires RunRules(cfg, rules, world).status == Success
    ensures var es := RunRules(cfg, rules, world).events;
      && Count(es, KCheckout) == |rules|
      && Count(es, KMarkPatched) == PatchedCount(world)
      && Count(es, KStage) == PatchedCount(world)
      && Count(es, KCommit) == PatchedCount(world)
      && Count(es, KNotify) == PatchedCount(world)
      && Count(es, KDescribePR) == (if cfg.forkedRepo.Some? then PatchedCount(world) else 0)
      && Count(es, KPush) == (if cfg.forkedRepo.Some? then PatchedCount(world) else 0)
      && Count(es, KPullRequest) == (if cfg.forkedRepo.Some? && cfg.createPR then PatchedCount(world) else 0)
  {
    forall k ensures Count(RunRules(cfg, rules, world).events, k) == RunKindCount(cfg, world, k) {
      SuccessfulRunCount(cfg, rules, world, k);
    }
    RunKindCounts(cfg, world);
    if cfg.forkedRepo.Some? && |cfg.commitId| < 10 {
      SuccessIffNoRuleThrows(cfg, rules, world);
      forall i | 0 <= i < |world| ensures !Patches(world[i].engine) {
        assert !ProcessRule(cfg, rules[i], world[i]).thrown;
      }
      NothingPatched(world);
    }
  }

  /** An event kind that no rule's processing produces appears nowhere in the run. */
  lemma {:induction false} NeverProduced(cfg: Config, rules: seq<string>, world: seq<RuleEnv>, k: Kind)
    requires |world| == |rules|
    requires k != KCheckout && k != KMarkPatched && PatchedKindCount(cfg, |cfg.commitId| >= 10, k) == 0
    ensures Count(RunRules(cfg, rules, world).events, k) == 0
    decreases |rules|
  {
    if rules != [] {
      var n := |rules| - 1;
      var prev := RunRules(cfg, rules[..n], world[..n]);
      NeverProduced(cfg, rules[..n], world[..n], k);
      if prev.status.Success? {
        ProcessRuleCount(cfg, rules[n], world[n], k);
        CountAppend(prev.events, ProcessRule(cfg, rules[n], world[n]).events, k);
      }
    }
  }

  /** Without a fork nothing is described, pushed or opened; without PR creation no PR is opened. */
  lemma NoForkNoPush(cfg: Config, rules: seq<string>, world: seq<RuleEnv>)
    requires |world| == |rules|
    ensures cfg.forkedRepo.None? ==>
      && Count(RunRules(cfg, rules, world).events, KDescribePR) == 0
      && Count(RunRules(cfg, rules, world).events, KPush) == 0
    ensures !cfg.createPR || cfg.forkedRepo.None? ==> Count(RunRules(cfg, rules, world).events, KPullRequest) == 0
  {
    if cfg.forkedRepo.None? {
      NeverProduced(cfg, rules, world, KDescribePR);
      NeverProduced(cfg, rules, world, KPush);
    }
    if !cfg.createPR || cfg.forkedRepo.None? {
      NeverProduced(cfg, rules, world, KPullRequest);
    }
  }

  /**
    The step itself. Its own fields are the target commit, the working path and the
    original branch; `trace` records the calls it makes on its collaborators.
  */
  class SoraldBot {
    const toolName: string
    var commit: Option<TargetCommit>
    var workingRepoPath: Option<string>
    var originalBranchName: Option<string>
    var trace: seq<Event>

    constructor (toolName: string)
      ensures this.toolName == toolName
      ensures commit.None? && workingRepoPath.None? && originalBranchName.None? && trace == []
    {
      this.toolName := toolName;
      commit, workingRepoPath, originalBranchName := None, None, None;
      trace := [];
    }

    /**
      init, with getOriginalBranch: record the target commit and the working path, then
      resolve the commit's originating branch. An exception while listing branches
      (`listingFails`) leaves the field as it was. Succeeds exactly when a branch is known.
    */
    method Init(hash: CommitId, slug: string, workspace: string, repo: Repository, listingFails: bool)
      returns (ok: bool)
      modifies this
      ensures commit == Some(TargetCommit(hash, slug))
      ensures workingRepoPath == Some(workspace + Separator + RepoPath)
      ensures listingFails ==> originalBranchName == old(originalBranchName)
      ensures !listingFails ==> IsOriginatingBranch(repo, hash, originalBranchName)
      ensures ok <==> originalBranchName.Some?
      ensures trace == old(trace)
    {
      commit := Some(TargetCommit(hash, slug));
      workingRepoPath := Some(workspace + Separator + RepoPath);
      if !listingFails {
        originalBranchName := BranchOfCommit(repo, hash);
      }
      ok := commit.Some? && workingRepoPath.Some? && originalBranchName.Some?;
    }

    /**
      applyPatches4SonarAndGetDiffStr: run the repair in the working tree, stage exactly the
      given files, commit with the rule's message, and return the diff of that commit
      (`latestDiff`, what git reports for it).
    */
    method ApplyPatchesAndGetDiff(files: set<string>, rule: string, latestDiff: string)
      returns (diffStr: string)
      modifies this`trace
      ensures trace == old(trace) + [RunRepair(rule), Stage(files), Commit(CommitMessage(rule))]
      ensures diffStr == latestDiff
    {
      trace := trace + [RunRepair(rule), Stage(files), Commit(CommitMessage(rule))];
      diffStr := latestDiff;
    }

    /** The configuration the rules loop works with, once init has succeeded. */
    function CurrentConfig(forkedRepo: Option<string>, createPR: bool): Config
      reads this`commit, this`originalBranchName
      requires commit.Some? && originalBranchName.Some?
    {
      Config(commit.value.commitId, toolName, forkedRepo, createPR, originalBranchName.value)
    }

    /** createPRWithSpecificPatchedFiles; `thrown` when taking the commit id's first ten characters throws. */
    method CreatePRWithSpecificPatchedFiles(files: set<string>, rule: string, latestDiff: string,
                                            forkedRepo: Option<string>, createPR: bool)
      returns (thrown: bool)
      requires commit.Some? && originalBranchName.Some?
      modifies this`trace
      ensures var o := PatchedRuleEvents(CurrentConfig(forkedRepo, createPR), files, rule, latestDiff);
        trace == old(trace) + o.events && thrown == o.thrown
    {
      ghost var o := PatchedRuleEvents(CurrentConfig(forkedRepo, createPR), files, rule, latestDiff);
      var diffStr := ApplyPatchesAndGetDiff(files, rule, latestDiff);
      var repairPatches := [RepairPatch(toolName, "", diffStr)];
      trace := trace + [Notify(repairPatches)];
      ghost var applied := [RunRepair(rule), Stage(files), Commit(CommitMessage(rule)), Notify(repairPatches)];
      assert trace == old(trace) + applied;
      if forkedRepo.None? {
        return false;
      }
      trace := trace + [DescribePR(PRText(rule), PRTitle)];
      ghost var described := applied + [DescribePR(PRText(rule), PRTitle)];
      assert trace == old(trace) + described;
      var newBranchName := PatchBranchName(commit.value.commitId, rule);
      if newBranchName.None? {
        return true;
      }
      trace := trace + [Push(forkedRepo.value, newBranchName.value)];
      if createPR {
        trace := trace + [PullRequest(originalBranchName.value, newBranchName.value)];
      }
      return false;
    }

    /**
      One pass of the rules loop (the body of its try block): check out, run the engine, and
      on a non-empty result mark the job as patched and hand the files over.
    */
    method RepairRule(rule: string, env: RuleEnv, forkedRepo: Option<string>, createPR: bool)
      returns (thrown: bool)
      requires commit.Some? && originalBranchName.Some?
      modifies this`trace
      ensures var o := ProcessRule(CurrentConfig(forkedRepo, createPR), rule, env);
        trace == old(trace) + o.events && thrown == o.thrown
    {
      trace := trace + [Checkout(commit.value.commitId)];
      var patchedFiles := env.engine;
      if patchedFiles.Throws? {
        return true;
      }
      if patchedFiles.Files? && patchedFiles.files != {} {
        trace := trace + [MarkPatched];
        thrown := CreatePRWithSpecificPatchedFiles(patchedFiles.files, rule, env.diff, forkedRepo, createPR);
        ghost var checkout, p := [Checkout(commit.value.commitId)], PatchedRuleEvents(CurrentConfig(forkedRepo, createPR), patchedFiles.files, rule, env.diff);
        AppendAssoc(old(trace) + checkout, [MarkPatched], p.events);
        AppendAssoc(old(trace), checkout, [MarkPatched] + p.events);
        AppendAssoc(checkout, [MarkPatched], p.events);
        assert checkout + [MarkPatched] == [Checkout(commit.value.commitId), MarkPatched];
        return;
      }
      return false;
    }

    /**
      The rules loop of businessExecute: each rule in order, returning Skipped at the first
      exception and Success once every rule is processed.
    */
    method RepairAllRules(rules: seq<string>, world: seq<RuleEnv>, forkedRepo: Option<string>, createPR: bool)
      returns (status: StepStatus)
      requires |world| == |rules|
      requires commit.Some? && originalBranchName.Some?
      modifies this`trace
      ensures var run := RunRules(CurrentConfig(forkedRepo, createPR), rules, world);
        status == run.status && trace == old(trace) + run.events
    {
      ghost var cfg := CurrentConfig(forkedRepo, createPR);
      for i := 0 to |rules|
        invariant RunRules(cfg, rules[..i], world[..i]).status == Success
        invariant trace == old(trace) + RunRules(cfg, rules[..i], world[..i]).events
      {
        ghost var done := RunRules(cfg, rules[..i], world[..i]).events;
        var thrown := RepairRule(rules[i], world[i], forkedRepo, createPR);
        ghost var o := ProcessRule(cfg, rules[i], world[i]);
        AppendAssoc(old(trace), done, o.events);
        RunStep(cfg, rules, world, i);
        if thrown {
          SkippedIsFinal(cfg, rules, world, i + 1);
          return Skipped(ErrorReason);
        }
      }
      assert rules[..|rules|] == rules && world[..|world|] == world;
      return Success;
    }

    /**
      businessExecute: skipped when init fails; otherwise the rules loop, skipped at the
      first exception and successful once every rule is processed.
    */
    method BusinessExecute(hash: CommitId, slug: string, workspace: string, repo: Repository,
                           listingFails: bool, rules: seq<string>, world: seq<RuleEnv>,
                           forkedRepo: Option<string>, createPR: bool)
      returns (status: StepStatus)
      requires |world| == |rules|
      modifies this
      ensures commit == Some(TargetCommit(hash, slug))
      ensures workingRepoPath == Some(workspace + Separator + RepoPath)
      ensures listingFails ==> originalBranchName == old(originalBranchName)
      ensures !listingFails ==> IsOriginatingBranch(repo, hash, originalBranchName)
      ensures originalBranchName.None? ==> status == Skipped(ErrorReason) && trace == old(trace)
      ensures originalBranchName.Some? ==>
        var run := RunRules(Config(hash, toolName, forkedRepo, createPR, originalBranchName.value), rules, world);
        status == run.status && trace == old(trace) + run.events
    {
      var successfulInit := Init(hash, slug, workspace, repo, listingFails);
      if !successfulInit {
        return Skipped(ErrorReason);
      }
      status := RepairAllRules(rules, world, forkedRepo, createPR);
    }
  }

  /** One more rule after a successful prefix. */
  lemma RunStep(cfg: Config, rules: seq<string>, world: seq<RuleEnv>, k: nat)
    requires |world| == |rules| && k < |rules|
    requires RunRules(cfg, rules[..k], world[..k]).status == Success
    ensures var o := ProcessRule(cfg, rules[k], world[k]);
      RunRules(cfg, rules[..k + 1], world[..k + 1]) ==
        Run(RunRules(cfg, rules[..k], world[..k]).events + o.events,
            if o.thrown then Skipped(ErrorReason) else Success)
  {
    assert rules[..k + 1][..k] == rules[..k] && world[..k + 1][..k] == world[..k];
    assert rules[..k + 1][k] == rules[k] && world[..k + 1][k] == world[k];
  }
}
