# SoraldBot: a Dafny model

This project models the Sorald repair step of the Repairnator pipeline
(`SoraldBot.java`). For one target commit, the step works out which branch the commit
came from. It then runs the Sorald engine once per configured rule. For every rule that
patched files, it stages and commits exactly those files, reports one repair patch and,
when a fork is configured, pushes a per-rule branch and optionally opens a pull request.
The step ends as a success, or as skipped at the first exception.

Layout:

- `wrappers.dfy`: `Option`, which stands for Java's `null`.
- `strings.dfy`: `String.contains`, defined by where one string occurs in another.
- `history.dfy`: the commit graph and what `git log` yields from a tip. The log is a
  computable closure, proved equal to reachability. Also `getPrevHash` as a loop over a
  RevWalk, and the `"Start of repo"` sentinel of `getDiffOfCommit`.
- `branches.dfy`: `getBranchOfCommit` and its main-line preference.
- `naming.dfy`: the three texts made per patched rule. These are the patch branch name,
  the commit message and the PR description.
- `bot.dfy`: the step as the class `SoraldBot`, with the fields `init` sets. Calls on
  collaborators are kept as a `trace` of events: checkout, setting the job's patched
  flag, running the repair, staging, committing, `notify`, setting the PR text, pushing
  and opening a PR. Every method is proved against pure specification functions
  (`PatchedRuleEvents`, `ProcessRule`, `RunRules`), and the lemmas count and order the
  events those functions produce.

Inputs the model takes as parameters:

- the repository (`Repository`: graph and branch list);
- whether listing branches throws (`listingFails`);
- per rule, what the Sorald engine does (`RuleEnv.engine`: throws, returns null, or
  returns a set of files) and the diff text git reports for the new commit
  (`RuleEnv.diff`);
- the fork's name (`forkedRepo`) and the create-PR switch (`createPR`).

## Model

| member | source | states |
|---|---|---|
| Strings.Contains | src/repairnator-pipeline/src/main/java/fr/inria/spirals/repairnator/process/step/repair/soraldbot/SoraldBot.java:248 | `contains` holds exactly when the needle occurs at some position of the string |
| History.LogIsHistory | src/repairnator-pipeline/src/main/java/fr/inria/spirals/repairnator/process/step/repair/soraldbot/SoraldBot.java:235-237 | a commit is in the log from a branch tip exactly when a parent chain leads from the tip to it |
| History.Log | src/repairnator-pipeline/src/main/java/fr/inria/spirals/repairnator/process/step/repair/soraldbot/SoraldBot.java:235-236 | `git log` from a tip: it contains the tip and is closed under taking parents (`History.LogIsHistory` proves it is exactly the tip's history) |
| History.PrevHash | src/repairnator-pipeline/src/main/java/fr/inria/spirals/repairnator/process/step/repair/soraldbot/SoraldBot.java:197-214 | the loop returns the walk's second commit, and null exactly when the walk has fewer than two |
| History.WalkPrevious | src/repairnator-pipeline/src/main/java/fr/inria/spirals/repairnator/process/step/repair/soraldbot/SoraldBot.java:197-214 | on a complete walk there is no previous commit exactly when the start has no parent other than itself; when there is one, it is a proper ancestor of the start |
| History.DiffOfCommit | src/repairnator-pipeline/src/main/java/fr/inria/spirals/repairnator/process/step/repair/soraldbot/SoraldBot.java:177-194 | for a walk from the new commit: "Start of repo" when there is no previous commit, in particular for a root commit; otherwise the formatter's text for the previous commit, a proper ancestor, against the new one |
| Branches.BranchOfCommit | src/repairnator-pipeline/src/main/java/fr/inria/spirals/repairnator/process/step/repair/soraldbot/SoraldBot.java:227-251 | null exactly when no branch's log holds the commit; otherwise the name of a branch whose log holds it, and a main-line one whenever such a branch exists |
| Branches.IsMainLine | src/repairnator-pipeline/src/main/java/fr/inria/spirals/repairnator/process/step/repair/soraldbot/SoraldBot.java:248 | the main-line filter: equal to `master` or `main`, or containing `/master` or `/main`; its consequences are the two lemmas below |
| Branches.MainLineBySubstring | src/repairnator-pipeline/src/main/java/fr/inria/spirals/repairnator/process/step/repair/soraldbot/SoraldBot.java:247-248 | full refs such as `refs/heads/master` and `origin/main` count as main line, and so does `refs/heads/maintenance`, because the test is `contains` |
| Branches.MainLineWithoutSlash | src/repairnator-pipeline/src/main/java/fr/inria/spirals/repairnator/process/step/repair/soraldbot/SoraldBot.java:247-248 | a name without `/` is main line exactly when it is `main` or `master` |
| Branches.ScenarioPrefersMain | src/repairnator-pipeline/src/main/java/fr/inria/spirals/repairnator/process/step/repair/soraldbot/SoraldBot.java:232-250 | when a commit is on both `dev` and `main`, the only answer the contract allows is `main` |
| Naming.PatchBranchName | src/repairnator-pipeline/src/main/java/fr/inria/spirals/repairnator/process/step/repair/soraldbot/SoraldBot.java:124 | a branch name exists exactly when the commit id has at least ten characters; otherwise `substring(0, 10)` throws |
| Naming.PatchBranchRoundTrip | src/repairnator-pipeline/src/main/java/fr/inria/spirals/repairnator/process/step/repair/soraldbot/SoraldBot.java:124 | the id's first ten characters and the rule can be read back from the branch name |
| Naming.PatchBranchesPerRule | src/repairnator-pipeline/src/main/java/fr/inria/spirals/repairnator/process/step/repair/soraldbot/SoraldBot.java:124 | for one commit, two rules get the same branch exactly when they are the same rule |
| Naming.CommitMessage | src/repairnator-pipeline/src/main/java/fr/inria/spirals/repairnator/process/step/repair/soraldbot/SoraldBot.java:155 | the commit message, the fixed prefix followed by the rule; `Naming.CommitMessageRoundTrip` proves the rule can be read back |
| Naming.CommitMessageRoundTrip | src/repairnator-pipeline/src/main/java/fr/inria/spirals/repairnator/process/step/repair/soraldbot/SoraldBot.java:154-155 | the rule can be read back from its commit message |
| Naming.PRText | src/repairnator-pipeline/src/main/java/fr/inria/spirals/repairnator/process/step/repair/soraldbot/SoraldBot.java:117-120 | the PR body: introduction, the rule's link and a line break, the opt-out sentence; the three lemmas below state what it holds |
| Naming.PRTextMentions | src/repairnator-pipeline/src/main/java/fr/inria/spirals/repairnator/process/step/repair/soraldbot/SoraldBot.java:117-121 | the PR text holds the rule's documentation link between two line breaks (on a line of its own), and the `'STOP'` opt-out keyword |
| Naming.RuleInPRText | src/repairnator-pipeline/src/main/java/fr/inria/spirals/repairnator/process/step/repair/soraldbot/SoraldBot.java:117-121 | the PR text's length, and the position where the rule sits in it |
| Naming.PRTextPerRule | src/repairnator-pipeline/src/main/java/fr/inria/spirals/repairnator/process/step/repair/soraldbot/SoraldBot.java:117-121 | different rules get different PR texts |
| Bot.PatchedRuleEvents | src/repairnator-pipeline/src/main/java/fr/inria/spirals/repairnator/process/step/repair/soraldbot/SoraldBot.java:102-130 | handing a patched rule over throws exactly when a fork is configured and the commit id is shorter than ten characters |
| Bot.PatchedRuleCounts | src/repairnator-pipeline/src/main/java/fr/inria/spirals/repairnator/process/step/repair/soraldbot/SoraldBot.java:102-130 | a patched rule runs the repair, stages, commits and notifies once each; it sets the PR text once only with a fork, pushes once only with a fork and a usable id, and opens a PR once only when PR creation is also on |
| Bot.PatchedRuleEventsSayRule | src/repairnator-pipeline/src/main/java/fr/inria/spirals/repairnator/process/step/repair/soraldbot/SoraldBot.java:102-130 | every event of a patched rule carries that rule's data: its files, its commit message, one patch with the tool name, an empty description and the diff, its PR text and title, the fork and its branch, and the original branch as the PR's base |
| Bot.ProcessRule | src/repairnator-pipeline/src/main/java/fr/inria/spirals/repairnator/process/step/repair/soraldbot/SoraldBot.java:83-96 | every rule starts with a checkout; null or an empty set of files does nothing more and does not throw; an engine exception throws; a patched rule throws only where naming its branch does |
| Bot.ProcessRuleCounts | src/repairnator-pipeline/src/main/java/fr/inria/spirals/repairnator/process/step/repair/soraldbot/SoraldBot.java:83-96 | one checkout per rule; the patched flag, staging, commit and notification once each exactly when the engine returned a non-empty set |
| Bot.ProcessRuleSaysRule | src/repairnator-pipeline/src/main/java/fr/inria/spirals/repairnator/process/step/repair/soraldbot/SoraldBot.java:90-93 | after its checkout, a patched rule only marks the job as patched and acts on its own data |
| Bot.RunRules | src/repairnator-pipeline/src/main/java/fr/inria/spirals/repairnator/process/step/repair/soraldbot/SoraldBot.java:81-99 | the meaning of the rules loop: rules in order, each one's events appended, stopping skipped at the first rule that throws; its properties are the lemmas below |
| Bot.SuccessIffNoRuleThrows | src/repairnator-pipeline/src/main/java/fr/inria/spirals/repairnator/process/step/repair/soraldbot/SoraldBot.java:81-99 | the rules loop succeeds exactly when processing no rule throws |
| Bot.SuccessOrError | src/repairnator-pipeline/src/main/java/fr/inria/spirals/repairnator/process/step/repair/soraldbot/SoraldBot.java:94-99 | the loop ends either in success or skipped with "Error while repairing with Sorald" |
| Bot.SkippedIsFinal | src/repairnator-pipeline/src/main/java/fr/inria/spirals/repairnator/process/step/repair/soraldbot/SoraldBot.java:94-96 | once the run is skipped, later rules change neither its status nor its events |
| Bot.StopsAtFirstThrow | src/repairnator-pipeline/src/main/java/fr/inria/spirals/repairnator/process/step/repair/soraldbot/SoraldBot.java:81-97 | fail fast: when rule k is the first to throw, the run is skipped, its events are those of rules 0..k alone, and it checked out exactly k+1 times |
| Bot.SuccessfulRunCounts | src/repairnator-pipeline/src/main/java/fr/inria/spirals/repairnator/process/step/repair/soraldbot/SoraldBot.java:81-99 | a successful run checked out once per rule; it marked, staged, committed and notified once per patched rule; it set the PR text and pushed once per patched rule exactly when a fork exists, and opened a PR once per patched rule exactly when PR creation is also on |
| Bot.NeverProduced | src/repairnator-pipeline/src/main/java/fr/inria/spirals/repairnator/process/step/repair/soraldbot/SoraldBot.java:81-130 | an event kind that no single rule produces appears nowhere in the run, whether it succeeds or is skipped |
| Bot.NoForkNoPush | src/repairnator-pipeline/src/main/java/fr/inria/spirals/repairnator/process/step/repair/soraldbot/SoraldBot.java:112-129 | without a fork, no PR text is set and nothing is pushed; without a fork or without PR creation, no PR is opened |
| Bot.SoraldBot.constructor | src/repairnator-pipeline/src/main/java/fr/inria/spirals/repairnator/process/step/repair/soraldbot/SoraldBot.java:36-41 | a new step holds no commit, no working path and no branch, and has made no calls |
| Bot.SoraldBot.Init | src/repairnator-pipeline/src/main/java/fr/inria/spirals/repairnator/process/step/repair/soraldbot/SoraldBot.java:46-57 | `init` (with `getOriginalBranch`, lines 132-140): sets the commit and `workspace/tmp_repo`; the branch meets the `getBranchOfCommit` contract unless listing throws, in which case the field keeps its value; succeeds exactly when a branch is known |
| Bot.SoraldBot.ApplyPatchesAndGetDiff | src/repairnator-pipeline/src/main/java/fr/inria/spirals/repairnator/process/step/repair/soraldbot/SoraldBot.java:142-162 | runs the repair, stages exactly the given files, commits with the rule's message, and returns the new commit's diff |
| Bot.SoraldBot.CreatePRWithSpecificPatchedFiles | src/repairnator-pipeline/src/main/java/fr/inria/spirals/repairnator/process/step/repair/soraldbot/SoraldBot.java:102-130 | appends exactly the events of `PatchedRuleEvents` for the current commit and original branch, and throws exactly when it does |
| Bot.SoraldBot.RepairRule | src/repairnator-pipeline/src/main/java/fr/inria/spirals/repairnator/process/step/repair/soraldbot/SoraldBot.java:83-96 | one pass of the loop appends exactly the events of `ProcessRule`, and throws exactly when it does |
| Bot.SoraldBot.RepairAllRules | src/repairnator-pipeline/src/main/java/fr/inria/spirals/repairnator/process/step/repair/soraldbot/SoraldBot.java:79-99 | the loop's status and appended events are those of `RunRules` over the configured rules |
| Bot.SoraldBot.BusinessExecute | src/repairnator-pipeline/src/main/java/fr/inria/spirals/repairnator/process/step/repair/soraldbot/SoraldBot.java:72-100 | sets the commit and the working path as `init` does; skipped with no further calls when `init` fails; otherwise the status and calls of `RunRules` with the resolved original branch as the PR base |

## Left out

- Git and file-system I/O: cloning, opening the repository, JGit's checkout, `git add`
  and `git commit`, and the resolution of `HEAD` are not modelled. Each is recorded as an
  event or taken as given.
- The RevWalk order is left out. `History.PrevHash` takes the walk as a sequence. Only
  `History.IsWalk` says what a complete walk from the start commit holds (the start first,
  then the rest of its history, each commit once). JGit's date order is not modelled.
- `getCanonicalTreeParser` and `DiffFormatter` are foreign code. `History.DiffOfCommit`
  takes the formatter as a function parameter.
- Bot.SoraldBot.ApplyPatchesAndGetDiff: the diff of the new commit is an input (`RuleEnv.diff`),
  because it is what git reports for a commit the model does not build. `History.DiffOfCommit`
  models how that text is chosen.
- The Sorald engine (`SoraldAdapter.repair…`) is foreign code. Its outcome per rule is a
  parameter: throws, null, or a set of files. The engine's second run inside
  `applyPatches4SonarAndGetDiffStr` is the `RunRepair` event.
- Bot.PatchedRuleEvents: the only exception it raises is the one from `substring(0, 10)`
  on an id shorter than ten characters. Exceptions from committing, computing the diff,
  pushing or opening the PR are not modelled. In the source, those would also end the run
  as skipped, through the same `catch`.
- Transport is left out: `notify`, `setPrText`, `setPRTitle`, `pushPatches` with
  `createGitBranch4Push`, `createPullRequest` and `setHasBeenPatched`. They are modelled
  only as trace events with their arguments.
- Logging, the `RepairnatorConfig` singleton (rules, fork name, create-PR switch are
  parameters), closing git handles, and the commit and PR URLs are left out.
- `SoraldConstants` values are left out. The tool name is the constructor's parameter, and
  `SPOON_SNIPER_MODE` is not modelled.
- `File.separator` is taken to be `/`.
- Branches.BranchOfCommit: which of several qualifying branches a `HashSet` iterates first
  is not modelled. The method may return any qualifying name, so the model does not show
  that two runs on the same repository pick the same branch.
- JGit's `branchList` returns full ref names (`refs/heads/master`). So the tests
  `equals("master")` and `equals("main")` rarely match, and `contains("/master")` does
  the work. The model keeps the names as given.
- The main-line test is the code's `contains("/master")` and `contains("/main")`. A test
  on names that end with `/master` or `/main` would reject `refs/heads/maintenance`; the
  code's `contains` accepts it, as `Branches.MainLineBySubstring` shows.
- Only a failure to list branches is modelled for `getOriginalBranch`. It keeps the old
  field value, because the assignment never happens. Failures while reading an individual
  branch's log are folded into the same flag.
