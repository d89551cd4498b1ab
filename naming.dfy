/** The strings the bot generates for each patched rule: push branch, commit message, PR text. */
module Naming {
  import opened Wrappers
  import opened Strings

  const PatchBranchPrefix: string := "repairnator-patch-"
  const CommitMessagePrefix: string := "Proposal for patching the Sorald rule "
  const PRTitle: string := "Fix Sorald violations"
  const RuleLinkTemplate: string := "https://rules.sonarsource.com/java/RSPEC-"
  const PRIntro: string := "This PR fixes the violations for the following Sorald rule: \n"
  const PROptOut: string :=
    "If you do no want to receive automated PRs for Sorald warnings, reply to this PR with 'STOP'"

  /**
    The branch pushed to the fork: prefix, the first ten characters of the commit id, `_`,
    the rule. None where `substring(0, 10)` throws, i.e. on an id shorter than ten.
  */
  function PatchBranchName(commitId: string, rule: string): (r: Option<string>)
    ensures r.Some? <==> |commitId| >= 10
  {
    if |commitId| < 10 then None
    else Some(PatchBranchPrefix + commitId[..10] + "_" + rule)
  }

  /** The id prefix and the rule can be read back from a patch branch name. */
  lemma PatchBranchRoundTrip(commitId: string, rule: string)
    requires |commitId| >= 10
    ensures ParsePatchBranch(PatchBranchName(commitId, rule).value) == Some((commitId[..10], rule))
  {
    var name := PatchBranchName(commitId, rule).value;
    assert name[..|PatchBranchPrefix|] == PatchBranchPrefix;
    assert name[|PatchBranchPrefix|..|PatchBranchPrefix| + 10] == commitId[..10];
    assert name[|PatchBranchPrefix| + 11..] == rule;
  }

  /** Reads the id prefix and the rule back out of a patch branch name. */
  function ParsePatchBranch(name: string): Option<(string, string)>
  {
    var n := |PatchBranchPrefix|;
    if |name| > n + 10 && name[..n] == PatchBranchPrefix && name[n + 10] == '_' then
      Some((name[n..n + 10], name[n + 11..]))
    else
      None
  }

  /** Two patch branches made for the same commit are the same branch only for the same rule. */
  lemma PatchBranchesPerRule(commitId: string, rule1: string, rule2: string)
    requires |commitId| >= 10
    ensures PatchBranchName(commitId, rule1) == PatchBranchName(commitId, rule2) <==> rule1 == rule2
  {
    PatchBranchRoundTrip(commitId, rule1);
    PatchBranchRoundTrip(commitId, rule2);
  }

  /** The message of the commit made for one rule. */
  function CommitMessage(rule: string): string
  {
    CommitMessagePrefix + rule
  }

  /** The rule can be read back from its commit message. */
  lemma CommitMessageRoundTrip(rule: string)
    ensures RuleOfCommitMessage(CommitMessage(rule)) == Some(rule)
  {
    var m := CommitMessage(rule);
    assert m[..|CommitMessagePrefix|] == CommitMessagePrefix && m[|CommitMessagePrefix|..] == rule;
  }

  function RuleOfCommitMessage(m: string): Option<string>
  {
    var n := |CommitMessagePrefix|;
    if |m| >= n && m[..n] == CommitMessagePrefix then Some(m[n..]) else None
  }

  /** The link to the rule's documentation page. */
  function RuleLink(rule: string): string
  {
    RuleLinkTemplate + rule
  }

  /**
    The PR body: an introduction, the rule's documentation link on a line of its own, and
    the opt-out instruction.
  */
  function PRText(rule: string): string
  {
    PRIntro + RuleLink(rule) + "\n" + PROptOut
  }

  /** The PR body carries the rule's link on a line of its own and the opt-out keyword. */
  lemma PRTextMentions(rule: string)
    ensures Contains(PRText(rule), "\n" + RuleLink(rule) + "\n")
    ensures Contains(PRText(rule), "'STOP'")
  {
    var line, t := "\n" + RuleLink(rule) + "\n", PRText(rule);
    assert PRIntro[|PRIntro| - 1] == '\n';
    assert OccursAt(t, line, |PRIntro| - 1) by {
      assert PRIntro == PRIntro[..|PRIntro| - 1] + "\n";
      assert t == PRIntro[..|PRIntro| - 1] + line + PROptOut;
      assert t[|PRIntro| - 1..|PRIntro| - 1 + |line|] == line;
    }
    assert OccursAt(t, "'STOP'", |t| - 6) by {
      assert t[|t| - 6..] == PROptOut[|PROptOut| - 6..];
    }
  }

  lemma Regroup(a: string, b: string, c: string, d: string, e: string)
    ensures a + (b + c) + d + e == (a + b) + c + (d + e)
  {
  }

  /** Where the rule sits in the PR body. */
  lemma RuleInPRText(rule: string)
    ensures var n := |PRIntro| + |RuleLinkTemplate|;
      |PRText(rule)| == n + |rule| + 1 + |PROptOut| && PRText(rule)[n..n + |rule|] == rule
  {
    var head, tail := PRIntro + RuleLinkTemplate, "\n" + PROptOut;
    Regroup(PRIntro, RuleLinkTemplate, rule, "\n", PROptOut);
    assert (head + rule + tail)[|head|..|head| + |rule|] == rule;
  }

  /** Different rules get different PR bodies. */
  lemma PRTextPerRule(rule1: string, rule2: string)
    requires PRText(rule1) == PRText(rule2)
    ensures rule1 == rule2
  {
    RuleInPRText(rule1);
    RuleInPRText(rule2);
  }
}
