/** The issue and suggestion generators and the category gate
    (`generateIssues`, `getSuggestionForRule`, `generateSuggestions`,
    `determineCategory` in server/src/services/qaService.ts). */
module Report {
  import opened Optional
  import opened Seqs
  import opened QATypes
  import Scoring

  /** `score < 5` is high, `score < 7` medium, anything else low. */
  function SeverityOf(score: real): (s: Severity)
    ensures s == High <==> score < 5.0
    ensures s == Medium <==> 5.0 <= score < 7.0
    ensures s == Low <==> score >= 7.0
  {
    if score < 5.0 then High else if score < 7.0 then Medium else Low
  }

  const DefaultRuleSuggestion := "Follow the style guide for best practices"

  /** `getSuggestionForRule`: the fixed hint for each built-in rule, and the
      style-guide hint for any other id. */
  function SuggestionFor(ruleId: string): (s: string)
    ensures s != ""
    ensures s == DefaultRuleSuggestion <==>
              ruleId !in {FormattingId, OrganizationId, CompletenessId, ClarityId, LinkConsistencyId, ToneId}
  {
    if ruleId == FormattingId then "Use consistent bullet points and maintain proper spacing"
    else if ruleId == OrganizationId then "Structure information with clear headers and logical grouping"
    else if ruleId == CompletenessId then "Include all necessary details and clear next steps"
    else if ruleId == ClarityId then "Break down long paragraphs for better readability"
    else if ruleId == LinkConsistencyId then "Ensure all links are working and properly formatted"
    else if ruleId == ToneId then "Maintain helpful, professional language throughout"
    else DefaultRuleSuggestion
  }

  /** A result that failed or scored below 7 and whose rule is in the
      table. */
  predicate RaisesIssue(res: RuleResult, rules: seq<Rule>) {
    (!res.passed || res.score < 7.0) && FindRule(rules, res.ruleId).Some?
  }

  /** The issue a failing result raises: its rule's id, a severity graded
      by its score, the rule's name before the feedback, and the rule's hint. */
  function RuleIssue(res: RuleResult, rules: seq<Rule>): (i: Issue)
    requires RaisesIssue(res, rules)
    ensures i.ruleId == res.ruleId
    ensures i.severity == SeverityOf(res.score)
    ensures i.message == FindRule(rules, res.ruleId).value.name + ": " + res.feedback
    ensures i.suggestion == SuggestionFor(res.ruleId)
  {
    Issue(res.ruleId, SeverityOf(res.score), FindRule(rules, res.ruleId).value.name + ": " + res.feedback,
          SuggestionFor(res.ruleId))
  }

  /** The issue a link that is not valid raises: medium, naming its URL. */
  function LinkIssue(l: LinkResult): (i: Issue)
    ensures i.ruleId == LinkValidationId && i.severity == Medium
    ensures i.message == "Link validation failed: " + l.url
    ensures i.suggestion == "Check if the URL is correct and accessible"
  {
    Issue(LinkValidationId, Medium, "Link validation failed: " + l.url, "Check if the URL is correct and accessible")
  }

  /** One issue per result that raises one, in result order. */
  function RuleIssues(results: seq<RuleResult>, rules: seq<Rule>): (issues: seq<Issue>)
    ensures |issues| == |Filter(results, r => RaisesIssue(r, rules))|
    ensures forall k :: 0 <= k < |issues| ==>
              issues[k] == RuleIssue(Filter(results, r => RaisesIssue(r, rules))[k], rules)
    decreases |results|
  {
    if results == [] then []
    else
      var last := results[|results| - 1];
      var rest := RuleIssues(results[..|results| - 1], rules);
      if RaisesIssue(last, rules) then rest + [RuleIssue(last, rules)] else rest
  }

  /** One medium issue per link that is not valid, in link order. */
  function LinkIssues(links: seq<LinkResult>): (issues: seq<Issue>)
    ensures |issues| == Scoring.BrokenLinks(links)
    ensures forall i :: 0 <= i < |issues| ==> issues[i].severity == Medium && issues[i].ruleId == LinkValidationId
    ensures forall k :: 0 <= k < |issues| ==> issues[k] == LinkIssue(Filter(links, Scoring.IsBroken)[k])
    decreases |links|
  {
    if links == [] then []
    else
      var last := links[|links| - 1];
      var rest := LinkIssues(links[..|links| - 1]);
      if Scoring.IsBroken(last) then rest + [LinkIssue(last)] else rest
  }

  /** The issue list of a review: rule issues first, then link issues. */
  function Issues(results: seq<RuleResult>, rules: seq<Rule>, links: seq<LinkResult>): (r: seq<Issue>)
    ensures |r| == |RuleIssues(results, rules)| + |LinkIssues(links)|
    ensures forall k :: 0 <= k < |RuleIssues(results, rules)| ==> r[k] == RuleIssues(results, rules)[k]
    ensures forall k :: 0 <= k < |LinkIssues(links)| ==> r[|RuleIssues(results, rules)| + k] == LinkIssues(links)[k]
  {
    RuleIssues(results, rules) + LinkIssues(links)
  }

  /** The high-severity issues of a review all come from rules. */
  lemma {:induction false} IssuesHighCount(results: seq<RuleResult>, rules: seq<Rule>, links: seq<LinkResult>)
    ensures HighCount(Issues(results, rules, links)) == HighCount(RuleIssues(results, rules))
  {
    var ruleIssues := RuleIssues(results, rules);
    var linkIssues := LinkIssues(links);
    assert Issues(results, rules, links) == ruleIssues + linkIssues;
    FilterAppend(ruleIssues, linkIssues, IsHigh);
    FilterNone(linkIssues, IsHigh);
  }

  /** `generateIssues`. */
  method GenerateIssues(results: seq<RuleResult>, rules: seq<Rule>, links: seq<LinkResult>)
    returns (issues: seq<Issue>)
    ensures issues == Issues(results, rules, links)
    ensures |issues| == |Filter(results, r => RaisesIssue(r, rules))| + Scoring.BrokenLinks(links)
  {
    issues := [];
    for i := 0 to |results|
      invariant issues == RuleIssues(results[..i], rules)
    {
      assert results[..i + 1][..i] == results[..i];
      if !results[i].passed || results[i].score < 7.0 {
        var rule := FindRule(rules, results[i].ruleId);
        if rule.Some? {
          issues := issues + [Issue(results[i].ruleId, SeverityOf(results[i].score),
                                    rule.value.name + ": " + results[i].feedback,
                                    SuggestionFor(results[i].ruleId))];
        }
      }
    }
    assert results[..|results|] == results;
    ghost var ruleIssues := issues;
    for j := 0 to |links|
      invariant issues == ruleIssues + LinkIssues(links[..j])
    {
      assert links[..j + 1][..j] == links[..j];
      if links[j].status != Valid {
        issues := issues + [Issue(LinkValidationId, Medium, "Link validation failed: " + links[j].url,
                                  "Check if the URL is correct and accessible")];
      }
    }
    assert links[..|links|] == links;
  }

  predicate IsHigh(i: Issue) {
    i.severity == High
  }

  /** Number of high-severity issues. */
  function HighCount(issues: seq<Issue>): nat {
    |Filter(issues, IsHigh)|
  }

  /** Rule results that all score at least 5 raise no high-severity issue;
      link issues are never high. */
  lemma {:induction false} NoHighIssues(results: seq<RuleResult>, rules: seq<Rule>, links: seq<LinkResult>)
    requires forall i :: 0 <= i < |results| ==> results[i].score >= 5.0
    ensures HighCount(Issues(results, rules, links)) == 0
  {
    var issues := Issues(results, rules, links);
    NoHighRuleIssues(results, rules);
    forall k | 0 <= k < |issues| ensures !IsHigh(issues[k]) {
      if k >= |RuleIssues(results, rules)| {
        assert issues[k] == LinkIssues(links)[k - |RuleIssues(results, rules)|];
      }
    }
    FilterNone(issues, IsHigh);
  }

  lemma {:induction false} NoHighRuleIssues(results: seq<RuleResult>, rules: seq<Rule>)
    requires forall i :: 0 <= i < |results| ==> results[i].score >= 5.0
    ensures forall k :: 0 <= k < |RuleIssues(results, rules)| ==> !IsHigh(RuleIssues(results, rules)[k])
    decreases |results|
  {
    if results != [] {
      NoHighRuleIssues(results[..|results| - 1], rules);
    }
  }

  lemma {:induction false} FilterNone<T>(xs: seq<T>, p: T -> bool)
    requires forall k :: 0 <= k < |xs| ==> !p(xs[k])
    ensures Filter(xs, p) == []
    decreases |xs|
  {
    if xs != [] {
      FilterNone(xs[..|xs| - 1], p);
    }
  }

  /** `determineCategory`: approved iff the score is at least 8 with no
      high-severity issue; needs revision iff, failing that, the score is at
      least 6 with at most one; rejected iff the score is below 6 or there are
      two or more high-severity issues. */
  function DetermineCategory(tenths: int, issues: seq<Issue>): (c: Category)
    ensures c == Approved <==> tenths >= 80 && HighCount(issues) == 0
    ensures c == NeedsRevision <==> !(tenths >= 80 && HighCount(issues) == 0) && tenths >= 60 && HighCount(issues) <= 1
    ensures c == Rejected <==> tenths < 60 || HighCount(issues) >= 2
  {
    var high := HighCount(issues);
    if tenths >= 80 && high == 0 then Approved
    else if tenths >= 60 && high <= 1 then NeedsRevision
    else Rejected
  }

  const DefaultSuggestion := "Message meets quality standards"

  /** The non-empty suggestions of the issues, in issue order. */
  function IssueSuggestions(issues: seq<Issue>): (s: seq<string>)
    ensures forall k :: 0 <= k < |s| ==> s[k] != ""
    decreases |issues|
  {
    if issues == [] then []
    else
      var last := issues[|issues| - 1].suggestion;
      var rest := IssueSuggestions(issues[..|issues| - 1]);
      if last != "" then rest + [last] else rest
  }

  /** The suggestion list of a review: issue suggestions, then the judge's
      improvements, without repeats and cut at 5; the fixed default when
      there are none. */
  function Suggestions(issues: seq<Issue>, improvements: seq<string>): (r: seq<string>)
    ensures 1 <= |r| <= 5
    ensures NoDup(r)
    ensures IssueSuggestions(issues) + improvements == [] ==> r == [DefaultSuggestion]
    ensures IssueSuggestions(issues) + improvements != [] ==>
              forall k :: 0 <= k < |r| ==> r[k] in IssueSuggestions(issues) + improvements
    ensures forall k :: 0 <= k < |r| && k < |Dedup(IssueSuggestions(issues))| ==>
              r[k] == Dedup(IssueSuggestions(issues))[k]
    ensures var d := Dedup(IssueSuggestions(issues) + improvements);
            d != [] ==> r <= d && |r| == if |d| < 5 then |d| else 5
  {
    DedupPrefix(IssueSuggestions(issues), improvements);
    FirstFive(Dedup(IssueSuggestions(issues) + improvements))
  }

  /** The first five of a de-duplicated list, or the default suggestion in
      place of an empty one. */
  function FirstFive(d: seq<string>): (r: seq<string>)
    ensures 1 <= |r| <= 5
    ensures d == [] ==> r == [DefaultSuggestion]
    ensures d != [] ==> r <= d && |r| == if |d| < 5 then |d| else 5
  {
    if d == [] then [DefaultSuggestion] else d[..if |d| < 5 then |d| else 5]
  }

  /** `generateSuggestions`: fills an insertion-ordered set, then keeps its
      first five members. */
  method GenerateSuggestions(issues: seq<Issue>, improvements: seq<string>) returns (r: seq<string>)
    ensures r == Suggestions(issues, improvements)
  {
    var seen: seq<string> := [];
    for i := 0 to |issues|
      invariant seen == Dedup(IssueSuggestions(issues[..i]))
    {
      var s := issues[i].suggestion;
      IssueSuggestionsStep(issues, i);
      if s != "" {
        seen := AddNew(seen, s, IssueSuggestions(issues[..i]));
      }
    }
    assert issues[..|issues|] == issues;
    seen := AddAll(seen, improvements, IssueSuggestions(issues));
    if |seen| == 0 {
      seen := [DefaultSuggestion];
    }
    r := seen[..if |seen| < 5 then |seen| else 5];
  }

  /** `set.add(x)` for each `x` of `xs`, in order, on an insertion-ordered
      set that holds `Dedup(before)`. */
  method AddAll(seen: seq<string>, xs: seq<string>, ghost before: seq<string>) returns (r: seq<string>)
    requires seen == Dedup(before)
    ensures r == Dedup(before + xs)
  {
    r := seen;
    assert before + xs[..0] == before;
    for j := 0 to |xs|
      invariant r == Dedup(before + xs[..j])
    {
      AppendPrefixStep(before, xs, j);
      r := AddNew(r, xs[j], before + xs[..j]);
    }
    assert xs[..|xs|] == xs;
  }

  /** `set.add(x)` on an insertion-ordered set that holds `Dedup(xs)`. */
  method AddNew(seen: seq<string>, x: string, ghost xs: seq<string>) returns (r: seq<string>)
    requires seen == Dedup(xs)
    ensures r == Dedup(xs + [x])
  {
    assert (xs + [x])[..|xs + [x]| - 1] == xs;
    r := if x in seen then seen else seen + [x];
  }

  lemma IssueSuggestionsStep(issues: seq<Issue>, i: nat)
    requires i < |issues|
    ensures issues[i].suggestion != "" ==>
              IssueSuggestions(issues[..i + 1]) == IssueSuggestions(issues[..i]) + [issues[i].suggestion]
    ensures issues[i].suggestion == "" ==> IssueSuggestions(issues[..i + 1]) == IssueSuggestions(issues[..i])
  {
    assert issues[..i + 1][..i] == issues[..i];
  }
}
