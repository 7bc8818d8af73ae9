/** The QA service object: its mutable rule table, the rule-management
    operations and the review pipeline `performQAReview`
    (server/src/services/qaService.ts). */
module QAService {
  import opened Optional
  import opened QATypes
  import opened Links
  import opened Judge
  import RuleEngine
  import Scoring
  import Report
  import Text

  const InvalidContentError := "QA review failed: Invalid message content provided"

  /** `{ ...rule, ...patch }`: every field the patch carries replaces the
      rule's, every other field is kept. */
  function Merge(rule: Rule, patch: RulePatch): (r: Rule)
    ensures r.id == patch.id.GetOr(rule.id) && r.name == patch.name.GetOr(rule.name)
    ensures r.description == patch.description.GetOr(rule.description)
    ensures r.enabled == patch.enabled.GetOr(rule.enabled) && r.weight == patch.weight.GetOr(rule.weight)
    ensures r.category == patch.category.GetOr(rule.category)
  {
    Rule(patch.id.GetOr(rule.id), patch.name.GetOr(rule.name), patch.description.GetOr(rule.description),
         patch.enabled.GetOr(rule.enabled), patch.weight.GetOr(rule.weight), patch.category.GetOr(rule.category))
  }

  /** Merging the same patch twice is merging it once. */
  lemma MergeIdempotent(rule: Rule, patch: RulePatch)
    ensures Merge(Merge(rule, patch), patch) == Merge(rule, patch)
  {
  }

  /** The rule table after `updateRule(id, patch)`: the first rule with that
      id is merged with the patch; without one the table is unchanged. */
  function UpdateIn(rules: seq<Rule>, id: string, patch: RulePatch): (r: seq<Rule>)
    ensures |r| == |rules|
    ensures FindRuleIndex(rules, id).None? ==> r == rules
    ensures FindRuleIndex(rules, id).Some? ==>
              var k := FindRuleIndex(rules, id).value;
              r[k] == Merge(rules[k], patch) && forall j :: 0 <= j < |rules| && j != k ==> r[j] == rules[j]
  {
    match FindRuleIndex(rules, id)
    case None => rules
    case Some(k) => rules[k := Merge(rules[k], patch)]
  }

  /** The rule table after `removeRule(id)`: the first rule with that id is
      spliced out; without one the table is unchanged. */
  function RemoveIn(rules: seq<Rule>, id: string): (r: seq<Rule>)
    ensures FindRuleIndex(rules, id).None? ==> r == rules
    ensures FindRuleIndex(rules, id).Some? ==>
              var k := FindRuleIndex(rules, id).value;
              |r| == |rules| - 1 && r == rules[..k] + rules[k + 1..]
              && multiset(r) + multiset{rules[k]} == multiset(rules)
  {
    match FindRuleIndex(rules, id)
    case None => rules
    case Some(k) =>
      assert rules == rules[..k] + [rules[k]] + rules[k + 1..];
      rules[..k] + rules[k + 1..]
  }

  /** An update that keeps the id is found again under that id, merged. */
  lemma UpdateThenFind(rules: seq<Rule>, id: string, patch: RulePatch)
    requires FindRuleIndex(rules, id).Some?
    requires patch.id.None? || patch.id == Some(id)
    ensures FindRule(UpdateIn(rules, id, patch), id) == Some(Merge(FindRule(rules, id).value, patch))
  {
    var k := FindRuleIndex(rules, id).value;
    var r := UpdateIn(rules, id, patch);
    FindFirst(r, id, k);
  }

  /** An index holding `id` with no earlier one is the first index. */
  lemma {:induction false} FindFirst(rules: seq<Rule>, id: string, k: nat)
    requires k < |rules| && rules[k].id == id
    requires forall j :: 0 <= j < k ==> rules[j].id != id
    ensures FindRuleIndex(rules, id) == Some(k)
    decreases k
  {
    if k > 0 {
      FindFirst(rules[1..], id, k - 1);
    }
  }

  /** A rule table with no rule of that id gives a miss. */
  lemma {:induction false} FindNone(rules: seq<Rule>, id: string)
    requires forall j :: 0 <= j < |rules| ==> rules[j].id != id
    ensures FindRuleIndex(rules, id) == None
    decreases |rules|
  {
    if rules != [] {
      FindNone(rules[1..], id);
    }
  }

  /** An appended rule is seen by lookups only when no earlier rule has its
      id: `find` returns the first match. */
  lemma AddThenFind(rules: seq<Rule>, rule: Rule, id: string)
    ensures FindRule(rules, id).Some? ==> FindRule(rules + [rule], id) == FindRule(rules, id)
    ensures FindRule(rules, id).None? && rule.id == id ==> FindRule(rules + [rule], id) == Some(rule)
    ensures FindRule(rules, id).None? && rule.id != id ==> FindRule(rules + [rule], id).None?
  {
    var all := rules + [rule];
    match FindRuleIndex(rules, id)
    case Some(k) =>
      FindFirst(all, id, k);
    case None =>
      if rule.id == id {
        FindFirst(all, id, |rules|);
      } else {
        FindNone(all, id);
      }
  }

  /** Adding a rule with a fresh id and then removing that id restores the
      table. */
  lemma AddThenRemove(rules: seq<Rule>, rule: Rule)
    requires FindRuleIndex(rules, rule.id).None?
    ensures RemoveIn(rules + [rule], rule.id) == rules
  {
    FindFirst(rules + [rule], rule.id, |rules|);
    assert (rules + [rule])[..|rules|] == rules;
  }

  /** One validation result per URL, in URL order. */
  function Validations(urls: seq<string>, probe: string -> Probe): (r: seq<LinkResult>)
    ensures |r| == |urls|
    ensures forall i :: 0 <= i < |urls| ==> r[i] == ValidateOne(urls[i], probe(urls[i]))
  {
    seq(|urls|, i requires 0 <= i < |urls| => ValidateOne(urls[i], probe(urls[i])))
  }

  /** One result per enabled rule, in table order, carrying its id. */
  function RuleResults(rules: seq<Rule>, content: string, a: Analysis): (r: seq<RuleResult>)
    ensures |r| == |RuleEngine.Enabled(rules)|
    ensures forall i :: 0 <= i < |r| ==> r[i].ruleId == RuleEngine.Enabled(rules)[i].id
    ensures forall i :: 0 <= i < |r| ==> r[i] == RuleEngine.CheckRule(RuleEngine.Enabled(rules)[i], content, a)
  {
    var enabled := RuleEngine.Enabled(rules);
    seq(|enabled|, i requires 0 <= i < |enabled| => RuleEngine.CheckRule(enabled[i], content, a))
  }

  /** The result of a review of `content` whose links validated as
      `validation` and whose judgment is `a`: the score lies in
      [1.0, 10.0], there are one to five suggestions, one rule result per
      enabled rule, the validation list only when it is not empty, and the
      category agrees with the score and the high-severity issues. */
  function Assemble(rules: seq<Rule>, content: string, validation: seq<LinkResult>, a: Analysis): (q: QAResult)
    ensures 10 <= q.score <= 100 && 1 <= |q.suggestions| <= 5
    ensures |q.ruleResults| == |RuleEngine.Enabled(rules)|
    ensures forall i :: 0 <= i < |q.ruleResults| ==> q.ruleResults[i].ruleId == RuleEngine.Enabled(rules)[i].id
    ensures q.linkValidation.Some? <==> validation != []
    ensures q.linkValidation.Some? ==> q.linkValidation.value == validation
    ensures q.feedback == a.overallFeedback
    ensures q.category == Approved ==> q.score >= 80 && Report.HighCount(q.issues) == 0
    ensures q.category == Rejected ==> q.score < 60 || Report.HighCount(q.issues) >= 2
    ensures q.ruleResults == RuleResults(rules, content, a)
    ensures q.score == Scoring.OverallTenths(q.ruleResults, rules, validation)
    ensures q.issues == Report.Issues(q.ruleResults, rules, validation)
    ensures q.suggestions == Report.Suggestions(q.issues, a.improvements)
    ensures q.category == Report.DetermineCategory(q.score, q.issues)
  {
    var results := RuleResults(rules, content, a);
    var tenths := Scoring.OverallTenths(results, rules, validation);
    var issues := Report.Issues(results, rules, validation);
    QAResult(tenths, a.overallFeedback, Report.Suggestions(issues, a.improvements), issues,
             if |validation| > 0 then Some(validation) else None, results,
             Report.DetermineCategory(tenths, issues))
  }

  /** The outcome of `performQAReview(content)` with rule table `rules`, the
      remote judge's reply and the link prober's answers: empty content is
      the only failure, and links are validated exactly when the text has
      some. */
  function Review(rules: seq<Rule>, aiConfigured: bool, content: string,
                  reply: RemoteReply, probe: string -> Probe): (r: Result<QAResult>)
    ensures r.Err? <==> content == ""
    ensures r.Err? ==> r.message == InvalidContentError
    ensures r.Ok? ==> (r.value.linkValidation.Some? <==> ExtractLinks(content) != [])
    ensures r.Ok? && r.value.linkValidation.Some? ==> |r.value.linkValidation.value| == |ExtractLinks(content)|
    ensures r.Ok? ==> r.value.feedback == Judgment(aiConfigured, reply, content).overallFeedback
    ensures r.Ok? ==> r.value == Assemble(rules, content, Validations(ExtractLinks(content), probe),
                                          Judgment(aiConfigured, reply, content))
  {
    if content == "" then Err(InvalidContentError)
    else Ok(Assemble(rules, content, Validations(ExtractLinks(content), probe), Judgment(aiConfigured, reply, content)))
  }

  /** With every rule disabled and no link, a review scores the neutral 7.0,
      raises no issue and needs revision. */
  lemma NoRulesNoLinks(rules: seq<Rule>, aiConfigured: bool, content: string,
                       reply: RemoteReply, probe: string -> Probe)
    requires content != "" && ExtractLinks(content) == []
    requires forall j :: 0 <= j < |rules| ==> !rules[j].enabled
    ensures var r := Review(rules, aiConfigured, content, reply, probe);
            r.Ok? && r.value.score == 70 && r.value.issues == [] && r.value.category == NeedsRevision
  {
    Report.FilterNone(rules, RuleEngine.IsEnabled);
    Scoring.NeutralScore(rules);
    assert Report.HighCount([]) == 0;
  }

  /** A judgment whose sub-scores are all at least 6, with a clarity score
      of at least 8 for texts over 1500 UTF-16 code units, makes every rule result
      on a link-free text score at least 6. */
  lemma {:induction false} ResultsAtLeastSix(rules: seq<Rule>, content: string, a: Analysis)
    requires ExtractLinks(content) == []
    requires a.formattingScore >= 6.0 && a.organizationScore >= 6.0 && a.completenessScore >= 6.0
    requires a.clarityScore >= 6.0 && a.toneScore >= 6.0
    requires Text.Utf16Length(content) > 1500 ==> a.clarityScore >= 8.0
    ensures var results := RuleResults(rules, content, a);
            forall i :: 0 <= i < |results| ==> results[i].score >= 6.0
  {
  }

  /** Under the heuristic judge (no remote judge, or its call failed or did
      not parse), a link-free text with non-negative rule weights scores at
      least 6.0 with no high-severity issue, so it is never rejected. */
  lemma MockNeverRejects(rules: seq<Rule>, aiConfigured: bool, content: string,
                         reply: RemoteReply, probe: string -> Probe)
    requires content != "" && ExtractLinks(content) == []
    requires !aiConfigured || !reply.Parsed?
    requires forall j :: 0 <= j < |rules| ==> rules[j].weight >= 0.0
    ensures var r := Review(rules, aiConfigured, content, reply, probe);
            r.Ok? && r.value.score >= 60 && Report.HighCount(r.value.issues) == 0 && r.value.category != Rejected
  {
    var t := TraitsOf(content);
    var a := MockFromTraits(t, MockFeedback(t));
    assert a == MockAnalysis(content);
    MockScores(t, MockFeedback(t));
    assert Validations([], probe) == [];
    AssembleAtLeastSix(rules, content, a);
  }

  /** On a link-free text, a judgment that keeps every rule result at 6 or
      more gives a score of at least 6.0 with no high-severity issue. */
  lemma {:induction false} AssembleAtLeastSix(rules: seq<Rule>, content: string, a: Analysis)
    requires ExtractLinks(content) == []
    requires a.formattingScore >= 6.0 && a.organizationScore >= 6.0 && a.completenessScore >= 6.0
    requires a.clarityScore >= 6.0 && a.toneScore >= 6.0
    requires Text.Utf16Length(content) > 1500 ==> a.clarityScore >= 8.0
    requires forall j :: 0 <= j < |rules| ==> rules[j].weight >= 0.0
    ensures var q := Assemble(rules, content, [], a);
            q.score >= 60 && Report.HighCount(q.issues) == 0 && q.category != Rejected
  {
    var results := RuleResults(rules, content, a);
    ResultsAtLeastSix(rules, content, a);
    Scoring.BaseScoreAtLeast(results, rules, 6.0);
    Report.NoHighIssues(results, rules, []);
    assert Scoring.BrokenLinks([]) == 0;
  }

  /** The service object: whether a remote judge is configured, and the
      rule table it applies. */
  class QAService {
    const aiConfigured: bool
    var rules: seq<Rule>

    /** Without an API key (absent or empty) the heuristic judge is used;
        the table starts as a copy of the default rules. */
    constructor(apiKey: Option<string>)
      ensures aiConfigured <==> apiKey.Some? && apiKey.value != ""
      ensures rules == DefaultRules
    {
      aiConfigured := apiKey.Some? && apiKey.value != "";
      rules := DefaultRules;
    }

    /** A copy of the rule table. */
    method GetRules() returns (r: seq<Rule>)
      ensures r == rules
    {
      r := rules;
    }

    /** `updateRule`: true iff a rule with that id existed. */
    method UpdateRule(id: string, patch: RulePatch) returns (found: bool)
      modifies this
      ensures found <==> FindRuleIndex(old(rules), id).Some?
      ensures rules == UpdateIn(old(rules), id, patch)
    {
      var index := FindRuleIndex(rules, id);
      if index.Some? {
        rules := rules[index.value := Merge(rules[index.value], patch)];
        found := true;
      } else {
        found := false;
      }
    }

    /** `addRule`: appends, even when the id is already taken. */
    method AddRule(rule: Rule)
      modifies this
      ensures rules == old(rules) + [rule]
    {
      rules := rules + [rule];
    }

    /** `removeRule`: true iff a rule with that id existed. */
    method RemoveRule(id: string) returns (found: bool)
      modifies this
      ensures found <==> FindRuleIndex(old(rules), id).Some?
      ensures rules == RemoveIn(old(rules), id)
    {
      var index := FindRuleIndex(rules, id);
      if index.Some? {
        rules := rules[..index.value] + rules[index.value + 1..];
        found := true;
      } else {
        found := false;
      }
    }

    /** `performQAReview`: extract and probe the links, obtain a judgment,
        apply the enabled rules, then score, list issues and suggestions
        and categorise. */
    method PerformReview(content: string, reply: RemoteReply, probe: string -> Probe)
      returns (r: Result<QAResult>)
      ensures r == Review(rules, aiConfigured, content, reply, probe)
    {
      if content == "" {
        return Err(InvalidContentError);
      }
      var links := ExtractLinks(content);
      var linkValidation: seq<LinkResult> := [];
      if |links| > 0 {
        linkValidation := ValidateLinks(links, probe);
      }
      assert linkValidation == Validations(links, probe);
      var analysis := Judgment(aiConfigured, reply, content);
      var ruleResults := RuleEngine.ApplyRules(rules, content, analysis);
      assert ruleResults == RuleResults(rules, content, analysis);
      var overallScore := Scoring.CalculateOverallScore(ruleResults, rules, linkValidation);
      var issues := Report.GenerateIssues(ruleResults, rules, linkValidation);
      var suggestions := Report.GenerateSuggestions(issues, analysis.improvements);
      var category := Report.DetermineCategory(overallScore, issues);
      r := Ok(QAResult(overallScore, analysis.overallFeedback, suggestions, issues,
                       if |linkValidation| > 0 then Some(linkValidation) else None,
                       ruleResults, category));
    }
  }
}
