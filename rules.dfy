/** The table-driven rule engine: the six built-in checks and `applyRules`
    (server/src/services/qaService.ts). */
module RuleEngine {
  import opened Text
  import opened Seqs
  import opened QATypes
  import opened Links
  import Judge

  /** `score || default`: a missing or zero sub-score reads as `default`. */
  function ScoreOr(x: real, default: real): (r: real)
    ensures x != 0.0 ==> r == x
    ensures x == 0.0 ==> r == default
  {
    if x == 0.0 then default else x
  }

  function Max(a: real, b: real): real {
    if a >= b then a else b
  }

  /** A newline, bullet or dash. */
  predicate HasFormattingMarks(content: string) {
    HasChar(content, '\n') || HasChar(content, '•') || HasChar(content, '-')
  }

  function CheckFormatting(content: string, a: Analysis): (r: RuleResult)
    ensures r.ruleId == FormattingId
    ensures r.score == ScoreOr(a.formattingScore, 7.0)
    ensures r.passed <==> r.score >= 7.0
  {
    var score := ScoreOr(a.formattingScore, 7.0);
    RuleResult(FormattingId, score >= 7.0, score,
               if HasFormattingMarks(content) then "Good formatting structure"
               else "Consider adding structure with bullet points or line breaks")
  }

  function CheckOrganization(content: string, a: Analysis): (r: RuleResult)
    ensures r.ruleId == OrganizationId
    ensures r.score == ScoreOr(a.organizationScore, 7.0)
    ensures r.passed <==> r.score >= 7.0
  {
    var score := ScoreOr(a.organizationScore, 7.0);
    var logicalFlow := Utf16Length(content) > 50 && !Contains(content, "...");
    RuleResult(OrganizationId, score >= 7.0, score,
               if logicalFlow then "Information is well organized"
               else "Consider better organization of information")
  }

  function CheckCompleteness(content: string, a: Analysis): (r: RuleResult)
    ensures r.ruleId == CompletenessId
    ensures r.score == ScoreOr(a.completenessScore, 7.0)
    ensures r.passed <==> r.score >= 7.0
  {
    var score := ScoreOr(a.completenessScore, 7.0);
    var contact := Judge.HasContact(content);
    var detailed := Utf16Length(content) > 100;
    RuleResult(CompletenessId, score >= 7.0, score,
               if contact && detailed then "Complete information with contact details"
               else if contact then "Good contact information provided"
               else if detailed then "Good detail level"
               else "Consider adding more complete information")
  }

  /** Longer than 1500 characters always fails and loses 2 points, down to
      no less than 1. */
  function CheckClarity(content: string, a: Analysis): (r: RuleResult)
    ensures r.ruleId == ClarityId
    ensures r.passed <==> ScoreOr(a.clarityScore, 7.0) >= 7.0 && Utf16Length(content) <= 1500
    ensures Utf16Length(content) <= 1500 ==> r.score == ScoreOr(a.clarityScore, 7.0)
    ensures Utf16Length(content) > 1500 ==> !r.passed && r.score == Max(ScoreOr(a.clarityScore, 7.0) - 2.0, 1.0)
    ensures Utf16Length(content) > 1500 ==> r.score >= 1.0
  {
    var score := ScoreOr(a.clarityScore, 7.0);
    var tooLong := Utf16Length(content) > 1500;
    var reasonable := 20 <= Utf16Length(content) <= 800;
    RuleResult(ClarityId, score >= 7.0 && !tooLong,
               if tooLong then Max(score - 2.0, 1.0) else score,
               if tooLong then "Message is too long, consider condensing"
               else if reasonable then "Good clarity and length"
               else "Consider appropriate message length")
  }

  /** `startsWith('http') && !includes(' ')` on every link. */
  predicate AllLinksWellFormed(links: seq<string>) {
    forall k :: 0 <= k < |links| ==> "http" <= links[k] && !HasChar(links[k], ' ')
  }

  /** Without links: passes with 10. With links: the format test on them
      always succeeds (they come from the extractor), so the rule passes iff
      its score is at least 7. */
  function CheckLinkConsistency(content: string, a: Analysis): (r: RuleResult)
    ensures r.ruleId == LinkConsistencyId
    ensures ExtractLinks(content) == [] ==> r.passed && r.score == 10.0 && r.feedback == "No links to validate"
    ensures ExtractLinks(content) != [] ==> r.score == ScoreOr(a.linkScore, 10.0)
    ensures ExtractLinks(content) != [] ==> (r.passed <==> r.score >= 7.0)
  {
    var score := ScoreOr(a.linkScore, 10.0);
    var links := ExtractLinks(content);
    if links == [] then RuleResult(LinkConsistencyId, true, 10.0, "No links to validate")
    else
      ExtractedLinksAreTokens(content);
      var wellFormed := AllLinksWellFormed(links);
      RuleResult(LinkConsistencyId, score >= 7.0 && wellFormed, score,
                 if wellFormed then "Links are properly formatted" else "Check link formatting")
  }

  /** `/^(hi|hello|thanks|thank you)/i` on the trimmed text. */
  predicate HasGreeting(content: string) {
    var l := LowerStr(Trim(content));
    "hi" <= l || "hello" <= l || "thanks" <= l || "thank you" <= l
  }

  predicate HasHelpfulClosing(content: string) {
    var l := LowerStr(content);
    Contains(l, "let me know") || Contains(l, "please") || Contains(l, "help")
    || Contains(l, "contact") || Contains(l, "reach out")
  }

  predicate IsPolite(content: string) {
    var l := LowerStr(content);
    !(Contains(l, "bad") || Contains(l, "terrible") || Contains(l, "awful")
      || Contains(l, "sucks") || Contains(l, "stupid"))
  }

  function CheckTone(content: string, a: Analysis): (r: RuleResult)
    ensures r.ruleId == ToneId
    ensures r.score == ScoreOr(a.toneScore, 7.0)
    ensures r.passed <==> r.score >= 7.0
  {
    var score := ScoreOr(a.toneScore, 7.0);
    var polite := IsPolite(content);
    RuleResult(ToneId, score >= 7.0, score,
               if HasGreeting(content) && HasHelpfulClosing(content) && polite then "Professional and helpful tone"
               else if polite then "Good professional tone"
               else "Consider more professional language")
  }

  /** The `switch` of `applyRules`: a rule id with no implementation passes
      with 8. */
  function CheckRule(rule: Rule, content: string, a: Analysis): (r: RuleResult)
    ensures r.ruleId == rule.id
    ensures rule.id == FormattingId ==> r == CheckFormatting(content, a)
    ensures rule.id == OrganizationId ==> r == CheckOrganization(content, a)
    ensures rule.id == CompletenessId ==> r == CheckCompleteness(content, a)
    ensures rule.id == ClarityId ==> r == CheckClarity(content, a)
    ensures rule.id == LinkConsistencyId ==> r == CheckLinkConsistency(content, a)
    ensures rule.id == ToneId ==> r == CheckTone(content, a)
    ensures rule.id !in {FormattingId, OrganizationId, CompletenessId, ClarityId, LinkConsistencyId, ToneId}
            ==> r == RuleResult(rule.id, true, 8.0, "Rule not implemented")
  {
    if rule.id == FormattingId then CheckFormatting(content, a)
    else if rule.id == OrganizationId then CheckOrganization(content, a)
    else if rule.id == CompletenessId then CheckCompleteness(content, a)
    else if rule.id == ClarityId then CheckClarity(content, a)
    else if rule.id == LinkConsistencyId then CheckLinkConsistency(content, a)
    else if rule.id == ToneId then CheckTone(content, a)
    else RuleResult(rule.id, true, 8.0, "Rule not implemented")
  }

  predicate IsEnabled(rule: Rule) {
    rule.enabled
  }

  /** `rules.filter(r => r.enabled)`. */
  function Enabled(rules: seq<Rule>): seq<Rule> {
    Filter(rules, IsEnabled)
  }

  /** `applyRules`: one result per enabled rule, in table order, each
      carrying that rule's id; disabled rules contribute nothing. */
  method ApplyRules(rules: seq<Rule>, content: string, a: Analysis) returns (results: seq<RuleResult>)
    ensures |results| == |Enabled(rules)|
    ensures forall i :: 0 <= i < |results| ==> results[i] == CheckRule(Enabled(rules)[i], content, a)
    ensures forall i :: 0 <= i < |results| ==> results[i].ruleId == Enabled(rules)[i].id
  {
    results := [];
    for i := 0 to |rules|
      invariant |results| == |Enabled(rules[..i])|
      invariant forall k :: 0 <= k < |results| ==> results[k] == CheckRule(Enabled(rules[..i])[k], content, a)
    {
      assert rules[..i + 1][..i] == rules[..i];
      if rules[i].enabled {
        results := results + [CheckRule(rules[i], content, a)];
      }
    }
    assert rules[..|rules|] == rules;
  }
}
