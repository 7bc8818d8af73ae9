/** The records the QA review engine works on: rules, per-rule results,
    link-validation results, issues, the judge's sub-score vector and the
    review result (server/src/services/qaService.ts). */
module QATypes {
  import opened Optional

  datatype RuleCategory = FormattingRules | ContentRules | TechnicalRules | LinkRules

  /** A configurable rule; `weight` is a JavaScript number, here exact. */
  datatype Rule = Rule(id: string, name: string, description: string, enabled: bool,
                       weight: real, category: RuleCategory)

  /** A partial rule, as merged by `{ ...rule, ...updates }`. */
  datatype RulePatch = RulePatch(id: Option<string>, name: Option<string>, description: Option<string>,
                                 enabled: Option<bool>, weight: Option<real>,
                                 category: Option<RuleCategory>)

  datatype RuleResult = RuleResult(ruleId: string, passed: bool, score: real, feedback: string)

  datatype LinkStatus = Valid | Invalid | Unreachable

  datatype LinkResult = LinkResult(url: string, status: LinkStatus, statusCode: Option<int>,
                                   error: Option<string>, redirectedTo: Option<string>)

  datatype Severity = Low | Medium | High

  datatype Issue = Issue(ruleId: string, severity: Severity, message: string, suggestion: string)

  datatype Category = Approved | NeedsRevision | Rejected

  /** The judge's output: six sub-scores, feedback, issues and improvement
      hints. A sub-score the judge left out (or gave as 0) is 0.0 here; the
      rules read it through `score || default`. */
  datatype Analysis = Analysis(overallFeedback: string,
                               formattingScore: real, organizationScore: real,
                               completenessScore: real, clarityScore: real,
                               linkScore: real, toneScore: real,
                               specificIssues: seq<string>, improvements: seq<string>)

  /** The engine's result. `score` is in tenths: the JavaScript value is
      `score / 10`, which is always a one-decimal number. */
  datatype QAResult = QAResult(score: int, feedback: string, suggestions: seq<string>,
                               issues: seq<Issue>, linkValidation: Option<seq<LinkResult>>,
                               ruleResults: seq<RuleResult>, category: Category)

  const FormattingId := "formatting_consistency"
  const OrganizationId := "information_organization"
  const CompletenessId := "content_completeness"
  const ClarityId := "clarity_conciseness"
  const LinkConsistencyId := "link_consistency"
  const ToneId := "professional_tone"
  const LinkValidationId := "link_validation"

  /** The rule table the service starts with. */
  const DefaultRules: seq<Rule> := [
    Rule(FormattingId, "Formatting Consistency",
         "Checks for consistent use of bullet points, spacing, and structure", true, 0.25, FormattingRules),
    Rule(OrganizationId, "Information Organization",
         "Ensures information is well-organized with clear sections", true, 0.20, FormattingRules),
    Rule(CompletenessId, "Content Completeness",
         "Verifies all necessary information is provided for user decision-making", true, 0.20, ContentRules),
    Rule(ClarityId, "Clarity and Conciseness",
         "Checks if content is clear, concise, and easy to scan", true, 0.15, ContentRules),
    Rule(LinkConsistencyId, "Link Consistency",
         "Ensures links are properly formatted and consistently presented", true, 0.10, LinkRules),
    Rule(ToneId, "Professional Tone",
         "Maintains professional and helpful tone throughout", true, 0.10, ContentRules)
  ]

  /** `rules.findIndex(r => r.id === id)`, with -1 as `None`. */
  function FindRuleIndex(rules: seq<Rule>, id: string): (k: Option<nat>)
    ensures k.Some? ==> k.value < |rules| && rules[k.value].id == id
                        && forall j :: 0 <= j < k.value ==> rules[j].id != id
    ensures k.None? ==> forall j :: 0 <= j < |rules| ==> rules[j].id != id
  {
    if rules == [] then None
    else if rules[0].id == id then Some(0)
    else match FindRuleIndex(rules[1..], id)
         case None => None
         case Some(j) => Some(j + 1)
  }

  /** `rules.find(r => r.id === id)`. */
  function FindRule(rules: seq<Rule>, id: string): (r: Option<Rule>)
    ensures r.Some? <==> exists j :: 0 <= j < |rules| && rules[j].id == id
    ensures r.Some? ==> r.value.id == id && r.value in rules
  {
    match FindRuleIndex(rules, id)
    case None => None
    case Some(k) => Some(rules[k])
  }
}
