/** The score aggregator, `calculateOverallScore`
    (server/src/services/qaService.ts): weighted mean of the rule scores,
    a flat 0.5 off per link that is not valid, clamped to [1, 10] and
    rounded to one decimal. Overall scores are counted in tenths. */
module Scoring {
  import opened Optional
  import opened Seqs
  import opened QATypes

  /** Sum of `score * weight` over the results whose rule is in the table
      (the weight is that of the first rule with the result's id). */
  function TotalScore(results: seq<RuleResult>, rules: seq<Rule>): real
    decreases |results|
  {
    if results == [] then 0.0
    else
      var last := results[|results| - 1];
      var rest := TotalScore(results[..|results| - 1], rules);
      match FindRule(rules, last.ruleId)
      case None => rest
      case Some(rule) => rest + last.score * rule.weight
  }

  /** Sum of the weights counted by `TotalScore`. */
  function TotalWeight(results: seq<RuleResult>, rules: seq<Rule>): real
    decreases |results|
  {
    if results == [] then 0.0
    else
      var last := results[|results| - 1];
      var rest := TotalWeight(results[..|results| - 1], rules);
      match FindRule(rules, last.ruleId)
      case None => rest
      case Some(rule) => rest + rule.weight
  }

  predicate IsBroken(l: LinkResult) {
    l.status != Valid
  }

  /** `linkValidation.filter(l => l.status !== 'valid').length`. */
  function BrokenLinks(links: seq<LinkResult>): nat {
    |Filter(links, IsBroken)|
  }

  /** The weighted mean, or 7 when no weight was counted. */
  function BaseScore(results: seq<RuleResult>, rules: seq<Rule>): real {
    var w := TotalWeight(results, rules);
    if w > 0.0 then TotalScore(results, rules) / w else 7.0
  }

  function Min(a: real, b: real): real {
    if a <= b then a else b
  }

  function Max(a: real, b: real): real {
    if a >= b then a else b
  }

  /** `Math.max(1, Math.min(10, x))`. */
  function Clamp(x: real): (r: real)
    ensures 1.0 <= r <= 10.0
    ensures 1.0 <= x <= 10.0 ==> r == x
    ensures x < 1.0 ==> r == 1.0
    ensures x > 10.0 ==> r == 10.0
  {
    Max(1.0, Min(10.0, x))
  }

  /** `Math.round(x * 10)` (ties go up), the number of tenths of
      `Math.round(x * 10) / 10`. */
  function RoundTenths(x: real): (t: int)
    ensures t as real - 0.5 <= 10.0 * x < t as real + 0.5
  {
    (10.0 * x + 0.5).Floor
  }

  /** Monotonicity of rounding. */
  lemma RoundTenthsMonotone(x: real, y: real)
    requires x <= y
    ensures RoundTenths(x) <= RoundTenths(y)
  {
    var a, b := RoundTenths(x), RoundTenths(y);
    assert (a as real) - 0.5 < (b as real) + 0.5;
  }

  /** The overall score in tenths: it always lies in [1, 10], and it is the
      clamped score rounded half up to one decimal. */
  function OverallTenths(results: seq<RuleResult>, rules: seq<Rule>, links: seq<LinkResult>): (t: int)
    ensures 10 <= t <= 100
    ensures t as real - 0.5
            <= 10.0 * Clamp(BaseScore(results, rules) - 0.5 * BrokenLinks(links) as real)
            < t as real + 0.5
  {
    var x := Clamp(BaseScore(results, rules) - 0.5 * BrokenLinks(links) as real);
    RoundTenthsMonotone(1.0, x);
    RoundTenthsMonotone(x, 10.0);
    assert RoundTenths(1.0) == 10 && RoundTenths(10.0) == 100;
    RoundTenths(x)
  }

  /** `calculateOverallScore`. */
  method CalculateOverallScore(results: seq<RuleResult>, rules: seq<Rule>, links: seq<LinkResult>)
    returns (tenths: int)
    ensures tenths == OverallTenths(results, rules, links)
    ensures 10 <= tenths <= 100
  {
    var totalScore, totalWeight := 0.0, 0.0;
    for i := 0 to |results|
      invariant totalScore == TotalScore(results[..i], rules)
      invariant totalWeight == TotalWeight(results[..i], rules)
    {
      assert results[..i + 1][..i] == results[..i];
      var rule := FindRule(rules, results[i].ruleId);
      if rule.Some? {
        totalScore := totalScore + results[i].score * rule.value.weight;
        totalWeight := totalWeight + rule.value.weight;
      }
    }
    assert results[..|results|] == results;
    var brokenLinks := |Filter(links, IsBroken)|;
    var linkPenalty := brokenLinks as real * 0.5;
    var baseScore := if totalWeight > 0.0 then totalScore / totalWeight else 7.0;
    var finalScore := Max(1.0, Min(10.0, baseScore - linkPenalty));
    tenths := RoundTenths(finalScore);
  }

  /** With no rule results and no links the score is the neutral 7.0. */
  lemma NeutralScore(rules: seq<Rule>)
    ensures OverallTenths([], rules, []) == 70
  {
    var x := Clamp(BaseScore([], rules) - 0.5 * BrokenLinks([]) as real);
    assert x == 7.0;
  }

  /** A broken link never raises the score. */
  lemma {:induction false} BrokenLinkNeverHelps(results: seq<RuleResult>, rules: seq<Rule>,
                                                 links: seq<LinkResult>, l: LinkResult)
    ensures OverallTenths(results, rules, links + [l]) <= OverallTenths(results, rules, links)
    ensures IsBroken(l) ==> BrokenLinks(links + [l]) == BrokenLinks(links) + 1
  {
    FilterAppend(links, [l], IsBroken);
    assert Filter([l], IsBroken) == if IsBroken(l) then [l] else [] by {
      assert [l][..0] == [];
    }
    var b := BaseScore(results, rules);
    RoundTenthsMonotone(Clamp(b - 0.5 * BrokenLinks(links + [l]) as real),
                        Clamp(b - 0.5 * BrokenLinks(links) as real));
  }

  /** If every counted result scores at least `m` and no weight is negative,
      the weighted sum is at least `m` times the weight. */
  lemma {:induction false} TotalScoreAtLeast(results: seq<RuleResult>, rules: seq<Rule>, m: real)
    requires forall i :: 0 <= i < |results| ==> results[i].score >= m
    requires forall j :: 0 <= j < |rules| ==> rules[j].weight >= 0.0
    ensures TotalScore(results, rules) >= m * TotalWeight(results, rules)
    ensures TotalWeight(results, rules) >= 0.0
    decreases |results|
  {
    if results != [] {
      var last := results[|results| - 1];
      TotalScoreAtLeast(results[..|results| - 1], rules, m);
      match FindRule(rules, last.ruleId)
      case None =>
      case Some(rule) =>
        assert last.score * rule.weight >= m * rule.weight by {
          assert (last.score - m) * rule.weight >= 0.0;
        }
    }
  }

  /** The weighted mean of scores that are all at least `m` (with
      non-negative weights) is at least `m`, whatever `m <= 7` is. */
  lemma {:induction false} BaseScoreAtLeast(results: seq<RuleResult>, rules: seq<Rule>, m: real)
    requires m <= 7.0
    requires forall i :: 0 <= i < |results| ==> results[i].score >= m
    requires forall j :: 0 <= j < |rules| ==> rules[j].weight >= 0.0
    ensures BaseScore(results, rules) >= m
  {
    TotalScoreAtLeast(results, rules, m);
    var s, w := TotalScore(results, rules), TotalWeight(results, rules);
    if w > 0.0 {
      assert (s / w) * w == s;
    }
  }
}
