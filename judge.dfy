/** The local heuristic judge (`getMockAIAnalysis`) and the switch that
    chooses between it and the remote judgment (`getAIAnalysisWithFallback`). */
module Judge {
  import opened Optional
  import opened Text
  import opened QATypes

  /** `/https?:\/\//.test(content)`. */
  predicate HasLinkScheme(content: string) {
    Contains(content, "http://") || Contains(content, "https://")
  }

  /** A `+` directly followed by a digit (`/\+\d/`). */
  predicate HasPlusDigit(s: string) {
    exists i | 0 <= i < |s| - 1 :: s[i] == '+' && IsDigit(s[i + 1])
  }

  /** `/@|phone|contact|\+\d/` on the lower-cased text; the same test as the
      case-insensitive `/@|phone|\+\d|contact/i` of the completeness rule. */
  predicate HasContact(content: string) {
    var l := LowerStr(content);
    HasChar(l, '@') || Contains(l, "phone") || Contains(l, "contact") || HasPlusDigit(l)
  }

  /** `/@QAreview/i.test(content)`. */
  predicate HasQATrigger(content: string) {
    Contains(LowerStr(content), "@qareview")
  }

  /** `!/\b(bad|terrible|awful|sucks)\b/i.test(content)`. */
  predicate IsProfessional(content: string) {
    var l := LowerStr(content);
    !(ContainsWord(l, "bad") || ContainsWord(l, "terrible") || ContainsWord(l, "awful") || ContainsWord(l, "sucks"))
  }

  /** More than 100 characters. */
  predicate IsDetailed(content: string) {
    Utf16Length(content) > 100
  }

  /** A newline, full stop or comma. */
  predicate HasStructure(content: string) {
    HasChar(content, '\n') || HasChar(content, '.') || HasChar(content, ',')
  }

  /** The text properties the heuristic judge looks at. */
  datatype Traits = Traits(detailed: bool, contact: bool, professional: bool,
                           structure: bool, qaTrigger: bool, linkScheme: bool)

  function TraitsOf(content: string): Traits {
    Traits(IsDetailed(content), HasContact(content), IsProfessional(content),
           HasStructure(content), HasQATrigger(content), HasLinkScheme(content))
  }

  /** How many of detail, contact, professional tone, structure and the
      review trigger a text shows. */
  function SignalCount(t: Traits): (n: nat)
    ensures n <= 5
  {
    (if t.detailed then 1 else 0) + (if t.contact then 1 else 0)
    + (if t.professional then 1 else 0) + (if t.structure then 1 else 0)
    + (if t.qaTrigger then 1 else 0)
  }

  /** The base score counted in halves: 7 plus 0.5 per positive signal,
      clamped to [5, 10]; 14 halves is 7.0. The clamp never binds. */
  function BaseHalves(t: Traits): (h: int)
    ensures h == 14 + SignalCount(t)
    ensures 14 <= h <= 19
    ensures t.detailed || t.contact || t.professional || t.structure ==> h >= 15
    ensures !t.professional ==> h <= 18
  {
    var raw := 14 + (if t.detailed then 1 else 0) + (if t.contact then 1 else 0)
               + (if t.professional then 1 else 0) + (if t.structure then 1 else 0)
               + (if t.qaTrigger then 1 else 0);
    if raw > 20 then 20 else if raw < 10 then 10 else raw
  }

  /** `Math.round(h / 2)` for a number `h` of halves: ties go up. */
  function RoundHalves(h: int): (n: int)
    ensures 2 * n - 1 <= h <= 2 * n
  {
    (h + 1) / 2
  }

  /** `Math.round(baseScore + deltaHalves / 2)`, as a JavaScript number. */
  function SubScore(t: Traits, deltaHalves: int): (x: real)
    requires -2 <= deltaHalves <= 1
    ensures WellFormedSubScore(x)
    ensures 2.0 * x - 1.0 <= (BaseHalves(t) + deltaHalves) as real <= 2.0 * x
  {
    var n := RoundHalves(BaseHalves(t) + deltaHalves);
    assert 6 <= n <= 10;
    n as real
  }

  /** Integral and within [6, 10]. */
  predicate WellFormedSubScore(x: real) {
    6.0 <= x <= 10.0 && x == x.Floor as real
  }

  function MockFeedback(t: Traits): string {
    Trim("Message demonstrates " + (if t.professional then "professional" else "casual")
         + " communication with " + (if t.detailed then "good detail" else "basic information")
         + ". " + (if t.contact then "Contact information provided." else "")
         + " " + (if t.qaTrigger then "QA review appropriately triggered." else ""))
  }

  /** The heuristic judge on the properties of a text, given its feedback
      sentence: each sub-score is the base score moved by a fixed number of
      halves according to one trait, then rounded; a text without a link
      scheme gets link score 10. */
  function MockFromTraits(t: Traits, feedback: string): (a: Analysis)
    ensures a.overallFeedback == feedback
    ensures a.formattingScore == SubScore(t, if t.structure then 0 else -2)
    ensures a.organizationScore == SubScore(t, if t.structure then 0 else -1)
    ensures a.completenessScore == SubScore(t, if t.contact then 1 else 0)
    ensures a.clarityScore == SubScore(t, if t.detailed then 0 else -1)
    ensures a.linkScore == if t.linkScheme then SubScore(t, 0) else 10.0
    ensures a.toneScore == SubScore(t, if t.professional then 1 else -2)
    ensures a.specificIssues == if t.professional then [] else ["Consider more professional language"]
    ensures a.improvements == [if t.detailed then "Good level of detail provided" else "Consider adding more specific details"]
  {
    var formatting := if t.structure then SubScore(t, 0) else SubScore(t, -2);
    var organization := if t.structure then SubScore(t, 0) else SubScore(t, -1);
    var completeness := if t.contact then SubScore(t, 1) else SubScore(t, 0);
    var clarity := if t.detailed then SubScore(t, 0) else SubScore(t, -1);
    var link := if t.linkScheme then SubScore(t, 0) else 10.0;
    var tone := if t.professional then SubScore(t, 1) else SubScore(t, -2);
    Analysis(feedback, formatting, organization, completeness, clarity, link, tone,
             if !t.professional then ["Consider more professional language"] else [],
             if !t.detailed then ["Consider adding more specific details"] else ["Good level of detail provided"])
  }

  /** Every heuristic sub-score is a whole number in [6, 10] (so the clamp
      to [5, 10] never binds), and each trait keeps its sub-score up. */
  lemma MockScores(t: Traits, feedback: string)
    ensures var a := MockFromTraits(t, feedback);
            && WellFormedSubScore(a.formattingScore) && WellFormedSubScore(a.organizationScore)
            && WellFormedSubScore(a.completenessScore) && WellFormedSubScore(a.clarityScore)
            && WellFormedSubScore(a.linkScore) && WellFormedSubScore(a.toneScore)
            && (t.professional ==> a.toneScore >= 8.0)
            && (!t.professional ==> a.toneScore <= 8.0)
            && (t.contact ==> a.completenessScore >= 8.0)
            && (t.structure ==> a.formattingScore >= 7.0 && a.organizationScore >= 7.0)
            && (t.detailed ==> a.clarityScore >= 8.0)
  {
    var a := MockFromTraits(t, feedback);
    assert WellFormedSubScore(10.0);
    if t.professional {
      assert a.toneScore == SubScore(t, 1);
    } else {
      assert a.toneScore == SubScore(t, -2);
    }
  }

  /** `getMockAIAnalysis`. */
  function MockAnalysis(content: string): Analysis {
    var t := TraitsOf(content);
    MockFromTraits(t, MockFeedback(t))
  }

  /** What the remote call gave: it threw, its text was not JSON, or it
      parsed into a sub-score vector. */
  datatype RemoteReply = CallFailed | Unparseable | Parsed(analysis: Analysis)

  /** `getAIAnalysisWithFallback`: the heuristic judge whenever the remote
      judge is not configured, its call fails or its reply does not parse. */
  function Judgment(aiConfigured: bool, reply: RemoteReply, content: string): (a: Analysis)
    ensures !aiConfigured ==> a == MockAnalysis(content)
    ensures aiConfigured && reply.Parsed? ==> a == reply.analysis
    ensures !reply.Parsed? ==> a == MockAnalysis(content)
  {
    if aiConfigured && reply.Parsed? then reply.analysis else MockAnalysis(content)
  }
}
