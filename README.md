# QA review engine and task/chat controllers, in Dafny

This project models the server core of a ticketing and chat tool. That core is:

- the QA review engine, `QAService` in `server/src/services/qaService.ts`;
- the review controller that runs and stores reviews and answers review queries and statistics, `server/src/controllers/qaController.ts`;
- the chat controller that stores messages and starts a review when a message says `@QAreview`, `server/src/controllers/chatController.ts`;
- the task controller with its filtered, paged listing and its create, update and delete operations, `server/src/controllers/taskController.ts`.

It also proves properties of that model.

The review pipeline is modelled with pure functions. It extracts the links, probes them, obtains a judgment (the remote one, or the local heuristic as fallback), runs the enabled rules, aggregates a weighted score with link penalties, and derives issues, suggestions and the category.

The code that changes state in place is modelled as classes whose methods have `modifies` clauses:

- the service's rule table;
- the stored reviews;
- the message list;
- the task list.

Loops in the source (`applyRules`, `calculateOverallScore`, `generateIssues`, `generateSuggestions`, `validateLinks`, `getCommonIssues`, `getLinkValidationStats`, `updateRules`) are methods with loop invariants. Each method is proved equal to a specification function, and the properties are proved about those functions.

Module layout (one module per file):

| file | module | what it holds |
|---|---|---|
| option.dfy | `Optional` | `Option` (absent/`undefined`/`null`) and `Result` (a thrown `Error`) |
| text.dfy | `Text` | `includes`, ASCII `toLowerCase`, `\s`, `trim`, `parseInt` |
| seqs.dfy | `Seqs` | `filter`, `Array.from(new Set(..))`, counting, the stable numeric `sort`, `slice` |
| qa_types.dfy | `QATypes` | rules, rule results, link results, issues, the judge's sub-score vector, the review result, the default rule table |
| links.dfy | `Links` | `extractLinks`, `validateLinks` |
| judge.dfy | `Judge` | `getMockAIAnalysis`, `getAIAnalysisWithFallback` |
| rules.dfy | `RuleEngine` | the six rule checks and `applyRules` |
| scoring.dfy | `Scoring` | `calculateOverallScore` |
| report.dfy | `Report` | `generateIssues`, `getSuggestionForRule`, `generateSuggestions`, `determineCategory` |
| qa_service.dfy | `QAService` | the service object and `performQAReview` |
| qa_reviews.dfy | `ReviewRecords` | the stored review record |
| qa_stats.dfy | `QAStats` | `getQAStats` and its helpers |
| qa_controller.dfy | `QAController` | the review controller |
| chat_controller.dfy | `ChatController` | the chat controller |
| task_controller.dfy | `TaskController` | the task controller |

Numbers:

- Rule scores, weights and sub-scores are exact `real`s.
- The overall score is `Math.round(x * 10) / 10`. It is kept as an `int` count of tenths (10..100), so "score >= 8" reads `score >= 80`.
- `Math.round` rounds halves up. `x || d` gives `d` for a zero (falsy) number.
- Timestamps are milliseconds since the epoch, the value `new Date(..).getTime()` reads back from the stored ISO strings.

Inputs that the source computes from the environment are parameters:

- the current time;
- the generated ids (`uuidv4()`);
- whether an API key is configured;
- what the remote judge replied (`RemoteReply`: the call threw, the reply did not parse, or it parsed into a sub-score vector);
- what the HEAD probe of each URL gave (`probe: string -> Probe`: a status, an error with a code, or a non-`Error` throw).

Three facts about the code that a reader might not expect:

- The link-consistency rule never fails on a malformed link. Its test on the extracted links (`startsWith('http') && !includes(' ')`) always holds, because text that contains a space or lacks the scheme is never extracted as a link (`Links.ExtractedLinksAreTokens`).
- The issue list is not de-duplicated. One issue is emitted per failing result and one per link that is not valid (`Report.RuleIssues`, `Report.LinkIssues`).
- The clamp of the heuristic base score to [5, 10] never binds: the base is 7 plus 0.5 per signal, at most 9.5 (`Judge.BaseHalves`). The heuristic sub-scores are whole numbers in [6, 10] (`Judge.MockScores`).

Text lengths are JavaScript `length`s, counted in UTF-16 code units: a character outside the Basic Multilingual Plane counts twice (`Text.Utf16Length`).

## Model

| member | source | states |
|---|---|---|
| QATypes.FindRuleIndex | server/src/services/qaService.ts:599 | `findIndex`: the first index whose rule has the id, and no earlier one has it; none when no rule has it |
| QATypes.FindRule | server/src/services/qaService.ts:493 | `find`: a rule is found iff some rule has the id; the found rule has that id and is in the table |
| Text.LowerStr | server/src/controllers/taskController.ts:78 | `toLowerCase` keeps the length and lowers each ASCII letter, leaving other characters alone |
| Text.Utf16Length | server/src/services/qaService.ts:432-444 | `length` counts one unit per character of the Basic Multilingual Plane and two for any other, so it lies between the number of characters and twice that |
| Text.TrimStart | server/src/services/qaService.ts:471 | the result is a suffix of the text that starts with no white space, and everything removed is white space |
| Text.TrimEnd | server/src/services/qaService.ts:471 | the result is a prefix of the text that ends with no white space, and everything removed is white space |
| Text.LeadingInt | server/src/controllers/chatController.ts:97-98 | no value iff the text does not start with a digit; otherwise the value of the leading run of digits, negated for a minus sign |
| Text.ParseInt | server/src/controllers/chatController.ts:97-98 | `parseInt(s, 10)` is `NaN` exactly when, after leading white space and one sign, no digit follows; otherwise it is the value of the leading run of digits, negative after a `-` |
| Text.ParseIntOr | server/src/controllers/chatController.ts:97-98 | `parseInt(s, 10) \|\| d` gives `d` for `NaN` and for 0, and the parsed value otherwise; never 0 unless `d` is |
| Text.ParseIntNatToString | server/src/controllers/chatController.ts:97-98 | `parseInt` reads the decimal rendering of a natural number back as that number |
| Text.ParseIntNegative | server/src/controllers/chatController.ts:97-98 | `parseInt` reads `-` followed by the rendering of a positive number back as its negation |
| Text.NatToString | server/src/services/qaService.ts:219 | the decimal rendering of a status code is non-empty, all digits, and reads back as the number |
| Seqs.Filter | server/src/controllers/chatController.ts:102 | `filter` keeps only elements that satisfy the test and never lengthens the list |
| Seqs.FilterMultiset | server/src/controllers/chatController.ts:102 | filtering keeps every satisfying element exactly as often as it occurs, and nothing else |
| Seqs.FilterMembers | server/src/controllers/taskController.ts:71-83 | a value survives a filter iff it was in the list and satisfies the test |
| Seqs.FilterFilter | server/src/controllers/taskController.ts:71-76 | two successive filters are one filter by the conjunction |
| Seqs.Count | server/src/controllers/qaController.ts:324 | the number of occurrences is the multiplicity in the multiset of the list |
| Seqs.Dedup | server/src/services/qaService.ts:190 | `Array.from(new Set(xs))` has no repeats and holds exactly the values of `xs` |
| Seqs.DedupOrder | server/src/services/qaService.ts:190 | the de-duplicated values come in the order of their first appearance |
| Seqs.DedupPrefix | server/src/services/qaService.ts:559-571 | values added to a set later never move the ones already there |
| Seqs.SortBy | server/src/controllers/chatController.ts:103 | the numeric-comparator `sort` gives an ordered permutation of its input |
| Seqs.InsertByStable | server/src/controllers/chatController.ts:103 | an insertion puts the new element after every element of equal key |
| Seqs.SortByStable | server/src/controllers/chatController.ts:103 | the sort is stable: for every key, the elements with that key keep their original order |
| Seqs.InsertBy | server/src/controllers/chatController.ts:103 | one insertion step keeps the list ordered and adds exactly the one element |
| Seqs.Slice | server/src/controllers/chatController.ts:104 | `slice(start, end)` is the window `[start, min(end, len))` for a start inside the list, empty past its end, and never longer than `end - start` |
| Seqs.SliceOrdered | server/src/controllers/chatController.ts:101-104 | a slice holds elements of the list and keeps it ordered |
| Links.SchemeLength | server/src/services/qaService.ts:188 | the scheme part of the pattern matches `http://` or `https://` or nothing |
| Links.SchemeLengthExact | server/src/services/qaService.ts:188 | the scheme length is 8 iff the text starts with `https://`, 7 iff it starts with `http://`, and 0 iff it starts with neither |
| Links.UrlRun | server/src/services/qaService.ts:188 | the greedy character class run stops at the first excluded character |
| Links.ExtractLinks | server/src/services/qaService.ts:187-191 | the extracted links have no repeats, and empty text has none |
| Links.MatchesAreTokens | server/src/services/qaService.ts:188-189 | every match of the global pattern is a scheme followed by at least one URL character |
| Links.MatchOccurs | server/src/services/qaService.ts:189 | every match is a substring of the text |
| Links.ExtractedLinksAreTokens | server/src/services/qaService.ts:459 | every extracted link occurs in the text, starts with `http` and holds no space, so the link-format test always holds |
| Links.LinkImpliesScheme | server/src/services/qaService.ts:317 | a text with an extracted link has `http://` or `https://` in it, so the heuristic judge sees a link too |
| Links.ExtractLinksOrder | server/src/services/qaService.ts:189-190 | every match is listed, in order of first appearance |
| Links.ValidateOne | server/src/services/qaService.ts:198-235 | a status below 400 is valid, at least 400 is invalid with `HTTP <code>: <text>`, and any throw is unreachable with the classified message; a redirect is recorded only when it differs from the URL |
| Links.ValidateLinks | server/src/services/qaService.ts:194-240 | exactly one result per URL, in URL order, each the classification of that URL's probe; it never fails |
| Judge.BaseHalves | server/src/services/qaService.ts:324-332 | the base score is exactly 7 plus 0.5 per signal, so the clamp never binds; it lies between 7 and 9.5, any of detail, contact, professional tone or structure lifts it to at least 7.5, and without professional tone it is at most 9 |
| Judge.RoundHalves | server/src/services/qaService.ts:336-341 | `Math.round` of a number of halves rounds ties up |
| Judge.SubScore | server/src/services/qaService.ts:336-341 | each heuristic sub-score is a whole number in [6, 10] within half a point of the exact value |
| Judge.MockFromTraits | server/src/services/qaService.ts:316-345 | each sub-score is the rounded base moved by its trait's offset (formatting 0 or -1, organization 0 or -0.5, completeness +0.5 or 0, clarity 0 or -0.5, tone +0.5 or -1), the link score is the rounded base with a scheme and 10 without, and the issue and improvement hints are the fixed texts chosen by tone and detail |
| Judge.MockScores | server/src/services/qaService.ts:324-341 | every heuristic sub-score is a whole number in [6, 10], so the clamp to [5, 10] never binds; tone, contact, structure and detail each keep their sub-score at 7 or 8 and up |
| Judge.Judgment | server/src/services/qaService.ts:243-261 | without a configured remote judge, or when its call fails or does not parse, the heuristic judge is used; otherwise the parsed reply |
| RuleEngine.CheckFormatting | server/src/services/qaService.ts:393-403 | score is the formatting sub-score or 7; passes iff it is at least 7 |
| RuleEngine.CheckOrganization | server/src/services/qaService.ts:405-415 | score is the organization sub-score or 7; passes iff it is at least 7 |
| RuleEngine.CheckCompleteness | server/src/services/qaService.ts:417-430 | score is the completeness sub-score or 7; passes iff it is at least 7 |
| RuleEngine.CheckClarity | server/src/services/qaService.ts:432-444 | over 1500 UTF-16 units always fails and loses 2 points, floored at 1; otherwise passes iff the score is at least 7 |
| RuleEngine.CheckLinkConsistency | server/src/services/qaService.ts:446-467 | no links: passes with 10; with links: the link sub-score or 10, passing iff at least 7 |
| RuleEngine.CheckTone | server/src/services/qaService.ts:469-482 | score is the tone sub-score or 7; passes iff it is at least 7 |
| RuleEngine.CheckRule | server/src/services/qaService.ts:358-384 | the result carries the rule's id; each of the six built-in ids gets its own check, and an id with no check passes with 8 and "Rule not implemented" |
| RuleEngine.ApplyRules | server/src/services/qaService.ts:348-390 | one result per enabled rule, in table order, each that rule's check |
| Scoring.Clamp | server/src/services/qaService.ts:504 | `Math.max(1, Math.min(10, x))` lies in [1, 10] and is `x` inside it |
| Scoring.RoundTenths | server/src/services/qaService.ts:506 | the tenths count is within half a tenth of the exact value |
| Scoring.RoundTenthsMonotone | server/src/services/qaService.ts:506 | rounding to tenths never reverses an order |
| Scoring.OverallTenths | server/src/services/qaService.ts:485-507 | the overall score lies in [1.0, 10.0] and is the clamped weighted mean less 0.5 per broken link, rounded to one decimal |
| Scoring.CalculateOverallScore | server/src/services/qaService.ts:485-507 | the weighting loop computes `OverallTenths` |
| Scoring.NeutralScore | server/src/services/qaService.ts:503 | no results and no links give the neutral 7.0 |
| Scoring.BrokenLinkNeverHelps | server/src/services/qaService.ts:500-504 | one more link never raises the score, and a broken one adds one to the penalty count |
| Scoring.TotalScoreAtLeast | server/src/services/qaService.ts:492-498 | with non-negative weights, scores all at least `m` give a weighted sum at least `m` times the weight sum |
| Scoring.BaseScoreAtLeast | server/src/services/qaService.ts:503 | the weighted mean (or the neutral 7) of scores all at least `m <= 7` is at least `m` |
| Report.SeverityOf | server/src/services/qaService.ts:522 | below 5 is high, below 7 medium, otherwise low |
| Report.SuggestionFor | server/src/services/qaService.ts:544-555 | every hint is non-empty, and the style-guide default is given exactly for ids without a fixed hint |
| Report.RuleIssue | server/src/services/qaService.ts:516-528 | the issue carries the result's rule id, the severity graded by its score, the rule's name before the feedback, and the rule's suggestion |
| Report.RuleIssues | server/src/services/qaService.ts:516-528 | the k-th issue is the issue of the k-th result that failed or scored below 7 and whose rule is in the table, and there are no others |
| Report.Issues | server/src/services/qaService.ts:510-542 | the rule issues come first, followed by the link issues |
| Report.IssuesHighCount | server/src/services/qaService.ts:530-539 | link issues are never high, so the high issues of a review are those of its rules |
| Report.LinkIssue | server/src/services/qaService.ts:530-539 | a medium `link_validation` issue whose message names the link's URL, with the fixed "check the URL" suggestion |
| Report.LinkIssues | server/src/services/qaService.ts:530-539 | one medium `link_validation` issue per link that is not valid: the k-th issue is that of the k-th such link, in input order |
| Report.GenerateIssues | server/src/services/qaService.ts:510-542 | the loop yields the rule issues then the link issues, and the count is the failing results plus the broken links |
| Report.NoHighIssues | server/src/services/qaService.ts:522 | rule results all scoring at least 5 raise no high-severity issue |
| Report.NoHighRuleIssues | server/src/services/qaService.ts:516-528 | no rule issue is high when every rule score is at least 5 |
| Report.DetermineCategory | server/src/services/qaService.ts:581-591 | approved iff the score is at least 8 with no high issue; needs revision iff not approved, at least 6 and at most one high issue; rejected iff below 6 or two or more high issues |
| Report.IssueSuggestions | server/src/services/qaService.ts:561-565 | only non-empty issue suggestions are collected |
| Report.Suggestions | server/src/services/qaService.ts:558-578 | 1 to 5 distinct suggestions, issue hints first, in order; the "meets quality standards" default only when there is nothing else; otherwise the first five of the de-duplicated issue hints and improvements |
| Report.FirstFive | server/src/services/qaService.ts:573-577 | one to five entries: the default suggestion for an empty set, otherwise a prefix of it as long as it or 5, whichever is less |
| Report.GenerateSuggestions | server/src/services/qaService.ts:558-578 | the insertion-ordered set loop computes `Suggestions` |
| Report.AddAll | server/src/services/qaService.ts:567-571 | adding the improvements one by one to an insertion-ordered set de-duplicates their concatenation |
| Report.AddNew | server/src/services/qaService.ts:563 | `set.add(x)` appends `x` only when it is new |
| QAService.Merge | server/src/services/qaService.ts:601 | `{ ...rule, ...updates }`: each field the patch carries replaces the rule's |
| QAService.MergeIdempotent | server/src/services/qaService.ts:601 | applying the same patch twice equals applying it once |
| QAService.UpdateIn | server/src/services/qaService.ts:598-605 | only the first rule with the id is merged; an unknown id leaves the table alone; the length never changes |
| QAService.RemoveIn | server/src/services/qaService.ts:611-618 | only the first rule with the id is spliced out; an unknown id leaves the table alone |
| QAService.UpdateThenFind | server/src/services/qaService.ts:598-605 | after an update that keeps the id, a lookup of the id finds the merged rule |
| QAService.FindFirst | server/src/services/qaService.ts:599 | an index holding the id with none before it is what `findIndex` returns |
| QAService.FindNone | server/src/services/qaService.ts:599 | `findIndex` misses when no rule has the id |
| QAService.AddThenFind | server/src/services/qaService.ts:607-609 | an appended rule is found only when no earlier rule has its id |
| QAService.AddThenRemove | server/src/services/qaService.ts:607-618 | adding a rule with a fresh id and removing that id restores the table |
| QAService.Validations | server/src/services/qaService.ts:140-143 | one validation result per link, each the classification of that link's probe |
| QAService.RuleResults | server/src/services/qaService.ts:149 | one result per enabled rule, carrying its id, each that rule's check |
| QAService.Assemble | server/src/services/qaService.ts:151-169 | the result has score in [1, 10], 1 to 5 suggestions, one result per enabled rule, link validation only when links existed, the judge's feedback, and a category consistent with the gate; its score, issues, suggestions and category are those of the scoring, issue, suggestion and category functions on the rule results |
| QAService.Review | server/src/services/qaService.ts:116-184 | empty content fails with "QA review failed: Invalid message content provided"; otherwise the result has link validation iff links were extracted, one entry per link, and the judge's feedback, and it is the assembly of the validated links and the judgment |
| QAService.NoRulesNoLinks | server/src/services/qaService.ts:503 | with every rule disabled and no link, a review scores 7.0 with no issues and needs revision |
| QAService.ResultsAtLeastSix | server/src/services/qaService.ts:355-387 | sub-scores of at least 6 (clarity 8 for long texts) give rule scores of at least 6 |
| QAService.MockNeverRejects | server/src/services/qaService.ts:248-260 | under the heuristic judge a link-free text scores at least 6.0, has no high issue and is never rejected |
| QAService.AssembleAtLeastSix | server/src/services/qaService.ts:151-169 | on a link-free text, a judgment that keeps every rule result at 6 or more gives a score of at least 6.0, no high issue and no rejection |
| QAService.QAService.constructor | server/src/services/qaService.ts:102-113 | the remote judge is configured iff a non-empty API key is given; the table starts as the default rules |
| QAService.QAService.GetRules | server/src/services/qaService.ts:594-596 | returns the current rule table |
| QAService.QAService.UpdateRule | server/src/services/qaService.ts:598-605 | reports whether the id was found and leaves the table as `UpdateIn` |
| QAService.QAService.AddRule | server/src/services/qaService.ts:607-609 | appends the rule, even when its id is taken |
| QAService.QAService.RemoveRule | server/src/services/qaService.ts:611-618 | reports whether the id was found and leaves the table as `RemoveIn` |
| QAService.QAService.PerformReview | server/src/services/qaService.ts:116-184 | the pipeline of loops computes `Review` over the current table |
| ReviewRecords.StatusOf | server/src/controllers/qaController.ts:75-76 | approved and rejected keep their name; needs revision is stored as pending |
| ReviewRecords.RecordOf | server/src/controllers/qaController.ts:63-79 | the stored record carries the ids, the content, every field of the result (score, feedback, suggestions, issues, link validation, rule results, category), the derived status and both timestamps |
| QAController.Selected | server/src/controllers/qaController.ts:134-142 | exactly the reviews of the task that pass the status and category filters |
| QAController.QueryReviews | server/src/controllers/qaController.ts:134-153 | the selected reviews, newest first, with their count |
| QAController.QueryReviewsExact | server/src/controllers/qaController.ts:134-142 | the answer holds the task's matching reviews and only those |
| QAController.ApplyPatches | server/src/controllers/qaController.ts:184-188 | every patch with an id is merged in turn, and the number of rules stays the same |
| QAController.UnknownIdsChangeNothing | server/src/controllers/qaController.ts:184-188 | patches naming no known rule leave the table unchanged |
| QAController.QAController.constructor | server/src/controllers/qaController.ts:8 | the review list starts empty |
| QAController.QAController.TriggerQAReview | server/src/controllers/qaController.ts:21-127 | a missing id or content is refused and stores nothing; otherwise exactly one record of the review is appended and returned with its status |
| QAController.QAController.GetQAReviews | server/src/controllers/qaController.ts:129-158 | answers `QueryReviews` over the stored reviews |
| QAController.QAController.UpdateRules | server/src/controllers/qaController.ts:175-200 | a non-array is refused and changes no rule; otherwise each entry with an id is merged in order, and the updated table is returned |
| QAController.QAController.GetQAStats | server/src/controllers/qaController.ts:202-270 | the helper loops compute `StatsOf` over the stored reviews |
| QAStats.Days | server/src/controllers/qaController.ts:205-209 | `7d` (or none) is 7 days, `30d` is 30, anything else 1 |
| QAStats.Scoped | server/src/controllers/qaController.ts:213-216 | only reviews of the task (any when none is given) no older than the window start |
| QAStats.CategoryCount | server/src/controllers/qaController.ts:238-240 | a category count never exceeds the number of reviews |
| QAStats.CategoriesPartition | server/src/controllers/qaController.ts:238-240 | the three category counts add up to the number of reviews |
| QAStats.RoundPercent | server/src/controllers/qaController.ts:249-250 | `Math.round(100 * part / whole)`, 0 for an empty whole, within [0, 100] when part <= whole |
| QAStats.AverageTenths | server/src/controllers/qaController.ts:236-237 | the mean score rounded half up to one decimal, 0 with no reviews |
| QAStats.SumScoresBounds | server/src/controllers/qaController.ts:237 | scores within bounds give a sum within the bounds times the count |
| QAStats.AverageInRange | server/src/controllers/qaController.ts:236-237 | the average of scores in [1.0, 10.0] is in [1.0, 10.0] |
| QAStats.ScoreDistribution | server/src/controllers/qaController.ts:336-348 | four bands 9-10, 7-8, 5-6, 1-4, each counting the scores in its closed range |
| QAStats.DistributionCoversAll | server/src/controllers/qaController.ts:336-348 | with one-decimal scores in [1, 10] the four band counts add up to the number of reviews |
| QAStats.FirstFive | server/src/controllers/qaController.ts:332 | `slice(0, 5)` keeps the first five entries |
| QAStats.SortedTally | server/src/controllers/qaController.ts:329-331 | every issue key with its true count, most frequent first |
| QAStats.CommonIssuesOf | server/src/controllers/qaController.ts:317-333 | at most five entries, most frequent first, each a key that occurs with its exact count |
| QAStats.CommonIssuesDistinct | server/src/controllers/qaController.ts:317-333 | no key is listed twice |
| QAStats.SumOfCounts | server/src/controllers/qaController.ts:329-330 | entries with true counts sum to the counts of their keys |
| QAStats.CommonIssuesBounded | server/src/controllers/qaController.ts:317-333 | the listed counts never add up to more than there are issues |
| QAStats.CommonIssuesAreMostFrequent | server/src/controllers/qaController.ts:331-332 | a key is listed unless five keys are listed that are each at least as frequent |
| QAStats.CountMapCounts | server/src/controllers/qaController.ts:318-327 | the map holds exactly the seen keys, each with its number of occurrences |
| QAStats.CountMapDomain | server/src/controllers/qaController.ts:324 | a key is in the map iff it was seen |
| QAStats.CountMapSnoc | server/src/controllers/qaController.ts:324 | one `set(key, (get(key) \|\| 0) + 1)` adds one to that key only |
| QAStats.DedupSnoc | server/src/controllers/qaController.ts:324 | the map's key order gains the key at the end only when it is new |
| QAStats.Bump | server/src/controllers/qaController.ts:323-324 | one update keeps the keys and counts equal to those of the keys seen so far |
| QAStats.CountIssues | server/src/controllers/qaController.ts:321-326 | the inner loop adds one review's issue keys |
| QAStats.EntriesAreTally | server/src/controllers/qaController.ts:329-330 | `map.entries()` are the keys in order of first appearance with their counts |
| QAStats.GetCommonIssues | server/src/controllers/qaController.ts:317-333 | the nested loop and sort compute `CommonIssuesOf` |
| QAStats.StatusCount | server/src/controllers/qaController.ts:361-363 | a status tally never exceeds the number of links |
| QAStats.StatusPartition | server/src/controllers/qaController.ts:360-363 | every link is counted under exactly one status |
| QAStats.LinkStatsOf | server/src/controllers/qaController.ts:351-375 | the total is the sum of the three tallies and the number of links; the percentage of valid links is rounded and within [0, 100] |
| QAStats.CountLinks | server/src/controllers/qaController.ts:359-364 | the inner loop adds one review's links to the total and the right tally |
| QAStats.GetLinkValidationStats | server/src/controllers/qaController.ts:351-375 | the counting loop computes `LinkStatsOf` |
| QAStats.CountSince | server/src/controllers/qaController.ts:224-226 | the messages no older than the window start are at most all messages |
| QAStats.StatsOf | server/src/controllers/qaController.ts:202-252 | the category counts add up to the total, the total is the number of reviews in scope, and the average is 0 without reviews; messages with QA are the reviews, at most all messages are in the window, and the QA percentage is 0 without messages |
| QAStats.StatsOfCollect | server/src/controllers/qaController.ts:233-252 | the statistics are built from the reviews in scope, their common issues and their link tallies |
| ChatController.ForTask | server/src/controllers/chatController.ts:337-339 | only messages of that task |
| ChatController.ForTaskMembers | server/src/controllers/chatController.ts:337-339 | a message is listed iff it is stored and belongs to the task |
| ChatController.ForTaskMultiset | server/src/controllers/chatController.ts:337-339 | each of the task's messages is listed as often as it is stored |
| ChatController.ForTaskAppend | server/src/controllers/chatController.ts:162 | a stored message appears at the end of its own task's list and nowhere else |
| ChatController.ForTaskRemove | server/src/controllers/chatController.ts:293 | removing a message shortens its own task's list by one and leaves other tasks' lists unchanged |
| ChatController.Chronological | server/src/controllers/chatController.ts:101-103 | the task's messages, oldest first, as a permutation |
| ChatController.PageNumber | server/src/controllers/chatController.ts:95-97 | `parseInt(page) \|\| 1`: 1 when absent, unparsable or 0, the parsed number otherwise, so never 0 |
| ChatController.PageLimit | server/src/controllers/chatController.ts:95-98 | `parseInt(limit) \|\| 50`: 50 when absent, unparsable or 0, the parsed number otherwise, so never 0 |
| ChatController.SendError | server/src/controllers/chatController.ts:129-135 | a send is accepted iff it has a sender name and has content or attachments; a missing sender is reported first |
| ChatController.Processed | server/src/controllers/chatController.ts:138-147 | each attachment keeps its fields and is stamped with the upload time |
| ChatController.NewMessage | server/src/controllers/chatController.ts:149-159 | the stored message carries the ids, sender, content (or ""), attachments and times; its type is `file` iff it has attachments, else the requested type or `text` |
| ChatController.SentMessageNotEmpty | server/src/controllers/chatController.ts:133-154 | an accepted message has content or an attachment, and one that triggers QA has content |
| ChatController.FindMessage | server/src/controllers/chatController.ts:284-286 | the first index whose message has both the id and the task; none iff no message has both |
| ChatController.PageOf | server/src/controllers/chatController.ts:97-115 | the page is the window `[(page-1)*limit, page*limit)` of the task's messages oldest first; it echoes page and limit, gives the task's total and holds at most `limit` messages |
| ChatController.PageOfTask | server/src/controllers/chatController.ts:101-104 | every message on a page is a stored message of that task |
| ChatController.MessageStore.constructor | server/src/controllers/chatController.ts:45-79 | the store starts with the given messages |
| ChatController.MessageStore.GetMessagesForTask | server/src/controllers/chatController.ts:337-339 | exactly the stored messages of the task, in store order (`ForTask`), each as often as it is stored |
| ChatController.MessageStore.GetMessages | server/src/controllers/chatController.ts:92-121 | answers `PageOf` with the parsed page and limit |
| ChatController.MessageStore.AddMessage | server/src/controllers/chatController.ts:342-344 | appends the message |
| ChatController.MessageStore.SendMessage | server/src/controllers/chatController.ts:123-243 | a refused send stores nothing; an accepted one appends the message; a `@QAreview` message stores one review and returns it, or reports the QA failure while the message stays sent |
| ChatController.MessageStore.DeleteMessage | server/src/controllers/chatController.ts:280-302 | an unknown message answers not found and changes nothing; otherwise exactly the found message is spliced out |
| ChatController.DeleteTouchesOneTask | server/src/controllers/chatController.ts:284-293 | a delete removes one message of that task and leaves every other task's messages as they were |
| TaskController.SearchHit | server/src/controllers/taskController.ts:79-83 | the search test throws iff it must read a missing title or requester name; it holds iff the term is in the title, description or requester name |
| TaskController.SearchAll | server/src/controllers/taskController.ts:79-83 | the search filter throws iff the test throws on some task; otherwise it keeps the hits |
| TaskController.FilterTasks | server/src/controllers/taskController.ts:69-84 | only a search can fail, and the filtered list is never longer |
| TaskController.FilterTasksExact | server/src/controllers/taskController.ts:69-84 | when the filters succeed they keep exactly the stored tasks that meet status, priority and search |
| TaskController.FilterTasksFails | server/src/controllers/taskController.ts:77-83 | filtering fails iff a search is given and the test throws on some task that passed status and priority |
| TaskController.PageCount | server/src/controllers/taskController.ts:98 | `Math.ceil(total / limit)` for a positive or a negative limit |
| TaskController.WithCounts | server/src/controllers/taskController.ts:87-90 | each task with the number of stored messages of that task |
| TaskController.TasksPage | server/src/controllers/taskController.ts:61-105 | a failed filter answers "Failed to fetch tasks"; otherwise page, limit, total, page count and the sliced tasks with their message counts, at most `limit` of them |
| TaskController.TasksPageExact | server/src/controllers/taskController.ts:69-87 | every listed task is a stored task that meets the filters |
| TaskController.FindTask | server/src/controllers/taskController.ts:134 | the first index whose task has the id; none iff no task has it |
| TaskController.NewTask | server/src/controllers/taskController.ts:108-114 | the new task has the body's fields, its own id or the generated one, status `logged` and both times set to now |
| TaskController.Unassigned | server/src/controllers/taskController.ts:183-192 | `undefined`, `null` or `''` unassign the task; any other name is kept |
| TaskController.MergeTask | server/src/controllers/taskController.ts:195-199 | each supplied field replaces the task's, an assignment goes through `Unassigned`, and `updated_at` is now |
| TaskController.EmptyUpdateTouchesOnlyTime | server/src/controllers/taskController.ts:195-199 | an update with no fields changes only `updated_at` |
| TaskController.TaskStore.constructor | server/src/controllers/taskController.ts:6-58 | the store starts with the given tasks |
| TaskController.TaskStore.GetTasks | server/src/controllers/taskController.ts:61-105 | answers `TasksPage` with the parsed page and limit and the chat store's messages |
| TaskController.TaskStore.GetTask | server/src/controllers/taskController.ts:131-151 | not found iff no task has the id; otherwise the first such task with its message count |
| TaskController.TaskStore.CreateTask | server/src/controllers/taskController.ts:106-129 | appends exactly the new task and returns it with its message count |
| TaskController.TaskStore.UpdateTask | server/src/controllers/taskController.ts:158-222 | an unknown id answers not found and changes nothing; otherwise only the found task is replaced by its merge |
| TaskController.TaskStore.DeleteTask | server/src/controllers/taskController.ts:225-240 | an unknown id answers not found and changes nothing; otherwise exactly the found task is spliced out |
| TaskController.FindTaskAt | server/src/controllers/taskController.ts:134 | the first index holding the id is what a lookup returns |
| TaskController.CreateThenFind | server/src/controllers/taskController.ts:116 | after a create, a lookup of the new id finds it unless an older task has that id |
| TaskController.UpdateThenFind | server/src/controllers/taskController.ts:172-199 | an update that keeps the id leaves the merged task where a lookup finds it |
| TaskController.DeleteRemovesOne | server/src/controllers/taskController.ts:228-234 | a delete removes exactly the found task and keeps the rest with their multiplicities |

## Left out

- The remote judge (`getAIAnalysis`, its prompt built from the task context and the last three messages, and the JSON parsing of its reply) is not modelled. The model takes its outcome as a `RemoteReply` parameter.
- The HEAD requests of `validateLinks` (timeout, redirect limit) are not modelled. Each probe's outcome is a parameter. The probes run one after the other, as in the source.
- Sockets, console and logger output, and the `setSocketIO` methods are not modelled: they do not affect any stored state or response.
- Clocks and `uuidv4()` are inputs rather than being read.
- `getTaskInfo` (mock task context) and the conversation history are not modelled, because they only feed the remote judge's prompt.
- JavaScript numbers are exact reals and integers, so floating-point rounding of weights and scores is not modelled.
- Case-insensitive matching and `toLowerCase` fold ASCII letters only.
- The regular expressions are written out as predicates over characters. This covers `\b`, `\s` and the URL character class.
- `getMessageAttachments` and `getAllMessages` are not modelled. `getQAStats` receives the creation times of the messages it compares against as a parameter, because the chat store is not visible from the review controller's module.
- The `getRules` endpoint is not modelled separately. It adds only a count and a fixed category list to `QAService.QAService.GetRules`.
- The demo records the controllers start with are not modelled. The stores' constructors take the initial list.
- The internal-error answers (status 500 from a thrown exception) are modelled only where something can throw: the search test on a task without title or requester name, and an empty review content. Type checks on request bodies are taken as passed, except for the `Array.isArray` check of `updateRules`.
- An explicit JSON `null` is read as absent for every request field except `assigned_to`, where the source distinguishes it and the model does too.
- ChatController.NewMessage: a `message_type` sent as explicit `null` is stored as `null` in the source. The model stores the default `text` instead.
- ChatController.MessageStore.SendMessage: the promise and mock-response plumbing of `triggerQAReviewAsync` is reduced to its outcome. A review answer becomes `QACompleted`, and any other answer becomes the fixed failure notice.
- QAStats.StatsOf: the statistics record is specified by its counts and the scoping of the reviews. The remaining fields are tied to the helper functions through `QAStats.StatsOfCollect`.
- ChatController.PageNumber: `parseInt` is modelled on integers only. It is not modelled on digit strings too long for a double.
- ChatController.MessageStore.SendMessage: `qaTriggered` is a boolean. In the source it is `content && content.includes('@QAreview')`, which is `""` or `undefined` rather than `false` when the content is empty or missing.
