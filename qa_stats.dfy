/** The statistics the review controller derives from stored reviews:
    the time window, the average score, per-rule issue counts with the top
    five, the score-band histogram and the link-status tallies
    (server/src/controllers/qaController.ts). */
module QAStats {
  import opened Optional
  import opened Seqs
  import opened QATypes
  import opened ReviewRecords

  const DayMillis := 24 * 60 * 60 * 1000

  /** Length of the window in days; an absent timeframe reads as `"7d"`. */
  function Days(timeframe: Option<string>): (d: int)
    ensures timeframe.None? || timeframe == Some("7d") ==> d == 7
    ensures timeframe == Some("30d") ==> d == 30
    ensures timeframe.Some? && timeframe.value != "7d" && timeframe.value != "30d" ==> d == 1
  {
    var tf := timeframe.GetOr("7d");
    if tf == "30d" then 30 else if tf == "7d" then 7 else 1
  }

  /** A review counts when it belongs to the task (any task when none or
      an empty id is given) and is no older than the window start. */
  predicate InScope(r: Review, taskId: Option<string>, start: int) {
    (taskId.None? || taskId.value == "" || r.taskId == taskId.value) && r.createdAt >= start
  }

  function Scoped(reviews: seq<Review>, taskId: Option<string>, start: int): (r: seq<Review>)
    ensures forall k :: 0 <= k < |r| ==> InScope(r[k], taskId, start)
  {
    Filter(reviews, (x: Review) => InScope(x, taskId, start))
  }

  /** Number of reviews with the given category. */
  function CategoryCount(reviews: seq<Review>, c: Category): (n: nat)
    ensures n <= |reviews|
    decreases |reviews|
  {
    if reviews == [] then 0
    else CategoryCount(reviews[..|reviews| - 1], c) + (if reviews[|reviews| - 1].category == c then 1 else 0)
  }

  /** Every review has exactly one of the three categories. */
  lemma {:induction false} CategoriesPartition(reviews: seq<Review>)
    ensures CategoryCount(reviews, Approved) + CategoryCount(reviews, Rejected)
            + CategoryCount(reviews, NeedsRevision) == |reviews|
    decreases |reviews|
  {
    if reviews != [] {
      CategoriesPartition(reviews[..|reviews| - 1]);
    }
  }

  function SumScores(reviews: seq<Review>): int
    decreases |reviews|
  {
    if reviews == [] then 0 else SumScores(reviews[..|reviews| - 1]) + reviews[|reviews| - 1].score
  }

  /** `Math.round(100 * part / whole)`, or 0 for an empty whole. */
  function RoundPercent(part: nat, whole: nat): (p: int)
    ensures whole == 0 ==> p == 0
    ensures whole > 0 ==> 2 * whole * p <= 200 * part + whole < 2 * whole * (p + 1)
    ensures part <= whole ==> 0 <= p <= 100
  {
    if whole == 0 then 0
    else
      var q := (200 * part + whole) / (2 * whole);
      QuotientBelow(200 * part + whole, 2 * whole, 101);
      q
  }

  /** The average score in tenths, rounded half up (`Math.round(avg * 10)`
      on scores that are tenths), and 0 without reviews. */
  function AverageTenths(reviews: seq<Review>): (a: int)
    ensures reviews == [] ==> a == 0
    ensures reviews != [] ==>
              2 * |reviews| * a <= 2 * SumScores(reviews) + |reviews| < 2 * |reviews| * (a + 1)
  {
    if reviews == [] then 0 else (2 * SumScores(reviews) + |reviews|) / (2 * |reviews|)
  }

  lemma QuotientBelow(x: int, d: int, m: int)
    requires d > 0
    ensures x < d * m ==> x / d < m
  {
  }

  lemma QuotientAtLeast(x: int, d: int, m: int)
    requires d > 0
    ensures x >= d * m ==> x / d >= m
  {
    var q := x / d;
    assert x < d * q + d;
    if q < m {
      MulLe(d, q + 1, m);
    }
  }

  lemma MulLe(d: nat, a: int, b: int)
    requires a <= b
    ensures d * a <= d * b
  {
    assert d * b - d * a == d * (b - a);
  }

  lemma {:induction false} SumScoresBounds(reviews: seq<Review>, lo: int, hi: int)
    requires forall k :: 0 <= k < |reviews| ==> lo <= reviews[k].score <= hi
    ensures lo * |reviews| <= SumScores(reviews) <= hi * |reviews|
    decreases |reviews|
  {
    if reviews != [] {
      SumScoresBounds(reviews[..|reviews| - 1], lo, hi);
    }
  }

  /** Averages of scores within [1.0, 10.0] stay within [1.0, 10.0]. */
  lemma AverageInRange(reviews: seq<Review>)
    requires reviews != []
    requires forall k :: 0 <= k < |reviews| ==> 10 <= reviews[k].score <= 100
    ensures 10 <= AverageTenths(reviews) <= 100
  {
    var n := |reviews|;
    SumScoresBounds(reviews, 10, 100);
    QuotientBelow(2 * SumScores(reviews) + n, 2 * n, 101);
    QuotientAtLeast(2 * SumScores(reviews) + n, 2 * n, 10);
  }

  // ---- score bands ----

  datatype Band = Band(range: string, count: nat)

  /** Reviews whose score (in tenths) lies in [lo, hi]. */
  function BandCount(reviews: seq<Review>, lo: int, hi: int): nat
    decreases |reviews|
  {
    if reviews == [] then 0
    else
      var s := reviews[|reviews| - 1].score;
      BandCount(reviews[..|reviews| - 1], lo, hi) + (if lo <= s <= hi then 1 else 0)
  }

  /** `getScoreDistribution`: the bands 9-10, 7-8 (up to 8.9), 5-6 (up to
      6.9) and 1-4 (up to 4.9), in that order. */
  function ScoreDistribution(reviews: seq<Review>): (bands: seq<Band>)
    ensures |bands| == 4
    ensures bands[0].range == "9-10" && bands[1].range == "7-8" && bands[2].range == "5-6" && bands[3].range == "1-4"
    ensures bands[0].count == BandCount(reviews, 90, 100) && bands[1].count == BandCount(reviews, 70, 89)
    ensures bands[2].count == BandCount(reviews, 50, 69) && bands[3].count == BandCount(reviews, 10, 49)
  {
    [Band("9-10", BandCount(reviews, 90, 100)), Band("7-8", BandCount(reviews, 70, 89)),
     Band("5-6", BandCount(reviews, 50, 69)), Band("1-4", BandCount(reviews, 10, 49))]
  }

  /** When every score lies in [1.0, 10.0] the bands count every review
      exactly once. */
  lemma {:induction false} DistributionCoversAll(reviews: seq<Review>)
    requires forall k :: 0 <= k < |reviews| ==> 10 <= reviews[k].score <= 100
    ensures var b := ScoreDistribution(reviews);
            b[0].count + b[1].count + b[2].count + b[3].count == |reviews|
    decreases |reviews|
  {
    if reviews != [] {
      DistributionCoversAll(reviews[..|reviews| - 1]);
    }
  }

  // ---- common issues ----

  datatype IssueCount = IssueCount(issue: string, count: nat)

  /** `issue.ruleId || 'unknown'`. */
  function KeyOf(i: Issue): string {
    if i.ruleId == "" then "unknown" else i.ruleId
  }

  /** The keys of the issues, in order. */
  function IssueKeys(issues: seq<Issue>): seq<string>
    decreases |issues|
  {
    if issues == [] then [] else IssueKeys(issues[..|issues| - 1]) + [KeyOf(issues[|issues| - 1])]
  }

  /** The keys of all issues of all reviews, review by review. */
  function AllIssueKeys(reviews: seq<Review>): seq<string>
    decreases |reviews|
  {
    if reviews == [] then []
    else AllIssueKeys(reviews[..|reviews| - 1]) + IssueKeys(reviews[|reviews| - 1].issues)
  }

  /** One entry per key, with its number of occurrences in `all`. */
  function Tally(keys: seq<string>, all: seq<string>): seq<IssueCount> {
    seq(|keys|, i requires 0 <= i < |keys| => IssueCount(keys[i], Count(all, keys[i])))
  }

  function Names(es: seq<IssueCount>): seq<string> {
    seq(|es|, i requires 0 <= i < |es| => es[i].issue)
  }

  function Descending(e: IssueCount): int {
    -(e.count as int)
  }

  function FirstFive<T>(xs: seq<T>): (r: seq<T>)
    ensures |r| == if |xs| < 5 then |xs| else 5
    ensures forall k :: 0 <= k < |r| ==> r[k] == xs[k]
  {
    xs[..if |xs| < 5 then |xs| else 5]
  }

  /** `getCommonIssues`: the keys in order of first appearance with their
      counts, sorted by count, most frequent first (ties keep that order),
      cut at five. At most five entries, by non-increasing count, each with
      its true number of occurrences. */
  function CommonIssuesOf(reviews: seq<Review>): (r: seq<IssueCount>)
    ensures |r| <= 5
    ensures forall i, j :: 0 <= i < j < |r| ==> r[i].count >= r[j].count
    ensures forall k :: 0 <= k < |r| ==>
              r[k].issue in AllIssueKeys(reviews) && r[k].count == Count(AllIssueKeys(reviews), r[k].issue)
  {
    FirstFive(SortedTally(AllIssueKeys(reviews)))
  }

  /** The tally of `all`, most frequent first: each entry keeps its key and
      true count. */
  function SortedTally(all: seq<string>): (r: seq<IssueCount>)
    ensures forall i, j :: 0 <= i < j < |r| ==> r[i].count >= r[j].count
    ensures forall k :: 0 <= k < |r| ==> r[k].issue in all && r[k].count == Count(all, r[k].issue)
  {
    var entries := Tally(Dedup(all), all);
    var sorted := SortBy(entries, Descending);
    forall k | 0 <= k < |sorted|
      ensures sorted[k].issue in all && sorted[k].count == Count(all, sorted[k].issue)
    {
      assert sorted[k] in multiset(entries);
    }
    assert forall i, j :: 0 <= i < j < |sorted| ==> Descending(sorted[i]) <= Descending(sorted[j]);
    sorted
  }

  /** The entries name distinct keys. */
  lemma CommonIssuesDistinct(reviews: seq<Review>)
    ensures NoDup(Names(CommonIssuesOf(reviews)))
  {
    var all := AllIssueKeys(reviews);
    var entries := Tally(Dedup(all), all);
    var sorted := SortBy(entries, Descending);
    var r := CommonIssuesOf(reviews);
    assert r == FirstFive(sorted);
    NoDupPermutation(entries, sorted);
    var names := Names(r);
    forall i, j | 0 <= i < j < |names| ensures names[i] != names[j] {
      assert r[i] == sorted[i] && r[j] == sorted[j];
    }
  }

  function SumOf(es: seq<IssueCount>): nat
    decreases |es|
  {
    if es == [] then 0 else SumOf(es[..|es| - 1]) + es[|es| - 1].count
  }

  lemma {:induction false} SumOfCounts(es: seq<IssueCount>, all: seq<string>)
    requires forall k :: 0 <= k < |es| ==> es[k].count == Count(all, es[k].issue)
    ensures SumOf(es) == SumCounts(all, Names(es))
    decreases |es|
  {
    if es != [] {
      var init := es[..|es| - 1];
      SumOfCounts(init, all);
      assert Names(es)[..|es| - 1] == Names(init);
    }
  }

  /** The listed counts never add up to more than there are issues. */
  lemma CommonIssuesBounded(reviews: seq<Review>)
    ensures SumOf(CommonIssuesOf(reviews)) <= |AllIssueKeys(reviews)|
  {
    var r := CommonIssuesOf(reviews);
    CommonIssuesDistinct(reviews);
    SumOfCounts(r, AllIssueKeys(reviews));
    CountsBounded(AllIssueKeys(reviews), Names(r));
  }

  /** Every issue key is listed, unless five keys are listed that are each
      at least as frequent. */
  lemma CommonIssuesAreMostFrequent(reviews: seq<Review>, key: string)
    requires key in AllIssueKeys(reviews)
    ensures var r := CommonIssuesOf(reviews);
            (exists k :: 0 <= k < |r| && r[k].issue == key)
            || (|r| == 5 && forall k :: 0 <= k < 5 ==> r[k].count >= Count(AllIssueKeys(reviews), key))
  {
    var all := AllIssueKeys(reviews);
    var keys := Dedup(all);
    var entries := Tally(keys, all);
    var sorted := SortBy(entries, Descending);
    var r := CommonIssuesOf(reviews);
    assert r == FirstFive(sorted);
    var i :| 0 <= i < |keys| && keys[i] == key;
    var e := entries[i];
    assert e in multiset(sorted);
    var p :| 0 <= p < |sorted| && sorted[p] == e;
    if p >= |r| {
      forall k | 0 <= k < 5 ensures r[k].count >= Count(all, key) {
        assert Descending(sorted[k]) <= Descending(sorted[p]);
      }
    } else {
      assert r[p].issue == key;
    }
  }

  /** The counts map after `set(x, (get(x) || 0) + 1)` for each `x` of
      `xs` in turn. */
  function CountMap(xs: seq<string>): map<string, nat>
    decreases |xs|
  {
    if xs == [] then map[]
    else
      var m := CountMap(xs[..|xs| - 1]);
      var x := xs[|xs| - 1];
      m[x := (if x in m then m[x] else 0) + 1]
  }

  /** The counts map holds exactly the values seen, each with its number of
      occurrences. */
  lemma {:induction false} CountMapCounts(xs: seq<string>)
    ensures forall k :: k in CountMap(xs) <==> k in xs
    ensures forall k :: k in CountMap(xs) ==> CountMap(xs)[k] == Count(xs, k)
    decreases |xs|
  {
    if xs != [] {
      var init := xs[..|xs| - 1];
      CountMapCounts(init);
      assert xs == init + [xs[|xs| - 1]];
    }
  }

  /** A value is a key of the counts map exactly when it was seen. */
  lemma {:induction false} CountMapDomain(xs: seq<string>, x: string)
    ensures x in CountMap(xs) <==> x in xs
    decreases |xs|
  {
    if xs != [] {
      var init := xs[..|xs| - 1];
      CountMapDomain(init, x);
      assert xs == init + [xs[|xs| - 1]];
    }
  }

  lemma CountMapSnoc(seen: seq<string>, key: string)
    ensures key in CountMap(seen) <==> key in seen
    ensures CountMap(seen + [key]) == CountMap(seen)[key := (if key in CountMap(seen) then CountMap(seen)[key] else 0) + 1]
  {
    var all := seen + [key];
    assert all[..|all| - 1] == seen;
    CountMapDomain(seen, key);
  }

  lemma DedupSnoc(seen: seq<string>, key: string)
    ensures Dedup(seen + [key]) == if key in seen then Dedup(seen) else Dedup(seen) + [key]
  {
    var all := seen + [key];
    assert all[..|all| - 1] == seen;
    DedupMember(seen, key);
  }

  /** `set(key, (get(key) || 0) + 1)` on an insertion-ordered map, kept as
      its key order and its contents. */
  method Bump(keys: seq<string>, counts: map<string, nat>, key: string, ghost seen: seq<string>)
    returns (keys': seq<string>, counts': map<string, nat>)
    requires keys == Dedup(seen) && counts == CountMap(seen)
    ensures keys' == Dedup(seen + [key]) && counts' == CountMap(seen + [key])
  {
    CountMapSnoc(seen, key);
    DedupSnoc(seen, key);
    keys' := if key in counts then keys else keys + [key];
    counts' := counts[key := (if key in counts then counts[key] else 0) + 1];
  }

  lemma IssueKeysSnoc(issues: seq<Issue>, j: nat)
    requires j < |issues|
    ensures IssueKeys(issues[..j + 1]) == IssueKeys(issues[..j]) + [KeyOf(issues[j])]
  {
    assert issues[..j + 1][..j] == issues[..j];
  }

  /** The inner loop of `getCommonIssues`: one `Bump` per issue. */
  method CountIssues(keys: seq<string>, counts: map<string, nat>, issues: seq<Issue>, ghost seen: seq<string>)
    returns (keys': seq<string>, counts': map<string, nat>)
    requires keys == Dedup(seen) && counts == CountMap(seen)
    ensures keys' == Dedup(seen + IssueKeys(issues)) && counts' == CountMap(seen + IssueKeys(issues))
  {
    keys', counts' := keys, counts;
    assert seen + IssueKeys(issues[..0]) == seen;
    for j := 0 to |issues|
      invariant keys' == Dedup(seen + IssueKeys(issues[..j]))
      invariant counts' == CountMap(seen + IssueKeys(issues[..j]))
    {
      var key := KeyOf(issues[j]);
      keys', counts' := Bump(keys', counts', key, seen + IssueKeys(issues[..j]));
      IssueKeysSnoc(issues, j);
      assert seen + IssueKeys(issues[..j + 1]) == seen + IssueKeys(issues[..j]) + [key];
    }
    assert issues[..|issues|] == issues;
  }

  /** `Array.from(map.entries()).map(([issue, count]) => ({ issue, count }))`. */
  function Entries(keys: seq<string>, counts: map<string, nat>): seq<IssueCount>
    requires forall k :: 0 <= k < |keys| ==> keys[k] in counts
  {
    seq(|keys|, k requires 0 <= k < |keys| => IssueCount(keys[k], counts[keys[k]]))
  }

  /** The map's entries are the tally of the keys it has seen. */
  lemma EntriesAreTally(all: seq<string>)
    ensures forall k :: 0 <= k < |Dedup(all)| ==> Dedup(all)[k] in CountMap(all)
    ensures Entries(Dedup(all), CountMap(all)) == Tally(Dedup(all), all)
  {
    CountMapCounts(all);
  }

  /** `getCommonIssues`: a nested loop filling an insertion-ordered map,
      then sort and cut. */
  method GetCommonIssues(reviews: seq<Review>) returns (top: seq<IssueCount>)
    ensures top == CommonIssuesOf(reviews)
  {
    var keys: seq<string> := [];
    var counts: map<string, nat> := map[];
    for i := 0 to |reviews|
      invariant keys == Dedup(AllIssueKeys(reviews[..i]))
      invariant counts == CountMap(AllIssueKeys(reviews[..i]))
    {
      assert reviews[..i + 1][..i] == reviews[..i];
      keys, counts := CountIssues(keys, counts, reviews[i].issues, AllIssueKeys(reviews[..i]));
    }
    assert reviews[..|reviews|] == reviews;
    EntriesAreTally(AllIssueKeys(reviews));
    var sorted := SortBy(Entries(keys, counts), Descending);
    top := sorted[..if |sorted| < 5 then |sorted| else 5];
  }

  // ---- link tallies ----

  datatype LinkStats = LinkStats(totalLinks: nat, validLinks: nat, invalidLinks: nat,
                                 unreachableLinks: nat, validPercentage: int)

  /** The validation results of all reviews, review by review; a review
      without links contributes none. */
  function AllLinks(reviews: seq<Review>): seq<LinkResult>
    decreases |reviews|
  {
    if reviews == [] then []
    else
      var last := reviews[|reviews| - 1];
      AllLinks(reviews[..|reviews| - 1]) + (if last.linkValidation.Some? then last.linkValidation.value else [])
  }

  function StatusCount(links: seq<LinkResult>, s: LinkStatus): (n: nat)
    ensures n <= |links|
    decreases |links|
  {
    if links == [] then 0
    else StatusCount(links[..|links| - 1], s) + (if links[|links| - 1].status == s then 1 else 0)
  }

  lemma {:induction false} StatusPartition(links: seq<LinkResult>)
    ensures StatusCount(links, Valid) + StatusCount(links, Invalid) + StatusCount(links, Unreachable) == |links|
    decreases |links|
  {
    if links != [] {
      StatusPartition(links[..|links| - 1]);
    }
  }

  /** `getLinkValidationStats`: the total is the sum of the three tallies
      and the valid share is a rounded percentage, 0 without links. */
  function LinkStatsOf(reviews: seq<Review>): (st: LinkStats)
    ensures st.totalLinks == st.validLinks + st.invalidLinks + st.unreachableLinks
    ensures st.totalLinks == |AllLinks(reviews)| && st.validLinks == StatusCount(AllLinks(reviews), Valid)
    ensures 0 <= st.validPercentage <= 100
    ensures st.totalLinks == 0 ==> st.validPercentage == 0
    ensures st.totalLinks > 0 ==>
              2 * st.totalLinks * st.validPercentage <= 200 * st.validLinks + st.totalLinks
              < 2 * st.totalLinks * (st.validPercentage + 1)
  {
    var all := AllLinks(reviews);
    StatusPartition(all);
    var valid := StatusCount(all, Valid);
    LinkStats(|all|, valid, StatusCount(all, Invalid), StatusCount(all, Unreachable), RoundPercent(valid, |all|))
  }

  lemma StatusCountSnoc(seen: seq<LinkResult>, x: LinkResult, s: LinkStatus)
    ensures StatusCount(seen + [x], s) == StatusCount(seen, s) + (if x.status == s then 1 else 0)
  {
    assert (seen + [x])[..|seen|] == seen;
  }

  /** The inner loop of `getLinkValidationStats`: one review's links added
      to the running tallies. */
  method CountLinks(links: seq<LinkResult>, total: nat, valid: nat, invalid: nat, unreachable: nat,
                    ghost seen: seq<LinkResult>)
    returns (total': nat, valid': nat, invalid': nat, unreachable': nat)
    requires total == |seen| && valid == StatusCount(seen, Valid)
    requires invalid == StatusCount(seen, Invalid) && unreachable == StatusCount(seen, Unreachable)
    ensures total' == |seen + links| && valid' == StatusCount(seen + links, Valid)
    ensures invalid' == StatusCount(seen + links, Invalid) && unreachable' == StatusCount(seen + links, Unreachable)
  {
    total', valid', invalid', unreachable' := total, valid, invalid, unreachable;
    assert seen + links[..0] == seen;
    for j := 0 to |links|
      invariant total' == |seen + links[..j]| && valid' == StatusCount(seen + links[..j], Valid)
      invariant invalid' == StatusCount(seen + links[..j], Invalid)
      invariant unreachable' == StatusCount(seen + links[..j], Unreachable)
    {
      ghost var cur := seen + links[..j];
      assert seen + links[..j + 1] == cur + [links[j]];
      StatusCountSnoc(cur, links[j], Valid);
      StatusCountSnoc(cur, links[j], Invalid);
      StatusCountSnoc(cur, links[j], Unreachable);
      total' := total' + 1;
      if links[j].status == Valid {
        valid' := valid' + 1;
      } else if links[j].status == Invalid {
        invalid' := invalid' + 1;
      } else if links[j].status == Unreachable {
        unreachable' := unreachable' + 1;
      }
    }
    assert links[..|links|] == links;
  }

  lemma AllLinksSnoc(reviews: seq<Review>, i: nat)
    requires i < |reviews|
    ensures AllLinks(reviews[..i + 1]) == AllLinks(reviews[..i]) +
              (if reviews[i].linkValidation.Some? then reviews[i].linkValidation.value else [])
  {
    assert reviews[..i + 1][..i] == reviews[..i];
  }

  /** The counting loop of `getLinkValidationStats`. */
  method GetLinkValidationStats(reviews: seq<Review>) returns (st: LinkStats)
    ensures st == LinkStatsOf(reviews)
  {
    var totalLinks, validLinks, invalidLinks, unreachableLinks := 0, 0, 0, 0;
    for i := 0 to |reviews|
      invariant totalLinks == |AllLinks(reviews[..i])| && validLinks == StatusCount(AllLinks(reviews[..i]), Valid)
      invariant invalidLinks == StatusCount(AllLinks(reviews[..i]), Invalid)
      invariant unreachableLinks == StatusCount(AllLinks(reviews[..i]), Unreachable)
    {
      AllLinksSnoc(reviews, i);
      if reviews[i].linkValidation.Some? {
        totalLinks, validLinks, invalidLinks, unreachableLinks :=
          CountLinks(reviews[i].linkValidation.value, totalLinks, validLinks, invalidLinks, unreachableLinks,
                     AllLinks(reviews[..i]));
      } else {
        assert AllLinks(reviews[..i + 1]) == AllLinks(reviews[..i]);
      }
    }
    assert reviews[..|reviews|] == reviews;
    var validPercentage := if totalLinks > 0 then (200 * validLinks + totalLinks) / (2 * totalLinks) else 0;
    st := LinkStats(totalLinks, validLinks, invalidLinks, unreachableLinks, validPercentage);
  }

  // ---- the statistics record ----

  datatype MessageStats = MessageStats(totalMessages: nat, messagesInTimeframe: nat,
                                       messagesWithQA: nat, qaPercentage: int)

  datatype Stats = Stats(totalReviews: nat, averageScore: int, approvedCount: nat, rejectedCount: nat,
                         needsRevisionCount: nat, commonIssues: seq<IssueCount>, scoreDistribution: seq<Band>,
                         linkValidationStats: LinkStats, messageStats: MessageStats)

  /** Creation times no older than `start`. */
  function CountSince(times: seq<int>, start: int): (n: nat)
    ensures n <= |times|
    decreases |times|
  {
    if times == [] then 0
    else CountSince(times[..|times| - 1], start) + (if times[|times| - 1] >= start then 1 else 0)
  }

  /** The statistics record of the reviews in scope, given their common
      issues and link tallies. */
  function Collect(scoped: seq<Review>, start: int, commonIssues: seq<IssueCount>, linkStats: LinkStats,
                   messageTimes: seq<int>): Stats
  {
    Stats(|scoped|, AverageTenths(scoped),
          CategoryCount(scoped, Approved), CategoryCount(scoped, Rejected), CategoryCount(scoped, NeedsRevision),
          commonIssues, ScoreDistribution(scoped), linkStats,
          MessageStats(|messageTimes|, CountSince(messageTimes, start), |scoped|,
                       RoundPercent(|scoped|, |messageTimes|)))
  }

  /** `getQAStats` over the stored reviews and the creation times of the
      chat messages it compares against (the task's, or all of them).
      The category counts add up to the number of reviews in scope, the
      average is 0 without reviews, and the QA share is a percentage of
      the messages. */
  function StatsOf(reviews: seq<Review>, taskId: Option<string>, timeframe: Option<string>, now: int,
                   messageTimes: seq<int>): (st: Stats)
    ensures st.approvedCount + st.rejectedCount + st.needsRevisionCount == st.totalReviews
    ensures st.totalReviews == |Scoped(reviews, taskId, now - Days(timeframe) * DayMillis)|
    ensures st.totalReviews == 0 ==> st.averageScore == 0
    ensures st.messageStats.messagesWithQA == st.totalReviews
    ensures st.messageStats.totalMessages == |messageTimes|
    ensures st.messageStats.messagesInTimeframe <= st.messageStats.totalMessages
    ensures |messageTimes| == 0 ==> st.messageStats.qaPercentage == 0
  {
    var start := now - Days(timeframe) * DayMillis;
    var scoped := Scoped(reviews, taskId, start);
    CategoriesPartition(scoped);
    Collect(scoped, start, CommonIssuesOf(scoped), LinkStatsOf(scoped), messageTimes)
  }

  /** `StatsOf` is `Collect` over the reviews in scope. */
  lemma StatsOfCollect(reviews: seq<Review>, taskId: Option<string>, timeframe: Option<string>, now: int,
                       messageTimes: seq<int>, start: int, scoped: seq<Review>)
    requires start == now - Days(timeframe) * DayMillis
    requires scoped == Scoped(reviews, taskId, start)
    ensures StatsOf(reviews, taskId, timeframe, now, messageTimes)
            == Collect(scoped, start, CommonIssuesOf(scoped), LinkStatsOf(scoped), messageTimes)
  {
  }
}
