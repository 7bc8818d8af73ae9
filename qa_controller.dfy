/** The review controller: the in-memory review list, the trigger that
    runs a review and stores it, the per-task query, the bulk rule update
    and the statistics endpoint (server/src/controllers/qaController.ts).
    Request fields are `Option`s; ids and timestamps are inputs. */
module QAController {
  import opened Optional
  import opened Seqs
  import opened QATypes
  import opened Links
  import opened Judge
  import opened ReviewRecords
  import QAService
  import QAStats

  const MissingFieldsError := "Missing required fields: messageId, taskId, and messageContent are required"
  const ReviewFailedError := "Failed to perform QA review"
  const RulesNotArrayError := "Rules must be an array"
  const RulesUpdatedMessage := "QA rules updated successfully"

  /** A request field JavaScript treats as present: given and not empty. */
  predicate Present(field: Option<string>) {
    field.Some? && field.value != ""
  }

  datatype TriggerResponse =
    | TriggerBadRequest(error: string)
    | Reviewed(reviewId: string, result: QAResult, status: ReviewStatus, timestamp: int)
    | TriggerServerError(error: string, details: string)

  datatype ReviewList = ReviewList(reviews: seq<Review>, count: nat)

  datatype RulesResponse =
    | RulesBadRequest(error: string)
    | RulesUpdated(message: string, rules: seq<Rule>)

  /** A filter value JavaScript treats as given. */
  predicate Given(filter: Option<string>) {
    filter.Some? && filter.value != ""
  }

  /** The task, status and category filters of `getQAReviews`. */
  predicate Matches(r: Review, taskId: string, status: Option<string>, category: Option<string>) {
    r.taskId == taskId
    && (Given(status) ==> StatusName(r.status) == status.value)
    && (Given(category) ==> CategoryName(r.category) == category.value)
  }

  /** The matching reviews, in store order. */
  function Selected(reviews: seq<Review>, taskId: string, status: Option<string>, category: Option<string>)
    : (r: seq<Review>)
    ensures forall k :: 0 <= k < |r| ==> Matches(r[k], taskId, status, category) && r[k] in reviews
    ensures forall k :: 0 <= k < |reviews| && Matches(reviews[k], taskId, status, category) ==> reviews[k] in r
    decreases |reviews|
  {
    if reviews == [] then []
    else
      var init := reviews[..|reviews| - 1];
      var last := reviews[|reviews| - 1];
      var rest := Selected(init, taskId, status, category);
      assert forall k :: 0 <= k < |init| ==> init[k] == reviews[k];
      if Matches(last, taskId, status, category) then rest + [last] else rest
  }

  function NewestFirst(r: Review): int {
    -r.createdAt
  }

  /** `getQAReviews` over a review list: the matching reviews, newest
      first, with their count. */
  function QueryReviews(reviews: seq<Review>, taskId: string, status: Option<string>, category: Option<string>)
    : (resp: ReviewList)
    ensures resp.count == |resp.reviews|
    ensures multiset(resp.reviews) == multiset(Selected(reviews, taskId, status, category))
    ensures forall i, j :: 0 <= i < j < |resp.reviews| ==> resp.reviews[i].createdAt >= resp.reviews[j].createdAt
  {
    var sorted := SortBy(Selected(reviews, taskId, status, category), NewestFirst);
    assert forall i, j :: 0 <= i < j < |sorted| ==> NewestFirst(sorted[i]) <= NewestFirst(sorted[j]);
    ReviewList(sorted, |sorted|)
  }

  /** The query returns the task's reviews that pass the filters, and all
      of them. */
  lemma QueryReviewsExact(reviews: seq<Review>, taskId: string, status: Option<string>, category: Option<string>)
    ensures var r := QueryReviews(reviews, taskId, status, category).reviews;
            (forall k :: 0 <= k < |r| ==> Matches(r[k], taskId, status, category) && r[k] in reviews)
            && (forall k :: 0 <= k < |reviews| && Matches(reviews[k], taskId, status, category) ==> reviews[k] in r)
  {
    var selected := Selected(reviews, taskId, status, category);
    var r := QueryReviews(reviews, taskId, status, category).reviews;
    SamePermutationMembers(selected, r);
    forall k | 0 <= k < |r|
      ensures Matches(r[k], taskId, status, category) && r[k] in reviews
    {
      assert r[k] in r;
      var i :| 0 <= i < |selected| && selected[i] == r[k];
    }
  }

  /** The successive `patch` merges of `updateRules`: each entry with an id
      updates the rule with that id. */
  function ApplyPatches(rules: seq<Rule>, patches: seq<RulePatch>): (r: seq<Rule>)
    ensures |r| == |rules|
    decreases |patches|
  {
    if patches == [] then rules
    else
      var prev := ApplyPatches(rules, patches[..|patches| - 1]);
      var p := patches[|patches| - 1];
      if Present(p.id) then QAService.UpdateIn(prev, p.id.value, p) else prev
  }

  /** Entries whose ids name no rule of the table change nothing. */
  lemma {:induction false} UnknownIdsChangeNothing(rules: seq<Rule>, patches: seq<RulePatch>)
    requires forall k :: 0 <= k < |patches| && Present(patches[k].id) ==>
               FindRuleIndex(rules, patches[k].id.value).None?
    ensures ApplyPatches(rules, patches) == rules
    decreases |patches|
  {
    if patches != [] {
      UnknownIdsChangeNothing(rules, patches[..|patches| - 1]);
    }
  }

  class QAController {
    var qaReviews: seq<Review>

    constructor()
      ensures qaReviews == []
    {
      qaReviews := [];
    }

    /** `triggerQAReview`: a request missing a field is refused and stores
        nothing; otherwise the review runs and exactly one record is
        appended, whose status follows its category. */
    method TriggerQAReview(messageId: Option<string>, taskId: Option<string>, messageContent: Option<string>,
                           service: QAService.QAService, reply: RemoteReply, probe: string -> Probe,
                           reviewId: string, now: int)
      returns (resp: TriggerResponse)
      modifies this
      ensures !(Present(messageId) && Present(taskId) && Present(messageContent)) ==>
                resp == TriggerBadRequest(MissingFieldsError) && qaReviews == old(qaReviews)
      ensures Present(messageId) && Present(taskId) && Present(messageContent) ==>
                var q := QAService.Review(service.rules, service.aiConfigured, messageContent.value, reply, probe).value;
                qaReviews == old(qaReviews) + [RecordOf(reviewId, messageId.value, taskId.value, messageContent.value, q, now)]
                && resp == Reviewed(reviewId, q, StatusOf(q.category), now)
    {
      if !Present(messageId) || !Present(taskId) || !Present(messageContent) {
        return TriggerBadRequest(MissingFieldsError);
      }
      var qaResult := service.PerformReview(messageContent.value, reply, probe);
      match qaResult
      case Err(message) =>
        resp := TriggerServerError(ReviewFailedError, message);
      case Ok(q) =>
        var reviewData := RecordOf(reviewId, messageId.value, taskId.value, messageContent.value, q, now);
        qaReviews := qaReviews + [reviewData];
        resp := Reviewed(reviewId, q, reviewData.status, now);
    }

    /** `getQAReviews` on the stored reviews. */
    function GetQAReviews(taskId: string, status: Option<string>, category: Option<string>): (resp: ReviewList)
      reads this
      ensures resp == QueryReviews(qaReviews, taskId, status, category)
    {
      QueryReviews(qaReviews, taskId, status, category)
    }

    /** `updateRules`: anything but an array is refused and changes no rule;
        otherwise each entry with an id is merged into the rule with that
        id, and the number of rules stays the same. */
    method UpdateRules(body: Option<seq<RulePatch>>, service: QAService.QAService) returns (resp: RulesResponse)
      modifies service
      ensures body.None? ==> resp == RulesBadRequest(RulesNotArrayError) && service.rules == old(service.rules)
      ensures body.Some? ==> service.rules == ApplyPatches(old(service.rules), body.value)
                             && |service.rules| == |old(service.rules)|
                             && resp == RulesUpdated(RulesUpdatedMessage, service.rules)
    {
      if body.None? {
        return RulesBadRequest(RulesNotArrayError);
      }
      var rules := body.value;
      for i := 0 to |rules|
        invariant service.rules == ApplyPatches(old(service.rules), rules[..i])
      {
        assert rules[..i + 1][..i] == rules[..i];
        var ruleUpdate := rules[i];
        if Present(ruleUpdate.id) {
          var _ := service.UpdateRule(ruleUpdate.id.value, ruleUpdate);
        }
      }
      assert rules[..|rules|] == rules;
      var current := service.GetRules();
      resp := RulesUpdated(RulesUpdatedMessage, current);
    }

    /** `getQAStats` over the stored reviews; `messageTimes` are the creation
        times of the chat messages it compares against (the task's, or all
        messages when no task is given). */
    method GetQAStats(taskId: Option<string>, timeframe: Option<string>, now: int, messageTimes: seq<int>)
      returns (stats: QAStats.Stats)
      ensures stats == QAStats.StatsOf(qaReviews, taskId, timeframe, now, messageTimes)
    {
      var days := QAStats.Days(timeframe);
      var startDate := now - days * QAStats.DayMillis;
      var taskReviews := QAStats.Scoped(qaReviews, taskId, startDate);
      var commonIssues := QAStats.GetCommonIssues(taskReviews);
      var linkStats := QAStats.GetLinkValidationStats(taskReviews);
      stats := QAStats.Collect(taskReviews, startDate, commonIssues, linkStats, messageTimes);
      QAStats.StatsOfCollect(qaReviews, taskId, timeframe, now, messageTimes, startDate, taskReviews);
    }
  }
}
