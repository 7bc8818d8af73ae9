/** The stored QA review record of the review controller
    (server/src/controllers/qaController.ts). Timestamps are milliseconds
    since the epoch, the value `new Date(created_at)` reads back. */
module ReviewRecords {
  import opened Optional
  import opened QATypes

  /** The moderation status stored beside the category. */
  datatype ReviewStatus = StatusApproved | StatusRejected | StatusPending

  datatype Review = Review(id: string, messageId: string, taskId: string, messageContent: string,
                           score: int, feedback: string, suggestions: seq<string>, issues: seq<Issue>,
                           linkValidation: Option<seq<LinkResult>>, ruleResults: seq<RuleResult>,
                           category: Category, status: ReviewStatus, createdAt: int, updatedAt: int)

  /** Approved and rejected reviews carry that status; a review that needs
      revision is pending. */
  function StatusOf(c: Category): (s: ReviewStatus)
    ensures s == StatusApproved <==> c == Approved
    ensures s == StatusRejected <==> c == Rejected
    ensures s == StatusPending <==> c == NeedsRevision
  {
    match c
    case Approved => StatusApproved
    case Rejected => StatusRejected
    case NeedsRevision => StatusPending
  }

  /** The status as the JSON string filters compare against. */
  function StatusName(s: ReviewStatus): string {
    match s
    case StatusApproved => "approved"
    case StatusRejected => "rejected"
    case StatusPending => "pending"
  }

  /** The category as the JSON string filters compare against. */
  function CategoryName(c: Category): string {
    match c
    case Approved => "approved"
    case NeedsRevision => "needs_revision"
    case Rejected => "rejected"
  }

  /** The record saved for a completed review: the review's result, the
      status derived from its category, both timestamps set to `now`. */
  function RecordOf(id: string, messageId: string, taskId: string, content: string,
                    q: QAResult, now: int): (r: Review)
    ensures r.id == id && r.messageId == messageId && r.taskId == taskId && r.messageContent == content
    ensures r.score == q.score && r.category == q.category && r.issues == q.issues
    ensures r.linkValidation == q.linkValidation
    ensures r.feedback == q.feedback && r.suggestions == q.suggestions && r.ruleResults == q.ruleResults
    ensures r.status == StatusOf(q.category)
    ensures r.createdAt == now && r.updatedAt == now
  {
    Review(id, messageId, taskId, content, q.score, q.feedback, q.suggestions, q.issues,
           q.linkValidation, q.ruleResults, q.category, StatusOf(q.category), now, now)
  }
}
