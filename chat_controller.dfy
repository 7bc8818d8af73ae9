/** The chat controller: the in-memory message list of every task, the paged
    per-task listing, sending a message (with the `@QAreview` trigger that
    runs a review through the review controller) and deleting one
    (server/src/controllers/chatController.ts). Ids and timestamps are
    inputs; `created_at` is kept as milliseconds since the epoch. */
module ChatController {
  import opened Optional
  import opened Seqs
  import opened Text
  import opened QATypes
  import opened Links
  import opened Judge
  import opened ReviewRecords
  import QAService
  import QAController

  const SenderRequiredError := "Sender name is required"
  const ContentRequiredError := "Message content or attachments are required"
  const MessageNotFoundError := "Message not found"
  const QAFailedNotice := "QA review failed but message was sent successfully"
  const QATrigger := "@QAreview"

  datatype AttachmentInput = AttachmentInput(filename: string, url: string, kind: string, size: int)

  datatype Attachment = Attachment(filename: string, url: string, kind: string, size: int, uploadedAt: int)

  datatype Message = Message(id: string, taskId: string, senderName: string, senderEmail: Option<string>,
                             content: string, messageType: string, attachments: seq<Attachment>,
                             createdAt: int, updatedAt: int)

  /** The body of a send request; every field may be missing. */
  datatype SendRequest = SendRequest(content: Option<string>, senderName: Option<string>,
                                     senderEmail: Option<string>, messageType: Option<string>,
                                     attachments: Option<seq<AttachmentInput>>)

  /** What became of the review a message asked for. */
  datatype QAOutcome =
    | QACompleted(reviewId: string, result: QAResult, status: ReviewStatus, timestamp: int)
    | QAFailed(error: string)

  datatype SendResponse =
    | SendBadRequest(error: string)
    | Sent(message: Message, qaTriggered: bool, qaReview: Option<QAOutcome>)

  datatype MessagePage = MessagePage(messages: seq<Message>, page: int, limit: int, total: nat)

  datatype DeleteResponse = MessageDeleted | DeleteNotFound(error: string)

  /** The messages of one task, in store order. */
  function ForTask(messages: seq<Message>, taskId: string): (r: seq<Message>)
    ensures forall k :: 0 <= k < |r| ==> r[k].taskId == taskId
  {
    Filter(messages, (m: Message) => m.taskId == taskId)
  }

  /** The task's list holds exactly the store's messages of that task. */
  lemma ForTaskMembers(messages: seq<Message>, taskId: string)
    ensures forall m :: m in ForTask(messages, taskId) <==> m in messages && m.taskId == taskId
  {
    FilterMembers(messages, (m: Message) => m.taskId == taskId);
  }

  /** The task's list holds each of the task's messages as often as the
      store does, and nothing else. */
  lemma ForTaskMultiset(messages: seq<Message>, taskId: string)
    ensures forall m :: multiset(ForTask(messages, taskId))[m] ==
                        if m.taskId == taskId then multiset(messages)[m] else 0
  {
    FilterMultiset(messages, (m: Message) => m.taskId == taskId);
  }

  /** Appending a message adds it at the end of its own task's list and
      changes no other task's list. */
  lemma ForTaskAppend(messages: seq<Message>, m: Message, taskId: string)
    ensures ForTask(messages + [m], taskId) ==
            ForTask(messages, taskId) + (if m.taskId == taskId then [m] else [])
  {
    FilterAppend(messages, [m], (x: Message) => x.taskId == taskId);
  }

  /** Filtering by task distributes over concatenation. */
  lemma ForTaskConcat(xs: seq<Message>, ys: seq<Message>, taskId: string)
    ensures ForTask(xs + ys, taskId) == ForTask(xs, taskId) + ForTask(ys, taskId)
  {
    FilterAppend(xs, ys, (x: Message) => x.taskId == taskId);
  }

  /** A task's list splits around the message at `k`. */
  lemma ForTaskSplit(messages: seq<Message>, k: nat, taskId: string)
    requires k < |messages|
    ensures ForTask(messages, taskId) ==
            ForTask(messages[..k], taskId) + ForTask([messages[k]], taskId) + ForTask(messages[k + 1..], taskId)
  {
    var x := messages[k];
    assert messages == messages[..k] + ([x] + messages[k + 1..]);
    ForTaskConcat(messages[..k], [x] + messages[k + 1..], taskId);
    ForTaskConcat([x], messages[k + 1..], taskId);
  }

  lemma ForTaskSingle(x: Message, taskId: string)
    ensures ForTask([x], taskId) == if x.taskId == taskId then [x] else []
  {
    assert [x][..0] == [];
  }

  /** Removing the message at `k` takes it out of its own task's list and
      leaves every other task's list as it was. */
  lemma ForTaskRemove(messages: seq<Message>, k: nat, taskId: string)
    requires k < |messages|
    ensures var rest := ForTask(messages[..k] + messages[k + 1..], taskId);
            var all := ForTask(messages, taskId);
            (messages[k].taskId != taskId ==> rest == all)
            && (messages[k].taskId == taskId ==> |rest| == |all| - 1)
  {
    ForTaskSplit(messages, k, taskId);
    ForTaskConcat(messages[..k], messages[k + 1..], taskId);
    ForTaskSingle(messages[k], taskId);
  }

  function CreatedAt(m: Message): int {
    m.createdAt
  }

  /** A task's messages oldest first; equal times keep store order. */
  function Chronological(messages: seq<Message>, taskId: string): (r: seq<Message>)
    ensures multiset(r) == multiset(ForTask(messages, taskId))
    ensures SortedBy(r, CreatedAt)
    ensures |r| == |ForTask(messages, taskId)|
  {
    SortBy(ForTask(messages, taskId), CreatedAt)
  }

  /** `parseInt(page, 10) || 1` and `parseInt(limit, 10) || 50`, with the
      query's defaults `'1'` and `'50'`. */
  function PageNumber(page: Option<string>): (n: int)
    ensures n != 0
    ensures page.None? ==> n == 1
    ensures page.Some? && ParseInt(page.value).Some? && ParseInt(page.value).value != 0 ==>
              n == ParseInt(page.value).value
    ensures page.Some? && (ParseInt(page.value).None? || ParseInt(page.value) == Some(0)) ==> n == 1
  {
    match page
    case None => 1
    case Some(p) => ParseIntOr(p, 1)
  }

  function PageLimit(limit: Option<string>): (n: int)
    ensures n != 0
    ensures limit.None? ==> n == 50
    ensures limit.Some? && ParseInt(limit.value).Some? && ParseInt(limit.value).value != 0 ==>
              n == ParseInt(limit.value).value
    ensures limit.Some? && (ParseInt(limit.value).None? || ParseInt(limit.value) == Some(0)) ==> n == 50
  {
    match limit
    case None => 50
    case Some(l) => ParseIntOr(l, 50)
  }

  /** The index of a page's first element, `(page - 1) * limit`. */
  function Offset(page: int, limit: int): int {
    (page - 1) * limit
  }

  /** The sending error, if any: a sender name is required, and so is
      content or at least one attachment. */
  function SendError(req: SendRequest): (e: Option<string>)
    ensures e.None? <==> QAController.Present(req.senderName)
                         && (QAController.Present(req.content) || (req.attachments.Some? && req.attachments.value != []))
    ensures !QAController.Present(req.senderName) ==> e == Some(SenderRequiredError)
  {
    if !QAController.Present(req.senderName) then Some(SenderRequiredError)
    else if !QAController.Present(req.content) && (req.attachments.None? || req.attachments.value == []) then
      Some(ContentRequiredError)
    else None
  }

  /** Each attachment stamped with its upload time. */
  function Processed(inputs: Option<seq<AttachmentInput>>, now: int): (r: seq<Attachment>)
    ensures |r| == if inputs.Some? then |inputs.value| else 0
    ensures forall k :: 0 <= k < |r| ==>
              var a := inputs.value[k];
              r[k] == Attachment(a.filename, a.url, a.kind, a.size, now)
  {
    match inputs
    case None => []
    case Some(xs) =>
      seq(|xs|, k requires 0 <= k < |xs| => Attachment(xs[k].filename, xs[k].url, xs[k].kind, xs[k].size, now))
  }

  /** Whether the content asks for a review. */
  predicate QATriggered(content: Option<string>) {
    content.Some? && Contains(content.value, QATrigger)
  }

  /** The message a valid send stores. */
  function NewMessage(id: string, taskId: string, req: SendRequest, now: int): (m: Message)
    requires req.senderName.Some?
    ensures m.id == id && m.taskId == taskId && m.senderName == req.senderName.value
    ensures m.content == req.content.GetOr("")
    ensures m.attachments == Processed(req.attachments, now)
    ensures m.attachments != [] ==> m.messageType == "file"
    ensures m.attachments == [] ==> m.messageType == req.messageType.GetOr("text")
    ensures m.createdAt == now && m.updatedAt == now
  {
    var attachments := Processed(req.attachments, now);
    Message(id, taskId, req.senderName.value, req.senderEmail, req.content.GetOr(""),
            if |attachments| > 0 then "file" else req.messageType.GetOr("text"),
            attachments, now, now)
  }

  /** A stored message always has content or an attachment, and one that
      triggered a review has content. */
  lemma SentMessageNotEmpty(id: string, taskId: string, req: SendRequest, now: int)
    requires SendError(req).None?
    ensures var m := NewMessage(id, taskId, req, now);
            m.content != "" || m.attachments != []
    ensures QATriggered(req.content) ==> NewMessage(id, taskId, req, now).content != ""
  {
    if QATriggered(req.content) {
      assert |req.content.value| >= |QATrigger|;
    }
  }

  /** The index of the first message with this id in this task. */
  function FindMessage(messages: seq<Message>, id: string, taskId: string): (r: Option<nat>)
    ensures r.None? <==> forall k :: 0 <= k < |messages| ==> !(messages[k].id == id && messages[k].taskId == taskId)
    ensures r.Some? ==> r.value < |messages| && messages[r.value].id == id && messages[r.value].taskId == taskId
    ensures r.Some? ==> forall k :: 0 <= k < r.value ==> !(messages[k].id == id && messages[k].taskId == taskId)
    decreases |messages|
  {
    if messages == [] then None
    else if messages[0].id == id && messages[0].taskId == taskId then Some(0)
    else
      match FindMessage(messages[1..], id, taskId)
      case None => None
      case Some(k) => Some(k + 1)
  }

  /** `getMessages` over a message list: the requested page of the task's
      messages, oldest first, and the task's full message count. */
  function PageOf(messages: seq<Message>, taskId: string, pageNum: int, limitNum: int)
    : (resp: MessagePage)
    ensures resp.page == pageNum && resp.limit == limitNum
    ensures resp.total == |ForTask(messages, taskId)|
    ensures var offset := Offset(resp.page, resp.limit);
            resp.messages == Slice(Chronological(messages, taskId), offset, offset + resp.limit)
    ensures SortedBy(resp.messages, CreatedAt)
    ensures resp.limit > 0 ==> |resp.messages| <= resp.limit
  {
    var offset := Offset(pageNum, limitNum);
    var ordered := Chronological(messages, taskId);
    SliceOrdered(ordered, offset, offset + limitNum, CreatedAt);
    MessagePage(Slice(ordered, offset, offset + limitNum), pageNum, limitNum, |ForTask(messages, taskId)|)
  }

  /** Every message on a page is a stored message of that task. */
  lemma PageOfTask(messages: seq<Message>, taskId: string, pageNum: int, limitNum: int)
    ensures var r := PageOf(messages, taskId, pageNum, limitNum).messages;
            forall k :: 0 <= k < |r| ==> r[k].taskId == taskId && r[k] in messages
  {
    var resp := PageOf(messages, taskId, pageNum, limitNum);
    var ordered := Chronological(messages, taskId);
    var offset := Offset(resp.page, resp.limit);
    SliceOrdered(ordered, offset, offset + resp.limit, CreatedAt);
    var tasks := ForTask(messages, taskId);
    SamePermutationMembers(ordered, tasks);
    ForTaskMembers(messages, taskId);
    forall k | 0 <= k < |resp.messages|
      ensures resp.messages[k].taskId == taskId && resp.messages[k] in messages
    {
      assert resp.messages[k] in ordered;
      assert resp.messages[k] in tasks;
    }
  }

  class MessageStore {
    var messages: seq<Message>

    /** The store starts from the given records. */
    constructor(initial: seq<Message>)
      ensures messages == initial
    {
      messages := initial;
    }

    /** `getMessagesForTask`: exactly the stored messages of that task. */
    function GetMessagesForTask(taskId: string): (r: seq<Message>)
      reads this
      ensures forall k :: 0 <= k < |r| ==> r[k].taskId == taskId && r[k] in messages
      ensures forall k :: 0 <= k < |messages| && messages[k].taskId == taskId ==> messages[k] in r
      ensures |r| <= |messages|
      ensures r == ForTask(messages, taskId)
    {
      ForTaskMembers(messages, taskId);
      ForTask(messages, taskId)
    }

    /** `getMessages` on the stored messages. */
    function GetMessages(taskId: string, page: Option<string>, limit: Option<string>): (resp: MessagePage)
      reads this
      ensures resp == PageOf(messages, taskId, PageNumber(page), PageLimit(limit))
    {
      PageOf(messages, taskId, PageNumber(page), PageLimit(limit))
    }

    /** `addMessage`. */
    method AddMessage(m: Message)
      modifies this
      ensures messages == old(messages) + [m]
    {
      messages := messages + [m];
    }

    /** `sendMessage`: an invalid request stores nothing; a valid one
        appends exactly one message and, when the content carries
        `@QAreview`, runs a review for it through `qa`. A review that cannot
        run becomes an error notice and the message stays sent. */
    method SendMessage(taskId: string, req: SendRequest, messageId: string,
                       qa: QAController.QAController, service: QAService.QAService,
                       reply: RemoteReply, probe: string -> Probe, reviewId: string, now: int)
      returns (resp: SendResponse)
      modifies this, qa
      ensures SendError(req).Some? ==>
                resp == SendBadRequest(SendError(req).value)
                && messages == old(messages) && qa.qaReviews == old(qa.qaReviews)
      ensures SendError(req).None? ==>
                var m := NewMessage(messageId, taskId, req, now);
                messages == old(messages) + [m]
                && resp.Sent? && resp.message == m && resp.qaTriggered == QATriggered(req.content)
      ensures SendError(req).None? && !QATriggered(req.content) ==>
                resp.qaReview == None && qa.qaReviews == old(qa.qaReviews)
      ensures SendError(req).None? && QATriggered(req.content) && messageId != "" && taskId != "" ==>
                var q := QAService.Review(service.rules, service.aiConfigured, req.content.value, reply, probe).value;
                qa.qaReviews == old(qa.qaReviews) + [RecordOf(reviewId, messageId, taskId, req.content.value, q, now)]
                && resp.qaReview == Some(QACompleted(reviewId, q, StatusOf(q.category), now))
      ensures SendError(req).None? && QATriggered(req.content) && (messageId == "" || taskId == "") ==>
                resp.qaReview == Some(QAFailed(QAFailedNotice)) && qa.qaReviews == old(qa.qaReviews)
    {
      var error := SendError(req);
      if error.Some? {
        return SendBadRequest(error.value);
      }
      var messageData := NewMessage(messageId, taskId, req, now);
      messages := messages + [messageData];
      var shouldTriggerQA := QATriggered(req.content);
      var qaReviewResult: Option<QAOutcome> := None;
      if shouldTriggerQA {
        SentMessageNotEmpty(messageId, taskId, req, now);
        var qaResponse := qa.TriggerQAReview(Some(messageId), Some(taskId), req.content,
                                             service, reply, probe, reviewId, now);
        match qaResponse
        case Reviewed(id, result, status, timestamp) =>
          qaReviewResult := Some(QACompleted(id, result, status, timestamp));
        case _ =>
          qaReviewResult := Some(QAFailed(QAFailedNotice));
      }
      resp := Sent(messageData, shouldTriggerQA, qaReviewResult);
    }

    /** `deleteMessage`: removes the first message with that id in that
        task; when there is none, answers not found and changes nothing. */
    method DeleteMessage(taskId: string, messageId: string) returns (resp: DeleteResponse)
      modifies this
      ensures FindMessage(old(messages), messageId, taskId).None? ==>
                resp == DeleteNotFound(MessageNotFoundError) && messages == old(messages)
      ensures FindMessage(old(messages), messageId, taskId).Some? ==>
                var k := FindMessage(old(messages), messageId, taskId).value;
                resp == MessageDeleted && messages == old(messages)[..k] + old(messages)[k + 1..]
    {
      var messageIndex := FindMessage(messages, messageId, taskId);
      if messageIndex.None? {
        return DeleteNotFound(MessageNotFoundError);
      }
      var k := messageIndex.value;
      messages := messages[..k] + messages[k + 1..];
      resp := MessageDeleted;
    }
  }

  /** A delete takes exactly one message of that task away and leaves every
      other task's messages as they were. */
  lemma DeleteTouchesOneTask(messages: seq<Message>, messageId: string, taskId: string, other: string)
    requires FindMessage(messages, messageId, taskId).Some?
    ensures var k := FindMessage(messages, messageId, taskId).value;
            var after := messages[..k] + messages[k + 1..];
            |after| == |messages| - 1
            && |ForTask(after, taskId)| == |ForTask(messages, taskId)| - 1
            && (other != taskId ==> ForTask(after, other) == ForTask(messages, other))
  {
    var k := FindMessage(messages, messageId, taskId).value;
    ForTaskRemove(messages, k, taskId);
    ForTaskRemove(messages, k, other);
  }
}
