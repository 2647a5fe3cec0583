/**
 * The decision logic of the four request handlers: the chat handler's
 * bracket check and outcome-to-status mapping, the feedback handler's
 * not-found rule, and the success-rate figure both stats handlers report.
 * Handlers are methods over a `MemStorage`; HTTP routing and JSON encoding
 * are not modelled.
 */
module Routes {
  import opened Wrappers
  import opened Text
  import opened Schema
  import opened Storage
  import opened Completion

  datatype ResponseBody =
    | ChatReply(id: int, response: string, taskType: string)
    | ErrorReply(error: string, details: Option<seq<Issue>>)
    | FeedbackReply(success: bool, isHelpful: bool)
    | StatsReply(queriesCount: int, helpfulCount: int, successRate: int)

  datatype HttpResponse = HttpResponse(status: int, body: ResponseBody)

  /** A value caught by a handler: a schema error, an `Error` object, or any other thrown value. */
  datatype Thrown = SchemaError(issues: seq<Issue>) | ErrorObject(message: string) | OtherValue

  const InvalidInputMessage: string := "Invalid input format"
  const ChatFailureMessage: string := "Failed to process AI request"
  const InvalidFeedbackMessage: string := "Invalid feedback format"
  const FeedbackFailureMessage: string := "Failed to submit feedback"
  const QueryNotFoundMessage: string := "Query not found"

  /**
   * The server's format check `^\[taskType\]`, a literal prefix test with no
   * trimming: the input opens with `[`, the task name and `]`.
   */
  function HasBracketPrefix(input: string, taskName: string): (b: bool)
    ensures b <==>
      |input| >= |taskName| + 2 && input[0] == '[' && input[1..|taskName| + 1] == taskName
      && input[|taskName| + 1] == ']'
  {
    var tag := "[" + taskName + "]";
    assert tag[0] == '[' && tag[1..|taskName| + 1] == taskName && tag[|taskName| + 1] == ']';
    assert |input| >= |tag| ==>
      input[..|tag|] == [input[0]] + input[1..|taskName| + 1] + [input[|taskName| + 1]];
    assert tag == [tag[0]] + tag[1..|taskName| + 1] + [tag[|taskName| + 1]];
    StartsWith(input, tag)
  }

  /** Leading whitespace makes the server's format check fail. */
  lemma LeadingSpaceFailsBracketCheck(c: char, rest: string, t: TaskType)
    requires IsJsSpace(c)
    ensures !HasBracketPrefix([c] + rest, TaskName(t))
  {
    assert ([c] + rest)[0] == c;
  }

  function FormatErrorMessage(taskName: string): string {
    "Input must start with [" + taskName + "] for the selected task type"
  }

  /** The chat handler's catch clause: schema errors are 400 with details, everything else 500. */
  function ChatErrorResponse(e: Thrown): (r: HttpResponse)
    ensures r.status == 400 <==> e.SchemaError?
    ensures r.status == 500 <==> !e.SchemaError?
    ensures e.SchemaError? ==> r.body == ErrorReply(InvalidInputMessage, Some(e.issues))
    ensures e.ErrorObject? ==> r.body == ErrorReply(e.message, None)
    ensures e.OtherValue? ==> r.body == ErrorReply(ChatFailureMessage, None)
  {
    match e
    case SchemaError(issues) => HttpResponse(400, ErrorReply(InvalidInputMessage, Some(issues)))
    case ErrorObject(message) => HttpResponse(500, ErrorReply(message, None))
    case OtherValue => HttpResponse(500, ErrorReply(ChatFailureMessage, None))
  }

  /** The feedback handler's catch clause: it does not surface an error's message. */
  function FeedbackErrorResponse(e: Thrown): (r: HttpResponse)
    ensures r.status == 400 <==> e.SchemaError?
    ensures e.SchemaError? ==> r.body == ErrorReply(InvalidFeedbackMessage, Some(e.issues))
    ensures !e.SchemaError? ==> r == HttpResponse(500, ErrorReply(FeedbackFailureMessage, None))
  {
    match e
    case SchemaError(issues) => HttpResponse(400, ErrorReply(InvalidFeedbackMessage, Some(issues)))
    case _ => HttpResponse(500, ErrorReply(FeedbackFailureMessage, None))
  }

  /**
   * `Math.round((helpful / queries) * 100)` when `queries > 0`, else 0:
   * the integer nearest to the exact percentage, halves rounded up. The
   * source computes in floating point, which can land on the other side of
   * an exact .5 boundary; this is the exact-arithmetic value.
   */
  function SuccessRate(queriesCount: int, helpfulCount: int): (rate: int)
    ensures queriesCount <= 0 ==> rate == 0
    ensures queriesCount > 0 ==>
      2 * queriesCount * rate <= 200 * helpfulCount + queriesCount < 2 * queriesCount * (rate + 1)
  {
    if queriesCount > 0 then
      var d := 2 * queriesCount;
      var n := 200 * helpfulCount + queriesCount;
      var rate := n / d;
      assert n == d * rate + n % d;
      rate
    else 0
  }

  /** With `0 <= helpful <= queries` the success rate is a percentage. */
  lemma SuccessRateInRange(queriesCount: int, helpfulCount: int)
    requires 0 <= helpfulCount <= queriesCount
    ensures 0 <= SuccessRate(queriesCount, helpfulCount) <= 100
  {
    if queriesCount > 0 {
      var q, rate := queriesCount, SuccessRate(queriesCount, helpfulCount);
      assert 2 * q * rate < 2 * q * 101 by {
        assert 200 * helpfulCount + q <= 201 * q;
      }
      assert 0 < 2 * q * (rate + 1) by {
        assert 0 <= 200 * helpfulCount + q;
      }
      MulMonotoneLt(2 * q, rate, 101);
      MulMonotoneLt(2 * q, -1, rate);
    }
  }

  /** Multiplying by a positive number preserves strict order (used backwards). */
  lemma MulMonotoneLt(k: int, a: int, b: int)
    requires k > 0 && k * a < k * b
    ensures a < b
  {
  }

  /** More helpful answers never lower the success rate. */
  lemma SuccessRateMonotone(queriesCount: int, h1: int, h2: int)
    requires h1 <= h2
    ensures SuccessRate(queriesCount, h1) <= SuccessRate(queriesCount, h2)
  {
    if queriesCount > 0 {
      var q := queriesCount;
      var r1, r2 := SuccessRate(q, h1), SuccessRate(q, h2);
      assert 2 * q * r1 < 2 * q * (r2 + 1) by {
        assert 200 * h1 + q <= 200 * h2 + q;
      }
      MulMonotoneLt(2 * q, r1, r2 + 1);
    }
  }

  /** The stats body both stats handlers send for stored counters (each read as `count || 0`). */
  function StatsReplyFor(queriesCount: Option<int>, helpfulCount: Option<int>): (b: ResponseBody)
    ensures b.StatsReply?
    ensures b.queriesCount == CountOrDefault(queriesCount) && b.helpfulCount == CountOrDefault(helpfulCount)
    ensures b.successRate == SuccessRate(b.queriesCount, b.helpfulCount)
  {
    var q := CountOrDefault(queriesCount);
    var h := CountOrDefault(helpfulCount);
    StatsReply(q, h, SuccessRate(q, h))
  }

  /** The reply of `GET /api/stats/:sessionId` on a given store. */
  function GetStatsReply(s: StoreState, sessionId: string): (r: HttpResponse)
    ensures r.status == 200 && r.body.StatsReply?
    ensures sessionId !in s.sessionStats ==> r.body == StatsReply(0, 0, 0)
    ensures sessionId in s.sessionStats ==>
      r.body == StatsReplyFor(s.sessionStats[sessionId].queriesCount, s.sessionStats[sessionId].helpfulCount)
  {
    match LookupStats(s, sessionId)
    case None => HttpResponse(200, StatsReply(0, 0, 0))
    case Some(stats) => HttpResponse(200, StatsReplyFor(stats.queriesCount, stats.helpfulCount))
  }

  /** After a stats update, reading the session's stats gives exactly the reply the update sent. */
  lemma PostThenGetStats(s: StoreState, sessionId: string, q: Option<int>, h: Option<int>, now: Timestamp)
    requires StoreValid(s)
    ensures GetStatsReply(UpdateSessionStatsStep(s, sessionId, q, h, now).state, sessionId)
         == HttpResponse(200, StatsReplyFor(q, h))
  {
  }

  /**
   * `POST /api/ai/chat`. A schema failure or a format mismatch answers 400
   * without calling the provider or storing anything; a service failure
   * answers 500 with its message and stores nothing; a success stores the
   * query and answers with the stored record's id.
   */
  method HandleChat(store: MemStorage, body: Body, apiKey: Option<string>, outcome: ProviderOutcome, now: Timestamp)
    returns (resp: HttpResponse, sent: Option<CompletionRequest>)
    requires store.Valid()
    modifies store
    ensures store.Valid()
    ensures ParseChatRequest(body).Failure? ==>
      && resp == ChatErrorResponse(SchemaError(ParseChatRequest(body).error))
      && sent == None && store.State() == old(store.State())
    ensures ParseChatRequest(body).Success? && !HasBracketPrefix(body["input"].s, body["taskType"].s) ==>
      && resp == HttpResponse(400, ErrorReply(FormatErrorMessage(body["taskType"].s), None))
      && sent == None && store.State() == old(store.State())
    ensures ParseChatRequest(body).Success? && HasBracketPrefix(body["input"].s, body["taskType"].s) ==>
      var req := ParseChatRequest(body).value;
      var a := ProcessAIRequest(AIAssistantRequest(req.input, req.taskType), apiKey, outcome);
      && sent == a.sent
      && (a.result.Failure? ==>
            resp == ChatErrorResponse(ErrorObject(a.result.error)) && store.State() == old(store.State()))
      && (a.result.Success? ==>
            var step := CreateAiQueryStep(old(store.State()), InsertAiQuery(TaskName(req.taskType), req.input, a.result.value.response), now);
            && store.State() == step.state
            && resp == HttpResponse(200, ChatReply(step.result.id, a.result.value.response, TaskName(req.taskType))))
  {
    var parsed := ParseChatRequest(body);
    if parsed.Failure? {
      return ChatErrorResponse(SchemaError(parsed.error)), None;
    }
    var input, taskType := parsed.value.input, parsed.value.taskType;
    if !HasBracketPrefix(input, TaskName(taskType)) {
      return HttpResponse(400, ErrorReply(FormatErrorMessage(TaskName(taskType)), None)), None;
    }
    var attempt := ProcessAIRequest(AIAssistantRequest(input, taskType), apiKey, outcome);
    sent := attempt.sent;
    if attempt.result.Failure? {
      return ChatErrorResponse(ErrorObject(attempt.result.error)), sent;
    }
    var aiResponse := attempt.result.value;
    var storedQuery := store.CreateAiQuery(InsertAiQuery(TaskName(taskType), input, aiResponse.response), now);
    resp := HttpResponse(200, ChatReply(storedQuery.id, aiResponse.response, aiResponse.taskType));
  }

  /**
   * `POST /api/ai/feedback`: 400 on a schema failure, 404 iff the store
   * reports the id unknown, otherwise 200 echoing `isHelpful`.
   */
  method HandleFeedback(store: MemStorage, body: Body) returns (resp: HttpResponse)
    requires store.Valid()
    modifies store
    ensures store.Valid()
    ensures ParseFeedbackRequest(body).Failure? ==>
      resp == FeedbackErrorResponse(SchemaError(ParseFeedbackRequest(body).error))
      && store.State() == old(store.State())
    ensures ParseFeedbackRequest(body).Success? ==>
      var req := ParseFeedbackRequest(body).value;
      var step := UpdateQueryFeedbackStep(old(store.State()), req.id, req.isHelpful);
      && store.State() == step.state
      && (resp.status == 404 <==> req.id !in old(store.aiQueries))
      && (step.result.None? ==> resp == HttpResponse(404, ErrorReply(QueryNotFoundMessage, None)))
      && (step.result.Some? ==> resp == HttpResponse(200, FeedbackReply(true, req.isHelpful)))
  {
    var parsed := ParseFeedbackRequest(body);
    if parsed.Failure? {
      return FeedbackErrorResponse(SchemaError(parsed.error));
    }
    var updatedQuery := store.UpdateQueryFeedback(parsed.value.id, parsed.value.isHelpful);
    if updatedQuery.None? {
      return HttpResponse(404, ErrorReply(QueryNotFoundMessage, None));
    }
    resp := HttpResponse(200, FeedbackReply(true, parsed.value.isHelpful));
  }

  /** `GET /api/stats/:sessionId`: all zeros for an unknown session. */
  method HandleGetStats(store: MemStorage, sessionId: string) returns (resp: HttpResponse)
    ensures resp == GetStatsReply(store.State(), sessionId)
    ensures sessionId !in store.sessionStats ==> resp == HttpResponse(200, StatsReply(0, 0, 0))
  {
    var stats := store.GetSessionStats(sessionId);
    if stats.None? {
      return HttpResponse(200, StatsReply(0, 0, 0));
    }
    resp := HttpResponse(200, StatsReplyFor(stats.value.queriesCount, stats.value.helpfulCount));
  }

  /**
   * `POST /api/stats/:sessionId`: stores the given counters as they are and
   * answers with them and their success rate, so the reply depends only on
   * the counters sent.
   */
  method HandlePostStats(store: MemStorage, sessionId: string, queriesCount: Option<int>, helpfulCount: Option<int>,
                         now: Timestamp)
    returns (resp: HttpResponse)
    requires store.Valid()
    modifies store
    ensures store.Valid()
    ensures store.State() == UpdateSessionStatsStep(old(store.State()), sessionId, queriesCount, helpfulCount, now).state
    ensures resp == HttpResponse(200, StatsReplyFor(queriesCount, helpfulCount))
    ensures resp == GetStatsReply(store.State(), sessionId)
  {
    var stats := store.UpdateSessionStats(sessionId, queriesCount, helpfulCount, now);
    resp := HttpResponse(200, StatsReplyFor(stats.queriesCount, stats.helpfulCount));
  }
}
