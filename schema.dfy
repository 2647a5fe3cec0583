/**
 * The shared request schemas and record shapes: the closed task-type
 * enumeration, the chat and feedback request validators, and the rows of the
 * `ai_queries`, `session_stats` and `users` tables with their nullable columns.
 */
module Schema {
  import opened Wrappers
  import opened Text

  /** Creation and update times are opaque values supplied by the caller. */
  type Timestamp = int

  /** The closed enumeration of task types. */
  datatype TaskType = Question | Summary | Creative | Advice

  /** The literal text each task type is written as (in requests and in bracket tags). */
  function TaskName(t: TaskType): string {
    match t
    case Question => "question"
    case Summary => "summary"
    case Creative => "creative"
    case Advice => "advice"
  }

  /** Enumeration membership: the task type a string names, if any. */
  function ParseTaskType(s: string): (r: Option<TaskType>)
    ensures r.Some? ==> TaskName(r.value) == s
    ensures r.None? ==> forall t: TaskType :: TaskName(t) != s
  {
    if s == "question" then Some(Question)
    else if s == "summary" then Some(Summary)
    else if s == "creative" then Some(Creative)
    else if s == "advice" then Some(Advice)
    else None
  }

  /** Naming a task type and parsing the name back gives the same task type. */
  lemma ParseTaskNameRoundTrip(t: TaskType)
    ensures ParseTaskType(TaskName(t)) == Some(t)
  {
  }

  /**
   * Every task name is a non-empty run of `\w` characters, so it holds no
   * regular-expression metacharacter and `^\[name\]` is a literal prefix test.
   */
  lemma TaskNameIsWord(t: TaskType)
    ensures |TaskName(t)| >= 1
    ensures forall i :: 0 <= i < |TaskName(t)| ==> IsWordChar(TaskName(t)[i])
  {
  }

  /** The JSON values a request body field can hold (numbers are integers here). */
  datatype JsonValue = JNull | JBool(b: bool) | JNum(n: int) | JStr(s: string) | JOther

  /** A parsed JSON request body. */
  type Body = map<string, JsonValue>

  /** What a schema issue reports about one field. */
  datatype IssueKind = InvalidType | TooSmall(message: string) | InvalidEnumValue

  /** One schema issue: the offending field and what is wrong with it. */
  datatype Issue = Issue(path: string, kind: IssueKind)

  /** A validated chat request. */
  datatype AiRequest = AiRequest(input: string, taskType: TaskType)

  /** A validated feedback request. */
  datatype FeedbackRequest = FeedbackRequest(id: int, isHelpful: bool)

  const EmptyInputMessage: string := "Input cannot be empty"

  /** Issues for the `input` field: a string of at least one character. */
  function InputIssues(body: Body): (r: seq<Issue>)
    ensures r == [] <==> "input" in body && body["input"].JStr? && |body["input"].s| >= 1
    ensures |r| <= 1
  {
    if "input" !in body || !body["input"].JStr? then [Issue("input", InvalidType)]
    else if |body["input"].s| < 1 then [Issue("input", TooSmall(EmptyInputMessage))]
    else []
  }

  /** Issues for the `taskType` field: one of the four task names. */
  function TaskTypeIssues(body: Body): (r: seq<Issue>)
    ensures r == [] <==> "taskType" in body && body["taskType"].JStr? && ParseTaskType(body["taskType"].s).Some?
    ensures |r| <= 1
  {
    if "taskType" !in body || !body["taskType"].JStr? then [Issue("taskType", InvalidType)]
    else if ParseTaskType(body["taskType"].s).None? then [Issue("taskType", InvalidEnumValue)]
    else []
  }

  /** The chat request schema: accepted exactly when neither field has an issue; all issues are reported. */
  function ParseChatRequest(body: Body): (r: Result<AiRequest, seq<Issue>>)
    ensures r.Success? <==> InputIssues(body) == [] && TaskTypeIssues(body) == []
    ensures r.Success? ==> "input" in body && body["input"] == JStr(r.value.input) && |r.value.input| >= 1
    ensures r.Success? ==> "taskType" in body && body["taskType"] == JStr(TaskName(r.value.taskType))
    ensures r.Failure? ==> r.error != [] && r.error == InputIssues(body) + TaskTypeIssues(body)
  {
    var issues := InputIssues(body) + TaskTypeIssues(body);
    if issues != [] then Failure(issues)
    else Success(AiRequest(body["input"].s, ParseTaskType(body["taskType"].s).value))
  }

  /** The body a client sends for a chat request. */
  function ChatBody(input: string, taskType: string): Body {
    map["input" := JStr(input), "taskType" := JStr(taskType)]
  }

  /**
   * A chat body is accepted iff its input is non-empty and its task type is
   * one of the four names; whitespace-only input is accepted.
   */
  lemma ChatBodyAccepted(input: string, taskType: string)
    ensures ParseChatRequest(ChatBody(input, taskType)).Success? <==> |input| >= 1 && ParseTaskType(taskType).Some?
    ensures ParseChatRequest(ChatBody(input, taskType)).Success? ==>
      ParseChatRequest(ChatBody(input, taskType)).value == AiRequest(input, ParseTaskType(taskType).value)
  {
    var body := ChatBody(input, taskType);
    assert body["input"] == JStr(input) && body["taskType"] == JStr(taskType);
  }

  /** Issues for the feedback schema: a number `id` and a boolean `isHelpful`. */
  function FeedbackIssues(body: Body): (r: seq<Issue>)
    ensures r == [] <==> "id" in body && body["id"].JNum? && "isHelpful" in body && body["isHelpful"].JBool?
  {
    (if "id" in body && body["id"].JNum? then [] else [Issue("id", InvalidType)]) +
    (if "isHelpful" in body && body["isHelpful"].JBool? then [] else [Issue("isHelpful", InvalidType)])
  }

  /** The feedback request schema. */
  function ParseFeedbackRequest(body: Body): (r: Result<FeedbackRequest, seq<Issue>>)
    ensures r.Success? <==> FeedbackIssues(body) == []
    ensures r.Success? ==> body["id"] == JNum(r.value.id) && body["isHelpful"] == JBool(r.value.isHelpful)
    ensures r.Failure? ==> r.error != []
  {
    var issues := FeedbackIssues(body);
    if issues != [] then Failure(issues)
    else Success(FeedbackRequest(body["id"].n, body["isHelpful"].b))
  }

  /** The body a client sends with its feedback. */
  function FeedbackBody(id: int, isHelpful: bool): Body {
    map["id" := JNum(id), "isHelpful" := JBool(isHelpful)]
  }

  /** Every well-formed feedback body is accepted with its own values. */
  lemma FeedbackBodyRoundTrip(id: int, isHelpful: bool)
    ensures ParseFeedbackRequest(FeedbackBody(id, isHelpful)) == Success(FeedbackRequest(id, isHelpful))
  {
    var body := FeedbackBody(id, isHelpful);
    assert body["id"] == JNum(id) && body["isHelpful"] == JBool(isHelpful);
  }

  /** The columns a query insertion carries; the store supplies the rest. */
  datatype InsertAiQuery = InsertAiQuery(taskType: string, userInput: string, response: string)

  /**
   * A row of `ai_queries`. `isHelpful` is nullable: `None` (not yet rated),
   * `Some(true)` or `Some(false)`; `timestamp` is nullable with a default of "now".
   */
  datatype AiQuery = AiQuery(
    id: int,
    taskType: string,
    userInput: string,
    response: string,
    isHelpful: Option<bool>,
    timestamp: Option<Timestamp>)

  /** The three columns that the insert schema picks out of a row. */
  function InsertedColumns(q: AiQuery): InsertAiQuery {
    InsertAiQuery(q.taskType, q.userInput, q.response)
  }

  /** A row of `session_stats`; both counters are nullable integer columns defaulting to 0. */
  datatype SessionStats = SessionStats(
    id: int,
    sessionId: string,
    queriesCount: Option<int>,
    helpfulCount: Option<int>,
    timestamp: Option<Timestamp>)

  const DefaultCount: int := 0

  /** A counter column read with its default, as `count || 0` does for a number or null. */
  function CountOrDefault(c: Option<int>): (n: int)
    ensures c.None? ==> n == DefaultCount
    ensures c.Some? ==> n == c.value
  {
    c.GetOr(DefaultCount)
  }

  /** The columns a user insertion carries. */
  datatype InsertUser = InsertUser(username: string, password: string)

  /** A row of `users`. */
  datatype User = User(id: int, username: string, password: string)
}
