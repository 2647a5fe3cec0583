/**
 * The deterministic parts of the completion service: the credential guard,
 * the prompt text, the request parameters, the empty-content fallback, the
 * ordered classification of provider errors, and the alternative prompt
 * templates. The provider itself is not modelled: what it answers is the
 * `ProviderOutcome` given as a parameter.
 */
module Completion {
  import opened Wrappers
  import opened Text
  import opened Schema

  /** The value the credential holds in an unconfigured environment. */
  const PlaceholderApiKey: string := "your-openai-api-key-here"

  const ModelId: string := "gpt-4o-mini"
  const MaxTokens: int := 1000
  /** Sampling temperatures in hundredths: 0.8 for creative requests, 0.3 otherwise. */
  const CreativeTemperature: int := 80
  const DefaultTemperature: int := 30

  const MissingKeyMessage: string := "OpenAI API key is required but not configured. Please add your API key."
  const QuotaExceededMessage: string :=
    "OpenAI API quota exceeded. Please add credits to your OpenAI account or wait for quota reset."
  const InvalidKeyMessage: string := "Invalid OpenAI API key. Please check your API key is correct and active."
  const ForbiddenMessage: string := "OpenAI API access forbidden. Please verify your API key permissions."
  const InsufficientQuotaMessage: string :=
    "OpenAI account has insufficient quota. Please add credits to your OpenAI account."
  const ServiceErrorPrefix: string := "AI Service Error: "
  const UnknownFailureMessage: string := "Failed to process AI request. Please check your API configuration."
  const FallbackContent: string := "I apologize, but I couldn't generate a response. Please try again."
  const InsufficientQuotaCode: string := "insufficient_quota"

  /** The instruction text that precedes the user's input in every prompt. */
  const PromptPreamble: string :=
    "You are an intelligent AI Assistant that can perform different tasks based on user needs. The tasks include:\n\n"
    + "1. Answering factual questions \U{2014} Provide accurate, concise, factual responses to knowledge-based questions.\n"
    + "2. Summarizing text \U{2014} Given a block of text, extract key points, main ideas, and provide a short summary.\n"
    + "3. Generating creative content \U{2014} Generate short stories, poems, or ideas with creativity and imagination based on user input.\n"
    + "4. Giving advice \U{2014} Offer practical, thoughtful suggestions or tips on specific topics when asked.\n\n"
    + "The user will indicate the task they want in brackets at the beginning, such as:\n"
    + "- [question] What is the capital of France?\n"
    + "- [summary] Summarize this: Artificial Intelligence is transforming industries...\n"
    + "- [creative] Write a short story about a lonely robot.\n"
    + "- [advice] How to improve focus while studying?\n\n"
    + "Based on the bracket, follow the appropriate style:\n"
    + "- For [question], give direct, factual information.\n"
    + "- For [summary], provide a concise, clear summary.\n"
    + "- For [creative], use your imagination to craft engaging content.\n"
    + "- For [advice], give useful, actionable suggestions.\n\n"
    + "Always keep the tone human-friendly, clear, and relevant to the task. Respond accordingly:\n\n"
    + "User: "

  /** The request that is served to the completion service. */
  datatype AIAssistantRequest = AIAssistantRequest(input: string, taskType: TaskType)

  /** The service's successful answer. */
  datatype AIAssistantResponse = AIAssistantResponse(response: string, taskType: string)

  /** What would be sent to the provider. */
  datatype CompletionRequest = CompletionRequest(model: string, prompt: string, maxTokens: int, temperature: int)

  /**
   * What the provider answers: a completion whose first choice may lack
   * content, or a thrown value with an optional HTTP status, an optional
   * error code, whether it is an `Error` object, and its message.
   */
  datatype ProviderOutcome =
    | Completed(content: Option<string>)
    | Failed(status: Option<int>, code: Option<string>, isError: bool, message: string)

  /** The service's result and the provider request it made (`None` when it made none). */
  datatype Attempt = Attempt(sent: Option<CompletionRequest>, result: Result<AIAssistantResponse, string>)

  /** `createUltimatePrompt`: the fixed instructions followed by `User: ` and the input verbatim. */
  function CreateUltimatePrompt(userInput: string): (p: string)
    ensures |p| == |PromptPreamble| + |userInput|
    ensures StartsWith(p, PromptPreamble)
    ensures p[|p| - |userInput|..] == userInput
    ensures p[|p| - |userInput| - |"User: "|..] == "User: " + userInput
  {
    PromptPreamble + userInput
  }

  /** Recovers the user input from a prompt built by `CreateUltimatePrompt`. */
  function PromptUserInput(p: string): (r: Option<string>)
    ensures r.Some? <==> StartsWith(p, PromptPreamble)
  {
    if StartsWith(p, PromptPreamble) then Some(p[|PromptPreamble|..]) else None
  }

  /** The prompt determines the input: reading it back gives the input exactly. */
  lemma PromptRoundTrip(userInput: string)
    ensures PromptUserInput(CreateUltimatePrompt(userInput)) == Some(userInput)
  {
    var p := CreateUltimatePrompt(userInput);
    assert p[|PromptPreamble|..] == userInput;
  }

  /** Distinct inputs give distinct prompts. */
  lemma PromptInjective(a: string, b: string)
    requires CreateUltimatePrompt(a) == CreateUltimatePrompt(b)
    ensures a == b
  {
    PromptRoundTrip(a);
    PromptRoundTrip(b);
  }

  /** The credential guard: a key is usable iff it is present, non-empty and not the placeholder. */
  function ApiKeyConfigured(apiKey: Option<string>): (ok: bool)
    ensures apiKey == None ==> !ok
    ensures apiKey == Some("") ==> !ok
    ensures apiKey == Some(PlaceholderApiKey) ==> !ok
    ensures apiKey.Some? && apiKey.value != "" && apiKey.value != PlaceholderApiKey ==> ok
  {
    apiKey.Some? && apiKey.value != "" && apiKey.value != PlaceholderApiKey
  }

  /** The temperature is the creative setting iff the task is creative. */
  function TemperatureFor(t: TaskType): (temp: int)
    ensures temp == CreativeTemperature <==> t == Creative
    ensures temp == DefaultTemperature <==> t != Creative
  {
    if t == Creative then CreativeTemperature else DefaultTemperature
  }

  /** The provider request for a chat request: fixed model and token cap, prompt built from the input. */
  function RequestFor(req: AIAssistantRequest): (c: CompletionRequest)
    ensures c.model == ModelId && c.maxTokens == MaxTokens
    ensures PromptUserInput(c.prompt) == Some(req.input)
    ensures c.temperature == TemperatureFor(req.taskType)
  {
    PromptRoundTrip(req.input);
    CompletionRequest(ModelId, CreateUltimatePrompt(req.input), MaxTokens, TemperatureFor(req.taskType))
  }

  /** The response text: the provider's content, or the apology when it is missing or empty. */
  function ResponseText(content: Option<string>): (text: string)
    ensures text != ""
    ensures content.Some? && content.value != "" ==> text == content.value
    ensures content.None? || content.value == "" ==> text == FallbackContent
  {
    if content.Some? && content.value != "" then content.value else FallbackContent
  }

  /**
   * The message of the error rethrown for a provider failure, by the first
   * rule that applies: status 429, status 401, status 403, the
   * `insufficient_quota` code, any `Error` object, anything else.
   */
  function ClassifyFailure(status: Option<int>, code: Option<string>, isError: bool, message: string): (m: string)
    ensures status == Some(429) ==> m == QuotaExceededMessage
    ensures status == Some(401) ==> m == InvalidKeyMessage
    ensures status == Some(403) ==> m == ForbiddenMessage
    ensures status !in {Some(429), Some(401), Some(403)} && code == Some(InsufficientQuotaCode) ==>
      m == InsufficientQuotaMessage
    ensures status !in {Some(429), Some(401), Some(403)} && code != Some(InsufficientQuotaCode) ==>
      m == (if isError then ServiceErrorPrefix + message else UnknownFailureMessage)
  {
    if status == Some(429) then QuotaExceededMessage
    else if status == Some(401) then InvalidKeyMessage
    else if status == Some(403) then ForbiddenMessage
    else if code == Some(InsufficientQuotaCode) then InsufficientQuotaMessage
    else if isError then ServiceErrorPrefix + message
    else UnknownFailureMessage
  }

  /**
   * `processAIRequest`: without a usable key it fails before any provider
   * request; otherwise it sends `RequestFor(req)` and either answers with the
   * response text under the request's own task type or fails with the
   * classified message.
   */
  function ProcessAIRequest(req: AIAssistantRequest, apiKey: Option<string>, outcome: ProviderOutcome): (a: Attempt)
    ensures !ApiKeyConfigured(apiKey) ==> a == Attempt(None, Failure(MissingKeyMessage))
    ensures ApiKeyConfigured(apiKey) ==> a.sent == Some(RequestFor(req))
    ensures a.result.Success? <==> ApiKeyConfigured(apiKey) && outcome.Completed?
    ensures a.result.Success? ==>
      a.result.value.taskType == TaskName(req.taskType) && a.result.value.response != ""
    ensures a.result.Success? ==> a.result.value.response == ResponseText(outcome.content)
    ensures ApiKeyConfigured(apiKey) && outcome.Failed? ==>
      a.result == Failure(ClassifyFailure(outcome.status, outcome.code, outcome.isError, outcome.message))
  {
    if !ApiKeyConfigured(apiKey) then Attempt(None, Failure(MissingKeyMessage))
    else
      var sent := RequestFor(req);
      match outcome
      case Completed(content) =>
        Attempt(Some(sent), Success(AIAssistantResponse(ResponseText(content), TaskName(req.taskType))))
      case Failed(status, code, isError, message) =>
        Attempt(Some(sent), Failure(ClassifyFailure(status, code, isError, message)))
  }

  /** Quota exhaustion by status wins over the `insufficient_quota` code, and no failure is ever absorbed. */
  lemma QuotaStatusWins(req: AIAssistantRequest, apiKey: Option<string>, code: Option<string>, isError: bool, message: string)
    requires ApiKeyConfigured(apiKey)
    ensures ProcessAIRequest(req, apiKey, Failed(Some(429), code, isError, message)).result == Failure(QuotaExceededMessage)
  {
  }

  /** `\[task\]\s*` removed from the start of `input` when the input begins with the tag. */
  function StripTag(t: TaskType, input: string): (r: string)
    ensures !StartsWith(input, "[" + TaskName(t) + "]") ==> r == input
    ensures StartsWith(input, "[" + TaskName(t) + "]") ==>
      && |"[" + TaskName(t) + "]"| + |r| <= |input|
      && input[|input| - |r|..] == r
      && (forall i :: |"[" + TaskName(t) + "]"| <= i < |input| - |r| ==> IsJsSpace(input[i]))
      && (r != [] ==> !IsJsSpace(r[0]))
  {
    var tag := "[" + TaskName(t) + "]";
    if StartsWith(input, tag) then
      var rest := input[|tag|..];
      var r := TrimStart(rest);
      assert forall i :: |tag| <= i < |input| - |r| ==> input[i] == rest[i - |tag|];
      r
    else input
  }

  /** Stripping the tag from a tagged input leaves the text after the tag and its whitespace. */
  lemma StripTagOfTagged(t: TaskType, ws: string, text: string)
    requires forall i :: 0 <= i < |ws| ==> IsJsSpace(ws[i])
    requires text == [] || !IsJsSpace(text[0])
    ensures StripTag(t, "[" + TaskName(t) + "]" + ws + text) == text
  {
    var tag := "[" + TaskName(t) + "]";
    var input := tag + ws + text;
    assert input[..|tag|] == tag;
    var rest := input[|tag|..];
    assert rest == ws + text;
    LeadingSpacesOf(ws, text);
  }

  lemma {:induction false} LeadingSpacesOf(ws: string, text: string)
    requires forall i :: 0 <= i < |ws| ==> IsJsSpace(ws[i])
    requires text == [] || !IsJsSpace(text[0])
    ensures LeadingSpaceCount(ws + text) == |ws|
  {
    if ws != [] {
      assert (ws + text)[0] == ws[0];
      assert (ws + text)[1..] == ws[1..] + text;
      LeadingSpacesOf(ws[1..], text);
    } else {
      assert ws + text == text;
    }
  }

  /** The fixed text around the stripped input in each of a task's three alternative prompts. */
  function AlternativeTemplates(t: TaskType): (parts: seq<(string, string)>)
    ensures |parts| == 3
  {
    match t
    case Question => [
      ("Answer this question directly and factually: ", ""),
      ("As an expert, please provide a comprehensive answer to: ", ""),
      ("Question: ", ". Please provide a clear, accurate response with relevant details.")]
    case Summary => [
      ("Summarize the key points of the following text: ", ""),
      ("Please provide a concise summary highlighting the main ideas: ", ""),
      ("Extract and summarize the essential information from: ", "")]
    case Creative => [
      ("Use your creativity to write engaging content based on: ", ""),
      ("Create imaginative and original content for: ", ""),
      ("Let your imagination flow and craft something creative about: ", "")]
    case Advice => [
      ("Provide practical, actionable advice for: ", ""),
      ("Give helpful suggestions and tips regarding: ", ""),
      ("As a helpful advisor, please suggest solutions for: ", "")]
  }

  /**
   * `alternativePrompts[t]` applied to an input: three prompts, each holding
   * the input with the task's own leading tag (and its following whitespace)
   * removed; an untagged input appears verbatim.
   */
  function AlternativePrompts(t: TaskType, input: string): (ps: seq<string>)
    ensures |ps| == 3
    ensures forall i :: 0 <= i < 3 ==>
      ps[i] == AlternativeTemplates(t)[i].0 + StripTag(t, input) + AlternativeTemplates(t)[i].1
    ensures !StartsWith(input, "[" + TaskName(t) + "]") ==> forall i :: 0 <= i < 3 ==>
      ps[i][|AlternativeTemplates(t)[i].0|..|ps[i]| - |AlternativeTemplates(t)[i].1|] == input
  {
    var parts := AlternativeTemplates(t);
    var body := StripTag(t, input);
    seq(3, i requires 0 <= i < 3 => parts[i].0 + body + parts[i].1)
  }
}
