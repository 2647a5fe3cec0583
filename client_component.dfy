/**
 * The assistant component's state (`input`, `charCount`, `currentTask`)
 * and its handlers: the validation done before a query is submitted, the
 * task taken from a clicked example, and clearing.
 */
module ClientComponent {
  import opened Wrappers
  import opened Text
  import opened Schema
  import opened Routes

  /** What `handleSubmit` does: reject (nothing is submitted) or submit the trimmed text. */
  datatype SubmitDecision =
    | RejectEmpty
    | RejectFormat(taskName: string)
    | Submit(input: string, taskType: string)

  /**
   * The checks before submission: the trimmed input must be non-empty and
   * must begin with `[currentTask]`; what is submitted is the trimmed input.
   */
  function ValidateSubmission(input: string, currentTask: string): (d: SubmitDecision)
    ensures d.RejectEmpty? <==> forall i :: 0 <= i < |input| ==> IsJsSpace(input[i])
    ensures d.RejectFormat? <==> Trim(input) != "" && !StartsWith(Trim(input), "[" + currentTask + "]")
    ensures d.RejectFormat? ==> d.taskName == currentTask
    ensures d.Submit? ==> d.input == Trim(input) && d.taskType == currentTask
    ensures d.Submit? ==> d.input != "" && StartsWith(d.input, "[" + currentTask + "]")
  {
    var trimmed := Trim(input);
    if trimmed == "" then RejectEmpty
    else if !StartsWith(trimmed, "[" + currentTask + "]") then RejectFormat(currentTask)
    else Submit(trimmed, currentTask)
  }

  /**
   * Whatever the client submits for an enumerated task passes the server's
   * schema and its bracket check, with the submitted text as the input.
   */
  lemma ClientAcceptedServerAccepts(input: string, currentTask: string)
    requires ValidateSubmission(input, currentTask).Submit?
    requires ParseTaskType(currentTask).Some?
    ensures var d := ValidateSubmission(input, currentTask);
            var parsed := ParseChatRequest(ChatBody(d.input, d.taskType));
            && parsed.Success?
            && parsed.value == AiRequest(d.input, ParseTaskType(currentTask).value)
            && HasBracketPrefix(d.input, currentTask)
  {
    var d := ValidateSubmission(input, currentTask);
    ChatBodyAccepted(d.input, d.taskType);
  }

  /**
   * `^\[(\w+)\]` on an example: the word inside a leading bracket tag, if
   * the example begins with `[`, one or more word characters and `]`.
   */
  function ExtractLeadingTask(example: string): (r: Option<string>)
    ensures r.Some? ==> IsWord(r.value)
    ensures r.Some? ==> StartsWith(example, "[" + r.value + "]")
  {
    if |example| >= 1 && example[0] == '[' then
      var n := WordPrefixLength(example[1..]);
      if n >= 1 && n + 1 < |example| && example[n + 1] == ']' then
        var w := example[1..n + 1];
        assert example[..|"[" + w + "]"|] == "[" + w + "]";
        Some(w)
      else None
    else None
  }

  /** A leading `[w]` with `w` a word is exactly what is extracted: the capture is unique. */
  lemma ExtractLeadingTaskComplete(example: string, w: string)
    requires IsWord(w)
    requires StartsWith(example, "[" + w + "]")
    ensures ExtractLeadingTask(example) == Some(w)
  {
    var tag := "[" + w + "]";
    assert example[..|tag|] == tag;
    assert example[0] == '[';
    var rest := example[1..];
    assert rest[..|w|] == w;
    assert rest[|w|] == ']';
    WordRunLength(rest, |w|);
    assert example[|w| + 1] == ']' && |w| + 1 < |example|;
    assert example[1..|w| + 1] == w;
  }

  /** A run of `k` word characters followed by a non-word character has length exactly `k`. */
  lemma WordRunLength(s: string, k: nat)
    requires k < |s| && !IsWordChar(s[k])
    requires forall i :: 0 <= i < k ==> IsWordChar(s[i])
    ensures WordPrefixLength(s) == k
  {
  }

  /** Every task type's own tag is recognised, so clicking a tagged example selects that task. */
  lemma ExtractTaggedExample(t: TaskType, rest: string)
    ensures ExtractLeadingTask("[" + TaskName(t) + "]" + rest) == Some(TaskName(t))
  {
    var example := "[" + TaskName(t) + "]" + rest;
    assert example[..|"[" + TaskName(t) + "]"|] == "[" + TaskName(t) + "]";
    TaskNameIsWord(t);
    ExtractLeadingTaskComplete(example, TaskName(t));
  }

  /** The question example in the sidebar carries no tag, so clicking it keeps the current task. */
  lemma QuestionExampleHasNoTag()
    ensures ExtractLeadingTask("What is the capital of France?") == None
  {
  }

  /** The component's mutable state. */
  class AssistantComponent {
    var currentTask: string
    var input: string
    var charCount: nat

    /**
     * The displayed character count is the UTF-16 length of the input, and
     * the selected task is a `\w+` word, so that the format pattern built
     * from it is a literal prefix test.
     */
    ghost predicate Valid()
      reads this
    {
      charCount == Utf16Length(input) && IsWord(currentTask)
    }

    constructor ()
      ensures Valid()
      ensures currentTask == "question" && input == "" && charCount == 0
    {
      currentTask := "question";
      input := "";
      charCount := 0;
    }

    /** Typing in the text area; the effect on `input` recomputes the count. */
    method ChangeInput(text: string)
      requires Valid()
      modifies this
      ensures Valid()
      ensures input == text && currentTask == old(currentTask)
    {
      input := text;
      charCount := Utf16Length(text);
    }

    /** Choosing a task in the task selector, whose options are the task-type ids. */
    method ChangeTask(task: string)
      requires Valid()
      requires IsWord(task)
      modifies this
      ensures Valid()
      ensures currentTask == task && input == old(input) && charCount == old(charCount)
    {
      currentTask := task;
    }

    /** `handleSubmit`: decides, from the current state alone, what (if anything) is submitted. */
    method HandleSubmit() returns (d: SubmitDecision)
      ensures d == ValidateSubmission(input, currentTask)
      ensures d.Submit? ==> d.input == Trim(input) && d.taskType == currentTask
    {
      var trimmedInput := Trim(input);
      if trimmedInput == "" {
        return RejectEmpty;
      }
      if !StartsWith(trimmedInput, "[" + currentTask + "]") {
        return RejectFormat(currentTask);
      }
      d := Submit(trimmedInput, currentTask);
    }

    /** `handleClear`: empty input and a zero count. */
    method HandleClear()
      requires Valid()
      modifies this
      ensures Valid()
      ensures input == "" && charCount == 0 && currentTask == old(currentTask)
    {
      input := "";
      charCount := 0;
    }

    /** `handleExampleClick`: the example becomes the input and a leading `[w]` becomes the task. */
    method HandleExampleClick(example: string)
      requires Valid()
      modifies this
      ensures Valid()
      ensures input == example
      ensures currentTask == ExtractLeadingTask(example).GetOr(old(currentTask))
    {
      input := example;
      charCount := Utf16Length(example);
      var taskMatch := ExtractLeadingTask(example);
      if taskMatch.Some? {
        currentTask := taskMatch.value;
      }
    }
  }
}
