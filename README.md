# AI assistant: a Dafny model of its request-handling core

The application forwards task-tagged prompts (`[question] …`, `[summary] …`,
`[creative] …`, `[advice] …`) to a language-model completion service, stores
each query with its answer in an in-memory store, collects a helpful/unhelpful
rating per query, and keeps per-session counters from which it derives a
success rate. This project models the deterministic logic under that glue and
proves properties of it:

- `storage.dfy` (module `Storage`): the in-memory store. `StoreState` is its
  abstract value (three tables, three auto-increment counters) and the
  `…Step` functions say what each operation does to it; the class
  `MemStorage` keeps the same data in mutable `map` and counter fields, and
  each of its methods is proved to perform the matching step.
- `routes.dfy` (module `Routes`): the four handlers as methods over a
  `MemStorage`, the literal bracket-prefix check, the mapping of outcomes to
  status codes and bodies, and the success-rate formula.
- `schema.dfy` (module `Schema`): the task-type enumeration, the chat and
  feedback request validators over a JSON body, and the table rows with their
  nullable columns.
- `completion.dfy` (module `Completion`): the completion service's credential
  guard, prompt construction, request parameters, empty-content fallback,
  ordered error classification and alternative prompts. The provider's answer
  is a `ProviderOutcome` parameter; the result records the provider request
  that would be sent, or `None` when none is.
- `client_hook.dfy` (module `ClientHook`) and `client_component.dfy` (module
  `ClientComponent`): the client's state as classes, the validation before
  submitting, task extraction from an example, clearing, the feedback guard and
  the counter update posted after feedback.
- `text.dfy` (module `Text`): the JavaScript string primitives these rely on
  (`trim` and `\s` whitespace, `\w`, UTF-16 `length`, literal prefix);
  `wrappers.dfy` (module `Wrappers`): `Option` and `Result`.

Three facts about the code that shape the model:

- The code has no demo-mode fallback. On a quota failure (status 429 or code
  `insufficient_quota`) it throws an error that the chat handler turns into a
  500 (`Completion.ClassifyFailure`).
- The server's bracket check does not trim its input. Only the client trims
  before submitting (`Routes.HasBracketPrefix`, `ClientComponent.ValidateSubmission`).
- A missing or placeholder credential makes the chat request fail with a 500
  carrying the configuration message. Nothing falls back.

Two modelling choices:

- Timestamps (`new Date()`) come in as an opaque `now` parameter.
- The client's random session id is a constructor argument of `AssistantHook`.

## Model

| member | source | states |
|---|---|---|
| `Text.TrimStart` | server/services/openai.ts:101 | removes exactly the maximal run of leading whitespace: the result is a suffix of the input, what was dropped is all whitespace, and the result does not start with whitespace |
| `Text.Trim` | client/src/components/ai-assistant.tsx:49 | the trimmed text is the slice of the input between the two bounds of `TrimBounds`, which cut off exactly the maximal whitespace runs at each end; it is empty exactly when the input is all whitespace, and otherwise neither starts nor ends with whitespace |
| `Text.TrimIdempotent` | client/src/components/ai-assistant.tsx:49 | trimming an already trimmed input changes nothing |
| `Text.Utf16Length` | client/src/components/ai-assistant.tsx:34-36 | the character count the component shows lies between the number of code points and twice that, and is 0 exactly for the empty input |
| `Text.Utf16LengthOfChar` | client/src/components/ai-assistant.tsx:34-36 | one code point counts 2 when it is above U+FFFF (a surrogate pair) and 1 otherwise; with `Text.Utf16LengthConcat` this fixes the count of every string |
| `Text.Utf16LengthConcat` | client/src/components/ai-assistant.tsx:34-36 | the displayed length of a concatenation is the sum of the lengths |
| `Schema.ParseTaskType` | shared/schema.ts:46 | enum membership: a string is accepted exactly when it is one of the four task names, and it is accepted as the task of that name |
| `Schema.ParseTaskNameRoundTrip` | shared/schema.ts:46 | every task type's name is accepted as that same task type |
| `Schema.TaskNameIsWord` | shared/schema.ts:46 | every task name is a non-empty run of `\w` characters, so `^\[name\]` has no metacharacters and is a literal prefix test |
| `Schema.InputIssues` | shared/schema.ts:45 | `input` has no issue iff it is a string of length at least 1 |
| `Schema.TaskTypeIssues` | shared/schema.ts:46 | `taskType` has no issue iff it is a string naming one of the four tasks |
| `Schema.ParseChatRequest` | shared/schema.ts:44-47 | a chat body is accepted iff neither field has an issue, and then carries the body's own input and task type; a rejection carries the input's issues followed by the task type's, and at least one |
| `Schema.ChatBodyAccepted` | shared/schema.ts:44-47 | a `{input, taskType}` body is accepted iff the input is non-empty and the task type is an enum value, so whitespace-only input passes the schema |
| `Schema.FeedbackIssues` | shared/schema.ts:39-42 | a feedback body has no issue iff `id` is a number and `isHelpful` a boolean |
| `Schema.ParseFeedbackRequest` | shared/schema.ts:39-42 | a feedback body is accepted iff it has no issue, with the body's own id and rating |
| `Schema.FeedbackBodyRoundTrip` | shared/schema.ts:39-42 | every `{id, isHelpful}` body is accepted with exactly its values |
| `Schema.CountOrDefault` | shared/schema.ts:23-24 | a null counter reads as its column default 0, a present one as itself |
| `Storage.InitialState` | server/storage.ts:26-33 | a new store is empty, has all three counters at 1 and satisfies the store invariant |
| `Storage.LookupUser` | server/storage.ts:35-37 | a user is found iff its id is stored, and the stored row is returned |
| `Storage.LookupQuery` | server/storage.ts:74-76 | a query is found iff its id is stored, and the stored row is returned |
| `Storage.LookupStats` | server/storage.ts:78-80 | a session's stats are found iff the session is stored |
| `Storage.CreateUserStep` | server/storage.ts:45-50 | the new user gets the current user id, unused so far, keeps the given name and password and is stored under that id; the counter moves on by one and no other row changes |
| `Storage.CreateAiQueryStep` | server/storage.ts:52-62 | the new query gets the current query id, which is at least 1 and unused. It keeps the three given columns, starts unrated and is found again under its id. The counter moves on by one, no other row changes and the invariant is kept |
| `Storage.UpdateQueryFeedbackStep` | server/storage.ts:64-72 | an unknown id reports not-found and leaves the store exactly as it was; a known id gets only its `isHelpful` overwritten, and no other query or table changes |
| `Storage.UpdateSessionStatsStep` | server/storage.ts:82-102 | the upsert sets the counters to exactly the given values. An existing record keeps its id and the stats counter stays. An absent session gets the current stats id and the counter moves on. Afterwards the session reads back as the returned record and no other session changes |
| `Storage.CreateAiQueryIdsIncrease` | server/storage.ts:53 | two successive creations return strictly increasing ids and the first record stays stored |
| `Storage.CreateThenFeedback` | server/storage.ts:64-69 | feedback right after creating a query rates that query and keeps its three inserted columns |
| `Storage.FeedbackLastWins` | server/storage.ts:65-69 | two feedbacks on the same id leave the store as the second alone would: the last value wins |
| `Storage.UpsertIdempotent` | server/storage.ts:83-89 | repeating an upsert with the same arguments yields the same id and counters and allocates no new id; with the same timestamp the store is unchanged |
| `Storage.UpsertReplacesCounters` | server/storage.ts:84-86 | a second upsert replaces the first one's counters instead of adding to them, and keeps the record's id |
| `Storage.MemStorage.constructor` | server/storage.ts:26-33 | a fresh store holds the initial state |
| `Storage.MemStorage.GetUser` | server/storage.ts:35-37 | returns the stored user for the id, or nothing |
| `Storage.MemStorage.GetUserByUsername` | server/storage.ts:39-43 | scanning in insertion (ascending id) order, returns the earliest-created user with that name, or nothing when no user has it |
| `Storage.MemStorage.CreateUser` | server/storage.ts:45-50 | performs `CreateUserStep` on the store's fields |
| `Storage.MemStorage.CreateAiQuery` | server/storage.ts:52-62 | performs `CreateAiQueryStep`; the returned id is the old counter and `getAiQuery` on it returns the record just created |
| `Storage.MemStorage.UpdateQueryFeedback` | server/storage.ts:64-72 | performs `UpdateQueryFeedbackStep` on the store's fields |
| `Storage.MemStorage.GetAiQuery` | server/storage.ts:74-76 | answers exactly what the abstract lookup answers |
| `Storage.MemStorage.GetSessionStats` | server/storage.ts:78-80 | answers exactly what the abstract lookup answers |
| `Storage.MemStorage.UpdateSessionStats` | server/storage.ts:82-102 | performs `UpdateSessionStatsStep`; afterwards `getSessionStats` returns the record written |
| `Completion.CreateUltimatePrompt` | server/services/openai.ts:16-39 | the prompt is the fixed instructions followed by `User: ` and the user input verbatim as a suffix |
| `Completion.PromptRoundTrip` | server/services/openai.ts:16-38 | the user input can be read back from the prompt exactly |
| `Completion.PromptInjective` | server/services/openai.ts:16-38 | different inputs give different prompts |
| `Completion.TemperatureFor` | server/services/openai.ts:66 | the temperature is the creative setting (0.8) iff the task is creative, otherwise 0.3 |
| `Completion.RequestFor` | server/services/openai.ts:54-67 | the provider request uses the fixed model id and `max_tokens` 1000, the task's temperature, and a prompt from which the input reads back |
| `Completion.ResponseText` | server/services/openai.ts:69 | the answer is never empty: missing or empty content becomes the fixed apology, other content passes through unchanged |
| `Completion.ClassifyFailure` | server/services/openai.ts:80-94 | errors are classified in order. Status 429 comes first, then 401, then 403, then code `insufficient_quota`. Any other `Error` becomes `AI Service Error: ` plus its message; anything else gets the fixed message |
| `Completion.ApiKeyConfigured` | server/services/openai.ts:43 | a missing key, the empty key and the placeholder key are all rejected; any other key is accepted |
| `Completion.ProcessAIRequest` | server/services/openai.ts:41-96 | a missing, empty or placeholder key fails with the configuration message and sends nothing. Otherwise `RequestFor(req)` is sent. It succeeds iff the provider completed, with a non-empty response under the request's own task type; a provider failure fails with the classified message |
| `Completion.QuotaStatusWins` | server/services/openai.ts:80-88 | with status 429 the quota-exceeded message wins whatever the error code; no failure is absorbed into a canned answer |
| `Completion.StripTag` | server/services/openai.ts:101 | an input without the task's leading tag is returned unchanged. With the tag, exactly the tag and the whitespace after it are removed from the start, and the rest is kept verbatim |
| `Completion.StripTagOfTagged` | server/services/openai.ts:101 | stripping `[task]`, then whitespace, then text gives back exactly the text |
| `Completion.AlternativePrompts` | server/services/openai.ts:99-120 | each task has three alternative prompts, each its template around the input with that task's own tag stripped; an untagged input appears in each verbatim |
| `Routes.HasBracketPrefix` | server/routes.ts:15-16 | the format check holds iff the input's first characters are `[`, the task name and `]`, with no trimming |
| `Routes.LeadingSpaceFailsBracketCheck` | server/routes.ts:15-16 | the server does not trim, so an input with leading whitespace fails the format check |
| `Routes.ChatErrorResponse` | server/routes.ts:40-51 | a schema error is the only 400 and carries its issues; an `Error` is a 500 carrying its message; any other thrown value is a 500 with the fixed message |
| `Routes.FeedbackErrorResponse` | server/routes.ts:70-77 | a schema error is the only 400; anything else is a 500 with the fixed message and no error text |
| `Routes.SuccessRate` | server/routes.ts:95-97 | 0 when the query count is 0 or less; otherwise the integer nearest to 100·helpful/queries, halves rounded up |
| `Routes.SuccessRateInRange` | server/routes.ts:95-97 | with 0 ≤ helpful ≤ queries the success rate lies in 0..100 |
| `Routes.SuccessRateMonotone` | server/routes.ts:118-120 | more helpful answers never lower the success rate |
| `Routes.StatsReplyFor` | server/routes.ts:118-126 | both stats handlers report the counters read with default 0 and the success rate of exactly those values |
| `Routes.GetStatsReply` | server/routes.ts:85-103 | reading stats always answers 200; an unknown session gets all three fields 0, a known one its stored counters and their rate |
| `Routes.PostThenGetStats` | server/routes.ts:114-126 | after a stats update, reading the session's stats gives exactly the reply the update sent |
| `Routes.HandleChat` | server/routes.ts:10-53 | a schema failure or a bracket mismatch answers 400, calls no provider and stores nothing. A service failure answers 500 with its message and stores nothing. A success stores the query and answers 200 with the stored record's id, the response and the task type |
| `Routes.HandleFeedback` | server/routes.ts:56-79 | a schema failure answers 400 and changes nothing; otherwise the store performs the feedback step and the answer is 404 iff the id is unknown, else 200 `{success: true, isHelpful}` echoing the input |
| `Routes.HandleGetStats` | server/routes.ts:82-108 | answers the stats reply of the current store, all zeros for an unknown session |
| `Routes.HandlePostStats` | server/routes.ts:111-131 | stores the given counters as they are. The reply depends only on those counters, so two identical updates give identical replies, and it equals what a later read returns |
| `ClientHook.FeedbackCounts` | client/src/hooks/use-ai-assistant.ts:45-46 | after a successful feedback the query count goes up by exactly 1 and the helpful count by 1 iff the answer was helpful |
| `ClientHook.FeedbackCountsKeepBound` | client/src/hooks/use-ai-assistant.ts:45-46 | 0 ≤ helpful ≤ queries before the update implies it after the update |
| `ClientHook.AfterFeedbacks` | client/src/hooks/use-ai-assistant.ts:45-52 | repeated feedback, with the server's reply cached in between: the query count grows by the number of feedbacks and the helpful count by the number of helpful ones |
| `ClientHook.AfterFeedbacksCounts` | client/src/hooks/use-ai-assistant.ts:45-46 | over any series of feedbacks every feedback adds a query and every helpful one a helpful count, the bound is kept throughout and the rate stays in 0..100 |
| `ClientHook.PostedUpdateRateInRange` | client/src/hooks/use-ai-assistant.ts:45-52 | the counters posted after feedback come back unchanged from the server with a success rate in 0..100 |
| `ClientHook.AssistantHook.constructor` | client/src/hooks/use-ai-assistant.ts:18-19 | a new hook has no response id and no cached stats |
| `ClientHook.AssistantHook.ExposedStats` | client/src/hooks/use-ai-assistant.ts:79 | the exposed stats are the cached ones, or all zeros when none are loaded |
| `ClientHook.AssistantHook.StatsLoaded` | client/src/hooks/use-ai-assistant.ts:61-64 | the stats query's reply becomes the cached stats |
| `ClientHook.AssistantHook.OnChatSuccess` | client/src/hooks/use-ai-assistant.ts:28-29 | after a chat succeeds the returned id is the current response id |
| `ClientHook.AssistantHook.SubmitFeedback` | client/src/hooks/use-ai-assistant.ts:70-74 | nothing is sent while the response id is unset; otherwise the feedback names that id and the given rating |
| `ClientHook.AssistantHook.OnFeedbackSuccess` | client/src/hooks/use-ai-assistant.ts:41-52 | no stats update is posted without cached stats; otherwise the posted counters are the feedback update of the cached ones |
| `ClientComponent.ValidateSubmission` | client/src/components/ai-assistant.tsx:49-72 | all-whitespace input is rejected as empty. A trimmed input not starting with `[currentTask]` is rejected as misformatted. Otherwise the trimmed input is submitted with the current task |
| `ClientComponent.ClientAcceptedServerAccepts` | client/src/components/ai-assistant.tsx:72 | anything the client submits for an enumerated task passes the server's schema and its bracket check unchanged |
| `ClientComponent.ExtractLeadingTask` | client/src/components/ai-assistant.tsx:92-95 | an extracted task is a non-empty run of word characters that the example starts with in brackets |
| `ClientComponent.ExtractLeadingTaskComplete` | client/src/components/ai-assistant.tsx:92-95 | whenever an example starts with `[w]` for a word `w`, exactly `w` is extracted |
| `ClientComponent.ExtractTaggedExample` | client/src/components/ai-assistant.tsx:92-95 | an example tagged with a task's own name selects that task |
| `ClientComponent.QuestionExampleHasNoTag` | client/src/components/sidebar.tsx:15 | the sidebar's question example has no tag, so clicking it keeps the current task |
| `ClientComponent.AssistantComponent.constructor` | client/src/components/ai-assistant.tsx:19-21 | the component starts on the question task with empty input and count 0 |
| `ClientComponent.AssistantComponent.ChangeInput` | client/src/components/ai-assistant.tsx:34-36 | typed text becomes the input and the count follows its length |
| `ClientComponent.AssistantComponent.ChangeTask` | client/src/components/ai-assistant.tsx:126 | choosing a task (one of the task-type ids, a `\w+` word) changes only the current task and keeps the component's invariant |
| `ClientComponent.AssistantComponent.HandleSubmit` | client/src/components/ai-assistant.tsx:48-80 | the decision is the submission check of the current input and task; what is submitted is the trimmed input |
| `ClientComponent.AssistantComponent.HandleClear` | client/src/components/ai-assistant.tsx:82-85 | clearing resets the input to empty and the count to 0, keeping the task and the count in step with the input |
| `ClientComponent.AssistantComponent.HandleExampleClick` | client/src/components/ai-assistant.tsx:87-96 | the example becomes the input with its count; a leading `[w]` sets the task to `w`, otherwise the task is unchanged |

## Left out

- HTTP routing, server creation, JSON encoding and console logging. The handlers are methods that take a parsed body and return a status and a body.
- The OpenAI client, the awaited HTTP call and its 30-second timeout. The provider's answer is the `outcome` parameter. An error thrown while building the client is not modelled separately; it would reach the same classification.
- Floating point: temperatures are integers in hundredths (80 and 30), not reals.
- Routes.SuccessRate: uses exact arithmetic. JavaScript's floating-point `(h / q) * 100` can land on the other side of an exact .5 boundary and round differently: for 29 helpful out of 200, the double product is 14.499999999999998 and rounds to 14, where the exact value 14.5 rounds to 15.
- Nondeterminism: `new Date()` timestamps are the `now` parameter, and the random session id is a parameter.
- Aliasing: records are values inside the maps. In the source, a record returned earlier is the same object that later feedback or a stats upsert changes in place; the model does not capture that sharing.
- Schema issue details keep only the field and the kind of problem, not zod's exact message texts.
- JSON numbers are integers in the model. A fractional feedback `id` passes the schema and is then never found; that case is not modelled.
- Routes.HandlePostStats: the body of a stats update is unvalidated in the source. The model takes each counter as a number or null/absent and does not cover strings or other JSON values.
- The 500 branches of the two stats handlers and the feedback handler's non-schema branch are unreachable, because the store never throws. `FeedbackErrorResponse` states the mapping; the handlers do not exercise it.
- The `insertAiQuerySchema` and `insertUserSchema` validators are never invoked at runtime. The model keeps only the columns they pick, as `InsertAiQuery` and `InsertUser`, and the store supplies the rest.
- React rendering, toasts, `useEffect` scheduling and the textarea's `maxLength`.
- react-query caching and invalidation, and the un-awaited stats update racing with the refetch. `StatsLoaded` stands for a completed fetch.
- JavaScript strings may hold lone UTF-16 surrogates; Dafny strings are sequences of Unicode scalar values.
- The regular-expression engine. Both patterns are modelled as the literal tests they amount to.
- The page, sidebar, task-selector and response-display components are markup and static data. Only the sidebar's question example text is used.
