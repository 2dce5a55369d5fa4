# Claude Assistant for Spira, modelled in Dafny

Claude Assistant is a SpiraApp: a browser extension of the Spira
project-management platform. On four artifact pages it asks Anthropic's
Messages API to generate content, then creates that content in Spira through
the host's REST API:

- test steps for a test case;
- test cases for a requirement;
- mitigations for a risk;
- a source-code file, optionally followed by a unit-test file, for a task.

Each page keeps a `localState` record: a single-flight `running` flag, the
`action`, a token tally and a countdown of pending create requests. Its
functions are callbacks that the host invokes one at a time. The repository
has two copies of most screens:

- the module copies (`modules/*.js`), written for the Jest tests;
- the browser copies (top-level `*.js`), each with its own variations.

There is also a draft task screen (`tmp.js`) that bundles the shared browser
helpers and adds a lenient reader for generations that do not parse.

## How each part is modelled

Each source file becomes one Dafny module:

- `modules/common-module.js`: `CommonModule`
- `common.js`: `Common`
- `modules/claudeAssistant-module.js`: `AssistantModule`
- `claudeAssistant.js`: `Assistant`
- `modules/testCaseDetails-module.js`: `TestCaseDetailsModule`
- `testCaseDetails.js`: `TestCaseDetails`
- `modules/requirementDetails-module.js`: `RequirementDetailsModule`
- `requirementDetails.js`: `RequirementDetails`
- `modules/riskDetails-module.js`: `RiskDetailsModule`
- `riskDetails.js`: `RiskDetails`
- `modules/taskDetails-module.js`: `TaskDetailsModule`
- `taskDetails.js`: `TaskDetails`
- `tmp.js`: `TaskDraft`

Supporting modules:

- `Js`: JSON values, truthiness, property reads that throw, string conversion.
- `Text`: `indexOf`, `split`, `trim`, `replace`.
- `Fences`: the fence-stripping regexes.
- `Spira`: the host context, and the host calls recorded as events.
- `Constants`: the texts of `constants.js`, plus `UNIT_TEST_CODE` from the browser task screen's own table (taskDetails.js:13).
- `Prompts`: prompt composition and placeholder filling.
- `Options`: the option lists and the `tested with` split.
- `Responses`: the response classifications of the screens that do not use the shared handler.
- `FanOut`: the create-request loops and their countdown.
- `Extractor`: the lenient reader of `tmp.js`.
- `Base64`: UTF-8 followed by base64, as in section 4 of RFC 4648.

Each page is a `class Screen`:

- Its fields are the page's `localState` fields, plus a `log: seq<Event>` of the host calls it has made (requests, dialogs, messages).
- Each JavaScript callback is a method with `modifies this`.
- Each method's `ensures` gives the whole new state and the events appended, in terms of pure functions of the inputs.
- Lemmas about those functions state what the source promises:
  - how many requests are issued;
  - when the countdown can reach zero;
  - how the copies differ from each other;
  - the round trips of the option parser, the lenient reader and base64.

JavaScript behaviour is written out where the code depends on it:

- A property read on `undefined` or `null` throws. Such a throw is a `Threw` or `Throws` value.
- A throw inside a `try` block is caught, and the model follows the `catch` path.
- A throw with nowhere to go ends the callback. The model keeps the state at that point.
- `!!v` is `Js.Truthy`.
- `'' + v` is `Js.ToString`.
- `x == 0` on strings uses the numeric reading, `Js.LooselyZero`.
- `replace` with a string pattern changes only its first occurrence. With a `/g` regex over a literal it changes every occurrence.

Where the copies disagree, each copy is modelled as written. Lemmas then
relate the copies:

- `Common.BareBlockKeepsNewline`
- `Assistant.PageCheckIsWeaker`
- `TestCaseDetails.SetPromptGlued`
- `RequirementDetails.StoresMoreThanModule`
- `TaskDraft.SystemPromptLikeModule`

## Model

| member | source | states |
|---|---|---|
| CommonModule.CleanJson | modules/common-module.js:7-11 | a falsy argument gives `""`; a truthy non-string throws; otherwise the result holds no triple backtick |
| CommonModule.CleanJsonKeepsPlain | modules/common-module.js:10 | text without backticks is returned unchanged |
| CommonModule.CleanJsonIdempotent | modules/common-module.js:10 | cleaning a cleaned text changes nothing, because the replace is global |
| CommonModule.CleanJsonTaggedBlock | modules/common-module.js:10 | a ```` ```json ```` block loses both fences and the newline after the opening one; an unclosed block or a bare closing fence loses just its fence (the test vectors) |
| CommonModule.CleanJsonBareBlock | modules/common-module.js:10 | an untagged block is cleaned like a tagged one, newline included |
| CommonModule.CleanJsonProse | modules/common-module.js:10 | prose before and after a block is kept |
| CommonModule.CleanJsonBlocks | modules/common-module.js:10 | in several blocks, every fence line goes (the nested-markdown test vector) |
| CommonModule.RegexSource | modules/common-module.js:13-19 | the flags hold no `/`, and the pattern and flags are shorter than the input whenever it has a slash |
| CommonModule.RegexSourceRoundTrip | modules/common-module.js:14-15 | `/p/f` is split back into pattern `p` and flags `f` when `f` has no slash, however many slashes `p` holds |
| CommonModule.RegexSourceNoSlash | modules/common-module.js:14-15 | with no slash, the flags are the whole string and the pattern drops its first and last characters |
| CommonModule.Bracketed | modules/common-module.js:30 | the error text ends with `]` |
| CommonModule.FailureMessage | modules/common-module.js:21-45 | the handler throws exactly when the response is `undefined` or `null` |
| CommonModule.FailureEvents | modules/common-module.js:21-45 | at most one host call is made, and it is an error message |
| CommonModule.FailureMessageClassified | modules/common-module.js:25-44 | for every object response exactly one message is shown; it ends with a bracketed code exactly for a host or a Claude error, and is otherwise `UNKNOWN_ERROR` (or `Unknown error` without a messages table) |
| CommonModule.MessagesTableOnlyForUnknown | modules/common-module.js:42 | the messages table changes the message only for unrecognised responses |
| CommonModule.FailureFromHost | modules/common-module.js:25-31 | `{message, exceptionType: n}` shows `Claude Assistant: message [n]` (first scenario of the tests) |
| CommonModule.FailureFromClaude | modules/common-module.js:32-39 | `{error: {message, code}}` shows `... [code]` whatever other fields `error` has |
| CommonModule.FailureUnrecognised | modules/common-module.js:40-44 | an object with neither `message` nor `error` gets the generic message |
| CommonModule.FailureZeroType | modules/common-module.js:25 | an `exceptionType` that is loosely 0 (such as `" 0 "`) is not a host error |
| CommonModule.PaddedZero | modules/common-module.js:25 | the text `" 0 "` is loosely equal to 0 |
| CommonModule.InvalidContent | modules/common-module.js:88 | `customMessage` or `INVALID_CONTENT` is never empty |
| CommonModule.ErrorDetail | modules/common-module.js:64-74 | the message differs from `statusDescription` only when the body parses and carries a truthy `error.message` |
| CommonModule.StatusMessageUnknown | modules/common-module.js:76-81 | a falsy message or a zero status code shows `UNKNOWN_ERROR` |
| CommonModule.EnvelopeText | modules/common-module.js:98 | a text is read out of the envelope only when it is truthy |
| CommonModule.EnvelopeTextFound | modules/common-module.js:98-111 | a non-empty `content[0].text` is found, whatever follows it |
| CommonModule.EnvelopeTextRefused | modules/common-module.js:98 | an envelope without a list of content blocks is refused |
| CommonModule.ApiVerdict | modules/common-module.js:54-120 | an accepted response always hands on a truthy text |
| CommonModule.ApiVerdictAccepts | modules/common-module.js:94-114 | a response is accepted exactly when it is present, has status 200, has a body that parses, and carries a truthy `content[0].text`; the text handed on is that field |
| CommonModule.ApiVerdictRejects | modules/common-module.js:55-103 | the four refusals and their messages: `NO_RESPONSE`; the status message; the custom or `INVALID_CONTENT` message for a missing body; the same for a missing text |
| CommonModule.StatusMessageFromBody | modules/common-module.js:62-77 | a non-200 response whose body carries `error.message` shows that message with the status code |
| CommonModule.Session.OperationFailure | modules/common-module.js:21-45 | `running` is cleared and at most one error is shown |
| CommonModule.Session.ProcessApiResponse | modules/common-module.js:54-120 | a refusal shows its message and clears `running`; an acceptance adds `usage.total_tokens` to the tally, keeps `running` and hands the text to the dispatcher |
| Common.CleanJson | common.js:14-17 | the browser cleaner returns a value exactly for strings (no null guard), and the value holds no triple backtick |
| Common.CleanJsonIdempotent | common.js:16 | cleaning a cleaned text changes nothing |
| Common.MissingArgument | common.js:14-17 | `undefined` and `null` throw here but give `""` in the module copy |
| Common.TaggedBlockAgrees | common.js:16 | both cleaners agree on a ```` ```json ```` block |
| Common.BareBlockKeepsNewline | common.js:16 | on an untagged block this cleaner keeps the newline after the fence and the module one deletes it |
| Common.RegexSourceSplitsAtLastSlash | common.js:4-11 | the flags start right after the last `/` of the input and hold no `/` |
| Common.OneFailureMessage | common.js:20-42 | the page handler shows exactly the module handler's one message, with `UNKNOWN_ERROR` for unrecognised responses |
| AssistantModule.VerifyRequiredSettings | modules/claudeAssistant-module.js:7-22 | it passes exactly when settings exist with a non-empty `api_key`; with no settings it shows `MISSING_SETTINGS`, otherwise the `API Key` message |
| AssistantModule.Model | modules/claudeAssistant-module.js:26-30 | `settings.model` when set, otherwise `claude-3-sonnet-20240229` |
| AssistantModule.Temperature | modules/claudeAssistant-module.js:33-39 | the parsed setting is used only when the setting is present |
| AssistantModule.DigitRun | modules/claudeAssistant-module.js:37 | the leading digits that `parseFloat` reads |
| AssistantModule.DigitLead | modules/claudeAssistant-module.js:37 | text starting with a digit parses truthy exactly when its mantissa has a non-zero digit |
| AssistantModule.ZeroTextFalsy | modules/claudeAssistant-module.js:37 | zeros, optionally with a point and more zeros, parse to 0 |
| AssistantModule.ZeroTemperatureKeepsDefault | modules/claudeAssistant-module.js:33-39 | a temperature such as `0` or `0.00` keeps 0.2 |
| AssistantModule.NonZeroTemperatureUsed | modules/claudeAssistant-module.js:33-39 | a temperature starting with a non-zero digit is used |
| AssistantModule.Headers | modules/claudeAssistant-module.js:59-65 | five headers, the last `x-api-key` with the given placeholder |
| AssistantModule.ApiRequest | modules/claudeAssistant-module.js:24-80 | one POST to `https://api.anthropic.com/v1/messages` with the caller's callbacks, `max_tokens` 4096, no `system` field and the `${anthropicKey}` headers |
| AssistantModule.ApiRequestCarriesPrompts | modules/claudeAssistant-module.js:46-55 | the messages are exactly `[system, user]` in that order, and the model and temperature are those of the settings |
| Assistant.ConfigDefaults | claudeAssistant.js:64-68 | `claudeConfig` holds the module's model and token limit |
| Assistant.VerifyOutcomes | claudeAssistant.js:4-17 | no settings shows `MISSING_SETTINGS`; settings without `api_key` show the `API Key` message; otherwise it passes silently |
| Assistant.ApiRequest | claudeAssistant.js:20-62 | one POST to the messages URL with the caller's callbacks and the `${api_key}` placeholder |
| Assistant.SameRequestAsModule | claudeAssistant.js:36-61 | the request equals the module's except for the key placeholder |
| Assistant.PageVerifySettings | requirementDetails.js:52-68 | the page copies pass exactly when settings exist, and otherwise show `MISSING_SETTINGS` |
| Assistant.PageCheckIsWeaker | testCaseDetails.js:32-48 | every settings record the module check passes, the page check passes too; empty settings pass only the page check |
| Assistant.PageApiRequest | requirementDetails.js:70-132 | the page copies' request: one user message and a `system` field, with the `${anthropicKey}` headers |
| Assistant.BodyShapesAgree | taskDetails.js:62-124 | both body shapes carry the same prompts, model, temperature and token limit |
| Responses.ParseContent | modules/testCaseDetails-module.js:107 | an absent content never parses |
| Responses.LooseAgreesOn200 | modules/testCaseDetails-module.js:101-131 | on a 200 response (and with the empty body never parsing) the handler without a status check decides as the shared handler does |
| Responses.LooseIgnoresStatus | modules/taskDetails-module.js:259-289 | the status code never matters to that handler, which accepts exactly when the body parses to an envelope with a truthy text |
| Responses.LooseAcceptsErrorStatus | modules/requirementDetails-module.js:157-194 | an error status that handler accepts is refused by the shared handler |
| Responses.PageText | riskDetails.js:150-172 | the page copies read the same text as the shared envelope check whenever that check finds one |
| Responses.PageAgreesWithShared | requirementDetails.js:254-324 | the shared handler accepts exactly when the page classification hands on a truthy text, and then the same text; each page refusal is the shared refusal; a falsy text it hands on is one the shared handler refuses with `INVALID_CONTENT` |
| Responses.PageTextFalsy | testCaseDetails.js:230-294 | a falsy text that the page copies read is one the shared check refuses |
| Responses.ContentCheckRedundant | tmp.js:185-242 | when the empty body never parses, leaving out the missing-content check changes no outcome |
| Prompts.SeparatorPlacement | testCaseDetails.js:192-209 | with the built-in text, gluing the base prompt to a space-led prompt equals joining with a space; with a setting it differs by the missing space |
| Prompts.UserPrompt | modules/testCaseDetails-module.js:80-85 | the prompt starts with the artifact name, and is longer than the name exactly when descriptions are on |
| Prompts.DescriptionChecks | requirementDetails.js:231-233 | `=== 'True'` implies a truthy setting, but `'False'` is truthy too |
| Prompts.ModuleCodeFilled | modules/taskDetails-module.js:232-233 | the code template with the language in its place |
| Prompts.ModuleCodeWithTestsFilled | modules/taskDetails-module.js:228-230 | the test template with the language in both places and the framework in its place |
| Prompts.BrowserCodeFilled | taskDetails.js:290-309 | the browser code template with the language filled in |
| Prompts.BrowserCodeWithTestsFilled | taskDetails.js:290-309 | the browser test template with the language and the framework filled in |
| Prompts.DraftMatchesModule | tmp.js:155-160 | the draft screen's concatenated prompt is a space and then the filled-in module template |
| Options.LanguageOptions | modules/taskDetails-module.js:58-68 | one option per comma-separated entry |
| Options.FrameworkOptions | modules/taskDetails-module.js:137-147 | one option per comma-separated entry |
| Options.UntrimmedOptionsJoin | taskDetails.js:186 | untrimmed options hold no comma, and joined with commas they give back the list |
| Options.ParseChoice | modules/taskDetails-module.js:162-181 | an accepted selection gives a non-empty, trimmed language and framework |
| Options.ChoiceNeedsSeparator | modules/taskDetails-module.js:169-173 | a selection without `tested with` is refused |
| Options.ChoiceRoundTrip | tmp.js:108-115 | a separator-free language and framework joined by ` tested with ` are read back, whatever padding precedes them |
| Options.EntryRoundTrip | taskDetails.js:242-258 | an untrimmed `language|framework` option is read back as its pair |
| Options.TrimmedEntryRoundTrip | modules/taskDetails-module.js:147 | the trimmed option is read back as the same pair |
| Options.UnpaddedChoiceRoundTrip | modules/taskDetails-module.js:169-181 | `language tested with framework` is read back as its pair |
| Options.EntryOption | modules/taskDetails-module.js:147 | an entry whose first bar follows bar-free text spells out ` tested with ` there |
| FanOut.FirstNull | modules/riskDetails-module.js:205-222 | the position of the first `null` item (where reading a field throws), or the length when there is none |
| FanOut.Issued | modules/testCaseDetails-module.js:143-169 | the loop never issues more requests than items before the first `null` |
| FanOut.PostsAreSelected | modules/testCaseDetails-module.js:143-169 | a request is issued exactly when some visited item calls for it |
| FanOut.SkippedItemMeansFewer | modules/testCaseDetails-module.js:140-169 | a skipped item means fewer requests than items |
| FanOut.Issue | modules/riskDetails-module.js:205-222 | the loop method issues exactly `Issued`, and reports the throw exactly when a `null` item is met |
| FanOut.ItemsOf | modules/riskDetails-module.js:185-189 | the item list exists exactly when the field is a truthy array |
| FanOut.Decrement | modules/riskDetails-module.js:234 | a set count goes down by one; an unset one stays unset (`NaN`) |
| FanOut.Countdown | modules/riskDetails-module.js:233-245 | `k` success callbacks lower a set count by `k`, and an unset count stays unset |
| FanOut.CompletesOnlyWhenAllIssued | modules/riskDetails-module.js:191-245 | counting the full length, completion is reached exactly when every item got a request |
| FanOut.AllIssued | modules/riskDetails-module.js:205-222 | the first `n` items all got requests exactly when `n` requests were issued |
| FanOut.PostsPrefix | modules/testCaseDetails-module.js:143-169 | the requests issued by the first iterations are a prefix of those issued later |
| TestCaseDetailsModule.StepRequest | modules/testCaseDetails-module.js:143-169 | a POST to the test-step URL exactly for a step with truthy `Description` and `ExpectedResult`, carrying its description at position index + 1 |
| TestCaseDetailsModule.StepItemsNeedArray | modules/testCaseDetails-module.js:133-141 | steps are read exactly when the parsed object has a `TestSteps` array |
| TestCaseDetailsModule.ChoiceEvents | modules/testCaseDetails-module.js:143-182 | the POSTs issued come first, then one error when a `null` step ended the loop |
| TestCaseDetailsModule.StepsIssued | modules/testCaseDetails-module.js:143-169 | a step POST is issued exactly for a usable step before the first `null` |
| TestCaseDetailsModule.UnusableStepNeverCompletes | modules/testCaseDetails-module.js:140 | one unusable step keeps the countdown from reaching 0 |
| TestCaseDetailsModule.CompletionEvents | modules/testCaseDetails-module.js:185-197 | completion reloads the form and shows success, and reloads the grid exactly when its id is set |
| TestCaseDetailsModule.Screen.GenerateTestSteps | modules/testCaseDetails-module.js:12-55 | settings, then busy, then permission; only a permitted run rewrites the state and GETs the test case |
| TestCaseDetailsModule.Screen.GetTestCaseDataSuccess | modules/testCaseDetails-module.js:57-99 | a truthy test case is stored and the step prompt sent; otherwise `EMPTY_TEST_CASE` and `running` cleared |
| TestCaseDetailsModule.Screen.GenerateTestStepsFromChoice | modules/testCaseDetails-module.js:133-183 | the count is the full length and the log gains `ChoiceEvents`; `running` survives only when no `null` step ended the loop; unreadable steps show the error and clear `running` |
| TestCaseDetailsModule.Screen.ProcessTestStepResponse | modules/testCaseDetails-module.js:101-131 | no status check; a refusal shows its message and clears `running`, keeping the count and the token tally; an accepted text adds its tokens and goes to the step reader |
| TestCaseDetailsModule.Screen.GenerateTestStepsFromChoiceSuccess | modules/testCaseDetails-module.js:185-197 | the count goes down; only at 0 are completion shown and `running` cleared |
| TestCaseDetailsModule.Screen.ClaudeOperationFailure | modules/common-module.js:21-45 | `running` is cleared and at most one error shown, the rest of the state kept |
| TestCaseDetails.SameDefaultPrompt | testCaseDetails.js:192-200 | with no step prompt set, this copy sends the module copy's system prompt |
| TestCaseDetails.SetPromptGlued | testCaseDetails.js:192-200 | a step prompt that is set is glued to the base here and follows a space in the module copy |
| TestCaseDetails.ResponseMessage | testCaseDetails.js:230-294 | the refusal message of the classification, and `INVALID_CONTENT` for an accepted answer |
| TestCaseDetails.AcceptedAnswerRefused | testCaseDetails.js:296-343 | even an answer the shared handler accepts ends with `INVALID_CONTENT`, since the dispatch calls an undefined function |
| TestCaseDetails.Screen.GenerateTestSteps | testCaseDetails.js:138-182 | this copy's settings check, then busy, then permission; a permitted run GETs the test case, a denied one clears `running` |
| TestCaseDetails.Screen.GetTestCaseDataSuccess | testCaseDetails.js:184-228 | a truthy test case gets this copy's prompt and request; otherwise `EMPTY_TEST_CASE` |
| TestCaseDetails.Screen.ProcessTestStepResponse | testCaseDetails.js:230-294 | every response shows one error and clears `running` |
| TestCaseDetails.Screen.GenerateTestStepsFromChoiceSuccess | testCaseDetails.js:345-362 | the count goes down and `running` is cleared on every call; completion only at 0 |
| TestCaseDetails.Screen.ClaudeOperationFailure | testCaseDetails.js:116-135 | `running` is cleared and at most one error shown |
| RequirementDetailsModule.StopAt | modules/requirementDetails-module.js:105-121 | the loop stops at the first `null` entry or the first matching type |
| RequirementDetailsModule.SupportedByFirstMatch | modules/requirementDetails-module.js:105-121 | steps are supported exactly when the first matching type has a truthy `IsSteps` |
| RequirementDetailsModule.SupportsSteps | modules/requirementDetails-module.js:105-121 | the `for` loop computes `StepsSupport` |
| RequirementDetailsModule.RequirementSystemPrompt | modules/requirementDetails-module.js:93-133 | the base prompt and a space come first; test cases add the test-case prompt; actions other than test cases and BDD steps get nothing more |
| RequirementDetailsModule.CaseRequest | modules/requirementDetails-module.js:213-230 | a POST to the test-case URL exactly for an item with a truthy `Description`, named after it, with status 1 |
| RequirementDetailsModule.StoredKeys | modules/requirementDetails-module.js:205-225 | a context is stored exactly under the descriptions of the described items visited |
| RequirementDetailsModule.StoredLast | modules/requirementDetails-module.js:205-225 | of items sharing a description, the last one's context is kept |
| RequirementDetailsModule.CasesIssued | modules/requirementDetails-module.js:202-247 | a test case is created exactly for each described item before the first `null` |
| RequirementDetailsModule.UndescribedCaseNeverCompletes | modules/requirementDetails-module.js:203 | one item without a description keeps the count from reaching 0 |
| RequirementDetailsModule.CreatedCaseFindsContext | modules/requirementDetails-module.js:250-295 | the test case created for an item finds that item's context |
| RequirementDetailsModule.Screen.Begin | modules/requirementDetails-module.js:12-34 | settings, then the busy warning naming test cases, then a fresh `{action, running: true}` |
| RequirementDetailsModule.Screen.GenerateTestCases | modules/requirementDetails-module.js:12-56 | the guard, then a GET of the requirement, or the permission error with `running` cleared |
| RequirementDetailsModule.Screen.GenerateTasks | modules/requirementDetails-module.js:314-358 | the guard, then the fresh state of the action and no request, as the undefined permission variable throws |
| RequirementDetailsModule.Screen.GenerateSteps | modules/requirementDetails-module.js:360-404 | the guard, then the fresh state of the action and no request, as the same throw ends it |
| RequirementDetailsModule.Screen.GenerateRisks | modules/requirementDetails-module.js:406-450 | the guard, then the fresh state of the action and no request, as the same throw ends it |
| RequirementDetailsModule.Screen.GetRequirementDataSuccess | modules/requirementDetails-module.js:58-79 | a truthy requirement is stored and its types fetched; otherwise `EMPTY_REQUIREMENT` |
| RequirementDetailsModule.Screen.GetRequirementTypesSuccess | modules/requirementDetails-module.js:81-155 | missing types or requirement give `NO_REQUIREMENT_TYPES`; for BDD steps a type without steps gives `REQUIREMENT_NOT_STEPS` and a `null` entry throws; otherwise the prompt is sent |
| RequirementDetailsModule.Screen.CreateCases | modules/requirementDetails-module.js:205-247 | the loop stores the contexts of `Stored` and issues exactly `Issued` |
| RequirementDetailsModule.Screen.GenerateTestCasesFromChoice | modules/requirementDetails-module.js:196-248 | the count is the full length; invalid JSON or no array shows the error and clears `running` |
| RequirementDetailsModule.Screen.ProcessResponse | modules/requirementDetails-module.js:157-194 | no status check; the three unimplemented actions dispatch nothing and keep `running`; other unknown actions clear it |
| RequirementDetailsModule.Screen.GenerateTestCasesFromChoiceSuccess | modules/requirementDetails-module.js:250-295 | the link POST always, and a step POST only when a context is stored under the name |
| RequirementDetailsModule.Screen.GenerateTestCasesFromChoiceSuccess2 | modules/requirementDetails-module.js:297-306 | the count goes down, completion at exactly 0, `running` cleared every time |
| RequirementDetailsModule.Screen.GenerateTestCasesFromChoiceSuccess3 | modules/requirementDetails-module.js:308-311 | only `running` is cleared |
| RequirementDetailsModule.Screen.ClaudeOperationFailure | modules/common-module.js:21-45 | `running` is cleared and at most one error shown |
| RequirementDetails.SameDefaultPrompt | requirementDetails.js:217-227 | with no prompt set, this copy's glued prompt equals the module's spaced one |
| RequirementDetails.StoredAllKeys | requirementDetails.js:351-391 | a context is stored under the description text of every visited item, described or not |
| RequirementDetails.UndescribedStoredAsUndefined | requirementDetails.js:351-391 | an item without a description is stored under `undefined` |
| RequirementDetails.StoresMoreThanModule | requirementDetails.js:351-391 | every key the module copy stores, this copy stores too |
| RequirementDetails.Screen.TestClaudeConnection | requirementDetails.js:135-158 | one fixed request, with the state untouched |
| RequirementDetails.Screen.ConnectionSucceeded | requirementDetails.js:146-152 | success for a response with content, an error otherwise |
| RequirementDetails.Screen.ConnectionFailed | requirementDetails.js:153-156 | the error converted to text after the fixed prefix |
| RequirementDetails.Screen.GenerateTestCases | requirementDetails.js:163-207 | the state is written before the permission check, and a denial clears `running` with no GET |
| RequirementDetails.Screen.GetRequirementDataSuccess | requirementDetails.js:209-252 | a truthy requirement is stored and the completion request sent at once, with no type lookup; otherwise `EMPTY_REQUIREMENT` |
| RequirementDetails.Screen.CreateCases | requirementDetails.js:351-391 | contexts under every description, POSTs only for the described items |
| RequirementDetails.Screen.GenerateTestCasesFromChoice | requirementDetails.js:326-400 | falsy text does nothing; a non-string throws; unreadable test cases show the error and leave `running` set; otherwise contexts under every description and POSTs for the described items |
| RequirementDetails.Screen.ProcessResponse | requirementDetails.js:254-324 | the page classification clears `running` on each refusal; only `generateTestCases` dispatches |
| RequirementDetails.Screen.GenerateTestCasesFromChoiceSuccess | requirementDetails.js:402-455 | as in the module copy |
| RequirementDetails.Screen.GenerateTestCasesFromChoiceSuccess2 | requirementDetails.js:457-468 | the count goes down, completion at 0, `running` cleared every time |
| RequirementDetails.Screen.GenerateTestCasesFromChoiceSuccess3 | requirementDetails.js:470-474 | only `running` is cleared |
| RequirementDetails.Screen.ClaudeOperationFailure | requirementDetails.js:30-49 | `running` is cleared and at most one error shown |
| RiskDetailsModule.RiskSystemPrompt | modules/riskDetails-module.js:63-91 | the base prompt and a space come first; the default is the built-in mitigation prompt |
| RiskDetailsModule.UnknownAction | modules/riskDetails-module.js:101-104 | the fixed text followed by the action, `undefined` when unset |
| RiskDetailsModule.MitigationRequest | modules/riskDetails-module.js:191-222 | a POST to the risk's mitigations exactly for an item with a truthy `Description`, with `RiskId`, `Description` and `CreationDate` |
| RiskDetailsModule.ReadMitigations | modules/riskDetails-module.js:174-231 | the reader throws exactly when the cleaner throws |
| RiskDetailsModule.MitigationsIssued | modules/riskDetails-module.js:191-222 | a mitigation is created exactly for each described item before the first `null` |
| RiskDetailsModule.UndescribedMitigationNeverCompletes | modules/riskDetails-module.js:191 | one undescribed item keeps the success from ever being shown |
| RiskDetailsModule.Screen.GenerateMitigations | modules/riskDetails-module.js:12-55 | settings, busy warning naming mitigations, fresh state, then a GET of the risk or the permission error |
| RiskDetailsModule.Screen.GetRiskDataSuccess | modules/riskDetails-module.js:57-105 | `EMPTY_RISK` for a falsy risk; an unknown action shows its message and clears `running`; otherwise the prompt is sent |
| RiskDetailsModule.Screen.GenerateMitigationsFromChoice | modules/riskDetails-module.js:174-231 | the count is the full length and the POSTs are `Issued`; unreadable mitigations show the error and clear `running` |
| RiskDetailsModule.Screen.ProcessResponse | modules/riskDetails-module.js:107-172 | the shared classification; a throw while creating shows `INVALID_CONTENT` |
| RiskDetailsModule.Screen.GenerateMitigationsFromChoiceSuccess | modules/riskDetails-module.js:233-245 | the count goes down, completion at 0, `running` cleared every time |
| RiskDetailsModule.Screen.ClaudeOperationFailure | modules/common-module.js:21-45 | `running` is cleared and at most one error shown |
| RiskDetails.ReadsLikeModule | riskDetails.js:187-242 | on a ```` ```json ```` block, or on a non-string, both copies read the same items |
| RiskDetails.Screen.GenerateMitigations | riskDetails.js:24-59 | the bundle's settings check, the busy warning, the state, then the permission |
| RiskDetails.Screen.GetRiskDataSuccess | riskDetails.js:61-113 | as the module copy, except that without settings the unguarded settings read throws after the risk is stored |
| RiskDetails.Screen.GenerateMitigationsFromChoice | riskDetails.js:187-242 | as the module copy, with the browser cleaner |
| RiskDetails.Screen.ProcessResponse | riskDetails.js:115-185 | the same classification and dispatch as the module copy |
| RiskDetails.Screen.GenerateMitigationsFromChoiceSuccess | riskDetails.js:244-254 | the count goes down, completion at 0, `running` cleared every time |
| RiskDetails.Screen.ClaudeOperationFailure | common.js:20-42 | `running` is cleared and at most one error shown |
| TaskDetailsModule.Refusal | modules/taskDetails-module.js:36-55 | settings first, then the busy warning naming source code, then the permission error; none of them writes the state |
| TaskDetailsModule.LanguageDialog | modules/taskDetails-module.js:58-81 | the dialog over the options, or the warning for an empty list |
| TaskDetailsModule.FrameworkDialog | modules/taskDetails-module.js:137-160 | the framework dialog, or its warning |
| TaskDetailsModule.ListDialog | modules/taskDetails-module.js:67-81 | a falsy list shows the warning, a string list gives the dialog over its trimmed options, any other list throws before a dialog |
| TaskDetailsModule.ListsNeverEmpty | modules/taskDetails-module.js:58-65 | the list is falsy exactly when no list is configured and `global.selectLists` is present without the entry; without `global.selectLists` the built-in literal is offered |
| TaskDetailsModule.SettingWins | modules/taskDetails-module.js:61-65 | a configured list is used over `global.selectLists` and the literal, and always gives a dialog |
| TaskDetailsModule.UnknownAction | modules/taskDetails-module.js:237 | the task screens' own prefix followed by the action |
| TaskDetailsModule.FileOf | modules/taskDetails-module.js:300 | a file exactly when `Filename` and `Code` are both truthy |
| TaskDetailsModule.DocumentRequest | modules/taskDetails-module.js:301-326 | one POST to `documents/file` attached to the task (type 6) as version 1.0 |
| TaskDetailsModule.DocumentCarriesCode | modules/taskDetails-module.js:21-30 | the uploaded `BinaryData` decodes back to the UTF-8 bytes of the code |
| TaskDetailsModule.GeneratedFile | modules/taskDetails-module.js:291-333 | a truthy non-string gives no file, and any file is the one the parsed cleaned text holds |
| TaskDetailsModule.Screen.GenerateCode | modules/taskDetails-module.js:33-81 | a refusal shows its message and changes nothing; otherwise the outcome of the list chosen from the setting, `global.selectLists.SOURCE_CODE_LANGUAGES` or the literal |
| TaskDetailsModule.Screen.GenerateCodeSuccess | modules/taskDetails-module.js:83-110 | a falsy selection warns; otherwise the exact fresh state with the trimmed language and a GET of the task |
| TaskDetailsModule.Screen.GenerateCodeWithTests | modules/taskDetails-module.js:112-160 | the checks, then the outcome of the list chosen from the setting, `global.selectLists.SOURCE_CODE_LANGUAGES_WITH_TESTS` or the literal |
| TaskDetailsModule.Screen.GenerateCodeWithTestsSuccess | modules/taskDetails-module.js:162-205 | a refused split warns without a state change; otherwise both trimmed parts are stored with `generateTests` set |
| TaskDetailsModule.Screen.Start | modules/taskDetails-module.js:184-204 | the fresh state of a run and the GET of the task |
| TaskDetailsModule.Screen.GetTaskDataSuccess | modules/taskDetails-module.js:207-257 | `EMPTY_TASK` for a falsy task; the unknown-action error for any action but `generateCode`; otherwise base, a space and the filled code prompt |
| TaskDetailsModule.Screen.GenerateCodeFromChoice | modules/taskDetails-module.js:291-333 | one upload for a readable file; otherwise the error and `running` cleared |
| TaskDetailsModule.Screen.ProcessCodeResponse | modules/taskDetails-module.js:259-289 | no status check; an accepted text goes to the file reader |
| TaskDetailsModule.Screen.GenerateCodeFromChoiceSuccess | modules/taskDetails-module.js:335-353 | `running` and `generateTests` are cleared; with tests the action becomes `generateTest` and re-entering the task handler shows the unknown-action error (`EMPTY_TASK` for a falsy task); without tests the completion is shown |
| TaskDetailsModule.Screen.GenerateTestFromChoiceSuccess | modules/taskDetails-module.js:355-363 | completion and `running` cleared |
| TaskDetailsModule.Screen.ClaudeOperationFailure | modules/common-module.js:21-45 | `running` is cleared and at most one error shown |
| TaskDetails.ReadGeneration | taskDetails.js:407-466 | falsy text is skipped, a truthy non-string fails in the cleaner, and any file is the one the parsed cleaned text holds |
| TaskDetails.ReadsLikeModule | taskDetails.js:407-466 | on non-empty text on which the two cleaners agree, both copies find the same file, and text that does not parse gives none in the module copy |
| TaskDetails.TestSystemPrompt | taskDetails.js:476-490 | `global_prompt`, or the built-in test base prompt, and a space come first |
| TaskDetails.Screen.GenerateCode | taskDetails.js:159-193 | the page settings check, busy, permission; the dialog over the untrimmed entries |
| TaskDetails.Screen.GenerateCodeSuccess | taskDetails.js:195-213 | the chosen language is trimmed and a run started |
| TaskDetails.Screen.GenerateCodeWithTests | taskDetails.js:215-249 | only the first bar is spelled out, and the entries are not trimmed |
| TaskDetails.Screen.GenerateCodeWithTestsSuccess | taskDetails.js:251-282 | the same split and checks as the module copy |
| TaskDetails.Screen.Start | taskDetails.js:197-209 | the fresh state of a run and the GET of the task |
| TaskDetails.Screen.GetTaskDataSuccess | taskDetails.js:284-335 | the unknown-action error for any action but `generateCode`; otherwise base, a space and the browser code prompt |
| TaskDetails.Screen.FromChoice | taskDetails.js:407-466 | a non-string throws with the state kept; falsy text does nothing; text that does not parse shows the error and keeps `running`; a missing field clears it; a file is uploaded |
| TaskDetails.Screen.Respond | taskDetails.js:337-405 | a page refusal shows its message and clears `running`; a generated text is handled by the reader, a cleaner throw showing `INVALID_CONTENT` |
| TaskDetails.Screen.ProcessCodeResponse | taskDetails.js:337-405 | the code file is uploaded with the code-document callback |
| TaskDetails.Screen.ProcessTestResponse | taskDetails.js:515-579 | the test file is uploaded with the test-document callback |
| TaskDetails.Screen.GenerateCodeFromChoiceSuccess | taskDetails.js:468-513 | `generateTests` is cleared; with tests the action becomes `generateTest` and the test request is sent when the stored task can be read; without tests the completion is shown and `running` cleared |
| TaskDetails.Screen.GenerateTestFromChoiceSuccess | taskDetails.js:642-650 | completion and `running` cleared |
| TaskDetails.Screen.ClaudeOperationFailure | taskDetails.js:127-146 | `running` is cleared and at most one error shown |
| Extractor.QuotedRun | tmp.js:264 | a captured file name is non-empty and holds no quote |
| Extractor.FindFilename | tmp.js:264-265 | the capture of the leftmost `"Filename"\s*:\s*"([^"]+)"` match, non-empty and quote-free |
| Extractor.FilenameFound | tmp.js:264-265 | after quote-free text, a `"Filename"` key with any spacing around the colon yields its quoted name |
| Extractor.CodeSection | tmp.js:268-283 | no section exactly when the text holds no `"Code": "` |
| Extractor.SectionBetween | tmp.js:268-283 | the section is what lies between the first marker and one closing `"}` |
| Extractor.ExtractCode | tmp.js:268-290 | code exactly when the marker is present |
| Extractor.UnescapeEscaped | tmp.js:288-290 | code without backslashes, escaped by a JSON writer, is unescaped back to itself |
| Extractor.UnescapeOrder | tmp.js:288-290 | with the fixed order an escaped backslash followed by `n` is not restored |
| Extractor.Lenient | tmp.js:292-303 | a file exactly when both a non-empty name and non-empty code are found |
| Extractor.LenientRoundTrip | tmp.js:262-303 | a writer-laid-out object with a quote- and colon-free name and backslash-free code is read back exactly |
| Extractor.RawCodeKept | tmp.js:276-295 | backslash-free code between the first marker and a closing `"}` is extracted unchanged |
| Base64.Utf8Char | modules/taskDetails-module.js:27 | one to four bytes per character, one byte (its code) exactly for ASCII |
| Base64.Utf8 | taskDetails.js:155 | the encoding is at least as long as the text and at most four times as long |
| Base64.Encode | taskDetails.js:156 | four characters for every three bytes, rounded up |
| Base64.StringToBase64 | tmp.js:378-382 | the output length is a multiple of four |
| Base64.ValueOfCharOf | modules/taskDetails-module.js:28 | the alphabet is one-to-one |
| Base64.DecodeEncode | modules/taskDetails-module.js:21-30 | decoding the encoding gives the bytes back |
| Base64.EncodeInjective | modules/taskDetails-module.js:21-30 | different byte strings never share an encoding |
| Base64.HelloVector | tests/taskDetails.test.js:202 | `Hello` gives `SGVsbG8=` |
| Base64.HelloWorldVector | tests/taskDetails.test.js:205 | `Hello, World!` gives `SGVsbG8sIFdvcmxkIQ==` |
| Base64.AccentVector | modules/taskDetails-module.js:27 | `é` becomes the bytes C3 A9 and encodes to `w6k=` |
| Base64.EncodeThree | modules/taskDetails-module.js:28 | each full group of three bytes becomes its four characters, in order |
| Base64.AsciiBytes | modules/taskDetails-module.js:27 | ASCII text is encoded as its own character codes |
| TaskDraft.DraftFile | tmp.js:244-347 | a text that parses is decided by its fields alone; one that does not goes to the lenient reader, giving its name and code as strings |
| TaskDraft.LenientUpload | tmp.js:253-303 | an object the parser refuses but laid out as asked is still uploaded with its code |
| TaskDraft.ReadGeneration | tmp.js:244-314 | falsy text is skipped, a non-string throws, and a file comes from the cleaned text |
| TaskDraft.CodeRequest | tmp.js:141-183 | a request exactly when settings exist (the bundle's builder reads them unguarded), answered at the code-response handler |
| TaskDraft.SystemPromptLikeModule | tmp.js:149-162 | the concatenated prompt equals the module's base, a space and the filled template |
| TaskDraft.Screen.GenerateCode | tmp.js:16-50 | the bundle's settings check, busy, permission, then the dialog of trimmed languages |
| TaskDraft.Screen.GenerateCodeSuccess | tmp.js:52-70 | the selection is stored untrimmed and the task fetched |
| TaskDraft.Screen.GenerateCodeWithTests | tmp.js:72-106 | the trimmed `tested with` dialog |
| TaskDraft.Screen.GenerateCodeWithTestsSuccess | tmp.js:108-139 | both trimmed parts must be non-empty |
| TaskDraft.Screen.Start | tmp.js:117-129 | the fresh state of a run and the GET of the task |
| TaskDraft.Screen.GetTaskDataSuccess | tmp.js:141-183 | no action check; a truthy task is stored and the code request sent; `EMPTY_TASK` otherwise |
| TaskDraft.Screen.GenerateCodeFromChoice | tmp.js:244-348 | strict, then lenient reading; one upload for a file, otherwise the error with `running` cleared |
| TaskDraft.Screen.ProcessCodeResponse | tmp.js:185-242 | the page classification without the content check, then the reader |
| TaskDraft.Screen.GenerateCodeFromChoiceSuccess | tmp.js:350-365 | with tests, `generateTest` is set but `generateTests` stays set, and the same request is sent again; without tests the run completes |
| TaskDraft.Screen.GenerateTestFromChoiceSuccess | tmp.js:367-375 | completion and `running` cleared |
| TaskDraft.Screen.ClaudeOperationFailure | common.js:20-42 | `running` is cleared and at most one error shown |
| Text.IndexOf | modules/taskDetails-module.js:169 | the first occurrence, or none when the pattern does not occur |
| Text.LastIndexOf | common.js:6-7 | the last occurrence of the character, or -1 |
| Text.Split | tmp.js:111 | at least one part |
| Text.SplitJoin | tmp.js:43 | joining the parts with the separator gives the input back |
| Text.TrimSpec | tmp.js:43 | trimming keeps a contiguous piece and cuts only white space around it |
| Text.TrimIdempotent | tmp.js:111 | trimming twice is trimming once |
| Text.ReplaceFirst | modules/taskDetails-module.js:147 | only the first occurrence is replaced |
| Text.ReplaceAllHit | modules/taskDetails-module.js:229 | a leading occurrence is replaced by the global replace |
| Text.ReplaceAllAbsent | modules/common-module.js:10 | a global replace with no occurrence changes nothing |
| Text.TrimPadded | tmp.js:111 | trimming removes white-space padding around a trimmed text |
| Text.SplitPartsFree | modules/taskDetails-module.js:58-68 | no part of a split holds the separator |
| Fences.StripIdempotent | modules/common-module.js:10 | stripping twice is stripping once, in both dialects |
| Fences.BareFenceNewline | common.js:16 | a bare fence followed by a newline: the module regex deletes the newline, the browser regex keeps it |
| Fences.NoTicksLeft | modules/common-module.js:10 | no triple backtick survives either fence regex |
| Fences.StripAbsent | modules/common-module.js:10 | text without a triple backtick passes both regexes unchanged |
| Fences.TaggedFence | common.js:16 | a ```` ```json ```` fence and its newline are dropped by both regexes |
| Fences.BareFence | modules/common-module.js:10 | a bare fence followed neither by `json` nor by a newline is dropped by both regexes |
| Fences.ClosingFence | common.js:16 | a lone fence is dropped by both regexes |
| Spira.SettingOr | modules/testCaseDetails-module.js:63-75 | the setting when it is truthy, otherwise the default |
| Spira.RequestsAppend | modules/testCaseDetails-module.js:143-169 | request counts add up over concatenated logs |
| Js.Get | modules/riskDetails-module.js:205-222 | a property read throws exactly on `undefined` and `null` |
| Js.NatToStringRoundTrip | modules/common-module.js:77 | the decimal text of a status code reads back as the code |
| Js.Field | modules/riskDetails-module.js:185-189 | a truthy result is read from a truthy field |
| Constants.WaitForOtherJob | constants.js:27 | filling the busy template puts the artifact name between its fixed head and tail |
| Constants.CouldNotGenerate | constants.js:37 | filling the could-not-generate template puts the artifact name between its fixed head and tail |
| Constants.MissingSetting | constants.js:40 | filling the missing-setting template puts the setting name between its fixed head and tail |

## Left out

- Host calls are recorded as `Event`s with their arguments. Transport, the host's own behaviour and the later delivery of callbacks are not modelled. Callbacks are methods that a caller may invoke in any order.
- `JSON.parse` is an uninterpreted function `parse` of the page context. `JSON.stringify` is not modelled: request bodies are records. Numbers in parsed JSON are integers.
- `convertHtmlToPlainText` is an uninterpreted function of the page context.
- `new Date().toISOString()` is one opaque timestamp of the page context, so all mitigations of one run share a `CreationDate`.
- CommonModule.UsageTokens: a truthy `usage.total_tokens` that is not a number is counted as 0. The source adds it with JavaScript `+` (modules/common-module.js:107, modules/testCaseDetails-module.js:125), so a string is concatenated onto the tally and `true` adds 1.
- CommonModule.Session.ProcessApiResponse: the tally grows by `UsageTokens`, so the concatenation or coercion of a non-numeric `total_tokens` at modules/common-module.js:107 is not modelled.
- TestCaseDetailsModule.Screen.ProcessTestStepResponse: the tally grows by `UsageTokens`, so the concatenation or coercion of a non-numeric `total_tokens` at modules/testCaseDetails-module.js:125 is not modelled.
- AssistantModule.Temperature: the float that `parseFloat` returns is not modelled. Only whether the setting is used is, and exponent forms such as `1e-400` that underflow to 0 are left out.
- `new RegExp(pattern, flags)` is not built. Only the slicing of `claude_createRegexFromString` is modelled.
- TaskDetailsModule.DocumentRequest: the Node `Buffer` branch of `stringToBase64` is left out, and so is `TextEncoder` over lone surrogates; the browser branch is modelled over Unicode scalar values. A `Code` that is not a string is encoded as its `'' + v` text.
- `console.log` and `console.error` are not modelled.
- `global.spiraAppManager` and `global.messages` are taken to be present in the module copies. `global.selectLists` is a value of the page context that may be absent. The one exception is the messages-table check of the failure handler, which is modelled.
- The `$` patterns of `String.prototype.replace` replacement strings are not interpreted. Prompts that hold `$&` or `$1` are outside the model.
- `generateTasks`, `generateSteps` and `generateRisks` in modules/requirementDetails-module.js are modelled up to the throw on their undefined permission variables. What follows the throw cannot run.
- testCaseDetails.js dispatches to `claude_parseGeneratedJson` and `generateTestStepsFromChoice_success`, neither of which is defined there. The model treats that dispatch as the failure it is. `claude_generateTestStepsFromChoice` has no model beyond that.
- The browser copies' own `messages` tables (requirementDetails.js:3, riskDetails.js:2, taskDetails.js:2, testCaseDetails.js:4) are not modelled separately. They agree with constants.js on every key they share. taskDetails.js adds only `UNIT_TEST_CODE`, which `Constants` holds. The `artifactType` table of riskDetails.js is not modelled either.
- `localState` of the module copies is the one `global.localState` shared by every screen. Each `Screen` holds its own fields.
- The requirement screens store each test case's context in `localState` itself, under the case's `Description` (modules/requirementDetails-module.js:211, requirementDetails.js:368), and read it back from there by the created case's `Name` (modules/requirementDetails-module.js:271-272, requirementDetails.js:428-429). The model keeps these contexts in a separate map `contexts`, so a description that is also a name used by `localState` is not modelled. Such names are the screen's own fields (`action`, `running`, `remoteRequirement`, `testCaseCount`) and the members every object inherits (`constructor`, `toString`, `hasOwnProperty`, `__proto__` and the like). The members concerned are listed below.
- RequirementDetailsModule.Screen.CreateCases: a `Description` equal to a field name overwrites that field with the context (modules/requirementDetails-module.js:211). The model promises the fields unchanged and the context stored in `contexts`.
- RequirementDetailsModule.Screen.GenerateTestCasesFromChoice: a `Description` of `testCaseCount` replaces the count set at modules/requirementDetails-module.js:203 with an object, after which every `testCaseCount--` gives `NaN` and completion is never shown. The model promises the count is the full length. A `Description` of `running` or `action` likewise overwrites those fields.
- RequirementDetailsModule.Screen.GenerateTestCasesFromChoiceSuccess: a created case whose `Name` is an inherited member such as `constructor`, or a field such as `action`, finds a truthy value at modules/requirementDetails-module.js:271, so the source posts a step whose fields are undefined. The model finds no context and posts only the link.
- RequirementDetails.Screen.CreateCases: the same overwriting of `localState` fields by a `Description` at requirementDetails.js:368 is not modelled; the fields are promised unchanged.
- RequirementDetails.Screen.GenerateTestCasesFromChoice: a `Description` of `testCaseCount` overwrites the count set at requirementDetails.js:351, so the source never reaches completion. The model promises the count is the full length.
- RequirementDetails.Screen.GenerateTestCasesFromChoiceSuccess: an inherited member or a field found by `localState[remoteTestCase.Name]` at requirementDetails.js:428 is not modelled; the model finds no context there.
- Types of a requirement that are a truthy non-array object with a numeric `length` are read as no entries.
- constants.js structure checks and the Jest tests themselves (`tests/*.test.js` and their mocks) are not modelled. Their test vectors appear as lemmas where they state a property of the code.
- The browser copies' base prompt has no trailing space before space-led templates; that is modelled as written.
