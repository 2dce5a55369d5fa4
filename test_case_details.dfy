/**
 * The test-step generator of the test case screen, browser copy
 * (testCaseDetails.js). It carries its own settings check and request
 * builder, checks the response status, and hands the text to a step
 * reader that calls `claude_parseGeneratedJson`, which the file does not
 * define: that call throws, so every generated answer ends in the
 * response handler's `catch`.
 */
module TestCaseDetails {
  import opened Wrappers
  import opened Js
  import opened Spira
  import opened FanOut
  import CommonModule
  import Assistant
  import Responses
  import Prompts
  import Constants
  import M = TestCaseDetailsModule

  /** The base prompt glued to the step prompt, whose built-in text starts with a space. */
  function StepSystemPrompt(settings: Option<Settings>): string
  {
    Prompts.SystemPrompt(settings, "", M.STEP_PROMPT_KEY, Constants.BROWSER_TEST_STEPS_PROMPT)
  }

  /** With no step prompt of its own, this copy sends the same system prompt as the module copy. */
  lemma SameDefaultPrompt(settings: Option<Settings>)
    requires !HasSetting(settings, M.STEP_PROMPT_KEY)
    ensures StepSystemPrompt(settings) == M.StepSystemPrompt(settings)
  {
    Prompts.SeparatorPlacement(settings, M.STEP_PROMPT_KEY, Constants.TEST_CASE_GENERATE_STEPS);
  }

  /** A step prompt of its own is glued to the base prompt here, and follows a space in the module copy. */
  lemma SetPromptGlued(settings: Option<Settings>)
    requires HasSetting(settings, M.STEP_PROMPT_KEY)
    ensures M.StepSystemPrompt(settings) == Prompts.BasePrompt(settings) + " " + settings.value[M.STEP_PROMPT_KEY]
    ensures StepSystemPrompt(settings) == Prompts.BasePrompt(settings) + settings.value[M.STEP_PROMPT_KEY]
  {
    Prompts.SeparatorPlacement(settings, M.STEP_PROMPT_KEY, Constants.TEST_CASE_GENERATE_STEPS);
  }

  /**
   * What `claude_processTestStepResponse` shows: the refusal of the status
   * and content checks, or else `INVALID_CONTENT` from the `catch` that
   * the undefined step reader's throw lands in.
   */
  function ResponseMessage(response: Option<RestResponse>, parse: string -> Option<Json>): (m: string)
    ensures Responses.PageVerdictOf(response, parse, true).Refused? ==> m == Responses.PageVerdictOf(response, parse, true).message
    ensures Responses.PageVerdictOf(response, parse, true).Generated? ==> m == Constants.INVALID_CONTENT
  {
    match Responses.PageVerdictOf(response, parse, true)
    case Refused(message) => message
    case Generated(_) => Constants.INVALID_CONTENT
  }

  /** Even an answer the shared handler accepts ends with `INVALID_CONTENT` here. */
  lemma AcceptedAnswerRefused(response: Option<RestResponse>, parse: string -> Option<Json>)
    requires CommonModule.ApiVerdict(response, None, parse).Accept?
    ensures ResponseMessage(response, parse) == Constants.INVALID_CONTENT
  {
    Responses.PageAgreesWithShared(response, parse);
  }

  class Screen {
    const env: Env
    var action: Option<string>
    var running: bool
    var remoteTestCase: Value
    var testStepCount: Option<int>
    var log: seq<Event>

    /** `let localState = {}`. */
    constructor(env: Env)
      ensures this.env == env && action == None && !running && remoteTestCase == None
      ensures testStepCount == None && log == []
    {
      this.env := env;
      action := None;
      running := false;
      remoteTestCase := None;
      testStepCount := None;
      log := [];
    }

    twostate predicate StateKept()
      reads this
    {
      action == old(action) && running == old(running) && remoteTestCase == old(remoteTestCase)
      && testStepCount == old(testStepCount)
    }

    /**
     * `claude_generateTestSteps`: this copy's settings check, the busy
     * check, then `{action, running: true}` and the permission check.
     */
    method GenerateTestSteps()
      modifies this
      ensures var v := Assistant.PageVerifySettings(env.settings);
        && (!v.ok ==> StateKept() && log == old(log) + v.shown)
        && (v.ok && old(running) ==>
              StateKept() && log == old(log) + [ShowWarning(Constants.WaitForOtherJob(Constants.ARTIFACT_TEST_STEPS))])
        && (v.ok && !old(running) ==>
              && action == Some(M.GENERATE_TEST_STEPS) && remoteTestCase == None && testStepCount == None
              && (running <==> Constants.TEST_STEP in env.canCreate)
              && log == old(log) + [if Constants.TEST_STEP in env.canCreate then GetRequest(M.TestCaseUrl(env), TestCaseLoaded)
                                    else ShowError(Constants.PERMISSION_ERROR)])
    {
      var v := Assistant.PageVerifySettings(env.settings);
      log := log + v.shown;
      if !v.ok {
        return;
      }
      if running {
        log := log + [ShowWarning(Constants.WaitForOtherJob(Constants.ARTIFACT_TEST_STEPS))];
        return;
      }
      action, running, remoteTestCase, testStepCount := Some(M.GENERATE_TEST_STEPS), true, None, None;
      if Constants.TEST_STEP !in env.canCreate {
        log := log + [ShowError(Constants.PERMISSION_ERROR)];
        running := false;
      } else {
        log := log + [GetRequest(M.TestCaseUrl(env), TestCaseLoaded)];
      }
    }

    /** `claude_getTestCaseData_success`: as in the module copy, with this copy's prompt and request builder. */
    method GetTestCaseDataSuccess(remote: Value)
      modifies this
      ensures Truthy(remote) ==>
        && remoteTestCase == remote && running == old(running)
        && log == old(log) + [Assistant.PageApiRequest(env.settings, StepSystemPrompt(env.settings),
             Prompts.UserPrompt(Field(remote, "Name"), Field(remote, "Description"),
               SettingIsTrue(env.settings, Prompts.DESCRIPTIONS), env.plainText),
             TestStepResponse, OperationFailure)]
      ensures !Truthy(remote) ==>
        remoteTestCase == old(remoteTestCase) && !running && log == old(log) + [ShowError(Constants.EMPTY_TEST_CASE)]
      ensures action == old(action) && testStepCount == old(testStepCount)
    {
      if Truthy(remote) {
        remoteTestCase := remote;
        var system := StepSystemPrompt(env.settings);
        var user := Prompts.UserPrompt(Field(remote, "Name"), Field(remote, "Description"),
          SettingIsTrue(env.settings, Prompts.DESCRIPTIONS), env.plainText);
        log := log + [Assistant.PageApiRequest(env.settings, system, user, TestStepResponse, OperationFailure)];
      } else {
        log := log + [ShowError(Constants.EMPTY_TEST_CASE)];
        running := false;
      }
    }

    /** `claude_processTestStepResponse`: every outcome shows one error and clears `running`; no step is created. */
    method ProcessTestStepResponse(response: Option<RestResponse>)
      modifies this
      ensures !running && log == old(log) + [ShowError(ResponseMessage(response, env.parse))]
      ensures action == old(action) && remoteTestCase == old(remoteTestCase) && testStepCount == old(testStepCount)
    {
      var v := Responses.PageVerdictOf(response, env.parse, true);
      match v
      case Refused(m) =>
        log := log + [ShowError(m)];
        running := false;
      case Generated(_) =>
        // claude_generateTestStepsFromChoice throws at its first call.
        log := log + [ShowError(Constants.INVALID_CONTENT)];
        running := false;
    }

    /**
     * `claude_generateTestStepsFromChoice_success`: the count goes down by
     * one and the page is refreshed at exactly 0, but `running` is cleared
     * after every call.
     */
    method GenerateTestStepsFromChoiceSuccess()
      modifies this
      ensures testStepCount == Decrement(old(testStepCount)) && !running
      ensures log == old(log) + (if testStepCount == Some(0) then M.CompletionEvents(env) else [])
      ensures action == old(action) && remoteTestCase == old(remoteTestCase)
    {
      testStepCount := Decrement(testStepCount);
      if testStepCount == Some(0) {
        log := log + M.CompletionEvents(env);
      }
      running := false;
    }

    /** This copy's `claude_operation_failure`: `running` is cleared, then at most one error is shown. */
    method ClaudeOperationFailure(response: Value)
      modifies this
      ensures !running && log == old(log) + CommonModule.FailureEvents(response, true)
      ensures action == old(action) && remoteTestCase == old(remoteTestCase) && testStepCount == old(testStepCount)
    {
      running := false;
      log := log + CommonModule.FailureEvents(response, true);
    }
  }
}
