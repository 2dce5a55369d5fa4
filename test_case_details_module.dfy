/**
 * The test-step generator of the test case screen, module copy
 * (modules/testCaseDetails-module.js): fetch the test case, ask for test
 * steps, create one step per usable item and count the creations down.
 */
module TestCaseDetailsModule {
  import opened Wrappers
  import opened Js
  import opened Spira
  import opened FanOut
  import CommonModule
  import AssistantModule
  import Responses
  import Prompts
  import Constants

  const GENERATE_TEST_STEPS := "generateTestSteps"
  const STEP_PROMPT_KEY := "teststep_prompt"

  function TestCaseUrl(env: Env): string
  {
    ProjectUrl(env, "/test-cases/" + NatToString(env.artifactId))
  }

  function StepsUrl(env: Env): string
  {
    TestCaseUrl(env) + "/test-steps"
  }

  /** A generated step is usable when its description and its expected result are both truthy. */
  predicate Usable(item: Json)
  {
    TruthyField(Some(item), "Description") && TruthyField(Some(item), "ExpectedResult")
  }

  /** The POST for the step at index `i`: its position is `i + 1`, so skipped steps leave gaps. */
  function StepRequest(env: Env, item: Json, i: nat): (e: Option<Event>)
    ensures e.Some? <==> Usable(item)
    ensures e.Some? ==> && e.value.ExecuteApi? && e.value.verb == "POST" && e.value.url == StepsUrl(env)
                        && e.value.body.Some? && e.value.body.value.TestStepBody?
                        && e.value.body.value.position == Some(i + 1)
                        && e.value.body.value.description == Some(item.fields["Description"])
                        && e.value.onSuccess == TestStepCreated
  {
    var step := Some(item);
    if Usable(item) then
      Some(PostRequest(StepsUrl(env),
        TestStepBody(env.projectId, Some(JNum(env.artifactId)), Field(step, "Description"),
          Field(step, "ExpectedResult"), Field(step, "SampleData"), Some(i + 1)),
        TestStepCreated))
    else None
  }

  function StepPlan(env: Env): Plan
  {
    (item: Json, i: nat) => StepRequest(env, item, i)
  }

  /**
   * `claude_cleanJSON`, `JSON.parse` and the `TestSteps` check: the list
   * of generated steps, or `None` for each way the reading fails (the
   * clean or the parse throws, or `TestSteps` is not a truthy array).
   */
  function StepItems(env: Env, generation: Json): (r: Option<seq<Json>>)
  {
    var json := CommonModule.CleanJson(Some(generation));
    if json.Threw? then None
    else
      var obj := env.parse(json.value);
      if obj.None? then None else ItemsOf(obj, "TestSteps")
  }

  /** An answer that is not a JSON object with a `TestSteps` array is refused. */
  lemma StepItemsNeedArray(env: Env, generation: Json, obj: Json)
    requires CommonModule.CleanJson(Some(generation)).Normal?
    requires env.parse(CommonModule.CleanJson(Some(generation)).value) == Some(obj)
    ensures StepItems(env, generation).Some?
      <==> obj.JObj? && "TestSteps" in obj.fields && obj.fields["TestSteps"].JArr?
  {
  }

  /** The message shown when the generated steps cannot be read. */
  const NO_STEPS := Constants.CouldNotGenerate(Constants.ARTIFACT_TEST_STEPS)

  /** What the loop leaves in the log: the POSTs issued, then the error when a `null` step ended it. */
  function ChoiceEvents(env: Env, items: seq<Json>): (es: seq<Event>)
    ensures Issued(items, StepPlan(env)) <= es
    ensures |es| == |Issued(items, StepPlan(env))| + (if Aborted(items) then 1 else 0)
  {
    Issued(items, StepPlan(env)) + (if Aborted(items) then [ShowError(NO_STEPS)] else [])
  }

  /**
   * A step is created exactly for each usable item before the first
   * `null` one, with its own index as position.
   */
  lemma StepsIssued(env: Env, items: seq<Json>, e: Event)
    ensures e in Issued(items, StepPlan(env)) <==>
      exists i :: 0 <= i < FirstNull(items) && Usable(items[i]) && StepRequest(env, items[i], i) == Some(e)
  {
    PostsAreSelected(items, FirstNull(items), StepPlan(env), e);
  }

  /**
   * The count starts at the full length, so a single unusable step keeps
   * the success callbacks from ever reaching 0: the operation never
   * completes and `running` stays set.
   */
  lemma UnusableStepNeverCompletes(env: Env, items: seq<Json>, i: nat)
    requires i < |items| && !Aborted(items) && !Usable(items[i])
    ensures Countdown(Some(|items|), |Issued(items, StepPlan(env))|) != Some(0)
  {
    var plan := StepPlan(env);
    assert plan(items[i], i) == StepRequest(env, items[i], i);
    SkippedItemMeansFewer(items, plan, i);
  }

  /** The system prompt: the base prompt, a space, and the step prompt. */
  function StepSystemPrompt(settings: Option<Settings>): string
  {
    Prompts.SystemPrompt(settings, " ", STEP_PROMPT_KEY, Constants.TEST_CASE_GENERATE_STEPS)
  }

  /** What the last success callback shows: the test steps are reloaded only when their grid is on the page. */
  function CompletionEvents(env: Env): (es: seq<Event>)
    ensures ReloadForm in es && ShowSuccess(Constants.TEST_STEPS_CREATED) in es
    ensures (exists g :: ReloadGrid(g) in es) <==> env.testStepsGrid.Some? && env.testStepsGrid.value != ""
  {
    var grid := if env.testStepsGrid.Some? && env.testStepsGrid.value != "" then [ReloadGrid(env.testStepsGrid.value)] else [];
    [HideMessage, ReloadForm] + grid + [ShowSuccess(Constants.TEST_STEPS_CREATED)]
  }

  /** The page's `localState` and the host calls made so far. */
  class Screen {
    const env: Env
    var action: Option<string>
    var running: bool
    var remoteTestCase: Value
    /** `testStepCount`; an unset count (`None`) is decremented to `NaN`, which is never 0. */
    var testStepCount: Option<int>
    var tokensUse: int
    var log: seq<Event>

    constructor(env: Env)
      ensures this.env == env && action == None && !running && remoteTestCase == None
      ensures testStepCount == None && tokensUse == 0 && log == []
    {
      this.env := env;
      action := None;
      running := false;
      remoteTestCase := None;
      testStepCount := None;
      tokensUse := 0;
      log := [];
    }

    twostate predicate StateKept()
      reads this
    {
      action == old(action) && running == old(running) && remoteTestCase == old(remoteTestCase)
      && testStepCount == old(testStepCount) && tokensUse == old(tokensUse)
    }

    /**
     * `generateTestSteps`: the settings check, then the busy check (which
     * warns and leaves the state alone), then the state is replaced by
     * `{action, running: true}` and the permission check either shows an
     * error and clears `running` or fetches the test case.
     */
    method GenerateTestSteps()
      modifies this
      ensures var v := AssistantModule.VerifyRequiredSettings(env.settings);
        && (!v.ok ==> StateKept() && log == old(log) + v.shown)
        && (v.ok && old(running) ==>
              StateKept() && log == old(log) + [ShowWarning(Constants.WaitForOtherJob(Constants.ARTIFACT_TEST_STEPS))])
        && (v.ok && !old(running) ==>
              && action == Some(GENERATE_TEST_STEPS) && remoteTestCase == None && testStepCount == None && tokensUse == 0
              && (running <==> Constants.TEST_STEP in env.canCreate)
              && log == old(log) + [if Constants.TEST_STEP in env.canCreate then GetRequest(TestCaseUrl(env), TestCaseLoaded)
                                    else ShowError(Constants.PERMISSION_ERROR)])
    {
      var v := AssistantModule.VerifyRequiredSettings(env.settings);
      log := log + v.shown;
      if !v.ok {
        return;
      }
      if running {
        log := log + [ShowWarning(Constants.WaitForOtherJob(Constants.ARTIFACT_TEST_STEPS))];
        return;
      }
      action, running, remoteTestCase, testStepCount, tokensUse := Some(GENERATE_TEST_STEPS), true, None, None, 0;
      if Constants.TEST_STEP !in env.canCreate {
        log := log + [ShowError(Constants.PERMISSION_ERROR)];
        running := false;
      } else {
        log := log + [GetRequest(TestCaseUrl(env), TestCaseLoaded)];
      }
    }

    /**
     * `getTestCaseData_success`: a truthy test case is stored and one
     * completion request is sent with the step prompt and the user prompt
     * (the description only when `artifact_descriptions` is exactly
     * `True`); otherwise an error, and `running` is cleared.
     */
    method GetTestCaseDataSuccess(remote: Value)
      modifies this
      ensures Truthy(remote) ==>
        && remoteTestCase == remote && running == old(running)
        && log == old(log) + [AssistantModule.ApiRequest(env.settings, StepSystemPrompt(env.settings),
             Prompts.UserPrompt(Field(remote, "Name"), Field(remote, "Description"),
               SettingIsTrue(env.settings, Prompts.DESCRIPTIONS), env.plainText),
             TestStepResponse, OperationFailure)]
      ensures !Truthy(remote) ==>
        remoteTestCase == old(remoteTestCase) && !running && log == old(log) + [ShowError(Constants.EMPTY_TEST_CASE)]
      ensures action == old(action) && testStepCount == old(testStepCount) && tokensUse == old(tokensUse)
    {
      if Truthy(remote) {
        remoteTestCase := remote;
        var system := StepSystemPrompt(env.settings);
        var user := Prompts.UserPrompt(Field(remote, "Name"), Field(remote, "Description"),
          SettingIsTrue(env.settings, Prompts.DESCRIPTIONS), env.plainText);
        Send(AssistantModule.ApiRequest(env.settings, system, user, TestStepResponse, OperationFailure));
      } else {
        log := log + [ShowError(Constants.EMPTY_TEST_CASE)];
        running := false;
      }
    }

    /** An event is appended to the log and nothing else changes. */
    method Send(e: Event)
      modifies this
      ensures log == old(log) + [e]
      ensures action == old(action) && running == old(running) && remoteTestCase == old(remoteTestCase)
      ensures testStepCount == old(testStepCount) && tokensUse == old(tokensUse)
    {
      log := log + [e];
    }

    /**
     * `generateTestStepsFromChoice`: the count is set to the full length
     * of `TestSteps` and one POST is issued per usable step, in array
     * order; a `null` step throws after the POSTs before it, and any
     * failure shows an error and clears `running`.
     */
    method GenerateTestStepsFromChoice(generation: Json)
      modifies this
      ensures match StepItems(env, generation)
        case None =>
          testStepCount == old(testStepCount) && !running && log == old(log) + [ShowError(NO_STEPS)]
        case Some(items) =>
          && testStepCount == Some(|items|)
          && log == old(log) + ChoiceEvents(env, items)
          && (running <==> old(running) && !Aborted(items))
      ensures action == old(action) && remoteTestCase == old(remoteTestCase) && tokensUse == old(tokensUse)
    {
      var items := StepItems(env, generation);
      if items.None? {
        log := log + [ShowError(NO_STEPS)];
        running := false;
        return;
      }
      testStepCount := Some(|items.value|);
      var posts, aborted := Issue(items.value, StepPlan(env));
      log := log + posts;
      if aborted {
        log := log + [ShowError(NO_STEPS)];
        running := false;
      }
    }

    /**
     * `processTestStepResponse`: no status check; a missing response, an
     * unparseable body or a missing text shows its error and clears
     * `running`; otherwise the steps are created and then the tokens are
     * counted.
     */
    method ProcessTestStepResponse(response: Option<RestResponse>)
      modifies this
      ensures match Responses.LooseVerdict(response, env.parse)
        case Reject(m) =>
          !running && log == old(log) + [ShowError(m)] && testStepCount == old(testStepCount) && tokensUse == old(tokensUse)
        case Accept(text, n) =>
          && tokensUse == old(tokensUse) + n
          && match StepItems(env, text)
             case None => !running && log == old(log) + [ShowError(NO_STEPS)] && testStepCount == old(testStepCount)
             case Some(items) =>
               && testStepCount == Some(|items|) && log == old(log) + ChoiceEvents(env, items)
               && (running <==> old(running) && !Aborted(items))
      ensures action == old(action) && remoteTestCase == old(remoteTestCase)
    {
      var v := Responses.LooseVerdict(response, env.parse);
      match v
      case Reject(m) =>
        log := log + [ShowError(m)];
        running := false;
      case Accept(text, n) =>
        GenerateTestStepsFromChoice(text);
        tokensUse := tokensUse + n;
    }

    /**
     * `generateTestStepsFromChoice_success`: the count goes down by one;
     * only when it reaches exactly 0 is the page refreshed, the success
     * shown and `running` cleared.
     */
    method GenerateTestStepsFromChoiceSuccess()
      modifies this
      ensures testStepCount == Decrement(old(testStepCount))
      ensures testStepCount == Some(0) ==> !running && log == old(log) + CompletionEvents(env)
      ensures testStepCount != Some(0) ==> running == old(running) && log == old(log)
      ensures action == old(action) && remoteTestCase == old(remoteTestCase) && tokensUse == old(tokensUse)
    {
      testStepCount := Decrement(testStepCount);
      if testStepCount == Some(0) {
        log := log + CompletionEvents(env);
        running := false;
      }
    }

    /** `claude_operation_failure`: `running` is cleared whatever the response, then at most one error is shown. */
    method ClaudeOperationFailure(response: Value, messagesLoaded: bool)
      modifies this
      ensures !running && log == old(log) + CommonModule.FailureEvents(response, messagesLoaded)
      ensures action == old(action) && remoteTestCase == old(remoteTestCase)
      ensures testStepCount == old(testStepCount) && tokensUse == old(tokensUse)
    {
      running := false;
      log := log + CommonModule.FailureEvents(response, messagesLoaded);
    }
  }
}
