/**
 * The test-case generator of the requirement screen, module copy
 * (modules/requirementDetails-module.js): fetch the requirement and the
 * requirement types, ask for test cases, create one test case per
 * described item, then link each created test case to the requirement and
 * give it a step from the stored context.
 */
module RequirementDetailsModule {
  import opened Wrappers
  import opened Js
  import opened Spira
  import opened FanOut
  import CommonModule
  import AssistantModule
  import Responses
  import Prompts
  import Constants

  const GENERATE_TEST_CASES := "generateTestCases"
  const GENERATE_TASKS := "generateTasks"
  const GENERATE_STEPS := "generateSteps"
  const GENERATE_RISKS := "generateRisks"
  const TEST_CASE_PROMPT_KEY := "testcase_prompt"
  const BDD_PROMPT_KEY := "bdd_prompt"

  /** The busy warning of all four entry points names test cases. */
  const BUSY := Constants.WaitForOtherJob(Constants.ARTIFACT_TEST_CASES)

  /** The message shown when the generated test cases cannot be read. */
  const NO_CASES := Constants.CouldNotGenerate(Constants.ARTIFACT_TEST_CASES)

  function RequirementUrl(env: Env): string
  {
    ProjectUrl(env, "/requirements/" + NatToString(env.artifactId))
  }

  function TypesUrl(env: Env): string
  {
    "project-templates/" + NatToString(env.projectTemplateId) + "/requirements/types"
  }

  function TestCasesUrl(env: Env): string
  {
    ProjectUrl(env, "/test-cases")
  }

  function LinkUrl(env: Env): string
  {
    ProjectUrl(env, "/requirements/test-cases")
  }

  function CaseStepsUrl(env: Env, testCaseId: Value): string
  {
    ProjectUrl(env, "/test-cases/" + ToString(testCaseId) + "/test-steps")
  }

  // ---------------------------------------------------------------------
  // Does the requirement's type support steps?

  /** `type.RequirementTypeId === requirement.RequirementTypeId` for a non-null entry. */
  predicate Matches(t: Json, id: Value)
  {
    Get(Some(t), "RequirementTypeId").Got? && StrictEquals(Get(Some(t), "RequirementTypeId").v, id)
  }

  /** The entries the `for` loop visits: those of an array, none otherwise. */
  function TypeEntries(types: Value): seq<Json>
  {
    if IsArray(types) then types.value.items else []
  }

  /**
   * Where the search stops: at the first `null` entry, whose property read
   * throws, or at the first matching entry; at the end when neither.
   */
  function StopAt(types: seq<Json>, id: Value): (n: nat)
    ensures n <= |types|
    ensures forall i :: 0 <= i < n ==> types[i] != JNull && !Matches(types[i], id)
    ensures n < |types| ==> types[n] == JNull || Matches(types[n], id)
  {
    if types == [] || types[0] == JNull || Matches(types[0], id) then 0
    else
      var k := StopAt(types[1..], id);
      assert forall i :: 1 <= i < k + 1 ==> types[i] == types[1..][i - 1];
      1 + k
  }

  /** The search's outcome: whether the first matching type supports steps, or a throw at a `null` entry. */
  function StepsSupport(types: seq<Json>, id: Value): Completion<bool>
  {
    var n := StopAt(types, id);
    if n == |types| then Normal(false)
    else if types[n] == JNull then Threw
    else Normal(TruthyField(Some(types[n]), "IsSteps"))
  }

  /**
   * Steps are supported exactly when some type matches, has a truthy
   * `IsSteps`, and no type before it matches or is `null`: the loop breaks
   * at the first match, so a later matching type is never consulted.
   */
  lemma SupportedByFirstMatch(types: seq<Json>, id: Value)
    ensures StepsSupport(types, id) == Normal(true) <==>
      exists i :: 0 <= i < |types| && Matches(types[i], id) && TruthyField(Some(types[i]), "IsSteps")
        && forall j :: 0 <= j < i ==> types[j] != JNull && !Matches(types[j], id)
  {
    var n := StopAt(types, id);
    if StepsSupport(types, id) == Normal(true) {
      assert Matches(types[n], id);
    }
    forall i | 0 <= i < |types| && Matches(types[i], id) && TruthyField(Some(types[i]), "IsSteps")
      && (forall j :: 0 <= j < i ==> types[j] != JNull && !Matches(types[j], id))
      ensures StepsSupport(types, id) == Normal(true)
    {
      assert n == i;
    }
  }

  /** The `for` loop over the types, which breaks at the first match. */
  method SupportsSteps(types: seq<Json>, id: Value) returns (r: Completion<bool>)
    ensures r == StepsSupport(types, id)
  {
    var i := 0;
    while i < |types|
      invariant i <= StopAt(types, id)
    {
      if types[i] == JNull {
        return Threw;
      }
      if Matches(types[i], id) {
        return Normal(TruthyField(Some(types[i]), "IsSteps"));
      }
      i := i + 1;
    }
    return Normal(false);
  }

  // ---------------------------------------------------------------------
  // Prompts

  /** The action's prompt: the test-case prompt, the BDD prompt for steps, and nothing for every other action. */
  function ActionPrompt(settings: Option<Settings>, action: Option<string>): string
  {
    if action == Some(GENERATE_TEST_CASES) then SettingOr(settings, TEST_CASE_PROMPT_KEY, Constants.REQUIREMENT_GENERATE_TEST_CASES)
    else if action == Some(GENERATE_STEPS) then SettingOr(settings, BDD_PROMPT_KEY, Constants.REQUIREMENT_GENERATE_SCENARIOS)
    else ""
  }

  /** The base prompt, a space and the action's prompt; an action without a prompt leaves a trailing space. */
  function RequirementSystemPrompt(settings: Option<Settings>, action: Option<string>): (p: string)
    ensures Prompts.BasePrompt(settings) + " " <= p
    ensures action != Some(GENERATE_TEST_CASES) && action != Some(GENERATE_STEPS) ==> p == Prompts.BasePrompt(settings) + " "
    ensures action == Some(GENERATE_TEST_CASES) ==>
      p == Prompts.SystemPrompt(settings, " ", TEST_CASE_PROMPT_KEY, Constants.REQUIREMENT_GENERATE_TEST_CASES)
  {
    Prompts.BasePrompt(settings) + " " + ActionPrompt(settings, action)
  }

  // ---------------------------------------------------------------------
  // The test-case loop and the contexts it stores

  /** What is kept of a generated test case until its test case exists. */
  datatype Context = Context(description: Value, input: Value, expectedOutput: Value)

  /** A generated item with a truthy `Description`. */
  predicate Described(item: Json)
  {
    TruthyField(Some(item), "Description")
  }

  /** The key the item's context is stored under: its description as text. */
  function KeyOf(item: Json): string
    requires item != JNull
  {
    ToString(Get(Some(item), "Description").v)
  }

  function ContextOf(item: Json): Context
    requires item != JNull
  {
    var t := Some(item);
    Context(Get(t, "Description").v, Get(t, "Input").v, Get(t, "ExpectedOutput").v)
  }

  /** The POST that creates the test case of a described item, named after its description, with status 1. */
  function CaseRequest(env: Env, item: Json, i: nat): (e: Option<Event>)
    ensures e.Some? <==> Described(item)
    ensures e.Some? ==> && e.value.ExecuteApi? && e.value.verb == "POST" && e.value.url == TestCasesUrl(env)
                        && e.value.body == Some(TestCaseBody(Some(item.fields["Description"]), 1))
                        && e.value.onSuccess == TestCaseCreated
  {
    if Described(item) then Some(PostRequest(TestCasesUrl(env), TestCaseBody(Get(Some(item), "Description").v, 1), TestCaseCreated))
    else None
  }

  function CasePlan(env: Env): Plan
  {
    (item: Json, i: nat) => CaseRequest(env, item, i)
  }

  /** The contexts once the loop has stored those of the described items among the first `n`. */
  function Stored(contexts: map<string, Context>, items: seq<Json>, n: nat): map<string, Context>
    requires n <= |items|
  {
    if n == 0 then contexts
    else
      var m := Stored(contexts, items, n - 1);
      if Described(items[n - 1]) then m[KeyOf(items[n - 1]) := ContextOf(items[n - 1])] else m
  }

  /** A key is stored exactly when it was there before or is the description of a described item. */
  lemma {:induction false} StoredKeys(contexts: map<string, Context>, items: seq<Json>, n: nat, k: string)
    requires n <= |items|
    ensures k in Stored(contexts, items, n) <==>
      k in contexts || exists i :: 0 <= i < n && Described(items[i]) && KeyOf(items[i]) == k
  {
    if n > 0 {
      StoredKeys(contexts, items, n - 1, k);
    }
  }

  /** Of several items with the same description, the last one's context is kept. */
  lemma {:induction false} StoredLast(contexts: map<string, Context>, items: seq<Json>, n: nat, i: nat)
    requires i < n <= |items| && Described(items[i])
    requires forall j :: i < j < n ==> !(Described(items[j]) && KeyOf(items[j]) == KeyOf(items[i]))
    ensures KeyOf(items[i]) in Stored(contexts, items, n)
    ensures Stored(contexts, items, n)[KeyOf(items[i])] == ContextOf(items[i])
  {
    if i < n - 1 {
      StoredLast(contexts, items, n - 1, i);
    }
  }

  /** `claude_cleanJSON`, `JSON.parse` and the `TestCases` check, as for the test steps. */
  function CaseItems(env: Env, generation: Json): (r: Option<seq<Json>>)
  {
    var json := CommonModule.CleanJson(Some(generation));
    if json.Threw? then None
    else
      var obj := env.parse(json.value);
      if obj.None? then None else ItemsOf(obj, "TestCases")
  }

  /** A test case is created exactly for each described item before the first `null` one. */
  lemma CasesIssued(env: Env, items: seq<Json>, e: Event)
    ensures e in Issued(items, CasePlan(env)) <==>
      exists i :: 0 <= i < FirstNull(items) && Described(items[i]) && CaseRequest(env, items[i], i) == Some(e)
  {
    PostsAreSelected(items, FirstNull(items), CasePlan(env), e);
  }

  /** The count is the full length, so one item without a description keeps the count from reaching 0. */
  lemma UndescribedCaseNeverCompletes(env: Env, items: seq<Json>, i: nat)
    requires i < |items| && !Aborted(items) && !Described(items[i])
    ensures Countdown(Some(|items|), |Issued(items, CasePlan(env))|) != Some(0)
  {
    var plan := CasePlan(env);
    assert plan(items[i], i) == CaseRequest(env, items[i], i);
    SkippedItemMeansFewer(items, plan, i);
  }

  /** The key the first success callback looks a context up under: the created test case's name as text. */
  function NameKey(remote: Value): string
    requires Truthy(remote)
  {
    ToString(Field(remote, "Name"))
  }

  /**
   * A created test case that comes back named with the description of a
   * described item finds a stored context, so it gets its test step.
   */
  lemma CreatedCaseFindsContext(contexts: map<string, Context>, items: seq<Json>, i: nat, remote: Value)
    requires i < FirstNull(items) && Described(items[i])
    requires Truthy(remote) && NameKey(remote) == KeyOf(items[i])
    ensures NameKey(remote) in Stored(contexts, items, FirstNull(items))
  {
    StoredKeys(contexts, items, FirstNull(items), NameKey(remote));
  }

  /** The mapping that links a created test case to the requirement. */
  function LinkRequest(env: Env, remote: Value): Event
    requires Truthy(remote)
  {
    PostRequest(LinkUrl(env), RequirementLinkBody(env.artifactId, Field(remote, "TestCaseId")), TestCaseLinked)
  }

  /** The test step made from a stored context: its description, the expected output as result and the input as sample data. */
  function ContextStep(env: Env, remote: Value, c: Context): Event
    requires Truthy(remote)
  {
    var id := Field(remote, "TestCaseId");
    PostRequest(CaseStepsUrl(env, id),
      TestStepBody(env.projectId, id, c.description, c.expectedOutput, c.input, None), TestCaseStepCreated)
  }

  /**
   * The completion request for a requirement: the action's system prompt,
   * and the name with the description only when `artifact_descriptions`
   * is exactly `True`.
   */
  function CompletionRequest(env: Env, action: Option<string>, requirement: Value): Event
    requires Truthy(requirement)
  {
    AssistantModule.ApiRequest(env.settings, RequirementSystemPrompt(env.settings, action),
      Prompts.UserPrompt(Field(requirement, "Name"), Field(requirement, "Description"),
        SettingIsTrue(env.settings, Prompts.DESCRIPTIONS), env.plainText),
      TestCaseResponse, OperationFailure)
  }

  /** What the completing callback shows. */
  const COMPLETION: seq<Event> := [HideMessage, ReloadForm, ShowSuccess(Constants.TEST_CASES_CREATED)]

  /**
   * The requirement screen's part of `global.localState`, and the host
   * calls made so far. The source stores the per-description contexts in
   * `localState` itself; here they are the map `contexts`, so a description
   * that collides with a field or an inherited member is outside the model.
   */
  class Screen {
    const env: Env
    var action: Option<string>
    var running: bool
    var remoteRequirement: Value
    var testCaseCount: Option<int>
    var contexts: map<string, Context>
    var log: seq<Event>

    constructor(env: Env)
      ensures this.env == env && action == None && !running && remoteRequirement == None
      ensures testCaseCount == None && contexts == map[] && log == []
    {
      this.env := env;
      action := None;
      running := false;
      remoteRequirement := None;
      testCaseCount := None;
      contexts := map[];
      log := [];
    }

    twostate predicate StateKept()
      reads this
    {
      action == old(action) && running == old(running) && remoteRequirement == old(remoteRequirement)
      && testCaseCount == old(testCaseCount) && contexts == old(contexts)
    }

    /** `localState = {action: name, running: true}`. */
    predicate Started(name: string)
      reads this
    {
      action == Some(name) && running && remoteRequirement == None && testCaseCount == None && contexts == map[]
    }

    /**
     * The guard of every entry point: the settings check, then the busy
     * check (which warns and leaves the state alone), then the state is
     * replaced.
     */
    method Begin(name: string) returns (started: bool)
      modifies this
      ensures var v := AssistantModule.VerifyRequiredSettings(env.settings);
        && (started <==> v.ok && !old(running))
        && (!v.ok ==> StateKept() && log == old(log) + v.shown)
        && (v.ok && old(running) ==> StateKept() && log == old(log) + [ShowWarning(BUSY)])
        && (started ==> Started(name) && log == old(log))
    {
      var v := AssistantModule.VerifyRequiredSettings(env.settings);
      log := log + v.shown;
      if !v.ok {
        return false;
      }
      if running {
        log := log + [ShowWarning(BUSY)];
        return false;
      }
      action, running, remoteRequirement, testCaseCount, contexts := Some(name), true, None, None, map[];
      return true;
    }

    /** `generateTestCases`: the guard, then the permission to create test cases decides between a GET and an error. */
    method GenerateTestCases()
      modifies this
      ensures var v := AssistantModule.VerifyRequiredSettings(env.settings);
        && (!v.ok ==> StateKept() && log == old(log) + v.shown)
        && (v.ok && old(running) ==> StateKept() && log == old(log) + [ShowWarning(BUSY)])
        && (v.ok && !old(running) ==>
              && action == Some(GENERATE_TEST_CASES) && remoteRequirement == None && testCaseCount == None
              && contexts == map[] && (running <==> Constants.TEST_CASE in env.canCreate)
              && log == old(log) + [if Constants.TEST_CASE in env.canCreate then GetRequest(RequirementUrl(env), RequirementLoaded)
                                    else ShowError(Constants.PERMISSION_ERROR)])
    {
      var started := Begin(GENERATE_TEST_CASES);
      if !started {
        return;
      }
      if Constants.TEST_CASE !in env.canCreate {
        log := log + [ShowError(Constants.PERMISSION_ERROR)];
        running := false;
      } else {
        log := log + [GetRequest(RequirementUrl(env), RequirementLoaded)];
      }
    }

    /**
     * `generateTasks`: the guard, after which the permission check reads
     * an undefined variable and throws, leaving `running` set with no
     * request in flight.
     */
    method GenerateTasks()
      modifies this
      ensures var v := AssistantModule.VerifyRequiredSettings(env.settings);
        && (!v.ok ==> StateKept() && log == old(log) + v.shown)
        && (v.ok && old(running) ==> StateKept() && log == old(log) + [ShowWarning(BUSY)])
        && (v.ok && !old(running) ==> Started(GENERATE_TASKS) && log == old(log))
    {
      var started := Begin(GENERATE_TASKS);
    }

    /** `generateSteps`: the guard, then the same throw. */
    method GenerateSteps()
      modifies this
      ensures var v := AssistantModule.VerifyRequiredSettings(env.settings);
        && (!v.ok ==> StateKept() && log == old(log) + v.shown)
        && (v.ok && old(running) ==> StateKept() && log == old(log) + [ShowWarning(BUSY)])
        && (v.ok && !old(running) ==> Started(GENERATE_STEPS) && log == old(log))
    {
      var started := Begin(GENERATE_STEPS);
    }

    /** `generateRisks`: the guard, then the same throw. */
    method GenerateRisks()
      modifies this
      ensures var v := AssistantModule.VerifyRequiredSettings(env.settings);
        && (!v.ok ==> StateKept() && log == old(log) + v.shown)
        && (v.ok && old(running) ==> StateKept() && log == old(log) + [ShowWarning(BUSY)])
        && (v.ok && !old(running) ==> Started(GENERATE_RISKS) && log == old(log))
    {
      var started := Begin(GENERATE_RISKS);
    }

    /** `getRequirementData_success`: a truthy requirement is stored and the requirement types are fetched. */
    method GetRequirementDataSuccess(remote: Value)
      modifies this
      ensures Truthy(remote) ==>
        remoteRequirement == remote && running == old(running) && log == old(log) + [GetRequest(TypesUrl(env), RequirementTypesLoaded)]
      ensures !Truthy(remote) ==>
        remoteRequirement == old(remoteRequirement) && !running && log == old(log) + [ShowError(Constants.EMPTY_REQUIREMENT)]
      ensures action == old(action) && testCaseCount == old(testCaseCount) && contexts == old(contexts)
    {
      if Truthy(remote) {
        remoteRequirement := remote;
        log := log + [GetRequest(TypesUrl(env), RequirementTypesLoaded)];
      } else {
        log := log + [ShowError(Constants.EMPTY_REQUIREMENT)];
        running := false;
      }
    }

    /**
     * `getRequirementTypes_success`: without types or a stored requirement
     * an error; for `generateSteps` the type search decides (a throw ends
     * the callback silently, an unsupported type shows an error); then
     * one completion request.
     */
    method GetRequirementTypesSuccess(types: Value)
      modifies this
      ensures !(Truthy(types) && Truthy(old(remoteRequirement))) ==>
        !running && log == old(log) + [ShowError(Constants.NO_REQUIREMENT_TYPES)]
      ensures Truthy(types) && Truthy(old(remoteRequirement)) ==>
        var support := StepsSupport(TypeEntries(types), Field(old(remoteRequirement), "RequirementTypeId"));
        if action == Some(GENERATE_STEPS) && support == Threw then running == old(running) && log == old(log)
        else if action == Some(GENERATE_STEPS) && support == Normal(false) then
          !running && log == old(log) + [ShowError(Constants.REQUIREMENT_NOT_STEPS)]
        else running == old(running) && log == old(log) + [CompletionRequest(env, action, old(remoteRequirement))]
      ensures action == old(action) && remoteRequirement == old(remoteRequirement)
      ensures testCaseCount == old(testCaseCount) && contexts == old(contexts)
    {
      if !(Truthy(types) && Truthy(remoteRequirement)) {
        log := log + [ShowError(Constants.NO_REQUIREMENT_TYPES)];
        running := false;
        return;
      }
      if action == Some(GENERATE_STEPS) {
        var support := SupportsSteps(TypeEntries(types), Field(remoteRequirement, "RequirementTypeId"));
        if support.Threw? {
          return;
        }
        if !support.value {
          log := log + [ShowError(Constants.REQUIREMENT_NOT_STEPS)];
          running := false;
          return;
        }
      }
      Send(CompletionRequest(env, action, remoteRequirement));
    }

    /** An event is appended to the log and nothing else changes. */
    method Send(e: Event)
      modifies this
      ensures log == old(log) + [e]
      ensures action == old(action) && running == old(running) && remoteRequirement == old(remoteRequirement)
      ensures testCaseCount == old(testCaseCount) && contexts == old(contexts)
    {
      log := log + [e];
    }

    /** What `generateTestCasesFromChoice(generation)` leaves behind. */
    twostate predicate CasesCreated(generation: Json)
      reads this
    {
      && action == old(action) && remoteRequirement == old(remoteRequirement)
      && match CaseItems(env, generation)
         case None =>
           testCaseCount == old(testCaseCount) && contexts == old(contexts) && !running
           && log == old(log) + [ShowError(NO_CASES)]
         case Some(items) =>
           && testCaseCount == Some(|items|)
           && contexts == Stored(old(contexts), items, FirstNull(items))
           && log == old(log) + Issued(items, CasePlan(env)) + (if Aborted(items) then [ShowError(NO_CASES)] else [])
           && (running <==> old(running) && !Aborted(items))
    }

    /**
     * The loop of `generateTestCasesFromChoice`: each described item's
     * context is stored under its description and its test case is
     * created, in array order, until a `null` item throws.
     */
    method CreateCases(items: seq<Json>) returns (aborted: bool)
      modifies this
      ensures aborted <==> Aborted(items)
      ensures contexts == Stored(old(contexts), items, FirstNull(items))
      ensures log == old(log) + Issued(items, CasePlan(env))
      ensures action == old(action) && running == old(running)
      ensures remoteRequirement == old(remoteRequirement) && testCaseCount == old(testCaseCount)
    {
      var i := 0;
      while i < |items| && items[i] != JNull
        invariant i <= FirstNull(items)
        invariant contexts == Stored(old(contexts), items, i)
        invariant log == old(log) + Posts(items, i, CasePlan(env))
        invariant action == old(action) && running == old(running)
        invariant remoteRequirement == old(remoteRequirement) && testCaseCount == old(testCaseCount)
      {
        var item := items[i];
        var e := CaseRequest(env, item, i);
        assert CasePlan(env)(item, i) == e;
        if Described(item) {
          Record(KeyOf(item), ContextOf(item), e.value);
        }
        i := i + 1;
      }
      aborted := i < |items|;
    }

    /** One described item: its context is stored and its request issued. */
    method Record(key: string, context: Context, e: Event)
      modifies this
      ensures contexts == old(contexts)[key := context] && log == old(log) + [e]
      ensures action == old(action) && running == old(running)
      ensures remoteRequirement == old(remoteRequirement) && testCaseCount == old(testCaseCount)
    {
      contexts := contexts[key := context];
      log := log + [e];
    }

    /**
     * `generateTestCasesFromChoice`: the count is set to the full length
     * of `TestCases` before the loop; a reading failure or a throw in the
     * loop shows an error and clears `running`.
     */
    method GenerateTestCasesFromChoice(generation: Json)
      modifies this
      ensures CasesCreated(generation)
    {
      var read := CaseItems(env, generation);
      if read.None? {
        log := log + [ShowError(NO_CASES)];
        running := false;
        return;
      }
      testCaseCount := Some(|read.value|);
      var aborted := CreateCases(read.value);
      if aborted {
        log := log + [ShowError(NO_CASES)];
        running := false;
      }
    }

    /**
     * `processResponse`: no status check; a missing response, an
     * unparseable body or a missing text shows its error and clears
     * `running`. A text is turned into test cases for `generateTestCases`,
     * ignored for the other three actions, and otherwise `running` is
     * cleared.
     */
    method ProcessResponse(response: Option<RestResponse>)
      modifies this
      ensures match Responses.LooseVerdict(response, env.parse)
        case Reject(m) =>
          && !running && log == old(log) + [ShowError(m)]
          && action == old(action) && remoteRequirement == old(remoteRequirement)
          && testCaseCount == old(testCaseCount) && contexts == old(contexts)
        case Accept(text, _) =>
          if old(action) == Some(GENERATE_TEST_CASES) then CasesCreated(text)
          else if old(action) in {Some(GENERATE_TASKS), Some(GENERATE_STEPS), Some(GENERATE_RISKS)} then
            StateKept() && log == old(log)
          else
            && !running && log == old(log)
            && action == old(action) && remoteRequirement == old(remoteRequirement)
            && testCaseCount == old(testCaseCount) && contexts == old(contexts)
    {
      var v := Responses.LooseVerdict(response, env.parse);
      match v
      case Reject(m) =>
        log := log + [ShowError(m)];
        running := false;
      case Accept(text, _) =>
        if action == Some(GENERATE_TEST_CASES) {
          GenerateTestCasesFromChoice(text);
        } else if action in {Some(GENERATE_TASKS), Some(GENERATE_STEPS), Some(GENERATE_RISKS)} {
        } else {
          running := false;
        }
    }

    /**
     * `generateTestCasesFromChoice_success`: a created test case is linked
     * to the requirement, and gets a test step when a context is stored
     * under its name.
     */
    method GenerateTestCasesFromChoiceSuccess(remote: Value)
      modifies this
      ensures Truthy(remote) ==>
        log == old(log) + [LinkRequest(env, remote)]
          + (if NameKey(remote) in contexts then [ContextStep(env, remote, contexts[NameKey(remote)])] else [])
      ensures !Truthy(remote) ==> log == old(log)
      ensures StateKept()
    {
      if Truthy(remote) {
        log := log + [LinkRequest(env, remote)];
        var key := NameKey(remote);
        if key in contexts {
          log := log + [ContextStep(env, remote, contexts[key])];
        }
      }
    }

    /** `generateTestCasesFromChoice_success2`: the count goes down, completion at exactly 0, `running` cleared every time. */
    method GenerateTestCasesFromChoiceSuccess2()
      modifies this
      ensures testCaseCount == Decrement(old(testCaseCount)) && !running
      ensures log == old(log) + (if testCaseCount == Some(0) then COMPLETION else [])
      ensures action == old(action) && remoteRequirement == old(remoteRequirement) && contexts == old(contexts)
    {
      testCaseCount := Decrement(testCaseCount);
      if testCaseCount == Some(0) {
        log := log + COMPLETION;
      }
      running := false;
    }

    /** `generateTestCasesFromChoice_success3`: a created step only clears `running`. */
    method GenerateTestCasesFromChoiceSuccess3()
      modifies this
      ensures !running && log == old(log)
      ensures action == old(action) && remoteRequirement == old(remoteRequirement)
      ensures testCaseCount == old(testCaseCount) && contexts == old(contexts)
    {
      running := false;
    }

    /** `claude_operation_failure`: `running` is cleared, then at most one error is shown. */
    method ClaudeOperationFailure(response: Value, messagesLoaded: bool)
      modifies this
      ensures !running && log == old(log) + CommonModule.FailureEvents(response, messagesLoaded)
      ensures action == old(action) && remoteRequirement == old(remoteRequirement)
      ensures testCaseCount == old(testCaseCount) && contexts == old(contexts)
    {
      running := false;
      log := log + CommonModule.FailureEvents(response, messagesLoaded);
    }
  }
}
