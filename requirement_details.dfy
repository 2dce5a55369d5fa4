/**
 * The test-case generator of the requirement screen, browser copy
 * (requirementDetails.js), with its own settings check, request builder,
 * fence cleaner and failure handler, and a connection test. It differs
 * from the module copy in where `running` is cleared, in storing a context
 * for every item, and in its prompts.
 */
module RequirementDetails {
  import opened Wrappers
  import opened Js
  import opened Spira
  import opened FanOut
  import Common
  import CommonModule
  import Assistant
  import Responses
  import Prompts
  import Constants
  import M = RequirementDetailsModule

  /** The base prompt glued to the test-case prompt, whose built-in text starts with a space. */
  function CaseSystemPrompt(settings: Option<Settings>): string
  {
    Prompts.SystemPrompt(settings, "", M.TEST_CASE_PROMPT_KEY, Constants.BROWSER_TEST_CASES_PROMPT)
  }

  /** With no test-case prompt of its own, this copy sends the module copy's system prompt. */
  lemma SameDefaultPrompt(settings: Option<Settings>)
    requires !HasSetting(settings, M.TEST_CASE_PROMPT_KEY)
    ensures CaseSystemPrompt(settings) == M.RequirementSystemPrompt(settings, Some(M.GENERATE_TEST_CASES))
  {
    Prompts.SeparatorPlacement(settings, M.TEST_CASE_PROMPT_KEY, Constants.REQUIREMENT_GENERATE_TEST_CASES);
  }

  /**
   * The completion request: the description is added for any truthy
   * `artifact_descriptions`, so `False` adds it too.
   */
  function CompletionRequest(env: Env, requirement: Value): Event
    requires Truthy(requirement)
  {
    Assistant.PageApiRequest(env.settings, CaseSystemPrompt(env.settings),
      Prompts.UserPrompt(Field(requirement, "Name"), Field(requirement, "Description"),
        HasSetting(env.settings, Prompts.DESCRIPTIONS), env.plainText),
      TestCaseResponse, OperationFailure)
  }

  /**
   * `claude_cleanJSON` (which throws on a non-string), `JSON.parse` and the
   * `TestCases` check: a throw, a refusal (`None`), or the generated items.
   */
  function CaseItems(env: Env, generation: Value): Completion<Option<seq<Json>>>
  {
    var json := Common.CleanJson(generation);
    if json.Threw? then Threw
    else
      var obj := env.parse(json.value);
      Normal(if obj.None? then None else ItemsOf(obj, "TestCases"))
  }

  /** The contexts once the loop has stored one for each of the first `n` items, described or not. */
  function StoredAll(contexts: map<string, M.Context>, items: seq<Json>, n: nat): map<string, M.Context>
    requires n <= FirstNull(items)
  {
    if n == 0 then contexts
    else StoredAll(contexts, items, n - 1)[M.KeyOf(items[n - 1]) := M.ContextOf(items[n - 1])]
  }

  /** A key is stored exactly when it was there before or is the text of some item's description. */
  lemma {:induction false} StoredAllKeys(contexts: map<string, M.Context>, items: seq<Json>, n: nat, k: string)
    requires n <= FirstNull(items)
    ensures k in StoredAll(contexts, items, n) <==>
      k in contexts || exists i :: 0 <= i < n && M.KeyOf(items[i]) == k
  {
    if n > 0 {
      StoredAllKeys(contexts, items, n - 1, k);
      var before := StoredAll(contexts, items, n - 1);
      assert StoredAll(contexts, items, n) == before[M.KeyOf(items[n - 1]) := M.ContextOf(items[n - 1])];
      if M.KeyOf(items[n - 1]) == k {
        assert 0 <= n - 1 < n && M.KeyOf(items[n - 1]) == k;
      } else if k !in before {
        assert !exists i :: 0 <= i < n - 1 && M.KeyOf(items[i]) == k;
      }
    }
  }

  /** An item without a description is stored under the key `undefined`. */
  lemma UndescribedStoredAsUndefined(contexts: map<string, M.Context>, items: seq<Json>, i: nat)
    requires i < FirstNull(items) && Get(Some(items[i]), "Description").v == None
    ensures "undefined" in StoredAll(contexts, items, FirstNull(items))
  {
    StoredAllKeys(contexts, items, FirstNull(items), "undefined");
  }

  /** Every key the module copy stores for the same items, this copy stores too. */
  lemma {:induction false} StoresMoreThanModule(contexts: map<string, M.Context>, items: seq<Json>, n: nat, k: string)
    requires n <= FirstNull(items)
    requires k in M.Stored(contexts, items, n)
    ensures k in StoredAll(contexts, items, n)
  {
    M.StoredKeys(contexts, items, n, k);
    StoredAllKeys(contexts, items, n, k);
    if k !in contexts {
      var i :| 0 <= i < n && M.Described(items[i]) && M.KeyOf(items[i]) == k;
      assert M.KeyOf(items[i]) == k;
    }
  }

  const COMPLETION: seq<Event> := M.COMPLETION

  class Screen {
    const env: Env
    var action: Option<string>
    var running: bool
    var remoteRequirement: Value
    var testCaseCount: Option<int>
    var contexts: map<string, M.Context>
    var log: seq<Event>

    /** `let localState = {}`. */
    constructor(env: Env)
      ensures this.env == env && action == None && !running && remoteRequirement == None
      ensures testCaseCount == None && contexts == map[] && log == []
    {
      this.env := env;
      action := None;
      running := false;
      remoteRequirement := None;
      testCaseCount := None;
      contexts := map[];
      log := [];
    }

    twostate predicate StateKept()
      reads this
    {
      action == old(action) && running == old(running) && remoteRequirement == old(remoteRequirement)
      && testCaseCount == old(testCaseCount) && contexts == old(contexts)
    }

    /** `testClaudeConnection`: one fixed request, the state untouched. */
    method TestClaudeConnection()
      modifies this
      ensures StateKept()
      ensures log == old(log) + [Assistant.PageApiRequest(env.settings, Constants.CONNECTION_SYSTEM_PROMPT,
        Constants.CONNECTION_USER_PROMPT, ConnectionResponse, ConnectionFailure)]
    {
      log := log + [Assistant.PageApiRequest(env.settings, Constants.CONNECTION_SYSTEM_PROMPT,
        Constants.CONNECTION_USER_PROMPT, ConnectionResponse, ConnectionFailure)];
    }

    /** The connection test's success callback: success for a response with content, an error otherwise. */
    method ConnectionSucceeded(response: Option<RestResponse>)
      modifies this
      ensures StateKept()
      ensures log == old(log) + [if response.Some? && CommonModule.HasContent(response.value)
        then ShowSuccess(Constants.CONNECTION_OK) else ShowError(Constants.CONNECTION_INCOMPLETE)]
    {
      if response.Some? && CommonModule.HasContent(response.value) {
        log := log + [ShowSuccess(Constants.CONNECTION_OK)];
      } else {
        log := log + [ShowError(Constants.CONNECTION_INCOMPLETE)];
      }
    }

    /** The connection test's failure callback: the error converted to text. */
    method ConnectionFailed(error: Value)
      modifies this
      ensures StateKept() && log == old(log) + [ShowError(Constants.CONNECTION_FAILED + ToString(error))]
    {
      log := log + [ShowError(Constants.CONNECTION_FAILED + ToString(error))];
    }

    /**
     * `claude_generateTestCases`: this copy's settings check, the busy
     * check, then `{action, running: true}` and the permission check.
     */
    method GenerateTestCases()
      modifies this
      ensures var v := Assistant.PageVerifySettings(env.settings);
        && (!v.ok ==> StateKept() && log == old(log) + v.shown)
        && (v.ok && old(running) ==> StateKept() && log == old(log) + [ShowWarning(M.BUSY)])
        && (v.ok && !old(running) ==>
              && action == Some(M.GENERATE_TEST_CASES) && remoteRequirement == None && testCaseCount == None
              && contexts == map[] && (running <==> Constants.TEST_CASE in env.canCreate)
              && log == old(log) + [if Constants.TEST_CASE in env.canCreate then GetRequest(M.RequirementUrl(env), RequirementLoaded)
                                    else ShowError(Constants.PERMISSION_ERROR)])
    {
      var v := Assistant.PageVerifySettings(env.settings);
      log := log + v.shown;
      if !v.ok {
        return;
      }
      if running {
        log := log + [ShowWarning(M.BUSY)];
        return;
      }
      action, running, remoteRequirement, testCaseCount, contexts := Some(M.GENERATE_TEST_CASES), true, None, None, map[];
      if Constants.TEST_CASE !in env.canCreate {
        log := log + [ShowError(Constants.PERMISSION_ERROR)];
        running := false;
      } else {
        log := log + [GetRequest(M.RequirementUrl(env), RequirementLoaded)];
      }
    }

    /** `claude_getRequirementData_success`: no type lookup here; a truthy requirement goes straight to the completion request. */
    method GetRequirementDataSuccess(remote: Value)
      modifies this
      ensures Truthy(remote) ==>
        remoteRequirement == remote && running == old(running) && log == old(log) + [CompletionRequest(env, remote)]
      ensures !Truthy(remote) ==>
        remoteRequirement == old(remoteRequirement) && !running && log == old(log) + [ShowError(Constants.EMPTY_REQUIREMENT)]
      ensures action == old(action) && testCaseCount == old(testCaseCount) && contexts == old(contexts)
    {
      if Truthy(remote) {
        remoteRequirement := remote;
        Send(CompletionRequest(env, remote));
      } else {
        log := log + [ShowError(Constants.EMPTY_REQUIREMENT)];
        running := false;
      }
    }

    /**
     * The loop of `claude_generateTestCasesFromChoice`: every item's context
     * is stored under its description's text, and a test case is created
     * for each described item, until a `null` item throws.
     */
    method CreateCases(items: seq<Json>) returns (threw: bool)
      modifies this
      ensures threw <==> Aborted(items)
      ensures contexts == StoredAll(old(contexts), items, FirstNull(items))
      ensures log == old(log) + Issued(items, M.CasePlan(env))
      ensures action == old(action) && running == old(running)
      ensures remoteRequirement == old(remoteRequirement) && testCaseCount == old(testCaseCount)
    {
      var i := 0;
      while i < |items| && items[i] != JNull
        invariant i <= FirstNull(items)
        invariant contexts == StoredAll(old(contexts), items, i)
        invariant log == old(log) + Posts(items, i, M.CasePlan(env))
        invariant action == old(action) && running == old(running)
        invariant remoteRequirement == old(remoteRequirement) && testCaseCount == old(testCaseCount)
      {
        var item := items[i];
        var e := M.CaseRequest(env, item, i);
        assert M.CasePlan(env)(item, i) == e;
        Record(M.KeyOf(item), M.ContextOf(item), e);
        i := i + 1;
      }
      threw := i < |items|;
    }

    /** An event is appended to the log and nothing else changes. */
    method Send(e: Event)
      modifies this
      ensures log == old(log) + [e]
      ensures action == old(action) && running == old(running) && remoteRequirement == old(remoteRequirement)
      ensures testCaseCount == old(testCaseCount) && contexts == old(contexts)
    {
      log := log + [e];
    }

    /** One item: its context is stored and its request, if any, issued. */
    method Record(key: string, context: M.Context, e: Option<Event>)
      modifies this
      ensures contexts == old(contexts)[key := context]
      ensures log == old(log) + (if e.Some? then [e.value] else [])
      ensures action == old(action) && running == old(running)
      ensures remoteRequirement == old(remoteRequirement) && testCaseCount == old(testCaseCount)
    {
      contexts := contexts[key := context];
      if e.Some? {
        log := log + [e.value];
      }
    }

    /**
     * `claude_generateTestCasesFromChoice`: nothing for a falsy text; a
     * read that fails shows an error but leaves `running` set; a throw
     * (from the cleaner or at a `null` item) reaches the caller.
     */
    method GenerateTestCasesFromChoice(generation: Value) returns (threw: bool)
      modifies this
      ensures action == old(action) && remoteRequirement == old(remoteRequirement) && running == old(running)
      ensures !Truthy(generation) ==> !threw && StateKept() && log == old(log)
      ensures Truthy(generation) ==> match CaseItems(env, generation)
        case Threw => threw && StateKept() && log == old(log)
        case Normal(None) => !threw && StateKept() && log == old(log) + [ShowError(M.NO_CASES)]
        case Normal(Some(items)) =>
          && (threw <==> Aborted(items)) && testCaseCount == Some(|items|)
          && contexts == StoredAll(old(contexts), items, FirstNull(items))
          && log == old(log) + Issued(items, M.CasePlan(env))
    {
      if !Truthy(generation) {
        return false;
      }
      var read := CaseItems(env, generation);
      match read
      case Threw =>
        threw := true;
      case Normal(None) =>
        log := log + [ShowError(M.NO_CASES)];
        threw := false;
      case Normal(Some(items)) =>
        testCaseCount := Some(|items|);
        threw := CreateCases(items);
    }

    /**
     * `claude_processResponse`: the null, status and content checks; a
     * text is turned into test cases only for `generateTestCases`, and a
     * throw on the way shows `INVALID_CONTENT` and clears `running`.
     */
    method ProcessResponse(response: Option<RestResponse>)
      modifies this
      ensures action == old(action) && remoteRequirement == old(remoteRequirement)
      ensures match Responses.PageVerdictOf(response, env.parse, true)
        case Refused(m) =>
          !running && log == old(log) + [ShowError(m)] && testCaseCount == old(testCaseCount) && contexts == old(contexts)
        case Generated(text) =>
          if action != Some(M.GENERATE_TEST_CASES) then
            !running && log == old(log) && testCaseCount == old(testCaseCount) && contexts == old(contexts)
          else if !Truthy(text) then StateKept() && log == old(log)
          else match CaseItems(env, text)
            case Threw =>
              !running && log == old(log) + [ShowError(Constants.INVALID_CONTENT)]
              && testCaseCount == old(testCaseCount) && contexts == old(contexts)
            case Normal(None) => StateKept() && log == old(log) + [ShowError(M.NO_CASES)]
            case Normal(Some(items)) =>
              && testCaseCount == Some(|items|)
              && contexts == StoredAll(old(contexts), items, FirstNull(items))
              && log == old(log) + Issued(items, M.CasePlan(env))
                   + (if Aborted(items) then [ShowError(Constants.INVALID_CONTENT)] else [])
              && (running <==> old(running) && !Aborted(items))
    {
      var v := Responses.PageVerdictOf(response, env.parse, true);
      match v
      case Refused(m) =>
        log := log + [ShowError(m)];
        running := false;
      case Generated(text) =>
        if action == Some(M.GENERATE_TEST_CASES) {
          var threw := GenerateTestCasesFromChoice(text);
          if threw {
            log := log + [ShowError(Constants.INVALID_CONTENT)];
            running := false;
          }
        } else {
          running := false;
        }
    }

    /** `claude_generateTestCasesFromChoice_success`: as in the module copy. */
    method GenerateTestCasesFromChoiceSuccess(remote: Value)
      modifies this
      ensures Truthy(remote) ==>
        log == old(log) + [M.LinkRequest(env, remote)]
          + (if M.NameKey(remote) in contexts then [M.ContextStep(env, remote, contexts[M.NameKey(remote)])] else [])
      ensures !Truthy(remote) ==> log == old(log)
      ensures StateKept()
    {
      if Truthy(remote) {
        log := log + [M.LinkRequest(env, remote)];
        var key := M.NameKey(remote);
        if key in contexts {
          log := log + [M.ContextStep(env, remote, contexts[key])];
        }
      }
    }

    /** `claude_generateTestCasesFromChoice_success2`: the count goes down, completion at 0, `running` cleared every time. */
    method GenerateTestCasesFromChoiceSuccess2()
      modifies this
      ensures testCaseCount == Decrement(old(testCaseCount)) && !running
      ensures log == old(log) + (if testCaseCount == Some(0) then COMPLETION else [])
      ensures action == old(action) && remoteRequirement == old(remoteRequirement) && contexts == old(contexts)
    {
      testCaseCount := Decrement(testCaseCount);
      if testCaseCount == Some(0) {
        log := log + COMPLETION;
      }
      running := false;
    }

    /** `claude_generateTestCasesFromChoice_success3`: a created step only clears `running`. */
    method GenerateTestCasesFromChoiceSuccess3()
      modifies this
      ensures !running && log == old(log)
      ensures action == old(action) && remoteRequirement == old(remoteRequirement)
      ensures testCaseCount == old(testCaseCount) && contexts == old(contexts)
    {
      running := false;
    }

    /** This copy's `claude_operation_failure`: `running` is cleared, then at most one error is shown. */
    method ClaudeOperationFailure(response: Value)
      modifies this
      ensures !running && log == old(log) + CommonModule.FailureEvents(response, true)
      ensures action == old(action) && remoteRequirement == old(remoteRequirement)
      ensures testCaseCount == old(testCaseCount) && contexts == old(contexts)
    {
      running := false;
      log := log + CommonModule.FailureEvents(response, true);
    }
  }
}
