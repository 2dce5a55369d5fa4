/**
 * The code generator of the task screen, browser copy (taskDetails.js).
 * It carries its own settings check, request builder, fence cleaner and
 * failure handler, offers the option lists untrimmed, and really runs the
 * two phases: after the code file is uploaded it asks for the unit test and
 * uploads that too. A generation that does not parse shows an error but
 * leaves the job running.
 */
module TaskDetails {
  import opened Wrappers
  import opened Js
  import opened Spira
  import CommonModule
  import Common
  import Assistant
  import Prompts
  import Options
  import Responses
  import Constants
  import M = TaskDetailsModule

  /** The message shown when no unit test file can be read out of a generation. */
  const NO_TEST := Constants.CouldNotGenerate(Constants.UNIT_TEST_CODE)

  /** The built-in base prompt of the second phase: the JSON analyst followed by the code format instructions. */
  const TEST_BASE_PROMPT := "You are a business analyst "
    + "that only speaks in JSON." + (Constants.JSON_OBJECT_ONLY + (Constants.NO_SURROUNDING_TEXT
    + (Constants.CODE_FORMAT + Constants.NO_CODE_BLOCKS)))

  /** What this copy's reader makes of a generation. */
  datatype Reading =
    | Skipped                     // a falsy generation: nothing happens
    | CleanFailed                 // not a string: the cleaner throws
    | Unparsed                    // the cleaned text is not JSON
    | Incomplete                  // no truthy Filename or Code
    | Complete(file: M.File)

  function ReadGeneration(env: Env, generation: Value): (r: Reading)
    ensures r.Skipped? <==> !Truthy(generation)
    ensures r.CleanFailed? <==> Truthy(generation) && !generation.value.JStr?
    ensures r.Complete? ==> exists json :: Common.CleanJson(generation) == Normal(json) && M.FileOf(env.parse(json)) == Some(r.file)
  {
    if !Truthy(generation) then Skipped
    else match Common.CleanJson(generation)
      case Threw => CleanFailed
      case Normal(json) =>
        var obj := env.parse(json);
        if obj.None? then Unparsed
        else match M.FileOf(obj)
          case None => Incomplete
          case Some(f) => Complete(f)
  }

  /**
   * On a string both copies read the same file whenever both cleaners
   * give the same text (as they do on a tagged block); they differ in
   * that this copy tells a parse failure apart.
   */
  lemma ReadsLikeModule(env: Env, generation: Json)
    requires generation.JStr? && generation.s != ""
    requires Common.CleanJson(Some(generation)) == CommonModule.CleanJson(Some(generation))
    ensures ReadGeneration(env, Some(generation)).Complete? <==> M.GeneratedFile(env, generation).Some?
    ensures ReadGeneration(env, Some(generation)).Complete? ==>
      M.GeneratedFile(env, generation) == Some(ReadGeneration(env, Some(generation)).file)
    ensures ReadGeneration(env, Some(generation)).Unparsed? ==> M.GeneratedFile(env, generation).None?
  {
  }

  /** The second phase's system prompt: `global_prompt` or its own built-in base, a space, the filled-in test prompt. */
  function TestSystemPrompt(settings: Option<Settings>, language: Option<string>, framework: Option<string>): (p: string)
    ensures HasSetting(settings, "global_prompt") ==> settings.value["global_prompt"] + " " <= p
    ensures !HasSetting(settings, "global_prompt") ==> TEST_BASE_PROMPT + " " <= p
  {
    var base := SettingOr(settings, "global_prompt", TEST_BASE_PROMPT);
    var p := base + " " + Prompts.BrowserCodePrompt(Prompts.TextOrUndefined(language), framework, true);
    assert p[..|base + " "|] == base + " ";
    p
  }

  /** The second phase's request: the test prompt for the stored task, answered at `TestResponse`. */
  function TestRequest(env: Env, remote: Value, language: Option<string>, framework: Option<string>): (e: Event)
    requires Get(remote, "Name").Got?
  {
    var user := Prompts.UserPrompt(Get(remote, "Name").v, Get(remote, "Description").v,
      SettingIsTrue(env.settings, Prompts.DESCRIPTIONS), env.plainText);
    Assistant.PageApiRequest(env.settings, TestSystemPrompt(env.settings, language, framework), user, TestResponse, OperationFailure)
  }

  class Screen {
    const env: Env
    var action: Option<string>
    var running: bool
    var codingLanguage: Option<string>
    var testFramework: Option<string>
    var generateTests: bool
    var tokensUse: Option<nat>
    var remoteTask: Value
    var log: seq<Event>

    /** `let localState = {}`. */
    constructor(env: Env)
      ensures this.env == env && action == None && !running && codingLanguage == None && testFramework == None
      ensures !generateTests && tokensUse == None && remoteTask == None && log == []
    {
      this.env := env;
      action := None;
      running := false;
      codingLanguage := None;
      testFramework := None;
      generateTests := false;
      tokensUse := None;
      remoteTask := None;
      log := [];
    }

    /** Every field of `localState` but `running` as it was. */
    twostate predicate OthersKept()
      reads this
    {
      && action == old(action) && codingLanguage == old(codingLanguage)
      && testFramework == old(testFramework) && generateTests == old(generateTests)
      && tokensUse == old(tokensUse) && remoteTask == old(remoteTask)
    }

    twostate predicate StateKept()
      reads this
    {
      OthersKept() && running == old(running)
    }

    predicate Started(language: string, framework: Option<string>, withTests: bool)
      reads this
    {
      && action == Some(M.GENERATE_CODE) && running && codingLanguage == Some(language)
      && testFramework == framework && generateTests == withTests && tokensUse == Some(0) && remoteTask == None
    }

    /**
     * The outcome of a response handler once the text is read: nothing for
     * a falsy text, `INVALID_CONTENT` for a cleaner throw, the file error
     * for a parse failure (`running` kept) or a missing field (`running`
     * cleared), and otherwise one upload.
     */
    twostate predicate Handled(reading: Reading, noFile: string, onSuccess: Callback)
      reads this
    {
      && OthersKept()
      && match reading
        case Skipped => running == old(running) && log == old(log)
        case CleanFailed => !running && log == old(log) + [ShowError(Constants.INVALID_CONTENT)]
        case Unparsed => running == old(running) && log == old(log) + [ShowError(noFile)]
        case Incomplete => !running && log == old(log) + [ShowError(noFile)]
        case Complete(f) => running == old(running) && log == old(log) + [M.DocumentRequest(env, f, onSuccess)]
    }

    /** `claude_generateCode`: this copy's settings check, then the dialog over the untrimmed entries. */
    method GenerateCode()
      modifies this
      ensures StateKept()
      ensures var r := M.Refusal(Assistant.PageVerifySettings(env.settings), old(running), Constants.DOCUMENT in env.canCreate);
        && (r.Some? ==> log == old(log) + r.value)
        && (r.None? ==> log == old(log) + [M.LanguageDialog(SettingOr(env.settings, M.CODE_LANGUAGES_KEY, Constants.BROWSER_LANGUAGES), false)])
    {
      var r := M.Refusal(Assistant.PageVerifySettings(env.settings), running, Constants.DOCUMENT in env.canCreate);
      if r.Some? {
        log := log + r.value;
        return;
      }
      var languages := SettingOr(env.settings, M.CODE_LANGUAGES_KEY, Constants.BROWSER_LANGUAGES);
      log := log + [M.LanguageDialog(languages, false)];
    }

    /** `claude_generateCode_success`: as in the module copy; the chosen language is trimmed. */
    method GenerateCodeSuccess(selected: Option<string>)
      modifies this
      ensures (selected.None? || selected.value == "") ==>
        StateKept() && log == old(log) + [ShowWarning(Constants.CHOOSE_LANGUAGE)]
      ensures selected.Some? && selected.value != "" ==>
        Started(Text.Trim(selected.value), None, false) && log == old(log) + [GetRequest(M.TaskUrl(env), TaskLoaded)]
    {
      if selected.None? || selected.value == "" {
        log := log + [ShowWarning(Constants.CHOOSE_LANGUAGE)];
        return;
      }
      Start(Text.Trim(selected.value), None, false);
    }

    /** `claude_generateCodeWithTests`: only the first bar of each entry is spelled out, and nothing is trimmed. */
    method GenerateCodeWithTests()
      modifies this
      ensures StateKept()
      ensures var r := M.Refusal(Assistant.PageVerifySettings(env.settings), old(running), Constants.DOCUMENT in env.canCreate);
        && (r.Some? ==> log == old(log) + r.value)
        && (r.None? ==> log == old(log) + [M.FrameworkDialog(SettingOr(env.settings, M.FRAMEWORKS_KEY, Constants.BROWSER_LANGUAGES_WITH_TESTS), false)])
    {
      var r := M.Refusal(Assistant.PageVerifySettings(env.settings), running, Constants.DOCUMENT in env.canCreate);
      if r.Some? {
        log := log + r.value;
        return;
      }
      var frameworks := SettingOr(env.settings, M.FRAMEWORKS_KEY, Constants.BROWSER_LANGUAGES_WITH_TESTS);
      log := log + [M.FrameworkDialog(frameworks, false)];
    }

    /** `claude_generateCodeWithTests_success`: the same split and checks as the module copy. */
    method GenerateCodeWithTestsSuccess(selected: Option<string>)
      modifies this
      ensures (selected.None? || selected.value == "") ==>
        StateKept() && log == old(log) + [ShowWarning(Constants.CHOOSE_LANGUAGE_AND_FRAMEWORK)]
      ensures selected.Some? && selected.value != "" ==>
        match Options.ParseChoice(selected.value)
        case None => StateKept() && log == old(log) + [ShowWarning(Constants.CHOOSE_VALID_LANGUAGE_AND_FRAMEWORK)]
        case Some(c) => Started(c.language, Some(c.framework), true) && log == old(log) + [GetRequest(M.TaskUrl(env), TaskLoaded)]
    {
      if selected.None? || selected.value == "" {
        log := log + [ShowWarning(Constants.CHOOSE_LANGUAGE_AND_FRAMEWORK)];
        return;
      }
      var choice := Options.ParseChoice(selected.value);
      if choice.None? {
        log := log + [ShowWarning(Constants.CHOOSE_VALID_LANGUAGE_AND_FRAMEWORK)];
        return;
      }
      Start(choice.value.language, Some(choice.value.framework), true);
    }

    /** The fresh `localState` of a run, and the GET of the task. */
    method Start(language: string, framework: Option<string>, withTests: bool)
      modifies this
      ensures Started(language, framework, withTests) && log == old(log) + [GetRequest(M.TaskUrl(env), TaskLoaded)]
    {
      action, running, codingLanguage, testFramework := Some(M.GENERATE_CODE), true, Some(language), framework;
      generateTests, tokensUse, remoteTask := withTests, Some(0), None;
      log := log + [GetRequest(M.TaskUrl(env), TaskLoaded)];
    }

    /**
     * `claude_getTaskData_success`: the task is stored and, for
     * `generateCode`, the base prompt, a space and this copy's filled-in
     * code prompt are sent with this copy's request builder.
     */
    method GetTaskDataSuccess(remote: Value)
      modifies this
      ensures !Truthy(remote) ==>
        remoteTask == old(remoteTask) && !running && log == old(log) + [ShowError(Constants.EMPTY_TASK)]
      ensures Truthy(remote) && action != Some(M.GENERATE_CODE) ==>
        remoteTask == remote && !running && log == old(log) + [ShowError(M.UnknownAction(action))]
      ensures Truthy(remote) && action == Some(M.GENERATE_CODE) ==>
        && remoteTask == remote && running == old(running)
        && log == old(log) + [Assistant.PageApiRequest(env.settings,
             Prompts.BasePrompt(env.settings) + " " + Prompts.BrowserCodePrompt(Prompts.TextOrUndefined(codingLanguage), testFramework, generateTests),
             Prompts.UserPrompt(Field(remote, "Name"), Field(remote, "Description"),
               SettingIsTrue(env.settings, Prompts.DESCRIPTIONS), env.plainText),
             CodeResponse, OperationFailure)]
      ensures action == old(action) && codingLanguage == old(codingLanguage) && testFramework == old(testFramework)
      ensures generateTests == old(generateTests) && tokensUse == old(tokensUse)
    {
      if !Truthy(remote) {
        log := log + [ShowError(Constants.EMPTY_TASK)];
        running := false;
        return;
      }
      remoteTask := remote;
      if action != Some(M.GENERATE_CODE) {
        log := log + [ShowError(M.UnknownAction(action))];
        running := false;
        return;
      }
      var system := Prompts.BasePrompt(env.settings) + " "
        + Prompts.BrowserCodePrompt(Prompts.TextOrUndefined(codingLanguage), testFramework, generateTests);
      var user := Prompts.UserPrompt(Field(remote, "Name"), Field(remote, "Description"),
        SettingIsTrue(env.settings, Prompts.DESCRIPTIONS), env.plainText);
      log := log + [Assistant.PageApiRequest(env.settings, system, user, CodeResponse, OperationFailure)];
    }

    /**
     * `claude_generateCodeFromChoice` and `claude_generateTestFromChoice`,
     * which differ only in the error text and the upload's callback; a
     * cleaner throw is returned to the response handler.
     */
    method FromChoice(generation: Value, noFile: string, onSuccess: Callback) returns (threw: bool)
      modifies this
      ensures threw <==> ReadGeneration(env, generation).CleanFailed?
      ensures threw ==> StateKept() && log == old(log)
      ensures !threw ==> Handled(ReadGeneration(env, generation), noFile, onSuccess)
    {
      var reading := ReadGeneration(env, generation);
      threw := false;
      match reading
      case Skipped =>
      case CleanFailed =>
        threw := true;
      case Unparsed =>
        log := log + [ShowError(noFile)];
      case Incomplete =>
        log := log + [ShowError(noFile)];
        running := false;
      case Complete(f) =>
        log := log + [M.DocumentRequest(env, f, onSuccess)];
    }

    /** The response handlers of both phases: the page classification, then the reader; a throw shows `INVALID_CONTENT`. */
    method Respond(response: Option<RestResponse>, noFile: string, onSuccess: Callback)
      modifies this
      ensures match Responses.PageVerdictOf(response, env.parse, true)
        case Refused(m) => OthersKept() && !running && log == old(log) + [ShowError(m)]
        case Generated(text) => Handled(ReadGeneration(env, text), noFile, onSuccess)
    {
      var v := Responses.PageVerdictOf(response, env.parse, true);
      match v
      case Refused(m) =>
        log := log + [ShowError(m)];
        running := false;
      case Generated(text) =>
        var threw := FromChoice(text, noFile, onSuccess);
        if threw {
          log := log + [ShowError(Constants.INVALID_CONTENT)];
          running := false;
        }
    }

    /** `claude_processCodeResponse`: the code file is uploaded with `CodeDocumentCreated`. */
    method ProcessCodeResponse(response: Option<RestResponse>)
      modifies this
      ensures match Responses.PageVerdictOf(response, env.parse, true)
        case Refused(m) => OthersKept() && !running && log == old(log) + [ShowError(m)]
        case Generated(text) => Handled(ReadGeneration(env, text), M.NO_CODE, CodeDocumentCreated)
    {
      Respond(response, M.NO_CODE, CodeDocumentCreated);
    }

    /** `claude_processTestResponse`: the test file is uploaded with `TestDocumentCreated`. */
    method ProcessTestResponse(response: Option<RestResponse>)
      modifies this
      ensures match Responses.PageVerdictOf(response, env.parse, true)
        case Refused(m) => OthersKept() && !running && log == old(log) + [ShowError(m)]
        case Generated(text) => Handled(ReadGeneration(env, text), NO_TEST, TestDocumentCreated)
    {
      Respond(response, NO_TEST, TestDocumentCreated);
    }

    /**
     * `claude_generateCodeFromChoice_success`: without tests the run
     * completes; with tests the action becomes `generateTest`, the flag is
     * cleared and the test prompt is sent for the stored task (reading a
     * task that was never stored throws before the request).
     */
    method GenerateCodeFromChoiceSuccess()
      modifies this
      ensures codingLanguage == old(codingLanguage) && testFramework == old(testFramework)
      ensures tokensUse == old(tokensUse) && remoteTask == old(remoteTask) && !generateTests
      ensures !old(generateTests) ==> action == old(action) && !running && log == old(log) + M.CODE_COMPLETION
      ensures old(generateTests) ==> action == Some(M.GENERATE_TEST) && running == old(running)
      ensures old(generateTests) && Get(remoteTask, "Name").Throws? ==> log == old(log)
      ensures old(generateTests) && Get(remoteTask, "Name").Got? ==>
        log == old(log) + [TestRequest(env, remoteTask, codingLanguage, testFramework)]
    {
      if !generateTests {
        log := log + M.CODE_COMPLETION;
        running := false;
        return;
      }
      action := Some(M.GENERATE_TEST);
      generateTests := false;
      if Get(remoteTask, "Name").Throws? {
        // localState.remoteTask.Name throws a TypeError.
        return;
      }
      Send(TestRequest(env, remoteTask, codingLanguage, testFramework));
    }

    /** An event is appended to the log and nothing else changes. */
    method Send(e: Event)
      modifies this
      ensures StateKept() && log == old(log) + [e]
    {
      log := log + [e];
    }

    /** `claude_generateTestFromChoice_success`: both files exist; the run completes. */
    method GenerateTestFromChoiceSuccess()
      modifies this
      ensures OthersKept() && !running && log == old(log) + M.TEST_COMPLETION
    {
      log := log + M.TEST_COMPLETION;
      running := false;
    }

    /** This copy's `claude_operation_failure`: `running` is cleared, then at most one error is shown. */
    method ClaudeOperationFailure(response: Value)
      modifies this
      ensures OthersKept() && !running && log == old(log) + CommonModule.FailureEvents(response, true)
    {
      running := false;
      log := log + CommonModule.FailureEvents(response, true);
    }
  }
}
