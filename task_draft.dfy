/**
 * The draft code generator of the task screen (tmp.js), bundled with the
 * shared browser helpers. It trims the option lists, concatenates its code
 * prompt, asks for the unit test from the first request on when tests are
 * chosen, falls back to a lenient reading of the generation when it does
 * not parse, and never clears `generateTests`, so every upload's success
 * sends the same request again.
 */
module TaskDraft {
  import opened Wrappers
  import opened Js
  import opened Spira
  import CommonModule
  import Common
  import AssistantModule
  import Assistant
  import Prompts
  import Options
  import Responses
  import Extractor
  import Constants
  import M = TaskDetailsModule

  const DRAFT_COMPLETION: seq<Event> := [HideMessage, ReloadForm, ShowSuccess(Constants.DRAFT_CODE_CREATED)]
  const DRAFT_TEST_COMPLETION: seq<Event> := [HideMessage, ReloadForm, ShowSuccess(Constants.DRAFT_CODE_AND_TEST_CREATED)]

  /**
   * The file of a cleaned generation: a text that parses is decided by
   * its fields alone; only a text that does not parse goes to the lenient
   * reader, whose file name and code are non-empty strings.
   */
  function DraftFile(env: Env, json: string): (f: Option<M.File>)
    ensures env.parse(json).Some? ==> f == M.FileOf(env.parse(json))
    ensures env.parse(json).None? ==> (f.Some? <==> Extractor.Lenient(json).Some?)
    ensures env.parse(json).None? && f.Some? ==>
      f.value == M.File(JStr(Extractor.Lenient(json).value.filename), JStr(Extractor.Lenient(json).value.code))
  {
    match env.parse(json)
    case Some(obj) => M.FileOf(Some(obj))
    case None =>
      match Extractor.Lenient(json)
      case None => None
      case Some(x) => Some(M.File(JStr(x.filename), JStr(x.code)))
  }

  /** An object the parser refuses but that is laid out as the prompt asks is still uploaded, with its code as written. */
  lemma LenientUpload(env: Env, name: string, code: string)
    requires name != "" && '"' !in name && ':' !in name && code != "" && '\\' !in code
    requires env.parse(Extractor.ObjectText(name, code)).None?
    ensures DraftFile(env, Extractor.ObjectText(name, code)) == Some(M.File(JStr(name), JStr(code)))
  {
    Extractor.LenientRoundTrip(name, code);
  }

  /** What this copy's reader makes of a generation. */
  datatype Reading =
    | Skipped                     // a falsy generation: nothing happens
    | CleanFailed                 // not a string: the cleaner throws
    | NoFile                      // neither reading gives a file
    | Complete(file: M.File)

  function ReadGeneration(env: Env, generation: Value): (r: Reading)
    ensures r.Skipped? <==> !Truthy(generation)
    ensures r.CleanFailed? <==> Truthy(generation) && !generation.value.JStr?
    ensures r.Complete? ==> exists json :: Common.CleanJson(generation) == Normal(json) && DraftFile(env, json) == Some(r.file)
  {
    if !Truthy(generation) then Skipped
    else match Common.CleanJson(generation)
      case Threw => CleanFailed
      case Normal(json) =>
        match DraftFile(env, json)
        case None => NoFile
        case Some(f) => Complete(f)
  }

  /**
   * The code request for a task: the base prompt glued to the draft code
   * prompt (which starts with a space), sent with the bundle's request
   * builder; `None` when there are no settings, since that builder reads
   * them without a guard and throws.
   */
  function CodeRequest(env: Env, remote: Value, language: Option<string>, framework: Option<string>, withTests: bool): (e: Option<Event>)
    requires Truthy(remote)
    ensures e.Some? <==> env.settings.Some?
    ensures e.Some? ==> e.value.ExecuteRest? && e.value.onSuccess == CodeResponse
  {
    if env.settings.None? then None
    else
      var system := Prompts.BasePrompt(env.settings) + Prompts.DraftCodePrompt(Prompts.TextOrUndefined(language), framework, withTests);
      var user := Prompts.UserPrompt(Field(remote, "Name"), Field(remote, "Description"),
        SettingIsTrue(env.settings, Prompts.DESCRIPTIONS), env.plainText);
      Some(Assistant.ApiRequest(env.settings.value, system, user, CodeResponse, OperationFailure))
  }

  /** The draft system prompt is the module copy's, base and space included, whatever is chosen. */
  lemma SystemPromptLikeModule(settings: Option<Settings>, language: string, framework: Option<string>, withTests: bool)
    requires Prompts.Plain(language) && Prompts.Plain(Prompts.TextOrUndefined(framework))
    ensures Prompts.BasePrompt(settings) + Prompts.DraftCodePrompt(language, framework, withTests)
         == Prompts.BasePrompt(settings) + " " + Prompts.ModuleCodePrompt(language, framework, withTests)
  {
    Prompts.DraftMatchesModule(language, framework, withTests);
  }

  class Screen {
    const env: Env
    var action: Option<string>
    var running: bool
    var codingLanguage: Option<string>
    var testFramework: Option<string>
    var generateTests: bool
    var tokensUse: Option<nat>
    var remoteTask: Value
    var log: seq<Event>

    /** `let localState = {}`. */
    constructor(env: Env)
      ensures this.env == env && action == None && !running && codingLanguage == None && testFramework == None
      ensures !generateTests && tokensUse == None && remoteTask == None && log == []
    {
      this.env := env;
      action := None;
      running := false;
      codingLanguage := None;
      testFramework := None;
      generateTests := false;
      tokensUse := None;
      remoteTask := None;
      log := [];
    }

    /** Every field of `localState` but `running` as it was. */
    twostate predicate OthersKept()
      reads this
    {
      && action == old(action) && codingLanguage == old(codingLanguage)
      && testFramework == old(testFramework) && generateTests == old(generateTests)
      && tokensUse == old(tokensUse) && remoteTask == old(remoteTask)
    }

    twostate predicate StateKept()
      reads this
    {
      OthersKept() && running == old(running)
    }

    predicate Started(language: string, framework: Option<string>, withTests: bool)
      reads this
    {
      && action == Some(M.GENERATE_CODE) && running && codingLanguage == Some(language)
      && testFramework == framework && generateTests == withTests && tokensUse == Some(0) && remoteTask == None
    }

    /** The outcome of the response handler once the text is read. */
    twostate predicate Handled(reading: Reading)
      reads this
    {
      && OthersKept()
      && match reading
        case Skipped => running == old(running) && log == old(log)
        case CleanFailed => !running && log == old(log) + [ShowError(Constants.INVALID_CONTENT)]
        case NoFile => !running && log == old(log) + [ShowError(M.NO_CODE)]
        case Complete(f) => running == old(running) && log == old(log) + [M.DocumentRequest(env, f, CodeDocumentCreated)]
    }

    /** `claude_generateCode`: the bundle's settings check, then the dialog over the trimmed entries. */
    method GenerateCode()
      modifies this
      ensures StateKept()
      ensures var r := M.Refusal(AssistantModule.VerifyRequiredSettings(env.settings), old(running), Constants.DOCUMENT in env.canCreate);
        && (r.Some? ==> log == old(log) + r.value)
        && (r.None? ==> log == old(log) + [M.LanguageDialog(SettingOr(env.settings, M.CODE_LANGUAGES_KEY, Constants.BROWSER_LANGUAGES), true)])
    {
      var r := M.Refusal(AssistantModule.VerifyRequiredSettings(env.settings), running, Constants.DOCUMENT in env.canCreate);
      if r.Some? {
        log := log + r.value;
        return;
      }
      var languages := SettingOr(env.settings, M.CODE_LANGUAGES_KEY, Constants.BROWSER_LANGUAGES);
      log := log + [M.LanguageDialog(languages, true)];
    }

    /** `claude_generateCode_success`: the chosen language is stored as it comes, untrimmed. */
    method GenerateCodeSuccess(selected: Option<string>)
      modifies this
      ensures (selected.None? || selected.value == "") ==>
        StateKept() && log == old(log) + [ShowWarning(Constants.CHOOSE_LANGUAGE)]
      ensures selected.Some? && selected.value != "" ==>
        Started(selected.value, None, false) && log == old(log) + [GetRequest(M.TaskUrl(env), TaskLoaded)]
    {
      if selected.None? || selected.value == "" {
        log := log + [ShowWarning(Constants.CHOOSE_LANGUAGE)];
        return;
      }
      Start(selected.value, None, false);
    }

    /** `claude_generateCodeWithTests`: each entry has its first bar spelled out and is trimmed. */
    method GenerateCodeWithTests()
      modifies this
      ensures StateKept()
      ensures var r := M.Refusal(AssistantModule.VerifyRequiredSettings(env.settings), old(running), Constants.DOCUMENT in env.canCreate);
        && (r.Some? ==> log == old(log) + r.value)
        && (r.None? ==> log == old(log) + [M.FrameworkDialog(SettingOr(env.settings, M.FRAMEWORKS_KEY, Constants.BROWSER_LANGUAGES_WITH_TESTS), true)])
    {
      var r := M.Refusal(AssistantModule.VerifyRequiredSettings(env.settings), running, Constants.DOCUMENT in env.canCreate);
      if r.Some? {
        log := log + r.value;
        return;
      }
      var frameworks := SettingOr(env.settings, M.FRAMEWORKS_KEY, Constants.BROWSER_LANGUAGES_WITH_TESTS);
      log := log + [M.FrameworkDialog(frameworks, true)];
    }

    /** `claude_generateCodeWithTests_success`: both trimmed parts of the split must be non-empty. */
    method GenerateCodeWithTestsSuccess(selected: Option<string>)
      modifies this
      ensures (selected.None? || selected.value == "") ==>
        StateKept() && log == old(log) + [ShowWarning(Constants.CHOOSE_LANGUAGE_AND_FRAMEWORK)]
      ensures selected.Some? && selected.value != "" ==>
        match Options.ParseChoice(selected.value)
        case None => StateKept() && log == old(log) + [ShowWarning(Constants.CHOOSE_VALID_LANGUAGE_AND_FRAMEWORK)]
        case Some(c) => Started(c.language, Some(c.framework), true) && log == old(log) + [GetRequest(M.TaskUrl(env), TaskLoaded)]
    {
      if selected.None? || selected.value == "" {
        log := log + [ShowWarning(Constants.CHOOSE_LANGUAGE_AND_FRAMEWORK)];
        return;
      }
      var choice := Options.ParseChoice(selected.value);
      if choice.None? {
        log := log + [ShowWarning(Constants.CHOOSE_VALID_LANGUAGE_AND_FRAMEWORK)];
        return;
      }
      Start(choice.value.language, Some(choice.value.framework), true);
    }

    /** The fresh `localState` of a run, and the GET of the task. */
    method Start(language: string, framework: Option<string>, withTests: bool)
      modifies this
      ensures Started(language, framework, withTests) && log == old(log) + [GetRequest(M.TaskUrl(env), TaskLoaded)]
    {
      action, running, codingLanguage, testFramework := Some(M.GENERATE_CODE), true, Some(language), framework;
      generateTests, tokensUse, remoteTask := withTests, Some(0), None;
      log := log + [GetRequest(M.TaskUrl(env), TaskLoaded)];
    }

    /**
     * `claude_getTaskData_success`: no action check; a truthy task is
     * stored and the code request sent, which throws without settings.
     */
    method GetTaskDataSuccess(remote: Value)
      modifies this
      ensures !Truthy(remote) ==>
        remoteTask == old(remoteTask) && !running && log == old(log) + [ShowError(Constants.EMPTY_TASK)]
      ensures Truthy(remote) ==>
        && remoteTask == remote && running == old(running)
        && var e := CodeRequest(env, remote, codingLanguage, testFramework, generateTests);
           log == old(log) + (if e.Some? then [e.value] else [])
      ensures action == old(action) && codingLanguage == old(codingLanguage) && testFramework == old(testFramework)
      ensures generateTests == old(generateTests) && tokensUse == old(tokensUse)
    {
      if !Truthy(remote) {
        log := log + [ShowError(Constants.EMPTY_TASK)];
        running := false;
        return;
      }
      remoteTask := remote;
      SendEach(CodeRequest(env, remote, codingLanguage, testFramework, generateTests));
    }

    /** An event, when there is one, is appended to the log and nothing else changes. */
    method SendEach(e: Option<Event>)
      modifies this
      ensures StateKept() && log == old(log) + (if e.Some? then [e.value] else [])
    {
      if e.Some? {
        log := log + [e.value];
      }
    }

    /** `claude_generateCodeFromChoice`: strict, then lenient reading; a cleaner throw is returned to the caller. */
    method GenerateCodeFromChoice(generation: Value) returns (threw: bool)
      modifies this
      ensures threw <==> ReadGeneration(env, generation).CleanFailed?
      ensures threw ==> StateKept() && log == old(log)
      ensures !threw ==> Handled(ReadGeneration(env, generation))
    {
      var reading := ReadGeneration(env, generation);
      threw := false;
      match reading
      case Skipped =>
      case CleanFailed =>
        threw := true;
      case NoFile =>
        log := log + [ShowError(M.NO_CODE)];
        running := false;
      case Complete(f) =>
        log := log + [M.DocumentRequest(env, f, CodeDocumentCreated)];
    }

    /** `claude_processCodeResponse`: the page classification without the content check, then the reader. */
    method ProcessCodeResponse(response: Option<RestResponse>)
      modifies this
      ensures match Responses.PageVerdictOf(response, env.parse, false)
        case Refused(m) => OthersKept() && !running && log == old(log) + [ShowError(m)]
        case Generated(text) => Handled(ReadGeneration(env, text))
    {
      var v := Responses.PageVerdictOf(response, env.parse, false);
      match v
      case Refused(m) =>
        log := log + [ShowError(m)];
        running := false;
      case Generated(text) =>
        var threw := GenerateCodeFromChoice(text);
        if threw {
          log := log + [ShowError(Constants.INVALID_CONTENT)];
          running := false;
        }
    }

    /**
     * `claude_generateCodeFromChoice_success`: with tests the action
     * becomes `generateTest` but `generateTests` stays set, and the task
     * handler sends the same request again; without tests the run completes.
     */
    method GenerateCodeFromChoiceSuccess()
      modifies this
      ensures generateTests == old(generateTests) && remoteTask == old(remoteTask)
      ensures codingLanguage == old(codingLanguage) && testFramework == old(testFramework) && tokensUse == old(tokensUse)
      ensures !old(generateTests) ==> action == old(action) && !running && log == old(log) + DRAFT_COMPLETION
      ensures old(generateTests) ==> action == Some(M.GENERATE_TEST)
      ensures old(generateTests) && !Truthy(remoteTask) ==> !running && log == old(log) + [ShowError(Constants.EMPTY_TASK)]
      ensures old(generateTests) && Truthy(remoteTask) ==>
        && running == old(running)
        && var e := CodeRequest(env, remoteTask, codingLanguage, testFramework, true);
           log == old(log) + (if e.Some? then [e.value] else [])
    {
      if generateTests {
        action := Some(M.GENERATE_TEST);
        GetTaskDataSuccess(remoteTask);
      } else {
        log := log + DRAFT_COMPLETION;
        running := false;
      }
    }

    /** `claude_generateTestFromChoice_success`: the run completes (no request of this copy names it). */
    method GenerateTestFromChoiceSuccess()
      modifies this
      ensures OthersKept() && !running && log == old(log) + DRAFT_TEST_COMPLETION
    {
      log := log + DRAFT_TEST_COMPLETION;
      running := false;
    }

    /** common.js's `claude_operation_failure`: `running` is cleared, then at most one error is shown. */
    method ClaudeOperationFailure(response: Value)
      modifies this
      ensures OthersKept() && !running && log == old(log) + CommonModule.FailureEvents(response, true)
    {
      running := false;
      log := log + CommonModule.FailureEvents(response, true);
    }
  }
}
