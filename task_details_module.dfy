/**
 * The code generator of the task screen, module copy
 * (modules/taskDetails-module.js): a language (or a language and a test
 * framework) is chosen in a dialog, the task is fetched, the code prompt is
 * filled in, and the generated file is uploaded as a document attached to
 * the task. With tests asked for, the upload's success re-enters the task
 * handler under the action `generateTest`, which that handler refuses.
 */
module TaskDetailsModule {
  import opened Wrappers
  import opened Js
  import opened Spira
  import CommonModule
  import AssistantModule
  import Prompts
  import Options
  import Base64
  import Responses
  import Constants

  const GENERATE_CODE := "generateCode"
  const GENERATE_TEST := "generateTest"
  const CODE_LANGUAGES_KEY := "code_languages"
  const FRAMEWORKS_KEY := "unit_test_framework"

  const BUSY := Constants.WaitForOtherJob(Constants.ARTIFACT_SOURCE_CODE)

  /** The message shown when no file can be read out of a generation. */
  const NO_CODE := Constants.CouldNotGenerate(Constants.ARTIFACT_SOURCE_CODE)

  function TaskUrl(env: Env): string
  {
    ProjectUrl(env, "/tasks/" + NatToString(env.artifactId))
  }

  function DocumentsUrl(env: Env): string
  {
    ProjectUrl(env, "/documents/file")
  }

  /**
   * The entry checks of both menu entries, in order: the settings check,
   * the busy check, then the permission to create documents. A refusal
   * is the messages shown; none of the checks writes any state.
   */
  function Refusal(verified: AssistantModule.Verified, running: bool, canCreate: bool): (r: Option<seq<Event>>)
    ensures r.None? <==> verified.ok && !running && canCreate
    ensures !verified.ok ==> r == Some(verified.shown)
    ensures verified.ok && running ==> r == Some([ShowWarning(BUSY)])
    ensures verified.ok && !running && !canCreate ==> r == Some([ShowError(Constants.PERMISSION_ERROR)])
  {
    if !verified.ok then Some(verified.shown)
    else if running then Some([ShowWarning(BUSY)])
    else if !canCreate then Some([ShowError(Constants.PERMISSION_ERROR)])
    else None
  }

  /** The language dialog, or the warning for an empty list. */
  function LanguageDialog(list: string, trim: bool): (e: Event)
    ensures list != "" ==> e.ComboDialog? && e.options == Options.LanguageOptions(list, trim) && e.onSelect == LanguageChosen
    ensures list == "" ==> e == ShowWarning(Constants.NO_LANGUAGES)
  {
    if list != "" then
      ComboDialog(Constants.DIALOG_TITLE, Constants.DIALOG_LANGUAGE, Constants.DIALOG_BUTTON, Options.LanguageOptions(list, trim), LanguageChosen)
    else ShowWarning(Constants.NO_LANGUAGES)
  }

  /** The language-and-framework dialog, or the warning for an empty list. */
  function FrameworkDialog(list: string, trim: bool): (e: Event)
    ensures list != "" ==>
      e.ComboDialog? && e.options == Options.FrameworkOptions(list, trim) && e.onSelect == LanguageWithTestsChosen
    ensures list == "" ==> e == ShowWarning(Constants.NO_LANGUAGES_WITH_TESTS)
  {
    if list != "" then
      ComboDialog(Constants.DIALOG_TITLE, Constants.DIALOG_LANGUAGE_AND_FRAMEWORK, Constants.DIALOG_BUTTON,
        Options.FrameworkOptions(list, trim), LanguageWithTestsChosen)
    else ShowWarning(Constants.NO_LANGUAGES_WITH_TESTS)
  }

  const LANGUAGES_ENTRY := "SOURCE_CODE_LANGUAGES"
  const LANGUAGES_WITH_TESTS_ENTRY := "SOURCE_CODE_LANGUAGES_WITH_TESTS"

  /**
   * The list a module dialog starts from: the truthy setting `key`;
   * otherwise the property `entry` of `global.selectLists` when that object
   * is present; otherwise the built-in literal.
   */
  function OfferedList(env: Env, key: string, entry: string, literal: string): Value
  {
    if HasSetting(env.settings, key) then Some(JStr(env.settings.value[key]))
    else if Truthy(env.selectLists) then Field(env.selectLists, entry)
    else Some(JStr(literal))
  }

  /**
   * `if (languages) { languages.split(/,/)… } else warn`: the dialog over a
   * string list, the warning for a falsy list, and a throw (no event) for a
   * truthy list that is not a string and so has no `split`.
   */
  function ListDialog(list: Value, withTests: bool): (e: Option<Event>)
    ensures e.None? <==> Truthy(list) && !list.value.JStr?
    ensures !Truthy(list) ==> e == Some(ShowWarning(if withTests then Constants.NO_LANGUAGES_WITH_TESTS else Constants.NO_LANGUAGES))
    ensures Truthy(list) && list.value.JStr? && !withTests ==>
      e.Some? && e.value.ComboDialog? && e.value.options == Options.LanguageOptions(list.value.s, true)
    ensures Truthy(list) && list.value.JStr? && withTests ==>
      e.Some? && e.value.ComboDialog? && e.value.options == Options.FrameworkOptions(list.value.s, true)
  {
    if !Truthy(list) then
      Some(ShowWarning(if withTests then Constants.NO_LANGUAGES_WITH_TESTS else Constants.NO_LANGUAGES))
    else if !list.value.JStr? then None
    else if withTests then Some(FrameworkDialog(list.value.s, true))
    else Some(LanguageDialog(list.value.s, true))
  }

  /** The event a handler leaves, or none when it throws. */
  function Shown(e: Option<Event>): seq<Event>
  {
    if e.Some? then [e.value] else []
  }

  /**
   * The empty-list warnings are reachable only through `global.selectLists`:
   * the list is falsy exactly when no list is configured and the host's
   * lists are present but lack the entry. Without the host's lists the
   * built-in literal is always offered.
   */
  lemma ListsNeverEmpty(env: Env, key: string, entry: string, literal: string)
    requires literal != ""
    ensures !Truthy(OfferedList(env, key, entry, literal)) <==>
      !HasSetting(env.settings, key) && Truthy(env.selectLists) && !TruthyField(env.selectLists, entry)
    ensures !HasSetting(env.settings, key) && !Truthy(env.selectLists) ==>
      OfferedList(env, key, entry, literal) == Some(JStr(literal))
  {
    if !HasSetting(env.settings, key) && Truthy(env.selectLists) {
      assert OfferedList(env, key, entry, literal) == Get(env.selectLists, entry).v;
    }
  }

  /** A configured list always wins over the host's lists and the literal. */
  lemma SettingWins(env: Env, key: string, entry: string, literal: string)
    requires HasSetting(env.settings, key)
    ensures OfferedList(env, key, entry, literal) == Some(JStr(env.settings.value[key]))
    ensures ListDialog(OfferedList(env, key, entry, literal), false).Some?
  {
  }

  /** What an unknown action shows: the task screens' own text followed by the action. */
  function UnknownAction(action: Option<string>): (m: string)
    ensures Constants.UNKNOWN_ACTION <= m
    ensures action.Some? ==> m[|Constants.UNKNOWN_ACTION|..] == action.value
  {
    Constants.UNKNOWN_ACTION + ToString(if action.Some? then Some(JStr(action.value)) else None)
  }

  /** A generated file: its name and its code, both truthy. */
  datatype File = File(name: Json, code: Json)

  /** `jsonObj && jsonObj.Filename && jsonObj.Code`. */
  function FileOf(obj: Value): (f: Option<File>)
    ensures f.Some? <==> TruthyField(obj, "Filename") && TruthyField(obj, "Code")
    ensures f.Some? ==> Field(obj, "Filename") == Some(f.value.name) && Field(obj, "Code") == Some(f.value.code)
    ensures f.Some? ==> Truthy(Some(f.value.name)) && Truthy(Some(f.value.code))
  {
    if TruthyField(obj, "Filename") && TruthyField(obj, "Code") then
      Some(File(Field(obj, "Filename").value, Field(obj, "Code").value))
    else None
  }

  /** The upload of a file: the code encoded in base64 and attached to the task as version 1.0. */
  function DocumentRequest(env: Env, file: File, onSuccess: Callback): (e: Event)
    ensures e.ExecuteApi? && e.verb == "POST" && e.url == DocumentsUrl(env) && e.onSuccess == onSuccess
    ensures e.body.Some? && e.body.value.DocumentBody?
    ensures e.body.value.filename == Some(file.name) && e.body.value.attachedTo == env.artifactId
    ensures e.body.value.attachedType == Constants.TASK && e.body.value.version == "1.0"
  {
    PostRequest(DocumentsUrl(env),
      DocumentBody(env.projectId, Some(file.name), Base64.StringToBase64(JsonToString(file.code)), env.artifactId, Constants.TASK, "1.0"),
      onSuccess)
  }

  /** The uploaded data decodes back to the UTF-8 bytes of the code's text. */
  lemma DocumentCarriesCode(env: Env, file: File, onSuccess: Callback)
    ensures Base64.Decode(DocumentRequest(env, file, onSuccess).body.value.binaryData) == Some(Base64.Utf8(JsonToString(file.code)))
  {
    Base64.DecodeEncode(Base64.Utf8(JsonToString(file.code)));
  }

  /** This copy's reading of a generation: cleaned, parsed, then checked for both fields; a throw anywhere is `None`. */
  function GeneratedFile(env: Env, generation: Json): (f: Option<File>)
    ensures Truthy(Some(generation)) && !generation.JStr? ==> f.None?
    ensures f.Some? ==> exists json :: CommonModule.CleanJson(Some(generation)) == Normal(json) && FileOf(env.parse(json)) == f
  {
    match CommonModule.CleanJson(Some(generation))
    case Threw => None
    case Normal(json) => FileOf(env.parse(json))
  }

  const CODE_COMPLETION: seq<Event> := [HideMessage, ReloadForm, ShowSuccess(Constants.CODE_CREATED)]
  const TEST_COMPLETION: seq<Event> := [HideMessage, ReloadForm, ShowSuccess(Constants.CODE_AND_TEST_CREATED)]

  class Screen {
    const env: Env
    var action: Option<string>
    var running: bool
    var codingLanguage: Option<string>
    var testFramework: Option<string>
    var generateTests: bool
    var tokensUse: Option<nat>
    var remoteTask: Value
    var log: seq<Event>

    /** `global.localState` before any run: unset, so not running. */
    constructor(env: Env)
      ensures this.env == env && action == None && !running && codingLanguage == None && testFramework == None
      ensures !generateTests && tokensUse == None && remoteTask == None && log == []
    {
      this.env := env;
      action := None;
      running := false;
      codingLanguage := None;
      testFramework := None;
      generateTests := false;
      tokensUse := None;
      remoteTask := None;
      log := [];
    }

    twostate predicate StateKept()
      reads this
    {
      && action == old(action) && running == old(running) && codingLanguage == old(codingLanguage)
      && testFramework == old(testFramework) && generateTests == old(generateTests)
      && tokensUse == old(tokensUse) && remoteTask == old(remoteTask)
    }

    /** The fresh `localState` of a run that starts with a chosen language and, with tests, a framework. */
    predicate Started(language: string, framework: Option<string>, withTests: bool)
      reads this
    {
      && action == Some(GENERATE_CODE) && running && codingLanguage == Some(language)
      && testFramework == framework && generateTests == withTests && tokensUse == Some(0) && remoteTask == None
    }

    /** `generateCode`: the entry checks, then the language dialog over the trimmed entries. */
    method GenerateCode()
      modifies this
      ensures StateKept()
      ensures var r := Refusal(AssistantModule.VerifyRequiredSettings(env.settings), old(running), Constants.DOCUMENT in env.canCreate);
        && (r.Some? ==> log == old(log) + r.value)
        && (r.None? ==> log == old(log) + Shown(ListDialog(OfferedList(env, CODE_LANGUAGES_KEY, LANGUAGES_ENTRY, Constants.MODULE_LANGUAGES), false)))
    {
      var r := Refusal(AssistantModule.VerifyRequiredSettings(env.settings), running, Constants.DOCUMENT in env.canCreate);
      if r.Some? {
        log := log + r.value;
        return;
      }
      var languages := OfferedList(env, CODE_LANGUAGES_KEY, LANGUAGES_ENTRY, Constants.MODULE_LANGUAGES);
      log := log + Shown(ListDialog(languages, false));
    }

    /** `generateCode_success`: a chosen language starts a run with a fresh state and fetches the task. */
    method GenerateCodeSuccess(selected: Option<string>)
      modifies this
      ensures (selected.None? || selected.value == "") ==>
        StateKept() && log == old(log) + [ShowWarning(Constants.CHOOSE_LANGUAGE)]
      ensures selected.Some? && selected.value != "" ==>
        Started(Text.Trim(selected.value), None, false) && log == old(log) + [GetRequest(TaskUrl(env), TaskLoaded)]
    {
      if selected.None? || selected.value == "" {
        log := log + [ShowWarning(Constants.CHOOSE_LANGUAGE)];
        return;
      }
      Start(Text.Trim(selected.value), None, false);
    }

    /** `generateCodeWithTests`: the entry checks, then the dialog of trimmed `language tested with framework` entries. */
    method GenerateCodeWithTests()
      modifies this
      ensures StateKept()
      ensures var r := Refusal(AssistantModule.VerifyRequiredSettings(env.settings), old(running), Constants.DOCUMENT in env.canCreate);
        && (r.Some? ==> log == old(log) + r.value)
        && (r.None? ==> log == old(log) + Shown(ListDialog(OfferedList(env, FRAMEWORKS_KEY, LANGUAGES_WITH_TESTS_ENTRY, Constants.MODULE_LANGUAGES_WITH_TESTS), true)))
    {
      var r := Refusal(AssistantModule.VerifyRequiredSettings(env.settings), running, Constants.DOCUMENT in env.canCreate);
      if r.Some? {
        log := log + r.value;
        return;
      }
      var frameworks := OfferedList(env, FRAMEWORKS_KEY, LANGUAGES_WITH_TESTS_ENTRY, Constants.MODULE_LANGUAGES_WITH_TESTS);
      log := log + Shown(ListDialog(frameworks, true));
    }

    /**
     * `generateCodeWithTests_success`: the choice must split into a
     * language and a framework; either warning leaves the state as it was.
     */
    method GenerateCodeWithTestsSuccess(selected: Option<string>)
      modifies this
      ensures (selected.None? || selected.value == "") ==>
        StateKept() && log == old(log) + [ShowWarning(Constants.CHOOSE_LANGUAGE_AND_FRAMEWORK)]
      ensures selected.Some? && selected.value != "" ==>
        match Options.ParseChoice(selected.value)
        case None => StateKept() && log == old(log) + [ShowWarning(Constants.CHOOSE_VALID_LANGUAGE_AND_FRAMEWORK)]
        case Some(c) => Started(c.language, Some(c.framework), true) && log == old(log) + [GetRequest(TaskUrl(env), TaskLoaded)]
    {
      if selected.None? || selected.value == "" {
        log := log + [ShowWarning(Constants.CHOOSE_LANGUAGE_AND_FRAMEWORK)];
        return;
      }
      var choice := Options.ParseChoice(selected.value);
      if choice.None? {
        log := log + [ShowWarning(Constants.CHOOSE_VALID_LANGUAGE_AND_FRAMEWORK)];
        return;
      }
      Start(choice.value.language, Some(choice.value.framework), true);
    }

    /** The fresh `localState` of a run, and the GET of the task. */
    method Start(language: string, framework: Option<string>, withTests: bool)
      modifies this
      ensures Started(language, framework, withTests) && log == old(log) + [GetRequest(TaskUrl(env), TaskLoaded)]
    {
      action, running, codingLanguage, testFramework := Some(GENERATE_CODE), true, Some(language), framework;
      generateTests, tokensUse, remoteTask := withTests, Some(0), None;
      log := log + [GetRequest(TaskUrl(env), TaskLoaded)];
    }

    /**
     * `getTaskData_success`: a truthy task is stored; only `generateCode`
     * goes on, with the base prompt, a space and the filled-in code prompt
     * (the test template when tests are asked for).
     */
    method GetTaskDataSuccess(remote: Value)
      modifies this
      ensures !Truthy(remote) ==>
        remoteTask == old(remoteTask) && !running && log == old(log) + [ShowError(Constants.EMPTY_TASK)]
      ensures Truthy(remote) && action != Some(GENERATE_CODE) ==>
        remoteTask == remote && !running && log == old(log) + [ShowError(UnknownAction(action))]
      ensures Truthy(remote) && action == Some(GENERATE_CODE) ==>
        && remoteTask == remote && running == old(running)
        && log == old(log) + [AssistantModule.ApiRequest(env.settings,
             Prompts.BasePrompt(env.settings) + " " + Prompts.ModuleCodePrompt(Prompts.TextOrUndefined(codingLanguage), testFramework, generateTests),
             Prompts.UserPrompt(Field(remote, "Name"), Field(remote, "Description"),
               SettingIsTrue(env.settings, Prompts.DESCRIPTIONS), env.plainText),
             CodeResponse, OperationFailure)]
      ensures action == old(action) && codingLanguage == old(codingLanguage) && testFramework == old(testFramework)
      ensures generateTests == old(generateTests) && tokensUse == old(tokensUse)
    {
      if !Truthy(remote) {
        log := log + [ShowError(Constants.EMPTY_TASK)];
        running := false;
        return;
      }
      remoteTask := remote;
      if action != Some(GENERATE_CODE) {
        log := log + [ShowError(UnknownAction(action))];
        running := false;
        return;
      }
      var system := Prompts.BasePrompt(env.settings) + " "
        + Prompts.ModuleCodePrompt(Prompts.TextOrUndefined(codingLanguage), testFramework, generateTests);
      var user := Prompts.UserPrompt(Field(remote, "Name"), Field(remote, "Description"),
        SettingIsTrue(env.settings, Prompts.DESCRIPTIONS), env.plainText);
      log := log + [AssistantModule.ApiRequest(env.settings, system, user, CodeResponse, OperationFailure)];
    }

    /** `generateCodeFromChoice`: one upload for a readable file; anything else shows an error and clears `running`. */
    method GenerateCodeFromChoice(generation: Json)
      modifies this
      ensures GeneratedFile(env, generation).Some? ==>
        StateKept() && log == old(log) + [DocumentRequest(env, GeneratedFile(env, generation).value, CodeDocumentCreated)]
      ensures GeneratedFile(env, generation).None? ==> !running && log == old(log) + [ShowError(NO_CODE)]
      ensures action == old(action) && generateTests == old(generateTests) && remoteTask == old(remoteTask)
      ensures codingLanguage == old(codingLanguage) && testFramework == old(testFramework) && tokensUse == old(tokensUse)
    {
      var file := GeneratedFile(env, generation);
      if file.Some? {
        log := log + [DocumentRequest(env, file.value, CodeDocumentCreated)];
      } else {
        log := log + [ShowError(NO_CODE)];
        running := false;
      }
    }

    /** `processCodeResponse`: the status is not checked; an accepted text goes to the file reader. */
    method ProcessCodeResponse(response: Option<RestResponse>)
      modifies this
      ensures match Responses.LooseVerdict(response, env.parse)
        case Reject(m) => !running && log == old(log) + [ShowError(m)]
        case Accept(text, _) =>
          if GeneratedFile(env, text).Some? then
            running == old(running) && log == old(log) + [DocumentRequest(env, GeneratedFile(env, text).value, CodeDocumentCreated)]
          else !running && log == old(log) + [ShowError(NO_CODE)]
      ensures action == old(action) && generateTests == old(generateTests) && remoteTask == old(remoteTask)
      ensures codingLanguage == old(codingLanguage) && testFramework == old(testFramework) && tokensUse == old(tokensUse)
    {
      var v := Responses.LooseVerdict(response, env.parse);
      match v
      case Reject(m) =>
        log := log + [ShowError(m)];
        running := false;
      case Accept(text, _) =>
        GenerateCodeFromChoice(text);
    }

    /**
     * `generateCodeFromChoice_success`: without tests the run completes;
     * with tests the action becomes `generateTest` and the task handler is
     * entered again, which refuses that action and clears `running`, so
     * the tests are never asked for.
     */
    method GenerateCodeFromChoiceSuccess()
      modifies this
      ensures !running && !generateTests
      ensures !old(generateTests) ==> action == old(action) && remoteTask == old(remoteTask) && log == old(log) + CODE_COMPLETION
      ensures old(generateTests) ==>
        && action == Some(GENERATE_TEST) && remoteTask == old(remoteTask)
        && log == old(log) + [ShowError(if Truthy(old(remoteTask)) then UnknownAction(Some(GENERATE_TEST)) else Constants.EMPTY_TASK)]
      ensures codingLanguage == old(codingLanguage) && testFramework == old(testFramework) && tokensUse == old(tokensUse)
    {
      if generateTests {
        action := Some(GENERATE_TEST);
        generateTests := false;
        GetTaskDataSuccess(remoteTask);
      } else {
        log := log + CODE_COMPLETION;
        running := false;
      }
    }

    /** `generateTestFromChoice_success`: the run completes (no request of this copy names it). */
    method GenerateTestFromChoiceSuccess()
      modifies this
      ensures !running && log == old(log) + TEST_COMPLETION
      ensures action == old(action) && generateTests == old(generateTests) && remoteTask == old(remoteTask)
      ensures codingLanguage == old(codingLanguage) && testFramework == old(testFramework) && tokensUse == old(tokensUse)
    {
      log := log + TEST_COMPLETION;
      running := false;
    }

    /** `claude_operation_failure`: `running` is cleared, then at most one error is shown. */
    method ClaudeOperationFailure(response: Value, messagesLoaded: bool)
      modifies this
      ensures !running && log == old(log) + CommonModule.FailureEvents(response, messagesLoaded)
      ensures action == old(action) && generateTests == old(generateTests) && remoteTask == old(remoteTask)
      ensures codingLanguage == old(codingLanguage) && testFramework == old(testFramework) && tokensUse == old(tokensUse)
    {
      running := false;
      log := log + CommonModule.FailureEvents(response, messagesLoaded);
    }
  }
}
