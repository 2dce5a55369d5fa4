/**
 * The host platform as the extension sees it: the read-only context of a
 * page (settings, ids, permissions, the host's helper functions), the records
 * the host hands to callbacks, and the effects the extension asks of the
 * host, recorded as events.
 */
module Spira {
  import opened Wrappers
  import opened Js

  /** `SpiraAppSettings[APP_GUID]`: the extension's settings, each a string. */
  type Settings = map<string, string>

  /** A guarded setting read (`settings && settings.key`) that is truthy: present and non-empty. */
  predicate HasSetting(settings: Option<Settings>, key: string)
  {
    settings.Some? && key in settings.value && settings.value[key] != ""
  }

  /** The setting when it is truthy, otherwise the default. */
  function SettingOr(settings: Option<Settings>, key: string, default: string): (r: string)
    ensures HasSetting(settings, key) ==> r == settings.value[key]
    ensures !HasSetting(settings, key) ==> r == default
  {
    if HasSetting(settings, key) then settings.value[key] else default
  }

  /** `settings && settings.key === 'True'` (for string values `==` decides the same). */
  predicate SettingIsTrue(settings: Option<Settings>, key: string)
  {
    settings.Some? && key in settings.value && settings.value[key] == "True"
  }

  /** The read-only context of one page of the host. */
  datatype Env = Env(
    projectId: nat,
    projectTemplateId: nat,
    artifactId: nat,
    settings: Option<Settings>,
    /** Artifact types the user may create (`canCreateArtifactType`). */
    canCreate: set<int>,
    /** Artifact types the user may modify (`canModifyArtifactType`). */
    canModify: set<int>,
    /** `gridIds.testCaseTestSteps`, when that grid is on the page. */
    testStepsGrid: Option<string>,
    /** `convertHtmlToPlainText`, a host function, applied to whatever the description field holds. */
    plainText: Value -> string,
    /** `JSON.parse`: `None` when it throws. */
    parse: string -> Option<Json>,
    /** `new Date().toISOString()` at the moment of the call. */
    now: string,
    /** `global.selectLists`, the host's lists of source code languages, when the host defines it. */
    selectLists: Value)

  /** The response object that `executeRest` hands to its success callback. */
  datatype RestResponse = RestResponse(statusCode: int, statusDescription: Value, content: Option<string>)

  /** Names of the extension's callbacks, as passed to the host. */
  datatype Callback =
    | OperationFailure
    | TestCaseLoaded | TestStepResponse | TestStepCreated
    | RequirementLoaded | RequirementTypesLoaded | TestCaseResponse
    | TestCaseCreated | TestCaseLinked | TestCaseStepCreated
    | RiskLoaded | MitigationResponse | MitigationCreated
    | LanguageChosen | LanguageWithTestsChosen | TaskLoaded
    | CodeResponse | TestResponse | CodeDocumentCreated | TestDocumentCreated
    | ConnectionResponse | ConnectionFailure

  /** A request body of the host's REST API, as built by the extension before `JSON.stringify`. */
  datatype SpiraBody =
    | TestStepBody(projectId: nat, testCaseId: Value, description: Value, expectedResult: Value, sampleData: Value, position: Option<nat>)
    | TestCaseBody(name: Value, statusId: int)
    | RequirementLinkBody(requirementId: nat, testCaseId: Value)
    | MitigationBody(riskId: nat, description: Value, creationDate: string)
    | DocumentBody(projectId: nat, filename: Value, binaryData: string, attachedTo: nat, attachedType: int, version: string)

  /** `temperature`: the default 0.2, or `parseFloat` of the setting text (the float itself is not modelled). */
  datatype Temperature = DefaultTemperature | ParsedTemperature(text: string)

  datatype Message = Message(role: string, content: string)

  /** The body of a Messages API request; `system` is absent in the copies that pass it as the first message. */
  datatype MessagesBody = MessagesBody(model: string, temperature: Temperature, maxTokens: nat, messages: seq<Message>, system: Option<string>)

  datatype Header = Header(name: string, value: string)

  /** The effects the extension asks of the host. */
  datatype Event =
    | ShowError(text: string)
    | ShowWarning(text: string)
    | ShowSuccess(text: string)
    | HideMessage
    | ReloadForm
    | ReloadGrid(gridId: string)
    /** `executeApi('claudeAssistant', '7.0', verb, url, body, onSuccess, onFailure)` */
    | ExecuteApi(verb: string, url: string, body: Option<SpiraBody>, onSuccess: Callback, onFailure: Callback)
    /** `executeRest(APP_GUID, 'claudeAssistant', 'POST', url, JSON.stringify(body), null, headers, onSuccess, onFailure)` */
    | ExecuteRest(url: string, request: MessagesBody, headers: seq<Header>, onSuccess: Callback, onFailure: Callback)
    /** `createComboDialog(title, prompt, button, options, onSelect)` */
    | ComboDialog(title: string, prompt: string, button: string, options: seq<string>, onSelect: Callback)

  predicate IsRequest(e: Event) { e.ExecuteApi? || e.ExecuteRest? }

  /** The number of requests issued in a stretch of the log. */
  function Requests(log: seq<Event>): (n: nat)
    ensures n <= |log|
  {
    if log == [] then 0 else (if IsRequest(log[0]) then 1 else 0) + Requests(log[1..])
  }

  lemma {:induction false} RequestsAppend(a: seq<Event>, b: seq<Event>)
    ensures Requests(a + b) == Requests(a) + Requests(b)
  {
    if a != [] {
      assert (a + b)[1..] == a[1..] + b;
      RequestsAppend(a[1..], b);
    } else {
      assert a + b == b;
    }
  }

  /** A GET with the standard failure handler. */
  function GetRequest(url: string, onSuccess: Callback): Event
  {
    ExecuteApi("GET", url, None, onSuccess, OperationFailure)
  }

  /** A POST with the standard failure handler. */
  function PostRequest(url: string, body: SpiraBody, onSuccess: Callback): Event
  {
    ExecuteApi("POST", url, Some(body), onSuccess, OperationFailure)
  }

  /** `'projects/' + projectId + rest`. */
  function ProjectUrl(env: Env, rest: string): string
  {
    "projects/" + NatToString(env.projectId) + rest
  }
}
