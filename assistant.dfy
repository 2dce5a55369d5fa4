/**
 * The completion-service client of the browser bundle (claudeAssistant.js),
 * with its `claudeConfig` defaults, and the copies of the settings check
 * and the request builder that the browser screens carry themselves.
 */
module Assistant {
  import opened Wrappers
  import opened Spira
  import opened AssistantModule
  import Constants

  // claudeConfig
  const CONFIG_MODEL := "claude-3-sonnet-20240229"
  const CONFIG_MAX_TOKENS := 4096
  /** The key placeholder of this copy; the others use `${anthropicKey}`. */
  const API_KEY_PLACEHOLDER := "${api_key}"

  /** The configured defaults are the module's. */
  lemma ConfigDefaults()
    ensures CONFIG_MODEL == DEFAULT_MODEL && CONFIG_MAX_TOKENS == MAX_TOKENS
  {
  }

  /**
   * `claude_verifyRequiredSettings` here makes the module's two checks in
   * the same order: no settings, then a missing or empty `api_key`; it
   * passes exactly when neither applies, and each failure shows one error.
   */
  lemma VerifyOutcomes(settings: Option<Settings>)
    ensures var r := VerifyRequiredSettings(settings);
      && (settings.None? ==> !r.ok && r.shown == [ShowError(Constants.MISSING_SETTINGS)])
      && (settings.Some? && !HasSetting(settings, "api_key") ==>
            !r.ok && r.shown == [ShowError(Constants.SETTING_HEAD + API_KEY_NAME + Constants.SETTING_TAIL)])
      && (settings.Some? && HasSetting(settings, "api_key") ==> r.ok && r.shown == [])
  {
    var _ := Constants.MissingSetting(API_KEY_NAME);
  }

  /**
   * `claude_executeApiRequest`: the settings are read without a guard (the
   * check above has passed), the model and temperature fall back to
   * `claudeConfig`, and the key placeholder is `${api_key}`.
   */
  function ApiRequest(settings: Settings, system: string, user: string, onSuccess: Callback, onFailure: Callback): (e: Event)
    ensures e.ExecuteRest? && e.url == MESSAGES_URL && e.onSuccess == onSuccess && e.onFailure == onFailure
    ensures e.headers == Headers(API_KEY_PLACEHOLDER)
  {
    var model := if HasSetting(Some(settings), "model") then settings["model"] else CONFIG_MODEL;
    ExecuteRest(MESSAGES_URL,
      MessagesBody(model, AssistantModule.Temperature(Some(settings)), CONFIG_MAX_TOKENS,
        [Message("system", system), Message("user", user)], None),
      Headers(API_KEY_PLACEHOLDER), onSuccess, onFailure)
  }

  /** The request equals the module's; only the key placeholder in the last header differs. */
  lemma SameRequestAsModule(settings: Settings, system: string, user: string, onSuccess: Callback, onFailure: Callback)
    ensures var e, m := ApiRequest(settings, system, user, onSuccess, onFailure),
                        AssistantModule.ApiRequest(Some(settings), system, user, onSuccess, onFailure);
      && e.request == m.request && e.url == m.url
      && e.headers[..4] == m.headers[..4]
      && e.headers[4] == Header("x-api-key", "${api_key}") && m.headers[4] == Header("x-api-key", "${anthropicKey}")
  {
  }

  /**
   * The settings check the browser screens carry (testCaseDetails.js,
   * requirementDetails.js, taskDetails.js): only that the settings exist;
   * the key is left to the host's substitution.
   */
  function PageVerifySettings(settings: Option<Settings>): (r: Verified)
    ensures r.ok <==> settings.Some?
    ensures r.ok ==> r.shown == []
    ensures !r.ok ==> r.shown == [ShowError(Constants.MISSING_SETTINGS)]
  {
    if settings.None? then Verified(false, [ShowError(Constants.MISSING_SETTINGS)]) else Verified(true, [])
  }

  /** The page check lets through every settings record the module check lets through, and more. */
  lemma PageCheckIsWeaker(settings: Option<Settings>)
    ensures VerifyRequiredSettings(settings).ok ==> PageVerifySettings(settings).ok
    ensures settings == Some(map[]) ==> PageVerifySettings(settings).ok && !VerifyRequiredSettings(settings).ok
  {
  }

  /**
   * The request builder the browser screens carry: the system prompt goes
   * in the top-level `system` field and the only message is the user's.
   */
  function PageApiRequest(settings: Option<Settings>, system: string, user: string, onSuccess: Callback, onFailure: Callback): (e: Event)
    ensures e.ExecuteRest? && e.url == MESSAGES_URL && e.onSuccess == onSuccess && e.onFailure == onFailure
    ensures e.headers == Headers(ANTHROPIC_KEY)
    ensures e.request.messages == [Message("user", user)] && e.request.system == Some(system)
  {
    ExecuteRest(MESSAGES_URL,
      MessagesBody(Model(settings), AssistantModule.Temperature(settings), MAX_TOKENS, [Message("user", user)], Some(system)),
      Headers(ANTHROPIC_KEY), onSuccess, onFailure)
  }

  /** Both body shapes carry the same prompts, model, temperature and token limit. */
  lemma BodyShapesAgree(settings: Option<Settings>, system: string, user: string, onSuccess: Callback, onFailure: Callback)
    ensures var p, m := PageApiRequest(settings, system, user, onSuccess, onFailure).request,
                        AssistantModule.ApiRequest(settings, system, user, onSuccess, onFailure).request;
      && SystemOf(p) == SystemOf(m) == system
      && UserOf(p) == UserOf(m) == user
      && p.model == m.model && p.temperature == m.temperature && p.maxTokens == m.maxTokens
  {
  }
}
