/**
 * The mitigation generator of the risk screen, browser copy
 * (riskDetails.js). It follows the module copy step by step; it uses the
 * browser bundle's settings check, request builder and fence cleaner, and
 * it reads the settings without a guard when the risk arrives.
 */
module RiskDetails {
  import opened Wrappers
  import opened Js
  import opened Spira
  import opened FanOut
  import CommonModule
  import Common
  import AssistantModule
  import Assistant
  import Prompts
  import Constants
  import M = RiskDetailsModule

  /** The browser cleaner's reading of a generated text. */
  function BrowserRead(env: Env, generation: Json): Completion<Option<seq<Json>>>
  {
    M.ReadMitigations(env, Common.CleanJson(Some(generation)))
  }

  /**
   * The generated text is always truthy; both copies read a ```` ```json ````
   * block the same way, and a text that is not a string throws in both.
   */
  lemma ReadsLikeModule(env: Env, generation: Json)
    requires Truthy(Some(generation))
    requires generation.JStr? ==> exists x :: '`' !in x && generation.s == "```json\n" + x + "\n```"
    ensures BrowserRead(env, generation) == M.ReadMitigations(env, CommonModule.CleanJson(Some(generation)))
  {
    if generation.JStr? {
      var x :| '`' !in x && generation.s == "```json\n" + x + "\n```";
      Common.TaggedBlockAgrees(x);
    }
  }

  class Screen {
    const env: Env
    var action: Option<string>
    var running: bool
    var remoteRisk: Value
    var mitigationCount: Option<int>
    var log: seq<Event>

    /** `let localState = {}`. */
    constructor(env: Env)
      ensures this.env == env && action == None && !running && remoteRisk == None
      ensures mitigationCount == None && log == []
    {
      this.env := env;
      action := None;
      running := false;
      remoteRisk := None;
      mitigationCount := None;
      log := [];
    }

    twostate predicate StateKept()
      reads this
    {
      action == old(action) && running == old(running) && remoteRisk == old(remoteRisk)
      && mitigationCount == old(mitigationCount)
    }

    /** `claude_generateMitigations`: the browser bundle's settings check, which makes the module's two checks. */
    method GenerateMitigations()
      modifies this
      ensures var v := AssistantModule.VerifyRequiredSettings(env.settings);
        && (!v.ok ==> StateKept() && log == old(log) + v.shown)
        && (v.ok && old(running) ==> StateKept() && log == old(log) + [ShowWarning(M.BUSY)])
        && (v.ok && !old(running) ==>
              && action == Some(M.GENERATE_MITIGATIONS) && remoteRisk == None && mitigationCount == None
              && (running <==> Constants.RISK in env.canModify)
              && log == old(log) + [if Constants.RISK in env.canModify then GetRequest(M.RiskUrl(env), RiskLoaded)
                                    else ShowError(Constants.PERMISSION_ERROR)])
    {
      var v := AssistantModule.VerifyRequiredSettings(env.settings);
      log := log + v.shown;
      if !v.ok {
        return;
      }
      if running {
        log := log + [ShowWarning(M.BUSY)];
        return;
      }
      action, running, remoteRisk, mitigationCount := Some(M.GENERATE_MITIGATIONS), true, None, None;
      if Constants.RISK !in env.canModify {
        log := log + [ShowError(Constants.PERMISSION_ERROR)];
        running := false;
      } else {
        log := log + [GetRequest(M.RiskUrl(env), RiskLoaded)];
      }
    }

    /**
     * `claude_getRiskData_success`: as in the module copy, except that
     * without settings the first read of `SpiraAppSettings[APP_GUID]`
     * throws right after the risk is stored, and that the request is the
     * browser bundle's.
     */
    method GetRiskDataSuccess(remote: Value)
      modifies this
      ensures !Truthy(remote) ==>
        remoteRisk == old(remoteRisk) && !running && log == old(log) + [ShowError(Constants.EMPTY_RISK)]
      ensures Truthy(remote) && env.settings.None? ==>
        remoteRisk == remote && running == old(running) && log == old(log)
      ensures Truthy(remote) && env.settings.Some? && action == Some(M.GENERATE_MITIGATIONS) ==>
        && remoteRisk == remote && running == old(running)
        && log == old(log) + [Assistant.ApiRequest(env.settings.value, M.RiskSystemPrompt(env.settings),
             Prompts.UserPrompt(Field(remote, "Name"), Field(remote, "Description"),
               SettingIsTrue(env.settings, Prompts.DESCRIPTIONS), env.plainText),
             MitigationResponse, OperationFailure)]
      ensures Truthy(remote) && env.settings.Some? && action != Some(M.GENERATE_MITIGATIONS) ==>
        remoteRisk == remote && !running && log == old(log) + [ShowError(M.UnknownAction(action))]
      ensures action == old(action) && mitigationCount == old(mitigationCount)
    {
      if !Truthy(remote) {
        log := log + [ShowError(Constants.EMPTY_RISK)];
        running := false;
        return;
      }
      remoteRisk := remote;
      if env.settings.None? {
        // SpiraAppSettings[APP_GUID].global_prompt throws a TypeError.
        return;
      }
      if action != Some(M.GENERATE_MITIGATIONS) {
        log := log + [ShowError(M.UnknownAction(action))];
        running := false;
        return;
      }
      var user := Prompts.UserPrompt(Field(remote, "Name"), Field(remote, "Description"),
        SettingIsTrue(env.settings, Prompts.DESCRIPTIONS), env.plainText);
      log := log + [Assistant.ApiRequest(env.settings.value, M.RiskSystemPrompt(env.settings), user,
        MitigationResponse, OperationFailure)];
    }

    /** `claude_generateMitigationsFromChoice`, with the browser cleaner. */
    method GenerateMitigationsFromChoice(generation: Json) returns (threw: bool)
      modifies this
      ensures action == old(action) && remoteRisk == old(remoteRisk)
      ensures match BrowserRead(env, generation)
        case Threw => threw && StateKept() && log == old(log)
        case Normal(None) =>
          !threw && !running && mitigationCount == old(mitigationCount) && log == old(log) + [ShowError(M.NO_MITIGATIONS)]
        case Normal(Some(items)) =>
          && (threw <==> Aborted(items)) && running == old(running)
          && mitigationCount == Some(|items|) && log == old(log) + Issued(items, M.MitigationPlan(env))
    {
      var read := BrowserRead(env, generation);
      match read
      case Threw =>
        threw := true;
      case Normal(None) =>
        log := log + [ShowError(M.NO_MITIGATIONS)];
        running := false;
        threw := false;
      case Normal(Some(items)) =>
        mitigationCount := Some(|items|);
        var posts;
        posts, threw := Issue(items, M.MitigationPlan(env));
        log := log + posts;
    }

    /** `claude_processResponse`: the same classification and dispatch as the module copy. */
    method ProcessResponse(response: Option<RestResponse>)
      modifies this
      ensures action == old(action) && remoteRisk == old(remoteRisk)
      ensures match CommonModule.ApiVerdict(response, None, env.parse)
        case Reject(m) => !running && log == old(log) + [ShowError(m)] && mitigationCount == old(mitigationCount)
        case Accept(text, _) =>
          if action != Some(M.GENERATE_MITIGATIONS) then !running && log == old(log) && mitigationCount == old(mitigationCount)
          else match BrowserRead(env, text)
            case Threw =>
              !running && log == old(log) + [ShowError(Constants.INVALID_CONTENT)] && mitigationCount == old(mitigationCount)
            case Normal(None) =>
              !running && log == old(log) + [ShowError(M.NO_MITIGATIONS)] && mitigationCount == old(mitigationCount)
            case Normal(Some(items)) =>
              && mitigationCount == Some(|items|)
              && log == old(log) + Issued(items, M.MitigationPlan(env))
                   + (if Aborted(items) then [ShowError(Constants.INVALID_CONTENT)] else [])
              && (running <==> old(running) && !Aborted(items))
    {
      var v := CommonModule.ApiVerdict(response, None, env.parse);
      match v
      case Reject(m) =>
        log := log + [ShowError(m)];
        running := false;
      case Accept(text, _) =>
        if action == Some(M.GENERATE_MITIGATIONS) {
          var threw := GenerateMitigationsFromChoice(text);
          if threw {
            log := log + [ShowError(Constants.INVALID_CONTENT)];
            running := false;
          }
        } else {
          running := false;
        }
    }

    /** `claude_generateMitigationsFromChoice_success`, as in the module copy. */
    method GenerateMitigationsFromChoiceSuccess()
      modifies this
      ensures mitigationCount == Decrement(old(mitigationCount)) && !running
      ensures log == old(log) + (if mitigationCount == Some(0) then M.COMPLETION else [])
      ensures action == old(action) && remoteRisk == old(remoteRisk)
    {
      mitigationCount := Decrement(mitigationCount);
      if mitigationCount == Some(0) {
        log := log + M.COMPLETION;
      }
      running := false;
    }

    /** common.js's `claude_operation_failure`, whose messages table is always present. */
    method ClaudeOperationFailure(response: Value)
      modifies this
      ensures !running && log == old(log) + CommonModule.FailureEvents(response, true)
      ensures action == old(action) && remoteRisk == old(remoteRisk) && mitigationCount == old(mitigationCount)
    {
      running := false;
      log := log + CommonModule.FailureEvents(response, true);
    }
  }
}
