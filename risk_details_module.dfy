/**
 * The mitigation generator of the risk screen, module copy
 * (modules/riskDetails-module.js): fetch the risk, ask for mitigations,
 * create one mitigation per described item and count the creations down.
 */
module RiskDetailsModule {
  import opened Wrappers
  import opened Js
  import opened Spira
  import opened FanOut
  import CommonModule
  import AssistantModule
  import Prompts
  import Constants

  const GENERATE_MITIGATIONS := "generateMitigations"
  const MITIGATION_PROMPT_KEY := "mitigation_prompt"

  const BUSY := Constants.WaitForOtherJob(Constants.ARTIFACT_MITIGATIONS)

  /** The message shown when the generated mitigations cannot be read. */
  const NO_MITIGATIONS := Constants.CouldNotGenerate(Constants.ARTIFACT_MITIGATIONS)

  function RiskUrl(env: Env): string
  {
    ProjectUrl(env, "/risks/" + NatToString(env.artifactId))
  }

  function MitigationsUrl(env: Env): string
  {
    RiskUrl(env) + "/mitigations"
  }

  /** The base prompt, a space and the mitigation prompt (its own setting or the built-in text). */
  function RiskSystemPrompt(settings: Option<Settings>): (p: string)
    ensures Prompts.BasePrompt(settings) + " " <= p
    ensures !HasSetting(settings, MITIGATION_PROMPT_KEY) ==>
      p == Prompts.BasePrompt(settings) + " " + Constants.RISK_GENERATE_MITIGATIONS
  {
    Prompts.SystemPrompt(settings, " ", MITIGATION_PROMPT_KEY, Constants.RISK_GENERATE_MITIGATIONS)
  }

  /** What an unknown action shows: the fixed text followed by the action (`undefined` when unset). */
  function UnknownAction(action: Option<string>): (m: string)
    ensures Constants.UNKNOWN_CLAUDE_ACTION <= m
    ensures action.Some? ==> m[|Constants.UNKNOWN_CLAUDE_ACTION|..] == action.value
  {
    Constants.UNKNOWN_CLAUDE_ACTION + ToString(if action.Some? then Some(JStr(action.value)) else None)
  }

  /** The POST that creates the mitigation of a described item, dated with the current time. */
  function MitigationRequest(env: Env, item: Json, i: nat): (e: Option<Event>)
    ensures e.Some? <==> TruthyField(Some(item), "Description")
    ensures e.Some? ==> && e.value.ExecuteApi? && e.value.verb == "POST" && e.value.url == MitigationsUrl(env)
                        && e.value.body == Some(MitigationBody(env.artifactId, Some(item.fields["Description"]), env.now))
                        && e.value.onSuccess == MitigationCreated
  {
    var m := Some(item);
    if TruthyField(m, "Description") then
      Some(PostRequest(MitigationsUrl(env), MitigationBody(env.artifactId, Field(m, "Description"), env.now), MitigationCreated))
    else None
  }

  function MitigationPlan(env: Env): Plan
  {
    (item: Json, i: nat) => MitigationRequest(env, item, i)
  }

  /**
   * `JSON.parse` of the cleaned text and the `Mitigations` check: a throw
   * from the cleaner, a refusal (`None`), or the generated items.
   */
  function ReadMitigations(env: Env, cleaned: Completion<string>): (r: Completion<Option<seq<Json>>>)
    ensures cleaned.Threw? <==> r.Threw?
  {
    if cleaned.Threw? then Threw
    else
      var obj := env.parse(cleaned.value);
      Normal(if obj.None? then None else ItemsOf(obj, "Mitigations"))
  }

  /** A mitigation is created exactly for each described item before the first `null` one. */
  lemma MitigationsIssued(env: Env, items: seq<Json>, e: Event)
    ensures e in Issued(items, MitigationPlan(env)) <==>
      exists i :: 0 <= i < FirstNull(items) && TruthyField(Some(items[i]), "Description")
        && MitigationRequest(env, items[i], i) == Some(e)
  {
    PostsAreSelected(items, FirstNull(items), MitigationPlan(env), e);
  }

  /** The count is the full length, so one item without a description means the success is never shown. */
  lemma UndescribedMitigationNeverCompletes(env: Env, items: seq<Json>, i: nat)
    requires i < |items| && !Aborted(items) && !TruthyField(Some(items[i]), "Description")
    ensures Countdown(Some(|items|), |Issued(items, MitigationPlan(env))|) != Some(0)
  {
    var plan := MitigationPlan(env);
    assert plan(items[i], i) == MitigationRequest(env, items[i], i);
    SkippedItemMeansFewer(items, plan, i);
  }

  const COMPLETION: seq<Event> := [HideMessage, ReloadForm, ShowSuccess(Constants.MITIGATIONS_CREATED)]

  class Screen {
    const env: Env
    var action: Option<string>
    var running: bool
    var remoteRisk: Value
    var mitigationCount: Option<int>
    var log: seq<Event>

    constructor(env: Env)
      ensures this.env == env && action == None && !running && remoteRisk == None
      ensures mitigationCount == None && log == []
    {
      this.env := env;
      action := None;
      running := false;
      remoteRisk := None;
      mitigationCount := None;
      log := [];
    }

    twostate predicate StateKept()
      reads this
    {
      action == old(action) && running == old(running) && remoteRisk == old(remoteRisk)
      && mitigationCount == old(mitigationCount)
    }

    /**
     * `generateMitigations`: the settings check, the busy check, then
     * `{action, running: true}`; the permission to modify risks decides
     * between a GET of the risk and an error.
     */
    method GenerateMitigations()
      modifies this
      ensures var v := AssistantModule.VerifyRequiredSettings(env.settings);
        && (!v.ok ==> StateKept() && log == old(log) + v.shown)
        && (v.ok && old(running) ==> StateKept() && log == old(log) + [ShowWarning(BUSY)])
        && (v.ok && !old(running) ==>
              && action == Some(GENERATE_MITIGATIONS) && remoteRisk == None && mitigationCount == None
              && (running <==> Constants.RISK in env.canModify)
              && log == old(log) + [if Constants.RISK in env.canModify then GetRequest(RiskUrl(env), RiskLoaded)
                                    else ShowError(Constants.PERMISSION_ERROR)])
    {
      var v := AssistantModule.VerifyRequiredSettings(env.settings);
      log := log + v.shown;
      if !v.ok {
        return;
      }
      if running {
        log := log + [ShowWarning(BUSY)];
        return;
      }
      action, running, remoteRisk, mitigationCount := Some(GENERATE_MITIGATIONS), true, None, None;
      if Constants.RISK !in env.canModify {
        log := log + [ShowError(Constants.PERMISSION_ERROR)];
        running := false;
      } else {
        log := log + [GetRequest(RiskUrl(env), RiskLoaded)];
      }
    }

    /**
     * `getRiskData_success`: a truthy risk is stored; for
     * `generateMitigations` one completion request follows (the
     * description only for `artifact_descriptions === 'True'`), for any
     * other action an error naming it, with `running` cleared.
     */
    method GetRiskDataSuccess(remote: Value)
      modifies this
      ensures !Truthy(remote) ==>
        remoteRisk == old(remoteRisk) && !running && log == old(log) + [ShowError(Constants.EMPTY_RISK)]
      ensures Truthy(remote) && action == Some(GENERATE_MITIGATIONS) ==>
        && remoteRisk == remote && running == old(running)
        && log == old(log) + [AssistantModule.ApiRequest(env.settings, RiskSystemPrompt(env.settings),
             Prompts.UserPrompt(Field(remote, "Name"), Field(remote, "Description"),
               SettingIsTrue(env.settings, Prompts.DESCRIPTIONS), env.plainText),
             MitigationResponse, OperationFailure)]
      ensures Truthy(remote) && action != Some(GENERATE_MITIGATIONS) ==>
        remoteRisk == remote && !running && log == old(log) + [ShowError(UnknownAction(action))]
      ensures action == old(action) && mitigationCount == old(mitigationCount)
    {
      if !Truthy(remote) {
        log := log + [ShowError(Constants.EMPTY_RISK)];
        running := false;
        return;
      }
      remoteRisk := remote;
      if action != Some(GENERATE_MITIGATIONS) {
        log := log + [ShowError(UnknownAction(action))];
        running := false;
        return;
      }
      var user := Prompts.UserPrompt(Field(remote, "Name"), Field(remote, "Description"),
        SettingIsTrue(env.settings, Prompts.DESCRIPTIONS), env.plainText);
      log := log + [AssistantModule.ApiRequest(env.settings, RiskSystemPrompt(env.settings), user,
        MitigationResponse, OperationFailure)];
    }

    /**
     * `generateMitigationsFromChoice`: a text that does not read as a
     * `Mitigations` array shows an error and clears `running`; otherwise
     * the count is set to the full length and one mitigation is created per
     * described item, until a `null` item throws to the caller.
     */
    method GenerateMitigationsFromChoice(generation: Json) returns (threw: bool)
      modifies this
      ensures action == old(action) && remoteRisk == old(remoteRisk)
      ensures match ReadMitigations(env, CommonModule.CleanJson(Some(generation)))
        case Threw => threw && StateKept() && log == old(log)
        case Normal(None) =>
          !threw && !running && mitigationCount == old(mitigationCount) && log == old(log) + [ShowError(NO_MITIGATIONS)]
        case Normal(Some(items)) =>
          && (threw <==> Aborted(items)) && running == old(running)
          && mitigationCount == Some(|items|) && log == old(log) + Issued(items, MitigationPlan(env))
    {
      var read := ReadMitigations(env, CommonModule.CleanJson(Some(generation)));
      match read
      case Threw =>
        threw := true;
      case Normal(None) =>
        log := log + [ShowError(NO_MITIGATIONS)];
        running := false;
        threw := false;
      case Normal(Some(items)) =>
        mitigationCount := Some(|items|);
        var posts;
        posts, threw := Issue(items, MitigationPlan(env));
        log := log + posts;
    }

    /**
     * `processResponse`: the shared status and content classification;
     * a text is turned into mitigations only for `generateMitigations`,
     * and a throw on the way shows `INVALID_CONTENT` and clears `running`.
     */
    method ProcessResponse(response: Option<RestResponse>)
      modifies this
      ensures action == old(action) && remoteRisk == old(remoteRisk)
      ensures match CommonModule.ApiVerdict(response, None, env.parse)
        case Reject(m) => !running && log == old(log) + [ShowError(m)] && mitigationCount == old(mitigationCount)
        case Accept(text, _) =>
          if action != Some(GENERATE_MITIGATIONS) then !running && log == old(log) && mitigationCount == old(mitigationCount)
          else match ReadMitigations(env, CommonModule.CleanJson(Some(text)))
            case Threw =>
              !running && log == old(log) + [ShowError(Constants.INVALID_CONTENT)] && mitigationCount == old(mitigationCount)
            case Normal(None) =>
              !running && log == old(log) + [ShowError(NO_MITIGATIONS)] && mitigationCount == old(mitigationCount)
            case Normal(Some(items)) =>
              && mitigationCount == Some(|items|)
              && log == old(log) + Issued(items, MitigationPlan(env))
                   + (if Aborted(items) then [ShowError(Constants.INVALID_CONTENT)] else [])
              && (running <==> old(running) && !Aborted(items))
    {
      var v := CommonModule.ApiVerdict(response, None, env.parse);
      match v
      case Reject(m) =>
        log := log + [ShowError(m)];
        running := false;
      case Accept(text, _) =>
        if action == Some(GENERATE_MITIGATIONS) {
          var threw := GenerateMitigationsFromChoice(text);
          if threw {
            log := log + [ShowError(Constants.INVALID_CONTENT)];
            running := false;
          }
        } else {
          running := false;
        }
    }

    /** `generateMitigationsFromChoice_success`: the count goes down, completion at 0, `running` cleared every time. */
    method GenerateMitigationsFromChoiceSuccess()
      modifies this
      ensures mitigationCount == Decrement(old(mitigationCount)) && !running
      ensures log == old(log) + (if mitigationCount == Some(0) then COMPLETION else [])
      ensures action == old(action) && remoteRisk == old(remoteRisk)
    {
      mitigationCount := Decrement(mitigationCount);
      if mitigationCount == Some(0) {
        log := log + COMPLETION;
      }
      running := false;
    }

    /** `claude_operation_failure`: `running` is cleared, then at most one error is shown. */
    method ClaudeOperationFailure(response: Value, messagesLoaded: bool)
      modifies this
      ensures !running && log == old(log) + CommonModule.FailureEvents(response, messagesLoaded)
      ensures action == old(action) && remoteRisk == old(remoteRisk) && mitigationCount == old(mitigationCount)
    {
      running := false;
      log := log + CommonModule.FailureEvents(response, messagesLoaded);
    }
  }
}
