/**
 * The completion-service client of the module copies
 * (modules/claudeAssistant-module.js): the settings check run before every
 * operation, and the one REST call that sends a system and a user prompt.
 */
module AssistantModule {
  import opened Wrappers
  import opened Text
  import opened Spira
  import Constants

  /** The outcome of a settings check: whether to go on, and what was shown. */
  datatype Verified = Verified(ok: bool, shown: seq<Event>)

  const API_KEY_NAME := "API Key"

  /**
   * `claude_verifyRequiredSettings`: the extension's settings must exist
   * and hold a non-empty `api_key`; each failure shows its own error.
   */
  function VerifyRequiredSettings(settings: Option<Settings>): (r: Verified)
    ensures r.ok <==> settings.Some? && HasSetting(settings, "api_key")
    ensures r.ok ==> r.shown == []
    ensures settings.None? ==> r.shown == [ShowError(Constants.MISSING_SETTINGS)]
    ensures settings.Some? && !r.ok ==> r.shown == [ShowError(Constants.MissingSetting(API_KEY_NAME))]
  {
    if settings.None? then Verified(false, [ShowError(Constants.MISSING_SETTINGS)])
    else if !HasSetting(settings, "api_key") then
      Verified(false, [ShowError(Constants.Format(Constants.MISSING_SETTING, API_KEY_NAME))])
    else Verified(true, [])
  }

  const DEFAULT_MODEL := "claude-3-sonnet-20240229"
  const MAX_TOKENS := 4096
  const MESSAGES_URL := "https://api.anthropic.com/v1/messages"
  const ANTHROPIC_KEY := "${anthropicKey}"

  /** `settings.model` when set, otherwise the default model. */
  function Model(settings: Option<Settings>): (m: string)
    ensures HasSetting(settings, "model") ==> m == settings.value["model"]
    ensures !HasSetting(settings, "model") ==> m == DEFAULT_MODEL
  {
    SettingOr(settings, "model", DEFAULT_MODEL)
  }

  /**
   * `parseFloat(text)` is truthy: after leading white space and an optional
   * sign, the text starts with `Infinity` or with a decimal mantissa that
   * holds a non-zero digit.
   */
  predicate ParseFloatTruthy(text: string)
  {
    var t := TrimStart(text);
    var u := if |t| > 0 && (t[0] == '+' || t[0] == '-') then t[1..] else t;
    "Infinity" <= u || NonZeroMantissa(u)
  }

  /** The number of decimal digits at the front of `s`. */
  function DigitRun(s: string): (n: nat)
    ensures n <= |s|
    ensures forall i :: 0 <= i < n ==> '0' <= s[i] <= '9'
    ensures n < |s| ==> !('0' <= s[n] <= '9')
  {
    if s != [] && '0' <= s[0] <= '9' then 1 + DigitRun(s[1..]) else 0
  }

  predicate HasNonZero(s: string)
  {
    exists i | 0 <= i < |s| :: '1' <= s[i] <= '9'
  }

  /** The integer digits, or the fraction digits after a point, hold a non-zero digit. */
  predicate NonZeroMantissa(u: string)
  {
    var n := DigitRun(u);
    var rest := u[n..];
    HasNonZero(u[..n])
    || (|rest| > 0 && rest[0] == '.' && HasNonZero(rest[1..][..DigitRun(rest[1..])]))
  }

  /** The temperature sent: the setting when it is present and parses to a truthy number, otherwise 0.2. */
  function Temperature(settings: Option<Settings>): (t: Spira.Temperature)
    ensures t.ParsedTemperature? ==> HasSetting(settings, "temperature") && t.text == settings.value["temperature"]
  {
    if HasSetting(settings, "temperature") && ParseFloatTruthy(settings.value["temperature"])
    then ParsedTemperature(settings.value["temperature"])
    else DefaultTemperature
  }

  /** Text that starts with a digit is its own `TrimStart`, carries no sign and does not start with `Infinity`. */
  lemma DigitLead(u: string)
    requires |u| > 0 && '0' <= u[0] <= '9'
    ensures ParseFloatTruthy(u) <==> NonZeroMantissa(u)
  {
    DigitLeadUntrimmed(u);
    DigitLeadFinite(u);
  }

  lemma DigitLeadUntrimmed(u: string)
    requires |u| > 0 && '0' <= u[0] <= '9'
    ensures TrimStart(u) == u
  {
    assert !IsSpace(u[0]);
  }

  lemma DigitLeadFinite(u: string)
    requires |u| > 0 && '0' <= u[0] <= '9'
    ensures !("Infinity" <= u)
  {
    assert "Infinity"[0] == 'I';
  }

  predicate AllZeros(s: string)
  {
    forall i | 0 <= i < |s| :: s[i] == '0'
  }

  /** Digits that are all zeros have no non-zero digit. */
  lemma ZerosAreZero(s: string)
    requires AllZeros(s)
    ensures !HasNonZero(s) && !HasNonZero(s[..DigitRun(s)])
  {
    assert forall i | 0 <= i < |s[..DigitRun(s)]| :: s[..DigitRun(s)][i] == s[i];
  }

  /** A run of zeros is read whole as the integer digits. */
  lemma ZerosRun(zeros: string, rest: string)
    requires AllZeros(zeros) && (rest == [] || rest[0] == '.')
    ensures DigitRun(zeros + rest) == |zeros|
  {
    var u := zeros + rest;
    assert forall i | 0 <= i < |zeros| :: u[i] == '0';
    assert |zeros| < |u| ==> u[|zeros|] == '.';
  }

  /** Zeros, optionally followed by a point and more zeros, parse to 0. */
  lemma ZeroTextFalsy(zeros: string, rest: string, fraction: string)
    requires |zeros| > 0 && AllZeros(zeros) && AllZeros(fraction)
    requires rest == [] || rest == "." + fraction
    ensures !ParseFloatTruthy(zeros + rest)
  {
    var u := zeros + rest;
    assert u[0] == '0';
    DigitLead(u);
    ZerosRun(zeros, rest);
    assert u[..|zeros|] == zeros;
    ZerosAreZero(zeros);
    assert u[|zeros|..] == rest;
    if rest != [] {
      assert rest[1..] == fraction;
      ZerosAreZero(fraction);
    }
  }

  /** A temperature of zero, such as `0` or `0.00`, keeps the default. */
  lemma ZeroTemperatureKeepsDefault(settings: Settings, zeros: string, fraction: string)
    requires |zeros| > 0 && AllZeros(zeros) && AllZeros(fraction)
    requires "temperature" in settings
    requires settings["temperature"] == zeros || settings["temperature"] == zeros + "." + fraction
    ensures Temperature(Some(settings)) == DefaultTemperature
  {
    var text := settings["temperature"];
    var rest: string := if text == zeros then [] else "." + fraction;
    assert text == zeros + rest;
    ZeroTextFalsy(zeros, rest, fraction);
    assert !ParseFloatTruthy(text);
  }

  /** A temperature starting with a non-zero digit is always used. */
  lemma NonZeroTemperatureUsed(settings: Settings, text: string)
    requires "temperature" in settings && settings["temperature"] == text
    requires |text| > 0 && '1' <= text[0] <= '9'
    ensures Temperature(Some(settings)) == ParsedTemperature(text)
  {
    DigitLead(text);
    var n := DigitRun(text);
    assert text[..n][0] == text[0];
    assert HasNonZero(text[..n]);
  }

  /** The standard headers, with the placeholder the host substitutes for the key. */
  function Headers(key: string): (hs: seq<Header>)
    ensures |hs| == 5 && hs[4] == Header("x-api-key", key)
  {
    [ Header("Content-Type", "application/json"),
      Header("Accept", "application/json"),
      Header("User-agent", "Spira"),
      Header("anthropic-version", "2023-06-01"),
      Header("x-api-key", key) ]
  }

  /** The system prompt a request carries: its `system` field, or else a leading message in the system role. */
  function SystemOf(b: MessagesBody): string
  {
    if b.system.Some? then b.system.value
    else if |b.messages| > 0 && b.messages[0].role == "system" then b.messages[0].content
    else ""
  }

  /** The user prompt a request carries: its last message, when that is in the user role. */
  function UserOf(b: MessagesBody): string
  {
    if |b.messages| > 0 && b.messages[|b.messages| - 1].role == "user" then b.messages[|b.messages| - 1].content
    else ""
  }

  /**
   * `claude_executeApiRequest`: one POST to the messages endpoint whose body
   * lists the system prompt and then the user prompt, sent with the
   * standard headers and the caller's callbacks.
   */
  function ApiRequest(settings: Option<Settings>, system: string, user: string, onSuccess: Callback, onFailure: Callback): (e: Event)
    ensures e.ExecuteRest? && e.url == MESSAGES_URL && e.onSuccess == onSuccess && e.onFailure == onFailure
    ensures e.request.maxTokens == MAX_TOKENS && e.request.system == None
    ensures e.headers == Headers(ANTHROPIC_KEY)
  {
    ExecuteRest(MESSAGES_URL,
      MessagesBody(Model(settings), Temperature(settings), MAX_TOKENS,
        [Message("system", system), Message("user", user)], None),
      Headers(ANTHROPIC_KEY), onSuccess, onFailure)
  }

  /** The prompts can be read back from the request, in their order. */
  lemma ApiRequestCarriesPrompts(settings: Option<Settings>, system: string, user: string, onSuccess: Callback, onFailure: Callback)
    ensures var b := ApiRequest(settings, system, user, onSuccess, onFailure).request;
      && b.messages == [Message("system", system), Message("user", user)]
      && SystemOf(b) == system && UserOf(b) == user
      && b.model == Model(settings) && b.temperature == Temperature(settings)
  {
  }
}
