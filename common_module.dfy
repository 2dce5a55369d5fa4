/**
 * The helpers shared by the module copies of the screens
 * (modules/common-module.js): fence cleaning, the slicing of a `/pattern/flags`
 * string, the failure handler's choice of one message, and the checks a
 * completion response goes through before its text reaches a callback.
 */
module CommonModule {
  import opened Wrappers
  import opened Js
  import opened Text
  import opened Fences
  import opened Spira
  import Constants

  // ---------------------------------------------------------------------
  // claude_cleanJSON

  /**
   * A falsy argument gives the empty string; a string loses every fence
   * (three backticks, an optional `json`, an optional newline); any other
   * truthy value has no `replace` method and throws.
   */
  function CleanJson(wrapped: Value): (r: Completion<string>)
    ensures !Truthy(wrapped) ==> r == Normal("")
    ensures r.Threw? <==> Truthy(wrapped) && !wrapped.value.JStr?
    ensures r.Normal? ==> !Contains(r.value, TICKS)
  {
    if !Truthy(wrapped) then Normal("")
    else if wrapped.value.JStr? then
      NoTicksLeft(wrapped.value.s, Tagged);
      Normal(Strip(wrapped.value.s, Tagged))
    else Threw
  }

  /** Text without fences comes back unchanged. */
  lemma CleanJsonKeepsPlain(s: string)
    requires !Contains(s, TICKS)
    ensures CleanJson(Some(JStr(s))) == Normal(s)
  {
    StripAbsent(s, Tagged);
  }

  /** Cleaning what was cleaned changes nothing. */
  lemma CleanJsonIdempotent(w: Value)
    requires CleanJson(w).Normal?
    ensures CleanJson(Some(JStr(CleanJson(w).value))) == CleanJson(w)
  {
    var r := CleanJson(w).value;
    StripAbsent(r, Tagged);
  }

  /**
   * One tagged block around fence-free text loses both fences and the
   * newline after the opening one (the first test vector, with
   * `x` = `{"key": "value"}`, and its variants without either fence).
   */
  lemma CleanJsonTaggedBlock(x: string)
    requires '`' !in x
    ensures CleanJson(Some(JStr("```json\n" + x + "\n```"))) == Normal(x + "\n")
    ensures CleanJson(Some(JStr("```json\n" + x))) == Normal(x)
    ensures CleanJson(Some(JStr(x + TICKS))) == Normal(x)
  {
    var s := "```json\n" + x + "\n```";
    calc {
      Strip(s, Tagged);
      == { assert s == "```json\n" + (x + "\n" + TICKS); TaggedFence(x + "\n" + TICKS, Tagged); }
      Strip(x + "\n" + TICKS, Tagged);
      == { StripPlain(x + "\n", TICKS, Tagged); }
      x + "\n" + Strip(TICKS, Tagged);
      == { ClosingFence(Tagged); }
      x + "\n";
    }
    calc {
      Strip("```json\n" + x, Tagged);
      == { TaggedFence(x, Tagged); }
      Strip(x, Tagged);
      == { StripPlain(x, "", Tagged); assert x + "" == x; }
      x;
    }
    calc {
      Strip(x + TICKS, Tagged);
      == { StripPlain(x, TICKS, Tagged); }
      x + Strip(TICKS, Tagged);
      == { ClosingFence(Tagged); }
      x;
    }
  }

  /** The module regex treats an untagged block like a tagged one: the newline after the opening fence goes too. */
  lemma CleanJsonBareBlock(x: string)
    requires '`' !in x
    ensures CleanJson(Some(JStr("```\n" + x + "\n```"))) == Normal(x + "\n")
  {
    var s := "```\n" + x + "\n```";
    calc {
      Strip(s, Tagged);
      == { assert s == "```\n" + (x + "\n" + TICKS); BareFenceNewline(x + "\n" + TICKS); }
      Strip(x + "\n" + TICKS, Tagged);
      == { StripPlain(x + "\n", TICKS, Tagged); }
      x + "\n" + Strip(TICKS, Tagged);
      == { ClosingFence(Tagged); }
      x + "\n";
    }
  }

  /** Prose on both sides of a block is kept (the third test vector). */
  lemma CleanJsonProse(pre: string, x: string, post: string)
    requires '`' !in pre && '`' !in x && '`' !in post
    requires post == [] || (post[0] != '\n' && !("json" <= post))
    ensures CleanJson(Some(JStr(pre + "```json\n" + x + "\n```" + post))) == Normal(pre + x + "\n" + post)
  {
    var s := pre + "```json\n" + x + "\n```" + post;
    calc {
      Strip(s, Tagged);
      == { assert s == pre + ("```json\n" + ((x + "\n") + (TICKS + post)));
           StripPlain(pre, "```json\n" + ((x + "\n") + (TICKS + post)), Tagged); }
      pre + Strip("```json\n" + ((x + "\n") + (TICKS + post)), Tagged);
      == { TaggedFence((x + "\n") + (TICKS + post), Tagged); }
      pre + Strip((x + "\n") + (TICKS + post), Tagged);
      == { StripPlain(x + "\n", TICKS + post, Tagged); }
      pre + ((x + "\n") + Strip(TICKS + post, Tagged));
      == { BareFence(post, Tagged); }
      pre + ((x + "\n") + Strip(post, Tagged));
      == { StripPlain(post, "", Tagged); assert post + "" == post; }
      pre + ((x + "\n") + post);
    }
    assert pre + ((x + "\n") + post) == pre + x + "\n" + post;
  }

  /** Several blocks, tagged or not, each lose their fence lines (the nested-markdown test vector). */
  lemma CleanJsonBlocks(a: string, b: string, c: string, x: string, e: string)
    requires '`' !in a && '`' !in b && '`' !in c && '`' !in x && '`' !in e
    ensures CleanJson(Some(JStr(a + "```\n" + b + "```\n" + c + "```json\n" + x + "```\n" + e)))
      == Normal(a + b + c + x + e)
  {
    var s := a + "```\n" + b + "```\n" + c + "```json\n" + x + "```\n" + e;
    var t3 := "```\n" + e;
    var t2 := "```json\n" + (x + t3);
    var t1 := "```\n" + (c + t2);
    var t0 := "```\n" + (b + t1);
    calc {
      Strip(s, Tagged);
      == { assert s == a + t0; StripPlain(a, t0, Tagged); }
      a + Strip(t0, Tagged);
      == { BareFenceNewline(b + t1); StripPlain(b, t1, Tagged); }
      a + (b + Strip(t1, Tagged));
      == { BareFenceNewline(c + t2); StripPlain(c, t2, Tagged); }
      a + (b + (c + Strip(t2, Tagged)));
      == { TaggedFence(x + t3, Tagged); StripPlain(x, t3, Tagged); }
      a + (b + (c + (x + Strip(t3, Tagged))));
      == { BareFenceNewline(e); StripPlain(e, "", Tagged); assert e + "" == e; }
      a + (b + (c + (x + e)));
    }
    assert a + (b + (c + (x + e))) == a + b + c + x + e;
  }

  // ---------------------------------------------------------------------
  // claude_createRegexFromString (the slicing only)

  datatype RegexParts = RegexParts(pattern: string, flags: string)

  /** `string.slice(1, string.lastIndexOf('/'))` and `string.slice(string.lastIndexOf('/') + 1)`. */
  function RegexSource(s: string): (r: RegexParts)
    ensures '/' !in r.flags
    ensures |r.pattern| + |r.flags| < |s| || '/' !in s
  {
    var k := LastIndexOf(s, '/');
    RegexParts(Slice(s, 1, k), SliceFrom(s, k + 1))
  }

  /** A `/pattern/flags` string is split back into its pattern and its flags, whatever slashes the pattern holds. */
  lemma RegexSourceRoundTrip(p: string, f: string)
    requires '/' !in f
    ensures RegexSource("/" + p + "/" + f) == RegexParts(p, f)
  {
    var s := "/" + p + "/" + f;
    var k := LastIndexOf(s, '/');
    assert s[|p| + 1] == '/';
    forall j | |p| + 1 < j < |s| ensures s[j] != '/' {
      assert s[j] == f[j - |p| - 2];
    }
    assert k == |p| + 1;
    assert s[1..k] == p;
    assert s[k + 1..] == f;
  }

  /** Without any slash, the flags are the whole string and the pattern drops its first and last characters. */
  lemma RegexSourceNoSlash(s: string)
    requires '/' !in s
    ensures RegexSource(s).flags == s
    ensures RegexSource(s).pattern == if |s| >= 2 then s[1..|s| - 1] else ""
  {
    assert LastIndexOf(s, '/') == -1;
  }

  // ---------------------------------------------------------------------
  // claude_operation_failure

  /** `'Claude Assistant: ' + message + ' [' + code + ']'`. */
  function Bracketed(message: Value, code: string): (r: string)
    ensures |r| > 0 && r[|r| - 1] == ']'
  {
    "Claude Assistant: " + ToString(message) + " [" + code + "]"
  }

  /** An error reported by the host: a truthy `message` and an `exceptionType` that is truthy and `!= 0`. */
  predicate SpiraError(response: Value)
  {
    TruthyField(response, "message") && TruthyField(response, "exceptionType")
    && !LooselyZero(Field(response, "exceptionType"))
  }

  /** An error reported by the completion service: a truthy `error.message`. */
  predicate ClaudeError(response: Value)
  {
    TruthyField(response, "error") && TruthyField(Field(response, "error"), "message")
  }

  /**
   * The message the failure handler shows; reading `.message` of a
   * missing response throws before anything is shown. Without the
   * messages table the unknown case falls back to "Unknown error".
   */
  function FailureMessage(response: Value, messagesLoaded: bool): (r: Completion<string>)
    ensures r.Threw? <==> response == None || response == Some(JNull)
  {
    if response == None || response == Some(JNull) then Threw
    else if SpiraError(response) then
      Normal(Bracketed(Field(response, "message"), ToString(Field(response, "exceptionType"))))
    else if ClaudeError(response) then
      var error := Field(response, "error");
      Normal(Bracketed(Field(error, "message"), ToString(Field(error, "code"))))
    else Normal(if messagesLoaded then Constants.UNKNOWN_ERROR else Constants.FALLBACK_UNKNOWN_ERROR)
  }

  /** The host calls the failure handler shows: one error message, or none when the handler throws. */
  function FailureEvents(response: Value, messagesLoaded: bool): (es: seq<Event>)
    ensures |es| <= 1
    ensures forall i :: 0 <= i < |es| ==> es[i].ShowError?
  {
    match FailureMessage(response, messagesLoaded)
    case Normal(m) => [ShowError(m)]
    case Threw => []
  }

  /**
   * Exactly one message is shown for any response object, and it is one of
   * the bracketed ones exactly when the response has a host or a
   * completion-service error.
   */
  lemma {:induction false} FailureMessageClassified(response: Value, messagesLoaded: bool)
    requires response != None && response != Some(JNull)
    ensures |FailureEvents(response, messagesLoaded)| == 1
    ensures var m := FailureMessage(response, messagesLoaded).value;
      (m[|m| - 1] == ']') <==> (SpiraError(response) || ClaudeError(response))
    ensures !(SpiraError(response) || ClaudeError(response)) ==>
      FailureMessage(response, messagesLoaded).value
        == if messagesLoaded then Constants.UNKNOWN_ERROR else Constants.FALLBACK_UNKNOWN_ERROR
  {
    var m := FailureMessage(response, messagesLoaded).value;
    if !(SpiraError(response) || ClaudeError(response)) {
      assert Constants.UNKNOWN_ERROR[|Constants.UNKNOWN_ERROR| - 1] == '!';
      assert Constants.FALLBACK_UNKNOWN_ERROR[|Constants.FALLBACK_UNKNOWN_ERROR| - 1] == 'r';
    }
  }

  /** The messages table only matters for unrecognised responses. */
  lemma MessagesTableOnlyForUnknown(response: Value)
    ensures FailureMessage(response, true) == FailureMessage(response, false)
      <==> (response == None || response == Some(JNull) || SpiraError(response) || ClaudeError(response))
  {
    assert Constants.UNKNOWN_ERROR != Constants.FALLBACK_UNKNOWN_ERROR by {
      assert |Constants.FALLBACK_UNKNOWN_ERROR| < |Constants.UNKNOWN_ERROR|;
    }
  }

  /** A host error (the first test scenario: `{ message: 'API Error', exceptionType: 500 }`). */
  lemma FailureFromHost(message: string, code: nat, loaded: bool)
    requires message != "" && code != 0
    ensures FailureMessage(Some(JObj(map["message" := JStr(message), "exceptionType" := JNum(code)])), loaded)
      == Normal("Claude Assistant: " + message + " [" + NatToString(code) + "]")
  {
  }

  /** A completion-service error shows its code, whatever other fields it has (the second and third scenarios). */
  lemma FailureFromClaude(message: string, code: nat, extra: map<string, Json>, loaded: bool)
    requires message != "" && "message" !in extra && "code" !in extra
    ensures FailureMessage(Some(JObj(map["error" := JObj(extra + map["message" := JStr(message), "code" := JNum(code)])])), loaded)
      == Normal("Claude Assistant: " + message + " [" + NatToString(code) + "]")
  {
  }

  /** An object with none of the recognised fields gets the generic message (the fourth scenario and the `{}` argument). */
  lemma FailureUnrecognised(fields: map<string, Json>, loaded: bool)
    requires "message" !in fields && "error" !in fields
    ensures FailureMessage(Some(JObj(fields)), loaded)
      == Normal(if loaded then Constants.UNKNOWN_ERROR else Constants.FALLBACK_UNKNOWN_ERROR)
  {
  }

  /** An `exceptionType` that equals 0 loosely, such as the text `" 0 "`, is not a host error. */
  lemma FailureZeroType(message: string, t: string, loaded: bool)
    requires message != "" && t != "" && NumericZero(t)
    ensures FailureMessage(Some(JObj(map["message" := JStr(message), "exceptionType" := JStr(t)])), loaded)
      == Normal(if loaded then Constants.UNKNOWN_ERROR else Constants.FALLBACK_UNKNOWN_ERROR)
  {
  }

  lemma PaddedZero()
    ensures NumericZero(" 0 ")
  {
    TrimPadded(" ", "0", " ");
    assert " " + "0" + " " == " 0 ";
    assert ZeroMantissa("0"[..1]) by { assert multiset("0")['.'] == 0; }
    assert UnsignedZero("0");
  }

  // ---------------------------------------------------------------------
  // claude_processApiResponse

  /** What the response handler decides: an error to show, or the text to hand on with the tokens it used. */
  datatype Verdict = Reject(message: string) | Accept(text: Json, tokens: int)

  /** `customMessage || messages.INVALID_CONTENT`. */
  function InvalidContent(customMessage: Option<string>): (m: string)
    ensures m != ""
  {
    if customMessage.Some? && customMessage.value != "" then customMessage.value else Constants.INVALID_CONTENT
  }

  /** `response.content` is truthy. */
  predicate HasContent(r: RestResponse)
  {
    r.content.Some? && r.content.value != ""
  }

  /**
   * The message of a non-200 response: the parsed body's `error.message`
   * when there is one, otherwise `statusDescription`; a body that does not
   * parse, or parses to `null`, is ignored.
   */
  function ErrorDetail(r: RestResponse, parse: string -> Option<Json>): (message: Value)
    ensures message != r.statusDescription ==>
      HasContent(r) && parse(r.content.value).Some? && ClaudeError(parse(r.content.value))
  {
    if !HasContent(r) then r.statusDescription
    else
      var body := parse(r.content.value);
      if body.Some? && ClaudeError(body) then Field(Field(body, "error"), "message")
      else r.statusDescription
  }

  /** The error shown for a non-200 response. */
  function StatusMessage(r: RestResponse, parse: string -> Option<Json>): string
  {
    var message := ErrorDetail(r, parse);
    if Truthy(message) && r.statusCode != 0 then Bracketed(message, IntToString(r.statusCode))
    else Constants.UNKNOWN_ERROR
  }

  /** The status error is the generic one exactly when there is no message to show or the code is 0. */
  lemma StatusMessageUnknown(r: RestResponse, parse: string -> Option<Json>)
    ensures StatusMessage(r, parse) == Constants.UNKNOWN_ERROR
      <==> (!Truthy(ErrorDetail(r, parse)) || r.statusCode == 0)
  {
    assert Constants.UNKNOWN_ERROR[|Constants.UNKNOWN_ERROR| - 1] == '!';
  }

  /**
   * `content.content[0].text` when the envelope check passes: `content`,
   * its first element and that element's `text` are all truthy. A `null`
   * body makes the check throw, which ends the same way.
   */
  function EnvelopeText(c: Json): (t: Value)
    ensures t.Some? ==> Truthy(t)
  {
    var outer := Get(Some(c), "content");
    if outer.Throws? || !Truthy(outer.v) then None
    else
      var first := First(outer.v);
      if !Truthy(first.v) then None
      else
        var text := Get(first.v, "text");
        if !Truthy(text.v) then None else text.v
  }

  /** The envelope of a completion: an object whose `content` is a list led by `{ text: t }`. */
  function Envelope(t: string, more: seq<Json>, usage: map<string, Json>): Json
  {
    JObj(map["content" := JArr([JObj(map["text" := JStr(t)])] + more), "usage" := JObj(usage)])
  }

  /** Every non-empty text in a well-formed envelope is found. */
  lemma EnvelopeTextFound(t: string, more: seq<Json>, usage: map<string, Json>)
    requires t != ""
    ensures EnvelopeText(Envelope(t, more, usage)) == Some(JStr(t))
  {
  }

  /** Envelopes without a list of content blocks are refused. */
  lemma EnvelopeTextRefused(c: Json)
    requires !(c.JObj? && "content" in c.fields && Truthy(Some(c.fields["content"])))
    ensures EnvelopeText(c) == None
  {
  }

  /** `content.usage && content.usage.total_tokens`, counted when it is a number. */
  function UsageTokens(c: Json): int
  {
    var body := Some(c);
    if Truthy(body) && TruthyField(body, "usage") && TruthyField(Field(body, "usage"), "total_tokens")
      && Field(Field(body, "usage"), "total_tokens").value.JNum?
    then Field(Field(body, "usage"), "total_tokens").value.n
    else 0
  }

  /** The decision of `claude_processApiResponse`, in the order of its checks. */
  function ApiVerdict(response: Option<RestResponse>, customMessage: Option<string>, parse: string -> Option<Json>): (v: Verdict)
    ensures v.Accept? ==> Truthy(Some(v.text))
  {
    match response
    case None => Reject(Constants.NO_RESPONSE)
    case Some(r) =>
      if r.statusCode != 200 then Reject(StatusMessage(r, parse))
      else if !HasContent(r) then Reject(InvalidContent(customMessage))
      else
        var body := parse(r.content.value);
        if body.None? || EnvelopeText(body.value).None? then Reject(InvalidContent(customMessage))
        else Accept(EnvelopeText(body.value).value, UsageTokens(body.value))
  }

  /**
   * The callback is reached exactly for a 200 response whose body parses
   * and carries a text, and it receives that text.
   */
  lemma ApiVerdictAccepts(response: Option<RestResponse>, customMessage: Option<string>, parse: string -> Option<Json>)
    ensures ApiVerdict(response, customMessage, parse).Accept?
      <==> (response.Some? && response.value.statusCode == 200 && HasContent(response.value)
            && parse(response.value.content.value).Some?
            && EnvelopeText(parse(response.value.content.value).value).Some?)
    ensures ApiVerdict(response, customMessage, parse).Accept? ==>
      Some(ApiVerdict(response, customMessage, parse).text) == EnvelopeText(parse(response.value.content.value).value)
  {
  }

  /** The four ways a response is refused, each with its own message. */
  lemma ApiVerdictRejects(response: Option<RestResponse>, customMessage: Option<string>, parse: string -> Option<Json>)
    ensures response.None? ==> ApiVerdict(response, customMessage, parse) == Reject(Constants.NO_RESPONSE)
    ensures response.Some? && response.value.statusCode != 200 ==>
      ApiVerdict(response, customMessage, parse) == Reject(StatusMessage(response.value, parse))
    ensures response.Some? && response.value.statusCode == 200 && !HasContent(response.value) ==>
      ApiVerdict(response, customMessage, parse) == Reject(InvalidContent(customMessage))
    ensures response.Some? && response.value.statusCode == 200 && HasContent(response.value)
      && (parse(response.value.content.value).None? || EnvelopeText(parse(response.value.content.value).value).None?)
      ==> ApiVerdict(response, customMessage, parse) == Reject(InvalidContent(customMessage))
  {
  }

  /** A non-200 response shows the body's error message when it has one. */
  lemma StatusMessageFromBody(code: int, description: Value, body: string, message: string, parse: string -> Option<Json>)
    requires code != 200 && code != 0 && body != "" && message != ""
    requires parse(body) == Some(JObj(map["error" := JObj(map["message" := JStr(message)])]))
    ensures ApiVerdict(Some(RestResponse(code, description, Some(body))), None, parse)
      == Reject("Claude Assistant: " + message + " [" + IntToString(code) + "]")
  {
  }

  /**
   * The page state the handlers act on: the single-flight flag, the token
   * tally (an undefined tally is 0, as every read of it is `|| 0`) and the
   * host calls made so far.
   */
  class Session {
    var running: bool
    var tokensUse: int
    var log: seq<Event>

    constructor(running: bool, tokensUse: int)
      ensures this.running == running && this.tokensUse == tokensUse && log == []
    {
      this.running := running;
      this.tokensUse := tokensUse;
      log := [];
    }

    /** `claude_operation_failure`: the flag is cleared first, whatever the response, then one message is shown. */
    method OperationFailure(response: Value, messagesLoaded: bool)
      modifies this
      ensures !running && tokensUse == old(tokensUse)
      ensures log == old(log) + FailureEvents(response, messagesLoaded)
    {
      running := false;
      var m := FailureMessage(response, messagesLoaded);
      if m.Normal? {
        log := log + [ShowError(m.value)];
      }
    }

    /**
     * `claude_processApiResponse`: a refusal shows its message and clears
     * the flag; an accepted response adds its tokens, leaves the flag alone
     * and hands its text to the callback (returned here).
     */
    method ProcessApiResponse(response: Option<RestResponse>, customMessage: Option<string>, parse: string -> Option<Json>)
      returns (dispatched: Option<Json>)
      modifies this
      ensures var v := ApiVerdict(response, customMessage, parse);
        match v
        case Reject(m) =>
          && !running && tokensUse == old(tokensUse) && log == old(log) + [ShowError(m)] && dispatched == None
        case Accept(t, n) =>
          && running == old(running) && tokensUse == old(tokensUse) + n && log == old(log) && dispatched == Some(t)
    {
      var v := ApiVerdict(response, customMessage, parse);
      match v
      case Reject(m) =>
        log := log + [ShowError(m)];
        running := false;
        dispatched := None;
      case Accept(t, n) =>
        tokensUse := tokensUse + n;
        dispatched := Some(t);
    }
  }
}
