/**
 * The two other ways the screens read a completion response besides the
 * shared `claude_processApiResponse`: the module screens that skip the
 * status check, and the browser screens that read `content[0].text`
 * after checking only `content`.
 */
module Responses {
  import opened Wrappers
  import opened Js
  import opened Spira
  import opened CommonModule
  import Constants

  /** `JSON.parse(response.content)`: an absent content is parsed as the text `undefined`, which is not JSON. */
  function ParseContent(r: RestResponse, parse: string -> Option<Json>): (body: Option<Json>)
    ensures r.content.None? ==> body.None?
  {
    if r.content.None? then None else parse(r.content.value)
  }

  /** `JSON.parse('')` throws, as it does for every text that is not JSON. */
  predicate RejectsEmpty(parse: string -> Option<Json>)
  {
    parse("") == None
  }

  /**
   * The module test-case, requirement and task screens: no status check;
   * the content is parsed at once, and anything short of a non-empty
   * `content[0].text` shows `INVALID_CONTENT`.
   */
  function LooseVerdict(response: Option<RestResponse>, parse: string -> Option<Json>): (v: Verdict)
  {
    match response
    case None => Reject(Constants.NO_RESPONSE)
    case Some(r) =>
      var body := ParseContent(r, parse);
      if body.None? || EnvelopeText(body.value).None? then Reject(Constants.INVALID_CONTENT)
      else Accept(EnvelopeText(body.value).value, UsageTokens(body.value))
  }

  /** On a 200 response the loose reading decides as the shared handler does. */
  lemma LooseAgreesOn200(response: Option<RestResponse>, parse: string -> Option<Json>)
    requires RejectsEmpty(parse)
    requires response.Some? ==> response.value.statusCode == 200
    ensures LooseVerdict(response, parse) == ApiVerdict(response, None, parse)
  {
  }

  /** The loose reading ignores the status: an error status with a well-formed body is still accepted. */
  lemma LooseIgnoresStatus(r: RestResponse, code: int, parse: string -> Option<Json>)
    ensures LooseVerdict(Some(r), parse) == LooseVerdict(Some(r.(statusCode := code)), parse)
    ensures LooseVerdict(Some(r), parse).Accept? <==>
      (ParseContent(r, parse).Some? && EnvelopeText(ParseContent(r, parse).value).Some?)
  {
  }

  /** A response that passes the loose reading but has an error status is refused by the shared handler. */
  lemma LooseAcceptsErrorStatus(r: RestResponse, parse: string -> Option<Json>)
    requires r.statusCode != 200 && LooseVerdict(Some(r), parse).Accept?
    ensures ApiVerdict(Some(r), None, parse) == Reject(StatusMessage(r, parse))
  {
  }

  /** What a browser screen makes of a response: an error to show, or the value of `content[0].text`. */
  datatype PageVerdict = Refused(message: string) | Generated(text: Value)

  /**
   * `content.content[0].text` after the check `!content.content`: `None`
   * when the check fails or the read throws (both show `INVALID_CONTENT`);
   * otherwise the value read, which may be falsy.
   */
  function PageText(c: Json): (t: Option<Value>)
    ensures EnvelopeText(c).Some? ==> t == Some(EnvelopeText(c))
  {
    var outer := Get(Some(c), "content");
    if outer.Throws? || !Truthy(outer.v) then None
    else
      var first := First(outer.v);
      var text := Get(first.v, "text");
      if text.Throws? then None else Some(text.v)
  }

  /**
   * The response handlers of the browser screens: the null check, the
   * status check with the shared status message, the content check
   * (which the draft task screen leaves out) and the parse.
   */
  function PageVerdictOf(response: Option<RestResponse>, parse: string -> Option<Json>, checkContent: bool): (v: PageVerdict)
  {
    match response
    case None => Refused(Constants.NO_RESPONSE)
    case Some(r) =>
      if r.statusCode != 200 then Refused(StatusMessage(r, parse))
      else if checkContent && !HasContent(r) then Refused(Constants.INVALID_CONTENT)
      else
        var body := ParseContent(r, parse);
        if body.None? || PageText(body.value).None? then Refused(Constants.INVALID_CONTENT)
        else Generated(PageText(body.value).value)
  }

  /**
   * A browser screen goes on with a truthy text exactly when the shared
   * handler accepts, and with the same text; every refusal shows the
   * message the shared handler shows.
   */
  lemma PageAgreesWithShared(response: Option<RestResponse>, parse: string -> Option<Json>)
    ensures var p, a := PageVerdictOf(response, parse, true), ApiVerdict(response, None, parse);
      && (a.Accept? <==> p.Generated? && Truthy(p.text))
      && (a.Accept? ==> p.text == Some(a.text))
      && (p.Refused? ==> a == Reject(p.message))
      && (p.Generated? && !Truthy(p.text) ==> a == Reject(Constants.INVALID_CONTENT))
  {
    var p, a := PageVerdictOf(response, parse, true), ApiVerdict(response, None, parse);
    if response.Some? && response.value.statusCode == 200 && HasContent(response.value) {
      var body := ParseContent(response.value, parse);
      if body.Some? && PageText(body.value).Some? && !Truthy(PageText(body.value).value) {
        PageTextFalsy(body.value);
      }
    }
  }

  /** A text that is read but falsy is one the shared envelope check refuses. */
  lemma PageTextFalsy(c: Json)
    requires PageText(c).Some? && !Truthy(PageText(c).value)
    ensures EnvelopeText(c).None?
  {
  }

  /** Leaving out the content check changes nothing, since an empty or absent content does not parse. */
  lemma ContentCheckRedundant(response: Option<RestResponse>, parse: string -> Option<Json>)
    requires RejectsEmpty(parse)
    ensures PageVerdictOf(response, parse, false) == PageVerdictOf(response, parse, true)
  {
  }
}
