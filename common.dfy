/**
 * The older shared helpers bundled with the browser screens (common.js):
 * a fence cleaner with the narrower regex and no guard against a missing
 * argument, the same regex-string slicing, and the same failure handler
 * with the messages table always present.
 */
module Common {
  import opened Wrappers
  import opened Js
  import opened Text
  import opened Fences
  import opened Spira
  import CommonModule
  import Constants

  /** `wrappedJson.replace(/```json\n?|```/g, '')`: anything but a string has no `replace` and throws. */
  function CleanJson(wrapped: Value): (r: Completion<string>)
    ensures r.Normal? <==> wrapped.Some? && wrapped.value.JStr?
    ensures r.Normal? ==> !Contains(r.value, TICKS)
  {
    match wrapped
    case Some(JStr(s)) =>
      NoTicksLeft(s, JsonOnly);
      Normal(Strip(s, JsonOnly))
    case _ => Threw
  }

  /** Cleaning what was cleaned changes nothing. */
  lemma CleanJsonIdempotent(w: Value)
    requires CleanJson(w).Normal?
    ensures CleanJson(Some(JStr(CleanJson(w).value))) == CleanJson(w)
  {
    StripAbsent(CleanJson(w).value, JsonOnly);
  }

  /** Where there is no argument the module copy returns "" and this one throws. */
  lemma MissingArgument()
    ensures CleanJson(None).Threw? && CleanJson(Some(JNull)).Threw?
    ensures CommonModule.CleanJson(None) == Normal("") && CommonModule.CleanJson(Some(JNull)) == Normal("")
  {
  }

  /** Both copies agree on a tagged block. */
  lemma TaggedBlockAgrees(x: string)
    requires '`' !in x
    ensures CleanJson(Some(JStr("```json\n" + x + "\n```"))) == Normal(x + "\n")
    ensures CommonModule.CleanJson(Some(JStr("```json\n" + x + "\n```"))) == Normal(x + "\n")
  {
    CommonModule.CleanJsonTaggedBlock(x);
    var s := "```json\n" + x + "\n```";
    calc {
      Strip(s, JsonOnly);
      == { assert s == "```json\n" + (x + "\n" + TICKS); TaggedFence(x + "\n" + TICKS, JsonOnly); }
      Strip(x + "\n" + TICKS, JsonOnly);
      == { StripPlain(x + "\n", TICKS, JsonOnly); }
      x + "\n" + Strip(TICKS, JsonOnly);
      == { ClosingFence(JsonOnly); }
      x + "\n";
    }
  }

  /** On an untagged block the copies differ: here the newline after the opening fence is kept. */
  lemma BareBlockKeepsNewline(x: string)
    requires '`' !in x
    ensures CleanJson(Some(JStr("```\n" + x + "\n```"))) == Normal("\n" + x + "\n")
    ensures CommonModule.CleanJson(Some(JStr("```\n" + x + "\n```"))) == Normal(x + "\n")
  {
    CommonModule.CleanJsonBareBlock(x);
    var s := "```\n" + x + "\n```";
    calc {
      Strip(s, JsonOnly);
      == { assert s == "```\n" + (x + "\n" + TICKS); BareFenceNewline(x + "\n" + TICKS); }
      "\n" + Strip(x + "\n" + TICKS, JsonOnly);
      == { StripPlain(x + "\n", TICKS, JsonOnly); }
      "\n" + (x + "\n" + Strip(TICKS, JsonOnly));
      == { ClosingFence(JsonOnly); }
      "\n" + (x + "\n");
    }
    assert "\n" + (x + "\n") == "\n" + x + "\n";
  }

  /**
   * `claude_createRegexFromString` here is the module's slicing: the flags
   * are what follows the last slash, and the pattern what lies between the
   * first character and that slash.
   */
  lemma RegexSourceSplitsAtLastSlash(s: string)
    requires '/' in s
    ensures var r, k := CommonModule.RegexSource(s), |s| - |CommonModule.RegexSource(s).flags| - 1;
      && 0 <= k < |s| && s[k] == '/' && r.flags == s[k + 1..]
      && r.pattern == (if k >= 1 then s[1..k] else "")
  {
    var k := LastIndexOf(s, '/');
    var i :| 0 <= i < |s| && s[i] == '/';
    assert k >= i;
  }

  /**
   * `claude_operation_failure` here: for any response object, exactly one
   * message is shown, and it is the generic one exactly when the response
   * carries neither a host nor a completion-service error.
   */
  lemma OneFailureMessage(response: Value)
    requires response != None && response != Some(JNull)
    ensures CommonModule.FailureEvents(response, true)
      == [ShowError(CommonModule.FailureMessage(response, true).value)]
    ensures CommonModule.FailureMessage(response, true).value == Constants.UNKNOWN_ERROR
      <==> !(CommonModule.SpiraError(response) || CommonModule.ClaudeError(response))
  {
    CommonModule.FailureMessageClassified(response, true);
  }
}
