/**
 * Removal of markdown code fences by one global regular-expression replace,
 * in the two regexes the extension uses:
 *   - `Tagged`:  /```(?:json)?\n?|```/g (module copy): a fence is three
 *     backticks, then an optional `json`, then an optional newline;
 *   - `JsonOnly`: /```json\n?|```/g (browser copies): `json` and the newline
 *     are only taken together with the tag; a bare fence is just the three
 *     backticks.
 * A global replace scans left to right; where a match starts it is deleted
 * and the scan resumes after it, otherwise one character is kept.
 */
module Fences {
  import opened Text

  datatype Dialect = Tagged | JsonOnly

  const TICKS := "```"

  function NewlineLen(s: string): nat
  {
    if |s| > 0 && s[0] == '\n' then 1 else 0
  }

  /** The length of the fence match that starts at the front of `s`, or 0 when none does. */
  function FenceLen(s: string, d: Dialect): (k: nat)
    ensures k > 0 ==> 3 <= k <= |s| && s[..3] == TICKS
    ensures k == 0 <==> !(TICKS <= s)
  {
    if !(TICKS <= s) then 0
    else if "json" <= s[3..] then 7 + NewlineLen(s[7..])
    else match d
      case Tagged => 3 + NewlineLen(s[3..])
      case JsonOnly => 3
  }

  function Strip(s: string, d: Dialect): string
    decreases |s|
  {
    var k := FenceLen(s, d);
    if k > 0 then Strip(s[k..], d)
    else if s == [] then []
    else [s[0]] + Strip(s[1..], d)
  }

  /** A character other than a backtick is kept, and so is the first character of what starts with it. */
  lemma KeepsHead(s: string, d: Dialect)
    requires |s| > 0 && s[0] != '`'
    ensures Strip(s, d) == [s[0]] + Strip(s[1..], d)
  {
  }

  /** Text without backticks passes through unchanged in front of whatever follows. */
  lemma {:induction false} StripPlain(x: string, y: string, d: Dialect)
    requires '`' !in x
    ensures Strip(x + y, d) == x + Strip(y, d)
    decreases |x|
  {
    if |x| > 0 {
      var s := x + y;
      assert s[0] == x[0];
      assert s[1..] == x[1..] + y;
      KeepsHead(s, d);
      StripPlain(x[1..], y, d);
      assert x == [x[0]] + x[1..];
    } else {
      assert x + y == y;
    }
  }

  /** The output never contains three backticks in a row: wherever they stood in the input, a match started there. */
  lemma {:induction false} NoTicksLeft(s: string, d: Dialect)
    ensures !Contains(Strip(s, d), TICKS)
    decreases |s|
  {
    var k := FenceLen(s, d);
    if k > 0 {
      NoTicksLeft(s[k..], d);
    } else if s != [] {
      var rest := Strip(s[1..], d);
      var out := [s[0]] + rest;
      assert Strip(s, d) == out;
      NoTicksLeft(s[1..], d);
      assert !OccursAt(out, TICKS, 0) by {
        if s[0] == '`' && |s| >= 2 {
          if s[1] != '`' {
            KeepsHead(s[1..], d);
            assert out[1] == s[1];
          } else if |s| == 2 {
            assert s[1..] == "`";
            assert FenceLen(s[1..], d) == 0;
            assert Strip(s[1..][1..], d) == [];
            assert rest == "`";
          } else {
            assert s[2] != '`' by { assert !(TICKS <= s); assert s[..3] != TICKS; }
            var t := s[1..];
            assert FenceLen(t, d) == 0 by { assert t[1] == s[2]; }
            assert rest == [t[0]] + Strip(t[1..], d);
            KeepsHead(t[1..], d);
            assert out[2] == s[2];
          }
        }
      }
      forall i | 1 <= i <= |out| - 3 ensures !OccursAt(out, TICKS, i) {
        assert out[i..i + 3] == rest[i - 1..i + 2];
        assert !OccursAt(rest, TICKS, i - 1);
      }
    }
  }

  /** Fence-free text is returned unchanged. */
  lemma {:induction false} StripAbsent(s: string, d: Dialect)
    requires !Contains(s, TICKS)
    ensures Strip(s, d) == s
    decreases |s|
  {
    if s != [] {
      assert !OccursAt(s, TICKS, 0);
      assert FenceLen(s, d) == 0;
      assert !Contains(s[1..], TICKS) by {
        forall i | 0 <= i <= |s| - 4 ensures !OccursAt(s[1..], TICKS, i) {
          assert s[1..][i..i + 3] == s[i + 1..i + 4];
          assert !OccursAt(s, TICKS, i + 1);
        }
      }
      StripAbsent(s[1..], d);
    }
  }

  /** Because the replace is global, stripping twice is stripping once. */
  lemma StripIdempotent(s: string, d: Dialect)
    ensures Strip(Strip(s, d), d) == Strip(s, d)
  {
    NoTicksLeft(s, d);
    StripAbsent(Strip(s, d), d);
  }

  /** A tagged opening fence goes with its newline in both dialects. */
  lemma TaggedFence(y: string, d: Dialect)
    ensures Strip("```json\n" + y, d) == Strip(y, d)
  {
    var s := "```json\n" + y;
    TaggedFenceLen(y, d);
    StripAfterFence(s, d);
    assert s[8..] == y;
  }

  lemma TaggedFenceLen(y: string, d: Dialect)
    ensures FenceLen("```json\n" + y, d) == 8
  {
    var s, rest := "```json\n" + y, "\n" + y;
    assert s == TICKS + ("json" + rest);
    assert s[..3] == TICKS && s[3..] == "json" + rest;
    assert ("json" + rest)[..4] == "json";
    assert s[7..] == rest && rest[0] == '\n';
  }

  /** A match at the front is deleted and the scan goes on after it. */
  lemma StripAfterFence(s: string, d: Dialect)
    requires FenceLen(s, d) > 0
    ensures Strip(s, d) == Strip(s[FenceLen(s, d)..], d)
  {
  }

  /** A bare fence followed by a newline: the module regex deletes the newline too, the browser regex keeps it. */
  lemma BareFenceNewline(y: string)
    ensures Strip("```\n" + y, Tagged) == Strip(y, Tagged)
    ensures Strip("```\n" + y, JsonOnly) == "\n" + Strip(y, JsonOnly)
  {
    var s := "```\n" + y;
    assert s[..3] == TICKS && s[3..][0] == '\n' && !("json" <= s[3..]);
    assert s[4..] == y;
    assert s[3..] == "\n" + y;
    StripPlain("\n", y, JsonOnly);
  }

  /** A bare fence at the very end of the text. */
  lemma ClosingFence(d: Dialect)
    ensures Strip(TICKS, d) == ""
  {
    assert TICKS[3..] == "";
  }

  /** A bare fence followed by text that is neither `json` nor a newline goes alone in both dialects. */
  lemma BareFence(y: string, d: Dialect)
    requires !("json" <= y) && (y == [] || y[0] != '\n')
    ensures Strip(TICKS + y, d) == Strip(y, d)
  {
    var s := TICKS + y;
    assert s[..3] == TICKS && s[3..] == y;
  }
}
