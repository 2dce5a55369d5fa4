/**
 * The lenient reading of a generated `{ "Filename": ..., "Code": ... }`
 * object that the draft task screen falls back to when `JSON.parse`
 * fails: the file name is the first capture of
 * `/"Filename"\s*:\s*"([^"]+)"/`, the code is everything after the first
 * `"Code": "` less one closing `"}`, unescaped in three fixed passes.
 */
module Extractor {
  import opened Wrappers
  import opened Text

  const FILENAME_KEY := "\"Filename\""
  const CODE_MARKER := "\"Code\": \""
  const CLOSING := "\"}"

  predicate EndsWith(s: string, t: string)
  {
    |t| <= |s| && s[|s| - |t|..] == t
  }

  /** The length of the leading run of characters other than `"`. */
  function Unquoted(s: string): (n: nat)
    ensures n <= |s|
    ensures forall i :: 0 <= i < n ==> s[i] != '"'
    ensures n < |s| ==> s[n] == '"'
  {
    if s == [] || s[0] == '"' then 0
    else
      var k := Unquoted(s[1..]);
      assert forall i :: 1 <= i < k + 1 ==> s[i] == s[1..][i - 1];
      1 + k
  }

  /** `"([^"]+)"` at the start of `b`: the run up to the closing quote, which must be there. */
  function QuotedRun(b: string): (f: Option<string>)
    ensures f.Some? ==> f.value != "" && '"' !in f.value
  {
    if b == [] || b[0] != '"' then None
    else
      var c := b[1..];
      var n := Unquoted(c);
      if n == 0 || n == |c| then None else Some(c[..n])
  }

  /** `\s*:\s*"([^"]+)"` at the start of `t`. */
  function AfterKey(t: string): (f: Option<string>)
    ensures f.Some? ==> f.value != "" && '"' !in f.value
  {
    var a := TrimStart(t);
    if a == [] || a[0] != ':' then None else QuotedRun(TrimStart(a[1..]))
  }

  /**
   * The regex matched at the start of `s`. `\s` matches exactly the
   * characters `trim` removes, so each `\s*` is a `TrimStart`; `[^"]+`
   * followed by `"` can only take the whole run up to the next quote.
   */
  function FilenameAt(s: string): (f: Option<string>)
    ensures f.Some? ==> f.value != "" && '"' !in f.value
  {
    if FILENAME_KEY <= s then AfterKey(s[|FILENAME_KEY|..]) else None
  }

  /** `regex.exec(s)`: the capture of the leftmost match, or `null` (`None`). */
  function FindFilename(s: string): (f: Option<string>)
    ensures f.Some? ==> f.value != "" && '"' !in f.value
    decreases |s|
  {
    if FilenameAt(s).Some? then FilenameAt(s)
    else if s == [] then None
    else FindFilename(s[1..])
  }

  /** What follows the first `"Code": "`, with one closing `"}` cut off; `None` when there is no marker. */
  function CodeSection(json: string): (r: Option<string>)
    ensures r.None? <==> !Contains(json, CODE_MARKER)
  {
    match IndexOf(json, CODE_MARKER)
    case None => None
    case Some(k) =>
      assert OccursAt(json, CODE_MARKER, k);
      var section := json[k + |CODE_MARKER|..];
      Some(if EndsWith(section, CLOSING) then section[..|section| - |CLOSING|] else section)
  }

  /** The three global replacements, in source order: `\"` to `"`, then `\n` to a newline, then `\\` to `\`. */
  function Unescape(x: string): string
  {
    ReplaceAll(ReplaceAll(ReplaceAll(x, "\\\"", "\""), "\\n", "\n"), "\\\\", "\\")
  }

  function ExtractCode(json: string): (r: Option<string>)
    ensures r.Some? <==> Contains(json, CODE_MARKER)
  {
    match CodeSection(json)
    case None => None
    case Some(section) => Some(Unescape(section))
  }

  datatype Extracted = Extracted(filename: string, code: string)

  /** The fallback succeeds only with a non-empty file name and non-empty code. */
  function Lenient(json: string): (r: Option<Extracted>)
    ensures r.Some? <==> FindFilename(json).Some? && ExtractCode(json).Some? && ExtractCode(json).value != ""
    ensures r.Some? ==> r.value == Extracted(FindFilename(json).value, ExtractCode(json).value)
  {
    var f, c := FindFilename(json), ExtractCode(json);
    if f.Some? && c.Some? && c.value != "" then Some(Extracted(f.value, c.value)) else None
  }

  // The file name

  /** Text before the first quote cannot hold a match, so the search passes over it. */
  lemma {:induction false} FindSkips(pre: string, t: string)
    requires '"' !in pre
    ensures FindFilename(pre + t) == FindFilename(t)
    decreases |pre|
  {
    if pre != [] {
      var s := pre + t;
      assert s[0] == pre[0] && FILENAME_KEY[0] == '"';
      assert !(FILENAME_KEY <= s);
      assert s[1..] == pre[1..] + t;
      FindSkips(pre[1..], t);
    } else {
      assert pre + t == t;
    }
  }

  lemma UnquotedRun(f: string, rest: string)
    requires '"' !in f
    ensures Unquoted(f + ("\"" + rest)) == |f|
  {
    var s := f + ("\"" + rest);
    assert s[|f|] == '"';
    assert forall i :: 0 <= i < |f| ==> s[i] == f[i];
  }

  lemma QuotedRunOf(f: string, rest: string)
    requires f != "" && '"' !in f
    ensures QuotedRun("\"" + (f + ("\"" + rest))) == Some(f)
  {
    var b := "\"" + (f + ("\"" + rest));
    assert b[1..] == f + ("\"" + rest);
    UnquotedRun(f, rest);
    assert (f + ("\"" + rest))[..|f|] == f;
  }

  /** A file name written as `"Filename"`, white space, `:`, white space, and a quoted name is found. */
  lemma AfterKeyOf(gap1: string, gap2: string, f: string, rest: string)
    requires Spaces(gap1) && Spaces(gap2) && f != "" && '"' !in f
    ensures AfterKey(gap1 + (":" + (gap2 + ("\"" + (f + ("\"" + rest)))))) == Some(f)
  {
    var tail := "\"" + (f + ("\"" + rest));
    assert tail[0] == '"';
    AfterColon(gap1, gap2, tail);
    QuotedRunOf(f, rest);
  }

  /** White space, `:` and white space are skipped up to the opening quote. */
  lemma AfterColon(gap1: string, gap2: string, tail: string)
    requires Spaces(gap1) && Spaces(gap2) && tail != [] && tail[0] == '"'
    ensures AfterKey(gap1 + (":" + (gap2 + tail))) == QuotedRun(tail)
  {
    var colon := ":" + (gap2 + tail);
    assert colon[0] == ':' && !IsSpace(':');
    TrimStartPaddedLoose(gap1, colon);
    assert colon[1..] == gap2 + tail;
    assert !IsSpace('"');
    TrimStartPaddedLoose(gap2, tail);
  }

  lemma FilenameAtKey(t: string)
    ensures FilenameAt(FILENAME_KEY + t) == AfterKey(t)
  {
    assert (FILENAME_KEY + t)[|FILENAME_KEY|..] == t;
  }

  /** The first such field after quote-free text is the one found. */
  lemma FilenameFound(pre: string, gap1: string, gap2: string, f: string, rest: string)
    requires '"' !in pre && Spaces(gap1) && Spaces(gap2) && f != "" && '"' !in f
    ensures FindFilename(pre + (FILENAME_KEY + (gap1 + (":" + (gap2 + ("\"" + (f + ("\"" + rest)))))))) == Some(f)
  {
    var t := gap1 + (":" + (gap2 + ("\"" + (f + ("\"" + rest)))));
    FindSkips(pre, FILENAME_KEY + t);
    FilenameAtKey(t);
    AfterKeyOf(gap1, gap2, f, rest);
  }

  // The code

  /** An occurrence that ends inside a prefix is an occurrence in the prefix. */
  lemma OccursInPrefix(t: string, u: string, p: string, k: int)
    requires OccursAt(t + u, p, k) && k + |p| <= |t|
    ensures OccursAt(t, p, k)
  {
    assert (t + u)[k..k + |p|] == t[k..k + |p|];
  }

  /** With no marker starting before it, the first marker is the one that opens the code. */
  lemma MarkerFirst(pre: string, x: string)
    requires forall k :: 0 <= k < |pre| ==> !OccursAt(pre + CODE_MARKER, CODE_MARKER, k)
    ensures IndexOf(pre + (CODE_MARKER + x), CODE_MARKER) == Some(|pre|)
  {
    var t := pre + CODE_MARKER;
    var s := pre + (CODE_MARKER + x);
    assert s == t + x;
    assert s[|pre|..|pre| + |CODE_MARKER|] == CODE_MARKER;
    assert OccursAt(s, CODE_MARKER, |pre|);
    forall k | 0 <= k < |pre| ensures !OccursAt(s, CODE_MARKER, k) {
      if OccursAt(s, CODE_MARKER, k) {
        OccursInPrefix(t, x, CODE_MARKER, k);
      }
    }
    var r := IndexOf(s, CODE_MARKER);
    assert r.Some?;
    assert !(r.value < |pre|);
  }

  /** The section is exactly what lies between the first marker and the closing `"}`. */
  lemma SectionBetween(pre: string, x: string)
    requires forall k :: 0 <= k < |pre| ==> !OccursAt(pre + CODE_MARKER, CODE_MARKER, k)
    ensures CodeSection(pre + (CODE_MARKER + (x + CLOSING))) == Some(x)
  {
    var s := pre + (CODE_MARKER + (x + CLOSING));
    MarkerFirst(pre, x + CLOSING);
    assert s[|pre| + |CODE_MARKER|..] == x + CLOSING;
    assert (x + CLOSING)[|x + CLOSING| - |CLOSING|..] == CLOSING;
    assert (x + CLOSING)[..|x|] == x;
  }

  /** Text without a backslash passes through the three replacements unchanged. */
  lemma UnescapePlain(x: string)
    requires '\\' !in x
    ensures Unescape(x) == x
  {
    assert x + "" == x;
    ReplaceAllSkip(x, "\\\"", "\"", "");
    ReplaceAllSkip(x, "\\n", "\n", "");
    ReplaceAllSkip(x, "\\\\", "\\", "");
  }

  /**
   * Code written raw, with bare quotes and real line breaks, is taken
   * verbatim when it holds no backslash: that is what the fallback is for.
   */
  lemma RawCodeKept(pre: string, x: string)
    requires forall k :: 0 <= k < |pre| ==> !OccursAt(pre + CODE_MARKER, CODE_MARKER, k)
    requires '\\' !in x
    ensures ExtractCode(pre + (CODE_MARKER + (x + CLOSING))) == Some(x)
  {
    SectionBetween(pre, x);
    UnescapePlain(x);
  }

  // Unescaping what a JSON writer escaped

  /** How `JSON.stringify` writes a quote, a line feed and a backslash inside a string. */
  function EscapeChar(c: char): string
  {
    if c == '"' then "\\\"" else if c == '\n' then "\\n" else if c == '\\' then "\\\\" else [c]
  }

  function Escape(s: string): string
  {
    if s == [] then "" else EscapeChar(s[0]) + Escape(s[1..])
  }

  /** After the first pass: quotes restored, line feeds still escaped. */
  function QuotesRestored(s: string): string
  {
    if s == [] then "" else (if s[0] == '\n' then "\\n" else [s[0]]) + QuotesRestored(s[1..])
  }

  lemma {:induction false} FirstPass(s: string)
    requires '\\' !in s
    ensures ReplaceAll(Escape(s), "\\\"", "\"") == QuotesRestored(s)
  {
    if s != [] {
      var c, e := s[0], Escape(s[1..]);
      assert Escape(s) == EscapeChar(c) + e;
      FirstPass(s[1..]);
      if c == '"' {
        ReplaceAllHit("\\\"", "\"", e);
      } else if c == '\n' {
        EscapedNewlineKept(e);
      } else {
        assert ([c] + e)[0] == c;
        ReplaceAllMiss(c, "\\\"", "\"", e);
      }
    }
  }

  /** The first pass keeps an escaped line feed. */
  lemma EscapedNewlineKept(e: string)
    ensures ReplaceAll("\\n" + e, "\\\"", "\"") == "\\n" + ReplaceAll(e, "\\\"", "\"")
  {
    assert "\\n" + e == ['\\'] + (['n'] + e);
    assert (['\\'] + (['n'] + e))[1] == 'n';
    ReplaceAllMiss('\\', "\\\"", "\"", ['n'] + e);
    ReplaceAllMiss('n', "\\\"", "\"", e);
    assert ['\\'] + (['n'] + (ReplaceAll(e, "\\\"", "\""))) == "\\n" + ReplaceAll(e, "\\\"", "\"");
  }

  lemma {:induction false} SecondPass(s: string)
    requires '\\' !in s
    ensures ReplaceAll(QuotesRestored(s), "\\n", "\n") == s
  {
    if s != [] {
      var c, q := s[0], QuotesRestored(s[1..]);
      SecondPass(s[1..]);
      if c == '\n' {
        ReplaceAllHit("\\n", "\n", q);
      } else {
        assert ([c] + q)[0] == c;
        ReplaceAllMiss(c, "\\n", "\n", q);
      }
      assert s == [c] + s[1..];
    }
  }

  /** Code without a backslash, escaped by a JSON writer, is unescaped back to itself. */
  lemma UnescapeEscaped(s: string)
    requires '\\' !in s
    ensures Unescape(Escape(s)) == s
  {
    var quoted := ReplaceAll(Escape(s), "\\\"", "\"");
    FirstPass(s);
    assert quoted == QuotesRestored(s);
    var lines := ReplaceAll(quoted, "\\n", "\n");
    SecondPass(s);
    assert lines == s;
    LastPassPlain(s);
  }

  /** The backslash pass leaves text without a backslash unchanged. */
  lemma LastPassPlain(s: string)
    requires '\\' !in s
    ensures ReplaceAll(s, "\\\\", "\\") == s
  {
    ReplaceAllSkip(s, "\\\\", "\\", "");
    assert s + "" == s;
  }

  /**
   * The passes run in a fixed order, so an escaped backslash followed by
   * `n` (the two characters `\n` in the code) comes back as a backslash and
   * a line break.
   */
  lemma UnescapeOrder()
    ensures Escape("\\n") == "\\\\n"
    ensures Unescape("\\\\n") == "\\\n"
    ensures Unescape(Escape("\\n")) != "\\n"
  {
    assert Escape("\\n") == "\\\\" + Escape("n");
    FirstPassKeepsEscapedBackslash();
    assert ReplaceAll("\\\\n", "\\n", "\n") == "\\\n" by {
      ReplaceAllMiss('\\', "\\n", "\n", "\\n");
      assert "\\\\n" == ['\\'] + "\\n";
      ReplaceAllHit("\\n", "\n", "");
    }
    assert ReplaceAll("\\\n", "\\\\", "\\") == "\\\n" by {
      ReplaceAllMiss('\\', "\\\\", "\\", "\n");
      assert "\\\n" == ['\\'] + "\n";
      ReplaceAllMiss('\n', "\\\\", "\\", "");
    }
  }

  lemma FirstPassKeepsEscapedBackslash()
    ensures ReplaceAll("\\\\n", "\\\"", "\"") == "\\\\n"
  {
    assert "\\\\n" == ['\\'] + "\\n";
    assert (['\\'] + "\\n")[1] == '\\';
    ReplaceAllMiss('\\', "\\\"", "\"", "\\n");
    ReplaceAllMiss('\\', "\\\"", "\"", "n");
    assert "\\n" == ['\\'] + "n";
    ReplaceAllMiss('n', "\\\"", "\"", "");
  }

  // The whole object

  /** The object head up to the code marker, as a JSON writer lays it out. */
  function ObjectHead(f: string): string
  {
    "{" + (FILENAME_KEY + (": \"" + (f + "\", ")))
  }

  /** The object `{"Filename": "f", "Code": "..."}` with the code escaped. */
  function ObjectText(f: string, code: string): string
  {
    ObjectHead(f) + (CODE_MARKER + (Escape(code) + CLOSING))
  }

  /** The head holds no code marker when the file name has no colon. */
  lemma HeadHasNoMarker(f: string)
    requires ':' !in f
    ensures var pre := ObjectHead(f);
      forall k :: 0 <= k < |pre| ==> !OccursAt(pre + CODE_MARKER, CODE_MARKER, k)
  {
    var pre := ObjectHead(f);
    var s := pre + CODE_MARKER;
    var p1 := "{" + (FILENAME_KEY + ": \"");
    var p2 := "\", ";
    assert |p1| == 14 && p1[5] == 'e' && p1[11] == ':' && ':' !in p1[..11] && ':' !in p1[12..];
    assert ':' !in p2 && ':' !in CODE_MARKER[..6];
    assert pre == p1 + (f + p2);
    assert CODE_MARKER[0] == '"' && CODE_MARKER[6] == ':';
    forall k | 0 <= k < |pre| ensures !OccursAt(s, CODE_MARKER, k) {
      if k + 9 <= |s| {
        var w := s[k..k + 9];
        var q := k + 6;
        assert w[6] == s[q];
        if q < 14 {
          assert s[q] == p1[q];
          if q == 11 {
            assert w[0] == s[5] == p1[5];
          } else if q < 11 {
            assert p1[q] == p1[..11][q];
          } else {
            assert p1[q] == p1[12..][q - 12];
          }
        } else if q < 14 + |f| {
          assert s[q] == f[q - 14];
        } else if q < |pre| {
          assert s[q] == p2[q - 14 - |f|];
        } else {
          assert s[q] == CODE_MARKER[..6][q - |pre|];
        }
      }
    }
  }

  /** The head written as the file name field the regex looks for. */
  lemma HeadIsField(f: string, rest: string)
    ensures ObjectHead(f) + rest == "{" + (FILENAME_KEY + ("" + (":" + (" " + ("\"" + (f + ("\"" + (", " + rest))))))))
  {
    assert ": \"" == ":" + (" " + "\"");
    assert "\", " == "\"" + ", ";
  }

  /**
   * The fallback reads a well-formed object back: a quote-free, colon-free
   * file name and code without a backslash come out as written.
   */
  lemma LenientRoundTrip(f: string, code: string)
    requires f != "" && '"' !in f && ':' !in f && code != "" && '\\' !in code
    ensures Lenient(ObjectText(f, code)) == Some(Extracted(f, code))
  {
    var tail := CODE_MARKER + (Escape(code) + CLOSING);
    HeadHasNoMarker(f);
    SectionBetween(ObjectHead(f), Escape(code));
    UnescapeEscaped(code);
    HeadIsField(f, tail);
    FilenameFound("{", "", " ", f, ", " + tail);
  }
}
