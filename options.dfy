/**
 * The option lists of the task screens' language dialogs, and the reading
 * of a chosen `language tested with framework` option back into its two
 * parts.
 */
module Options {
  import opened Wrappers
  import opened Text

  const TESTED_WITH := "tested with"
  const TESTED_WITH_SPACED := " tested with "

  /** `list.split(/,/)`, each entry trimmed when `trim` is set. */
  function LanguageOptions(list: string, trim: bool): (options: seq<string>)
    ensures |options| == |Split(list, ",")|
  {
    var entries := Split(list, ",");
    seq(|entries|, i requires 0 <= i < |entries| => if trim then Trim(entries[i]) else entries[i])
  }

  /** `entry.replace('|', ' tested with ')`: only the first bar is replaced. */
  function FrameworkOption(entry: string): string
  {
    ReplaceFirst(entry, "|", TESTED_WITH_SPACED)
  }

  /** `list.split(/,/).map(...)`: each entry with its first bar spelled out, then trimmed when `trim` is set. */
  function FrameworkOptions(list: string, trim: bool): (options: seq<string>)
    ensures |options| == |Split(list, ",")|
  {
    var entries := Split(list, ",");
    seq(|entries|, i requires 0 <= i < |entries| =>
      if trim then Trim(FrameworkOption(entries[i])) else FrameworkOption(entries[i]))
  }

  /** Untrimmed, the dialog lists the entries exactly: joined back with commas they give the list. */
  lemma UntrimmedOptionsJoin(list: string)
    ensures JoinWith(LanguageOptions(list, false), ",") == list
    ensures forall i :: 0 <= i < |LanguageOptions(list, false)| ==> !Contains(LanguageOptions(list, false)[i], ",")
  {
    assert LanguageOptions(list, false) == Split(list, ",");
    SplitJoin(list, ",");
    SplitPartsFree(list, ",");
  }

  /** A language and a framework read out of a chosen option. */
  datatype Choice = Choice(language: string, framework: string)

  /**
   * `selected.split('tested with')`: fewer than two parts, or a first or
   * second part that is blank once trimmed, is refused; otherwise the two
   * trimmed parts (anything after a second `tested with` is dropped).
   */
  function ParseChoice(selected: string): (c: Option<Choice>)
    ensures c.Some? ==> c.value.language != "" && c.value.framework != ""
    ensures c.Some? ==> Trim(c.value.language) == c.value.language && Trim(c.value.framework) == c.value.framework
  {
    var items := Split(selected, TESTED_WITH);
    if |items| < 2 then None
    else
      var language, framework := Trim(items[0]), Trim(items[1]);
      TrimIdempotent(items[0]);
      TrimIdempotent(items[1]);
      if language == "" || framework == "" then None else Some(Choice(language, framework))
  }

  /** A selection without `tested with` is refused. */
  lemma ChoiceNeedsSeparator(selected: string)
    requires !Contains(selected, TESTED_WITH)
    ensures ParseChoice(selected) == None
  {
  }

  /** The separator has one space, at index 6, and continues with `with`. */
  lemma SeparatorShape()
    ensures |TESTED_WITH| == 11 && TESTED_WITH[0] == 't' && TESTED_WITH[6] == ' ' && TESTED_WITH[7] == 'w'
    ensures forall j :: 0 <= j < 11 && j != 6 ==> TESTED_WITH[j] != ' '
    ensures TESTED_WITH_SPACED == " " + TESTED_WITH + " "
  {
  }

  /**
   * In `head + " tested with " + tail`, where `head` is padding and then
   * a trimmed language free of the separator, the first separator is the
   * spelled-out bar.
   */
  lemma FirstSeparator(pre: string, language: string, tail: string)
    requires Spaces(pre) && Trimmed(language) && !Contains(language, TESTED_WITH)
    ensures var head := pre + language + " ";
      IndexOf(head + TESTED_WITH + tail, TESTED_WITH) == Some(|head|)
  {
    SeparatorShape();
    var head := pre + language + " ";
    var s := head + TESTED_WITH + tail;
    var p := |pre| + |language|;
    assert s[p] == ' ' && s[p + 1] == 't';
    assert OccursAt(s, TESTED_WITH, |head|) by {
      assert s[|head|..|head| + 11] == TESTED_WITH;
    }
    forall k | 0 <= k < |head| ensures !OccursAt(s, TESTED_WITH, k) {
      if k + 11 <= |s| {
        var w := s[k..k + 11];
        if k < |pre| {
          assert w[0] == pre[k];
        } else if k + 11 <= p {
          assert w == language[k - |pre|..k - |pre| + 11];
          assert !OccursAt(language, TESTED_WITH, k - |pre|);
        } else if p - k == 6 {
          assert w[7] == s[p + 1];
        } else {
          assert w[p - k] == s[p];
        }
      }
    }
    assert IndexOf(s, TESTED_WITH).Some?;
  }

  /** A framework free of the separator, after a space, holds no separator. */
  lemma NoLaterSeparator(framework: string)
    requires !Contains(framework, TESTED_WITH)
    ensures !Contains(" " + framework, TESTED_WITH)
  {
    SeparatorShape();
    var s := " " + framework;
    forall k | 0 <= k <= |s| - 11 ensures !OccursAt(s, TESTED_WITH, k) {
      if k > 0 {
        assert s[k..k + 11] == framework[k - 1..k - 1 + 11];
        assert !OccursAt(framework, TESTED_WITH, k - 1);
      }
    }
  }

  /**
   * A chosen option `language tested with framework`, with any white space
   * before it, is read back as the pair it was made from.
   */
  lemma ChoiceRoundTrip(pre: string, language: string, framework: string)
    requires Spaces(pre) && Trimmed(language) && Trimmed(framework)
    requires !Contains(language, TESTED_WITH) && !Contains(framework, TESTED_WITH)
    ensures ParseChoice(pre + language + TESTED_WITH_SPACED + framework) == Some(Choice(language, framework))
  {
    SeparatorShape();
    var head := pre + language + " ";
    var rest := " " + framework;
    var s := pre + language + TESTED_WITH_SPACED + framework;
    assert s == head + TESTED_WITH + rest;
    FirstSeparator(pre, language, rest);
    assert s[..|head|] == head;
    assert s[|head| + 11..] == rest;
    NoLaterSeparator(framework);
    assert Split(rest, TESTED_WITH) == [rest];
    assert Split(s, TESTED_WITH) == [head, rest];
    TrimPadded(pre, language, " ");
    TrimPadded(" ", framework, "");
    assert pre + language + " " == head;
    assert " " + framework + "" == rest;
  }

  /** The option made from an entry spells out its bar. */
  lemma EntryOption(head: string, framework: string)
    requires '|' !in head
    ensures FrameworkOption(head + "|" + framework) == head + TESTED_WITH_SPACED + framework
  {
    ReplaceFirstAfter(head, "|", framework, TESTED_WITH_SPACED);
  }

  /** Trimming a padded option leaves the option without its padding. */
  lemma {:induction false} TrimmedOption(pre: string, language: string, mid: string, framework: string)
    requires Spaces(pre) && Trimmed(language) && Trimmed(framework)
    ensures Trim(pre + language + mid + framework) == language + mid + framework
  {
    var body := language + mid + framework;
    assert Trimmed(body) by {
      assert body[0] == language[0];
      assert body[|body| - 1] == framework[|framework| - 1];
    }
    assert pre + language + mid + framework == pre + body;
    TrimStartPadded(pre, body);
    assert TrimEnd(body) == body;
  }

  /**
   * An entry `language|framework` of the list, with white space before it,
   * offered in the dialog untrimmed is read back as that language and
   * framework.
   */
  lemma EntryRoundTrip(pre: string, language: string, framework: string)
    requires Spaces(pre) && Trimmed(language) && Trimmed(framework) && '|' !in pre + language
    requires !Contains(language, TESTED_WITH) && !Contains(framework, TESTED_WITH)
    ensures ParseChoice(FrameworkOption(pre + language + "|" + framework)) == Some(Choice(language, framework))
  {
    EntryOption(pre + language, framework);
    ChoiceRoundTrip(pre, language, framework);
  }

  /** The option without padding is read back as its pair. */
  lemma UnpaddedChoiceRoundTrip(language: string, framework: string)
    requires Trimmed(language) && Trimmed(framework)
    requires !Contains(language, TESTED_WITH) && !Contains(framework, TESTED_WITH)
    ensures ParseChoice(language + TESTED_WITH_SPACED + framework) == Some(Choice(language, framework))
  {
    ChoiceRoundTrip("", language, framework);
    assert "" + language == language;
  }

  /** The same entry offered trimmed is read back as the same pair. */
  lemma TrimmedEntryRoundTrip(pre: string, language: string, framework: string)
    requires Spaces(pre) && Trimmed(language) && Trimmed(framework) && '|' !in pre + language
    requires !Contains(language, TESTED_WITH) && !Contains(framework, TESTED_WITH)
    ensures ParseChoice(Trim(FrameworkOption(pre + language + "|" + framework))) == Some(Choice(language, framework))
  {
    EntryOption(pre + language, framework);
    TrimmedOption(pre, language, TESTED_WITH_SPACED, framework);
    UnpaddedChoiceRoundTrip(language, framework);
  }
}
