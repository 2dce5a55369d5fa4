/**
 * How the screens put their prompts together: the system prompt (the
 * global prompt, then the action's prompt), the user prompt (the
 * artifact's name, optionally with its description) and the code prompts
 * of the task screens, filled in from a template or concatenated.
 */
module Prompts {
  import opened Wrappers
  import opened Js
  import opened Text
  import opened Spira
  import opened Constants

  /** `global_prompt` when it is set, otherwise the built-in business-analyst prompt. */
  function BasePrompt(settings: Option<Settings>): string
  {
    SettingOr(settings, "global_prompt", GLOBAL_PROMPT)
  }

  /**
   * The base prompt, a separator and the action's prompt (its own setting
   * or its built-in text). The module screens separate with a space; the
   * browser screens put the space at the front of their built-in texts.
   */
  function SystemPrompt(settings: Option<Settings>, separator: string, key: string, default: string): string
  {
    BasePrompt(settings) + separator + SettingOr(settings, key, default)
  }

  /**
   * With the action's setting absent both spellings send the same prompt;
   * with it set the browser screens send it glued to the base prompt.
   */
  lemma SeparatorPlacement(settings: Option<Settings>, key: string, default: string)
    ensures !HasSetting(settings, key) ==>
      SystemPrompt(settings, " ", key, default) == SystemPrompt(settings, "", key, " " + default)
    ensures HasSetting(settings, key) ==>
      && SystemPrompt(settings, " ", key, default) == BasePrompt(settings) + " " + settings.value[key]
      && SystemPrompt(settings, "", key, " " + default) == BasePrompt(settings) + settings.value[key]
  {
    assert BasePrompt(settings) + "" == BasePrompt(settings);
  }

  /** The artifact's name, followed by `. ` and its description as plain text when descriptions are on. */
  function UserPrompt(name: Value, description: Value, withDescription: bool, plainText: Value -> string): (p: string)
    ensures ToString(name) <= p
    ensures withDescription <==> |p| > |ToString(name)|
  {
    if withDescription then ToString(name) + ". " + plainText(description) else ToString(name)
  }

  const DESCRIPTIONS := "artifact_descriptions"

  /**
   * The strict check (`=== 'True'`) and the truthiness check of the browser
   * requirement screen disagree on every other non-empty text: `False`
   * turns descriptions off for the one and on for the other.
   */
  lemma DescriptionChecks(settings: Option<Settings>)
    ensures SettingIsTrue(settings, DESCRIPTIONS) ==> HasSetting(settings, DESCRIPTIONS)
    ensures settings.Some? && DESCRIPTIONS in settings.value && settings.value[DESCRIPTIONS] == "False" ==>
      !SettingIsTrue(settings, DESCRIPTIONS) && HasSetting(settings, DESCRIPTIONS)
  {
  }

  // ---------------------------------------------------------------------
  // Code prompts

  /** `'' + v` for an optional text (the language or the framework): unset is the text `undefined`. */
  function TextOrUndefined(text: Option<string>): string
  {
    if text.Some? then text.value else "undefined"
  }

  /** A template filled in: every language placeholder, then every framework placeholder, when tests are asked for. */
  function Filled(template: string, testsTemplate: string, language: string, framework: Option<string>, withTests: bool): string
  {
    if withTests then ReplaceAll(ReplaceAll(testsTemplate, LANGUAGE_TAG, language), FRAMEWORK_TAG, TextOrUndefined(framework))
    else ReplaceAll(template, LANGUAGE_TAG, language)
  }

  /** The code prompt of the module task screen. */
  function ModuleCodePrompt(language: string, framework: Option<string>, withTests: bool): string
  {
    Filled(TASK_GENERATE_SOURCE_CODE, TASK_GENERATE_SOURCE_CODE_TESTS, language, framework, withTests)
  }

  /** The code prompt of the browser task screen. */
  function BrowserCodePrompt(language: string, framework: Option<string>, withTests: bool): string
  {
    Filled(BROWSER_TASK_GENERATE_SOURCE_CODE, BROWSER_TASK_GENERATE_SOURCE_CODE_TESTS, language, framework, withTests)
  }

  /** The code prompt of the draft task screen, concatenated from the language and the framework. */
  function DraftCodePrompt(language: string, framework: Option<string>, withTests: bool): string
  {
    if withTests then
      " " + (CODE_HEAD + (language + (TESTS_MID + (language + (TESTS_AND + (TextOrUndefined(framework) + (TESTS_FRAMEWORK + FORMAT_TAIL)))))))
    else " " + (CODE_HEAD + (language + (CODE_MID + FORMAT_TAIL)))
  }

  /** Text that holds no `[` cannot contain a placeholder, so a language or framework without one is copied as it is. */
  predicate Plain(s: string)
  {
    '[' !in s
  }

  /** Both placeholders start with `[` and differ in their second character; the rest of each holds no `[`. */
  lemma TagFacts()
    ensures |LANGUAGE_TAG| > 1 && |FRAMEWORK_TAG| > 1 && LANGUAGE_TAG[0] == '[' && FRAMEWORK_TAG[0] == '['
    ensures LANGUAGE_TAG[1] == 'C' && FRAMEWORK_TAG[1] == 'T'
    ensures Plain(LANGUAGE_TAG[1..]) && Plain(FRAMEWORK_TAG[1..])
  {
  }

  // The module templates' fixed pieces: only the format description has
  // brackets, each followed by a lower-case letter.

  lemma PlainCodeHead() ensures Plain(CODE_HEAD) {}
  lemma PlainCodeMid() ensures Plain(CODE_MID) {}
  lemma PlainTestsMid() ensures Plain(TESTS_MID) {}
  lemma PlainTestsAnd() ensures Plain(TESTS_AND) && Plain(TESTS_FRAMEWORK) {}
  lemma PlainFormatOpen() ensures Plain(FORMAT_OPEN) {}
  lemma HintFacts()
    ensures Plain(FILENAME_HINT) && Plain(CODE_HINT)
    ensures |FILENAME_HINT| > 0 && FILENAME_HINT[0] == 'f' && |CODE_HINT| > 0 && CODE_HINT[0] == 's'
  {
  }

  lemma ModuleTemplateFacts()
    ensures Plain(CODE_HEAD) && Plain(CODE_MID) && Plain(TESTS_MID) && Plain(TESTS_AND) && Plain(TESTS_FRAMEWORK)
    ensures Plain(FORMAT_OPEN) && Plain(FILENAME_HINT) && Plain(CODE_HINT)
    ensures |FILENAME_HINT| > 0 && FILENAME_HINT[0] == 'f' && |CODE_HINT| > 0 && CODE_HINT[0] == 's'
  {
    PlainCodeHead();
    PlainCodeMid();
    PlainTestsMid();
    PlainTestsAnd();
    PlainFormatOpen();
    HintFacts();
  }

  // The browser templates' fixed pieces hold no bracket at all.

  // Bracket-freedom is shown one literal piece at a time: the solver
  // cannot take a long literal in one step.

  /** Text joined from bracket-free pieces is bracket-free. */
  lemma PlainJoin(a: string, b: string)
    requires Plain(a) && Plain(b)
    ensures Plain(a + b)
  {
  }

  lemma PlainJson1() ensures Plain(" IMPORTANT: Format your ") {}
  lemma PlainJson2() ensures Plain("response as a single JSON ") {}
  lemma PlainJson3() ensures Plain("object with string values ") {}
  lemma PlainJson4() ensures Plain("only (not arrays).") {}

  lemma PlainJsonObjectOnly()
    ensures Plain(JSON_OBJECT_ONLY)
  {
    PlainJson1();
    PlainJson2();
    PlainJson3();
    PlainJson4();
    PlainJoin(" IMPORTANT: Format your ", "response as a single JSON ");
    PlainJoin(" IMPORTANT: Format your " + "response as a single JSON ", "object with string values ");
    PlainJoin(" IMPORTANT: Format your " + "response as a single JSON " + "object with string values ", "only (not arrays).");
  }

  lemma PlainSurrounding1() ensures Plain(" Do not include any text, ") {}
  lemma PlainSurrounding2() ensures Plain("explanation, or markdown ") {}
  lemma PlainSurrounding3() ensures Plain("formatting before or after ") {}
  lemma PlainSurrounding4() ensures Plain("the JSON object.") {}

  lemma PlainNoSurroundingText()
    ensures Plain(NO_SURROUNDING_TEXT)
  {
    PlainSurrounding1();
    PlainSurrounding2();
    PlainSurrounding3();
    PlainSurrounding4();
    PlainJoin(" Do not include any text, ", "explanation, or markdown ");
    PlainJoin(" Do not include any text, " + "explanation, or markdown ", "formatting before or after ");
    PlainJoin(" Do not include any text, " + "explanation, or markdown " + "formatting before or after ", "the JSON object.");
  }

  lemma PlainCodeFormat1() ensures Plain(" Use exactly this format: ") {}
  lemma PlainCodeFormat2() ensures Plain("{\"Filename\": ") {}
  lemma PlainCodeFormat3() ensures Plain("\"filename.ext\", \"Code\": ") {}
  lemma PlainCodeFormat4() ensures Plain("\"full source code as a ") {}
  lemma PlainCodeFormat5() ensures Plain("single string with escaped ") {}
  lemma PlainCodeFormat6() ensures Plain("newlines\"}.") {}

  lemma PlainCodeFormat()
    ensures Plain(CODE_FORMAT)
  {
    PlainCodeFormat1();
    PlainCodeFormat2();
    PlainCodeFormat3();
    PlainCodeFormat4();
    PlainCodeFormat5();
    PlainCodeFormat6();
    PlainJoin(" Use exactly this format: ", "{\"Filename\": ");
    PlainJoin(" Use exactly this format: " + "{\"Filename\": ", "\"filename.ext\", \"Code\": ");
    PlainJoin(" Use exactly this format: " + "{\"Filename\": " + "\"filename.ext\", \"Code\": ", "\"full source code as a ");
    PlainJoin(" Use exactly this format: " + "{\"Filename\": " + "\"filename.ext\", \"Code\": " + "\"full source code as a ", "single string with escaped ");
    PlainJoin(" Use exactly this format: " + "{\"Filename\": " + "\"filename.ext\", \"Code\": " + "\"full source code as a " + "single string with escaped ", "newlines\"}.");
  }

  lemma PlainTestFormat3() ensures Plain("\"test_filename.ext\", ") {}
  lemma PlainTestFormat4() ensures Plain("\"Code\": \"full test code ") {}
  lemma PlainTestFormat5() ensures Plain("as a single string with ") {}
  lemma PlainTestFormat6() ensures Plain("escaped newlines\"}.") {}

  lemma PlainTestFormat()
    ensures Plain(TEST_FORMAT)
  {
    PlainCodeFormat1();
    PlainCodeFormat2();
    PlainTestFormat3();
    PlainTestFormat4();
    PlainTestFormat5();
    PlainTestFormat6();
    PlainJoin(" Use exactly this format: ", "{\"Filename\": ");
    PlainJoin(" Use exactly this format: " + "{\"Filename\": ", "\"test_filename.ext\", ");
    PlainJoin(" Use exactly this format: " + "{\"Filename\": " + "\"test_filename.ext\", ", "\"Code\": \"full test code ");
    PlainJoin(" Use exactly this format: " + "{\"Filename\": " + "\"test_filename.ext\", " + "\"Code\": \"full test code ", "as a single string with ");
    PlainJoin(" Use exactly this format: " + "{\"Filename\": " + "\"test_filename.ext\", " + "\"Code\": \"full test code " + "as a single string with ", "escaped newlines\"}.");
  }

  lemma PlainNoCodeBlocks() ensures Plain(NO_CODE_BLOCKS) {}

  lemma PlainBrowserCodeTail()
    ensures Plain(BROWSER_CODE_TAIL)
  {
    PlainJsonObjectOnly();
    PlainNoSurroundingText();
    PlainCodeFormat();
    PlainNoCodeBlocks();
    PlainCodeTailHead();
    PlainJoin(" that implements the following feature.", JSON_OBJECT_ONLY);
    PlainJoin(" that implements the following feature." + JSON_OBJECT_ONLY, NO_SURROUNDING_TEXT);
    PlainJoin(" that implements the following feature." + JSON_OBJECT_ONLY + NO_SURROUNDING_TEXT, CODE_FORMAT);
    PlainJoin(" that implements the following feature." + JSON_OBJECT_ONLY + NO_SURROUNDING_TEXT + CODE_FORMAT, NO_CODE_BLOCKS);
  }

  lemma PlainCodeTailHead() ensures Plain(" that implements the following feature.") {}

  lemma PlainBrowserTestsTail()
    ensures Plain(BROWSER_TESTS_TAIL)
  {
    PlainJsonObjectOnly();
    PlainNoSurroundingText();
    PlainTestFormat();
    PlainNoCodeBlocks();
    assert Plain(" framework.");
    PlainJoin(" framework.", JSON_OBJECT_ONLY);
    PlainJoin(" framework." + JSON_OBJECT_ONLY, NO_SURROUNDING_TEXT);
    PlainJoin(" framework." + JSON_OBJECT_ONLY + NO_SURROUNDING_TEXT, TEST_FORMAT);
    PlainJoin(" framework." + JSON_OBJECT_ONLY + NO_SURROUNDING_TEXT + TEST_FORMAT, NO_CODE_BLOCKS);
  }

  lemma BrowserHeadFacts()
    ensures Plain(BROWSER_CODE_HEAD) && Plain(BROWSER_TESTS_HEAD) && Plain(TESTS_AND)
  {
  }

  /** A placeholder: `[`, then a character, then text without `[`. */
  predicate IsTag(tag: string)
  {
    |tag| > 1 && tag[0] == '[' && Plain(tag[1..])
  }

  /** Bracket-free text is copied whole. */
  lemma KeptPlain(s: string, tag: string, rep: string, y: string)
    requires IsTag(tag) && Plain(s)
    ensures ReplaceAll(s + y, tag, rep) == s + ReplaceAll(y, tag, rep)
  {
    ReplaceAllSkip(s, tag, rep, y);
  }

  /** Bracket-free text on its own is copied whole. */
  lemma KeptAll(s: string, tag: string, rep: string)
    requires IsTag(tag) && Plain(s)
    ensures ReplaceAll(s, tag, rep) == s
  {
    KeptPlain(s, tag, rep, "");
    assert s + "" == s;
  }

  /** A placeholder is not taken for another one that differs in its second character. */
  lemma KeptTag(tag: string, other: string, rep: string, y: string)
    requires IsTag(tag) && IsTag(other) && tag[1] != other[1]
    ensures ReplaceAll(other + y, tag, rep) == other + ReplaceAll(y, tag, rep)
  {
    var rest := other[1..];
    assert other + y == [other[0]] + (rest + y);
    assert ([other[0]] + (rest + y))[1] == other[1];
    ReplaceAllMiss(other[0], tag, rep, rest + y);
    ReplaceAllSkip(rest, tag, rep, y);
    assert other == [other[0]] + rest;
  }

  /** Text of the shape `open [f [c` with bracket-free pieces, where neither bracket starts the placeholder, is copied whole. */
  lemma KeptBrackets(open: string, f: string, c: string, tag: string, rep: string)
    requires IsTag(tag) && Plain(open) && Plain(f) && Plain(c) && |f| > 0 && |c| > 0
    requires tag[1] != f[0] && tag[1] != c[0]
    ensures ReplaceAll(open + ("[" + (f + ("[" + c))), tag, rep) == open + ("[" + (f + ("[" + c)))
  {
    KeptPlain(open, tag, rep, "[" + (f + ("[" + c)));
    assert ("[" + (f + ("[" + c)))[1] == f[0];
    ReplaceAllMiss('[', tag, rep, f + ("[" + c));
    KeptPlain(f, tag, rep, "[" + c);
    assert ("[" + c)[1] == c[0];
    ReplaceAllMiss('[', tag, rep, c);
    KeptAll(c, tag, rep);
  }

  /** Neither placeholder appears in the module templates' format description. */
  lemma FormatTailKept(tag: string, rep: string)
    requires tag == LANGUAGE_TAG || tag == FRAMEWORK_TAG
    ensures ReplaceAll(FORMAT_TAIL, tag, rep) == FORMAT_TAIL
  {
    TagFacts();
    ModuleTemplateFacts();
    KeptBrackets(FORMAT_OPEN, FILENAME_HINT, CODE_HINT, tag, rep);
  }

  /** `head L mid tail` with the placeholder `L` filled in. */
  lemma FillWithoutTests(head: string, mid: string, tail: string, lt: string, l: string)
    requires IsTag(lt) && Plain(head) && Plain(mid) && ReplaceAll(tail, lt, l) == tail
    ensures ReplaceAll(head + (lt + (mid + tail)), lt, l) == head + (l + (mid + tail))
  {
    KeptPlain(head, lt, l, lt + (mid + tail));
    ReplaceAllHit(lt, l, mid + tail);
    KeptPlain(mid, lt, l, tail);
  }

  /** The language pass over `head L mid L and F fw tail`. */
  lemma FillLanguageTwice(head: string, mid: string, and: string, fw: string, tail: string, lt: string, ft: string, l: string)
    requires IsTag(lt) && IsTag(ft) && lt[1] != ft[1]
    requires Plain(head) && Plain(mid) && Plain(and) && Plain(fw) && ReplaceAll(tail, lt, l) == tail
    ensures ReplaceAll(head + (lt + (mid + (lt + (and + (ft + (fw + tail)))))), lt, l)
      == head + (l + (mid + (l + (and + (ft + (fw + tail))))))
  {
    KeptPlain(head, lt, l, lt + (mid + (lt + (and + (ft + (fw + tail))))));
    ReplaceAllHit(lt, l, mid + (lt + (and + (ft + (fw + tail)))));
    KeptPlain(mid, lt, l, lt + (and + (ft + (fw + tail))));
    ReplaceAllHit(lt, l, and + (ft + (fw + tail)));
    KeptPlain(and, lt, l, ft + (fw + tail));
    KeptTag(lt, ft, l, fw + tail);
    KeptPlain(fw, lt, l, tail);
  }

  /** The framework pass, once the language has been filled in. */
  lemma FillFramework(head: string, mid: string, and: string, fw: string, tail: string, ft: string, l: string, f: string)
    requires IsTag(ft) && Plain(head) && Plain(mid) && Plain(and) && Plain(fw) && Plain(l)
    requires ReplaceAll(tail, ft, f) == tail
    ensures ReplaceAll(head + (l + (mid + (l + (and + (ft + (fw + tail)))))), ft, f)
      == head + (l + (mid + (l + (and + (f + (fw + tail))))))
  {
    KeptPlain(head, ft, f, l + (mid + (l + (and + (ft + (fw + tail))))));
    KeptPlain(l, ft, f, mid + (l + (and + (ft + (fw + tail)))));
    KeptPlain(mid, ft, f, l + (and + (ft + (fw + tail))));
    KeptPlain(l, ft, f, and + (ft + (fw + tail)));
    KeptPlain(and, ft, f, ft + (fw + tail));
    ReplaceAllHit(ft, f, fw + tail);
    KeptPlain(fw, ft, f, tail);
  }

  /** `head L and F tail` with bracket-free pieces, with `L`, then `F`, filled in. */
  lemma FillPlainTests(head: string, and: string, tail: string, lt: string, ft: string, l: string, f: string)
    requires IsTag(lt) && IsTag(ft) && lt[1] != ft[1]
    requires Plain(head) && Plain(and) && Plain(tail) && Plain(l)
    ensures ReplaceAll(ReplaceAll(head + (lt + (and + (ft + tail))), lt, l), ft, f) == head + (l + (and + (f + tail)))
  {
    KeptPlain(head, lt, l, lt + (and + (ft + tail)));
    ReplaceAllHit(lt, l, and + (ft + tail));
    KeptPlain(and, lt, l, ft + tail);
    KeptTag(lt, ft, l, tail);
    KeptAll(tail, lt, l);
    KeptPlain(head, ft, f, l + (and + (ft + tail)));
    KeptPlain(l, ft, f, and + (ft + tail));
    KeptPlain(and, ft, f, ft + tail);
    ReplaceAllHit(ft, f, tail);
    KeptAll(tail, ft, f);
  }

  /** The module template without tests, filled in: the language in its one place. */
  lemma ModuleCodeFilled(language: string)
    requires Plain(language)
    ensures ModuleCodePrompt(language, None, false) == CODE_HEAD + (language + (CODE_MID + FORMAT_TAIL))
  {
    TagFacts();
    ModuleTemplateFacts();
    FormatTailKept(LANGUAGE_TAG, language);
    FillWithoutTests(CODE_HEAD, CODE_MID, FORMAT_TAIL, LANGUAGE_TAG, language);
  }

  /** The module template with tests, filled in: the language in both places, then the framework. */
  lemma ModuleCodeWithTestsFilled(language: string, framework: string)
    requires Plain(language) && Plain(framework)
    ensures ModuleCodePrompt(language, Some(framework), true)
      == CODE_HEAD + (language + (TESTS_MID + (language + (TESTS_AND + (framework + (TESTS_FRAMEWORK + FORMAT_TAIL))))))
  {
    TagFacts();
    ModuleTemplateFacts();
    FormatTailKept(LANGUAGE_TAG, language);
    FormatTailKept(FRAMEWORK_TAG, framework);
    FillLanguageTwice(CODE_HEAD, TESTS_MID, TESTS_AND, TESTS_FRAMEWORK, FORMAT_TAIL, LANGUAGE_TAG, FRAMEWORK_TAG, language);
    FillFramework(CODE_HEAD, TESTS_MID, TESTS_AND, TESTS_FRAMEWORK, FORMAT_TAIL, FRAMEWORK_TAG, language, framework);
  }

  /**
   * The draft screen's concatenated prompt is the module template filled
   * in, after a space, for every language and framework without brackets.
   */
  lemma DraftMatchesModule(language: string, framework: Option<string>, withTests: bool)
    requires Plain(language) && Plain(TextOrUndefined(framework))
    ensures DraftCodePrompt(language, framework, withTests) == " " + ModuleCodePrompt(language, framework, withTests)
  {
    if withTests {
      ModuleCodeWithTestsFilled(language, TextOrUndefined(framework));
    } else {
      ModuleCodeFilled(language);
    }
  }

  /** The browser template without tests, filled in. */
  lemma BrowserCodeFilled(language: string)
    requires Plain(language)
    ensures BrowserCodePrompt(language, None, false) == BROWSER_CODE_HEAD + (language + BROWSER_CODE_TAIL)
  {
    TagFacts();
    BrowserHeadFacts();
    PlainBrowserCodeTail();
    KeptPlain(BROWSER_CODE_HEAD, LANGUAGE_TAG, language, LANGUAGE_TAG + BROWSER_CODE_TAIL);
    ReplaceAllHit(LANGUAGE_TAG, language, BROWSER_CODE_TAIL);
    KeptAll(BROWSER_CODE_TAIL, LANGUAGE_TAG, language);
  }

  /** The browser template with tests, filled in: the language, then the framework. */
  lemma BrowserCodeWithTestsFilled(language: string, framework: string)
    requires Plain(language) && Plain(framework)
    ensures BrowserCodePrompt(language, Some(framework), true)
      == BROWSER_TESTS_HEAD + (language + (TESTS_AND + (framework + BROWSER_TESTS_TAIL)))
  {
    TagFacts();
    BrowserHeadFacts();
    PlainBrowserTestsTail();
    FillPlainTests(BROWSER_TESTS_HEAD, TESTS_AND, BROWSER_TESTS_TAIL, LANGUAGE_TAG, FRAMEWORK_TAG, language, framework);
  }
}
