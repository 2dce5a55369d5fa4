/**
 * The fixed texts and identifiers of the extension: the default prompts, the
 * host artifact type ids, the user-facing messages (with their `{0}`
 * placeholder filled by `Format`), and the code prompt templates with their
 * `[CODE_LANGUAGE]` and `[TEST_FRAMEWORK]` placeholders.
 */
module Constants {
  import opened Text

  // Default prompts

  const GLOBAL_PROMPT := "You are a business analyst that only speaks in JSON. Do not generate output that isn't in properly formatted JSON."
  const REQUIREMENT_GENERATE_TEST_CASES := "Write the test cases for the following software requirement. For each test case include the description, input and expected output in the following format { \"TestCases\": [{ \"Description\": [Description of test case], \"Input\": [Sample input in plain text], \"ExpectedOutput\": [Expected output in plain text] }] }"
  const REQUIREMENT_GENERATE_SCENARIOS := "Write the BDD scenarios for the following software requirement. For each scenario use the following Gherkin format { \"Scenarios\": [{ \"Name\": [The name of the scenario], \"Given\": [single setup in plain text], \"When\": [single action in plain text], \"Then\": [single assertion in plain text] }] }"
  const RISK_GENERATE_MITIGATIONS := "Write the possible mitigations for the following risk. For each mitigation include the description in the following format { \"Mitigations\": [{ \"Description\": [description in plain text] }] }"
  const TEST_CASE_GENERATE_STEPS := "Write the test steps for the following test case. For each test step include the description, expected result, and sample data in the following format { \"TestSteps\": [{ \"Description\": [Description of test step], \"ExpectedResult\": [The expected result], \"SampleData\": [Sample data in plain text] }] }"

  /** The browser test-case screen's default step prompt: the same text behind a leading space. */
  const BROWSER_TEST_STEPS_PROMPT := " " + TEST_CASE_GENERATE_STEPS
  /** The browser requirement screen's default test-case prompt: the same text behind a leading space. */
  const BROWSER_TEST_CASES_PROMPT := " " + REQUIREMENT_GENERATE_TEST_CASES
  /** The browser task screen's default system prompt for the unit-test request. */
  const BROWSER_TEST_SYSTEM_PROMPT := "You are a business analyst that only speaks in JSON."
    + JSON_OBJECT_ONLY + NO_SURROUNDING_TEXT + CODE_FORMAT + NO_CODE_BLOCKS

  // Artifact type ids of the host

  const REQUIREMENT := 1
  const TEST_CASE := 2
  const TASK := 6
  const TEST_STEP := 7
  const DOCUMENT := 13
  const RISK := 14

  // Messages

  const PLACEHOLDER := "{0}"

  const PERMISSION_ERROR := "Claude Assistant: Sorry, you are not permitted to perform this action"
  const WAIT_HEAD := "Claude Assistant: Cannot generate "
  const WAIT_TAIL := " as another job is running. Please wait for it to finish!"
  const WAIT_FOR_OTHER_JOB := WAIT_HEAD + PLACEHOLDER + WAIT_TAIL
  const EMPTY_REQUIREMENT := "Claude Assistant: Fatal Error, empty requirement retrieved from Spira!"
  const EMPTY_TEST_CASE := "Claude Assistant: Fatal Error, empty test case retrieved from Spira!"
  const EMPTY_RISK := "Claude Assistant: Fatal Error, empty risk retrieved from Spira!"
  const EMPTY_TASK := "Claude Assistant: Fatal Error, empty task retrieved from Spira!"
  const REQUIREMENT_NOT_STEPS := "Claude Assistant: The current requirement is of a type that does not support BDD steps. Please change the requirement type and try again!"
  const UNKNOWN_CLAUDE_ACTION := "Claude Assistant: Sorry, an unknown Claude action was attempted: "
  const NO_REQUIREMENT_TYPES := "Claude Assistant: Fatal error, could not get any requirement types from Spira - please try again!"
  const NO_RESPONSE := "Claude Assistant: Fatal error, no response received from Claude - please try again!"
  const INVALID_CONTENT := "Claude Assistant: Invalid content received from Claude, not able to proceed."
  const NO_GENERATE_HEAD := "Claude Assistant: could not generate "
  const NO_GENERATE_TAIL := " from Claude's response - please try again."
  const INVALID_CONTENT_NO_GENERATE := NO_GENERATE_HEAD + PLACEHOLDER + NO_GENERATE_TAIL
  const UNKNOWN_ERROR := "Claude Assistant: Unknown Error, please check the browser console or try again!"
  const MISSING_SETTINGS := "Claude Assistant: You need to populate the system settings to use this application!"
  const SETTING_HEAD := "Claude Assistant: You need to populate the '"
  const SETTING_TAIL := "' system setting to use this application!"
  const MISSING_SETTING := SETTING_HEAD + PLACEHOLDER + SETTING_TAIL

  const ARTIFACT_TEST_CASES := "test cases"
  const ARTIFACT_TEST_STEPS := "test steps"
  const ARTIFACT_MITIGATIONS := "mitigations"
  const ARTIFACT_SOURCE_CODE := "source code"
  /** Only the browser task screen defines this one. */
  const UNIT_TEST_CODE := "unit test code"

  /** The message shown by the common failure handler when the messages table is not loaded. */
  const FALLBACK_UNKNOWN_ERROR := "Unknown error"

  /** `message.replace("{0}", arg)`: the first placeholder is filled in. */
  function Format(message: string, arg: string): string
  {
    ReplaceFirst(message, PLACEHOLDER, arg)
  }

  function WaitForOtherJob(artifacts: string): (r: string)
    ensures r == WAIT_HEAD + artifacts + WAIT_TAIL
  {
    ReplaceFirstAfter(WAIT_HEAD, PLACEHOLDER, WAIT_TAIL, artifacts);
    Format(WAIT_FOR_OTHER_JOB, artifacts)
  }

  function CouldNotGenerate(artifacts: string): (r: string)
    ensures r == NO_GENERATE_HEAD + artifacts + NO_GENERATE_TAIL
  {
    ReplaceFirstAfter(NO_GENERATE_HEAD, PLACEHOLDER, NO_GENERATE_TAIL, artifacts);
    Format(INVALID_CONTENT_NO_GENERATE, artifacts)
  }

  function MissingSetting(name: string): (r: string)
    ensures r == SETTING_HEAD + name + SETTING_TAIL
  {
    ReplaceFirstAfter(SETTING_HEAD, PLACEHOLDER, SETTING_TAIL, name);
    Format(MISSING_SETTING, name)
  }

  // Code prompt templates of the module version of the task screen

  const LANGUAGE_TAG := "[CODE_LANGUAGE]"
  const FRAMEWORK_TAG := "[TEST_FRAMEWORK]"

  const CODE_HEAD := "You are a programmer "
    + "working in the "
  const CODE_MID := " programming language. "
    + "Write sample code that "
    + "implements the following "
    + "feature"
  const TESTS_MID := " programming language. "
    + "Could you write a sample "
    + "unit test for the following "
    + "feature using "
  const TESTS_AND := " and the "
  const TESTS_FRAMEWORK := " framework"
  const FORMAT_OPEN := " in the following format { "
    + "\"Filename\": "
  const FILENAME_HINT := "filename for source code], "
    + "\"Code\": "
  const CODE_HINT := "source code in plain text] }"
  const FORMAT_TAIL := FORMAT_OPEN + ("[" + (FILENAME_HINT + ("[" + CODE_HINT)))

  // The templates are written right-nested, in the order the placeholders are filled in.
  const TASK_GENERATE_SOURCE_CODE := CODE_HEAD + (LANGUAGE_TAG + (CODE_MID + FORMAT_TAIL))
  const TASK_GENERATE_SOURCE_CODE_TESTS :=
    CODE_HEAD + (LANGUAGE_TAG + (TESTS_MID + (LANGUAGE_TAG + (TESTS_AND + (FRAMEWORK_TAG + (TESTS_FRAMEWORK + FORMAT_TAIL))))))

  // Code prompt templates of the browser version of the task screen

  const BROWSER_CODE_HEAD := "Write sample code in "
  const BROWSER_CODE_TAIL := " that implements the following feature."
    + JSON_OBJECT_ONLY + NO_SURROUNDING_TEXT + CODE_FORMAT + NO_CODE_BLOCKS
  const BROWSER_TESTS_HEAD := "Write a sample unit test "
    + "for the following feature "
    + "using "
  const BROWSER_TESTS_TAIL := " framework."
    + JSON_OBJECT_ONLY + NO_SURROUNDING_TEXT + TEST_FORMAT + NO_CODE_BLOCKS

  // The pieces of the browser copies' format instructions
  const JSON_OBJECT_ONLY := " IMPORTANT: Format your "
    + "response as a single JSON "
    + "object with string values "
    + "only (not arrays)."
  const NO_SURROUNDING_TEXT := " Do not include any text, "
    + "explanation, or markdown "
    + "formatting before or after "
    + "the JSON object."
  const CODE_FORMAT := " Use exactly this format: "
    + "{\"Filename\": "
    + "\"filename.ext\", \"Code\": "
    + "\"full source code as a "
    + "single string with escaped "
    + "newlines\"}."
  const TEST_FORMAT := " Use exactly this format: "
    + "{\"Filename\": "
    + "\"test_filename.ext\", "
    + "\"Code\": \"full test code "
    + "as a single string with "
    + "escaped newlines\"}."
  const NO_CODE_BLOCKS := " Do not wrap your response "
    + "in code blocks."

  const BROWSER_TASK_GENERATE_SOURCE_CODE := BROWSER_CODE_HEAD + (LANGUAGE_TAG + BROWSER_CODE_TAIL)
  const BROWSER_TASK_GENERATE_SOURCE_CODE_TESTS :=
    BROWSER_TESTS_HEAD + (LANGUAGE_TAG + (TESTS_AND + (FRAMEWORK_TAG + BROWSER_TESTS_TAIL)))

  // Option lists

  const MODULE_LANGUAGES := "C#, Java, NodeJS, Python, Ruby, ReactJS, Angular"
  const MODULE_LANGUAGES_WITH_TESTS := "C#|NUnit, Java|jUnit, NodeJS|Mocha, Python|PyTest, Ruby|Test::Unit"
  const BROWSER_LANGUAGES := "C#, Java, NodeJS, Python, Ruby, ReactJS, Angular"
  const BROWSER_LANGUAGES_WITH_TESTS := "C#|NUnit, Java|jUnit, NodeJS|Mocha, Python|PyTest, Ruby|Test::Unit, ReactJS|Cypress, Angular|Cypress"

  // Success messages

  const TEST_STEPS_CREATED := "Successfully created test steps from Claude Assistant."
  const TEST_CASES_CREATED := "Successfully created test cases from Claude Assistant."
  const MITIGATIONS_CREATED := "Successfully created risk mitigations from Claude Assistant."
  const CODE_CREATED := "Successfully created source code file from Claude Assistant."
  const CODE_AND_TEST_CREATED := "Successfully created source code file and unit test from Claude Assistant."
  const DRAFT_CODE_CREATED := "Successfully created source code file using Claude Assistant."
  /** The success message of the draft task screen when both files were made (never reached there). */
  const DRAFT_CODE_AND_TEST_CREATED := "Successfully created source code and test files using Claude Assistant."

  // Task screen dialogs and warnings

  const DIALOG_TITLE := "Generate Sample Code"
  const DIALOG_LANGUAGE := "Please choose the source code language:"
  const DIALOG_LANGUAGE_AND_FRAMEWORK := "Please choose the source code language and unit test framework:"
  const DIALOG_BUTTON := "Create"
  const NO_LANGUAGES := "No source code languages have been defined for this product!"
  const NO_LANGUAGES_WITH_TESTS := "No source code languages with unit test frameworks have been defined for this product!"
  const CHOOSE_LANGUAGE := "You need to choose a source code language from the list!"
  const CHOOSE_LANGUAGE_AND_FRAMEWORK := "You need to choose a source code and test framework language from the list!"
  const CHOOSE_VALID_LANGUAGE_AND_FRAMEWORK := "You need to choose a valid source code and test framework language from the list!"
  /** The task screens' own unknown-action message, followed by the action. */
  const UNKNOWN_ACTION := "Claude Assistant: Unknown action - "

  // The connection test of the browser requirement screen

  const CONNECTION_SYSTEM_PROMPT := "You are Claude AI. Reply with the text 'Connection successful' and nothing else."
  const CONNECTION_USER_PROMPT := "Test connection"
  const CONNECTION_OK := "Claude API connection successful!"
  const CONNECTION_INCOMPLETE := "Incomplete response from Claude API"
  const CONNECTION_FAILED := "Claude API connection failed: "
}
