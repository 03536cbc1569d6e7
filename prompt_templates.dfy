/**
 * The prompt templates of the .NET relay (PromptTemplateService): a read-only table
 * from template key to a composite format string with one `{0}` item, a lookup that
 * falls back to "general", and the list of templates offered to the client.
 *
 * Each format string is stored already split into its literal runs and its format
 * items, which is how `string.Format` reads it; the template texts contain no brace
 * other than the one `{0}`.
 */
module PromptTemplates {
  import opened Base
  import opened Events

  /** A piece of a composite format string: literal text, or the item `{0}`. */
  datatype Piece = Text(text: string) | Arg

  /** `string.Format(format, arg)`: literal runs verbatim, each `{0}` replaced by `arg`. */
  function Format(format: seq<Piece>, arg: string): string {
    if format == [] then ""
    else (match format[0] case Text(t) => t case Arg => arg) + Format(format[1..], arg)
  }

  /** The total length of the literal runs. */
  function TextLength(format: seq<Piece>): nat {
    if format == [] then 0
    else (if format[0].Text? then |format[0].text| else 0) + TextLength(format[1..])
  }

  /** How many `{0}` items the format has. */
  function ArgCount(format: seq<Piece>): nat {
    if format == [] then 0
    else (if format[0].Arg? then 1 else 0) + ArgCount(format[1..])
  }

  /** Formatting inserts the argument once per item and nothing else. */
  lemma {:induction false} FormatLength(format: seq<Piece>, arg: string)
    ensures |Format(format, arg)| == TextLength(format) + ArgCount(format) * |arg|
  {
    if format != [] {
      FormatLength(format[1..], arg);
    }
  }

  /** A single piece formats to its literal text, or to the argument for `{0}`. */
  lemma FormatPiece(p: Piece, arg: string)
    ensures Format([p], arg) == if p.Arg? then arg else p.text
  {
    assert [p][1..] == [];
  }

  /**
   * Formatting a format cut in two gives the two halves' texts joined; with
   * `FormatPiece`, the argument appears exactly at the items and nothing else is added.
   */
  lemma {:induction false} FormatConcat(a: seq<Piece>, b: seq<Piece>, arg: string)
    ensures Format(a + b, arg) == Format(a, arg) + Format(b, arg)
    decreases |a|
  {
    if a == [] {
      assert a + b == b;
    } else {
      assert (a + b)[0] == a[0] && (a + b)[1..] == a[1..] + b;
      FormatConcat(a[1..], b, arg);
    }
  }

  const SystemPrompt := "You are DevAssistant, a precise .NET code assistant.\n"
    + "- Prefer C#, ASP.NET Core, EF Core, and SQL Server examples.\n"
    + "- Return runnable, minimal code with comments.\n"
    + "- Warn against unsafe or insecure practices.\n"
    + "- Format code properly with syntax highlighting.\n"
    + "- Be concise but thorough in explanations."

  const GeneralKey := "general"

  const ErrorExplainTask := "\n\n**Task**: Explain the following error and provide a solution.\n\n"
    + "**Instructions**:\n"
    + "1. Identify the root cause of the error\n"
    + "2. Explain what the error means in simple terms\n"
    + "3. Provide a step-by-step solution with code examples\n"
    + "4. Suggest best practices to prevent similar errors\n\n"
    + "**Error to analyze**:\n"

  const RefactorTask := "\n\n**Task**: Refactor the provided code to improve its quality, performance, and maintainability.\n\n"
    + "**Instructions**:\n"
    + "1. Analyze the current code for issues (performance, readability, maintainability)\n"
    + "2. Suggest specific improvements\n"
    + "3. Provide the refactored code with explanations\n"
    + "4. Highlight the benefits of each change\n"
    + "5. Ensure the refactored code follows .NET best practices\n\n"
    + "**Code to refactor**:\n"

  const SqlHelperTask := "\n\n**Task**: Help with SQL Server database operations and queries.\n\n"
    + "**Instructions**:\n"
    + "1. Analyze the SQL requirement or issue\n"
    + "2. Provide optimized SQL Server queries\n"
    + "3. Include Entity Framework Core code if applicable\n"
    + "4. Suggest indexing strategies if relevant\n"
    + "5. Ensure queries follow SQL Server best practices\n"
    + "6. Warn about potential performance issues\n\n"
    + "**SQL requirement**:\n"

  const CodeReviewTask := "\n\n**Task**: Perform a thorough code review of the provided code.\n\n"
    + "**Instructions**:\n"
    + "1. Check for bugs, security issues, and performance problems\n"
    + "2. Verify adherence to .NET coding standards\n"
    + "3. Suggest improvements for readability and maintainability\n"
    + "4. Identify potential edge cases or error conditions\n"
    + "5. Recommend testing strategies\n\n"
    + "**Code to review**:\n"

  const UnitTestTask := "\n\n**Task**: Generate comprehensive unit tests for the provided code.\n\n"
    + "**Instructions**:\n"
    + "1. Create unit tests using xUnit and appropriate mocking frameworks\n"
    + "2. Cover happy path, edge cases, and error scenarios\n"
    + "3. Use AAA pattern (Arrange, Act, Assert)\n"
    + "4. Include meaningful test names and documentation\n"
    + "5. Suggest test data builders if complex objects are involved\n\n"
    + "**Code to test**:\n"

  const GeneralTask := "\n\nUser query: "

  /** The six templates, by the task each one sets after the system prompt. */
  datatype Task = GeneralQuery | ErrorExplain | Refactor | SqlHelper | CodeReview | UnitTest

  function TaskText(t: Task): string {
    match t
    case GeneralQuery => GeneralTask
    case ErrorExplain => ErrorExplainTask
    case Refactor => RefactorTask
    case SqlHelper => SqlHelperTask
    case CodeReview => CodeReviewTask
    case UnitTest => UnitTestTask
  }

  /** The template table, keyed as the client names the templates. */
  const TemplateTasks: map<string, Task> := map[
    GeneralKey := GeneralQuery,
    "error-explain" := ErrorExplain,
    "refactor" := Refactor,
    "sql-helper" := SqlHelper,
    "code-review" := CodeReview,
    "unit-test" := UnitTest
  ]

  /** The literal text of a template, before its `{0}`: the system prompt, then the task. */
  function Lead(key: string): (lead: string)
    requires key in TemplateTasks
    ensures StartsWith(lead, SystemPrompt)
  {
    SystemPrompt + TaskText(TemplateTasks[key])
  }

  /** The composite format string of a template: its text, then one `{0}`. */
  function Template(key: string): seq<Piece>
    requires key in TemplateTasks
  {
    [Text(Lead(key)), Arg]
  }

  /**
   * The key `GetPrompt` uses: the given key when the table holds it, and "general"
   * when the key is missing, blank or unknown (no key in the table is blank).
   */
  function SelectedKey(templateKey: Option<string>): (key: string)
    ensures key in TemplateTasks
    ensures templateKey.Some? && templateKey.value in TemplateTasks ==> key == templateKey.value
    ensures IsNullOrWhiteSpace(templateKey) || templateKey.value !in TemplateTasks ==> key == GeneralKey
  {
    assert templateKey.Some? && templateKey.value in TemplateTasks ==> !IsDotNetSpace(templateKey.value[0]);
    if IsNullOrWhiteSpace(templateKey) || templateKey.value !in TemplateTasks then GeneralKey
    else templateKey.value
  }

  /**
   * `GetPrompt`: the selected template with its `{0}` replaced by the user input. The
   * input is inserted verbatim (braces in it are not interpreted), so the prompt is
   * the template's fixed text followed by exactly the input, and it always opens with
   * the system prompt.
   */
  function GetPrompt(templateKey: Option<string>, userInput: string): (prompt: string)
    ensures StartsWith(prompt, SystemPrompt)
    ensures prompt == Lead(SelectedKey(templateKey)) + userInput
  {
    var key := SelectedKey(templateKey);
    var lead := Lead(key);
    FormatLead(lead, userInput);
    Format(Template(key), userInput)
  }

  /** A one-item template formats to its text followed by the argument. */
  lemma FormatLead(lead: string, arg: string)
    ensures Format([Text(lead), Arg], arg) == lead + arg
  {
    assert [Text(lead), Arg][1..] == [Arg];
    assert [Arg][1..] == [];
    assert Format([Arg], arg) == arg + Format([], arg) == arg;
    assert Format([Text(lead), Arg], arg) == lead + Format([Arg], arg);
  }

  /**
   * `GetAvailableTemplates`: six descriptors in a fixed order, with distinct keys,
   * which are exactly the keys of the template table.
   */
  function GetAvailableTemplates(): (ts: seq<PromptTemplate>)
    ensures |ts| == 6 && ts[0].key == GeneralKey
    ensures forall i, j :: 0 <= i < j < |ts| ==> ts[i].key != ts[j].key
    ensures forall i :: 0 <= i < |ts| ==> ts[i].key in TemplateTasks
    ensures forall key :: key in TemplateTasks ==> key in Keys(ts)
  {
    var ts := [
      PromptTemplate(GeneralKey, "General Assistant", "General development questions and guidance"),
      PromptTemplate("error-explain", "Error Explainer", "Analyze and explain errors with solutions"),
      PromptTemplate("refactor", "Code Refactoring", "Improve code quality and maintainability"),
      PromptTemplate("sql-helper", "SQL Helper", "SQL Server queries and database operations"),
      PromptTemplate("code-review", "Code Review", "Comprehensive code analysis and suggestions"),
      PromptTemplate("unit-test", "Unit Test Generator", "Generate comprehensive unit tests")
    ];
    assert Keys(ts) == [GeneralKey, "error-explain", "refactor", "sql-helper", "code-review", "unit-test"];
    ts
  }
}
