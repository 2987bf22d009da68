/**
 * `Prism.CodeBlock` and `Prism.InlineCode`: a code element classed by its
 * language, inside a `pre` element that carries the line-numbering class and
 * the plugins' data attributes, optionally under a title.
 */
module PrismCodeBlock {
  import opened Optional
  import opened Text
  import opened Html
  import opened PrismLanguage

  // ---------------------------------------------------------------------------
  // Data model
  // ---------------------------------------------------------------------------

  /** `CommandLineOptions`: what the command-line plugin shows before each command. */
  datatype CommandLineOptions = CommandLineOptions(
    user: Option<string>,
    host: Option<string>,
    outputLines: seq<int>,
    prompt: Option<string>)

  datatype CodeBlock = CodeBlock(
    language: Option<Language>,
    lineNumbers: bool,
    highlightLines: seq<int>,
    startingLineNumber: int,
    title: Option<string>,
    commandLine: Option<CommandLineOptions>,
    code: string)

  /** `CommandLineOptions.init`: by default no option is set. */
  function CommandLine(user: Option<string> := None, host: Option<string> := None,
                       outputLines: seq<int> := [], prompt: Option<string> := None): CommandLineOptions
  {
    CommandLineOptions(user, host, outputLines, prompt)
  }

  /**
   * `CodeBlock.init`: by default no language, no numbering, no highlights,
   * numbering from 1, no title and no command line.
   */
  function Block(code: string, language: Option<Language> := None, lineNumbers: bool := false,
                 highlightLines: seq<int> := [], startingLineNumber: int := 1, title: Option<string> := None,
                 commandLine: Option<CommandLineOptions> := None): CodeBlock
  {
    CodeBlock(language, lineNumbers, highlightLines, startingLineNumber, title, commandLine, code)
  }

  // ---------------------------------------------------------------------------
  // Data attributes
  // ---------------------------------------------------------------------------

  /** The attributes the plugins read, in the order they are added. */
  datatype AttributeName = DataLine | DataStart | DataUser | DataHost | DataOutput | DataPrompt

  /** How each attribute is spelled in the markup. */
  function Spelling(name: AttributeName): (r: string)
    ensures "data-" <= r
  {
    match name
    case DataLine => "data-line"
    case DataStart => "data-start"
    case DataUser => "data-user"
    case DataHost => "data-host"
    case DataOutput => "data-output"
    case DataPrompt => "data-prompt"
  }

  /** One `data-` attribute of the `pre` element. */
  datatype DataAttribute = DataAttribute(name: AttributeName, value: string)

  /** `name="value"`. */
  function RenderAttribute(a: DataAttribute): string
  {
    Spelling(a.name) + "=\"" + a.value + "\""
  }

  /** `map(String.init).joined(separator: ",")`: the numbers in the order given. */
  function NumberList(numbers: seq<int>): string
  {
    Join(seq(|numbers|, i requires 0 <= i < |numbers| => IntToString(numbers[i])), ",")
  }

  /** The attribute `name`, when it has a value. */
  function Attribute(name: AttributeName, value: Option<string>): seq<DataAttribute>
  {
    match value
    case Some(v) => [DataAttribute(name, v)]
    case None => []
  }

  /** The value of a number-list attribute: absent for an empty list. */
  function ListValue(numbers: seq<int>): Option<string>
  {
    if numbers != [] then Some(NumberList(numbers)) else None
  }

  /** The value of `data-start`: absent when numbering starts at 1. */
  function StartValue(start: int): Option<string>
  {
    if start != 1 then Some(IntToString(start)) else None
  }

  /** The command-line plugin's attributes, each only when its option is set. */
  function CommandLineAttributes(options: CommandLineOptions): seq<DataAttribute>
  {
    Attribute(DataUser, options.user)
    + Attribute(DataHost, options.host)
    + Attribute(DataOutput, ListValue(options.outputLines))
    + Attribute(DataPrompt, options.prompt)
  }

  /** The attributes of a code block, in the order they are added. */
  function DataAttributes(b: CodeBlock): seq<DataAttribute>
  {
    Attribute(DataLine, ListValue(b.highlightLines))
    + Attribute(DataStart, StartValue(b.startingLineNumber))
    + (match b.commandLine { case Some(o) => CommandLineAttributes(o) case None => [] })
  }

  /** Each attribute rendered, in order. */
  function Rendered(attributes: seq<DataAttribute>): (r: seq<string>)
    ensures |r| == |attributes|
    ensures forall i :: 0 <= i < |r| ==> r[i] == RenderAttribute(attributes[i])
  {
    if attributes == [] then []
    else Rendered(attributes[..|attributes| - 1]) + [RenderAttribute(attributes[|attributes| - 1])]
  }

  /** The rendered attributes, space-separated. */
  function AttributeText(attributes: seq<DataAttribute>): string
  {
    Join(Rendered(attributes), " ")
  }

  /** Appending one more attribute appends its rendering to the rendered list. */
  lemma RenderedSnoc(attributes: seq<DataAttribute>, a: DataAttribute)
    ensures Rendered(attributes + [a]) == Rendered(attributes) + [RenderAttribute(a)]
  {
    assert (attributes + [a])[..|attributes|] == attributes;
  }

  /** Rendering a concatenation renders the parts one after the other. */
  lemma {:induction false} RenderedAppend(xs: seq<DataAttribute>, ys: seq<DataAttribute>)
    ensures Rendered(xs + ys) == Rendered(xs) + Rendered(ys)
    decreases |ys|
  {
    if ys == [] {
      assert xs + ys == xs;
    } else {
      var zs := ys[..|ys| - 1];
      var y := ys[|ys| - 1];
      assert xs + ys == (xs + zs) + [y];
      assert ys == zs + [y];
      RenderedAppend(xs, zs);
      RenderedSnoc(xs + zs, y);
      RenderedSnoc(zs, y);
    }
  }

  /** Appending two lists one after the other appends their concatenation. */
  lemma Concatenated(xs: seq<string>, ys: seq<string>, zs: seq<string>)
    ensures xs + ys + zs == xs + (ys + zs)
  {
  }

  /** Appends `name="value"` when there is a value. */
  method AppendAttribute(parts: seq<string>, name: AttributeName, value: Option<string>) returns (parts': seq<string>)
    ensures parts' == parts + Rendered(Attribute(name, value))
  {
    parts' := parts;
    if value.Some? {
      parts' := parts' + [Spelling(name) + "=\"" + value.value + "\""];
    }
  }

  /** `buildDataAttributes`: appends each attribute under its condition, then joins them with spaces. */
  method BuildDataAttributes(b: CodeBlock) returns (attrs: string)
    ensures attrs == AttributeText(DataAttributes(b))
  {
    var parts: seq<string> := [];
    parts := AppendAttribute(parts, DataLine, ListValue(b.highlightLines));
    parts := AppendAttribute(parts, DataStart, StartValue(b.startingLineNumber));
    var line := Attribute(DataLine, ListValue(b.highlightLines));
    var start := Attribute(DataStart, StartValue(b.startingLineNumber));
    RenderedAppend(line, start);
    assert parts == Rendered(line + start);
    if b.commandLine.Some? {
      var options := b.commandLine.value;
      parts := AppendCommandLine(options, parts);
      RenderedAppend(line + start, CommandLineAttributes(options));
    } else {
      assert line + start + [] == line + start;
    }
    attrs := Join(parts, " ");
  }

  /** The command-line part of `buildDataAttributes`: appends the rendered command-line attributes. */
  method AppendCommandLine(options: CommandLineOptions, parts: seq<string>) returns (parts': seq<string>)
    ensures parts' == parts + Rendered(CommandLineAttributes(options))
  {
    var user := Attribute(DataUser, options.user);
    var host := Attribute(DataHost, options.host);
    var output := Attribute(DataOutput, ListValue(options.outputLines));
    var prompt := Attribute(DataPrompt, options.prompt);
    var p1 := AppendAttribute(parts, DataUser, options.user);
    var p2 := AppendAttribute(p1, DataHost, options.host);
    var p3 := AppendAttribute(p2, DataOutput, ListValue(options.outputLines));
    parts' := AppendAttribute(p3, DataPrompt, options.prompt);
    RenderedAppend(user, host);
    RenderedAppend(user + host, output);
    RenderedAppend(user + host + output, prompt);
    Concatenated(parts, Rendered(user), Rendered(host));
    Concatenated(parts, Rendered(user + host), Rendered(output));
    Concatenated(parts, Rendered(user + host + output), Rendered(prompt));
  }

  // ---------------------------------------------------------------------------
  // Elements
  // ---------------------------------------------------------------------------

  const NoLanguageClass: string := "language-none"
  const LineNumbersClass: string := "line-numbers"
  const WrapperClass: string := "code-block-wrapper"
  const TitleClass: string := "code-block-title"

  /** The class of a code element: the language's class, or `language-none`. */
  function CodeClass(language: Option<Language>): string
  {
    match language
    case Some(l) => ClassName(l)
    case None => NoLanguageClass
  }

  /** `codeBlockContent`: the `pre` element around the classed code element. */
  function Content(b: CodeBlock): Node
  {
    Pre(if b.lineNumbers then Some(LineNumbersClass) else None,
        AttributeText(DataAttributes(b)),
        Code(CodeClass(b.language), b.code))
  }

  /** `CodeBlock.body`: the content, wrapped with its title when there is one. */
  function Body(b: CodeBlock): Node
  {
    match b.title
    case Some(t) => Div(WrapperClass, [Div(TitleClass, [Text(t)]), Content(b)])
    case None => Content(b)
  }

  /** `InlineCode.body`: a classed code element on its own. */
  function InlineCode(language: Option<Language>, code: string): (r: Node)
    ensures r.Code? && r.code == code
    ensures r.codeClass == NoLanguageClass <==> language == None
  {
    CodeClassNone(language);
    Code(CodeClass(language), code)
  }

  // ---------------------------------------------------------------------------
  // Convenience factories
  // ---------------------------------------------------------------------------

  /** What `CodeBlock.swift`, `.javascript`, `.html` and `.css` share: a language, numbering and highlights. */
  function LanguageBlock(language: Language, lineNumbers: bool, highlightLines: seq<int>, code: string): CodeBlock
  {
    Block(code, language := Some(language), lineNumbers := lineNumbers, highlightLines := highlightLines)
  }

  /** `CodeBlock.swift`: numbered by default. */
  function SwiftBlock(code: string, lineNumbers: bool := true, highlightLines: seq<int> := []): CodeBlock
  {
    LanguageBlock(Swift, lineNumbers, highlightLines, code)
  }

  /** `CodeBlock.javascript`: numbered by default. */
  function JavaScriptBlock(code: string, lineNumbers: bool := true, highlightLines: seq<int> := []): CodeBlock
  {
    LanguageBlock(JavaScript, lineNumbers, highlightLines, code)
  }

  /** `CodeBlock.html`: numbered by default. */
  function HtmlBlock(code: string, lineNumbers: bool := true, highlightLines: seq<int> := []): CodeBlock
  {
    LanguageBlock(Html, lineNumbers, highlightLines, code)
  }

  /** `CodeBlock.css`: numbered by default. */
  function CssBlock(code: string, lineNumbers: bool := true, highlightLines: seq<int> := []): CodeBlock
  {
    LanguageBlock(Css, lineNumbers, highlightLines, code)
  }

  /** `CodeBlock.bash`: command-line options, never a prompt. */
  function BashBlock(code: string, user: Option<string> := None, host: Option<string> := None,
                     outputLines: seq<int> := []): CodeBlock
  {
    Block(code, language := Some(Bash), commandLine := Some(CommandLine(user, host, outputLines)))
  }

  /** `CodeBlock.diff`. */
  function DiffBlock(code: string): CodeBlock
  {
    Block(code, language := Some(Diff))
  }

  /** `CodeBlock.json`: not numbered by default. */
  function JsonBlock(code: string, lineNumbers: bool := false): CodeBlock
  {
    Block(code, language := Some(Json), lineNumbers := lineNumbers)
  }

  /** `InlineCode.swift`. */
  function InlineSwift(code: string): Node
  {
    InlineCode(Some(Swift), code)
  }

  /** `InlineCode.javascript`. */
  function InlineJavaScript(code: string): Node
  {
    InlineCode(Some(JavaScript), code)
  }

  // ---------------------------------------------------------------------------
  // Properties of the data attributes
  // ---------------------------------------------------------------------------

  /** The names of the attributes, in order. */
  function Names(attributes: seq<DataAttribute>): (r: seq<AttributeName>)
    ensures |r| == |attributes|
    ensures forall i :: 0 <= i < |attributes| ==> r[i] == attributes[i].name
  {
    seq(|attributes|, i requires 0 <= i < |attributes| => attributes[i].name)
  }

  /** Where an attribute name comes in the order `buildDataAttributes` adds them. */
  function AttributeRank(name: AttributeName): nat
  {
    match name
    case DataLine => 0
    case DataStart => 1
    case DataUser => 2
    case DataHost => 3
    case DataOutput => 4
    case DataPrompt => 5
  }

  /** No two attributes are spelled alike. */
  lemma SpellingInjective(m: AttributeName, n: AttributeName)
    ensures Spelling(m) == Spelling(n) <==> m == n
  {
    if m != n {
      var s, t := Spelling(m), Spelling(n);
      assert |s| != |t| || s[5] != t[5] || s[6] != t[6];
    }
  }

  /** The names of a concatenation are the names of the parts. */
  lemma NamesAppend(xs: seq<DataAttribute>, ys: seq<DataAttribute>)
    ensures Names(xs + ys) == Names(xs) + Names(ys)
  {
  }

  /** The name an optional attribute contributes: its own, when it has a value. */
  function NameIf(name: AttributeName, value: Option<string>): seq<AttributeName>
  {
    if value.Some? then [name] else []
  }

  /** The names the command-line options contribute, `[]` without options. */
  function CommandLineNames(commandLine: Option<CommandLineOptions>): seq<AttributeName>
  {
    match commandLine
    case None => []
    case Some(o) =>
      NameIf(DataUser, o.user) + NameIf(DataHost, o.host)
      + NameIf(DataOutput, ListValue(o.outputLines)) + NameIf(DataPrompt, o.prompt)
  }

  /** An optional attribute has its name exactly when it has a value. */
  lemma NamesOfAttribute(name: AttributeName, value: Option<string>)
    ensures Names(Attribute(name, value)) == NameIf(name, value)
  {
  }

  /** The names of the command-line attributes, option by option. */
  lemma NamesOfCommandLine(o: CommandLineOptions)
    ensures Names(CommandLineAttributes(o)) == CommandLineNames(Some(o))
  {
    var user := Attribute(DataUser, o.user);
    var host := Attribute(DataHost, o.host);
    var output := Attribute(DataOutput, ListValue(o.outputLines));
    var prompt := Attribute(DataPrompt, o.prompt);
    NamesOfAttribute(DataUser, o.user);
    NamesOfAttribute(DataHost, o.host);
    NamesOfAttribute(DataOutput, ListValue(o.outputLines));
    NamesOfAttribute(DataPrompt, o.prompt);
    NamesAppend(user, host);
    NamesAppend(user + host, output);
    NamesAppend(user + host + output, prompt);
  }

  /** The names of a code block's attributes, part by part. */
  lemma DataAttributeNames(b: CodeBlock)
    ensures Names(DataAttributes(b))
         == NameIf(DataLine, ListValue(b.highlightLines))
          + NameIf(DataStart, StartValue(b.startingLineNumber))
          + CommandLineNames(b.commandLine)
  {
    var line := Attribute(DataLine, ListValue(b.highlightLines));
    var start := Attribute(DataStart, StartValue(b.startingLineNumber));
    var rest := match b.commandLine { case Some(o) => CommandLineAttributes(o) case None => [] };
    assert DataAttributes(b) == line + start + rest;
    NamesOfAttribute(DataLine, ListValue(b.highlightLines));
    NamesOfAttribute(DataStart, StartValue(b.startingLineNumber));
    NamesAppend(line, start);
    NamesAppend(line + start, rest);
    if b.commandLine.Some? {
      NamesOfCommandLine(b.commandLine.value);
    }
  }

  /**
   * The plain attributes: `data-line` is there exactly when lines are
   * highlighted, `data-start` exactly when numbering does not start at 1.
   */
  lemma LineAndStartPresence(b: CodeBlock)
    ensures DataLine in Names(DataAttributes(b)) <==> b.highlightLines != []
    ensures DataStart in Names(DataAttributes(b)) <==> b.startingLineNumber != 1
  {
    DataAttributeNames(b);
    if b.commandLine.Some? {
      CommandLineAscending(b.commandLine.value);
    }
  }

  /** `data-line` lists the highlighted lines and comes first; `data-start` gives the first line's number. */
  lemma LineAndStartValues(b: CodeBlock)
    ensures b.highlightLines != [] ==> DataAttributes(b)[0] == DataAttribute(DataLine, NumberList(b.highlightLines))
    ensures b.startingLineNumber != 1 ==> DataAttribute(DataStart, IntToString(b.startingLineNumber)) in DataAttributes(b)
  {
    var line := Attribute(DataLine, ListValue(b.highlightLines));
    var start := Attribute(DataStart, StartValue(b.startingLineNumber));
    var rest := match b.commandLine { case Some(o) => CommandLineAttributes(o) case None => [] };
    assert DataAttributes(b) == line + start + rest;
    if b.startingLineNumber != 1 {
      assert DataAttributes(b)[|line|] == start[0];
    }
  }

  /**
   * The command-line attributes: each is there exactly when its option is set
   * (`data-output` when there are output lines), and only with command-line options.
   */
  lemma CommandLinePresence(b: CodeBlock)
    ensures DataUser in Names(DataAttributes(b)) <==> b.commandLine.Some? && b.commandLine.value.user.Some?
    ensures DataHost in Names(DataAttributes(b)) <==> b.commandLine.Some? && b.commandLine.value.host.Some?
    ensures DataOutput in Names(DataAttributes(b)) <==> b.commandLine.Some? && b.commandLine.value.outputLines != []
    ensures DataPrompt in Names(DataAttributes(b)) <==> b.commandLine.Some? && b.commandLine.value.prompt.Some?
  {
    DataAttributeNames(b);
    var plain := NameIf(DataLine, ListValue(b.highlightLines)) + NameIf(DataStart, StartValue(b.startingLineNumber));
    assert forall n :: n in plain ==> AttributeRank(n) < 2;
    if b.commandLine.Some? {
      CommandLineMembers(b.commandLine.value);
    }
  }

  /** Each command-line name is there exactly when its option is set. */
  lemma CommandLineMembers(o: CommandLineOptions)
    ensures DataUser in CommandLineNames(Some(o)) <==> o.user.Some?
    ensures DataHost in CommandLineNames(Some(o)) <==> o.host.Some?
    ensures DataOutput in CommandLineNames(Some(o)) <==> o.outputLines != []
    ensures DataPrompt in CommandLineNames(Some(o)) <==> o.prompt.Some?
  {
    var user, host := NameIf(DataUser, o.user), NameIf(DataHost, o.host);
    var output, prompt := NameIf(DataOutput, ListValue(o.outputLines)), NameIf(DataPrompt, o.prompt);
    assert CommandLineNames(Some(o)) == user + host + output + prompt;
  }

  /** Names whose ranks strictly increase. */
  predicate Ascending(names: seq<AttributeName>)
  {
    forall i, j :: 0 <= i < j < |names| ==> AttributeRank(names[i]) < AttributeRank(names[j])
  }

  /** Two ascending runs, all of the first ranked below `k` and all of the second from `k`, ascend together. */
  lemma AscendingAppend(xs: seq<AttributeName>, ys: seq<AttributeName>, k: nat)
    requires Ascending(xs) && Ascending(ys)
    requires forall x :: x in xs ==> AttributeRank(x) < k
    requires forall y :: y in ys ==> k <= AttributeRank(y)
    ensures Ascending(xs + ys)
  {
    var zs := xs + ys;
    forall i, j | 0 <= i < j < |zs| ensures AttributeRank(zs[i]) < AttributeRank(zs[j]) {
      if j < |xs| {
        assert zs[i] == xs[i] && zs[j] == xs[j];
      } else if i >= |xs| {
        assert zs[i] == ys[i - |xs|] && zs[j] == ys[j - |xs|];
      } else {
        assert zs[i] in xs && zs[j] in ys;
      }
    }
  }

  /** The command-line names ascend, all ranked from `data-user` on. */
  lemma CommandLineAscending(o: CommandLineOptions)
    ensures Ascending(CommandLineNames(Some(o)))
    ensures forall n :: n in CommandLineNames(Some(o)) ==> 2 <= AttributeRank(n)
  {
    var user, host := NameIf(DataUser, o.user), NameIf(DataHost, o.host);
    var output, prompt := NameIf(DataOutput, ListValue(o.outputLines)), NameIf(DataPrompt, o.prompt);
    assert CommandLineNames(Some(o)) == user + host + output + prompt;
    AscendingAppend(user, host, 3);
    AscendingAppend(user + host, output, 4);
    AscendingAppend(user + host + output, prompt, 5);
  }

  /** The attributes come in the fixed order line, start, user, host, output, prompt. */
  lemma AttributesInOrder(b: CodeBlock)
    ensures Ascending(Names(DataAttributes(b)))
  {
    DataAttributeNames(b);
    OrderedNames(ListValue(b.highlightLines), StartValue(b.startingLineNumber), b.commandLine);
  }

  /** The line and start names, then the command-line names, ascend. */
  lemma OrderedNames(line: Option<string>, start: Option<string>, commandLine: Option<CommandLineOptions>)
    ensures Ascending(NameIf(DataLine, line) + NameIf(DataStart, start) + CommandLineNames(commandLine))
  {
    var front := NameIf(DataLine, line) + NameIf(DataStart, start);
    AscendingAppend(NameIf(DataLine, line), NameIf(DataStart, start), 1);
    if commandLine.Some? {
      CommandLineAscending(commandLine.value);
      AscendingAppend(front, CommandLineNames(commandLine), 2);
    } else {
      assert front + CommandLineNames(commandLine) == front;
    }
  }

  /**
   * The attribute text is empty exactly when there are no attributes; otherwise
   * it starts with the first attribute's name, so with `data-`, and ends with
   * the last closing quote: there is no leading or trailing separator.
   */
  lemma AttributeTextShape(attributes: seq<DataAttribute>)
    ensures AttributeText(attributes) == "" <==> attributes == []
    ensures attributes != [] ==>
      var text := AttributeText(attributes);
      "data-" <= Spelling(attributes[0].name) <= text && text[|text| - 1] == '"'
  {
    var parts := Rendered(attributes);
    JoinBoundaries(parts, " ");
    if attributes != [] {
      var first := RenderAttribute(attributes[0]);
      assert Spelling(attributes[0].name) <= first;
      var last := parts[|parts| - 1];
      assert last[|last| - 1] == '"';
    }
  }

  /** A highlighted-lines list has one comma between neighbouring numbers and no other. */
  lemma NumberListSeparators(numbers: seq<int>)
    requires numbers != []
    ensures Occurrences(NumberList(numbers), ',') == |numbers| - 1
  {
    var parts := seq(|numbers|, i requires 0 <= i < |numbers| => IntToString(numbers[i]));
    forall i | 0 <= i < |parts| ensures ',' !in parts[i] {
      IntToStringHasNoSeparator(numbers[i]);
    }
    JoinSeparatorCount(parts, ',');
  }

  // ---------------------------------------------------------------------------
  // Properties of the elements
  // ---------------------------------------------------------------------------

  /** The class is `language-none` exactly when there is no language. */
  lemma CodeClassNone(language: Option<Language>)
    ensures CodeClass(language) == NoLanguageClass <==> language == None
  {
    if language.Some? {
      ClassNameIsNotNone(language.value);
    }
  }

  /**
   * A block has no attributes exactly when no line is highlighted, numbering
   * starts at 1 and no command-line option is set.
   */
  lemma NoAttributes(b: CodeBlock)
    ensures DataAttributes(b) == []
        <==> b.highlightLines == [] && b.startingLineNumber == 1 && (b.commandLine == None || b.commandLine == Some(CommandLine()))
  {
    DataAttributeNames(b);
    assert |Names(DataAttributes(b))| == |DataAttributes(b)|;
  }

  /**
   * The `pre` element carries the line-numbering class exactly when lines are
   * numbered; its attribute string is empty exactly when no attribute applies;
   * it holds the code element an inline code of that language would, classed
   * `language-none` exactly when there is no language.
   */
  lemma ContentStructure(b: CodeBlock)
    ensures Content(b).preClass == Some(LineNumbersClass) <==> b.lineNumbers
    ensures Content(b).preClass == None <==> !b.lineNumbers
    ensures Content(b).attributes == AttributeText(DataAttributes(b))
    ensures Content(b).attributes == ""
        <==> b.highlightLines == [] && b.startingLineNumber == 1 && (b.commandLine == None || b.commandLine == Some(CommandLine()))
    ensures Content(b).content == InlineCode(b.language, b.code)
    ensures Content(b).content.codeClass == NoLanguageClass <==> b.language == None
  {
    NoAttributes(b);
    AttributeTextShape(DataAttributes(b));
    CodeClassNone(b.language);
  }

  /** A title wraps the untitled block in a wrapper, after a title element; the content is the same. */
  lemma TitleWraps(b: CodeBlock, title: string)
    ensures Body(b.(title := Some(title)))
         == Div(WrapperClass, [Div(TitleClass, [Text(title)]), Body(b.(title := None))])
    ensures b.title == None ==> Body(b) == Content(b)
  {
    assert DataAttributes(b.(title := Some(title))) == DataAttributes(b.(title := None));
  }

  // ---------------------------------------------------------------------------
  // The documented examples
  // ---------------------------------------------------------------------------

  /** The single-digit numbers are spelled by their digit. */
  lemma SmallNumbers()
    ensures IntToString(1) == "1" && IntToString(2) == "2" && IntToString(3) == "3" && IntToString(5) == "5"
    ensures IntToString(10) == "10"
  {
    assert DigitChar(1) == '1' && DigitChar(2) == '2' && DigitChar(3) == '3' && DigitChar(5) == '5';
    assert DigitChar(0) == '0';
    assert NatToString(10) == NatToString(1) + [DigitChar(0)];
  }

  /** A number list is the join of the numbers' spellings. */
  lemma NumberListOf(numbers: seq<int>, spellings: seq<string>)
    requires |spellings| == |numbers|
    requires forall i :: 0 <= i < |numbers| ==> spellings[i] == IntToString(numbers[i])
    ensures NumberList(numbers) == Join(spellings, ",")
  {
    assert seq(|numbers|, i requires 0 <= i < |numbers| => IntToString(numbers[i])) == spellings;
  }

  /** A JavaScript block highlighting lines 2 and 3 carries `data-line="2,3"` only. */
  lemma HighlightedLinesExample(code: string)
    ensures Body(JavaScriptBlock(code, highlightLines := [2, 3]))
         == Pre(Some("line-numbers"), "data-line=\"2,3\"", Code(ClassName(JavaScript), code))
  {
    var b := JavaScriptBlock(code, highlightLines := [2, 3]);
    SmallNumbers();
    NumberListOf([2, 3], ["2", "3"]);
    assert NumberList([2, 3]) == "2,3";
    assert DataAttributes(b) == [DataAttribute(DataLine, "2,3")];
    assert "data-line" + "=\"" == "data-line=\"";
    assert "data-line=\"" + "2,3" == "data-line=\"2,3";
    assert "data-line=\"2,3" + "\"" == "data-line=\"2,3\"";
  }

  /** Highlighted lines 1, 3 and 5 numbered from 10: `data-line="1,3,5" data-start="10"`. */
  lemma StartingLineExample()
    ensures AttributeText([DataAttribute(DataLine, NumberList([1, 3, 5])), DataAttribute(DataStart, IntToString(10))])
         == "data-line=\"1,3,5\" data-start=\"10\""
  {
    SmallNumbers();
    assert Join(["3", "5"], ",") == "3,5";
    NumberListOf([1, 3, 5], ["1", "3", "5"]);
    assert NumberList([1, 3, 5]) == "1,3,5";
    assert "data-line" + "=\"" == "data-line=\"";
    assert "data-line=\"" + "1,3,5" == "data-line=\"1,3,5";
    assert "data-line=\"1,3,5" + "\"" == "data-line=\"1,3,5\"";
    assert "data-start" + "=\"" == "data-start=\"";
    assert "data-start=\"" + "10" == "data-start=\"10";
    assert "data-start=\"10" + "\"" == "data-start=\"10\"";
    assert "data-line=\"1,3,5\"" + " " == "data-line=\"1,3,5\" ";
    assert "data-line=\"1,3,5\" " + "data-start=\"10\"" == "data-line=\"1,3,5\" data-start=\"10\"";
  }

  /** The block of the complete example lists its lines and its start, in that order. */
  lemma StartingLineBlock(code: string)
    ensures DataAttributes(Block(code, language := Some(Swift), lineNumbers := true, highlightLines := [1, 3, 5],
                                 startingLineNumber := 10, title := Some("ComplexExample.swift")))
         == [DataAttribute(DataLine, NumberList([1, 3, 5])), DataAttribute(DataStart, IntToString(10))]
  {
  }

  /** A bash block for `admin` on `server` with output lines 2 and 3 carries user, host and output. */
  lemma CommandLineBlock(code: string)
    ensures DataAttributes(BashBlock(code, user := Some("admin"), host := Some("server"), outputLines := [2, 3]))
         == [DataAttribute(DataUser, "admin"), DataAttribute(DataHost, "server"), DataAttribute(DataOutput, NumberList([2, 3]))]
  {
  }

  /** Its attribute text: `data-user="admin" data-host="server" data-output="2,3"`, joined by single spaces. */
  lemma CommandLineExample()
    ensures AttributeText([DataAttribute(DataUser, "admin"), DataAttribute(DataHost, "server"), DataAttribute(DataOutput, NumberList([2, 3]))])
         == "data-user=\"admin\"" + " " + "data-host=\"server\"" + " " + "data-output=\"2,3\""
  {
    var attributes := [DataAttribute(DataUser, "admin"), DataAttribute(DataHost, "server"), DataAttribute(DataOutput, NumberList([2, 3]))];
    CommandLineRendered();
    var user, host, output := "data-user=\"admin\"", "data-host=\"server\"", "data-output=\"2,3\"";
    assert Rendered(attributes) == [user, host, output];
    assert [user, host, output][1..] == [host, output];
    assert Join([host, output], " ") == host + " " + output;
    AppendAssociative(user + " ", host + " ", output);
  }

  /** The three attributes of the bash example, each rendered. */
  lemma CommandLineRendered()
    ensures Rendered([DataAttribute(DataUser, "admin"), DataAttribute(DataHost, "server"), DataAttribute(DataOutput, NumberList([2, 3]))])
         == ["data-user=\"admin\"", "data-host=\"server\"", "data-output=\"2,3\""]
  {
    SmallNumbers();
    NumberListOf([2, 3], ["2", "3"]);
    assert NumberList([2, 3]) == "2,3";
    assert "data-user" + "=\"" + "admin" + "\"" == "data-user=\"admin\"";
    assert "data-host" + "=\"" + "server" + "\"" == "data-host=\"server\"";
    assert "data-output" + "=\"" + "2,3" + "\"" == "data-output=\"2,3\"";
  }


  /**
   * The factories' attributes: a language block has at most `data-line`, a
   * bash block only the command-line attributes it was given and never a
   * prompt, and diff and JSON blocks have none.
   */
  lemma FactoryAttributes(language: Language, lineNumbers: bool, highlightLines: seq<int>,
                          user: Option<string>, host: Option<string>, outputLines: seq<int>, code: string)
    ensures Names(DataAttributes(LanguageBlock(language, lineNumbers, highlightLines, code)))
         == (if highlightLines != [] then [DataLine] else [])
    ensures Names(DataAttributes(BashBlock(code, user, host, outputLines)))
         == NameIf(DataUser, user) + NameIf(DataHost, host) + NameIf(DataOutput, ListValue(outputLines))
    ensures DataAttributes(DiffBlock(code)) == [] && DataAttributes(JsonBlock(code, lineNumbers)) == []
  {
    DataAttributeNames(LanguageBlock(language, lineNumbers, highlightLines, code));
    DataAttributeNames(BashBlock(code, user, host, outputLines));
    var pre := NameIf(DataUser, user) + NameIf(DataHost, host) + NameIf(DataOutput, ListValue(outputLines));
    assert pre + [] == pre;
  }

  /** `InlineCode.swift` and `.javascript` class their code `language-swift` and `language-javascript`. */
  lemma InlineFactories(code: string)
    ensures InlineSwift(code) == Code("language-swift", code)
    ensures InlineJavaScript(code) == Code("language-javascript", code)
    ensures InlineCode(None, code) == Code("language-none", code)
  {
  }

  /** A block left at every default is a bare `pre` around a `language-none` code element. */
  lemma DefaultBlock(code: string)
    ensures Body(Block(code)) == Pre(None, "", Code("language-none", code))
  {
    assert DataAttributes(Block(code)) == [];
  }

  /**
   * With their defaults, the Swift, JavaScript, HTML and CSS factories number
   * their lines; the bash, diff and JSON ones do not; none adds an attribute,
   * not even the bash block, whose command-line options are all unset.
   */
  lemma FactoryDefaults(code: string)
    ensures Body(SwiftBlock(code)) == Pre(Some(LineNumbersClass), "", Code("language-swift", code))
    ensures Body(JavaScriptBlock(code)) == Pre(Some(LineNumbersClass), "", Code("language-javascript", code))
    ensures Body(HtmlBlock(code)) == Pre(Some(LineNumbersClass), "", Code("language-html", code))
    ensures Body(CssBlock(code)) == Pre(Some(LineNumbersClass), "", Code("language-css", code))
    ensures Body(BashBlock(code)) == Pre(None, "", Code("language-bash", code))
    ensures Body(DiffBlock(code)) == Pre(None, "", Code("language-diff", code))
    ensures Body(JsonBlock(code)) == Pre(None, "", Code("language-json", code))
  {
    assert CodeClass(Some(Swift)) == "language-swift";
    assert CodeClass(Some(JavaScript)) == "language-javascript";
    assert CodeClass(Some(Html)) == "language-html";
    assert CodeClass(Some(Css)) == "language-css";
    assert CodeClass(Some(Bash)) == "language-bash";
    assert CodeClass(Some(Diff)) == "language-diff";
    assert CodeClass(Some(Json)) == "language-json";
    Unattributed(SwiftBlock(code));
    Unattributed(JavaScriptBlock(code));
    Unattributed(HtmlBlock(code));
    Unattributed(CssBlock(code));
    Unattributed(BashBlock(code));
    Unattributed(DiffBlock(code));
    Unattributed(JsonBlock(code));
  }

  /** An untitled block without attributes is a `pre` with an empty attribute string around its code element. */
  lemma Unattributed(b: CodeBlock)
    requires b.title == None && b.highlightLines == [] && b.startingLineNumber == 1
    requires b.commandLine == None || b.commandLine == Some(CommandLine())
    ensures Body(b) == Pre(if b.lineNumbers then Some(LineNumbersClass) else None, "", Code(CodeClass(b.language), b.code))
  {
    NoAttributes(b);
    assert Rendered([]) == [];
  }
}
