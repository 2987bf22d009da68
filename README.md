# swift-html-prism, modelled in Dafny

swift-html-prism puts the Prism syntax highlighter into server-rendered HTML pages. A
`Prism.Configuration` says which languages, plugins and theme a page needs. `Prism.Head`
turns the configuration into the nodes of the page's `<head>`: the theme stylesheet,
the plugins' stylesheets, one style block assembled from feature flags, the core,
plugin and language scripts from the CDN, and an inline initialization script.
`Prism.CodeBlock` and `Prism.InlineCode` emit the `pre`/`code` markup that Prism
highlights. A code block carries a language class, a line-numbering class and the
plugins' `data-` attributes, and may sit under a title. Themes come in two kinds:

- built-in stylesheets on the CDN;
- custom themes, whose CSS a `ThemeBuilder` renders from a table of token styles
  in raw-value order.

Plugins are catalog entries whose URLs come from a slug of their name.

The Dafny modules follow the Swift files:

| module | file | models |
|---|---|---|
| `Optional`, `Text`, `Cdn` | `optional.dfy`, `text.dfy`, `cdn.dfy` | optionals, Swift's `joined(separator:)` and `String(Int)`, byte-wise string order, the CDN root |
| `PrismLanguage` | `language.dfy` | the languages a page can load |
| `PrismPlugin` | `plugin.dfy` | `Prism.Plugin`: slug rule, URLs, catalog |
| `PrismTokenType` | `tokentype.dfy` | `TokenType`, its raw values and their sort order |
| `PrismTheme` | `theme.dfy` | `Theme`, `CustomTheme`, `TokenStyle.cssString`, `ThemeBuilder` (a class), the `swift` theme |
| `Html` | `html.dfy` | the abstract nodes the components produce |
| `PrismHead` | `head.dfy` | `Configuration`, `Head.body`, `buildInitializationScript`, the presets |
| `PrismCodeBlock` | `codeblock.dfy` | `CodeBlock`, `buildDataAttributes`, `CommandLineOptions`, `InlineCode`, the factories |

The state-changing parts are imperative Dafny:

- `ThemeBuilder` is a class whose setters modify its fields;
- `build`, `cssString`, `buildInitializationScript` and `buildDataAttributes` are
  methods that grow a local string or list, as the Swift code does;
- each of these methods is proved equal to a function that specifies it, and the
  properties are proved about those functions.

The long CSS and JavaScript constants of the head are named, not spelled out. A style
or script body is a list of pieces, each a literal string or one of the five stock
blocks (`Html.StockText`). The head's flag rules are therefore proved as exact
"if and only if" statements about which blocks appear.

The init script is modelled as the code writes it. The opening text ends right after
`Prism.highlightAll();` (or after the indentation when automatic highlighting is off).
The closing `  }\n});` follows with no newline in between, as the snapshot
`Prism.highlightAll();  }` at `Tests/HTMLPrism Tests/PrismSnapshotTests.swift:346` shows.

## Model

| member | source | states |
|---|---|---|
| Text.JoinSnoc | Sources/HTMLPrism/Prism.swift:380 | `joined(separator:)`: one more part adds exactly one separator, and only between two parts |
| Text.JoinBoundaries | Sources/HTMLPrism/Prism.swift:403 | joining non-empty parts gives "" exactly when there are no parts; the result starts with the first part and ends with the last, so there is no leading or trailing separator |
| Text.JoinSeparatorCount | Sources/HTMLPrism/Prism.swift:380 | joining n parts that do not contain the separator character yields exactly n - 1 separators |
| Text.NatToStringRoundTrip | Sources/HTMLPrism/Prism.swift:380 | `String(n)` spells n in decimal digits that read back as n |
| Text.IntToStringHasNoSeparator | Sources/HTMLPrism/Prism.swift:380-383 | a rendered number contains no comma, space or double quote, so it cannot break a number list or an attribute |
| Text.LessIrreflexive | Sources/HTMLPrism/Prism.Theme.swift:156 | the raw-value comparison `<` used by `sorted` is irreflexive |
| Text.LessTransitive | Sources/HTMLPrism/Prism.Theme.swift:156 | the raw-value comparison is transitive |
| Text.LessTotal | Sources/HTMLPrism/Prism.Theme.swift:156 | two different strings are ordered one way or the other |
| Text.LessAsymmetric | Sources/HTMLPrism/Prism.Theme.swift:156 | the raw-value comparison is asymmetric: a strict order |
| PrismLanguage.IdInjective | Sources/HTMLPrism/Prism.swift:124-129 | different languages have different identifiers, component files and classes |
| PrismLanguage.GroupsLeaveOutSwiftAndDiff | Sources/HTMLPrism/Prism.swift:477-481 | neither the web nor the data group contains Swift or diff |
| PrismLanguage.ClassNameIsNotNone | Sources/HTMLPrism/Prism.swift:369 | no language's class is `language-none` |
| PrismPlugin.Slug | Sources/HTMLPrism/Prism.Plugin.swift:38 | the slug has exactly as many characters as the name |
| PrismPlugin.SlugIsClean | Sources/HTMLPrism/Prism.Plugin.swift:38 | a slug has no space and no upper-case ASCII letter |
| PrismPlugin.SlugIdempotent | Sources/HTMLPrism/Prism.Plugin.swift:38 | slugging a slug changes nothing |
| PrismPlugin.UrlsShareDirectory | Sources/HTMLPrism/Prism.Plugin.swift:37-45 | the script URL is the plugin's directory plus its file name; the CSS URL is nil exactly when there is no CSS file, and otherwise the same directory plus the CSS file name |
| PrismPlugin.UrlsIgnoreConfiguration | Sources/HTMLPrism/Prism.Plugin.swift:15-45 | both URLs depend only on the name, the file names and the CDN version, never on the stored configuration |
| PrismPlugin.LineHighlightCatalogName | Sources/HTMLPrism/Prism.Plugin.swift:51-55 | the line-highlight entry is named exactly `Line Highlight`, the name the head tests, and no other catalog entry has that name |
| PrismPlugin.ScriptOnlyPlugins | Sources/HTMLPrism/Prism.Plugin.swift:63-161 | the nine entries without a CSS file (copy to clipboard, autoloader, …) have no stylesheet URL |
| PrismPlugin.LineNumbersDirectory | Sources/HTMLPrism/Prism.Plugin.swift:57-61 | line numbers live under `…/1.29.0/plugins/line-numbers/` |
| PrismPlugin.LineNumbersScriptUrl | Sources/HTMLPrism/Prism.Plugin.swift:37-39 | the line-numbers script is `…/plugins/line-numbers/prism-line-numbers.min.js` |
| PrismPlugin.LineNumbersCssUrl | Sources/HTMLPrism/Prism.Plugin.swift:41-45 | the line-numbers stylesheet is `…/plugins/line-numbers/prism-line-numbers.min.css` |
| PrismPlugin.DataUriSlug | Sources/HTMLPrism/Prism.Plugin.swift:125-128 | `Data-URI Highlight` becomes `data-uri-highlight` |
| PrismTokenType.RankRoundTrip | Sources/HTMLPrism/Prism.Theme.swift:92-125 | numbering the 33 token types by raw-value order and reading a number back returns the token type |
| PrismTokenType.OfRankRoundTrip | Sources/HTMLPrism/Prism.Theme.swift:92-125 | every position 0..32 belongs to exactly one token type |
| PrismTokenType.NeighboursOrdered | Sources/HTMLPrism/Prism.Theme.swift:92-125 | each token type's raw value is byte-wise less than the next one's |
| PrismTokenType.RankOrdered | Sources/HTMLPrism/Prism.Theme.swift:92-125 | a lower position means a smaller raw value |
| PrismTokenType.RankMatchesRawValueOrder | Sources/HTMLPrism/Prism.Theme.swift:156 | position order and raw-value order agree in both directions |
| PrismTokenType.RawValuesDistinct | Sources/HTMLPrism/Prism.Theme.swift:92-129 | different token types have different raw values and different selectors `.token.<raw>` |
| PrismTokenType.SortedKeys | Sources/HTMLPrism/Prism.Theme.swift:156 | the keys `build` visits: exactly the styled token types, each once, in strictly ascending position |
| PrismTokenType.SortedKeysAscending | Sources/HTMLPrism/Prism.Theme.swift:156 | those keys are in strictly ascending raw-value order, as `sorted { $0.key.rawValue < $1.key.rawValue }` promises |
| PrismTokenType.RanksAscendUnique | Sources/HTMLPrism/Prism.Theme.swift:156 | two ascending lists with the same members are equal, so the sort's result is determined by the set of keys |
| PrismTokenType.AscendingIsUnique | Sources/HTMLPrism/Prism.Theme.swift:156-159 | any list of the styled token types in strictly ascending raw-value order is the list `build` visits |
| PrismTheme.CssURLIsThemeFile | Sources/HTMLPrism/Prism.Theme.swift:13-32 | both branches of `cssURL` give `…/themes/` + `cssFileName`: the default theme's special case agrees with the general rule |
| PrismTheme.DefaultThemeURL | Sources/HTMLPrism/Prism.Theme.swift:26-32 | the default theme's URL ends in `themes/prism.min.css`, okaidia's in `themes/prism-okaidia.min.css` |
| PrismTheme.TokenStyle.CssString | Sources/HTMLPrism/Prism.Theme.swift:68-88 | appending present fields one at a time and joining with `; ` gives the declarations of the present fields in field order |
| PrismTheme.DeclarationsOfPresentFields | Sources/HTMLPrism/Prism.Theme.swift:68-88 | one declaration per present field; the CSS is empty exactly when no field is present; colour comes first and text decoration last when present |
| PrismTheme.FullStyleCss | Sources/HTMLPrism/Prism.Theme.swift:68-88 | with all five fields, the text is `color: …; background-color: …; font-weight: …; font-style: …; text-decoration: …` |
| PrismTheme.TokenLinesAppend | Sources/HTMLPrism/Prism.Theme.swift:157-159 | the rules for a concatenation of keys are the rules of each part, in order |
| PrismTheme.TokenLinesStep | Sources/HTMLPrism/Prism.Theme.swift:157-159 | one more key adds exactly that key's `<selector> { <css> }\n` line at the end |
| PrismTheme.TokenLinesShape | Sources/HTMLPrism/Prism.Theme.swift:156-159 | the rules are empty exactly when no token type is styled, and otherwise end with a newline |
| PrismTheme.ThemeCssShape | Sources/HTMLPrism/Prism.Theme.swift:152-165 | the CSS starts with the base styles and a newline; it ends with the dark-mode media block exactly when dark-mode text is given; without it, it is the base plus the token rules |
| PrismTheme.EmptyTheme | Sources/HTMLPrism/Prism.Theme.swift:152-165 | no token styles and no dark-mode text give exactly the base styles and a newline |
| PrismTheme.SingleStyleTheme | Sources/HTMLPrism/Prism.Theme.swift:152-159 | a table with one entry gives the base, a newline and that entry's one rule |
| PrismTheme.AppendTokenRules | Sources/HTMLPrism/Prism.Theme.swift:157-159 | the loop appends exactly the rules of the given keys, in order |
| PrismTheme.ThemeBuilder.constructor | Sources/HTMLPrism/Prism.Theme.swift:134-138 | a new builder has no token styles and empty base and dark-mode text |
| PrismTheme.ThemeBuilder.SetTokenStyle | Sources/HTMLPrism/Prism.Theme.swift:140-142 | the style replaces any earlier one for that token type only; the other fields are unchanged |
| PrismTheme.ThemeBuilder.SetBaseStyles | Sources/HTMLPrism/Prism.Theme.swift:144-146 | the base styles are replaced, not appended to; nothing else changes |
| PrismTheme.ThemeBuilder.SetDarkModeStyles | Sources/HTMLPrism/Prism.Theme.swift:148-150 | the dark-mode text is replaced; nothing else changes |
| PrismTheme.ThemeBuilder.Build | Sources/HTMLPrism/Prism.Theme.swift:152-168 | returns a theme with the given name and the CSS of the current table; it modifies nothing, so repeated calls agree |
| PrismTheme.SetTokenStyleOrder | Sources/HTMLPrism/Prism.Theme.swift:140-159 | setting two token types in either order gives the same CSS; setting one twice keeps the second style |
| PrismTheme.ColorRule | Sources/HTMLPrism/Prism.Theme.swift:68-88 | a colour-only style renders as `.token.<raw> { color: <hex> }` |
| PrismTheme.BuildSwiftTheme | Sources/HTMLPrism/Prism.Theme.swift:173-203 | six `setTokenStyle` calls and `build(name: "swift")` give the `swift` theme |
| PrismTheme.SwiftThemeOrder | Sources/HTMLPrism/Prism.Theme.swift:174-203 | the `swift` theme writes class-name, comment, function, keyword, number, string in that order, not in insertion order |
| Html.RenderAppend | Sources/HTMLPrism/Prism.swift:138-157 | the text of a concatenation of pieces is the texts one after the other |
| Html.ScriptCountAppend | Sources/HTMLPrism/Prism.swift:110-134 | script counts add up over concatenation |
| Html.ScriptCountOfParts | Sources/HTMLPrism/Prism.swift:110-134 | non-script nodes followed by scripts count as many scripts as there are |
| PrismHead.DefaultHead | Sources/HTMLPrism/Prism.swift:26-42 | a configuration left at every default gives exactly four nodes: the default theme's stylesheet, the default styles alone, the core script of version 1.29.0 and a script that only highlights |
| PrismHead.CustomStylesAndScripts | Sources/HTMLPrism/Prism.swift:26-42 | custom styles given alone follow the default styles and nothing else; custom scripts given alone follow the highlight call on a new line, before the closing |
| PrismHead.ThemeNode | Sources/HTMLPrism/Prism.swift:64-76 | the theme node is never a script, and it is a stylesheet link exactly for a built-in theme |
| PrismHead.CoreScript | Sources/HTMLPrism/Prism.swift:110-113 | the core script is deferred and loads from the CDN at the configured version |
| PrismHead.PluginStylesheets | Sources/HTMLPrism/Prism.swift:79-86 | no more links than plugins, and every one a `stylesheet` link |
| PrismHead.PluginStylesheetsAppend | Sources/HTMLPrism/Prism.swift:79-86 | links come out in plugin order: the links of a concatenation are the links of each part |
| PrismHead.PluginStylesheetsMembers | Sources/HTMLPrism/Prism.swift:79-86 | a stylesheet is linked exactly when some plugin's CSS URL is that stylesheet |
| PrismHead.PluginStylesheetsCount | Sources/HTMLPrism/Prism.swift:79-86 | every plugin gets a link exactly when every plugin names a CSS file |
| PrismHead.PluginScriptsMembers | Sources/HTMLPrism/Prism.swift:116-121 | a plugin script URL is loaded exactly when some configured plugin has it as its script URL; there is one script per plugin, duplicates included |
| PrismHead.ComponentURLInjective | Sources/HTMLPrism/Prism.swift:124-129 | two languages load the same grammar URL exactly when they are the same language |
| PrismHead.LanguageScriptsMembers | Sources/HTMLPrism/Prism.swift:124-129 | a language's grammar is loaded exactly when the language is configured; there is one script per configured entry |
| PrismHead.HeadScripts | Sources/HTMLPrism/Prism.swift:110-129 | every script of the head loaded from a URL (core, plugins, languages) is deferred and comes from the CDN at the configured version |
| PrismHead.StyleBlockFlags | Sources/HTMLPrism/Prism.swift:89-107 | default styles first; line-highlight styles exactly when a plugin is named `Line Highlight`; diff styles exactly with diff; Swift styles exactly with Swift; the custom styles verbatim exactly when given |
| PrismHead.StyleBlockOrder | Sources/HTMLPrism/Prism.swift:89-107 | the blocks come in the fixed order; with no flag set the block is the default styles alone |
| PrismHead.BuildInitializationScript | Sources/HTMLPrism/Prism.swift:137-158 | growing the script piece by piece gives the opening, the Swift enhancements with Swift, the custom scripts after a newline, and the closing |
| PrismHead.InitScriptShape | Sources/HTMLPrism/Prism.swift:137-158 | the opening comes first and the closing last; the Swift block is there exactly with Swift; the custom scripts come just before the closing |
| PrismHead.HighlightCallIffAuto | Sources/HTMLPrism/Prism.swift:141 | the opening holds `Prism.highlightAll();` exactly when automatic highlighting is on |
| PrismHead.InitScriptText | Sources/HTMLPrism/Prism.swift:137-158 | whatever the stock blocks say, the script text starts with the opening (with the highlight call when it is on) and ends with `  }\n});` |
| PrismHead.BodyFront | Sources/HTMLPrism/Prism.swift:62-113 | the head starts with the theme node, the plugin stylesheets, the style block and the core script, in that order |
| PrismHead.BodyBack | Sources/HTMLPrism/Prism.swift:110-134 | then come the plugin scripts, the language scripts and the init script, and nothing else |
| PrismHead.FirstNode | Sources/HTMLPrism/Prism.swift:64-76 | the first node is a link to the built-in theme's stylesheet, the custom theme's CSS, or the text `<!-- No theme -->` |
| PrismHead.ThemeOnlyAffectsFirstNode | Sources/HTMLPrism/Prism.swift:64-134 | changing the theme option changes the first node and nothing after it |
| PrismHead.BodyScriptCount | Sources/HTMLPrism/Prism.swift:110-134 | the head has exactly 2 + plugins + languages scripts |
| PrismHead.NoPluginsNoPluginNodes | Sources/HTMLPrism/Prism.swift:79-121 | without plugins there are no plugin links, no plugin scripts and no line-highlight styles |
| PrismHead.MinimalHeadLinks | Sources/HTMLPrism/Prism.swift:471-475 | the minimal head links the default theme, then the line-numbers and line-highlight stylesheets |
| PrismHead.MinimalHeadText | Sources/HTMLPrism/Prism.swift:471-475 | its style block adds only the line-highlight styles; its script only highlights |
| PrismHead.MinimalHeadCounts | Sources/HTMLPrism/Prism.swift:471-475 | it has 11 nodes, 7 of them scripts |
| PrismHead.StandardHeadLinks | Sources/HTMLPrism/Prism.swift:477-481 | the standard head links okaidia, and only two stylesheets for three plugins |
| PrismHead.StandardHeadCounts | Sources/HTMLPrism/Prism.swift:477-481 | it has 20 nodes, 16 of them scripts |
| PrismHead.SwiftHeadTheme | Sources/HTMLPrism/Prism.swift:499-508 | the Swift head puts the `swift` theme's CSS inline |
| PrismHead.SwiftHeadText | Sources/HTMLPrism/Prism.swift:499-508 | its style block has the default, line-highlight and Swift styles; its script highlights, then runs the Swift enhancements |
| PrismHead.SwiftPresetText | Sources/HTMLPrism/Prism.swift:499-508 | the same for any configuration with the Swift preset's languages and plugins |
| PrismHead.SwiftHeadCounts | Sources/HTMLPrism/Prism.swift:499-508 | it loads 18 scripts |
| PrismCodeBlock.DefaultBlock | Sources/HTMLPrism/Prism.swift:326-342 | a block left at every initializer default is a bare `pre` (no class, no attributes, no title wrapper) around a `language-none` code element |
| PrismCodeBlock.Spelling | Sources/HTMLPrism/Prism.swift:375-404 | every attribute name begins with `data-` |
| PrismCodeBlock.SpellingInjective | Sources/HTMLPrism/Prism.swift:375-404 | the six attribute names are spelled differently |
| PrismCodeBlock.AppendAttribute | Sources/HTMLPrism/Prism.swift:378-401 | one conditional `append`: adds `name="value"` exactly when there is a value |
| PrismCodeBlock.BuildDataAttributes | Sources/HTMLPrism/Prism.swift:375-404 | the method's string is the space-joined rendering of the attribute list |
| PrismCodeBlock.AppendCommandLine | Sources/HTMLPrism/Prism.swift:387-401 | the command-line part appends user, host, output and prompt, each under its condition |
| PrismCodeBlock.RenderedAppend | Sources/HTMLPrism/Prism.swift:375-404 | rendering a concatenation of attributes renders the parts in order |
| PrismCodeBlock.DataAttributeNames | Sources/HTMLPrism/Prism.swift:375-404 | the attribute names are the line, start and command-line names, each under its condition, in that order |
| PrismCodeBlock.LineAndStartPresence | Sources/HTMLPrism/Prism.swift:378-385 | `data-line` is there exactly when lines are highlighted; `data-start` exactly when numbering does not start at 1 |
| PrismCodeBlock.LineAndStartValues | Sources/HTMLPrism/Prism.swift:378-385 | `data-line` comes first and lists the lines comma-separated in the given order; `data-start` holds the start number |
| PrismCodeBlock.CommandLinePresence | Sources/HTMLPrism/Prism.swift:387-401 | each command-line attribute is there exactly when command-line options are given and its option is set; `data-output` needs output lines |
| PrismCodeBlock.CommandLineMembers | Sources/HTMLPrism/Prism.swift:387-401 | given command-line options, each of `data-user`, `data-host`, `data-output` and `data-prompt` is produced exactly when its option is set, `data-output` when there are output lines |
| PrismCodeBlock.AttributesInOrder | Sources/HTMLPrism/Prism.swift:375-404 | the attributes come in the fixed order line, start, user, host, output, prompt |
| PrismCodeBlock.AttributeTextShape | Sources/HTMLPrism/Prism.swift:403 | the attribute string is empty exactly when no attribute applies; otherwise it starts with the first `data-` name and ends with a quote, with no stray separator |
| PrismCodeBlock.NumberListSeparators | Sources/HTMLPrism/Prism.swift:380 | n highlighted lines give exactly n - 1 commas |
| PrismCodeBlock.CodeClassNone | Sources/HTMLPrism/Prism.swift:361-373 | the code class is `language-none` exactly when there is no language |
| PrismCodeBlock.NoAttributes | Sources/HTMLPrism/Prism.swift:375-404 | a block has no data attribute exactly when no line is highlighted, numbering starts at 1 and either there are no command-line options or none of them is set |
| PrismCodeBlock.ContentStructure | Sources/HTMLPrism/Prism.swift:361-373 | `pre` has class `line-numbers` exactly when lines are numbered; its attribute string is empty exactly when no attribute applies (as `NoAttributes` states it); its code element is the inline code of the same language and text, classed `language-none` exactly when there is no language |
| PrismCodeBlock.InlineCode | Sources/HTMLPrism/Prism.swift:441-446 | inline code is a code element holding the text unchanged, classed `language-none` exactly when there is no language |
| PrismCodeBlock.TitleWraps | Sources/HTMLPrism/Prism.swift:345-358 | a title wraps the untitled output in a `code-block-wrapper` div, after a `code-block-title` div holding the title; without a title the content stands alone |
| PrismCodeBlock.HighlightedLinesExample | Sources/HTMLPrism/Prism.swift:535-546 | `CodeBlock.javascript` with lines 2 and 3 highlighted gives `<pre class="line-numbers" data-line="2,3">` around `language-javascript` code |
| PrismCodeBlock.StartingLineBlock | Sources/HTMLPrism/Prism.swift:375-385 | the titled Swift example has the attributes line 1,3,5 and start 10, in that order |
| PrismCodeBlock.StartingLineExample | Sources/HTMLPrism/Prism.swift:375-385 | they render as `data-line="1,3,5" data-start="10"` |
| PrismCodeBlock.CommandLineBlock | Sources/HTMLPrism/Prism.swift:574-589 | `CodeBlock.bash` for `admin` on `server` with output lines 2, 3 has the user, host and output attributes, in that order |
| PrismCodeBlock.CommandLineExample | Sources/HTMLPrism/Prism.swift:387-404 | they render as `data-user="admin" data-host="server" data-output="2,3"` |
| PrismCodeBlock.FactoryAttributes | Sources/HTMLPrism/Prism.swift:521-609 | the language factories give at most `data-line`; `bash` gives only the command-line attributes it was given, never a prompt; `diff` and `json` give none |
| PrismCodeBlock.FactoryDefaults | Sources/HTMLPrism/Prism.swift:521-609 | with their defaults, the Swift, JavaScript, HTML and CSS factories number their lines and the bash, diff and JSON ones do not; none adds an attribute, not even bash, whose command-line options are all unset |
| PrismCodeBlock.InlineFactories | Sources/HTMLPrism/Prism.swift:612-630 | the inline factories classify as `language-swift` and `language-javascript`; inline code without a language is `language-none` |

## Left out

- The HTML builder library is not part of this model. The nodes are abstract
  (`Html.Node`), so rendering, attribute quoting and the escaping of `HTMLText` are
  not modelled. How the builder joins the strings of one `Style` block is not
  modelled either, so a style body is a list of pieces.
- The text of the five long CSS/JavaScript constants (`defaultStyles`,
  `lineHighlightStyles`, `diffStyles`, `swiftStyles`, `swiftEnhancements`) is not
  modelled. They are named blocks (`Html.StockText`), and the init script's text
  lemmas hold for any text of them.
- `Prism.Language` is defined outside these sources and is not part of this model.
  Its cases are the ones the sources and tests name. The web and data groups are
  the lists the presets' expected output shows. The scripting, system and mobile
  groups are unknown, so the `full` and `mobile` presets are not modelled.
- PrismLanguage.ClassNameIsNotNone: the rules `className = "language-" + id` and
  `cdnComponentPath = "prism-" + id + ".min.js"` are assumed for every case. The
  tests confirm them for a few languages only. This lemma, `IdInjective` and the
  "only if" half of `CodeClassNone` rest on that rule and on the closed list of cases.
- `HTMLColor`, `BackgroundColor`, `FontWeight`, `FontStyle` and `TextDecoration` live
  in another library. Each field of a `TokenStyle` holds its rendered text. For a
  colour that is the light variant, the one `cssString` uses, so the `swift` theme's
  dark colours are not modelled.
- `Prism.ThemeBuilder` is a Swift `struct` with `mutating`
  setters, modelled as a Dafny class. Assigning a builder in Swift copies it, while
  here two variables can share one builder, so value semantics are not captured.
- PrismPlugin.Slug: lower-cases ASCII letters only, not the full Unicode case
  mapping of `lowercased()`.
- The `@Dependency` lookup of the default configuration, and `DependencyKey`,
  are global environment state. `Head` takes its configuration explicitly, and the
  `Head.minimal` style accessors add nothing beyond the presets. The presets are
  constants, so their properties are stated by the `MinimalHead…`, `StandardHead…`
  and `SwiftHead…` lemmas.
- PrismTheme.SwiftThemeOrder: states the order of the six rules but not their full
  text. The literal CSS of the `swift` theme is beyond the solver's budget; its
  rules are `PrismTheme.ColorRule` instances.
- Swift integers are 64-bit. Line numbers here are unbounded integers, which
  changes nothing because the code only compares them with 1 and prints them.
- `Preview.swift`, `exports.swift` and `Package.swift` hold no logic.
