/**
 * `Prism.Head`: turns a `Configuration` into the ordered list of nodes that
 * goes into a page's head: the theme, plugin stylesheets, one style block,
 * the core, plugin and language scripts, and an initialization script.
 */
module PrismHead {
  import opened Optional
  import opened Html
  import opened Text
  import opened PrismLanguage
  import opened PrismPlugin
  import PrismTheme
  import Cdn

  // ---------------------------------------------------------------------------
  // Configuration
  // ---------------------------------------------------------------------------

  /** Where the highlighting colours come from. */
  datatype ThemeOption = Builtin(theme: PrismTheme.Theme) | Custom(customTheme: PrismTheme.CustomTheme) | NoTheme

  datatype Configuration = Configuration(
    languages: seq<Language>,
    plugins: seq<Plugin>,
    theme: ThemeOption,
    cdnVersion: string,
    autoHighlight: bool,
    customStyles: Option<string>,
    customScripts: Option<string>)

  /** The CDN version a configuration uses unless told otherwise. */
  const DefaultCdnVersion: string := "1.29.0"

  /** `Configuration.init`, with the initializer's default for every argument. */
  function Configure(languages: seq<Language> := [], plugins: seq<Plugin> := [],
                     theme: ThemeOption := Builtin(PrismTheme.Default), cdnVersion: string := DefaultCdnVersion,
                     autoHighlight: bool := true, customStyles: Option<string> := None,
                     customScripts: Option<string> := None): Configuration
  {
    Configuration(languages, plugins, theme, cdnVersion, autoHighlight, customStyles, customScripts)
  }

  // ---------------------------------------------------------------------------
  // The parts of the head
  // ---------------------------------------------------------------------------

  const Stylesheet: string := "stylesheet"
  const NoThemeComment: string := "<!-- No theme -->"

  /** The first node: the theme's stylesheet, its literal CSS, or a comment when there is none. */
  function ThemeNode(theme: ThemeOption, cdnVersion: string): (r: Node)
    ensures !IsScript(r)
    ensures r.Link? <==> theme.Builtin?
  {
    match theme
    case Builtin(t) => Link(PrismTheme.CssURL(t, cdnVersion), Stylesheet)
    case Custom(c) => Style([Literal(c.styles)])
    case NoTheme => Text(NoThemeComment)
  }

  /** One stylesheet link per plugin that has a stylesheet, in the plugins' order. */
  function PluginStylesheets(plugins: seq<Plugin>, cdnVersion: string): (r: seq<Node>)
    ensures |r| <= |plugins|
    ensures forall i :: 0 <= i < |r| ==> r[i].Link? && r[i].rel == Stylesheet
  {
    if plugins == [] then []
    else
      PluginStylesheets(plugins[..|plugins| - 1], cdnVersion)
      + match CssURL(plugins[|plugins| - 1], cdnVersion) {
          case None => []
          case Some(u) => [Link(u, Stylesheet)]
        }
  }

  /** Whether some plugin is named exactly `Line Highlight`. */
  predicate HasLineHighlight(plugins: seq<Plugin>)
  {
    exists p :: p in plugins && p.name == LineHighlightName
  }

  /** The pieces of the style block: the default styles, then each optional block under its condition. */
  function StylePieces(c: Configuration): seq<Piece>
  {
    [Stock(DefaultStyles)]
    + (if HasLineHighlight(c.plugins) then [Stock(LineHighlightStyles)] else [])
    + (if Diff in c.languages then [Stock(DiffStyles)] else [])
    + (if Swift in c.languages then [Stock(SwiftStyles)] else [])
    + (match c.customStyles { case Some(s) => [Literal(s)] case None => [] })
  }

  /** The deferred script that loads the highlighter itself. */
  function CoreScript(cdnVersion: string): (r: Node)
    ensures r.Script? && r.deferred
    ensures Cdn.Root + cdnVersion <= r.src
  {
    Script(Cdn.Root + cdnVersion + "/prism.min.js", true)
  }

  /** One deferred script per plugin, in order. */
  function PluginScripts(plugins: seq<Plugin>, cdnVersion: string): (r: seq<Node>)
    ensures |r| == |plugins|
    ensures forall i :: 0 <= i < |r| ==> r[i] == Script(ScriptURL(plugins[i], cdnVersion), true)
  {
    seq(|plugins|, i requires 0 <= i < |plugins| => Script(ScriptURL(plugins[i], cdnVersion), true))
  }

  /** The URL of a language's grammar on the CDN. */
  function ComponentURL(l: Language, cdnVersion: string): string
  {
    Cdn.Root + cdnVersion + "/components/" + CdnComponentPath(l)
  }

  /** One deferred script per language, in order, repeated languages included. */
  function LanguageScripts(languages: seq<Language>, cdnVersion: string): (r: seq<Node>)
    ensures |r| == |languages|
    ensures forall i :: 0 <= i < |r| ==> r[i] == Script(ComponentURL(languages[i], cdnVersion), true)
  {
    seq(|languages|, i requires 0 <= i < |languages| => Script(ComponentURL(languages[i], cdnVersion), true))
  }

  // ---------------------------------------------------------------------------
  // The initialization script
  // ---------------------------------------------------------------------------

  /** The opening of the script: wait for the page, then check the highlighter loaded. */
  const InitPrologue: string :=
    "document.addEventListener(\"DOMContentLoaded\", function () {\n  if (typeof Prism !== \"undefined\") {\n    "
  const HighlightAll: string := "Prism.highlightAll();"
  const InitEpilogue: string := "  }\n});"

  /** The first piece of the script: the prologue, with the highlight call when it is enabled. */
  function InitOpening(autoHighlight: bool): string
  {
    InitPrologue + (if autoHighlight then HighlightAll else "")
  }

  /** The pieces of the script: the opening, the Swift enhancements, the custom scripts, the closing. */
  function InitScript(c: Configuration): seq<Piece>
  {
    [Literal(InitOpening(c.autoHighlight))]
    + (if Swift in c.languages then [Stock(SwiftEnhancements)] else [])
    + (match c.customScripts { case Some(s) => [Literal("\n" + s)] case None => [] })
    + [Literal(InitEpilogue)]
  }

  /** `buildInitializationScript`: grows the script one piece at a time. */
  method BuildInitializationScript(c: Configuration) returns (script: seq<Piece>)
    ensures script == InitScript(c)
  {
    script := [Literal(InitPrologue + (if c.autoHighlight then HighlightAll else ""))];
    if Swift in c.languages {
      script := script + [Stock(SwiftEnhancements)];
    }
    if c.customScripts.Some? {
      script := script + [Literal("\n" + c.customScripts.value)];
    }
    script := script + [Literal(InitEpilogue)];
  }

  // ---------------------------------------------------------------------------
  // The head
  // ---------------------------------------------------------------------------

  /** `Head.body`: every node of the head, in document order. */
  function Body(c: Configuration): seq<Node>
  {
    [ThemeNode(c.theme, c.cdnVersion)] + AfterTheme(c)
  }

  /** The nodes after the theme node. */
  function AfterTheme(c: Configuration): seq<Node>
  {
    PluginStylesheets(c.plugins, c.cdnVersion)
    + [Style(StylePieces(c)), CoreScript(c.cdnVersion)]
    + PluginScripts(c.plugins, c.cdnVersion)
    + LanguageScripts(c.languages, c.cdnVersion)
    + [InlineScript(InitScript(c))]
  }

  // ---------------------------------------------------------------------------
  // Properties of the parts
  // ---------------------------------------------------------------------------

  /** Stylesheet links follow the plugins' order: the links of a concatenation are concatenated. */
  lemma {:induction false} PluginStylesheetsAppend(xs: seq<Plugin>, ys: seq<Plugin>, cdnVersion: string)
    ensures PluginStylesheets(xs + ys, cdnVersion) == PluginStylesheets(xs, cdnVersion) + PluginStylesheets(ys, cdnVersion)
    decreases |ys|
  {
    if ys == [] {
      assert xs + ys == xs;
    } else {
      var zs := ys[..|ys| - 1];
      assert (xs + ys)[..|xs + ys| - 1] == xs + zs;
      PluginStylesheetsAppend(xs, zs, cdnVersion);
    }
  }

  /** A stylesheet is linked exactly when some plugin has it as its stylesheet URL. */
  lemma {:induction false} PluginStylesheetsMembers(plugins: seq<Plugin>, cdnVersion: string, u: string)
    ensures Link(u, Stylesheet) in PluginStylesheets(plugins, cdnVersion)
        <==> exists p :: p in plugins && CssURL(p, cdnVersion) == Some(u)
    decreases |plugins|
  {
    if plugins != [] {
      var init := plugins[..|plugins| - 1];
      var last := plugins[|plugins| - 1];
      assert plugins == init + [last];
      PluginStylesheetsMembers(init, cdnVersion, u);
    }
  }

  /** Every plugin gets a stylesheet link exactly when every plugin names a stylesheet. */
  lemma {:induction false} PluginStylesheetsCount(plugins: seq<Plugin>, cdnVersion: string)
    ensures |PluginStylesheets(plugins, cdnVersion)| == |plugins|
        <==> forall i :: 0 <= i < |plugins| ==> plugins[i].cssFileName.Some?
    decreases |plugins|
  {
    if plugins != [] {
      var init := plugins[..|plugins| - 1];
      PluginStylesheetsCount(init, cdnVersion);
      assert forall i :: 0 <= i < |init| ==> init[i] == plugins[i];
    }
  }

  /** The order of the style block's pieces: the default styles first, the custom styles last. */
  function PieceRank(p: Piece): nat
  {
    match p
    case Stock(DefaultStyles) => 0
    case Stock(LineHighlightStyles) => 1
    case Stock(DiffStyles) => 2
    case Stock(SwiftStyles) => 3
    case Stock(SwiftEnhancements) => 4
    case Literal(_) => 5
  }

  /** The style block's flag rules: each optional block is there exactly when its condition holds. */
  lemma StyleBlockFlags(c: Configuration)
    ensures var pieces := StylePieces(c);
      && pieces[0] == Stock(DefaultStyles)
      && (Stock(LineHighlightStyles) in pieces <==> HasLineHighlight(c.plugins))
      && (Stock(DiffStyles) in pieces <==> Diff in c.languages)
      && (Stock(SwiftStyles) in pieces <==> Swift in c.languages)
      && (forall s :: Literal(s) in pieces <==> c.customStyles == Some(s))
      && Stock(SwiftEnhancements) !in pieces
  {
  }

  /** The blocks come in a fixed order, and absent blocks leave nothing behind. */
  lemma StyleBlockOrder(c: Configuration)
    ensures var pieces := StylePieces(c);
      forall i, j :: 0 <= i < j < |pieces| ==> PieceRank(pieces[i]) < PieceRank(pieces[j])
    ensures !HasLineHighlight(c.plugins) && Diff !in c.languages && Swift !in c.languages && c.customStyles == None
      ==> StylePieces(c) == [Stock(DefaultStyles)]
  {
  }

  /** The script's pieces: the opening, the Swift block under its flag, the custom scripts after it, the closing. */
  lemma InitScriptShape(c: Configuration)
    ensures var script := InitScript(c);
      && script[0] == Literal(InitOpening(c.autoHighlight))
      && script[|script| - 1] == Literal(InitEpilogue)
      && (Stock(SwiftEnhancements) in script <==> Swift in c.languages)
      && (c.customScripts.Some? ==> script[|script| - 2] == Literal("\n" + c.customScripts.value))
      && |script| == 2 + (if Swift in c.languages then 1 else 0) + (if c.customScripts.Some? then 1 else 0)
  {
  }

  /** The highlight call is part of the opening exactly when automatic highlighting is on. */
  lemma HighlightCallIffAuto(autoHighlight: bool)
    ensures InitOpening(autoHighlight) == InitPrologue + HighlightAll <==> autoHighlight
    ensures InitOpening(autoHighlight) == InitPrologue <==> !autoHighlight
  {
    assert |InitPrologue + HighlightAll| != |InitPrologue|;
  }

  /**
   * Whatever the stock blocks say, the script's text starts with the opening
   * (guard and, when enabled, the highlight call) and ends with the closing.
   */
  lemma InitScriptText(c: Configuration, stock: StockText -> string)
    ensures InitOpening(c.autoHighlight) <= Render(InitScript(c), stock)
    ensures var text := Render(InitScript(c), stock);
      |InitEpilogue| <= |text| && text[|text| - |InitEpilogue|..] == InitEpilogue
  {
    var script := InitScript(c);
    var head := [Literal(InitOpening(c.autoHighlight))];
    var middle := script[1..|script| - 1];
    var tail := [Literal(InitEpilogue)];
    assert script == head + middle + tail;
    RenderAppend(head + middle, tail, stock);
    RenderAppend(head, middle, stock);
    assert Render(head, stock) == InitOpening(c.autoHighlight) by {
      assert head[..0] == [];
    }
    assert Render(tail, stock) == InitEpilogue by {
      assert tail[..0] == [];
    }
    AppendParts(Render(head, stock), Render(middle, stock));
    AppendParts(Render(head + middle, stock), InitEpilogue);
    AppendParts(Render(head, stock) + Render(middle, stock), InitEpilogue);
  }

  // ---------------------------------------------------------------------------
  // Properties of the head
  // ---------------------------------------------------------------------------

  /** The head, cut after the core script. */
  lemma BodyParts(c: Configuration)
    ensures Body(c)
         == [ThemeNode(c.theme, c.cdnVersion)] + PluginStylesheets(c.plugins, c.cdnVersion)
            + [Style(StylePieces(c)), CoreScript(c.cdnVersion)]
            + (PluginScripts(c.plugins, c.cdnVersion) + LanguageScripts(c.languages, c.cdnVersion) + [InlineScript(InitScript(c))])
  {
    Regroup([ThemeNode(c.theme, c.cdnVersion)], PluginStylesheets(c.plugins, c.cdnVersion),
            [Style(StylePieces(c)), CoreScript(c.cdnVersion)], PluginScripts(c.plugins, c.cdnVersion),
            LanguageScripts(c.languages, c.cdnVersion), [InlineScript(InitScript(c))]);
  }

  /** Regrouping the six parts of the head. */
  lemma Regroup(a: seq<Node>, b: seq<Node>, c: seq<Node>, d: seq<Node>, e: seq<Node>, f: seq<Node>)
    ensures a + (b + c + d + e + f) == a + b + c + (d + e + f)
  {
  }

  /** Regrouping the six parts of the head, cutting the two-node third part in the middle. */
  lemma RegroupPair(a: seq<Node>, b: seq<Node>, c: seq<Node>, d: seq<Node>, e: seq<Node>, f: seq<Node>)
    requires |c| == 2
    ensures a + (b + c + d + e + f) == a + b + [c[0]] + ([c[1]] + d + e + f)
  {
    assert c == [c[0]] + [c[1]];
  }

  /**
   * The front of the head: the theme node, the plugin stylesheets, the style
   * block and the core script, in that order.
   */
  lemma BodyFront(c: Configuration)
    ensures var body := Body(c);
      var links := PluginStylesheets(c.plugins, c.cdnVersion);
      var k := |links|;
      && |body| >= 4 + k
      && body[0] == ThemeNode(c.theme, c.cdnVersion)
      && body[1..1 + k] == links
      && body[1 + k] == Style(StylePieces(c))
      && body[2 + k] == CoreScript(c.cdnVersion)
  {
    BodyParts(c);
    Front(ThemeNode(c.theme, c.cdnVersion), PluginStylesheets(c.plugins, c.cdnVersion), Style(StylePieces(c)), CoreScript(c.cdnVersion),
          PluginScripts(c.plugins, c.cdnVersion) + LanguageScripts(c.languages, c.cdnVersion) + [InlineScript(InitScript(c))]);
  }

  /**
   * The back of the head: after the core script, the plugin scripts, the
   * language scripts and the initialization script, and nothing else.
   */
  lemma BodyBack(c: Configuration)
    ensures var body := Body(c);
      var k := |PluginStylesheets(c.plugins, c.cdnVersion)|;
      var p := |c.plugins|;
      && |body| == 4 + k + p + |c.languages|
      && body[3 + k..3 + k + p] == PluginScripts(c.plugins, c.cdnVersion)
      && body[3 + k + p..|body| - 1] == LanguageScripts(c.languages, c.cdnVersion)
      && body[|body| - 1] == InlineScript(InitScript(c))
  {
    BodyParts(c);
    var first := [ThemeNode(c.theme, c.cdnVersion)] + PluginStylesheets(c.plugins, c.cdnVersion)
                 + [Style(StylePieces(c)), CoreScript(c.cdnVersion)];
    Back(first, PluginScripts(c.plugins, c.cdnVersion), LanguageScripts(c.languages, c.cdnVersion), InlineScript(InitScript(c)));
  }

  /** Where the parts of `[theme] + links + [style, core] + rest` sit. */
  lemma Front(theme: Node, links: seq<Node>, style: Node, core: Node, rest: seq<Node>)
    ensures var all := [theme] + links + [style, core] + rest;
      var k := |links|;
      && |all| == 3 + k + |rest|
      && all[0] == theme
      && all[1..1 + k] == links
      && all[1 + k] == style
      && all[2 + k] == core
  {
    var all := [theme] + links + [style, core] + rest;
    assert all[1..1 + |links|] == links;
  }

  /** Where the parts of `first + (middle + rest + [last])` sit. */
  lemma Back(first: seq<Node>, middle: seq<Node>, rest: seq<Node>, last: Node)
    ensures var all := first + (middle + rest + [last]);
      && |all| == |first| + |middle| + |rest| + 1
      && all[|first|..|first| + |middle|] == middle
      && all[|first| + |middle|..|all| - 1] == rest
      && all[|all| - 1] == last
  {
    var all := first + (middle + rest + [last]);
    assert all[|first|..|first| + |middle|] == middle;
    assert all[|first| + |middle|..|all| - 1] == rest;
  }

  /** The first node is the theme's: its stylesheet link, its literal CSS, or the no-theme comment. */
  lemma FirstNode(c: Configuration)
    ensures c.theme.Builtin? ==>
      Body(c)[0] == Link(Cdn.Root + c.cdnVersion + "/themes/" + PrismTheme.CssFileName(c.theme.theme), Stylesheet)
    ensures c.theme.Custom? ==> Body(c)[0] == Style([Literal(c.theme.customTheme.styles)])
    ensures c.theme == NoTheme ==> Body(c)[0] == Text(NoThemeComment)
  {
    if c.theme.Builtin? {
      PrismTheme.CssURLIsThemeFile(c.theme.theme, c.cdnVersion);
    }
  }

  /** Changing the theme changes the first node and nothing after it. */
  lemma ThemeOnlyAffectsFirstNode(c: Configuration, theme: ThemeOption)
    ensures Body(c.(theme := theme))[1..] == Body(c)[1..]
  {
    var d := c.(theme := theme);
    assert StylePieces(d) == StylePieces(c);
    assert InitScript(d) == InitScript(c);
    var rest := AfterTheme(c);
    assert Body(c)[1..] == rest;
    assert Body(d)[1..] == AfterTheme(d);
  }

  /** Exactly two scripts besides one per plugin and one per language: the core and the initialization script. */
  lemma BodyScriptCount(c: Configuration)
    ensures ScriptCount(Body(c)) == 2 + |c.plugins| + |c.languages|
  {
    var links := PluginStylesheets(c.plugins, c.cdnVersion);
    var front := [ThemeNode(c.theme, c.cdnVersion)] + links + [Style(StylePieces(c))];
    var scripts := PluginScripts(c.plugins, c.cdnVersion);
    var languages := LanguageScripts(c.languages, c.cdnVersion);
    var core := [CoreScript(c.cdnVersion)];
    var init := [InlineScript(InitScript(c))];
    var rest := core + scripts + languages + init;
    RegroupPair([ThemeNode(c.theme, c.cdnVersion)], links, [Style(StylePieces(c)), CoreScript(c.cdnVersion)], scripts, languages, init);
    assert Body(c) == front + rest;
    assert forall i :: 0 <= i < |front| ==> !IsScript(front[i]);
    ScriptCountOfParts(front, rest);
  }

  /** Without plugins there are no plugin stylesheets and no plugin scripts. */
  lemma NoPluginsNoPluginNodes(c: Configuration)
    requires c.plugins == []
    ensures Body(c) == [ThemeNode(c.theme, c.cdnVersion), Style(StylePieces(c)), CoreScript(c.cdnVersion)]
                       + LanguageScripts(c.languages, c.cdnVersion) + [InlineScript(InitScript(c))]
    ensures Stock(LineHighlightStyles) !in StylePieces(c)
  {
    assert PluginStylesheets(c.plugins, c.cdnVersion) == [];
    assert PluginScripts(c.plugins, c.cdnVersion) == [];
    StyleBlockFlags(c);
  }

  /** A plugin's script is loaded exactly when the plugin is configured, one script per plugin. */
  lemma PluginScriptsMembers(plugins: seq<Plugin>, cdnVersion: string, u: string)
    ensures Script(u, true) in PluginScripts(plugins, cdnVersion)
        <==> exists p :: p in plugins && ScriptURL(p, cdnVersion) == u
    ensures ScriptCount(PluginScripts(plugins, cdnVersion)) == |plugins|
  {
    var r := PluginScripts(plugins, cdnVersion);
    if Script(u, true) in r {
      var i :| 0 <= i < |r| && r[i] == Script(u, true);
      assert plugins[i] in plugins;
    }
    if exists p :: p in plugins && ScriptURL(p, cdnVersion) == u {
      var p :| p in plugins && ScriptURL(p, cdnVersion) == u;
      var i :| 0 <= i < |plugins| && plugins[i] == p;
      assert r[i] == Script(u, true);
    }
    ScriptCountAll(r);
  }

  /** Two languages share a grammar URL only when they are the same language. */
  lemma ComponentURLInjective(l: Language, m: Language, cdnVersion: string)
    ensures ComponentURL(l, cdnVersion) == ComponentURL(m, cdnVersion) <==> l == m
  {
    var dir := Cdn.Root + cdnVersion + "/components/";
    assert ComponentURL(l, cdnVersion)[|dir|..] == CdnComponentPath(l);
    assert ComponentURL(m, cdnVersion)[|dir|..] == CdnComponentPath(m);
    if l != m {
      IdInjective(l, m);
    }
  }

  /** A language's grammar is loaded exactly when the language is configured, one script per entry. */
  lemma LanguageScriptsMembers(languages: seq<Language>, cdnVersion: string, l: Language)
    ensures Script(ComponentURL(l, cdnVersion), true) in LanguageScripts(languages, cdnVersion) <==> l in languages
    ensures ScriptCount(LanguageScripts(languages, cdnVersion)) == |languages|
  {
    var r := LanguageScripts(languages, cdnVersion);
    if Script(ComponentURL(l, cdnVersion), true) in r {
      var i :| 0 <= i < |r| && r[i] == Script(ComponentURL(l, cdnVersion), true);
      ComponentURLInjective(languages[i], l, cdnVersion);
    }
    if l in languages {
      var i :| 0 <= i < |languages| && languages[i] == l;
      assert r[i] == Script(ComponentURL(l, cdnVersion), true);
    }
    ScriptCountAll(r);
  }

  /** Every script loaded from a URL is deferred and comes from the CDN at `cdnVersion`. */
  predicate DeferredFromCdn(nodes: seq<Node>, cdnVersion: string)
  {
    forall i :: 0 <= i < |nodes| && nodes[i].Script? ==> nodes[i].deferred && Cdn.Root + cdnVersion <= nodes[i].src
  }

  lemma DeferredFromCdnAppend(xs: seq<Node>, ys: seq<Node>, cdnVersion: string)
    requires DeferredFromCdn(xs, cdnVersion) && DeferredFromCdn(ys, cdnVersion)
    ensures DeferredFromCdn(xs + ys, cdnVersion)
  {
    var zs := xs + ys;
    forall i | 0 <= i < |zs| && zs[i].Script?
      ensures zs[i].deferred && Cdn.Root + cdnVersion <= zs[i].src
    {
      if i < |xs| {
        assert zs[i] == xs[i];
      } else {
        assert zs[i] == ys[i - |xs|];
      }
    }
  }

  /** The plugin and language scripts are deferred and come from the CDN at the configured version. */
  lemma ScriptListsFromCdn(plugins: seq<Plugin>, languages: seq<Language>, cdnVersion: string)
    ensures DeferredFromCdn(PluginScripts(plugins, cdnVersion), cdnVersion)
    ensures DeferredFromCdn(LanguageScripts(languages, cdnVersion), cdnVersion)
  {
    var root := Cdn.Root + cdnVersion;
    forall p: Plugin ensures root <= ScriptURL(p, cdnVersion) {
      assert ScriptURL(p, cdnVersion) == root + ("/plugins/" + Slug(p.name) + "/" + p.fileName);
      AppendParts(root, "/plugins/" + Slug(p.name) + "/" + p.fileName);
    }
    forall l: Language ensures root <= ComponentURL(l, cdnVersion) {
      assert ComponentURL(l, cdnVersion) == root + ("/components/" + CdnComponentPath(l));
      AppendParts(root, "/components/" + CdnComponentPath(l));
    }
  }

  /**
   * Every script of the head that is loaded from a URL (the core, each plugin's,
   * each language's) is deferred and comes from the CDN at the configured version.
   */
  lemma HeadScripts(c: Configuration)
    ensures DeferredFromCdn(Body(c), c.cdnVersion)
  {
    var v := c.cdnVersion;
    BodyParts(c);
    ScriptListsFromCdn(c.plugins, c.languages, v);
    var links := PluginStylesheets(c.plugins, v);
    var front := [ThemeNode(c.theme, v)] + links;
    DeferredFromCdnAppend([ThemeNode(c.theme, v)], links, v);
    DeferredFromCdnAppend(front, [Style(StylePieces(c)), CoreScript(v)], v);
    var scripts := PluginScripts(c.plugins, v) + LanguageScripts(c.languages, v);
    DeferredFromCdnAppend(PluginScripts(c.plugins, v), LanguageScripts(c.languages, v), v);
    DeferredFromCdnAppend(scripts, [InlineScript(InitScript(c))], v);
    DeferredFromCdnAppend(front + [Style(StylePieces(c)), CoreScript(v)], scripts + [InlineScript(InitScript(c))], v);
  }

  // ---------------------------------------------------------------------------
  // Presets
  // ---------------------------------------------------------------------------

  /** `Configuration.minimal`. */
  const Minimal: Configuration :=
    Configure(languages := [JavaScript, Css, Html], plugins := [LineNumbers, LineHighlight], theme := Builtin(PrismTheme.Default))

  /** `Configuration.standard`. */
  const Standard: Configuration :=
    Configure(languages := WebLanguages + DataLanguages, plugins := [LineNumbers, LineHighlight, CopyToClipboard],
              theme := Builtin(PrismTheme.Okaidia))

  /** `Configuration.swift`. */
  const SwiftConfiguration: Configuration :=
    Configure(languages := [Swift] + WebLanguages + DataLanguages,
              plugins := [LineNumbers, LineHighlight, CopyToClipboard, Toolbar],
              theme := Custom(PrismTheme.SwiftTheme))

  /** The minimal head links the default theme and both plugins' stylesheets, in order. */
  lemma MinimalHeadLinks()
    ensures Body(Minimal)[0] == Link(PrismTheme.CssURL(PrismTheme.Default, DefaultCdnVersion), Stylesheet)
    ensures PluginStylesheets(Minimal.plugins, DefaultCdnVersion)
         == [Link(CssURL(LineNumbers, DefaultCdnVersion).value, Stylesheet),
             Link(CssURL(LineHighlight, DefaultCdnVersion).value, Stylesheet)]
  {
    assert [LineNumbers, LineHighlight][..1] == [LineNumbers];
  }

  /** The minimal head's style block adds the line-highlight styles, and its script highlights on load. */
  lemma MinimalHeadText()
    ensures StylePieces(Minimal) == [Stock(DefaultStyles), Stock(LineHighlightStyles)]
    ensures InitScript(Minimal) == [Literal(InitPrologue + HighlightAll), Literal(InitEpilogue)]
  {
    assert LineHighlight in Minimal.plugins;
  }

  /** The minimal head has eleven nodes, seven of them scripts. */
  lemma MinimalHeadCounts()
    ensures |Body(Minimal)| == 11 && ScriptCount(Body(Minimal)) == 7
  {
    MinimalHeadLinks();
    BodyBack(Minimal);
    BodyScriptCount(Minimal);
  }

  /** The standard head links the okaidia theme, and only two stylesheets for three plugins. */
  lemma StandardHeadLinks()
    ensures Body(Standard)[0] == Link(Cdn.Root + DefaultCdnVersion + "/themes/" + "prism-okaidia.min.css", Stylesheet)
    ensures PluginStylesheets(Standard.plugins, DefaultCdnVersion)
         == [Link(CssURL(LineNumbers, DefaultCdnVersion).value, Stylesheet),
             Link(CssURL(LineHighlight, DefaultCdnVersion).value, Stylesheet)]
  {
    PrismTheme.DefaultThemeURL(DefaultCdnVersion);
    assert [LineNumbers, LineHighlight, CopyToClipboard][..2] == [LineNumbers, LineHighlight];
    MinimalHeadLinks();
  }

  /** The standard head has twenty nodes, sixteen of them scripts. */
  lemma StandardHeadCounts()
    ensures |Body(Standard)| == 20 && ScriptCount(Body(Standard)) == 16
  {
    StandardHeadLinks();
    BodyBack(Standard);
    BodyScriptCount(Standard);
  }

  /** The Swift head puts the `swift` custom theme's CSS inline. */
  lemma SwiftHeadTheme()
    ensures Body(SwiftConfiguration)[0] == Style([Literal(PrismTheme.SwiftTheme.styles)])
  {
  }

  /**
   * The Swift language switches on the Swift styles and enhancements; there
   * is no diff language, so no diff styles.
   */
  lemma SwiftHeadText()
    ensures StylePieces(SwiftConfiguration) == [Stock(DefaultStyles), Stock(LineHighlightStyles), Stock(SwiftStyles)]
    ensures InitScript(SwiftConfiguration)
         == [Literal(InitPrologue + HighlightAll), Stock(SwiftEnhancements), Literal(InitEpilogue)]
  {
    SwiftPresetText(SwiftConfiguration);
  }

  /** The text parts of any configuration with the Swift preset's languages and plugins. */
  lemma SwiftPresetText(c: Configuration)
    requires c.languages == [Swift] + WebLanguages + DataLanguages
    requires c.plugins == [LineNumbers, LineHighlight, CopyToClipboard, Toolbar]
    requires c.autoHighlight && c.customStyles == None && c.customScripts == None
    ensures StylePieces(c) == [Stock(DefaultStyles), Stock(LineHighlightStyles), Stock(SwiftStyles)]
    ensures InitScript(c) == [Literal(InitPrologue + HighlightAll), Stock(SwiftEnhancements), Literal(InitEpilogue)]
  {
    assert LineHighlight in c.plugins;
    GroupsLeaveOutSwiftAndDiff();
    assert c.languages == [Swift] + (WebLanguages + DataLanguages);
    assert Swift in c.languages;
  }

  /** The Swift head loads eighteen scripts: core, four plugins, twelve languages and the initialization. */
  lemma SwiftHeadCounts()
    ensures ScriptCount(Body(SwiftConfiguration)) == 18
  {
    BodyScriptCount(SwiftConfiguration);
  }

  /**
   * A configuration left at every default gives the default theme's stylesheet,
   * the default styles alone, the core script and a script that only highlights.
   */
  lemma DefaultHead()
    ensures Body(Configure())
         == [Link(PrismTheme.CssURL(PrismTheme.Default, DefaultCdnVersion), Stylesheet), Style([Stock(DefaultStyles)]),
             CoreScript(DefaultCdnVersion), InlineScript([Literal(InitPrologue + HighlightAll), Literal(InitEpilogue)])]
  {
    var c := Configure();
    assert PluginStylesheets(c.plugins, DefaultCdnVersion) == [];
    assert PluginScripts(c.plugins, DefaultCdnVersion) == [];
    assert LanguageScripts(c.languages, DefaultCdnVersion) == [];
    assert !HasLineHighlight(c.plugins);
    assert StylePieces(c) == [Stock(DefaultStyles)];
    assert InitScript(c) == [Literal(InitPrologue + HighlightAll), Literal(InitEpilogue)];
    assert AfterTheme(c) == [Style(StylePieces(c)), CoreScript(DefaultCdnVersion), InlineScript(InitScript(c))];
  }

  /**
   * Custom styles given alone come right after the default styles; custom
   * scripts given alone come after the highlight call, on a new line.
   */
  lemma CustomStylesAndScripts(styles: string, scripts: string)
    ensures StylePieces(Configure(customStyles := Some(styles))) == [Stock(DefaultStyles), Literal(styles)]
    ensures InitScript(Configure(customScripts := Some(scripts)))
         == [Literal(InitPrologue + HighlightAll), Literal("\n" + scripts), Literal(InitEpilogue)]
  {
    assert !HasLineHighlight([]);
  }
}
