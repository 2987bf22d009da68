/**
 * Themes: the built-in stylesheets on the CDN, custom themes made of literal
 * CSS, and the token-style builder that renders a custom theme's CSS in an
 * order that does not depend on the order styles were entered.
 */
module PrismTheme {
  import opened Optional
  import opened Text
  import opened PrismTokenType
  import Cdn

  // ---------------------------------------------------------------------------
  // Built-in themes
  // ---------------------------------------------------------------------------

  datatype Theme = Default | Dark | Funky | Okaidia | Twilight | Coy | SolarizedLight | Tomorrow

  /** The theme's raw value: the stem of its stylesheet's file name. */
  function ThemeRawValue(t: Theme): string
  {
    match t
    case Default => "prism"
    case Dark => "prism-dark"
    case Funky => "prism-funky"
    case Okaidia => "prism-okaidia"
    case Twilight => "prism-twilight"
    case Coy => "prism-coy"
    case SolarizedLight => "prism-solarizedlight"
    case Tomorrow => "prism-tomorrow"
  }

  /** `cssFileName`. */
  function CssFileName(t: Theme): string
  {
    ThemeRawValue(t) + ".min.css"
  }

  /** `cssURL(cdnVersion:)`: the default theme is spelled out, the others use their raw value. */
  function CssURL(t: Theme, cdnVersion: string): string
  {
    if t == Default then Cdn.Root + cdnVersion + "/themes/prism.min.css"
    else Cdn.Root + cdnVersion + "/themes/" + ThemeRawValue(t) + ".min.css"
  }

  /**
   * Both branches of `CssURL` name the theme's own stylesheet under `themes/`:
   * the special case for the default theme agrees with the general rule.
   */
  lemma CssURLIsThemeFile(t: Theme, cdnVersion: string)
    ensures CssURL(t, cdnVersion) == Cdn.Root + cdnVersion + "/themes/" + CssFileName(t)
  {
    if t == Default {
      assert "prism" + ".min.css" == "prism.min.css";
    }
  }

  /** The default theme's stylesheet is the bare `themes/prism.min.css`. */
  lemma DefaultThemeURL(cdnVersion: string)
    ensures CssURL(Default, cdnVersion) == Cdn.Root + cdnVersion + "/themes/prism.min.css"
    ensures CssURL(Okaidia, cdnVersion) == Cdn.Root + cdnVersion + "/themes/" + "prism-okaidia.min.css"
  {
    assert "prism-okaidia" + ".min.css" == "prism-okaidia.min.css";
  }

  /** A custom theme: a name and the literal CSS that replaces a built-in stylesheet. */
  datatype CustomTheme = CustomTheme(name: string, styles: string)

  // ---------------------------------------------------------------------------
  // Token styles
  // ---------------------------------------------------------------------------

  /**
   * `TokenStyle`: each field is absent or holds the rendered CSS value
   * (for a colour, the rendering of its light variant).
   */
  datatype TokenStyle = TokenStyle(
    color: Option<string>,
    backgroundColor: Option<string>,
    fontWeight: Option<string>,
    fontStyle: Option<string>,
    textDecoration: Option<string>)
  {
    /** The `key: value` declarations of the present fields, in the fixed field order. */
    function Declarations(): seq<string>
    {
      Declaration("color", color)
      + Declaration("background-color", backgroundColor)
      + Declaration("font-weight", fontWeight)
      + Declaration("font-style", fontStyle)
      + Declaration("text-decoration", textDecoration)
    }

    /** The number of fields that are present. */
    function PresentCount(): nat
    {
      (if color.Some? then 1 else 0)
      + (if backgroundColor.Some? then 1 else 0)
      + (if fontWeight.Some? then 1 else 0)
      + (if fontStyle.Some? then 1 else 0)
      + (if textDecoration.Some? then 1 else 0)
    }

    /** `cssString`: collects the declarations one field at a time, then joins them. */
    method CssString() returns (css: string)
      ensures css == Join(Declarations(), "; ")
    {
      assert "color" + ": " == "color: " && "background-color" + ": " == "background-color: ";
      assert "font-weight" + ": " == "font-weight: " && "font-style" + ": " == "font-style: ";
      assert "text-decoration" + ": " == "text-decoration: ";
      var styles: seq<string> := [];
      if color.Some? {
        styles := styles + ["color: " + color.value];
      }
      assert styles == Declaration("color", color);
      if backgroundColor.Some? {
        styles := styles + ["background-color: " + backgroundColor.value];
      }
      assert styles == Declaration("color", color) + Declaration("background-color", backgroundColor);
      if fontWeight.Some? {
        styles := styles + ["font-weight: " + fontWeight.value];
      }
      assert styles == Declaration("color", color) + Declaration("background-color", backgroundColor)
                       + Declaration("font-weight", fontWeight);
      if fontStyle.Some? {
        styles := styles + ["font-style: " + fontStyle.value];
      }
      assert styles == Declaration("color", color) + Declaration("background-color", backgroundColor)
                       + Declaration("font-weight", fontWeight) + Declaration("font-style", fontStyle);
      if textDecoration.Some? {
        styles := styles + ["text-decoration: " + textDecoration.value];
      }
      assert styles == Declarations();
      css := Join(styles, "; ");
    }
  }

  function Declaration(key: string, value: Option<string>): seq<string>
  {
    match value
    case None => []
    case Some(v) => [key + ": " + v]
  }

  /** The CSS declaration list a token style renders to. */
  function StyleCss(style: TokenStyle): string
  {
    Join(style.Declarations(), "; ")
  }

  /**
   * One declaration per present field and none for an absent one; the list,
   * and so the rendered text, is empty exactly when every field is absent.
   */
  lemma DeclarationsOfPresentFields(style: TokenStyle)
    ensures |style.Declarations()| == style.PresentCount()
    ensures style.Declarations() == [] <==> style.PresentCount() == 0
    ensures StyleCss(style) == "" <==> style.PresentCount() == 0
    ensures style.color.Some? ==> style.Declarations()[0] == "color: " + style.color.value
    ensures style.textDecoration.Some? ==>
      style.Declarations()[|style.Declarations()| - 1] == "text-decoration: " + style.textDecoration.value
  {
    var ds := style.Declarations();
    assert forall i :: 0 <= i < |ds| ==> ds[i] != "" by {
      forall i | 0 <= i < |ds| ensures ds[i] != "" {
        assert ds[i] in ds;
      }
    }
    JoinBoundaries(ds, "; ");
  }

  /** With every field present, the fields appear in the fixed order, separated by `; `. */
  lemma FullStyleCss(c: string, bg: string, w: string, fs: string, td: string)
    ensures StyleCss(TokenStyle(Some(c), Some(bg), Some(w), Some(fs), Some(td)))
         == ("color: " + c) + "; " + ("background-color: " + bg) + "; " + ("font-weight: " + w)
            + "; " + ("font-style: " + fs) + "; " + ("text-decoration: " + td)
  {
    assert "color" + ": " == "color: " && "background-color" + ": " == "background-color: ";
    assert "font-weight" + ": " == "font-weight: " && "font-style" + ": " == "font-style: ";
    assert "text-decoration" + ": " == "text-decoration: ";
    var d0, d1, d2, d3, d4 := "color: " + c, "background-color: " + bg, "font-weight: " + w,
                              "font-style: " + fs, "text-decoration: " + td;
    var ds := TokenStyle(Some(c), Some(bg), Some(w), Some(fs), Some(td)).Declarations();
    assert ds == [d0, d1, d2, d3, d4];
    JoinSnoc([d0], d1, "; ");
    assert [d0] + [d1] == [d0, d1];
    JoinSnoc([d0, d1], d2, "; ");
    assert [d0, d1] + [d2] == [d0, d1, d2];
    JoinSnoc([d0, d1, d2], d3, "; ");
    assert [d0, d1, d2] + [d3] == [d0, d1, d2, d3];
    JoinSnoc([d0, d1, d2, d3], d4, "; ");
    assert [d0, d1, d2, d3] + [d4] == ds;
  }

  // ---------------------------------------------------------------------------
  // Rendering a custom theme
  // ---------------------------------------------------------------------------

  /** The rule `build` writes for one styled token type. */
  function TokenLine(t: TokenType, style: TokenStyle): string
  {
    Selector(t) + " { " + StyleCss(style) + " }\n"
  }

  /** The rules for `keys`, in the order given, each from the style the table holds. */
  function TokenLines(keys: seq<TokenType>, styles: map<TokenType, TokenStyle>): string
    requires forall t :: t in keys ==> t in styles
  {
    if keys == [] then ""
    else TokenLines(keys[..|keys| - 1], styles) + TokenLine(keys[|keys| - 1], styles[keys[|keys| - 1]])
  }

  /** Rendering a list of rules is rendering its parts one after the other. */
  lemma {:induction false} TokenLinesAppend(xs: seq<TokenType>, ys: seq<TokenType>, styles: map<TokenType, TokenStyle>)
    requires forall t :: t in xs + ys ==> t in styles
    ensures TokenLines(xs + ys, styles) == TokenLines(xs, styles) + TokenLines(ys, styles)
    decreases |ys|
  {
    if ys == [] {
      assert xs + ys == xs;
    } else {
      var zs := ys[..|ys| - 1];
      assert (xs + ys)[..|xs + ys| - 1] == xs + zs;
      TokenLinesAppend(xs, zs, styles);
    }
  }

  /** The rules are empty exactly when no key is styled, and otherwise end a line. */
  lemma TokenLinesShape(keys: seq<TokenType>, styles: map<TokenType, TokenStyle>)
    requires forall t :: t in keys ==> t in styles
    ensures TokenLines(keys, styles) == "" <==> keys == []
    ensures keys != [] ==> TokenLines(keys, styles)[|TokenLines(keys, styles)| - 1] == '\n'
  {
    if keys != [] {
      var last := keys[|keys| - 1];
      var line := TokenLine(last, styles[last]);
      assert line[|line| - 1] == '\n';
    }
  }

  /** Taking one more key adds exactly that key's rule at the end. */
  lemma TokenLinesStep(keys: seq<TokenType>, i: nat, styles: map<TokenType, TokenStyle>)
    requires i < |keys| && forall t :: t in keys ==> t in styles
    ensures forall t :: t in keys[..i + 1] ==> t in styles
    ensures TokenLines(keys[..i + 1], styles) == TokenLines(keys[..i], styles) + TokenLine(keys[i], styles[keys[i]])
  {
    assert keys[..i + 1][..i] == keys[..i];
  }

  /** The `@media` block that wraps the dark-mode styles. */
  const MediaOpen: string := "@media (prefers-color-scheme: dark) {\n"
  const MediaClose: string := "\n}\n"

  /**
   * The CSS `build` produces: the base styles and a newline, one rule per styled
   * token type in raw-value order, then the dark-mode styles in a media block
   * when there are any.
   */
  function ThemeCss(baseStyles: string, styles: map<TokenType, TokenStyle>, darkModeStyles: string): string
  {
    var rules := baseStyles + "\n" + TokenLines(SortedKeys(styles), styles);
    if darkModeStyles == "" then rules
    else rules + MediaOpen + darkModeStyles + MediaClose
  }

  /**
   * The theme starts with the base styles and a newline, ends in a media block
   * exactly when there are dark-mode styles, and without them is just the base
   * and the token rules.
   */
  lemma ThemeCssShape(baseStyles: string, styles: map<TokenType, TokenStyle>, darkModeStyles: string)
    ensures baseStyles + "\n" <= ThemeCss(baseStyles, styles, darkModeStyles)
    ensures darkModeStyles == "" ==>
      ThemeCss(baseStyles, styles, darkModeStyles) == baseStyles + "\n" + TokenLines(SortedKeys(styles), styles)
    ensures darkModeStyles != "" ==>
      var css := ThemeCss(baseStyles, styles, darkModeStyles);
      var block := MediaOpen + darkModeStyles + MediaClose;
      |block| <= |css| && css[|css| - |block|..] == block
  {
    var head := baseStyles + "\n";
    var lines := TokenLines(SortedKeys(styles), styles);
    var rules := head + lines;
    AppendParts(head, lines);
    if darkModeStyles != "" {
      var block := MediaOpen + darkModeStyles + MediaClose;
      AppendAssociative(rules, MediaOpen, darkModeStyles);
      AppendAssociative(rules, MediaOpen + darkModeStyles, MediaClose);
      AppendParts(rules, block);
    }
  }

  /** A table with one entry yields the base styles and that entry's single rule. */
  lemma SingleStyleTheme(baseStyles: string, t: TokenType, style: TokenStyle)
    ensures ThemeCss(baseStyles, map[t := style], "") == baseStyles + "\n" + TokenLine(t, style)
  {
    var styles := map[t := style];
    var r := SortedKeys(styles);
    RanksAscendUnique(r, [t]);
    assert [t][..0] == [];
    assert styles[t] == style;
    assert TokenLines(r, styles) == TokenLines([], styles) + TokenLine(t, style);
    assert "" + TokenLine(t, style) == TokenLine(t, style);
    assert ThemeCss(baseStyles, styles, "") == baseStyles + "\n" + TokenLines(r, styles);
  }

  /** With no token styles and no dark-mode text, the theme is the base styles and a newline. */
  lemma EmptyTheme(baseStyles: string)
    ensures ThemeCss(baseStyles, map[], "") == baseStyles + "\n"
  {
    var styles: map<TokenType, TokenStyle> := map[];
    HeadIsMember(SortedKeys(styles));
    assert SortedKeys(styles) == [];
  }

  /**
   * The loop of `build`: appends `selector { cssString }` and a newline for each
   * key in turn, so the text gains exactly the rules of `keys`, in order.
   */
  method AppendTokenRules(start: string, keys: seq<TokenType>, styles: map<TokenType, TokenStyle>)
    returns (css: string)
    requires forall t :: t in keys ==> t in styles
    ensures css == start + TokenLines(keys, styles)
  {
    css := start;
    var i := 0;
    while i < |keys|
      invariant 0 <= i <= |keys|
      invariant css == start + TokenLines(keys[..i], styles)
    {
      var declarations := styles[keys[i]].CssString();
      var line := Selector(keys[i]) + " { " + declarations + " }\n";
      TokenLinesStep(keys, i, styles);
      AppendAssociative(start, TokenLines(keys[..i], styles), line);
      css := css + line;
      i := i + 1;
    }
    assert keys[..i] == keys;
  }

  /**
   * `ThemeBuilder`: collects token styles, base styles and dark-mode styles,
   * then renders them into a custom theme.
   */
  class ThemeBuilder {
    var tokenStyles: map<TokenType, TokenStyle>
    var baseStyles: string
    var darkModeStyles: string

    constructor()
      ensures tokenStyles == map[] && baseStyles == "" && darkModeStyles == ""
    {
      tokenStyles := map[];
      baseStyles := "";
      darkModeStyles := "";
    }

    /** `setTokenStyle`: the new style replaces any earlier one for the same token type. */
    method SetTokenStyle(tokenType: TokenType, style: TokenStyle)
      modifies this
      ensures tokenStyles == old(tokenStyles)[tokenType := style]
      ensures baseStyles == old(baseStyles) && darkModeStyles == old(darkModeStyles)
    {
      tokenStyles := tokenStyles[tokenType := style];
    }

    method SetBaseStyles(styles: string)
      modifies this
      ensures baseStyles == styles
      ensures tokenStyles == old(tokenStyles) && darkModeStyles == old(darkModeStyles)
    {
      baseStyles := styles;
    }

    method SetDarkModeStyles(styles: string)
      modifies this
      ensures darkModeStyles == styles
      ensures tokenStyles == old(tokenStyles) && baseStyles == old(baseStyles)
    {
      darkModeStyles := styles;
    }

    /**
     * `build(name:)`: appends one rule per styled token type in raw-value
     * order, then the dark-mode block; the builder itself is left unchanged.
     */
    method Build(name: string) returns (theme: CustomTheme)
      ensures theme == CustomTheme(name, ThemeCss(baseStyles, tokenStyles, darkModeStyles))
    {
      var css := baseStyles + "\n";
      css := AppendTokenRules(css, SortedKeys(tokenStyles), tokenStyles);
      if darkModeStyles != "" {
        css := css + MediaOpen;
        css := css + darkModeStyles;
        css := css + MediaClose;
      }
      theme := CustomTheme(name, css);
    }
  }

  /**
   * Setting styles for two different token types in either order gives the
   * same theme, and setting one token type twice keeps only the second style.
   */
  lemma SetTokenStyleOrder(styles: map<TokenType, TokenStyle>, t: TokenType, u: TokenType,
                           a: TokenStyle, b: TokenStyle, baseStyles: string, dark: string)
    ensures t != u ==>
      ThemeCss(baseStyles, styles[t := a][u := b], dark) == ThemeCss(baseStyles, styles[u := b][t := a], dark)
    ensures ThemeCss(baseStyles, styles[t := a][t := b], dark) == ThemeCss(baseStyles, styles[t := b], dark)
  {
    if t != u {
      assert styles[t := a][u := b] == styles[u := b][t := a];
    }
    assert styles[t := a][t := b] == styles[t := b];
  }

  // ---------------------------------------------------------------------------
  // The `swift` preset
  // ---------------------------------------------------------------------------

  /** A token style that sets only the colour, whose light variant renders as `hex`. */
  function ColorStyle(hex: string): TokenStyle
  {
    TokenStyle(Some(hex), None, None, None, None)
  }

  /** A colour-only style renders as a single `color` declaration. */
  lemma ColorRule(t: TokenType, hex: string)
    ensures TokenLine(t, ColorStyle(hex)) == ".token." + RawValue(t) + (" { color: " + hex + " }\n")
  {
    assert ColorStyle(hex).Declarations() == ["color" + ": " + hex];
    assert "color" + ": " == "color: ";
    assert " { " + "color: " == " { color: ";
    AppendAssociative(" { ", "color: ", hex);
    AppendAssociative(Selector(t), " { ", "color: " + hex);
    AppendAssociative(Selector(t), " { color: " + hex, " }\n");
    AppendAssociative(".token.", RawValue(t), " { color: " + hex + " }\n");
  }

  /** The style table of `CustomTheme.swift`: Xcode-like colours for six token types. */
  const SwiftTokenStyles: map<TokenType, TokenStyle> := map[
    Keyword := ColorStyle("#AD3DA4"),
    ClassName := ColorStyle("#4B21B0"),
    Function := ColorStyle("#4B21B0"),
    Comment := ColorStyle("#707F8C"),
    String := ColorStyle("#D22E1B"),
    Number := ColorStyle("#D22E1B")]

  /** The value of `CustomTheme.swift`. */
  const SwiftTheme: CustomTheme := CustomTheme("swift", ThemeCss("", SwiftTokenStyles, ""))

  /** `CustomTheme.swift`: sets the six styles on a fresh builder, then builds `swift`. */
  method BuildSwiftTheme() returns (theme: CustomTheme)
    ensures theme == SwiftTheme
  {
    var builder := new ThemeBuilder();
    builder.SetTokenStyle(Keyword, ColorStyle("#AD3DA4"));
    builder.SetTokenStyle(ClassName, ColorStyle("#4B21B0"));
    builder.SetTokenStyle(Function, ColorStyle("#4B21B0"));
    builder.SetTokenStyle(Comment, ColorStyle("#707F8C"));
    builder.SetTokenStyle(String, ColorStyle("#D22E1B"));
    builder.SetTokenStyle(Number, ColorStyle("#D22E1B"));
    theme := builder.Build("swift");
  }

  /** The order the `swift` theme's rules are written in. */
  const SwiftRuleOrder: seq<TokenType> := [ClassName, Comment, Function, Keyword, Number, String]

  /** The six token types of `SwiftRuleOrder` are in ascending rank. */
  lemma SwiftRuleOrderAscends()
    ensures RanksAscend(SwiftRuleOrder)
  {
    var order: seq<TokenType> := [String];
    RanksAscendCons(Number, order);
    order := [Number] + order;
    RanksAscendCons(Keyword, order);
    order := [Keyword] + order;
    RanksAscendCons(Function, order);
    order := [Function] + order;
    RanksAscendCons(Comment, order);
    order := [Comment] + order;
    RanksAscendCons(ClassName, order);
    order := [ClassName] + order;
    assert order == SwiftRuleOrder;
  }

  /** Sorting by raw value puts the six styled token types in this order. */
  lemma SwiftThemeOrder()
    ensures SortedKeys(SwiftTokenStyles) == SwiftRuleOrder
  {
    SwiftRuleOrderAscends();
    RanksAscendUnique(SortedKeys(SwiftTokenStyles), SwiftRuleOrder);
  }

}
