/**
 * `Prism.Plugin`: a catalog entry naming a plugin's script and optional
 * stylesheet; both URLs are derived from the plugin's name by a slug rule.
 */
module PrismPlugin {
  import opened Optional
  import Cdn

  /** `Plugin.Configuration`: free-form script content, stored but never read. */
  datatype PluginConfiguration = PluginConfiguration(scriptContent: Option<string>)

  datatype Plugin = Plugin(
    name: string,
    fileName: string,
    cssFileName: Option<string>,
    configuration: Option<PluginConfiguration>)

  // ---------------------------------------------------------------------------
  // The slug rule: `name.lowercased().replacingOccurrences(of: " ", with: "-")`
  // ---------------------------------------------------------------------------

  predicate IsUpperAscii(c: char) {
    'A' <= c <= 'Z'
  }

  function LowerAscii(c: char): (r: char)
    ensures !IsUpperAscii(r)
    ensures IsUpperAscii(c) ==> r as int == c as int + 32
    ensures !IsUpperAscii(c) ==> r == c
  {
    if IsUpperAscii(c) then (c as int + 32) as char else c
  }

  /** One character of the slug: a space becomes `-`, a capital its lower case. */
  function SlugChar(c: char): char
  {
    if c == ' ' then '-' else LowerAscii(c)
  }

  /** The directory name of a plugin on the CDN, mapped character by character. */
  function Slug(name: string): (slug: string)
    ensures |slug| == |name|
  {
    seq(|name|, i requires 0 <= i < |name| => SlugChar(name[i]))
  }

  /** A slug has no spaces and no upper-case ASCII letters. */
  lemma SlugIsClean(name: string)
    ensures ' ' !in Slug(name)
    ensures forall i :: 0 <= i < |Slug(name)| ==> !IsUpperAscii(Slug(name)[i])
  {
  }

  /** Slugging a slug changes nothing. */
  lemma SlugIdempotent(name: string)
    ensures Slug(Slug(name)) == Slug(name)
  {
  }

  // ---------------------------------------------------------------------------
  // URLs
  // ---------------------------------------------------------------------------

  /** `scriptURL(cdnVersion:)`. */
  function ScriptURL(p: Plugin, cdnVersion: string): string
  {
    Cdn.Root + cdnVersion + "/plugins/" + Slug(p.name) + "/" + p.fileName
  }

  /** `cssURL(cdnVersion:)`: nil for a plugin without a stylesheet. */
  function CssURL(p: Plugin, cdnVersion: string): Option<string>
  {
    match p.cssFileName
    case None => None
    case Some(css) => Some(Cdn.Root + cdnVersion + "/plugins/" + Slug(p.name) + "/" + css)
  }

  /** The directory that holds a plugin's files on the CDN. */
  function Directory(p: Plugin, cdnVersion: string): string
  {
    Cdn.Root + cdnVersion + "/plugins/" + Slug(p.name) + "/"
  }

  /**
   * The stylesheet URL exists exactly when the plugin names a stylesheet, and
   * both URLs are that file name appended to the plugin's directory.
   */
  lemma UrlsShareDirectory(p: Plugin, cdnVersion: string)
    ensures ScriptURL(p, cdnVersion) == Directory(p, cdnVersion) + p.fileName
    ensures CssURL(p, cdnVersion).None? <==> p.cssFileName.None?
    ensures p.cssFileName.Some? ==>
      CssURL(p, cdnVersion) == Some(Directory(p, cdnVersion) + p.cssFileName.value)
  {
  }

  /**
   * The URLs depend only on the name, the file names and the CDN version:
   * the stored configuration is never read.
   */
  lemma UrlsIgnoreConfiguration(p: Plugin, q: Plugin, cdnVersion: string)
    requires p.name == q.name && p.fileName == q.fileName && p.cssFileName == q.cssFileName
    ensures ScriptURL(p, cdnVersion) == ScriptURL(q, cdnVersion)
    ensures CssURL(p, cdnVersion) == CssURL(q, cdnVersion)
  {
  }

  // ---------------------------------------------------------------------------
  // The catalog
  // ---------------------------------------------------------------------------

  const LineHighlight := Plugin("Line Highlight", "prism-line-highlight.min.js", Some("prism-line-highlight.min.css"), None)
  const LineNumbers := Plugin("Line Numbers", "prism-line-numbers.min.js", Some("prism-line-numbers.min.css"), None)
  const CopyToClipboard := Plugin("Copy to Clipboard", "prism-copy-to-clipboard.min.js", None, None)
  const ShowInvisibles := Plugin("Show Invisibles", "prism-show-invisibles.min.js", Some("prism-show-invisibles.min.css"), None)
  const Autoloader := Plugin("Autoloader", "prism-autoloader.min.js", None, None)
  const Toolbar := Plugin("Toolbar", "prism-toolbar.min.js", Some("prism-toolbar.min.css"), None)
  const MatchBraces := Plugin("Match Braces", "prism-match-braces.min.js", Some("prism-match-braces.min.css"), None)
  const HighlightKeywords := Plugin("Highlight Keywords", "prism-highlight-keywords.min.js", None, None)
  const InlineColor := Plugin("Inline Color", "prism-inline-color.min.js", Some("prism-inline-color.min.css"), None)
  const Previewers := Plugin("Previewers", "prism-previewers.min.js", Some("prism-previewers.min.css"), None)
  const CommandLine := Plugin("Command Line", "prism-command-line.min.js", Some("prism-command-line.min.css"), None)
  const UnescapedMarkup := Plugin("Unescaped Markup", "prism-unescaped-markup.min.js", Some("prism-unescaped-markup.min.css"), None)
  const NormalizeWhitespace := Plugin("Normalize Whitespace", "prism-normalize-whitespace.min.js", None, None)
  const DataUriHighlight := Plugin("Data-URI Highlight", "prism-data-uri-highlight.min.js", None, None)
  const DiffHighlight := Plugin("Diff Highlight", "prism-diff-highlight.min.js", Some("prism-diff-highlight.min.css"), None)
  const Jsonp := Plugin("JSONP Highlight", "prism-jsonp-highlight.min.js", None, None)
  const Wpd := Plugin("WebPlatform Docs", "prism-wpd.min.js", Some("prism-wpd.min.css"), None)
  const CustomClass := Plugin("Custom Class", "prism-custom-class.min.js", None, None)
  const FileHighlight := Plugin("File Highlight", "prism-file-highlight.min.js", None, None)
  const ShowLanguage := Plugin("Show Language", "prism-show-language.min.js", None, None)
  const Treeview := Plugin("Treeview", "prism-treeview.min.js", Some("prism-treeview.min.css"), None)

  /** The name the head looks for to add line-highlight styles. */
  const LineHighlightName: string := "Line Highlight"

  /** Every entry of the catalog. */
  const Catalog: seq<Plugin> := [
    LineHighlight, LineNumbers, CopyToClipboard, ShowInvisibles, Autoloader,
    Toolbar, MatchBraces, HighlightKeywords, InlineColor, Previewers, CommandLine,
    UnescapedMarkup, NormalizeWhitespace, DataUriHighlight, DiffHighlight, Jsonp,
    Wpd, CustomClass, FileHighlight, ShowLanguage, Treeview]

  /** The catalog's line-highlight entry carries exactly the name the head checks. */
  lemma LineHighlightCatalogName()
    ensures LineHighlight.name == LineHighlightName
    ensures forall i :: 0 <= i < |Catalog| && Catalog[i].name == LineHighlightName ==> i == 0
  {
  }

  /** The entries without a stylesheet yield no stylesheet URL. */
  lemma ScriptOnlyPlugins(cdnVersion: string)
    ensures forall p :: p in [CopyToClipboard, Autoloader, HighlightKeywords, NormalizeWhitespace,
                              DataUriHighlight, Jsonp, CustomClass, FileHighlight, ShowLanguage]
                        ==> CssURL(p, cdnVersion) == None
  {
  }

  /** The line-numbers entry lives in the `line-numbers` directory of the CDN. */
  lemma LineNumbersDirectory()
    ensures Directory(LineNumbers, "1.29.0")
         == "https://cdnjs.cloudflare.com/ajax/libs/prism/1.29.0/plugins/line-numbers/"
  {
    assert Slug(LineNumbers.name) == "line-numbers";
    assert Cdn.Root + "1.29.0" == "https://cdnjs.cloudflare.com/ajax/libs/prism/1.29.0";
    assert "https://cdnjs.cloudflare.com/ajax/libs/prism/1.29.0" + "/plugins/"
        == "https://cdnjs.cloudflare.com/ajax/libs/prism/1.29.0/plugins/";
    assert "https://cdnjs.cloudflare.com/ajax/libs/prism/1.29.0/plugins/" + "line-numbers"
        == "https://cdnjs.cloudflare.com/ajax/libs/prism/1.29.0/plugins/line-numbers";
  }

  /** The line-numbers script resolves to the URL the CDN serves. */
  lemma LineNumbersScriptUrl()
    ensures ScriptURL(LineNumbers, "1.29.0")
         == "https://cdnjs.cloudflare.com/ajax/libs/prism/1.29.0/plugins/line-numbers/" + "prism-line-numbers.min.js"
  {
    LineNumbersDirectory();
    UrlsShareDirectory(LineNumbers, "1.29.0");
  }

  /** The line-numbers stylesheet resolves to the URL the CDN serves. */
  lemma LineNumbersCssUrl()
    ensures CssURL(LineNumbers, "1.29.0")
         == Some("https://cdnjs.cloudflare.com/ajax/libs/prism/1.29.0/plugins/line-numbers/" + "prism-line-numbers.min.css")
  {
    LineNumbersDirectory();
    UrlsShareDirectory(LineNumbers, "1.29.0");
    assert LineNumbers.cssFileName.value == "prism-line-numbers.min.css";
  }

  /** A hyphen already in the name survives, and capitals are lowered. */
  lemma DataUriSlug()
    ensures Slug(DataUriHighlight.name) == "data-uri-highlight"
  {
  }
}
