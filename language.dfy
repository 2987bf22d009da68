/**
 * `Prism.Language`: the grammars that can be loaded. Only the identifier
 * matters to the core; it fixes the component file on the CDN and the CSS
 * class of a code element.
 */
module PrismLanguage {

  datatype Language =
    | Swift | Kotlin
    | Html | Css | JavaScript | TypeScript | Jsx | Tsx
    | Json | Yaml | Xml | Csv | Toml
    | Python | Bash | Rust | Go | Zig | C | ObjectiveC | Diff

  /** The language's identifier as the highlighting library names it. */
  function Id(l: Language): string
  {
    match l
    case Swift => "swift"
    case Kotlin => "kotlin"
    case Html => "html"
    case Css => "css"
    case JavaScript => "javascript"
    case TypeScript => "typescript"
    case Jsx => "jsx"
    case Tsx => "tsx"
    case Json => "json"
    case Yaml => "yaml"
    case Xml => "xml"
    case Csv => "csv"
    case Toml => "toml"
    case Python => "python"
    case Bash => "bash"
    case Rust => "rust"
    case Go => "go"
    case Zig => "zig"
    case C => "c"
    case ObjectiveC => "objectivec"
    case Diff => "diff"
  }

  /** `cdnComponentPath`: the grammar's file under `components/`. */
  function CdnComponentPath(l: Language): string
  {
    "prism-" + Id(l) + ".min.js"
  }

  /** `className`: the class that marks a code element as written in `l`. */
  function ClassName(l: Language): string
  {
    "language-" + Id(l)
  }

  /** Two languages never share an identifier, so never a file or a class. */
  lemma IdInjective(l: Language, m: Language)
    requires l != m
    ensures Id(l) != Id(m)
    ensures CdnComponentPath(l) != CdnComponentPath(m)
    ensures ClassName(l) != ClassName(m)
  {
    assert Id(l) != Id(m);
    assert CdnComponentPath(l)[6..|CdnComponentPath(l)| - 7] == Id(l);
    assert CdnComponentPath(m)[6..|CdnComponentPath(m)| - 7] == Id(m);
    assert ClassName(l)[9..] == Id(l);
    assert ClassName(m)[9..] == Id(m);
  }

  /** `webLanguages`, as the presets list them. */
  const WebLanguages: seq<Language> := [Html, Css, JavaScript, TypeScript, Jsx, Tsx]

  /** `dataLanguages`, as the presets list them. */
  const DataLanguages: seq<Language> := [Json, Yaml, Xml, Csv, Toml]

  /** Neither group holds Swift or the diff language. */
  lemma GroupsLeaveOutSwiftAndDiff()
    ensures Swift !in WebLanguages + DataLanguages
    ensures Diff !in WebLanguages + DataLanguages
  {
    var all := WebLanguages + DataLanguages;
    assert all == [Html, Css, JavaScript, TypeScript, Jsx, Tsx, Json, Yaml, Xml, Csv, Toml];
    assert forall i :: 0 <= i < |all| ==> all[i] != Swift && all[i] != Diff;
  }

  /** No language is called `none`, so no language's class is `language-none`. */
  lemma ClassNameIsNotNone(l: Language)
    ensures ClassName(l) != "language-none"
  {
    assert Id(l) != "none";
    assert ClassName(l)[9..] == Id(l);
    assert "language-none"[9..] == "none";
  }
}
