/**
 * The markup the components produce, as a tree of abstract nodes. The HTML
 * builder library that renders and escapes them is not part of this model.
 */
module Html {
  import opened Optional

  /** The long CSS and JavaScript constants of the head, named rather than spelled out. */
  datatype StockText = DefaultStyles | LineHighlightStyles | DiffStyles | SwiftStyles | SwiftEnhancements

  /** A piece of generated text: literal text, or one of the stock blocks. */
  datatype Piece = Literal(text: string) | Stock(block: StockText)

  datatype Node =
    | Link(href: string, rel: string)
    | Style(pieces: seq<Piece>)
    | Script(src: string, deferred: bool)
    | InlineScript(pieces: seq<Piece>)
    | Text(text: string)
    | Div(cls: string, children: seq<Node>)
    | Pre(preClass: Option<string>, attributes: string, content: Node)
    | Code(codeClass: string, code: string)

  /** The text a sequence of pieces stands for, once `stock` gives the text of each stock block. */
  function Render(pieces: seq<Piece>, stock: StockText -> string): (r: string)
    ensures pieces == [] ==> r == ""
  {
    if pieces == [] then ""
    else
      Render(pieces[..|pieces| - 1], stock)
      + match pieces[|pieces| - 1] {
          case Literal(t) => t
          case Stock(b) => stock(b)
        }
  }

  /** Rendering a concatenation renders the parts one after the other. */
  lemma {:induction false} RenderAppend(xs: seq<Piece>, ys: seq<Piece>, stock: StockText -> string)
    ensures Render(xs + ys, stock) == Render(xs, stock) + Render(ys, stock)
    decreases |ys|
  {
    if ys == [] {
      assert xs + ys == xs;
    } else {
      var zs := ys[..|ys| - 1];
      assert (xs + ys)[..|xs + ys| - 1] == xs + zs;
      RenderAppend(xs, zs, stock);
    }
  }

  /** A script element, inline or loaded from a URL. */
  predicate IsScript(n: Node)
  {
    n.Script? || n.InlineScript?
  }

  /** The number of script elements among `nodes`. */
  function ScriptCount(nodes: seq<Node>): (r: nat)
    ensures r <= |nodes|
  {
    if nodes == [] then 0
    else ScriptCount(nodes[..|nodes| - 1]) + (if IsScript(nodes[|nodes| - 1]) then 1 else 0)
  }

  /** Counting scripts distributes over concatenation. */
  lemma {:induction false} ScriptCountAppend(xs: seq<Node>, ys: seq<Node>)
    ensures ScriptCount(xs + ys) == ScriptCount(xs) + ScriptCount(ys)
    decreases |ys|
  {
    if ys == [] {
      assert xs + ys == xs;
    } else {
      var zs := ys[..|ys| - 1];
      assert (xs + ys)[..|xs + ys| - 1] == xs + zs;
      ScriptCountAppend(xs, zs);
    }
  }

  /** A list made only of scripts counts all its nodes. */
  lemma {:induction false} ScriptCountAll(nodes: seq<Node>)
    requires forall i :: 0 <= i < |nodes| ==> IsScript(nodes[i])
    ensures ScriptCount(nodes) == |nodes|
    decreases |nodes|
  {
    if nodes != [] {
      ScriptCountAll(nodes[..|nodes| - 1]);
    }
  }

  /** A list without scripts counts nothing. */
  lemma {:induction false} ScriptCountNone(nodes: seq<Node>)
    requires forall i :: 0 <= i < |nodes| ==> !IsScript(nodes[i])
    ensures ScriptCount(nodes) == 0
    decreases |nodes|
  {
    if nodes != [] {
      ScriptCountNone(nodes[..|nodes| - 1]);
    }
  }


  /** A list of non-scripts followed by a list of scripts counts the scripts. */
  lemma ScriptCountOfParts(others: seq<Node>, scripts: seq<Node>)
    requires forall i :: 0 <= i < |others| ==> !IsScript(others[i])
    requires forall i :: 0 <= i < |scripts| ==> IsScript(scripts[i])
    ensures ScriptCount(others + scripts) == |scripts|
  {
    ScriptCountAppend(others, scripts);
    ScriptCountNone(others);
    ScriptCountAll(scripts);
  }
}
