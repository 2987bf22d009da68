/**
 * `Prism.TokenType`: the token classes a custom theme can style, their raw
 * values, and the raw-value order in which `build` writes their rules.
 */
module PrismTokenType {
  import opened Text

  /** `TokenType`; the case `selector` is called `CssSelector` here. */
  datatype TokenType =
    | Comment | Prolog | Doctype | Cdata | Punctuation | Namespace | Property | Tag
    | Boolean | Number | Constant | Symbol | Deleted | CssSelector | AttrName | String
    | Char | Builtin | Inserted | Operator | Entity | Url | Variable | Atrule | AttrValue
    | Function | FunctionVariable | Keyword | Regex | Important | Bold | Italic | ClassName

  function RawValue(t: TokenType): string
  {
    match t
    case Comment => "comment"
    case Prolog => "prolog"
    case Doctype => "doctype"
    case Cdata => "cdata"
    case Punctuation => "punctuation"
    case Namespace => "namespace"
    case Property => "property"
    case Tag => "tag"
    case Boolean => "boolean"
    case Number => "number"
    case Constant => "constant"
    case Symbol => "symbol"
    case Deleted => "deleted"
    case CssSelector => "selector"
    case AttrName => "attr-name"
    case String => "string"
    case Char => "char"
    case Builtin => "builtin"
    case Inserted => "inserted"
    case Operator => "operator"
    case Entity => "entity"
    case Url => "url"
    case Variable => "variable"
    case Atrule => "atrule"
    case AttrValue => "attr-value"
    case Function => "function"
    case FunctionVariable => "function-variable"
    case Keyword => "keyword"
    case Regex => "regex"
    case Important => "important"
    case Bold => "bold"
    case Italic => "italic"
    case ClassName => "class-name"
  }

  /** `selector`: the CSS selector that matches tokens of this type. */
  function Selector(t: TokenType): string
  {
    ".token." + RawValue(t)
  }

  /** The position of a token type when all of them are sorted by raw value. */
  function Rank(t: TokenType): (r: nat)
    ensures r < TokenTypeCount
  {
    match t
    case Atrule => 0
    case AttrName => 1
    case AttrValue => 2
    case Bold => 3
    case Boolean => 4
    case Builtin => 5
    case Cdata => 6
    case Char => 7
    case ClassName => 8
    case Comment => 9
    case Constant => 10
    case Deleted => 11
    case Doctype => 12
    case Entity => 13
    case Function => 14
    case FunctionVariable => 15
    case Important => 16
    case Inserted => 17
    case Italic => 18
    case Keyword => 19
    case Namespace => 20
    case Number => 21
    case Operator => 22
    case Prolog => 23
    case Property => 24
    case Punctuation => 25
    case Regex => 26
    case CssSelector => 27
    case String => 28
    case Symbol => 29
    case Tag => 30
    case Url => 31
    case Variable => 32
  }

  /** The token type at a position of the raw-value order. */
  function OfRank(n: nat): TokenType
    requires n < TokenTypeCount
  {
    if n == 0 then Atrule
    else if n == 1 then AttrName
    else if n == 2 then AttrValue
    else if n == 3 then Bold
    else if n == 4 then Boolean
    else if n == 5 then Builtin
    else if n == 6 then Cdata
    else if n == 7 then Char
    else if n == 8 then ClassName
    else if n == 9 then Comment
    else if n == 10 then Constant
    else if n == 11 then Deleted
    else if n == 12 then Doctype
    else if n == 13 then Entity
    else if n == 14 then Function
    else if n == 15 then FunctionVariable
    else if n == 16 then Important
    else if n == 17 then Inserted
    else if n == 18 then Italic
    else if n == 19 then Keyword
    else if n == 20 then Namespace
    else if n == 21 then Number
    else if n == 22 then Operator
    else if n == 23 then Prolog
    else if n == 24 then Property
    else if n == 25 then Punctuation
    else if n == 26 then Regex
    else if n == 27 then CssSelector
    else if n == 28 then String
    else if n == 29 then Symbol
    else if n == 30 then Tag
    else if n == 31 then Url
    else Variable
  }

  /** There are 33 token types; `Rank` and `OfRank` are inverse. */
  const TokenTypeCount: nat := 33

  lemma RankRoundTrip(t: TokenType)
    ensures OfRank(Rank(t)) == t
  {
  }

  lemma OfRankRoundTrip(n: nat)
    requires n < TokenTypeCount
    ensures Rank(OfRank(n)) == n
  {
  }

  /** Neighbours 0 to 8 of the raw-value order, constructor by constructor. */
  lemma ConsecutiveRawValues0()
    ensures Less(RawValue(Atrule), RawValue(AttrName))
    ensures Less(RawValue(AttrName), RawValue(AttrValue))
    ensures Less(RawValue(AttrValue), RawValue(Bold))
    ensures Less(RawValue(Bold), RawValue(Boolean))
    ensures Less(RawValue(Boolean), RawValue(Builtin))
    ensures Less(RawValue(Builtin), RawValue(Cdata))
    ensures Less(RawValue(Cdata), RawValue(Char))
    ensures Less(RawValue(Char), RawValue(ClassName))
  {
    assert Less("atrule", "attr-name");
    assert Less("attr-name", "attr-value");
    assert Less("attr-value", "bold");
    assert Less("bold", "boolean");
    assert Less("boolean", "builtin");
    assert Less("builtin", "cdata");
    assert Less("cdata", "char");
    assert Less("char", "class-name");
  }

  /** Neighbours 8 to 16 of the raw-value order, constructor by constructor. */
  lemma ConsecutiveRawValues1()
    ensures Less(RawValue(ClassName), RawValue(Comment))
    ensures Less(RawValue(Comment), RawValue(Constant))
    ensures Less(RawValue(Constant), RawValue(Deleted))
    ensures Less(RawValue(Deleted), RawValue(Doctype))
    ensures Less(RawValue(Doctype), RawValue(Entity))
    ensures Less(RawValue(Entity), RawValue(Function))
    ensures Less(RawValue(Function), RawValue(FunctionVariable))
    ensures Less(RawValue(FunctionVariable), RawValue(Important))
  {
    assert Less("class-name", "comment");
    assert Less("comment", "constant");
    assert Less("constant", "deleted");
    assert Less("deleted", "doctype");
    assert Less("doctype", "entity");
    assert Less("entity", "function");
    assert Less("function", "function-variable");
    assert Less("function-variable", "important");
  }

  /** Neighbours 16 to 24 of the raw-value order, constructor by constructor. */
  lemma ConsecutiveRawValues2()
    ensures Less(RawValue(Important), RawValue(Inserted))
    ensures Less(RawValue(Inserted), RawValue(Italic))
    ensures Less(RawValue(Italic), RawValue(Keyword))
    ensures Less(RawValue(Keyword), RawValue(Namespace))
    ensures Less(RawValue(Namespace), RawValue(Number))
    ensures Less(RawValue(Number), RawValue(Operator))
    ensures Less(RawValue(Operator), RawValue(Prolog))
    ensures Less(RawValue(Prolog), RawValue(Property))
  {
    assert Less("important", "inserted");
    assert Less("inserted", "italic");
    assert Less("italic", "keyword");
    assert Less("keyword", "namespace");
    assert Less("namespace", "number");
    assert Less("number", "operator");
    assert Less("operator", "prolog");
    assert Less("prolog", "property");
  }

  /** Neighbours 24 to 32 of the raw-value order, constructor by constructor. */
  lemma ConsecutiveRawValues3()
    ensures Less(RawValue(Property), RawValue(Punctuation))
    ensures Less(RawValue(Punctuation), RawValue(Regex))
    ensures Less(RawValue(Regex), RawValue(CssSelector))
    ensures Less(RawValue(CssSelector), RawValue(String))
    ensures Less(RawValue(String), RawValue(Symbol))
    ensures Less(RawValue(Symbol), RawValue(Tag))
    ensures Less(RawValue(Tag), RawValue(Url))
    ensures Less(RawValue(Url), RawValue(Variable))
  {
    assert Less("property", "punctuation");
    assert Less("punctuation", "regex");
    assert Less("regex", "selector");
    assert Less("selector", "string");
    assert Less("string", "symbol");
    assert Less("symbol", "tag");
    assert Less("tag", "url");
    assert Less("url", "variable");
  }

  /** Each token type's raw value sorts before that of the next one in rank order. */
  lemma NeighboursOrdered(n: nat)
    requires n + 1 < TokenTypeCount
    ensures Less(RawValue(OfRank(n)), RawValue(OfRank(n + 1)))
  {
    ConsecutiveRawValues0();
    ConsecutiveRawValues1();
    ConsecutiveRawValues2();
    ConsecutiveRawValues3();
    if n == 0 {
      assert OfRank(n) == Atrule && OfRank(n + 1) == AttrName;
    } else if n == 1 {
      assert OfRank(n) == AttrName && OfRank(n + 1) == AttrValue;
    } else if n == 2 {
      assert OfRank(n) == AttrValue && OfRank(n + 1) == Bold;
    } else if n == 3 {
      assert OfRank(n) == Bold && OfRank(n + 1) == Boolean;
    } else if n == 4 {
      assert OfRank(n) == Boolean && OfRank(n + 1) == Builtin;
    } else if n == 5 {
      assert OfRank(n) == Builtin && OfRank(n + 1) == Cdata;
    } else if n == 6 {
      assert OfRank(n) == Cdata && OfRank(n + 1) == Char;
    } else if n == 7 {
      assert OfRank(n) == Char && OfRank(n + 1) == ClassName;
    } else if n == 8 {
      assert OfRank(n) == ClassName && OfRank(n + 1) == Comment;
    } else if n == 9 {
      assert OfRank(n) == Comment && OfRank(n + 1) == Constant;
    } else if n == 10 {
      assert OfRank(n) == Constant && OfRank(n + 1) == Deleted;
    } else if n == 11 {
      assert OfRank(n) == Deleted && OfRank(n + 1) == Doctype;
    } else if n == 12 {
      assert OfRank(n) == Doctype && OfRank(n + 1) == Entity;
    } else if n == 13 {
      assert OfRank(n) == Entity && OfRank(n + 1) == Function;
    } else if n == 14 {
      assert OfRank(n) == Function && OfRank(n + 1) == FunctionVariable;
    } else if n == 15 {
      assert OfRank(n) == FunctionVariable && OfRank(n + 1) == Important;
    } else if n == 16 {
      assert OfRank(n) == Important && OfRank(n + 1) == Inserted;
    } else if n == 17 {
      assert OfRank(n) == Inserted && OfRank(n + 1) == Italic;
    } else if n == 18 {
      assert OfRank(n) == Italic && OfRank(n + 1) == Keyword;
    } else if n == 19 {
      assert OfRank(n) == Keyword && OfRank(n + 1) == Namespace;
    } else if n == 20 {
      assert OfRank(n) == Namespace && OfRank(n + 1) == Number;
    } else if n == 21 {
      assert OfRank(n) == Number && OfRank(n + 1) == Operator;
    } else if n == 22 {
      assert OfRank(n) == Operator && OfRank(n + 1) == Prolog;
    } else if n == 23 {
      assert OfRank(n) == Prolog && OfRank(n + 1) == Property;
    } else if n == 24 {
      assert OfRank(n) == Property && OfRank(n + 1) == Punctuation;
    } else if n == 25 {
      assert OfRank(n) == Punctuation && OfRank(n + 1) == Regex;
    } else if n == 26 {
      assert OfRank(n) == Regex && OfRank(n + 1) == CssSelector;
    } else if n == 27 {
      assert OfRank(n) == CssSelector && OfRank(n + 1) == String;
    } else if n == 28 {
      assert OfRank(n) == String && OfRank(n + 1) == Symbol;
    } else if n == 29 {
      assert OfRank(n) == Symbol && OfRank(n + 1) == Tag;
    } else if n == 30 {
      assert OfRank(n) == Tag && OfRank(n + 1) == Url;
    } else {
      assert OfRank(n) == Url && OfRank(n + 1) == Variable;
    }
  }

  /** A lower rank means an earlier raw value. */
  lemma {:induction false} RankOrdered(m: nat, n: nat)
    requires m < n < TokenTypeCount
    ensures Less(RawValue(OfRank(m)), RawValue(OfRank(n)))
    decreases n - m
  {
    NeighboursOrdered(n - 1);
    if m < n - 1 {
      RankOrdered(m, n - 1);
      LessTransitive(RawValue(OfRank(m)), RawValue(OfRank(n - 1)), RawValue(OfRank(n)));
    }
  }

  /** The rank order is exactly the order of the raw values, in both directions. */
  lemma RankMatchesRawValueOrder(t: TokenType, u: TokenType)
    ensures Rank(t) < Rank(u) <==> Less(RawValue(t), RawValue(u))
  {
    RankRoundTrip(t);
    RankRoundTrip(u);
    if Rank(t) < Rank(u) {
      RankOrdered(Rank(t), Rank(u));
    } else if Rank(u) < Rank(t) {
      RankOrdered(Rank(u), Rank(t));
      LessAsymmetric(RawValue(u), RawValue(t));
    } else {
      LessIrreflexive(RawValue(t));
    }
  }

  /** Raw values are pairwise distinct, and so are the selectors built from them. */
  lemma RawValuesDistinct(t: TokenType, u: TokenType)
    requires t != u
    ensures RawValue(t) != RawValue(u)
    ensures Selector(t) != Selector(u)
  {
    RankRoundTrip(t);
    RankRoundTrip(u);
    RankMatchesRawValueOrder(t, u);
    RankMatchesRawValueOrder(u, t);
    LessIrreflexive(RawValue(t));
    assert Selector(t)[7..] == RawValue(t);
    assert Selector(u)[7..] == RawValue(u);
  }

  // ---------------------------------------------------------------------------
  // Sorting the style table
  // ---------------------------------------------------------------------------

  /** Token types listed in strictly ascending order of their raw values. */
  predicate Ascending(ts: seq<TokenType>)
  {
    forall i, j :: 0 <= i < j < |ts| ==> Less(RawValue(ts[i]), RawValue(ts[j]))
  }

  /** Token types listed in strictly ascending rank. */
  predicate RanksAscend(ts: seq<TokenType>)
  {
    forall i, j :: 0 <= i < j < |ts| ==> Rank(ts[i]) < Rank(ts[j])
  }

  /** Putting a token type of lower rank in front keeps the ranks ascending. */
  lemma RanksAscendCons(t: TokenType, ts: seq<TokenType>)
    requires RanksAscend(ts)
    requires ts != [] ==> Rank(t) < Rank(ts[0])
    ensures RanksAscend([t] + ts)
  {
    var s := [t] + ts;
    forall i, j | 0 <= i < j < |s| ensures Rank(s[i]) < Rank(s[j]) {
      if i == 0 && j > 1 {
        assert s[1] == ts[0] && s[j] == ts[j - 1];
      } else if i > 0 {
        assert s[i] == ts[i - 1] && s[j] == ts[j - 1];
      }
    }
  }

  /** The members of `keys` whose rank is at least `n`, in rank order. */
  function KeysFrom(keys: set<TokenType>, n: nat): (r: seq<TokenType>)
    requires n <= TokenTypeCount
    ensures forall i :: 0 <= i < |r| ==> r[i] in keys && n <= Rank(r[i])
    ensures forall t :: t in keys && n <= Rank(t) ==> t in r
    ensures RanksAscend(r)
    decreases TokenTypeCount - n
  {
    if n == TokenTypeCount then []
    else
      var rest := KeysFrom(keys, n + 1);
      var t := OfRank(n);
      OfRankRoundTrip(n);
      OnlyMemberOfRank(keys, n);
      if t in keys then
        RanksAscendCons(t, rest);
        [t] + rest
      else rest
  }

  /** The only token type of rank `n` is `OfRank(n)`. */
  lemma OnlyMemberOfRank(keys: set<TokenType>, n: nat)
    requires n < TokenTypeCount
    ensures forall t :: t in keys && Rank(t) == n ==> t == OfRank(n)
  {
    forall t | t in keys && Rank(t) == n ensures t == OfRank(n) {
      RankRoundTrip(t);
    }
  }

  /**
   * The keys of a style table in the order `build` visits them: every styled
   * token type appears, nothing else does, and ranks strictly ascend.
   */
  function SortedKeys<V>(styles: map<TokenType, V>): (r: seq<TokenType>)
    ensures forall t :: t in r <==> t in styles
    ensures RanksAscend(r)
  {
    KeysFrom(styles.Keys, 0)
  }

  /** A list whose ranks strictly ascend has strictly ascending raw values. */
  lemma RankOrderIsAscending(ts: seq<TokenType>)
    requires RanksAscend(ts)
    ensures Ascending(ts)
  {
    forall i, j | 0 <= i < j < |ts| ensures Less(RawValue(ts[i]), RawValue(ts[j])) {
      RankMatchesRawValueOrder(ts[i], ts[j]);
    }
  }

  /**
   * The order `build` visits the keys in is `sorted { $0.key.rawValue <
   * $1.key.rawValue }`: their raw values strictly ascend.
   */
  lemma SortedKeysAscending<V>(styles: map<TokenType, V>)
    ensures Ascending(SortedKeys(styles))
  {
    RankOrderIsAscending(SortedKeys(styles));
  }

  /** In a list of ascending rank, the head has the least rank. */
  lemma HeadHasLeastRank(ts: seq<TokenType>, t: TokenType)
    requires RanksAscend(ts) && t in ts
    ensures Rank(ts[0]) <= Rank(t)
  {
    var i :| 0 <= i < |ts| && ts[i] == t;
    if i > 0 {
      assert Rank(ts[0]) < Rank(ts[i]);
    }
  }

  /** The head of a non-empty list is one of its members. */
  lemma HeadIsMember(ts: seq<TokenType>)
    ensures |ts| > 0 ==> ts[0] in ts
  {
  }

  /** A member other than the head is a member of the tail. */
  lemma MemberOfTail(ts: seq<TokenType>, t: TokenType)
    requires t in ts && t != ts[0]
    ensures t in ts[1..]
  {
    var i :| 0 <= i < |ts| && ts[i] == t;
    assert ts[1..][i - 1] == t;
  }

  /** Two lists of the same token types, both in ascending rank, are equal. */
  lemma {:induction false} RanksAscendUnique(xs: seq<TokenType>, ys: seq<TokenType>)
    requires RanksAscend(xs) && RanksAscend(ys)
    requires forall t :: t in xs <==> t in ys
    ensures xs == ys
  {
    if xs != [] && ys != [] {
      var x, y := xs[0], ys[0];
      assert x in xs && y in ys;
      HeadHasLeastRank(xs, y);
      HeadHasLeastRank(ys, x);
      RankRoundTrip(x);
      RankRoundTrip(y);
      forall t | t in xs[1..] ensures t in ys[1..] {
        var i :| 1 <= i < |xs| && xs[i] == t;
        assert Rank(x) < Rank(t);
        MemberOfTail(ys, t);
      }
      forall t | t in ys[1..] ensures t in xs[1..] {
        var j :| 1 <= j < |ys| && ys[j] == t;
        assert Rank(y) < Rank(t);
        MemberOfTail(xs, t);
      }
      RanksAscendUnique(xs[1..], ys[1..]);
      assert xs == [x] + xs[1..] && ys == [y] + ys[1..];
    } else {
      HeadIsMember(xs);
      HeadIsMember(ys);
    }
  }

  /** A list with strictly ascending raw values has strictly ascending ranks. */
  lemma AscendingRanks(ts: seq<TokenType>)
    requires Ascending(ts)
    ensures RanksAscend(ts)
  {
    forall i, j | 0 <= i < j < |ts| ensures Rank(ts[i]) < Rank(ts[j]) {
      RankMatchesRawValueOrder(ts[i], ts[j]);
    }
  }

  /**
   * Two ascending lists of the same token types are equal: the order `build`
   * uses is fixed by the set of styled token types alone, whatever order the
   * styles were set in or the table enumerates them.
   */
  lemma AscendingIsUnique(xs: seq<TokenType>, ys: seq<TokenType>)
    requires Ascending(xs) && Ascending(ys)
    requires forall t :: t in xs <==> t in ys
    ensures xs == ys
  {
    AscendingRanks(xs);
    AscendingRanks(ys);
    RanksAscendUnique(xs, ys);
  }
}
