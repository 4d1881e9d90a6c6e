/** `stringify` (lsp_parser.py:21-24) and the round trip through the reader. */
module Printer {
  import opened Sexpr
  import opened Lexer
  import opened Atoms
  import opened Parser

  /** `' '.join(ss)`. */
  function JoinSpace(ss: seq<string>): string
  {
    if |ss| == 0 then "" else if |ss| == 1 then ss[0] else ss[0] + " " + JoinSpace(ss[1..])
  }

  /** `stringify`: a list as `(`, its elements stringified and joined by
      single spaces, then `)`; an atom by its text. A float keeps the text of
      the token it was read from. */
  function Stringify(e: Expr): (r: string)
    ensures e.List? ==> |r| >= 2 && r[0] == '(' && r[|r| - 1] == ')'
  {
    match e
    case List(items) =>
      "(" + JoinSpace(seq(|items|, i requires 0 <= i < |items| => Stringify(items[i]))) + ")"
    case Int(n) => IntToString(n)
    case Float(t) => t
    case Sym(s) => s
  }

  function Strings(xs: seq<Expr>): seq<string>
  {
    seq(|xs|, i requires 0 <= i < |xs| => Stringify(xs[i]))
  }

  /** The token list a tree is written as. */
  function Tokens(e: Expr): seq<string>
  {
    match e
    case List(items) =>
      ["("] + Flatten(seq(|items|, i requires 0 <= i < |items| => Tokens(items[i]))) + [")"]
    case Int(n) => [IntToString(n)]
    case Float(t) => [t]
    case Sym(s) => [s]
  }

  function TokenLists(xs: seq<Expr>): seq<seq<string>>
  {
    seq(|xs|, i requires 0 <= i < |xs| => Tokens(xs[i]))
  }

  /** A symbol the reader gives back as that symbol: a non-empty token without
      whitespace or parentheses that reads neither as an int nor as a float. */
  predicate SymbolOk(s: string)
  {
    && |s| > 0
    && (forall i :: 0 <= i < |s| ==> !IsSpace(s[i]) && !IsParen(s[i]))
    && !IntForm(s)
    && !FloatForm(s)
  }

  /** Trees of integers and such symbols, at any depth. */
  predicate Printable(e: Expr)
  {
    match e
    case Int(_) => true
    case Float(_) => false
    case Sym(s) => SymbolOk(s)
    case List(items) => forall i :: 0 <= i < |items| ==> Printable(items[i])
  }

  // ---------------------------------------------------------------------
  // Tokenizing what was printed

  lemma {:induction false} SplitWord(t: string)
    requires |t| > 0 && forall i :: 0 <= i < |t| ==> !IsSpace(t[i])
    ensures Split(t) == [t]
  {
    assert !IsSpace(t[0]);
    assert WordLen(t) == |t|;
    assert t[..|t|] == t && t[|t|..] == [];
  }

  /** An atom's text is one token. */
  lemma AtomText(e: Expr)
    requires Printable(e) && !e.List?
    ensures Split(Pad(Stringify(e))) == Tokens(e)
    ensures Tokens(e) == [Stringify(e)]
  {
    var t := Stringify(e);
    if e.Int? {
      IntToStringChars(e.n);
    }
    assert forall i :: 0 <= i < |t| ==> !IsSpace(t[i]) && !IsParen(t[i]);
    PadNoParens(t);
    SplitWord(t);
  }

  lemma StringsCons(xs: seq<Expr>)
    requires |xs| > 0
    ensures Strings(xs) == [Stringify(xs[0])] + Strings(xs[1..])
  {
  }

  lemma TokenListsCons(xs: seq<Expr>)
    requires |xs| > 0
    ensures Flatten(TokenLists(xs)) == Tokens(xs[0]) + Flatten(TokenLists(xs[1..]))
  {
    assert TokenLists(xs) == [Tokens(xs[0])] + TokenLists(xs[1..]);
    FlattenAppend([Tokens(xs[0])], TokenLists(xs[1..]));
    assert Flatten([Tokens(xs[0])]) == Tokens(xs[0]);
  }

  /** Padding a parenthesised text pads the parentheses with spaces. */
  lemma PadWrap(j: string)
    ensures Pad("(" + j + ")") == " (" + [' '] + (Pad(j) + [' '] + ") ")
  {
    PadAppend("(" + j, ")");
    PadAppend("(", j);
  }

  lemma SplitOpen()
    ensures Split(" (") == ["("]
  {
    assert " ("[1..] == "(";
    SplitWord("(");
  }

  lemma SplitClose()
    ensures Split(") ") == [")"]
  {
    assert WordLen(") ") == 1;
    assert ") "[..1] == ")" && ") "[1..] == " ";
    assert " "[1..] == [];
  }

  /** Printing a list wraps its elements' text in parentheses; the
      tokenizer gives those parentheses back as two tokens. */
  lemma WrapParens(j: string)
    ensures Split(Pad("(" + j + ")")) == ["("] + Split(Pad(j)) + [")"]
  {
    var p := Pad(j);
    PadWrap(j);
    SplitSpaceJoin(" (", p + [' '] + ") ");
    SplitSpaceJoin(p, ") ");
    SplitOpen();
    SplitClose();
  }

  /** The elements of a list, from index `from` on, printed and joined by
      spaces, tokenize to their token lists in order. */
  lemma {:induction false} JoinTokens(e: Expr, from: nat)
    requires e.List? && Printable(e) && from <= |e.items|
    ensures Split(Pad(JoinSpace(Strings(e.items[from..])))) == Flatten(TokenLists(e.items[from..]))
    decreases e, |e.items| - from
  {
    var xs := e.items[from..];
    var ss := Strings(xs);
    if |xs| == 0 {
      assert ss == [] && TokenLists(xs) == [];
    } else {
      var x := xs[0];
      assert x == e.items[from];
      assert xs[1..] == e.items[from + 1..];
      TokenizeStringify(x);
      TokenListsCons(xs);
      StringsCons(xs);
      if |xs| == 1 {
        assert JoinSpace(ss) == Stringify(x);
        assert TokenLists(xs[1..]) == [];
      } else {
        var rest := JoinSpace(ss[1..]);
        assert JoinSpace(ss) == Stringify(x) + [' '] + rest;
        PadAppend(Stringify(x) + [' '], rest);
        PadAppend(Stringify(x), [' ']);
        assert Pad([' ']) == [' '];
        assert ss[1..] == Strings(e.items[from + 1..]);
        SplitSpaceJoin(Pad(Stringify(x)), Pad(rest));
        JoinTokens(e, from + 1);
      }
    }
  }

  /** Tokenizing the printed text of a tree gives the tree's token list. */
  lemma {:induction false} TokenizeStringify(e: Expr)
    requires Printable(e)
    ensures Split(Pad(Stringify(e))) == Tokens(e)
    decreases e
  {
    if e.List? {
      var xs := e.items;
      assert xs[0..] == xs;
      JoinTokens(e, 0);
      var j := JoinSpace(Strings(xs));
      assert Stringify(e) == "(" + j + ")";
      assert Tokens(e) == ["("] + Flatten(TokenLists(xs)) + [")"];
      WrapParens(j);
    } else {
      AtomText(e);
    }
  }

  // ---------------------------------------------------------------------
  // Reading the token list back

  lemma TokensHead(e: Expr)
    requires Printable(e)
    ensures |Tokens(e)| > 0 && Tokens(e)[0] != ")"
    ensures e.List? <==> Tokens(e)[0] == "("
  {
    if !e.List? {
      AtomText(e);
      var t := Stringify(e);
      if e.Int? {
        IntToStringChars(e.n);
      }
      assert t[0] != '(' && t[0] != ')';
    }
  }

  lemma DropPrefix(tokens: seq<string>, idx: nat, a: seq<string>, b: seq<string>)
    requires idx <= |tokens| && tokens[idx..] == a + b && |a| > 0
    ensures tokens[idx] == a[0]
    ensures tokens[idx..][..|a|] == a
    ensures idx + |a| <= |tokens| && tokens[idx + |a|..] == b
  {
    assert tokens[idx..][0] == a[0];
    assert tokens[idx + |a|..] == tokens[idx..][|a|..];
  }

  /** The token lists from index `from` on start with that element's. */
  lemma ElementTokens(e: Expr, from: nat, rest: seq<string>)
    requires e.List? && from < |e.items|
    ensures Flatten(TokenLists(e.items[from..])) + [")"] + rest ==
      Tokens(e.items[from]) + (Flatten(TokenLists(e.items[from + 1..])) + [")"] + rest)
  {
    var xs := e.items[from..];
    assert xs[0] == e.items[from];
    assert xs[1..] == e.items[from + 1..];
    TokenListsCons(xs);
  }

  /** The element at index `from` of a list is read back from its own tokens. */
  lemma {:induction false} ReadElement(e: Expr, from: nat, tokens: seq<string>, idx: nat, rest: seq<string>)
    returns (n: nat)
    requires e.List? && Printable(e) && from < |e.items|
    requires 1 <= idx <= |tokens|
    requires tokens[idx..] == Flatten(TokenLists(e.items[from..])) + [")"] + rest
    ensures idx < |tokens| && tokens[idx] != ")"
    ensures Read(Atom, tokens[idx..]) == Ok((e.items[from], n))
    ensures idx + n <= |tokens|
    ensures tokens[idx + n..] == Flatten(TokenLists(e.items[from + 1..])) + [")"] + rest
    decreases e, |e.items| - from, 0
  {
    var x := e.items[from];
    var after := Flatten(TokenLists(e.items[from + 1..])) + [")"] + rest;
    ElementTokens(e, from, rest);
    assert tokens[idx..] == Tokens(x) + after;
    TokensHead(x);
    DropPrefix(tokens, idx, Tokens(x), after);
    ReadTokens(x, after);
    n := |Tokens(x)|;
  }

  lemma ReadListEnd(e: Expr, from: nat, tokens: seq<string>, idx: nat, rest: seq<string>)
    requires e.List? && from == |e.items|
    requires 1 <= idx <= |tokens|
    requires tokens[idx..] == Flatten(TokenLists(e.items[from..])) + [")"] + rest
    ensures ReadList(Atom, tokens, idx, e.items[..from]) == Ok((e, |tokens| - |rest|))
  {
    assert e.items[from..] == [];
    assert TokenLists([]) == [];
    assert tokens[idx..] == [")"] + rest;
    assert tokens[idx] == ")";
    assert e.items[..from] == e.items;
  }

  lemma TakeOneMore(xs: seq<Expr>, i: nat)
    requires i < |xs|
    ensures xs[..i] + [xs[i]] == xs[..i + 1]
  {
  }

  /** The loop of the reader over the token lists of the elements from index
      `from` on collects those elements and stops after the closing `)`. */
  lemma {:induction false} ReadListTokens(e: Expr, from: nat, tokens: seq<string>, idx: nat, rest: seq<string>)
    requires e.List? && Printable(e) && from <= |e.items|
    requires 1 <= idx <= |tokens|
    requires tokens[idx..] == Flatten(TokenLists(e.items[from..])) + [")"] + rest
    ensures ReadList(Atom, tokens, idx, e.items[..from]) == Ok((e, |tokens| - |rest|))
    decreases e, |e.items| - from
  {
    if from == |e.items| {
      ReadListEnd(e, from, tokens, idx, rest);
    } else {
      var n := ReadElement(e, from, tokens, idx, rest);
      ReadListTokens(e, from + 1, tokens, idx + n, rest);
      TakeOneMore(e.items, from);
      ReadListStepTo(Atom, tokens, idx, e.items[..from], e.items[from], n, e.items[..from + 1], Ok((e, |tokens| - |rest|)));
    }
  }

  /** The reader gives back a printable tree from its token list, whatever
      follows it, and uses exactly that many tokens. */
  lemma {:induction false} ReadTokens(e: Expr, rest: seq<string>)
    requires Printable(e)
    ensures Read(Atom, Tokens(e) + rest) == Ok((e, |Tokens(e)|))
    decreases e, if e.List? then |e.items| + 1 else 0
  {
    var tokens := Tokens(e) + rest;
    TokensHead(e);
    if e.List? {
      var xs := e.items;
      assert xs[0..] == xs && xs[..0] == [];
      assert Tokens(e) == ["("] + Flatten(TokenLists(xs)) + [")"];
      assert tokens[1..] == Flatten(TokenLists(xs)) + [")"] + rest;
      ReadListTokens(e, 0, tokens, 1, rest);
    } else {
      AtomText(e);
      if e.Int? {
        AtomOfIntToString(e.n);
      }
    }
  }

  /** Printing a tree of integers and plain symbols, tokenizing the text and
      reading it back gives the same tree, and the reader uses every token. */
  lemma RoundTrip(e: Expr)
    requires Printable(e)
    ensures Read(Atom, Tokenize(Stringify(e))) == Ok((e, |Tokenize(Stringify(e))|))
    ensures Parse(Tokenize(Stringify(e))) == Ok(e)
  {
    ReplaceTwiceIsPad(Stringify(e));
    TokenizeStringify(e);
    assert Tokens(e) + [] == Tokens(e);
    ReadTokens(e, []);
  }
}
