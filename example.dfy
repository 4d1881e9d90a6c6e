/** The sample program of lsp_parser.py:75-78, read through the reader's
    model: its text, its tree and the number of tokens it takes. */
module ParserExample {
  import opened Sexpr
  import opened Atoms
  import opened Lexer
  import opened Printer
  import opened Parser

  // ---------------------------------------------------------------------
  // The words of the program are plain symbols

  /** A text starting with neither a digit nor `_` is not a run of digits. */
  lemma NotDigitPart(s: string)
    requires |s| > 0 && !IsDigit(s[0]) && s[0] != '_'
    ensures !DigitPart(s)
  {
  }

  /** A word of lower-case letters, `_` and `*` that does not start with `_`
      and is not a float spelling is neither an int nor a float token. */
  lemma {:induction false} WordIsSymbol(s: string)
    requires |s| > 0 && forall i :: 0 <= i < |s| ==> 'a' <= s[i] <= 'z' || s[i] == '_' || s[i] == '*'
    requires s[0] != '_' && s != "inf" && s != "nan" && s != "infinity"
    ensures SymbolOk(s)
  {
    assert Unsigned(s) == s;
    NotDigitPart(s);
    LowerOfLowercase(s);
    var k := FindChar(s, 'e', 'E');
    if k > 0 {
      var m := s[..k];
      assert m[0] == s[0];
      NoDot(m);
      NotDigitPart(m);
    }
  }

  /** A text without `.` has no decimal point to find. */
  lemma NoDot(m: string)
    requires forall i :: 0 <= i < |m| ==> m[i] != '.'
    ensures FindChar(m, '.', '.') == |m|
  {
  }

  /** Lower-casing leaves a text without capitals unchanged. */
  lemma {:induction false} LowerOfLowercase(s: string)
    requires forall i :: 0 <= i < |s| ==> !('A' <= s[i] <= 'Z')
    ensures Lower(s) == s
  {
    if s != [] {
      LowerOfLowercase(s[1..]);
    }
  }

  // ---------------------------------------------------------------------
  // Three-element lists, the only shape in the program

  /** What a list of three elements prints as. */
  lemma Triple(a: Expr, b: Expr, c: Expr, ta: string, tb: string, tc: string)
    requires Stringify(a) == ta && Stringify(b) == tb && Stringify(c) == tc
    ensures Stringify(List([a, b, c])) == "(" + ta + " " + tb + " " + tc + ")"
  {
    var items := [a, b, c];
    assert seq(|items|, i requires 0 <= i < |items| => Stringify(items[i])) == [ta, tb, tc];
    assert [ta, tb, tc][1..] == [tb, tc] && [tb, tc][1..] == [tc];
    assert JoinSpace([tc]) == tc;
    assert JoinSpace([tb, tc]) == tb + " " + tc;
    assert JoinSpace([ta, tb, tc]) == ta + " " + (tb + " " + tc);
  }

  /** A list of three printable trees is printable. */
  lemma PrintableTriple(a: Expr, b: Expr, c: Expr)
    requires Printable(a) && Printable(b) && Printable(c)
    ensures Printable(List([a, b, c]))
  {
  }

  lemma SymR()
    ensures Printable(Sym("r"))
  {
    WordIsSymbol("r");
  }

  lemma SymStar()
    ensures Printable(Sym("*"))
  {
    WordIsSymbol("*");
  }

  lemma SymPi()
    ensures Printable(Sym("pi"))
  {
    WordIsSymbol("pi");
  }

  lemma SymDefine()
    ensures Printable(Sym("define"))
  {
    WordIsSymbol("define");
  }

  lemma SymArea()
    ensures Printable(Sym("area_circle"))
  {
    WordIsSymbol("area_circle");
  }

  // ---------------------------------------------------------------------
  // The program

  /** The tree the sample expects: `['area_circle', ['define', 'r', 10],
      ['*', 'pi', ['*', 'r', 'r']]]`. */
  function AreaCircle(): Expr
  {
    List([Sym("area_circle"), List([Sym("define"), Sym("r"), Int(10)]),
          List([Sym("*"), Sym("pi"), List([Sym("*"), Sym("r"), Sym("r")])])])
  }

  lemma SquareText()
    ensures Stringify(List([Sym("*"), Sym("r"), Sym("r")])) == "(* r r)"
  {
    Triple(Sym("*"), Sym("r"), Sym("r"), "*", "r", "r");
  }

  lemma AreaText()
    ensures Stringify(List([Sym("*"), Sym("pi"), List([Sym("*"), Sym("r"), Sym("r")])])) == "(* pi (* r r))"
  {
    SquareText();
    Triple(Sym("*"), Sym("pi"), List([Sym("*"), Sym("r"), Sym("r")]), "*", "pi", "(* r r)");
  }

  lemma DefineText()
    ensures Stringify(List([Sym("define"), Sym("r"), Int(10)])) == "(define r 10)"
  {
    assert IntToString(10) == "10";
    Triple(Sym("define"), Sym("r"), Int(10), "define", "r", "10");
  }

  /** The printed text, assembled in two halves. */
  lemma Front()
    ensures "(" + "area_circle" + " " + "(define r 10)" == "(area_circle (define r 10)"
  {
  }

  lemma Back()
    ensures " " + "(* pi (* r r))" + ")" == " (* pi (* r r)))"
  {
  }

  lemma Whole()
    ensures "(area_circle (define r 10)" + " (* pi (* r r)))" == "(area_circle (define r 10) (* pi (* r r)))"
  {
  }

  lemma Regroup(front: string, last: string)
    ensures front + " " + last + ")" == front + (" " + last + ")")
  {
  }

  /** The tree prints as the sample's text. */
  lemma AreaCircleText()
    ensures Stringify(AreaCircle()) == "(area_circle (define r 10) (* pi (* r r)))"
  {
    AreaText();
    DefineText();
    Triple(Sym("area_circle"), List([Sym("define"), Sym("r"), Int(10)]),
           List([Sym("*"), Sym("pi"), List([Sym("*"), Sym("r"), Sym("r")])]),
           "area_circle", "(define r 10)", "(* pi (* r r))");
    Front();
    Back();
    Regroup("(area_circle (define r 10)", "(* pi (* r r))");
    Whole();
  }

  lemma AreaCirclePrintable()
    ensures Printable(AreaCircle())
  {
    SymR();
    SymStar();
    SymPi();
    SymDefine();
    SymArea();
    PrintableTriple(Sym("*"), Sym("r"), Sym("r"));
    PrintableTriple(Sym("*"), Sym("pi"), List([Sym("*"), Sym("r"), Sym("r")]));
    PrintableTriple(Sym("define"), Sym("r"), Int(10));
    PrintableTriple(Sym("area_circle"), List([Sym("define"), Sym("r"), Int(10)]),
                    List([Sym("*"), Sym("pi"), List([Sym("*"), Sym("r"), Sym("r")])]));
  }

  /** A list of three elements is read from two more tokens than the
      elements together. */
  lemma SizeTriple(a: Expr, b: Expr, c: Expr)
    ensures Size(List([a, b, c])) == 2 + Size(a) + Size(b) + Size(c)
  {
    var items := [a, b, c];
    var sizes := seq(|items|, i requires 0 <= i < |items| => Size(items[i]));
    assert sizes == [Size(a), Size(b), Size(c)];
    assert sizes[1..] == [Size(b), Size(c)] && sizes[1..][1..] == [Size(c)];
    assert [Size(c)][1..] == [];
    assert Sum([Size(c)]) == Size(c);
    assert Sum([Size(b), Size(c)]) == Size(b) + Size(c);
    assert Sum(sizes) == Size(a) + Size(b) + Size(c);
  }

  lemma SizeOfAreaCircle()
    ensures Size(AreaCircle()) == 17
  {
    SizeTriple(Sym("*"), Sym("r"), Sym("r"));
    SizeTriple(Sym("*"), Sym("pi"), List([Sym("*"), Sym("r"), Sym("r")]));
    SizeTriple(Sym("define"), Sym("r"), Int(10));
    SizeTriple(Sym("area_circle"), List([Sym("define"), Sym("r"), Int(10)]),
               List([Sym("*"), Sym("pi"), List([Sym("*"), Sym("r"), Sym("r")])]));
  }

  /** The sample's text tokenizes into 17 tokens, and reading them gives
      the expected tree from all 17; `parse` gives the tree alone. The
      sample's own assertion at lines 77-78 compares `parse()` with the pair
      `(tree, 17)`, which is what `read_from_tokens` returns, not `parse`. */
  lemma AreaCircleExample()
    ensures var tokens := Tokenize("(area_circle (define r 10) (* pi (* r r)))");
      && Read(Atom, tokens) == Ok((AreaCircle(), 17))
      && |tokens| == 17
      && Parse(tokens) == Ok(AreaCircle())
  {
    AreaCircleText();
    AreaCirclePrintable();
    RoundTrip(AreaCircle());
    AtomsAreNotLists();
    ReadSize(Atom, Tokenize(Stringify(AreaCircle())));
    SizeOfAreaCircle();
  }
}
