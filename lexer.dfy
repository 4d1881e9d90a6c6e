/** The tokenizer: pad every parenthesis with spaces, then split the text on
    whitespace, exactly as Python's `str.replace` and `str.split()` do. */
module Lexer {
  import opened Sexpr

  /** The characters Python's `str.split()` treats as whitespace. */
  predicate IsSpace(c: char)
  {
    c == ' ' || c == '\t' || c == '\n' || c == '\r' || c == '\U{B}' || c == '\U{C}'
    || ('\U{1C}' <= c <= '\U{1F}') || c == '\U{85}' || c == '\U{A0}' || c == '\U{1680}'
    || ('\U{2000}' <= c <= '\U{200A}') || c == '\U{2028}' || c == '\U{2029}'
    || c == '\U{202F}' || c == '\U{205F}' || c == '\U{3000}'
  }

  predicate IsParen(c: char)
  {
    c == '(' || c == ')'
  }

  /** `s.replace(c, repl)` for a one-character pattern. */
  function Replace(s: string, c: char, repl: string): string
  {
    if s == [] then [] else (if s[0] == c then repl else [s[0]]) + Replace(s[1..], c, repl)
  }

  /** The length of the longest prefix of `s` without whitespace. */
  function WordLen(s: string): (n: nat)
    ensures n <= |s|
    ensures forall i :: 0 <= i < n ==> !IsSpace(s[i])
    ensures n < |s| ==> IsSpace(s[n])
  {
    if s == [] || IsSpace(s[0]) then 0 else 1 + WordLen(s[1..])
  }

  /** `s.split()`: the maximal runs of non-whitespace characters, in order. */
  function Split(s: string): seq<string>
    decreases |s|
  {
    if s == [] then []
    else if IsSpace(s[0]) then Split(s[1..])
    else
      var n := WordLen(s);
      [s[..n]] + Split(s[n..])
  }

  /** `tokenize` (lsp_parser.py:19). */
  function Tokenize(text: string): (r: seq<string>)
    ensures r == Split(Pad(text))
  {
    ReplaceTwiceIsPad(text);
    Split(Replace(Replace(text, '(', " ( "), ')', " ) "))
  }

  // ---------------------------------------------------------------------
  // Properties of the tokenizer

  /** The text with its whitespace removed. */
  function RemoveSpace(s: string): string
  {
    if s == [] then [] else (if IsSpace(s[0]) then [] else [s[0]]) + RemoveSpace(s[1..])
  }

  /** Both replacements at once: every parenthesis surrounded by two spaces. */
  function Pad(s: string): string
  {
    if s == [] then []
    else (if s[0] == '(' then " ( " else if s[0] == ')' then " ) " else [s[0]]) + Pad(s[1..])
  }

  /** Every parenthesis stands between whitespace or an end of the text. */
  predicate Isolated(s: string)
  {
    forall i :: 0 <= i < |s| && IsParen(s[i]) ==>
      (i == 0 || IsSpace(s[i - 1])) && (i + 1 == |s| || IsSpace(s[i + 1]))
  }

  /** A token: not empty, without whitespace, and a parenthesis only alone. */
  predicate WellShaped(t: string)
  {
    && |t| > 0
    && (forall i :: 0 <= i < |t| ==> !IsSpace(t[i]))
    && (forall i :: 0 <= i < |t| && IsParen(t[i]) ==> t == [t[i]])
  }

  lemma {:induction false} ReplaceAppend(a: string, b: string, c: char, repl: string)
    ensures Replace(a + b, c, repl) == Replace(a, c, repl) + Replace(b, c, repl)
  {
    if a != [] {
      assert (a + b)[1..] == a[1..] + b;
      ReplaceAppend(a[1..], b, c, repl);
    } else {
      assert a + b == b;
    }
  }

  lemma {:induction false} ReplaceTwiceIsPad(s: string)
    ensures Replace(Replace(s, '(', " ( "), ')', " ) ") == Pad(s)
  {
    if s != [] {
      var head := if s[0] == '(' then " ( " else [s[0]];
      assert Replace(s, '(', " ( ") == head + Replace(s[1..], '(', " ( ");
      ReplaceAppend(head, Replace(s[1..], '(', " ( "), ')', " ) ");
      if s[0] == '(' {
        assert Replace(head, ')', " ) ") == " ( ";
      } else if s[0] == ')' {
        assert Replace(head, ')', " ) ") == " ) ";
      } else {
        assert Replace(head, ')', " ) ") == [s[0]];
      }
      ReplaceTwiceIsPad(s[1..]);
    }
  }

  lemma {:induction false} PadAppend(a: string, b: string)
    ensures Pad(a + b) == Pad(a) + Pad(b)
  {
    if a != [] {
      assert (a + b)[0] == a[0] && (a + b)[1..] == a[1..] + b;
      PadAppend(a[1..], b);
    } else {
      assert a + b == b;
    }
  }

  /** Text without parentheses is left as it is by the padding. */
  lemma {:induction false} PadNoParens(s: string)
    requires forall i :: 0 <= i < |s| ==> !IsParen(s[i])
    ensures Pad(s) == s
  {
    if s != [] {
      PadNoParens(s[1..]);
    }
  }

  lemma {:induction false} RemoveSpaceAppend(a: string, b: string)
    ensures RemoveSpace(a + b) == RemoveSpace(a) + RemoveSpace(b)
  {
    if a != [] {
      assert (a + b)[0] == a[0] && (a + b)[1..] == a[1..] + b;
      RemoveSpaceAppend(a[1..], b);
    } else {
      assert a + b == b;
    }
  }

  lemma {:induction false} RemoveSpaceOfWord(s: string)
    requires forall i :: 0 <= i < |s| ==> !IsSpace(s[i])
    ensures RemoveSpace(s) == s
  {
    if s != [] {
      RemoveSpaceOfWord(s[1..]);
    }
  }

  lemma RemoveSpaceOfPadChar(c: char)
    ensures RemoveSpace(Pad([c])) == RemoveSpace([c])
  {
    assert [c][1..] == [];
    assert RemoveSpace([c]) == (if IsSpace(c) then [] else [c]) + RemoveSpace([]);
    if IsParen(c) {
      var head := if c == '(' then " ( " else " ) ";
      assert Pad([c]) == head + Pad([]);
      assert head == [' '] + [c] + [' '];
      RemoveSpaceAppend([' '] + [c], [' ']);
      RemoveSpaceAppend([' '], [c]);
      assert RemoveSpace([' ']) == [] by {
        assert [' '][1..] == [];
      }
      assert RemoveSpace(head) == [c] && [c] + [] == [c];
      assert head + [] == head;
      assert Pad([c]) == head;
      assert !IsSpace(c);
      assert RemoveSpace([c]) == [c];
    } else {
      assert Pad([c]) == [c] + Pad([]);
    }
  }

  lemma {:induction false} RemoveSpaceOfPad(s: string)
    ensures RemoveSpace(Pad(s)) == RemoveSpace(s)
  {
    if s != [] {
      assert s == [s[0]] + s[1..];
      PadAppend([s[0]], s[1..]);
      RemoveSpaceAppend(Pad([s[0]]), Pad(s[1..]));
      RemoveSpaceAppend([s[0]], s[1..]);
      RemoveSpaceOfPadChar(s[0]);
      RemoveSpaceOfPad(s[1..]);
    }
  }

  /** Splitting drops exactly the whitespace: the tokens, joined, are the
      text's non-whitespace characters in order. */
  lemma {:induction false} SplitContent(s: string)
    ensures Flatten(Split(s)) == RemoveSpace(s)
    decreases |s|
  {
    if s != [] {
      if IsSpace(s[0]) {
        SplitContent(s[1..]);
      } else {
        var n := WordLen(s);
        assert s == s[..n] + s[n..];
        RemoveSpaceAppend(s[..n], s[n..]);
        RemoveSpaceOfWord(s[..n]);
        SplitContent(s[n..]);
      }
    }
  }

  /** Every piece of a split is a non-empty run without whitespace, and when
      the text has its parentheses isolated, a piece holding a parenthesis is
      that parenthesis alone. */
  lemma {:induction false} SplitShape(s: string)
    requires Isolated(s)
    ensures forall t :: t in Split(s) ==> WellShaped(t)
    decreases |s|
  {
    if s != [] {
      if IsSpace(s[0]) {
        assert Isolated(s[1..]);
        SplitShape(s[1..]);
      } else {
        var n := WordLen(s);
        var w := s[..n];
        forall i | 1 <= i < n ensures !IsParen(s[i]) {
          assert !IsSpace(s[i - 1]);
        }
        if IsParen(s[0]) {
          assert 1 == |s| || IsSpace(s[1]);
          assert n == 1;
        }
        assert WellShaped(w);
        assert Isolated(s[n..]);
        SplitShape(s[n..]);
      }
    }
  }

  lemma {:induction false} IsolatedAppend(a: string, b: string)
    requires Isolated(a) && Isolated(b)
    requires a != [] ==> !IsParen(a[|a| - 1])
    requires b != [] ==> !IsParen(b[0])
    ensures Isolated(a + b)
  {
    var s := a + b;
    forall i | 0 <= i < |s| && IsParen(s[i])
      ensures (i == 0 || IsSpace(s[i - 1])) && (i + 1 == |s| || IsSpace(s[i + 1]))
    {
      if i < |a| {
        assert a[i] == s[i];
      } else {
        assert b[i - |a|] == s[i];
      }
    }
  }

  /** After padding, every parenthesis is isolated, and the padded text
      neither starts nor ends with one. */
  lemma {:induction false} PadIsolated(s: string)
    ensures Isolated(Pad(s))
    ensures Pad(s) != [] ==> !IsParen(Pad(s)[0]) && !IsParen(Pad(s)[|Pad(s)| - 1])
  {
    if s != [] {
      var head := if s[0] == '(' then " ( " else if s[0] == ')' then " ) " else [s[0]];
      PadIsolated(s[1..]);
      assert Isolated(head);
      IsolatedAppend(head, Pad(s[1..]));
    }
  }

  /** Every token is non-empty and holds no whitespace, and every `(` and `)`
      of the text is a token of its own (lsp_parser.py:19). */
  lemma TokenizeShape(text: string)
    ensures forall t :: t in Tokenize(text) ==> WellShaped(t)
  {
    ReplaceTwiceIsPad(text);
    PadIsolated(text);
    SplitShape(Pad(text));
  }

  /** No character other than whitespace is lost or reordered: the tokens,
      joined, are the text without its whitespace. */
  lemma TokenizeContent(text: string)
    ensures Flatten(Tokenize(text)) == RemoveSpace(text)
  {
    ReplaceTwiceIsPad(text);
    SplitContent(Pad(text));
    RemoveSpaceOfPad(text);
  }

  lemma {:induction false} RemoveSpaceEmpty(s: string)
    ensures RemoveSpace(s) == [] <==> forall i :: 0 <= i < |s| ==> IsSpace(s[i])
  {
    if s != [] {
      RemoveSpaceEmpty(s[1..]);
      assert forall i :: 1 <= i < |s| ==> s[1..][i - 1] == s[i];
    }
  }

  lemma {:induction false} FlattenWordsEmpty(ts: seq<string>)
    requires forall t :: t in ts ==> |t| > 0
    ensures Flatten(ts) == [] <==> ts == []
  {
    if ts != [] {
      assert ts[0] in ts;
    }
  }

  /** The token list is empty exactly when the text is empty or whitespace
      only (lsp_parser.py:19). */
  lemma TokenizeBlank(text: string)
    ensures Tokenize(text) == [] <==> forall i :: 0 <= i < |text| ==> IsSpace(text[i])
  {
    TokenizeShape(text);
    TokenizeContent(text);
    FlattenWordsEmpty(Tokenize(text));
    RemoveSpaceEmpty(text);
  }

  lemma {:induction false} WordLenSpaceJoin(x: string, y: string)
    ensures WordLen(x + [' '] + y) == WordLen(x)
  {
    if x != [] && !IsSpace(x[0]) {
      assert (x + [' '] + y)[1..] == x[1..] + [' '] + y;
      WordLenSpaceJoin(x[1..], y);
    }
  }

  /** Splitting two texts joined by a space splits each of them. */
  lemma {:induction false} SplitSpaceJoin(x: string, y: string)
    ensures Split(x + [' '] + y) == Split(x) + Split(y)
    decreases |x|
  {
    var s := x + [' '] + y;
    if x == [] {
      assert s[1..] == y;
    } else if IsSpace(x[0]) {
      assert s[1..] == x[1..] + [' '] + y;
      SplitSpaceJoin(x[1..], y);
    } else {
      var n := WordLen(x);
      WordLenSpaceJoin(x, y);
      assert s[..n] == x[..n];
      assert s[n..] == x[n..] + [' '] + y;
      SplitSpaceJoin(x[n..], y);
    }
  }
}
