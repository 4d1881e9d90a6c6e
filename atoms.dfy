/** Turning a token into an atom (`Parser.atom`, lsp_parser.py:36-47) and
    rendering an integer back to text (`str` on an int). */
module Atoms {
  import opened Sexpr

  predicate IsDigit(c: char)
  {
    '0' <= c <= '9'
  }

  /** Python's `digitpart`: a digit, then digits, each optionally preceded by
      a single underscore. */
  predicate DigitPart(s: string)
    decreases |s|
  {
    && |s| > 0
    && IsDigit(s[0])
    && (|s| == 1 || if s[1] == '_' then DigitPart(s[2..]) else DigitPart(s[1..]))
  }

  /** A non-empty run of plain digits is a `digitpart`. */
  lemma {:induction false} DigitsArePart(s: string)
    requires |s| > 0 && forall i :: 0 <= i < |s| ==> IsDigit(s[i])
    ensures DigitPart(s)
    decreases |s|
  {
    if |s| > 1 {
      assert s[1] != '_' by {
        assert IsDigit(s[1]);
      }
      assert forall i :: 0 <= i < |s[1..]| ==> s[1..][i] == s[i + 1];
      DigitsArePart(s[1..]);
    }
  }

  /** The token without its leading sign, if it has one. */
  function Unsigned(t: string): (u: string)
    ensures |u| <= |t|
  {
    if |t| > 0 && (t[0] == '+' || t[0] == '-') then t[1..] else t
  }

  /** The lexical form `int(token)` accepts: an optional sign, then digits. */
  predicate IntForm(t: string)
  {
    DigitPart(Unsigned(t))
  }

  /** The value of a run of digits, underscores skipped. */
  function DigitsValue(s: string): nat
  {
    if s == [] then 0
    else if IsDigit(s[|s| - 1]) then DigitsValue(s[..|s| - 1]) * 10 + (s[|s| - 1] as int - '0' as int)
    else DigitsValue(s[..|s| - 1])
  }

  /** `int(token)` for a token of integer form. */
  function IntValue(t: string): int
    requires IntForm(t)
  {
    var v: int := DigitsValue(Unsigned(t));
    if t[0] == '-' then -v else v
  }

  /** The index of the first occurrence of `c1` or `c2` in `s`, or `|s|`. */
  function FindChar(s: string, c1: char, c2: char): (i: nat)
    ensures i <= |s|
    ensures forall j :: 0 <= j < i ==> s[j] != c1 && s[j] != c2
    ensures i < |s| ==> s[i] == c1 || s[i] == c2
  {
    if s == [] || s[0] == c1 || s[0] == c2 then 0 else 1 + FindChar(s[1..], c1, c2)
  }

  /** The mantissa of a decimal float: `digits`, `digits.`, `.digits` or `digits.digits`. */
  predicate Mantissa(m: string)
  {
    var p := FindChar(m, '.', '.');
    if p == |m| then DigitPart(m)
    else
      && (p == 0 || DigitPart(m[..p]))
      && (p + 1 == |m| || DigitPart(m[p + 1..]))
      && !(p == 0 && p + 1 == |m|)
  }

  /** A decimal float: a mantissa and an optional exponent `e`/`E` with a signed integer. */
  predicate DecimalForm(u: string)
  {
    var k := FindChar(u, 'e', 'E');
    Mantissa(u[..k]) && (k == |u| || IntForm(u[k + 1..]))
  }

  function Lower(s: string): string
  {
    if s == [] then []
    else [if 'A' <= s[0] <= 'Z' then (s[0] as int + 32) as char else s[0]] + Lower(s[1..])
  }

  /** `inf`, `infinity` or `nan`, in any letter case. */
  predicate SpecialFloat(u: string)
  {
    Lower(u) == "inf" || Lower(u) == "infinity" || Lower(u) == "nan"
  }

  /** The lexical form `float(token)` accepts: an optional sign, then a decimal
      float or one of the special names. */
  predicate FloatForm(t: string)
  {
    var u := Unsigned(t);
    SpecialFloat(u) || DecimalForm(u)
  }

  /** `Parser.atom`: an int when the token has integer form, else a float when
      it has float form, else the token itself as a symbol. */
  function Atom(token: string): (r: Expr)
    ensures !r.List?
    ensures r.Float? ==> r.text == token
    ensures r.Sym? ==> r.name == token
  {
    if IntForm(token) then Int(IntValue(token))
    else if FloatForm(token) then Float(token)
    else Sym(token)
  }

  /** `int(token)` is tried first, then `float(token)`; a token neither
      accepts stays a symbol, and a float keeps its text. */
  lemma AtomKinds(token: string)
    ensures Atom(token).Int? <==> IntForm(token)
    ensures Atom(token).Int? ==> Atom(token).n == IntValue(token)
    ensures Atom(token).Float? <==> !IntForm(token) && FloatForm(token)
    ensures Atom(token).Float? ==> Atom(token).text == token
    ensures Atom(token).Sym? <==> !IntForm(token) && !FloatForm(token)
    ensures Atom(token).Sym? ==> Atom(token).name == token
  {
  }

  /** No token converts to a list. */
  lemma AtomsAreNotLists()
    ensures forall t :: !Atom(t).List?
  {
  }

  // ---------------------------------------------------------------------
  // Rendering integers

  function DigitChar(d: nat): char
    requires d < 10
  {
    ('0' as int + d) as char
  }

  /** Decimal digits of a natural number, most significant first. */
  function NatToString(n: nat): string
  {
    if n < 10 then [DigitChar(n)] else NatToString(n / 10) + [DigitChar(n % 10)]
  }

  /** `str(n)` for an int: an optional `-`, then the decimal digits. */
  function IntToString(n: int): string
  {
    if n < 0 then "-" + NatToString(-n) else NatToString(n)
  }

  lemma {:induction false} NatToStringDigits(n: nat)
    ensures |NatToString(n)| > 0
    ensures forall i :: 0 <= i < |NatToString(n)| ==> IsDigit(NatToString(n)[i])
    ensures DigitsValue(NatToString(n)) == n
  {
    if n >= 10 {
      NatToStringDigits(n / 10);
      var s := NatToString(n);
      assert s[..|s| - 1] == NatToString(n / 10);
    }
  }

  /** Reading back what `str` writes: `int(str(n)) == n`. */
  lemma IntToStringRoundTrip(n: int)
    ensures IntForm(IntToString(n))
    ensures IntValue(IntToString(n)) == n
  {
    var m := if n < 0 then -n else n;
    NatToStringDigits(m);
    DigitsArePart(NatToString(m));
    var s := IntToString(n);
    assert Unsigned(s) == NatToString(m);
  }

  /** The text of an integer holds only a sign and digits. */
  lemma IntToStringChars(n: int)
    ensures |IntToString(n)| > 0
    ensures forall i :: 0 <= i < |IntToString(n)| ==> IntToString(n)[i] == '-' || IsDigit(IntToString(n)[i])
  {
    var m := if n < 0 then -n else n;
    NatToStringDigits(m);
  }

  /** Every rendered integer is read back as that integer. */
  lemma AtomOfIntToString(n: int)
    ensures Atom(IntToString(n)) == Int(n)
  {
    IntToStringRoundTrip(n);
  }
}
