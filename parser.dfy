/** The reader: `Parser.read_from_tokens` and `Parser.parse`
    (lsp_parser.py:27-72). */
module Parser {
  import opened Sexpr
  import opened Atoms

  /** What `read_from_tokens` returns: the tree and the number of tokens used. */
  type Reading = (Expr, nat)

  /** `read_from_tokens(tokens)` as a function, with `atom` the conversion it
      applies to a token that is not a parenthesis (`Parser.atom`, modelled by
      `Atoms.Atom`). An atom token is used alone; an opening parenthesis reads
      elements until the matching `)`. The conversion is a parameter because
      the shape of the reading does not depend on it: the lemmas below hold
      for any conversion. */
  function Read(atom: string -> Expr, tokens: seq<string>): (r: Result<Reading>)
    ensures r.Ok? ==> 1 <= r.value.1 <= |tokens|
    ensures r.Err? ==> r.error == (if tokens == [] then UnexpectedEOF
                                   else if tokens[0] == ")" then UnexpectedClose
                                   else IndexOutOfRange)
    decreases |tokens|, 1
  {
    if tokens == [] then Err(UnexpectedEOF)
    else if tokens[0] == "(" then ReadList(atom, tokens, 1, [])
    else if tokens[0] == ")" then Err(UnexpectedClose)
    else Ok((atom(tokens[0]), 1))
  }

  /** The `while` loop of lsp_parser.py:64-68 from index `idx`, with the
      elements `acc` read so far. Running off the end is the IndexError of
      `tokens[idx]`. */
  function ReadList(atom: string -> Expr, tokens: seq<string>, idx: nat, acc: seq<Expr>): (r: Result<Reading>)
    requires 1 <= idx <= |tokens|
    ensures r.Ok? ==> idx < r.value.1 <= |tokens| && r.value.0.List?
    ensures r.Err? ==> r.error == IndexOutOfRange
    decreases |tokens|, 0, |tokens| - idx
  {
    if idx == |tokens| then Err(IndexOutOfRange)
    else if tokens[idx] == ")" then Ok((List(acc), idx + 1))
    else
      match Read(atom, tokens[idx..])
      case Err(e) => Err(e)
      case Ok((x, n)) => ReadList(atom, tokens, idx + n, acc + [x])
  }

  /** One turn of the loop: an element is read from `idx` on and appended. */
  lemma ReadListStep(atom: string -> Expr, tokens: seq<string>, idx: nat, acc: seq<Expr>, x: Expr, n: nat)
    requires 1 <= idx < |tokens| && tokens[idx] != ")"
    requires Read(atom, tokens[idx..]) == Ok((x, n))
    ensures idx + n <= |tokens|
    ensures ReadList(atom, tokens, idx, acc) == ReadList(atom, tokens, idx + n, acc + [x])
  {
  }

  /** The same turn, for a loop whose later turns are known to give `v`. */
  lemma ReadListStepTo(atom: string -> Expr, tokens: seq<string>, idx: nat, acc: seq<Expr>, x: Expr, n: nat,
                       more: seq<Expr>, v: Result<Reading>)
    requires 1 <= idx < |tokens| && tokens[idx] != ")"
    requires Read(atom, tokens[idx..]) == Ok((x, n))
    requires more == acc + [x] && idx + n <= |tokens|
    requires ReadList(atom, tokens, idx + n, more) == v
    ensures ReadList(atom, tokens, idx, acc) == v
  {
    ReadListStep(atom, tokens, idx, acc, x, n);
  }

  /** `read_from_tokens` as the source writes it: a loop that advances `idx`
      and appends to `L`, calling itself on the remaining tokens and the
      conversion on a token that is not a parenthesis. */
  method ReadFromTokens(atom: string -> Expr, tokens: seq<string>) returns (r: Result<Reading>)
    ensures r == Read(atom, tokens)
    decreases |tokens|
  {
    if tokens == [] {
      return Err(UnexpectedEOF);
    }
    var idx := 0;
    if tokens[idx] == "(" {
      idx := idx + 1;
      var L: seq<Expr> := [];
      while idx < |tokens| && tokens[idx] != ")"
        invariant 1 <= idx <= |tokens|
        invariant ReadList(atom, tokens, idx, L) == Read(atom, tokens)
        decreases |tokens| - idx
      {
        var sub := ReadFromTokens(atom, tokens[idx..]);
        if sub.Err? {
          return Err(sub.error);
        }
        var (exp, consumed) := sub.value;
        ReadListStep(atom, tokens, idx, L, exp, consumed);
        idx := idx + consumed;
        L := L + [exp];
      }
      if idx == |tokens| {
        return Err(IndexOutOfRange);
      }
      return Ok((List(L), idx + 1));
    } else if tokens[idx] == ")" {
      return Err(UnexpectedClose);
    } else {
      return Ok((atom(tokens[idx]), 1));
    }
  }

  /** `Parser(tokens).parse()`: the first complete expression only. */
  function Parse(tokens: seq<string>): (r: Result<Expr>)
    ensures r == Err(UnexpectedEOF) <==> tokens == []
    ensures r == Err(UnexpectedClose) <==> tokens != [] && tokens[0] == ")"
    ensures tokens != [] && tokens[0] != "(" && tokens[0] != ")" ==> r == Ok(Atom(tokens[0]))
    ensures tokens != [] && tokens[0] == "(" ==> r.Err? ==> r.error == IndexOutOfRange
  {
    match Read(Atom, tokens)
    case Ok((e, _)) => Ok(e)
    case Err(err) => Err(err)
  }

  // ---------------------------------------------------------------------
  // Token counts

  function Sum(ns: seq<nat>): nat
  {
    if ns == [] then 0 else ns[0] + Sum(ns[1..])
  }

  /** The number of tokens a tree is read from: one per atom, and two
      parentheses plus the elements' counts per list. */
  function Size(e: Expr): nat
  {
    match e
    case List(items) => 2 + Sum(seq(|items|, i requires 0 <= i < |items| => Size(items[i])))
    case _ => 1
  }

  function Sizes(xs: seq<Expr>): seq<nat>
  {
    seq(|xs|, i requires 0 <= i < |xs| => Size(xs[i]))
  }

  lemma {:induction false} SumAppend(a: seq<nat>, b: seq<nat>)
    ensures Sum(a + b) == Sum(a) + Sum(b)
  {
    if a != [] {
      assert (a + b)[1..] == a[1..] + b;
      SumAppend(a[1..], b);
    } else {
      assert a + b == b;
    }
  }

  /** The count the loop has consumed: `idx` is one for `(` plus the counts of
      the elements read so far. */
  lemma {:induction false} ReadListSize(atom: string -> Expr, tokens: seq<string>, idx: nat, acc: seq<Expr>)
    requires 1 <= idx <= |tokens|
    requires forall t :: !atom(t).List?
    requires idx == 1 + Sum(Sizes(acc))
    requires ReadList(atom, tokens, idx, acc).Ok?
    ensures ReadList(atom, tokens, idx, acc).value.1 == Size(ReadList(atom, tokens, idx, acc).value.0)
    decreases |tokens|, 0, |tokens| - idx
  {
    if tokens[idx] == ")" {
    } else {
      var sub := Read(atom, tokens[idx..]);
      var (x, n) := sub.value;
      ReadListStep(atom, tokens, idx, acc, x, n);
      ReadSize(atom, tokens[idx..]);
      assert Sizes(acc + [x]) == Sizes(acc) + [Size(x)];
      SumAppend(Sizes(acc), [Size(x)]);
      ReadListSize(atom, tokens, idx + n, acc + [x]);
    }
  }

  /** A list uses 2 plus the sum of its elements' counts, an atom 1
      (lsp_parser.py:68, 72). */
  lemma {:induction false} ReadSize(atom: string -> Expr, tokens: seq<string>)
    requires forall t :: !atom(t).List?
    requires Read(atom, tokens).Ok?
    ensures Read(atom, tokens).value.1 == Size(Read(atom, tokens).value.0)
    decreases |tokens|, 1
  {
    if tokens[0] == "(" {
      assert Sizes([]) == [];
      ReadListSize(atom, tokens, 1, []);
    }
  }

  // ---------------------------------------------------------------------
  // Only the tokens used matter

  /** Two token lists that agree on their first `m` tokens agree on any
      slice inside them. */
  lemma SliceAgree(tokens: seq<string>, other: seq<string>, m: nat, idx: nat, n: nat)
    requires idx + n <= m <= |tokens| && m <= |other|
    requires tokens[..m] == other[..m]
    ensures tokens[idx..][..n] == other[idx..][..n]
  {
    assert tokens[idx..][..n] == tokens[..m][idx..idx + n];
    assert other[idx..][..n] == other[..m][idx..idx + n];
  }

  lemma {:induction false} ReadListAgree(atom: string -> Expr, tokens: seq<string>, other: seq<string>, m: nat, idx: nat, acc: seq<Expr>)
    requires 1 <= idx <= m && m <= |tokens| && m <= |other|
    requires tokens[..m] == other[..m]
    requires ReadList(atom, tokens, idx, acc).Ok? && ReadList(atom, tokens, idx, acc).value.1 <= m
    ensures ReadList(atom, other, idx, acc) == ReadList(atom, tokens, idx, acc)
    decreases |tokens| - idx
  {
    assert tokens[idx] == other[idx] by {
      assert tokens[idx] == tokens[..m][idx] && other[idx] == other[..m][idx];
    }
    if tokens[idx] != ")" {
      var (x, n) := Read(atom, tokens[idx..]).value;
      ReadListStep(atom, tokens, idx, acc, x, n);
      SliceAgree(tokens, other, m, idx, n);
      ReadPrefix(atom, tokens[idx..], other[idx..]);
      ReadListStep(atom, other, idx, acc, x, n);
      ReadListAgree(atom, tokens, other, m, idx + n, acc + [x]);
    }
  }

  /** Reading looks only at the tokens it uses: any token list that agrees
      with `tokens` on them reads the same tree with the same count. */
  lemma {:induction false} ReadPrefix(atom: string -> Expr, tokens: seq<string>, other: seq<string>)
    requires Read(atom, tokens).Ok?
    requires Read(atom, tokens).value.1 <= |other|
    requires tokens[..Read(atom, tokens).value.1] == other[..Read(atom, tokens).value.1]
    ensures Read(atom, other) == Read(atom, tokens)
    decreases |tokens|, 1
  {
    var m := Read(atom, tokens).value.1;
    assert tokens[0] == tokens[..m][0] == other[..m][0] == other[0];
    if tokens[0] == "(" {
      ReadListAgree(atom, tokens, other, m, 1, []);
    }
  }

  /** `parse` ignores whatever follows the first complete expression
      (lsp_parser.py:32-33). */
  lemma ParseIgnoresTrailing(tokens: seq<string>, rest: seq<string>)
    requires Read(Atom, tokens).Ok?
    ensures Parse(tokens[..Read(Atom, tokens).value.1] + rest) == Parse(tokens)
  {
    var m := Read(Atom, tokens).value.1;
    var other := tokens[..m] + rest;
    assert other[..m] == tokens[..m];
    ReadPrefix(Atom, tokens, other);
  }

  // ---------------------------------------------------------------------
  // Failures

  /** No token list makes reading fail with a kind other than the three the
      source raises, and each has exactly its cause (lsp_parser.py:57-58,
      64, 69-70). */
  lemma ReadErrors(atom: string -> Expr, tokens: seq<string>)
    ensures Read(atom, tokens) == Err(UnexpectedEOF) <==> tokens == []
    ensures Read(atom, tokens) == Err(UnexpectedClose) <==> tokens != [] && tokens[0] == ")"
    ensures Read(atom, tokens).Err? ==> Read(atom, tokens).error in {UnexpectedEOF, UnexpectedClose, IndexOutOfRange}
  {
  }

  // ---------------------------------------------------------------------
  // Parenthesis balance

  /** How much a token opens: 1 for `(`, -1 for `)`, 0 otherwise. */
  function Opens(t: string): int
  {
    if t == "(" then 1 else if t == ")" then -1 else 0
  }

  /** The number of opening parentheses in `ts` minus the closing ones. */
  function Depth(ts: seq<string>): int
  {
    if ts == [] then 0 else Depth(ts[..|ts| - 1]) + Opens(ts[|ts| - 1])
  }

  lemma {:induction false} DepthAppend(a: seq<string>, b: seq<string>)
    ensures Depth(a + b) == Depth(a) + Depth(b)
    decreases |b|
  {
    if b == [] {
      assert a + b == a;
    } else {
      assert (a + b)[..|a + b| - 1] == a + b[..|b| - 1];
      DepthAppend(a, b[..|b| - 1]);
    }
  }

  /** The depth after `idx + j` tokens is the depth after `idx` plus that of
      the `j` tokens from `idx` on. */
  lemma DepthSplit(tokens: seq<string>, idx: nat, j: nat)
    requires idx + j <= |tokens|
    ensures Depth(tokens[..idx + j]) == Depth(tokens[..idx]) + Depth(tokens[idx..][..j])
  {
    assert tokens[..idx + j] == tokens[..idx] + tokens[idx..][..j];
    DepthAppend(tokens[..idx], tokens[idx..][..j]);
  }

  /** The tokens a reading uses are balanced, and inside a list every proper
      prefix of them has more opening parentheses than closing ones. */
  lemma {:induction false} ReadBalanced(atom: string -> Expr, tokens: seq<string>)
    requires Read(atom, tokens).Ok?
    ensures Depth(tokens[..Read(atom, tokens).value.1]) == 0
    ensures forall k :: 0 < k < Read(atom, tokens).value.1 ==> Depth(tokens[..k]) > 0
    decreases |tokens|, 1
  {
    DepthSplit(tokens, 0, 1);
    assert tokens[..0] == [] && tokens[0..][..1] == tokens[..1];
    assert tokens[..1][..0] == [];
    if tokens[0] == "(" {
      ReadListBalanced(atom, tokens, 1, []);
    }
  }

  /** The loop from `idx` at depth `d` stops on the `)` that brings the depth
      to `d - 1`, and never goes below `d` before it. */
  lemma {:induction false} ReadListBalanced(atom: string -> Expr, tokens: seq<string>, idx: nat, acc: seq<Expr>)
    requires 1 <= idx <= |tokens| && ReadList(atom, tokens, idx, acc).Ok?
    ensures Depth(tokens[..ReadList(atom, tokens, idx, acc).value.1]) == Depth(tokens[..idx]) - 1
    ensures forall k :: idx <= k < ReadList(atom, tokens, idx, acc).value.1 ==> Depth(tokens[..k]) >= Depth(tokens[..idx])
    decreases |tokens|, 0, |tokens| - idx
  {
    var d := Depth(tokens[..idx]);
    var n := ReadList(atom, tokens, idx, acc).value.1;
    DepthSplit(tokens, idx, 1);
    assert tokens[idx..][..1][..0] == [];
    if tokens[idx] != ")" {
      var (y, m) := Read(atom, tokens[idx..]).value;
      ReadListStep(atom, tokens, idx, acc, y, m);
      ReadBalanced(atom, tokens[idx..]);
      DepthSplit(tokens, idx, m);
      ReadListBalanced(atom, tokens, idx + m, acc + [y]);
      forall k | idx < k < idx + m
        ensures Depth(tokens[..k]) > d
      {
        DepthSplit(tokens, idx, k - idx);
      }
    }
  }

  /** Reading succeeds only if the depth comes back to 0 within the tokens. */
  lemma ReadOkBalanced(atom: string -> Expr, tokens: seq<string>)
    ensures Read(atom, tokens).Ok? ==> Depth(tokens[..Read(atom, tokens).value.1]) == 0
  {
    if Read(atom, tokens).Ok? {
      ReadBalanced(atom, tokens);
    }
  }

  /** An opening parenthesis that no later `)` closes runs off the end:
      `tokens[idx]` at lsp_parser.py:64 is out of range. */
  lemma ReadUnclosed(atom: string -> Expr, tokens: seq<string>)
    requires tokens != [] && tokens[0] == "("
    requires forall k :: 0 < k <= |tokens| ==> Depth(tokens[..k]) > 0
    ensures Read(atom, tokens) == Err(IndexOutOfRange)
  {
    ReadOkBalanced(atom, tokens);
  }

  /** A token other than a parenthesis is read alone as its atom
      (lsp_parser.py:71-72). */
  lemma ReadAtom(atom: string -> Expr, tokens: seq<string>)
    requires tokens != [] && tokens[0] != "(" && tokens[0] != ")"
    ensures Read(atom, tokens) == Ok((atom(tokens[0]), 1))
  {
  }
}
