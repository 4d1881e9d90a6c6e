/** The list and integer procedures of `Environment.standard_environment`
    (evironment.py:24-54), with Python's operator semantics on the values the
    model has. */
module Primitives {
  import opened Sexpr
  import opened Environment

  /** Python `int` values; `bool` is a subclass of `int`. */
  predicate IsNumber(v: Value)
  {
    v.VInt? || v.VBool?
  }

  function NumValue(v: Value): int
    requires IsNumber(v)
  {
    if v.VInt? then v.i else if v.b then 1 else 0
  }

  /** Both operands are numbers and at least one is a float: the result would
      be a float, which the model does not compute. */
  predicate FloatMix(a: Value, b: Value)
  {
    (a.VFloat? || IsNumber(a)) && (b.VFloat? || IsNumber(b)) && (a.VFloat? || b.VFloat?)
  }

  /** `bool(v)`: zero, `False`, the empty string, the empty list and `None`
      are false; every procedure is true. */
  function Truthy(v: Value): (r: Result<bool>)
    ensures r.Err? <==> v.VFloat?
    ensures r.Err? ==> r.error == Unmodelled
  {
    match v
    case VInt(n) => Ok(n != 0)
    case VBool(b) => Ok(b)
    case VFloat(_) => Err(Unmodelled)
    case VSym(s) => Ok(s != "")
    case VList(xs) => Ok(xs != [])
    case VClosure(_, _, _) => Ok(true)
    case VPrim(_) => Ok(true)
    case VNone => Ok(false)
  }

  /** `xs * n` for a list or a string: `n` copies, none when `n <= 0`. */
  function Repeat<T>(xs: seq<T>, n: int): (r: seq<T>)
    ensures |r| == if n <= 0 then 0 else |xs| * n
    decreases n
  {
    if n <= 0 then [] else xs + Repeat(xs, n - 1)
  }

  /** `a == b` (`op.eq`). Numbers compare by value, strings and lists by
      contents (lists of different lengths are unequal at once), and values
      of different kinds are unequal. Built-ins compare by identity, which is
      the procedure itself; closures compare by object identity, which the
      model does not track. */
  function ValueEq(a: Value, b: Value): (r: Result<bool>)
    ensures r.Err? ==> r.error == Unmodelled
    decreases a, if a.VList? then |a.elems| + 1 else 0
  {
    if IsNumber(a) && IsNumber(b) then Ok(NumValue(a) == NumValue(b))
    else if FloatMix(a, b) then Err(Unmodelled)
    else if a.VSym? && b.VSym? then Ok(a.s == b.s)
    else if a.VList? && b.VList? then
      if |a.elems| != |b.elems| then Ok(false) else ListEq(a, b, 0)
    else if a.VNone? && b.VNone? then Ok(true)
    else if a.VPrim? && b.VPrim? then Ok(a.p == b.p)
    else if a.VClosure? && b.VClosure? then Err(Unmodelled)
    else Ok(false)
  }

  /** Element-wise comparison from index `i` on, stopping at the first
      unequal pair. */
  function ListEq(a: Value, b: Value, i: nat): (r: Result<bool>)
    requires a.VList? && b.VList? && |a.elems| == |b.elems| && i <= |a.elems|
    ensures r.Err? ==> r.error == Unmodelled
    decreases a, |a.elems| - i
  {
    if i == |a.elems| then Ok(true)
    else
      match ValueEq(a.elems[i], b.elems[i])
      case Err(e) => Err(e)
      case Ok(same) => if same then ListEq(a, b, i + 1) else Ok(false)
  }

  /** The ordering operators: numbers compare by value with `holds`;
      floats, and two lists or two strings (compared in lexicographic order),
      are outside the model; any other pair is a TypeError. */
  function Compare(a: Value, b: Value, holds: (int, int) -> bool): Result<Value>
  {
    if IsNumber(a) && IsNumber(b) then Ok(VBool(holds(NumValue(a), NumValue(b))))
    else if FloatMix(a, b) || (a.VList? && b.VList?) || (a.VSym? && b.VSym?) then Err(Unmodelled)
    else Err(OperandError)
  }

  /** The one-argument procedures: `car` is `x[0]`, `cdr` is `x[1:]`, `length`
      is `len`, `not` is `op.not_`, `null?` is `x == []`, and `list?`,
      `number?`, `symbol?` are `isinstance` tests. */
  function ApplyUnary(p: UnaryOp, x: Value): (r: Result<Value>)
    ensures r.Err? ==> r.error == IndexOutOfRange || r.error == OperandError || r.error == Unmodelled
    ensures r == Err(IndexOutOfRange) <==> p == Car && (x == VList([]) || x == VSym(""))
    ensures p in {ListP, NullP, NumberP, SymbolP} ==> r.Ok? && r.value.VBool?
  {
    if p == Car then
      if x.VList? then (if x.elems == [] then Err(IndexOutOfRange) else Ok(x.elems[0]))
      else if x.VSym? then (if x.s == "" then Err(IndexOutOfRange) else Ok(VSym([x.s[0]])))
      else Err(OperandError)
    else if p == Cdr then
      if x.VList? then Ok(VList(if x.elems == [] then [] else x.elems[1..]))
      else if x.VSym? then Ok(VSym(if x.s == "" then "" else x.s[1..]))
      else Err(OperandError)
    else if p == Length then
      if x.VList? then Ok(VInt(|x.elems|))
      else if x.VSym? then Ok(VInt(|x.s|))
      else Err(OperandError)
    else if p == ListP then Ok(VBool(x.VList?))
    else if p == Not then
      (match Truthy(x)
       case Ok(t) => Ok(VBool(!t))
       case Err(e) => Err(e))
    else if p == NullP then Ok(VBool(x == VList([])))
    else if p == NumberP then Ok(VBool(x.VInt? || x.VBool? || x.VFloat?))
    else Ok(VBool(x.VSym?))
  }

  /** The two-argument procedures: `op.add` (numbers add, lists and strings
      concatenate), `op.sub`, `op.mul` (numbers multiply, a list or string
      times a number repeats), the comparisons, `op.eq` and `cons`
      (`[x] + y`, so `y` must be a list). */
  function ApplyBinary(p: BinaryOp, a: Value, b: Value): (r: Result<Value>)
    ensures r.Err? ==> r.error == OperandError || r.error == Unmodelled
    ensures r.Ok? && p in {Gt, Lt, Ge, Le, Eq} ==> r.value.VBool?
    ensures p == Cons ==> (r.Ok? <==> b.VList?)
  {
    if p == Add then
      if IsNumber(a) && IsNumber(b) then Ok(VInt(NumValue(a) + NumValue(b)))
      else if a.VList? && b.VList? then Ok(VList(a.elems + b.elems))
      else if a.VSym? && b.VSym? then Ok(VSym(a.s + b.s))
      else if FloatMix(a, b) then Err(Unmodelled)
      else Err(OperandError)
    else if p == Sub then
      if IsNumber(a) && IsNumber(b) then Ok(VInt(NumValue(a) - NumValue(b)))
      else if FloatMix(a, b) then Err(Unmodelled)
      else Err(OperandError)
    else if p == Mul then
      if IsNumber(a) && IsNumber(b) then Ok(VInt(NumValue(a) * NumValue(b)))
      else if a.VList? && IsNumber(b) then Ok(VList(Repeat(a.elems, NumValue(b))))
      else if IsNumber(a) && b.VList? then Ok(VList(Repeat(b.elems, NumValue(a))))
      else if a.VSym? && IsNumber(b) then Ok(VSym(Repeat(a.s, NumValue(b))))
      else if IsNumber(a) && b.VSym? then Ok(VSym(Repeat(b.s, NumValue(a))))
      else if FloatMix(a, b) then Err(Unmodelled)
      else Err(OperandError)
    else if p == Eq then
      (match ValueEq(a, b)
       case Ok(t) => Ok(VBool(t))
       case Err(e) => Err(e))
    else if p == Cons then
      if b.VList? then Ok(VList([a] + b.elems)) else Err(OperandError)
    else if p == Gt then Compare(a, b, (x, y) => x > y)
    else if p == Lt then Compare(a, b, (x, y) => x < y)
    else if p == Ge then Compare(a, b, (x, y) => x >= y)
    else Compare(a, b, (x, y) => x <= y)
  }

  /** Calling a built-in with the evaluated arguments. A fixed-arity
      procedure given another number of arguments is a TypeError; `begin`
      (`x[-1]`) with none is an IndexError; `list` collects its arguments. */
  function ApplyPrim(p: Prim, args: seq<Value>): (r: Result<Value>)
    ensures p.Host? ==> r == Err(Unmodelled)
    ensures r == Err(ArityError) <==> (p.Unary? && |args| != 1) || (p.Binary? && |args| != 2)
  {
    match p
    case Unary(u) => if |args| != 1 then Err(ArityError) else ApplyUnary(u, args[0])
    case Binary(o) => if |args| != 2 then Err(ArityError) else ApplyBinary(o, args[0], args[1])
    case Begin => if |args| == 0 then Err(IndexOutOfRange) else Ok(args[|args| - 1])
    case MakeList => Ok(VList(args))
    case Host(_) => Err(Unmodelled)
  }

  /** The bindings of `standard_environment` other than the `math` module's
      (evironment.py:28-53). `append` is `op.add` like `+`, and `equal?` is
      `op.eq` like `=`. */
  const PrimTable: map<Expr, Value> := map[
    Sym("+") := VPrim(Binary(Add)), Sym("-") := VPrim(Binary(Sub)), Sym("*") := VPrim(Binary(Mul)),
    Sym("/") := VPrim(Host("/")), Sym(">") := VPrim(Binary(Gt)), Sym("<") := VPrim(Binary(Lt)),
    Sym(">=") := VPrim(Binary(Ge)), Sym("<=") := VPrim(Binary(Le)), Sym("=") := VPrim(Binary(Eq)),
    Sym("abs") := VPrim(Host("abs")),
    Sym("append") := VPrim(Binary(Add)),
    Sym("apply") := VPrim(Host("apply")),
    Sym("begin") := VPrim(Begin),
    Sym("car") := VPrim(Unary(Car)),
    Sym("cdr") := VPrim(Unary(Cdr)),
    Sym("cons") := VPrim(Binary(Cons)),
    Sym("eq?") := VPrim(Host("eq?")),
    Sym("equal?") := VPrim(Binary(Eq)),
    Sym("length") := VPrim(Unary(Length)),
    Sym("list") := VPrim(MakeList),
    Sym("list?") := VPrim(Unary(ListP)),
    Sym("map") := VPrim(Host("map")),
    Sym("max") := VPrim(Host("max")),
    Sym("min") := VPrim(Host("min")),
    Sym("not") := VPrim(Unary(Not)),
    Sym("null?") := VPrim(Unary(NullP)),
    Sym("number?") := VPrim(Unary(NumberP)),
    Sym("procedure?") := VPrim(Host("procedure?")),
    Sym("round") := VPrim(Host("round")),
    Sym("symbol?") := VPrim(Unary(SymbolP))
  ]

  /** `Environment.standard_environment()`: a new outermost frame holding the
      built-ins. */
  method StandardEnvironment() returns (env: Frame)
    ensures fresh(env)
    ensures env.vars == PrimTable && env.outer == null && env.Linked()
  {
    env := new Frame([], [], null);
    env.vars := env.vars + PrimTable;
  }

  // ---------------------------------------------------------------------
  // Properties of the list procedures

  /** `car` and `cdr` take apart what `cons` builds (evironment.py:36-38). */
  lemma CarCdrCons(x: Value, ys: seq<Value>)
    ensures ApplyPrim(Binary(Cons), [x, VList(ys)]) == Ok(VList([x] + ys))
    ensures ApplyPrim(Unary(Car), [VList([x] + ys)]) == Ok(x)
    ensures ApplyPrim(Unary(Cdr), [VList([x] + ys)]) == Ok(VList(ys))
  {
    assert ([x] + ys)[1..] == ys;
  }

  /** `cons` puts back together what `car` and `cdr` take apart. */
  lemma ConsCarCdr(xs: seq<Value>)
    requires xs != []
    ensures ApplyPrim(Binary(Cons), [ApplyPrim(Unary(Car), [VList(xs)]).value,
                                     ApplyPrim(Unary(Cdr), [VList(xs)]).value]) == Ok(VList(xs))
  {
    assert [xs[0]] + xs[1..] == xs;
  }

  /** `append` (`op.add` on lists) keeps both lists whole and in order. */
  lemma AppendLength(xs: seq<Value>, ys: seq<Value>)
    ensures var r := ApplyPrim(Binary(Add), [VList(xs), VList(ys)]);
      && r.Ok? && r.value.VList?
      && ApplyPrim(Unary(Length), [r.value]) == Ok(VInt(|xs| + |ys|))
      && r.value.elems[..|xs|] == xs && r.value.elems[|xs|..] == ys
  {
  }

  /** `xs * (a + b)` is `xs * a + xs * b` for counts that are not negative,
      and `xs * 1` is a copy of `xs`. */
  lemma {:induction false} RepeatAdd<T>(xs: seq<T>, a: nat, b: nat)
    ensures Repeat(xs, a + b) == Repeat(xs, a) + Repeat(xs, b)
    ensures Repeat(xs, 1) == xs
    decreases a
  {
    assert Repeat(xs, 1) == xs + Repeat(xs, 0) == xs + [];
    if a > 0 {
      RepeatAdd(xs, a - 1, b);
      assert Repeat(xs, a + b) == xs + Repeat(xs, a - 1 + b);
      assert xs + (Repeat(xs, a - 1) + Repeat(xs, b)) == (xs + Repeat(xs, a - 1)) + Repeat(xs, b);
    } else {
      assert Repeat(xs, 0) + Repeat(xs, b) == [] + Repeat(xs, b);
    }
  }

  // ---------------------------------------------------------------------
  // Properties of `=`

  /** A value whose comparison the model decides: no float and no closure
      inside it. */
  predicate Comparable(v: Value)
    decreases v
  {
    match v
    case VFloat(_) => false
    case VClosure(_, _, _) => false
    case VList(xs) => forall i :: 0 <= i < |xs| ==> Comparable(xs[i])
    case _ => true
  }

  /** Every decided value is equal to itself, and no value is unequal to
      itself. */
  lemma {:induction false} ValueEqReflexive(v: Value)
    ensures ValueEq(v, v) != Ok(false)
    ensures Comparable(v) ==> ValueEq(v, v) == Ok(true)
    decreases v, if v.VList? then |v.elems| + 1 else 0
  {
    if v.VList? {
      ListEqReflexive(v, 0);
    }
  }

  lemma {:induction false} ListEqReflexive(v: Value, i: nat)
    requires v.VList? && i <= |v.elems|
    ensures ListEq(v, v, i) != Ok(false)
    ensures (forall j :: i <= j < |v.elems| ==> Comparable(v.elems[j])) ==> ListEq(v, v, i) == Ok(true)
    decreases v, |v.elems| - i
  {
    if i < |v.elems| {
      ValueEqReflexive(v.elems[i]);
      ListEqReflexive(v, i + 1);
    }
  }

  /** `a == b` and `b == a` give the same answer. */
  lemma {:induction false} ValueEqSymmetric(a: Value, b: Value)
    ensures ValueEq(a, b) == ValueEq(b, a)
    decreases a, if a.VList? then |a.elems| + 1 else 0
  {
    if a.VList? && b.VList? && |a.elems| == |b.elems| {
      ListEqSymmetric(a, b, 0);
    }
  }

  lemma {:induction false} ListEqSymmetric(a: Value, b: Value, i: nat)
    requires a.VList? && b.VList? && |a.elems| == |b.elems| && i <= |a.elems|
    ensures ListEq(a, b, i) == ListEq(b, a, i)
    decreases a, |a.elems| - i
  {
    if i < |a.elems| {
      ValueEqSymmetric(a.elems[i], b.elems[i]);
      ListEqSymmetric(a, b, i + 1);
    }
  }
}
