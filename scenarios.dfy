/** Whole programs run in the standard environment. */
module Scenarios {
  import opened Sexpr
  import opened Environment
  import opened Primitives
  import opened Evaluator

  /** The bindings after `(define f (lambda () y))` and `(define y 7)`. */
  predicate AfterDefines(g: Frame)
    requires g.Linked()
    reads g
  {
    g.vars == PrimTable[Sym("f") := VClosure(List([]), Sym("y"), g)][Sym("y") := VInt(7)]
  }

  /** Lexical scope: calling a closure of no parameters evaluates its body in
      a new, empty frame around the frame the closure captured. The result
      does not depend on what the caller's frames bind, only on the closure
      `f` names there. */
  lemma CallUsesCapturedFrame(env: Frame, f: string, body: Expr, c: Scope)
    requires env.Linked() && IsApplication(List([Sym(f)]))
    requires LookupIn(env.vars, env.outer, f) == Ok(VClosure(List([]), body, c))
    ensures ApplyPlain(List([Sym(f)]), env, 1) == Plain(body, map[], c)
  {
    var x := List([Sym(f)]);
    assert Immediate(x.items[0], env) == Some(Ok(VClosure(List([]), body, c)));
    assert PlainArgs(x, 1, env.vars, env.outer) == Some(Ok([]));
    assert ParamKeys(List([]), 0) == Ok([]);
    assert Bind([], []) == map[];
  }

  /** The instance of `LaterDefineVisible`: `f` captured the frame that
      binds `y` to 7. */
  lemma CallSeesLaterDefine(g: Frame)
    requires g.Linked() && g.outer == null && AfterDefines(g)
    ensures ApplyPlain(List([Sym("f")]), g, 1) == Some(Ok(VInt(7)))
  {
    CallUsesCapturedFrame(g, "f", Sym("y"), g);
    assert g.Chain() == [g];
    assert LookupIn(map[], g, "y") == Ok(VInt(7));
  }

  /** A closure holds its defining frame itself, not a copy: a name defined
      after the closure was made is visible when it is called.
      `(define f (lambda () y))`, `(define y 7)`, then `(f)` gives 7. */
  method LaterDefineVisible() returns (r: Result<Value>)
    ensures r == Ok(VInt(7))
  {
    var g := DefineFThenY();
    r := Eval(List([Sym("f")]), g, 1);
    CallSeesLaterDefine(g);
  }

  /** `(define f (lambda () y))`, then `(define y 7)`, in the standard
      environment. */
  method DefineFThenY() returns (g: Frame)
    ensures fresh(g) && g.Linked() && g.outer == null && AfterDefines(g)
  {
    g := StandardEnvironment();
    var d1 := Eval(List([Sym("define"), Sym("f"), List([Sym("lambda"), List([]), Sym("y")])]), g, 1);
    var d2 := Eval(List([Sym("define"), Sym("y"), Int(7)]), g, 1);
  }

  /** A parameter hides every binding of the same name outside the call:
      in any frame, `((lambda (p) p) e)` gives the value of `e`. */
  lemma ParameterHides(env: Frame, p: string, e: Expr, v: Value)
    requires env.Linked() && Plain(e, env.vars, env.outer) == Some(Ok(v))
    ensures ApplyPlain(List([List([Sym("lambda"), List([Sym(p)]), Sym(p)]), e]), env, 1) == Some(Ok(v))
  {
    var c := VClosure(List([Sym(p)]), Sym(p), env);
    var x := List([List([Sym("lambda"), List([Sym(p)]), Sym(p)]), e]);
    assert Immediate(x.items[0], env) == Some(Ok(c));
    assert PlainArgs(x, 2, env.vars, env.outer) == Some(Ok([]));
    assert [v] + [] == [v];
    assert PlainArgs(x, 1, env.vars, env.outer) == Some(Ok([v]));
    assert ParamKeys(List([Sym(p)]), 1) == Ok([Sym(p)]);
    assert Bind([Sym(p)], [v]) == map[Sym(p) := v];
    assert CallPlain(c, [v], 1) == Some(Ok(v));
  }

  /** `(define x 1)`, then `((lambda (x) x) 2)` gives 2, and `x` is still 1
      in the outermost frame afterwards. */
  method ParameterShadows() returns (r: Result<Value>, g: Frame)
    ensures r == Ok(VInt(2))
    ensures g.vars == PrimTable[Sym("x") := VInt(1)]
  {
    g := DefineX();
    r := Eval(List([List([Sym("lambda"), List([Sym("x")]), Sym("x")]), Int(2)]), g, 1);
    ParameterHides(g, "x", Int(2), VInt(2));
  }

  /** `(define x 1)` in the standard environment. */
  method DefineX() returns (g: Frame)
    ensures fresh(g) && g.Linked() && g.outer == null && g.vars == PrimTable[Sym("x") := VInt(1)]
  {
    g := StandardEnvironment();
    var d := Eval(List([Sym("define"), Sym("x"), Int(1)]), g, 1);
  }

  /** A `define` in a procedure body binds in the call's frame only:
      after `((lambda () (define z 1)))` the outermost frame is unchanged. */
  method DefineInBodyStaysLocal() returns (g: Frame)
    ensures g.vars == PrimTable
  {
    g := StandardEnvironment();
    var lam := List([Sym("lambda"), List([]), List([Sym("define"), Sym("z"), Int(1)])]);
    var x := List([lam]);
    assert DefineFree(lam);
    assert DefineFree(x);
    var r := Eval(x, g, 1);
  }

  /** The chain of `EmptyFrameHidesGlobals`: a frame binding `y`, inside an
      empty frame, inside the standard environment. */
  lemma HiddenBehindEmpty(inner: Frame, empty: Frame, g: Frame)
    requires inner.Linked() && inner.outer == empty && empty.outer == g && g.outer == null
    requires inner.vars == map[Sym("y") := VInt(1)] && empty.vars == map[] && g.vars == PrimTable
    ensures OwnerIn(Searched(inner.Chain()), "car") == Err(Unbound("car"))
    ensures OwnerIn(inner.Chain(), "car") == Ok(g)
  {
    assert Sym("car") in PrimTable;
    assert empty.Linked() && g.Linked() && g.around == [];
    assert empty.around == [g];
    assert inner.Chain() == [inner, empty, g];
    var c := inner.Chain();
    assert c[1..] == [empty, g] && c[1..][1..] == [g];
    assert Sym("car") !in inner.vars && Sym("car") !in empty.vars;
    assert FirstWith([g], Sym("car")) == 0;
    assert FirstWith(c, Sym("car")) == 2;
    assert Searched(inner.Chain()) == [inner];
  }

  /** `find` as written stops at a frame with no bindings: from inside a call
      of `(lambda (y) car)` made from a call of `(lambda () ...)`, the
      built-in `car` is not found, although the corrected walk finds it in
      the outermost frame. */
  method EmptyFrameHidesGlobals() returns (asWritten: Result<Frame>, corrected: Result<Frame>, g: Frame)
    ensures asWritten == Err(Unbound("car"))
    ensures corrected == Ok(g)
  {
    g := StandardEnvironment();
    var empty := new Frame([], [], g);
    var inner := new Frame([Sym("y")], [VInt(1)], empty);
    assert inner.vars == map[Sym("y") := VInt(1)] && empty.vars == map[];
    asWritten := inner.FindAsWritten("car");
    corrected := inner.Find("car");
    HiddenBehindEmpty(inner, empty, g);
  }

  // ---------------------------------------------------------------------
  // Small programs in the standard environment

  /** Two arguments with values `a` and `b` evaluate to `[a, b]`. */
  lemma TwoArgs(x: Expr, vars: map<Expr, Value>, outer: Scope, a: Value, b: Value)
    requires x.List? && |x.items| == 3
    requires Plain(x.items[1], vars, outer) == Some(Ok(a)) && Plain(x.items[2], vars, outer) == Some(Ok(b))
    ensures PlainArgs(x, 1, vars, outer) == Some(Ok([a, b]))
  {
    assert PlainArgs(x, 3, vars, outer) == Some(Ok([]));
    assert [b] + [] == [b] && [a] + [b] == [a, b];
  }

  /** A built-in called on two integer literals. */
  lemma PrimOnInts(x: Expr, vars: map<Expr, Value>, outer: Scope, o: BinaryOp)
    requires x.List? && |x.items| == 3 && x.items[1].Int? && x.items[2].Int?
    requires x.items[0].Sym? && Plain(x.items[0], vars, outer) == Some(Ok(VPrim(Binary(o))))
    requires x.items[0] != Sym("quote") && x.items[0] != Sym("if")
    requires x.items[0] != Sym("define") && x.items[0] != Sym("lambda")
    ensures Plain(x, vars, outer) == Some(ApplyBinary(o, VInt(x.items[1].n), VInt(x.items[2].n)))
  {
    TwoArgs(x, vars, outer, VInt(x.items[1].n), VInt(x.items[2].n));
  }

  /** `(+ 1 2)` in the standard environment. */
  lemma SumValue(g: Frame)
    requires g.Linked() && g.outer == null && g.vars == PrimTable
    ensures Plain(List([Sym("+"), Int(1), Int(2)]), g.vars, g.outer) == Some(Ok(VInt(3)))
  {
    PrimOnInts(List([Sym("+"), Int(1), Int(2)]), g.vars, g.outer, Add);
  }

  /** `(if (> 3 2) 1 2)` in the standard environment. */
  lemma ChoiceValue(g: Frame)
    requires g.Linked() && g.outer == null && g.vars == PrimTable
    ensures Plain(List([Sym("if"), List([Sym(">"), Int(3), Int(2)]), Int(1), Int(2)]), g.vars, g.outer)
      == Some(Ok(VInt(1)))
  {
    PrimOnInts(List([Sym(">"), Int(3), Int(2)]), g.vars, g.outer, Gt);
  }

  /** `(foo)` with `foo` unbound. */
  lemma UnboundValue(g: Frame)
    requires g.Linked() && g.outer == null && g.vars == PrimTable
    ensures Plain(List([Sym("foo")]), g.vars, g.outer) == Some(Err(Unbound("foo")))
  {
    assert Sym("foo") !in PrimTable;
  }

  /** `(quote (1 2 3))` in any frame. */
  lemma QuotedValue(g: Frame)
    requires g.Linked()
    ensures Plain(List([Sym("quote"), List([Int(1), Int(2), Int(3)])]), g.vars, g.outer)
      == Some(Ok(VList([VInt(1), VInt(2), VInt(3)])))
  {
    var items := [Int(1), Int(2), Int(3)];
    assert ToValue(List(items)) == VList([VInt(1), VInt(2), VInt(3)]);
  }

  /** `(+ 1 2)` gives 3. */
  method SumProgram() returns (r: Result<Value>)
    ensures r == Ok(VInt(3))
  {
    var g := StandardEnvironment();
    SumValue(g);
    PlainIsImmediate(List([Sym("+"), Int(1), Int(2)]), g);
    r := Eval(List([Sym("+"), Int(1), Int(2)]), g, 0);
  }

  /** `(if (> 3 2) 1 2)` gives 1. */
  method ChoiceProgram() returns (r: Result<Value>)
    ensures r == Ok(VInt(1))
  {
    var g := StandardEnvironment();
    ChoiceValue(g);
    var x := List([Sym("if"), List([Sym(">"), Int(3), Int(2)]), Int(1), Int(2)]);
    PlainIsImmediate(x, g);
    r := Eval(x, g, 0);
  }

  /** `(foo)` fails with "unbound variable: foo". */
  method UnboundProgram() returns (r: Result<Value>)
    ensures r == Err(Unbound("foo"))
  {
    var g := StandardEnvironment();
    UnboundValue(g);
    PlainIsImmediate(List([Sym("foo")]), g);
    r := Eval(List([Sym("foo")]), g, 0);
  }

  /** `(quote (1 2 3))` gives the list itself, without calling `1`. */
  method QuoteProgram() returns (r: Result<Value>)
    ensures r == Ok(VList([VInt(1), VInt(2), VInt(3)]))
  {
    var g := StandardEnvironment();
    var x := List([Sym("quote"), List([Int(1), Int(2), Int(3)])]);
    QuotedValue(g);
    PlainIsImmediate(x, g);
    r := Eval(x, g, 0);
  }

  /** The bindings after `(define add (lambda (x y) (+ x y)))`. */
  predicate AddDefined(g: Frame)
    requires g.Linked()
    reads g
  {
    g.vars == PrimTable[Sym("add") := VClosure(List([Sym("x"), Sym("y")]), List([Sym("+"), Sym("x"), Sym("y")]), g)]
  }

  /** The body `(+ x y)` with `x` bound to 2 and `y` to 3 in a call's frame
      around the standard environment. */
  lemma AddBody(g: Frame)
    requires g.Linked() && g.outer == null && AddDefined(g)
    ensures Plain(List([Sym("+"), Sym("x"), Sym("y")]), map[Sym("x") := VInt(2), Sym("y") := VInt(3)], g)
      == Some(Ok(VInt(5)))
  {
    var locals := map[Sym("x") := VInt(2), Sym("y") := VInt(3)];
    var body := List([Sym("+"), Sym("x"), Sym("y")]);
    assert g.Chain() == [g];
    assert Sym("+") in g.vars && g.vars[Sym("+")] == VPrim(Binary(Add));
    assert Plain(Sym("+"), locals, g) == Some(Ok(VPrim(Binary(Add))));
    TwoArgs(body, locals, g, VInt(2), VInt(3));
  }

  /** The call `(add 2 3)` once `add` is bound. */
  lemma AddCall(g: Frame)
    requires g.Linked() && g.outer == null && AddDefined(g)
    ensures ApplyPlain(List([Sym("add"), Int(2), Int(3)]), g, 1) == Some(Ok(VInt(5)))
  {
    var c := VClosure(List([Sym("x"), Sym("y")]), List([Sym("+"), Sym("x"), Sym("y")]), g);
    var x := List([Sym("add"), Int(2), Int(3)]);
    assert Immediate(Sym("add"), g) == Some(Ok(c));
    TwoArgs(x, g.vars, g.outer, VInt(2), VInt(3));
    var keys := [Sym("x"), Sym("y")];
    assert ParamKeys(List(keys), 2) == Ok(keys);
    assert Bind(keys, [VInt(2), VInt(3)]) == map[Sym("x") := VInt(2), Sym("y") := VInt(3)];
    AddBody(g);
  }

  /** Once `add` is bound, the outermost frame binds neither parameter. */
  lemma NoParameters(g: Frame)
    requires g.Linked() && AddDefined(g)
    ensures Sym("x") !in g.vars && Sym("y") !in g.vars
  {
    assert Sym("x") !in PrimTable && Sym("y") !in PrimTable;
  }

  /** `(define add (lambda (x y) (+ x y)))`, then `(add 2 3)` gives 5, and
      afterwards the outermost frame binds `add` and neither `x` nor `y`. */
  method AddProgram() returns (r: Result<Value>, g: Frame)
    ensures r == Ok(VInt(5))
    ensures g.Linked() && AddDefined(g)
    ensures Sym("x") !in g.vars && Sym("y") !in g.vars
  {
    g := DefineAdd();
    r := Eval(List([Sym("add"), Int(2), Int(3)]), g, 1);
    AddCall(g);
    NoParameters(g);
  }

  /** `(define add (lambda (x y) (+ x y)))` in the standard environment. */
  method DefineAdd() returns (g: Frame)
    ensures fresh(g) && g.Linked() && g.outer == null && AddDefined(g)
  {
    g := StandardEnvironment();
    var lam := List([Sym("lambda"), List([Sym("x"), Sym("y")]), List([Sym("+"), Sym("x"), Sym("y")])]);
    var d := Eval(List([Sym("define"), Sym("add"), lam]), g, 1);
  }

  /** The bindings after `(define y 1)` and `(define f (lambda () y))`. */
  predicate CapturesY(g: Frame)
    requires g.Linked()
    reads g
  {
    g.vars == PrimTable[Sym("y") := VInt(1)][Sym("f") := VClosure(List([]), Sym("y"), g)]
  }

  /** The instance of `LexicalScope`: `(f)` called from a frame binding `y`
      to 2, around the frame `f` was defined in. */
  lemma CallerDoesNotLeak(caller: Frame, g: Frame)
    requires caller.Linked() && caller.outer == g && g.outer == null && CapturesY(g)
    requires caller.vars == map[Sym("y") := VInt(2)]
    ensures ApplyPlain(List([Sym("f")]), caller, 1) == Some(Ok(VInt(1)))
  {
    var c := VClosure(List([]), Sym("y"), g);
    assert g.Linked() && g.around == [];
    assert g.Chain() == [g];
    assert Sym("f") in g.vars && g.vars[Sym("f")] == c;
    assert LookupIn(caller.vars, caller.outer, "f") == Ok(c);
    CallUsesCapturedFrame(caller, "f", Sym("y"), g);
    assert LookupIn(map[], g, "y") == Ok(VInt(1));
  }

  /** Lexical scoping: a closure's free names are looked up where it was
      defined, not where it is called. After `(define y 1)` and
      `(define f (lambda () y))`, calling `(f)` from inside a call that binds
      `y` to 2 gives 1. */
  method LexicalScope() returns (r: Result<Value>)
    ensures r == Ok(VInt(1))
  {
    var g := DefineYThenF();
    var caller := new Frame([Sym("y")], [VInt(2)], g);
    assert caller.vars == map[Sym("y") := VInt(2)];
    r := Eval(List([Sym("f")]), caller, 1);
    CallerDoesNotLeak(caller, g);
  }

  /** `(define y 1)`, then `(define f (lambda () y))`, in the standard
      environment. */
  method DefineYThenF() returns (g: Frame)
    ensures fresh(g) && g.Linked() && g.outer == null && CapturesY(g)
  {
    g := StandardEnvironment();
    var d1 := Eval(List([Sym("define"), Sym("y"), Int(1)]), g, 1);
    var d2 := Eval(List([Sym("define"), Sym("f"), List([Sym("lambda"), List([]), Sym("y")])]), g, 1);
  }
}
