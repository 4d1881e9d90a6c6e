/** `eval` and `Procedure.__call__` (evironment.py:57-100): evaluation of a
    tree in a frame that `define` updates in place, and closures that hold
    their defining frame by reference. */
module Evaluator {
  import opened Sexpr
  import opened Environment
  import opened Primitives

  /** The keys `zip(params, args)` draws from a parameter expression for `n`
      arguments: the elements of a list, or the one-character strings of a
      symbol (a `str` is iterable). A number is not iterable, and a list key
      among the ones paired cannot be hashed. */
  function ParamKeys(params: Expr, n: nat): (r: Result<seq<Expr>>)
    ensures r.Ok? ==> Hashable(r.value, n)
    ensures r.Err? <==> params.Int? || params.Float? || (params.List? && !Hashable(params.items, n))
    ensures r.Err? ==> r.error == if params.List? then Unhashable else NotIterable
    ensures params.List? && r.Ok? ==> r.value == params.items
    ensures params.Sym? ==> r.Ok? && |r.value| == |params.name|
  {
    match params
    case Int(_) => Err(NotIterable)
    case Float(_) => Err(NotIterable)
    case Sym(s) => Ok(seq(|s|, i requires 0 <= i < |s| => Sym([s[i]])))
    case List(items) => if Hashable(items, n) then Ok(items) else Err(Unhashable)
  }

  /** An application: a non-empty list whose head is not one of the special
      forms' names. */
  predicate IsApplication(x: Expr)
  {
    x.List? && |x.items| > 0
    && x.items[0] != Sym("quote") && x.items[0] != Sym("if")
    && x.items[0] != Sym("define") && x.items[0] != Sym("lambda")
  }

  /** Evaluating `x` runs no `define` in the frame it is evaluated in: every
      `define` is inside quoted data or a lambda body. */
  predicate DefineFree(x: Expr)
  {
    if IsForm(x, "quote") || IsForm(x, "lambda") then true
    else if IsForm(x, "define") then false
    else x.List? ==> forall i :: 0 <= i < |x.items| ==> DefineFree(x.items[i])
  }

  /** The reference semantics of the fragment that calls no closure and runs
      no `define` and no well-formed `lambda`: the result of evaluating `x` in
      a frame with bindings `vars` and outer frame `outer`, or `None` for an
      expression outside the fragment. */
  ghost function Plain(x: Expr, vars: map<Expr, Value>, outer: Scope): Option<Result<Value>>
    reads Frames(outer)
    decreases x, if x.List? then |x.items| + 1 else 0
  {
    match x
    case Int(n) => Some(Ok(VInt(n)))
    case Float(t) => Some(Ok(VFloat(t)))
    case Sym(s) => Some(LookupIn(vars, outer, s))
    case List(items) =>
      if items == [] then Some(Err(BadForm))
      else if items[0] == Sym("quote") then
        Some(if |items| == 2 then Ok(ToValue(items[1])) else Err(BadForm))
      else if items[0] == Sym("if") then
        if |items| != 4 then Some(Err(BadForm))
        else
          match Plain(items[1], vars, outer)
          case None => None
          case Some(Err(e)) => Some(Err(e))
          case Some(Ok(v)) =>
            match Truthy(v)
            case Err(e) => Some(Err(e))
            case Ok(t) => Plain(if t then items[2] else items[3], vars, outer)
      else if items[0] == Sym("define") || items[0] == Sym("lambda") then
        if |items| != 3 then Some(Err(BadForm)) else None
      else
        match Plain(items[0], vars, outer)
        case None => None
        case Some(Err(e)) => Some(Err(e))
        case Some(Ok(f)) =>
          match PlainArgs(x, 1, vars, outer)
          case None => None
          case Some(Err(e)) => Some(Err(e))
          case Some(Ok(vs)) =>
            if f.VPrim? then Some(ApplyPrim(f.p, vs))
            else if f.VClosure? then None
            else Some(Err(NotCallable))
  }

  /** The arguments from index `from` on, evaluated left to right, stopping
      at the first failure. */
  ghost function PlainArgs(x: Expr, from: nat, vars: map<Expr, Value>, outer: Scope): Option<Result<seq<Value>>>
    requires x.List? && from <= |x.items|
    reads Frames(outer)
    decreases x, |x.items| - from
  {
    if from == |x.items| then Some(Ok([]))
    else
      match Plain(x.items[from], vars, outer)
      case None => None
      case Some(Err(e)) => Some(Err(e))
      case Some(Ok(v)) =>
        match PlainArgs(x, from + 1, vars, outer)
        case None => None
        case Some(Err(e)) => Some(Err(e))
        case Some(Ok(vs)) => Some(Ok([v] + vs))
  }

  /** `Plain` in a frame, where a `lambda` form of three parts also has its
      value: a closure over that frame. */
  ghost function Immediate(x: Expr, env: Frame): Option<Result<Value>>
    requires env.Linked()
    reads env, Frames(env.outer)
  {
    if IsForm(x, "lambda") && |x.items| == 3 then Some(Ok(VClosure(x.items[1], x.items[2], env)))
    else Plain(x, env.vars, env.outer)
  }

  /** The result of calling `proc` with `args` when that needs no further
      call: a built-in, a value that is not callable, or a closure whose body
      is in the `Plain` fragment, evaluated with the parameters bound in a new
      frame around the captured one. */
  ghost function CallPlain(proc: Value, args: seq<Value>, fuel: nat): Option<Result<Value>>
    reads if proc.VClosure? then Frames(proc.env) else []
  {
    match proc
    case VPrim(p) => Some(ApplyPrim(p, args))
    case VClosure(params, body, cenv) =>
      (match ParamKeys(params, |args|)
       case Err(e) => Some(Err(e))
       case Ok(keys) => if fuel == 0 then Some(Err(OutOfFuel)) else Plain(body, Bind(keys, args), cenv))
    case _ => Some(Err(NotCallable))
  }

  /** The frames a call of the head's value could read. */
  ghost function HeadFrames(x: Expr, env: Frame): seq<Frame>
    requires env.Linked() && IsApplication(x)
    reads env, Frames(env.outer)
  {
    match Immediate(x.items[0], env)
    case Some(Ok(VClosure(_, _, c))) => Frames(c)
    case _ => []
  }

  /** The result of an application whose head and arguments are `Immediate`
      and whose call is covered by `CallPlain`: the head's failure first, then
      the first failing argument's, then the call's result. */
  ghost function ApplyPlain(x: Expr, env: Frame, fuel: nat): Option<Result<Value>>
    requires env.Linked() && IsApplication(x)
    reads env, Frames(env.outer), HeadFrames(x, env)
  {
    match Immediate(x.items[0], env)
    case None => None
    case Some(Err(e)) => Some(Err(e))
    case Some(Ok(h)) =>
      match PlainArgs(x, 1, env.vars, env.outer)
      case None => None
      case Some(Err(e)) => Some(Err(e))
      case Some(Ok(vs)) => CallPlain(h, vs, fuel)
  }

  /** A `Plain` application is covered by `ApplyPlain` with the same result. */
  lemma PlainApplication(x: Expr, env: Frame, fuel: nat)
    requires env.Linked() && IsApplication(x) && Plain(x, env.vars, env.outer).Some?
    ensures ApplyPlain(x, env, fuel) == Plain(x, env.vars, env.outer)
  {
    PlainIsImmediate(x.items[0], env);
  }

  /** What `env[symbol] = value` gives once the value has been computed:
      hashing a list key is a TypeError, and the statement has no value. */
  function Defined(value: Result<Value>, key: Expr): (r: Result<Value>)
    ensures r.Ok? <==> value.Ok? && !key.List?
  {
    if value.Err? then value else if key.List? then Err(Unhashable) else Ok(VNone)
  }

  /** The arguments `vs` come before those in `rest`. */
  function Prefixed(vs: seq<Value>, rest: Option<Result<seq<Value>>>): Option<Result<seq<Value>>>
  {
    match rest
    case Some(Ok(ws)) => Some(Ok(vs + ws))
    case _ => rest
  }

  lemma PrefixedEmpty(rest: Option<Result<seq<Value>>>)
    ensures Prefixed([], rest) == rest
  {
    if rest.Some? && rest.value.Ok? {
      assert [] + rest.value.value == rest.value.value;
    }
  }

  lemma PrefixedAppend(vs: seq<Value>, ws: seq<Value>, rest: Option<Result<seq<Value>>>)
    ensures Prefixed(vs, Prefixed(ws, rest)) == Prefixed(vs + ws, rest)
  {
    if rest.Some? && rest.value.Ok? {
      assert vs + (ws + rest.value.value) == vs + ws + rest.value.value;
    }
  }

  /** One argument: its failure ends the list, its value heads it. */
  lemma PlainArgsStep(x: Expr, i: nat, vars: map<Expr, Value>, outer: Scope)
    requires x.List? && i < |x.items|
    ensures match Plain(x.items[i], vars, outer)
      case None => PlainArgs(x, i, vars, outer) == None
      case Some(Err(e)) => PlainArgs(x, i, vars, outer) == Some(Err(e))
      case Some(Ok(v)) => PlainArgs(x, i, vars, outer) == Prefixed([v], PlainArgs(x, i + 1, vars, outer))
  {
  }

  lemma PlainIsImmediate(x: Expr, env: Frame)
    requires env.Linked() && Plain(x, env.vars, env.outer).Some?
    ensures Immediate(x, env) == Plain(x, env.vars, env.outer)
  {
  }

  /** `eval(x, env)` (evironment.py:57-89). `fuel` bounds the depth of
      closure calls. */
  method Eval(x: Expr, env: Frame, fuel: nat) returns (r: Result<Value>)
    requires env.Linked()
    modifies env
    ensures DefineFree(x) ==> env.vars == old(env.vars)
    ensures old(Immediate(x, env)).Some? ==> r == old(Immediate(x, env)).value && env.vars == old(env.vars)
    ensures IsForm(x, "define") && |x.items| == 3 && old(Immediate(x.items[2], env)).Some? ==>
      var v := old(Immediate(x.items[2], env)).value;
      r == Defined(v, x.items[1])
      && env.vars == if r.Ok? then old(env.vars)[x.items[1] := v.value] else old(env.vars)
    ensures IsApplication(x) && env.vars == old(env.vars) && ApplyPlain(x, env, fuel).Some? ==>
      r == ApplyPlain(x, env, fuel).value
    decreases fuel, 1, x, 2
  {
    OuterExcludes(env);
    if x.Sym? {
      r := EvalSymbol(x.name, env);
      return;
    } else if x.Int? {
      return Ok(VInt(x.n));
    } else if x.Float? {
      return Ok(VFloat(x.text));
    }
    var items := x.items;
    if |items| == 0 {
      return Err(BadForm);
    }
    if items[0] == Sym("quote") {
      if |items| != 2 {
        return Err(BadForm);
      }
      return Ok(ToValue(items[1]));
    } else if items[0] == Sym("if") {
      r := EvalIf(x, env, fuel);
    } else if items[0] == Sym("define") {
      r := EvalDefine(x, env, fuel);
    } else if items[0] == Sym("lambda") {
      if |items| != 3 {
        return Err(BadForm);
      }
      return Ok(VClosure(items[1], items[2], env));
    } else {
      r := EvalApply(x, env, fuel);
    }
  }

  /** A symbol (evironment.py:63-64): the value held by the frame `find`
      returns. */
  method EvalSymbol(name: string, env: Frame) returns (r: Result<Value>)
    requires env.Linked()
    ensures r == LookupIn(env.vars, env.outer, name)
  {
    var owner := env.Find(name);
    LookupInnermost(env, name);
    if owner.Err? {
      return Err(owner.error);
    }
    return Ok(owner.value.vars[Sym(name)]);
  }

  /** `(if test consequence alternative)` (evironment.py:72-75): exactly three
      operands; the test is evaluated, then only the branch it selects. */
  method EvalIf(x: Expr, env: Frame, fuel: nat) returns (r: Result<Value>)
    requires env.Linked() && IsForm(x, "if")
    modifies env
    ensures DefineFree(x) ==> env.vars == old(env.vars)
    ensures old(Plain(x, env.vars, env.outer)).Some? ==>
      r == old(Plain(x, env.vars, env.outer)).value && env.vars == old(env.vars)
    decreases fuel, 1, x, 1
  {
    OuterExcludes(env);
    if |x.items| != 4 {
      return Err(BadForm);
    }
    if Plain(x.items[1], env.vars, env.outer).Some? {
      PlainIsImmediate(x.items[1], env);
    }
    var test := Eval(x.items[1], env, fuel);
    if test.Err? {
      return test;
    }
    var t := Truthy(test.value);
    if t.Err? {
      return Err(t.error);
    }
    var expr := if t.value then x.items[2] else x.items[3];
    if Plain(expr, env.vars, env.outer).Some? {
      PlainIsImmediate(expr, env);
    }
    r := Eval(expr, env, fuel);
  }

  /** `(define symbol expr)` (evironment.py:77-79): the value is computed,
      then stored under the unevaluated key in the current frame only; the
      form itself has no value. */
  method EvalDefine(x: Expr, env: Frame, fuel: nat) returns (r: Result<Value>)
    requires env.Linked() && IsForm(x, "define")
    modifies env
    ensures |x.items| != 3 ==> r == Err(BadForm) && env.vars == old(env.vars)
    ensures |x.items| == 3 && r.Ok? ==> r.value == VNone && !x.items[1].List? && x.items[1] in env.vars
    ensures |x.items| == 3 && old(Immediate(x.items[2], env)).Some? ==>
      var v := old(Immediate(x.items[2], env)).value;
      r == Defined(v, x.items[1])
      && env.vars == if r.Ok? then old(env.vars)[x.items[1] := v.value] else old(env.vars)
    ensures |x.items| == 3 && DefineFree(x.items[2]) ==>
      forall k :: k != x.items[1] ==>
        (k in env.vars <==> k in old(env.vars)) && (k in env.vars ==> env.vars[k] == old(env.vars)[k])
    decreases fuel, 1, x, 1
  {
    OuterExcludes(env);
    if |x.items| != 3 {
      return Err(BadForm);
    }
    var v := Eval(x.items[2], env, fuel);
    if v.Err? {
      return v;
    }
    if x.items[1].List? {
      return Err(Unhashable);
    }
    env.vars := env.vars[x.items[1] := v.value];
    return Ok(VNone);
  }

  /** A procedure call (evironment.py:85-89): the head is evaluated, then the
      arguments left to right, then the procedure is called with them. */
  method EvalApply(x: Expr, env: Frame, fuel: nat) returns (r: Result<Value>)
    requires env.Linked() && IsApplication(x)
    modifies env
    ensures DefineFree(x) ==> env.vars == old(env.vars)
    ensures old(Plain(x, env.vars, env.outer)).Some? ==>
      r == old(Plain(x, env.vars, env.outer)).value && env.vars == old(env.vars)
    ensures env.vars == old(env.vars) && ApplyPlain(x, env, fuel).Some? ==> r == ApplyPlain(x, env, fuel).value
    decreases fuel, 1, x, 1
  {
    OuterExcludes(env);
    if Plain(x, env.vars, env.outer).Some? {
      PlainApplication(x, env, fuel);
    }
    var proc := Eval(x.items[0], env, fuel);
    if proc.Err? {
      if env.vars == old(env.vars) {
        assert Immediate(x.items[0], env) == old(Immediate(x.items[0], env));
      }
      return proc;
    }
    var args := EvalArgs(x, env, fuel);
    if env.vars == old(env.vars) {
      assert Immediate(x.items[0], env) == old(Immediate(x.items[0], env));
      assert PlainArgs(x, 1, env.vars, env.outer) == old(PlainArgs(x, 1, env.vars, env.outer));
    }
    if args.Err? {
      return Err(args.error);
    }
    label call:
    r := Call(proc.value, args.value, fuel);
    assert Immediate(x.items[0], env) == old@call(Immediate(x.items[0], env));
    assert PlainArgs(x, 1, env.vars, env.outer) == old@call(PlainArgs(x, 1, env.vars, env.outer));
  }

  /** The arguments of an application, `[eval(arg, env) for arg in x[1:]]`:
      evaluated left to right, the first failure ending the list. */
  method EvalArgs(x: Expr, env: Frame, fuel: nat) returns (r: Result<seq<Value>>)
    requires env.Linked() && IsApplication(x)
    modifies env
    ensures DefineFree(x) ==> env.vars == old(env.vars)
    ensures old(PlainArgs(x, 1, env.vars, env.outer)).Some? ==>
      r == old(PlainArgs(x, 1, env.vars, env.outer)).value && env.vars == old(env.vars)
    decreases fuel, 1, x, 0
  {
    OuterExcludes(env);
    var args: seq<Value> := [];
    var i := 1;
    PrefixedEmpty(PlainArgs(x, 1, env.vars, env.outer));
    while i < |x.items|
      invariant 1 <= i <= |x.items| && |args| == i - 1
      invariant DefineFree(x) ==> env.vars == old(env.vars)
      invariant old(PlainArgs(x, 1, env.vars, env.outer)).Some? ==>
        env.vars == old(env.vars)
        && old(PlainArgs(x, 1, env.vars, env.outer)) == Prefixed(args, PlainArgs(x, i, env.vars, env.outer))
      decreases |x.items| - i
    {
      PlainArgsStep(x, i, env.vars, env.outer);
      if Plain(x.items[i], env.vars, env.outer).Some? {
        PlainIsImmediate(x.items[i], env);
      }
      ghost var later := PlainArgs(x, i + 1, env.vars, env.outer);
      var v := Eval(x.items[i], env, fuel);
      if v.Err? {
        return Err(v.error);
      }
      PrefixedAppend(args, [v.value], later);
      args := args + [v.value];
      i := i + 1;
    }
    assert args + [] == args;
    return Ok(args);
  }

  /** Calling a procedure value (evironment.py:89, 98-100). A closure binds
      its parameters to the arguments in a new frame whose outer frame is the
      one it captured, and evaluates its body there; no frame that existed
      before the call is changed. Each closure call uses one unit of `fuel`. */
  method Call(proc: Value, args: seq<Value>, fuel: nat) returns (r: Result<Value>)
    ensures CallPlain(proc, args, fuel).Some? ==> r == CallPlain(proc, args, fuel).value
    decreases fuel, 0
  {
    match proc
    case VPrim(p) =>
      return ApplyPrim(p, args);
    case VClosure(params, body, cenv) =>
      var keys := ParamKeys(params, |args|);
      if keys.Err? {
        return Err(keys.error);
      }
      if fuel == 0 {
        return Err(OutOfFuel);
      }
      var frame := new Frame(keys.value, args, cenv);
      OuterExcludes(frame);
      if Plain(body, frame.vars, frame.outer).Some? {
        PlainIsImmediate(body, frame);
      }
      r := Eval(body, frame, fuel - 1);
    case _ =>
      return Err(NotCallable);
  }
}
