/** Run-time values and the chain of scope frames (`Environment`,
    evironment.py:6-22). */
module Environment {
  import opened Sexpr

  /** The procedures the standard environment binds. `Host` stands for a name
      bound to a Python builtin whose behaviour is outside the model. */
  datatype Prim =
    | Unary(u: UnaryOp)
    | Binary(o: BinaryOp)
    | Begin
    | MakeList
    | Host(name: string)

  datatype UnaryOp = Car | Cdr | Length | ListP | Not | NullP | NumberP | SymbolP

  datatype BinaryOp = Add | Sub | Mul | Gt | Lt | Ge | Le | Eq | Cons

  /** A Python value the interpreter can produce. A symbol value is a Python
      `str`; a closure is a `Procedure` holding its defining frame itself. */
  datatype Value =
    | VInt(i: int)
    | VBool(b: bool)
    | VFloat(text: string)
    | VSym(s: string)
    | VList(elems: seq<Value>)
    | VClosure(params: Expr, body: Expr, env: Scope)
    | VPrim(p: Prim)
    | VNone

  /** A quoted tree as a value: `quote` hands back the parsed list itself. */
  function ToValue(e: Expr): (v: Value)
    ensures e.Int? <==> v.VInt?
    ensures e.Float? <==> v.VFloat?
    ensures e.Sym? <==> v.VSym?
    ensures e.List? <==> v.VList?
    ensures e.List? ==> |v.elems| == |e.items|
  {
    match e
    case Int(n) => VInt(n)
    case Float(t) => VFloat(t)
    case Sym(s) => VSym(s)
    case List(items) => VList(seq(|items|, i requires 0 <= i < |items| => ToValue(items[i])))
  }

  /** `quote` loses nothing: two trees with the same value are the same tree. */
  lemma {:induction false} ToValueInjective(a: Expr, b: Expr)
    ensures ToValue(a) == ToValue(b) ==> a == b
    decreases a
  {
    if ToValue(a) == ToValue(b) && a.List? {
      forall i | 0 <= i < |a.items|
        ensures a.items[i] == b.items[i]
      {
        assert ToValue(a).elems[i] == ToValue(a.items[i]);
        assert ToValue(b).elems[i] == ToValue(b.items[i]);
        ToValueInjective(a.items[i], b.items[i]);
      }
    }
  }

  /** A frame: a dictionary from keys to values and the frame it is nested in.
      `around` lists the frames outside this one, innermost first, and
      `depth` counts them, so the chain is finite. */
  class Frame {
    var vars: map<Expr, Value>
    const outer: Frame?
    ghost const around: seq<Frame>
    ghost const depth: nat

    ghost predicate Linked()
      decreases depth
    {
      && (outer == null ==> around == [] && depth == 0)
      && (outer != null ==> outer.depth < depth && outer.Linked() && around == [outer] + outer.around)
    }

    /** This frame and the ones around it, innermost first. */
    ghost function Chain(): (c: seq<Frame>)
      ensures c == [this] + around
    {
      [this] + around
    }

    /** `Environment(params, args, outer)` once `params` has been iterated
        into `keys`: the dictionary holds the pairs `zip` makes, and the outer
        frame is kept as given (evironment.py:8-10). Hashing a list key is a
        TypeError, so the keys that get paired are not lists. */
    constructor (keys: seq<Expr>, args: seq<Value>, outer: Scope)
      requires Hashable(keys, |args|)
      ensures vars == Bind(keys, args)
      ensures this.outer == outer
      ensures Linked()
    {
      this.outer := outer;
      depth := if outer == null then 0 else outer.depth + 1;
      around := if outer == null then [] else [outer] + outer.around;
      vars := Bind(keys, args);
    }

    /** `find` (evironment.py:12-22) with the outer link compared with
        `None`: the innermost frame of the chain that binds the name. */
    method Find(name: string) returns (r: Result<Frame>)
      requires Linked()
      ensures r == OwnerIn(Chain(), name)
      decreases depth
    {
      if Sym(name) in vars {
        return Ok(this);
      } else if outer != null {
        r := outer.Find(name);
        OwnerInTail(this, outer.Chain(), name);
      } else {
        return Err(Unbound(name));
      }
    }

    /** `find` exactly as written: `elif self.outer:` stops at an outer
        frame that has no bindings (evironment.py:19). */
    method FindAsWritten(name: string) returns (r: Result<Frame>)
      requires Linked()
      ensures r == OwnerIn(Searched(Chain()), name)
      decreases depth
    {
      if Sym(name) in vars {
        return Ok(this);
      } else if outer != null && |outer.vars| != 0 {
        r := outer.FindAsWritten(name);
        SearchedOuter(this);
        OwnerInTail(this, Searched(outer.Chain()), name);
      } else {
        return Err(Unbound(name));
      }
    }
  }

  /** A frame reference whose chain of outer frames is finite. */
  type Scope = f: Frame? | f == null || f.Linked()

  /** The keys `zip` pairs with `n` arguments can be hashed. */
  predicate Hashable(keys: seq<Expr>, n: nat)
  {
    forall i :: 0 <= i < |keys| && i < n ==> !keys[i].List?
  }

  /** How many pairs `zip(keys, args)` makes. */
  function ZipLength(keys: seq<Expr>, args: seq<Value>): (n: nat)
    ensures n <= |keys| && n <= |args|
    ensures n == |keys| || n == |args|
  {
    if |keys| < |args| then |keys| else |args|
  }

  /** The dictionary `update(zip(keys, args))` makes from an empty one: the
      pairs in order, a later pair overriding an earlier one with the same
      key. */
  function Bind(keys: seq<Expr>, args: seq<Value>): (r: map<Expr, Value>)
    ensures forall k :: k in r ==> k in keys
    decreases |keys|
  {
    var n := ZipLength(keys, args);
    if n == 0 then map[]
    else Bind(keys[..n - 1], args[..n - 1])[keys[n - 1] := args[n - 1]]
  }

  /** The position in `chain` of the first frame binding `k`, or `|chain|`. */
  ghost function FirstWith(chain: seq<Frame>, k: Expr): (i: nat)
    reads chain
    ensures i <= |chain|
    ensures forall j :: 0 <= j < i ==> k !in chain[j].vars
    ensures i < |chain| ==> k in chain[i].vars
  {
    if chain == [] || k in chain[0].vars then 0 else 1 + FirstWith(chain[1..], k)
  }

  /** The first frame of `chain` binding the name, or the NameError
      "unbound variable". */
  ghost function OwnerIn(chain: seq<Frame>, name: string): (r: Result<Frame>)
    reads chain
    ensures r.Ok? ==> r.value in chain && Sym(name) in r.value.vars
    ensures r.Err? ==> r.error == Unbound(name)
  {
    var i := FirstWith(chain, Sym(name));
    if i < |chain| then Ok(chain[i]) else Err(Unbound(name))
  }

  /** The frames a scope reaches. */
  ghost function Frames(s: Scope): seq<Frame>
  {
    if s == null then [] else s.Chain()
  }

  /** The frames around a frame are linked and nested more shallowly. */
  lemma {:induction false} AroundShallower(f: Frame)
    requires f.Linked()
    ensures forall i :: 0 <= i < |f.around| ==> f.around[i].Linked() && f.around[i].depth < f.depth
    decreases f.depth
  {
    if f.outer != null {
      AroundShallower(f.outer);
      forall i | 0 < i < |f.around|
        ensures f.around[i].Linked() && f.around[i].depth < f.depth
      {
        assert f.around[i] == f.outer.around[i - 1];
      }
    }
  }

  /** A frame is not among the frames around it. */
  lemma OuterExcludes(f: Frame)
    requires f.Linked()
    ensures f !in Frames(f.outer)
  {
    AroundShallower(f);
  }

  /** `find(name)[name]` in a frame with bindings `vars` and outer frame
      `outer`. */
  ghost function LookupIn(vars: map<Expr, Value>, outer: Scope, name: string): Result<Value>
    reads Frames(outer)
  {
    if Sym(name) in vars then Ok(vars[Sym(name)])
    else if outer == null then Err(Unbound(name))
    else
      match OwnerIn(outer.Chain(), name)
      case Ok(f) => Ok(f.vars[Sym(name)])
      case Err(e) => Err(e)
  }

  // ---------------------------------------------------------------------
  // Binding parameters

  lemma {:induction false} BindDomain(keys: seq<Expr>, args: seq<Value>, k: Expr)
    ensures k in Bind(keys, args) <==> exists i :: 0 <= i < ZipLength(keys, args) && keys[i] == k
    decreases |keys|
  {
    var n := ZipLength(keys, args);
    if n > 0 {
      var ks, vs := keys[..n - 1], args[..n - 1];
      assert ZipLength(ks, vs) == n - 1;
      BindDomain(ks, vs, k);
      if k in Bind(keys, args) && k != keys[n - 1] {
        var i :| 0 <= i < n - 1 && ks[i] == k;
        assert keys[i] == k;
      }
      forall i | 0 <= i < n - 1 && keys[i] == k
        ensures k in Bind(ks, vs)
      {
        assert ks[i] == k;
      }
    }
  }

  /** A key is bound to the argument of its last pairing (evironment.py:9). */
  lemma {:induction false} BindLast(keys: seq<Expr>, args: seq<Value>, i: nat)
    requires i < ZipLength(keys, args)
    requires forall j :: i < j < ZipLength(keys, args) ==> keys[j] != keys[i]
    ensures keys[i] in Bind(keys, args) && Bind(keys, args)[keys[i]] == args[i]
    decreases |keys|
  {
    var n := ZipLength(keys, args);
    if i < n - 1 {
      var ks, vs := keys[..n - 1], args[..n - 1];
      assert ZipLength(ks, vs) == n - 1;
      assert ks[i] == keys[i] && vs[i] == args[i];
      forall j | i < j < n - 1 ensures ks[j] != ks[i] {
        assert ks[j] == keys[j];
      }
      BindLast(ks, vs, i);
    }
  }

  /** Extra parameters or extra arguments are dropped, as `zip` drops them. */
  lemma BindExtraKeys(keys: seq<Expr>, more: seq<Expr>, args: seq<Value>)
    requires |args| <= |keys|
    ensures Bind(keys + more, args) == Bind(keys, args)
  {
    var n := |args|;
    if n > 0 {
      assert (keys + more)[..n - 1] == keys[..n - 1];
      assert (keys + more)[n - 1] == keys[n - 1];
    }
  }

  lemma BindExtraArgs(keys: seq<Expr>, args: seq<Value>, more: seq<Value>)
    requires |keys| <= |args|
    ensures Bind(keys, args + more) == Bind(keys, args)
  {
    var n := |keys|;
    if n > 0 {
      assert (args + more)[..n - 1] == args[..n - 1];
      assert (args + more)[n - 1] == args[n - 1];
    }
  }

  // ---------------------------------------------------------------------
  // Searching the chain

  /** The name's value is the one held by the frame `find` returns: the
      innermost frame of the chain binding it; a name no frame of the chain
      binds is unbound (evironment.py:17-22, 64). */
  lemma {:induction false} LookupInnermost(f: Frame, name: string)
    requires f.Linked()
    ensures LookupIn(f.vars, f.outer, name)
      == match OwnerIn(f.Chain(), name)
         case Ok(g) => Ok(g.vars[Sym(name)])
         case Err(e) => Err(e)
  {
    var c := f.Chain();
    if Sym(name) !in f.vars && f.outer != null {
      assert c[1..] == f.outer.Chain();
    }
  }

  /** The frames `find` as written visits along `chain`: it moves to the
      next frame only while that frame is truthy, and an empty dictionary is
      not (evironment.py:19). It visits a prefix of the chain, never empty
      when the chain is not. */
  ghost function Searched(chain: seq<Frame>): (c: seq<Frame>)
    reads chain
    ensures |c| <= |chain| && c == chain[..|c|]
    ensures chain != [] ==> |c| > 0
  {
    if chain == [] then []
    else if |chain| > 1 && |chain[1].vars| != 0 then [chain[0]] + Searched(chain[1..])
    else [chain[0]]
  }

  predicate NoEmptyOuter(c: seq<Frame>)
    reads c
  {
    forall i :: 0 < i < |c| ==> |c[i].vars| != 0
  }

  lemma SearchedOuter(f: Frame)
    requires f.Linked() && f.outer != null && |f.outer.vars| != 0
    ensures Searched(f.Chain()) == [f] + Searched(f.outer.Chain())
  {
    assert f.Chain()[1..] == f.outer.Chain();
  }

  lemma OwnerInTail(head: Frame, rest: seq<Frame>, name: string)
    requires Sym(name) !in head.vars
    ensures OwnerIn([head] + rest, name) == OwnerIn(rest, name)
  {
    assert ([head] + rest)[1..] == rest;
  }

  /** When no outer frame is empty, `find` as written visits the whole chain,
      so it agrees with the corrected walk. */
  lemma {:induction false} SearchedWhole(chain: seq<Frame>)
    requires NoEmptyOuter(chain)
    ensures Searched(chain) == chain
  {
    if |chain| > 1 {
      var tail := chain[1..];
      assert NoEmptyOuter(tail) by {
        forall i | 0 < i < |tail| ensures |tail[i].vars| != 0 {
          assert tail[i] == chain[i + 1];
        }
      }
      SearchedWhole(tail);
      assert chain == [chain[0]] + tail;
    }
  }
}
