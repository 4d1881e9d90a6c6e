/** The expression tree shared by the reader and the evaluator, and the
    failure kinds the interpreter can raise. */
module Sexpr {

  /** A parsed S-expression. A float atom keeps the text of its token: the
      model does not compute with floating-point values. */
  datatype Expr =
    | Int(n: int)
    | Float(text: string)
    | Sym(name: string)
    | List(items: seq<Expr>)

  /** The exceptions the interpreter raises, one constructor per kind. */
  datatype Error =
    | UnexpectedEOF          // SyntaxError "unexpected EOF"
    | UnexpectedClose        // SyntaxError "unexpected closing parenthesis"
    | IndexOutOfRange        // IndexError: an index or x[-1] past the end
    | Unbound(name: string)  // NameError "unbound variable: <name>"
    | BadForm                // ValueError: a special form with the wrong number of parts
    | Unhashable             // TypeError: a list used as a dictionary key
    | NotIterable            // TypeError: a numeric parameter list
    | NotCallable            // TypeError: applying a value that is not a procedure
    | ArityError             // TypeError: a primitive given the wrong number of arguments
    | OperandError           // TypeError: a primitive given an operand of the wrong kind
    | Unmodelled             // host behaviour outside the model (floats, sequence ordering)
    | OutOfFuel              // the evaluation bound ran out

  datatype Result<T> = Ok(value: T) | Err(error: Error)

  datatype Option<T> = None | Some(value: T)

  /** True when `e` is a list whose head is the symbol `name`. */
  predicate IsForm(e: Expr, name: string)
  {
    e.List? && |e.items| > 0 && e.items[0] == Sym(name)
  }

  /** The concatenation of a sequence of sequences, in order. */
  function Flatten<T>(ss: seq<seq<T>>): seq<T>
  {
    if ss == [] then [] else ss[0] + Flatten(ss[1..])
  }

  lemma {:induction false} FlattenAppend<T>(a: seq<seq<T>>, b: seq<seq<T>>)
    ensures Flatten(a + b) == Flatten(a) + Flatten(b)
  {
    if a != [] {
      assert (a + b)[1..] == a[1..] + b;
      FlattenAppend(a[1..], b);
    } else {
      assert a + b == b;
    }
  }
}
