# Pylisp reader and evaluator in Dafny

A model of the core of Pylisp, a small Lisp interpreter written in Python, with
proofs about it. The model covers two parts:

- **The reader** (`src/lsp_parser.py`):
  - `tokenize` pads every parenthesis with spaces and splits on whitespace.
  - `Parser.atom` turns a token into an int, a float or a symbol.
  - `Parser.read_from_tokens` builds the nested-list tree and reports how many tokens it used.
  - `Parser.parse` keeps the tree alone.
  - `stringify` prints a tree back as text.
- **The evaluator** (`src/evironment.py`):
  - `Environment` is a dictionary frame with an `outer` link. `find` walks the chain outward.
  - `standard_environment` builds the outermost frame of built-ins.
  - `eval` handles symbols, numbers, `quote`, `if`, `define`, `lambda` and procedure calls.
  - `Procedure.__call__` binds the parameters in a new frame around the frame the closure captured.

## Files

| file | module | what it holds |
|---|---|---|
| `sexpr.dfy` | `Sexpr` | the parsed tree `Expr`, the error kinds, `Result`/`Option` |
| `lexer.dfy` | `Lexer` | `Tokenize` as `Split(Replace(Replace(…)))`, with lemmas on the tokens |
| `atoms.dfy` | `Atoms` | `Atom`: the lexical forms `int()` and `float()` accept; `str` on ints |
| `parser.dfy` | `Parser` | `Read`/`ReadList` (the recursive reading), `ReadFromTokens` (its `while` loop), `Parse` (reading with `Atom`) |
| `printer.dfy` | `Printer` | `Stringify` and the print/tokenize/read round trip |
| `example.dfy` | `ParserExample` | the sample program of `lsp_parser.py` read through the model |
| `environment.dfy` | `Environment` | run-time `Value`s, the `Frame` class, `zip` binding, `find` |
| `primitives.dfy` | `Primitives` | the list and integer built-ins, and `StandardEnvironment` |
| `evaluator.dfy` | `Evaluator` | `Eval`, `EvalIf`, `EvalDefine`, `EvalApply`, `EvalArgs`, `Call` |
| `scenarios.dfy` | `Scenarios` | small whole programs that show sharing, shadowing and the `find` finding |

### How the reader is specified

`Parser.Read(atom, tokens)` is `read_from_tokens` with the conversion it applies to a token that is not a parenthesis passed in as `atom`. Which tokens are read, and how many, does not depend on that conversion, so the lemmas about the shape of a reading hold for any `atom`. The source's reader calls `Parser.atom`, which is `Atoms.Atom`: `Parse`, the round trip and the sample program use `Read(Atom, tokens)`.

### How the heap is modelled

A frame is a `Frame` object, as the source uses it:

- `vars` is a mutable `map<Expr, Value>`, which `define` updates in place.
- `outer` is a constant reference.
- A closure value `VClosure(params, body, env)` holds the frame object itself, not a copy. A `define` made after the closure was created is therefore visible when the closure is called (`Scenarios.LaterDefineVisible`).
- Two ghost constants, `around` (the frames outside, innermost first) and `depth`, make the chain finite. `Linked()` holds of every frame the program builds.

Dictionary keys are parsed trees, so a key is an `Expr`:

- A symbol key is `Sym(name)`.
- A list key is refused as unhashable, as Python refuses a `list`.
- A symbol used as a parameter list is iterated character by character, as `zip` does with a `str`.

### How the evaluator is specified

`eval` need not terminate, so the evaluating methods take `fuel` (all but `EvalSymbol`, which calls nothing), and each closure call uses one unit. `Evaluator.Plain` is a reference semantics written as a function. It covers every expression that calls no closure and runs no `define` or `lambda`. `Evaluator.ApplyPlain` extends it to an application whose callee is a closure with a `Plain` body. The methods are proved against these functions:

- An `Immediate`/`Plain` expression changes no frame and gives the function's result.
- A `define` whose right-hand side is `Immediate` stores exactly that value under the key, in the current frame only.
- An application gives `ApplyPlain`'s result when the frame did not change while the head and arguments were evaluated.
- An expression with no `define` outside quoted data and lambda bodies (`DefineFree`) leaves the frame unchanged, whatever it calls.

### The sample program of `lsp_parser.py`

The `__main__` block (lines 75-78) asserts that `parse()` equals a pair: the tree and the count 17. That pair is what `read_from_tokens` returns; `parse` (line 33) returns the tree alone, so the assertion as written compares a list with a tuple. `ParserExample.AreaCircleExample` states both halves: reading the 17 tokens gives the pair, and `Parse` gives the tree.

### Where `find` and its docstring differ

The docstring of `find` (`src/evironment.py:13`) says it finds the innermost frame where the name appears, so it should fail only when no frame in the chain holds the name. The code at `src/evironment.py:19` stops earlier, at the first outer frame with no bindings, because it tests `self.outer` for truthiness. The model keeps both:

- `Environment.Frame.FindAsWritten` is the walk as written.
- `Environment.Frame.Find` is the innermost-frame walk the docstring states. `Eval` uses it.

Findings shows a program where the two differ.

## Model

| member | source | states |
|---|---|---|
| Lexer.Tokenize | src/lsp_parser.py:19 | the two `replace` calls then `split()` are splitting the text with every parenthesis padded by one space on each side |
| Lexer.TokenizeShape | src/lsp_parser.py:19 | every token is non-empty, holds no whitespace, and a parenthesis only ever forms a token by itself |
| Lexer.TokenizeContent | src/lsp_parser.py:19 | the tokens joined together are the text with its whitespace removed: nothing is lost, added or reordered |
| Lexer.TokenizeBlank | src/lsp_parser.py:19 | the token list is empty exactly when the text is empty or all whitespace |
| Lexer.ReplaceTwiceIsPad | src/lsp_parser.py:19 | the two `replace` calls together surround each parenthesis by one space on each side |
| Lexer.SplitContent | src/lsp_parser.py:19 | `split()` keeps every non-whitespace character, in order |
| Lexer.SplitShape | src/lsp_parser.py:19 | on text whose parentheses stand between whitespace, `split()` yields only well-shaped tokens |
| Lexer.SplitSpaceJoin | src/lsp_parser.py:19 | splitting two texts joined by a space gives the two token lists one after the other |
| Atoms.Atom | src/lsp_parser.py:36-47 | a token never becomes a list; a float keeps the token's text and a symbol is the token itself |
| Atoms.AtomKinds | src/lsp_parser.py:36-47 | `Atom` gives an int, of the token's value, exactly when the token has integer form; otherwise a float, keeping the token's text, exactly when it has float form; otherwise the token itself as a symbol |
| Atoms.AtomsAreNotLists | src/lsp_parser.py:36-47 | no token converts to a list |
| Atoms.IntToStringRoundTrip | src/lsp_parser.py:41-42 | the text `str` gives an int has integer form, and `int` of it is that int again |
| Atoms.AtomOfIntToString | src/lsp_parser.py:41-42 | a printed int is read back as the same int atom |
| Atoms.IntToStringChars | src/lsp_parser.py:24 | a printed int is non-empty and holds only `-` and digits |
| Parser.Read | src/lsp_parser.py:50-72 | a success uses between 1 and all of the tokens; a failure is "unexpected EOF" on no tokens, "unexpected closing parenthesis" on a leading `)`, and the out-of-range `tokens[idx]` otherwise |
| Parser.ReadList | src/lsp_parser.py:63-68 | the loop's result is a list that ends after the current index and within the tokens; its only failure is running off the end |
| Parser.ReadListStep | src/lsp_parser.py:64-67 | one turn of the loop appends the element read at `idx` and advances `idx` by the tokens it used |
| Parser.ReadFromTokens | src/lsp_parser.py:50-72 | the `while` loop over `idx` and `L` computes exactly `Read`, for any conversion |
| Parser.Parse | src/lsp_parser.py:32-33 | "unexpected EOF" exactly on no tokens, "unexpected closing parenthesis" exactly on a leading `)`, a lone atom token gives its atom, and an opening parenthesis can fail only by running off the end |
| Parser.ReadSize | src/lsp_parser.py:66-72 | with a conversion that never gives a list, the count used is 1 for an atom and 2 plus the elements' counts for a list |
| Parser.ReadPrefix | src/lsp_parser.py:50-72 | reading looks only at the tokens it uses: any token list agreeing on them reads the same tree and count |
| Parser.ParseIgnoresTrailing | src/lsp_parser.py:32-33 | tokens after the first complete expression do not change what `parse` returns |
| Parser.ReadErrors | src/lsp_parser.py:57-70 | "unexpected EOF" exactly on no tokens, "unexpected closing parenthesis" exactly on a leading `)`, and no other kind of failure than these and the out-of-range index |
| Parser.ReadBalanced | src/lsp_parser.py:60-72 | the tokens a reading uses hold as many `(` as `)`, and every proper prefix of a list's tokens holds more `(` than `)` |
| Parser.ReadUnclosed | src/lsp_parser.py:60-68 | an opening parenthesis that no later `)` balances (every prefix of the tokens holds more `(` than `)`, nested lists included) runs off the end of the tokens |
| Parser.ReadAtom | src/lsp_parser.py:71-72 | a token other than a parenthesis is read alone as its atom, using one token |
| Printer.Stringify | src/lsp_parser.py:21-24 | a list prints between an opening and a closing parenthesis |
| Printer.TokenizeStringify | src/lsp_parser.py:21-24 | the printed text of an int/symbol tree tokenizes into one token per atom and per parenthesis |
| Printer.ReadTokens | src/lsp_parser.py:50-72 | reading those tokens, followed by anything, gives back the tree and uses exactly its tokens |
| Printer.RoundTrip | src/lsp_parser.py:21-24 | `parse(tokenize(stringify(e))) == e` for trees of ints and symbols that are neither numbers nor contain whitespace or parentheses, and reading uses every token |
| ParserExample.AreaCircleText | src/lsp_parser.py:76 | the expected tree prints as the sample's program text |
| ParserExample.AreaCircleExample | src/lsp_parser.py:75-78 | the sample program tokenizes into 17 tokens, and reading them gives the expected tree from all 17; `parse` gives the tree alone |
| Environment.ToValue | src/evironment.py:68-70 | a quoted tree becomes the value of the same kind, a list of the same length |
| Environment.ToValueInjective | src/evironment.py:68-70 | `quote` loses nothing: two trees with the same value are the same tree |
| Environment.ZipLength | src/evironment.py:9 | `zip` pairs as many entries as the shorter side has |
| Environment.Bind | src/evironment.py:9 | only parameters become keys of the new frame |
| Environment.BindDomain | src/evironment.py:9 | a key is bound exactly when it is one of the keys `zip` pairs with an argument |
| Environment.BindLast | src/evironment.py:9 | a key is bound to the argument at its last paired position |
| Environment.BindExtraKeys | src/evironment.py:9 | parameters beyond the arguments are dropped |
| Environment.BindExtraArgs | src/evironment.py:9 | arguments beyond the parameters are dropped |
| Environment.Frame.constructor | src/evironment.py:8-10 | the new frame holds the zipped bindings and the given outer frame unchanged |
| Environment.OwnerIn | src/evironment.py:12-22 | the frame found holds the name and belongs to the chain; otherwise the failure is "unbound variable" for that name |
| Environment.Frame.Find | src/evironment.py:12-22 | the walk returns the innermost frame of the chain that holds the name, or fails with "unbound variable" when none does |
| Environment.Frame.FindAsWritten | src/evironment.py:12-22 | as written, the walk returns the innermost holder among the frames before the first empty outer frame |
| Environment.Searched | src/evironment.py:19 | the frames the written walk reaches are a non-empty prefix of the chain |
| Environment.SearchedWhole | src/evironment.py:17-20 | when no outer frame is empty, the written walk reaches the whole chain, so it agrees with the corrected one |
| Environment.LookupInnermost | src/evironment.py:64 | a symbol's value is the value held by the innermost frame that holds it |
| Primitives.Truthy | src/evironment.py:74 | Python truthiness is decided for every value except floats |
| Primitives.Repeat | src/evironment.py:29 | a list or string times `n` has `n` times the elements, none when `n <= 0` |
| Primitives.ApplyUnary | src/evironment.py:36-52 | the one-argument built-ins fail only with IndexError, TypeError or outside the model; IndexError exactly for `car` of an empty list or string; the type tests always answer a boolean |
| Primitives.ApplyBinary | src/evironment.py:29-42 | the two-argument built-ins fail only with TypeError or outside the model; comparisons and `=` answer a boolean; `cons` succeeds exactly when its second operand is a list |
| Primitives.ValueEq | src/evironment.py:31 | `=` fails only outside the model: a float compared with a number or a float, or two closures |
| Primitives.ApplyPrim | src/evironment.py:28-53 | a host built-in is outside the model; a one- or two-argument built-in given another number of arguments fails exactly with the arity error |
| Primitives.StandardEnvironment | src/evironment.py:24-54 | a new outermost frame holding the list and integer built-ins |
| Primitives.CarCdrCons | src/evironment.py:36-38 | `cons` puts an element before a list; `car` and `cdr` of the result are that element and that list |
| Primitives.ConsCarCdr | src/evironment.py:36-38 | `cons` of `car` and `cdr` rebuilds any non-empty list |
| Primitives.AppendLength | src/evironment.py:29-41 | `append` of two lists has the first list, then the second, and the sum of their lengths |
| Primitives.RepeatAdd | src/evironment.py:29 | repeating `a + b` times is repeating `a` times then `b` times, and once is the list itself |
| Primitives.ValueEqReflexive | src/evironment.py:31 | the model's `=` never says a value differs from itself, and says it equals itself when no float or closure is involved; this holds because floats are outside the model: in Python `nan` is a float token and `(= x x)` is false for it |
| Primitives.ListEqReflexive | src/evironment.py:31 | element-wise comparison of a list with itself never answers false |
| Primitives.ValueEqSymmetric | src/evironment.py:31 | `=` gives the same answer with the operands swapped |
| Primitives.ListEqSymmetric | src/evironment.py:31 | element-wise comparison gives the same answer with the lists swapped |
| Evaluator.ParamKeys | src/evironment.py:100 | a list of parameters is used as given, a symbol by its characters and a number is not iterable; a list key among those paired is unhashable |
| Evaluator.PlainApplication | src/evironment.py:85-89 | an application with no closure call has the same result under both reference semantics |
| Evaluator.Eval | src/evironment.py:57-89 | a `DefineFree` expression leaves the frame unchanged; an `Immediate` one gives its reference value; a `define` of an `Immediate` value binds it in the current frame only; an application gives `ApplyPlain`'s result |
| Evaluator.EvalSymbol | src/evironment.py:63-64 | a symbol evaluates to the value in the innermost frame that holds it, or fails as unbound |
| Evaluator.EvalIf | src/evironment.py:72-75 | exactly three operands; the test and then only the selected branch are evaluated, with Python truthiness |
| Evaluator.EvalDefine | src/evironment.py:77-79 | another length is a bad form; on success the form's value is `None` and the key is bound in the current frame; for an `Immediate` right-hand side the key holds its value and nothing else changes; for a `DefineFree` right-hand side every other key keeps its binding |
| Evaluator.EvalApply | src/evironment.py:85-89 | head, then arguments, then the call: the result is `ApplyPlain`'s, and the caller's frame gains no parameter bindings |
| Evaluator.EvalArgs | src/evironment.py:88 | the arguments are evaluated left to right, the first failure ending the list |
| Evaluator.Call | src/evironment.py:98-100 | a built-in is applied to the arguments; a closure's body is evaluated with the parameters bound in a new frame whose outer frame is the captured one |
| Scenarios.CallUsesCapturedFrame | src/evironment.py:98-100 | in any frame, `(f)` with `f` a closure of no parameters evaluates its body in an empty frame around the frame the closure captured, whatever the caller's frames bind |
| Scenarios.CallSeesLaterDefine | src/evironment.py:98-100 | one instance: with `f` bound to `(lambda () y)` over a frame that later bound `y` to 7, `(f)` gives 7 |
| Scenarios.LaterDefineVisible | src/evironment.py:81-83 | `(define f (lambda () y))`, `(define y 7)`, `(f)` gives 7: the closure holds the frame itself |
| Scenarios.ParameterHides | src/evironment.py:98-100 | in any frame, whatever it binds `p` to, `((lambda (p) p) e)` gives the value of `e` |
| Scenarios.ParameterShadows | src/evironment.py:98-100 | after `(define x 1)`, `((lambda (x) x) 2)` gives 2, and `x` is still 1 in the outermost frame |
| Scenarios.DefineInBodyStaysLocal | src/evironment.py:77-79 | a `define` inside a procedure body leaves the caller's frame unchanged |
| Scenarios.SumProgram | src/evironment.py:85-89 | `(+ 1 2)` in the standard environment gives 3 |
| Scenarios.ChoiceProgram | src/evironment.py:72-75 | `(if (> 3 2) 1 2)` gives 1 |
| Scenarios.UnboundProgram | src/evironment.py:20-22 | `(foo)` with `foo` unbound fails with "unbound variable: foo" |
| Scenarios.QuoteProgram | src/evironment.py:68-70 | `(quote (1 2 3))` gives the list itself, without calling `1` |
| Scenarios.AddCall | src/evironment.py:98-100 | once `add` is bound to `(lambda (x y) (+ x y))`, `(add 2 3)` is 5 |
| Scenarios.AddProgram | src/evironment.py:77-100 | after `(define add (lambda (x y) (+ x y)))`, `(add 2 3)` gives 5, and the outermost frame binds `add` but neither `x` nor `y` |
| Scenarios.CallerDoesNotLeak | src/evironment.py:98-100 | one instance: `(f)` called from a frame binding `y` to 2 finds the `y` bound to 1 in the frame `f` captured |
| Scenarios.LexicalScope | src/evironment.py:81-100 | after `(define y 1)` and `(define f (lambda () y))`, `(f)` called from a frame binding `y` to 2 gives 1 |
| Scenarios.HiddenBehindEmpty | src/evironment.py:17-22 | behind an empty frame, the written walk misses a name that the corrected walk finds in the outermost frame |
| Scenarios.EmptyFrameHidesGlobals | src/evironment.py:19 | inside `((lambda () ((lambda (y) car) 1)))`, the written `find` fails to find `car`, and the corrected one finds it in the standard environment |

## Left out

- `src/REPL.py`: the interactive loop is input and output around `tokenize`, `parse` and `eval`.
- `env.update(vars(math))`: the `math` module's names are not bound, so `pi` is unbound in the model.
- Floating-point numbers: a float token is kept as its text. Arithmetic, comparison, `=` and truthiness on a float give the `Unmodelled` error, so `nan`, which is unequal to itself in Python, is not modelled.
- `/`, `round`, `abs`, `max`, `min`, `map`, `apply`, `eq?` and `procedure?`: these names are bound to `Host` built-ins that give `Unmodelled`. They delegate to Python builtins, object identity or `callable`.
- Ordering comparisons of lists and strings: lexicographic comparison gives `Unmodelled`.
- Primitives.ValueEq: two closures compare by object identity in Python, which the model does not track, so the result is `Unmodelled`.
- Int and float keys that Python treats as the same dictionary key (`1` and `1.0`) are distinct keys in the model.
- Unicode digits other than `0`-`9` are not modelled, although `int()` and `float()` accept them.
- `str()` of a float: `stringify` prints a float by the text it was read from.
- Stack exhaustion and Python's recursion limit are not modelled.
- CPython's limit on converting between `int` and `str` (4300 digits by default, from Python 3.11 and in the security releases before it) is not modelled: integers are unbounded in both directions. The four lines below follow from it.
- Atoms.AtomKinds: a token of more than 4300 digits is an int in the model, where `int()` raises under the limit and `atom` returns the float `inf`.
- Atoms.IntToStringRoundTrip: holds for every int in the model; under the limit, `str()` of an int of more than 4300 digits raises.
- Atoms.AtomOfIntToString: holds for every int in the model; under the limit, the printed text of such an int cannot be produced or read back as an int.
- Printer.RoundTrip: holds for trees with ints of any size; under the limit, `stringify` raises on an int of more than 4300 digits.
- Evaluator.Eval: instead of termination there is `fuel`, one unit per closure call, so a call with no fuel left fails with `OutOfFuel` where Python would go on.
- Evaluator.Eval: the contract fixes the result only in the `Plain` fragment, for a `define` of an `Immediate` value, and for an application covered by `ApplyPlain`. Beyond that, for programs with nested closure calls, it states only the frame facts.
- Evaluator.EvalIf: the result is fixed only for a `Plain` test and branch.
- Evaluator.EvalSymbol: looks the name up with the corrected walk `Frame.Find`, not the `find` of `src/evironment.py:19` as written, so a symbol whose chain crosses an empty outer frame (the Findings row) is found where the source raises "unbound variable".
- Evaluator.Eval: symbols are looked up with the corrected walk, as for `EvalSymbol`; a program whose lookup crosses an empty outer frame succeeds in the model where the source raises.
- Environment.LookupInnermost: states the lookup through the corrected walk; the source's `env.find(x)[x]` at line 64 uses the walk as written, which `Frame.FindAsWritten` models.
- Evaluator.EvalDefine: the stored value is fixed only for an `Immediate` right-hand side, and the other keys are kept only for a `DefineFree` one. A right-hand side that itself defines, such as `(define b (begin (define a 1) 2))`, binds more keys in the same frame, as the source does.
- Evaluator.EvalApply: the result is fixed only when `ApplyPlain` covers the call.
- Evaluator.EvalArgs: the values are fixed only when every argument is `Plain`.
- Evaluator.Call: the result is fixed only when `CallPlain` covers the call.
- The `__main__` block of `src/evironment.py` (lines 104-105) builds a tree and does nothing with it.

## Findings

| source | as written | input that shows it | evidently intended | confidence | as-written member | corrected member |
|---|---|---|---|---|---|---|
| src/evironment.py:19 | `elif self.outer:` tests the outer frame's truthiness. A frame is a `dict`, so an outer frame with no bindings counts as false and the walk stops there. | `((lambda () ((lambda (y) car) 1)))` in the standard environment: the zero-parameter call's frame is empty, so `car` raises "unbound variable: car" | `elif self.outer is not None:`, so the walk reaches every enclosing frame | not executed | Environment.Frame.FindAsWritten, Scenarios.EmptyFrameHidesGlobals | Environment.Frame.Find |
