# Interpreter::eval of the libfive GUI, in Dafny

The GUI hands script text to Guile's sandboxed evaluator (`eval-sandboxed`), which
returns one pair `(tag . body)` per top-level form and fills a global registry of
free variables. `Interpreter::eval` turns that list into a report:

1. **Classify**: the list is valid while every tag is the symbol `valid`; the loop
   stops right after the first other tag.
2. **Choose**: the outcome it reports is the body of the *last* pair, valid or not.
3. **Decode an error** when the list is invalid. The body is the payload
   `(before after key params stack)`. The message depends on the key:
   `syntax-error`, `numerical-overflow`, or any other key, whose own message
   template is formatted with its own arguments. The message is wrapped with
   `In function …` when `car params` is not `#f`. Rows come from `car` and columns
   from `cdr` of the two position markers, and the stack-trace string is copied
   as it is.
4. **Build the success output** otherwise. This is the printed result: `#<eof>`,
   the one value written with `~S`, or `"(values" + ~S of the list + ")"`. Then come
   the maps id→value and id→`Range` built from the registry, where a later entry
   overwrites an earlier one. Last come the shape values of every outcome, in
   order.

Files:

- `scm.dfy` (module `Scm`): Guile values as a closed datatype `Value`, proper lists,
  `Nth` for `car`/`cadr`/`caddr`/`cadddr`, and the `Runtime` record of foreign calls.
- `format.dfy` (module `Format`): Guile's `display`/`write` printer and
  `scm_simple_format` for the directives `~A`, `~S`, `~%`, `~~`.
- `interpreter.dfy` (module `Interpreter`): `Range`, the constants the
  `Interpreter` constructor builds, classification, error decoding, the result
  text, the variable and shape walks, and `Eval`.

`Eval` is a method. It is proved equal to the function `Interpret`, and the
properties of `eval` are lemmas about `Interpret` and the functions it uses. The
three loops of the source are methods with loop invariants: `Classify`,
`CollectVariables` and `CollectShapes`. The variable and shape walks update
local `map`/`seq` state, as the source does.

The model keeps what the code does in places where it is easy to misread:

- The reported outcome is the last one in the list, not the first failing one.
- A variable's `Range` has end row `0`, not its start row.
- A malformed error payload has no fallback: `scm_car` on the wrong shape would
  fault. Well-formedness (`EvalReady`, `IsErrorPayload`) is a precondition.
- With an empty result list, the registry is still walked. The maps are empty
  only when the registry is.
- A list of several values prints as `(values(1 2))`, with no space after
  `values`. This is what the code builds (`ResultTextTwoValues`).

## Model

| member | source | states |
|---|---|---|
| `Interpreter.Classify` | gui/main.cpp:69-73 | valid iff every tag is `valid`. It inspects outcomes up to and including the first failing one, and that one fails. |
| `Interpreter.SyntaxTemplate` | gui/main.cpp:50 | `"~A: ~A in form ~A"` is a well-formed template for three arguments. It gives key, `": "`, second, `" in form "`, third. |
| `Interpreter.NumericalOverflowTemplate` | gui/main.cpp:51 | `"~A: ~A in ~A"` is well formed and gives key, `": "`, second, `" in "`, third |
| `Interpreter.OtherErrorTemplate` | gui/main.cpp:48 | `"~A: ~A"` is well formed and gives first, `": "`, second |
| `Interpreter.InFunctionTemplate` | gui/main.cpp:49 | `"In function ~A:\n~A"` is well formed and gives `"In function "`, name, `":\n"`, message |
| `Interpreter.ResultTemplate` | gui/main.cpp:47 | `"~S"` is well formed and writes its one argument |
| `Interpreter.BaseMessage` | gui/main.cpp:89-104 | syntax-error: `key: cadr in form cadddr`. numerical-overflow: `key: cadr in car`. Any other key: `key: ` followed by the key's own template (cadr) formatted with its arguments (caddr). |
| `Interpreter.Message` | gui/main.cpp:105-109 | unchanged when `car params` is `#f`; otherwise `"In function " + car + ":\n" + message` |
| `Interpreter.DecodeError` | gui/main.cpp:79-123 | kind is syntax / overflow / other exactly when the key is `syntax-error` / `numerical-overflow` / neither. The message is `Message` of key and params. |
| `Interpreter.DecodePayload` | gui/main.cpp:80-86 | a payload built as `(before after key params stack)` is accepted. It decodes to the stack verbatim and to `Range(row before, row after, col before, col after)` (lines 111, 116-119). |
| `Interpreter.ResultText` | gui/main.cpp:124-147 | `#<eof>` with no last outcome. With exactly one value, that value written with `~S`. Otherwise `"(values" + ~S of the list + ")"`. |
| `Interpreter.ResultTextNoValues` | gui/main.cpp:134-139 | an empty value list prints `(values())` |
| `Interpreter.ResultTextTwoValues` | gui/main.cpp:134-139 | two values print `(values(a b))` with both written |
| `Interpreter.CollectVariables` | gui/main.cpp:153-174 | the loop leaves `vars` and `var_pos` equal to storing every registry entry in turn |
| `Interpreter.VariableKeys` | gui/main.cpp:162-173 | an id is in `vars` iff some registry entry has it, and `var_pos` has the same keys |
| `Interpreter.VariablesLastWins` | gui/main.cpp:167-172 | for the last entry with an id, `vars[id]` is its value and `var_pos[id]` is `Range(row, 0, startcol, endcol)` |
| `Interpreter.VariablesFrame` | gui/main.cpp:167-172 | storing one more entry leaves every other id's presence and value in both maps unchanged |
| `Interpreter.VariableRowsEndAtZero` | gui/main.cpp:170 | every stored range has end row 0 |
| `Interpreter.CollectShapes` | gui/main.cpp:176-189 | the nested walk yields the shape values of every outcome's values, outcome by outcome, in list order |
| `Interpreter.ShapesMember` | gui/main.cpp:178-186 | a value is picked from one value list iff it occurs there and passes the shape test |
| `Interpreter.ShapesNone` | gui/main.cpp:178-186 | a value list without shapes contributes nothing |
| `Interpreter.ShapesOfAppend` | gui/main.cpp:177-189 | the shapes of two lists of outcomes are those of the first, then those of the second |
| `Interpreter.ShapesOfMember` | gui/main.cpp:177-189 | a value is among the shapes iff it is a shape and some outcome's values hold it |
| `Interpreter.Eval` | gui/main.cpp:64-194 | computes `Interpret` of the result list and the registry. It fails exactly when some outcome's tag is not `valid`. |
| `Interpreter.InterpretEmpty` | gui/main.cpp:77 | an empty list is valid and gives `#<eof>` and no shapes (lines 143-147, 150-189). The maps are the registry's, empty when the registry is. |
| `Interpreter.ReportFromLast` | gui/main.cpp:75-78 | outcomes before the last one change neither the decoded error nor the printed result, only whether there is an error: the error is always decoded from the last body (`scm_cdr(scm_car(scm_last_pair(result)))`), and the printed text depends only on the last outcome |
| `Interpreter.SucceededShapes` | gui/main.cpp:177-189 | every shape in a successful report passes the shape test and is held by some outcome |
| `Scm.ListRoundTrip` | gui/main.cpp:92 | a list built from elements (`scm_list_n`) is proper and gives those elements back |
| `Scm.ElemsRoundTrip` | gui/main.cpp:102-103 | a proper list is rebuilt by its own elements, so passing `caddr params` to the inner `scm_simple_format` as its element sequence is passing the list itself |
| `Scm.NthOfList` | gui/main.cpp:81-86 | `car`/`cadr`/`caddr`/`cadddr` of a built list are its elements by index |

## Left out

- The `Interpreter()` constructor: Guile start-up, module loading and GC protection. Its symbols and templates are the module's constants.
- `main()` and `glfw_error_callback`: the window, the event loop, ImGui and OpenGL.
- The evaluator call `scm_call_1(scm_eval_sandboxed, …)` and the read of the registry with `scm_c_eval_string`. Their results are `Eval`'s parameters `result` and `registry`.
- `scm_is_shape`, `libfive_tree_id(scm_get_tree(…))`, `scm_to_double` and the printed form of opaque objects are uninterpreted fields of `Runtime`. Flonums, shapes and procedures are opaque `Obj` values.
- The variable values are `real`: the rounding to double, and then to the `float` of the map, is not modelled.
- `scm_to_locale_string` and `free`: strings are `seq<char>`, and there is no encoding or memory.
- The printer escapes only `"` and `\` in written strings. It does not print symbols that need `#{…}#` specially, and it writes and displays characters and other objects alike.
- `scm_simple_format` is modelled on well-formed templates only (directives `~A`, `~S`, `~%`, `~~`, with exactly as many arguments as directives). Guile raises an error otherwise, and `eval` has no handler.
- The shape walk's `scm_get_tree` result is not used by the source (the `Shape` construction is commented out). The model collects the shape values themselves.
- The values the source computes and then drops (the error message, the stack trace, the error `Range` of lines 116-119, the result text) are returned in the report instead of being dropped. The report's `ErrorInfo.kind` is the model's own: lines 89-104 only choose a template by key, and `kind` records which branch was taken.
- The default `Range()` (-1, -1, -1, -1) is the constant `Unset`. `eval` never reads it.
- `benchmark/ssao.cpp` (GPU rendering, file output) and `gui/tex.hpp` (declarations only) are not part of this model.
