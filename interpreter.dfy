/**
 * Interpreter::eval: turn the outcome list of the sandboxed evaluator into a
 * report. It classifies the list, decodes the last outcome's error payload
 * when some outcome failed, and otherwise prints the last outcome's values
 * and walks the variable registry and every outcome's values for shapes.
 */
module Interpreter {
  import opened Scm
  import opened Format

  // The objects the Interpreter constructor builds once. Each template is
  // written as its directives and the text between them, in order:
  // "~A: ~A in form ~A" is "~A" + ": " + "~A" + " in form " + "~A".
  const ValidSym := Sym("valid")
  const SyntaxErrorSym := Sym("syntax-error")
  const NumericalOverflowSym := Sym("numerical-overflow")
  const ResultFmt := "~S"
  const OtherErrorFmt := "~A" + (": " + "~A")
  const InFunctionFmt := "In function " + ("~A" + (":\n" + "~A"))
  const SyntaxErrorFmt := "~A" + (": " + ("~A" + (" in form " + "~A")))
  const NumericalOverflowFmt := "~A" + (": " + ("~A" + (" in " + "~A")))

  /** A span of source text, fields in the order of the four-argument constructor. */
  datatype Range = Range(startRow: Int32, endRow: Int32, startCol: Int32, endCol: Int32)

  /** What the default constructor gives. */
  const Unset := Range(-1, -1, -1, -1)

  datatype Option<T> = None | Some(value: T)

  /** One element of the evaluator's result list, the pair (tag . body): body is
      the form's list of values when tag is `valid`, else its error payload. */
  datatype Outcome = Outcome(tag: Value, body: Value)

  datatype ErrorKind = SyntaxError | NumericalOverflow | OtherError

  datatype ErrorInfo = ErrorInfo(kind: ErrorKind, message: string, stack: string, range: Range)

  /** What eval computes: an error, or the printed result with the variables,
      their positions and the shapes. */
  datatype Report =
    | Failed(error: ErrorInfo)
    | Succeeded(text: string, vars: map<TreeId, real>, varPos: map<TreeId, Range>, shapes: seq<Value>)

  // ---------------------------------------------------------------- classify

  predicate IsValid(o: Outcome) { o.tag == ValidSym }

  predicate AllValid(result: seq<Outcome>) {
    forall i :: 0 <= i < |result| ==> IsValid(result[i])
  }

  /** The validity loop: `valid &= tag == valid` while valid. The ghost
      `inspected` counts the outcomes whose tag was read; the loop stops right
      after the first failing one. */
  method Classify(result: seq<Outcome>) returns (valid: bool, ghost inspected: nat)
    ensures valid <==> AllValid(result)
    ensures inspected <= |result|
    ensures valid ==> inspected == |result|
    ensures !valid ==> 0 < inspected && !IsValid(result[inspected - 1]) && AllValid(result[..inspected - 1])
  {
    valid := true;
    var i := 0;
    while i < |result| && valid
      invariant i <= |result|
      invariant valid <==> AllValid(result[..i])
      invariant !valid ==> 0 < i && !IsValid(result[i - 1]) && AllValid(result[..i - 1])
      decreases |result| - i
    {
      valid := valid && IsValid(result[i]);
      i := i + 1;
    }
    inspected := i;
    assert result[..|result|] == result;
  }

  /** The value of the last pair of the result list, or null for an empty list. */
  function Last(result: seq<Outcome>): Option<Value>
  {
    if result == [] then None else Some(result[|result| - 1].body)
  }

  // ------------------------------------------------------------ decode error

  /** A source position marker (row . column). */
  predicate IsMarker(v: Value) {
    v.Pair? && IsInt32(v.car) && IsInt32(v.cdr)
  }

  function Marker(row: Int32, col: Int32): Value {
    Pair(Int(row), Int(col))
  }

  /** The error arguments have what the branch for `key` reads: car for the
      function name, then cadr and cadddr for a syntax error, cadr for an
      overflow, and a format string with its argument list otherwise. */
  predicate ParamsOk(key: Value, params: Value) {
    HasNth(params, 0) && ParamsForKey(key, params)
  }

  predicate ParamsForKey(key: Value, params: Value) {
    if key == SyntaxErrorSym then HasNth(params, 3)
    else if key == NumericalOverflowSym then HasNth(params, 1)
    else HasNth(params, 2) && IsFormatCall(Nth(params, 1), Nth(params, 2))
  }

  /** A message template and an argument list that scm_simple_format accepts. */
  predicate IsFormatCall(message: Value, args: Value) {
    message.Str? && IsList(args) && FormatOk(message.s, Length(args))
  }

  /** An error payload (before after key params stack): two markers, the
      error key, its arguments and the stack trace string. */
  predicate IsErrorPayload(p: Value) {
    HasNth(p, 4) && IsMarker(Nth(p, 0)) && IsMarker(Nth(p, 1)) &&
    ParamsOk(Nth(p, 2), Nth(p, 3)) && Nth(p, 4).Str?
  }

  function KindOf(key: Value): ErrorKind {
    if key == SyntaxErrorSym then SyntaxError
    else if key == NumericalOverflowSym then NumericalOverflow
    else OtherError
  }

  /** The syntax-error template displays key, description and form. */
  lemma SyntaxTemplate(rt: Runtime, a: Value, b: Value, c: Value)
    ensures FormatOk(SyntaxErrorFmt, 3)
    ensures SimpleFormat(rt, SyntaxErrorFmt, [a, b, c]) ==
      Display(rt, a) + ": " + Display(rt, b) + " in form " + Display(rt, c)
  {
    FormatThreeDisplays(rt, ": ", " in form ", a, b, c);
  }

  /** The overflow template displays key, operation and operand. */
  lemma NumericalOverflowTemplate(rt: Runtime, a: Value, b: Value, c: Value)
    ensures FormatOk(NumericalOverflowFmt, 3)
    ensures SimpleFormat(rt, NumericalOverflowFmt, [a, b, c]) ==
      Display(rt, a) + ": " + Display(rt, b) + " in " + Display(rt, c)
  {
    FormatThreeDisplays(rt, ": ", " in ", a, b, c);
  }

  /** The template for other keys displays the key and the formatted message. */
  lemma OtherErrorTemplate(rt: Runtime, a: Value, b: Value)
    ensures FormatOk(OtherErrorFmt, 2)
    ensures SimpleFormat(rt, OtherErrorFmt, [a, b]) == Display(rt, a) + ": " + Display(rt, b)
  {
    FormatTwoDisplays(rt, ": ", a, b);
  }

  /** The wrapping template puts the function name before the message. */
  lemma InFunctionTemplate(rt: Runtime, a: Value, b: Value)
    ensures FormatOk(InFunctionFmt, 2)
    ensures SimpleFormat(rt, InFunctionFmt, [a, b]) ==
      "In function " + Display(rt, a) + ":\n" + Display(rt, b)
  {
    FormatTwoDisplays(rt, ":\n", a, b);
    FormatLiteral(rt, "In function ", "~A" + (":\n" + "~A"), [a, b]);
  }

  /** The result template writes its argument. */
  lemma ResultTemplate(rt: Runtime, a: Value)
    ensures FormatOk(ResultFmt, 1)
    ensures SimpleFormat(rt, ResultFmt, [a]) == Write(rt, a)
  {
    FormatWriteOnly(rt, a);
  }

  /** The message for the error key, before any function-name wrapping. */
  function BaseMessage(rt: Runtime, key: Value, params: Value): (m: string)
    requires ParamsOk(key, params)
    ensures key == SyntaxErrorSym ==>
      HasNth(params, 3) &&
      m == Display(rt, key) + ": " + Display(rt, Nth(params, 1)) + " in form " + Display(rt, Nth(params, 3))
    ensures key == NumericalOverflowSym ==>
      HasNth(params, 1) &&
      m == Display(rt, key) + ": " + Display(rt, Nth(params, 1)) + " in " + Display(rt, Nth(params, 0))
    ensures key != SyntaxErrorSym && key != NumericalOverflowSym ==>
      HasNth(params, 2) && IsFormatCall(Nth(params, 1), Nth(params, 2)) &&
      m == Display(rt, key) + ": " + SimpleFormat(rt, Nth(params, 1).s, Elems(Nth(params, 2)))
  {
    if key == SyntaxErrorSym then
      SyntaxTemplate(rt, key, Nth(params, 1), Nth(params, 3));
      SimpleFormat(rt, SyntaxErrorFmt, [key, Nth(params, 1), Nth(params, 3)])
    else if key == NumericalOverflowSym then
      NumericalOverflowTemplate(rt, key, Nth(params, 1), Nth(params, 0));
      SimpleFormat(rt, NumericalOverflowFmt, [key, Nth(params, 1), Nth(params, 0)])
    else
      var inner := SimpleFormat(rt, Nth(params, 1).s, Elems(Nth(params, 2)));
      OtherErrorTemplate(rt, key, Str(inner));
      SimpleFormat(rt, OtherErrorFmt, [key, Str(inner)])
  }

  /** The message, wrapped with the enclosing function's name when car of the
      arguments is not #f. */
  function Message(rt: Runtime, key: Value, params: Value): (m: string)
    requires ParamsOk(key, params)
    ensures Nth(params, 0) == Bool(false) ==> m == BaseMessage(rt, key, params)
    ensures Nth(params, 0) != Bool(false) ==>
      m == "In function " + Display(rt, Nth(params, 0)) + ":\n" + BaseMessage(rt, key, params)
  {
    var base := BaseMessage(rt, key, params);
    if Nth(params, 0) == Bool(false) then base
    else
      InFunctionTemplate(rt, Nth(params, 0), Str(base));
      SimpleFormat(rt, InFunctionFmt, [Nth(params, 0), Str(base)])
  }

  /** The error branch: message by key, stack trace, and the range whose rows
      come from car and whose columns come from cdr of the two markers. */
  function DecodeError(rt: Runtime, last: Value): (e: ErrorInfo)
    requires IsErrorPayload(last)
    ensures e.kind == SyntaxError <==> Nth(last, 2) == SyntaxErrorSym
    ensures e.kind == NumericalOverflow <==> Nth(last, 2) == NumericalOverflowSym
    ensures e.kind == OtherError <==> Nth(last, 2) != SyntaxErrorSym && Nth(last, 2) != NumericalOverflowSym
    ensures e.message == Message(rt, Nth(last, 2), Nth(last, 3))
  {
    var before, after, key, params := Nth(last, 0), Nth(last, 1), Nth(last, 2), Nth(last, 3);
    ErrorInfo(KindOf(key), Message(rt, key, params), Nth(last, 4).s,
              Range(before.car.i, after.car.i, before.cdr.i, after.cdr.i))
  }

  /** Decoding a payload built the way the evaluator lays it out gives back
      its parts: the stack verbatim, rows from the two markers' rows and
      columns from their columns. */
  lemma DecodePayload(rt: Runtime, r0: Int32, c0: Int32, r1: Int32, c1: Int32,
                      key: Value, params: Value, stack: string)
    requires ParamsOk(key, params)
    ensures IsErrorPayload(List([Marker(r0, c0), Marker(r1, c1), key, params, Str(stack)]))
    ensures DecodeError(rt, List([Marker(r0, c0), Marker(r1, c1), key, params, Str(stack)])) ==
      ErrorInfo(KindOf(key), Message(rt, key, params), stack, Range(r0, r1, c0, c1))
  {
    var s := [Marker(r0, c0), Marker(r1, c1), key, params, Str(stack)];
    NthOfList(s, 0);
    NthOfList(s, 1);
    NthOfList(s, 2);
    NthOfList(s, 3);
    NthOfList(s, 4);
  }

  // ------------------------------------------------------------- result text

  /** The printed result: "#<eof>" for an empty list, the sole value written
      with ~S, or "(values" + the written list + ")". */
  function ResultText(rt: Runtime, last: Option<Value>): (text: string)
    requires last.Some? ==> IsList(last.value)
    ensures last.None? ==> text == "#<eof>"
    ensures last.Some? && Length(last.value) == 1 ==> last.value.Pair? && text == Write(rt, last.value.car)
    ensures last.Some? && Length(last.value) != 1 ==> text == "(values" + Write(rt, last.value) + ")"
  {
    match last
    case None => "#<eof>"
    case Some(vs) =>
      if Length(vs) == 1 then
        ResultTemplate(rt, vs.car);
        SimpleFormat(rt, ResultFmt, [vs.car])
      else
        ResultTemplate(rt, vs);
        "(values" + SimpleFormat(rt, ResultFmt, [vs]) + ")"
  }

  /** No values: the written empty list follows "(values" directly. */
  lemma ResultTextNoValues(rt: Runtime)
    ensures ResultText(rt, Some(Nil)) == "(values())"
  {
  }

  /** Two values: the written list follows "(values" without a space. */
  lemma ResultTextTwoValues(rt: Runtime, a: Value, b: Value)
    ensures IsList(List([a, b]))
    ensures ResultText(rt, Some(List([a, b]))) ==
      "(values(" + Write(rt, a) + " " + Write(rt, b) + "))"
  {
    ListRoundTrip([a, b]);
    assert [a, b][1..] == [b] && [b][1..] == [];
    assert List([b]) == Pair(b, Nil);
    var vs := Pair(a, Pair(b, Nil));
    assert List([a, b]) == vs;
    assert PrintTail(rt, Pair(b, Nil), true) == " " + Write(rt, b);
    assert Write(rt, vs) == "(" + Write(rt, a) + " " + Write(rt, b) + ")";
  }

  // --------------------------------------------------------------- variables

  /** A registry value (k . (tree value (row start-col end-col) ...)). */
  predicate IsVarEntry(e: Value) {
    e.Pair? && HasNth(e.cdr, 2) && HasNth(Nth(e.cdr, 2), 2) &&
    IsInt32(Nth(Nth(e.cdr, 2), 0)) && IsInt32(Nth(Nth(e.cdr, 2), 1)) && IsInt32(Nth(Nth(e.cdr, 2), 2))
  }

  predicate AllVarEntries(registry: seq<Value>) {
    forall i :: 0 <= i < |registry| ==> IsVarEntry(registry[i])
  }

  function EntryId(rt: Runtime, e: Value): TreeId
    requires IsVarEntry(e)
  {
    rt.treeId(Nth(e.cdr, 0))
  }

  function EntryNumber(rt: Runtime, e: Value): real
    requires IsVarEntry(e)
  {
    rt.toNumber(Nth(e.cdr, 1))
  }

  /** The variable's range: its row, end row 0, and its two columns. */
  function EntryRange(e: Value): Range
    requires IsVarEntry(e)
  {
    var vp := Nth(e.cdr, 2);
    Range(Nth(vp, 0).i, 0, Nth(vp, 1).i, Nth(vp, 2).i)
  }

  /** vars after storing every registry entry in turn. */
  function Values(rt: Runtime, registry: seq<Value>): map<TreeId, real>
    requires AllVarEntries(registry)
    decreases |registry|
  {
    if registry == [] then map[]
    else
      var e := registry[|registry| - 1];
      Values(rt, registry[..|registry| - 1])[EntryId(rt, e) := EntryNumber(rt, e)]
  }

  /** var_pos after storing every registry entry in turn. */
  function Positions(rt: Runtime, registry: seq<Value>): map<TreeId, Range>
    requires AllVarEntries(registry)
    decreases |registry|
  {
    if registry == [] then map[]
    else
      var e := registry[|registry| - 1];
      Positions(rt, registry[..|registry| - 1])[EntryId(rt, e) := EntryRange(e)]
  }

  /** The walk over the registry list, storing into both maps. */
  method CollectVariables(rt: Runtime, registry: seq<Value>)
    returns (vars: map<TreeId, real>, varPos: map<TreeId, Range>)
    requires AllVarEntries(registry)
    ensures vars == Values(rt, registry) && varPos == Positions(rt, registry)
  {
    vars, varPos := map[], map[];
    for i := 0 to |registry|
      invariant vars == Values(rt, registry[..i])
      invariant varPos == Positions(rt, registry[..i])
    {
      var e := registry[i];
      var id := EntryId(rt, e);
      vars := vars[id := EntryNumber(rt, e)];
      varPos := varPos[id := EntryRange(e)];
      assert registry[..i + 1][..i] == registry[..i];
    }
    assert registry[..|registry|] == registry;
  }

  /** Both maps hold exactly the ids of the registry's entries. */
  lemma {:induction false} VariableKeys(rt: Runtime, registry: seq<Value>, id: TreeId)
    requires AllVarEntries(registry)
    ensures id in Values(rt, registry) <==> exists i :: 0 <= i < |registry| && EntryId(rt, registry[i]) == id
    ensures id in Positions(rt, registry) <==> id in Values(rt, registry)
    decreases |registry|
  {
    if registry != [] {
      var n := |registry| - 1;
      var init := registry[..n];
      VariableKeys(rt, init, id);
      if id in Values(rt, registry) && id != EntryId(rt, registry[n]) {
        var i :| 0 <= i < |init| && EntryId(rt, init[i]) == id;
        assert registry[i] == init[i];
      }
      if (exists i :: 0 <= i < |registry| && EntryId(rt, registry[i]) == id) && id != EntryId(rt, registry[n]) {
        var i :| 0 <= i < |registry| && EntryId(rt, registry[i]) == id;
        assert init[i] == registry[i];
      }
    }
  }

  /** The entry stored last for an id decides its value and its range. */
  lemma {:induction false} VariablesLastWins(rt: Runtime, registry: seq<Value>, i: nat)
    requires AllVarEntries(registry) && i < |registry|
    requires forall j :: i < j < |registry| ==> EntryId(rt, registry[j]) != EntryId(rt, registry[i])
    ensures EntryId(rt, registry[i]) in Values(rt, registry)
    ensures Values(rt, registry)[EntryId(rt, registry[i])] == EntryNumber(rt, registry[i])
    ensures EntryId(rt, registry[i]) in Positions(rt, registry)
    ensures Positions(rt, registry)[EntryId(rt, registry[i])] == EntryRange(registry[i])
    decreases |registry|
  {
    var n := |registry| - 1;
    if i < n {
      var init := registry[..n];
      assert forall j :: i < j < |init| ==> init[j] == registry[j];
      VariablesLastWins(rt, init, i);
    }
  }

  /** Storing one more entry changes only that entry's id. */
  lemma VariablesFrame(rt: Runtime, registry: seq<Value>, e: Value, id: TreeId)
    requires AllVarEntries(registry) && IsVarEntry(e) && id != EntryId(rt, e)
    ensures AllVarEntries(registry + [e])
    ensures id in Values(rt, registry + [e]) <==> id in Values(rt, registry)
    ensures id in Values(rt, registry) ==> Values(rt, registry + [e])[id] == Values(rt, registry)[id]
    ensures id in Positions(rt, registry + [e]) <==> id in Positions(rt, registry)
    ensures id in Positions(rt, registry) ==> Positions(rt, registry + [e])[id] == Positions(rt, registry)[id]
  {
    assert (registry + [e])[..|registry|] == registry;
  }

  /** Every stored range has end row 0. */
  lemma {:induction false} VariableRowsEndAtZero(rt: Runtime, registry: seq<Value>, id: TreeId)
    requires AllVarEntries(registry) && id in Positions(rt, registry)
    ensures Positions(rt, registry)[id].endRow == 0
    decreases |registry|
  {
    var n := |registry| - 1;
    if id != EntryId(rt, registry[n]) {
      VariableRowsEndAtZero(rt, registry[..n], id);
    }
  }

  // ------------------------------------------------------------------ shapes

  /** The shape values of one value list, in order. */
  function Shapes(rt: Runtime, vs: seq<Value>): seq<Value>
    decreases |vs|
  {
    if vs == [] then [] else (if rt.isShape(vs[0]) then [vs[0]] else []) + Shapes(rt, vs[1..])
  }

  predicate AllLists(result: seq<Outcome>) {
    forall i :: 0 <= i < |result| ==> IsList(result[i].body)
  }

  /** The shape values of every outcome, outcome by outcome. */
  function ShapesOf(rt: Runtime, result: seq<Outcome>): seq<Value>
    requires AllLists(result)
    decreases |result|
  {
    if result == [] then []
    else ShapesOf(rt, result[..|result| - 1]) + Shapes(rt, Elems(result[|result| - 1].body))
  }

  /** The walk over the result list, and within each outcome over its values. */
  method CollectShapes(rt: Runtime, result: seq<Outcome>) returns (shapes: seq<Value>)
    requires AllLists(result)
    ensures shapes == ShapesOf(rt, result)
  {
    shapes := [];
    var i := 0;
    while i < |result|
      invariant i <= |result|
      invariant shapes == ShapesOf(rt, result[..i])
    {
      ghost var start := shapes;
      var r := result[i].body;
      while r != Nil
        invariant IsList(r)
        invariant start + Shapes(rt, Elems(result[i].body)) == shapes + Shapes(rt, Elems(r))
        decreases r
      {
        assert Elems(r)[1..] == Elems(r.cdr);
        if rt.isShape(r.car) {
          shapes := shapes + [r.car];
        }
        r := r.cdr;
      }
      assert result[..i + 1][..i] == result[..i];
      i := i + 1;
    }
    assert result[..|result|] == result;
  }

  /** A value is among the shapes of a list iff it is in the list and is a shape. */
  lemma {:induction false} ShapesMember(rt: Runtime, vs: seq<Value>, v: Value)
    ensures v in Shapes(rt, vs) <==> v in vs && rt.isShape(v)
    decreases |vs|
  {
    if vs != [] {
      ShapesMember(rt, vs[1..], v);
      assert vs == [vs[0]] + vs[1..];
    }
  }

  /** A list without shapes contributes nothing. */
  lemma {:induction false} ShapesNone(rt: Runtime, vs: seq<Value>)
    requires forall k :: 0 <= k < |vs| ==> !rt.isShape(vs[k])
    ensures Shapes(rt, vs) == []
    decreases |vs|
  {
    if vs != [] {
      ShapesNone(rt, vs[1..]);
    }
  }

  /** The shapes of two lists of outcomes, one after the other, in list order. */
  lemma {:induction false} ShapesOfAppend(rt: Runtime, a: seq<Outcome>, b: seq<Outcome>)
    requires AllLists(a) && AllLists(b)
    ensures AllLists(a + b)
    ensures ShapesOf(rt, a + b) == ShapesOf(rt, a) + ShapesOf(rt, b)
    decreases |b|
  {
    if b != [] {
      var n := |b| - 1;
      assert (a + b)[..|a + b| - 1] == a + b[..n];
      ShapesOfAppend(rt, a, b[..n]);
    } else {
      assert a + b == a;
    }
  }

  /** A value is among the shapes iff it is a shape and some outcome holds it. */
  lemma {:induction false} ShapesOfMember(rt: Runtime, result: seq<Outcome>, v: Value)
    requires AllLists(result)
    ensures v in ShapesOf(rt, result) <==>
      rt.isShape(v) && exists i :: 0 <= i < |result| && v in Elems(result[i].body)
    decreases |result|
  {
    if result != [] {
      var n := |result| - 1;
      var init := result[..n];
      ShapesOfMember(rt, init, v);
      ShapesMember(rt, Elems(result[n].body), v);
      if rt.isShape(v) && (exists i :: 0 <= i < |result| && v in Elems(result[i].body)) {
        var i :| 0 <= i < |result| && v in Elems(result[i].body);
        if i < n {
          assert init[i] == result[i];
        }
      }
      if v in ShapesOf(rt, init) {
        var i :| 0 <= i < |init| && v in Elems(init[i].body);
        assert result[i] == init[i];
      }
    }
  }

  // -------------------------------------------------------------------- eval

  /** What eval relies on without checking: a failing list ends in an error
      payload; a valid one holds proper value lists and a well-formed registry. */
  predicate EvalReady(registry: seq<Value>, result: seq<Outcome>) {
    if AllValid(result) then AllLists(result) && AllVarEntries(registry)
    else |result| > 0 && IsErrorPayload(result[|result| - 1].body)
  }

  /** The report eval computes for a result list and the registry it left. */
  function Interpret(rt: Runtime, registry: seq<Value>, result: seq<Outcome>): Report
    requires EvalReady(registry, result)
  {
    if !AllValid(result) then Failed(DecodeError(rt, result[|result| - 1].body))
    else Succeeded(ResultText(rt, Last(result)), Values(rt, registry), Positions(rt, registry),
                   ShapesOf(rt, result))
  }

  /** Interpreter::eval, given the list the sandboxed evaluator returned and
      the registry it filled. */
  method Eval(rt: Runtime, registry: seq<Value>, result: seq<Outcome>) returns (report: Report)
    requires EvalReady(registry, result)
    ensures report == Interpret(rt, registry, result)
    ensures report.Failed? <==> exists i :: 0 <= i < |result| && !IsValid(result[i])
  {
    var valid;
    ghost var inspected;
    valid, inspected := Classify(result);
    var last := Last(result);
    if !valid {
      report := Failed(DecodeError(rt, last.value));
    } else {
      var text := ResultText(rt, last);
      var vars, varPos := CollectVariables(rt, registry);
      var shapes := CollectShapes(rt, result);
      report := Succeeded(text, vars, varPos, shapes);
    }
  }

  /** An empty result list: "#<eof>", no shapes, and the registry's variables. */
  lemma InterpretEmpty(rt: Runtime, registry: seq<Value>)
    requires AllVarEntries(registry)
    ensures EvalReady(registry, [])
    ensures Interpret(rt, registry, []) ==
      Succeeded("#<eof>", Values(rt, registry), Positions(rt, registry), [])
    ensures registry == [] ==> Interpret(rt, registry, []) == Succeeded("#<eof>", map[], map[], [])
  {
  }

  /** The report is taken from the last outcome: outcomes before it change
      neither the error nor the printed result, only whether there is one. */
  lemma ReportFromLast(rt: Runtime, registry: seq<Value>, p: seq<Outcome>, q: seq<Outcome>, o: Outcome)
    requires EvalReady(registry, p + [o]) && EvalReady(registry, q + [o])
    requires AllValid(p) == AllValid(q)
    ensures Interpret(rt, registry, p + [o]).Failed? == Interpret(rt, registry, q + [o]).Failed?
    ensures Interpret(rt, registry, p + [o]).Failed? ==>
      Interpret(rt, registry, p + [o]) == Interpret(rt, registry, q + [o]) ==
      Failed(DecodeError(rt, o.body))
    ensures Interpret(rt, registry, p + [o]).Succeeded? ==>
      Interpret(rt, registry, p + [o]).text == Interpret(rt, registry, q + [o]).text
  {
    assert forall i :: 0 <= i < |p| ==> (p + [o])[i] == p[i];
    assert forall i :: 0 <= i < |q| ==> (q + [o])[i] == q[i];
    assert (p + [o])[|p|] == o && (q + [o])[|q|] == o;
    assert AllValid(p + [o]) <==> AllValid(p) && IsValid(o);
    assert AllValid(q + [o]) <==> AllValid(q) && IsValid(o);
  }

  /** In a successful report every shape is a shape value held by some outcome,
      and every variable's range ends at row 0. */
  lemma SucceededShapes(rt: Runtime, registry: seq<Value>, result: seq<Outcome>, k: nat)
    requires EvalReady(registry, result) && Interpret(rt, registry, result).Succeeded?
    requires k < |Interpret(rt, registry, result).shapes|
    ensures rt.isShape(Interpret(rt, registry, result).shapes[k])
    ensures exists i :: 0 <= i < |result| && Interpret(rt, registry, result).shapes[k] in Elems(result[i].body)
  {
    ShapesOfMember(rt, result, ShapesOf(rt, result)[k]);
  }
}
