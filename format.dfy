/**
 * Guile's printer and scm_simple_format, reduced to what the interpreter's
 * templates and the evaluator's own error messages use: the directives
 * ~A (display), ~S (write), ~% (newline) and ~~ (a tilde).
 */
module Format {
  import opened Scm

  /** Decimal digits of a natural number. */
  function NatText(n: nat): string
  {
    if n < 10 then [Digit(n)] else NatText(n / 10) + [Digit(n % 10)]
  }

  function Digit(d: nat): char
    requires d < 10
  {
    "0123456789"[d]
  }

  function IntText(i: int): string
  {
    if i < 0 then "-" + NatText(-i) else NatText(i)
  }

  /** A string as `write` prints it: quoted, with `"` and `\` escaped. */
  function Quoted(s: string): string
  {
    "\"" + Escaped(s) + "\""
  }

  function Escaped(s: string): string
  {
    if s == [] then []
    else (if s[0] == '"' || s[0] == '\\' then ['\\', s[0]] else [s[0]]) + Escaped(s[1..])
  }

  /** The printed form of a value: `write` (for ~S) when quote holds, else
      `display` (for ~A). The two differ only on strings. */
  function Print(rt: Runtime, v: Value, quote: bool): string
    decreases v, 0
  {
    match v
    case Nil => "()"
    case Pair(a, d) => "(" + Print(rt, a, quote) + PrintTail(rt, d, quote) + ")"
    case Bool(b) => if b then "#t" else "#f"
    case Int(i) => IntText(i)
    case Sym(n) => n
    case Str(s) => if quote then Quoted(s) else s
    case Obj(h) => rt.repr(h)
  }

  /** The rest of a list after its first element: " x" per further element,
      " . x" for an improper tail. */
  function PrintTail(rt: Runtime, v: Value, quote: bool): string
    decreases v, 1
  {
    match v
    case Nil => ""
    case Pair(a, d) => " " + Print(rt, a, quote) + PrintTail(rt, d, quote)
    case _ => " . " + Print(rt, v, quote)
  }

  function Display(rt: Runtime, v: Value): string { Print(rt, v, false) }

  function Write(rt: Runtime, v: Value): string { Print(rt, v, true) }

  predicate IsValueDirective(c: char) { c == 'A' || c == 'a' || c == 'S' || c == 's' }

  /** fmt uses only the supported directives and consumes exactly n arguments;
      on any other template scm_simple_format raises an error. */
  predicate FormatOk(fmt: string, n: nat)
    decreases |fmt|
  {
    if fmt == [] then n == 0
    else if fmt[0] != '~' then FormatOk(fmt[1..], n)
    else if |fmt| < 2 then false
    else if IsValueDirective(fmt[1]) then n > 0 && FormatOk(fmt[2..], n - 1)
    else (fmt[1] == '%' || fmt[1] == '~') && FormatOk(fmt[2..], n)
  }

  /** scm_simple_format(#f, fmt, args). */
  function SimpleFormat(rt: Runtime, fmt: string, args: seq<Value>): string
    requires FormatOk(fmt, |args|)
    decreases |fmt|
  {
    if fmt == [] then []
    else if fmt[0] != '~' then [fmt[0]] + SimpleFormat(rt, fmt[1..], args)
    else if fmt[1] == 'A' || fmt[1] == 'a' then Display(rt, args[0]) + SimpleFormat(rt, fmt[2..], args[1..])
    else if fmt[1] == 'S' || fmt[1] == 's' then Write(rt, args[0]) + SimpleFormat(rt, fmt[2..], args[1..])
    else if fmt[1] == '%' then "\n" + SimpleFormat(rt, fmt[2..], args)
    else "~" + SimpleFormat(rt, fmt[2..], args)
  }

  predicate NoTilde(s: string) { forall i :: 0 <= i < |s| ==> s[i] != '~' }

  /** Text without directives is copied unchanged and consumes no argument. */
  lemma {:induction false} FormatLiteral(rt: Runtime, lit: string, rest: string, args: seq<Value>)
    requires NoTilde(lit)
    ensures FormatOk(lit + rest, |args|) <==> FormatOk(rest, |args|)
    ensures FormatOk(rest, |args|) ==>
      SimpleFormat(rt, lit + rest, args) == lit + SimpleFormat(rt, rest, args)
    decreases |lit|
  {
    if lit != [] {
      assert (lit + rest)[1..] == lit[1..] + rest;
      FormatLiteral(rt, lit[1..], rest, args);
    } else {
      assert lit + rest == rest;
    }
  }

  /** A template that is a single ~A displays its one argument. */
  lemma FormatDisplayOnly(rt: Runtime, a: Value)
    ensures FormatOk("~A", 1)
    ensures SimpleFormat(rt, "~A", [a]) == Display(rt, a)
  {
    assert "~A"[2..] == [];
  }

  /** A template that is a single ~S writes its one argument. */
  lemma FormatWriteOnly(rt: Runtime, a: Value)
    ensures FormatOk("~S", 1)
    ensures SimpleFormat(rt, "~S", [a]) == Write(rt, a)
  {
    assert "~S"[2..] == [];
  }

  /** A leading ~A displays the first argument; the text after it up to the
      next directive is copied, and the rest of the template formats the rest
      of the arguments. */
  lemma FormatDisplayThen(rt: Runtime, lit: string, rest: string, a: Value, args: seq<Value>)
    requires NoTilde(lit) && FormatOk(rest, |args|)
    ensures FormatOk("~A" + (lit + rest), |[a] + args|)
    ensures SimpleFormat(rt, "~A" + (lit + rest), [a] + args) ==
      Display(rt, a) + (lit + SimpleFormat(rt, rest, args))
  {
    FormatLiteral(rt, lit, rest, args);
    assert ("~A" + (lit + rest))[2..] == lit + rest;
    assert ([a] + args)[1..] == args;
  }

  /** Two ~A directives with literal text between: both arguments displayed. */
  lemma FormatTwoDisplays(rt: Runtime, l1: string, a: Value, b: Value)
    requires NoTilde(l1)
    ensures FormatOk("~A" + (l1 + "~A"), 2)
    ensures SimpleFormat(rt, "~A" + (l1 + "~A"), [a, b]) == Display(rt, a) + l1 + Display(rt, b)
  {
    FormatDisplayOnly(rt, b);
    FormatDisplayThen(rt, l1, "~A", a, [b]);
    assert [a, b] == [a] + [b];
  }

  /** Three ~A directives with literal text between: all three displayed. */
  lemma FormatThreeDisplays(rt: Runtime, l1: string, l2: string, a: Value, b: Value, c: Value)
    requires NoTilde(l1) && NoTilde(l2)
    ensures FormatOk("~A" + (l1 + ("~A" + (l2 + "~A"))), 3)
    ensures SimpleFormat(rt, "~A" + (l1 + ("~A" + (l2 + "~A"))), [a, b, c]) ==
      Display(rt, a) + l1 + Display(rt, b) + l2 + Display(rt, c)
  {
    FormatTwoDisplays(rt, l2, b, c);
    FormatDisplayThen(rt, l1, "~A" + (l2 + "~A"), a, [b, c]);
    assert [a, b, c] == [a] + [b, c];
  }
}
