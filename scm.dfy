/**
 * The evaluator's dynamically typed values, as they cross into the interpreter:
 * a closed datatype in place of Guile's SCM, with the list access the
 * interpreter uses (car/cdr chains, length) and the foreign capabilities it
 * calls (shape test, tree id, number conversion, printed form of opaque
 * objects) gathered in a Runtime record.
 */
module Scm {

  /** A Scheme value. Flonums, shapes, procedures and every other object the
      interpreter only hands back to the runtime are Obj, identified by a handle. */
  datatype Value =
    | Nil                          // '()
    | Pair(car: Value, cdr: Value)
    | Bool(b: bool)                // #t / #f
    | Int(i: int)                  // exact integer
    | Sym(name: string)            // interned symbol: eq? is equality of names
    | Str(s: string)
    | Obj(handle: nat)

  /** libfive::Tree::Id, an opaque handle. */
  type TreeId = nat

  /** The foreign calls the interpreter makes, kept uninterpreted. */
  datatype Runtime = Runtime(
    isShape: Value -> bool,      // scm_is_shape
    treeId: Value -> TreeId,     // libfive_tree_id(scm_get_tree(v))
    toNumber: Value -> real,     // scm_to_double, stored into a float map
    repr: nat -> string)         // Guile's printed form of an opaque object

  /** C++ int, the target of scm_to_int. */
  type Int32 = x: int | -0x8000_0000 <= x < 0x8000_0000

  /** The value scm_to_int accepts without raising an error. */
  predicate IsInt32(v: Value) {
    v.Int? && -0x8000_0000 <= v.i < 0x8000_0000
  }

  /** A proper list: a chain of pairs ending in '(). */
  predicate IsList(v: Value) {
    match v
    case Nil => true
    case Pair(_, d) => IsList(d)
    case _ => false
  }

  /** The elements of a proper list. */
  function Elems(v: Value): (s: seq<Value>)
    requires IsList(v)
  {
    if v.Nil? then [] else [v.car] + Elems(v.cdr)
  }

  /** The proper list holding the given elements (scm_list_n). */
  function List(s: seq<Value>): (v: Value)
  {
    if s == [] then Nil else Pair(s[0], List(s[1..]))
  }

  /** scm_length of a proper list. */
  function Length(v: Value): (n: nat)
    requires IsList(v)
  {
    |Elems(v)|
  }

  /** The number of pairs along v's cdr chain. */
  function Pairs(v: Value): nat {
    if v.Pair? then 1 + Pairs(v.cdr) else 0
  }

  /** True when car of the k-th cdr exists, so that Nth(v, k) is defined:
      car, cadr, caddr and cadddr on a value that has at least k+1 pairs. */
  predicate HasNth(v: Value, k: nat) {
    k < Pairs(v)
  }

  /** car of the k-th cdr: Nth(v, 0) is car, Nth(v, 1) cadr, Nth(v, 3) cadddr. */
  function Nth(v: Value, k: nat): Value
    requires HasNth(v, k)
  {
    if k == 0 then v.car else Nth(v.cdr, k - 1)
  }

  lemma {:induction false} ListRoundTrip(s: seq<Value>)
    ensures IsList(List(s)) && Elems(List(s)) == s
    decreases |s|
  {
    if s != [] {
      ListRoundTrip(s[1..]);
    }
  }

  lemma {:induction false} ElemsRoundTrip(v: Value)
    requires IsList(v)
    ensures List(Elems(v)) == v
  {
    if v.Pair? {
      ElemsRoundTrip(v.cdr);
      assert Elems(v)[1..] == Elems(v.cdr);
    }
  }

  /** On a proper list, Nth agrees with indexing the element sequence. */
  lemma {:induction false} NthOfList(s: seq<Value>, k: nat)
    requires k < |s|
    ensures HasNth(List(s), k) && Nth(List(s), k) == s[k]
    decreases k
  {
    if k > 0 {
      NthOfList(s[1..], k - 1);
    }
  }
}
