/**
 * The field values of a stored document, how JavaScript judges them truthy
 * and turns them into strings, and the order in which the document store
 * sorts them.
 */
module Json {
  import JsNumber

  /** A scalar field value (numbers are integers; objects and arrays are not modelled). */
  datatype Value = Null | Bool(b: bool) | Num(n: int) | Str(s: string)

  /** JavaScript falsiness: `!v` holds for null, false, 0 and the empty string. */
  predicate Falsy(v: Value)
  {
    v == Null || v == Bool(false) || v == Num(0) || v == Str("")
  }

  /** `String(v)`. */
  function ToJsString(v: Value): string
  {
    match v
    case Null => "null"
    case Bool(b) => if b then "true" else "false"
    case Num(n) => JsNumber.IntToString(n)
    case Str(s) => s
  }

  // ---------------------------------------------------------------------------
  // Sort order of the document store: values of different types are ordered
  // by type (null, then numbers, then strings, then booleans); values of one
  // type by their own order, strings by code point.

  function TypeRank(v: Value): nat
  {
    match v
    case Null => 0
    case Num(_) => 1
    case Str(_) => 2
    case Bool(_) => 3
  }

  /** a comes before b in code-point lexicographic order. */
  predicate StrBelow(a: string, b: string)
  {
    b != [] && (a == [] || a[0] < b[0] || (a[0] == b[0] && StrBelow(a[1..], b[1..])))
  }

  /** a sorts strictly before b. */
  predicate Below(a: Value, b: Value)
  {
    if TypeRank(a) != TypeRank(b) then TypeRank(a) < TypeRank(b)
    else match (a, b)
      case (Num(x), Num(y)) => x < y
      case (Str(x), Str(y)) => StrBelow(x, y)
      case (Bool(x), Bool(y)) => !x && y
      case _ => false
  }

  lemma {:induction false} StrBelowIrreflexive(a: string)
    ensures !StrBelow(a, a)
  {
    if a != [] {
      StrBelowIrreflexive(a[1..]);
    }
  }

  lemma {:induction false} StrBelowTransitive(a: string, b: string, c: string)
    requires StrBelow(a, b) && StrBelow(b, c)
    ensures StrBelow(a, c)
  {
    if a != [] && a[0] == b[0] && b[0] == c[0] {
      StrBelowTransitive(a[1..], b[1..], c[1..]);
    }
  }

  lemma {:induction false} StrBelowTotal(a: string, b: string)
    requires a != b
    ensures StrBelow(a, b) || StrBelow(b, a)
  {
    if a != [] && b != [] && a[0] == b[0] {
      assert a == [a[0]] + a[1..] && b == [b[0]] + b[1..];
      StrBelowTotal(a[1..], b[1..]);
    }
  }

  /** The sort order is a strict total order on values. */
  lemma BelowIrreflexive(a: Value)
    ensures !Below(a, a)
  {
    if a.Str? {
      StrBelowIrreflexive(a.s);
    }
  }

  lemma BelowTransitive(a: Value, b: Value, c: Value)
    requires Below(a, b) && Below(b, c)
    ensures Below(a, c)
  {
    if a.Str? && b.Str? && c.Str? {
      StrBelowTransitive(a.s, b.s, c.s);
    }
  }

  lemma BelowTotal(a: Value, b: Value)
    requires a != b
    ensures Below(a, b) || Below(b, a)
  {
    if a.Str? && b.Str? {
      StrBelowTotal(a.s, b.s);
    }
  }
}
