/**
 * The comparison the store applies for `ORDER BY`: NULL sorts before every other value,
 * numbers compare numerically and strings by character code. Dates and times travel as
 * strings in ISO form (`2025-01-10`, `09:30`), for which this order is chronological.
 */
module SqlOrder {
  import opened Js

  /** Lexicographic comparison of strings: negative, zero or positive. */
  function StrCmp(a: string, b: string): int
  {
    if a == [] && b == [] then 0
    else if a == [] then -1
    else if b == [] then 1
    else if a[0] < b[0] then -1
    else if a[0] > b[0] then 1
    else StrCmp(a[1..], b[1..])
  }

  function Rank(v: Value): nat
  {
    match v
    case Undefined => 0
    case Null => 0
    case Bool(_) => 1
    case Num(_) => 2
    case Str(_) => 3
    case Obj(_) => 4
  }

  function IntCmp(a: int, b: int): int
  {
    if a < b then -1 else if a > b then 1 else 0
  }

  /** Three-way comparison of two cells of one column. */
  function Cmp(a: Value, b: Value): int
  {
    if Rank(a) != Rank(b) then IntCmp(Rank(a), Rank(b))
    else match (a, b)
      case (Bool(x), Bool(y)) => IntCmp(if x then 1 else 0, if y then 1 else 0)
      case (Num(x), Num(y)) => IntCmp(x, y)
      case (Str(x), Str(y)) => StrCmp(x, y)
      case _ => 0
  }

  lemma {:induction false} StrCmpAntisymmetric(a: string, b: string)
    ensures StrCmp(a, b) == -StrCmp(b, a)
    ensures -1 <= StrCmp(a, b) <= 1
  {
    if a != [] && b != [] && a[0] == b[0] {
      StrCmpAntisymmetric(a[1..], b[1..]);
    }
  }

  lemma {:induction false} StrCmpZero(a: string, b: string)
    requires StrCmp(a, b) == 0
    ensures a == b
  {
    if a != [] && b != [] {
      StrCmpZero(a[1..], b[1..]);
      assert a == [a[0]] + a[1..] && b == [b[0]] + b[1..];
    }
  }

  lemma {:induction false} StrCmpTransitive(a: string, b: string, c: string)
    requires StrCmp(a, b) <= 0 && StrCmp(b, c) <= 0
    ensures StrCmp(a, c) <= 0
  {
    if a != [] && b != [] && c != [] && a[0] == b[0] && b[0] == c[0] {
      StrCmpTransitive(a[1..], b[1..], c[1..]);
    }
  }

  /** The column comparison is antisymmetric, so swapping the operands flips the sign. */
  lemma CmpAntisymmetric(a: Value, b: Value)
    ensures Cmp(a, b) == -Cmp(b, a)
    ensures -1 <= Cmp(a, b) <= 1
  {
    if a.Str? && b.Str? {
      StrCmpAntisymmetric(a.s, b.s);
    }
  }

  /** The column comparison is transitive, so it is a total preorder on cells. */
  lemma CmpTransitive(a: Value, b: Value, c: Value)
    requires Cmp(a, b) <= 0 && Cmp(b, c) <= 0
    ensures Cmp(a, c) <= 0
  {
    if a.Str? && b.Str? && c.Str? {
      StrCmpTransitive(a.s, b.s, c.s);
    }
  }

  /** Equality under the comparison: a strict step on either side stays strict. */
  lemma CmpStrict(a: Value, b: Value, c: Value)
    requires Cmp(a, b) <= 0 && Cmp(b, c) <= 0
    requires Cmp(a, b) < 0 || Cmp(b, c) < 0
    ensures Cmp(a, c) < 0
  {
    CmpTransitive(a, b, c);
    if Cmp(a, c) == 0 {
      CmpAntisymmetric(a, c);
      CmpAntisymmetric(a, b);
      CmpAntisymmetric(b, c);
      if Cmp(a, b) < 0 {
        CmpTransitive(b, c, a);
      } else {
        CmpTransitive(c, a, b);
      }
    }
  }

  /** Two-column sort key `ORDER BY k1, k2`: `Cmp` on the first column, ties broken by the second. */
  predicate KeyLe(a1: Value, a2: Value, b1: Value, b2: Value)
  {
    Cmp(a1, b1) < 0 || (Cmp(a1, b1) == 0 && Cmp(a2, b2) <= 0)
  }

  lemma KeyLeTotal(a1: Value, a2: Value, b1: Value, b2: Value)
    ensures KeyLe(a1, a2, b1, b2) || KeyLe(b1, b2, a1, a2)
  {
    CmpAntisymmetric(a1, b1);
    CmpAntisymmetric(a2, b2);
  }

  lemma KeyLeTransitive(a1: Value, a2: Value, b1: Value, b2: Value, c1: Value, c2: Value)
    requires KeyLe(a1, a2, b1, b2) && KeyLe(b1, b2, c1, c2)
    ensures KeyLe(a1, a2, c1, c2)
  {
    if Cmp(a1, b1) < 0 || Cmp(b1, c1) < 0 {
      CmpStrict(a1, b1, c1);
    } else {
      CmpTransitive(a1, b1, c1);
      CmpTransitive(a2, b2, c2);
      CmpAntisymmetric(a1, b1);
      CmpAntisymmetric(b1, c1);
      CmpTransitive(c1, b1, a1);
      CmpAntisymmetric(a1, c1);
    }
  }
}
