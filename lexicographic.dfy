/** Lexicographic comparison of strings: the order of C's `strcmp` and of
    `std::string::compare` (which orders `std::set<std::string>`).  Both
    compare character by character and a proper prefix sorts first; only
    the sign of the result matters to the callers, so it is -1, 0 or 1. */
module Lexicographic {

  /** The sign of `strcmp(a, b)`. */
  function Compare(a: string, b: string): (c: int)
    ensures -1 <= c <= 1
    ensures c == 0 <==> a == b
    decreases |a|
  {
    if a == [] && b == [] then 0
    else if a == [] then -1
    else if b == [] then 1
    else if a[0] < b[0] then -1
    else if a[0] > b[0] then 1
    else
      var c := Compare(a[1..], b[1..]);
      assert c == 0 ==> a == [a[0]] + a[1..] == [b[0]] + b[1..] == b;
      c
  }

  /** `a` sorts no later than `b`. */
  predicate LessEq(a: string, b: string) {
    Compare(a, b) <= 0
  }

  /** Swapping the operands negates the comparison. */
  lemma {:induction false} CompareAntisymmetric(a: string, b: string)
    ensures Compare(b, a) == -Compare(a, b)
    decreases |a|
  {
    if a != [] && b != [] && a[0] == b[0] {
      CompareAntisymmetric(a[1..], b[1..]);
    }
  }

  /** Any two strings are ordered one way or the other. */
  lemma CompareTotal(a: string, b: string)
    ensures LessEq(a, b) || LessEq(b, a)
    ensures !LessEq(a, b) ==> Compare(b, a) < 0
  {
    CompareAntisymmetric(a, b);
  }

  /** The order is transitive, strictly as well as non-strictly. */
  lemma {:induction false} CompareTransitive(a: string, b: string, c: string)
    ensures Compare(a, b) <= 0 && Compare(b, c) <= 0 ==> Compare(a, c) <= 0
    ensures Compare(a, b) < 0 && Compare(b, c) <= 0 ==> Compare(a, c) < 0
    ensures Compare(a, b) <= 0 && Compare(b, c) < 0 ==> Compare(a, c) < 0
    decreases |a|
  {
    if a != [] && b != [] && c != [] && a[0] == b[0] == c[0] {
      CompareTransitive(a[1..], b[1..], c[1..]);
    }
  }
}
