/**
 * The few Python built-ins whose semantics the game code relies on:
 * `dict.get(k, 0)`, the `%` operator, slice bounds, `list.count` and
 * "no duplicates".
 */
module PyOps {

  /** `d.get(k, 0)` on a dict of integers. */
  function GetOrZero<K>(m: map<K, int>, k: K): int {
    if k in m then m[k] else 0
  }

  /**
   * Python's `a % b`: the remainder takes the sign of the divisor.
   * Dafny's `%` is Euclidean, so the two differ when `b < 0`.
   */
  function Mod(a: int, b: int): (r: int)
    requires b != 0
    ensures b > 0 ==> 0 <= r < b
    ensures b < 0 ==> b < r <= 0
    ensures b > 0 ==> r == a % b
    ensures r == 0 <==> a % b == 0
  {
    var e := a % b;
    if b > 0 || e == 0 then e else e + b
  }

  /**
   * The position a Python slice bound `i` denotes in a sequence of length
   * `len`: negative bounds count from the end, and both ends are clamped.
   */
  function SliceIndex(len: nat, i: int): (r: nat)
    ensures r <= len
    ensures 0 <= i <= len ==> r == i
    ensures i > len ==> r == len
    ensures -(len as int) <= i < 0 ==> r == len + i
    ensures i < -(len as int) ==> r == 0
  {
    if i < 0 then (if len + i < 0 then 0 else len + i)
    else if i > len then len
    else i
  }

  /** `s.count(x)`. */
  function Count<T(==)>(s: seq<T>, x: T): nat
  {
    if s == [] then 0
    else Count(s[..|s| - 1], x) + (if s[|s| - 1] == x then 1 else 0)
  }

  lemma {:induction false} CountZero<T>(s: seq<T>, x: T)
    ensures Count(s, x) == 0 <==> x !in s
  {
    if s != [] {
      CountZero(s[..|s| - 1], x);
      assert s == s[..|s| - 1] + [s[|s| - 1]];
    }
  }

  lemma {:induction false} CountAppend<T>(s: seq<T>, t: seq<T>, x: T)
    ensures Count(s + t, x) == Count(s, x) + Count(t, x)
    decreases |t|
  {
    if t != [] {
      var t' := t[..|t| - 1];
      assert (s + t)[..|s + t| - 1] == s + t';
      CountAppend(s, t', x);
    } else {
      assert s + t == s;
    }
  }

  /**
   * The position of the first occurrence of `x`, or `|s|` when there is none
   * (`list.index`, which raises instead).
   */
  function IndexOf<T(==)>(s: seq<T>, x: T): (i: nat)
    ensures i <= |s|
    ensures i < |s| ==> s[i] == x
    ensures x !in s[..i]
  {
    if s == [] then 0
    else if s[0] == x then 0
    else
      var j := IndexOf(s[1..], x);
      assert s[..j + 1] == [s[0]] + s[1..][..j];
      1 + j
  }

  /** No element occurs twice. */
  predicate NoDup<T(==)>(s: seq<T>) {
    forall i, j :: 0 <= i < j < |s| ==> s[i] != s[j]
  }

  /** Without duplicates, the first occurrence of `s[i]` is at `i`. */
  lemma IndexOfNoDup<T>(s: seq<T>, i: nat)
    requires NoDup(s) && i < |s|
    ensures IndexOf(s, s[i]) == i
  {
  }

  lemma {:induction false} NoDupCount<T>(s: seq<T>, x: T)
    requires NoDup(s) && x in s
    ensures Count(s, x) == 1
  {
    var p := s[..|s| - 1];
    assert s == p + [s[|s| - 1]];
    if s[|s| - 1] == x {
      assert x !in p;
      CountZero(p, x);
    } else {
      assert x in p;
      assert NoDup(p);
      NoDupCount(p, x);
    }
  }

  /** A positive multiple of a positive number is at least that number. */
  lemma {:induction false} MulAtLeast(a: int, d: int)
    requires a >= 1 && d > 0
    ensures a * d >= d
  {
    if a > 1 {
      MulAtLeast(a - 1, d);
      assert a * d == (a - 1) * d + d;
    }
  }

  /** Division with remainder: the quotient and remainder of `t` by `d` are unique. */
  lemma DivModUnique(t: int, d: int, q: int, r: int)
    requires d > 0 && 0 <= r < d && t == q * d + r
    ensures q == t / d && r == t % d
  {
    var q', r' := t / d, t % d;
    assert t == q' * d + r';
    if q < q' {
      assert (q' - q) * d == q' * d - q * d;
      MulAtLeast(q' - q, d);
    } else if q > q' {
      assert (q - q') * d == q * d - q' * d;
      MulAtLeast(q - q', d);
    }
  }
}
