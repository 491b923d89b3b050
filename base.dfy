/**
 * Shared vocabulary: optional values, the numeric primitives the scorer
 * calls (`math.log10` and `math.pow(0.5, _)`), Python's truthiness and
 * slicing rules, and first-match lookup, which is what a document store's
 * `find_one` does over a collection kept in insertion order.
 */
module Base {

  datatype Option<T> = None | Some(value: T) {
    function GetOr(default: T): T {
      match this
      case Some(v) => v
      case None => default
    }
  }

  /**
   * The outcome of a service call: a value, or the error it raises,
   * carrying the HTTP status code and the detail message.
   */
  datatype Result<T> = Ok(value: T) | Err(code: int, message: string)

  /** A point in time, in seconds; `datetime.utcnow()` becomes a parameter of this type. */
  type Timestamp = real

  const SecondsPerDay: real := 86400.0

  function Min(a: real, b: real): (r: real)
    ensures r <= a && r <= b && (r == a || r == b)
  {
    if a <= b then a else b
  }

  function MinInt(a: int, b: int): (r: int)
    ensures r <= a && r <= b && (r == a || r == b)
  {
    if a <= b then a else b
  }

  function MaxInt(a: int, b: int): (r: int)
    ensures r >= a && r >= b && (r == a || r == b)
  {
    if a >= b then a else b
  }

  /**
   * The two floating-point primitives of the scorer, as mathematical
   * functions over the reals: `log10(x)` and `halfPow(x) == 0.5 ^ x`.
   * The model is parametric in them; what the lemmas use is `Lawful`.
   */
  datatype Numerics = Numerics(log10: real -> real, halfPow: real -> real)

  /**
   * The laws every sensible implementation of the two primitives obeys:
   * log10 is monotone on the positive reals and vanishes at 1;
   * 0.5^x is positive, antitone, 1 at 0 and one half at 1.
   */
  ghost predicate Lawful(m: Numerics) {
    && m.log10(1.0) == 0.0
    && (forall x: real, y: real :: 0.0 < x <= y ==> m.log10(x) <= m.log10(y))
    && m.halfPow(0.0) == 1.0
    && m.halfPow(1.0) == 0.5
    && (forall x: real :: m.halfPow(x) > 0.0)
    && (forall x: real, y: real :: x <= y ==> m.halfPow(y) <= m.halfPow(x))
  }

  /** The laws are consistent: a (crude, piecewise-linear) pair of functions satisfies them. */
  lemma LawfulWitness() returns (m: Numerics)
    ensures Lawful(m)
  {
    m := Numerics(x => (x - 1.0) / 9.0, x => if x <= 1.0 then 1.0 - x / 2.0 else 0.5);
    assert m.log10(1.0) == 0.0;
    assert m.halfPow(0.0) == 1.0 && m.halfPow(1.0) == 0.5;
  }

  /** Python's truth value of an optional number: `None` and `0` are false. */
  predicate Truthy(x: Option<real>) {
    x.Some? && x.value != 0.0
  }

  /** Python's `s[:k]` for any integer `k`, negative ones counting from the end. */
  function PyPrefix<T>(s: seq<T>, k: int): (r: seq<T>)
    ensures k >= 0 ==> |r| == MinInt(k, |s|)
    ensures k < 0 ==> |r| == MaxInt(|s| + k, 0)
    ensures r <= s
  {
    if k >= 0 then s[..MinInt(k, |s|)] else s[..MaxInt(|s| + k, 0)]
  }

  /** Python's `s[-n:]` for `n > 0`: the last `n` elements, or all of `s` when it is shorter. */
  function LastN<T>(s: seq<T>, n: nat): (r: seq<T>)
    ensures |r| == MinInt(n, |s|)
    ensures r == s[|s| - |r|..]
  {
    if |s| <= n then s else s[|s| - n..]
  }

  /** Index of the first element satisfying `p`, as a store's `find_one` returns the first match. */
  function FirstIndex<T>(s: seq<T>, p: T -> bool): (r: Option<nat>)
    ensures r.Some? ==> r.value < |s| && p(s[r.value])
    ensures r.Some? ==> forall j :: 0 <= j < r.value ==> !p(s[j])
    ensures r.None? <==> forall j :: 0 <= j < |s| ==> !p(s[j])
  {
    if s == [] then None
    else if p(s[0]) then Some(0)
    else
      match FirstIndex(s[1..], p)
      case None => None
      case Some(k) => Some(k + 1)
  }

  /**
   * The elements of `s` satisfying `p`, in order: a store query's result
   * list, holding every match as often as it is stored.
   */
  function Filter<T(==)>(s: seq<T>, p: T -> bool): (r: seq<T>)
    ensures |r| <= |s|
    ensures forall x :: x in r ==> x in s && p(x)
    ensures forall x :: x in s && p(x) ==> x in r
    ensures Subsequence(r, s)
    ensures forall x :: x in s ==> multiset(r)[x] == (if p(x) then multiset(s)[x] else 0)
  {
    if s == [] then []
    else
      var head, rest := if p(s[0]) then [s[0]] else [], Filter(s[1..], p);
      FilterCons(s, p, head, rest);
      head + rest
  }

  /** One step of `Filter`: the head, when it matches, goes in front of the filtered tail. */
  lemma FilterCons<T>(s: seq<T>, p: T -> bool, head: seq<T>, rest: seq<T>)
    requires s != [] && head == (if p(s[0]) then [s[0]] else [])
    requires Subsequence(rest, s[1..]) && forall x :: x in rest ==> x in s[1..]
    requires forall x :: x in s[1..] ==> multiset(rest)[x] == (if p(x) then multiset(s[1..])[x] else 0)
    ensures Subsequence(head + rest, s)
    ensures forall x :: x in s ==> multiset(head + rest)[x] == (if p(x) then multiset(s)[x] else 0)
  {
    assert s == [s[0]] + s[1..];
    if p(s[0]) {
      assert (head + rest)[0] == s[0] && (head + rest)[1..] == rest;
    } else {
      assert head + rest == rest;
    }
    forall x | x in s ensures multiset(head + rest)[x] == (if p(x) then multiset(s)[x] else 0) {
      if x !in s[1..] {
        assert x !in rest;
      }
    }
  }

  /** A `defaultdict(int)` read: a missing key counts as 0. */
  function Get<K>(m: map<K, int>, k: K): int {
    if k in m then m[k] else 0
  }

  /** `a` is `b` with some elements left out and the rest in order. */
  predicate Subsequence<T(==)>(a: seq<T>, b: seq<T>)
    decreases |b|
  {
    a == [] || (b != [] && ((a[0] == b[0] && Subsequence(a[1..], b[1..])) || Subsequence(a, b[1..])))
  }

  predicate NoDuplicates<T(==)>(s: seq<T>) {
    forall i, j :: 0 <= i < j < |s| ==> s[i] != s[j]
  }
  /** An ASCII decimal digit. */
  predicate IsDigit(c: char) {
    '0' <= c <= '9'
  }

  function DigitChar(d: nat): (c: char)
    requires d < 10
    ensures IsDigit(c)
  {
    ('0' as int + d) as char
  }

  /** Python's `str(n)` for a natural number: its decimal digits, without leading zeros. */
  function NatToString(n: nat): (r: string)
    ensures |r| > 0 && forall i :: 0 <= i < |r| ==> IsDigit(r[i])
  {
    if n < 10 then [DigitChar(n)] else NatToString(n / 10) + [DigitChar(n % 10)]
  }

  /** Python's `str(i)` for any integer. */
  function IntToString(i: int): string {
    if i < 0 then "-" + NatToString(-i) else NatToString(i)
  }

  /** The number a string of decimal digits denotes (`int(s)`). */
  function DigitsValue(s: string): nat
    requires forall i :: 0 <= i < |s| ==> IsDigit(s[i])
  {
    if s == [] then 0
    else
      assert IsDigit(s[|s| - 1]);
      DigitsValue(s[..|s| - 1]) * 10 + (s[|s| - 1] as int - '0' as int)
  }

  /** Reading back the printed digits gives the number. */
  lemma {:induction false} NatToStringRoundTrip(n: nat)
    ensures DigitsValue(NatToString(n)) == n
  {
    if n >= 10 {
      NatToStringRoundTrip(n / 10);
      var s := NatToString(n);
      assert s[..|s| - 1] == NatToString(n / 10);
    }
  }

  /** Distinct numbers print differently. */
  lemma NatToStringInjective(a: nat, b: nat)
    requires NatToString(a) == NatToString(b)
    ensures a == b
  {
    NatToStringRoundTrip(a);
    NatToStringRoundTrip(b);
  }
}
