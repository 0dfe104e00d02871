/** What the C# runtime and the engine contribute to the audio system:
    optional values, exceptions as failures, C#'s integer remainder and the
    integer overload of Random.Range. */
module Runtime {

  datatype Option<+T> = None | Some(value: T)

  /** The exceptions the audio code can raise on its own. */
  datatype Fault =
    | DivideByZero              // `x % 0` on an empty clip or source array
    | IndexOutOfRange           // an array index outside the array
    | KeyNotFound(key: string)  // Dictionary indexer on a missing key
    | DuplicateKey(key: string) // Dictionary.Add on a present key

  /** A call that either returns normally or raises a fault. */
  datatype Result<+T> = Success(value: T) | Failure(fault: Fault)

  /** C#'s `%` on `int`: the quotient is truncated toward zero, so the
      remainder takes the sign of the dividend. Dafny's own `%` is
      Euclidean and never negative; the two agree on natural dividends
      (CsRemAgrees). */
  function CsRem(a: int, n: int): (r: int)
    requires n > 0
    ensures -n < r < n
    ensures 0 <= a ==> 0 <= r
    ensures a <= 0 ==> r <= 0
    ensures -n < a < n ==> r == a
  {
    if -n < a < n then a
    else if a >= 0 then a % n
    else -((-a) % n)
  }

  /** The C# remainder differs from the dividend by a multiple of the
      divisor, and is Dafny's remainder on a natural dividend. */
  lemma CsRemAgrees(a: int, n: int)
    requires n > 0
    ensures (a - CsRem(a, n)) % n == 0
    ensures 0 <= a ==> CsRem(a, n) == a % n
  {
    if -n < a < n {
      assert a - CsRem(a, n) == 0;
      if 0 <= a {
        SmallRemainder(a, n);
      }
    } else if a >= 0 {
      var q := a / n;
      assert CsRem(a, n) == a % n;
      assert a - CsRem(a, n) == q * n;
      MultipleHasNoRemainder(q, n);
    } else {
      var q := (-a) / n;
      assert CsRem(a, n) == -((-a) % n);
      assert a - CsRem(a, n) == (-q) * n;
      MultipleHasNoRemainder(-q, n);
    }
  }

  /** A natural dividend below the divisor is its own remainder. */
  lemma SmallRemainder(a: int, n: int)
    requires 0 <= a < n
    ensures a % n == a
  {
  }

  /** A multiple of n leaves no Euclidean remainder. */
  lemma MultipleHasNoRemainder(q: int, n: int)
    requires n > 0
    ensures (q * n) % n == 0
  {
    var x := q * n;
    var k := q - x / n;
    assert x % n == n * k;
    if k != 0 {
      assert false;
    }
  }

  /** A possible value of `Random.Range(0, n)` on ints: uniform over [0, n)
      when n > 0 and exactly 0 when the range is empty. Only the set of
      possible draws is modelled, not their distribution. */
  predicate IsDraw(k: int, n: int): (b: bool)
    ensures b ==> 0 <= k
    ensures b && n > 0 ==> CsRem(k, n) == k
  {
    if n > 0 then 0 <= k < n else k == 0
  }
}
