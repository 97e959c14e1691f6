/** Bytes and byte streams, and two facts about quotients. */
module Bytes {

  datatype Option<T> = None | Some(value: T)

  type byte = b: int | 0 <= b < 256

  function Min(a: nat, b: nat): nat {
    if a < b then a else b
  }

  function Max(a: nat, b: nat): nat {
    if a < b then b else a
  }

  lemma {:induction false} Gap(q: int, a: int, n: nat)
    requires q < a
    ensures a * n >= q * n + n
    decreases a - q
  {
    assert a * n == (a - 1) * n + n;
    if q < a - 1 {
      Gap(q, a - 1, n);
    }
  }

  /** Quotient and remainder are the only numbers that fit. */
  lemma Unique(q: int, r: int, a: int, b: int, n: nat)
    requires q * n + r == a * n + b && 0 <= r < n && 0 <= b < n
    ensures q == a && r == b
  {
    if q < a {
      Gap(q, a, n);
    } else if a < q {
      Gap(a, q, n);
    }
  }
}
