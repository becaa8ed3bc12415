/** Shared value types. */
module Common {
  datatype Option<+T> = None | Some(value: T)

  function Min(a: int, b: int): int { if a <= b then a else b }

  function Max(a: int, b: int): int { if a >= b then a else b }

  /** The first n, or all when there are fewer. */
  function FirstN<T>(xs: seq<T>, n: nat): seq<T> {
    if |xs| <= n then xs else xs[..n]
  }

  predicate Increasing(xs: seq<nat>) {
    forall i, j | 0 <= i < j < |xs| :: xs[i] < xs[j]
  }

  /** The search page bounds of the stores and of the query service. */
  const DEFAULT_SEARCH_LIMIT := 50
  const MAX_SEARCH_LIMIT := 1000

  /** n / b rounded up. */
  function CeilDiv(n: nat, b: nat): nat
    requires b > 0
  {
    (n + b - 1) / b
  }

  /** The least number of groups of b that hold n things. */
  lemma CeilDivBound(n: nat, b: nat, k: nat)
    requires b > 0
    ensures n <= k * b <==> k >= CeilDiv(n, b)
  {
    var c := CeilDiv(n, b);
    assert c * b >= n && (c > 0 ==> (c - 1) * b < n) by {
      assert (n + b - 1) == c * b + (n + b - 1) % b;
    }
    if k >= c {
      assert k * b >= c * b;
    } else {
      assert k * b <= (c - 1) * b;
    }
  }
}
