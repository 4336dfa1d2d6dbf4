/** Small shared vocabulary: optional values, and the instants of the shared clock. */
module Prelude {

  datatype Option<+T> = None | Some(value: T)

  datatype Result<+T, +E> = Ok(value: T) | Err(error: E)

  /** Seconds on the shared clock. The resolution of the original's timestamps is not modelled. */
  type Instant = real

  function Max(a: real, b: real): real {
    if a < b then b else a
  }

  function Min(a: real, b: real): real {
    if b < a then b else a
  }

  /** `n` copies of `x` added up; the product `n * x` in a form that stays linear for the verifier. */
  function Times(n: nat, x: real): real {
    if n == 0 then 0.0 else Times(n - 1, x) + x
  }

  lemma {:induction false} TimesIsProduct(n: nat, x: real)
    ensures Times(n, x) == n as real * x
  {
    if 0 < n {
      TimesIsProduct(n - 1, x);
      assert n as real == (n - 1) as real + 1.0;
      assert n as real * x == (n - 1) as real * x + x;
    }
  }

  lemma {:induction false} TimesMonotone(m: nat, n: nat, x: real)
    requires m <= n && 0.0 <= x
    ensures Times(m, x) <= Times(n, x)
  {
    if m < n {
      TimesMonotone(m, n - 1, x);
    }
  }

  /** How many steps of `d` it takes to cover `total`. */
  function Ceiling(total: nat, d: nat): nat
    requires 0 < d
  {
    if total == 0 then 0 else if total <= d then 1 else 1 + Ceiling(total - d, d)
  }

  /** `n` steps of `d` cover the total, and one fewer does not. */
  predicate IsLeastCover(n: nat, total: nat, d: nat) {
    total <= n * d && (0 < n ==> (n - 1) * d < total)
  }

  lemma {:induction false} CeilingIsLeast(total: nat, d: nat)
    requires 0 < d
    ensures IsLeastCover(Ceiling(total, d), total, d)
  {
    if d < total {
      CeilingIsLeast(total - d, d);
      var rest := Ceiling(total - d, d);
      assert (1 + rest) * d == d + rest * d && rest * d == d + (rest - 1) * d;
    }
  }

  /** If n - 1 steps still fall short of the total, then n is at most the ceiling. */
  lemma {:induction false} ShortOfCeiling(n: nat, total: nat, d: nat)
    requires 0 < d && (0 < n ==> Times(n - 1, d as real) < total as real)
    ensures n <= Ceiling(total, d)
  {
    if 1 < n && d < total {
      ShortOfCeiling(n - 1, total - d, d);
    } else if 1 < n {
      TimesMonotone(1, n - 1, d as real);
    }
  }
}
