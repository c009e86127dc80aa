/** Vocabulary shared by every module. Times and durations are nanoseconds, as Go's time.Duration. */
module Basics {
  datatype Option<+T> = None | Some(value: T)

  datatype Result<+T, +E> = Ok(value: T) | Err(error: E)

  const MILLISECOND: nat := 1_000_000
  const SECOND: nat := 1_000 * MILLISECOND

  // The largest value of a Go int64, a PostgreSQL BIGINT and a Redis counter.
  const MAX_INT64: nat := 0x7FFF_FFFF_FFFF_FFFF
  // The largest value of a PostgreSQL INTEGER.
  const MAX_INT32: nat := 0x7FFF_FFFF

  function Max(a: nat, b: nat): nat {
    if a < b then b else a
  }

  function Min(a: nat, b: nat): nat {
    if a < b then a else b
  }

  /** n times x. */
  function Multiple(n: nat, x: nat): nat {
    if n == 0 then 0 else Multiple(n - 1, x) + x
  }

  lemma {:induction false} MultipleIs(n: nat, x: nat)
    ensures Multiple(n, x) == n * x
  {
    if n > 0 {
      MultipleIs(n - 1, x);
      assert (n - 1) * x + x == n * x;
    }
  }

  lemma {:induction false} MultipleGrows(m: nat, n: nat, x: nat)
    requires m <= n
    ensures Multiple(m, x) <= Multiple(n, x)
  {
    if m < n { MultipleGrows(m, n - 1, x); }
  }

  lemma SubsetSize<T>(a: set<T>, b: set<T>)
    requires a <= b
    ensures |a| <= |b|
  {
    assert |b - a| == |b| - |a|;
  }

  /** A set that maps one-to-one into another is no larger. */
  lemma {:induction false} InjectionBound<A, B>(xs: set<A>, ys: set<B>, f: map<A, B>)
    requires forall x | x in xs :: x in f && f[x] in ys
    requires forall x, x' | x in xs && x' in xs && f[x] == f[x'] :: x == x'
    ensures |xs| <= |ys|
    decreases xs
  {
    if xs != {} {
      var x :| x in xs;
      InjectionBound(xs - {x}, ys - {f[x]}, f);
    }
  }
}
