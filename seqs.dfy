/** Sequence helpers shared by every stage of the pipeline: row selection
    (a boolean mask applied to a frame), column projection, sums, means and
    extrema. Everything here is generic; the salary-specific stages import it. */
module Seqs {

  datatype Option<+T> = None | Some(value: T)

  /** The rows of `s` for which `p` holds, in their original order
      (pandas `df[mask]`). */
  function Keep<T(!new)>(s: seq<T>, p: T -> bool): (r: seq<T>)
    ensures |r| <= |s|
    ensures forall x :: x in r <==> x in s && p(x)
  {
    if s == [] then []
    else
      var n := |s| - 1;
      assert s == s[..n] + [s[n]];
      var init := Keep(s[..n], p);
      if p(s[n]) then init + [s[n]] else init
  }

  /** The positions of `s` at which `p` holds, in increasing order. */
  function Positions<T>(s: seq<T>, p: T -> bool): (ix: seq<nat>)
    ensures forall k :: 0 <= k < |ix| ==> ix[k] < |s| && p(s[ix[k]])
    ensures forall k, l :: 0 <= k < l < |ix| ==> ix[k] < ix[l]
    ensures forall i :: 0 <= i < |s| && p(s[i]) ==> i in ix
  {
    if s == [] then []
    else
      var n := |s| - 1;
      var init := Positions(s[..n], p);
      if p(s[n]) then init + [n] else init
  }

  /** Selection keeps rows unmodified and in order: the k-th kept row is the
      row at the k-th position where the predicate holds. */
  lemma {:induction false} KeepAtPositions<T(!new)>(s: seq<T>, p: T -> bool)
    ensures |Keep(s, p)| == |Positions(s, p)|
    ensures forall k :: 0 <= k < |Keep(s, p)| ==> Keep(s, p)[k] == s[Positions(s, p)[k]]
  {
    if s != [] {
      var n := |s| - 1;
      KeepAtPositions(s[..n], p);
    }
  }

  lemma {:induction false} KeepAppend<T(!new)>(a: seq<T>, b: seq<T>, p: T -> bool)
    ensures Keep(a + b, p) == Keep(a, p) + Keep(b, p)
    decreases |b|
  {
    if b != [] {
      var n := |b| - 1;
      assert (a + b)[..|a + b| - 1] == a + b[..n];
      KeepAppend(a, b[..n], p);
    } else {
      assert a + b == a;
    }
  }

  /** Appending a row appends it to the selection exactly when it is
      selected. */
  lemma KeepSnoc<T(!new)>(s: seq<T>, x: T, p: T -> bool)
    ensures Keep(s + [x], p) == Keep(s, p) + (if p(x) then [x] else [])
  {
    assert (s + [x])[..|s|] == s;
  }

  /** The projection of a selection grows by the new row's projection
      exactly when the new row is selected. */
  lemma MapKeepSnoc<T(!new), U>(s: seq<T>, x: T, p: T -> bool, f: T -> U)
    ensures Map(Keep(s + [x], p), f) == Map(Keep(s, p), f) + (if p(x) then [f(x)] else [])
  {
    KeepSnoc(s, x, p);
    MapAppend(Keep(s, p), if p(x) then [x] else [], f);
  }

  /** Selecting with `p` and then with `q` is selecting with their
      conjunction `pq` at once. */
  lemma {:induction false} KeepKeep<T(!new)>(s: seq<T>, p: T -> bool, q: T -> bool, pq: T -> bool)
    requires forall x :: pq(x) == (p(x) && q(x))
    ensures Keep(Keep(s, p), q) == Keep(s, pq)
  {
    if s != [] {
      var n := |s| - 1;
      KeepKeep(s[..n], p, q, pq);
      var init := Keep(s[..n], p);
      if p(s[n]) {
        KeepAppend(init, [s[n]], q);
      }
    }
  }

  /** Two predicates that agree on every row select the same rows. */
  lemma {:induction false} KeepCongruent<T(!new)>(s: seq<T>, p: T -> bool, q: T -> bool)
    requires forall x :: x in s ==> p(x) == q(x)
    ensures Keep(s, p) == Keep(s, q)
  {
    if s != [] {
      var n := |s| - 1;
      assert s == s[..n] + [s[n]];
      KeepCongruent(s[..n], p, q);
    }
  }

  lemma {:induction false} KeepAll<T(!new)>(s: seq<T>, p: T -> bool)
    requires forall x :: x in s ==> p(x)
    ensures Keep(s, p) == s
  {
    if s != [] {
      var n := |s| - 1;
      assert s == s[..n] + [s[n]];
      KeepAll(s[..n], p);
    }
  }

  /** The column `f` of every row (pandas `df[col]`). */
  function Map<T, U>(s: seq<T>, f: T -> U): (r: seq<U>)
    ensures |r| == |s|
    ensures forall i :: 0 <= i < |s| ==> r[i] == f(s[i])
  {
    seq(|s|, i requires 0 <= i < |s| => f(s[i]))
  }

  lemma MapAppend<T, U>(a: seq<T>, b: seq<T>, f: T -> U)
    ensures Map(a + b, f) == Map(a, f) + Map(b, f)
  {
  }

  /** Projecting with `f`, selecting with `p` and projecting again with `g`
      is selecting the original rows with `q` and projecting with `h`, when
      `q` is `p` after `f` and `h` agrees with `g` after `f` on those rows. */
  lemma {:induction false} KeepMapFusion<T(!new), U(!new), V>(s: seq<T>, f: T -> U, p: U -> bool, g: U -> V,
                                                               q: T -> bool, h: T -> V)
    requires forall x :: p(f(x)) == q(x)
    requires forall x :: q(x) ==> g(f(x)) == h(x)
    ensures Map(Keep(Map(s, f), p), g) == Map(Keep(s, q), h)
  {
    if s != [] {
      var n := |s| - 1;
      KeepMapFusion(s[..n], f, p, g, q, h);
      var fs := Map(s, f);
      assert fs[..n] == Map(s[..n], f);
      assert fs[n] == f(s[n]);
      if q(s[n]) {
        MapAppend(Keep(fs[..n], p), [fs[n]], g);
        MapAppend(Keep(s[..n], q), [s[n]], h);
      }
    }
  }

  function Sum(xs: seq<int>): int
  {
    if xs == [] then 0 else Sum(xs[..|xs| - 1]) + xs[|xs| - 1]
  }

  lemma {:induction false} SumAppend(a: seq<int>, b: seq<int>)
    ensures Sum(a + b) == Sum(a) + Sum(b)
    decreases |b|
  {
    if b != [] {
      var n := |b| - 1;
      assert (a + b)[..|a + b| - 1] == a + b[..n];
      SumAppend(a, b[..n]);
    } else {
      assert a + b == a;
    }
  }

  /** pandas `Series.mean()` of a column without missing values. */
  function Mean(xs: seq<int>): real
    requires xs != []
  {
    Sum(xs) as real / |xs| as real
  }

  function Min(xs: seq<int>): (m: int)
    requires xs != []
    ensures m in xs
    ensures forall x :: x in xs ==> m <= x
  {
    var n := |xs| - 1;
    assert xs == xs[..n] + [xs[n]];
    if n == 0 then xs[0]
    else
      var m := Min(xs[..n]);
      if xs[n] < m then xs[n] else m
  }

  function Max(xs: seq<int>): (m: int)
    requires xs != []
    ensures m in xs
    ensures forall x :: x in xs ==> x <= m
  {
    var n := |xs| - 1;
    assert xs == xs[..n] + [xs[n]];
    if n == 0 then xs[0]
    else
      var m := Max(xs[..n]);
      if m < xs[n] then xs[n] else m
  }

  lemma {:induction false} SumBounds(xs: seq<int>, lo: int, hi: int)
    requires forall x :: x in xs ==> lo <= x <= hi
    ensures |xs| * lo <= Sum(xs) <= |xs| * hi
  {
    if xs != [] {
      var n := |xs| - 1;
      assert xs == xs[..n] + [xs[n]];
      assert forall x :: x in xs[..n] ==> x in xs;
      SumBounds(xs[..n], lo, hi);
      assert |xs[..n]| == n;
      assert n * lo <= Sum(xs[..n]) <= n * hi;
      assert xs[n] in xs;
      assert Sum(xs) == Sum(xs[..n]) + xs[n];
      assert |xs| * lo == n * lo + lo by { MulSucc(n, lo); }
      assert |xs| * hi == n * hi + hi by { MulSucc(n, hi); }
    }
  }

  lemma MulSucc(n: int, x: int)
    ensures (n + 1) * x == n * x + x
  {
  }

  /** A mean lies between the smallest and the largest value averaged. */
  lemma MeanBetweenExtrema(xs: seq<int>)
    requires xs != []
    ensures Min(xs) as real <= Mean(xs) <= Max(xs) as real
  {
    var lo, hi, k := Min(xs), Max(xs), |xs|;
    SumBounds(xs, lo, hi);
    CastProduct(k, lo);
    CastProduct(k, hi);
    DivisionBounds(Sum(xs) as real, k as real, lo as real, hi as real);
  }

  /** The mean of positive values is positive. */
  lemma MeanPositive(xs: seq<int>)
    requires xs != []
    requires forall x :: x in xs ==> x > 0
    ensures Mean(xs) > 0.0
  {
    MeanBetweenExtrema(xs);
  }

  lemma CastProduct(k: int, x: int)
    ensures (k * x) as real == k as real * x as real
  {
  }

  lemma DivisionBounds(s: real, n: real, lo: real, hi: real)
    requires n > 0.0
    requires n * lo <= s <= n * hi
    ensures lo <= s / n <= hi
  {
    assert s / n * n == s;
  }

  /** The values present in a column with missing entries. */
  function Present<T(!new)>(xs: seq<Option<T>>): (r: seq<T>)
    ensures |r| <= |xs|
    ensures forall x :: x in r <==> Some(x) in xs
  {
    if xs == [] then []
    else
      var n := |xs| - 1;
      assert xs == xs[..n] + [xs[n]];
      var init := Present(xs[..n]);
      match xs[n]
      case Some(v) => init + [v]
      case None => init
  }

  function SumReal(xs: seq<real>): real
  {
    if xs == [] then 0.0 else SumReal(xs[..|xs| - 1]) + xs[|xs| - 1]
  }

  /** pandas `Series.mean()` with its default `skipna=True`: the mean of the
      present values, or `None` (NaN) when no value is present. */
  function MeanSkipNa(xs: seq<Option<real>>): (r: Option<real>)
    ensures r.None? <==> forall x :: x in xs ==> x.None?
  {
    var vs := Present(xs);
    if vs == [] then
      None
    else
      assert Some(vs[0]) in xs;
      Some(SumReal(vs) / |vs| as real)
  }

  lemma {:induction false} SumRealBounds(xs: seq<real>, lo: real, hi: real)
    requires forall x :: x in xs ==> lo <= x <= hi
    ensures |xs| as real * lo <= SumReal(xs) <= |xs| as real * hi
  {
    if xs != [] {
      var n := |xs| - 1;
      assert forall x :: x in xs[..n] ==> x in xs;
      SumRealBounds(xs[..n], lo, hi);
      assert xs[n] in xs;
    }
  }

  /** A skip-NaN mean lies within any bounds of the present values. */
  lemma MeanSkipNaBounds(xs: seq<Option<real>>, lo: real, hi: real)
    requires forall v :: Some(v) in xs ==> lo <= v <= hi
    ensures MeanSkipNa(xs).Some? ==> lo <= MeanSkipNa(xs).value <= hi
  {
    var vs := Present(xs);
    if vs != [] {
      SumRealBounds(vs, lo, hi);
      DivisionBounds(SumReal(vs), |vs| as real, lo, hi);
    }
  }
}
