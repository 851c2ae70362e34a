/** Options, and sums of a weight over a sequence or a finite set: the vocabulary every
    other module states its totals in. */
module Common {

  datatype Option<+T> = None | Some(value: T)

  /** The sum of `w` over `xs`. Unfolds from the end, so an appended row adds its weight. */
  function Sum<T>(xs: seq<T>, w: T -> real): real {
    if xs == [] then 0.0 else Sum(xs[..|xs| - 1], w) + w(xs[|xs| - 1])
  }

  lemma SumAppend<T>(xs: seq<T>, x: T, w: T -> real)
    ensures Sum(xs + [x], w) == Sum(xs, w) + w(x)
  {
    assert (xs + [x])[..|xs|] == xs;
  }

  lemma {:induction false} SumConcat<T>(xs: seq<T>, ys: seq<T>, w: T -> real)
    ensures Sum(xs + ys, w) == Sum(xs, w) + Sum(ys, w)
  {
    if ys == [] {
      assert xs + ys == xs;
    } else {
      var front := ys[..|ys| - 1];
      assert (xs + ys)[..|xs + ys| - 1] == xs + front;
      SumConcat(xs, front, w);
    }
  }

  /** Pointwise addition lifts to sums; with a zero weight it is pointwise equality. */
  lemma {:induction false} SumAdd<A, B, C>(xs: seq<A>, ys: seq<B>, zs: seq<C>, u: A -> real, v: B -> real, w: C -> real)
    requires |xs| == |ys| == |zs|
    requires forall i :: 0 <= i < |xs| ==> u(xs[i]) == v(ys[i]) + w(zs[i])
    ensures Sum(xs, u) == Sum(ys, v) + Sum(zs, w)
  {
    if xs != [] {
      var n := |xs| - 1;
      SumAdd(xs[..n], ys[..n], zs[..n], u, v, w);
    }
  }

  lemma {:induction false} SumEqual<A, B>(xs: seq<A>, ys: seq<B>, u: A -> real, v: B -> real)
    requires |xs| == |ys|
    requires forall i :: 0 <= i < |xs| ==> u(xs[i]) == v(ys[i])
    ensures Sum(xs, u) == Sum(ys, v)
  {
    if xs != [] {
      var n := |xs| - 1;
      SumEqual(xs[..n], ys[..n], u, v);
    }
  }

  lemma {:induction false} SumLe<A, B>(xs: seq<A>, ys: seq<B>, u: A -> real, v: B -> real)
    requires |xs| == |ys|
    requires forall i :: 0 <= i < |xs| ==> u(xs[i]) <= v(ys[i])
    ensures Sum(xs, u) <= Sum(ys, v)
  {
    if xs != [] {
      var n := |xs| - 1;
      SumLe(xs[..n], ys[..n], u, v);
    }
  }

  lemma {:induction false} SumZero<T>(xs: seq<T>, w: T -> real)
    requires forall i :: 0 <= i < |xs| ==> w(xs[i]) == 0.0
    ensures Sum(xs, w) == 0.0
  {
    if xs != [] { SumZero(xs[..|xs| - 1], w); }
  }

  lemma {:induction false} SumNonNegative<T>(xs: seq<T>, w: T -> real)
    requires forall i :: 0 <= i < |xs| ==> w(xs[i]) >= 0.0
    ensures Sum(xs, w) >= 0.0
    ensures forall i :: 0 <= i < |xs| ==> w(xs[i]) <= Sum(xs, w)
  {
    if xs != [] {
      var n := |xs| - 1;
      SumNonNegative(xs[..n], w);
      assert forall i :: 0 <= i < n ==> xs[..n][i] == xs[i];
    }
  }

  lemma {:induction false} SumUpdate<T>(xs: seq<T>, i: nat, x: T, w: T -> real)
    requires i < |xs|
    ensures Sum(xs[i := x], w) == Sum(xs, w) - w(xs[i]) + w(x)
  {
    var n := |xs| - 1;
    if i == n {
      assert xs[i := x][..n] == xs[..n];
    } else {
      assert xs[i := x][..n] == xs[..n][i := x];
      SumUpdate(xs[..n], i, x, w);
    }
  }

  /** Weights that agree on all elements but one give sums that differ by that element's. */
  lemma {:induction false} SumBut<T>(xs: seq<T>, i: nat, u: T -> real, v: T -> real)
    requires i < |xs| && forall k :: 0 <= k < |xs| && k != i ==> u(xs[k]) == v(xs[k])
    ensures Sum(xs, v) == Sum(xs, u) - u(xs[i]) + v(xs[i])
  {
    var n := |xs| - 1;
    if i == n { SumEqual(xs[..n], xs[..n], u, v); } else { SumBut(xs[..n], i, u, v); }
  }

  const Same := (x: real) => x

  function Total(xs: seq<real>): real { Sum(xs, Same) }

  /** The first element satisfying `p`. */
  function First<T>(xs: seq<T>, p: T -> bool): Option<T> {
    if xs == [] then None else if p(xs[0]) then Some(xs[0]) else First(xs[1..], p)
  }

  lemma {:induction false} FirstIs<T>(xs: seq<T>, i: nat, p: T -> bool)
    requires i < |xs| && p(xs[i]) && forall j :: 0 <= j < i ==> !p(xs[j])
    ensures First(xs, p) == Some(xs[i])
  {
    if i > 0 { FirstIs(xs[1..], i - 1, p); }
  }

  /** The sum of `w` over a finite set of keys. */
  ghost function SetSum<K>(ks: set<K>, w: K -> real): real {
    if ks == {} then 0.0 else var k :| k in ks; w(k) + SetSum(ks - {k}, w)
  }

  lemma {:induction false} SetSumPick<K>(ks: set<K>, k: K, w: K -> real)
    requires k in ks
    ensures SetSum(ks, w) == w(k) + SetSum(ks - {k}, w)
    decreases |ks|
  {
    var p :| p in ks && SetSum(ks, w) == w(p) + SetSum(ks - {p}, w);
    if p != k {
      SetSumPick(ks - {p}, k, w);
      SetSumPick(ks - {k}, p, w);
      assert ks - {p} - {k} == ks - {k} - {p};
    }
  }

  lemma {:induction false} SetSumEqual<K>(ks: set<K>, u: K -> real, v: K -> real)
    requires forall k :: k in ks ==> u(k) == v(k)
    ensures SetSum(ks, u) == SetSum(ks, v)
    decreases |ks|
  {
    if ks != {} {
      var k :| k in ks;
      SetSumPick(ks, k, u);
      SetSumPick(ks, k, v);
      SetSumEqual(ks - {k}, u, v);
    }
  }

  lemma {:induction false} SetSumLe<K>(ks: set<K>, u: K -> real, v: K -> real)
    requires forall k :: k in ks ==> u(k) <= v(k)
    ensures SetSum(ks, u) <= SetSum(ks, v)
    decreases |ks|
  {
    if ks != {} {
      var k :| k in ks;
      SetSumPick(ks, k, u);
      SetSumPick(ks, k, v);
      SetSumLe(ks - {k}, u, v);
    }
  }

  /** Changing the weight of one key, present or new, changes the sum by that key's change. */
  lemma SetSumUpdate<K>(ks: set<K>, k: K, u: K -> real, v: K -> real)
    requires forall j :: j in ks && j != k ==> u(j) == v(j)
    requires k !in ks ==> u(k) == 0.0
    ensures SetSum(ks + {k}, v) == SetSum(ks, u) - u(k) + v(k)
  {
    SetSumPick(ks + {k}, k, v);
    assert ks + {k} - {k} == ks - {k};
    SetSumEqual(ks - {k}, u, v);
    if k in ks { SetSumPick(ks, k, u); } else { assert ks - {k} == ks; }
  }

  /** Keys of no weight add nothing. */
  lemma {:induction false} SetSumPad<K>(ks: set<K>, more: set<K>, w: K -> real)
    requires forall k :: k in more ==> k in ks || w(k) == 0.0
    ensures SetSum(ks + more, w) == SetSum(ks, w)
    decreases |more|
  {
    if more == {} {
      assert ks + more == ks;
    } else {
      var k :| k in more;
      SetSumPad(ks, more - {k}, w);
      if k in ks {
        assert ks + more == ks + (more - {k});
      } else {
        assert ks + more - {k} == ks + (more - {k});
        SetSumPick(ks + more, k, w);
      }
    }
  }
}
