/**
 * An abstract n-dimensional array in the style of numpy: a shape and the
 * elements laid out flat in row-major (C) order.
 */
module Arrays {

  /** Number of elements of an array of the given shape (1 for a 0-d array). */
  function Product(shape: seq<nat>): nat
  {
    if shape == [] then 1 else Product(shape[..|shape| - 1]) * shape[|shape| - 1]
  }

  datatype RawArray = RawArray(shape: seq<nat>, values: seq<real>)

  /** An array whose element count agrees with its shape. */
  type NdArray = a: RawArray | |a.values| == Product(a.shape) witness RawArray([], [0.0])

  /** `idx` addresses an element of an array of the given shape. */
  predicate InBounds(shape: seq<nat>, idx: seq<nat>)
  {
    |idx| == |shape| && forall i :: 0 <= i < |idx| ==> idx[i] < shape[i]
  }

  lemma {:induction false} MulMonotone(a: nat, b: nat, c: nat)
    requires a <= b
    ensures a * c <= b * c
  {
    if c > 0 {
      MulMonotone(a, b, c - 1);
      assert a * c == a * (c - 1) + a;
      assert b * c == b * (c - 1) + b;
    }
  }

  lemma FlatStep(j: nat, k: nat, p: nat, c: nat)
    requires j < p && k < c
    ensures j * c + k < p * c
  {
    MulMonotone(j + 1, p, c);
    assert (j + 1) * c == j * c + c;
  }

  /** Row-major offset of a multi-index: the position numpy gives element `idx`. */
  function Flat(shape: seq<nat>, idx: seq<nat>): (r: nat)
    requires InBounds(shape, idx)
    ensures r < Product(shape)
  {
    if idx == [] then 0
    else
      var n := |idx| - 1;
      assert InBounds(shape[..n], idx[..n]);
      var p := Flat(shape[..n], idx[..n]);
      FlatStep(p, idx[n], Product(shape[..n]), shape[n]);
      p * shape[n] + idx[n]
  }

  /** The element of `a` at multi-index `idx`. */
  function At(a: NdArray, idx: seq<nat>): real
    requires InBounds(a.shape, idx)
  {
    a.values[Flat(a.shape, idx)]
  }

  /** The size of the last axis of a shape (numpy's `shape[-1]`). */
  function LastDim(shape: seq<nat>): nat
    requires |shape| > 0
  {
    shape[|shape| - 1]
  }

  /** numpy's `a[..., k]`: the slice of `a` at index `k` of its last axis. */
  function LastAxis(a: NdArray, k: nat): (r: NdArray)
    requires |a.shape| > 0 && k < LastDim(a.shape)
    ensures r.shape == a.shape[..|a.shape| - 1]
  {
    var n := |a.shape| - 1;
    var p := Product(a.shape[..n]);
    var c := a.shape[n];
    RawArray(a.shape[..n], seq(p, j requires 0 <= j < p => FlatStep(j, k, p, c); a.values[j * c + k]))
  }

  /** Element `idx` of the slice `a[..., k]` is element `idx + [k]` of `a`. */
  lemma LastAxisAt(a: NdArray, k: nat, idx: seq<nat>)
    requires |a.shape| > 0 && k < LastDim(a.shape)
    requires InBounds(a.shape[..|a.shape| - 1], idx)
    ensures InBounds(a.shape, idx + [k])
    ensures At(LastAxis(a, k), idx) == At(a, idx + [k])
  {
    var n := |a.shape| - 1;
    var full := idx + [k];
    assert full[..n] == idx;
    assert InBounds(a.shape, full) by {
      forall i | 0 <= i < |full| ensures full[i] < a.shape[i] {
        if i < n { assert full[i] == idx[i]; }
      }
    }
    assert a.shape[..n] == a.shape[..|a.shape| - 1];
    var j := Flat(a.shape[..n], idx);
    assert Flat(a.shape, full) == j * a.shape[n] + k;
  }

  /** Every element of `a` lies in the closed interval [0, 1]. */
  predicate InUnitRange(a: NdArray)
  {
    forall i :: 0 <= i < |a.values| ==> 0.0 <= a.values[i] <= 1.0
  }

  /** Slicing keeps the elements within [0, 1]. */
  lemma LastAxisInUnitRange(a: NdArray, k: nat)
    requires |a.shape| > 0 && k < LastDim(a.shape)
    requires InUnitRange(a)
    ensures InUnitRange(LastAxis(a, k))
  {
    var n := |a.shape| - 1;
    var r := LastAxis(a, k);
    forall j | 0 <= j < |r.values| ensures 0.0 <= r.values[j] <= 1.0 {
      FlatStep(j, k, Product(a.shape[..n]), a.shape[n]);
      assert r.values[j] == a.values[j * a.shape[n] + k];
    }
  }

  /** An array with at least one element has no zero-length axis. */
  lemma {:induction false} ProductPositive(shape: seq<nat>)
    requires Product(shape) > 0
    ensures forall i :: 0 <= i < |shape| ==> shape[i] > 0
  {
    if shape != [] {
      var n := |shape| - 1;
      assert Product(shape) == Product(shape[..n]) * shape[n];
      assert Product(shape[..n]) > 0 && shape[n] > 0;
      ProductPositive(shape[..n]);
      forall i | 0 <= i < n ensures shape[i] > 0 {
        assert shape[..n][i] == shape[i];
      }
    }
  }

  /** numpy's `np.min` over a non-empty array. */
  function SeqMin(s: seq<real>): (m: real)
    requires |s| > 0
    ensures m in s
    ensures forall i :: 0 <= i < |s| ==> m <= s[i]
  {
    if |s| == 1 then s[0]
    else
      var rest := SeqMin(s[1..]);
      if s[0] <= rest then s[0] else rest
  }

  /** numpy's `np.max` over a non-empty array. */
  function SeqMax(s: seq<real>): (m: real)
    requires |s| > 0
    ensures m in s
    ensures forall i :: 0 <= i < |s| ==> s[i] <= m
  {
    if |s| == 1 then s[0]
    else
      var rest := SeqMax(s[1..]);
      if s[0] >= rest then s[0] else rest
  }

  /** The range test `np.min(a) < 0 or np.max(a) > 1` fails exactly when some element leaves [0, 1]. */
  lemma MinMaxOutOfRange(a: NdArray)
    requires |a.values| > 0
    ensures (SeqMin(a.values) < 0.0 || SeqMax(a.values) > 1.0) <==> !InUnitRange(a)
  {
  }
}
