/**
 The property calculator shared by every interpolation algorithm (lib/common.h):
 the coarse and fine grid shapes and strides of a 3-D problem, the element
 count, and the Nyquist-aware corner sizes used when a spectrum is split into
 its positive- and negative-frequency blocks.

 C `int` arithmetic is modelled with unbounded integers; division is C's
 truncating division, written out in `CDiv2`.
 */
module Common {

  /** The data layout of a plan (`interpolation_t`). */
  datatype Layout = Interleaved | Split | SplitProduct

  /** A fixed-size `int[3]` of the properties record. */
  type Axes = s: seq<int> | |s| == 3 witness [0, 0, 0]

  /** The refinement factor: every axis of the fine grid is twice as long. */
  const Refinement: int := 2

  /** `interpolate_properties_t`: axis 0 is the fastest-varying one. */
  datatype Props = Props(layout: Layout, dims: Axes, strides: Axes, fineDims: Axes, fineStrides: Axes)

  /** Packed row-major strides for `dims`: the fastest axis has stride 1 and
      each further axis steps over one whole slab of the axes before it. */
  ghost predicate PackedStrides(dims: Axes, strides: Axes)
  {
    && strides[0] == 1
    && strides[1] == strides[0] * dims[0]
    && strides[2] == strides[1] * dims[1]
  }

  /** `populate_properties`. */
  function PopulateProperties(layout: Layout, n0: int, n1: int, n2: int): (p: Props)
    ensures p.layout == layout
    ensures p.dims == [n2, n1, n0]
    ensures forall i :: 0 <= i < 3 ==> p.fineDims[i] == Refinement * p.dims[i]
    ensures PackedStrides(p.dims, p.strides)
    ensures PackedStrides(p.fineDims, p.fineStrides)
  {
    var dims := [n2, n1, n0];
    var fine := [dims[0] * 2, dims[1] * 2, dims[2] * 2];
    assert n2 * n1 * 4 == (n2 * 2) * (n1 * 2) by { ScaleProduct(n2, n1); }
    Props(layout, dims, [1, n2, n2 * n1], fine, [1, n2 * 2, n2 * n1 * 4])
  }

  lemma ScaleProduct(x: int, y: int)
    ensures x * y * 4 == (x * 2) * (y * 2)
  {
    calc {
      (x * 2) * (y * 2);
      x * (2 * (y * 2));
      x * (y * 4);
      x * y * 4;
    }
  }

  /** Product of the three extents of `dims`. */
  function Volume(dims: Axes): int
  {
    dims[0] * dims[1] * dims[2]
  }

  /** `num_elements`: the number of coarse grid points. Under packed strides
      it is the span of the slowest axis, it is positive when every axis is,
      and an empty axis leaves no points at all. */
  function NumElements(p: Props): (n: int)
    ensures PackedStrides(p.dims, p.strides) ==> n == p.strides[2] * p.dims[2]
    ensures p.dims[0] > 0 && p.dims[1] > 0 && p.dims[2] > 0 ==> n > 0
    ensures p.dims[0] == 0 || p.dims[1] == 0 || p.dims[2] == 0 ==> n == 0
  {
    var d0, d1, d2 := p.dims[0], p.dims[1], p.dims[2];
    assert d0 > 0 && d1 > 0 && d2 > 0 ==> d0 * d1 > 0 && (d0 * d1) * d2 > 0;
    Volume(p.dims)
  }

  /** The element count of the properties of an `n0 x n1 x n2` problem is
      `n0 * n1 * n2`, whatever the axis reordering. */
  lemma NumElementsOfPopulated(layout: Layout, n0: int, n1: int, n2: int)
    ensures NumElements(PopulateProperties(layout, n0, n1, n2)) == n0 * n1 * n2
  {
    var p := PopulateProperties(layout, n0, n1, n2);
    calc {
      NumElements(p);
      n2 * n1 * n0;
      { assert n2 * n1 * n0 == n0 * (n1 * n2); }
      n0 * n1 * n2;
    }
  }

  /** The fine grid holds 2^3 = 8 times as many points as the coarse one, and
      in both grids the slowest stride times the slowest extent is the
      element count, so the packed layout leaves no gap. */
  lemma PopulatedGridsArePacked(layout: Layout, n0: int, n1: int, n2: int)
    ensures var p := PopulateProperties(layout, n0, n1, n2);
      && Volume(p.fineDims) == 8 * NumElements(p)
      && p.strides[2] * p.dims[2] == NumElements(p)
      && p.fineStrides[2] * p.fineDims[2] == Volume(p.fineDims)
  {
    var p := PopulateProperties(layout, n0, n1, n2);
    var v := n2 * n1;
    assert Volume(p.fineDims) == (n2 * 2) * (n1 * 2) * (n0 * 2);
    ScaleProduct(n2, n1);
    assert (n2 * 2) * (n1 * 2) == v * 4;
    assert (v * 4) * (n0 * 2) == 8 * (v * n0);
    assert p.fineStrides[2] == v * 4;
  }

  /** Offset of grid point `(x0, x1, x2)` under `strides`. */
  function Offset(strides: Axes, x0: int, x1: int, x2: int): int
  {
    x0 * strides[0] + x1 * strides[1] + x2 * strides[2]
  }

  /** Under packed strides every in-range grid point lands inside
      `[0, Volume(dims))`: the layout needs no more storage than the
      element count. */
  lemma PackedOffsetInRange(dims: Axes, strides: Axes, x0: int, x1: int, x2: int)
    requires PackedStrides(dims, strides)
    requires 0 <= x0 < dims[0] && 0 <= x1 < dims[1] && 0 <= x2 < dims[2]
    ensures 0 <= Offset(strides, x0, x1, x2) < Volume(dims)
  {
    var d0, d1, d2 := dims[0], dims[1], dims[2];
    // x0 + x1 * d0 < d0 * (x1 + 1) <= d0 * d1
    assert x1 * d0 + x0 < (x1 + 1) * d0;
    MulMono(x1 + 1, d1, d0);
    var inner := x0 + x1 * d0;
    assert 0 <= x1 * d0;
    assert 0 <= inner < d0 * d1;
    // inner + x2 * (d0 * d1) < (x2 + 1) * (d0 * d1) <= d2 * (d0 * d1)
    MulMono(x2 + 1, d2, d0 * d1);
    assert 0 <= x2 * (d0 * d1);
    assert Offset(strides, x0, x1, x2) == inner + x2 * (d0 * d1);
    assert Volume(dims) == d2 * (d0 * d1);
  }

  lemma MulMono(a: int, b: int, c: int)
    requires a <= b && 0 <= c
    ensures a * c <= b * c
  {
    assert b * c - a * c == (b - a) * c;
  }

  /** C's `n / 2`, which truncates toward zero (Dafny's `/` is Euclidean). */
  function CDiv2(n: int): (q: int)
    ensures n >= 0 ==> 0 <= n - 2 * q <= 1
    ensures n < 0 ==> -1 <= n - 2 * q <= 0
  {
    if n >= 0 then n / 2 else -((-n) / 2)
  }

  /** `corner_size`: how many bins of an axis of length `n` fall into the
      positive-frequency block (`negative == 0`) or the negative-frequency
      block (any other `negative`). The negative block holds `n / 2` bins,
      rounded toward zero, and the positive block one more. */
  function CornerSize(n: int, negative: int): (c: int)
    ensures var half := if negative == 0 then c - 1 else c;
      && (n >= 0 ==> 0 <= n - 2 * half <= 1)
      && (n < 0 ==> -1 <= n - 2 * half <= 0)
  {
    CDiv2(n) + (if negative == 0 then 1 else 0)
  }

  /** The positive block is the larger one by exactly one bin, and the two
      sizes add up to `n + 1` for even `n` (the Nyquist bin is counted in
      both) and to exactly `n` for odd `n`. */
  lemma CornerSizesSum(n: int)
    requires n >= 0
    ensures CornerSize(n, 0) == CornerSize(n, 1) + 1
    ensures n % 2 == 0 ==> CornerSize(n, 0) + CornerSize(n, 1) == n + 1
    ensures n % 2 == 1 ==> CornerSize(n, 0) + CornerSize(n, 1) == n
    ensures forall neg :: neg != 0 ==> CornerSize(n, neg) == CornerSize(n, 1)
  {
  }

  /** Bin `i` of an axis of length `n` lies in the positive-frequency block,
      the first `CornerSize(n, 0)` bins. */
  predicate InPositiveCorner(n: int, i: int)
  {
    0 <= i < CornerSize(n, 0)
  }

  /** Bin `i` of an axis of length `n` lies in the negative-frequency block,
      the last `CornerSize(n, 1)` bins. */
  predicate InNegativeCorner(n: int, i: int)
  {
    n - CornerSize(n, 1) <= i < n
  }

  /** The two corner blocks cover every bin of the axis, and they share a bin
      exactly when `n` is even: the Nyquist bin `n / 2`. (An empty axis has
      no bins to share, yet its positive block still claims one.) */
  lemma CornerBlocksCoverAxis(n: int)
    requires n >= 1
    ensures forall i :: 0 <= i < n ==> InPositiveCorner(n, i) || InNegativeCorner(n, i)
    ensures forall i :: InPositiveCorner(n, i) && InNegativeCorner(n, i) <==> n % 2 == 0 && i == n / 2
  {
    var pos, neg := CornerSize(n, 0), CornerSize(n, 1);
    assert pos == n / 2 + 1 && neg == n / 2;
    assert n - neg <= pos;
    if n % 2 == 0 {
      assert n - neg == n / 2;
    } else {
      assert n - neg == pos;
    }
  }

  /** Two concrete problems: a 4 x 4 x 4 split-product problem, and the corner
      sizes of axes of length 5 and 4. */
  lemma Scenarios()
    ensures var p := PopulateProperties(SplitProduct, 4, 4, 4);
      && p.dims == [4, 4, 4] && p.fineDims == [8, 8, 8]
      && p.strides == [1, 4, 16] && p.fineStrides == [1, 8, 64]
    ensures CornerSize(5, 0) == 3 && CornerSize(5, 1) == 2
    ensures CornerSize(4, 0) == 3 && CornerSize(4, 1) == 2
  {
  }
}
