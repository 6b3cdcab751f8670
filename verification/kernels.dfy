/**
 The in-place elementwise multiplication kernels of lib/common.h.

 Both kernels choose between an SSE2 path and a scalar path by testing the
 two buffer addresses for 16-byte alignment. The real kernel is modelled over
 an abstract element type and an abstract multiplication, which is enough to
 show which index each pass updates. The complex kernel is modelled over
 exact reals, which is enough to show that the shuffle-multiply-add sequence
 of the SSE2 path is the complex product; floating-point rounding is not
 modelled. Buffers are sequences; the kernels return the updated `a`.
 */
module Kernels {

  /** `SSE_ALIGN` (`1 << 4`) and `SSE_ALIGN_MASK`. */
  const SseAlign: int := 16
  const SseAlignMask: bv64 := 15

  /** `sizeof(double)`. */
  const SizeOfDouble: int := 8

  /** Doubles per SSE2 register: `SSE_ALIGN / sizeof(double)`. */
  const Lanes: int := SseAlign / SizeOfDouble

  /** The alignment test of both kernels on the two buffer addresses: it holds
      exactly when both addresses are multiples of `SSE_ALIGN`. */
  function BothAligned(a: bv64, b: bv64): (r: bool)
    ensures r <==> a % 16 == 0 && b % 16 == 0
  {
    (b | a) & SseAlignMask == 0
  }

  function Zeros(n: nat): (z: seq<nat>)
    ensures |z| == n && forall k :: 0 <= k < n ==> z[k] == 0
  {
    seq(n, _ => 0)
  }

  /** `2^64`: the values of a `size_t`. */
  const SizeTModulus: int := 0x1_0000_0000_0000_0000

  /** The conversion of a C `int` to `size_t`: a negative value wraps round
      to a huge one. */
  function AsSizeT(n: int): (u: int)
    ensures 0 <= u < SizeTModulus
    ensures 0 <= n < SizeTModulus ==> u == n
    ensures -SizeTModulus <= n < 0 ==> u == n + SizeTModulus
  {
    n % SizeTModulus
  }

  /** The least value of a C `int`. */
  const IntMin: int := -0x8000_0000

  /** The most doubles one buffer can hold in a 64-bit address space. */
  const MaxDoubles: int := SizeTModulus / SizeOfDouble

  /** `pointwise_multiply_real`, on a build with SSE2. `a` and `b` are the
      buffer contents and `pa`, `pb` their addresses. Besides the updated
      buffer it returns `writes`, how many times each index of `a` was
      stored to, and `split`, where the paired pass handed over to the scalar
      tail.

      The paired pass compares `i + SSE_ALIGN / sizeof(double)` with `size`
      as `size_t`, so on aligned buffers a negative `size` does not stop it:
      it walks off the end of the buffers. The model stops there and reports
      `overrun`; every other call updates exactly the indices below `size`.
      The bounds on `size` and on the buffer lengths hold for every C call:
      `size` is an `int`, and a buffer of doubles fits in the address space. */
  method PointwiseMultiplyReal<T>(size: int, a: seq<T>, b: seq<T>, pa: bv64, pb: bv64, mul: (T, T) -> T)
    returns (r: seq<T>, writes: seq<nat>, split: int, overrun: bool)
    requires IntMin <= size <= |a| && size <= |b|
    requires |a| <= MaxDoubles && |b| <= MaxDoubles
    ensures |r| == |a| && |writes| == |a|
    ensures overrun <==> BothAligned(pa, pb) && size < 0
    ensures !overrun ==> forall i :: 0 <= i < size ==> r[i] == mul(a[i], b[i]) && writes[i] == 1
    ensures !overrun ==> forall i :: 0 <= i < |a| && !(0 <= i < size) ==> r[i] == a[i] && writes[i] == 0
    ensures 0 <= split && split % Lanes == 0
    ensures BothAligned(pa, pb) && size >= 0 ==> split == size - size % Lanes
    ensures !BothAligned(pa, pb) ==> split == 0
  {
    r := a;
    writes := Zeros(|a|);
    overrun := false;
    assert Lanes == 2;
    var i := 0;
    var aligned := BothAligned(pa, pb);
    if aligned {
      var bound := AsSizeT(size);
      while i + Lanes <= bound
        invariant 0 <= i <= |a| && i <= |b| && i % Lanes == 0
        invariant size >= 0 ==> bound == size && i <= size
        invariant size < 0 ==> bound == size + SizeTModulus
        invariant |r| == |a| && |writes| == |a|
        invariant forall k :: 0 <= k < i ==> r[k] == mul(a[k], b[k]) && writes[k] == 1
        invariant forall k :: i <= k < |a| ==> r[k] == a[k] && writes[k] == 0
        decreases bound - i
      {
        if i + Lanes > |a| || i + Lanes > |b| {
          overrun := true;
          break;
        }
        // one `_mm_mul_pd` on lanes i and i + 1
        r := r[i := mul(r[i], b[i])][i + 1 := mul(r[i + 1], b[i + 1])];
        writes := writes[i := writes[i] + 1][i + 1 := writes[i + 1] + 1];
        i := i + Lanes;
      }
    }
    split := i;
    while i < size
      invariant split <= i <= |a| && i <= |b| && (i == split || i <= size)
      invariant |r| == |a| && |writes| == |a|
      invariant forall k :: 0 <= k < i ==> r[k] == mul(a[k], b[k]) && writes[k] == 1
      invariant forall k :: i <= k < |a| ==> r[k] == a[k] && writes[k] == 0
    {
      r := r[i := mul(r[i], b[i])];
      writes := writes[i := writes[i] + 1];
      i := i + 1;
    }
  }

  /** A double-precision complex number. */
  datatype Complex = Complex(re: real, im: real)

  /** The complex product, as the scalar path's `a[i] *= b[i]` computes it. */
  function Mul(x: Complex, y: Complex): Complex
  {
    Complex(x.re * y.re - x.im * y.im, x.re * y.im + x.im * y.re)
  }

  /** An SSE2 register of two doubles, lane 0 first. */
  datatype Vec2 = Vec2(lo: real, hi: real)

  function VecMul(x: Vec2, y: Vec2): Vec2 { Vec2(x.lo * y.lo, x.hi * y.hi) }

  function VecAdd(x: Vec2, y: Vec2): Vec2 { Vec2(x.lo + y.lo, x.hi + y.hi) }

  /** `_mm_shuffle_pd(x, y, imm)`: bit 0 of `imm` picks the lane of `x` for the
      low result lane, bit 1 picks the lane of `y` for the high one. */
  function Shuffle(x: Vec2, y: Vec2, imm: bv2): Vec2
  {
    Vec2(if imm & 1 == 0 then x.lo else x.hi, if imm & 2 == 0 then y.lo else y.hi)
  }

  /** One iteration of the SSE2 loop of `pointwise_multiply_complex`, step by
      step; the result is the value stored back to `a + i`. */
  function SseComplexStep(a: Complex, b: Complex): Vec2
  {
    var neg := Vec2(-1.0, 1.0);
    var aVec := Vec2(a.re, a.im);
    var bVec := Vec2(b.re, b.im);
    var aImag := Shuffle(aVec, aVec, 3);
    var aReal := Shuffle(aVec, aVec, 0);
    var res := VecMul(bVec, aReal);
    var bSwap := Shuffle(bVec, bVec, 1);
    var bNeg := VecMul(bSwap, neg);
    var bScaled := VecMul(bNeg, aImag);
    VecAdd(res, bScaled)
  }

  /** In exact arithmetic the SSE2 sequence computes the complex product. */
  lemma SseComplexStepIsProduct(a: Complex, b: Complex)
    ensures SseComplexStep(a, b) == Vec2(Mul(a, b).re, Mul(a, b).im)
  {
    assert b.im * -1.0 * a.im == -(a.im * b.im);
    assert b.re * 1.0 * a.im == a.im * b.re;
  }

  /** `pointwise_multiply_complex`, on a build with SSE2: whichever path the
      alignment test picks, every index below `size` ends up holding the
      complex product and every other index is left alone. */
  method PointwiseMultiplyComplex(size: int, a: seq<Complex>, b: seq<Complex>, pa: bv64, pb: bv64)
    returns (r: seq<Complex>)
    requires size <= |a| && size <= |b|
    ensures |r| == |a|
    ensures forall i :: 0 <= i < size ==> r[i] == Mul(a[i], b[i])
    ensures forall i :: 0 <= i < |a| && !(0 <= i < size) ==> r[i] == a[i]
  {
    r := a;
    var i := 0;
    if BothAligned(pb, pa) {
      while i < size
        invariant 0 <= i && (i == 0 || i <= size)
        invariant |r| == |a|
        invariant forall k :: 0 <= k < i ==> r[k] == Mul(a[k], b[k])
        invariant forall k :: i <= k < |a| ==> r[k] == a[k]
      {
        var v := SseComplexStep(r[i], b[i]);
        SseComplexStepIsProduct(r[i], b[i]);
        r := r[i := Complex(v.lo, v.hi)];
        i := i + 1;
      }
    } else {
      while i < size
        invariant 0 <= i && (i == 0 || i <= size)
        invariant |r| == |a|
        invariant forall k :: 0 <= k < i ==> r[k] == Mul(a[k], b[k])
        invariant forall k :: i <= k < |a| ==> r[k] == a[k]
      {
        r := r[i := Mul(r[i], b[i])];
        i := i + 1;
      }
    }
  }
}
