/** The log-linear bucket arithmetic of include/latency_histogram.h: an exponent and
    sixteen sub-buckets, with uneven widths at exponents 0 to 3 and at 63. */
module Buckets {
  import opened Types

  function Pow2(e: nat): (p: nat)
    ensures p > 0
  {
    if e == 0 then 1 else 2 * Pow2(e - 1)
  }

  /** `63 - __builtin_clzll(v)`: position of the highest set bit. */
  function Log2(v: nat): nat
    requires v > 0
  {
    if v == 1 then 0 else 1 + Log2(v / 2)
  }

  /** `off / width` and `sub * width`. */
  function Slice(off: nat, w: nat): nat
    requires w > 0
  {
    off / w
  }

  function Span(s: nat, w: nat): nat {
    s * w
  }

  function Width(exp: nat): (w: nat)
    ensures w > 0
  {
    var base := Pow2(exp);
    var next := if exp == 63 then MAX_U64 else 2 * base;
    var w := if next > base then (next - base) / 16 else 1;
    if w == 0 then 1 else w
  }

  function IndexFor(v: nat): nat {
    if v == 0 then 0
    else
      var exp := if Log2(v) > 63 then 63 else Log2(v);
      var off := if v <= Pow2(exp) then 0 else v - Pow2(exp);
      var sub := Slice(off, Width(exp));
      exp * 16 + if sub >= 16 then 15 else sub
  }

  function BucketLower(idx: int): nat {
    if idx <= 0 then 0
    else
      var exp := if idx / 16 > 63 then 63 else idx / 16;
      Pow2(exp) + Span(idx % 16, Width(exp))
  }

  // -------------------------------------------------------------- division

  lemma {:induction false} SliceBounds(a: nat, w: nat)
    requires w > 0
    ensures Span(Slice(a, w), w) <= a < Span(Slice(a, w), w) + w
  {
  }

  lemma {:induction false} SpanMono(a: nat, b: nat, w: nat)
    requires a <= b
    ensures Span(a, w) <= Span(b, w)
    decreases b
  {
    if a < b {
      SpanMono(a, b - 1, w);
      assert Span(b, w) == Span(b - 1, w) + w;
    }
  }

  lemma {:induction false} SliceOfSpan(s: nat, w: nat)
    requires w > 0
    ensures Slice(Span(s, w), w) == s
  {
    SliceBounds(Span(s, w), w);
    var q := Slice(Span(s, w), w);
    assert Span(q + 1, w) == Span(q, w) + w && Span(s + 1, w) == Span(s, w) + w;
    hide Slice, Span;
    if q < s {
      SpanMono(q + 1, s, w);
    } else if q > s {
      SpanMono(s + 1, q, w);
    }
  }

  lemma {:induction false} SliceMono(a: nat, b: nat, w: nat)
    requires a <= b && w > 0
    ensures Slice(a, w) <= Slice(b, w)
  {
    SliceBounds(a, w);
    SliceBounds(b, w);
    var p, q := Slice(a, w), Slice(b, w);
    assert Span(q + 1, w) == Span(q, w) + w;
    if p > q {
      SpanMono(q + 1, p, w);
      hide Slice, Span;
      assert false;
    }
  }

  // ---------------------------------------------------------------- powers

  lemma {:induction false} Log2Bounds(v: nat)
    requires v > 0
    ensures Pow2(Log2(v)) <= v < 2 * Pow2(Log2(v))
  {
    if v > 1 {
      Log2Bounds(v / 2);
    }
  }

  lemma {:induction false} Pow2Mono(a: nat, b: nat)
    requires a <= b
    ensures Pow2(a) <= Pow2(b)
    decreases b
  {
    if a < b {
      Pow2Mono(a, b - 1);
    }
  }

  lemma {:induction false} Log2Unique(v: nat, e: nat)
    requires Pow2(e) <= v < 2 * Pow2(e)
    ensures v > 0 && Log2(v) == e
  {
    if e > 0 {
      Log2Unique(v / 2, e - 1);
    }
  }

  lemma {:induction false} Log2Mono(v: nat, w: nat)
    requires 0 < v <= w
    ensures Log2(v) <= Log2(w)
  {
    if v > 1 {
      Log2Mono(v / 2, w / 2);
    }
  }

  lemma {:induction false} Pow2Step8(e: nat)
    ensures Pow2(e + 8) == 256 * Pow2(e)
  {
    assert Pow2(e + 8) == 2 * Pow2(e + 7) == 4 * Pow2(e + 6) == 8 * Pow2(e + 5) == 16 * Pow2(e + 4);
    assert Pow2(e + 4) == 2 * Pow2(e + 3) == 4 * Pow2(e + 2) == 8 * Pow2(e + 1) == 16 * Pow2(e);
  }

  lemma {:induction false} TopPower()
    ensures Pow2(63) == 0x8000_0000_0000_0000 && Pow2(64) == MAX_U64 + 1
  {
    Pow2Step8(0);
    Pow2Step8(8);
    Pow2Step8(16);
    Pow2Step8(24);
    Pow2Step8(32);
    Pow2Step8(40);
    Pow2Step8(48);
    Pow2Step8(56);
    assert Pow2(64) == 2 * Pow2(63);
  }

  lemma {:induction false} Log2Range(v: nat)
    requires 0 < v <= MAX_U64
    ensures Log2(v) <= 63
  {
    TopPower();
    Log2Mono(v, MAX_U64);
    Log2Unique(MAX_U64, 63);
  }

  // ---------------------------------------------------------------- widths

  lemma {:induction false} WidthIs(exp: nat)
    requires exp <= 63
    ensures exp < 4 ==> Width(exp) == 1 && Pow2(exp) <= 8
    ensures 4 <= exp < 63 ==> Pow2(exp) == 16 * Width(exp)
    ensures exp == 63 ==> Width(exp) == 0x7FF_FFFF_FFFF_FFFF && Pow2(exp) == 16 * Width(exp) + 16
  {
    if exp == 63 {
      TopPower();
    } else if 4 <= exp {
      assert Pow2(exp) == 2 * Pow2(exp - 1) == 4 * Pow2(exp - 2) == 8 * Pow2(exp - 3) == 16 * Pow2(exp - 4);
    } else {
      assert exp == 0 || exp == 1 || exp == 2 || exp == 3;
    }
  }

  /** Position of a value within its exponent. */
  function Sub(v: nat): (s: nat)
    requires v > 0 && Pow2(Log2(v)) <= v
    ensures s <= 15
  {
    var s := Slice(v - Pow2(Log2(v)), Width(Log2(v)));
    if s >= 16 then 15 else s
  }

  /** A value lies in its sub-bucket; only the last one of exponent 63 is longer. */
  lemma {:induction false} SubBounds(v: nat)
    requires 0 < v <= MAX_U64
    ensures var e := Log2(v);
            && Pow2(e) <= v < 2 * Pow2(e) && e <= 63
            && Span(Sub(v), Width(e)) <= v - Pow2(e)
            && (v - Pow2(e) < Span(Sub(v), Width(e)) + Width(e) || (e == 63 && Sub(v) == 15))
  {
    Log2Range(v);
    Log2Bounds(v);
    var e := Log2(v);
    var off, w := v - Pow2(e), Width(e);
    WidthIs(e);
    SliceBounds(off, w);
    assert Span(16, w) == 16 * w && Span(15, w) == 15 * w;
    if Slice(off, w) >= 16 {
      SpanMono(16, Slice(off, w), w);
    }
    hide Width, Log2, Span, Slice, Pow2;
  }

  lemma {:induction false} IndexIs(v: nat)
    requires 0 < v <= MAX_U64
    ensures Log2(v) <= 63 && Pow2(Log2(v)) <= v && IndexFor(v) == Log2(v) * 16 + Sub(v)
  {
    hide Width, Log2, Slice, Pow2;
    Log2Range(v);
    Log2Bounds(v);
  }

  lemma {:induction false} LowerOf(e: nat, s: nat)
    requires e <= 63 && s <= 15
    ensures BucketLower(e * 16 + s) == if e + s == 0 then 0 else Pow2(e) + Span(s, Width(e))
  {
    hide Width, Span, Pow2;
    assert (e * 16 + s) / 16 == e && (e * 16 + s) % 16 == s;
  }

  /** The index of a value given by its exponent and sub-bucket. */
  lemma {:induction false} IndexOfPair(e: nat, s: nat)
    requires e <= 63 && s <= 15 && Span(s, Width(e)) < Pow2(e)
    ensures var r := Pow2(e) + Span(s, Width(e)); 0 < r <= MAX_U64 && IndexFor(r) == e * 16 + s
  {
    var r := Pow2(e) + Span(s, Width(e));
    TopPower();
    Pow2Mono(e, 63);
    Log2Unique(r, e);
    SliceOfSpan(s, Width(e));
    hide Width, Log2, Span, Slice, Pow2;
    assert Sub(r) == s;
    IndexIs(r);
  }

  // -------------------------------------------------------------- theorems

  lemma {:induction false} IndexInRange(v: nat)
    requires v <= MAX_U64
    ensures IndexFor(v) <= 1023
  {
    if v > 0 {
      IndexIs(v);
    }
    hide Width, Log2, Slice, Pow2;
  }

  lemma {:induction false} LowerOfIndex(v: nat)
    requires 2 <= v <= MAX_U64 && Pow2(Log2(v)) <= v
    ensures BucketLower(IndexFor(v)) == Pow2(Log2(v)) + Span(Sub(v), Width(Log2(v)))
  {
    assert Log2(v) > 0;
    hide Width, Log2, Slice, Span, Pow2, IndexFor, BucketLower;
    IndexIs(v);
    LowerOf(Log2(v), Sub(v));
  }

  /** The representative never exceeds the sample, and is within a sixteenth of it unless
      the sample is 1. */
  lemma {:induction false} LowerAccuracy(v: nat)
    requires v <= MAX_U64
    ensures BucketLower(IndexFor(v)) <= v
    ensures 16 * (v - BucketLower(IndexFor(v))) <= v <==> v != 1
  {
    BucketZero();
    if v >= 2 {
      hide Width, Log2, Slice, Pow2, IndexFor, BucketLower, Sub;
      SubBounds(v);
      LowerOfIndex(v);
      WidthIs(Log2(v));
      assert Span(15, Width(Log2(v))) == 15 * Width(Log2(v));
      hide Span;
    }
  }

  /** Bucket 0 holds two values, 0 and 1, and stands for 0. */
  lemma {:induction false} BucketZero()
    ensures IndexFor(0) == IndexFor(1) == 0 == BucketLower(0)
  {
  }

  /** The failing sample in terms of the guard that returns 0 for bucket 0: the bound holds
      if and only if the bucket is another one or the sample is 0. */
  lemma {:induction false} AccuracyByBucket(v: nat)
    requires v <= MAX_U64
    ensures 16 * (v - BucketLower(IndexFor(v))) <= v <==> IndexFor(v) > 0 || v == 0
  {
    LowerAccuracy(v);
    BucketZero();
    hide IndexFor, BucketLower;
    if v >= 2 {
      PositiveIndex(v);
    }
  }

  lemma {:induction false} PositiveIndex(v: nat)
    requires 2 <= v <= MAX_U64
    ensures IndexFor(v) > 0
  {
    assert Log2(v) > 0;
    hide IndexFor, Log2, Width, Pow2, Slice;
    IndexIs(v);
  }

  /** Indexing a representative again finds the same bucket. */
  lemma {:induction false} Reindex(v: nat)
    requires v <= MAX_U64
    ensures IndexFor(BucketLower(IndexFor(v))) == IndexFor(v)
  {
    assert v < 2 ==> IndexFor(v) == 0 && BucketLower(0) == 0;
    assert IndexFor(0) == 0;
    hide Width, Log2, Slice, Span, Pow2, IndexFor, BucketLower, Sub;
    if v >= 2 {
      SubBounds(v);
      LowerOfIndex(v);
      IndexIs(v);
      IndexOfPair(Log2(v), Sub(v));
    }
  }

  lemma {:induction false} SubMonotone(v: nat, w: nat)
    requires 0 < v <= w && Log2(v) == Log2(w) && Pow2(Log2(v)) <= v
    ensures Sub(v) <= Sub(w)
  {
    hide Width, Log2, Pow2, Slice;
    SliceMono(v - Pow2(Log2(v)), w - Pow2(Log2(v)), Width(Log2(v)));
  }

  lemma {:induction false} IndexMonotone(v: nat, w: nat)
    requires v <= w <= MAX_U64
    ensures IndexFor(v) <= IndexFor(w)
  {
    if v > 0 {
      IndexIs(v);
      IndexIs(w);
      Log2Mono(v, w);
      hide Width, Log2, IndexFor, Pow2, Slice;
      if Log2(v) == Log2(w) {
        SubMonotone(v, w);
      }
      hide Sub;
    }
  }

  /** Indices some sample maps to: below exponent 4 an octave has fewer than 16 values. */
  predicate Used(idx: nat) {
    idx <= 1023 && idx % 16 < Pow2(idx / 16)
  }

  lemma {:induction false} UsedReached(idx: nat)
    requires Used(idx)
    ensures BucketLower(idx) <= MAX_U64 && IndexFor(BucketLower(idx)) == idx
  {
    if idx > 0 {
      var e, s := idx / 16, idx % 16;
      WidthIs(e);
      LowerOf(e, s);
      SpanMono(s, 15, Width(e));
      assert Span(15, Width(e)) == 15 * Width(e) && (Width(e) == 1 ==> Span(s, Width(e)) == s);
      hide Width, Log2, Slice, Span, Pow2, IndexFor, BucketLower;
      IndexOfPair(e, s);
    }
  }

  /** Exactly the used indices occur. */
  lemma {:induction false} UsedExactly(idx: nat)
    ensures Used(idx) <==> exists v :: 0 <= v <= MAX_U64 && IndexFor(v) == idx
  {
    if Used(idx) {
      UsedReached(idx);
    }
    hide Log2, BucketLower, IndexFor;
    forall v | 0 <= v <= MAX_U64 && IndexFor(v) == idx ensures Used(idx) {
      OnlyUsed(v);
    }
  }

  lemma {:induction false} OnlyUsed(v: nat)
    requires v <= MAX_U64
    ensures Used(IndexFor(v))
  {
    if v > 0 {
      IndexIs(v);
      SubBounds(v);
      WidthIs(Log2(v));
      var e, s := Log2(v), Sub(v);
      assert Width(e) == 1 ==> Span(s, Width(e)) == s;
      hide Width, Log2, Slice, Span, IndexFor, Pow2, Sub;
      assert (e * 16 + s) / 16 == e && (e * 16 + s) % 16 == s;
    }
  }

  /** On used indices the representatives grow strictly; on unused ones they need not. */
  lemma {:induction false} LowerMonotoneOnUsed(i: nat, j: nat)
    requires Used(i) && Used(j) && i < j
    ensures BucketLower(i) < BucketLower(j)
  {
    UsedReached(i);
    UsedReached(j);
    hide Used, BucketLower, IndexFor;
    if BucketLower(j) <= BucketLower(i) {
      IndexMonotone(BucketLower(j), BucketLower(i));
    }
  }

  /** Where monotonicity fails: a used index lies below all later used ones, an unused one
      does not. */
  lemma {:induction false} LowerMonotoneExactly(i: nat)
    requires i <= 1023
    ensures Used(i) <==> forall j: nat :: Used(j) && i < j ==> BucketLower(i) < BucketLower(j)
  {
    if Used(i) {
      hide BucketLower, Used;
      forall j: nat | Used(j) && i < j ensures BucketLower(i) < BucketLower(j) {
        LowerMonotoneOnUsed(i, j);
      }
    } else {
      UnusedTooHigh(i);
    }
  }

  lemma {:induction false} UnusedOctave(e: nat, s: nat)
    requires e <= 63 && s <= 15 && s >= Pow2(e)
    ensures e < 4 && Pow2(e + 1) == 2 * Pow2(e)
    ensures BucketLower(16 * e + s) == Pow2(e) + s && BucketLower(16 * (e + 1)) == Pow2(e + 1)
  {
    assert Pow2(e + 1) == 2 * Pow2(e);
    hide Pow2, Width, BucketLower;
    WidthIs(e);
    assert Span(s, 1) == s && Span(0, Width(e + 1)) == 0;
    hide Span;
    LowerOf(e, s);
    LowerOf(e + 1, 0);
  }

  lemma {:induction false} UnusedTooHigh(i: nat)
    requires i <= 1023 && !Used(i)
    ensures var j := 16 * (i / 16 + 1); i < j && Used(j) && BucketLower(j) <= BucketLower(i)
  {
    hide Pow2, BucketLower;
    UnusedOctave(i / 16, i % 16);
    assert i == 16 * (i / 16) + i % 16;
  }

  lemma {:induction false} LowerNotMonotone()
    ensures BucketLower(15) == 16 && BucketLower(16) == 2 && !Used(15)
  {
    LowerOf(0, 15);
    LowerOf(1, 0);
  }
}
