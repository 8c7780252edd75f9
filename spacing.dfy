/** The equal-spacing law shared by muntins ("petits bois") and glazing bars ("traverses"):
    `count` bars over a span divide it into `count + 1` equal gaps, and bar `k` (from 0) sits
    at `start + span / (count + 1) * (k + 1)`. */
module Spacing {

  /** The gap between two neighbouring bars (`espaceX` / `espaceY` in the renderers). */
  function Gap(span: real, count: nat): (g: real)
    ensures g * (count + 1) as real == span
  {
    span / (count + 1) as real
  }

  lemma MulMonotone(g: real, a: real, b: real)
    requires g >= 0.0 && a <= b
    ensures g * a <= g * b
  {
    assert g * b - g * a == g * (b - a);
  }

  /** Bar `j` of `n - 1` (counting from 1) lies between the first and the last gap of a span
      of `n` gaps of `g`, on the side of 0 the span is on. */
  lemma GapMultiple(span: real, n: real, j: real, g: real)
    requires 1.0 <= j && j + 1.0 <= n && g * n == span
    ensures span > 0.0 ==> 0.0 < g <= g * j <= span - g < span
    ensures span == 0.0 ==> g * j == 0.0 && g == 0.0
    ensures span < 0.0 ==> span < span - g <= g * j <= g < 0.0
  {
    assert g * (n - 1.0) == span - g;
    if g >= 0.0 {
      MulMonotone(g, 1.0, j);
      MulMonotone(g, j, n - 1.0);
      MulMonotone(g, 0.0, n);
      if g == 0.0 {
        assert g * j == 0.0;
      }
    } else {
      MulMonotone(-g, 1.0, j);
      MulMonotone(-g, j, n - 1.0);
      MulMonotone(-g, 1.0, n);
      assert (-g) * j == -(g * j) && (-g) * (n - 1.0) == -(g * (n - 1.0)) && (-g) * n == -span;
    }
  }

  function BarCenter(start: real, span: real, count: nat, k: nat): (c: real)
    requires k < count
    ensures span > 0.0 ==> start < c < start + span
    ensures span == 0.0 ==> c == start
    ensures span < 0.0 ==> start + span < c < start
    ensures span >= 0.0 ==> start + Gap(span, count) <= c <= start + span - Gap(span, count)
  {
    var g := Gap(span, count);
    GapMultiple(span, (count + 1) as real, (k + 1) as real, g);
    start + g * (k + 1) as real
  }

  /** Neighbouring bars are exactly one gap apart. */
  lemma BarStep(start: real, span: real, count: nat, k: nat)
    requires k + 1 < count
    ensures BarCenter(start, span, count, k + 1) - BarCenter(start, span, count, k) == Gap(span, count)
  {
    var g := Gap(span, count);
    assert g * (k + 2) as real == g * (k + 1) as real + g;
  }

  /** Bar `k` is as far from the start of the span as bar `count - 1 - k` is from its end. */
  lemma BarMirror(start: real, span: real, count: nat, k: nat)
    requires k < count
    ensures BarCenter(start, span, count, k) - start
         == start + span - BarCenter(start, span, count, count - 1 - k)
  {
    var g := Gap(span, count);
    assert g * (k + 1) as real + g * (count - k) as real == g * (count + 1) as real;
  }

  /** With a positive span, the bars are in strictly increasing order. */
  lemma {:induction false} BarsIncreasing(start: real, span: real, count: nat, i: nat, j: nat)
    requires span > 0.0 && i < j < count
    ensures BarCenter(start, span, count, i) < BarCenter(start, span, count, j)
    decreases j - i
  {
    BarStep(start, span, count, j - 1);
    if i < j - 1 {
      BarsIncreasing(start, span, count, i, j - 1);
    }
  }

  /** The centres of all `count` bars, in order (`[...Array(count)].map((_, i) => ...)`). */
  function BarCenters(start: real, span: real, count: nat): (cs: seq<real>)
    ensures |cs| == count
    ensures forall k :: 0 <= k < count ==> cs[k] == BarCenter(start, span, count, k)
  {
    seq(count, k requires 0 <= k < count => BarCenter(start, span, count, k))
  }
}
