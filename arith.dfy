/** Small facts about products and quotients that the layout proofs lean on. */
module Arith {

  function Min(a: real, b: real): (m: real)
    ensures m <= a && m <= b && (m == a || m == b)
  {
    if a <= b then a else b
  }

  /** Comparing with a quotient by a positive number is comparing with a product. */
  lemma ScaleByPositive(x: real, y: real, w: real)
    requires w > 0.0
    ensures x <= y / w <==> x * w <= y
    ensures x < y / w <==> x * w < y
    ensures x >= y / w <==> x * w >= y
  {
    assert y / w * w == y;
  }

  lemma DivBounds(x: nat, d: nat)
    requires d > 0
    ensures d * (x / d) <= x < d * (x / d) + d
  {
    assert x == d * (x / d) + x % d;
  }

  lemma BelowOne(w: int, k: int)
    requires w > 0 && w * k < w
    ensures k < 1
  {}

  lemma AtLeastOnce(w: int, k: int)
    requires w > 0 && k >= 1
    ensures w * k >= w
  {}

  /** Converting a product of naturals to real is the product of the conversions. */
  lemma CastProduct(a: nat, b: nat)
    ensures (a * b) as real == a as real * b as real
  {}

  /** Comparing two quotients is comparing the cross products. */
  lemma QuotientTest(W: real, H: real, iw: real, ih: real)
    requires H > 0.0 && ih > 0.0
    ensures W / H > iw / ih <==> W * ih > H * iw
  {
    var q, t := W / H, iw / ih;
    assert q * H == W;
    assert t * ih == iw;
    assert q * H * ih == W * ih;
    assert t * ih * H == iw * H;
    if q > t {
      assert q * (H * ih) > t * (H * ih);
    } else {
      assert q * (H * ih) <= t * (H * ih);
    }
  }

  /** Fitting `iw:ih` into 90% of a `W` by `H` box that is relatively wider: by its height. */
  lemma ShrinkToHeight(W: real, H: real, iw: real, ih: real)
    requires iw > 0.0 && ih > 0.0 && H >= 0.0 && W * ih > H * iw
    ensures var dh := H * 0.9; var dw := dh * (iw / ih);
      0.0 <= dw <= 0.9 * W && dw * ih == dh * iw && (H > 0.0 ==> dw > 0.0)
  {
    var t := iw / ih;
    assert t * ih == iw;
    var dh := H * 0.9;
    var dw := dh * t;
    assert dw * ih == dh * iw;
    assert dw * ih <= 0.9 * W * ih;
  }

  /** Fitting `iw:ih` into 90% of a `W` by `H` box that is not relatively wider: by its width. */
  lemma ShrinkToWidth(W: real, H: real, iw: real, ih: real)
    requires iw > 0.0 && ih > 0.0 && W >= 0.0 && W * ih <= H * iw
    ensures var dw := W * 0.9; var dh := dw / (iw / ih);
      0.0 <= dh <= 0.9 * H && dw * ih == dh * iw && (W > 0.0 ==> dh > 0.0)
  {
    var t := iw / ih;
    assert t * ih == iw;
    var dw := W * 0.9;
    var dh := dw / t;
    assert dh * t == dw;
    assert dw * ih == dh * iw;
    assert dh * iw <= 0.9 * H * iw;
  }

  /** Covering a relatively wider `W` by `H` box with `iw:ih`: by its width. */
  lemma GrowToWidth(W: real, H: real, iw: real, ih: real)
    requires iw > 0.0 && ih > 0.0 && H >= 0.0 && W * ih > H * iw
    ensures var dh := W / (iw / ih);
      dh >= H && W * ih == dh * iw
  {
    var t := iw / ih;
    assert t * ih == iw;
    var dh := W / t;
    assert dh * t == W;
    assert W * ih == dh * iw;
  }

  /** Covering a `W` by `H` box that is not relatively wider with `iw:ih`: by its height. */
  lemma GrowToHeight(W: real, H: real, iw: real, ih: real)
    requires iw > 0.0 && ih > 0.0 && W >= 0.0 && W * ih <= H * iw
    ensures var dw := H * (iw / ih);
      dw >= W && dw * ih == H * iw
  {
    var t := iw / ih;
    assert t * ih == iw;
    var dw := H * t;
    assert dw * ih == H * iw;
  }

  /** Of two sizes in proportion `iw:ih`, a bound `s` on the first carries over to the second. */
  lemma ProportionalBelow(x: real, y: real, iw: real, ih: real, s: real)
    requires iw > 0.0 && ih > 0.0 && x * ih == y * iw && x <= iw * s
    ensures y <= ih * s
  {
    assert y * iw <= ih * s * iw;
  }

  lemma ProportionalAbove(x: real, y: real, iw: real, ih: real, s: real)
    requires iw > 0.0 && ih > 0.0 && x * ih == y * iw && x >= iw * s
    ensures y >= ih * s
  {
    assert y * iw >= ih * s * iw;
  }

  /**
   * A size in proportion `iw:ih` that stays within 90% of `W` by `H` and reaches it on one
   * axis is at least as large as any other such size.
   */
  lemma LargestWithin(rw: real, rh: real, W: real, H: real, iw: real, ih: real, s: real)
    requires iw > 0.0 && ih > 0.0 && rw * ih == rh * iw
    requires rw == 0.9 * W || rh == 0.9 * H
    requires iw * s <= 0.9 * W && ih * s <= 0.9 * H
    ensures rw >= iw * s && rh >= ih * s
  {
    if rw == 0.9 * W {
      ProportionalAbove(rw, rh, iw, ih, s);
    } else {
      ProportionalAbove(rh, rw, ih, iw, s);
    }
  }

  /**
   * A size in proportion `iw:ih` that covers `W` by `H` and meets it on one axis is at most
   * as large as any other such size.
   */
  lemma SmallestCovering(rw: real, rh: real, W: real, H: real, iw: real, ih: real, s: real)
    requires iw > 0.0 && ih > 0.0 && rw * ih == rh * iw
    requires rw == W || rh == H
    requires iw * s >= W && ih * s >= H
    ensures rw <= iw * s && rh <= ih * s
  {
    if rw == W {
      ProportionalBelow(rw, rh, iw, ih, s);
    } else {
      ProportionalBelow(rh, rw, ih, iw, s);
    }
  }
}
