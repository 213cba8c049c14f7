/**
 * The layout arithmetic shared by the preview and the export: the cover fit of the blurred
 * background, the contain fit of the sharp foreground and its corner radius
 * (main.js:98-110, main.js:143-156; repeated at main.js:196-208, main.js:238-249).
 * Coordinates are exact reals; the export rectangle is `ew` by `eh` logical pixels.
 */
module Geometry {
  import opened Arith

  /** A decoded image: only its natural size matters to the layout. */
  datatype Image = Image(width: nat, height: nat) {
    predicate Decoded() {
      width > 0 && height > 0
    }
  }

  /** Where and how large an image is drawn: `drawImage(img, x, y, w, h)`. */
  datatype Rect = Rect(x: real, y: real, w: real, h: real)

  /** `uploadedImage.width / uploadedImage.height`. */
  function Ratio(img: Image): real
    requires img.Decoded()
  {
    img.width as real / img.height as real
  }

  /**
   * The branch test `exportWidth / exportHeight > ratio`, by cross-multiplication. For a zero
   * export height JavaScript divides to Infinity, which also exceeds every ratio.
   */
  predicate TargetWider(ew: nat, eh: nat, img: Image) {
    ew * img.height > eh * img.width
  }

  /** For a rectangle with rows, the cross-multiplied test is the source's quotient test. */
  lemma TargetWiderIsRatioTest(ew: nat, eh: nat, img: Image)
    requires img.Decoded() && eh > 0
    ensures TargetWider(ew, eh, img) <==> ew as real / eh as real > Ratio(img)
  {
    CastProduct(ew, img.height);
    CastProduct(eh, img.width);
    QuotientTest(ew as real, eh as real, img.width as real, img.height as real);
  }

  /** Background placement: scaled to cover the whole rectangle, centred, cropped on one axis. */
  function Cover(ew: nat, eh: nat, img: Image): Rect
    requires img.Decoded()
  {
    var ratio := Ratio(img);
    if TargetWider(ew, eh, img) then
      var dh := ew as real / ratio;
      Rect(0.0, (eh as real - dh) / 2.0, ew as real, dh)
    else
      var dw := eh as real * ratio;
      Rect((ew as real - dw) / 2.0, 0.0, dw, eh as real)
  }

  /** Foreground placement: scaled to fit inside 90% of the rectangle, centred, uncropped. */
  function Contain(ew: nat, eh: nat, img: Image): Rect
    requires img.Decoded()
  {
    var ratio := Ratio(img);
    var size := if TargetWider(ew, eh, img)
      then var dh := eh as real * 0.9; (dh * ratio, dh)
      else var dw := ew as real * 0.9; (dw, dw / ratio);
    Rect((ew as real - size.0) / 2.0, (eh as real - size.1) / 2.0, size.0, size.1)
  }

  /** The clip radius: 4% of the foreground's shorter side. */
  function CornerRadius(fg: Rect): real {
    Min(fg.w, fg.h) * 0.04
  }

  /** `w` by `h` has the image's proportions. */
  predicate SameShape(w: real, h: real, img: Image) {
    w * img.height as real == h * img.width as real
  }

  /** The background covers the rectangle, touches it on one axis and keeps the image's shape. */
  lemma CoverCovers(ew: nat, eh: nat, img: Image)
    requires img.Decoded()
    ensures var r := Cover(ew, eh, img);
      && r.w >= ew as real && r.h >= eh as real
      && (r.w == ew as real || r.h == eh as real)
      && SameShape(r.w, r.h, img)
  {
    var W, H, iw, ih := ew as real, eh as real, img.width as real, img.height as real;
    CastProduct(ew, img.height);
    CastProduct(eh, img.width);
    if TargetWider(ew, eh, img) {
      GrowToWidth(W, H, iw, ih);
    } else {
      GrowToHeight(W, H, iw, ih);
    }
  }

  /** The background is centred: it overhangs both edges of each axis by the same amount. */
  lemma CoverCentred(ew: nat, eh: nat, img: Image)
    requires img.Decoded()
    ensures var r := Cover(ew, eh, img);
      && 2.0 * r.x + r.w == ew as real && 2.0 * r.y + r.h == eh as real
      && r.x <= 0.0 && r.y <= 0.0
  {
    CoverCovers(ew, eh, img);
  }

  /** No smaller copy of the image with the same proportions covers the rectangle. */
  lemma CoverIsSmallestCover(ew: nat, eh: nat, img: Image, s: real)
    requires img.Decoded()
    requires img.width as real * s >= ew as real && img.height as real * s >= eh as real
    ensures Cover(ew, eh, img).w <= img.width as real * s
    ensures Cover(ew, eh, img).h <= img.height as real * s
  {
    var r := Cover(ew, eh, img);
    CoverCovers(ew, eh, img);
    SmallestCovering(r.w, r.h, ew as real, eh as real, img.width as real, img.height as real, s);
  }

  /** The foreground fills 90% of the constrained axis, stays within 90% of the other, keeps the image's shape. */
  lemma ContainFits(ew: nat, eh: nat, img: Image)
    requires img.Decoded()
    ensures var r := Contain(ew, eh, img);
      && 0.0 <= r.w <= 0.9 * ew as real && 0.0 <= r.h <= 0.9 * eh as real
      && (r.w == 0.9 * ew as real || r.h == 0.9 * eh as real)
      && SameShape(r.w, r.h, img)
      && (ew > 0 && eh > 0 ==> r.w > 0.0 && r.h > 0.0)
  {
    var W, H, iw, ih := ew as real, eh as real, img.width as real, img.height as real;
    CastProduct(ew, img.height);
    CastProduct(eh, img.width);
    if TargetWider(ew, eh, img) {
      ShrinkToHeight(W, H, iw, ih);
    } else {
      ShrinkToWidth(W, H, iw, ih);
    }
  }

  /** The foreground is centred, leaving at least a 5% margin on every side. */
  lemma ContainCentred(ew: nat, eh: nat, img: Image)
    requires img.Decoded()
    ensures var r := Contain(ew, eh, img);
      && 2.0 * r.x + r.w == ew as real && 2.0 * r.y + r.h == eh as real
      && r.x >= 0.05 * ew as real && r.y >= 0.05 * eh as real
  {
    ContainFits(ew, eh, img);
  }

  /** No larger copy of the image with the same proportions fits inside 90% of the rectangle. */
  lemma ContainIsLargestFit(ew: nat, eh: nat, img: Image, s: real)
    requires img.Decoded()
    requires img.width as real * s <= 0.9 * ew as real && img.height as real * s <= 0.9 * eh as real
    ensures Contain(ew, eh, img).w >= img.width as real * s
    ensures Contain(ew, eh, img).h >= img.height as real * s
  {
    var r := Contain(ew, eh, img);
    ContainFits(ew, eh, img);
    LargestWithin(r.w, r.h, ew as real, eh as real, img.width as real, img.height as real, s);
  }

  /**
   * The radius is a 25th of the shorter side: never more than half of either side, so the
   * four corners never overlap, and positive whenever the foreground is.
   */
  lemma RadiusOfShorterSide(fg: Rect)
    requires fg.w >= 0.0 && fg.h >= 0.0
    ensures var r := CornerRadius(fg);
      && 25.0 * r <= fg.w && 25.0 * r <= fg.h
      && (25.0 * r == fg.w || 25.0 * r == fg.h)
      && 0.0 <= r && 2.0 * r <= fg.w && 2.0 * r <= fg.h
      && (fg.w > 0.0 && fg.h > 0.0 ==> r > 0.0)
  {}
}
