/**
 * One rendering of the card, as `drawCanvas` (main.js:83-162) and `handleDownload`
 * (main.js:182-255) both perform it: the export size from the ratio, a blurred cover-fit
 * background, and a contain-fit foreground clipped to a rounded rectangle on top.
 */
module Card {
  import opened Options
  import opened AspectRatio
  import opened Geometry
  import opened RoundedPath

  /** What the browser offers for blurring: `'filter' in ctx`, else `window.StackBlur`, else nothing. */
  datatype BlurSupport = CanvasFilter | StackBlurLibrary | NoBlur

  /** The blur applied to the background layer. */
  datatype Blur = FilterBlur(px: nat) | StackBlurPass(radius: nat) | Unblurred

  /** `ctx.filter = 'blur(80px)'`. */
  const FilterBlurPx: nat := 80

  /**
   * The blur strategy: the native filter when the context has one; otherwise StackBlur on an
   * off-screen canvas with twice the radius; otherwise, with no library loaded, none.
   */
  function BackgroundBlur(env: BlurSupport): (b: Blur)
    ensures b.FilterBlur? <==> env.CanvasFilter?
    ensures b.StackBlurPass? <==> env.StackBlurLibrary?
    ensures b.FilterBlur? ==> b.px == 80
    ensures b.StackBlurPass? ==> b.radius == 2 * FilterBlurPx == 160
  {
    match env
    case CanvasFilter => FilterBlur(FilterBlurPx)
    case StackBlurLibrary => StackBlurPass(2 * FilterBlurPx)
    case NoBlur => Unblurred
  }

  /** Everything one rendering decides: canvas size, both layers' placement, blur, clip. */
  datatype Picture = Picture(
    width: nat,
    height: nat,
    background: Rect,
    blur: Blur,
    foreground: Rect,
    radius: real,
    clip: seq<PathCmd>)

  /** The composition of `img` at ratio `a`, background first, foreground on top. */
  function Compose(img: Image, a: Aspect, env: BlurSupport): Picture
    requires img.Decoded() && a.w > 0
  {
    var ew, eh := ExportWidth, ExportHeight(a);
    var fg := Contain(ew, eh, img);
    var r := CornerRadius(fg);
    Picture(ew, eh, Cover(ew, eh, img), BackgroundBlur(env), fg, r,
            RoundedRect(fg.x, fg.y, fg.w, fg.h, r))
  }

  /** `a` lies inside `b`. */
  predicate Within(a: Rect, b: Rect) {
    b.x <= a.x && a.x + a.w <= b.x + b.w && b.y <= a.y && a.y + a.h <= b.y + b.h
  }

  /**
   * The layers of a card: the canvas is 1200 wide and as tall as the rounded ratio; the
   * background reaches or overhangs every edge of it; the foreground sits inside it with at least a
   * 5% margin all round (so also inside the background); the clip outline never leaves the
   * foreground, and is non-degenerate whenever the canvas has rows.
   */
  lemma ComposeLayers(img: Image, a: Aspect, env: BlurSupport)
    requires img.Decoded() && a.w > 0
    ensures var p := Compose(img, a, env);
      var canvas := Rect(0.0, 0.0, p.width as real, p.height as real);
      && p.width == 1200
      && p.height as real - 0.5 <= ExactHeight(a) < p.height as real + 0.5
      && Within(canvas, p.background)
      && Within(p.foreground, canvas) && Within(p.foreground, p.background)
      && p.foreground.x >= 0.05 * p.width as real && p.foreground.y >= 0.05 * p.height as real
      && RadiusFits(p.foreground.w, p.foreground.h, p.radius)
      && (forall k, j :: 0 <= k < |p.clip| && 0 <= j < |Points(p.clip[k])| ==>
            OnBorder(Points(p.clip[k])[j], p.foreground.x, p.foreground.y, p.foreground.w, p.foreground.h))
      && (p.height > 0 ==> p.radius > 0.0)
  {
    var p := Compose(img, a, env);
    ExportHeightRounds(a, p.height);
    CoverCentred(p.width, p.height, img);
    CoverCovers(p.width, p.height, img);
    ContainFits(p.width, p.height, img);
    ContainCentred(p.width, p.height, img);
    RadiusOfShorterSide(p.foreground);
    RoundedRectOnBorder(p.foreground.x, p.foreground.y, p.foreground.w, p.foreground.h, p.radius);
  }

  /**
   * The filter branch and the StackBlur branch compute the same geometry
   * (main.js:98-110 and main.js:121-133): only the blur differs.
   */
  lemma GeometryIndependentOfBlur(img: Image, a: Aspect, e1: BlurSupport, e2: BlurSupport)
    requires img.Decoded() && a.w > 0
    ensures var p, q := Compose(img, a, e1), Compose(img, a, e2);
      p.(blur := q.blur) == q
  {}

  /** A 400x400 photo on a 1:1 card. */
  lemma SquareOnSquare(env: BlurSupport)
    ensures Parse("1:1") == Some(Aspect(1, 1))
    ensures var p := Compose(Image(400, 400), Aspect(1, 1), env);
      && p.width == 1200 && p.height == 1200
      && p.background == Rect(0.0, 0.0, 1200.0, 1200.0)
      && p.foreground == Rect(60.0, 60.0, 1080.0, 1080.0)
      && p.radius == 43.2
  {
    ParseFormat(Aspect(1, 1));
    assert Format(Aspect(1, 1)) == "1:1";
  }

  /** An 800x600 photo on a 2:1 card: the background is cropped top and bottom. */
  lemma LandscapeOnWide(env: BlurSupport)
    ensures Parse("2:1") == Some(Aspect(2, 1))
    ensures var p := Compose(Image(800, 600), Aspect(2, 1), env);
      && p.height == 600
      && p.background == Rect(0.0, -150.0, 1200.0, 900.0)
      && p.foreground == Rect(240.0, 30.0, 720.0, 540.0)
  {
    ParseFormat(Aspect(2, 1));
    assert Format(Aspect(2, 1)) == "2:1";
  }

  /** Switching from 1:1 to 16:9 takes the canvas from 1200 to 675 rows. */
  lemma SquareThenWidescreenHeights()
    ensures Parse("1:1") == Some(Aspect(1, 1)) && Parse("16:9") == Some(Aspect(16, 9))
    ensures ExportHeight(Aspect(1, 1)) == 1200 && ExportHeight(Aspect(16, 9)) == 675
  {
    ParseFormat(Aspect(1, 1));
    assert Format(Aspect(1, 1)) == "1:1";
    ParseFormat(Aspect(16, 9));
    assert Format(Aspect(16, 9)) == "16:9";
  }
}
