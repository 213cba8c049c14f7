/**
 * The aspect-ratio text "W:H" chosen by the aspect buttons, the export size derived from it,
 * and the name of the downloaded file (main.js:84-87, main.js:182-184, main.js:259).
 */
module AspectRatio {
  import opened Options
  import opened Numerals
  import opened Arith

  /** The two components of a ratio such as 16:9. */
  datatype Aspect = Aspect(w: nat, h: nat)

  /** Every export is this many logical pixels wide. */
  const ExportWidth: nat := 1200

  /**
   * `selectedAspect.split(':').map(Number)` destructured into `[wRatio, hRatio]`: the first
   * two ':'-separated fields, later fields ignored. Only non-empty decimal fields with a
   * positive value are accepted; anything else has no aspect.
   */
  function Parse(text: string): (r: Option<Aspect>)
    ensures r.Some? ==> r.value.w > 0 && r.value.h > 0 && ':' in text
  {
    var i := IndexOf(text, ':');
    if i == |text| then None
    else
      var rest := text[i + 1..];
      var wField, hField := text[..i], rest[..IndexOf(rest, ':')];
      if IsNumeral(wField) && IsNumeral(hField) && Value(wField) > 0 && Value(hField) > 0
      then Some(Aspect(Value(wField), Value(hField)))
      else None
  }

  /** The canonical text of a ratio, as the aspect buttons carry it in `data-ratio`. */
  function Format(a: Aspect): string {
    Show(a.w) + ":" + Show(a.h)
  }

  /** Every ratio with positive components is read back from its own text. */
  lemma ParseFormat(a: Aspect)
    requires a.w > 0 && a.h > 0
    ensures Parse(Format(a)) == Some(a)
  {
    var ws, hs := Show(a.w), Show(a.h);
    var text := Format(a);
    assert text == ws + [':'] + hs;
    ReplaceFirstAfter(ws, ':', ':', hs);
    var i := IndexOf(text, ':');
    assert i == |ws|;
    assert text[..i] == ws;
    var rest := text[i + 1..];
    assert rest == hs;
    assert IndexOf(rest, ':') == |hs|;
    assert rest[..|hs|] == hs;
    ValueOfShow(a.w);
    ValueOfShow(a.h);
  }

  /** `Math.round(exportWidth * hRatio / wRatio)` on exact rationals: round half up. */
  function ExportHeight(a: Aspect): nat
    requires a.w > 0
  {
    (2 * ExportWidth * a.h + a.w) / (2 * a.w)
  }

  /** The exact height the ratio asks for, before rounding. */
  function ExactHeight(a: Aspect): real
    requires a.w > 0
  {
    (ExportWidth * a.h) as real / a.w as real
  }

  /** `m - 1/2 <= y / w < m + 1/2` stated over integers. */
  lemma HalfBandInIntegers(m: int, y: nat, w: nat)
    requires w > 0
    ensures (m as real - 0.5 <= y as real / w as real && y as real / w as real < m as real + 0.5)
        <==> ((2 * m - 1) * w <= 2 * y && 2 * y < (2 * m + 1) * w)
  {
    ScaleByPositive(m as real - 0.5, y as real, w as real);
    ScaleByPositive(m as real + 0.5, y as real, w as real);
    assert ((2 * m - 1) * w) as real == 2.0 * ((m as real - 0.5) * w as real);
    assert ((2 * m + 1) * w) as real == 2.0 * ((m as real + 0.5) * w as real);
  }

  /** `n` is the one integer whose half-open band `[n - 1/2, n + 1/2)` holds `y / w`. */
  lemma NearestInteger(n: int, m: int, w: int, y: int)
    requires w > 0 && 2 * w * n <= 2 * y + w < 2 * w * n + 2 * w
    ensures m == n <==> (2 * m - 1) * w <= 2 * y && 2 * y < (2 * m + 1) * w
  {
    if (2 * m - 1) * w <= 2 * y && 2 * y < (2 * m + 1) * w {
      assert w * (m - n) < w by {
        assert 2 * w * m - w < 2 * w * n + w;
      }
      assert w * (n - m) < w by {
        assert 2 * w * n - w < 2 * w * m + w;
      }
      BelowOne(w, m - n);
      BelowOne(w, n - m);
    }
  }

  /**
   * The export height is the nearest integer to the exact height, ties going up: `m` is the
   * export height exactly when the exact height lies in [m - 1/2, m + 1/2).
   */
  lemma {:induction false} ExportHeightRounds(a: Aspect, m: int)
    requires a.w > 0
    ensures m == ExportHeight(a) <==>
            m as real - 0.5 <= ExactHeight(a) && ExactHeight(a) < m as real + 0.5
  {
    var n, w, y := ExportHeight(a), a.w, ExportWidth * a.h;
    DivBounds(2 * y + w, 2 * w);
    HalfBandInIntegers(m, y, w);
    NearestInteger(n, m, w, y);
  }

  /** Ratios that are equal as fractions ("2:2" and "1:1") give the same export height. */
  lemma ExportHeightOfEqualRatios(a: Aspect, b: Aspect)
    requires a.w > 0 && b.w > 0 && a.w * b.h == a.h * b.w
    ensures ExportHeight(a) == ExportHeight(b)
  {
    var k := (b.w as real) / (a.w as real);
    assert (ExportWidth * b.h) as real == k * (ExportWidth * a.h) as real;
    assert ExactHeight(b) == ExactHeight(a);
    ExportHeightRounds(a, ExportHeight(a));
    ExportHeightRounds(b, ExportHeight(a));
  }

  /** The canvas gets rows exactly when the ratio is at most 2400:1; wider ones round to 0. */
  lemma ExportHeightPositive(a: Aspect)
    requires a.w > 0
    ensures ExportHeight(a) > 0 <==> a.w <= 2 * ExportWidth * a.h
  {
    var n, top := ExportHeight(a), 2 * ExportWidth * a.h + a.w;
    DivBounds(top, 2 * a.w);
    if n > 0 {
      AtLeastOnce(2 * a.w, n);
    }
  }

  /** The download name `frame-card-<ratio with ':' replaced by 'x'>-<timestamp>.png`. */
  function FileName(aspectText: string, timestamp: nat): string {
    "frame-card-" + ReplaceFirst(aspectText, ':', 'x') + "-" + Show(timestamp) + ".png"
  }

  /** For a button's ratio text the name spells out both components around an 'x'. */
  lemma FileNameOfFormat(a: Aspect, timestamp: nat)
    ensures FileName(Format(a), timestamp) ==
            "frame-card-" + Show(a.w) + "x" + Show(a.h) + "-" + Show(timestamp) + ".png"
  {
    ReplaceFirstAfter(Show(a.w), ':', 'x', Show(a.h));
  }
}
