# Frame Card layout model

Frame Card turns one photo into a fixed-ratio "card": a blurred copy of the photo,
scaled to cover the whole card, forms the background; a sharp copy, scaled to fit
inside 90% of the card and clipped to a rounded rectangle, sits centred on top. The
card is always 1200 logical pixels wide; its height follows the ratio chosen with the
aspect buttons (`"W:H"`). The page keeps a small state (the loaded image, the ratio
text, whether the download and clear buttons are enabled, what the preview canvas
shows) and the same card is rendered for the preview and for the download.

The model, in Dafny:

- `numerals.dfy` (`Numerals`): decimal text of numbers, the search for `':'` that
  `split(':')` performs, and the first-occurrence `replace(':', 'x')` of the file name.
- `aspect.dfy` (`AspectRatio`): parsing the ratio text, the export height
  `Math.round(1200 * h / w)` as round-half-up of an exact rational, the file name.
- `geometry.dfy` (`Geometry`): the cover fit of the background, the contain fit of the
  foreground and the corner radius, over exact reals.
- `path.dfy` (`RoundedPath`): `roundedRect` as the list of path commands it issues.
- `card.dfy` (`Card`): `Compose`, the one rendering that `drawCanvas` and
  `handleDownload` both perform, including the choice of blur (native `blur(80px)`
  filter, StackBlur with radius 160, or none).
- `session.dfy` (`Session`): the class `CardSession` with the page's state and its
  event handlers, whose invariant is "both buttons are enabled exactly when an image is
  loaded, and the canvas shows the card for the current image and ratio".
- `arith.dfy` (`Arith`), `options.dfy` (`Options`): helpers.

The branch test `exportWidth / exportHeight > ratio` is modelled by cross-multiplication
(`TargetWider`); `Geometry.TargetWiderIsRatioTest` proves it equal to the quotient test
whenever the card has rows, and for a zero-row card JavaScript's `1200 / 0` is
`Infinity`, which the cross-multiplied test also treats as wider than every photo.

In main.js the background's offsets are never positive (the background overhangs the
card, e.g. `bgY = -150` for an 800x600 photo at 2:1), and the export height is rounded
with `Math.round`, halves going up.

## Model

| member | source | states |
|---|---|---|
| `Numerals.IndexOf` | main.js:84 | the position found is the first `':'`, or the end when the text has none |
| `Numerals.ReplaceFirst` | main.js:259 | only the first occurrence of the separator is replaced; every other character and the length are kept |
| `Numerals.Show` | main.js:259 | the decimal text of a number is a non-empty digit run without leading zeros and without `':'` |
| `Numerals.ValueOfShow` | main.js:84 | `Value` (what `Number` gives for a digit run): reading a number's decimal text back with `Number` gives the number |
| `AspectRatio.Parse` | main.js:84 | a ratio is read only from text with a `':'`, and both components read are positive |
| `AspectRatio.ParseFormat` | main.js:84 | every ratio with positive components is read back from its `"W:H"` text |
| `AspectRatio.ExportHeightRounds` | main.js:86-87 | `ExportHeight`: `m` is the export height exactly when `1200*h/w` lies in `[m - 1/2, m + 1/2)`: round half up |
| `AspectRatio.ExportHeightOfEqualRatios` | main.js:87 | ratios equal as fractions give the same export height |
| `AspectRatio.ExportHeightPositive` | main.js:87-89 | the canvas has rows exactly when `w <= 2400*h` |
| `AspectRatio.FileNameOfFormat` | main.js:259 | `FileName`: the download name is `frame-card-<W>x<H>-<timestamp>.png` |
| `Geometry.TargetWiderIsRatioTest` | main.js:100 | the cross-multiplied branch test equals `exportWidth / exportHeight > width / height` |
| `Geometry.CoverCovers` | main.js:98-110 | `Cover`: the background is at least as wide and as tall as the card, equal on one axis, with the photo's proportions |
| `Geometry.CoverCentred` | main.js:100-110 | `2*bgX + bgDrawWidth = exportWidth`, `2*bgY + bgDrawHeight = exportHeight`, `bgX <= 0`, `bgY <= 0` |
| `Geometry.CoverIsSmallestCover` | main.js:98-110 | every same-proportion copy that covers the card is at least as large as the background |
| `Geometry.ContainFits` | main.js:143-151 | `Contain`: the foreground is at most 90% of the card on each axis, exactly 90% on one, with the photo's proportions, and non-empty when the card is |
| `Geometry.ContainCentred` | main.js:152-153 | the foreground is centred, with at least a 5% margin on each side |
| `Geometry.ContainIsLargestFit` | main.js:143-151 | every same-proportion copy that fits in 90% of the card is at most as large as the foreground |
| `Geometry.RadiusOfShorterSide` | main.js:156 | `CornerRadius`: the radius is a 25th of the shorter side: at most half of each side, positive for a non-empty foreground |
| `RoundedPath.RoundedRect` | main.js:166-177 | one move, four line/curve pairs, a close; the last curve ends where the move started, `(x+r, y)` |
| `RoundedPath.RoundedRectOnBorder` | main.js:166-177 | when `0 <= r <= min(w,h)/2` every point of the outline lies on the border of the box |
| `RoundedPath.RoundedRectCorners` | main.js:169-175 | the curves bend at the four corners clockwise from top-right, each starting and ending `r` from its corner |
| `RoundedPath.RoundedRectSidesStraight` | main.js:167-174 | each straight segment runs along one axis from where the previous command ended |
| `Card.BackgroundBlur` | main.js:93-138 | the native filter blurs by 80; the StackBlur fallback uses exactly twice that, 160; without either there is no blur |
| `Card.ComposeLayers` | main.js:84-162 | `Compose`: canvas 1200 wide and as tall as the rounded ratio; background reaches or overhangs every edge; foreground inside with 5% margins; clip on the foreground's border; positive radius when the canvas has rows |
| `Card.GeometryIndependentOfBlur` | main.js:93-140 | the filter branch and the StackBlur branch place the background identically |
| `Card.SquareOnSquare` | main.js:84-156 | 400x400 at 1:1: 1200x1200, background `(0,0,1200,1200)`, foreground `(60,60,1080,1080)`, radius 43.2 |
| `Card.LandscapeOnWide` | main.js:84-153 | 800x600 at 2:1: height 600, background `(0,-150,1200,900)`, foreground `(240,30,720,540)` |
| `Card.SquareThenWidescreenHeights` | main.js:84-89 | switching from 1:1 to 16:9 takes the height from 1200 to 675 |
| `Session.CheckUpload` | main.js:21-38 | no file is ignored; a file is read exactly when it is PNG or JPEG and at most 10 MiB; a wrong type is reported before a wrong size |
| `Session.CardSession.constructor` | main.js:12-13 | no image, ratio `"2:1"`, both buttons disabled, blank canvas |
| `Session.CardSession.DrawCanvas` | main.js:75-89 | without an image only clears; otherwise sizes the canvas from the current ratio and renders the current card |
| `Session.CardSession.HandleImageUpload` | main.js:21-60 | an accepted, decoded file becomes the image and enables both buttons; anything else changes nothing |
| `Session.CardSession.HandleAspectChange` | main.js:62-80 | the ratio changes, the image and buttons do not; with an image the canvas is resized and redrawn for the new ratio, without one it is cleared and keeps its size |
| `Session.CardSession.HandleClear` | main.js:264-272 | no image, blank canvas, both buttons disabled, ratio kept |
| `Session.CardSession.HandleDownload` | main.js:179-262 | nothing without an image; otherwise exactly the card the preview shows, 1200 wide, under the ratio's file name |

## Left out

- Pixel work: `drawImage`, `clip`, the `blur(80px)` filter and `StackBlur.canvasRGBA` are foreign canvas and library calls; the model records where each layer is drawn and which blur is chosen, not the pixels.
- Floating point: coordinates are exact reals and `Math.round` rounds an exact rational; `0.9` and `0.04` are exact. IEEE double rounding of these values is not modelled.
- AspectRatio.Parse: reads only non-empty decimal fields. JavaScript's `Number` also accepts blanks, fractions, exponents and hex; for a malformed field it yields `NaN` or `0` and draws a degenerate card, where the model has no ratio. The `data-ratio` values live in HTML outside this model, so the handlers require a ratio that parses.
- Session.CardSession.HandleImageUpload: the `FileReader` read and the `Image` decode are asynchronous; the model takes their outcome as the `decoded` parameter and applies it at once, so a clear or another upload arriving while a decode is pending is not modelled.
- Thumbnail building, the CSS classes of the aspect buttons, `alert` messages and the reset of the file input's value are DOM effects and are not modelled.
- The download itself (`toDataURL`, PNG encoding, the anchor click) is not modelled; `Date.now()` is the `timestamp` parameter.
- The canvas's initial size and the buttons' initial disabled state come from HTML: the size is a constructor parameter and the buttons start disabled.
- Canvas context bookkeeping (`save`, `restore`, `beginPath`) carries no geometry and is not modelled.
