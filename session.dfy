/**
 * The page's state and its event handlers (main.js:12-13, main.js:21-80, main.js:179-184,
 * main.js:264-272): the loaded image, the selected ratio text, whether the download and
 * clear buttons are enabled, and what the preview canvas shows.
 */
module Session {
  import opened Options
  import opened AspectRatio
  import opened Geometry
  import opened Card

  /** What the file input hands over: nothing, or a file with its MIME type and byte size. */
  datatype Upload = NoFile | File(mime: string, size: nat)

  /** How `handleImageUpload` answers a selection: ignore it, refuse it (with an alert), or read it. */
  datatype UploadVerdict = Ignored | WrongType | TooLarge | Accepted

  const AcceptedTypes: seq<string> := ["image/png", "image/jpeg", "image/jpg"]

  /** 10 MiB. */
  const MaxUploadBytes: nat := 10 * 1024 * 1024

  /**
   * Upload validation: a PNG or JPEG of at most 10 MiB is read; the type is checked
   * before the size, so a large file of the wrong type gets the type message.
   */
  function CheckUpload(f: Upload): (v: UploadVerdict)
    ensures v == Ignored <==> f.NoFile?
    ensures v == Accepted <==>
      f.File? && (f.mime == "image/png" || f.mime == "image/jpeg" || f.mime == "image/jpg")
      && f.size <= 10485760
    ensures v == WrongType <==>
      f.File? && f.mime != "image/png" && f.mime != "image/jpeg" && f.mime != "image/jpg"
  {
    if f.NoFile? then Ignored
    else if f.mime !in AcceptedTypes then WrongType
    else if f.size > MaxUploadBytes then TooLarge
    else Accepted
  }

  /** What the preview canvas shows: nothing (after `clearRect`) or a rendered card. */
  datatype Canvas = Cleared | Showing(picture: Picture)

  /** What a download hands to the browser: the file name and the rendered card. */
  datatype Export = Export(fileName: string, picture: Picture)

  class CardSession {
    var uploadedImage: Option<Image>
    var selectedAspect: string
    var downloadEnabled: bool
    var clearEnabled: bool
    var canvasWidth: nat
    var canvasHeight: nat
    var canvas: Canvas
    /** What this browser's 2D context offers for blurring; it never changes. */
    const blurSupport: BlurSupport

    /** The ratio text parses and the image, if any, has a size. */
    ghost predicate Drawable()
      reads this
    {
      Parse(selectedAspect).Some? && (uploadedImage.Some? ==> uploadedImage.value.Decoded())
    }

    /** What `drawCanvas` puts on the canvas for the current state. */
    function Rendering(): Canvas
      reads this
      requires Drawable()
    {
      match uploadedImage
      case None => Cleared
      case Some(img) => Showing(Compose(img, Parse(selectedAspect).value, blurSupport))
    }

    /**
     * The buttons are enabled exactly when an image is loaded, and the canvas always shows
     * the card for the current image and ratio, at its own size: nothing stale survives.
     */
    ghost predicate Valid()
      reads this
    {
      && Drawable()
      && downloadEnabled == uploadedImage.Some?
      && clearEnabled == uploadedImage.Some?
      && canvas == Rendering()
      && (canvas.Showing? ==> canvasWidth == canvas.picture.width && canvasHeight == canvas.picture.height)
    }

    /** The page as loaded: no image, ratio "2:1", both buttons disabled, a blank canvas. */
    constructor (blurSupport: BlurSupport, canvasWidth: nat, canvasHeight: nat)
      ensures Valid()
      ensures uploadedImage == None && selectedAspect == "2:1"
      ensures !downloadEnabled && !clearEnabled && canvas == Cleared
      ensures this.blurSupport == blurSupport
      ensures this.canvasWidth == canvasWidth && this.canvasHeight == canvasHeight
    {
      this.blurSupport := blurSupport;
      this.canvasWidth, this.canvasHeight := canvasWidth, canvasHeight;
      uploadedImage := None;
      selectedAspect := "2:1";
      downloadEnabled, clearEnabled := false, false;
      canvas := Cleared;
      ParseFormat(Aspect(2, 1));
      assert Format(Aspect(2, 1)) == "2:1";
    }

    /**
     * `drawCanvas`: with no image, only clear; otherwise size the canvas from the ratio,
     * recomputed on every call, and render the card into it.
     */
    method DrawCanvas()
      requires Drawable()
      modifies this`canvas, this`canvasWidth, this`canvasHeight
      ensures canvas == Rendering()
      ensures uploadedImage.None? ==>
        canvasWidth == old(canvasWidth) && canvasHeight == old(canvasHeight)
      ensures uploadedImage.Some? ==>
        canvasWidth == ExportWidth && canvasHeight == ExportHeight(Parse(selectedAspect).value)
    {
      match uploadedImage
      case None =>
        canvas := Cleared;
      case Some(img) =>
        var a := Parse(selectedAspect).value;
        canvasWidth, canvasHeight := ExportWidth, ExportHeight(a);
        canvas := Showing(Compose(img, a, blurSupport));
    }

    /**
     * `handleImageUpload` followed by the image's `onload`. `decoded` is what decoding the
     * file yields; `None` means it never loads, and as the source has no error handler,
     * nothing happens then. A refused or undecodable file changes nothing.
     */
    method HandleImageUpload(file: Upload, decoded: Option<Image>) returns (verdict: UploadVerdict)
      requires Valid()
      requires decoded.Some? ==> decoded.value.Decoded()
      modifies this
      ensures Valid()
      ensures verdict == CheckUpload(file)
      ensures verdict == Accepted && decoded.Some? ==>
        uploadedImage == decoded && selectedAspect == old(selectedAspect)
        && downloadEnabled && clearEnabled
      ensures !(verdict == Accepted && decoded.Some?) ==> unchanged(this)
    {
      verdict := CheckUpload(file);
      if verdict != Accepted || decoded.None? {
        return;
      }
      uploadedImage := decoded;
      DrawCanvas();
      downloadEnabled := true;
      clearEnabled := true;
    }

    /** `handleAspectChange`: take the button's ratio and redraw at the new size. */
    method HandleAspectChange(ratio: string)
      requires Valid()
      requires Parse(ratio).Some?
      modifies this
      ensures Valid()
      ensures selectedAspect == ratio && uploadedImage == old(uploadedImage)
      ensures downloadEnabled == old(downloadEnabled) && clearEnabled == old(clearEnabled)
      ensures uploadedImage.Some? ==>
        canvasWidth == ExportWidth && canvasHeight == ExportHeight(Parse(ratio).value)
      ensures uploadedImage.None? ==>
        canvas == Cleared && canvasWidth == old(canvasWidth) && canvasHeight == old(canvasHeight)
    {
      selectedAspect := ratio;
      DrawCanvas();
    }

    /** `handleClear`: forget the image, blank the canvas, disable both buttons. */
    method HandleClear()
      requires Valid()
      modifies this
      ensures Valid()
      ensures uploadedImage == None && canvas == Cleared
      ensures !downloadEnabled && !clearEnabled
      ensures selectedAspect == old(selectedAspect)
      ensures canvasWidth == old(canvasWidth) && canvasHeight == old(canvasHeight)
    {
      uploadedImage := None;
      canvas := Cleared;
      downloadEnabled := false;
      clearEnabled := false;
    }

    /**
     * `handleDownload`: with no image, nothing; otherwise the card rendered afresh at the
     * export size, which is exactly the card the preview canvas shows, under the name
     * `frame-card-<W>x<H>-<timestamp>.png`. `timestamp` stands for `Date.now()`.
     */
    method HandleDownload(timestamp: nat) returns (download: Option<Export>)
      requires Valid()
      ensures download.None? <==> uploadedImage.None?
      ensures download.Some? ==> canvas == Showing(download.value.picture)
      ensures download.Some? ==>
        download.value.picture.width == ExportWidth
        && download.value.picture.height == ExportHeight(Parse(selectedAspect).value)
      ensures download.Some? ==> download.value.fileName == FileName(selectedAspect, timestamp)
    {
      if uploadedImage.None? {
        return None;
      }
      var a := Parse(selectedAspect).value;
      download := Some(Export(FileName(selectedAspect, timestamp),
                            Compose(uploadedImage.value, a, blurSupport)));
    }
  }

  /** Load a square photo, pick 1:1 and then 16:9, and download: the card follows the ratio. */
  method SwitchAspectScenario(env: BlurSupport)
  {
    var session := new CardSession(env, 300, 150);
    var verdict := session.HandleImageUpload(File("image/png", 2048), Some(Image(400, 400)));
    assert verdict == Accepted && session.downloadEnabled;
    assert session.uploadedImage.Some?;
    SquareThenWidescreenHeights();
    session.HandleAspectChange("1:1");
    assert session.uploadedImage.Some?;
    assert session.canvasWidth == 1200;
    assert session.canvasHeight == 1200;
    session.HandleAspectChange("16:9");
    assert session.uploadedImage.Some?;
    assert session.canvasHeight == 675;
    var card := session.HandleDownload(1700000000000);
    assert card.Some?;
    assert card.value.picture.height == 675;
  }

  /** After clearing, downloading does nothing, and a GIF is refused without loading it. */
  method ClearScenario(env: BlurSupport)
  {
    var session := new CardSession(env, 300, 150);
    var verdict := session.HandleImageUpload(File("image/jpeg", 2048), Some(Image(800, 600)));
    assert verdict == Accepted && session.clearEnabled;
    session.HandleClear();
    var card := session.HandleDownload(1700000000001);
    assert card == None;
    var refused := session.HandleImageUpload(File("image/gif", 2048), Some(Image(10, 10)));
    assert refused == WrongType;
    assert session.uploadedImage == None && !session.downloadEnabled;
  }
}
