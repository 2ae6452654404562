/**
 * The resume photo uploader. A chosen file is validated; an accepted one is
 * opened in a cropping dialog where the IMAGE is dragged and zoomed behind a
 * fixed 120×160 frame. Confirming samples the part of the image under the
 * frame onto a 120×160 canvas and hands the encoded result to `onChange`.
 */
module PhotoUploader {
  import opened Wrappers
  import FileLimits

  /** The frame, and the size of every photo the uploader produces. */
  const FrameWidth: real := 120.0
  const FrameHeight: real := 160.0

  /** The `maxSize` the component uses when none is given, in MiB. */
  const DefaultMaxSize: real := 10.0

  /** The zoom slider's range, in percent. */
  const MinZoom: int := 50
  const MaxZoom: int := 200

  datatype File = File(mime: string, size: int)

  datatype RejectReason = WrongType | TooLarge

  /** `Upload.LIST_IGNORE` with the reason reported, or `false` after starting to read the file. */
  datatype UploadDecision = ListIgnore(reason: RejectReason) | ReadWithoutUpload

  predicate IsJpegOrPng(mime: string)
  {
    mime == "image/jpeg" || mime == "image/png"
  }

  /** The upload validator: JPEG or PNG only, strictly below `maxSize` MiB. */
  function BeforeUpload(file: File, maxSize: real): (d: UploadDecision)
    ensures d.ReadWithoutUpload? <==> IsJpegOrPng(file.mime) && (file.size as real) < maxSize * 1048576.0
    ensures !IsJpegOrPng(file.mime) ==> d == ListIgnore(WrongType)
    ensures IsJpegOrPng(file.mime) && (file.size as real) >= maxSize * 1048576.0 ==> d == ListIgnore(TooLarge)
  {
    if !IsJpegOrPng(file.mime) then ListIgnore(WrongType)
    else if !FileLimits.SizeBelow(file.size, maxSize) then ListIgnore(TooLarge)
    else ReadWithoutUpload
  }

  /**
   * With the default limit, a JPEG or PNG is read iff it has at most
   * 10 MiB less one byte; a file of exactly 10 MiB is refused as too large.
   */
  lemma DefaultLimitIsStrict(file: File)
    requires IsJpegOrPng(file.mime)
    ensures BeforeUpload(file, DefaultMaxSize) == ReadWithoutUpload <==> file.size <= 10 * 1048576 - 1
    ensures file.size >= 10 * 1048576 ==> BeforeUpload(file, DefaultMaxSize) == ListIgnore(TooLarge)
  {
    FileLimits.SizeBelowBoundary(file.size, 10);
  }

  // ------------------------------------------------------------ crop math

  datatype Rect = Rect(x: real, y: real, w: real, h: real)

  /** The arguments of `drawImage`: the sampled source rectangle and the destination rectangle. */
  datatype DrawCall = DrawCall(source: Rect, dest: Rect)

  function Max(a: real, b: real): real { if a >= b then a else b }
  function Min(a: real, b: real): real { if a <= b then a else b }

  /**
   * The offset into the scaled image at which cropping starts: the drag
   * offset, raised to 0 and lowered so that a frame-sized window still fits.
   */
  function FinalCrop(offset: real, scaled: real, frame: real): (r: real)
    ensures r <= scaled - frame
    ensures r >= 0.0 <==> scaled >= frame
    ensures 0.0 <= offset <= scaled - frame ==> r == offset
    ensures offset <= 0.0 && scaled >= frame ==> r == 0.0
  {
    Min(Max(0.0, offset), scaled - frame)
  }

  /** The `drawImage` call for an image of the given natural size, zoom (percent) and drag offset. */
  function CropDraw(imgWidth: real, imgHeight: real, zoom: int, x: real, y: real): (d: DrawCall)
    requires MinZoom <= zoom <= MaxZoom
    ensures d.dest == Rect(0.0, 0.0, FrameWidth, FrameHeight)
    ensures d.source.w * (zoom as real / 100.0) == FrameWidth
    ensures d.source.h * (zoom as real / 100.0) == FrameHeight
    ensures d.source.w * 4.0 == d.source.h * 3.0
  {
    var z := zoom as real / 100.0;
    var scaledWidth := imgWidth * z;
    var scaledHeight := imgHeight * z;
    DrawCall(
      Rect(FinalCrop(x, scaledWidth, FrameWidth) / z, FinalCrop(y, scaledHeight, FrameHeight) / z,
           FrameWidth / z, FrameHeight / z),
      Rect(0.0, 0.0, FrameWidth, FrameHeight))
  }

  /**
   * When the zoomed image covers the frame, the sampled rectangle lies inside
   * the image; a negative drag offset is treated as 0.
   */
  lemma CropInsideImage(imgWidth: real, imgHeight: real, zoom: int, x: real, y: real)
    requires MinZoom <= zoom <= MaxZoom
    requires imgWidth * (zoom as real / 100.0) >= FrameWidth
    requires imgHeight * (zoom as real / 100.0) >= FrameHeight
    ensures var s := CropDraw(imgWidth, imgHeight, zoom, x, y).source;
      0.0 <= s.x && s.x + s.w <= imgWidth && 0.0 <= s.y && s.y + s.h <= imgHeight
  {
    var z := zoom as real / 100.0;
    AxisInside(imgWidth, z, FinalCrop(x, imgWidth * z, FrameWidth), FrameWidth);
    AxisInside(imgHeight, z, FinalCrop(y, imgHeight * z, FrameHeight), FrameHeight);
  }

  /** One axis of `CropInsideImage`: an offset that fits in the scaled image maps back inside the image. */
  lemma AxisInside(size: real, z: real, offset: real, frame: real)
    requires z > 0.0 && 0.0 <= offset <= size * z - frame
    ensures 0.0 <= offset / z && offset / z + frame / z <= size
  {
    assert offset / z + frame / z == (offset + frame) / z;
    assert (size * z) / z == size;
    DivMonotone(offset + frame, size * z, z);
  }

  lemma DivMonotone(a: real, b: real, z: real)
    requires z > 0.0 && a <= b
    ensures a / z <= b / z
  {
    assert b / z - a / z == (b - a) / z;
  }

  // --------------------------------------------------------- the component

  class Uploader {
    /** null when no cropping dialog is open, otherwise the image being cropped. */
    var croppingImage: Option<string>
    /** The image's offset behind the frame, in pixels. */
    var cropX: real
    var cropY: real
    var zoom: int
    var previewOpen: bool
    var previewImage: string
    /** While the mouse is held: `clientX - cropPosition.x` and `clientY - cropPosition.y` at the press. */
    var dragStart: Option<(real, real)>

    ghost var pressClient: (real, real)
    ghost var pressPosition: (real, real)

    ghost predicate Valid()
      reads this
    {
      MinZoom <= zoom <= MaxZoom
      && (dragStart.Some? ==>
            dragStart.value == (pressClient.0 - pressPosition.0, pressClient.1 - pressPosition.1))
    }

    constructor ()
      ensures Valid()
      ensures croppingImage == None && cropX == 0.0 && cropY == 0.0 && zoom == 100
      ensures !previewOpen && previewImage == "" && dragStart == None
    {
      croppingImage := None;
      cropX, cropY := 0.0, 0.0;
      zoom := 100;
      previewOpen := false;
      previewImage := "";
      dragStart := None;
    }

    /**
     * Choosing a file. An accepted file is read (`dataUrl` is what the reader
     * yields) and opens the dialog with the position and zoom reset; a refused
     * one changes nothing.
     */
    method ChooseFile(file: File, maxSize: real, dataUrl: string) returns (d: UploadDecision)
      requires Valid()
      modifies this
      ensures Valid()
      ensures d == BeforeUpload(file, maxSize)
      ensures d.ReadWithoutUpload? ==>
        croppingImage == Some(dataUrl) && cropX == 0.0 && cropY == 0.0 && zoom == 100
      ensures d.ListIgnore? ==>
        croppingImage == old(croppingImage) && cropX == old(cropX) && cropY == old(cropY) && zoom == old(zoom)
      ensures previewOpen == old(previewOpen) && previewImage == old(previewImage) && dragStart == old(dragStart)
    {
      d := BeforeUpload(file, maxSize);
      if d.ReadWithoutUpload? {
        croppingImage := Some(dataUrl);
        cropX, cropY := 0.0, 0.0;
        zoom := 100;
      }
    }

    /** The zoom slider; it only reports values within its range. */
    method SetZoom(z: int)
      requires Valid() && MinZoom <= z <= MaxZoom
      modifies this`zoom
      ensures Valid() && zoom == z
    {
      zoom := z;
    }

    method MouseDown(clientX: real, clientY: real)
      requires Valid()
      modifies this`dragStart, this`pressClient, this`pressPosition
      ensures Valid()
      ensures dragStart == Some((clientX - cropX, clientY - cropY))
      ensures pressClient == (clientX, clientY) && pressPosition == (cropX, cropY)
    {
      dragStart := Some((clientX - cropX, clientY - cropY));
      pressClient := (clientX, clientY);
      pressPosition := (cropX, cropY);
    }

    /**
     * The document-level move listener: the position becomes the position at
     * the press translated by the pointer's displacement since the press,
     * without any clamping. Without a press no listener is registered.
     */
    method MouseMove(clientX: real, clientY: real)
      requires Valid()
      modifies this`cropX, this`cropY
      ensures Valid()
      ensures old(dragStart).Some? ==>
        cropX == pressPosition.0 + (clientX - pressClient.0)
        && cropY == pressPosition.1 + (clientY - pressClient.1)
      ensures old(dragStart).Some? && (clientX, clientY) == pressClient ==> (cropX, cropY) == pressPosition
      ensures old(dragStart).None? ==> cropX == old(cropX) && cropY == old(cropY)
    {
      if dragStart.Some? {
        var (startX, startY) := dragStart.value;
        cropX := clientX - startX;
        cropY := clientY - startY;
      }
    }

    /** Releasing the mouse removes both listeners. */
    method MouseUp()
      requires Valid()
      modifies this`dragStart
      ensures Valid() && dragStart == None
    {
      dragStart := None;
    }

    /**
     * The confirm button. With no image open it does nothing. Otherwise the
     * image (of natural size `imgWidth`×`imgHeight`) is drawn through
     * `CropDraw`, `onChange` receives the canvas's encoding `encoded`, and the
     * dialog closes.
     */
    method CropComplete(imgWidth: real, imgHeight: real, encoded: string)
      returns (draw: Option<DrawCall>, emitted: Option<string>)
      requires Valid()
      modifies this`croppingImage
      ensures Valid()
      ensures old(croppingImage).None? ==> draw == None && emitted == None && croppingImage == None
      ensures old(croppingImage).Some? ==>
        draw == Some(CropDraw(imgWidth, imgHeight, zoom, cropX, cropY))
        && emitted == Some(encoded) && croppingImage == None
    {
      if croppingImage.None? {
        return None, None;
      }
      draw := Some(CropDraw(imgWidth, imgHeight, zoom, cropX, cropY));
      emitted := Some(encoded);
      croppingImage := None;
    }

    /** The cancel button and the dialog's close icon. */
    method CancelCrop()
      requires Valid()
      modifies this`croppingImage
      ensures Valid() && croppingImage == None
    {
      croppingImage := None;
    }

    /** Clicking the preview strip: only opens when a photo is present. */
    method Preview(photo: string)
      requires Valid()
      modifies this`previewOpen, this`previewImage
      ensures Valid()
      ensures photo != "" ==> previewOpen && previewImage == photo
      ensures photo == "" ==> previewOpen == old(previewOpen) && previewImage == old(previewImage)
    {
      if photo != "" {
        previewImage := photo;
        previewOpen := true;
      }
    }

    method ClosePreview()
      requires Valid()
      modifies this`previewOpen
      ensures Valid() && !previewOpen
    {
      previewOpen := false;
    }
  }

  /** The delete button: `onChange('')`, no state of the uploader changes. */
  function DeletePhoto(photo: string): (emitted: Option<string>)
    ensures photo != "" <==> emitted == Some("")
  {
    if photo != "" then Some("") else None
  }
}
