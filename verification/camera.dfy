/** Region-of-interest handling of checador/camera.py: the bounds check and
    crop of `capture_roi`, the outcome of `capture_fingerprint`, and the
    staged diagnostics of `test_camera`. The OpenCV device is an oracle:
    the model receives whether it opened and which frame it produced. */
module Camera {
  import opened Options
  import opened Text
  import opened Config

  /** A captured frame: `rows` is `frame.shape[0]` rows of `width` pixels. */
  datatype Image<T> = Image(rows: seq<seq<T>>, width: nat) {

    /** Every row has `width` pixels, as in a numpy array. */
    ghost predicate WellFormed() {
      forall i :: 0 <= i < |rows| ==> |rows[i]| == width
    }

    function Height(): nat {
      |rows|
    }
  }

  /** `capture_roi`'s rejection test: the ROI starts before the frame or
      extends past its right or bottom edge. */
  predicate RoiOutOfBounds(x: int, y: int, w: int, h: int, width: int, height: int) {
    x < 0 || y < 0 || x + w > width || y + h > height
  }

  /** `capture_roi`'s rejection test for the configured ROI on frame `f`. */
  predicate ConfiguredRoiOutOfBounds<T>(cfg: CameraConfig, f: Image<T>) {
    RoiOutOfBounds(cfg.roiX, cfg.roiY, cfg.roiWidth, cfg.roiHeight, f.width, f.Height())
  }

  /** `test_camera`'s acceptance test, written out separately. */
  predicate RoiInBounds(x: int, y: int, w: int, h: int, width: int, height: int) {
    x >= 0 && y >= 0 && x + w <= width && y + h <= height
  }

  /** `frame[y:y+h, x:x+w]` for an in-bounds ROI of non-negative size. */
  function Crop<T>(frame: Image<T>, x: int, y: int, w: int, h: int): (r: Image<T>)
    requires frame.WellFormed()
    requires w >= 0 && h >= 0
    requires RoiInBounds(x, y, w, h, frame.width, frame.Height())
    ensures r.WellFormed() && r.Height() == h && r.width == w
    ensures forall i, j :: 0 <= i < h && 0 <= j < w ==> r.rows[i][j] == frame.rows[y + i][x + j]
  {
    Image(seq(h, i requires 0 <= i < h => frame.rows[y + i][x..x + w]), w)
  }

  /** `capture_roi`: `None` when no frame was captured; the full frame as a
      fallback when the configured ROI is out of bounds; otherwise the
      `roi_height` x `roi_width` crop. */
  function CaptureRoi<T>(frame: Option<Image<T>>, cfg: CameraConfig): (r: Option<Image<T>>)
    requires frame.Some? ==> frame.value.WellFormed()
    requires cfg.roiWidth >= 0 && cfg.roiHeight >= 0
    ensures r.None? <==> frame.None?
    ensures r.Some? ==> r.value.WellFormed()
    ensures frame.Some? && ConfiguredRoiOutOfBounds(cfg, frame.value) ==> r == frame
    ensures frame.Some? && !ConfiguredRoiOutOfBounds(cfg, frame.value) ==>
      r.value.Height() == cfg.roiHeight && r.value.width == cfg.roiWidth &&
      forall i, j :: 0 <= i < cfg.roiHeight && 0 <= j < cfg.roiWidth ==>
        r.value.rows[i][j] == frame.value.rows[cfg.roiY + i][cfg.roiX + j]
  {
    match frame
    case None => None
    case Some(f) =>
      if RoiOutOfBounds(cfg.roiX, cfg.roiY, cfg.roiWidth, cfg.roiHeight, f.width, f.Height()) then Some(f)
      else Some(Crop(f, cfg.roiX, cfg.roiY, cfg.roiWidth, cfg.roiHeight))
  }

  /** The default ROI covers a default-sized frame exactly, so the crop is
      the whole frame. */
  lemma DefaultRoiIsWholeFrame<T>(frame: Image<T>)
    requires frame.WellFormed() && frame.width == 640 && frame.Height() == 480
    ensures CaptureRoi(Some(frame), DefaultCamera) == Some(frame)
  {
    var r := CaptureRoi(Some(frame), DefaultCamera).value;
    forall i | 0 <= i < 480
      ensures r.rows[i] == frame.rows[i]
    {
      assert frame.rows[i][0..640] == frame.rows[i];
    }
    assert r.rows == frame.rows;
  }

  /** How writing the grayscale PNG ended. */
  datatype SaveOutcome = Saved | WriteFailed | SaveRaised(message: string)

  /** `capture_fingerprint`: success exactly when a frame was captured and
      the image was written, with a message for every failure. */
  function CaptureFingerprint<T>(roi: Option<Image<T>>, save: SaveOutcome): (r: (bool, Option<string>))
    ensures r.0 <==> roi.Some? && save.Saved?
    ensures r.0 <==> r.1.None?
  {
    if roi.None? then (false, Some("Failed to capture frame from camera"))
    else match save
      case Saved => (true, None)
      case WriteFailed => (false, Some("Failed to save image"))
      case SaveRaised(m) => (false, Some(m))
  }

  /** The dictionary `test_camera` returns; `resolution` is `"{w}x{h}"`. */
  datatype Diagnostics = Diagnostics(
    device: string,
    accessible: bool,
    isOpened: bool,
    frameCaptured: bool,
    roiValid: bool,
    resolution: Option<string>,
    error: Option<string>)

  function Resolution(width: nat, height: nat): string {
    NatToString(width) + "x" + NatToString(height)
  }

  /** `test_camera`, given whether the device node exists, whether opening
      it succeeded and the frame it produced. Each flag is set only after
      the previous stage passed, and `roi_valid` is decided on the captured
      frame's size with the opposite of `capture_roi`'s rejection test. */
  function TestCamera<T>(cfg: CameraConfig, deviceExists: bool, opens: bool, frame: Option<Image<T>>): (r: Diagnostics)
    ensures r.device == cfg.device
    ensures r.isOpened ==> r.accessible
    ensures r.frameCaptured ==> r.isOpened
    ensures r.roiValid ==> r.frameCaptured
    ensures r.accessible <==> deviceExists
    ensures r.isOpened <==> deviceExists && opens
    ensures r.frameCaptured <==> deviceExists && opens && frame.Some?
    ensures r.frameCaptured ==> (r.roiValid <==> !ConfiguredRoiOutOfBounds(cfg, frame.value))
    ensures r.resolution.Some? <==> r.frameCaptured
    ensures r.error.None? <==> r.roiValid
  {
    var init := Diagnostics(cfg.device, false, false, false, false, None, None);
    if !deviceExists then init.(error := Some("Device not found: " + cfg.device))
    else if !opens then init.(accessible := true, error := Some("Failed to open camera"))
    else if frame.None? then init.(accessible := true, isOpened := true, error := Some("Failed to capture frame"))
    else
      var f := frame.value;
      var res := Resolution(f.width, f.Height());
      var captured := init.(accessible := true, isOpened := true, frameCaptured := true, resolution := Some(res));
      var x, y, w, h := cfg.roiX, cfg.roiY, cfg.roiWidth, cfg.roiHeight;
      if RoiInBounds(x, y, w, h, f.width, f.Height()) then captured.(roiValid := true)
      else captured.(error := Some("ROI out of bounds: (" + IntToString(x) + "," + IntToString(y) + ","
                                   + IntToString(w) + "," + IntToString(h) + ") for " + res))
  }

  /** When the camera works, the ROI `test_camera` reports as valid is
      exactly the one `capture_roi` crops instead of falling back to the
      full frame. */
  lemma TestCameraAgreesWithCaptureRoi<T>(cfg: CameraConfig, frame: Image<T>)
    requires frame.WellFormed()
    requires cfg.roiWidth >= 0 && cfg.roiHeight >= 0
    requires cfg.roiWidth != frame.width || cfg.roiHeight != frame.Height()
    ensures TestCamera(cfg, true, true, Some(frame)).roiValid <==> CaptureRoi(Some(frame), cfg) != Some(frame)
  {
    var r := CaptureRoi(Some(frame), cfg);
    if TestCamera(cfg, true, true, Some(frame)).roiValid {
      assert r.value.width != frame.width || r.value.Height() != frame.Height();
    }
  }
}
