/** `ScreenCaptureSimple` of simple_server.py: the bitrate-to-JPEG-quality
    clamp, the truthy-only settings update, the running flag and the frame
    counter behind `get_fps`. Grabbing and encoding are not here. */
module SimpleCapture {
  import opened Wrappers

  /** Python's `int(a / d)` for a positive divisor: the quotient truncated
      toward zero. For `a >= 0` it is the largest `q` with `d * q <= a`; for
      `a < 0` the smallest `q` with `a <= d * q` (Dafny's `/` rounds down,
      which differs for negative `a`). */
  function TruncDiv(a: int, d: int): (q: int)
    requires d > 0
    ensures a >= 0 ==> d * q <= a < d * q + d
    ensures a < 0 ==> d * q - d < a <= d * q
  {
    if a >= 0 then a / d else -((-a) / d)
  }

  /** The JPEG quality used for a bitrate (in kbps):
      `min(95, max(50, int(bitrate / 100)))`. */
  function JpegQuality(bitrate: int): (q: int)
    ensures 50 <= q <= 95
    ensures 50 <= TruncDiv(bitrate, 100) <= 95 ==> q == TruncDiv(bitrate, 100)
    ensures TruncDiv(bitrate, 100) < 50 ==> q == 50
    ensures TruncDiv(bitrate, 100) > 95 ==> q == 95
  {
    var q := TruncDiv(bitrate, 100);
    if q > 95 then 95 else if q < 50 then 50 else q
  }

  /** A higher bitrate never gives a lower quality. */
  lemma JpegQualityMonotone(a: int, b: int)
    requires a <= b
    ensures JpegQuality(a) <= JpegQuality(b)
  {
    if a < 0 <= b {
      assert TruncDiv(a, 100) <= 0 <= TruncDiv(b, 100);
    } else if b < 0 {
      assert (-b) / 100 <= (-a) / 100;
    } else {
      assert a / 100 <= b / 100;
    }
  }

  /** The default bitrate 5000 gives quality 50; 8000 gives 80. */
  lemma JpegQualityExamples()
    ensures JpegQuality(5000) == 50 && JpegQuality(8000) == 80
    ensures JpegQuality(-9999) == 50 && JpegQuality(20000) == 95
  {
  }

  /** The four fields `update_settings` can change. */
  datatype SimpleSettings = SimpleSettings(fps: int, resolution: seq<int>, bitrate: int, qualityMode: string)

  /** The keyword arguments of `update_settings`, each possibly `None`. */
  datatype SettingsArgs = SettingsArgs(
    fps: Option<int>, resolution: Option<seq<int>>, bitrate: Option<int>, quality: Option<string>)

  /** Python truthiness of the arguments: numbers are falsy at 0, a
      resolution tuple and a quality name when empty. */
  predicate TruthyInt(v: Option<int>) { v.Some? && v.value != 0 }
  predicate TruthySeq<T>(v: Option<seq<T>>) { v.Some? && |v.value| > 0 }

  /** `update_settings`: a truthy argument overwrites its own field; a
      `None` or falsy one leaves it as it was. */
  function Merge(s: SimpleSettings, a: SettingsArgs): (r: SimpleSettings)
    ensures r.fps == (if TruthyInt(a.fps) then a.fps.value else s.fps)
    ensures r.resolution == (if TruthySeq(a.resolution) then a.resolution.value else s.resolution)
    ensures r.bitrate == (if TruthyInt(a.bitrate) then a.bitrate.value else s.bitrate)
    ensures r.qualityMode == (if TruthySeq(a.quality) then a.quality.value else s.qualityMode)
  {
    var s1 := if TruthyInt(a.fps) then s.(fps := a.fps.value) else s;
    var s2 := if TruthySeq(a.resolution) then s1.(resolution := a.resolution.value) else s1;
    var s3 := if TruthyInt(a.bitrate) then s2.(bitrate := a.bitrate.value) else s2;
    if TruthySeq(a.quality) then s3.(qualityMode := a.quality.value) else s3
  }

  /** Applying the same arguments twice equals applying them once, and the
      result does not depend on the settings the arguments overwrite. */
  lemma MergeIdempotent(s: SimpleSettings, a: SettingsArgs)
    ensures Merge(Merge(s, a), a) == Merge(s, a)
    ensures forall t: SimpleSettings :: Merge(t, a) == Merge(s, a) <==>
      && (TruthyInt(a.fps) || t.fps == s.fps)
      && (TruthySeq(a.resolution) || t.resolution == s.resolution)
      && (TruthyInt(a.bitrate) || t.bitrate == s.bitrate)
      && (TruthySeq(a.quality) || t.qualityMode == s.qualityMode)
  {
  }

  class ScreenCaptureSimple {
    var targetFps: int
    var targetResolution: seq<int>
    var bitrate: int
    var qualityMode: string
    var running: bool
    var frameCount: nat
    const startTime: real

    function Settings(): SimpleSettings
      reads this
    {
      SimpleSettings(targetFps, targetResolution, bitrate, qualityMode)
    }

    /** `ScreenCaptureSimple(target_fps, target_resolution, bitrate)`, created
        at time `now`, in quality mode "high". */
    constructor (targetFps: int, targetResolution: seq<int>, bitrate: int, now: real)
      ensures Settings() == SimpleSettings(targetFps, targetResolution, bitrate, "high")
      ensures !running && frameCount == 0 && startTime == now
    {
      this.targetFps := targetFps;
      this.targetResolution := targetResolution;
      this.bitrate := bitrate;
      qualityMode := "high";
      running := false;
      frameCount := 0;
      startTime := now;
    }

    /** `start_capture`: sets the flag (this variant has no already-running
        guard). */
    method StartCapture()
      modifies this`running
      ensures running
    {
      running := true;
    }

    /** `stop_capture`: clears the flag the loop polls. */
    method StopCapture()
      modifies this`running
      ensures !running
    {
      running := false;
    }

    /** `update_settings`. */
    method UpdateSettings(a: SettingsArgs)
      modifies this`targetFps, this`targetResolution, this`bitrate, this`qualityMode
      ensures Settings() == Merge(old(Settings()), a)
    {
      if TruthyInt(a.fps) {
        targetFps := a.fps.value;
      }
      if TruthySeq(a.resolution) {
        targetResolution := a.resolution.value;
      }
      if TruthyInt(a.bitrate) {
        bitrate := a.bitrate.value;
      }
      if TruthySeq(a.quality) {
        qualityMode := a.quality.value;
      }
    }

    /** The bookkeeping of one successful `_capture_loop` iteration: the
        quality the frame is encoded at, and one more frame counted. */
    method CaptureTick() returns (quality: int)
      modifies this`frameCount
      ensures quality == JpegQuality(bitrate)
      ensures frameCount == old(frameCount) + 1
    {
      quality := JpegQuality(bitrate);
      frameCount := frameCount + 1;
    }

    /** `get_fps` at time `now`: 0 before the first frame and whenever no
        time has elapsed, otherwise frames per elapsed second. */
    function GetFps(now: real): (fps: real)
      reads this
      ensures frameCount == 0 ==> fps == 0.0
      ensures now <= startTime ==> fps == 0.0
      ensures fps >= 0.0
    {
      if frameCount == 0 then 0.0
      else
        var elapsed := now - startTime;
        if elapsed > 0.0 then frameCount as real / elapsed else 0.0
    }
  }
}
