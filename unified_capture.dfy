/** The settings side of `ScreenCapture` in unified_server.py: the monitor
    list, monitor selection, the truthy-only settings merge and the
    running flag. Grabbing, encoding and the test pattern are not here. */
module UnifiedCapture {
  import opened Wrappers
  import PyText

  /** One entry of `mss().monitors[1:]`: only its size is used. */
  datatype Monitor = Monitor(width: int, height: int)

  /** One dict of the `/monitors` reply. */
  datatype MonitorInfo = MonitorInfo(id: nat, name: string, width: int, height: int, primary: bool)

  /** The `settings` object of a `settings_update` message, or the body of
      `POST /settings`: each key may be absent (`None`). */
  datatype SettingsPayload = SettingsPayload(
    fps: Option<int>, resolution: Option<seq<int>>, quality: Option<int>, monitor: Option<int>)

  const NoSettings := SettingsPayload(None, None, None, None)

  /** The four values a settings update can change. */
  datatype CaptureSettings = CaptureSettings(fps: int, resolution: seq<int>, quality: int, monitor: int)

  /** The monitor reported when `mss` could not be imported. */
  const TestMonitor := MonitorInfo(0, "Test Monitor", 1920, 1080, true)

  /** Python truthiness of an optional number: present and non-zero. */
  predicate TruthyInt(v: Option<int>) {
    v.Some? && v.value != 0
  }

  /** Python truthiness of an optional list: present and non-empty. */
  predicate TruthyList(v: Option<seq<int>>) {
    v.Some? && |v.value| > 0
  }

  /** `f"Monitor {i + 1}"`: the word, a space, and the decimal digits of
      the one-based monitor number. */
  function MonitorName(i: nat): (name: string)
    ensures |name| > 8 && name[..8] == "Monitor "
    ensures PyText.AllDigits(name[8..]) && PyText.DecimalValue(name[8..]) == i + 1
  {
    var digits := PyText.NatToString(i + 1);
    assert ("Monitor " + digits)[8..] == digits;
    "Monitor " + digits
  }

  /** `get_monitors`: with `mss` available, one entry per detected monitor,
      numbered from 0 in detection order, the first one primary; without
      it, the single test monitor. */
  function GetMonitors(mssAvailable: bool, monitors: seq<Monitor>): (r: seq<MonitorInfo>)
    ensures mssAvailable ==> |r| == |monitors|
    ensures mssAvailable ==> forall i :: 0 <= i < |r| ==>
      r[i].id == i && r[i].name == MonitorName(i)
      && r[i].width == monitors[i].width && r[i].height == monitors[i].height
    ensures !mssAvailable ==> r == [TestMonitor]
  {
    if mssAvailable then
      seq(|monitors|, i requires 0 <= i < |monitors| =>
        MonitorInfo(i, MonitorName(i), monitors[i].width, monitors[i].height, i == 0))
    else
      [TestMonitor]
  }

  /** The monitor list never reports two monitors with one id or one name,
      and exactly one monitor is primary whenever there is any: the one with
      id 0. */
  lemma GetMonitorsPrimaryUnique(mssAvailable: bool, monitors: seq<Monitor>)
    ensures var r := GetMonitors(mssAvailable, monitors);
      (forall i, j :: 0 <= i < j < |r| ==> r[i].id != r[j].id && r[i].name != r[j].name)
      && (forall i :: 0 <= i < |r| ==> (r[i].primary <==> r[i].id == 0))
      && (|r| > 0 ==> r[0].primary)
  {
    var r := GetMonitors(mssAvailable, monitors);
    forall i, j | 0 <= i < j < |r| ensures r[i].name != r[j].name {
      assert PyText.DecimalValue(MonitorName(i)[8..]) != PyText.DecimalValue(MonitorName(j)[8..]);
    }
  }

  /** `update_settings`: fps, resolution and quality are taken only from
      truthy values (an equal value changes nothing either), and the
      monitor index only when `select_monitor` accepts it. */
  function Merge(s: CaptureSettings, monitorCount: nat, p: SettingsPayload): (r: CaptureSettings)
    ensures r.fps == if TruthyInt(p.fps) then p.fps.value else s.fps
    ensures r.resolution == if TruthyList(p.resolution) then p.resolution.value else s.resolution
    ensures r.quality == if TruthyInt(p.quality) then p.quality.value else s.quality
    ensures r.monitor == if p.monitor.Some? && 0 <= p.monitor.value < monitorCount
                         then p.monitor.value else s.monitor
  {
    var fps := if TruthyInt(p.fps) && p.fps.value != s.fps then p.fps.value else s.fps;
    var resolution := if TruthyList(p.resolution) && p.resolution.value != s.resolution
                      then p.resolution.value else s.resolution;
    var quality := if TruthyInt(p.quality) && p.quality.value != s.quality then p.quality.value else s.quality;
    var monitor := if p.monitor.Some? && 0 <= p.monitor.value < monitorCount
                   then p.monitor.value else s.monitor;
    CaptureSettings(fps, resolution, quality, monitor)
  }

  /** Applying the same update twice leaves the settings as applying it once,
      and an update with every key absent or falsy changes nothing. */
  lemma MergeIdempotent(s: CaptureSettings, monitorCount: nat, p: SettingsPayload)
    ensures Merge(Merge(s, monitorCount, p), monitorCount, p) == Merge(s, monitorCount, p)
    ensures (!TruthyInt(p.fps) && !TruthyList(p.resolution) && !TruthyInt(p.quality)
             && p.monitor.None?) ==> Merge(s, monitorCount, p) == s
  {
  }

  class ScreenCapture {
    var targetFps: int
    var targetResolution: seq<int>
    var quality: int
    var running: bool
    var selectedMonitor: int
    const monitors: seq<Monitor>
    const mssAvailable: bool

    function Settings(): CaptureSettings
      reads this
    {
      CaptureSettings(targetFps, targetResolution, quality, selectedMonitor)
    }

    /** `ScreenCapture()` with its defaults: 60 fps, 1280x720, quality 85,
        monitor 0, not running; `detected` is what `mss` reports after the
        combined monitor, and no monitor is known without `mss`. */
    constructor (mssAvailable: bool, detected: seq<Monitor>)
      ensures Settings() == CaptureSettings(60, [1280, 720], 85, 0)
      ensures !running
      ensures this.mssAvailable == mssAvailable
      ensures monitors == if mssAvailable then detected else []
    {
      targetFps := 60;
      targetResolution := [1280, 720];
      quality := 85;
      running := false;
      selectedMonitor := 0;
      this.mssAvailable := mssAvailable;
      monitors := if mssAvailable then detected else [];
    }

    /** `select_monitor`: accepts exactly the indices of known monitors. */
    method SelectMonitor(monitorId: int) returns (ok: bool)
      modifies this`selectedMonitor
      ensures ok <==> 0 <= monitorId < |monitors|
      ensures selectedMonitor == if ok then monitorId else old(selectedMonitor)
    {
      ok := 0 <= monitorId < |monitors|;
      if ok {
        selectedMonitor := monitorId;
      }
    }

    /** `update_settings`: the settings become the merge of the old ones
        with the payload; the running flag is untouched. */
    method UpdateSettings(p: SettingsPayload)
      modifies this
      ensures Settings() == Merge(old(Settings()), |monitors|, p)
      ensures running == old(running)
    {
      if TruthyInt(p.fps) && p.fps.value != targetFps {
        targetFps := p.fps.value;
      }
      if TruthyList(p.resolution) && p.resolution.value != targetResolution {
        targetResolution := p.resolution.value;
      }
      if TruthyInt(p.quality) && p.quality.value != quality {
        quality := p.quality.value;
      }
      if p.monitor.Some? {
        var _ := SelectMonitor(p.monitor.value);
      }
    }

    /** `start_capture`: sets the running flag; when it is already set,
        nothing happens (no second capture task is created). */
    method StartCapture()
      modifies this`running
      ensures running
    {
      if running {
        return;
      }
      running := true;
    }

    /** `stop_capture`: clears the running flag. */
    method StopCapture()
      modifies this`running
      ensures !running
    {
      running := false;
    }
  }
}
