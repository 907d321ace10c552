/** `ScreenCapture` of screen_capture.py: the capture loop's bookkeeping.

    A frame is an opaque value: grabbing, colour conversion and resizing are
    done by foreign libraries, so one loop iteration is given what they
    produced, or `None` when one of them raised. Time is an abstract `real`
    clock given to each iteration; sleeping and the capture thread are not
    modelled, and start/stop only set the `running` flag. */
module CaptureLoop {
  import opened Wrappers

  /** A grabbed frame after conversion and resizing: its size and bytes. */
  datatype Frame = Frame(height: nat, width: nat, pixels: seq<bv8>)

  /** `queue.Queue(maxsize=5)`. */
  const QueueCapacity: nat := 5

  /** What one loop iteration observes: the result of grab/convert/resize
      (`None` when one of them raised) and the clock. */
  datatype TickInput = TickInput(grab: Option<Frame>, now: real)

  /** The newest `n` elements of `s`: all of them when there are at most `n`. */
  function Newest(s: seq<Frame>, n: nat): (r: seq<Frame>)
    ensures |r| == if |s| < n then |s| else n
    ensures r == s[|s| - |r|..]
  {
    if |s| <= n then s else s[|s| - n..]
  }

  /** `put_nowait(frame)`, and on `queue.Full` one `get_nowait()` followed by
      `put_nowait(frame)` again. On a queue within capacity the result is
      the newest `QueueCapacity` frames of the queue followed by `f`: a
      non-full queue gets `f` at its tail, a full one loses exactly its
      oldest frame, and the order of the others is kept. */
  function Offer(q: seq<Frame>, f: Frame): (r: seq<Frame>)
    requires |q| <= QueueCapacity
    ensures r == Newest(q + [f], QueueCapacity)
    ensures |r| <= QueueCapacity && r[|r| - 1] == f
  {
    if |q| < QueueCapacity then q + [f] else q[1..] + [f]
  }

  /** Keeping the newest frames of a longer history and then offering one
      more is the same as keeping the newest frames of the whole history. */
  lemma NewestThenOffer(s: seq<Frame>, f: Frame)
    ensures Offer(Newest(s, QueueCapacity), f) == Newest(s + [f], QueueCapacity)
  {
    var q := Newest(s, QueueCapacity);
    var t := s + [f];
    if |s| >= QueueCapacity {
      assert q + [f] == t[|t| - (QueueCapacity + 1)..];
      assert (q + [f])[1..] == t[|t| - QueueCapacity..];
    }
  }

  /** The frames of the successful iterations, in order. */
  function Grabbed(ticks: seq<TickInput>): seq<Frame> {
    if ticks == [] then []
    else
      var last := ticks[|ticks| - 1];
      Grabbed(ticks[..|ticks| - 1]) + (if last.grab.Some? then [last.grab.value] else [])
  }

  /** At most one frame per iteration; a frame is grabbed exactly when some
      iteration grabbed it, and nothing is grabbed exactly when every grab
      failed. */
  lemma {:induction false} GrabbedExact(ticks: seq<TickInput>)
    ensures |Grabbed(ticks)| <= |ticks|
    ensures forall f :: f in Grabbed(ticks) <==>
      exists i :: 0 <= i < |ticks| && ticks[i].grab == Some(f)
    ensures Grabbed(ticks) == [] <==> forall i :: 0 <= i < |ticks| ==> ticks[i].grab.None?
  {
    if ticks != [] {
      var init := ticks[..|ticks| - 1];
      GrabbedExact(init);
      assert forall i :: 0 <= i < |init| ==> init[i] == ticks[i];
    }
  }

  /** The frame in the slot after the iterations `ticks`: the last one
      grabbed, or `initial` when every grab failed. */
  function Latest(ticks: seq<TickInput>, initial: Option<Frame>): (r: Option<Frame>)
    ensures Grabbed(ticks) == [] ==> r == initial
    ensures Grabbed(ticks) != [] ==> r == Some(Grabbed(ticks)[|Grabbed(ticks)| - 1])
  {
    if ticks == [] then initial
    else if ticks[|ticks| - 1].grab.Some? then ticks[|ticks| - 1].grab
    else Latest(ticks[..|ticks| - 1], initial)
  }

  /** One more iteration extends the history by its frame, if any. */
  lemma GrabbedStep(ticks: seq<TickInput>, i: nat)
    requires i < |ticks|
    ensures Grabbed(ticks[..i + 1]) == Grabbed(ticks[..i])
              + (if ticks[i].grab.Some? then [ticks[i].grab.value] else [])
  {
    assert ticks[..i + 1][..i] == ticks[..i];
  }

  /** After one more iteration the slot holds its frame, if it grabbed one,
      or what it held before. */
  lemma LatestStep(ticks: seq<TickInput>, i: nat, initial: Option<Frame>)
    requires i < |ticks|
    ensures Latest(ticks[..i + 1], initial)
              == if ticks[i].grab.Some? then ticks[i].grab else Latest(ticks[..i], initial)
  {
    assert ticks[..i + 1][..i] == ticks[..i];
  }

  /** One more iteration: the newest frames of the longer history are the
      old queue with this iteration's frame offered, if it grabbed one. */
  lemma LoopStep(q0: seq<Frame>, ticks: seq<TickInput>, i: nat)
    requires i < |ticks|
    ensures var q := Newest(q0 + Grabbed(ticks[..i]), QueueCapacity);
      Newest(q0 + Grabbed(ticks[..i + 1]), QueueCapacity)
        == if ticks[i].grab.Some? then Offer(q, ticks[i].grab.value) else q
  {
    GrabbedStep(ticks, i);
    var history := q0 + Grabbed(ticks[..i]);
    if ticks[i].grab.Some? {
      var f := ticks[i].grab.value;
      calc {
        q0 + Grabbed(ticks[..i + 1]);
        q0 + (Grabbed(ticks[..i]) + [f]);
        history + [f];
      }
      NewestThenOffer(history, f);
    } else {
      assert Grabbed(ticks[..i + 1]) == Grabbed(ticks[..i]);
    }
  }

  /** The pacing rule after a successful iteration: advance the schedule by
      one interval when there is still time to sleep, otherwise reset it to
      the current time. The schedule is never left behind the clock. */
  function Pace(next: real, interval: real, now: real): (r: real)
    ensures r >= now
    ensures r == next + interval || r == now
    ensures next + interval > now ==> r == next + interval
  {
    if next + interval - now > 0.0 then next + interval else now
  }

  class ScreenCapture {
    const targetFps: int
    const targetResolution: (int, int)
    const frameInterval: real
    var running: bool
    var frameQueue: seq<Frame>
    var currentFrame: Option<Frame>
    var frameCount: nat
    var lastFpsTime: real

    ghost predicate Valid()
      reads this
    {
      |frameQueue| <= QueueCapacity
    }

    /** `ScreenCapture(target_fps, target_resolution)`: a zero rate would
        raise on `1.0 / target_fps`. */
    constructor (targetFps: int, targetResolution: (int, int), now: real)
      requires targetFps != 0
      ensures Valid()
      ensures this.targetFps == targetFps && this.targetResolution == targetResolution
      ensures frameInterval == 1.0 / targetFps as real
      ensures !running && frameQueue == [] && currentFrame == None
      ensures frameCount == 0 && lastFpsTime == now
    {
      this.targetFps := targetFps;
      this.targetResolution := targetResolution;
      frameInterval := 1.0 / targetFps as real;
      running := false;
      frameQueue := [];
      currentFrame := None;
      frameCount := 0;
      lastFpsTime := now;
    }

    /** `start_capture`: nothing happens when the loop is already running. */
    method StartCapture()
      modifies this`running
      ensures running
    {
      if running {
        return;
      }
      running := true;
    }

    /** `stop_capture`: clears the flag the loop polls. */
    method StopCapture()
      modifies this`running
      ensures !running
    {
      running := false;
    }

    /** `get_latest_frame`: the single overwrite slot. */
    function GetLatestFrame(): Option<Frame>
      reads this
    {
      currentFrame
    }

    /** `get_frame_from_queue`: a non-blocking FIFO pop; `None` and no change
        on an empty queue. */
    method GetFrameFromQueue() returns (f: Option<Frame>)
      requires Valid()
      modifies this`frameQueue
      ensures Valid()
      ensures old(frameQueue) == [] ==> f == None && frameQueue == []
      ensures old(frameQueue) != [] ==> f == Some(old(frameQueue)[0]) && frameQueue == old(frameQueue)[1..]
    {
      if frameQueue == [] {
        return None;
      }
      f := Some(frameQueue[0]);
      frameQueue := frameQueue[1..];
    }

    /** The drop-oldest put of `_capture_loop`. */
    method PutFrame(f: Frame)
      requires Valid()
      modifies this`frameQueue
      ensures Valid()
      ensures frameQueue == Offer(old(frameQueue), f)
    {
      if |frameQueue| < QueueCapacity {
        frameQueue := frameQueue + [f];
      } else {
        frameQueue := frameQueue[1..];
        frameQueue := frameQueue + [f];
      }
    }

    /** `_update_fps`: count the frame; when a second has passed since the
        window opened, close it: the count restarts at 0 and a new window
        opens now. */
    method UpdateFps(now: real)
      modifies this`frameCount, this`lastFpsTime
      ensures now - old(lastFpsTime) >= 1.0 ==> frameCount == 0 && lastFpsTime == now
      ensures now - old(lastFpsTime) < 1.0 ==>
        frameCount == old(frameCount) + 1 && lastFpsTime == old(lastFpsTime)
    {
      frameCount := frameCount + 1;
      if now - lastFpsTime >= 1.0 {
        frameCount := 0;
        lastFpsTime := now;
      }
    }

    /** One iteration of `_capture_loop` given the schedule `next`. A failed
        grab/convert/resize leaves every field and the schedule unchanged
        (the `continue` skips pacing); a success overwrites the slot, counts
        the frame, queues it and paces the schedule. */
    method Tick(t: TickInput, next: real) returns (next': real)
      requires Valid()
      modifies this`currentFrame, this`frameCount, this`lastFpsTime, this`frameQueue
      ensures Valid()
      ensures t.grab.None? ==> next' == next && unchanged(this)
      ensures currentFrame == if t.grab.Some? then t.grab else old(currentFrame)
      ensures frameQueue == if t.grab.Some? then Offer(old(frameQueue), t.grab.value) else old(frameQueue)
      ensures t.grab.Some? ==>
        && frameCount == (if t.now - old(lastFpsTime) >= 1.0 then 0 else old(frameCount) + 1)
        && lastFpsTime == (if t.now - old(lastFpsTime) >= 1.0 then t.now else old(lastFpsTime))
        && next' == Pace(next, frameInterval, t.now)
    {
      if t.grab.None? {
        return next;
      }
      currentFrame := t.grab;
      UpdateFps(t.now);
      PutFrame(t.grab.value);
      next' := next + frameInterval;
      var sleepTime := next' - t.now;
      if !(sleepTime > 0.0) {
        next' := t.now;
      }
    }

    /** `_capture_loop` from the start time `start`: `ticks` are the
        iterations that happen before another thread clears `running`. The
        queue ends up holding the newest frames of everything it held and
        everything grabbed, never more than its capacity, and the slot holds
        the last frame grabbed. */
    method RunCaptureLoop(start: real, ticks: seq<TickInput>) returns (next: real)
      requires Valid()
      modifies this`currentFrame, this`frameCount, this`lastFpsTime, this`frameQueue
      ensures Valid()
      ensures !running ==> unchanged(this)
      ensures running ==>
        && frameQueue == Newest(old(frameQueue) + Grabbed(ticks), QueueCapacity)
        && currentFrame == Latest(ticks, old(currentFrame))
    {
      next := start;
      if !running {
        return;
      }
      var i := 0;
      while i < |ticks|
        invariant 0 <= i <= |ticks|
        invariant Valid()
        invariant frameQueue == Newest(old(frameQueue) + Grabbed(ticks[..i]), QueueCapacity)
        invariant currentFrame == Latest(ticks[..i], old(currentFrame))
      {
        LoopStep(old(frameQueue), ticks, i);
        LatestStep(ticks, i, old(currentFrame));
        next := Tick(ticks[i], next);
        i := i + 1;
      }
      assert ticks[..i] == ticks;
    }
  }
}
