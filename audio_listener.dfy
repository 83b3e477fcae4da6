/** The microphone listener (src/audio/audio.py): a monitor queue of frames
    received from the network, the gain and clip applied to each queued
    frame, the output callback that turns the front frame into one output
    block, and the running / stopped life cycle. The sounddevice streams are
    opaque handles; opening them is a parameter of Run. */
module AudioListener {
  import opened Wrappers
  import opened Payload
  import opened DropOldestQueue

  /** One block of mono samples. */
  type Frame = seq<real>

  /** `queue.Queue(maxsize=200)` in the listener's constructor. */
  const MonitorQueueCapacity: nat := 200

  /** Every sample lies in the valid range [-1, 1]. */
  predicate InUnitRange(frame: Frame) {
    forall i :: 0 <= i < |frame| ==> -1.0 <= frame[i] <= 1.0
  }

  function Min(a: real, b: real): real { if a <= b then a else b }
  function Max(a: real, b: real): real { if a >= b then a else b }
  function Abs(a: real): real { if a < 0.0 then -a else a }

  /** `np.clip(x, -1.0, 1.0)` on one sample. */
  function Clip(x: real): (r: real)
    ensures -1.0 <= r <= 1.0
    ensures -1.0 <= x <= 1.0 ==> r == x
  {
    Min(Max(x, -1.0), 1.0)
  }

  /** Clipping moves a sample to the nearest point of [-1, 1]. */
  lemma ClipIsNearest(x: real, y: real)
    requires -1.0 <= y <= 1.0
    ensures Abs(Clip(x) - x) <= Abs(y - x)
  {
  }

  /** `max(0.0, min(1.0, gain))`, the gain that `set_monitor_gain` stores. */
  function ClampGain(g: real): (r: real)
    ensures 0.0 <= r <= 1.0
    ensures 0.0 <= g <= 1.0 ==> r == g
  {
    Max(0.0, Min(1.0, g))
  }

  /** Clamping moves the gain to the nearest point of [0, 1]. */
  lemma ClampGainIsNearest(g: real, y: real)
    requires 0.0 <= y <= 1.0
    ensures Abs(ClampGain(g) - g) <= Abs(y - g)
  {
  }

  /** One sample times the gain, clipped to [-1, 1]. */
  function GainSample(x: real, gain: real): (r: real)
    ensures -1.0 <= r <= 1.0
  {
    Clip(x * gain)
  }

  /** A copy of the frame scaled by the gain and clipped to [-1, 1]: what
      `audio_queue_put` stores. */
  function Scaled(frame: Frame, gain: real): (r: Frame)
    ensures |r| == |frame| && InUnitRange(r)
  {
    var r := seq(|frame|, i requires 0 <= i < |frame| => GainSample(frame[i], gain));
    assert forall i :: 0 <= i < |frame| ==> r[i] == GainSample(frame[i], gain);
    r
  }

  lemma MulNonnegative(a: real, b: real)
    requires a >= 0.0 && b >= 0.0
    ensures a * b >= 0.0
  {
  }

  /** A sample in [-1, 1] times a gain in [0, 1] stays in [-1, 1]. */
  lemma ProductInUnitRange(x: real, g: real)
    requires -1.0 <= x <= 1.0 && 0.0 <= g <= 1.0
    ensures -1.0 <= x * g <= 1.0
  {
    MulNonnegative(1.0 - x, g);
    MulNonnegative(1.0 + x, g);
  }

  /** For samples in [-1, 1] and a gain in [0, 1] the clip never acts: the
      stored frame is exactly the input scaled by the gain. */
  lemma {:induction false} ScaledWithinRangeIsExact(frame: Frame, gain: real)
    requires InUnitRange(frame) && 0.0 <= gain <= 1.0
    ensures forall i :: 0 <= i < |frame| ==> Scaled(frame, gain)[i] == frame[i] * gain
  {
    forall i | 0 <= i < |frame|
      ensures Scaled(frame, gain)[i] == frame[i] * gain
    {
      ProductInUnitRange(frame[i], gain);
      assert Scaled(frame, gain)[i] == GainSample(frame[i], gain);
    }
  }

  function Zeros(n: nat): (r: Frame)
    ensures |r| == n && forall i :: 0 <= i < n ==> r[i] == 0.0
  {
    seq(n, i => 0.0)
  }

  /** The output block of n samples made from a frame: zero-padded when the
      frame is shorter, truncated when it is longer. */
  function Fit(frame: Frame, n: nat): (r: Frame)
    ensures |r| == n
    ensures forall i :: 0 <= i < n ==> r[i] == if i < |frame| then frame[i] else 0.0
  {
    if |frame| < n then frame + Zeros(n - |frame|) else frame[..n]
  }

  /** A frame of exactly the block length is played unchanged. */
  lemma FitExactLength(frame: Frame)
    ensures Fit(frame, |frame|) == frame
  {
  }

  /** What the input callback hands to `send_package`: `{"data": indata.copy()}`. */
  function CapturedPackage(indata: Frame): (r: Value)
    ensures Field(r, "data") == Some(Samples(indata))
  {
    Wrap(Samples(indata))
  }

  /** `a[start..start + |src|] := src`, a numpy slice assignment. */
  method CopyInto(a: array<real>, start: nat, src: Frame)
    requires start + |src| <= a.Length
    modifies a
    ensures a[..] == old(a[..start]) + src + old(a[start + |src|..])
  {
    var k := 0;
    while k < |src|
      invariant 0 <= k <= |src|
      invariant a[..] == old(a[..start]) + src[..k] + old(a[start + k..])
    {
      a[start + k] := src[k];
      k := k + 1;
      assert a[..] == old(a[..start]) + src[..k] + old(a[start + k..]) by {
        assert forall j :: 0 <= j < a.Length ==>
          a[j] == (old(a[..start]) + src[..k] + old(a[start + k..]))[j];
      }
    }
  }

  /** `a[start:] = 0` (and `a.fill(0)` when start is 0). */
  method ZeroFrom(a: array<real>, start: nat)
    requires start <= a.Length
    modifies a
    ensures a[..] == old(a[..start]) + Zeros(a.Length - start)
  {
    var k := start;
    while k < a.Length
      invariant start <= k <= a.Length
      invariant a[..] == old(a[..start]) + Zeros(k - start) + old(a[k..])
    {
      a[k] := 0.0;
      k := k + 1;
      assert a[..] == old(a[..start]) + Zeros(k - start) + old(a[k..]) by {
        assert forall j :: 0 <= j < a.Length ==>
          a[j] == (old(a[..start]) + Zeros(k - start) + old(a[k..]))[j];
      }
    }
  }

  /** An open sounddevice stream on a device (None: the default device). */
  datatype Stream = Stream(device: Option<nat>)

  /** `MicrophoneListener`. The callbacks `on_stop`, `on_start` and
      `on_error` are counted by how many times they were called. */
  class MicrophoneListener {
    var monitorGain: real
    var running: bool
    const audioQueue: BoundedQueue<Frame>
    const inputDevice: Option<nat>
    const outputDevice: Option<nat>
    var inputStream: Option<Stream>
    var outputStream: Option<Stream>
    const hasOnStart: bool
    const hasOnStop: bool
    const hasOnError: bool
    var startCalls: nat
    var stopCalls: nat
    var errorCalls: nat

    /** The monitor queue is bounded by 200 and holds only clipped frames;
        a listener that is not running holds no stream. */
    ghost predicate Valid()
      reads this, audioQueue
    {
      && audioQueue.Valid()
      && audioQueue.capacity == MonitorQueueCapacity
      && (forall f :: f in audioQueue.items ==> InUnitRange(f))
      && (!running ==> inputStream == None && outputStream == None)
    }

    /** `__init__`: the gain is stored as given (it is clamped only by
        `set_monitor_gain`). */
    constructor (monitorGain: real, inputDevice: Option<nat>, outputDevice: Option<nat>,
                 hasOnStart: bool, hasOnStop: bool, hasOnError: bool)
      ensures Valid() && fresh(audioQueue)
      ensures this.monitorGain == monitorGain && !running
      ensures audioQueue.items == []
      ensures this.inputDevice == inputDevice && this.outputDevice == outputDevice
      ensures this.hasOnStart == hasOnStart && this.hasOnStop == hasOnStop && this.hasOnError == hasOnError
      ensures startCalls == 0 && stopCalls == 0 && errorCalls == 0
    {
      this.monitorGain := monitorGain;
      running := false;
      audioQueue := new BoundedQueue<Frame>(MonitorQueueCapacity);
      this.inputDevice := inputDevice;
      this.outputDevice := outputDevice;
      inputStream := None;
      outputStream := None;
      this.hasOnStart := hasOnStart;
      this.hasOnStop := hasOnStop;
      this.hasOnError := hasOnError;
      startCalls, stopCalls, errorCalls := 0, 0, 0;
    }

    /** `audio_queue_put`: a drop-oldest put of the frame scaled by the
        current gain and clipped. The caller's frame is a value and is not
        changed. */
    method AudioQueuePut(indata: Frame)
      requires Valid()
      modifies audioQueue
      ensures Valid()
      ensures audioQueue.items == Pushed(old(audioQueue.items), MonitorQueueCapacity, Scaled(indata, monitorGain))
    {
      var gain := monitorGain;
      var audioData := Scaled(indata, gain);
      audioQueue.Push(audioData);
      PushedKeepsOldOrNew(old(audioQueue.items), MonitorQueueCapacity, audioData);
    }

    /** `_output_callback`: takes the front frame, if any, and writes it into
        the output block, padded with silence or truncated; with nothing
        queued the block becomes silence. */
    method OutputCallback(outdata: array<real>)
      requires Valid()
      modifies audioQueue, outdata
      ensures Valid()
      ensures old(audioQueue.items) == [] ==>
        audioQueue.items == [] && outdata[..] == Zeros(outdata.Length)
      ensures old(audioQueue.items) != [] ==>
        audioQueue.items == old(audioQueue.items)[1..] && outdata[..] == Fit(old(audioQueue.items)[0], outdata.Length)
    {
      var data := audioQueue.GetNowait();
      match data {
        case Some(frame) =>
          if |frame| < outdata.Length {
            CopyInto(outdata, 0, frame);
            ZeroFrom(outdata, |frame|);
          } else {
            CopyInto(outdata, 0, frame[..outdata.Length]);
          }
        case None =>
          ZeroFrom(outdata, 0);
      }
    }

    /** `run` up to its waiting loop: the listener is running; if both
        streams were opened and started, `on_start` is called; otherwise
        the exception calls `on_error` and the `finally` block stops the
        listener. */
    method Run(streamsStarted: bool)
      requires Valid()
      modifies this, audioQueue
      ensures Valid()
      ensures monitorGain == old(monitorGain)
      ensures streamsStarted ==>
                && running && audioQueue.items == old(audioQueue.items)
                && inputStream == Some(Stream(inputDevice)) && outputStream == Some(Stream(outputDevice))
                && startCalls == old(startCalls) + (if hasOnStart then 1 else 0)
                && stopCalls == old(stopCalls) && errorCalls == old(errorCalls)
      ensures !streamsStarted ==>
                && !running && audioQueue.items == []
                && inputStream == None && outputStream == None
                && startCalls == old(startCalls)
                && stopCalls == old(stopCalls) + (if hasOnStop then 1 else 0)
                && errorCalls == old(errorCalls) + (if hasOnError then 1 else 0)
    {
      running := true;
      if streamsStarted {
        inputStream := Some(Stream(inputDevice));
        outputStream := Some(Stream(outputDevice));
        if hasOnStart {
          startCalls := startCalls + 1;
        }
      } else {
        if hasOnError {
          errorCalls := errorCalls + 1;
        }
        Stop();
      }
    }

    /** `stop`: acts only while running. It clears the flag, drops both
        streams, drains the monitor queue and calls `on_stop` once; on a
        stopped listener it changes nothing. */
    method Stop()
      requires Valid()
      modifies this, audioQueue
      ensures Valid()
      ensures !running && inputStream == None && outputStream == None
      ensures monitorGain == old(monitorGain) && startCalls == old(startCalls) && errorCalls == old(errorCalls)
      ensures old(running) ==> audioQueue.items == [] && stopCalls == old(stopCalls) + (if hasOnStop then 1 else 0)
      ensures !old(running) ==> audioQueue.items == old(audioQueue.items) && stopCalls == old(stopCalls)
    {
      if running {
        running := false;
        inputStream := None;
        outputStream := None;
        audioQueue.Drain();
        if hasOnStop {
          stopCalls := stopCalls + 1;
        }
      }
    }

    /** `is_running`. */
    method IsRunning() returns (r: bool)
      ensures r == running
    {
      r := running;
    }

    /** `set_monitor_gain`: the stored gain is the given one clamped to [0, 1]. */
    method SetMonitorGain(gain: real)
      requires Valid()
      modifies this`monitorGain
      ensures Valid()
      ensures monitorGain == ClampGain(gain) && 0.0 <= monitorGain <= 1.0
    {
      monitorGain := ClampGain(gain);
    }
  }

  /** A second `stop` changes nothing and does not call `on_stop` again. */
  method StopTwice(listener: MicrophoneListener)
    requires listener.Valid()
    modifies listener, listener.audioQueue
    ensures !listener.running
    ensures old(listener.running) ==> listener.audioQueue.items == []
    ensures listener.stopCalls == old(listener.stopCalls) + (if old(listener.running) && listener.hasOnStop then 1 else 0)
  {
    listener.Stop();
    var afterFirst := listener.stopCalls;
    listener.Stop();
    assert listener.stopCalls == afterFirst;
  }
}
