/** `PoseProcessor`: a singleton that drops frames arriving within 150 ms of
    the last analysed one, packs the accepted frame's Y, V and U planes into
    one NV21 byte array, and hands the detector's result to a callback. The
    clock, the MediaPipe detector and the JPEG/bitmap conversion are foreign:
    the time and the detector's behaviour are parameters. */
module Camera {
  import opened JavaInts

  /** `FRAME_INTERVAL_MS`. */
  const FrameIntervalMs: int := 150

  /** A frame at `now` is dropped when it is too close to the last accepted one. */
  predicate Throttled(lastAnalyzedTime: int, now: int) {
    now - lastAnalyzedTime < FrameIntervalMs
  }

  /** The camera image behind an `ImageProxy`: its three planes' remaining bytes. */
  datatype Image = Image(width: int, height: int, yPlane: seq<byte>, uPlane: seq<byte>, vPlane: seq<byte>)

  /** A CameraX `ImageProxy`: `image` may be null; `closeCount` counts `close()` calls. */
  class ImageProxy {
    const image: Option<Image>
    const rotationDegrees: int
    var closeCount: nat

    constructor (image: Option<Image>, rotationDegrees: int)
      ensures this.image == image && this.rotationDegrees == rotationDegrees && closeCount == 0
    {
      this.image := image;
      this.rotationDegrees := rotationDegrees;
      closeCount := 0;
    }

    method Close()
      modifies this`closeCount
      ensures closeCount == old(closeCount) + 1
    {
      closeCount := closeCount + 1;
    }
  }

  /** Stand-in for MediaPipe's `PoseLandmarkerResult`, which the model does not inspect. */
  datatype LandmarkerResult = LandmarkerResult(poses: nat)

  /** What `detectForVideo` does on this frame: return a result or throw. */
  datatype DetectorCall = Returns(result: LandmarkerResult) | Throws

  /** What one `analyzeImage` call did besides closing the proxy: the
      argument of its one `onPoseResult` call (if it made one), and the NV21
      bytes it packed (if it got that far). */
  datatype Analysis = Analysis(callback: Option<Option<LandmarkerResult>>, packed: Option<seq<byte>>)

  /** The NV21 layout: all of Y, then V, then U. */
  function Nv21(image: Image): seq<byte> {
    image.yPlane + image.vPlane + image.uPlane
  }

  /** The accepted frame times among `times`, starting from `lastAnalyzedTime`. */
  function AcceptedTimes(lastAnalyzedTime: int, times: seq<int>): seq<int>
    decreases |times|
  {
    if times == [] then []
    else if Throttled(lastAnalyzedTime, times[0]) then AcceptedTimes(lastAnalyzedTime, times[1..])
    else [times[0]] + AcceptedTimes(times[0], times[1..])
  }

  /** Every accepted frame is at least the interval after the previous
      accepted one (and after the starting time), whatever the clock does. */
  lemma {:induction false} AcceptedTimesSpaced(lastAnalyzedTime: int, times: seq<int>)
    ensures var a := AcceptedTimes(lastAnalyzedTime, times);
      && (|a| > 0 ==> a[0] - lastAnalyzedTime >= FrameIntervalMs)
      && (forall i :: 0 <= i < |a| - 1 ==> a[i + 1] - a[i] >= FrameIntervalMs)
      && (forall t :: t in a ==> t in times)
    decreases |times|
  {
    if times != [] {
      if Throttled(lastAnalyzedTime, times[0]) {
        AcceptedTimesSpaced(lastAnalyzedTime, times[1..]);
      } else {
        AcceptedTimesSpaced(times[0], times[1..]);
        var rest := AcceptedTimes(times[0], times[1..]);
        var a := AcceptedTimes(lastAnalyzedTime, times);
        assert a == [times[0]] + rest;
        forall i | 0 <= i < |a| - 1 ensures a[i + 1] - a[i] >= FrameIntervalMs {
          if i > 0 {
            assert a[i] == rest[i - 1] && a[i + 1] == rest[i];
          }
        }
      }
    }
  }

  /** Any two accepted frames are at least the interval apart, in order. */
  lemma {:induction false} AcceptedTimesPairwiseSpaced(lastAnalyzedTime: int, times: seq<int>, i: nat, j: nat)
    requires i < j < |AcceptedTimes(lastAnalyzedTime, times)|
    ensures var a := AcceptedTimes(lastAnalyzedTime, times);
      a[j] - a[i] >= FrameIntervalMs * (j - i)
    decreases j - i
  {
    AcceptedTimesSpaced(lastAnalyzedTime, times);
    if j > i + 1 {
      AcceptedTimesPairwiseSpaced(lastAnalyzedTime, times, i, j - 1);
    }
  }

  /** `buffer.get(dst, offset, length)`: copies the plane's remaining bytes
      into `dst` from `offset` on. */
  method BufferGet(plane: seq<byte>, dst: array<byte>, offset: nat)
    requires offset + |plane| <= dst.Length
    modifies dst
    ensures dst[..] == old(dst[..offset]) + plane + old(dst[offset + |plane|..])
  {
    var k := 0;
    while k < |plane|
      invariant 0 <= k <= |plane|
      invariant dst[..] == old(dst[..offset]) + plane[..k] + old(dst[offset + k..])
    {
      dst[offset + k] := plane[k];
      k := k + 1;
      assert plane[..k] == plane[..k - 1] + [plane[k - 1]];
    }
  }

  /** Where each plane sits in the NV21 layout: Y from 0, V right after Y,
      U right after V, and nothing else. */
  lemma Nv21Layout(image: Image)
    ensures var nv21 := Nv21(image);
      var ySize := |image.yPlane|;
      var vSize := |image.vPlane|;
      && |nv21| == ySize + |image.uPlane| + vSize
      && nv21[..ySize] == image.yPlane
      && nv21[ySize..ySize + vSize] == image.vPlane
      && nv21[ySize + vSize..] == image.uPlane
  {
  }

  /** The plane concatenation of `imageToBitmap`. */
  method PackNv21(image: Image) returns (nv21: array<byte>)
    ensures fresh(nv21)
    ensures nv21.Length == |image.yPlane| + |image.uPlane| + |image.vPlane|
    ensures nv21[..] == Nv21(image)
  {
    var ySize := |image.yPlane|;
    var uSize := |image.uPlane|;
    var vSize := |image.vPlane|;
    nv21 := new byte[ySize + uSize + vSize];
    BufferGet(image.yPlane, nv21, 0);
    BufferGet(image.vPlane, nv21, ySize);
    assert nv21[..ySize + vSize] == image.yPlane + image.vPlane;
    BufferGet(image.uPlane, nv21, ySize + vSize);
  }

  class PoseProcessor {
    var lastAnalyzedTime: int
    /** Whether `initPoseLandmarker` has run (`poseLandmarker != null`). */
    var landmarkerReady: bool

    constructor ()
      ensures lastAnalyzedTime == 0 && !landmarkerReady
    {
      lastAnalyzedTime := 0;
      landmarkerReady := false;
    }

    method InitPoseLandmarker()
      modifies this`landmarkerReady
      ensures landmarkerReady
    {
      landmarkerReady := true;
    }

    /** `analyzeImage` at clock time `now`. */
    method AnalyzeImage(now: int, proxy: ImageProxy, detector: DetectorCall) returns (r: Analysis)
      modifies this`lastAnalyzedTime, proxy`closeCount
      ensures proxy.closeCount == old(proxy.closeCount) + 1
      ensures Throttled(old(lastAnalyzedTime), now) ==>
        lastAnalyzedTime == old(lastAnalyzedTime) && r.callback.None? && r.packed.None?
      ensures !Throttled(old(lastAnalyzedTime), now) ==> lastAnalyzedTime == now
      ensures r.packed.Some? <==> !Throttled(old(lastAnalyzedTime), now) && proxy.image.Some?
      ensures r.packed.Some? ==> r.packed.value == Nv21(proxy.image.value)
      ensures r.callback.Some? <==>
        !Throttled(old(lastAnalyzedTime), now) && proxy.image.Some? && !(landmarkerReady && detector.Throws?)
      ensures r.callback.Some? ==>
        r.callback.value == (if landmarkerReady then Some(detector.result) else None)
    {
      if now - lastAnalyzedTime < FrameIntervalMs {
        proxy.Close();
        return Analysis(None, None);
      }
      lastAnalyzedTime := now;

      if proxy.image.None? {
        proxy.Close();
        return Analysis(None, None);
      }

      var nv21 := PackNv21(proxy.image.value);
      // The JPEG round trip and the mirror flip happen here.
      var callback: Option<Option<LandmarkerResult>> := None;
      if !landmarkerReady {
        // `poseLandmarker?.detectForVideo` is null without a call.
        callback := Some(None);
      } else if detector.Returns? {
        callback := Some(Some(detector.result));
      }
      // A thrown exception is logged and swallowed; `finally` closes the proxy.
      proxy.Close();
      r := Analysis(callback, Some(nv21[..]));
    }
  }

  /** A stream of frames at the clock times `times`, each with an image,
      handed one by one to `analyzeImage`: exactly the frames `AcceptedTimes`
      picks are analysed, so any two analysed frames are at least the
      interval apart. */
  method AnalyzeFrames(processor: PoseProcessor, times: seq<int>, image: Image, detector: DetectorCall)
    returns (analysed: seq<int>)
    modifies processor`lastAnalyzedTime
    ensures analysed == AcceptedTimes(old(processor.lastAnalyzedTime), times)
    ensures forall i :: 0 <= i < |analysed| - 1 ==> analysed[i + 1] - analysed[i] >= FrameIntervalMs
  {
    analysed := [];
    var i := 0;
    while i < |times|
      invariant 0 <= i <= |times|
      invariant analysed + AcceptedTimes(processor.lastAnalyzedTime, times[i..])
        == AcceptedTimes(old(processor.lastAnalyzedTime), times)
    {
      assert times[i..][1..] == times[i + 1..];
      var proxy := new ImageProxy(Some(image), 0);
      var r := processor.AnalyzeImage(times[i], proxy, detector);
      if r.packed.Some? {
        analysed := analysed + [times[i]];
      }
      i := i + 1;
    }
    AcceptedTimesSpaced(old(processor.lastAnalyzedTime), times);
  }
}
