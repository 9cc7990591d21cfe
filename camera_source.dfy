/** The configuration arithmetic of `CameraSource`: facing validation, zoom
    index lookup, preview/picture size pairing and selection, preview FPS range
    choice, rotation angles and the preview buffer size. The Android `Camera`
    and `Parameters` objects are replaced by the plain lists they return. */
module MlKitUtils {
  import opened JavaInts

  /** `CameraInfo.CAMERA_FACING_BACK` and `CameraInfo.CAMERA_FACING_FRONT`. */
  const CameraFacingBack: int := 0
  const CameraFacingFront: int := 1

  /** `Surface.ROTATION_0` .. `Surface.ROTATION_270`. */
  const Rotation0: int := 0
  const Rotation90: int := 1
  const Rotation180: int := 2
  const Rotation270: int := 3

  /** `ImageFormat.getBitsPerPixel(ImageFormat.NV21)`. */
  const Nv21BitsPerPixel: nat := 12

  const DefaultRequestedPreviewWidth: int := 1280
  const DefaultRequestedPreviewHeight: int := 720

  /** `REQUESTED_FPS` (60.0f) scaled by 1000, as the camera API counts frame rates. */
  const RequestedFpsScaled: int := 60000

  predicate IsSupportedFacing(facing: int) {
    facing == CameraFacingBack || facing == CameraFacingFront
  }

  // ---------------------------------------------------------------------------
  // Zoom
  // ---------------------------------------------------------------------------

  /** `getZoomValue`: the largest zoom index whose ratio does not exceed `zoom`
      (ratios in hundredths, as the camera reports them). The API guarantees
      `maxZoom + 1` ratios. */
  method GetZoomValue(zoomRatios: seq<int>, maxZoom: nat, zoom: int) returns (z: nat)
    requires maxZoom < |zoomRatios|
    ensures z <= maxZoom
    ensures forall j :: 1 <= j <= z ==> zoomRatios[j] <= zoom
    ensures z < maxZoom ==> zoomRatios[z + 1] > zoom
  {
    var i := 0;
    while i < maxZoom
      invariant 0 <= i <= maxZoom
      invariant forall j :: 1 <= j <= i ==> zoomRatios[j] <= zoom
    {
      if zoomRatios[i + 1] > zoom {
        return i;
      }
      i := i + 1;
    }
    return maxZoom;
  }

  // ---------------------------------------------------------------------------
  // Preview and picture sizes
  // ---------------------------------------------------------------------------

  datatype Size = Size(width: int, height: int)

  /** A preview size and the picture size of the same aspect ratio, if any. */
  datatype SizePair = SizePair(preview: Size, picture: Option<Size>)

  /** The first picture size that `sameAspect` pairs with `preview`. */
  function FirstAspectMatch(preview: Size, pictures: seq<Size>, sameAspect: (Size, Size) -> bool)
    : (r: Option<Size>)
    ensures r.None? <==> forall k :: 0 <= k < |pictures| ==> !sameAspect(preview, pictures[k])
    ensures r.Some? ==>
      exists k :: 0 <= k < |pictures| && pictures[k] == r.value && sameAspect(preview, r.value)
        && forall j :: 0 <= j < k ==> !sameAspect(preview, pictures[j])
    decreases |pictures|
  {
    if pictures == [] then None
    else if sameAspect(preview, pictures[0]) then Some(pictures[0])
    else
      FirstAspectMatch(preview, pictures[1..], sameAspect)
  }

  /** Each preview size that has a same-aspect picture size, in order, paired
      with the first such picture size. */
  function MatchedPairs(previews: seq<Size>, pictures: seq<Size>, sameAspect: (Size, Size) -> bool)
    : seq<SizePair>
    decreases |previews|
  {
    if previews == [] then []
    else
      var last := previews[|previews| - 1];
      var init := MatchedPairs(previews[..|previews| - 1], pictures, sameAspect);
      match FirstAspectMatch(last, pictures, sameAspect)
      case None => init
      case Some(q) => init + [SizePair(last, Some(q))]
  }

  /** Every preview size, in order, with no picture size. */
  function UnpairedPreviews(previews: seq<Size>): (r: seq<SizePair>) {
    seq(|previews|, i requires 0 <= i < |previews| => SizePair(previews[i], None))
  }

  /** What `generateValidPreviewSizeList` returns. */
  function ValidPreviewSizes(previews: seq<Size>, pictures: seq<Size>, sameAspect: (Size, Size) -> bool)
    : seq<SizePair>
  {
    var matched := MatchedPairs(previews, pictures, sameAspect);
    if matched == [] then UnpairedPreviews(previews) else matched
  }

  predicate NoAspectMatch(previews: seq<Size>, pictures: seq<Size>, sameAspect: (Size, Size) -> bool) {
    forall i :: 0 <= i < |previews| ==> FirstAspectMatch(previews[i], pictures, sameAspect).None?
  }

  /** The positions in `previews` of the entries of `MatchedPairs`. */
  ghost function MatchedIndices(previews: seq<Size>, pictures: seq<Size>, sameAspect: (Size, Size) -> bool)
    : seq<nat>
    decreases |previews|
  {
    if previews == [] then []
    else
      var n := |previews| - 1;
      var init := MatchedIndices(previews[..n], pictures, sameAspect);
      if FirstAspectMatch(previews[n], pictures, sameAspect).Some? then init + [n] else init
  }

  /** The matched list is a subsequence of the preview sizes (each preview
      entry used at most once, order kept), each paired with its first
      same-aspect picture size. */
  lemma {:induction false} MatchedPairsAreSubsequence(previews: seq<Size>, pictures: seq<Size>,
                                                      sameAspect: (Size, Size) -> bool)
    ensures var m := MatchedPairs(previews, pictures, sameAspect);
      var idx := MatchedIndices(previews, pictures, sameAspect);
      && |idx| == |m| <= |previews|
      && (forall i :: 0 <= i < |m| ==>
            && idx[i] < |previews|
            && FirstAspectMatch(previews[idx[i]], pictures, sameAspect).Some?
            && m[i] == SizePair(previews[idx[i]], FirstAspectMatch(previews[idx[i]], pictures, sameAspect)))
      && (forall i, j :: 0 <= i < j < |idx| ==> idx[i] < idx[j])
    decreases |previews|
  {
    if previews != [] {
      var n := |previews| - 1;
      var init := previews[..n];
      MatchedPairsAreSubsequence(init, pictures, sameAspect);
      var ii := MatchedIndices(init, pictures, sameAspect);
      assert forall i :: 0 <= i < n ==> previews[i] == init[i];
      assert forall i :: 0 <= i < |ii| ==> ii[i] < n;
    }
  }

  /** No preview size with a same-aspect picture size is left out. */
  lemma {:induction false} MatchedPairsComplete(previews: seq<Size>, pictures: seq<Size>,
                                                sameAspect: (Size, Size) -> bool, k: nat)
    requires k < |previews| && FirstAspectMatch(previews[k], pictures, sameAspect).Some?
    ensures k in MatchedIndices(previews, pictures, sameAspect)
    decreases |previews|
  {
    var n := |previews| - 1;
    if k < n {
      assert previews[..n][k] == previews[k];
      MatchedPairsComplete(previews[..n], pictures, sameAspect, k);
    }
  }

  /** The matched list is empty exactly when no preview size has a
      same-aspect picture size. */
  lemma {:induction false} MatchedPairsEmptyIff(previews: seq<Size>, pictures: seq<Size>,
                                                sameAspect: (Size, Size) -> bool)
    ensures MatchedPairs(previews, pictures, sameAspect) == [] <==> NoAspectMatch(previews, pictures, sameAspect)
    decreases |previews|
  {
    if previews != [] {
      var n := |previews| - 1;
      var init := previews[..n];
      MatchedPairsEmptyIff(init, pictures, sameAspect);
      assert forall i :: 0 <= i < n ==> previews[i] == init[i];
      if NoAspectMatch(previews, pictures, sameAspect) {
        assert NoAspectMatch(init, pictures, sameAspect) by {
          forall i | 0 <= i < n ensures FirstAspectMatch(init[i], pictures, sameAspect).None? {
            assert init[i] == previews[i];
          }
        }
      }
    }
  }

  /** The list `generateValidPreviewSizeList` returns is empty only when there
      are no preview sizes; when no pair matched it is every preview size in
      order with a null picture size. */
  lemma ValidPreviewSizesProperties(previews: seq<Size>, pictures: seq<Size>,
                                    sameAspect: (Size, Size) -> bool)
    ensures var v := ValidPreviewSizes(previews, pictures, sameAspect);
      && (v == [] <==> previews == [])
      && (NoAspectMatch(previews, pictures, sameAspect) ==>
            |v| == |previews| && forall i :: 0 <= i < |v| ==> v[i] == SizePair(previews[i], None))
      && (!NoAspectMatch(previews, pictures, sameAspect) ==>
            v == MatchedPairs(previews, pictures, sameAspect)
            && forall i :: 0 <= i < |v| ==> v[i].preview in previews && v[i].picture.Some?)
  {
    MatchedPairsAreSubsequence(previews, pictures, sameAspect);
    MatchedPairsEmptyIff(previews, pictures, sameAspect);
    var m := MatchedPairs(previews, pictures, sameAspect);
    var idx := MatchedIndices(previews, pictures, sameAspect);
    if previews != [] && m == [] {
      assert UnpairedPreviews(previews)[0] == SizePair(previews[0], None);
    }
    forall i | 0 <= i < |m| ensures m[i].preview in previews {
      assert m[i].preview == previews[idx[i]];
    }
  }

  /** `generateValidPreviewSizeList`, appending to the list in place. */
  method GenerateValidPreviewSizeList(previews: seq<Size>, pictures: seq<Size>,
                                      sameAspect: (Size, Size) -> bool)
    returns (valid: seq<SizePair>)
    ensures valid == ValidPreviewSizes(previews, pictures, sameAspect)
  {
    valid := [];
    var i := 0;
    while i < |previews|
      invariant 0 <= i <= |previews|
      invariant valid == MatchedPairs(previews[..i], pictures, sameAspect)
    {
      var preview := previews[i];
      var j := 0;
      var found := false;
      while j < |pictures| && !found
        invariant 0 <= j <= |pictures|
        invariant !found ==> FirstAspectMatch(preview, pictures, sameAspect)
                               == FirstAspectMatch(preview, pictures[j..], sameAspect)
        invariant found ==> 0 < j && FirstAspectMatch(preview, pictures, sameAspect) == Some(pictures[j - 1])
        invariant found ==> valid == MatchedPairs(previews[..i], pictures, sameAspect)
                                     + [SizePair(preview, Some(pictures[j - 1]))]
        invariant !found ==> valid == MatchedPairs(previews[..i], pictures, sameAspect)
      {
        assert pictures[j..][1..] == pictures[j + 1..];
        if sameAspect(preview, pictures[j]) {
          valid := valid + [SizePair(preview, Some(pictures[j]))];
          found := true;
        }
        j := j + 1;
      }
      assert previews[..i + 1][..i] == previews[..i];
      i := i + 1;
    }
    assert previews[..i] == previews;
    if |valid| == 0 {
      var k := 0;
      while k < |previews|
        invariant 0 <= k <= |previews|
        invariant valid == UnpairedPreviews(previews[..k])
      {
        valid := valid + [SizePair(previews[k], None)];
        k := k + 1;
      }
      assert previews[..k] == previews;
    }
  }

  /** L1 distance between a preview size and the requested size. */
  function SizeDiff(size: Size, desiredWidth: int, desiredHeight: int): nat {
    Abs(size.width - desiredWidth) + Abs(size.height - desiredHeight)
  }

  /** `selectSizePair`: the valid pair whose preview size is closest to the
      requested size, the earliest on ties; null if none beats the
      `Integer.MAX_VALUE` starting distance. */
  method SelectSizePair(previews: seq<Size>, pictures: seq<Size>, sameAspect: (Size, Size) -> bool,
                        desiredWidth: int, desiredHeight: int)
    returns (selected: Option<SizePair>)
    ensures var v := ValidPreviewSizes(previews, pictures, sameAspect);
      selected.None? <==> forall k :: 0 <= k < |v| ==> SizeDiff(v[k].preview, desiredWidth, desiredHeight) >= IntMax
    ensures var v := ValidPreviewSizes(previews, pictures, sameAspect);
      selected.Some? ==>
        exists k :: 0 <= k < |v| && v[k] == selected.value
          && (forall j :: 0 <= j < |v| ==>
                SizeDiff(v[k].preview, desiredWidth, desiredHeight) <= SizeDiff(v[j].preview, desiredWidth, desiredHeight))
          && (forall j :: 0 <= j < k ==>
                SizeDiff(v[k].preview, desiredWidth, desiredHeight) < SizeDiff(v[j].preview, desiredWidth, desiredHeight))
  {
    var validSizes := GenerateValidPreviewSizeList(previews, pictures, sameAspect);
    selected := None;
    var minDiff := IntMax;
    ghost var best := 0;
    var i := 0;
    while i < |validSizes|
      invariant 0 <= i <= |validSizes|
      invariant selected.None? ==> minDiff == IntMax
      invariant selected.None? <==>
        forall k :: 0 <= k < i ==> SizeDiff(validSizes[k].preview, desiredWidth, desiredHeight) >= IntMax
      invariant selected.Some? ==>
        && 0 <= best < i && validSizes[best] == selected.value
        && minDiff == SizeDiff(validSizes[best].preview, desiredWidth, desiredHeight)
        && (forall j :: 0 <= j < best ==> minDiff < SizeDiff(validSizes[j].preview, desiredWidth, desiredHeight))
      invariant forall j :: 0 <= j < i ==> minDiff <= SizeDiff(validSizes[j].preview, desiredWidth, desiredHeight)
    {
      var diff := SizeDiff(validSizes[i].preview, desiredWidth, desiredHeight);
      if diff < minDiff {
        selected := Some(validSizes[i]);
        minDiff := diff;
        best := i;
      }
      i := i + 1;
    }
  }

  /** With camera-sized dimensions the `Integer.MAX_VALUE` sentinel is always
      beaten, so a size is selected whenever there is a preview size. */
  lemma SizeDiffBelowSentinel(previews: seq<Size>, pictures: seq<Size>, sameAspect: (Size, Size) -> bool)
    requires forall i :: 0 <= i < |previews| ==>
      0 <= previews[i].width < 0x4000_0000 && 0 <= previews[i].height < 0x4000_0000
    ensures var v := ValidPreviewSizes(previews, pictures, sameAspect);
      (v == [] <==> previews == [])
      && forall k :: 0 <= k < |v| ==>
           SizeDiff(v[k].preview, DefaultRequestedPreviewWidth, DefaultRequestedPreviewHeight) < IntMax
  {
    ValidPreviewSizesProperties(previews, pictures, sameAspect);
  }

  // ---------------------------------------------------------------------------
  // Preview frame rate
  // ---------------------------------------------------------------------------

  /** A supported preview FPS range, scaled by 1000
      (`PREVIEW_FPS_MIN_INDEX`, `PREVIEW_FPS_MAX_INDEX`). */
  datatype FpsRange = FpsRange(min: int, max: int)

  function UpperBoundDiff(r: FpsRange, desiredScaled: int): nat {
    Abs(desiredScaled - r.max)
  }

  /** Whether `r` is at least as good as `current` on both keys: its upper
      bound is no farther from the target and its lower bound is no higher. */
  predicate NoWorse(r: FpsRange, current: FpsRange, desiredScaled: int) {
    UpperBoundDiff(r, desiredScaled) <= UpperBoundDiff(current, desiredScaled) && r.min <= current.min
  }

  /** The range `selectPreviewFpsRange` holds after scanning `ranges`: the
      first range, replaced by each later range that is no worse on both keys. */
  function FpsSelection(ranges: seq<FpsRange>, desiredScaled: int): (r: Option<FpsRange>)
    ensures r.None? <==> ranges == []
    ensures r.Some? ==> r.value in ranges
    decreases |ranges|
  {
    if ranges == [] then None
    else
      var previous := FpsSelection(ranges[..|ranges| - 1], desiredScaled);
      var last := ranges[|ranges| - 1];
      if previous.None? || NoWorse(last, previous.value, desiredScaled) then Some(last) else previous
  }

  /** Running minima never increase: scanning further yields a range no worse
      on both keys than any earlier choice. */
  lemma {:induction false} FpsSelectionMonotone(ranges: seq<FpsRange>, desiredScaled: int, i: nat, j: nat)
    requires 0 < i <= j <= |ranges|
    ensures var early := FpsSelection(ranges[..i], desiredScaled);
      var late := FpsSelection(ranges[..j], desiredScaled);
      early.Some? && late.Some? && NoWorse(late.value, early.value, desiredScaled)
    decreases j
  {
    if j > i {
      FpsSelectionMonotone(ranges, desiredScaled, i, j - 1);
      assert ranges[..j][..j - 1] == ranges[..j - 1];
    }
  }

  /** Every range after position k is strictly worse than `r` on some key. */
  predicate BeatsLaterRanges(ranges: seq<FpsRange>, k: int, r: FpsRange, desiredScaled: int) {
    forall j :: 0 <= j && k < j < |ranges| ==> !NoWorse(ranges[j], r, desiredScaled)
  }

  /** The choice is the range at some position k, and every later range is
      strictly worse than it on at least one key (so ties go to the later range). */
  lemma {:induction false} FpsSelectionLastWins(ranges: seq<FpsRange>, desiredScaled: int)
    requires ranges != []
    ensures var r := FpsSelection(ranges, desiredScaled);
      exists k :: 0 <= k < |ranges| && Some(ranges[k]) == r && BeatsLaterRanges(ranges, k, r.value, desiredScaled)
    decreases |ranges|
  {
    var n := |ranges|;
    var r := FpsSelection(ranges, desiredScaled);
    var prefix := ranges[..n - 1];
    if r == Some(ranges[n - 1]) {
      assert BeatsLaterRanges(ranges, n - 1, r.value, desiredScaled);
    } else {
      FpsSelectionLastWins(prefix, desiredScaled);
      var k :| 0 <= k < |prefix| && Some(prefix[k]) == FpsSelection(prefix, desiredScaled)
        && BeatsLaterRanges(prefix, k, r.value, desiredScaled);
      assert ranges[k] == prefix[k];
      assert BeatsLaterRanges(ranges, k, r.value, desiredScaled) by {
        forall j | k < j < n
          ensures !NoWorse(ranges[j], r.value, desiredScaled)
        {
          if j < n - 1 {
            assert ranges[j] == prefix[j];
          }
        }
      }
    }
  }

  /** `selectPreviewFpsRange`: keeps running minima of the upper-bound distance
      and of the lower bound, and takes every range that does not worsen
      either. Frame rates are non-negative `int`s. */
  method SelectPreviewFpsRange(ranges: seq<FpsRange>, desiredScaled: int) returns (selected: Option<FpsRange>)
    requires 0 <= desiredScaled <= IntMax
    requires forall k :: 0 <= k < |ranges| ==> 0 <= ranges[k].min <= IntMax && 0 <= ranges[k].max <= IntMax
    ensures selected == FpsSelection(ranges, desiredScaled)
    ensures selected.None? <==> ranges == []
    ensures selected.Some? ==> NoWorse(selected.value, ranges[0], desiredScaled)
    ensures selected.Some? ==>
      exists k :: 0 <= k < |ranges| && ranges[k] == selected.value
        && BeatsLaterRanges(ranges, k, selected.value, desiredScaled)
  {
    selected := None;
    var minUpperBoundDiff := IntMax;
    var minLowerBound := IntMax;
    var i := 0;
    while i < |ranges|
      invariant 0 <= i <= |ranges|
      invariant selected == FpsSelection(ranges[..i], desiredScaled)
      invariant selected.None? ==> minUpperBoundDiff == IntMax && minLowerBound == IntMax
      invariant selected.Some? ==>
        && minUpperBoundDiff == UpperBoundDiff(selected.value, desiredScaled)
        && minLowerBound == selected.value.min
    {
      assert ranges[..i + 1][..i] == ranges[..i];
      var upperBoundDiff := UpperBoundDiff(ranges[i], desiredScaled);
      var lowerBound := ranges[i].min;
      if upperBoundDiff <= minUpperBoundDiff && lowerBound <= minLowerBound {
        selected := Some(ranges[i]);
        minUpperBoundDiff := upperBoundDiff;
        minLowerBound := lowerBound;
      }
      i := i + 1;
    }
    assert ranges[..|ranges|] == ranges;
    if ranges != [] {
      FpsSelectionMonotone(ranges, desiredScaled, 1, |ranges|);
      assert FpsSelection(ranges[..1], desiredScaled) == Some(ranges[0]);
      FpsSelectionLastWins(ranges, desiredScaled);
    }
  }

  // ---------------------------------------------------------------------------
  // Rotation
  // ---------------------------------------------------------------------------

  /** The `switch` in `setRotation`: display rotation constant to degrees;
      an unknown value is logged and leaves 0. */
  function DisplayDegrees(rotation: int): (degrees: int)
    ensures degrees == if Rotation0 <= rotation <= Rotation270 then 90 * rotation else 0
  {
    match rotation
    case 0 => 0
    case 1 => 90
    case 2 => 180
    case 3 => 270
    case _ => 0
  }

  /** The camera's facing and sensor orientation (`CameraInfo`). */
  datatype CameraInfo = CameraInfo(facing: int, orientation: int)

  function RotationDegrees(info: CameraInfo, degrees: int): int {
    if info.facing == CameraFacingFront then Rem(info.orientation + degrees, 360)
    else Rem(info.orientation - degrees + 360, 360)
  }

  /** The angle passed to `setDisplayOrientation`; the front camera is mirrored. */
  function DisplayAngle(info: CameraInfo, degrees: int): int {
    var rotation := RotationDegrees(info, degrees);
    if info.facing == CameraFacingFront then Rem(360 - rotation, 360) else rotation
  }

  /** Front camera: both angles lie in [0, 360) and cancel modulo 360. */
  lemma FrontCameraAngles(info: CameraInfo, displayRotation: int)
    requires info.facing == CameraFacingFront && info.orientation >= 0
    ensures var d := DisplayDegrees(displayRotation);
      var rotation := RotationDegrees(info, d);
      var angle := DisplayAngle(info, d);
      && 0 <= rotation < 360 && 0 <= angle < 360
      && (rotation + angle) % 360 == 0
  {
  }

  /** Back camera: the display angle is the rotation, in [0, 360). */
  lemma BackCameraAngles(info: CameraInfo, displayRotation: int)
    requires info.facing != CameraFacingFront && info.orientation >= 0
    ensures var d := DisplayDegrees(displayRotation);
      && DisplayAngle(info, d) == RotationDegrees(info, d)
      && 0 <= RotationDegrees(info, d) < 360
  {
  }

  // ---------------------------------------------------------------------------
  // Preview buffer
  // ---------------------------------------------------------------------------

  /** `createPreviewBuffer`'s size: one byte more than the NV21 frame's bits
      need, rounded up to whole bytes. */
  function PreviewBufferSize(previewSize: Size): (bufferSize: int)
    requires previewSize.width >= 0 && previewSize.height >= 0
    ensures var bits := previewSize.height * previewSize.width * Nv21BitsPerPixel;
      8 * (bufferSize - 1) >= bits && 8 * (bufferSize - 2) < bits
  {
    var sizeInBits := previewSize.height * previewSize.width * Nv21BitsPerPixel;
    (sizeInBits + 7) / 8 + 1
  }

  /** The buffer always holds strictly more bytes than the frame's bits need. */
  lemma PreviewBufferLargerThanFrame(previewSize: Size)
    requires previewSize.width >= 0 && previewSize.height >= 0
    ensures 8 * PreviewBufferSize(previewSize) > previewSize.height * previewSize.width * Nv21BitsPerPixel
  {
  }

  // ---------------------------------------------------------------------------
  // The object
  // ---------------------------------------------------------------------------

  class CameraSource {
    var facing: int
    var rotationDegrees: int

    ghost predicate Valid()
      reads this
    {
      IsSupportedFacing(facing)
    }

    constructor ()
      ensures Valid()
      ensures facing == CameraFacingFront && rotationDegrees == 0
    {
      facing := CameraFacingFront;
      rotationDegrees := 0;
    }

    /** `setFacing`: `ok == false` stands for the `IllegalArgumentException`. */
    method SetFacing(newFacing: int) returns (ok: bool)
      requires Valid()
      modifies this`facing
      ensures Valid()
      ensures ok <==> IsSupportedFacing(newFacing)
      ensures facing == if ok then newFacing else old(facing)
    {
      if newFacing != CameraFacingBack && newFacing != CameraFacingFront {
        return false;
      }
      facing := newFacing;
      ok := true;
    }

    /** The angle arithmetic of `setRotation`: stores the rotation and returns
        the display orientation handed to the camera. */
    method SetRotation(displayRotation: int, info: CameraInfo) returns (displayAngle: int)
      modifies this`rotationDegrees
      ensures rotationDegrees == RotationDegrees(info, DisplayDegrees(displayRotation))
      ensures displayAngle == DisplayAngle(info, DisplayDegrees(displayRotation))
    {
      var degrees := 0;
      if displayRotation == Rotation0 {
        degrees := 0;
      } else if displayRotation == Rotation90 {
        degrees := 90;
      } else if displayRotation == Rotation180 {
        degrees := 180;
      } else if displayRotation == Rotation270 {
        degrees := 270;
      }
      if info.facing == CameraFacingFront {
        rotationDegrees := Rem(info.orientation + degrees, 360);
        displayAngle := Rem(360 - rotationDegrees, 360);
      } else {
        rotationDegrees := Rem(info.orientation - degrees + 360, 360);
        displayAngle := rotationDegrees;
      }
    }
  }
}
