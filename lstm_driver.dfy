/**
 * The desktop detection driver: a frame counter with a warm-up, a buffer of
 * flattened landmark frames handed to the sequence classifier twenty at a time,
 * the label and alert-sound state that the classifier's verdict drives, and the
 * bounding box drawn around the landmarks.
 */
module LstmDriver {
  import opened Wrappers

  /** One landmark as the pose tracker reports it: normalised coordinates and visibility. */
  datatype Landmark = Landmark(x: real, y: real, z: real, visibility: real)

  datatype Label = Neutral | Punch

  /** A call into the sound player. */
  datatype SoundCall = Play | Stop

  /** Rectangle corners in pixels: (left, top) and (right, bottom). */
  datatype Box = Box(left: int, top: int, right: int, bottom: int)

  /** Frames ignored after start-up. */
  const WarmUpFrames: nat := 60

  /** Flattened frames per classifier call. */
  const BatchSize: nat := 20

  /** Classifier outputs strictly above this are a punch. */
  const PunchThreshold: real := 0.5

  /** Pixels by which the top edge of the box is raised above the highest landmark. */
  const BoxTopMargin: int := 25

  /** The four values of one landmark, in the order the classifier expects them. */
  function LandmarkValues(lm: Landmark): seq<real>
  {
    [lm.x, lm.y, lm.z, lm.visibility]
  }

  /** All landmarks of one frame, flattened one after another. */
  function Flattened(landmarks: seq<Landmark>): seq<real>
    decreases |landmarks|
  {
    if landmarks == [] then []
    else Flattened(landmarks[..|landmarks| - 1]) + LandmarkValues(landmarks[|landmarks| - 1])
  }

  /** The flattened frame holds four values per landmark: x, y, z and visibility at offsets 0 to 3. */
  lemma {:induction false} FlattenedLayout(landmarks: seq<Landmark>)
    ensures |Flattened(landmarks)| == 4 * |landmarks|
    ensures forall k :: 0 <= k < |landmarks| ==>
      Flattened(landmarks)[4 * k] == landmarks[k].x &&
      Flattened(landmarks)[4 * k + 1] == landmarks[k].y &&
      Flattened(landmarks)[4 * k + 2] == landmarks[k].z &&
      Flattened(landmarks)[4 * k + 3] == landmarks[k].visibility
    decreases |landmarks|
  {
    if landmarks != [] {
      var n := |landmarks| - 1;
      var front := landmarks[..n];
      FlattenedLayout(front);
      forall k | 0 <= k < |landmarks|
        ensures Flattened(landmarks)[4 * k] == landmarks[k].x
        ensures Flattened(landmarks)[4 * k + 1] == landmarks[k].y
        ensures Flattened(landmarks)[4 * k + 2] == landmarks[k].z
        ensures Flattened(landmarks)[4 * k + 3] == landmarks[k].visibility
      {
        if k < n {
          assert landmarks[k] == front[k];
        }
      }
    }
  }

  /** Flattens one frame's landmarks. */
  method Flatten(landmarks: seq<Landmark>) returns (values: seq<real>)
    ensures values == Flattened(landmarks)
  {
    values := [];
    for k := 0 to |landmarks|
      invariant values == Flattened(landmarks[..k])
    {
      var lm := landmarks[k];
      assert landmarks[..k + 1][..k] == landmarks[..k];
      values := values + [lm.x, lm.y, lm.z, lm.visibility];
    }
    assert landmarks[..|landmarks|] == landmarks;
  }

  /** Conversion of a real to an integer that drops the fraction, rounding towards zero. */
  function Truncate(v: real): (r: int)
    ensures v >= 0.0 ==> r as real <= v < r as real + 1.0
    ensures v < 0.0 ==> r as real - 1.0 < v <= r as real
  {
    if v >= 0.0 then v.Floor else -((-v).Floor)
  }

  /** The pixel column of a landmark in a frame `width` pixels wide. */
  function PixelX(lm: Landmark, width: int): int
  {
    Truncate(lm.x * width as real)
  }

  /** The pixel row of a landmark in a frame `height` pixels high. */
  function PixelY(lm: Landmark, height: int): int
  {
    Truncate(lm.y * height as real)
  }

  /** Pixel coordinates of every landmark, in landmark order. */
  method PixelCoordinates(landmarks: seq<Landmark>, width: int, height: int) returns (xs: seq<int>, ys: seq<int>)
    ensures |xs| == |landmarks| && |ys| == |landmarks|
    ensures forall k :: 0 <= k < |landmarks| ==>
      xs[k] == PixelX(landmarks[k], width) && ys[k] == PixelY(landmarks[k], height)
  {
    xs, ys := [], [];
    for k := 0 to |landmarks|
      invariant |xs| == k && |ys| == k
      invariant forall j :: 0 <= j < k ==> xs[j] == PixelX(landmarks[j], width)
      invariant forall j :: 0 <= j < k ==> ys[j] == PixelY(landmarks[j], height)
    {
      var lm := landmarks[k];
      xs := xs + [PixelX(lm, width)];
      ys := ys + [PixelY(lm, height)];
    }
  }

  /** The smallest element. */
  function Min(s: seq<int>): (m: int)
    requires s != []
    ensures m in s
    ensures forall x :: x in s ==> m <= x
    decreases |s|
  {
    if |s| == 1 then s[0]
    else
      var rest := Min(s[1..]);
      assert forall x :: x in s ==> x == s[0] || x in s[1..];
      if s[0] <= rest then s[0] else rest
  }

  /** The largest element. */
  function Max(s: seq<int>): (m: int)
    requires s != []
    ensures m in s
    ensures forall x :: x in s ==> x <= m
    decreases |s|
  {
    if |s| == 1 then s[0]
    else
      var rest := Max(s[1..]);
      assert forall x :: x in s ==> x == s[0] || x in s[1..];
      if s[0] >= rest then s[0] else rest
  }

  /**
   * The rectangle drawn around the landmarks: the tightest box around all pixel
   * coordinates, its top edge raised by `BoxTopMargin`. Taking the minimum of an
   * empty list raises an error, modelled as no box.
   */
  function BoundingBox(xs: seq<int>, ys: seq<int>): (b: Option<Box>)
    ensures b.None? <==> xs == [] || ys == []
    ensures b.Some? ==>
      b.value.left in xs && b.value.right in xs &&
      b.value.top + BoxTopMargin in ys && b.value.bottom in ys
    ensures b.Some? ==> forall x :: x in xs ==> b.value.left <= x <= b.value.right
    ensures b.Some? ==> forall y :: y in ys ==> b.value.top + BoxTopMargin <= y <= b.value.bottom
  {
    if xs == [] || ys == [] then None
    else Some(Box(Min(xs), Min(ys) - BoxTopMargin, Max(xs), Max(ys)))
  }

  /** The box drawn around one frame's landmarks. */
  function LandmarkBox(landmarks: seq<Landmark>, width: int, height: int): Option<Box>
  {
    BoundingBox(seq(|landmarks|, k requires 0 <= k < |landmarks| => PixelX(landmarks[k], width)),
                seq(|landmarks|, k requires 0 <= k < |landmarks| => PixelY(landmarks[k], height)))
  }

  /** Pixel lists computed landmark by landmark give the same box. */
  lemma LandmarkBoxFromPixels(landmarks: seq<Landmark>, width: int, height: int, xs: seq<int>, ys: seq<int>)
    requires |xs| == |landmarks| && |ys| == |landmarks|
    requires forall k :: 0 <= k < |landmarks| ==>
      xs[k] == PixelX(landmarks[k], width) && ys[k] == PixelY(landmarks[k], height)
    ensures BoundingBox(xs, ys) == LandmarkBox(landmarks, width, height)
  {
    assert xs == seq(|landmarks|, k requires 0 <= k < |landmarks| => PixelX(landmarks[k], width));
    assert ys == seq(|landmarks|, k requires 0 <= k < |landmarks| => PixelY(landmarks[k], height));
  }

  /** The label a classifier output stands for. */
  function LabelFor(result: real): (l: Label)
    ensures l == Punch <==> result > PunchThreshold
  {
    if result > PunchThreshold then Punch else Neutral
  }

  /**
   * The sound calls one classifier verdict makes: a play when it turns the label to
   * punch while silent, a stop when it turns it to neutral while playing, else none.
   */
  function AlertCalls(wasPlaying: bool, result: real): seq<SoundCall>
  {
    if result > PunchThreshold && !wasPlaying then [Play]
    else if result <= PunchThreshold && wasPlaying then [Stop]
    else []
  }

  /** Sound calls alternate, starting with a play. */
  ghost predicate Alternating(sounds: seq<SoundCall>)
  {
    forall i :: 0 <= i < |sounds| ==> sounds[i] == if i % 2 == 0 then Play else Stop
  }

  /** The driver's state across frames. */
  class Driver {
    var frameCount: int
    var lmList: seq<seq<real>>
    var currentLabel: Label
    var isPlaying: bool
    /** Every call into the sound player so far. */
    ghost var sounds: seq<SoundCall>
    /** Every buffer handed to the classifier so far. */
    ghost var batches: seq<seq<seq<real>>>

    /** The alert plays exactly while the label is a punch, and was only ever toggled. */
    ghost predicate AlertValid()
      reads this
    {
      isPlaying == (currentLabel == Punch) &&
      Alternating(sounds) && (isPlaying <==> |sounds| % 2 == 1)
    }

    ghost predicate Valid()
      reads this
    {
      AlertValid() &&
      frameCount >= 0 &&
      |lmList| < BatchSize &&
      (frameCount <= WarmUpFrames ==> lmList == [] && batches == []) &&
      forall b :: b in batches ==> |b| == BatchSize
    }

    constructor ()
      ensures Valid()
      ensures frameCount == 0 && lmList == [] && currentLabel == Neutral && !isPlaying
      ensures sounds == [] && batches == []
    {
      frameCount := 0;
      lmList := [];
      currentLabel := Neutral;
      isPlaying := false;
      sounds := [];
      batches := [];
    }

    /**
     * Takes the classifier's output for one buffer, sets the label, and starts or
     * stops the alert only when the label changes.
     */
    method Detect(result: real) returns (shown: Label)
      requires AlertValid()
      modifies this`currentLabel, this`isPlaying, this`sounds
      ensures AlertValid()
      ensures currentLabel == LabelFor(result) && shown == currentLabel
      ensures sounds == old(sounds) + AlertCalls(old(isPlaying), result)
    {
      if result > PunchThreshold {
        currentLabel := Punch;
        if !isPlaying {
          sounds := sounds + [Play];
          isPlaying := true;
        }
      } else {
        currentLabel := Neutral;
        if isPlaying {
          sounds := sounds + [Stop];
          isPlaying := false;
        }
      }
      shown := currentLabel;
    }

    /**
     * Appends one flattened frame to the buffer; a full buffer is handed to the
     * classifier, whose output is `prediction`, and replaced by an empty one.
     */
    method BufferFrame(frame: seq<real>, prediction: real)
      requires Valid() && frameCount > WarmUpFrames
      modifies this`lmList, this`batches, this`currentLabel, this`isPlaying, this`sounds
      ensures Valid()
      ensures |old(lmList)| + 1 < BatchSize ==>
        lmList == old(lmList) + [frame] && batches == old(batches) &&
        currentLabel == old(currentLabel) && isPlaying == old(isPlaying) && sounds == old(sounds)
      ensures |old(lmList)| + 1 == BatchSize ==>
        lmList == [] && batches == old(batches) + [old(lmList) + [frame]] &&
        currentLabel == LabelFor(prediction) &&
        sounds == old(sounds) + AlertCalls(old(isPlaying), prediction)
    {
      lmList := lmList + [frame];
      if |lmList| == BatchSize {
        batches := batches + [lmList];
        lmList := [];
        var _ := Detect(prediction);
      }
    }

    /**
     * One pass of the capture loop. `landmarks` is the tracker's result for the
     * frame, `prediction` the classifier's output should this frame fill the
     * buffer, and `width` and `height` the frame size. Returns the box drawn, if any.
     */
    method ProcessFrame(landmarks: Option<seq<Landmark>>, prediction: real, width: int, height: int)
      returns (box: Option<Box>)
      requires Valid()
      modifies this
      ensures Valid()
      ensures frameCount == old(frameCount) + 1
      ensures frameCount <= WarmUpFrames || landmarks.None? ==>
        lmList == old(lmList) && batches == old(batches) && box == None &&
        currentLabel == old(currentLabel) && isPlaying == old(isPlaying) && sounds == old(sounds)
      ensures (frameCount > WarmUpFrames && landmarks.Some? &&
               |old(lmList)| + 1 < BatchSize) ==>
        lmList == old(lmList) + [Flattened(landmarks.value)] && batches == old(batches) &&
        currentLabel == old(currentLabel) && isPlaying == old(isPlaying) && sounds == old(sounds)
      ensures (frameCount > WarmUpFrames && landmarks.Some? &&
               |old(lmList)| + 1 == BatchSize) ==>
        lmList == [] && batches == old(batches) + [old(lmList) + [Flattened(landmarks.value)]] &&
        currentLabel == LabelFor(prediction) &&
        sounds == old(sounds) + AlertCalls(old(isPlaying), prediction)
      ensures frameCount > WarmUpFrames && landmarks.Some? ==>
        box == LandmarkBox(landmarks.value, width, height)
    {
      box := None;
      frameCount := frameCount + 1;
      if frameCount > WarmUpFrames && landmarks.Some? {
        var frame := Flatten(landmarks.value);
        BufferFrame(frame, prediction);
        var xs, ys := PixelCoordinates(landmarks.value, width, height);
        box := BoundingBox(xs, ys);
        LandmarkBoxFromPixels(landmarks.value, width, height, xs, ys);
      }
    }
  }
}
