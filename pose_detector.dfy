/**
 * The per-frame pose classifier: movement detection against one cached previous
 * estimate, and the wrist-above-shoulder punch heuristic that updates the session state.
 */
module PoseDetector {
  import opened Wrappers
  import opened PoseContext

  /**
   * One estimate returned by the pose model. `lastMovementTime` stands for the
   * optional property of that name that the detector reads back from the cached
   * estimate; the pose model itself never sets it.
   */
  datatype Pose = Pose(keypoints: seq<Keypoint>, lastMovementTime: Option<int>)

  /** Reading `previous.keypoints[index]` past its end, which throws in the source. */
  datatype DetectError = MissingPreviousKeypoint(index: nat)

  /** The four joints the classifier needs. */
  datatype Joints = Joints(leftWrist: Keypoint, leftShoulder: Keypoint, rightWrist: Keypoint, rightShoulder: Keypoint)

  /** An action together with the fixed confidence of its branch. */
  datatype Reading = Reading(action: PoseAction, confidence: real)

  /** Minimum displacement, in pixels, that counts as movement. */
  const MovementThreshold: real := 10.0

  /** How far, in pixels, a wrist must be above its shoulder to count as extended. */
  const ExtensionMargin: real := 100.0

  const LeftWrist: string := "left_wrist"
  const LeftShoulder: string := "left_shoulder"
  const RightWrist: string := "right_wrist"
  const RightShoulder: string := "right_shoulder"

  function SquaredDistance(a: Keypoint, b: Keypoint): real
  {
    (a.x - b.x) * (a.x - b.x) + (a.y - b.y) * (a.y - b.y)
  }

  /**
   * The keypoint moved more than the threshold. The Euclidean distance exceeds
   * the threshold exactly when its square exceeds the threshold's square.
   */
  predicate Displaced(current: Keypoint, previous: Keypoint)
  {
    SquaredDistance(current, previous) > MovementThreshold * MovementThreshold
  }

  /** Some keypoint moved, keypoints being matched by position in the list, not by name. */
  predicate MovedSince(previous: seq<Keypoint>, current: seq<Keypoint>)
    requires |current| <= |previous|
  {
    exists i :: 0 <= i < |current| && Displaced(current[i], previous[i])
  }

  /**
   * What one movement check reports, given the cached estimate: nothing cached means
   * no movement; a current estimate longer than the cached one runs off its end.
   */
  function Movement(previous: Option<Pose>, current: Pose): Result<bool, DetectError>
  {
    match previous
    case None => Ok(false)
    case Some(p) =>
      if |current.keypoints| <= |p.keypoints| then Ok(MovedSince(p.keypoints, current.keypoints))
      else Err(MissingPreviousKeypoint(|p.keypoints|))
  }

  /** The three outcomes of a movement check, each stated outright. */
  lemma MovementCases(previous: Option<Pose>, current: Pose)
    ensures previous.None? ==> Movement(previous, current) == Ok(false)
    ensures previous.Some? && |current.keypoints| <= |previous.value.keypoints| ==>
      (Movement(previous, current) == Ok(true) <==>
        exists i :: 0 <= i < |current.keypoints| && Displaced(current.keypoints[i], previous.value.keypoints[i]))
    ensures previous.Some? && |current.keypoints| <= |previous.value.keypoints| ==>
      (Movement(previous, current) == Ok(false) <==>
        forall i :: 0 <= i < |current.keypoints| ==> !Displaced(current.keypoints[i], previous.value.keypoints[i]))
    ensures previous.Some? && |current.keypoints| > |previous.value.keypoints| ==> Movement(previous, current).Err?
  {
  }

  /** Displacement does not depend on which of the two keypoints is the earlier one. */
  lemma DisplacedSymmetric(a: Keypoint, b: Keypoint)
    ensures Displaced(a, b) <==> Displaced(b, a)
  {
  }

  /** Movement between two equally long estimates is symmetric. */
  lemma MovedSinceSymmetric(a: seq<Keypoint>, b: seq<Keypoint>)
    requires |a| == |b|
    ensures MovedSince(a, b) <==> MovedSince(b, a)
  {
  }

  /** An estimate compared with itself shows no movement. */
  lemma StillPoseHasNoMovement(keypoints: seq<Keypoint>)
    ensures !MovedSince(keypoints, keypoints)
  {
  }

  /** The first keypoint named `name`, as `Array.prototype.find` returns it. */
  function FindKeypoint(keypoints: seq<Keypoint>, name: string): (r: Option<Keypoint>)
    ensures r.None? <==> forall i :: 0 <= i < |keypoints| ==> keypoints[i].name != name
    ensures r.Some? ==>
      exists i :: 0 <= i < |keypoints| && keypoints[i] == r.value && r.value.name == name &&
        forall j :: 0 <= j < i ==> keypoints[j].name != name
  {
    if keypoints == [] then None
    else if keypoints[0].name == name then Some(keypoints[0])
    else
      var r := FindKeypoint(keypoints[1..], name);
      if r.Some? then
        ghost var i :| 0 <= i < |keypoints[1..]| && keypoints[1..][i] == r.value && r.value.name == name &&
          forall j :: 0 <= j < i ==> keypoints[1..][j].name != name;
        assert keypoints[i + 1] == r.value;
        r
      else
        r
  }

  /** The name occurs among the keypoints. */
  predicate HasKeypoint(keypoints: seq<Keypoint>, name: string)
  {
    exists i :: 0 <= i < |keypoints| && keypoints[i].name == name
  }

  /** The four joints, found by name; absent unless all four are present. */
  function LocateJoints(keypoints: seq<Keypoint>): (r: Option<Joints>)
    ensures r.Some? <==>
      HasKeypoint(keypoints, LeftWrist) && HasKeypoint(keypoints, LeftShoulder) &&
      HasKeypoint(keypoints, RightWrist) && HasKeypoint(keypoints, RightShoulder)
    ensures r.Some? ==>
      r.value.leftWrist.name == LeftWrist && r.value.leftShoulder.name == LeftShoulder &&
      r.value.rightWrist.name == RightWrist && r.value.rightShoulder.name == RightShoulder
    ensures r.Some? ==>
      r.value.leftWrist in keypoints && r.value.leftShoulder in keypoints &&
      r.value.rightWrist in keypoints && r.value.rightShoulder in keypoints
    ensures r.Some? ==>
      Some(r.value.leftWrist) == FindKeypoint(keypoints, LeftWrist) &&
      Some(r.value.leftShoulder) == FindKeypoint(keypoints, LeftShoulder) &&
      Some(r.value.rightWrist) == FindKeypoint(keypoints, RightWrist) &&
      Some(r.value.rightShoulder) == FindKeypoint(keypoints, RightShoulder)
  {
    var lw := FindKeypoint(keypoints, LeftWrist);
    var ls := FindKeypoint(keypoints, LeftShoulder);
    var rw := FindKeypoint(keypoints, RightWrist);
    var rs := FindKeypoint(keypoints, RightShoulder);
    if lw.Some? && ls.Some? && rw.Some? && rs.Some? then
      Some(Joints(lw.value, ls.value, rw.value, rs.value))
    else
      None
  }

  /** A wrist is extended when it is more than the margin above its shoulder (smaller y). */
  predicate Extended(wrist: Keypoint, shoulder: Keypoint)
  {
    wrist.y < shoulder.y - ExtensionMargin
  }

  predicate LeftExtended(j: Joints) { Extended(j.leftWrist, j.leftShoulder) }

  predicate RightExtended(j: Joints) { Extended(j.rightWrist, j.rightShoulder) }

  /** The branch table of the classifier: action and fixed confidence from the two extensions. */
  function Classify(j: Joints): (r: Reading)
    ensures r.action == Punch <==> LeftExtended(j) || RightExtended(j)
    ensures r.confidence == 0.95 <==> LeftExtended(j) && RightExtended(j)
    ensures r.confidence == 0.75 <==> LeftExtended(j) != RightExtended(j)
    ensures r.confidence == 0.9 <==> !LeftExtended(j) && !RightExtended(j)
    ensures r.confidence in {0.75, 0.9, 0.95}
  {
    if LeftExtended(j) || RightExtended(j) then
      Reading(Punch, if LeftExtended(j) && RightExtended(j) then 0.95 else 0.75)
    else
      Reading(Neutral, 0.9)
  }

  /** Left wrist 150 above its shoulder, right wrist 10 above: a one-sided punch. */
  lemma OneSidedPunchExample(lw: Keypoint, ls: Keypoint, rw: Keypoint, rs: Keypoint)
    requires lw.y == 50.0 && ls.y == 200.0 && rw.y == 250.0 && rs.y == 260.0
    ensures Classify(Joints(lw, ls, rw, rs)) == Reading(Punch, 0.75)
  {
  }

  /**
   * The timestamp stored with a new reading: `now` on movement, otherwise the
   * cached estimate's own `lastMovementTime` unless that is absent or zero (falsy).
   */
  function MovementStamp(hasMovement: bool, now: int, cached: Pose): int
  {
    if hasMovement then now
    else match cached.lastMovementTime
      case Some(t) => if t != 0 then t else now
      case None => now
  }

  /**
   * The cached estimate read by the fallback is the current one; the pose model
   * never gives it a `lastMovementTime`, so every classified frame is stamped
   * with `now`, and the idle rule evaluated at that moment is false.
   */
  lemma ModelEstimateStampedNow(hasMovement: bool, now: int, pose: Pose)
    requires pose.lastMovementTime.None?
    ensures MovementStamp(hasMovement, now, pose) == now
    ensures !IsIdle(now, MovementStamp(hasMovement, now, pose))
  {
  }

  /** The detector component: the cached previous estimate and the session it updates. */
  class PoseDetector {
    var previousPose: Option<Pose>
    const context: PoseProvider

    constructor (context: PoseProvider)
      ensures previousPose == None && this.context == context
    {
      previousPose := None;
      this.context := context;
    }

    /**
     * Compares the current estimate with the cached one, keypoint by keypoint,
     * and caches the current estimate unless the comparison throws.
     */
    method DetectMovement(current: Pose) returns (r: Result<bool, DetectError>)
      modifies this`previousPose
      ensures r == Movement(old(previousPose), current)
      ensures previousPose == if r.Ok? then Some(current) else old(previousPose)
    {
      if previousPose.None? {
        previousPose := Some(current);
        return Ok(false);
      }
      var previous := previousPose.value;
      var movement := false;
      var index := 0;
      while index < |current.keypoints|
        invariant 0 <= index <= |current.keypoints|
        invariant index <= |previous.keypoints|
        invariant movement <==>
          exists i :: 0 <= i < index && Displaced(current.keypoints[i], previous.keypoints[i])
      {
        if index == |previous.keypoints| {
          return Err(MissingPreviousKeypoint(index));
        }
        var keypoint := current.keypoints[index];
        var prevKeypoint := previous.keypoints[index];
        var dx := keypoint.x - prevKeypoint.x;
        var dy := keypoint.y - prevKeypoint.y;
        assert dx * dx + dy * dy == SquaredDistance(keypoint, prevKeypoint);
        if dx * dx + dy * dy > MovementThreshold * MovementThreshold {
          movement := true;
        }
        assert (exists i :: 0 <= i < index + 1 && Displaced(current.keypoints[i], previous.keypoints[i])) <==>
          (exists i :: 0 <= i < index && Displaced(current.keypoints[i], previous.keypoints[i])) ||
          Displaced(keypoint, prevKeypoint);
        index := index + 1;
      }
      previousPose := Some(current);
      return Ok(movement);
    }

    /**
     * One iteration of the detection loop. Nothing happens while the video is not
     * ready or the model found no pose; otherwise the first pose is checked for
     * movement and, when all four joints are present, classified and published.
     */
    method DetectPose(videoReady: bool, poses: seq<Pose>, now: int) returns (failure: Option<DetectError>)
      requires context.Valid()
      modifies this`previousPose, context`poseData, context`confidenceHistory
      ensures context.Valid()
      ensures !videoReady || poses == [] ==>
        failure == None && previousPose == old(previousPose) &&
        context.poseData == old(context.poseData) && context.confidenceHistory == old(context.confidenceHistory)
      ensures videoReady && poses != [] && Movement(old(previousPose), poses[0]).Err? ==>
        failure == Some(Movement(old(previousPose), poses[0]).error) && previousPose == old(previousPose) &&
        context.poseData == old(context.poseData) && context.confidenceHistory == old(context.confidenceHistory)
      ensures videoReady && poses != [] && Movement(old(previousPose), poses[0]).Ok? ==>
        failure == None && previousPose == Some(poses[0])
      ensures (videoReady && poses != [] && Movement(old(previousPose), poses[0]).Ok? &&
               LocateJoints(poses[0].keypoints).None?) ==>
        context.poseData == old(context.poseData) && context.confidenceHistory == old(context.confidenceHistory)
      ensures (videoReady && poses != [] && Movement(old(previousPose), poses[0]).Ok? &&
               LocateJoints(poses[0].keypoints).Some?) ==>
        var reading := Classify(LocateJoints(poses[0].keypoints).value);
        context.poseData == PoseData(reading.action, reading.confidence, Some(poses[0].keypoints),
          MovementStamp(Movement(old(previousPose), poses[0]).value, now, poses[0])) &&
        context.confidenceHistory == ShiftIn(old(context.confidenceHistory), reading.confidence)
    {
      if !videoReady || poses == [] {
        return None;
      }
      var pose := poses[0];
      var hasMovement := DetectMovement(pose);
      if hasMovement.Err? {
        return Some(hasMovement.error);
      }
      var joints := LocateJoints(pose.keypoints);
      if joints.Some? {
        var j := joints.value;
        var leftExtension := j.leftWrist.y < j.leftShoulder.y - ExtensionMargin;
        var rightExtension := j.rightWrist.y < j.rightShoulder.y - ExtensionMargin;
        var action := Neutral;
        var confidence := 0.0;
        if leftExtension || rightExtension {
          action := Punch;
          confidence := if leftExtension && rightExtension then 0.95 else 0.75;
        } else {
          action := Neutral;
          confidence := 0.9;
        }
        var cached := previousPose.value;
        var stamp := if hasMovement.value then now
          else if cached.lastMovementTime.Some? && cached.lastMovementTime.value != 0 then cached.lastMovementTime.value
          else now;
        context.SetPoseData(PoseData(action, confidence, Some(pose.keypoints), stamp));
        context.AddConfidenceValue(confidence);
      }
      return None;
    }
  }
}
