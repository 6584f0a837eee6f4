/**
 * The session state shared by the detector and the display components:
 * the latest pose reading, a fixed-length confidence history and the idle flag.
 */
module PoseContext {
  import opened Wrappers

  /** The two actions the classifier can report. */
  datatype PoseAction = Neutral | Punch

  /** One named landmark of a pose estimate, in pixels; y grows downwards. */
  datatype Keypoint = Keypoint(x: real, y: real, score: real, name: string)

  /** The reading the provider holds: replaced wholesale on every classified frame. */
  datatype PoseData = PoseData(
    action: PoseAction,
    confidence: real,
    keypoints: Option<seq<Keypoint>>,
    lastMovementTime: int)

  /** Number of confidence values the history keeps. */
  const HistoryLength: nat := 20

  /** Milliseconds without movement after which the session counts as idle. */
  const IdleThresholdMs: int := 10000

  /** Error raised when the context is read outside its provider. */
  const UsePoseError: string := "usePose must be used within a PoseProvider"

  /** The history a session starts with: `HistoryLength` zeros. */
  function InitialHistory(): (h: seq<real>)
    ensures |h| == HistoryLength
    ensures forall i :: 0 <= i < |h| ==> h[i] == 0.0
  {
    seq(HistoryLength, _ => 0.0)
  }

  /**
   * Drops the oldest value and appends the newest one (`[...prev.slice(1), value]`).
   * A non-empty history keeps its length; slicing an empty one yields just the new value.
   */
  function ShiftIn(history: seq<real>, value: real): (r: seq<real>)
    ensures |r| == if history == [] then 1 else |history|
    ensures r[|r| - 1] == value
    ensures forall i :: 0 <= i < |r| - 1 ==> r[i] == history[i + 1]
  {
    if history == [] then [value] else history[1..] + [value]
  }

  /** The history after pushing `values` one after another, oldest first. */
  function ShiftInAll(history: seq<real>, values: seq<real>): seq<real>
    decreases |values|
  {
    if values == [] then history else ShiftInAll(ShiftIn(history, values[0]), values[1..])
  }

  /**
   * A non-empty history is a sliding window: after any number of pushes it holds
   * exactly the last `|history|` values of the old history followed by the pushed values.
   */
  lemma {:induction false} HistoryWindow(history: seq<real>, values: seq<real>)
    requires history != []
    ensures |ShiftInAll(history, values)| == |history|
    ensures ShiftInAll(history, values) == (history + values)[|values|..]
    decreases |values|
  {
    if values != [] {
      var next := ShiftIn(history, values[0]);
      assert next == history[1..] + [values[0]];
      HistoryWindow(next, values[1..]);
      assert next + values[1..] == (history + values)[1..];
    }
  }

  /** After at least `HistoryLength` pushes the initial zeros are gone and only pushed values remain. */
  lemma {:induction false} HistoryForgetsInitialZeros(values: seq<real>)
    requires |values| >= HistoryLength
    ensures ShiftInAll(InitialHistory(), values) == values[|values| - HistoryLength..]
  {
    var history := InitialHistory();
    HistoryWindow(history, values);
    var window := (history + values)[|values|..];
    var last := values[|values| - HistoryLength..];
    assert |window| == |last| == HistoryLength;
    forall i | 0 <= i < HistoryLength
      ensures window[i] == last[i]
    {
      assert window[i] == (history + values)[|values| + i];
    }
    assert window == last;
  }

  /** The idle rule: strictly more than `IdleThresholdMs` have passed since the last movement. */
  predicate IsIdle(now: int, lastMovementTime: int)
  {
    now - lastMovementTime > IdleThresholdMs
  }

  /** Exactly the threshold is not idle yet; one millisecond more is, and idleness persists as time passes. */
  lemma IdleBoundary(lastMovementTime: int, now: int, later: int)
    ensures !IsIdle(lastMovementTime + IdleThresholdMs, lastMovementTime)
    ensures IsIdle(lastMovementTime + IdleThresholdMs + 1, lastMovementTime)
    ensures IsIdle(now, lastMovementTime) && now <= later ==> IsIdle(later, lastMovementTime)
  {
  }

  /** The context lookup: fails when no provider encloses the caller. */
  function UsePose<C>(context: Option<C>): (r: Result<C, string>)
    ensures r.Err? <==> context.None?
    ensures r.Ok? ==> r.value == context.value
    ensures r.Err? ==> r.error == UsePoseError
  {
    match context
    case None => Err(UsePoseError)
    case Some(c) => Ok(c)
  }

  /** The provider component's state; each field is replaced by its setter. */
  class PoseProvider {
    var poseData: PoseData
    var isDetecting: bool
    var confidenceHistory: seq<real>
    var isIdle: bool

    /** The history always holds exactly `HistoryLength` values. */
    ghost predicate Valid()
      reads this
    {
      |confidenceHistory| == HistoryLength
    }

    /** Initial state; `now` is the clock reading taken when the provider mounts. */
    constructor (now: int)
      ensures Valid()
      ensures poseData == PoseData(Neutral, 0.0, None, now)
      ensures !isDetecting && !isIdle
      ensures confidenceHistory == InitialHistory()
    {
      poseData := PoseData(Neutral, 0.0, None, now);
      isDetecting := false;
      confidenceHistory := InitialHistory();
      isIdle := false;
    }

    /** Whether the current reading is a punch. */
    function IsPunchDetected(): (r: bool)
      reads this
      ensures r <==> poseData.action == Punch
    {
      poseData.action == Punch
    }

    method SetPoseData(p: PoseData)
      modifies this`poseData
      ensures poseData == p
    {
      poseData := p;
    }

    method SetIsDetecting(b: bool)
      modifies this`isDetecting
      ensures isDetecting == b
    {
      isDetecting := b;
    }

    /** Pushes one confidence value; the history keeps its length and drops its oldest entry. */
    method AddConfidenceValue(value: real)
      requires Valid()
      modifies this`confidenceHistory
      ensures Valid()
      ensures confidenceHistory == ShiftIn(old(confidenceHistory), value)
    {
      confidenceHistory := confidenceHistory[1..] + [value];
    }

    /** One tick of the idle timer, with `now` the clock reading of that tick. */
    method CheckIdle(now: int)
      modifies this`isIdle
      ensures isIdle <==> IsIdle(now, poseData.lastMovementTime)
    {
      var idleTime := now - poseData.lastMovementTime;
      if idleTime > IdleThresholdMs {
        isIdle := true;
      } else {
        isIdle := false;
      }
    }
  }
}
