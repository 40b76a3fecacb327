/**
 * The motion-expiry state of `onMotionDetected` (src/accessory/CameraAccessory.ts
 * lines 145-162): the MotionDetected characteristic and at most one pending
 * expiry timer. The timer is a deadline; `clearTimeout` followed by `setTimeout`
 * replaces it, and the timer firing is an explicit step at a given time.
 */
module MotionTimer {
  import opened Wrappers

  /** The expiry delay, `30 * 1000` milliseconds. */
  const MOTION_TIMEOUT_MS: int := 30 * 1000

  datatype MotionState = MotionState(detected: bool, deadline: Option<int>)

  /** No motion and no timer, as `configureMotion` leaves a fresh accessory. */
  const Idle := MotionState(false, None)

  /**
   * A motion status whose decoded payload is `data` arrives at `now`. Before the
   * accessory is initialized, or with an empty payload, nothing changes; otherwise
   * motion is detected and the one pending deadline becomes `now + 30000`.
   */
  function OnMotion(s: MotionState, initialized: bool, data: string, now: int): (r: MotionState)
    ensures !initialized || |data| == 0 ==> r == s
    ensures initialized && |data| > 0 ==> r.detected && r.deadline == Some(now + MOTION_TIMEOUT_MS)
  {
    if !initialized then s
    else if |data| == 0 then s
    else MotionState(true, Some(now + MOTION_TIMEOUT_MS))
  }

  /**
   * Time has reached `now`: a pending timer whose deadline has passed fires,
   * clearing motion; otherwise nothing changes.
   */
  function Expire(s: MotionState, now: int): (r: MotionState)
    ensures s.deadline.Some? && s.deadline.value <= now ==> r == Idle
    ensures !(s.deadline.Some? && s.deadline.value <= now) ==> r == s
  {
    match s.deadline
    case Some(t) => if t <= now then Idle else s
    case None => s
  }

  /** What an initialized accessory sees: motion statuses and the passing of time. */
  datatype MotionInput =
    | Motion(at: int, data: string)
    | TimePasses(at: int)

  function Step(s: MotionState, e: MotionInput): MotionState {
    match e
    case Motion(t, data) => OnMotion(s, true, data, t)
    case TimePasses(t) => Expire(s, t)
  }

  /** The state after a sequence of inputs, starting idle. */
  function Run(inputs: seq<MotionInput>): MotionState {
    if inputs == [] then Idle
    else Step(Run(inputs[..|inputs| - 1]), inputs[|inputs| - 1])
  }

  predicate Triggers(e: MotionInput) {
    e.Motion? && |e.data| > 0
  }

  /**
   * The motion at index `i` is still live at the end of `inputs`: it is the last
   * triggering motion and time has not since reached 30 seconds after it.
   */
  ghost predicate LiveMotion(inputs: seq<MotionInput>, i: int) {
    0 <= i < |inputs| && Triggers(inputs[i]) &&
    forall j :: i < j < |inputs| ==>
      !Triggers(inputs[j]) &&
      !(inputs[j].TimePasses? && inputs[i].at + MOTION_TIMEOUT_MS <= inputs[j].at)
  }

  /**
   * After any sequence of inputs, motion is detected exactly when a timer is
   * pending, that happens exactly when the last triggering motion is still live,
   * and the pending deadline is 30 seconds after that LAST motion: each new motion
   * cancels the earlier timer rather than adding a second one.
   */
  lemma {:induction false} RunTracksLastMotion(inputs: seq<MotionInput>)
    ensures Run(inputs).detected <==> Run(inputs).deadline.Some?
    ensures Run(inputs).deadline.Some? <==> exists i :: LiveMotion(inputs, i)
    ensures forall i :: LiveMotion(inputs, i) ==>
              Run(inputs).deadline == Some(inputs[i].at + MOTION_TIMEOUT_MS)
  {
    if inputs != [] {
      var n := |inputs| - 1;
      var prefix, e := inputs[..n], inputs[n];
      RunTracksLastMotion(prefix);
      var s := Run(prefix);
      assert Run(inputs) == Step(s, e);
      assert forall i :: 0 <= i < n ==> inputs[i] == prefix[i];
      // A motion live at the end of `inputs` other than the last input was live at the end of `prefix`.
      forall i | LiveMotion(inputs, i) && i < n
        ensures LiveMotion(prefix, i)
      {
      }
      if Triggers(e) {
        assert LiveMotion(inputs, n);
      } else if e.Motion? {
        forall i | LiveMotion(prefix, i) ensures LiveMotion(inputs, i) { }
      } else if s.deadline.Some? && s.deadline.value <= e.at {
        forall i | 0 <= i < n ensures !LiveMotion(inputs, i) { }
      } else {
        forall i | LiveMotion(prefix, i) ensures LiveMotion(inputs, i) { }
      }
    }
  }

  /**
   * A motion at 0 s and a second at 10 s: motion is still detected at 30 s and
   * clears at 40 s, 30 seconds after the second event.
   */
  lemma RetriggerMovesExpiry()
    ensures Run([Motion(0, "m"), Motion(10000, "m"), TimePasses(30000)]).detected
    ensures !Run([Motion(0, "m"), Motion(10000, "m"), TimePasses(30000), TimePasses(40000)]).detected
  {
    var one := [Motion(0, "m")];
    var two := one + [Motion(10000, "m")];
    var three := two + [TimePasses(30000)];
    var four := three + [TimePasses(40000)];
    assert one[..0] == [] && two[..1] == one && three[..2] == two && four[..3] == three;
    assert Run(two) == MotionState(true, Some(40000));
    assert three == [Motion(0, "m"), Motion(10000, "m"), TimePasses(30000)];
    assert four == [Motion(0, "m"), Motion(10000, "m"), TimePasses(30000), TimePasses(40000)];
  }
}
