/** The rotation animation of the coin (TossAnimation.java): the total angle
    fixed at construction, the per-frame reduction of the swept angle to a
    degree within the current turn, the choice of the face shown, the rotation
    angles handed to the camera and the pivot at the centre of the view. The
    camera and matrix themselves are platform geometry and are not modelled:
    a frame yields the integer values that the source passes into them. */
module Toss {
  import opened JavaInt

  /** How a Java call ends: it returns (a setter returns the view), or throws
      a RuntimeException with this message. */
  datatype Outcome = Returned | Thrown(message: string)

  /** The message of the IllegalArgumentException that Android's
      Animation.setDuration throws for a negative duration. */
  const DURATION_MESSAGE: string := "Animation duration cannot be negative"

  /** Largest circle count whose total angle `360 * circleCount` fits in an int. */
  const MAX_EXACT_CIRCLES: int := 5965232

  /** The angle swept by the whole animation, computed in 32-bit arithmetic. */
  function TotalAngle(circleCount: int32): (r: int32)
    ensures -MAX_EXACT_CIRCLES <= circleCount <= MAX_EXACT_CIRCLES ==> r == 360 * circleCount
    ensures (r - 360 * circleCount) % TWO_TO_32 == 0
  {
    Wrap(360 * circleCount)
  }

  /** The degree reached within the current turn, `swept % 360` in Java.
      Java's `%` truncates, so the degree lies in [0, 360) for a non-negative
      swept angle and in (-360, 0] for a negative one (an interpolator may
      overshoot below zero). */
  function DegreeInCircle(swept: int32): (d: int32)
    ensures -360 < d < 360
    ensures (swept - d) % 360 == 0
    ensures swept >= 0 ==> d == swept % 360 && 0 <= d
    ensures swept < 0 ==> d <= 0
  {
    if swept >= 0 then swept % 360 else -((-(swept as int)) % 360)
  }

  /** Past the edge-on points, strictly between 90 and 270 degrees, the coin
      shows its other side. */
  predicate ShowsOtherSide(degree: int) {
    90 < degree && degree < 270
  }

  /** The face shown at a degree when the toss is to land on `result`:
      `-result` (in 32-bit arithmetic) on the other side, `result` otherwise. */
  function FaceFor(degree: int, result: int32): (r: int32)
    ensures !ShowsOtherSide(degree) ==> r == result
    ensures ShowsOtherSide(degree) && result != MIN_INT ==> r as int == -(result as int)
    ensures ShowsOtherSide(degree) && result == MIN_INT ==> r == MIN_INT
  {
    if ShowsOtherSide(degree) then Neg(result) else result
  }

  /** The face that `applyTransformation` stores in `mCurrentResult`, with the
      source's inner guards: each branch assigns only when the value differs. */
  function GuardedUpdate(current: int32, degree: int, result: int32): (r: int32)
    ensures ShowsOtherSide(degree) ==> r == Neg(result)
    ensures !ShowsOtherSide(degree) ==> r == result
  {
    if ShowsOtherSide(degree) then
      (if current != Neg(result) then Neg(result) else current)
    else
      (if current != result then result else current)
  }

  /** For a proper result (1 or -1), the face is the opposite one exactly
      strictly inside (90, 270), so the edges 90 and 270 and every negative
      degree show the chosen face, and the face is always 1 or -1. */
  lemma FaceRule(degree: int, result: int32)
    requires result == 1 || result == -1
    ensures FaceFor(degree, result) == -result <==> 90 < degree < 270
    ensures FaceFor(degree, result) == result <==> !(90 < degree < 270)
    ensures FaceFor(degree, result) == 1 || FaceFor(degree, result) == -1
  {
  }

  /** The face after a frame depends on that frame's degree alone: the inner
      `!=` guards never change the outcome, whatever the previous face was. */
  lemma GuardsDoNotMatter(current: int32, degree: int, result: int32)
    ensures GuardedUpdate(current, degree, result) == FaceFor(degree, result)
  {
  }

  /** Adding whole turns to a non-negative swept angle does not change the
      degree within the turn, hence not the face either. */
  lemma SameDegreeEachTurn(swept: int32, turns: nat)
    requires 0 <= swept && swept + 360 * turns <= MAX_INT
    ensures DegreeInCircle(swept + 360 * turns) == DegreeInCircle(swept)
  {
  }

  /** The end-to-end claim: when the swept angle reaches the total angle, the
      degree is 0 and the face shown is the chosen result, provided that
      `360 * circleCount` does not overflow. */
  lemma EndOfTossShowsResult(circleCount: int32, result: int32)
    requires -MAX_EXACT_CIRCLES <= circleCount <= MAX_EXACT_CIRCLES
    ensures DegreeInCircle(TotalAngle(circleCount)) == 0
    ensures FaceFor(DegreeInCircle(TotalAngle(circleCount)), result) == result
  {
    if circleCount >= 0 {
      SameDegreeEachTurn(0, circleCount);
    } else {
      SameDegreeEachTurn(0, -circleCount);
      assert DegreeInCircle(TotalAngle(circleCount)) == -DegreeInCircle(-360 * circleCount);
    }
  }

  /** Beyond that bound the 32-bit total angle wraps: with 11930465 circles it
      is 104, so the last frame shows the opposite face. */
  lemma EndOfTossAfterOverflow(result: int32)
    ensures TotalAngle(11930465) == 104
    ensures FaceFor(DegreeInCircle(TotalAngle(11930465)), result) == Neg(result)
  {
  }

  /** The rotation about one axis, `direction * degree` in 32-bit arithmetic. */
  function AxisRotation(direction: int32, degree: int32): (r: int32)
    ensures direction == 0 ==> r == 0
    ensures -1 <= direction <= 1 && -360 < degree < 360 ==> r == direction * degree
    ensures (r - direction * degree) % TWO_TO_32 == 0
  {
    Wrap(direction * degree)
  }

  /** What one frame hands to the camera and matrix: the three rotation
      angles and the pivot, translated to the origin before the rotation and
      back after it. */
  datatype Transform = Transform(rotateX: int32, rotateY: int32, rotateZ: int32,
                                 pivotX: int32, pivotY: int32)

  /** The faces the listener receives when frames with these swept angles are
      applied one after another: one notification per frame. */
  function FacesShown(sweeps: seq<int32>, result: int32): (faces: seq<int32>)
    ensures |faces| == |sweeps|
  {
    if sweeps == [] then []
    else [FaceFor(DegreeInCircle(sweeps[0]), result)] + FacesShown(sweeps[1..], result)
  }

  /** One more frame adds its face at the end of what the listener hears. */
  lemma {:induction false} FacesShownSnoc(sweeps: seq<int32>, swept: int32, result: int32)
    ensures FacesShown(sweeps + [swept], result)
            == FacesShown(sweeps, result) + [FaceFor(DegreeInCircle(swept), result)]
  {
    if sweeps != [] {
      assert (sweeps + [swept])[1..] == sweeps[1..] + [swept];
      FacesShownSnoc(sweeps[1..], swept, result);
    }
  }

  lemma {:induction false} FacesShownAt(sweeps: seq<int32>, result: int32, i: nat)
    requires i < |sweeps|
    ensures FacesShown(sweeps, result)[i] == FaceFor(DegreeInCircle(sweeps[i]), result)
  {
    if i > 0 {
      FacesShownAt(sweeps[1..], result, i - 1);
    }
  }

  /** A playback whose last frame reaches the total angle settles on the
      chosen result. */
  lemma LastFaceIsResult(sweeps: seq<int32>, circleCount: int32, result: int32)
    requires |sweeps| > 0 && sweeps[|sweeps| - 1] == TotalAngle(circleCount)
    requires -MAX_EXACT_CIRCLES <= circleCount <= MAX_EXACT_CIRCLES
    ensures FacesShown(sweeps, result)[|sweeps| - 1] == result
  {
    FacesShownAt(sweeps, result, |sweeps| - 1);
    EndOfTossShowsResult(circleCount, result);
  }

  /** The listener hears about every frame, also when the face did not
      change: two consecutive frames showing the same face report it twice. */
  lemma NotifiesUnchangedFace(sweeps: seq<int32>, result: int32, i: nat)
    requires i + 1 < |sweeps|
    requires FaceFor(DegreeInCircle(sweeps[i]), result)
             == FaceFor(DegreeInCircle(sweeps[i + 1]), result)
    ensures FacesShown(sweeps, result)[i + 1] == FacesShown(sweeps, result)[i]
  {
    FacesShownAt(sweeps, result, i);
    FacesShownAt(sweeps, result, i + 1);
  }

  /** The interpolator Android's Animation installs when none is set. */
  class AccelerateDecelerateInterpolator {
  }

  /** The rotation of a coin (Android's Animation subclass TossAnimation).
      Its parameters are fixed at construction; each frame updates the face
      it shows and, when a listener is set, tells the listener. */
  class TossAnimation {
    const circleCount: int32
    const xAxisDirection: int32
    const yAxisDirection: int32
    const zAxisDirection: int32
    const result: int32
    /** The angle swept by the whole toss, fixed with the circle count. */
    const totalAngle: int32 := TotalAngle(circleCount)

    /** The face last shown; -1 before the first frame. */
    var currentResult: int32
    var width: int32
    var height: int32

    /** Inherited Animation settings. */
    var duration: int32
    var startOffset: int32
    var interpolator: object?

    /** The TossAnimationListener, also registered as the Animation listener. */
    var tossAnimationListener: object?
    /** The faces passed to the listener's onDrawableChange, oldest first. */
    var delivered: seq<int32>

    constructor (circleCount: int32, xAxisDirection: int32, yAxisDirection: int32,
                 zAxisDirection: int32, result: int32)
      ensures this.circleCount == circleCount && this.result == result
      ensures this.xAxisDirection == xAxisDirection
      ensures this.yAxisDirection == yAxisDirection
      ensures this.zAxisDirection == zAxisDirection
      ensures totalAngle == TotalAngle(circleCount)
      ensures currentResult == -1 && width == 0 && height == 0
      ensures duration == 0 && startOffset == 0
      ensures interpolator != null && fresh(interpolator)
      ensures interpolator is AccelerateDecelerateInterpolator
      ensures tossAnimationListener == null && delivered == []
    {
      this.circleCount := circleCount;
      this.xAxisDirection := xAxisDirection;
      this.yAxisDirection := yAxisDirection;
      this.zAxisDirection := zAxisDirection;
      this.result := result;
      currentResult := -1;
      width, height := 0, 0;
      duration, startOffset := 0, 0;
      interpolator := new AccelerateDecelerateInterpolator;
      tossAnimationListener, delivered := null, [];
    }

    /** Records the size of the animated view; the parent's size is unused. */
    method Initialize(width: int32, height: int32, parentWidth: int32, parentHeight: int32)
      modifies this`width, this`height
      ensures this.width == width && this.height == height
    {
      this.width := width;
      this.height := height;
    }

    /** One frame, given the swept angle `(int) (interpolatedTime * totalAngle)`. */
    method ApplyTransformation(swept: int32) returns (t: Transform)
      modifies this`currentResult, this`delivered
      ensures currentResult == FaceFor(DegreeInCircle(swept), result)
      ensures delivered == if tossAnimationListener != null
                           then old(delivered) + [currentResult] else old(delivered)
      ensures t.rotateX == AxisRotation(xAxisDirection, DegreeInCircle(swept))
      ensures t.rotateY == AxisRotation(yAxisDirection, DegreeInCircle(swept))
      ensures t.rotateZ == AxisRotation(zAxisDirection, DegreeInCircle(swept))
      ensures 2 * t.pivotX <= width <= 2 * t.pivotX + 1
      ensures 2 * t.pivotY <= height <= 2 * t.pivotY + 1
    {
      var degreeInCircle := DegreeInCircle(swept);
      currentResult := GuardedUpdate(currentResult, degreeInCircle, result);
      GuardsDoNotMatter(old(currentResult), degreeInCircle, result);
      if tossAnimationListener != null {
        delivered := delivered + [currentResult];
      }
      t := Transform(Wrap(xAxisDirection * degreeInCircle),
                     Wrap(yAxisDirection * degreeInCircle),
                     Wrap(zAxisDirection * degreeInCircle),
                     ShiftRight1(width), ShiftRight1(height));
    }

    /** Android's Animation.setDuration: a negative duration throws and is
        not stored. */
    method SetDuration(duration: int32) returns (o: Outcome)
      modifies this`duration
      ensures o == if duration < 0 then Thrown(DURATION_MESSAGE) else Returned
      ensures this.duration == if o.Returned? then duration else old(this.duration)
    {
      if duration < 0 {
        return Thrown(DURATION_MESSAGE);
      }
      this.duration := duration;
      o := Returned;
    }

    method SetStartOffset(startOffset: int32)
      modifies this`startOffset
      ensures this.startOffset == startOffset
    {
      this.startOffset := startOffset;
    }

    method SetInterpolator(interpolator: object?)
      modifies this`interpolator
      ensures this.interpolator == interpolator
    {
      this.interpolator := interpolator;
    }

    method SetTossAnimationListener(listener: object?)
      modifies this`tossAnimationListener
      ensures tossAnimationListener == listener
    {
      tossAnimationListener := listener;
    }
  }

  /** The platform's animation scheduler applying frames with these swept
      angles to a toss, one after another: with a listener set, it hears one
      face per frame, FacesShown of the run, and a run whose last frame
      reaches a total angle that does not overflow ends on the chosen result. */
  method PlayFrames(toss: TossAnimation, sweeps: seq<int32>)
    modifies toss`currentResult, toss`delivered
    ensures toss.delivered == if toss.tossAnimationListener != null
                              then old(toss.delivered) + FacesShown(sweeps, toss.result)
                              else old(toss.delivered)
    ensures |sweeps| == 0 ==> toss.currentResult == old(toss.currentResult)
    ensures |sweeps| > 0 ==>
              toss.currentResult == FaceFor(DegreeInCircle(sweeps[|sweeps| - 1]), toss.result)
    ensures |sweeps| > 0 && sweeps[|sweeps| - 1] == toss.totalAngle &&
            -MAX_EXACT_CIRCLES <= toss.circleCount <= MAX_EXACT_CIRCLES ==>
              toss.currentResult == toss.result &&
              (toss.tossAnimationListener != null ==> toss.delivered[|toss.delivered| - 1] == toss.result)
  {
    var i := 0;
    while i < |sweeps|
      invariant 0 <= i <= |sweeps|
      invariant toss.delivered == if toss.tossAnimationListener != null
                                  then old(toss.delivered) + FacesShown(sweeps[..i], toss.result)
                                  else old(toss.delivered)
      invariant i == 0 ==> toss.currentResult == old(toss.currentResult)
      invariant i > 0 ==> toss.currentResult == FaceFor(DegreeInCircle(sweeps[i - 1]), toss.result)
    {
      var _ := toss.ApplyTransformation(sweeps[i]);
      FacesShownSnoc(sweeps[..i], sweeps[i], toss.result);
      assert sweeps[..i + 1] == sweeps[..i] + [sweeps[i]];
      i := i + 1;
    }
    assert sweeps[..i] == sweeps;
    if |sweeps| > 0 && sweeps[|sweeps| - 1] == toss.totalAngle &&
       -MAX_EXACT_CIRCLES <= toss.circleCount <= MAX_EXACT_CIRCLES {
      EndOfTossShowsResult(toss.circleCount, toss.result);
      LastFaceIsResult(sweeps, toss.circleCount, toss.result);
    }
  }
}
