/** The coin view (TossImageView.java): an image view that holds the toss
    parameters, the front and reverse drawables and a set of secondary
    animations, and that starts a toss by grouping a fresh rotation with those
    animations. Drawables, animations, listeners and interpolators are platform
    objects and appear only as opaque references; Java's `null` is Dafny's. */
module TossView {
  import opened JavaInt
  import opened Toss

  const RESULT_FRONT: int32 := 1
  const RESULT_REVERSE: int32 := -1

  const DIRECTION_MESSAGE: string := "Math.abs(Direction) must be less than 1"
  const RESULT_MESSAGE: string := "Math.abs(Direction) must be 1"

  /** References to platform objects; all but Animation may be null. */
  type Drawable = object?
  type Listener = object?
  type Interpolator = object?
  type Animation = object

  /** The interpolator a view starts with. */
  class DecelerateInterpolator {
  }

  datatype Option<T> = None | Some(value: T)

  /** Android's AnimationSet as startToss builds it: whether its children share
      one interpolator, and its children in the order they were added. */
  datatype AnimationSet = AnimationSet(shareInterpolator: bool, animations: seq<Animation>)
  {
    function AddAnimation(a: Animation): AnimationSet {
      this.(animations := animations + [a])
    }
  }

  /** A call to onDrawableChange passed on to the caller's listener. */
  datatype DrawableChange = DrawableChange(result: int32, animation: TossAnimation)

  /** A lifecycle event passed on to the caller's listener. */
  datatype LifecycleEvent = Started(animation: Animation)
                          | Ended(animation: Animation)
                          | Repeated(animation: Animation)

  /** The direction check of the three axis setters as written:
      `Math.abs(d) > 1` throws. */
  function DirectionCheckAsWritten(d: int32): (o: Outcome)
    ensures o.Thrown? ==> o.message == DIRECTION_MESSAGE
  {
    if Abs(d) > 1 then Thrown(DIRECTION_MESSAGE) else Returned
  }

  /** Math.abs(Integer.MIN_VALUE) is Integer.MIN_VALUE, which is not above 1,
      so the check as written lets that value through as a direction. */
  lemma MinIntPassesDirectionCheck()
    ensures DirectionCheckAsWritten(MIN_INT) == Returned
    ensures !(-1 <= MIN_INT <= 1)
  {
  }

  /** The direction check the setters evidently intend, and that this model
      uses: only -1, 0 and 1 are accepted. */
  function DirectionCheck(d: int32): (o: Outcome)
    ensures o.Returned? <==> d == -1 || d == 0 || d == 1
    ensures o.Thrown? ==> o.message == DIRECTION_MESSAGE
  {
    if d < -1 || 1 < d then Thrown(DIRECTION_MESSAGE) else Returned
  }

  /** The two checks differ on Integer.MIN_VALUE alone. */
  lemma DirectionChecksAgreeBelowOverflow(d: int32)
    ensures d != MIN_INT <==> DirectionCheckAsWritten(d) == DirectionCheck(d)
  {
  }

  /** The result check of setResult, `Math.abs(r) != 1` throws: it accepts
      exactly the two faces, Integer.MIN_VALUE included among the rejected. */
  function ResultCheck(r: int32): (o: Outcome)
    ensures o.Returned? <==> r == RESULT_FRONT || r == RESULT_REVERSE
    ensures o.Thrown? ==> o.message == RESULT_MESSAGE
  {
    if Abs(r) != 1 then Thrown(RESULT_MESSAGE) else Returned
  }

  /** A coin drawable that is only replaced by the current image when null. */
  function FillIfNull(slot: Drawable, image: Drawable): (r: Drawable)
    ensures slot != null ==> r == slot
    ensures slot == null ==> r == image
  {
    if slot == null then image else slot
  }

  /** Filling never replaces a drawable that is set, fills a null one with the
      image, and doing it twice is doing it once. */
  lemma FillIfNullRule(slot: Drawable, image: Drawable)
    ensures slot != null ==> FillIfNull(slot, image) == slot
    ensures slot == null ==> FillIfNull(slot, image) == image
    ensures FillIfNull(FillIfNull(slot, image), image) == FillIfNull(slot, image)
  {
  }

  /** The for-loop of startToss: adds every secondary animation to the group
      after what it already holds, each exactly once, in no particular order. */
  method AddAll(group: AnimationSet, others: set<Animation>) returns (r: AnimationSet)
    ensures r.shareInterpolator == group.shareInterpolator
    ensures |r.animations| == |group.animations| + |others|
    ensures r.animations[..|group.animations|] == group.animations
    ensures forall a :: a in r.animations[|group.animations|..] <==> a in others
  {
    r := group;
    var rest := others;
    ghost var added: seq<Animation> := [];
    while rest != {}
      invariant rest <= others
      invariant r.shareInterpolator == group.shareInterpolator
      invariant r.animations == group.animations + added
      invariant |added| + |rest| == |others|
      invariant forall a :: a in added <==> a in others && a !in rest
      decreases rest
    {
      var animation :| animation in rest;
      r := r.AddAnimation(animation);
      added := added + [animation];
      rest := rest - {animation};
    }
    assert r.animations[|group.animations|..] == added;
  }

  class TossImageView {
    var circleCount: int32
    var xAxisDirection: int32
    var yAxisDirection: int32
    var zAxisDirection: int32
    var result: int32
    var duration: int32
    var startOffset: int32
    var interpolator: Interpolator
    var frontDrawable: Drawable
    var reverseDrawable: Drawable
    var tossAnimationListener: Listener
    var otherAnimations: set<Animation>

    /** The drawable the image view shows (getDrawable()). */
    var image: Drawable
    /** The animation last started on the view (startAnimation). */
    var animation: Option<AnimationSet>

    /** Whenever the view shows an image, both coin faces are set. */
    ghost predicate Valid()
      reads this
    {
      image != null ==> frontDrawable != null && reverseDrawable != null
    }

    /** Construction from the layout's attribute values: the fields take them
        as given, without validation, and a missing face takes the image. */
    constructor (circleCount: int32, xAxisDirection: int32, yAxisDirection: int32,
                 zAxisDirection: int32, result: int32, frontDrawable: Drawable,
                 reverseDrawable: Drawable, duration: int32, startOffset: int32,
                 image: Drawable)
      ensures Valid()
      ensures this.circleCount == circleCount && this.result == result
      ensures this.xAxisDirection == xAxisDirection
      ensures this.yAxisDirection == yAxisDirection
      ensures this.zAxisDirection == zAxisDirection
      ensures this.duration == duration && this.startOffset == startOffset
      ensures this.image == image
      ensures this.frontDrawable == FillIfNull(frontDrawable, image)
      ensures this.reverseDrawable == FillIfNull(reverseDrawable, image)
      ensures interpolator != null && fresh(interpolator)
      ensures interpolator is DecelerateInterpolator
      ensures tossAnimationListener == null && otherAnimations == {} && animation == None
    {
      this.circleCount := circleCount;
      this.xAxisDirection := xAxisDirection;
      this.yAxisDirection := yAxisDirection;
      this.zAxisDirection := zAxisDirection;
      this.result := result;
      this.frontDrawable := frontDrawable;
      this.reverseDrawable := reverseDrawable;
      this.duration := duration;
      this.startOffset := startOffset;
      this.image := image;
      interpolator := new DecelerateInterpolator;
      tossAnimationListener := null;
      otherAnimations := {};
      animation := None;
      new;
      SetCoinDrawableIfNecessary();
    }

    /** Gives a null front or reverse drawable the current image. */
    method SetCoinDrawableIfNecessary()
      modifies this`frontDrawable, this`reverseDrawable
      ensures Valid()
      ensures frontDrawable == FillIfNull(old(frontDrawable), image)
      ensures reverseDrawable == FillIfNull(old(reverseDrawable), image)
    {
      if frontDrawable == null {
        frontDrawable := image;
      }
      if reverseDrawable == null {
        reverseDrawable := image;
      }
    }

    /** setImageDrawable, and with it setImageBitmap, setImageResource and
        setImageURI once the platform has made their drawable: show it, then
        fill the missing coin faces. */
    method SetImageDrawable(drawable: Drawable)
      modifies this`image, this`frontDrawable, this`reverseDrawable
      ensures Valid()
      ensures image == drawable
      ensures frontDrawable == FillIfNull(old(frontDrawable), drawable)
      ensures reverseDrawable == FillIfNull(old(reverseDrawable), drawable)
    {
      image := drawable;
      SetCoinDrawableIfNecessary();
    }

    method SetCircleCount(circleCount: int32)
      modifies this`circleCount
      ensures this.circleCount == circleCount
    {
      this.circleCount := circleCount;
    }

    method SetXAxisDirection(xAxisDirection: int32) returns (o: Outcome)
      modifies this`xAxisDirection
      ensures o == DirectionCheck(xAxisDirection)
      ensures this.xAxisDirection == if o.Returned? then xAxisDirection else old(this.xAxisDirection)
    {
      o := DirectionCheck(xAxisDirection);
      if o.Returned? {
        this.xAxisDirection := xAxisDirection;
      }
    }

    method SetYAxisDirection(yAxisDirection: int32) returns (o: Outcome)
      modifies this`yAxisDirection
      ensures o == DirectionCheck(yAxisDirection)
      ensures this.yAxisDirection == if o.Returned? then yAxisDirection else old(this.yAxisDirection)
    {
      o := DirectionCheck(yAxisDirection);
      if o.Returned? {
        this.yAxisDirection := yAxisDirection;
      }
    }

    method SetZAxisDirection(zAxisDirection: int32) returns (o: Outcome)
      modifies this`zAxisDirection
      ensures o == DirectionCheck(zAxisDirection)
      ensures this.zAxisDirection == if o.Returned? then zAxisDirection else old(this.zAxisDirection)
    {
      o := DirectionCheck(zAxisDirection);
      if o.Returned? {
        this.zAxisDirection := zAxisDirection;
      }
    }

    method SetResult(result: int32) returns (o: Outcome)
      modifies this`result
      ensures o == ResultCheck(result)
      ensures this.result == if o.Returned? then result else old(this.result)
    {
      o := ResultCheck(result);
      if o.Returned? {
        this.result := result;
      }
    }

    method SetDuration(duration: int32)
      modifies this`duration
      ensures this.duration == duration
    {
      this.duration := duration;
    }

    method SetInterpolator(interpolator: Interpolator)
      modifies this`interpolator
      ensures this.interpolator == interpolator
    {
      this.interpolator := interpolator;
    }

    /** Set semantics: afterwards the animation is a member, and adding a
        member again changes nothing. */
    method AddOtherAnimation(animation: Animation)
      modifies this`otherAnimations
      ensures otherAnimations == old(otherAnimations) + {animation}
      ensures animation in otherAnimations
      ensures animation in old(otherAnimations) ==> otherAnimations == old(otherAnimations)
    {
      otherAnimations := otherAnimations + {animation};
    }

    /** cleareOtherAnimation: forgets every secondary animation. */
    method ClearOtherAnimation()
      modifies this`otherAnimations
      ensures otherAnimations == {}
    {
      otherAnimations := {};
    }

    method SetTossAnimationListener(listener: Listener)
      modifies this`tossAnimationListener
      ensures tossAnimationListener == listener
    {
      tossAnimationListener := listener;
    }

    /** Starts a toss: a fresh rotation built from the current parameters,
        listened to by a wrapper around the caller's listener, grouped with
        every secondary animation in a set that does not share one
        interpolator. A negative duration makes the rotation's setDuration
        throw after the view's animation was cleared, and nothing starts.
        The rotation and the wrapper are returned so that callers can name
        them; the set of secondary animations is left as it was. */
    method StartToss() returns (o: Outcome, toss: TossAnimation, wrapper: QTTossAnimationListener?)
      modifies this`animation
      ensures o == if duration < 0 then Thrown(DURATION_MESSAGE) else Returned
      ensures fresh(toss)
      ensures toss.circleCount == circleCount && toss.result == result
      ensures toss.xAxisDirection == xAxisDirection
      ensures toss.yAxisDirection == yAxisDirection
      ensures toss.zAxisDirection == zAxisDirection
      ensures toss.totalAngle == TotalAngle(circleCount)
      ensures toss.currentResult == -1 && toss.width == 0 && toss.height == 0
      ensures toss.delivered == []
      ensures o.Thrown? ==> animation == None && wrapper == null
      ensures o.Returned? ==>
                wrapper != null && fresh(wrapper) &&
                toss.duration == duration && toss.startOffset == startOffset &&
                toss.interpolator == interpolator &&
                toss.tossAnimationListener == wrapper &&
                wrapper.view == this && wrapper.tossAnimationListener == tossAnimationListener &&
                wrapper.forwarded == [] && wrapper.lifecycle == []
      ensures o.Returned? ==>
                animation.Some? && !animation.value.shareInterpolator &&
                |animation.value.animations| == 1 + |otherAnimations| &&
                animation.value.animations[0] == toss &&
                forall a :: a in animation.value.animations[1..] <==> a in otherAnimations
    {
      // clearAnimation()
      animation := None;

      toss := new TossAnimation(circleCount, xAxisDirection, yAxisDirection, zAxisDirection, result);
      o := toss.SetDuration(duration);
      if o.Thrown? {
        wrapper := null;
        return;
      }
      toss.SetStartOffset(startOffset);
      toss.SetInterpolator(interpolator);
      wrapper := new QTTossAnimationListener(this, tossAnimationListener);
      toss.SetTossAnimationListener(wrapper);

      var animationSet := AnimationSet(false, []);
      animationSet := animationSet.AddAnimation(toss);
      animationSet := AddAll(animationSet, otherAnimations);
      // startAnimation(animationSet)
      animation := Some(animationSet);
    }
  }

  /** The listener startToss gives the rotation: it shows the drawable of the
      reported face on the view, then passes every event on to the caller's
      listener when there is one. */
  class QTTossAnimationListener {
    const view: TossImageView
    const tossAnimationListener: Listener
    /** The onDrawableChange calls passed on, oldest first. */
    var forwarded: seq<DrawableChange>
    /** The lifecycle events passed on, oldest first. */
    var lifecycle: seq<LifecycleEvent>

    constructor (view: TossImageView, tossAnimationListener: Listener)
      ensures this.view == view && this.tossAnimationListener == tossAnimationListener
      ensures forwarded == [] && lifecycle == []
    {
      this.view := view;
      this.tossAnimationListener := tossAnimationListener;
      forwarded, lifecycle := [], [];
    }

    /** Face 1 shows the front drawable, face -1 the reverse one, any other
        value leaves the view alone; the call is then passed on. */
    method OnDrawableChange(result: int32, animation: TossAnimation)
      modifies view`image, view`frontDrawable, view`reverseDrawable, this`forwarded
      ensures view.image == if result == RESULT_FRONT then old(view.frontDrawable)
                            else if result == RESULT_REVERSE then old(view.reverseDrawable)
                            else old(view.image)
      ensures result == RESULT_FRONT || result == RESULT_REVERSE ==>
                view.frontDrawable == FillIfNull(old(view.frontDrawable), view.image) &&
                view.reverseDrawable == FillIfNull(old(view.reverseDrawable), view.image) &&
                view.Valid()
      ensures result != RESULT_FRONT && result != RESULT_REVERSE ==>
                view.frontDrawable == old(view.frontDrawable) &&
                view.reverseDrawable == old(view.reverseDrawable)
      ensures forwarded == if tossAnimationListener != null
                           then old(forwarded) + [DrawableChange(result, animation)]
                           else old(forwarded)
    {
      if result == RESULT_FRONT {
        view.SetImageDrawable(view.frontDrawable);
      } else if result == RESULT_REVERSE {
        view.SetImageDrawable(view.reverseDrawable);
      }
      if tossAnimationListener != null {
        forwarded := forwarded + [DrawableChange(result, animation)];
      }
    }

    method OnAnimationStart(animation: Animation)
      modifies this`lifecycle
      ensures lifecycle == if tossAnimationListener != null
                           then old(lifecycle) + [Started(animation)] else old(lifecycle)
    {
      if tossAnimationListener != null {
        lifecycle := lifecycle + [Started(animation)];
      }
    }

    method OnAnimationEnd(animation: Animation)
      modifies this`lifecycle
      ensures lifecycle == if tossAnimationListener != null
                           then old(lifecycle) + [Ended(animation)] else old(lifecycle)
    {
      if tossAnimationListener != null {
        lifecycle := lifecycle + [Ended(animation)];
      }
    }

    method OnAnimationRepeat(animation: Animation)
      modifies this`lifecycle
      ensures lifecycle == if tossAnimationListener != null
                           then old(lifecycle) + [Repeated(animation)] else old(lifecycle)
    {
      if tossAnimationListener != null {
        lifecycle := lifecycle + [Repeated(animation)];
      }
    }
  }

  /** A toss played frame by frame, each frame's face handed to the wrapping
      listener as the rotation does, up to the frame where the swept angle
      reaches the total angle. While the view shows an image both faces are
      set, so each frame shows the drawable of its face, and the toss ends on
      the drawable of the chosen result, provided that the total angle does
      not overflow. A negative duration starts nothing. */
  method TossToLastFrame(view: TossImageView, sweeps: seq<int32>)
      returns (o: Outcome, toss: TossAnimation)
    requires view.Valid() && view.image != null
    requires view.result == RESULT_FRONT || view.result == RESULT_REVERSE
    requires -MAX_EXACT_CIRCLES <= view.circleCount <= MAX_EXACT_CIRCLES
    requires |sweeps| > 0 && sweeps[|sweeps| - 1] == TotalAngle(view.circleCount)
    modifies view`animation, view`image, view`frontDrawable, view`reverseDrawable
    ensures o == if old(view.duration) < 0 then Thrown(DURATION_MESSAGE) else Returned
    ensures o.Returned? ==>
              view.animation.Some? && !view.animation.value.shareInterpolator &&
              |view.animation.value.animations| == 1 + |view.otherAnimations| &&
              view.animation.value.animations[0] == toss &&
              forall a :: a in view.animation.value.animations[1..] <==> a in view.otherAnimations
    ensures o.Thrown? ==> view.animation == None && toss.delivered == []
    ensures o.Returned? ==> toss.currentResult == old(view.result)
    ensures o.Returned? ==> toss.delivered == FacesShown(sweeps, old(view.result))
    ensures o.Returned? ==>
              view.image == if old(view.result) == RESULT_FRONT then old(view.frontDrawable)
                            else old(view.reverseDrawable)
  {
    var wrapper;
    o, toss, wrapper := view.StartToss();
    if o.Thrown? {
      return;
    }
    ghost var started := view.animation;
    var i := 0;
    while i < |sweeps|
      invariant 0 <= i <= |sweeps|
      invariant wrapper != null && wrapper.view == view && toss.tossAnimationListener == wrapper
      invariant view.animation == started
      invariant view.Valid() && view.image != null
      invariant view.frontDrawable == old(view.frontDrawable)
      invariant view.reverseDrawable == old(view.reverseDrawable)
      invariant toss.delivered == FacesShown(sweeps[..i], toss.result)
      invariant i > 0 ==> toss.currentResult == FaceFor(DegreeInCircle(sweeps[i - 1]), toss.result)
      invariant i > 0 ==> view.image == if toss.currentResult == RESULT_FRONT
                                         then old(view.frontDrawable)
                                         else old(view.reverseDrawable)
    {
      var _ := toss.ApplyTransformation(sweeps[i]);
      FaceRule(DegreeInCircle(sweeps[i]), toss.result);
      wrapper.OnDrawableChange(toss.currentResult, toss);
      FacesShownSnoc(sweeps[..i], sweeps[i], toss.result);
      assert sweeps[..i + 1] == sweeps[..i] + [sweeps[i]];
      i := i + 1;
    }
    assert sweeps[..i] == sweeps;
    EndOfTossShowsResult(toss.circleCount, toss.result);
  }
}
