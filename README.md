# TossCoin coin-flip widget, modelled in Dafny

TossCoin is an Android image view that flips a coin. A toss rotates the coin
through a whole number of turns. On every frame it works out which face is
visible, and the last frame shows a result chosen before the toss began.
This project models the two parts of the widget that follow exact rules:

- `toss_animation.dfy`, module `Toss` (TossAnimation.java). It covers the total
  angle `360 * circleCount`, fixed at construction. It covers the per-frame
  reduction of the swept angle to a degree within the current turn, using
  Java's truncating `%`. The face shown is `-result` strictly inside
  (90, 270) and `result` elsewhere. Each frame updates `currentResult` and
  notifies the listener. The rotation angles and the pivot are what a frame
  hands to the camera. The class `TossAnimation` keeps the parameters as
  `const` fields and the frame state as `var` fields.
- `toss_image_view.dfy`, module `TossView` (TossImageView.java). It covers the
  class `TossImageView`: its builder setters with fail-fast validation, its
  set of secondary animations, the "fill only if null" default for the front
  and reverse drawables, and `startToss`. It also covers
  `QTTossAnimationListener`, which maps a face to a drawable and then
  forwards to the caller's listener.
- `java_int.dfy`, module `JavaInt`. It holds the 32-bit `int` operations the
  source relies on: wrap-around, unary minus, `Math.abs` and `>> 1`.

The swept angle `(int) (interpolatedTime * mTotalAngle)` is an integer input
to `ApplyTransformation`. Drawables, animations, listeners and interpolators
are opaque object references, and `null` stays `null`. A thrown
`RuntimeException` is the `Thrown(message)` case of the `Outcome` value a
setter returns, and a throw leaves the field unchanged.

The end-to-end claim is `Toss.EndOfTossShowsResult`. When the swept angle
reaches the total angle, the degree is 0 and the face is the chosen result.
This holds for every circle count whose total angle fits in an `int`
(|circleCount| ≤ 5965232). Above that, `360 * circleCount` wraps.
`Toss.EndOfTossAfterOverflow` shows that 11930465 circles give a total angle
of 104, so that toss ends on the opposite face. `Toss.PlayFrames` applies a run of
frames to a rotation. Its listener then hears exactly `FacesShown` of the
run, one face per frame, and a run ending at the total angle ends on the
result. `TossView.TossToLastFrame` plays a whole toss through the classes.
It starts the toss, applies every frame, and hands each frame's face to the
wrapping listener. When the view shows an image, both faces are set, and
the toss ends showing the drawable of the chosen result.

## Model

| member | source | states |
|---|---|---|
| JavaInt.Wrap | app/src/main/java/com/winter/tosscoin/TossAnimation.java:50 | the 32-bit result is congruent to the mathematical one modulo 2^32, and equal to it when that fits in an int |
| JavaInt.Neg | app/src/main/java/com/winter/tosscoin/TossAnimation.java:70 | Java's `-x` is the negation except at Integer.MIN_VALUE, which maps to itself |
| JavaInt.Abs | app/src/main/java/com/winter/tosscoin/TossImageView.java:157 | `Math.abs(x)` is x or -x, and it is non-negative exactly when x is not Integer.MIN_VALUE |
| JavaInt.ShiftRight1 | app/src/main/java/com/winter/tosscoin/TossAnimation.java:88-89 | `x >> 1` is the floor of x / 2: 2r ≤ x ≤ 2r + 1 |
| Toss.TotalAngle | app/src/main/java/com/winter/tosscoin/TossAnimation.java:50 | the total angle is 360 × circleCount modulo 2^32, and exactly 360 × circleCount when that does not overflow |
| Toss.DegreeInCircle | app/src/main/java/com/winter/tosscoin/TossAnimation.java:65 | the degree is congruent to the swept angle modulo 360; it equals swept mod 360 in [0, 360) for a non-negative swept angle and lies in (-360, 0] for a negative one |
| Toss.FaceFor | app/src/main/java/com/winter/tosscoin/TossAnimation.java:68-76 | the face is `-result` (Java's wrapping minus, so Integer.MIN_VALUE stays itself) strictly inside (90, 270), and `result` elsewhere |
| Toss.GuardedUpdate | app/src/main/java/com/winter/tosscoin/TossAnimation.java:69-75 | the guarded assignment to `mCurrentResult` as written: whatever the previous face, it ends as `-result` strictly inside (90, 270) and `result` elsewhere |
| Toss.FaceRule | app/src/main/java/com/winter/tosscoin/TossAnimation.java:68-76 | for result 1 or -1, the face is -result exactly when 90 < degree < 270 (strict), result otherwise, and always 1 or -1 |
| Toss.GuardsDoNotMatter | app/src/main/java/com/winter/tosscoin/TossAnimation.java:69-75 | the face after a frame does not depend on the previous face: the inner `!=` guards never change the outcome |
| Toss.SameDegreeEachTurn | app/src/main/java/com/winter/tosscoin/TossAnimation.java:65 | adding whole turns to a non-negative swept angle leaves the degree within the turn unchanged |
| Toss.EndOfTossShowsResult | app/src/main/java/com/winter/tosscoin/TossAnimation.java:50-76 | when the swept angle equals the total angle and that does not overflow, the degree is 0 and the face is the chosen result |
| Toss.EndOfTossAfterOverflow | app/src/main/java/com/winter/tosscoin/TossAnimation.java:50 | with 11930465 circles the wrapped total angle is 104 and the last frame shows the opposite face |
| Toss.AxisRotation | app/src/main/java/com/winter/tosscoin/TossAnimation.java:84 | the rotation about an axis with direction 0 is 0; with direction -1, 0 or 1 it is direction × degree without overflow; for any other direction it is direction × degree wrapped modulo 2^32 |
| Toss.FacesShown | app/src/main/java/com/winter/tosscoin/TossAnimation.java:77-79 | a run of frames yields exactly one notification per frame; `Toss.PlayFrames` proves it is what the rotation's listener hears |
| Toss.FacesShownSnoc | app/src/main/java/com/winter/tosscoin/TossAnimation.java:62-79 | one more frame appends exactly that frame's face to what the listener has heard |
| Toss.FacesShownAt | app/src/main/java/com/winter/tosscoin/TossAnimation.java:62-79 | the i-th notification of a run is the face of the i-th frame's degree |
| Toss.LastFaceIsResult | app/src/main/java/com/winter/tosscoin/TossAnimation.java:62-79 | a run whose last frame reaches the total angle ends by reporting the chosen result |
| Toss.NotifiesUnchangedFace | app/src/main/java/com/winter/tosscoin/TossAnimation.java:77-79 | for every run, two consecutive frames with the same face are both reported: no notification is skipped for an unchanged face |
| Toss.PlayFrames | app/src/main/java/com/winter/tosscoin/TossAnimation.java:62-79 | an empty run leaves the face unchanged; applying a run of frames appends FacesShown of the run to the listener's log when a listener is set and nothing otherwise; the face is that of the last frame, and the chosen result when that frame reaches a total angle that does not overflow |
| Toss.TossAnimation.constructor | app/src/main/java/com/winter/tosscoin/TossAnimation.java:36-52 | the parameters are stored, the total angle is TotalAngle(circleCount), the face starts at -1 and the size at 0, and the interpolator is a fresh accelerate-decelerate one, the default that Android's Animation constructor installs |
| Toss.TossAnimation.Initialize | app/src/main/java/com/winter/tosscoin/TossAnimation.java:55-59 | records the view's width and height and nothing else |
| Toss.TossAnimation.ApplyTransformation | app/src/main/java/com/winter/tosscoin/TossAnimation.java:62-89 | the new face depends on this frame's degree alone; one notification is logged when a listener is set and none otherwise; it yields the three axis rotations and the pivot (width >> 1, height >> 1) |
| Toss.TossAnimation.SetDuration | app/src/main/java/com/winter/tosscoin/TossImageView.java:269 | Android's Animation.setDuration, called here: a negative duration throws IllegalArgumentException and is not stored; otherwise it is stored |
| Toss.TossAnimation.SetStartOffset | app/src/main/java/com/winter/tosscoin/TossImageView.java:270 | the start offset is stored and nothing else changes |
| Toss.TossAnimation.SetInterpolator | app/src/main/java/com/winter/tosscoin/TossImageView.java:271 | the interpolator is stored and nothing else changes |
| Toss.TossAnimation.SetTossAnimationListener | app/src/main/java/com/winter/tosscoin/TossAnimation.java:92-95 | stores the listener that later frames notify |
| TossView.DirectionCheckAsWritten | app/src/main/java/com/winter/tosscoin/TossImageView.java:157-159 | the axis setters' check as written: a throw carries the direction message |
| TossView.MinIntPassesDirectionCheck | app/src/main/java/com/winter/tosscoin/TossImageView.java:156-162 | the check as written accepts Integer.MIN_VALUE, which is not a direction |
| TossView.DirectionCheck | app/src/main/java/com/winter/tosscoin/TossImageView.java:156-190 | the intended check accepts exactly -1, 0 and 1 and otherwise throws the direction message |
| TossView.DirectionChecksAgreeBelowOverflow | app/src/main/java/com/winter/tosscoin/TossImageView.java:157 | the written and intended checks agree on every int except Integer.MIN_VALUE |
| TossView.ResultCheck | app/src/main/java/com/winter/tosscoin/TossImageView.java:199-202 | `Math.abs(r) != 1` throws, so exactly 1 and -1 are accepted, Integer.MIN_VALUE included among the rejected |
| TossView.FillIfNull | app/src/main/java/com/winter/tosscoin/TossImageView.java:107-112 | a null face takes the image; a set one is kept |
| TossView.FillIfNullRule | app/src/main/java/com/winter/tosscoin/TossImageView.java:106-113 | filling never replaces a drawable that is set, fills a null one with the image, and is idempotent |
| TossView.AddAll | app/src/main/java/com/winter/tosscoin/TossImageView.java:277-279 | the loop adds every registered secondary animation after the rotation, each exactly once, and keeps what was already in the group |
| TossView.TossImageView.constructor | app/src/main/java/com/winter/tosscoin/TossImageView.java:83-101 | the attribute values are stored unvalidated, missing faces take the image, the interpolator is a fresh decelerating one, the set is empty, and the drawable invariant holds |
| TossView.TossImageView.SetCoinDrawableIfNecessary | app/src/main/java/com/winter/tosscoin/TossImageView.java:106-113 | only a null front or reverse drawable is replaced by the current image; afterwards an image implies both faces are set |
| TossView.TossImageView.SetImageDrawable | app/src/main/java/com/winter/tosscoin/TossImageView.java:121-125 | shows the drawable, then fills the null faces with it |
| TossView.TossImageView.SetCircleCount | app/src/main/java/com/winter/tosscoin/TossImageView.java:145-148 | stores the count without validation and changes no other field |
| TossView.TossImageView.SetXAxisDirection | app/src/main/java/com/winter/tosscoin/TossImageView.java:156-162 | throws for a value outside -1..1 and leaves the field unchanged; otherwise stores it |
| TossView.TossImageView.SetYAxisDirection | app/src/main/java/com/winter/tosscoin/TossImageView.java:170-176 | throws for a value outside -1..1 and leaves the field unchanged; otherwise stores it |
| TossView.TossImageView.SetZAxisDirection | app/src/main/java/com/winter/tosscoin/TossImageView.java:184-190 | throws for a value outside -1..1 and leaves the field unchanged; otherwise stores it |
| TossView.TossImageView.SetResult | app/src/main/java/com/winter/tosscoin/TossImageView.java:199-205 | throws unless the value is 1 or -1 and leaves the field unchanged; otherwise stores it |
| TossView.TossImageView.SetDuration | app/src/main/java/com/winter/tosscoin/TossImageView.java:213-216 | stores the duration without validation and changes no other field |
| TossView.TossImageView.SetInterpolator | app/src/main/java/com/winter/tosscoin/TossImageView.java:224-227 | stores the interpolator and changes no other field |
| TossView.TossImageView.AddOtherAnimation | app/src/main/java/com/winter/tosscoin/TossImageView.java:235-238 | set semantics: the animation is a member afterwards, and adding a member again changes nothing |
| TossView.TossImageView.ClearOtherAnimation | app/src/main/java/com/winter/tosscoin/TossImageView.java:245-248 | the set of secondary animations is empty afterwards |
| TossView.TossImageView.SetTossAnimationListener | app/src/main/java/com/winter/tosscoin/TossImageView.java:256-259 | stores the caller's listener and changes no other field |
| TossView.TossImageView.StartToss | app/src/main/java/com/winter/tosscoin/TossImageView.java:264-281 | a fresh rotation gets the current count, directions and result; a negative duration throws from its setDuration after the view's animation was cleared, and nothing starts; otherwise it gets the duration, offset and interpolator and a wrapper around the caller's listener, and is grouped first with exactly the registered secondary animations, without a shared interpolator; the set itself is not changed |
| TossView.QTTossAnimationListener.constructor | app/src/main/java/com/winter/tosscoin/TossImageView.java:290-292 | the wrapper keeps the view and the caller's listener |
| TossView.QTTossAnimationListener.OnDrawableChange | app/src/main/java/com/winter/tosscoin/TossImageView.java:295-307 | face 1 shows the front drawable, -1 the reverse one, any other value leaves the view alone; the call is then forwarded exactly when the caller's listener is non-null |
| TossView.QTTossAnimationListener.OnAnimationStart | app/src/main/java/com/winter/tosscoin/TossImageView.java:310-314 | the start event is forwarded exactly when the caller's listener is non-null |
| TossView.QTTossAnimationListener.OnAnimationEnd | app/src/main/java/com/winter/tosscoin/TossImageView.java:317-322 | the end event is forwarded exactly when the caller's listener is non-null |
| TossView.QTTossAnimationListener.OnAnimationRepeat | app/src/main/java/com/winter/tosscoin/TossImageView.java:325-329 | the repeat event is forwarded exactly when the caller's listener is non-null |
| TossView.TossToLastFrame | app/src/main/java/com/winter/tosscoin/TossImageView.java:264-307 | a toss started on a view that shows an image, with result 1 or -1 and no overflow, played frame by frame with each face handed to the wrapping listener up to the frame where the swept angle equals the total angle: the listener hears FacesShown of the run, the rotation ends on the result and the view shows that result's drawable; the view keeps the started group (the rotation first, then exactly the registered secondary animations) and only its image and drawables may change; a negative duration starts nothing |

## Left out

- The camera and matrix calls (`rotate`, `getMatrix`, `preTranslate`, `postTranslate`) are platform float geometry. A frame yields only the integer rotation angles and the pivot passed into them.
- The float `interpolatedTime`, the interpolators and the float-to-int cast are not modelled. The swept angle is an integer input.
- Construction from `TypedArray` and resource defaults is resource I/O. The constructor takes the initial field values as parameters.
- The bodies of `setImageBitmap`, `setImageResource` and `setImageURI` belong to the platform. Each ends like `SetImageDrawable` once its drawable exists, so `SetImageDrawable` stands for all four.
- Rendering, `Log.e` and the scheduling done by `AnimationSet` are platform behaviour. `clearAnimation` and `startAnimation` are modelled only as assignments to the view's `animation` field.
- MainActivity.java is UI glue (button handling, translation animations, a random draw) and is not part of this model.
- Toss.TossAnimation.ApplyTransformation: the call to the listener's `onDrawableChange` is recorded in the `delivered` log instead of being made, because the listener is an opaque reference. `TossToLastFrame` passes the face to the wrapper by hand.
- Toss.TossAnimation.SetTossAnimationListener: the Animation base listener set by `setAnimationListener` and the toss listener are one field here. Lifecycle events are modelled on the wrapper only.
- TossView.TossImageView.AddOtherAnimation: the parameter is non-null. Java's HashSet also accepts null, which would only fail later inside AnimationSet.
- TossView.TossImageView.StartToss: it returns how it ended, the new rotation and its wrapper (null when setDuration threw) so that callers can name them. The Java method returns nothing and lets the exception propagate.
- Toss.PlayFrames and TossView.TossToLastFrame stand for the platform's animation scheduler, which is not part of the source; they take the frames' swept angles as given.
- TossView.TossImageView.SetXAxisDirection, SetYAxisDirection and SetZAxisDirection use the corrected check from the finding below. As written they also accept Integer.MIN_VALUE.
- The listener is notified on every frame, also when the face did not change (TossAnimation.java:77-79, `Toss.TossAnimation.ApplyTransformation`, `Toss.NotifiesUnchangedFace`).
- `startToss` does not clear the set of secondary animations. A caller that wants a fresh set calls `cleareOtherAnimation` first, as MainActivity does.

## Findings

| source | as written | input that shows it | evidently intended | confidence | as-written member | corrected member |
|---|---|---|---|---|---|---|
| app/src/main/java/com/winter/tosscoin/TossImageView.java:157 (also :171, :185) | `if (Math.abs(d) > 1) throw` | d = Integer.MIN_VALUE: `Math.abs` returns Integer.MIN_VALUE, which is not above 1, so the setter stores it | reject every direction other than -1, 0 and 1, the three direction constants the Javadoc at :153 names (the message's 'less than 1' is loose wording) | high; not executed | TossView.MinIntPassesDirectionCheck | TossView.DirectionCheck |
