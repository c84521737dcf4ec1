/**
 * The pure half of the gesture controller: how the horizontal offset of a
 * drag is classified when the pointer is released (script.js:129-139), the
 * opacity of the LIKE / NOPE labels while dragging (script.js:142-160), and
 * the synthetic offsets of the desktop buttons (script.js:200-208).
 * Pointer coordinates are reals, as `clientX` may be fractional.
 */
module Gesture {
  /** `SWIPE_THRESHOLD`: a release farther than this, in pixels, commits. */
  const SwipeThreshold: real := 80.0

  /** Travel, in pixels, at which a label reaches full opacity (`deltaX / 100`). */
  const LabelSaturation: real := 100.0

  /** `maxOpacity` of `updateCardLabels`. */
  const MaxOpacity: real := 1.0

  /** Offset the LIKE button passes to the swipe animation; the NOPE button passes its negation. */
  const ButtonOffset: real := 100.0

  /** What releasing a drag decides. */
  datatype Release = Swipe(liked: bool) | SnapBack

  function Abs(x: real): real
  {
    if x < 0.0 then -x else x
  }

  function Min(a: real, b: real): real
  {
    if a <= b then a else b
  }

  /**
   * `onPointerUp`'s decision: commit when the offset's magnitude is strictly
   * above the threshold, as a like when the offset is positive.
   */
  function Classify(deltaX: real): (r: Release)
    ensures r.Swipe? <==> deltaX > SwipeThreshold || deltaX < -SwipeThreshold
    ensures r.Swipe? ==> (r.liked <==> deltaX > 0.0)
  {
    if Abs(deltaX) > SwipeThreshold then Swipe(deltaX > 0.0) else SnapBack
  }

  /** The threshold itself snaps back; one pixel beyond commits with the offset's polarity. */
  lemma ClassifyBoundary()
    ensures Classify(80.0) == SnapBack && Classify(-80.0) == SnapBack
    ensures Classify(81.0) == Swipe(true) && Classify(-81.0) == Swipe(false)
    ensures Classify(0.0) == SnapBack
  {
  }

  /** Mirroring a drag mirrors its decision. */
  lemma ClassifyMirror(deltaX: real)
    ensures Classify(-deltaX) == match Classify(deltaX)
      case Swipe(liked) => Swipe(!liked)
      case SnapBack => SnapBack
  {
  }

  /** Dragging farther in the same direction never turns a commit into a snap-back or flips it. */
  lemma ClassifyMonotone(d: real, e: real)
    requires Classify(d).Swipe?
    requires (0.0 < d <= e) || (e <= d < 0.0)
    ensures Classify(e) == Classify(d)
  {
  }

  /** Both buttons' synthetic offsets commit, with the polarity of the button. */
  lemma ButtonOffsetsCommit()
    ensures Classify(ButtonOffset) == Swipe(true)
    ensures Classify(-ButtonOffset) == Swipe(false)
  {
  }

  /** The opacities of the LIKE and NOPE labels on the top card. */
  datatype Labels = Labels(like: real, nope: real)

  /**
   * `updateCardLabels`: the label matching the offset's sign fades in linearly
   * with the offset and saturates at full opacity; the other one is hidden.
   */
  function LabelOpacity(deltaX: real): (l: Labels)
    ensures 0.0 <= l.like <= MaxOpacity && 0.0 <= l.nope <= MaxOpacity
    ensures l.like == 0.0 || l.nope == 0.0
    ensures l.like > 0.0 <==> deltaX > 0.0
    ensures l.nope > 0.0 <==> deltaX < 0.0
    ensures -LabelSaturation <= deltaX <= LabelSaturation ==> l.like - l.nope == deltaX / LabelSaturation
    ensures deltaX >= LabelSaturation ==> l.like == MaxOpacity
    ensures deltaX <= -LabelSaturation ==> l.nope == MaxOpacity
  {
    if deltaX > 0.0 then
      Labels(Min(deltaX / LabelSaturation, MaxOpacity), 0.0)
    else if deltaX < 0.0 then
      Labels(0.0, Min(-deltaX / LabelSaturation, MaxOpacity))
    else
      Labels(0.0, 0.0)
  }

  /** Mirroring a drag swaps the two labels. */
  lemma LabelsMirror(deltaX: real)
    ensures LabelOpacity(-deltaX) == Labels(LabelOpacity(deltaX).nope, LabelOpacity(deltaX).like)
  {
  }

  /** A label never fades while the drag moves farther in its direction. */
  lemma LabelsMonotone(d: real, e: real)
    requires 0.0 <= d <= e
    ensures LabelOpacity(d).like <= LabelOpacity(e).like
    ensures LabelOpacity(-d).nope <= LabelOpacity(-e).nope
  {
  }

  /**
   * The feedback agrees with the decision: a drag that will commit shows the
   * label of its polarity at more than 80% opacity and hides the other one;
   * a drag that will snap back shows no label at full opacity.
   */
  lemma LabelsForeshadowRelease(deltaX: real)
    ensures Classify(deltaX) == Swipe(true) ==> LabelOpacity(deltaX).like > 0.8 && LabelOpacity(deltaX).nope == 0.0
    ensures Classify(deltaX) == Swipe(false) ==> LabelOpacity(deltaX).nope > 0.8 && LabelOpacity(deltaX).like == 0.0
    ensures Classify(deltaX) == SnapBack ==> LabelOpacity(deltaX).like <= 0.8 && LabelOpacity(deltaX).nope <= 0.8
  {
  }

  /** The label scenarios: 50 px right shows LIKE at half opacity; 150 px left shows NOPE at full. */
  lemma LabelScenarios()
    ensures LabelOpacity(50.0) == Labels(0.5, 0.0)
    ensures LabelOpacity(-150.0) == Labels(0.0, 1.0)
    ensures LabelOpacity(0.0) == Labels(0.0, 0.0)
  {
  }
}
