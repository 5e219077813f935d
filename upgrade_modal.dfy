/** The upgrade showcase modal: its layout thresholds and sizes as integer functions of
    the viewport, the step reset when it opens and the arrow-key binding. */
module UpgradeModal {

  /** `width < 900` */
  predicate VerticalMode(width: int) {
    width < 900
  }

  /** `width < 500 || height < 400` */
  predicate CompactMode(width: int, height: int) {
    width < 500 || height < 400
  }

  /** A viewport narrow enough to be compact by width is also vertical. */
  lemma CompactByWidthIsVertical(width: int, height: int)
    requires width < 500
    ensures CompactMode(width, height) && VerticalMode(width)
  {
  }

  function Min(a: int, b: int): int { if a <= b then a else b }
  function Max(a: int, b: int): int { if a >= b then a else b }

  /** `Math.min(1055, width - 40)` */
  function ModalWidth(width: int): (w: int)
    ensures w <= 1055 && w <= width - 40
    ensures w == 1055 || w == width - 40
  {
    Min(1055, width - 40)
  }

  /** The width leaves a 20px margin on each side up to 1095px, and is 1055 beyond. */
  lemma ModalWidthCases(width: int)
    ensures width <= 1095 ==> ModalWidth(width) == width - 40
    ensures width >= 1095 ==> ModalWidth(width) == 1055
  {
  }

  /** The content height: `height - 40` in vertical mode, otherwise
      `Math.max(500, Math.min(620, height - 40))`. */
  function ContentHeight(width: int, height: int): (h: int)
    ensures VerticalMode(width) ==> h == height - 40
    ensures !VerticalMode(width) ==> 500 <= h <= 620
    ensures !VerticalMode(width) && 540 <= height <= 660 ==> h == height - 40
  {
    if VerticalMode(width) then height - 40 else Max(500, Min(620, height - 40))
  }

  /** Outside vertical mode the height grows with the viewport and never shrinks. */
  lemma ContentHeightMonotone(width: int, h1: int, h2: int)
    requires h1 <= h2
    ensures ContentHeight(width, h1) <= ContentHeight(width, h2)
  {
  }

  /** The step after the `visible` effect runs: reset to 0 when the modal is visible. */
  function StepAfterEffect(visible: bool, step: nat): (s: nat)
    ensures visible ==> s == 0
    ensures !visible ==> s == step
  {
    if visible then 0 else step
  }

  /** What `useArrows` receives: the step handlers while visible, none otherwise. */
  datatype ArrowHandlers = ArrowHandlers(onLeft: bool, onRight: bool)

  function Arrows(visible: bool): (h: ArrowHandlers)
    ensures h.onLeft <==> visible
    ensures h.onRight <==> visible
  {
    if visible then ArrowHandlers(true, true) else ArrowHandlers(false, false)
  }
}
