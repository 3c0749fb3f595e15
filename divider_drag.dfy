/** The drag rule of MTSplitDividerView.TouchesMoved: a pointer move becomes a proposed split position. */
module DividerDrag {

  /** A CGPoint in the divider's coordinates. */
  datatype Point = Point(x: real, y: real)

  /** A moving touch: PreviousLocationInView and LocationInView. */
  datatype Touch = Touch(previous: Point, current: Point)

  /** The pointer's movement along the split axis: X for a vertical split, Y for a horizontal one. */
  function AxisDelta(isVertical: bool, touch: Touch): real
  {
    if isVertical then touch.current.x - touch.previous.x else touch.current.y - touch.previous.y
  }

  /** The touch moves away from the master's edge, towards the detail. */
  predicate MovesTowardDetail(isVertical: bool, masterBeforeDetail: bool, touch: Touch)
  {
    if masterBeforeDetail then AxisDelta(isVertical, touch) > 0.0 else AxisDelta(isVertical, touch) < 0.0
  }

  /** The same touch run backwards. */
  function Reversed(touch: Touch): Touch
  {
    Touch(touch.current, touch.previous)
  }

  /**
   * The split position a drag proposes. The split position measures the master
   * from its own edge, so the master grows exactly when the pointer moves towards
   * the detail, by the distance the pointer moved along the split axis.
   */
  function ProposedSplitPosition(splitPosition: real, isVertical: bool, masterBeforeDetail: bool,
                                 touch: Touch): (proposed: real)
    ensures proposed > splitPosition <==> MovesTowardDetail(isVertical, masterBeforeDetail, touch)
    ensures proposed - splitPosition == AxisDelta(isVertical, touch) || proposed - splitPosition == -AxisDelta(isVertical, touch)
  {
    var offset := AxisDelta(isVertical, touch);
    splitPosition + (if masterBeforeDetail then offset else -offset)
  }

  /** Equal pointer moves propose opposite changes when the master comes first and when it comes last. */
  lemma DragMirrorsWithMasterOrder(splitPosition: real, isVertical: bool, touch: Touch)
    ensures ProposedSplitPosition(splitPosition, isVertical, true, touch) - splitPosition
         == -(ProposedSplitPosition(splitPosition, isVertical, false, touch) - splitPosition)
  {
  }

  /** Only the split axis counts: a movement across it proposes no change. */
  lemma DragIgnoresCrossAxis(splitPosition: real, isVertical: bool, masterBeforeDetail: bool, touch: Touch)
    requires AxisDelta(isVertical, touch) == 0.0
    ensures ProposedSplitPosition(splitPosition, isVertical, masterBeforeDetail, touch) == splitPosition
  {
  }

  /** Dragging back along the same path proposes the position one started from. */
  lemma DragThereAndBack(splitPosition: real, isVertical: bool, masterBeforeDetail: bool, touch: Touch)
    ensures var there := ProposedSplitPosition(splitPosition, isVertical, masterBeforeDetail, touch);
            ProposedSplitPosition(there, isVertical, masterBeforeDetail, Reversed(touch)) == splitPosition
  {
  }
}
