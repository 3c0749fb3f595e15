/**
 * The rectangle arithmetic of MTSplitViewController.LayoutSubviewsForInterfaceOrientation:
 * the container is cut along one axis into master, divider (gutter) and detail,
 * and two strips of rounded corners are placed astride the divider.
 * nfloat is modelled as real; only +, -, *2 and comparisons occur.
 */
module Geometry {

  /** A CGRect: origin and size. */
  datatype Rect = Rect(x: real, y: real, width: real, height: real)

  /** A stretch [start, start + length) of one axis. */
  datatype Span = Span(start: real, length: real) {
    function End(): real { start + length }
  }

  /** The three panes along the split axis. */
  datatype Partition = Partition(master: Span, divider: Span, detail: Span)

  datatype Frames = Frames(master: Rect, divider: Rect, detail: Rect)

  /** The leading (top or left) and trailing (bottom or right) corner strips. */
  datatype Corners = Corners(leading: Rect, trailing: Rect)

  function Columns(r: Rect): Span { Span(r.x, r.width) }

  function Rows(r: Rect): Span { Span(r.y, r.height) }

  /**
   * One axis of the layout exactly as the source computes it, with the
   * detail of a master-first split ending at `extent` (the container's size)
   * rather than at `start + extent`.
   */
  function PartitionAsWritten(start: real, extent: real, masterFirst: bool, showMaster: bool,
                              position: real, gutter: real): (p: Partition)
    ensures p.master.length == position && p.divider.length == gutter
    ensures masterFirst ==> p.master.End() == p.divider.start && p.divider.End() == p.detail.start && p.detail.End() == extent
    ensures !masterFirst ==> p == SplitPartition(start, extent, masterFirst, showMaster, position, gutter)
  {
    if masterFirst then
      var masterStart := if showMaster then start else start - (position + gutter);
      var master := Span(masterStart, position);
      var divider := Span(master.End(), gutter);
      var detail := Span(divider.End(), extent - divider.End());
      Partition(master, divider, detail)
    else
      var detailLength := (if showMaster then extent else extent + (position + gutter)) - (position + gutter);
      var detail := Span(start, detailLength);
      var divider := Span(detail.End(), gutter);
      var master := Span(divider.End(), position);
      Partition(master, divider, detail)
  }

  /**
   * One axis of the layout, the container being [start, start + extent).
   * Master first: master, divider, detail from the leading edge; a hidden
   * master and its divider are pushed out past the leading edge. Detail first:
   * detail, divider, master, the master ending at the trailing edge; a hidden
   * master and its divider are pushed out past the trailing edge. Either way a
   * hidden master leaves the whole extent to the detail.
   */
  function SplitPartition(start: real, extent: real, masterFirst: bool, showMaster: bool,
                          position: real, gutter: real): (p: Partition)
    ensures p.master.length == position && p.divider.length == gutter
    ensures masterFirst ==> p.master.End() == p.divider.start && p.divider.End() == p.detail.start
    ensures !masterFirst ==> p.detail.End() == p.divider.start && p.divider.End() == p.master.start
    ensures showMaster && masterFirst ==> p.master.start == start && p.detail.End() == start + extent
    ensures showMaster && !masterFirst ==> p.detail.start == start && p.master.End() == start + extent
    ensures !showMaster ==> p.detail == Span(start, extent)
  {
    if masterFirst then
      var masterStart := if showMaster then start else start - (position + gutter);
      var master := Span(masterStart, position);
      var divider := Span(master.End(), gutter);
      var detail := Span(divider.End(), start + extent - divider.End());
      Partition(master, divider, detail)
    else
      var detailLength := (if showMaster then extent else extent + (position + gutter)) - (position + gutter);
      var detail := Span(start, detailLength);
      var divider := Span(detail.End(), gutter);
      var master := Span(divider.End(), position);
      Partition(master, divider, detail)
  }

  /** The source's detail-first branch is already right; the master-first one agrees only at origin 0. */
  lemma PartitionAsWrittenAgreesOnlyAtOrigin(start: real, extent: real, masterFirst: bool, showMaster: bool,
                                             position: real, gutter: real)
    ensures PartitionAsWritten(start, extent, masterFirst, showMaster, position, gutter)
            == SplitPartition(start, extent, masterFirst, showMaster, position, gutter)
        <==> !masterFirst || start == 0.0
  {
    var w := PartitionAsWritten(start, extent, masterFirst, showMaster, position, gutter);
    var p := SplitPartition(start, extent, masterFirst, showMaster, position, gutter);
    if masterFirst && start != 0.0 {
      assert w.detail.End() == extent != start + extent == p.detail.End();
    }
  }

  /** A container at x = 10, 768 wide: the as-written detail stops at 768, ten short of the edge at 778. */
  lemma PartitionAsWrittenFallsShort()
    ensures PartitionAsWritten(10.0, 768.0, true, true, 320.0, 1.0).detail == Span(331.0, 437.0)
    ensures SplitPartition(10.0, 768.0, true, true, 320.0, 1.0).detail == Span(331.0, 447.0)
  {
  }

  /**
   * The master, divider and detail frames inside `container`: a vertical split
   * cuts the columns and leaves every pane the container's full height, a
   * horizontal split cuts the rows and leaves every pane its full width.
   */
  function SplitFrames(container: Rect, isVertical: bool, masterFirst: bool, showMaster: bool,
                       position: real, gutter: real): (f: Frames)
    ensures isVertical ==>
      Rows(f.master) == Rows(container) && Rows(f.divider) == Rows(container) && Rows(f.detail) == Rows(container) &&
      Partition(Columns(f.master), Columns(f.divider), Columns(f.detail))
        == SplitPartition(container.x, container.width, masterFirst, showMaster, position, gutter)
    ensures !isVertical ==>
      Columns(f.master) == Columns(container) && Columns(f.divider) == Columns(container) && Columns(f.detail) == Columns(container) &&
      Partition(Rows(f.master), Rows(f.divider), Rows(f.detail))
        == SplitPartition(container.y, container.height, masterFirst, showMaster, position, gutter)
    ensures showMaster && isVertical ==> f.master.width + f.divider.width + f.detail.width == container.width
    ensures showMaster && !isVertical ==> f.master.height + f.divider.height + f.detail.height == container.height
  {
    if isVertical then
      var p := SplitPartition(container.x, container.width, masterFirst, showMaster, position, gutter);
      Frames(Rect(p.master.start, container.y, p.master.length, container.height),
             Rect(p.divider.start, container.y, p.divider.length, container.height),
             Rect(p.detail.start, container.y, p.detail.length, container.height))
    else
      var p := SplitPartition(container.y, container.height, masterFirst, showMaster, position, gutter);
      Frames(Rect(container.x, p.master.start, container.width, p.master.length),
             Rect(container.x, p.divider.start, container.width, p.divider.length),
             Rect(container.x, p.detail.start, container.width, p.detail.length))
  }

  /**
   * The corner strips exactly as the source places them: the container's top
   * is added on the vertical axis, its left edge is never added.
   */
  function CornersAsWritten(container: Rect, isVertical: bool, masterFirst: bool, showMaster: bool,
                            position: real, gutter: real, radius: real): (c: Corners)
    ensures isVertical ==>
      c.leading.x == c.trailing.x &&
      c.leading.x == (if showMaster then (if masterFirst then position else container.width - (position + gutter))
                      else 0.0 - gutter) - radius
    ensures !isVertical ==> c.leading.x == 0.0 && c.trailing.x == container.width - radius
  {
    if isVertical then
      var cornersWidth := radius * 2.0 + gutter;
      var cornersHeight := radius;
      var x := (if showMaster then (if masterFirst then position else container.width - (position + gutter))
                else 0.0 - gutter) - radius;
      Corners(Rect(x, container.y, cornersWidth, cornersHeight),
              Rect(x, (container.height - cornersHeight) + container.y, cornersWidth, cornersHeight))
    else
      var y := (if showMaster then (if masterFirst then position else container.height - (position + gutter))
                else 0.0 - gutter) - radius + container.y;
      var cornersWidth := radius;
      var cornersHeight := radius * 2.0 + gutter;
      Corners(Rect(0.0, y, cornersWidth, cornersHeight),
              Rect(container.width - cornersWidth, y, cornersWidth, cornersHeight))
  }

  /**
   * The corner strips, measured from the container's origin on both axes.
   * Each strip is the divider widened by `radius` on both sides and `radius`
   * deep, one at each end of the divider; with the master hidden they sit
   * astride a gutter that ends at the container's leading edge.
   */
  function CornerFrames(container: Rect, isVertical: bool, masterFirst: bool, showMaster: bool,
                        position: real, gutter: real, radius: real): (c: Corners)
    ensures isVertical ==>
      c.leading.x == c.trailing.x && c.leading.width == c.trailing.width == gutter + 2.0 * radius &&
      c.leading.height == c.trailing.height == radius &&
      c.leading.y == container.y && c.trailing.y + c.trailing.height == container.y + container.height
    ensures !isVertical ==>
      c.leading.y == c.trailing.y && c.leading.height == c.trailing.height == gutter + 2.0 * radius &&
      c.leading.width == c.trailing.width == radius &&
      c.leading.x == container.x && c.trailing.x + c.trailing.width == container.x + container.width
    ensures showMaster ==>
      var d := SplitFrames(container, isVertical, masterFirst, showMaster, position, gutter).divider;
      if isVertical then c.leading.x == d.x - radius else c.leading.y == d.y - radius
    ensures !showMaster ==>
      if isVertical then c.leading.x + radius + gutter == container.x
      else c.leading.y + radius + gutter == container.y
  {
    if isVertical then
      var cornersWidth := radius * 2.0 + gutter;
      var cornersHeight := radius;
      var x := (if showMaster then (if masterFirst then position else container.width - (position + gutter))
                else 0.0 - gutter) - radius + container.x;
      Corners(Rect(x, container.y, cornersWidth, cornersHeight),
              Rect(x, (container.height - cornersHeight) + container.y, cornersWidth, cornersHeight))
    else
      var y := (if showMaster then (if masterFirst then position else container.height - (position + gutter))
                else 0.0 - gutter) - radius + container.y;
      var cornersWidth := radius;
      var cornersHeight := radius * 2.0 + gutter;
      Corners(Rect(container.x, y, cornersWidth, cornersHeight),
              Rect(container.x + container.width - cornersWidth, y, cornersWidth, cornersHeight))
  }

  /** The source's corners coincide with the origin-aware ones exactly when the container's left edge is 0. */
  lemma CornersAsWrittenAgreeOnlyAtLeftEdgeZero(container: Rect, isVertical: bool, masterFirst: bool,
                                                showMaster: bool, position: real, gutter: real, radius: real)
    ensures CornersAsWritten(container, isVertical, masterFirst, showMaster, position, gutter, radius)
            == CornerFrames(container, isVertical, masterFirst, showMaster, position, gutter, radius)
        <==> container.x == 0.0
  {
    var w := CornersAsWritten(container, isVertical, masterFirst, showMaster, position, gutter, radius);
    var c := CornerFrames(container, isVertical, masterFirst, showMaster, position, gutter, radius);
    if container.x != 0.0 {
      assert w.leading.x != c.leading.x;
    }
  }

  /** A vertical split in a container at x = 10: the divider starts at 330 but the as-written corners are centred on 320. */
  lemma CornersAsWrittenMissDivider()
    ensures var container := Rect(10.0, 0.0, 768.0, 1024.0);
            var d := SplitFrames(container, true, true, true, 320.0, 1.0).divider;
            var w := CornersAsWritten(container, true, true, true, 320.0, 1.0, 5.0);
            d.x == 330.0 && w.leading.x + 5.0 == 320.0
  {
  }
}
