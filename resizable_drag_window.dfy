/**
 * The drag-and-resize window component (src/components/layout/DragWindow.tsx).
 * Besides dragging by the title bar it has a bottom-right resize handle
 * (shown only when not minimized): the size follows the pointer delta, floored
 * at the minimum size and capped so the window never passes the right screen
 * edge or the bottom bound from its current corner. The two gesture flags of
 * the component are an explicit Idle/Dragging/Resizing mode here.
 */
module ResizableDragWindow {
  import opened Options
  import opened WindowPositions
  import opened DragBounds

  /** Floors used when the `minWidth`/`minHeight` props are absent. */
  const DefaultMinWidth: real := 300.0
  const DefaultMinHeight: real := 200.0

  datatype Mode = Idle | Dragging | Resizing

  /** Where a press lands: the title bar, the resize handle, or elsewhere in the window. */
  datatype PressTarget = TitleBar | ResizeHandle | Body

  /** `resizeStartRef`: pointer and size when the resize began. */
  datatype ResizeStart = ResizeStart(pointer: Point, size: Size)

  datatype ResizableProps = ResizableProps(window: WindowProps, minWidth: Option<real>, minHeight: Option<real>)

  function MinSize(p: ResizableProps): Size {
    Size(if p.minWidth.Some? then p.minWidth.value else DefaultMinWidth,
         if p.minHeight.Some? then p.minHeight.value else DefaultMinHeight)
  }

  /** The largest size that keeps the window's far edges on screen from corner `position`. */
  function SizeCap(position: Point, maxY: Option<real>, inner: Screen): Size {
    Size(inner.width - position.x, BottomEdge(maxY, inner.height) - position.y)
  }

  /**
   * Size while resizing: start size plus pointer delta, floored at the
   * minimum, then capped (the cap wins over the floor).
   */
  function ResizedSize(start: ResizeStart, pointer: Point, minSize: Size, position: Point,
                       maxY: Option<real>, inner: Screen): (r: Size)
    ensures var cap := SizeCap(position, maxY, inner);
      && r.width <= cap.width
      && r.height <= cap.height
      && (minSize.width <= cap.width ==> r.width >= minSize.width)
      && (minSize.height <= cap.height ==> r.height >= minSize.height)
    ensures var cap := SizeCap(position, maxY, inner);
      var w := start.size.width + (pointer.x - start.pointer.x);
      var h := start.size.height + (pointer.y - start.pointer.y);
      && (minSize.width <= w <= cap.width ==> r.width == w)
      && (minSize.height <= h <= cap.height ==> r.height == h)
      && (w < minSize.width <= cap.width ==> r.width == minSize.width)
      && (h < minSize.height <= cap.height ==> r.height == minSize.height)
    ensures var cap := SizeCap(position, maxY, inner);
      var w := start.size.width + (pointer.x - start.pointer.x);
      var h := start.size.height + (pointer.y - start.pointer.y);
      && (w > cap.width || minSize.width > cap.width ==> r.width == cap.width)
      && (h > cap.height || minSize.height > cap.height ==> r.height == cap.height)
  {
    var deltaX := pointer.x - start.pointer.x;
    var deltaY := pointer.y - start.pointer.y;
    var newWidth := Max(minSize.width, start.size.width + deltaX);
    var newHeight := Max(minSize.height, start.size.height + deltaY);
    var cap := SizeCap(position, maxY, inner);
    Size(Min(newWidth, cap.width), Min(newHeight, cap.height))
  }

  /**
   * Shrinking a window that is already at the default floor (300 x 200) by
   * (-50, -50) leaves it at 300 x 200.
   */
  lemma ResizeBelowFloorScenario(position: Point, maxY: Option<real>, inner: Screen)
    requires 300.0 <= inner.width - position.x
    requires 200.0 <= BottomEdge(maxY, inner.height) - position.y
    ensures ResizedSize(ResizeStart(Point(400.0, 400.0), Size(300.0, 200.0)), Point(350.0, 350.0),
                        Size(DefaultMinWidth, DefaultMinHeight), position, maxY, inner)
         == Size(300.0, 200.0)
  {
  }

  /**
   * The cap wins over the floor: a 300 x 200 window whose corner is at
   * (900, 0) on a 1000 x 800 viewport is cut to 100 px wide on the first
   * resize move, below its 300 px minimum.
   */
  lemma CapBeatsFloorScenario()
    ensures var r := ResizedSize(ResizeStart(Point(1200.0, 200.0), Size(300.0, 200.0)), Point(1200.0, 200.0),
                                 Size(DefaultMinWidth, DefaultMinHeight), Point(900.0, 0.0), None,
                                 Screen(1000.0, 800.0));
      r == Size(100.0, 200.0) && r.width < DefaultMinWidth
  {
  }

  class Controller {
    var props: ResizableProps
    var position: Point
    var dimensions: Size
    var mode: Mode
    /** `dragOffsetRef`: pointer minus top-left corner at the last grab. */
    var dragOffset: Point
    /** `resizeStartRef`. */
    var resizeStart: ResizeStart

    /** The resize handle is rendered only while the window is not minimized. */
    predicate HasResizeHandle()
      reads this
    {
      !props.window.isMinimized
    }

    constructor (p: ResizableProps)
      ensures props == p
      ensures position == Point(p.window.initialX, p.window.initialY) && dimensions == PropSize(p.window)
      ensures mode == Idle
      ensures dragOffset == Point(0.0, 0.0) && resizeStart == ResizeStart(Point(0.0, 0.0), Size(0.0, 0.0))
    {
      props := p;
      position := Point(p.window.initialX, p.window.initialY);
      dimensions := PropSize(p.window);
      mode := Idle;
      dragOffset := Point(0.0, 0.0);
      resizeStart := ResizeStart(Point(0.0, 0.0), Size(0.0, 0.0));
    }

    /** Re-render with new props; position and size reset when their props change. */
    method Rerender(p: ResizableProps)
      modifies this
      ensures props == p
      ensures mode == old(mode) && dragOffset == old(dragOffset) && resizeStart == old(resizeStart)
      ensures PropsChanged(old(props).window, p.window) ==>
        position == Point(p.window.initialX, p.window.initialY) && dimensions == PropSize(p.window)
      ensures !PropsChanged(old(props).window, p.window) ==>
        position == old(position) && dimensions == old(dimensions)
    {
      var changed := PropsChanged(props.window, p.window);
      props := p;
      if changed {
        position := Point(p.window.initialX, p.window.initialY);
        dimensions := PropSize(p.window);
      }
    }

    /**
     * Pointer press. On the title bar: record the grab offset, start dragging,
     * call onFocus then onDragStart. On a shown resize handle: record pointer
     * and size, start resizing, call onFocus. Elsewhere: nothing.
     */
    method Press(target: PressTarget, pointer: Point) returns (calls: seq<Callback>)
      requires target == TitleBar ==> mode != Resizing
      requires target == ResizeHandle && HasResizeHandle() ==> mode != Dragging
      modifies this
      ensures props == old(props) && position == old(position) && dimensions == old(dimensions)
      ensures target == TitleBar ==>
        && mode == Dragging && dragOffset == GrabOffset(pointer, position)
        && resizeStart == old(resizeStart)
        && calls == DragStartCalls(props.window.handlers)
      ensures target == ResizeHandle && HasResizeHandle() ==>
        && mode == Resizing && resizeStart == ResizeStart(pointer, dimensions)
        && dragOffset == old(dragOffset)
        && calls == (if props.window.handlers.onFocus then [OnFocus] else [])
      ensures target == Body || (target == ResizeHandle && !HasResizeHandle()) ==>
        && mode == old(mode) && dragOffset == old(dragOffset) && resizeStart == old(resizeStart)
        && calls == []
    {
      calls := [];
      if target == TitleBar {
        dragOffset := GrabOffset(pointer, position);
        mode := Dragging;
        calls := DragStartCalls(props.window.handlers);
      } else if target == ResizeHandle && HasResizeHandle() {
        mode := Resizing;
        resizeStart := ResizeStart(pointer, dimensions);
        if props.window.handlers.onFocus {
          calls := [OnFocus];
        }
      }
    }

    /**
     * Pointer move. Dragging changes only the position (clamped) and reports
     * the centre; resizing changes only the size; idle ignores the pointer.
     */
    method Move(pointer: Point, inner: Screen) returns (calls: seq<Callback>)
      modifies this
      ensures props == old(props) && mode == old(mode)
      ensures dragOffset == old(dragOffset) && resizeStart == old(resizeStart)
      ensures old(mode) == Dragging ==>
        && dimensions == old(dimensions)
        && position == ConstrainPosition(Follow(pointer, dragOffset), dimensions, props.window.maxY, inner)
        && calls == DragMoveCalls(props.window.handlers, Centre(position, dimensions))
      ensures old(mode) == Resizing ==>
        && position == old(position)
        && dimensions == ResizedSize(resizeStart, pointer, MinSize(props), position, props.window.maxY, inner)
        && calls == []
      ensures old(mode) == Idle ==>
        position == old(position) && dimensions == old(dimensions) && calls == []
    {
      calls := [];
      match mode
      case Dragging =>
        position := ConstrainPosition(Follow(pointer, dragOffset), dimensions, props.window.maxY, inner);
        calls := DragMoveCalls(props.window.handlers, Centre(position, dimensions));
      case Resizing =>
        dimensions := ResizedSize(resizeStart, pointer, MinSize(props), position, props.window.maxY, inner);
      case Idle =>
    }

    /**
     * Pointer release. A drag commits its clamped position and reports the
     * centre to onDragEnd; a resize keeps the last size. Both end idle.
     */
    method Release(pointer: Point, inner: Screen) returns (calls: seq<Callback>)
      modifies this
      ensures props == old(props) && dimensions == old(dimensions)
      ensures dragOffset == old(dragOffset) && resizeStart == old(resizeStart)
      ensures mode == Idle
      ensures old(mode) == Dragging ==>
        && position == ConstrainPosition(Follow(pointer, dragOffset), dimensions, props.window.maxY, inner)
        && calls == DragEndCalls(props.window.handlers, Centre(position, dimensions))
      ensures old(mode) != Dragging ==> position == old(position) && calls == []
    {
      calls := [];
      if mode == Dragging {
        position := ConstrainPosition(Follow(pointer, dragOffset), dimensions, props.window.maxY, inner);
        calls := DragEndCalls(props.window.handlers, Centre(position, dimensions));
      }
      mode := Idle;
    }
  }

  /**
   * A full resize gesture (press on the handle, one move, release) leaves the
   * position alone and ends with a size inside the cap, at or above the floor
   * whenever the cap allows it.
   */
  method ResizeGesture(c: Controller, from: Point, to: Point, inner: Screen)
    requires c.mode == Idle && c.HasResizeHandle()
    modifies c
    ensures c.mode == Idle && c.position == old(c.position) && c.props == old(c.props)
    ensures var cap := SizeCap(c.position, c.props.window.maxY, inner);
      && c.dimensions.width <= cap.width
      && c.dimensions.height <= cap.height
      && (MinSize(c.props).width <= cap.width ==> c.dimensions.width >= MinSize(c.props).width)
      && (MinSize(c.props).height <= cap.height ==> c.dimensions.height >= MinSize(c.props).height)
  {
    var _ := c.Press(ResizeHandle, from);
    var _ := c.Move(to, inner);
    var _ := c.Release(to, inner);
  }
}
