/**
 * The drag-only window component (src/components/layout/window/DragWindow.tsx),
 * the one the page renders. It follows the pointer while its title bar is held
 * and reports the window centre to its host; its size changes only when its
 * props change. Mouse and touch events carry the same arithmetic and are
 * modelled as one abstract pointer event; the viewport size is passed in.
 */
module DragWindow {
  import opened Options
  import opened WindowPositions
  import opened DragBounds

  class Controller {
    var props: WindowProps
    var position: Point
    var dimensions: Size
    var isDragging: bool
    /** `dragOffsetRef`: pointer minus top-left corner at the last grab. */
    var dragOffset: Point

    /** Mount: state starts from the props, not dragging. */
    constructor (p: WindowProps)
      ensures props == p
      ensures position == Point(p.initialX, p.initialY) && dimensions == PropSize(p)
      ensures !isDragging && dragOffset == Point(0.0, 0.0)
    {
      props := p;
      position := Point(p.initialX, p.initialY);
      dimensions := PropSize(p);
      isDragging := false;
      dragOffset := Point(0.0, 0.0);
    }

    /**
     * Re-render with new props: when position, size or minimized flag changed,
     * the effect resets position and dimensions to the props.
     */
    method Rerender(p: WindowProps)
      modifies this
      ensures props == p
      ensures isDragging == old(isDragging) && dragOffset == old(dragOffset)
      ensures PropsChanged(old(props), p) ==>
        position == Point(p.initialX, p.initialY) && dimensions == PropSize(p)
      ensures !PropsChanged(old(props), p) ==>
        position == old(position) && dimensions == old(dimensions)
    {
      var changed := PropsChanged(props, p);
      props := p;
      if changed {
        position := Point(p.initialX, p.initialY);
        dimensions := PropSize(p);
      }
    }

    /**
     * Pointer press. On the title bar it records the grab offset, starts a
     * drag and calls onFocus, then onDragStart; anywhere else it does nothing.
     */
    method Press(onTitleBar: bool, pointer: Point) returns (calls: seq<Callback>)
      modifies this
      ensures props == old(props) && position == old(position) && dimensions == old(dimensions)
      ensures onTitleBar ==>
        isDragging && dragOffset == GrabOffset(pointer, position) && calls == DragStartCalls(props.handlers)
      ensures !onTitleBar ==>
        isDragging == old(isDragging) && dragOffset == old(dragOffset) && calls == []
    {
      calls := [];
      if onTitleBar {
        dragOffset := GrabOffset(pointer, position);
        isDragging := true;
        if props.handlers.onFocus {
          calls := calls + [OnFocus];
        }
        if props.handlers.onDragStart {
          calls := calls + [OnDragStart];
        }
      }
    }

    /**
     * Pointer move. While dragging, the window follows the pointer inside the
     * clamp and its centre is reported; otherwise no listener is attached.
     */
    method Move(pointer: Point, inner: Screen) returns (calls: seq<Callback>)
      modifies this
      ensures props == old(props) && dimensions == old(dimensions)
      ensures isDragging == old(isDragging) && dragOffset == old(dragOffset)
      ensures old(isDragging) ==>
        && position == ConstrainPosition(Follow(pointer, dragOffset), dimensions, props.maxY, inner)
        && calls == DragMoveCalls(props.handlers, Centre(position, dimensions))
      ensures !old(isDragging) ==> position == old(position) && calls == []
    {
      calls := [];
      if isDragging {
        position := ConstrainPosition(Follow(pointer, dragOffset), dimensions, props.maxY, inner);
        if props.handlers.onDragMove {
          calls := [OnDragMove(Centre(position, dimensions))];
        }
      }
    }

    /**
     * Pointer release. A drag in progress commits its clamped position and
     * reports the centre to onDragEnd; the component is idle afterwards.
     */
    method Release(pointer: Point, inner: Screen) returns (calls: seq<Callback>)
      modifies this
      ensures props == old(props) && dimensions == old(dimensions) && dragOffset == old(dragOffset)
      ensures !isDragging
      ensures old(isDragging) ==>
        && position == ConstrainPosition(Follow(pointer, dragOffset), dimensions, props.maxY, inner)
        && calls == DragEndCalls(props.handlers, Centre(position, dimensions))
      ensures !old(isDragging) ==> position == old(position) && calls == []
    {
      calls := [];
      if isDragging {
        position := ConstrainPosition(Follow(pointer, dragOffset), dimensions, props.maxY, inner);
        if props.handlers.onDragEnd {
          calls := [OnDragEnd(Centre(position, dimensions))];
        }
      }
      isDragging := false;
    }
  }

  /**
   * A click on the title bar of an in-bounds window (press and release at the
   * same pointer) leaves it where it was and reports its own centre.
   */
  method ClickTitleBar(c: Controller, pointer: Point, inner: Screen) returns (calls: seq<Callback>)
    requires InBounds(c.position, c.dimensions, c.props.maxY, inner)
    modifies c
    ensures c.position == old(c.position) && c.dimensions == old(c.dimensions) && !c.isDragging
    ensures calls == DragStartCalls(c.props.handlers) + DragEndCalls(c.props.handlers, Centre(c.position, c.dimensions))
  {
    var started := c.Press(true, pointer);
    GrabThenReleaseInPlace(c.position, pointer, c.dimensions, c.props.maxY, inner);
    var ended := c.Release(pointer, inner);
    calls := started + ended;
  }
}
