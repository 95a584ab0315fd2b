/**
 * What both drag-window components share: their props, the callbacks they
 * make into the registry, and the `constrainPosition` clamp that keeps a
 * dragged window on screen (identical in src/components/layout/DragWindow.tsx
 * and src/components/layout/window/DragWindow.tsx).
 */
module DragBounds {
  import opened Options
  import opened WindowPositions

  /** Size used when the `width`/`height` props are absent. */
  const DefaultWidth: real := 500.0
  const DefaultHeight: real := 300.0

  /** Which optional callback props the host supplied. */
  datatype Handlers = Handlers(onFocus: bool, onDragStart: bool, onDragMove: bool, onDragEnd: bool)

  /** A call the component makes into its host; drag reports carry the window centre. */
  datatype Callback = OnFocus | OnDragStart | OnDragMove(centre: Point) | OnDragEnd(centre: Point)

  /** The props of a drag window that its behaviour depends on. */
  datatype WindowProps = WindowProps(
    initialX: real,
    initialY: real,
    width: Option<real>,
    height: Option<real>,
    maxY: Option<real>,
    isMinimized: bool,
    handlers: Handlers)

  /** The size props after defaulting. */
  function PropSize(p: WindowProps): Size {
    Size(if p.width.Some? then p.width.value else DefaultWidth,
         if p.height.Some? then p.height.value else DefaultHeight)
  }

  /**
   * The re-sync effect fires when one of its dependencies changes: the initial
   * position, the (defaulted) size, or the minimized flag.
   */
  predicate PropsChanged(before: WindowProps, after: WindowProps) {
    || before.initialX != after.initialX
    || before.initialY != after.initialY
    || PropSize(before) != PropSize(after)
    || before.isMinimized != after.isMinimized
  }

  /** JavaScript truthiness of the optional `maxY` prop: absent and 0 are falsy. */
  predicate HasMaxY(maxY: Option<real>) {
    maxY.Some? && maxY.value != 0.0
  }

  /** The lowest y the window's bottom edge may reach: `maxY`, or the viewport height. */
  function BottomEdge(maxY: Option<real>, innerHeight: real): real {
    if HasMaxY(maxY) then maxY.value else innerHeight
  }

  /** The largest top-left corner the clamp allows. */
  function MaxX(dims: Size, inner: Screen): real {
    inner.width - dims.width
  }

  function MaxY(dims: Size, maxY: Option<real>, inner: Screen): real {
    BottomEdge(maxY, inner.height) - dims.height
  }

  predicate InBounds(p: Point, dims: Size, maxY: Option<real>, inner: Screen) {
    && 0.0 <= p.x <= MaxX(dims, inner)
    && 0.0 <= p.y <= MaxY(dims, maxY, inner)
  }

  /**
   * `constrainPosition`: each coordinate is clamped into [0, bound]; when the
   * window is larger than the screen (bound < 0) the origin side wins.
   */
  function ConstrainPosition(p: Point, dims: Size, maxY: Option<real>, inner: Screen): (r: Point)
    ensures r.x >= 0.0 && r.y >= 0.0
    ensures MaxX(dims, inner) >= 0.0 ==> r.x <= MaxX(dims, inner)
    ensures MaxY(dims, maxY, inner) >= 0.0 ==> r.y <= MaxY(dims, maxY, inner)
    ensures InBounds(p, dims, maxY, inner) ==> r == p
    ensures p.x < 0.0 || MaxX(dims, inner) < 0.0 ==> r.x == 0.0
    ensures 0.0 <= MaxX(dims, inner) < p.x ==> r.x == MaxX(dims, inner)
    ensures p.y < 0.0 || MaxY(dims, maxY, inner) < 0.0 ==> r.y == 0.0
    ensures 0.0 <= MaxY(dims, maxY, inner) < p.y ==> r.y == MaxY(dims, maxY, inner)
  {
    Point(Max(0.0, Min(p.x, MaxX(dims, inner))),
          Max(0.0, Min(p.y, MaxY(dims, maxY, inner))))
  }

  /** Clamping twice is clamping once. */
  lemma ConstrainIdempotent(p: Point, dims: Size, maxY: Option<real>, inner: Screen)
    ensures var q := ConstrainPosition(p, dims, maxY, inner);
      ConstrainPosition(q, dims, maxY, inner) == q
  {
  }

  /** Offset from the window's top-left corner to the pointer, recorded at grab time. */
  function GrabOffset(pointer: Point, position: Point): Point {
    Point(pointer.x - position.x, pointer.y - position.y)
  }

  /** The top-left corner that keeps the recorded offset under the pointer. */
  function Follow(pointer: Point, offset: Point): Point {
    Point(pointer.x - offset.x, pointer.y - offset.y)
  }

  /** Centre of a window, the point reported to the registry during a drag. */
  function Centre(position: Point, dims: Size): Point {
    Point(position.x + dims.width / 2.0, position.y + dims.height / 2.0)
  }

  /** Grabbing an in-bounds window and releasing at the grab pointer leaves it where it was. */
  lemma GrabThenReleaseInPlace(position: Point, pointer: Point, dims: Size, maxY: Option<real>, inner: Screen)
    requires InBounds(position, dims, maxY, inner)
    ensures ConstrainPosition(Follow(pointer, GrabOffset(pointer, position)), dims, maxY, inner) == position
  {
  }

  /** Calls made when a drag starts: focus first, then drag start, each only if supplied. */
  function DragStartCalls(h: Handlers): seq<Callback> {
    (if h.onFocus then [OnFocus] else []) + (if h.onDragStart then [OnDragStart] else [])
  }

  function DragMoveCalls(h: Handlers, centre: Point): seq<Callback> {
    if h.onDragMove then [OnDragMove(centre)] else []
  }

  function DragEndCalls(h: Handlers, centre: Point): seq<Callback> {
    if h.onDragEnd then [OnDragEnd(centre)] else []
  }
}
