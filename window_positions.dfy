/**
 * Geometry policy of the window manager: where a window is placed by default,
 * and where a minimized window sits in the dock column
 * (src/utils/windowPositions.ts; Main.tsx carries an identical inline copy).
 * All lengths are CSS pixels, modelled exactly as rationals.
 */
module WindowPositions {

  /** Height of the navigation dock at the bottom of the screen. */
  const NavHeight: real := 80.0
  const MinimizedWidth: real := 200.0
  const MinimizedHeight: real := 60.0
  const MinimizedMargin: real := 10.0
  /** Every default placement is pushed down by this much. */
  const VerticalOffset: real := 120.0
  /** Gap kept between a window and the screen edges. */
  const Margin: real := 20.0
  /** Screens narrower than this stack their windows in one centred column. */
  const NarrowBreakpoint: real := 768.0
  /** Vertical step between stacked windows on a narrow screen. */
  const NarrowStep: real := 80.0

  datatype Screen = Screen(width: real, height: real)
  datatype Point = Point(x: real, y: real)
  datatype Size = Size(width: real, height: real)
  datatype Rect = Rect(x: real, y: real, width: real, height: real)

  /** Math.min on two numbers. */
  function Min(a: real, b: real): (r: real)
    ensures r <= a && r <= b && (r == a || r == b)
  {
    if a <= b then a else b
  }

  /** Math.max on two numbers. */
  function Max(a: real, b: real): (r: real)
    ensures r >= a && r >= b && (r == a || r == b)
  {
    if a >= b then a else b
  }

  /** Height left above the dock. */
  function AvailableHeight(screen: Screen): real {
    screen.height - NavHeight
  }

  /**
   * The hand-tuned centre of each window on a wide screen: 1 in the middle,
   * 2 top-left, 3 top-right, 4 bottom-left, 5 bottom-right; any other id
   * keeps the origin as its centre.
   */
  function Anchor(id: int, screen: Screen): Point {
    var availableHeight := AvailableHeight(screen);
    if id == 1 then Point(screen.width / 2.0, availableHeight / 2.0 + VerticalOffset)
    else if id == 2 then Point(Margin + 250.0, Margin + 175.0 + VerticalOffset)
    else if id == 3 then Point(screen.width - Margin - 250.0, Margin + 175.0 + VerticalOffset)
    else if id == 4 then Point(Margin + 300.0, availableHeight - 310.0 - Margin + VerticalOffset)
    else if id == 5 then Point(screen.width - Margin - 200.0, availableHeight - 230.0 - Margin + VerticalOffset)
    else Point(0.0, 0.0)
  }

  predicate IsNarrow(screen: Screen) {
    screen.width < NarrowBreakpoint
  }

  /**
   * Default rectangle of window `id` with size windowW x windowH.
   * Narrow screens: the width is cut to the screen minus 40, the window is
   * centred horizontally and stacked by id, but never lower than the
   * dock-and-margin bound. Wide screens: the window keeps its size and sits at
   * its anchor, clamped into the margin box above the dock; the top/left margin
   * wins when the window does not fit.
   */
  function InitialPosition(id: int, windowW: real, windowH: real, screen: Screen): (r: Rect)
    ensures IsNarrow(screen) ==>
      && r.width <= windowW
      && r.width <= screen.width - 40.0
      && (r.width == windowW || r.width == screen.width - 40.0)
      && r.height == windowH
      && 2.0 * r.x + r.width == screen.width
      && r.y <= Margin + (id - 1) as real * NarrowStep + VerticalOffset
      && r.y <= AvailableHeight(screen) - windowH - Margin
      && (r.y == Margin + (id - 1) as real * NarrowStep + VerticalOffset
          || r.y == AvailableHeight(screen) - windowH - Margin)
    ensures !IsNarrow(screen) ==>
      && r.width == windowW
      && r.height == windowH
      && r.x >= Margin
      && r.y >= Margin
      && (screen.width - windowW - Margin >= Margin ==>
            r.x + windowW <= screen.width - Margin)
      && (AvailableHeight(screen) - windowH - Margin >= Margin ==>
            r.y + windowH <= AvailableHeight(screen) - Margin)
  {
    var availableHeight := AvailableHeight(screen);
    if IsNarrow(screen) then
      var safeWidth := Min(windowW, screen.width - 40.0);
      Rect((screen.width - safeWidth) / 2.0,
           Min(Margin + (id - 1) as real * NarrowStep + VerticalOffset, availableHeight - windowH - Margin),
           safeWidth,
           windowH)
    else
      var centre := Anchor(id, screen);
      Rect(Max(Margin, Min(centre.x - windowW / 2.0, screen.width - windowW - Margin)),
           Max(Margin, Min(centre.y - windowH / 2.0, availableHeight - windowH - Margin)),
           windowW,
           windowH)
  }

  /**
   * On a wide screen, when the clamp does not bind, the window is centred on
   * its anchor.
   */
  lemma AnchorHonoured(id: int, windowW: real, windowH: real, screen: Screen)
    requires !IsNarrow(screen)
    requires Margin <= Anchor(id, screen).x - windowW / 2.0 <= screen.width - windowW - Margin
    requires Margin <= Anchor(id, screen).y - windowH / 2.0 <= AvailableHeight(screen) - windowH - Margin
    ensures InitialPosition(id, windowW, windowH, screen).x + windowW / 2.0 == Anchor(id, screen).x
    ensures InitialPosition(id, windowW, windowH, screen).y + windowH / 2.0 == Anchor(id, screen).y
  {
  }

  /**
   * A window wider than the margin box is not contained: the left margin wins
   * and the right edge overflows (an 800 px screen and a 900 px window).
   */
  lemma OversizedWindowOverflows()
    ensures var r := InitialPosition(1, 900.0, 400.0, Screen(800.0, 800.0));
      r.x == Margin && r.x + r.width > 800.0 - Margin
  {
  }

  /**
   * Dock slot of the minimized window at position `index` of the window list:
   * a 200 x 60 box at x = 10, 150 px below the top plus 70 px per index.
   */
  function MinimizedPosition(index: nat): (r: Rect)
    ensures r.x == 10.0 && r.width == 200.0 && r.height == 60.0
    ensures r.y == 150.0 + 70.0 * index as real
  {
    Rect(MinimizedMargin,
         NavHeight + 60.0 + MinimizedMargin + index as real * (MinimizedHeight + MinimizedMargin),
         MinimizedWidth,
         MinimizedHeight)
  }

  /**
   * Dock slots are strictly ordered by index and never overlap: a later slot
   * starts at least one 10 px gap below the end of an earlier one.
   */
  lemma MinimizedSlotsDisjoint(i: nat, j: nat)
    requires i < j
    ensures MinimizedPosition(i).y + MinimizedPosition(i).height + MinimizedMargin <= MinimizedPosition(j).y
  {
  }
}
