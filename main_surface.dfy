/**
 * The page component (src/components/common/main/Main.tsx): the copy of the
 * registry the page actually runs, and the per-window layout it renders.
 * Its drag handlers differ from the hook's: a move outside dock mode changes
 * nothing, a move of a non-minimized window hides the hint, and every release
 * clears both the hint and the dragged window.
 */
module MainSurface {
  import opened Options
  import opened WindowPositions
  import opened WindowRegistry
  import DragBounds

  /**
   * `handleDragMove`: in dock mode the window becomes the dragged one, and the
   * hint is shown exactly when that window is docked and its centre (x, y)
   * is within 800 px of the screen centre. Outside dock mode nothing changes.
   */
  function DragMoved(s: Registry, id: int, x: real, y: real): (r: Registry)
    ensures !s.globalMinimized ==> r == s
    ensures s.globalMinimized ==>
      && r.draggedWindowId == Some(id)
      && (r.showExpandHint <==> IsMinimizedWindow(s.windows, id) && Within(x, y, s.screenSize, HintRadius))
    ensures r.(draggedWindowId := s.draggedWindowId, showExpandHint := s.showExpandHint) == s
  {
    FoundMinimized(s.windows, id);
    if s.globalMinimized then
      var draggedWindow := FindWindow(s.windows, id);
      if draggedWindow.Some? && draggedWindow.value.isMinimized then
        s.(draggedWindowId := Some(id), showExpandHint := Within(x, y, s.screenSize, HintRadius))
      else
        s.(draggedWindowId := Some(id), showExpandHint := false)
    else
      s
  }

  /**
   * `handleDragEnd`: restores the window only in dock mode, with the hint
   * shown, dropped within 400 px of the centre; on every path the hint and
   * the dragged window are cleared.
   */
  function DragEnded(s: Registry, id: int, x: real, y: real): (r: Registry)
    ensures r.draggedWindowId == None && !r.showExpandHint
    ensures r.windows == if RestoreTriggered(s, x, y) then RestoreWindows(s.windows, id) else s.windows
    ensures r.(windows := s.windows, draggedWindowId := s.draggedWindowId, showExpandHint := s.showExpandHint) == s
  {
    var s1 := s.(draggedWindowId := None);
    var s2 := if s.globalMinimized && s.showExpandHint && Within(x, y, s.screenSize, RestoreRadius)
              then s1.(windows := RestoreWindows(s1.windows, id)) else s1;
    s2.(showExpandHint := false)
  }

  /** One handler call of the page. */
  function Step(s: Registry, e: Event): Registry {
    match e
    case Toggle(id) => s.ToggleWindow(id)
    case Close(id) => s.CloseWindow(id)
    case Focus(id) => s.HandleWindowFocus(id)
    case MinimizeAll => s.ToggleMinimizeAll()
    case DragMove(id, x, y) => DragMoved(s, id, x, y)
    case DragEnd(id, x, y) => DragEnded(s, id, x, y)
    case ScreenResize(screen) => s.HandleResize(screen)
  }

  /** The hint is never up without a dragged window to size it from. */
  predicate HintHasTarget(s: Registry) {
    s.showExpandHint ==> s.draggedWindowId.Some?
  }

  predicate SurfaceValid(s: Registry) {
    Valid(s) && HintHasTarget(s)
  }

  lemma StepPreservesValid(s: Registry, e: Event)
    requires SurfaceValid(s)
    ensures SurfaceValid(Step(s, e))
  {
    match e
    case DragEnd(id, x, y) =>
      if RestoreTriggered(s, x, y) {
        RestorePreservesValid(s, id, DragEnded(s, id, x, y));
      }
    case DragMove(id, x, y) =>
    case Toggle(id) => SharedOpsPreserveValid(s, id, s.screenSize);
    case Close(id) => SharedOpsPreserveValid(s, id, s.screenSize);
    case Focus(id) => SharedOpsPreserveValid(s, id, s.screenSize);
    case MinimizeAll => SharedOpsPreserveValid(s, 0, s.screenSize);
    case ScreenResize(screen) => SharedOpsPreserveValid(s, 0, screen);
  }

  /**
   * Every registry the page can reach keeps the manifest's windows in
   * manifest order, no z-index above the maximum, no two windows at the same
   * z-index, no minimized window outside dock mode, and never shows the hint
   * without a dragged window.
   */
  lemma ReachableValid(screen: Screen, events: seq<Event>)
    ensures SurfaceValid(Run(Step, InitialRegistry(screen), events))
  {
    forall t: Registry, e: Event | SurfaceValid(t) ensures SurfaceValid(Step(t, e)) {
      StepPreservesValid(t, e);
    }
    InitialValid(screen);
    RunPreserves(Step, SurfaceValid, InitialRegistry(screen), events);
  }

  /**
   * In every reachable registry at most one shown window is drawn on top:
   * two windows that are each top of the shown ones are the same window.
   */
  lemma ReachableTopUnique(screen: Screen, events: seq<Event>)
    ensures var s := Run(Step, InitialRegistry(screen), events);
      forall i, j :: IsTop(s.windows, i) && IsTop(s.windows, j) ==> i == j
  {
    var s := Run(Step, InitialRegistry(screen), events);
    ReachableValid(screen, events);
    forall i, j | IsTop(s.windows, i) && IsTop(s.windows, j) ensures i == j {
      TopUnique(s.windows, i);
      TopUnique(s.windows, j);
    }
  }

  /** No drag move among these handler calls. */
  predicate NoMoves(events: seq<Event>) {
    forall k :: 0 <= k < |events| ==> !events[k].DragMove?
  }

  /** Only a drag move can raise the hint: every other handler keeps it down. */
  lemma {:induction false} HintNeedsMove(s: Registry, events: seq<Event>)
    requires !s.showExpandHint && NoMoves(events)
    ensures !Run(Step, s, events).showExpandHint
    decreases |events|
  {
    if events != [] {
      assert NoMoves(events[1..]) by {
        forall k | 0 <= k < |events[1..]| ensures !events[1..][k].DragMove? {
          assert events[1..][k] == events[k + 1];
        }
      }
      HintNeedsMove(Step(s, events[0]), events[1..]);
    }
  }

  /**
   * A release restores nothing unless a drag move came after the previous
   * release: that release cleared the hint, and nothing but a move raises it.
   */
  lemma NoRestoreWithoutMove(s: Registry, id: int, x: real, y: real, events: seq<Event>,
                             id2: int, x2: real, y2: real)
    requires NoMoves(events)
    ensures var t := Run(Step, DragEnded(s, id, x, y), events);
      DragEnded(t, id2, x2, y2).windows == t.windows
  {
    HintNeedsMove(DragEnded(s, id, x, y), events);
  }

  /** No drag move and no dock-mode toggle among these handler calls. */
  predicate Quiet(events: seq<Event>) {
    forall k :: 0 <= k < |events| ==> !events[k].DragMove? && !events[k].MinimizeAll?
  }

  /** Without moves or dock-mode toggles, dock mode stays put and the hint can only go down. */
  lemma {:induction false} QuietRun(s: Registry, events: seq<Event>)
    requires Quiet(events)
    ensures Run(Step, s, events).globalMinimized == s.globalMinimized
    ensures Run(Step, s, events).showExpandHint ==> s.showExpandHint
    decreases |events|
  {
    if events != [] {
      assert Quiet(events[1..]) by {
        forall k | 0 <= k < |events[1..]| ensures !events[1..][k].DragMove? && !events[1..][k].MinimizeAll? {
          assert events[1..][k] == events[k + 1];
        }
      }
      QuietRun(Step(s, events[0]), events[1..]);
    }
  }

  /**
   * A release whose restore guard fires, with no move and no dock-mode toggle
   * since the last move, had that move made in dock mode, of a docked window,
   * within 800 px of the centre.
   */
  lemma RestoreNeedsHintingMove(t: Registry, m: int, mx: real, my: real, post: seq<Event>,
                                x: real, y: real)
    requires Quiet(post)
    requires RestoreTriggered(Run(Step, DragMoved(t, m, mx, my), post), x, y)
    ensures t.globalMinimized && IsMinimizedWindow(t.windows, m) && Within(mx, my, t.screenSize, HintRadius)
  {
    QuietRun(DragMoved(t, m, mx, my), post);
  }

  /**
   * The dock-mode toggle cannot be dropped from that: the hint survives
   * leaving and re-entering dock mode, so a release can restore a window
   * although the last move was made outside dock mode.
   */
  lemma HintSurvivesDockRoundTrip(screen: Screen)
    ensures var cx, cy := screen.width / 2.0, screen.height / 2.0;
      var s1 := Step(InitialRegistry(screen), MinimizeAll);
      var s2 := Step(s1, DragMove(1, cx, cy));
      var s3 := Step(s2, MinimizeAll);
      var s4 := Step(s3, DragMove(1, cx, cy));
      var s5 := Step(s4, MinimizeAll);
      var s6 := Step(s5, DragEnd(1, cx, cy));
      && !s3.globalMinimized && s4 == s3
      && RestoreTriggered(s5, cx, cy)
      && s5.windows[0].isMinimized && !s6.windows[0].isMinimized
  {
    var cx, cy := screen.width / 2.0, screen.height / 2.0;
    assert DistanceSquared(cx, cy, screen) == 0.0;
    var s1 := Step(InitialRegistry(screen), MinimizeAll);
    assert FirstWithId(s1.windows, 1, 0);
  }

  /**
   * Dragging a docked window to the screen centre and releasing it there
   * undocks it, keeps the registry valid and in dock mode, and leaves every
   * other window as it was.
   */
  lemma DragToCentreRestores(s: Registry, k: int, cx: real, cy: real)
    requires Valid(s) && s.globalMinimized && 0 <= k < |s.windows| && s.windows[k].isMinimized
    requires cx == s.screenSize.width / 2.0 && cy == s.screenSize.height / 2.0
    ensures var r := DragEnded(DragMoved(s, k + 1, cx, cy), k + 1, cx, cy);
      && Valid(r) && r.globalMinimized && r.screenSize == s.screenSize && |r.windows| == |s.windows|
      && !r.windows[k].isMinimized && r.windows[k].visible == s.windows[k].visible
      && forall j :: 0 <= j < |s.windows| && j != k ==> r.windows[j] == s.windows[j]
  {
    assert DistanceSquared(cx, cy, s.screenSize) == 0.0;
    ValidIds(s);
    assert FirstWithId(s.windows, k + 1, k);
    var m := DragMoved(s, k + 1, cx, cy);
    FoundMinimized(s.windows, k + 1);
    assert m.windows == s.windows && m.globalMinimized && m.showExpandHint && m.screenSize == s.screenSize;
    var r := DragEnded(m, k + 1, cx, cy);
    assert RestoreTriggered(m, cx, cy);
    assert r.windows == RestoreWindows(s.windows, k + 1);
    RestorePreservesValid(s, k + 1, r);
    forall j | 0 <= j < |s.windows| && j != k ensures r.windows[j] == s.windows[j] {
      assert s.windows[j].id != k + 1;
    }
  }

  /** The window at index `i` is shown at its own position rather than in the dock. */
  predicate OutOfDock(ws: seq<WindowState>, i: int) {
    0 <= i < |ws| && ws[i].visible && !ws[i].isMinimized
  }

  /**
   * Dock mode does not keep windows docked: from a registry outside dock mode
   * with window 1 shown and window 2 hidden (as at mount), showing window 2,
   * docking, and dragging windows 1 and 2 in turn to the centre leaves both
   * undocked while dock mode is still on.
   */
  lemma SeveralWindowsLeaveDock(s: Registry, cx: real, cy: real)
    requires Valid(s) && !s.globalMinimized && s.windows[0].visible && !s.windows[1].visible
    requires cx == s.screenSize.width / 2.0 && cy == s.screenSize.height / 2.0
    ensures var s2 := s.ToggleWindow(2).ToggleMinimizeAll();
      var s4 := DragEnded(DragMoved(s2, 1, cx, cy), 1, cx, cy);
      var s6 := DragEnded(DragMoved(s4, 2, cx, cy), 2, cx, cy);
      && |s6.windows| == 5 && s6.globalMinimized
      && OutOfDock(s6.windows, 0) && OutOfDock(s6.windows, 1)
  {
    var s2 := s.ToggleWindow(2).ToggleMinimizeAll();
    ShowSecondThenDock(s);
    DragToCentreRestores(s2, 0, cx, cy);
    var s4 := DragEnded(DragMoved(s2, 1, cx, cy), 1, cx, cy);
    assert s4.windows[1] == s2.windows[1];
    DragToCentreRestores(s4, 1, cx, cy);
    var s6 := DragEnded(DragMoved(s4, 2, cx, cy), 2, cx, cy);
    assert s6.windows[0] == s4.windows[0];
  }

  /** Showing window 2 and then docking: a valid registry in dock mode with windows 1 and 2 shown and docked. */
  lemma ShowSecondThenDock(s: Registry)
    requires Valid(s) && !s.globalMinimized && s.windows[0].visible && !s.windows[1].visible
    ensures var s2 := s.ToggleWindow(2).ToggleMinimizeAll();
      && Valid(s2) && s2.globalMinimized && s2.screenSize == s.screenSize && |s2.windows| == 5
      && s2.windows[0].visible && s2.windows[0].isMinimized
      && s2.windows[1].visible && s2.windows[1].isMinimized
  {
    ValidIds(s);
    ManifestIds();
    SharedOpsPreserveValid(s, 2, s.screenSize);
    var s1 := s.ToggleWindow(2);
    assert s1.windows[0].visible && s1.windows[1].visible;
    SharedOpsPreserveValid(s1, 2, s.screenSize);
  }

  /** The mounted registry is such a registry. */
  lemma MountAllowsSeveralUndocked(screen: Screen)
    ensures var s := InitialRegistry(screen);
      Valid(s) && !s.globalMinimized && s.windows[0].visible && !s.windows[1].visible
  {
    InitialValid(screen);
  }

  /**
   * Drag-to-restore: in dock mode, dragging window 1 (500 x 400 in the
   * manifest) so its centre is on the screen centre shows the hint, and
   * releasing there restores it at 750 x 600.
   */
  lemma RestoreAtCentreScenario(s: Registry)
    requires Valid(s) && s.globalMinimized && s.windows[0].isMinimized
    ensures var cx, cy := s.screenSize.width / 2.0, s.screenSize.height / 2.0;
      var moved := DragMoved(s, 1, cx, cy);
      var ended := DragEnded(moved, 1, cx, cy);
      && moved.showExpandHint
      && !ended.windows[0].isMinimized
      && ended.windows[0].width == 750.0 && ended.windows[0].height == 600.0
      && !ended.showExpandHint && ended.draggedWindowId == None
  {
    ValidIds(s);
    assert FirstWithId(s.windows, 1, 0);
  }

  /**
   * Releasing 500 px from the centre: the hint was shown during the move
   * (500 < 800) but the drop is outside the restore radius (500 >= 400), so
   * the window stays docked.
   */
  lemma ReleaseAt500Scenario(s: Registry)
    requires Valid(s) && s.globalMinimized && s.windows[0].isMinimized
    ensures var cx, cy := s.screenSize.width / 2.0, s.screenSize.height / 2.0;
      var moved := DragMoved(s, 1, cx + 500.0, cy);
      var ended := DragEnded(moved, 1, cx + 500.0, cy);
      && moved.showExpandHint
      && ended.windows[0].isMinimized
      && ended.windows == s.windows
      && !ended.showExpandHint
  {
    ValidIds(s);
    assert FirstWithId(s.windows, 1, 0);
  }

  /** The callbacks the page hands to every window. */
  const SurfaceHandlers: DragBounds.Handlers :=
    DragBounds.Handlers(onFocus := true, onDragStart := false, onDragMove := true, onDragEnd := true)

  /** The rectangle a window is laid out at: its dock slot by list index if minimized, else its default place. */
  function Placement(w: WindowState, index: nat, screen: Screen): Rect {
    if w.isMinimized then MinimizedPosition(index) else InitialPosition(w.id, w.width, w.height, screen)
  }

  /** The props the page passes to the drag window of the window at `index`. */
  function PropsFor(w: WindowState, index: nat, screen: Screen): DragBounds.WindowProps {
    var p := Placement(w, index, screen);
    DragBounds.WindowProps(p.x, p.y, Some(p.width), Some(p.height), Some(screen.height - NavHeight),
                           w.isMinimized, SurfaceHandlers)
  }

  /**
   * The render: one entry per window in list order, absent for a hidden
   * window. A minimized window takes the dock slot of its index in the whole
   * list, hidden windows included; any other window its default place.
   */
  function Layout(s: Registry): (r: seq<Option<DragBounds.WindowProps>>)
    ensures |r| == |s.windows|
    ensures forall i :: 0 <= i < |r| ==> (r[i].Some? <==> s.windows[i].visible)
    ensures forall i :: 0 <= i < |r| && s.windows[i].visible && s.windows[i].isMinimized ==>
      && r[i].value.initialX == 10.0 && r[i].value.initialY == 150.0 + 70.0 * i as real
      && DragBounds.PropSize(r[i].value) == Size(200.0, 60.0)
    ensures forall i :: 0 <= i < |r| && s.windows[i].visible && !s.windows[i].isMinimized ==>
      var home := InitialPosition(s.windows[i].id, s.windows[i].width, s.windows[i].height, s.screenSize);
      && r[i].value.initialX == home.x && r[i].value.initialY == home.y
      && DragBounds.PropSize(r[i].value) == Size(home.width, home.height)
    ensures forall i :: 0 <= i < |r| && s.windows[i].visible ==>
      r[i].value.maxY == Some(s.screenSize.height - NavHeight) && r[i].value.isMinimized == s.windows[i].isMinimized
  {
    seq(|s.windows|, i requires 0 <= i < |s.windows| =>
      if s.windows[i].visible then Some(PropsFor(s.windows[i], i, s.screenSize)) else None)
  }

  /**
   * On every reachable registry a docked window's slot depends only on its
   * id: window k always sits at y = 150 + 70 (k - 1), whichever other windows
   * are hidden.
   */
  lemma DockSlotFollowsManifest(s: Registry, i: int)
    requires Valid(s) && 0 <= i < |s.windows| && s.windows[i].visible && s.windows[i].isMinimized
    ensures Layout(s)[i].value.initialY == 150.0 + 70.0 * (s.windows[i].id - 1) as real
  {
    ValidIds(s);
  }

  /** Two docked windows are laid out in slots that do not overlap. */
  lemma DockSlotsDisjoint(s: Registry, i: int, j: int)
    requires 0 <= i < j < |s.windows|
    requires s.windows[i].visible && s.windows[i].isMinimized
    requires s.windows[j].visible && s.windows[j].isMinimized
    ensures Layout(s)[i].value.initialY + 60.0 < Layout(s)[j].value.initialY
  {
    MinimizedSlotsDisjoint(i, j);
  }

  /**
   * A window laid out at its default place on a wide screen, when it fits,
   * is already inside the drag clamp of the viewport: the drag window's first
   * clamp leaves it where the page put it.
   */
  lemma HomePlacementInDragBounds(s: Registry, i: int)
    requires 0 <= i < |s.windows| && s.windows[i].visible && !s.windows[i].isMinimized
    requires !IsNarrow(s.screenSize)
    requires s.screenSize.width - s.windows[i].width - Margin >= Margin
    requires AvailableHeight(s.screenSize) - s.windows[i].height - Margin >= Margin
    ensures var p := Layout(s)[i].value;
      DragBounds.InBounds(Point(p.initialX, p.initialY), DragBounds.PropSize(p), p.maxY, s.screenSize)
  {
  }

  /**
   * A restore ignores the screen: window 4 comes back at 900 x 675, and on a
   * wide screen under 900 px it is laid out wider than the screen.
   */
  lemma RestoredWindowOverflowsScreen(s: Registry)
    requires Valid(s) && s.globalMinimized && s.showExpandHint && s.windows[3].visible
    requires !IsNarrow(s.screenSize) && s.screenSize.width < 900.0
    ensures var r := DragEnded(s, 4, s.screenSize.width / 2.0, s.screenSize.height / 2.0);
      && !r.windows[3].isMinimized
      && Layout(r)[3].Some?
      && DragBounds.PropSize(Layout(r)[3].value) == Size(900.0, 675.0)
      && DragBounds.PropSize(Layout(r)[3].value).width > s.screenSize.width
  {
    ValidIds(s);
    ManifestIds();
    assert InitialWindows[3].id == 4;
  }

  /**
   * Without a browser window the screen size falls back to 1200 x 800. At
   * mount that screen gives a layout in which only window 1 is laid out, at
   * its anchor (350, 280) with its manifest size and the bottom bound 720.
   */
  lemma MountLayoutOnFallbackScreen()
    ensures var l := Layout(InitialRegistry(FallbackScreen));
      && |l| == 5
      && l[0].Some? && l[0].value.initialX == 350.0 && l[0].value.initialY == 280.0
      && DragBounds.PropSize(l[0].value) == Size(500.0, 400.0) && l[0].value.maxY == Some(720.0)
      && l[1].None? && l[2].None? && l[3].None? && l[4].None?
  {
  }

  /** The page's state cells, updated in place by its handlers. */
  class Surface {
    var windows: seq<WindowState>
    var maxZIndex: int
    var globalMinimized: bool
    var draggedWindowId: Option<int>
    var showExpandHint: bool
    var screenSize: Screen

    function Snapshot(): Registry
      reads this
    {
      Registry(windows, maxZIndex, globalMinimized, draggedWindowId, showExpandHint, screenSize)
    }

    predicate Valid()
      reads this
    {
      SurfaceValid(Snapshot())
    }

    /** What the page renders from its current state. */
    function Render(): seq<Option<DragBounds.WindowProps>>
      reads this
    {
      Layout(Snapshot())
    }

    constructor (screen: Screen)
      ensures Snapshot() == InitialRegistry(screen) && Valid()
    {
      windows := InitialWindows;
      maxZIndex := InitialMaxZIndex;
      globalMinimized := false;
      draggedWindowId := None;
      showExpandHint := false;
      screenSize := screen;
      InitialValid(screen);
    }

    method ToggleWindow(id: int)
      requires Valid()
      modifies this
      ensures Valid() && Snapshot() == old(Snapshot()).ToggleWindow(id)
    {
      ghost var s := Snapshot();
      StepPreservesValid(s, Toggle(id));
      assert SurfaceValid(s.ToggleWindow(id));
      var newZIndex := maxZIndex + 1;
      if HasHidden(windows, id) {
        maxZIndex := newZIndex;
      }
      windows := UpdateWhere(windows, id, ShowOrHide(newZIndex));
      assert Snapshot() == s.ToggleWindow(id);
    }

    method CloseWindow(id: int)
      requires Valid()
      modifies this
      ensures Valid() && Snapshot() == old(Snapshot()).CloseWindow(id)
    {
      ghost var s := Snapshot();
      StepPreservesValid(s, Close(id));
      assert SurfaceValid(s.CloseWindow(id));
      windows := UpdateWhere(windows, id, CloseOrDock(globalMinimized));
      assert Snapshot() == s.CloseWindow(id);
    }

    method HandleWindowFocus(id: int)
      requires Valid()
      modifies this
      ensures Valid() && Snapshot() == old(Snapshot()).HandleWindowFocus(id)
    {
      ghost var s := Snapshot();
      StepPreservesValid(s, Focus(id));
      assert SurfaceValid(s.HandleWindowFocus(id));
      var newZIndex := maxZIndex + 1;
      maxZIndex := newZIndex;
      windows := UpdateWhere(windows, id, Raise(newZIndex));
      assert Snapshot() == s.HandleWindowFocus(id);
    }

    method ToggleMinimizeAll()
      requires Valid()
      modifies this
      ensures Valid() && Snapshot() == old(Snapshot()).ToggleMinimizeAll()
    {
      ghost var s := Snapshot();
      StepPreservesValid(s, MinimizeAll);
      assert SurfaceValid(s.ToggleMinimizeAll());
      var flag := !globalMinimized;
      globalMinimized := flag;
      windows := UpdateAll(windows, SetMinimized(flag));
      assert Snapshot() == s.ToggleMinimizeAll();
    }

    method HandleDragMove(id: int, x: real, y: real)
      requires Valid()
      modifies this
      ensures Valid() && Snapshot() == DragMoved(old(Snapshot()), id, x, y)
    {
      ghost var s := Snapshot();
      StepPreservesValid(s, DragMove(id, x, y));
      assert SurfaceValid(DragMoved(s, id, x, y));
      if globalMinimized {
        draggedWindowId := Some(id);
        var draggedWindow := FindWindow(windows, id);
        if draggedWindow.Some? && draggedWindow.value.isMinimized {
          showExpandHint := Within(x, y, screenSize, HintRadius);
        } else {
          showExpandHint := false;
        }
      }
      assert Snapshot() == DragMoved(s, id, x, y);
    }

    method HandleDragEnd(id: int, x: real, y: real)
      requires Valid()
      modifies this
      ensures Valid() && Snapshot() == DragEnded(old(Snapshot()), id, x, y)
    {
      ghost var s := Snapshot();
      StepPreservesValid(s, DragEnd(id, x, y));
      assert SurfaceValid(DragEnded(s, id, x, y));
      draggedWindowId := None;
      if globalMinimized && showExpandHint && Within(x, y, screenSize, RestoreRadius) {
        windows := RestoreWindows(windows, id);
      }
      showExpandHint := false;
      assert Snapshot() == DragEnded(s, id, x, y);
    }

    method HandleResize(screen: Screen)
      requires Valid()
      modifies this
      ensures Valid() && Snapshot() == old(Snapshot()).HandleResize(screen)
    {
      ghost var s := Snapshot();
      StepPreservesValid(s, ScreenResize(screen));
      assert SurfaceValid(s.HandleResize(screen));
      screenSize := screen;
      assert Snapshot() == s.HandleResize(screen);
    }
  }
}
