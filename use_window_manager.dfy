/**
 * The registry as the `useWindowManager` hook implements it
 * (src/hooks/useWindowManager.ts). It shares toggle, close, focus and
 * minimize-all with the page component; its drag handlers differ in how they
 * clear the expand hint: a move outside dock mode clears it, a move of a
 * non-minimized window leaves it, and a release clears it only in dock mode
 * with the hint shown.
 */
module UseWindowManager {
  import opened Options
  import opened WindowPositions
  import opened WindowRegistry

  /** `handleDragMove`: (x, y) is the dragged window's centre. */
  function DragMoved(s: Registry, id: int, x: real, y: real): (r: Registry)
    ensures r.(draggedWindowId := s.draggedWindowId, showExpandHint := s.showExpandHint) == s
    ensures !s.globalMinimized ==> !r.showExpandHint && r.draggedWindowId == s.draggedWindowId
    ensures s.globalMinimized ==> r.draggedWindowId == Some(id)
    ensures s.globalMinimized && IsMinimizedWindow(s.windows, id) ==>
      (r.showExpandHint <==> Within(x, y, s.screenSize, HintRadius))
    ensures s.globalMinimized && !IsMinimizedWindow(s.windows, id) ==>
      r.showExpandHint == s.showExpandHint
  {
    FoundMinimized(s.windows, id);
    if s.globalMinimized then
      var draggedWindow := FindWindow(s.windows, id);
      if draggedWindow.Some? && draggedWindow.value.isMinimized then
        s.(draggedWindowId := Some(id), showExpandHint := Within(x, y, s.screenSize, HintRadius))
      else
        s.(draggedWindowId := Some(id))
    else
      s.(showExpandHint := false)
  }

  /**
   * `handleDragEnd`: forgets the dragged window; in dock mode with the hint
   * shown, restores the window when dropped inside the restore radius and
   * clears the hint. Outside that branch the hint is left as it was.
   */
  function DragEnded(s: Registry, id: int, x: real, y: real): (r: Registry)
    ensures r.draggedWindowId == None
    ensures r.showExpandHint == (s.showExpandHint && !s.globalMinimized)
    ensures r.windows == if RestoreTriggered(s, x, y) then RestoreWindows(s.windows, id) else s.windows
    ensures r.(windows := s.windows, draggedWindowId := s.draggedWindowId, showExpandHint := s.showExpandHint) == s
  {
    var s1 := s.(draggedWindowId := None);
    if s.globalMinimized && s.showExpandHint then
      var s2 := if Within(x, y, s.screenSize, RestoreRadius)
                then s1.(windows := RestoreWindows(s1.windows, id)) else s1;
      s2.(showExpandHint := false)
    else
      s1
  }

  /** One handler call of the hook. */
  function Step(s: Registry, e: Event): Registry {
    match e
    case Toggle(id) => s.ToggleWindow(id)
    case Close(id) => s.CloseWindow(id)
    case Focus(id) => s.HandleWindowFocus(id)
    case MinimizeAll => s.ToggleMinimizeAll()
    case DragMove(id, x, y) => DragMoved(s, id, x, y)
    case DragEnd(id, x, y) => DragEnded(s, id, x, y)
    case ScreenResize(screen) => s.HandleResize(screen)
  }

  lemma StepPreservesValid(s: Registry, e: Event)
    requires Valid(s)
    ensures Valid(Step(s, e))
  {
    match e
    case DragEnd(id, x, y) =>
      if RestoreTriggered(s, x, y) {
        RestorePreservesValid(s, id, DragEnded(s, id, x, y));
      }
    case DragMove(id, x, y) =>
    case Toggle(id) => SharedOpsPreserveValid(s, id, s.screenSize);
    case Close(id) => SharedOpsPreserveValid(s, id, s.screenSize);
    case Focus(id) => SharedOpsPreserveValid(s, id, s.screenSize);
    case MinimizeAll => SharedOpsPreserveValid(s, 0, s.screenSize);
    case ScreenResize(screen) => SharedOpsPreserveValid(s, 0, screen);
  }

  /**
   * Every registry the hook can reach keeps the manifest's windows in
   * manifest order, no z-index above the maximum, no two windows at the same
   * z-index, and no minimized window outside dock mode.
   */
  lemma ReachableValid(screen: Screen, events: seq<Event>)
    ensures Valid(Run(Step, InitialRegistry(screen), events))
  {
    forall t: Registry, e: Event | Valid(t) ensures Valid(Step(t, e)) {
      StepPreservesValid(t, e);
    }
    InitialValid(screen);
    RunPreserves(Step, Valid, InitialRegistry(screen), events);
  }

  /**
   * In every reachable registry at most one shown window is drawn on top:
   * two windows that are each top of the shown ones are the same window.
   */
  lemma ReachableTopUnique(screen: Screen, events: seq<Event>)
    ensures var s := Run(Step, InitialRegistry(screen), events);
      forall i, j :: IsTop(s.windows, i) && IsTop(s.windows, j) ==> i == j
  {
    var s := Run(Step, InitialRegistry(screen), events);
    ReachableValid(screen, events);
    forall i, j | IsTop(s.windows, i) && IsTop(s.windows, j) ensures i == j {
      TopUnique(s.windows, i);
      TopUnique(s.windows, j);
    }
  }

  /**
   * The hook can leave the hint up with no dragged window: enter dock mode,
   * drag window 1 to the centre, leave dock mode, release.
   */
  lemma StaleHint(screen: Screen)
    ensures var cx, cy := screen.width / 2.0, screen.height / 2.0;
      var s1 := Step(InitialRegistry(screen), MinimizeAll);
      var s2 := Step(s1, DragMove(1, cx, cy));
      var s3 := Step(s2, MinimizeAll);
      var s4 := Step(s3, DragEnd(1, cx, cy));
      s4.showExpandHint && s4.draggedWindowId == None
  {
    var s1 := Step(InitialRegistry(screen), MinimizeAll);
    assert FirstWithId(s1.windows, 1, 0);
  }

  /**
   * The stale hint lets a plain click restore a window. On an 800 x 600 screen:
   * show window 2, enter dock mode, drag window 1 to the centre, leave dock
   * mode, release, and re-enter dock mode. The hint is still up, so clicking
   * the title bar of docked window 2 without moving, which reports the centre
   * of its dock slot, restores it at 675 x 525.
   */
  lemma ReleaseWithoutMoveRestores()
    ensures var screen := Screen(800.0, 600.0);
      var cx, cy := screen.width / 2.0, screen.height / 2.0;
      var slot := MinimizedPosition(1);
      var px, py := slot.x + slot.width / 2.0, slot.y + slot.height / 2.0;
      var s1 := Step(InitialRegistry(screen), Toggle(2));
      var s2 := Step(s1, MinimizeAll);
      var s3 := Step(s2, DragMove(1, cx, cy));
      var s4 := Step(s3, MinimizeAll);
      var s5 := Step(s4, DragEnd(1, cx, cy));
      var s6 := Step(s5, MinimizeAll);
      var s7 := Step(s6, DragEnd(2, px, py));
      && px == 110.0 && py == 250.0
      && s5.showExpandHint && s5.draggedWindowId == None
      && |s7.windows| == 5 && s6.globalMinimized
      && s6.windows[1].visible && s6.windows[1].isMinimized
      && s7.windows[1].visible && !s7.windows[1].isMinimized
      && s7.windows[1].width == 675.0 && s7.windows[1].height == 525.0
  {
    var screen := Screen(800.0, 600.0);
    var cx, cy := screen.width / 2.0, screen.height / 2.0;
    var px, py := 110.0, 250.0;
    ManifestIds();
    var s0 := InitialRegistry(screen);
    InitialValid(screen);
    ValidIds(s0);
    var s1 := Step(s0, Toggle(2));
    assert s1.windows[1].visible && s1.windows[0].visible;
    var s2 := Step(s1, MinimizeAll);
    assert s2.windows[0].isMinimized && s2.windows[1].isMinimized && s2.windows[1].visible;
    assert FirstWithId(s2.windows, 1, 0);
    var s3 := Step(s2, DragMove(1, cx, cy));
    assert s3.showExpandHint;
    var s4 := Step(s3, MinimizeAll);
    var s5 := Step(s4, DragEnd(1, cx, cy));
    var s6 := Step(s5, MinimizeAll);
    assert s6.windows[1].visible && s6.windows[1].isMinimized && s6.windows[1].id == 2;
    assert DistanceSquared(px, py, screen) == 86600.0;
    assert RestoreTriggered(s6, px, py);
  }

  /** The hook's state cells, updated in place by its handlers. */
  class WindowManager {
    var windows: seq<WindowState>
    var maxZIndex: int
    var globalMinimized: bool
    var draggedWindowId: Option<int>
    var showExpandHint: bool
    var screenSize: Screen

    function Snapshot(): Registry
      reads this
    {
      Registry(windows, maxZIndex, globalMinimized, draggedWindowId, showExpandHint, screenSize)
    }

    predicate Valid()
      reads this
    {
      WindowRegistry.Valid(Snapshot())
    }

    constructor (screen: Screen)
      ensures Snapshot() == InitialRegistry(screen) && Valid()
    {
      windows := InitialWindows;
      maxZIndex := InitialMaxZIndex;
      globalMinimized := false;
      draggedWindowId := None;
      showExpandHint := false;
      screenSize := screen;
      InitialValid(screen);
    }

    method ToggleWindow(id: int)
      requires Valid()
      modifies this
      ensures Valid() && Snapshot() == old(Snapshot()).ToggleWindow(id)
    {
      ghost var s := Snapshot();
      SharedOpsPreserveValid(s, id, s.screenSize);
      assert WindowRegistry.Valid(s.ToggleWindow(id));
      var newZIndex := maxZIndex + 1;
      if HasHidden(windows, id) {
        maxZIndex := newZIndex;
      }
      windows := UpdateWhere(windows, id, ShowOrHide(newZIndex));
      assert Snapshot() == s.ToggleWindow(id);
    }

    method CloseWindow(id: int)
      requires Valid()
      modifies this
      ensures Valid() && Snapshot() == old(Snapshot()).CloseWindow(id)
    {
      ghost var s := Snapshot();
      SharedOpsPreserveValid(s, id, s.screenSize);
      assert WindowRegistry.Valid(s.CloseWindow(id));
      windows := UpdateWhere(windows, id, CloseOrDock(globalMinimized));
      assert Snapshot() == s.CloseWindow(id);
    }

    method HandleWindowFocus(id: int)
      requires Valid()
      modifies this
      ensures Valid() && Snapshot() == old(Snapshot()).HandleWindowFocus(id)
    {
      ghost var s := Snapshot();
      SharedOpsPreserveValid(s, id, s.screenSize);
      assert WindowRegistry.Valid(s.HandleWindowFocus(id));
      var newZIndex := maxZIndex + 1;
      maxZIndex := newZIndex;
      windows := UpdateWhere(windows, id, Raise(newZIndex));
      assert Snapshot() == s.HandleWindowFocus(id);
    }

    method ToggleMinimizeAll()
      requires Valid()
      modifies this
      ensures Valid() && Snapshot() == old(Snapshot()).ToggleMinimizeAll()
    {
      ghost var s := Snapshot();
      SharedOpsPreserveValid(s, 0, s.screenSize);
      assert WindowRegistry.Valid(s.ToggleMinimizeAll());
      var flag := !globalMinimized;
      globalMinimized := flag;
      windows := UpdateAll(windows, SetMinimized(flag));
      assert Snapshot() == s.ToggleMinimizeAll();
    }

    method HandleDragMove(id: int, x: real, y: real)
      requires Valid()
      modifies this
      ensures Valid() && Snapshot() == DragMoved(old(Snapshot()), id, x, y)
    {
      ghost var s := Snapshot();
      StepPreservesValid(s, DragMove(id, x, y));
      assert WindowRegistry.Valid(DragMoved(s, id, x, y));
      if globalMinimized {
        draggedWindowId := Some(id);
        var draggedWindow := FindWindow(windows, id);
        if draggedWindow.Some? && draggedWindow.value.isMinimized {
          showExpandHint := Within(x, y, screenSize, HintRadius);
        }
      } else {
        showExpandHint := false;
      }
      assert Snapshot() == DragMoved(s, id, x, y);
    }

    method HandleDragEnd(id: int, x: real, y: real)
      requires Valid()
      modifies this
      ensures Valid() && Snapshot() == DragEnded(old(Snapshot()), id, x, y)
    {
      ghost var s := Snapshot();
      StepPreservesValid(s, DragEnd(id, x, y));
      assert WindowRegistry.Valid(DragEnded(s, id, x, y));
      draggedWindowId := None;
      if globalMinimized && showExpandHint {
        if Within(x, y, screenSize, RestoreRadius) {
          windows := RestoreWindows(windows, id);
        }
        showExpandHint := false;
      }
      assert Snapshot() == DragEnded(s, id, x, y);
    }

    method HandleResize(screen: Screen)
      requires Valid()
      modifies this
      ensures Valid() && Snapshot() == old(Snapshot()).HandleResize(screen)
    {
      ghost var s := Snapshot();
      screenSize := screen;
      assert Snapshot() == s.HandleResize(screen);
    }
  }
}
