/**
 * The window registry shared by the hook (src/hooks/useWindowManager.ts) and
 * the page component (src/components/common/main/Main.tsx): the window
 * records, the fixed manifest they start from, the registry snapshot, and the
 * operations both copies implement identically. Each React handler is one
 * atomic step from snapshot to snapshot; every per-window update is a `map`
 * over the window list that touches only the windows with the given id.
 */
module WindowRegistry {
  import opened Options
  import opened WindowPositions

  datatype WindowState = WindowState(
    id: int,
    title: string,
    visible: bool,
    zIndex: int,
    width: real,
    height: real,
    isMinimized: bool)

  /** The content manifest: one window per section, only the first shown. */
  const InitialWindows: seq<WindowState> := [
    WindowState(1, "A PROPOS DE MOI", true, 5, 500.0, 400.0, false),
    WindowState(2, "PARCOURS", false, 2, 450.0, 350.0, false),
    WindowState(3, "COMPETENCES", false, 3, 550.0, 380.0, false),
    WindowState(4, "PROJETS", false, 4, 600.0, 450.0, false),
    WindowState(5, "CONTACT", false, 1, 400.0, 300.0, false)
  ]
  const InitialMaxZIndex: int := 5

  /** Viewport size assumed when there is no browser window. */
  const FallbackScreen: Screen := Screen(1200.0, 800.0)

  /** A docked window dragged within this distance of the screen centre shows the expand hint. */
  const HintRadius: real := 800.0
  /** Releasing within this distance (with the hint shown) restores the window. */
  const RestoreRadius: real := 400.0
  /** A restored window is enlarged to this multiple of its manifest size. */
  const RestoreScale: real := 1.5
  /** Size used by the restore when the manifest has no usable size. */
  const FallbackWidth: real := 500.0
  const FallbackHeight: real := 400.0

  /** The registry's state cells. */
  datatype Registry = Registry(
    windows: seq<WindowState>,
    maxZIndex: int,
    globalMinimized: bool,
    draggedWindowId: Option<int>,
    showExpandHint: bool,
    screenSize: Screen)
  {
    /**
     * `toggleWindow`: a hidden window is shown and raised to one above the
     * current maximum, which grows by one; a shown window is only hidden.
     */
    function ToggleWindow(id: int): (r: Registry)
      ensures SameFrame(r.windows, windows)
      ensures forall i :: 0 <= i < |windows| && windows[i].id != id ==> r.windows[i] == windows[i]
      ensures forall i :: 0 <= i < |windows| && windows[i].id == id && !windows[i].visible ==>
        r.windows[i] == windows[i].(visible := true, zIndex := maxZIndex + 1)
      ensures forall i :: 0 <= i < |windows| && windows[i].id == id && windows[i].visible ==>
        r.windows[i] == windows[i].(visible := false)
      ensures r.maxZIndex == if HasHidden(windows, id) then maxZIndex + 1 else maxZIndex
      ensures r.(windows := windows, maxZIndex := maxZIndex) == this
      ensures ZBounded(windows, maxZIndex) ==> ZBounded(r.windows, r.maxZIndex)
    {
      var newZIndex := maxZIndex + 1;
      this.(windows := UpdateWhere(windows, id, ShowOrHide(newZIndex)),
            maxZIndex := if HasHidden(windows, id) then newZIndex else maxZIndex)
    }

    /**
     * `closeWindow`: in dock mode a window that is not minimized is sent to
     * the dock and stays visible; otherwise it is hidden.
     */
    function CloseWindow(id: int): (r: Registry)
      ensures SameFrame(r.windows, windows)
      ensures forall i :: 0 <= i < |windows| && windows[i].id != id ==> r.windows[i] == windows[i]
      ensures forall i :: 0 <= i < |windows| && windows[i].id == id ==>
        if globalMinimized && !windows[i].isMinimized
        then r.windows[i] == windows[i].(isMinimized := true)
        else r.windows[i] == windows[i].(visible := false)
      ensures r.(windows := windows) == this
    {
      this.(windows := UpdateWhere(windows, id, CloseOrDock(globalMinimized)))
    }

    /**
     * `handleWindowFocus`: the maximum grows by one and the window takes it.
     * On a registry whose ids are unique and whose z-indices are bounded by
     * the maximum, the focused window ends strictly above every other.
     */
    function HandleWindowFocus(id: int): (r: Registry)
      ensures SameFrame(r.windows, windows)
      ensures r.maxZIndex == maxZIndex + 1
      ensures forall i :: 0 <= i < |windows| && windows[i].id != id ==> r.windows[i] == windows[i]
      ensures forall i :: 0 <= i < |windows| && windows[i].id == id ==>
        r.windows[i] == windows[i].(zIndex := r.maxZIndex)
      ensures r.(windows := windows, maxZIndex := maxZIndex) == this
      ensures ZBounded(windows, maxZIndex) ==> ZBounded(r.windows, r.maxZIndex)
      ensures UniqueIds(windows) && ZBounded(windows, maxZIndex) ==>
        forall i :: 0 <= i < |windows| && windows[i].id == id ==> OnTop(r.windows, i)
    {
      var newZIndex := maxZIndex + 1;
      this.(windows := UpdateWhere(windows, id, Raise(newZIndex)), maxZIndex := newZIndex)
    }

    /**
     * `toggleMinimizeAll`: flips dock mode and puts every window in the new
     * mode; nothing else about any window changes.
     */
    function ToggleMinimizeAll(): (r: Registry)
      ensures r.globalMinimized == !globalMinimized
      ensures SameFrame(r.windows, windows)
      ensures forall i :: 0 <= i < |windows| ==>
        r.windows[i].isMinimized == r.globalMinimized
        && r.windows[i].(isMinimized := windows[i].isMinimized) == windows[i]
      ensures r.(windows := windows, globalMinimized := globalMinimized) == this
    {
      this.(globalMinimized := !globalMinimized,
            windows := UpdateAll(windows, SetMinimized(!globalMinimized)))
    }

    /** The viewport resize listener records the new screen size. */
    function HandleResize(screen: Screen): (r: Registry)
      ensures r.screenSize == screen && r.(screenSize := screenSize) == this
    {
      this.(screenSize := screen)
    }
  }

  /** The registry at mount. */
  function InitialRegistry(screen: Screen): Registry {
    Registry(InitialWindows, InitialMaxZIndex, false, None, false, screen)
  }

  /** The edits a handler applies to the windows it selects. */
  datatype Patch =
    | ShowOrHide(newZIndex: int)
    | CloseOrDock(globalMinimized: bool)
    | Raise(newZIndex: int)
    | SetMinimized(flag: bool)
    | RestoreTo(size: Size)

  /** One window after a patch; identity and title are never touched. */
  function Apply(w: WindowState, p: Patch): (r: WindowState)
    ensures r.id == w.id && r.title == w.title
  {
    match p
    case ShowOrHide(z) => if !w.visible then w.(visible := true, zIndex := z) else w.(visible := false)
    case CloseOrDock(gm) => if gm && !w.isMinimized then w.(isMinimized := true) else w.(visible := false)
    case Raise(z) => w.(zIndex := z)
    case SetMinimized(flag) => w.(isMinimized := flag)
    case RestoreTo(size) => w.(isMinimized := false, width := size.width, height := size.height)
  }

  /** `windows.map(w => w.id === id ? patched : w)`. */
  function UpdateWhere(ws: seq<WindowState>, id: int, p: Patch): seq<WindowState> {
    seq(|ws|, i requires 0 <= i < |ws| => if ws[i].id == id then Apply(ws[i], p) else ws[i])
  }

  /** `windows.map(w => patched)`. */
  function UpdateAll(ws: seq<WindowState>, p: Patch): seq<WindowState> {
    seq(|ws|, i requires 0 <= i < |ws| => Apply(ws[i], p))
  }

  /** Same windows in the same order: ids and titles agree position by position. */
  predicate SameFrame(a: seq<WindowState>, b: seq<WindowState>) {
    |a| == |b| && forall i :: 0 <= i < |a| ==> a[i].id == b[i].id && a[i].title == b[i].title
  }

  predicate UniqueIds(ws: seq<WindowState>) {
    forall i, j :: 0 <= i < j < |ws| ==> ws[i].id != ws[j].id
  }

  /** No window is above the recorded maximum. */
  predicate ZBounded(ws: seq<WindowState>, maxZIndex: int) {
    forall i :: 0 <= i < |ws| ==> ws[i].zIndex <= maxZIndex
  }

  /** Window i is strictly above every other window. */
  predicate OnTop(ws: seq<WindowState>, i: int)
    requires 0 <= i < |ws|
  {
    forall j :: 0 <= j < |ws| && j != i ==> ws[j].zIndex < ws[i].zIndex
  }

  /** No two windows share a z-index, so the stacking order is total. */
  predicate ZDistinct(ws: seq<WindowState>) {
    forall i, j :: 0 <= i < j < |ws| ==> ws[i].zIndex != ws[j].zIndex
  }

  /** Window i is shown and no shown window is above it. */
  predicate IsTop(ws: seq<WindowState>, i: int) {
    0 <= i < |ws| && ws[i].visible && forall j :: 0 <= j < |ws| && ws[j].visible ==> ws[j].zIndex <= ws[i].zIndex
  }

  /**
   * A shown window with the largest z-index, if any window is shown (on a
   * tie, the first such index).
   */
  function TopVisible(ws: seq<WindowState>): (r: Option<nat>)
    ensures r.None? <==> forall i :: 0 <= i < |ws| ==> !ws[i].visible
    ensures r.Some? ==> IsTop(ws, r.value)
  {
    if ws == [] then None
    else match TopVisible(ws[1..])
      case None => if ws[0].visible then Some(0) else None
      case Some(k) =>
        if ws[0].visible && ws[0].zIndex >= ws[k + 1].zIndex then Some(0) else Some(k + 1)
  }

  /**
   * With distinct z-indices the top shown window is unique: any window that
   * is top is the one `TopVisible` finds.
   */
  lemma TopUnique(ws: seq<WindowState>, i: int)
    requires ZDistinct(ws) && IsTop(ws, i)
    ensures TopVisible(ws) == Some(i)
  {
    var k := TopVisible(ws).value;
    assert ws[i].zIndex == ws[k].zIndex;
  }

  /**
   * Raising the one window with an id to max + 1 (or leaving it) keeps the
   * z-indices distinct when ids are unique and max bounds them.
   */
  lemma RaiseKeepsDistinct(ws: seq<WindowState>, r: seq<WindowState>, id: int, maxZIndex: int)
    requires UniqueIds(ws) && ZDistinct(ws) && ZBounded(ws, maxZIndex) && |r| == |ws|
    requires forall i :: 0 <= i < |ws| && ws[i].id != id ==> r[i].zIndex == ws[i].zIndex
    requires forall i :: 0 <= i < |ws| && ws[i].id == id ==>
      r[i].zIndex == ws[i].zIndex || r[i].zIndex == maxZIndex + 1
    ensures ZDistinct(r)
  {
    forall i, j | 0 <= i < j < |r| ensures r[i].zIndex != r[j].zIndex {
      if ws[i].id == id {
        assert ws[j].id != id;
      } else if ws[j].id == id {
        assert ws[i].id != id;
      }
    }
  }

  predicate HasHidden(ws: seq<WindowState>, id: int) {
    exists i :: 0 <= i < |ws| && ws[i].id == id && !ws[i].visible
  }

  /** Outside dock mode no window is minimized. */
  predicate DockConsistent(s: Registry) {
    !s.globalMinimized ==> forall i :: 0 <= i < |s.windows| ==> !s.windows[i].isMinimized
  }

  /** What every reachable registry satisfies, whichever copy of the handlers runs. */
  predicate Valid(s: Registry) {
    && SameFrame(s.windows, InitialWindows)
    && ZBounded(s.windows, s.maxZIndex)
    && ZDistinct(s.windows)
    && DockConsistent(s)
  }

  lemma ManifestIds()
    ensures |InitialWindows| == 5
    ensures forall i :: 0 <= i < |InitialWindows| ==> InitialWindows[i].id == i + 1
  {
    assert InitialWindows[0].id == 1 && InitialWindows[1].id == 2 && InitialWindows[2].id == 3;
    assert InitialWindows[3].id == 4 && InitialWindows[4].id == 5;
  }

  /** The manifest starts out valid: the z-indices 5, 2, 3, 4, 1 are distinct and at most 5. */
  lemma InitialValid(screen: Screen)
    ensures Valid(InitialRegistry(screen))
  {
  }

  /** A valid registry has one window per manifest id, the window with id k at index k - 1. */
  lemma ValidIds(s: Registry)
    requires Valid(s)
    ensures UniqueIds(s.windows)
    ensures forall i :: 0 <= i < |s.windows| ==> s.windows[i].id == i + 1
  {
    ManifestIds();
  }

  /** The first window with this id sits at index i. */
  predicate FirstWithId(ws: seq<WindowState>, id: int, i: int) {
    0 <= i < |ws| && ws[i].id == id && forall j :: 0 <= j < i ==> ws[j].id != id
  }

  /** Index of the first window with this id, if any. */
  function FindIndex(ws: seq<WindowState>, id: int): (r: Option<nat>)
    ensures r.None? <==> forall i :: 0 <= i < |ws| ==> ws[i].id != id
    ensures r.Some? ==> FirstWithId(ws, id, r.value)
  {
    if ws == [] then None
    else if ws[0].id == id then Some(0)
    else match FindIndex(ws[1..], id)
      case None => None
      case Some(k) => Some(k + 1)
  }

  /** `windows.find(w => w.id === id)`: the first window with this id. */
  function FindWindow(ws: seq<WindowState>, id: int): (r: Option<WindowState>)
    ensures r.None? <==> forall i :: 0 <= i < |ws| ==> ws[i].id != id
    ensures r.Some? ==> exists i :: FirstWithId(ws, id, i) && r.value == ws[i]
  {
    match FindIndex(ws, id)
    case None => None
    case Some(i) => Some(ws[i])
  }

  /** `find` with unique ids returns the one window carrying the id. */
  lemma FindUnique(ws: seq<WindowState>, id: int, i: int)
    requires UniqueIds(ws) && 0 <= i < |ws| && ws[i].id == id
    ensures FindWindow(ws, id) == Some(ws[i])
  {
  }

  /** The first window with this id exists and is minimized. */
  predicate IsMinimizedWindow(ws: seq<WindowState>, id: int) {
    exists i :: 0 <= i < |ws| && FirstWithId(ws, id, i) && ws[i].isMinimized
  }

  /** Whether the dragged window counts as minimized, read as `draggedWindow?.isMinimized`. */
  lemma FoundMinimized(ws: seq<WindowState>, id: int)
    ensures (FindWindow(ws, id).Some? && FindWindow(ws, id).value.isMinimized) <==> IsMinimizedWindow(ws, id)
  {
    var r := FindWindow(ws, id);
    if r.Some? {
      var i :| FirstWithId(ws, id, i) && r.value == ws[i];
      assert forall k :: FirstWithId(ws, id, k) ==> k == i;
    }
  }

  /** JavaScript `a || b` on numbers: 0 is falsy. */
  function OrElse(a: real, b: real): real {
    if a != 0.0 then a else b
  }

  /**
   * Size a restored window takes: 1.5 times its manifest size, or 750 x 600
   * for an id the manifest lacks.
   */
  function RestoredSize(id: int): (r: Size)
    ensures forall i :: 0 <= i < |InitialWindows| && InitialWindows[i].id == id ==>
      r == Size(RestoreScale * InitialWindows[i].width, RestoreScale * InitialWindows[i].height)
    ensures (forall i :: 0 <= i < |InitialWindows| ==> InitialWindows[i].id != id) ==>
      r == Size(750.0, 600.0)
  {
    var initialWindow := FindWindow(InitialWindows, id);
    ManifestIds();
    if initialWindow.Some? then
      Size(OrElse(initialWindow.value.width, FallbackWidth) * RestoreScale,
           OrElse(initialWindow.value.height, FallbackHeight) * RestoreScale)
    else
      Size(FallbackWidth * RestoreScale, FallbackHeight * RestoreScale)
  }

  /**
   * The restore applied on a successful drop: the windows with this id leave
   * the dock and take their restored size; nothing else changes.
   */
  function RestoreWindows(ws: seq<WindowState>, id: int): (r: seq<WindowState>)
    ensures SameFrame(r, ws)
    ensures forall i :: 0 <= i < |ws| && ws[i].id != id ==> r[i] == ws[i]
    ensures forall i :: 0 <= i < |ws| && ws[i].id == id ==>
      && !r[i].isMinimized
      && Size(r[i].width, r[i].height) == RestoredSize(id)
      && r[i].(isMinimized := ws[i].isMinimized, width := ws[i].width, height := ws[i].height) == ws[i]
  {
    UpdateWhere(ws, id, RestoreTo(RestoredSize(id)))
  }

  /** Squared distance from (x, y) to the centre of the screen. */
  function DistanceSquared(x: real, y: real, screen: Screen): (r: real)
    ensures r >= 0.0
  {
    var dx := x - screen.width / 2.0;
    var dy := y - screen.height / 2.0;
    dx * dx + dy * dy
  }

  /** `Math.sqrt(dx*dx + dy*dy) < radius`, for a positive radius. */
  predicate Within(x: real, y: real, screen: Screen, radius: real) {
    DistanceSquared(x, y, screen) < radius * radius
  }

  /** A drop restores only in dock mode, with the hint shown, inside the tight radius. */
  predicate RestoreTriggered(s: Registry, x: real, y: real) {
    s.globalMinimized && s.showExpandHint && Within(x, y, s.screenSize, RestoreRadius)
  }

  /** The shared operations keep a valid registry valid. */
  lemma SharedOpsPreserveValid(s: Registry, id: int, screen: Screen)
    requires Valid(s)
    ensures Valid(s.ToggleWindow(id))
    ensures Valid(s.CloseWindow(id))
    ensures Valid(s.HandleWindowFocus(id))
    ensures Valid(s.ToggleMinimizeAll())
    ensures Valid(s.HandleResize(screen))
  {
    ValidIds(s);
    RaiseKeepsDistinct(s.windows, s.ToggleWindow(id).windows, id, s.maxZIndex);
    RaiseKeepsDistinct(s.windows, s.HandleWindowFocus(id).windows, id, s.maxZIndex);
    var closed, docked := s.CloseWindow(id).windows, s.ToggleMinimizeAll().windows;
    assert forall i :: 0 <= i < |closed| ==> closed[i].zIndex == s.windows[i].zIndex;
    assert forall i :: 0 <= i < |docked| ==> docked[i].zIndex == s.windows[i].zIndex;
  }

  /**
   * A restore in dock mode keeps the registry valid: z-indices are untouched
   * and dock mode allows undocked windows.
   */
  lemma RestorePreservesValid(s: Registry, id: int, r: Registry)
    requires Valid(s) && s.globalMinimized
    requires r.windows == RestoreWindows(s.windows, id)
    requires r.maxZIndex == s.maxZIndex && r.globalMinimized
    ensures Valid(r)
  {
    assert forall i :: 0 <= i < |r.windows| ==> r.windows[i].zIndex == s.windows[i].zIndex;
  }

  /** Focusing the same window again keeps it strictly on top. */
  lemma FocusTwiceOnTop(s: Registry, id: int, i: int)
    requires Valid(s) && 0 <= i < |s.windows| && s.windows[i].id == id
    ensures var once := s.HandleWindowFocus(id);
      OnTop(once.windows, i) && OnTop(once.HandleWindowFocus(id).windows, i)
  {
    ValidIds(s);
    SharedOpsPreserveValid(s, id, s.screenSize);
    ValidIds(s.HandleWindowFocus(id));
  }

  /**
   * Showing two hidden windows one after the other: each lands strictly above
   * everything before it, and the first keeps its z-index when the second is
   * shown.
   */
  lemma ToggleTwoHiddenWindows(s: Registry, i: int, j: int)
    requires Valid(s) && 0 <= i < |s.windows| && 0 <= j < |s.windows| && i != j
    requires !s.windows[i].visible && !s.windows[j].visible
    ensures var a := s.ToggleWindow(s.windows[i].id);
      var b := a.ToggleWindow(s.windows[j].id);
      && a.windows[i].zIndex == s.maxZIndex + 1 && OnTop(a.windows, i)
      && b.windows[j].zIndex == s.maxZIndex + 2 && OnTop(b.windows, j)
      && b.windows[i].zIndex == a.windows[i].zIndex && b.windows[i].visible
  {
    ValidIds(s);
    var idI, idJ := s.windows[i].id, s.windows[j].id;
    assert HasHidden(s.windows, idI);
    var a := s.ToggleWindow(idI);
    assert a.windows[j] == s.windows[j];
    assert HasHidden(a.windows, idJ);
  }

  /**
   * Toggling dock mode twice returns the registry exactly when every window
   * already agreed with the mode (always the case outside dock mode).
   */
  lemma ToggleMinimizeAllTwice(s: Registry)
    requires forall i :: 0 <= i < |s.windows| ==> s.windows[i].isMinimized == s.globalMinimized
    ensures s.ToggleMinimizeAll().ToggleMinimizeAll() == s
  {
    var r := s.ToggleMinimizeAll().ToggleMinimizeAll();
    assert r.windows == s.windows;
  }

  /**
   * A window restored in dock mode is not put back by toggling twice: it is
   * docked again, so the involution holds only for uniform registries.
   */
  lemma ToggleMinimizeAllTwiceDocksRestored(s: Registry, i: int)
    requires s.globalMinimized && 0 <= i < |s.windows| && !s.windows[i].isMinimized
    ensures s.ToggleMinimizeAll().ToggleMinimizeAll().windows[i].isMinimized
  {
  }

  /** Handlers of one copy of the registry, as a step function. */
  datatype Event =
    | Toggle(id: int)
    | Close(id: int)
    | Focus(id: int)
    | MinimizeAll
    | DragMove(id: int, x: real, y: real)
    | DragEnd(id: int, x: real, y: real)
    | ScreenResize(screen: Screen)

  /** The registry after a sequence of handler calls. */
  function Run(step: (Registry, Event) -> Registry, s: Registry, events: seq<Event>): Registry
    decreases |events|
  {
    if events == [] then s else Run(step, step(s, events[0]), events[1..])
  }

  /** A property every step keeps holds after any sequence of steps. */
  lemma {:induction false} RunPreserves(step: (Registry, Event) -> Registry, inv: Registry -> bool,
                                        s: Registry, events: seq<Event>)
    requires forall t: Registry, e: Event :: inv(t) ==> inv(step(t, e))
    requires inv(s)
    ensures inv(Run(step, s, events))
    decreases |events|
  {
    if events != [] {
      RunPreserves(step, inv, step(s, events[0]), events[1..]);
    }
  }
}
