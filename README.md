# Desktop window manager of a portfolio site — Dafny model

The portfolio site shows its sections as draggable desktop windows. This
project models that window manager and proves properties about it.

The model has three layers:

- **Placement policy** (`window_positions.dfy`). This gives each window's default
  rectangle from its id, its size and the screen. On screens narrower than 768 px
  windows are centred horizontally and stacked by id. On wider screens each of
  the five ids has an anchor point, and the window is clamped into a 20 px margin
  box above the 80 px navigation bar. It also gives the dock slot, a 200 x 60
  box, of the minimized window at each list index.
- **Window registry** (`window_registry.dfy`, plus one file per variant). This is
  the list of five windows from the fixed manifest, with these state fields:
  - the running maximum z-index;
  - the "minimize all" dock mode;
  - the window being dragged;
  - the "release to enlarge" hint;
  - the screen size.

  The handlers toggle, close, focus, dock and undock windows. A drag of a docked
  window shows the hint within 800 px of the screen centre. A drop within 400 px
  restores the window at 1.5 times its manifest size. The code has two copies of
  the registry:
  - the `useWindowManager` hook (`use_window_manager.dfy`);
  - the page component the site renders (`main_surface.dfy`). This file also
    models the page's layout: which windows are rendered, where, and with which
    props.
- **Window components**. Both follow the pointer while the title bar is held,
  clamp the window inside the viewport (or above `maxY`), and report the window
  centre to their host:
  - the drag-only component the page uses (`drag_window.dfy`);
  - the drag-and-resize component (`resizable_drag_window.dfy`), which adds a
    bottom-right resize handle whose size is floored at a minimum and capped at
    the screen edge.

  Their shared geometry is in `drag_bounds.dfy`.

Modelling conventions:

- Pixel quantities are `real`.
- Distance tests `sqrt(dx² + dy²) < r` are written as `dx² + dy² < r²`, which is
  equivalent for the positive radii used.
- A React handler that issues several state updates is one atomic step on the
  registry value.
- State the code updates in place is a class, whose methods are proved against
  the pure step functions:
  - the registry hook's and the page's state cells;
  - each window component's position, size, gesture flags and refs.
- Mouse and touch events do the same arithmetic, so both are one abstract
  pointer event.
- The viewport size (`window.innerWidth`/`innerHeight`) is a parameter.

In the following places the code departs from the intended behaviour. The
model follows the code, and a lemma exhibits each departure:

- A wide-screen default rectangle should stay inside the margin box. It does
  only when the window fits. For a window wider than the box, the left margin
  wins and the right edge overflows (`WindowPositions.OversizedWindowOverflows`).
- Pressing "minimize all" a second time should undo the first press. It does
  only when every window already agrees with the dock mode
  (`WindowRegistry.ToggleMinimizeAllTwice`). A window restored while docked is
  docked again (`WindowRegistry.ToggleMinimizeAllTwiceDocksRestored`).
- The minimum size of the resizable window should be a floor. The screen cap
  is applied after the floor and wins. A 300 x 200 window whose corner is at
  x = 900 in a 1000 px viewport is held at 100 px wide, below the 300 px floor
  (`ResizableDragWindow.CapBeatsFloorScenario`).
- Dock mode should keep the windows in the dock, with one window taken out by
  dropping it at the centre. Nothing limits this to one window. From mount,
  show window 2, dock, and drag windows 1 and 2 in turn to the centre: both
  are out of the dock while dock mode stays on
  (`MainSurface.SeveralWindowsLeaveDock`, `MainSurface.MountAllowsSeveralUndocked`).
- A restored window should fit the screen. Its size is 1.5 times its manifest
  size, with no cap to the screen. Window 4 comes back at 900 x 675, and on a
  wide screen under 900 px it is laid out wider than the screen
  (`MainSurface.RestoredWindowOverflowsScreen`).
- The "release to enlarge" hint should belong to the current drag. In the page
  component it survives leaving and re-entering dock mode. A release can
  then restore a window whose last move was made outside dock mode
  (`MainSurface.HintSurvivesDockRoundTrip`).
- The comment at `src/components/common/main/Main.tsx:187` gives the restore
  zone as 200 px. The code tests 400 px (line 208), and the model uses 400 px.

The page component copies `getInitialPosition` and `getMinimizedPosition` inline
(`src/components/common/main/Main.tsx:51-100`). The copy is identical to
`src/utils/windowPositions.ts`, so both are modelled once, by
`WindowPositions.InitialPosition` and `WindowPositions.MinimizedPosition`.

## Model

| member | source | states |
|---|---|---|
| WindowPositions.InitialPosition | src/utils/windowPositions.ts:19-72 | narrow screen: width is min(window, screen - 40) and is one of the two; window horizontally centred; height kept; y is the lower of the by-id stack and the bound above the nav bar. Wide screen: size kept; x and y at least the 20 px margin; far edges inside the margin box whenever the window fits |
| WindowPositions.AnchorHonoured | src/utils/windowPositions.ts:42-71 | on a wide screen, when the clamp does not bind, the window is centred on its id's anchor |
| WindowPositions.OversizedWindowOverflows | src/utils/windowPositions.ts:62-65 | a 900 px window on an 800 px screen sits at the left margin and overflows the right one |
| WindowPositions.MinimizedPosition | src/utils/windowPositions.ts:74-81 | dock slot `index` is a 200 x 60 box at x = 10, y = 150 + 70 * index |
| WindowPositions.MinimizedSlotsDisjoint | src/utils/windowPositions.ts:74-81 | a later dock slot starts at least 10 px below the end of an earlier one |
| DragBounds.ConstrainPosition | src/components/layout/window/DragWindow.tsx:59-67 | the clamped corner is non-negative; within [0, bound] when the bound is non-negative; unchanged when already in bounds; each side's clamp case is exact, with the origin winning for an oversized window; `maxY` (when set and non-zero) replaces the viewport height |
| DragBounds.ConstrainIdempotent | src/components/layout/window/DragWindow.tsx:59-67 | clamping twice equals clamping once |
| DragBounds.GrabThenReleaseInPlace | src/components/layout/window/DragWindow.tsx:115-128 | for an in-bounds window, releasing at the grab pointer gives back the original corner |
| DragWindow.Controller.constructor | src/components/layout/window/DragWindow.tsx:31-41 | position from the initial props, size from the props or 500 x 300, not dragging, zero offset |
| DragWindow.Controller.Rerender | src/components/layout/window/DragWindow.tsx:53-57 | position and size reset to the props exactly when x, y, width, height or the minimized flag changed; gesture state kept |
| DragWindow.Controller.Press | src/components/layout/window/DragWindow.tsx:164-179 | a title-bar press records the pointer-minus-corner offset, starts dragging, and calls onFocus then onDragStart, each only if supplied; any other press changes nothing |
| DragWindow.Controller.Move | src/components/layout/window/DragWindow.tsx:82-96 | while dragging, the corner is the clamped pointer-minus-offset and the new centre goes to onDragMove; otherwise nothing moves and nothing is called |
| DragWindow.Controller.Release | src/components/layout/window/DragWindow.tsx:115-128 | a drag commits the clamped corner and reports the centre to onDragEnd; the component always ends idle |
| DragWindow.ClickTitleBar | src/components/layout/window/DragWindow.tsx:115-128 | press and release at one pointer on an in-bounds window leave it in place and report its own centre |
| ResizableDragWindow.ResizedSize | src/components/layout/DragWindow.tsx:88-108 | the new size never exceeds the cap (screen edge or `maxY` minus the corner); it is at least the floor whenever the cap allows; it equals start + delta when in range, and the floor when below it; when start + delta or the floor is above the cap, the result is the cap, even below the floor |
| ResizableDragWindow.CapBeatsFloorScenario | src/components/layout/DragWindow.tsx:95-104 | a 300 x 200 window with its corner at (900, 0) in a 1000 x 800 viewport is resized to 100 x 200, below the 300 px floor |
| ResizableDragWindow.ResizeBelowFloorScenario | src/components/layout/DragWindow.tsx:95-96 | shrinking a 300 x 200 window by 50 px each way leaves it at the 300 x 200 default floor |
| ResizableDragWindow.Controller.constructor | src/components/layout/DragWindow.tsx:33-47 | position and size from the props (defaults 500 x 300), idle, zeroed refs |
| ResizableDragWindow.Controller.Rerender | src/components/layout/DragWindow.tsx:56-60 | same reset rule as the drag-only component |
| ResizableDragWindow.Controller.Press | src/components/layout/DragWindow.tsx:185-196 | title bar: grab offset, dragging, onFocus then onDragStart. Shown resize handle (lines 75-86, 235-241): records pointer and size, resizing, onFocus only. Elsewhere, or on the hidden handle of a minimized window: nothing |
| ResizableDragWindow.Controller.Move | src/components/layout/DragWindow.tsx:127-142 | dragging moves only the clamped corner and reports the centre; resizing changes only the size, to `ResizedSize`; idle changes nothing |
| ResizableDragWindow.Controller.Release | src/components/layout/DragWindow.tsx:144-158 | a drag commits the clamped corner and reports the centre; a resize keeps its last size; both end idle |
| ResizableDragWindow.ResizeGesture | src/components/layout/DragWindow.tsx:75-112 | a press-move-release on the handle keeps the corner, ends idle, and ends inside the cap and above the floor when the cap allows |
| WindowRegistry.Registry.ToggleWindow | src/components/common/main/Main.tsx:112-126 | a hidden window with the id is shown at z = max + 1 and the maximum grows by one; a shown one is only hidden; other windows and fields unchanged; keeps z-indices bounded by the maximum |
| WindowRegistry.Registry.CloseWindow | src/components/common/main/Main.tsx:128-141 | in dock mode an undocked window is docked and stays visible; otherwise it is hidden; nothing else changes |
| WindowRegistry.Registry.HandleWindowFocus | src/components/common/main/Main.tsx:144-152 | the maximum grows by one and the window takes it; with unique ids and bounded z-indices the window ends strictly above every other |
| WindowRegistry.Registry.ToggleMinimizeAll | src/components/common/main/Main.tsx:154-162 | dock mode flips and every window's minimized flag equals the new mode; nothing else about any window changes |
| WindowRegistry.Registry.HandleResize | src/components/common/main/Main.tsx:103-110 | records the new screen size; nothing else changes |
| WindowRegistry.ManifestIds | src/components/common/main/Main.tsx:26-32 | the manifest has five windows and the one at index i has id i + 1 |
| WindowRegistry.InitialValid | src/components/common/main/Main.tsx:41-49 | the registry at mount is valid: manifest frame, the z-indices distinct and at most 5, not docked |
| WindowRegistry.ValidIds | src/components/common/main/Main.tsx:26-32 | in a valid registry ids are unique and window k sits at index k - 1 |
| WindowRegistry.FindIndex | src/components/common/main/Main.tsx:170 | `find`: absent exactly when no window has the id; otherwise the first index carrying it |
| WindowRegistry.FindWindow | src/components/common/main/Main.tsx:170 | absent exactly when no window has the id; otherwise the first window carrying it |
| WindowRegistry.FindUnique | src/components/common/main/Main.tsx:212 | with unique ids, `find` returns the one window carrying the id |
| WindowRegistry.FoundMinimized | src/components/common/main/Main.tsx:170-172 | `draggedWindow?.isMinimized` is true exactly when the first window with the id exists and is docked |
| WindowRegistry.RestoredSize | src/components/common/main/Main.tsx:212-214 | 1.5 times the manifest size of the id; 750 x 600 for an id the manifest lacks |
| WindowRegistry.RestoreWindows | src/components/common/main/Main.tsx:209-225 | windows with the id leave the dock at their restored size; nothing else about any window changes |
| WindowRegistry.RestorePreservesValid | src/components/common/main/Main.tsx:209-225 | a restore in dock mode keeps the registry valid, z-indices included |
| WindowRegistry.DistanceSquared | src/components/common/main/Main.tsx:174-178 | the squared distance to the screen centre is non-negative |
| WindowRegistry.SharedOpsPreserveValid | src/components/common/main/Main.tsx:112-162 | toggle, close, focus, minimize-all and resize each keep the manifest frame, the z-index bound, distinct z-indices and dock consistency |
| WindowRegistry.RaiseKeepsDistinct | src/components/common/main/Main.tsx:112-152 | raising one window to max + 1, with every other z-index kept, keeps the z-indices distinct |
| WindowRegistry.TopVisible | src/components/common/main/Main.tsx:290 | a shown window with the largest z-index: absent exactly when no window is shown; otherwise a shown window whose z-index is at least every shown window's |
| WindowRegistry.TopUnique | src/components/common/main/Main.tsx:290 | with distinct z-indices, a shown window at the largest shown z-index is the one `TopVisible` picks |
| WindowRegistry.FocusTwiceOnTop | src/components/common/main/Main.tsx:144-152 | a focused window is strictly on top, and stays so when focused again |
| WindowRegistry.ToggleTwoHiddenWindows | src/components/common/main/Main.tsx:112-126 | showing two hidden windows in turn puts each strictly on top at max + 1 then max + 2; the first keeps its z-index |
| WindowRegistry.ToggleMinimizeAllTwice | src/components/common/main/Main.tsx:154-162 | minimize-all twice is the identity when every window agrees with the dock mode |
| WindowRegistry.ToggleMinimizeAllTwiceDocksRestored | src/components/common/main/Main.tsx:154-162 | a window restored in dock mode is docked again by minimize-all twice |
| WindowRegistry.RunPreserves | src/components/common/main/Main.tsx:41-49 | an invariant every handler keeps holds after any sequence of handler calls from the mounted state |
| UseWindowManager.DragMoved | src/hooks/useWindowManager.ts:90-111 | outside dock mode: the hint is cleared, nothing else changes. In dock mode: the window becomes the dragged one; if it is docked, the hint shows exactly within 800 px of the centre; if not docked, the hint is left as it was |
| UseWindowManager.DragEnded | src/hooks/useWindowManager.ts:113-139 | the dragged window is forgotten; the window is restored exactly in dock mode with the hint shown and within 400 px; the hint is cleared only in dock mode |
| UseWindowManager.StepPreservesValid | src/hooks/useWindowManager.ts:45-139 | every handler of the hook keeps the registry valid |
| UseWindowManager.ReachableValid | src/hooks/useWindowManager.ts:22-31 | every registry reachable from mount by the hook's handlers is valid: manifest frame, bounded and distinct z-indices, dock consistency |
| UseWindowManager.ReachableTopUnique | src/hooks/useWindowManager.ts:45-81 | in every registry reachable through the hook, at most one shown window has the largest shown z-index |
| UseWindowManager.StaleHint | src/hooks/useWindowManager.ts:108-138 | dock, drag window 1 to the centre, undock, release: the hint stays up with no dragged window |
| UseWindowManager.ReleaseWithoutMoveRestores | src/hooks/useWindowManager.ts:113-139 | on an 800 x 600 screen: show window 2, dock, drag window 1 to the centre, undock, release, re-dock. The hint is still up, and clicking docked window 2's title bar without moving, which reports its dock-slot centre (110, 250), restores it at 675 x 525 |
| UseWindowManager.WindowManager.constructor | src/hooks/useWindowManager.ts:22-31 | the state cells hold the mounted registry, which is valid |
| UseWindowManager.WindowManager.ToggleWindow | src/hooks/useWindowManager.ts:45-59 | updates the cells to the registry's `ToggleWindow` and keeps them valid |
| UseWindowManager.WindowManager.CloseWindow | src/hooks/useWindowManager.ts:61-73 | updates the cells to `CloseWindow`, keeping validity |
| UseWindowManager.WindowManager.HandleWindowFocus | src/hooks/useWindowManager.ts:75-81 | updates the cells to `HandleWindowFocus`, keeping validity |
| UseWindowManager.WindowManager.ToggleMinimizeAll | src/hooks/useWindowManager.ts:83-88 | updates the cells to `ToggleMinimizeAll`, keeping validity |
| UseWindowManager.WindowManager.HandleDragMove | src/hooks/useWindowManager.ts:90-111 | updates the cells to the hook's `DragMoved`, keeping validity |
| UseWindowManager.WindowManager.HandleDragEnd | src/hooks/useWindowManager.ts:113-139 | updates the cells to the hook's `DragEnded`, keeping validity |
| UseWindowManager.WindowManager.HandleResize | src/hooks/useWindowManager.ts:33-43 | records the new screen size, keeping validity |
| MainSurface.DragMoved | src/components/common/main/Main.tsx:164-193 | outside dock mode nothing changes; in dock mode the window becomes the dragged one and the hint shows exactly when it is docked and within 800 px of the centre |
| MainSurface.DragEnded | src/components/common/main/Main.tsx:197-229 | the window is restored exactly in dock mode with the hint shown and within 400 px; the hint and the dragged window are always cleared |
| MainSurface.StepPreservesValid | src/components/common/main/Main.tsx:112-229 | every handler of the page keeps the registry valid and never leaves the hint up without a dragged window |
| MainSurface.ReachableValid | src/components/common/main/Main.tsx:41-49 | every registry reachable from mount is valid (manifest frame, bounded and distinct z-indices, dock consistency) and shows the hint only with a dragged window |
| MainSurface.ReachableTopUnique | src/components/common/main/Main.tsx:112-162 | in every registry reachable from mount, at most one shown window has the largest shown z-index |
| MainSurface.HintNeedsMove | src/components/common/main/Main.tsx:164-229 | from a registry with the hint down, no sequence of non-move handler calls raises it |
| MainSurface.NoRestoreWithoutMove | src/components/common/main/Main.tsx:197-229 | after a release, a release with no drag move in between restores nothing |
| MainSurface.QuietRun | src/components/common/main/Main.tsx:112-229 | handler calls with no drag move and no minimize-all keep the dock mode and never raise the hint |
| MainSurface.RestoreNeedsHintingMove | src/components/common/main/Main.tsx:164-229 | if a release restores after a drag move followed only by calls that are neither moves nor minimize-all, that move was made in dock mode, of a docked window, within 800 px of the centre |
| MainSurface.HintSurvivesDockRoundTrip | src/components/common/main/Main.tsx:154-229 | dock, drag window 1 to the centre, undock, move it (no effect), re-dock, release at the centre: the restore guard fires and window 1 leaves the dock |
| MainSurface.DragToCentreRestores | src/components/common/main/Main.tsx:164-229 | in dock mode, dragging any docked window to the centre and releasing it there undocks it, keeps its visibility, the dock mode and validity, and changes no other window |
| MainSurface.ShowSecondThenDock | src/components/common/main/Main.tsx:112-162 | from window 1 shown and window 2 hidden, showing window 2 and docking gives a valid registry in dock mode with both shown and docked |
| MainSurface.SeveralWindowsLeaveDock | src/components/common/main/Main.tsx:112-229 | from there, dragging windows 1 and 2 in turn to the centre leaves both shown and out of the dock while dock mode stays on |
| MainSurface.MountAllowsSeveralUndocked | src/components/common/main/Main.tsx:26-49 | the registry at mount is valid, not docked, with window 1 shown and window 2 hidden |
| MainSurface.RestoreAtCentreScenario | src/components/common/main/Main.tsx:164-229 | in dock mode, dragging window 1 to the centre shows the hint, and releasing there restores it at 750 x 600 |
| MainSurface.ReleaseAt500Scenario | src/components/common/main/Main.tsx:181-208 | 500 px from the centre the hint shows (under 800) but the release does not restore (not under 400) |
| MainSurface.Layout | src/components/common/main/Main.tsx:272-298 | one entry per window; rendered exactly when visible; a docked window gets the dock slot of its list index, any other its default rectangle; `maxY` is the screen height minus the nav bar |
| MainSurface.DockSlotFollowsManifest | src/components/common/main/Main.tsx:272-275 | in a valid registry, docked window k is laid out at y = 150 + 70 (k - 1), whatever else is hidden |
| MainSurface.DockSlotsDisjoint | src/components/common/main/Main.tsx:272-275 | two docked windows are laid out in non-overlapping slots |
| MainSurface.HomePlacementInDragBounds | src/components/common/main/Main.tsx:272-285 | a wide-screen, fitting, undocked window is laid out inside the drag window's clamp, so the first clamp leaves it in place |
| MainSurface.RestoredWindowOverflowsScreen | src/components/common/main/Main.tsx:212-214 | restoring window 4 gives it 900 x 675 with no cap to the screen, so on a wide screen under 900 px it is laid out wider than the screen |
| MainSurface.MountLayoutOnFallbackScreen | src/components/common/main/Main.tsx:46-49 | on the 1200 x 800 screen assumed without a browser window, mount lays out only window 1, at (350, 280), 500 x 400, with `maxY` 720 |
| MainSurface.Surface.constructor | src/components/common/main/Main.tsx:41-49 | the state cells hold the mounted registry, which is valid |
| MainSurface.Surface.ToggleWindow | src/components/common/main/Main.tsx:112-126 | updates the cells to `ToggleWindow`, keeping validity |
| MainSurface.Surface.CloseWindow | src/components/common/main/Main.tsx:128-141 | updates the cells to `CloseWindow`, keeping validity |
| MainSurface.Surface.HandleWindowFocus | src/components/common/main/Main.tsx:144-152 | updates the cells to `HandleWindowFocus`, keeping validity |
| MainSurface.Surface.ToggleMinimizeAll | src/components/common/main/Main.tsx:154-162 | updates the cells to `ToggleMinimizeAll`, keeping validity |
| MainSurface.Surface.HandleDragMove | src/components/common/main/Main.tsx:164-193 | updates the cells to the page's `DragMoved`, keeping validity |
| MainSurface.Surface.HandleDragEnd | src/components/common/main/Main.tsx:197-229 | updates the cells to the page's `DragEnded`, keeping validity |
| MainSurface.Surface.HandleResize | src/components/common/main/Main.tsx:103-110 | records the new screen size, keeping validity |

## Left out

- Rendering, CSS classes, transitions, the 10 ms open animation timer, the `dragging` class on the document body, and the `zIndex` prop: these are presentation only and do not feed back into state.
- The close button and `onClose`: the button only calls the registry's `CloseWindow`, which is modelled; the components do nothing else with it.
- The navigation bar, the custom cursor and the section contents: these are outside the window manager.
- Browser I/O: `window.innerWidth`/`innerHeight` are parameters, and the resize listener's registration is not modelled, only its effect (`HandleResize`).
- The hint outline's own size (`Main.tsx:249-269`): it is display only.
- Floating point: pixels are exact reals. `sqrt(d) < r` is modelled as `d < r²`, which is exact on reals for the positive radii the code uses.
- React batching and closure staleness: each handler is one atomic step on the state it reads. In the code, `toggleWindow` calls `setMaxZIndex` inside the `setWindows` updater; double invocation of that updater is not modelled.
- `hasBeenDraggedRef` in the drag-only component: it is written but never read.
- ResizableDragWindow.Controller.Press: does not model a press on the title bar during a resize, or on the handle during a drag. The code would then set both gesture flags and move and resize together; the model's single mode excludes that by precondition.
- Touch events: their arithmetic is the mouse events' arithmetic and they share the abstract pointer. A touch end without a changed touch (`window/DragWindow.tsx:131`) only ends the drag; this is not modelled separately.
- Registry ids other than 1 to 5: every operation accepts any id. Layout and restore lemmas that name a slot or a size assume a valid registry, whose ids are exactly 1 to 5.

## Findings

| source | as written | input that shows it | evidently intended | confidence | as-written member | corrected member |
|---|---|---|---|---|---|---|
| src/hooks/useWindowManager.ts:102-138 | a release clears the hint only in dock mode with the hint shown (line 137). A move clears it outside dock mode (lines 108-110), and in dock mode only when a docked window is dragged 800 px or more from the centre (lines 102-106) | on an 800 x 600 screen: show window 2, dock, drag window 1 to the centre, undock, release. The hint stays up with no dragged window. Re-dock and click window 2's title bar without moving: the release reports its dock-slot centre (110, 250), within 400 px of the centre, and window 2 is restored | a release always clears the hint, so only a drag move after the last release can lead to a restore (as the page component does) | medium, not executed | UseWindowManager.ReleaseWithoutMoveRestores | MainSurface.NoRestoreWithoutMove |

The hook is not mounted by any page in this repository:
`src/pages/index.tsx:4` imports the page component and line 22 renders it,
and the page component keeps its own state. The hook's defect therefore
shows only in code that would mount the hook.
