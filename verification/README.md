# rwl: a verified model of the compositor core

rwl is a tiling Wayland compositor.  This project models the state it keeps while it runs (monitors, tag
histories, the tiling order, the focus stack, the per-window cells and the stacking space), every
operation on that state, and four smaller protocols around it, and proves what those promise over whole
runs.

## How the model is laid out

| file | what it holds |
|---|---|
| `Sequences`, `Tags`, `History` | lists without duplicates, 32-bit tag masks and the search for the next occupied tag, the bounded tag history |
| `Monitors`, `Windows`, `Desktop` | the per-output record and its class, the per-window cell and the queries over window lists, the stacking space and the five placement loops of `arrange` |
| `Compositor` | the whole state as a value, what each operation makes of it, events and runs |
| `Rwl` | the same core as a class that updates its fields in place, loop by loop; every method is tied to the function of `Compositor` for it, and `Handle` ties one event to one step and keeps the invariant |
| `Frames`, `Arranging`, `Stacking`, `Invariant`, `Reachability` | what arranging leaves alone, what it maps and in which order, when the focused tiled window ends on top, and the invariant of every reachable state |
| `Strays`, `Screen`, `Recording` | over whole runs: which windows the focus stack holds and lacks, what the space holds, and what every monitor's tag history holds |
| `Scratchpads`, `Moving` | what toggling a scratchpad achieves and where a hidden one is kept, where a drag leaves a window and whether it leaves it tiled |
| `Hotplug`, `Replug`, `FloatingWindows`, `Focusing`, `Actions`, `Lifecycle`, `Status` | identity and layout memory across hotplug, the time without any output, floating windows coming back, focus cycling and zoom, what the other actions and the clients' events achieve, the status lines |
| `PageFlip`, `Connectors` | the page-flip protocol of the DRM backend and the CRTC assignment it relies on |
| `Pointer`, `Resize`, `Keys`, `Screencopy` | the pointer's bounding box, resize drags, key interception, the capture queue and its row copy |

A run is any finite sequence of `Compositor.Event`s from the empty start-up state: user actions, scratchpad
toggles among them, pointer motion and focus, interactive moves, locking, urgency, layer-shell zones, Wayland
and X11 windows appearing, placing themselves, committing and going, and outputs being plugged and unplugged.
Events a library would never deliver in a state (a destroy for an unknown window, a plug of an output already
there) change nothing.  The pointer may focus anything that can be under it, override-redirect windows included.

## Modelling decisions

- A `u32` tag mask is the set of the positions of its one bits; `tag_count` is between 1 and 31, and
  `leading_zeros` is the largest element.  Masks given by a user may have any bits.
- A window handle is an identifier.  Its `WindowState`, which every clone of the handle shares in the
  program, is one entry of a map, so a write is seen by every list that holds the handle.
- `f64` is `real`; `as i32` truncates toward zero.  `i32` geometry and counters are unbounded integers.
- The configuration is fixed during a run, except in `Monitors.RestoreInRange`, which holds for any.  It
  carries the per-tag layout rules, both fixed and count-based.
- The tiling algorithms are a function of the monitor and the size factors, assumed to return one
  rectangle per tiled window.
- The space is a list of placed windows from the bottom up, with the three operations rwl uses on it as
  smithay defines them for elements of equal z-index (`smithay/src/desktop/space/mod.rs:102-254`).
- Layer-shell clients are seen through the zone they leave free, which an event may change at any time.
- Which rules match a window, its parent, its fixed size and its buffer size are inputs of the events.
- Page flips: the driver completes only flips that are in flight, and discards the flips of a device when
  that device is re-activated.  How a rendering ends (nothing queued, queued, refused; asking for another
  one or not) is arbitrary.

## What is false, and exactly when

- The focus stack is not always a permutation of the managed windows, for two reasons.  The pointer can hand an
  X11 override-redirect window to `focus_window`, by focusing it or by starting to move it, which puts it in the
  stack, and its unmap does not take it out again (`Strays.PopupOutlivesUnmap`, and `Strays.StrayWitness` for a
  run of three events).  And hiding a scratchpad takes it out of the stack, though it stays managed.
  `Strays.StepStrays` and `Strays.StepAbsent` say exactly how every event changes either, and
  `Strays.ReachablePermutation` that without both the stack is a permutation in every reachable state.  The
  invariant of `Reachability.ReachableInv` holds in any case: a stray is on no tag and never focused.
- A managed window that is missing from the stack is on no tag, but for one family of events: a commit whose
  rules give tags to a hidden scratchpad, as they do when its parent has changed.  `focused_window`, which walks
  the stack, cannot find it then.  `Scratchpads.OnNoTagIff` says that nothing else ends it, and
  `Scratchpads.ReachableOnNoTag` what holds over runs without.
- A scratchpad that is shown is not always focused: it stays assigned to its monitor while it takes the tags of
  the selected one.  `Scratchpads.ShownIsFocusedIff` gives the condition.
- The focused tiled window is not always on top of the other tiled ones, not even in monocle: a window later in
  tiling order that was off the screen goes above it, and if it changes place it is not raised at all.
  `Stacking.FocusedOnTopIff` gives the condition.
- A drag does not always restore the kind of a tiled window: a second start during the drag, or losing the drag,
  leaves it floating (`Moving.SecondStartSticks`).
- The space does not always hold only managed windows and popups: a window that closes while it is dragged is
  put back by the next motion (`Moving.ClosedIsDraggedOn`), until smithay's periodic refresh of the space,
  which is not part of this model, drops it.  `Screen.NoGhostsIff` says that nothing else does this.
- Queueing while a flip is in flight is possible: a resume renders twice every output its rescan sets up.
  `PageFlip.ResumeFaults` says exactly which resumes queue twice.  The rescan does not look at whether a
  connector already drives an output, so nothing needs to have been plugged: `Connectors.ClaimedAgainIff`
  says when a connector is claimed a second time.  `Connectors.ResumeSafeBeforehand` gives the condition that
  can be checked before the resume, every CRTC of every usable connector driving an output, and
  `Connectors.FaultExample` a run that goes wrong.  Without such a resume `PageFlip.FlipsNeverOverlap` holds
  over every run.
- A screencopy frame is not always answered once: one created for an output that is gone, or has no mode, is
  failed at its creation and again by its copy.  `Screencopy.AnsweredOnceIff` gives the condition.
- A window whose tags are hidden is not always unmapped: an X11 window that configures itself while it floats
  is mapped until the next arrangement (`Screen.ConfigureMapsHidden`).
- Unplugging the last monitor and plugging one later does not restore what was visible: every window takes the
  tags the monitor showed, while the new one shows tag 1.  `Replug.LastMonitorCollapses` says exactly which
  windows are visible, whatever happens in between.
- The tag history does not always hold the tagsets left: a view of no configured tag is recorded and not left,
  and focusing an urgent window leaves without recording (`Recording.RecordedIsLeftIff`,
  `Recording.UrgentIsNotRecorded`).
- Zooming twice with the master focused is not always the identity: the candidates of `zoom` include
  fullscreen windows, though it refuses to act on a focused one.  `Focusing.ZoomTwice` gives the condition.
- A drag compounds its motions if it was begun in columns, or with no monitor, and is continued in a layout
  with a master split.  `Resize.StartAnchors` says when a drag is anchored, and `Resize.LastMotionDecides`
  and `Resize.UnanchoredCompounds` that this is exactly when the last motion decides.
- Key releases forwarded by the filter do not always follow their presses.  A release under the native locker,
  one without symbol, and the release of every pressed key on unlocking and on resuming are made without regard
  to the press, and leave the key in `intercepted_keys`: the next time it is pressed, its release is swallowed.
  `Keys.ReleaseFitsIff` says exactly which releases fit, over every stream, `Keys.InterceptedExactly` what the
  set holds, `Keys.StaleKeySticks` what a stale key costs, and `Keys.LockLeavesStale` that every key typed into
  the locker becomes one.
- After `arrange`, a window is placed by every monitor that shows one of its tags, whatever monitor it is
  assigned to; the mapping and stacking theorems are stated accordingly.
- Retagging the focused window with `follow` on does not always keep it focused: a window ahead of it in
  the focus stack may become visible with it.  `Actions.TagRetags` gives the condition.
- The pointer is documented as clamped to the union of the monitors; it is clamped to their bounding box,
  far edges included.  `Pointer.ClampedStaysOnMonitors` says exactly when it stays on a monitor.

## Model

| member | source | states |
|---|---|---|
| `Tags.NextOccupiedIsNearest` | src/monitor.rs:252-266 | the search succeeds exactly when a configured tag is occupied, and returns the single tag at the smallest cyclic distance of at least one from the highest active tag |
| `Tags.NextOccupiedRoundTrip` | src/monitor.rs:252-266 | from an occupied tag, searching in one direction and then in the other ends where it started |
| `Monitors.ViewNextOccupiedReturns` | src/monitor.rs:219-266 | the same through `view` on a monitor, per-tag layouts included |
| `History.HistoryRefines` | src/state.rs:2114-2128 | after any sequence of calls the bounded history is the last 16 entries of the unbounded one with only each mask's latest occurrence kept |
| `History.HistoryBounded` | src/state.rs:2114-2128 | so it never holds more than 16 masks, and none twice |
| `RwlCore.Rwl.UpdateTagHistory` | src/state.rs:2114-2128 | the in-place update records the tags left exactly when they differ from the target, and changes nothing else |
| `Monitors.ViewTags` | src/monitor.rs:219-228 | viewing a mask with a configured tag shows exactly its configured tags, any other changes nothing; both slots stay nonzero and within the mask |
| `Monitors.ToggleViewTags` | src/monitor.rs:231-237 | toggling never leaves a slot empty or outside the mask |
| `Monitors.ViewThenPrev` | src/monitor.rs:219-244 | after a switch, `view_prev` shows the tags that were left and keeps the others for the next one |
| `Monitors.SetLayoutLayouts` | src/monitor.rs:196-216 | choosing a layout keeps both slots and every per-tag override in range |
| `Monitors.ViewLayouts` | src/features/windows/pertag_layouts.rs:44-61 | so does a view with the per-tag layout it brings |
| `Monitors.ViewPrevLayouts` | src/monitor.rs:240-244 | so does going back |
| `Monitors.RestoreInRange` | src/monitor.rs:129-147 | whatever was remembered under whatever configuration, every restored layout index is in range and there is one override slot per tag |
| `Monitors.RestoreIsExact` | src/monitor.rs:113-147 | under an unchanged configuration a restore gives back mfact, nmaster, both layout slots, the active one and the overrides |
| `Monitors.Monitor.View` | src/monitor.rs:219-228 | the record updated in place becomes what `view` makes of it |
| `Monitors.Monitor.SetLayout` | src/monitor.rs:196-216 | likewise for a chosen or toggled layout, which pins it to a single shown tag |
| `Monitors.Monitor.ApplyDynamic` | src/features/windows/pertag_layouts.rs:81-96 | likewise for the layout chosen by the number of tiled windows, unless the tag is pinned |
| `Monitors.Monitor.Restore` | src/monitor.rs:129-147 | the clamping loops give back the restored record |
| `Desktop.UnmapElem` | smithay/src/desktop/space/mod.rs:247-254 | afterwards the window is nowhere, and every other window's place and the order of the others are unchanged |
| `Desktop.MapElement` | smithay/src/desktop/space/mod.rs:102-120 | the window ends at the top at the given location, the others keep place and order |
| `Desktop.RelocateElement` | smithay/src/desktop/space/mod.rs:235-245 | a mapped window moves, an unmapped one stays unmapped, and the order never changes |
| `Desktop.PassMaps` | src/state.rs:1548-1772 | a placement loop maps every window its conditions select, whatever it did for the others of its list |
| `Desktop.HidePassUnmaps` | src/state.rs:1449-1490 | the hiding loop leaves none of its list mapped |
| `Desktop.PassRemembers` | src/state.rs:1449-1707 | no loop that handles a floating window forgets or changes the location it has, or had when it was hidden |
| `Desktop.PassRaises` | src/state.rs:1709-1772 | the fullscreen and scratchpad loops lift their whole list, in list order, above everything else |
| `Desktop.FloatPassRaises` | src/state.rs:1635-1707 | the floating loop does so with exactly the windows that are not scratchpads |
| `Arranging.ArrangeAllShowsExactly` | src/state.rs:1836-1856 | from any state, with a monitor: a managed window none of whose tags is shown ends unmapped, one that is shown and floating, fullscreen or past its rules ends mapped |
| `Arranging.ArrangeStacks` | src/state.rs:1548-1772 | the order after `arrange(i)` is everything else, then the floating, then the fullscreen, then the scratchpad windows, the last three in tiling order; every tiled window is among the first, ordered there as the tiling loop leaves it |
| `Arranging.ArrangeOrders` | src/state.rs:1548-1772 | tiled below floating below fullscreen below scratchpads, whatever the order was before |
| `Stacking.TilePassLifts` | src/state.rs:1548-1632 | the tiling loop lifts exactly the windows that are off the screen, and in monocle the focused one if it is in place already, in tiling order, and leaves the order of everything below alone |
| `Stacking.FocusedOnTopIff` | src/state.rs:1548-1632 | when the focused tiled window ends on top of the other tiled ones: if it is itself lifted, exactly when no window later in tiling order was off the screen; if not, exactly when none was and it was on top before |
| `Arranging.SettledReturns` | src/state.rs:1449-1466 | a floating window whose tags are shown again is mapped at exactly the location it had when it was hidden |
| `Frames.ArrangeFramed` | src/state.rs:1378-1787 | arranging changes nothing of the lists, the selection, the histories and the memory, nothing of a monitor but layout slot, work area and scroll column, and nothing of a cell but saved location, pending geometry and activation |
| `Frames.FocusWindowFramed` | src/state.rs:1284-1361 | focusing additionally changes only the focus stack, the selected monitor and urgency |
| `Invariant.InvArrangeAll` | src/state.rs:1836-1856 | arranging keeps the invariant |
| `Invariant.InvFocus` | src/state.rs:1284-1361 | focusing a window, managed or not, in the stack already or not, leaves the stack without duplicates, with that window in front and strays on no tag, and the selection a valid index |
| `Invariant.InvAct` | src/actions.rs:108-458 | every modelled user action keeps the invariant, scratchpad toggles included |
| `Invariant.InvZoom` | src/actions.rs:50-101 | in particular `zoom`, which reorders the windows |
| `Invariant.InvTagMon` | src/actions.rs:704-719 | and sending a window to another monitor, which rewrites its tags and index |
| `Invariant.InvScratches` | src/features/windows/scratchpad.rs:24-111 | and the three scratchpad toggles, which take a window out of the focus stack |
| `Reachability.InvNewToplevel` | src/handlers/xdg_shell.rs:22-86 | a new toplevel keeps it |
| `Reachability.InvToplevelDestroyed` | src/handlers/xdg_shell.rs:191-290 | a destroyed one too |
| `Reachability.InvMapX11` | src/handlers/xwayland.rs:57-113 | a mapped X11 window too, centred or not |
| `Invariant.InvFocusHeld` | src/state.rs:1284-1361 | so does focusing any window there is, managed, in the stack or override-redirect |
| `Reachability.InvUnmapX11` | src/handlers/xwayland.rs:137-178 | so does unmapping one, managed or override-redirect |
| `Reachability.InvDisconnected` | src/handlers/xwayland.rs:369-402 | and the end of XWayland, which takes every X11 window at once |
| `Reachability.FoldRulesMasked` | src/state.rs:1143-1172 | the view jump asked for by any list of matching rules lies within the tag mask |
| `Reachability.InvMatched` | src/state.rs:1142-1282 | applying any list of rules keeps the invariant, an out-of-range monitor and tags outside the mask included |
| `Reachability.InvBufferCommit` | src/handlers/compositor.rs:225-336 | so does the first buffer, with its late float decision and centring |
| `Reachability.InvOutputAdded` | src/handlers/output.rs:19-95 | so does a new output, remembered or not |
| `Reachability.InvOutputRemoved` | src/handlers/output.rs:140-211 | so does a removed one |
| `Reachability.InvStep` | src/actions.rs:108-458 | every event keeps the invariant: the pointer focusing an override-redirect window, scratchpad toggles and interactive moves included |
| `Reachability.ReachableInv` | src/state.rs:2081-2128 | in every reachable state: one history per monitor, selection and window indices below max(1, monitors), nonempty tagset slots within the mask, layout indices in range, window tags within the mask, neither window list nor focus stack with a duplicate, and whatever is in the stack and not managed an X11 window on no tag |
| `Strays.PermutedIsPermutation` | src/state.rs:1284-1361 | under that invariant, no stray in the stack and no managed window missing from it means exactly that it is a permutation of the managed windows |
| `Strays.FocusKeepsPermutation` | src/state.rs:1284-1338 | focusing keeps it a permutation if and only if the window is managed |
| `Strays.StepStrays` | src/handlers/xwayland.rs:137-167 | exactly how every event changes the strays: the pointer focusing, or starting to move, an override-redirect window adds it, the end of XWayland removes all, nothing else has any effect |
| `Strays.StepAbsent` | src/features/windows/scratchpad.rs:24-72 | exactly which managed windows are missing from the stack after every event: the scratchpad it hides, and those missing before that it has not brought to the front |
| `Strays.ReachablePermutation` | src/handlers/input.rs:374-381 | in every state reachable without the pointer touching an override-redirect window and without a scratchpad being hidden, the stack is a permutation of the managed windows |
| `Strays.PopupOutlivesUnmap` | src/handlers/xwayland.rs:137-147 | a popup that was focused stays at the front of the stack after its own unmap, in no other list, and is never the focused window |
| `Strays.StrayWitness` | src/handlers/input.rs:374-381 | three events from start-up end so |
| `Screen.StepClears` | src/state.rs:1836-1856 | after any event but a motion that drags a window in no list, every window in no list is off the screen or was untouched |
| `Screen.NoGhostsIff` | src/grab/mod.rs:133-147 | if everything in the space is a managed window or a popup, it is so after an event if and only if that event does not drag on a window that has closed |
| `Screen.ReachableNoGhosts` | src/handlers/xdg_shell.rs:191-254 | in every state reachable without that, everything in the space is a managed window or a popup |
| `Screen.ConfigureMapsHidden` | src/handlers/xwayland.rs:250-310 | a floating X11 window that configures itself is mapped even if hidden; the next `arrange_all` hides it and remembers the place |
| `Recording.StepHistory` | src/state.rs:2114-2128 | exactly what every event does to the histories: which ones record for which monitor, and how hotplug shifts them |
| `Recording.RunHistoryRefines` | src/state.rs:2114-2128 | in every reachable state each monitor's history is the last 16 of what was recorded for it since it was plugged, each mask at its latest occurrence |
| `Recording.RecordedIsLeftIff` | src/actions.rs:235-257 | a view records exactly what it leaves if and only if its configured tags are neither none nor those shown, or the mask is what is shown |
| `Recording.UrgentIsNotRecorded` | src/actions.rs:525-557 | focusing an urgent window records nothing |
| `Reachability.UnpluggedCell` | src/handlers/output.rs:158-187 | the two migration loops together adopt exactly the orphans and shift exactly the later indices |
| `Hotplug.SurvivorsKeepHistory` | src/handlers/output.rs:187-202 | every surviving monitor keeps its state and its own history, one index lower if it came later |
| `Hotplug.SurvivingWindowsKeepMonitor` | src/handlers/output.rs:158-185 | a window on a surviving monitor still refers to that very monitor, with everything else unchanged |
| `Hotplug.OrphansAdopted` | src/handlers/output.rs:148-171 | all orphans go to one surviving monitor if there is one, and those with tags take its tags and become visible; with the last monitor those with tags take the tags it showed |
| `Replug.RunWaits` | src/handlers/output.rs:140-211 | while there is no output, no run of events retags a window or moves it to another monitor, unless it applies the window's own rules, toggles scratchpads, closes the window or plugs an output |
| `Replug.LastMonitorCollapses` | src/handlers/output.rs:140-171 | the last monitor goes, any such run passes, another comes: a window is visible if and only if it had tags and the old monitor showed tag 1 |
| `Hotplug.SelectionSurvives` | src/handlers/output.rs:140-211 | the selected monitor, unless removed, stays selected and takes in the orphans |
| `Hotplug.RemovalSettles` | src/handlers/output.rs:140-211 | and the re-arranging that ends the removal changes none of this |
| `Hotplug.RunKeepsMemory` | src/handlers/output.rs:54-66 | what is remembered for a connector survives any run of events that does not plug or unplug one of that name |
| `Hotplug.ReplugRestores` | src/handlers/output.rs:54-66 | unplug, any such run, replug: the new monitor has the old one's mfact, nmaster, layout slots, active slot and overrides |
| `FloatingWindows.SettledStep` | src/state.rs:1449-1466 | exactly where every event leaves a floating window, unless it closes the window or ends its floating: only a drag of it and its own X11 configures move it, each to the place stated, and its place is remembered while it is hidden |
| `FloatingWindows.FloatingComesBack` | src/state.rs:1635-1707 | after any run of events, drags included, that neither closes it nor ends its floating, an `arrange_all` that finds its tags shown maps it exactly where the last drag or configure put it |
| `FloatingWindows.StaysPut` | src/state.rs:1449-1466 | which is its old place if the run neither drags nor configures it |
| `Moving.LastMotionPlaces` | src/grab/mod.rs:133-147 | however many motions a drag makes, the window ends displaced from where the drag began by exactly as much as the pointer |
| `Moving.MoveRestores` | src/grab/mod.rs:323-347 | a drag from press to release leaves the window tiled or floating as it was |
| `Moving.DragIsRun` | src/handlers/input.rs:321-331 | the start, the motions and the release of which these speak are the events of a run, in an unlocked session |
| `Moving.SecondStartSticks` | src/grab/mod.rs:41-59 | a second start during a drag takes the window for one that floated: released or lost, the window then stays floating |
| `Moving.ClosedIsDraggedOn` | src/grab/mod.rs:133-147 | a window that closes while it is dragged is off the screen until the next motion maps it again, in no list |
| `Scratchpads.HiddenIsAway` | src/features/windows/scratchpad.rs:27-35 | a hidden scratchpad is on no tag, off the screen and out of the stack; no view and no other window changes, and the most recent window left is focused |
| `Scratchpads.ShownIsFocused` | src/features/windows/scratchpad.rs:36-41 | one shown on its own monitor gets exactly the tags shown there and is focused, and if it floats it is back at its place; no view and no other window changes |
| `Scratchpads.ShownIsFocusedIff` | src/features/windows/scratchpad.rs:36-41 | shown from anywhere, it is focused if and only if its own monitor ends selected and shows one of the tags it got |
| `Scratchpads.ScratchTogglesBack` | src/features/windows/scratchpad.rs:24-48 | toggling a visible floating scratchpad of the selected monitor away and back leaves it focused, on the tags shown and at its place, with every view as it was |
| `Scratchpads.OnNoTagIff` | src/features/windows/scratchpad.rs:27-35 | if every managed window missing from the stack is on no tag, it is so after an event if and only if that event is not a commit whose rules give tags to a missing window |
| `Scratchpads.ReachableOnNoTag` | src/features/windows/scratchpad.rs:27-35 | in every state reachable without such a commit, every managed window with tags is exactly once in the stack, and one that is missing is on no tag |
| `Focusing.StepsWalk` | src/actions.rs:559-590 | `k` focus steps move the focus `k` places along the eligible windows, though every step reorders the focus stack |
| `Focusing.FocusCycle` | src/actions.rs:559-590 | `n` steps over `n` eligible windows focus each at exactly one step and end on the first |
| `Focusing.StepBackRestores` | src/actions.rs:559-590 | a step and a step back restore the focused window |
| `Focusing.ZoomPromotes` | src/actions.rs:50-101 | zoom permutes the windows, keeps the relative order of all but the promoted one, makes that one the first candidate and, in the tiling layout, the master, and focuses it |
| `Focusing.ZoomTwice` | src/actions.rs:50-101 | zooming twice with the master focused restores order and focus if and only if the second candidate is not fullscreen |
| `Actions.ViewShows` | src/actions.rs:235-257 | `view` shows exactly the configured tags of the mask on the selected monitor, changes no other view, records the tags left, and focuses the most recently focused window it makes visible |
| `Actions.ViewThenBack` | src/actions.rs:145-174 | a view and `view_prev` bring back the tags of every monitor, and the focus too unless the window focused in between is visible on both views |
| `Actions.ToggleViewShows` | src/actions.rs:258-273 | `toggle_view` shows the difference with the mask unless that is nothing, records only then, changes no other view, and focuses the most recently focused window it makes visible |
| `Actions.ToggleViewTwice` | src/actions.rs:258-273 | toggling the same mask twice shows the same tags again |
| `Actions.ViewNextOccShows` | src/actions.rs:175-196 | the selected monitor shows the nearest tag in that direction that some window is on, and nothing changes when none is on any |
| `Actions.ViewNextOccReturns` | src/actions.rs:175-196 | from a single occupied tag, the next and then the previous one shows it again |
| `Actions.TagRetags` | src/actions.rs:274-295 | retagging changes the focused window's tags and nothing else of any window; it keeps the focus if and only if it stays visible and no window ahead of it in the stack becomes visible |
| `Actions.FocusMonThereAndBack` | src/actions.rs:684-702 | selecting a neighbouring monitor and coming back leaves selection, views, histories and focus as they were |
| `Actions.TagMonSends` | src/actions.rs:704-719 | the focused window, and no other, gets the neighbour's tags and index; it keeps the focus if and only if the view follows |
| `Actions.FocusUrgentReaches` | src/actions.rs:525-557 | the first urgent window loses its hint and its monitor is selected; it ends focused if and only if it has tags and there is a monitor |
| `Actions.OpenedIsFocused` | src/handlers/xdg_shell.rs:22-86 | a new toplevel is focused and first in tiling order, and neither a view nor another window's state changes |
| `Actions.DestroyedIsGone` | src/handlers/xdg_shell.rs:191-290 | a destroyed toplevel is in neither list nor in the space; the focus goes to the master if the window was seen and the layout tiles, else to the most recent visible window |
| `Lifecycle.OpenedIsMapped` | src/handlers/xdg_shell.rs:22-86 | a new toplevel stays mapped at the corner of the selected work area until its rules are applied |
| `Lifecycle.X11IsMapped` | src/handlers/xwayland.rs:57-113 | a mapped X11 window is focused and first in tiling order, no view changes, and one that floats and has a size ends up exactly centred |
| `Lifecycle.UnmappedIsGone` | src/handlers/xwayland.rs:137-178 | an unmapped X11 window is in no list and not in the space, nor is any popup; the most recent visible window left is focused |
| `Lifecycle.PopupIsGone` | src/handlers/xwayland.rs:143-147 | an unmapped popup leaves its list and the space, and nothing else changes |
| `Lifecycle.NoX11Left` | src/handlers/xwayland.rs:369-402 | when XWayland ends no X11 window is in any list or in the space and the others keep their order; only if there was none does a stray stay in the stack |
| `Lifecycle.FoldRulesMeans` | src/state.rs:1143-1172 | matching rules amount to the union of their tags, floating if any says so, and the monitor, key and view jump of the last that names one |
| `Lifecycle.ChildFloats` | src/state.rs:1085-1112 | a transient child floats, to be centred, with its parent's monitor and tags, or the selected ones if the parent is unknown |
| `Lifecycle.SwitchShows` | src/state.rs:1226-1252 | a view jump shows the rule's tags, if configured, on the target monitor only, and remembers what was shown if that differs |
| `Lifecycle.RulesPlace` | src/state.rs:1142-1282 | where a matched window goes: its monitor, clamped; its tags, masked or inherited; whether it floats; and which view changes |
| `Lifecycle.BufferPlaces` | src/handlers/compositor.rs:225-336 | whether a window floats after a buffer, and that one waiting for it is centred once: on the screen if visible, where it will come back to if not |
| `Actions.ArrangeAllUnmanaged` | src/state.rs:1836-1856 | arranging never moves, maps or unmaps a window that is not managed, such as an X11 popup |
| `RwlCore.Rwl.Partition` | src/state.rs:1400-1447 | one pass over the windows draws up the hidden, tiled, floating, fullscreen and scratchpad lists, each exactly the windows its definition selects, in tiling order |
| `RwlCore.Rwl.HideWindows` | src/state.rs:1449-1490 | the hiding loop, on the space and the cells in place, is the hiding pass |
| `RwlCore.Rwl.TileWindows` | src/state.rs:1548-1632 | the tiling loop is the tiled pass: map, relocate, or raise the focused window in monocle |
| `RwlCore.Rwl.FloatWindows` | src/state.rs:1635-1707 | the floating loop is the floating pass |
| `RwlCore.Rwl.FillWindows` | src/state.rs:1709-1757 | the fullscreen loop is the fullscreen pass |
| `RwlCore.Rwl.RaiseScratchpads` | src/state.rs:1759-1772 | the last loop is the scratchpad pass |
| `RwlCore.Rwl.FollowFocus` | src/state.rs:1506-1545 | the scroll column ends on the focused tiled window, or else within the tiled windows, in the scrollable layouts only |
| `RwlCore.Rwl.Arrange` | src/state.rs:1378-1787 | the whole of `arrange`, on shared monitors and cells, is the function the mapping and stacking theorems are about |
| `RwlCore.Rwl.UpdateWorkAreas` | src/state.rs:1966-2005 | every monitor's work area follows its zone, and a full-output zone is ignored while a bar still claims an exclusive one |
| `RwlCore.Rwl.ArrangeAll` | src/state.rs:1836-1856 | likewise for all monitors in order |
| `RwlCore.Rwl.FocusedWindow` | src/state.rs:806-815 | the first window of the stack on the selected monitor and visible there |
| `RwlCore.Rwl.FocusWindow` | src/state.rs:1284-1361 | focusing by rotating the stack in place, selecting and arranging only when the front changes and the session is unlocked |
| `RwlCore.Rwl.FocusStackStep` | src/actions.rs:559-590 | the step over the eligible windows |
| `RwlCore.Rwl.ZoomScan` | src/actions.rs:61-88 | the scan with its early exit finds the window to promote: the second candidate when the focused one is the first, the focused one when it is not, none without a second candidate |
| `RwlCore.Rwl.Zoom` | src/actions.rs:50-101 | the whole action, prefix rotation included |
| `RwlCore.Rwl.View` | src/actions.rs:235-257 | record, view, arrange, refocus |
| `RwlCore.Rwl.ToggleView` | src/actions.rs:258-273 | the in-place action is the function `ToggleViewShows` is about |
| `RwlCore.Rwl.ViewNextOccTag` | src/state.rs:2107-2111 | the in-place action is the function `ViewNextOccShows` is about; the search never runs on an empty mask in a valid state |
| `RwlCore.Rwl.Tag` | src/actions.rs:274-295 | retagging the focused window, following it when configured |
| `RwlCore.Rwl.FocusMon` | src/actions.rs:684-702 | selecting the neighbouring monitor and refocusing |
| `RwlCore.Rwl.TagMon` | src/actions.rs:704-719 | sending the focused window there |
| `RwlCore.Rwl.FocusUrgent` | src/actions.rs:525-557 | the first urgent window, of the stack before the others, is made visible and focused |
| `RwlCore.Rwl.HideScratch` | src/features/windows/scratchpad.rs:28-34 | tags cleared, taken out of the stack in place, the most recent visible window focused, everything arranged: the function `HiddenIsAway` is about |
| `RwlCore.Rwl.ShowScratch` | src/features/windows/scratchpad.rs:36-41 | the tags shown given to the window, focus, arrangement: the function `ShownIsFocused` is about |
| `RwlCore.Rwl.ToggleScratch` | src/features/windows/scratchpad.rs:24-48 | the first window with the key is hidden if visible and shown if not; without one nothing changes |
| `RwlCore.Rwl.FocusOrToggleScratch` | src/features/windows/scratchpad.rs:50-72 | it is hidden only if it is the focused window |
| `RwlCore.Rwl.ToggleMatching` | src/features/windows/scratchpad.rs:74-111 | likewise for a window found by key or application id |
| `RwlCore.Rwl.NewToplevel` | src/handlers/xdg_shell.rs:22-86 | the new window first in tiling order, in front of the focus stack and mapped |
| `RwlCore.Rwl.MapX11` | src/handlers/xwayland.rs:57-113 | the in-place handler is the function `X11IsMapped` is about |
| `RwlCore.Rwl.ConfigureX11` | src/handlers/xwayland.rs:250-310 | the in-place handler is the function `ConfigureMapsHidden` is about: only a floating or unmanaged window is moved |
| `RwlCore.Rwl.ToplevelDestroyed` | src/handlers/xdg_shell.rs:191-290 | out of both lists and the space; a window that was seen hands the focus to the master |
| `RwlCore.Rwl.UnmapX11` | src/handlers/xwayland.rs:137-178 | the in-place handler, popups dismissed one by one, is the function `UnmappedIsGone` and `PopupIsGone` are about |
| `RwlCore.Rwl.Disconnected` | src/handlers/xwayland.rs:369-402 | the in-place handler, with its loops over windows and popups, is the function `NoX11Left` is about |
| `RwlCore.Rwl.FoldRules` | src/state.rs:1143-1172 | the fold over the matching rules is the function `FoldRulesMeans` is about |
| `RwlCore.Rwl.ApplyRules` | src/state.rs:1082-1282 | the in-place writes are the function `ChildFloats` and `RulesPlace` are about |
| `RwlCore.Rwl.BufferCommit` | src/handlers/compositor.rs:225-336 | the in-place handler is the function `BufferPlaces` is about |
| `RwlCore.Rwl.Plug` | src/handlers/output.rs:50-66 | a new monitor at the end, with what was remembered for its connector taken out of the memory |
| `RwlCore.Rwl.Unplug` | src/handlers/output.rs:140-211 | migration, memory, index shift, removal and selection repair, in place |
| `RwlCore.Rwl.Handle` | src/actions.rs:108-458 | handling any event in place is the corresponding step and keeps the invariant |
| `Status.CollectTags` | src/ipc.rs:72-100 | one pass over the windows gives every monitor the union of the tags, and of the urgent tags, of exactly its windows |
| `Status.CollectFocused` | src/ipc.rs:100-113 | one pass over the stack gives every monitor the first window on it and visible there |
| `Status.FormatStatus` | src/ipc.rs:67-140 | every status line equals its definition, monitor by monitor |
| `Status.SelectedLineIsFocused` | src/ipc.rs:100-140 | the selected monitor's entry is the window that actions apply to |
| `PageFlip.NextSynced` | src/backend/udev.rs:608-665 | every step but a resume with new connectors keeps each pending flag equal to whether its flip is in flight, and queues no frame on top of one or on a paused device |
| `PageFlip.FlipsNeverOverlap` | src/backend/udev.rs:911-936 | hence so does every interleaving of render requests, idle callbacks, VBlanks, pauses, resumes, rescans and device hotplug |
| `PageFlip.ResumeFaults` | src/backend/udev.rs:388-453 | a resume queues on top of a flip if and only if a new connector is rendered with a frame both at setup and right after |
| `PageFlip.ResumeSafeIff` | src/backend/udev.rs:388-453 | a resume is safe however its renderings end if and only if its rescan sets up no output |
| `PageFlip.Backend.Render` | src/backend/udev.rs:911-936 | `on_vblank` returns early on an unknown or paused output, and otherwise queues at most one frame and sets the flag with it |
| `PageFlip.Backend.IdleCallback` | src/backend/udev.rs:1673-1720 | an idle callback renders only on an active device with no flip pending |
| `PageFlip.Backend.VblankEvent` | src/backend/udev.rs:608-665 | a completed flip clears its flag, on a paused device too, before the next frame is rendered |
| `PageFlip.Backend.Perform` | src/backend/udev.rs:388-690 | every step of the protocol, device hotplug and rescans included, in place |
| `PageFlip.Backend.PauseDevices` | src/backend/udev.rs:472-476 | the loop pauses every device and nothing else |
| `PageFlip.Backend.ResumeOne` | src/backend/udev.rs:388-453 | flags cleared, connectors set up, every output rendered |
| `Connectors.CollectConnInfos` | src/backend/udev.rs:700-771 | the claims are those of the scan, connector by connector: every CRTC goes to at most one and never to one in use, claims name compatible CRTCs, and a usable connector goes without only if all of its CRTCs are taken |
| `Connectors.FairIsUnclaimed` | src/backend/udev.rs:700-771 | so the outputs set up after a rescan overwrite neither each other nor an existing one |
| `Connectors.NothingClaimedIff` | src/backend/udev.rs:716-746 | a scan claims nothing if and only if every CRTC of every usable connector drives an output |
| `Connectors.ClaimedAgainIff` | src/backend/udev.rs:737-746 | a connector that already drives an output is claimed a second time if and only if another of its CRTCs is free when the scan comes to it |
| `Connectors.ClaimedAgainExample` | src/backend/udev.rs:737-746 | one display with two CRTCs, one of them driving it, is claimed again |
| `Connectors.ResumeSafeBeforehand` | src/backend/udev.rs:388-453 | whether a resume can go wrong is decided by the connectors and CRTCs before it: it cannot if and only if every CRTC of every usable connector drives an output |
| `Connectors.FaultExample` | src/backend/udev.rs:388-453 | a run of three steps from start-up that queues a frame on top of a flip |
| `Pointer.BoundsTight` | src/state.rs:874-884 | the cached bounds are the smallest box around all monitors |
| `Pointer.BoundsOrdered` | src/state.rs:874-884 | they are in order, so that clamping to them never panics |
| `Pointer.ClampInBox` | src/handlers/input.rs:711-720 | a clamped position is in the box, and one in the box is not moved |
| `Pointer.ClampedStaysOnMonitors` | src/handlers/input.rs:711-720 | short of the far edges the clamped pointer is always on a monitor if and only if the monitors fill their box; on a far edge it never is |
| `RwlCore.Rwl.SelectUnder` | src/handlers/input.rs:308-309 | the first monitor under the pointer becomes the selected one; with none the selection stays |
| `RwlCore.Rwl.StartMove` | src/grab/mod.rs:41-59 | floated, remembered and focused in place |
| `RwlCore.Rwl.HandleMove` | src/grab/mod.rs:133-147 | the dragged window mapped where the motion takes it, unless the session is locked or it was not mapped |
| `RwlCore.Rwl.EndMove` | src/grab/mod.rs:323-347 | the kind it had restored, and everything arranged if it was tiled |
| `Resize.LastMotionDecides` | src/grab/mod.rs:150-302 | any sequence of motions of an anchored drag leaves what the last alone would |
| `Resize.StartAnchors` | src/grab/mod.rs:65-129 | starting a resize anchors it, and through any change of monitor, layout or kind it stays so exactly when it was begun tiled, on an existing monitor, outside columns, or nothing is left to compound |
| `Resize.UnanchoredCompounds` | src/grab/mod.rs:150-302 | without the anchor there are two motions of which the last alone does otherwise |
| `Resize.MotionInRange` | src/grab/mod.rs:150-320 | a motion keeps the split within [0.05, 0.95] and the size factor within [0.25, 4] |
| `Resize.ColumnBoundsOrdered` | src/grab/mod.rs:235-266 | the bounds a column drag is clamped to are never out of order |
| `Resize.BoundaryConserves` | src/grab/mod.rs:235-266 | dragging a boundary keeps the total, changes only the two columns beside it, and leaves neither below min(0.05, half of both) |
| `Resize.ColumnsStayBalanced` | src/grab/mod.rs:81-109 | over every run of drags and layout changes the column fractions are absent or positive with sum exactly one |
| `Resize.ResizeGrab.Begin` | src/grab/mod.rs:65-129 | the snapshots taken, by layout and kind of window |
| `Resize.ResizeGrab.HandleResize` | src/grab/mod.rs:150-302 | one motion in place, in every layout |
| `Resize.ResizeGrab.End` | src/grab/mod.rs:323-347 | ending a drag drops every snapshot and leaves what was dragged |
| `Keys.MatchKeybindIsBest` | src/handlers/input.rs:763-805 | a binding is found exactly when one applies, and it is the first of those of the best rank: application before general, shifted before plain symbol |
| `Keys.KeyFilter.Process` | src/handlers/input.rs:57-157 | the filter swallows what the locker owns, intercepted presses and the releases of remembered keys, forwards everything else, and remembers exactly the intercepted presses |
| `Keys.KeyFilter.ReleaseAllPressed` | src/state.rs:2059-2078 | the release of every pressed key is forwarded by the filter, and the remembered ones are not touched |
| `Keys.InterceptedExactly` | src/handlers/input.rs:57-157 | over every stream of key events and releases of all, the remembered keys are exactly the held ones whose press was intercepted, and the stale ones |
| `Keys.InterceptedAreHeldIff` | src/handlers/input.rs:57-157 | so they are exactly the former if and only if nothing is stale |
| `Keys.InterceptedAreHeld` | src/handlers/input.rs:57-157 | which is so as long as no release under the locker, without symbol or of all meets a key whose press was intercepted |
| `Keys.ReleaseFollowsPress` | src/handlers/input.rs:57-157 | and every normal release is then forwarded exactly when its press was |
| `Keys.ReleaseFitsIff` | src/state.rs:2059-2078 | over every stream, exactly which releases fit their presses: of all keys, if no held one was intercepted; a normal one, unless its press was forwarded while the key was stale |
| `Keys.StaleKeySticks` | src/handlers/input.rs:77-89 | a stale key whose press is forwarded has its release swallowed |
| `Keys.LockLeavesStale` | src/features/session/lock.rs:391-412 | every key typed into the native locker becomes stale, released there or by the unlock |
| `Screencopy.Drain` | src/handlers/screencopy.rs:245-278 | the swap-remove loop ends, handing over each frame of the output exactly once and leaving exactly the others |
| `Screencopy.OutcomesAccount` | src/handlers/screencopy.rs:245-278 | every frame handed over is answered once, or its object is gone |
| `Screencopy.Captures.Capture` | src/handlers/screencopy.rs:90-134 | a capture of an output that is gone or has no mode is failed at once, any other is told nothing yet |
| `Screencopy.Captures.Copy` | src/handlers/screencopy.rs:154-203 | a second copy on a frame is refused, one that cannot be served fails at once, any other waits; every outcome due is waited for, told or dropped with its object |
| `Screencopy.AnsweredOnceIff` | src/handlers/screencopy.rs:90-100 | a used frame hears of its outcome at most once if and only if it was created with a capture; without, exactly twice |
| `Screencopy.Captures.Submit` | src/handlers/screencopy.rs:245-278 | rendering or failing an output answers exactly its frames and keeps those books |
| `Screencopy.Captures.Destroyed` | src/handlers/screencopy.rs:205-215 | a destroyed frame leaves the queue and is never answered |
| `Screencopy.CopyRows` | src/handlers/screencopy.rs:325-349 | the row loop, whose indices are in range for any strides, copies each row as far as both buffers reach |
| `Screencopy.RowsExact` | src/handlers/screencopy.rs:325-349 | with enough stride and space every row arrives exactly and no other byte changes |

## Left out

- Protocol traffic (configures, serials, keyboard focus, decorations, damage) and rendering: only their effect on lists and flags is kept.
- Animations, tag transitions with their slide-outs, overview, picture-in-picture, swallowing, auto-back, pointer warping, Lua hooks and configuration reload.
- The tiling algorithms, which enter by their length contract, and the rule strings, which enter as the list of rules that match.
- `view_tag_spawn`: a view of the masked tags followed by a possible process spawn.
- `reset_layout`, gaps and passthrough actions: single-field writes followed by an arrangement.
- The spawn of a scratchpad's command when no window has its key, and the match on application ids, whose candidate the event names.
- How a drag begins and is lost (button bindings, client requests, other grabs): the events say that it does and where the pointer is.
- smithay's refresh of the space, which drops the elements of dead windows between frames.
- The late float decision on X11 property changes.
- Overflow of `nmaster` and of geometry in `i32`, and rounding of `f64`.
- Window titles and application ids in status lines, and border and focus counters.
- Virtual keyboards: a key held by another keyboard source is absorbed before the filter.
- The wall-clock timers: key repeat, mod-tap and the bound on how long the render gate may hold.
- `Screencopy` models the outcome of reading and writing the pixels of a frame as given, shared-memory checks included.
- RwlCore.Rwl.FocusWindow: does not model the keyboard target or the lock surface, which no list depends on.
- Keys.KeyFilter.ReleaseAllPressed: says what the filter forwards; whether a client has the keyboard focus by then, as none has on a native unlock, is not modelled.
- Keys.KeyFilter.Process: does not model which action is run, only whether the event is forwarded and remembered.
