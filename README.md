# Campus Buzz card feed: a verified model

This project models in Dafny the state machine behind the swipeable "Campus Buzz" card feed of a
React Native app, and proves properties of it. Two components are modelled:

- `components/CampusBuzzComponent.tsx` is the feed screen. It keeps a read-only catalog of four
  items and a `currentIndex` into it. An `isAnimating` guard allows at most one card transition
  at a time. A transition runs in order: exit spring, index swap, enter spring. When the user
  releases the card, a pan gesture either commits a swipe or springs the card back. There are two
  overlay panels: an info dock that slides in from the right and closes on the hardware back
  button, and a settings dock that slides up from the bottom. The settings dock can be dragged
  down to dismiss it, and its list jumps straight to a card.
- `components/CampusBuzzDock.tsx` is a draft bottom sheet whose open state is a prop owned by its
  parent. It asks the parent to toggle that state through a `toggleDock` callback.

Files:

- `SharedValues.dfy` is the animation abstraction. Each spring-animated shared value is a
  `Spring(current, target)`. `withSpring(t)` only moves the target. A plain assignment moves
  both. A separate settle step sets `current := target`. `AtLeast` is the `Math.max` clamp that
  both drag handlers use.
- `Feed.dfy` is the pure part of the feed screen: the catalog, JavaScript's `%`, the forward and
  undo index arithmetic, the exit and entry edges, and the classification of a release. It adds
  lemmas about repeated swiping: a full round returns to the start, steps compose, and the
  sequence is periodic.
- `CampusBuzz.dfy` is class `FeedScreen`, one method per handler of the feed screen, together
  with the `Panel` value type for the two docks. It ends with client methods that run
  event sequences on a fresh screen and prove the outcome from the method contracts alone.
- `Dock.dfy` is class `BottomSheet`, the prop-driven sheet, with two client runs.

Screen geometry is taken as parameters: the window width and height, the info dock width, and
the status bar height (which gives the header height). Gesture events and "this spring has
settled" events are method calls made by the environment. `runOnJS` is an ordinary call, made at
once and in order.

The model assumes one behaviour of the animation library. When a new value or a new spring is
written to a shared value, it interrupts the spring already driving that value, and that
spring's completion callback runs with `finished == false` (`CampusBuzz.FeedScreen.CancelTranslateX`). With
this assumption the code as written gives two results:

- Dragging the card while it flies out cancels the exit spring. The index is then never swapped
  and `isAnimating` never goes back to false. `Blocked()` holds from then on and every later
  navigation request is dropped (`DragDuringExitBlocksNavigation`).
- The enter spring's callback ignores `finished`, so interrupting the enter spring always
  lowers the guard.

Some points where the code's behaviour differs from what its names or comments suggest (the
model follows the code):

- `entryDirection` names the direction the card moves as it enters. Entry `'left'`
  places the card at `+SCREEN_WIDTH` (components/CampusBuzzComponent.tsx:109). Undo passes
  `'right', 'left'`, so the previous card re-enters from the right edge, the edge it left by.
  In a swipe, the next card also comes back from the edge the old one left by. The comment at
  components/CampusBuzzComponent.tsx:136 reads as if the previous card came in from the left.
- Picking a list entry calls `toggleSettingsDock`, not a "close" operation. It closes the dock
  when the flag is true. If the flag is false while the dock is still on screen (after a
  snap-back during closing, or while a dismissed dock is still sliding down), picking an entry
  opens it again (`PickWhileClosingReopens`).
- When the settings dock is released after a short drag, it springs back open but keeps its
  flag. If that happens while the dock is sliding away after a toggle, the flag stays false while
  the dock heads for the open position (`SnapBackWhileClosing`).
- In the bottom-sheet draft, both release branches call `toggleDock`. So a short drag on an open
  sheet makes a parent that flips the prop close the sheet (`SmallDragOnOpenSheetCloses`).

## Model

| member | source | states |
|---|---|---|
| SharedValues.AtLeast | components/CampusBuzzComponent.tsx:274-277 | the drag clamp is never below the floor or the dragged position, and equals one of them |
| Feed.CatalogShape | components/CampusBuzzComponent.tsx:22-51 | the catalog has four entries with pairwise distinct ids |
| Feed.JsRemainder | components/CampusBuzzComponent.tsx:130 | JavaScript `%` with a positive divisor: a non-negative dividend gives Euclidean `%`, which lies in `[0, n)`; a negative dividend gives minus the remainder of its magnitude, in `(-n, 0]` |
| Feed.ForwardIndex | components/CampusBuzzComponent.tsx:130 | for a valid index the forward target is valid and is `i + 1`, or `0` after the last card |
| Feed.BackwardIndex | components/CampusBuzzComponent.tsx:135 | for a valid index the undo target is valid and is `i - 1`, or the last card from `0` |
| Feed.UndoInvertsForward | components/CampusBuzzComponent.tsx:129-137 | undo after a swipe, and a swipe after undo, both return to the original card |
| Feed.ForwardSteps | components/CampusBuzzComponent.tsx:129-132 | any number of completed forward transitions from a valid index leaves a valid index |
| Feed.ForwardStepsWithinRound | components/CampusBuzzComponent.tsx:130 | `k <= len` forward steps from `i` give `i + k`, minus `len` once it reaches `len` |
| Feed.ForwardStepsFullRound | components/CampusBuzzComponent.tsx:130 | `DATA.length` forward steps return to the starting card |
| Feed.ForwardStepsCompose | components/CampusBuzzComponent.tsx:130 | `a` forward steps followed by `b` steps equal `a + b` steps |
| Feed.ForwardStepsPeriodic | components/CampusBuzzComponent.tsx:130 | adding a full round of steps changes nothing |
| Feed.Opposite | components/CampusBuzzComponent.tsx:131 | the entry direction of a swipe differs from its exit direction |
| Feed.ExitTargetX | components/CampusBuzzComponent.tsx:108 | exit target is `+SCREEN_WIDTH` exactly for `'right'` and `-SCREEN_WIDTH` otherwise |
| Feed.EntryStartX | components/CampusBuzzComponent.tsx:109 | the entry start has the sign opposite to the exit target of the same direction |
| Feed.SwipeReentersFromExitSide | components/CampusBuzzComponent.tsx:108-131 | with entry direction opposite to exit, the next card starts on the edge the old card left by, not the other edge |
| Feed.Classify | components/CampusBuzzComponent.tsx:151-160 | a release commits right iff `translationX > 100`, commits left iff `translationX < -100`, and springs back iff it lies in `[-100, 100]` |
| Feed.ThresholdIsStrict | components/CampusBuzzComponent.tsx:152-155 | a release at exactly ±100 springs back; ±101 commits |
| CampusBuzz.Toggle | components/CampusBuzzComponent.tsx:72-86 | a toggle flips the flag, leaves the shown position, and aims the spring at the open position when opening and the closed one when closing |
| CampusBuzz.ToggleTwice | components/CampusBuzzComponent.tsx:80-86 | toggling twice restores the flag, and the whole panel when it was already aimed at its flag's position |
| CampusBuzz.FeedScreen.constructor | components/CampusBuzzComponent.tsx:62-70 | first card, guard down, card centred and untilted, both docks closed and resting off-screen (`DOCK_WIDTH`, `SCREEN_HEIGHT`) |
| CampusBuzz.FeedScreen.CurrentCard | components/CampusBuzzComponent.tsx:184 | the card on screen is a catalog entry (the index is always valid) |
| CampusBuzz.FeedScreen.CancelTranslateX | components/CampusBuzzComponent.tsx:111-118 | an interrupted exit spring does not swap the index and keeps the guard up; an interrupted enter spring lowers it |
| CampusBuzz.FeedScreen.SetTranslateX | components/CampusBuzzComponent.tsx:115 | a plain write fixes the offset and interrupts the running spring |
| CampusBuzz.FeedScreen.AnimateTranslateX | components/CampusBuzzComponent.tsx:116-118 | a spring write retargets the offset, interrupts the old spring and installs its own callback |
| CampusBuzz.FeedScreen.OnNavigate | components/CampusBuzzComponent.tsx:104-127 | while animating nothing changes; otherwise the guard goes up, the index stays, and the exit spring heads for the exit edge carrying the target index, entry edge and rotation flag; once blocked, stays blocked |
| CampusBuzz.FeedScreen.OnSwipeForward | components/CampusBuzzComponent.tsx:129-132 | navigates to `(i + 1) % DATA.length`, exiting in the swipe direction and re-entering from that same edge, with rotation |
| CampusBuzz.FeedScreen.OnUndo | components/CampusBuzzComponent.tsx:134-137 | navigates to `(i - 1 + DATA.length) % DATA.length`, exiting right and re-entering from `+SCREEN_WIDTH`, without rotation |
| CampusBuzz.FeedScreen.SettleTranslateX | components/CampusBuzzComponent.tsx:111-124 | a finished exit spring swaps to the target index, jumps to the entry edge, starts the enter spring toward 0 and resets the tilt (spring with rotation, jump to 0 without); a finished enter spring lowers the guard |
| CampusBuzz.FeedScreen.SettleRotate | components/CampusBuzzComponent.tsx:120 | the tilt reaches its target and nothing else changes |
| CampusBuzz.FeedScreen.PanStart | components/CampusBuzzComponent.tsx:144-146 | the gesture baseline is the card's current offset |
| CampusBuzz.FeedScreen.PanActive | components/CampusBuzzComponent.tsx:147-150 | offset becomes baseline + translation and tilt translation / 100; a drag during the exit spring leaves the feed blocked |
| CampusBuzz.FeedScreen.PanEnd | components/CampusBuzzComponent.tsx:151-160 | past +100 it navigates forward exiting right, below -100 forward exiting left, otherwise offset and tilt spring to 0 with the index unchanged |
| CampusBuzz.FeedScreen.ToggleInfoDock | components/CampusBuzzComponent.tsx:80-86 | flips the info dock and aims it at 0 when opening and `DOCK_WIDTH` when closing; nothing else changes |
| CampusBuzz.FeedScreen.HandleBackPress | components/CampusBuzzComponent.tsx:88-94 | returns true and closes the info dock exactly when it was open; returns false with no change otherwise |
| CampusBuzz.FeedScreen.SettleInfoDock | components/CampusBuzzComponent.tsx:83 | the info dock reaches its target and nothing else changes |
| CampusBuzz.FeedScreen.ToggleSettingsDock | components/CampusBuzzComponent.tsx:72-78 | flips the settings dock and aims it at `HEADER_HEIGHT + 10` when opening and `SCREEN_HEIGHT` when closing; nothing else changes |
| CampusBuzz.FeedScreen.SettingsPanStart | components/CampusBuzzComponent.tsx:270-272 | the drag baseline is the dock's current position |
| CampusBuzz.FeedScreen.SettingsPanActive | components/CampusBuzzComponent.tsx:273-278 | the dock sits at `max(HEADER_HEIGHT + 10, startY + translationY)`, never above the open position; the flag is unchanged |
| CampusBuzz.FeedScreen.SettingsPanEnd | components/CampusBuzzComponent.tsx:279-286 | more than 50 down aims at `SCREEN_HEIGHT` and clears the flag; otherwise aims at `HEADER_HEIGHT + 10` and keeps the flag |
| CampusBuzz.FeedScreen.SettleSettingsDock | components/CampusBuzzComponent.tsx:75 | the settings dock reaches its target and nothing else changes |
| CampusBuzz.FeedScreen.SelectItem | components/CampusBuzzComponent.tsx:293-296 | sets the index directly without touching the guard, offset or tilt, then toggles the settings dock |
| CampusBuzz.SwipeLeftTwiceThenUndo | components/CampusBuzzComponent.tsx:129-160 | from card 0: swipe left gives 1, swipe left gives 2, undo gives 1, and the guard is down at the end |
| CampusBuzz.ReleaseAtThreshold | components/CampusBuzzComponent.tsx:151-160 | a release at exactly 100 keeps card 0, aims the offset at 0 and starts no transition; 101 starts one |
| CampusBuzz.DragDuringExitBlocksNavigation | components/CampusBuzzComponent.tsx:104-150 | a drag during the exit spring leaves card 0 with the guard permanently up; the next swipe and undo are dropped |
| CampusBuzz.PickFromSettings | components/CampusBuzzComponent.tsx:293-296 | picking entry 2 from the open settings dock shows card 2, closes the dock, and starts no transition |
| CampusBuzz.DragSettingsDock | components/CampusBuzzComponent.tsx:273-285 | a 30-unit drag keeps the dock open and aims it at `HEADER_HEIGHT + 10`; a 60-unit drag closes it and aims it at `SCREEN_HEIGHT` |
| CampusBuzz.SnapBackWhileClosing | components/CampusBuzzComponent.tsx:279-285 | a short drag on a closing settings dock aims it open while its flag stays false |
| CampusBuzz.PickWhileClosingReopens | components/CampusBuzzComponent.tsx:293-296 | picking entry 2 while the dock is on screen with its flag false shows card 2, sets the flag true and aims the dock at `HEADER_HEIGHT + 10` |
| CampusBuzz.CompletedSwipe | components/CampusBuzzComponent.tsx:104-132 | from any idle state, a swipe whose exit and enter springs complete shows `(i + 1) % DATA.length`, lowers the guard and leaves the card at 0 |
| Dock.BottomSheet.constructor | components/CampusBuzzDock.tsx:41 | the sheet starts at `DOCK_OPEN_POSITION` if the prop says open, else at `DOCK_CLOSED_POSITION` |
| Dock.BottomSheet.ReceiveProp | components/CampusBuzzDock.tsx:44-46 | a changed prop retargets the sheet to the open or closed position it names; an unchanged prop changes nothing |
| Dock.BottomSheet.PanStart | components/CampusBuzzDock.tsx:53-55 | the drag baseline is the sheet's current position |
| Dock.BottomSheet.PanActive | components/CampusBuzzDock.tsx:56-58 | the sheet sits at `max(DOCK_OPEN_POSITION, startY + translationY)`, never above the open position |
| Dock.BottomSheet.PanEnd | components/CampusBuzzDock.tsx:59-67 | more than 100 down aims at the closed position, otherwise at the open one; either way exactly one `toggleDock` request |
| Dock.BottomSheet.PressClose | components/CampusBuzzDock.tsx:104 | one `toggleDock` request; the position is not written |
| Dock.BottomSheet.Settle | components/CampusBuzzDock.tsx:45 | the sheet reaches its target and nothing else changes |
| Dock.SmallDragOnOpenSheetCloses | components/CampusBuzzDock.tsx:59-66 | with a parent that flips the prop per request, a 40-unit drag on the open sheet ends with it closed and aimed at `DOCK_CLOSED_POSITION` |
| Dock.DragUpIsClamped | components/CampusBuzzDock.tsx:56-58 | any upward drag of the open sheet leaves it exactly at `DOCK_OPEN_POSITION` |

## Left out

- Rendering: the JSX trees, `StyleSheet` objects, theme colours, images, `FlatList` and icons
  (`components/ui/IconSymbol.tsx`, `components/TabIcons.tsx`) are presentation only. The tab
  layout and the placeholder screens under `app/` are not part of this model.
- Catalog texts: the subheadings and the short and long texts of the four items are display
  strings. Only the ids and image references are kept.
- Spring physics: damping, stiffness and the values a spring passes through are left out. A
  spring is only its target. The shown value moves only when the environment reports that the
  spring has settled. An animation's `finished` flag is false only when a later write interrupts
  it, as above. The component never cancels an animation itself, and unmounting is not modelled.
- Numbers: gesture translations and positions are `int`, not floating point. The tilt
  `translationX / SWIPE_THRESHOLD` is exact `real` division. The `rotate * 10` degree string is
  display only.
- `DOCK_WIDTH = SCREEN_WIDTH * 0.8` is a floating-point product. The dock width is taken as a
  positive integer parameter.
- Thread bridging: `runOnJS` and the split between the UI thread and the JS thread are modelled
  as a plain sequential call. React's deferred re-render after `setState` is not modelled. Every
  handler reads the state as it is at that moment, so closures over an older render (the
  `useCallback` dependency lists) are not modelled.
- Platform calls: `BackHandler` subscribe/unsubscribe, `Haptics.impactAsync` on the floating
  button, and the `Dimensions`, `Platform` and `StatusBar` queries are left out. The queried
  values are taken as parameters.
- The bottom sheet's parent is not part of this model. Its `toggleDock` calls are only counted.
  `SmallDragOnOpenSheetCloses` assumes a parent that flips the prop once per call.
