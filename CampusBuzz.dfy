/** The Campus Buzz screen as a sequential state machine: the card feed with its
    transition guard, the pan gesture on the card, and the two overlay panels (the
    info dock sliding in from the right, the settings dock sliding up from the
    bottom).

    Each spring-animated value is a `Spring` (shown value, target).  The card's
    horizontal offset additionally remembers the completion callback of the spring
    that drives it.  The environment delivers the events: gesture samples, button
    presses, and "this animation has settled".  Callbacks that cross to the JS thread
    run at once, in order. */
module CampusBuzz {
  import opened SharedValues
  import opened Feed

  /** Header height without the status bar (`HEADER_HEIGHT` adds the Android status bar). */
  const HeaderBase: int := 48
  /** Gap between the header and the open settings dock. */
  const SettingsDockGap: int := 10
  /** Downward drag that a released settings dock must strictly exceed to close. */
  const SettingsCloseDistance: int := 50
  /** Horizontal offset of the fully open info dock. */
  const InfoDockOpenX: int := 0

  // ---------------------------------------------------------------------------
  // Panels

  /** An overlay panel: its open flag and its animated position. */
  datatype Panel = Panel(open: bool, position: Spring<int>)

  /** The panel's animation heads for the position its flag names. */
  predicate Aims(p: Panel, openPos: int, closedPos: int) {
    p.position.target == if p.open then openPos else closedPos
  }

  /** The functional update `prev => !prev` of a panel's flag, together with the
      spring it starts toward the matching position. */
  function Toggle(p: Panel, openPos: int, closedPos: int): (q: Panel)
    ensures q.open == !p.open
    ensures Aims(q, openPos, closedPos)
    ensures q.position.current == p.position.current
  {
    var opening := !p.open;
    Panel(opening, p.position.Retarget(if opening then openPos else closedPos))
  }

  /** Toggling twice restores the flag, and restores the whole panel when its
      animation already headed for the position its flag names. */
  lemma ToggleTwice(p: Panel, openPos: int, closedPos: int)
    ensures Toggle(Toggle(p, openPos, closedPos), openPos, closedPos).open == p.open
    ensures Aims(p, openPos, closedPos) ==> Toggle(Toggle(p, openPos, closedPos), openPos, closedPos) == p
  {
  }

  // ---------------------------------------------------------------------------
  // The card

  /** The completion callback attached to the spring that currently drives the card's
      horizontal offset. */
  datatype Completion =
    | NoCompletion
      /** The exit spring: on `finished`, swap to `targetIndex`, jump to `entryStartX`
          and spring back to the centre. */
    | AfterExit(targetIndex: int, entryStartX: int, withRotation: bool)
      /** The enter spring: lower the transition guard, whether finished or not. */
    | AfterEnter

  class FeedScreen {
    const screenWidth: int
    const screenHeight: int
    const dockWidth: int
    const headerHeight: int

    var currentIndex: int
    var isAnimating: bool
    var translateX: Spring<int>
    var translateXDone: Completion
    var rotate: Spring<real>
    var panStartX: int
    var infoDock: Panel
    var settingsDock: Panel
    var settingsStartY: int

    ghost predicate Valid()
      reads this
    {
      && 0 < screenWidth && 0 < screenHeight && 0 < dockWidth && HeaderBase <= headerHeight
      && 0 <= currentIndex < DataLength
      && (translateXDone != NoCompletion ==> isAnimating)
      && (translateXDone.AfterExit? ==> 0 <= translateXDone.targetIndex < DataLength)
      && Aims(infoDock, InfoDockOpenX, dockWidth)
    }

    /** The guard is raised and no pending callback will ever lower it: every later
        navigation request is dropped. */
    predicate Blocked()
      reads this
    {
      isAnimating && translateXDone == NoCompletion
    }

    /** Where the open settings dock rests. */
    function SettingsOpenY(): int {
      headerHeight + SettingsDockGap
    }

    twostate predicate CardUnchanged()
      reads this
    {
      && currentIndex == old(currentIndex) && isAnimating == old(isAnimating)
      && translateX == old(translateX) && translateXDone == old(translateXDone)
      && rotate == old(rotate) && panStartX == old(panStartX)
    }

    twostate predicate InfoDockUnchanged()
      reads this
    {
      infoDock == old(infoDock)
    }

    twostate predicate SettingsDockUnchanged()
      reads this
    {
      settingsDock == old(settingsDock) && settingsStartY == old(settingsStartY)
    }

    /** The effect of one `onNavigate(targetIndex, exitDirection, entryDirection,
        withRotation)` request: dropped while a transition runs, otherwise the guard
        goes up and the exit spring starts toward the exit edge, carrying the rest of
        the transition as its completion. */
    twostate predicate Navigated(targetIndex: int, exitDirection: Direction, entryDirection: Direction,
                                 withRotation: bool)
      requires 0 < screenWidth
      reads this
    {
      && InfoDockUnchanged() && SettingsDockUnchanged()
      && if old(isAnimating) then CardUnchanged()
         else
           && isAnimating && currentIndex == old(currentIndex)
           && translateX == old(translateX).Retarget(ExitTargetX(exitDirection, screenWidth))
           && translateXDone == AfterExit(targetIndex, EntryStartX(entryDirection, screenWidth), withRotation)
           && rotate == old(rotate) && panStartX == old(panStartX)
    }

    /** Mounting the screen.  The window size, the dock width and the status bar height
        are platform queries, taken as parameters. */
    constructor (screenWidth: int, screenHeight: int, dockWidth: int, statusBarHeight: nat)
      requires 0 < screenWidth && 0 < screenHeight && 0 < dockWidth
      ensures Valid()
      ensures this.screenWidth == screenWidth && this.screenHeight == screenHeight
      ensures this.dockWidth == dockWidth && headerHeight == statusBarHeight + HeaderBase
      ensures currentIndex == 0 && !isAnimating && translateXDone == NoCompletion
      ensures translateX == Fixed(0) && rotate == Fixed(0.0)
      ensures infoDock == Panel(false, Fixed(dockWidth))
      ensures settingsDock == Panel(false, Fixed(screenHeight))
    {
      this.screenWidth := screenWidth;
      this.screenHeight := screenHeight;
      this.dockWidth := dockWidth;
      headerHeight := statusBarHeight + HeaderBase;
      currentIndex := 0;
      isAnimating := false;
      translateX := Fixed(0);
      translateXDone := NoCompletion;
      rotate := Fixed(0.0);
      panStartX := 0;
      infoDock := Panel(false, Fixed(dockWidth));
      settingsDock := Panel(false, Fixed(screenHeight));
      settingsStartY := 0;
    }

    /** `DATA[currentIndex]`, the card on screen; its long text is what the info dock shows. */
    function CurrentCard(): (item: FeedItem)
      requires Valid()
      reads this
      ensures item in Data
    {
      Data[currentIndex]
    }

    // -------------------------------------------------------------------------
    // Writes to the card's offset

    /** A new write to the offset interrupts the spring driving it, whose callback is
        then called with `finished == false`: the exit callback does nothing (no index
        swap, and the guard stays up), the enter callback lowers the guard anyway. */
    method CancelTranslateX()
      requires Valid()
      modifies this
      ensures Valid()
      ensures translateXDone == NoCompletion
      ensures isAnimating == (old(isAnimating) && !old(translateXDone).AfterEnter?)
      ensures currentIndex == old(currentIndex) && translateX == old(translateX)
      ensures rotate == old(rotate) && panStartX == old(panStartX)
      ensures InfoDockUnchanged() && SettingsDockUnchanged()
    {
      var done := translateXDone;
      translateXDone := NoCompletion;
      if done.AfterEnter? {
        isAnimating := false;
      }
    }

    /** `translateX.value = x`. */
    method SetTranslateX(x: int)
      requires Valid()
      modifies this
      ensures Valid()
      ensures translateX == Fixed(x) && translateXDone == NoCompletion
      ensures isAnimating == (old(isAnimating) && !old(translateXDone).AfterEnter?)
      ensures currentIndex == old(currentIndex) && rotate == old(rotate) && panStartX == old(panStartX)
      ensures InfoDockUnchanged() && SettingsDockUnchanged()
    {
      CancelTranslateX();
      translateX := Fixed(x);
    }

    /** `translateX.value = withSpring(t, done)`. */
    method AnimateTranslateX(t: int, done: Completion)
      requires Valid()
      requires done != NoCompletion ==> isAnimating && translateXDone == NoCompletion
      requires done.AfterExit? ==> 0 <= done.targetIndex < DataLength
      modifies this
      ensures Valid()
      ensures translateX == old(translateX).Retarget(t) && translateXDone == done
      ensures isAnimating == (old(isAnimating) && !old(translateXDone).AfterEnter?)
      ensures currentIndex == old(currentIndex) && rotate == old(rotate) && panStartX == old(panStartX)
      ensures InfoDockUnchanged() && SettingsDockUnchanged()
    {
      CancelTranslateX();
      translateX := translateX.Retarget(t);
      translateXDone := done;
    }

    // -------------------------------------------------------------------------
    // Feed controller

    /** `onNavigate`: at most one transition in flight. */
    method OnNavigate(targetIndex: int, exitDirection: Direction, entryDirection: Direction, withRotation: bool)
      requires Valid() && 0 <= targetIndex < DataLength
      modifies this
      ensures Valid()
      ensures Navigated(targetIndex, exitDirection, entryDirection, withRotation)
      ensures old(Blocked()) ==> Blocked()
    {
      if isAnimating {
        return;
      }
      isAnimating := true;
      var exitTargetX := ExitTargetX(exitDirection, screenWidth);
      var entryStartX := EntryStartX(entryDirection, screenWidth);
      AnimateTranslateX(exitTargetX, AfterExit(targetIndex, entryStartX, withRotation));
    }

    /** `onSwipeForward(direction)`: the next card, leaving in the swipe's direction and
        coming back in from that same edge, with rotation. */
    method OnSwipeForward(direction: Direction)
      requires Valid()
      modifies this
      ensures Valid()
      ensures Navigated(ForwardIndex(old(currentIndex), DataLength), direction, Opposite(direction), true)
      ensures !old(isAnimating) ==> translateXDone.entryStartX == translateX.target == ExitTargetX(direction, screenWidth)
      ensures old(Blocked()) ==> Blocked()
    {
      var nextIndex := ForwardIndex(currentIndex, DataLength);
      OnNavigate(nextIndex, direction, Opposite(direction), true);
    }

    /** `onUndo`: the previous card, leaving to the right, without rotation. */
    method OnUndo()
      requires Valid()
      modifies this
      ensures Valid()
      ensures Navigated(BackwardIndex(old(currentIndex), DataLength), Right, Left, false)
      ensures !old(isAnimating) ==> translateXDone.entryStartX == translateX.target == screenWidth
      ensures old(Blocked()) ==> Blocked()
    {
      var prevIndex := BackwardIndex(currentIndex, DataLength);
      OnNavigate(prevIndex, Right, Left, false);
    }

    /** The spring driving the offset reaches its target and its callback runs with
        `finished == true`.  After the exit spring: the index swap, the jump to the
        entry edge, the enter spring, and the rotation reset (springing when the
        transition rotated, jumping otherwise).  After the enter spring: the guard
        comes down. */
    method SettleTranslateX()
      requires Valid()
      modifies this
      ensures Valid()
      ensures panStartX == old(panStartX) && InfoDockUnchanged() && SettingsDockUnchanged()
      ensures match old(translateXDone)
        case NoCompletion =>
          && translateX == old(translateX).Settled() && translateXDone == NoCompletion
          && currentIndex == old(currentIndex) && isAnimating == old(isAnimating) && rotate == old(rotate)
        case AfterExit(targetIndex, entryStartX, withRotation) =>
          && currentIndex == targetIndex && isAnimating
          && translateX == Spring(entryStartX, 0) && translateXDone == AfterEnter
          && rotate == if withRotation then old(rotate).Retarget(0.0) else Fixed(0.0)
        case AfterEnter =>
          && translateX == old(translateX).Settled() && translateXDone == NoCompletion
          && currentIndex == old(currentIndex) && !isAnimating && rotate == old(rotate)
      ensures old(Blocked()) ==> Blocked()
    {
      var done := translateXDone;
      translateX, translateXDone := translateX.Settled(), NoCompletion;
      match done
      case NoCompletion =>
      case AfterExit(targetIndex, entryStartX, withRotation) =>
        currentIndex := targetIndex;
        SetTranslateX(entryStartX);
        AnimateTranslateX(0, AfterEnter);
        if withRotation {
          rotate := rotate.Retarget(0.0);
        } else {
          rotate := Fixed(0.0);
        }
      case AfterEnter =>
        isAnimating := false;
    }

    /** The rotation spring reaches its target. */
    method SettleRotate()
      requires Valid()
      modifies this
      ensures Valid()
      ensures rotate == old(rotate).Settled()
      ensures currentIndex == old(currentIndex) && isAnimating == old(isAnimating)
      ensures translateX == old(translateX) && translateXDone == old(translateXDone) && panStartX == old(panStartX)
      ensures InfoDockUnchanged() && SettingsDockUnchanged()
    {
      rotate := rotate.Settled();
    }

    // -------------------------------------------------------------------------
    // Pan gesture on the card

    /** `onStart`: remember where the card was when the finger went down. */
    method PanStart()
      requires Valid()
      modifies this
      ensures Valid()
      ensures panStartX == old(translateX).current
      ensures currentIndex == old(currentIndex) && isAnimating == old(isAnimating)
      ensures translateX == old(translateX) && translateXDone == old(translateXDone) && rotate == old(rotate)
      ensures InfoDockUnchanged() && SettingsDockUnchanged()
    {
      panStartX := translateX.current;
    }

    /** `onActive`: the card follows the finger, tilting in proportion to the drag.
        Dragging does not look at the guard, so it interrupts a running transition. */
    method PanActive(translationX: int)
      requires Valid()
      modifies this
      ensures Valid()
      ensures translateX == Fixed(old(panStartX) + translationX) && translateXDone == NoCompletion
      ensures rotate == Fixed(translationX as real / SwipeThreshold as real)
      ensures currentIndex == old(currentIndex) && panStartX == old(panStartX)
      ensures isAnimating == (old(isAnimating) && !old(translateXDone).AfterEnter?)
      ensures old(translateXDone).AfterExit? ==> Blocked()
      ensures old(Blocked()) ==> Blocked()
      ensures InfoDockUnchanged() && SettingsDockUnchanged()
    {
      SetTranslateX(panStartX + translationX);
      rotate := Fixed(translationX as real / SwipeThreshold as real);
    }

    /** `onEnd`: past the threshold the card commits toward the swipe, otherwise both
        the offset and the tilt spring back to zero and the index stays. */
    method PanEnd(translationX: int)
      requires Valid()
      modifies this
      ensures Valid()
      ensures match Classify(translationX)
        case CommitRight => Navigated(ForwardIndex(old(currentIndex), DataLength), Right, Left, true)
        case CommitLeft => Navigated(ForwardIndex(old(currentIndex), DataLength), Left, Right, true)
        case SnapBack =>
          && translateX == old(translateX).Retarget(0) && translateXDone == NoCompletion
          && rotate == old(rotate).Retarget(0.0)
          && currentIndex == old(currentIndex) && panStartX == old(panStartX)
          && isAnimating == (old(isAnimating) && !old(translateXDone).AfterEnter?)
          && InfoDockUnchanged() && SettingsDockUnchanged()
      ensures old(Blocked()) ==> Blocked()
    {
      match Classify(translationX)
      case CommitRight =>
        OnSwipeForward(Right);
      case CommitLeft =>
        OnSwipeForward(Left);
      case SnapBack =>
        AnimateTranslateX(0, NoCompletion);
        rotate := rotate.Retarget(0.0);
    }

    // -------------------------------------------------------------------------
    // Info dock

    /** `toggleInfoDock`: flips the flag; the dock springs to 0 when opening and back
        off-screen to `DOCK_WIDTH` when closing. */
    method ToggleInfoDock()
      requires Valid()
      modifies this
      ensures Valid()
      ensures infoDock == Toggle(old(infoDock), InfoDockOpenX, dockWidth)
      ensures CardUnchanged() && SettingsDockUnchanged()
    {
      infoDock := Toggle(infoDock, InfoDockOpenX, dockWidth);
    }

    /** `handleBackPress`: consumes the hardware back event exactly when the info dock
        is open, closing it; otherwise nothing changes. */
    method HandleBackPress() returns (consumed: bool)
      requires Valid()
      modifies this
      ensures Valid()
      ensures consumed == old(infoDock).open
      ensures !infoDock.open
      ensures infoDock == if consumed then Toggle(old(infoDock), InfoDockOpenX, dockWidth) else old(infoDock)
      ensures CardUnchanged() && SettingsDockUnchanged()
    {
      if infoDock.open {
        ToggleInfoDock();
        return true;
      }
      return false;
    }

    /** The info dock's spring reaches its target. */
    method SettleInfoDock()
      requires Valid()
      modifies this
      ensures Valid()
      ensures infoDock == old(infoDock).(position := old(infoDock).position.Settled())
      ensures CardUnchanged() && SettingsDockUnchanged()
    {
      infoDock := infoDock.(position := infoDock.position.Settled());
    }

    // -------------------------------------------------------------------------
    // Settings dock

    /** `toggleSettingsDock`: flips the flag; the dock springs up below the header when
        opening and down off-screen to `SCREEN_HEIGHT` when closing. */
    method ToggleSettingsDock()
      requires Valid()
      modifies this
      ensures Valid()
      ensures settingsDock == Toggle(old(settingsDock), SettingsOpenY(), screenHeight)
      ensures settingsStartY == old(settingsStartY)
      ensures CardUnchanged() && InfoDockUnchanged()
    {
      settingsDock := Toggle(settingsDock, SettingsOpenY(), screenHeight);
    }

    /** The handle's `onStart`. */
    method SettingsPanStart()
      requires Valid()
      modifies this
      ensures Valid()
      ensures settingsStartY == old(settingsDock).position.current && settingsDock == old(settingsDock)
      ensures CardUnchanged() && InfoDockUnchanged()
    {
      settingsStartY := settingsDock.position.current;
    }

    /** The handle's `onActive`: the dock follows the finger but never rises above its
        open position. */
    method SettingsPanActive(translationY: int)
      requires Valid()
      modifies this
      ensures Valid()
      ensures settingsDock.open == old(settingsDock).open
      ensures settingsDock.position == Fixed(AtLeast(SettingsOpenY(), old(settingsStartY) + translationY))
      ensures SettingsOpenY() <= settingsDock.position.current
      ensures settingsStartY == old(settingsStartY)
      ensures CardUnchanged() && InfoDockUnchanged()
    {
      settingsDock := settingsDock.(position := Fixed(AtLeast(SettingsOpenY(), settingsStartY + translationY)));
    }

    /** The handle's `onEnd`: a drag of more than 50 down closes the dock and clears
        its flag; anything else snaps it back open and leaves the flag as it was. */
    method SettingsPanEnd(translationY: int)
      requires Valid()
      modifies this
      ensures Valid()
      ensures translationY > SettingsCloseDistance ==>
        settingsDock == Panel(false, old(settingsDock).position.Retarget(screenHeight))
      ensures translationY <= SettingsCloseDistance ==>
        settingsDock == old(settingsDock).(position := old(settingsDock).position.Retarget(SettingsOpenY()))
      ensures settingsStartY == old(settingsStartY)
      ensures CardUnchanged() && InfoDockUnchanged()
    {
      if translationY > SettingsCloseDistance {
        settingsDock := settingsDock.(position := settingsDock.position.Retarget(screenHeight));
        settingsDock := settingsDock.(open := false);
      } else {
        settingsDock := settingsDock.(position := settingsDock.position.Retarget(SettingsOpenY()));
      }
    }

    /** The settings dock's spring reaches its target. */
    method SettleSettingsDock()
      requires Valid()
      modifies this
      ensures Valid()
      ensures settingsDock == old(settingsDock).(position := old(settingsDock).position.Settled())
      ensures settingsStartY == old(settingsStartY)
      ensures CardUnchanged() && InfoDockUnchanged()
    {
      settingsDock := settingsDock.(position := settingsDock.position.Settled());
    }

    /** Pressing entry `index` of the settings list: jumps straight to that card, with no
        transition and without touching the guard or the offset, then toggles the
        settings dock. */
    method SelectItem(index: int)
      requires Valid() && 0 <= index < DataLength
      modifies this
      ensures Valid()
      ensures currentIndex == index
      ensures isAnimating == old(isAnimating) && translateX == old(translateX)
      ensures translateXDone == old(translateXDone) && rotate == old(rotate) && panStartX == old(panStartX)
      ensures settingsDock == Toggle(old(settingsDock), SettingsOpenY(), screenHeight)
      ensures settingsStartY == old(settingsStartY) && InfoDockUnchanged()
      ensures old(Blocked()) ==> Blocked()
    {
      currentIndex := index;
      ToggleSettingsDock();
    }
  }

  // ---------------------------------------------------------------------------
  // Runs of the screen, proved from the contracts above

  /** Four cards, starting at the first: swipe left (card 1), swipe left again
      (card 2), undo (card 1), each transition running to completion. */
  method SwipeLeftTwiceThenUndo(screenWidth: int, screenHeight: int, dockWidth: int, statusBarHeight: nat)
    returns (afterFirst: int, afterSecond: int, afterUndo: int, animating: bool)
    requires 0 < screenWidth && 0 < screenHeight && 0 < dockWidth
    ensures afterFirst == 1 && afterSecond == 2 && afterUndo == 1
    ensures !animating
  {
    var screen := new FeedScreen(screenWidth, screenHeight, dockWidth, statusBarHeight);
    screen.PanStart();
    screen.PanActive(-150);
    screen.PanEnd(-150);
    screen.SettleTranslateX();
    screen.SettleTranslateX();
    afterFirst := screen.currentIndex;
    screen.PanStart();
    screen.PanActive(-120);
    screen.PanEnd(-120);
    screen.SettleTranslateX();
    screen.SettleTranslateX();
    afterSecond := screen.currentIndex;
    screen.OnUndo();
    screen.SettleTranslateX();
    screen.SettleTranslateX();
    afterUndo := screen.currentIndex;
    animating := screen.isAnimating;
  }

  /** A release exactly at the threshold springs back and keeps the card; one unit past
      it starts a transition. */
  method ReleaseAtThreshold(screenWidth: int, screenHeight: int, dockWidth: int, statusBarHeight: nat)
    returns (indexAtThreshold: int, offsetTarget: int, animatingAtThreshold: bool, animatingPast: bool)
    requires 0 < screenWidth && 0 < screenHeight && 0 < dockWidth
    ensures indexAtThreshold == 0 && offsetTarget == 0 && !animatingAtThreshold
    ensures animatingPast
  {
    var screen := new FeedScreen(screenWidth, screenHeight, dockWidth, statusBarHeight);
    screen.PanStart();
    screen.PanActive(SwipeThreshold);
    screen.PanEnd(SwipeThreshold);
    indexAtThreshold, offsetTarget, animatingAtThreshold := screen.currentIndex, screen.translateX.target, screen.isAnimating;
    screen.SettleTranslateX();
    screen.PanStart();
    screen.PanActive(SwipeThreshold + 1);
    screen.PanEnd(SwipeThreshold + 1);
    animatingPast := screen.isAnimating;
  }

  /** Grabbing the card while it is flying out interrupts the exit spring: the index is
      never swapped, the guard never comes down, and the next swipe and undo are
      dropped. */
  method DragDuringExitBlocksNavigation(screenWidth: int, screenHeight: int, dockWidth: int, statusBarHeight: nat)
    returns (index: int, animating: bool, blocked: bool)
    requires 0 < screenWidth && 0 < screenHeight && 0 < dockWidth
    ensures index == 0 && animating && blocked
  {
    var screen := new FeedScreen(screenWidth, screenHeight, dockWidth, statusBarHeight);
    screen.PanStart();
    screen.PanActive(150);
    screen.PanEnd(150);
    screen.PanStart();
    screen.PanActive(20);
    screen.PanActive(200);
    screen.PanEnd(200);
    screen.SettleTranslateX();
    screen.OnUndo();
    screen.SettleTranslateX();
    index, animating, blocked := screen.currentIndex, screen.isAnimating, screen.Blocked();
  }

  /** Opening the settings dock and picking entry 2 shows card 2 at once and closes the
      dock, with no transition. */
  method PickFromSettings(screenWidth: int, screenHeight: int, dockWidth: int, statusBarHeight: nat)
    returns (index: int, settingsOpen: bool, animating: bool, offset: int)
    requires 0 < screenWidth && 0 < screenHeight && 0 < dockWidth
    ensures index == 2 && !settingsOpen && !animating && offset == 0
  {
    var screen := new FeedScreen(screenWidth, screenHeight, dockWidth, statusBarHeight);
    screen.ToggleSettingsDock();
    screen.SettleSettingsDock();
    screen.SelectItem(2);
    index, settingsOpen, animating, offset := screen.currentIndex, screen.settingsDock.open, screen.isAnimating, screen.translateX.current;
  }

  /** Dragging the open settings dock by 30 snaps it back open; by 60 closes it. */
  method DragSettingsDock(screenWidth: int, screenHeight: int, dockWidth: int, statusBarHeight: nat)
    returns (openAfterShort: bool, targetAfterShort: int, openAfterLong: bool, targetAfterLong: int)
    requires 0 < screenWidth && 0 < screenHeight && 0 < dockWidth
    ensures openAfterShort && targetAfterShort == statusBarHeight + HeaderBase + SettingsDockGap
    ensures !openAfterLong && targetAfterLong == screenHeight
  {
    var screen := new FeedScreen(screenWidth, screenHeight, dockWidth, statusBarHeight);
    screen.ToggleSettingsDock();
    screen.SettleSettingsDock();
    screen.SettingsPanStart();
    screen.SettingsPanActive(30);
    screen.SettingsPanEnd(30);
    openAfterShort, targetAfterShort := screen.settingsDock.open, screen.settingsDock.position.target;
    screen.SettleSettingsDock();
    screen.SettingsPanStart();
    screen.SettingsPanActive(60);
    screen.SettingsPanEnd(60);
    openAfterLong, targetAfterLong := screen.settingsDock.open, screen.settingsDock.position.target;
  }

  /** The settings dock's snap-back keeps the flag: releasing a short drag while the
      dock slides away after a toggle sends it back open while its flag stays false. */
  method SnapBackWhileClosing(screenWidth: int, screenHeight: int, dockWidth: int, statusBarHeight: nat)
    returns (settingsOpen: bool, target: int)
    requires 0 < screenWidth && 0 < screenHeight && 0 < dockWidth
    ensures !settingsOpen && target == statusBarHeight + HeaderBase + SettingsDockGap
  {
    var screen := new FeedScreen(screenWidth, screenHeight, dockWidth, statusBarHeight);
    screen.ToggleSettingsDock();
    screen.SettleSettingsDock();
    screen.ToggleSettingsDock();
    screen.SettingsPanStart();
    screen.SettingsPanActive(10);
    screen.SettingsPanEnd(10);
    settingsOpen, target := screen.settingsDock.open, screen.settingsDock.position.target;
  }

  /** From any idle state, a swipe whose two springs run to completion shows the next
      card, lowers the guard and leaves the card centred. */
  method CompletedSwipe(screen: FeedScreen, direction: Direction)
    requires screen.Valid() && !screen.isAnimating
    modifies screen
    ensures screen.Valid()
    ensures screen.currentIndex == ForwardIndex(old(screen.currentIndex), DataLength)
    ensures !screen.isAnimating && screen.translateX == Fixed(0)
  {
    screen.OnSwipeForward(direction);
    screen.SettleTranslateX();
    screen.SettleTranslateX();
  }

  /** Picking an entry while the settings dock is on screen with its flag false (after a
      snap-back during closing) toggles the flag back to true and aims the dock open. */
  method PickWhileClosingReopens(screenWidth: int, screenHeight: int, dockWidth: int, statusBarHeight: nat)
    returns (index: int, settingsOpen: bool, target: int)
    requires 0 < screenWidth && 0 < screenHeight && 0 < dockWidth
    ensures index == 2 && settingsOpen && target == statusBarHeight + HeaderBase + SettingsDockGap
  {
    var screen := new FeedScreen(screenWidth, screenHeight, dockWidth, statusBarHeight);
    screen.ToggleSettingsDock();
    screen.SettleSettingsDock();
    screen.ToggleSettingsDock();
    screen.SettingsPanStart();
    screen.SettingsPanActive(10);
    screen.SettingsPanEnd(10);
    screen.SelectItem(2);
    index, settingsOpen, target := screen.currentIndex, screen.settingsDock.open, screen.settingsDock.position.target;
  }
}
