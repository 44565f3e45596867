/** The prop-driven bottom sheet draft: a sheet listing every feed item whose open
    state belongs to its parent.  The sheet only animates its own vertical position;
    to open or close it asks the parent through the `toggleDock` callback, and the
    parent answers by passing a new `isDockOpen`.  The requests are counted here; what
    the parent does with them is outside this component. */
module Dock {
  import opened SharedValues

  /** Header height without the status bar; the open sheet rests right below it. */
  const DockHeaderBase: int := 56
  /** Downward drag that a released sheet must strictly exceed to take the closing branch. */
  const DockCloseDistance: int := 100

  class BottomSheet {
    /** `DOCK_OPEN_POSITION`, the header height. */
    const openPosition: int
    /** `DOCK_CLOSED_POSITION`, the screen height. */
    const closedPosition: int

    /** The `isDockOpen` prop as last rendered. */
    var isDockOpen: bool
    var dockTranslateY: Spring<int>
    var startY: int
    /** How many times the sheet has called `toggleDock`. */
    var toggleRequests: nat

    /** The position the sheet rests at when the parent says `open`. */
    function RestingPosition(open: bool): int {
      if open then openPosition else closedPosition
    }

    /** Mounting: the shared value starts at the resting position for the initial prop
        (the mount-time run of the effect retargets it to that same position). */
    constructor (statusBarHeight: nat, screenHeight: int, isDockOpen: bool)
      ensures openPosition == statusBarHeight + DockHeaderBase && closedPosition == screenHeight
      ensures this.isDockOpen == isDockOpen
      ensures dockTranslateY == Fixed(if isDockOpen then openPosition else closedPosition)
      ensures toggleRequests == 0
    {
      openPosition := statusBarHeight + DockHeaderBase;
      closedPosition := screenHeight;
      this.isDockOpen := isDockOpen;
      dockTranslateY := Fixed(if isDockOpen then statusBarHeight + DockHeaderBase else screenHeight);
      startY := 0;
      toggleRequests := 0;
    }

    /** A render with prop `open`.  The effect depends on `isDockOpen` only, so it
        retargets the sheet exactly when the prop changed. */
    method ReceiveProp(open: bool)
      modifies this
      ensures isDockOpen == open
      ensures dockTranslateY == if open != old(isDockOpen)
        then old(dockTranslateY).Retarget(RestingPosition(open)) else old(dockTranslateY)
      ensures startY == old(startY) && toggleRequests == old(toggleRequests)
    {
      if open != isDockOpen {
        dockTranslateY := dockTranslateY.Retarget(RestingPosition(open));
      }
      isDockOpen := open;
    }

    /** The pan gesture's `onStart`. */
    method PanStart()
      modifies this
      ensures startY == old(dockTranslateY).current
      ensures isDockOpen == old(isDockOpen) && dockTranslateY == old(dockTranslateY)
      ensures toggleRequests == old(toggleRequests)
    {
      startY := dockTranslateY.current;
    }

    /** The pan gesture's `onActive`: the sheet follows the finger but never rises
        above its open position. */
    method PanActive(translationY: int)
      modifies this
      ensures dockTranslateY == Fixed(AtLeast(openPosition, old(startY) + translationY))
      ensures openPosition <= dockTranslateY.current
      ensures isDockOpen == old(isDockOpen) && startY == old(startY)
      ensures toggleRequests == old(toggleRequests)
    {
      dockTranslateY := Fixed(AtLeast(openPosition, startY + translationY));
    }

    /** The pan gesture's `onEnd`: a drag of more than 100 down springs toward the
        closed position, anything else toward the open one; both branches call
        `toggleDock` once. */
    method PanEnd(translationY: int)
      modifies this
      ensures dockTranslateY == old(dockTranslateY).Retarget(
        if translationY > DockCloseDistance then closedPosition else openPosition)
      ensures toggleRequests == old(toggleRequests) + 1
      ensures isDockOpen == old(isDockOpen) && startY == old(startY)
    {
      if translationY > DockCloseDistance {
        dockTranslateY := dockTranslateY.Retarget(closedPosition);
        toggleRequests := toggleRequests + 1;
      } else {
        dockTranslateY := dockTranslateY.Retarget(openPosition);
        toggleRequests := toggleRequests + 1;
      }
    }

    /** The close button: one `toggleDock` request, no direct write to the position. */
    method PressClose()
      modifies this
      ensures toggleRequests == old(toggleRequests) + 1
      ensures dockTranslateY == old(dockTranslateY)
      ensures isDockOpen == old(isDockOpen) && startY == old(startY)
    {
      toggleRequests := toggleRequests + 1;
    }

    /** The sheet's spring reaches its target. */
    method Settle()
      modifies this
      ensures dockTranslateY == old(dockTranslateY).Settled()
      ensures isDockOpen == old(isDockOpen) && startY == old(startY)
      ensures toggleRequests == old(toggleRequests)
    {
      dockTranslateY := dockTranslateY.Settled();
    }
  }

  /** With a parent that flips `isDockOpen` on every `toggleDock` request: releasing a
      short drag on the open sheet snaps it back, but the request sent from the
      snap-back branch makes the parent close it. */
  method SmallDragOnOpenSheetCloses(statusBarHeight: nat, screenHeight: int)
    returns (open: bool, target: int, requests: nat)
    ensures !open && target == screenHeight && requests == 1
  {
    var sheet := new BottomSheet(statusBarHeight, screenHeight, true);
    sheet.PanStart();
    sheet.PanActive(40);
    sheet.PanEnd(40);
    sheet.ReceiveProp(!sheet.isDockOpen);
    open, target, requests := sheet.isDockOpen, sheet.dockTranslateY.target, sheet.toggleRequests;
  }

  /** Dragging the sheet up does not lift it above the open position, whatever the
      translation. */
  method DragUpIsClamped(statusBarHeight: nat, screenHeight: int, translationY: int)
    returns (position: int)
    requires translationY < 0
    ensures position == statusBarHeight + DockHeaderBase
  {
    var sheet := new BottomSheet(statusBarHeight, screenHeight, true);
    sheet.PanStart();
    sheet.PanActive(translationY);
    position := sheet.dockTranslateY.current;
  }
}
