/**
 * The application dock: the swipe-up gesture detected by the outer
 * pointer handlers, press-and-slide activation of an item, and the
 * height the dock grows to.
 */
module Dock {
  import opened Wrappers

  /** Upward travel, in pixels, a press must exceed to count as a swipe. */
  const SwipeThreshold: real := 48.0

  /** `Math.max(dockHeight, magnification + magnification / 2 + 4)` */
  function MaxHeight(dockHeight: real, magnification: real): (h: real)
    ensures h >= dockHeight && h >= 1.5 * magnification + 4.0
    ensures h == dockHeight || h == 1.5 * magnification + 4.0
  {
    var grown := magnification + magnification / 2.0 + 4.0;
    if dockHeight >= grown then dockHeight else grown
  }

  /** The height the dock springs towards: the panel height at rest, the maximum while hovered. */
  function TargetHeight(hovered: bool, panelHeight: real, dockHeight: real, magnification: real): (h: real)
    ensures !hovered ==> h == panelHeight
    ensures hovered ==> h >= dockHeight
  {
    if hovered then MaxHeight(dockHeight, magnification) else panelHeight
  }

  /** With the default props (dock 256, magnification 70) the hovered height is the dock height. */
  lemma DefaultMaxHeight()
    ensures MaxHeight(256.0, 70.0) == 256.0
  {
  }

  /** The outer pointer handlers and the motion values and refs they drive. */
  class Swipe {
    var hovered: bool
    var pressing: bool
    /** The last pointer x; `None` stands for `Infinity`, no pointer. */
    var mouseX: Option<real>
    var startY: Option<real>
    var triggered: bool
    /** How often `onSwipeUp` has been called since the last reset. */
    ghost var firesSincePress: nat

    /** A trigger needs a live press, and at most one call happens per press, only once triggered. */
    ghost predicate Valid()
      reads this
    {
      firesSincePress <= 1
      && (firesSincePress == 1 ==> triggered)
      && (triggered ==> pressing && startY.Some?)
    }

    constructor()
      ensures Valid() && !hovered && !pressing && mouseX == None && startY == None && !triggered
    {
      hovered := false;
      pressing := false;
      mouseX := None;
      startY := None;
      triggered := false;
      firesSincePress := 0;
    }

    /** `onPointerDown`: start a press at (x, y) with the trigger cleared. */
    method PointerDown(x: real, y: real)
      modifies this
      ensures Valid()
      ensures hovered && pressing && mouseX == Some(x) && startY == Some(y) && !triggered
      ensures firesSincePress == 0
    {
      hovered := true;
      pressing := true;
      mouseX := Some(x);
      startY := Some(y);
      triggered := false;
      firesSincePress := 0;
    }

    /** Whether a move to height `y` completes a swipe. */
    predicate Completes(y: real)
      reads this
    {
      pressing && startY.Some? && !triggered && startY.value - y > SwipeThreshold
    }

    /** `onPointerMove`: a move more than 48 pixels above the start triggers once; `onSwipeUp` is called when given. */
    method PointerMove(x: real, y: real, hasHandler: bool) returns (fired: bool)
      modifies this
      requires Valid()
      ensures Valid()
      ensures fired <==> old(Completes(y)) && hasHandler
      ensures triggered == (old(triggered) || old(Completes(y)))
      ensures hovered && mouseX == Some(x)
      ensures pressing == old(pressing) && startY == old(startY)
      ensures fired ==> old(firesSincePress) == 0
      ensures firesSincePress == old(firesSincePress) + (if fired then 1 else 0)
    {
      hovered := true;
      mouseX := Some(x);
      fired := false;
      if pressing && startY.Some? && !triggered {
        var deltaY := startY.value - y;
        if deltaY > SwipeThreshold {
          triggered := true;
          if hasHandler {
            fired := true;
            firesSincePress := firesSincePress + 1;
          }
        }
      }
    }

    /** `onPointerUp`, `onPointerCancel` and `onPointerLeave` share this body. */
    method Reset()
      modifies this
      ensures Valid()
      ensures !hovered && !pressing && mouseX == None && startY == None && !triggered
      ensures firesSincePress == 0
    {
      hovered := false;
      pressing := false;
      mouseX := None;
      startY := None;
      triggered := false;
      firesSincePress := 0;
    }

    method PointerUp()
      modifies this
      ensures Valid() && !hovered && !pressing && mouseX == None && startY == None && !triggered
    {
      Reset();
    }

    method PointerCancel()
      modifies this
      ensures Valid() && !hovered && !pressing && mouseX == None && startY == None && !triggered
    {
      Reset();
    }

    method PointerLeave()
      modifies this
      ensures Valid() && !hovered && !pressing && mouseX == None && startY == None && !triggered
    {
      Reset();
    }

    /** A move with no press in progress never fires. */
    method MoveWithoutPress(x: real, y: real, hasHandler: bool) returns (fired: bool)
      modifies this
      requires Valid() && !pressing
      ensures !fired && Valid()
    {
      fired := PointerMove(x, y, hasHandler);
    }
  }

  /** One dock item's hover flag. */
  class Item {
    var hovered: bool

    constructor()
      ensures !hovered
    {
      hovered := false;
    }

    /** `onPointerEnter`: hover, and activate the item when the dock is being pressed. */
    method PointerEnter(dock: Swipe, hasClick: bool) returns (activate: bool)
      modifies this
      ensures hovered && (activate <==> dock.pressing && hasClick)
    {
      hovered := true;
      activate := dock.pressing && hasClick;
    }

    /** `onPointerLeave`, `onHoverEnd` and `onBlur` clear the hover flag. */
    method Unhover()
      modifies this
      ensures !hovered
    {
      hovered := false;
    }
  }

  /** Two upward moves in one press call `onSwipeUp` once; a new press can call it again. */
  method SwipeOncePerPress() returns (first: bool, second: bool, afterNewPress: bool)
    ensures first && !second && afterNewPress
  {
    var d := new Swipe();
    d.PointerDown(10.0, 300.0);
    first := d.PointerMove(10.0, 200.0, true);
    second := d.PointerMove(10.0, 100.0, true);
    d.PointerUp();
    d.PointerDown(10.0, 300.0);
    afterNewPress := d.PointerMove(10.0, 240.0, true);
  }

  /** A 48-pixel move is not enough: the threshold is strict. */
  method ExactThresholdDoesNotFire() returns (fired: bool)
    ensures !fired
  {
    var d := new Swipe();
    d.PointerDown(0.0, 100.0);
    fired := d.PointerMove(0.0, 52.0, true);
  }

  /** Sliding onto an item while pressed activates it; merely hovering does not. */
  method SlideActivates() returns (pressed: bool, hovering: bool)
    ensures pressed && !hovering
  {
    var d := new Swipe();
    var item := new Item();
    hovering := item.PointerEnter(d, true);
    d.PointerDown(0.0, 0.0);
    pressed := item.PointerEnter(d, true);
  }
}
