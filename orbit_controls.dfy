/** Drag-to-rotate control of the 3D desk scene (js/main.js:230-285): the
    closure state the mouse and touch handlers share, and the handlers.
    Pointer coordinates and rotations are real numbers (radians for the
    rotations). */
module OrbitControls {

  /** Radians of target rotation per pixel of pointer travel. */
  const RotationPerPixel: real := 0.01
  /** The bound on the target pitch, on both sides of 0. */
  const PitchLimit: real := 0.5

  /** `Math.min` */
  function Min(a: real, b: real): real {
    if a <= b then a else b
  }

  /** `Math.max` */
  function Max(a: real, b: real): real {
    if a >= b then a else b
  }

  /** `Math.max(-0.5, Math.min(0.5, x))`: the pitch limited to [-0.5, 0.5]. */
  function ClampPitch(x: real): (r: real)
    ensures -PitchLimit <= r <= PitchLimit
    ensures -PitchLimit <= x <= PitchLimit ==> r == x
    ensures x > PitchLimit ==> r == PitchLimit
    ensures x < -PitchLimit ==> r == -PitchLimit
  {
    Max(-PitchLimit, Min(PitchLimit, x))
  }

  /** The clamped pitch is the point of [-0.5, 0.5] nearest to the unclamped one. */
  lemma ClampPitchIsNearest(x: real, w: real)
    requires -PitchLimit <= w <= PitchLimit
    ensures var r := ClampPitch(x);
      (if r >= x then r - x else x - r) <= (if w >= x then w - x else x - w)
  {
  }

  /** Clamping twice is clamping once. */
  lemma ClampPitchIdempotent(x: real)
    ensures ClampPitch(ClampPitch(x)) == ClampPitch(x)
  {
  }

  class DragControls {
    /** `isDragging` */
    var isDragging: bool
    /** `previousMousePosition` */
    var previousX: real
    var previousY: real
    /** `targetRotationY`: the yaw the render loop damps the rig towards */
    var targetRotationY: real
    /** `targetRotationX`: the pitch, computed but not applied by the render loop */
    var targetRotationX: real
    /** `container.style.cursor`, set by the mouse handlers only */
    var cursor: string

    /** Where the pointer was, and what the yaw was, when the current drag began. */
    ghost var grabX: real
    ghost var grabRotationY: real

    /** The pitch stays within its limits, and during a drag the yaw has moved
        from its value at the grab by exactly the horizontal distance the
        pointer travelled, times `RotationPerPixel`, whatever path it took. */
    ghost predicate Valid()
      reads this
    {
      && -PitchLimit <= targetRotationX <= PitchLimit
      && (isDragging ==> targetRotationY == grabRotationY + (previousX - grabX) * RotationPerPixel)
    }

    /** The initial values of the closure variables. */
    constructor ()
      ensures Valid() && !isDragging
      ensures previousX == 0.0 && previousY == 0.0
      ensures targetRotationY == 0.0 && targetRotationX == 0.0
      ensures cursor == ""
    {
      isDragging := false;
      previousX, previousY := 0.0, 0.0;
      targetRotationY, targetRotationX := 0.0, 0.0;
      cursor := "";
      grabX, grabRotationY := 0.0, 0.0;
    }

    /** `mousedown` on the container: a drag begins at the pointer. */
    method HandleMouseDown(clientX: real, clientY: real)
      requires Valid()
      modifies this
      ensures Valid() && isDragging
      ensures previousX == clientX && previousY == clientY
      ensures targetRotationY == old(targetRotationY) && targetRotationX == old(targetRotationX)
      ensures cursor == "grabbing"
      ensures grabX == clientX && grabRotationY == old(targetRotationY)
    {
      isDragging := true;
      previousX, previousY := clientX, clientY;
      cursor := "grabbing";
      grabX, grabRotationY := clientX, targetRotationY;
    }

    /** `mouseup` anywhere in the window: the drag ends, wherever the pointer is. */
    method HandleMouseUp()
      requires Valid()
      modifies this
      ensures Valid() && !isDragging
      ensures previousX == old(previousX) && previousY == old(previousY)
      ensures targetRotationY == old(targetRotationY) && targetRotationX == old(targetRotationX)
      ensures cursor == "grab"
      ensures grabX == old(grabX) && grabRotationY == old(grabRotationY)
    {
      isDragging := false;
      cursor := "grab";
    }

    /** `mousemove` anywhere in the window. Outside a drag nothing changes; in
        one, the yaw follows the horizontal travel, the pitch the vertical
        travel limited to [-0.5, 0.5], and the pointer is recorded. */
    method HandleMouseMove(clientX: real, clientY: real)
      requires Valid()
      modifies this
      ensures Valid()
      ensures !old(isDragging) ==> unchanged(this)
      ensures old(isDragging) ==>
        && isDragging
        && targetRotationY == old(targetRotationY) + (clientX - old(previousX)) * RotationPerPixel
        && targetRotationX == ClampPitch(old(targetRotationX) + (clientY - old(previousY)) * RotationPerPixel)
        && previousX == clientX && previousY == clientY
        && cursor == old(cursor)
        && grabX == old(grabX) && grabRotationY == old(grabRotationY)
        && targetRotationY == grabRotationY + (clientX - grabX) * RotationPerPixel
    {
      if !isDragging {
        return;
      }
      var deltaX, deltaY := clientX - previousX, clientY - previousY;
      targetRotationY := targetRotationY + deltaX * RotationPerPixel;
      targetRotationX := targetRotationX + deltaY * RotationPerPixel;
      targetRotationX := Max(-PitchLimit, Min(PitchLimit, targetRotationX));
      previousX, previousY := clientX, clientY;
    }

    /** `touchstart` on the container, with the first touch point: a drag
        begins there; the cursor is left alone. */
    method HandleTouchStart(touchX: real, touchY: real)
      requires Valid()
      modifies this
      ensures Valid() && isDragging
      ensures previousX == touchX && previousY == touchY
      ensures targetRotationY == old(targetRotationY) && targetRotationX == old(targetRotationX)
      ensures cursor == old(cursor)
      ensures grabX == touchX && grabRotationY == old(targetRotationY)
    {
      isDragging := true;
      previousX, previousY := touchX, touchY;
      grabX, grabRotationY := touchX, targetRotationY;
    }

    /** `touchend` anywhere in the window: the drag ends. */
    method HandleTouchEnd()
      requires Valid()
      modifies this
      ensures Valid() && !isDragging
      ensures previousX == old(previousX) && previousY == old(previousY)
      ensures targetRotationY == old(targetRotationY) && targetRotationX == old(targetRotationX)
      ensures cursor == old(cursor)
      ensures grabX == old(grabX) && grabRotationY == old(grabRotationY)
    {
      isDragging := false;
    }

    /** `touchmove` anywhere in the window, with the first touch point. Outside
        a drag nothing changes; in one, only the yaw follows the horizontal
        travel: the pitch is never touched. */
    method HandleTouchMove(touchX: real, touchY: real)
      requires Valid()
      modifies this
      ensures Valid()
      ensures !old(isDragging) ==> unchanged(this)
      ensures old(isDragging) ==>
        && isDragging
        && targetRotationY == old(targetRotationY) + (touchX - old(previousX)) * RotationPerPixel
        && targetRotationX == old(targetRotationX)
        && previousX == touchX && previousY == touchY
        && cursor == old(cursor)
        && grabX == old(grabX) && grabRotationY == old(grabRotationY)
        && targetRotationY == grabRotationY + (touchX - grabX) * RotationPerPixel
    {
      if !isDragging {
        return;
      }
      var deltaX := touchX - previousX;
      targetRotationY := targetRotationY + deltaX * RotationPerPixel;
      previousX, previousY := touchX, touchY;
    }
  }

  /** A mouse drag by (50, 100) pixels turns the yaw by 0.5 and would turn the
      pitch by 1.0, which the limit cuts to 0.5. */
  method MouseDragHitsPitchLimit() returns (yaw: real, pitch: real)
    ensures yaw == 0.5 && pitch == PitchLimit
  {
    var controls := new DragControls();
    controls.HandleMouseDown(200.0, 300.0);
    controls.HandleMouseMove(250.0, 400.0);
    yaw, pitch := controls.targetRotationY, controls.targetRotationX;
  }

  /** The same drag by touch turns the yaw by 0.5 and leaves the pitch at 0. */
  method TouchDragLeavesPitch() returns (yaw: real, pitch: real)
    ensures yaw == 0.5 && pitch == 0.0
  {
    var controls := new DragControls();
    controls.HandleTouchStart(200.0, 300.0);
    controls.HandleTouchMove(250.0, 400.0);
    yaw, pitch := controls.targetRotationY, controls.targetRotationX;
  }

  /** A drag that moves the pointer there and back again, in several moves,
      leaves the yaw where it was at the grab; after the release further moves
      change nothing. */
  method DragThereAndBack(x: real, y: real, dx1: real, dx2: real, dy: real)
    returns (dragging: bool, yaw: real)
    ensures !dragging && yaw == 0.0
  {
    var controls := new DragControls();
    controls.HandleMouseDown(x, y);
    controls.HandleMouseMove(x + dx1, y + dy);
    controls.HandleTouchMove(x + dx1 + dx2, y);
    controls.HandleMouseMove(x, y - dy);
    controls.HandleMouseUp();
    controls.HandleMouseMove(x + dx1, y + dy);
    dragging, yaw := controls.isDragging, controls.targetRotationY;
  }
}
