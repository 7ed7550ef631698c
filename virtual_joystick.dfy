/** The on-screen joystick: a cursor displacement from the base's centre is
    held inside a disk of radius 56 pixels, shown as the knob's offset and
    reported as a vector in the unit disk with the y axis pointing up.
    `Math.sqrt` is supplied as the `distance` argument, constrained to be the
    displacement's length. */
module VirtualJoystick {

  datatype JoystickPosition = JoystickPosition(x: real, y: real)

  /** How far, in pixels, the knob may move from the centre. */
  const MaxDistance: real := 56.0

  /** `distance` is the length of (dx, dy), as `Math.sqrt` computes it. */
  predicate IsLength(dx: real, dy: real, distance: real)
  {
    distance >= 0.0 && distance * distance == dx * dx + dy * dy
  }

  /** The knob offset for a displacement: kept when it lies within the disk,
      otherwise scaled back onto its rim along the same ray. */
  function KnobOffset(dx: real, dy: real, distance: real): (p: JoystickPosition)
    requires IsLength(dx, dy, distance)
    ensures p.x * p.x + p.y * p.y <= MaxDistance * MaxDistance
    ensures distance <= MaxDistance ==> p == JoystickPosition(dx, dy)
    ensures distance > MaxDistance ==> p.x * p.x + p.y * p.y == MaxDistance * MaxDistance
    ensures p.x * dy == p.y * dx && p.x * dx >= 0.0 && p.y * dy >= 0.0
  {
    if distance > MaxDistance then
      var k := MaxDistance / distance;
      assert 0.0 < k < 1.0;
      assert k * k * (distance * distance) == MaxDistance * MaxDistance;
      assert (k * dx) * (k * dx) + (k * dy) * (k * dy) == k * k * (dx * dx + dy * dy);
      assert (k * dx) * dy == (k * dy) * dx;
      assert (k * dx) * dx == k * (dx * dx) && (k * dy) * dy == k * (dy * dy);
      JoystickPosition(k * dx, k * dy)
    else
      assert dx * dx + dy * dy <= MaxDistance * MaxDistance by {
        assert (MaxDistance - distance) * distance >= 0.0;
        assert (MaxDistance - distance) * MaxDistance >= 0.0;
      }
      JoystickPosition(dx, dy)
  }

  /** The reported vector for a knob offset: scaled to the unit disk, with the
      screen's downward y turned into "forward is positive". */
  function Normalize(p: JoystickPosition): (n: JoystickPosition)
    ensures n.x * MaxDistance == p.x && n.y * MaxDistance == -p.y
    ensures p.x * p.x + p.y * p.y <= MaxDistance * MaxDistance ==> n.x * n.x + n.y * n.y <= 1.0
  {
    var n := JoystickPosition(p.x / MaxDistance, -p.y / MaxDistance);
    assert n.x * n.x + n.y * n.y == (p.x * p.x + p.y * p.y) / (MaxDistance * MaxDistance);
    n
  }

  /** The knob offset a reported vector came from. */
  function Denormalize(n: JoystickPosition): JoystickPosition
  {
    JoystickPosition(n.x * MaxDistance, -n.y * MaxDistance)
  }

  /** Normalising loses nothing: the knob offset can be read back. */
  lemma NormalizeRoundTrip(p: JoystickPosition, n: JoystickPosition)
    ensures Denormalize(Normalize(p)) == p
    ensures Normalize(Denormalize(n)) == n
  {
  }

  /** A real whose square is at most 1 lies in [-1, 1]. */
  lemma UnitSquare(a: real)
    requires a * a <= 1.0
    ensures -1.0 <= a <= 1.0
  {
  }

  /** What a move reports lies in the unit disk, so each component lies in
      [-1, 1]. */
  lemma ReportedInUnitDisk(dx: real, dy: real, distance: real)
    requires IsLength(dx, dy, distance)
    ensures var n := Normalize(KnobOffset(dx, dy, distance));
      && n.x * n.x + n.y * n.y <= 1.0
      && -1.0 <= n.x <= 1.0 && -1.0 <= n.y <= 1.0
  {
    var n := Normalize(KnobOffset(dx, dy, distance));
    assert n.x * n.x <= 1.0 && n.y * n.y <= 1.0;
    UnitSquare(n.x);
    UnitSquare(n.y);
  }

  /** Example: a cursor 100 pixels right of centre is clamped to the rim and
      reported as full right, (1, 0). */
  lemma FarRightIsFullRight()
    ensures KnobOffset(100.0, 0.0, 100.0) == JoystickPosition(MaxDistance, 0.0)
    ensures Normalize(KnobOffset(100.0, 0.0, 100.0)) == JoystickPosition(1.0, 0.0)
  {
  }

  /** The joystick widget: its knob offset, whether a drag is in progress and
      the vectors it has reported through `onMove`, oldest first. */
  class Joystick {
    var position: JoystickPosition
    var isDragging: bool
    var disabled: bool
    /** Whether the base element is mounted (`baseRef.current` is set). */
    var mounted: bool
    var reported: seq<JoystickPosition>

    constructor (disabled: bool, mounted: bool)
      ensures position == JoystickPosition(0.0, 0.0) && !isDragging
      ensures this.disabled == disabled && this.mounted == mounted && reported == []
    {
      position := JoystickPosition(0.0, 0.0);
      isDragging := false;
      this.disabled := disabled;
      this.mounted := mounted;
      reported := [];
    }

    /** `handleMove`: for a cursor at (clientX, clientY) and a base centred at
        (centerX, centerY), sets the knob offset and reports the normalised
        vector; does nothing while disabled or unmounted. */
    method HandleMove(clientX: real, clientY: real, centerX: real, centerY: real, distance: real)
      requires IsLength(clientX - centerX, clientY - centerY, distance)
      modifies this
      ensures (!mounted || disabled) ==> unchanged(this)
      ensures mounted && !disabled ==>
        && position == KnobOffset(clientX - centerX, clientY - centerY, distance)
        && reported == old(reported) + [Normalize(position)]
        && isDragging == old(isDragging) && disabled == old(disabled) && mounted == old(mounted)
    {
      if !mounted || disabled {
        return;
      }
      var deltaX := clientX - centerX;
      var deltaY := clientY - centerY;
      if distance > MaxDistance {
        deltaX := (deltaX / distance) * MaxDistance;
        deltaY := (deltaY / distance) * MaxDistance;
      }
      var normalizedX := deltaX / MaxDistance;
      var normalizedY := -deltaY / MaxDistance;
      position := JoystickPosition(deltaX, deltaY);
      reported := reported + [JoystickPosition(normalizedX, normalizedY)];
    }

    /** `handleStart`: unless disabled, begins a drag and performs one move. */
    method HandleStart(clientX: real, clientY: real, centerX: real, centerY: real, distance: real)
      requires IsLength(clientX - centerX, clientY - centerY, distance)
      modifies this
      ensures disabled ==> unchanged(this)
      ensures !disabled ==> isDragging && disabled == old(disabled) && mounted == old(mounted)
      ensures !disabled && mounted ==>
        && position == KnobOffset(clientX - centerX, clientY - centerY, distance)
        && reported == old(reported) + [Normalize(position)]
      ensures !disabled && !mounted ==> position == old(position) && reported == old(reported)
    {
      if disabled {
        return;
      }
      isDragging := true;
      HandleMove(clientX, clientY, centerX, centerY, distance);
    }

    /** `handleEnd`: ends the drag, recentres the knob and reports (0, 0). */
    method HandleEnd()
      modifies this
      ensures !isDragging && position == JoystickPosition(0.0, 0.0)
      ensures reported == old(reported) + [JoystickPosition(0.0, 0.0)]
      ensures disabled == old(disabled) && mounted == old(mounted)
    {
      isDragging := false;
      position := JoystickPosition(0.0, 0.0);
      reported := reported + [JoystickPosition(0.0, 0.0)];
    }

    /** The window's `mousemove` listener: moves only while dragging. */
    method MouseMove(clientX: real, clientY: real, centerX: real, centerY: real, distance: real)
      requires IsLength(clientX - centerX, clientY - centerY, distance)
      modifies this
      ensures !old(isDragging) ==> unchanged(this)
      ensures old(isDragging) && mounted && !disabled ==>
        && position == KnobOffset(clientX - centerX, clientY - centerY, distance)
        && reported == old(reported) + [Normalize(position)]
      ensures old(isDragging) && (!mounted || disabled) ==>
        position == old(position) && reported == old(reported)
      ensures isDragging == old(isDragging) && disabled == old(disabled) && mounted == old(mounted)
    {
      if isDragging {
        HandleMove(clientX, clientY, centerX, centerY, distance);
      }
    }

    /** The window's `touchmove` listener: moves to the first touch point
        only while dragging and while some finger is down. */
    method TouchMove(touches: seq<JoystickPosition>, centerX: real, centerY: real, distance: real)
      requires touches != [] ==> IsLength(touches[0].x - centerX, touches[0].y - centerY, distance)
      modifies this
      ensures !(old(isDragging) && touches != []) ==> unchanged(this)
      ensures old(isDragging) && touches != [] && mounted && !disabled ==>
        && position == KnobOffset(touches[0].x - centerX, touches[0].y - centerY, distance)
        && reported == old(reported) + [Normalize(position)]
      ensures old(isDragging) && touches != [] && (!mounted || disabled) ==>
        position == old(position) && reported == old(reported)
      ensures isDragging == old(isDragging) && disabled == old(disabled) && mounted == old(mounted)
    {
      if isDragging && |touches| > 0 {
        HandleMove(touches[0].x, touches[0].y, centerX, centerY, distance);
      }
    }

    /** The window's `mouseup` and `touchend` listener: ends a drag in
        progress, and does nothing otherwise. */
    method Up()
      modifies this
      ensures !old(isDragging) ==> unchanged(this)
      ensures old(isDragging) ==>
        && !isDragging && position == JoystickPosition(0.0, 0.0)
        && reported == old(reported) + [JoystickPosition(0.0, 0.0)]
      ensures disabled == old(disabled) && mounted == old(mounted)
    {
      if isDragging {
        HandleEnd();
      }
    }
  }
}
