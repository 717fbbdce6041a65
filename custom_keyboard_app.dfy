/**
 * The input method service: it filters stick samples through a dead zone,
 * drives the two joystick indicators and the radial menu with them, and on a
 * shoulder-button press commits the key of the on-screen keyboard that lies
 * under the matching indicator.
 *
 * Android's plumbing is reduced to values: the text sink is an
 * `InputConnection` object (null when no editor is bound), screen positions
 * and the keyboard's key list are inputs, and the event constants are the
 * Android platform's.
 */
module KeyboardApp {
  import opened Wrappers
  import opened JavaNumerics
  import RadialMenu
  import Joystick

  // ---------------------------------------------------------------------------
  // Dead zone

  /** Stick deflections smaller than this, per axis, are read as zero. */
  const JOYSTICK_DEAD_ZONE: real := 0.15

  function Abs(v: real): real { if v < 0.0 then -v else v }

  /** One axis through the dead zone: zero inside it, untouched outside (no rescaling). */
  function ApplyDeadZone(v: real): (r: real)
    ensures r == 0.0 <==> Abs(v) < JOYSTICK_DEAD_ZONE
    ensures r != 0.0 ==> r == v
    ensures Abs(r) <= Abs(v)
  {
    if Abs(v) < JOYSTICK_DEAD_ZONE then 0.0 else v
  }

  /** Filtering twice is filtering once, and no filtered value lies strictly inside the dead zone. */
  lemma DeadZoneIdempotent(v: real)
    ensures ApplyDeadZone(ApplyDeadZone(v)) == ApplyDeadZone(v)
    ensures ApplyDeadZone(v) == 0.0 || Abs(ApplyDeadZone(v)) >= JOYSTICK_DEAD_ZONE
  {
  }

  /**
   * What one `setCursorPos` call does to an indicator given filtered axes: move
   * it, and snap it back to the centre when both axes are zero.
   */
  function CursorStep(s: Joystick.CircleState, x: real, y: real): (r: Joystick.CircleState)
    ensures !s.isInitialized ==> r == s
    ensures s.isInitialized && x == 0.0 && y == 0.0 ==> r == s.(circleX := s.initialX, circleY := s.initialY)
    ensures !(x == 0.0 && y == 0.0) ==> r == Joystick.Updated(s, x, y)
  {
    var moved := Joystick.Updated(s, x, y);
    if x == 0.0 && y == 0.0 then Joystick.Reset(moved) else moved
  }

  /** The indicator is snapped back exactly when both raw axes lie inside the dead zone. */
  lemma SnapBackExactlyInDeadZone(s: Joystick.CircleState, x: real, y: real)
    requires s.isInitialized
    ensures Abs(x) < JOYSTICK_DEAD_ZONE && Abs(y) < JOYSTICK_DEAD_ZONE ==>
              var r := CursorStep(s, ApplyDeadZone(x), ApplyDeadZone(y));
              r.circleX == s.initialX && r.circleY == s.initialY
    ensures !(Abs(x) < JOYSTICK_DEAD_ZONE && Abs(y) < JOYSTICK_DEAD_ZONE) ==>
              CursorStep(s, ApplyDeadZone(x), ApplyDeadZone(y)) == Joystick.Updated(s, ApplyDeadZone(x), ApplyDeadZone(y))
  {
  }

  // ---------------------------------------------------------------------------
  // Android event constants

  const SOURCE_DPAD: bv32 := 0x0000_0201
  const SOURCE_GAMEPAD: bv32 := 0x0000_0401
  const SOURCE_JOYSTICK: bv32 := 0x0100_0010
  const ACTION_MOVE: int := 2

  const KEYCODE_DPAD_UP: int := 19
  const KEYCODE_DPAD_DOWN: int := 20
  const KEYCODE_DPAD_LEFT: int := 21
  const KEYCODE_DPAD_RIGHT: int := 22
  const KEYCODE_DPAD_CENTER: int := 23
  const KEYCODE_BUTTON_A: int := 96
  const KEYCODE_BUTTON_B: int := 97
  const KEYCODE_BUTTON_X: int := 99
  const KEYCODE_BUTTON_Y: int := 100
  const KEYCODE_BUTTON_Z: int := 101
  const KEYCODE_BUTTON_L1: int := 102
  const KEYCODE_BUTTON_R1: int := 103
  const KEYCODE_BUTTON_L2: int := 104
  const KEYCODE_BUTTON_R2: int := 105

  /** Buttons that press the key under the left indicator. */
  const LEFT_TRIGGER_KEYS: set<int> := {KEYCODE_BUTTON_L2, KEYCODE_BUTTON_Z, KEYCODE_BUTTON_L1}
  /** Buttons that press the key under the right indicator. */
  const RIGHT_TRIGGER_KEYS: set<int> := {KEYCODE_BUTTON_R2, KEYCODE_BUTTON_R1}
  /** Buttons and D-pad keys swallowed without any action. */
  const SWALLOWED_KEYS: set<int> := {
    KEYCODE_BUTTON_A, KEYCODE_BUTTON_B, KEYCODE_BUTTON_Y, KEYCODE_BUTTON_X,
    KEYCODE_DPAD_UP, KEYCODE_DPAD_DOWN, KEYCODE_DPAD_LEFT, KEYCODE_DPAD_RIGHT, KEYCODE_DPAD_CENTER}

  /** `(source & cls) == cls`: the event's source includes the whole class `cls`. */
  predicate HasSource(source: bv32, cls: bv32)
  {
    source & cls == cls
  }

  predicate FromGamepad(source: bv32)
  {
    HasSource(source, SOURCE_GAMEPAD) || HasSource(source, SOURCE_JOYSTICK)
  }

  datatype KeyEvent = KeyEvent(source: bv32)

  /** A motion sample: source class, action, and the four stick axes (X/Y left, Z/RZ right). */
  datatype MotionEvent = MotionEvent(source: bv32, action: int, axisX: real, axisY: real, axisZ: real, axisRz: real)

  /** Whether a handler consumed an event (`return true`) or passed it to the service's default handling. */
  datatype Dispatch = Consumed | PassToSuper

  datatype KeyDownAction = Default | Swallow | PressLeftTrigger | PressRightTrigger

  // ---------------------------------------------------------------------------
  // Key tables

  /**
   * What a key-down does. Only events from a gamepad or joystick source are
   * looked at, and only while an editor is connected; anything else goes to
   * the default handling.
   */
  function KeyDownDecision(keyCode: int, event: Option<KeyEvent>, connected: bool): (a: KeyDownAction)
    ensures a != Default ==> connected && event.Some? && FromGamepad(event.value.source)
    ensures connected && event.Some? && FromGamepad(event.value.source) ==>
              (a == PressLeftTrigger <==> keyCode in LEFT_TRIGGER_KEYS) &&
              (a == PressRightTrigger <==> keyCode in RIGHT_TRIGGER_KEYS) &&
              (a == Swallow <==> keyCode in SWALLOWED_KEYS)
  {
    if event.Some? && connected then
      if FromGamepad(event.value.source) then
        if keyCode == KEYCODE_BUTTON_A then Swallow
        else if keyCode == KEYCODE_BUTTON_B then Swallow
        else if keyCode == KEYCODE_BUTTON_Y then Swallow
        else if keyCode == KEYCODE_BUTTON_X then Swallow
        else if keyCode == KEYCODE_DPAD_UP || keyCode == KEYCODE_DPAD_DOWN || keyCode == KEYCODE_DPAD_LEFT
             || keyCode == KEYCODE_DPAD_RIGHT || keyCode == KEYCODE_DPAD_CENTER then Swallow
        else if keyCode == KEYCODE_BUTTON_L2 || keyCode == KEYCODE_BUTTON_Z || keyCode == KEYCODE_BUTTON_L1 then PressLeftTrigger
        else if keyCode == KEYCODE_BUTTON_R2 || keyCode == KEYCODE_BUTTON_R1 then PressRightTrigger
        else Default
      else Default
    else Default
  }

  /** A key-up is consumed only for B from a gamepad or joystick source; no editor connection is needed. */
  function OnKeyUp(keyCode: int, event: Option<KeyEvent>): (d: Dispatch)
    ensures d == Consumed <==> event.Some? && FromGamepad(event.value.source) && keyCode == KEYCODE_BUTTON_B
  {
    if event.Some? && FromGamepad(event.value.source) && keyCode == KEYCODE_BUTTON_B then Consumed
    else PassToSuper
  }

  /** A move sample from a joystick source. */
  predicate IsJoystickMove(event: MotionEvent)
  {
    HasSource(event.source, SOURCE_JOYSTICK) && event.action == ACTION_MOVE
  }

  /** A move sample from a D-pad source (hat axes). */
  predicate IsDpadMove(event: MotionEvent)
  {
    HasSource(event.source, SOURCE_DPAD) && event.action == ACTION_MOVE
  }

  // ---------------------------------------------------------------------------
  // Key hit test

  datatype Point = Point(x: int, y: int)

  /** A key of the on-screen keyboard: its codes and its rectangle relative to the keyboard view. */
  datatype Key = Key(codes: seq<int>, x: int, y: int, width: int, height: int)

  /** Point `p` (screen coordinates) lies on `key` of a keyboard whose top-left is at `origin`: left and top inclusive, right and bottom exclusive. */
  predicate KeyContains(key: Key, origin: Point, p: Point)
  {
    var left := origin.x + key.x;
    var top := origin.y + key.y;
    left <= p.x < left + key.width && top <= p.y < top + key.height
  }

  /** The index of the first key, in list order, that contains `p`. */
  function FirstKeyAt(keys: seq<Key>, origin: Point, p: Point): (r: Option<nat>)
    ensures r.Some? ==> r.value < |keys| && KeyContains(keys[r.value], origin, p)
    ensures r.Some? ==> forall j :: 0 <= j < r.value ==> !KeyContains(keys[j], origin, p)
    ensures r.None? ==> forall j :: 0 <= j < |keys| ==> !KeyContains(keys[j], origin, p)
  {
    if |keys| == 0 then None
    else if KeyContains(keys[0], origin, p) then Some(0)
    else match FirstKeyAt(keys[1..], origin, p)
      case None => None
      case Some(i) => Some(i + 1)
  }

  /** The single-character text `onKey` commits for a key code. */
  function KeyText(code: int): (t: seq<Char16>)
    ensures |t| == 1 && t[0] == CharOf(code)
  {
    [CharOf(code)]
  }

  /**
   * The texts a trigger press commits to a live connection: the first code of
   * the first key under `p`, if that key has any codes; nothing otherwise.
   */
  function TriggerCommits(keys: seq<Key>, origin: Point, p: Point): (texts: seq<seq<Char16>>)
    ensures |texts| <= 1
    ensures |texts| == 1 <==> FirstKeyAt(keys, origin, p).Some? && |keys[FirstKeyAt(keys, origin, p).value].codes| > 0
    ensures |texts| == 1 ==> texts[0] == KeyText(keys[FirstKeyAt(keys, origin, p).value].codes[0])
  {
    match FirstKeyAt(keys, origin, p)
    case None => []
    case Some(i) => if |keys[i].codes| > 0 then [KeyText(keys[i].codes[0])] else []
  }

  /** The screen point an indicator stands for: the view's screen position plus the circle centre, cast to `int`. */
  function CirclePoint(viewLocation: Point, circleX: real, circleY: real): (p: Point)
    ensures var sx := viewLocation.x as real + circleX;
            (sx >= 0.0 ==> p.x as real <= sx < p.x as real + 1.0) &&
            (sx < 0.0 ==> p.x as real - 1.0 < sx <= p.x as real)
    ensures var sy := viewLocation.y as real + circleY;
            (sy >= 0.0 ==> p.y as real <= sy < p.y as real + 1.0) &&
            (sy < 0.0 ==> p.y as real - 1.0 < sy <= p.y as real)
  {
    Point(Trunc(viewLocation.x as real + circleX), Trunc(viewLocation.y as real + circleY))
  }

  // ---------------------------------------------------------------------------
  // The service

  datatype Keyboard = Keyboard(keys: seq<Key>)

  /** The keyboard view; it may not have a keyboard yet. */
  datatype KeyboardView = KeyboardView(keyboard: Option<Keyboard>)

  /** The text sink of the bound editor. */
  class InputConnection {
    /** Every text committed so far, one entry per `commitText` call. */
    var committed: seq<seq<Char16>>

    constructor ()
      ensures committed == []
    {
      committed := [];
    }

    method CommitText(text: seq<Char16>)
      modifies this
      ensures committed == old(committed) + [text]
    {
      committed := committed + [text];
    }
  }

  class CustomKeyboardApp {
    var joystickViewLeft: Joystick.JoystickCircleView?
    var joystickViewRight: Joystick.JoystickCircleView?
    var radialMenuView: RadialMenu.RadialMenuView?
    var keyboardView: Option<KeyboardView>

    /** The views are attached together, and the two indicators are distinct views. */
    ghost predicate Valid()
      reads this
    {
      && (joystickViewLeft == null <==> radialMenuView == null)
      && (joystickViewRight == null <==> radialMenuView == null)
      && (joystickViewLeft != null ==> joystickViewLeft != joystickViewRight)
    }

    /** The service before its input view exists. */
    constructor ()
      ensures Valid()
      ensures joystickViewLeft == null && joystickViewRight == null && radialMenuView == null
      ensures keyboardView == None
    {
      joystickViewLeft, joystickViewRight := null, null;
      radialMenuView := null;
      keyboardView := None;
    }

    /** The references the input view's creation stores: both indicators, the radial menu and the keyboard. */
    method AttachViews(left: Joystick.JoystickCircleView, right: Joystick.JoystickCircleView,
                       menu: RadialMenu.RadialMenuView, keyboard: Keyboard)
      requires left != right
      modifies this
      ensures Valid()
      ensures joystickViewLeft == left && joystickViewRight == right && radialMenuView == menu
      ensures keyboardView == Some(KeyboardView(Some(keyboard)))
    {
      joystickViewLeft, joystickViewRight := left, right;
      radialMenuView := menu;
      keyboardView := Some(KeyboardView(Some(keyboard)));
    }

    /** `onKey`: commit the one character `(char) primaryCode`, if an editor is connected. */
    method OnKey(primaryCode: int, connection: InputConnection?)
      modifies connection
      ensures connection != null ==> connection.committed == old(connection.committed) + [KeyText(primaryCode)]
    {
      if connection == null {
        return;
      }
      connection.CommitText([CharOf(primaryCode)]);
    }

    /** What a trigger press on indicator `jscv` commits to a live connection. */
    ghost function TriggerTexts(jscv: Joystick.JoystickCircleView?, jscvLocation: Point, keyboardLocation: Point): seq<seq<Char16>>
      reads this, jscv
    {
      if jscv == null || keyboardView.None? || keyboardView.value.keyboard.None? then []
      else TriggerCommits(keyboardView.value.keyboard.value.keys, keyboardLocation,
                          CirclePoint(jscvLocation, jscv.circleX, jscv.circleY))
    }

    /**
     * Presses the key under indicator `jscv`. `jscvLocation` and
     * `keyboardLocation` are the screen positions of the indicator's view and
     * of the keyboard view.
     */
    method HandleTriggerPress(jscv: Joystick.JoystickCircleView?, jscvLocation: Point, keyboardLocation: Point,
                              connection: InputConnection?)
      modifies connection
      ensures connection != null ==>
                connection.committed == old(connection.committed) + TriggerTexts(jscv, jscvLocation, keyboardLocation)
    {
      if jscv == null || keyboardView.None? || keyboardView.value.keyboard.None? {
        return;
      }
      var circleAbsoluteX := Trunc(jscvLocation.x as real + jscv.GetCircleCenterX());
      var circleAbsoluteY := Trunc(jscvLocation.y as real + jscv.GetCircleCenterY());
      var p := Point(circleAbsoluteX, circleAbsoluteY);
      assert p == CirclePoint(jscvLocation, jscv.circleX, jscv.circleY);

      var keys := keyboardView.value.keyboard.value.keys;
      for i := 0 to |keys|
        invariant forall j :: 0 <= j < i ==> !KeyContains(keys[j], keyboardLocation, p)
        invariant connection != null ==> connection.committed == old(connection.committed)
      {
        var key := keys[i];
        var keyAbsoluteLeft := keyboardLocation.x + key.x;
        var keyAbsoluteTop := keyboardLocation.y + key.y;
        var keyAbsoluteRight := keyAbsoluteLeft + key.width;
        var keyAbsoluteBottom := keyAbsoluteTop + key.height;
        if circleAbsoluteX >= keyAbsoluteLeft && circleAbsoluteX < keyAbsoluteRight &&
           circleAbsoluteY >= keyAbsoluteTop && circleAbsoluteY < keyAbsoluteBottom {
          assert FirstKeyAt(keys, keyboardLocation, p) == Some(i);
          if |key.codes| > 0 {
            OnKey(key.codes[0], connection);
          }
          return;
        }
      }
      assert FirstKeyAt(keys, keyboardLocation, p) == None;
    }

    /**
     * `onKeyDown`: the trigger buttons press the key under the matching
     * indicator; the table of `KeyDownDecision` says which events are consumed.
     */
    method OnKeyDown(keyCode: int, event: Option<KeyEvent>, connection: InputConnection?,
                     leftLocation: Point, rightLocation: Point, keyboardLocation: Point)
      returns (d: Dispatch)
      modifies connection
      ensures d == Consumed <==> KeyDownDecision(keyCode, event, connection != null) != Default
      ensures connection != null ==>
                connection.committed == old(connection.committed) +
                  (match KeyDownDecision(keyCode, event, true)
                   case PressLeftTrigger => TriggerTexts(joystickViewLeft, leftLocation, keyboardLocation)
                   case PressRightTrigger => TriggerTexts(joystickViewRight, rightLocation, keyboardLocation)
                   case _ => [])
    {
      var action := KeyDownDecision(keyCode, event, connection != null);
      match action
      case PressLeftTrigger =>
        HandleTriggerPress(joystickViewLeft, leftLocation, keyboardLocation, connection);
        d := Consumed;
      case PressRightTrigger =>
        HandleTriggerPress(joystickViewRight, rightLocation, keyboardLocation, connection);
        d := Consumed;
      case Swallow =>
        d := Consumed;
      case Default =>
        d := PassToSuper;
    }

    /**
     * `setCursorPos`: filters one stick sample through the dead zone, moves the
     * indicator, recomputes the radial menu's hover, and snaps the indicator
     * back when the filtered sample is zero.
     */
    method SetCursorPos(jscv: Joystick.JoystickCircleView, x: real, y: real, atan2Deg: (real, real) -> real)
      requires radialMenuView != null
      requires RadialMenu.IsDegreeAngle(atan2Deg)
      modifies jscv, radialMenuView
      ensures jscv.State() == CursorStep(old(jscv.State()), ApplyDeadZone(x), ApplyDeadZone(y))
      ensures radialMenuView.menuItems == old(radialMenuView.menuItems)
      ensures radialMenuView.hoveredSliceIndex ==
                RadialMenu.HoverSpec(|radialMenuView.menuItems|, ApplyDeadZone(x), ApplyDeadZone(y),
                                     atan2Deg(ApplyDeadZone(y), ApplyDeadZone(x)))
    {
      var fx, fy := x, y;
      if Abs(fx) < JOYSTICK_DEAD_ZONE {
        fx := 0.0;
      }
      if Abs(fy) < JOYSTICK_DEAD_ZONE {
        fy := 0.0;
      }
      jscv.UpdatePosition(fx, fy);
      radialMenuView.UpdateHover(fx, fy, atan2Deg);
      if fx == 0.0 && fy == 0.0 {
        jscv.ResetPosition();
      }
    }

    /**
     * `onGenericMotionEvent`: a joystick move drives the left indicator with
     * X/Y and then the right one with Z/RZ. Both samples go to the one radial
     * menu, so its hover ends up reflecting the right stick alone. A D-pad move
     * is consumed with no effect; everything else, and any event before the
     * views exist, goes to the default handling.
     */
    method OnGenericMotionEvent(event: MotionEvent, atan2Deg: (real, real) -> real) returns (d: Dispatch)
      requires Valid()
      requires RadialMenu.IsDegreeAngle(atan2Deg)
      modifies joystickViewLeft, joystickViewRight, radialMenuView
      ensures d == Consumed <==> joystickViewLeft != null && (IsJoystickMove(event) || IsDpadMove(event))
      ensures joystickViewLeft != null && IsJoystickMove(event) ==>
                && joystickViewLeft.State() ==
                     CursorStep(old(joystickViewLeft.State()), ApplyDeadZone(event.axisX), ApplyDeadZone(event.axisY))
                && joystickViewRight.State() ==
                     CursorStep(old(joystickViewRight.State()), ApplyDeadZone(event.axisZ), ApplyDeadZone(event.axisRz))
                && radialMenuView.menuItems == old(radialMenuView.menuItems)
                && radialMenuView.hoveredSliceIndex ==
                     RadialMenu.HoverSpec(|radialMenuView.menuItems|, ApplyDeadZone(event.axisZ), ApplyDeadZone(event.axisRz),
                                          atan2Deg(ApplyDeadZone(event.axisRz), ApplyDeadZone(event.axisZ)))
      ensures joystickViewLeft == null || !IsJoystickMove(event) ==>
                && (joystickViewLeft != null ==> unchanged(joystickViewLeft))
                && (joystickViewRight != null ==> unchanged(joystickViewRight))
                && (radialMenuView != null ==> unchanged(radialMenuView))
    {
      if joystickViewLeft == null || joystickViewRight == null {
        return PassToSuper;
      }
      if IsJoystickMove(event) {
        var x := event.axisX;
        var y := event.axisY;
        var rx := event.axisZ;
        var ry := event.axisRz;
        SetCursorPos(joystickViewLeft, x, y, atan2Deg);
        SetCursorPos(joystickViewRight, rx, ry, atan2Deg);
        return Consumed;
      }
      if IsDpadMove(event) {
        return Consumed;
      }
      return PassToSuper;
    }
  }
}
