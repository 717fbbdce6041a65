# GamepadKeyboard input core, in Dafny

GamepadKeyboard is an Android input method that is driven by a game controller.
Two analog sticks move two joystick indicators over an on-screen keyboard and
hover a slice of a radial menu. The shoulder buttons press the key that lies
under the matching indicator. This project models that core:

- **Radial menu** (`radial_menu_view.dfy`, module `RadialMenu`). The menu lays
  out `n` glyphs as `n` equal slices, with slice 0 centred straight up. The
  class `RadialMenuView` holds the item list and the hovered index. The method
  `UpdateHover` mirrors the Java code step by step: normalise the angle, shift
  it by the first slice's edge, wrap it twice, truncate, clamp. Its result is
  proved equal to `HoverSpec`, a reference definition built on a mod-360
  representative (`Wrap360`) and a floor (`SliceAt`). The lemmas then prove
  that the hit test agrees with the arcs `onDraw` paints (`SliceAtIsArc`),
  that every angle lies on exactly one arc, that one sweep of rotation
  advances the selection by one slice, and that magnitude is ignored beyond
  the zero test.
- **Joystick indicator** (`joystick_circle_view.dfy`, module `Joystick`). The
  class `JoystickCircleView` is tied to a value `CircleState` by its
  `State()` function. Each method is specified by a transition function on
  that value: `SizeChanged`, `Updated` (a linear move clamped into
  `[radius, size - radius]`, see `Tracked`) and `Reset`.
- **Input routing** (`custom_keyboard_app.dfy`, module `KeyboardApp`). It
  covers the per-axis dead zone, the key-down and key-up decision tables, the
  first-match hit test of a point against the keys' half-open rectangles, the
  single-character commit, and `onGenericMotionEvent`. That handler drives the
  left indicator with X/Y and the right one with Z/RZ. Both samples feed the
  one radial menu, so its hover ends up reflecting the right stick.
- **Symbol table** (`radial_menu_set.dfy`, module `RadialMenuSet`). It models
  the set → base/alt pair → left/right keys → lower/upper lists as immutable
  datatypes, with the setters as functional updates and the selector
  `GetPair`.
- `java_numerics.dfy` holds Java's `(int)` cast of a float (truncation toward
  zero) and its `(char)` cast of an `int` (the low sixteen bits).
  `wrappers.dfy` holds `Option`, which stands for a nullable reference.

Floating-point values are `real`. `Math.toDegrees(Math.atan2(y, x))` is a
function parameter `atan2Deg`, whose only stated property is that its values
lie in [-180, 180] (`IsDegreeAngle`). Everything after that call is exact.

The program has no modal state machine: there is no layer cycling, no case
or alternate flag driven by the triggers, no layer dial on the second stick,
and no delete, space or cursor action. `setMenuItems` does not clamp the
hovered index; `getHoveredKey` guards the read instead. The service never
calls `setMenuItems`, so the menu stays empty unless another caller fills it.

## Model

| member | source | states |
|---|---|---|
| `RadialMenu.Sweep` | app/src/main/java/com/example/gamepadkeyboard/RadialMenuView.java:117 | a slice is positive and at most a full turn wide, and `n` slices make exactly 360 degrees |
| `RadialMenu.Wrap360` | app/src/main/java/com/example/gamepadkeyboard/RadialMenuView.java:133-139 | the adjusted angle lies in [0, 360) |
| `RadialMenu.WrapUnique` | app/src/main/java/com/example/gamepadkeyboard/RadialMenuView.java:133-139 | any whole-turn shift of an angle that lands in [0, 360) is the wrapped angle, so the two conditional wraps give the mod-360 value |
| `RadialMenu.SliceAt` | app/src/main/java/com/example/gamepadkeyboard/RadialMenuView.java:141-149 | the floor of adjusted angle over sweep is below the item count, so the clamps never fire in exact arithmetic |
| `RadialMenu.SweepsBelow` | app/src/main/java/com/example/gamepadkeyboard/RadialMenuView.java:141-149 | an adjusted angle in [0, 360) divided by the sweep lies in [0, n) |
| `RadialMenu.HoverSpec` | app/src/main/java/com/example/gamepadkeyboard/RadialMenuView.java:96-153 | the hover is -1 exactly when the list is empty or the vector is (0, 0), and otherwise an index in [0, n-1] |
| `RadialMenu.SliceAtInArc` | app/src/main/java/com/example/gamepadkeyboard/RadialMenuView.java:176-209 | the selected slice is one whose painted arc, from `start + i·sweep` to `start + (i+1)·sweep` up to whole turns, holds the angle |
| `RadialMenu.ArcSelectsSlice` | app/src/main/java/com/example/gamepadkeyboard/RadialMenuView.java:117-141 | an angle on the painted arc of item `i` selects `i` |
| `RadialMenu.SliceAtIsArc` | app/src/main/java/com/example/gamepadkeyboard/RadialMenuView.java:117-141 | the hit test and the drawn layout agree: an angle selects `i` if and only if it lies on arc `i` |
| `RadialMenu.ArcsPartitionTheCircle` | app/src/main/java/com/example/gamepadkeyboard/RadialMenuView.java:133-149 | every angle lies on exactly one slice's arc |
| `RadialMenu.SliceStartStep` | app/src/main/java/com/example/gamepadkeyboard/RadialMenuView.java:178-209 | consecutive arcs start one sweep apart, and the arc after the last is the first one a full turn later |
| `RadialMenu.SliceRotation` | app/src/main/java/com/example/gamepadkeyboard/RadialMenuView.java:117-141 | adding one sweep to the angle moves the selection to the next slice, and from the last slice back to 0 |
| `RadialMenu.HoverIgnoresMagnitude` | app/src/main/java/com/example/gamepadkeyboard/RadialMenuView.java:124-160 | two non-zero vectors with the same angle hover the same slice, because there is no inner-ring gate |
| `RadialMenu.FourSliceExamples` | app/src/main/java/com/example/gamepadkeyboard/RadialMenuView.java:107-141 | with four items, right (0°) selects slice 1, up (-90°) slice 0 and down (90°) slice 2 |
| `RadialMenu.RadialMenuView.constructor` | app/src/main/java/com/example/gamepadkeyboard/RadialMenuView.java:25-33 | a new menu is empty with no hover |
| `RadialMenu.RadialMenuView.SetMenuItems` | app/src/main/java/com/example/gamepadkeyboard/RadialMenuView.java:66-73 | the items become the new list, or empty for null, and the hovered index is untouched |
| `RadialMenu.RadialMenuView.UpdateHover` | app/src/main/java/com/example/gamepadkeyboard/RadialMenuView.java:95-166 | the stored index equals `HoverSpec` of the item count, the vector and its angle, lies in [-1, n-1], and the items are unchanged |
| `RadialMenu.RadialMenuView.SliceArcStarts` | app/src/main/java/com/example/gamepadkeyboard/RadialMenuView.java:176-209 | the accumulated draw angles are `start + i·sweep` with `start = -90 - sweep/2`, one per item |
| `RadialMenu.RadialMenuView.GetHoveredKey` | app/src/main/java/com/example/gamepadkeyboard/RadialMenuView.java:227-231 | a glyph is returned if and only if the index is in range, and it is `menuItems[index]` |
| `Joystick.Tracked` | app/src/main/java/com/example/gamepadkeyboard/JoystickCircleView.java:83-91 | the coordinate is at least the radius and at most `size - radius` when the view is at least `2·radius`; inside those bounds it is `initial + normalized·(size/2 - radius)`; a position below the radius goes to `radius`, one beyond `size - radius` goes to `size - radius`, and in a view narrower than `2·radius` the result is `radius` |
| `Joystick.Fresh` | app/src/main/java/com/example/gamepadkeyboard/JoystickCircleView.java:16-19 | a new indicator is not initialised and has radius 30 |
| `Joystick.SizeChanged` | app/src/main/java/com/example/gamepadkeyboard/JoystickCircleView.java:51-62 | the centre becomes `(w/2, h/2)`, the circle moves there only on the first call, and the view is initialised |
| `Joystick.Updated` | app/src/main/java/com/example/gamepadkeyboard/JoystickCircleView.java:78-94 | no-op before initialisation; afterwards only the circle moves, and it stays within the bounds |
| `Joystick.Reset` | app/src/main/java/com/example/gamepadkeyboard/JoystickCircleView.java:99-104 | no-op before initialisation; afterwards the circle is back at the centre and nothing else changes |
| `Joystick.CentredStickStaysAtCentre` | app/src/main/java/com/example/gamepadkeyboard/JoystickCircleView.java:55-91 | in a view at least twice the radius in each direction, input (0, 0) leaves the circle at `(w/2, h/2)` |
| `Joystick.UpdateForgetsPosition` | app/src/main/java/com/example/gamepadkeyboard/JoystickCircleView.java:83-91 | the position after a sample does not depend on the previous position |
| `Joystick.ResetUndoesUpdate` | app/src/main/java/com/example/gamepadkeyboard/JoystickCircleView.java:99-104 | a reset after any move gives the same state as a reset alone |
| `Joystick.JoystickCircleView.constructor` | app/src/main/java/com/example/gamepadkeyboard/JoystickCircleView.java:16-19 | a new view is in the `Fresh` state |
| `Joystick.JoystickCircleView.GetCircleCenterX` | app/src/main/java/com/example/gamepadkeyboard/JoystickCircleView.java:21-23 | returns the current circle x |
| `Joystick.JoystickCircleView.GetCircleCenterY` | app/src/main/java/com/example/gamepadkeyboard/JoystickCircleView.java:25-27 | returns the current circle y |
| `Joystick.JoystickCircleView.OnSizeChanged` | app/src/main/java/com/example/gamepadkeyboard/JoystickCircleView.java:51-62 | the new state is `SizeChanged` of the old one |
| `Joystick.JoystickCircleView.UpdatePosition` | app/src/main/java/com/example/gamepadkeyboard/JoystickCircleView.java:78-94 | the new state is `Updated` of the old one |
| `Joystick.JoystickCircleView.ResetPosition` | app/src/main/java/com/example/gamepadkeyboard/JoystickCircleView.java:99-104 | the new state is `Reset` of the old one |
| `Joystick.JoystickCircleView.SetCircleRadius` | app/src/main/java/com/example/gamepadkeyboard/JoystickCircleView.java:111-114 | only the radius changes |
| `RadialMenuSet.RadialMenuKeys.SetLower` | app/src/main/java/com/example/gamepadkeyboard/RadialMenuSet.java:99-101 | only the lower list changes |
| `RadialMenuSet.RadialMenuKeys.SetUpper` | app/src/main/java/com/example/gamepadkeyboard/RadialMenuSet.java:107-109 | only the upper list changes |
| `RadialMenuSet.RadialMenuPair.SetLeft` | app/src/main/java/com/example/gamepadkeyboard/RadialMenuSet.java:65-67 | only the left keys change |
| `RadialMenuSet.RadialMenuPair.SetRight` | app/src/main/java/com/example/gamepadkeyboard/RadialMenuSet.java:73-75 | only the right keys change |
| `RadialMenuSet.RadialMenuSet.SetBase` | app/src/main/java/com/example/gamepadkeyboard/RadialMenuSet.java:28-30 | only the base pair changes |
| `RadialMenuSet.RadialMenuSet.SetAlt` | app/src/main/java/com/example/gamepadkeyboard/RadialMenuSet.java:36-38 | only the alternate pair changes |
| `RadialMenuSet.RadialMenuSet.GetPair` | app/src/main/java/com/example/gamepadkeyboard/RadialMenuSet.java:40-42 | `true` selects the alternate pair and `false` the base pair |
| `RadialMenuSet.SetterSelectorLaws` | app/src/main/java/com/example/gamepadkeyboard/RadialMenuSet.java:28-42 | a set pair is what `GetPair` then returns for its side, the other side is unaffected, and setting a side to its own value changes nothing |
| `RadialMenuSet.CaseListsMayDiffer` | app/src/main/java/com/example/gamepadkeyboard/RadialMenuSet.java:81-93 | documentation only, no proof: lower and upper lists of different lengths are a valid value |
| `JavaNumerics.Trunc` | app/src/main/java/com/example/gamepadkeyboard/RadialMenuView.java:141 | the `(int)` cast rounds toward zero: the floor for non-negative values, the ceiling for negative ones |
| `JavaNumerics.CharOf` | app/src/main/java/com/example/gamepadkeyboard/CustomKeyboardApp.java:281 | the `(char)` cast keeps codes in [0, 65535] and is congruent to the code modulo 65536 |
| `KeyboardApp.ApplyDeadZone` | app/src/main/java/com/example/gamepadkeyboard/CustomKeyboardApp.java:194-199 | an axis becomes 0 exactly when its magnitude is below 0.15, and is otherwise unchanged, with no rescaling |
| `KeyboardApp.DeadZoneIdempotent` | app/src/main/java/com/example/gamepadkeyboard/CustomKeyboardApp.java:194-199 | filtering twice equals filtering once, and no filtered value lies strictly inside the dead zone |
| `KeyboardApp.CursorStep` | app/src/main/java/com/example/gamepadkeyboard/CustomKeyboardApp.java:205-212 | with both filtered axes zero an initialised indicator returns to the centre and nothing else in its state changes; otherwise it is exactly the `Updated` move |
| `KeyboardApp.SnapBackExactlyInDeadZone` | app/src/main/java/com/example/gamepadkeyboard/CustomKeyboardApp.java:194-212 | the indicator snaps back exactly when both raw axes are inside the dead zone |
| `KeyboardApp.KeyDownDecision` | app/src/main/java/com/example/gamepadkeyboard/CustomKeyboardApp.java:121-171 | from a gamepad or joystick source with a live connection, L2/Z/L1 press the left trigger, R2/R1 the right one, and A/B/X/Y and the D-pad are swallowed; anything else, or no connection, goes to the default |
| `KeyboardApp.OnKeyUp` | app/src/main/java/com/example/gamepadkeyboard/CustomKeyboardApp.java:176-191 | only B from a gamepad or joystick source is consumed, and no connection is needed |
| `KeyboardApp.FirstKeyAt` | app/src/main/java/com/example/gamepadkeyboard/CustomKeyboardApp.java:78-97 | the result is the first key, in list order, whose rectangle (left and top inclusive, right and bottom exclusive) holds the point, or none when no key does |
| `KeyboardApp.KeyText` | app/src/main/java/com/example/gamepadkeyboard/CustomKeyboardApp.java:281 | the committed text is the single character `(char) code` |
| `KeyboardApp.TriggerCommits` | app/src/main/java/com/example/gamepadkeyboard/CustomKeyboardApp.java:96-117 | at most one text is committed: the first code of the first matching key, nothing when that key has no codes, and nothing when no key matches |
| `KeyboardApp.CirclePoint` | app/src/main/java/com/example/gamepadkeyboard/CustomKeyboardApp.java:65-70 | the screen point is the view position plus the circle centre, truncated toward zero to `int` for either sign of the sum |
| `KeyboardApp.InputConnection.CommitText` | app/src/main/java/com/example/gamepadkeyboard/CustomKeyboardApp.java:281 | a commit appends exactly one text to the editor's output |
| `KeyboardApp.CustomKeyboardApp.constructor` | app/src/main/java/com/example/gamepadkeyboard/CustomKeyboardApp.java:19-21 | before the input view exists, no view is attached |
| `KeyboardApp.CustomKeyboardApp.AttachViews` | app/src/main/java/com/example/gamepadkeyboard/CustomKeyboardApp.java:27-46 | the two indicators, the radial menu and the keyboard are stored together |
| `KeyboardApp.CustomKeyboardApp.OnKey` | app/src/main/java/com/example/gamepadkeyboard/CustomKeyboardApp.java:275-282 | with a connection, exactly the one character `(char) primaryCode` is committed; without one, nothing happens |
| `KeyboardApp.CustomKeyboardApp.HandleTriggerPress` | app/src/main/java/com/example/gamepadkeyboard/CustomKeyboardApp.java:50-118 | the loop commits what `TriggerCommits` gives for the indicator's screen point, and nothing when the indicator or the keyboard is missing |
| `KeyboardApp.CustomKeyboardApp.OnKeyDown` | app/src/main/java/com/example/gamepadkeyboard/CustomKeyboardApp.java:121-172 | the event is consumed exactly when the decision table acts, and a trigger commits what a press on that side's indicator gives |
| `KeyboardApp.CustomKeyboardApp.SetCursorPos` | app/src/main/java/com/example/gamepadkeyboard/CustomKeyboardApp.java:193-213 | the indicator takes `CursorStep` of the filtered axes, and the menu's hover is `HoverSpec` of the filtered vector |
| `KeyboardApp.CustomKeyboardApp.OnGenericMotionEvent` | app/src/main/java/com/example/gamepadkeyboard/CustomKeyboardApp.java:216-262 | a joystick move drives the left indicator with X/Y and the right one with Z/RZ, and leaves the menu hover at the right stick's result; a D-pad move is consumed with no effect; other events, and any event before the views exist, are passed on unchanged |

## Left out

- Painting: `onDraw` apart from its arc start angles, `Paint`, text
  measurement, `invalidate` and `setCircleColor`. `RadialMenuView.onSizeChanged`
  only computes drawing geometry (centre, outer and inner radius), so it is left
  out too.
- IEEE single-precision rounding. All values are exact reals, and 0.15f is
  taken as 0.15. Under rounding, `adjustedAngle / sweepAngle` can reach `n`,
  and the source's clamps exist for that case. The model keeps the clamps and
  proves that they never fire in exact arithmetic.
- `Math.atan2` and `Math.toDegrees` are a parameter. The model uses only their
  range [-180, 180].
- `JavaNumerics.Trunc`: does not model the saturation of `(int)` at the 32-bit
  limits or NaN mapping to 0, because coordinates and slice quotients stay
  small.
- 32-bit wrap-around in the key-rectangle sums (`location + key.x + key.width`)
  is not modelled. Screen coordinates are far below the limit.
- Android plumbing. `AttachViews` stands in for `onCreateInputView`'s layout
  inflation. `getCurrentInputConnection()` and `getLocationOnScreen` are
  parameters. `commitText`'s cursor argument is dropped. The default handlers
  of the base service (`super.onKeyDown` and so on) are the result
  `PassToSuper`, whose boolean the model does not know.
- A null `key.codes` array is modelled as an empty code list; both commit
  nothing.
- `CustomKeyboardApp.Valid` assumes what the layout provides: the indicators
  and the radial menu are attached together and are distinct views. With a
  layout that lacks the radial menu, `setCursorPos` would throw
  `NullPointerException`; the model does not cover that.
- The D-pad hat branch of `onGenericMotionEvent` reads `AXIS_HAT_X/Y` and does
  nothing with them. The model consumes the event without reading them.
- Logging, and the empty listener methods `onPress`, `onRelease`, `onText` and
  `swipe*`.
- JSON deserialisation of `RadialMenuSet`. The no-argument constructors exist
  only for it and leave fields null, so the datatypes have no null fields.
