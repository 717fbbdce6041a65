/**
 * The joystick indicator: a circle that sits at the centre of its view until
 * the view has a size, then follows the stick linearly and is kept inside
 * the view's bounds.
 */
module Joystick {

  /** The radius a new indicator starts with. */
  const DEFAULT_RADIUS: real := 30.0

  /** Everything the indicator's behaviour depends on, as one value. */
  datatype CircleState = CircleState(
    circleX: real, circleY: real,
    initialX: real, initialY: real,
    radius: real,
    width: int, height: int,
    isInitialized: bool)

  function Min(a: real, b: real): real { if a <= b then a else b }
  function Max(a: real, b: real): real { if a >= b then a else b }

  /**
   * One coordinate of the indicator after a stick sample: the centre moved by
   * `normalized` times the travel (half the size less the radius), then kept in
   * [radius, size - radius] as `Math.max(radius, Math.min(v, size - radius))` does.
   */
  function Tracked(initial: real, normalized: real, size: int, radius: real): (r: real)
    ensures r >= radius
    ensures size as real >= 2.0 * radius ==> r <= size as real - radius
    ensures var linear := initial + normalized * (size as real / 2.0 - radius);
            radius <= linear <= size as real - radius ==> r == linear
    ensures var linear := initial + normalized * (size as real / 2.0 - radius);
            linear < radius ==> r == radius
    ensures var linear := initial + normalized * (size as real / 2.0 - radius);
            size as real >= 2.0 * radius && linear > size as real - radius ==> r == size as real - radius
    ensures size as real < 2.0 * radius ==> r == radius
  {
    var maxTravel := size as real / 2.0 - radius;
    var position := initial + normalized * maxTravel;
    Max(radius, Min(position, size as real - radius))
  }

  /** The state before the view has been given a size. */
  function Fresh(): (s: CircleState)
    ensures !s.isInitialized && s.radius == DEFAULT_RADIUS
  {
    CircleState(0.0, 0.0, 0.0, 0.0, DEFAULT_RADIUS, 0, 0, false)
  }

  /** The view is given size `w` by `h`. */
  function SizeChanged(s: CircleState, w: int, h: int): (r: CircleState)
    ensures r.isInitialized && r.width == w && r.height == h && r.radius == s.radius
    ensures r.initialX == w as real / 2.0 && r.initialY == h as real / 2.0
    ensures s.isInitialized ==> r.circleX == s.circleX && r.circleY == s.circleY
    ensures !s.isInitialized ==> r.circleX == r.initialX && r.circleY == r.initialY
  {
    var initialX := w as real / 2.0;
    var initialY := h as real / 2.0;
    CircleState(
      if s.isInitialized then s.circleX else initialX,
      if s.isInitialized then s.circleY else initialY,
      initialX, initialY, s.radius, w, h, true)
  }

  /** A stick sample moves the indicator; before initialisation nothing happens. */
  function Updated(s: CircleState, normalizedX: real, normalizedY: real): (r: CircleState)
    ensures !s.isInitialized ==> r == s
    ensures r == s.(circleX := r.circleX, circleY := r.circleY)
    ensures s.isInitialized ==> r.circleX >= s.radius && r.circleY >= s.radius
    ensures s.isInitialized && s.width as real >= 2.0 * s.radius ==> r.circleX <= s.width as real - s.radius
    ensures s.isInitialized && s.height as real >= 2.0 * s.radius ==> r.circleY <= s.height as real - s.radius
  {
    if !s.isInitialized then s
    else s.(circleX := Tracked(s.initialX, normalizedX, s.width, s.radius),
            circleY := Tracked(s.initialY, normalizedY, s.height, s.radius))
  }

  /** The indicator returns to the centre; before initialisation nothing happens. */
  function Reset(s: CircleState): (r: CircleState)
    ensures !s.isInitialized ==> r == s
    ensures s.isInitialized ==> r == s.(circleX := s.initialX, circleY := s.initialY)
  {
    if !s.isInitialized then s else s.(circleX := s.initialX, circleY := s.initialY)
  }

  /** In a view at least twice the radius wide and high, a centred stick keeps the indicator at the centre. */
  lemma CentredStickStaysAtCentre(s: CircleState, w: int, h: int)
    requires w as real >= 2.0 * s.radius && h as real >= 2.0 * s.radius
    ensures var t := Updated(SizeChanged(s, w, h), 0.0, 0.0);
            t.circleX == w as real / 2.0 && t.circleY == h as real / 2.0
  {
  }

  /** Where the indicator ends up depends on the last sample only, not on where it was. */
  lemma UpdateForgetsPosition(s: CircleState, x1: real, y1: real, x2: real, y2: real)
    ensures Updated(Updated(s, x1, y1), x2, y2) == Updated(s, x2, y2)
  {
  }

  /** A reset undoes any movement. */
  lemma ResetUndoesUpdate(s: CircleState, x: real, y: real)
    ensures Reset(Updated(s, x, y)) == Reset(s)
  {
  }

  class JoystickCircleView {
    var circleX: real
    var circleY: real
    var initialX: real
    var initialY: real
    var radius: real
    /** The size the view was laid out with (`getWidth()`, `getHeight()`). */
    var width: int
    var height: int
    var isInitialized: bool

    function State(): CircleState
      reads this
    {
      CircleState(circleX, circleY, initialX, initialY, radius, width, height, isInitialized)
    }

    constructor ()
      ensures State() == Fresh()
    {
      circleX, circleY := 0.0, 0.0;
      initialX, initialY := 0.0, 0.0;
      radius := DEFAULT_RADIUS;
      width, height := 0, 0;
      isInitialized := false;
    }

    function GetCircleCenterX(): (x: real)
      reads this
      ensures x == State().circleX
    {
      circleX
    }

    function GetCircleCenterY(): (y: real)
      reads this
      ensures y == State().circleY
    {
      circleY
    }

    method OnSizeChanged(w: int, h: int)
      modifies this
      ensures State() == SizeChanged(old(State()), w, h)
    {
      width, height := w, h;
      initialX := w as real / 2.0;
      initialY := h as real / 2.0;
      if !isInitialized {
        circleX := initialX;
        circleY := initialY;
      }
      isInitialized := true;
    }

    method UpdatePosition(normalizedX: real, normalizedY: real)
      modifies this
      ensures State() == Updated(old(State()), normalizedX, normalizedY)
    {
      if !isInitialized {
        return;
      }
      var maxTravelX := width as real / 2.0 - radius;
      var maxTravelY := height as real / 2.0 - radius;

      circleX := initialX + normalizedX * maxTravelX;
      circleY := initialY + normalizedY * maxTravelY;

      circleX := Max(radius, Min(circleX, width as real - radius));
      circleY := Max(radius, Min(circleY, height as real - radius));
    }

    method ResetPosition()
      modifies this
      ensures State() == Reset(old(State()))
    {
      if !isInitialized {
        return;
      }
      circleX := initialX;
      circleY := initialY;
    }

    method SetCircleRadius(r: real)
      modifies this
      ensures State() == old(State()).(radius := r)
    {
      radius := r;
    }
  }
}
