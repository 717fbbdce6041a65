/**
 * The radial menu: `n` glyphs laid out as `n` equal pie slices, slice 0
 * centred straight up (-90 degrees in screen coordinates, where y grows
 * downwards) and slice indices increasing clockwise. A stick vector selects
 * the slice its angle falls into.
 *
 * Angles are degrees as reals. `Math.toDegrees(Math.atan2(y, x))` is not
 * computed here: it is passed in as a function that returns degrees in
 * [-180, 180], and everything after it is exact.
 */
module RadialMenu {
  import opened Wrappers
  import opened JavaNumerics

  /** What `Math.toDegrees(Math.atan2(y, x))` guarantees: a value in [-180, 180]. */
  ghost predicate IsDegreeAngle(atan2Deg: (real, real) -> real)
  {
    forall y, x :: -180.0 <= atan2Deg(y, x) <= 180.0
  }

  // ---------------------------------------------------------------------------
  // Slice layout, as drawn

  /** The angular width of one of `n` slices. */
  function Sweep(n: nat): (s: real)
    requires n > 0
    ensures 0.0 < s <= 360.0
    ensures s * n as real == 360.0
  {
    360.0 / n as real
  }

  /** Where the arc of slice 0 starts: half a slice before "up". */
  function FirstSliceStart(n: nat): real
    requires n > 0
  {
    -90.0 - Sweep(n) / 2.0
  }

  /** Where the arc of slice `i` starts. */
  function SliceStart(n: nat, i: int): real
    requires n > 0
  {
    FirstSliceStart(n) + i as real * Sweep(n)
  }

  /** The angle `a` turned by `k` full turns. */
  function Turn(a: real, k: int): real
  {
    a + 360.0 * k as real
  }

  /** Angle `a` lies on the arc of slice `i`, up to whole turns. */
  ghost predicate InArc(n: nat, i: int, a: real)
    requires n > 0
  {
    exists k: int :: SliceStart(n, i) <= Turn(a, k) < SliceStart(n, i + 1)
  }

  // ---------------------------------------------------------------------------
  // Slice selection, as specified

  /** The representative of `t` modulo a full turn. */
  function Wrap360(t: real): (r: real)
    ensures 0.0 <= r < 360.0
  {
    Turn(t, -((t / 360.0).Floor))
  }

  /** The slice that angle `a` selects among `n`: whole sweeps between the first slice's edge and `a`. */
  function SliceAt(n: nat, a: real): (i: nat)
    requires n > 0
    ensures i < n
  {
    var adjusted := Wrap360(a - FirstSliceStart(n));
    SweepsBelow(n, adjusted);
    (adjusted / Sweep(n)).Floor
  }

  /** The hover a vector `(x, y)` with angle `a` yields on a menu of `n` items: -1 for none. */
  function HoverSpec(n: nat, x: real, y: real, a: real): (r: int)
    ensures -1 <= r < n
    ensures r == -1 <==> n == 0 || (x == 0.0 && y == 0.0)
  {
    if n == 0 || (x == 0.0 && y == 0.0) then -1 else SliceAt(n, a)
  }

  // ---------------------------------------------------------------------------
  // Arithmetic helpers

  /** Multiplying by a positive factor keeps the order. */
  lemma MulMono(a: real, b: real, c: real)
    requires c > 0.0
    ensures a <= b ==> a * c <= b * c
    ensures a < b ==> a * c < b * c
  {
  }

  /** A value in [0, 360) holds fewer than `n` sweeps of width 360/n. */
  lemma SweepsBelow(n: nat, t: real)
    requires n > 0 && 0.0 <= t < 360.0
    ensures 0.0 <= t / Sweep(n) < n as real
  {
  }

  /** `i` sweeps fit under `t` and `i + 1` do not exactly when the floor of `t / sweep` is `i`. */
  lemma FloorOfSweeps(n: nat, t: real, i: int)
    requires n > 0
    ensures (t / Sweep(n)).Floor == i <==> i as real * Sweep(n) <= t < (i + 1) as real * Sweep(n)
  {
  }

  /** Any representative of `t` in [0, 360) is the one `Wrap360` picks. */
  lemma WrapUnique(t: real, k: int)
    requires 0.0 <= Turn(t, k) < 360.0
    ensures Wrap360(t) == Turn(t, k)
  {
    var j := -((t / 360.0).Floor);
    assert 0.0 <= Turn(t, j) < 360.0;
    var d := k - j;
    assert Turn(t, k) - Turn(t, j) == 360.0 * d as real;
    assert d == 0;
  }

  // ---------------------------------------------------------------------------
  // Properties of slice selection

  /** The slice `SliceAt` picks is one whose arc holds the angle. */
  lemma SliceAtInArc(n: nat, a: real)
    requires n > 0
    ensures InArc(n, SliceAt(n, a), a)
  {
    var first := FirstSliceStart(n);
    var s := Sweep(n);
    var i := SliceAt(n, a);
    var j := -(((a - first) / 360.0).Floor);
    var adjusted := Wrap360(a - first);
    assert adjusted == Turn(a, j) - first;
    FloorOfSweeps(n, adjusted, i);
    assert i as real * s <= adjusted < (i + 1) as real * s;
    assert SliceStart(n, i) <= Turn(a, j) < SliceStart(n, i + 1);
  }

  /** An angle on the arc of slice `i` selects slice `i`. */
  lemma ArcSelectsSlice(n: nat, i: int, a: real, k: int)
    requires n > 0 && 0 <= i < n
    requires SliceStart(n, i) <= Turn(a, k) < SliceStart(n, i + 1)
    ensures SliceAt(n, a) == i
  {
    var first := FirstSliceStart(n);
    var s := Sweep(n);
    var t := Turn(a - first, k);
    assert t == Turn(a, k) - first;
    assert i as real * s <= t < (i + 1) as real * s;
    MulMono(0.0, i as real, s);
    MulMono((i + 1) as real, n as real, s);
    WrapUnique(a - first, k);
    FloorOfSweeps(n, t, i);
  }

  /**
   * Hit testing agrees with the drawing: angle `a` selects slice `i` exactly
   * when it lies on the arc that is painted for item `i`.
   */
  lemma SliceAtIsArc(n: nat, i: int, a: real)
    requires n > 0 && 0 <= i < n
    ensures SliceAt(n, a) == i <==> InArc(n, i, a)
  {
    if SliceAt(n, a) == i {
      SliceAtInArc(n, a);
    }
    if InArc(n, i, a) {
      var k :| SliceStart(n, i) <= Turn(a, k) < SliceStart(n, i + 1);
      ArcSelectsSlice(n, i, a, k);
    }
  }

  /** Every angle lies on exactly one slice's arc. */
  lemma ArcsPartitionTheCircle(n: nat, a: real, i: int, j: int)
    requires n > 0
    ensures InArc(n, SliceAt(n, a), a)
    ensures 0 <= i < n && 0 <= j < n && InArc(n, i, a) && InArc(n, j, a) ==> i == j
  {
    SliceAtInArc(n, a);
    if 0 <= i < n && 0 <= j < n {
      SliceAtIsArc(n, i, a);
      SliceAtIsArc(n, j, a);
    }
  }

  /** Consecutive arcs start one sweep apart, and the arc after the last one is the first one a full turn later. */
  lemma SliceStartStep(n: nat, i: int)
    requires n > 0
    ensures SliceStart(n, i + 1) == SliceStart(n, i) + Sweep(n)
    ensures SliceStart(n, n) == SliceStart(n, 0) + 360.0
  {
  }

  /** Turning the stick by one sweep moves the selection one slice clockwise, wrapping after the last. */
  lemma SliceRotation(n: nat, a: real)
    requires n > 0
    ensures SliceAt(n, a) < n - 1 ==> SliceAt(n, a + Sweep(n)) == SliceAt(n, a) + 1
    ensures SliceAt(n, a) == n - 1 ==> SliceAt(n, a + Sweep(n)) == 0
  {
    var i := SliceAt(n, a);
    var s := Sweep(n);
    SliceAtInArc(n, a);
    var k :| SliceStart(n, i) <= Turn(a, k) < SliceStart(n, i + 1);
    SliceStartStep(n, i);
    SliceStartStep(n, i + 1);
    assert SliceStart(n, i + 1) <= Turn(a + s, k) < SliceStart(n, i + 2);
    if i + 1 < n {
      ArcSelectsSlice(n, i + 1, a + s, k);
    } else {
      SliceStartStep(n, 0);
      assert SliceStart(n, 0) <= Turn(a + s, k - 1) < SliceStart(n, 1);
      ArcSelectsSlice(n, 0, a + s, k - 1);
    }
  }

  /** Magnitude plays no part beyond the zero test: two non-zero vectors with the same angle hover the same slice. */
  lemma HoverIgnoresMagnitude(n: nat, x1: real, y1: real, x2: real, y2: real, a: real)
    requires x1 != 0.0 || y1 != 0.0
    requires x2 != 0.0 || y2 != 0.0
    ensures HoverSpec(n, x1, y1, a) == HoverSpec(n, x2, y2, a)
  {
  }

  /** With four items, "right" (0 degrees) selects slice 1 and "up" (-90 degrees) selects slice 0. */
  lemma FourSliceExamples()
    ensures SliceAt(4, 0.0) == 1
    ensures SliceAt(4, -90.0) == 0
    ensures SliceAt(4, 90.0) == 2
  {
  }

  // ---------------------------------------------------------------------------
  // The view

  class RadialMenuView {
    /** The glyphs shown, one per slice, in slice order. */
    var menuItems: seq<string>
    /** The hovered slice, or -1 for none. */
    var hoveredSliceIndex: int

    constructor ()
      ensures menuItems == [] && hoveredSliceIndex == -1
    {
      menuItems := [];
      hoveredSliceIndex := -1;
    }

    /** Replaces the items (a null list clears them); the hover index is left as it was. */
    method SetMenuItems(newItems: Option<seq<string>>)
      modifies this
      ensures menuItems == (if newItems.Some? then newItems.value else [])
      ensures hoveredSliceIndex == old(hoveredSliceIndex)
    {
      menuItems := [];
      if newItems.Some? {
        menuItems := menuItems + newItems.value;
      }
    }

    /**
     * Recomputes the hovered slice from a stick vector. `atan2Deg` stands for
     * `Math.toDegrees(Math.atan2(y, x))`.
     */
    method UpdateHover(relativeX: real, relativeY: real, atan2Deg: (real, real) -> real)
      requires IsDegreeAngle(atan2Deg)
      modifies this
      ensures menuItems == old(menuItems)
      ensures hoveredSliceIndex == HoverSpec(|menuItems|, relativeX, relativeY, atan2Deg(relativeY, relativeX))
      ensures -1 <= hoveredSliceIndex < |menuItems|
    {
      if |menuItems| == 0 {
        if hoveredSliceIndex != -1 {
          hoveredSliceIndex := -1;
        }
        return;
      }
      var n := |menuItems|;
      ghost var raw := atan2Deg(relativeY, relativeX);
      var angleDegrees := atan2Deg(relativeY, relativeX);
      ghost var k := 0;
      if angleDegrees < 0.0 {
        angleDegrees := angleDegrees + 360.0;
        k := 1;
      }
      assert 0.0 <= angleDegrees < 360.0 && angleDegrees == Turn(raw, k);

      var sweepAngle := 360.0 / n as real;
      var firstSliceDrawStartAngle := -90.0 - sweepAngle / 2.0;
      assert sweepAngle == Sweep(n) && firstSliceDrawStartAngle == FirstSliceStart(n);

      var newHoveredIndex := -1;
      if relativeX != 0.0 || relativeY != 0.0 {
        var adjustedAngle := angleDegrees - firstSliceDrawStartAngle;
        if adjustedAngle < 0.0 {
          adjustedAngle := adjustedAngle + 360.0;
          k := k + 1;
        }
        if adjustedAngle >= 360.0 {
          adjustedAngle := adjustedAngle - 360.0;
          k := k - 1;
        }
        assert adjustedAngle == Turn(raw - firstSliceDrawStartAngle, k);
        WrapUnique(raw - firstSliceDrawStartAngle, k);
        SweepsBelow(n, adjustedAngle);
        newHoveredIndex := Trunc(adjustedAngle / sweepAngle);
        assert newHoveredIndex == SliceAt(n, raw);

        if newHoveredIndex >= n {
          newHoveredIndex := n - 1;
        }
        if newHoveredIndex < 0 {
          newHoveredIndex := 0;
        }
      } else {
        newHoveredIndex := -1;
      }

      if hoveredSliceIndex != newHoveredIndex {
        hoveredSliceIndex := newHoveredIndex;
      }
    }

    /**
     * The start angles of the arcs drawn for the items, in item order: the
     * first edge half a slice before "up", each next one a sweep further.
     */
    method SliceArcStarts() returns (starts: seq<real>)
      ensures |starts| == |menuItems|
      ensures forall i :: 0 <= i < |starts| ==> starts[i] == SliceStart(|menuItems|, i)
    {
      starts := [];
      if |menuItems| == 0 {
        return;
      }
      var n := |menuItems|;
      var sweepAngle := 360.0 / n as real;
      var currentDrawAngle := -90.0 - sweepAngle / 2.0;
      for i := 0 to n
        invariant |starts| == i
        invariant currentDrawAngle == SliceStart(n, i)
        invariant forall j :: 0 <= j < i ==> starts[j] == SliceStart(n, j)
      {
        starts := starts + [currentDrawAngle];
        currentDrawAngle := currentDrawAngle + sweepAngle;
      }
    }

    /** The hovered glyph, when the stored index is in range. */
    function GetHoveredKey(): (r: Option<string>)
      reads this
      ensures r.Some? <==> 0 <= hoveredSliceIndex < |menuItems|
      ensures r.Some? ==> r.value == menuItems[hoveredSliceIndex]
    {
      if 0 <= hoveredSliceIndex < |menuItems| then Some(menuItems[hoveredSliceIndex]) else None
    }
  }
}
