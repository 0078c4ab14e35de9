/**
 * The drag-and-snap box and the floating action button of the style showcase screen.
 *
 * The box's position is an animated x/y pair made of a base `value` and an `offset`;
 * what is drawn is their sum. A pan gesture is granted, moved (with the cumulative
 * delta since the grant) and released; on release the position is clamped into the
 * arena `[0, width - 180] x [0, 150]` and, only when clamping moved it, a spring
 * animation is started toward the clamped point. The spring's physics are not
 * modelled: an animation is its target, and its completion puts the value there.
 */
module StyleScreen {
  import opened Optional

  datatype Point = Point(x: real, y: real)
  {
    function Plus(q: Point): Point { Point(x + q.x, y + q.y) }
  }

  const Origin := Point(0.0, 0.0)

  /** Where the box starts, before any gesture. */
  const Start := Point(50.0, 50.0)

  /** The arena: `minX = minY = 0`, `maxX = width - 180`, `maxY = 150`. */
  const MinX: real := 0.0
  const MinY: real := 0.0
  const MaxY: real := 150.0
  const BoxAllowance: real := 180.0

  function MaxX(width: real): real { width - BoxAllowance }

  /** `Math.min` and `Math.max` on two reals. */
  function Min(a: real, b: real): real { if a <= b then a else b }
  function Max(a: real, b: real): real { if a >= b then a else b }

  /** `Math.max(lo, Math.min(hi, v))`: the upper bound is applied first, the lower last. */
  function ClampAxis(v: real, lo: real, hi: real): (r: real)
    ensures lo <= r
    ensures lo <= hi ==> r <= hi
    ensures hi < lo ==> r == lo
    ensures lo <= hi ==> (r == v <==> lo <= v <= hi)
  {
    Max(lo, Min(hi, v))
  }

  /** The release-time clamp of a point into the arena of a window `width` wide. */
  function Clamp(p: Point, width: real): (q: Point)
    ensures MinX <= q.x && MinY <= q.y <= MaxY
    ensures MinX <= MaxX(width) ==> q.x <= MaxX(width)
    ensures MaxX(width) < MinX ==> q.x == MinX
    ensures MinY <= p.y <= MaxY ==> q.y == p.y
    ensures forall w :: MinY <= w <= MaxY ==> Dist(q.y, p.y) <= Dist(w, p.y)
    ensures forall w :: MinX <= w <= MaxX(width) ==> Dist(q.x, p.x) <= Dist(w, p.x)
  {
    Point(ClampAxis(p.x, MinX, MaxX(width)), ClampAxis(p.y, MinY, MaxY))
  }

  ghost predicate InBounds(p: Point, width: real)
  {
    MinX <= p.x <= MaxX(width) && MinY <= p.y <= MaxY
  }

  /** Clamping a clamped point changes nothing. */
  lemma ClampIdempotent(p: Point, width: real)
    ensures Clamp(Clamp(p, width), width) == Clamp(p, width)
  {
  }

  /**
   * Clamping leaves a point where it is exactly when the point is in the arena;
   * when the window is narrower than 180 the only fixed x is 0.
   */
  lemma ClampFixedExactlyInBounds(p: Point, width: real)
    ensures MinX <= MaxX(width) ==> (Clamp(p, width) == p <==> InBounds(p, width))
    ensures MaxX(width) < MinX ==> (Clamp(p, width) == p <==> p.x == MinX && MinY <= p.y <= MaxY)
  {
  }

  /** On each axis the clamped point is at least as close to `p` as any point of the arena. */
  lemma ClampIsNearest(p: Point, q: Point, width: real)
    requires InBounds(q, width)
    ensures Dist(Clamp(p, width).x, p.x) <= Dist(q.x, p.x)
    ensures Dist(Clamp(p, width).y, p.y) <= Dist(q.y, p.y)
  {
  }

  function Dist(a: real, b: real): real { if a <= b then b - a else a - b }

  /**
   * The animated state of the box: the base `value` (what the framework keeps in
   * its private `_value`), the `offset` set at grant, and the target of the spring
   * animation in flight, if any.
   */
  datatype Pan = Pan(value: Point, offset: Point, spring: Option<Point>)
  {
    /** The position that is drawn: offset plus value. */
    function Displayed(): Point { offset.Plus(value) }
  }

  /** Grant: the offset becomes the current value; the value itself is kept. */
  function Granted(s: Pan): Pan
  {
    Pan(s.value, s.value, s.spring)
  }

  /** A move sample carries the cumulative delta since the grant and becomes the value. */
  function Moved(s: Pan, delta: Point): Pan
  {
    Pan(delta, s.offset, s.spring)
  }

  /**
   * Release: flatten (value := offset + value, offset := 0), clamp, and start a
   * spring toward the clamped point only if it differs from the flattened one.
   * A new spring replaces one still in flight; otherwise the pending one is kept.
   */
  function Released(s: Pan, width: real): Pan
  {
    var flat := s.offset.Plus(s.value);
    var target := Clamp(flat, width);
    Pan(flat, Origin, if flat != target then Some(target) else s.spring)
  }

  /** The spring in flight, if any, completes: the value reaches its target. */
  function SpringDone(s: Pan): Pan
  {
    match s.spring
    case None => s
    case Some(t) => Pan(t, s.offset, None)
  }

  /** Feeds a sequence of move samples, in order. */
  function MovedAll(s: Pan, deltas: seq<Point>): Pan
    decreases |deltas|
  {
    if deltas == [] then s else MovedAll(Moved(s, deltas[0]), deltas[1..])
  }

  /** Only the last sample matters: earlier samples leave no trace, since each one is cumulative. */
  lemma {:induction false} MovedAllIsLastSample(s: Pan, deltas: seq<Point>)
    requires deltas != []
    ensures MovedAll(s, deltas) == Moved(s, deltas[|deltas| - 1])
    ensures MovedAll(s, deltas).Displayed() == s.offset.Plus(deltas[|deltas| - 1])
    decreases |deltas|
  {
    if |deltas| > 1 {
      MovedAllIsLastSample(Moved(s, deltas[0]), deltas[1..]);
    }
  }

  /** Grant keeps the value and copies it into the offset on both axes. */
  lemma GrantCopiesValue(s: Pan)
    ensures Granted(s).value == s.value && Granted(s).offset == s.value
    ensures Granted(s).spring == s.spring
  {
  }

  /** Release flattens: the offset is zero and the value is the old offset plus the old value. */
  lemma ReleaseFlattens(s: Pan, width: real)
    ensures Released(s, width).offset == Origin
    ensures Released(s, width).value == s.Displayed()
    ensures Released(s, width).Displayed() == s.Displayed()
  {
  }

  /** A flattened point already in place starts no spring and stays exactly where it is. */
  lemma ReleaseInPlaceStartsNoSpring(s: Pan, width: real)
    requires Clamp(s.Displayed(), width) == s.Displayed()
    ensures Released(s, width).spring == s.spring
    ensures Released(s, width).value == s.Displayed()
  {
  }

  /** Out of place, the spring aims at exactly the clamped point, and its completion puts the box there. */
  lemma ReleaseOutOfPlaceSpringsToClamp(s: Pan, width: real)
    requires Clamp(s.Displayed(), width) != s.Displayed()
    ensures Released(s, width).spring == Some(Clamp(s.Displayed(), width))
    ensures SpringDone(Released(s, width)).value == Clamp(s.Displayed(), width)
    ensures SpringDone(Released(s, width)).Displayed() == Clamp(s.Displayed(), width)
  {
  }

  /**
   * A whole gesture from rest: grant, one or more move samples, release, and the
   * spring (if one started) completing. The box ends at the clamp of the
   * grant-time position plus the last cumulative delta, which lies in the arena
   * whenever the window is at least 180 wide.
   */
  lemma {:induction false} DragSession(s: Pan, deltas: seq<Point>, width: real)
    requires s.offset == Origin && s.spring == None
    requires deltas != []
    ensures var raw := s.value.Plus(deltas[|deltas| - 1]);
      var moved := MovedAll(Granted(s), deltas);
      var rest := SpringDone(Released(moved, width));
      && moved.Displayed() == raw
      && Released(moved, width).value == raw
      && Released(moved, width).spring == (if Clamp(raw, width) == raw then None else Some(Clamp(raw, width)))
      && rest.value == Clamp(raw, width)
      && rest.offset == Origin && rest.spring == None
      && (MinX <= MaxX(width) ==> InBounds(rest.value, width))
  {
    MovedAllIsLastSample(Granted(s), deltas);
  }

  /**
   * The value is not reset at grant, so a release that follows the grant with no
   * move sample flattens to twice the pre-grant value.
   */
  lemma ReleaseWithoutMoveDoubles(s: Pan, width: real)
    ensures Released(Granted(s), width).value == s.value.Plus(s.value)
  {
  }

  /** The draggable box: its animated position and the window width its arena depends on. */
  class DraggableBox {
    const width: real
    var value: Point
    var offset: Point
    var spring: Option<Point>

    function State(): Pan
      reads this
    {
      Pan(value, offset, spring)
    }

    /** The explicit accessor for the base value of the animated pair. */
    function CurrentValue(): Point
      reads this
    {
      value
    }

    constructor (width: real)
      ensures this.width == width
      ensures value == Start && offset == Origin && spring == None
    {
      this.width := width;
      value := Start;
      offset := Origin;
      spring := None;
    }

    method Grant()
      modifies this
      ensures offset == old(CurrentValue()) && value == old(value) && spring == old(spring)
      ensures State() == Granted(old(State()))
    {
      offset := CurrentValue();
    }

    method Move(dx: real, dy: real)
      modifies this
      ensures value == Point(dx, dy) && offset == old(offset) && spring == old(spring)
      ensures State().Displayed() == old(offset).Plus(Point(dx, dy))
      ensures State() == Moved(old(State()), Point(dx, dy))
    {
      value := Point(dx, dy);
    }

    /** Returns whether a spring was started. */
    method Release() returns (started: bool)
      modifies this
      ensures offset == Origin && value == old(offset).Plus(old(value))
      ensures started <==> Clamp(value, width) != value
      ensures spring == if started then Some(Clamp(value, width)) else old(spring)
      ensures State() == Released(old(State()), width)
    {
      offset, value := Origin, offset.Plus(value);
      var current := CurrentValue();
      var target := Clamp(current, width);
      started := current != target;
      if started {
        spring := Some(target);
      }
    }

    /** The spring in flight, if any, reaches its target. */
    method FinishSpring()
      modifies this
      ensures old(spring).Some? ==> value == old(spring).value && spring == None
      ensures old(spring).None? ==> value == old(value) && spring == None
      ensures offset == old(offset)
      ensures State() == SpringDone(old(State()))
    {
      if spring.Some? {
        value := spring.value;
        spring := None;
      }
    }
  }

  /**
   * The floating action button: whether it is expanded, and the target of the
   * spring that drives its animation value (which starts at 0).
   */
  class FloatingButton {
    var expanded: bool
    var target: real

    /** The animation target agrees with the expansion flag. */
    predicate Valid()
      reads this
    {
      target == if expanded then 1.0 else 0.0
    }

    constructor ()
      ensures Valid() && !expanded
    {
      expanded := false;
      target := 0.0;
    }

    /** Flips `expanded` and springs toward 1 when it was collapsed, 0 when it was expanded. */
    method Toggle() returns (toValue: real)
      requires Valid()
      modifies this
      ensures Valid()
      ensures expanded == !old(expanded)
      ensures toValue == (if old(expanded) then 0.0 else 1.0) && target == toValue
    {
      toValue := if expanded then 0.0 else 1.0;
      expanded := !expanded;
      target := toValue;
    }
  }
}
