/**
 * The position mapper: a client X coordinate becomes a normalised value and a
 * pixel offset, both clamped to the bounds' optional limits.
 */
module PositionMapper {
  import opened DraggableTypes

  datatype Position = Position(value: real, x: real)

  predicate Usable(b: Bounds) {
    b.width > 0.0
  }

  /** When both limits are present, the lower one does not exceed the upper one. */
  predicate Ordered(b: Bounds) {
    b.minValue.Some? && b.maxValue.Some? ==> b.minValue.value <= b.maxValue.value
  }

  /** The unclamped normalised value of `clientX`. */
  function Raw(b: Bounds, clientX: real): real
    requires Usable(b)
  {
    (clientX - b.clientXLeft) / b.width
  }

  /** `v` lies within whichever limits are present. */
  predicate WithinLimits(b: Bounds, v: real) {
    (b.minValue.Some? ==> b.minValue.value <= v) && (b.maxValue.Some? ==> v <= b.maxValue.value)
  }

  /**
   * The textbook clamp, upper limit first, lower limit second: an independent
   * reference against which the mapper's clamping is checked.
   */
  function Clamp(v: real, lo: Option<real>, hi: Option<real>): real {
    var below := if hi.Some? && hi.value < v then hi.value else v;
    if lo.Some? && below < lo.value then lo.value else below
  }

  /**
   * Maps `clientX` to a position. The lower limit is tested first, so when the limits
   * are out of order a value below the lower limit is raised to it.
   */
  function PositionOf(b: Bounds, clientX: real): (p: Position)
    requires Usable(b)
    ensures p.x == p.value * b.width
    ensures Ordered(b) ==> p.value == Clamp(Raw(b, clientX), b.minValue, b.maxValue)
    ensures Ordered(b) ==> WithinLimits(b, p.value)
    ensures WithinLimits(b, Raw(b, clientX)) ==> p == Position(Raw(b, clientX), clientX - b.clientXLeft)
    ensures b.minValue.Some? && Raw(b, clientX) < b.minValue.value ==>
      p == Position(b.minValue.value, b.minValue.value * b.width)
    ensures !(b.minValue.Some? && Raw(b, clientX) < b.minValue.value) && b.maxValue.Some? && Raw(b, clientX) > b.maxValue.value ==>
      p == Position(b.maxValue.value, b.maxValue.value * b.width)
  {
    var x := clientX - b.clientXLeft;
    var value := x / b.width;
    if b.minValue.Some? && value < b.minValue.value then
      Position(b.minValue.value, b.minValue.value * b.width)
    else if b.maxValue.Some? && value > b.maxValue.value then
      Position(b.maxValue.value, b.maxValue.value * b.width)
    else
      Position(value, x)
  }

  /** With ordered limits the mapped value never decreases as the pointer moves right. */
  lemma PositionMonotone(b: Bounds, c1: real, c2: real)
    requires Usable(b) && Ordered(b) && c1 <= c2
    ensures PositionOf(b, c1).value <= PositionOf(b, c2).value
  {
    assert Raw(b, c2) - Raw(b, c1) == (c2 - c1) / b.width;
  }

  /** Mapping the offset of a position back through the mapper gives the same position. */
  lemma PositionRoundTrip(b: Bounds, clientX: real)
    requires Usable(b) && Ordered(b)
    ensures var p := PositionOf(b, clientX); PositionOf(b, b.clientXLeft + p.x) == p
  {
    var p := PositionOf(b, clientX);
    assert Raw(b, b.clientXLeft + p.x) == p.value;
  }
}
