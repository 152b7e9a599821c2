/**
 * The divide-then-multiply rule shared by the table converter and the
 * currency converter: `base = value / f[from]; result = base * f[to]`.
 */
module Rescaling {

  /**
   * Re-expresses `value`, given in a unit with factor `fromFactor`, in a unit
   * with factor `toFactor`; both describe the same amount of the base unit.
   */
  function Rescale(value: real, fromFactor: real, toFactor: real): (r: real)
    requires fromFactor != 0.0
    ensures r * fromFactor == value * toFactor
    ensures toFactor != 0.0 ==> r / toFactor == value / fromFactor
  {
    var base := value / fromFactor;
    base * toFactor
  }

  /** Rescaling between equal factors is the identity. */
  lemma RescaleIdentity(value: real, factor: real)
    requires factor != 0.0
    ensures Rescale(value, factor, factor) == value
  {
  }

  /** Rescaling there and back returns the original value. */
  lemma RescaleRoundTrip(value: real, fromFactor: real, toFactor: real)
    requires fromFactor != 0.0 && toFactor != 0.0
    ensures Rescale(Rescale(value, fromFactor, toFactor), toFactor, fromFactor) == value
  {
  }

  /** Rescaling through an intermediate factor equals rescaling directly. */
  lemma RescaleCompose(value: real, fromFactor: real, viaFactor: real, toFactor: real)
    requires fromFactor != 0.0 && viaFactor != 0.0
    ensures Rescale(Rescale(value, fromFactor, viaFactor), viaFactor, toFactor)
         == Rescale(value, fromFactor, toFactor)
  {
  }

  /** With positive factors, rescaling preserves the order of values. */
  lemma RescaleMonotone(value: real, other: real, fromFactor: real, toFactor: real)
    requires fromFactor > 0.0 && toFactor > 0.0
    ensures value <= other <==> Rescale(value, fromFactor, toFactor) <= Rescale(other, fromFactor, toFactor)
  {
  }
}
