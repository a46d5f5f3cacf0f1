/**
 * The volume slider both front ends build: a GTK scale created with range
 * 0..100 and step 1, whose value is moved with `set_value` and which calls
 * its `value-changed` handler, if one is connected, whenever the stored value
 * actually changes.
 */
module Slider {
  import opened Wrappers

  /** The bounds every volume scale is created with. */
  const Lower: real := 0.0
  const Upper: real := 100.0

  /** The value a range stores when asked to hold `v`: requests outside it are pulled to the nearer bound. */
  function Clamp(v: real): (r: real)
    ensures Lower <= r <= Upper
    ensures Lower <= v <= Upper ==> r == v
  {
    if v < Lower then Lower else if v > Upper then Upper else v
  }

  /** Clamping is the identity exactly on the range, and it never reverses the order of two requests. */
  lemma {:induction false} ClampSpec(v: real, w: real)
    ensures Clamp(v) == v <==> Lower <= v <= Upper
    ensures Clamp(Clamp(v)) == Clamp(v)
    ensures v <= w ==> Clamp(v) <= Clamp(w)
    ensures v < Lower ==> Clamp(v) == Lower
    ensures v > Upper ==> Clamp(v) == Upper
  {
  }

  /**
   * A volume scale. `handler` is the device id captured when the
   * `value-changed` handler was connected, if it was.
   */
  class Scale<Id> {
    var value: real
    var handler: Option<Id>

    /** A scale freshly made with range 0..100 sits at its lower bound with nothing connected. */
    constructor ()
      ensures value == Lower && handler == None
    {
      value := Lower;
      handler := None;
    }

    predicate Valid()
      reads this
    {
      Lower <= value <= Upper
    }

    /** `set_value`: stores the clamped request and reports whether `value-changed` is emitted. */
    method SetValue(v: real) returns (changed: bool)
      modifies this
      ensures value == Clamp(v) && handler == old(handler)
      ensures changed <==> value != old(value)
      ensures Valid()
    {
      var target := Clamp(v);
      changed := target != value;
      value := target;
    }

    /** Connects the `value-changed` handler with the device id it captures. */
    method Connect(id: Id)
      modifies this
      ensures handler == Some(id) && value == old(value)
    {
      handler := Some(id);
    }
  }
}
