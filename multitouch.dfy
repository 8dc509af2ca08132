/**
 * The reMarkable multi-touch decoder: a handler that is fed one raw evdev
 * record at a time, keeps the latest finger id, position, tracking id and
 * contact size, and reports one `Touch` per vertical-position record.
 *
 * `Step` is the meaning of one call of `on_event` on the handler's fields;
 * the class `MultitouchHandler` updates those fields in place and is proved
 * to agree with `Step`.  The lemmas below state what each kind of record
 * does to the state and to the output.
 */
module Multitouch {
  import opened Wrappers
  import opened RustInt
  import opened Evdev

  /** What the handler hands to its callback. */
  datatype MultitouchEvent =
    | Touch(gestureSeq: u16, fingerId: u16, y: u16, x: u16)
    | Unknown

  /** The `Default` of `MultitouchEvent`. */
  function DefaultEvent(): MultitouchEvent {
    Unknown
  }

  /**
   * The sensor and display sizes the decoder is compiled against (the
   * `mxc_types` constants MTWIDTH, MTHEIGHT, DISPLAYWIDTH, DISPLAYHEIGHT).
   * Their values are not part of this model, so they are a parameter.
   */
  datatype Geometry = Geometry(mtWidth: u16, mtHeight: u16, displayWidth: u16, displayHeight: u16)

  predicate ValidGeometry(g: Geometry) {
    g.mtWidth > 0 && g.mtHeight > 0
  }

  /** For a positive factor, a product comparison is a comparison of the other factors. */
  lemma MulCancelLess(d: nat, a: int, b: int)
    requires d > 0 && d * a < d * b
    ensures a < b
  {
  }

  /** Euclidean division facts the scaling needs, with the multiplications spelled out. */
  lemma DivisionBounds(raw: nat, display: nat, sensor: nat)
    requires sensor > 0
    ensures sensor * (raw * display / sensor) <= raw * display < sensor * (raw * display / sensor + 1)
    ensures raw * display < U16_MODULUS * sensor ==> raw * display / sensor < U16_MODULUS
    ensures raw * display >= U16_MODULUS * sensor ==> raw * display / sensor >= U16_MODULUS
    ensures raw <= sensor ==> raw * display / sensor <= display
  {
    var n, q := raw * display, raw * display / sensor;
    assert sensor * q + n % sensor == n;
    if n < U16_MODULUS * sensor {
      MulCancelLess(sensor, q, U16_MODULUS);
    }
    if n >= U16_MODULUS * sensor {
      MulCancelLess(sensor, U16_MODULUS - 1, q + 1);
    }
    if raw <= sensor {
      assert n <= sensor * display;
      MulCancelLess(sensor, q, display + 1);
    }
  }

  /**
   * `(raw as f32 * SCALAR) as u16` with SCALAR = display / sensor, on
   * integers: the floor of raw * display / sensor, saturated at u16::MAX as
   * Rust's float-to-integer cast saturates.
   */
  function Scale(raw: u16, sensor: u16, display: u16): (r: u16)
    requires sensor > 0
    ensures raw * display < U16_MODULUS * sensor ==> r * sensor <= raw * display < (r + 1) * sensor
    ensures raw * display >= U16_MODULUS * sensor ==> r == U16_MAX
    ensures raw <= sensor ==> r <= display
  {
    DivisionBounds(raw, display, sensor);
    var q := raw * display / sensor;
    if q <= U16_MAX then q else U16_MAX
  }

  /** A position within the sensor scales without saturating: the plain floor. */
  lemma ScaleExact(raw: u16, sensor: u16, display: u16)
    requires 0 < sensor && raw <= sensor
    ensures Scale(raw, sensor, display) == raw * display / sensor
  {
    DivisionBounds(raw, display, sensor);
  }

  /** The handler's scalar fields (the callback and the verbose flag aside). */
  datatype State = State(
    name: string,
    lastTouchId: u16,
    lastTouchSize: u8,
    currentlyTouching: bool,
    lastX: u16,
    lastY: u16,
    lastFingerId: u16)

  /** The fields as `get_instance` leaves them. */
  function Initial(): State {
    State("MT", 0, 0, false, 0, 0, 0)
  }

  /** The new fields after one record, and the event passed to the callback, if any. */
  datatype Outcome = Outcome(state: State, emitted: Option<MultitouchEvent>)

  /** The touch reported from the stored fields, scaled into display space. */
  function Report(g: Geometry, s: State): MultitouchEvent
    requires ValidGeometry(g)
  {
    Touch(s.lastTouchId, s.lastFingerId,
          Scale(s.lastY, g.mtHeight, g.displayHeight),
          Scale(s.lastX, g.mtWidth, g.displayWidth))
  }

  /** One call of `on_event`. */
  function Step(g: Geometry, s: State, ev: InputEvent): Outcome
    requires ValidGeometry(g)
  {
    if ev.evType == EV_SYN then
      Outcome(s, None)
    else if ev.evType == EV_ABS then
      if ev.code == ABS_MT_SLOT then
        Outcome(s.(lastFingerId := AsU16(ev.value)), None)
      else if ev.code == ABS_MT_POSITION_X then
        Outcome(s.(lastX := WrappingSubU16(g.mtWidth, AsU16(ev.value))), None)
      else if ev.code == ABS_MT_POSITION_Y then
        var s' := s.(lastY := WrappingSubU16(g.mtHeight, AsU16(ev.value)));
        Outcome(s', Some(Report(g, s')))
      else if ev.code == ABS_MT_ORIENTATION || ev.code == ABS_MT_TOUCH_MAJOR || ev.code == ABS_MT_PRESSURE then
        Outcome(s, None)
      else if ev.code == ABS_MT_TOUCH_MINOR then
        Outcome(s.(lastTouchSize := AsU8(ev.value)), None)
      else if ev.code == ABS_MT_TRACKING_ID then
        if ev.value == TRACKING_ID_RELEASED then
          Outcome(s.(currentlyTouching := false), None)
        else
          Outcome(s.(lastTouchId := AsU16(ev.value), currentlyTouching := true), None)
      else
        // unknown absolute code: at most a diagnostic line
        Outcome(s, None)
    else
      // unknown event type: at most a diagnostic line
      Outcome(s, None)
  }

  /** The records `on_event` handles by changing a field. */
  predicate ChangesState(ev: InputEvent) {
    ev.evType == EV_ABS &&
    (ev.code == ABS_MT_SLOT || ev.code == ABS_MT_POSITION_X || ev.code == ABS_MT_POSITION_Y ||
     ev.code == ABS_MT_TOUCH_MINOR || ev.code == ABS_MT_TRACKING_ID)
  }

  // ---------------------------------------------------------------------
  // What one record does

  /** A callback is made exactly for a vertical-position record. */
  lemma EmitsOnlyOnPositionY(g: Geometry, s: State, ev: InputEvent)
    requires ValidGeometry(g)
    ensures Step(g, s, ev).emitted.Some? <==> IsPositionY(ev)
  {
  }

  /**
   * A vertical-position record stores the flipped Y and reports the stored
   * tracking id and finger id with the just-stored Y and the X stored
   * earlier, whatever record (or none) set it.
   */
  lemma PositionYReports(g: Geometry, s: State, ev: InputEvent)
    requires ValidGeometry(g) && IsPositionY(ev)
    ensures var y := WrappingSubU16(g.mtHeight, AsU16(ev.value));
      Step(g, s, ev) == Outcome(s.(lastY := y), Some(Touch(
        s.lastTouchId, s.lastFingerId,
        Scale(y, g.mtHeight, g.displayHeight),
        Scale(s.lastX, g.mtWidth, g.displayWidth))))
  {
  }

  /** A horizontal-position record stores the flipped X and nothing else. */
  lemma PositionXStores(g: Geometry, s: State, ev: InputEvent)
    requires ValidGeometry(g) && IsPositionX(ev)
    ensures Step(g, s, ev) == Outcome(s.(lastX := WrappingSubU16(g.mtWidth, AsU16(ev.value))), None)
  {
  }

  /**
   * A tracking-id record of -1 only clears the touching flag; any other
   * value stores the truncated id and sets the flag.
   */
  lemma TrackingIdStores(g: Geometry, s: State, ev: InputEvent)
    requires ValidGeometry(g) && IsTrackingId(ev)
    ensures ev.value == TRACKING_ID_RELEASED ==>
      Step(g, s, ev) == Outcome(s.(currentlyTouching := false), None)
    ensures ev.value != TRACKING_ID_RELEASED ==>
      Step(g, s, ev) == Outcome(s.(lastTouchId := AsU16(ev.value), currentlyTouching := true), None)
  {
  }

  /** A slot record stores only the truncated finger id. */
  lemma SlotStores(g: Geometry, s: State, ev: InputEvent)
    requires ValidGeometry(g) && IsAbs(ev, ABS_MT_SLOT)
    ensures Step(g, s, ev) == Outcome(s.(lastFingerId := AsU16(ev.value)), None)
  {
  }

  /** A touch-minor record stores only the contact size, truncated to 8 bits. */
  lemma TouchMinorStores(g: Geometry, s: State, ev: InputEvent)
    requires ValidGeometry(g) && IsAbs(ev, ABS_MT_TOUCH_MINOR)
    ensures Step(g, s, ev) == Outcome(s.(lastTouchSize := AsU8(ev.value)), None)
  {
  }

  /**
   * Sync records, the ignored codes 48, 52 and 58, unknown codes and
   * unknown types leave every field as it was and emit nothing.
   */
  lemma OtherRecordsChangeNothing(g: Geometry, s: State, ev: InputEvent)
    requires ValidGeometry(g) && !ChangesState(ev)
    ensures Step(g, s, ev) == Outcome(s, None)
  {
  }

  /** Only a tracking-id record moves the touching flag or the tracking id. */
  lemma TouchingOnlyOnTrackingId(g: Geometry, s: State, ev: InputEvent)
    requires ValidGeometry(g) && !IsTrackingId(ev)
    ensures Step(g, s, ev).state.currentlyTouching == s.currentlyTouching
    ensures Step(g, s, ev).state.lastTouchId == s.lastTouchId
  {
  }

  /** No record changes the name; only `on_init` does. */
  lemma StepKeepsName(g: Geometry, s: State, ev: InputEvent)
    requires ValidGeometry(g)
    ensures Step(g, s, ev).state.name == s.name
  {
  }

  /** The default event is never handed to the callback. */
  lemma NeverEmitsDefault(g: Geometry, s: State, ev: InputEvent)
    requires ValidGeometry(g)
    ensures Step(g, s, ev).emitted != Some(DefaultEvent())
  {
  }

  /** The stored position lies within the sensor. */
  predicate OnSensor(g: Geometry, s: State) {
    s.lastX <= g.mtWidth && s.lastY <= g.mtHeight
  }

  /** A position record whose value lies within the sensor's range. */
  predicate InRange(g: Geometry, ev: InputEvent) {
    (IsPositionX(ev) ==> 0 <= ev.value <= g.mtWidth) &&
    (IsPositionY(ev) ==> 0 <= ev.value <= g.mtHeight)
  }

  /**
   * With in-range positions no subtraction wraps: the stored position stays
   * on the sensor, and a reported touch lies on the display.
   */
  lemma StepStaysOnDisplay(g: Geometry, s: State, ev: InputEvent)
    requires ValidGeometry(g) && OnSensor(g, s) && InRange(g, ev)
    ensures OnSensor(g, Step(g, s, ev).state)
    ensures Step(g, s, ev).emitted.Some? ==>
      var e := Step(g, s, ev).emitted.value;
      e.Touch? && e.x <= g.displayWidth && e.y <= g.displayHeight
  {
  }

  // ---------------------------------------------------------------------
  // The handler object

  /** `MultitouchHandler`, whose `on_event` updates its fields in place. */
  class MultitouchHandler {
    var name: string
    var lastTouchId: u16
    var lastTouchSize: u8
    var currentlyTouching: bool
    var lastX: u16
    var lastY: u16
    var lastFingerId: u16
    const verbose: bool
    const geometry: Geometry
    /** Every event handed to the callback so far, in order. */
    ghost var emitted: seq<MultitouchEvent>

    ghost predicate Valid()
      reads this
    {
      ValidGeometry(geometry)
    }

    /** The scalar fields as one value. */
    function Fields(): State
      reads this
    {
      State(name, lastTouchId, lastTouchSize, currentlyTouching, lastX, lastY, lastFingerId)
    }

    /** `get_instance`: name "MT", every number 0, not touching. */
    constructor (verbose: bool, geometry: Geometry)
      requires ValidGeometry(geometry)
      ensures Valid()
      ensures Fields() == Initial()
      ensures this.verbose == verbose && this.geometry == geometry
      ensures emitted == []
    {
      name := "MT";
      currentlyTouching := false;
      lastFingerId := 0;
      lastTouchId := 0;
      lastTouchSize := 0;
      lastX := 0;
      lastY := 0;
      this.verbose := verbose;
      this.geometry := geometry;
      emitted := [];
    }

    /** `on_init`: records the device's name; the device handle is not used. */
    method OnInit(name: string)
      requires Valid()
      modifies this
      ensures Valid()
      ensures Fields() == old(Fields()).(name := name)
      ensures emitted == old(emitted)
    {
      this.name := name;
    }

    /**
     * `on_event`: the fields become those `Step` computes, and the event
     * handed to the callback (if any) is returned and logged.
     */
    method OnEvent(ev: InputEvent) returns (e: Option<MultitouchEvent>)
      requires Valid()
      modifies this
      ensures Valid()
      ensures Outcome(Fields(), e) == Step(geometry, old(Fields()), ev)
      ensures e.Some? <==> IsPositionY(ev)
      ensures emitted == old(emitted) + e.ToSeq()
    {
      e := None;
      if ev.evType == EV_SYN {
        // sync: nothing to do
      } else if ev.evType == EV_ABS {
        if ev.code == ABS_MT_SLOT {
          lastFingerId := AsU16(ev.value);
        } else if ev.code == ABS_MT_POSITION_X {
          var val := AsU16(ev.value);
          lastX := WrappingSubU16(geometry.mtWidth, val);
        } else if ev.code == ABS_MT_POSITION_Y {
          var val := AsU16(ev.value);
          lastY := WrappingSubU16(geometry.mtHeight, val);
          var touch := Touch(lastTouchId, lastFingerId,
                             Scale(lastY, geometry.mtHeight, geometry.displayHeight),
                             Scale(lastX, geometry.mtWidth, geometry.displayWidth));
          e := Some(touch);
          emitted := emitted + [touch];
        } else if ev.code == ABS_MT_ORIENTATION || ev.code == ABS_MT_TOUCH_MAJOR || ev.code == ABS_MT_PRESSURE {
          // deliberately ignored
        } else if ev.code == ABS_MT_TOUCH_MINOR {
          lastTouchSize := AsU8(ev.value);
        } else if ev.code == ABS_MT_TRACKING_ID {
          if ev.value == TRACKING_ID_RELEASED {
            currentlyTouching := false;
          } else {
            lastTouchId := AsU16(ev.value);
            currentlyTouching := true;
          }
        } else {
          // unknown absolute code: at most a diagnostic line
        }
      } else {
        // unknown event type: at most a diagnostic line
      }
    }
  }
}
