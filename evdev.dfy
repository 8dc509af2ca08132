/**
 * The raw Linux evdev record and the event type and code numbers the
 * decoder dispatches on (the kernel's input-event-codes header and its
 * type-B multi-touch protocol).
 */
module Evdev {
  import opened RustInt

  /** One `input_event` as read from the device; its timestamp is not used. */
  datatype InputEvent = InputEvent(evType: u16, code: u16, value: i32)

  // Event types
  const EV_SYN: u16 := 0
  const EV_ABS: u16 := 3

  // Absolute-axis codes of the multi-touch protocol
  const ABS_MT_SLOT: u16 := 47
  const ABS_MT_TOUCH_MAJOR: u16 := 48
  const ABS_MT_TOUCH_MINOR: u16 := 49
  const ABS_MT_ORIENTATION: u16 := 52
  const ABS_MT_POSITION_X: u16 := 53
  const ABS_MT_POSITION_Y: u16 := 54
  const ABS_MT_TRACKING_ID: u16 := 57
  const ABS_MT_PRESSURE: u16 := 58

  /** The tracking-id value by which the protocol reports a lifted contact. */
  const TRACKING_ID_RELEASED: i32 := -1

  predicate IsAbs(ev: InputEvent, code: u16) {
    ev.evType == EV_ABS && ev.code == code
  }

  predicate IsPositionX(ev: InputEvent) { IsAbs(ev, ABS_MT_POSITION_X) }
  predicate IsPositionY(ev: InputEvent) { IsAbs(ev, ABS_MT_POSITION_Y) }
  predicate IsTrackingId(ev: InputEvent) { IsAbs(ev, ABS_MT_TRACKING_ID) }
}
