# reMarkable multi-touch decoder, modelled in Dafny

This project models `MultitouchHandler` from librustpad. The handler decodes the Linux evdev
stream of the reMarkable tablet's touch digitizer, which follows the type-B multi-touch protocol.
Each raw record (`type`, `code`, `value`) either updates one of the handler's scalar fields or is
ignored. A vertical-position record (type 3 `EV_ABS`, code 54 `ABS_MT_POSITION_Y`) also produces
exactly one `MultitouchEvent::Touch`. That event carries the tracking id, the finger (slot) id, and
the last X and Y. Both coordinates are flipped against the sensor size and scaled to display size.

Files:

- `wrappers.dfy`: `Option`, used for "zero or one emitted event".
- `rust_int.dfy`: `u8`, `u16` and `i32`, the `as u16` / `as u8` casts (low bits of the two's-complement value), and `u16` subtraction with release-build wrap-around.
- `evdev.dfy`: the raw `input_event` record, plus the kernel's event type and code numbers used by the decoder (`EV_SYN` 0, `EV_ABS` 3, `ABS_MT_SLOT` 47, `ABS_MT_TOUCH_MAJOR` 48, `ABS_MT_TOUCH_MINOR` 49, `ABS_MT_ORIENTATION` 52, `ABS_MT_POSITION_X` 53, `ABS_MT_POSITION_Y` 54, `ABS_MT_TRACKING_ID` 57, `ABS_MT_PRESSURE` 58).
- `multitouch.dfy`: the `MultitouchEvent` enum and its default. It also holds `Step`, the meaning of one `on_event` call as a function of the fields. Lemmas there state what each kind of record does. The class `MultitouchHandler` has the struct's fields. Its constructor is `get_instance`, and its `OnInit` / `OnEvent` methods update the fields in place. `OnEvent` is proved to agree with `Step`. It returns the emitted event and appends it to a ghost log, `emitted`, instead of calling the callback.
- `multitouch_trace.dfy`: `Run`, the handler fed a whole stream of records, with lemmas about the fields it ends with and the events it emits.

The geometry constants `MTWIDTH`, `MTHEIGHT`, `DISPLAYWIDTH` and `DISPLAYHEIGHT` come from `mxc_types`, which is not part of this model. They are a `Geometry` parameter fixed when the handler is built. All four are `u16`, and the two sensor sizes must be positive.

Two consequences of the code are worth stating:

- Every tracking-id value other than -1 sets `currently_touching`, other negative values included, and the value is truncated to `u16` (multitouch.rs:94-96).
- `StepStaysOnDisplay` and `StaysOnDisplay` prove that emitted touches lie on the display when the position values are within the sensor's range. A value whose `as u16` exceeds the sensor size makes the subtraction wrap, and the touch can then lie off the display. `WrappedXLeavesDisplay` shows one such case: sensor 767 wide, display 1404 wide, X value -1, giving x 1405.

## Model

| member | source | states |
|---|---|---|
| `RustInt.AsU16` | rust-implementation/librustpad/src/multitouch.rs:72 | `value as u16` is the `u16` congruent to the value modulo 2^16. It is the value itself when that fits, and 65535 for -1. |
| `RustInt.AsU8` | rust-implementation/librustpad/src/multitouch.rs:87 | `value as u8` is the `u8` congruent to the value modulo 2^8. It is the value itself when that fits. |
| `RustInt.WrappingSubU16` | rust-implementation/librustpad/src/multitouch.rs:69 | `MTWIDTH - val` on `u16` is congruent to the difference modulo 2^16. It is the plain difference when `val <= MTWIDTH`, and the difference plus 2^16 otherwise. |
| `Multitouch.Scale` | rust-implementation/librustpad/src/multitouch.rs:78-79 | The scaled coordinate is the floor of raw * display / sensor whenever that fits in `u16`. Otherwise it saturates to 65535. A raw value within the sensor scales to at most the display size. |
| `Multitouch.ScaleExact` | rust-implementation/librustpad/src/multitouch.rs:78-79 | A raw coordinate within the sensor scales without saturating: exactly the floor of raw * display / sensor. |
| `Multitouch.MultitouchHandler.constructor` | rust-implementation/librustpad/src/multitouch.rs:22-34 | `get_instance`: name "MT", every numeric field 0, not touching. It stores the given verbose flag, and nothing has been emitted yet. |
| `Multitouch.MultitouchHandler.OnInit` | rust-implementation/librustpad/src/multitouch.rs:53-56 | `on_init` changes only the name, to the one given, and emits nothing. |
| `Multitouch.MultitouchHandler.OnEvent` | rust-implementation/librustpad/src/multitouch.rs:58-127 | The new fields and the returned event are exactly those of `Step` on the old fields. An event is returned exactly for type 3 / code 54, and the emitted log grows by exactly the returned event. |
| `Multitouch.DefaultEvent` | rust-implementation/librustpad/src/multitouch.rs:43-47 | `Default` gives `Unknown`. It has no contract of its own. `NeverEmitsDefault` states that it is never emitted. |
| `Multitouch.Initial` | rust-implementation/librustpad/src/multitouch.rs:23-33 | The field values `get_instance` sets. It has no contract of its own. The constructor's `Fields() == Initial()` and `InitialStaysOnDisplay` use it. |
| `Multitouch.Report` | rust-implementation/librustpad/src/multitouch.rs:75-80 | The `Touch` built from the stored fields. It has no contract of its own. `PositionYReports`, `FullReport` and `StepStaysOnDisplay` state its fields and bounds. |
| `Multitouch.Step` | rust-implementation/librustpad/src/multitouch.rs:58-127 | The whole `on_event` match on the fields. It has no contract of its own. The per-record lemmas below state each arm, and `OnEvent` is proved equal to it. |
| `Multitouch.EmitsOnlyOnPositionY` | rust-implementation/librustpad/src/multitouch.rs:58-127 | One record emits an event if and only if it is type 3 with code 54. |
| `Multitouch.PositionYReports` | rust-implementation/librustpad/src/multitouch.rs:71-81 | Code 54 stores `last_y = MTHEIGHT - (value as u16)` and changes no other field. It emits `Touch` with `gesture_seq = last_touch_id` and `finger_id = last_finger_id`, y scaled from the new `last_y`, and x scaled from the `last_x` already stored. |
| `Multitouch.PositionXStores` | rust-implementation/librustpad/src/multitouch.rs:67-70 | Code 53 stores `last_x = MTWIDTH - (value as u16)`, changes no other field and emits nothing. |
| `Multitouch.TrackingIdStores` | rust-implementation/librustpad/src/multitouch.rs:89-99 | Code 57 with value -1 only clears `currently_touching` and keeps `last_touch_id`. Any other value stores `last_touch_id = value as u16` and sets `currently_touching`. Neither case emits. |
| `Multitouch.SlotStores` | rust-implementation/librustpad/src/multitouch.rs:64-66 | Code 47 stores only `last_finger_id = value as u16` and emits nothing. |
| `Multitouch.TouchMinorStores` | rust-implementation/librustpad/src/multitouch.rs:85-88 | Code 49 stores only `last_touch_size = value as u8` and emits nothing. |
| `Multitouch.OtherRecordsChangeNothing` | rust-implementation/librustpad/src/multitouch.rs:58-127 | These leave every field unchanged and emit nothing: type 0, type 3 with code 48, 52 or 58, unknown type-3 codes, and unknown types. |
| `Multitouch.TouchingOnlyOnTrackingId` | rust-implementation/librustpad/src/multitouch.rs:89-99 | A record that is not type 3 / code 57 changes neither `currently_touching` nor `last_touch_id`. |
| `Multitouch.StepKeepsName` | rust-implementation/librustpad/src/multitouch.rs:58-127 | No record changes the name. Only `on_init` assigns it. |
| `Multitouch.NeverEmitsDefault` | rust-implementation/librustpad/src/multitouch.rs:37-47 | The default event `Unknown` is never emitted. |
| `Multitouch.StepStaysOnDisplay` | rust-implementation/librustpad/src/multitouch.rs:67-81 | Start with the stored position on the sensor. If the record's position value is within the sensor's range, the position stays on the sensor and any emitted touch lies on the display. |
| `MultitouchTrace.EmissionCount` | rust-implementation/librustpad/src/multitouch.rs:71-81 | A stream emits exactly as many events as it has vertical-position records. |
| `MultitouchTrace.NoEmissionIffNoPositionY` | rust-implementation/librustpad/src/multitouch.rs:58-127 | A stream emits nothing if and only if it holds no type 3 / code 54 record. |
| `MultitouchTrace.TouchingKeptWithoutTrackingId` | rust-implementation/librustpad/src/multitouch.rs:89-99 | Over a stream without a tracking-id record, `currently_touching` and `last_touch_id` keep their values, and every emitted touch carries that `last_touch_id`. |
| `MultitouchTrace.StaleXReused` | rust-implementation/librustpad/src/multitouch.rs:67-81 | Over a stream without a horizontal-position record, `last_x` is kept, and every emitted touch reuses its scaled value. |
| `MultitouchTrace.StaysOnDisplay` | rust-implementation/librustpad/src/multitouch.rs:67-81 | Start on the sensor and feed only in-range position records. The position stays on the sensor, and every emitted touch lies within the display. |
| `MultitouchTrace.InitialStaysOnDisplay` | rust-implementation/librustpad/src/multitouch.rs:22-34 | From the state `get_instance` builds, in-range streams only ever emit touches that lie on the display. |
| `MultitouchTrace.FullReport` | rust-implementation/librustpad/src/multitouch.rs:64-81 | The records (47, F), (53, h), (54, v) with h, v within the sensor emit one touch. It has the current tracking id, finger F, x = floor((MTWIDTH - h) * DISPLAYWIDTH / MTWIDTH) and y = floor((MTHEIGHT - v) * DISPLAYHEIGHT / MTHEIGHT). |
| `MultitouchTrace.RepeatedPositionY` | rust-implementation/librustpad/src/multitouch.rs:71-81 | The same vertical-position record fed twice emits two identical events. Nothing is deduplicated. |
| `MultitouchTrace.HalfScaleExample` | rust-implementation/librustpad/src/multitouch.rs:67-81 | Sensor 2048 x 1536 on a 1024 x 768 display: X = 1000 then Y = 500 emit the touch at x 524, y 518. |
| `MultitouchTrace.WrappedXLeavesDisplay` | rust-implementation/librustpad/src/multitouch.rs:67-81 | Sensor 767 x 1023 on a 1404 x 1872 display: X = -1 wraps `last_x` to 768, and the next Y emits x 1405, beyond the display width. |

## Left out

- `Multitouch.Scale`: the source multiplies in `f32` by `DISPLAYWIDTH / MTWIDTH` (or the height ratio) and casts with `as u16`. The model takes the exact integer floor of raw * display / sensor, saturated at 65535. The two can differ by one where `f32` rounding falls on the other side of an integer, so the model is not bit-exact with `f32` arithmetic.
- `RustInt.WrappingSubU16`: models the release-build wrap-around of `MTWIDTH - val` and `MTHEIGHT - val`. A debug build panics when `val` exceeds the sensor size, and that panic is not modelled.
- The `println!` diagnostics are console output and are not modelled. They are the line in `on_init` and the verbose lines for unknown codes and types. The model only shows that those branches change no field and emit nothing. The `verbose` flag is therefore stored but has no modelled effect.
- The callback function pointer is replaced by `OnEvent`'s returned `Option` and by the ghost log `emitted`.
- The `evdev::Device` handle given to `on_init`, the `EvdevHandler` trait plumbing and the epoll integration are foreign library and I/O code. None of them are part of this model.
- The concrete values of the `mxc_types` geometry constants are not part of this model. They are a parameter, with `DISPLAYWIDTH` and `DISPLAYHEIGHT` taken to be `u16`.
- The timestamp of `input_event` is not read by the decoder and is not modelled.
