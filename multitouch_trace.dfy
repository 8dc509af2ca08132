/**
 * The decoder driven by a stream of records, as its caller feeds the device's
 * events one by one: the fields it ends with and the callbacks it made.
 */
module MultitouchTrace {
  import opened Wrappers
  import opened RustInt
  import opened Evdev
  import opened Multitouch

  datatype Trace = Trace(state: State, emitted: seq<MultitouchEvent>)

  /** `on_event` applied to each record of `evs` in order, starting from `s`. */
  function Run(g: Geometry, s: State, evs: seq<InputEvent>): Trace
    requires ValidGeometry(g)
    decreases |evs|
  {
    if evs == [] then
      Trace(s, [])
    else
      var o := Step(g, s, evs[0]);
      var rest := Run(g, o.state, evs[1..]);
      Trace(rest.state, o.emitted.ToSeq() + rest.emitted)
  }

  /** The number of vertical-position records in `evs`. */
  function CountPositionY(evs: seq<InputEvent>): nat
    decreases |evs|
  {
    if evs == [] then 0
    else (if IsPositionY(evs[0]) then 1 else 0) + CountPositionY(evs[1..])
  }

  lemma {:induction false} CountPositionYZero(evs: seq<InputEvent>)
    ensures CountPositionY(evs) == 0 <==> forall i | 0 <= i < |evs| :: !IsPositionY(evs[i])
    decreases |evs|
  {
    if evs != [] {
      CountPositionYZero(evs[1..]);
      assert forall i | 1 <= i < |evs| :: evs[i] == evs[1..][i - 1];
    }
  }

  /** One callback per vertical-position record, and no other. */
  lemma {:induction false} EmissionCount(g: Geometry, s: State, evs: seq<InputEvent>)
    requires ValidGeometry(g)
    ensures |Run(g, s, evs).emitted| == CountPositionY(evs)
    decreases |evs|
  {
    if evs != [] {
      EmitsOnlyOnPositionY(g, s, evs[0]);
      EmissionCount(g, Step(g, s, evs[0]).state, evs[1..]);
    }
  }

  /** A stream makes no callback exactly when it holds no vertical-position record. */
  lemma NoEmissionIffNoPositionY(g: Geometry, s: State, evs: seq<InputEvent>)
    requires ValidGeometry(g)
    ensures Run(g, s, evs).emitted == [] <==> forall i | 0 <= i < |evs| :: !IsPositionY(evs[i])
  {
    EmissionCount(g, s, evs);
    CountPositionYZero(evs);
  }

  /**
   * Without a tracking-id record the touching flag and the tracking id keep
   * their values, and every reported touch carries that tracking id.
   */
  lemma {:induction false} TouchingKeptWithoutTrackingId(g: Geometry, s: State, evs: seq<InputEvent>)
    requires ValidGeometry(g)
    requires forall i | 0 <= i < |evs| :: !IsTrackingId(evs[i])
    ensures Run(g, s, evs).state.currentlyTouching == s.currentlyTouching
    ensures Run(g, s, evs).state.lastTouchId == s.lastTouchId
    ensures forall e | e in Run(g, s, evs).emitted :: e.Touch? && e.gestureSeq == s.lastTouchId
    decreases |evs|
  {
    if evs != [] {
      var o := Step(g, s, evs[0]);
      TouchingOnlyOnTrackingId(g, s, evs[0]);
      assert forall i | 0 <= i < |evs[1..]| :: evs[1..][i] == evs[i + 1];
      TouchingKeptWithoutTrackingId(g, o.state, evs[1..]);
    }
  }

  /**
   * Without a horizontal-position record the stored X is kept, and every
   * reported touch reuses it, however many vertical records arrive.
   */
  lemma {:induction false} StaleXReused(g: Geometry, s: State, evs: seq<InputEvent>)
    requires ValidGeometry(g)
    requires forall i | 0 <= i < |evs| :: !IsPositionX(evs[i])
    ensures Run(g, s, evs).state.lastX == s.lastX
    ensures forall e | e in Run(g, s, evs).emitted ::
      e.Touch? && e.x == Scale(s.lastX, g.mtWidth, g.displayWidth)
    decreases |evs|
  {
    if evs != [] {
      var o := Step(g, s, evs[0]);
      assert o.state.lastX == s.lastX;
      assert forall i | 0 <= i < |evs[1..]| :: evs[1..][i] == evs[i + 1];
      StaleXReused(g, o.state, evs[1..]);
    }
  }

  /**
   * From an on-sensor state, a stream of in-range records keeps the state on
   * the sensor and reports only touches that lie on the display.
   */
  lemma {:induction false} StaysOnDisplay(g: Geometry, s: State, evs: seq<InputEvent>)
    requires ValidGeometry(g) && OnSensor(g, s)
    requires forall i | 0 <= i < |evs| :: InRange(g, evs[i])
    ensures OnSensor(g, Run(g, s, evs).state)
    ensures forall e | e in Run(g, s, evs).emitted ::
      e.Touch? && e.x <= g.displayWidth && e.y <= g.displayHeight
    decreases |evs|
  {
    if evs != [] {
      StepStaysOnDisplay(g, s, evs[0]);
      assert forall i | 0 <= i < |evs[1..]| :: evs[1..][i] == evs[i + 1];
      StaysOnDisplay(g, Step(g, s, evs[0]).state, evs[1..]);
    }
  }

  /** The handler as constructed is on the sensor, so the above applies to any device stream. */
  lemma InitialStaysOnDisplay(g: Geometry, evs: seq<InputEvent>)
    requires ValidGeometry(g)
    requires forall i | 0 <= i < |evs| :: InRange(g, evs[i])
    ensures forall e | e in Run(g, Initial(), evs).emitted ::
      e.Touch? && e.x <= g.displayWidth && e.y <= g.displayHeight
  {
    StaysOnDisplay(g, Initial(), evs);
  }

  /** Feeding `ev` and then `evs` is one step followed by the rest. */
  lemma RunCons(g: Geometry, s: State, ev: InputEvent, evs: seq<InputEvent>)
    requires ValidGeometry(g)
    ensures var o := Step(g, s, ev);
      Run(g, s, [ev] + evs) == Trace(Run(g, o.state, evs).state, o.emitted.ToSeq() + Run(g, o.state, evs).emitted)
  {
    assert ([ev] + evs)[1..] == evs;
  }

  /**
   * A report "finger F, X = h, Y = v" with in-range positions yields one
   * touch: the current tracking id, finger F, and the flipped positions
   * scaled down to display space with the floor.
   */
  lemma FullReport(g: Geometry, s: State, f: u16, h: u16, v: u16)
    requires ValidGeometry(g) && h <= g.mtWidth && v <= g.mtHeight
    ensures var evs := [InputEvent(EV_ABS, ABS_MT_SLOT, f),
                        InputEvent(EV_ABS, ABS_MT_POSITION_X, h),
                        InputEvent(EV_ABS, ABS_MT_POSITION_Y, v)];
      var out := Run(g, s, evs).emitted;
      |out| == 1 && out[0].Touch? &&
      out[0].gestureSeq == s.lastTouchId && out[0].fingerId == f &&
      out[0].x == (g.mtWidth - h) * g.displayWidth / g.mtWidth &&
      out[0].y == (g.mtHeight - v) * g.displayHeight / g.mtHeight
  {
    var slot := InputEvent(EV_ABS, ABS_MT_SLOT, f);
    var posX := InputEvent(EV_ABS, ABS_MT_POSITION_X, h);
    var posY := InputEvent(EV_ABS, ABS_MT_POSITION_Y, v);
    var s1 := s.(lastFingerId := f);
    var s2 := s1.(lastX := g.mtWidth - h);
    var s3 := s2.(lastY := g.mtHeight - v);
    SlotStores(g, s, slot);
    PositionXStores(g, s1, posX);
    PositionYReports(g, s2, posY);
    RunCons(g, s2, posY, []);
    RunCons(g, s1, posX, [posY]);
    RunCons(g, s, slot, [posX, posY]);
    ScaleExact(g.mtWidth - h, g.mtWidth, g.displayWidth);
    ScaleExact(g.mtHeight - v, g.mtHeight, g.displayHeight);
  }

  /** The same vertical-position record twice gives two identical callbacks. */
  lemma RepeatedPositionY(g: Geometry, s: State, ev: InputEvent)
    requires ValidGeometry(g) && IsPositionY(ev)
    ensures var out := Run(g, s, [ev, ev]).emitted;
      |out| == 2 && out[0] == out[1]
  {
    var o1 := Step(g, s, ev);
    assert Step(g, o1.state, ev) == o1;
    RunCons(g, o1.state, ev, []);
    RunCons(g, s, ev, [ev]);
  }

  /**
   * Sensor 2048 x 1536 shown on 1024 x 768: X = 1000 and then Y = 500 report
   * the touch at x 524, y 518.
   */
  lemma HalfScaleExample(s: State)
    ensures var g := Geometry(2048, 1536, 1024, 768);
      Run(g, s, [InputEvent(EV_ABS, ABS_MT_POSITION_X, 1000),
                 InputEvent(EV_ABS, ABS_MT_POSITION_Y, 500)]).emitted
        == [Touch(s.lastTouchId, s.lastFingerId, 518, 524)]
  {
    var g := Geometry(2048, 1536, 1024, 768);
    var posX := InputEvent(EV_ABS, ABS_MT_POSITION_X, 1000);
    var posY := InputEvent(EV_ABS, ABS_MT_POSITION_Y, 500);
    var s1 := s.(lastX := 1048);
    assert Step(g, s, posX) == Outcome(s1, None);
    assert Scale(1048, 2048, 1024) == 524;
    assert Scale(1036, 1536, 768) == 518;
    RunCons(g, s1, posY, []);
    RunCons(g, s, posX, [posY]);
  }

  /**
   * Sensor 767 x 1023 shown on 1404 x 1872: an X value of -1 becomes 65535
   * as `u16`, the subtraction wraps to 768, and the next Y reports x 1405,
   * off the display.
   */
  lemma WrappedXLeavesDisplay(s: State)
    ensures var g := Geometry(767, 1023, 1404, 1872);
      var out := Run(g, s, [InputEvent(EV_ABS, ABS_MT_POSITION_X, -1),
                            InputEvent(EV_ABS, ABS_MT_POSITION_Y, 0)]).emitted;
      |out| == 1 && out[0].Touch? && out[0].x == 1405 && out[0].x > g.displayWidth
  {
    var g := Geometry(767, 1023, 1404, 1872);
    var posX := InputEvent(EV_ABS, ABS_MT_POSITION_X, -1);
    var posY := InputEvent(EV_ABS, ABS_MT_POSITION_Y, 0);
    var s1 := s.(lastX := 768);
    assert Step(g, s, posX) == Outcome(s1, None);
    assert Scale(768, 767, 1404) == 1405;
    RunCons(g, s1, posY, []);
    RunCons(g, s, posX, [posY]);
  }
}
