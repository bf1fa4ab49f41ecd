/**
 * The `LnxlinkTouchpad` card as an object whose handlers update its fields
 * in place, as the card does. Every method is proved to have exactly the
 * effect of the function of module Engine that it is named after, so what
 * module Laws proves of those functions holds of these methods; the entry
 * points (the DOM event adapters, the two timer callbacks, the hass setter)
 * also keep the object invariant Engine.Valid.
 */
module Touchpad {

  import opened Wrappers
  import opened Actions
  import opened Config
  import opened Engine
  import Scroll
  import Laws

  class LnxlinkTouchpad {

    const env: Env

    var hass: bool
    var isDragging: bool
    var hasMoved: bool
    var isLongPress: bool
    var isMouseDown: bool
    var isTwoFingerTap: bool
    var isTwoFingerDrag: bool
    var track: Option<Track>
    var lastMoveTime: int
    var twoFingerLastY: real
    var scrollAccumulator: real
    var longPressArmed: bool
    var staleLongPress: nat
    var inactivityArmed: bool
    var lastTouchTime: int
    var isTouchDevice: bool
    /** Every call the card has made, in order. */
    var log: seq<Event>

    /** The fields as one value. */
    function Model(): Pad
      reads this
    {
      Pad(hass, isDragging, hasMoved, isLongPress, isMouseDown, isTwoFingerTap, isTwoFingerDrag,
          track, lastMoveTime, twoFingerLastY, scrollAccumulator,
          longPressArmed, staleLongPress, inactivityArmed, lastTouchTime, isTouchDevice, log)
    }

    ghost predicate Valid()
      reads this
    {
      Engine.Valid(Model(), env) && WellFormed(env)
    }

    /** `setConfig` with a configuration that names a coordinate entity. */
    constructor (raw: RawConfig, scale: (real, real, int) -> (int, int), hassPresent: bool)
      requires Load(raw).Some? && Load(raw).value.settings.scrollSensitivity > 0.0
      ensures Valid()
      ensures env.card == Load(raw).value && env.scale == scale
      ensures Model() == Initial(hassPresent)
    {
      env := Env(Load(raw).value, scale);
      hass := hassPresent;
      track := None;
      isDragging, hasMoved, isLongPress := false, false, false;
      longPressArmed, staleLongPress := false, 0;
      isTouchDevice := false;
      lastTouchTime, lastMoveTime := 0, 0;
      isMouseDown, isTwoFingerTap := false, false;
      inactivityArmed := false;
      isTwoFingerDrag := false;
      twoFingerLastY, scrollAccumulator := 0.0, 0.0;
      log := [];
    }

    /** The `hass` setter. */
    method SetHass(present: bool)
      requires Valid()
      modifies this
      ensures Valid()
      ensures Model() == old(Model()).(hass := present)
    {
      hass := present;
    }

    // ------------------------------------------------------------ small steps
    // Each of these writes at most two fields; the handlers below are made of them.

    /** `clearTimeout(this._longPressTimer)`: the callback it holds will not run. */
    method ClearLongPressTimer()
      modifies this`longPressArmed
      ensures Model() == old(Model()).(longPressArmed := false)
    {
      longPressArmed := false;
    }

    /** `this._longPressTimer = setTimeout(...)`: an earlier callback whose handle is overwritten still runs. */
    method ArmLongPressTimer()
      modifies this`longPressArmed, this`staleLongPress
      ensures Model() == ArmLongPress(old(Model()))
    {
      if longPressArmed {
        staleLongPress := staleLongPress + 1;
      }
      longPressArmed := true;
    }

    /** `clearTimeout(this._dragInactivityTimer)`. */
    method ClearInactivityTimer()
      modifies this`inactivityArmed
      ensures Model() == old(Model()).(inactivityArmed := false)
    {
      inactivityArmed := false;
    }

    /** `_lastX`, `_lastY`, `_startX`, `_startY` all set to null. */
    method ClearPositions()
      modifies this`track
      ensures Model() == old(Model()).(track := None)
    {
      track := None;
    }

    /** `_hasMoved` and `_isLongPress` back to false. */
    method ResetGestureFlags()
      modifies this`hasMoved, this`isLongPress
      ensures Model() == old(Model()).(hasMoved := false, isLongPress := false)
    {
      hasMoved := false;
      isLongPress := false;
    }

    method SetTwoFingerFlags(tap: bool, drag: bool)
      modifies this`isTwoFingerTap, this`isTwoFingerDrag
      ensures Model() == old(Model()).(isTwoFingerTap := tap, isTwoFingerDrag := drag)
    {
      isTwoFingerTap := tap;
      isTwoFingerDrag := drag;
    }

    /** `this._hass.callService(domain, "set_value", {entity_id, value})` with the scaled delta. */
    method SendCoords(dx: int, dy: int)
      modifies this`log
      ensures Model() == old(Model()).(log := old(log) + [CursorDelta(dx, dy)])
    {
      log := log + [CursorDelta(dx, dy)];
    }

    // ------------------------------------------------------------ actions

    method ExecuteAction(g: Gesture, a: ActionConfig)
      modifies this`log
      ensures Model() == Execute(old(Model()), g, a)
    {
      log := log + [Fired(g, a)];
    }

    /** `_handleTap`, `_handleRightClick`, `_handleScrollUp`, `_handleScrollDown`. */
    method HandleGesture(g: Gesture)
      modifies this`log
      ensures log == old(log) + Tick(hass, env, g)
      ensures Model() == Handle(old(Model()), env, g)
    {
      var slot := env.card.slots.For(g);
      if slot.None? || !hass {
        return;
      }
      ExecuteAction(g, slot.value);
    }

    method ResetDragInactivityTimer()
      modifies this`inactivityArmed
      ensures Model() == ResetInactivity(old(Model()))
    {
      inactivityArmed := true;
    }

    method StartDrag()
      modifies this`isMouseDown, this`log, this`inactivityArmed
      ensures Model() == Engine.StartDrag(old(Model()), env)
    {
      var slot := env.card.slots.dragStart;
      if slot.None? || !hass {
        return;
      }
      isMouseDown := true;
      ExecuteAction(DragStart, slot.value);
      ResetDragInactivityTimer();
    }

    method ReleaseDrag()
      modifies this`isMouseDown, this`log, this`inactivityArmed
      ensures Model() == Engine.ReleaseDrag(old(Model()), env)
    {
      var slot := env.card.slots.dragEnd;
      if slot.None? || !hass {
        return;
      }
      isMouseDown := false;
      ClearInactivityTimer();
      ExecuteAction(DragEnd, slot.value);
    }

    // ------------------------------------------------------------ handlers

    method Cancel()
      modifies this`longPressArmed, this`inactivityArmed, this`isDragging, this`isTwoFingerDrag, this`track, this`hasMoved, this`isLongPress
      ensures Model() == Engine.Cancel(old(Model()))
    {
      ClearLongPressTimer();
      if !isMouseDown {
        ClearInactivityTimer();
      }
      isDragging := false;
      isTwoFingerDrag := false;
      ClearPositions();
      ResetGestureFlags();
    }

    method Start(c: Contact, now: int)
      requires Valid()
      modifies this
      ensures Valid()
      ensures Model() == Engine.Start(old(Model()), c, now)
    {
      Laws.StartKeepsValid(Model(), env, c, now);
      if c.TwoFingers() {
        StartScroll(c.MidY());
      } else {
        StartSession(c.Primary(), now);
      }
    }

    method StartScroll(y: real)
      modifies this`isTwoFingerTap, this`isTwoFingerDrag, this`twoFingerLastY, this`scrollAccumulator
      ensures Model() == Engine.StartScroll(old(Model()), y)
    {
      SetTwoFingerFlags(true, true);
      twoFingerLastY := y;
      scrollAccumulator := 0.0;
    }

    method StartSession(at: Point, now: int)
      modifies this`isTwoFingerTap, this`isTwoFingerDrag, this`track, this`isDragging, this`hasMoved,
               this`isLongPress, this`lastMoveTime, this`longPressArmed, this`staleLongPress
      ensures Model() == Engine.StartSession(old(Model()), at, now)
    {
      SetTwoFingerFlags(false, false);
      OpenTrack(at);
      ResetGestureFlags();
      StampMoveTime(now);
      ArmLongPressTimer();
    }

    /** `_lastX`, `_lastY`, `_startX`, `_startY` all set to `at`, and `_isDragging` set. */
    method OpenTrack(at: Point)
      modifies this`track, this`isDragging
      ensures Model() == old(Model()).(track := Some(Track(at, at)), isDragging := true)
    {
      track := Some(Track(at, at));
      isDragging := true;
    }

    /** `_lastX`, `_lastY` set to `at`; the start point stays. */
    method UpdateLastPosition(at: Point)
      requires track.Some?
      modifies this`track
      ensures Model() == old(Model()).(track := Some(old(track).value.(last := at)))
    {
      track := Some(track.value.(last := at));
    }

    /** `this._lastMoveTime = Date.now()`, the clock's reading passed in. */
    method StampMoveTime(now: int)
      modifies this`lastMoveTime
      ensures Model() == old(Model()).(lastMoveTime := now)
    {
      lastMoveTime := now;
    }

    method Move(c: Contact, now: int)
      requires Valid()
      modifies this
      ensures Valid()
      ensures Model() == Engine.Move(old(Model()), env, c, now)
    {
      Laws.MoveKeepsValid(Model(), env, c, now);
      if isTwoFingerDrag && c.TwoFingers() {
        TwoFingerMove(c.MidY());
      } else if isDragging && track.Some? && hass {
        PointerMove(c.Primary(), now);
      }
    }

    /** The two-finger branch of `_move`: scrolling by the midpoint's vertical travel. */
    method TwoFingerMove(currentY: real)
      requires WellFormed(env)
      modifies this`hasMoved, this`scrollAccumulator, this`twoFingerLastY, this`log
      ensures Model() == ScrollMove(old(Model()), env, currentY)
    {
      FollowMidpoint(currentY);
      DrainScroll();
    }

    method FollowMidpoint(currentY: real)
      modifies this`hasMoved, this`scrollAccumulator, this`twoFingerLastY
      ensures Model() == Engine.FollowMidpoint(old(Model()), currentY)
    {
      var dy := currentY - twoFingerLastY;
      if Latches(dy) {
        hasMoved := true;
      }
      scrollAccumulator := scrollAccumulator + dy;
      twoFingerLastY := currentY;
    }

    /** The two draining loops of `_move`: whole units up, then down. */
    method DrainScroll()
      requires WellFormed(env)
      modifies this`log, this`scrollAccumulator
      ensures Model() == Engine.DrainScroll(old(Model()), env)
    {
      DrainUp();
      DrainDown();
      var d := Scroll.Drain(old(scrollAccumulator), env.card.settings.scrollSensitivity);
      Laws.UpsThenDowns(old(Model()), env, d.ups, d.downs, d.rest);
    }

    /** `while (acc < -s) { this._handleScrollUp(); acc += s; }` */
    method DrainUp()
      requires WellFormed(env)
      modifies this`log, this`scrollAccumulator
      ensures
        var u := Scroll.DrainUp(old(scrollAccumulator), env.card.settings.scrollSensitivity);
        Model() == old(Model()).(scrollAccumulator := u.0, log := old(log) + Laws.Repeat(Tick(hass, env, ScrollUp), u.1))
    {
      var s := env.card.settings.scrollSensitivity;
      ghost var t := Tick(hass, env, ScrollUp);
      ghost var up := Scroll.DrainUp(scrollAccumulator, s);
      ghost var ups: nat := 0;
      while scrollAccumulator < -s
        modifies this`log, this`scrollAccumulator
        invariant log == old(log) + Laws.Repeat(t, ups)
        invariant Scroll.DrainUp(scrollAccumulator, s).0 == up.0
        invariant Scroll.DrainUp(scrollAccumulator, s).1 + ups == up.1
        decreases Scroll.UpMeasure(scrollAccumulator, s)
      {
        Scroll.UpStep(scrollAccumulator, s);
        HandleGesture(ScrollUp);
        assert Laws.Repeat(t, ups + 1) == Laws.Repeat(t, ups) + t;
        scrollAccumulator := scrollAccumulator + s;
        ups := ups + 1;
      }
    }

    /** `while (acc > s) { this._handleScrollDown(); acc -= s; }` */
    method DrainDown()
      requires WellFormed(env)
      modifies this`log, this`scrollAccumulator
      ensures
        var d := Scroll.DrainDown(old(scrollAccumulator), env.card.settings.scrollSensitivity);
        Model() == old(Model()).(scrollAccumulator := d.0, log := old(log) + Laws.Repeat(Tick(hass, env, ScrollDown), d.1))
    {
      var s := env.card.settings.scrollSensitivity;
      ghost var t := Tick(hass, env, ScrollDown);
      ghost var down := Scroll.DrainDown(scrollAccumulator, s);
      ghost var downs: nat := 0;
      while scrollAccumulator > s
        modifies this`log, this`scrollAccumulator
        invariant log == old(log) + Laws.Repeat(t, downs)
        invariant Scroll.DrainDown(scrollAccumulator, s).0 == down.0
        invariant Scroll.DrainDown(scrollAccumulator, s).1 + downs == down.1
        decreases Scroll.DownMeasure(scrollAccumulator, s)
      {
        Scroll.DownStep(scrollAccumulator, s);
        HandleGesture(ScrollDown);
        assert Laws.Repeat(t, downs + 1) == Laws.Repeat(t, downs) + t;
        scrollAccumulator := scrollAccumulator - s;
        downs := downs + 1;
      }
    }

    /** The single-finger branch of `_move`, past its guard. */
    method PointerMove(at: Point, now: int)
      requires track.Some?
      modifies this`hasMoved, this`longPressArmed, this`track, this`lastMoveTime, this`log, this`inactivityArmed
      ensures Model() == Engine.PointerMove(old(Model()), env, at, now)
    {
      var dx := at.x - track.value.last.x;
      var dy := at.y - track.value.last.y;
      if dx == 0.0 && dy == 0.0 {
        return;
      }
      CrossThreshold(at);
      FollowPointer(at, now);
    }

    method CrossThreshold(at: Point)
      requires track.Some?
      modifies this`hasMoved, this`longPressArmed
      ensures Model() == Engine.CrossThreshold(old(Model()), env, at)
    {
      var start := track.value.start;
      if Beyond(at.x - start.x, at.y - start.y, env.card.settings.movementThreshold) {
        hasMoved := true;
        ClearLongPressTimer();
      }
    }

    method FollowPointer(at: Point, now: int)
      requires track.Some?
      modifies this`track, this`lastMoveTime, this`log, this`inactivityArmed
      ensures Model() == Engine.FollowPointer(old(Model()), env, at, now)
    {
      if !hasMoved {
        return;
      }
      var currentTime := now;
      var timeDelta := TimeDelta(currentTime, lastMoveTime);
      var last := track.value.last;
      var scaled := env.scale(at.x - last.x, at.y - last.y, timeDelta);
      UpdateLastPosition(at);
      StampMoveTime(currentTime);
      SendCoords(scaled.0, scaled.1);
      if isMouseDown {
        ResetDragInactivityTimer();
      }
    }

    method End()
      requires Valid()
      modifies this
      ensures Valid()
      ensures Model() == Engine.End(old(Model()), env)
    {
      Laws.EndKeepsValid(Model(), env);
      ClearLongPressTimer();
      Lift();
    }

    /** `_end` once the long-press timer is cleared: one branch per kind of lift. */
    method Lift()
      modifies this
      ensures Model() == Engine.Lift(old(Model()), env)
    {
      if isTwoFingerTap {
        if !hasMoved {
          HandleGesture(RightClick);
        }
        SetTwoFingerFlags(false, false);
        Cancel();
      } else if isMouseDown && !hasMoved {
        ReleaseDrag();
        Cancel();
      } else if isLongPress {
        if !isMouseDown {
          Cancel();
        } else {
          isDragging := false;
          ClearPositions();
          ResetGestureFlags();
        }
      } else {
        if isDragging && !hasMoved {
          HandleGesture(Tap);
        }
        Cancel();
      }
    }

    // ------------------------------------------------------------ timers

    /** A long-press callback runs: the one `_longPressTimer` holds, or an overwritten one. */
    method LongPressFires(stale: bool)
      requires Valid()
      requires if stale then staleLongPress > 0 else longPressArmed
      modifies this
      ensures Valid()
      ensures Model() == Engine.LongPressFires(old(Model()), env, stale)
    {
      Laws.LongPressKeepsValid(Model(), env, stale);
      if stale {
        staleLongPress := staleLongPress - 1;
      } else {
        ClearLongPressTimer();
      }
      LongPressCallback();
    }

    /** The callback `_start` schedules, whichever handle it was stored under. */
    method LongPressCallback()
      modifies this`isLongPress, this`isMouseDown, this`log, this`inactivityArmed
      ensures Model() == Engine.LongPressCallback(old(Model()), env)
    {
      if isDragging && !hasMoved && !isMouseDown {
        isLongPress := true;
        StartDrag();
      }
    }

    method InactivityFires()
      requires Valid() && inactivityArmed
      modifies this
      ensures Valid()
      ensures Model() == Engine.InactivityFires(old(Model()), env)
    {
      Laws.InactivityKeepsValid(Model(), env);
      ClearInactivityTimer();
      if isMouseDown {
        ReleaseDrag();
        Cancel();
      }
    }

    // ------------------------------------------------------------ DOM event adapters

    method MouseDown(at: Point, now: int)
      requires Valid()
      modifies this
      ensures Valid()
      ensures Model() == Engine.MouseDown(old(Model()), at, now)
    {
      if Suppressed(now, lastTouchTime) {
        return;
      }
      Start(Mouse(at), now);
    }

    method MouseMove(at: Point, now: int)
      requires Valid()
      modifies this
      ensures Valid()
      ensures Model() == Engine.MouseMove(old(Model()), env, at, now)
    {
      if isDragging || isTwoFingerDrag {
        Move(Mouse(at), now);
      }
    }

    method MouseUp(now: int)
      requires Valid()
      modifies this
      ensures Valid()
      ensures Model() == Engine.MouseUp(old(Model()), env, now)
    {
      if Suppressed(now, lastTouchTime) {
        return;
      }
      End();
    }

    method MouseLeave()
      requires Valid()
      modifies this
      ensures Valid()
      ensures Model() == Engine.Cancel(old(Model()))
    {
      Laws.CancelKeepsValid(Model(), env);
      Cancel();
    }

    method TouchStart(first: Point, others: seq<Point>, now: int)
      requires Valid()
      modifies this
      ensures Valid()
      ensures Model() == Engine.TouchStart(old(Model()), first, others, now)
    {
      lastTouchTime := now;
      isTouchDevice := true;
      Start(Touch(first, others), now);
    }

    method TouchMove(first: Point, others: seq<Point>, now: int)
      requires Valid()
      modifies this
      ensures Valid()
      ensures Model() == Engine.Move(old(Model()), env, Touch(first, others), now)
    {
      Move(Touch(first, others), now);
    }

    method TouchEnd()
      requires Valid()
      modifies this
      ensures Valid()
      ensures Model() == Engine.End(old(Model()), env)
    {
      End();
    }

    method TouchCancel()
      requires Valid()
      modifies this
      ensures Valid()
      ensures Model() == Engine.Cancel(old(Model()))
    {
      Laws.CancelKeepsValid(Model(), env);
      Cancel();
    }
  }
}
