/**
 * The touchpad's gesture engine as a state and one function per handler.
 * `Pad` holds every instance field the handlers read or write, plus the
 * record of what the card has sent out so far (`log`). Each function is the
 * exact effect of the handler it is named after; the class in module
 * Touchpad performs the same steps in place and is proved to agree with
 * these functions, and module Laws proves what they promise.
 *
 * Timers are modelled by what is scheduled: `longPressArmed` is the callback
 * whose handle `_longPressTimer` holds, `staleLongPress` counts long-press
 * callbacks whose handle was overwritten without being cleared (each still
 * runs later), and `inactivityArmed` is the drag-inactivity callback.
 * The host decides when a scheduled callback runs; the model lets it run at
 * any point through LongPressFires and InactivityFires.
 */
module Engine {

  import opened Wrappers
  import opened Actions
  import opened Config
  import Scroll
  import Payload

  /** A mouse event within this many milliseconds of the last touch start is a synthetic one. */
  const SUPPRESSION_WINDOW: int := 500
  /** Two-finger vertical travel beyond this (in one move) rules out a right click. */
  const SCROLL_LATCH: real := 2.0

  datatype Point = Point(x: real, y: real)

  /** The positions an event carries: a mouse event, or a touch list (never empty). */
  datatype Contact = Mouse(at: Point) | Touch(first: Point, others: seq<Point>)
  {
    /** `e.touches ? e.touches[0] : e` */
    function Primary(): Point {
      if Mouse? then at else first
    }

    /** `e.touches && e.touches.length === 2` */
    predicate TwoFingers() {
      Touch? && |others| == 1
    }

    /** The average `clientY` of the two touches. */
    function MidY(): real
      requires TwoFingers()
    {
      (first.y + others[0].y) / 2.0
    }
  }

  /** `_startX/_startY` and `_lastX/_lastY`, which are always set and nulled together. */
  datatype Track = Track(start: Point, last: Point)

  /** What the card sends out, as the arguments of the call it makes. */
  datatype Event =
    | CursorDelta(dx: int, dy: int)               // set_value on the coordinate entity with the scaled deltas
    | Fired(gesture: Gesture, action: ActionConfig) // _executeAction on a slot's action

  /** The host call an event stands for. */
  datatype Call =
    | SetValue(domain: string, entityId: string, value: string)
    | Executed(gesture: Gesture, dispatch: Dispatch)

  /**
   * `hass.callService(domain, "set_value", {entity_id, value: "<x>,<y>"})`
   * with the domain read off the coordinate entity, or the branch
   * `_executeAction` takes for the slot's action.
   */
  function Effect(env: Env, e: Event): Call {
    match e
    case CursorDelta(dx, dy) =>
      SetValue(DomainService(env.card.coordEntity).0, env.card.coordEntity, Payload.Coords(dx, dy))
    case Fired(g, a) => Executed(g, Classify(a))
  }

  /**
   * What stays fixed for the card's lifetime: the loaded configuration and
   * the velocity scaling `(dx, dy, timeDelta) -> (round(dx*k), round(dy*k))`
   * with `k = sensitivity * (1 + |(dx,dy)| / timeDelta * acceleration)`,
   * which the model leaves abstract.
   */
  datatype Env = Env(card: Card, scale: (real, real, int) -> (int, int))

  datatype Pad = Pad(
    hass: bool,
    isDragging: bool,
    hasMoved: bool,
    isLongPress: bool,
    isMouseDown: bool,
    isTwoFingerTap: bool,
    isTwoFingerDrag: bool,
    track: Option<Track>,
    lastMoveTime: int,
    twoFingerLastY: real,
    scrollAccumulator: real,
    longPressArmed: bool,
    staleLongPress: nat,
    inactivityArmed: bool,
    lastTouchTime: int,
    isTouchDevice: bool,
    log: seq<Event>)

  /** The scroll loops terminate only for a positive sensitivity. */
  predicate WellFormed(env: Env) {
    env.card.settings.scrollSensitivity > 0.0
  }

  /**
   * The relations between fields that every handler keeps: a contact track
   * exists exactly while single-finger dragging, a long press belongs to such
   * a drag, a two-finger scroll belongs to a two-finger tap candidate, the
   * inactivity watchdog runs only while the drag is held, and the drag can be
   * held only if a drag-start action is configured.
   */
  predicate Valid(p: Pad, env: Env) {
    && (p.isDragging <==> p.track.Some?)
    && (p.isLongPress ==> p.isDragging)
    && (p.isTwoFingerDrag ==> p.isTwoFingerTap)
    && (p.inactivityArmed ==> p.isMouseDown)
    && (p.isMouseDown ==> env.card.slots.dragStart.Some?)
  }

  /** The fields as `setConfig` leaves them. */
  function Initial(hass: bool): (p: Pad)
  {
    Pad(hass, false, false, false, false, false, false, None, 0, 0.0, 0.0,
        false, 0, false, 0, false, [])
  }

  // ---------------------------------------------------------------- actions

  /** `_executeAction(action)` for gesture `g`. */
  function Execute(p: Pad, g: Gesture, a: ActionConfig): Pad {
    p.(log := p.log + [Fired(g, a)])
  }

  /**
   * The action call one gesture handler makes: none when the slot has no
   * action or hass is absent.
   */
  function Tick(hass: bool, env: Env, g: Gesture): (t: seq<Event>)
    ensures |t| <= 1
    ensures |t| == 1 <==> env.card.slots.For(g).Some? && hass
    ensures |t| == 1 ==> t == [Fired(g, env.card.slots.For(g).value)]
  {
    var slot := env.card.slots.For(g);
    if slot.None? || !hass then [] else [Fired(g, slot.value)]
  }

  /** `_handleTap`, `_handleRightClick`, `_handleScrollUp`, `_handleScrollDown`. */
  function Handle(p: Pad, env: Env, g: Gesture): Pad {
    p.(log := p.log + Tick(p.hass, env, g))
  }

  /** `n` calls of the same handler. */
  function HandleTimes(p: Pad, env: Env, g: Gesture, n: nat): Pad {
    if n == 0 then p else Handle(HandleTimes(p, env, g, n - 1), env, g)
  }

  /** `_resetDragInactivityTimer`: the old callback is cleared and a new one scheduled. */
  function ResetInactivity(p: Pad): Pad {
    p.(inactivityArmed := true)
  }

  /** `_startDrag`: only with a drag-start action and hass is the button held. */
  function StartDrag(p: Pad, env: Env): Pad {
    var slot := env.card.slots.dragStart;
    if slot.None? || !p.hass then p
    else ResetInactivity(Execute(p.(isMouseDown := true), DragStart, slot.value))
  }

  /** `_releaseDrag`: only with a drag-end action and hass is the button released. */
  function ReleaseDrag(p: Pad, env: Env): Pad {
    var slot := env.card.slots.dragEnd;
    if slot.None? || !p.hass then p
    else Execute(p.(isMouseDown := false, inactivityArmed := false), DragEnd, slot.value)
  }

  // ---------------------------------------------------------------- handlers

  /** `_cancel`: the watchdog survives while the drag is held; the two-finger tap flag and the held button are left alone. */
  function Cancel(p: Pad): Pad {
    p.(longPressArmed := false,
       inactivityArmed := if p.isMouseDown then p.inactivityArmed else false,
       isDragging := false,
       isTwoFingerDrag := false,
       track := None,
       hasMoved := false,
       isLongPress := false)
  }

  /** `_start`: a two-finger start only prepares scrolling; otherwise a new single-finger session. */
  function Start(p: Pad, c: Contact, now: int): Pad {
    if c.TwoFingers() then StartScroll(p, c.MidY()) else StartSession(p, c.Primary(), now)
  }

  /** A two-finger contact only prepares scrolling from the midpoint's height `y`. */
  function StartScroll(p: Pad, y: real): Pad {
    p.(isTwoFingerTap := true, isTwoFingerDrag := true, twoFingerLastY := y, scrollAccumulator := 0.0)
  }

  /** A single-finger contact at `at` opens a session and arms the long-press timer. */
  function StartSession(p: Pad, at: Point, now: int): Pad {
    ArmLongPress(p.(isTwoFingerTap := false, isTwoFingerDrag := false,
                    track := Some(Track(at, at)), isDragging := true, hasMoved := false,
                    isLongPress := false, lastMoveTime := now))
  }

  /** `this._longPressTimer = setTimeout(...)`: a callback whose handle is overwritten is never cleared. */
  function ArmLongPress(p: Pad): Pad {
    p.(longPressArmed := true,
       staleLongPress := if p.longPressArmed then p.staleLongPress + 1 else p.staleLongPress)
  }


  /** `Math.max(currentTime - this._lastMoveTime, 1)` */
  function TimeDelta(now: int, lastMoveTime: int): (dt: int)
    ensures dt >= 1 && dt >= now - lastMoveTime
    ensures dt == now - lastMoveTime || dt == 1
  {
    if now - lastMoveTime > 1 then now - lastMoveTime else 1
  }

  /**
   * `Math.sqrt(dx*dx + dy*dy) > threshold`, decided without the square root:
   * a distance is never negative, so a negative threshold is always exceeded
   * and otherwise the squares compare as the distances do (lemma
   * Laws.BeyondIsDistance).
   */
  predicate Beyond(dx: real, dy: real, threshold: real) {
    threshold < 0.0 || dx * dx + dy * dy > threshold * threshold
  }

  /** `Math.abs(dy) > 2`: a two-finger move this large is a scroll, not a tap. */
  predicate Latches(dy: real) {
    dy > SCROLL_LATCH || dy < -SCROLL_LATCH
  }

  /** The two-finger branch of `_move`, taken with the new average Y. */
  function ScrollMove(p: Pad, env: Env, y: real): Pad
    requires WellFormed(env)
  {
    DrainScroll(FollowMidpoint(p, y), env)
  }

  /** The midpoint's travel is added to the accumulator; a large one latches `_hasMoved`. */
  function FollowMidpoint(p: Pad, y: real): Pad {
    var dy := y - p.twoFingerLastY;
    p.(hasMoved := p.hasMoved || Latches(dy),
       scrollAccumulator := p.scrollAccumulator + dy,
       twoFingerLastY := y)
  }

  /** The two draining loops: one scroll-up per whole unit below `-s`, then one scroll-down per unit above `s`. */
  function DrainScroll(p: Pad, env: Env): Pad
    requires WellFormed(env)
  {
    var d := Scroll.Drain(p.scrollAccumulator, env.card.settings.scrollSensitivity);
    HandleTimes(HandleTimes(p, env, ScrollUp, d.ups), env, ScrollDown, d.downs).(scrollAccumulator := d.rest)
  }

  /** The single-finger branch of `_move`, past its guard, for a contact at `at`. */
  function PointerMove(p: Pad, env: Env, at: Point, now: int): Pad
    requires p.track.Some?
  {
    var tr := p.track.value;
    if at.x - tr.last.x == 0.0 && at.y - tr.last.y == 0.0 then p
    else FollowPointer(CrossThreshold(p, env, at), env, at, now)
  }

  /** Beyond the movement threshold the session has moved and the long-press timer is cleared. */
  function CrossThreshold(p: Pad, env: Env, at: Point): (q: Pad)
    requires p.track.Some?
    ensures q.track == p.track
  {
    var tr := p.track.value;
    if Beyond(at.x - tr.start.x, at.y - tr.start.y, env.card.settings.movementThreshold)
    then p.(hasMoved := true, longPressArmed := false)
    else p
  }

  /** Once moved, the pointer follows: the scaled delta is sent and the watchdog re-armed if the button is held. */
  function FollowPointer(p: Pad, env: Env, at: Point, now: int): Pad
    requires p.track.Some?
  {
    if !p.hasMoved then p
    else
      var tr := p.track.value;
      var dt := TimeDelta(now, p.lastMoveTime);
      var scaled := env.scale(at.x - tr.last.x, at.y - tr.last.y, dt);
      var p2 := p.(track := Some(tr.(last := at)), lastMoveTime := now,
                   log := p.log + [CursorDelta(scaled.0, scaled.1)]);
      if p2.isMouseDown then ResetInactivity(p2) else p2
  }

  /** `_move` */
  function Move(p: Pad, env: Env, c: Contact, now: int): Pad
    requires WellFormed(env)
  {
    if p.isTwoFingerDrag && c.TwoFingers() then ScrollMove(p, env, c.MidY())
    else if !p.isDragging || p.track.None? || !p.hass then p
    else PointerMove(p, env, c.Primary(), now)
  }

  /** `_end`: the long-press timer is cleared, then the lift is interpreted. */
  function End(p: Pad, env: Env): Pad {
    Lift(p.(longPressArmed := false), env)
  }

  /** The branches of `_end`, in the order the card tests them. */
  function Lift(p: Pad, env: Env): Pad {
    if p.isTwoFingerTap then
      var p1 := if !p.hasMoved then Handle(p, env, RightClick) else p;
      Cancel(p1.(isTwoFingerTap := false, isTwoFingerDrag := false))
    else if p.isMouseDown && !p.hasMoved then
      Cancel(ReleaseDrag(p, env))
    else if p.isLongPress then
      if !p.isMouseDown then Cancel(p)
      else p.(isDragging := false, track := None, hasMoved := false, isLongPress := false)
    else
      var p1 := if p.isDragging && !p.hasMoved then Handle(p, env, Tap) else p;
      Cancel(p1)
  }

  // ---------------------------------------------------------------- timers

  /** A long-press callback runs: the tracked one, or one whose handle was overwritten (`stale`). */
  function LongPressFires(p: Pad, env: Env, stale: bool): Pad
    requires if stale then p.staleLongPress > 0 else p.longPressArmed
  {
    LongPressCallback(if stale then p.(staleLongPress := p.staleLongPress - 1) else p.(longPressArmed := false), env)
  }

  /** The callback `_start` schedules: a session that is still open, has not moved and holds no button becomes a drag. */
  function LongPressCallback(p: Pad, env: Env): Pad {
    if p.isDragging && !p.hasMoved && !p.isMouseDown then StartDrag(p.(isLongPress := true), env)
    else p
  }

  /** The drag-inactivity callback runs. */
  function InactivityFires(p: Pad, env: Env): Pad
    requires p.inactivityArmed
  {
    var p0 := p.(inactivityArmed := false);
    if p0.isMouseDown then Cancel(ReleaseDrag(p0, env)) else p0
  }

  // ---------------------------------------------------------------- event adapters

  /** Whether a mouse down/up at `now` is the synthetic echo of a recent touch. */
  predicate Suppressed(now: int, lastTouchTime: int) {
    now - lastTouchTime < SUPPRESSION_WINDOW
  }

  function MouseDown(p: Pad, at: Point, now: int): Pad {
    if Suppressed(now, p.lastTouchTime) then p else Start(p, Mouse(at), now)
  }

  function MouseMove(p: Pad, env: Env, at: Point, now: int): Pad
    requires WellFormed(env)
  {
    if p.isDragging || p.isTwoFingerDrag then Move(p, env, Mouse(at), now) else p
  }

  function MouseUp(p: Pad, env: Env, now: int): Pad {
    if Suppressed(now, p.lastTouchTime) then p else End(p, env)
  }

  function TouchStart(p: Pad, first: Point, others: seq<Point>, now: int): Pad {
    Start(p.(lastTouchTime := now, isTouchDevice := true), Touch(first, others), now)
  }
}
