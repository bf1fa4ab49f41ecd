/**
 * What the gesture engine promises, proved about the handler functions of
 * module Engine: the invariant every handler keeps, how a two-finger move
 * drains the scroll accumulator, what a single-finger move may change, the
 * order in which a lift is decided, the stale-safety of the timer callbacks,
 * who may press and release the held button, and what cancelling does.
 */
module Laws {

  import opened Wrappers
  import opened Actions
  import opened Config
  import opened Engine
  import Scroll
  import Payload

  function Repeat(s: seq<Event>, n: nat): seq<Event>
  {
    if n == 0 then [] else Repeat(s, n - 1) + s
  }

  /** Calling a handler `n` times only appends `n` copies of its event. */
  lemma {:induction false} HandleTimesAppends(p: Pad, env: Env, g: Gesture, n: nat)
    ensures HandleTimes(p, env, g, n) == p.(log := p.log + Repeat(Tick(p.hass, env, g), n))
  {
    HandleTimesLog(p, env, g, n);
    HandleTimesFrame(p, env, g, n);
  }

  /** The log grows by `n` copies of the handler's event; hass is untouched. */
  lemma {:induction false} HandleTimesLog(p: Pad, env: Env, g: Gesture, n: nat)
    ensures HandleTimes(p, env, g, n).hass == p.hass
    ensures HandleTimes(p, env, g, n).log == p.log + Repeat(Tick(p.hass, env, g), n)
  {
    if n > 0 {
      HandleTimesLog(p, env, g, n - 1);
      var t := Tick(p.hass, env, g);
      var r := Repeat(t, n - 1);
      assert (p.log + r) + t == p.log + (r + t);
    }
  }

  /** Only the log differs between the pad before and after the handlers. */
  lemma {:induction false} HandleTimesFrame(p: Pad, env: Env, g: Gesture, n: nat)
    ensures HandleTimes(p, env, g, n) == p.(log := HandleTimes(p, env, g, n).log)
  {
    if n > 0 {
      HandleTimesFrame(p, env, g, n - 1);
    }
  }

  // ------------------------------------------------------------ the invariant

  lemma StartKeepsValid(p: Pad, env: Env, c: Contact, now: int)
    requires Valid(p, env)
    ensures Valid(Start(p, c, now), env)
  {
    if !c.TwoFingers() {
      var at := c.Primary();
      assert Start(p, c, now) == StartSession(p, at, now);
    }
  }

  lemma MoveKeepsValid(p: Pad, env: Env, c: Contact, now: int)
    requires Valid(p, env) && WellFormed(env)
    ensures Valid(Move(p, env, c, now), env)
  {
    if p.isTwoFingerDrag && c.TwoFingers() {
      assert Move(p, env, c, now) == ScrollMove(p, env, c.MidY());
      ScrollMoveAppends(p, env, c.MidY());
    } else if p.isDragging && p.track.Some? && p.hass {
      assert Move(p, env, c, now) == PointerMove(p, env, c.Primary(), now);
      PointerMoveKeepsValid(p, env, c.Primary(), now);
    }
  }

  lemma PointerMoveKeepsValid(p: Pad, env: Env, at: Point, now: int)
    requires Valid(p, env) && p.track.Some?
    ensures Valid(PointerMove(p, env, at, now), env)
  {
    var p1 := CrossThreshold(p, env, at);
    assert Valid(p1, env);
  }

  lemma EndKeepsValid(p: Pad, env: Env)
    requires Valid(p, env)
    ensures Valid(End(p, env), env)
  {
  }

  lemma CancelKeepsValid(p: Pad, env: Env)
    requires Valid(p, env)
    ensures Valid(Cancel(p), env)
  {
  }

  lemma LongPressKeepsValid(p: Pad, env: Env, stale: bool)
    requires Valid(p, env)
    requires if stale then p.staleLongPress > 0 else p.longPressArmed
    ensures Valid(LongPressFires(p, env, stale), env)
  {
  }

  lemma InactivityKeepsValid(p: Pad, env: Env)
    requires Valid(p, env) && p.inactivityArmed
    ensures Valid(InactivityFires(p, env), env)
  {
  }

  // ------------------------------------------------------------ two-finger scrolling

  /**
   * A two-finger move during a two-finger gesture: the average Y becomes the
   * reference, travel of more than 2 px latches `hasMoved`, the accumulator
   * keeps what the drain leaves (within one sensitivity of zero, every
   * removed unit accounted for as a tick), only one of the two loops emits,
   * and nothing else changes.
   */
  lemma TwoFingerMoveScrolls(p: Pad, env: Env, first: Point, second: Point, now: int)
    requires WellFormed(env) && p.isTwoFingerDrag
    ensures
      var c := Touch(first, [second]);
      var q := Move(p, env, c, now);
      var s := env.card.settings.scrollSensitivity;
      var dy := c.MidY() - p.twoFingerLastY;
      var d := Scroll.Drain(p.scrollAccumulator + dy, s);
      && q == p.(hasMoved := p.hasMoved || Latches(dy),
                 twoFingerLastY := c.MidY(),
                 scrollAccumulator := d.rest,
                 log := p.log + Repeat(Tick(p.hass, env, ScrollUp), d.ups) + Repeat(Tick(p.hass, env, ScrollDown), d.downs))
      && -s <= q.scrollAccumulator <= s
      && p.scrollAccumulator + dy == q.scrollAccumulator + (d.downs as real - d.ups as real) * s
      && (d.ups == 0 || d.downs == 0)
  {
    var c := Touch(first, [second]);
    var s := env.card.settings.scrollSensitivity;
    var dy := c.MidY() - p.twoFingerLastY;
    assert Move(p, env, c, now) == ScrollMove(p, env, c.MidY());
    ScrollMoveAppends(p, env, c.MidY());
    Scroll.DrainSpec(p.scrollAccumulator + dy, s);
  }

  /** The two-finger branch as a single update: ticks appended, accumulator drained. */
  lemma ScrollMoveAppends(p: Pad, env: Env, y: real)
    requires WellFormed(env)
    ensures
      var dy := y - p.twoFingerLastY;
      var d := Scroll.Drain(p.scrollAccumulator + dy, env.card.settings.scrollSensitivity);
      ScrollMove(p, env, y) ==
        p.(hasMoved := p.hasMoved || Latches(dy),
           twoFingerLastY := y,
           scrollAccumulator := d.rest,
           log := p.log + Repeat(Tick(p.hass, env, ScrollUp), d.ups) + Repeat(Tick(p.hass, env, ScrollDown), d.downs))
  {
    var dy := y - p.twoFingerLastY;
    var p1 := p.(hasMoved := p.hasMoved || Latches(dy),
                 scrollAccumulator := p.scrollAccumulator + dy,
                 twoFingerLastY := y);
    var d := Scroll.Drain(p1.scrollAccumulator, env.card.settings.scrollSensitivity);
    UpsThenDowns(p1, env, d.ups, d.downs, d.rest);
  }

  /** Scroll-up ticks followed by scroll-down ticks, then the accumulator set. */
  lemma UpsThenDowns(p: Pad, env: Env, ups: nat, downs: nat, rest: real)
    ensures HandleTimes(HandleTimes(p, env, ScrollUp, ups), env, ScrollDown, downs).(scrollAccumulator := rest) ==
      p.(scrollAccumulator := rest,
         log := p.log + Repeat(Tick(p.hass, env, ScrollUp), ups) + Repeat(Tick(p.hass, env, ScrollDown), downs))
  {
    HandleTimesAppends(p, env, ScrollUp, ups);
    var p2 := HandleTimes(p, env, ScrollUp, ups);
    HandleTimesAppends(p2, env, ScrollDown, downs);
  }

  // ------------------------------------------------------------ single-finger moves

  /**
   * `Math.sqrt(dx*dx + dy*dy) > threshold` is decided exactly by Beyond, for
   * any non-negative square root of the squared distance.
   */
  lemma BeyondIsDistance(dx: real, dy: real, threshold: real, distance: real)
    requires distance >= 0.0 && distance * distance == dx * dx + dy * dy
    ensures Beyond(dx, dy, threshold) <==> distance > threshold
  {
    if threshold >= 0.0 {
      if distance > threshold {
        SquareGrows(threshold, distance);
      } else {
        SquareGrows(distance, threshold);
      }
    }
  }

  /** Squaring is monotone on non-negative numbers. */
  lemma SquareGrows(a: real, b: real)
    requires 0.0 <= a
    ensures a < b ==> a * a < b * b
    ensures a <= b ==> a * a <= b * b
  {
    if a < b {
      var e := b - a;
      assert b * b == a * a + 2.0 * a * e + e * e;
      assert a * e >= 0.0;
      assert e * e > 0.0;
    }
  }

  /** A single-finger move that the guard turns away, or that did not move, changes nothing. */
  lemma MoveIgnored(p: Pad, env: Env, c: Contact, now: int)
    requires WellFormed(env)
    requires !(p.isTwoFingerDrag && c.TwoFingers())
    requires !p.isDragging || p.track.None? || !p.hass || c.Primary() == p.track.value.last
    ensures Move(p, env, c, now) == p
  {
  }

  /**
   * A single-finger move that passes the guard and changes position:
   * crossing the threshold latches `hasMoved` and disarms the long-press
   * timer; until `hasMoved` holds nothing changes at all; once it holds the
   * reference point and time advance to this sample and exactly one cursor
   * delta is sent, scaled over a time delta of at least 1 ms, and the
   * watchdog is re-armed if the drag is held. The held button and the
   * two-finger flags are never touched.
   */
  lemma PointerMoveSpec(p: Pad, env: Env, at: Point, now: int)
    requires p.track.Some? && at != p.track.value.last
    ensures
      var q := PointerMove(p, env, at, now);
      var tr := p.track.value;
      var crossed := Beyond(at.x - tr.start.x, at.y - tr.start.y, env.card.settings.movementThreshold);
      && q.hasMoved == (p.hasMoved || crossed)
      && (crossed ==> !q.longPressArmed)
      && (!q.hasMoved ==> q == p)
      && q.isMouseDown == p.isMouseDown
      && q.isTwoFingerTap == p.isTwoFingerTap && q.isTwoFingerDrag == p.isTwoFingerDrag
      && q.isDragging == p.isDragging && q.isLongPress == p.isLongPress
  {
    var p1 := PointerMoveStages(p, env, at, now);
    FollowPointerFacts(p1, env, at, now);
  }

  /** Once moved, a position change sends exactly one scaled delta and advances the reference point and time. */
  lemma PointerMoveSends(p: Pad, env: Env, at: Point, now: int)
    requires p.track.Some? && at != p.track.value.last
    ensures
      var q := PointerMove(p, env, at, now);
      var tr := p.track.value;
      var dt := TimeDelta(now, p.lastMoveTime);
      q.hasMoved ==>
        && dt >= 1
        && q.track == Some(Track(tr.start, at))
        && q.lastMoveTime == now
        && q.log == p.log + [CursorDelta(env.scale(at.x - tr.last.x, at.y - tr.last.y, dt).0,
                                         env.scale(at.x - tr.last.x, at.y - tr.last.y, dt).1)]
        && q.inactivityArmed == (p.inactivityArmed || p.isMouseDown)
  {
    var p1 := PointerMoveStages(p, env, at, now);
    FollowPointerFacts(p1, env, at, now);
  }

  /** A position change is the threshold test followed by following the pointer. */
  lemma PointerMoveStages(p: Pad, env: Env, at: Point, now: int) returns (p1: Pad)
    requires p.track.Some? && at != p.track.value.last
    ensures
      var tr := p.track.value;
      var crossed := Beyond(at.x - tr.start.x, at.y - tr.start.y, env.card.settings.movementThreshold);
      && p1 == p.(hasMoved := p.hasMoved || crossed, longPressArmed := p.longPressArmed && !crossed)
      && PointerMove(p, env, at, now) == FollowPointer(p1, env, at, now)
  {
    var tr := p.track.value;
    assert at.x != tr.last.x || at.y != tr.last.y by {
      assert at == Point(at.x, at.y) && tr.last == Point(tr.last.x, tr.last.y);
    }
    p1 := CrossThreshold(p, env, at);
    CrossThresholdFacts(p, env, at);
  }

  /** Crossing the threshold latches `hasMoved` and disarms the long-press timer; nothing else changes. */
  lemma CrossThresholdFacts(p: Pad, env: Env, at: Point)
    requires p.track.Some?
    ensures
      var tr := p.track.value;
      var crossed := Beyond(at.x - tr.start.x, at.y - tr.start.y, env.card.settings.movementThreshold);
      CrossThreshold(p, env, at) == p.(hasMoved := p.hasMoved || crossed, longPressArmed := p.longPressArmed && !crossed)
  {
  }

  /** A single-finger move past the guard is the pointer branch, taken at the contact's primary point. */
  lemma SingleFingerMove(p: Pad, env: Env, c: Contact, now: int)
    requires WellFormed(env)
    requires !(p.isTwoFingerDrag && c.TwoFingers())
    requires p.isDragging && p.track.Some? && p.hass
    ensures Move(p, env, c, now) == PointerMove(p, env, c.Primary(), now)
  {
  }

  /** What following the pointer changes: nothing before the threshold is crossed, the track, the clock, the log and the watchdog after. */
  lemma FollowPointerFacts(p: Pad, env: Env, at: Point, now: int)
    requires p.track.Some?
    ensures
      var q := FollowPointer(p, env, at, now);
      var tr := p.track.value;
      var dt := TimeDelta(now, p.lastMoveTime);
      && (!p.hasMoved ==> q == p)
      && (p.hasMoved ==>
            && q.track == Some(Track(tr.start, at))
            && q.lastMoveTime == now
            && q.log == p.log + [CursorDelta(env.scale(at.x - tr.last.x, at.y - tr.last.y, dt).0,
                                             env.scale(at.x - tr.last.x, at.y - tr.last.y, dt).1)]
            && q.inactivityArmed == (p.inactivityArmed || p.isMouseDown))
      && q.hasMoved == p.hasMoved && q.longPressArmed == p.longPressArmed
      && q.isMouseDown == p.isMouseDown
      && q.isTwoFingerTap == p.isTwoFingerTap && q.isTwoFingerDrag == p.isTwoFingerDrag
      && q.isDragging == p.isDragging && q.isLongPress == p.isLongPress
  {
  }

  // ------------------------------------------------------------ lifting

  /**
   * A lift always disarms the long-press timer and is decided in order:
   * a two-finger gesture (right click unless it moved), a held drag that did
   * not move (released), a long press (nothing sent), otherwise a tap exactly
   * when the single-finger session never crossed the threshold. Afterwards
   * no session is open.
   */
  lemma EndDecides(p: Pad, env: Env)
    requires Valid(p, env)
    ensures
      var q := End(p, env);
      && !q.longPressArmed
      && !q.isDragging && q.track.None? && !q.hasMoved && !q.isLongPress
      && !q.isTwoFingerTap && !q.isTwoFingerDrag
      && (p.isTwoFingerTap ==>
            q.log == p.log + (if !p.hasMoved then Tick(p.hass, env, RightClick) else []))
      && (!p.isTwoFingerTap && p.isMouseDown && !p.hasMoved ==>
            q.log == p.log + Tick(p.hass, env, DragEnd) && (q.isMouseDown <==> Tick(p.hass, env, DragEnd) == []))
      && (!p.isTwoFingerTap && !(p.isMouseDown && !p.hasMoved) && p.isLongPress ==>
            q.log == p.log && q.isMouseDown == p.isMouseDown)
      && (!p.isTwoFingerTap && !(p.isMouseDown && !p.hasMoved) && !p.isLongPress ==>
            q.log == p.log + (if p.isDragging && !p.hasMoved then Tick(p.hass, env, Tap) else []))
  {
    var p0 := p.(longPressArmed := false);
    assert End(p, env) == Lift(p0, env);
    if p.isTwoFingerTap {
    } else if p.isMouseDown && !p.hasMoved {
      assert Lift(p0, env) == Cancel(ReleaseDrag(p0, env));
    } else if p.isLongPress {
    } else {
    }
  }

  /** Once the movement threshold was crossed, a lift sends nothing: no tap, no right click, no release. */
  lemma NoTapAfterMove(p: Pad, env: Env)
    requires p.hasMoved
    ensures End(p, env).log == p.log
  {
  }

  /**
   * A two-finger lift sends exactly one right click when the fingers never
   * travelled more than 2 px in one move (and the slot and hass exist), none
   * otherwise, and clears both two-finger flags.
   */
  lemma TwoFingerLift(p: Pad, env: Env)
    requires p.isTwoFingerTap
    ensures
      var q := End(p, env);
      && |q.log| == |p.log| + (if !p.hasMoved && env.card.slots.rightClick.Some? && p.hass then 1 else 0)
      && q.log[..|p.log|] == p.log
      && (forall i :: |p.log| <= i < |q.log| ==> q.log[i].Fired? && q.log[i].gesture == RightClick)
      && !q.isTwoFingerTap && !q.isTwoFingerDrag
  {
  }

  /**
   * Long press, then a move, then a lift leaves the button held: the session
   * is closed but the watchdog keeps running and nothing is sent.
   */
  lemma LongPressMoveLiftKeepsHeld(p: Pad, env: Env)
    requires !p.isTwoFingerTap && p.isLongPress && p.isMouseDown && p.hasMoved
    ensures
      var q := End(p, env);
      && q.isMouseDown && q.inactivityArmed == p.inactivityArmed && q.log == p.log
      && !q.isDragging && q.track.None? && !q.isLongPress
  {
  }

  // ------------------------------------------------------------ timers

  /**
   * The long-press callback is stale-safe: it enters drag mode only for an
   * open single-finger session that has not moved and whose button is not
   * already held; in any other state it only retires itself.
   */
  lemma LongPressStaleSafe(p: Pad, env: Env, stale: bool)
    requires if stale then p.staleLongPress > 0 else p.longPressArmed
    ensures
      var q := LongPressFires(p, env, stale);
      var live := p.isDragging && !p.hasMoved && !p.isMouseDown;
      var retired := if stale then p.(staleLongPress := p.staleLongPress - 1) else p.(longPressArmed := false);
      && (!live ==> q == retired)
      && (live ==> q.isLongPress
                   && (q.isMouseDown <==> env.card.slots.dragStart.Some? && p.hass)
                   && (q.isMouseDown ==> q.inactivityArmed && q.log == p.log + Tick(p.hass, env, DragStart))
                   && (!q.isMouseDown ==> q == retired.(isLongPress := true)))
  {
  }

  /**
   * The inactivity callback releases and cancels only while the button is
   * held; otherwise it only retires itself. On a valid pad the watchdog is
   * armed only while the button is held, so it always releases when a
   * drag-end action and hass exist.
   */
  lemma InactivityStaleSafe(p: Pad, env: Env)
    requires p.inactivityArmed
    ensures
      var q := InactivityFires(p, env);
      && (!p.isMouseDown ==> q == p.(inactivityArmed := false))
      && (p.isMouseDown ==> q == Cancel(ReleaseDrag(p.(inactivityArmed := false), env)))
      && (Valid(p, env) ==>
            !q.inactivityArmed && q.log == p.log + Tick(p.hass, env, DragEnd) &&
            (q.isMouseDown <==> Tick(p.hass, env, DragEnd) == []))
  {
  }

  // ------------------------------------------------------------ the held button

  /** Contact-down, move and cancel never press or release the held button. */
  lemma SessionLeavesButtonAlone(p: Pad, env: Env, c: Contact, now: int)
    requires WellFormed(env)
    ensures Start(p, c, now).isMouseDown == p.isMouseDown
    ensures Move(p, env, c, now).isMouseDown == p.isMouseDown
    ensures Cancel(p).isMouseDown == p.isMouseDown
  {
    MoveKeepsButton(p, env, c, now);
  }

  lemma MoveKeepsButton(p: Pad, env: Env, c: Contact, now: int)
    requires WellFormed(env)
    ensures Move(p, env, c, now).isMouseDown == p.isMouseDown
  {
    if p.isTwoFingerDrag && c.TwoFingers() {
      ScrollMoveAppends(p, env, c.MidY());
    } else if p.isDragging && p.track.Some? && p.hass {
      PointerMoveKeepsButton(p, env, c.Primary(), now);
    }
  }

  lemma PointerMoveKeepsButton(p: Pad, env: Env, at: Point, now: int)
    requires p.track.Some?
    ensures PointerMove(p, env, at, now).isMouseDown == p.isMouseDown
  {
    if at != p.track.value.last {
      PointerMoveSpec(p, env, at, now);
    }
  }

  /** Only the long-press callback presses the button, and only with a drag-start action and hass. */
  lemma OnlyLongPressPresses(p: Pad, env: Env, stale: bool)
    requires if stale then p.staleLongPress > 0 else p.longPressArmed
    ensures var q := LongPressFires(p, env, stale);
      q.isMouseDown != p.isMouseDown ==> !p.isMouseDown && env.card.slots.dragStart.Some? && p.hass
  {
  }

  /** A lift or the watchdog releases the button only with a drag-end action and hass. */
  lemma OnlyDragEndReleases(p: Pad, env: Env)
    ensures End(p, env).isMouseDown != p.isMouseDown ==>
      p.isMouseDown && env.card.slots.dragEnd.Some? && p.hass
    ensures p.inactivityArmed ==>
      (InactivityFires(p, env).isMouseDown != p.isMouseDown ==>
        p.isMouseDown && env.card.slots.dragEnd.Some? && p.hass)
  {
  }

  // ------------------------------------------------------------ cancelling

  /**
   * Cancelling closes the session, disarms the long-press timer, disarms the
   * watchdog only when the button is not held, sends nothing, leaves the
   * button and the two-finger tap flag as they were, and is idempotent.
   */
  lemma CancelResets(p: Pad)
    ensures
      var q := Cancel(p);
      && !q.isDragging && !q.isTwoFingerDrag && !q.hasMoved && !q.isLongPress
      && q.track.None? && !q.longPressArmed
      && q.inactivityArmed == (p.isMouseDown && p.inactivityArmed)
      && q.isMouseDown == p.isMouseDown && q.isTwoFingerTap == p.isTwoFingerTap
      && q.log == p.log
      && Cancel(q) == q
  {
  }

  // ------------------------------------------------------------ contact-down

  /**
   * A two-finger contact-down only prepares scrolling: the single-finger
   * session, `hasMoved`, the timers and the held button are left as they were.
   * A single-finger contact-down opens a fresh session and arms the long-press
   * timer; an earlier armed callback is not cleared but becomes stale, and a
   * held button is not released.
   */
  lemma StartOpensSession(p: Pad, c: Contact, now: int)
    ensures
      var q := Start(p, c, now);
      && (c.TwoFingers() ==>
            q == p.(isTwoFingerTap := true, isTwoFingerDrag := true,
                    twoFingerLastY := c.MidY(), scrollAccumulator := 0.0))
      && (!c.TwoFingers() ==>
            && !q.isTwoFingerTap && !q.isTwoFingerDrag
            && q.isDragging && !q.hasMoved && !q.isLongPress
            && q.track == Some(Track(c.Primary(), c.Primary()))
            && q.lastMoveTime == now && q.longPressArmed
            && q.staleLongPress == p.staleLongPress + (if p.longPressArmed then 1 else 0)
            && q.isMouseDown == p.isMouseDown && q.inactivityArmed == p.inactivityArmed
            && q.log == p.log)
  {
  }

  // ------------------------------------------------------------ outgoing calls

  /**
   * A cursor delta is a `set_value` call on the coordinate entity, in the
   * domain named by the entity's first piece, whose value a reader parses
   * back to exactly the delta sent.
   */
  lemma CursorDeltaCall(env: Env, dx: int, dy: int)
    ensures var c := Effect(env, CursorDelta(dx, dy));
      && c.SetValue?
      && c.entityId == env.card.coordEntity
      && c.domain == Segments(env.card.coordEntity)[0]
      && '.' !in c.domain && c.domain <= env.card.coordEntity
      && Payload.ParseCoords(c.value) == Some((dx, dy))
  {
    Payload.CoordsRoundTrip(dx, dy);
    DomainServiceOf(env.card.coordEntity);
  }

  /** The call a gesture handler makes runs the branch `_executeAction` picks for that slot's action. */
  lemma TickCall(hass: bool, env: Env, g: Gesture)
    ensures forall e :: e in Tick(hass, env, g) ==>
      env.card.slots.For(g).Some? && hass &&
      Effect(env, e) == Executed(g, Classify(env.card.slots.For(g).value))
  {
  }

  // ------------------------------------------------------------ event adapters

  /** A mouse down or up within 500 ms after a touch start is the browser's synthetic echo and is ignored. */
  lemma SyntheticMouseIgnored(p: Pad, env: Env, first: Point, others: seq<Point>, t: int, at: Point, t': int)
    requires t <= t' < t + SUPPRESSION_WINDOW
    ensures var q := TouchStart(p, first, others, t);
      MouseDown(q, at, t') == q && MouseUp(q, env, t') == q
  {
    var q := TouchStart(p, first, others, t);
    TouchStartStamps(p, first, others, t);
    SuppressedIgnored(q, env, at, t');
  }

  lemma TouchStartStamps(p: Pad, first: Point, others: seq<Point>, t: int)
    ensures TouchStart(p, first, others, t).lastTouchTime == t
  {
  }

  lemma SuppressedIgnored(q: Pad, env: Env, at: Point, now: int)
    requires Suppressed(now, q.lastTouchTime)
    ensures MouseDown(q, at, now) == q && MouseUp(q, env, now) == q
  {
  }

  /** Mouse events outside that window are handled like any other contact. */
  lemma RealMouseHandled(p: Pad, env: Env, at: Point, now: int)
    requires now - p.lastTouchTime >= SUPPRESSION_WINDOW
    ensures MouseDown(p, at, now) == Start(p, Mouse(at), now)
    ensures MouseUp(p, env, now) == End(p, env)
  {
  }
}
