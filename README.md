# LnxLink touchpad card — verified model of the gesture engine

The LnxLink touchpad card is a dashboard card that turns mouse and touch
input into remote-mouse commands for a LnxLink client. This project models
its gesture engine: the `LnxlinkTouchpad` class of
`dist/lnxlink-touchpad-card.js`. The engine reads pointer and touch samples.
It sends out two kinds of calls:

- cursor deltas, written as a signed `"<x>,<y>"` string to the coordinate
  entity;
- the configured tap, right-click, scroll-up, scroll-down, drag-start and
  drag-end actions.

Layout, one module per file:

| file | module | what it holds |
|---|---|---|
| `wrappers.dfy` | `Wrappers` | `Option` |
| `config.dfy` | `Config` | `setConfig`'s `||` defaulting and the coordinate-entity check |
| `actions.dfy` | `Actions` | `String.split(".")`, the action descriptor, and the branch `_executeAction` takes |
| `payload.dfy` | `Payload` | how JavaScript renders the signed integer components of the cursor value, with a parser as its inverse |
| `scroll.dfy` | `Scroll` | the two scroll-draining `while` loops as functions on the accumulator |
| `engine.dfy` | `Engine` | the card's state `Pad` (every instance field plus the log of outgoing calls) and one function per handler, giving its exact effect |
| `laws.dfy` | `Laws` | what the handlers promise, proved about those functions |
| `touchpad.dfy` | `Touchpad` | class `LnxlinkTouchpad` |

The class `LnxlinkTouchpad` has the card's fields and one method per
handler. Each method updates the fields in place, as the card does. Each
method is proved to leave `Model()` (the fields as a `Pad`) equal to the
`Engine` function of the old state. So every law in `Laws` holds of the
object as well.

The DOM event adapters, the two timer callbacks and the `hass` setter also
preserve the object invariant `Engine.Valid`:

- a contact track exists exactly while dragging;
- a long press belongs to such a drag;
- the inactivity watchdog runs only while the button is held;
- the button can be held only if a drag-start action exists.

Timers are modelled by what is scheduled:

- `longPressArmed` is the callback that `_longPressTimer` holds.
- `staleLongPress` counts long-press callbacks whose handle was overwritten
  by a later `_start` without being cleared. Each of these still runs.
- `inactivityArmed` is the drag-inactivity callback.

The host decides when a callback runs. The model lets it run at any point,
through `LongPressFires(stale)` and `InactivityFires`. `Date.now()` is a
`now` parameter.

## Model

| member | source | states |
|---|---|---|
| Config.Or | dist/lnxlink-touchpad-card.js:30-46 | `value || fallback` for a number: the configured value unless it is absent or 0, in which case the default |
| Config.LoadGuarantees | dist/lnxlink-touchpad-card.js:8-46 | a touchpad exists exactly when `coord_entity` is truthy; no tunable is ever 0; a missing scroll sensitivity becomes 20; a positive configured one is kept; the action slots are kept as written |
| Config.ScrollSensitivityPositive | dist/lnxlink-touchpad-card.js:46 | only a negative configured `scroll_sensitivity` can leave the sensitivity non-positive |
| Payload.Decimal | dist/lnxlink-touchpad-card.js:247-248 | a non-negative integer renders as at least one decimal digit, without a leading zero |
| Payload.DecimalRoundTrip | dist/lnxlink-touchpad-card.js:247-248 | the digits read back to the number rendered |
| Payload.Signed | dist/lnxlink-touchpad-card.js:247-248 | each component starts with exactly one sign followed by digits; the sign is `+` exactly when the delta is >= 0, zero included; no comma |
| Payload.SignedRoundTrip | dist/lnxlink-touchpad-card.js:247-248 | a signed component parses back to its delta |
| Payload.CoordsRoundTrip | dist/lnxlink-touchpad-card.js:247-258 | the `"<x>,<y>"` value parses back to exactly the pair `(dx, dy)` |
| Payload.CoordsInjective | dist/lnxlink-touchpad-card.js:258 | distinct deltas never produce the same value |
| Actions.Segments | dist/lnxlink-touchpad-card.js:430 | `split(".")` yields at least one piece and no piece contains a dot |
| Actions.JoinSegments | dist/lnxlink-touchpad-card.js:430 | joining the pieces with dots gives back the string |
| Actions.SegmentsSplitAtDot | dist/lnxlink-touchpad-card.js:430 | a string splits into more than one piece exactly when it contains a dot |
| Actions.DomainServiceOf | dist/lnxlink-touchpad-card.js:430-434 | `[domain, service] = s.split(".")`: the domain has no dot and prefixes `s`; a service exists exactly when `s` has a dot; the service is then the whole piece after the first dot, so `s` is `domain.service` or starts with `domain.service.` |
| Actions.Classify | dist/lnxlink-touchpad-card.js:428-453 | an action without a truthy `action` field is handed to the host as a `hass-action` event |
| Actions.ShorthandCallsNamedService | dist/lnxlink-touchpad-card.js:429-437 | a dotted action string is always the shorthand service call, with the domain and service its `split(".")` yields; the service is the whole second piece (`s` is `domain.service` or starts with `domain.service.`) |
| Actions.PathBranches | dist/lnxlink-touchpad-card.js:429-442 | `call-service` with a service calls the service it names; `navigate` with a path navigates to it; `url` with a path opens it; any of the three without its field falls through to the host event |
| Actions.OtherActionsGoToHost | dist/lnxlink-touchpad-card.js:428-453 | a truthy action with no dot that is none of `call-service`, `navigate`, `url` or `toggle` (`"none"`, say) is handed to the host as a `hass-action` event |
| Actions.ToggleTarget | dist/lnxlink-touchpad-card.js:443-448 | `toggle` prefers `entity` over `entity_id`, toggles in the domain that prefixes the chosen id, and does nothing without either |
| Scroll.UpStep | dist/lnxlink-touchpad-card.js:196-200 | each pass of the scroll-up loop lowers its measure by one, which makes the loop terminate |
| Scroll.DownStep | dist/lnxlink-touchpad-card.js:202-206 | the same for the scroll-down loop |
| Scroll.DrainUpFacts | dist/lnxlink-touchpad-card.js:196-200 | the up-loop accounts for every unit it adds, leaves `-s <= acc < 0` after running, and runs only below `-s` |
| Scroll.DrainDownFacts | dist/lnxlink-touchpad-card.js:202-206 | the down-loop accounts for every unit it removes, leaves `0 < acc <= s` after running, and runs only above `s` |
| Scroll.DrainSpec | dist/lnxlink-touchpad-card.js:187-206 | after draining, `-s <= acc <= s` and `acc_before == acc_after + (downs - ups) * s`; at most one loop emits; each loop runs exactly when the accumulator is beyond its bound; the sign is kept |
| Scroll.DownTicksCount | dist/lnxlink-touchpad-card.js:202-206 | the number of scroll-down ticks `n` satisfies `n < acc/s <= n + 1` |
| Scroll.UpTicksCount | dist/lnxlink-touchpad-card.js:196-200 | the same bound for scroll-up ticks: `n < -acc/s <= n + 1` |
| Scroll.ExactMultipleKeepsUnit | dist/lnxlink-touchpad-card.js:202-206 | an accumulator of exactly `2s` yields one tick and keeps a full unit `s` |
| Engine.Tick | dist/lnxlink-touchpad-card.js:349-373 | a gesture handler makes one action call exactly when its slot is configured and hass is present, otherwise none; that call runs the slot's configured action |
| Engine.TimeDelta | dist/lnxlink-touchpad-card.js:215 | `Math.max(now - lastMoveTime, 1)`: at least 1, at least the elapsed time, and one of the two |
| Laws.HandleTimesAppends | dist/lnxlink-touchpad-card.js:196-206 | calling one handler `n` times appends `n` copies of its call and changes nothing else |
| Laws.UpsThenDowns | dist/lnxlink-touchpad-card.js:196-206 | scroll-up ticks, then scroll-down ticks, then the accumulator store, as a single update |
| Laws.ScrollMoveAppends | dist/lnxlink-touchpad-card.js:178-207 | the two-finger branch of `_move` as a single update: the midpoint becomes the reference, a travel over 2 px latches `hasMoved`, the ticks are appended and the accumulator is drained |
| Laws.TwoFingerMoveScrolls | dist/lnxlink-touchpad-card.js:178-207 | a two-finger move during a two-finger gesture changes only the moved flag, the reference Y, the accumulator and the log; the accumulator ends within `[-s, s]` with every unit accounted for; only one loop emits |
| Laws.BeyondIsDistance | dist/lnxlink-touchpad-card.js:222-226 | the squared comparison decides `Math.sqrt(dx*dx + dy*dy) > threshold` exactly, the strict inequality included |
| Laws.MoveIgnored | dist/lnxlink-touchpad-card.js:211-220 | a single-finger move that is turned away (not dragging, no start point, no hass) or whose displacement is zero changes nothing |
| Laws.SingleFingerMove | dist/lnxlink-touchpad-card.js:209-213 | a move past the guard takes the pointer branch at the primary contact point |
| Laws.PointerMoveSpec | dist/lnxlink-touchpad-card.js:217-266 | for a non-zero displacement: `hasMoved` after equals `hasMoved` before or a strict threshold crossing; a crossing disarms the long-press timer; without `hasMoved` nothing changes; the button, two-finger flags, dragging and long-press flags are untouched |
| Laws.PointerMoveSends | dist/lnxlink-touchpad-card.js:235-266 | once moved, the last point and time advance to this sample, exactly one cursor delta is sent (scaled over a time delta >= 1) and the watchdog is re-armed exactly when the button is held |
| Laws.CrossThresholdFacts | dist/lnxlink-touchpad-card.js:222-233 | the threshold test changes only `hasMoved` (latched on a crossing) and the long-press timer (disarmed on a crossing) |
| Laws.FollowPointerFacts | dist/lnxlink-touchpad-card.js:235-266 | before the threshold nothing changes; after it the track, the clock, the log and the watchdog change as stated, and the flags do not |
| Laws.EndDecides | dist/lnxlink-touchpad-card.js:269-321 | a lift disarms the long-press timer and decides in source order: (1) two-finger: right click unless moved; (2) held and not moved: release; (3) long press: nothing sent and the button stays; (4) otherwise a tap exactly when dragging and not moved. On a valid pad no session stays open and both two-finger flags end false |
| Laws.NoTapAfterMove | dist/lnxlink-touchpad-card.js:269-321 | once the threshold was crossed, a lift sends nothing: no tap, no right click, no release |
| Laws.TwoFingerLift | dist/lnxlink-touchpad-card.js:276-286 | a two-finger lift appends exactly one right click if the gesture never moved (with the slot and hass present) and none otherwise; both two-finger flags end false |
| Laws.LongPressMoveLiftKeepsHeld | dist/lnxlink-touchpad-card.js:296-313 | long press, then a move, then a lift: the session closes but the button stays held, the watchdog keeps running and nothing is sent |
| Laws.LongPressStaleSafe | dist/lnxlink-touchpad-card.js:162-168 | the long-press callback enters drag mode only for an open, unmoved session with the button not held, and then presses the button exactly when a drag-start action and hass exist; otherwise it only retires itself |
| Laws.InactivityStaleSafe | dist/lnxlink-touchpad-card.js:400-408 | the inactivity callback releases and cancels only while the button is held, otherwise it only retires itself; on a valid pad it always sends the drag-end call when one is configured |
| Laws.SessionLeavesButtonAlone | dist/lnxlink-touchpad-card.js:137-174 | `_start`, `_move` and `_cancel` never change whether the button is held |
| Laws.MoveKeepsButton | dist/lnxlink-touchpad-card.js:176-267 | `_move` never changes whether the button is held |
| Laws.PointerMoveKeepsButton | dist/lnxlink-touchpad-card.js:209-267 | the single-finger branch never changes whether the button is held |
| Laws.OnlyLongPressPresses | dist/lnxlink-touchpad-card.js:385-387 | the long-press callback changes the button only by pressing it, and only with a drag-start action and hass |
| Laws.OnlyDragEndReleases | dist/lnxlink-touchpad-card.js:410-412 | a lift or the watchdog changes the button only by releasing it, and only with a drag-end action and hass |
| Laws.CancelResets | dist/lnxlink-touchpad-card.js:323-347 | cancelling clears the session, the positions and the long-press timer; it disarms the watchdog only when the button is not held; it sends nothing; it keeps the button and the two-finger tap flag; it is idempotent |
| Laws.StartOpensSession | dist/lnxlink-touchpad-card.js:137-168 | a two-finger start only prepares scrolling; a single-finger start clears both two-finger flags, opens a fresh session at the contact point and arms the long-press timer; an armed earlier callback becomes stale; a held button is not released |
| Laws.CursorDeltaCall | dist/lnxlink-touchpad-card.js:247-261 | a cursor delta is a `set_value` call on the coordinate entity, in the domain that is the entity's first `split(".")` piece, and its value parses back to exactly the delta sent |
| Laws.TickCall | dist/lnxlink-touchpad-card.js:349-373 | the call a gesture handler makes runs the `_executeAction` branch chosen for that slot's configured action |
| Laws.SyntheticMouseIgnored | dist/lnxlink-touchpad-card.js:92-121 | a mouse down or up within 500 ms after a touch start changes nothing |
| Laws.RealMouseHandled | dist/lnxlink-touchpad-card.js:92-116 | mouse down and up outside that window are `_start` and `_end` |
| Laws.StartKeepsValid | dist/lnxlink-touchpad-card.js:137-174 | `_start` preserves the invariant |
| Laws.MoveKeepsValid | dist/lnxlink-touchpad-card.js:176-267 | `_move` preserves the invariant |
| Laws.EndKeepsValid | dist/lnxlink-touchpad-card.js:269-321 | `_end` preserves the invariant |
| Laws.CancelKeepsValid | dist/lnxlink-touchpad-card.js:323-347 | `_cancel` preserves the invariant |
| Laws.LongPressKeepsValid | dist/lnxlink-touchpad-card.js:162-168 | the long-press callback preserves the invariant |
| Laws.InactivityKeepsValid | dist/lnxlink-touchpad-card.js:402-407 | the inactivity callback preserves the invariant |
| Touchpad.LnxlinkTouchpad.constructor | dist/lnxlink-touchpad-card.js:8-46 | `setConfig` with a coordinate entity: the card is the loaded configuration (`Config.Load`, with its `||` defaults), every field starts as the card initialises it, and the invariant holds |
| Touchpad.LnxlinkTouchpad.SetHass | dist/lnxlink-touchpad-card.js:4-6 | the `hass` setter changes only the hass field and keeps the invariant |
| Touchpad.LnxlinkTouchpad.HandleGesture | dist/lnxlink-touchpad-card.js:349-373 | the tap, right-click and scroll handlers append their action call when the slot and hass exist, and change nothing else |
| Touchpad.LnxlinkTouchpad.StartDrag | dist/lnxlink-touchpad-card.js:385-398 | `_startDrag` agrees with `Engine.StartDrag` |
| Touchpad.LnxlinkTouchpad.ResetDragInactivityTimer | dist/lnxlink-touchpad-card.js:400-408 | the watchdog is armed (replacing any earlier one) |
| Touchpad.LnxlinkTouchpad.ReleaseDrag | dist/lnxlink-touchpad-card.js:410-426 | `_releaseDrag` agrees with `Engine.ReleaseDrag` |
| Touchpad.LnxlinkTouchpad.Cancel | dist/lnxlink-touchpad-card.js:323-347 | `_cancel` agrees with `Engine.Cancel`, whose properties `Laws.CancelResets` states |
| Touchpad.LnxlinkTouchpad.Start | dist/lnxlink-touchpad-card.js:137-174 | `_start` agrees with `Engine.Start` and keeps the invariant |
| Touchpad.LnxlinkTouchpad.Move | dist/lnxlink-touchpad-card.js:176-267 | `_move` agrees with `Engine.Move` and keeps the invariant |
| Touchpad.LnxlinkTouchpad.DrainUp | dist/lnxlink-touchpad-card.js:196-200 | the scroll-up loop leaves the accumulator at `Scroll.DrainUp` and appends one scroll-up call per pass |
| Touchpad.LnxlinkTouchpad.DrainDown | dist/lnxlink-touchpad-card.js:202-206 | the scroll-down loop leaves the accumulator at `Scroll.DrainDown` and appends one scroll-down call per pass |
| Touchpad.LnxlinkTouchpad.DrainScroll | dist/lnxlink-touchpad-card.js:196-206 | the two loops together agree with `Engine.DrainScroll` |
| Touchpad.LnxlinkTouchpad.PointerMove | dist/lnxlink-touchpad-card.js:213-266 | the single-finger branch past its guard agrees with `Engine.PointerMove` |
| Touchpad.LnxlinkTouchpad.End | dist/lnxlink-touchpad-card.js:269-321 | `_end` agrees with `Engine.End` and keeps the invariant |
| Touchpad.LnxlinkTouchpad.LongPressFires | dist/lnxlink-touchpad-card.js:162-168 | a scheduled long-press callback (tracked or stale) agrees with `Engine.LongPressFires` and keeps the invariant |
| Touchpad.LnxlinkTouchpad.InactivityFires | dist/lnxlink-touchpad-card.js:402-407 | the watchdog callback agrees with `Engine.InactivityFires` and keeps the invariant |
| Touchpad.LnxlinkTouchpad.MouseDown | dist/lnxlink-touchpad-card.js:92-99 | the `mousedown` listener agrees with `Engine.MouseDown` and keeps the invariant |
| Touchpad.LnxlinkTouchpad.MouseMove | dist/lnxlink-touchpad-card.js:101-107 | the `mousemove` listener moves only while dragging or two-finger dragging |
| Touchpad.LnxlinkTouchpad.MouseUp | dist/lnxlink-touchpad-card.js:109-116 | the `mouseup` listener agrees with `Engine.MouseUp` and keeps the invariant |
| Touchpad.LnxlinkTouchpad.MouseLeave | dist/lnxlink-touchpad-card.js:118 | `mouseleave` is `_cancel` |
| Touchpad.LnxlinkTouchpad.TouchStart | dist/lnxlink-touchpad-card.js:120-124 | `touchstart` stamps the touch time, marks a touch device and starts |
| Touchpad.LnxlinkTouchpad.TouchMove | dist/lnxlink-touchpad-card.js:126-128 | `touchmove` is `_move` |
| Touchpad.LnxlinkTouchpad.TouchEnd | dist/lnxlink-touchpad-card.js:130-132 | `touchend` is `_end` |
| Touchpad.LnxlinkTouchpad.TouchCancel | dist/lnxlink-touchpad-card.js:134 | `touchcancel` is `_cancel` |

### Behaviour that may surprise

The model follows the code in each of these cases:

- **Contact-down with the button held.** `_start` does not look at
  `_isMouseDown`, so a new contact does not release a held drag. The
  release happens on the next lift without movement, at lines 289-293.
  `Laws.SessionLeavesButtonAlone` and `Laws.EndDecides` state this.
- **Scroll tick counts.** The loops at lines 196-206 compare strictly. An
  accumulator of exactly `k*s` therefore yields `k - 1` ticks and keeps one
  full unit. `Scroll.DownTicksCount`, `Scroll.UpTicksCount` and
  `Scroll.ExactMultipleKeepsUnit` state this.
- **Stale long-press callbacks.** `_start` overwrites `_longPressTimer`
  without clearing it, at line 162. The earlier callback still runs. If a
  new unmoved session is open by then, that callback starts drag mode
  early. `Laws.StartOpensSession` (the stale count) and
  `Laws.LongPressStaleSafe` (the callback's effect in any state) state this.
- **Cancel while the button is held.** This sends no drag-end and leaves the
  watchdog running (lines 329-332), as `Laws.CancelResets` states.

## Left out

- The velocity and acceleration scaling (lines 236-241) is left abstract. It
  uses `Math.sqrt`, floating-point division and `Math.round`. The model keeps
  it as the parameter `Env.scale` from `(dx, dy, timeDelta)` to an integer
  pair. The laws therefore say which scaled delta is sent, not its value.
- Coordinates, thresholds and the accumulator are `real`, not IEEE doubles.
  Rounding in `+=` and `/ 2` is not modelled.
- Payload.Decimal: JavaScript's exponent form for integers of magnitude
  `1e21` or more is not modelled. Such deltas would need a pointer speed far
  beyond any screen.
- DOM and feedback side effects are left out: markup, indicator and pad
  colours, `_flashIndicator`, `navigator.vibrate` and `console` output. They
  only render.
- Real timers are left out. `setTimeout`/`clearTimeout` timing, the
  long-press and inactivity durations, and `Date.now()` belong to the host.
  Callbacks run through explicit methods, and the time is a parameter.
- The effects of `_executeAction` are left out: `callService`,
  `history.pushState`, `window.open` and `dispatchEvent`. So are the
  `service_data`, `data` and `target` payloads. Only the branch taken and
  the strings it passes on are modelled (`Actions.Classify`,
  `Engine.Effect`).
- Touchpad.LnxlinkTouchpad.constructor: requires a positive scroll
  sensitivity. With a negative configured `scroll_sensitivity`, one of the
  two loops at lines 196-206 runs forever on every two-finger move.
  (A value of 0 falls back to 20.) `Engine.ScrollMove`, `Engine.Move` and
  the class's `Move` require the same through `Engine.WellFormed`.
- Touchpad.LnxlinkTouchpad.constructor: models a first `setConfig` only.
  Calling `setConfig` again with callbacks pending would drop their handles
  without clearing them. That case is not modelled.
- `setConfig` without a coordinate entity only shows a message. There is
  then no touchpad, which `Config.Load` returns as `None`.
- Configuration values of the wrong JavaScript type (a string threshold,
  say) are not modelled. Each tunable is an optional number, and each action
  slot is an optional descriptor. Any descriptor object is truthy.
- `LnxlinkTouchpadEditor`, the custom-element and card registration,
  `getCardSize`, `getLayoutOptions` and `getStubConfig` are left out. They
  are form UI, host glue and layout constants.
- Actions.Classify: its own contract states only the fallback for a
  missing `action`. The other branches are stated by
  `Actions.ShorthandCallsNamedService` (a dotted action),
  `Actions.PathBranches` (`call-service`, `navigate`, `url`),
  `Actions.ToggleTarget` (`toggle`) and `Actions.OtherActionsGoToHost`
  (every other action string).
