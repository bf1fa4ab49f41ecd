/**
 * The card configuration as `setConfig` reads it: six numeric tunables that
 * fall back to a default through `||`, six action slots, and the coordinate
 * entity without which the card never becomes a touchpad.
 */
module Config {

  import opened Wrappers
  import opened Actions

  const DEFAULT_LONG_PRESS_THRESHOLD: real := 300.0
  const DEFAULT_MOVEMENT_THRESHOLD: real := 5.0
  const DEFAULT_SENSITIVITY: real := 1.0
  const DEFAULT_ACCELERATION: real := 1.5
  const DEFAULT_DRAG_INACTIVITY_TIMEOUT: real := 600.0
  const DEFAULT_SCROLL_SENSITIVITY: real := 20.0

  /** The gesture slots, each with its own configured action. */
  datatype Gesture = Tap | RightClick | ScrollUp | ScrollDown | DragStart | DragEnd

  datatype Slots = Slots(
    tap: Option<ActionConfig>,
    rightClick: Option<ActionConfig>,
    scrollUp: Option<ActionConfig>,
    scrollDown: Option<ActionConfig>,
    dragStart: Option<ActionConfig>,
    dragEnd: Option<ActionConfig>)
  {
    /** `this.config.<gesture>_action`. */
    function For(g: Gesture): Option<ActionConfig> {
      match g
      case Tap => tap
      case RightClick => rightClick
      case ScrollUp => scrollUp
      case ScrollDown => scrollDown
      case DragStart => dragStart
      case DragEnd => dragEnd
    }
  }

  /** The configuration object as written by the user; absent keys are None. */
  datatype RawConfig = RawConfig(
    coordEntity: Option<string>,
    longPressThreshold: Option<real>,
    movementThreshold: Option<real>,
    sensitivity: Option<real>,
    acceleration: Option<real>,
    dragInactivityTimeout: Option<real>,
    scrollSensitivity: Option<real>,
    slots: Slots)

  datatype Settings = Settings(
    longPressThreshold: real,
    movementThreshold: real,
    sensitivity: real,
    acceleration: real,
    dragInactivityTimeout: real,
    scrollSensitivity: real)

  /** A configuration that passed the coordinate-entity check. */
  datatype Card = Card(coordEntity: string, settings: Settings, slots: Slots)

  /** `value || fallback` for a number: an absent key and 0 are both falsy. */
  function Or(value: Option<real>, fallback: real): (r: real)
    ensures value.Some? && value.value != 0.0 ==> r == value.value
    ensures value.None? || value.value == 0.0 ==> r == fallback
  {
    if value.Some? && value.value != 0.0 then value.value else fallback
  }

  /**
   * `setConfig`: without a truthy `coord_entity` the card only shows a
   * message and no touchpad exists; otherwise every tunable takes the
   * configured value unless that is absent or 0.
   */
  function Load(raw: RawConfig): (c: Option<Card>)
  {
    if !Truthy(raw.coordEntity) then None
    else
      Some(Card(raw.coordEntity.value,
        Settings(
          Or(raw.longPressThreshold, DEFAULT_LONG_PRESS_THRESHOLD),
          Or(raw.movementThreshold, DEFAULT_MOVEMENT_THRESHOLD),
          Or(raw.sensitivity, DEFAULT_SENSITIVITY),
          Or(raw.acceleration, DEFAULT_ACCELERATION),
          Or(raw.dragInactivityTimeout, DEFAULT_DRAG_INACTIVITY_TIMEOUT),
          Or(raw.scrollSensitivity, DEFAULT_SCROLL_SENSITIVITY)),
        raw.slots))
  }

  predicate NoZero(s: Settings) {
    s.longPressThreshold != 0.0 && s.movementThreshold != 0.0 && s.sensitivity != 0.0 &&
    s.acceleration != 0.0 && s.dragInactivityTimeout != 0.0 && s.scrollSensitivity != 0.0
  }

  /**
   * What loading guarantees: a touchpad exists exactly when the coordinate
   * entity is set, no tunable is ever 0, a positive configured scroll
   * sensitivity is kept and a missing one becomes 20, and the slots are
   * taken as written.
   */
  lemma LoadGuarantees(raw: RawConfig)
    ensures Load(raw).Some? <==> Truthy(raw.coordEntity)
    ensures Load(raw).Some? ==>
      var c := Load(raw).value;
      NoZero(c.settings) && c.slots == raw.slots && c.coordEntity == raw.coordEntity.value &&
      (raw.scrollSensitivity.None? ==> c.settings.scrollSensitivity == DEFAULT_SCROLL_SENSITIVITY) &&
      (raw.scrollSensitivity.Some? && raw.scrollSensitivity.value > 0.0 ==>
         c.settings.scrollSensitivity == raw.scrollSensitivity.value)
  {
  }

  /** Only a negative configured value can leave the scroll sensitivity non-positive. */
  lemma ScrollSensitivityPositive(raw: RawConfig)
    requires Load(raw).Some?
    requires raw.scrollSensitivity.None? || raw.scrollSensitivity.value >= 0.0
    ensures Load(raw).value.settings.scrollSensitivity > 0.0
  {
  }
}
