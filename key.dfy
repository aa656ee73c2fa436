/**
  The debounced push-button recogniser (srv_key.c / srv_key.h).

  A key is sampled periodically. Each call of Scan interprets the sampled GPIO
  level through the key's active polarity, advances a four-state machine
  (Idle, Debounce, Pressed, LongPress) by comparing elapsed milliseconds with
  two thresholds, returns at most one event and hands that event to the
  registered callback, if any.

  The pure transition function Step is the specification; the class Key holds
  the mutable fields of `struct srv_key` and its Scan method is proved to move
  exactly as Step says.
*/
module Key {
  import opened Ints

  /** DEFAULT_DEBOUNCE_MS and DEFAULT_LONG_PRESS_MS. */
  const DEFAULT_DEBOUNCE_MS: u32 := 20
  const DEFAULT_LONG_PRESS_MS: u32 := 1000

  /** key_active_t: which raw level means "pressed". */
  datatype Active = ActiveLow | ActiveHigh

  /**
    key_state_t. A C enum field may hold any integer; StateUnknown stands for
    every value outside the four named states.
  */
  datatype KeyState = StateIdle | StateDebounce | StatePressed | StateLongPress | StateUnknown

  /** key_event_t. */
  datatype KeyEvent = EventNone | EventPressed | EventReleased | EventShortPress | EventLongPress

  /** key_callback_t: either RT_NULL or some function, known by an identity. */
  datatype KeyCallback = NullCallback | Callback(id: nat)

  /** One invocation of the registered callback. */
  datatype Dispatch = Dispatch(target: KeyCallback, event: KeyEvent)

  /** The configuration fields of `struct srv_key`. */
  datatype Config = Config(active: Active, debounceMs: u32, longPressMs: u32)

  /** The fields of `struct srv_key` that a scan changes. */
  datatype Machine = Machine(state: KeyState, pressTick: u32)

  datatype StepResult = StepResult(machine: Machine, event: KeyEvent)

  /**
    `current_tick - self->press_tick` on uint32_t: the milliseconds from
    `since` to `now`, counted modulo 2^32 so that a tick counter that wrapped
    in between still gives the right distance.
  */
  function Elapsed(now: u32, since: u32): (r: u32)
    ensures since <= now ==> r == now - since
    ensures now < since ==> r == TWO_TO_THE_32 - since + now
    ensures (since + r) % TWO_TO_THE_32 == now
  {
    (now - since) % TWO_TO_THE_32
  }

  /** The tick `d` milliseconds after `t` on a wrapping 32-bit counter. */
  function Advance(t: u32, d: u32): u32
  {
    (t + d) % TWO_TO_THE_32
  }

  /** For any distance below 2^32 ms, wrapped or not, Elapsed recovers the distance travelled. */
  lemma ElapsedAcrossWrap(since: u32, d: u32)
    ensures Elapsed(Advance(since, d), since) == d
  {
  }

  /** `_key_is_pressed`: the sampled level read through the active polarity. */
  function IsPressed(active: Active, level: u8): (r: bool)
    ensures active == ActiveLow ==> (r <==> level == 0)
    ensures active == ActiveHigh ==> (r <==> level == 1)
    ensures level > 1 ==> !r
  {
    if active == ActiveLow then level == 0 else level == 1
  }

  /** On the two levels a pin actually returns, the two polarities disagree. */
  lemma PolarityInverts(level: u8)
    requires level == 0 || level == 1
    ensures IsPressed(ActiveLow, level) != IsPressed(ActiveHigh, level)
  {
  }

  /**
    The states a scan may move to from `s`, whatever the clock says: the shape
    of the transition table with its timing guards erased.
  */
  function Successors(s: KeyState, pressed: bool): set<KeyState>
  {
    match s
    case StateIdle => if pressed then {StateDebounce} else {StateIdle}
    case StateDebounce => if pressed then {StateDebounce, StatePressed} else {StateIdle}
    case StatePressed => if pressed then {StatePressed, StateLongPress} else {StateIdle}
    case StateLongPress => if pressed then {StateLongPress} else {StateIdle}
    case StateUnknown => {StateIdle}
  }

  /** The event that belongs to a move from `from` to `to`; staying put, or a silent move, has none. */
  function EdgeEvent(from: KeyState, to: KeyState): KeyEvent
  {
    match (from, to)
    case (StateDebounce, StatePressed) => EventPressed
    case (StatePressed, StateIdle) => EventShortPress
    case (StatePressed, StateLongPress) => EventLongPress
    case (StateLongPress, StateIdle) => EventReleased
    case _ => EventNone
  }

  /**
    One pass of the switch in `_key_scan`, given whether the key is pressed and
    the current tick.
  */
  function Step(cfg: Config, m: Machine, pressed: bool, now: u32): (r: StepResult)
    // the machine is always left in one of the four named states, one table edge away
    ensures r.machine.state != StateUnknown
    ensures r.machine.state in Successors(m.state, pressed)
    // a release always ends in Idle
    ensures !pressed ==> r.machine.state == StateIdle
    // an event is emitted exactly on entering a state that announces one
    ensures r.event == EdgeEvent(m.state, r.machine.state)
    // the press tick is restarted exactly on entering Debounce or Pressed
    ensures r.machine.pressTick ==
              if r.machine.state != m.state && r.machine.state in {StateDebounce, StatePressed}
              then now else m.pressTick
    // the timing guards
    ensures r.event == EventPressed <==>
              m.state == StateDebounce && pressed && Elapsed(now, m.pressTick) >= cfg.debounceMs
    ensures r.event == EventLongPress <==>
              m.state == StatePressed && pressed && Elapsed(now, m.pressTick) >= cfg.longPressMs
  {
    match m.state
    case StateIdle =>
      if pressed then StepResult(Machine(StateDebounce, now), EventNone)
      else StepResult(m, EventNone)
    case StateDebounce =>
      if !pressed then StepResult(m.(state := StateIdle), EventNone)
      else if Elapsed(now, m.pressTick) >= cfg.debounceMs then StepResult(Machine(StatePressed, now), EventPressed)
      else StepResult(m, EventNone)
    case StatePressed =>
      if !pressed then StepResult(m.(state := StateIdle), EventShortPress)
      else if Elapsed(now, m.pressTick) >= cfg.longPressMs then StepResult(m.(state := StateLongPress), EventLongPress)
      else StepResult(m, EventNone)
    case StateLongPress =>
      if !pressed then StepResult(m.(state := StateIdle), EventReleased)
      else StepResult(m, EventNone)
    case StateUnknown =>
      StepResult(m.(state := StateIdle), EventNone)
  }

  /** The callback invocations a scan that returned `event` makes. */
  function Dispatched(callback: KeyCallback, event: KeyEvent): (d: seq<Dispatch>)
    ensures |d| <= 1
    ensures |d| == 1 <==> event != EventNone && callback != NullCallback
    ensures d != [] ==> d[0] == Dispatch(callback, event)
  {
    if event != EventNone && callback != NullCallback then [Dispatch(callback, event)] else []
  }

  /** `struct srv_key`, with the GPIO object and the method table left out. */
  class Key {
    const active: Active
    var state: KeyState
    var pressTick: u32
    var debounceMs: u32
    var longPressMs: u32
    var callback: KeyCallback
    /** Every callback invocation so far, oldest first. */
    ghost var dispatched: seq<Dispatch>

    function Settings(): Config
      reads this
    {
      Config(active, debounceMs, longPressMs)
    }

    function Snapshot(): Machine
      reads this
    {
      Machine(state, pressTick)
    }

    /** `srv_key_create`: default thresholds, Idle, no callback. */
    constructor Create(active: Active)
      ensures this.active == active
      ensures state == StateIdle && pressTick == 0
      ensures debounceMs == DEFAULT_DEBOUNCE_MS && longPressMs == DEFAULT_LONG_PRESS_MS
      ensures callback == NullCallback
      ensures dispatched == []
    {
      this.active := active;
      state := StateIdle;
      pressTick := 0;
      debounceMs := DEFAULT_DEBOUNCE_MS;
      longPressMs := DEFAULT_LONG_PRESS_MS;
      callback := NullCallback;
      dispatched := [];
    }

    /** `_key_init`: back to the state `srv_key_create` leaves, polarity kept. */
    method Init()
      modifies this
      ensures state == StateIdle && pressTick == 0
      ensures debounceMs == DEFAULT_DEBOUNCE_MS && longPressMs == DEFAULT_LONG_PRESS_MS
      ensures callback == NullCallback
      ensures dispatched == old(dispatched)
    {
      state := StateIdle;
      pressTick := 0;
      debounceMs := DEFAULT_DEBOUNCE_MS;
      longPressMs := DEFAULT_LONG_PRESS_MS;
      callback := NullCallback;
    }

    /**
      `_key_scan`, with the GPIO read and the millisecond clock passed in as
      `level` and `now`.
    */
    method Scan(level: u8, now: u32) returns (event: KeyEvent)
      modifies this
      ensures Snapshot() == Step(old(Settings()), old(Snapshot()), IsPressed(active, level), now).machine
      ensures event == Step(old(Settings()), old(Snapshot()), IsPressed(active, level), now).event
      ensures debounceMs == old(debounceMs) && longPressMs == old(longPressMs)
      ensures callback == old(callback)
      ensures dispatched == old(dispatched) + Dispatched(callback, event)
    {
      event := EventNone;
      var pressed := IsPressed(active, level);
      match state {
        case StateIdle =>
          if pressed {
            state := StateDebounce;
            pressTick := now;
          }
        case StateDebounce =>
          if pressed {
            if Elapsed(now, pressTick) >= debounceMs {
              state := StatePressed;
              pressTick := now;
              event := EventPressed;
            }
          } else {
            state := StateIdle;
          }
        case StatePressed =>
          if !pressed {
            state := StateIdle;
            event := EventShortPress;
          } else if Elapsed(now, pressTick) >= longPressMs {
            state := StateLongPress;
            event := EventLongPress;
          }
        case StateLongPress =>
          if !pressed {
            state := StateIdle;
            event := EventReleased;
          }
        case StateUnknown =>
          state := StateIdle;
      }
      if event != EventNone && callback != NullCallback {
        dispatched := dispatched + [Dispatch(callback, event)];
      }
    }

    /** `_key_set_callback`: replaces the callback; past invocations stay as they were. */
    method SetCallback(cb: KeyCallback)
      modifies this
      ensures callback == cb
      ensures Snapshot() == old(Snapshot()) && Settings() == old(Settings())
      ensures dispatched == old(dispatched)
    {
      callback := cb;
    }
  }
}
