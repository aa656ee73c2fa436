/**
  The LED service (srv_led.c / srv_led.h): an on/off object that caches its
  state and drives a GPIO output at the level its polarity calls for. The
  GPIO writes are recorded, in order, in a ghost sequence, so that the link
  between the cached state and the pin can be stated and kept.
*/
module Led {
  import opened Ints

  /** led_active_t: which output level lights the LED. */
  datatype LedActive = LedActiveLow | LedActiveHigh

  /** led_state_t. */
  datatype LedState = LedOff | LedOn

  /** The numeric values of LED_OFF and LED_ON in led_state_t. */
  const LED_OFF_CODE: int := 0
  const LED_ON_CODE: int := 1

  /** The enum value a caller passes for a state. */
  function CodeOf(s: LedState): (code: int)
    ensures code == LED_ON_CODE <==> s == LedOn
    ensures s == LedOff ==> code == LED_OFF_CODE
  {
    if s == LedOn then LED_ON_CODE else LED_OFF_CODE
  }

  /** How `_led_set` reads its argument: LED_ON is on, every other value is off. */
  function Requested(code: int): (s: LedState)
    ensures s == LedOn <==> code == LED_ON_CODE
  {
    if code == LED_ON_CODE then LedOn else LedOff
  }

  /** Passing the code of a state asks for exactly that state. */
  lemma RequestedCodeOf(s: LedState)
    ensures Requested(CodeOf(s)) == s
  {
  }

  /** The level `_led_on` writes. */
  function OnLevel(active: LedActive): u8
  {
    if active == LedActiveLow then 0 else 1
  }

  /** The level `_led_off` writes. */
  function OffLevel(active: LedActive): u8
  {
    if active == LedActiveLow then 1 else 0
  }

  /**
    The level that shows state `s`: the pin is high exactly when "on" and
    "active high" agree.
  */
  function DriveLevel(active: LedActive, s: LedState): (level: u8)
    ensures level == 0 || level == 1
    ensures level == 1 <==> ((s == LedOn) == (active == LedActiveHigh))
  {
    if s == LedOn then OnLevel(active) else OffLevel(active)
  }

  /** The state `_led_toggle` moves to. */
  function Toggled(s: LedState): (t: LedState)
    ensures t != s
  {
    if s == LedOn then LedOff else LedOn
  }

  /** Toggling twice gives back the state toggled; each toggle flips the pin. */
  lemma ToggleTwice(active: LedActive, s: LedState)
    ensures Toggled(Toggled(s)) == s
    ensures DriveLevel(active, Toggled(s)) != DriveLevel(active, s)
  {
  }

  /** `struct srv_led`, with the GPIO object and the method table left out. */
  class Led {
    const active: LedActive
    var state: LedState
    /** Every level written to the LED's pin so far, oldest first. */
    ghost var writes: seq<u8>

    /** The pin shows the cached state: the last level written is the one for `state`. */
    ghost predicate Consistent()
      reads this
    {
      |writes| > 0 && writes[|writes| - 1] == DriveLevel(active, state)
    }

    /** `srv_led_create`: stores the polarity, starts LED_OFF, writes nothing yet. */
    constructor Create(active: LedActive)
      ensures this.active == active
      ensures state == LedOff
      ensures writes == []
    {
      this.active := active;
      state := LedOff;
      writes := [];
    }

    /** `_led_init`: drives the "off" level and ends LED_OFF. */
    method Init()
      modifies this
      ensures state == LedOff
      ensures writes == old(writes) + [OffLevel(active)]
      ensures Consistent()
    {
      state := LedOff;
      Off();
    }

    /** `_led_on`. */
    method On()
      modifies this
      ensures state == LedOn
      ensures writes == old(writes) + [OnLevel(active)]
      ensures Consistent()
    {
      if active == LedActiveLow {
        writes := writes + [0];
      } else {
        writes := writes + [1];
      }
      state := LedOn;
    }

    /** `_led_off`. */
    method Off()
      modifies this
      ensures state == LedOff
      ensures writes == old(writes) + [OffLevel(active)]
      ensures Consistent()
    {
      if active == LedActiveLow {
        writes := writes + [1];
      } else {
        writes := writes + [0];
      }
      state := LedOff;
    }

    /** `_led_toggle`: flips the cached state and drives the pin to match. */
    method Toggle()
      modifies this
      ensures state == Toggled(old(state))
      ensures writes == old(writes) + [DriveLevel(active, state)]
      ensures Consistent()
    {
      if state == LedOn {
        Off();
      } else {
        On();
      }
    }

    /** `_led_set`: LED_ON switches on, any other value switches off. */
    method Set(code: int)
      modifies this
      ensures state == Requested(code)
      ensures writes == old(writes) + [DriveLevel(active, state)]
      ensures Consistent()
    {
      if code == LED_ON_CODE {
        On();
      } else {
        Off();
      }
    }

    /** `_led_get_state`: the cached state; nothing changes. */
    method GetState() returns (s: LedState)
      ensures s == state
    {
      s := state;
    }
  }

  /**
    Toggling twice restores the state and leaves the pin where it was before,
    once the pin has been driven at all.
  */
  method ToggleTwiceRestores(led: Led)
    requires led.Consistent()
    modifies led
    ensures led.state == old(led.state)
    ensures led.Consistent()
    ensures led.writes[|led.writes| - 1] == old(led.writes[|led.writes| - 1])
  {
    led.Toggle();
    led.Toggle();
  }
}
