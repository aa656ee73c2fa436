# Debounced key and LED services, modelled in Dafny

This project models the two service objects of the RT-Thread tutorial boards.

- **Key service** (`srv_key.c`, types in `srv_key.h`). A push button is sampled periodically. Each scan does four things:
  - It reads the GPIO level through the key's active polarity.
  - It advances a four-state machine: Idle, Debounce, Pressed, LongPress.
  - It compares the milliseconds elapsed since `press_tick` with `debounce_ms` (default 20) and `long_press_ms` (default 1000).
  - It returns at most one event (Pressed, ShortPress, LongPress or Released) and passes that event to the registered callback.
- **LED service** (`srv_led.c`, types in `srv_led.h`). An on/off object. It caches its state and writes the output level that its polarity calls for.

Files:

- `ints.dfy` (module `Ints`): the `uint8_t` and `uint32_t` ranges.
- `key.dfy` (module `Key`):
  - the key's enums;
  - `Elapsed`, the wrapping `uint32_t` subtraction;
  - `IsPressed`;
  - `Step`, the transition function, with its table-level contract;
  - class `Key`, the mutable `struct srv_key`. Its `Scan` method is proved to move exactly as `Step` says. A ghost `dispatched` sequence records every callback invocation.
- `key_trace.dfy` (module `KeyTrace`): `Run` feeds a sequence of samples (level, tick) through `Step`. `ScanAll`, a periodic driver, proves that scanning a `Key` object once per sample ends where `Run` ends and invokes the callback once per event of the run. The lemmas cover:
  - bounce rejection;
  - the short-press and long-press cycles;
  - LongPress never repeating;
  - a general theorem that every run's events follow the press cycle;
  - two concrete 10 ms scenarios.
- `led.dfy` (module `Led`): the LED enums, the level each state drives, and class `Led`.
  - A ghost `writes` sequence records the GPIO writes.
  - `Consistent()` ties the cached state to the last level written.

Behaviour of the code that the model keeps:

- `press_tick` is restarted when a press is confirmed, so the long-press threshold counts from confirmation, not from the first edge. With the defaults and a 10 ms scan, a key held from t = 0 announces Pressed at t = 20 and LongPress only at t = 1020; `KeyTrace.NoLongPressBy1010Ms` proves that nothing follows Pressed up to t = 1010.
- Because each scan runs exactly one case of the switch, LongPress never fires on the same scan as Pressed, even when `long_press_ms <= debounce_ms`. Every scan returns at most one event.
- Elapsed time is an unsigned 32-bit subtraction, so it stays correct when the tick counter wraps (`Key.ElapsedAcrossWrap`).
- A `state` value outside the four named states is reset to Idle without an event. `StateUnknown` stands for all such values.

## Model

| member | source | states |
|---|---|---|
| Key.Elapsed | Kernel/12.MempoolTutorial/MempoolTutorial/Service/Src/srv_key.c:61 | `now - since` when `since <= now`; otherwise the distance across the 2^32 wrap; in both cases `since + r == now` modulo 2^32 |
| Key.ElapsedAcrossWrap | Kernel/12.MempoolTutorial/MempoolTutorial/Service/Src/srv_key.c:80 | a tick `d` ms after `since` on a wrapping counter is measured as exactly `d` |
| Key.IsPressed | Kernel/12.MempoolTutorial/MempoolTutorial/Service/Src/srv_key.c:27-39 | active-low: pressed iff level 0; active-high: pressed iff level 1; any level above 1 is never pressed |
| Key.PolarityInverts | Kernel/12.MempoolTutorial/MempoolTutorial/Service/Src/srv_key.c:31-38 | on levels 0 and 1 the two polarities give opposite answers |
| Key.Step | Kernel/12.MempoolTutorial/MempoolTutorial/Service/Src/srv_key.c:48-98 | the next state is always one of the four named states and one table edge away (`Successors`); a released sample always ends in Idle; the event is exactly the one belonging to the edge taken (`EdgeEvent`), so only Debounce→Pressed, Pressed→Idle, Pressed→LongPress and LongPress→Idle emit; `press_tick` becomes `now` exactly on entering Debounce or Pressed and is otherwise kept; Pressed fires iff debouncing, pressed and elapsed ≥ `debounce_ms`; LongPress fires iff Pressed, held and elapsed ≥ `long_press_ms` |
| Key.Dispatched | Kernel/12.MempoolTutorial/MempoolTutorial/Service/Src/srv_key.c:100-104 | the callback is invoked exactly once, with the returned event, iff the event is not NONE and a callback is set; otherwise it is not invoked |
| Key.Key.Create | Kernel/12.MempoolTutorial/MempoolTutorial/Service/Src/srv_key.c:116-134 | stores the polarity; Idle, `press_tick = 0`, debounce 20 ms, long press 1000 ms, no callback, no invocations yet |
| Key.Key.Init | Kernel/12.MempoolTutorial/MempoolTutorial/Service/Src/srv_key.c:16-24 | Idle, `press_tick = 0`, debounce 20 ms, long press 1000 ms, no callback; no callback invocation |
| Key.Key.Scan | Kernel/12.MempoolTutorial/MempoolTutorial/Service/Src/srv_key.c:42-107 | the new state and `press_tick` and the returned event are those of `Step` on the old fields, the polarity-mapped level and `now`; the thresholds and callback are unchanged; the invocation record grows by exactly `Dispatched(callback, event)` |
| Key.Key.SetCallback | Kernel/12.MempoolTutorial/MempoolTutorial/Service/Src/srv_key.c:110-113 | the callback is replaced; state, tick, thresholds and past invocations are unchanged, so a new callback only receives events from later scans |
| KeyTrace.RunAppend | Kernel/12.MempoolTutorial/MempoolTutorial/Service/Src/srv_key.c:42-107 | scanning two stretches of samples in turn is scanning their concatenation; the event lists concatenate |
| KeyTrace.RunSnoc | Kernel/12.MempoolTutorial/MempoolTutorial/Service/Src/srv_key.c:42-107 | one more scan after a run is one more `Step` from the run's final machine, its event appended if it is not NONE |
| KeyTrace.Dispatches | Kernel/12.MempoolTutorial/MempoolTutorial/Service/Src/srv_key.c:100-104 | with a callback set, one invocation per emitted event, in order and carrying that event; with RT_NULL, none |
| KeyTrace.DispatchesAppend | Kernel/12.MempoolTutorial/MempoolTutorial/Service/Src/srv_key.c:100-104 | the invocations of the events so far plus one scan's event are those so far plus that scan's invocation |
| KeyTrace.ScanAll | Kernel/12.MempoolTutorial/MempoolTutorial/Service/Src/srv_key.c:42-107 | scanning a key object once per sample leaves its state and tick where `Run` ends, returns the events `Run` emits, keeps thresholds and callback, and records exactly one callback invocation per event, in order |
| KeyTrace.IdleWhileReleased | Kernel/12.MempoolTutorial/MempoolTutorial/Service/Src/srv_key.c:50-56 | an idle key that keeps reading released stays Idle, keeps its tick and emits nothing |
| KeyTrace.DebounceWhileHeld | Kernel/12.MempoolTutorial/MempoolTutorial/Service/Src/srv_key.c:58-67 | while debouncing, samples held for less than `debounce_ms` since `press_tick` change nothing and emit nothing |
| KeyTrace.PressedWhileHeld | Kernel/12.MempoolTutorial/MempoolTutorial/Service/Src/srv_key.c:74-85 | a confirmed press held for less than `long_press_ms` stays Pressed, keeps its tick and emits nothing |
| KeyTrace.LongPressWhileHeld | Kernel/12.MempoolTutorial/MempoolTutorial/Service/Src/srv_key.c:87-93 | in LongPress, any number of held samples emit nothing: LONG_PRESS is never repeated |
| KeyTrace.BounceRejected | Kernel/12.MempoolTutorial/MempoolTutorial/Service/Src/srv_key.c:50-72 | from Idle, a press held for less than the debounce window and then released returns to Idle with no event at all, so a bounce never produces PRESSED |
| KeyTrace.PressConfirmed | Kernel/12.MempoolTutorial/MempoolTutorial/Service/Src/srv_key.c:50-67 | from Idle, a press still held a full debounce window after its first edge emits PRESSED and leaves the key Pressed with its tick restarted at the confirming sample |
| KeyTrace.ShortPressCycle | Kernel/12.MempoolTutorial/MempoolTutorial/Service/Src/srv_key.c:50-85 | a confirmed press released before the long-press threshold yields exactly [PRESSED, SHORT_PRESS] and ends in Idle |
| KeyTrace.LongPressThenRelease | Kernel/12.MempoolTutorial/MempoolTutorial/Service/Src/srv_key.c:74-93 | from Pressed, holding past the threshold, holding on and releasing yields exactly [LONG_PRESS, RELEASED] and ends in Idle with the tick of the confirmation |
| KeyTrace.ReleasedAfterLongPress | Kernel/12.MempoolTutorial/MempoolTutorial/Service/Src/srv_key.c:87-93 | in LongPress, holding on and then releasing yields exactly [RELEASED], ends in Idle and keeps the tick |
| KeyTrace.LongPressCycle | Kernel/12.MempoolTutorial/MempoolTutorial/Service/Src/srv_key.c:50-93 | a press confirmed, held past the long-press threshold, held on and released yields exactly [PRESSED, LONG_PRESS, RELEASED] and ends in Idle |
| KeyTrace.NoLongPressBy1010Ms | Kernel/12.MempoolTutorial/MempoolTutorial/Service/Src/srv_key.c:58-85 | active-low, default thresholds, 10 ms scans, held low over t = 0..1010: only PRESSED has fired and the key is Pressed with tick 20, because the long-press threshold counts from confirmation |
| KeyTrace.HeldFor1050Ms | Kernel/12.MempoolTutorial/MempoolTutorial/Service/Src/srv_key.c:6-93 | the same key held low over t = 0..1050 and high at 1060 yields exactly [PRESSED, LONG_PRESS, RELEASED] and ends in Idle |
| KeyTrace.OneTickBounceIgnored | Kernel/12.MempoolTutorial/MempoolTutorial/Service/Src/srv_key.c:58-72 | active-low, default thresholds, low at t = 0 and 10 only, released from t = 20 on: no event ever |
| KeyTrace.StepFollowsPressCycle | Kernel/12.MempoolTutorial/MempoolTutorial/Service/Src/srv_key.c:48-98 | one scan either keeps the key's phase in the press cycle silently or emits the one event that moves it to the next phase |
| KeyTrace.EventsFollowPressCycle | Kernel/12.MempoolTutorial/MempoolTutorial/Service/Src/srv_key.c:42-107 | for every sample sequence, the events follow the press cycle: each PRESSED is followed by SHORT_PRESS, or by LONG_PRESS then RELEASED, before the next PRESSED; a press never gets both outcomes |
| Led.CodeOf | Kernel/1.CreateThread/CreateThread/Service/Inc/srv_led.h:14-17 | the enum value of a state is LED_ON exactly for the on state |
| Led.Requested | Kernel/1.CreateThread/CreateThread/Service/Src/srv_led.c:40-47 | a requested value means on iff it equals LED_ON; every other value means off |
| Led.RequestedCodeOf | Kernel/1.CreateThread/CreateThread/Service/Src/srv_led.c:42 | passing the code of a state requests exactly that state |
| Led.DriveLevel | Kernel/1.CreateThread/CreateThread/Service/Src/srv_led.c:11-29 | the level for a state is 0 or 1, and it is 1 iff "on" and "active high" agree |
| Led.Toggled | Kernel/1.CreateThread/CreateThread/Service/Src/srv_led.c:31-38 | toggling always changes the state |
| Led.ToggleTwice | Kernel/1.CreateThread/CreateThread/Service/Src/srv_led.c:31-38 | toggling twice restores the state; each toggle flips the driven level |
| Led.Led.Create | Kernel/1.CreateThread/CreateThread/Service/Src/srv_led.c:55-71 | stores the polarity, starts LED_OFF, writes nothing |
| Led.Led.Init | Kernel/1.CreateThread/CreateThread/Service/Src/srv_led.c:4-9 | ends LED_OFF, having written the off level for the polarity; pin and state are consistent |
| Led.Led.On | Kernel/1.CreateThread/CreateThread/Service/Src/srv_led.c:11-19 | state LED_ON; writes 0 when active-low and 1 when active-high; pin and state are consistent |
| Led.Led.Off | Kernel/1.CreateThread/CreateThread/Service/Src/srv_led.c:21-29 | state LED_OFF; writes 1 when active-low and 0 when active-high; pin and state are consistent |
| Led.Led.Toggle | Kernel/1.CreateThread/CreateThread/Service/Src/srv_led.c:31-38 | the state flips and exactly one write drives the level of the new state; pin and state are consistent |
| Led.Led.Set | Kernel/1.CreateThread/CreateThread/Service/Src/srv_led.c:40-47 | the state becomes the requested one (LED_ON on, anything else off) and exactly one write drives its level; pin and state are consistent |
| Led.Led.GetState | Kernel/1.CreateThread/CreateThread/Service/Src/srv_led.c:49-52 | returns the cached state and changes nothing |
| Led.ToggleTwiceRestores | Kernel/1.CreateThread/CreateThread/Service/Src/srv_led.c:31-38 | on an LED whose pin shows its state, two toggles restore the state and the last level written |

## Left out

- The GPIO driver (`drv_gpio.c`) is not modelled. The key's level read becomes the `level` parameter of `Scan`. The LED's writes are recorded in the ghost `writes` sequence.
- The `port` and `pin` arguments of `srv_key_create` and `srv_led_create` are not modelled, and neither is the `gpio.init` call in `_key_init` and `_led_init`. That call is a no-op in the driver.
- `rt_tick_get_millisecond` is not modelled: the current tick is the `now` parameter of `Scan`.
- The function-pointer method tables are ordinary class methods. `_key_is_pressed` is the pure function `Key.IsPressed` of the polarity and the sampled level.
- What a callback does is not modelled. An invocation is recorded as a `Dispatch` of the callback's identity and the event. A callback that re-enters the key object is not modelled.
- The thresholds `debounce_ms` and `long_press_ms` are public fields that callers may assign directly, as in C. The source has no setter for them.
- The thread, queue, mailbox, mutex, semaphore, signal and memory-pool demos, board initialisation and the UART and pin device examples are not part of this model. They only call RTOS primitives, which are not shown.
