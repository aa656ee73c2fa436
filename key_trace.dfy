/**
  What a key does over many scans. A run feeds a sequence of samples (the
  level read and the tick at each scan) through Step and collects the events
  the callback would see. The lemmas are the recogniser's behavioural promises:
  a bounce never confirms a press, a short press yields Pressed then ShortPress,
  a long press yields Pressed, LongPress, Released with LongPress never
  repeated, and in general every press cycle announces exactly one of the two
  outcomes.
*/
module KeyTrace {
  import opened Ints
  import opened Key

  /** One scan's inputs: the level the GPIO read returned and the tick of that moment. */
  datatype Sample = Sample(level: u8, now: u32)

  datatype RunResult = RunResult(final: Machine, events: seq<KeyEvent>)

  /** The events a scan passes on; EventNone is not one. */
  function Emitted(e: KeyEvent): seq<KeyEvent>
  {
    if e == EventNone then [] else [e]
  }

  function Run(cfg: Config, m: Machine, samples: seq<Sample>): RunResult
    decreases |samples|
  {
    if samples == [] then RunResult(m, [])
    else
      var r := Step(cfg, m, IsPressed(cfg.active, samples[0].level), samples[0].now);
      var rest := Run(cfg, r.machine, samples[1..]);
      RunResult(rest.final, Emitted(r.event) + rest.events)
  }

  /** Every sample reads as pressed and lies less than `limit` ms after `since`. */
  ghost predicate HeldWithin(cfg: Config, samples: seq<Sample>, since: u32, limit: u32)
  {
    forall i :: 0 <= i < |samples| ==>
      IsPressed(cfg.active, samples[i].level) && Elapsed(samples[i].now, since) < limit
  }

  ghost predicate AllPressed(cfg: Config, samples: seq<Sample>)
  {
    forall i :: 0 <= i < |samples| ==> IsPressed(cfg.active, samples[i].level)
  }

  ghost predicate AllReleased(cfg: Config, samples: seq<Sample>)
  {
    forall i :: 0 <= i < |samples| ==> !IsPressed(cfg.active, samples[i].level)
  }

  /** Running two stretches of samples one after the other. */
  lemma {:induction false} RunAppend(cfg: Config, m: Machine, a: seq<Sample>, b: seq<Sample>)
    ensures Run(cfg, m, a + b) ==
              RunResult(Run(cfg, Run(cfg, m, a).final, b).final,
                        Run(cfg, m, a).events + Run(cfg, Run(cfg, m, a).final, b).events)
    decreases |a|
  {
    if a == [] {
      assert a + b == b;
    } else {
      assert (a + b)[0] == a[0];
      assert (a + b)[1..] == a[1..] + b;
      var r := Step(cfg, m, IsPressed(cfg.active, a[0].level), a[0].now);
      RunAppend(cfg, r.machine, a[1..], b);
    }
  }

  /** An idle key that keeps reading released stays idle and silent. */
  lemma {:induction false} IdleWhileReleased(cfg: Config, m: Machine, samples: seq<Sample>)
    requires m.state == StateIdle
    requires AllReleased(cfg, samples)
    ensures Run(cfg, m, samples) == RunResult(m, [])
    decreases |samples|
  {
    if samples != [] {
      IdleWhileReleased(cfg, m, samples[1..]);
    }
  }

  /** While debouncing, a level held for less than the debounce window changes nothing. */
  lemma {:induction false} DebounceWhileHeld(cfg: Config, m: Machine, samples: seq<Sample>)
    requires m.state == StateDebounce
    requires HeldWithin(cfg, samples, m.pressTick, cfg.debounceMs)
    ensures Run(cfg, m, samples) == RunResult(m, [])
    decreases |samples|
  {
    if samples != [] {
      DebounceWhileHeld(cfg, m, samples[1..]);
    }
  }

  /** A confirmed press held for less than the long-press threshold stays silent. */
  lemma {:induction false} PressedWhileHeld(cfg: Config, m: Machine, samples: seq<Sample>)
    requires m.state == StatePressed
    requires HeldWithin(cfg, samples, m.pressTick, cfg.longPressMs)
    ensures Run(cfg, m, samples) == RunResult(m, [])
    decreases |samples|
  {
    if samples != [] {
      PressedWhileHeld(cfg, m, samples[1..]);
    }
  }

  /** Once in LongPress, holding on produces nothing more: LongPress is never repeated. */
  lemma {:induction false} LongPressWhileHeld(cfg: Config, m: Machine, samples: seq<Sample>)
    requires m.state == StateLongPress
    requires AllPressed(cfg, samples)
    ensures Run(cfg, m, samples) == RunResult(m, [])
    decreases |samples|
  {
    if samples != [] {
      LongPressWhileHeld(cfg, m, samples[1..]);
    }
  }

  /**
    Bounce rejection: from Idle, a press at `first` held for less than the
    debounce window and then released returns to Idle without any event.
  */
  lemma BounceRejected(cfg: Config, m: Machine, first: Sample, held: seq<Sample>, release: Sample)
    requires m.state == StateIdle
    requires IsPressed(cfg.active, first.level)
    requires HeldWithin(cfg, held, first.now, cfg.debounceMs)
    requires !IsPressed(cfg.active, release.level)
    ensures Run(cfg, m, [first] + held + [release]) == RunResult(Machine(StateIdle, first.now), [])
  {
    var debouncing := Machine(StateDebounce, first.now);
    assert [first] + held + [release] == [first] + (held + [release]);
    DebounceWhileHeld(cfg, debouncing, held);
    RunAppend(cfg, debouncing, held, [release]);
  }

  /**
    From Idle, a press at `first` held through `bouncing` and still held at
    `confirm`, a full debounce window later, announces Pressed and leaves the
    key Pressed with its tick restarted at `confirm`.
  */
  lemma PressConfirmed(cfg: Config, m: Machine, first: Sample, bouncing: seq<Sample>,
                       confirm: Sample, rest: seq<Sample>)
    requires m.state == StateIdle
    requires IsPressed(cfg.active, first.level)
    requires HeldWithin(cfg, bouncing, first.now, cfg.debounceMs)
    requires IsPressed(cfg.active, confirm.level) && Elapsed(confirm.now, first.now) >= cfg.debounceMs
    ensures var after := Run(cfg, Machine(StatePressed, confirm.now), rest);
            Run(cfg, m, [first] + bouncing + [confirm] + rest) ==
              RunResult(after.final, [EventPressed] + after.events)
  {
    var debouncing := Machine(StateDebounce, first.now);
    var tail := [confirm] + rest;
    assert [first] + bouncing + [confirm] + rest == [first] + (bouncing + tail);
    DebounceWhileHeld(cfg, debouncing, bouncing);
    RunAppend(cfg, debouncing, bouncing, tail);
    assert tail[0] == confirm && tail[1..] == rest;
  }

  /**
    From Idle, a press at `first` that is confirmed at `confirm`, held for
    less than the long-press threshold after that and then released, yields
    exactly Pressed then ShortPress and ends in Idle.
  */
  lemma ShortPressCycle(cfg: Config, m: Machine, first: Sample, bouncing: seq<Sample>,
                        confirm: Sample, held: seq<Sample>, release: Sample)
    requires m.state == StateIdle
    requires IsPressed(cfg.active, first.level)
    requires HeldWithin(cfg, bouncing, first.now, cfg.debounceMs)
    requires IsPressed(cfg.active, confirm.level) && Elapsed(confirm.now, first.now) >= cfg.debounceMs
    requires HeldWithin(cfg, held, confirm.now, cfg.longPressMs)
    requires !IsPressed(cfg.active, release.level)
    ensures Run(cfg, m, [first] + bouncing + [confirm] + held + [release]) ==
              RunResult(Machine(StateIdle, confirm.now), [EventPressed, EventShortPress])
  {
    var pressed := Machine(StatePressed, confirm.now);
    assert [first] + bouncing + [confirm] + held + [release] ==
           [first] + bouncing + [confirm] + (held + [release]);
    PressConfirmed(cfg, m, first, bouncing, confirm, held + [release]);
    PressedWhileHeld(cfg, pressed, held);
    RunAppend(cfg, pressed, held, [release]);
  }

  /**
    A confirmed press (tick `since`) held for less than the long-press
    threshold, still held at `long` at least the threshold after `since`, then
    held on and released, announces LongPress once and then Released.
  */
  lemma LongPressThenRelease(cfg: Config, since: u32, held: seq<Sample>, long: Sample,
                             heldOn: seq<Sample>, release: Sample)
    requires HeldWithin(cfg, held, since, cfg.longPressMs)
    requires IsPressed(cfg.active, long.level) && Elapsed(long.now, since) >= cfg.longPressMs
    requires AllPressed(cfg, heldOn)
    requires !IsPressed(cfg.active, release.level)
    ensures Run(cfg, Machine(StatePressed, since), held + ([long] + (heldOn + [release]))) ==
              RunResult(Machine(StateIdle, since), [EventLongPress, EventReleased])
  {
    var pressed := Machine(StatePressed, since);
    var tail := [long] + (heldOn + [release]);
    PressedWhileHeld(cfg, pressed, held);
    RunAppend(cfg, pressed, held, tail);
    assert tail[0] == long && tail[1..] == heldOn + [release];
    ReleasedAfterLongPress(cfg, since, heldOn, release);
  }

  /** In LongPress, holding on and then releasing announces Released once and ends in Idle. */
  lemma ReleasedAfterLongPress(cfg: Config, since: u32, heldOn: seq<Sample>, release: Sample)
    requires AllPressed(cfg, heldOn)
    requires !IsPressed(cfg.active, release.level)
    ensures Run(cfg, Machine(StateLongPress, since), heldOn + [release]) ==
              RunResult(Machine(StateIdle, since), [EventReleased])
  {
    var longPressed := Machine(StateLongPress, since);
    LongPressWhileHeld(cfg, longPressed, heldOn);
    RunAppend(cfg, longPressed, heldOn, [release]);
  }

  /**
    From Idle, a press confirmed at `confirm` and still held at `long`, at
    least the long-press threshold later, then held on and finally released,
    yields exactly Pressed, LongPress, Released and ends in Idle.
  */
  lemma LongPressCycle(cfg: Config, m: Machine, first: Sample, bouncing: seq<Sample>,
                       confirm: Sample, held: seq<Sample>, long: Sample,
                       heldOn: seq<Sample>, release: Sample)
    requires m.state == StateIdle
    requires IsPressed(cfg.active, first.level)
    requires HeldWithin(cfg, bouncing, first.now, cfg.debounceMs)
    requires IsPressed(cfg.active, confirm.level) && Elapsed(confirm.now, first.now) >= cfg.debounceMs
    requires HeldWithin(cfg, held, confirm.now, cfg.longPressMs)
    requires IsPressed(cfg.active, long.level) && Elapsed(long.now, confirm.now) >= cfg.longPressMs
    requires AllPressed(cfg, heldOn)
    requires !IsPressed(cfg.active, release.level)
    ensures Run(cfg, m, [first] + bouncing + [confirm] + held + [long] + heldOn + [release]) ==
              RunResult(Machine(StateIdle, confirm.now), [EventPressed, EventLongPress, EventReleased])
  {
    var rest := held + ([long] + (heldOn + [release]));
    assert [first] + bouncing + [confirm] + held + [long] + heldOn + [release] ==
           [first] + bouncing + [confirm] + rest;
    PressConfirmed(cfg, m, first, bouncing, confirm, rest);
    LongPressThenRelease(cfg, confirm.now, held, long, heldOn, release);
  }

  /** `count` scans 10 ms apart from tick `from`, each reading `level`. */
  function Every10Ms(level: u8, from: nat, count: nat): (s: seq<Sample>)
    requires from + 10 * count <= TWO_TO_THE_32
    ensures |s| == count
    ensures forall i :: 0 <= i < count ==> s[i] == Sample(level, from + 10 * i)
  {
    seq(count, i requires 0 <= i < count => Sample(level, from + 10 * i))
  }

  /** A stretch of 10 ms scans splits into two consecutive stretches. */
  lemma Every10MsSplit(level: u8, from: nat, a: nat, b: nat)
    requires from + 10 * (a + b) <= TWO_TO_THE_32
    ensures Every10Ms(level, from, a + b) == Every10Ms(level, from, a) + Every10Ms(level, from + 10 * a, b)
  {
  }

  /**
    An active-low key with the default thresholds, scanned every 10 ms and
    held low from t = 0 through t = 1010: Pressed is announced at t = 20 and
    nothing more, because the long-press threshold runs from that
    confirmation and not from the first edge.
  */
  lemma NoLongPressBy1010Ms()
    ensures Run(Config(ActiveLow, DEFAULT_DEBOUNCE_MS, DEFAULT_LONG_PRESS_MS),
                Machine(StateIdle, 0), Every10Ms(0, 0, 102)) ==
              RunResult(Machine(StatePressed, 20), [EventPressed])
  {
    var cfg := Config(ActiveLow, DEFAULT_DEBOUNCE_MS, DEFAULT_LONG_PRESS_MS);
    var held := Every10Ms(0, 30, 99);
    Every10MsSplit(0, 0, 3, 99);
    assert Every10Ms(0, 0, 3) == [Sample(0, 0)] + [Sample(0, 10)] + [Sample(0, 20)];
    PressConfirmed(cfg, Machine(StateIdle, 0), Sample(0, 0), [Sample(0, 10)], Sample(0, 20), held);
    HeldFrom30Ms(cfg);
    PressedWhileHeld(cfg, Machine(StatePressed, 20), held);
  }

  /** Low samples every 10 ms over t = 30..1010 stay within the default long-press threshold of t = 20. */
  lemma HeldFrom30Ms(cfg: Config)
    requires cfg == Config(ActiveLow, DEFAULT_DEBOUNCE_MS, DEFAULT_LONG_PRESS_MS)
    ensures HeldWithin(cfg, Every10Ms(0, 30, 99), 20, cfg.longPressMs)
  {
  }

  /**
    The same key held low from t = 0 through t = 1050 and high at t = 1060
    yields Pressed, LongPress (at t = 1020), Released, and ends in Idle.
  */
  lemma HeldFor1050Ms()
    ensures Run(Config(ActiveLow, DEFAULT_DEBOUNCE_MS, DEFAULT_LONG_PRESS_MS),
                Machine(StateIdle, 0), Every10Ms(0, 0, 106) + [Sample(1, 1060)]) ==
              RunResult(Machine(StateIdle, 20), [EventPressed, EventLongPress, EventReleased])
  {
    var cfg := Config(ActiveLow, DEFAULT_DEBOUNCE_MS, DEFAULT_LONG_PRESS_MS);
    var held := Every10Ms(0, 30, 99);
    var heldOn := Every10Ms(0, 1030, 3);
    Every10MsSplit(0, 0, 102, 4);
    Every10MsSplit(0, 0, 3, 99);
    Every10MsSplit(0, 1020, 1, 3);
    assert Every10Ms(0, 0, 3) == [Sample(0, 0)] + [Sample(0, 10)] + [Sample(0, 20)];
    assert Every10Ms(0, 1020, 1) == [Sample(0, 1020)];
    HeldFrom30Ms(cfg);
    assert Every10Ms(0, 0, 106) + [Sample(1, 1060)] ==
           [Sample(0, 0)] + [Sample(0, 10)] + [Sample(0, 20)] + held + [Sample(0, 1020)] + heldOn + [Sample(1, 1060)];
    LongPressCycle(cfg, Machine(StateIdle, 0), Sample(0, 0), [Sample(0, 10)], Sample(0, 20),
                   held, Sample(0, 1020), heldOn, Sample(1, 1060));
  }

  /**
    An active-low key with the default thresholds, low at t = 0 and t = 10
    only and released from t = 20 on, never announces anything.
  */
  lemma OneTickBounceIgnored(later: seq<Sample>)
    requires AllReleased(Config(ActiveLow, DEFAULT_DEBOUNCE_MS, DEFAULT_LONG_PRESS_MS), later)
    ensures Run(Config(ActiveLow, DEFAULT_DEBOUNCE_MS, DEFAULT_LONG_PRESS_MS), Machine(StateIdle, 0),
                [Sample(0, 0), Sample(0, 10), Sample(1, 20)] + later).events == []
  {
    var cfg := Config(ActiveLow, DEFAULT_DEBOUNCE_MS, DEFAULT_LONG_PRESS_MS);
    var bounce := [Sample(0, 0)] + [Sample(0, 10)] + [Sample(1, 20)];
    assert bounce == [Sample(0, 0), Sample(0, 10), Sample(1, 20)];
    BounceRejected(cfg, Machine(StateIdle, 0), Sample(0, 0), [Sample(0, 10)], Sample(1, 20));
    RunAppend(cfg, Machine(StateIdle, 0), bounce, later);
    IdleWhileReleased(cfg, Machine(StateIdle, 0), later);
  }

  /** The callback invocations a sequence of emitted events makes: one per event, or none without a callback. */
  function Dispatches(callback: KeyCallback, events: seq<KeyEvent>): (d: seq<Dispatch>)
    ensures callback == NullCallback ==> d == []
    ensures callback != NullCallback ==>
              |d| == |events| && forall i :: 0 <= i < |events| ==> d[i] == Dispatch(callback, events[i])
  {
    if callback == NullCallback then []
    else seq(|events|, i requires 0 <= i < |events| => Dispatch(callback, events[i]))
  }

  /** What one scan dispatches is what its emitted events dispatch, and dispatch lists concatenate. */
  lemma DispatchesAppend(callback: KeyCallback, events: seq<KeyEvent>, e: KeyEvent)
    ensures Dispatches(callback, events + Emitted(e)) ==
              Dispatches(callback, events) + Dispatched(callback, e)
  {
    if callback != NullCallback {
      assert Dispatches(callback, events + Emitted(e)) ==
             Dispatches(callback, events) + Dispatches(callback, Emitted(e));
    }
  }

  /**
    A periodic driver scanning key `k` once per sample: the object ends where
    Run says, returns the events Run emits, and the callback has been invoked
    once for each of them, in order (or never, without a callback).
  */
  method ScanAll(k: Key, samples: seq<Sample>) returns (events: seq<KeyEvent>)
    modifies k
    ensures k.Snapshot() == Run(old(k.Settings()), old(k.Snapshot()), samples).final
    ensures events == Run(old(k.Settings()), old(k.Snapshot()), samples).events
    ensures k.Settings() == old(k.Settings()) && k.callback == old(k.callback)
    ensures k.dispatched == old(k.dispatched) + Dispatches(k.callback, events)
  {
    ghost var cfg, start := k.Settings(), k.Snapshot();
    events := [];
    var i := 0;
    while i < |samples|
      invariant 0 <= i <= |samples|
      invariant k.Settings() == cfg && k.callback == old(k.callback)
      invariant RunResult(k.Snapshot(), events) == Run(cfg, start, samples[..i])
      invariant k.dispatched == old(k.dispatched) + Dispatches(k.callback, events)
    {
      ghost var before := k.Snapshot();
      ghost var r := Step(cfg, before, IsPressed(cfg.active, samples[i].level), samples[i].now);
      ghost var dispatchedBefore := k.dispatched;
      var e := k.Scan(samples[i].level, samples[i].now);
      assert k.Snapshot() == r.machine && e == r.event;
      assert k.dispatched == dispatchedBefore + Dispatched(k.callback, e);
      RunSnoc(cfg, start, samples[..i], samples[i]);
      assert samples[..i + 1] == samples[..i] + [samples[i]];
      DispatchesAppend(k.callback, events, e);
      events := events + Emitted(e);
      i := i + 1;
    }
    assert samples[..i] == samples;
  }

  /** Running one more sample is one more Step after the run so far. */
  lemma RunSnoc(cfg: Config, m: Machine, samples: seq<Sample>, last: Sample)
    ensures var so := Run(cfg, m, samples);
            var r := Step(cfg, so.final, IsPressed(cfg.active, last.level), last.now);
            Run(cfg, m, samples + [last]) == RunResult(r.machine, so.events + Emitted(r.event))
  {
    var so := Run(cfg, m, samples);
    RunAppend(cfg, m, samples, [last]);
    assert [last][1..] == [];
    assert Emitted(Step(cfg, so.final, IsPressed(cfg.active, last.level), last.now).event) + [] ==
           Emitted(Step(cfg, so.final, IsPressed(cfg.active, last.level), last.now).event);
  }

  /** Where a key stands in a press cycle, as far as its observer can tell. */
  datatype Phase = AwaitPress | AwaitOutcome | AwaitRelease

  function PhaseOf(s: KeyState): Phase
  {
    match s
    case StatePressed => AwaitOutcome
    case StateLongPress => AwaitRelease
    case _ => AwaitPress
  }

  /**
    The event sequences an observer may see from phase `p`: each Pressed is
    followed by either ShortPress, or LongPress and then Released, before the
    next Pressed.
  */
  ghost predicate Legal(p: Phase, events: seq<KeyEvent>)
    decreases |events|
  {
    if events == [] then true
    else match p
      case AwaitPress =>
        events[0] == EventPressed && Legal(AwaitOutcome, events[1..])
      case AwaitOutcome =>
        (events[0] == EventShortPress && Legal(AwaitPress, events[1..])) ||
        (events[0] == EventLongPress && Legal(AwaitRelease, events[1..]))
      case AwaitRelease =>
        events[0] == EventReleased && Legal(AwaitPress, events[1..])
  }

  /**
    Whatever the samples, the events of a run follow the press cycle: no
    ShortPress or LongPress without a Pressed before it, never both outcomes
    for one press, never a second LongPress, Released only after LongPress.
  */
  lemma {:induction false} EventsFollowPressCycle(cfg: Config, m: Machine, samples: seq<Sample>)
    ensures Legal(PhaseOf(m.state), Run(cfg, m, samples).events)
    decreases |samples|
  {
    if samples != [] {
      var pressed := IsPressed(cfg.active, samples[0].level);
      var r := Step(cfg, m, pressed, samples[0].now);
      EventsFollowPressCycle(cfg, r.machine, samples[1..]);
      StepFollowsPressCycle(cfg, m, pressed, samples[0].now, Run(cfg, r.machine, samples[1..]).events);
    }
  }

  /** One scan either stays silently in its phase or announces the move to the next one. */
  lemma StepFollowsPressCycle(cfg: Config, m: Machine, pressed: bool, now: u32, rest: seq<KeyEvent>)
    requires Legal(PhaseOf(Step(cfg, m, pressed, now).machine.state), rest)
    ensures Legal(PhaseOf(m.state), Emitted(Step(cfg, m, pressed, now).event) + rest)
  {
    var r := Step(cfg, m, pressed, now);
    if r.event != EventNone {
      var events := [r.event] + rest;
      assert Emitted(r.event) + rest == events;
      assert events != [] && events[0] == r.event && events[1..] == rest;
      match m.state
      case StateDebounce =>
        assert r.machine.state == StatePressed;
      case StatePressed =>
        assert r.event == EventShortPress || r.event == EventLongPress;
      case StateLongPress => assert r.machine.state == StateIdle;
      case _ =>
    } else {
      assert Emitted(r.event) + rest == rest;
      assert PhaseOf(r.machine.state) == PhaseOf(m.state);
    }
  }
}
