/**
 * The poll-loop bookkeeping of the doorbell controller, on values: the
 * application flag byte, the timer record (three 32-bit millisecond counters
 * and the running mask), and what TimerControl, ResetRoutine and
 * UpdateTimings do to them. The class in module Board performs the same
 * operations in place and is proved against these functions.
 *
 * Two operations come in two versions. The AsWritten versions are the code as
 * it stands; the Intended versions are what the code evidently means (start
 * and stop guards the right way round, a timer loop that runs).
 */
module Timings {
  import opened StateBits

  /** Index of a counter in the timer record: 0 uptime, 1 lamp, 2 debounce. */
  type TimerId = i: nat | i < 3

  /** Field 0 of the record, u_lngLaufzeit (no timer id names it). */
  const LAUFZEIT: TimerId := 0
  /** Field 1, u_lngLeuchtdauer; also its bit in the running mask. */
  const TIMER_LEUCHTDAUER: TimerId := 1
  /** Field 2, u_lngEntpreller; also its bit in the running mask. */
  const TIMER_ENTPRELLER: TimerId := 2

  /** `unsigned long` on the board: 32 bits, arithmetic modulo 2^32. */
  const WRAP: int := 0x1_0000_0000
  type uint32 = x: int | 0 <= x < WRAP

  /** Unsigned 32-bit addition, wrapping around. */
  function Add32(a: uint32, b: uint32): (r: uint32)
    ensures r == (a + b) % WRAP
  {
    if a + b < WRAP then a + b else a + b - WRAP
  }

  /** Unsigned 32-bit subtraction, wrapping around. */
  function Sub32(a: uint32, b: uint32): (r: uint32)
    ensures r == (a - b) % WRAP
  {
    if a >= b then a - b else a - b + WRAP
  }

  /** Uptime in milliseconds above which UpdateTimings resets the board. */
  const OVERFLOW_LIMIT: uint32 := 0xFFA0

  /** The two global state words and the three counters of the timer record. */
  datatype Snapshot = Snapshot(flags: bv8, mask: bv8, counters: seq<uint32>)

  type State = s: Snapshot | |s.counters| == 3 witness Snapshot(0, 0, [0, 0, 0])

  /** Every global is zero when the board starts. */
  const Boot: State := Snapshot(0, 0, [0, 0, 0])

  /** Counter `id` is accumulating time. */
  predicate Running(s: State, id: TimerId) {
    GetState(id, s.mask)
  }

  /** The counters of `r` and `s` agree everywhere except at `id`. */
  predicate OthersUnchanged(r: State, s: State, id: TimerId) {
    forall j: TimerId :: j != id ==> r.counters[j] == s.counters[j]
  }

  // ---------------------------------------------------------------------------
  // TimerControl

  /**
   * TimerControl as written. Starting sets the running bit only when it is
   * already set; stopping clears it only when it is already clear, and then
   * zeroes the counter. So the mask never changes, and the only effect is
   * that stopping a stopped timer zeroes its counter.
   */
  function TimerControlAsWritten(s: State, id: TimerId, start: bool): (r: State)
    ensures r.flags == s.flags && r.mask == s.mask
    ensures OthersUnchanged(r, s, id)
    ensures r.counters[id] == (if !start && !Running(s, id) then 0 else s.counters[id])
  {
    WithOwnBit(s.mask, id);
    if start then
      if GetState(id, s.mask) then s.(mask := WithBit(s.mask, id, true)) else s
    else
      if !GetState(id, s.mask) then
        s.(mask := WithBit(s.mask, id, false), counters := s.counters[id := 0])
      else s
  }

  /**
   * TimerControl with the guards the right way round: starting a stopped
   * timer marks it running, stopping a running timer clears its bit and
   * zeroes its counter, and either call on a timer already in the requested
   * state does nothing.
   */
  function TimerControlIntended(s: State, id: TimerId, start: bool): (r: State)
    ensures Running(r, id) == start
    ensures forall q: BitPos :: q != id ==> GetState(q, r.mask) == GetState(q, s.mask)
    ensures r.flags == s.flags
    ensures OthersUnchanged(r, s, id)
    ensures r.counters[id] == (if !start && Running(s, id) then 0 else s.counters[id])
    ensures Running(s, id) == start ==> r == s
  {
    WithOwnBit(s.mask, id);
    if start then
      if !GetState(id, s.mask) then s.(mask := WithBit(s.mask, id, true)) else s
    else
      if GetState(id, s.mask) then
        s.(mask := WithBit(s.mask, id, false), counters := s.counters[id := 0])
      else s
  }

  /**
   * The smallest case of the inverted start guard: at boot, starting the
   * lamp timer as written leaves it stopped; the intended code starts it.
   */
  lemma AsWrittenStartFromBoot()
    ensures !Running(TimerControlAsWritten(Boot, TIMER_LEUCHTDAUER, true), TIMER_LEUCHTDAUER)
    ensures Running(TimerControlIntended(Boot, TIMER_LEUCHTDAUER, true), TIMER_LEUCHTDAUER)
  {
    assert !Running(Boot, TIMER_LEUCHTDAUER);
  }

  /** Stopping a timer right after starting it leaves it clear and at zero. */
  lemma StopAfterStart(s: State, id: TimerId)
    ensures var r := TimerControlIntended(TimerControlIntended(s, id, true), id, false);
            !Running(r, id) && r.counters[id] == 0 && OthersUnchanged(r, s, id) && r.flags == s.flags
  {
  }

  /** Starting twice is starting once; stopping twice is stopping once. */
  lemma ControlIdempotent(s: State, id: TimerId, start: bool)
    ensures TimerControlIntended(TimerControlIntended(s, id, start), id, start)
            == TimerControlIntended(s, id, start)
  {
  }

  // ---------------------------------------------------------------------------
  // ResetRoutine

  /**
   * ResetRoutine: clears the lamp and debounce running bits, clears the
   * KLINGEL_PUSHED and KLINGEL_ROUTINE flags and zeroes the lamp and debounce
   * counters. The uptime counter and every other bit are untouched.
   */
  function Reset(s: State): (r: State)
    ensures r.counters == [s.counters[LAUFZEIT], 0, 0]
    ensures !Running(r, TIMER_LEUCHTDAUER) && !Running(r, TIMER_ENTPRELLER)
    ensures forall q: BitPos :: q != TIMER_LEUCHTDAUER && q != TIMER_ENTPRELLER ==>
              GetState(q, r.mask) == GetState(q, s.mask)
    ensures !GetState(STATE_KLINGEL_PUSHED, r.flags) && !GetState(STATE_KLINGEL_ROUTINE, r.flags)
    ensures forall q: BitPos :: q != STATE_KLINGEL_PUSHED && q != STATE_KLINGEL_ROUTINE ==>
              GetState(q, r.flags) == GetState(q, s.flags)
  {
    var mask := WithBit(WithBit(s.mask, TIMER_LEUCHTDAUER, false), TIMER_ENTPRELLER, false);
    var flags := WithBit(WithBit(s.flags, STATE_KLINGEL_PUSHED, false), STATE_KLINGEL_ROUTINE, false);
    Snapshot(flags, mask, s.counters[TIMER_LEUCHTDAUER := 0][TIMER_ENTPRELLER := 0])
  }

  /** Calling ResetRoutine twice is the same as calling it once. */
  lemma ResetIdempotent(s: State)
    ensures Reset(Reset(s)) == Reset(s)
  {
    var once, twice := Reset(s), Reset(Reset(s));
    forall q: BitPos ensures GetState(q, twice.mask) == GetState(q, once.mask) {
    }
    BitsDetermineByte(twice.mask, once.mask);
    forall q: BitPos ensures GetState(q, twice.flags) == GetState(q, once.flags) {
    }
    BitsDetermineByte(twice.flags, once.flags);
  }

  // ---------------------------------------------------------------------------
  // UpdateTimings

  /** A tick either asks for a board reset or yields the advanced state. */
  datatype TickOutcome = ResetRequested | Advanced(next: State)

  /** Adding the time elapsed since `before` to `before` gives `now`. */
  lemma CatchUp(before: uint32, now: uint32)
    ensures Add32(before, Sub32(now, before)) == now
  {
  }

  /**
   * The uptime step of UpdateTimings: the time since the last tick is
   * `now - Laufzeit` and is added to Laufzeit, which modulo 2^32 leaves
   * Laufzeit reading exactly `now`.
   */
  function AdvanceUptime(s: State, now: uint32): (r: State)
    ensures r.counters[LAUFZEIT] == now
    ensures OthersUnchanged(r, s, LAUFZEIT)
    ensures r.mask == s.mask && r.flags == s.flags
  {
    var before := s.counters[LAUFZEIT];
    var caughtUp := Add32(before, Sub32(now, before));
    CatchUp(before, now);
    s.(counters := s.counters[LAUFZEIT := caughtUp])
  }

  /**
   * UpdateTimings as written. Above OVERFLOW_LIMIT it asks for a reset before
   * any arithmetic; otherwise it advances the uptime counter. Its per-timer
   * loop `for (i = 0; i >= 7; i++)` fails its guard at i == 0, so no other
   * counter moves.
   */
  function TickAsWritten(s: State, now: uint32): (r: TickOutcome)
    ensures r.ResetRequested? <==> now > OVERFLOW_LIMIT
    ensures r.Advanced? ==> r.next.counters[LAUFZEIT] == now
    ensures r.Advanced? ==> OthersUnchanged(r.next, s, LAUFZEIT)
    ensures r.Advanced? ==> r.next.mask == s.mask && r.next.flags == s.flags
  {
    if now > OVERFLOW_LIMIT then ResetRequested else Advanced(AdvanceUptime(s, now))
  }

  /** One timer slot after a tick: a running slot gains `elapsed`, modulo 2^32. */
  function Advance(counter: uint32, running: bool, elapsed: uint32): uint32 {
    if running then Add32(counter, elapsed) else counter
  }

  /**
   * A running timer advanced over two successive spans gains what it gains
   * over the whole span, wrap-around included.
   */
  lemma CatchUpTwice(c: uint32, start: uint32, mid: uint32, now: uint32)
    ensures Add32(Add32(c, Sub32(mid, start)), Sub32(now, mid)) == Add32(c, Sub32(now, start))
  {
  }

  /**
   * The per-timer loop the code evidently intends, over the timer slots 1
   * and 2: each slot whose running bit is set gains `elapsed`.
   */
  function AdvanceTimers(s: State, elapsed: uint32): State {
    s.(counters := [s.counters[LAUFZEIT],
                    Advance(s.counters[TIMER_LEUCHTDAUER], Running(s, TIMER_LEUCHTDAUER), elapsed),
                    Advance(s.counters[TIMER_ENTPRELLER], Running(s, TIMER_ENTPRELLER), elapsed)])
  }

  /**
   * UpdateTimings with its loop running over the timer slots: the uptime
   * counter becomes `now`, and each running timer gains the time elapsed
   * since the previous tick.
   */
  function TickIntended(s: State, now: uint32): (r: TickOutcome)
    ensures r.ResetRequested? <==> now > OVERFLOW_LIMIT
    ensures r.Advanced? ==> r.next.counters[LAUFZEIT] == now
    ensures r.Advanced? ==> forall id: TimerId :: id != LAUFZEIT ==>
              r.next.counters[id] == if Running(s, id)
                                     then Add32(s.counters[id], Sub32(now, s.counters[LAUFZEIT]))
                                     else s.counters[id]
    ensures r.Advanced? ==> r.next.mask == s.mask && r.next.flags == s.flags
  {
    if now > OVERFLOW_LIMIT then ResetRequested
    else Advanced(AdvanceTimers(AdvanceUptime(s, now), Sub32(now, s.counters[LAUFZEIT])))
  }

  // ---------------------------------------------------------------------------
  // Sequences of poll-loop events

  /** What the main loop may do to the bookkeeping in one step. */
  datatype Event = Control(id: TimerId, start: bool) | ResetRoutine | Tick(now: uint32)

  /** One step of the code as written; a reset request restarts the board. */
  function StepAsWritten(s: State, e: Event): State {
    match e
    case Control(id, start) => TimerControlAsWritten(s, id, start)
    case ResetRoutine => Reset(s)
    case Tick(now) =>
      match TickAsWritten(s, now)
      case ResetRequested => Boot
      case Advanced(next) => next
  }

  function RunAsWritten(s: State, es: seq<Event>): State
    decreases |es|
  {
    if es == [] then s else RunAsWritten(StepAsWritten(s, es[0]), es[1..])
  }

  /** One step of the intended code; a reset request restarts the board. */
  function StepIntended(s: State, e: Event): State {
    match e
    case Control(id, start) => TimerControlIntended(s, id, start)
    case ResetRoutine => Reset(s)
    case Tick(now) =>
      match TickIntended(s, now)
      case ResetRequested => Boot
      case Advanced(next) => next
  }

  function RunIntended(s: State, es: seq<Event>): State
    decreases |es|
  {
    if es == [] then s else RunIntended(StepIntended(s, es[0]), es[1..])
  }

  /**
   * What the code as written keeps true forever: no running bit is ever set,
   * the lamp and debounce counters stay at zero, and uptime never exceeds
   * OVERFLOW_LIMIT.
   */
  predicate Frozen(s: State) {
    s.mask == 0 && s.counters[TIMER_LEUCHTDAUER] == 0 && s.counters[TIMER_ENTPRELLER] == 0
    && s.counters[LAUFZEIT] <= OVERFLOW_LIMIT
  }

  /**
   * As written, no sequence of TimerControl, ResetRoutine and UpdateTimings
   * calls from boot ever starts a timer: the lamp and debounce counters never
   * leave zero, and the board is reset within 0xFFA0 ms of uptime.
   */
  lemma {:induction false} AsWrittenStaysFrozen(s: State, es: seq<Event>)
    requires Frozen(s)
    ensures Frozen(RunAsWritten(s, es))
    decreases |es|
  {
    if es != [] {
      var t := StepAsWritten(s, es[0]);
      if es[0].ResetRoutine? {
        forall q: BitPos ensures GetState(q, t.mask) == GetState(q, s.mask) {
        }
        BitsDetermineByte(t.mask, s.mask);
      }
      AsWrittenStaysFrozen(t, es[1..]);
    }
  }

  /** A run made only of ticks none of which asks for a reset. */
  predicate QuietTicks(es: seq<Event>) {
    forall k :: 0 <= k < |es| ==> es[k].Tick? && es[k].now <= OVERFLOW_LIMIT
  }

  /**
   * As written, a running timer does not accumulate time: over any run of
   * ticks its counter stays where it was.
   */
  lemma {:induction false} AsWrittenRunningTimerStalls(s: State, es: seq<Event>, id: TimerId)
    requires QuietTicks(es) && id != LAUFZEIT && Running(s, id)
    ensures RunAsWritten(s, es).counters[id] == s.counters[id]
    ensures Running(RunAsWritten(s, es), id)
    decreases |es|
  {
    if es != [] {
      assert QuietTicks(es[1..]) by {
        forall k | 0 <= k < |es[1..]| ensures es[1..][k] == es[k + 1] {
        }
      }
      AsWrittenRunningTimerStalls(StepAsWritten(s, es[0]), es[1..], id);
    }
  }

  /** The smallest case of the stall: one tick 100 ms after boot. */
  lemma AsWrittenLampTimerStallsAt100ms()
    ensures var s := Boot.(mask := Mask(TIMER_LEUCHTDAUER));
            RunAsWritten(s, [Tick(100)]).counters[TIMER_LEUCHTDAUER] == 0
            && RunIntended(s, [Tick(100)]).counters[TIMER_LEUCHTDAUER] == 100
  {
    var s := Boot.(mask := Mask(TIMER_LEUCHTDAUER));
    assert Running(s, TIMER_LEUCHTDAUER);
    assert StepAsWritten(s, Tick(100)).counters[TIMER_LEUCHTDAUER] == 0;
    assert StepIntended(s, Tick(100)).counters[TIMER_LEUCHTDAUER] == 100;
  }

  /**
   * Intended behaviour: over any run of ticks that starts with a running
   * timer, the timer gains exactly the uptime elapsed since the run began
   * (modulo 2^32), however that time was split into ticks.
   */
  lemma {:induction false} IntendedRunningTimerAdds(s: State, es: seq<Event>, id: TimerId)
    requires QuietTicks(es) && es != [] && id != LAUFZEIT && Running(s, id)
    ensures var r := RunIntended(s, es);
            r.counters[LAUFZEIT] == es[|es| - 1].now
            && r.counters[id] == Add32(s.counters[id], Sub32(es[|es| - 1].now, s.counters[LAUFZEIT]))
            && Running(r, id)
    decreases |es|
  {
    var first, last := es[0].now, es[|es| - 1].now;
    var t := StepIntended(s, es[0]);
    IntendedTickAdds(s, first, id);
    if |es| > 1 {
      assert QuietTicks(es[1..]) by {
        forall k | 0 <= k < |es[1..]| ensures es[1..][k] == es[k + 1] {
        }
      }
      IntendedRunningTimerAdds(t, es[1..], id);
      CatchUpTwice(s.counters[id], s.counters[LAUFZEIT], first, last);
    }
  }

  /** One quiet intended tick: a running timer gains the time since the last tick. */
  lemma IntendedTickAdds(s: State, now: uint32, id: TimerId)
    requires now <= OVERFLOW_LIMIT && id != LAUFZEIT && Running(s, id)
    ensures var t := StepIntended(s, Tick(now));
            t.counters[LAUFZEIT] == now && Running(t, id)
            && t.counters[id] == Add32(s.counters[id], Sub32(now, s.counters[LAUFZEIT]))
  {
    assert StepIntended(s, Tick(now)) == TickIntended(s, now).next;
  }

  /**
   * Intended behaviour: a run of ticks is a no-op for every stopped timer.
   */
  lemma {:induction false} IntendedStoppedTimerHolds(s: State, es: seq<Event>, id: TimerId)
    requires QuietTicks(es) && id != LAUFZEIT && !Running(s, id)
    ensures RunIntended(s, es).counters[id] == s.counters[id]
    ensures !Running(RunIntended(s, es), id)
    decreases |es|
  {
    if es != [] {
      assert QuietTicks(es[1..]) by {
        forall k | 0 <= k < |es[1..]| ensures es[1..][k] == es[k + 1] {
        }
      }
      IntendedStoppedTimerHolds(StepIntended(s, es[0]), es[1..], id);
    }
  }
}
