/**
 * The controller's global state as the source keeps it: the application flag
 * byte and the timer record, updated in place by the routines of utility.h.
 * Each method is proved to have exactly the effect of its counterpart in
 * module Timings on the snapshot of the globals.
 */
module Board {
  import opened StateBits
  import opened Timings

  class Controller {
    /** The application flag byte (ADRESS_STATES_GENERIC). */
    const flags: StateByte
    /** The timer record's bytState, its running mask (ADRESS_STATES_TIMER). */
    const mask: StateByte
    /** The timer record's counters, by timer id: Laufzeit, Leuchtdauer, Entpreller. */
    const counters: array<uint32>

    ghost predicate Valid() {
      flags != mask && counters.Length == 3
    }

    /** The values the globals hold right now; the methods are proved against it. */
    function Snap(): State
      requires Valid()
      reads flags, mask, counters
    {
      Snapshot(flags.bits, mask.bits, counters[..])
    }

    /** The globals at power-up: every byte and counter zero. */
    constructor ()
      ensures Valid() && Snap() == Boot
      ensures fresh(flags) && fresh(mask) && fresh(counters)
    {
      flags := new StateByte();
      mask := new StateByte();
      counters := new uint32[3](_ => 0);
      new;
      assert counters[..] == [0, 0, 0];
    }

    /** TimerControl as written: see TimerControlAsWritten for what it does. */
    method TimerControl(id: TimerId, start: bool)
      requires Valid()
      modifies mask, counters
      ensures Snap() == TimerControlAsWritten(old(Snap()), id, start)
    {
      if start {
        if GetState(id, mask.bits) {
          SetState(id, mask, true);
        }
      } else {
        if !GetState(id, mask.bits) {
          SetState(id, mask, false);
          counters[id] := 0;
        }
      }
    }

    /** TimerControl with its two guards negated, as the code evidently means. */
    method TimerControlFixed(id: TimerId, start: bool)
      requires Valid()
      modifies mask, counters
      ensures Snap() == TimerControlIntended(old(Snap()), id, start)
    {
      if start {
        if !GetState(id, mask.bits) {
          SetState(id, mask, true);
        }
      } else {
        if GetState(id, mask.bits) {
          SetState(id, mask, false);
          counters[id] := 0;
        }
      }
    }

    /** ResetRoutine: stops the lamp and debounce timers and clears the ring flags. */
    method ResetRoutine()
      requires Valid()
      modifies flags, mask, counters
      ensures Snap() == Reset(old(Snap()))
    {
      SetState(TIMER_LEUCHTDAUER, mask, false);
      SetState(TIMER_ENTPRELLER, mask, false);
      SetState(STATE_KLINGEL_PUSHED, flags, false);
      SetState(STATE_KLINGEL_ROUTINE, flags, false);
      counters[TIMER_LEUCHTDAUER] := 0;
      counters[TIMER_ENTPRELLER] := 0;
    }

    /**
     * UpdateTimings as written, with `now` the reading of millis(). A true
     * result is the call of ResetFunc: the board restarts and nothing after
     * it runs, so the globals are left as they were.
     */
    method UpdateTimings(now: uint32) returns (resetRequested: bool)
      requires Valid()
      modifies counters
      ensures resetRequested == TickAsWritten(old(Snap()), now).ResetRequested?
      ensures resetRequested ==> Snap() == old(Snap())
      ensures !resetRequested ==> Snap() == TickAsWritten(old(Snap()), now).next
    {
      if now > OVERFLOW_LIMIT {
        return true;
      }
      var updateTime := Sub32(now, counters[LAUFZEIT]);
      counters[LAUFZEIT] := Add32(counters[LAUFZEIT], updateTime);
      // The per-timer loop `for (i = 0; i >= 7; i++)` stops before its first
      // iteration, since 0 >= 7 is false; it changes nothing.
      return false;
    }

    /**
     * UpdateTimings with a loop that visits the timer slots 1 and 2 and adds
     * the elapsed time to each one whose running bit is set.
     */
    method UpdateTimingsFixed(now: uint32) returns (resetRequested: bool)
      requires Valid()
      modifies counters
      ensures resetRequested == TickIntended(old(Snap()), now).ResetRequested?
      ensures resetRequested ==> Snap() == old(Snap())
      ensures !resetRequested ==> Snap() == TickIntended(old(Snap()), now).next
    {
      if now > OVERFLOW_LIMIT {
        return true;
      }
      var updateTime := Sub32(now, counters[LAUFZEIT]);
      counters[LAUFZEIT] := Add32(counters[LAUFZEIT], updateTime);
      var i := 1;
      while i < 3
        invariant 1 <= i <= 3
        invariant counters[LAUFZEIT] == Add32(old(counters[LAUFZEIT]), updateTime)
        invariant forall j :: 1 <= j < i ==>
                    counters[j] == Advance(old(counters[j]), GetState(j, mask.bits), updateTime)
        invariant forall j :: i <= j < 3 ==> counters[j] == old(counters[j])
      {
        if GetState(i, mask.bits) {
          counters[i] := Add32(counters[i], updateTime);
        }
        i := i + 1;
      }
      CatchUp(old(counters[LAUFZEIT]), now);
      return false;
    }
  }
}
