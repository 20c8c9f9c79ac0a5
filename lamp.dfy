/**
 * The two pure queries of the lamp side: whether a door button is pressed,
 * and which mode LeuchtRoutine drives the two indicator LEDs in. The
 * brightness value itself (intAnalogValue) is not modelled; a breathing LED
 * is described by the period it would be given.
 */
module Lamp {
  import opened StateBits
  import opened Timings

  /** Levels read from the five button inputs; true is HIGH (not pressed). */
  datatype Buttons = Buttons(timm: bool, bobby: bool, till: bool, tobi: bool, franz: bool)
  {
    function Levels(): seq<bool> {
      [timm, bobby, till, tobi, franz]
    }
  }

  /** bButtonPushed: a button is pressed when its input reads LOW. */
  function ButtonPushed(b: Buttons): (r: bool)
    ensures r <==> false in b.Levels()
  {
    !(b.timm && b.bobby && b.till && b.tobi && b.franz)
  }

  /** The two breathing periods LeuchtRoutine passes to intAnalogValue. */
  datatype Period =
    | Fast    // CONST_LEUCHTFREQUENZ * CONST_LEUCHT_MULT, while a button is held
    | Normal  // CONST_LEUCHTFREQUENZ, after a ring

  /** What one LED pin is given: an analog breathing value or a digital LOW. */
  datatype Output = Breathing(period: Period) | Low

  /** The outputs for OUT_BLINKLED and OUT_TESTLED. */
  datatype LampDrive = LampDrive(blinkLed: Output, testLed: Output)

  /**
   * LeuchtRoutine: a pressed button makes both LEDs breathe fast; otherwise
   * the KLINGEL_PUSHED flag makes them breathe at the normal period; otherwise
   * both are driven LOW.
   */
  function LeuchtRoutine(b: Buttons, flags: bv8): (d: LampDrive)
    ensures d.blinkLed == d.testLed
    ensures d.blinkLed == Breathing(Fast) <==> ButtonPushed(b)
    ensures d.blinkLed == Breathing(Normal) <==>
              !ButtonPushed(b) && GetState(STATE_KLINGEL_PUSHED, flags)
    ensures d.blinkLed == Low <==> b.Levels() == [true, true, true, true, true]
                                   && !GetState(STATE_KLINGEL_PUSHED, flags)
  {
    if ButtonPushed(b) then LampDrive(Breathing(Fast), Breathing(Fast))
    else if GetState(STATE_KLINGEL_PUSHED, flags) then LampDrive(Breathing(Normal), Breathing(Normal))
    else LampDrive(Low, Low)
  }

  /** Of the flag byte, LeuchtRoutine looks at the KLINGEL_PUSHED bit only. */
  lemma LeuchtRoutineReadsPushedOnly(b: Buttons, f: bv8, g: bv8)
    requires GetState(STATE_KLINGEL_PUSHED, f) == GetState(STATE_KLINGEL_PUSHED, g)
    ensures LeuchtRoutine(b, f) == LeuchtRoutine(b, g)
  {
  }

  /** After ResetRoutine the LEDs go dark unless a button is still held. */
  lemma DarkAfterReset(b: Buttons, s: State)
    ensures LeuchtRoutine(b, Reset(s).flags).blinkLed == if ButtonPushed(b) then Breathing(Fast) else Low
  {
  }
}
