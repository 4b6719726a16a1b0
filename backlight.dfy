/** The backlight line is active low: the driven duty is the inverted brightness. */
module Backlight {
  import opened Types

  /** The PWM duty `setBacklight(b)` drives for brightness `b`.  Computing `255 - b` on
      bytes cannot underflow: the result type makes Dafny check that it is again a byte. */
  function Duty(b: uint8): uint8 {
    255 - b
  }

  /** Inverting twice gives the brightness back, so distinct levels drive distinct duties. */
  lemma DutyInvolution(b: uint8)
    ensures Duty(Duty(b)) == b
  {
  }

  /** A brighter level never drives a larger duty. */
  lemma DutyAntitone(a: uint8, b: uint8)
    requires a <= b
    ensures Duty(b) <= Duty(a)
  {
  }

  lemma DutyExamples()
    ensures Duty(0) == 255 && Duty(255) == 0 && Duty(100) == 155
  {
  }
}
