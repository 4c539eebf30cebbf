/** Durations (`std::time::Duration`) as whole nanoseconds, and their `Debug`
    rendering. */
module Durations {
  import opened Text

  const NanosPerSec: nat := 1_000_000_000

  type Duration = nat

  function FromSecs(s: nat): (d: Duration)
    ensures AsSecs(d) == s
  {
    s * NanosPerSec
  }

  /** `Duration::as_secs`: whole seconds, rounded down. */
  function AsSecs(d: Duration): nat {
    d / NanosPerSec
  }

  function Pow10(n: nat): (p: nat)
    ensures p > 0
  {
    if n == 0 then 1 else 10 * Pow10(n - 1)
  }

  /** The fractional digits Rust's `Debug` prints for a duration: `frac` as a
      `width`-digit decimal fraction, stopping as soon as the rest is zero. */
  function FracDigits(frac: nat, width: nat): (s: string)
    requires frac < Pow10(width)
    ensures forall i :: 0 <= i < |s| ==> IsDigit(s[i])
  {
    if frac == 0 || width == 0 then ""
    else
      var unit := Pow10(width - 1);
      DigitBound(frac, unit);
      [DigitChar(frac / unit)] + FracDigits(frac % unit, width - 1)
  }

  /** The leading digit of a value below `10 * unit` is a single digit. */
  lemma DigitBound(frac: nat, unit: nat)
    requires unit > 0 && frac < 10 * unit
    ensures frac / unit < 10 && frac % unit < unit
  {
    assert (frac / unit) * unit <= frac;
  }

  function Decimal(integer: nat, frac: nat, width: nat, suffix: string): string
    requires frac < Pow10(width)
  {
    var f := FracDigits(frac, width);
    NatToString(integer) + (if f == "" then "" else "." + f) + suffix
  }

  /** `Debug` of a `Duration` without a requested precision: seconds when at
      least one second, else milliseconds, microseconds or nanoseconds,
      with trailing zeros of the fraction dropped. */
  function DurationDebug(d: Duration): string {
    var secs := d / NanosPerSec;
    var nanos := d % NanosPerSec;
    if secs > 0 then Decimal(secs, nanos, 9, "s")
    else if nanos >= 1_000_000 then Decimal(nanos / 1_000_000, nanos % 1_000_000, 6, "ms")
    else if nanos >= 1_000 then Decimal(nanos / 1_000, nanos % 1_000, 3, "µs")
    else Decimal(nanos, 0, 0, "ns")
  }

  /** A whole number of seconds renders as that number followed by `s`. */
  lemma WholeSecondsDebug(s: nat)
    requires s > 0
    ensures DurationDebug(FromSecs(s)) == NatToString(s) + "s"
  {
    assert FromSecs(s) / NanosPerSec == s;
    assert FromSecs(s) % NanosPerSec == 0;
  }
}
