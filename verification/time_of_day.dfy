/** Time of day without a date, as `java.time.LocalTime` is used by the billing code:
    whole seconds since midnight. */
module TimeOfDay {

  const SECONDS_PER_DAY: nat := 86400

  /** A second of the day, 00:00:00 .. 23:59:59. */
  type Time = n: nat | n < 86400

  /** The fields `LocalTime.parse` accepts in the text "HH:MM:SS". */
  predicate IsTimeOfDay(h: nat, m: nat, s: nat) {
    h < 24 && m < 60 && s < 60
  }

  /** The second of the day named by hour `h`, minute `m` and second `s`;
      the fields can be read back from it, so distinct fields give distinct times. */
  function SecondOfDay(h: nat, m: nat, s: nat): (t: Time)
    requires IsTimeOfDay(h, m, s)
    ensures t / 3600 == h
    ensures t % 3600 / 60 == m
    ensures t % 60 == s
  {
    h * 3600 + m * 60 + s
  }
}
