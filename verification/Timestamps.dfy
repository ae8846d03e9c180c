// Timestamps of the event hub. A `time.Time` is modelled as the number of
// nanoseconds since the Unix epoch; a stored cursor is an `int64` whose unit
// (seconds, millis, micros, nanos) is inferred from its magnitude.
module Timestamps {

  const MILLIS_THRESHOLD := 100_000_000_000
  const MICROS_THRESHOLD := 100_000_000_000_000
  const NANOS_THRESHOLD := 100_000_000_000_000_000
  const INT64_LIMIT := 0x8000_0000_0000_0000

  datatype Unit = Seconds | Millis | Micros | Nanos

  /** Nanoseconds in one tick of the unit. */
  function Tick(u: Unit): (n: int)
    ensures n > 0
  {
    match u
    case Seconds => 1_000_000_000
    case Millis => 1_000_000
    case Micros => 1_000
    case Nanos => 1
  }

  /** The unit that the decoder infers for a stored number. */
  function InferUnit(ts: int): Unit {
    if ts >= NANOS_THRESHOLD then Nanos
    else if ts >= MICROS_THRESHOLD then Micros
    else if ts >= MILLIS_THRESHOLD then Millis
    else Seconds
  }

  /** The instant, in nanoseconds, that a stored number stands for. */
  function UnixTimestampToTime(ts: int): int {
    ts * Tick(InferUnit(ts))
  }

  /** The number stored for an instant in a given unit (`Unix`, `UnixMilli`, `UnixMicro`, `UnixNano`). */
  function Encode(instant: int, u: Unit): int {
    instant / Tick(u)
  }

  /** The instant with everything below one tick of the unit dropped. */
  function Truncate(instant: int, u: Unit): int {
    instant - instant % Tick(u)
  }

  /** Instants a running clock can produce: 10^17 ns (March 1973) up to the int64 nanosecond limit. */
  predicate ClockRange(t: int) {
    NANOS_THRESHOLD <= t < INT64_LIMIT
  }

  /** Instants from 10^8 to 10^11 seconds after the epoch. */
  predicate InferableInstant(instant: int) {
    100_000_000 * Tick(Seconds) <= instant < 100_000_000_000 * Tick(Seconds)
  }

  /** The numeric band of one unit. */
  predicate InBand(ts: int, u: Unit) {
    match u
    case Seconds => ts < MILLIS_THRESHOLD
    case Millis => MILLIS_THRESHOLD <= ts < MICROS_THRESHOLD
    case Micros => MICROS_THRESHOLD <= ts < NANOS_THRESHOLD
    case Nanos => NANOS_THRESHOLD <= ts
  }

  /** Every number lies in exactly one band, and that band names the inferred unit. */
  lemma BandsPartition(ts: int, u: Unit)
    ensures InBand(ts, u) <==> InferUnit(ts) == u
  {
  }

  lemma TruncateIsWholeTicks(instant: int, u: Unit)
    ensures Encode(instant, u) * Tick(u) == Truncate(instant, u)
  {
    var n := Tick(u);
    assert instant == n * (instant / n) + instant % n;
    assert (instant / n) * n == n * (instant / n);
  }

  /** Decoding an encoded instant gives the instant cut to the unit, for every unit
      and every instant between 10^8 and 10^11 seconds, whatever the unit. */
  lemma UnitInferenceIsExact(instant: int, u: Unit)
    requires InferableInstant(instant)
    ensures UnixTimestampToTime(Encode(instant, u)) == Truncate(instant, u)
    ensures forall w: Unit :: InBand(Encode(instant, u), w) <==> w == u
  {
    TruncateIsWholeTicks(instant, u);
    assert InBand(Encode(instant, u), u) by {
      match u {
        case Seconds =>
        case Millis =>
        case Micros =>
        case Nanos =>
      }
    }
    forall w: Unit ensures InBand(Encode(instant, u), w) <==> w == u {
      BandsPartition(Encode(instant, u), u);
      BandsPartition(Encode(instant, u), w);
    }
  }

  /** Exactly when inference is right: the encoded number is in the band of its unit
      (or is zero, which every unit decodes to the epoch). */
  lemma InferenceRightIffInBand(instant: int, u: Unit)
    ensures UnixTimestampToTime(Encode(instant, u)) == Truncate(instant, u)
       <==> Encode(instant, u) == 0 || InBand(Encode(instant, u), u)
  {
    TruncateIsWholeTicks(instant, u);
    var ts := Encode(instant, u);
    BandsPartition(ts, u);
    var w := InferUnit(ts);
    if ts != 0 && w != u {
      assert Tick(w) != Tick(u);
      NonzeroProductsDiffer(ts, Tick(w), Tick(u));
    }
  }

  lemma NonzeroProductsDiffer(a: int, m: int, n: int)
    requires a != 0 && m != n
    ensures a * m != a * n
  {
    assert a * m - a * n == a * (m - n);
  }

  /** A cursor written as nanoseconds of a clock instant survives the round trip. */
  lemma CursorRoundTrip(t: int)
    requires ClockRange(t)
    ensures UnixTimestampToTime(t) == t
  {
  }
}
