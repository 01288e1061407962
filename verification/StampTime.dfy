/**
 Times on the wire: 32 bits of seconds since 1900 and 32 bits of a second's fraction, the NTP format of
 section 6 of RFC 5905 (libs/stamp/timestamp.go). A time is the number of nanoseconds since the Unix epoch.
 */
module StampTime {
  const NTP_UNIX_OFFSET := 2208988800
  const SECOND := 1_000_000_000
  const WORD := 0x1_0000_0000

  type Word = n: int | 0 <= n < WORD

  datatype Timestamp = Timestamp(seconds: Word, fraction: Word)

  function UnixSeconds(t: int): int {
    t / SECOND
  }

  function Nanos(t: int): nat {
    t % SECOND
  }

  lemma FractionFits(nanos: nat)
    requires nanos < SECOND
    ensures nanos * WORD / SECOND < WORD
  {
  }

  function ToNtp(t: int): Timestamp {
    FractionFits(Nanos(t));
    Timestamp((UnixSeconds(t) + NTP_UNIX_OFFSET) % WORD, Nanos(t) * WORD / SECOND)
  }

  function FromNtp(ts: Timestamp): int {
    (ts.seconds - NTP_UNIX_OFFSET) * SECOND + ts.fraction * SECOND / WORD
  }

  /** From 1900 until the seconds wrap in 2036. */
  predicate InEra(t: int) {
    0 <= UnixSeconds(t) + NTP_UNIX_OFFSET < WORD
  }

  /** 5^9: a nanosecond is a whole number of 2^-32 seconds exactly for its multiples. */
  const GRAIN := 1953125

  /** What the conversion loses. */
  function Lost(t: int): nat {
    if Nanos(t) % GRAIN == 0 then 0 else 1
  }

  lemma GrainMultiple(n: int, k: int)
    requires n == k * GRAIN
    ensures n % GRAIN == 0
  {
  }

  lemma SecondMultiple(n: int, k: int)
    requires n == k * SECOND
    ensures n % SECOND == 0
  {
  }

  /** 2^23 and 5^9 have no common factor: 3054701 * 5^9 - 711228 * 2^23 == 1. */
  lemma GrainIsCoprime(n: int, k: int)
    requires n * WORD == k * SECOND
    ensures n == (3054701 * n - 711228 * k) * GRAIN
  {
  }

  lemma GrainDivides(n: nat)
    ensures n * WORD % SECOND == 0 <==> n % GRAIN == 0
  {
    var k, m := n * WORD / SECOND, n / GRAIN;
    if n * WORD % SECOND == 0 {
      GrainIsCoprime(n, k);
      GrainMultiple(n, 3054701 * n - 711228 * k);
    } else if n % GRAIN == 0 {
      SecondMultiple(n * WORD, m * 0x80_0000);
    }
  }

  lemma FractionRoundTrip(n: nat)
    requires n < SECOND
    ensures (n * WORD / SECOND) * SECOND / WORD == n - if n % GRAIN == 0 then 0 else 1
  {
    GrainDivides(n);
    var f := n * WORD / SECOND;
    var r := n * WORD % SECOND;
    assert n * WORD == f * SECOND + r;
    if r == 0 {
      assert f * SECOND == n * WORD + 0;
    } else {
      assert f * SECOND == (n - 1) * WORD + (WORD - r);
    }
  }

  lemma SplitTime(t: int)
    ensures t == UnixSeconds(t) * SECOND + Nanos(t)
  {
  }

  lemma SecondsOf(s: int, n: nat)
    requires n < SECOND
    ensures UnixSeconds(s * SECOND + n) == s && Nanos(s * SECOND + n) == n
  {
  }

  /** In the first NTP era the conversion there and back loses nothing if the nanoseconds are a multiple
      of 5^9 and one nanosecond otherwise, and never a second. */
  lemma RoundTrip(t: int)
    requires InEra(t)
    ensures FromNtp(ToNtp(t)) == t - Lost(t)
    ensures FromNtp(ToNtp(t)) == t <==> Nanos(t) % GRAIN == 0
    ensures UnixSeconds(FromNtp(ToNtp(t))) == UnixSeconds(t)
  {
    SplitTime(t);
    FractionRoundTrip(Nanos(t));
    if Nanos(t) % GRAIN != 0 {
      assert Nanos(t) > 0;
    }
    SecondsOf(UnixSeconds(t), Nanos(t) - Lost(t));
  }

  /** Outside it the result is off by whole eras of 2^32 seconds. */
  lemma RoundTripIffInEra(t: int)
    ensures t - 1 <= FromNtp(ToNtp(t)) <= t <==> InEra(t)
  {
    if InEra(t) {
      RoundTrip(t);
    } else {
      SplitTime(t);
      FractionRoundTrip(Nanos(t));
      var s := UnixSeconds(t) + NTP_UNIX_OFFSET;
      var era := s / WORD;
      assert era != 0;
      assert FromNtp(ToNtp(t)) == t - Lost(t) - era * WORD * SECOND;
    }
  }

  /** The 64 bits on the wire as one number. */
  function Bits(ts: Timestamp): nat {
    ts.seconds * WORD + ts.fraction
  }

  lemma FractionGrows(n: nat, m: nat)
    requires n < m
    ensures n * WORD / SECOND < m * WORD / SECOND
  {
    assert m * WORD >= n * WORD + WORD;
  }

  /** Later times have later timestamps. */
  lemma OrderPreserving(t: int, u: int)
    requires InEra(t) && InEra(u) && t < u
    ensures Bits(ToNtp(t)) < Bits(ToNtp(u))
  {
    SplitTime(t);
    SplitTime(u);
    if UnixSeconds(t) == UnixSeconds(u) {
      FractionGrows(Nanos(t), Nanos(u));
    }
  }

  /** The epochs: 1900 is zero on the wire, 1970 is the offset, and 2036 wraps to zero again. */
  lemma EpochsOnTheWire()
    ensures ToNtp(-NTP_UNIX_OFFSET * SECOND) == Timestamp(0, 0)
    ensures ToNtp(0) == Timestamp(2208988800, 0)
    ensures ToNtp((WORD - NTP_UNIX_OFFSET) * SECOND) == Timestamp(0, 0)
    ensures ToNtp(SECOND / 2) == Timestamp(2208988800, 0x8000_0000)
  {
  }
}
