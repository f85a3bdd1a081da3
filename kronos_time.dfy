/** Conversions between Python datetimes, timedeltas, epoch seconds and Kronos
    timestamps (pykronos/pykronos/utils/time.py).

    A Kronos timestamp counts 100 ns ticks since 1970-01-01T00:00:00 UTC.
    Python floats are modelled as exact reals, so every product below is the
    exact one; `int()` on a float truncates toward zero and is written out as
    TruncReal, because Dafny's `/` and `.Floor` round downward. */
module KronosTime {
  import opened Wrappers

  /** Kronos ticks per second: one tick is 100 ns. */
  const TicksPerSecond: int := 10000000

  const MicrosPerSecond: int := 1000000

  /** 0001-01-01T00:00:00 and 9999-12-31T23:59:59.999999, the first and last
      instants a Python datetime can hold, in microseconds from 1970-01-01T00:00:00. */
  const MinDatetimeMicros: int := -62135596800 * 1000000
  const MaxDatetimeMicros: int := 253402300800 * 1000000 - 1

  /** A Python datetime. `wallMicros` is the instant its fields name, read as if
      they were UTC, in microseconds from 1970-01-01T00:00:00; `utcOffset` is the
      offset its tzinfo reports, in microseconds, or None for a naive datetime. */
  datatype Datetime = Datetime(wallMicros: int, utcOffset: Option<int>)

  /** A Python timedelta, by its exact length in microseconds. */
  datatype Timedelta = Timedelta(micros: int)

  /** The exception Python raises when a result leaves the datetime range. */
  datatype TimeError = OutOfRange

  /** The two kinds of value `len(key) and key.startswith('@')` can produce. */
  datatype PyValue = PyInt(i: int) | PyBool(b: bool)

  predicate Truthy(v: PyValue)
  {
    match v
    case PyInt(i) => i != 0
    case PyBool(b) => b
  }

  predicate InDatetimeRange(micros: int)
  {
    MinDatetimeMicros <= micros <= MaxDatetimeMicros
  }

  /** Python's `int()` on a float: the integer part, truncated toward zero. */
  function TruncReal(x: real): (r: int)
    ensures 0.0 <= x ==> 0 <= r && r as real <= x < r as real + 1.0
    ensures x < 0.0 ==> r <= 0 && r as real - 1.0 < x <= r as real
  {
    if x >= 0.0 then x.Floor else -((-x).Floor)
  }

  /** Integer division rounded toward zero, the reference the conversions are
      compared with; Dafny's own `/` is Euclidean. */
  function TruncDiv(a: int, d: int): (q: int)
    requires d > 0
    ensures 0 <= a ==> 0 <= q && q * d <= a < q * d + d
    ensures a < 0 ==> q <= 0 && q * d - d < a <= q * d
  {
    if a >= 0 then
      DivBounds(a, d);
      a / d
    else
      DivBounds(-a, d);
      var m := (-a) / d;
      assert (-m) * d == -(m * d);
      -m
  }

  /** Euclidean division of a natural number: the quotient's multiple of the
      divisor is at most the dividend and less than one divisor below it. */
  lemma DivBounds(n: int, d: int)
    requires 0 <= n && d > 0
    ensures 0 <= n / d && (n / d) * d <= n < (n / d) * d + d
  {
    var q, r := n / d, n % d;
    assert n == q * d + r && 0 <= r < d;
  }

  /** `EPOCH`: 1970-01-01T00:00:00 tagged with the UTC timezone (time.py:5). */
  const Epoch: Datetime := Datetime(0, Some(0))

  /** The instant an aware datetime denotes, in microseconds since the epoch. */
  function UtcMicros(dt: Datetime): int
    requires dt.utcOffset.Some?
  {
    dt.wallMicros - dt.utcOffset.value
  }

  /** `dt.replace(tzinfo=tzutc())` applied to a naive datetime only (time.py:16-17). */
  function AssumeUtc(dt: Datetime): (r: Datetime)
    ensures r.utcOffset.Some? && r.wallMicros == dt.wallMicros
    ensures dt.utcOffset.Some? ==> r == dt
    ensures dt.utcOffset.None? ==> r.utcOffset == Some(0)
  {
    if dt.utcOffset.None? then dt.(utcOffset := Some(0)) else dt
  }

  /** Subtraction of two aware datetimes: both are moved to UTC first. */
  function Subtract(a: Datetime, b: Datetime): (r: Timedelta)
    requires a.utcOffset.Some? && b.utcOffset.Some?
    ensures UtcMicros(b) + r.micros == UtcMicros(a)
    ensures r.micros == 0 <==> UtcMicros(a) == UtcMicros(b)
  {
    Timedelta(UtcMicros(a) - UtcMicros(b))
  }

  /** `td.total_seconds()`, exactly. */
  function TotalSeconds(td: Timedelta): (r: real)
    ensures r * 1000000.0 == td.micros as real
    ensures r >= 0.0 <==> td.micros >= 0
  {
    td.micros as real / 1000000.0
  }

  /** `utcfromtimestamp(secs)` for a whole number of seconds: a naive datetime,
      or the exception when the year leaves 1..9999. */
  function UtcFromTimestamp(secs: int): (r: Result<Datetime, TimeError>)
    ensures r.Ok? <==> InDatetimeRange(secs * MicrosPerSecond)
    ensures r.Ok? ==> r.value.utcOffset.None?
  {
    var micros := secs * MicrosPerSecond;
    if InDatetimeRange(micros) then Ok(Datetime(micros, None)) else Err(OutOfRange)
  }

  /** `EPOCH + td` and the like: a datetime plus a timedelta keeps its tzinfo
      and fails when the sum leaves the datetime range. */
  function AddTimedelta(dt: Datetime, td: Timedelta): (r: Result<Datetime, TimeError>)
    ensures r.Ok? <==> InDatetimeRange(dt.wallMicros + td.micros)
    ensures r.Ok? ==> r.value.utcOffset == dt.utcOffset
  {
    var wall := dt.wallMicros + td.micros;
    if InDatetimeRange(wall) then Ok(Datetime(wall, dt.utcOffset)) else Err(OutOfRange)
  }

  /** `epoch_time_to_kronos_time` (time.py:27-28): seconds times 10^7, truncated. */
  function EpochTimeToKronosTime(time: real): (k: int)
    ensures 0.0 <= time ==> 0 <= k && k as real <= time * 10000000.0 < k as real + 1.0
    ensures time < 0.0 ==> k <= 0 && k as real - 1.0 < time * 10000000.0 <= k as real
  {
    TruncReal(time * 10000000.0)
  }

  /** `kronos_time_to_epoch_time` (time.py:31-32): ticks times 10^-7, truncated,
      which is whole seconds rounded toward zero. */
  function KronosTimeToEpochTime(time: int): (s: int)
    ensures s == TruncDiv(time, TicksPerSecond)
  {
    var x := time as real * 0.0000001;
    var q := TruncDiv(time, TicksPerSecond);
    var r := if time >= 0 then time - q * TicksPerSecond else q * TicksPerSecond - time;
    assert 0 <= r < TicksPerSecond;
    assert time >= 0 ==> x == q as real + r as real * 0.0000001;
    assert time < 0 ==> -x == (-q) as real + r as real * 0.0000001;
    TruncReal(x)
  }

  /** `datetime_to_kronos_time` (time.py:8-18): a naive datetime is read as UTC. */
  function DatetimeToKronosTime(dt: Datetime): (k: int)
    ensures k == 10 * UtcMicros(AssumeUtc(dt))
  {
    var utc := AssumeUtc(dt);
    var seconds := TotalSeconds(Subtract(utc, Epoch));
    assert seconds * 10000000.0 == (10 * UtcMicros(utc)) as real;
    EpochTimeToKronosTime(seconds)
  }

  /** `kronos_time_to_datetime` (time.py:21-24): whole seconds only, tagged UTC. */
  function KronosTimeToDatetime(time: int): (r: Result<Datetime, TimeError>)
    ensures r.Ok? <==> InDatetimeRange(TruncDiv(time, TicksPerSecond) * MicrosPerSecond)
    ensures r.Ok? ==> r.value.utcOffset == Some(0) && r.value.wallMicros % MicrosPerSecond == 0
  {
    match UtcFromTimestamp(KronosTimeToEpochTime(time))
    case Err(e) => Err(e)
    case Ok(dt) => Ok(dt.(utcOffset := Some(0)))
  }

  /** `kronos_time_now` (time.py:35-36), with the clock reading passed in as
      microseconds since the epoch. */
  function KronosTimeNow(clockMicros: int): (k: int)
    ensures k == 10 * clockMicros
  {
    DatetimeToKronosTime(Datetime(clockMicros, Some(0)))
  }

  function StartsWith(s: string, prefix: string): bool
  {
    |prefix| <= |s| && s[..|prefix|] == prefix
  }

  /** `is_kronos_reserved_key` (time.py:39-40): `0` for the empty key, otherwise
      whether it starts with `@`. */
  function IsKronosReservedKey(key: string): (r: PyValue)
    ensures Truthy(r) <==> |key| > 0 && key[0] == '@'
    ensures |key| == 0 ==> r == PyInt(0)
    ensures |key| > 0 ==> r.PyBool?
  {
    var n := |key|;
    if n == 0 then PyInt(n) else PyBool(StartsWith(key, "@"))
  }

  /** `timedelta_to_kronos_time` (time.py:43-44): the duration as an offset from `EPOCH`. */
  function TimedeltaToKronosTime(td: Timedelta): (r: Result<int, TimeError>)
    ensures r.Ok? <==> InDatetimeRange(td.micros)
    ensures r.Ok? ==> r.value == EpochTimeToKronosTime(TotalSeconds(td))
  {
    match AddTimedelta(Epoch, td)
    case Err(e) => Err(e)
    case Ok(dt) => Ok(DatetimeToKronosTime(dt))
  }

  // ---------------------------------------------------------------------------
  // Properties of the codec
  // ---------------------------------------------------------------------------

  /** A whole number of seconds becomes exactly that many 10^7 ticks. */
  lemma EpochSecondsToTicks(s: int)
    ensures EpochTimeToKronosTime(s as real) == s * TicksPerSecond
  {
    assert s as real * 10000000.0 == (s * TicksPerSecond) as real;
  }

  /** Seconds survive the trip to ticks and back. */
  lemma SecondsRoundTrip(s: int)
    ensures KronosTimeToEpochTime(EpochTimeToKronosTime(s as real)) == s
  {
    EpochSecondsToTicks(s);
    var k := s * TicksPerSecond;
    assert TruncDiv(k, TicksPerSecond) == s;
  }

  /** Ticks to seconds truncates toward zero, not downward. */
  lemma TicksToSecondsTruncates()
    ensures KronosTimeToEpochTime(-1) == 0
    ensures KronosTimeToEpochTime(-TicksPerSecond - 1) == -1
    ensures KronosTimeToEpochTime(TicksPerSecond + TicksPerSecond / 2) == 1
  {
  }

  lemma WholeSecondsExact(k: int)
    ensures TruncDiv(k, TicksPerSecond) * TicksPerSecond == k <==> k % TicksPerSecond == 0
  {
    var d := TicksPerSecond;
    if k < 0 {
      var b := -k;
      var q, r := b / d, b % d;
      assert b == q * d + r && 0 <= r < d;
      if r == 0 {
        assert k == (-q) * d;
      } else {
        assert k == (-q - 1) * d + (d - r);
        assert k % d == d - r;
      }
    }
  }

  /** A timestamp converted to a datetime and back loses its sub-second part,
      truncated toward zero; it comes back unchanged iff it is a whole number of
      seconds. */
  lemma TicksDatetimeRoundTrip(k: int)
    requires KronosTimeToDatetime(k).Ok?
    ensures DatetimeToKronosTime(KronosTimeToDatetime(k).value) == TruncDiv(k, TicksPerSecond) * TicksPerSecond
    ensures DatetimeToKronosTime(KronosTimeToDatetime(k).value) == k <==> k % TicksPerSecond == 0
  {
    var s := TruncDiv(k, TicksPerSecond);
    var dt := KronosTimeToDatetime(k).value;
    assert dt.wallMicros == s * MicrosPerSecond;
    WholeSecondsExact(k);
  }

  /** A datetime converted to a timestamp and back is the same instant in UTC,
      truncated toward the epoch to whole seconds. */
  lemma DatetimeTicksRoundTrip(dt: Datetime)
    requires InDatetimeRange(UtcMicros(AssumeUtc(dt)))
    ensures KronosTimeToDatetime(DatetimeToKronosTime(dt))
         == Ok(Datetime(TruncDiv(UtcMicros(AssumeUtc(dt)), MicrosPerSecond) * MicrosPerSecond, Some(0)))
  {
    var u := UtcMicros(AssumeUtc(dt));
    var k := DatetimeToKronosTime(dt);
    assert k == 10 * u;
    assert TruncDiv(k, TicksPerSecond) == TruncDiv(u, MicrosPerSecond);
  }

  /** A naive datetime converts like the UTC datetime with the same fields. */
  lemma NaiveIsUtc(wallMicros: int)
    ensures DatetimeToKronosTime(Datetime(wallMicros, None)) == DatetimeToKronosTime(Datetime(wallMicros, Some(0)))
    ensures DatetimeToKronosTime(Datetime(wallMicros, Some(0))) == 10 * wallMicros
  {
  }

  lemma EpochIsTickZero()
    ensures DatetimeToKronosTime(Epoch) == 0
  {
    assert AssumeUtc(Epoch) == Epoch;
    assert UtcMicros(Epoch) == 0;
  }

  /** A timedelta in range becomes its total seconds times 10^7, which is ten
      ticks per microsecond. */
  lemma TimedeltaTicks(td: Timedelta)
    requires InDatetimeRange(td.micros)
    ensures TimedeltaToKronosTime(td) == Ok(10 * td.micros)
  {
    assert TotalSeconds(td) * 10000000.0 == (10 * td.micros) as real;
  }

  lemma TruncRealMonotone(x: real, y: real)
    requires x <= y
    ensures TruncReal(x) <= TruncReal(y)
  {
  }

  lemma EpochTimeToKronosTimeMonotone(a: real, b: real)
    requires a <= b
    ensures EpochTimeToKronosTime(a) <= EpochTimeToKronosTime(b)
  {
    TruncRealMonotone(a * 10000000.0, b * 10000000.0);
  }

  lemma KronosTimeToEpochTimeMonotone(a: int, b: int)
    requires a <= b
    ensures KronosTimeToEpochTime(a) <= KronosTimeToEpochTime(b)
  {
    TruncRealMonotone(a as real * 0.0000001, b as real * 0.0000001);
  }
}
