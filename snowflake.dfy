/** Twitter Snowflake ids: a 41-bit millisecond timestamp relative to the
    Twitter epoch, then a 5-bit datacenter, a 5-bit worker and a 12-bit
    sequence number. Ids are integers here; the clock (`Date.now()`) and the
    three random fields are parameters. */
module Snowflake {

  /** November 4, 2010, in milliseconds since the Unix epoch. */
  const TwitterEpoch: int := 1288834974657

  const TimestampUnit: int := 0x40_0000   // 1 << 22
  const DatacenterUnit: int := 0x2_0000   // 1 << 17
  const WorkerUnit: int := 0x1000         // 1 << 12

  const MsPerMinute: int := 60000
  const MsPerHour: int := 3600000
  const MsPerDay: int := 86400000

  lemma MulAtLeast(k: int, d: int)
    requires k >= 1 && d > 0
    ensures k * d >= d
  {
    assert k * d == (k - 1) * d + d;
  }

  lemma DivModUnique(q: int, r: int, d: int)
    requires 0 <= r < d
    ensures (q * d + r) / d == q && (q * d + r) % d == r
  {
    var x := q * d + r;
    var q', r' := x / d, x % d;
    assert x == q' * d + r';
    assert (q - q') * d == r' - r;
    if q > q' {
      MulAtLeast(q - q', d);
    } else if q < q' {
      MulAtLeast(q' - q, d);
    }
  }

  /** The low 22 bits: datacenter, worker and sequence side by side. */
  function LowBits(datacenterId: int, workerId: int, sequence: int): int
  {
    datacenterId * DatacenterUnit + workerId * WorkerUnit + sequence
  }

  predicate ValidFields(datacenterId: int, workerId: int, sequence: int)
  {
    0 <= datacenterId < 32 && 0 <= workerId < 32 && 0 <= sequence < 4096
  }

  /** `generateSnowflakeId(timestamp)` with `Math.floor(Math.random() * 32)`, the same again and
      `Math.floor(Math.random() * 4096)` passed in. The fields occupy disjoint bit ranges, so the
      bitwise or of the shifted fields is their sum. */
  function GenerateSnowflakeId(timestamp: real, datacenterId: int, workerId: int, sequence: int): (id: int)
    requires ValidFields(datacenterId, workerId, sequence)
    ensures 0 <= id - (timestamp.Floor - TwitterEpoch) * TimestampUnit < TimestampUnit
  {
    (timestamp.Floor - TwitterEpoch) * TimestampUnit + LowBits(datacenterId, workerId, sequence)
  }

  /** `extractTimestampFromSnowflake`: the arithmetic shift right by 22, plus the epoch. */
  function ExtractTimestamp(id: int): int
  {
    id / TimestampUnit + TwitterEpoch
  }

  function DatacenterOf(id: int): int { (id % TimestampUnit) / DatacenterUnit }

  function WorkerOf(id: int): int { (id % DatacenterUnit) / WorkerUnit }

  function SequenceOf(id: int): int { id % WorkerUnit }

  /** Decoding a generated id gives back the floored timestamp and each of the three fields. */
  lemma GenerateRoundTrip(timestamp: real, datacenterId: int, workerId: int, sequence: int)
    requires ValidFields(datacenterId, workerId, sequence)
    ensures ExtractTimestamp(GenerateSnowflakeId(timestamp, datacenterId, workerId, sequence)) == timestamp.Floor
    ensures DatacenterOf(GenerateSnowflakeId(timestamp, datacenterId, workerId, sequence)) == datacenterId
    ensures WorkerOf(GenerateSnowflakeId(timestamp, datacenterId, workerId, sequence)) == workerId
    ensures SequenceOf(GenerateSnowflakeId(timestamp, datacenterId, workerId, sequence)) == sequence
  {
    var id := GenerateSnowflakeId(timestamp, datacenterId, workerId, sequence);
    var e := timestamp.Floor - TwitterEpoch;
    var low := LowBits(datacenterId, workerId, sequence);
    DivModUnique(e, low, TimestampUnit);
    DivModUnique(datacenterId, workerId * WorkerUnit + sequence, DatacenterUnit);
    assert id == (e * 32 + datacenterId) * DatacenterUnit + (workerId * WorkerUnit + sequence);
    DivModUnique(e * 32 + datacenterId, workerId * WorkerUnit + sequence, DatacenterUnit);
    assert id == (e * 1024 + datacenterId * 32 + workerId) * WorkerUnit + sequence;
    DivModUnique(e * 1024 + datacenterId * 32 + workerId, sequence, WorkerUnit);
    DivModUnique(workerId, sequence, WorkerUnit);
  }

  /** A strictly earlier millisecond gives a strictly smaller id, whatever the low fields. */
  lemma GenerateMonotonic(t1: real, d1: int, w1: int, s1: int, t2: real, d2: int, w2: int, s2: int)
    requires ValidFields(d1, w1, s1) && ValidFields(d2, w2, s2)
    requires t1.Floor < t2.Floor
    ensures GenerateSnowflakeId(t1, d1, w1, s1) < GenerateSnowflakeId(t2, d2, w2, s2)
  {
  }

  /** `getAgeInHours`, with `Date.now()` as `now`. */
  function AgeInHours(id: int, now: int): real
  {
    (now - ExtractTimestamp(id)) as real / (MsPerHour as real)
  }

  /** `getAgeInDays`. */
  function AgeInDays(id: int, now: int): real
  {
    AgeInHours(id, now) / 24.0
  }

  /** An id is at most `days` days old exactly when its timestamp is at most that many days of milliseconds before `now`. */
  lemma AgeInDaysAtMost(id: int, now: int, days: int)
    ensures AgeInDays(id, now) <= days as real <==> now - ExtractTimestamp(id) <= days * MsPerDay
  {
    var diff := (now - ExtractTimestamp(id)) as real;
    assert AgeInDays(id, now) == diff / (MsPerDay as real);
  }

  /** `generateSnowflakeIdFromAge(hoursAgo)`: an id for the moment `hoursAgo` hours before `now`. */
  function GenerateFromAge(hoursAgo: real, now: int, datacenterId: int, workerId: int, sequence: int): (id: int)
    requires ValidFields(datacenterId, workerId, sequence)
  {
    GenerateSnowflakeId(now as real - hoursAgo * 60.0 * 60.0 * 1000.0, datacenterId, workerId, sequence)
  }

  /** An id made for `hoursAgo` hours ago decodes to that moment floored to the millisecond, so its
      age is `hoursAgo` up to less than one millisecond. */
  lemma GenerateFromAgeRoundTrip(hoursAgo: real, now: int, datacenterId: int, workerId: int, sequence: int)
    requires ValidFields(datacenterId, workerId, sequence)
    ensures ExtractTimestamp(GenerateFromAge(hoursAgo, now, datacenterId, workerId, sequence))
         == (now as real - hoursAgo * 3600000.0).Floor
    ensures hoursAgo <= AgeInHours(GenerateFromAge(hoursAgo, now, datacenterId, workerId, sequence), now)
                     < hoursAgo + 1.0 / 3600000.0
  {
    var t := now as real - hoursAgo * 60.0 * 60.0 * 1000.0;
    assert t == now as real - hoursAgo * 3600000.0;
    GenerateRoundTrip(t, datacenterId, workerId, sequence);
    var ts := t.Floor;
    assert ts as real <= t < ts as real + 1.0;
    var diff := (now - ts) as real;
    assert hoursAgo * 3600000.0 <= diff < hoursAgo * 3600000.0 + 1.0;
    assert AgeInHours(GenerateFromAge(hoursAgo, now, datacenterId, workerId, sequence), now) == diff / 3600000.0;
  }

  // ---------------------------------------------------------------- relative time

  /** The unit `formatRelativeTime` reports. */
  datatype Elapsed = Days(days: nat) | Hours(hours: nat) | Minutes(minutes: nat) | JustNow

  /** The floors of seconds, minutes, hours and days are taken one from the other, then the first positive one wins. */
  function RelativeTime(diffMs: int): Elapsed
  {
    var seconds := diffMs / 1000;
    var minutes := seconds / 60;
    var hours := minutes / 60;
    var days := hours / 24;
    if days > 0 then Days(days)
    else if hours > 0 then Hours(hours)
    else if minutes > 0 then Minutes(minutes)
    else JustNow
  }

  /** A two-digit number in radix `a` then `b` is below `a * b`. */
  lemma MixedRadixBound(hi: int, lo: int, a: int, b: int)
    requires 0 <= hi < b && 0 <= lo < a
    ensures 0 <= hi * a + lo < a * b
  {
    assert hi * a <= (b - 1) * a;
  }

  lemma NestedFloor(x: int, a: int, b: int)
    requires a > 0 && b > 0
    ensures (x / a) / b == x / (a * b)
  {
    var q, r := x / a, x % a;
    var q2, r2 := q / b, q % b;
    assert x == q * a + r;
    assert q == q2 * b + r2;
    assert x == q2 * (a * b) + (r2 * a + r);
    MixedRadixBound(r2, r, a, b);
    DivModUnique(q2, r2 * a + r, a * b);
  }

  /** The bucket is the largest whole unit that fits in the difference; anything under a minute,
      a zero difference or one in the future is "just now". */
  lemma RelativeTimeBuckets(diffMs: int)
    ensures RelativeTime(diffMs).Days? <==> diffMs >= MsPerDay
    ensures RelativeTime(diffMs).Days? ==> RelativeTime(diffMs).days == diffMs / MsPerDay
    ensures RelativeTime(diffMs).Hours? <==> MsPerHour <= diffMs < MsPerDay
    ensures RelativeTime(diffMs).Hours? ==> RelativeTime(diffMs).hours == diffMs / MsPerHour
    ensures RelativeTime(diffMs).Minutes? <==> MsPerMinute <= diffMs < MsPerHour
    ensures RelativeTime(diffMs).Minutes? ==> RelativeTime(diffMs).minutes == diffMs / MsPerMinute
    ensures RelativeTime(diffMs).JustNow? <==> diffMs < MsPerMinute
  {
    NestedFloor(diffMs, 1000, 60);
    NestedFloor(diffMs, 60000, 60);
    NestedFloor(diffMs, 3600000, 24);
  }

  function DigitChar(d: int): char
    requires 0 <= d < 10
  {
    ('0' as int + d) as char
  }

  /** The decimal digits of `n`, as template-literal interpolation prints a whole number. */
  function NatToString(n: nat): (s: string)
    ensures |s| >= 1
    ensures forall i :: 0 <= i < |s| ==> '0' <= s[i] <= '9'
  {
    if n < 10 then [DigitChar(n)] else NatToString(n / 10) + [DigitChar(n % 10)]
  }

  function ParseDecimal(s: string): int
    requires forall i :: 0 <= i < |s| ==> '0' <= s[i] <= '9'
    decreases |s|
  {
    if s == [] then 0 else ParseDecimal(s[..|s| - 1]) * 10 + (s[|s| - 1] as int - '0' as int)
  }

  /** The printed number reads back as itself. */
  lemma {:induction false} NatToStringRoundTrip(n: nat)
    ensures ParseDecimal(NatToString(n)) == n
  {
    if n >= 10 {
      NatToStringRoundTrip(n / 10);
      var s := NatToString(n);
      assert s[..|s| - 1] == NatToString(n / 10);
    }
  }

  /** `formatRelativeTime(id, locale)` with `Date.now()` as `now`. */
  function FormatRelativeTime(id: int, locale: string, now: int): string
  {
    var e := RelativeTime(now - ExtractTimestamp(id));
    if locale == "zh" then
      match e
      case Days(n) => NatToString(n) + "天前"
      case Hours(n) => NatToString(n) + "小时前"
      case Minutes(n) => NatToString(n) + "分钟前"
      case JustNow => "刚刚"
    else
      match e
      case Days(n) => NatToString(n) + "d ago"
      case Hours(n) => NatToString(n) + "h ago"
      case Minutes(n) => NatToString(n) + "m ago"
      case JustNow => "just now"
  }

  /** In English, the text names the largest whole unit of elapsed time and its count, or says "just now" under a minute. */
  lemma FormatRelativeTimeEnglish(id: int, now: int)
    ensures var diff := now - ExtractTimestamp(id);
            var r := FormatRelativeTime(id, "en", now);
            (diff >= MsPerDay ==> r == NatToString(diff / MsPerDay) + "d ago") &&
            (MsPerHour <= diff < MsPerDay ==> r == NatToString(diff / MsPerHour) + "h ago") &&
            (MsPerMinute <= diff < MsPerHour ==> r == NatToString(diff / MsPerMinute) + "m ago") &&
            (diff < MsPerMinute ==> r == "just now")
  {
    RelativeTimeBuckets(now - ExtractTimestamp(id));
  }

  /** In Chinese, the same buckets with the Chinese unit words. */
  lemma FormatRelativeTimeChinese(id: int, now: int)
    ensures var diff := now - ExtractTimestamp(id);
            var r := FormatRelativeTime(id, "zh", now);
            (diff >= MsPerDay ==> r == NatToString(diff / MsPerDay) + "天前") &&
            (MsPerHour <= diff < MsPerDay ==> r == NatToString(diff / MsPerHour) + "小时前") &&
            (MsPerMinute <= diff < MsPerHour ==> r == NatToString(diff / MsPerMinute) + "分钟前") &&
            (diff < MsPerMinute ==> r == "刚刚")
  {
    RelativeTimeBuckets(now - ExtractTimestamp(id));
  }
}
