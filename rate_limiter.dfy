/** The per-sender hourly rate window kept in Redis: a counter per
    (sender, calendar hour) key, incremented after each delivery and given an
    expiry on its first increment. */
module RateLimiter {
  import opened Wrappers
  import opened Text

  const RATE_LIMIT_KEY_PREFIX: string := "email_rate:"
  /** Slightly over one hour. */
  const TTL_SECONDS: nat := 3660
  /** The configured default hourly cap per sender. */
  const MAX_EMAILS_PER_HOUR_PER_SENDER: int := 100
  const MS_PER_HOUR: nat := 3600000

  // ---------------------------------------------------------------- the hour window label

  /** The local calendar fields of the clock's current instant, as `Date`
      reports them: `month` is the 0-based month index of `getMonth`. */
  datatype CalendarHour = CalendarHour(year: nat, month: nat, date: nat, hours: nat) {
    predicate Valid() {
      month < 12 && 1 <= date <= 31 && hours < 24
    }
  }

  /** The bucket label `YYYY-MM-DD-HH` of `getCurrentHourWindow`. */
  function HourWindow(c: CalendarHour): string {
    NatToString(c.year) + "-" + PadStart2(NatToString(c.month + 1))
      + "-" + PadStart2(NatToString(c.date)) + "-" + PadStart2(NatToString(c.hours))
  }

  /** What follows the year in a label: a dash and two digits each for the
      1-based month, the day and the hour. */
  function WindowSuffix(c: CalendarHour): (t: string)
    requires c.Valid()
  {
    var m := c.month + 1;
    ['-', DigitChar(m / 10), DigitChar(m % 10),
     '-', DigitChar(c.date / 10), DigitChar(c.date % 10),
     '-', DigitChar(c.hours / 10), DigitChar(c.hours % 10)]
  }

  /** The label is the year, then the 1-based month, the day and the hour,
      each zero-padded to exactly two digits. */
  lemma HourWindowFormat(c: CalendarHour)
    requires c.Valid()
    ensures HourWindow(c) == NatToString(c.year) + WindowSuffix(c)
  {
    var y := NatToString(c.year);
    var m, d, h := PadStart2(NatToString(c.month + 1)), PadStart2(NatToString(c.date)), PadStart2(NatToString(c.hours));
    TwoDigits(c.month + 1);
    TwoDigits(c.date);
    TwoDigits(c.hours);
    DashJoin(y, m, d, h);
  }

  /** A year and three two-character fields joined by dashes. */
  lemma DashJoin(y: string, m: string, d: string, h: string)
    requires |m| == 2 && |d| == 2 && |h| == 2
    ensures y + "-" + m + "-" + d + "-" + h == y + ['-', m[0], m[1], '-', d[0], d[1], '-', h[0], h[1]]
  {
  }

  lemma WindowSuffixInjective(c1: CalendarHour, c2: CalendarHour)
    requires c1.Valid() && c2.Valid()
    requires WindowSuffix(c1) == WindowSuffix(c2)
    ensures c1.month == c2.month && c1.date == c2.date && c1.hours == c2.hours
  {
    var t1, t2 := WindowSuffix(c1), WindowSuffix(c2);
    assert t1[1] == t2[1] && t1[2] == t2[2];
    DigitCharInjective((c1.month + 1) / 10, (c2.month + 1) / 10);
    DigitCharInjective((c1.month + 1) % 10, (c2.month + 1) % 10);
    assert t1[4] == t2[4] && t1[5] == t2[5];
    DigitCharInjective(c1.date / 10, c2.date / 10);
    DigitCharInjective(c1.date % 10, c2.date % 10);
    assert t1[7] == t2[7] && t1[8] == t2[8];
    DigitCharInjective(c1.hours / 10, c2.hours / 10);
    DigitCharInjective(c1.hours % 10, c2.hours % 10);
  }

  /** Two clock readings get the same label exactly when they are in the same
      calendar hour. */
  lemma HourWindowInjective(c1: CalendarHour, c2: CalendarHour)
    requires c1.Valid() && c2.Valid()
    ensures HourWindow(c1) == HourWindow(c2) <==> c1 == c2
  {
    if HourWindow(c1) == HourWindow(c2) {
      var w := HourWindow(c1);
      HourWindowFormat(c1);
      HourWindowFormat(c2);
      var y1, y2 := NatToString(c1.year), NatToString(c2.year);
      var t1, t2 := WindowSuffix(c1), WindowSuffix(c2);
      assert |y1| == |y2|;
      assert y1 == w[..|y1|] == y2;
      assert t1 == w[|y1|..] == t2;
      NatToStringInjective(c1.year, c2.year);
      WindowSuffixInjective(c1, c2);
    }
  }

  predicate DigitsAndDashes(s: string) {
    forall i :: 0 <= i < |s| ==> IsDigit(s[i]) || s[i] == '-'
  }

  lemma DigitsAndDashesConcat(a: string, b: string)
    requires DigitsAndDashes(a) && DigitsAndDashes(b)
    ensures DigitsAndDashes(a + b)
  {
  }

  /** A label holds digits and dashes only; in particular it has no ':'. */
  lemma HourWindowCharacters(c: CalendarHour)
    ensures DigitsAndDashes(HourWindow(c))
    ensures ':' !in HourWindow(c)
  {
    var y := NatToString(c.year);
    var m, d, h := PadStart2(NatToString(c.month + 1)), PadStart2(NatToString(c.date)), PadStart2(NatToString(c.hours));
    NumeralDigits(c.year);
    NumeralDigits(c.month + 1);
    NumeralDigits(c.date);
    NumeralDigits(c.hours);
    DigitsAndDashesConcat(y, "-");
    DigitsAndDashesConcat(y + "-", m);
    DigitsAndDashesConcat(y + "-" + m, "-");
    DigitsAndDashesConcat(y + "-" + m + "-", d);
    DigitsAndDashesConcat(y + "-" + m + "-" + d, "-");
    DigitsAndDashesConcat(y + "-" + m + "-" + d + "-", h);
    NoColon(HourWindow(c));
  }

  lemma NumeralDigits(n: nat)
    ensures DigitsAndDashes(NatToString(n)) && DigitsAndDashes(PadStart2(NatToString(n)))
  {
  }

  lemma NoColon(s: string)
    requires DigitsAndDashes(s)
    ensures ':' !in s
  {
  }

  // ---------------------------------------------------------------- keys

  /** `email_rate:<sender>:<window>`. */
  function RateKey(senderEmail: string, window: string): string {
    RATE_LIMIT_KEY_PREFIX + senderEmail + ":" + window
  }

  function SenderKey(senderEmail: string, clock: CalendarHour): string {
    RateKey(senderEmail, HourWindow(clock))
  }

  /** The last ':' of a key separates the sender from the window, so a key
      determines both of them. */
  lemma {:induction false} RateKeyInjective(s1: string, w1: string, s2: string, w2: string)
    requires ':' !in w1 && ':' !in w2
    ensures RateKey(s1, w1) == RateKey(s2, w2) <==> s1 == s2 && w1 == w2
  {
    var k1, k2 := RateKey(s1, w1), RateKey(s2, w2);
    if k1 == k2 {
      var n := |k1|;
      assert k1[n - |w1| - 1] == ':' && k2[n - |w2| - 1] == ':';
      if |w1| < |w2| {
        assert false;
      }
      if |w2| < |w1| {
        assert false;
      }
      assert w1 == k1[n - |w1|..] == w2;
      assert RATE_LIMIT_KEY_PREFIX + s1 == k1[..n - |w1| - 1] == RATE_LIMIT_KEY_PREFIX + s2;
      assert s1 == (RATE_LIMIT_KEY_PREFIX + s1)[|RATE_LIMIT_KEY_PREFIX|..];
      assert s2 == (RATE_LIMIT_KEY_PREFIX + s2)[|RATE_LIMIT_KEY_PREFIX|..];
    }
  }

  /** Counters of different senders, or of one sender in different calendar
      hours, live under different keys and never interfere. */
  lemma SenderKeyInjective(s1: string, c1: CalendarHour, s2: string, c2: CalendarHour)
    requires c1.Valid() && c2.Valid()
    ensures SenderKey(s1, c1) == SenderKey(s2, c2) <==> s1 == s2 && c1 == c2
  {
    HourWindowCharacters(c1);
    HourWindowCharacters(c2);
    RateKeyInjective(s1, HourWindow(c1), s2, HourWindow(c2));
    HourWindowInjective(c1, c2);
  }

  // ---------------------------------------------------------------- the counter store

  /** A Redis value under a rate key: the integer count and, once EXPIRE has
      been applied, its time to live in seconds. */
  datatype CounterEntry = CounterEntry(count: int, ttl: Option<nat>)

  type Counters = map<string, CounterEntry>

  /** The count that `getSenderHourlyCount` reports: 0 for an absent key. */
  function CountOf(m: Counters, key: string): int {
    if key in m then m[key].count else 0
  }

  /** Redis INCR: an absent key counts as 0; an existing expiry is kept. */
  function Incremented(m: Counters, key: string): Counters {
    m[key := CounterEntry(CountOf(m, key) + 1, if key in m then m[key].ttl else None)]
  }

  /** Redis EXPIRE: sets the time to live of a present key. */
  function WithExpiry(m: Counters, key: string, seconds: nat): Counters {
    if key in m then m[key := m[key].(ttl := Some(seconds))] else m
  }

  /** The Redis state after `incrementSenderHourlyCount`: INCR, then EXPIRE
      when the increment produced 1. */
  function IncrementHourly(m: Counters, key: string): (r: Counters)
    ensures key in r && CountOf(r, key) == CountOf(m, key) + 1
    ensures CountOf(m, key) == 0 ==> r[key].ttl == Some(TTL_SECONDS)
    ensures CountOf(m, key) != 0 ==> r[key].ttl == (if key in m then m[key].ttl else None)
    ensures forall k :: k != key ==> (k in r <==> k in m) && (k in m ==> r[k] == m[k])
  {
    var m1 := Incremented(m, key);
    if m1[key].count == 1 then WithExpiry(m1, key, TTL_SECONDS) else m1
  }

  /** The Redis server, reduced to the counters the rate limiter uses. */
  class Redis {
    var entries: Counters

    constructor ()
      ensures entries == map[]
    {
      entries := map[];
    }

    method Incr(key: string) returns (count: int)
      modifies this
      ensures entries == Incremented(old(entries), key)
      ensures count == old(CountOf(entries, key)) + 1
    {
      count := CountOf(entries, key) + 1;
      entries := Incremented(entries, key);
    }

    method Expire(key: string, seconds: nat) returns (applied: bool)
      modifies this
      ensures entries == WithExpiry(old(entries), key, seconds)
      ensures applied == (key in old(entries))
    {
      applied := key in entries;
      entries := WithExpiry(entries, key, seconds);
    }

    method Get(key: string) returns (value: Option<int>)
      ensures key in entries ==> value == Some(entries[key].count)
      ensures key !in entries ==> value == None
    {
      value := if key in entries then Some(entries[key].count) else None;
    }
  }

  // ---------------------------------------------------------------- the rate limiter

  method IncrementSenderHourlyCount(redis: Redis, senderEmail: string, clock: CalendarHour) returns (count: int)
    modifies redis
    ensures redis.entries == IncrementHourly(old(redis.entries), SenderKey(senderEmail, clock))
    ensures count == old(CountOf(redis.entries, SenderKey(senderEmail, clock))) + 1
  {
    var window := HourWindow(clock);
    var key := RATE_LIMIT_KEY_PREFIX + senderEmail + ":" + window;
    count := redis.Incr(key);
    if count == 1 {
      var _ := redis.Expire(key, TTL_SECONDS);
    }
  }

  method GetSenderHourlyCount(redis: Redis, senderEmail: string, clock: CalendarHour) returns (count: int)
    ensures SenderKey(senderEmail, clock) !in redis.entries ==> count == 0
    ensures SenderKey(senderEmail, clock) in redis.entries ==> count == redis.entries[SenderKey(senderEmail, clock)].count
  {
    var window := HourWindow(clock);
    var key := RATE_LIMIT_KEY_PREFIX + senderEmail + ":" + window;
    var value := redis.Get(key);
    count := if value.Some? then value.value else 0;
  }

  /** `limitOverride ?? maxEmailsPerHourPerSender`: an override of 0 is used
      as given; only an absent one falls back to the default. */
  function EffectiveLimit(limitOverride: Option<int>): (limit: int)
    ensures limitOverride.Some? ==> limit == limitOverride.value
    ensures limitOverride.None? ==> limit == MAX_EMAILS_PER_HOUR_PER_SENDER
  {
    limitOverride.GetOr(MAX_EMAILS_PER_HOUR_PER_SENDER)
  }

  /** The answer of `canSendEmail` for a given counter state. */
  function UnderLimit(m: Counters, senderEmail: string, clock: CalendarHour, limitOverride: Option<int>): bool {
    CountOf(m, SenderKey(senderEmail, clock)) < EffectiveLimit(limitOverride)
  }

  method CanSendEmail(redis: Redis, senderEmail: string, clock: CalendarHour, limitOverride: Option<int>)
    returns (allowed: bool)
    ensures allowed == UnderLimit(redis.entries, senderEmail, clock, limitOverride)
    ensures allowed <==> CountOf(redis.entries, SenderKey(senderEmail, clock)) < EffectiveLimit(limitOverride)
  {
    var count := GetSenderHourlyCount(redis, senderEmail, clock);
    var limit := EffectiveLimit(limitOverride);
    allowed := count < limit;
  }

  // ---------------------------------------------------------------- time to the next window

  /** The first millisecond of the next hour, for hour boundaries that fall on
      multiples of one hour of epoch time. */
  function NextHourStart(nowMs: int): int {
    (nowMs / MS_PER_HOUR + 1) * MS_PER_HOUR
  }

  /** `getMsUntilNextHour`: the wait from `nowMs` to the start of the next
      hour. It is positive, at most one hour, and lands on the hour after the
      one that contains `nowMs`. */
  function MsUntilNextHour(nowMs: int): (r: int)
    ensures 0 < r <= MS_PER_HOUR
    ensures r == MS_PER_HOUR - nowMs % MS_PER_HOUR
    ensures (nowMs + r) % MS_PER_HOUR == 0
    ensures (nowMs + r) / MS_PER_HOUR == nowMs / MS_PER_HOUR + 1
  {
    NextHourStart(nowMs) - nowMs
  }
}
