/**
 * The scheduling rules of services/linked_navigator/brain.py: the day's special
 * hours, the per-hour session target, the next session's start time and the
 * session-type draw. Each random draw is a parameter with the range the source's
 * `random` call guarantees.
 */
module Schedule {
  import opened Wrappers
  import opened Config

  // ---------------------------------------------------------------- arithmetic on timestamps

  lemma DivModUnique(x: int, b: int, q: int, m: int)
    requires b > 0 && 0 <= m < b && x == b * q + m
    ensures x / b == q && x % b == m
  {
    var q0, m0 := x / b, x % b;
    assert x == b * q0 + m0;
    if q0 > q {
      assert b * q0 >= b * (q + 1) by { MulMono(b, q + 1, q0); }
    } else if q0 < q {
      assert b * q >= b * (q0 + 1) by { MulMono(b, q0 + 1, q); }
    }
  }

  lemma MulMono(b: int, x: int, y: int)
    requires b > 0 && x <= y
    ensures b * x <= b * y
  {
  }

  /** A timestamp's hour count splits into its day and its hour of the day. */
  lemma HourSplit(t: int)
    ensures 0 <= HourOf(t) < 24
    ensures t / SECONDS_PER_HOUR == DayOf(t) * 24 + HourOf(t)
  {
    var d, rem := t / SECONDS_PER_DAY, t % SECONDS_PER_DAY;
    var h, s := rem / SECONDS_PER_HOUR, rem % SECONDS_PER_HOUR;
    assert 0 <= h < 24;
    assert t == SECONDS_PER_HOUR * (d * 24 + h) + s;
    DivModUnique(t, SECONDS_PER_HOUR, d * 24 + h, s);
    DivModUnique(d * 24 + h, 24, d, h);
  }

  /** A moment `off` seconds after the top of hour `h` of day `d`, with `off` under an hour. */
  lemma InHour(d: int, h: int, off: int)
    requires 0 <= h < 24 && 0 <= off < SECONDS_PER_HOUR
    ensures (HourStart(d, h) + off) / SECONDS_PER_HOUR == d * 24 + h
    ensures HourOf(HourStart(d, h) + off) == h
    ensures DayOf(HourStart(d, h) + off) == d
    ensures (HourStart(d, h) + off) % SECONDS_PER_HOUR == off
  {
    var t := HourStart(d, h) + off;
    assert t == SECONDS_PER_HOUR * (d * 24 + h) + off;
    DivModUnique(t, SECONDS_PER_HOUR, d * 24 + h, off);
    DivModUnique(d * 24 + h, 24, d, h);
    assert t == SECONDS_PER_DAY * d + (h * SECONDS_PER_HOUR + off);
    DivModUnique(t, SECONDS_PER_DAY, d, h * SECONDS_PER_HOUR + off);
  }

  // ---------------------------------------------------------------- special hours

  /** `list(set(range(10, 20)) - {three})`, in ascending order. */
  function AvailableHours(three: int): (r: seq<int>)
    requires 10 <= three <= 19
    ensures |r| == 9
    ensures forall i :: 0 <= i < 9 ==> 10 <= r[i] <= 19 && r[i] != three
    ensures forall i, j :: 0 <= i < j < 9 ==> r[i] < r[j]
  {
    seq(9, i requires 0 <= i < 9 => if 10 + i < three then 10 + i else 11 + i)
  }

  datatype SpecialHours = SpecialHours(threeSessionHour: int, oneSessionHours: seq<int>)

  /**
   * `_configure_special_hours`: `threeDraw` is `random.randint(10, 19)`;
   * `first` and `second` are the two distinct positions `random.sample(available, 2)` picks.
   * The three-session hour is in 10..19; the two one-session hours are distinct,
   * in 10..19 and differ from it.
   */
  function ConfigureSpecialHours(threeDraw: int, first: nat, second: nat): (r: SpecialHours)
    requires 10 <= threeDraw <= 19
    requires first < 9 && second < 9 && first != second
    ensures 10 <= r.threeSessionHour <= 19
    ensures |r.oneSessionHours| == 2 && r.oneSessionHours[0] != r.oneSessionHours[1]
    ensures forall h :: h in r.oneSessionHours ==> 10 <= h <= 19 && h != r.threeSessionHour
  {
    var available := AvailableHours(threeDraw);
    SpecialHours(threeDraw, [available[first], available[second]])
  }

  /** The target of `_calculate_next_session_time` for an hour of the day. */
  function HourTarget(hour: int, special: SpecialHours): (r: nat)
    ensures hour == special.threeSessionHour ==> r == 3
    ensures hour != special.threeSessionHour && hour in special.oneSessionHours ==> r == 1
    ensures hour != special.threeSessionHour && hour !in special.oneSessionHours ==> r == SESSIONS_PER_HOUR
  {
    if hour == special.threeSessionHour then 3
    else if hour in special.oneSessionHours then 1
    else SESSIONS_PER_HOUR
  }

  // ---------------------------------------------------------------- next active hour

  /** The `for hour in sorted(hours): if hour > current: ... break` search. */
  function FirstAfter(hours: seq<int>, current: int): (r: Option<int>)
    ensures r.Some? ==> r.value in hours && r.value > current
    ensures r.Some? ==> exists i :: 0 <= i < |hours| && hours[i] == r.value && forall j :: 0 <= j < i ==> hours[j] <= current
    ensures r.None? ==> forall h :: h in hours ==> h <= current
  {
    if |hours| == 0 then None
    else if hours[0] > current then Some(hours[0])
    else
      var rest := FirstAfter(hours[1..], current);
      assert forall h :: h in hours ==> h == hours[0] || h in hours[1..];
      if rest.Some? then
        assert exists i :: 1 <= i < |hours| && hours[i] == rest.value && forall j :: 1 <= j < i ==> hours[j] <= current by {
          var i :| 0 <= i < |hours[1..]| && hours[1..][i] == rest.value && forall j :: 0 <= j < i ==> hours[1..][j] <= current;
          assert hours[i + 1] == rest.value;
          assert forall j :: 1 <= j < i + 1 ==> hours[j] == hours[1..][j - 1];
        }
        rest
      else rest
  }

  /** On a run of consecutive hours lo, lo+1, ..., the first one after `current` is max(current + 1, lo), if the run reaches it. */
  lemma {:induction false} FirstAfterConsecutive(hours: seq<int>, lo: int, current: int)
    requires |hours| > 0
    requires forall i :: 0 <= i < |hours| ==> hours[i] == lo + i
    ensures var r := FirstAfter(hours, current);
      && (current < lo ==> r == Some(lo))
      && (lo <= current < lo + |hours| - 1 ==> r == Some(current + 1))
      && (current >= lo + |hours| - 1 ==> r == None)
  {
    var r := FirstAfter(hours, current);
    if r.Some? {
      var i :| 0 <= i < |hours| && hours[i] == r.value && forall j :: 0 <= j < i ==> hours[j] <= current;
      if i > 0 { assert hours[i - 1] == lo + i - 1; }
    } else {
      assert hours[|hours| - 1] in hours;
    }
  }

  /** The first active hour strictly after `hour`: max(hour + 1, 10) while that is at most 20. */
  lemma FirstActiveAfter(hour: int)
    ensures var r := FirstAfter(ACTIVE_HOURS, hour);
      && (hour < FIRST_ACTIVE_HOUR ==> r == Some(FIRST_ACTIVE_HOUR))
      && (FIRST_ACTIVE_HOUR <= hour < LAST_ACTIVE_HOUR ==> r == Some(hour + 1))
      && (hour >= LAST_ACTIVE_HOUR ==> r == None)
  {
    FirstAfterConsecutive(ACTIVE_HOURS, FIRST_ACTIVE_HOUR, hour);
  }

  /**
   * The top of the hour a capped session is moved to: the next hour when it is
   * active, else the first later active hour today, else the first active hour
   * tomorrow.
   */
  function NextActiveHourStart(now: int): int {
    var hour := HourOf(now);
    var today := DayOf(now);
    if IsActiveHour(hour + 1) then HourStart(today, hour + 1)
    else match FirstAfter(ACTIVE_HOURS, hour)
      case Some(h) => HourStart(today, h)
      case None => HourStart(today + 1, FIRST_ACTIVE_HOUR)
  }

  /** Where NextActiveHourStart lands: the top of an active hour, in a later hour than `now`. */
  lemma NextActiveHourStartSpec(now: int)
    ensures var t := NextActiveHourStart(now);
      && t % SECONDS_PER_HOUR == 0
      && IsActiveHour(HourOf(t))
      && t / SECONDS_PER_HOUR > now / SECONDS_PER_HOUR
      && (IsActiveHour(HourOf(now) + 1) ==> DayOf(t) == DayOf(now) && HourOf(t) == HourOf(now) + 1)
      && (HourOf(now) < FIRST_ACTIVE_HOUR ==> DayOf(t) == DayOf(now) && HourOf(t) == FIRST_ACTIVE_HOUR)
      && (HourOf(now) >= LAST_ACTIVE_HOUR ==> DayOf(t) == DayOf(now) + 1 && HourOf(t) == FIRST_ACTIVE_HOUR)
  {
    var hour, today := HourOf(now), DayOf(now);
    HourSplit(now);
    FirstActiveAfter(hour);
    ActiveHourRange(hour + 1);
    var d, h :=
      if IsActiveHour(hour + 1) then today else if hour < FIRST_ACTIVE_HOUR then today else today + 1,
      if IsActiveHour(hour + 1) then hour + 1 else FIRST_ACTIVE_HOUR;
    assert NextActiveHourStart(now) == HourStart(d, h);
    TopOfLaterHour(now, d, h);
    ActiveHourRange(h);
  }

  /** The top of hour `h` of day `d`, when that hour comes after the hour of `now`. */
  lemma TopOfLaterHour(now: int, d: int, h: int)
    requires 0 <= h < 24 && d * 24 + h > DayOf(now) * 24 + HourOf(now)
    ensures var t := HourStart(d, h);
      t % SECONDS_PER_HOUR == 0 && HourOf(t) == h && DayOf(t) == d && t / SECONDS_PER_HOUR > now / SECONDS_PER_HOUR
  {
    HourSplit(now);
    InHour(d, h, 0);
  }

  // ---------------------------------------------------------------- next session time

  /**
   * `_calculate_next_session_time`. `offset` is `random.randint(1, 15 * 60)` and
   * `soon` is `random.randint(30, 300)`; `lastEnd` is the end of the last recorded
   * session of this hour, if one is known.
   */
  function NextSessionTime(now: int, sessionsThisHour: nat, target: nat, lastEnd: Option<int>, offset: int, soon: int): (r: int)
    requires 1 <= offset <= 900
    requires 30 <= soon <= 300
    // Minimum spacing: under the target, the next start is strictly after `now`,
    // no earlier than the last end plus MINIMUM_SESSION_SPACING when an end is
    // known, and 30 s to 5 min from now when none is or it is already that far past.
    ensures sessionsThisHour < target ==> r > now
    ensures sessionsThisHour < target && lastEnd.Some? ==> r >= lastEnd.value + MINIMUM_SESSION_SPACING
    ensures sessionsThisHour < target && lastEnd.Some? && lastEnd.value + MINIMUM_SESSION_SPACING > now ==>
      r == lastEnd.value + MINIMUM_SESSION_SPACING
    ensures sessionsThisHour < target && lastEnd.Some? && lastEnd.value + MINIMUM_SESSION_SPACING <= now ==>
      r == now + soon && now + 30 <= r <= now + 300
    ensures sessionsThisHour < target && lastEnd.None? ==> now + 30 <= r <= now + 300
  {
    if sessionsThisHour >= target then
      NextActiveHourStart(now) + offset
    else match lastEnd
      case Some(e) =>
        if e + MINIMUM_SESSION_SPACING > now then e + MINIMUM_SESSION_SPACING else now + soon
      case None => now + soon
  }

  /**
   * Hourly cap: once the hour has its target, the next start falls in the first
   * 15 minutes of a later, active hour.
   */
  lemma {:induction false} CappedHourMovesOn(now: int, sessionsThisHour: nat, target: nat, lastEnd: Option<int>, offset: int, soon: int)
    requires 1 <= offset <= 900 && 30 <= soon <= 300
    requires sessionsThisHour >= target
    ensures var t := NextSessionTime(now, sessionsThisHour, target, lastEnd, offset, soon);
      && t / SECONDS_PER_HOUR > now / SECONDS_PER_HOUR
      && t > now
      && IsActiveHour(HourOf(t))
      && 1 <= t % SECONDS_PER_HOUR <= 900
      && t - offset == NextActiveHourStart(now)
  {
    var start := NextActiveHourStart(now);
    NextActiveHourStartSpec(now);
    var t := start + offset;
    var d, h := start / SECONDS_PER_DAY, HourOf(start);
    HourSplit(start);
    assert start == HourStart(DayOf(start), h);
    InHour(DayOf(start), h, offset);
    assert now < (now / SECONDS_PER_HOUR + 1) * SECONDS_PER_HOUR;
    assert start / SECONDS_PER_HOUR >= now / SECONDS_PER_HOUR + 1;
    assert start >= (now / SECONDS_PER_HOUR + 1) * SECONDS_PER_HOUR by {
      assert start == SECONDS_PER_HOUR * (start / SECONDS_PER_HOUR);
      MulMono(SECONDS_PER_HOUR, now / SECONDS_PER_HOUR + 1, start / SECONDS_PER_HOUR);
    }
  }

  /** The sleep of `_handle_waiting_for_active_hours` outside active hours: until the next active hour, at most 300 s. */
  function WaitingSleep(now: int): (r: int)
  {
    var hour := HourOf(now);
    var today := DayOf(now);
    var nextTime := match FirstAfter(ACTIVE_HOURS, hour)
      case Some(h) => HourStart(today, h)
      case None => HourStart(today + 1, FIRST_ACTIVE_HOUR);
    var wait := nextTime - now;
    if wait < 300 then wait else 300
  }

  /** Outside active hours the waiting handler sleeps a positive time of at most 5 minutes. */
  lemma {:induction false} WaitingSleepBounded(now: int)
    requires !IsActiveHour(HourOf(now))
    ensures 0 < WaitingSleep(now) <= 300
  {
    var hour, today := HourOf(now), DayOf(now);
    HourSplit(now);
    ActiveHourRange(hour);
    FirstActiveAfter(hour);
    assert now == SECONDS_PER_HOUR * (today * 24 + hour) + now % SECONDS_PER_HOUR;
  }

  // ---------------------------------------------------------------- session type

  /** `random.random()` returns k / 2^53 for an integer 0 <= k < 2^53. */
  const RANDOM_SCALE: nat := 0x20_0000_0000_0000

  /** The cumulative probability (in hundredths) of the first `n` types. */
  function Cumulative(types: seq<SessionType>, n: nat): nat
    requires n <= |types|
  {
    if n == 0 then 0 else Cumulative(types, n - 1) + types[n - 1].probability
  }

  /** Whether the draw `draw / 2^53` is at most the cumulative probability of types 0..j. */
  predicate ReachesAt(types: seq<SessionType>, draw: nat, j: nat)
    requires j < |types|
  {
    draw * 100 <= Cumulative(types, j + 1) * RANDOM_SCALE
  }

  /**
   * The loop of `_select_session_type` from position `i` on: the index of the
   * first type whose cumulative probability is at least the draw, or 0 when
   * none is.
   */
  function SelectIndex(types: seq<SessionType>, draw: nat, i: nat): (r: nat)
    requires i <= |types|
    ensures r < |types| || r == 0
    ensures (forall j :: i <= j < |types| ==> !ReachesAt(types, draw, j)) ==> r == 0
    ensures (exists j :: i <= j < |types| && ReachesAt(types, draw, j)) ==>
      i <= r < |types| && ReachesAt(types, draw, r) && forall j :: i <= j < r ==> !ReachesAt(types, draw, j)
    decreases |types| - i
  {
    if i == |types| then 0
    else if ReachesAt(types, draw, i) then i
    else SelectIndex(types, draw, i + 1)
  }

  /**
   * `_select_session_type` for the draw `draw / 2^53`: the first type whose
   * cumulative probability reaches the draw; the probabilities sum to 1, so the
   * fallback to the first type is never needed.
   */
  function SelectSessionType(draw: nat): (r: SessionType)
    requires draw < RANDOM_SCALE
    ensures r in SESSION_TYPES
  {
    SESSION_TYPES[SelectIndex(SESSION_TYPES, draw, 0)]
  }

  /** The chosen type is the first whose cumulative probability is at least the draw. */
  lemma {:induction false} SelectSessionTypeIsFirstReaching(draw: nat)
    requires draw < RANDOM_SCALE
    ensures var k := SelectIndex(SESSION_TYPES, draw, 0);
      && k < |SESSION_TYPES|
      && SelectSessionType(draw) == SESSION_TYPES[k]
      && ReachesAt(SESSION_TYPES, draw, k)
      && forall j :: 0 <= j < k ==> !ReachesAt(SESSION_TYPES, draw, j)
  {
    assert Cumulative(SESSION_TYPES, 4) == 100;
    assert ReachesAt(SESSION_TYPES, draw, 3);
  }
}
