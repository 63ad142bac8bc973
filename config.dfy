/** The scheduling constants of config/scraper_config.py. */
module Config {

  /** One entry of SESSION_TYPES. The probability is in hundredths (0.6 is 60). */
  datatype SessionType = SessionType(
    name: string,
    minMinutes: nat,
    maxMinutes: nat,
    probability: nat,
    maxProfiles: nat)

  const SESSION_TYPES: seq<SessionType> := [
    SessionType("regular", 5, 7, 60, 8),
    SessionType("short", 2, 6, 20, 5),
    SessionType("long", 7, 13, 10, 12),
    SessionType("quick", 2, 4, 10, 3)
  ]

  /** ACTIVE_HOURS = list(range(10, 21)). */
  const ACTIVE_HOURS: seq<int> := [10, 11, 12, 13, 14, 15, 16, 17, 18, 19, 20]
  const FIRST_ACTIVE_HOUR: int := 10
  const LAST_ACTIVE_HOUR: int := 20

  predicate IsActiveHour(h: int) {
    h in ACTIVE_HOURS
  }

  lemma ActiveHourRange(h: int)
    ensures IsActiveHour(h) <==> FIRST_ACTIVE_HOUR <= h <= LAST_ACTIVE_HOUR
  {
    if FIRST_ACTIVE_HOUR <= h <= LAST_ACTIVE_HOUR {
      assert ACTIVE_HOURS[h - 10] == h;
    }
  }

  const SESSIONS_PER_HOUR: nat := 2
  /** MINIMUM_SESSION_SPACING = 15 * 60 seconds. */
  const MINIMUM_SESSION_SPACING: nat := 900

  const SECONDS_PER_HOUR: nat := 3600
  const SECONDS_PER_DAY: nat := 86400

  /** Hour of the day of a timestamp in seconds. */
  function HourOf(t: int): int {
    (t / SECONDS_PER_HOUR) % 24
  }

  /** Day number of a timestamp in seconds (the `date()` of the timestamp). */
  function DayOf(t: int): int {
    t / SECONDS_PER_DAY
  }

  /** The timestamp of hour `h` (0 to 23) of day `d` at minute 0, second 0. */
  function HourStart(d: int, h: int): int {
    d * SECONDS_PER_DAY + h * SECONDS_PER_HOUR
  }

  // Event names (EVENTS).
  const QUEUE_UPDATED: string := "queue_updated"
  const SESSION_PLANNED: string := "session_planned"
  const SESSION_STARTED: string := "session_started"
  const SESSION_ENDED: string := "session_ended"
  const PROFILE_SCRAPED: string := "profile_scraped"
  const PROFILE_FAILED: string := "profile_failed"
  const SYSTEM_STATE_CHANGED: string := "system_state_changed"
  const ERROR: string := "error"

  // Profile states (PROFILE_STATES).
  const QUEUED: string := "queued"
  const IN_PROGRESS: string := "in_progress"
  const COMPLETED: string := "completed"
  const FAILED: string := "failed"
}
