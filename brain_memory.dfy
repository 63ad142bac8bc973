/**
 * The memory document of services/linked_navigator/brain.py: per-day, per-hour
 * session records, per-profile status histories and running totals. The JSON
 * file behind it is replaced by this value; a missing or unreadable file is the
 * freshly initialised document.
 */
module BrainMemory {
  import opened Wrappers
  import opened Config
  import QueueManager

  /** A planned session, as `_handle_planning_next_session` builds it; `id` is the second it was planned in. */
  datatype SessionPlan = SessionPlan(
    id: int, sessionType: string, plannedStart: int, plannedDuration: int,
    maxProfiles: nat, profiles: seq<QueueManager.Entry>)

  /** `current_session`: the plan plus the tracking fields `session_started` and `session_ended` add. */
  datatype SessionRecord = SessionRecord(
    plan: SessionPlan, startTime: int,
    profilesStarted: int, profilesCompleted: int, profilesFailed: int,
    lastActivity: Option<int>, endTime: Option<int>, actualDuration: Option<int>, error: Option<string>)

  /** The `stats` dict handed to `session_ended`; an absent key is None. `startTime` is its `start_time` key. */
  datatype SessionStats = SessionStats(
    started: Option<int>, completed: Option<int>, failed: Option<int>, error: Option<string>, startTime: Option<int>)

  datatype HistoryItem = HistoryItem(timestamp: int, status: string, metadata: QueueManager.Metadata)

  datatype ProfileRecord = ProfileRecord(firstSeen: int, lastUpdated: int, lastStatus: string, history: seq<HistoryItem>)

  /** Days are keyed by day number (the ISO date), hours by the hour of the day (its `str`). */
  datatype Memory = Memory(
    lastUpdated: int,
    days: map<int, map<int, seq<SessionRecord>>>,
    profiles: map<string, ProfileRecord>,
    totalSessions: int, totalScraped: int, totalFailed: int)

  /** `_initialize_memory`. */
  function EmptyMemory(now: int): (r: Memory)
    ensures r.days == map[] && r.profiles == map[]
    ensures r.totalSessions == 0 && r.totalScraped == 0 && r.totalFailed == 0
  {
    Memory(now, map[], map[], 0, 0, 0)
  }

  /** `memory["days"][date][str(hour)]["sessions"]`, or the empty list when absent. */
  function SessionsAt(m: Memory, day: int, hour: int): seq<SessionRecord> {
    if day in m.days && hour in m.days[day] then m.days[day][hour] else []
  }

  /**
   * `_update_memory_with_session`: the record is appended under the day and hour
   * of its start time, creating them when needed; the session total grows by one
   * and the scraped and failed totals by the record's counts. Nothing else changes.
   */
  function WithSession(m: Memory, s: SessionRecord, now: int): (r: Memory)
    ensures SessionsAt(r, DayOf(s.startTime), HourOf(s.startTime)) == SessionsAt(m, DayOf(s.startTime), HourOf(s.startTime)) + [s]
    ensures forall d, h :: (d != DayOf(s.startTime) || h != HourOf(s.startTime)) ==> SessionsAt(r, d, h) == SessionsAt(m, d, h)
    ensures r.days.Keys == m.days.Keys + {DayOf(s.startTime)}
    ensures forall d :: d in m.days && d != DayOf(s.startTime) ==> r.days[d] == m.days[d]
    ensures r.totalSessions == m.totalSessions + 1
    ensures r.totalScraped == m.totalScraped + s.profilesCompleted
    ensures r.totalFailed == m.totalFailed + s.profilesFailed
    ensures r.profiles == m.profiles && r.lastUpdated == now
  {
    var d, h := DayOf(s.startTime), HourOf(s.startTime);
    var day := if d in m.days then m.days[d] else map[];
    var hour := if h in day then day[h] else [];
    m.(days := m.days[d := day[h := hour + [s]]],
       totalSessions := m.totalSessions + 1,
       totalScraped := m.totalScraped + s.profilesCompleted,
       totalFailed := m.totalFailed + s.profilesFailed,
       lastUpdated := now)
  }

  /** The profile histories of `m`, each as a list; absent profiles have none. */
  function HistoryOf(m: Memory, url: string): seq<HistoryItem> {
    if url in m.profiles then m.profiles[url].history else []
  }

  /**
   * `_update_memory_with_profile`: the profile's history grows by one entry and
   * its last status is set; a new profile is first seen now. Other profiles, the
   * days and the totals are unchanged.
   */
  function WithProfile(m: Memory, url: string, status: string, metadata: QueueManager.Metadata, now: int): (r: Memory)
    ensures url in r.profiles
    ensures HistoryOf(r, url) == HistoryOf(m, url) + [HistoryItem(now, status, metadata)]
    ensures r.profiles[url].lastStatus == status && r.profiles[url].lastUpdated == now
    ensures r.profiles[url].firstSeen == if url in m.profiles then m.profiles[url].firstSeen else now
    ensures r.profiles.Keys == m.profiles.Keys + {url}
    ensures forall u :: u in m.profiles && u != url ==> r.profiles[u] == m.profiles[u]
    ensures r.days == m.days && r.totalSessions == m.totalSessions
    ensures r.totalScraped == m.totalScraped && r.totalFailed == m.totalFailed
  {
    var item := HistoryItem(now, status, metadata);
    var rec := if url in m.profiles then
        m.profiles[url].(history := m.profiles[url].history + [item], lastStatus := status, lastUpdated := now)
      else ProfileRecord(now, now, status, [item]);
    m.(profiles := m.profiles[url := rec], lastUpdated := now)
  }

  /** Recording a session only appends: every hour's earlier list is a prefix of its list afterwards. */
  lemma {:induction false} WithSessionAppendOnly(m: Memory, s: SessionRecord, now: int, d: int, h: int)
    ensures var r := WithSession(m, s, now);
      && |SessionsAt(r, d, h)| >= |SessionsAt(m, d, h)|
      && SessionsAt(r, d, h)[..|SessionsAt(m, d, h)|] == SessionsAt(m, d, h)
  {
    var r := WithSession(m, s, now);
    if d == DayOf(s.startTime) && h == HourOf(s.startTime) {
      assert (SessionsAt(m, d, h) + [s])[..|SessionsAt(m, d, h)|] == SessionsAt(m, d, h);
    } else {
      assert SessionsAt(r, d, h) == SessionsAt(m, d, h);
    }
  }
}
