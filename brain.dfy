/**
 * The Brain of services/linked_navigator/brain.py: session bookkeeping, the
 * activation and start/stop flag logic, and one step of each state handler of
 * the main loop. Clock readings and random draws are parameters; a handler's
 * sleep is returned instead of slept, and the events it publishes are returned
 * instead of dispatched.
 */
module Brain {
  import opened Wrappers
  import opened Config
  import opened Schedule
  import opened BrainMemory
  import opened StateMachine
  import QueueManager

  /** The `state_data` payloads the Brain passes to its state machine. */
  datatype BrainData =
    | PlanData(plan: SessionPlan)
    | SessionIdData(id: int)
    | CooldownData(session: SessionRecord, minutes: int, end: int)
    | ErrorData(message: string)

  /** The events the Brain publishes itself. */
  datatype BrainEvent =
    | SessionPlanned(plan: SessionPlan)
    | SessionStartedEvent(session: SessionRecord)
    | SessionEndedEvent(session: SessionRecord)

  /** The random draws of one main-loop iteration, each in the range its `random` call guarantees. */
  datatype Draws = Draws(offset: int, soon: int, typeDraw: nat, durationDraw: nat)

  predicate DrawsInRange(d: Draws) {
    1 <= d.offset <= 900 && 30 <= d.soon <= 300 && d.typeDraw < RANDOM_SCALE && d.durationDraw <= RANDOM_SCALE
  }

  // ---------------------------------------------------------------- planning rules

  /** The sessions `_calculate_next_session_time` finds recorded for the hour of `now`. */
  function SessionsThisHour(m: Memory, now: int): nat {
    |SessionsAt(m, DayOf(now), HourOf(now))|
  }

  /**
   * The last session end `_calculate_next_session_time` consults: the current
   * session's end when it has one, else the end of the last session recorded for
   * this hour, if that one has an end.
   */
  function LastSessionEnd(current: Option<SessionRecord>, m: Memory, now: int): (r: Option<int>)
    ensures current.Some? && current.value.endTime.Some? ==> r == current.value.endTime
    ensures !(current.Some? && current.value.endTime.Some?) && SessionsThisHour(m, now) == 0 ==> r.None?
    ensures !(current.Some? && current.value.endTime.Some?) && SessionsThisHour(m, now) > 0 ==>
      r == SessionsAt(m, DayOf(now), HourOf(now))[SessionsThisHour(m, now) - 1].endTime
  {
    if current.Some? && current.value.endTime.Some? then current.value.endTime
    else
      var hourSessions := SessionsAt(m, DayOf(now), HourOf(now));
      if |hourSessions| > 0 then hourSessions[|hourSessions| - 1].endTime else None
  }

  /**
   * `random.uniform(min, max) * 60` for the draw `k / 2^53`, taken to whole
   * seconds: between the type's minimum and maximum duration.
   */
  function PlannedDuration(t: SessionType, k: nat): (r: int)
    requires k <= RANDOM_SCALE && t.minMinutes <= t.maxMinutes
    ensures t.minMinutes * 60 <= r <= t.maxMinutes * 60
  {
    var span := (t.maxMinutes - t.minMinutes) * 60;
    assert span * k <= span * RANDOM_SCALE by { MulMono(span + 1, 0, 0); Scale(span, k); }
    t.minMinutes * 60 + (span * k) / RANDOM_SCALE
  }

  lemma Scale(span: nat, k: nat)
    requires k <= RANDOM_SCALE
    ensures span * k <= span * RANDOM_SCALE
  {
  }

  lemma SessionTypesOrdered(t: SessionType)
    requires t in SESSION_TYPES
    ensures t.minMinutes <= t.maxMinutes && t.maxProfiles > 0
  {
  }

  /** The plan `_handle_planning_next_session` makes at `now`. */
  function PlanAt(now: int, entries: seq<QueueManager.Entry>, m: Memory, current: Option<SessionRecord>,
                  special: SpecialHours, d: Draws): (r: SessionPlan)
    requires DrawsInRange(d)
    ensures r.id == now
    ensures r.profiles == QueueManager.NextProfiles(entries, r.maxProfiles, false)
    ensures exists t :: (t in SESSION_TYPES && t.name == r.sessionType && t.maxProfiles == r.maxProfiles &&
      t.minMinutes * 60 <= r.plannedDuration <= t.maxMinutes * 60)
  {
    var t := SelectSessionType(d.typeDraw);
    SessionTypesOrdered(t);
    var start := NextSessionTime(now, SessionsThisHour(m, now), HourTarget(HourOf(now), special),
      LastSessionEnd(current, m, now), d.offset, d.soon);
    SessionPlan(now, t.name, start, PlannedDuration(t, d.durationDraw), t.maxProfiles,
      QueueManager.NextProfiles(entries, t.maxProfiles, false))
  }

  /** The start time a plan gets is the one the scheduling rules compute. */
  lemma {:induction false} PlanStartFollowsRules(now: int, entries: seq<QueueManager.Entry>, m: Memory,
      current: Option<SessionRecord>, special: SpecialHours, d: Draws)
    requires DrawsInRange(d)
    ensures var p := PlanAt(now, entries, m, current, special, d);
      && (SessionsThisHour(m, now) >= HourTarget(HourOf(now), special) ==>
            p.plannedStart / SECONDS_PER_HOUR > now / SECONDS_PER_HOUR && IsActiveHour(HourOf(p.plannedStart)))
      && (SessionsThisHour(m, now) < HourTarget(HourOf(now), special) ==> p.plannedStart > now)
      && (SessionsThisHour(m, now) < HourTarget(HourOf(now), special) && LastSessionEnd(current, m, now).Some? ==>
            p.plannedStart >= LastSessionEnd(current, m, now).value + MINIMUM_SESSION_SPACING)
  {
    var sessions, target := SessionsThisHour(m, now), HourTarget(HourOf(now), special);
    var lastEnd := LastSessionEnd(current, m, now);
    if sessions >= target {
      CappedHourMovesOn(now, sessions, target, lastEnd, d.offset, d.soon);
    }
  }

  /** The "failed to get profiles" branch of planning is dead: with a pending entry, every session type selects one. */
  lemma PlanningAlwaysFindsProfiles(now: int, entries: seq<QueueManager.Entry>, m: Memory,
      current: Option<SessionRecord>, special: SpecialHours, d: Draws)
    requires DrawsInRange(d) && QueueManager.CountPending(entries) > 0
    ensures |PlanAt(now, entries, m, current, special, d).profiles| > 0
  {
    var t := SelectSessionType(d.typeDraw);
    SessionTypesOrdered(t);
    QueueManager.NextProfilesNonEmpty(entries, t.maxProfiles);
  }

  /** The `cooldown_end` the cooldown handler reads: the stored one, or `now` when the payload has none. */
  function CooldownEnd(data: Option<BrainData>, now: int): int {
    match data
    case Some(CooldownData(_, _, end)) => end
    case _ => now
  }

  // ---------------------------------------------------------------- session bookkeeping

  /** The index of the first plan with id `id`, as the search loop of `session_started` finds it. */
  function FindPlan(plans: seq<SessionPlan>, id: int): (r: Option<nat>)
    ensures r.Some? ==> r.value < |plans| && plans[r.value].id == id
    ensures r.Some? ==> forall j :: 0 <= j < r.value ==> plans[j].id != id
    ensures r.None? ==> forall j :: 0 <= j < |plans| ==> plans[j].id != id
  {
    if |plans| == 0 then None
    else if plans[0].id == id then Some(0)
    else match FindPlan(plans[1..], id)
      case None => None
      case Some(k) => Some(k + 1)
  }

  /** `[s for s in next_sessions if s["id"] != id]`. */
  function WithoutId(plans: seq<SessionPlan>, id: int): (r: seq<SessionPlan>)
    ensures |r| <= |plans|
    ensures forall p :: p in r ==> p in plans && p.id != id
    ensures forall p :: p in plans && p.id != id ==> p in r
  {
    if |plans| == 0 then []
    else
      var rest := WithoutId(plans[1..], id);
      assert forall p :: p in plans ==> p == plans[0] || p in plans[1..];
      if plans[0].id != id then [plans[0]] + rest else rest
  }

  /** The filter keeps every plan with another id as often as it occurs, and none with the id. */
  lemma {:induction false} WithoutIdCounts(plans: seq<SessionPlan>, id: int, p: SessionPlan)
    ensures multiset(WithoutId(plans, id))[p] == if p.id != id then multiset(plans)[p] else 0
  {
    if |plans| > 0 {
      assert plans == [plans[0]] + plans[1..];
      WithoutIdCounts(plans[1..], id, p);
    }
  }

  /** The filter keeps list order: filtering a concatenation filters each part in turn. */
  lemma {:induction false} WithoutIdAppend(a: seq<SessionPlan>, b: seq<SessionPlan>, id: int)
    ensures WithoutId(a + b, id) == WithoutId(a, id) + WithoutId(b, id)
  {
    if |a| > 0 {
      var ab := a + b;
      assert ab[0] == a[0] && ab[1..] == a[1..] + b;
      WithoutIdAppend(a[1..], b, id);
      var tail, rest := WithoutId(a[1..], id), WithoutId(b, id);
      if a[0].id != id {
        assert WithoutId(ab, id) == [a[0]] + (tail + rest);
        assert WithoutId(a, id) == [a[0]] + tail;
      } else {
        assert WithoutId(ab, id) == tail + rest;
        assert WithoutId(a, id) == tail;
      }
    } else {
      assert a + b == b;
    }
  }

  /** The `current_session` `session_started` creates: the plan, started now, every counter zero. */
  function Opened(plan: SessionPlan, now: int): (r: SessionRecord)
    ensures r.plan == plan && r.startTime == now
    ensures r.profilesStarted == 0 && r.profilesCompleted == 0 && r.profilesFailed == 0
    ensures r.endTime.None? && r.error.None?
  {
    SessionRecord(plan, now, 0, 0, 0, None, None, None, None)
  }

  /**
   * The record `session_ended` builds: end time and duration (from the old
   * start) set, then the keys the stats carry overlaid, a `start_time` among
   * them; the others kept.
   */
  function Closed(s: SessionRecord, stats: SessionStats, now: int): (r: SessionRecord)
    ensures r.plan == s.plan && r.startTime == stats.startTime.GetOr(s.startTime)
    ensures r.endTime == Some(now) && r.actualDuration == Some(now - s.startTime)
    ensures r.profilesStarted == stats.started.GetOr(s.profilesStarted)
    ensures r.profilesCompleted == stats.completed.GetOr(s.profilesCompleted)
    ensures r.profilesFailed == stats.failed.GetOr(s.profilesFailed)
    ensures r.error == if stats.error.Some? then stats.error else s.error
  {
    s.(endTime := Some(now), actualDuration := Some(now - s.startTime),
       startTime := stats.startTime.GetOr(s.startTime),
       profilesStarted := stats.started.GetOr(s.profilesStarted),
       profilesCompleted := stats.completed.GetOr(s.profilesCompleted),
       profilesFailed := stats.failed.GetOr(s.profilesFailed),
       error := if stats.error.Some? then stats.error else s.error)
  }

  /** The metrics `_handle_profile_scraped` / `_handle_profile_failed` update. */
  function Counted(s: SessionRecord, failed: bool, now: int): (r: SessionRecord)
    ensures r.lastActivity == Some(now) && r.plan == s.plan && r.startTime == s.startTime
    ensures r.profilesCompleted == s.profilesCompleted + (if failed then 0 else 1)
    ensures r.profilesFailed == s.profilesFailed + (if failed then 1 else 0)
  {
    if failed then s.(profilesFailed := s.profilesFailed + 1, lastActivity := Some(now))
    else s.(profilesCompleted := s.profilesCompleted + 1, lastActivity := Some(now))
  }

  class Brain {
    var running: bool
    const machine: Machine<BrainData>
    const queue: QueueManager.Queue
    var special: SpecialHours
    var nextSessions: seq<SessionPlan>
    var currentSession: Option<SessionRecord>
    var memory: Memory

    ghost predicate Valid()
      reads this, machine
    {
      machine.Valid()
    }

    /** The bookkeeping fields are as they were. */
    twostate predicate SameBookkeeping()
      reads this
    {
      && special == old(special) && nextSessions == old(nextSessions)
      && currentSession == old(currentSession) && memory == old(memory)
    }

    twostate predicate SameMachine()
      reads machine
    {
      && machine.current == old(machine.current) && machine.stateData == old(machine.stateData)
      && machine.history == old(machine.history)
    }

    /**
     * `__init__`: an INACTIVE machine, the day's special hours, no plans and no
     * current session. `stored` is the memory file's content, if it exists.
     */
    constructor (queue: QueueManager.Queue, stored: Option<Memory>, threeDraw: int, first: nat, second: nat, now: int)
      requires 10 <= threeDraw <= 19 && first < 9 && second < 9 && first != second
      ensures Valid() && fresh(machine) && this.queue == queue
      ensures machine.current == Inactive && machine.stateData == None
      ensures !running && nextSessions == [] && currentSession == None
      ensures special == ConfigureSpecialHours(threeDraw, first, second)
      ensures memory == stored.GetOr(EmptyMemory(now))
    {
      running := false;
      machine := new Machine(Inactive, now);
      this.queue := queue;
      special := ConfigureSpecialHours(threeDraw, first, second);
      nextSessions := [];
      currentSession := None;
      memory := stored.GetOr(EmptyMemory(now));
    }

    function Pending(): nat
      reads this, queue
    {
      QueueManager.CountPending(queue.entries)
    }

    // ---------------------------------------------------------------- start, stop, activation

    /** `start`: refuses when already running; otherwise sets the flag (the loop thread is not part of this model). */
    method Start() returns (ok: bool)
      modifies this`running
      ensures ok == !old(running) && running
    {
      if running {
        return false;
      }
      running := true;
      return true;
    }

    /**
     * `stop`: refuses when not running; otherwise clears the flag and tries to
     * reset the machine to INACTIVE, which the table rejects from the
     * session-running states.
     */
    method Stop(now: int) returns (ok: bool)
      requires Valid()
      modifies this`running, machine
      ensures Valid() && ok == old(running) && !running
      ensures !old(running) ==> SameMachine()
      ensures old(running) ==>
        machine.current == (if old(machine.current) != Inactive && old(machine.CanTransition(Inactive)) then Inactive else old(machine.current))
      ensures old(machine.current) == FeedBrowsing ==> machine.current == FeedBrowsing
    {
      if !running {
        return false;
      }
      running := false;
      if machine.GetCurrentState() != Inactive {
        var _, _ := machine.Transition(Inactive, "Brain stopped", None, now);
      }
      return true;
    }

    /** `_check_and_activate`: from INACTIVE with pending profiles, go to WAITING and start. */
    method CheckAndActivate(now: int)
      requires Valid()
      modifies this`running, machine
      ensures Valid()
      ensures old(machine.current) == Inactive && Pending() > 0 ==> machine.current == WaitingForActiveHours && running
      ensures !(old(machine.current) == Inactive && Pending() > 0) ==> SameMachine() && running == old(running)
    {
      if machine.GetCurrentState() == Inactive && QueueManager.QueueStats(queue.entries, now).pending > 0 {
        var _, _ := machine.Transition(WaitingForActiveHours, "System activated due to pending profiles", None, now);
        if !running {
          var _ := Start();
        }
      }
    }

    /** `_handle_queue_updated`: activates exactly when INACTIVE with pending profiles. */
    method HandleQueueUpdated(now: int)
      requires Valid()
      modifies this`running, machine
      ensures Valid()
      ensures old(machine.current) == Inactive && Pending() > 0 ==> machine.current == WaitingForActiveHours && running
      ensures !(old(machine.current) == Inactive && Pending() > 0) ==> SameMachine() && running == old(running)
    {
      if machine.GetCurrentState() == Inactive && QueueManager.QueueStats(queue.entries, now).pending > 0 {
        CheckAndActivate(now);
      }
    }

    // ---------------------------------------------------------------- session bookkeeping

    /**
     * `session_started`: an unknown id changes nothing; otherwise the plan leaves
     * `next_sessions` and becomes the current session with zero counters, which
     * is returned as the SESSION_STARTED payload.
     */
    method SessionStarted(id: int, now: int) returns (started: Option<SessionRecord>)
      modifies this`nextSessions, this`currentSession
      ensures FindPlan(old(nextSessions), id).None? ==>
        started.None? && nextSessions == old(nextSessions) && currentSession == old(currentSession)
      ensures FindPlan(old(nextSessions), id).Some? ==>
        && started == Some(Opened(old(nextSessions)[FindPlan(old(nextSessions), id).value], now))
        && currentSession == started
        && nextSessions == WithoutId(old(nextSessions), id)
    {
      var plan: Option<SessionPlan> := None;
      var i := 0;
      while i < |nextSessions|
        invariant 0 <= i <= |nextSessions|
        invariant forall j :: 0 <= j < i ==> nextSessions[j].id != id
        invariant plan.None?
      {
        if nextSessions[i].id == id {
          plan := Some(nextSessions[i]);
          break;
        }
        i := i + 1;
      }
      FindPlanIs(nextSessions, id, i);
      if plan.None? {
        return None;
      }
      nextSessions := WithoutId(nextSessions, id);
      currentSession := Some(Opened(plan.value, now));
      return currentSession;
    }

    /**
     * `session_ended`: an id other than the current session's changes nothing.
     * Otherwise the closed record goes into memory and is returned as the
     * SESSION_ENDED payload, the machine is asked for COOLDOWN_PERIOD with a
     * cooldown of `cooldownMinutes` (`random.randint(10, 30)`), and the current
     * session is cleared whether or not the machine accepted.
     */
    method SessionEnded(id: int, stats: SessionStats, cooldownMinutes: int, now: int) returns (ended: Option<SessionRecord>)
      requires Valid() && 10 <= cooldownMinutes <= 30
      modifies this`memory, this`currentSession, machine
      ensures Valid()
      ensures (old(currentSession).None? || old(currentSession).value.plan.id != id) ==>
        ended.None? && SameMachine() && memory == old(memory) && currentSession == old(currentSession)
      ensures old(currentSession).Some? && old(currentSession).value.plan.id == id ==>
        && ended == Some(Closed(old(currentSession).value, stats, now))
        && memory == WithSession(old(memory), ended.value, now)
        && currentSession.None?
        && (old(machine.CanTransition(CooldownPeriod)) ==>
              machine.current == CooldownPeriod &&
              machine.stateData == Some(CooldownData(ended.value, cooldownMinutes, now + cooldownMinutes * 60)))
        && (!old(machine.CanTransition(CooldownPeriod)) ==> SameMachine())
      ensures old(machine.current) == FeedBrowsing ==> machine.current == FeedBrowsing
    {
      if currentSession.None? || currentSession.value.plan.id != id {
        return None;
      }
      var closed := Closed(currentSession.value, stats, now);
      UpdateMemoryWithSession(closed, now);
      EnterCooldown(closed, cooldownMinutes, now);
      currentSession := None;
      return Some(closed);
    }

    /** The COOLDOWN_PERIOD request of `session_ended`, holding the closed session and the cooldown's end. */
    method EnterCooldown(closed: SessionRecord, cooldownMinutes: int, now: int)
      requires Valid()
      modifies machine
      ensures Valid()
      ensures old(machine.CanTransition(CooldownPeriod)) ==>
        machine.current == CooldownPeriod &&
        machine.stateData == Some(CooldownData(closed, cooldownMinutes, now + cooldownMinutes * 60))
      ensures !old(machine.CanTransition(CooldownPeriod)) ==> SameMachine()
      ensures old(machine.current) == FeedBrowsing ==> SameMachine()
    {
      var end := now + cooldownMinutes * 60;
      var _, _ := machine.Transition(CooldownPeriod, "Session ended, cooldown", Some(CooldownData(closed, cooldownMinutes, end)), now);
    }

    /** `_update_memory_with_session`. */
    method UpdateMemoryWithSession(s: SessionRecord, now: int)
      modifies this`memory
      ensures memory == WithSession(old(memory), s, now)
    {
      memory := WithSession(memory, s, now);
    }

    /** `_update_memory_with_profile`. */
    method UpdateMemoryWithProfile(url: string, status: string, metadata: QueueManager.Metadata, now: int)
      modifies this`memory
      ensures memory == WithProfile(old(memory), url, status, metadata, now)
    {
      memory := WithProfile(memory, url, status, metadata, now);
    }

    /** `_handle_profile_scraped`: with a current session, count it and record the profile as completed. */
    method HandleProfileScraped(url: string, metadata: QueueManager.Metadata, now: int)
      modifies this`memory, this`currentSession
      ensures old(currentSession).None? ==> currentSession == old(currentSession) && memory == old(memory)
      ensures old(currentSession).Some? ==>
        && currentSession == Some(Counted(old(currentSession).value, false, now))
        && memory == WithProfile(old(memory), url, COMPLETED, metadata, now)
    {
      if currentSession.Some? {
        currentSession := Some(Counted(currentSession.value, false, now));
        UpdateMemoryWithProfile(url, COMPLETED, metadata, now);
      }
    }

    /** `_handle_profile_failed`: with a current session, count it and record the profile as failed. */
    method HandleProfileFailed(url: string, metadata: QueueManager.Metadata, now: int)
      modifies this`memory, this`currentSession
      ensures old(currentSession).None? ==> currentSession == old(currentSession) && memory == old(memory)
      ensures old(currentSession).Some? ==>
        && currentSession == Some(Counted(old(currentSession).value, true, now))
        && memory == WithProfile(old(memory), url, FAILED, metadata, now)
    {
      if currentSession.Some? {
        currentSession := Some(Counted(currentSession.value, true, now));
        UpdateMemoryWithProfile(url, FAILED, metadata, now);
      }
    }

    // ---------------------------------------------------------------- state handlers

    /** `_handle_waiting_for_active_hours`: plan inside active hours, else sleep toward the next one, at most 5 minutes. */
    method HandleWaiting(now: int) returns (sleep: int)
      requires Valid() && machine.current == WaitingForActiveHours
      modifies machine
      ensures Valid()
      ensures IsActiveHour(HourOf(now)) ==> machine.current == PlanningNextSession && sleep == 0
      ensures !IsActiveHour(HourOf(now)) ==> SameMachine() && sleep == WaitingSleep(now) && 0 < sleep <= 300
    {
      if IsActiveHour(HourOf(now)) {
        var _, _ := machine.Transition(PlanningNextSession, "Entered active hours", None, now);
        return 0;
      }
      WaitingSleepBounded(now);
      return WaitingSleep(now);
    }

    /**
     * `_handle_planning_next_session`: without pending profiles go back to
     * WAITING; otherwise plan a session, keep it in `next_sessions`, publish it
     * and move to SESSION_STARTING holding the plan, then sleep until its start.
     */
    method HandlePlanning(now: int, d: Draws) returns (sleep: int, planned: Option<SessionPlan>)
      requires Valid() && machine.current == PlanningNextSession && DrawsInRange(d)
      modifies this`nextSessions, machine
      ensures Valid()
      ensures Pending() == 0 ==> machine.current == WaitingForActiveHours && planned.None? && nextSessions == old(nextSessions) && sleep == 0
      ensures Pending() > 0 ==> planned.Some?
      ensures planned.Some? ==>
        && planned.value == PlanAt(now, queue.entries, memory, currentSession, special, d)
        && nextSessions == old(nextSessions) + [planned.value]
        && machine.current == SessionStarting && machine.stateData == Some(PlanData(planned.value))
        && sleep == (if planned.value.plannedStart > now then planned.value.plannedStart - now else 0)
    {
      // `get_queue_stats()["pending"]` is `Pending()` (QueueStats counts pending entries with CountPending).
      if Pending() == 0 {
        var _, _ := machine.Transition(WaitingForActiveHours, "No pending profiles in queue", None, now);
        return 0, None;
      }
      var plan := PlanSession(now, d);
      // The source's "failed to get profiles" fallback to WAITING cannot be reached.
      if |plan.profiles| == 0 {
        assert false;
      }
      CommitPlan(plan, now);
      sleep := if plan.plannedStart > now then plan.plannedStart - now else 0;
      planned := Some(plan);
    }

    /** The plan of `_handle_planning_next_session` on the current queue, memory and session: with pending profiles it is never empty. */
    method PlanSession(now: int, d: Draws) returns (plan: SessionPlan)
      requires DrawsInRange(d) && Pending() > 0
      ensures plan == PlanAt(now, queue.entries, memory, currentSession, special, d)
      ensures |plan.profiles| > 0
    {
      plan := PlanAt(now, queue.entries, memory, currentSession, special, d);
      PlanningAlwaysFindsProfiles(now, queue.entries, memory, currentSession, special, d);
    }

    /** Keep the plan in `next_sessions` and move to SESSION_STARTING holding it. */
    method CommitPlan(plan: SessionPlan, now: int)
      requires Valid() && machine.current == PlanningNextSession
      modifies this`nextSessions, machine
      ensures Valid()
      ensures nextSessions == old(nextSessions) + [plan]
      ensures machine.current == SessionStarting && machine.stateData == Some(PlanData(plan))
    {
      nextSessions := nextSessions + [plan];
      var _, _ := machine.Transition(SessionStarting, "Session planned", Some(PlanData(plan)), now);
    }

    /**
     * `_handle_cooldown_period`: outside active hours go to WAITING; once the
     * cooldown end has passed go to PLANNING; otherwise sleep toward it, at most
     * a minute.
     */
    method HandleCooldown(now: int) returns (sleep: int)
      requires Valid() && machine.current == CooldownPeriod
      modifies machine
      ensures Valid()
      ensures !IsActiveHour(HourOf(now)) ==> machine.current == WaitingForActiveHours && sleep == 0
      ensures IsActiveHour(HourOf(now)) && now >= CooldownEnd(old(machine.stateData), now) ==>
        machine.current == PlanningNextSession && sleep == 0
      ensures IsActiveHour(HourOf(now)) && now < CooldownEnd(old(machine.stateData), now) ==>
        SameMachine() && 0 < sleep <= 60 && sleep <= CooldownEnd(old(machine.stateData), now) - now
    {
      if !IsActiveHour(HourOf(now)) {
        var _, _ := machine.Transition(WaitingForActiveHours, "Cooldown ended outside active hours", None, now);
        return 0;
      }
      var end := CooldownEnd(machine.GetStateData(), now);
      if now >= end {
        var _, _ := machine.Transition(PlanningNextSession, "Cooldown period ended", None, now);
        return 0;
      }
      sleep := if end - now < 60 then end - now else 60;
    }

    /** `_handle_error_state`: sleep 30 s, then go back to WAITING. */
    method HandleError(now: int) returns (sleep: int)
      requires Valid() && machine.current == Error
      modifies machine
      ensures Valid() && machine.current == WaitingForActiveHours && sleep == 30
    {
      var _, _ := machine.Transition(WaitingForActiveHours, "Recovering from error state", None, now + 30);
      return 30;
    }

    /**
     * The SESSION_STARTING branch of the main loop: once the held plan is due,
     * start it and move to FEED_BROWSING; before that, or without a plan,
     * nothing happens.
     */
    method HandleSessionStarting(now: int) returns (started: Option<SessionRecord>)
      requires Valid() && machine.current == SessionStarting
      modifies this`nextSessions, this`currentSession, machine
      ensures Valid()
      ensures PlanDue(old(machine.stateData), now) ==>
        var id := old(machine.stateData).value.plan.id;
        && machine.current == FeedBrowsing && machine.stateData == Some(SessionIdData(id))
        && (FindPlan(old(nextSessions), id).Some? <==> started.Some?)
        && (started.Some? ==> currentSession == started && started.value.plan.id == id)
      ensures !PlanDue(old(machine.stateData), now) ==> SameMachine() && SameBookkeeping() && started.None?
    {
      started := None;
      match machine.GetStateData() {
        case Some(PlanData(plan)) =>
          if now >= plan.plannedStart {
            started := SessionStarted(plan.id, now);
            var _, _ := machine.Transition(FeedBrowsing, "Starting session", Some(SessionIdData(plan.id)), now);
          }
        case _ =>
      }
    }

    /**
     * One iteration of `_main_loop` while running: the handler for the current
     * state, then the loop's one-second sleep. `fault` is an exception raised
     * by the handler before it changed anything; it sends the machine to ERROR
     * and the loop sleeps 10 s. States without a handler (INACTIVE and the
     * session-running ones) are left as they are.
     */
    method Step(now: int, d: Draws, fault: Option<string>) returns (sleep: int, events: seq<BrainEvent>)
      requires Valid() && DrawsInRange(d)
      modifies this`nextSessions, this`currentSession, machine
      ensures Valid()
      ensures !running ==> SameMachine() && SameBookkeeping() && sleep == 0 && events == []
      ensures running && fault.Some? ==> machine.current == Error && SameBookkeeping() && sleep == 10 && events == []
      ensures running && fault.None? && old(machine.current) in {Inactive, FeedBrowsing, ProfileScraping, SessionEnding} ==>
        SameMachine() && SameBookkeeping() && sleep == 1 && events == []
      ensures running && fault.None? && old(machine.current) != SessionStarting ==>
        currentSession == old(currentSession)
      ensures running && fault.None? && old(machine.current) == SessionStarting ==>
        if PlanDue(old(machine.stateData), now) then
          var id := old(machine.stateData).value.plan.id;
          && machine.current == FeedBrowsing && sleep == 1
          && (if FindPlan(old(nextSessions), id).Some? then
                currentSession.Some? && currentSession.value.plan.id == id && events == [SessionStartedEvent(currentSession.value)]
              else events == [])
        else SameMachine() && SameBookkeeping() && sleep == 1 && events == []
    {
      if !running {
        return 0, [];
      }
      if fault.Some? {
        var _, _ := machine.Transition(Error, "Error in main loop", Some(ErrorData(fault.value)), now);
        return 10, [];
      }
      events := [];
      var handlerSleep := 0;
      match machine.GetCurrentState() {
        case WaitingForActiveHours =>
          handlerSleep := HandleWaiting(now);
        case PlanningNextSession =>
          var planned;
          handlerSleep, planned := HandlePlanning(now, d);
          if planned.Some? {
            events := [SessionPlanned(planned.value)];
          }
        case CooldownPeriod =>
          handlerSleep := HandleCooldown(now);
        case Error =>
          handlerSleep := HandleError(now);
        case SessionStarting =>
          var started := HandleSessionStarting(now);
          if started.Some? {
            events := [SessionStartedEvent(started.value)];
          }
        case _ =>
      }
      sleep := handlerSleep + 1;
    }
  }

  /** SESSION_STARTING's state data is a plan whose start time has come. */
  predicate PlanDue(data: Option<BrainData>, now: int) {
    data.Some? && data.value.PlanData? && now >= data.value.plan.plannedStart
  }

  /** The FIND loop of `session_started` stops at FindPlan's index, or runs off the end exactly when there is none. */
  lemma {:induction false} FindPlanIs(plans: seq<SessionPlan>, id: int, i: nat)
    requires i <= |plans|
    requires forall j :: 0 <= j < i ==> plans[j].id != id
    requires i < |plans| ==> plans[i].id == id
    ensures i < |plans| ==> FindPlan(plans, id) == Some(i)
    ensures i == |plans| ==> FindPlan(plans, id).None?
    decreases i
  {
    if i > 0 {
      FindPlanIs(plans[1..], id, i - 1);
    }
  }
}
