/** utils/state_machine.py: the guarded operating-state machine. */
module StateMachine {
  import opened Wrappers

  /** The values of STATES. */
  datatype State =
    | Inactive
    | WaitingForActiveHours
    | PlanningNextSession
    | SessionStarting
    | FeedBrowsing
    | ProfileScraping
    | SessionEnding
    | CooldownPeriod
    | Error

  /**
   * The static `valid_transitions` table. ERROR can be entered from every other
   * state and leads back only to INACTIVE, WAITING_FOR_ACTIVE_HOURS and
   * PLANNING_NEXT_SESSION. FEED_BROWSING and PROFILE_SCRAPING have no edge to
   * INACTIVE or COOLDOWN_PERIOD.
   */
  function ValidTransitions(s: State): (r: set<State>)
    ensures s != Error <==> Error in r
    ensures s == Error ==> r == {Inactive, WaitingForActiveHours, PlanningNextSession}
    ensures s == FeedBrowsing || s == ProfileScraping ==> Inactive !in r && CooldownPeriod !in r
    ensures s in r <==> s == ProfileScraping
  {
    match s
    case Inactive => {WaitingForActiveHours, Error}
    case WaitingForActiveHours => {PlanningNextSession, Inactive, Error}
    case PlanningNextSession => {SessionStarting, WaitingForActiveHours, Inactive, Error}
    case SessionStarting => {FeedBrowsing, Inactive, Error}
    case FeedBrowsing => {ProfileScraping, SessionEnding, Error}
    case ProfileScraping => {ProfileScraping, SessionEnding, Error}
    case SessionEnding => {CooldownPeriod, Inactive, Error}
    case CooldownPeriod => {PlanningNextSession, WaitingForActiveHours, Inactive, Error}
    case Error => {Inactive, WaitingForActiveHours, PlanningNextSession}
  }

  /** One `state_history` record; `oldState` is None only for the initial record. */
  datatype Change = Change(timestamp: int, oldState: Option<State>, newState: State, reason: string)

  /** The payload of the SYSTEM_STATE_CHANGED event a successful transition publishes. */
  datatype StateChanged<D> = StateChanged(oldState: State, newState: State, reason: string, data: Option<D>, timestamp: int)

  const MAX_HISTORY: nat := 100

  /** `_record_state_change` on the list: append, then keep the last 100. */
  function Recorded(h: seq<Change>, c: Change): (r: seq<Change>)
    ensures |r| == if |h| < MAX_HISTORY then |h| + 1 else MAX_HISTORY
    ensures r[|r| - 1] == c
    ensures r[..|r| - 1] == h[|h| + 1 - |r|..]
  {
    var all := h + [c];
    if |all| > MAX_HISTORY then all[|all| - MAX_HISTORY..] else all
  }

  /** `l[-limit:]` for `limit > 0`, a copy of the whole list otherwise. */
  function LastEntries(h: seq<Change>, limit: int): (r: seq<Change>)
    ensures limit <= 0 ==> r == h
    ensures limit > 0 ==> |r| == if limit < |h| then limit else |h|
    ensures r == h[|h| - |r|..]
  {
    if limit > 0 && limit < |h| then h[|h| - limit..] else h
  }

  /**
   * The machine. `stateData` is None until a transition supplies a payload
   * (the initial `{}`); the payload type D is chosen by the owner.
   */
  class Machine<D> {
    var current: State
    var stateData: Option<D>
    var history: seq<Change>

    ghost predicate Valid()
      reads this
    {
      && 1 <= |history| <= MAX_HISTORY
      && history[|history| - 1].newState == current
    }

    constructor (initial: State, now: int)
      ensures Valid()
      ensures current == initial && stateData == None
      ensures history == [Change(now, None, initial, "Initialization")]
    {
      current := initial;
      stateData := None;
      history := [Change(now, None, initial, "Initialization")];
    }

    /** `can_transition`: whether `transition(state)` passes its guard. */
    predicate CanTransition(state: State)
      reads this
    {
      state in ValidTransitions(current)
    }

    /** `get_current_state`. */
    function GetCurrentState(): State
      reads this
    {
      current
    }

    /** `get_state_data`: a copy of the payload. */
    function GetStateData(): Option<D>
      reads this
    {
      stateData
    }

    /** `get_history(limit)`. */
    function GetHistory(limit: int): (r: seq<Change>)
      reads this
      ensures limit > 0 ==> |r| <= limit
      ensures limit <= 0 ==> r == history
      ensures |r| <= |history| && r == history[|history| - |r|..]
    {
      LastEntries(history, limit)
    }

    /**
     * `transition`: rejected (false, nothing changes) unless `newState` is in the
     * table for the current state; otherwise swaps the state, replaces the payload
     * wholesale when `data` is given (truthy), appends one history record and
     * publishes a SYSTEM_STATE_CHANGED event.
     */
    method Transition(newState: State, reason: string, data: Option<D>, now: int)
      returns (ok: bool, published: Option<StateChanged<D>>)
      requires Valid()
      modifies this
      ensures Valid()
      ensures ok == old(CanTransition(newState))
      ensures !ok ==> current == old(current) && stateData == old(stateData) && history == old(history)
      ensures !ok ==> published == None
      ensures ok ==> current == newState
      ensures ok ==> stateData == (if data.Some? then data else old(stateData))
      ensures ok ==> history == Recorded(old(history), Change(now, Some(old(current)), newState, reason))
      ensures ok ==> published == Some(StateChanged(old(current), newState, reason, data, now))
    {
      if newState !in ValidTransitions(current) {
        return false, None;
      }
      var oldState := current;
      current := newState;
      if data.Some? {
        stateData := data;
      }
      RecordStateChange(newState, Some(oldState), reason, now);
      ok, published := true, Some(StateChanged(oldState, newState, reason, data, now));
    }

    /** `_record_state_change`. */
    method RecordStateChange(newState: State, oldState: Option<State>, reason: string, now: int)
      modifies this`history
      ensures history == Recorded(old(history), Change(now, oldState, newState, reason))
    {
      history := history + [Change(now, oldState, newState, reason)];
      if |history| > MAX_HISTORY {
        history := history[|history| - MAX_HISTORY..];
      }
    }
  }

  /** A transition that passes the guard leaves the new state's record last in the history. */
  lemma {:induction false} TransitionRecordIsLast(h: seq<Change>, c: Change, limit: int)
    requires limit > 0
    ensures var r := LastEntries(Recorded(h, c), limit); |r| >= 1 && r[|r| - 1] == c
  {
    var rec := Recorded(h, c);
    var r := LastEntries(rec, limit);
    assert |rec| >= 1;
    assert r == rec[|rec| - |r|..];
  }

  /** Two successful transitions appear as the last two history records, in order. */
  lemma {:induction false} TwoTransitionsInHistory(h: seq<Change>, c1: Change, c2: Change)
    ensures var r := Recorded(Recorded(h, c1), c2); |r| >= 2 && r[|r| - 2] == c1 && r[|r| - 1] == c2
  {
    var r1 := Recorded(h, c1);
    var r := Recorded(r1, c2);
    assert r[..|r| - 1] == r1[|r1| + 1 - |r|..];
    assert r[|r| - 2] == r[..|r| - 1][|r| - 2];
  }
}
