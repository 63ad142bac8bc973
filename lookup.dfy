/**
 * The rate limiter of services/lookup/lookup.py: per-function call history,
 * a 10-second cooldown, a cap of 70 calls per hour, pruning after a day, and
 * the choice of a callable function. The lookup functions themselves are not
 * part of this model: their result is a parameter.
 */
module Lookup {
  import opened Wrappers

  const COOLDOWN_SECONDS: int := 10
  const MAX_CALLS_PER_HOUR: nat := 70
  const ONE_HOUR: int := 3600
  const ONE_DAY: int := 86400

  /** The keys of `lookup_functions`, in their insertion order. */
  const FUNCTION_NAMES: seq<string> := [
    "get_lkd_profile_devloper_nbo",
    "get_lkd_profile_muhammad_helmey_006",
    "get_lkd_profile_ahmed_helmey_006",
    "get_lkd_profile_ahmed_modelwiz",
    "get_lkd_profile_ahmed_helmey_009",
    "get_lkd_profile_ichbin"
  ]

  /** `[call for call in calls if call > t]`. */
  function NewerThan(calls: seq<int>, t: int): (r: seq<int>)
    ensures |r| <= |calls|
    ensures forall k :: 0 <= k < |r| ==> r[k] > t
    ensures forall c :: c in calls && c > t ==> c in r
    ensures forall c :: c in r ==> c in calls
  {
    if |calls| == 0 then []
    else
      var rest := NewerThan(calls[..|calls| - 1], t);
      var last := calls[|calls| - 1];
      assert forall c :: c in calls ==> c in calls[..|calls| - 1] || c == last;
      if last > t then rest + [last] else rest
  }

  /** Filtering keeps the original order: the filtered list is a subsequence of the input. */
  predicate Subsequence(r: seq<int>, s: seq<int>) {
    if |r| == 0 then true
    else if |s| == 0 then false
    else if r[|r| - 1] == s[|s| - 1] then Subsequence(r[..|r| - 1], s[..|s| - 1])
    else Subsequence(r, s[..|s| - 1])
  }

  lemma {:induction false} NewerThanSubsequence(calls: seq<int>, t: int)
    ensures Subsequence(NewerThan(calls, t), calls)
    decreases |calls|
  {
    if |calls| > 0 {
      var init := calls[..|calls| - 1];
      NewerThanSubsequence(init, t);
      var rest := NewerThan(init, t);
      if calls[|calls| - 1] > t {
        assert (rest + [calls[|calls| - 1]])[..|rest|] == rest;
      }
    }
  }

  /** A list whose entries are all newer than `t` is kept whole. */
  lemma {:induction false} NewerThanAll(calls: seq<int>, t: int)
    requires forall k :: 0 <= k < |calls| ==> calls[k] > t
    ensures NewerThan(calls, t) == calls
    decreases |calls|
  {
    if |calls| > 0 {
      NewerThanAll(calls[..|calls| - 1], t);
      assert calls[..|calls| - 1] + [calls[|calls| - 1]] == calls;
    }
  }

  /** `_can_call_function` on one function's history at time `now`. */
  predicate Callable(calls: seq<int>, now: int) {
    && !(|calls| > 0 && now - calls[|calls| - 1] < COOLDOWN_SECONDS)
    && |NewerThan(calls, now - ONE_HOUR)| < MAX_CALLS_PER_HOUR
  }

  /** A function never called is callable; one called less than 10 s ago is not; 70 calls in the last hour block it. */
  lemma CallableRules(calls: seq<int>, now: int)
    ensures |calls| == 0 ==> Callable(calls, now)
    ensures |calls| > 0 && now - calls[|calls| - 1] < COOLDOWN_SECONDS ==> !Callable(calls, now)
    ensures |NewerThan(calls, now - ONE_HOUR)| >= MAX_CALLS_PER_HOUR ==> !Callable(calls, now)
    ensures Callable(calls, now) <==>
      (|calls| == 0 || now - calls[|calls| - 1] >= COOLDOWN_SECONDS) && |NewerThan(calls, now - ONE_HOUR)| < MAX_CALLS_PER_HOUR
  {
  }

  /** `_record_call` on one function's history: append `now`, then drop what is a day old or older. */
  function Recorded(calls: seq<int>, now: int): seq<int> {
    NewerThan(calls + [now], now - ONE_DAY)
  }

  /**
   * After a call is recorded, the history ends with it, holds only calls of the
   * last day in their original order, and the function is not callable again
   * for 10 seconds.
   */
  lemma {:induction false} RecordedSpec(calls: seq<int>, now: int, later: int)
    requires now <= later < now + COOLDOWN_SECONDS
    ensures var r := Recorded(calls, now);
      && |r| > 0 && r[|r| - 1] == now
      && (forall k :: 0 <= k < |r| ==> r[k] > now - ONE_DAY)
      && Subsequence(r, calls + [now])
      && !Callable(r, later)
  {
    var all := calls + [now];
    assert all[..|all| - 1] == calls;
    NewerThanSubsequence(all, now - ONE_DAY);
  }

  /** The names `_select_available_function` collects, in order. */
  function AvailableAmong(names: seq<string>, history: map<string, seq<int>>, now: int): (r: seq<string>)
    ensures forall n :: n in r <==> n in names && Callable(CallsIn(history, n), now)
  {
    if |names| == 0 then []
    else
      var rest := AvailableAmong(names[..|names| - 1], history, now);
      var last := names[|names| - 1];
      assert forall n :: n in names <==> n in names[..|names| - 1] || n == last;
      if Callable(CallsIn(history, last), now) then rest + [last] else rest
  }

  /** `self.call_history.get(name, [])`. */
  function CallsIn(history: map<string, seq<int>>, name: string): seq<int> {
    if name in history then history[name] else []
  }

  datatype LookupError = InvalidEmail(email: string) | RateLimited

  class Limiter {
    var callHistory: map<string, seq<int>>

    constructor ()
      ensures callHistory == map n | n in FUNCTION_NAMES :: []
    {
      callHistory := map n | n in FUNCTION_NAMES :: [];
    }

    function CallsOf(name: string): seq<int>
      reads this
    {
      CallsIn(callHistory, name)
    }

    /** `_can_call_function`. */
    predicate CanCall(name: string, now: int)
      reads this
    {
      Callable(CallsOf(name), now)
    }

    function Available(now: int): seq<string>
      reads this
    {
      AvailableAmong(FUNCTION_NAMES, callHistory, now)
    }

    /**
     * `_select_available_function`: None exactly when no function is callable;
     * otherwise a callable function, the one at position `pick` (what
     * `random.choice` draws) of the callable ones.
     */
    method SelectAvailable(now: int, pick: nat) returns (r: Option<string>)
      ensures r.None? <==> forall n :: n in FUNCTION_NAMES ==> !CanCall(n, now)
      ensures r.Some? ==> r.value in FUNCTION_NAMES && CanCall(r.value, now)
      ensures r.Some? ==> |Available(now)| > 0 && r.value == Available(now)[pick % |Available(now)|]
    {
      var available := CollectCallable(FUNCTION_NAMES, now);
      if |available| == 0 {
        forall n | n in FUNCTION_NAMES ensures !CanCall(n, now) {
          assert n !in available;
        }
        return None;
      }
      var name := available[pick % |available|];
      assert name in available;
      return Some(name);
    }

    /** The loop of `_select_available_function` over the function names. */
    method CollectCallable(names: seq<string>, now: int) returns (available: seq<string>)
      ensures available == AvailableAmong(names, callHistory, now)
    {
      available := [];
      var i := 0;
      while i < |names|
        invariant 0 <= i <= |names|
        invariant available == AvailableAmong(names[..i], callHistory, now)
      {
        assert names[..i + 1][..i] == names[..i];
        if CanCall(names[i], now) {
          available := available + [names[i]];
        }
        i := i + 1;
      }
      assert names[..i] == names;
    }

    /** `_record_call`: only `name`'s history changes. */
    method RecordCall(name: string, now: int)
      modifies this
      ensures callHistory == old(callHistory)[name := Recorded(old(CallsOf(name)), now)]
    {
      var calls := CallsOf(name) + [now];
      callHistory := callHistory[name := NewerThan(calls, now - ONE_DAY)];
    }

    /**
     * The control flow of `lookup_by_email`: an invalid email, or no callable
     * function, fails without recording anything; otherwise the call is recorded
     * before the lookup, whose outcome `found` is returned.
     */
    method LookupByEmail(email: string, emailValid: bool, now: int, pick: nat, found: Option<string>)
      returns (r: Result<Option<string>, LookupError>, used: Option<string>)
      modifies this
      ensures !emailValid ==> r == Failure(InvalidEmail(email)) && used.None? && callHistory == old(callHistory)
      ensures emailValid && (forall n :: n in FUNCTION_NAMES ==> !old(CanCall(n, now))) ==>
        r == Failure(RateLimited) && used.None? && callHistory == old(callHistory)
      ensures r.Success? ==>
        && r.value == found && used.Some? && used.value in FUNCTION_NAMES && old(CanCall(used.value, now))
        && callHistory == old(callHistory)[used.value := Recorded(old(CallsOf(used.value)), now)]
      ensures r.Success? <==> emailValid && exists n :: n in FUNCTION_NAMES && old(CanCall(n, now))
    {
      if !emailValid {
        return Failure(InvalidEmail(email)), None;
      }
      var name := SelectAvailable(now, pick);
      if name.None? {
        return Failure(RateLimited), None;
      }
      RecordCall(name.value, now);
      return Success(found), name;
    }
  }
}
