/** utils/event_bus.py: publish/subscribe with a bounded per-type history. */
module EventBus {
  import opened Wrappers

  /** A subscribed callback, compared by identity as Python compares bound methods. */
  type HandlerId = nat

  /** One history record: `{"timestamp": ..., "data": ...}`. */
  datatype Record<D> = Record(timestamp: int, data: D)

  /** `max_history`. */
  const MAX_HISTORY: nat := 100

  predicate NoDuplicates<T(==)>(s: seq<T>) {
    forall i, j :: 0 <= i < j < |s| ==> s[i] != s[j]
  }

  /** `h[-cap:]` when `h` is longer than `cap`, else `h`: the most recent `cap` records. */
  function KeepLast<T>(h: seq<T>, cap: nat): (r: seq<T>)
    ensures |r| == if |h| <= cap then |h| else cap
    ensures r == h[|h| - |r|..]
  {
    if |h| > cap then h[|h| - cap..] else h
  }

  /** The subscriber list after `subscribe`: the callback is appended unless it is already there. */
  function AddIfAbsent(s: seq<HandlerId>, x: HandlerId): (r: seq<HandlerId>)
    requires NoDuplicates(s)
    ensures NoDuplicates(r)
    ensures x in r
    ensures forall y :: y in r <==> y in s || y == x
    ensures x in s ==> r == s
    ensures x !in s ==> r == s + [x]
  {
    if x in s then s else s + [x]
  }

  /** Python's `list.remove(x)`: drops the first occurrence of `x`. */
  function RemoveFirst(s: seq<HandlerId>, x: HandlerId): (r: seq<HandlerId>)
    requires x in s
    ensures |r| == |s| - 1
    ensures multiset(r) == multiset(s) - multiset{x}
  {
    assert s == [s[0]] + s[1..];
    if s[0] == x then s[1..] else [s[0]] + RemoveFirst(s[1..], x)
  }

  /** On a duplicate-free list, removing `x` removes it entirely and only it. */
  lemma {:induction false} RemoveFirstExact(s: seq<HandlerId>, x: HandlerId)
    requires x in s && NoDuplicates(s)
    ensures NoDuplicates(RemoveFirst(s, x))
    ensures forall y :: y in RemoveFirst(s, x) <==> y in s && y != x
  {
    assert s == [s[0]] + s[1..];
    if s[0] == x {
      assert x !in s[1..];
    } else {
      RemoveFirstExact(s[1..], x);
      var rest := RemoveFirst(s[1..], x);
      assert s[0] !in s[1..];
      assert s[0] !in rest;
      var r := [s[0]] + rest;
      forall i, j | 0 <= i < j < |r| ensures r[i] != r[j] {
        if i > 0 { assert r[i] == rest[i - 1] && r[j] == rest[j - 1]; }
        else { assert r[j] == rest[j - 1]; assert r[j] in rest; }
      }
    }
  }

  /** What `get_history` returns: the whole table, or one type's list. */
  datatype HistoryView<D> = Whole(table: map<string, seq<Record<D>>>) | OfType(records: seq<Record<D>>)

  class Bus<D> {
    var subscribers: map<string, seq<HandlerId>>
    var history: map<string, seq<Record<D>>>

    ghost predicate Valid()
      reads this
    {
      && (forall t :: t in subscribers ==> NoDuplicates(subscribers[t]))
      && (forall t :: t in history ==> |history[t]| <= MAX_HISTORY)
    }

    /** The subscribers of `eventType`, empty when none was ever registered. */
    function SubscribersOf(eventType: string): seq<HandlerId>
      reads this
    {
      if eventType in subscribers then subscribers[eventType] else []
    }

    /** `history.get(event_type, [])`. */
    function HistoryOf(eventType: string): seq<Record<D>>
      reads this
    {
      if eventType in history then history[eventType] else []
    }

    constructor ()
      ensures Valid()
      ensures subscribers == map[] && history == map[]
    {
      subscribers := map[];
      history := map[];
    }

    /** `subscribe`: registers `callback` at most once per event type. */
    method Subscribe(eventType: string, callback: HandlerId)
      requires Valid()
      modifies this
      ensures Valid()
      ensures subscribers == old(subscribers)[eventType := AddIfAbsent(old(SubscribersOf(eventType)), callback)]
      ensures callback in SubscribersOf(eventType)
      ensures history == old(history)
    {
      var current := SubscribersOf(eventType);
      subscribers := subscribers[eventType := AddIfAbsent(current, callback)];
    }

    /** `unsubscribe`: removes `callback` when it is registered, else changes nothing. */
    method Unsubscribe(eventType: string, callback: HandlerId)
      requires Valid()
      modifies this
      ensures Valid()
      ensures callback !in SubscribersOf(eventType)
      ensures if callback in old(SubscribersOf(eventType))
              then subscribers == old(subscribers)[eventType := RemoveFirst(old(SubscribersOf(eventType)), callback)]
              else subscribers == old(subscribers)
      ensures forall t :: t != eventType ==> SubscribersOf(t) == old(SubscribersOf(t))
      ensures history == old(history)
    {
      if eventType in subscribers && callback in subscribers[eventType] {
        RemoveFirstExact(subscribers[eventType], callback);
        subscribers := subscribers[eventType := RemoveFirst(subscribers[eventType], callback)];
      }
    }

    /**
     * `publish`: records the event, then calls every subscriber of the type, in
     * subscription order, over a copy of the list taken before the first call.
     * `raising` names the handlers whose call raises; each failure is caught and
     * logged, so it neither stops the later handlers nor reaches the publisher.
     * `invoked` lists the calls made, `failed` the ones that raised.
     */
    method Publish(eventType: string, data: D, now: int, raising: set<HandlerId>)
      returns (invoked: seq<HandlerId>, failed: seq<HandlerId>)
      requires Valid()
      modifies this
      ensures Valid()
      ensures history == old(history)[eventType := KeepLast(old(HistoryOf(eventType)) + [Record(now, data)], MAX_HISTORY)]
      ensures subscribers == old(subscribers)
      ensures invoked == old(SubscribersOf(eventType))
      ensures forall h :: h in failed <==> h in invoked && h in raising
      ensures |failed| <= |invoked|
    {
      var records := HistoryOf(eventType) + [Record(now, data)];
      history := history[eventType := records];
      if |history[eventType]| > MAX_HISTORY {
        history := history[eventType := KeepLast(records, MAX_HISTORY)];
      }

      var snapshot := SubscribersOf(eventType);
      invoked, failed := [], [];
      var i := 0;
      while i < |snapshot|
        invariant 0 <= i <= |snapshot|
        invariant invoked == snapshot[..i]
        invariant forall h :: h in failed <==> h in invoked && h in raising
        invariant |failed| <= |invoked|
      {
        var callback := snapshot[i];
        invoked := invoked + [callback];
        if callback in raising {
          failed := failed + [callback];
        }
        i := i + 1;
      }
      assert snapshot[..|snapshot|] == snapshot;
    }

    /** `get_history`: the whole table for no (or an empty) type, else that type's records. */
    function GetHistory(eventType: Option<string>): (r: HistoryView<D>)
      reads this
      ensures eventType.None? || eventType == Some("") ==> r == Whole(history)
      ensures eventType.Some? && eventType.value != "" && eventType.value !in history ==> r == OfType([])
    {
      match eventType
      case Some(t) => if t != "" then OfType(HistoryOf(t)) else Whole(history)
      case None => Whole(history)
    }
  }

  /** Publishing keeps a type's history bounded, and the newest record is the one just published. */
  lemma {:induction false} PublishedHistoryBounded<D>(before: seq<Record<D>>, rec: Record<D>)
    requires |before| <= MAX_HISTORY
    ensures var after := KeepLast(before + [rec], MAX_HISTORY);
      && |after| <= MAX_HISTORY
      && after[|after| - 1] == rec
      && (|before| < MAX_HISTORY ==> after == before + [rec])
      && (|before| == MAX_HISTORY ==> after == before[1..] + [rec])
  {
    var all := before + [rec];
    var after := KeepLast(all, MAX_HISTORY);
    if |before| == MAX_HISTORY {
      assert after == all[1..];
      assert all[1..] == before[1..] + [rec];
    }
  }
}
