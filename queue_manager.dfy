/** services/linked_navigator/queue_manager.py: the profile queue, one entry per URL. */
module QueueManager {
  import opened Wrappers
  import opened Config

  /** An entry's `metadata` dict; the empty map stands for "no metadata key". */
  type Metadata = map<string, string>

  /** One queue record. Timestamps are seconds; the source stores ISO strings of the same instants. */
  datatype Entry = Entry(
    url: string,
    done: bool,
    urgent: bool,
    initiator: string,
    status: string,
    createdAt: int,
    updatedAt: int,
    metadata: Metadata)

  /** The payload of the event an operation publishes. */
  datatype Payload =
    | UrlAction(action: string, url: string)
    | StatusUpdate(url: string, status: string, metadata: Option<Metadata>)
    | Cleared

  datatype Notice = Notice(eventType: string, payload: Payload)

  predicate UniqueUrls(q: seq<Entry>) {
    forall i, j :: 0 <= i < j < |q| ==> q[i].url != q[j].url
  }

  predicate HasUrl(q: seq<Entry>, url: string) {
    exists i :: 0 <= i < |q| && q[i].url == url
  }

  /** The index the source's `for entry in queue` loop stops at: the first entry with `url`. */
  function Find(q: seq<Entry>, url: string): (r: Option<nat>)
    ensures r.Some? ==> r.value < |q| && q[r.value].url == url
    ensures r.Some? ==> forall j :: 0 <= j < r.value ==> q[j].url != url
    ensures r.None? <==> !HasUrl(q, url)
  {
    if |q| == 0 then None
    else if q[0].url == url then Some(0)
    else
      match Find(q[1..], url)
      case None => (assert forall j :: 1 <= j < |q| ==> q[j] == q[1..][j - 1]; None)
      case Some(i) => Some(i + 1)
  }

  // ---------------------------------------------------------------- add_profile

  /** The record `add_profile` appends for a URL it has not seen. */
  function NewEntry(url: string, urgent: bool, initiator: string, now: int): Entry {
    Entry(url, false, urgent, initiator, QUEUED, now, now, map[])
  }

  /** How `add_profile` updates the existing record of the URL. */
  function Requeued(e: Entry, urgent: bool, initiator: string, now: int): (r: Entry)
    ensures !r.done
    ensures r.url == e.url && r.status == e.status && r.createdAt == e.createdAt && r.metadata == e.metadata
    ensures e.done ==> r.urgent == (urgent || e.urgent)
    ensures e.done ==> r.initiator == (if initiator == "" then e.initiator else initiator)
    ensures !e.done ==> r.initiator == e.initiator
    ensures !e.done ==> (r.urgent <==> e.urgent || urgent)
    ensures !e.done && e.urgent ==> r == e
  {
    if e.done then
      e.(done := false, urgent := urgent || e.urgent,
         initiator := if initiator != "" then initiator else e.initiator, updatedAt := now)
    else if urgent && !e.urgent then
      e.(urgent := true, updatedAt := now)
    else e
  }

  /**
   * The queue after `add_profile(url, urgent, initiator)`: an unseen URL gets one
   * new pending entry; a seen one keeps its place and the length stays the same.
   */
  function AfterAdd(q: seq<Entry>, url: string, urgent: bool, initiator: string, now: int): (r: seq<Entry>)
    ensures HasUrl(q, url) ==> |r| == |q|
    ensures HasUrl(q, url) ==> r == q[Find(q, url).value := Requeued(q[Find(q, url).value], urgent, initiator, now)]
    ensures !HasUrl(q, url) ==> r == q + [NewEntry(url, urgent, initiator, now)]
    ensures UniqueUrls(q) ==> UniqueUrls(r)
    ensures Find(r, url).Some? && !r[Find(r, url).value].done
    ensures forall j :: 0 <= j < |q| && q[j].url != url ==> r[j] == q[j]
  {
    match Find(q, url)
    case Some(i) =>
      var r := q[i := Requeued(q[i], urgent, initiator, now)];
      FindFirstAt(r, url, i);
      assert UniqueUrls(q) ==> UniqueUrls(r) by {
        assert forall j :: 0 <= j < |q| ==> r[j].url == q[j].url;
      }
      r
    case None =>
      var r := q + [NewEntry(url, urgent, initiator, now)];
      FindFirstAt(r, url, |q|);
      r
  }

  /** The first entry with `url` is the one Find stops at. */
  lemma {:induction false} FindFirstAt(q: seq<Entry>, url: string, i: nat)
    requires i < |q| && q[i].url == url
    requires forall j :: 0 <= j < i ==> q[j].url != url
    ensures Find(q, url) == Some(i)
  {
    if i > 0 {
      FindFirstAt(q[1..], url, i - 1);
    }
  }

  // ---------------------------------------------------------------- get_next_profiles

  /** A candidate entry together with its index in the queue. */
  datatype Ranked = Ranked(pos: nat, entry: Entry)

  /**
   * The order of `sorted(key=lambda x: (not x["urgent"], x["created_at"]))`:
   * urgent first, then oldest first; `sorted` is stable, so ties keep queue order.
   */
  predicate Before(a: Ranked, b: Ranked) {
    || (a.entry.urgent && !b.entry.urgent)
    || (a.entry.urgent == b.entry.urgent
        && (a.entry.createdAt < b.entry.createdAt
            || (a.entry.createdAt == b.entry.createdAt && a.pos < b.pos)))
  }

  predicate StrictlySorted(s: seq<Ranked>) {
    forall i, j :: 0 <= i < j < |s| ==> Before(s[i], s[j])
  }

  predicate DistinctPositions(s: seq<Ranked>) {
    forall i, j :: 0 <= i < j < |s| ==> s[i].pos != s[j].pos
  }

  /** The entries from index `from` on that the comprehension keeps, tagged with their index. */
  function Candidates(q: seq<Entry>, includeDone: bool, from: nat): (c: seq<Ranked>)
    requires from <= |q|
    ensures forall k :: 0 <= k < |c| ==> from <= c[k].pos < |q| && c[k].entry == q[c[k].pos]
    ensures forall k :: 0 <= k < |c| ==> includeDone || !c[k].entry.done
    ensures forall i, j :: 0 <= i < j < |c| ==> c[i].pos < c[j].pos
    ensures forall i :: from <= i < |q| && (includeDone || !q[i].done) ==> Ranked(i, q[i]) in c
    decreases |q| - from
  {
    if from == |q| then []
    else
      var rest := Candidates(q, includeDone, from + 1);
      if includeDone || !q[from].done then [Ranked(from, q[from])] + rest else rest
  }

  /** Puts `x` after every element that is before it. */
  function Insert(x: Ranked, s: seq<Ranked>): (r: seq<Ranked>)
    ensures multiset(r) == multiset(s) + multiset{x}
    ensures |r| == |s| + 1
  {
    if |s| == 0 then [x]
    else if Before(x, s[0]) then [x] + s
    else
      assert s == [s[0]] + s[1..];
      [s[0]] + Insert(x, s[1..])
  }

  function Sort(s: seq<Ranked>): (r: seq<Ranked>)
    ensures multiset(r) == multiset(s)
    ensures |r| == |s|
  {
    if |s| == 0 then []
    else
      assert s == [s[0]] + s[1..];
      Insert(s[0], Sort(s[1..]))
  }

  lemma {:induction false} InsertSorted(x: Ranked, s: seq<Ranked>)
    requires StrictlySorted(s)
    requires forall k :: 0 <= k < |s| ==> s[k].pos != x.pos
    ensures StrictlySorted(Insert(x, s))
  {
    if |s| > 0 && !Before(x, s[0]) {
      var tail := s[1..];
      InsertSorted(x, tail);
      var t := Insert(x, tail);
      assert Before(s[0], x);
      forall k | 0 <= k < |t| ensures Before(s[0], t[k]) {
        assert t[k] in multiset(t);
        if t[k] != x {
          assert t[k] in multiset(tail);
          var m :| 0 <= m < |tail| && tail[m] == t[k];
          assert s[m + 1] == t[k];
        }
      }
      ConsSorted(s[0], t);
    }
  }

  /** An element before every element of a sorted sequence can go in front of it. */
  lemma ConsSorted(a: Ranked, t: seq<Ranked>)
    requires StrictlySorted(t)
    requires forall k :: 0 <= k < |t| ==> Before(a, t[k])
    ensures StrictlySorted([a] + t)
  {
    var r := [a] + t;
    forall i, j | 0 <= i < j < |r| ensures Before(r[i], r[j]) {
      if i > 0 { assert r[i] == t[i - 1] && r[j] == t[j - 1]; }
      else { assert r[j] == t[j - 1]; }
    }
  }

  lemma {:induction false} SortSorted(s: seq<Ranked>)
    requires DistinctPositions(s)
    ensures StrictlySorted(Sort(s))
  {
    if |s| > 0 {
      var tail := s[1..];
      assert DistinctPositions(tail) by {
        forall i, j | 0 <= i < j < |tail| ensures tail[i].pos != tail[j].pos {
          assert tail[i] == s[i + 1] && tail[j] == s[j + 1];
        }
      }
      SortSorted(tail);
      var st := Sort(tail);
      forall k | 0 <= k < |st| ensures st[k].pos != s[0].pos {
        assert st[k] in multiset(tail);
        var m :| 0 <= m < |tail| && tail[m] == st[k];
        assert s[m + 1] == st[k];
      }
      InsertSorted(s[0], st);
    }
  }

  /** Python's `s[:count]`, including the negative-count case. */
  function Take<T>(s: seq<T>, count: int): (r: seq<T>)
    ensures count >= 0 ==> |r| == if count < |s| then count else |s|
    ensures |r| <= |s| && r == s[..|r|]
  {
    if count >= |s| then s
    else if count >= 0 then s[..count]
    else if |s| + count > 0 then s[..|s| + count]
    else []
  }

  /** The ranked result of `get_next_profiles(count, include_done)`. */
  function NextRanked(q: seq<Entry>, count: int, includeDone: bool): seq<Ranked> {
    Take(Sort(Candidates(q, includeDone, 0)), count)
  }

  function Entries(s: seq<Ranked>): (r: seq<Entry>)
    ensures |r| == |s| && forall k :: 0 <= k < |s| ==> r[k] == s[k].entry
  {
    seq(|s|, k requires 0 <= k < |s| => s[k].entry)
  }

  /** `get_next_profiles(count, include_done)`. */
  function NextProfiles(q: seq<Entry>, count: int, includeDone: bool): seq<Entry> {
    Entries(NextRanked(q, count, includeDone))
  }

  /** The candidates come out of the sort in the queue's order, and nothing is lost. */
  lemma {:induction false} SortedCandidates(q: seq<Entry>, includeDone: bool)
    ensures var sorted := Sort(Candidates(q, includeDone, 0));
      && StrictlySorted(sorted)
      && multiset(sorted) == multiset(Candidates(q, includeDone, 0))
  {
    var c := Candidates(q, includeDone, 0);
    assert DistinctPositions(c);
    SortSorted(c);
  }

  /** Every entry `get_next_profiles` returns is an eligible entry of the queue, at its own index. */
  lemma {:induction false} NextProfilesFromQueue(q: seq<Entry>, count: int, includeDone: bool)
    ensures var r := NextRanked(q, count, includeDone);
      && (count >= 0 ==> |r| <= count)
      && (forall k :: 0 <= k < |r| ==> r[k].pos < |q| && r[k].entry == q[r[k].pos])
      && (forall k :: 0 <= k < |r| ==> includeDone || !r[k].entry.done)
  {
    var c := Candidates(q, includeDone, 0);
    var sorted := Sort(c);
    var r := NextRanked(q, count, includeDone);
    forall k | 0 <= k < |r| ensures r[k].pos < |q| && r[k].entry == q[r[k].pos] && (includeDone || !r[k].entry.done) {
      assert r[k] == sorted[k];
      assert sorted[k] in multiset(c);
    }
  }

  /** Urgent entries come first, then oldest first, ties in queue order. */
  lemma {:induction false} NextProfilesOrdered(q: seq<Entry>, count: int, includeDone: bool)
    ensures StrictlySorted(NextRanked(q, count, includeDone))
  {
    var sorted := Sort(Candidates(q, includeDone, 0));
    var r := NextRanked(q, count, includeDone);
    SortedCandidates(q, includeDone);
    forall i, j | 0 <= i < j < |r| ensures Before(r[i], r[j]) {
      assert r[i] == sorted[i] && r[j] == sorted[j];
    }
  }

  /** The result is the front of that order: an eligible entry left out comes after all returned ones. */
  lemma {:induction false} NextProfilesFront(q: seq<Entry>, count: int, includeDone: bool, i: nat)
    requires i < |q| && (includeDone || !q[i].done)
    requires Ranked(i, q[i]) !in NextRanked(q, count, includeDone)
    ensures forall k :: 0 <= k < |NextRanked(q, count, includeDone)| ==>
      Before(NextRanked(q, count, includeDone)[k], Ranked(i, q[i]))
  {
    var c := Candidates(q, includeDone, 0);
    var sorted := Sort(c);
    SortedCandidates(q, includeDone);
    var x := Ranked(i, q[i]);
    assert x in c;
    assert x in multiset(c);
    assert x in multiset(sorted);
    FrontOfSorted(sorted, NextRanked(q, count, includeDone), x);
  }

  /** In a strictly sorted list, a prefix comes before every element it leaves out. */
  lemma FrontOfSorted(sorted: seq<Ranked>, r: seq<Ranked>, x: Ranked)
    requires StrictlySorted(sorted) && |r| <= |sorted| && r == sorted[..|r|]
    requires x in sorted && x !in r
    ensures forall k :: 0 <= k < |r| ==> Before(r[k], x)
  {
    var m :| 0 <= m < |sorted| && sorted[m] == x;
    forall k | 0 <= k < |r| ensures Before(r[k], x) {
      assert r[k] == sorted[k];
    }
  }

  /** `count >= number of eligible entries` returns all of them. */
  lemma {:induction false} NextProfilesAll(q: seq<Entry>, count: int, includeDone: bool)
    requires count >= |q|
    ensures forall i :: 0 <= i < |q| && (includeDone || !q[i].done) ==> Ranked(i, q[i]) in NextRanked(q, count, includeDone)
  {
    var c := Candidates(q, includeDone, 0);
    var sorted := Sort(c);
    assert |c| <= |q| by {
      assert DistinctPositions(c);
      PositionsBound(c, |q|);
    }
    assert NextRanked(q, count, includeDone) == sorted;
    forall i | 0 <= i < |q| && (includeDone || !q[i].done) ensures Ranked(i, q[i]) in sorted {
      assert Ranked(i, q[i]) in multiset(c);
    }
  }

  /** Strictly increasing positions below `n` are at most `n` many. */
  lemma {:induction false} PositionsBound(c: seq<Ranked>, n: nat)
    requires forall i, j :: 0 <= i < j < |c| ==> c[i].pos < c[j].pos
    requires forall k :: 0 <= k < |c| ==> c[k].pos < n
    ensures |c| <= n
  {
    if |c| > 0 {
      var init := c[..|c| - 1];
      assert forall k :: 0 <= k < |init| ==> init[k].pos < c[|c| - 1].pos;
      PositionsBound(init, c[|c| - 1].pos);
    }
  }

  // ---------------------------------------------------------------- mark_profile_status

  /** How `mark_profile_status` updates the record it finds. */
  function Marked(e: Entry, status: string, metadata: Option<Metadata>, now: int): (r: Entry)
    ensures r.status == status && r.url == e.url && r.urgent == e.urgent && r.createdAt == e.createdAt
    ensures r.done == (e.done || status == COMPLETED)
    ensures forall k :: k in e.metadata ==> k in r.metadata
    ensures metadata.Some? ==> forall k :: k in metadata.value ==> k in r.metadata && r.metadata[k] == metadata.value[k]
    ensures metadata.None? || metadata == Some(map[]) ==> r.metadata == e.metadata
  {
    e.(status := status,
       updatedAt := now,
       done := if status == COMPLETED then true else e.done,
       metadata := if metadata.Some? && metadata.value != map[] then e.metadata + metadata.value else e.metadata)
  }

  /** The queue after `mark_profile_status`; an absent URL leaves it as it was. */
  function AfterMark(q: seq<Entry>, url: string, status: string, metadata: Option<Metadata>, now: int): (r: seq<Entry>)
    ensures |r| == |q|
    ensures !HasUrl(q, url) ==> r == q
    ensures forall j :: 0 <= j < |q| && q[j].url != url ==> r[j] == q[j]
    ensures forall j :: 0 <= j < |q| ==> r[j].url == q[j].url
    ensures HasUrl(q, url) ==> var i := Find(q, url).value; r[i].status == status && r[i].done == (q[i].done || status == COMPLETED)
  {
    match Find(q, url)
    case Some(i) => q[i := Marked(q[i], status, metadata, now)]
    case None => q
  }

  /** The event `mark_profile_status` publishes for `status`. */
  function StatusEvent(status: string): string {
    if status == COMPLETED then PROFILE_SCRAPED
    else if status == FAILED then PROFILE_FAILED
    else QUEUE_UPDATED
  }

  // ---------------------------------------------------------------- get_queue_stats

  function CountPending(q: seq<Entry>): nat {
    if |q| == 0 then 0 else (if q[0].done then 0 else 1) + CountPending(q[1..])
  }

  function CountCompleted(q: seq<Entry>): nat {
    if |q| == 0 then 0 else (if q[0].done then 1 else 0) + CountCompleted(q[1..])
  }

  function CountUrgent(q: seq<Entry>): nat {
    if |q| == 0 then 0 else (if q[0].urgent && !q[0].done then 1 else 0) + CountUrgent(q[1..])
  }

  /** The number of entries whose status is `status`. */
  function CountStatus(q: seq<Entry>, status: string): nat {
    if |q| == 0 then 0 else CountStatus(q[..|q| - 1], status) + (if q[|q| - 1].status == status then 1 else 0)
  }

  /** An insertion-ordered dict of counts, as a list of (key, count) pairs. */
  type Counts = seq<(string, nat)>

  predicate HasKey(c: Counts, k: string) {
    |c| > 0 && (c[0].0 == k || HasKey(c[1..], k))
  }

  /** No key occurs twice. */
  predicate DistinctKeys(c: Counts) {
    |c| == 0 || (!HasKey(c[1..], c[0].0) && DistinctKeys(c[1..]))
  }

  /** `d.get(k, 0)`. */
  function Lookup(c: Counts, k: string): nat {
    if |c| == 0 then 0 else if c[0].0 == k then c[0].1 else Lookup(c[1..], k)
  }

  function SumCounts(c: Counts): int {
    if |c| == 0 then 0 else c[0].1 + SumCounts(c[1..])
  }

  /** `d[k] = d.get(k, 0) + 1`. */
  function Bump(c: Counts, k: string): (r: Counts)
    ensures SumCounts(r) == SumCounts(c) + 1
    ensures forall x :: Lookup(r, x) == Lookup(c, x) + (if x == k then 1 else 0)
    ensures forall x :: HasKey(r, x) <==> HasKey(c, x) || x == k
    ensures DistinctKeys(c) ==> DistinctKeys(r)
    ensures (forall i :: 0 <= i < |c| ==> c[i].1 >= 1) ==> forall i :: 0 <= i < |r| ==> r[i].1 >= 1
  {
    if |c| == 0 then [(k, 1)]
    else if c[0].0 == k then [(k, c[0].1 + 1)] + c[1..]
    else [c[0]] + Bump(c[1..], k)
  }

  /** The `status_counts` loop: counts per status, keyed in order of first appearance. */
  function StatusCounts(q: seq<Entry>): (r: Counts)
    ensures DistinctKeys(r)
    ensures SumCounts(r) == |q|
    ensures forall i :: 0 <= i < |r| ==> r[i].1 >= 1
    ensures forall x :: Lookup(r, x) == CountStatus(q, x)
  {
    if |q| == 0 then [] else Bump(StatusCounts(q[..|q| - 1]), q[|q| - 1].status)
  }

  datatype Stats = Stats(total: nat, pending: nat, completed: nat, urgent: nat, statusCounts: Counts, lastUpdated: int)

  /** `get_queue_stats`. */
  function QueueStats(q: seq<Entry>, now: int): Stats {
    Stats(|q|, CountPending(q), CountCompleted(q), CountUrgent(q), StatusCounts(q), now)
  }

  /** The totals of `get_queue_stats` are consistent with each other. */
  lemma {:induction false} QueueStatsConsistent(q: seq<Entry>, now: int)
    ensures var s := QueueStats(q, now);
      && s.total == s.pending + s.completed
      && s.urgent <= s.pending
      && SumCounts(s.statusCounts) == s.total
      && DistinctKeys(s.statusCounts)
  {
    if |q| > 0 {
      QueueStatsConsistent(q[1..], now);
    }
  }

  /** An added URL is pending afterwards, so the pending count is positive. */
  lemma {:induction false} PendingPositive(q: seq<Entry>, i: nat)
    requires i < |q| && !q[i].done
    ensures CountPending(q) > 0
  {
    if i > 0 {
      PendingPositive(q[1..], i - 1);
    }
  }

  /** A positive pending count means some entry is not done. */
  lemma {:induction false} PendingWitness(q: seq<Entry>) returns (i: nat)
    requires CountPending(q) > 0
    ensures i < |q| && !q[i].done
  {
    if q[0].done {
      var j := PendingWitness(q[1..]);
      i := j + 1;
    } else {
      i := 0;
    }
  }

  /** With a pending entry, a positive count selects at least one candidate. */
  lemma {:induction false} NextProfilesNonEmpty(q: seq<Entry>, count: int)
    requires count > 0 && CountPending(q) > 0
    ensures |NextProfiles(q, count, false)| > 0
  {
    var i := PendingWitness(q);
    var c := Candidates(q, false, 0);
    assert Ranked(i, q[i]) in c;
    assert |Sort(c)| == |c| > 0;
  }

  // ---------------------------------------------------------------- the store

  /**
   * A QueueManager over its JSON file. `entries` is the file's content; a missing
   * or unparseable file reads as the empty queue.
   */
  class Queue {
    var entries: seq<Entry>

    constructor (stored: Option<seq<Entry>>)
      ensures entries == stored.GetOr([])
    {
      entries := stored.GetOr([]);
    }

    /** `add_profile`: always succeeds and always publishes QUEUE_UPDATED. */
    method AddProfile(url: string, urgent: bool, initiator: string, now: int) returns (ok: bool, notice: Notice)
      modifies this
      ensures ok
      ensures entries == AfterAdd(old(entries), url, urgent, initiator, now)
      ensures notice == Notice(QUEUE_UPDATED, UrlAction(if HasUrl(old(entries), url) then "updated" else "added", url))
    {
      var queue := entries;
      var i := 0;
      while i < |queue|
        invariant 0 <= i <= |queue|
        invariant forall j :: 0 <= j < i ==> queue[j].url != url
      {
        if queue[i].url == url {
          var entry := queue[i];
          if entry.done {
            entry := entry.(done := false, urgent := urgent || entry.urgent,
                            initiator := if initiator != "" then initiator else entry.initiator,
                            updatedAt := now);
          } else if urgent && !entry.urgent {
            entry := entry.(urgent := true, updatedAt := now);
          }
          assert Find(queue, url) == Some(i);
          entries := queue[i := entry];
          return true, Notice(QUEUE_UPDATED, UrlAction("updated", url));
        }
        i := i + 1;
      }
      entries := queue + [NewEntry(url, urgent, initiator, now)];
      return true, Notice(QUEUE_UPDATED, UrlAction("added", url));
    }

    /** `get_next_profiles`: a query; the queue is not changed. */
    function GetNextProfiles(count: int, includeDone: bool): seq<Entry>
      reads this
    {
      NextProfiles(entries, count, includeDone)
    }

    /** `mark_profile_status`: false and no event for an unknown URL. */
    method MarkProfileStatus(url: string, status: string, metadata: Option<Metadata>, now: int)
      returns (ok: bool, notice: Option<Notice>)
      modifies this
      ensures ok == HasUrl(old(entries), url)
      ensures entries == AfterMark(old(entries), url, status, metadata, now)
      ensures notice == if ok then Some(Notice(StatusEvent(status), StatusUpdate(url, status, metadata))) else None
    {
      var queue := entries;
      var i := 0;
      while i < |queue|
        invariant 0 <= i <= |queue|
        invariant forall j :: 0 <= j < i ==> queue[j].url != url
      {
        if queue[i].url == url {
          var entry := queue[i];
          entry := entry.(status := status, updatedAt := now);
          if status == COMPLETED {
            entry := entry.(done := true);
          }
          if metadata.Some? && metadata.value != map[] {
            entry := entry.(metadata := entry.metadata + metadata.value);
          }
          assert Find(queue, url) == Some(i);
          entries := queue[i := entry];
          return true, Some(Notice(StatusEvent(status), StatusUpdate(url, status, metadata)));
        }
        i := i + 1;
      }
      return false, None;
    }

    /** `get_queue_stats`: a query; the queue is not changed. */
    function GetQueueStats(now: int): Stats
      reads this
    {
      QueueStats(entries, now)
    }

    /** `clear_queue`. */
    method ClearQueue() returns (ok: bool, notice: Notice)
      modifies this
      ensures ok && entries == []
      ensures notice == Notice(QUEUE_UPDATED, Cleared)
    {
      entries := [];
      return true, Notice(QUEUE_UPDATED, Cleared);
    }
  }
}
