/**
 * The batch processor of services/linked_navigator/batch_processor.py: URL
 * cleaning and validation, the per-URL classification of `add_profiles`, and
 * `_process_session`, which reports the session's end to the Brain whatever
 * the callback does. The session callback is a function value returning
 * either stats or an exception.
 */
module BatchProcessor {
  import opened Wrappers
  import opened Strings
  import opened Config
  import opened StateMachine
  import opened BrainMemory
  import LinkedinNavigator
  import QueueManager
  import Brain

  const PROFILE_MARKER: string := "linkedin.com/in/"

  /**
   * `_clean_profile_url`: strip, reject a URL without "linkedin.com/in/", then
   * cut it to the anchored profile prefix when that matches.
   */
  function CleanProfileUrl(url: string): (r: Result<string, string>)
    ensures r.Failure? <==> !Contains(Strip(url), PROFILE_MARKER)
    ensures r.Failure? ==> r.error == "Not a valid LinkedIn profile URL: " + Strip(url)
    ensures r.Success? ==> LinkedinNavigator.IsPrefix(r.value, Strip(url))
    ensures r.Success? && LinkedinNavigator.HeadLength(Strip(url)).Some? ==>
      LinkedinNavigator.ProfilePrefix(Strip(url), r.value)
    ensures r.Success? && LinkedinNavigator.HeadLength(Strip(url)).None? ==> r.value == Strip(url)
  {
    var s := Strip(url);
    if !Contains(s, PROFILE_MARKER) then Failure("Not a valid LinkedIn profile URL: " + s)
    else if LinkedinNavigator.HeadLength(s).Some? then
      LinkedinNavigator.NormalizeSound(s);
      Success(LinkedinNavigator.NormalizeProfileUrl(s))
    else Success(LinkedinNavigator.NormalizeProfileUrl(s))
  }

  /** A cleaned URL is a fixed point of the navigator's normalisation. */
  lemma CleanIsNormalised(url: string)
    requires CleanProfileUrl(url).Success?
    ensures LinkedinNavigator.NormalizeProfileUrl(CleanProfileUrl(url).value) == CleanProfileUrl(url).value
  {
    LinkedinNavigator.NormalizeIdempotent(Strip(url));
  }

  // ---------------------------------------------------------------- add_profiles

  /** Where `add_profiles` files one submitted URL, with the form it is recorded in. */
  datatype Kind = Added(url: string) | AlreadyQueued(url: string) | Failed(url: string)

  /**
   * One URL against the queue `q` it meets: a URL failing validation is filed
   * as given; a clean URL is "added" when `add_profile` grows the queue (the
   * URL was not in it) and "already queued" otherwise.
   */
  function KindOf(q: seq<QueueManager.Entry>, url: string): (r: Kind)
    ensures r.Failed? <==> CleanProfileUrl(url).Failure?
    ensures r.Failed? ==> r.url == url
    ensures !r.Failed? ==> r.url == CleanProfileUrl(url).value
    ensures r.Added? <==> CleanProfileUrl(url).Success? && !QueueManager.HasUrl(q, CleanProfileUrl(url).value)
  {
    match CleanProfileUrl(url)
    case Failure(_) => Failed(url)
    case Success(c) => if QueueManager.HasUrl(q, c) then AlreadyQueued(c) else Added(c)
  }

  /** The queue after one submitted URL. */
  function QueueAfter(q: seq<QueueManager.Entry>, url: string, urgent: bool, initiator: string, now: int): seq<QueueManager.Entry> {
    match CleanProfileUrl(url)
    case Failure(_) => q
    case Success(c) => QueueManager.AfterAdd(q, c, urgent, initiator, now)
  }

  /** How one submission's `add_profile` step changes the queue, as a function of the queue and the URL. */
  function AddStep(urgent: bool, initiator: string, now: int): (seq<QueueManager.Entry>, string) -> seq<QueueManager.Entry> {
    (q: seq<QueueManager.Entry>, url: string) => QueueAfter(q, url, urgent, initiator, now)
  }

  /** The state after a left-to-right pass of `next` over `xs`. */
  function Fold<S, X>(s: S, xs: seq<X>, next: (S, X) -> S): S {
    if |xs| == 0 then s else next(Fold(s, xs[..|xs| - 1], next), xs[|xs| - 1])
  }

  /** What `mark` says of each element of `xs`, each against the state its predecessors left. */
  function Trace<S, X, K>(s: S, xs: seq<X>, next: (S, X) -> S, mark: (S, X) -> K): (r: seq<K>)
    ensures |r| == |xs|
  {
    if |xs| == 0 then []
    else
      var init := xs[..|xs| - 1];
      Trace(s, init, next, mark) + [mark(Fold(s, init, next), xs[|xs| - 1])]
  }

  /** The i-th mark is taken against the state the first i steps left. */
  lemma {:induction false} TraceAt<S, X, K>(s: S, xs: seq<X>, next: (S, X) -> S, mark: (S, X) -> K, i: nat)
    requires i < |xs|
    ensures Trace(s, xs, next, mark)[i] == mark(Fold(s, xs[..i], next), xs[i])
    decreases |xs|
  {
    var init := xs[..|xs| - 1];
    var ks := Trace(s, init, next, mark);
    var last := mark(Fold(s, init, next), xs[|xs| - 1]);
    var all := Trace(s, xs, next, mark);
    assert all == ks + [last];
    if i < |init| {
      TraceAt(s, init, next, mark, i);
      assert init[..i] == xs[..i];
      assert init[i] == xs[i];
      assert all[i] == ks[i];
    } else {
      assert init == xs[..i];
      assert all[i] == last;
    }
  }

  /** One more element extends the trace by its mark and the state by its step. */
  lemma TraceStep<S, X, K>(s: S, xs: seq<X>, next: (S, X) -> S, mark: (S, X) -> K, i: nat)
    requires i < |xs|
    ensures Trace(s, xs[..i + 1], next, mark) == Trace(s, xs[..i], next, mark) + [mark(Fold(s, xs[..i], next), xs[i])]
    ensures Fold(s, xs[..i + 1], next) == next(Fold(s, xs[..i], next), xs[i])
  {
    assert xs[..i + 1][..i] == xs[..i];
  }

  /** The queue after the first `|urls|` submissions, in order. */
  function QueueAfterAll(q: seq<QueueManager.Entry>, urls: seq<string>, urgent: bool, initiator: string, now: int): seq<QueueManager.Entry> {
    Fold(q, urls, AddStep(urgent, initiator, now))
  }

  /** The classification of each submitted URL, each against the queue its predecessors left. */
  function Classify(q: seq<QueueManager.Entry>, urls: seq<string>, urgent: bool, initiator: string, now: int): (r: seq<Kind>)
    ensures |r| == |urls|
  {
    Trace(q, urls, AddStep(urgent, initiator, now), KindOf)
  }

  /** The i-th URL is classified against the queue the first i submissions left. */
  lemma ClassifyAt(q: seq<QueueManager.Entry>, urls: seq<string>, urgent: bool, initiator: string, now: int, i: nat)
    requires i < |urls|
    ensures Classify(q, urls, urgent, initiator, now)[i] == KindOf(QueueAfterAll(q, urls[..i], urgent, initiator, now), urls[i])
  {
    TraceAt(q, urls, AddStep(urgent, initiator, now), KindOf, i);
  }

  /** One more submission extends the classification and the queue by that URL's step. */
  lemma PrefixStep(q: seq<QueueManager.Entry>, urls: seq<string>, urgent: bool, initiator: string, now: int, i: nat)
    requires i < |urls|
    ensures var before := QueueAfterAll(q, urls[..i], urgent, initiator, now);
      && Classify(q, urls[..i + 1], urgent, initiator, now) == Classify(q, urls[..i], urgent, initiator, now) + [KindOf(before, urls[i])]
      && QueueAfterAll(q, urls[..i + 1], urgent, initiator, now) == QueueAfter(before, urls[i], urgent, initiator, now)
  {
    TraceStep(q, urls, AddStep(urgent, initiator, now), KindOf, i);
  }

  function AddedOf(ks: seq<Kind>): seq<string> {
    if |ks| == 0 then [] else AddedOf(ks[..|ks| - 1]) + (if ks[|ks| - 1].Added? then [ks[|ks| - 1].url] else [])
  }

  function QueuedOf(ks: seq<Kind>): seq<string> {
    if |ks| == 0 then [] else QueuedOf(ks[..|ks| - 1]) + (if ks[|ks| - 1].AlreadyQueued? then [ks[|ks| - 1].url] else [])
  }

  function FailedOf(ks: seq<Kind>): seq<string> {
    if |ks| == 0 then [] else FailedOf(ks[..|ks| - 1]) + (if ks[|ks| - 1].Failed? then [ks[|ks| - 1].url] else [])
  }

  /** The recorded form of every classified URL, in order. */
  function UrlsOf(ks: seq<Kind>): (r: seq<string>)
    ensures |r| == |ks|
  {
    if |ks| == 0 then [] else UrlsOf(ks[..|ks| - 1]) + [ks[|ks| - 1].url]
  }

  /** Each classified URL lands in exactly one of the three lists. */
  lemma {:induction false} Partition(ks: seq<Kind>)
    ensures |AddedOf(ks)| + |QueuedOf(ks)| + |FailedOf(ks)| == |ks|
    ensures multiset(AddedOf(ks)) + multiset(QueuedOf(ks)) + multiset(FailedOf(ks)) == multiset(UrlsOf(ks))
  {
    if |ks| > 0 {
      Partition(ks[..|ks| - 1]);
      PartitionLast(ks);
    }
  }

  /** The last classified URL adds one to the list of its kind. */
  lemma PartitionLast(ks: seq<Kind>)
    requires |ks| > 0
    ensures var init, u := ks[..|ks| - 1], ks[|ks| - 1].url;
      && |AddedOf(ks)| + |QueuedOf(ks)| + |FailedOf(ks)| == |AddedOf(init)| + |QueuedOf(init)| + |FailedOf(init)| + 1
      && multiset(AddedOf(ks)) + multiset(QueuedOf(ks)) + multiset(FailedOf(ks)) ==
         multiset(AddedOf(init)) + multiset(QueuedOf(init)) + multiset(FailedOf(init)) + multiset{u}
      && multiset(UrlsOf(ks)) == multiset(UrlsOf(init)) + multiset{u}
  {
    var init := ks[..|ks| - 1];
    assert UrlsOf(ks) == UrlsOf(init) + [ks[|ks| - 1].url];
    match ks[|ks| - 1] {
      case Added(u) =>
        assert AddedOf(ks) == AddedOf(init) + [u];
        assert multiset(AddedOf(ks)) == multiset(AddedOf(init)) + multiset{u};
        assert QueuedOf(ks) == QueuedOf(init) && FailedOf(ks) == FailedOf(init);
      case AlreadyQueued(u) =>
        assert QueuedOf(ks) == QueuedOf(init) + [u];
        assert multiset(QueuedOf(ks)) == multiset(QueuedOf(init)) + multiset{u};
        assert AddedOf(ks) == AddedOf(init) && FailedOf(ks) == FailedOf(init);
      case Failed(u) =>
        assert FailedOf(ks) == FailedOf(init) + [u];
        assert multiset(FailedOf(ks)) == multiset(FailedOf(init)) + multiset{u};
        assert AddedOf(ks) == AddedOf(init) && QueuedOf(ks) == QueuedOf(init);
    }
  }

  /** No URL failed exactly when the failed list is empty. */
  lemma {:induction false} NoneFailed(ks: seq<Kind>)
    ensures |FailedOf(ks)| == 0 <==> forall i :: 0 <= i < |ks| ==> !ks[i].Failed?
  {
    if |ks| > 0 {
      var init := ks[..|ks| - 1];
      NoneFailed(init);
      assert ks == init + [ks[|ks| - 1]];
      PartitionStep(init, ks[|ks| - 1]);
    }
  }

  /** Classifying one more URL adds it to exactly the list of its kind. */
  lemma PartitionStep(init: seq<Kind>, k: Kind)
    ensures var ks := init + [k];
      && UrlsOf(ks) == UrlsOf(init) + [k.url]
      && AddedOf(ks) == AddedOf(init) + (if k.Added? then [k.url] else [])
      && QueuedOf(ks) == QueuedOf(init) + (if k.AlreadyQueued? then [k.url] else [])
      && FailedOf(ks) == FailedOf(init) + (if k.Failed? then [k.url] else [])
  {
    assert (init + [k])[..|init|] == init;
  }

  /** The dict `add_profiles` returns. */
  datatype AddResults = AddResults(success: bool, added: seq<string>, failed: seq<string>, alreadyQueued: seq<string>)

  /** What `add_profiles` reports for a list of URLs submitted to queue `q`. */
  function ResultsFor(q: seq<QueueManager.Entry>, urls: seq<string>, urgent: bool, initiator: string, now: int): (r: AddResults)
  {
    var ks := Classify(q, urls, urgent, initiator, now);
    AddResults(|FailedOf(ks)| == 0, AddedOf(ks), FailedOf(ks), QueuedOf(ks))
  }

  /** "added" means exactly that the submission grew the queue. */
  lemma AddedIffGrew(q: seq<QueueManager.Entry>, url: string, urgent: bool, initiator: string, now: int)
    requires CleanProfileUrl(url).Success?
    ensures KindOf(q, url).Added? <==> |QueueAfter(q, url, urgent, initiator, now)| > |q|
    ensures KindOf(q, url).AlreadyQueued? <==> |QueueAfter(q, url, urgent, initiator, now)| == |q|
  {
  }

  /**
   * The results of `add_profiles` file every URL in exactly one list; `success`
   * is false exactly when some URL failed validation.
   */
  lemma {:induction false} ResultsPartition(q: seq<QueueManager.Entry>, urls: seq<string>, urgent: bool, initiator: string, now: int)
    ensures var r := ResultsFor(q, urls, urgent, initiator, now);
      var ks := Classify(q, urls, urgent, initiator, now);
      && |r.added| + |r.alreadyQueued| + |r.failed| == |urls|
      && multiset(r.added) + multiset(r.alreadyQueued) + multiset(r.failed) == multiset(UrlsOf(ks))
      && (r.success <==> forall i :: 0 <= i < |urls| ==> CleanProfileUrl(urls[i]).Success?)
  {
    var ks := Classify(q, urls, urgent, initiator, now);
    Partition(ks);
    NoneFailed(ks);
    forall i | 0 <= i < |urls| ensures ks[i].Failed? <==> CleanProfileUrl(urls[i]).Failure? {
      ClassifyAt(q, urls, urgent, initiator, now, i);
    }
  }

  /**
   * The i-th URL is recorded uncleaned when it fails validation, and cleaned
   * otherwise, as "added" exactly when it was not in the queue it met.
   */
  lemma ResultsPerUrl(q: seq<QueueManager.Entry>, urls: seq<string>, urgent: bool, initiator: string, now: int, i: nat)
    requires i < |urls|
    ensures var k := Classify(q, urls, urgent, initiator, now)[i];
      var before := QueueAfterAll(q, urls[..i], urgent, initiator, now);
      && (k.Failed? <==> CleanProfileUrl(urls[i]).Failure?)
      && (k.Failed? ==> k.url == urls[i])
      && (!k.Failed? ==> k.url == CleanProfileUrl(urls[i]).value)
      && (k.Added? <==> !k.Failed? && !QueueManager.HasUrl(before, k.url))
  {
    ClassifyAt(q, urls, urgent, initiator, now, i);
  }

  // ---------------------------------------------------------------- sessions

  /** What the session callback did: returned a stats dict (None for a falsy or non-dict value), or raised. */
  datatype Outcome = Returned(stats: Option<SessionStats>) | Raised(message: string)

  /** `stats.update(results)`: the keys the result carries win. */
  function Overlay(base: SessionStats, top: SessionStats): (r: SessionStats)
    ensures r.started == (if top.started.Some? then top.started else base.started)
    ensures r.completed == (if top.completed.Some? then top.completed else base.completed)
    ensures r.failed == (if top.failed.Some? then top.failed else base.failed)
    ensures r.error == (if top.error.Some? then top.error else base.error)
    ensures r.startTime == (if top.startTime.Some? then top.startTime else base.startTime)
  {
    SessionStats(
      if top.started.Some? then top.started else base.started,
      if top.completed.Some? then top.completed else base.completed,
      if top.failed.Some? then top.failed else base.failed,
      if top.error.Some? then top.error else base.error,
      if top.startTime.Some? then top.startTime else base.startTime)
  }

  const ZERO_STATS: SessionStats := SessionStats(Some(0), Some(0), Some(0), None, None)

  /**
   * The stats `_process_session` hands to `session_ended`: zero counters,
   * overlaid by the callback's dict when it returns one, with "error" set when
   * it raises.
   */
  function StatsFor(callback: Option<SessionRecord -> Outcome>, session: SessionRecord): (r: SessionStats)
    ensures r.started.Some? && r.completed.Some? && r.failed.Some?
    ensures callback.None? ==> r == ZERO_STATS
    ensures callback.Some? && callback.value(session).Raised? ==>
      r == ZERO_STATS.(error := Some(callback.value(session).message))
    ensures callback.Some? && callback.value(session) == Returned(None) ==> r == ZERO_STATS
    ensures callback.Some? && callback.value(session).Returned? && callback.value(session).stats.Some? ==>
      r == Overlay(ZERO_STATS, callback.value(session).stats.value)
  {
    match callback
    case None => ZERO_STATS
    case Some(f) =>
      match f(session)
      case Raised(msg) => ZERO_STATS.(error := Some(msg))
      case Returned(None) => ZERO_STATS
      case Returned(Some(results)) => Overlay(ZERO_STATS, results)
  }

  class Processor {
    const brain: Brain.Brain
    const queue: QueueManager.Queue
    /** The processor's own `StateMachine()`: created INACTIVE and never transitioned. */
    const machine: Machine<()>
    var callback: Option<SessionRecord -> Outcome>

    ghost predicate Valid()
      reads this, brain, brain.machine, machine
    {
      && brain.Valid() && brain.queue == queue
      && machine.Valid() && machine.current == Inactive
    }

    constructor (brain: Brain.Brain, queue: QueueManager.Queue, now: int)
      requires brain.Valid() && brain.queue == queue
      ensures Valid() && this.brain == brain && this.queue == queue && fresh(machine)
      ensures callback.None?
    {
      this.brain := brain;
      this.queue := queue;
      machine := new Machine(Inactive, now);
      callback := None;
    }

    /** `register_session_callback`: only the last callback is kept. */
    method RegisterSessionCallback(cb: SessionRecord -> Outcome)
      modifies this`callback
      ensures callback == Some(cb)
    {
      callback := Some(cb);
    }

    /**
     * `add_profiles`. Each URL is cleaned, then added; the QUEUE_UPDATED event
     * each add publishes reaches the Brain at once, which activates an INACTIVE
     * Brain as soon as something is queued. The results classify every URL, and
     * the final nudge runs only when something was added while this processor's
     * own machine is INACTIVE.
     */
    method AddProfiles(urls: seq<string>, urgent: bool, initiator: string, now: int) returns (r: AddResults)
      requires Valid()
      modifies queue, brain`running, brain.machine
      ensures Valid()
      ensures r == ResultsFor(old(queue.entries), urls, urgent, initiator, now)
      ensures queue.entries == QueueAfterAll(old(queue.entries), urls, urgent, initiator, now)
      ensures old(brain.machine.current) != Inactive ==> brain.machine.current == old(brain.machine.current)
      ensures old(brain.machine.current) == Inactive && |r.added| + |r.alreadyQueued| > 0 ==>
        brain.machine.current == WaitingForActiveHours && brain.running
    {
      ghost var q0 := queue.entries;
      ghost var s0 := brain.machine.current;
      ghost var kinds: seq<Kind> := [];
      var added: seq<string> := [];
      var failed: seq<string> := [];
      var queued: seq<string> := [];
      var success := true;
      var i := 0;
      while i < |urls|
        invariant 0 <= i <= |urls|
        invariant Valid()
        invariant kinds == Classify(q0, urls[..i], urgent, initiator, now)
        invariant queue.entries == QueueAfterAll(q0, urls[..i], urgent, initiator, now)
        invariant added == AddedOf(kinds) && queued == QueuedOf(kinds) && failed == FailedOf(kinds)
        invariant success <==> |failed| == 0
        invariant s0 != Inactive ==> brain.machine.current == s0
        invariant s0 == Inactive && |added| + |queued| == 0 ==> brain.machine.current == Inactive
        invariant s0 == Inactive && |added| + |queued| > 0 ==> brain.machine.current == WaitingForActiveHours && brain.running
      {
        PrefixStep(q0, urls, urgent, initiator, now, i);
        ghost var before := queue.entries;
        var kind := AddOne(urls[i], urgent, initiator, now);
        assert kind == KindOf(before, urls[i]);
        PartitionStep(kinds, kind);
        kinds := kinds + [kind];
        assert kinds == Classify(q0, urls[..i + 1], urgent, initiator, now);
        match kind {
          case Added(u) => added := added + [u];
          case AlreadyQueued(u) => queued := queued + [u];
          case Failed(u) => failed := failed + [u]; success := false;
        }
        i := i + 1;
      }
      assert urls[..i] == urls;
      r := AddResults(success, added, failed, queued);
      if |added| > 0 && machine.GetCurrentState() == Inactive {
        brain.CheckAndActivate(now);
      }
    }

    /**
     * The body of the `add_profiles` loop for one URL: clean it (a validation
     * failure files it as given), compare the queue total around `add_profile`,
     * and let the Brain see the QUEUE_UPDATED event that add publishes.
     */
    method AddOne(url: string, urgent: bool, initiator: string, now: int) returns (kind: Kind)
      requires Valid()
      modifies queue, brain`running, brain.machine
      ensures Valid()
      ensures kind == KindOf(old(queue.entries), url)
      ensures queue.entries == QueueAfter(old(queue.entries), url, urgent, initiator, now)
      ensures old(brain.machine.current) != Inactive ==>
        brain.machine.current == old(brain.machine.current) && brain.running == old(brain.running)
      ensures !kind.Failed? && old(brain.machine.current) == Inactive ==> brain.machine.current == WaitingForActiveHours && brain.running
      ensures kind.Failed? ==> brain.machine.current == old(brain.machine.current) && brain.running == old(brain.running)
    {
      var clean := CleanProfileUrl(url);
      if clean.Failure? {
        return Failed(url);
      }
      // `get_queue_stats()["total"]` is the queue's length (the `total` of QueueStats).
      var before := |queue.entries|;
      Enqueue(clean.value, urgent, initiator, now);
      var after := |queue.entries|;
      if after > before {
        kind := Added(clean.value);
      } else {
        kind := AlreadyQueued(clean.value);
      }
    }

    /**
     * `add_profile` on the shared queue, with the QUEUE_UPDATED event it
     * publishes dispatched synchronously to the Brain, which sees the URL pending.
     */
    method Enqueue(c: string, urgent: bool, initiator: string, now: int)
      requires Valid()
      modifies queue, brain`running, brain.machine
      ensures Valid()
      ensures queue.entries == QueueManager.AfterAdd(old(queue.entries), c, urgent, initiator, now)
      ensures |queue.entries| > |old(queue.entries)| <==> !QueueManager.HasUrl(old(queue.entries), c)
      ensures old(brain.machine.current) != Inactive ==>
        brain.machine.current == old(brain.machine.current) && brain.running == old(brain.running)
      ensures old(brain.machine.current) == Inactive ==> brain.machine.current == WaitingForActiveHours && brain.running
    {
      var _, _ := queue.AddProfile(c, urgent, initiator, now);
      var j := QueueManager.Find(queue.entries, c).value;
      QueueManager.PendingPositive(queue.entries, j);
      brain.HandleQueueUpdated(now);
    }

    /**
     * `_process_session`, run to completion: the callback's outcome becomes the
     * stats, and `session_ended` is called exactly once with them, whether the
     * callback returned or raised.
     */
    method ProcessSession(session: SessionRecord, cooldownMinutes: int, now: int) returns (ended: Option<SessionRecord>)
      requires Valid() && 10 <= cooldownMinutes <= 30
      modifies brain`memory, brain`currentSession, brain.machine
      ensures Valid()
      ensures var cs := old(brain.currentSession);
        if cs.Some? && cs.value.plan.id == session.plan.id then
          && ended == Some(Brain.Closed(cs.value, StatsFor(callback, session), now))
          && brain.memory == WithSession(old(brain.memory), ended.value, now)
          && brain.memory.totalSessions == old(brain.memory.totalSessions) + 1
          && brain.currentSession.None?
        else
          ended.None? && brain.memory == old(brain.memory) && brain.currentSession == old(brain.currentSession)
      ensures old(brain.machine.current) == FeedBrowsing ==> brain.machine.current == FeedBrowsing
    {
      var stats := ZERO_STATS;
      match callback {
        case None =>
        case Some(f) =>
          var outcome := f(session);
          match outcome {
            case Returned(results) =>
              if results.Some? {
                stats := Overlay(stats, results.value);
              }
            case Raised(msg) =>
              stats := stats.(error := Some(msg));
          }
      }
      ended := brain.SessionEnded(session.plan.id, stats, cooldownMinutes, now);
    }

    /**
     * `_handle_session_started`: without a callback nothing happens; otherwise
     * the session is processed (its thread is run to completion here).
     */
    method HandleSessionStarted(session: SessionRecord, cooldownMinutes: int, now: int) returns (ended: Option<SessionRecord>)
      requires Valid() && 10 <= cooldownMinutes <= 30
      modifies brain`memory, brain`currentSession, brain.machine
      ensures Valid()
      ensures callback.None? ==>
        ended.None? && brain.memory == old(brain.memory) &&
        brain.currentSession == old(brain.currentSession) && brain.machine.current == old(brain.machine.current)
      ensures callback.Some? ==>
        var cs := old(brain.currentSession);
        if cs.Some? && cs.value.plan.id == session.plan.id then
          && ended == Some(Brain.Closed(cs.value, StatsFor(callback, session), now))
          && brain.memory == WithSession(old(brain.memory), ended.value, now)
          && brain.memory.totalSessions == old(brain.memory.totalSessions) + 1
          && brain.currentSession.None?
        else
          ended.None? && brain.memory == old(brain.memory) && brain.currentSession == old(brain.currentSession)
      ensures callback.Some? && old(brain.machine.current) == FeedBrowsing ==> brain.machine.current == FeedBrowsing
    {
      if callback.None? {
        return None;
      }
      ended := ProcessSession(session, cooldownMinutes, now);
    }
  }

  /**
   * One session end to end, as the Brain's loop and the processor run it: the
   * Brain starts a due session and publishes SESSION_STARTED, the processor
   * runs it and reports its end, and the Brain is stopped. `session_ended`
   * asks for COOLDOWN_PERIOD from FEED_BROWSING and `stop` asks for INACTIVE,
   * neither of which the transition table allows, so the machine stays in
   * FEED_BROWSING: a later start finds no handler for that state.
   */
  method SessionStall(p: Processor, now: int, d: Brain.Draws, cooldownMinutes: int)
    returns (ended: Option<SessionRecord>)
    requires p.Valid() && p.brain.running && Brain.DrawsInRange(d) && 10 <= cooldownMinutes <= 30
    requires p.brain.machine.current == SessionStarting && Brain.PlanDue(p.brain.machine.stateData, now)
    requires p.callback.Some?
    requires Brain.FindPlan(p.brain.nextSessions, p.brain.machine.stateData.value.plan.id).Some?
    modifies p.brain, p.brain.machine
    ensures ended.Some? && ended.value.plan.id == old(p.brain.machine.stateData).value.plan.id
    ensures p.brain.machine.current == FeedBrowsing && !p.brain.running
    ensures p.brain.currentSession.None?
    ensures p.brain.memory.totalSessions == old(p.brain.memory.totalSessions) + 1
  {
    var _, events := p.brain.Step(now, d, None);
    var session := p.brain.currentSession.value;
    ended := p.HandleSessionStarted(session, cooldownMinutes, now);
    var _, _ := p.brain.Step(now + 1, d, None);
    var _ := p.brain.Stop(now + 1);
  }
}
