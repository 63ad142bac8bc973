# LinkedIn scraper pacing core, modelled in Dafny

This project models the bookkeeping and pacing layer of a LinkedIn profile scraper.
That layer decides when a browser session may run, which queued profiles it takes, and how the outcome is recorded.

Its parts:

- **Event bus** (`EventBus`): publish/subscribe with a history of at most 100 records per event type.
  A callback is registered at most once.
  A handler that raises does not stop the others.
- **State machine** (`StateMachine`): the nine operating states and their fixed transition table.
  A rejected transition changes nothing.
  An accepted one records a history entry (the last 100 are kept) and yields a SYSTEM_STATE_CHANGED payload.
- **Profile queue** (`QueueManager`): one entry per URL.
  - `add_profile`: re-queues a URL it already knows, in place; otherwise it appends a new entry.
  - `get_next_profiles`: urgent entries first, then oldest first, with ties in queue order.
  - `mark_profile_status`: updates the entry and picks the event from the status.
  - `get_queue_stats`: totals and per-status counts.
  - `clear_queue`: empties the queue.
- **Brain** (`Schedule`, `BrainMemory`, `Brain`): the session scheduler.
  - The day's special hours: one hour with three sessions, two hours with one.
  - The per-hour session target and the 15-minute spacing between sessions.
  - The hourly cap, which moves the next start into the first 15 minutes of a later active hour.
  - The session-type draw, and the planning, cooldown, waiting and error handlers.
  - The SESSION_STARTING step of the main loop.
  - Session start and end bookkeeping, and the memory document of days, hours, profiles and totals.
- **Batch processor** (`BatchProcessor`):
  - URL cleaning and validation;
  - `add_profiles`, which files each URL as added, already queued or failed and activates the Brain through the QUEUE_UPDATED event;
  - session processing, which reports the session's end to the Brain whatever the callback does.
- **Lookup limiter** (`Lookup`):
  - a 10-second cooldown per function;
  - at most 70 calls per hour per function;
  - records pruned after a day;
  - a random choice among the functions that may be called.
- **Navigator** (`LinkedinNavigator`):
  - the anchored profile-URL pattern `https?://(www.)?linkedin.com/in/<slug>`, written as string functions;
  - section URLs and the driver-mode choice.

  The main proofs:
  - normalisation is sound: the result is a profile prefix;
  - it is complete: a profile prefix is unique;
  - it is idempotent;
  - a section URL normalises back to its profile.
- **Parser utilities** (`ParserUtils`, `ParserIndex`):
  - the safe file name;
  - `extract_field_statistics`: each field's value frequencies, highest count first;
  - `build_profile_index`: one summary per parsed file, sorted by name;
  - `merge_profiles_by_company`: every matching profile is in the full list and in exactly one of the current and past lists.

Clock readings and random draws are parameters, each restricted to the range its `random` call guarantees.
Files and directories are values.
Events that the source dispatches to other components are returned as values.
The one exception is QUEUE_UPDATED during `add_profiles`: it is dispatched synchronously to the Brain, as the bus does.

Composing the Brain with the batch processor shows one behaviour of the source as written (`BatchProcessor.SessionStall`).
When a session ends, the machine is in FEED_BROWSING.
`session_ended` asks for COOLDOWN_PERIOD and `stop` asks for INACTIVE.
The transition table rejects both from FEED_BROWSING, so the machine stays in FEED_BROWSING.
The main loop has no handler for that state.

## Model

| member | source | states |
|---|---|---|
| EventBus.KeepLast | utils/event_bus.py:83-84 | the trimmed history is the most recent `cap` records, or all of them when there are fewer |
| EventBus.AddIfAbsent | utils/event_bus.py:46-51 | subscribing appends the callback only when it is absent; the list stays duplicate-free and holds exactly the old callbacks plus the new one |
| EventBus.RemoveFirst | utils/event_bus.py:61-62 | `list.remove` drops exactly one occurrence: the length falls by one and the multiset loses one copy |
| EventBus.RemoveFirstExact | utils/event_bus.py:53-63 | on a duplicate-free list, unsubscribing removes the callback completely and keeps every other callback |
| EventBus.Bus.constructor | utils/event_bus.py:32-36 | the bus starts with no subscribers and no history |
| EventBus.Bus.Subscribe | utils/event_bus.py:38-51 | the callback is registered for the type afterwards; other types and the history are unchanged |
| EventBus.Bus.Unsubscribe | utils/event_bus.py:53-63 | the callback is no longer registered; an unknown callback leaves everything unchanged; other types and the history are unchanged |
| EventBus.Bus.Publish | utils/event_bus.py:65-94 | the record is appended and trimmed to 100; every subscriber from before the call is called in order; the handlers that failed are exactly the raising ones among those called |
| EventBus.Bus.GetHistory | utils/event_bus.py:96-108 | no type (or an empty one) gives the whole table; an unknown type gives an empty list |
| EventBus.PublishedHistoryBounded | utils/event_bus.py:74-84 | after a publish the history has at most 100 records and ends with the new one; a full history drops exactly its oldest record |
| StateMachine.ValidTransitions | utils/state_machine.py:38-85 | ERROR is reachable from every other state and leads only to INACTIVE, WAITING_FOR_ACTIVE_HOURS and PLANNING_NEXT_SESSION; FEED_BROWSING and PROFILE_SCRAPING have no edge to INACTIVE or COOLDOWN_PERIOD; only PROFILE_SCRAPING loops to itself |
| StateMachine.Recorded | utils/state_machine.py:132-150 | recording appends the change and keeps the last 100; the earlier records keep their order |
| StateMachine.LastEntries | utils/state_machine.py:185-198 | a positive limit gives the last `limit` records; any other limit gives the whole history |
| StateMachine.Machine.constructor | utils/state_machine.py:24-88 | the machine starts in the initial state, with no data and one "Initialization" record |
| StateMachine.Machine.GetHistory | utils/state_machine.py:185-198 | the result is a suffix of the history, at most `limit` long when the limit is positive |
| StateMachine.Machine.Transition | utils/state_machine.py:90-130 | a transition outside the table returns false and changes nothing; an accepted one sets the state, replaces the data only when some is given, records one change and yields the SYSTEM_STATE_CHANGED payload |
| StateMachine.Machine.RecordStateChange | utils/state_machine.py:132-150 | the history becomes `Recorded` of the old history and the new change |
| StateMachine.TransitionRecordIsLast | utils/state_machine.py:118 | after a transition, `get_history(limit)` ends with its record |
| StateMachine.TwoTransitionsInHistory | utils/state_machine.py:132-150 | two consecutive transitions appear as the last two records, in order |
| QueueManager.Find | services/linked_navigator/queue_manager.py:82-83 | the search stops at the first entry with the URL; None exactly when no entry has it |
| QueueManager.Requeued | services/linked_navigator/queue_manager.py:82-102 | a done entry is reset to pending, with urgency OR-ed and the initiator replaced when one is given; a pending entry only gains urgency |
| QueueManager.AfterAdd | services/linked_navigator/queue_manager.py:66-118 | an unseen URL is appended as a new pending entry; a seen one keeps its place and its slot becomes `Requeued` of the old entry (urgency OR-ed, initiator replaced when reopened); URLs stay unique; the URL is pending afterwards; other entries are unchanged |
| QueueManager.FindFirstAt | services/linked_navigator/queue_manager.py:82-83 | the first entry holding the URL is the one the search stops at |
| QueueManager.Candidates | services/linked_navigator/queue_manager.py:135 | the filter keeps exactly the eligible entries (not done, unless done ones are included), in queue order and at their own indices |
| QueueManager.SortedCandidates | services/linked_navigator/queue_manager.py:138-139 | the sort is a permutation of the candidates, ordered urgent first, then by creation time, then by queue position |
| QueueManager.NextProfilesFromQueue | services/linked_navigator/queue_manager.py:120-141 | at most `count` entries come back, each an eligible entry of the queue |
| QueueManager.NextProfilesOrdered | services/linked_navigator/queue_manager.py:138-141 | the result is in the urgent-first, oldest-first order |
| QueueManager.NextProfilesFront | services/linked_navigator/queue_manager.py:138-141 | an eligible entry that is left out comes after every entry returned |
| QueueManager.NextProfilesAll | services/linked_navigator/queue_manager.py:141 | a count at least the queue length returns every eligible entry |
| QueueManager.Marked | services/linked_navigator/queue_manager.py:158-169 | the status is set; `done` becomes true on "completed" and is never cleared; given metadata is merged in over the old metadata |
| QueueManager.AfterMark | services/linked_navigator/queue_manager.py:143-187 | only the first entry with the URL changes; an absent URL leaves the queue unchanged; the length is kept |
| QueueManager.Bump | services/linked_navigator/queue_manager.py:205-208 | incrementing a status count adds one to that count only and keeps the keys distinct |
| QueueManager.StatusCounts | services/linked_navigator/queue_manager.py:205-208 | each status's count is the number of entries with that status; the keys are distinct and the counts sum to the queue length |
| QueueManager.QueueStatsConsistent | services/linked_navigator/queue_manager.py:189-217 | total = pending + completed, urgent <= pending, and the status counts sum to the total |
| QueueManager.PendingPositive | services/linked_navigator/queue_manager.py:199-202 | a queue with a pending entry has a positive pending count |
| QueueManager.PendingWitness | services/linked_navigator/queue_manager.py:199-202 | a positive pending count means some entry is not done |
| QueueManager.NextProfilesNonEmpty | services/linked_navigator/queue_manager.py:120-141 | with a pending entry and a positive count, at least one profile is returned |
| QueueManager.Queue.constructor | services/linked_navigator/queue_manager.py:26-53 | the queue is the stored content, or empty when the file is missing or invalid |
| QueueManager.Queue.AddProfile | services/linked_navigator/queue_manager.py:66-118 | always true; the queue becomes `AfterAdd`; QUEUE_UPDATED is published with "updated" for a known URL and "added" for a new one |
| QueueManager.Queue.MarkProfileStatus | services/linked_navigator/queue_manager.py:143-187 | true exactly when the URL is queued; the queue becomes `AfterMark`; PROFILE_SCRAPED, PROFILE_FAILED or QUEUE_UPDATED is published according to the status, and nothing for an unknown URL |
| QueueManager.Queue.ClearQueue | services/linked_navigator/queue_manager.py:219-230 | the queue is empty and a QUEUE_UPDATED "cleared" event is published |
| Config.ActiveHourRange | config/scraper_config.py:26 | an hour is active exactly when it is between 10 and 20 |
| Schedule.HourSplit | services/linked_navigator/brain.py:517-518 | a timestamp splits into a day and an hour of the day between 0 and 23 |
| Schedule.AvailableHours | services/linked_navigator/brain.py:143 | the hours 10 to 19 without the three-session hour, nine of them, ascending |
| Schedule.ConfigureSpecialHours | services/linked_navigator/brain.py:135-148 | the three-session hour is in 10..19; the two one-session hours are distinct, in 10..19 and differ from it |
| Schedule.HourTarget | services/linked_navigator/brain.py:528-534 | the target is 3 in the three-session hour, 1 in a one-session hour and 2 otherwise |
| Schedule.FirstAfter | services/linked_navigator/brain.py:540-545 | the search returns the first listed hour after the current one, or None when every hour is at most the current one |
| Schedule.FirstActiveAfter | services/linked_navigator/brain.py:540-552 | the first active hour after `h` is 10 before 10, h+1 from 10 to 19, and none from 20 on |
| Schedule.NextActiveHourStartSpec | services/linked_navigator/brain.py:536-556 | a capped hour moves to the top of a later active hour: the next hour when it is active, 10:00 today before opening, 10:00 tomorrow after closing |
| Schedule.NextSessionTime | services/linked_navigator/brain.py:510-585 | under the target, the start is after now, at least 15 minutes after the last known end, exactly that when it is later than now, and `now + soon` (30 s to 5 min from now) when the end is already 15 minutes past or none is known |
| Schedule.CappedHourMovesOn | services/linked_navigator/brain.py:536-559 | at the target, the next start falls in the first 15 minutes (1 to 900 s) of a later active hour |
| Schedule.WaitingSleepBounded | services/linked_navigator/brain.py:380-403 | outside active hours the waiting handler sleeps a positive time of at most 300 s |
| Schedule.SelectIndex | services/linked_navigator/brain.py:594-603 | the loop returns the first type whose cumulative probability reaches the draw, or the fallback 0 when none does |
| Schedule.SelectSessionType | services/linked_navigator/brain.py:587-603 | the selected type is one of SESSION_TYPES |
| Schedule.SelectSessionTypeIsFirstReaching | services/linked_navigator/brain.py:594-603 | the chosen type is the first whose cumulative probability is at least the draw, so the fallback is never used |
| BrainMemory.EmptyMemory | services/linked_navigator/brain.py:150-168 | the fresh memory has no days and no profiles, and all totals are zero |
| BrainMemory.WithSession | services/linked_navigator/brain.py:197-229 | the session is appended under the day and hour of its start; every other hour is unchanged; sessions +1, scraped and failed totals grow by the session's counts |
| BrainMemory.WithProfile | services/linked_navigator/brain.py:231-268 | the profile's history gains one entry; its last status and time are set; first seen is kept, or set now for a new profile; the other profiles, days and totals are unchanged |
| BrainMemory.WithSessionAppendOnly | services/linked_navigator/brain.py:197-229 | recording a session only appends: every hour's old list is a prefix of its new list |
| Brain.LastSessionEnd | services/linked_navigator/brain.py:562-571 | the current session's end wins; otherwise the end of the hour's last recorded session, and none when the hour has no session |
| Brain.PlannedDuration | services/linked_navigator/brain.py:424-425 | the drawn duration lies between the type's minimum and maximum, in seconds |
| Brain.SessionTypesOrdered | config/scraper_config.py:18-23 | every session type has min <= max duration and takes at least one profile |
| Brain.PlanAt | services/linked_navigator/brain.py:417-447 | the plan's profiles are `get_next_profiles(max_profiles)`; its type is a configured one whose count and duration range it respects; its id is the planning second |
| Brain.PlanStartFollowsRules | services/linked_navigator/brain.py:417-418 | a plan's start obeys the hourly cap, starts after now, and keeps the spacing after the last known end |
| Brain.PlanningAlwaysFindsProfiles | services/linked_navigator/brain.py:429-437 | with a pending entry the plan always has profiles, so the "failed to get profiles" branch is dead |
| Brain.FindPlan | services/linked_navigator/brain.py:614-618 | the search finds the first plan with the id, or none when no plan has it |
| Brain.WithoutId | services/linked_navigator/brain.py:625 | the filter keeps exactly the plans with another id, and never grows the list |
| Brain.WithoutIdCounts | services/linked_navigator/brain.py:625 | each plan with another id is kept as often as it occurs in `next_sessions`, and none with the id is |
| Brain.WithoutIdAppend | services/linked_navigator/brain.py:625 | the filter keeps the plans in their order: filtering a concatenation filters each part in turn |
| Brain.Opened | services/linked_navigator/brain.py:628-634 | the new current session is the plan, started now, with every counter zero |
| Brain.Closed | services/linked_navigator/brain.py:656-660 | the end time and the duration from the old start are set; the counters, the error and a `start_time` in the stats override the old ones; the plan is kept |
| Brain.Counted | services/linked_navigator/brain.py:94-97 | a scraped profile increments completed, a failed one increments failed, and the last activity is now |
| Brain.FindPlanIs | services/linked_navigator/brain.py:614-618 | the search loop's stopping index is FindPlan's answer |
| Brain.Brain.constructor | services/linked_navigator/brain.py:37-66 | an INACTIVE machine with no data, not running, no plans and no current session; the special hours are configured; the memory is the stored one or a fresh one |
| Brain.Brain.Start | services/linked_navigator/brain.py:270-287 | refuses when already running; otherwise the flag is set |
| Brain.Brain.Stop | services/linked_navigator/brain.py:289-308 | refuses when not running; otherwise the flag is cleared and INACTIVE is requested, which FEED_BROWSING rejects |
| Brain.Brain.CheckAndActivate | services/linked_navigator/brain.py:117-133 | an INACTIVE brain with pending profiles moves to WAITING_FOR_ACTIVE_HOURS and runs; otherwise nothing changes |
| Brain.Brain.HandleQueueUpdated | services/linked_navigator/brain.py:74-85 | activates exactly when INACTIVE with pending profiles; otherwise nothing changes |
| Brain.Brain.SessionStarted | services/linked_navigator/brain.py:606-639 | an unknown id changes nothing; otherwise the plan leaves `next_sessions` and becomes the current session, which is published |
| Brain.Brain.SessionEnded | services/linked_navigator/brain.py:643-688 | a foreign id changes nothing; otherwise the closed session goes into memory and is published; COOLDOWN_PERIOD is requested holding its end; the current session is cleared |
| Brain.Brain.EnterCooldown | services/linked_navigator/brain.py:668-681 | when the table allows it, the state is COOLDOWN_PERIOD with the session, the minutes and the end; otherwise the machine is unchanged |
| Brain.Brain.UpdateMemoryWithSession | services/linked_navigator/brain.py:197-229 | the memory becomes `WithSession` of the old memory |
| Brain.Brain.UpdateMemoryWithProfile | services/linked_navigator/brain.py:231-268 | the memory becomes `WithProfile` of the old memory |
| Brain.Brain.HandleProfileScraped | services/linked_navigator/brain.py:87-100 | without a session nothing changes; with one, it is counted and the profile is recorded as completed |
| Brain.Brain.HandleProfileFailed | services/linked_navigator/brain.py:102-115 | without a session nothing changes; with one, it is counted and the profile is recorded as failed |
| Brain.Brain.HandleWaiting | services/linked_navigator/brain.py:370-403 | in an active hour the brain moves to PLANNING_NEXT_SESSION; otherwise it sleeps toward the next active hour, for at most 5 minutes |
| Brain.Brain.HandlePlanning | services/linked_navigator/brain.py:405-468 | without pending profiles the brain goes back to WAITING; otherwise the plan is `PlanAt`, is appended to `next_sessions` and held in SESSION_STARTING, and the brain sleeps until its start |
| Brain.Brain.PlanSession | services/linked_navigator/brain.py:417-437 | the plan is `PlanAt` of the current state, and it is not empty |
| Brain.Brain.CommitPlan | services/linked_navigator/brain.py:449-463 | the plan is appended to `next_sessions` and held in SESSION_STARTING |
| Brain.Brain.HandleCooldown | services/linked_navigator/brain.py:470-496 | outside active hours the brain goes to WAITING; once the cooldown has ended it goes to PLANNING; otherwise it sleeps at most a minute and not past the end |
| Brain.Brain.HandleError | services/linked_navigator/brain.py:498-508 | the brain sleeps 30 s and returns to WAITING_FOR_ACTIVE_HOURS |
| Brain.Brain.HandleSessionStarting | services/linked_navigator/brain.py:329-347 | a due plan is started and the brain moves to FEED_BROWSING holding the id; before that nothing changes |
| Brain.Brain.Step | services/linked_navigator/brain.py:313-368 | one loop iteration: the current state's handler plus a 1 s sleep; a fault sends the brain to ERROR with a 10 s sleep; states without a handler are left alone |
| BatchProcessor.CleanProfileUrl | services/linked_navigator/batch_processor.py:197-220 | the function fails exactly when the stripped URL lacks "linkedin.com/in/"; otherwise it returns the anchored profile prefix when the pattern matches, and the stripped URL when it does not |
| BatchProcessor.CleanIsNormalised | services/linked_navigator/batch_processor.py:216-220 | a cleaned URL is a fixed point of the navigator's normalisation |
| BatchProcessor.KindOf | services/linked_navigator/batch_processor.py:79-106 | a URL failing validation is filed as given; a clean one is "added" exactly when it was not queued, else "already queued" |
| BatchProcessor.Classify | services/linked_navigator/batch_processor.py:79-106 | there is one classification per submitted URL |
| BatchProcessor.ClassifyAt | services/linked_navigator/batch_processor.py:79-106 | the i-th URL is judged against the queue the first i submissions left |
| BatchProcessor.PrefixStep | services/linked_navigator/batch_processor.py:79-106 | one more URL extends the classification and the queue by that URL's step |
| BatchProcessor.Partition | services/linked_navigator/batch_processor.py:93-106 | every classified URL lands in exactly one of the three lists, as a multiset |
| BatchProcessor.NoneFailed | services/linked_navigator/batch_processor.py:99-106 | the failed list is empty exactly when no URL failed |
| BatchProcessor.PartitionStep | services/linked_navigator/batch_processor.py:93-106 | a new URL is appended to the list of its kind only |
| BatchProcessor.AddedIffGrew | services/linked_navigator/batch_processor.py:93-98 | "added" holds exactly when the queue total grew, and "already queued" exactly when it stayed the same |
| BatchProcessor.ResultsPartition | services/linked_navigator/batch_processor.py:72-112 | the three lists hold every URL exactly once; `success` is false exactly when some URL failed validation |
| BatchProcessor.ResultsPerUrl | services/linked_navigator/batch_processor.py:79-106 | a failing URL is recorded as given; the others are recorded cleaned, as "added" exactly when the queue they met lacked them |
| BatchProcessor.Overlay | services/linked_navigator/batch_processor.py:171-172 | `stats.update(results)`: each key the result carries (counters, error, start time) wins |
| BatchProcessor.StatsFor | services/linked_navigator/batch_processor.py:152-181 | the stats start at zero counters, are overlaid by a returned dict, and carry "error" when the callback raises |
| BatchProcessor.Processor.constructor | services/linked_navigator/batch_processor.py:32-49 | there is no callback yet; the processor shares the Brain's queue and has its own INACTIVE machine |
| BatchProcessor.Processor.RegisterSessionCallback | services/linked_navigator/batch_processor.py:114-124 | the new callback replaces the old one |
| BatchProcessor.Processor.AddProfiles | services/linked_navigator/batch_processor.py:60-112 | the results are `ResultsFor`; the queue is every submission applied in order; an INACTIVE brain is activated once something is queued; any other state is kept |
| BatchProcessor.Processor.AddOne | services/linked_navigator/batch_processor.py:80-106 | the URL is filed by `KindOf`; the queue takes its step; a clean URL activates an INACTIVE brain through QUEUE_UPDATED |
| BatchProcessor.Processor.Enqueue | services/linked_navigator/batch_processor.py:88 | the queue becomes `AfterAdd`; it grew exactly when the URL was new; the QUEUE_UPDATED dispatch activates an INACTIVE Brain and leaves any other state as it was |
| BatchProcessor.Processor.ProcessSession | services/linked_navigator/batch_processor.py:145-185 | `session_ended` runs with `StatsFor` of the callback's outcome, whether it returned or raised; the session is closed and recorded in memory exactly when it is current |
| BatchProcessor.Processor.HandleSessionStarted | services/linked_navigator/batch_processor.py:126-143 | without a callback nothing happens; with one, the session is processed |
| BatchProcessor.SessionStall | services/linked_navigator/batch_processor.py:145-185 | start, process and stop one session: it is recorded, the brain stops, and the machine remains in FEED_BROWSING |
| Lookup.NewerThan | services/lookup/lookup.py:125 | the filter keeps exactly the calls newer than the cut-off |
| Lookup.NewerThanSubsequence | services/lookup/lookup.py:143-146 | the filter keeps the calls in their order |
| Lookup.NewerThanAll | services/lookup/lookup.py:143-146 | a list whose calls are all newer than the cut-off is kept whole |
| Lookup.CallableRules | services/lookup/lookup.py:106-129 | a function may be called exactly when its last call is at least 10 s old (or it has none) and it has fewer than 70 calls in the last hour |
| Lookup.RecordedSpec | services/lookup/lookup.py:131-146 | a recorded call ends the history; only calls of the last day remain, in order; the function cannot be called again for 10 s |
| Lookup.AvailableAmong | services/lookup/lookup.py:94-98 | the collected names are exactly the names that may be called |
| Lookup.Limiter.constructor | services/lookup/lookup.py:30-54 | every lookup function starts with an empty history |
| Lookup.Limiter.SelectAvailable | services/lookup/lookup.py:87-104 | the result is None exactly when no function may be called; otherwise the drawn element of the callable names |
| Lookup.Limiter.CollectCallable | services/lookup/lookup.py:94-98 | the loop collects `AvailableAmong` of the names |
| Lookup.Limiter.RecordCall | services/lookup/lookup.py:131-146 | only the named function's history changes, to `Recorded` |
| Lookup.Limiter.LookupByEmail | services/lookup/lookup.py:56-85 | an invalid email or a full rate limit fails without recording anything; otherwise the chosen function's call is recorded and the lookup result returned |
| LinkedinNavigator.SlugLength | services/linked_navigator/linkedin_navigator.py:82 | `[^/]+` consumes the longest run of non-'/' characters |
| LinkedinNavigator.SchemeLength | services/linked_navigator/linkedin_navigator.py:82 | `https?://` matches at the start exactly when one of the two schemes is there |
| LinkedinNavigator.HostLength | services/linked_navigator/linkedin_navigator.py:82 | `(?:www\.)?linkedin\.com/in/` matches exactly when one of the two hosts is there |
| LinkedinNavigator.NormalizeProfileUrl | services/linked_navigator/linkedin_navigator.py:68-85 | the normalised URL is a prefix of the input |
| LinkedinNavigator.NormalizeSound | services/linked_navigator/linkedin_navigator.py:82-84 | when the pattern matches, the result is a profile prefix: a scheme, a host and a slug, followed by '/' or the end |
| LinkedinNavigator.NormalizeComplete | services/linked_navigator/linkedin_navigator.py:82-84 | a profile prefix of the URL is unique and is what normalisation returns |
| LinkedinNavigator.NormalizeUnmatched | services/linked_navigator/linkedin_navigator.py:85 | a URL with no profile prefix is returned unchanged |
| LinkedinNavigator.NormalizeIdempotent | services/linked_navigator/linkedin_navigator.py:68-85 | normalising twice gives the same result as normalising once |
| LinkedinNavigator.SectionUrlRoundTrip | services/linked_navigator/linkedin_navigator.py:87-97 | a section URL normalises back to its profile URL, and the section can be read back off it |
| LinkedinNavigator.SelectDriverMode | services/linked_navigator/linkedin_navigator.py:48-53 | a profile path gives profile mode, else a cookies file gives cookies mode, else basic mode |
| LinkedinNavigator.NewNavigator | services/linked_navigator/linkedin_navigator.py:26-66 | the stored URL is normalised; the driver mode is selected; the HTML stores are empty and the navigator is not authenticated |
| Strings.Strip | services/linked_navigator/batch_processor.py:208 | `strip` yields the input with exactly its leading and trailing whitespace cut off, and no whitespace at either end |
| Strings.StripKeeps | services/linked_navigator/batch_processor.py:208 | stripping only removes characters: every character of the result occurs in the input |
| Strings.Lower | services/parser/parser_utils.py:403 | `lower` maps each character through the ASCII case mapping |
| Strings.SplitJoin | services/parser/parser_utils.py:243 | splitting a field path by '.' loses nothing: joining the parts gives the path back |
| Json.Lookup | services/parser/parser_utils.py:253-254 | `d[key]` is defined exactly when the key is present, and it is that member's value |
| Json.GetOr | services/parser/parser_utils.py:318-331 | `d.get(key, default)` is the default exactly when the key is absent |
| Json.In | services/parser/parser_utils.py:253 | `part in v` is key membership for a dict, element equality for a list and substring for a string, and it raises otherwise |
| Json.Iter | services/parser/parser_utils.py:267 | iteration gives a list's items, a dict's keys and a string's characters, and raises otherwise |
| Json.Len | services/parser/parser_utils.py:329-331 | `len` is defined for lists, dicts and strings only |
| Json.Str | services/parser/parser_utils.py:274 | `str` of a string is itself, and of a number its decimal form |
| ParserUtils.Sanitize | services/parser/parser_utils.py:90 | every unsafe character becomes '_' and every safe one is kept |
| ParserUtils.SafeName | services/parser/parser_utils.py:90 | the safe name has only safe characters and no space at either end |
| ParserUtils.ParsedFileName | services/parser/parser_utils.py:92 | the output file name ends in `_parsed_data.json` |
| ParserUtils.Walk | services/parser/parser_utils.py:249-257 | a missing part stops the walk; a scalar, or a list or string that "contains" the part, raises |
| ParserUtils.WalkDict | services/parser/parser_utils.py:253-254 | walking a dict descends into the first part's value |
| ParserUtils.WalkResolvedFromDict | services/parser/parser_utils.py:249-257 | a resolved non-empty walk starts at a dict holding the first part |
| ParserUtils.HashKey | services/parser/parser_utils.py:270 | lists and dicts cannot be keys; strings and numbers are their own keys |
| ParserUtils.ItemKey | services/parser/parser_utils.py:267-270 | a list item contributes at most one key and raises unless it is a dict |
| ParserUtils.ContributionOf | services/parser/parser_utils.py:247-274 | a missing path contributes nothing; a raise propagates; a resolved non-list contributes its `str` when truthy and nothing otherwise; a resolved list contributes its items' keys when the second-to-last part is in the profile, and nothing for a one-part path |
| ParserUtils.Contributions | services/parser/parser_utils.py:247 | there is one contribution per profile, in order |
| ParserUtils.Bump | services/parser/parser_utils.py:270 | increments a present key in place and appends a new key with count 1 |
| ParserUtils.BumpCounts | services/parser/parser_utils.py:270 | one increment adds one to that key's count and nothing to any other key's |
| ParserUtils.BumpWellFormed | services/parser/parser_utils.py:270 | incrementing keeps the keys distinct and every count positive |
| ParserUtils.BumpAllSpec | services/parser/parser_utils.py:247-274 | each key's count is its number of occurrences; the total is the number of keys counted |
| ParserUtils.SortByCount | services/parser/parser_utils.py:277 | the sort is a permutation of the entries |
| ParserUtils.SortByCountSorted | services/parser/parser_utils.py:277 | the statistics are ordered by non-increasing count |
| ParserUtils.SortByCountWellFormed | services/parser/parser_utils.py:277 | sorting keeps the dict well formed, with the same keys |
| ParserUtils.Put | services/parser/parser_utils.py:278 | storing a path that is present replaces its value in place; a new path is appended |
| ParserUtils.StatisticsFrom | services/parser/parser_utils.py:242-283 | the loop over field paths stores each path at most once; an exception in the walk ends it with the paths done so far |
| ParserUtils.StatisticsHold | services/parser/parser_utils.py:242-278 | every stored entry holds the statistics of its own path |
| ParserUtils.StatisticsCover | services/parser/parser_utils.py:242-278 | when no walk raises, every requested path gets an entry |
| ParserUtils.StatisticsOnlyRequested | services/parser/parser_utils.py:242-278 | only requested paths get entries |
| ParserUtils.OneEntryPerField | services/parser/parser_utils.py:226-283 | with no raise, there is exactly one entry per distinct requested path, each holding that path's statistics |
| ParserUtils.StopsAtRaise | services/parser/parser_utils.py:280-283 | an exception in one path's walk keeps the earlier paths' entries and nothing more |
| ParserUtils.FieldStatisticsCounts | services/parser/parser_utils.py:244-277 | a field's statistics count each contributed value exactly as often as it occurs, hold exactly those values, and are sorted highest first |
| ParserUtils.MissingContributesNothing | services/parser/parser_utils.py:259-260 | a profile missing the path changes no count |
| ParserUtils.ScalarFieldBound | services/parser/parser_utils.py:271-274 | without list values, each profile contributes at most one count |
| ParserUtils.WalkPath | services/parser/parser_utils.py:249-257 | the part loop computes `Walk` |
| ParserUtils.CountItems | services/parser/parser_utils.py:267-270 | the item loop bumps exactly the items' keys, or raises |
| ParserUtils.CountField | services/parser/parser_utils.py:244-277 | the profile loop and the sort give the field's statistics |
| ParserUtils.CountProfile | services/parser/parser_utils.py:249-274 | one profile's pass bumps exactly its contribution |
| ParserUtils.ExtractFieldStatistics | services/parser/parser_utils.py:226-283 | the function computes `FieldStatisticsOf` of the batch |
| ParserIndex.JoinPath | services/parser/parser_utils.py:311 | `os.path.join` ends with the name, and separates it from the directory by one '/' |
| ParserIndex.ParsedFiles | services/parser/parser_utils.py:308 | the listing is filtered to exactly the names ending in `_parsed_data.json` |
| ParserIndex.KeptFrom | services/parser/parser_utils.py:334 | a record is kept exactly when some file yields it |
| ParserIndex.InsertByNameOrdered | services/parser/parser_utils.py:343 | inserting by name keeps a list ordered |
| ParserIndex.SortNamed | services/parser/parser_utils.py:343 | when every name is a string, the sort is a permutation ordered by name |
| ParserIndex.SortByName | services/parser/parser_utils.py:448-450 | `sort(key=name)` is a permutation, ordered whenever every name is a string |
| ParserIndex.OrderedPairwise | services/parser/parser_utils.py:448 | in a sorted list every later name is at least every earlier one |
| ParserIndex.LoweredField | services/parser/parser_utils.py:403 | `exp.get(key, "").lower()` succeeds exactly on a dict whose value is a string |
| ParserIndex.MarkOf | services/parser/parser_utils.py:402-412 | one experience's pass matches on the lowered company and is current when its date range contains "present" |
| ParserIndex.CombineRaises | services/parser/parser_utils.py:402-412 | the loop raises exactly when some pass raises |
| ParserIndex.ScanMeaning | services/parser/parser_utils.py:398-412 | the loop raises exactly when some experience cannot be scanned; otherwise it keeps exactly the matching experiences, and `is_current` holds exactly when one of them is present |
| ParserIndex.DictField | services/parser/parser_utils.py:417-418 | `d.get(key, {})` can be used as a dict exactly when it is a dict |
| ParserIndex.EmployeeInclusion | services/parser/parser_utils.py:398-429 | a profile is taken exactly when some experience matches the company; its `is_current` and experiences are those of the matches |
| ParserIndex.ScanFound | services/parser/parser_utils.py:415 | something is found exactly when some experience matches |
| ParserIndex.Select | services/parser/parser_utils.py:434-437 | the current and past lists hold exactly the records with that flag |
| ParserIndex.SelectSplits | services/parser/parser_utils.py:432-437 | the current and past lists together are the records, as a multiset |
| ParserIndex.PartitionLists | services/parser/parser_utils.py:432-450 | the sorted lists partition the records into current and past, each sorted by name when the names are strings |
| ParserIndex.MergePartition | services/parser/parser_utils.py:358-459 | `profiles_found` = current count + past count; every record is in exactly one of the two lists; all three lists are ordered by name when the names are strings, and keep file order otherwise |
| ParserIndex.MergeMissingDirectory | services/parser/parser_utils.py:384-386 | a missing directory finds no profiles and records no counts |
| ParserIndex.SummaryFields | services/parser/parser_utils.py:318-332 | a summary records its file's path and the lengths of its experiences, education and skills |
| ParserIndex.IndexContents | services/parser/parser_utils.py:285-352 | `total_profiles` is the number of summaries; the summaries are exactly those of the parsed files that do not raise; they are sorted by name |
| ParserIndex.SummariesListed | services/parser/parser_utils.py:308-338 | summaries are gathered from exactly the parsed-data files that do not raise |
| ParserIndex.KeptListed | services/parser/parser_utils.py:308-338 | a record is kept exactly when a parsed-data file yields it |
| ParserIndex.EmployeesListed | services/parser/parser_utils.py:388-441 | a record is merged exactly when a parsed-data file yields it |
| ParserIndex.ScanExperiences | services/parser/parser_utils.py:398-412 | the experience loop computes `ScanOf` |
| ParserIndex.MergeProfilesByCompany | services/parser/parser_utils.py:358-463 | the function computes `MergeOf` of the listing |
| ParserIndex.CollectEmployees | services/parser/parser_utils.py:390-441 | the file loop gathers the taken records, and the current and past lists by their flag |
| ParserIndex.ProcessEmployee | services/parser/parser_utils.py:393-441 | one file's pass computes `EmployeeOf` |
| ParserIndex.BuildProfileIndex | services/parser/parser_utils.py:285-356 | the function computes `IndexOf` of the listing |
| ParserIndex.CollectSummaries | services/parser/parser_utils.py:310-338 | the file loop gathers exactly the summaries that do not raise |

## Left out

Left out of the model entirely:

- Threads, locks and sleeping: a sleep is returned instead of slept, and a thread is run to completion where it is started.
  - The Brain's main-loop thread is not part of this model (`start` only sets the flag).
  - `_process_session`'s thread and its processing lock are not part of this model.
- The JSON files behind the queue, the Brain's memory, the parsed profiles and the outputs are not part of this model.
  - Each file is a value.
  - A missing or unreadable queue or memory file reads as the empty document.
  - The `output_path` writes and the `os.listdir` errors of the parser utilities are not modelled.
- `get_status` of the Brain and the batch processor is not modelled: it is a read-only report.
- The browser-driving methods of the navigator (`start` onward) are not modelled: they call into Playwright.
- The lookup functions behind `lookup_by_email`, and `EmailValidator.is_valid`, are not modelled: their results are parameters.
- `random` is not modelled: each draw is a parameter in the range its call guarantees.
- The callbacks on the event bus are identified by number; their bodies are not modelled.
- Logging is not modelled.

Modelled differently from the source:

- Time is integer seconds, and day and hour are computed from the timestamp. Time zones and daylight saving are not modelled.
- The `last_updated` clock reading of `build_profile_index` is a parameter.
- JSON numbers are integers, and floating point is not modelled.
  - A session's planned duration is whole seconds.
  - A session-type probability is in hundredths.
- `random.random()` is `k / 2^53`.
- Python's `str` and `repr` are modelled only for the JSON values the statistics use; `repr` does not escape quotes.
- `isalnum` and `lower` are restricted to ASCII.
- Python's merging of equal dict keys such as `True` and `1` is not modelled.
- ParserUtils.SortByCount: does not state stability (ties keep their order), because only the ordering and the permutation are proved.
- ParserIndex.SortNamed: does not state stability, for the same reason.
- ParserIndex.SortByName: when some name is not a string, the records stay in list order. Python would raise TypeError, or order mixed comparable values.
  - In `merge_profiles_by_company` the full list is sorted first, so when it holds such a name, none of the three lists is sorted (`ParserIndex.MergeOf`): the exception ends the merge before the other two sorts.
- Brain.Closed: of the keys the session callback returns, only the three counters, `error` and `start_time` are modelled. Other keys, such as `session_id`, decide nothing the model states. A callback that returned `id`, `end_time` or `actual_duration` would overwrite those too; the model's callback result has no such keys.
- Json.Lookup: the members of a JSON object are assumed to have distinct keys. For a duplicate key, `json.load` keeps the last member while `Lookup` finds the first.
- The state machine's `data` is an `Option`: `None` stands for every falsy payload, so an empty `{}` is not told apart from no data. Every payload the Brain passes is a non-empty dict.
- Brain.Brain.Step: `fault` models an exception raised before the handler changes anything. An exception in the middle of a handler is not modelled.
- `get_queue_stats()["pending"]` is `QueueManager.CountPending`, and `get_queue_stats()["total"]` is the queue's length. The callers use only those two fields.
- The `add_profile` failure branch of `add_profiles` is not modelled: `add_profile` always returns True.
- The final activation of `add_profiles` is modelled but has no effect. It tests the processor's own machine, which is never transitioned. The Brain is activated through QUEUE_UPDATED when each URL is added.
- The "failed to get profiles" branch of `_handle_planning_next_session` is proved unreachable (`Brain.PlanningAlwaysFindsProfiles`), so the model has no transition for it.
