# Day planner: calendar sync and event bucketing

This project is a Dafny model of two pieces of data-shaping logic in the day planner's reactive wiring.

**Calendar sync with a last-good cache** (`src/util/use-ical-events.ts`). Each round the derived store does the following:
- It skips calendars whose URL is blank after `trim()`.
- It fetches the rest.
- On success it keeps only the `VEVENT` components, tags each with its calendar config, and overwrites the cache entry for that URL.
- On failure it falls back to the cached entry, or to nothing.
- It publishes the per-calendar results concatenated in configuration order.

While offline the callback returns without publishing, and the cache is not touched. `refreshIcalEvents` is the same pipeline over a fresh, empty cache. The model is in module `IcalSync`:
- One round is `SyncRound(attempts, cache)`, a fold (`FetchAll`) of `Settle` over the non-blank calendars. Each `Attempt` pairs a calendar config with the outcome its fetch has this round: `Fetched(components)` or `FetchFailed`.
- One store update is `Sync(state, online, attempts)`, and a series of updates is `Replay`.
- `refreshIcalEvents` is `RefreshIcalEvents`.
- `LastGood` is an independent reference definition of what the cache says about a URL after a sequence of attempts.

**Event expansion, day bucketing and the today lookup** (`src/util/create-hooks.ts`). Module `EventExpansion` models these steps:
- `SchedulerQueue` is the `schedulerQueue` derivation. It prunes events with `canHappenAfter` against the start of the earliest visible day. It then builds the event-major, day-minor cross product of jobs. If either input is empty, the job list is empty.
- `RunJobs` is the background scheduler's settled output.
- `VisibleDayToEventOccurrences` is the `visibleDayToEventOccurences` flow. `OccurrenceTasks` does `filter(Boolean)` and `flatten`. `BucketByDay` does `groupBy(getDayKey(startTime))` (`GroupByDay`) and then a `partition` on `startMinutes` (`Partition`).
- `TasksForToday` is the today lookup with its fallback.
- `EventOccurrences` composes the whole path.

The helpers whose bodies are elsewhere are function-typed parameters and are never interpreted: `canHappenAfter`, `icalEventToTasks`, `getDayKey`, the earliest-day computation and `getEmptyRecordsForDay`.

Shared pieces:
- `Seqs` holds an order-preserving `Filter`, a one-level `Flatten` and their lemmas.
- `Calendar` holds the config, component and tagged-event types, `isVEvent`, and JavaScript's `String.prototype.trim` over the ECMAScript whitespace and line-terminator code points.

Inputs that are I/O become parameters:
- The HTTP request and the ICS parser appear only as the per-calendar outcome.
- The online flag is a boolean argument.
- The current time is a `Moment` argument.

## Model

| member | source | states |
|---|---|---|
| `Calendar.Trim` | src/util/use-ical-events.ts:31 | The trimmed URL is a contiguous slice of the URL, and neither starts nor ends with a JavaScript whitespace or line-terminator character. `url.trim().length > 0` fails exactly when every character of the URL is whitespace. |
| `IcalSync.CalendarEvents` | src/util/use-ical-events.ts:38-43 | Every event a successful fetch yields is a VEVENT tagged with the fetching calendar's config. Which events, how often and in what order is stated by `IcalSync.CalendarEventsInParseOrder` and `IcalSync.CalendarEventsMembership`. |
| `IcalSync.CalendarEventsInParseOrder` | src/util/use-ical-events.ts:38-43 | A successful fetch yields each VEVENT component once, in parse order. A single component yields itself, tagged, when it is a VEVENT and nothing otherwise. Parsing `a + b` yields the events of `a` followed by those of `b`. |
| `IcalSync.CalendarEventsMembership` | src/util/use-ical-events.ts:8-10 | An event is in a successful fetch's result exactly when its component is a parsed component of type "VEVENT" and its tag is that calendar. Other components never appear. |
| `IcalSync.FetchedAttempts` | src/util/use-ical-events.ts:30-31 | Only calendars whose URL is non-blank after trimming are fetched, and there are no more of them than configured calendars. `IcalSync.FetchedAttemptsMembership` and `IcalSync.FetchedAttemptsAppend` state which calendars are fetched and in what order. |
| `IcalSync.FetchedAttemptsMembership` | src/util/use-ical-events.ts:30-31 | A calendar is fetched exactly when it is configured and its URL is non-blank after trimming. |
| `IcalSync.FetchedAttemptsAppend` | src/util/use-ical-events.ts:30-31 | Dropping blank calendars keeps the configuration order. The fetched calendars of `a + b` are those of `a` followed by those of `b`. |
| `IcalSync.BlankCalendarIgnored` | src/util/use-ical-events.ts:30-31 | Inserting a blank-URL calendar anywhere in the configuration changes neither the round's results nor its cache. |
| `IcalSync.FetchAll` | src/util/use-ical-events.ts:32-48 | A round has one result slot per fetched calendar. The slot of a successful fetch is exactly its tagged VEVENTs. |
| `IcalSync.SlotIsLastGood` | src/util/use-ical-events.ts:36-53 | A slot is its fresh events on success. On failure it is the last good events of its URL from before it in the round. |
| `IcalSync.FailureFallsBackToCache` | src/util/use-ical-events.ts:49-53 | A failed fetch with no earlier success at its URL yields the cache entry for that URL, or an empty list if there is none. |
| `IcalSync.CacheUntouchedWithoutSuccess` | src/util/use-ical-events.ts:49-53 | A URL that no fetch in the round succeeded on keeps its cache entry unchanged, or stays absent. |
| `IcalSync.SuccessOverwritesCache` | src/util/use-ical-events.ts:45 | A success not superseded later in the round overwrites that URL's cache entry with exactly its tagged VEVENTs. This holds even when there are none. |
| `IcalSync.CacheKeys` | src/util/use-ical-events.ts:45 | The cache's keys after a round are the old keys plus the successfully fetched URLs. No key is removed. |
| `IcalSync.CacheLookupIsLastGood` | src/util/use-ical-events.ts:45-52 | After a round, the cache answers every URL with that URL's last successful events, or with what it held before. |
| `IcalSync.SlotIsolation` | src/util/use-ical-events.ts:32-59 | Changing one calendar's fetch outcome leaves the slot of every calendar with a different URL unchanged. |
| `IcalSync.RoundWellFormed` | src/util/use-ical-events.ts:36-53 | A round keeps every cache entry made of VEVENTs tagged with a calendar of that entry's URL. Every slot holds only VEVENTs tagged with a calendar of the slot's URL. |
| `IcalSync.OfflineTriggersChangeNothing` | src/util/use-ical-events.ts:26-28 | Any number of store updates while offline leave the published value and the cache unchanged. |
| `IcalSync.OnlineRoundPublishes` | src/util/use-ical-events.ts:30-59 | An online update publishes, concatenated in configuration order, one slot per fetched calendar as `LastGoodSlots` defines it independently of the cache fold. Each slot is a success's tagged VEVENTs, or else its URL's last good events from earlier in the round. |
| `IcalSync.OnlineRoundCache` | src/util/use-ical-events.ts:36-53 | After an online update the cache answers every URL with that URL's `LastGood` events. Its keys are the old keys plus the successfully fetched URLs. |
| `IcalSync.PublishedEventsAreTaggedVEvents` | src/util/use-ical-events.ts:36-59 | After one update from a well-formed cache, every published event is a VEVENT tagged with the URL of a fetched calendar, and the cache stays well formed. |
| `IcalSync.ReplayKeepsWellFormed` | src/util/use-ical-events.ts:17-61 | Any series of updates from a well-formed state keeps every cache entry made of VEVENTs of its own URL, and publishes only VEVENTs. |
| `IcalSync.InitialStateStaysWellFormed` | src/util/use-ical-events.ts:17-61 | From the empty cache and nothing published, the store only ever publishes VEVENTs, and its cache stays well formed. |
| `IcalSync.RefreshFailureIsEmpty` | src/util/use-ical-events.ts:65-92 | In `refreshIcalEvents`, a failing calendar with no earlier success at its URL contributes nothing. |
| `IcalSync.RefreshAgreesWithSync` | src/util/use-ical-events.ts:65-96 | `refreshIcalEvents` returns what an online sync round publishes whenever that round's cache holds nothing for the failing URLs. |
| `EventExpansion.CrossProductLength` | src/util/create-hooks.ts:189-193 | The cross product has length (number of events) × (number of visible days). |
| `EventExpansion.CrossProductBlocks` | src/util/create-hooks.ts:189-193 | The list is event-major and day-minor. The jobs of event `i` form one contiguous block, one job per visible day in day order. That block follows the blocks of the events before `i` and precedes those of the events after it. |
| `EventExpansion.CrossProductMembership` | src/util/create-hooks.ts:189-193 | A job is in the cross product exactly when its event and its day are. |
| `EventExpansion.EmptyInputsGiveNoJobs` | src/util/create-hooks.ts:178-180 | There are no jobs when nothing has been published yet, when the event list is empty, or when no day is visible. |
| `EventExpansion.SchedulerQueueShape` | src/util/create-hooks.ts:182-193 | Over a non-empty event list, the queue is the blocks of the events `canHappenAfter` keeps for the start of the earliest visible day, in their order. Each block pairs its event with every visible day. |
| `EventExpansion.SchedulerQueueMembership` | src/util/create-hooks.ts:182-193 | A job for (event, day) is queued exactly when the event was published, `canHappenAfter` accepts it for the earliest day's start, and the day is visible. Pruned events get no job. |
| `EventExpansion.OccurrenceTasksMembership` | src/util/create-hooks.ts:213-214 | After `filter(Boolean)` and `flatten`, a task is present exactly when some job's result yields it. Falsy results contribute nothing. |
| `EventExpansion.OccurrenceTasksInJobOrder` | src/util/create-hooks.ts:213-214 | Each yielded task is kept once per job that yields it, in job order. A single result contributes its tasks when truthy and nothing otherwise. The results `a + b` contribute those of `a`, then those of `b`. This job order is the input order that grouping and partitioning preserve. |
| `EventExpansion.GroupByDay` | src/util/create-hooks.ts:215 | A day key is in the grouping exactly when some task starts on that day. Its entry is exactly that day's tasks, in input order. |
| `EventExpansion.Partition` | src/util/create-hooks.ts:216-222 | `withTime` is exactly the tasks with `startMinutes` defined and `noTime` exactly the rest, each in input order. |
| `EventExpansion.BucketByDay` | src/util/create-hooks.ts:215-223 | A day key has a bucket exactly when some task starts on that day. Each bucket holds that day's tasks, split on `startMinutes` with order preserved. |
| `EventExpansion.PartitionIsPermutation` | src/util/create-hooks.ts:216-222 | The two halves of a partition together hold every task exactly as often as the input does. Nothing is lost or duplicated. |
| `EventExpansion.NoEmptyBucket` | src/util/create-hooks.ts:215-222 | Every day key present in the grouped map has at least one task in `withTime` or `noTime`. |
| `EventExpansion.WithTimeMembership` | src/util/create-hooks.ts:215-222 | A task is in day `k`'s `withTime` exactly when it is one of the tasks, starts on `k` and has a start time. |
| `EventExpansion.NoTimeMembership` | src/util/create-hooks.ts:215-222 | A task is in day `k`'s `noTime` exactly when it is one of the tasks, starts on `k` and has no start time. Together with the row above, every task sits in the bucket of its own day, in exactly one half. |
| `EventExpansion.EventOccurrencesMembership` | src/util/create-hooks.ts:175-225 | End to end, a task is in day `k`'s bucket exactly when it starts on `k` and expanding some published, not-pruned event for some visible day yields it. |
| `EventExpansion.TodayFromEventOccurrences` | src/util/create-hooks.ts:268-273 | Today's view is exactly today's occurrences, split on start time. This holds whether the bucket is present or the empty fallback is used. |

## Left out

- `EventExpansion.TodayFromEventOccurrences`: it assumes `getEmptyRecordsForDay()` returns two empty lists. It also takes the event buckets alone as `visibleTasks`. `mergeTasks` and `src/util/tasks-utils.ts` are not part of this model. `TasksForToday` itself takes both as parameters.
- `Calendar.Trim`: it states that the trimmed string is a slice of the URL with non-whitespace ends. It does not say which slice, that is, that exactly the leading and trailing whitespace runs are dropped. Only its emptiness is used by the sync.
- Concurrency. `Promise.all` is modelled as a fold in configuration order. With two calendars sharing a URL, the source lets completion order decide which cached value a failing one sees and which success is stored last. The model uses configuration order.
- The background batch scheduler (`createBackgroundBatchScheduler`, `src/util/scheduler.ts`) is not part of this model. This covers its chunking, yielding and per-batch publication. Its output is modelled as the settled list of all job results, in job order.
- The HTTP `request`, `ical.parseICS` and `console.error` are foreign calls. They appear only as a per-calendar `Fetched(components)` or `FetchFailed` outcome. The parser's component order is the order of `components`.
- Svelte store subscription, the refresh interval timer, the sync trigger stores, and the DOM and workspace event registrations and dispatches (`src/util/create-hooks.ts:77-171`). This is host plumbing. The model takes a snapshot of the inputs per update.
- The note-task pipeline (`useVisibleDailyNotes`, `useListsFromVisibleDailyNotes`, `useTasksFromExtraSources`, `useDataviewTasks`, `useDebounceWithDelay`), `mergeTasks`, `useEditContext` and `useNewlyStartedTasks`. Their sources are not part of this model.
- Date arithmetic. `canHappenAfter`, `icalEventToTasks`, `getDayKey`, `getEarliestMoment` and `startOf("day")` are uninterpreted parameters. So a claim such as "at most one task per event and day" is not stated: it depends on `icalEventToTasks`.
- Generation tokens, stale-result discarding and fetch timeouts. Nothing in the modelled code implements them.
- `refreshIcalEvents` creates a fresh cache on every call. So a failing calendar contributes nothing there unless another calendar with the same URL succeeded earlier in that call. It never falls back to the events the derived store cached.
- The grouped map has entries only for days with at least one task. Only `tasksForToday` falls back to an empty record.
- Overlapping rounds. Each update's round is modelled as settling before the next update. In the code, `previousFetches.set` and `Promise.all(...).then(set)` run whenever the requests settle, and nothing discards stale results. A round still in flight when the store goes offline, or when a newer round starts, still writes the cache and publishes later, possibly over the newer value. `IcalSync.OfflineTriggersChangeNothing` is therefore a statement about the callback's early return only, not about requests already in flight.
