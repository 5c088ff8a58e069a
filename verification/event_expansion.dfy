/**
 Event expansion, day bucketing and the today lookup (`src/util/create-hooks.ts`).

 The job list pairs every calendar event that can still occur on or after the
 start of the earliest visible day with every visible day, event-major. Each
 job's result, once the background scheduler has run the whole list, is
 filtered for falsy values, flattened one level, grouped by day key and split
 into the tasks with a start time and those without. The today view looks up
 the current day's bucket and falls back to an empty record.

 The helpers whose bodies live elsewhere (`canHappenAfter`, `icalEventToTasks`,
 `getDayKey`, the earliest-day computation and `getEmptyRecordsForDay`) are
 parameters: nothing here depends on what they compute.
 */
module EventExpansion {
  import opened Seqs
  import opened Calendar

  /** A point in time (a `Date` or moment); its arithmetic is not modelled. */
  datatype Moment = Moment(millis: int)

  /** `getDayKey`'s result: the canonical identity of a calendar day. */
  type DayKey = string

  /** A task derived from an event; `startMinutes` is `None` where the source leaves it `undefined`. */
  datatype Task = Task(id: string, text: string, startTime: Moment, startMinutes: Option<int>)

  /** The tasks of one day, split on whether a start time is known. */
  datatype DayBucket = DayBucket(withTime: seq<Task>, noTime: seq<Task>)

  /**
   What `icalEventToTasks(event, day)` returns: nothing (a falsy value), one
   task, or an array of tasks (the pipeline flattens one level, so both shapes
   are accepted).
   */
  datatype Expansion = NoOccurrence | Occurrence(task: Task) | Occurrences(tasks: seq<Task>)

  /** The thunk `() => icalEventToTasks(icalEvent, day)`, kept as the pair it closes over. */
  datatype Job = Job(event: TaggedEvent, day: Moment)

  const EmptyBucket: DayBucket := DayBucket([], [])

  // ---------------------------------------------------------------------------
  // The job list (`schedulerQueue`)

  /** `days.map((day) => job(event, day))`: one job per visible day, in day order. */
  function DayJobs(event: TaggedEvent, days: seq<Moment>): seq<Job> {
    seq(|days|, j requires 0 <= j < |days| => Job(event, days[j]))
  }

  /** `events.flatMap(...)`: the event-major, day-minor cross product. */
  function CrossProduct(events: seq<TaggedEvent>, days: seq<Moment>): seq<Job>
    decreases |events|
  {
    if |events| == 0 then [] else DayJobs(events[0], days) + CrossProduct(events[1..], days)
  }

  /** The events `canHappenAfter` keeps for the cutoff, in their original order. */
  function RelevantEvents(events: seq<TaggedEvent>, cutoff: Moment,
                          canHappenAfter: (TaggedEvent, Moment) -> bool): seq<TaggedEvent>
  {
    Filter(events, e => canHappenAfter(e, cutoff))
  }

  /**
   The `schedulerQueue` derivation. `icalEvents` is `None` before the calendar
   sync has published anything; `isEmpty` treats that like an empty list.
   `startOfEarliestDay` stands for `getEarliestMoment` followed by
   `startOf("day")`.
   */
  function SchedulerQueue(icalEvents: Option<seq<TaggedEvent>>, days: seq<Moment>,
                          canHappenAfter: (TaggedEvent, Moment) -> bool,
                          startOfEarliestDay: seq<Moment> -> Moment): seq<Job>
  {
    var events := icalEvents.GetOr([]);
    if |events| == 0 || |days| == 0 then []
    else CrossProduct(RelevantEvents(events, startOfEarliestDay(days), canHappenAfter), days)
  }

  /** The background scheduler's settled output: every job's result, in job order. */
  function RunJobs(jobs: seq<Job>, expand: (TaggedEvent, Moment) -> Expansion): seq<Expansion> {
    seq(|jobs|, k requires 0 <= k < |jobs| => expand(jobs[k].event, jobs[k].day))
  }

  // ---------------------------------------------------------------------------
  // Bucketing (`visibleDayToEventOccurences`)

  /** `Boolean(x)`: only the absent result is falsy. */
  predicate IsTruthy(x: Expansion) {
    !x.NoOccurrence?
  }

  /** The task or tasks a truthy result contributes once flattened one level. */
  function TasksOf(x: Expansion): seq<Task>
    requires IsTruthy(x)
  {
    match x
    case Occurrence(t) => [t]
    case Occurrences(ts) => ts
  }

  /** Whether `t` is among the tasks a job's result yields. */
  predicate Yields(x: Expansion, t: Task) {
    match x
    case NoOccurrence => false
    case Occurrence(u) => u == t
    case Occurrences(ts) => t in ts
  }

  /** `flatten` over results that are all truthy. */
  function FlattenResults(xs: seq<Expansion>): seq<Task>
    requires forall k :: 0 <= k < |xs| ==> IsTruthy(xs[k])
  {
    Flatten(seq(|xs|, k requires 0 <= k < |xs| => TasksOf(xs[k])))
  }

  /** `flow(filter(Boolean), flatten)`. */
  function OccurrenceTasks(results: seq<Expansion>): seq<Task> {
    FlattenResults(Filter(results, IsTruthy))
  }

  /** Whether a task starts on day `key`. */
  function StartsOn(dayKey: Moment -> DayKey, key: DayKey): Task -> bool {
    (t: Task) => dayKey(t.startTime) == key
  }

  /** The tasks of `tasks` whose start time falls on day `key`, in order. */
  function OnDay(tasks: seq<Task>, dayKey: Moment -> DayKey, key: DayKey): seq<Task> {
    Filter(tasks, StartsOn(dayKey, key))
  }

  /** `startMinutes !== undefined`. */
  predicate HasStartMinutes(t: Task) {
    t.startMinutes.Some?
  }

  predicate LacksStartMinutes(t: Task) {
    !HasStartMinutes(t)
  }

  /** Appending one task extends its own day's list by it and leaves every other day's list alone. */
  lemma OnDayAppend(tasks: seq<Task>, t: Task, dayKey: Moment -> DayKey)
    ensures forall key :: (OnDay(tasks + [t], dayKey, key) ==
      OnDay(tasks, dayKey, key) + (if dayKey(t.startTime) == key then [t] else []))
  {
    forall key
      ensures OnDay(tasks + [t], dayKey, key) ==
        OnDay(tasks, dayKey, key) + (if dayKey(t.startTime) == key then [t] else [])
    {
      FilterAppend(tasks, [t], StartsOn(dayKey, key));
    }
  }

  /**
   lodash `groupBy(getDayKey(task.startTime))`: one entry per day some task
   starts on, holding that day's tasks in input order.
   */
  function GroupByDay(tasks: seq<Task>, dayKey: Moment -> DayKey): (r: map<DayKey, seq<Task>>)
    ensures forall key :: key in r ==> r[key] == OnDay(tasks, dayKey, key)
    ensures forall key :: key in r <==> OnDay(tasks, dayKey, key) != []
    decreases |tasks|
  {
    if |tasks| == 0 then map[]
    else
      var init := tasks[..|tasks| - 1];
      var t := tasks[|tasks| - 1];
      var g := GroupByDay(init, dayKey);
      var key := dayKey(t.startTime);
      OnDayAppend(init, t, dayKey);
      assert tasks == init + [t];
      g[key := (if key in g then g[key] else []) + [t]]
  }

  /** lodash `partition(task.startMinutes !== undefined)`, one pass over the tasks. */
  function Partition(tasks: seq<Task>): (b: DayBucket)
    ensures b.withTime == Filter(tasks, HasStartMinutes)
    ensures b.noTime == Filter(tasks, LacksStartMinutes)
    decreases |tasks|
  {
    if |tasks| == 0 then EmptyBucket
    else
      var rest := Partition(tasks[1..]);
      if HasStartMinutes(tasks[0]) then rest.(withTime := [tasks[0]] + rest.withTime)
      else rest.(noTime := [tasks[0]] + rest.noTime)
  }

  /** `groupBy` followed by `mapValues(partition)`: one bucket per day some task starts on. */
  function BucketByDay(tasks: seq<Task>, dayKey: Moment -> DayKey): (r: map<DayKey, DayBucket>)
    ensures forall key :: key in r <==> OnDay(tasks, dayKey, key) != []
    ensures forall key :: key in r ==>
      && r[key].withTime == Filter(OnDay(tasks, dayKey, key), HasStartMinutes)
      && r[key].noTime == Filter(OnDay(tasks, dayKey, key), LacksStartMinutes)
  {
    var grouped := GroupByDay(tasks, dayKey);
    map key | key in grouped :: Partition(grouped[key])
  }

  /** The whole `visibleDayToEventOccurences` flow over the scheduler's results. */
  function VisibleDayToEventOccurrences(results: seq<Expansion>, dayKey: Moment -> DayKey): map<DayKey, DayBucket> {
    BucketByDay(OccurrenceTasks(results), dayKey)
  }

  /** `tasksForToday`: today's bucket when there is one, else `getEmptyRecordsForDay()`. */
  function TasksForToday(visibleTasks: map<DayKey, DayBucket>, now: Moment, dayKey: Moment -> DayKey,
                         emptyRecords: DayBucket): DayBucket
  {
    var today := dayKey(now);
    if today in visibleTasks then visibleTasks[today] else emptyRecords
  }

  /** The whole event path: job list, scheduler output, buckets. */
  function EventOccurrences(icalEvents: Option<seq<TaggedEvent>>, days: seq<Moment>,
                            canHappenAfter: (TaggedEvent, Moment) -> bool,
                            startOfEarliestDay: seq<Moment> -> Moment,
                            expand: (TaggedEvent, Moment) -> Expansion,
                            dayKey: Moment -> DayKey): map<DayKey, DayBucket>
  {
    VisibleDayToEventOccurrences(RunJobs(SchedulerQueue(icalEvents, days, canHappenAfter, startOfEarliestDay), expand), dayKey)
  }

  // ---------------------------------------------------------------------------
  // Lemmas about the job list

  /** There is one job per event and visible day. */
  lemma {:induction false} CrossProductLength(events: seq<TaggedEvent>, days: seq<Moment>)
    ensures |CrossProduct(events, days)| == |events| * |days|
    decreases |events|
  {
    if |events| != 0 {
      CrossProductLength(events[1..], days);
      assert |events| * |days| == |days| + (|events| - 1) * |days|;
    }
  }

  /** The cross product of concatenated event lists is the concatenation of their cross products. */
  lemma {:induction false} CrossProductAppend(a: seq<TaggedEvent>, b: seq<TaggedEvent>, days: seq<Moment>)
    ensures CrossProduct(a + b, days) == CrossProduct(a, days) + CrossProduct(b, days)
    decreases |a|
  {
    if |a| == 0 {
      assert a + b == b;
    } else {
      assert (a + b)[0] == a[0];
      assert (a + b)[1..] == a[1..] + b;
      CrossProductAppend(a[1..], b, days);
    }
  }

  /**
   Event-major, day-minor: the jobs of event `i` form one contiguous block,
   one job per visible day in day order, after the blocks of the events
   before it and before those of the events after it.
   */
  lemma CrossProductBlocks(events: seq<TaggedEvent>, days: seq<Moment>, i: nat)
    requires i < |events|
    ensures CrossProduct(events, days) ==
      CrossProduct(events[..i], days) + DayJobs(events[i], days) + CrossProduct(events[i + 1..], days)
  {
    assert events == events[..i] + ([events[i]] + events[i + 1..]);
    CrossProductAppend(events[..i], [events[i]] + events[i + 1..], days);
    CrossProductAppend([events[i]], events[i + 1..], days);
    assert CrossProduct([events[i]], days) == DayJobs(events[i], days) by {
      assert [events[i]][1..] == [];
    }
  }

  /** A job is in the cross product exactly when its event and its day are. */
  lemma {:induction false} CrossProductMembership(events: seq<TaggedEvent>, days: seq<Moment>, job: Job)
    ensures job in CrossProduct(events, days) <==> job.event in events && job.day in days
    decreases |events|
  {
    if |events| != 0 {
      CrossProductMembership(events[1..], days, job);
      assert events == [events[0]] + events[1..];
      if job.event == events[0] && job.day in days {
        var j :| 0 <= j < |days| && days[j] == job.day;
        assert DayJobs(events[0], days)[j] == job;
      }
    }
  }

  /** With no events published yet, no events at all, or no visible days, there are no jobs. */
  lemma EmptyInputsGiveNoJobs(icalEvents: Option<seq<TaggedEvent>>, days: seq<Moment>,
                              canHappenAfter: (TaggedEvent, Moment) -> bool,
                              startOfEarliestDay: seq<Moment> -> Moment)
    requires icalEvents == None || icalEvents == Some([]) || days == []
    ensures SchedulerQueue(icalEvents, days, canHappenAfter, startOfEarliestDay) == []
  {
  }

  /**
   Over published events and visible days, the job list holds, for each
   event `canHappenAfter` keeps for the start of the earliest visible day and
   in their order, one block of jobs pairing it with every visible day.
   */
  lemma SchedulerQueueShape(events: seq<TaggedEvent>, days: seq<Moment>,
                            canHappenAfter: (TaggedEvent, Moment) -> bool,
                            startOfEarliestDay: seq<Moment> -> Moment, i: nat)
    requires |events| > 0
    requires i < |RelevantEvents(events, startOfEarliestDay(days), canHappenAfter)|
    ensures var relevant := RelevantEvents(events, startOfEarliestDay(days), canHappenAfter);
            SchedulerQueue(Some(events), days, canHappenAfter, startOfEarliestDay) ==
              CrossProduct(relevant[..i], days) + DayJobs(relevant[i], days) + CrossProduct(relevant[i + 1..], days)
  {
    var relevant := RelevantEvents(events, startOfEarliestDay(days), canHappenAfter);
    CrossProductBlocks(relevant, days, i);
    if |days| == 0 {
      CrossProductLength(relevant[..i], days);
      CrossProductLength(relevant[i + 1..], days);
    }
  }

  /**
   A job for `(event, day)` is queued exactly when the event was published,
   `canHappenAfter` accepts it for the start of the earliest visible day, and
   the day is visible; a pruned event gets no job at all.
   */
  lemma SchedulerQueueMembership(icalEvents: Option<seq<TaggedEvent>>, days: seq<Moment>,
                                 canHappenAfter: (TaggedEvent, Moment) -> bool,
                                 startOfEarliestDay: seq<Moment> -> Moment, job: Job)
    ensures job in SchedulerQueue(icalEvents, days, canHappenAfter, startOfEarliestDay) <==>
      && job.event in icalEvents.GetOr([])
      && canHappenAfter(job.event, startOfEarliestDay(days))
      && job.day in days
  {
    var events := icalEvents.GetOr([]);
    if |events| != 0 && |days| != 0 {
      var cutoff := startOfEarliestDay(days);
      CrossProductMembership(RelevantEvents(events, cutoff, canHappenAfter), days, job);
      FilterMembership(events, e => canHappenAfter(e, cutoff), job.event);
    }
  }

  // ---------------------------------------------------------------------------
  // Lemmas about bucketing

  /** A task survives `filter(Boolean)` and `flatten` exactly when some job's result yields it. */
  lemma OccurrenceTasksMembership(results: seq<Expansion>, t: Task)
    ensures t in OccurrenceTasks(results) <==> exists k :: 0 <= k < |results| && Yields(results[k], t)
  {
    var kept := Filter(results, IsTruthy);
    var parts := seq(|kept|, k requires 0 <= k < |kept| => TasksOf(kept[k]));
    FlattenMembership(parts, t);
    if t in OccurrenceTasks(results) {
      var k :| 0 <= k < |parts| && t in parts[k];
      assert Yields(kept[k], t);
      FilterMembership(results, IsTruthy, kept[k]);
      var m :| 0 <= m < |results| && results[m] == kept[k];
      assert Yields(results[m], t);
    }
    if exists k :: 0 <= k < |results| && Yields(results[k], t) {
      var m :| 0 <= m < |results| && Yields(results[m], t);
      FilterMembership(results, IsTruthy, results[m]);
      var k :| 0 <= k < |kept| && kept[k] == results[m];
      assert t in parts[k];
    }
  }

  /**
   `filter(Boolean)` then `flatten` keeps every yielded task once per job that
   yields it, in job order: a single result contributes its tasks when truthy
   and nothing otherwise, and the results `a + b` contribute those of `a`,
   then those of `b`.
   */
  lemma OccurrenceTasksInJobOrder(a: seq<Expansion>, b: seq<Expansion>, x: Expansion)
    ensures OccurrenceTasks([x]) == if IsTruthy(x) then TasksOf(x) else []
    ensures OccurrenceTasks(a + b) == OccurrenceTasks(a) + OccurrenceTasks(b)
  {
    assert [x][1..] == [];
    if IsTruthy(x) {
      assert Filter([x], IsTruthy) == [x];
      assert seq(1, k requires 0 <= k < 1 => TasksOf([x][k])) == [TasksOf(x)];
      assert Flatten([TasksOf(x)]) == TasksOf(x) + Flatten([]);
    }
    var ka := Filter(a, IsTruthy);
    var kb := Filter(b, IsTruthy);
    FilterAppend(a, b, IsTruthy);
    var pa := seq(|ka|, k requires 0 <= k < |ka| => TasksOf(ka[k]));
    var pb := seq(|kb|, k requires 0 <= k < |kb| => TasksOf(kb[k]));
    var kab := ka + kb;
    var pab := seq(|kab|, k requires 0 <= k < |kab| => TasksOf(kab[k]));
    assert pab == pa + pb;
    FlattenAppend(pa, pb);
  }

  /** `partition` loses and invents nothing: the two halves hold every task exactly as often as the input does. */
  lemma PartitionIsPermutation(tasks: seq<Task>)
    ensures multiset(Partition(tasks).withTime) + multiset(Partition(tasks).noTime) == multiset(tasks)
  {
    FilterSplit(tasks, HasStartMinutes, LacksStartMinutes);
  }

  /** No bucket is created empty: every day key present has at least one task in one of its halves. */
  lemma NoEmptyBucket(tasks: seq<Task>, dayKey: Moment -> DayKey, key: DayKey)
    ensures key in BucketByDay(tasks, dayKey) ==>
      |BucketByDay(tasks, dayKey)[key].withTime| + |BucketByDay(tasks, dayKey)[key].noTime| > 0
  {
    FilterSplit(OnDay(tasks, dayKey, key), HasStartMinutes, LacksStartMinutes);
  }

  /**
   Day `key`'s `withTime` holds a task exactly when the task is one of the
   tasks, starts on `key` and has a start time.
   */
  lemma WithTimeMembership(tasks: seq<Task>, dayKey: Moment -> DayKey, key: DayKey, t: Task)
    ensures (key in BucketByDay(tasks, dayKey) && t in BucketByDay(tasks, dayKey)[key].withTime) <==>
      t in tasks && dayKey(t.startTime) == key && HasStartMinutes(t)
  {
    FilterMembership(tasks, StartsOn(dayKey, key), t);
    FilterMembership(OnDay(tasks, dayKey, key), HasStartMinutes, t);
  }

  /**
   Day `key`'s `noTime` holds a task exactly when the task is one of the
   tasks, starts on `key` and has no start time. With the lemma above: every
   task sits in the one bucket of its own day, in exactly one half.
   */
  lemma NoTimeMembership(tasks: seq<Task>, dayKey: Moment -> DayKey, key: DayKey, t: Task)
    ensures (key in BucketByDay(tasks, dayKey) && t in BucketByDay(tasks, dayKey)[key].noTime) <==>
      t in tasks && dayKey(t.startTime) == key && !HasStartMinutes(t)
  {
    FilterMembership(tasks, StartsOn(dayKey, key), t);
    FilterMembership(OnDay(tasks, dayKey, key), LacksStartMinutes, t);
  }

  /**
   End to end: a task is in day `key`'s bucket exactly when its start falls
   on that day and it is yielded by expanding a published event that can
   happen after the start of the earliest visible day, for a visible day.
   */
  lemma EventOccurrencesMembership(icalEvents: Option<seq<TaggedEvent>>, days: seq<Moment>,
                                   canHappenAfter: (TaggedEvent, Moment) -> bool,
                                   startOfEarliestDay: seq<Moment> -> Moment,
                                   expand: (TaggedEvent, Moment) -> Expansion,
                                   dayKey: Moment -> DayKey, t: Task, key: DayKey)
    ensures var buckets := EventOccurrences(icalEvents, days, canHappenAfter, startOfEarliestDay, expand, dayKey);
            (key in buckets && t in buckets[key].withTime + buckets[key].noTime) <==>
              && dayKey(t.startTime) == key
              && exists e, d :: && e in icalEvents.GetOr([]) && d in days
                                && canHappenAfter(e, startOfEarliestDay(days))
                                && Yields(expand(e, d), t)
  {
    var jobs := SchedulerQueue(icalEvents, days, canHappenAfter, startOfEarliestDay);
    var results := RunJobs(jobs, expand);
    var buckets := VisibleDayToEventOccurrences(results, dayKey);
    OccurrenceTasksMembership(results, t);
    if key in buckets && t in buckets[key].withTime + buckets[key].noTime {
      WithTimeMembership(OccurrenceTasks(results), dayKey, key, t);
      NoTimeMembership(OccurrenceTasks(results), dayKey, key, t);
      var k :| 0 <= k < |results| && Yields(results[k], t);
      assert jobs[k] in jobs;
      SchedulerQueueMembership(icalEvents, days, canHappenAfter, startOfEarliestDay, jobs[k]);
    }
    if && dayKey(t.startTime) == key
       && exists e, d :: && e in icalEvents.GetOr([]) && d in days
                         && canHappenAfter(e, startOfEarliestDay(days))
                         && Yields(expand(e, d), t)
    {
      var e, d :| && e in icalEvents.GetOr([]) && d in days
                  && canHappenAfter(e, startOfEarliestDay(days))
                  && Yields(expand(e, d), t);
      SchedulerQueueMembership(icalEvents, days, canHappenAfter, startOfEarliestDay, Job(e, d));
      var k :| 0 <= k < |jobs| && jobs[k] == Job(e, d);
      assert Yields(results[k], t);
      WithTimeMembership(OccurrenceTasks(results), dayKey, key, t);
      NoTimeMembership(OccurrenceTasks(results), dayKey, key, t);
    }
  }

  /**
   With `getEmptyRecordsForDay()` empty, today's view holds exactly today's
   occurrences, split on start time, whether or not a bucket exists for today.
   */
  lemma TodayFromEventOccurrences(results: seq<Expansion>, dayKey: Moment -> DayKey, now: Moment)
    ensures var today := OnDay(OccurrenceTasks(results), dayKey, dayKey(now));
            TasksForToday(VisibleDayToEventOccurrences(results, dayKey), now, dayKey, EmptyBucket) ==
              DayBucket(Filter(today, HasStartMinutes), Filter(today, LacksStartMinutes))
  {
  }
}
