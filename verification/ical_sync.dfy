/**
 Calendar sync with a last-good cache (`src/util/use-ical-events.ts`).

 One sync round takes every configured calendar together with what fetching
 its URL yields this round (the HTTP request and the ICS parser are not
 modelled; only their combined outcome is), and the per-URL cache of the last
 successful fetch. Calendars with a blank URL are skipped. A successful fetch
 keeps only the VEVENT components, tags each with its calendar, and
 overwrites the cache entry for that URL; a failed one falls back to the
 cache entry, or to nothing. The published value is the per-calendar results
 concatenated in configuration order.

 The `Promise.all` join is modelled as a fold in configuration order: a
 failing calendar reads the cache as left by the calendars before it in the
 same round. This only matters when two calendars share a URL.
 */
module IcalSync {
  import opened Seqs
  import opened Calendar

  /** `previousFetches`: URL to the events of that URL's last successful fetch. */
  type Cache = map<string, seq<TaggedEvent>>

  /** What requesting and parsing one calendar's URL yields: the parsed components, or an error from either step. */
  datatype FetchOutcome = Fetched(components: seq<Component>) | FetchFailed

  /** One configured calendar and the outcome its fetch would have this round. */
  datatype Attempt = Attempt(config: CalendarConfig, outcome: FetchOutcome)

  /** The cache after a round and one result slot per fetched calendar, in order. */
  datatype RoundResult = RoundResult(cache: Cache, slots: seq<seq<TaggedEvent>>)

  /** The sync's private cache and the value the derived store last published (`None` before the first publication). */
  datatype SyncState = SyncState(cache: Cache, published: Option<seq<TaggedEvent>>)

  /** A change of any input of the derived store: settings, online flag or sync trigger. */
  datatype Trigger = Trigger(online: bool, attempts: seq<Attempt>)

  const InitialState: SyncState := SyncState(map[], None)

  /** `previousFetches.get(url) || []` (a stored empty array is truthy and returned as is). */
  function CachedOrEmpty(cache: Cache, url: string): seq<TaggedEvent> {
    if url in cache then cache[url] else []
  }

  /** The VEVENT components of a successful fetch, in parse order, each tagged with its calendar. */
  function CalendarEvents(components: seq<Component>, config: CalendarConfig): (r: seq<TaggedEvent>)
    ensures forall i :: 0 <= i < |r| ==> IsVEvent(r[i].event) && r[i].calendar == config
  {
    var vevents := Filter(components, IsVEvent);
    seq(|vevents|, i requires 0 <= i < |vevents| => TaggedEvent(vevents[i], config))
  }

  /** A calendar is fetched exactly when its URL is not blank after trimming. */
  predicate IsFetched(a: Attempt) {
    !IsBlank(a.config.url)
  }

  /** `settings.icals.filter((ical) => ical.url.trim().length > 0)`. */
  function FetchedAttempts(attempts: seq<Attempt>): (r: seq<Attempt>)
    ensures |r| <= |attempts|
    ensures forall i :: 0 <= i < |r| ==> !IsBlank(r[i].config.url)
  {
    Filter(attempts, IsFetched)
  }

  /** Settles one fetch against the cache: its result slot and the cache afterwards. */
  function Settle(a: Attempt, cache: Cache): (seq<TaggedEvent>, Cache) {
    match a.outcome
    case Fetched(components) =>
      var events := CalendarEvents(components, a.config);
      (events, cache[a.config.url := events])
    case FetchFailed =>
      (CachedOrEmpty(cache, a.config.url), cache)
  }

  /** Settles the fetched calendars in order, threading the cache through. */
  function FetchAll(fs: seq<Attempt>, cache: Cache): (r: RoundResult)
    ensures |r.slots| == |fs|
    ensures forall i :: 0 <= i < |fs| && fs[i].outcome.Fetched? ==>
      r.slots[i] == CalendarEvents(fs[i].outcome.components, fs[i].config)
    decreases |fs|
  {
    if |fs| == 0 then RoundResult(cache, [])
    else
      var (slot, cache') := Settle(fs[0], cache);
      var rest := FetchAll(fs[1..], cache');
      assert forall i :: 1 <= i < |fs| ==> fs[i] == fs[1..][i - 1];
      RoundResult(rest.cache, [slot] + rest.slots)
  }

  /** One online round over all configured calendars. */
  function SyncRound(attempts: seq<Attempt>, cache: Cache): RoundResult {
    FetchAll(FetchedAttempts(attempts), cache)
  }

  /** The derived store's callback: offline it returns without publishing; online it runs a round and publishes the concatenation. */
  function Sync(state: SyncState, online: bool, attempts: seq<Attempt>): SyncState {
    if !online then state
    else
      var r := SyncRound(attempts, state.cache);
      SyncState(r.cache, Some(Flatten(r.slots)))
  }

  /** Applies a series of triggers in order. */
  function Replay(state: SyncState, triggers: seq<Trigger>): SyncState
    decreases |triggers|
  {
    if |triggers| == 0 then state
    else Replay(Sync(state, triggers[0].online, triggers[0].attempts), triggers[1..])
  }

  /** `refreshIcalEvents`: the same pipeline over a fresh, empty cache, returning the concatenation. */
  function RefreshIcalEvents(attempts: seq<Attempt>): seq<TaggedEvent> {
    Flatten(SyncRound(attempts, map[]).slots)
  }

  // ---------------------------------------------------------------------------
  // Reference definitions

  /**
   The result slots a round should produce, defined slot by slot rather than
   by threading a cache: a success's tagged VEVENTs, or else the last good
   events of its URL from before it in the round.
   */
  function LastGoodSlots(fs: seq<Attempt>, cache: Cache): seq<seq<TaggedEvent>> {
    seq(|fs|, i requires 0 <= i < |fs| =>
      if fs[i].outcome.Fetched? then CalendarEvents(fs[i].outcome.components, fs[i].config)
      else LastGood(fs[..i], cache, fs[i].config.url))
  }

  /** The URLs some attempt in `fs` fetched successfully. */
  function SucceededUrls(fs: seq<Attempt>): set<string> {
    set a | a in fs && a.outcome.Fetched? :: a.config.url
  }

  /**
   What the cache says about `url` after the attempts `fs`, defined without
   threading a cache: the events of the last successful fetch of `url`, or
   what `cache` held for it.
   */
  function LastGood(fs: seq<Attempt>, cache: Cache, url: string): seq<TaggedEvent>
    decreases |fs|
  {
    if |fs| == 0 then CachedOrEmpty(cache, url)
    else
      var a := fs[|fs| - 1];
      if a.config.url == url && a.outcome.Fetched? then CalendarEvents(a.outcome.components, a.config)
      else LastGood(fs[..|fs| - 1], cache, url)
  }

  /** Every cached entry holds only VEVENTs tagged with a calendar of that entry's URL. */
  ghost predicate CacheWellFormed(cache: Cache) {
    forall url, i :: url in cache && 0 <= i < |cache[url]| ==>
      IsVEvent(cache[url][i].event) && cache[url][i].calendar.url == url
  }

  /** A well-formed cache, and a published value (if any) made only of VEVENTs. */
  ghost predicate StateWellFormed(state: SyncState) {
    && CacheWellFormed(state.cache)
    && (state.published.Some? ==> forall e :: e in state.published.value ==> IsVEvent(e.event))
  }

  // ---------------------------------------------------------------------------
  // Lemmas

  /** An event of a successful fetch is exactly a VEVENT component of that fetch, tagged with its calendar. */
  lemma CalendarEventsMembership(components: seq<Component>, config: CalendarConfig, e: TaggedEvent)
    ensures e in CalendarEvents(components, config) <==>
      e.calendar == config && IsVEvent(e.event) && e.event in components
  {
    var vevents := Filter(components, IsVEvent);
    FilterMembership(components, IsVEvent, e.event);
    if e.calendar == config && e.event in vevents {
      var i :| 0 <= i < |vevents| && vevents[i] == e.event;
      assert CalendarEvents(components, config)[i] == e;
    }
  }

  /**
   A successful fetch yields its VEVENTs once each, in parse order: a single
   component yields itself, tagged, when it is a VEVENT and nothing otherwise,
   and parsing `a + b` yields the events of `a`, then those of `b`.
   */
  lemma CalendarEventsInParseOrder(a: seq<Component>, b: seq<Component>, x: Component, config: CalendarConfig)
    ensures CalendarEvents([x], config) == if IsVEvent(x) then [TaggedEvent(x, config)] else []
    ensures CalendarEvents(a + b, config) == CalendarEvents(a, config) + CalendarEvents(b, config)
  {
    assert [x][1..] == [];
    FilterAppend(a, b, IsVEvent);
    var l := CalendarEvents(a + b, config);
    var r := CalendarEvents(a, config) + CalendarEvents(b, config);
    var va := Filter(a, IsVEvent);
    assert |l| == |r|;
    forall i | 0 <= i < |l|
      ensures l[i] == r[i]
    {
      if i < |va| {
        assert r[i] == CalendarEvents(a, config)[i];
      } else {
        assert r[i] == CalendarEvents(b, config)[i - |va|];
      }
    }
  }

  /** Exactly the configured calendars with a non-blank URL are fetched. */
  lemma FetchedAttemptsMembership(attempts: seq<Attempt>)
    ensures forall a :: a in FetchedAttempts(attempts) <==> a in attempts && !IsBlank(a.config.url)
  {
    FilterKeeps(attempts, IsFetched);
  }

  /** Filtering blank URLs keeps the configuration order. */
  lemma {:induction false} FetchedAttemptsAppend(a: seq<Attempt>, b: seq<Attempt>)
    ensures FetchedAttempts(a + b) == FetchedAttempts(a) + FetchedAttempts(b)
  {
    FilterAppend(a, b, IsFetched);
  }

  /** Settling `a + b` is settling `a`, then settling `b` against the cache `a` left. */
  lemma {:induction false} FetchAllAppend(a: seq<Attempt>, b: seq<Attempt>, cache: Cache)
    ensures var ra := FetchAll(a, cache);
            var rb := FetchAll(b, ra.cache);
            FetchAll(a + b, cache) == RoundResult(rb.cache, ra.slots + rb.slots)
    decreases |a|
  {
    if |a| == 0 {
      assert a + b == b;
    } else {
      assert (a + b)[0] == a[0];
      assert (a + b)[1..] == a[1..] + b;
      var cache' := Settle(a[0], cache).1;
      FetchAllAppend(a[1..], b, cache');
      var ra := FetchAll(a, cache);
      var ra' := FetchAll(a[1..], cache');
      var rb := FetchAll(b, ra.cache);
      assert ra.cache == ra'.cache;
      assert ra.slots == [Settle(a[0], cache).0] + ra'.slots;
      assert FetchAll(a + b, cache).slots == [Settle(a[0], cache).0] + (ra'.slots + rb.slots);
    }
  }

  /** The cache a round leaves answers, for every URL, with that URL's last good events. */
  lemma {:induction false} CacheLookupIsLastGood(fs: seq<Attempt>, cache: Cache, url: string)
    ensures CachedOrEmpty(FetchAll(fs, cache).cache, url) == LastGood(fs, cache, url)
    decreases |fs|
  {
    if |fs| != 0 {
      var init := fs[..|fs| - 1];
      var a := fs[|fs| - 1];
      assert fs == init + [a];
      FetchAllAppend(init, [a], cache);
      CacheLookupIsLastGood(init, cache, url);
    }
  }

  /** The round adds exactly the successfully fetched URLs to the cache's keys and removes none. */
  lemma {:induction false} CacheKeys(fs: seq<Attempt>, cache: Cache)
    ensures FetchAll(fs, cache).cache.Keys == cache.Keys + SucceededUrls(fs)
    decreases |fs|
  {
    if |fs| != 0 {
      var (_, cache') := Settle(fs[0], cache);
      CacheKeys(fs[1..], cache');
      assert fs == [fs[0]] + fs[1..];
      assert SucceededUrls(fs) == SucceededUrls([fs[0]]) + SucceededUrls(fs[1..]);
    }
  }

  /** With no successful fetch of `url` in `fs`, the last good events are what the cache held. */
  lemma {:induction false} LastGoodWithoutSuccess(fs: seq<Attempt>, cache: Cache, url: string)
    requires url !in SucceededUrls(fs)
    ensures LastGood(fs, cache, url) == CachedOrEmpty(cache, url)
    decreases |fs|
  {
    if |fs| != 0 {
      var init := fs[..|fs| - 1];
      assert SucceededUrls(init) <= SucceededUrls(fs);
      assert fs[|fs| - 1] in fs;
      LastGoodWithoutSuccess(init, cache, url);
    }
  }

  /** After a successful fetch at `i` that no later fetch of the same URL succeeds over, the last good events are those of `i`. */
  lemma {:induction false} LastGoodAfterSuccess(fs: seq<Attempt>, cache: Cache, i: nat)
    requires i < |fs| && fs[i].outcome.Fetched?
    requires forall j :: i < j < |fs| ==> !(fs[j].config.url == fs[i].config.url && fs[j].outcome.Fetched?)
    ensures LastGood(fs, cache, fs[i].config.url) == CalendarEvents(fs[i].outcome.components, fs[i].config)
    decreases |fs|
  {
    if i < |fs| - 1 {
      var init := fs[..|fs| - 1];
      assert init[i] == fs[i];
      LastGoodAfterSuccess(init, cache, i);
    }
  }

  /** Last good events of `url` do not depend on attempts at other URLs. */
  lemma {:induction false} LastGoodIgnoresOtherUrls(p: seq<Attempt>, q: seq<Attempt>, cache: Cache, url: string)
    requires |p| == |q|
    requires forall k :: 0 <= k < |p| ==> p[k] == q[k] || (p[k].config.url != url && q[k].config.url != url)
    ensures LastGood(p, cache, url) == LastGood(q, cache, url)
    decreases |p|
  {
    if |p| != 0 {
      LastGoodIgnoresOtherUrls(p[..|p| - 1], q[..|q| - 1], cache, url);
    }
  }

  /**
   Each result slot: a successful fetch yields exactly its tagged VEVENTs; a
   failed one yields its URL's last good events from before it in the round.
   */
  lemma SlotIsLastGood(fs: seq<Attempt>, cache: Cache, i: nat)
    requires i < |fs|
    ensures FetchAll(fs, cache).slots[i] ==
      if fs[i].outcome.Fetched? then CalendarEvents(fs[i].outcome.components, fs[i].config)
      else LastGood(fs[..i], cache, fs[i].config.url)
  {
    if fs[i].outcome.FetchFailed? {
      assert fs == fs[..i] + fs[i..];
      FetchAllAppend(fs[..i], fs[i..], cache);
      CacheLookupIsLastGood(fs[..i], cache, fs[i].config.url);
    }
  }

  /** A failed fetch with no earlier success at its URL in the round falls back to the cache entry, or to nothing. */
  lemma FailureFallsBackToCache(fs: seq<Attempt>, cache: Cache, i: nat)
    requires i < |fs| && fs[i].outcome.FetchFailed?
    requires fs[i].config.url !in SucceededUrls(fs[..i])
    ensures FetchAll(fs, cache).slots[i] == CachedOrEmpty(cache, fs[i].config.url)
  {
    SlotIsLastGood(fs, cache, i);
    LastGoodWithoutSuccess(fs[..i], cache, fs[i].config.url);
  }

  /** A URL no attempt fetched successfully keeps its cache entry, or stays absent. */
  lemma {:induction false} CacheUntouchedWithoutSuccess(fs: seq<Attempt>, cache: Cache, url: string)
    requires url !in SucceededUrls(fs)
    ensures url in FetchAll(fs, cache).cache <==> url in cache
    ensures url in cache ==> FetchAll(fs, cache).cache[url] == cache[url]
  {
    CacheKeys(fs, cache);
    CacheLookupIsLastGood(fs, cache, url);
    LastGoodWithoutSuccess(fs, cache, url);
  }

  /** A success not superseded by a later success at the same URL overwrites the entry, even with no VEVENTs. */
  lemma SuccessOverwritesCache(fs: seq<Attempt>, cache: Cache, i: nat)
    requires i < |fs| && fs[i].outcome.Fetched?
    requires forall j :: i < j < |fs| ==> !(fs[j].config.url == fs[i].config.url && fs[j].outcome.Fetched?)
    ensures fs[i].config.url in FetchAll(fs, cache).cache
    ensures FetchAll(fs, cache).cache[fs[i].config.url] == CalendarEvents(fs[i].outcome.components, fs[i].config)
  {
    CacheKeys(fs, cache);
    assert fs[i] in fs;
    CacheLookupIsLastGood(fs, cache, fs[i].config.url);
    LastGoodAfterSuccess(fs, cache, i);
  }

  /** Changing the outcome of one calendar leaves every slot of a calendar with a different URL as it was. */
  lemma SlotIsolation(fs: seq<Attempt>, cache: Cache, i: nat, j: nat, o: FetchOutcome)
    requires i < |fs| && j < |fs|
    requires fs[j].config.url != fs[i].config.url
    ensures FetchAll(fs[j := fs[j].(outcome := o)], cache).slots[i] == FetchAll(fs, cache).slots[i]
  {
    var gs := fs[j := fs[j].(outcome := o)];
    SlotIsLastGood(fs, cache, i);
    SlotIsLastGood(gs, cache, i);
    LastGoodIgnoresOtherUrls(gs[..i], fs[..i], cache, fs[i].config.url);
  }

  /** Filtering out blank URLs removes a blank calendar wherever it sits. */
  lemma BlankCalendarNotFetched(before: seq<Attempt>, blank: Attempt, after: seq<Attempt>)
    requires IsBlank(blank.config.url)
    ensures FetchedAttempts(before + [blank] + after) == FetchedAttempts(before + after)
  {
    FilterSkips(before, blank, after, IsFetched);
  }

  /** A calendar with a blank URL changes nothing about a round, wherever it sits in the configuration. */
  lemma BlankCalendarIgnored(before: seq<Attempt>, blank: Attempt, after: seq<Attempt>, cache: Cache)
    requires IsBlank(blank.config.url)
    ensures SyncRound(before + [blank] + after, cache) == SyncRound(before + after, cache)
  {
    BlankCalendarNotFetched(before, blank, after);
  }

  /** Slot events are VEVENTs tagged with a calendar of the slot's URL, provided the cache was well formed. */
  lemma {:induction false} LastGoodWellFormed(fs: seq<Attempt>, cache: Cache, url: string)
    requires CacheWellFormed(cache)
    ensures forall k :: 0 <= k < |LastGood(fs, cache, url)| ==>
      IsVEvent(LastGood(fs, cache, url)[k].event) && LastGood(fs, cache, url)[k].calendar.url == url
    decreases |fs|
  {
    if |fs| != 0 {
      LastGoodWellFormed(fs[..|fs| - 1], cache, url);
    }
  }

  /** A round keeps the cache well formed, and every slot holds only VEVENTs tagged with a calendar of that slot's URL. */
  lemma {:induction false} RoundWellFormed(fs: seq<Attempt>, cache: Cache)
    requires CacheWellFormed(cache)
    ensures CacheWellFormed(FetchAll(fs, cache).cache)
    ensures forall i, k :: 0 <= i < |fs| && 0 <= k < |FetchAll(fs, cache).slots[i]| ==>
      IsVEvent(FetchAll(fs, cache).slots[i][k].event) &&
      FetchAll(fs, cache).slots[i][k].calendar.url == fs[i].config.url
  {
    var r := FetchAll(fs, cache);
    forall url | url in r.cache
      ensures forall k :: 0 <= k < |r.cache[url]| ==>
        IsVEvent(r.cache[url][k].event) && r.cache[url][k].calendar.url == url
    {
      CacheLookupIsLastGood(fs, cache, url);
      LastGoodWellFormed(fs, cache, url);
    }
    forall i | 0 <= i < |fs|
      ensures forall k :: 0 <= k < |r.slots[i]| ==>
        IsVEvent(r.slots[i][k].event) && r.slots[i][k].calendar.url == fs[i].config.url
    {
      SlotIsLastGood(fs, cache, i);
      LastGoodWellFormed(fs[..i], cache, fs[i].config.url);
    }
  }

  /** Slots agree for two caches that agree on the fallback of every URL that fails in the round. */
  lemma {:induction false} SameFallbacksSameSlots(fs: seq<Attempt>, c1: Cache, c2: Cache)
    requires forall k :: 0 <= k < |fs| && fs[k].outcome.FetchFailed? ==>
      CachedOrEmpty(c1, fs[k].config.url) == CachedOrEmpty(c2, fs[k].config.url)
    ensures FetchAll(fs, c1).slots == FetchAll(fs, c2).slots
    decreases |fs|
  {
    if |fs| != 0 {
      var (_, c1') := Settle(fs[0], c1);
      var (_, c2') := Settle(fs[0], c2);
      forall k | 0 <= k < |fs[1..]| && fs[1..][k].outcome.FetchFailed?
        ensures CachedOrEmpty(c1', fs[1..][k].config.url) == CachedOrEmpty(c2', fs[1..][k].config.url)
      {
        assert fs[1..][k] == fs[k + 1];
      }
      SameFallbacksSameSlots(fs[1..], c1', c2');
    }
  }

  // ---------------------------------------------------------------------------
  // Properties of the published value

  /** While offline, any number of triggers publish nothing new and leave the cache alone. */
  lemma {:induction false} OfflineTriggersChangeNothing(state: SyncState, triggers: seq<Trigger>)
    requires forall k :: 0 <= k < |triggers| ==> !triggers[k].online
    ensures Replay(state, triggers) == state
    decreases |triggers|
  {
    if |triggers| != 0 {
      OfflineTriggersChangeNothing(state, triggers[1..]);
    }
  }

  /**
   An online update publishes the slots of the reference definition,
   concatenated in configuration order.
   */
  lemma {:induction false} OnlineRoundPublishes(state: SyncState, attempts: seq<Attempt>)
    ensures Sync(state, true, attempts).published ==
      Some(Flatten(LastGoodSlots(FetchedAttempts(attempts), state.cache)))
  {
    var fs := FetchedAttempts(attempts);
    var r := FetchAll(fs, state.cache);
    var ref := LastGoodSlots(fs, state.cache);
    forall i | 0 <= i < |fs|
      ensures r.slots[i] == ref[i]
    {
      SlotIsLastGood(fs, state.cache, i);
    }
    assert r.slots == ref;
  }

  /**
   An online update leaves a cache that answers every URL with its last good
   events and whose keys gain exactly the successfully fetched URLs.
   */
  lemma {:induction false} OnlineRoundCache(state: SyncState, attempts: seq<Attempt>)
    ensures forall url :: (CachedOrEmpty(Sync(state, true, attempts).cache, url) ==
      LastGood(FetchedAttempts(attempts), state.cache, url))
    ensures Sync(state, true, attempts).cache.Keys == state.cache.Keys + SucceededUrls(FetchedAttempts(attempts))
  {
    var fs := FetchedAttempts(attempts);
    forall url
      ensures CachedOrEmpty(FetchAll(fs, state.cache).cache, url) == LastGood(fs, state.cache, url)
    {
      CacheLookupIsLastGood(fs, state.cache, url);
    }
    CacheKeys(fs, state.cache);
  }

  /**
   One update from a state with a well-formed cache, online or not: every
   event it publishes is a VEVENT whose calendar has the URL of a non-blank
   calendar of that round, and the cache stays well formed.
   */
  lemma {:induction false} PublishedEventsAreTaggedVEvents(state: SyncState, online: bool, attempts: seq<Attempt>)
    requires CacheWellFormed(state.cache)
    ensures CacheWellFormed(Sync(state, online, attempts).cache)
    ensures online ==> forall e :: e in Sync(state, online, attempts).published.value ==>
      IsVEvent(e.event) && exists a :: a in FetchedAttempts(attempts) && a.config.url == e.calendar.url
  {
    if online {
      var fs := FetchedAttempts(attempts);
      var r := FetchAll(fs, state.cache);
      RoundWellFormed(fs, state.cache);
      forall e | e in Flatten(r.slots)
        ensures IsVEvent(e.event) && exists a :: a in fs && a.config.url == e.calendar.url
      {
        FlattenMembership(r.slots, e);
        var i :| 0 <= i < |r.slots| && e in r.slots[i];
        var k :| 0 <= k < |r.slots[i]| && r.slots[i][k] == e;
        assert fs[i] in fs;
      }
    }
  }

  /** Any series of updates from a well-formed state keeps it well formed. */
  lemma {:induction false} ReplayKeepsWellFormed(state: SyncState, triggers: seq<Trigger>)
    requires StateWellFormed(state)
    ensures StateWellFormed(Replay(state, triggers))
    decreases |triggers|
  {
    if |triggers| != 0 {
      var next := Sync(state, triggers[0].online, triggers[0].attempts);
      PublishedEventsAreTaggedVEvents(state, triggers[0].online, triggers[0].attempts);
      ReplayKeepsWellFormed(next, triggers[1..]);
    }
  }

  /** From the store's initial state, the cache is always well formed and only VEVENTs are ever published. */
  lemma InitialStateStaysWellFormed(triggers: seq<Trigger>)
    ensures StateWellFormed(Replay(InitialState, triggers))
  {
    ReplayKeepsWellFormed(InitialState, triggers);
  }

  /** In `refreshIcalEvents` a failing calendar with no earlier success at its URL contributes nothing. */
  lemma RefreshFailureIsEmpty(attempts: seq<Attempt>, i: nat)
    requires i < |FetchedAttempts(attempts)|
    requires FetchedAttempts(attempts)[i].outcome.FetchFailed?
    requires FetchedAttempts(attempts)[i].config.url !in SucceededUrls(FetchedAttempts(attempts)[..i])
    ensures SyncRound(attempts, map[]).slots[i] == []
  {
    FailureFallsBackToCache(FetchedAttempts(attempts), map[], i);
  }

  /** `refreshIcalEvents` publishes what an online round does whenever the cache holds nothing for the failing URLs. */
  lemma RefreshAgreesWithSync(state: SyncState, attempts: seq<Attempt>)
    requires forall a :: a in FetchedAttempts(attempts) && a.outcome.FetchFailed? ==> a.config.url !in state.cache
    ensures Sync(state, true, attempts).published == Some(RefreshIcalEvents(attempts))
  {
    var fs := FetchedAttempts(attempts);
    forall k | 0 <= k < |fs| && fs[k].outcome.FetchFailed?
      ensures CachedOrEmpty(state.cache, fs[k].config.url) == CachedOrEmpty(map[], fs[k].config.url)
    {
      assert fs[k] in fs;
    }
    SameFallbacksSameSlots(fs, state.cache, map[]);
  }
}
