/**
 * The per-instance upstream cache: a TTL, the last good value on failure, and a bounded number of entries
 * (MemoryProxy/src/instance-upstream-cache.ts:44-128, 165-173). A call is two steps, before and after its fetch, so
 * other calls run in between.
 */
module InstanceCache {
  import opened JsValue

  type Space = string

  const TTL_MS: int := 300_000
  const MAX_ENTRIES: nat := 256

  datatype Entry<T> = Entry(items: seq<T>, expiresAt: int)

  /**
   * The two maps, `cache` with its insertion order; the calls waiting for their fetch; and, to speak about eviction,
   * how many writes there were and which one wrote each key last.
   */
  datatype State<T> = State(
    order: seq<Space>, cache: map<Space, Entry<T>>, lastGood: map<Space, seq<T>>, pending: multiset<Space>,
    writes: nat, wrote: map<Space, nat>)

  /** A call starts at a time; a fetch arrives, with its items or failed, at a time. */
  datatype Event<T> = Call(space: Space, now: int) | Arrive(space: Space, fetched: Option<seq<T>>, now: int)

  // ---- The steps ----

  function Hit<T>(s: State<T>, space: Space, now: int): bool {
    space in s.cache && s.cache[space].expiresAt > now
  }

  /** What a call returns at once, None when it goes on to fetch. */
  function CallReply<T>(s: State<T>, space: Space, now: int): Option<seq<T>> {
    if space == "" then Some([])
    else if Hit(s, space, now) then Some(s.cache[space].items)
    else None
  }

  /** What a call returns when its fetch arrives. */
  function ArriveReply<T>(s: State<T>, space: Space, fetched: Option<seq<T>>): seq<T> {
    if fetched.Some? then fetched.value
    else if space in s.lastGood then s.lastGood[space]
    else []
  }

  function EvictIfNeeded<T>(s: State<T>): State<T> {
    if |s.order| < MAX_ENTRIES || s.order[0] == "" then s
    else s.(order := s.order[1..], cache := s.cache - {s.order[0]}, wrote := s.wrote - {s.order[0]})
  }

  /** Map.set keeps the position of a key that is already there. */
  function SetEntry<T>(s: State<T>, space: Space, items: seq<T>, now: int): State<T> {
    s.(order := if space in s.cache then s.order else s.order + [space],
       cache := s.cache[space := Entry(items, now + TTL_MS)],
       lastGood := s.lastGood[space := items],
       writes := s.writes + 1,
       wrote := s.wrote[space := s.writes])
  }

  function Step<T>(s: State<T>, e: Event<T>): State<T> {
    match e
    case Call(space, now) =>
      if CallReply(s, space, now).None? then s.(pending := s.pending + multiset{space}) else s
    case Arrive(space, fetched, now) =>
      if space !in s.pending then s
      else
        var s1 := s.(pending := s.pending - multiset{space});
        if fetched.Some? then SetEntry(EvictIfNeeded(s1), space, fetched.value, now) else s1
  }

  function Start<T>(): State<T> {
    State([], map[], map[], multiset{}, 0, map[])
  }

  function Run<T>(events: seq<Event<T>>): State<T> {
    if events == [] then Start() else Step(Run(events[..|events| - 1]), events[|events| - 1])
  }

  // ---- The map it refines ----

  datatype Fetch<T> = Fetch(items: seq<T>, at: int)

  /** The last fetch for a space that succeeded, as the history of events tells it. */
  function LastFetch<T>(events: seq<Event<T>>, space: Space): Option<Fetch<T>> {
    if events == [] then None
    else
      var before, e := events[..|events| - 1], events[|events| - 1];
      if e.Arrive? && e.space == space && e.fetched.Some? && space in Run(before).pending
      then Some(Fetch(e.fetched.value, e.now))
      else LastFetch(before, space)
  }

  function Known<T>(events: seq<Event<T>>, space: Space): seq<T> {
    var fetch := LastFetch(events, space);
    if fetch.Some? then fetch.value.items else []
  }

  // ---- What every run keeps ----

  /** The sequence lists exactly these keys, each once. */
  ghost predicate Lists(order: seq<Space>, keys: set<Space>) {
    && (forall i, j :: 0 <= i < j < |order| ==> order[i] != order[j])
    && (forall k :: k in order <==> k in keys)
  }

  lemma ListsRest(order: seq<Space>, keys: set<Space>)
    requires Lists(order, keys) && order != []
    ensures order[0] in keys && Lists(order[1..], keys - {order[0]})
  {
    var rest := order[1..];
    assert order == [order[0]] + rest;
    forall k
      ensures k in rest <==> k in keys - {order[0]}
    {
      if k in rest {
        var i :| 0 <= i < |rest| && rest[i] == k;
        assert order[i + 1] == k;
      }
    }
  }

  lemma ListsOneMore(order: seq<Space>, keys: set<Space>, k: Space)
    requires Lists(order, keys) && k !in keys
    ensures Lists(order + [k], keys + {k})
  {
    forall i | 0 <= i < |order|
      ensures order[i] != k
    {
      assert order[i] in order;
    }
  }

  ghost predicate Shaped<T>(s: State<T>) {
    && Lists(s.order, s.cache.Keys)
    && s.wrote.Keys == s.cache.Keys
    && (forall k | k in s.wrote :: s.wrote[k] < s.writes)
    && |s.order| <= MAX_ENTRIES
    && "" !in s.cache && "" !in s.pending
  }

  lemma EvictKeepsShape<T>(s: State<T>)
    requires Shaped(s)
    ensures Shaped(EvictIfNeeded(s)) && |EvictIfNeeded(s).order| < MAX_ENTRIES
    ensures |s.order| == MAX_ENTRIES ==>
              EvictIfNeeded(s) == s.(order := s.order[1..], cache := s.cache - {s.order[0]}, wrote := s.wrote - {s.order[0]})
  {
    if |s.order| == MAX_ENTRIES {
      ListsRest(s.order, s.cache.Keys);
    }
  }

  lemma SetKeepsShape<T>(s: State<T>, space: Space, items: seq<T>, now: int)
    requires Shaped(s) && space != "" && |s.order| < MAX_ENTRIES
    ensures Shaped(SetEntry(s, space, items, now))
  {
    if space !in s.cache {
      ListsOneMore(s.order, s.cache.Keys, space);
    }
    assert s.cache[space := Entry(items, now + TTL_MS)].Keys == s.cache.Keys + {space};
    if space in s.cache {
      assert s.cache.Keys + {space} == s.cache.Keys;
    }
  }

  lemma StepKeepsShape<T>(s: State<T>, e: Event<T>)
    requires Shaped(s)
    ensures Shaped(Step(s, e))
  {
    if e.Arrive? && e.space in s.pending && e.fetched.Some? {
      var s1 := s.(pending := s.pending - multiset{e.space});
      EvictKeepsShape(s1);
      SetKeepsShape(EvictIfNeeded(s1), e.space, e.fetched.value, e.now);
    }
  }

  /** What the two maps hold for a space is its last fetch: `lastGood` always, `cache` when it has an entry. */
  ghost predicate RefinesAt<T>(s: State<T>, k: Space, last: Option<Fetch<T>>) {
    && (k in s.lastGood <==> last.Some?)
    && (k in s.lastGood ==> s.lastGood[k] == last.value.items)
    && (k in s.cache ==> last.Some? && s.cache[k] == Entry(last.value.items, last.value.at + TTL_MS))
  }

  ghost predicate Refines<T>(s: State<T>, events: seq<Event<T>>) {
    forall k :: RefinesAt(s, k, LastFetch(events, k))
  }

  /**
   * Under every interleaving of calls, arrivals and evictions the cache holds at most 256 entries, each the last
   * successful fetch for its space, and `lastGood` is the map of last successful fetches.
   */
  lemma {:induction false} EveryRunRefines<T>(events: seq<Event<T>>)
    ensures Shaped(Run(events)) && Refines(Run(events), events)
  {
    if events != [] {
      var before, e := events[..|events| - 1], events[|events| - 1];
      EveryRunRefines(before);
      StepKeepsShape(Run(before), e);
      StepRefines(Run(before), before, e);
      assert before + [e] == events;
    }
  }

  lemma RunSnoc<T>(events: seq<Event<T>>, e: Event<T>)
    ensures Run(events + [e]) == Step(Run(events), e)
  {
    assert (events + [e])[..|events|] == events;
  }

  /** How one event moves the last fetch for k. */
  function NextFetch<T>(s: State<T>, e: Event<T>, k: Space, last: Option<Fetch<T>>): Option<Fetch<T>> {
    if e.Arrive? && e.space == k && e.fetched.Some? && k in s.pending then Some(Fetch(e.fetched.value, e.now)) else last
  }

  lemma LastFetchSnoc<T>(events: seq<Event<T>>, e: Event<T>, k: Space)
    ensures LastFetch(events + [e], k) == NextFetch(Run(events), e, k, LastFetch(events, k))
  {
    assert (events + [e])[..|events|] == events;
  }

  lemma StepRefinesAt<T>(s: State<T>, e: Event<T>, k: Space, last: Option<Fetch<T>>)
    requires RefinesAt(s, k, last)
    ensures RefinesAt(Step(s, e), k, NextFetch(s, e, k, last))
  {
  }

  lemma StepRefines<T>(s: State<T>, before: seq<Event<T>>, e: Event<T>)
    requires s == Run(before) && Refines(s, before)
    ensures Refines(Step(s, e), before + [e])
  {
    forall k
      ensures RefinesAt(Step(s, e), k, LastFetch(before + [e], k))
    {
      assert RefinesAt(s, k, LastFetch(before, k));
      LastFetchSnoc(before, e, k);
      StepRefinesAt(s, e, k, LastFetch(before, k));
    }
  }

  /** The reply of a call, at once or when its fetch arrives, is the last successful fetch for its space, or empty. */
  lemma RepliesAreLastFetch<T>(events: seq<Event<T>>, space: Space, fetched: Option<seq<T>>, now: int)
    requires space != ""
    ensures var s := Run(events);
            && (CallReply(s, space, now).Some? ==>
                  CallReply(s, space, now).value == Known(events, space)
                  && LastFetch(events, space).Some?
                  && now - LastFetch(events, space).value.at < TTL_MS)
            && (space in s.pending ==>
                  ArriveReply(s, space, fetched) == Known(events + [Arrive(space, fetched, now)], space))
  {
    EveryRunRefines(events);
    assert RefinesAt(Run(events), space, LastFetch(events, space));
    LastFetchSnoc(events, Arrive(space, fetched, now), space);
  }

  /** A call is answered without a fetch exactly while the entry is younger than the TTL since its last fetch. */
  lemma EntryHitsIff<T>(events: seq<Event<T>>, space: Space, now: int)
    requires space != "" && space in Run(events).cache
    ensures LastFetch(events, space).Some?
    ensures CallReply(Run(events), space, now).Some? <==> now - LastFetch(events, space).value.at < 300_000
  {
    EveryRunRefines(events);
    assert RefinesAt(Run(events), space, LastFetch(events, space));
  }

  /** A fetch that succeeds for a waiting call serves every call of the next five minutes, and none after. */
  lemma FetchServesItsTtl<T>(events: seq<Event<T>>, space: Space, items: seq<T>, at: int, now: int)
    requires space in Run(events).pending
    ensures var reply := CallReply(Run(events + [Arrive(space, Some(items), at)]), space, now);
            reply == if now - at < 300_000 then Some(items) else None
  {
    EveryRunRefines(events);
    RunSnoc(events, Arrive(space, Some(items), at));
  }

  /** A step removes an entry only when the cache is full, and then the first one alone. */
  lemma StepKeepsEntries<T>(s: State<T>, e: Event<T>)
    requires Shaped(s)
    ensures forall k | k in s.cache && k !in Step(s, e).cache :: |s.order| == 256 && k == s.order[0]
  {
    if e.Arrive? && e.space in s.pending && e.fetched.Some? {
      EvictRemoves(s.(pending := s.pending - multiset{e.space}));
    }
  }

  lemma EvictRemoves<T>(s: State<T>)
    requires Shaped(s)
    ensures forall k | k in s.cache && k !in EvictIfNeeded(s).cache :: |s.order| == MAX_ENTRIES && k == s.order[0]
  {
  }

  // ---- What eviction evicts ----

  /** The keys stand in the order in which they were last written. */
  ghost predicate InWriteOrder(order: seq<Space>, wrote: map<Space, nat>) {
    && (forall k :: k in order ==> k in wrote)
    && (forall i, j :: 0 <= i < j < |order| ==> wrote[order[i]] < wrote[order[j]])
  }

  /** The first key, the one an eviction takes, was written before every other. */
  ghost predicate OldestFirst(order: seq<Space>, wrote: map<Space, nat>) {
    && (forall k :: k in order ==> k in wrote)
    && forall j :: 0 < j < |order| ==> wrote[order[0]] < wrote[order[j]]
  }

  /** An eviction takes the oldest-written entry, as the cache's documentation says, exactly when that comes first. */
  lemma EvictsOldestIff<T>(s: State<T>)
    requires Shaped(s) && |s.order| == MAX_ENTRIES
    ensures EvictIfNeeded(s).cache == s.cache - {s.order[0]}
    ensures OldestFirst(s.order, s.wrote)
       <==> forall k | k in s.cache && k !in EvictIfNeeded(s).cache ::
              forall other | other in EvictIfNeeded(s).cache :: s.wrote[k] < s.wrote[other]
  {
    EvictKeepsShape(s);
    var gone := s.order[0];
    assert gone in s.order && gone in s.cache;
    if OldestFirst(s.order, s.wrote) {
      forall other | other in s.cache && other != gone
        ensures s.wrote[gone] < s.wrote[other]
      {
        assert other in s.order;
        var j :| 0 <= j < |s.order| && s.order[j] == other;
      }
    } else {
      var j :| 0 < j < |s.order| && s.wrote[gone] >= s.wrote[s.order[j]];
      assert s.order[j] in s.order && s.order[j] in EvictIfNeeded(s).cache;
    }
  }

  /** The keys left after n evictions with no write between them. */
  function LeftAfter(order: seq<Space>, n: nat): seq<Space>
    requires n <= |order|
  {
    order[n..]
  }

  /** The keys stand in write order exactly when each of the coming evictions takes the oldest-written key left. */
  lemma InWriteOrderIff(order: seq<Space>, wrote: map<Space, nat>)
    ensures InWriteOrder(order, wrote)
       <==> forall n :: 0 <= n <= |order| ==> OldestFirst(LeftAfter(order, n), wrote)
  {
    if forall n :: 0 <= n <= |order| ==> OldestFirst(LeftAfter(order, n), wrote) {
      assert LeftAfter(order, 0) == order;
      forall i, j | 0 <= i < j < |order|
        ensures wrote[order[i]] < wrote[order[j]]
      {
        assert OldestFirst(LeftAfter(order, i), wrote);
        assert LeftAfter(order, i)[j - i] == order[j];
      }
    }
  }

  lemma StampKeepsOrderIff(order: seq<Space>, wrote: map<Space, nat>, k: Space, now: nat)
    requires Lists(order, wrote.Keys) && InWriteOrder(order, wrote)
    requires k in wrote && forall other | other in wrote :: wrote[other] < now
    ensures order != []
    ensures InWriteOrder(order, wrote[k := now]) <==> k == order[|order| - 1]
  {
    var n := |order| - 1;
    var i :| 0 <= i < |order| && order[i] == k;
    assert order[n] in order;
    if i == n {
      assert forall j :: 0 <= j < n ==> order[j] != k && order[j] in order;
    } else {
      assert wrote[k := now][order[i]] > wrote[k := now][order[n]];
    }
  }

  lemma AppendKeepsOrder(order: seq<Space>, wrote: map<Space, nat>, k: Space, now: nat)
    requires Lists(order, wrote.Keys) && InWriteOrder(order, wrote)
    requires k !in wrote && forall other | other in wrote :: wrote[other] < now
    ensures InWriteOrder(order + [k], wrote[k := now])
  {
    forall i | 0 <= i < |order|
      ensures order[i] != k && order[i] in wrote
    {
      assert order[i] in order;
    }
  }

  /** A write keeps the order exactly when its key is new to the cache or already the last one. */
  lemma WriteKeepsOrderIff<T>(s: State<T>, space: Space, items: seq<T>, now: int)
    requires Shaped(s) && InWriteOrder(s.order, s.wrote)
    ensures var s' := SetEntry(s, space, items, now);
            InWriteOrder(s'.order, s'.wrote)
            <==> space !in s.cache || (s.order != [] && space == s.order[|s.order| - 1])
  {
    if space in s.cache {
      StampKeepsOrderIff(s.order, s.wrote, space, s.writes);
    } else {
      AppendKeepsOrder(s.order, s.wrote, space, s.writes);
    }
  }

  // Full caches exist: the calls of 256 instances lead to one.

  function Name(i: nat): Space {
    seq(i + 1, _ => 'a')
  }

  function Names(n: nat): (r: seq<Space>)
    ensures |r| == n
  {
    seq(n, i requires 0 <= i < n => Name(i))
  }

  function FillEvents<T>(n: nat): seq<Event<T>> {
    if n == 0 then [] else (FillEvents(n - 1) + [Call(Name(n - 1), 0)]) + [Arrive(Name(n - 1), Some([]), 0)]
  }

  lemma FetchNew<T>(s: State<T>, space: Space)
    requires Shaped(s) && InWriteOrder(s.order, s.wrote) && s.pending == multiset{}
    requires space != "" && space !in s.order && |s.order| < MAX_ENTRIES
    ensures var s' := Step(Step(s, Call(space, 0)), Arrive(space, Some([]), 0));
            && Shaped(s') && InWriteOrder(s'.order, s'.wrote) && s'.pending == multiset{}
            && s'.order == s.order + [space]
  {
    var asked := Step(s, Call(space, 0));
    assert asked == s.(pending := multiset{space});
    assert EvictIfNeeded(s) == s;
    SetKeepsShape(s, space, [], 0);
    WriteKeepsOrderIff(s, space, [], 0);
    assert asked.(pending := asked.pending - multiset{space}) == s;
  }

  lemma NamesDiffer(n: nat)
    ensures Name(n) !in Names(n)
  {
    assert forall k | k in Names(n) :: |k| < |Name(n)|;
  }

  ghost predicate Filled<T>(s: State<T>, n: nat) {
    Shaped(s) && InWriteOrder(s.order, s.wrote) && s.pending == multiset{} && s.order == Names(n)
  }

  lemma FillOneMore<T>(s: State<T>, n: nat)
    requires Filled(s, n) && n < MAX_ENTRIES
    ensures Filled(Step(Step(s, Call(Name(n), 0)), Arrive(Name(n), Some([]), 0)), n + 1)
  {
    NamesDiffer(n);
    FetchNew(s, Name(n));
    assert Names(n + 1) == Names(n) + [Name(n)];
  }

  lemma FillSteps<T>(n: nat)
    requires n > 0
    ensures Run<T>(FillEvents(n))
         == Step(Step(Run<T>(FillEvents(n - 1)), Call(Name(n - 1), 0)), Arrive(Name(n - 1), Some([]), 0))
  {
    var before: seq<Event<T>> := FillEvents(n - 1);
    RunSnoc(before, Call(Name(n - 1), 0));
    RunSnoc(before + [Call(Name(n - 1), 0)], Arrive(Name(n - 1), Some([]), 0));
  }

  lemma {:induction false} FillReaches<T>(n: nat)
    requires n <= MAX_ENTRIES
    ensures Filled(Run<T>(FillEvents(n)), n)
  {
    if n > 0 {
      FillReaches<T>(n - 1);
      FillOneMore(Run<T>(FillEvents(n - 1)), n - 1);
      FillSteps<T>(n);
    }
  }

  // ---- The order over whole runs ----

  /** A fetch that arrives in time for a waiting call, and what is written after the eviction it causes. */
  predicate Arrives<T>(s: State<T>, e: Event<T>) {
    e.Arrive? && e.fetched.Some? && e.space in s.pending
  }

  /** The key written is new to the cache, once the eviction is done, or already the last one. */
  predicate NewOrLast<T(==)>(s: State<T>, e: Event<T>) {
    Arrives(s, e) ==>
      var after := EvictIfNeeded(s);
      e.space !in after.cache || (after.order != [] && e.space == after.order[|after.order| - 1])
  }

  lemma DropFirstKeepsOrder(order: seq<Space>, wrote: map<Space, nat>)
    requires order != [] && Lists(order, wrote.Keys) && InWriteOrder(order, wrote)
    ensures InWriteOrder(order[1..], wrote - {order[0]})
  {
    forall i | 0 < i < |order|
      ensures order[i] in wrote - {order[0]}
    {
      assert order[i] in order;
    }
  }

  lemma EvictKeepsOrder<T>(s: State<T>)
    requires Shaped(s) && InWriteOrder(s.order, s.wrote)
    ensures InWriteOrder(EvictIfNeeded(s).order, EvictIfNeeded(s).wrote)
  {
    EvictKeepsShape(s);
    if |s.order| == MAX_ENTRIES {
      DropFirstKeepsOrder(s.order, s.wrote);
    }
  }

  lemma ArrivingWrites<T>(s: State<T>, e: Event<T>)
    requires Arrives(s, e)
    ensures var s' := SetEntry(EvictIfNeeded(s), e.space, e.fetched.value, e.now);
            Step(s, e).order == s'.order && Step(s, e).wrote == s'.wrote
  {
  }

  lemma StepKeepsOrderIff<T>(s: State<T>, e: Event<T>)
    requires Shaped(s) && InWriteOrder(s.order, s.wrote)
    ensures InWriteOrder(Step(s, e).order, Step(s, e).wrote) <==> NewOrLast(s, e)
  {
    if Arrives(s, e) {
      ArrivingWrites(s, e);
      EvictKeepsShape(s);
      EvictKeepsOrder(s);
      WriteKeepsOrderIff(EvictIfNeeded(s), e.space, e.fetched.value, e.now);
    }
  }

  /** Every fetch writes a key that is new or already last. */
  predicate NeverInPlace<T(==)>(events: seq<Event<T>>) {
    events != [] ==>
      var before := events[..|events| - 1];
      NeverInPlace(before) && NewOrLast(Run(before), events[|events| - 1])
  }

  /** Runs that never write in place keep the keys in write order, so every eviction takes the oldest-written. */
  lemma {:induction false} RunKeepsWriteOrder<T>(events: seq<Event<T>>)
    requires NeverInPlace(events)
    ensures InWriteOrder(Run(events).order, Run(events).wrote) && OldestFirst(Run(events).order, Run(events).wrote)
  {
    if events != [] {
      var before := events[..|events| - 1];
      RunKeepsWriteOrder(before);
      EveryRunRefines(before);
      StepKeepsOrderIff(Run(before), events[|events| - 1]);
    }
    InWriteOrderIff(Run(events).order, Run(events).wrote);
    assert LeftAfter(Run(events).order, 0) == Run(events).order;
  }

  /** After such a run the next step loses the write order exactly when it writes in place. */
  lemma WriteOrderLostIff<T>(events: seq<Event<T>>)
    requires events != [] && NeverInPlace(events[..|events| - 1])
    ensures InWriteOrder(Run(events).order, Run(events).wrote) <==> NeverInPlace(events)
  {
    var before := events[..|events| - 1];
    RunKeepsWriteOrder(before);
    EveryRunRefines(before);
    StepKeepsOrderIff(Run(before), events[|events| - 1]);
  }

  // ---- A run in which the documented rule fails ----

  function Fetching<T>(space: Space, now: int): seq<Event<T>> {
    [Call(space, now), Arrive(space, Some([]), now)]
  }

  /** A key is fetched again, then two others. */
  function Refetching<T>(events: seq<Event<T>>, k: Space, x: Space, y: Space, now: int): seq<Event<T>> {
    events + Fetching(k, now) + Fetching(x, now) + Fetching(y, now)
  }

  lemma FetchingSteps<T>(events: seq<Event<T>>, space: Space, now: int)
    ensures Run(events + Fetching(space, now))
         == Step(Step(Run(events), Call(space, now)), Arrive(space, Some([]), now))
  {
    RunSnoc(events, Call(space, now));
    RunSnoc(events + [Call(space, now)], Arrive(space, Some([]), now));
    assert events + Fetching(space, now) == (events + [Call(space, now)]) + [Arrive(space, Some([]), now)];
  }

  /** A call that is no hit, and its fetch. */
  lemma FetchWrites<T>(s: State<T>, space: Space, now: int)
    requires space != "" && !Hit(s, space, now) && s.pending == multiset{}
    ensures Step(Step(s, Call(space, now)), Arrive(space, Some([]), now)) == SetEntry(EvictIfNeeded(s), space, [], now)
  {
    var asked := Step(s, Call(space, now));
    assert asked == s.(pending := multiset{space});
    assert asked.(pending := asked.pending - multiset{space}) == s;
  }

  lemma NamesAt(n: nat, i: nat)
    requires i < n
    ensures Names(n)[i] == Name(i) && Name(i) in Names(n)
  {
  }

  lemma NameIsNew(n: nat, i: nat)
    requires i >= n
    ensures Name(i) !in Names(n)
  {
    assert forall k | k in Names(n) :: |k| < |Name(i)|;
  }

  /** The full cache: every entry expired, the writes in the order of the names. */
  lemma FullCache<T>(s: State<T>)
    requires Filled(s, 256)
    ensures Shaped(s) && s.pending == multiset{} && |s.order| == MAX_ENTRIES
    ensures s.order[0] == Name(0) && s.order[1] == Name(1) && Name(1) in s.cache
    ensures Name(256) !in s.cache && Name(257) !in s.cache
  {
    NamesAt(256, 0);
    NamesAt(256, 1);
    NameIsNew(256, 256);
    NameIsNew(256, 257);
    assert Name(1) in s.order && Name(256) !in s.order && Name(257) !in s.order;
  }

  /** The second key has been fetched again: it stands first although it was written last. */
  ghost predicate Refetched<T>(s: State<T>, k: Space) {
    && Shaped(s) && s.pending == multiset{}
    && |s.order| == MAX_ENTRIES - 1 && s.order[0] == k && k in s.cache
    && forall other | other in s.cache && other != k :: s.wrote[other] < s.wrote[k]
  }

  /** The cache is full again with a newer key x. */
  ghost predicate Refilled<T>(s: State<T>, k: Space, x: Space) {
    && Shaped(s) && s.pending == multiset{}
    && |s.order| == MAX_ENTRIES && s.order[0] == k && k in s.cache
    && forall other | other in s.cache && other !in {k, x} :: s.wrote[other] < s.wrote[k]
  }

  lemma EvictedForRefetch<T>(s: State<T>)
    requires Shaped(s) && |s.order| == MAX_ENTRIES
    ensures var s1 := EvictIfNeeded(s);
            && Shaped(s1) && s1.pending == s.pending && |s1.order| == MAX_ENTRIES - 1
            && s1.order[0] == s.order[1] && s.order[1] in s1.cache && s1.cache.Keys <= s.cache.Keys
  {
    EvictKeepsShape(s);
    assert EvictIfNeeded(s).order[0] in EvictIfNeeded(s).order;
  }

  lemma WrittenInPlace<T>(s: State<T>, k: Space, now: int)
    requires Shaped(s) && s.pending == multiset{} && |s.order| == MAX_ENTRIES - 1 && s.order[0] == k && k in s.cache
    ensures Refetched(SetEntry(s, k, [], now), k)
    ensures SetEntry(s, k, [], now).cache.Keys == s.cache.Keys
  {
    assert k != "";
    SetKeepsShape(s, k, [], now);
  }

  lemma NewKey<T>(s: State<T>, k: Space, x: Space, now: int)
    requires Refetched(s, k) && x !in s.cache && x != ""
    ensures var s' := SetEntry(EvictIfNeeded(s), x, [], now);
            Refilled(s', k, x) && s'.cache.Keys == s.cache.Keys + {x}
  {
    assert EvictIfNeeded(s) == s;
    SetKeepsShape(s, x, [], now);
  }

  lemma NextKey<T>(s: State<T>, k: Space, x: Space, y: Space, now: int)
    requires Refilled(s, k, x) && y !in s.cache
    ensures SetEntry(EvictIfNeeded(s), y, [], now).cache.Keys == s.cache.Keys - {k} + {y}
  {
    EvictKeepsShape(s);
  }

  /** A run has filled the cache, no call is waiting, and the entry of the second key has expired. */
  ghost predicate Ripe<T>(s: State<T>, k: Space, now: int) {
    && |s.order| == MAX_ENTRIES && s.order[1] == k
    && s.pending == multiset{} && !Hit(s, k, now)
  }

  lemma SecondFetchedAgain<T>(events: seq<Event<T>>, k: Space, now: int)
    requires Ripe(Run(events), k, now)
    ensures var s := Run(events + Fetching(k, now));
            Refetched(s, k) && s.cache.Keys <= Run(events).cache.Keys
  {
    var s := Run(events);
    EveryRunRefines(events);
    EvictedForRefetch(s);
    assert k != "";
    FetchingSteps(events, k, now);
    FetchWrites(s, k, now);
    WrittenInPlace(EvictIfNeeded(s), k, now);
  }

  lemma FullAgain<T>(events: seq<Event<T>>, k: Space, x: Space, now: int)
    requires Refetched(Run(events), k) && x !in Run(events).cache && x != ""
    ensures var s := Run(events + Fetching(x, now));
            Refilled(s, k, x) && s.cache.Keys == Run(events).cache.Keys + {x}
  {
    FetchingSteps(events, x, now);
    FetchWrites(Run(events), x, now);
    NewKey(Run(events), k, x, now);
  }

  lemma NextTakesFirst<T>(events: seq<Event<T>>, k: Space, x: Space, y: Space, now: int)
    requires Refilled(Run(events), k, x) && y !in Run(events).cache && y != ""
    ensures Run(events + Fetching(y, now)).cache.Keys == Run(events).cache.Keys - {k} + {y}
  {
    FetchingSteps(events, y, now);
    FetchWrites(Run(events), y, now);
    NextKey(Run(events), k, x, y, now);
  }

  /**
   * The documentation's "evict oldest-written" fails after every run that has filled the cache: when its second key
   * has expired and is fetched again, then two new ones, that key is gone at the end, although before the last fetch
   * every other entry but the newest had been written earlier, and all of them stay.
   */
  lemma RefetchedKeyIsEvicted<T>(events: seq<Event<T>>, k: Space, x: Space, y: Space, now: int)
    requires Ripe(Run(events), k, now)
    requires x !in Run(events).cache && y !in Run(events).cache && x != y && x != "" && y != ""
    ensures var full := Run(events + Fetching(k, now) + Fetching(x, now));
            && Refilled(full, k, x)
            && Run(Refetching(events, k, x, y, now)).cache.Keys == full.cache.Keys - {k} + {y}
  {
    var again := events + Fetching(k, now);
    var full := again + Fetching(x, now);
    SecondFetchedAgain(events, k, now);
    FullAgain(again, k, x, now);
    assert y !in Run(full).cache;
    NextTakesFirst(full, k, x, y, now);
    assert Refetching(events, k, x, y, now) == full + Fetching(y, now);
  }

  /** Such runs exist: 256 instances are fetched and the second one again five minutes later. */
  lemma RefetchAfterExpiry<T>()
    ensures var events: seq<Event<T>> := FillEvents(256);
            && Ripe(Run(events), Name(1), TTL_MS)
            && Name(1) !in Run(Refetching(events, Name(1), Name(256), Name(257), TTL_MS)).cache
            && Name(2) in Run(Refetching(events, Name(1), Name(256), Name(257), TTL_MS)).cache
  {
    var events: seq<Event<T>> := FillEvents(256);
    FillReaches<T>(256);
    FullCache(Run(events));
    FilledAt0<T>(256);
    NamesApart();
    RefetchedKeyIsEvicted(events, Name(1), Name(256), Name(257), TTL_MS);
    ThirdStays<T>();
  }

  /** The third key is there throughout. */
  lemma ThirdStays<T>()
    requires Ripe(Run<T>(FillEvents(256)), Name(1), TTL_MS)
    ensures Name(2) in Run<T>(FillEvents(256) + Fetching(Name(1), TTL_MS) + Fetching(Name(256), TTL_MS)).cache
  {
    var events: seq<Event<T>> := FillEvents(256);
    var s := Run(events);
    FillReaches<T>(256);
    FullCache(s);
    NamesAt(256, 2);
    NamesApart();
    EvictKeepsShape(s);
    assert Name(2) in s.order;
    FetchingSteps(events, Name(1), TTL_MS);
    FetchWrites(s, Name(1), TTL_MS);
    SecondFetchedAgain(events, Name(1), TTL_MS);
    FullAgain(events + Fetching(Name(1), TTL_MS), Name(1), Name(256), TTL_MS);
  }

  lemma NamesApart()
    ensures Name(1) != Name(256) && Name(1) != Name(257) && Name(256) != Name(257)
    ensures Name(2) !in {Name(0), Name(1), Name(257)}
  {
    assert |Name(0)| == 1 && |Name(1)| == 2 && |Name(2)| == 3 && |Name(256)| == 257 && |Name(257)| == 258;
  }

  ghost predicate AllExpireAt<T>(s: State<T>, at: int) {
    forall k | k in s.cache :: s.cache[k].expiresAt == at
  }

  lemma WriteExpires<T>(s: State<T>, space: Space)
    requires AllExpireAt(s, TTL_MS)
    ensures AllExpireAt(SetEntry(EvictIfNeeded(s), space, [], 0), TTL_MS)
  {
  }

  lemma FetchExpires<T>(s: State<T>, space: Space)
    requires AllExpireAt(s, TTL_MS)
    ensures AllExpireAt(Step(Step(s, Call(space, 0)), Arrive(space, Some([]), 0)), TTL_MS)
  {
    var asked := Step(s, Call(space, 0));
    WriteExpires(asked.(pending := asked.pending - multiset{space}), space);
  }

  /** Every entry of the filled cache expires at TTL_MS. */
  lemma {:induction false} FilledAt0<T>(n: nat)
    ensures AllExpireAt(Run<T>(FillEvents(n)), TTL_MS)
  {
    if n == 0 {
      assert Run<T>([]) == Start<T>();
    } else {
      FilledAt0<T>(n - 1);
      FetchExpires(Run<T>(FillEvents(n - 1)), Name(n - 1));
      FillSteps<T>(n);
    }
  }

  // ---- The module ----

  class InstanceUpstreamCache<T> {
    var order: seq<Space>
    var cache: map<Space, Entry<T>>
    var lastGood: map<Space, seq<T>>
    ghost var pending: multiset<Space>
    ghost var writes: nat
    ghost var wrote: map<Space, nat>

    ghost function View(): State<T>
      reads this
    {
      State(order, cache, lastGood, pending, writes, wrote)
    }

    constructor ()
      ensures View() == Start()
    {
      order, cache, lastGood := [], map[], map[];
      pending, writes, wrote := multiset{}, 0, map[];
    }

    /** getInstanceUpstreamConfigs up to the fetch: None when the call goes on to fetch. */
    method Begin(space: Space, now: int) returns (reply: Option<seq<T>>)
      modifies this`pending
      ensures reply == CallReply(old(View()), space, now)
      ensures View() == Step(old(View()), Call(space, now))
    {
      if space == "" {
        return Some([]);
      }
      if space in cache && cache[space].expiresAt > now {
        return Some(cache[space].items);
      }
      pending := pending + multiset{space};
      reply := None;
    }

    method EvictOldest()
      modifies this`order, this`cache, this`wrote
      ensures View() == EvictIfNeeded(old(View()))
    {
      if |order| < MAX_ENTRIES {
        return;
      }
      var oldestKey := order[0];
      if oldestKey != "" {
        order := order[1..];
        cache := cache - {oldestKey};
        wrote := wrote - {oldestKey};
      }
    }

    method Store(space: Space, items: seq<T>, now: int)
      modifies this`order, this`cache, this`wrote, this`writes, this`lastGood
      ensures View() == SetEntry(old(View()), space, items, now)
    {
      if space !in cache {
        order := order + [space];
      }
      cache := cache[space := Entry(items, now + TTL_MS)];
      wrote, writes := wrote[space := writes], writes + 1;
      lastGood := lastGood[space := items];
    }

    /** getInstanceUpstreamConfigs after the fetch, which other calls may have overtaken. */
    method Complete(space: Space, fetched: Option<seq<T>>, now: int) returns (reply: seq<T>)
      requires space in pending
      modifies this
      ensures reply == ArriveReply(old(View()), space, fetched)
      ensures View() == Step(old(View()), Arrive(space, fetched, now))
    {
      pending := pending - multiset{space};
      if fetched.Some? {
        EvictOldest();
        Store(space, fetched.value, now);
        return fetched.value;
      }
      if space in lastGood {
        return lastGood[space];
      }
      reply := [];
    }
  }
}
