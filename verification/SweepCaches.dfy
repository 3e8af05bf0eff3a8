/** The periodic sweep of the per-session caches (MemoryCore/index.ts:92-153). */
module SweepCaches {
  const PROMPT_CACHE_TTL_MS: int := 600_000
  const PROMPT_CACHE_MAX_SIZE: nat := 10_000

  /** An entry of a JavaScript map, listed in insertion order; the rest of its value plays no part. */
  datatype Entry = Entry(key: string, ts: int)

  ghost predicate DistinctKeys(entries: seq<Entry>) {
    forall i, j :: 0 <= i < j < |entries| ==> entries[i].key != entries[j].key
  }

  function KeysOf(entries: seq<Entry>): set<string> {
    if entries == [] then {} else KeysOf(entries[..|entries| - 1]) + {entries[|entries| - 1].key}
  }

  predicate Expired(e: Entry, now: int) {
    now - e.ts > PROMPT_CACHE_TTL_MS
  }

  function ExpiredKeys(entries: seq<Entry>, now: int): set<string> {
    if entries == [] then {}
    else
      var front, last := ExpiredKeys(entries[..|entries| - 1], now), entries[|entries| - 1];
      if Expired(last, now) then front + {last.key} else front
  }

  /** The map after deleting these keys. */
  function Without(entries: seq<Entry>, keys: set<string>): seq<Entry> {
    if entries == [] then []
    else
      var front, last := Without(entries[..|entries| - 1], keys), entries[|entries| - 1];
      if last.key in keys then front else front + [last]
  }

  /** Inserts an entry behind those with the same or an earlier timestamp. */
  function InsertByTs(sorted: seq<Entry>, e: Entry): seq<Entry> {
    if sorted == [] || sorted[|sorted| - 1].ts <= e.ts then sorted + [e]
    else InsertByTs(sorted[..|sorted| - 1], e) + [sorted[|sorted| - 1]]
  }

  /** entries.sort((a, b) => a.ts - b.ts), which is stable. */
  function SortByTs(entries: seq<Entry>): seq<Entry> {
    if entries == [] then [] else InsertByTs(SortByTs(entries[..|entries| - 1]), entries[|entries| - 1])
  }

  /** The entries the hard limit evicts. */
  function ToEvict(entries: seq<Entry>): seq<Entry> {
    var sorted := SortByTs(entries);
    if |sorted| > PROMPT_CACHE_MAX_SIZE then sorted[..|sorted| - PROMPT_CACHE_MAX_SIZE] else []
  }

  function Capped(entries: seq<Entry>): seq<Entry> {
    Without(entries, KeysOf(ToEvict(entries)))
  }

  function Swept(entries: seq<Entry>, now: int): seq<Entry> {
    Capped(Without(entries, ExpiredKeys(entries, now)))
  }

  /** All keys one sweep deletes. */
  function SweptKeys(entries: seq<Entry>, now: int): set<string> {
    ExpiredKeys(entries, now) + KeysOf(ToEvict(Without(entries, ExpiredKeys(entries, now))))
  }

  // ---- Deleting and sorting ----

  lemma {:induction false} KeysMembers(entries: seq<Entry>, k: string)
    ensures k in KeysOf(entries) <==> exists e :: e in entries && e.key == k
  {
    if entries != [] {
      var front, last := entries[..|entries| - 1], entries[|entries| - 1];
      KeysMembers(front, k);
      assert entries == front + [last];
    }
  }

  lemma {:induction false} ExpiredMembers(entries: seq<Entry>, now: int, k: string)
    ensures k in ExpiredKeys(entries, now) <==> exists e :: e in entries && Expired(e, now) && e.key == k
  {
    if entries != [] {
      var front, last := entries[..|entries| - 1], entries[|entries| - 1];
      ExpiredMembers(front, now, k);
      assert entries == front + [last];
    }
  }

  lemma {:induction false} WithoutMembers(entries: seq<Entry>, keys: set<string>)
    ensures forall e :: e in Without(entries, keys) <==> e in entries && e.key !in keys
  {
    if entries != [] {
      WithoutMembers(entries[..|entries| - 1], keys);
    }
  }

  lemma {:induction false} WithoutTwice(entries: seq<Entry>, a: set<string>, b: set<string>)
    ensures Without(Without(entries, a), b) == Without(entries, a + b)
  {
    if entries != [] {
      var front, last := entries[..|entries| - 1], entries[|entries| - 1];
      WithoutTwice(front, a, b);
      assert (Without(front, a) + [last])[..|Without(front, a)|] == Without(front, a);
    }
  }

  lemma {:induction false} WithoutDistinct(entries: seq<Entry>, keys: set<string>)
    requires DistinctKeys(entries)
    ensures DistinctKeys(Without(entries, keys))
  {
    if entries != [] {
      var front, last := entries[..|entries| - 1], entries[|entries| - 1];
      WithoutDistinct(front, keys);
      WithoutMembers(front, keys);
      forall i | 0 <= i < |Without(front, keys)|
        ensures Without(front, keys)[i].key != last.key
      {
        assert Without(front, keys)[i] in front;
      }
    }
  }

  ghost predicate Sorted(entries: seq<Entry>) {
    forall i, j :: 0 <= i < j < |entries| ==> entries[i].ts <= entries[j].ts
  }

  lemma {:induction false} InsertAdds(sorted: seq<Entry>, e: Entry)
    ensures multiset(InsertByTs(sorted, e)) == multiset(sorted) + multiset{e}
  {
    if sorted != [] && sorted[|sorted| - 1].ts > e.ts {
      InsertAdds(sorted[..|sorted| - 1], e);
      assert sorted == sorted[..|sorted| - 1] + [sorted[|sorted| - 1]];
    }
  }

  lemma {:induction false} InsertSorted(sorted: seq<Entry>, e: Entry)
    requires Sorted(sorted)
    ensures Sorted(InsertByTs(sorted, e))
  {
    if sorted != [] && sorted[|sorted| - 1].ts > e.ts {
      var front, last := sorted[..|sorted| - 1], sorted[|sorted| - 1];
      InsertSorted(front, e);
      InsertAdds(front, e);
      var less := InsertByTs(front, e);
      forall i | 0 <= i < |less|
        ensures less[i].ts <= last.ts
      {
        assert less[i] in multiset(less);
        assert less[i] in front || less[i] == e;
      }
    }
  }

  lemma {:induction false} SortSorts(entries: seq<Entry>)
    ensures Sorted(SortByTs(entries))
    ensures multiset(SortByTs(entries)) == multiset(entries)
  {
    if entries != [] {
      var front, last := entries[..|entries| - 1], entries[|entries| - 1];
      assert entries == front + [last];
      SortSorts(front);
      InsertSorted(SortByTs(front), last);
      InsertAdds(SortByTs(front), last);
    }
  }

  lemma {:induction false} DistinctOnce(entries: seq<Entry>, e: Entry)
    requires DistinctKeys(entries)
    ensures multiset(entries)[e] <= 1
  {
    if entries != [] {
      var front, last := entries[..|entries| - 1], entries[|entries| - 1];
      assert entries == front + [last];
      DistinctOnce(front, e);
      if e == last {
        assert e !in front;
        assert e !in multiset(front);
      }
    }
  }

  lemma SameKeySameEntry(entries: seq<Entry>, a: Entry, b: Entry)
    requires DistinctKeys(entries) && a in entries && b in entries && a.key == b.key
    ensures a == b
  {
  }

  /** Deleting the keys of a part of the entries leaves the other part. */
  lemma WithoutPart(entries: seq<Entry>, gone: seq<Entry>, kept: seq<Entry>)
    requires DistinctKeys(entries) && multiset(entries) == multiset(gone) + multiset(kept)
    ensures multiset(Without(entries, KeysOf(gone))) == multiset(kept)
  {
    var left := Without(entries, KeysOf(gone));
    WithoutMembers(entries, KeysOf(gone));
    WithoutDistinct(entries, KeysOf(gone));
    assert forall e :: e in gone ==> e in multiset(gone) && e in multiset(entries);
    assert forall e :: e in kept ==> e in multiset(kept) && e in multiset(entries);
    forall e: Entry
      ensures multiset(left)[e] == multiset(kept)[e]
    {
      DistinctOnce(entries, e);
      DistinctOnce(left, e);
      KeysMembers(gone, e.key);
      if e in entries && e.key in KeysOf(gone) {
        var g :| g in gone && g.key == e.key;
        SameKeySameEntry(entries, g, e);
      }
      assert e in left <==> e in multiset(left);
      assert e in entries <==> e in multiset(entries);
    }
  }

  // ---- What a sweep leaves ----

  /** Every entry of the one part is no newer than any of the other. */
  ghost predicate NoNewer(gone: seq<Entry>, kept: seq<Entry>) {
    forall e, k | e in gone && k in kept :: e.ts <= k.ts
  }

  lemma SortedCut(sorted: seq<Entry>, n: nat)
    requires Sorted(sorted) && n <= |sorted|
    ensures NoNewer(sorted[..n], sorted[n..])
    ensures multiset(sorted) == multiset(sorted[..n]) + multiset(sorted[n..])
  {
    assert sorted == sorted[..n] + sorted[n..];
  }

  /** What the limit keeps is the younger part of the sorted entries, in the map's own order. */
  lemma CappedIsYoungerPart(entries: seq<Entry>)
    requires DistinctKeys(entries)
    ensures var sorted, gone := SortByTs(entries), ToEvict(entries);
            && gone <= sorted && Sorted(sorted) && |sorted| == |entries|
            && multiset(Capped(entries)) == multiset(sorted[|gone|..])
            && multiset(entries) == multiset(gone) + multiset(sorted[|gone|..])
  {
    var sorted, gone := SortByTs(entries), ToEvict(entries);
    SortSorts(entries);
    SameLength(sorted, entries);
    SortedCut(sorted, |gone|);
    WithoutPart(entries, gone, sorted[|gone|..]);
  }

  lemma SameMembers(a: seq<Entry>, b: seq<Entry>)
    requires multiset(a) == multiset(b)
    ensures forall e :: e in a <==> e in b
  {
    assert forall e :: e in a <==> e in multiset(a);
    assert forall e :: e in b <==> e in multiset(b);
  }

  /**
   * The hard limit leaves the newest entries: exactly as many as fit when there are too many, all of them otherwise;
   * what it evicts is no newer than anything it keeps.
   */
  lemma CappedKeepsNewest(entries: seq<Entry>)
    requires DistinctKeys(entries)
    ensures |Capped(entries)| == if |entries| > PROMPT_CACHE_MAX_SIZE then PROMPT_CACHE_MAX_SIZE else |entries|
    ensures NoNewer(ToEvict(entries), Capped(entries))
    ensures forall e | e in entries && e !in Capped(entries) :: e in ToEvict(entries)
  {
    var sorted, gone := SortByTs(entries), ToEvict(entries);
    var kept := sorted[|gone|..];
    CappedIsYoungerPart(entries);
    SortedCut(sorted, |gone|);
    SameLength(Capped(entries), kept);
    SameMembers(Capped(entries), kept);
    assert multiset(gone + kept) == multiset(entries);
    SameMembers(gone + kept, entries);
  }

  lemma UnexpiredMembers(entries: seq<Entry>, now: int, e: Entry)
    requires DistinctKeys(entries)
    ensures e in Without(entries, ExpiredKeys(entries, now)) <==> e in entries && !Expired(e, now)
  {
    WithoutMembers(entries, ExpiredKeys(entries, now));
    ExpiredMembers(entries, now, e.key);
    if e in entries && e.key in ExpiredKeys(entries, now) {
      var x :| x in entries && Expired(x, now) && x.key == e.key;
      SameKeySameEntry(entries, x, e);
    }
  }

  /**
   * After a sweep no entry is expired and at most 10000 are left; an unexpired entry is deleted only when more than
   * 10000 are unexpired, and then it is no newer than any entry kept.
   */
  lemma SweepKeepsNewest(entries: seq<Entry>, now: int)
    requires DistinctKeys(entries)
    ensures var left := Swept(entries, now);
            && |left| <= 10_000
            && (forall e | e in left :: e in entries && now - e.ts <= 600_000)
            && (forall e, k | e in entries && now - e.ts <= 600_000 && e !in left && k in left ::
                  e.ts <= k.ts)
            && ((exists e :: e in entries && now - e.ts <= 600_000 && e !in left) ==>
                  |left| == 10_000)
  {
    var fresh' := Without(entries, ExpiredKeys(entries, now));
    WithoutDistinct(entries, ExpiredKeys(entries, now));
    forall e: Entry
      ensures e in fresh' <==> e in entries && !Expired(e, now)
    {
      UnexpiredMembers(entries, now, e);
    }
    CappedKeepsNewest(fresh');
    CapInert(fresh');
    WithoutMembers(fresh', KeysOf(ToEvict(fresh')));
  }

  lemma SweepRemovesKeys(entries: seq<Entry>, now: int)
    ensures Swept(entries, now) == Without(entries, SweptKeys(entries, now))
    ensures KeysOf(Swept(entries, now)) == KeysOf(entries) - SweptKeys(entries, now)
  {
    var expired := ExpiredKeys(entries, now);
    WithoutTwice(entries, expired, KeysOf(ToEvict(Without(entries, expired))));
    KeysWithout(entries, SweptKeys(entries, now));
  }

  lemma {:induction false} KeysWithout(entries: seq<Entry>, keys: set<string>)
    ensures KeysOf(Without(entries, keys)) == KeysOf(entries) - keys
  {
    if entries != [] {
      var front, last := entries[..|entries| - 1], entries[|entries| - 1];
      KeysWithout(front, keys);
      assert (Without(front, keys) + [last])[..|Without(front, keys)|] == Without(front, keys);
    }
  }

  // ---- The module's maps ----

  class SessionCaches {
    var pendingOriginalPrompts: seq<Entry>
    var pendingRecallCache: seq<Entry>
    var pendingRecallEndTimestamps: map<string, int>

    ghost predicate Valid()
      reads this
    {
      DistinctKeys(pendingOriginalPrompts) && DistinctKeys(pendingRecallCache)
    }

    constructor ()
      ensures Valid() && pendingOriginalPrompts == [] && pendingRecallCache == []
      ensures pendingRecallEndTimestamps == map[]
    {
      pendingOriginalPrompts, pendingRecallCache, pendingRecallEndTimestamps := [], [], map[];
    }

    method DeletePrompt(key: string)
      modifies this`pendingOriginalPrompts, this`pendingRecallEndTimestamps
      ensures pendingOriginalPrompts == Without(old(pendingOriginalPrompts), {key})
      ensures pendingRecallEndTimestamps == old(pendingRecallEndTimestamps) - {key}
    {
      pendingOriginalPrompts := Without(pendingOriginalPrompts, {key});
      pendingRecallEndTimestamps := pendingRecallEndTimestamps - {key};
    }

    method DropExpiredPrompts(now: int)
      modifies this`pendingOriginalPrompts, this`pendingRecallEndTimestamps
      ensures pendingOriginalPrompts == Without(old(pendingOriginalPrompts), ExpiredKeys(old(pendingOriginalPrompts), now))
      ensures pendingRecallEndTimestamps == old(pendingRecallEndTimestamps) - ExpiredKeys(old(pendingOriginalPrompts), now)
    {
      var all := pendingOriginalPrompts;
      WithoutNone(all);
      assert ExpiredKeys(all[..0], now) == {};
      for i := 0 to |all|
        invariant pendingOriginalPrompts == Without(all, ExpiredKeys(all[..i], now))
        invariant pendingRecallEndTimestamps == old(pendingRecallEndTimestamps) - ExpiredKeys(all[..i], now)
      {
        ExpiredSnoc(all, i, now);
        if now - all[i].ts > PROMPT_CACHE_TTL_MS {
          WithoutTwice(all, ExpiredKeys(all[..i], now), {all[i].key});
          MinusTwice(old(pendingRecallEndTimestamps), ExpiredKeys(all[..i], now), {all[i].key});
          DeletePrompt(all[i].key);
        }
      }
      assert all[..|all|] == all;
    }

    method CapPrompts()
      modifies this`pendingOriginalPrompts, this`pendingRecallEndTimestamps
      ensures pendingOriginalPrompts == Capped(old(pendingOriginalPrompts))
      ensures pendingRecallEndTimestamps == old(pendingRecallEndTimestamps) - KeysOf(ToEvict(old(pendingOriginalPrompts)))
    {
      var entries := pendingOriginalPrompts;
      CapInert(entries);
      if |entries| <= PROMPT_CACHE_MAX_SIZE {
        return;
      }
      var sorted := SortByTs(entries);
      var toEvict := sorted[..|sorted| - PROMPT_CACHE_MAX_SIZE];
      WithoutNone(entries);
      assert KeysOf(toEvict[..0]) == {};
      for i := 0 to |toEvict|
        invariant pendingOriginalPrompts == Without(entries, KeysOf(toEvict[..i]))
        invariant pendingRecallEndTimestamps == old(pendingRecallEndTimestamps) - KeysOf(toEvict[..i])
      {
        KeysSnoc(toEvict, i);
        WithoutTwice(entries, KeysOf(toEvict[..i]), {toEvict[i].key});
        MinusTwice(old(pendingRecallEndTimestamps), KeysOf(toEvict[..i]), {toEvict[i].key});
        DeletePrompt(toEvict[i].key);
      }
      assert toEvict[..|toEvict|] == toEvict;
    }

    method DropExpiredRecall(now: int)
      modifies this`pendingRecallCache
      ensures pendingRecallCache == Without(old(pendingRecallCache), ExpiredKeys(old(pendingRecallCache), now))
    {
      var all := pendingRecallCache;
      WithoutNone(all);
      assert ExpiredKeys(all[..0], now) == {};
      for i := 0 to |all|
        invariant pendingRecallCache == Without(all, ExpiredKeys(all[..i], now))
      {
        ExpiredSnoc(all, i, now);
        if now - all[i].ts > PROMPT_CACHE_TTL_MS {
          WithoutTwice(all, ExpiredKeys(all[..i], now), {all[i].key});
          pendingRecallCache := Without(pendingRecallCache, {all[i].key});
        }
      }
      assert all[..|all|] == all;
    }

    method CapRecall()
      modifies this`pendingRecallCache
      ensures pendingRecallCache == Capped(old(pendingRecallCache))
    {
      var entries := pendingRecallCache;
      CapInert(entries);
      if |entries| <= PROMPT_CACHE_MAX_SIZE {
        return;
      }
      var sorted := SortByTs(entries);
      var toEvict := sorted[..|sorted| - PROMPT_CACHE_MAX_SIZE];
      WithoutNone(entries);
      assert KeysOf(toEvict[..0]) == {};
      for i := 0 to |toEvict|
        invariant pendingRecallCache == Without(entries, KeysOf(toEvict[..i]))
      {
        KeysSnoc(toEvict, i);
        WithoutTwice(entries, KeysOf(toEvict[..i]), {toEvict[i].key});
        pendingRecallCache := Without(pendingRecallCache, {toEvict[i].key});
      }
      assert toEvict[..|toEvict|] == toEvict;
    }

    /** If each recall-end key had a prompt entry before the sweep, it still has one after. */
    method SweepStaleCaches(now: int)
      requires Valid()
      modifies this
      ensures Valid()
      ensures pendingOriginalPrompts == Swept(old(pendingOriginalPrompts), now)
      ensures pendingRecallCache == Swept(old(pendingRecallCache), now)
      ensures pendingRecallEndTimestamps
           == old(pendingRecallEndTimestamps) - SweptKeys(old(pendingOriginalPrompts), now)
      ensures old(pendingRecallEndTimestamps.Keys <= KeysOf(pendingOriginalPrompts))
              ==> pendingRecallEndTimestamps.Keys <= KeysOf(pendingOriginalPrompts)
    {
      SweepRemovesKeys(pendingOriginalPrompts, now);
      SweepRemovesKeys(pendingRecallCache, now);
      WithoutDistinct(pendingOriginalPrompts, SweptKeys(pendingOriginalPrompts, now));
      WithoutDistinct(pendingRecallCache, SweptKeys(pendingRecallCache, now));
      DropExpiredPrompts(now);
      DropExpiredRecall(now);
      CapPrompts();
      CapRecall();
    }
  }

  lemma {:induction false} WithoutNone(entries: seq<Entry>)
    ensures Without(entries, {}) == entries
  {
    if entries != [] {
      WithoutNone(entries[..|entries| - 1]);
    }
  }

  lemma ExpiredSnoc(entries: seq<Entry>, i: nat, now: int)
    requires i < |entries|
    ensures var before, after := ExpiredKeys(entries[..i], now), ExpiredKeys(entries[..i + 1], now);
            after == if Expired(entries[i], now) then before + {entries[i].key} else before
  {
    assert entries[..i + 1][..i] == entries[..i];
  }

  lemma MinusTwice(m: map<string, int>, a: set<string>, b: set<string>)
    ensures (m - a) - b == m - (a + b)
  {
  }

  lemma KeysSnoc(entries: seq<Entry>, i: nat)
    requires i < |entries|
    ensures KeysOf(entries[..i + 1]) == KeysOf(entries[..i]) + {entries[i].key}
  {
    assert entries[..i + 1][..i] == entries[..i];
  }

  lemma SameLength(a: seq<Entry>, b: seq<Entry>)
    requires multiset(a) == multiset(b)
    ensures |a| == |b|
  {
    assert |multiset(a)| == |a| && |multiset(b)| == |b|;
  }

  lemma CapInert(entries: seq<Entry>)
    ensures |entries| <= PROMPT_CACHE_MAX_SIZE ==> Capped(entries) == entries
    ensures |SortByTs(entries)| == |entries|
  {
    SortSorts(entries);
    SameLength(SortByTs(entries), entries);
    WithoutNone(entries);
    assert KeysOf([]) == {};
  }
}
