/**
 * The lease lock: set if absent with a time to live, renew and release by the owner only
 * (MemoryCore/scripts/bench-checkpoint-lock.ts:50-75).
 */
module LeaseLock {
  type Key = string
  type Owner = string

  datatype Lease = Lease(owner: Owner, expiry: int)

  /** A lease that was granted: who held it, from when, and until when as renewals and releases left it. */
  datatype Grant = Grant(owner: Owner, from: int, until: int)

  /** The stored keys, the latest time seen, and the leases granted on each key so far. */
  datatype State = State(locks: map<Key, Lease>, clock: int, history: map<Key, seq<Grant>>)

  datatype Op = Acquire(ttl: int) | Renew(ttl: int) | Release

  /** A client's request for a key; the store answers it at time `at`. */
  datatype Event = Event(key: Key, owner: Owner, op: Op, at: int)

  /** A key whose time to live is over is as good as absent. */
  predicate Live(s: State, key: Key, now: int) {
    key in s.locks && now < s.locks[key].expiry
  }

  predicate HeldBy(s: State, key: Key, owner: Owner, now: int) {
    Live(s, key, now) && s.locks[key].owner == owner
  }

  function GrantsOf(s: State, key: Key): seq<Grant> {
    if key in s.history then s.history[key] else []
  }

  /** The grants with the end of the current one moved. */
  function EndingAt(grants: seq<Grant>, until: int): seq<Grant> {
    if grants == [] then [] else grants[|grants| - 1 := grants[|grants| - 1].(until := until)]
  }

  /** Whether the store grants the request. Setting a key with no time to live is an error, hence a refusal. */
  predicate Granted(s: State, e: Event) {
    match e.op
    case Acquire(ttl) => ttl > 0 && !Live(s, e.key, e.at)
    case _ => HeldBy(s, e.key, e.owner, e.at)
  }

  function Step(s: State, e: Event): State {
    var s1 := s.(clock := e.at);
    if !Granted(s, e) then s1
    else
      var grants := GrantsOf(s, e.key);
      match e.op
      case Acquire(ttl) =>
        s1.(locks := s.locks[e.key := Lease(e.owner, e.at + ttl)],
            history := s.history[e.key := grants + [Grant(e.owner, e.at, e.at + ttl)]])
      case Renew(ttl) =>
        if ttl <= 0 then s1.(locks := s.locks - {e.key}, history := s.history[e.key := EndingAt(grants, e.at)])
        else s1.(locks := s.locks[e.key := Lease(e.owner, e.at + ttl)],
                 history := s.history[e.key := EndingAt(grants, e.at + ttl)])
      case Release =>
        s1.(locks := s.locks - {e.key}, history := s.history[e.key := EndingAt(grants, e.at)])
  }

  function Start(clock: int): State {
    State(map[], clock, map[])
  }

  function Run(clock: int, events: seq<Event>): State {
    if events == [] then Start(clock) else Step(Run(clock, events[..|events| - 1]), events[|events| - 1])
  }

  /** Time never runs backwards. */
  ghost predicate Timely(clock: int, events: seq<Event>) {
    && (events != [] ==> clock <= events[0].at)
    && (forall i :: 0 < i < |events| ==> events[i - 1].at <= events[i].at)
  }

  // ---- Exclusion ----

  /** Each lease ends before the next one starts. */
  ghost predicate Chained(grants: seq<Grant>) {
    && (forall i, j :: 0 <= i < j < |grants| ==> grants[i].until <= grants[j].from)
    && (forall g | g in grants :: g.from <= g.until)
  }

  /** The last grant is the stored lease while that is live, and over otherwise. */
  ghost predicate Current(s: State, key: Key) {
    var grants := GrantsOf(s, key);
    && Chained(grants)
    && (grants != [] ==> grants[|grants| - 1].from <= s.clock)
    && (if Live(s, key, s.clock) then
          grants != [] && grants[|grants| - 1].owner == s.locks[key].owner
          && grants[|grants| - 1].until == s.locks[key].expiry
        else grants != [] ==> grants[|grants| - 1].until <= s.clock)
  }

  ghost predicate Inv(s: State) {
    forall key :: Current(s, key)
  }

  lemma AppendChained(grants: seq<Grant>, g: Grant)
    requires Chained(grants) && g.from <= g.until
    requires grants != [] ==> grants[|grants| - 1].until <= g.from
    ensures Chained(grants + [g])
  {
    forall i | 0 <= i < |grants|
      ensures grants[i].until <= g.from
    {
      assert grants[|grants| - 1] in grants;
    }
  }

  lemma MoveEndChained(grants: seq<Grant>, until: int)
    requires Chained(grants) && grants != [] && grants[|grants| - 1].from <= until
    ensures Chained(EndingAt(grants, until))
  {
    var moved := EndingAt(grants, until);
    forall g | g in moved
      ensures g.from <= g.until
    {
      var i :| 0 <= i < |moved| && moved[i] == g;
      assert grants[i] in grants;
    }
  }

  lemma AcquireKeepsCurrent(s: State, e: Event)
    requires Current(s, e.key) && s.clock <= e.at && e.op.Acquire? && Granted(s, e)
    ensures Current(Step(s, e), e.key)
  {
    AppendChained(GrantsOf(s, e.key), Grant(e.owner, e.at, e.at + e.op.ttl));
  }

  lemma RenewKeepsCurrent(s: State, e: Event)
    requires Current(s, e.key) && s.clock <= e.at && e.op.Renew? && Granted(s, e)
    ensures Current(Step(s, e), e.key)
  {
    MoveEndChained(GrantsOf(s, e.key), if e.op.ttl <= 0 then e.at else e.at + e.op.ttl);
  }

  lemma ReleaseKeepsCurrent(s: State, e: Event)
    requires Current(s, e.key) && s.clock <= e.at && e.op.Release? && Granted(s, e)
    ensures Current(Step(s, e), e.key)
  {
    MoveEndChained(GrantsOf(s, e.key), e.at);
  }

  lemma StepKeepsCurrent(s: State, e: Event, key: Key)
    requires Current(s, key) && s.clock <= e.at
    ensures Current(Step(s, e), key)
  {
    if key == e.key && Granted(s, e) {
      match e.op
      case Acquire(_) => AcquireKeepsCurrent(s, e);
      case Renew(_) => RenewKeepsCurrent(s, e);
      case Release => ReleaseKeepsCurrent(s, e);
    } else {
      assert GrantsOf(Step(s, e), key) == GrantsOf(s, key);
    }
  }

  lemma {:induction false} EveryRunKeepsInv(clock: int, events: seq<Event>)
    requires Timely(clock, events)
    ensures Inv(Run(clock, events))
    ensures Run(clock, events).clock == if events == [] then clock else events[|events| - 1].at
  {
    if events != [] {
      var before, e := events[..|events| - 1], events[|events| - 1];
      EveryRunKeepsInv(clock, before);
      forall key
        ensures Current(Run(clock, events), key)
      {
        StepKeepsCurrent(Run(clock, before), e, key);
      }
    }
  }

  /** In every run no two leases on one key overlap in time. */
  lemma LeasesNeverOverlap(clock: int, events: seq<Event>, key: Key, i: nat, j: nat, t: int)
    requires Timely(clock, events)
    requires i < j < |GrantsOf(Run(clock, events), key)|
    ensures var g, h := GrantsOf(Run(clock, events), key)[i], GrantsOf(Run(clock, events), key)[j];
            !(g.from <= t < g.until && h.from <= t < h.until)
  {
    EveryRunKeepsInv(clock, events);
    assert Current(Run(clock, events), key);
  }

  /** Whoever holds the key now holds the last lease granted on it, and that lease covers the present moment. */
  lemma HolderHasTheLastLease(clock: int, events: seq<Event>, key: Key)
    requires Timely(clock, events)
    ensures var s := Run(clock, events);
            Live(s, key, s.clock) ==>
              var grants := GrantsOf(s, key);
              && grants != [] && grants[|grants| - 1].owner == s.locks[key].owner
              && grants[|grants| - 1].from <= s.clock < grants[|grants| - 1].until == s.locks[key].expiry
  {
    EveryRunKeepsInv(clock, events);
    assert Current(Run(clock, events), key);
  }

  /**
   * In every run a lease is granted exactly when it asks for time and the last one granted on the key is over, and it
   * runs for just that time.
   */
  lemma GrantedIffFree(clock: int, events: seq<Event>, e: Event)
    requires Timely(clock, events) && e.op.Acquire? && Run(clock, events).clock <= e.at
    ensures var grants := GrantsOf(Run(clock, events), e.key);
            GrantsOf(Run(clock, events + [e]), e.key)
            == if e.op.ttl > 0 && (grants == [] || grants[|grants| - 1].until <= e.at)
               then grants + [Grant(e.owner, e.at, e.at + e.op.ttl)] else grants
  {
    EveryRunKeepsInv(clock, events);
    assert Current(Run(clock, events), e.key);
    RunSnoc(clock, events, e);
  }

  // ---- Ownership ----

  /**
   * While a lease is live, a request by another owner, of whatever kind, changes no lease; only its own owner's
   * release, or a renewal with no time to live, ends it before it expires.
   */
  lemma OnlyOwnerEndsLease(s: State, e: Event, key: Key, owner: Owner)
    requires HeldBy(s, key, owner, e.at)
    ensures e.key == key && e.owner != owner ==>
              !Granted(s, e) && Step(s, e).locks == s.locks && Step(s, e).history == s.history
    ensures HeldBy(Step(s, e), key, owner, e.at)
       <==> !(e.key == key && e.owner == owner && (e.op.Release? || (e.op.Renew? && e.op.ttl <= 0)))
    ensures e.key == key && e.owner == owner && e.op.Renew? && e.op.ttl > 0 ==>
              Step(s, e).locks[key].expiry == e.at + e.op.ttl
  {
  }

  /** The request does not end the owner's lease: it is no release of theirs, and no renewal without time to live. */
  predicate Spares(e: Event, key: Key, owner: Owner) {
    !(e.key == key && e.owner == owner && (e.op.Release? || (e.op.Renew? && e.op.ttl <= 0)))
  }

  /** When the lease ends after these requests: as first granted, or as its owner renewed it last. */
  function ExpiryAfter(expiry: int, events: seq<Event>, key: Key, owner: Owner): int {
    if events == [] then expiry
    else
      var e := events[|events| - 1];
      if e.key == key && e.owner == owner && e.op.Renew? then e.at + e.op.ttl
      else ExpiryAfter(expiry, events[..|events| - 1], key, owner)
  }

  /** Every request is answered while the lease still runs, and spares it. */
  ghost predicate AllSpare(expiry: int, events: seq<Event>, key: Key, owner: Owner) {
    events != [] ==>
      var before, e := events[..|events| - 1], events[|events| - 1];
      && AllSpare(expiry, before, key, owner)
      && Spares(e, key, owner) && e.at < ExpiryAfter(expiry, before, key, owner)
  }

  lemma RunSnoc(clock: int, events: seq<Event>, e: Event)
    ensures Run(clock, events + [e]) == Step(Run(clock, events), e)
  {
    assert (events + [e])[..|events|] == events;
  }

  lemma SparedStep(s: State, e: Event, key: Key, owner: Owner)
    requires HeldBy(s, key, owner, e.at) && Spares(e, key, owner)
    ensures key in Step(s, e).locks
    ensures Step(s, e).locks[key]
         == Lease(owner, if e.key == key && e.owner == owner && e.op.Renew? then e.at + e.op.ttl else s.locks[key].expiry)
  {
  }

  /**
   * In every run a lease, once granted, stays its owner's until it expires, whatever others request, unless the
   * owner releases it or renews it without time to live.
   */
  lemma {:induction false} LeaseRunsToItsEnd(clock: int, before: seq<Event>, after: seq<Event>, key: Key, owner: Owner)
    requires var s := Run(clock, before); key in s.locks && s.locks[key].owner == owner
    requires AllSpare(Run(clock, before).locks[key].expiry, after, key, owner)
    ensures var s := Run(clock, before + after);
            && key in s.locks
            && s.locks[key] == Lease(owner, ExpiryAfter(Run(clock, before).locks[key].expiry, after, key, owner))
    decreases |after|
  {
    if after == [] {
      assert before + after == before;
    } else {
      var front, e := after[..|after| - 1], after[|after| - 1];
      LeaseRunsToItsEnd(clock, before, front, key, owner);
      assert before + after == before + front + [e];
      RunSnoc(clock, before + front, e);
      SparedStep(Run(clock, before + front), e, key, owner);
    }
  }

  /** The first request, while the lease runs, that does not spare it ends it, and no other does. */
  lemma LeaseEndsIff(clock: int, before: seq<Event>, after: seq<Event>, e: Event, key: Key, owner: Owner)
    requires var s := Run(clock, before); key in s.locks && s.locks[key].owner == owner
    requires AllSpare(Run(clock, before).locks[key].expiry, after, key, owner)
    requires e.at < ExpiryAfter(Run(clock, before).locks[key].expiry, after, key, owner)
    ensures HeldBy(Run(clock, before + after + [e]), key, owner, e.at) <==> Spares(e, key, owner)
  {
    LeaseRunsToItsEnd(clock, before, after, key, owner);
    RunSnoc(clock, before + after, e);
    OnlyOwnerEndsLease(Run(clock, before + after), e, key, owner);
  }

  // ---- The store ----

  class LockStore {
    var locks: map<Key, Lease>
    ghost var clock: int
    ghost var history: map<Key, seq<Grant>>

    ghost function View(): State
      reads this
    {
      State(locks, clock, history)
    }

    constructor (ghost clock: int)
      ensures View() == Start(clock)
    {
      locks := map[];
      this.clock, history := clock, map[];
    }

    method AcquireLock(key: Key, owner: Owner, ttl: int, now: int) returns (ok: bool)
      modifies this
      ensures ok == Granted(old(View()), Event(key, owner, Acquire(ttl), now))
      ensures View() == Step(old(View()), Event(key, owner, Acquire(ttl), now))
    {
      clock := now;
      if ttl <= 0 || (key in locks && now < locks[key].expiry) {
        return false;
      }
      history := history[key := (if key in history then history[key] else []) + [Grant(owner, now, now + ttl)]];
      locks := locks[key := Lease(owner, now + ttl)];
      ok := true;
    }

    method RenewLock(key: Key, owner: Owner, ttl: int, now: int) returns (ok: bool)
      modifies this
      ensures ok == Granted(old(View()), Event(key, owner, Renew(ttl), now))
      ensures View() == Step(old(View()), Event(key, owner, Renew(ttl), now))
    {
      clock := now;
      if key !in locks || now >= locks[key].expiry || locks[key].owner != owner {
        return false;
      }
      ghost var grants := if key in history then history[key] else [];
      if ttl <= 0 {
        locks := locks - {key};
        history := history[key := EndingAt(grants, now)];
      } else {
        locks := locks[key := Lease(owner, now + ttl)];
        history := history[key := EndingAt(grants, now + ttl)];
      }
      ok := true;
    }

    method ReleaseLock(key: Key, owner: Owner, now: int)
      modifies this
      ensures View() == Step(old(View()), Event(key, owner, Release, now))
    {
      clock := now;
      if key in locks && now < locks[key].expiry && locks[key].owner == owner {
        history := history[key := EndingAt(if key in history then history[key] else [], now)];
        locks := locks - {key};
      }
    }
  }
}
