/**
 * What the lease protects: the read-modify-write of a shared checkpoint object under the lock
 * (MemoryCore/src/utils/checkpoint.ts:358-477). A write replaces the whole object by the snapshot read plus the
 * writer's update. Renewal runs beside it; the write itself does not look at the lease.
 */
module CheckpointWrites {
  import opened LeaseLock

  const KEY: Key := "checkpoint"

  /** Where a manager stands in one mutate call; the snapshot is what it read. */
  datatype Phase<T> = Idle | Locked | HasRead(snapshot: seq<T>) | Written

  /** The lock, the stored object as the updates it contains, every update ever written, and the managers. */
  datatype World<T> = World(lock: State, store: seq<T>, committed: seq<T>, managers: map<Owner, Phase<T>>)

  datatype Action<T> =
    | TryLock(ttl: int)
    | Keep(ttl: int)
    | Read
    | Write(update: T)
    | Unlock
    | Leave

  datatype Move<T> = Move(owner: Owner, action: Action<T>, at: int)

  function PhaseOf<T>(w: World<T>, owner: Owner): Phase<T> {
    if owner in w.managers then w.managers[owner] else Idle
  }

  function Enter<T>(w: World<T>, owner: Owner, phase: Phase<T>): World<T> {
    w.(managers := w.managers[owner := phase])
  }

  /** One move of one manager; a move its phase does not allow only lets the time pass. */
  function Next<T>(w: World<T>, m: Move<T>): World<T> {
    var idle := w.(lock := w.lock.(clock := m.at));
    var phase := PhaseOf(w, m.owner);
    match m.action
    case TryLock(ttl) =>
      var e := Event(KEY, m.owner, Acquire(ttl), m.at);
      if !phase.Idle? then idle
      else if Granted(w.lock, e) then Enter(w.(lock := Step(w.lock, e)), m.owner, Locked)
      else idle
    case Keep(ttl) =>
      if phase.Idle? then idle else w.(lock := Step(w.lock, Event(KEY, m.owner, Renew(ttl), m.at)))
    case Read => if phase.Locked? then Enter(idle, m.owner, HasRead(w.store)) else idle
    case Write(update) =>
      if phase.HasRead? then
        Enter(idle.(store := phase.snapshot + [update], committed := w.committed + [update]), m.owner, Written)
      else idle
    case Unlock =>
      if phase.Idle? then idle
      else Enter(w.(lock := Step(w.lock, Event(KEY, m.owner, Release, m.at))), m.owner, Idle)
    case Leave => if phase.Idle? then idle else Enter(idle, m.owner, Idle)
  }

  function Begin<T>(clock: int): World<T> {
    World(Start(clock), [], [], map[])
  }

  function Play<T>(clock: int, moves: seq<Move<T>>): World<T> {
    if moves == [] then Begin(clock) else Next(Play(clock, moves[..|moves| - 1]), moves[|moves| - 1])
  }

  // ---- How the lock passes on ----

  /** Whoever unlocks hands over at once: the next manager to try gets the lock, and could not have before. */
  lemma UnlockHandsOver<T>(w: World<T>, a: Owner, b: Owner, ttl: int, at: int)
    requires a != b && !PhaseOf(w, a).Idle? && HeldBy(w.lock, KEY, a, at)
    requires PhaseOf(w, b).Idle? && ttl > 0
    ensures PhaseOf(Next(w, Move(b, TryLock(ttl), at)), b) == Idle
    ensures var w' := Next(Next(w, Move(a, Unlock, at)), Move(b, TryLock(ttl), at));
            PhaseOf(w', a) == Idle && PhaseOf(w', b) == Locked && HeldBy(w'.lock, KEY, b, at)
  {
  }

  /** Whoever leaves without unlocking blocks the others until the lease runs out. */
  lemma LeavingBlocks<T>(w: World<T>, a: Owner, b: Owner, ttl: int, at: int, later: int)
    requires a != b && !PhaseOf(w, a).Idle? && HeldBy(w.lock, KEY, a, at)
    requires PhaseOf(w, b).Idle? && ttl > 0
    ensures var w' := Next(w, Move(a, Leave, at));
            && PhaseOf(w', a) == Idle
            && (PhaseOf(Next(w', Move(b, TryLock(ttl), later)), b) == Locked <==> later >= w.lock.locks[KEY].expiry)
  {
  }

  /** The heartbeat moves the end of the lease while it runs, and does nothing once it is over. */
  lemma KeepExtends<T>(w: World<T>, a: Owner, ttl: int, at: int, later: int)
    requires !PhaseOf(w, a).Idle? && ttl > 0 && at <= later
    ensures HeldBy(Next(w, Move(a, Keep(ttl), at)).lock, KEY, a, later)
       <==> HeldBy(w.lock, KEY, a, at) && later < at + ttl
  {
  }

  /** A move whose turn it is: to lock outside a call, to read with the lock, to write once read, the rest in a call. */
  ghost predicate InTurn<T>(phase: Phase<T>, action: Action<T>) {
    match action
    case TryLock(_) => phase == Idle
    case Read => phase == Locked
    case Write(_) => phase.HasRead?
    case _ => phase != Idle
  }

  /** Out of turn nothing happens but the passing of time. */
  lemma OutOfTurn<T>(w: World<T>, m: Move<T>)
    requires !InTurn(PhaseOf(w, m.owner), m.action)
    ensures Next(w, m) == World(State(w.lock.locks, m.at, w.lock.history), w.store, w.committed, w.managers)
  {
  }

  // ---- When no update is lost ----

  predicate Reads<T>(w: World<T>, m: Move<T>) {
    m.action.Read? && PhaseOf(w, m.owner).Locked?
  }

  predicate Writes<T>(w: World<T>, m: Move<T>) {
    m.action.Write? && PhaseOf(w, m.owner).HasRead?
  }

  /** Something has been written since the owner last read. */
  predicate Overtaken<T>(clock: int, moves: seq<Move<T>>, owner: Owner) {
    if moves == [] then false
    else
      var before, m := moves[..|moves| - 1], moves[|moves| - 1];
      var w := Play(clock, before);
      if m.owner == owner && Reads(w, m) then false
      else Writes(w, m) || Overtaken(clock, before, owner)
  }

  /** No write comes after another write made since its own read. */
  predicate Fresh<T>(clock: int, moves: seq<Move<T>>) {
    moves != [] ==>
      var before, m := moves[..|moves| - 1], moves[|moves| - 1];
      Fresh(clock, before) && (Writes(Play(clock, before), m) ==> !Overtaken(clock, before, m.owner))
  }

  /** Nothing is missing, and a snapshot is what had been written by the time it was read. */
  ghost predicate Complete<T>(w: World<T>, overtaken: Owner -> bool) {
    && w.store == w.committed
    && forall owner :: PhaseOf(w, owner).HasRead? ==>
         var snapshot := PhaseOf(w, owner).snapshot;
         snapshot <= w.committed && (overtaken(owner) <==> |snapshot| < |w.committed|)
  }

  /** Something is missing from the object and from every snapshot still to be written back. */
  ghost predicate Lossy<T>(w: World<T>) {
    && |w.store| < |w.committed|
    && forall owner :: PhaseOf(w, owner).HasRead? ==> |PhaseOf(w, owner).snapshot| < |w.committed|
  }

  lemma NextCompleteAt<T>(w: World<T>, m: Move<T>, owner: Owner, overtaken: bool)
    requires w.store == w.committed
    requires PhaseOf(w, owner).HasRead? ==>
               PhaseOf(w, owner).snapshot <= w.committed
               && (overtaken <==> |PhaseOf(w, owner).snapshot| < |w.committed|)
    ensures PhaseOf(Next(w, m), owner).HasRead? ==>
              var snapshot, overtaken' := PhaseOf(Next(w, m), owner).snapshot,
                                          !(m.owner == owner && Reads(w, m)) && (Writes(w, m) || overtaken);
              && snapshot <= Next(w, m).committed
              && (overtaken' <==> |snapshot| < |Next(w, m).committed|)
  {
  }

  lemma NextLossy<T>(w: World<T>, m: Move<T>)
    requires Lossy(w)
    ensures Lossy(Next(w, m))
  {
    forall owner | PhaseOf(Next(w, m), owner).HasRead?
      ensures |PhaseOf(Next(w, m), owner).snapshot| < |Next(w, m).committed|
    {
      if owner != m.owner {
        assert PhaseOf(w, owner) == PhaseOf(Next(w, m), owner);
      }
    }
  }

  lemma StaleWriteLoses<T>(w: World<T>, m: Move<T>, overtaken: Owner -> bool)
    requires Complete(w, overtaken) && Writes(w, m) && overtaken(m.owner)
    ensures Lossy(Next(w, m))
  {
    forall owner | PhaseOf(Next(w, m), owner).HasRead?
      ensures |PhaseOf(Next(w, m), owner).snapshot| < |Next(w, m).committed|
    {
      assert PhaseOf(w, owner) == PhaseOf(Next(w, m), owner);
    }
  }

  lemma FreshWriteKeeps<T>(w: World<T>, m: Move<T>, overtaken: Owner -> bool)
    requires Complete(w, overtaken) && (Writes(w, m) ==> !overtaken(m.owner))
    ensures Next(w, m).store == Next(w, m).committed
  {
  }

  lemma {:induction false} EveryRunCompleteOrLossy<T>(clock: int, moves: seq<Move<T>>)
    ensures var w := Play(clock, moves);
            if Fresh(clock, moves) then Complete(w, owner => Overtaken(clock, moves, owner)) else Lossy(w)
  {
    if moves != [] {
      var before, m := moves[..|moves| - 1], moves[|moves| - 1];
      var w := Play(clock, before);
      EveryRunCompleteOrLossy(clock, before);
      if !Fresh(clock, before) {
        NextLossy(w, m);
      } else if Writes(w, m) && Overtaken(clock, before, m.owner) {
        StaleWriteLoses(w, m, owner => Overtaken(clock, before, owner));
      } else {
        FreshWriteKeeps(w, m, owner => Overtaken(clock, before, owner));
        forall owner
          ensures PhaseOf(Next(w, m), owner).HasRead? ==>
                    PhaseOf(Next(w, m), owner).snapshot <= Next(w, m).committed
                    && (Overtaken(clock, moves, owner)
                        <==> |PhaseOf(Next(w, m), owner).snapshot| < |Next(w, m).committed|)
        {
          NextCompleteAt(w, m, owner, Overtaken(clock, before, owner));
        }
      }
    }
  }

  /** In every run the object holds every update ever written exactly when no write was overtaken since its read. */
  lemma NothingLostIff<T>(clock: int, moves: seq<Move<T>>)
    ensures Play(clock, moves).store == Play(clock, moves).committed <==> Fresh(clock, moves)
  {
    EveryRunCompleteOrLossy(clock, moves);
  }

  // ---- What the lease contributes ----

  /** Time does not run backwards, and no write comes after its lease has run out. */
  ghost predicate Disciplined<T>(clock: int, moves: seq<Move<T>>) {
    moves != [] ==>
      var before, m := moves[..|moves| - 1], moves[|moves| - 1];
      var w := Play(clock, before);
      && Disciplined(clock, before)
      && w.lock.clock <= m.at
      && (Writes(w, m) ==> HeldBy(w.lock, KEY, m.owner, m.at))
  }

  /** Whoever has read and still holds the lease has not been overtaken. */
  ghost predicate HolderFirst<T>(clock: int, moves: seq<Move<T>>, owner: Owner) {
    var w := Play(clock, moves);
    PhaseOf(w, owner).HasRead? && HeldBy(w.lock, KEY, owner, w.lock.clock) ==> !Overtaken(clock, moves, owner)
  }

  lemma StillHeld<T>(w: World<T>, m: Move<T>, owner: Owner)
    requires w.lock.clock <= m.at && PhaseOf(Next(w, m), owner).HasRead?
    requires HeldBy(Next(w, m).lock, KEY, owner, Next(w, m).lock.clock)
    requires !(owner == m.owner && Reads(w, m))
    ensures PhaseOf(w, owner) == PhaseOf(Next(w, m), owner)
    ensures HeldBy(w.lock, KEY, owner, w.lock.clock)
    ensures HeldBy(w.lock, KEY, owner, m.at)
  {
  }

  lemma NextHolderFirst<T>(clock: int, moves: seq<Move<T>>, owner: Owner)
    requires moves != [] && Disciplined(clock, moves) && HolderFirst(clock, moves[..|moves| - 1], owner)
    ensures HolderFirst(clock, moves, owner)
  {
    var before, m := moves[..|moves| - 1], moves[|moves| - 1];
    var w := Play(clock, before);
    if PhaseOf(Next(w, m), owner).HasRead? && HeldBy(Next(w, m).lock, KEY, owner, Next(w, m).lock.clock)
       && !(owner == m.owner && Reads(w, m)) {
      StillHeld(w, m, owner);
    }
  }

  lemma {:induction false} LeaseKeepsFresh<T>(clock: int, moves: seq<Move<T>>, owner: Owner)
    requires Disciplined(clock, moves)
    ensures Fresh(clock, moves) && HolderFirst(clock, moves, owner)
  {
    if moves != [] {
      var before, m := moves[..|moves| - 1], moves[|moves| - 1];
      LeaseKeepsFresh(clock, before, owner);
      NextHolderFirst(clock, moves, owner);
      if Writes(Play(clock, before), m) {
        LeaseKeepsFresh(clock, before, m.owner);
        LiveEarlier(Play(clock, before), m);
      }
    }
  }

  lemma LiveEarlier<T>(w: World<T>, m: Move<T>)
    requires w.lock.clock <= m.at && HeldBy(w.lock, KEY, m.owner, m.at)
    ensures HeldBy(w.lock, KEY, m.owner, w.lock.clock)
  {
  }

  /** As long as every write comes before its lease runs out, no write is overtaken and no update is ever lost. */
  lemma NoLostUpdate<T>(clock: int, moves: seq<Move<T>>)
    requires Disciplined(clock, moves)
    ensures Fresh(clock, moves) && Play(clock, moves).store == Play(clock, moves).committed
  {
    LeaseKeepsFresh(clock, moves, "");
    NothingLostIff(clock, moves);
  }

  /** A holds the lock for 60 s, stalls, and writes at 80 s what it read at 1 s; B has written in between. */
  function StalledWriter(): seq<Move<int>> {
    [Move("A", TryLock(60_000), 0), Move("A", Read, 1_000),
     Move("B", TryLock(60_000), 61_000), Move("B", Read, 62_000), Move("B", Write(2), 63_000),
     Move("B", Unlock, 64_000),
     Move("A", Write(1), 80_000)]
  }

  /** The lease, the two managers and the object at one point of that run. */
  ghost predicate Scene(w: World<int>, lease: Lease, a: Phase<int>, b: Phase<int>, store: seq<int>,
                        committed: seq<int>)
  {
    && KEY in w.lock.locks && w.lock.locks[KEY] == lease
    && PhaseOf(w, "A") == a && PhaseOf(w, "B") == b
    && w.store == store && w.committed == committed
  }

  lemma PlayPrefix(n: nat)
    requires n < 7
    ensures Play(0, StalledWriter()[..n + 1]) == Next(Play(0, StalledWriter()[..n]), StalledWriter()[n])
  {
    assert StalledWriter()[..n + 1][..n] == StalledWriter()[..n];
  }

  lemma FirstReads()
    ensures Scene(Play(0, StalledWriter()[..2]), Lease("A", 60_000), HasRead([]), Idle, [], [])
  {
    assert StalledWriter()[..0] == [];
    PlayPrefix(0);
    assert Scene(Play(0, StalledWriter()[..1]), Lease("A", 60_000), Locked, Idle, [], []);
    PlayPrefix(1);
  }

  lemma SecondLocks()
    ensures Scene(Play(0, StalledWriter()[..3]), Lease("B", 121_000), HasRead([]), Locked, [], [])
  {
    FirstReads();
    PlayPrefix(2);
  }

  lemma SecondReads()
    ensures Scene(Play(0, StalledWriter()[..4]), Lease("B", 121_000), HasRead([]), HasRead([]), [], [])
  {
    SecondLocks();
    PlayPrefix(3);
  }

  lemma SecondWrites()
    ensures Scene(Play(0, StalledWriter()[..5]), Lease("B", 121_000), HasRead([]), Written, [2], [2])
  {
    SecondReads();
    PlayPrefix(4);
    assert [] + [2] == [2];
  }

  lemma SecondUnlocks()
    ensures var w := Play(0, StalledWriter()[..6]); PhaseOf(w, "A") == HasRead([]) && w.committed == [2]
  {
    SecondWrites();
    PlayPrefix(5);
  }

  /** Without that discipline B's accepted update disappears: the lease is not checked when A writes. */
  lemma StalledWriterLosesUpdate()
    ensures var w := Play(0, StalledWriter()); w.committed == [2, 1] && w.store == [1]
  {
    SecondUnlocks();
    PlayPrefix(6);
    assert StalledWriter()[..7] == StalledWriter();
    assert [] + [1] == [1] && [2] + [1] == [2, 1];
  }
}
