/**
 * The batch writers of the proxy (MemoryProxy/src/clickhouse.ts:826-869, 1118-1218). Flushes may overlap; a failed
 * batch goes back in front of the buffer, and only there is the buffer trimmed, by replacing the array.
 */
module ProxyWriter {
  import opened JsText
  import opened Subsequences

  const OVERFLOW: nat := 10_000
  const RETAINED: nat := 5_000

  /** The module's variables for one table, with the history of what was pushed, inserted and dropped. */
  datatype State<T> = State(
    buffer: seq<T>, connected: bool, flights: seq<seq<T>>, pushed: seq<T>, inserted: seq<T>, dropped: multiset<T>)

  /** An outcome names its flight by its position among those still under way. */
  datatype Event<T> = Connect(up: bool) | Push(row: T) | Flush | InsertOk(flight: nat) | InsertFail(flight: nat)

  function Requeued<T>(rows: seq<T>): seq<T> {
    if |rows| > OVERFLOW then rows[|rows| - RETAINED..] else rows
  }

  function StartFlush<T>(s: State<T>): State<T> {
    if !s.connected || s.buffer == [] then s else s.(buffer := [], flights := s.flights + [s.buffer])
  }

  function Without<T>(flights: seq<seq<T>>, i: nat): seq<seq<T>>
    requires i < |flights|
  {
    flights[..i] + flights[i + 1..]
  }

  function Step<T>(s: State<T>, e: Event<T>, threshold: int): State<T> {
    match e
    case Connect(up) => s.(connected := up)
    case Push(row) =>
      var pushed := s.(buffer := s.buffer + [row], pushed := s.pushed + [row]);
      if |pushed.buffer| >= threshold then StartFlush(pushed) else pushed
    case Flush => StartFlush(s)
    case InsertOk(i) =>
      if i < |s.flights| then s.(flights := Without(s.flights, i), inserted := s.inserted + s.flights[i]) else s
    case InsertFail(i) =>
      if i < |s.flights| then
        var rows := s.flights[i] + s.buffer;
        var kept := Requeued(rows);
        s.(flights := Without(s.flights, i), buffer := kept,
           dropped := s.dropped + multiset(rows[..|rows| - |kept|]))
      else s
  }

  function Start<T>(): State<T> {
    State([], false, [], [], [], multiset{})
  }

  function Run<T>(events: seq<Event<T>>, threshold: int): State<T> {
    if events == [] then Start()
    else Step(Run(events[..|events| - 1], threshold), events[|events| - 1], threshold)
  }

  // ---- Conservation ----

  /** Every pushed row is inserted, in one of the flights, buffered or dropped, and counted once. */
  ghost predicate Conserved<T>(s: State<T>) {
    multiset(s.pushed) == multiset(s.inserted) + multiset(Concat(s.flights)) + multiset(s.buffer) + s.dropped
  }

  /** The rows of one flight among all those in flight: what comes before it and what comes after. */
  lemma AroundFlight<T>(flights: seq<seq<T>>, i: nat)
    requires i < |flights|
    ensures Concat(flights) == Concat(flights[..i]) + flights[i] + Concat(flights[i + 1..])
  {
    assert flights == flights[..i] + flights[i..];
    ConcatAppend(flights[..i], flights[i..]);
    assert flights[i..][1..] == flights[i + 1..];
  }

  lemma BesideFlight<T>(flights: seq<seq<T>>, i: nat)
    requires i < |flights|
    ensures Concat(Without(flights, i)) == Concat(flights[..i]) + Concat(flights[i + 1..])
  {
    ConcatAppend(flights[..i], flights[i + 1..]);
  }

  lemma WithoutFlight<T>(flights: seq<seq<T>>, i: nat)
    requires i < |flights|
    ensures multiset(Concat(flights)) == multiset(Concat(Without(flights, i))) + multiset(flights[i])
  {
    AroundFlight(flights, i);
    BesideFlight(flights, i);
  }

  lemma FlushConserves<T>(s: State<T>)
    requires Conserved(s)
    ensures Conserved(StartFlush(s))
  {
    ConcatSnoc(s.flights, s.buffer);
  }

  lemma PushConserves<T>(s: State<T>, row: T, threshold: int)
    requires Conserved(s)
    ensures Conserved(Step(s, Push(row), threshold))
  {
    FlushConserves(s.(buffer := s.buffer + [row], pushed := s.pushed + [row]));
  }

  lemma StepConserves<T>(s: State<T>, e: Event<T>, threshold: int)
    requires Conserved(s)
    ensures Conserved(Step(s, e, threshold))
  {
    match e
    case Connect(_) =>
    case Push(row) => PushConserves(s, row, threshold);
    case Flush => FlushConserves(s);
    case InsertOk(i) =>
      if i < |s.flights| {
        OkConserves(s, i, threshold);
      }
    case InsertFail(i) =>
      if i < |s.flights| {
        FailConserves(s, i, threshold);
      }
  }

  lemma OkConserves<T>(s: State<T>, i: nat, threshold: int)
    requires Conserved(s) && i < |s.flights|
    ensures Conserved(Step(s, InsertOk(i), threshold))
  {
    WithoutFlight(s.flights, i);
    assert multiset(s.inserted + s.flights[i]) == multiset(s.inserted) + multiset(s.flights[i]);
  }

  lemma FailConserves<T>(s: State<T>, i: nat, threshold: int)
    requires Conserved(s) && i < |s.flights|
    ensures Conserved(Step(s, InsertFail(i), threshold))
  {
    WithoutFlight(s.flights, i);
    var rows := s.flights[i] + s.buffer;
    var kept := Requeued(rows);
    var gone := rows[..|rows| - |kept|];
    assert rows == gone + kept;
    assert multiset(gone) + multiset(kept) == multiset(rows) == multiset(s.flights[i]) + multiset(s.buffer);
    Regroup(multiset(s.inserted), multiset(Concat(Without(s.flights, i))), multiset(s.flights[i]), multiset(s.buffer),
            s.dropped, multiset(gone), multiset(kept));
  }

  lemma Regroup<T>(i: multiset<T>, w: multiset<T>, f: multiset<T>, b: multiset<T>, d: multiset<T>,
                   g: multiset<T>, k: multiset<T>)
    requires g + k == f + b
    ensures i + (w + f) + b + d == i + w + k + (d + g)
  {
    assert i + (w + f) + b + d == i + w + (f + b) + d;
    assert i + w + (g + k) + d == i + w + k + (d + g);
  }

  /** With any number of overlapping flushes no row is lost or duplicated unaccounted for. */
  lemma {:induction false} EveryRunConserves<T>(events: seq<Event<T>>, threshold: int)
    ensures Conserved(Run(events, threshold))
  {
    if events != [] {
      EveryRunConserves(events[..|events| - 1], threshold);
      StepConserves(Run(events[..|events| - 1], threshold), events[|events| - 1], threshold);
    }
  }

  // ---- Bounds ----

  /** A requeue leaves at most 10000 rows, and a trim exactly the newest 5000 of what was there. */
  lemma RequeueBounds<T>(s: State<T>, i: nat, threshold: int)
    requires i < |s.flights|
    ensures var rows, kept := s.flights[i] + s.buffer, Step(s, InsertFail(i), threshold).buffer;
            && |kept| <= 10_000
            && exists cut :: 0 <= cut <= |rows| && kept == rows[cut..]
                 && (if |rows| > 10_000 then |rows| - cut == 5_000 else cut == 0)
  {
    var rows := s.flights[i] + s.buffer;
    var kept := Requeued(rows);
    assert kept == rows[|rows| - |kept|..];
  }

  /** The rows pushed while there was no client. */
  function OfflinePushes<T(==)>(events: seq<Event<T>>, threshold: int): nat {
    if events == [] then 0
    else
      var before, e := events[..|events| - 1], events[|events| - 1];
      OfflinePushes(before, threshold) + if e.Push? && !Run(before, threshold).connected then 1 else 0
  }

  /** The larger of a requeue's limit and what stays below the flush threshold. */
  function Limit(threshold: int): int {
    if threshold > OVERFLOW then threshold - 1 else OVERFLOW
  }

  /** In every run the buffer exceeds its limit by no more than the rows pushed while there was no client. */
  lemma {:induction false} BufferBound<T>(events: seq<Event<T>>, threshold: int)
    ensures |Run(events, threshold).buffer| <= Limit(threshold) + OfflinePushes(events, threshold)
  {
    if events != [] {
      BufferBound(events[..|events| - 1], threshold);
    }
  }

  /** Runs in which every row is pushed with a client stay within the limit. */
  lemma ConnectedRunsAreBounded<T>(events: seq<Event<T>>, threshold: int)
    requires OfflinePushes(events, threshold) == 0
    ensures var n := |Run(events, threshold).buffer|; n <= 10_000 || n < threshold
  {
    BufferBound(events, threshold);
  }

  /** Without a client nothing bounds the buffer: it holds every row pushed, so the bound above is the best possible. */
  lemma {:induction false} UnboundedWhileDisconnected<T>(rows: seq<T>, threshold: int)
    ensures var events := seq(|rows|, i requires 0 <= i < |rows| => Push(rows[i]));
            Run(events, threshold) == State(rows, false, [], rows, [], multiset{})
  {
    if rows != [] {
      var n := |rows| - 1;
      var events := seq(|rows|, i requires 0 <= i < |rows| => Push(rows[i]));
      UnboundedWhileDisconnected(rows[..n], threshold);
      assert events[..n] == seq(n, i requires 0 <= i < n => Push(rows[..n][i]));
      assert rows == rows[..n] + [rows[n]];
    }
  }

  // ---- Order ----

  ghost predicate Ordered<T>(s: State<T>) {
    Subseq(s.inserted + Concat(s.flights) + s.buffer, s.pushed)
  }

  lemma RunSnoc<T>(events: seq<Event<T>>, e: Event<T>, threshold: int)
    ensures Run(events + [e], threshold) == Step(Run(events, threshold), e, threshold)
  {
    assert (events + [e])[..|events|] == events;
  }

  ghost predicate Holds<T>(s: State<T>, buffer: seq<T>, flights: seq<seq<T>>, pushed: seq<T>) {
    s.connected && s.buffer == buffer && s.flights == flights && s.pushed == pushed && s.inserted == []
  }

  lemma FirstFlight<T>(a: T)
    ensures Holds(Run([Connect(true), Push(a), Flush], 50), [], [[a]], [a])
  {
    var first: Event<T> := Connect(true);
    RunSnoc([], first, 50);
    assert [] + [first] == [first];
    RunSnoc([first], Push(a), 50);
    assert [first] + [Push(a)] == [first, Push(a)];
    assert Holds(Run([first, Push(a)], 50), [a], [], [a]) by { assert [] + [a] == [a]; }
    RunSnoc([first, Push(a)], Flush, 50);
    assert [first, Push(a)] + [Flush] == [first, Push(a), Flush];
    assert [] + [[a]] == [[a]];
  }

  lemma TwoFlights<T>(a: T, b: T)
    ensures Holds(Run([Connect(true), Push(a), Flush, Push(b), Flush], 50), [], [[a], [b]], [a, b])
  {
    FirstFlight(a);
    var first: Event<T> := Connect(true);
    RunSnoc([first, Push(a), Flush], Push(b), 50);
    assert [first, Push(a), Flush] + [Push(b)] == [first, Push(a), Flush, Push(b)];
    assert Holds(Run([first, Push(a), Flush, Push(b)], 50), [b], [[a]], [a, b]) by {
      assert [] + [b] == [b] && [a] + [b] == [a, b];
    }
    RunSnoc([first, Push(a), Flush, Push(b)], Flush, 50);
    assert [first, Push(a), Flush, Push(b)] + [Flush] == [first, Push(a), Flush, Push(b), Flush];
  }

  lemma TwoFailures<T>(s: State<T>, a: T, b: T)
    requires Holds(s, [], [[a], [b]], [a, b])
    ensures Holds(Step(Step(s, InsertFail(0), 50), InsertFail(0), 50), [b, a], [], [a, b])
  {
    var s1 := Step(s, InsertFail(0), 50);
    assert s1.buffer == [a] && s1.flights == [[b]] by { assert [a] + [] == [a]; }
    assert Without([[b]], 0) == [];
    assert [b] + [a] == [b, a];
  }

  lemma SwappedPairIsNoSubseq<T>(a: T, b: T)
    requires a != b
    ensures !Subseq([b, a], [a, b])
  {
    assert [b, a][..1] == [b] && [a, b][..1] == [a] && [a][..0] == [];
    assert !Subseq([b], []) && !Subseq([b, a], []);
    assert !Subseq([b, a], [a]);
  }

  /** Two overlapping flushes that both fail put their rows back in the wrong order. */
  lemma OverlapReorders<T>(a: T, b: T)
    requires a != b
    ensures var events := [Connect(true), Push(a), Flush, Push(b), Flush];
            var end := Run(events + [InsertFail(0)] + [InsertFail(0)], 50);
            Holds(end, [b, a], [], [a, b]) && !Ordered(end)
  {
    var events := [Connect(true), Push(a), Flush, Push(b), Flush];
    TwoFlights(a, b);
    TwoFailures(Run(events, 50), a, b);
    RunSnoc(events, InsertFail(0), 50);
    RunSnoc(events + [InsertFail(0)], InsertFail(0), 50);
    SwappedPairIsNoSubseq(a, b);
    assert [] + [] + [b, a] == [b, a];
  }

  /** What an outcome must be to keep the order: the oldest flight's success, or a failure whose rows go back last. */
  predicate KeepsOrder<T>(s: State<T>, e: Event<T>) {
    match e
    case InsertOk(i) => i >= |s.flights| || i == 0
    case InsertFail(i) =>
      || i + 1 >= |s.flights|
      || |Requeued(s.flights[i] + s.buffer)| <= |s.buffer|
    case _ => true
  }

  ghost predicate Distinct<T>(rows: seq<T>) {
    forall i, j :: 0 <= i < j < |rows| ==> rows[i] != rows[j]
  }

  ghost predicate FlightsFull<T>(s: State<T>) {
    forall f | f in s.flights :: f != []
  }

  lemma NonEmptyConcat<T>(flights: seq<seq<T>>)
    requires flights != [] && flights[0] != []
    ensures Concat(flights) != []
  {
  }

  lemma FlushOrders<T>(s: State<T>)
    requires Ordered(s)
    ensures Ordered(StartFlush(s))
  {
    ConcatSnoc(s.flights, s.buffer);
    assert s.inserted + (Concat(s.flights) + s.buffer) + [] == s.inserted + Concat(s.flights) + s.buffer;
  }

  lemma PushOrders<T>(s: State<T>, row: T)
    requires Ordered(s)
    ensures Ordered(s.(buffer := s.buffer + [row], pushed := s.pushed + [row]))
  {
    var held := s.inserted + Concat(s.flights);
    SubseqPush(held + s.buffer, s.pushed, row);
    assert held + s.buffer + [row] == held + (s.buffer + [row]);
  }

  lemma OkOrders<T>(s: State<T>, threshold: int)
    requires Ordered(s) && s.flights != []
    ensures Ordered(Step(s, InsertOk(0), threshold))
  {
    AroundFlight(s.flights, 0);
    BesideFlight(s.flights, 0);
    var f, rest := s.flights[0], Concat(s.flights[1..]);
    assert (s.inserted + f) + ([] + rest) + s.buffer == s.inserted + ([] + f + rest) + s.buffer;
  }

  ghost predicate IsSuffix<T>(kept: seq<T>, rows: seq<T>) {
    |kept| <= |rows| && kept == rows[|rows| - |kept|..]
  }

  lemma SuffixOrders<T>(head: seq<T>, rows: seq<T>, kept: seq<T>, pushed: seq<T>)
    requires Subseq(head + rows, pushed) && IsSuffix(kept, rows)
    ensures Subseq(head + kept, pushed)
  {
    var gone := rows[..|rows| - |kept|];
    assert head + rows == head + gone + kept;
    SubseqDrop(head, gone, kept, pushed);
  }

  /** The failed flight is dropped whole, with part of the buffer. */
  lemma DroppedFlightOrders<T>(head: seq<T>, f: seq<T>, after: seq<T>, buffer: seq<T>, kept: seq<T>, pushed: seq<T>)
    requires Subseq(head + f + after + buffer, pushed) && IsSuffix(kept, buffer)
    ensures Subseq(head + after + kept, pushed)
  {
    assert head + f + after + buffer == head + f + (after + buffer);
    SubseqDrop(head, f, after + buffer, pushed);
    assert head + (after + buffer) == head + after + buffer;
    SuffixOrders(head + after, buffer, kept, pushed);
  }

  /** The failed flight was the youngest and goes back where it came from. */
  lemma YoungestFlightOrders<T>(head: seq<T>, f: seq<T>, buffer: seq<T>, kept: seq<T>, pushed: seq<T>)
    requires Subseq(head + f + [] + buffer, pushed) && IsSuffix(kept, f + buffer)
    ensures Subseq(head + [] + kept, pushed)
  {
    assert head + f + [] + buffer == head + (f + buffer);
    SuffixOrders(head, f + buffer, kept, pushed);
    assert head + [] == head;
  }

  lemma RequeueOrders<T>(inserted: seq<T>, before: seq<T>, f: seq<T>, after: seq<T>, buffer: seq<T>, kept: seq<T>,
                         pushed: seq<T>)
    requires Subseq(inserted + (before + f + after) + buffer, pushed)
    requires IsSuffix(kept, f + buffer) && (|kept| <= |buffer| || after == [])
    ensures Subseq(inserted + before + after + kept, pushed)
  {
    RegroupFlight(inserted, before, f, after, buffer);
    if |kept| <= |buffer| {
      SuffixWithin(f, buffer, kept);
      DroppedFlightOrders(inserted + before, f, after, buffer, kept, pushed);
    } else {
      YoungestFlightOrders(inserted + before, f, buffer, kept, pushed);
    }
  }

  lemma SuffixWithin<T>(f: seq<T>, buffer: seq<T>, kept: seq<T>)
    requires IsSuffix(kept, f + buffer) && |kept| <= |buffer|
    ensures IsSuffix(kept, buffer)
  {
  }

  lemma RequeuedIsSuffix<T>(rows: seq<T>)
    ensures IsSuffix(Requeued(rows), rows)
  {
  }

  lemma FailOrders<T>(s: State<T>, i: nat, threshold: int)
    requires Ordered(s) && i < |s.flights| && KeepsOrder(s, InsertFail(i))
    ensures Ordered(Step(s, InsertFail(i), threshold))
  {
    AroundFlight(s.flights, i);
    BesideFlight(s.flights, i);
    var before, f, after := Concat(s.flights[..i]), s.flights[i], Concat(s.flights[i + 1..]);
    var kept := Requeued(f + s.buffer);
    RequeuedIsSuffix(f + s.buffer);
    RequeueOrders(s.inserted, before, f, after, s.buffer, kept, s.pushed);
    RegroupBeside(s.inserted, before, after, kept);
  }

  lemma RegroupBeside<T>(a: seq<T>, b: seq<T>, c: seq<T>, d: seq<T>)
    ensures a + (b + c) + d == a + b + c + d
  {
  }

  lemma PositionsFollow<T>(a: seq<T>, rows: seq<T>, i: nat, j: nat, p: nat, q: nat)
    requires Distinct(rows) && Subseq(a, rows) && i < j < |a|
    requires p < |rows| && rows[p] == a[i] && q < |rows| && rows[q] == a[j]
    ensures p < q
  {
    var at := SubseqPositions(a, rows);
    assert at[i] == p && at[j] == q;
  }

  /** Rows that are distinct stand in one order only. */
  lemma OneOrder<T>(a: seq<T>, a': seq<T>, rows: seq<T>, i: nat, j: nat, k: nat, l: nat)
    requires Distinct(rows) && Subseq(a, rows)
    requires i < j < |a| && k < l < |a'| && a[i] == a'[l] && a[j] == a'[k]
    ensures !Subseq(a', rows)
  {
    if Subseq(a', rows) {
      var at := SubseqPositions(a', rows);
      PositionsFollow(a, rows, i, j, at[l], at[k]);
    }
  }

  /** Two neighbouring stretches of rows cannot change places. */
  lemma SwapReorders<T>(head: seq<T>, f: seq<T>, g: seq<T>, tail: seq<T>, f': seq<T>, tail': seq<T>, rows: seq<T>)
    requires Distinct(rows) && Subseq(head + f + g + tail, rows)
    requires f != [] && g != [] && f' != [] && f'[|f'| - 1] == f[|f| - 1]
    ensures !Subseq(head + g + f' + tail', rows)
  {
    var n := |head|;
    var a, a' := head + f + g + tail, head + g + f' + tail';
    assert a[n + |f| - 1] == f[|f| - 1] && a[n + |f|] == g[0];
    assert a'[n] == g[0] && a'[n + |g| + |f'| - 1] == f'[|f'| - 1];
    OneOrder(a, a', rows, n + |f| - 1, n + |f|, n, n + |g| + |f'| - 1);
  }

  lemma InsertedBefore<T>(inserted: seq<T>, before: seq<T>, f: seq<T>, after: seq<T>, buffer: seq<T>, rows: seq<T>)
    requires Distinct(rows) && Subseq(inserted + (before + f + after) + buffer, rows)
    requires before != [] && f != []
    ensures !Subseq((inserted + f) + (before + after) + buffer, rows)
  {
    RegroupFlight(inserted, before, f, after, buffer);
    RegroupTail(inserted + before, f, after, buffer);
    SwapReorders(inserted, before, f, after + buffer, before, after + buffer, rows);
    RegroupSwapped(inserted, f, before, after, buffer);
  }

  lemma RegroupTail<T>(a: seq<T>, b: seq<T>, c: seq<T>, d: seq<T>)
    ensures a + b + c + d == a + b + (c + d)
  {
  }

  lemma RegroupSwapped<T>(a: seq<T>, f: seq<T>, b: seq<T>, c: seq<T>, d: seq<T>)
    ensures (a + f) + (b + c) + d == a + f + b + (c + d)
  {
  }

  lemma OlderFull<T>(s: State<T>, i: nat)
    requires FlightsFull(s) && 0 < i < |s.flights|
    ensures s.flights[i] != [] && Concat(s.flights[..i]) != []
  {
    assert s.flights[..i][0] in s.flights && s.flights[i] in s.flights;
    NonEmptyConcat(s.flights[..i]);
  }

  /** A younger flight that succeeds first is inserted before an older one. */
  lemma OkReorders<T>(s: State<T>, i: nat, threshold: int)
    requires Ordered(s) && Distinct(s.pushed) && FlightsFull(s) && 0 < i < |s.flights|
    ensures !Ordered(Step(s, InsertOk(i), threshold))
  {
    AroundFlight(s.flights, i);
    BesideFlight(s.flights, i);
    OlderFull(s, i);
    InsertedBefore(s.inserted, Concat(s.flights[..i]), s.flights[i], Concat(s.flights[i + 1..]), s.buffer, s.pushed);
  }

  lemma FailedBehind<T>(inserted: seq<T>, before: seq<T>, f: seq<T>, after: seq<T>, buffer: seq<T>, f': seq<T>,
                        rows: seq<T>)
    requires Distinct(rows) && Subseq(inserted + (before + f + after) + buffer, rows)
    requires f != [] && after != [] && f' != [] && f'[|f'| - 1] == f[|f| - 1]
    ensures !Subseq(inserted + (before + after) + (f' + buffer), rows)
  {
    RegroupFlight(inserted, before, f, after, buffer);
    SwapReorders(inserted + before, f, after, buffer, f', buffer, rows);
    RegroupRequeued(inserted, before, after, f', buffer);
  }

  lemma RegroupFlight<T>(a: seq<T>, b: seq<T>, f: seq<T>, c: seq<T>, d: seq<T>)
    ensures a + (b + f + c) + d == (a + b) + f + c + d
  {
  }

  lemma RegroupRequeued<T>(a: seq<T>, b: seq<T>, c: seq<T>, f: seq<T>, d: seq<T>)
    ensures a + (b + c) + (f + d) == (a + b) + c + f + d
  {
  }

  lemma YoungerFull<T>(s: State<T>, i: nat)
    requires FlightsFull(s) && i + 1 < |s.flights|
    ensures s.flights[i] != [] && Concat(s.flights[i + 1..]) != []
  {
    assert s.flights[i + 1..][0] in s.flights && s.flights[i] in s.flights;
    NonEmptyConcat(s.flights[i + 1..]);
  }

  /** A flight that fails while a younger one is under way is put behind it. */
  lemma FailReorders<T>(s: State<T>, i: nat, threshold: int)
    requires Ordered(s) && Distinct(s.pushed) && FlightsFull(s)
    requires i < |s.flights| && !KeepsOrder(s, InsertFail(i))
    ensures !Ordered(Step(s, InsertFail(i), threshold))
  {
    AroundFlight(s.flights, i);
    BesideFlight(s.flights, i);
    YoungerFull(s, i);
    var kept := Requeued(s.flights[i] + s.buffer);
    SuffixEnds(s.flights[i], s.buffer, kept);
    FailedBehind(s.inserted, Concat(s.flights[..i]), s.flights[i], Concat(s.flights[i + 1..]), s.buffer,
                 kept[..|kept| - |s.buffer|], s.pushed);
  }

  lemma SuffixEnds<T>(f: seq<T>, buffer: seq<T>, kept: seq<T>)
    requires f != [] && IsSuffix(kept, f + buffer) && |kept| > |buffer|
    ensures kept == kept[..|kept| - |buffer|] + buffer
    ensures kept[..|kept| - |buffer|][|kept| - |buffer| - 1] == f[|f| - 1]
  {
    assert kept[|kept| - |buffer|..] == buffer;
  }

  lemma StepKeepsOrder<T>(s: State<T>, e: Event<T>, threshold: int)
    requires Ordered(s) && KeepsOrder(s, e)
    ensures Ordered(Step(s, e, threshold))
  {
    match e
    case Connect(_) =>
    case Push(row) =>
      PushOrders(s, row);
      FlushOrders(s.(buffer := s.buffer + [row], pushed := s.pushed + [row]));
    case Flush => FlushOrders(s);
    case InsertOk(i) =>
      if i < |s.flights| {
        OkOrders(s, threshold);
      }
    case InsertFail(i) =>
      if i < |s.flights| {
        FailOrders(s, i, threshold);
      }
  }

  /** Exactly which steps keep the order of distinct rows. */
  lemma StepKeepsOrderIff<T>(s: State<T>, e: Event<T>, threshold: int)
    requires Ordered(s) && Distinct(s.pushed) && FlightsFull(s)
    ensures Ordered(Step(s, e, threshold)) <==> KeepsOrder(s, e)
  {
    if KeepsOrder(s, e) {
      StepKeepsOrder(s, e, threshold);
    } else if e.InsertOk? {
      OkReorders(s, e.flight, threshold);
    } else {
      FailReorders(s, e.flight, threshold);
    }
  }

  lemma StepFull<T>(s: State<T>, e: Event<T>, threshold: int)
    requires FlightsFull(s)
    ensures FlightsFull(Step(s, e, threshold)) && s.pushed <= Step(s, e, threshold).pushed
  {
    match e
    case InsertOk(i) =>
      if i < |s.flights| {
        assert forall f | f in Without(s.flights, i) :: f in s.flights;
      }
    case InsertFail(i) =>
      if i < |s.flights| {
        assert forall f | f in Without(s.flights, i) :: f in s.flights;
      }
    case _ =>
  }

  lemma {:induction false} EveryFlightFull<T>(events: seq<Event<T>>, threshold: int)
    ensures FlightsFull(Run(events, threshold))
  {
    if events != [] {
      EveryFlightFull(events[..|events| - 1], threshold);
      StepFull(Run(events[..|events| - 1], threshold), events[|events| - 1], threshold);
    }
  }

  /** The run up to each of its steps is one after which that step keeps the order. */
  ghost predicate Careful<T>(events: seq<Event<T>>, threshold: int) {
    events != [] ==>
      var before := events[..|events| - 1];
      Careful(before, threshold) && KeepsOrder(Run(before, threshold), events[|events| - 1])
  }

  lemma {:induction false} CarefulRunsKeepOrder<T>(events: seq<Event<T>>, threshold: int)
    requires Careful(events, threshold)
    ensures Ordered(Run(events, threshold))
  {
    if events != [] {
      var n := |events| - 1;
      CarefulRunsKeepOrder(events[..n], threshold);
      StepKeepsOrder(Run(events[..n], threshold), events[n], threshold);
    }
  }

  /** After a careful run of distinct rows the next step loses the order exactly when it is not careful. */
  lemma OrderLostIff<T>(events: seq<Event<T>>, threshold: int)
    requires events != [] && Careful(events[..|events| - 1], threshold)
    requires Distinct(Run(events, threshold).pushed)
    ensures Ordered(Run(events, threshold)) <==> Careful(events, threshold)
  {
    var n := |events| - 1;
    EveryFlightFull(events[..n], threshold);
    StepFull(Run(events[..n], threshold), events[n], threshold);
    CarefulRunsKeepOrder(events[..n], threshold);
    StepKeepsOrderIff(Run(events[..n], threshold), events[n], threshold);
  }

  /** No flush starts while another is under way. */
  ghost predicate SingleFlight<T>(events: seq<Event<T>>, threshold: int) {
    |Run(events, threshold).flights| <= 1 && (events != [] ==> SingleFlight(events[..|events| - 1], threshold))
  }

  lemma {:induction false} SingleFlightIsCareful<T>(events: seq<Event<T>>, threshold: int)
    requires SingleFlight(events, threshold)
    ensures Careful(events, threshold)
  {
    if events != [] {
      SingleFlightIsCareful(events[..|events| - 1], threshold);
    }
  }

  /** Only overlap costs the order: runs in which no two flushes overlap keep it. */
  lemma SingleFlightOrders<T>(events: seq<Event<T>>, threshold: int)
    requires SingleFlight(events, threshold)
    ensures Ordered(Run(events, threshold))
  {
    SingleFlightIsCareful(events, threshold);
    CarefulRunsKeepOrder(events, threshold);
  }

  // ---- The module's variables and helpers ----

  /** A JavaScript array: an object whose rows change in place. */
  class RowArray<Row> {
    var rows: seq<Row>

    constructor (rows: seq<Row>)
      ensures this.rows == rows
    {
      this.rows := rows;
    }
  }

  class BatchWriter<Row> {
    const flushThreshold: int
    var buffer: RowArray<Row>
    var connected: bool
    var flights: seq<seq<Row>>
    ghost var pushed: seq<Row>
    ghost var inserted: seq<Row>
    ghost var dropped: multiset<Row>

    ghost function View(): State<Row>
      reads this, buffer
    {
      State(buffer.rows, connected, flights, pushed, inserted, dropped)
    }

    constructor (flushThreshold: int)
      ensures View() == Start() && this.flushThreshold == flushThreshold && fresh(buffer)
    {
      this.flushThreshold := flushThreshold;
      buffer := new RowArray([]);
      connected, flights, pushed, inserted, dropped := false, [], [], [], multiset{};
    }

    method SetClient(up: bool)
      modifies this`connected
      ensures View() == Step(old(View()), Connect(up), flushThreshold)
    {
      connected := up;
    }

    /** Appends to the array it is handed; the caller hands it the current one, so the row cannot be stranded. */
    method EnqueueRow(buf: RowArray<Row>, row: Row)
      requires buf == buffer
      modifies buf, this`flights, this`pushed
      ensures buffer == old(buffer) && View() == Step(old(View()), Push(row), flushThreshold)
    {
      buf.rows := buf.rows + [row];
      pushed := pushed + [row];
      if |buf.rows| >= flushThreshold {
        FlushBuffer(buf);
      }
    }

    /** Up to the await: takes the rows out of the array and leaves the array in place. */
    method FlushBuffer(buf: RowArray<Row>)
      requires buf == buffer
      modifies buf, this`flights
      ensures buffer == old(buffer) && View() == Step(old(View()), Flush, flushThreshold)
    {
      if !connected || |buf.rows| == 0 {
        return;
      }
      var rows := buf.rows;
      buf.rows := [];
      flights := flights + [rows];
    }

    method RequeueWithOverflowGuard(buf: RowArray<Row>, failedRows: seq<Row>) returns (kept: RowArray<Row>)
      modifies buf
      ensures kept == buf || fresh(kept)
      ensures kept.rows == Requeued(failedRows + old(buf.rows))
    {
      buf.rows := failedRows + buf.rows;
      if |buf.rows| > OVERFLOW {
        var dropCount := |buf.rows| - RETAINED;
        kept := new RowArray(buf.rows[dropCount..]);
      } else {
        kept := buf;
      }
    }

    method WriteRow(row: Row)
      modifies this`flights, this`pushed, buffer
      ensures buffer == old(buffer) && View() == Step(old(View()), Push(row), flushThreshold)
    {
      EnqueueRow(buffer, row);
    }

    method OnInsertOk(i: nat)
      requires i < |flights|
      modifies this`flights, this`inserted
      ensures View() == Step(old(View()), InsertOk(i), flushThreshold)
    {
      inserted := inserted + flights[i];
      flights := Without(flights, i);
    }

    /** After the await: requeues into whatever array is current now, and makes the result current. */
    method OnInsertFail(i: nat)
      requires i < |flights|
      modifies this`flights, this`buffer, this`dropped, buffer
      ensures buffer == old(buffer) || fresh(buffer)
      ensures View() == Step(old(View()), InsertFail(i), flushThreshold)
    {
      var rows := flights[i];
      ghost var all := rows + buffer.rows;
      flights := Without(flights, i);
      buffer := RequeueWithOverflowGuard(buffer, rows);
      dropped := dropped + multiset(all[..|all| - |buffer.rows|]);
    }
  }
}
