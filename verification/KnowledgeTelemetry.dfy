/**
 * The single-flight batch writer of the knowledge service (MemoryKnowledge/src/clickhouse-telemetry.ts:160-229).
 * Every method is one synchronous piece of the event loop; the insert itself is a step that succeeds or fails.
 */
module KnowledgeTelemetry {
  import opened Subsequences

  const MAX_BUFFER_ROWS: nat := 10_000
  const RETAINED_BUFFER_ROWS: nat := 5_000

  /** The `flushing` promise: absent, waiting for its insert, or resolved but not yet cleared. */
  datatype Flushing<T> = NoFlush | Inserting(rows: seq<T>) | Settling

  /** The writer's fields, with the history of what was recorded, inserted and dropped. */
  datatype State<T> = State(
    buffer: seq<T>, flushing: Flushing<T>, recorded: seq<T>, inserted: seq<T>, dropped: nat)

  datatype Event<T> = Record(row: T) | Flush | InsertOk | InsertFail | Settle

  function InFlight<T>(s: State<T>): seq<T> {
    if s.flushing.Inserting? then s.flushing.rows else []
  }

  function Trimmed<T>(rows: seq<T>): seq<T> {
    if |rows| <= MAX_BUFFER_ROWS then rows else rows[|rows| - RETAINED_BUFFER_ROWS..]
  }

  /** The state with these rows buffered, after trimBuffer. */
  function Rebuffered<T>(s: State<T>, rows: seq<T>): State<T> {
    s.(buffer := Trimmed(rows), dropped := s.dropped + |rows| - |Trimmed(rows)|)
  }

  function StartFlush<T>(s: State<T>): State<T> {
    if !s.flushing.NoFlush? || s.buffer == [] then s else s.(buffer := [], flushing := Inserting(s.buffer))
  }

  /** One step; a step whose moment has not come changes nothing. */
  function Step<T>(s: State<T>, e: Event<T>, threshold: int): State<T> {
    match e
    case Record(row) =>
      var pushed := Rebuffered(s.(recorded := s.recorded + [row]), s.buffer + [row]);
      if |pushed.buffer| >= threshold then StartFlush(pushed) else pushed
    case Flush => StartFlush(s)
    case InsertOk =>
      if s.flushing.Inserting? then s.(flushing := Settling, inserted := s.inserted + s.flushing.rows) else s
    case InsertFail =>
      if s.flushing.Inserting? then Rebuffered(s.(flushing := Settling), s.flushing.rows + s.buffer) else s
    case Settle => if s.flushing.Settling? then s.(flushing := NoFlush) else s
  }

  function Start<T>(): State<T> {
    State([], NoFlush, [], [], 0)
  }

  function Run<T>(events: seq<Event<T>>, threshold: int): State<T> {
    if events == [] then Start()
    else Step(Run(events[..|events| - 1], threshold), events[|events| - 1], threshold)
  }

  // ---- What every run keeps ----

  ghost predicate Inv<T>(s: State<T>) {
    && Subseq(s.inserted + InFlight(s) + s.buffer, s.recorded)
    && |s.recorded| == |s.inserted| + |InFlight(s)| + |s.buffer| + s.dropped
    && |s.buffer| <= MAX_BUFFER_ROWS
    && |InFlight(s)| <= MAX_BUFFER_ROWS
    && (s.flushing.Inserting? ==> s.flushing.rows != [])
  }

  lemma TrimKeepsInv<T>(s: State<T>, rows: seq<T>)
    requires Subseq(s.inserted + InFlight(s) + rows, s.recorded)
    requires |s.recorded| == |s.inserted| + |InFlight(s)| + |rows| + s.dropped
    requires |InFlight(s)| <= MAX_BUFFER_ROWS && (s.flushing.Inserting? ==> s.flushing.rows != [])
    ensures Inv(Rebuffered(s, rows))
  {
    var kept := Trimmed(rows);
    var gone := rows[..|rows| - |kept|];
    var head := s.inserted + InFlight(s);
    assert head + rows == head + gone + kept;
    SubseqDrop(head, gone, kept, s.recorded);
  }

  lemma FlushKeepsInv<T>(s: State<T>)
    requires Inv(s)
    ensures Inv(StartFlush(s))
  {
    if s.flushing.NoFlush? && s.buffer != [] {
      assert s.inserted + s.buffer + [] == s.inserted + [] + s.buffer;
    }
  }

  lemma StepKeepsInv<T>(s: State<T>, e: Event<T>, threshold: int)
    requires Inv(s)
    ensures Inv(Step(s, e, threshold))
  {
    match e
    case Record(row) =>
      SubseqPush(s.inserted + InFlight(s) + s.buffer, s.recorded, row);
      var pushed := s.(recorded := s.recorded + [row]);
      assert s.inserted + InFlight(s) + (s.buffer + [row]) == s.inserted + InFlight(s) + s.buffer + [row];
      TrimKeepsInv(pushed, s.buffer + [row]);
      FlushKeepsInv(Rebuffered(pushed, s.buffer + [row]));
    case Flush => FlushKeepsInv(s);
    case InsertOk =>
      if s.flushing.Inserting? {
        assert (s.inserted + s.flushing.rows) + [] + s.buffer == s.inserted + s.flushing.rows + s.buffer;
      }
    case InsertFail =>
      if s.flushing.Inserting? {
        assert s.inserted + [] + (s.flushing.rows + s.buffer) == s.inserted + s.flushing.rows + s.buffer;
        TrimKeepsInv(s.(flushing := Settling), s.flushing.rows + s.buffer);
      }
    case Settle =>
  }

  /**
   * Over every interleaving of records, flushes and insert outcomes: what was inserted, then what is in flight, then
   * what is buffered is an order-preserving, duplicate-free subsequence of what was recorded; every recorded row is
   * accounted for once; the buffer and the batch in flight never exceed 10000 rows.
   */
  lemma {:induction false} EveryRunKeepsInv<T>(events: seq<Event<T>>, threshold: int)
    ensures Inv(Run(events, threshold))
  {
    if events != [] {
      EveryRunKeepsInv(events[..|events| - 1], threshold);
      StepKeepsInv(Run(events[..|events| - 1], threshold), events[|events| - 1], threshold);
    }
  }

  /** No row is inserted twice, nor is an inserted row still waiting, when the recorded rows are distinct. */
  lemma NoRowTwice<T>(events: seq<Event<T>>, threshold: int)
    ensures var s := Run(events, threshold);
            var held := s.inserted + InFlight(s) + s.buffer;
            (forall i, j :: 0 <= i < j < |s.recorded| ==> s.recorded[i] != s.recorded[j])
            ==> (forall i, j :: 0 <= i < j < |held| ==> held[i] != held[j])
  {
    EveryRunKeepsInv(events, threshold);
    var s := Run(events, threshold);
    if forall i, j :: 0 <= i < j < |s.recorded| ==> s.recorded[i] != s.recorded[j] {
      SubseqDistinct(s.inserted + InFlight(s) + s.buffer, s.recorded);
    }
  }

  // ---- When a flush starts and what is dropped ----

  /** The rows that stay when these are buffered: all of them up to 10000, beyond that the newest 5000. */
  ghost predicate Newest<T>(rows: seq<T>, kept: seq<T>) {
    && |kept| == (if |rows| > 10_000 then 5_000 else |rows|)
    && forall i :: 0 <= i < |kept| ==> kept[i] == rows[|rows| - |kept| + i]
  }

  lemma TrimKeepsNewest<T>(rows: seq<T>, kept: seq<T>)
    ensures Newest(rows, kept) <==> kept == Trimmed(rows)
  {
    if Newest(rows, kept) {
      assert kept == rows[|rows| - |kept|..];
    }
  }

  /**
   * After every run, a row recorded while no flush is under way starts one exactly when as many rows as the threshold
   * are kept, and the flush takes them all; otherwise they stay buffered, and nothing else happens.
   */
  lemma RecordFlushesIff<T>(events: seq<Event<T>>, row: T, threshold: int, kept: seq<T>)
    requires Newest(Run(events, threshold).buffer + [row], kept)
    ensures var s, s' := Run(events, threshold), Run(events + [Record(row)], threshold);
            && s'.recorded == s.recorded + [row] && s'.inserted == s.inserted
            && if s.flushing.NoFlush? && |kept| >= threshold then s'.flushing == Inserting(kept) && s'.buffer == []
               else s'.flushing == s.flushing && s'.buffer == kept
  {
    assert (events + [Record(row)])[..|events|] == events;
    TrimKeepsNewest(Run(events, threshold).buffer + [row], kept);
  }

  /** A failed insert puts its rows back in front of those recorded since, and of all these the newest stay. */
  lemma FailedRowsReturn<T>(events: seq<Event<T>>, threshold: int, rows: seq<T>, kept: seq<T>)
    requires Run(events, threshold).flushing == Inserting(rows)
    requires Newest(rows + Run(events, threshold).buffer, kept)
    ensures var s, s' := Run(events, threshold), Run(events + [InsertFail], threshold);
            s'.flushing == Settling && s'.buffer == kept && s'.inserted == s.inserted
  {
    assert (events + [InsertFail])[..|events|] == events;
    TrimKeepsNewest(rows + Run(events, threshold).buffer, kept);
  }

  // ---- Shutdown ----

  /** Awaiting flush(): start one if none is under way, then let its insert end as `ok` says and settle it. */
  function AwaitFlush<T>(s: State<T>, ok: bool): State<T> {
    var s1 := Step(s, Flush, 0);
    var s2 := Step(s1, if ok then InsertOk else InsertFail, 0);
    Step(s2, Settle, 0)
  }

  function AfterShutdown<T>(s: State<T>, first: bool, second: bool): State<T> {
    var s1 := AwaitFlush(s, first);
    if s1.buffer == [] then s1 else AwaitFlush(s1, second)
  }

  /** What awaiting a flush leaves in the buffer. */
  lemma AwaitBuffer<T>(s: State<T>, ok: bool)
    requires Inv(s)
    ensures var end := AwaitFlush(s, ok);
            && end.flushing.NoFlush? && end.recorded == s.recorded
            && (end.buffer == []
                <==> if s.flushing.NoFlush? then ok || s.buffer == []
                     else if s.flushing.Inserting? then ok && s.buffer == []
                     else s.buffer == [])
  {
  }

  /**
   * With nothing more recorded, shutdown leaves nothing in flight, and it leaves the buffer empty exactly when the
   * last insert it waits for succeeds: the first one when that empties the buffer, the second one otherwise.
   */
  lemma ShutdownEmptiesBuffer<T>(s: State<T>, first: bool, second: bool)
    requires Inv(s)
    ensures var end := AfterShutdown(s, first, second);
            && Inv(end) && end.flushing.NoFlush? && end.recorded == s.recorded
            && (end.buffer == []
                <==> second
                     || (s.flushing.NoFlush? && (first || s.buffer == []))
                     || (s.flushing.Inserting? && first && s.buffer == [])
                     || (s.flushing.Settling? && s.buffer == []))
            && (end.buffer == [] ==> |s.recorded| == |end.inserted| + end.dropped)
  {
    AwaitKeepsInv(s, first);
    AwaitBuffer(s, first);
    AwaitKeepsInv(AwaitFlush(s, first), second);
    AwaitBuffer(AwaitFlush(s, first), second);
  }

  lemma AwaitKeepsInv<T>(s: State<T>, ok: bool)
    requires Inv(s)
    ensures Inv(AwaitFlush(s, ok)) && AwaitFlush(s, ok).flushing.NoFlush?
  {
    var s1 := Step(s, Flush, 0);
    StepKeepsInv(s, Flush, 0);
    StepKeepsInv(s1, if ok then InsertOk else InsertFail, 0);
    StepKeepsInv(Step(s1, if ok then InsertOk else InsertFail, 0), Settle, 0);
  }

  // ---- The class ----

  class ClickHouseKnowledgeTelemetry<Row> {
    const flushThreshold: int
    var buffer: seq<Row>
    var timer: bool
    var flushing: Flushing<Row>
    ghost var recorded: seq<Row>
    ghost var inserted: seq<Row>
    ghost var dropped: nat

    ghost function View(): State<Row>
      reads this
    {
      State(buffer, flushing, recorded, inserted, dropped)
    }

    constructor (flushThreshold: int)
      ensures View() == Start() && this.flushThreshold == flushThreshold && !timer
    {
      this.flushThreshold := flushThreshold;
      buffer, timer, flushing := [], false, NoFlush;
      recorded, inserted, dropped := [], [], 0;
    }

    method Initialize()
      modifies this`timer
      ensures timer
    {
      timer := true;
    }

    method TrimBuffer()
      modifies this`buffer, this`dropped
      ensures View() == Rebuffered(old(View()), old(buffer))
    {
      if |buffer| <= MAX_BUFFER_ROWS {
        return;
      }
      dropped := dropped + (|buffer| - RETAINED_BUFFER_ROWS);
      buffer := buffer[|buffer| - RETAINED_BUFFER_ROWS..];
    }

    method RecordToolCall(row: Row)
      modifies this`buffer, this`flushing, this`recorded, this`dropped
      ensures View() == Step(old(View()), Record(row), flushThreshold)
    {
      buffer := buffer + [row];
      recorded := recorded + [row];
      TrimBuffer();
      if |buffer| >= flushThreshold {
        FlushBuffer();
      }
    }

    method FlushBuffer()
      modifies this`buffer, this`flushing
      ensures View() == Step(old(View()), Flush, flushThreshold)
    {
      if !flushing.NoFlush? {
        return;
      }
      if |buffer| == 0 {
        return;
      }
      var rows := buffer;
      buffer := [];
      flushing := Inserting(rows);
    }

    method OnInsertOk()
      requires flushing.Inserting?
      modifies this`flushing, this`inserted
      ensures View() == Step(old(View()), InsertOk, flushThreshold)
    {
      inserted := inserted + flushing.rows;
      flushing := Settling;
    }

    /** The catch handler: the rows go back in front of what has been recorded since. */
    method OnInsertFail()
      requires flushing.Inserting?
      modifies this`buffer, this`flushing, this`dropped
      ensures View() == Step(old(View()), InsertFail, flushThreshold)
    {
      var rows := flushing.rows;
      buffer := rows + buffer;
      flushing := Settling;
      TrimBuffer();
    }

    method OnSettled()
      modifies this`flushing
      ensures View() == Step(old(View()), Settle, flushThreshold)
    {
      if flushing.Settling? {
        flushing := NoFlush;
      }
    }

    method AwaitFlushing(ok: bool)
      modifies this`buffer, this`flushing, this`inserted, this`dropped
      ensures View() == AwaitFlush(old(View()), ok)
    {
      FlushBuffer();
      if flushing.Inserting? {
        if ok {
          OnInsertOk();
        } else {
          OnInsertFail();
        }
      }
      OnSettled();
    }

    method Shutdown(first: bool, second: bool)
      modifies this`timer, this`buffer, this`flushing, this`inserted, this`dropped
      ensures !timer && View() == AfterShutdown(old(View()), first, second)
    {
      timer := false;
      AwaitFlushing(first);
      if |buffer| > 0 {
        AwaitFlushing(second);
      }
    }
  }
}
