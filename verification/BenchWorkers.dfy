/**
 * The workers of the lock benchmark share one cursor over the sessions to submit
 * (MemoryCore/scripts/bench-checkpoint-lock.ts:104-119). Claiming an index is one step, as nothing awaits between
 * reading the cursor and moving it; the submission ends in a later step.
 */
module BenchWorkers {
  datatype Worker = Ready | Busy(idx: nat) | Stopped

  /** finished lists the indices in the order in which their latencies are pushed. */
  datatype State = State(cursor: nat, workers: seq<Worker>, finished: seq<nat>)

  /** The worker takes its next step. */
  function Step(s: State, w: nat, sessions: nat): State {
    if w >= |s.workers| then s
    else
      match s.workers[w]
      case Ready =>
        s.(cursor := s.cursor + 1,
           workers := s.workers[w := if s.cursor >= sessions then Stopped else Busy(s.cursor)])
      case Busy(idx) => s.(workers := s.workers[w := Ready], finished := s.finished + [idx])
      case Stopped => s
  }

  function Start(concurrency: nat): State {
    State(0, seq(concurrency, _ => Ready), [])
  }

  function Run(steps: seq<nat>, concurrency: nat, sessions: nat): State {
    if steps == [] then Start(concurrency)
    else Step(Run(steps[..|steps| - 1], concurrency, sessions), steps[|steps| - 1], sessions)
  }

  function BusyWith(workers: seq<Worker>, idx: nat): nat {
    if workers == [] then 0
    else BusyWith(workers[..|workers| - 1], idx) + if workers[|workers| - 1] == Busy(idx) then 1 else 0
  }

  lemma {:induction false} ReplaceWorker(workers: seq<Worker>, w: nat, to: Worker, idx: nat)
    requires w < |workers|
    ensures BusyWith(workers[w := to], idx) + (if workers[w] == Busy(idx) then 1 else 0)
         == BusyWith(workers, idx) + (if to == Busy(idx) then 1 else 0)
  {
    var n := |workers| - 1;
    assert workers[w := to][..n] == if w < n then workers[..n][w := to] else workers[..n];
    if w < n {
      ReplaceWorker(workers[..n], w, to, idx);
    }
  }

  lemma {:induction false} NobodyBusy(workers: seq<Worker>, idx: nat)
    requires forall k :: 0 <= k < |workers| ==> workers[k] != Busy(idx)
    ensures BusyWith(workers, idx) == 0
  {
    if workers != [] {
      NobodyBusy(workers[..|workers| - 1], idx);
    }
  }

  /** An index the cursor has passed is with exactly one worker or finished, once; the others are with nobody. */
  ghost predicate ClaimedOnce(s: State, sessions: nat, idx: nat) {
    multiset(s.finished)[idx] + BusyWith(s.workers, idx) == if idx < s.cursor && idx < sessions then 1 else 0
  }

  /** A worker stops only when the cursor has passed every session. */
  ghost predicate StopsLate(s: State, sessions: nat) {
    forall k :: 0 <= k < |s.workers| && s.workers[k].Stopped? ==> s.cursor > sessions
  }

  lemma StepClaimsOnce(s: State, w: nat, sessions: nat, idx: nat)
    requires ClaimedOnce(s, sessions, idx)
    ensures ClaimedOnce(Step(s, w, sessions), sessions, idx)
  {
    if w < |s.workers| && !s.workers[w].Stopped? {
      ReplaceWorker(s.workers, w, Step(s, w, sessions).workers[w], idx);
      if s.workers[w].Busy? {
        assert multiset(s.finished + [s.workers[w].idx]) == multiset(s.finished) + multiset{s.workers[w].idx};
      }
    }
  }

  /** Under every interleaving each index is handed out in turn and to one worker only. */
  lemma {:induction false} EveryRunClaimsOnce(steps: seq<nat>, concurrency: nat, sessions: nat, idx: nat)
    ensures var s := Run(steps, concurrency, sessions);
            ClaimedOnce(s, sessions, idx) && StopsLate(s, sessions) && |s.workers| == concurrency
  {
    if steps == [] {
      NobodyBusy(Start(concurrency).workers, idx);
    } else {
      var before := Run(steps[..|steps| - 1], concurrency, sessions);
      EveryRunClaimsOnce(steps[..|steps| - 1], concurrency, sessions, idx);
      StepClaimsOnce(before, steps[|steps| - 1], sessions, idx);
    }
  }

  /** When all workers have stopped every session was submitted exactly once, so there are as many latencies. */
  lemma AllSubmittedOnce(steps: seq<nat>, concurrency: nat, sessions: nat)
    requires concurrency > 0
    requires forall worker | worker in Run(steps, concurrency, sessions).workers :: worker.Stopped?
    ensures var s := Run(steps, concurrency, sessions);
            multiset(s.finished) == multiset(seq(sessions, i => i)) && |s.finished| == sessions
  {
    var s := Run(steps, concurrency, sessions);
    var all: seq<nat> := seq(sessions, i => i);
    EveryRunClaimsOnce(steps, concurrency, sessions, 0);
    forall idx: nat
      ensures multiset(s.finished)[idx] == multiset(all)[idx]
    {
      EveryRunClaimsOnce(steps, concurrency, sessions, idx);
      assert forall k :: 0 <= k < |s.workers| ==> s.workers[k] in s.workers;
      NobodyBusy(s.workers, idx);
      CountUpTo(sessions, idx);
    }
    assert multiset(s.finished) == multiset(all);
    assert |s.finished| == |multiset(s.finished)| == |multiset(all)| == |all|;
  }

  lemma {:induction false} CountUpTo(n: nat, idx: nat)
    ensures multiset(seq(n, i => i))[idx] == if idx < n then 1 else 0
  {
    if n > 0 {
      var all: seq<nat>, front: seq<nat> := seq(n, i => i), seq(n - 1, i => i);
      assert all == front + [n - 1];
      CountUpTo(n - 1, idx);
    }
  }

  // ---- Every run ends ----

  /** The steps a worker still takes apart from claiming: ending its submission, and finding that there is no more. */
  function StepsOf(worker: Worker): nat {
    match worker
    case Ready => 1
    case Busy(_) => 2
    case Stopped => 0
  }

  function StepsLeft(workers: seq<Worker>): nat {
    if workers == [] then 0 else StepsLeft(workers[..|workers| - 1]) + StepsOf(workers[|workers| - 1])
  }

  lemma {:induction false} ReplaceSteps(workers: seq<Worker>, w: nat, to: Worker)
    requires w < |workers|
    ensures StepsLeft(workers[w := to]) == StepsLeft(workers) + StepsOf(to) - StepsOf(workers[w])
  {
    var n := |workers| - 1;
    assert workers[w := to][..n] == if w < n then workers[..n][w := to] else workers[..n];
    if w < n {
      ReplaceSteps(workers[..n], w, to);
    }
  }

  lemma {:induction false} StepsLeftAtStart(workers: seq<Worker>)
    requires forall k :: 0 <= k < |workers| ==> workers[k] == Ready
    ensures StepsLeft(workers) == |workers|
  {
    if workers != [] {
      StepsLeftAtStart(workers[..|workers| - 1]);
    }
  }

  lemma {:induction false} NoneLeftIff(workers: seq<Worker>)
    ensures StepsLeft(workers) == 0 <==> forall worker | worker in workers :: worker.Stopped?
  {
    if workers != [] {
      var front, last := workers[..|workers| - 1], workers[|workers| - 1];
      NoneLeftIff(front);
      assert workers == front + [last];
      assert last in workers && forall worker | worker in front :: worker in workers;
      assert StepsOf(last) == 0 <==> last.Stopped?;
    }
  }

  /** Each step is one of a worker that has not stopped. */
  ghost predicate Active(steps: seq<nat>, concurrency: nat, sessions: nat) {
    steps != [] ==>
      var before, w := steps[..|steps| - 1], steps[|steps| - 1];
      && Active(before, concurrency, sessions)
      && w < |Run(before, concurrency, sessions).workers|
      && !Run(before, concurrency, sessions).workers[w].Stopped?
  }

  function Unclaimed(s: State, sessions: nat): nat {
    if s.cursor < sessions then sessions - s.cursor else 0
  }

  lemma {:induction false} StepsCount(steps: seq<nat>, concurrency: nat, sessions: nat)
    requires Active(steps, concurrency, sessions)
    ensures var s := Run(steps, concurrency, sessions);
            |steps| + 2 * Unclaimed(s, sessions) + StepsLeft(s.workers) == 2 * sessions + concurrency
  {
    if steps == [] {
      StepsLeftAtStart(Start(concurrency).workers);
    } else {
      var before, w := steps[..|steps| - 1], steps[|steps| - 1];
      var s := Run(before, concurrency, sessions);
      StepsCount(before, concurrency, sessions);
      ReplaceSteps(s.workers, w, Step(s, w, sessions).workers[w]);
    }
  }

  /**
   * However the workers interleave, they have all stopped after two steps for each session and one for each worker,
   * and never before.
   */
  lemma RunEndsIff(steps: seq<nat>, concurrency: nat, sessions: nat)
    requires concurrency > 0 && Active(steps, concurrency, sessions)
    ensures (forall worker | worker in Run(steps, concurrency, sessions).workers :: worker.Stopped?)
       <==> |steps| == 2 * sessions + concurrency
  {
    var s := Run(steps, concurrency, sessions);
    StepsCount(steps, concurrency, sessions);
    NoneLeftIff(s.workers);
    EveryRunClaimsOnce(steps, concurrency, sessions, 0);
    if forall worker | worker in s.workers :: worker.Stopped? {
      assert s.workers[0] in s.workers;
    }
  }

  // ---- The closure's variables ----

  class Bench {
    const sessions: nat
    var cursor: nat
    var workers: seq<Worker>
    var finished: seq<nat>

    function View(): State
      reads this
    {
      State(cursor, workers, finished)
    }

    constructor (sessions: nat, concurrency: nat)
      ensures View() == Start(concurrency) && this.sessions == sessions
    {
      this.sessions := sessions;
      cursor, workers, finished := 0, seq(concurrency, _ => Ready), [];
    }

    /** The worker's loop up to its await: claim an index, or stop. */
    method Claim(w: nat)
      requires w < |workers| && workers[w].Ready?
      modifies this`cursor, this`workers
      ensures View() == Step(old(View()), w, sessions)
    {
      var idx := cursor;
      cursor := cursor + 1;
      workers := workers[w := if idx >= sessions then Stopped else Busy(idx)];
    }

    /** After the await: record the latency and go round the loop. */
    method Finish(w: nat)
      requires w < |workers| && workers[w].Busy?
      modifies this`workers, this`finished
      ensures View() == Step(old(View()), w, sessions)
    {
      finished := finished + [workers[w].idx];
      workers := workers[w := Ready];
    }
  }
}
