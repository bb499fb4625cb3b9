/** The bookkeeping of one limiter built by `pLimit` (p-limit/index.js, lines 10-73):
    the `activeCount` counter, the FIFO `queue` of run closures, and the transitions
    `run`, `enqueue`, `next` and `clearQueue`, as pure functions on an immutable state.
    A task is an opaque job id; ids are handed out in submission order. */
module Limiter {
  import opened Wrappers
  import opened Concurrency

  /** A submitted task, identified by its submission index (0 for the first call). */
  type JobId = nat

  /** How a started task settled. The limiter does not look at it: `pTry` turns a
      synchronous throw into a rejection and `next` is attached to both branches. */
  datatype Outcome = Fulfilled | Rejected | ThrewSynchronously

  /** One limiter. `bound`, `activeCount` and `queue` are the source's variables;
      `submitted`, `running`, `started` and `settled` record the history the source
      leaves implicit: how many tasks were submitted, which ones hold a slot, the order
      in which tasks started and the order in which they settled. */
  datatype State = State(
    bound: Bound,
    activeCount: int,
    queue: seq<JobId>,
    submitted: nat,
    running: set<JobId>,
    started: seq<JobId>,
    settled: seq<JobId>)

  predicate Increasing(xs: seq<JobId>) {
    forall i, j :: 0 <= i < j < |xs| ==> xs[i] < xs[j]
  }

  predicate Distinct(xs: seq<JobId>) {
    forall i, j :: 0 <= i < j < |xs| ==> xs[i] != xs[j]
  }

  /** The invariant every reachable limiter keeps:
      the counter equals the number of running tasks and stays within the bound;
      tasks wait only while every slot is taken; started tasks followed by waiting
      tasks appear in strictly increasing submission order; a task runs exactly when it
      has started and not yet settled, and settles at most once. */
  ghost predicate Valid(s: State) {
    && s.activeCount == |s.running|
    && (s.bound.Finite? ==> s.activeCount <= s.bound.n)
    && (|s.queue| > 0 ==> s.bound.Finite? && s.activeCount == s.bound.n)
    && Increasing(s.started + s.queue)
    && (forall j :: j in s.started ==> j < s.submitted)
    && (forall j :: j in s.queue ==> j < s.submitted)
    && (forall j :: j in s.running <==> j in s.started && j !in s.settled)
    && (forall j :: j in s.settled ==> j in s.started)
    && Distinct(s.settled)
  }

  function Init(b: Bound): State {
    State(b, 0, [], 0, {}, [], [])
  }

  /** `pLimit(concurrency)`: a fresh limiter, or the `TypeError` for an invalid bound. */
  function Create(concurrency: JsValue): (r: Result<State, TypeError>)
    ensures r.Ok? <==>
              || concurrency.PositiveInfinity?
              || (concurrency.Number? && concurrency.x >= 1.0 && concurrency.x.Floor as real == concurrency.x)
    ensures r.Err? ==> r.error == TypeError(BoundMessage)
    ensures r.Ok? ==> Valid(r.value)
    ensures r.Ok? ==> ActiveCount(r.value) == 0 && PendingCount(r.value) == 0
    ensures r.Ok? ==> Validate(concurrency) == Ok(r.value.bound)
    ensures r.Ok? ==> r.value.queue == [] && r.value.settled == []
    ensures r.Ok? ==> r.value.running == {} && r.value.started == [] && r.value.submitted == 0
    ensures r.Ok? ==> (r.value.bound.Unbounded? <==> concurrency.PositiveInfinity?)
  {
    match Validate(concurrency)
    case Err(e) => Err(e)
    case Ok(b) => Ok(Init(b))
  }

  /** The `activeCount` getter. */
  function ActiveCount(s: State): (r: int)
    ensures Valid(s) ==> 0 <= r == |s.running|
    ensures Valid(s) && s.bound.Finite? ==> r <= s.bound.n
  {
    s.activeCount
  }

  /** The `pendingCount` getter: the length of the queue. */
  function PendingCount(s: State): (r: nat)
    ensures Valid(s) && r > 0 ==> s.bound.Finite? && ActiveCount(s) == s.bound.n
    ensures Valid(s) && s.bound.Unbounded? ==> r == 0
  {
    |s.queue|
  }

  /** `run`: take a slot and start the job. Starting a job that holds no slot yet keeps
      the counter equal to the number of running jobs. */
  function Run(s: State, job: JobId): (r: State)
    ensures job !in s.running && s.activeCount == |s.running| ==> r.activeCount == |r.running|
    ensures r.activeCount == s.activeCount + 1
    ensures r.running == s.running + {job} && r.started == s.started + [job]
    ensures r.bound == s.bound && r.queue == s.queue && r.settled == s.settled && r.submitted == s.submitted
  {
    s.(activeCount := s.activeCount + 1, running := s.running + {job}, started := s.started + [job])
  }

  /** `enqueue` for the next submission: start it at once while a slot is free,
      otherwise append it to the tail of the queue. */
  function Enqueue(s: State): (r: State)
    ensures r.submitted == s.submitted + 1
    ensures r.bound == s.bound && r.settled == s.settled
    ensures Admits(s.bound, s.activeCount) ==>
              && r.activeCount == s.activeCount + 1
              && r.queue == s.queue
              && r.running == s.running + {s.submitted}
              && r.started == s.started + [s.submitted]
    ensures !Admits(s.bound, s.activeCount) ==>
              && r.activeCount == s.activeCount
              && r.queue == s.queue + [s.submitted]
              && r.running == s.running
              && r.started == s.started
  {
    var job := s.submitted;
    var s' := s.(submitted := s.submitted + 1);
    if Admits(s.bound, s.activeCount) then Run(s', job) else s'.(queue := s.queue + [job])
  }

  /** `next`: give back a slot, then start the head of the queue, if any. */
  function Next(s: State): (r: State)
    ensures |s.queue| > 0 ==>
              && r.activeCount == s.activeCount
              && r.queue == s.queue[1..]
              && r.running == s.running + {s.queue[0]}
              && r.started == s.started + [s.queue[0]]
    ensures |s.queue| == 0 ==>
              && r.activeCount == s.activeCount - 1
              && r.queue == []
              && r.running == s.running
              && r.started == s.started
    ensures r.bound == s.bound && r.submitted == s.submitted && r.settled == s.settled
  {
    var s' := s.(activeCount := s.activeCount - 1);
    if |s.queue| > 0 then Run(s'.(queue := s.queue[1..]), s.queue[0]) else s'
  }

  /** A running job settles, whatever its outcome: it gives up its slot through `next`,
      which starts exactly the head of the queue when there is one. */
  function Settle(s: State, job: JobId, outcome: Outcome): (r: State)
    requires job in s.running
    ensures r.settled == s.settled + [job]
    ensures |s.queue| > 0 ==>
              && r.activeCount == s.activeCount
              && r.queue == s.queue[1..]
              && r.started == s.started + [s.queue[0]]
              && r.running == (s.running - {job}) + {s.queue[0]}
    ensures |s.queue| == 0 ==>
              && r.activeCount == s.activeCount - 1
              && r.queue == []
              && r.started == s.started
              && r.running == s.running - {job}
    ensures r.bound == s.bound && r.submitted == s.submitted
  {
    Next(s.(running := s.running - {job}, settled := s.settled + [job]))
  }

  /** `clearQueue`: drop every waiting task; running tasks are untouched. */
  function ClearQueue(s: State): (r: State)
    ensures PendingCount(r) == 0
    ensures ActiveCount(r) == ActiveCount(s)
    ensures r.running == s.running && r.started == s.started && r.settled == s.settled
    ensures r.bound == s.bound && r.submitted == s.submitted
  {
    s.(queue := [])
  }

  lemma DisjointWhenIncreasing(a: seq<JobId>, b: seq<JobId>)
    requires Increasing(a + b)
    ensures forall i, k :: 0 <= i < |a| && 0 <= k < |b| ==> a[i] < b[k]
    ensures forall x :: x in a ==> x !in b
  {
    forall i, k | 0 <= i < |a| && 0 <= k < |b|
      ensures a[i] < b[k]
    {
      assert (a + b)[i] < (a + b)[|a| + k];
    }
  }

  lemma IncreasingPrefix(a: seq<JobId>, b: seq<JobId>)
    requires Increasing(a + b)
    ensures Increasing(a)
  {
    forall i, j | 0 <= i < j < |a|
      ensures a[i] < a[j]
    {
      assert (a + b)[i] < (a + b)[j];
    }
  }

  lemma IncreasingAppend(a: seq<JobId>, x: JobId)
    requires Increasing(a)
    requires forall j :: j in a ==> j < x
    ensures Increasing(a + [x])
  {
    forall i, j | 0 <= i < j < |a + [x]|
      ensures (a + [x])[i] < (a + [x])[j]
    {
      if j == |a| {
        assert (a + [x])[i] in a;
      }
    }
  }

  /** A submission keeps the invariant. */
  lemma ValidAfterEnqueue(s: State)
    requires Valid(s)
    ensures Valid(Enqueue(s))
  {
    var r := Enqueue(s);
    var job := s.submitted;
    if Admits(s.bound, s.activeCount) {
      assert s.queue == [];
      assert s.started + s.queue == s.started;
      assert job !in s.running && job !in s.settled;
      IncreasingAppend(s.started, job);
      assert r.started + r.queue == s.started + [job];
    } else {
      IncreasingAppend(s.started + s.queue, job);
      assert r.started + r.queue == (s.started + s.queue) + [job];
    }
  }

  /** A settlement keeps the invariant. */
  lemma ValidAfterSettle(s: State, job: JobId, outcome: Outcome)
    requires Valid(s)
    requires job in s.running
    ensures Valid(Settle(s, job, outcome))
    ensures job !in Settle(s, job, outcome).running
  {
    var r := Settle(s, job, outcome);
    assert job !in s.settled;
    if |s.queue| > 0 {
      var h := s.queue[0];
      DisjointWhenIncreasing(s.started, s.queue);
      assert h !in s.started;
      assert h != job && h !in s.running && h !in s.settled;
      assert h in s.queue && h < s.submitted;
      assert forall j :: j in r.queue ==> j in s.queue;
      assert r.started + r.queue == s.started + s.queue;
    } else {
      assert r.started + r.queue == s.started + s.queue;
    }
  }

  /** Clearing the queue keeps the invariant. */
  lemma ValidAfterClearQueue(s: State)
    requires Valid(s)
    ensures Valid(ClearQueue(s))
  {
    IncreasingPrefix(s.started, s.queue);
    assert ClearQueue(s).started + [] == s.started;
  }
}
