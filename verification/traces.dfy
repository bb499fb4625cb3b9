/** Limiters driven by arbitrary sequences of events: submissions through the generator
    (p-limit/index.js, line 57), settlements of running tasks delivered by the host
    through `result.then(next, next)` (line 41), and calls of `clearQueue` (lines 65-68). */
module Traces {
  import opened Wrappers
  import opened Concurrency
  import opened Limiter

  datatype Event =
    | Submit
    | Complete(job: JobId, outcome: Outcome)
    | Clear

  /** One event. A settlement is delivered only for a task that is running; any other
      `Complete` is refused (the host settles each started promise exactly once). */
  function Step(s: State, e: Event): (r: Option<State>)
    ensures r.None? <==> e.Complete? && e.job !in s.running
  {
    match e
    case Submit => Some(Enqueue(s))
    case Complete(job, outcome) => if job in s.running then Some(Settle(s, job, outcome)) else None
    case Clear => Some(ClearQueue(s))
  }

  /** The state after a sequence of events, or `None` if one of them is refused. */
  function Replay(s: State, events: seq<Event>): Option<State>
    decreases |events|
  {
    if |events| == 0 then Some(s)
    else
      match Step(s, events[0])
      case None => None
      case Some(s') => Replay(s', events[1..])
  }

  function SubmitCount(events: seq<Event>): nat {
    if |events| == 0 then 0
    else (if events[0].Submit? then 1 else 0) + SubmitCount(events[1..])
  }

  predicate NoClear(events: seq<Event>) {
    forall i :: 0 <= i < |events| ==> !events[i].Clear?
  }

  /** The job ids 0, 1, ..., n - 1: the first n submissions, in order. */
  function Submissions(n: nat): seq<JobId> {
    seq(n, i => i)
  }

  lemma ReplayCons(s: State, e: Event, events: seq<Event>)
    ensures Replay(s, [e] + events) ==
              match Step(s, e)
              case None => None
              case Some(s') => Replay(s', events)
  {
    assert ([e] + events)[0] == e;
    assert ([e] + events)[1..] == events;
  }

  /** Every accepted event keeps the invariant. */
  lemma StepPreservesValid(s: State, e: Event)
    requires Valid(s)
    requires Step(s, e).Some?
    ensures Valid(Step(s, e).value)
  {
    match e
    case Submit => ValidAfterEnqueue(s);
    case Complete(job, outcome) => ValidAfterSettle(s, job, outcome);
    case Clear => ValidAfterClearQueue(s);
  }

  /** Every accepted trace keeps the invariant. */
  lemma {:induction false} ReplayPreservesValid(s: State, events: seq<Event>)
    requires Valid(s)
    requires Replay(s, events).Some?
    ensures Valid(Replay(s, events).value)
    decreases |events|
  {
    if |events| > 0 {
      StepPreservesValid(s, events[0]);
      ReplayPreservesValid(Step(s, events[0]).value, events[1..]);
    }
  }

  /** Job ids are submission indexes: after a trace, the submission counter has grown by
      the number of `Submit` events in it, and it is all the trace changes about the bound. */
  lemma {:induction false} SubmittedCountsSubmissions(s: State, events: seq<Event>)
    requires Replay(s, events).Some?
    ensures Replay(s, events).value.submitted == s.submitted + SubmitCount(events)
    ensures Replay(s, events).value.bound == s.bound
    decreases |events|
  {
    if |events| > 0 {
      SubmittedCountsSubmissions(Step(s, events[0]).value, events[1..]);
    }
  }

  /** The bound is respected in every state reachable from a fresh limiter:
      `0 <= activeCount <= concurrency`, the counter equals the number of running tasks,
      a task waits only while every slot is taken, and an unbounded limiter never queues. */
  lemma BoundRespected(concurrency: JsValue, events: seq<Event>)
    requires Create(concurrency).Ok?
    requires Replay(Create(concurrency).value, events).Some?
    ensures var s := Replay(Create(concurrency).value, events).value;
      && 0 <= ActiveCount(s) == |s.running|
      && (s.bound.Finite? ==> ActiveCount(s) <= s.bound.n)
      && (PendingCount(s) > 0 ==> s.bound.Finite? && ActiveCount(s) == s.bound.n)
      && (concurrency.PositiveInfinity? ==> PendingCount(s) == 0)
  {
    var s0 := Create(concurrency).value;
    ReplayPreservesValid(s0, events);
    SubmittedCountsSubmissions(s0, events);
  }

  /** FIFO fairness: in every reachable state tasks have started in submission order,
      and no started task was submitted after a task that is still waiting. */
  lemma StartOrderIsSubmissionOrder(concurrency: JsValue, events: seq<Event>)
    requires Create(concurrency).Ok?
    requires Replay(Create(concurrency).value, events).Some?
    ensures var s := Replay(Create(concurrency).value, events).value;
      && (forall i, j :: 0 <= i < j < |s.started| ==> s.started[i] < s.started[j])
      && (forall i, k :: 0 <= i < |s.started| && 0 <= k < |s.queue| ==> s.started[i] < s.queue[k])
  {
    var s := Replay(Create(concurrency).value, events).value;
    ReplayPreservesValid(Create(concurrency).value, events);
    IncreasingPrefix(s.started, s.queue);
    DisjointWhenIncreasing(s.started, s.queue);
  }

  lemma AccountedAfterStep(s: State, e: Event)
    requires Valid(s)
    requires s.started + s.queue == Submissions(s.submitted)
    requires !e.Clear?
    requires Step(s, e).Some?
    ensures Step(s, e).value.started + Step(s, e).value.queue == Submissions(Step(s, e).value.submitted)
  {
    var r := Step(s, e).value;
    match e
    case Submit =>
      if Admits(s.bound, s.activeCount) {
        assert s.queue == [];
        assert r.started + r.queue == (s.started + s.queue) + [s.submitted];
      } else {
        assert r.started + r.queue == (s.started + s.queue) + [s.submitted];
      }
    case Complete(job, outcome) =>
      if |s.queue| > 0 {
        assert r.started + r.queue == s.started + ([s.queue[0]] + s.queue[1..]);
        assert [s.queue[0]] + s.queue[1..] == s.queue;
      }
  }

  lemma {:induction false} AccountedAfterReplay(s: State, events: seq<Event>)
    requires Valid(s)
    requires s.started + s.queue == Submissions(s.submitted)
    requires NoClear(events)
    requires Replay(s, events).Some?
    ensures Replay(s, events).value.started + Replay(s, events).value.queue
              == Submissions(Replay(s, events).value.submitted)
    decreases |events|
  {
    if |events| > 0 {
      var s1 := Step(s, events[0]).value;
      assert !events[0].Clear?;
      AccountedAfterStep(s, events[0]);
      StepPreservesValid(s, events[0]);
      assert NoClear(events[1..]) by {
        forall i | 0 <= i < |events[1..]|
          ensures !events[1..][i].Clear?
        {
          assert events[1..][i] == events[i + 1];
        }
      }
      AccountedAfterReplay(s1, events[1..]);
    }
  }

  /** Without `clearQueue`, no submission is lost or reordered: the started tasks
      followed by the waiting ones are exactly the submissions so far, in order; so the
      started tasks are the first submissions, with no gap. */
  lemma AllSubmissionsInOrder(concurrency: JsValue, events: seq<Event>)
    requires Create(concurrency).Ok?
    requires NoClear(events)
    requires Replay(Create(concurrency).value, events).Some?
    ensures var s := Replay(Create(concurrency).value, events).value;
      && s.started + s.queue == Submissions(s.submitted)
      && s.started == Submissions(|s.started|)
  {
    var s0 := Create(concurrency).value;
    assert s0.started + s0.queue == Submissions(0);
    AccountedAfterReplay(s0, events);
    var s := Replay(s0, events).value;
    assert s.started == (s.started + s.queue)[..|s.started|];
  }

  /** With a bound of one, tasks run one at a time after any trace, and without
      `clearQueue` the started tasks are exactly the first submissions, in order. */
  lemma SerialWithBoundOne(events: seq<Event>)
    requires Replay(Create(Number(1.0)).value, events).Some?
    ensures var s := Replay(Create(Number(1.0)).value, events).value;
      && |s.running| <= 1
      && (NoClear(events) ==> s.started == Submissions(|s.started|))
  {
    var s0 := Create(Number(1.0)).value;
    assert s0.bound == Finite(1) by {
      assert Validate(Number(1.0)).value.n as real == 1.0;
    }
    SubmittedCountsSubmissions(s0, events);
    BoundRespected(Number(1.0), events);
    if NoClear(events) {
      AllSubmissionsInOrder(Number(1.0), events);
    }
  }

  /** A job that was submitted but neither started nor waiting never starts later. */
  lemma {:induction false} DroppedNeverStarts(s: State, events: seq<Event>, job: JobId)
    requires job < s.submitted && job !in s.started && job !in s.queue
    requires Replay(s, events).Some?
    ensures job !in Replay(s, events).value.started
    ensures job !in Replay(s, events).value.queue
    decreases |events|
  {
    if |events| > 0 {
      var s1 := Step(s, events[0]).value;
      if events[0].Complete? && |s.queue| > 0 {
        assert s.queue[0] in s.queue;
        assert forall j :: j in s1.queue ==> j in s.queue;
      }
      DroppedNeverStarts(s1, events[1..], job);
    }
  }

  /** `clearQueue` empties the queue and leaves the running tasks alone, and the tasks it
      drops never start, whatever happens afterwards. */
  lemma ClearedNeverStart(s: State, events: seq<Event>)
    requires Valid(s)
    requires Replay(ClearQueue(s), events).Some?
    ensures PendingCount(ClearQueue(s)) == 0 && ClearQueue(s).running == s.running
    ensures forall job :: job in s.queue ==> job !in Replay(ClearQueue(s), events).value.started
  {
    DisjointWhenIncreasing(s.started, s.queue);
    forall job | job in s.queue
      ensures job !in Replay(ClearQueue(s), events).value.started
    {
      DroppedNeverStarts(ClearQueue(s), events, job);
    }
  }

  /** The tasks that have settled stay settled, each once: another settlement for one of
      them is refused, and the record of settlements holds no job twice. */
  lemma SettlesAtMostOnce(s: State, events: seq<Event>, job: JobId, outcome: Outcome)
    requires Valid(s)
    requires Replay(s, events).Some?
    requires job in Replay(s, events).value.settled
    ensures Step(Replay(s, events).value, Complete(job, outcome)).None?
    ensures Distinct(Replay(s, events).value.settled)
  {
    ReplayPreservesValid(s, events);
  }

  /** Two events that differ at most in a settlement's outcome. */
  predicate SameBookkeeping(e1: Event, e2: Event) {
    match e1
    case Complete(job, _) => e2.Complete? && e2.job == job
    case _ => e2 == e1
  }

  /** A task that fails, or throws synchronously, releases its slot exactly as one that
      succeeds: traces that differ only in outcomes lead to the same limiter. */
  lemma {:induction false} OutcomeIrrelevant(s: State, events1: seq<Event>, events2: seq<Event>)
    requires |events1| == |events2|
    requires forall i :: 0 <= i < |events1| ==> SameBookkeeping(events1[i], events2[i])
    ensures Replay(s, events1) == Replay(s, events2)
    decreases |events1|
  {
    if |events1| > 0 {
      assert SameBookkeeping(events1[0], events2[0]);
      assert Step(s, events1[0]) == Step(s, events2[0]);
      if Step(s, events1[0]).Some? {
        forall i | 0 <= i < |events1[1..]|
          ensures SameBookkeeping(events1[1..][i], events2[1..][i])
        {
          assert SameBookkeeping(events1[i + 1], events2[i + 1]);
        }
        OutcomeIrrelevant(Step(s, events1[0]).value, events1[1..], events2[1..]);
      }
    }
  }

  predicate AllCompletions(events: seq<Event>) {
    forall i :: 0 <= i < |events| ==> events[i].Complete?
  }

  /** `events`, all settlements, take `s` to an idle limiter in which every task that was
      waiting has started, in queue order. */
  ghost predicate DrainsTo(s: State, events: seq<Event>) {
    && AllCompletions(events)
    && Replay(s, events).Some?
    && Replay(s, events).value.queue == []
    && Replay(s, events).value.activeCount == 0
    && Replay(s, events).value.started == s.started + s.queue
  }

  /** Progress: if the host settles the running tasks, every waiting task gets to run
      and the limiter becomes idle. */
  lemma {:induction false} EventuallyDrains(s: State)
    requires Valid(s)
    ensures exists events :: DrainsTo(s, events)
    decreases |s.running| + |s.queue|
  {
    if s.running == {} {
      assert s.queue == [];
      assert Replay(s, []) == Some(s);
      assert DrainsTo(s, []);
    } else {
      var job :| job in s.running;
      var s1 := Settle(s, job, Fulfilled);
      ValidAfterSettle(s, job, Fulfilled);
      assert s1.started + s1.queue == s.started + s.queue by {
        if |s.queue| > 0 {
          assert [s.queue[0]] + s.queue[1..] == s.queue;
          assert s1.started + s1.queue == s.started + ([s.queue[0]] + s.queue[1..]);
        }
      }
      EventuallyDrains(s1);
      var rest :| DrainsTo(s1, rest);
      var events := [Complete(job, Fulfilled)] + rest;
      ReplayCons(s, Complete(job, Fulfilled), rest);
      assert Replay(s, events) == Replay(s1, rest);
      assert AllCompletions(events) by {
        forall i | 0 <= i < |events|
          ensures events[i].Complete?
        {
          if i > 0 {
            assert events[i] == rest[i - 1];
          }
        }
      }
      assert DrainsTo(s, events);
    }
  }

  /** A settlement never loses or reorders a task: the started tasks followed by the
      waiting ones are the same sequence before and after it. */
  lemma {:induction false} CompletionsKeepOrder(s: State, events: seq<Event>)
    requires AllCompletions(events)
    requires Replay(s, events).Some?
    ensures Replay(s, events).value.started + Replay(s, events).value.queue == s.started + s.queue
    decreases |events|
  {
    if |events| > 0 {
      var s1 := Step(s, events[0]).value;
      assert events[0].Complete?;
      assert s1.started + s1.queue == s.started + s.queue by {
        if |s.queue| > 0 {
          assert [s.queue[0]] + s.queue[1..] == s.queue;
          assert s1.started + s1.queue == s.started + ([s.queue[0]] + s.queue[1..]);
        }
      }
      assert AllCompletions(events[1..]) by {
        forall i | 0 <= i < |events[1..]|
          ensures events[1..][i].Complete?
        {
          assert events[1..][i] == events[i + 1];
        }
      }
      CompletionsKeepOrder(s1, events[1..]);
    }
  }

  /** Progress whatever order the host settles tasks in: once every running task has
      settled, the queue is empty and every task that was waiting has started, in queue
      order. */
  lemma EveryOrderDrains(s: State, events: seq<Event>)
    requires Valid(s)
    requires AllCompletions(events)
    requires Replay(s, events).Some?
    requires Replay(s, events).value.running == {}
    ensures Replay(s, events).value.queue == []
    ensures Replay(s, events).value.activeCount == 0
    ensures Replay(s, events).value.started == s.started + s.queue
  {
    ReplayPreservesValid(s, events);
    CompletionsKeepOrder(s, events);
  }
}
