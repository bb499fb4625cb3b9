/** Concrete runs of the limiter: a rejected bound, a serial limiter whose first task throws, and `clearQueue` on a saturated limiter. */
module Scenarios {
  import opened Wrappers
  import opened Concurrency
  import opened Limiter
  import opened Traces

  /** A bound of zero is refused with the `TypeError`, and no limiter is produced. */
  lemma ZeroRejected()
    ensures Create(Number(0.0)) == Err(TypeError(BoundMessage))
  {
  }

  /** Bound one, two submissions: the second task waits while the first runs. */
  lemma SecondWaitsForFirst()
    ensures var s := Replay(Create(Number(1.0)).value, [Submit, Submit]).value;
      PendingCount(s) == 1 && s.queue == [1] && s.started == [0]
  {
    var s0 := Create(Number(1.0)).value;
    assert s0 == Init(Finite(1)) by {
      assert Validate(Number(1.0)).value.n as real == 1.0;
    }
    var s1 := State(Finite(1), 1, [], 1, {0}, [0], []);
    var s2 := State(Finite(1), 1, [1], 2, {0}, [0], []);
    assert Step(s0, Submit) == Some(s1) by {
      assert Admits(Finite(1), 0);
      assert {} + {0} == {0} && [] + [0] == [0];
    }
    assert Step(s1, Submit) == Some(s2) by {
      assert !Admits(Finite(1), 1);
      assert [] + [1] == [1];
    }
    ReplayCons(s0, Submit, [Submit]);
    ReplayCons(s1, Submit, []);
  }

  /** Bound one: when the first task throws synchronously, its slot passes to the
      waiting second task and nothing is left pending. */
  lemma ThrowReleasesSlot()
    ensures var s := Replay(Create(Number(1.0)).value, [Submit, Submit, Complete(0, ThrewSynchronously)]).value;
      PendingCount(s) == 0 && s.started == [0, 1] && s.running == {1}
  {
    var s0 := Create(Number(1.0)).value;
    assert s0 == Init(Finite(1)) by {
      assert Validate(Number(1.0)).value.n as real == 1.0;
    }
    var s1 := State(Finite(1), 1, [], 1, {0}, [0], []);
    var s2 := State(Finite(1), 1, [1], 2, {0}, [0], []);
    var s3 := State(Finite(1), 1, [], 2, {1}, [0, 1], [0]);
    assert Step(s0, Submit) == Some(s1) by {
      assert Admits(Finite(1), 0);
      assert {} + {0} == {0} && [] + [0] == [0];
    }
    assert Step(s1, Submit) == Some(s2) by {
      assert !Admits(Finite(1), 1);
      assert [] + [1] == [1];
    }
    assert Step(s2, Complete(0, ThrewSynchronously)) == Some(s3) by {
      assert 0 in s2.running;
      assert ({0} - {0}) + {1} == {1} && [0] + [1] == [0, 1] && [] + [0] == [0];
      assert s2.queue[1..] == [];
    }
    ReplayCons(s0, Submit, [Submit, Complete(0, ThrewSynchronously)]);
    ReplayCons(s1, Submit, [Complete(0, ThrewSynchronously)]);
    ReplayCons(s2, Complete(0, ThrewSynchronously), []);
  }

  /** Bound two, four submissions, then `clearQueue`: the first two run, the other two
      are dropped and never start. */
  lemma ClearDropsWaiting()
    ensures var s := Replay(Create(Number(2.0)).value, [Submit, Submit, Submit, Submit, Clear]).value;
      PendingCount(s) == 0 && s.started == [0, 1] && s.running == {0, 1}
  {
    var s0 := Create(Number(2.0)).value;
    assert s0.bound == Finite(2) by {
      assert Validate(Number(2.0)).value.n as real == 2.0;
    }
    var s1 := Enqueue(s0);
    assert s1.activeCount == 1 && s1.queue == [] && s1.started == [0] && s1.running == {0};
    var s2 := Enqueue(s1);
    assert s2.activeCount == 2 && s2.queue == [] && s2.started == [0, 1] && s2.running == {0, 1};
    var s3 := Enqueue(s2);
    assert s3.activeCount == 2 && s3.queue == [2] && s3.started == [0, 1] && s3.running == {0, 1};
    var s4 := Enqueue(s3);
    assert s4.queue == [2, 3] && s4.started == [0, 1] && s4.running == {0, 1};
    ReplayCons(s0, Submit, [Submit, Submit, Submit, Clear]);
    ReplayCons(s1, Submit, [Submit, Submit, Clear]);
    ReplayCons(s2, Submit, [Submit, Clear]);
    ReplayCons(s3, Submit, [Clear]);
    ReplayCons(s4, Clear, []);
  }
}
