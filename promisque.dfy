/** The Promisque object: a queue of task descriptors updated in place, a
    pause flag and a sticky mode. The lanes and cohorts stand for the
    continuations the promise library holds on the queue's behalf (a
    createPipe `.then` per lane, a `$.when(...).then` per cohort); their
    completions are the event methods at the end of the class. */
module Promisque {
  import opened Scheduler

  class Promisque {
    var stack: seq<Task>
    var interrupt: bool
    var mode: Option<string>
    var lanes: seq<Lane>
    var cohorts: seq<Cohort>

    /** The object's state as a value of the state machine. */
    function Model(): State
      reads this
    {
      State(stack, interrupt, mode, lanes, cohorts)
    }

    constructor ()
      ensures Model() == Initial()
    {
      stack := [];
      interrupt := false;
      mode := None;
      lanes := [];
      cohorts := [];
    }

    /** Queue a callback with its arguments; any other call is dropped. */
    method Push(args: seq<Value>)
      modifies this
      ensures Model() == Scheduler.Push(old(Model()), args)
    {
      if |args| > 0 && args[0].Function? {
        stack := stack + [Task(args[0].ref, args[1..])];
      }
    }

    /** Remove and return the head of the queue, or None when it is empty. */
    method Next() returns (item: Option<Task>)
      modifies this
      ensures (item, Model()) == Scheduler.Next(old(Model()))
    {
      if |stack| > 0 {
        item := Some(stack[0]);
        stack := stack[1..];
      } else {
        item := None;
      }
    }

    /** Start one lane on task c: dispatch it and wait for its completion. */
    method CreatePipe(c: Task, q: int)
      modifies this
      ensures Model() == old(Model()).(lanes := old(lanes) + [Lane(q, Busy(c))])
    {
      lanes := lanes + [Lane(q, Busy(c))];
    }

    /** Set the mode if one is given; unless the queue is empty or paused,
        splice off up to count tasks and start them as lanes or as a cohort.
        In pipe mode the lane loop runs count times, and throws at the first
        index past the spliced tasks. */
    method Run(count: int, newMode: Option<string>) returns (outcome: RunOutcome)
      modifies this
      ensures (Model(), outcome) == Scheduler.Run(old(Model()), count, newMode)
    {
      if newMode.Some? {
        mode := newMode;
      }
      outcome := Returned;
      if |stack| > 0 && !interrupt {
        var k := SpliceCount(count, |stack|);
        var callbacks := stack[..k];
        stack := stack[k..];
        if mode == Some(PIPE) {
          ghost var before := lanes;
          var q := 0;
          while q < count
            invariant 0 <= q <= |callbacks|
            invariant lanes == before + Lanes(callbacks[..q])
            invariant stack == old(stack)[k..] && cohorts == old(cohorts)
            invariant interrupt == old(interrupt) && mode == Some(PIPE)
            decreases count - q
          {
            if q == |callbacks| {
              // callbacks[q] is undefined: reading its callback throws
              assert callbacks[..q] == callbacks;
              outcome := ThrewTypeError;
              return;
            }
            CreatePipe(callbacks[q], q);
            q := q + 1;
          }
          assert callbacks[..q] == callbacks;
        } else {
          cohorts := cohorts + [Cohort(callbacks, count, Pending)];
        }
      }
    }

    /** Set the pause flag; nothing resets it. */
    method Pause()
      modifies this
      ensures Model() == Scheduler.Pause(old(Model()))
    {
      interrupt := true;
    }

    /** Empty the queue; work already handed out is untouched. */
    method Clear()
      modifies this
      ensures Model() == Scheduler.Clear(old(Model()))
    {
      stack := [];
    }

    /** Pause, then clear. */
    method Stop()
      modifies this
      ensures Model() == Scheduler.Stop(old(Model()))
    {
      Pause();
      Clear();
    }

    /** Lane i's task succeeded: the lane pulls the next task, or retires. */
    method LaneSucceeds(i: nat)
      requires LaneInFlight(Model(), i)
      modifies this
      ensures Model() == Scheduler.LaneSucceeds(old(Model()), i)
    {
      var nextCallback := Next();
      if nextCallback.Some? {
        lanes := lanes[i := Lane(lanes[i].slot, Busy(nextCallback.value))];
      } else {
        lanes := lanes[i := Lane(lanes[i].slot, Drained)];
      }
    }

    /** Lane i's task failed: the lane halts and pulls nothing more. */
    method LaneFails(i: nat)
      requires LaneInFlight(Model(), i)
      modifies this
      ensures Model() == Scheduler.LaneFails(old(Model()), i)
    {
      lanes := lanes[i := lanes[i].(status := Halted)];
    }

    /** Every task of cohort j succeeded: run again with the cohort's count
        and the current mode. An exception thrown by that run only rejects
        the continuation's own promise, which nobody observes. */
    method CohortSucceeds(j: nat)
      requires CohortInFlight(Model(), j)
      modifies this
      ensures Model() == Scheduler.CohortSucceeds(old(Model()), j)
    {
      var c := cohorts[j];
      cohorts := cohorts[j := c.(settlement := Resolved)];
      var _ := Run(c.count, mode);
    }

    /** Some task of cohort j failed: the cohort rejects; nothing continues. */
    method CohortFails(j: nat)
      requires CohortInFlight(Model(), j)
      modifies this
      ensures Model() == Scheduler.CohortFails(old(Model()), j)
    {
      cohorts := cohorts[j := cohorts[j].(settlement := Rejected)];
    }
  }

  /** Three tasks through two pipe lanes: the first completion refills its
      lane with the oldest waiting task; later completions drain the lanes. */
  method PipeClient() {
    var p := new Promisque();
    p.Push([Function(1)]);
    p.Push([Function(2)]);
    p.Push([Function(3)]);
    var t1, t2, t3 := Task(1, []), Task(2, []), Task(3, []);
    assert p.stack == [t1, t2, t3];
    var outcome := p.Run(2, Some(PIPE));
    assert [t1, t2, t3][..2] == [t1, t2];
    assert outcome == Returned && p.stack == [t3];
    assert p.lanes == [Lane(0, Busy(t1)), Lane(1, Busy(t2))];
    p.LaneSucceeds(1);
    assert p.lanes == [Lane(0, Busy(t1)), Lane(1, Busy(t3))] && p.stack == [];
    p.LaneSucceeds(0);
    p.LaneSucceeds(1);
    assert p.lanes == [Lane(0, Drained), Lane(1, Drained)];
  }

  /** Four tasks in batches of two: the second cohort starts only when the
      first resolves, and nothing follows the second. */
  method BatchClient() {
    var p := new Promisque();
    var t1, t2, t3, t4 := Task(1, []), Task(2, [NonFunction(7)]), Task(3, []), Task(4, []);
    p.Push([Function(1)]);
    p.Push([Function(2), NonFunction(7)]);
    p.Push([Function(3)]);
    p.Push([Function(4)]);
    assert p.stack == [t1, t2, t3, t4] && p.cohorts == [];
    var outcome := p.Run(2, None);
    assert [t1, t2, t3, t4][..2] == [t1, t2];
    assert p.cohorts == [Cohort([t1, t2], 2, Pending)] && p.stack == [t3, t4];
    assert [t3, t4][..2] == [t3, t4];
    p.CohortSucceeds(0);
    assert p.cohorts == [Cohort([t1, t2], 2, Resolved), Cohort([t3, t4], 2, Pending)];
    assert p.stack == [];
    p.CohortSucceeds(1);
    assert |p.cohorts| == 2 && p.cohorts[1].settlement == Resolved;
  }

  /** Calls without a function first are dropped; the object is otherwise unchanged. */
  method PushClient() {
    var p := new Promisque();
    p.Push([Function(1), NonFunction(2), Function(3)]);
    p.Push([NonFunction(9), Function(4)]);
    p.Push([]);
    assert p.stack == [Task(1, [NonFunction(2), Function(3)])];
  }

  /** A failing lane stops; its sibling goes on pulling work. */
  method FailureClient() {
    var p := new Promisque();
    p.Push([Function(1)]);
    p.Push([Function(2)]);
    p.Push([Function(3)]);
    var outcome := p.Run(2, Some(PIPE));
    p.LaneFails(0);
    p.LaneSucceeds(1);
    assert p.lanes == [Lane(0, Halted), Lane(1, Busy(Task(3, [])))];
  }
}
