/** Runs of the Promisque state machine: any interleaving of calls on the
    queue and completion events, and the properties that hold along it. */
module Traces {
  import opened Scheduler

  /** One call on the queue, or one completion event. */
  datatype Op =
    | PushOp(args: seq<Value>)
    | NextOp
    | RunOp(count: int, mode: Option<string>)
    | PauseOp
    | ClearOp
    | StopOp
    | LaneSucceeded(lane: nat)
    | LaneFailed(lane: nat)
    | CohortSucceeded(cohort: nat)
    | CohortFailed(cohort: nat)

  /** The descriptor an operation adds to the queue, if any. */
  function Accepted(op: Op): seq<Task>
  {
    if op.PushOp? && Accepts(op.args) then [Describe(op.args)] else []
  }

  /** The operations that set the pause flag. */
  predicate Pauses(op: Op)
  {
    op.PauseOp? || op.StopOp?
  }

  /** The operations that overwrite the sticky mode. */
  predicate SetsMode(op: Op)
  {
    op.RunOp? && op.mode.Some?
  }

  /** The effect of one operation. Pushes only append; every other operation
      only removes a prefix of the queue. */
  function Step(s: State, op: Op): (t: State)
    ensures op.PushOp? ==> t.stack == s.stack + Accepted(op)
    ensures !op.PushOp? ==> IsSuffix(t.stack, s.stack)
  {
    match op
    case PushOp(args) => Push(s, args)
    case NextOp => Next(s).1
    case RunOp(count, mode) => Run(s, count, mode).0
    case PauseOp => Pause(s)
    case ClearOp => Clear(s)
    case StopOp => Stop(s)
    case LaneSucceeded(i) => LaneSucceeds(s, i)
    case LaneFailed(i) => LaneFails(s, i)
    case CohortSucceeded(j) => CohortSucceeds(s, j)
    case CohortFailed(j) => CohortFails(s, j)
  }

  /** Only pause and stop touch the flag (and only to set it); only a run
      given a mode touches the mode. */
  lemma StepFlags(s: State, op: Op)
    ensures Step(s, op).interrupt == (s.interrupt || Pauses(op))
    ensures Step(s, op).mode == (if SetsMode(op) then op.mode else s.mode)
  {
  }

  function Exec(s: State, ops: seq<Op>): State
    decreases |ops|
  {
    if ops == [] then s else Exec(Step(s, ops[0]), ops[1..])
  }

  /** The descriptors the operations add, in order. */
  function AcceptedAll(ops: seq<Op>): seq<Task>
    decreases |ops|
  {
    if ops == [] then [] else Accepted(ops[0]) + AcceptedAll(ops[1..])
  }

  /** The prefix of the queue one operation takes away (dequeued or cleared). */
  function Removed(s: State, op: Op): seq<Task>
  {
    if op.PushOp? then [] else s.stack[..|s.stack| - |Step(s, op).stack|]
  }

  /** Everything taken away from the queue along a run, in order. */
  function RemovedAll(s: State, ops: seq<Op>): seq<Task>
    decreases |ops|
  {
    if ops == [] then [] else Removed(s, ops[0]) + RemovedAll(Step(s, ops[0]), ops[1..])
  }

  lemma StepOrder(s: State, op: Op)
    ensures s.stack + Accepted(op) == Removed(s, op) + Step(s, op).stack
  {
  }

  /** FIFO end to end: along any run, what leaves the queue, followed by what
      is still in it, is exactly what was queued at the start followed by
      every accepted push, in push order. */
  lemma {:induction false} QueueOrder(s: State, ops: seq<Op>)
    ensures s.stack + AcceptedAll(ops) == RemovedAll(s, ops) + Exec(s, ops).stack
    decreases |ops|
  {
    if ops != [] {
      var op, rest := ops[0], ops[1..];
      var t := Step(s, op);
      QueueOrder(t, rest);
      StepOrder(s, op);
      Associative(s.stack, Accepted(op), AcceptedAll(rest));
      Associative(Removed(s, op), t.stack, AcceptedAll(rest));
      Associative(Removed(s, op), RemovedAll(t, rest), Exec(t, rest).stack);
    }
  }

  lemma Associative(a: seq<Task>, b: seq<Task>, c: seq<Task>)
    ensures a + (b + c) == (a + b) + c
  {
  }

  /** The pause flag is set after a run exactly when it was set before or
      the run paused or stopped the queue: nothing ever clears it. */
  lemma {:induction false} InterruptNeverCleared(s: State, ops: seq<Op>)
    ensures Exec(s, ops).interrupt <==>
            s.interrupt || exists k :: 0 <= k < |ops| && Pauses(ops[k])
    decreases |ops|
  {
    if ops != [] {
      var t := Step(s, ops[0]);
      InterruptNeverCleared(t, ops[1..]);
      if exists k :: 0 <= k < |ops[1..]| && Pauses(ops[1..][k]) {
        var k :| 0 <= k < |ops[1..]| && Pauses(ops[1..][k]);
        assert Pauses(ops[k + 1]);
      }
      if exists k :: 0 <= k < |ops| && Pauses(ops[k]) {
        var k :| 0 <= k < |ops| && Pauses(ops[k]);
        if k > 0 {
          assert Pauses(ops[1..][k - 1]);
        }
      }
    }
  }

  /** Once paused, no run and no cohort continuation starts anything new:
      the lanes and cohorts in existence never grow. */
  lemma {:induction false} PausedStartsNothing(s: State, ops: seq<Op>)
    requires s.interrupt
    ensures |Exec(s, ops).lanes| == |s.lanes|
    ensures |Exec(s, ops).cohorts| == |s.cohorts|
    decreases |ops|
  {
    if ops != [] {
      var t := Step(s, ops[0]);
      assert |t.lanes| == |s.lanes| && |t.cohorts| == |s.cohorts| by {
        match ops[0]
        case CohortSucceeded(j) =>
          if CohortInFlight(s, j) {
            var s1 := s.(cohorts := s.cohorts[j := s.cohorts[j].(settlement := Resolved)]);
            assert !Ready(s1);
          }
        case _ =>
      }
      PausedStartsNothing(t, ops[1..]);
    }
  }

  /** The mode is sticky: a run that never passes a mode leaves it as it was. */
  lemma {:induction false} ModeSticky(s: State, ops: seq<Op>)
    requires forall k :: 0 <= k < |ops| ==> !SetsMode(ops[k])
    ensures Exec(s, ops).mode == s.mode
    decreases |ops|
  {
    if ops != [] {
      assert !SetsMode(ops[0]);
      ModeSticky(Step(s, ops[0]), ops[1..]);
    }
  }

  /** No lane is newly bound: the lane list keeps its length and every lane
      still busy at the end holds the same task it held at the start. */
  predicate NoNewWork(s: State, t: State)
  {
    |t.lanes| == |s.lanes| && |t.cohorts| == |s.cohorts| &&
    forall l :: 0 <= l < |t.lanes| && t.lanes[l].status.Busy? ==> t.lanes[l] == s.lanes[l]
  }

  lemma QuietStep(s: State, op: Op)
    requires s.stack == [] && s.interrupt && Accepted(op) == []
    ensures Step(s, op).stack == [] && Step(s, op).interrupt
    ensures NoNewWork(s, Step(s, op))
  {
  }

  /** After stop, and as long as nothing more is pushed, the queue stays
      empty and no lane or cohort takes on new work; in-flight tasks may
      still settle. */
  lemma {:induction false} StoppedStaysQuiet(s: State, ops: seq<Op>)
    requires s.stack == [] && s.interrupt
    requires forall k :: 0 <= k < |ops| ==> Accepted(ops[k]) == []
    ensures Exec(s, ops).stack == [] && Exec(s, ops).interrupt
    ensures NoNewWork(s, Exec(s, ops))
    decreases |ops|
  {
    if ops != [] {
      var t := Step(s, ops[0]);
      assert Accepted(ops[0]) == [];
      QuietStep(s, ops[0]);
      StoppedStaysQuiet(t, ops[1..]);
    }
  }

  lemma StopQuiesces(s: State, ops: seq<Op>)
    requires forall k :: 0 <= k < |ops| ==> Accepted(ops[k]) == []
    ensures Exec(Stop(s), ops).stack == []
    ensures NoNewWork(s, Exec(Stop(s), ops))
  {
    StoppedStaysQuiet(Stop(s), ops);
  }

  /** Every cohort holds at most as many tasks as the count it was started with. */
  predicate CohortsBounded(s: State)
  {
    forall c :: c in s.cohorts ==> |c.tasks| <= c.count || c.tasks == []
  }

  lemma BoundedStep(s: State, op: Op)
    requires CohortsBounded(s)
    ensures CohortsBounded(Step(s, op))
  {
  }

  /** The in-flight bound holds per cohort only: a batch never exceeds the
      count of the run call that started it, along any run. */
  lemma {:induction false} CohortsStayBounded(s: State, ops: seq<Op>)
    requires CohortsBounded(s)
    ensures CohortsBounded(Exec(s, ops))
    decreases |ops|
  {
    if ops != [] {
      BoundedStep(s, ops[0]);
      CohortsStayBounded(Step(s, ops[0]), ops[1..]);
    }
  }

  /** After pause, run never resumes the queue: whatever happens in between,
      a later run only (possibly) changes the mode. */
  lemma {:induction false} PausedRunIsInert(s: State, ops: seq<Op>, count: int, mode: Option<string>)
    ensures var t := Exec(Pause(s), ops);
            var r := Run(t, count, mode);
            r.0 == t.(mode := r.0.mode) && r.1 == Returned
  {
    InterruptNeverCleared(Pause(s), ops);
  }
}
