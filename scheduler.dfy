/** The Promisque queue as a pure state machine.

    A queue holds task descriptors in FIFO order, a pause flag and a "sticky"
    mode. Scheduling is described by the work the queue has handed out: in
    "pipe" mode a set of lanes, each bound to one task at a time; in any other
    mode a cohort of tasks waited on jointly. The asynchronous completions of
    that work are explicit events (LaneSucceeds, LaneFails, CohortSucceeds,
    CohortFails) that may fire in any order. */
module Scheduler {

  datatype Option<T> = None | Some(value: T)

  /** A value handed to push: a function object, identified by reference, or
      anything else (numbers, strings, objects, null, ...). */
  datatype Value = Function(ref: nat) | NonFunction(ref: nat)

  /** A queued descriptor: the callback and the arguments bound at push time. */
  datatype Task = Task(callback: nat, arguments: seq<Value>)

  /** A lane in pipe mode runs one task at a time; it goes idle ("drained")
      when the queue is empty on refill and halts for good when a task fails. */
  datatype LaneStatus = Busy(task: Task) | Drained | Halted

  /** `slot` is the index q that run hands to createPipe. */
  datatype Lane = Lane(slot: int, status: LaneStatus)

  datatype Settlement = Pending | Resolved | Rejected

  /** A batch: the tasks spliced off together, the count of the run call that
      started them (reused by the continuation) and their joint settlement. */
  datatype Cohort = Cohort(tasks: seq<Task>, count: int, settlement: Settlement)

  /** run either returns normally or throws a TypeError (pipe mode, more lanes
      requested than tasks were spliced off). */
  datatype RunOutcome = Returned | ThrewTypeError

  datatype State = State(
    stack: seq<Task>,
    interrupt: bool,
    mode: Option<string>,
    lanes: seq<Lane>,
    cohorts: seq<Cohort>)

  const PIPE: string := "pipe"

  /** A fresh queue: empty, not interrupted, no mode chosen, nothing in flight. */
  function Initial(): State
  {
    State([], false, None, [], [])
  }

  /** Scheduling happens only when there is something queued and no pause. */
  predicate Ready(s: State)
  {
    s.stack != [] && !s.interrupt
  }

  predicate IsSuffix(t: seq<Task>, s: seq<Task>)
  {
    |t| <= |s| && t == s[|s| - |t|..]
  }

  // ---------------------------------------------------------------- push

  /** push accepts a call only when it has arguments and the first is a function. */
  predicate Accepts(args: seq<Value>)
  {
    |args| > 0 && args[0].Function?
  }

  /** The descriptor an accepted call stores: the function and the remaining arguments. */
  function Describe(args: seq<Value>): Task
    requires Accepts(args)
  {
    Task(args[0].ref, args[1..])
  }

  function Push(s: State, args: seq<Value>): (t: State)
    ensures Accepts(args) ==>
              |t.stack| == |s.stack| + 1 && t.stack[..|s.stack|] == s.stack &&
              t.stack[|s.stack|].callback == args[0].ref &&
              [args[0]] + t.stack[|s.stack|].arguments == args
    ensures !Accepts(args) ==> t == s
    ensures t.interrupt == s.interrupt && t.mode == s.mode
    ensures t.lanes == s.lanes && t.cohorts == s.cohorts
  {
    if Accepts(args) then s.(stack := s.stack + [Describe(args)]) else s
  }

  // ---------------------------------------------------------------- next

  /** next: the removed head, or None on an empty queue, and the new state. */
  function Next(s: State): (r: (Option<Task>, State))
    ensures r.0.Some? <==> s.stack != []
    ensures r.0.Some? ==> [r.0.value] + r.1.stack == s.stack
    ensures r.0.None? ==> r.1 == s
    ensures r.1.interrupt == s.interrupt && r.1.mode == s.mode
    ensures r.1.lanes == s.lanes && r.1.cohorts == s.cohorts
  {
    if |s.stack| > 0 then (Some(s.stack[0]), s.(stack := s.stack[1..])) else (None, s)
  }

  // ---------------------------------------------------------------- run

  /** How many items `splice(0, count)` removes from an array of the given length. */
  function SpliceCount(count: int, length: nat): (k: nat)
    ensures k <= length
    ensures count <= 0 ==> k == 0
    ensures 0 <= count <= length ==> k == count
    ensures count >= length ==> k == length
  {
    if count <= 0 then 0 else if count < length then count else length
  }

  /** The lanes run starts, one per spliced task, in dequeue order. */
  function Lanes(tasks: seq<Task>): (ls: seq<Lane>)
    ensures |ls| == |tasks|
    ensures forall q :: 0 <= q < |ls| ==> ls[q].slot == q && ls[q].status == Busy(tasks[q])
  {
    seq(|tasks|, q requires 0 <= q < |tasks| => Lane(q, Busy(tasks[q])))
  }

  /** run(count, mode): set the mode when one is given; unless the queue is
      empty or interrupted, splice up to count tasks off the head and start
      them as lanes ("pipe") or as one cohort (anything else). */
  function Run(s: State, count: int, mode: Option<string>): (r: (State, RunOutcome))
    ensures r.0.mode == (if mode.Some? then mode else s.mode)
    ensures r.0.interrupt == s.interrupt
    ensures !Ready(s) ==>
              r.0.stack == s.stack && r.0.lanes == s.lanes && r.0.cohorts == s.cohorts &&
              r.1 == Returned
    ensures Ready(s) ==>
              |s.stack| - |r.0.stack| == SpliceCount(count, |s.stack|) &&
              IsSuffix(r.0.stack, s.stack)
    ensures Ready(s) && r.0.mode == Some(PIPE) ==>
              r.0.cohorts == s.cohorts &&
              r.0.lanes == s.lanes + Lanes(s.stack[..|s.stack| - |r.0.stack|])
    ensures Ready(s) && r.0.mode != Some(PIPE) ==>
              r.0.lanes == s.lanes &&
              r.0.cohorts == s.cohorts + [Cohort(s.stack[..|s.stack| - |r.0.stack|], count, Pending)]
    ensures r.1 == ThrewTypeError <==> Ready(s) && r.0.mode == Some(PIPE) && count > |s.stack|
  {
    var s1 := if mode.Some? then s.(mode := mode) else s;
    if !Ready(s1) then (s1, Returned)
    else
      var k := SpliceCount(count, |s1.stack|);
      var callbacks := s1.stack[..k];
      var s2 := s1.(stack := s1.stack[k..]);
      if s2.mode == Some(PIPE) then
        (s2.(lanes := s2.lanes + Lanes(callbacks)),
         if count > k then ThrewTypeError else Returned)
      else
        (s2.(cohorts := s2.cohorts + [Cohort(callbacks, count, Pending)]), Returned)
  }

  // ---------------------------------------------------------------- lane events

  predicate LaneInFlight(s: State, i: nat)
  {
    i < |s.lanes| && s.lanes[i].status.Busy?
  }

  /** The task of lane i succeeded: the lane takes the next queued task, or
      goes idle when the queue is empty. The pause flag is not looked at. */
  function LaneSucceeds(s: State, i: nat): (t: State)
    ensures !LaneInFlight(s, i) ==> t == s
    ensures LaneInFlight(s, i) ==>
              |t.lanes| == |s.lanes| && t.lanes[i].slot == s.lanes[i].slot &&
              forall l :: 0 <= l < |s.lanes| && l != i ==> t.lanes[l] == s.lanes[l]
    ensures LaneInFlight(s, i) && s.stack != [] ==>
              t.lanes[i].status.Busy? && [t.lanes[i].status.task] + t.stack == s.stack
    ensures LaneInFlight(s, i) && s.stack == [] ==>
              t.stack == [] && t.lanes[i].status == Drained
    ensures t.interrupt == s.interrupt && t.mode == s.mode && t.cohorts == s.cohorts
  {
    if !LaneInFlight(s, i) then s
    else
      var (item, s1) := Next(s);
      var status := if item.Some? then Busy(item.value) else Drained;
      s1.(lanes := s1.lanes[i := Lane(s.lanes[i].slot, status)])
  }

  /** The task of lane i failed: the lane halts; nothing else changes. */
  function LaneFails(s: State, i: nat): (t: State)
    ensures !LaneInFlight(s, i) ==> t == s
    ensures LaneInFlight(s, i) ==>
              t == s.(lanes := t.lanes) && |t.lanes| == |s.lanes| &&
              t.lanes[i].status == Halted && t.lanes[i].slot == s.lanes[i].slot &&
              forall l :: 0 <= l < |s.lanes| && l != i ==> t.lanes[l] == s.lanes[l]
  {
    if !LaneInFlight(s, i) then s
    else s.(lanes := s.lanes[i := s.lanes[i].(status := Halted)])
  }

  // ---------------------------------------------------------------- cohort events

  predicate CohortInFlight(s: State, j: nat)
  {
    j < |s.cohorts| && s.cohorts[j].settlement == Pending
  }

  /** Every task of cohort j succeeded: the cohort resolves and run is called
      again with the cohort's count and the queue's current mode. */
  function CohortSucceeds(s: State, j: nat): (t: State)
    ensures !CohortInFlight(s, j) ==> t == s
    ensures CohortInFlight(s, j) ==>
              |t.cohorts| >= |s.cohorts| && t.cohorts[j].settlement == Resolved &&
              t.cohorts[j].tasks == s.cohorts[j].tasks
    ensures CohortInFlight(s, j) && !Ready(s) ==>
              t == s.(cohorts := s.cohorts[j := s.cohorts[j].(settlement := Resolved)])
    ensures CohortInFlight(s, j) && Ready(s) ==>
              |s.stack| - |t.stack| == SpliceCount(s.cohorts[j].count, |s.stack|) &&
              IsSuffix(t.stack, s.stack)
    ensures CohortInFlight(s, j) && Ready(s) && s.mode != Some(PIPE) ==>
              t.lanes == s.lanes &&
              t.cohorts == s.cohorts[j := s.cohorts[j].(settlement := Resolved)] +
                           [Cohort(s.stack[..|s.stack| - |t.stack|], s.cohorts[j].count, Pending)]
    ensures CohortInFlight(s, j) && Ready(s) && s.mode == Some(PIPE) ==>
              t.cohorts == s.cohorts[j := s.cohorts[j].(settlement := Resolved)] &&
              t.lanes == s.lanes + Lanes(s.stack[..|s.stack| - |t.stack|])
    ensures t.interrupt == s.interrupt && t.mode == s.mode
  {
    if !CohortInFlight(s, j) then s
    else
      var c := s.cohorts[j];
      var s1 := s.(cohorts := s.cohorts[j := c.(settlement := Resolved)]);
      Run(s1, c.count, s1.mode).0
  }

  /** Some task of cohort j failed: the cohort rejects and nothing continues. */
  function CohortFails(s: State, j: nat): (t: State)
    ensures !CohortInFlight(s, j) ==> t == s
    ensures CohortInFlight(s, j) ==>
              t == s.(cohorts := t.cohorts) && |t.cohorts| == |s.cohorts| &&
              t.cohorts[j].settlement == Rejected && t.cohorts[j].tasks == s.cohorts[j].tasks &&
              forall m :: 0 <= m < |s.cohorts| && m != j ==> t.cohorts[m] == s.cohorts[m]
  {
    if !CohortInFlight(s, j) then s
    else s.(cohorts := s.cohorts[j := s.cohorts[j].(settlement := Rejected)])
  }

  // ---------------------------------------------------------------- control

  function Pause(s: State): (t: State)
    ensures t.interrupt
    ensures t == s.(interrupt := true)
  {
    s.(interrupt := true)
  }

  function Clear(s: State): (t: State)
    ensures t.stack == []
    ensures t == s.(stack := [])
  {
    s.(stack := [])
  }

  /** stop is pause followed by clear. */
  function Stop(s: State): (t: State)
    ensures t.interrupt && t.stack == []
    ensures t.mode == s.mode && t.lanes == s.lanes && t.cohorts == s.cohorts
  {
    Clear(Pause(s))
  }

  // ---------------------------------------------------------------- pause and lanes

  /** A lane's refill does not depend on the pause flag. */
  lemma RefillIgnoresInterrupt(s: State, i: nat, paused: bool)
    ensures LaneSucceeds(s.(interrupt := paused), i) == LaneSucceeds(s, i).(interrupt := paused)
  {
  }

  /** Stop halts pipe lanes only by emptying the queue: a task pushed after
      stop is taken by the next lane that completes. */
  lemma StoppedLaneStillPulls(s: State, i: nat, args: seq<Value>)
    requires LaneInFlight(s, i) && Accepts(args)
    ensures LaneSucceeds(Push(Stop(s), args), i).lanes[i].status == Busy(Describe(args))
    ensures LaneSucceeds(Push(Stop(s), args), i).stack == []
  {
    var t := Push(Stop(s), args);
    assert t.stack == [Describe(args)];
  }

  /** The batch continuation reads the mode current when the cohort resolves:
      a cohort started in batch mode, followed by a switch to "pipe", ends by
      starting a lane instead of a new cohort. */
  lemma ContinuationFollowsCurrentMode(a: Task, b: Task, c: Task)
    ensures var s1 := Run(State([a, b, c], false, None, [], []), 1, None).0;
            var s2 := Run(s1, 1, Some(PIPE)).0;
            var s3 := CohortSucceeds(s2, 0);
            s1.cohorts == [Cohort([a], 1, Pending)] &&
            s3.cohorts == [Cohort([a], 1, Resolved)] &&
            s3.lanes == [Lane(0, Busy(b)), Lane(0, Busy(c))] && s3.stack == []
  {
    var s0 := State([a, b, c], false, None, [], []);
    assert s0.stack[..1] == [a];
    var s1 := Run(s0, 1, None).0;
    assert s1.stack == [b, c] && s1.stack[..1] == [b];
    var s2 := Run(s1, 1, Some(PIPE)).0;
    assert s2.stack == [c] && s2.stack[..1] == [c];
  }
}
