/** How much work is in flight in pipe mode. A run call starts exactly as
    many lanes as it splices tasks off, lane completions never add work, and
    nothing bounds the total across run calls. */
module InFlight {
  import opened Scheduler

  function IsBusy(l: Lane): nat
  {
    if l.status.Busy? then 1 else 0
  }

  /** The number of lanes currently running a task. */
  function BusyLanes(ls: seq<Lane>): nat
    decreases |ls|
  {
    if ls == [] then 0 else IsBusy(ls[0]) + BusyLanes(ls[1..])
  }

  lemma {:induction false} BusyConcat(a: seq<Lane>, b: seq<Lane>)
    ensures BusyLanes(a + b) == BusyLanes(a) + BusyLanes(b)
    decreases |a|
  {
    if a != [] {
      assert (a + b)[0] == a[0] && (a + b)[1..] == a[1..] + b;
      BusyConcat(a[1..], b);
    } else {
      assert a + b == b;
    }
  }

  lemma {:induction false} BusyUpdate(ls: seq<Lane>, i: nat, l: Lane)
    requires i < |ls|
    ensures BusyLanes(ls[i := l]) == BusyLanes(ls) - IsBusy(ls[i]) + IsBusy(l)
    decreases |ls|
  {
    if i == 0 {
      assert ls[i := l][1..] == ls[1..];
    } else {
      assert ls[i := l][1..] == ls[1..][i - 1 := l];
      BusyUpdate(ls[1..], i - 1, l);
    }
  }

  lemma {:induction false} AllBusy(ls: seq<Lane>)
    requires forall q :: 0 <= q < |ls| ==> ls[q].status.Busy?
    ensures BusyLanes(ls) == |ls|
    decreases |ls|
  {
    if ls != [] {
      assert ls[0].status.Busy?;
      AllBusy(ls[1..]);
    }
  }

  /** A pipe-mode run adds one busy lane per spliced task, however many lanes
      are already busy: the count limits each run call, not the total. */
  lemma RunStartsLanes(s: State, count: int, mode: Option<string>)
    requires Ready(s) && Run(s, count, mode).0.mode == Some(PIPE)
    ensures BusyLanes(Run(s, count, mode).0.lanes) ==
            BusyLanes(s.lanes) + SpliceCount(count, |s.stack|)
  {
    var t := Run(s, count, mode).0;
    var started := Lanes(s.stack[..|s.stack| - |t.stack|]);
    BusyConcat(s.lanes, started);
    AllBusy(started);
  }

  /** A successful lane either takes the next task (the busy count stays the
      same) or drains (one fewer); a failed lane is one fewer. */
  lemma LaneEventsAddNoWork(s: State, i: nat)
    ensures BusyLanes(LaneSucceeds(s, i).lanes) ==
            BusyLanes(s.lanes) - (if LaneInFlight(s, i) && s.stack == [] then 1 else 0)
    ensures BusyLanes(LaneFails(s, i).lanes) ==
            BusyLanes(s.lanes) - (if LaneInFlight(s, i) then 1 else 0)
  {
    if LaneInFlight(s, i) {
      BusyUpdate(s.lanes, i, LaneSucceeds(s, i).lanes[i]);
      assert LaneSucceeds(s, i).lanes == s.lanes[i := LaneSucceeds(s, i).lanes[i]];
      BusyUpdate(s.lanes, i, LaneFails(s, i).lanes[i]);
      assert LaneFails(s, i).lanes == s.lanes[i := LaneFails(s, i).lanes[i]];
    }
  }

  /** Two pipe runs of count 1 on a queue of two tasks leave two tasks in
      flight at once. */
  lemma SecondRunExceedsCount(a: Task, b: Task)
    ensures var s0 := State([a, b], false, None, [], []);
            var s1 := Run(s0, 1, Some(PIPE)).0;
            BusyLanes(Run(s1, 1, None).0.lanes) == 2
  {
    var s0 := State([a, b], false, None, [], []);
    var s1 := Run(s0, 1, Some(PIPE)).0;
    RunStartsLanes(s0, 1, Some(PIPE));
    RunStartsLanes(s1, 1, None);
  }
}
