/** `fifo(processes)`: the processes, stably sorted by arrival time, run to
    completion one after another; an idle CPU jumps to the next arrival. */
module Fifo {
  import opened Processes
  import opened StableSort

  /** The generator's state between two yields: k is the position of the
      `for ... of sortedProcesses` loop; finished is set by the final yield. */
  datatype FifoState = FifoState(
    sortedProcesses: seq<Process>,
    k: nat,
    currentTime: int,
    result: seq<Record>,
    finished: bool)

  function Init(processes: seq<Process>): FifoState {
    FifoState(SortBy(processes, ArrivalTime), 0, 0, [], false)
  }

  /** One resumption of the generator: the next state and the yielded step. */
  function Next(s: FifoState): (FifoState, Step)
    requires !s.finished && s.k <= |s.sortedProcesses|
  {
    if s.k < |s.sortedProcesses| then
      var p := s.sortedProcesses[s.k];
      var start := if p.arrivalTime > s.currentTime then p.arrivalTime else s.currentTime;
      var completionTime := start + p.burstTime;
      var result := s.result + [MakeRecord(p, completionTime)];
      (s.(k := s.k + 1, currentTime := completionTime, result := result), Step(result, Some(completionTime)))
    else
      (s.(finished := true), Step(s.result, None))
  }

  function PrevCompletion(result: seq<Record>, m: nat): int
    requires m <= |result|
  {
    if m == 0 then 0 else result[m - 1].completionTime
  }

  /** FIFO's schedule of the processes in order: the last record belongs to
      the last process and completes at max(previous completion, arrival) +
      burst, and the records before it are the schedule of the processes
      before it. */
  ghost predicate FifoSchedule(result: seq<Record>, order: seq<Process>)
    decreases |order|
  {
    && |result| == |order|
    && (|order| > 0 ==>
          var n := |order| - 1;
          var p := order[n];
          var prev := PrevCompletion(result, n);
          && FifoSchedule(result[..n], order[..n])
          && result[n] == MakeRecord(p, (if p.arrivalTime > prev then p.arrivalTime else prev) + p.burstTime))
  }

  lemma FifoScheduleAppend(result: seq<Record>, order: seq<Process>, p: Process)
    requires FifoSchedule(result, order)
    ensures var prev := PrevCompletion(result, |result|);
      FifoSchedule(result + [MakeRecord(p, (if p.arrivalTime > prev then p.arrivalTime else prev) + p.burstTime)], order + [p])
  {
    var prev := PrevCompletion(result, |result|);
    var result' := result + [MakeRecord(p, (if p.arrivalTime > prev then p.arrivalTime else prev) + p.burstTime)];
    assert result'[..|result|] == result;
    assert (order + [p])[..|order|] == order;
  }

  /** A FIFO schedule of processes with positive bursts is sound: each record
      is correct for its process, the records are in completion order, and
      the last completion is the latest. */
  lemma {:induction false} FifoScheduleSound(result: seq<Record>, order: seq<Process>)
    requires FifoSchedule(result, order) && ValidInput(order)
    ensures Sound(result, order, PrevCompletion(result, |result|))
    decreases |order|
  {
    if |order| > 0 {
      var n := |order| - 1;
      var p := order[n];
      var prev := PrevCompletion(result, n);
      FifoScheduleSound(result[..n], order[..n]);
      assert PrevCompletion(result[..n], n) == prev;
      SoundAppend(result[..n], order[..n], prev, p,
        (if p.arrivalTime > prev then p.arrivalTime else prev) + p.burstTime);
      assert result == result[..n] + [result[n]];
      assert order == order[..n] + [p];
    }
  }

  ghost predicate Inv(s: FifoState) {
    && s.k <= |s.sortedProcesses|
    && ValidInput(s.sortedProcesses)
    && FifoSchedule(s.result, s.sortedProcesses[..s.k])
    && s.currentTime == PrevCompletion(s.result, s.k)
    && (s.finished ==> s.k == |s.sortedProcesses|)
  }

  lemma InitInv(processes: seq<Process>)
    requires ValidInput(processes)
    ensures Inv(Init(processes))
    ensures multiset(Init(processes).sortedProcesses) == multiset(processes)
  {
    var sorted := SortBy(processes, ArrivalTime);
    SortByPermutation(processes, ArrivalTime);
    forall k | 0 <= k < |sorted| ensures sorted[k].burstTime > 0 {
      assert sorted[k] in multiset(processes);
    }
  }

  /** One step keeps the invariant, yields one more record and a strictly
      later time, or ends with the unchanged result and time None. */
  lemma {:induction false} NextProperties(s: FifoState)
    requires Inv(s) && !s.finished
    ensures var s', step := Next(s).0, Next(s).1;
      && Inv(s')
      && s'.sortedProcesses == s.sortedProcesses
      && step.result == s'.result
      && (s'.finished <==> step.currentTime == None)
      && (s'.finished ==> s'.result == s.result && s'.k == s.k)
      && (!s'.finished ==>
            && step.currentTime == Some(s'.currentTime)
            && s'.currentTime > s.currentTime
            && s'.result == s.result + [Last(s'.result)]
            && s'.k == s.k + 1)
  {
    if s.k < |s.sortedProcesses| {
      var p := s.sortedProcesses[s.k];
      assert s.sortedProcesses[..s.k + 1] == s.sortedProcesses[..s.k] + [p];
      var start := if p.arrivalTime > s.currentTime then p.arrivalTime else s.currentTime;
      FifoScheduleAppend(s.result, s.sortedProcesses[..s.k], p);
      assert p.burstTime > 0;
    }
  }

  /** All remaining steps from state s. */
  function Trace(s: FifoState): seq<Step>
    requires s.k <= |s.sortedProcesses|
    decreases |s.sortedProcesses| - s.k, if s.finished then 0 else 1
  {
    if s.finished then []
    else
      var (s', step) := Next(s);
      [step] + Trace(s')
  }

  /** The state in which the generator ends. */
  ghost function Final(s: FifoState): FifoState
    requires s.k <= |s.sortedProcesses|
    decreases |s.sortedProcesses| - s.k, if s.finished then 0 else 1
  {
    if s.finished then s else Final(Next(s).0)
  }

  /** Every step `fifo(processes)` yields, in order. */
  function Schedule(processes: seq<Process>): seq<Step>
  {
    Trace(Init(processes))
  }

  lemma {:induction false} TraceProperties(s: FifoState)
    requires Inv(s) && !s.finished
    ensures Progresses(Trace(s), s.result, s.currentTime, true)
    ensures Inv(Final(s)) && Final(s).finished
    ensures Final(s).sortedProcesses == s.sortedProcesses
    ensures Last(Trace(s)).result == Final(s).result
    decreases |s.sortedProcesses| - s.k
  {
    NextProperties(s);
    var (s', step) := Next(s);
    if !s'.finished {
      TraceProperties(s');
      assert Trace(s)[1..] == Trace(s');
    }
  }

  /** The whole run: the steps progress as `fifo` promises (one more record
      and a later time per step, then the full result with time None), and
      the final result has one correct record per process, in completion
      order. */
  lemma FifoCorrect(processes: seq<Process>)
    requires ValidInput(processes)
    ensures Progresses(Schedule(processes), [], 0, true)
    ensures Complete(Last(Schedule(processes)).result, processes)
  {
    InitInv(processes);
    var s := Init(processes);
    TraceProperties(s);
    var f := Final(s);
    assert f.sortedProcesses[..f.k] == f.sortedProcesses;
    FifoScheduleSound(f.result, f.sortedProcesses);
    assert multiset(f.sortedProcesses) == multiset(processes);
  }

  /** FIFO order and timing: the final result lists the processes in stable
      arrival order, each completing at max(previous completion, arrival) +
      burst. */
  lemma FifoTiming(processes: seq<Process>)
    requires ValidInput(processes)
    ensures FifoSchedule(Last(Schedule(processes)).result, SortBy(processes, ArrivalTime))
  {
    InitInv(processes);
    var s := Init(processes);
    TraceProperties(s);
    var f := Final(s);
    assert f.sortedProcesses[..f.k] == f.sortedProcesses;
  }

  /** The worked example {1,0,5}, {2,1,3}: process 2 waits behind process 1. */
  lemma FifoExample(ps: seq<Process>)
    requires |ps| == 2 && ps[0] == Process(1, 0, 5) && ps[1] == Process(2, 1, 3)
    ensures ValidInput(ps)
    ensures Last(Schedule(ps)).result == [Record(1, 5, 5, 0), Record(2, 8, 7, 4)]
  {
    assert ps == [ps[0], ps[1]];
    SortTwo(ps[0], ps[1], ArrivalTime);
    FifoTiming(ps);
    var r := Last(Schedule(ps)).result;
    FifoScheduleTwo(r, ps[0], ps[1]);
    assert r == r[..1] + [r[1]];
  }

  lemma FifoScheduleOne(r: seq<Record>, p: Process)
    requires FifoSchedule(r, [p])
    ensures r == [MakeRecord(p, Max(p.arrivalTime, 0) + p.burstTime)]
  {
    assert [p][..0] == [];
  }

  lemma FifoScheduleTwo(r: seq<Record>, p: Process, q: Process)
    requires FifoSchedule(r, [p, q])
    ensures |r| == 2
    ensures r[..1] == [MakeRecord(p, Max(p.arrivalTime, 0) + p.burstTime)]
    ensures r[1] == MakeRecord(q, Max(q.arrivalTime, r[0].completionTime) + q.burstTime)
  {
    assert [p, q][..1] == [p];
    FifoScheduleOne(r[..1], p);
  }

  lemma TraceUnfold(s: FifoState)
    requires Inv(s) && !s.finished
    ensures Inv(Next(s).0)
    ensures Trace(s) == [Next(s).1] + (if Next(s).0.finished then [] else Trace(Next(s).0))
  {
    NextProperties(s);
  }

  /** The generator object: its fields are the generator's local variables. */
  class FifoScheduler {
    const sortedProcesses: seq<Process>
    var k: nat
    var currentTime: int
    var result: seq<Record>
    var finished: bool

    ghost function State(): FifoState
      reads this
    {
      FifoState(sortedProcesses, k, currentTime, result, finished)
    }

    ghost predicate Valid()
      reads this
    {
      Inv(State())
    }

    constructor (processes: seq<Process>)
      requires ValidInput(processes)
      ensures Valid() && State() == Init(processes)
    {
      sortedProcesses := SortBy(processes, ArrivalTime);
      k, currentTime, result, finished := 0, 0, [], false;
      new;
      InitInv(processes);
    }

    /** Resumes the generator up to its next yield. */
    method NextStep() returns (step: Step)
      requires Valid() && !finished
      modifies this
      ensures State() == Next(old(State())).0 && step == Next(old(State())).1
      ensures Valid()
    {
      ghost var before := State();
      if k < |sortedProcesses| {
        var process := sortedProcesses[k];
        if process.arrivalTime > currentTime {
          currentTime := process.arrivalTime;
        }
        var completionTime := currentTime + process.burstTime;
        var turnaroundTime := completionTime - process.arrivalTime;
        var waitingTime := turnaroundTime - process.burstTime;
        result := result + [Record(process.pid, completionTime, turnaroundTime, waitingTime)];
        currentTime := completionTime;
        k := k + 1;
        step := Step(result, Some(currentTime));
      } else {
        finished := true;
        step := Step(result, None);
      }
      assert State() == Next(before).0;
      NextProperties(before);
    }
  }

  /** Pulls steps from the generator in state s until the one with time
      None: the steps pulled are Trace(s). */
  method DrainFrom(scheduler: FifoScheduler, ghost s: FifoState) returns (steps: seq<Step>)
    requires scheduler.Valid() && scheduler.State() == s && !s.finished
    modifies scheduler
    ensures steps == Trace(s)
    decreases |s.sortedProcesses| - s.k
  {
    TraceUnfold(s);
    NextProperties(s);
    var step := scheduler.NextStep();
    if step.currentTime.None? {
      steps := [step];
    } else {
      var rest := DrainFrom(scheduler, scheduler.State());
      steps := [step] + rest;
    }
  }

  /** Pulls every step from a fresh generator: the steps are exactly
      Schedule(processes). */
  method Drain(processes: seq<Process>) returns (steps: seq<Step>)
    requires ValidInput(processes)
    ensures steps == Schedule(processes)
  {
    var scheduler := new FifoScheduler(processes);
    steps := DrainFrom(scheduler, scheduler.State());
  }
}
