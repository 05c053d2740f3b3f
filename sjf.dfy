/** `sjf(processes)`: non-preemptive shortest job first. The processes are
    stably sorted by arrival time and admitted to a ready queue as they
    arrive; at each decision the ready queue is stably sorted by burst time
    and its head runs to completion. An idle CPU jumps to the next arrival
    without yielding. */
module Sjf {
  import opened Seqs
  import opened Processes
  import opened StableSort

  /** The generator's local variables between two yields. */
  datatype SjfState = SjfState(
    sortedProcesses: seq<Process>,
    i: nat,
    currentTime: int,
    readyQueue: seq<Process>,
    result: seq<Record>,
    finished: bool)

  function Init(processes: seq<Process>): SjfState {
    SjfState(SortBy(processes, ArrivalTime), 0, 0, [], [], false)
  }

  /** The admission loop: the processes from i on that have arrived by
      currentTime are pushed onto the ready queue in sorted order. */
  function Admit(s: SjfState): (a: SjfState)
    requires s.i <= |s.sortedProcesses|
    ensures a.sortedProcesses == s.sortedProcesses && s.i <= a.i <= |a.sortedProcesses|
    ensures a.i == |a.sortedProcesses| || a.sortedProcesses[a.i].arrivalTime > a.currentTime
    ensures |a.readyQueue| + (|a.sortedProcesses| - a.i) == |s.readyQueue| + (|s.sortedProcesses| - s.i)
    ensures a.readyQueue == s.readyQueue + s.sortedProcesses[s.i..a.i]
    ensures a.currentTime == s.currentTime && a.result == s.result && a.finished == s.finished
  {
    var e := AdmitEnd(s.sortedProcesses, ArrivalTime, s.i, s.currentTime);
    s.(i := e, readyQueue := s.readyQueue + s.sortedProcesses[s.i..e])
  }

  /** The idle branch: time jumps to the next process's arrival. */
  function Jump(a: SjfState): SjfState
    requires a.i < |a.sortedProcesses|
  {
    a.(currentTime := a.sortedProcesses[a.i].arrivalTime)
  }

  /** The state in which the loop next runs a process: after admission and,
      when nothing was ready, after the idle jump and a second admission. */
  function Decide(s: SjfState): (d: SjfState)
    requires s.i <= |s.sortedProcesses| && (s.i < |s.sortedProcesses| || s.readyQueue != [])
    ensures d.sortedProcesses == s.sortedProcesses && d.i <= |d.sortedProcesses| && d.readyQueue != []
    ensures d.i == |d.sortedProcesses| || d.sortedProcesses[d.i].arrivalTime > d.currentTime
    ensures |d.readyQueue| + (|d.sortedProcesses| - d.i) == |s.readyQueue| + (|s.sortedProcesses| - s.i)
  {
    var a := Admit(s);
    if a.readyQueue != [] then a else Admit(Jump(a))
  }

  /** The process SJF picks in state d: the head of the ready queue sorted by
      burst time. */
  function Chosen(d: SjfState): Process
    requires d.readyQueue != []
  {
    SortBy(d.readyQueue, BurstTime)[0]
  }

  /** Sort, shift, run to completion, push the record, yield. */
  function Run(d: SjfState): (SjfState, Step)
    requires d.readyQueue != []
  {
    var queue := SortBy(d.readyQueue, BurstTime);
    var process := queue[0];
    var completionTime := d.currentTime + process.burstTime;
    var result := d.result + [MakeRecord(process, completionTime)];
    (d.(currentTime := completionTime, readyQueue := queue[1..], result := result),
     Step(result, Some(completionTime)))
  }

  /** One resumption of the generator: the next state and the yielded step. */
  function Next(s: SjfState): (SjfState, Step)
    requires !s.finished && s.i <= |s.sortedProcesses|
  {
    if s.i < |s.sortedProcesses| || s.readyQueue != [] then Run(Decide(s))
    else (s.(finished := true), Step(s.result, None))
  }

  /** The processes completed after one more step, given those completed before. */
  ghost function NextDone(s: SjfState, done: seq<Process>): seq<Process>
    requires !s.finished && s.i <= |s.sortedProcesses|
  {
    if s.i < |s.sortedProcesses| || s.readyQueue != [] then done + [Chosen(Decide(s))] else done
  }

  /** done are the processes completed so far, in completion order: together
      with the ready queue they are the admitted processes; each record is
      correct for its process; every queued process has arrived. */
  ghost predicate Inv(s: SjfState, done: seq<Process>) {
    && s.i <= |s.sortedProcesses|
    && ValidInput(s.sortedProcesses)
    && ValidInput(s.readyQueue)
    && multiset(done) + multiset(s.readyQueue) == multiset(s.sortedProcesses[..s.i])
    && Sound(s.result, done, s.currentTime)
    && (forall k :: 0 <= k < |s.readyQueue| ==> s.readyQueue[k].arrivalTime <= s.currentTime)
    && (s.finished ==> s.i == |s.sortedProcesses| && s.readyQueue == [])
  }

  /** Among the processes with any one burst time, those completed followed
      by those still queued are the admitted ones in admission order. */
  ghost predicate TiesInOrder(s: SjfState, done: seq<Process>)
    requires s.i <= |s.sortedProcesses|
  {
    forall k :: TiesAt(s, done, k)
  }

  ghost predicate TiesAt(s: SjfState, done: seq<Process>, k: int)
    requires s.i <= |s.sortedProcesses|
  {
    WithKey(done, BurstTime, k) + WithKey(s.readyQueue, BurstTime, k)
      == WithKey(s.sortedProcesses[..s.i], BurstTime, k)
  }

  lemma InitInv(processes: seq<Process>)
    requires ValidInput(processes)
    ensures Inv(Init(processes), []) && TiesInOrder(Init(processes), [])
    ensures multiset(Init(processes).sortedProcesses) == multiset(processes)
  {
    var sorted := SortBy(processes, ArrivalTime);
    SortByPermutation(processes, ArrivalTime);
    forall k | 0 <= k < |sorted| ensures sorted[k].burstTime > 0 {
      assert sorted[k] in multiset(processes);
    }
    forall k ensures TiesAt(Init(processes), [], k) {
      assert sorted[..0] == [];
    }
  }

  lemma AdmitInv(s: SjfState, done: seq<Process>)
    requires Inv(s, done) && !s.finished
    ensures Inv(Admit(s), done)
  {
    var a := Admit(s);
    var arrived := s.sortedProcesses[s.i..a.i];
    assert s.sortedProcesses[..a.i] == s.sortedProcesses[..s.i] + arrived;
    forall k | 0 <= k < |arrived| ensures arrived[k].burstTime > 0 {
      assert arrived[k] == s.sortedProcesses[s.i + k];
    }
  }

  lemma AdmitTies(s: SjfState, done: seq<Process>)
    requires s.i <= |s.sortedProcesses| && TiesInOrder(s, done)
    ensures TiesInOrder(Admit(s), done)
  {
    var a := Admit(s);
    var arrived := s.sortedProcesses[s.i..a.i];
    assert s.sortedProcesses[..a.i] == s.sortedProcesses[..s.i] + arrived;
    forall k ensures TiesAt(a, done, k) {
      assert TiesAt(s, done, k);
      WithKeyAppend(s.readyQueue, arrived, BurstTime, k);
      WithKeyAppend(s.sortedProcesses[..s.i], arrived, BurstTime, k);
    }
  }

  lemma DecideInv(s: SjfState, done: seq<Process>)
    requires Inv(s, done) && !s.finished && (s.i < |s.sortedProcesses| || s.readyQueue != [])
    ensures Inv(Decide(s), done) && Decide(s).currentTime >= s.currentTime
  {
    AdmitInv(s, done);
    var a := Admit(s);
    if a.readyQueue == [] {
      var j := Jump(a);
      assert Sound(j.result, done, j.currentTime) by {
        SoundLater(a.result, done, a.currentTime, j.currentTime);
      }
      AdmitInv(j, done);
    }
  }

  lemma DecideTies(s: SjfState, done: seq<Process>)
    requires !s.finished && s.i <= |s.sortedProcesses| && (s.i < |s.sortedProcesses| || s.readyQueue != [])
    requires TiesInOrder(s, done)
    ensures TiesInOrder(Decide(s), done)
  {
    AdmitTies(s, done);
    var a := Admit(s);
    if a.readyQueue == [] {
      var j := Jump(a);
      forall k ensures TiesAt(j, done, k) {
        assert TiesAt(a, done, k);
      }
      AdmitTies(j, done);
    }
  }

  /** SJF selection: the process run in decision state d has the smallest
      burst of the ready queue and is the first such in queue order; it runs
      with no preemption, so it completes at the decision time plus its
      burst, and it leaves the ready queue. */
  lemma SjfSelects(d: SjfState)
    requires d.readyQueue != []
    ensures var p, d' := Chosen(d), Run(d).0;
      && p == d.readyQueue[FirstMinIndex(d.readyQueue, BurstTime)]
      && (forall m :: 0 <= m < |d.readyQueue| ==> p.burstTime <= d.readyQueue[m].burstTime)
      && d'.currentTime == d.currentTime + p.burstTime
      && d'.result == d.result + [MakeRecord(p, d.currentTime + p.burstTime)]
      && multiset(d'.readyQueue) + multiset{p} == multiset(d.readyQueue)
      && d'.i == d.i && d'.sortedProcesses == d.sortedProcesses
  {
    var queue := SortBy(d.readyQueue, BurstTime);
    SortByHead(d.readyQueue, BurstTime);
    SortByPermutation(d.readyQueue, BurstTime);
    assert queue == [queue[0]] + queue[1..];
  }

  /** Running the chosen process keeps the invariant. */
  lemma RunInv(d: SjfState, done: seq<Process>)
    requires Inv(d, done) && !d.finished && d.readyQueue != []
    ensures Inv(Run(d).0, done + [Chosen(d)])
    ensures Run(d).0.currentTime > d.currentTime
  {
    var p := Chosen(d);
    var queue := SortBy(d.readyQueue, BurstTime);
    SortByPermutation(d.readyQueue, BurstTime);
    assert queue == [p] + queue[1..];
    CompleteInv(d, done, p, queue[1..]);
  }

  /** Completing p, one of the queued processes, at the decision time plus
      its burst keeps the invariant. */
  lemma CompleteInv(d: SjfState, done: seq<Process>, p: Process, rest: seq<Process>)
    requires Inv(d, done) && !d.finished
    requires multiset(d.readyQueue) == multiset{p} + multiset(rest)
    ensures var c := d.currentTime + p.burstTime;
      Inv(d.(currentTime := c, readyQueue := rest, result := d.result + [MakeRecord(p, c)]), done + [p])
    ensures p.burstTime > 0
  {
    var c := d.currentTime + p.burstTime;
    var d' := d.(currentTime := c, readyQueue := rest, result := d.result + [MakeRecord(p, c)]);
    assert p.burstTime > 0 && p.arrivalTime <= d.currentTime by {
      assert p in multiset(d.readyQueue);
      var m :| 0 <= m < |d.readyQueue| && d.readyQueue[m] == p;
    }
    SoundAppend(d.result, done, d.currentTime, p, c);
    forall k | 0 <= k < |rest|
      ensures rest[k].burstTime > 0 && rest[k].arrivalTime <= c
    {
      assert rest[k] in multiset(d.readyQueue);
    }
  }

  /** Running the chosen process keeps the tie order: it is the first of the
      queued processes with its burst. */
  lemma RunTies(d: SjfState, done: seq<Process>)
    requires d.i <= |d.sortedProcesses| && d.readyQueue != [] && TiesInOrder(d, done)
    ensures TiesInOrder(Run(d).0, done + [Chosen(d)])
  {
    var p := Chosen(d);
    var d' := Run(d).0;
    var queue := SortBy(d.readyQueue, BurstTime);
    assert queue == [p] + d'.readyQueue;
    forall k ensures TiesAt(d', done + [p], k) {
      assert TiesAt(d, done, k);
      SortByStable(d.readyQueue, BurstTime, k);
      WithKeyAppend([p], d'.readyQueue, BurstTime, k);
      WithKeyAppend(done, [p], BurstTime, k);
      assert [p][1..] == [];
    }
  }

  /** One step keeps the invariant, yields one more record and a strictly
      later time, or ends with the unchanged result and time None. */
  lemma NextProperties(s: SjfState, done: seq<Process>)
    requires Inv(s, done) && !s.finished
    ensures var s', step := Next(s).0, Next(s).1;
      && Inv(s', NextDone(s, done))
      && s'.sortedProcesses == s.sortedProcesses
      && step.result == s'.result
      && (s'.finished <==> step.currentTime == None)
      && (s'.finished ==> s'.result == s.result)
      && (!s'.finished ==>
            && step.currentTime == Some(s'.currentTime)
            && s'.currentTime > s.currentTime
            && |s'.result| == |s.result| + 1
            && s.result <= s'.result)
  {
    if s.i < |s.sortedProcesses| || s.readyQueue != [] {
      var d := Decide(s);
      assert Next(s) == Run(d);
      DecideInv(s, done);
      RunInv(d, done);
    }
  }

  lemma NextTies(s: SjfState, done: seq<Process>)
    requires !s.finished && s.i <= |s.sortedProcesses| && TiesInOrder(s, done)
    ensures Next(s).0.i <= |Next(s).0.sortedProcesses|
    ensures TiesInOrder(Next(s).0, NextDone(s, done))
  {
    if s.i < |s.sortedProcesses| || s.readyQueue != [] {
      DecideTies(s, done);
      RunTies(Decide(s), done);
    } else {
      forall k ensures TiesAt(Next(s).0, done, k) {
        assert TiesAt(s, done, k);
      }
    }
  }

  /** The ready queue plus the processes not yet admitted: what the loop
      still has to run. */
  function Pending(s: SjfState): nat
    requires s.i <= |s.sortedProcesses|
  {
    |s.readyQueue| + (|s.sortedProcesses| - s.i)
  }

  /** All remaining steps from state s. */
  function Trace(s: SjfState): seq<Step>
    requires s.i <= |s.sortedProcesses|
    decreases Pending(s), if s.finished then 0 else 1
  {
    if s.finished then []
    else
      var (s', step) := Next(s);
      [step] + Trace(s')
  }

  /** The state in which the generator ends. */
  ghost function Final(s: SjfState): SjfState
    requires s.i <= |s.sortedProcesses|
    decreases Pending(s), if s.finished then 0 else 1
  {
    if s.finished then s else Final(Next(s).0)
  }

  /** The processes completed by the end of the run, in completion order. */
  ghost function FinalDone(s: SjfState, done: seq<Process>): seq<Process>
    requires s.i <= |s.sortedProcesses|
    decreases Pending(s), if s.finished then 0 else 1
  {
    if s.finished then done else FinalDone(Next(s).0, NextDone(s, done))
  }

  /** Every step `sjf(processes)` yields, in order. */
  function Schedule(processes: seq<Process>): seq<Step> {
    Trace(Init(processes))
  }

  /** The processes of `sjf(processes)` in the order they complete. */
  ghost function Completed(processes: seq<Process>): seq<Process> {
    FinalDone(Init(processes), [])
  }

  lemma TraceCons(s: SjfState)
    requires s.i <= |s.sortedProcesses| && !s.finished
    ensures Next(s).0.i <= |Next(s).0.sortedProcesses|
    ensures Trace(s) == [Next(s).1] + Trace(Next(s).0)
  {
    NextPending(s);
  }

  lemma FinalCons(s: SjfState, done: seq<Process>)
    requires s.i <= |s.sortedProcesses| && !s.finished
    ensures Next(s).0.i <= |Next(s).0.sortedProcesses|
    ensures Final(s) == Final(Next(s).0)
    ensures FinalDone(s, done) == FinalDone(Next(s).0, NextDone(s, done))
  {
    NextPending(s);
  }

  /** Every step of the rest of the run moves time forward and appends
      exactly one record, and the last step carries the final result. */
  lemma {:induction false} TraceSteps(s: SjfState, done: seq<Process>)
    requires Inv(s, done) && !s.finished
    ensures Progresses(Trace(s), s.result, s.currentTime, true)
    ensures Last(Trace(s)).result == Final(s).result
    decreases Pending(s)
  {
    NextProperties(s, done);
    NextPending(s);
    TraceCons(s);
    FinalCons(s, done);
    var s', step := Next(s).0, Next(s).1;
    if s'.finished {
      assert Trace(s) == [step];
    } else {
      TraceSteps(s', NextDone(s, done));
      ProgressesCons(step, Trace(s'), s.result, s.currentTime, true);
    }
  }

  /** The invariant holds when the generator ends. */
  lemma {:induction false} TraceInv(s: SjfState, done: seq<Process>)
    requires Inv(s, done) && !s.finished
    ensures Inv(Final(s), FinalDone(s, done)) && Final(s).finished
    ensures Final(s).sortedProcesses == s.sortedProcesses
    decreases Pending(s)
  {
    NextProperties(s, done);
    NextPending(s);
    FinalCons(s, done);
    var s' := Next(s).0;
    if !s'.finished {
      TraceInv(s', NextDone(s, done));
    }
  }

  lemma {:induction false} TraceTies(s: SjfState, done: seq<Process>)
    requires s.i <= |s.sortedProcesses| && TiesInOrder(s, done)
    ensures Final(s).i <= |Final(s).sortedProcesses|
    ensures TiesInOrder(Final(s), FinalDone(s, done))
    decreases Pending(s), if s.finished then 0 else 1
  {
    if !s.finished {
      NextTies(s, done);
      TraceTies(Next(s).0, NextDone(s, done));
    }
  }

  /** The whole run: the steps progress as `sjf` promises (one more record
      and a later time per step, then the full result with time None), and
      the final result has one correct record per process, in completion
      order. */
  lemma SjfCorrect(processes: seq<Process>)
    requires ValidInput(processes)
    ensures Progresses(Schedule(processes), [], 0, true)
    ensures multiset(Completed(processes)) == multiset(processes)
    ensures Accounts(Last(Schedule(processes)).result, Completed(processes))
    ensures Complete(Last(Schedule(processes)).result, processes)
  {
    InitInv(processes);
    var s := Init(processes);
    TraceSteps(s, []);
    TraceInv(s, []);
    var f, done := Final(s), FinalDone(s, []);
    assert f.sortedProcesses[..f.i] == f.sortedProcesses;
  }

  /** Ties go to the earliest admitted: among processes with equal bursts,
      completion order is the stable arrival order. */
  lemma SjfTieOrder(processes: seq<Process>, k: int)
    requires ValidInput(processes)
    ensures WithKey(Completed(processes), BurstTime, k)
         == WithKey(SortBy(processes, ArrivalTime), BurstTime, k)
  {
    InitInv(processes);
    var s := Init(processes);
    TraceInv(s, []);
    TraceTies(s, []);
    var f, done := Final(s), FinalDone(s, []);
    assert f.sortedProcesses[..f.i] == f.sortedProcesses;
    assert TiesAt(f, done, k);
    assert WithKey(f.readyQueue, BurstTime, k) == [];
    assert WithKey(done, BurstTime, k) + [] == WithKey(done, BurstTime, k);
  }

  /** The generator object: its fields are the generator's local variables. */
  class SjfScheduler {
    const sortedProcesses: seq<Process>
    var i: nat
    var currentTime: int
    var readyQueue: seq<Process>
    var result: seq<Record>
    var finished: bool

    ghost function State(): SjfState
      reads this
    {
      SjfState(sortedProcesses, i, currentTime, readyQueue, result, finished)
    }

    ghost predicate Valid()
      reads this
    {
      i <= |sortedProcesses|
    }

    constructor (processes: seq<Process>)
      ensures Valid() && State() == Init(processes)
    {
      sortedProcesses := SortBy(processes, ArrivalTime);
      i, currentTime, readyQueue, result, finished := 0, 0, [], [], false;
    }

    /** The admission loop: pushes every process that has arrived by
        currentTime onto the ready queue. */
    method AdmitArrived()
      requires Valid()
      modifies this
      ensures State() == Admit(old(State())) && Valid()
    {
      ghost var s0 := State();
      while i < |sortedProcesses| && sortedProcesses[i].arrivalTime <= currentTime
        invariant s0.i <= i <= |sortedProcesses|
        invariant State() == s0.(i := i, readyQueue := s0.readyQueue + sortedProcesses[s0.i..i])
        invariant forall m :: s0.i <= m < i ==> sortedProcesses[m].arrivalTime <= currentTime
      {
        assert sortedProcesses[s0.i..i + 1] == sortedProcesses[s0.i..i] + [sortedProcesses[i]];
        readyQueue := readyQueue + [sortedProcesses[i]];
        i := i + 1;
      }
      AdmitEndAt(sortedProcesses, ArrivalTime, s0.i, i, currentTime);
    }

    /** Sorts the ready queue by burst time, shifts its head, runs it to
        completion and pushes its record. */
    method RunChosen() returns (step: Step)
      requires Valid() && readyQueue != []
      modifies this
      ensures State() == Run(old(State())).0 && step == Run(old(State())).1 && Valid()
    {
      readyQueue := SortBy(readyQueue, BurstTime);
      var process := readyQueue[0];
      readyQueue := readyQueue[1..];
      var completionTime := currentTime + process.burstTime;
      var turnaroundTime := completionTime - process.arrivalTime;
      var waitingTime := turnaroundTime - process.burstTime;
      result := result + [Record(process.pid, completionTime, turnaroundTime, waitingTime)];
      currentTime := completionTime;
      step := Step(result, Some(currentTime));
    }

    /** Resumes the generator up to its next yield. */
    method NextStep() returns (step: Step)
      requires Valid() && !finished
      modifies this
      ensures State() == Next(old(State())).0 && step == Next(old(State())).1
      ensures Valid()
    {
      ghost var before := State();
      ghost var jumped := false;
      while i < |sortedProcesses| || |readyQueue| > 0
        invariant before.i <= |before.sortedProcesses| && !before.finished
        invariant i <= |sortedProcesses| && sortedProcesses == before.sortedProcesses
        invariant !jumped ==> State() == before
        invariant jumped ==> && Admit(before).readyQueue == []
                             && Admit(before).i < |sortedProcesses|
                             && State() == Jump(Admit(before))
        decreases if jumped then 0 else 1
      {
        ghost var s0 := State();
        AdmitArrived();
        assert State() == Admit(s0);
        if |readyQueue| > 0 {
          assert State() == Decide(before) && Next(before) == Run(State());
          step := RunChosen();
          return;
        } else {
          currentTime := sortedProcesses[i].arrivalTime;
          jumped := true;
        }
      }
      finished := true;
      step := Step(result, None);
    }
  }

  /** The step count measure drops with every step that is not the last. */
  lemma NextPending(s: SjfState)
    requires !s.finished && s.i <= |s.sortedProcesses|
    ensures Next(s).0.i <= |Next(s).0.sortedProcesses|
    ensures Next(s).0.finished || Pending(Next(s).0) < Pending(s)
    ensures Pending(Next(s).0) <= Pending(s)
    ensures Next(s).0.finished <==> Next(s).1.currentTime.None?
  {
    if s.i < |s.sortedProcesses| || s.readyQueue != [] {
      assert Next(s) == Run(Decide(s));
    }
  }

  /** Pulls steps from the generator in state s until the one with time
      None: the steps pulled are Trace(s). */
  method DrainFrom(scheduler: SjfScheduler, ghost s: SjfState) returns (steps: seq<Step>)
    requires scheduler.Valid() && scheduler.State() == s && !s.finished
    modifies scheduler
    ensures steps == Trace(s)
    decreases Pending(s)
  {
    NextPending(s);
    TraceCons(s);
    var step := scheduler.NextStep();
    if step.currentTime.None? {
      steps := [step];
    } else {
      var rest := DrainFrom(scheduler, scheduler.State());
      steps := [step] + rest;
    }
  }

  /** Pulls every step from a fresh generator: the steps are exactly
      Schedule(processes). */
  method Drain(processes: seq<Process>) returns (steps: seq<Step>)
    ensures steps == Schedule(processes)
  {
    var scheduler := new SjfScheduler(processes);
    steps := DrainFrom(scheduler, scheduler.State());
  }
}
