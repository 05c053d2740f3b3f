/** `stcf(processes)`: preemptive shortest time to completion first. The
    processes are stably sorted by arrival time and cloned with a
    remainingTime; arrived clones join the ready queue; at each decision the
    ready queue is stably sorted by remaining time and its head runs until it
    finishes or the next process arrives, whichever comes first. A clone
    leaves the queue only when its remaining time reaches 0. */
module Stcf {
  import opened Seqs
  import opened Processes
  import opened StableSort

  /** The generator's local variables between two yields. */
  datatype StcfState = StcfState(
    remainingProcesses: seq<Job>,
    i: nat,
    currentTime: int,
    readyQueue: seq<Job>,
    result: seq<Record>,
    finished: bool)

  function Init(processes: seq<Process>): StcfState {
    StcfState(Clones(SortBy(processes, ArrivalTime)), 0, 0, [], [], false)
  }

  /** The admission loop: the clones from i on that have arrived by
      currentTime are pushed onto the ready queue in sorted order. */
  function Admit(s: StcfState): (a: StcfState)
    requires s.i <= |s.remainingProcesses|
    ensures a.remainingProcesses == s.remainingProcesses && s.i <= a.i <= |a.remainingProcesses|
    ensures a.i == |a.remainingProcesses| || a.remainingProcesses[a.i].proc.arrivalTime > a.currentTime
    ensures |a.readyQueue| == |s.readyQueue| + (a.i - s.i)
    ensures a.readyQueue == s.readyQueue + s.remainingProcesses[s.i..a.i]
    ensures a.currentTime == s.currentTime && a.result == s.result && a.finished == s.finished
  {
    var e := AdmitEnd(s.remainingProcesses, JobArrival, s.i, s.currentTime);
    s.(i := e, readyQueue := s.readyQueue + s.remainingProcesses[s.i..e])
  }

  /** The idle branch: time jumps to the next process's arrival. */
  function Jump(a: StcfState): StcfState
    requires a.i < |a.remainingProcesses|
  {
    a.(currentTime := a.remainingProcesses[a.i].proc.arrivalTime)
  }

  /** The state in which the loop next runs a clone: after admission and,
      when nothing was ready, after the idle jump and a second admission.
      Every clone that has arrived by then is admitted. */
  function Decide(s: StcfState): (d: StcfState)
    requires s.i <= |s.remainingProcesses| && (s.i < |s.remainingProcesses| || s.readyQueue != [])
    ensures d.remainingProcesses == s.remainingProcesses && d.i <= |d.remainingProcesses| && d.readyQueue != []
    ensures d.i == |d.remainingProcesses| || d.remainingProcesses[d.i].proc.arrivalTime > d.currentTime
    ensures d.currentTime >= s.currentTime && d.i >= s.i && d.result == s.result && !d.finished == !s.finished
  {
    var a := Admit(s);
    if a.readyQueue != [] then a else Admit(Jump(a))
  }

  /** `nextArrivalTime`: the arrival of the first clone not yet admitted, or
      `Infinity`. */
  function NextArrival(s: StcfState): Option<int>
    requires s.i <= |s.remainingProcesses|
  {
    if s.i < |s.remainingProcesses| then Some(s.remainingProcesses[s.i].proc.arrivalTime) else None
  }

  /** The clone STCF runs in state d: the head of the ready queue sorted by
      remaining time. */
  function Chosen(d: StcfState): Job
    requires d.readyQueue != []
  {
    SortBy(d.readyQueue, RemainingTime)[0]
  }

  /** `deltaTime = Math.min(timeToCompletion, nextArrivalTime - currentTime)` */
  function Slice(d: StcfState): int
    requires d.i <= |d.remainingProcesses| && d.readyQueue != []
  {
    MinInf(Chosen(d).remainingTime, MinusInf(NextArrival(d), d.currentTime))
  }

  /** Sort, run the head for its slice, and either remove it with its record
      or leave it at the head with less remaining time; then yield. */
  function Run(d: StcfState): (StcfState, Step)
    requires d.i <= |d.remainingProcesses| && d.readyQueue != []
  {
    var queue := SortBy(d.readyQueue, RemainingTime);
    var process := queue[0];
    var deltaTime := Slice(d);
    var ran := process.(remainingTime := process.remainingTime - deltaTime);
    var currentTime := d.currentTime + deltaTime;
    if ran.remainingTime == 0 then
      var result := d.result + [MakeRecord(ran.proc, currentTime)];
      (d.(currentTime := currentTime, readyQueue := queue[1..], result := result),
       Step(result, Some(currentTime)))
    else
      (d.(currentTime := currentTime, readyQueue := [ran] + queue[1..]),
       Step(d.result, Some(currentTime)))
  }

  /** One resumption of the generator: the next state and the yielded step. */
  function Next(s: StcfState): (StcfState, Step)
    requires !s.finished && s.i <= |s.remainingProcesses|
  {
    if s.i < |s.remainingProcesses| || s.readyQueue != [] then Run(Decide(s))
    else (s.(finished := true), Step(s.result, None))
  }

  /** The processes completed in run state d, given those completed before. */
  ghost function RunDone(d: StcfState, done: seq<Process>): seq<Process>
    requires d.i <= |d.remainingProcesses| && d.readyQueue != []
  {
    if Slice(d) == Chosen(d).remainingTime then done + [Chosen(d).proc] else done
  }

  /** The processes completed after one more step, given those completed before. */
  ghost function NextDone(s: StcfState, done: seq<Process>): seq<Process>
    requires !s.finished && s.i <= |s.remainingProcesses|
  {
    if s.i < |s.remainingProcesses| || s.readyQueue != [] then RunDone(Decide(s), done) else done
  }

  /** What the loop may rely on: every clone still has work left. */
  ghost predicate Wf(s: StcfState) {
    && s.i <= |s.remainingProcesses|
    && (forall k :: 0 <= k < |s.remainingProcesses| ==> s.remainingProcesses[k].remainingTime > 0)
    && (forall k :: 0 <= k < |s.readyQueue| ==> s.readyQueue[k].remainingTime > 0)
  }

  /** done are the processes completed so far, in completion order, and the
      bookkeeping holds for them; the clones not yet admitted have not run.
      Stated over the generator's variables one by one. */
  ghost predicate InvFields(jobs: seq<Job>, i: int, queue: seq<Job>, result: seq<Record>,
                            currentTime: int, finished: bool, done: seq<Process>)
  {
    && 0 <= i <= |jobs|
    && Untouched(jobs)
    && Tracks(done, queue, jobs[..i], result, currentTime)
    && (finished ==> i == |jobs| && queue == [])
  }

  ghost predicate Inv(s: StcfState, done: seq<Process>) {
    match s
    case StcfState(jobs, i, currentTime, queue, result, finished) =>
      InvFields(jobs, i, queue, result, currentTime, finished, done)
  }

  lemma InvWf(s: StcfState, done: seq<Process>)
    requires Inv(s, done)
    ensures Wf(s)
  {
  }

  /** The time the clones still need, queued or not yet admitted. */
  function Work(s: StcfState): int
    requires s.i <= |s.remainingProcesses|
  {
    TotalRemaining(s.readyQueue) + TotalRemaining(s.remainingProcesses[s.i..])
  }

  lemma InitInv(processes: seq<Process>)
    requires ValidInput(processes)
    ensures Inv(Init(processes), [])
    ensures multiset(Origins(Init(processes).remainingProcesses)) == multiset(processes)
  {
    var sorted := SortBy(processes, ArrivalTime);
    SortByPermutation(processes, ArrivalTime);
    forall k | 0 <= k < |sorted| ensures sorted[k].burstTime > 0 {
      assert sorted[k] in multiset(processes);
    }
    ClonesUntouched(sorted);
    OriginsOfClones(sorted);
    assert Init(processes).remainingProcesses[..0] == [];
    assert Origins([]) == [];
  }

  lemma AdmitInv(s: StcfState, done: seq<Process>)
    requires Inv(s, done) && !s.finished
    ensures Inv(Admit(s), done)
  {
    var a := Admit(s);
    var jobs := s.remainingProcesses;
    var arrived := jobs[s.i..a.i];
    assert jobs[..a.i] == jobs[..s.i] + arrived;
    assert jobs[s.i..] == arrived + jobs[a.i..];
    assert Untouched(arrived) by {
      forall k | 0 <= k < |arrived| ensures arrived[k].remainingTime == arrived[k].proc.burstTime > 0 {
        assert arrived[k] == jobs[s.i + k];
      }
    }
    forall k | 0 <= k < |arrived| ensures arrived[k].proc.arrivalTime <= s.currentTime {
      assert arrived[k] == jobs[s.i + k];
    }
    TracksAdmit(done, s.readyQueue, jobs[..s.i], s.result, s.currentTime, arrived);
  }

  lemma DecideInv(s: StcfState, done: seq<Process>)
    requires Inv(s, done) && !s.finished && (s.i < |s.remainingProcesses| || s.readyQueue != [])
    ensures Inv(Decide(s), done)
  {
    AdmitInv(s, done);
    var a := Admit(s);
    if a.readyQueue == [] {
      var j := Jump(a);
      TracksLater(done, a.readyQueue, a.remainingProcesses[..a.i], a.result, a.currentTime, j.currentTime);
      AdmitInv(j, done);
    }
  }

  /** The ready queue sorted by remaining time is the chosen clone followed
      by the others. */
  lemma SortedQueue(d: StcfState)
    requires d.readyQueue != []
    ensures var queue := SortBy(d.readyQueue, RemainingTime);
      && queue == [Chosen(d)] + queue[1..]
      && multiset(d.readyQueue) == multiset([Chosen(d)] + queue[1..])
  {
    var queue := SortBy(d.readyQueue, RemainingTime);
    SortByPermutation(d.readyQueue, RemainingTime);
    assert queue == [queue[0]] + queue[1..];
  }

  /** STCF selection: the clone run is the first of the ready clones with the
      least remaining time. */
  lemma StcfSelects(d: StcfState)
    requires d.readyQueue != []
    ensures Chosen(d) == d.readyQueue[FirstMinIndex(d.readyQueue, RemainingTime)]
    ensures forall m :: 0 <= m < |d.readyQueue| ==> Chosen(d).remainingTime <= d.readyQueue[m].remainingTime
  {
    SortByHead(d.readyQueue, RemainingTime);
  }

  /** STCF slicing: once every arrived clone is admitted, the slice is
      positive, at most the chosen clone's remaining time and at most the
      time to the next arrival, and equal to one of the two. */
  lemma StcfSlices(d: StcfState)
    requires d.i <= |d.remainingProcesses| && d.readyQueue != [] && Chosen(d).remainingTime > 0
    requires d.i == |d.remainingProcesses| || d.remainingProcesses[d.i].proc.arrivalTime > d.currentTime
    ensures 0 < Slice(d) <= Chosen(d).remainingTime
    ensures d.i < |d.remainingProcesses| ==> d.currentTime + Slice(d) <= d.remainingProcesses[d.i].proc.arrivalTime
    ensures Slice(d) == Chosen(d).remainingTime
         || (d.i < |d.remainingProcesses| && d.currentTime + Slice(d) == d.remainingProcesses[d.i].proc.arrivalTime)
  {
  }

  /** A clone leaves the ready queue, with its record, exactly when its
      remaining time reaches 0; otherwise it stays at the head with the slice
      taken off its remaining time. Either way the step carries the new time. */
  lemma RunShape(d: StcfState)
    requires d.i <= |d.remainingProcesses| && d.readyQueue != []
    ensures var job, rest := Chosen(d), SortBy(d.readyQueue, RemainingTime)[1..];
      var t := d.currentTime + Slice(d);
      && (Slice(d) == job.remainingTime ==>
            Run(d).0 == d.(currentTime := t, readyQueue := rest, result := d.result + [MakeRecord(job.proc, t)]))
      && (Slice(d) != job.remainingTime ==>
            Run(d).0 == d.(currentTime := t, readyQueue := [job.(remainingTime := job.remainingTime - Slice(d))] + rest))
      && Run(d).1 == Step(Run(d).0.result, Some(t))
  {
  }

  /** Reordering the ready queue keeps the invariant. */
  lemma PermuteInv(jobs: seq<Job>, i: nat, queue: seq<Job>, queue': seq<Job>,
                   result: seq<Record>, t: int, done: seq<Process>)
    requires InvFields(jobs, i, queue, result, t, false, done) && multiset(queue) == multiset(queue')
    ensures InvFields(jobs, i, queue', result, t, false, done)
    ensures forall k :: 0 <= k < |queue'| ==> queue'[k].remainingTime > 0
  {
    TracksPermute(done, queue, queue', jobs[..i], result, t);
  }

  lemma ChosenWaiting(d: StcfState, done: seq<Process>)
    requires Inv(d, done) && !d.finished && d.readyQueue != []
    ensures Inv(d.(readyQueue := [Chosen(d)] + SortBy(d.readyQueue, RemainingTime)[1..]), done)
    ensures Chosen(d).remainingTime > 0
  {
    SortedQueue(d);
    var queue' := [Chosen(d)] + SortBy(d.readyQueue, RemainingTime)[1..];
    PermuteInv(d.remainingProcesses, d.i, d.readyQueue, queue', d.result, d.currentTime, done);
    assert queue'[0] == Chosen(d);
  }

  /** The invariant after the chosen clone finishes. */
  lemma FinishInv(jobs: seq<Job>, i: nat, done: seq<Process>, job: Job, rest: seq<Job>,
                  result: seq<Record>, t: int, delta: int)
    requires InvFields(jobs, i, [job] + rest, result, t, false, done)
    requires 0 < delta == job.remainingTime
    ensures InvFields(jobs, i, rest, result + [MakeRecord(job.proc, t + delta)], t + delta, false, done + [job.proc])
  {
    TracksFinish(done, job, rest, jobs[..i], result, t, delta);
  }

  /** The invariant after the chosen clone runs for less than it needs. */
  lemma RequeueInv(jobs: seq<Job>, i: nat, done: seq<Process>, job: Job, rest: seq<Job>,
                   result: seq<Record>, t: int, delta: int)
    requires InvFields(jobs, i, [job] + rest, result, t, false, done)
    requires 0 < delta < job.remainingTime
    ensures InvFields(jobs, i, [job.(remainingTime := job.remainingTime - delta)] + rest, result, t + delta, false, done)
  {
    TracksRequeue(done, job, rest, jobs[..i], result, t, delta);
  }

  /** Running a clone to completion keeps the invariant. */
  lemma FinishStep(d: StcfState, done: seq<Process>, job: Job, rest: seq<Job>, delta: int)
    requires Inv(d.(readyQueue := [job] + rest), done) && !d.finished
    requires 0 < delta == job.remainingTime
    ensures var t := d.currentTime + delta;
      Inv(d.(currentTime := t, readyQueue := rest, result := d.result + [MakeRecord(job.proc, t)]), done + [job.proc])
  {
    FinishInv(d.remainingProcesses, d.i, done, job, rest, d.result, d.currentTime, delta);
  }

  /** Running a clone for part of its remaining time keeps the invariant. */
  lemma RequeueStep(d: StcfState, done: seq<Process>, job: Job, rest: seq<Job>, delta: int)
    requires Inv(d.(readyQueue := [job] + rest), done) && !d.finished
    requires 0 < delta < job.remainingTime
    ensures Inv(d.(currentTime := d.currentTime + delta,
                   readyQueue := [job.(remainingTime := job.remainingTime - delta)] + rest), done)
  {
    RequeueInv(d.remainingProcesses, d.i, done, job, rest, d.result, d.currentTime, delta);
  }

  /** Running the chosen clone keeps the invariant. */
  lemma RunInv(d: StcfState, done: seq<Process>)
    requires Inv(d, done) && !d.finished && d.readyQueue != []
    requires d.i == |d.remainingProcesses| || d.remainingProcesses[d.i].proc.arrivalTime > d.currentTime
    ensures Inv(Run(d).0, RunDone(d, done))
    ensures Run(d).0.currentTime > d.currentTime
  {
    ChosenWaiting(d, done);
    RunSortedInv(d, done);
  }

  /** The same, from the invariant over the sorted ready queue. */
  lemma RunSortedInv(d: StcfState, done: seq<Process>)
    requires d.i <= |d.remainingProcesses| && !d.finished && d.readyQueue != []
    requires Inv(d.(readyQueue := [Chosen(d)] + SortBy(d.readyQueue, RemainingTime)[1..]), done)
    requires Chosen(d).remainingTime > 0
    requires d.i == |d.remainingProcesses| || d.remainingProcesses[d.i].proc.arrivalTime > d.currentTime
    ensures Inv(Run(d).0, RunDone(d, done))
    ensures Run(d).0.currentTime > d.currentTime
  {
    StcfSlices(d);
    if Slice(d) == Chosen(d).remainingTime {
      RunFinishInv(d, done);
    } else {
      RunRequeueInv(d, done);
    }
  }

  lemma RunFinishInv(d: StcfState, done: seq<Process>)
    requires d.i <= |d.remainingProcesses| && !d.finished && d.readyQueue != []
    requires Inv(d.(readyQueue := [Chosen(d)] + SortBy(d.readyQueue, RemainingTime)[1..]), done)
    requires 0 < Slice(d) == Chosen(d).remainingTime
    ensures Inv(Run(d).0, done + [Chosen(d).proc])
  {
    RunShape(d);
    FinishStep(d, done, Chosen(d), SortBy(d.readyQueue, RemainingTime)[1..], Slice(d));
  }

  lemma RunRequeueInv(d: StcfState, done: seq<Process>)
    requires d.i <= |d.remainingProcesses| && !d.finished && d.readyQueue != []
    requires Inv(d.(readyQueue := [Chosen(d)] + SortBy(d.readyQueue, RemainingTime)[1..]), done)
    requires 0 < Slice(d) < Chosen(d).remainingTime
    ensures Inv(Run(d).0, done)
  {
    RunShape(d);
    RequeueStep(d, done, Chosen(d), SortBy(d.readyQueue, RemainingTime)[1..], Slice(d));
  }

  /** One step keeps the invariant. */
  lemma NextInv(s: StcfState, done: seq<Process>)
    requires Inv(s, done) && !s.finished
    ensures Inv(Next(s).0, NextDone(s, done))
  {
    if s.i < |s.remainingProcesses| || s.readyQueue != [] {
      var d := Decide(s);
      assert Next(s) == Run(d) && NextDone(s, done) == RunDone(d, done);
      DecideInv(s, done);
      RunInv(d, done);
    }
  }

  /** One step yields a strictly later time with the result extended by at
      most one record, or ends with the unchanged result and time None. */
  lemma NextSteps(s: StcfState)
    requires Wf(s) && !s.finished
    ensures var s', step := Next(s).0, Next(s).1;
      && s'.remainingProcesses == s.remainingProcesses
      && step.result == s'.result
      && (s'.finished <==> step.currentTime == None)
      && (s'.finished ==> s'.result == s.result)
      && (!s'.finished ==>
            && step.currentTime == Some(s'.currentTime)
            && s'.currentTime > s.currentTime
            && |s'.result| <= |s.result| + 1
            && s.result <= s'.result)
  {
    if s.i < |s.remainingProcesses| || s.readyQueue != [] {
      var d := Decide(s);
      assert Next(s) == Run(d);
      DecideWork(s);
      RunSteps(d);
    }
  }

  /** Running yields the new time, strictly later, with at most one record
      appended to the result. */
  lemma RunSteps(d: StcfState)
    requires Wf(d) && d.readyQueue != []
    requires d.i == |d.remainingProcesses| || d.remainingProcesses[d.i].proc.arrivalTime > d.currentTime
    ensures var s' := Run(d).0;
      && s'.remainingProcesses == d.remainingProcesses && s'.finished == d.finished
      && Run(d).1 == Step(s'.result, Some(s'.currentTime))
      && s'.currentTime > d.currentTime
      && |s'.result| <= |d.result| + 1 && d.result <= s'.result
  {
    RunWork(d);
    RunShape(d);
  }

  /** Running takes the slice off the outstanding work and keeps every
      clone's remaining time positive. */
  lemma RunWork(d: StcfState)
    requires Wf(d) && d.readyQueue != []
    requires d.i == |d.remainingProcesses| || d.remainingProcesses[d.i].proc.arrivalTime > d.currentTime
    ensures Wf(Run(d).0) && Work(Run(d).0) == Work(d) - Slice(d) && Slice(d) > 0
  {
    SortedQueue(d);
    var job, rest := Chosen(d), SortBy(d.readyQueue, RemainingTime)[1..];
    assert job in multiset(d.readyQueue);
    forall k | 0 <= k < |rest| ensures rest[k].remainingTime > 0 {
      assert rest[k] in multiset(d.readyQueue);
    }
    StcfSlices(d);
    RunShape(d);
    TotalRemainingPermutation(d.readyQueue, [job] + rest);
    TotalRemainingAppend([job], rest);
    TotalRemainingAppend([job.(remainingTime := job.remainingTime - Slice(d))], rest);
  }

  /** The outstanding work bounds the number of steps left. */
  lemma NextWork(s: StcfState)
    requires Wf(s) && !s.finished
    ensures Wf(Next(s).0) && Work(s) >= 0
    ensures Next(s).0.finished || Work(Next(s).0) < Work(s)
    ensures Work(Next(s).0) <= Work(s)
    ensures Next(s).0.finished <==> Next(s).1.currentTime.None?
  {
    TotalRemainingBound(s.readyQueue);
    TotalRemainingBound(s.remainingProcesses[s.i..]);
    if s.i < |s.remainingProcesses| || s.readyQueue != [] {
      var d := Decide(s);
      assert Next(s) == Run(d);
      DecideWork(s);
      RunWork(d);
      RunShape(d);
    }
  }

  lemma DecideWork(s: StcfState)
    requires Wf(s) && !s.finished && (s.i < |s.remainingProcesses| || s.readyQueue != [])
    ensures Wf(Decide(s)) && Work(Decide(s)) == Work(s)
  {
    AdmitWork(s);
    var a := Admit(s);
    if a.readyQueue == [] {
      AdmitWork(Jump(a));
    }
  }

  lemma AdmitWork(s: StcfState)
    requires Wf(s)
    ensures Wf(Admit(s)) && Work(Admit(s)) == Work(s)
  {
    var a := Admit(s);
    var jobs := s.remainingProcesses;
    var arrived := jobs[s.i..a.i];
    assert jobs[s.i..] == arrived + jobs[a.i..];
    TotalRemainingAppend(s.readyQueue, arrived);
    TotalRemainingAppend(arrived, jobs[a.i..]);
    forall k | 0 <= k < |a.readyQueue| ensures a.readyQueue[k].remainingTime > 0 {
      if k >= |s.readyQueue| {
        assert a.readyQueue[k] == jobs[s.i + (k - |s.readyQueue|)];
      }
    }
  }

  /** All remaining steps from state s. */
  function Trace(s: StcfState): seq<Step>
    requires Wf(s)
    decreases Work(s), if s.finished then 0 else 1
  {
    if s.finished then []
    else
      NextWork(s);
      var (s', step) := Next(s);
      [step] + Trace(s')
  }

  /** The state in which the generator ends. */
  ghost function Final(s: StcfState): StcfState
    requires Wf(s)
    decreases Work(s), if s.finished then 0 else 1
  {
    if s.finished then s
    else
      NextWork(s);
      Final(Next(s).0)
  }

  /** The processes completed by the end of the run, in completion order. */
  ghost function FinalDone(s: StcfState, done: seq<Process>): seq<Process>
    requires Wf(s)
    decreases Work(s), if s.finished then 0 else 1
  {
    if s.finished then done
    else
      NextWork(s);
      FinalDone(Next(s).0, NextDone(s, done))
  }

  lemma InitWf(processes: seq<Process>)
    requires ValidInput(processes)
    ensures Wf(Init(processes))
  {
    InitInv(processes);
  }

  /** Every step `stcf(processes)` yields, in order. */
  function Schedule(processes: seq<Process>): seq<Step>
    requires ValidInput(processes)
  {
    InitWf(processes);
    Trace(Init(processes))
  }

  /** The processes of `stcf(processes)` in the order they complete. */
  ghost function Completed(processes: seq<Process>): seq<Process>
    requires ValidInput(processes)
  {
    InitWf(processes);
    FinalDone(Init(processes), [])
  }

  /** Trace, Final and FinalDone take one step at a time. */
  lemma TraceCons(s: StcfState)
    requires Wf(s) && !s.finished
    ensures Wf(Next(s).0)
    ensures Trace(s) == [Next(s).1] + Trace(Next(s).0)
  {
    NextWork(s);
  }

  lemma FinalCons(s: StcfState, done: seq<Process>)
    requires Wf(s) && !s.finished
    ensures Wf(Next(s).0)
    ensures Final(s) == Final(Next(s).0)
    ensures FinalDone(s, done) == FinalDone(Next(s).0, NextDone(s, done))
  {
    NextWork(s);
  }

  /** Every step of the rest of the run moves time forward and extends the
      result by at most one record, and the last step carries the final result. */
  lemma {:induction false} TraceSteps(s: StcfState)
    requires Wf(s) && !s.finished
    ensures Progresses(Trace(s), s.result, s.currentTime, false)
    ensures Last(Trace(s)).result == Final(s).result
    decreases Work(s)
  {
    NextSteps(s);
    NextWork(s);
    TraceCons(s);
    FinalCons(s, []);
    var s', step := Next(s).0, Next(s).1;
    if s'.finished {
      assert Trace(s) == [step];
    } else {
      TraceSteps(s');
      ProgressesCons(step, Trace(s'), s.result, s.currentTime, false);
    }
  }

  /** The invariant holds when the generator ends. */
  lemma {:induction false} TraceInv(s: StcfState, done: seq<Process>)
    requires Inv(s, done) && !s.finished
    ensures Inv(Final(s), FinalDone(s, done)) && Final(s).finished
    ensures Final(s).remainingProcesses == s.remainingProcesses
    decreases Work(s)
  {
    InvWf(s, done);
    NextInv(s, done);
    NextSteps(s);
    NextWork(s);
    FinalCons(s, done);
    var s' := Next(s).0;
    if !s'.finished {
      TraceInv(s', NextDone(s, done));
    }
  }

  /** The whole run: every step carries a strictly later time and extends the
      result by at most one record, and the last step carries time None. */
  lemma StcfSteps(processes: seq<Process>)
    requires ValidInput(processes)
    ensures Progresses(Schedule(processes), [], 0, false)
  {
    InitWf(processes);
    TraceSteps(Init(processes));
  }

  /** When the generator ends, the completed processes are the input's and
      their records are correct. */
  lemma FinalComplete(f: StcfState, done: seq<Process>, processes: seq<Process>)
    requires Inv(f, done) && f.finished
    requires multiset(Origins(f.remainingProcesses)) == multiset(processes)
    ensures multiset(done) == multiset(processes) && Accounts(f.result, done)
    ensures Complete(f.result, processes)
  {
    assert f.remainingProcesses[..f.i] == f.remainingProcesses;
    TracksComplete(done, f.remainingProcesses, f.result, f.currentTime, processes);
  }

  /** The final result has one correct record per process (waiting time from
      the original burst, never negative), in completion order. */
  lemma StcfCorrect(processes: seq<Process>)
    requires ValidInput(processes)
    ensures multiset(Completed(processes)) == multiset(processes)
    ensures Accounts(Last(Schedule(processes)).result, Completed(processes))
    ensures Complete(Last(Schedule(processes)).result, processes)
  {
    InitInv(processes);
    var s := Init(processes);
    TraceSteps(s);
    TraceInv(s, []);
    FinalComplete(Final(s), FinalDone(s, []), processes);
  }

  /** The clones of the worked example {1,0,8}, {2,1,4}. */
  function ExampleJobs(): seq<Job> {
    [Job(Process(1, 0, 8), 8), Job(Process(2, 1, 4), 4)]
  }

  /** At 0 only process 1 has arrived; it runs until process 2 arrives at 1. */
  lemma ExampleFirst(s: StcfState)
    requires s == StcfState(ExampleJobs(), 0, 0, [], [], false)
    ensures Next(s).0 == StcfState(ExampleJobs(), 1, 1, [Job(Process(1, 0, 8), 7)], [], false)
    ensures Next(s).1 == Step([], Some(1))
  {
    var d := StcfState(ExampleJobs(), 1, 0, [ExampleJobs()[0]], [], false);
    FirstDecision(s, d);
    assert Next(s) == Run(d);
    FirstRun(d);
  }

  /** At 0 the admission loop admits process 1 only. */
  lemma FirstDecision(s: StcfState, d: StcfState)
    requires s == StcfState(ExampleJobs(), 0, 0, [], [], false)
    requires d == StcfState(ExampleJobs(), 1, 0, [ExampleJobs()[0]], [], false)
    ensures Decide(s) == d
  {
    var jobs := ExampleJobs();
    assert AdmitEnd(jobs, JobArrival, 1, 0) == 1;
    assert jobs[0..1] == [jobs[0]];
  }

  /** Process 1 alone runs until the arrival at 1 cuts its slice. */
  lemma FirstRun(d: StcfState)
    requires d == StcfState(ExampleJobs(), 1, 0, [ExampleJobs()[0]], [], false)
    ensures Run(d) == (StcfState(ExampleJobs(), 1, 1, [Job(Process(1, 0, 8), 7)], [], false), Step([], Some(1)))
  {
    var jobs := ExampleJobs();
    assert [jobs[0]][..0] == [];
    assert Chosen(d) == jobs[0];
    assert Slice(d) == 1;
    RunShape(d);
    assert SortBy(d.readyQueue, RemainingTime)[1..] == [];
    assert [Job(Process(1, 0, 8), 7)] + [] == [Job(Process(1, 0, 8), 7)];
  }

  /** At 1 process 2 (4 left) is shorter than process 1 (7 left) and runs to
      completion at 5. */
  lemma ExampleSecond(s: StcfState)
    requires s == StcfState(ExampleJobs(), 1, 1, [Job(Process(1, 0, 8), 7)], [], false)
    ensures Next(s).0 == StcfState(ExampleJobs(), 2, 5, [Job(Process(1, 0, 8), 7)], [Record(2, 5, 4, 0)], false)
    ensures Next(s).1 == Step([Record(2, 5, 4, 0)], Some(5))
  {
    var jobs := ExampleJobs();
    assert AdmitEnd(jobs, JobArrival, 2, 1) == 2;
    var d := s.(i := 2, readyQueue := [Job(Process(1, 0, 8), 7), jobs[1]]);
    assert Decide(s) == d;
    SortTwo(Job(Process(1, 0, 8), 7), jobs[1], RemainingTime);
    assert Chosen(d) == jobs[1];
    assert Slice(d) == 4;
    assert Next(s) == Run(d);
    RunShape(d);
    assert SortBy(d.readyQueue, RemainingTime)[1..] == [Job(Process(1, 0, 8), 7)];
  }

  /** Process 1 runs alone from 5 to 12. */
  lemma ExampleThird(s: StcfState)
    requires s == StcfState(ExampleJobs(), 2, 5, [Job(Process(1, 0, 8), 7)], [Record(2, 5, 4, 0)], false)
    ensures Next(s).0 == StcfState(ExampleJobs(), 2, 12, [], [Record(2, 5, 4, 0), Record(1, 12, 12, 4)], false)
    ensures Next(s).1 == Step([Record(2, 5, 4, 0), Record(1, 12, 12, 4)], Some(12))
  {
    assert Decide(s) == s;
    assert [Job(Process(1, 0, 8), 7)][..0] == [];
    assert Chosen(s) == Job(Process(1, 0, 8), 7);
    assert Slice(s) == 7;
    assert Next(s) == Run(s);
    RunShape(s);
    assert SortBy(s.readyQueue, RemainingTime)[1..] == [];
    assert [Record(2, 5, 4, 0)] + [Record(1, 12, 12, 4)] == [Record(2, 5, 4, 0), Record(1, 12, 12, 4)];
  }

  /** Every clone has completed: the generator ends. */
  lemma ExampleLast(s: StcfState)
    requires s == StcfState(ExampleJobs(), 2, 12, [], [Record(2, 5, 4, 0), Record(1, 12, 12, 4)], false)
    ensures Next(s).0.finished
    ensures Next(s).1 == Step([Record(2, 5, 4, 0), Record(1, 12, 12, 4)], None)
  {
  }

  /** The worked example {1,0,8}, {2,1,4}: process 1 runs until 1, process
      2 completes at 5 and process 1 at 12, with waiting times 0 and 4. */
  lemma StcfExample(ps: seq<Process>)
    requires ps == [Process(1, 0, 8), Process(2, 1, 4)]
    ensures ValidInput(ps)
    ensures Schedule(ps)[0] == Step([], Some(1))
    ensures Last(Schedule(ps)).result == [Record(2, 5, 4, 0), Record(1, 12, 12, 4)]
  {
    SortTwo(ps[0], ps[1], ArrivalTime);
    assert Clones(ps) == ExampleJobs();
    InitWf(ps);
    var s0 := Init(ps);
    ExampleFirst(s0);
    var s1 := Next(s0).0;
    ExampleSecond(s1);
    var s2 := Next(s1).0;
    ExampleThird(s2);
    var s3 := Next(s2).0;
    ExampleLast(s3);
    TraceCons(s0);
    TraceSteps(s0);
    FinalCons(s0, []);
    FinalCons(s1, []);
    FinalCons(s2, []);
    FinalCons(s3, []);
  }

  /** The generator object: its fields are the generator's local variables. */
  class StcfScheduler {
    const remainingProcesses: seq<Job>
    var i: nat
    var currentTime: int
    var readyQueue: seq<Job>
    var result: seq<Record>
    var finished: bool

    ghost function State(): StcfState
      reads this
    {
      StcfState(remainingProcesses, i, currentTime, readyQueue, result, finished)
    }

    ghost predicate Valid()
      reads this
    {
      Wf(State())
    }

    constructor (processes: seq<Process>)
      requires ValidInput(processes)
      ensures Valid() && State() == Init(processes)
    {
      remainingProcesses := Clones(SortBy(processes, ArrivalTime));
      i, currentTime, readyQueue, result, finished := 0, 0, [], [], false;
      new;
      InitWf(processes);
    }

    /** The admission loop: pushes every clone that has arrived by
        currentTime onto the ready queue. */
    method AdmitArrived()
      requires Valid()
      modifies this
      ensures State() == Admit(old(State())) && Valid()
    {
      var j, queue := i, readyQueue;
      while j < |remainingProcesses| && remainingProcesses[j].proc.arrivalTime <= currentTime
        invariant i <= j <= |remainingProcesses|
        invariant queue == readyQueue + remainingProcesses[i..j]
        invariant forall m :: i <= m < j ==> remainingProcesses[m].proc.arrivalTime <= currentTime
      {
        assert remainingProcesses[i..j + 1] == remainingProcesses[i..j] + [remainingProcesses[j]];
        queue := queue + [remainingProcesses[j]];
        j := j + 1;
      }
      AdmitEndAt(remainingProcesses, JobArrival, i, j, currentTime);
      AdmitWork(State());
      i, readyQueue := j, queue;
    }

    /** Sorts the ready queue by remaining time and runs its head until it
        finishes or the next process arrives. */
    method RunChosen() returns (step: Step)
      requires Valid() && readyQueue != []
      requires i == |remainingProcesses| || remainingProcesses[i].proc.arrivalTime > currentTime
      modifies this
      ensures State() == Run(old(State())).0 && step == Run(old(State())).1 && Valid()
    {
      ghost var d := State();
      var queue := SortBy(readyQueue, RemainingTime);
      var process := queue[0];
      var nextArrivalTime := if i < |remainingProcesses| then Some(remainingProcesses[i].proc.arrivalTime) else None;
      var timeToCompletion := process.remainingTime;
      var deltaTime := MinInf(timeToCompletion, MinusInf(nextArrivalTime, currentTime));
      process := process.(remainingTime := process.remainingTime - deltaTime);
      var t := currentTime + deltaTime;
      if process.remainingTime == 0 {
        var completionTime := t;
        var turnaroundTime := completionTime - process.proc.arrivalTime;
        var waitingTime := turnaroundTime - process.proc.burstTime;
        result := result + [Record(process.proc.pid, completionTime, turnaroundTime, waitingTime)];
        queue := queue[1..];
      } else {
        queue := [process] + queue[1..];
      }
      currentTime, readyQueue := t, queue;
      step := Step(result, Some(currentTime));
      RunShape(d);
      RunWork(d);
    }

    /** Resumes the generator up to its next yield. */
    method NextStep() returns (step: Step)
      requires Valid() && !finished
      modifies this
      ensures State() == Next(old(State())).0 && step == Next(old(State())).1
      ensures Valid()
    {
      ghost var before := State();
      ghost var jumped := false;
      while i < |remainingProcesses| || |readyQueue| > 0
        invariant Wf(before) && !before.finished
        invariant Valid() && remainingProcesses == before.remainingProcesses
        invariant !jumped ==> State() == before
        invariant jumped ==> && Admit(before).readyQueue == []
                             && Admit(before).i < |remainingProcesses|
                             && State() == Jump(Admit(before))
        decreases if jumped then 0 else 1
      {
        ghost var s0 := State();
        AdmitArrived();
        if |readyQueue| > 0 {
          assert State() == Decide(before) && Next(before) == Run(State());
          step := RunChosen();
          return;
        } else {
          currentTime := remainingProcesses[i].proc.arrivalTime;
          jumped := true;
        }
      }
      finished := true;
      step := Step(result, None);
    }
  }

  /** Pulls steps from the generator in state s until the one with time
      None: the steps pulled are Trace(s). */
  method DrainFrom(scheduler: StcfScheduler, ghost s: StcfState) returns (steps: seq<Step>)
    requires scheduler.Valid() && scheduler.State() == s && !s.finished
    modifies scheduler
    ensures steps == Trace(s)
    decreases Work(s)
  {
    NextWork(s);
    TraceCons(s);
    var step := scheduler.NextStep();
    if step.currentTime.None? {
      steps := [step];
    } else {
      var rest := DrainFrom(scheduler, scheduler.State());
      steps := [step] + rest;
    }
  }

  /** Pulls every step from a fresh generator: the steps are exactly
      Schedule(processes). */
  method Drain(processes: seq<Process>) returns (steps: seq<Step>)
    requires ValidInput(processes)
    ensures steps == Schedule(processes)
  {
    var scheduler := new StcfScheduler(processes);
    steps := DrainFrom(scheduler, scheduler.State());
  }
}
