/** `rr(processes, timeQuantum)`: round robin. The processes are stably
    sorted by arrival time and cloned with a remainingTime; arrived clones
    join the back of the ready queue; the head is shifted off and runs for
    the smaller of its remaining time and the quantum; the clones that
    arrived meanwhile join the queue, and only then is the head pushed back
    if it still has work left. */
module Rr {
  import opened Seqs
  import opened Processes
  import opened StableSort

  /** The generator's arguments and local variables between two yields. */
  datatype RrState = RrState(
    remainingProcesses: seq<Job>,
    timeQuantum: int,
    i: nat,
    currentTime: int,
    readyQueue: seq<Job>,
    result: seq<Record>,
    finished: bool)

  function Init(processes: seq<Process>, timeQuantum: int): RrState {
    RrState(Clones(SortBy(processes, ArrivalTime)), timeQuantum, 0, 0, [], [], false)
  }

  /** The admission loop: the clones from i on that have arrived by
      currentTime are pushed onto the back of the ready queue in order. */
  function Admit(s: RrState): (a: RrState)
    requires s.i <= |s.remainingProcesses|
    ensures a.remainingProcesses == s.remainingProcesses && s.i <= a.i <= |a.remainingProcesses|
    ensures a.i == |a.remainingProcesses| || a.remainingProcesses[a.i].proc.arrivalTime > a.currentTime
    ensures |a.readyQueue| == |s.readyQueue| + (a.i - s.i)
    ensures a.readyQueue == s.readyQueue + s.remainingProcesses[s.i..a.i]
    ensures a.currentTime == s.currentTime && a.result == s.result && a.finished == s.finished
  {
    var e := AdmitEnd(s.remainingProcesses, JobArrival, s.i, s.currentTime);
    s.(i := e, readyQueue := s.readyQueue + s.remainingProcesses[s.i..e])
  }

  /** The idle branch: time jumps to the next process's arrival. */
  function Jump(a: RrState): RrState
    requires a.i < |a.remainingProcesses|
  {
    a.(currentTime := a.remainingProcesses[a.i].proc.arrivalTime)
  }

  /** The state in which the loop next runs a clone: after admission and,
      when nothing was ready, after the idle jump and a second admission. */
  function Decide(s: RrState): (d: RrState)
    requires s.i <= |s.remainingProcesses| && (s.i < |s.remainingProcesses| || s.readyQueue != [])
    ensures d.remainingProcesses == s.remainingProcesses && d.timeQuantum == s.timeQuantum
    ensures d.i <= |d.remainingProcesses| && d.readyQueue != []
    ensures d.currentTime >= s.currentTime && d.i >= s.i && d.result == s.result && d.finished == s.finished
  {
    var a := Admit(s);
    if a.readyQueue != [] then a else Admit(Jump(a))
  }

  /** `executionTime = Math.min(process.remainingTime, timeQuantum)` for the
      head of the ready queue. */
  function Slice(d: RrState): int
    requires d.readyQueue != []
  {
    Min(d.readyQueue[0].remainingTime, d.timeQuantum)
  }

  /** Shift the head, run it for its slice, admit the clones that arrived
      meanwhile, then either record the head's completion or push it back;
      then yield. */
  function Run(d: RrState): (RrState, Step)
    requires d.i <= |d.remainingProcesses| && d.readyQueue != []
  {
    var process := d.readyQueue[0];
    var executionTime := Slice(d);
    var ran := process.(remainingTime := process.remainingTime - executionTime);
    var a := Admit(d.(currentTime := d.currentTime + executionTime, readyQueue := d.readyQueue[1..]));
    if ran.remainingTime == 0 then
      var result := a.result + [MakeRecord(ran.proc, a.currentTime)];
      (a.(result := result), Step(result, Some(a.currentTime)))
    else
      (a.(readyQueue := a.readyQueue + [ran]), Step(a.result, Some(a.currentTime)))
  }

  /** One resumption of the generator: the next state and the yielded step. */
  function Next(s: RrState): (RrState, Step)
    requires !s.finished && s.i <= |s.remainingProcesses|
  {
    if s.i < |s.remainingProcesses| || s.readyQueue != [] then Run(Decide(s))
    else (s.(finished := true), Step(s.result, None))
  }

  /** The processes completed in run state d, given those completed before. */
  ghost function RunDone(d: RrState, done: seq<Process>): seq<Process>
    requires d.readyQueue != []
  {
    if Slice(d) == d.readyQueue[0].remainingTime then done + [d.readyQueue[0].proc] else done
  }

  /** The processes completed after one more step, given those completed before. */
  ghost function NextDone(s: RrState, done: seq<Process>): seq<Process>
    requires !s.finished && s.i <= |s.remainingProcesses|
  {
    if s.i < |s.remainingProcesses| || s.readyQueue != [] then RunDone(Decide(s), done) else done
  }

  /** What the loop may rely on: every clone still has work left, and the
      quantum is positive unless nothing is left to run (with no processes
      the loop at line 164 never starts, whatever the quantum). */
  ghost predicate Wf(s: RrState) {
    WfFields(s.timeQuantum, s.remainingProcesses, s.i, s.readyQueue)
  }

  ghost predicate WfFields(timeQuantum: int, jobs: seq<Job>, i: int, queue: seq<Job>) {
    && (timeQuantum > 0 || (i == |jobs| && queue == []))
    && 0 <= i <= |jobs|
    && (forall k :: 0 <= k < |jobs| ==> jobs[k].remainingTime > 0)
    && (forall k :: 0 <= k < |queue| ==> queue[k].remainingTime > 0)
  }

  /** done are the processes completed so far, in completion order, and the
      bookkeeping holds for them; the clones not yet admitted have not run.
      Stated over the generator's variables one by one. */
  ghost predicate InvFields(jobs: seq<Job>, i: int, queue: seq<Job>, result: seq<Record>,
                            currentTime: int, finished: bool, done: seq<Process>)
  {
    && 0 <= i <= |jobs|
    && Untouched(jobs)
    && Tracks(done, queue, jobs[..i], result, currentTime)
    && (finished ==> i == |jobs| && queue == [])
  }

  ghost predicate Inv(s: RrState, done: seq<Process>) {
    match s
    case RrState(jobs, timeQuantum, i, currentTime, queue, result, finished) =>
      timeQuantum > 0 && InvFields(jobs, i, queue, result, currentTime, finished, done)
  }

  lemma InvWf(s: RrState, done: seq<Process>)
    requires Inv(s, done)
    ensures Wf(s)
  {
  }

  /** The time the clones still need, queued or not yet admitted. */
  function Work(s: RrState): int
    requires s.i <= |s.remainingProcesses|
  {
    Outstanding(s.remainingProcesses, s.i, s.readyQueue)
  }

  function Outstanding(jobs: seq<Job>, i: nat, queue: seq<Job>): int
    requires i <= |jobs|
  {
    TotalRemaining(queue) + TotalRemaining(jobs[i..])
  }

  lemma InitInv(processes: seq<Process>, timeQuantum: int)
    requires ValidInput(processes) && timeQuantum > 0
    ensures Inv(Init(processes, timeQuantum), [])
    ensures multiset(Origins(Init(processes, timeQuantum).remainingProcesses)) == multiset(processes)
  {
    var sorted := SortBy(processes, ArrivalTime);
    SortByPermutation(processes, ArrivalTime);
    forall k | 0 <= k < |sorted| ensures sorted[k].burstTime > 0 {
      assert sorted[k] in multiset(processes);
    }
    ClonesUntouched(sorted);
    OriginsOfClones(sorted);
    assert Init(processes, timeQuantum).remainingProcesses[..0] == [];
    assert Origins([]) == [];
  }

  lemma AdmitInv(s: RrState, done: seq<Process>)
    requires Inv(s, done)
    ensures Inv(Admit(s), done)
  {
    TracksAdmitEnd(done, s.readyQueue, s.remainingProcesses, s.i, s.result, s.currentTime);
  }

  lemma DecideInv(s: RrState, done: seq<Process>)
    requires Inv(s, done) && !s.finished && (s.i < |s.remainingProcesses| || s.readyQueue != [])
    ensures Inv(Decide(s), done)
  {
    AdmitInv(s, done);
    var a := Admit(s);
    if a.readyQueue == [] {
      var j := Jump(a);
      TracksLater(done, a.readyQueue, a.remainingProcesses[..a.i], a.result, a.currentTime, j.currentTime);
      AdmitInv(j, done);
    }
  }

  /** Round robin slicing: the head runs for its whole remaining time or for
      the whole quantum, whichever is smaller, and always for some time. */
  lemma RrSlices(d: RrState)
    requires Wf(d) && d.readyQueue != []
    ensures 0 < Slice(d) <= d.timeQuantum && Slice(d) <= d.readyQueue[0].remainingTime
    ensures Slice(d) == d.readyQueue[0].remainingTime || Slice(d) == d.timeQuantum
  {
  }

  /** Round robin order: after a run the queue holds the clones that were
      behind the head, then the clones that arrived by the new time in
      arrival order, then the head if it still has work left. The head
      leaves the queue, with its record, exactly when it has no work left. */
  lemma RunShape(d: RrState)
    requires d.i <= |d.remainingProcesses| && d.readyQueue != []
    ensures var job, rest, t := d.readyQueue[0], d.readyQueue[1..], d.currentTime + Slice(d);
      var e := AdmitEnd(d.remainingProcesses, JobArrival, d.i, t);
      var arrived := d.remainingProcesses[d.i..e];
      && (Slice(d) == job.remainingTime ==>
            Run(d).0 == d.(i := e, currentTime := t, readyQueue := rest + arrived,
                           result := d.result + [MakeRecord(job.proc, t)]))
      && (Slice(d) != job.remainingTime ==>
            Run(d).0 == d.(i := e, currentTime := t,
                           readyQueue := rest + arrived + [job.(remainingTime := job.remainingTime - Slice(d))]))
      && Run(d).1 == Step(Run(d).0.result, Some(t))
  {
    var job, rest, t := d.readyQueue[0], d.readyQueue[1..], d.currentTime + Slice(d);
    var e := AdmitEnd(d.remainingProcesses, JobArrival, d.i, t);
    var arrived := d.remainingProcesses[d.i..e];
    if Slice(d) == job.remainingTime {
      RunState(d, e, t, rest + arrived, d.result + [MakeRecord(job.proc, t)]);
    } else {
      RunState(d, e, t, rest + arrived + [job.(remainingTime := job.remainingTime - Slice(d))], d.result);
    }
  }

  /** Run(d) field by field: the queue and the result after the run. */
  lemma RunState(d: RrState, e: nat, t: int, queue: seq<Job>, records: seq<Record>)
    requires d.i <= |d.remainingProcesses| && d.readyQueue != []
    requires t == d.currentTime + Slice(d) && e == AdmitEnd(d.remainingProcesses, JobArrival, d.i, t)
    requires var job := d.readyQueue[0];
      var ran := job.(remainingTime := job.remainingTime - Slice(d));
      var admitted := d.readyQueue[1..] + d.remainingProcesses[d.i..e];
      if ran.remainingTime == 0 then
        queue == admitted && records == d.result + [MakeRecord(job.proc, t)]
      else
        queue == admitted + [ran] && records == d.result
    ensures Run(d) == (RrState(d.remainingProcesses, d.timeQuantum, e, t, queue, records, d.finished),
                       Step(records, Some(t)))
  {
  }

  /** The invariant after the head finishes and the arrivals are admitted,
      as queue and records. */
  lemma FinishInv(jobs: seq<Job>, i: nat, done: seq<Process>, job: Job, rest: seq<Job>,
                  result: seq<Record>, t: int, delta: int, e: nat, queue: seq<Job>, records: seq<Record>)
    requires InvFields(jobs, i, [job] + rest, result, t, false, done)
    requires 0 < delta == job.remainingTime
    requires e == AdmitEnd(jobs, JobArrival, i, t + delta)
    requires queue == rest + jobs[i..e] && records == result + [MakeRecord(job.proc, t + delta)]
    ensures InvFields(jobs, e, queue, records, t + delta, false, done + [job.proc])
  {
    TracksFinishAdmit(done, job, rest, jobs, i, result, t, delta);
  }

  /** The invariant after the head runs for less than it needs, the arrivals
      are admitted and the head is pushed back, as queue. */
  lemma RequeueInv(jobs: seq<Job>, i: nat, done: seq<Process>, job: Job, rest: seq<Job>,
                   result: seq<Record>, t: int, delta: int, e: nat, queue: seq<Job>)
    requires InvFields(jobs, i, [job] + rest, result, t, false, done)
    requires 0 < delta < job.remainingTime
    requires e == AdmitEnd(jobs, JobArrival, i, t + delta)
    requires queue == rest + jobs[i..e] + [job.(remainingTime := job.remainingTime - delta)]
    ensures InvFields(jobs, e, queue, result, t + delta, false, done)
  {
    TracksRequeueAdmit(done, job, rest, jobs, i, result, t, delta);
  }

  /** The invariant of a state, from the invariant of its fields. */
  lemma InvOf(s: RrState, jobs: seq<Job>, timeQuantum: int, i: nat, queue: seq<Job>, result: seq<Record>,
              t: int, done: seq<Process>)
    requires s == RrState(jobs, timeQuantum, i, t, queue, result, false)
    requires timeQuantum > 0 && InvFields(jobs, i, queue, result, t, false, done)
    ensures Inv(s, done)
  {
  }

  lemma RunFinishInv(d: RrState, done: seq<Process>)
    requires d.timeQuantum > 0 && !d.finished && d.readyQueue != []
    requires InvFields(d.remainingProcesses, d.i, d.readyQueue, d.result, d.currentTime, false, done)
    requires 0 < Slice(d) == d.readyQueue[0].remainingTime
    ensures Inv(Run(d).0, done + [d.readyQueue[0].proc])
  {
    var job, rest, t := d.readyQueue[0], d.readyQueue[1..], d.currentTime + Slice(d);
    var e := AdmitEnd(d.remainingProcesses, JobArrival, d.i, t);
    var queue, records := rest + d.remainingProcesses[d.i..e], d.result + [MakeRecord(job.proc, t)];
    assert d.readyQueue == [job] + rest;
    FinishInv(d.remainingProcesses, d.i, done, job, rest, d.result, d.currentTime, Slice(d), e, queue, records);
    RunState(d, e, t, queue, records);
    InvOf(Run(d).0, d.remainingProcesses, d.timeQuantum, e, queue, records, t, done + [job.proc]);
  }

  lemma RunRequeueInv(d: RrState, done: seq<Process>)
    requires d.timeQuantum > 0 && !d.finished && d.readyQueue != []
    requires InvFields(d.remainingProcesses, d.i, d.readyQueue, d.result, d.currentTime, false, done)
    requires 0 < Slice(d) < d.readyQueue[0].remainingTime
    ensures Inv(Run(d).0, done)
  {
    var job, rest, t := d.readyQueue[0], d.readyQueue[1..], d.currentTime + Slice(d);
    var e := AdmitEnd(d.remainingProcesses, JobArrival, d.i, t);
    var ran := job.(remainingTime := job.remainingTime - Slice(d));
    var queue := rest + d.remainingProcesses[d.i..e] + [ran];
    assert d.readyQueue == [job] + rest;
    RequeueInv(d.remainingProcesses, d.i, done, job, rest, d.result, d.currentTime, Slice(d), e, queue);
    RunState(d, e, t, queue, d.result);
    InvOf(Run(d).0, d.remainingProcesses, d.timeQuantum, e, queue, d.result, t, done);
  }

  /** Running the head keeps the invariant. */
  lemma RunInv(d: RrState, done: seq<Process>)
    requires Inv(d, done) && !d.finished && d.readyQueue != []
    ensures Inv(Run(d).0, RunDone(d, done))
  {
    InvWf(d, done);
    RrSlices(d);
    if Slice(d) == d.readyQueue[0].remainingTime {
      RunFinishInv(d, done);
    } else {
      RunRequeueInv(d, done);
    }
  }

  /** One step keeps the invariant. */
  lemma NextInv(s: RrState, done: seq<Process>)
    requires Inv(s, done) && !s.finished
    ensures Inv(Next(s).0, NextDone(s, done))
  {
    if s.i < |s.remainingProcesses| || s.readyQueue != [] {
      var d := Decide(s);
      assert Next(s) == Run(d) && NextDone(s, done) == RunDone(d, done);
      DecideInv(s, done);
      RunInv(d, done);
    }
  }

  /** One step yields a strictly later time with the result extended by at
      most one record, or ends with the unchanged result and time None. */
  lemma NextSteps(s: RrState)
    requires Wf(s) && !s.finished
    ensures var s', step := Next(s).0, Next(s).1;
      && s'.remainingProcesses == s.remainingProcesses && s'.timeQuantum == s.timeQuantum
      && step.result == s'.result
      && (s'.finished <==> step.currentTime == None)
      && (s'.finished ==> s'.result == s.result)
      && (!s'.finished ==>
            && step.currentTime == Some(s'.currentTime)
            && s'.currentTime > s.currentTime
            && |s'.result| <= |s.result| + 1
            && s.result <= s'.result)
  {
    if s.i < |s.remainingProcesses| || s.readyQueue != [] {
      var d := Decide(s);
      assert Next(s) == Run(d);
      DecideWork(s);
      RunSteps(d);
    }
  }

  /** Running yields the new time, strictly later, with at most one record
      appended to the result. */
  lemma RunSteps(d: RrState)
    requires Wf(d) && d.readyQueue != []
    ensures var s' := Run(d).0;
      && s'.remainingProcesses == d.remainingProcesses && s'.timeQuantum == d.timeQuantum
      && s'.finished == d.finished
      && Run(d).1 == Step(s'.result, Some(s'.currentTime))
      && s'.currentTime > d.currentTime
      && |s'.result| <= |d.result| + 1 && d.result <= s'.result
  {
    RrSlices(d);
    RunShape(d);
  }

  /** Running takes the slice off the outstanding work and keeps every
      clone's remaining time positive. */
  lemma RunWork(d: RrState)
    requires Wf(d) && d.readyQueue != []
    ensures Wf(Run(d).0) && Work(Run(d).0) == Work(d) - Slice(d) && Slice(d) > 0
  {
    RrSlices(d);
    var job, rest, t := d.readyQueue[0], d.readyQueue[1..], d.currentTime + Slice(d);
    var e := AdmitEnd(d.remainingProcesses, JobArrival, d.i, t);
    var ran := job.(remainingTime := job.remainingTime - Slice(d));
    var admitted := rest + d.remainingProcesses[d.i..e];
    var queue := if ran.remainingTime == 0 then admitted else admitted + [ran];
    var records := if ran.remainingTime == 0 then d.result + [MakeRecord(job.proc, t)] else d.result;
    RunFields(d.timeQuantum, d.remainingProcesses, d.i, d.readyQueue, Slice(d), e, queue);
    RunState(d, e, t, queue, records);
    WorkOf(Run(d).0, d.remainingProcesses, d.timeQuantum, e, queue);
  }

  /** Wf and Work of a state, from its fields. */
  lemma WorkOf(s: RrState, jobs: seq<Job>, timeQuantum: int, i: nat, queue: seq<Job>)
    requires s.remainingProcesses == jobs && s.timeQuantum == timeQuantum && s.i == i && s.readyQueue == queue
    requires WfFields(timeQuantum, jobs, i, queue)
    ensures Wf(s) && Work(s) == Outstanding(jobs, i, queue)
  {
  }

  /** Running the head for delta, admitting the clones up to e and pushing
      the head back if it has work left takes delta off the outstanding
      work. */
  lemma RunFields(timeQuantum: int, jobs: seq<Job>, i: nat, queue: seq<Job>, delta: int, e: nat, queue': seq<Job>)
    requires WfFields(timeQuantum, jobs, i, queue) && queue != [] && i <= e <= |jobs|
    requires 0 < delta <= queue[0].remainingTime
    requires var ran := queue[0].(remainingTime := queue[0].remainingTime - delta);
      queue' == if ran.remainingTime == 0 then queue[1..] + jobs[i..e] else queue[1..] + jobs[i..e] + [ran]
    ensures WfFields(timeQuantum, jobs, e, queue') && Outstanding(jobs, e, queue') == Outstanding(jobs, i, queue) - delta
  {
    var ran := queue[0].(remainingTime := queue[0].remainingTime - delta);
    ShiftFields(timeQuantum, jobs, i, queue);
    AdmitFields(timeQuantum, jobs, i, queue[1..], e);
    if ran.remainingTime != 0 {
      PushFields(timeQuantum, jobs, e, queue[1..] + jobs[i..e], ran);
    }
  }

  /** Shifting the head off the queue takes its remaining time off the work. */
  lemma ShiftFields(timeQuantum: int, jobs: seq<Job>, i: nat, queue: seq<Job>)
    requires WfFields(timeQuantum, jobs, i, queue) && queue != []
    ensures WfFields(timeQuantum, jobs, i, queue[1..])
    ensures Outstanding(jobs, i, queue[1..]) == Outstanding(jobs, i, queue) - queue[0].remainingTime
  {
    assert queue == [queue[0]] + queue[1..];
    TotalRemainingAppend([queue[0]], queue[1..]);
  }

  /** Admitting the clones from i up to e keeps the outstanding work. */
  lemma AdmitFields(timeQuantum: int, jobs: seq<Job>, i: nat, queue: seq<Job>, e: nat)
    requires WfFields(timeQuantum, jobs, i, queue) && i <= e <= |jobs|
    ensures WfFields(timeQuantum, jobs, e, queue + jobs[i..e])
    ensures Outstanding(jobs, e, queue + jobs[i..e]) == Outstanding(jobs, i, queue)
  {
    var arrived := jobs[i..e];
    assert jobs[i..] == arrived + jobs[e..];
    TotalRemainingAppend(queue, arrived);
    TotalRemainingAppend(arrived, jobs[e..]);
    var admitted := queue + arrived;
    forall k | 0 <= k < |admitted| ensures admitted[k].remainingTime > 0 {
      if k >= |queue| {
        assert admitted[k] == jobs[i + (k - |queue|)];
      }
    }
  }

  /** Pushing a clone with work left adds its remaining time to the work. */
  lemma PushFields(timeQuantum: int, jobs: seq<Job>, i: nat, queue: seq<Job>, ran: Job)
    requires WfFields(timeQuantum, jobs, i, queue) && timeQuantum > 0 && ran.remainingTime > 0
    ensures WfFields(timeQuantum, jobs, i, queue + [ran])
    ensures Outstanding(jobs, i, queue + [ran]) == Outstanding(jobs, i, queue) + ran.remainingTime
  {
    TotalRemainingAppend(queue, [ran]);
    assert SumOf([ran], RemainingTime) == RemainingTime(ran) + SumOf([ran][1..], RemainingTime);
    assert [ran][1..] == [];
    var pushed := queue + [ran];
    forall k | 0 <= k < |pushed| ensures pushed[k].remainingTime > 0 {
      if k < |queue| {
        assert pushed[k] == queue[k];
      }
    }
  }

  /** The outstanding work bounds the number of steps left. */
  lemma NextWork(s: RrState)
    requires Wf(s) && !s.finished
    ensures Wf(Next(s).0) && Work(s) >= 0
    ensures Next(s).0.finished || Work(Next(s).0) < Work(s)
    ensures Work(Next(s).0) <= Work(s)
    ensures Next(s).0.finished <==> Next(s).1.currentTime.None?
  {
    TotalRemainingBound(s.readyQueue);
    TotalRemainingBound(s.remainingProcesses[s.i..]);
    if s.i < |s.remainingProcesses| || s.readyQueue != [] {
      var d := Decide(s);
      assert Next(s) == Run(d);
      DecideWork(s);
      RunWork(d);
      RunShape(d);
    }
  }

  lemma DecideWork(s: RrState)
    requires Wf(s) && !s.finished && (s.i < |s.remainingProcesses| || s.readyQueue != [])
    ensures Wf(Decide(s)) && Work(Decide(s)) == Work(s)
  {
    AdmitWork(s);
    var a := Admit(s);
    if a.readyQueue == [] {
      AdmitWork(Jump(a));
    }
  }

  lemma AdmitWork(s: RrState)
    requires Wf(s)
    ensures Wf(Admit(s)) && Work(Admit(s)) == Work(s)
  {
    AdmitFields(s.timeQuantum, s.remainingProcesses, s.i, s.readyQueue,
                AdmitEnd(s.remainingProcesses, JobArrival, s.i, s.currentTime));
  }

  /** All remaining steps from state s. */
  function Trace(s: RrState): seq<Step>
    requires Wf(s)
    decreases Work(s), if s.finished then 0 else 1
  {
    if s.finished then []
    else
      NextWork(s);
      var (s', step) := Next(s);
      [step] + Trace(s')
  }

  /** The state in which the generator ends. */
  ghost function Final(s: RrState): RrState
    requires Wf(s)
    decreases Work(s), if s.finished then 0 else 1
  {
    if s.finished then s
    else
      NextWork(s);
      Final(Next(s).0)
  }

  /** The processes completed by the end of the run, in completion order. */
  ghost function FinalDone(s: RrState, done: seq<Process>): seq<Process>
    requires Wf(s)
    decreases Work(s), if s.finished then 0 else 1
  {
    if s.finished then done
    else
      NextWork(s);
      FinalDone(Next(s).0, NextDone(s, done))
  }

  lemma InitWf(processes: seq<Process>, timeQuantum: int)
    requires ValidInput(processes) && (timeQuantum > 0 || processes == [])
    ensures Wf(Init(processes, timeQuantum))
  {
    if timeQuantum > 0 {
      InitInv(processes, timeQuantum);
    } else {
      assert |Init(processes, timeQuantum).remainingProcesses| == 0;
    }
  }

  /** Every step `rr(processes, timeQuantum)` yields, in order. */
  function Schedule(processes: seq<Process>, timeQuantum: int): seq<Step>
    requires ValidInput(processes) && (timeQuantum > 0 || processes == [])
  {
    InitWf(processes, timeQuantum);
    Trace(Init(processes, timeQuantum))
  }

  /** The processes of `rr(processes, timeQuantum)` in the order they complete. */
  ghost function Completed(processes: seq<Process>, timeQuantum: int): seq<Process>
    requires ValidInput(processes) && timeQuantum > 0
  {
    InitWf(processes, timeQuantum);
    FinalDone(Init(processes, timeQuantum), [])
  }

  /** Trace, Final and FinalDone take one step at a time. */
  lemma TraceCons(s: RrState)
    requires Wf(s) && !s.finished
    ensures Wf(Next(s).0)
    ensures Trace(s) == [Next(s).1] + Trace(Next(s).0)
  {
    NextWork(s);
  }

  lemma FinalCons(s: RrState, done: seq<Process>)
    requires Wf(s) && !s.finished
    ensures Wf(Next(s).0)
    ensures Final(s) == Final(Next(s).0)
    ensures FinalDone(s, done) == FinalDone(Next(s).0, NextDone(s, done))
  {
    NextWork(s);
  }

  /** Every step of the rest of the run moves time forward and extends the
      result by at most one record, and the last step carries the final result. */
  lemma {:induction false} TraceSteps(s: RrState)
    requires Wf(s) && !s.finished
    ensures Progresses(Trace(s), s.result, s.currentTime, false)
    ensures Last(Trace(s)).result == Final(s).result
    decreases Work(s)
  {
    NextSteps(s);
    NextWork(s);
    TraceCons(s);
    FinalCons(s, []);
    var s', step := Next(s).0, Next(s).1;
    if s'.finished {
      assert Trace(s) == [step];
    } else {
      TraceSteps(s');
      ProgressesCons(step, Trace(s'), s.result, s.currentTime, false);
    }
  }

  /** The invariant holds when the generator ends. */
  lemma {:induction false} TraceInv(s: RrState, done: seq<Process>)
    requires Inv(s, done) && !s.finished
    ensures Inv(Final(s), FinalDone(s, done)) && Final(s).finished
    ensures Final(s).remainingProcesses == s.remainingProcesses
    decreases Work(s)
  {
    InvWf(s, done);
    NextInv(s, done);
    NextSteps(s);
    NextWork(s);
    FinalCons(s, done);
    var s' := Next(s).0;
    if !s'.finished {
      TraceInv(s', NextDone(s, done));
    }
  }

  /** The whole run: every step carries a strictly later time and extends the
      result by at most one record, and the last step carries time None. */
  lemma RrSteps(processes: seq<Process>, timeQuantum: int)
    requires ValidInput(processes) && timeQuantum > 0
    ensures Progresses(Schedule(processes, timeQuantum), [], 0, false)
  {
    InitWf(processes, timeQuantum);
    TraceSteps(Init(processes, timeQuantum));
  }

  /** When the generator ends, the completed processes are the input's and
      their records are correct. */
  lemma FinalComplete(f: RrState, done: seq<Process>, processes: seq<Process>)
    requires Inv(f, done) && f.finished
    requires multiset(Origins(f.remainingProcesses)) == multiset(processes)
    ensures multiset(done) == multiset(processes) && Accounts(f.result, done)
    ensures Complete(f.result, processes)
  {
    assert f.remainingProcesses[..f.i] == f.remainingProcesses;
    TracksComplete(done, f.remainingProcesses, f.result, f.currentTime, processes);
  }

  /** The final result has one correct record per process (waiting time from
      the original burst, never negative), in completion order. */
  lemma RrCorrect(processes: seq<Process>, timeQuantum: int)
    requires ValidInput(processes) && timeQuantum > 0
    ensures multiset(Completed(processes, timeQuantum)) == multiset(processes)
    ensures Accounts(Last(Schedule(processes, timeQuantum)).result, Completed(processes, timeQuantum))
    ensures Complete(Last(Schedule(processes, timeQuantum)).result, processes)
  {
    InitInv(processes, timeQuantum);
    var s := Init(processes, timeQuantum);
    TraceSteps(s);
    TraceInv(s, []);
    FinalComplete(Final(s), FinalDone(s, []), processes);
  }

  /** Once every clone is admitted, a step is a plain rotation: the head
      runs for its slice and leaves with its record or goes to the back. */
  lemma RotateStep(s: RrState)
    requires s.i == |s.remainingProcesses| && s.readyQueue != [] && !s.finished
    ensures var job, rest, t := s.readyQueue[0], s.readyQueue[1..], s.currentTime + Slice(s);
      var ran := job.(remainingTime := job.remainingTime - Slice(s));
      && (ran.remainingTime == 0 ==>
            var result := s.result + [MakeRecord(job.proc, t)];
            Next(s) == (s.(currentTime := t, readyQueue := rest, result := result), Step(result, Some(t))))
      && (ran.remainingTime != 0 ==>
            Next(s) == (s.(currentTime := t, readyQueue := rest + [ran]), Step(s.result, Some(t))))
  {
    var job, rest, t := s.readyQueue[0], s.readyQueue[1..], s.currentTime + Slice(s);
    var ran := job.(remainingTime := job.remainingTime - Slice(s));
    var jobs := s.remainingProcesses;
    assert AdmitEnd(jobs, JobArrival, s.i, s.currentTime) == s.i;
    assert AdmitEnd(jobs, JobArrival, s.i, t) == s.i;
    assert jobs[s.i..s.i] == [];
    assert s.readyQueue + [] == s.readyQueue && rest + [] == rest;
    assert Decide(s) == s;
    assert Next(s) == Run(s);
    if ran.remainingTime == 0 {
      RunState(s, s.i, t, rest, s.result + [MakeRecord(job.proc, t)]);
    } else {
      RunState(s, s.i, t, rest + [ran], s.result);
    }
  }

  function ExampleJobs(): seq<Job> {
    [Job(Process(1, 0, 5), 5), Job(Process(2, 0, 5), 5)]
  }

  /** At 0 both processes arrive; process 1 runs for the quantum 2 and goes
      behind process 2. */
  lemma ExampleFirst(s: RrState)
    requires s == RrState(ExampleJobs(), 2, 0, 0, [], [], false)
    ensures Next(s) == (RrState(ExampleJobs(), 2, 2, 2, [Job(Process(2, 0, 5), 5), Job(Process(1, 0, 5), 3)], [], false),
                        Step([], Some(2)))
  {
    var jobs := ExampleJobs();
    assert AdmitEnd(jobs, JobArrival, 0, 0) == 2;
    assert AdmitEnd(jobs, JobArrival, 2, 2) == 2;
    assert jobs[0..2] == jobs && jobs[2..2] == [];
    var d := s.(i := 2, readyQueue := jobs);
    assert Decide(s) == d;
    RunShape(d);
    assert d.readyQueue[1..] + [] + [Job(Process(1, 0, 5), 3)] == [Job(Process(2, 0, 5), 5), Job(Process(1, 0, 5), 3)];
  }

  /** The two clones take turns: each step runs the head for
      min(remaining, 2) and rotates the queue. */
  lemma ExampleRotations(s1: RrState)
    requires s1 == RrState(ExampleJobs(), 2, 2, 2, [Job(Process(2, 0, 5), 5), Job(Process(1, 0, 5), 3)], [], false)
    ensures var s2 := Next(s1).0;
      && s2 == RrState(ExampleJobs(), 2, 2, 4, [Job(Process(1, 0, 5), 3), Job(Process(2, 0, 5), 3)], [], false)
      && var s3 := Next(s2).0;
      && s3 == RrState(ExampleJobs(), 2, 2, 6, [Job(Process(2, 0, 5), 3), Job(Process(1, 0, 5), 1)], [], false)
      && var s4 := Next(s3).0;
      && s4 == RrState(ExampleJobs(), 2, 2, 8, [Job(Process(1, 0, 5), 1), Job(Process(2, 0, 5), 1)], [], false)
  {
    RotateStep(s1);
    var s2 := Next(s1).0;
    RotateStep(s2);
    var s3 := Next(s2).0;
    RotateStep(s3);
  }

  /** Process 1 completes at 9. */
  lemma ExampleFifth(s4: RrState)
    requires s4 == RrState(ExampleJobs(), 2, 2, 8, [Job(Process(1, 0, 5), 1), Job(Process(2, 0, 5), 1)], [], false)
    ensures Next(s4).0 == s4.(currentTime := 9, readyQueue := [Job(Process(2, 0, 5), 1)], result := s4.result + [Record(1, 9, 9, 4)])
  {
    RotateStep(s4);
  }

  /** Process 2 completes at 10, behind whatever was recorded before. */
  lemma ExampleSixth(s5: RrState, prior: seq<Record>)
    requires s5 == RrState(ExampleJobs(), 2, 2, 9, [Job(Process(2, 0, 5), 1)], prior, false)
    ensures Next(s5).0 == s5.(currentTime := 10, readyQueue := [], result := prior + [Record(2, 10, 10, 5)])
  {
    RotateStep(s5);
  }

  /** Processes 1 and 2 complete at 9 and 10, in that order. */
  lemma ExampleCompletions(s4: RrState)
    requires s4 == RrState(ExampleJobs(), 2, 2, 8, [Job(Process(1, 0, 5), 1), Job(Process(2, 0, 5), 1)], [], false)
    ensures Next(Next(s4).0).0 == s4.(currentTime := 10, readyQueue := [], result := [Record(1, 9, 9, 4), Record(2, 10, 10, 5)])
  {
    ExampleFifth(s4);
    var s5 := Next(s4).0;
    ExampleSixth(s5, s5.result);
    assert s5.result == [Record(1, 9, 9, 4)];
  }

  /** Nothing is left: the generator ends. */
  lemma ExampleLast(s6: RrState)
    requires s6.i == |s6.remainingProcesses| && s6.readyQueue == [] && !s6.finished
    ensures Next(s6).0.finished && Next(s6).1 == Step(s6.result, None)
  {
  }

  /** With no processes the outer loop never starts, whatever the quantum
      (even 0 or less): the generator yields only the final step. */
  lemma RrNoProcesses(timeQuantum: int)
    ensures Schedule([], timeQuantum) == [Step([], None)]
  {
    InitWf([], timeQuantum);
    var s := Init([], timeQuantum);
    assert s.remainingProcesses == [];
    ExampleLast(s);
    TraceCons(s);
  }

  /** The worked example {1,0,5}, {2,0,5} with quantum 2: the processes
      alternate in slices of 2 and complete at 9 and 10, with waiting times
      4 and 5. */
  lemma RrExample(ps: seq<Process>)
    requires ps == [Process(1, 0, 5), Process(2, 0, 5)]
    ensures ValidInput(ps)
    ensures Schedule(ps, 2)[0] == Step([], Some(2))
    ensures Last(Schedule(ps, 2)).result == [Record(1, 9, 9, 4), Record(2, 10, 10, 5)]
  {
    SortTwo(ps[0], ps[1], ArrivalTime);
    assert Clones(ps) == ExampleJobs();
    InitWf(ps, 2);
    var s0 := Init(ps, 2);
    ExampleFirst(s0);
    var s1 := Next(s0).0;
    ExampleRotations(s1);
    var s4 := Next(Next(Next(s1).0).0).0;
    ExampleCompletions(s4);
    ExampleLast(Next(Next(s4).0).0);
    TraceCons(s0);
    TraceSteps(s0);
    FinalCons(s0, []);
    FinalCons(s1, []);
    FinalCons(Next(s1).0, []);
    FinalCons(Next(Next(s1).0).0, []);
    FinalCons(s4, []);
    FinalCons(Next(s4).0, []);
    FinalCons(Next(Next(s4).0).0, []);
  }

  /** The generator object: its fields are the generator's arguments and
      local variables. */
  class RrScheduler {
    const remainingProcesses: seq<Job>
    const timeQuantum: int
    var i: nat
    var currentTime: int
    var readyQueue: seq<Job>
    var result: seq<Record>
    var finished: bool

    ghost function State(): RrState
      reads this
    {
      RrState(remainingProcesses, timeQuantum, i, currentTime, readyQueue, result, finished)
    }

    ghost predicate Valid()
      reads this
    {
      Wf(State())
    }

    constructor (processes: seq<Process>, timeQuantum: int)
      requires ValidInput(processes) && (timeQuantum > 0 || processes == [])
      ensures Valid() && State() == Init(processes, timeQuantum)
    {
      remainingProcesses := Clones(SortBy(processes, ArrivalTime));
      this.timeQuantum := timeQuantum;
      i, currentTime, readyQueue, result, finished := 0, 0, [], [], false;
      new;
      InitWf(processes, timeQuantum);
    }

    /** The admission loop from clone j on at time t: the clones that have
        arrived by t are pushed onto the back of queue, in order; returns
        where the loop stopped and the new queue. */
    method AdmitFrom(j: nat, t: int, queue: seq<Job>) returns (e: nat, queue': seq<Job>)
      requires j <= |remainingProcesses|
      ensures e == AdmitEnd(remainingProcesses, JobArrival, j, t)
      ensures queue' == queue + remainingProcesses[j..e]
    {
      e, queue' := j, queue;
      while e < |remainingProcesses| && remainingProcesses[e].proc.arrivalTime <= t
        invariant j <= e <= |remainingProcesses|
        invariant queue' == queue + remainingProcesses[j..e]
        invariant forall m :: j <= m < e ==> remainingProcesses[m].proc.arrivalTime <= t
      {
        assert remainingProcesses[j..e + 1] == remainingProcesses[j..e] + [remainingProcesses[e]];
        queue' := queue' + [remainingProcesses[e]];
        e := e + 1;
      }
      AdmitEndAt(remainingProcesses, JobArrival, j, e, t);
    }

    /** Admits every clone that has arrived by currentTime. */
    method AdmitArrived()
      requires Valid()
      modifies this
      ensures State() == Admit(old(State())) && Valid()
    {
      AdmitWork(State());
      i, readyQueue := AdmitFrom(i, currentTime, readyQueue);
    }

    /** Shifts the head off the ready queue, runs it for its slice, admits
        the arrivals, then records it or pushes it back. */
    method RunHead() returns (step: Step)
      requires Valid() && readyQueue != []
      modifies this
      ensures State() == Run(old(State())).0 && step == Run(old(State())).1 && Valid()
    {
      ghost var d := State();
      var process := readyQueue[0];
      var executionTime := Min(process.remainingTime, timeQuantum);
      process := process.(remainingTime := process.remainingTime - executionTime);
      var t := currentTime + executionTime;
      var e, queue := AdmitFrom(i, t, readyQueue[1..]);
      var records := result;
      if process.remainingTime == 0 {
        var completionTime := t;
        var turnaroundTime := completionTime - process.proc.arrivalTime;
        var waitingTime := turnaroundTime - process.proc.burstTime;
        records := records + [Record(process.proc.pid, completionTime, turnaroundTime, waitingTime)];
      } else {
        queue := queue + [process];
      }
      RunState(d, e, t, queue, records);
      RunWork(d);
      i, currentTime, readyQueue, result := e, t, queue, records;
      step := Step(result, Some(currentTime));
    }

    /** Resumes the generator up to its next yield. */
    method NextStep() returns (step: Step)
      requires Valid() && !finished
      modifies this
      ensures State() == Next(old(State())).0 && step == Next(old(State())).1
      ensures Valid()
    {
      ghost var before := State();
      ghost var jumped := false;
      while i < |remainingProcesses| || |readyQueue| > 0
        invariant Wf(before) && !before.finished
        invariant Valid() && remainingProcesses == before.remainingProcesses
        invariant !jumped ==> State() == before
        invariant jumped ==> && Admit(before).readyQueue == []
                             && Admit(before).i < |remainingProcesses|
                             && State() == Jump(Admit(before))
        decreases if jumped then 0 else 1
      {
        AdmitArrived();
        if |readyQueue| > 0 {
          assert State() == Decide(before) && Next(before) == Run(State());
          step := RunHead();
          return;
        } else {
          currentTime := remainingProcesses[i].proc.arrivalTime;
          jumped := true;
        }
      }
      finished := true;
      step := Step(result, None);
    }
  }

  /** Pulls steps from the generator in state s until the one with time
      None: the steps pulled are Trace(s). */
  method DrainFrom(scheduler: RrScheduler, ghost s: RrState) returns (steps: seq<Step>)
    requires scheduler.Valid() && scheduler.State() == s && !s.finished
    modifies scheduler
    ensures steps == Trace(s)
    decreases Work(s)
  {
    NextWork(s);
    TraceCons(s);
    var step := scheduler.NextStep();
    if step.currentTime.None? {
      steps := [step];
    } else {
      var rest := DrainFrom(scheduler, scheduler.State());
      steps := [step] + rest;
    }
  }

  /** Pulls every step from a fresh generator: the steps are exactly
      Schedule(processes, timeQuantum). */
  method Drain(processes: seq<Process>, timeQuantum: int) returns (steps: seq<Step>)
    requires ValidInput(processes) && (timeQuantum > 0 || processes == [])
    ensures steps == Schedule(processes, timeQuantum)
  {
    var scheduler := new RrScheduler(processes, timeQuantum);
    steps := DrainFrom(scheduler, scheduler.State());
  }
}
