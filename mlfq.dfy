/** `mlfq(processes)`: a multi-level feedback queue with three levels whose
    quanta are 4, 8 and `Infinity`. The processes are stably sorted by
    arrival time and cloned with a remainingTime; arrived clones join the
    back of level 0; the head of the first non-empty level runs for the
    smallest of its remaining time, the level's quantum and the time to the
    next arrival; the clones that arrived meanwhile join level 0, and only
    then is the head, if it still has work left, pushed onto the back of the
    next lower level (level 2 keeps it). */
module Mlfq {
  import opened Seqs
  import opened Processes
  import opened StableSort

  /** The levels' time quanta, highest priority first; `Infinity` is None. */
  const Quanta: seq<Option<int>> := [Some(4), Some(8), None]

  /** The generator's local variables between two yields; queues[q] holds
      the clones waiting at level q. */
  datatype MlfqState = MlfqState(
    remainingProcesses: seq<Job>,
    i: nat,
    currentTime: int,
    queues: seq<seq<Job>>,
    result: seq<Record>,
    finished: bool)

  function Init(processes: seq<Process>): MlfqState {
    MlfqState(Clones(SortBy(processes, ArrivalTime)), 0, 0, [[], [], []], [], false)
  }

  /** The clones queued at some level, level 0 first. */
  function Pool(queues: seq<seq<Job>>): seq<Job>
    requires |queues| == 3
  {
    queues[0] + queues[1] + queues[2]
  }

  /** `queues.some(q => q.processes.length > 0)` */
  predicate AnyQueued(queues: seq<seq<Job>>)
    requires |queues| == 3
  {
    queues[0] != [] || queues[1] != [] || queues[2] != []
  }

  /** The admission loop: the clones from i on that have arrived by
      currentTime are pushed onto the back of level 0 in order. */
  function Admit(s: MlfqState): (a: MlfqState)
    requires s.i <= |s.remainingProcesses| && |s.queues| == 3
    ensures a.remainingProcesses == s.remainingProcesses && s.i <= a.i <= |a.remainingProcesses|
    ensures |a.queues| == 3
    ensures a.i == |a.remainingProcesses| || a.remainingProcesses[a.i].proc.arrivalTime > a.currentTime
    ensures a.queues[0] == s.queues[0] + s.remainingProcesses[s.i..a.i]
    ensures a.queues[1] == s.queues[1] && a.queues[2] == s.queues[2]
    ensures a.currentTime == s.currentTime && a.result == s.result && a.finished == s.finished
  {
    var e := AdmitEnd(s.remainingProcesses, JobArrival, s.i, s.currentTime);
    s.(i := e, queues := s.queues[0 := s.queues[0] + s.remainingProcesses[s.i..e]])
  }

  /** The idle branch: time jumps to the next process's arrival. */
  function Jump(a: MlfqState): MlfqState
    requires a.i < |a.remainingProcesses|
  {
    a.(currentTime := a.remainingProcesses[a.i].proc.arrivalTime)
  }

  /** The state in which the loop next runs a clone: after admission and,
      when no level holds a clone, after the idle jump and a second
      admission. Every clone that has arrived by then is admitted. */
  function Decide(s: MlfqState): (d: MlfqState)
    requires s.i <= |s.remainingProcesses| && |s.queues| == 3
    requires s.i < |s.remainingProcesses| || AnyQueued(s.queues)
    ensures d.remainingProcesses == s.remainingProcesses && d.i <= |d.remainingProcesses|
    ensures |d.queues| == 3 && AnyQueued(d.queues)
    ensures d.i == |d.remainingProcesses| || d.remainingProcesses[d.i].proc.arrivalTime > d.currentTime
    ensures d.currentTime >= s.currentTime && d.i >= s.i && d.result == s.result && d.finished == s.finished
  {
    var a := Admit(s);
    if AnyQueued(a.queues) then a else Admit(Jump(a))
  }

  /** The `for` loop's choice: the first level, from the highest priority
      down, that holds a clone. */
  function Level(queues: seq<seq<Job>>): (q: nat)
    requires |queues| == 3 && AnyQueued(queues)
    ensures q < 3 && queues[q] != []
    ensures forall h :: 0 <= h < q ==> queues[h] == []
  {
    if queues[0] != [] then 0 else if queues[1] != [] then 1 else 2
  }

  /** The clone that runs in state d: the head of the chosen level. */
  function Head(d: MlfqState): Job
    requires |d.queues| == 3 && AnyQueued(d.queues)
  {
    d.queues[Level(d.queues)][0]
  }

  /** `nextArrivalTime`: the arrival of the first clone not yet admitted, or
      `Infinity`. */
  function NextArrival(s: MlfqState): Option<int>
    requires s.i <= |s.remainingProcesses|
  {
    if s.i < |s.remainingProcesses| then Some(s.remainingProcesses[s.i].proc.arrivalTime) else None
  }

  /** `Math.min(process.remainingTime, queues[q].timeQuantum, nextArrivalTime - currentTime)` */
  function Slice(d: MlfqState): int
    requires d.i <= |d.remainingProcesses| && |d.queues| == 3 && AnyQueued(d.queues)
  {
    MinInf(MinInf(Head(d).remainingTime, Quanta[Level(d.queues)]), MinusInf(NextArrival(d), d.currentTime))
  }

  /** Where an unfinished clone from level q goes: the next lower level, or
      level q itself when it is the lowest. */
  function Demote(q: nat): nat {
    if q < 2 then q + 1 else q
  }

  /** Shift the head of the chosen level, run it for its slice, admit the
      clones that arrived meanwhile, then either record the head's
      completion or push it onto its demotion level; then yield. */
  function Run(d: MlfqState): (MlfqState, Step)
    requires d.i <= |d.remainingProcesses| && |d.queues| == 3 && AnyQueued(d.queues)
  {
    var q := Level(d.queues);
    var process := d.queues[q][0];
    var executionTime := Slice(d);
    var ran := process.(remainingTime := process.remainingTime - executionTime);
    var a := Admit(d.(currentTime := d.currentTime + executionTime, queues := d.queues[q := d.queues[q][1..]]));
    if ran.remainingTime == 0 then
      var result := a.result + [MakeRecord(ran.proc, a.currentTime)];
      (a.(result := result), Step(result, Some(a.currentTime)))
    else
      var r := Demote(q);
      (a.(queues := a.queues[r := a.queues[r] + [ran]]), Step(a.result, Some(a.currentTime)))
  }

  /** One resumption of the generator: the next state and the yielded step. */
  function Next(s: MlfqState): (MlfqState, Step)
    requires !s.finished && s.i <= |s.remainingProcesses| && |s.queues| == 3
  {
    if s.i < |s.remainingProcesses| || AnyQueued(s.queues) then Run(Decide(s))
    else (s.(finished := true), Step(s.result, None))
  }

  /** The processes completed in run state d, given those completed before. */
  ghost function RunDone(d: MlfqState, done: seq<Process>): seq<Process>
    requires d.i <= |d.remainingProcesses| && |d.queues| == 3 && AnyQueued(d.queues)
  {
    if Slice(d) == Head(d).remainingTime then done + [Head(d).proc] else done
  }

  /** The processes completed after one more step, given those completed before. */
  ghost function NextDone(s: MlfqState, done: seq<Process>): seq<Process>
    requires !s.finished && s.i <= |s.remainingProcesses| && |s.queues| == 3
  {
    if s.i < |s.remainingProcesses| || AnyQueued(s.queues) then RunDone(Decide(s), done) else done
  }

  /** What the loop may rely on: there are three levels and every clone
      still has work left. */
  ghost predicate Wf(s: MlfqState) {
    WfFields(s.remainingProcesses, s.i, s.queues)
  }

  ghost predicate WfFields(jobs: seq<Job>, i: int, queues: seq<seq<Job>>) {
    && 0 <= i <= |jobs|
    && |queues| == 3
    && (forall k :: 0 <= k < |jobs| ==> jobs[k].remainingTime > 0)
    && (forall k :: 0 <= k < |Pool(queues)| ==> Pool(queues)[k].remainingTime > 0)
  }

  /** done are the processes completed so far, in completion order, and the
      bookkeeping holds for them and the clones queued at all levels; the
      clones not yet admitted have not run. Stated over the generator's
      variables one by one. */
  ghost predicate InvFields(jobs: seq<Job>, i: int, queues: seq<seq<Job>>, result: seq<Record>,
                            currentTime: int, finished: bool, done: seq<Process>)
  {
    && 0 <= i <= |jobs|
    && |queues| == 3
    && Untouched(jobs)
    && Tracks(done, Pool(queues), jobs[..i], result, currentTime)
    && (finished ==> i == |jobs| && Pool(queues) == [])
  }

  ghost predicate Inv(s: MlfqState, done: seq<Process>) {
    match s
    case MlfqState(jobs, i, currentTime, queues, result, finished) =>
      InvFields(jobs, i, queues, result, currentTime, finished, done)
  }

  lemma InvWf(s: MlfqState, done: seq<Process>)
    requires Inv(s, done)
    ensures Wf(s)
  {
  }

  /** The time the clones still need, queued or not yet admitted. */
  function Work(s: MlfqState): int
    requires s.i <= |s.remainingProcesses| && |s.queues| == 3
  {
    Outstanding(s.remainingProcesses, s.i, s.queues)
  }

  function Outstanding(jobs: seq<Job>, i: nat, queues: seq<seq<Job>>): int
    requires i <= |jobs| && |queues| == 3
  {
    TotalRemaining(Pool(queues)) + TotalRemaining(jobs[i..])
  }

  /** Some level holds a clone exactly when the pool is not empty. */
  lemma AnyQueuedPool(queues: seq<seq<Job>>)
    requires |queues| == 3
    ensures AnyQueued(queues) <==> Pool(queues) != []
  {
  }

  /** Appending to level 0 appends to the pool, up to order. */
  lemma PoolAdmit(queues: seq<seq<Job>>, arrived: seq<Job>)
    requires |queues| == 3
    ensures multiset(Pool(queues[0 := queues[0] + arrived])) == multiset(Pool(queues) + arrived)
  {
    var q := queues[0 := queues[0] + arrived];
    assert q[0] == queues[0] + arrived && q[1] == queues[1] && q[2] == queues[2];
  }

  /** Shifting the head off a level takes it out of the pool. */
  lemma PoolShift(queues: seq<seq<Job>>, q: nat)
    requires |queues| == 3 && q < 3 && queues[q] != []
    ensures multiset(Pool(queues)) == multiset([queues[q][0]] + Pool(queues[q := queues[q][1..]]))
  {
    var tail := queues[q := queues[q][1..]];
    assert queues[q] == [queues[q][0]] + queues[q][1..];
    assert forall h :: 0 <= h < 3 && h != q ==> tail[h] == queues[h];
    assert tail[q] == queues[q][1..];
  }

  /** Pushing onto any level appends to the pool, up to order. */
  lemma PoolPush(queues: seq<seq<Job>>, r: nat, ran: Job)
    requires |queues| == 3 && r < 3
    ensures multiset(Pool(queues[r := queues[r] + [ran]])) == multiset(Pool(queues) + [ran])
  {
    var pushed := queues[r := queues[r] + [ran]];
    assert forall h :: 0 <= h < 3 && h != r ==> pushed[h] == queues[h];
    assert pushed[r] == queues[r] + [ran];
  }

  lemma InitInv(processes: seq<Process>)
    requires ValidInput(processes)
    ensures Inv(Init(processes), [])
    ensures multiset(Origins(Init(processes).remainingProcesses)) == multiset(processes)
  {
    var sorted := SortBy(processes, ArrivalTime);
    SortByPermutation(processes, ArrivalTime);
    forall k | 0 <= k < |sorted| ensures sorted[k].burstTime > 0 {
      assert sorted[k] in multiset(processes);
    }
    ClonesUntouched(sorted);
    OriginsOfClones(sorted);
    InitFields(Clones(sorted));
    InvOf(Init(processes), Clones(sorted), 0, [[], [], []], [], 0, []);
  }

  /** Nothing has been admitted, queued or completed at the start. */
  lemma InitFields(jobs: seq<Job>)
    requires Untouched(jobs)
    ensures InvFields(jobs, 0, [[], [], []], [], 0, false, [])
  {
    assert jobs[..0] == [];
    assert Pool([[], [], []]) == [];
    assert Origins([]) == [];
  }

  /** The bookkeeping moves from one arrangement of the queued clones to
      another with the same clones. */
  lemma PermuteInv(jobs: seq<Job>, i: nat, queued: seq<Job>, queues: seq<seq<Job>>,
                   result: seq<Record>, t: int, done: seq<Process>)
    requires 0 <= i <= |jobs| && |queues| == 3 && Untouched(jobs)
    requires Tracks(done, queued, jobs[..i], result, t)
    requires multiset(queued) == multiset(Pool(queues))
    ensures InvFields(jobs, i, queues, result, t, false, done)
  {
    TracksPermute(done, queued, Pool(queues), jobs[..i], result, t);
  }

  lemma AdmitInv(s: MlfqState, done: seq<Process>)
    requires Inv(s, done) && !s.finished
    ensures Inv(Admit(s), done)
  {
    var jobs := s.remainingProcesses;
    var e := AdmitEnd(jobs, JobArrival, s.i, s.currentTime);
    TracksAdmitEnd(done, Pool(s.queues), jobs, s.i, s.result, s.currentTime);
    PoolAdmit(s.queues, jobs[s.i..e]);
    PermuteInv(jobs, e, Pool(s.queues) + jobs[s.i..e], Admit(s).queues, s.result, s.currentTime, done);
  }

  lemma DecideInv(s: MlfqState, done: seq<Process>)
    requires Inv(s, done) && !s.finished && (s.i < |s.remainingProcesses| || AnyQueued(s.queues))
    ensures Inv(Decide(s), done)
  {
    AdmitInv(s, done);
    var a := Admit(s);
    if !AnyQueued(a.queues) {
      var j := Jump(a);
      TracksLater(done, Pool(a.queues), a.remainingProcesses[..a.i], a.result, a.currentTime, j.currentTime);
      AdmitInv(j, done);
    }
  }

  /** When admission leaves every level empty, nothing was queued and
      nothing was admitted. */
  lemma AdmitNone(s: MlfqState)
    requires s.i <= |s.remainingProcesses| && |s.queues| == 3
    requires !AnyQueued(Admit(s).queues)
    ensures !AnyQueued(s.queues) && Admit(s).i == s.i
  {
  }

  /** MLFQ admission: the arrived clones join the back of level 0, in
      arrival order; the lower levels are untouched. */
  lemma MlfqAdmitsToTop(s: MlfqState)
    requires s.i <= |s.remainingProcesses| && |s.queues| == 3
    ensures var a := Admit(s);
      && a.queues[0] == s.queues[0] + s.remainingProcesses[s.i..a.i]
      && a.queues[1] == s.queues[1] && a.queues[2] == s.queues[2]
      && (forall m :: s.i <= m < a.i ==> s.remainingProcesses[m].proc.arrivalTime <= s.currentTime)
  {
  }

  /** MLFQ slicing: once every arrived clone is admitted, the slice is
      positive, at most the head's remaining time, at most the level's
      quantum and at most the time to the next arrival, and equal to one of
      the three. */
  lemma MlfqSlices(d: MlfqState)
    requires Wf(d) && AnyQueued(d.queues)
    requires d.i == |d.remainingProcesses| || d.remainingProcesses[d.i].proc.arrivalTime > d.currentTime
    ensures 0 < Slice(d) <= Head(d).remainingTime
    ensures Quanta[Level(d.queues)].Some? ==> Slice(d) <= Quanta[Level(d.queues)].value
    ensures d.i < |d.remainingProcesses| ==> d.currentTime + Slice(d) <= d.remainingProcesses[d.i].proc.arrivalTime
    ensures || Slice(d) == Head(d).remainingTime
            || (Quanta[Level(d.queues)].Some? && Slice(d) == Quanta[Level(d.queues)].value)
            || (d.i < |d.remainingProcesses| && d.currentTime + Slice(d) == d.remainingProcesses[d.i].proc.arrivalTime)
  {
    var q := Level(d.queues);
    assert Head(d) in multiset(Pool(d.queues)) by {
      PoolShift(d.queues, q);
    }
  }

  /** Run(d) field by field: the levels and the result after the run. */
  lemma RunState(d: MlfqState, e: nat, t: int, queues: seq<seq<Job>>, records: seq<Record>)
    requires d.i <= |d.remainingProcesses| && |d.queues| == 3 && AnyQueued(d.queues)
    requires t == d.currentTime + Slice(d) && e == AdmitEnd(d.remainingProcesses, JobArrival, d.i, t)
    requires var q := Level(d.queues);
      var job := Head(d);
      var ran := job.(remainingTime := job.remainingTime - Slice(d));
      var shifted := d.queues[q := d.queues[q][1..]];
      var admitted := shifted[0 := shifted[0] + d.remainingProcesses[d.i..e]];
      if ran.remainingTime == 0 then
        queues == admitted && records == d.result + [MakeRecord(job.proc, t)]
      else
        queues == admitted[Demote(q) := admitted[Demote(q)] + [ran]] && records == d.result
    ensures Run(d) == (MlfqState(d.remainingProcesses, e, t, queues, records, d.finished), Step(records, Some(t)))
  {
  }

  /** MLFQ order: after a run, the arrivals are at the back of level 0, and
      the head has left its level: with its record when it has no work
      left, otherwise onto the back of its demotion level, after the
      arrivals were admitted. */
  lemma RunShape(d: MlfqState)
    requires d.i <= |d.remainingProcesses| && |d.queues| == 3 && AnyQueued(d.queues)
    ensures var q, job, t := Level(d.queues), Head(d), d.currentTime + Slice(d);
      var e := AdmitEnd(d.remainingProcesses, JobArrival, d.i, t);
      var shifted := d.queues[q := d.queues[q][1..]];
      var admitted := shifted[0 := shifted[0] + d.remainingProcesses[d.i..e]];
      var ran := job.(remainingTime := job.remainingTime - Slice(d));
      && (Slice(d) == job.remainingTime ==>
            Run(d).0 == d.(i := e, currentTime := t, queues := admitted,
                           result := d.result + [MakeRecord(job.proc, t)]))
      && (Slice(d) != job.remainingTime ==>
            Run(d).0 == d.(i := e, currentTime := t, queues := admitted[Demote(q) := admitted[Demote(q)] + [ran]]))
      && Run(d).1 == Step(Run(d).0.result, Some(t))
  {
    var q, job, t := Level(d.queues), Head(d), d.currentTime + Slice(d);
    var e := AdmitEnd(d.remainingProcesses, JobArrival, d.i, t);
    var shifted := d.queues[q := d.queues[q][1..]];
    var admitted := shifted[0 := shifted[0] + d.remainingProcesses[d.i..e]];
    var ran := job.(remainingTime := job.remainingTime - Slice(d));
    if Slice(d) == job.remainingTime {
      RunState(d, e, t, admitted, d.result + [MakeRecord(job.proc, t)]);
    } else {
      RunState(d, e, t, admitted[Demote(q) := admitted[Demote(q)] + [ran]], d.result);
    }
  }

  /** The bookkeeping over the head of level q and the rest of the pool. */
  lemma ShiftInv(jobs: seq<Job>, i: nat, done: seq<Process>, queues: seq<seq<Job>>, q: nat,
                 result: seq<Record>, t: int)
    requires InvFields(jobs, i, queues, result, t, false, done) && q < 3 && queues[q] != []
    ensures Tracks(done, [queues[q][0]] + Pool(queues[q := queues[q][1..]]), jobs[..i], result, t)
  {
    PoolShift(queues, q);
    TracksPermute(done, Pool(queues), [queues[q][0]] + Pool(queues[q := queues[q][1..]]), jobs[..i], result, t);
  }

  /** The invariant after the head of level q finishes and the arrivals
      join level 0, as levels. */
  lemma FinishInv(jobs: seq<Job>, i: nat, done: seq<Process>, queues: seq<seq<Job>>, q: nat,
                  result: seq<Record>, t: int, delta: int, e: nat, levels: seq<seq<Job>>, records: seq<Record>)
    requires InvFields(jobs, i, queues, result, t, false, done) && q < 3 && queues[q] != []
    requires 0 < delta == queues[q][0].remainingTime
    requires e == AdmitEnd(jobs, JobArrival, i, t + delta)
    requires var shifted := queues[q := queues[q][1..]];
      levels == shifted[0 := shifted[0] + jobs[i..e]]
    requires records == result + [MakeRecord(queues[q][0].proc, t + delta)]
    ensures InvFields(jobs, e, levels, records, t + delta, false, done + [queues[q][0].proc])
  {
    var job, shifted := queues[q][0], queues[q := queues[q][1..]];
    ShiftInv(jobs, i, done, queues, q, result, t);
    TracksFinishAdmit(done, job, Pool(shifted), jobs, i, result, t, delta);
    PoolAdmit(shifted, jobs[i..e]);
    PermuteInv(jobs, e, Pool(shifted) + jobs[i..e], levels, records, t + delta, done + [job.proc]);
  }

  /** The invariant after the head of level q runs for less than it needs,
      the arrivals join level 0 and the head joins its demotion level, as
      levels. */
  lemma DemoteInv(jobs: seq<Job>, i: nat, done: seq<Process>, queues: seq<seq<Job>>, q: nat,
                  result: seq<Record>, t: int, delta: int, e: nat, levels: seq<seq<Job>>)
    requires InvFields(jobs, i, queues, result, t, false, done) && q < 3 && queues[q] != []
    requires 0 < delta < queues[q][0].remainingTime
    requires e == AdmitEnd(jobs, JobArrival, i, t + delta)
    requires var job, shifted := queues[q][0], queues[q := queues[q][1..]];
      var admitted := shifted[0 := shifted[0] + jobs[i..e]];
      var ran := job.(remainingTime := job.remainingTime - delta);
      levels == admitted[Demote(q) := admitted[Demote(q)] + [ran]]
    ensures InvFields(jobs, e, levels, result, t + delta, false, done)
  {
    var job, shifted := queues[q][0], queues[q := queues[q][1..]];
    var ran := job.(remainingTime := job.remainingTime - delta);
    ShiftInv(jobs, i, done, queues, q, result, t);
    TracksRequeueAdmit(done, job, Pool(shifted), jobs, i, result, t, delta);
    DemotePool(shifted, jobs[i..e], q, ran, levels);
    PermuteInv(jobs, e, Pool(shifted) + jobs[i..e] + [ran], levels, result, t + delta, done);
  }

  /** The clones queued after a demotion: those left in the levels, the
      arrivals, and the demoted clone. */
  lemma DemotePool(shifted: seq<seq<Job>>, arrived: seq<Job>, q: nat, ran: Job, levels: seq<seq<Job>>)
    requires |shifted| == 3 && q < 3
    requires var admitted := shifted[0 := shifted[0] + arrived];
      levels == admitted[Demote(q) := admitted[Demote(q)] + [ran]]
    ensures |levels| == 3 && multiset(Pool(levels)) == multiset(Pool(shifted) + arrived + [ran])
  {
    var admitted := shifted[0 := shifted[0] + arrived];
    PoolAdmit(shifted, arrived);
    PoolPush(admitted, Demote(q), ran);
  }

  /** The invariant of a state, from the invariant of its fields. */
  lemma InvOf(s: MlfqState, jobs: seq<Job>, i: nat, queues: seq<seq<Job>>, result: seq<Record>,
              t: int, done: seq<Process>)
    requires s == MlfqState(jobs, i, t, queues, result, false)
    requires InvFields(jobs, i, queues, result, t, false, done)
    ensures Inv(s, done)
  {
  }

  lemma RunFinishInv(d: MlfqState, done: seq<Process>)
    requires InvFields(d.remainingProcesses, d.i, d.queues, d.result, d.currentTime, false, done)
    requires !d.finished && AnyQueued(d.queues)
    requires 0 < Slice(d) == Head(d).remainingTime
    ensures Inv(Run(d).0, done + [Head(d).proc])
  {
    var q, t := Level(d.queues), d.currentTime + Slice(d);
    var job := d.queues[q][0];
    var e := AdmitEnd(d.remainingProcesses, JobArrival, d.i, t);
    var shifted := d.queues[q := d.queues[q][1..]];
    var levels, records := shifted[0 := shifted[0] + d.remainingProcesses[d.i..e]], d.result + [MakeRecord(job.proc, t)];
    FinishInv(d.remainingProcesses, d.i, done, d.queues, q, d.result, d.currentTime, Slice(d), e, levels, records);
    RunState(d, e, t, levels, records);
    InvOf(Run(d).0, d.remainingProcesses, e, levels, records, t, done + [job.proc]);
  }

  lemma RunDemoteInv(d: MlfqState, done: seq<Process>)
    requires InvFields(d.remainingProcesses, d.i, d.queues, d.result, d.currentTime, false, done)
    requires !d.finished && AnyQueued(d.queues)
    requires 0 < Slice(d) < Head(d).remainingTime
    ensures Inv(Run(d).0, done)
  {
    var q, t := Level(d.queues), d.currentTime + Slice(d);
    var job := d.queues[q][0];
    var e := AdmitEnd(d.remainingProcesses, JobArrival, d.i, t);
    var shifted := d.queues[q := d.queues[q][1..]];
    var admitted := shifted[0 := shifted[0] + d.remainingProcesses[d.i..e]];
    var ran := job.(remainingTime := job.remainingTime - Slice(d));
    var levels := admitted[Demote(q) := admitted[Demote(q)] + [ran]];
    DemoteInv(d.remainingProcesses, d.i, done, d.queues, q, d.result, d.currentTime, Slice(d), e, levels);
    RunState(d, e, t, levels, d.result);
    InvOf(Run(d).0, d.remainingProcesses, e, levels, d.result, t, done);
  }

  /** Running the head of the chosen level keeps the invariant. */
  lemma RunInv(d: MlfqState, done: seq<Process>)
    requires Inv(d, done) && !d.finished && AnyQueued(d.queues)
    requires d.i == |d.remainingProcesses| || d.remainingProcesses[d.i].proc.arrivalTime > d.currentTime
    ensures Inv(Run(d).0, RunDone(d, done))
  {
    InvWf(d, done);
    MlfqSlices(d);
    if Slice(d) == Head(d).remainingTime {
      RunFinishInv(d, done);
    } else {
      RunDemoteInv(d, done);
    }
  }

  /** One step keeps the invariant. */
  lemma NextInv(s: MlfqState, done: seq<Process>)
    requires Inv(s, done) && !s.finished
    ensures Inv(Next(s).0, NextDone(s, done))
  {
    if s.i < |s.remainingProcesses| || AnyQueued(s.queues) {
      var d := Decide(s);
      assert Next(s) == Run(d) && NextDone(s, done) == RunDone(d, done);
      DecideInv(s, done);
      RunInv(d, done);
    }
  }

  /** One step yields a strictly later time with the result extended by at
      most one record, or ends with the unchanged result and time None. */
  lemma NextSteps(s: MlfqState)
    requires Wf(s) && !s.finished
    ensures var s', step := Next(s).0, Next(s).1;
      && s'.remainingProcesses == s.remainingProcesses
      && step.result == s'.result
      && (s'.finished <==> step.currentTime == None)
      && (s'.finished ==> s'.result == s.result)
      && (!s'.finished ==>
            && step.currentTime == Some(s'.currentTime)
            && s'.currentTime > s.currentTime
            && |s'.result| <= |s.result| + 1
            && s.result <= s'.result)
  {
    if s.i < |s.remainingProcesses| || AnyQueued(s.queues) {
      var d := Decide(s);
      assert Next(s) == Run(d);
      DecideWork(s);
      RunSteps(d);
    }
  }

  /** Running yields the new time, strictly later, with at most one record
      appended to the result. */
  lemma RunSteps(d: MlfqState)
    requires Wf(d) && AnyQueued(d.queues)
    requires d.i == |d.remainingProcesses| || d.remainingProcesses[d.i].proc.arrivalTime > d.currentTime
    ensures var s' := Run(d).0;
      && s'.remainingProcesses == d.remainingProcesses && s'.finished == d.finished
      && Run(d).1 == Step(s'.result, Some(s'.currentTime))
      && s'.currentTime > d.currentTime
      && |s'.result| <= |d.result| + 1 && d.result <= s'.result
  {
    MlfqSlices(d);
    RunShape(d);
  }

  /** Running takes the slice off the outstanding work and keeps every
      clone's remaining time positive. */
  lemma RunWork(d: MlfqState)
    requires Wf(d) && AnyQueued(d.queues)
    requires d.i == |d.remainingProcesses| || d.remainingProcesses[d.i].proc.arrivalTime > d.currentTime
    ensures Wf(Run(d).0) && Work(Run(d).0) == Work(d) - Slice(d) && Slice(d) > 0
  {
    MlfqSlices(d);
    var q, t := Level(d.queues), d.currentTime + Slice(d);
    var job := d.queues[q][0];
    var e := AdmitEnd(d.remainingProcesses, JobArrival, d.i, t);
    var shifted := d.queues[q := d.queues[q][1..]];
    var admitted := shifted[0 := shifted[0] + d.remainingProcesses[d.i..e]];
    var ran := job.(remainingTime := job.remainingTime - Slice(d));
    var levels := if ran.remainingTime == 0 then admitted else admitted[Demote(q) := admitted[Demote(q)] + [ran]];
    var records := if ran.remainingTime == 0 then d.result + [MakeRecord(job.proc, t)] else d.result;
    RunFields(d.remainingProcesses, d.i, d.queues, q, Slice(d), e, levels);
    RunState(d, e, t, levels, records);
  }

  /** Running the head of level q for delta, admitting the clones up to e
      and demoting the head if it has work left takes delta off the
      outstanding work. */
  lemma RunFields(jobs: seq<Job>, i: nat, queues: seq<seq<Job>>, q: nat, delta: int, e: nat, levels: seq<seq<Job>>)
    requires WfFields(jobs, i, queues) && q < 3 && queues[q] != [] && i <= e <= |jobs|
    requires 0 < delta <= queues[q][0].remainingTime
    requires var job, shifted := queues[q][0], queues[q := queues[q][1..]];
      var admitted := shifted[0 := shifted[0] + jobs[i..e]];
      var ran := job.(remainingTime := job.remainingTime - delta);
      levels == if ran.remainingTime == 0 then admitted else admitted[Demote(q) := admitted[Demote(q)] + [ran]]
    ensures WfFields(jobs, e, levels) && Outstanding(jobs, e, levels) == Outstanding(jobs, i, queues) - delta
  {
    var job, shifted := queues[q][0], queues[q := queues[q][1..]];
    var admitted := shifted[0 := shifted[0] + jobs[i..e]];
    var ran := job.(remainingTime := job.remainingTime - delta);
    ShiftFields(jobs, i, queues, q);
    AdmitFields(jobs, i, shifted, e);
    if ran.remainingTime != 0 {
      PushFields(jobs, e, admitted, Demote(q), ran);
    }
  }

  /** Shifting the head off level q takes its remaining time off the work. */
  lemma ShiftFields(jobs: seq<Job>, i: nat, queues: seq<seq<Job>>, q: nat)
    requires WfFields(jobs, i, queues) && q < 3 && queues[q] != []
    ensures var shifted := queues[q := queues[q][1..]];
      && WfFields(jobs, i, shifted)
      && Outstanding(jobs, i, shifted) == Outstanding(jobs, i, queues) - queues[q][0].remainingTime
  {
    var head, shifted := queues[q][0], queues[q := queues[q][1..]];
    PoolShift(queues, q);
    var pool := [head] + Pool(shifted);
    TotalRemainingPermutation(Pool(queues), pool);
    TotalRemainingAppend([head], Pool(shifted));
    assert SumOf([head], RemainingTime) == RemainingTime(head) + SumOf([head][1..], RemainingTime);
    assert [head][1..] == [];
    forall k | 0 <= k < |Pool(shifted)| ensures Pool(shifted)[k].remainingTime > 0 {
      assert Pool(shifted)[k] == pool[k + 1];
      assert pool[k + 1] in multiset(Pool(queues));
    }
  }

  /** Admitting the clones from i up to e keeps the outstanding work. */
  lemma AdmitFields(jobs: seq<Job>, i: nat, queues: seq<seq<Job>>, e: nat)
    requires WfFields(jobs, i, queues) && i <= e <= |jobs|
    ensures var admitted := queues[0 := queues[0] + jobs[i..e]];
      WfFields(jobs, e, admitted) && Outstanding(jobs, e, admitted) == Outstanding(jobs, i, queues)
  {
    var arrived := jobs[i..e];
    var admitted := queues[0 := queues[0] + arrived];
    var pool := Pool(queues) + arrived;
    assert jobs[i..] == arrived + jobs[e..];
    PoolAdmit(queues, arrived);
    TotalRemainingPermutation(Pool(admitted), pool);
    TotalRemainingAppend(Pool(queues), arrived);
    TotalRemainingAppend(arrived, jobs[e..]);
    forall k | 0 <= k < |Pool(admitted)| ensures Pool(admitted)[k].remainingTime > 0 {
      assert Pool(admitted)[k] in multiset(pool);
      var m :| 0 <= m < |pool| && pool[m] == Pool(admitted)[k];
      if m < |Pool(queues)| {
        assert pool[m] == Pool(queues)[m];
      } else {
        assert pool[m] == jobs[i + (m - |Pool(queues)|)];
      }
    }
  }

  /** Pushing a clone with work left onto level r adds its remaining time to
      the work. */
  lemma PushFields(jobs: seq<Job>, i: nat, queues: seq<seq<Job>>, r: nat, ran: Job)
    requires WfFields(jobs, i, queues) && r < 3 && ran.remainingTime > 0
    ensures var pushed := queues[r := queues[r] + [ran]];
      WfFields(jobs, i, pushed) && Outstanding(jobs, i, pushed) == Outstanding(jobs, i, queues) + ran.remainingTime
  {
    var pushed := queues[r := queues[r] + [ran]];
    PoolPush(queues, r, ran);
    var pool := Pool(queues) + [ran];
    TotalRemainingPermutation(Pool(pushed), pool);
    TotalRemainingAppend(Pool(queues), [ran]);
    assert SumOf([ran], RemainingTime) == RemainingTime(ran) + SumOf([ran][1..], RemainingTime);
    assert [ran][1..] == [];
    forall k | 0 <= k < |Pool(pushed)| ensures Pool(pushed)[k].remainingTime > 0 {
      assert Pool(pushed)[k] in multiset(pool);
      var m :| 0 <= m < |pool| && pool[m] == Pool(pushed)[k];
      if m < |Pool(queues)| {
        assert pool[m] == Pool(queues)[m];
      }
    }
  }

  /** The outstanding work bounds the number of steps left. */
  lemma NextWork(s: MlfqState)
    requires Wf(s) && !s.finished
    ensures Wf(Next(s).0) && Work(s) >= 0
    ensures Next(s).0.finished || Work(Next(s).0) < Work(s)
    ensures Work(Next(s).0) <= Work(s)
    ensures Next(s).0.finished <==> Next(s).1.currentTime.None?
  {
    TotalRemainingBound(Pool(s.queues));
    TotalRemainingBound(s.remainingProcesses[s.i..]);
    if s.i < |s.remainingProcesses| || AnyQueued(s.queues) {
      var d := Decide(s);
      assert Next(s) == Run(d);
      DecideWork(s);
      RunWork(d);
      RunShape(d);
    }
  }

  lemma DecideWork(s: MlfqState)
    requires Wf(s) && !s.finished && (s.i < |s.remainingProcesses| || AnyQueued(s.queues))
    ensures Wf(Decide(s)) && Work(Decide(s)) == Work(s)
  {
    AdmitWork(s);
    var a := Admit(s);
    if !AnyQueued(a.queues) {
      AdmitWork(Jump(a));
    }
  }

  lemma AdmitWork(s: MlfqState)
    requires Wf(s)
    ensures Wf(Admit(s)) && Work(Admit(s)) == Work(s)
  {
    AdmitFields(s.remainingProcesses, s.i, s.queues, AdmitEnd(s.remainingProcesses, JobArrival, s.i, s.currentTime));
  }

  /** All remaining steps from state s. */
  function Trace(s: MlfqState): seq<Step>
    requires Wf(s)
    decreases Work(s), if s.finished then 0 else 1
  {
    if s.finished then []
    else
      NextWork(s);
      var (s', step) := Next(s);
      [step] + Trace(s')
  }

  /** The state in which the generator ends. */
  ghost function Final(s: MlfqState): MlfqState
    requires Wf(s)
    decreases Work(s), if s.finished then 0 else 1
  {
    if s.finished then s
    else
      NextWork(s);
      Final(Next(s).0)
  }

  /** The processes completed by the end of the run, in completion order. */
  ghost function FinalDone(s: MlfqState, done: seq<Process>): seq<Process>
    requires Wf(s)
    decreases Work(s), if s.finished then 0 else 1
  {
    if s.finished then done
    else
      NextWork(s);
      FinalDone(Next(s).0, NextDone(s, done))
  }

  lemma InitWf(processes: seq<Process>)
    requires ValidInput(processes)
    ensures Wf(Init(processes))
  {
    InitInv(processes);
  }

  /** Every step `mlfq(processes)` yields, in order. */
  function Schedule(processes: seq<Process>): seq<Step>
    requires ValidInput(processes)
  {
    InitWf(processes);
    Trace(Init(processes))
  }

  /** The processes of `mlfq(processes)` in the order they complete. */
  ghost function Completed(processes: seq<Process>): seq<Process>
    requires ValidInput(processes)
  {
    InitWf(processes);
    FinalDone(Init(processes), [])
  }

  /** Trace, Final and FinalDone take one step at a time. */
  lemma TraceCons(s: MlfqState)
    requires Wf(s) && !s.finished
    ensures Wf(Next(s).0)
    ensures Trace(s) == [Next(s).1] + Trace(Next(s).0)
  {
    NextWork(s);
  }

  lemma FinalCons(s: MlfqState, done: seq<Process>)
    requires Wf(s) && !s.finished
    ensures Wf(Next(s).0)
    ensures Final(s) == Final(Next(s).0)
    ensures FinalDone(s, done) == FinalDone(Next(s).0, NextDone(s, done))
  {
    NextWork(s);
  }

  /** Every step of the rest of the run moves time forward and extends the
      result by at most one record, and the last step carries the final result. */
  lemma {:induction false} TraceSteps(s: MlfqState)
    requires Wf(s) && !s.finished
    ensures Progresses(Trace(s), s.result, s.currentTime, false)
    ensures Last(Trace(s)).result == Final(s).result
    decreases Work(s)
  {
    NextSteps(s);
    NextWork(s);
    TraceCons(s);
    FinalCons(s, []);
    var s', step := Next(s).0, Next(s).1;
    if s'.finished {
      assert Trace(s) == [step];
    } else {
      TraceSteps(s');
      ProgressesCons(step, Trace(s'), s.result, s.currentTime, false);
    }
  }

  /** The invariant holds when the generator ends. */
  lemma {:induction false} TraceInv(s: MlfqState, done: seq<Process>)
    requires Inv(s, done) && !s.finished
    ensures Inv(Final(s), FinalDone(s, done)) && Final(s).finished
    ensures Final(s).remainingProcesses == s.remainingProcesses
    decreases Work(s)
  {
    InvWf(s, done);
    NextInv(s, done);
    NextSteps(s);
    NextWork(s);
    FinalCons(s, done);
    var s' := Next(s).0;
    if !s'.finished {
      TraceInv(s', NextDone(s, done));
    }
  }

  /** The whole run: every step carries a strictly later time and extends the
      result by at most one record, and the last step carries time None. */
  lemma MlfqSteps(processes: seq<Process>)
    requires ValidInput(processes)
    ensures Progresses(Schedule(processes), [], 0, false)
  {
    InitWf(processes);
    TraceSteps(Init(processes));
  }

  /** When the generator ends, the completed processes are the input's and
      their records are correct. */
  lemma FinalComplete(f: MlfqState, done: seq<Process>, processes: seq<Process>)
    requires Inv(f, done) && f.finished
    requires multiset(Origins(f.remainingProcesses)) == multiset(processes)
    ensures multiset(done) == multiset(processes) && Accounts(f.result, done)
    ensures Complete(f.result, processes)
  {
    assert f.remainingProcesses[..f.i] == f.remainingProcesses;
    TracksComplete(done, f.remainingProcesses, f.result, f.currentTime, processes);
  }

  /** The final result has one correct record per process (waiting time from
      the original burst, never negative), in completion order. */
  lemma MlfqCorrect(processes: seq<Process>)
    requires ValidInput(processes)
    ensures multiset(Completed(processes)) == multiset(processes)
    ensures Accounts(Last(Schedule(processes)).result, Completed(processes))
    ensures Complete(Last(Schedule(processes)).result, processes)
  {
    InitInv(processes);
    var s := Init(processes);
    TraceSteps(s);
    TraceInv(s, []);
    FinalComplete(Final(s), FinalDone(s, []), processes);
  }

  /** Updating one of the three levels, written out. */
  lemma SetLevel(queues: seq<seq<Job>>, h: nat, level: seq<Job>)
    requires |queues| == 3 && h < 3
    ensures queues[h := level] == if h == 0 then [level, queues[1], queues[2]]
                                  else if h == 1 then [queues[0], level, queues[2]]
                                  else [queues[0], queues[1], level]
  {
  }

  /** The clone of the one process of the burst-10 example, with rem left. */
  function LongJob(rem: int): Job { Job(Process(1, 0, 10), rem) }

  /** First step of the burst-10 example: the clone is admitted to level 0,
      runs its quantum of 4 and is demoted to level 1 with 6 left. */
  lemma LongFirst(s: MlfqState)
    requires s == MlfqState([LongJob(10)], 0, 0, [[], [], []], [], false)
    ensures Next(s) == (MlfqState([LongJob(10)], 1, 4, [[], [LongJob(6)], []], [], false), Step([], Some(4)))
  {
    var jobs := [LongJob(10)];
    assert AdmitEnd(jobs, JobArrival, 0, 0) == 1;
    assert AdmitEnd(jobs, JobArrival, 1, 4) == 1;
    assert jobs[0..1] == jobs && jobs[1..1] == [];
    assert s.queues[0] + jobs[0..1] == jobs;
    SetLevel(s.queues, 0, jobs);
    var d := s.(i := 1, queues := [jobs, [], []]);
    assert Admit(s) == d;
    assert Level(d.queues) == 0 && Head(d) == LongJob(10) && Slice(d) == 4;
    assert d.queues[0][1..] == [];
    SetLevel(d.queues, 0, []);
    var shifted := [[], [], []];
    assert shifted[0] + jobs[1..1] == [];
    SetLevel(shifted, 0, []);
    SetLevel(shifted, 1, [LongJob(6)]);
    assert shifted[1] + [LongJob(6)] == [LongJob(6)];
    RunState(d, 1, 4, [[], [LongJob(6)], []], []);
  }

  /** Second step: level 1 runs the clone for its last 6 units; it
      completes at 10, having waited 0. */
  lemma LongSecond(s: MlfqState)
    requires s == MlfqState([LongJob(10)], 1, 4, [[], [LongJob(6)], []], [], false)
    ensures Next(s) == (MlfqState([LongJob(10)], 1, 10, [[], [], []], [Record(1, 10, 10, 0)], false),
                        Step([Record(1, 10, 10, 0)], Some(10)))
  {
    var jobs := [LongJob(10)];
    assert AdmitEnd(jobs, JobArrival, 1, 4) == 1;
    assert AdmitEnd(jobs, JobArrival, 1, 10) == 1;
    assert jobs[1..1] == [];
    assert s.queues[0] + jobs[1..1] == [];
    SetLevel(s.queues, 0, []);
    assert Admit(s) == s;
    assert Level(s.queues) == 1 && Head(s) == LongJob(6) && Slice(s) == 6;
    assert s.queues[1][1..] == [];
    SetLevel(s.queues, 1, []);
    var shifted := [[], [], []];
    assert shifted[0] + jobs[1..1] == [];
    SetLevel(shifted, 0, []);
    assert s.result + [MakeRecord(LongJob(6).proc, 10)] == [Record(1, 10, 10, 0)];
    RunState(s, 1, 10, [[], [], []], [Record(1, 10, 10, 0)]);
  }

  /** Once every clone is admitted and every level is empty, the generator
      ends with the result unchanged. */
  lemma Ends(s: MlfqState)
    requires s.i == |s.remainingProcesses| && s.queues == [[], [], []] && !s.finished
    ensures Next(s) == (s.(finished := true), Step(s.result, None))
  {
  }

  /** The last step of the burst-10 example. */
  lemma LongEnd(s2: MlfqState)
    requires s2 == MlfqState([LongJob(10)], 1, 10, [[], [], []], [Record(1, 10, 10, 0)], false) && Wf(s2)
    ensures Trace(s2) == [Step([Record(1, 10, 10, 0)], None)]
  {
    Ends(s2);
    TraceCons(s2);
  }

  /** The steps of the burst-10 example after the first. */
  lemma LongTail(s1: MlfqState)
    requires s1 == MlfqState([LongJob(10)], 1, 4, [[], [LongJob(6)], []], [], false) && Wf(s1)
    ensures Trace(s1) == [Step([Record(1, 10, 10, 0)], Some(10)), Step([Record(1, 10, 10, 0)], None)]
  {
    LongSecond(s1);
    TraceCons(s1);
    LongEnd(Next(s1).0);
  }

  /** The three steps of the burst-10 example, as the steps Trace takes. */
  lemma LongTrace(s0: MlfqState)
    requires s0 == MlfqState([LongJob(10)], 0, 0, [[], [], []], [], false) && Wf(s0)
    ensures Trace(s0) == [Step([], Some(4)), Step([Record(1, 10, 10, 0)], Some(10)), Step([Record(1, 10, 10, 0)], None)]
  {
    LongFirst(s0);
    TraceCons(s0);
    LongTail(Next(s0).0);
  }

  /** A single process with burst 10 runs 4 units at level 0 and its last 6
      at level 1, and completes at 10. */
  lemma MlfqExample(ps: seq<Process>)
    requires ps == [Process(1, 0, 10)]
    ensures ValidInput(ps)
    ensures Schedule(ps) == [Step([], Some(4)), Step([Record(1, 10, 10, 0)], Some(10)), Step([Record(1, 10, 10, 0)], None)]
  {
    assert SortBy(ps, ArrivalTime) == ps;
    assert Clones(ps) == [LongJob(10)];
    InitWf(ps);
    LongTrace(Init(ps));
  }

  /** An arrival cuts the first slice of process 1 to 2 units, and process
      1 is still demoted to level 1, while process 2 waits at level 0. */
  lemma MlfqDemotesCutShort(ps: seq<Process>)
    requires ps == [Process(1, 0, 10), Process(2, 2, 3)]
    ensures ValidInput(ps)
    ensures Next(Init(ps)).0.queues == [[Job(Process(2, 2, 3), 3)], [Job(Process(1, 0, 10), 8)], []]
    ensures Next(Init(ps)).0.currentTime == 2
  {
    SortTwo(ps[0], ps[1], ArrivalTime);
    var jobs := [Job(Process(1, 0, 10), 10), Job(Process(2, 2, 3), 3)];
    assert Clones(ps) == jobs;
    CutShortFirst(Init(ps), jobs);
  }

  lemma CutShortFirst(s: MlfqState, jobs: seq<Job>)
    requires jobs == [Job(Process(1, 0, 10), 10), Job(Process(2, 2, 3), 3)]
    requires s == MlfqState(jobs, 0, 0, [[], [], []], [], false)
    ensures Next(s).0 == MlfqState(jobs, 2, 2, [[jobs[1]], [Job(Process(1, 0, 10), 8)], []], [], false)
  {
    assert AdmitEnd(jobs, JobArrival, 0, 0) == 1;
    assert AdmitEnd(jobs, JobArrival, 1, 2) == 2;
    assert jobs[0..1] == [jobs[0]] && jobs[1..2] == [jobs[1]];
    assert s.queues[0] + jobs[0..1] == [jobs[0]];
    SetLevel(s.queues, 0, [jobs[0]]);
    var d := s.(i := 1, queues := [[jobs[0]], [], []]);
    assert Admit(s) == d;
    assert Level(d.queues) == 0 && Head(d) == jobs[0] && Slice(d) == 2;
    assert d.queues[0][1..] == [];
    SetLevel(d.queues, 0, []);
    var shifted := [[], [], []];
    assert shifted[0] + jobs[1..2] == [jobs[1]];
    SetLevel(shifted, 0, [jobs[1]]);
    var admitted := [[jobs[1]], [], []];
    assert admitted[1] + [Job(Process(1, 0, 10), 8)] == [Job(Process(1, 0, 10), 8)];
    SetLevel(admitted, 1, [Job(Process(1, 0, 10), 8)]);
    RunState(d, 2, 2, [[jobs[1]], [Job(Process(1, 0, 10), 8)], []], []);
  }

  /** The generator as an object: the clones, the position of the next
      clone to admit, the time, the three levels and the records so far. */
  class MlfqScheduler {
    const remainingProcesses: seq<Job>
    var i: nat
    var currentTime: int
    var queues: seq<seq<Job>>
    var result: seq<Record>
    var finished: bool

    ghost function State(): MlfqState
      reads this
    {
      MlfqState(remainingProcesses, i, currentTime, queues, result, finished)
    }

    ghost predicate Valid()
      reads this
    {
      Wf(State())
    }

    constructor (processes: seq<Process>)
      requires ValidInput(processes)
      ensures Valid() && State() == Init(processes)
    {
      remainingProcesses := Clones(SortBy(processes, ArrivalTime));
      i, currentTime, queues, result, finished := 0, 0, [[], [], []], [], false;
      new;
      InitWf(processes);
    }

    /** The admission loop from clone j on at time t: the clones that have
        arrived by t are pushed onto the back of level, in order; returns
        where the loop stopped and the new level. */
    method AdmitFrom(j: nat, t: int, level: seq<Job>) returns (e: nat, level': seq<Job>)
      requires j <= |remainingProcesses|
      ensures e == AdmitEnd(remainingProcesses, JobArrival, j, t)
      ensures level' == level + remainingProcesses[j..e]
    {
      e, level' := j, level;
      while e < |remainingProcesses| && remainingProcesses[e].proc.arrivalTime <= t
        invariant j <= e <= |remainingProcesses|
        invariant level' == level + remainingProcesses[j..e]
        invariant forall m :: j <= m < e ==> remainingProcesses[m].proc.arrivalTime <= t
      {
        assert remainingProcesses[j..e + 1] == remainingProcesses[j..e] + [remainingProcesses[e]];
        level' := level' + [remainingProcesses[e]];
        e := e + 1;
      }
      AdmitEndAt(remainingProcesses, JobArrival, j, e, t);
    }

    /** Admits every clone that has arrived by currentTime to level 0. */
    method AdmitArrived()
      requires Valid()
      modifies this
      ensures State() == Admit(old(State())) && Valid()
    {
      AdmitWork(State());
      var top;
      i, top := AdmitFrom(i, currentTime, queues[0]);
      queues := queues[0 := top];
    }

    /** Shifts the head off level q, the first level holding a clone, runs
        it for its slice, admits the arrivals to level 0, then records it or
        pushes it onto the next lower level. */
    method RunLevel(q: nat) returns (step: Step)
      requires Valid() && q < 3 && queues[q] != []
      requires forall h :: 0 <= h < q ==> queues[h] == []
      requires i == |remainingProcesses| || remainingProcesses[i].proc.arrivalTime > currentTime
      modifies this
      ensures State() == Run(old(State())).0 && step == Run(old(State())).1 && Valid()
    {
      ghost var d := State();
      assert AnyQueued(d.queues) && Level(d.queues) == q;
      var process := queues[q][0];
      var nextArrivalTime := if i < |remainingProcesses| then Some(remainingProcesses[i].proc.arrivalTime) else None;
      var executionTime := MinInf(MinInf(process.remainingTime, Quanta[q]), MinusInf(nextArrivalTime, currentTime));
      assert process == Head(d) && executionTime == Slice(d);
      process := process.(remainingTime := process.remainingTime - executionTime);
      var t := currentTime + executionTime;
      var levels := queues[q := queues[q][1..]];
      var e, top := AdmitFrom(i, t, levels[0]);
      levels := levels[0 := top];
      var records := result;
      if process.remainingTime == 0 {
        var completionTime := t;
        var turnaroundTime := completionTime - process.proc.arrivalTime;
        var waitingTime := turnaroundTime - process.proc.burstTime;
        records := records + [Record(process.proc.pid, completionTime, turnaroundTime, waitingTime)];
      } else if q < 2 {
        levels := levels[q + 1 := levels[q + 1] + [process]];
      } else {
        levels := levels[q := levels[q] + [process]];
      }
      RunState(d, e, t, levels, records);
      RunWork(d);
      i, currentTime, queues, result := e, t, levels, records;
      step := Step(result, Some(currentTime));
    }

    /** The `for` loop over the levels: runs the head of the first level
        that holds a clone and returns the step it yields, or None when
        every level is empty (`foundProcess` stays false). */
    method ServeLevels() returns (served: Option<Step>)
      requires Valid()
      requires i == |remainingProcesses| || remainingProcesses[i].proc.arrivalTime > currentTime
      modifies this
      ensures served.Some? <==> AnyQueued(old(State()).queues)
      ensures served.Some? ==> State() == Run(old(State())).0 && served.value == Run(old(State())).1
      ensures served.None? ==> State() == old(State())
      ensures Valid()
    {
      for q := 0 to 3
        invariant State() == old(State()) && Valid()
        invariant forall h :: 0 <= h < q ==> queues[h] == []
      {
        if |queues[q]| > 0 {
          var step := RunLevel(q);
          return Some(step);
        }
      }
      return None;
    }

    /** Resumes the generator up to its next yield. */
    method NextStep() returns (step: Step)
      requires Valid() && !finished
      modifies this
      ensures State() == Next(old(State())).0 && step == Next(old(State())).1
      ensures Valid()
    {
      ghost var before := State();
      ghost var jumped := false;
      while i < |remainingProcesses| || |queues[0]| > 0 || |queues[1]| > 0 || |queues[2]| > 0
        invariant Wf(before) && !before.finished
        invariant Valid() && remainingProcesses == before.remainingProcesses
        invariant !jumped ==> State() == before
        invariant jumped ==> && !AnyQueued(Admit(before).queues)
                             && Admit(before).i < |remainingProcesses|
                             && State() == Jump(Admit(before))
        decreases if jumped then 0 else 1
      {
        ghost var waiting := State();
        AdmitArrived();
        ghost var admitted := State();
        var served := ServeLevels();
        if served.Some? {
          assert admitted == Decide(before) && Next(before) == Run(admitted);
          return served.value;
        }
        AdmitNone(waiting);
        currentTime := remainingProcesses[i].proc.arrivalTime;
        jumped := true;
      }
      finished := true;
      step := Step(result, None);
    }
  }

  /** Pulls steps from the generator in state s until the one with time
      None: the steps pulled are Trace(s). */
  method DrainFrom(scheduler: MlfqScheduler, ghost s: MlfqState) returns (steps: seq<Step>)
    requires scheduler.Valid() && scheduler.State() == s && !s.finished
    modifies scheduler
    ensures steps == Trace(s)
    decreases Work(s)
  {
    NextWork(s);
    TraceCons(s);
    var step := scheduler.NextStep();
    if step.currentTime.None? {
      steps := [step];
    } else {
      var rest := DrainFrom(scheduler, scheduler.State());
      steps := [step] + rest;
    }
  }

  /** Pulls every step from a fresh generator: the steps are exactly
      Schedule(processes). */
  method Drain(processes: seq<Process>) returns (steps: seq<Step>)
    requires ValidInput(processes)
    ensures steps == Schedule(processes)
  {
    var scheduler := new MlfqScheduler(processes);
    steps := DrainFrom(scheduler, scheduler.State());
  }
}
