/** The values the five schedulers share: the caller's processes, the
    preemptive schedulers' clones of them, the completion records, the steps
    a scheduler yields, admission of arrived processes, and the properties a
    run's records and steps have. */
module Processes {
  import opened Seqs

  /** `Infinity` in the source (no further arrival, unlimited quantum) is None. */
  datatype Option<T> = None | Some(value: T)

  /** An input process `{pid, arrivalTime, burstTime}`. */
  datatype Process = Process(pid: int, arrivalTime: int, burstTime: int)

  /** The clone `{...p, remainingTime, originalBurstTime}` that STCF, RR and MLFQ
      run; originalBurstTime is proc.burstTime, which the clone keeps unchanged. */
  datatype Job = Job(proc: Process, remainingTime: int)

  /** A result entry `{pid, completionTime, turnaroundTime, waitingTime}`. */
  datatype Record = Record(pid: int, completionTime: int, turnaroundTime: int, waitingTime: int)

  /** A yielded `{result, currentTime}`; currentTime None is the final `null`. */
  datatype Step = Step(result: seq<Record>, currentTime: Option<int>)

  function ArrivalTime(p: Process): int { p.arrivalTime }
  function BurstTime(p: Process): int { p.burstTime }
  function JobArrival(j: Job): int { j.proc.arrivalTime }
  function RemainingTime(j: Job): int { j.remainingTime }
  function JobProcess(j: Job): Process { j.proc }

  /** What the processes handed to a scheduler satisfy: every burst is
      positive (the generator draws bursts from 1 to 15). */
  ghost predicate ValidInput(processes: seq<Process>) {
    forall k :: 0 <= k < |processes| ==> processes[k].burstTime > 0
  }

  function Clone(p: Process): Job { Job(p, p.burstTime) }

  /** `sortedProcesses.map(p => ({...p, remainingTime: p.burstTime, ...}))` */
  function Clones(ps: seq<Process>): seq<Job> { MapSeq(ps, Clone) }

  /** The processes a sequence of clones stands for. */
  function Origins(js: seq<Job>): seq<Process> {
    seq(|js|, k requires 0 <= k < |js| => js[k].proc)
  }

  lemma OriginsIsMap(js: seq<Job>)
    ensures Origins(js) == MapSeq(js, JobProcess)
  {
  }

  lemma OriginsOfClones(ps: seq<Process>)
    ensures Origins(Clones(ps)) == ps
  {
    OriginsIsMap(Clones(ps));
    assert MapSeq(Clones(ps), JobProcess) == ps;
  }

  lemma OriginsAppend(a: seq<Job>, b: seq<Job>)
    ensures Origins(a + b) == Origins(a) + Origins(b)
  {
    OriginsIsMap(a);
    OriginsIsMap(b);
    OriginsIsMap(a + b);
    MapSeqAppend(a, b, JobProcess);
  }

  lemma OriginsPermutation(a: seq<Job>, b: seq<Job>)
    requires multiset(a) == multiset(b)
    ensures multiset(Origins(a)) == multiset(Origins(b))
  {
    OriginsIsMap(a);
    OriginsIsMap(b);
    MapSeqPermutation(a, b, JobProcess);
  }

  /** The record pushed when process p completes at completionTime:
      turnaround = completion - arrival, waiting = turnaround - burst, where
      burst is the original burst time. */
  function MakeRecord(p: Process, completionTime: int): Record {
    var turnaroundTime := completionTime - p.arrivalTime;
    Record(p.pid, completionTime, turnaroundTime, turnaroundTime - p.burstTime)
  }

  /** Record r is a correct completion record of process p. */
  ghost predicate Completes(r: Record, p: Process) {
    && r.pid == p.pid
    && r.turnaroundTime == r.completionTime - p.arrivalTime
    && r.waitingTime == r.turnaroundTime - p.burstTime
    && r.waitingTime >= 0
  }

  /** A record made for p is correct exactly when p could have run for its
      whole burst between its arrival and the completion time. */
  lemma MakeRecordCompletes(p: Process, completionTime: int)
    ensures Completes(MakeRecord(p, completionTime), p)
        <==> completionTime - p.arrivalTime >= p.burstTime
  {
  }

  /** result[k] is the completion record of done[k], for every k. */
  ghost predicate Accounts(result: seq<Record>, done: seq<Process>) {
    |result| == |done| && forall k :: 0 <= k < |result| ==> Completes(result[k], done[k])
  }

  /** Records are listed in the order the processes completed. */
  ghost predicate InCompletionOrder(result: seq<Record>) {
    forall k, m :: 0 <= k < m < |result| ==> result[k].completionTime <= result[m].completionTime
  }

  ghost predicate CompletedBy(result: seq<Record>, t: int) {
    forall k :: 0 <= k < |result| ==> result[k].completionTime <= t
  }

  /** The records so far are correct for done and were all produced by time t. */
  ghost predicate Sound(result: seq<Record>, done: seq<Process>, t: int) {
    Accounts(result, done) && InCompletionOrder(result) && CompletedBy(result, t)
  }

  lemma SoundLater(result: seq<Record>, done: seq<Process>, t: int, t': int)
    requires Sound(result, done, t) && t <= t'
    ensures Sound(result, done, t')
  {
  }

  /** Completing p at time c >= t after it ran for its whole burst keeps the
      records sound. */
  lemma SoundAppend(result: seq<Record>, done: seq<Process>, t: int, p: Process, c: int)
    requires Sound(result, done, t) && t <= c && c - p.arrivalTime >= p.burstTime
    ensures Sound(result + [MakeRecord(p, c)], done + [p], c)
  {
  }

  /** The end of the source's admission loop
      `while (i < n && s[i].arrivalTime <= currentTime) { ...; i++; }`:
      every process from i up to the result has arrived by currentTime, and
      the one at the result, if any, has not. */
  function AdmitEnd<T>(s: seq<T>, arrival: T -> int, i: nat, currentTime: int): (e: nat)
    requires i <= |s|
    ensures i <= e <= |s|
    ensures forall m :: i <= m < e ==> arrival(s[m]) <= currentTime
    ensures e == |s| || arrival(s[e]) > currentTime
    decreases |s| - i
  {
    if i < |s| && arrival(s[i]) <= currentTime then AdmitEnd(s, arrival, i + 1, currentTime) else i
  }

  /** Where the admission loop stops: at the first position from i on whose
      process has not arrived by currentTime. */
  lemma {:induction false} AdmitEndAt<T>(s: seq<T>, arrival: T -> int, i: nat, e: nat, currentTime: int)
    requires i <= e <= |s|
    requires forall m :: i <= m < e ==> arrival(s[m]) <= currentTime
    requires e == |s| || arrival(s[e]) > currentTime
    ensures AdmitEnd(s, arrival, i, currentTime) == e
    decreases e - i
  {
    if i < e {
      AdmitEndAt(s, arrival, i + 1, e, currentTime);
    }
  }

  /** `Math.min(x, y)` where y may be `Infinity` (None). */
  function MinInf(x: int, y: Option<int>): int {
    match y
    case None => x
    case Some(v) => if v < x then v else x
  }

  /** `y - t` where y may be `Infinity` (None), which stays `Infinity`. */
  function MinusInf(y: Option<int>, t: int): Option<int> {
    match y
    case None => None
    case Some(v) => Some(v - t)
  }

  /** A clone that has not run yet: remainingTime is its (positive) burst. */
  ghost predicate Untouched(js: seq<Job>) {
    forall k :: 0 <= k < |js| ==> js[k].remainingTime == js[k].proc.burstTime > 0
  }

  lemma ClonesUntouched(ps: seq<Process>)
    requires ValidInput(ps)
    ensures Untouched(Clones(ps))
  {
  }

  /** A queued clone at time currentTime: it still has work left, and it has
      run burstTime - remainingTime time units since it arrived, so at least
      that much time has passed since its arrival. */
  ghost predicate Waiting(j: Job, currentTime: int) {
    && 0 < j.remainingTime <= j.proc.burstTime
    && j.proc.arrivalTime + (j.proc.burstTime - j.remainingTime) <= currentTime
  }

  ghost predicate AllWaiting(q: seq<Job>, currentTime: int) {
    forall k :: 0 <= k < |q| ==> Waiting(q[k], currentTime)
  }

  /** Running a waiting clone for delta time units, 0 < delta <= its
      remaining time, leaves it waiting at the later time, or finished after
      at least its burst since its arrival. */
  lemma RunWaiting(j: Job, currentTime: int, delta: int)
    requires Waiting(j, currentTime) && 0 < delta <= j.remainingTime
    ensures var ran := j.(remainingTime := j.remainingTime - delta);
      && (ran.remainingTime > 0 ==> Waiting(ran, currentTime + delta))
      && (ran.remainingTime == 0 ==> currentTime + delta - j.proc.arrivalTime >= j.proc.burstTime)
  {
  }

  /** The work the clones still need: the sum of their remaining times. */
  function TotalRemaining(js: seq<Job>): int {
    SumOf(js, RemainingTime)
  }

  lemma {:induction false} TotalRemainingBound(js: seq<Job>)
    requires forall k :: 0 <= k < |js| ==> js[k].remainingTime > 0
    ensures TotalRemaining(js) >= |js|
    decreases |js|
  {
    if js != [] {
      TotalRemainingBound(js[1..]);
    }
  }

  lemma TotalRemainingAppend(a: seq<Job>, b: seq<Job>)
    ensures TotalRemaining(a + b) == TotalRemaining(a) + TotalRemaining(b)
  {
    SumOfAppend(a, b, RemainingTime);
  }

  lemma TotalRemainingPermutation(a: seq<Job>, b: seq<Job>)
    requires multiset(a) == multiset(b)
    ensures TotalRemaining(a) == TotalRemaining(b)
  {
    SumOfPermutation(a, b, RemainingTime);
  }

  /** The bookkeeping of the preemptive schedulers: done (the processes
      completed so far, in completion order) together with the processes of
      the queued clones are the processes of the admitted clones; every
      queued clone is waiting; the records are sound at currentTime. */
  ghost predicate Tracks(done: seq<Process>, queued: seq<Job>, admitted: seq<Job>,
                         result: seq<Record>, currentTime: int)
  {
    Queued(done, queued, admitted, currentTime) && Sound(result, done, currentTime)
  }

  /** The part of the bookkeeping about the queue: done together with the
      processes of the queued clones are those of the admitted clones, and
      every queued clone is waiting. */
  ghost predicate Queued(done: seq<Process>, queued: seq<Job>, admitted: seq<Job>, currentTime: int) {
    && AllWaiting(queued, currentTime)
    && multiset(done) + multiset(Origins(queued)) == multiset(Origins(admitted))
  }

  /** Admitting untouched clones that have arrived keeps the bookkeeping. */
  lemma TracksAdmit(done: seq<Process>, queued: seq<Job>, admitted: seq<Job>,
                    result: seq<Record>, currentTime: int, arrived: seq<Job>)
    requires Tracks(done, queued, admitted, result, currentTime)
    requires Untouched(arrived)
    requires forall k :: 0 <= k < |arrived| ==> arrived[k].proc.arrivalTime <= currentTime
    ensures Tracks(done, queued + arrived, admitted + arrived, result, currentTime)
  {
    OriginsAppend(queued, arrived);
    OriginsAppend(admitted, arrived);
  }

  lemma TracksLater(done: seq<Process>, queued: seq<Job>, admitted: seq<Job>,
                    result: seq<Record>, currentTime: int, later: int)
    requires Tracks(done, queued, admitted, result, currentTime) && currentTime <= later
    ensures Tracks(done, queued, admitted, result, later)
  {
    SoundLater(result, done, currentTime, later);
  }

  /** The admission loop over the clones keeps the bookkeeping: the clones
      from i up to where the loop stops join the queue and the admitted ones. */
  lemma TracksAdmitEnd(done: seq<Process>, queued: seq<Job>, jobs: seq<Job>, i: nat,
                       result: seq<Record>, currentTime: int)
    requires i <= |jobs| && Untouched(jobs)
    requires Tracks(done, queued, jobs[..i], result, currentTime)
    ensures var e := AdmitEnd(jobs, JobArrival, i, currentTime);
      Tracks(done, queued + jobs[i..e], jobs[..e], result, currentTime)
  {
    QueuedAdmitEnd(done, queued, jobs, i, currentTime);
  }

  lemma QueuedAdmitEnd(done: seq<Process>, queued: seq<Job>, jobs: seq<Job>, i: nat, currentTime: int)
    requires i <= |jobs| && Untouched(jobs)
    requires Queued(done, queued, jobs[..i], currentTime)
    ensures var e := AdmitEnd(jobs, JobArrival, i, currentTime);
      Queued(done, queued + jobs[i..e], jobs[..e], currentTime)
  {
    var e := AdmitEnd(jobs, JobArrival, i, currentTime);
    var arrived := jobs[i..e];
    assert jobs[..e] == jobs[..i] + arrived;
    forall k | 0 <= k < |arrived|
      ensures Waiting(arrived[k], currentTime)
    {
      assert arrived[k] == jobs[i + k];
    }
    OriginsAppend(queued, arrived);
    OriginsAppend(jobs[..i], arrived);
  }

  /** The bookkeeping does not depend on the order of the queued clones. */
  lemma TracksPermute(done: seq<Process>, queued: seq<Job>, queued': seq<Job>, admitted: seq<Job>,
                      result: seq<Record>, currentTime: int)
    requires Tracks(done, queued, admitted, result, currentTime)
    requires multiset(queued) == multiset(queued')
    ensures Tracks(done, queued', admitted, result, currentTime)
  {
    OriginsPermutation(queued, queued');
    forall k | 0 <= k < |queued'| ensures Waiting(queued'[k], currentTime) {
      assert queued'[k] in multiset(queued);
    }
  }

  /** Moving the head of the queue behind the clones admitted after it keeps
      the bookkeeping. */
  lemma TracksPushBack(done: seq<Process>, job: Job, rest: seq<Job>, arrived: seq<Job>,
                       admitted: seq<Job>, result: seq<Record>, currentTime: int)
    requires Tracks(done, [job] + rest + arrived, admitted, result, currentTime)
    ensures Tracks(done, rest + arrived + [job], admitted, result, currentTime)
  {
    assert multiset([job] + rest + arrived) == multiset(rest + arrived + [job]);
    TracksPermute(done, [job] + rest + arrived, rest + arrived + [job], admitted, result, currentTime);
  }

  /** Running the head clone to completion and admitting the clones that
      arrived meanwhile keeps the bookkeeping. */
  lemma TracksFinishAdmit(done: seq<Process>, job: Job, rest: seq<Job>, jobs: seq<Job>, i: nat,
                          result: seq<Record>, currentTime: int, delta: int)
    requires i <= |jobs| && Untouched(jobs)
    requires Tracks(done, [job] + rest, jobs[..i], result, currentTime)
    requires 0 < delta == job.remainingTime
    ensures var t := currentTime + delta;
      var e := AdmitEnd(jobs, JobArrival, i, t);
      Tracks(done + [job.proc], rest + jobs[i..e], jobs[..e], result + [MakeRecord(job.proc, t)], t)
  {
    var t := currentTime + delta;
    TracksFinish(done, job, rest, jobs[..i], result, currentTime, delta);
    QueuedAdmitEnd(done + [job.proc], rest, jobs, i, t);
  }

  /** Running the head clone for less than it needs, admitting the clones
      that arrived meanwhile and pushing the head back keeps the bookkeeping. */
  lemma TracksRequeueAdmit(done: seq<Process>, job: Job, rest: seq<Job>, jobs: seq<Job>, i: nat,
                           result: seq<Record>, currentTime: int, delta: int)
    requires i <= |jobs| && Untouched(jobs)
    requires Tracks(done, [job] + rest, jobs[..i], result, currentTime)
    requires 0 < delta < job.remainingTime
    ensures var t := currentTime + delta;
      var e := AdmitEnd(jobs, JobArrival, i, t);
      Tracks(done, rest + jobs[i..e] + [job.(remainingTime := job.remainingTime - delta)], jobs[..e], result, t)
  {
    var ran, t := job.(remainingTime := job.remainingTime - delta), currentTime + delta;
    var e := AdmitEnd(jobs, JobArrival, i, t);
    TracksRequeue(done, job, rest, jobs[..i], result, currentTime, delta);
    TracksAdmitEnd(done, [ran] + rest, jobs, i, result, t);
    TracksPushBack(done, ran, rest, jobs[i..e], jobs[..e], result, t);
  }

  lemma TracksHead(job: Job, rest: seq<Job>, currentTime: int, t: int)
    requires AllWaiting([job] + rest, currentTime) && currentTime <= t
    ensures Waiting(job, currentTime) && AllWaiting(rest, t)
  {
    assert ([job] + rest)[0] == job;
    forall k | 0 <= k < |rest| ensures Waiting(rest[k], t) {
      assert rest[k] == ([job] + rest)[k + 1];
    }
  }

  lemma TracksFinish(done: seq<Process>, job: Job, rest: seq<Job>, admitted: seq<Job>,
                     result: seq<Record>, currentTime: int, delta: int)
    requires Tracks(done, [job] + rest, admitted, result, currentTime)
    requires 0 < delta == job.remainingTime
    ensures var t := currentTime + delta;
      Tracks(done + [job.proc], rest, admitted, result + [MakeRecord(job.proc, t)], t)
  {
    QueuedFinish(done, job, rest, admitted, currentTime, delta);
    SoundAppend(result, done, currentTime, job.proc, currentTime + delta);
  }

  /** Running the head clone to completion takes it off the queue and puts
      its process among the done ones; it had waited for its whole burst. */
  lemma QueuedFinish(done: seq<Process>, job: Job, rest: seq<Job>, admitted: seq<Job>,
                     currentTime: int, delta: int)
    requires Queued(done, [job] + rest, admitted, currentTime)
    requires 0 < delta == job.remainingTime
    ensures Queued(done + [job.proc], rest, admitted, currentTime + delta)
    ensures currentTime + delta - job.proc.arrivalTime >= job.proc.burstTime
  {
    var t := currentTime + delta;
    TracksHead(job, rest, currentTime, t);
    RunWaiting(job, currentTime, delta);
    OriginsCons(job, rest);
    assert multiset(done + [job.proc]) == multiset(done) + multiset{job.proc};
  }

  lemma TracksRequeue(done: seq<Process>, job: Job, rest: seq<Job>, admitted: seq<Job>,
                      result: seq<Record>, currentTime: int, delta: int)
    requires Tracks(done, [job] + rest, admitted, result, currentTime)
    requires 0 < delta < job.remainingTime
    ensures var ran, t := job.(remainingTime := job.remainingTime - delta), currentTime + delta;
      Tracks(done, [ran] + rest, admitted, result, t)
  {
    var ran, t := job.(remainingTime := job.remainingTime - delta), currentTime + delta;
    TracksHead(job, rest, currentTime, t);
    RunWaiting(job, currentTime, delta);
    OriginsCons(job, rest);
    OriginsCons(ran, rest);
    SoundLater(result, done, currentTime, t);
    assert AllWaiting([ran] + rest, t) by {
      forall k | 0 <= k < |[ran] + rest| ensures Waiting(([ran] + rest)[k], t) {
        if k > 0 {
          assert ([ran] + rest)[k] == rest[k - 1];
        }
      }
    }
  }

  lemma OriginsCons(job: Job, rest: seq<Job>)
    ensures Origins([job] + rest) == [job.proc] + Origins(rest)
  {
    OriginsAppend([job], rest);
  }

  /** Once nothing is queued, the completed processes are the admitted ones. */
  lemma TracksDone(done: seq<Process>, admitted: seq<Job>, result: seq<Record>, currentTime: int)
    requires Tracks(done, [], admitted, result, currentTime)
    ensures multiset(done) == multiset(Origins(admitted)) && Accounts(result, done)
  {
    assert Origins([]) == [];
  }

  /** Once nothing is queued and every clone of the input is admitted, the
      records are complete for the input. */
  lemma TracksComplete(done: seq<Process>, admitted: seq<Job>, result: seq<Record>, currentTime: int,
                       processes: seq<Process>)
    requires Tracks(done, [], admitted, result, currentTime)
    requires multiset(Origins(admitted)) == multiset(processes)
    ensures multiset(done) == multiset(processes) && Accounts(result, done)
    ensures Complete(result, processes)
  {
    TracksDone(done, admitted, result, currentTime);
  }

  /** A step sequence, from previous result prev and time t, that a scheduler
      yields: every step but the last carries a strictly later time and
      extends the result by at most one record (exactly one when exact); the
      last step repeats the result with time None. */
  ghost predicate Progresses(steps: seq<Step>, prev: seq<Record>, t: int, exact: bool)
    decreases |steps|
  {
    && |steps| > 0
    && if |steps| == 1 then steps[0] == Step(prev, None)
       else
         && steps[0].currentTime.Some?
         && steps[0].currentTime.value > t
         && prev <= steps[0].result
         && |steps[0].result| <= |prev| + 1
         && (exact ==> |steps[0].result| == |prev| + 1)
         && Progresses(steps[1..], steps[0].result, steps[0].currentTime.value, exact)
  }

  /** Progress is built step by step: a step that moves time forward and
      extends the result by at most one record, followed by a run that
      progresses from it. */
  lemma ProgressesCons(step: Step, rest: seq<Step>, prev: seq<Record>, t: int, exact: bool)
    requires step.currentTime.Some? && step.currentTime.value > t
    requires prev <= step.result && |step.result| <= |prev| + 1
    requires exact ==> |step.result| == |prev| + 1
    requires Progresses(rest, step.result, step.currentTime.value, exact)
    ensures Progresses([step] + rest, prev, t, exact)
    ensures Last([step] + rest) == Last(rest)
  {
    assert ([step] + rest)[1..] == rest;
  }

  function Max(a: int, b: int): int { if a > b then a else b }

  /** `Math.min(a, b)` */
  function Min(a: int, b: int): (m: int)
    ensures m <= a && m <= b && (m == a || m == b)
  {
    if a < b then a else b
  }

  function Last<T>(s: seq<T>): T
    requires |s| > 0
  {
    s[|s| - 1]
  }

  /** The final result of a run: one correct record per input process
      (done is a permutation of the input), listed in completion order. */
  ghost predicate Complete(result: seq<Record>, processes: seq<Process>) {
    && (exists done: seq<Process> :: multiset(done) == multiset(processes) && Accounts(result, done))
    && InCompletionOrder(result)
  }

  /** Every input process gets exactly one record: the record pids are the
      input pids, counted with multiplicity. */
  lemma CompletePids(result: seq<Record>, processes: seq<Process>)
    requires Complete(result, processes)
    ensures |result| == |processes|
    ensures multiset(MapSeq(result, RecordPid)) == multiset(MapSeq(processes, ProcessPid))
  {
    var done: seq<Process> :| multiset(done) == multiset(processes) && Accounts(result, done);
    assert |done| == |multiset(done)| == |multiset(processes)| == |processes|;
    assert MapSeq(result, RecordPid) == MapSeq(done, ProcessPid);
    MapSeqPermutation(done, processes, ProcessPid);
  }

  function RecordPid(r: Record): int { r.pid }
  function ProcessPid(p: Process): int { p.pid }
}
