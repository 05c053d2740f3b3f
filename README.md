# CPU scheduling simulators

This project models the scheduling engine of a CPU-scheduling visualiser. The
engine is the file `utils/schedulingAlgorithms.js`. It holds five generators,
each a discrete-time simulation of one policy over a fixed set of processes
`{pid, arrivalTime, burstTime}`:

- `fifo` runs each process to completion in arrival order;
- `sjf` is non-preemptive shortest burst first;
- `stcf` is preemptive shortest remaining time first, with each slice cut at the next arrival;
- `rr` is round robin with a caller-supplied quantum;
- `mlfq` is a three-level feedback queue with quanta 4, 8 and unlimited.

Each generator yields `{result, currentTime}` after every slice it runs, and
finally `{result, currentTime: null}`. The engine also has one aggregate,
`calculateAverageWaitingTime`.

Every generator is modelled twice, in its own module:

- **As a state machine on values.** A datatype holds the generator's local
  variables between two yields. `Next` is one resumption. `Trace` and
  `Schedule` give every step the generator yields. The properties are
  proved about these: the invariant, progress, complete records, the
  discipline and the worked examples.
- **As a class.** Its fields are the same variables, and its `NextStep`
  method changes them in place with the source's `while` loops (admission,
  the idle jump, the MLFQ `for` loop over the levels). Each `NextStep` is
  proved to leave the object in state `Next(old state)` and to return the
  step `Next` yields. `Drain` allocates a generator and pulls steps until the
  one with time `null`. It is proved to return exactly `Schedule`.

Modules:

- `Seqs` (seqs.dfy) holds sums and maps over sequences.
- `StableSort` (stable_sort.dfy) models `Array.prototype.sort`. The sort is
  stable, so it is modelled as a stable insertion sort.
- `Processes` (processes.dfy) holds what the schedulers share: processes,
  their clones with a `remainingTime`, records, steps, admission, and the
  record bookkeeping.
- `Fifo`, `Sjf`, `Stcf`, `Rr` and `Mlfq` hold the five schedulers.
- `Average` holds the aggregate.

`Infinity` is the source's way of saying "no further arrival" and "no
quantum". It becomes `Option<int>` with `None` for `Infinity`. `null` time
is `None` as well.
The MLFQ levels' quanta 4, 8 and `Infinity` (`utils/schedulingAlgorithms.js:219-223`)
are the constant `Mlfq.Quanta` = `[Some(4), Some(8), None]`, indexed by level.

Two behaviours of the code are worth spelling out:

- **STCF worked example.** For `{1,0,8}` and `{2,1,4}`, process 1 runs from 0 to 1 and is preempted.
  Process 2 runs from 1 to 5, and process 1 runs again from 5 to 12, so process 1 completes at 12
  (`Stcf.StcfExample`).
- **MLFQ demotion.** `mlfq` demotes every unfinished process, including one whose slice an arrival
  cut short (`utils/schedulingAlgorithms.js:250-251` and `:274-279`). For `{1,0,10}`, `{2,2,3}`,
  process 1 runs 2 units at level 0 and is then at level 1 with 8 left (`Mlfq.MlfqDemotesCutShort`).

## Model

| member | source | states |
|---|---|---|
| StableSort.SortBy | utils/schedulingAlgorithms.js:9 | the model of `Array.prototype.sort` with a key comparator: a stable insertion sort; its properties are the lemmas below |
| StableSort.InsertBy | utils/schedulingAlgorithms.js:9 | inserts one element just before the first element whose key is strictly larger |
| StableSort.SortByPermutation | utils/schedulingAlgorithms.js:9 | the sort used for `[...processes].sort(...)` returns a permutation of its input |
| StableSort.SortBySorted | utils/schedulingAlgorithms.js:9 | the sorted sequence is ordered by the key (arrival time, burst, remaining time) |
| StableSort.SortByStable | utils/schedulingAlgorithms.js:9 | the sort is stable: elements with equal keys keep their relative order |
| StableSort.SortByHead | utils/schedulingAlgorithms.js:57-59 | the head after sorting is the first element with the least key, which is what `sort` then `shift`/`[0]` picks |
| StableSort.FirstMinIndex | utils/schedulingAlgorithms.js:57-59 | the index it returns holds a least key, and every earlier element has a strictly larger key |
| StableSort.InsertByPermutation | utils/schedulingAlgorithms.js:9 | one insertion step adds exactly the inserted element |
| StableSort.InsertBySorted | utils/schedulingAlgorithms.js:9 | one insertion step keeps the sequence ordered |
| StableSort.InsertByWithKey | utils/schedulingAlgorithms.js:9 | one insertion step puts the new element after every earlier element with its key |
| StableSort.SortTwo | utils/schedulingAlgorithms.js:9 | two elements are swapped exactly when the second has the smaller key |
| Seqs.SumOfPermutation | utils/schedulingAlgorithms.js:302 | a sum over records does not depend on their order |
| Seqs.MapSeqPermutation | utils/schedulingAlgorithms.js:93-97 | mapping (as in cloning the processes) preserves "is a permutation of" |
| Processes.Clones | utils/schedulingAlgorithms.js:93-97 | the clones `{...p, remainingTime: p.burstTime}` of the sorted processes |
| Processes.MakeRecord | utils/schedulingAlgorithms.js:18-20 | the record `{pid, completionTime, turnaroundTime, waitingTime}` of a process completing at a time (`Processes.MakeRecordCompletes`) |
| Processes.MinInf | utils/schedulingAlgorithms.js:115-117 | `Math.min` of a number and a value that may be `Infinity` |
| Processes.MinusInf | utils/schedulingAlgorithms.js:117 | `nextArrivalTime - currentTime` where `Infinity` stays `Infinity` |
| Processes.OriginsOfClones | utils/schedulingAlgorithms.js:93-97 | cloning keeps each process and adds `remainingTime` = burst, so the clones' processes are the sorted processes |
| Processes.ClonesUntouched | utils/schedulingAlgorithms.js:93-97 | a fresh clone's remaining time is its positive original burst |
| Processes.MakeRecordCompletes | utils/schedulingAlgorithms.js:18-20 | the pushed record (turnaround = completion − arrival, waiting = turnaround − burst) is correct, with waiting ≥ 0, exactly when the process had its whole burst between arrival and completion |
| Processes.AdmitEnd | utils/schedulingAlgorithms.js:50-53 | the admission loop stops at the first process from i on that has not arrived by `currentTime`, and every process it passes has arrived |
| Processes.AdmitEndAt | utils/schedulingAlgorithms.js:50-53 | any position with those two properties is where the admission loop stops |
| Processes.Min | utils/schedulingAlgorithms.js:176 | `Math.min` of two numbers is one of them and at most both |
| Processes.SoundAppend | utils/schedulingAlgorithms.js:60-71 | appending the completion record of a process that ran its whole burst keeps the records correct and in completion order |
| Processes.RunWaiting | utils/schedulingAlgorithms.js:120-123 | running a clone for 0 < delta ≤ remaining either leaves it with work and consistent elapsed time, or finishes it after at least its burst since arrival |
| Processes.TracksAdmit | utils/schedulingAlgorithms.js:102-105 | admitting arrived, untouched clones keeps the bookkeeping: done plus queued are the admitted |
| Processes.TracksAdmitEnd | utils/schedulingAlgorithms.js:166-169 | the admission loop over clones keeps the bookkeeping |
| Processes.TracksPermute | utils/schedulingAlgorithms.js:109 | re-sorting the ready queue keeps the bookkeeping |
| Processes.TracksPushBack | utils/schedulingAlgorithms.js:199-201 | moving the head to the back of the queue keeps the bookkeeping |
| Processes.TracksFinishAdmit | utils/schedulingAlgorithms.js:178-197 | completing the head, admitting the arrivals and pushing its record keeps the bookkeeping |
| Processes.TracksRequeueAdmit | utils/schedulingAlgorithms.js:178-201 | running the head short, admitting the arrivals and then pushing it back keeps the bookkeeping |
| Processes.TracksComplete | utils/schedulingAlgorithms.js:143-145 | with nothing queued and every process admitted, the result has one correct record per input process |
| Processes.CompletePids | utils/schedulingAlgorithms.js:22-27 | a complete result has exactly one record per input process: the record pids are the input pids, with multiplicity |
| Processes.ProgressesCons | utils/schedulingAlgorithms.js:31-34 | a yielded step that moves time forward and adds at most one record, followed by a progressing run, progresses |
| Fifo.FifoScheduleAppend | utils/schedulingAlgorithms.js:12-29 | one loop iteration extends the FIFO schedule: the record completes at max(previous completion, arrival) + burst |
| Fifo.FifoScheduleSound | utils/schedulingAlgorithms.js:18-27 | a FIFO schedule of positive bursts has correct records in completion order, the last being the latest |
| Fifo.Init | utils/schedulingAlgorithms.js:5-9 | the generator prologue: empty result, time 0, and the processes in stable arrival order |
| Fifo.InitInv | utils/schedulingAlgorithms.js:5-9 | the start state satisfies the invariant, and its sorted processes are a permutation of the input |
| Fifo.Next | utils/schedulingAlgorithms.js:12-34 | one resumption of the `for` loop: jump to the arrival if idle, run the process to completion and yield, or yield the final `null` step; `Fifo.NextProperties` states its properties |
| Fifo.NextProperties | utils/schedulingAlgorithms.js:12-34 | one resumption keeps the invariant and yields exactly one more record at a strictly later time, or ends with the same result and time null |
| Fifo.Trace | utils/schedulingAlgorithms.js:12-34 | every step the generator yields from a state on, the final `null` step included |
| Fifo.Schedule | utils/schedulingAlgorithms.js:4-35 | every step `fifo(processes)` yields, in order (the subject of `Fifo.FifoCorrect`, `Fifo.FifoTiming` and `Fifo.Drain`) |
| Fifo.TraceProperties | utils/schedulingAlgorithms.js:31-34 | every remaining step adds exactly one record at a later time, and the last step carries the final result with time null |
| Fifo.FifoCorrect | utils/schedulingAlgorithms.js:4-35 | the whole run progresses one record per step, and the final result has one correct record per process in completion order |
| Fifo.FifoTiming | utils/schedulingAlgorithms.js:9-29 | the final result lists the processes in stable arrival order, each completing at max(previous completion, arrival) + burst |
| Fifo.FifoScheduleOne | utils/schedulingAlgorithms.js:14-18 | a one-process schedule completes at max(arrival, 0) + burst |
| Fifo.FifoScheduleTwo | utils/schedulingAlgorithms.js:14-29 | in a two-process schedule the second completes at max(its arrival, first completion) + its burst |
| Fifo.FifoExample | utils/schedulingAlgorithms.js:4-35 | for {1,0,5}, {2,1,3} the records are (1, 5, 5, 0) and (2, 8, 7, 4) |
| Fifo.FifoScheduler.constructor | utils/schedulingAlgorithms.js:5-9 | the new generator is in the start state |
| Fifo.FifoScheduler.NextStep | utils/schedulingAlgorithms.js:12-34 | one resumption updates the fields to Next of the old state and returns its step |
| Fifo.DrainFrom | utils/schedulingAlgorithms.js:31-34 | pulling until time null from a state returns exactly the trace from that state |
| Fifo.Drain | utils/schedulingAlgorithms.js:4-35 | pulling every step from a fresh generator returns exactly the schedule |
| Sjf.Admit | utils/schedulingAlgorithms.js:50-53 | admission appends exactly the processes from `i` up to the first one that has not arrived by `currentTime` to the ready queue, in arrival order; time and records are unchanged |
| Sjf.Decide | utils/schedulingAlgorithms.js:48-77 | after admission and any idle jump there is a ready process, and the next process has not arrived |
| Sjf.Jump | utils/schedulingAlgorithms.js:74-77 | the idle jump: time moves to the arrival of the next process |
| Sjf.Chosen | utils/schedulingAlgorithms.js:57-59 | the process `sort` by burst then `shift` takes (`StableSort.SortByHead`: the first queued with the least burst) |
| Sjf.Run | utils/schedulingAlgorithms.js:55-73 | one non-preemptive run: remove the chosen process, run it to completion, append its record and yield; `Sjf.RunInv` and `Sjf.SjfSelects` state its properties |
| Sjf.Next | utils/schedulingAlgorithms.js:48-80 | one resumption of the generator: admit, jump if idle, run, or yield the final `null` step; `Sjf.NextProperties` states its properties |
| Sjf.Init | utils/schedulingAlgorithms.js:39-45 | the generator prologue: empty result and ready queue, time 0, `i = 0`, and the processes in stable arrival order |
| Sjf.InitInv | utils/schedulingAlgorithms.js:39-45 | the start state satisfies the invariant and the tie order, with the sorted processes a permutation of the input |
| Sjf.AdmitInv | utils/schedulingAlgorithms.js:50-53 | admission keeps the invariant |
| Sjf.AdmitTies | utils/schedulingAlgorithms.js:50-53 | admission keeps the tie order |
| Sjf.DecideInv | utils/schedulingAlgorithms.js:48-77 | admission and the idle jump keep the invariant and do not move time back |
| Sjf.DecideTies | utils/schedulingAlgorithms.js:48-77 | admission and the idle jump keep the tie order |
| Sjf.SjfSelects | utils/schedulingAlgorithms.js:55-71 | the process run has the least burst in the ready queue and is the first such; it completes at start + burst with no preemption, and it leaves the queue |
| Sjf.RunInv | utils/schedulingAlgorithms.js:55-73 | running the chosen process keeps the invariant and moves time forward |
| Sjf.CompleteInv | utils/schedulingAlgorithms.js:59-71 | completing any queued process at start + burst keeps the invariant |
| Sjf.RunTies | utils/schedulingAlgorithms.js:57-59 | the process run is the first queued one with its burst, so the tie order is kept |
| Sjf.NextProperties | utils/schedulingAlgorithms.js:48-80 | one resumption keeps the invariant and yields exactly one more record at a strictly later time, or ends with the same result and time null |
| Sjf.NextTies | utils/schedulingAlgorithms.js:48-80 | one resumption keeps the tie order |
| Sjf.NextPending | utils/schedulingAlgorithms.js:48-80 | every step but the last lowers the count of queued plus unadmitted processes |
| Sjf.Trace | utils/schedulingAlgorithms.js:48-80 | every step the generator yields from a state on, the final `null` step included |
| Sjf.Schedule | utils/schedulingAlgorithms.js:38-81 | every step `sjf(processes)` yields, in order (the subject of `Sjf.SjfCorrect`, `Sjf.SjfTieOrder` and `Sjf.Drain`) |
| Sjf.TraceSteps | utils/schedulingAlgorithms.js:73-80 | every remaining step adds exactly one record at a later time, and the last carries the final result |
| Sjf.TraceInv | utils/schedulingAlgorithms.js:48-80 | the invariant holds in the final state |
| Sjf.TraceTies | utils/schedulingAlgorithms.js:48-80 | the tie order holds in the final state |
| Sjf.SjfCorrect | utils/schedulingAlgorithms.js:38-81 | the whole run progresses one record per step, and the final result has one correct record per process in completion order |
| Sjf.SjfTieOrder | utils/schedulingAlgorithms.js:43-59 | among processes with equal bursts, completion order is the stable arrival order |
| Sjf.SjfScheduler.constructor | utils/schedulingAlgorithms.js:39-45 | the new generator is in the start state |
| Sjf.SjfScheduler.AdmitArrived | utils/schedulingAlgorithms.js:50-53 | the admission loop moves the fields to Admit of the old state |
| Sjf.SjfScheduler.RunChosen | utils/schedulingAlgorithms.js:55-73 | sort, shift and run move the fields to Run of the old state and return its step |
| Sjf.SjfScheduler.NextStep | utils/schedulingAlgorithms.js:48-80 | one resumption updates the fields to Next of the old state and returns its step |
| Sjf.DrainFrom | utils/schedulingAlgorithms.js:73-80 | pulling until time null from a state returns exactly the trace from that state |
| Sjf.Drain | utils/schedulingAlgorithms.js:38-81 | pulling every step from a fresh generator returns exactly the schedule |
| Stcf.Admit | utils/schedulingAlgorithms.js:102-105 | admission appends exactly the clones from `i` up to the first one that has not arrived by `currentTime` to the ready queue, in arrival order; time and records are unchanged |
| Stcf.Decide | utils/schedulingAlgorithms.js:100-142 | after admission and any idle jump a clone is ready, the next clone has not arrived, and time has not moved back |
| Stcf.Jump | utils/schedulingAlgorithms.js:139-142 | the idle jump: time moves to the arrival of the next clone |
| Stcf.Chosen | utils/schedulingAlgorithms.js:109-111 | the clone at the head after sorting by remaining time (`Stcf.StcfSelects`) |
| Stcf.NextArrival | utils/schedulingAlgorithms.js:115 | `nextArrivalTime`: the arrival of the first clone not yet admitted, or `Infinity` (None) when all are admitted |
| Stcf.Slice | utils/schedulingAlgorithms.js:115-117 | `min(remainingTime, nextArrivalTime - currentTime)` with `Infinity` as `None` (`Stcf.StcfSlices`) |
| Stcf.Run | utils/schedulingAlgorithms.js:107-138 | one preemptive run: run the chosen clone for the slice, then record and drop it or put it back at the head; `Stcf.RunShape` and `Stcf.RunInv` state its properties |
| Stcf.Next | utils/schedulingAlgorithms.js:100-145 | one resumption of the generator; `Stcf.NextInv`, `Stcf.NextSteps` and `Stcf.NextWork` state its properties |
| Stcf.Init | utils/schedulingAlgorithms.js:85-97 | the generator prologue: empty result and ready queue, time 0, `i = 0`, and the clones of the processes in stable arrival order |
| Stcf.InitInv | utils/schedulingAlgorithms.js:85-97 | the start state satisfies the invariant, and the clones stand for a permutation of the input |
| Stcf.AdmitInv | utils/schedulingAlgorithms.js:102-105 | admission keeps the invariant |
| Stcf.DecideInv | utils/schedulingAlgorithms.js:100-142 | admission and the idle jump keep the invariant |
| Stcf.SortedQueue | utils/schedulingAlgorithms.js:109-111 | the sorted ready queue is the chosen clone followed by a permutation of the others |
| Stcf.StcfSelects | utils/schedulingAlgorithms.js:109-111 | the clone run has the least remaining time in the ready queue and is the first such |
| Stcf.StcfSlices | utils/schedulingAlgorithms.js:115-117 | the slice is positive, at most the remaining time, ends no later than the next arrival, and equals one of the two |
| Stcf.RunShape | utils/schedulingAlgorithms.js:120-138 | a clone leaves the queue with its record exactly when its remaining time reaches 0; otherwise it stays at the head with the slice taken off |
| Stcf.PermuteInv | utils/schedulingAlgorithms.js:109 | reordering the ready queue keeps the invariant |
| Stcf.FinishStep | utils/schedulingAlgorithms.js:123-135 | completing the head at t + remaining, with its record, keeps the invariant |
| Stcf.RequeueStep | utils/schedulingAlgorithms.js:120-121 | running the head for less than it needs keeps the invariant |
| Stcf.RunInv | utils/schedulingAlgorithms.js:107-138 | running the chosen clone keeps the invariant and moves time forward |
| Stcf.NextInv | utils/schedulingAlgorithms.js:100-145 | one resumption keeps the invariant |
| Stcf.NextSteps | utils/schedulingAlgorithms.js:100-145 | one resumption adds at most one record at a strictly later time, or ends with the same result and time null |
| Stcf.RunSteps | utils/schedulingAlgorithms.js:120-138 | running yields the new time, strictly later, with at most one record appended |
| Stcf.RunWork | utils/schedulingAlgorithms.js:120-121 | running takes the slice off the outstanding work, and the slice is positive |
| Stcf.NextWork | utils/schedulingAlgorithms.js:100-145 | every step but the last lowers the outstanding work, and the last is the one with time null |
| Stcf.Trace | utils/schedulingAlgorithms.js:100-145 | every step the generator yields from a state on, the final `null` step included; it ends because each step lowers the outstanding work |
| Stcf.Schedule | utils/schedulingAlgorithms.js:84-146 | every step `stcf(processes)` yields, in order, for positive bursts (the subject of `Stcf.StcfCorrect`, `Stcf.StcfExample` and `Stcf.Drain`) |
| Stcf.TraceSteps | utils/schedulingAlgorithms.js:138-145 | every remaining step adds at most one record at a later time, and the last carries the final result |
| Stcf.TraceInv | utils/schedulingAlgorithms.js:100-145 | the invariant holds in the final state |
| Stcf.StcfSteps | utils/schedulingAlgorithms.js:138-145 | the whole run's steps move time forward, add at most one record each, and end with time null |
| Stcf.FinalComplete | utils/schedulingAlgorithms.js:143-145 | when the generator ends, the completed processes are the input's and their records are correct |
| Stcf.StcfCorrect | utils/schedulingAlgorithms.js:84-146 | the final result has one correct record per process, with waiting from the original burst, in completion order |
| Stcf.ExampleFirst | utils/schedulingAlgorithms.js:115-121 | at 0 process 1 runs until process 2 arrives at 1 |
| Stcf.FirstDecision | utils/schedulingAlgorithms.js:100-105 | at time 0 of the worked example admission queues process 1 only |
| Stcf.FirstRun | utils/schedulingAlgorithms.js:115-138 | process 1 runs for one unit, up to process 2's arrival, and stays queued with 7 left |
| Stcf.ExampleSecond | utils/schedulingAlgorithms.js:109-135 | at 1 process 2 (4 left) preempts process 1 (7 left) and completes at 5 |
| Stcf.ExampleThird | utils/schedulingAlgorithms.js:115-135 | process 1 then runs alone from 5 to 12 |
| Stcf.StcfExample | utils/schedulingAlgorithms.js:84-146 | for {1,0,8}, {2,1,4} the first step is at 1, and the records are (2, 5, 4, 0) then (1, 12, 12, 4) |
| Stcf.StcfScheduler.constructor | utils/schedulingAlgorithms.js:85-97 | the new generator is in the start state |
| Stcf.StcfScheduler.AdmitArrived | utils/schedulingAlgorithms.js:102-105 | the admission loop moves the fields to Admit of the old state |
| Stcf.StcfScheduler.RunChosen | utils/schedulingAlgorithms.js:107-138 | sort, slice and run move the fields to Run of the old state and return its step |
| Stcf.StcfScheduler.NextStep | utils/schedulingAlgorithms.js:100-145 | one resumption updates the fields to Next of the old state and returns its step |
| Stcf.DrainFrom | utils/schedulingAlgorithms.js:138-145 | pulling until time null from a state returns exactly the trace from that state |
| Stcf.Drain | utils/schedulingAlgorithms.js:84-146 | pulling every step from a fresh generator returns exactly the schedule |
| Rr.Admit | utils/schedulingAlgorithms.js:166-169 | admission appends exactly the clones from `i` up to the first one that has not arrived by `currentTime` to the ready queue, in arrival order; time and records are unchanged |
| Rr.Decide | utils/schedulingAlgorithms.js:164-207 | after admission and any idle jump a clone is ready, and time has not moved back |
| Rr.Jump | utils/schedulingAlgorithms.js:204-207 | the idle jump: time moves to the arrival of the next clone |
| Rr.Slice | utils/schedulingAlgorithms.js:176 | `min(remainingTime, timeQuantum)` of the head (`Rr.RrSlices`) |
| Rr.Run | utils/schedulingAlgorithms.js:172-203 | one round-robin run: shift the head, run it for the slice, admit arrivals, then record it or push it to the back; `Rr.RunShape` and `Rr.RunInv` state its properties |
| Rr.Next | utils/schedulingAlgorithms.js:164-210 | one resumption of the generator; `Rr.NextInv`, `Rr.NextSteps` and `Rr.NextWork` state its properties |
| Rr.Init | utils/schedulingAlgorithms.js:150-162 | the generator prologue: empty result and ready queue, time 0, `i = 0`, the quantum, and the clones of the processes in stable arrival order |
| Rr.InitInv | utils/schedulingAlgorithms.js:150-162 | the start state satisfies the invariant, and the clones stand for a permutation of the input |
| Rr.AdmitInv | utils/schedulingAlgorithms.js:166-169 | admission keeps the invariant |
| Rr.DecideInv | utils/schedulingAlgorithms.js:164-207 | admission and the idle jump keep the invariant |
| Rr.RrSlices | utils/schedulingAlgorithms.js:176 | the slice is positive, at most the quantum and at most the remaining time, and equals one of the two |
| Rr.RunShape | utils/schedulingAlgorithms.js:172-203 | after a run the queue is the clones behind the head, then the arrivals in order, then the head if it has work left; the head leaves with its record exactly when it has none |
| Rr.FinishInv | utils/schedulingAlgorithms.js:182-197 | completing the head, admitting the arrivals and pushing the record keeps the invariant |
| Rr.RequeueInv | utils/schedulingAlgorithms.js:182-201 | running the head short, admitting the arrivals and pushing the head back keeps the invariant |
| Rr.RunInv | utils/schedulingAlgorithms.js:171-203 | running the head keeps the invariant |
| Rr.NextInv | utils/schedulingAlgorithms.js:164-210 | one resumption keeps the invariant |
| Rr.NextSteps | utils/schedulingAlgorithms.js:164-210 | one resumption adds at most one record at a strictly later time, or ends with the same result and time null |
| Rr.RunSteps | utils/schedulingAlgorithms.js:172-203 | running yields the new time, strictly later, with at most one record appended |
| Rr.RunWork | utils/schedulingAlgorithms.js:176-201 | running takes the slice off the outstanding work, and the slice is positive |
| Rr.NextWork | utils/schedulingAlgorithms.js:164-210 | every step but the last lowers the outstanding work, and the last is the one with time null |
| Rr.Trace | utils/schedulingAlgorithms.js:164-210 | every step the generator yields from a state on, the final `null` step included; it ends because each step lowers the outstanding work |
| Rr.Schedule | utils/schedulingAlgorithms.js:149-211 | every step `rr(processes, timeQuantum)` yields, in order, for positive bursts and a positive quantum, or for no processes and any quantum (the subject of `Rr.RrCorrect`, `Rr.RrExample` and `Rr.Drain`) |
| Rr.TraceSteps | utils/schedulingAlgorithms.js:203-210 | every remaining step adds at most one record at a later time, and the last carries the final result |
| Rr.TraceInv | utils/schedulingAlgorithms.js:164-210 | the invariant holds in the final state |
| Rr.RrSteps | utils/schedulingAlgorithms.js:203-210 | the whole run's steps move time forward, add at most one record each, and end with time null |
| Rr.FinalComplete | utils/schedulingAlgorithms.js:208-210 | when the generator ends, the completed processes are the input's and their records are correct |
| Rr.RrCorrect | utils/schedulingAlgorithms.js:149-211 | the final result has one correct record per process, with waiting from the original burst, in completion order |
| Rr.RotateStep | utils/schedulingAlgorithms.js:172-203 | once all clones are admitted, a step runs the head for its slice and either drops it with its record or moves it to the back |
| Rr.ExampleFirst | utils/schedulingAlgorithms.js:166-203 | both processes arrive at 0; process 1 runs 2 units and goes behind process 2 |
| Rr.ExampleRotations | utils/schedulingAlgorithms.js:172-203 | the two clones then alternate in 2-unit slices up to time 8 |
| Rr.ExampleFifth | utils/schedulingAlgorithms.js:187-197 | process 1 completes at 9 |
| Rr.ExampleSixth | utils/schedulingAlgorithms.js:187-197 | process 2 completes at 10, its record going after whatever was recorded before |
| Rr.ExampleCompletions | utils/schedulingAlgorithms.js:187-203 | processes 1 and 2 complete at 9 and 10, in that order, and nothing is left queued |
| Rr.ExampleLast | utils/schedulingAlgorithms.js:208-210 | with nothing queued or left to arrive, the generator ends with time null |
| Rr.RrNoProcesses | utils/schedulingAlgorithms.js:164-210 | for no processes and any quantum, 0 or less included, the loop never starts and the only step is `{result: [], currentTime: null}` |
| Rr.RrExample | utils/schedulingAlgorithms.js:149-211 | for {1,0,5}, {2,0,5} with quantum 2 the first step is at 2, and the records are (1, 9, 9, 4) then (2, 10, 10, 5) |
| Rr.RrScheduler.constructor | utils/schedulingAlgorithms.js:150-162 | the new generator is in the start state |
| Rr.RrScheduler.AdmitFrom | utils/schedulingAlgorithms.js:182-185 | the admission loop stops where AdmitEnd says and appends exactly the clones it passed |
| Rr.RrScheduler.AdmitArrived | utils/schedulingAlgorithms.js:166-169 | the admission loop moves the fields to Admit of the old state |
| Rr.RrScheduler.RunHead | utils/schedulingAlgorithms.js:172-203 | shift, run, admit and record-or-requeue move the fields to Run of the old state and return its step |
| Rr.RrScheduler.NextStep | utils/schedulingAlgorithms.js:164-210 | one resumption updates the fields to Next of the old state and returns its step |
| Rr.DrainFrom | utils/schedulingAlgorithms.js:203-210 | pulling until time null from a state returns exactly the trace from that state |
| Rr.Drain | utils/schedulingAlgorithms.js:149-211 | pulling every step from a fresh generator returns exactly the schedule |
| Mlfq.Admit | utils/schedulingAlgorithms.js:237-240 | admission appends exactly the clones from `i` up to the first one that has not arrived by `currentTime` to level 0, in arrival order; levels 1 and 2, time and records are unchanged |
| Mlfq.Decide | utils/schedulingAlgorithms.js:235-292 | after admission and any idle jump some level holds a clone, the next clone has not arrived, and time has not moved back |
| Mlfq.Level | utils/schedulingAlgorithms.js:245-247 | the level served is non-empty and every higher-priority level is empty |
| Mlfq.Head | utils/schedulingAlgorithms.js:245-247 | the head of the first non-empty level, which the `for` loop shifts |
| Mlfq.NextArrival | utils/schedulingAlgorithms.js:250 | `nextArrivalTime`: the arrival of the first clone not yet admitted, or `Infinity` (None) when all are admitted |
| Mlfq.Slice | utils/schedulingAlgorithms.js:250-251 | `min(remainingTime, quantum of the level, nextArrivalTime - currentTime)`, the quanta being the constant `Mlfq.Quanta` = 4, 8, `Infinity` of :219-223, with `Infinity` as `None` (`Mlfq.MlfqSlices`) |
| Mlfq.Demote | utils/schedulingAlgorithms.js:274-279 | the level an unfinished clone is pushed onto: one lower, or the lowest again (`Mlfq.DemotePool`) |
| Mlfq.Jump | utils/schedulingAlgorithms.js:289-292 | the idle jump: time moves to the arrival of the next clone |
| Mlfq.Run | utils/schedulingAlgorithms.js:247-284 | one MLFQ run: shift the head of the level, run it, admit arrivals to level 0, then record it or demote it; `Mlfq.RunShape` and `Mlfq.RunInv` state its properties |
| Mlfq.Next | utils/schedulingAlgorithms.js:235-295 | one resumption of the generator; `Mlfq.NextInv`, `Mlfq.NextSteps` and `Mlfq.NextWork` state its properties |
| Mlfq.AnyQueued | utils/schedulingAlgorithms.js:235 | `queues.some(q => q.processes.length > 0)`: some level holds a clone |
| Mlfq.AnyQueuedPool | utils/schedulingAlgorithms.js:235 | some level holds a clone exactly when the clones queued over all levels are not empty |
| Mlfq.MlfqAdmitsToTop | utils/schedulingAlgorithms.js:236-240 | arrived clones join the back of level 0 in arrival order, and levels 1 and 2 are unchanged |
| Mlfq.MlfqSlices | utils/schedulingAlgorithms.js:250-251 | the slice is positive, at most the remaining time, at most the level's quantum, ends no later than the next arrival, and equals one of the three |
| Mlfq.RunShape | utils/schedulingAlgorithms.js:247-284 | after a run the arrivals are at the back of level 0, and the head has left its level: with its record when it is done, otherwise pushed after the arrivals onto level min(q+1, 2) |
| Mlfq.Init | utils/schedulingAlgorithms.js:215-233 | the generator prologue: empty result, three empty levels, time 0, `i = 0`, and the clones of the processes in stable arrival order |
| Mlfq.InitInv | utils/schedulingAlgorithms.js:215-233 | the start state satisfies the invariant, and the clones stand for a permutation of the input |
| Mlfq.AdmitInv | utils/schedulingAlgorithms.js:237-240 | admission keeps the invariant |
| Mlfq.DecideInv | utils/schedulingAlgorithms.js:235-292 | admission and the idle jump keep the invariant |
| Mlfq.AdmitNone | utils/schedulingAlgorithms.js:289-292 | when admission leaves every level empty, nothing was queued and no clone was admitted |
| Mlfq.DemotePool | utils/schedulingAlgorithms.js:274-279 | after a demotion the queued clones are the rest of the levels, the arrivals and the demoted head |
| Mlfq.RunInv | utils/schedulingAlgorithms.js:245-284 | running the head of the chosen level keeps the invariant |
| Mlfq.NextInv | utils/schedulingAlgorithms.js:235-295 | one resumption keeps the invariant |
| Mlfq.NextSteps | utils/schedulingAlgorithms.js:235-295 | one resumption adds at most one record at a strictly later time, or ends with the same result and time null |
| Mlfq.RunSteps | utils/schedulingAlgorithms.js:247-284 | running yields the new time, strictly later, with at most one record appended |
| Mlfq.RunWork | utils/schedulingAlgorithms.js:251-280 | running takes the slice off the outstanding work, and the slice is positive |
| Mlfq.NextWork | utils/schedulingAlgorithms.js:235-295 | every step but the last lowers the outstanding work, and the last is the one with time null |
| Mlfq.Trace | utils/schedulingAlgorithms.js:235-295 | every step the generator yields from a state on, the final `null` step included; it ends because each step lowers the outstanding work |
| Mlfq.Schedule | utils/schedulingAlgorithms.js:214-296 | every step `mlfq(processes)` yields, in order, for positive bursts (the subject of `Mlfq.MlfqCorrect`, `Mlfq.MlfqExample` and `Mlfq.Drain`) |
| Mlfq.TraceSteps | utils/schedulingAlgorithms.js:284-295 | every remaining step adds at most one record at a later time, and the last carries the final result |
| Mlfq.TraceInv | utils/schedulingAlgorithms.js:235-295 | the invariant holds in the final state |
| Mlfq.MlfqSteps | utils/schedulingAlgorithms.js:284-295 | the whole run's steps move time forward, add at most one record each, and end with time null |
| Mlfq.FinalComplete | utils/schedulingAlgorithms.js:293-295 | when the generator ends, the completed processes are the input's and their records are correct |
| Mlfq.MlfqCorrect | utils/schedulingAlgorithms.js:214-296 | the final result has one correct record per process, with waiting from the original burst, in completion order |
| Mlfq.LongFirst | utils/schedulingAlgorithms.js:237-284 | a burst-10 process runs 4 units at level 0 and moves to level 1 with 6 left |
| Mlfq.LongSecond | utils/schedulingAlgorithms.js:245-272 | at level 1 it runs its last 6 units and completes at 10 |
| Mlfq.Ends | utils/schedulingAlgorithms.js:235-295 | with nothing queued or left to arrive, the generator ends with time null |
| Mlfq.MlfqExample | utils/schedulingAlgorithms.js:214-296 | for {1,0,10} the steps are: time 4 with no record, time 10 with record (1, 10, 10, 0), then null |
| Mlfq.CutShortFirst | utils/schedulingAlgorithms.js:250-279 | with {1,0,10}, {2,2,3} the first slice is cut to 2 by the arrival, and process 1 is still demoted to level 1 |
| Mlfq.MlfqDemotesCutShort | utils/schedulingAlgorithms.js:250-279 | for {1,0,10}, {2,2,3}, after the first step level 0 holds process 2 and level 1 holds process 1 with 8 left, at time 2 |
| Mlfq.MlfqScheduler.constructor | utils/schedulingAlgorithms.js:215-233 | the new generator is in the start state |
| Mlfq.MlfqScheduler.AdmitFrom | utils/schedulingAlgorithms.js:257-260 | the admission loop stops where AdmitEnd says and appends exactly the clones it passed to level 0 |
| Mlfq.MlfqScheduler.AdmitArrived | utils/schedulingAlgorithms.js:237-240 | the admission loop moves the fields to Admit of the old state |
| Mlfq.MlfqScheduler.RunLevel | utils/schedulingAlgorithms.js:247-284 | shift, run, admit and record-or-demote at level q move the fields to Run of the old state and return its step |
| Mlfq.MlfqScheduler.ServeLevels | utils/schedulingAlgorithms.js:242-287 | the `for` loop serves some level exactly when one holds a clone, with the effect of Run; otherwise nothing changes |
| Mlfq.MlfqScheduler.NextStep | utils/schedulingAlgorithms.js:235-295 | one resumption updates the fields to Next of the old state and returns its step |
| Mlfq.DrainFrom | utils/schedulingAlgorithms.js:284-295 | pulling until time null from a state returns exactly the trace from that state |
| Mlfq.Drain | utils/schedulingAlgorithms.js:214-296 | pulling every step from a fresh generator returns exactly the schedule |
| Average.TotalWaitingTime | utils/schedulingAlgorithms.js:302 | the `reduce` sum of the waiting times (`Average.TotalIsSum`) |
| Average.TotalIsSum | utils/schedulingAlgorithms.js:302 | the left-to-right `reduce` equals the sum of the waiting times |
| Average.AverageWaitingTime | utils/schedulingAlgorithms.js:299-304 | 0 for no records; otherwise the value whose product with the record count is the sum of waiting times |
| Average.AveragePermutation | utils/schedulingAlgorithms.js:299-304 | reordering the records does not change the average |
| Average.WaitingSum | utils/schedulingAlgorithms.js:302 | for correct records, the sum of waiting times is the sum of turnarounds less the sum of bursts |
| Average.SumOfWaitingNonNegative | utils/schedulingAlgorithms.js:302 | a sum of non-negative waiting times is non-negative |
| Average.AverageNonNegative | utils/schedulingAlgorithms.js:303 | an average of a non-negative sum is non-negative |
| Average.AverageOfComplete | utils/schedulingAlgorithms.js:299-304 | for the final result of any scheduler, the average is non-negative and equals mean turnaround less mean burst |

## Left out

- The JavaScript generator mechanics (suspension and `yield`) are left out. Each generator is a state datatype with `Next`, and an object whose `NextStep` runs up to the next yield.
- Calls after the generator has finished are left out. `NextStep` requires that the generator has not finished; the source would return `done`.
- Floating point is left out. Times are unbounded integers, and `Infinity` is `None`. The average is a `real` quotient of the integer sum, not a JavaScript double.
- The value of `nextArrivalTime` computed but never used in `rr` (`utils/schedulingAlgorithms.js:175`) is left out, since it has no effect.
- Aliasing is left out. The source's clones are objects shared between `remainingProcesses` and the queues. The model holds them as values, so decrementing `remainingTime` changes the queued copy only. No step reads the copy in `remainingProcesses` after admitting it, so the schedule is the same. That the caller's process objects are never mutated follows from values.
- `utils/processGenerator.js` is not part of this model (random input). Its output shape, a positive burst per process, is the precondition `ValidInput`.
- `utils/pdfGenerator.js`, `pages/index.js` and `components/*.js` are not part of this model (report export, React state and chart drawing).
- Fifo.Drain: requires `ValidInput` (every burst positive), because the class invariant includes it. The source's `for` loop also ends for other bursts, but then the steps need not move time forward.
- Stcf.Drain: requires `ValidInput`. The termination measure (outstanding work) needs positive remaining times. The source has no such check.
- Rr.Drain: requires `ValidInput`, and `timeQuantum > 0` unless there are no processes. With a quantum of 0 or less and at least one process the source's loop at `utils/schedulingAlgorithms.js:164` never ends, so no step sequence exists. With no processes the loop never starts and `Rr.RrNoProcesses` shows the only step is the final `null` one, whatever the quantum.
- Mlfq.Drain: requires `ValidInput`, for the same termination measure as `Stcf.Drain`.
- Sjf.SjfCorrect: requires `ValidInput` so that time strictly increases between steps. `Sjf.Drain` itself has no precondition.
- Input validation is left out. The source checks nothing, such as duplicate pids or negative arrivals, and the model invents no error paths.
