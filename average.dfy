/** `calculateAverageWaitingTime(result)`: the mean waiting time over the
    records of a result, 0 for an empty one. JavaScript numbers become a
    `real` for the quotient; the sum itself is over integers. */
module Average {
  import opened Seqs
  import opened Processes

  function WaitingTime(r: Record): int { r.waitingTime }
  function TurnaroundTime(r: Record): int { r.turnaroundTime }

  /** `result.reduce((sum, process) => sum + process.waitingTime, 0)`: the
      running sum from the first record to the last. */
  function TotalWaitingTime(result: seq<Record>): int
    decreases |result|
  {
    if result == [] then 0
    else TotalWaitingTime(result[..|result| - 1]) + result[|result| - 1].waitingTime
  }

  /** The left-to-right running sum is the sum of the waiting times. */
  lemma {:induction false} TotalIsSum(result: seq<Record>)
    ensures TotalWaitingTime(result) == SumOf(result, WaitingTime)
    decreases |result|
  {
    if result != [] {
      var init, last := result[..|result| - 1], result[|result| - 1];
      TotalIsSum(init);
      assert result == init + [last];
      SumOfAppend(init, [last], WaitingTime);
      assert SumOf([last], WaitingTime) == last.waitingTime + SumOf([last][1..], WaitingTime);
      assert [last][1..] == [];
    }
  }

  /** The mean waiting time: 0 when there are no records, otherwise the
      quantity whose product with the number of records is the sum of the
      waiting times. */
  function AverageWaitingTime(result: seq<Record>): (avg: real)
    ensures |result| == 0 ==> avg == 0.0
    ensures |result| > 0 ==> avg * (|result| as real) == SumOf(result, WaitingTime) as real
  {
    if |result| == 0 then 0.0
    else
      TotalIsSum(result);
      TotalWaitingTime(result) as real / |result| as real
  }

  /** Reordering the records does not change the average. */
  lemma AveragePermutation(a: seq<Record>, b: seq<Record>)
    requires multiset(a) == multiset(b)
    ensures AverageWaitingTime(a) == AverageWaitingTime(b)
  {
    assert |a| == |multiset(a)| == |multiset(b)| == |b|;
    SumOfPermutation(a, b, WaitingTime);
    if |a| > 0 {
      var n := |a| as real;
      assert AverageWaitingTime(a) == SumOf(a, WaitingTime) as real / n;
      assert AverageWaitingTime(b) == SumOf(b, WaitingTime) as real / n;
    }
  }

  /** Record by record, waiting time is turnaround time less the burst,
      so the same holds for the sums. */
  lemma {:induction false} WaitingSum(result: seq<Record>, done: seq<Process>)
    requires Accounts(result, done)
    ensures SumOf(result, WaitingTime) == SumOf(result, TurnaroundTime) - SumOf(done, BurstTime)
    decreases |result|
  {
    if result != [] {
      assert Completes(result[0], done[0]);
      forall k | 0 <= k < |result[1..]| ensures Completes(result[1..][k], done[1..][k]) {
        assert Completes(result[k + 1], done[k + 1]);
      }
      WaitingSum(result[1..], done[1..]);
    }
  }

  /** A sum of values none of which is negative is not negative. */
  lemma {:induction false} SumOfWaitingNonNegative(result: seq<Record>)
    requires forall k :: 0 <= k < |result| ==> result[k].waitingTime >= 0
    ensures SumOf(result, WaitingTime) >= 0
    decreases |result|
  {
    if result != [] {
      assert forall k :: 0 <= k < |result[1..]| ==> result[1..][k] == result[k + 1];
      SumOfWaitingNonNegative(result[1..]);
    }
  }

  /** For the final result of any of the schedulers (one correct record per
      process), the average is not negative and is the mean turnaround time
      less the mean burst time of the input. */
  lemma AverageOfComplete(result: seq<Record>, processes: seq<Process>)
    requires Complete(result, processes)
    ensures AverageWaitingTime(result) >= 0.0
    ensures |result| == |processes|
    ensures |result| > 0 ==>
      AverageWaitingTime(result) * (|result| as real)
        == (SumOf(result, TurnaroundTime) - SumOf(processes, BurstTime)) as real
  {
    var done :| multiset(done) == multiset(processes) && Accounts(result, done);
    assert |done| == |multiset(done)| == |multiset(processes)| == |processes|;
    forall k | 0 <= k < |result| ensures result[k].waitingTime >= 0 {
      assert Completes(result[k], done[k]);
    }
    SumOfWaitingNonNegative(result);
    AverageNonNegative(result);
    WaitingSum(result, done);
    SumOfPermutation(done, processes, BurstTime);
  }

  /** The average of waiting times whose sum is not negative is not negative. */
  lemma AverageNonNegative(result: seq<Record>)
    requires SumOf(result, WaitingTime) >= 0
    ensures AverageWaitingTime(result) >= 0.0
  {
    if |result| > 0 {
      TotalIsSum(result);
      var total, n := TotalWaitingTime(result) as real, |result| as real;
      assert AverageWaitingTime(result) == total / n;
    }
  }
}
