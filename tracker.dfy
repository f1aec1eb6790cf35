/**
 * Job completion tracking: how `receive_result` marks jobs complete and how
 * the completed count and the percentage are derived from the job list.
 */
module Tracker {
  import opened Wrappers
  import opened Records

  /** The sum of the jobs' status flags: the number of completed jobs. */
  function Completed(jobs: seq<Job>): (c: nat)
    ensures c <= |jobs|
  {
    if jobs == [] then 0 else Completed(jobs[..|jobs| - 1]) + jobs[|jobs| - 1].status
  }

  predicate AllComplete(jobs: seq<Job>) {
    forall k | 0 <= k < |jobs| :: jobs[k].status == 1
  }

  /** The count reaches the number of jobs exactly when every job is complete. */
  lemma {:induction false} CompletedAllIff(jobs: seq<Job>)
    ensures Completed(jobs) == |jobs| <==> AllComplete(jobs)
  {
    if jobs != [] {
      var init := jobs[..|jobs| - 1];
      CompletedAllIff(init);
      assert AllComplete(jobs) <==> AllComplete(init) && jobs[|jobs| - 1].status == 1;
    }
  }

  /** The count depends on the statuses only. */
  lemma {:induction false} CompletedByStatus(a: seq<Job>, b: seq<Job>)
    requires |a| == |b|
    requires forall k | 0 <= k < |a| :: a[k].status == b[k].status
    ensures Completed(a) == Completed(b)
  {
    if a != [] {
      CompletedByStatus(a[..|a| - 1], b[..|b| - 1]);
    }
  }

  /** The count never falls when some statuses go from 0 to 1. */
  lemma {:induction false} CompletedGrows(a: seq<Job>, b: seq<Job>)
    requires |a| == |b|
    requires forall k | 0 <= k < |a| :: a[k].status <= b[k].status
    ensures Completed(a) <= Completed(b)
  {
    if a != [] {
      CompletedGrows(a[..|a| - 1], b[..|b| - 1]);
    }
  }

  /** The whole-number progress percentage, computed on integers. */
  function Percent(completed: nat, total: nat): nat
    requires total > 0
  {
    completed * 100 / total
  }

  lemma MulOrdered(a: int, b: int, n: nat)
    ensures a <= b ==> a * n <= b * n
  {
  }

  lemma DivBelow(x: nat, n: nat, bound: nat)
    requires n > 0 && x < bound * n
    ensures x / n < bound
  {
    var q := x / n;
    assert q * n <= x;
    MulOrdered(bound, q, n);
  }

  lemma DivMonotone(x: nat, y: nat, n: nat)
    requires n > 0 && x <= y
    ensures x / n <= y / n
  {
    var qx, qy := x / n, y / n;
    assert qx * n <= x && y < (qy + 1) * n;
    MulOrdered(qy + 1, qx, n);
  }

  /** Dividing a multiple of `n` by `n` is exact. */
  lemma DivExact(q: nat, n: nat)
    requires n > 0
    ensures (q * n) / n == q
  {
    var d, r := (q * n) / n, (q * n) % n;
    assert d * n + r == q * n && 0 <= r < n;
    if d < q {
      MulOrdered(d + 1, q, n);
    } else if d > q {
      MulOrdered(q + 1, d, n);
    }
  }

  /** The percentage lies in [0, 100] and is 100 exactly when every job is counted. */
  lemma PercentBounds(completed: nat, total: nat)
    requires 0 < total && completed <= total
    ensures Percent(completed, total) <= 100
    ensures Percent(completed, total) == 100 <==> completed == total
  {
    if completed < total {
      DivBelow(completed * 100, total, 100);
    } else {
      DivExact(100, total);
      assert completed * 100 == 100 * total;
    }
  }

  /** What one result message does to one job: only the job with its id is touched. */
  function Deliver(job: Job, jobId: int, tracks: seq<TrackPath>): Job {
    if job.jobId == jobId then job.(status := 1, tracksPath := Some(tracks)) else job
  }

  /** The job list after `receive_result`'s loop over one music item's jobs. */
  function MarkDone(jobs: seq<Job>, jobId: int, tracks: seq<TrackPath>): (r: seq<Job>)
    ensures |r| == |jobs|
    ensures forall k | 0 <= k < |jobs| && jobs[k].jobId == jobId ::
      r[k].status == 1 && r[k].tracksPath == Some(tracks) &&
      r[k].(status := jobs[k].status, tracksPath := jobs[k].tracksPath) == jobs[k]
    ensures forall k | 0 <= k < |jobs| && jobs[k].jobId != jobId :: r[k] == jobs[k]
  {
    seq(|jobs|, k requires 0 <= k < |jobs| => Deliver(jobs[k], jobId, tracks))
  }

  /**
   * Delivering a result never lowers the count of completed jobs, so the
   * percentage a client polls never goes down.
   */
  lemma {:induction false} DeliveryNeverLowersProgress(jobs: seq<Job>, jobId: int, tracks: seq<TrackPath>)
    requires jobs != []
    ensures Completed(jobs) <= Completed(MarkDone(jobs, jobId, tracks))
    ensures Percent(Completed(jobs), |jobs|) <= Percent(Completed(MarkDone(jobs, jobId, tracks)), |jobs|)
  {
    var after := MarkDone(jobs, jobId, tracks);
    CompletedGrows(jobs, after);
    DivMonotone(Completed(jobs) * 100, Completed(after) * 100, |jobs|);
  }

  /**
   * A second delivery of the same job id leaves the count as the first
   * delivery left it, whatever stems it carries.
   */
  lemma {:induction false} DuplicateDeliveryKeepsCount(jobs: seq<Job>, jobId: int, first: seq<TrackPath>, again: seq<TrackPath>)
    ensures Completed(MarkDone(MarkDone(jobs, jobId, first), jobId, again)) == Completed(MarkDone(jobs, jobId, first))
  {
    var once := MarkDone(jobs, jobId, first);
    CompletedByStatus(MarkDone(once, jobId, again), once);
  }

  /** Delivering the same message twice gives the same job list as delivering it once. */
  lemma DeliveryIdempotent(jobs: seq<Job>, jobId: int, tracks: seq<TrackPath>)
    ensures MarkDone(MarkDone(jobs, jobId, tracks), jobId, tracks) == MarkDone(jobs, jobId, tracks)
  {
  }
}
