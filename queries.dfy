/**
 * The read-only requests: `progress`, `jobs` and `jobStat`, as functions of
 * the registry's music list.
 */
module Queries {
  import opened Wrappers
  import opened Instruments
  import opened Records
  import opened Tracker

  /** What `progress` answers when it does not raise. */
  datatype ProgressReply =
    | InProgress(percent: nat)
    | StillLoading(percent: nat)   // `{"progess": 100, "results": "Results still loading..."}`
    | Finished(results: Results)

  /**
   * `progress(music_id)`: NotFound for an unknown item or one without jobs;
   * otherwise the percentage while jobs are pending, and at 100 the results,
   * or the "still loading" marker while assembly has not stored them.
   */
  function Progress(musics: seq<Music>, musicId: int): (r: Result<ProgressReply, Failure>)
    ensures r.Failure? <==> FindMusic(musics, musicId).None? || musics[FindMusic(musics, musicId).value].jobs == []
    ensures r.Failure? ==> r.error == MusicNotFound
    ensures r.Success? ==>
      var m := musics[FindMusic(musics, musicId).value];
      match r.value
      case InProgress(p) => p == Percent(Completed(m.jobs), |m.jobs|) && p < 100 && !AllComplete(m.jobs)
      case StillLoading(p) => p == 100 && AllComplete(m.jobs) && m.results.None?
      case Finished(res) => AllComplete(m.jobs) && m.results == Some(res)
  {
    match FindMusic(musics, musicId)
    case None => Failure(MusicNotFound)
    case Some(i) =>
      var jobs := musics[i].jobs;
      if |jobs| == 0 then Failure(MusicNotFound)
      else
        var progress := Percent(Completed(jobs), |jobs|);
        PercentBounds(Completed(jobs), |jobs|);
        CompletedAllIff(jobs);
        if progress == 100 then
          match musics[i].results
          case None => Success(StillLoading(progress))
          case Some(res) => Success(Finished(res))
        else Success(InProgress(progress))
  }

  /** The first item whose `jobs` list is non-empty (`if music.get("jobs", None):`). */
  function FirstWithJobs(musics: seq<Music>): (r: Option<nat>)
    ensures r.Some? ==> r.value < |musics| && musics[r.value].jobs != []
    ensures r.Some? ==> forall k | 0 <= k < r.value :: musics[k].jobs == []
    ensures r.None? <==> forall k | 0 <= k < |musics| :: musics[k].jobs == []
  {
    if musics == [] then None
    else if musics[0].jobs != [] then Some(0)
    else
      match FirstWithJobs(musics[1..])
      case Some(k) => Some(k + 1)
      case None => None
  }

  /** The ids of a job list, in append order. */
  function JobIds(jobs: seq<Job>): seq<int> {
    seq(|jobs|, k requires 0 <= k < |jobs| => jobs[k].jobId)
  }

  /**
   * `jobs()`: the job ids of the first item that has jobs, and only of that
   * item; "Invalid input" when no item has any.
   */
  function JobsReply(musics: seq<Music>): (r: Result<seq<int>, Failure>)
    ensures r.Failure? <==> forall k | 0 <= k < |musics| :: musics[k].jobs == []
    ensures r.Failure? ==> r.error == InvalidInput
    ensures r.Success? ==> r.value == JobIds(musics[FirstWithJobs(musics).value].jobs)
  {
    match FirstWithJobs(musics)
    case None => Failure(InvalidInput)
    case Some(i) => Success(JobIds(musics[i].jobs))
  }

  /** The position of the first job with this id. */
  function FindJobIn(jobs: seq<Job>, jobId: int): (r: Option<nat>)
    ensures r.Some? ==> r.value < |jobs| && jobs[r.value].jobId == jobId
    ensures r.Some? ==> forall k | 0 <= k < r.value :: jobs[k].jobId != jobId
    ensures r.None? <==> forall k | 0 <= k < |jobs| :: jobs[k].jobId != jobId
  {
    if jobs == [] then None
    else if jobs[0].jobId == jobId then Some(0)
    else
      match FindJobIn(jobs[1..], jobId)
      case Some(k) => Some(k + 1)
      case None => None
  }

  /** The first (item, job) position holding a job with this id, items in list order. */
  function FindJob(musics: seq<Music>, jobId: int): (r: Option<(nat, nat)>)
    ensures r.Some? ==> r.value.0 < |musics| && FindJobIn(musics[r.value.0].jobs, jobId) == Some(r.value.1)
    ensures r.Some? ==> forall i | 0 <= i < r.value.0 :: FindJobIn(musics[i].jobs, jobId).None?
    ensures r.None? <==> forall i | 0 <= i < |musics| :: FindJobIn(musics[i].jobs, jobId).None?
  {
    if musics == [] then None
    else
      match FindJobIn(musics[0].jobs, jobId)
      case Some(k) => Some((0, k))
      case None =>
        match FindJob(musics[1..], jobId)
        case Some(p) => Some((p.0 + 1, p.1))
        case None => None
  }

  /** A job with the id after jobs without it is the one `FindJobIn` finds. */
  lemma {:induction false} FindJobInAt(jobs: seq<Job>, jobId: int, k: nat)
    requires k < |jobs| && jobs[k].jobId == jobId
    requires forall j | 0 <= j < k :: jobs[j].jobId != jobId
    ensures FindJobIn(jobs, jobId) == Some(k)
  {
    if k > 0 {
      FindJobInAt(jobs[1..], jobId, k - 1);
    }
  }

  /** A job found in item `m`, after items without the id, is the one `FindJob` finds. */
  lemma {:induction false} FindJobAt(musics: seq<Music>, jobId: int, m: nat, k: nat)
    requires m < |musics| && FindJobIn(musics[m].jobs, jobId) == Some(k)
    requires forall i | 0 <= i < m :: FindJobIn(musics[i].jobs, jobId).None?
    ensures FindJob(musics, jobId) == Some((m, k))
  {
    if m > 0 {
      assert FindJobIn(musics[0].jobs, jobId).None?;
      FindJobAt(musics[1..], jobId, m - 1, k);
    }
  }

  /**
   * A copy of a job without `status` and `tracksPath`. The copy keeps an
   * empty `tracksPath` list, because `jobStat` deletes the key only when the
   * list is non-empty.
   */
  datatype JobView = JobView(
    musicId: nat,
    jobId: nat,
    size: nat,
    time: nat,
    trackIds: seq<InstrumentId>,
    tracksPath: Option<seq<TrackPath>>)

  function View(job: Job): JobView {
    JobView(job.musicId, job.jobId, job.size, job.time, job.trackIds,
      if job.tracksPath == Some([]) then Some([]) else None)
  }

  /** `jobStat(job_id)`: the redacted copy of the first job with that id, else NotFound. */
  function JobStatReply(musics: seq<Music>, jobId: int): (r: Result<JobView, Failure>)
    ensures r.Failure? <==> forall i, k | 0 <= i < |musics| && 0 <= k < |musics[i].jobs| :: musics[i].jobs[k].jobId != jobId
    ensures r.Failure? ==> r.error == MusicNotFound
    ensures r.Success? ==> r.value.jobId == jobId && (r.value.tracksPath.None? || r.value.tracksPath == Some([]))
    ensures r.Success? ==> r.value == View(musics[FindJob(musics, jobId).value.0].jobs[FindJob(musics, jobId).value.1])
  {
    match FindJob(musics, jobId)
    case None => Failure(MusicNotFound)
    case Some(p) => Success(View(musics[p.0].jobs[p.1]))
  }
}
