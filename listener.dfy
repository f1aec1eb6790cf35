/**
 * The result listener: `receive_result` writes the stems a worker sends
 * back, marks the job complete on the first registered item, and once every
 * job of that item is complete runs `assemble_result`, which builds the
 * full-length stems and the final mix and stores the item's results.
 */
module Listener {
  import opened Wrappers
  import opened Text
  import opened Audio
  import opened Instruments
  import opened Records
  import opened Tracker
  import opened Registry
  import opened Assembly
  import opened Assemble
  import opened Api

  /** What a delivered result led to: only recorded, or the item's results assembled. */
  datatype Delivery = Recorded | Assembled(results: Results)

  /** The registry, the files and the reply after one delivered result message. */
  datatype Received = Received(musics: seq<Music>, files: Store, reply: Result<Delivery, Failure>)

  /** The file one stem of the message is written to, named after the checksum of its audio. */
  function StemPathOf(chunk: StemChunk, format: string, md5: seq<int> -> nat): string {
    StemChunkPath(IntChecksum(md5(chunk.audio)), chunk.name, format)
  }

  /** The `tracks` list recorded for the job: each stem's name and file, in message order. */
  function StemPaths(chunks: seq<StemChunk>, format: string, md5: seq<int> -> nat): seq<TrackPath> {
    seq(|chunks|, k requires 0 <= k < |chunks| => TrackPath(chunks[k].name, StemPathOf(chunks[k], format, md5)))
  }

  /** The files after every stem of the message has been exported, in order. */
  function Exported(files: Store, chunks: seq<StemChunk>, format: string, md5: seq<int> -> nat): Store {
    if chunks == [] then files
    else
      var last := chunks[|chunks| - 1];
      Exported(files, chunks[..|chunks| - 1], format, md5)[StemPathOf(last, format, md5) := last.audio]
  }

  /** No later stem of the message is written to the same file as stem `k`. */
  predicate LastWriter(chunks: seq<StemChunk>, format: string, md5: seq<int> -> nat, k: nat)
    requires k < |chunks|
  {
    forall j | k < j < |chunks| :: StemPathOf(chunks[j], format, md5) != StemPathOf(chunks[k], format, md5)
  }

  /** The item after its jobs with the message's id are marked complete with the message's stems. */
  function Marked(m: Music, msg: ResultMessage, md5: seq<int> -> nat): Music {
    m.(jobs := MarkDone(m.jobs, msg.jobId, StemPaths(msg.tracks, msg.format, md5)))
  }

  /**
   * `receive_result`: export the stems; only the first registered item is
   * examined; its jobs with the message's id are marked complete; an item
   * without jobs divides by zero; when the completed percentage reaches 100
   * the item is assembled.
   */
  function ReceiveOutcome(musics: seq<Music>, files: Store, msg: ResultMessage, md5: seq<int> -> nat): Received {
    var exported := Exported(files, msg.tracks, msg.format, md5);
    if musics == [] then Received(musics, exported, Success(Recorded))
    else
      var marked := Marked(musics[0], msg, md5);
      var updated := musics[0 := marked];
      if marked.jobs == [] then Received(updated, exported, Failure(Crash("division by zero")))
      else if Percent(Completed(marked.jobs), |marked.jobs|) != 100 then Received(updated, exported, Success(Recorded))
      else
        var (assembled, result) := AssembleOutcome(marked, exported);
        match result
        case Failure(e) => Received(updated, assembled, Failure(e))
        case Success(results) => Received(updated[0 := marked.(results := Some(results))], assembled, Success(Assembled(results)))
  }

  // ---------------------------------------------------------------------
  // What the exported files hold.

  lemma {:induction false} ReadableGrows(es: seq<TrackPath>, s1: Store, s2: Store)
    requires s1.Keys <= s2.Keys && EntriesReadable(es, s1)
    ensures EntriesReadable(es, s2)
  {
    if es != [] {
      ReadableGrows(es[..|es| - 1], s1, s2);
    }
  }

  /** Exporting the stems adds exactly their files. */
  lemma {:induction false} ExportedKeys(files: Store, chunks: seq<StemChunk>, format: string, md5: seq<int> -> nat)
    ensures Exported(files, chunks, format, md5).Keys == files.Keys + PathsOf(StemPaths(chunks, format, md5))
  {
    if chunks != [] {
      var n := |chunks| - 1;
      ExportedKeys(files, chunks[..n], format, md5);
      assert StemPaths(chunks, format, md5)[..n] == StemPaths(chunks[..n], format, md5);
    }
  }

  /** Exporting the stems leaves every other file as it was. */
  lemma {:induction false} ExportedKeepsOthers(files: Store, chunks: seq<StemChunk>, format: string, md5: seq<int> -> nat, q: string)
    requires q in files && q !in PathsOf(StemPaths(chunks, format, md5))
    ensures q in Exported(files, chunks, format, md5) && Exported(files, chunks, format, md5)[q] == files[q]
  {
    if chunks != [] {
      var n := |chunks| - 1;
      assert StemPaths(chunks, format, md5)[..n] == StemPaths(chunks[..n], format, md5);
      ExportedKeepsOthers(files, chunks[..n], format, md5, q);
    }
  }

  /** Each file written holds the audio of the last stem written to it. */
  lemma {:induction false} ExportedLastWriter(files: Store, chunks: seq<StemChunk>, format: string, md5: seq<int> -> nat, k: nat)
    requires k < |chunks| && LastWriter(chunks, format, md5, k)
    ensures StemPathOf(chunks[k], format, md5) in Exported(files, chunks, format, md5)
    ensures Exported(files, chunks, format, md5)[StemPathOf(chunks[k], format, md5)] == chunks[k].audio
  {
    var n := |chunks| - 1;
    var init := chunks[..n];
    var last := chunks[n];
    var path := StemPathOf(chunks[k], format, md5);
    assert Exported(files, chunks, format, md5) == Exported(files, init, format, md5)[StemPathOf(last, format, md5) := last.audio];
    if k < n {
      assert StemPathOf(last, format, md5) != path;
      assert init[k] == chunks[k];
      forall j | k < j < |init|
        ensures StemPathOf(init[j], format, md5) != StemPathOf(init[k], format, md5)
      {
        assert init[j] == chunks[j];
      }
      ExportedLastWriter(files, init, format, md5, k);
    }
  }

  /** The stems just exported are readable by the assembly when their names are instruments'. */
  lemma {:induction false} DeliveredReadable(files: Store, chunks: seq<StemChunk>, format: string, md5: seq<int> -> nat)
    requires forall k | 0 <= k < |chunks| :: IsInstrumentName(chunks[k].name)
    ensures EntriesReadable(StemPaths(chunks, format, md5), Exported(files, chunks, format, md5))
  {
    if chunks != [] {
      var n := |chunks| - 1;
      var init := chunks[..n];
      DeliveredReadable(files, init, format, md5);
      ExportedKeys(files, init, format, md5);
      ExportedKeys(files, chunks, format, md5);
      assert StemPaths(chunks, format, md5)[..n] == StemPaths(init, format, md5);
      ReadableGrows(StemPaths(init, format, md5), Exported(files, init, format, md5), Exported(files, chunks, format, md5));
    }
  }

  // ---------------------------------------------------------------------
  // What a delivery does to the registry.

  /** Marking jobs complete keeps an item valid. */
  lemma MarkedValid(m: Music, msg: ResultMessage, md5: seq<int> -> nat)
    requires ItemValid(m)
    ensures ItemValid(Marked(m, msg, md5)) && Marked(m, msg, md5).musicId == m.musicId
  {
  }

  /** Every delivery keeps the registry valid, whether it records, assembles or crashes. */
  lemma {:induction false} ReceiveKeepsValid(musics: seq<Music>, files: Store, msg: ResultMessage, md5: seq<int> -> nat)
    requires ValidMusics(musics)
    ensures ValidMusics(ReceiveOutcome(musics, files, msg, md5).musics)
  {
    if musics != [] {
      var marked := Marked(musics[0], msg, md5);
      MarkedValid(musics[0], msg, md5);
      ValidAfterUpdate(musics, 0, marked);
      if marked.jobs != [] {
        PercentBounds(Completed(marked.jobs), |marked.jobs|);
        CompletedAllIff(marked.jobs);
        var outcome := AssembleOutcome(marked, Exported(files, msg.tracks, msg.format, md5));
        if Percent(Completed(marked.jobs), |marked.jobs|) == 100 && outcome.1.Success? {
          ValidAfterUpdate(musics[0 := marked], 0, marked.(results := Some(outcome.1.value)));
        }
      }
    }
  }

  /**
   * Only the first item is examined: a delivery records the stems on its
   * jobs with the message's id and leaves every other item as it was; it
   * assembles exactly when all of that item's jobs are then complete.
   */
  lemma {:induction false} ReceiveAssemblesWhenComplete(musics: seq<Music>, files: Store, msg: ResultMessage, md5: seq<int> -> nat)
    requires musics != [] && musics[0].jobs != []
    ensures var o := ReceiveOutcome(musics, files, msg, md5);
      var marked := Marked(musics[0], msg, md5);
      var exported := Exported(files, msg.tracks, msg.format, md5);
      && |o.musics| == |musics| && o.musics[1..] == musics[1..]
      && (!AllComplete(marked.jobs) ==> o == Received(musics[0 := marked], exported, Success(Recorded)))
      && (AllComplete(marked.jobs) ==>
            && o.files == AssembleOutcome(marked, exported).0
            && (o.reply.Success? <==> AssembleOutcome(marked, exported).1.Success?)
            && (o.reply.Success? ==>
                  var results := AssembleOutcome(marked, exported).1.value;
                  o.reply == Success(Assembled(results)) && o.musics[0] == marked.(results := Some(results))))
  {
    var marked := Marked(musics[0], msg, md5);
    PercentBounds(Completed(marked.jobs), |marked.jobs|);
    CompletedAllIff(marked.jobs);
  }

  /**
   * The delivery that completes the last job of an item whose stem files are
   * readable and placed apart assembles it: the reply carries the results,
   * the final mix is the concatenation of every job's requested stems, and
   * each instrument's full stem sits in the file of its first window stem.
   */
  lemma {:induction false} LastDeliveryAssembles(musics: seq<Music>, files: Store, msg: ResultMessage, md5: seq<int> -> nat)
    requires musics != [] && musics[0].jobs != []
    requires var marked := Marked(musics[0], msg, md5);
      && AllComplete(marked.jobs)
      && Placed(marked.jobs, FinalPathOf(marked))
      && Readable(marked.jobs, Exported(files, msg.tracks, msg.format, md5))
    ensures var o := ReceiveOutcome(musics, files, msg, md5);
      var marked := Marked(musics[0], msg, md5);
      var exported := Exported(files, msg.tracks, msg.format, md5);
      && o.reply.Success? && o.reply.value.Assembled?
      && o.musics[0].results == Some(o.reply.value.results)
      && o.reply.value.results.final == Link(FinalPathOf(marked))
      && FinalPathOf(marked) in o.files && o.files[FinalPathOf(marked)] == Mix(marked.jobs, exported)
      && (forall k | 0 <= k < 4 && FirstPath(marked.jobs, NameAt(k)).Some? ::
            var p := FirstPath(marked.jobs, NameAt(k)).value;
            p in o.files && o.files[p] == Stem(marked.jobs, NameAt(k), exported))
  {
    var marked := Marked(musics[0], msg, md5);
    var exported := Exported(files, msg.tracks, msg.format, md5);
    ReceiveAssemblesWhenComplete(musics, files, msg, md5);
    AssembleCorrect(marked, exported);
  }

  // ---------------------------------------------------------------------
  // Prefixes of a run that has stopped.

  lemma {:induction false} EntriesRunStops(run: Run, es: seq<TrackPath>, requested: set<string>, n: nat)
    requires |run.acc.comp| == 4 && n <= |es|
    requires EntriesRun(run, es[..n], requested).failure.Some?
    ensures EntriesRun(run, es, requested) == EntriesRun(run, es[..n], requested)
  {
    if n < |es| {
      var init := es[..|es| - 1];
      assert init[..n] == es[..n];
      EntriesRunStops(run, init, requested, n);
    } else {
      assert es[..n] == es;
    }
  }

  lemma {:induction false} JobsRunStops(run: Run, jobs: seq<Job>, n: nat)
    requires |run.acc.comp| == 4 && n <= |jobs|
    requires JobsRun(run, jobs[..n]).failure.Some?
    ensures JobsRun(run, jobs) == JobsRun(run, jobs[..n])
  {
    if n < |jobs| {
      var init := jobs[..|jobs| - 1];
      assert init[..n] == jobs[..n];
      JobsRunStops(run, init, n);
    } else {
      assert jobs[..n] == jobs;
    }
  }

  /** A job starts from the files, `completedTracks` and mix so far, whatever layers the previous job left. */
  lemma JobStepFromFields(run: Run, a: Acc, job: Job)
    requires run.failure.None? && |run.acc.comp| == 4
    requires a == Acc(run.acc.files, run.acc.comp, [], run.acc.finished)
    ensures var r1, r2 := JobStep(run, job), JobStep(Run(a, None), job);
      r1.failure == r2.failure && r1.acc.files == r2.acc.files && r1.acc.comp == r2.acc.comp && r1.acc.finished == r2.acc.finished
  {
    assert run.acc.(layers := []) == a.(layers := []);
  }

  /** `ResultListener`: the consumer of `result_queue`, working on the registry `app`. */
  class ResultListener {
    const app: App

    constructor (app: App)
      ensures this.app == app
    {
      this.app := app;
    }

    /**
     * `receive_result`: the registry, the files and the reply become those
     * `ReceiveOutcome` gives, and the registry stays valid.
     */
    method ReceiveResult(msg: ResultMessage) returns (r: Result<Delivery, Failure>)
      requires app.Valid()
      modifies app
      ensures app.Valid()
      ensures var o := ReceiveOutcome(old(app.musics), old(app.files), msg, app.md5);
        r == o.reply && app.musics == o.musics && app.files == o.files
      ensures app.jobID == old(app.jobID) && app.JobID == old(app.JobID)
      ensures app.repeat == old(app.repeat) && app.queue == old(app.queue)
    {
      ReceiveKeepsValid(app.musics, app.files, msg, app.md5);
      var tracks := ExportStems(msg);
      if |app.musics| == 0 {
        return Success(Recorded);
      }
      var music := app.musics[0];
      var jobs, completed := MarkAndCount(music.jobs, msg.jobId, tracks);
      app.musics := app.musics[0 := music.(jobs := jobs)];
      if |jobs| == 0 {
        return Failure(Crash("division by zero"));
      }
      if Percent(completed, |jobs|) != 100 {
        return Success(Recorded);
      }
      var assembled := AssembleResult(0);
      match assembled
      case Failure(e) =>
        r := Failure(e);
      case Success(results) =>
        r := Success(Assembled(results));
    }

    /** The loop writing each stem of the message to its file. */
    method ExportStems(msg: ResultMessage) returns (tracks: seq<TrackPath>)
      modifies app`files
      ensures tracks == StemPaths(msg.tracks, msg.format, app.md5)
      ensures app.files == Exported(old(app.files), msg.tracks, msg.format, app.md5)
    {
      tracks := [];
      var k := 0;
      while k < |msg.tracks|
        invariant 0 <= k <= |msg.tracks|
        invariant tracks == StemPaths(msg.tracks, msg.format, app.md5)[..k]
        invariant app.files == Exported(old(app.files), msg.tracks[..k], msg.format, app.md5)
      {
        var chunk := msg.tracks[k];
        var checksum := IntChecksum(app.md5(chunk.audio));
        var outTrackPath := StemChunkPath(checksum, chunk.name, msg.format);
        tracks := tracks + [TrackPath(chunk.name, outTrackPath)];
        app.files := app.files[outTrackPath := chunk.audio];
        assert msg.tracks[..k + 1][..k] == msg.tracks[..k];
        k := k + 1;
      }
      assert msg.tracks[..k] == msg.tracks;
    }

    /** The loop over one item's jobs: mark the jobs with the id and count the completed ones. */
    method MarkAndCount(jobs: seq<Job>, jobId: int, tracks: seq<TrackPath>) returns (marked: seq<Job>, completed: nat)
      ensures marked == MarkDone(jobs, jobId, tracks)
      ensures completed == Completed(marked)
    {
      marked := [];
      completed := 0;
      var k := 0;
      while k < |jobs|
        invariant 0 <= k <= |jobs|
        invariant marked == MarkDone(jobs, jobId, tracks)[..k]
        invariant completed == Completed(marked)
      {
        var x := jobs[k];
        if x.jobId == jobId {
          x := x.(status := 1, tracksPath := Some(tracks));
        }
        completed := completed + x.status;
        assert (marked + [x])[..k] == marked;
        marked := marked + [x];
        k := k + 1;
      }
    }

    /**
     * `assemble_result` on the item at `i`: the files and the results are
     * those `AssembleOutcome` gives; the item's results are stored only when
     * the run reaches its end.
     */
    method AssembleResult(i: nat) returns (r: Result<Results, Failure>)
      requires i < |app.musics|
      modifies app`files, app`musics
      ensures var (files, result) := AssembleOutcome(old(app.musics)[i], old(app.files));
        && r == result && app.files == files
        && app.musics == if result.Success? then old(app.musics)[i := old(app.musics)[i].(results := Some(result.value))]
                         else old(app.musics)
    {
      var music := app.musics[i];
      var extension := AfterLast(music.name, '.');
      var completedTracks, finished, failure := RunJobs(music.jobs);
      if failure.Some? {
        return Failure(failure.value);
      }
      var finishedPath := FinalPath(music.musicId, extension);
      app.files := app.files[finishedPath := finished];
      var results := ResultsOf(completedTracks, finishedPath);
      app.musics := app.musics[i := music.(results := Some(results))];
      r := Success(results);
    }

    /** The loop over an item's jobs, in order, stopping at the first failure. */
    method RunJobs(jobs: seq<Job>) returns (comp: seq<string>, finished: Audio, failure: Option<Failure>)
      modifies app`files
      ensures |comp| == 4
      ensures var run := JobsRun(Start(old(app.files)), jobs);
        && failure == run.failure && app.files == run.acc.files
        && comp == run.acc.comp && finished == run.acc.finished
    {
      ghost var s0 := app.files;
      finished := [];
      comp := Blank();
      var j := 0;
      while j < |jobs|
        invariant 0 <= j <= |jobs| && |comp| == 4
        invariant var run := JobsRun(Start(s0), jobs[..j]);
          && run.failure.None? && run.acc.files == app.files
          && run.acc.comp == comp && run.acc.finished == finished
      {
        ghost var run := JobsRun(Start(s0), jobs[..j]);
        assert jobs[..j + 1][..j] == jobs[..j];
        assert JobsRun(Start(s0), jobs[..j + 1]) == JobStep(run, jobs[j]);
        JobStepFromFields(run, Acc(app.files, comp, [], finished), jobs[j]);
        comp, finished, failure := RunJob(jobs[j], comp, finished);
        if failure.Some? {
          JobsRunStops(Start(s0), jobs, j + 1);
          return;
        }
        j := j + 1;
      }
      assert jobs[..j] == jobs;
      failure := None;
    }

    /**
     * The loop over one job's stem files: append each to its instrument's
     * first stem file (removing its own file) or make it that file, and
     * overlay the requested ones into the job's layers.
     */
    method RunJob(job: Job, comp: seq<string>, finished: Audio) returns (newComp: seq<string>, newFinished: Audio, failure: Option<Failure>)
      requires |comp| == 4
      modifies app`files
      ensures var r := JobStep(Run(Acc(old(app.files), comp, [], finished), None), job);
        && failure == r.failure && app.files == r.acc.files
        && newComp == r.acc.comp && newFinished == r.acc.finished
    {
      newComp, newFinished := comp, finished;
      if job.tracksPath.None? {
        return newComp, newFinished, Some(Crash("job has no stem files"));
      }
      var es := job.tracksPath.value;
      var requested := RequestedNames(job.trackIds);
      ghost var start := Run(Acc(app.files, comp, [], finished), None);
      var layers: Audio := [];
      var t := 0;
      while t < |es|
        invariant 0 <= t <= |es| && |newComp| == 4
        invariant EntriesRun(start, es[..t], requested) == Run(Acc(app.files, newComp, layers, finished), None)
      {
        var e := es[t];
        assert es[..t + 1][..t] == es[..t];
        if e.track !in app.files {
          EntriesRunStops(start, es, requested, t + 1);
          return newComp, newFinished, Some(Crash("stem file not found"));
        }
        var segment := app.files[e.track];
        var index := IndexOfName(e.name);
        if index.None? {
          EntriesRunStops(start, es, requested, t + 1);
          return newComp, newFinished, Some(Crash("unknown instrument name"));
        }
        var k := index.value;
        if newComp[k] != "" {
          if newComp[k] !in app.files {
            EntriesRunStops(start, es, requested, t + 1);
            return newComp, newFinished, Some(Crash("stem file not found"));
          }
          app.files := app.files[newComp[k] := app.files[newComp[k]] + segment];
          app.files := app.files - {e.track};
        } else {
          newComp := newComp[k := e.track];
        }
        if e.name in requested {
          if |layers| == 0 {
            layers := layers + segment;
          } else {
            layers := Overlay(layers, segment);
          }
        }
        t := t + 1;
      }
      assert es[..t] == es;
      newFinished := finished + layers;
      failure := None;
    }
  }
}
