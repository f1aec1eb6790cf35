/**
 * `assemble_result` step by step: for every job in order, every stem file
 * of the job is read, appended to the full-length stem of its instrument
 * (the file of the instrument's first window stem, rewritten in place, the
 * window file then removed), and overlaid into the job's layers; the layers
 * of each job are appended to the final mix. A file that cannot be read or
 * a name outside the catalogue ends the run where it happens, with the
 * files written so far kept.
 */
module Assemble {
  import opened Wrappers
  import opened Text
  import opened Audio
  import opened Instruments
  import opened Records
  import opened Assembly

  /**
   * The state of the run: the files, `completedTracks` (one path per
   * instrument in catalogue order, "" until its first stem), the current
   * job's `layers` and the `finished` mix so far.
   */
  datatype Acc = Acc(files: Store, comp: seq<string>, layers: Audio, finished: Audio)

  /** The state reached and, when the run stopped early, why. */
  datatype Run = Run(acc: Acc, failure: Option<Failure>)

  function Blank(): seq<string> {
    ["", "", "", ""]
  }

  /** One stem file of one job. */
  function TrackStep(run: Run, e: TrackPath, requested: set<string>): (r: Run)
    requires |run.acc.comp| == 4
    ensures |r.acc.comp| == 4
    ensures run.failure.Some? ==> r == run
  {
    if run.failure.Some? then run
    else
      var a := run.acc;
      if e.track !in a.files then Run(a, Some(Crash("stem file not found")))
      else
        var segment := a.files[e.track];
        match IndexOfName(e.name)
        case None => Run(a, Some(Crash("unknown instrument name")))
        case Some(k) =>
          var layers := if e.name in requested then LayerStep(a.layers, segment) else a.layers;
          if a.comp[k] != "" then
            if a.comp[k] !in a.files then Run(a, Some(Crash("stem file not found")))
            else
              var files := a.files[a.comp[k] := a.files[a.comp[k]] + segment] - {e.track};
              Run(Acc(files, a.comp, layers, a.finished), None)
          else
            Run(Acc(a.files, a.comp[k := e.track], layers, a.finished), None)
  }

  /** The stem files of one job, in order. */
  function EntriesRun(run: Run, es: seq<TrackPath>, requested: set<string>): (r: Run)
    requires |run.acc.comp| == 4
    ensures |r.acc.comp| == 4
    ensures run.failure.Some? ==> r == run
  {
    if es == [] then run
    else TrackStep(EntriesRun(run, es[..|es| - 1], requested), es[|es| - 1], requested)
  }

  /** One job: its layers start empty and are appended to the mix when its stems are done. */
  function JobStep(run: Run, job: Job): (r: Run)
    requires |run.acc.comp| == 4
    ensures |r.acc.comp| == 4
    ensures run.failure.Some? ==> r == run
  {
    if run.failure.Some? then run
    else if job.tracksPath.None? then Run(run.acc, Some(Crash("job has no stem files")))
    else
      var r := EntriesRun(Run(run.acc.(layers := []), None), job.tracksPath.value, RequestedNames(job.trackIds));
      if r.failure.Some? then r
      else Run(r.acc.(finished := r.acc.finished + r.acc.layers), None)
  }

  function JobsRun(run: Run, jobs: seq<Job>): (r: Run)
    requires |run.acc.comp| == 4
    ensures |r.acc.comp| == 4
    ensures run.failure.Some? ==> r == run
  {
    if jobs == [] then run
    else JobStep(JobsRun(run, jobs[..|jobs| - 1]), jobs[|jobs| - 1])
  }

  function Start(files: Store): Run {
    Run(Acc(files, Blank(), [], []), None)
  }

  /** The results `assemble_result` stores: every instrument's stem link, in catalogue order, and the final link. */
  function ResultsOf(comp: seq<string>, finalPath: string): Results
    requires |comp| == 4
  {
    Results(100, Link(finalPath), seq(4, k requires 0 <= k < 4 => TrackPath(NameAt(k), Link(comp[k]))))
  }

  /** Where the final mix of an item goes: its name's text after the last dot is the extension. */
  function FinalPathOf(m: Music): string {
    FinalPath(m.musicId, AfterLast(m.name, '.'))
  }

  /** The files afterwards and the results, or why the run stopped. */
  function AssembleOutcome(m: Music, files: Store): (Store, Result<Results, Failure>) {
    var r := JobsRun(Start(files), m.jobs);
    if r.failure.Some? then (r.acc.files, Failure(r.failure.value))
    else (r.acc.files[FinalPathOf(m) := r.acc.finished], Success(ResultsOf(r.acc.comp, FinalPathOf(m))))
  }

  // ---------------------------------------------------------------------
  // What the run computes when the stem files are placed apart.

  function Touched(done: seq<Job>, es: seq<TrackPath>): set<string> {
    JobPaths(done) + PathsOf(es)
  }

  /** The path of the first stem of an instrument among the finished jobs and the current job's stems so far. */
  function FirstOf(done: seq<Job>, es: seq<TrackPath>, name: string): Option<string> {
    OrElse(FirstPath(done, name), FirstIn(es, name))
  }

  /**
   * The entry of `completedTracks` for instrument `k` names its first stem
   * file, and that file holds the instrument's stem so far.
   */
  predicate CompAt(a: Acc, done: seq<Job>, es: seq<TrackPath>, s0: Store, k: nat)
    requires |a.comp| == 4 && k < 4
  {
    match FirstOf(done, es, NameAt(k))
    case None => a.comp[k] == ""
    case Some(p) =>
      a.comp[k] == p && p in a.files &&
      a.files[p] == Stem(done, NameAt(k), s0) + ChunkAudio(es, NameAt(k), s0)
  }

  /** Files the run has not touched are as they were. */
  predicate Untouched(a: Acc, t: set<string>, s0: Store) {
    && (forall q | q in s0 && q !in t :: q in a.files && a.files[q] == s0[q])
    && (forall q | q in a.files && q !in t :: q in s0)
  }

  predicate Tracking(a: Acc, done: seq<Job>, es: seq<TrackPath>, s0: Store) {
    && |a.comp| == 4
    && "" !in Touched(done, es)
    && (forall k | 0 <= k < 4 :: CompAt(a, done, es, s0, k))
    && (forall k | 0 <= k < 4 && a.comp[k] != "" :: a.comp[k] in Touched(done, es))
    && (forall k, l | 0 <= k < 4 && 0 <= l < 4 && k != l && a.comp[k] != "" :: a.comp[k] != a.comp[l])
    && Untouched(a, Touched(done, es), s0)
  }

  lemma NameIndex(name: string, k: nat)
    requires IndexOfName(name) == Some(k)
    ensures k < 4 && NameAt(k) == name
    ensures forall l | 0 <= l < 4 && l != k :: NameAt(l) != name
  {
  }

  lemma {:induction false} FirstInPaths(es: seq<TrackPath>, name: string)
    ensures FirstIn(es, name).Some? ==> FirstIn(es, name).value in PathsOf(es)
  {
    if es != [] {
      FirstInPaths(es[..|es| - 1], name);
    }
  }

  lemma {:induction false} FirstPathPaths(jobs: seq<Job>, name: string)
    ensures FirstPath(jobs, name).Some? ==> FirstPath(jobs, name).value in JobPaths(jobs)
  {
    if jobs != [] {
      FirstPathPaths(jobs[..|jobs| - 1], name);
      FirstInPaths(EntriesOf(jobs[|jobs| - 1]), name);
    }
  }

  /** How one more stem file of the current job extends the first paths, the stems and the touched paths. */
  lemma ExtendEntries(done: seq<Job>, es: seq<TrackPath>, e: TrackPath, name: string, s0: Store)
    ensures FirstOf(done, es + [e], name) ==
      if FirstOf(done, es, name).Some? then FirstOf(done, es, name)
      else if e.name == name then Some(e.track) else None
    ensures ChunkAudio(es + [e], name, s0) == ChunkAudio(es, name, s0) + (if e.name == name then Lookup(s0, e.track) else [])
    ensures Touched(done, es + [e]) == Touched(done, es) + {e.track}
  {
    assert (es + [e])[..|es|] == es;
  }

  /** Appending stem `e` to the file `a.comp[k]` keeps instrument `l`'s entry right. */
  lemma {:induction false} AppendCompAt(a: Acc, b: Acc, done: seq<Job>, es: seq<TrackPath>, e: TrackPath, s0: Store, k: nat, l: nat)
    requires Tracking(a, done, es, s0)
    requires e.track != "" && e.track !in Touched(done, es) && e.track in s0
    requires k < 4 && NameAt(k) == e.name && a.comp[k] != "" && l < 4
    requires b.comp == a.comp && a.comp[k] in a.files
    requires b.files == a.files[a.comp[k] := a.files[a.comp[k]] + s0[e.track]] - {e.track}
    ensures CompAt(b, done, es + [e], s0, l)
  {
    ExtendEntries(done, es, e, NameAt(l), s0);
    assert CompAt(a, done, es, s0, l);
    assert CompAt(a, done, es, s0, k);
    if l != k && a.comp[l] != "" {
      assert a.comp[l] != a.comp[k];
    }
  }

  /** Appending stem `e` to the file `a.comp[k]` keeps the tracking facts. */
  lemma {:induction false} AppendTracks(a: Acc, b: Acc, done: seq<Job>, es: seq<TrackPath>, e: TrackPath, s0: Store, k: nat)
    requires Tracking(a, done, es, s0)
    requires e.track != "" && e.track !in Touched(done, es) && e.track in s0
    requires k < 4 && NameAt(k) == e.name && a.comp[k] != ""
    requires b.comp == a.comp && a.comp[k] in a.files
    requires b.files == a.files[a.comp[k] := a.files[a.comp[k]] + s0[e.track]] - {e.track}
    ensures Tracking(b, done, es + [e], s0)
  {
    forall l | 0 <= l < 4 ensures CompAt(b, done, es + [e], s0, l) {
      AppendCompAt(a, b, done, es, e, s0, k, l);
    }
    ExtendEntries(done, es, e, e.name, s0);
  }

  /** A stem whose instrument already has a file: it is appended to that file and its own file removed. */
  lemma {:induction false} AppendCase(a: Acc, done: seq<Job>, es: seq<TrackPath>, e: TrackPath, requested: set<string>, s0: Store, k: nat)
    requires Tracking(a, done, es, s0) && a.layers == Layers(es, requested, s0)
    requires e.track != "" && e.track !in Touched(done, es) && e.track in s0
    requires IndexOfName(e.name) == Some(k) && k < 4 && a.comp[k] != ""
    ensures var r := TrackStep(Run(a, None), e, requested);
      && r.failure.None?
      && Tracking(r.acc, done, es + [e], s0)
      && r.acc.layers == Layers(es + [e], requested, s0)
      && r.acc.finished == a.finished
  {
    assert CompAt(a, done, es, s0, k);
    assert (es + [e])[..|es|] == es;
    var r := TrackStep(Run(a, None), e, requested);
    AppendTracks(a, r.acc, done, es, e, s0, k);
  }

  /** Making stem `e` the file of instrument `k` keeps instrument `l`'s entry right. */
  lemma {:induction false} FirstCompAt(a: Acc, b: Acc, done: seq<Job>, es: seq<TrackPath>, e: TrackPath, s0: Store, k: nat, l: nat)
    requires Tracking(a, done, es, s0)
    requires e.track != "" && e.track !in Touched(done, es) && e.track in s0
    requires k < 4 && NameAt(k) == e.name && a.comp[k] == "" && l < 4
    requires forall m | 0 <= m < 4 && m != k :: NameAt(m) != e.name
    requires b.files == a.files && b.comp == a.comp[k := e.track]
    ensures CompAt(b, done, es + [e], s0, l)
  {
    ExtendEntries(done, es, e, NameAt(l), s0);
    assert CompAt(a, done, es, s0, l);
    if l == k {
      assert CompAt(a, done, es, s0, k);
      FirstPathPaths(done, e.name);
      FirstInPaths(es, e.name);
      assert FirstOf(done, es, e.name).None?;
      NoFirstNoStem(done, e.name, s0);
      NoFirstNoChunks(es, e.name, s0);
    }
  }

  /** Making stem `e` the file of instrument `k` keeps the tracking facts. */
  lemma {:induction false} FirstTracks(a: Acc, b: Acc, done: seq<Job>, es: seq<TrackPath>, e: TrackPath, s0: Store, k: nat)
    requires Tracking(a, done, es, s0)
    requires e.track != "" && e.track !in Touched(done, es) && e.track in s0
    requires k < 4 && NameAt(k) == e.name && a.comp[k] == ""
    requires forall m | 0 <= m < 4 && m != k :: NameAt(m) != e.name
    requires b.files == a.files && b.comp == a.comp[k := e.track]
    ensures Tracking(b, done, es + [e], s0)
  {
    forall l | 0 <= l < 4 ensures CompAt(b, done, es + [e], s0, l) {
      FirstCompAt(a, b, done, es, e, s0, k, l);
    }
    ExtendEntries(done, es, e, e.name, s0);
  }

  /** The first stem of an instrument: its file becomes the instrument's file. */
  lemma {:induction false} FirstCase(a: Acc, done: seq<Job>, es: seq<TrackPath>, e: TrackPath, requested: set<string>, s0: Store, k: nat)
    requires Tracking(a, done, es, s0) && a.layers == Layers(es, requested, s0)
    requires e.track != "" && e.track !in Touched(done, es) && e.track in s0
    requires IndexOfName(e.name) == Some(k) && k < 4 && a.comp[k] == ""
    ensures var r := TrackStep(Run(a, None), e, requested);
      && r.failure.None?
      && Tracking(r.acc, done, es + [e], s0)
      && r.acc.layers == Layers(es + [e], requested, s0)
      && r.acc.finished == a.finished
  {
    NameIndex(e.name, k);
    assert (es + [e])[..|es|] == es;
    var r := TrackStep(Run(a, None), e, requested);
    FirstTracks(a, r.acc, done, es, e, s0, k);
  }

  /**
   * One stem file placed apart from everything touched so far: the step
   * fails exactly when the file is missing or its name is not an
   * instrument's, and otherwise keeps the tracking facts.
   */
  lemma {:induction false} TrackStepTracks(a: Acc, done: seq<Job>, es: seq<TrackPath>, e: TrackPath, requested: set<string>, s0: Store)
    requires Tracking(a, done, es, s0) && a.layers == Layers(es, requested, s0)
    requires e.track != "" && e.track !in Touched(done, es)
    ensures var r := TrackStep(Run(a, None), e, requested);
      && (r.failure.None? <==> e.track in s0 && IsInstrumentName(e.name))
      && (r.failure.None? ==>
            Tracking(r.acc, done, es + [e], s0) && r.acc.layers == Layers(es + [e], requested, s0) && r.acc.finished == a.finished)
  {
    assert e.track in a.files <==> e.track in s0;
    if e.track in s0 && IsInstrumentName(e.name) {
      var k := IndexOfName(e.name).value;
      NameIndex(e.name, k);
      if a.comp[k] != "" {
        AppendCase(a, done, es, e, requested, s0, k);
      } else {
        FirstCase(a, done, es, e, requested, s0, k);
      }
    }
  }

  /** The stem files of one job, placed apart: the job's run fails exactly when one of them is unreadable. */
  lemma {:induction false} EntriesRunTracks(a0: Acc, done: seq<Job>, es: seq<TrackPath>, requested: set<string>, s0: Store)
    requires Tracking(a0, done, [], s0) && a0.layers == []
    requires EntriesPlaced(JobPaths(done), es)
    ensures var r := EntriesRun(Run(a0, None), es, requested);
      && (r.failure.None? <==> EntriesReadable(es, s0))
      && (r.failure.None? ==>
            Tracking(r.acc, done, es, s0) && r.acc.layers == Layers(es, requested, s0) && r.acc.finished == a0.finished)
  {
    if es != [] {
      var init := es[..|es| - 1];
      var e := es[|es| - 1];
      assert es == init + [e];
      EntriesRunTracks(a0, done, init, requested, s0);
      var r0 := EntriesRun(Run(a0, None), init, requested);
      if r0.failure.None? {
        TrackStepTracks(r0.acc, done, init, e, requested, s0);
      }
    }
  }

  /** Closing a job: its stem files join the finished jobs. */
  lemma CloseJob(done: seq<Job>, job: Job, name: string, s0: Store)
    ensures FirstOf(done + [job], [], name) == FirstOf(done, EntriesOf(job), name)
    ensures Stem(done + [job], name, s0) + ChunkAudio([], name, s0) == Stem(done, name, s0) + ChunkAudio(EntriesOf(job), name, s0)
    ensures Touched(done + [job], []) == Touched(done, EntriesOf(job))
  {
    assert (done + [job])[..|done|] == done;
  }

  lemma StartTracks(s0: Store)
    ensures Tracking(Start(s0).acc, [], [], s0)
  {
    var a := Start(s0).acc;
    forall k | 0 <= k < 4 ensures CompAt(a, [], [], s0, k) {
    }
  }

  /** One job whose stem files are placed apart: it fails exactly when it has no stem list or one of them is unreadable. */
  lemma {:induction false} JobStepTracks(a: Acc, done: seq<Job>, job: Job, s0: Store)
    requires Tracking(a, done, [], s0)
    requires EntriesPlaced(JobPaths(done), EntriesOf(job))
    ensures var r := JobStep(Run(a, None), job);
      && (r.failure.None? <==> job.tracksPath.Some? && EntriesReadable(job.tracksPath.value, s0))
      && (r.failure.None? ==>
            && Tracking(r.acc, done + [job], [], s0)
            && r.acc.finished == a.finished + Layers(EntriesOf(job), RequestedNames(job.trackIds), s0))
  {
    if job.tracksPath.Some? {
      var a0 := a.(layers := []);
      var es := job.tracksPath.value;
      var requested := RequestedNames(job.trackIds);
      forall k | 0 <= k < 4 ensures CompAt(a0, done, [], s0, k) {
        assert CompAt(a, done, [], s0, k);
      }
      EntriesRunTracks(a0, done, es, requested, s0);
      var r1 := EntriesRun(Run(a0, None), es, requested);
      if r1.failure.None? {
        var b := r1.acc.(finished := r1.acc.finished + r1.acc.layers);
        forall k | 0 <= k < 4 ensures CompAt(b, done + [job], [], s0, k) {
          CloseJob(done, job, NameAt(k), s0);
          assert CompAt(r1.acc, done, es, s0, k);
        }
        CloseJob(done, job, "", s0);
      }
    }
  }

  /**
   * The whole run over jobs whose stem files are placed apart: it fails
   * exactly when some job is unreadable; otherwise `completedTracks` names
   * each instrument's first stem file, that file holds the instrument's full
   * stem, and the mix is the concatenation of every job's layers.
   */
  lemma {:induction false} JobsRunTracks(jobs: seq<Job>, s0: Store)
    requires JobsPlaced(jobs)
    ensures var r := JobsRun(Start(s0), jobs);
      && (r.failure.None? <==> Readable(jobs, s0))
      && (r.failure.None? ==> Tracking(r.acc, jobs, [], s0) && r.acc.finished == Mix(jobs, s0))
  {
    if jobs == [] {
      StartTracks(s0);
    } else {
      var init := jobs[..|jobs| - 1];
      var job := jobs[|jobs| - 1];
      assert jobs == init + [job];
      JobsRunTracks(init, s0);
      var r0 := JobsRun(Start(s0), init);
      if r0.failure.None? {
        JobStepTracks(r0.acc, init, job, s0);
      }
    }
  }

  /**
   * `assemble_result` on an item whose stem files are placed apart: it
   * succeeds exactly when every job's stem files are recorded and readable.
   * Then every instrument's link names the file of its first window stem,
   * which holds the instrument's full-length stem, the final mix is written
   * and linked, and no other file outside the stems changes.
   */
  lemma {:induction false} AssembleCorrect(m: Music, s0: Store)
    requires Placed(m.jobs, FinalPathOf(m))
    ensures var (files, r) := AssembleOutcome(m, s0);
      && (r.Success? <==> Readable(m.jobs, s0))
      && (r.Success? ==>
            && r.value.progress == 100
            && r.value.final == Link(FinalPathOf(m))
            && FinalPathOf(m) in files && files[FinalPathOf(m)] == Mix(m.jobs, s0)
            && |r.value.instruments| == 4
            && (forall k | 0 <= k < 4 :: r.value.instruments[k].name == NameAt(k))
            && (forall k | 0 <= k < 4 && FirstPath(m.jobs, NameAt(k)).None? ::
                  r.value.instruments[k].track == Link(""))
            && (forall k | 0 <= k < 4 && FirstPath(m.jobs, NameAt(k)).Some? ::
                  var p := FirstPath(m.jobs, NameAt(k)).value;
                  r.value.instruments[k].track == Link(p) && p in files && files[p] == Stem(m.jobs, NameAt(k), s0))
            && (forall q | q in s0 && q !in JobPaths(m.jobs) && q != FinalPathOf(m) :: q in files && files[q] == s0[q]))
  {
    JobsRunTracks(m.jobs, s0);
    var r := JobsRun(Start(s0), m.jobs);
    if r.failure.None? {
      var fin := FinalPathOf(m);
      var files := r.acc.files[fin := r.acc.finished];
      var res := ResultsOf(r.acc.comp, fin);
      forall k | 0 <= k < 4
        ensures res.instruments[k].name == NameAt(k)
        ensures FirstPath(m.jobs, NameAt(k)).None? ==> res.instruments[k].track == Link("")
        ensures FirstPath(m.jobs, NameAt(k)).Some? ==>
          var p := FirstPath(m.jobs, NameAt(k)).value;
          res.instruments[k].track == Link(p) && p in files && files[p] == Stem(m.jobs, NameAt(k), s0)
      {
        assert CompAt(r.acc, m.jobs, [], s0, k);
        assert FirstOf(m.jobs, [], NameAt(k)) == FirstPath(m.jobs, NameAt(k));
        FirstPathPaths(m.jobs, NameAt(k));
      }
    }
  }
}
