/**
 * What assembly and remixing produce, stated over the job list and the
 * file store as it was when they started: full-length stems built from the
 * window stems in job order, the final mix built window by window, and the
 * remix built on silence from the full-length stems.
 */
module Assembly {
  import opened Wrappers
  import opened Audio
  import opened Instruments
  import opened Records

  /** The file store: file path to the audio it holds. */
  type Store = map<string, Audio>

  /** `AudioSegment.from_file(path)` for a file that exists; empty audio otherwise. */
  function Lookup(store: Store, path: string): Audio {
    if path in store then store[path] else []
  }

  /** A job's stem files, `job["tracksPath"]`; none before a result has arrived. */
  function EntriesOf(job: Job): seq<TrackPath> {
    job.tracksPath.GetOr([])
  }

  /** The audio of the entries named `name`, concatenated in order. */
  function ChunkAudio(es: seq<TrackPath>, name: string, store: Store): Audio {
    if es == [] then []
    else
      var last := es[|es| - 1];
      ChunkAudio(es[..|es| - 1], name, store) + (if last.name == name then Lookup(store, last.track) else [])
  }

  /** The full-length stem of one instrument: its window stems, jobs in order. */
  function Stem(jobs: seq<Job>, name: string, store: Store): Audio {
    if jobs == [] then []
    else Stem(jobs[..|jobs| - 1], name, store) + ChunkAudio(EntriesOf(jobs[|jobs| - 1]), name, store)
  }

  function OrElse(a: Option<string>, b: Option<string>): Option<string> {
    if a.Some? then a else b
  }

  /** The path of the first entry named `name`. */
  function FirstIn(es: seq<TrackPath>, name: string): Option<string> {
    if es == [] then None
    else
      var last := es[|es| - 1];
      OrElse(FirstIn(es[..|es| - 1], name), if last.name == name then Some(last.track) else None)
  }

  /** The path of the first window stem of an instrument, jobs in order: where its full stem is accumulated. */
  function FirstPath(jobs: seq<Job>, name: string): Option<string> {
    if jobs == [] then None
    else OrElse(FirstPath(jobs[..|jobs| - 1], name), FirstIn(EntriesOf(jobs[|jobs| - 1]), name))
  }

  /** One step of a job's `layers`: the first requested stem is appended to the empty layer, later ones overlaid. */
  function LayerStep(layers: Audio, segment: Audio): (r: Audio)
    ensures |layers| > 0 ==> |r| == |layers|
    ensures |layers| == 0 ==> r == segment
  {
    if |layers| == 0 then layers + segment else Overlay(layers, segment)
  }

  /** The overlay of one job's requested stems. */
  function Layers(es: seq<TrackPath>, requested: set<string>, store: Store): Audio {
    if es == [] then []
    else
      var last := es[|es| - 1];
      var layers := Layers(es[..|es| - 1], requested, store);
      if last.name in requested then LayerStep(layers, Lookup(store, last.track)) else layers
  }

  /** The final mix: every job's layers, concatenated in job order. */
  function Mix(jobs: seq<Job>, store: Store): Audio {
    if jobs == [] then []
    else
      var last := jobs[|jobs| - 1];
      Mix(jobs[..|jobs| - 1], store) + Layers(EntriesOf(last), RequestedNames(last.trackIds), store)
  }

  function PathsOf(es: seq<TrackPath>): set<string> {
    if es == [] then {} else PathsOf(es[..|es| - 1]) + {es[|es| - 1].track}
  }

  function JobPaths(jobs: seq<Job>): set<string> {
    if jobs == [] then {} else JobPaths(jobs[..|jobs| - 1]) + PathsOf(EntriesOf(jobs[|jobs| - 1]))
  }

  /** Every stem file is present and named after an instrument. */
  predicate EntriesReadable(es: seq<TrackPath>, store: Store) {
    es == [] ||
    (EntriesReadable(es[..|es| - 1], store) && es[|es| - 1].track in store && IsInstrumentName(es[|es| - 1].name))
  }

  /** Every job assembly reads has its stem files recorded, and all of them are readable. */
  predicate Readable(jobs: seq<Job>, store: Store) {
    jobs == [] ||
    (Readable(jobs[..|jobs| - 1], store) && jobs[|jobs| - 1].tracksPath.Some? &&
     EntriesReadable(jobs[|jobs| - 1].tracksPath.value, store))
  }

  /** Each stem file is a non-empty path different from every earlier one, those of `seen` included. */
  predicate EntriesPlaced(seen: set<string>, es: seq<TrackPath>) {
    es == [] ||
    (EntriesPlaced(seen, es[..|es| - 1]) &&
     es[|es| - 1].track != "" && es[|es| - 1].track !in seen + PathsOf(es[..|es| - 1]))
  }

  predicate JobsPlaced(jobs: seq<Job>) {
    jobs == [] ||
    (JobsPlaced(jobs[..|jobs| - 1]) && EntriesPlaced(JobPaths(jobs[..|jobs| - 1]), EntriesOf(jobs[|jobs| - 1])))
  }

  /**
   * The stem files of the jobs are non-empty paths, each different from every
   * earlier one and from the final-mix path: no file is both read as a window
   * stem and written or removed as another.
   */
  predicate Placed(jobs: seq<Job>, finalPath: string) {
    JobsPlaced(jobs) && finalPath !in JobPaths(jobs)
  }

  lemma {:induction false} NoFirstNoChunks(es: seq<TrackPath>, name: string, store: Store)
    requires FirstIn(es, name).None?
    ensures ChunkAudio(es, name, store) == []
  {
    if es != [] {
      NoFirstNoChunks(es[..|es| - 1], name, store);
    }
  }

  /** An instrument that no job has a stem for gets an empty stem. */
  lemma {:induction false} NoFirstNoStem(jobs: seq<Job>, name: string, store: Store)
    requires FirstPath(jobs, name).None?
    ensures Stem(jobs, name, store) == []
  {
    if jobs != [] {
      NoFirstNoStem(jobs[..|jobs| - 1], name, store);
      NoFirstNoChunks(EntriesOf(jobs[|jobs| - 1]), name, store);
    }
  }

  /**
   * When every job holds stems of the instrument as long as its window, the
   * full stem is as long as all the windows together.
   */
  lemma {:induction false} StemSpansWindows(jobs: seq<Job>, name: string, store: Store, windows: seq<Audio>)
    requires |jobs| == |windows|
    requires forall j | 0 <= j < |jobs| :: |ChunkAudio(EntriesOf(jobs[j]), name, store)| == |windows[j]|
    ensures |Stem(jobs, name, store)| == |Flatten(windows)|
  {
    if jobs != [] {
      StemSpansWindows(jobs[..|jobs| - 1], name, store, windows[..|windows| - 1]);
    }
  }

  predicate AnyRequested(es: seq<TrackPath>, requested: set<string>) {
    exists t | 0 <= t < |es| :: es[t].name in requested
  }

  /**
   * When every requested stem of a window has the window's length, the
   * window's layers have that length, or none when nothing was requested.
   */
  lemma {:induction false} LayersLength(es: seq<TrackPath>, requested: set<string>, store: Store, len: nat)
    requires len > 0
    requires forall t | 0 <= t < |es| && es[t].name in requested :: |Lookup(store, es[t].track)| == len
    ensures |Layers(es, requested, store)| == if AnyRequested(es, requested) then len else 0
  {
    if es != [] {
      var init := es[..|es| - 1];
      LayersLength(init, requested, store, len);
      assert AnyRequested(es, requested) <==> AnyRequested(init, requested) || es[|es| - 1].name in requested by {
        if AnyRequested(init, requested) {
          var t :| 0 <= t < |init| && init[t].name in requested;
          assert es[t] == init[t];
        }
      }
    }
  }

  /**
   * When every job requests an instrument it holds a stem for, and every
   * requested stem has its window's length, the final mix is as long as all
   * the windows together.
   */
  lemma {:induction false} MixSpansWindows(jobs: seq<Job>, store: Store, windows: seq<Audio>)
    requires |jobs| == |windows|
    requires forall j | 0 <= j < |jobs| :: |windows[j]| > 0 && AnyRequested(EntriesOf(jobs[j]), RequestedNames(jobs[j].trackIds))
    requires forall j, t | 0 <= j < |jobs| && 0 <= t < |EntriesOf(jobs[j])| && EntriesOf(jobs[j])[t].name in RequestedNames(jobs[j].trackIds) ::
      |Lookup(store, EntriesOf(jobs[j])[t].track)| == |windows[j]|
    ensures |Mix(jobs, store)| == |Flatten(windows)|
  {
    if jobs != [] {
      var n := |jobs| - 1;
      MixSpansWindows(jobs[..n], store, windows[..n]);
      LayersLength(EntriesOf(jobs[n]), RequestedNames(jobs[n].trackIds), store, |windows[n]|);
    }
  }

  /**
   * A remix: starting from silence, overlay the stored full-length stem of
   * every result instrument whose name was requested, in the order of the
   * result's instrument list. The mix keeps the length of the silence.
   */
  function RemixMix(base: Audio, instruments: seq<TrackPath>, names: set<string>, store: Store): (r: Audio)
    ensures |r| == |base|
  {
    if instruments == [] then base
    else
      var last := instruments[|instruments| - 1];
      var acc := RemixMix(base, instruments[..|instruments| - 1], names, store);
      if last.name in names then Overlay(acc, Lookup(store, LocalPath(last.track))) else acc
  }

  /** A requested stem of a result whose file is not in the store. */
  predicate StemMissing(instrument: TrackPath, names: set<string>, store: Store) {
    instrument.name in names && LocalPath(instrument.track) !in store
  }

  /** Every requested stem of a result is present in the store. */
  predicate RemixReadable(instruments: seq<TrackPath>, names: set<string>, store: Store) {
    instruments == [] ||
    (RemixReadable(instruments[..|instruments| - 1], names, store) && !StemMissing(instruments[|instruments| - 1], names, store))
  }

  /**
   * Requesting exactly one of the result's instruments, whose stem is as long
   * as the previous final mix, gives that stem back unchanged.
   */
  lemma {:induction false} RemixOfOneStem(instruments: seq<TrackPath>, names: set<string>, store: Store, q: nat)
    requires q < |instruments| && instruments[q].name in names
    requires forall k | 0 <= k < |instruments| && k != q :: instruments[k].name !in names
    ensures RemixMix(Silent(|Lookup(store, LocalPath(instruments[q].track))|), instruments, names, store)
         == Lookup(store, LocalPath(instruments[q].track))
  {
    var stem := Lookup(store, LocalPath(instruments[q].track));
    var base := Silent(|stem|);
    var n := |instruments| - 1;
    if q == n {
      assert RemixMix(base, instruments[..n], names, store) == base by {
        RemixSkipsUnrequested(base, instruments[..n], names, store);
      }
      OverlayOnSilence(stem);
    } else {
      RemixOfOneStem(instruments[..n], names, store, q);
    }
  }

  /** Instruments that were not requested contribute nothing. */
  lemma {:induction false} RemixSkipsUnrequested(base: Audio, instruments: seq<TrackPath>, names: set<string>, store: Store)
    requires forall k | 0 <= k < |instruments| :: instruments[k].name !in names
    ensures RemixMix(base, instruments, names, store) == base
  {
    if instruments != [] {
      RemixSkipsUnrequested(base, instruments[..|instruments| - 1], names, store);
    }
  }
}
