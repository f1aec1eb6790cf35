/**
 * What `process` does to one item, as a function of the item, the requested
 * instruments and the files: the split of an upload into jobs and worker
 * messages, and the remix of an item that already has results.
 */
module Processing {
  import opened Wrappers
  import opened Text
  import opened Audio
  import opened Instruments
  import opened Records
  import opened Registry
  import opened Assembly

  /** What `process` returns: the item with its new jobs, or the results of a remix. */
  datatype ProcessReply = Item(music: Music) | Remixed(results: Results)

  /**
   * The effect of `process` on one item: the item afterwards, the reply, the
   * files afterwards, the remix counter afterwards and the messages published.
   */
  datatype Outcome = Outcome(
    item: Music,
    reply: Result<ProcessReply, Failure>,
    files: Store,
    repeat: nat,
    published: seq<JobMessage>)

  /** The membership test `process` applies to the requested instrument values. */
  predicate AllInstruments(requested: seq<int>) {
    forall k | 0 <= k < |requested| :: 1 <= requested[k] <= 4
  }

  function AsIds(requested: seq<int>): (r: seq<InstrumentId>)
    requires AllInstruments(requested)
    ensures |r| == |requested| && forall k | 0 <= k < |r| :: r[k] == requested[k]
  {
    seq(|requested|, k requires 0 <= k < |requested| => requested[k] as InstrumentId)
  }

  /** `len(chunk.raw_data)`: whole frames of the window times the bytes per frame. */
  function RawSize(d: Decoded, ms: nat): nat {
    (ms * d.frameRate / 1000) * d.sampleWidth * d.channels
  }

  /** The jobs `process` appends, one per window, numbered from `firstId`. */
  function NewJobs(musicId: nat, firstId: nat, d: Decoded, ids: seq<InstrumentId>, windows: seq<Audio>): seq<Job> {
    seq(|windows|, k requires 0 <= k < |windows| =>
      Job(musicId, firstId + k, 0, RawSize(d, |windows[k]|), |windows[k]| / 1000, ids, None))
  }

  /** The messages `process` publishes, one per window, numbered as the jobs. */
  function NewMessages(musicId: nat, firstId: nat, d: Decoded, format: string, windows: seq<Audio>): seq<JobMessage> {
    seq(|windows|, k requires 0 <= k < |windows| =>
      JobMessage(musicId, firstId + k, d.sampleWidth, d.frameRate, d.channels, format, windows[k]))
  }

  function Payloads(msgs: seq<JobMessage>): seq<Audio> {
    seq(|msgs|, k requires 0 <= k < |msgs| => msgs[k].data)
  }

  /**
   * The windows `process` hands out cover the upload exactly, in order, each
   * non-empty and at most six seconds long; job k and message k carry the
   * same ids, and the job's `time` is at most six.
   */
  lemma {:induction false} ProcessCoversUpload(musicId: nat, firstId: nat, d: Decoded, ids: seq<InstrumentId>, format: string)
    ensures var windows := MakeChunks(d.audio, ChunkSize);
      var jobs := NewJobs(musicId, firstId, d, ids, windows);
      var msgs := NewMessages(musicId, firstId, d, format, windows);
      && |jobs| == |msgs| == CeilDiv(|d.audio|, ChunkSize)
      && Flatten(Payloads(msgs)) == d.audio
      && (forall k | 0 <= k < |msgs| :: 0 < |msgs[k].data| <= ChunkSize && jobs[k].time <= 6)
      && (forall k | 0 <= k < |jobs| ::
            jobs[k].jobId == msgs[k].jobId == firstId + k && jobs[k].musicId == msgs[k].musicId == musicId)
      && (forall k | 0 <= k < |jobs| :: jobs[k].status == 0 && jobs[k].trackIds == ids && jobs[k].tracksPath.None?)
  {
    var windows := MakeChunks(d.audio, ChunkSize);
    var msgs := NewMessages(musicId, firstId, d, format, windows);
    ChunksReassemble(d.audio, ChunkSize);
    assert Payloads(msgs) == windows;
  }

  /**
   * The split branch of `process`: decode the upload, or fail when it is
   * missing or undecodable; otherwise append one pending job per window and
   * publish one message per window.
   */
  function SplitOutcome(item: Music, ids: seq<InstrumentId>, files: Store, repeat: nat, jobID: nat,
                        decode: seq<int> -> Option<Decoded>): (o: Outcome)
    ensures o.files == files && o.repeat == repeat
    ensures o.item.musicId == item.musicId && o.item.results == item.results
    ensures |item.jobs| <= |o.item.jobs| && o.item.jobs[..|item.jobs|] == item.jobs
    ensures |o.published| == |o.item.jobs| - |item.jobs|
    ensures o.reply.Success? <==> UploadPath(item.musicId) in files && decode(files[UploadPath(item.musicId)]).Some?
    ensures o.reply.Success? ==> o.reply == Success(Item(o.item))
    ensures o.reply.Success? ==>
      var d := decode(files[UploadPath(item.musicId)]).value;
      var windows := MakeChunks(d.audio, ChunkSize);
      && o.item.jobs == item.jobs + NewJobs(item.musicId, jobID, d, ids, windows)
      && o.published == NewMessages(item.musicId, jobID, d, SplitExtension(item.name), windows)
    ensures o.reply.Failure? ==> o.reply.error.Crash? && o.item == item && o.published == []
  {
    var upload := UploadPath(item.musicId);
    if upload !in files || decode(files[upload]).None? then
      Outcome(item, Failure(Crash("upload cannot be decoded")), files, repeat, [])
    else
      var d := decode(files[upload]).value;
      var windows := MakeChunks(d.audio, ChunkSize);
      var split := item.(jobs := item.jobs + NewJobs(item.musicId, jobID, d, ids, windows));
      assert split.jobs[..|item.jobs|] == item.jobs;
      Outcome(split, Success(Item(split)), files, repeat,
        NewMessages(item.musicId, jobID, d, SplitExtension(item.name), windows))
  }

  /** The stem links of a result with the first `n` rewritten as a remix rewrites them. */
  function RelinkUpTo(ins: seq<TrackPath>, n: nat): (r: seq<TrackPath>)
    ensures |r| == |ins|
    ensures forall k | 0 <= k < |ins| :: r[k].name == ins[k].name
  {
    seq(|ins|, k requires 0 <= k < |ins| =>
      if k < n then TrackPath(ins[k].name, Relink(ins[k].track)) else ins[k])
  }

  /** A second remix rewrites the links to what the first left. */
  lemma {:induction false} RelinkUpToIdempotent(ins: seq<TrackPath>)
    ensures RelinkUpTo(RelinkUpTo(ins, |ins|), |ins|) == RelinkUpTo(ins, |ins|)
  {
    forall k | 0 <= k < |ins|
      ensures RelinkUpTo(RelinkUpTo(ins, |ins|), |ins|)[k] == RelinkUpTo(ins, |ins|)[k]
    {
      RelinkIdempotent(ins[k].track);
    }
  }

  /** Where a remix stops: the first requested stem whose file is missing. */
  function FirstMissing(ins: seq<TrackPath>, names: set<string>, files: Store): (r: Option<nat>)
    ensures r.Some? ==> r.value < |ins| && StemMissing(ins[r.value], names, files)
    ensures r.Some? ==> RemixReadable(ins[..r.value], names, files)
    ensures r.None? <==> RemixReadable(ins, names, files)
  {
    if ins == [] then None
    else
      var n := |ins| - 1;
      match FirstMissing(ins[..n], names, files)
      case Some(q) =>
        assert ins[..n][..q] == ins[..q];
        Some(q)
      case None => if StemMissing(ins[n], names, files) then Some(n) else None
  }

  /** The first missing stem is the one every stem before it is readable. */
  lemma {:induction false} FirstMissingAt(ins: seq<TrackPath>, names: set<string>, files: Store, k: nat)
    requires k < |ins| && RemixReadable(ins[..k], names, files) && StemMissing(ins[k], names, files)
    ensures FirstMissing(ins, names, files) == Some(k)
  {
    var n := |ins| - 1;
    if k < n {
      assert ins[..n][..k] == ins[..k];
      FirstMissingAt(ins[..n], names, files, k);
    } else {
      assert ins[..n] == ins[..k];
    }
  }

  /**
   * The remix branch of `process`: read the previous final mix for its
   * length, overlay the stems of the requested instruments on silence of
   * that length, rewriting every stem link on the way, and write the mix
   * under a name numbered by the remix counter. A missing file ends the
   * request where it is read, with the links rewritten so far kept.
   */
  function RemixOutcome(item: Music, ids: seq<InstrumentId>, files: Store, repeat: nat): (o: Outcome)
    requires item.results.Some?
    ensures o.item.musicId == item.musicId && o.item.jobs == item.jobs && o.item.results.Some?
    ensures o.item.name == item.name && o.published == []
    ensures o.reply.Success? ==> o.reply == Success(Remixed(o.item.results.value)) && o.repeat == repeat + 1
    ensures o.reply.Failure? ==> o.reply.error.Crash? && o.files == files && o.repeat == repeat
  {
    var res := item.results.value;
    var names := RequestedNames(ids);
    var previous := LocalPath(res.final);
    if previous !in files then
      Outcome(item, Failure(Crash("previous final mix not found")), files, repeat, [])
    else
      match FirstMissing(res.instruments, names, files)
      case Some(q) =>
        Outcome(item.(results := Some(res.(instruments := RelinkUpTo(res.instruments, q)))),
          Failure(Crash("stem file not found")), files, repeat, [])
      case None =>
        var path := RemixPath(repeat, item.musicId, AfterLast(item.name, '.'));
        var remixed := Results(res.progress, Link(path), RelinkUpTo(res.instruments, |res.instruments|));
        Outcome(item.(results := Some(remixed)), Success(Remixed(remixed)),
          files[path := RemixMix(Silent(|files[previous]|), res.instruments, names, files)], repeat + 1, [])
  }

  /**
   * A remix succeeds exactly when the previous final mix and every requested
   * stem can be read. It then publishes a new final link, rewrites every stem
   * link, adds one file, and that file is as long as the previous final mix.
   */
  lemma RemixResult(item: Music, ids: seq<InstrumentId>, files: Store, repeat: nat)
    requires item.results.Some?
    ensures var o := RemixOutcome(item, ids, files, repeat);
      var res := item.results.value;
      o.reply.Success? <==> LocalPath(res.final) in files && RemixReadable(res.instruments, RequestedNames(ids), files)
    ensures var o := RemixOutcome(item, ids, files, repeat);
      var res := item.results.value;
      var path := RemixPath(repeat, item.musicId, AfterLast(item.name, '.'));
      o.reply.Success? ==>
        && o.item.results.value.final == Link(path)
        && o.item.results.value.instruments == RelinkUpTo(res.instruments, |res.instruments|)
        && o.files.Keys == files.Keys + {path}
        && |o.files[path]| == |files[LocalPath(res.final)]|
        && o.files[path] == RemixMix(Silent(|files[LocalPath(res.final)]|), res.instruments, RequestedNames(ids), files)
        && (forall q | q in files && q != path :: o.files[q] == files[q])
  {
  }

  /**
   * Remixing twice in a row publishes two different final links, and the
   * second remix leaves the stem links as the first left them.
   */
  lemma {:induction false} RemixTwice(item: Music, ids1: seq<InstrumentId>, ids2: seq<InstrumentId>, files: Store, repeat: nat,
                                      o1: Outcome, o2: Outcome)
    requires item.results.Some?
    requires o1 == RemixOutcome(item, ids1, files, repeat) && o1.reply.Success?
    requires o2 == RemixOutcome(o1.item, ids2, o1.files, o1.repeat) && o2.reply.Success?
    ensures o2.item.results.value.final != o1.item.results.value.final
    ensures o2.item.results.value.instruments == o1.item.results.value.instruments
    ensures o2.repeat == repeat + 2
  {
    RemixResult(item, ids1, files, repeat);
    RemixResult(o1.item, ids2, o1.files, o1.repeat);
    RemixLinksDistinct(repeat, item.musicId, AfterLast(item.name, '.'));
    RelinkUpToIdempotent(item.results.value.instruments);
  }

  /** Consecutive remixes of an item publish different download links. */
  lemma RemixLinksDistinct(repeat: nat, musicId: nat, ext: string)
    ensures Link(RemixPath(repeat, musicId, ext)) != Link(RemixPath(repeat + 1, musicId, ext))
  {
    RemixPathsDistinct(repeat, musicId, ext, repeat + 1, musicId, ext);
    LinkInjective(RemixPath(repeat, musicId, ext), RemixPath(repeat + 1, musicId, ext));
  }

  lemma LinkInjective(a: string, b: string)
    requires |a| > 0 && |b| > 0 && a[0] == b[0]
    requires a != b
    ensures Link(a) != Link(b)
  {
    assert Link(a)[|HostAddr|..] == a[1..];
    assert Link(b)[|HostAddr|..] == b[1..];
    assert a == [a[0]] + a[1..];
    assert b == [b[0]] + b[1..];
  }

  /**
   * What `process` does to a found item once the instrument values have
   * passed the catalogue test: record the start time, then remix or split.
   */
  function ProcessOutcome(item: Music, ids: seq<InstrumentId>, now: int, files: Store, repeat: nat, jobID: nat,
                          decode: seq<int> -> Option<Decoded>): (o: Outcome)
    ensures o.item.musicId == item.musicId && o.item.processStart == Some(now)
    ensures item.results.Some? ==> o.item.jobs == item.jobs && o.published == []
    ensures item.results.None? ==> o.files == files && o.repeat == repeat
  {
    var started := item.(processStart := Some(now));
    if started.results.Some? then RemixOutcome(started, ids, files, repeat)
    else SplitOutcome(started, ids, files, repeat, jobID, decode)
  }

  /** A split adds only pending jobs of the item, so the item stays valid. */
  lemma SplitKeepsValid(item: Music, ids: seq<InstrumentId>, files: Store, repeat: nat, jobID: nat,
                        decode: seq<int> -> Option<Decoded>)
    requires ItemValid(item) && item.results.None?
    ensures ItemValid(SplitOutcome(item, ids, files, repeat, jobID, decode).item)
  {
  }

  /** A remix touches only the results of an item that already had them, so the item stays valid. */
  lemma RemixKeepsValid(item: Music, ids: seq<InstrumentId>, files: Store, repeat: nat)
    requires ItemValid(item) && item.results.Some?
    ensures ItemValid(RemixOutcome(item, ids, files, repeat).item)
  {
  }

  /** `process` keeps a valid item valid, whichever branch it takes. */
  lemma ProcessKeepsValid(item: Music, ids: seq<InstrumentId>, now: int, files: Store, repeat: nat, jobID: nat,
                          decode: seq<int> -> Option<Decoded>)
    requires ItemValid(item)
    ensures ItemValid(ProcessOutcome(item, ids, now, files, repeat, jobID, decode).item)
  {
    var started := item.(processStart := Some(now));
    if started.results.Some? {
      RemixKeepsValid(started, ids, files, repeat);
    } else {
      SplitKeepsValid(started, ids, files, repeat, jobID, decode);
    }
  }
}
