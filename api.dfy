/**
 * The registry `app` and its request handlers: `submit`, `listAll`,
 * `process`, `jobs`, `jobStat` and `reset`. The registry's lists and
 * counters are fields of `App` that the handlers update in place; the file
 * system under `./uploads` and `./download` is the `files` map; the job
 * queue is the `queue` of published messages.
 */
module Api {
  import opened Wrappers
  import opened Text
  import opened Audio
  import opened Instruments
  import opened Records
  import opened Registry
  import opened Queries
  import opened Assembly
  import opened Processing

  /** `os.listdir(dir)` entries that `reset` removes: plain files directly inside `dir`. */
  predicate DirectlyIn(path: string, dir: string) {
    InDir(path, dir) && |path| > |dir| + 1 && '/' !in path[|dir| + 1..]
  }

  predicate Cleared(path: string) {
    DirectlyIn(path, UploadDir) || DirectlyIn(path, ReturnedDir)
  }

  class App {
    /** `app.musics`: every submitted item, in submission order. */
    var musics: seq<Music>
    /** `app.jobID`: the id of the first job of the next split. */
    var jobID: nat
    /** `app.JobID`: the differently spelt attribute `reset` writes; absent until then. */
    var JobID: Option<nat>
    /** `app.repeat`: the number of remixes so far, part of each remix's file name. */
    var repeat: nat
    /** The files under the upload and download directories. */
    var files: Store
    /** Messages published on `job_queue`, oldest first. */
    var queue: seq<JobMessage>

    /** `hashlib.md5(data)`, as the integer its hex digest spells. */
    const md5: seq<int> -> nat
    /** `AudioSegment.from_file` on an upload: its format and audio, or None when it cannot be decoded. */
    const decode: seq<int> -> Option<Decoded>
    /** `eyed3.load(...).tag`: the tags of an upload, or None when it has none. */
    const readTags: seq<int> -> Option<Metadata>

    /** What the handlers and the result listener keep true of the registry. */
    ghost predicate Valid()
      reads this
    {
      ValidMusics(musics)
    }

    /** Start-up: an empty registry over the files already on disk. */
    constructor (md5: seq<int> -> nat, decode: seq<int> -> Option<Decoded>, readTags: seq<int> -> Option<Metadata>, files: Store)
      ensures Valid()
      ensures musics == [] && jobID == 0 && JobID == None && repeat == 0 && queue == []
      ensures this.files == files
      ensures this.md5 == md5 && this.decode == decode && this.readTags == readTags
    {
      this.md5 := md5;
      this.decode := decode;
      this.readTags := readTags;
      this.files := files;
      musics := [];
      jobID := 0;
      JobID := None;
      repeat := 0;
      queue := [];
    }

    /**
     * `submit`: store the upload under its checksum, return the item already
     * registered under that checksum, or register a new item with every
     * instrument in its catalogue; an upload without tags is "Invalid input".
     */
    method Submit(data: seq<int>, filename: string) returns (r: Result<Music, Failure>)
      requires Valid()
      modifies this
      ensures Valid()
      ensures var checksum := IntChecksum(md5(data));
        && files == old(files)[UploadPath(checksum) := data]
        && match FindMusic(old(musics), checksum)
           case Some(i) => r == Success(old(musics)[i]) && musics == old(musics)
           case None =>
             match readTags(data)
             case None => r == Failure(InvalidInput) && musics == old(musics)
             case Some(tags) =>
               var item := Music(checksum, filename, tags, CatalogTracks(), None, [], None);
               r == Success(item) && musics == old(musics) + [item]
      ensures jobID == old(jobID) && JobID == old(JobID) && repeat == old(repeat) && queue == old(queue)
    {
      var checksum := IntChecksum(md5(data));
      files := files[UploadPath(checksum) := data];
      var existing := FindMusic(musics, checksum);
      if existing.Some? {
        return Success(musics[existing.value]);
      }
      var tags := readTags(data);
      if tags.None? {
        return Failure(InvalidInput);
      }
      var item := Music(checksum, filename, tags.value, CatalogTracks(), None, [], None);
      ValidAfterAppend(musics, item);
      musics := musics + [item];
      r := Success(item);
    }

    /** `listAll`: the registry as stored, in submission order. */
    function ListAll(): (r: seq<Music>)
      reads this
      ensures |r| == |musics| && forall k | 0 <= k < |r| :: r[k] == musics[k]
    {
      musics
    }

    /**
     * `process`: unknown item or instrument values outside the catalogue are
     * refused before anything changes. Otherwise the start time is recorded
     * and, for an item that has results, its stems are remixed; for one that
     * has none, its upload is split into six-second windows, one job and one
     * published message per window.
     */
    method Process(musicId: int, requested: seq<int>, now: int) returns (r: Result<ProcessReply, Failure>)
      requires Valid()
      modifies this
      ensures Valid()
      ensures jobID == old(jobID) && JobID == old(JobID)
      ensures FindMusic(old(musics), musicId).None? ==> r == Failure(MusicNotFound) && unchanged(this)
      ensures FindMusic(old(musics), musicId).Some? && !AllInstruments(requested) ==>
        r == Failure(TrackNotFound) && unchanged(this)
      ensures FindMusic(old(musics), musicId).Some? && AllInstruments(requested) ==>
        var i := FindMusic(old(musics), musicId).value;
        var o := ProcessOutcome(old(musics)[i], AsIds(requested), now, old(files), old(repeat), old(jobID), decode);
        && r == o.reply
        && musics == old(musics)[i := o.item]
        && files == o.files && repeat == o.repeat && queue == old(queue) + o.published
      ensures FindMusic(old(musics), musicId).Some? ==> FindMusic(musics, musicId) == FindMusic(old(musics), musicId)
    {
      var found := FindMusic(musics, musicId);
      if found.None? {
        return Failure(MusicNotFound);
      }
      if !AllInstruments(requested) {
        return Failure(TrackNotFound);
      }
      r := Dispatch(found.value, AsIds(requested), now);
      FoundIsUnique(musics, musicId, found.value);
    }

    /**
     * `process` once the item at `i` is found and the request validated:
     * record the start time, then remix or split.
     */
    method Dispatch(i: nat, ids: seq<InstrumentId>, now: int) returns (r: Result<ProcessReply, Failure>)
      requires Valid() && i < |musics|
      modifies this
      ensures Valid()
      ensures jobID == old(jobID) && JobID == old(JobID)
      ensures var o := ProcessOutcome(old(musics)[i], ids, now, old(files), old(repeat), old(jobID), decode);
        && r == o.reply
        && musics == old(musics)[i := o.item]
        && files == o.files && repeat == o.repeat && queue == old(queue) + o.published
    {
      ghost var before := musics;
      ghost var o := ProcessOutcome(musics[i], ids, now, files, repeat, jobID, decode);
      ProcessKeepsValid(musics[i], ids, now, files, repeat, jobID, decode);
      var started := musics[i].(processStart := Some(now));
      musics := musics[i := started];
      if started.results.Some? {
        r := Remix(i, ids);
      } else {
        r := Split(i, ids);
      }
      assert musics == before[i := o.item];
      ValidAfterUpdate(before, i, o.item);
    }

    /** The remix branch of `process`, for the item at `i`. */
    method Remix(i: nat, ids: seq<InstrumentId>) returns (r: Result<ProcessReply, Failure>)
      requires i < |musics| && musics[i].results.Some?
      modifies this
      ensures jobID == old(jobID) && JobID == old(JobID) && queue == old(queue)
      ensures var o := RemixOutcome(old(musics)[i], ids, old(files), old(repeat));
        r == o.reply && musics == old(musics)[i := o.item] && files == o.files && repeat == o.repeat
    {
      var item := musics[i];
      var res := item.results.value;
      var names := RequestedNames(ids);
      var previous := LocalPath(res.final);
      if previous !in files {
        return Failure(Crash("previous final mix not found"));
      }
      var finished, missing := MixStems(Silent(|files[previous]|), res.instruments, names);
      if missing.Some? {
        musics := musics[i := item.(results := Some(res.(instruments := RelinkUpTo(res.instruments, missing.value))))];
        return Failure(Crash("stem file not found"));
      }
      var extension := AfterLast(item.name, '.');
      var finishedPath := RemixPath(repeat, item.musicId, extension);
      repeat := repeat + 1;
      files := files[finishedPath := finished];
      var remixed := Results(res.progress, Link(finishedPath), RelinkUpTo(res.instruments, |res.instruments|));
      musics := musics[i := item.(results := Some(remixed))];
      r := Success(Remixed(remixed));
    }

    /**
     * The loop of a remix: overlay each requested stem on `base` in the order
     * of the result's instruments, stopping at the first missing stem file.
     */
    method MixStems(base: Audio, ins: seq<TrackPath>, names: set<string>) returns (finished: Audio, missing: Option<nat>)
      ensures missing == FirstMissing(ins, names, files)
      ensures missing.None? ==> finished == RemixMix(base, ins, names, files)
    {
      finished := base;
      var k := 0;
      while k < |ins|
        invariant 0 <= k <= |ins|
        invariant RemixReadable(ins[..k], names, files)
        invariant finished == RemixMix(base, ins[..k], names, files)
      {
        if StemMissing(ins[k], names, files) {
          FirstMissingAt(ins, names, files, k);
          return finished, Some(k);
        }
        if ins[k].name in names {
          finished := Overlay(finished, files[LocalPath(ins[k].track)]);
        }
        assert ins[..k + 1][..k] == ins[..k];
        k := k + 1;
      }
      assert ins[..k] == ins;
      missing := None;
    }

    /** The split branch of `process`, for the item at `i`. */
    method Split(i: nat, ids: seq<InstrumentId>) returns (r: Result<ProcessReply, Failure>)
      requires i < |musics| && musics[i].results.None?
      modifies this
      ensures jobID == old(jobID) && JobID == old(JobID)
      ensures var o := SplitOutcome(old(musics)[i], ids, old(files), old(repeat), old(jobID), decode);
        && r == o.reply && musics == old(musics)[i := o.item]
        && files == o.files && repeat == o.repeat && queue == old(queue) + o.published
    {
      var item := musics[i];
      var upload := UploadPath(item.musicId);
      if upload !in files || decode(files[upload]).None? {
        return Failure(Crash("upload cannot be decoded"));
      }
      var d := decode(files[upload]).value;
      var windows := MakeChunks(d.audio, ChunkSize);
      var jobs := Publish(item.musicId, d, ids, SplitExtension(item.name), windows);
      // `audio_chunks` is never filled, so `app.jobID` does not advance.
      var audioChunks: seq<Audio> := [];
      jobID := jobID + |audioChunks|;
      var split := item.(jobs := item.jobs + jobs);
      musics := musics[i := split];
      r := Success(Item(split));
    }

    /**
     * The loop of a split: one pending job and one published message per
     * window, numbered from `jobID`.
     */
    method Publish(musicId: nat, d: Decoded, ids: seq<InstrumentId>, format: string, windows: seq<Audio>)
      returns (jobs: seq<Job>)
      modifies this`queue
      ensures jobs == NewJobs(musicId, jobID, d, ids, windows)
      ensures queue == old(queue) + NewMessages(musicId, jobID, d, format, windows)
    {
      jobs := [];
      var index := 0;
      while index < |windows|
        invariant 0 <= index <= |windows|
        invariant jobs == NewJobs(musicId, jobID, d, ids, windows)[..index]
        invariant queue == old(queue) + NewMessages(musicId, jobID, d, format, windows)[..index]
      {
        var chunk := windows[index];
        var message := JobMessage(musicId, jobID + index, d.sampleWidth, d.frameRate, d.channels, format, chunk);
        var job := Job(musicId, jobID + index, 0, RawSize(d, |chunk|), |chunk| / 1000, ids, None);
        assert NewJobs(musicId, jobID, d, ids, windows)[..index + 1]
            == NewJobs(musicId, jobID, d, ids, windows)[..index] + [job];
        assert NewMessages(musicId, jobID, d, format, windows)[..index + 1]
            == NewMessages(musicId, jobID, d, format, windows)[..index] + [message];
        jobs := jobs + [job];
        queue := queue + [message];
        index := index + 1;
      }
    }

    /** `jobs()`: the ids of the first item that has jobs, in order. */
    method Jobs() returns (r: Result<seq<int>, Failure>)
      ensures r == JobsReply(musics)
    {
      var m := 0;
      while m < |musics|
        invariant 0 <= m <= |musics|
        invariant forall k | 0 <= k < m :: musics[k].jobs == []
      {
        var jobs := musics[m].jobs;
        if jobs != [] {
          var ids: seq<int> := [];
          var k := 0;
          while k < |jobs|
            invariant 0 <= k <= |jobs|
            invariant ids == JobIds(jobs[..k])
          {
            ids := ids + [jobs[k].jobId];
            k := k + 1;
          }
          assert jobs[..k] == jobs;
          return Success(ids);
        }
        m := m + 1;
      }
      return Failure(InvalidInput);
    }

    /** `jobStat(job_id)`: the first job with that id, without its status and stem files. */
    method JobStat(jobId: int) returns (r: Result<JobView, Failure>)
      ensures r == JobStatReply(musics, jobId)
    {
      var m := 0;
      while m < |musics|
        invariant 0 <= m <= |musics|
        invariant forall i | 0 <= i < m :: FindJobIn(musics[i].jobs, jobId).None?
      {
        var jobs := musics[m].jobs;
        var k := 0;
        while k < |jobs|
          invariant 0 <= k <= |jobs|
          invariant forall j | 0 <= j < k :: jobs[j].jobId != jobId
        {
          if jobs[k].jobId == jobId {
            FindJobInAt(jobs, jobId, k);
            FindJobAt(musics, jobId, m, k);
            return Success(View(jobs[k]));
          }
          k := k + 1;
        }
        m := m + 1;
      }
      return Failure(MusicNotFound);
    }

    /**
     * `reset`: delete the plain files directly inside the upload and
     * download directories and empty the registry; the assignment goes to
     * `JobID`, so the job counter `jobID` keeps its value.
     */
    method Reset()
      requires Valid()
      modifies this
      ensures Valid()
      ensures musics == [] && JobID == Some(0)
      ensures files == map p | p in old(files) && !Cleared(p) :: old(files)[p]
      ensures jobID == old(jobID) && repeat == old(repeat) && queue == old(queue)
    {
      files := map p | p in files && !Cleared(p) :: files[p];
      JobID := Some(0);
      musics := [];
    }
  }
}
