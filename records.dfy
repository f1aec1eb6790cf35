/**
 * The records of the in-memory registry (`app.musics` and the dicts inside
 * it), the messages exchanged with the workers, and the file paths and
 * download links the registry derives from ids and names.
 */
module Records {
  import opened Wrappers
  import opened Text
  import opened Audio
  import opened Instruments

  /** Window length in milliseconds handed to `make_chunks` (`chunkSize`). */
  const ChunkSize: nat := 6 * 1000

  /** Range of the reduced content checksum: the MD5 digest read as a number, modulo one million. */
  const ChecksumRange: nat := 1000000

  const UploadDir: string := "./uploads"
  const ReturnedDir: string := "./download"

  /** `app.hostAddr`, set once at start-up. */
  const HostAddr: string := "0.0.0.0:8000"

  /** One entry of a music item's `tracks` catalogue. */
  datatype Track = Track(name: string, trackId: int)

  /** The ID3 tags `getMetadata` reads; eyed3 gives `None` for an absent tag. */
  datatype Metadata = Metadata(name: Option<string>, band: Option<string>, album: Option<string>)

  /** A `{"name", "track"}` pair: one stem file of a job, or one stem link of a result. */
  datatype TrackPath = TrackPath(name: string, track: string)

  /** A job's `status`: 0 while pending, 1 once a worker has answered. */
  type Status = s: int | 0 <= s <= 1

  /**
   * A job dict. `tracksPath` is absent until a result for the job arrives;
   * `time` is the window length in whole seconds, `size` its raw length.
   */
  datatype Job = Job(
    musicId: nat,
    jobId: nat,
    status: Status,
    size: nat,
    time: nat,
    trackIds: seq<InstrumentId>,
    tracksPath: Option<seq<TrackPath>>)

  /** A music item's `results` dict. */
  datatype Results = Results(progress: int, final: string, instruments: seq<TrackPath>)

  /**
   * A music item dict. The keys `processStart`, `jobs` and `results` are
   * added by later requests; an item whose `jobs` key is missing is one whose
   * job list is empty.
   */
  datatype Music = Music(
    musicId: nat,
    name: string,
    metadata: Metadata,
    tracks: seq<Track>,
    processStart: Option<int>,
    jobs: seq<Job>,
    results: Option<Results>)

  /** What `AudioSegment.from_file` yields for an upload: the sample format and the audio. */
  datatype Decoded = Decoded(sampleWidth: nat, frameRate: nat, channels: nat, audio: Audio)

  /** A job message published on `job_queue`. */
  datatype JobMessage = JobMessage(
    musicId: nat,
    jobId: nat,
    sampleWidth: nat,
    frameRate: nat,
    channels: nat,
    format: string,
    data: Audio)

  /** One separated stem of one window, as a worker returns it. */
  datatype StemChunk = StemChunk(name: string, audio: Audio)

  /** A message consumed from `result_queue`. */
  datatype ResultMessage = ResultMessage(musicId: int, jobId: int, format: string, tracks: seq<StemChunk>)

  /**
   * How a request ends when it does not return: an `HTTPException` with its
   * status and detail, or an uncaught exception (a 500 in a request handler,
   * the end of the consumer in the result listener).
   */
  datatype Failure = HttpError(code: nat, detail: string) | Crash(reason: string)

  const MusicNotFound: Failure := HttpError(404, "Music not found")
  const TrackNotFound: Failure := HttpError(405, "Track not found")
  const InvalidInput: Failure := HttpError(405, "Invalid input")

  /** `getIntChecksum`: the MD5 digest, read as a hexadecimal integer, reduced modulo one million. */
  function IntChecksum(digest: nat): (r: nat)
    ensures r < ChecksumRange
    ensures (digest - r) % ChecksumRange == 0
  {
    digest % ChecksumRange
  }

  /** The `tracks` catalogue of a new item: every instrument, in declaration order. */
  function CatalogTracks(): (r: seq<Track>)
    ensures |r| == 4
    ensures forall k | 0 <= k < 4 :: r[k].name == NameAt(k) && r[k].trackId == k + 1
  {
    CatalogValues();
    seq(4, k requires 0 <= k < 4 => Track(NameAt(k), Value(Catalog[k])))
  }

  /** The position of the first item with the id, or none when no item has it. */
  function FindMusic(musics: seq<Music>, id: int): (r: Option<nat>)
    ensures r.Some? ==> r.value < |musics| && musics[r.value].musicId == id
    ensures r.Some? ==> forall k | 0 <= k < r.value :: musics[k].musicId != id
    ensures r.None? ==> forall k | 0 <= k < |musics| :: musics[k].musicId != id
  {
    if musics == [] then None
    else if musics[0].musicId == id then Some(0)
    else
      match FindMusic(musics[1..], id)
      case Some(k) => Some(k + 1)
      case None => None
  }

  /** Where `submit` keeps an upload: the checksum under the upload directory. */
  function UploadPath(musicId: nat): string {
    UploadDir + "/" + NatToString(musicId)
  }

  /** A file name placed under the download directory. */
  function DownloadPath(file: string): string {
    ReturnedDir + "/" + file
  }

  predicate InDir(path: string, dir: string) {
    |dir| + 1 <= |path| && path[..|dir| + 1] == dir + "/"
  }

  /** The download link of a local path: the host address followed by the path without its first character. */
  function Link(path: string): string {
    HostAddr + (if |path| == 0 then "" else path[1..])
  }

  /**
   * The rewrite a remix applies to each stem link: keep the file name after
   * the last '/', put it back in the download directory and link it again.
   */
  function Relink(track: string): string {
    Link(DownloadPath(AfterLast(track, '/')))
  }

  /** The file a remix reads for a stored link: the link's last path component under the returned directory. */
  function LocalPath(track: string): string {
    DownloadPath(AfterLast(track, '/'))
  }

  /** One stem of one window: the window's checksum, an underscore, the instrument name and the format, under the returned directory. */
  function StemChunkPath(checksum: nat, name: string, format: string): string {
    DownloadPath(NatToString(checksum) + "_" + name + "." + format)
  }

  /** The first final mix: the item id and its extension under the returned directory. */
  function FinalPath(musicId: nat, extension: string): string {
    DownloadPath("combined_" + NatToString(musicId) + "." + extension)
  }

  /** The path of a remixed final mix: the remix count and the item id under the returned directory. */
  function RemixPath(repeat: nat, musicId: nat, extension: string): string {
    DownloadPath("combined_" + NatToString(repeat) + "_" + NatToString(musicId) + "." + extension)
  }

  lemma LinkOfDownload(file: string)
    ensures Link(DownloadPath(file)) == HostAddr + "/download" + ['/'] + file
  {
  }

  /**
   * A link built from a download-directory file leads back to that file, and
   * rewriting it again changes nothing.
   */
  lemma {:induction false} LinkReadsBack(file: string)
    requires '/' !in file
    ensures LocalPath(Link(DownloadPath(file))) == DownloadPath(file)
    ensures Relink(Link(DownloadPath(file))) == Link(DownloadPath(file))
  {
    LinkOfDownload(file);
    AfterLastJoin(HostAddr + "/download", '/', file);
  }

  /** Rewriting a stem link is idempotent: a second remix leaves the links as the first left them. */
  lemma {:induction false} RelinkIdempotent(track: string)
    ensures Relink(Relink(track)) == Relink(track)
  {
    AfterLastShape(track, '/');
    LinkReadsBack(AfterLast(track, '/'));
  }

  /** Two digit strings each followed by text starting with '_' can only match when the digits match. */
  lemma DigitsBeforeUnderscore(a: string, t1: string, b: string, t2: string)
    requires AllDigits(a) && AllDigits(b)
    requires |t1| > 0 && |t2| > 0 && t1[0] == '_' && t2[0] == '_'
    requires a + t1 == b + t2
    ensures a == b
  {
    var m := Min(|a|, |b|);
    assert (a + t1)[m] == (b + t2)[m];
    assert |a| == |b|;
    assert a == (a + t1)[..|a|];
    assert b == (b + t2)[..|b|];
  }

  /** Remixes with different `repeat` counters write different files. */
  lemma {:induction false} RemixPathsDistinct(r1: nat, id1: nat, ext1: string, r2: nat, id2: nat, ext2: string)
    ensures RemixPath(r1, id1, ext1) == RemixPath(r2, id2, ext2) ==> r1 == r2
  {
    var prefix := ReturnedDir + "/" + "combined_";
    var a, b := NatToString(r1), NatToString(r2);
    var t1 := "_" + NatToString(id1) + "." + ext1;
    var t2 := "_" + NatToString(id2) + "." + ext2;
    assert RemixPath(r1, id1, ext1) == prefix + (a + t1);
    assert RemixPath(r2, id2, ext2) == prefix + (b + t2);
    if prefix + (a + t1) == prefix + (b + t2) {
      assert (prefix + (a + t1))[|prefix|..] == a + t1;
      assert (prefix + (b + t2))[|prefix|..] == b + t2;
      DigitsBeforeUnderscore(a, t1, b, t2);
      NatToStringInjective(r1, r2);
    }
  }
}
