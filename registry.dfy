/**
 * What the request handlers and the result listener keep true of the
 * registry's item list, and how that survives the updates they make.
 */
module Registry {
  import opened Wrappers
  import opened Records
  import opened Tracker

  /**
   * One item: every job belongs to it, a job is complete exactly when its
   * stem files are recorded, and the item has results only once it has jobs
   * and all of them are complete.
   */
  predicate ItemValid(m: Music) {
    && (forall j | 0 <= j < |m.jobs| ::
          m.jobs[j].musicId == m.musicId && (m.jobs[j].status == 1 <==> m.jobs[j].tracksPath.Some?))
    && (m.results.Some? ==> m.jobs != [] && AllComplete(m.jobs))
  }

  /** No two items share an id: `submit` hands back the existing item instead. */
  predicate DistinctIds(musics: seq<Music>) {
    forall a, b | 0 <= a < b < |musics| :: musics[a].musicId != musics[b].musicId
  }

  predicate ValidMusics(musics: seq<Music>) {
    DistinctIds(musics) && forall i | 0 <= i < |musics| :: ItemValid(musics[i])
  }

  /** Replacing an item by a valid one with the same id keeps the list valid. */
  lemma ValidAfterUpdate(musics: seq<Music>, i: nat, m: Music)
    requires ValidMusics(musics) && i < |musics|
    requires m.musicId == musics[i].musicId && ItemValid(m)
    ensures ValidMusics(musics[i := m])
  {
  }

  /** Appending a valid item under an id not yet registered keeps the list valid. */
  lemma ValidAfterAppend(musics: seq<Music>, m: Music)
    requires ValidMusics(musics) && ItemValid(m)
    requires FindMusic(musics, m.musicId).None?
    ensures ValidMusics(musics + [m])
  {
  }

  /** In a valid list, `FindMusic` finds the one item with the id. */
  lemma FoundIsUnique(musics: seq<Music>, id: int, k: nat)
    requires ValidMusics(musics) && k < |musics| && musics[k].musicId == id
    ensures FindMusic(musics, id) == Some(k)
  {
  }
}
