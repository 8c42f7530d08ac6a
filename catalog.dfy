/**
  The static song data that the songbook screen loads at start-up: the song
  catalog (songs.json) and the chapter manifest (songbook.json), and the
  first-match lookup `Songs.filter(song => song._id === id)[0]` over the catalog.
 */
module Catalog {
  import opened Wrappers

  /** The `_id` of a song, compared with `===`. */
  type SongId = int

  /**
    One catalog song. `chapterTitle` is the field that flattening writes onto
    the shared catalog object; it is `None` (JavaScript `undefined`) until then.
   */
  datatype Song = Song(
    id: SongId,
    title: string,
    referenceTitle: string,
    lyrics: string,
    instructions: string,
    tags: seq<string>,
    chapterTitle: Option<string>)

  /** One chapter of the manifest: its title and the `_id`s it lists, in order. */
  datatype Chapter = Chapter(chapterTitle: string, songIds: seq<SongId>)

  /** One song reference of the manifest: the listing chapter's title and the referenced id. */
  datatype Ref = Ref(chapterTitle: string, id: SongId)

  /**
    The position in `catalog` of the FIRST song whose id is `id`, or `None`
    when no song has that id (the `[0]` of an empty filter is `undefined`).
   */
  function FirstMatch(catalog: seq<Song>, id: SongId): (r: Option<nat>)
    ensures r.Some? ==> r.value < |catalog| && catalog[r.value].id == id
    ensures r.Some? ==> forall j :: 0 <= j < r.value ==> catalog[j].id != id
    ensures r.None? <==> forall j :: 0 <= j < |catalog| ==> catalog[j].id != id
  {
    if catalog == [] then None
    else if catalog[0].id == id then Some(0)
    else match FirstMatch(catalog[1..], id)
      case None => None
      case Some(k) => Some(k + 1)
  }

  /** Two catalogs hold songs with the same ids at the same positions. */
  predicate SameIds(a: seq<Song>, b: seq<Song>)
  {
    |a| == |b| && forall i :: 0 <= i < |a| ==> a[i].id == b[i].id
  }

  /** The lookup depends only on the ids: rewriting other fields does not move any match. */
  lemma FirstMatchSameIds(a: seq<Song>, b: seq<Song>, id: SongId)
    requires SameIds(a, b)
    ensures FirstMatch(a, id) == FirstMatch(b, id)
  {
  }
}
