/**
  The module-level flattening loop of the songbook screen
  (src/screens/Songbook.js:80-100): it walks the chapter manifest in order,
  resolves every listed `_id` against the catalog, stamps the chapter title onto
  the catalog song, counts pages and appends `{index: pageCount, song}`.

  The catalog songs are shared, mutable objects in the source. Here the catalog
  is a sequence of values, an entry refers to its song by catalog POSITION, and
  the stamping rewrites that position, so every entry referring to one song sees
  the same, last-written chapter title, as in the source.
 */
module Flattening {
  import opened Wrappers
  import opened Catalog

  /** `{index: pageCount, song: item}`; `song` is the position of `item` in the catalog. */
  datatype PagedEntry = PagedEntry(index: int, song: nat)

  /** The state the loop builds: the (stamped) catalog, `songs`, `pageCount` and the ids it logged as missing. */
  datatype Loaded = Loaded(catalog: seq<Song>, songs: seq<PagedEntry>, pageCount: int, log: seq<SongId>)

  /** The references of one chapter, in the order the chapter lists them. */
  function ChapterRefs(chapter: Chapter): seq<Ref>
  {
    seq(|chapter.songIds|, j requires 0 <= j < |chapter.songIds| => Ref(chapter.chapterTitle, chapter.songIds[j]))
  }

  /** All references of the manifest in traversal order: chapters in order, songs within each chapter in order. */
  function Refs(manifest: seq<Chapter>): seq<Ref>
  {
    if manifest == [] then []
    else Refs(manifest[..|manifest| - 1]) + ChapterRefs(manifest[|manifest| - 1])
  }

  /** The state before the loop: the catalog as loaded, no entries, `pageCount = 0`, nothing logged. */
  function Initial(catalog: seq<Song>): Loaded
  {
    Loaded(catalog, [], 0, [])
  }

  /**
    One iteration of the inner `forEach`: look the id up in the (current) catalog;
    if it is missing, `item.chapter_title` throws and the `catch` logs the id;
    otherwise stamp the title, bump `pageCount` and push the entry.
   */
  function Step(s: Loaded, r: Ref): Loaded
  {
    match FirstMatch(s.catalog, r.id)
    case None => s.(log := s.log + [r.id])
    case Some(k) =>
      var pageCount := s.pageCount + 1;
      Loaded(s.catalog[k := s.catalog[k].(chapterTitle := Some(r.chapterTitle))],
             s.songs + [PagedEntry(pageCount, k)], pageCount, s.log)
  }

  /** The loop run over a sequence of references, one `Step` per reference. */
  function Run(catalog: seq<Song>, refs: seq<Ref>): Loaded
  {
    if refs == [] then Initial(catalog)
    else Step(Run(catalog, refs[..|refs| - 1]), refs[|refs| - 1])
  }

  /** The flattening of a manifest against a catalog. */
  function Flattened(catalog: seq<Song>, manifest: seq<Chapter>): Loaded
  {
    Run(catalog, Refs(manifest))
  }

  /**
    The title of the last reference in `refs` that lists `id`, or `None` when
    no reference lists it.
   */
  function LastTitle(refs: seq<Ref>, id: SongId): (r: Option<string>)
    ensures r.None? <==> forall j :: 0 <= j < |refs| ==> refs[j].id != id
  {
    if refs == [] then None
    else if refs[|refs| - 1].id == id then Some(refs[|refs| - 1].chapterTitle)
    else LastTitle(refs[..|refs| - 1], id)
  }

  /** The title of the last chapter of the manifest whose song list contains `id`. */
  function LastChapterTitle(manifest: seq<Chapter>, id: SongId): (r: Option<string>)
    ensures r.None? <==> forall ci :: 0 <= ci < |manifest| ==> id !in manifest[ci].songIds
    ensures r.Some? ==> exists ci :: 0 <= ci < |manifest| && id in manifest[ci].songIds && manifest[ci].chapterTitle == r.value
                          && forall cj :: ci < cj < |manifest| ==> id !in manifest[cj].songIds
  {
    if manifest == [] then None
    else if id in manifest[|manifest| - 1].songIds then Some(manifest[|manifest| - 1].chapterTitle)
    else LastChapterTitle(manifest[..|manifest| - 1], id)
  }

  /**
    Reference definition of the entries' songs: the catalog position of the first
    song with each listed id that resolves, in reference order. Every position is
    the first of its id, and its id is listed somewhere in `refs`.
   */
  function Resolve(catalog: seq<Song>, refs: seq<Ref>): (r: seq<nat>)
    ensures forall i :: 0 <= i < |r| ==> r[i] < |catalog|
    ensures forall i :: 0 <= i < |r| ==> FirstMatch(catalog, catalog[r[i]].id) == Some(r[i])
    ensures forall i :: 0 <= i < |r| ==> LastTitle(refs, catalog[r[i]].id).Some?
  {
    if refs == [] then []
    else
      var pre := Resolve(catalog, refs[..|refs| - 1]);
      match FirstMatch(catalog, refs[|refs| - 1].id)
      case None => pre
      case Some(k) => pre + [k]
  }

  /** Reference definition of the diagnostics: the listed ids that no catalog song has, in reference order. */
  function Unresolved(catalog: seq<Song>, refs: seq<Ref>): (r: seq<SongId>)
    ensures forall i :: 0 <= i < |r| ==> FirstMatch(catalog, r[i]).None?
  {
    if refs == [] then []
    else
      var pre := Unresolved(catalog, refs[..|refs| - 1]);
      if FirstMatch(catalog, refs[|refs| - 1].id).None? then pre + [refs[|refs| - 1].id] else pre
  }

  /**
    The chapter title catalog position `k` holds once the references have been
    processed: the title of the last reference to its id, provided `k` is the
    first catalog song with that id; otherwise the title it was loaded with.
   */
  function StampedTitle(catalog: seq<Song>, refs: seq<Ref>, k: nat): Option<string>
    requires k < |catalog|
  {
    var t := LastTitle(refs, catalog[k].id);
    if t.Some? && FirstMatch(catalog, catalog[k].id) == Some(k) then t else catalog[k].chapterTitle
  }

  /**
    The flattening loop itself: two nested loops over the manifest that update
    the catalog, the entries, the page counter and the log in place. Its result
    is the specification fold `Flattened`.
   */
  method Flatten(catalog: seq<Song>, manifest: seq<Chapter>)
    returns (stamped: seq<Song>, songs: seq<PagedEntry>, pageCount: int, log: seq<SongId>)
    ensures Loaded(stamped, songs, pageCount, log) == Flattened(catalog, manifest)
  {
    stamped, songs, pageCount, log := catalog, [], 0, [];
    var ci := 0;
    while ci < |manifest|
      invariant 0 <= ci <= |manifest|
      invariant Loaded(stamped, songs, pageCount, log) == Run(catalog, Refs(manifest[..ci]))
    {
      var chapter := manifest[ci];
      ghost var done := Refs(manifest[..ci]);
      var si := 0;
      assert done + ChapterRefs(chapter)[..si] == done;
      while si < |chapter.songIds|
        invariant 0 <= si <= |chapter.songIds|
        invariant Loaded(stamped, songs, pageCount, log) == Run(catalog, done + ChapterRefs(chapter)[..si])
      {
        var id := chapter.songIds[si];
        ghost var before := done + ChapterRefs(chapter)[..si];
        match FirstMatch(stamped, id) {
          case None =>
            log := log + [id];
          case Some(k) =>
            stamped := stamped[k := stamped[k].(chapterTitle := Some(chapter.chapterTitle))];
            pageCount := pageCount + 1;
            songs := songs + [PagedEntry(pageCount, k)];
        }
        assert ChapterRefs(chapter)[..si + 1] == ChapterRefs(chapter)[..si] + [Ref(chapter.chapterTitle, id)];
        assert done + ChapterRefs(chapter)[..si + 1] == before + [Ref(chapter.chapterTitle, id)];
        RunSnoc(catalog, before, Ref(chapter.chapterTitle, id));
        si := si + 1;
      }
      assert ChapterRefs(chapter)[..si] == ChapterRefs(chapter);
      assert manifest[..ci + 1][..ci] == manifest[..ci];
      ci := ci + 1;
    }
    assert manifest[..ci] == manifest;
  }

  // ---------------------------------------------------------------------------
  // Properties of the flattening
  // ---------------------------------------------------------------------------

  /** `Run` over `refs + [r]` is one more `Step`. */
  lemma RunSnoc(catalog: seq<Song>, refs: seq<Ref>, r: Ref)
    ensures Run(catalog, refs + [r]) == Step(Run(catalog, refs), r)
  {
    assert (refs + [r])[..|refs|] == refs;
  }

  /** Flattening rewrites chapter titles only: every catalog position keeps its id. */
  lemma {:induction false} RunKeepsIds(catalog: seq<Song>, refs: seq<Ref>)
    ensures SameIds(Run(catalog, refs).catalog, catalog)
  {
    if refs != [] {
      RunKeepsIds(catalog, refs[..|refs| - 1]);
    }
  }

  /** Flattening looks songs up as if in the catalog as loaded. */
  lemma RunLookup(catalog: seq<Song>, refs: seq<Ref>, id: SongId)
    ensures FirstMatch(Run(catalog, refs).catalog, id) == FirstMatch(catalog, id)
  {
    RunKeepsIds(catalog, refs);
    FirstMatchSameIds(Run(catalog, refs).catalog, catalog, id);
  }

  /**
    The stored indices are exactly 1, 2, ..., n in output order, and `pageCount`
    ends at n: a missing id neither leaves a gap nor advances the counter.
   */
  lemma {:induction false} RunCounts(catalog: seq<Song>, refs: seq<Ref>)
    ensures Run(catalog, refs).pageCount == |Run(catalog, refs).songs|
    ensures forall i :: 0 <= i < |Run(catalog, refs).songs| ==> Run(catalog, refs).songs[i].index == i + 1
  {
    if refs != [] {
      RunCounts(catalog, refs[..|refs| - 1]);
    }
  }

  /**
    Entries follow the references in order, each pointing at the first catalog
    song with the listed id; the log holds exactly the unresolved ids, in order.
   */
  lemma {:induction false} RunFollowsRefs(catalog: seq<Song>, refs: seq<Ref>)
    ensures |Run(catalog, refs).songs| == |Resolve(catalog, refs)|
    ensures forall i :: 0 <= i < |Resolve(catalog, refs)| ==> Run(catalog, refs).songs[i].song == Resolve(catalog, refs)[i]
    ensures Run(catalog, refs).log == Unresolved(catalog, refs)
  {
    if refs != [] {
      var pre := refs[..|refs| - 1];
      RunFollowsRefs(catalog, pre);
      RunLookup(catalog, pre, refs[|refs| - 1].id);
    }
  }

  /** Every reference produces either one entry or one diagnostic, never both, never neither. */
  lemma {:induction false} ResolvedPlusUnresolved(catalog: seq<Song>, refs: seq<Ref>)
    ensures |Resolve(catalog, refs)| + |Unresolved(catalog, refs)| == |refs|
  {
    if refs != [] {
      ResolvedPlusUnresolved(catalog, refs[..|refs| - 1]);
    }
  }

  /**
    Flattening touches only the chapter titles of the catalog: each catalog
    position ends with the title of the last reference to its id, provided it is
    the first song with that id, and otherwise keeps the title it was loaded with.
   */
  lemma {:induction false} RunStampsTitles(catalog: seq<Song>, refs: seq<Ref>)
    ensures |Run(catalog, refs).catalog| == |catalog|
    ensures forall k :: 0 <= k < |catalog| ==>
      Run(catalog, refs).catalog[k] == catalog[k].(chapterTitle := StampedTitle(catalog, refs, k))
  {
    RunKeepsIds(catalog, refs);
    if refs != [] {
      var pre, r := refs[..|refs| - 1], refs[|refs| - 1];
      RunStampsTitles(catalog, pre);
      RunLookup(catalog, pre, r.id);
      forall k | 0 <= k < |catalog|
        ensures Run(catalog, refs).catalog[k] == catalog[k].(chapterTitle := StampedTitle(catalog, refs, k))
      {
        assert LastTitle(refs, catalog[k].id) ==
          if r.id == catalog[k].id then Some(r.chapterTitle) else LastTitle(pre, catalog[k].id);
      }
    }
  }

  /** All references of a chapter carry the chapter's title. */
  lemma {:induction false} LastTitleOfChapter(chapter: Chapter, id: SongId)
    ensures LastTitle(ChapterRefs(chapter), id) == if id in chapter.songIds then Some(chapter.chapterTitle) else None
  {
    var rs := ChapterRefs(chapter);
    if id in chapter.songIds {
      var j :| 0 <= j < |chapter.songIds| && chapter.songIds[j] == id;
      assert rs[j].id == id;
      LastTitleUniform(rs, chapter.chapterTitle, id);
    }
  }

  lemma {:induction false} LastTitleUniform(refs: seq<Ref>, t: string, id: SongId)
    requires forall j :: 0 <= j < |refs| ==> refs[j].chapterTitle == t
    ensures LastTitle(refs, id).Some? ==> LastTitle(refs, id).value == t
  {
    if refs != [] {
      LastTitleUniform(refs[..|refs| - 1], t, id);
    }
  }

  /** The last listing in `xs + ys` is in `ys` when `ys` lists the id at all. */
  lemma {:induction false} LastTitleConcat(xs: seq<Ref>, ys: seq<Ref>, id: SongId)
    ensures LastTitle(xs + ys, id) == if LastTitle(ys, id).Some? then LastTitle(ys, id) else LastTitle(xs, id)
  {
    if ys == [] {
      assert xs + ys == xs;
    } else {
      var pre := ys[..|ys| - 1];
      assert (xs + ys)[..|xs + ys| - 1] == xs + pre;
      LastTitleConcat(xs, pre, id);
    }
  }

  /** The last reference to an id in traversal order belongs to the last chapter that lists it. */
  lemma {:induction false} LastTitleIsLastChapter(manifest: seq<Chapter>, id: SongId)
    ensures LastTitle(Refs(manifest), id) == LastChapterTitle(manifest, id)
  {
    if manifest != [] {
      var pre := manifest[..|manifest| - 1];
      LastTitleIsLastChapter(pre, id);
      LastTitleConcat(Refs(pre), ChapterRefs(manifest[|manifest| - 1]), id);
      LastTitleOfChapter(manifest[|manifest| - 1], id);
    }
  }

  /**
    Last writer wins: after flattening, the song of every entry carries the title
    of the LAST chapter of the manifest that lists its id, however many chapters
    list it, and all other fields of the song are as loaded.
   */
  lemma EntryTitleIsLastChapter(catalog: seq<Song>, manifest: seq<Chapter>, i: nat)
    requires i < |Flattened(catalog, manifest).songs|
    ensures Flattened(catalog, manifest).songs[i].song < |catalog| == |Flattened(catalog, manifest).catalog|
    ensures var k := Flattened(catalog, manifest).songs[i].song;
      && LastChapterTitle(manifest, catalog[k].id).Some?
      && Flattened(catalog, manifest).catalog[k] == catalog[k].(chapterTitle := LastChapterTitle(manifest, catalog[k].id))
  {
    var refs := Refs(manifest);
    RunFollowsRefs(catalog, refs);
    RunStampsTitles(catalog, refs);
    LastTitleIsLastChapter(manifest, catalog[Resolve(catalog, refs)[i]].id);
  }

  /** Each entry's song is the first catalog song with an id the manifest lists. */
  lemma EntrySongIsFirstMatch(catalog: seq<Song>, manifest: seq<Chapter>, i: nat)
    requires i < |Flattened(catalog, manifest).songs|
    ensures Flattened(catalog, manifest).songs[i].song < |catalog|
    ensures var k := Flattened(catalog, manifest).songs[i].song;
      FirstMatch(catalog, catalog[k].id) == Some(k) && LastChapterTitle(manifest, catalog[k].id).Some?
  {
    var refs := Refs(manifest);
    RunFollowsRefs(catalog, refs);
    LastTitleIsLastChapter(manifest, catalog[Resolve(catalog, refs)[i]].id);
  }

  // ---------------------------------------------------------------------------
  // Worked examples
  // ---------------------------------------------------------------------------

  /** A catalog song with the given id and empty text fields. */
  function ExampleSong(id: SongId): Song
  {
    Song(id, "", "", "", "", [], None)
  }

  /** Chapter "A" lists songs 1 and 2, chapter "B" lists song 3. */
  function ExampleManifest(): seq<Chapter>
  {
    [Chapter("A", [1, 2]), Chapter("B", [3])]
  }

  lemma ExampleRefs()
    ensures Refs(ExampleManifest()) == [Ref("A", 1), Ref("A", 2), Ref("B", 3)]
  {
    var m := ExampleManifest();
    assert m[..1][..0] == [];
    assert m[..1] == [Chapter("A", [1, 2])];
  }

  /** With song 2 missing from the catalog, song 3 moves up to index 2 and the log records 2. */
  lemma ExampleMissingSong()
    ensures Flattened([ExampleSong(1), ExampleSong(3)], ExampleManifest()) ==
      Loaded([ExampleSong(1).(chapterTitle := Some("A")), ExampleSong(3).(chapterTitle := Some("B"))],
             [PagedEntry(1, 0), PagedEntry(2, 1)], 2, [2])
  {
    var c := [ExampleSong(1), ExampleSong(3)];
    var refs := [Ref("A", 1), Ref("A", 2), Ref("B", 3)];
    ExampleRefs();
    var c1 := [ExampleSong(1).(chapterTitle := Some("A")), ExampleSong(3)];
    assert Run(c, refs[..1]) == Loaded(c1, [PagedEntry(1, 0)], 1, []) by {
      assert refs[..1] == [] + [refs[0]];
      RunSnoc(c, [], refs[0]);
    }
    assert Run(c, refs[..2]) == Loaded(c1, [PagedEntry(1, 0)], 1, [2]) by {
      assert refs[..2] == refs[..1] + [refs[1]];
      RunSnoc(c, refs[..1], refs[1]);
      assert FirstMatch(c1[1..], 2) == None;
    }
    assert refs == refs[..2] + [refs[2]];
    RunSnoc(c, refs[..2], refs[2]);
    assert FirstMatch(c1[1..], 3) == Some(0);
  }

  /** With every song present, the three references become indices 1, 2, 3 in manifest order. */
  lemma ExampleAllFound()
    ensures Flattened([ExampleSong(1), ExampleSong(2), ExampleSong(3)], ExampleManifest()) ==
      Loaded([ExampleSong(1).(chapterTitle := Some("A")), ExampleSong(2).(chapterTitle := Some("A")),
              ExampleSong(3).(chapterTitle := Some("B"))],
             [PagedEntry(1, 0), PagedEntry(2, 1), PagedEntry(3, 2)], 3, [])
  {
    var c := [ExampleSong(1), ExampleSong(2), ExampleSong(3)];
    var refs := [Ref("A", 1), Ref("A", 2), Ref("B", 3)];
    ExampleRefs();
    var c1 := [ExampleSong(1).(chapterTitle := Some("A")), ExampleSong(2), ExampleSong(3)];
    var c2 := [c1[0], ExampleSong(2).(chapterTitle := Some("A")), ExampleSong(3)];
    assert Run(c, refs[..1]) == Loaded(c1, [PagedEntry(1, 0)], 1, []) by {
      assert refs[..1] == [] + [refs[0]];
      RunSnoc(c, [], refs[0]);
    }
    assert Run(c, refs[..2]) == Loaded(c2, [PagedEntry(1, 0), PagedEntry(2, 1)], 2, []) by {
      assert refs[..2] == refs[..1] + [refs[1]];
      RunSnoc(c, refs[..1], refs[1]);
      assert FirstMatch(c1[1..], 2) == Some(0);
    }
    assert refs == refs[..2] + [refs[2]];
    RunSnoc(c, refs[..2], refs[2]);
    assert FirstMatch(c2[1..][1..], 3) == Some(0);
  }
}
