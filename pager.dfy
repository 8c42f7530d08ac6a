/**
  The songbook pager (the `Songbook` component of src/screens/Songbook.js):
  page 0 is the cover, page 1 the table of contents, and page
  `FirstValidPageIndex + i` shows the i-th flattened entry. The component keeps
  the header text and the visibility of the table-of-contents button, reacts to
  the scroll view settling on a page, and requests scrolls. Page indices are
  integers here; the conversion from pixel offsets is not part of this model.
 */
module Pager {
  import opened Wrappers
  import opened Catalog
  import opened Flattening

  const FirstValidPageIndex: int := 2
  const CoverTitle: string := "Hooligan Hymnal"
  const TocTitle: string := "Table of Contents"

  /** Every entry refers to a catalog song. */
  predicate InCatalog(catalog: seq<Song>, songs: seq<PagedEntry>)
  {
    forall i :: 0 <= i < |songs| ==> songs[i].song < |catalog|
  }

  /**
    What the module-level `songs` guarantees the handlers: entry i has index
    i + 1, refers to a catalog song, and that song carries a chapter title.
   */
  predicate WellFormed(catalog: seq<Song>, songs: seq<PagedEntry>)
  {
    InCatalog(catalog, songs) &&
    forall i :: 0 <= i < |songs| ==> songs[i].index == i + 1 && catalog[songs[i].song].chapterTitle.Some?
  }

  /** The flattening establishes what the pager relies on. */
  lemma FlattenedIsWellFormed(catalog: seq<Song>, manifest: seq<Chapter>)
    ensures WellFormed(Flattened(catalog, manifest).catalog, Flattened(catalog, manifest).songs)
  {
    var l := Flattened(catalog, manifest);
    RunCounts(catalog, Refs(manifest));
    forall i | 0 <= i < |l.songs|
      ensures l.songs[i].song < |l.catalog| && l.catalog[l.songs[i].song].chapterTitle.Some?
    {
      EntryTitleIsLastChapter(catalog, manifest, i);
    }
  }

  /** The three kinds of page the scroll view can settle on. */
  datatype Page = Cover | TableOfContents | SongPage(entry: nat)

  /** The page shown at a settled page index; indices past the last song page are not pages. */
  function PageAt(songs: seq<PagedEntry>, pageIndex: int): (p: Page)
    requires pageIndex < FirstValidPageIndex + |songs|
    ensures p.SongPage? ==> p.entry < |songs|
  {
    if FirstValidPageIndex <= pageIndex then SongPage(pageIndex - FirstValidPageIndex)
    else if pageIndex == 1 then TableOfContents
    else Cover
  }

  /** The page that shows an entry is one past its stored index, and no other page shows it. */
  lemma PageShowsEntry(catalog: seq<Song>, songs: seq<PagedEntry>, pageIndex: int, i: nat)
    requires WellFormed(catalog, songs)
    requires pageIndex < FirstValidPageIndex + |songs|
    requires i < |songs|
    ensures PageAt(songs, pageIndex) == SongPage(i) <==> pageIndex == songs[i].index + 1
  {
  }

  /** The header text `chapter_title` that belongs to a settled page index. */
  function HeaderTitle(catalog: seq<Song>, songs: seq<PagedEntry>, pageIndex: int): string
    requires WellFormed(catalog, songs)
    requires pageIndex < FirstValidPageIndex + |songs|
  {
    match PageAt(songs, pageIndex)
    case Cover => CoverTitle
    case TableOfContents => TocTitle
    case SongPage(i) => catalog[songs[i].song].chapterTitle.value
  }

  /**
    After flattening, settling on the page of an entry shows, as header, the
    title of the last chapter of the manifest that lists the entry's song.
   */
  lemma SongPageHeaderIsLastChapter(catalog: seq<Song>, manifest: seq<Chapter>, i: nat)
    requires i < |Flattened(catalog, manifest).songs|
    ensures WellFormed(Flattened(catalog, manifest).catalog, Flattened(catalog, manifest).songs)
    ensures Flattened(catalog, manifest).songs[i].song < |catalog|
    ensures var l := Flattened(catalog, manifest);
      var id := catalog[l.songs[i].song].id;
      && LastChapterTitle(manifest, id).Some?
      && HeaderTitle(l.catalog, l.songs, FirstValidPageIndex + i) == LastChapterTitle(manifest, id).value
  {
    FlattenedIsWellFormed(catalog, manifest);
    EntryTitleIsLastChapter(catalog, manifest, i);
  }

  /**
    The first entry whose song has the id `id` (`songs.filter(song => song.song._id === id)[0]`),
    or `None` when no entry's song has it.
   */
  function FirstEntry(catalog: seq<Song>, songs: seq<PagedEntry>, id: SongId): (r: Option<nat>)
    requires InCatalog(catalog, songs)
    ensures r.Some? ==> r.value < |songs| && catalog[songs[r.value].song].id == id
    ensures r.Some? ==> forall j :: 0 <= j < r.value ==> catalog[songs[j].song].id != id
    ensures r.None? <==> forall j :: 0 <= j < |songs| ==> catalog[songs[j].song].id != id
  {
    if songs == [] then None
    else if catalog[songs[0].song].id == id then Some(0)
    else match FirstEntry(catalog, songs[1..], id)
      case None => None
      case Some(k) => Some(k + 1)
  }

  /**
    `_currentSong`: the first entry holding the current song, or `undefined`
    when there is no current song or no entry holds it.
   */
  function CurrentSong(catalog: seq<Song>, songs: seq<PagedEntry>, current: Option<Song>): (r: Option<PagedEntry>)
    requires InCatalog(catalog, songs)
    ensures r.None? <==> current.None? || forall j :: 0 <= j < |songs| ==> catalog[songs[j].song].id != current.value.id
    ensures r.Some? ==> (exists i :: 0 <= i < |songs| && songs[i] == r.value
                          && catalog[songs[i].song].id == current.value.id
                          && forall j :: 0 <= j < i ==> catalog[songs[j].song].id != current.value.id)
  {
    if current.None? then None
    else match FirstEntry(catalog, songs, current.value.id)
      case None => None
      case Some(i) => Some(songs[i])
  }

  /** The result of `_currentPage`: a page number, or the `TypeError` of reading `.index` of `undefined`. */
  datatype PageLookup = Index(n: int) | TypeError

  /**
    `_currentPage`: 0 when there is no current song; otherwise the stored index
    of the first entry holding it; a fault when no entry holds it.
   */
  function CurrentPage(catalog: seq<Song>, songs: seq<PagedEntry>, current: Option<Song>): (r: PageLookup)
    requires InCatalog(catalog, songs)
    ensures current.None? ==> r == Index(0)
    ensures current.Some? ==> (r.TypeError? <==> forall j :: 0 <= j < |songs| ==> catalog[songs[j].song].id != current.value.id)
    ensures current.Some? && r.Index? ==> (exists i :: 0 <= i < |songs| && r.n == songs[i].index
                                            && catalog[songs[i].song].id == current.value.id
                                            && forall j :: 0 <= j < i ==> catalog[songs[j].song].id != current.value.id)
  {
    if current.None? then Index(0)
    else match FirstEntry(catalog, songs, current.value.id)
      case None => TypeError
      case Some(i) => Index(songs[i].index)
  }

  /** The page `scrollToSong` requests, computed from the song's numeric id alone. */
  function IdScrollTarget(id: SongId): int
  {
    id - 1 + FirstValidPageIndex
  }

  /**
    The page that shows the current song, found through `_currentPage` as
    `index - 1 + FirstValidPageIndex`; `None` when there is no current song or
    no entry holds it.
   */
  function LookupScrollTarget(catalog: seq<Song>, songs: seq<PagedEntry>, current: Option<Song>): (r: Option<int>)
    requires WellFormed(catalog, songs)
    ensures r.None? <==> current.None? || forall j :: 0 <= j < |songs| ==> catalog[songs[j].song].id != current.value.id
    ensures r.Some? ==> FirstValidPageIndex <= r.value < FirstValidPageIndex + |songs|
    ensures r.Some? ==> match PageAt(songs, r.value)
      case SongPage(i) => catalog[songs[i].song].id == current.value.id
        && forall j :: 0 <= j < i ==> catalog[songs[j].song].id != current.value.id
      case _ => false
  {
    match CurrentPage(catalog, songs, current)
    case Index(n) => if current.None? then None else Some(n - 1 + FirstValidPageIndex)
    case TypeError => None
  }

  /**
    When the songbook holds the songs with ids 1, 2, ..., n in page order, the
    id-based target of `scrollToSong` is the page that shows the song.
   */
  lemma IdScrollTargetWhenIdsArePositions(catalog: seq<Song>, songs: seq<PagedEntry>, current: Song)
    requires WellFormed(catalog, songs)
    requires forall i :: 0 <= i < |songs| ==> catalog[songs[i].song].id == i + 1
    requires 1 <= current.id <= |songs|
    ensures LookupScrollTarget(catalog, songs, Some(current)) == Some(IdScrollTarget(current.id))
  {
    assert catalog[songs[current.id - 1].song].id == current.id;
  }

  /**
    A counterexample for the id-based target: with song 2 missing from the
    catalog, song 3 is the second entry and sits on page 3, while
    `scrollToSong` asks for page 4, one past the last page.
   */
  lemma IdScrollTargetMisses()
    ensures var l := Flattened([ExampleSong(1), ExampleSong(3)], ExampleManifest());
      && WellFormed(l.catalog, l.songs)
      && LookupScrollTarget(l.catalog, l.songs, Some(ExampleSong(3))) == Some(3)
      && IdScrollTarget(ExampleSong(3).id) == 4 == FirstValidPageIndex + |l.songs|
  {
    var l := Flattened([ExampleSong(1), ExampleSong(3)], ExampleManifest());
    ExampleMissingSong();
    FlattenedIsWellFormed([ExampleSong(1), ExampleSong(3)], ExampleManifest());
    assert FirstEntry(l.catalog, l.songs[1..], 3) == Some(0);
  }

  /**
    With every song present, page 3 shows song 2 under chapter "A", and the
    table-of-contents link to song 3 requests page 4, where song 3 is shown.
   */
  lemma ExamplePages()
    ensures var l := Flattened([ExampleSong(1), ExampleSong(2), ExampleSong(3)], ExampleManifest());
      && WellFormed(l.catalog, l.songs) && |l.songs| == 3
      && HeaderTitle(l.catalog, l.songs, 3) == "A"
      && HeaderTitle(l.catalog, l.songs, 4) == "B"
      && HeaderTitle(l.catalog, l.songs, 1) == TocTitle
      && HeaderTitle(l.catalog, l.songs, 0) == CoverTitle
      && IdScrollTarget(3) == 4
      && LookupScrollTarget(l.catalog, l.songs, Some(ExampleSong(3))) == Some(4)
  {
    var l := Flattened([ExampleSong(1), ExampleSong(2), ExampleSong(3)], ExampleManifest());
    ExampleAllFound();
    FlattenedIsWellFormed([ExampleSong(1), ExampleSong(2), ExampleSong(3)], ExampleManifest());
    assert FirstEntry(l.catalog, l.songs[1..][1..], 3) == Some(0);
  }

  /**
    The pager component: the flattened entries and the catalog they refer to
    (fixed at load time), the two state fields, and the pages requested from the
    scroll view so far.
   */
  class Songbook {
    const catalog: seq<Song>
    const songs: seq<PagedEntry>
    var chapterTitle: string
    var tocButtonDisplay: bool
    var scrollRequests: seq<int>

    ghost predicate Valid()
    {
      WellFormed(catalog, songs)
    }

    /** Mounting: the cover title and a hidden button. */
    constructor (catalog: seq<Song>, songs: seq<PagedEntry>)
      requires WellFormed(catalog, songs)
      ensures Valid()
      ensures this.catalog == catalog && this.songs == songs
      ensures chapterTitle == CoverTitle && !tocButtonDisplay && scrollRequests == []
    {
      this.catalog := catalog;
      this.songs := songs;
      chapterTitle := CoverTitle;
      tocButtonDisplay := false;
      scrollRequests := [];
    }

    /** `showToCButton`. */
    method ShowToCButton()
      modifies this`tocButtonDisplay
      ensures tocButtonDisplay
    {
      tocButtonDisplay := true;
    }

    /** `hideToCButton`. */
    method HideToCButton()
      modifies this`tocButtonDisplay
      ensures !tocButtonDisplay
    {
      tocButtonDisplay := false;
    }

    /**
      `_onSongbookMomentumScrollEnd` at a settled page index: a song page shows
      the button and its song's chapter title, the table of contents and the
      cover hide the button and show their fixed titles. A page index past the
      last song page reads `undefined.song` in the source and is excluded.
     */
    method OnMomentumScrollEnd(pageIndex: int)
      requires Valid()
      requires pageIndex < FirstValidPageIndex + |songs|
      modifies this`chapterTitle, this`tocButtonDisplay
      ensures FirstValidPageIndex <= pageIndex ==>
        tocButtonDisplay && chapterTitle == catalog[songs[pageIndex - FirstValidPageIndex].song].chapterTitle.value
      ensures pageIndex == 1 ==> !tocButtonDisplay && chapterTitle == TocTitle
      ensures pageIndex < 1 ==> !tocButtonDisplay && chapterTitle == CoverTitle
      ensures chapterTitle == HeaderTitle(catalog, songs, pageIndex)
      ensures tocButtonDisplay == PageAt(songs, pageIndex).SongPage?
      ensures scrollRequests == old(scrollRequests)
    {
      if FirstValidPageIndex <= pageIndex {
        ShowToCButton();
        chapterTitle := catalog[songs[pageIndex - FirstValidPageIndex].song].chapterTitle.value;
      } else if 1 == pageIndex {
        HideToCButton();
        chapterTitle := TocTitle;
      } else {
        HideToCButton();
        chapterTitle := CoverTitle;
      }
    }

    /** `scrollToToC`: hide the button and request page 1; the header is left as it is. */
    method ScrollToToC()
      modifies this`tocButtonDisplay, this`scrollRequests
      ensures !tocButtonDisplay && chapterTitle == old(chapterTitle)
      ensures scrollRequests == old(scrollRequests) + [1]
    {
      HideToCButton();
      scrollRequests := scrollRequests + [1];
    }

    /** `_handlePressTOCButton`: the button's press handler. */
    method HandlePressToCButton()
      modifies this`tocButtonDisplay, this`scrollRequests
      ensures !tocButtonDisplay
      ensures scrollRequests == old(scrollRequests) + [1]
    {
      ScrollToToC();
    }

    /**
      `scrollToSong` as written: show the button, then request page
      `_id - 1 + FirstValidPageIndex` without consulting the entries. With no
      current song, reading `_id` faults after the button has been shown, and
      no scroll is requested.
     */
    method ScrollToSong(current: Option<Song>) returns (fault: bool)
      modifies this`tocButtonDisplay, this`scrollRequests
      ensures tocButtonDisplay && chapterTitle == old(chapterTitle)
      ensures fault == current.None?
      ensures scrollRequests == if current.None? then old(scrollRequests)
                                else old(scrollRequests) + [IdScrollTarget(current.value.id)]
    {
      ShowToCButton();
      if current.None? {
        return true;
      }
      scrollRequests := scrollRequests + [IdScrollTarget(current.value.id)];
      fault := false;
    }

    /**
      `scrollToSong` with the target found through the entries: the requested
      page shows the current song. Without a current song, or when no entry
      holds it, nothing changes.
     */
    method ScrollToSongByLookup(current: Option<Song>)
      requires Valid()
      modifies this`tocButtonDisplay, this`scrollRequests
      ensures LookupScrollTarget(catalog, songs, current).None? ==>
        tocButtonDisplay == old(tocButtonDisplay) && scrollRequests == old(scrollRequests)
      ensures LookupScrollTarget(catalog, songs, current).Some? ==>
        tocButtonDisplay && scrollRequests == old(scrollRequests) + [LookupScrollTarget(catalog, songs, current).value]
    {
      var target := LookupScrollTarget(catalog, songs, current);
      if target.Some? {
        ShowToCButton();
        scrollRequests := scrollRequests + [target.value];
      }
    }
  }
}
