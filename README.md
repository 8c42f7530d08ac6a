# Songbook pager of the Hooligan Hymnal app, modelled in Dafny

The songbook screen of the app (`src/screens/Songbook.js`) shows a horizontally
paged book: page 0 is the front cover, page 1 the table of contents, and every
later page one song. Two pieces of logic drive it, and this project models and
verifies both:

- **Catalog flattening** (`flattening.dfy`, module `Flattening`). When the module
  loads, it walks the chapter manifest (`songbook.json`) chapter by chapter and
  song by song. It resolves each listed `_id` against the song catalog
  (`songs.json`) by taking the first song with that id. It writes the chapter's
  title onto that catalog song, bumps `pageCount` and appends
  `{index: pageCount, song}` to `songs`. An id with no song throws at the title
  write; the `catch` logs the id, and nothing else happens. The method `Flatten`
  keeps the source's two nested loops and is proved equal to the fold `Flattened`.
  The lemmas about `Flattened` state the properties: stored indices are exactly
  1..n; a missing id adds only a diagnostic; entries follow manifest order; each
  entry's song is the first catalog song with that id; and every entry's song
  ends up with the title of the *last* chapter that lists it.
- **Pager state machine** (`pager.dfy`, module `Pager`). The class `Songbook` holds
  the header text `chapterTitle`, the table-of-contents button flag
  `tocButtonDisplay`, and the list of pages requested from the scroll view. Its
  methods are the component's handlers. The lookups `_currentSong` and
  `_currentPage` are functions over the entries.

`catalog.dfy` (module `Catalog`) holds the data model and the first-match
lookup. `wrappers.dfy` holds `Option`, which stands for JavaScript's `undefined`.

How the model represents the source:

- The source's catalog songs are shared mutable objects. Here the catalog is a
  sequence of values, and an entry's `song` field is the song's catalog
  position, which plays the role of an object reference. The flattening rewrites
  the song at that position. Two entries for one song therefore see one title,
  the last one written, as in the source.
- A song's `chapterTitle` is `None` until flattening writes it.
- Page indices are integers. The settled page comes in as a parameter. A
  `scrollTo` call is recorded as a requested page in `scrollRequests`.
- The current song of the external `state` module is an `Option<Song>`
  parameter. The catalog and the manifest are input sequences.

Several behaviours of the code are easy to misread; the model follows the code:

- Navigation to a song computes the page from the song's numeric `_id`
  (`_id - 1 + 2`); it does not look up the entry. See "Findings".
- The stored `index` is 1-based, so the page of entry `i` is `i + 2 = index + 1`.
  It is not the page number itself.
- With no current song, `scrollToSong` shows the button and then faults on
  `undefined._id`. It is not a silent no-op.
- `scrollToToC` only hides the button and requests page 1. The header stays
  as it is until the scroll view settles on page 1.
- Catalog songs are changed in place by the flattening; they do not stay as loaded.

## Model

| member | source | states |
|---|---|---|
| Catalog.FirstMatch | src/screens/Songbook.js:87 | The result is the position of the first catalog song with the id, and `None` exactly when no song has that id |
| Catalog.FirstMatchSameIds | src/screens/Songbook.js:87-88 | Writing a chapter title onto a song never changes which song a later lookup finds |
| Flattening.Flatten | src/screens/Songbook.js:80-100 | The nested loops produce exactly the fold `Flattened`: the stamped catalog, the entries, the final `pageCount` and the log. `Flattened` is `Run` over `Refs(manifest)`. `Refs` and `ChapterRefs` give the order of the two nested `forEach` loops (lines 83-85): chapters in order, then each chapter's songs in order. `Run` applies one `Step` per reference, and `Step` is one inner iteration (lines 86-98): the lookup, the title write, `pageCount++` and the push, or the `catch` logging the id |
| Flattening.RunKeepsIds | src/screens/Songbook.js:88 | Flattening keeps every catalog position's id (that no other field changes is `RunStampsTitles`) |
| Flattening.RunCounts | src/screens/Songbook.js:82-90 | Entry `i` stores index `i + 1`, and `pageCount` ends equal to the number of entries, so there are no gaps and a missing id does not advance the counter |
| Flattening.RunFollowsRefs | src/screens/Songbook.js:83-98 | The entries are the resolving references in manifest order (chapters in order, then songs in order), each pointing at the first catalog song with that id. The log is exactly the unresolved ids, in order |
| Flattening.ResolvedPlusUnresolved | src/screens/Songbook.js:86-98 | Each manifest reference yields exactly one entry or one diagnostic: entries plus diagnostics equal references |
| Flattening.Resolve | src/screens/Songbook.js:87-90 | The reference list of entry songs: each position is in the catalog, is the first song with its id, and its id is listed in the references |
| Flattening.Unresolved | src/screens/Songbook.js:96-98 | The reference list of diagnostics: each logged id has no catalog song |
| Flattening.LastTitle | src/screens/Songbook.js:88 | The title of the last reference to an id is `None` exactly when no reference lists the id |
| Flattening.LastChapterTitle | src/screens/Songbook.js:83-85 | The last chapter listing an id: `None` exactly when no chapter lists it; otherwise the title of a chapter that lists it and after which no chapter lists it |
| Flattening.RunStampsTitles | src/screens/Songbook.js:87-88 | After flattening, each catalog song carries the title of the last reference to its id if it is the first song with that id; otherwise it keeps its loaded title. All other fields are unchanged |
| Flattening.LastTitleIsLastChapter | src/screens/Songbook.js:83-85 | The last reference to an id in traversal order belongs to the last chapter of the manifest that lists the id |
| Flattening.EntryTitleIsLastChapter | src/screens/Songbook.js:83-90 | Last writer wins: every entry's song carries the title of the last chapter that lists its id, for every one of its entries, and is otherwise the loaded song |
| Flattening.EntrySongIsFirstMatch | src/screens/Songbook.js:87-90 | Every entry's song is the first catalog song with its id, and that id is listed by some chapter |
| Flattening.ExampleAllFound | src/screens/Songbook.js:83-95 | Chapter A [1, 2] and chapter B [3], with all songs present, give indices 1, 2, 3 with titles A, A, B and an empty log |
| Flattening.ExampleMissingSong | src/screens/Songbook.js:83-98 | The same manifest with song 2 missing gives indices 1, 2 for songs 1 and 3 and logs id 2 |
| Pager.FlattenedIsWellFormed | src/screens/Songbook.js:89-90 | The flattened entries carry indices `i + 1`, refer to catalog songs, and every such song has a chapter title. This is what the scroll handler relies on |
| Pager.PageAt | src/screens/Songbook.js:215-230 | A song page is always one of the entries (in range) |
| Pager.PageShowsEntry | src/screens/Songbook.js:215-218 | Entry `i` is shown on page P exactly when P is its stored index plus one (`i + firstValidPageIndex`) |
| Pager.SongPageHeaderIsLastChapter | src/screens/Songbook.js:215-219 | After flattening, the header `HeaderTitle` of the page of entry `i` is the title of the last chapter listing that entry's song. `HeaderTitle` is the `chapter_title` the scroll handler picks (lines 215-230): the cover title, "Table of Contents", or the title of the song on the page |
| Pager.FirstEntry | src/screens/Songbook.js:185 | The first entry whose song has the id, and `None` exactly when no entry holds it |
| Pager.CurrentSong | src/screens/Songbook.js:183-187 | `_currentSong` is undefined exactly when there is no current song or no entry holds it; otherwise it is the first entry holding the song |
| Pager.CurrentPage | src/screens/Songbook.js:189-193 | `_currentPage` is 0 with no current song. It faults exactly when a current song is held by no entry. Otherwise it is the stored index of the first entry holding the song |
| Pager.LookupScrollTarget | src/screens/Songbook.js:189-193 | The page `_currentPage() - 1 + 2` is a song page that shows the current song (its first entry). It is `None` exactly when there is no current song or no entry holds it |
| Pager.IdScrollTargetWhenIdsArePositions | src/screens/Songbook.js:246-249 | When the entries hold the songs with ids 1..n in page order, the id-based target equals the page that shows the song |
| Pager.IdScrollTargetMisses | src/screens/Songbook.js:246-249 | With song 2 missing, song 3 is on page 3, while the id-based target `IdScrollTarget` (line 248) is page 4, one past the last page |
| Pager.ExamplePages | src/screens/Songbook.js:212-231 | For chapter A [1, 2] and chapter B [3], the headers are A on page 3 and B on page 4, "Table of Contents" on page 1 and the cover title on page 0. Song 3 is reached at page 4 |
| Pager.Songbook.constructor | src/screens/Songbook.js:110-113 | The initial state is the header "Hooligan Hymnal" with the button hidden and no scroll requested |
| Pager.Songbook.ShowToCButton | src/screens/Songbook.js:233-235 | Sets the button flag and nothing else |
| Pager.Songbook.HideToCButton | src/screens/Songbook.js:237-239 | Clears the button flag and nothing else |
| Pager.Songbook.OnMomentumScrollEnd | src/screens/Songbook.js:212-231 | Page P ≥ 2 shows the button and the title of `songs[P-2]`'s song. P = 1 hides it with "Table of Contents". Any P < 1 hides it with "Hooligan Hymnal". In every case the header is `HeaderTitle` of P. P past the last page is excluded. No scroll is requested |
| Pager.Songbook.ScrollToToC | src/screens/Songbook.js:241-244 | Hides the button, requests page 1, and leaves the header unchanged |
| Pager.Songbook.HandlePressToCButton | src/screens/Songbook.js:199-201 | Pressing the button does what `scrollToToC` does |
| Pager.Songbook.ScrollToSong | src/screens/Songbook.js:246-249 | Shows the button and requests page `IdScrollTarget(_id)`, that is `_id - 1 + firstValidPageIndex` (line 248), without consulting the entries. With no current song it faults after showing the button, and no scroll is requested |
| Pager.Songbook.ScrollToSongByLookup | src/screens/Songbook.js:246-249 | Corrected navigation: requests the page that shows the current song and shows the button. When the song cannot be found it changes nothing |

## Findings

| source | as written | input that shows it | evidently intended | confidence | as-written member | corrected member |
|---|---|---|---|---|---|---|
| src/screens/Songbook.js:248 | `scrollToSong` scrolls to page `_id - 1 + firstValidPageIndex`. This is the right page only if the song with id k is the k-th entry | Chapter A lists [1, 2] and chapter B lists [3]; song 2 is not in the catalog. Song 3 becomes entry 2 on page 3, but `scrollToSong` asks for page 4, past the last page | Scroll to `index - 1 + firstValidPageIndex` of the song's entry; this is `_currentPage()` (lines 189-193), whose index it mirrors | medium, not executed | Pager.Songbook.ScrollToSong, Pager.IdScrollTargetMisses | Pager.Songbook.ScrollToSongByLookup, Pager.LookupScrollTarget |

## Left out

- `src/screens/Home.js` is not part of this model. It is layout, an animated header opacity (floating point), video playback, a timer-based readiness flag, and links opened in other apps or the browser.
- `src/components/SongView.js` is not part of this model. It is rendering plus clipboard and toast calls into the operating system.
- Pixel arithmetic: the `Math.round(contentOffset.x / screenWidth)` of the scroll handler and the `* screenWidth` of `scrollTo` are floating point. The model takes and requests integer page indices.
- Rendering: the JSX `songViews` pushed by the flattening loop, `render`, `_renderSong`, the `ScrollView`, `RectButton` and `LoadingPlaceholder`. They only build views. `update` only logs.
- React's `setState` batching and asynchrony: each handler is modelled as immediate, sequential field assignments.
- The text of the diagnostic (`<id> not found in songs database`) is not rendered; the log records the missing id itself. Number-to-text conversion is not modelled.
- Pager.Songbook.OnMomentumScrollEnd: a settled page past the last song page reads `.song` of `undefined` in the source. The model excludes it by a precondition rather than modelling the fault, since the scroll view only settles on existing pages.
- JavaScript numbers: ids and page indices are unbounded integers, and ids are compared as integers. A string id coerced by the `- 1` of `scrollToSong` is not modelled.
- Object identity is modelled by catalog position. Only the catalog's songs are shared objects, which makes this enough for the title overwrite at line 88.
- Determinism of the flattening (the same inputs give the same entries) holds by construction, since `Flattened` is a function. No separate lemma states it.
