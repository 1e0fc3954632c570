# Verse screen: paginated verse list and per-row recitation player

This project models the logic of the verse screen of a Quran reading app
(`app/verses.tsx`). The screen shows the verses of one chapter in a list.
It fetches the list page by page from the verse API. Each verse row has a
button that loads, plays and pauses the verse's audio recitation.

Two parts are modelled:

- **Paginated verse accumulation.** Module `Paging` holds the pure rules:
  - `NextPageParam` is the next-cursor rule (`getNextPageParam`).
  - `AllVerses` is the displayed list (`allVerses`), which is the pages'
    verses flattened in page order.

  Module `VerseQuery` holds class `InfiniteVerseQuery`. It is the query
  state: the pages received, the next cursor, whether a fetch is in flight,
  and a log of the cursor each issued fetch asked for. It has these
  operations:
  - `Start` issues the first fetch, for cursor 1.
  - `LoadMore` is the guarded `loadMore`.
  - `CompleteFetch(page)` applies a page that arrived.
  - `FailFetch` records a failed fetch.
- **Per-row playback.** Module `Playback` specifies one row's player
  (`VerseItem`) as a state, `RowState`, with these transitions:
  - `Toggle` and `ToggleCall` give the new state and the engine call of
    `togglePlayback`.
  - `StatusUpdate` is the completion callback.
  - `Teardown` and `TeardownCall` are the unmount cleanup.

  `Run` applies a sequence of events. The lemmas about `Run` give the row
  invariants: playing implies loaded, the handle is never dropped, at most
  one handle is created, and unmounting issues one unload for exactly the
  loaded handle.
  Class `Playback.VerseItem` holds the same state in fields, plus counters
  of handles created and unload calls issued. Its methods are proved to follow the
  specification functions.

The awaited engine calls (`createAsync`, `playAsync`, `pauseAsync`) are not
modelled; each is a step that succeeds or fails. Its outcome is a parameter
(`ok`), and so is the handle a successful load creates. `unloadAsync` is
fired without being awaited, so it has no outcome: the model records that
it was issued. Network
fetches are not modelled either: a page arrives as the argument of
`CompleteFetch`.

Facts about the code that the model keeps:
- `loadMore` during a fetch is dropped; nothing queues it. Only the next
  end-reached event asks again.
- The cursor rule stops at `current_page >= total_pages`, not only at equality.
- Unmount issues an unload only when a handle is loaded. With nothing
  loaded, no call is made.
- Presses are not serialized. No registry keeps only one row playing, so each
  row is independent.

## Model

| member | source | states |
|---|---|---|
| Paging.NextPageParam | app/verses.tsx:116-125 | a next cursor exists exactly when `current_page < total_pages`; it is then `current_page + 1`, so it lies in `(current_page, total_pages]` |
| Paging.NextCursor | app/verses.tsx:116-126 | `hasNextPage` and the next cursor: none before a first page arrives; `current_page + 1` when the last page has `current_page < total_pages`, none when it has `current_page >= total_pages`; when present it is bounded by the last page's `total_pages` |
| Paging.AllVerses | app/verses.tsx:140 | `allVerses` flattens the pages in page order; its length is the sum of the page lengths |
| Paging.AllVersesConcat | app/verses.tsx:140 | flattening the pages distributes over concatenation of page lists |
| Paging.AllVersesAppend | app/verses.tsx:140 | a new page appends exactly its verses; the old list stays a prefix |
| Paging.AllVersesPrefix | app/verses.tsx:140 | a longer page history never reorders or drops verses already shown |
| Paging.AllVersesAt | app/verses.tsx:140 | verse `j` of page `i` is shown at position (verses of pages before `i`) + `j`, so page order is display order |
| Paging.AllVersesMembership | app/verses.tsx:140 | a verse is shown exactly when some received page holds it |
| VerseQuery.InfiniteVerseQuery.Valid | app/verses.tsx:107-133 | the query invariant: the cursor follows the rule, so a present cursor is bounded by the last page's `total_pages`; every issued fetch is a page, a failure or the one fetch in flight, so at most one fetch is in flight |
| VerseQuery.InfiniteVerseQuery.Verses | app/verses.tsx:140 | the displayed list, as long as all received pages together |
| VerseQuery.InfiniteVerseQuery.Start | app/verses.tsx:107-127 | the query starts with no pages, no next cursor, and one fetch in flight for cursor 1 |
| VerseQuery.InfiniteVerseQuery.LoadMore | app/verses.tsx:129-133 | a fetch is issued exactly when a next cursor exists and none is in flight, and it asks for that cursor; otherwise nothing changes |
| VerseQuery.InfiniteVerseQuery.CompleteFetch | app/verses.tsx:116-140 | the in-flight fetch's page is appended, the cursor is recomputed by the rule, and the shown list grows by exactly the page's verses; with nothing in flight, nothing changes |
| VerseQuery.InfiniteVerseQuery.FailFetch | app/verses.tsx:109-115 | a failed fetch ends the fetch and keeps the pages and the cursor; `LoadMore` would re-issue that cursor if called |
| VerseQuery.ReadChapterToEnd | app/verses.tsx:116-140 | a 3-page chapter read to its end shows the three pages' verses in order and requests cursors 1, 2, 3 only; repeated `loadMore` during a fetch and `loadMore` after the last page issue nothing |
| Playback.AudioUri | app/verses.tsx:37-40 | the recitation address is the base audio server followed by the verse's path |
| Playback.AudioUriInjective | app/verses.tsx:37-40 | two verses share a recitation address exactly when they have the same path |
| Playback.Inv | app/verses.tsx:17-66 | the row invariant: playing implies loaded, at most one handle, no unload issued while mounted, an unload issued for everything loaded after unmount; so at most one load and no more unload calls than loads |
| Playback.ToggleCall | app/verses.tsx:20-40 | the engine call of `togglePlayback`: pause exactly when playing and loaded, play exactly when loaded and paused, `createAsync` of the row's address exactly when nothing is loaded; never an unload |
| Playback.Toggle | app/verses.tsx:20-57 | the transition table: on a mounted row a successful press flips `isPlaying` (pause when playing, play when paused) and leaves a sound loaded, and from unloaded it keeps the created handle and counts one load; a failed call changes nothing; a loaded handle and the load count are kept; unload count and mount state are untouched |
| Playback.StatusUpdate | app/verses.tsx:46-54 | a `didJustFinish` update on a mounted, loaded row stops playback; a status update never changes the handle or the counters and never starts playback; one without `didJustFinish` changes nothing |
| Playback.TeardownCall | app/verses.tsx:60-66 | the cleanup issues a call exactly when the mounted row has a loaded handle, and that call unloads that handle |
| Playback.Teardown | app/verses.tsx:60-66 | after unmount the row is unmounted with handle, playing flag and load count unchanged; the unload count grows by one exactly when the cleanup issued an unload |
| Playback.Step | app/verses.tsx:17-66 | one event keeps a loaded handle, adds at most one load, and leaves an unmounted row unchanged |
| Playback.Run | app/verses.tsx:17-66 | events applied in order never lower the load count, and leave an unmounted row unchanged |
| Playback.StepKeepsInv | app/verses.tsx:17-66 | each press, status update or unmount keeps the row invariant |
| Playback.RunKeepsInv | app/verses.tsx:17-66 | any event sequence keeps the invariant: playing implies loaded, at most one handle, no unload issued while mounted, an unload issued for everything loaded after unmount |
| Playback.RunKeepsHandle | app/verses.tsx:17-66 | once loaded, the handle is never replaced or reset to none |
| Playback.NoReloadAfterLoad | app/verses.tsx:23-40 | once a row is loaded, no later press issues `createAsync` |
| Playback.AtMostOneLoad | app/verses.tsx:17-43 | from a fresh row, any event sequence creates at most one handle, and playing implies loaded |
| Playback.TeardownReleasesLoaded | app/verses.tsx:60-66 | unmounting issues one unload call, for exactly the loaded handle, and no call when nothing was loaded |
| Playback.ToggleFlips | app/verses.tsx:20-43 | a successful toggle on a mounted row flips `isPlaying`, leaves a sound loaded and keeps an existing handle |
| Playback.FinishKeepsHandle | app/verses.tsx:46-54 | a `didJustFinish` update stops playing and keeps the handle; the row never returns to unloaded |
| Playback.PlayPausePlay | app/verses.tsx:20-43 | play, pause, play: the third press resumes the handle the first created, and only one handle is created |
| Playback.VerseItem.Valid | app/verses.tsx:17-18 | the row's fields keep the row invariant: at most one load, no more unload calls than loads, playing implies loaded |
| Playback.VerseItem.constructor | app/verses.tsx:16-18 | a new row has no sound and is not playing |
| Playback.VerseItem.TogglePlayback | app/verses.tsx:20-57 | issues pause if playing, play if loaded, and load otherwise; the state follows `Toggle` only when the awaited call succeeded, and a failure changes nothing |
| Playback.VerseItem.OnPlaybackStatusUpdate | app/verses.tsx:46-54 | a finished playback clears `isPlaying` and never changes `sound` |
| Playback.VerseItem.Unmount | app/verses.tsx:60-66 | the cleanup issues an unload for the loaded handle, if any, and afterwards unload calls equal loads |

## Left out

- Rendering: the JSX, the `FlatList` tuning props, the 0.3 end-reached threshold, the header and footer, and the `isLoading` early return (app/verses.tsx:68-93, 135, 144-177). These are display, not logic.
- The `error` early return (app/verses.tsx:136). After a failed fetch it replaces the whole list with an error text, so `onEndReached` can no longer call `loadMore` and the screen offers no retry. The model does not capture this: `LoadMore` stays callable after `FailFetch`.
- Fetch error statuses (app/verses.tsx:111-114). The code never checks `response.ok`, so an HTTP error body is stored as a page. The model cannot express this, because every page is a well-formed `QuranResponse`; only a rejected fetch is a `FailFetch`.
- Network fetching and the query URL, including `PER_PAGE` in the query string (app/verses.tsx:109-114). These are I/O. A page arrives as an argument of `CompleteFetch`.
- The internals of the query library: caching, the query key, automatic retries, and how `hasNextPage` and `isFetchingNextPage` are derived. The model keeps only the guard and the cursor rule in app/verses.tsx, with `hasNextPage` read as "the rule gives a cursor for the last page".
- A first fetch that fails leaves no pages and no cursor. Retrying it belongs to the query library and is not modelled.
- The audio engine (`createAsync`, `playAsync`, `pauseAsync`, `unloadAsync`, status delivery). Each awaited call is an abstract step that succeeds or fails.
- `unloadAsync` is fired without `await`, and its rejection is not caught (app/verses.tsx:63). `unloads` counts unload calls issued; a failed unload is not modelled. `loads` counts handles created, not `createAsync` calls: a failed load creates no handle and may be retried by the next press.
- Async interleaving. Each toggle, status update and unmount is one atomic step. So the model does not capture a press during a pending load, or an unmount while `createAsync` is still pending.
- Stale fetch results. A completion or failure with nothing in flight changes nothing.
- `console.log` and `console.error` calls.
- app/index.tsx and app/_layout.tsx (the chapter list and router wiring) are not part of this model. types/index.ts gives only the record shapes, and word translations and other scripts are dropped from `Verse`.
