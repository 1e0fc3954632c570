/**
 * The verse screen's infinite query as a store: the pages received so far,
 * the cursor of the next page, whether a fetch is in flight, and a log of
 * the cursors every issued fetch asked for. The network fetch itself is
 * not modelled: a page arrives as the argument of `CompleteFetch`, a
 * failed fetch as a call of `FailFetch`.
 */
module VerseQuery {
  import opened Wrappers
  import opened QuranTypes
  import opened Paging

  class InfiniteVerseQuery {
    /** The pages received, in arrival order (`data.pages`). */
    var pages: seq<QuranResponse>
    /** The cursor of the next page; `Some?` is `hasNextPage`. */
    var nextCursor: Option<int>
    /** A fetch is in flight (`isFetchingNextPage` once a page is shown). */
    var fetching: bool
    /** The cursor of every fetch issued, in issue order. */
    var requested: seq<int>
    /** How many issued fetches failed. */
    var failures: nat

    /**
     * The cursor always follows the cursor rule; every issued fetch is a
     * received page, a failure or the one fetch in flight; and the fetch
     * in flight asks for the cursor the rule gave when it was issued.
     */
    ghost predicate Valid()
      reads this
      ensures Valid() ==> |requested| >= |pages| + (if fetching then 1 else 0)
      ensures Valid() && nextCursor.Some? ==>
        pages != [] &&
        pages[|pages| - 1].pagination.currentPage < nextCursor.value <= pages[|pages| - 1].pagination.totalPages
    {
      nextCursor == NextCursor(pages) &&
      requested != [] && requested[0] == InitialPageParam &&
      |requested| == |pages| + failures + (if fetching then 1 else 0) &&
      (fetching ==>
        Some(requested[|requested| - 1]) ==
          (if pages == [] then Some(InitialPageParam) else nextCursor))
    }

    /** The list the screen displays (`allVerses`). */
    function Verses(): (shown: seq<Verse>)
      reads this
      ensures |shown| == TotalVerses(pages)
    {
      AllVerses(pages)
    }

    /** Mounting the screen: the first fetch, for cursor 1, is issued. */
    constructor Start()
      ensures Valid()
      ensures pages == [] && nextCursor == None && fetching
      ensures requested == [InitialPageParam] && failures == 0
    {
      pages := [];
      nextCursor := None;
      fetching := true;
      requested := [InitialPageParam];
      failures := 0;
    }

    /**
     * `loadMore`: issues a fetch for the next cursor only when there is a
     * next page and no fetch in flight; otherwise nothing changes.
     */
    method LoadMore() returns (issued: bool)
      requires Valid()
      modifies this
      ensures Valid()
      ensures issued <==> old(nextCursor).Some? && !old(fetching)
      ensures issued ==>
        fetching && requested == old(requested) + [old(nextCursor).value] &&
        pages == old(pages) && nextCursor == old(nextCursor) && failures == old(failures)
      ensures !issued ==> unchanged(this)
    {
      issued := false;
      if nextCursor.Some? && !fetching {
        requested := requested + [nextCursor.value];
        fetching := true;
        issued := true;
      }
    }

    /**
     * The fetch in flight answered with `page`: the page is appended, the
     * cursor recomputed from it, and the displayed list grows by exactly
     * its verses. With nothing in flight there is no answer to apply.
     */
    method CompleteFetch(page: QuranResponse) returns (applied: bool)
      requires Valid()
      modifies this
      ensures Valid()
      ensures applied == old(fetching)
      ensures applied ==>
        pages == old(pages) + [page] && nextCursor == NextPageParam(page) && !fetching &&
        requested == old(requested) && failures == old(failures)
      ensures applied ==> Verses() == old(Verses()) + page.verses
      ensures !applied ==> unchanged(this)
    {
      applied := fetching;
      if fetching {
        AllVersesAppend(pages, page);
        pages := pages + [page];
        nextCursor := NextPageParam(page);
        fetching := false;
      }
    }

    /**
     * The fetch in flight failed: it is no longer in flight, and the pages
     * and the cursor are kept; `LoadMore` would re-issue that cursor if called.
     */
    method FailFetch() returns (applied: bool)
      requires Valid()
      modifies this
      ensures Valid()
      ensures applied == old(fetching)
      ensures applied ==>
        !fetching && failures == old(failures) + 1 &&
        pages == old(pages) && nextCursor == old(nextCursor) && requested == old(requested)
      ensures !applied ==> unchanged(this)
    {
      applied := fetching;
      if fetching {
        fetching := false;
        failures := failures + 1;
      }
    }
  }

  /**
   * A three-page chapter read to its end: after each page the list holds
   * the verses so far, repeated `LoadMore` calls during a fetch issue
   * nothing, and after the last page `LoadMore` issues nothing either.
   */
  method ReadChapterToEnd(p1: QuranResponse, p2: QuranResponse, p3: QuranResponse)
    returns (shown: seq<Verse>, cursors: seq<int>, issuedAfterEnd: bool)
    requires p1.pagination.currentPage == 1 && p1.pagination.totalPages == 3
    requires p2.pagination.currentPage == 2 && p2.pagination.totalPages == 3
    requires p3.pagination.currentPage == 3 && p3.pagination.totalPages == 3
    ensures shown == p1.verses + p2.verses + p3.verses
    ensures cursors == [1, 2, 3]
    ensures !issuedAfterEnd
  {
    var query := new InfiniteVerseQuery.Start();
    var applied := query.CompleteFetch(p1);
    assert query.nextCursor == Some(2);
    var issued := query.LoadMore();
    assert issued;
    issued := query.LoadMore();
    assert !issued;
    applied := query.CompleteFetch(p2);
    assert query.nextCursor == Some(3);
    issued := query.LoadMore();
    applied := query.CompleteFetch(p3);
    assert query.nextCursor == None;
    issuedAfterEnd := query.LoadMore();
    shown := query.Verses();
    cursors := query.requested;
    assert AllVerses([]) == [];
  }
}
