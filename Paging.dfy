/**
 * The pure half of the verse screen's infinite query: the rule that picks
 * the next page cursor from the last page received (`getNextPageParam`)
 * and the list shown to the user, the pages' verses flattened in page
 * order (`allVerses`).
 */
module Paging {
  import opened Wrappers
  import opened QuranTypes

  /** The cursor of the first fetch (`initialPageParam`). */
  const InitialPageParam: int := 1

  /**
   * `getNextPageParam`: the page after the last one received, when the
   * last page says it is not the final one; no cursor otherwise.
   */
  function NextPageParam(lastPage: QuranResponse): (next: Option<int>)
    ensures next.Some? <==> lastPage.pagination.currentPage < lastPage.pagination.totalPages
    ensures next.Some? ==> next.value == lastPage.pagination.currentPage + 1
    ensures next.Some? ==>
      lastPage.pagination.currentPage < next.value <= lastPage.pagination.totalPages
  {
    if lastPage.pagination.currentPage < lastPage.pagination.totalPages then
      Some(lastPage.pagination.currentPage + 1)
    else
      None
  }

  /**
   * The cursor the query would fetch next (`hasNextPage` is `Some?`):
   * nothing before a first page has arrived, the rule applied to the
   * last page afterwards.
   */
  function NextCursor(pages: seq<QuranResponse>): (next: Option<int>)
    ensures next.Some? ==> pages != []
    ensures next.Some? ==>
      var last := pages[|pages| - 1].pagination;
      last.currentPage < next.value <= last.totalPages
    ensures pages != [] && pages[|pages| - 1].pagination.currentPage >= pages[|pages| - 1].pagination.totalPages
      ==> next == None
    ensures pages != [] && pages[|pages| - 1].pagination.currentPage < pages[|pages| - 1].pagination.totalPages
      ==> next == Some(pages[|pages| - 1].pagination.currentPage + 1)
  {
    if pages == [] then None else NextPageParam(pages[|pages| - 1])
  }

  /**
   * `allVerses`: the verses of every page, page after page. The list is as
   * long as all pages together.
   */
  function AllVerses(pages: seq<QuranResponse>): (shown: seq<Verse>)
    ensures |shown| == TotalVerses(pages)
  {
    if pages == [] then [] else pages[0].verses + AllVerses(pages[1..])
  }

  /** The sum of the pages' verse counts. */
  function TotalVerses(pages: seq<QuranResponse>): nat
  {
    if pages == [] then 0 else |pages[0].verses| + TotalVerses(pages[1..])
  }

  /** Flattening distributes over concatenation of page lists. */
  lemma {:induction false} AllVersesConcat(ps: seq<QuranResponse>, qs: seq<QuranResponse>)
    ensures AllVerses(ps + qs) == AllVerses(ps) + AllVerses(qs)
  {
    if ps == [] {
      assert ps + qs == qs;
    } else {
      assert (ps + qs)[1..] == ps[1..] + qs;
      AllVersesConcat(ps[1..], qs);
    }
  }

  /**
   * Receiving one more page appends exactly its verses to the displayed
   * list, so the list shown before stays a prefix of the list shown after.
   */
  lemma AllVersesAppend(pages: seq<QuranResponse>, page: QuranResponse)
    ensures AllVerses(pages + [page]) == AllVerses(pages) + page.verses
    ensures AllVerses(pages) <= AllVerses(pages + [page])
  {
    AllVersesConcat(pages, [page]);
    assert AllVerses([page]) == page.verses + AllVerses([]);
  }

  /** A longer page history never reorders or drops verses already shown. */
  lemma AllVersesPrefix(pages: seq<QuranResponse>, more: seq<QuranResponse>)
    requires pages <= more
    ensures AllVerses(pages) <= AllVerses(more)
  {
    assert more == pages + more[|pages|..];
    AllVersesConcat(pages, more[|pages|..]);
  }

  /**
   * Page order is display order: verse `j` of page `i` sits right after
   * the verses of the pages before it.
   */
  lemma {:induction false} AllVersesAt(pages: seq<QuranResponse>, i: nat, j: nat)
    requires i < |pages| && j < |pages[i].verses|
    ensures TotalVerses(pages[..i]) + j < |AllVerses(pages)|
    ensures AllVerses(pages)[TotalVerses(pages[..i]) + j] == pages[i].verses[j]
  {
    if i == 0 {
      assert pages[..0] == [];
    } else {
      AllVersesAt(pages[1..], i - 1, j);
      assert pages[..i][1..] == pages[1..][..i - 1];
      assert pages[..i][0] == pages[0];
    }
  }

  /** A verse is displayed exactly when some received page holds it. */
  lemma {:induction false} AllVersesMembership(pages: seq<QuranResponse>, v: Verse)
    ensures v in AllVerses(pages) <==> exists i :: 0 <= i < |pages| && v in pages[i].verses
  {
    if pages != [] {
      AllVersesMembership(pages[1..], v);
      if v in AllVerses(pages[1..]) {
        var i :| 0 <= i < |pages[1..]| && v in pages[1..][i].verses;
        assert v in pages[i + 1].verses;
      }
      if exists i :: 0 <= i < |pages| && v in pages[i].verses {
        var i :| 0 <= i < |pages| && v in pages[i].verses;
        if i > 0 {
          assert v in pages[1..][i - 1].verses;
        }
      }
    }
  }
}
