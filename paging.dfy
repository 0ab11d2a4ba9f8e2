/** The paging shared by the two menus that show a list 25 entries at a
    time: the blacklist picker of the authorization cog and the command
    pages of the help cog. Both count their pages, slice the current page,
    clamp the page on Prev/Next and rebuild the same controls. */
module Paging {
  const PAGE_SIZE := 25

  /** `total_pages`: one page for an empty list, else enough pages of 25. */
  function TotalPages(n: nat): (r: nat)
    ensures r >= 1
    ensures n > 0 ==> PAGE_SIZE * (r - 1) < n <= PAGE_SIZE * r
  {
    if n == 0 then 1 else (n - 1) / PAGE_SIZE + 1
  }

  /** `items[page * 25 : page * 25 + 25]` with Python's clipping. */
  function PageItems<T>(items: seq<T>, page: nat): (r: seq<T>)
    ensures |r| <= PAGE_SIZE
    ensures forall k :: 0 <= k < |r| ==> page * PAGE_SIZE + k < |items| && r[k] == items[page * PAGE_SIZE + k]
  {
    var start := page * PAGE_SIZE;
    var end := start + PAGE_SIZE;
    if start >= |items| then []
    else if end >= |items| then items[start..]
    else items[start..end]
  }

  /** Every entry is shown on exactly one page, `k / 25` for the entry at
      position `k`, and that page exists. */
  lemma EveryItemHasItsPage<T>(items: seq<T>, k: nat)
    requires k < |items|
    ensures k / PAGE_SIZE < TotalPages(|items|)
    ensures k % PAGE_SIZE < |PageItems(items, k / PAGE_SIZE)|
    ensures PageItems(items, k / PAGE_SIZE)[k % PAGE_SIZE] == items[k]
  {
    var p := k / PAGE_SIZE;
    assert p * PAGE_SIZE <= k < p * PAGE_SIZE + PAGE_SIZE;
  }

  /** A page that exists is empty only when the whole list is. */
  lemma PageEmptyOnlyWhenListIs<T>(items: seq<T>, page: nat)
    requires page < TotalPages(|items|)
    ensures (PageItems(items, page) == []) <==> (items == [])
  {
    if items != [] {
      assert page * PAGE_SIZE < |items| by {
        assert page <= TotalPages(|items|) - 1;
      }
    }
  }

  /** The Prev button: one page back, never below the first. */
  function PrevPage(page: int): (r: int)
    ensures page >= 1 ==> r == page - 1
    ensures page < 1 ==> r == 0
  {
    if page - 1 < 0 then 0 else page - 1
  }

  /** The Next button: one page on, never past the last. */
  function NextPage(page: int, total: nat): (r: int)
    ensures page + 1 <= total - 1 ==> r == page + 1
    ensures page + 1 > total - 1 ==> r == total - 1
  {
    if total - 1 < page + 1 then total - 1 else page + 1
  }

  /** Both buttons keep a page that exists inside the range of pages. */
  lemma ButtonsStayInRange(page: int, total: nat)
    requires 0 <= page < total
    ensures 0 <= PrevPage(page) < total && 0 <= NextPage(page, total) < total
    ensures NextPage(page, total) == page <==> page == total - 1
    ensures PrevPage(page) == page <==> page == 0
  {
  }

  /** What `rebuild` puts on the message: the select menu when the page
      has entries, and the two buttons when there is more than one page,
      each disabled at its end. */
  datatype Controls = Controls(hasSelect: bool, hasButtons: bool, prevDisabled: bool, nextDisabled: bool)

  function PageControls<T>(items: seq<T>, page: nat): (c: Controls)
    requires page < TotalPages(|items|)
    ensures c.hasSelect <==> items != []
    ensures c.hasButtons <==> |items| > PAGE_SIZE
    ensures c.hasButtons ==> (c.prevDisabled <==> page == 0)
    ensures c.hasButtons ==> (c.nextDisabled <==> page == TotalPages(|items|) - 1)
  {
    PageEmptyOnlyWhenListIs(items, page);
    var total := TotalPages(|items|);
    if total > 1 then Controls(PageItems(items, page) != [], true, page == 0, page >= total - 1)
    else Controls(PageItems(items, page) != [], false, false, false)
  }
}
