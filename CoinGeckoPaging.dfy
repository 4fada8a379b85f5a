/**
 * Page splitting for the top-markets request: the provider asks for at most
 * 250 coins per page and issues one request per page, in page order.
 */
module CoinGeckoPaging {

  const MaxItemPerPage: int := 250

  /** The arguments of one `coins/markets` page request. */
  datatype PageRequest = PageRequest(itemsCount: int, pageNumber: int)

  /** How many requests are made for `itemsCount` coins: at least one, even for
      a count that is not positive, otherwise the count divided by 250 rounded up. */
  function PageCount(itemsCount: int): (n: nat)
    ensures n >= 1
  {
    if itemsCount <= 0 then 1 else (itemsCount + MaxItemPerPage - 1) / MaxItemPerPage
  }

  /** The request with index `i` (page `i + 1`): what remains after `i` full
      pages, capped at 250. */
  function PageAt(itemsCount: int, i: nat): (p: PageRequest)
    ensures p.pageNumber == i + 1
    ensures p.itemsCount <= MaxItemPerPage
  {
    var remaining := itemsCount - MaxItemPerPage * i;
    PageRequest(if remaining > MaxItemPerPage then MaxItemPerPage else remaining, i + 1)
  }

  /** The do-while loop of getTopCoinMarketsAsync, collecting the page requests
      it issues instead of the requests' results. */
  method TopMarketsPages(itemsCount: int) returns (pages: seq<PageRequest>)
    ensures |pages| == PageCount(itemsCount)
    ensures forall i :: 0 <= i < |pages| ==> pages[i] == PageAt(itemsCount, i)
  {
    var pageNumber := 1;
    var requestItems := itemsCount;
    pages := [];
    while true
      invariant pageNumber == |pages| + 1
      invariant requestItems == itemsCount - MaxItemPerPage * |pages|
      invariant |pages| > 0 ==> requestItems > 0
      invariant forall i :: 0 <= i < |pages| ==> pages[i] == PageAt(itemsCount, i)
      decreases requestItems
    {
      pages := pages + [PageRequest(if requestItems > MaxItemPerPage then MaxItemPerPage else requestItems, pageNumber)];
      requestItems := requestItems - MaxItemPerPage;
      pageNumber := pageNumber + 1;
      if requestItems <= 0 {
        break;
      }
    }
  }

  /** Total number of coins asked for by a list of page requests. */
  function TotalItems(pages: seq<PageRequest>): int
  {
    if pages == [] then 0 else TotalItems(pages[..|pages| - 1]) + pages[|pages| - 1].itemsCount
  }

  /** The pages before the last are full; the last holds what is left, between
      1 and 250 coins when the count is positive. A count that is not positive
      is passed through unchanged on the single page. */
  lemma PageShape(itemsCount: int, i: nat)
    requires i < PageCount(itemsCount)
    ensures itemsCount <= 0 ==> PageAt(itemsCount, i) == PageRequest(itemsCount, 1)
    ensures itemsCount > 0 && i < PageCount(itemsCount) - 1 ==> PageAt(itemsCount, i).itemsCount == MaxItemPerPage
    ensures itemsCount > 0 && i == PageCount(itemsCount) - 1 ==>
      && PageAt(itemsCount, i).itemsCount == itemsCount - MaxItemPerPage * i
      && 1 <= PageAt(itemsCount, i).itemsCount <= MaxItemPerPage
  {
  }

  /** The first `k` requests ask for 250 coins each when none of them is the last. */
  lemma {:induction false} FullPagesTotal(itemsCount: int, k: nat)
    requires itemsCount > 0 && k < PageCount(itemsCount)
    ensures TotalItems(seq(k, i requires 0 <= i => PageAt(itemsCount, i))) == MaxItemPerPage * k
  {
    var pages := seq(k, i requires 0 <= i => PageAt(itemsCount, i));
    if k > 0 {
      var m: nat := k - 1;
      var prefix := seq(m, i requires 0 <= i => PageAt(itemsCount, i));
      assert pages[..m] == prefix;
      FullPagesTotal(itemsCount, m);
      PageShape(itemsCount, m);
    }
  }

  /** For a positive count the page sizes add up to exactly the count. */
  lemma PagesCoverCount(itemsCount: int, pages: seq<PageRequest>)
    requires |pages| == PageCount(itemsCount)
    requires forall i :: 0 <= i < |pages| ==> pages[i] == PageAt(itemsCount, i)
    ensures itemsCount > 0 ==> TotalItems(pages) == itemsCount
  {
    if itemsCount > 0 {
      var m: nat := |pages| - 1;
      assert pages[..m] == seq(m, i requires 0 <= i => PageAt(itemsCount, i));
      FullPagesTotal(itemsCount, m);
      PageShape(itemsCount, m);
    }
  }
}
