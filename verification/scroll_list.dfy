/** The "Load More" list shared by the careers and colleges pages
    (client/src/pages/Careers.jsx, client/src/pages/Colleges.jsx): each response
    either replaces the list (page 1) or is appended to it (later pages). */
module ScrollList {
  import opened Wrappers
  import opened Collections
  import opened ItemsRoute

  /** The fields of a list response the pages read; `items` is None when the
      response lacks the list. */
  datatype Payload<T> = Payload(items: Option<seq<T>>, currentPage: int, totalPages: int)

  /** `data.careers || []` / `responseData.items || []` */
  function Received<T>(p: Payload<T>): (r: seq<T>)
    ensures p.items.None? ==> r == []
    ensures p.items.Some? ==> r == p.items.value
  {
    p.items.GetOr([])
  }

  /** The list after the response for page `pageNum` arrives. */
  function Accumulate<T>(prev: seq<T>, pageNum: int, received: seq<T>): (r: seq<T>)
    ensures pageNum == 1 ==> r == received
    ensures pageNum != 1 ==> |r| == |prev| + |received| && r[..|prev|] == prev && r[|prev|..] == received
  {
    if pageNum == 1 then received else prev + received
  }

  /** `data.currentPage < data.totalPages` */
  predicate MoreAfter<T>(p: Payload<T>) {
    p.currentPage < p.totalPages
  }

  /** The list after requesting pages 1, 2, ..., n in turn from a server whose
      matching records are `m` and whose page size is `limit`. */
  function ScrollThrough<T>(m: seq<T>, limit: nat, n: nat): seq<T> {
    if n == 0 then []
    else Accumulate(ScrollThrough(m, limit, n - 1), n, Window(m, (n - 1) * limit, limit))
  }

  /** Scrolling through n pages shows exactly the first n * limit matching records,
      in store order: nothing is lost or repeated between pages. */
  lemma {:induction false} ScrollThroughIsPrefix<T>(m: seq<T>, limit: nat, n: nat)
    ensures ScrollThrough(m, limit, n) == m[..Min(n * limit, |m|)]
  {
    ScrollThroughIsPagesUpTo(m, limit, n);
    PagesUpToIsPrefix(m, limit, n);
  }

  lemma {:induction false} ScrollThroughIsPagesUpTo<T>(m: seq<T>, limit: nat, n: nat)
    ensures ScrollThrough(m, limit, n) == PagesUpTo(m, limit, n)
  {
    if n == 1 {
      assert PagesUpTo(m, limit, 0) == [];
    } else if n > 1 {
      ScrollThroughIsPagesUpTo(m, limit, n - 1);
    }
  }

  /** "Load More" stays on offer until the last page, and once it is gone the page
      holds every matching record. */
  lemma ScrollToEnd<T>(m: seq<T>, limit: nat, n: nat)
    requires limit > 0 && n >= 1
    ensures n < CeilDiv(|m|, limit) <==> |ScrollThrough(m, limit, n)| < |m|
    ensures n >= CeilDiv(|m|, limit) ==> ScrollThrough(m, limit, n) == m
  {
    ScrollThroughIsPrefix(m, limit, n);
    MoreAfterPage(|m|, n, limit);
  }
}
