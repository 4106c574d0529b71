/** The pagination every list page repeats: the current page's slice
    `list.slice(page * perPage - perPage, page * perPage)`, the page count
    `Math.ceil(length / perPage)`, and the Previous/Next buttons. */
module Paging {

  /** Where `Array.prototype.slice` puts a bound: negative bounds count from
      the end, and every bound is clamped into `[0, len]`. */
  function SliceBound(x: int, len: nat): (r: nat)
    ensures r <= len
    ensures 0 <= x <= len ==> r == x
  {
    if x < 0 then (if len + x < 0 then 0 else len + x)
    else if x > len then len
    else x
  }

  /** `s.slice(start, end)`. */
  function JsSlice<T>(s: seq<T>, start: int, end: int): seq<T>
  {
    var a := SliceBound(start, |s|);
    var b := SliceBound(end, |s|);
    if a < b then s[a..b] else []
  }

  /** The records shown on page `page`. */
  function PageOf<T>(s: seq<T>, page: int, perPage: nat): seq<T>
  {
    JsSlice(s, page * perPage - perPage, page * perPage)
  }

  /** `Math.ceil(n / perPage)` for a count `n`. */
  function TotalPages(n: nat, perPage: nat): nat
    requires perPage > 0
  {
    (n + perPage - 1) / perPage
  }

  /** `prev < totalPages ? prev + 1 : prev`. */
  function NextPage(page: int, totalPages: nat): int
  {
    if page < totalPages then page + 1 else page
  }

  /** `prev > 1 ? prev - 1 : prev`. */
  function PrevPage(page: int): int
  {
    if page > 1 then page - 1 else page
  }

  /** `Math.min(prev + 1, totalPages)`. */
  function ClampedNextPage(page: int, totalPages: nat): int
  {
    if page + 1 < totalPages then page + 1 else totalPages
  }

  /** `Math.max(prev - 1, 1)`. */
  function ClampedPrevPage(page: int): int
  {
    if page - 1 > 1 then page - 1 else 1
  }

  lemma Distribute(page: int, perPage: nat)
    ensures page * perPage - perPage == (page - 1) * perPage
  {
  }

  lemma NonnegProduct(a: nat, b: nat)
    ensures a * b >= 0
  {
  }

  /** The slice from a non-negative `first` up to `last`. */
  lemma SliceWindow<T>(s: seq<T>, first: nat, last: nat)
    requires first <= last
    ensures |JsSlice(s, first, last)| <= last - first
    ensures |JsSlice(s, first, last)| == (if first >= |s| then 0 else if |s| - first < last - first then |s| - first else last - first)
    ensures forall i :: 0 <= i < |JsSlice(s, first, last)| ==> JsSlice(s, first, last)[i] == s[first + i]
  {
  }

  /** Page `page` (counting from 1) holds at most `perPage` records: those at
      positions `(page - 1) * perPage` up to, not including, `page * perPage`. */
  lemma PageOfSpec<T>(s: seq<T>, page: int, perPage: nat)
    requires page >= 1 && perPage > 0
    ensures var first := (page - 1) * perPage;
            && |PageOf(s, page, perPage)| <= perPage
            && |PageOf(s, page, perPage)| == (if first >= |s| then 0
                                              else if |s| - first < perPage then |s| - first
                                              else perPage)
            && forall i :: 0 <= i < |PageOf(s, page, perPage)| ==>
                 PageOf(s, page, perPage)[i] == s[first + i]
  {
    var first := (page - 1) * perPage;
    NonnegProduct(page - 1, perPage);
    Distribute(page, perPage);
    assert PageOf(s, page, perPage) == JsSlice(s, first, first + perPage);
    SliceWindow(s, first, first + perPage);
  }

  /** The page count is the ceiling of `n / perPage`: the fewest pages of
      `perPage` records that hold `n` records. */
  lemma TotalPagesSpec(n: nat, perPage: nat)
    requires perPage > 0
    ensures TotalPages(n, perPage) * perPage >= n
    ensures TotalPages(n, perPage) > 0 ==> (TotalPages(n, perPage) - 1) * perPage < n
    ensures TotalPages(n, perPage) == 0 <==> n == 0
  {
    var t := TotalPages(n, perPage);
    var m := n + perPage - 1;
    assert m == t * perPage + m % perPage;
    assert 0 <= m % perPage < perPage;
    assert t * perPage - perPage == (t - 1) * perPage;
  }

  /** Pages 1 to `t`, one after another. */
  function FirstPages<T>(s: seq<T>, perPage: nat, t: nat): seq<T>
  {
    if t == 0 then [] else FirstPages(s, perPage, t - 1) + PageOf(s, t, perPage)
  }

  /** A prefix of the list followed by the next window of `k` records is the
      longer prefix. */
  lemma PrefixThenWindow<T>(s: seq<T>, first: nat, k: nat)
    ensures s[..if first < |s| then first else |s|] + JsSlice(s, first, first + k)
            == s[..if first + k < |s| then first + k else |s|]
  {
    SliceWindow(s, first, first + k);
  }

  lemma {:induction false} FirstPagesPrefix<T>(s: seq<T>, perPage: nat, t: nat)
    requires perPage > 0
    ensures FirstPages(s, perPage, t) == s[..if t * perPage < |s| then t * perPage else |s|]
  {
    if t > 0 {
      var first := (t - 1) * perPage;
      NonnegProduct(t - 1, perPage);
      Distribute(t, perPage);
      FirstPagesPrefix(s, perPage, t - 1);
      assert PageOf(s, t, perPage) == JsSlice(s, first, first + perPage);
      PrefixThenWindow(s, first, perPage);
    }
  }

  /** Walking pages 1 to `totalPages` shows every record once, in list order. */
  lemma PagesCoverList<T>(s: seq<T>, perPage: nat)
    requires perPage > 0
    ensures FirstPages(s, perPage, TotalPages(|s|, perPage)) == s
  {
    TotalPagesSpec(|s|, perPage);
    FirstPagesPrefix(s, perPage, TotalPages(|s|, perPage));
  }

  /** Next never passes the last page and Previous never goes below page 1:
      starting from a page in `[1, totalPages]`, both stay there; Next on the
      last page and Previous on page 1 leave the page where it is. */
  lemma NextPrevStayInRange(page: int, totalPages: nat)
    requires 1 <= page <= totalPages
    ensures 1 <= NextPage(page, totalPages) <= totalPages
    ensures 1 <= PrevPage(page) <= totalPages
    ensures page == totalPages ==> NextPage(page, totalPages) == page
    ensures page == 1 ==> PrevPage(page) == page
  {
  }

  /** Inside `[1, totalPages]` the `Math.min`/`Math.max` buttons move exactly
      like the ternary ones. */
  lemma ClampedMatchesTernary(page: int, totalPages: nat)
    requires 1 <= page <= totalPages
    ensures ClampedNextPage(page, totalPages) == NextPage(page, totalPages)
    ensures ClampedPrevPage(page) == PrevPage(page)
  {
  }

  /** From any page, `Math.min(prev + 1, totalPages)` never passes the last
      page and `Math.max(prev - 1, 1)` never goes below the first; so on a list
      with no pages Next moves from page 1 to page 0. */
  lemma ClampedBounds(page: int, totalPages: nat)
    ensures ClampedNextPage(page, totalPages) <= totalPages
    ensures page < totalPages ==> ClampedNextPage(page, totalPages) == page + 1
    ensures ClampedPrevPage(page) >= 1
    ensures page > 1 ==> ClampedPrevPage(page) == page - 1
    ensures page >= 1 && totalPages == 0 ==> ClampedNextPage(page, totalPages) == 0
  {
  }
}
