/** Pagination of the listing endpoints (api_v1.py): the page-size clamp, the
    page count, the start offset with Python-style negative page numbers, and
    the `prev`/`next` links returned in the response headers. The links are
    modelled by the page number they carry; the URL text around it is not. */
module Pagination {
  import opened Common

  /** `THOTH_USER_API_PAGE_SIZE_MAX` and `..._DEFAULT` at their defaults. */
  const PageSizeMax := 100
  const PageSizeDefault := 25

  /** `per_page = min(per_page, PAGINATION_SIZE_MAX)`; there is no lower bound. */
  function ClampPerPage(perPage: int): (r: int)
    ensures r <= PageSizeMax && r <= perPage
    ensures r == perPage || r == PageSizeMax
  {
    if perPage < PageSizeMax then perPage else PageSizeMax
  }

  /** `ceil(entries_count / per_page)`: the least integer not below the
      quotient; dividing by zero raises. Floating-point rounding of very
      large counts is not modelled. */
  function PageCount(entries: nat, perPage: int): (r: Result<int>)
    ensures r.Raise? <==> perPage == 0
    ensures r.Raise? ==> r.exc == ZeroDivisionError
    ensures r.Ok? && perPage > 0 ==> (r.value - 1) * perPage < entries <= r.value * perPage
    ensures r.Ok? && perPage < 0 ==> r.value * perPage <= entries < (r.value - 1) * perPage
  {
    if perPage == 0 then Raise(ZeroDivisionError)
    else
      var q := FloorDiv(0 - entries, perPage);
      var m := PyMod(0 - entries, perPage);
      assert 0 - entries == perPage * q + m;
      Ok(-q)
  }

  /** The page a non-empty listing actually serves for `page`: itself when
      it is not negative; otherwise counted from the end, wrapping around. */
  function ResolvePage(page: int, pageCount: int): int
    requires pageCount != 0
  {
    if page < 0 then pageCount - PyMod(-page - 1, pageCount) - 1 else page
  }

  /** `_compute_offset(page=..., page_count=..., per_page=...)` */
  function ComputeOffset(page: int, pageCount: int, perPage: int): (r: int)
    ensures pageCount == 0 ==> r == 0
    ensures pageCount != 0 && page >= 0 ==> r == page * perPage
    ensures pageCount > 0 && -pageCount <= page < 0 ==> r == (pageCount + page) * perPage
  {
    if pageCount == 0 then 0
    else
      var k := ResolvePage(page, pageCount);
      ResolveInRange(page, pageCount);
      k * perPage
  }

  /** A negative page no further back than the page count needs no wrap. */
  lemma ResolveInRange(page: int, pageCount: int)
    requires pageCount != 0
    ensures pageCount > 0 && -pageCount <= page < 0 ==> ResolvePage(page, pageCount) == pageCount + page
  {
    if pageCount > 0 && -pageCount <= page < 0 {
      ModUnique(-page - 1, pageCount, 0, -page - 1);
    }
  }

  lemma MulMonotone(a: int, b: int, c: int)
    requires a <= b && c >= 0
    ensures a * c <= b * c
  {
    assert b * c - a * c == (b - a) * c;
  }

  /** Euclidean remainder is determined by any quotient/remainder split. */
  lemma ModUnique(a: int, b: int, q: int, r: int)
    requires b > 0 && 0 <= r < b && a == b * q + r
    ensures a % b == r
  {
    var d := q - a / b;
    assert b * d == a % b - r;
    if d >= 1 {
      MulMonotone(1, d, b);
    } else if d <= -1 {
      MulMonotone(d, -1, b);
    }
  }

  lemma ModShift(x: int, b: int)
    requires b > 0
    ensures (x - b) % b == x % b
  {
    ModUnique(x - b, b, x / b - 1, x % b);
  }

  /** A negative page beyond the first wraps around: it is served like the
      page `page_count` further up. */
  lemma NegativePageWraps(page: int, pageCount: int, perPage: int)
    requires pageCount > 0 && page < 0
    ensures ComputeOffset(page, pageCount, perPage) == ComputeOffset(page + pageCount, pageCount, perPage)
  {
    if page + pageCount < 0 {
      ModShift(-page - 1, pageCount);
      assert ResolvePage(page, pageCount) == ResolvePage(page + pageCount, pageCount);
    }
  }

  /** Every negative page lands on an existing page of the listing. */
  lemma NegativePageInRange(page: int, pageCount: int, perPage: int)
    requires pageCount > 0 && page < 0 && perPage >= 0
    ensures 0 <= ComputeOffset(page, pageCount, perPage) <= (pageCount - 1) * perPage
  {
    var k := ResolvePage(page, pageCount);
    assert 0 <= k <= pageCount - 1;
    MulMonotone(k, pageCount - 1, perPage);
    MulMonotone(0, k, perPage);
  }

  /** The page numbers of the `prev` and `next` links, absent when `None`. */
  datatype Links = Links(prev: Option<int>, next: Option<int>)

  /** `_compute_prev_next_page(page, page_count)` */
  function PrevNextPage(page: int, pageCount: int): (l: Links)
    ensures l.prev.Some? <==> page != 0
    ensures l.next.Some? <==> page < pageCount - 1
    ensures l.prev.Some? ==> l.prev.value <= page - 1 && l.prev.value <= pageCount - 1
    ensures l.prev.Some? ==> l.prev.value == page - 1 || l.prev.value == pageCount - 1
    ensures l.next.Some? ==> l.next.value <= page + 1 && l.next.value <= pageCount - 1
    ensures l.next.Some? ==> l.next.value == page + 1 || l.next.value == pageCount - 1
  {
    Links(
      if page != 0 then Some(if page - 1 < pageCount - 1 then page - 1 else pageCount - 1) else None,
      if page < pageCount - 1 then Some(if page + 1 < pageCount - 1 then page + 1 else pageCount - 1) else None)
  }

  /** On a page inside the listing the links step exactly one page, and
      their offsets are one page size away from the current one. */
  lemma LinksStepOnePage(page: int, pageCount: int, perPage: int)
    requires 0 <= page < pageCount
    ensures var l := PrevNextPage(page, pageCount);
      && (l.prev.Some? ==>
            && l.prev.value == page - 1
            && ComputeOffset(l.prev.value, pageCount, perPage) == ComputeOffset(page, pageCount, perPage) - perPage)
      && (l.next.Some? ==>
            && l.next.value == page + 1
            && ComputeOffset(l.next.value, pageCount, perPage) == ComputeOffset(page, pageCount, perPage) + perPage)
  {
    var l := PrevNextPage(page, pageCount);
    if l.prev.Some? {
      assert (page - 1) * perPage == page * perPage - perPage;
    }
    if l.next.Some? {
      assert (page + 1) * perPage == page * perPage + perPage;
    }
  }

  /** From a negative page inside the listing, `prev` is one further back
      from the end, which is the listing's previous page. */
  lemma NegativePagePrevStepsBack(page: int, pageCount: int, perPage: int)
    requires pageCount > 0 && -pageCount < page < 0
    ensures PrevNextPage(page, pageCount).prev == Some(page - 1)
    ensures ComputeOffset(page - 1, pageCount, perPage) == ComputeOffset(page, pageCount, perPage) - perPage
  {
    assert (pageCount + page - 1) * perPage == (pageCount + page) * perPage - perPage;
  }

  /** From a page past the end, `prev` leads back to the last page. */
  lemma PrevFromPastEnd(page: int, pageCount: int)
    requires 0 < pageCount <= page
    ensures PrevNextPage(page, pageCount) == Links(Some(pageCount - 1), None)
  {
  }

  /** The pagination headers of a listing response. */
  datatype PageInfo = PageInfo(
    page: int,
    perPage: int,
    pageCount: int,
    entriesCount: nat,
    offset: int,
    links: Links)

  /** `list_python_packages`: clamp, count, offset and links from the page
      count. */
  function PackagesPage(page: int, requestedPerPage: int, entries: nat): (r: Result<PageInfo>)
    ensures r.Raise? <==> ClampPerPage(requestedPerPage) == 0
    ensures r.Ok? ==> r.value.perPage <= PageSizeMax && r.value.page == page && r.value.entriesCount == entries
    ensures r.Ok? ==> r.value.perPage == ClampPerPage(requestedPerPage)
    ensures r.Ok? ==> PageCount(entries, r.value.perPage) == Ok(r.value.pageCount)
    ensures r.Ok? ==> r.value.offset == ComputeOffset(page, r.value.pageCount, r.value.perPage)
    ensures r.Ok? ==> r.value.links == PrevNextPage(page, r.value.pageCount)
  {
    var perPage := ClampPerPage(requestedPerPage);
    match PageCount(entries, perPage)
    case Raise(e) => Raise(e)
    case Ok(pageCount) =>
      Ok(PageInfo(page, perPage, pageCount, entries, ComputeOffset(page, pageCount, perPage),
                  PrevNextPage(page, pageCount)))
  }

  /** `list_thoth_container_images` as written: the links are computed from
      `per_page` where the page count is expected (api_v1.py:375). */
  function ContainerImagesPage(page: int, requestedPerPage: int, entries: nat): (r: Result<PageInfo>)
    ensures r.Raise? <==> ClampPerPage(requestedPerPage) == 0
    ensures r.Ok? ==> r.value.perPage <= PageSizeMax && r.value.page == page && r.value.entriesCount == entries
    ensures r.Ok? ==> r.value.perPage == ClampPerPage(requestedPerPage)
    ensures r.Ok? ==> PageCount(entries, r.value.perPage) == Ok(r.value.pageCount)
    ensures r.Ok? ==> r.value.offset == ComputeOffset(page, r.value.pageCount, r.value.perPage)
    ensures r.Ok? ==> r.value.links == PrevNextPage(page, r.value.perPage)
  {
    var perPage := ClampPerPage(requestedPerPage);
    match PageCount(entries, perPage)
    case Raise(e) => Raise(e)
    case Ok(pageCount) =>
      Ok(PageInfo(page, perPage, pageCount, entries, ComputeOffset(page, pageCount, perPage),
                  PrevNextPage(page, perPage)))
  }

  /** In the package listing a `next` link from a served page always leads
      to a page that still holds entries. */
  lemma PackagesNextHasEntries(page: int, requestedPerPage: int, entries: nat)
    requires requestedPerPage > 0 && page >= 0
    ensures PackagesPage(page, requestedPerPage, entries).Ok?
    ensures var info := PackagesPage(page, requestedPerPage, entries).value;
      info.links.next.Some? ==> ComputeOffset(info.links.next.value, info.pageCount, info.perPage) < entries
  {
    var perPage := ClampPerPage(requestedPerPage);
    var pageCount := PageCount(entries, perPage).value;
    NextHasEntries(page, pageCount, perPage, entries);
  }

  lemma NextHasEntries(page: int, pageCount: int, perPage: int, entries: nat)
    requires perPage > 0 && page >= 0 && (pageCount - 1) * perPage < entries
    ensures var next := PrevNextPage(page, pageCount).next;
      next.Some? ==> ComputeOffset(next.value, pageCount, perPage) < entries
  {
    var next := PrevNextPage(page, pageCount).next;
    if next.Some? {
      MulMonotone(next.value, pageCount - 1, perPage);
    }
  }

  /** The container-image listing offers a `next` link to an empty page: ten
      images at 25 per page fit on page 0, yet page 0 links to page 1. */
  lemma ContainerImagesNextPastEnd()
    ensures var info := ContainerImagesPage(0, 25, 10);
      && info.Ok? && info.value.pageCount == 1
      && info.value.links.next == Some(1)
      && ComputeOffset(1, info.value.pageCount, info.value.perPage) >= 10
  {
  }
}
