/** Query pagination. Pages are requested one after the other, each starting
    where the previous one stopped. Without `keepGoing` at most `maxPages`
    pages are read (one by default). With `keepGoing`, a `limit` and a filter,
    `maxPages` defaults to unbounded and paging goes on until the items read
    reach `limit` or the store reports the last page. A numeric `keepGoing`
    is the per-request page size, apart from the overall `limit`. An explicit
    `maxPages: Infinity` reads every page whatever the mode. */
module QueryPages {
  import opened Wrappers
  import opened Items
  import opened QueryOptions

  /** One page of a query response. `lastEvaluatedKey` is absent on the
      last page. */
  datatype Page = Page(items: seq<Record>, lastEvaluatedKey: Option<Record>)

  /** The paging part of one request sent to the store. */
  datatype PageRequest = PageRequest(exclusiveStartKey: Option<Record>, limit: Option<nat>)

  /** The store's answers, in request order: every page but the last
      continues, and the last one does not. */
  predicate WellFormedPages(pages: seq<Page>) {
    && |pages| >= 1
    && (forall i :: 0 <= i < |pages| - 1 ==> pages[i].lastEvaluatedKey.Some?)
    && pages[|pages| - 1].lastEvaluatedKey.None?
  }

  predicate HasFilter(o: QueryOptions) {
    o.filter.Some? || (o.filters.Some? && |o.filters.value| > 0)
  }

  /** `keepGoing` is in force when it is set together with a limit and a filter. */
  predicate KeepGoingMode(o: QueryOptions) {
    !o.keepGoing.NoKeepGoing? && o.limit.Some? && HasFilter(o)
  }

  /** The page budget; `None` is unbounded. */
  function MaxPages(o: QueryOptions): (m: Option<nat>)
    ensures o.maxPages == Some(Unbounded) ==> m.None?
    ensures o.maxPages.Some? && o.maxPages.value.Pages? ==> m == Some(o.maxPages.value.count as nat)
    ensures o.maxPages.None? && KeepGoingMode(o) ==> m.None?
    ensures o.maxPages.None? && !KeepGoingMode(o) ==> m == Some(1)
    ensures m.Some? ==> m.value >= 1
  {
    if o.maxPages.Some? then
      match o.maxPages.value
      case Unbounded => None
      case Pages(n) => Some(n as nat)
    else if KeepGoingMode(o) then None
    else Some(1)
  }

  /** The `Limit` of every page request. */
  function PageLimit(o: QueryOptions): (l: Option<nat>)
    ensures o.keepGoing.KeepGoingPageSize? ==> l == Some(o.keepGoing.pageSize)
    ensures !o.keepGoing.KeepGoingPageSize? ==> l == o.limit
  {
    match o.keepGoing
    case KeepGoingPageSize(n) => Some(n)
    case _ => o.limit
  }

  /** The items of the pages, page after page. */
  function Flatten(pages: seq<Page>): seq<Record>
  {
    if pages == [] then []
    else
      var n := |pages| - 1;
      Flatten(pages[..n]) + pages[n].items
  }

  /** Whether another page is requested after `fetched` pages have been
      read, holding `items`, the last of them being `last`. */
  predicate Continue(o: QueryOptions, last: Page, fetched: nat, items: seq<Record>) {
    && last.lastEvaluatedKey.Some?
    && (MaxPages(o).None? || fetched < MaxPages(o).value)
    && (!KeepGoingMode(o) || |items| < o.limit.value)
  }

  /** The requests a run of `n` pages sends: the first starts at the caller's
      `exclusiveStartKey`, each later one at the previous page's last key. */
  predicate RequestsChain(o: QueryOptions, pages: seq<Page>, requests: seq<PageRequest>)
    requires |requests| <= |pages|
  {
    && (|requests| > 0 ==> requests[0] == PageRequest(o.exclusiveStartKey, PageLimit(o)))
    && forall i :: 0 < i < |requests| ==> requests[i] == PageRequest(pages[i - 1].lastEvaluatedKey, PageLimit(o))
  }

  /** Sends page requests in sequence (the first page is always read) and
      accumulates the items, stopping at the first page after
      which `Continue` fails. */
  method Query(o: QueryOptions, pages: seq<Page>) returns (items: seq<Record>, requests: seq<PageRequest>)
    requires WellFormedPages(pages)
    ensures 1 <= |requests| <= |pages|
    ensures RequestsChain(o, pages, requests)
    ensures items == Flatten(pages[..|requests|])
    ensures forall i :: 0 <= i < |requests| - 1 ==> Continue(o, pages[i], i + 1, Flatten(pages[..i + 1]))
    ensures !Continue(o, pages[|requests| - 1], |requests|, items)
    ensures MaxPages(o).Some? ==> |requests| <= MaxPages(o).value
    ensures !KeepGoingMode(o) && o.maxPages.None? ==> |requests| == 1
    ensures MaxPages(o).None? ==>
      pages[|requests| - 1].lastEvaluatedKey.None? || (KeepGoingMode(o) && |items| >= o.limit.value)
    ensures KeepGoingMode(o) && o.maxPages.None? ==>
      pages[|requests| - 1].lastEvaluatedKey.None? || |items| >= o.limit.value
  {
    var n := 1;
    requests := [PageRequest(o.exclusiveStartKey, PageLimit(o))];
    items := pages[0].items;
    assert Flatten(pages[..1]) == Flatten(pages[..0]) + pages[0].items;
    while Continue(o, pages[n - 1], n, items)
      invariant 1 <= n <= |pages|
      invariant |requests| == n
      invariant RequestsChain(o, pages, requests)
      invariant items == Flatten(pages[..n])
      invariant forall i :: 0 <= i < n - 1 ==> Continue(o, pages[i], i + 1, Flatten(pages[..i + 1]))
      decreases |pages| - n
    {
      requests := requests + [PageRequest(pages[n - 1].lastEvaluatedKey, PageLimit(o))];
      assert pages[..n + 1][..n] == pages[..n];
      items := items + pages[n].items;
      n := n + 1;
    }
  }
}
