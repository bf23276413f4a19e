/** The NCC flows page: the flows whose name mentions NCC, narrowed by a
    search box and shown one page at a time. */
module NccFlows {
  import opened Wrappers
  import opened Strings
  import opened Lists

  /** A flow as the page reads it; `is_running` and `is_deployed` as truth values. */
  datatype FlowItem = FlowItem(id: string, name: string, isRunning: bool, isDeployed: bool)

  function IsNcc(f: FlowItem): bool {
    Contains(ToLower(f.name), "ncc")
  }

  /** The effect on `items`: the NCC mediation flows, in their order. */
  function NccFlows(items: seq<FlowItem>): (r: seq<FlowItem>)
    ensures |r| <= |items|
  {
    Filter(items, IsNcc)
  }

  function MatchesSearch(searchTerm: string): FlowItem -> bool {
    (f: FlowItem) => Contains(ToLower(f.name), ToLower(searchTerm))
  }

  /** `filteredFlows` */
  function FilteredFlows(flows: seq<FlowItem>, searchTerm: string): (r: seq<FlowItem>)
    ensures |r| <= |flows|
  {
    Filter(flows, MatchesSearch(searchTerm))
  }

  /** The flows of the page, from the items: exactly the NCC flows whose
      lower-cased name contains the lower-cased search term, in their order. */
  lemma FilteredFlowsExact(items: seq<FlowItem>, searchTerm: string)
    ensures forall f :: f in FilteredFlows(NccFlows(items), searchTerm) <==>
      f in items && Contains(ToLower(f.name), "ncc") && Contains(ToLower(f.name), ToLower(searchTerm))
    ensures IsSubseq(FilteredFlows(NccFlows(items), searchTerm), items)
  {
    var ncc := NccFlows(items);
    FilterSound(items, IsNcc);
    FilterComplete(items, IsNcc);
    FilterSound(ncc, MatchesSearch(searchTerm));
    FilterComplete(ncc, MatchesSearch(searchTerm));
    FilterIsSubseq(items, IsNcc);
    FilterIsSubseq(ncc, MatchesSearch(searchTerm));
    SubseqTrans(FilteredFlows(ncc, searchTerm), ncc, items);
  }

  /** An empty search keeps every NCC flow. */
  lemma EmptySearchKeepsAll(flows: seq<FlowItem>)
    ensures FilteredFlows(flows, "") == flows
  {
    forall f: FlowItem ensures MatchesSearch("")(f) {
      ContainsEmpty(ToLower(f.name));
    }
    FilterAll(flows, MatchesSearch(""));
  }

  /** A filter whose test every element passes keeps the whole list. */
  lemma {:induction false} FilterAll<T>(s: seq<T>, p: T -> bool)
    requires forall x :: p(x)
    ensures Filter(s, p) == s
  {
    if s != [] {
      FilterAll(s[1..], p);
    }
  }

  /** Keeping a subsequence of a subsequence is keeping a subsequence. */
  lemma SubseqTrans<T>(a: seq<T>, b: seq<T>, c: seq<T>)
    requires IsSubseq(a, b) && IsSubseq(b, c)
    ensures IsSubseq(a, c)
  {
    var m1: seq<bool> :| |m1| == |b| && Select(b, m1) == a;
    var m2: seq<bool> :| |m2| == |c| && Select(c, m2) == b;
    ComposeSelect(c, m2, m1);
    var m := Compose(m2, m1);
    assert |m| == |c| && Select(c, m) == a;
  }

  /** The mask that keeps, among the elements `m2` keeps, those that `m1` keeps. */
  function Compose(m2: seq<bool>, m1: seq<bool>): (m: seq<bool>)
    requires |m1| == Trues(m2)
    ensures |m| == |m2|
  {
    if m2 == [] then []
    else if m2[0] then [m1[0]] + Compose(m2[1..], m1[1..])
    else [false] + Compose(m2[1..], m1)
  }

  function Trues(m: seq<bool>): nat {
    if m == [] then 0 else (if m[0] then 1 else 0) + Trues(m[1..])
  }

  lemma {:induction false} SelectLength<T>(s: seq<T>, m: seq<bool>)
    requires |m| == |s|
    ensures |Select(s, m)| == Trues(m)
  {
    if s != [] {
      SelectLength(s[1..], m[1..]);
    }
  }

  lemma {:induction false} ComposeSelect<T>(c: seq<T>, m2: seq<bool>, m1: seq<bool>)
    requires |m2| == |c| && |m1| == |Select(c, m2)|
    ensures |m1| == Trues(m2)
    ensures Select(c, Compose(m2, m1)) == Select(Select(c, m2), m1)
  {
    SelectLength(c, m2);
    if c != [] {
      var b := Select(c, m2);
      var m := Compose(m2, m1);
      if m2[0] {
        assert b == [c[0]] + Select(c[1..], m2[1..]);
        assert b[0] == c[0] && b[1..] == Select(c[1..], m2[1..]);
        ComposeSelect(c[1..], m2[1..], m1[1..]);
        assert m[0] == m1[0] && m[1..] == Compose(m2[1..], m1[1..]);
      } else {
        assert b == Select(c[1..], m2[1..]);
        ComposeSelect(c[1..], m2[1..], m1);
        assert m[0] == false && m[1..] == Compose(m2[1..], m1);
      }
    }
  }

  // ---------------------------------------------------------------------------
  // Pagination

  /** `Math.ceil(n / pageSize)` */
  function TotalPages(n: nat, pageSize: nat): (r: nat)
    requires pageSize > 0
    ensures (r - 1) * pageSize < n <= r * pageSize || (n == 0 && r == 0)
  {
    if n == 0 then 0 else (n - 1) / pageSize + 1
  }

  /** `s.slice(start, end)` for a start that is not negative: both ends are
      cut down to the length, and an end before the start gives nothing. */
  function Slice<T>(s: seq<T>, start: nat, end: int): (r: seq<T>)
    ensures start >= |s| ==> r == []
    ensures start < |s| && start <= end ==> r == s[start..if end < |s| then end else |s|]
  {
    var from := if start < |s| then start else |s|;
    var to := if end < from then from else if end < |s| then end else |s|;
    s[from..to]
  }

  /** `paginatedFlows`: the items of page `page` (counting from 1). */
  function PageOf<T>(s: seq<T>, page: nat, pageSize: nat): (r: seq<T>)
    requires page >= 1 && pageSize > 0
    ensures |r| <= pageSize
  {
    Slice(s, (page - 1) * pageSize, (page - 1) * pageSize + pageSize)
  }

  /** A page is the run of items from the page's first index, as many as fit;
      it is empty exactly when the page is past the last one. */
  lemma PageContents<T>(s: seq<T>, page: nat, pageSize: nat)
    requires page >= 1 && pageSize > 0
    ensures var start := (page - 1) * pageSize;
      (page <= TotalPages(|s|, pageSize) ==>
        start < |s| && PageOf(s, page, pageSize) == s[start..if start + pageSize < |s| then start + pageSize else |s|])
      && (page > TotalPages(|s|, pageSize) <==> PageOf(s, page, pageSize) == [])
  {
    var start := (page - 1) * pageSize;
    var total := TotalPages(|s|, pageSize);
    if page <= total {
      assert (page - 1) * pageSize <= (total - 1) * pageSize by {
        MulMono(page - 1, total - 1, pageSize);
      }
    } else {
      assert total * pageSize <= (page - 1) * pageSize by {
        MulMono(total, page - 1, pageSize);
      }
    }
  }

  lemma MulMono(a: nat, b: nat, c: nat)
    requires a <= b
    ensures a * c <= b * c
  {
  }

  /** The pages from `from` to the last one, one after the other. */
  function PagesFrom<T>(s: seq<T>, from: nat, pageSize: nat): seq<T>
    requires from >= 1 && pageSize > 0
    decreases TotalPages(|s|, pageSize) + 1 - from
  {
    if from > TotalPages(|s|, pageSize) then []
    else PageOf(s, from, pageSize) + PagesFrom(s, from + 1, pageSize)
  }

  /** The pages from `from` on, read in order, are the items from the page's start on. */
  lemma {:induction false} PagesFromRest<T>(s: seq<T>, from: nat, pageSize: nat, start: nat)
    requires from >= 1 && pageSize > 0 && start == (from - 1) * pageSize
    ensures PagesFrom(s, from, pageSize) == if start < |s| then s[start..] else []
    decreases TotalPages(|s|, pageSize) + 1 - from
  {
    MulSucc(from - 1, pageSize);
    PageContents(s, from, pageSize);
    if from <= TotalPages(|s|, pageSize) {
      var next := start + pageSize;
      PagesFromRest(s, from + 1, pageSize, next);
      var end := if next < |s| then next else |s|;
      assert s[start..] == s[start..end] + s[end..];
    }
  }

  lemma MulSucc(a: nat, c: nat)
    ensures (a + 1) * c == a * c + c
  {
  }

  /** The page links, read in order, show every filtered flow exactly once. */
  lemma PagesPartition<T>(s: seq<T>, pageSize: nat)
    requires pageSize > 0
    ensures PagesFrom(s, 1, pageSize) == s
  {
    PagesFromRest(s, 1, pageSize, 0);
  }

  /** The "Showing a to b of n" label. */
  function RangeLabel(n: nat, page: nat, pageSize: nat): (r: (int, int))
    requires page >= 1
    ensures r.0 == (page - 1) * pageSize + 1
    ensures r.1 <= n && r.1 <= r.0 + pageSize - 1
    ensures r.1 == n || r.1 == r.0 + pageSize - 1
  {
    var startIndex := (page - 1) * pageSize;
    (startIndex + 1, if startIndex + pageSize < n then startIndex + pageSize else n)
  }

  /** On any existing page the label counts the page's own flows: it starts
      at the first of them (counting from 1) and spans as many as the page shows. */
  lemma RangeLabelCountsPage<T>(s: seq<T>, page: nat, pageSize: nat)
    requires pageSize > 0 && 1 <= page <= TotalPages(|s|, pageSize)
    ensures RangeLabel(|s|, page, pageSize).0 == (page - 1) * pageSize + 1
    ensures RangeLabel(|s|, page, pageSize).1 - RangeLabel(|s|, page, pageSize).0 + 1 == |PageOf(s, page, pageSize)|
    ensures RangeLabel(|s|, page, pageSize).1 <= |s|
  {
    var start := (page - 1) * pageSize;
    var end := if start + pageSize < |s| then start + pageSize else |s|;
    PageSpan(s, page, pageSize, start, end);
    assert RangeLabel(|s|, page, pageSize) == (start + 1, end);
  }

  lemma PageSpan<T>(s: seq<T>, page: nat, pageSize: nat, start: nat, end: nat)
    requires pageSize > 0 && 1 <= page <= TotalPages(|s|, pageSize)
    requires start == (page - 1) * pageSize && end == if start + pageSize < |s| then start + pageSize else |s|
    ensures |PageOf(s, page, pageSize)| == end - start
  {
    PageContents(s, page, pageSize);
    assert PageOf(s, page, pageSize) == s[start..end];
  }

  /** The numbers of the page links, `Array.from({ length: totalPages }, (_, i) => i + 1)`. */
  function PageLinks(totalPages: nat): (r: seq<nat>)
    ensures |r| == totalPages
    ensures forall i :: 0 <= i < |r| ==> r[i] == i + 1
  {
    seq(totalPages, i => i + 1)
  }

  /** Previous: back one page unless on the first. */
  function PreviousPage(currentPage: int): (r: int)
    ensures currentPage > 1 ==> r == currentPage - 1
    ensures currentPage <= 1 ==> r == currentPage
  {
    if currentPage > 1 then currentPage - 1 else currentPage
  }

  /** Next: on one page unless on the last. */
  function NextPage(currentPage: int, totalPages: int): (r: int)
    ensures currentPage < totalPages ==> r == currentPage + 1
    ensures currentPage >= totalPages ==> r == currentPage
  {
    if currentPage < totalPages then currentPage + 1 else currentPage
  }

  /** Previous and Next never leave the range of existing pages once inside it,
      and Previous undoes a Next that moved. */
  lemma PageMovesStayInRange(currentPage: int, totalPages: int)
    requires 1 <= currentPage <= totalPages
    ensures 1 <= PreviousPage(currentPage) <= totalPages
    ensures 1 <= NextPage(currentPage, totalPages) <= totalPages
    ensures currentPage < totalPages ==> PreviousPage(NextPage(currentPage, totalPages)) == currentPage
  {
  }

  /** `getFlowStatus(flow)`: running before deployed before draft. */
  function GetFlowStatus(f: FlowItem): (r: string)
    ensures r == "running" <==> f.isRunning
    ensures r == "deployed" <==> !f.isRunning && f.isDeployed
    ensures r == "draft" <==> !f.isRunning && !f.isDeployed
  {
    if f.isRunning then "running" else if f.isDeployed then "deployed" else "draft"
  }

  /** The sizes the page-size menu offers. */
  predicate IsPageSizeChoice(v: int) {
    v == 5 || v == 10 || v == 15 || v == 20
  }

  /** The page state. */
  class NccFlowsPage {
    var flows: seq<FlowItem>
    var searchTerm: string
    var currentPage: int
    var pageSize: int

    ghost predicate Valid()
      reads this
    {
      currentPage >= 1 && pageSize > 0
    }

    /** `totalPages` */
    function Total(): (r: nat)
      reads this
      requires Valid()
    {
      TotalPages(|FilteredFlows(flows, searchTerm)|, pageSize)
    }

    /** `paginatedFlows` */
    function Paginated(): (r: seq<FlowItem>)
      reads this
      requires Valid()
      ensures |r| <= pageSize
    {
      PageOf(FilteredFlows(flows, searchTerm), currentPage, pageSize)
    }

    /** The page mounts on page 1 of 10 with an empty search; when the items
        are there, the effect keeps the NCC flows. */
    constructor (items: Option<seq<FlowItem>>)
      ensures Valid() && currentPage == 1 && pageSize == 10 && searchTerm == ""
      ensures flows == if items.Some? then NccFlows(items.value) else []
    {
      flows := if items.Some? then NccFlows(items.value) else [];
      searchTerm := "";
      currentPage := 1;
      pageSize := 10;
    }

    /** The effect on `items`: new items replace the flows by their NCC flows;
        absent items leave the flows alone. The page does not move. */
    method ItemsChanged(items: Option<seq<FlowItem>>)
      requires Valid()
      modifies this
      ensures Valid()
      ensures flows == if items.Some? then NccFlows(items.value) else old(flows)
      ensures searchTerm == old(searchTerm) && currentPage == old(currentPage) && pageSize == old(pageSize)
    {
      if items.Some? {
        flows := NccFlows(items.value);
      }
    }

    /** Choosing a page size goes back to page 1. */
    method SetPageSize(v: int)
      requires Valid() && IsPageSizeChoice(v)
      modifies this
      ensures Valid()
      ensures pageSize == v && currentPage == 1 && flows == old(flows) && searchTerm == old(searchTerm)
    {
      pageSize := v;
      currentPage := 1;
    }

    /** Typing in the search box goes back to page 1. */
    method SetSearchTerm(term: string)
      requires Valid()
      modifies this
      ensures Valid()
      ensures searchTerm == term && currentPage == 1 && flows == old(flows) && pageSize == old(pageSize)
    {
      searchTerm := term;
      currentPage := 1;
    }

    method Previous()
      requires Valid()
      modifies this
      ensures Valid()
      ensures currentPage == PreviousPage(old(currentPage))
      ensures flows == old(flows) && searchTerm == old(searchTerm) && pageSize == old(pageSize)
    {
      if currentPage > 1 {
        currentPage := currentPage - 1;
      }
    }

    method Next()
      requires Valid()
      modifies this
      ensures Valid()
      ensures currentPage == NextPage(old(currentPage), old(Total()))
      ensures flows == old(flows) && searchTerm == old(searchTerm) && pageSize == old(pageSize)
    {
      if currentPage < Total() {
        currentPage := currentPage + 1;
      }
    }

    /** A page link. */
    method GoToPage(page: int)
      requires Valid() && page in PageLinks(Total())
      modifies this
      ensures Valid()
      ensures currentPage == page && 1 <= currentPage <= Total()
      ensures flows == old(flows) && searchTerm == old(searchTerm) && pageSize == old(pageSize)
    {
      currentPage := page;
    }
  }
}
