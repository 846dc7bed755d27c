/**
 * The arithmetic of the match report: the per-type event counts of the summary page and
 * the slicing of the bookmark list into pages of fifteen events.
 */
module Report {
  import opened Bookmarks

  const EventsPerPage := 15

  /** Math.ceil(n / 15): the fewest pages of fifteen that hold n events. */
  function PageCount(n: nat): (p: nat)
    ensures p * EventsPerPage >= n
    ensures p == 0 || (p - 1) * EventsPerPage < n
  {
    (n + EventsPerPage - 1) / EventsPerPage
  }

  function Min(a: int, b: int): int
  {
    if a <= b then a else b
  }

  /** The pages joined back into one list. */
  function Flatten<T>(pages: seq<seq<T>>): seq<T>
  {
    if pages == [] then [] else Flatten(pages[..|pages| - 1]) + pages[|pages| - 1]
  }

  /**
   * The page loop of the report: page p holds bookmarks.slice(15p, min(15p + 15, n)).
   * Every page is non-empty, all but the last are full, and together they are the list.
   */
  method Paginate<T>(items: seq<T>) returns (pages: seq<seq<T>>)
    ensures |pages| == PageCount(|items|)
    ensures forall p :: 0 <= p < |pages| ==>
      p * EventsPerPage < |items|
      && pages[p] == items[p * EventsPerPage .. Min(p * EventsPerPage + EventsPerPage, |items|)]
    ensures forall p :: 0 <= p < |pages| ==> 1 <= |pages[p]| <= EventsPerPage
    ensures forall p :: 0 <= p < |pages| - 1 ==> |pages[p]| == EventsPerPage
    ensures Flatten(pages) == items
  {
    var total := PageCount(|items|);
    pages := [];
    var page := 0;
    while page < total
      invariant 0 <= page <= total
      invariant |pages| == page
      invariant forall p :: 0 <= p < page ==>
        pages[p] == items[p * EventsPerPage .. Min(p * EventsPerPage + EventsPerPage, |items|)]
      invariant Flatten(pages) == items[..Min(page * EventsPerPage, |items|)]
    {
      var start := page * EventsPerPage;
      var end := Min(start + EventsPerPage, |items|);
      PageBounds(|items|, page);
      FlattenSnoc(pages, items[start..end]);
      assert items[..start] + items[start..end] == items[..end];
      pages := pages + [items[start..end]];
      page := page + 1;
    }
    assert items[..|items|] == items;
    forall p | 0 <= p < |pages|
      ensures p * EventsPerPage < |items| && 1 <= |pages[p]| <= EventsPerPage && (p < |pages| - 1 ==> |pages[p]| == EventsPerPage)
    {
      PageBounds(|items|, p);
    }
  }

  lemma FlattenSnoc<T>(pages: seq<seq<T>>, page: seq<T>)
    ensures Flatten(pages + [page]) == Flatten(pages) + page
  {
    assert (pages + [page])[..|pages|] == pages;
  }

  /** Page p of n events starts inside the list; every page but the last reaches fifteen events further. */
  lemma PageBounds(n: nat, p: nat)
    requires p < PageCount(n)
    ensures p * EventsPerPage < n
    ensures p < PageCount(n) - 1 ==> p * EventsPerPage + EventsPerPage <= n
  {
    var k := PageCount(n);
    assert (k - 1) * EventsPerPage < n;
    if p < k - 1 {
      assert (p + 1) * EventsPerPage <= (k - 1) * EventsPerPage;
    }
  }

  /** The summary count of one event type: bookmarks.filter(b => b.type === kind).length. */
  function KindCount(s: seq<Bookmark>, kind: EventKind): (n: nat)
    ensures n <= |s|
  {
    if s == [] then 0 else KindCount(s[..|s| - 1], kind) + (if s[|s| - 1].kind == kind then 1 else 0)
  }

  /** The per-type counts of the summary add up to the total number of events. */
  lemma {:induction false} KindCountsAddUp(s: seq<Bookmark>)
    ensures KindCount(s, Yellow) + KindCount(s, SecondYellow) + KindCount(s, Red) + KindCount(s, Penalty)
      + KindCount(s, Goal) + KindCount(s, Substitution) + KindCount(s, Important) + KindCount(s, Custom) == |s|
  {
    if s != [] {
      KindCountsAddUp(s[..|s| - 1]);
    }
  }
}
