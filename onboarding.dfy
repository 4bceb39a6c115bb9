/**
 * The data source of the onboarding page controller: given the current
 * page, the page before it and the page after it in `pages`, with no
 * wrap-around at either end.
 */
module Onboarding {
  import opened Wrappers

  /** `pages.index(of:)`: the first position of `page`, if any. */
  function IndexOf<T(==)>(pages: seq<T>, page: T): (r: Option<nat>)
    ensures r.None? <==> page !in pages
    ensures r.Some? ==> r.value < |pages| && pages[r.value] == page
    ensures r.Some? ==> forall j :: 0 <= j < r.value ==> pages[j] != page
    decreases |pages|
  {
    if pages == [] then None
    else if pages[0] == page then Some(0)
    else
      match IndexOf(pages[1..], page)
      case None => None
      case Some(i) => Some(i + 1)
  }

  ghost predicate Distinct<T>(pages: seq<T>)
  {
    forall i, j :: 0 <= i < j < |pages| ==> pages[i] != pages[j]
  }

  function Abs(x: int): nat
  {
    if x < 0 then -x else x
  }

  /** Swift's `%` on `Int`: truncated toward zero, so the result has the sign of `a`. */
  function SwiftRemainder(a: int, n: int): (r: int)
    requires n != 0
    ensures Abs(r) < Abs(n)
    ensures a >= 0 ==> r >= 0
    ensures a <= 0 ==> r <= 0
    ensures 0 <= a < Abs(n) ==> r == a
    ensures exists q :: a - r == q * Abs(n)
  {
    var d := Abs(n);
    var m := Abs(a) % d;
    var q := Abs(a) / d;
    assert 0 <= m < d;
    assert Abs(a) < d ==> m == Abs(a);
    assert Abs(a) == q * d + m;
    if a < 0 then
      assert a - (-m) == (-q) * d;
      -m
    else
      assert a - m == q * d;
      m
  }

  /**
   * `pageViewController(_:viewControllerBefore:)`: nothing for an unknown
   * page or the first page, otherwise the page one position earlier.
   */
  function PageBefore<T(==)>(pages: seq<T>, page: T): (r: Option<T>)
    ensures r.None? <==> page !in pages || pages[0] == page
    ensures r.Some? ==> IndexOf(pages, page).Some? && 1 <= IndexOf(pages, page).value
    ensures r.Some? ==> r.value == pages[IndexOf(pages, page).value - 1]
  {
    match IndexOf(pages, page)
    case None => None
    case Some(index) =>
      if index == 0 then None
      else Some(pages[Abs(SwiftRemainder(index - 1, |pages|))])
  }

  /**
   * `pageViewController(_:viewControllerAfter:)`: nothing for an unknown
   * page or (the first occurrence of) the last page, otherwise the page one
   * position later.
   */
  function PageAfter<T(==)>(pages: seq<T>, page: T): (r: Option<T>)
    ensures r.None? <==> IndexOf(pages, page).None? || IndexOf(pages, page).value == |pages| - 1
    ensures r.Some? ==> IndexOf(pages, page).Some? && IndexOf(pages, page).value + 1 < |pages|
    ensures r.Some? ==> r.value == pages[IndexOf(pages, page).value + 1]
  {
    match IndexOf(pages, page)
    case None => None
    case Some(index) =>
      if index == |pages| - 1 then None
      else Some(pages[Abs(SwiftRemainder(index + 1, |pages|))])
  }

  /** `presentationIndex(for:)`: the number of pages, which is not a position among them. */
  function PresentationIndex<T>(pages: seq<T>): (r: int)
    ensures r == |pages|
    ensures !(0 <= r < |pages|)
  {
    |pages|
  }

  /** In a sequence of distinct pages, the first position of `pages[k]` is `k`. */
  lemma IndexOfDistinct<T>(pages: seq<T>, k: nat)
    requires Distinct(pages) && k < |pages|
    ensures IndexOf(pages, pages[k]) == Some(k)
  {
  }

  /** With distinct pages, going forward and then back returns to the same page. */
  lemma BeforeAfterRoundTrip<T>(pages: seq<T>, page: T)
    requires Distinct(pages)
    requires page in pages && pages[|pages| - 1] != page
    ensures PageAfter(pages, page).Some?
    ensures PageBefore(pages, PageAfter(pages, page).value) == Some(page)
  {
  }

  /** With distinct pages, going back and then forward returns to the same page. */
  lemma AfterBeforeRoundTrip<T>(pages: seq<T>, page: T)
    requires Distinct(pages)
    requires page in pages && pages[0] != page
    ensures PageBefore(pages, page).Some?
    ensures PageAfter(pages, PageBefore(pages, page).value) == Some(page)
  {
  }
}
