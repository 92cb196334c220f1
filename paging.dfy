/** Page requests, the slice of a listing a store returns for one page, and the total a page
    envelope reports for it. */
module Paging {

  /** A page request never has a size below one. */
  type PageSize = n: nat | 1 <= n witness 1

  /** Zero-based page number and page size. */
  datatype Pageable = Pageable(page: nat, size: PageSize)

  function Offset(p: Pageable): nat {
    p.page * p.size
  }

  function Min(a: nat, b: nat): nat {
    if a <= b then a else b
  }

  /** The items of page `p` of the ordered listing `xs`: the consecutive items from the page's
      offset, a full page except possibly the last, nothing past the end. */
  function PageOf<T>(xs: seq<T>, p: Pageable): (r: seq<T>)
    ensures |r| <= p.size
    ensures r == [] <==> |xs| <= Offset(p)
    ensures Offset(p) + p.size <= |xs| ==> |r| == p.size
    ensures Offset(p) < |xs| ==> |r| == Min(p.size, |xs| - Offset(p))
    ensures forall i :: 0 <= i < |r| ==> Offset(p) + i < |xs| && r[i] == xs[Offset(p) + i]
  {
    if |xs| <= Offset(p) then [] else xs[Offset(p)..Min(|xs|, Offset(p) + p.size)]
  }

  /** The first `k` pages of `xs`, one after the other. */
  function FirstPages<T>(xs: seq<T>, size: PageSize, k: nat): seq<T> {
    if k == 0 then [] else FirstPages(xs, size, k - 1) + PageOf(xs, Pageable(k - 1, size))
  }

  /** Reading pages 0, 1, ..., k-1 in turn yields the listing's first `k * size` items, in order:
      no item is skipped or repeated between consecutive pages. */
  lemma {:induction false} FirstPagesArePrefix<T>(xs: seq<T>, size: PageSize, k: nat)
    ensures FirstPages(xs, size, k) == xs[..Min(|xs|, k * size)]
  {
    if k > 0 {
      FirstPagesArePrefix(xs, size, k - 1);
      var off := (k - 1) * size;
      NextOffset(k, size);
      var end := k * size;
      var prev := xs[..Min(|xs|, off)];
      var page := PageOf(xs, Pageable(k - 1, size));
      assert FirstPages(xs, size, k) == prev + page;
      if off < |xs| {
        assert page == xs[off..Min(|xs|, end)];
        assert prev == xs[..off];
        assert xs[..off] + xs[off..Min(|xs|, end)] == xs[..Min(|xs|, end)];
      } else {
        assert page == [];
        assert Min(|xs|, end) == |xs| == Min(|xs|, off);
      }
    }
  }

  lemma NextOffset(k: nat, size: PageSize)
    requires k > 0
    ensures k * size == (k - 1) * size + size
  {
  }

  /** Paging through the whole listing returns every item exactly once, in listing order. */
  lemma PagesPartitionListing<T>(xs: seq<T>, size: PageSize)
    ensures FirstPages(xs, size, |xs|) == xs
  {
    FirstPagesArePrefix(xs, size, |xs|);
    CoveredByPages(|xs|, size);
  }

  /** `n` pages of at least one item each cover `n` items. */
  lemma {:induction false} CoveredByPages(n: nat, size: PageSize)
    ensures n <= n * size
  {
    if n > 0 {
      CoveredByPages(n - 1, size);
      NextOffset(n, size);
    }
  }

  /** The total a page envelope (Spring Data's `PageImpl`) reports: the count it was given,
      unless a non-empty last page shows where the listing really ends. */
  function PageTotal<T>(content: seq<T>, p: Pageable, count: nat): nat {
    if content != [] && Offset(p) + p.size > count then Offset(p) + |content| else count
  }

  /** When the count and the page come from the same listing, the reported total is that count,
      for every page, in range or not. */
  lemma PageTotalOfSameListing<T>(xs: seq<T>, p: Pageable)
    ensures PageTotal(PageOf(xs, p), p, |xs|) == |xs|
  {
    var r := PageOf(xs, p);
    if r != [] && Offset(p) + p.size > |xs| {
      assert |r| == |xs| - Offset(p);
    }
  }

  /** An envelope without content reports the count it was given. */
  lemma PageTotalWithoutContent<T>(content: seq<T>, p: Pageable, count: nat)
    requires content == []
    ensures PageTotal(content, p, count) == count
  {
  }
}
