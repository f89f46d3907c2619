/** `paginate` of src/model.rs and the walk of a client that follows its tokens. */
module Pagination {
  import opened Basics

  datatype Page<T> = Page(items: seq<T>, nextPageToken: string)

  /** The longest vector Rust can hold. */
  const MAX_ITEMS: nat := 0x7FFF_FFFF_FFFF_FFFF

  function PageSize(requested: int): (size: nat)
    ensures 1 <= size <= 1000 && size == SizeAskedFor(requested)
  {
    if requested <= 0 then 100 else Clamp(requested, 1, 1000)
  }

  /** The number of items asked for, at most 1000, and 100 if none. */
  function SizeAskedFor(requested: int): nat {
    if requested <= 0 then 100 else Min(requested, 1000)
  }

  function TokenStart(token: string): (start: nat)
    ensures start <= U64_MAX
  {
    if token == "" then 0
    else match ParseUsize(token)
      case Some(n) => n
      case None => 0
  }

  /** `start + size` wraps at 64 bits; a range that does not fit the list is an empty slice. */
  function Paginate<T>(items: seq<T>, pageSize: int, token: string): Page<T> {
    var start := TokenStart(token);
    var end := Min((start + PageSize(pageSize)) % (U64_MAX + 1), |items|);
    var slice := if start <= end then items[start..end] else [];
    Page(slice, if end < |items| then Decimal(end) else "")
  }

  /** A page token handed out for `items`: the text of a position inside the list. */
  predicate IsCursor<T>(items: seq<T>, token: string) {
    TokenStart(token) <= |items| && (TokenStart(token) == |items| ==> items == [])
  }

  lemma TokenOfPosition(n: nat)
    requires n <= U64_MAX
    ensures Decimal(n) != "" && TokenStart(Decimal(n)) == n
  {
    ParseUsizeOfDecimal(n);
  }

  lemma NextTokenAdvances<T>(items: seq<T>, pageSize: int, token: string)
    requires |items| <= MAX_ITEMS && IsCursor(items, token)
    ensures var page := Paginate(items, pageSize, token);
            var start, size := TokenStart(token), SizeAskedFor(pageSize);
            var end := Min(start + size, |items|);
            && page.items == items[start..end]
            && (page.nextPageToken == "" <==> end == |items|)
            && (page.nextPageToken != "" ==>
                 && IsCursor(items, page.nextPageToken)
                 && TokenStart(page.nextPageToken) == end == start + size)
  {
    var start, size := TokenStart(token), PageSize(pageSize);
    assert (start + size) % (U64_MAX + 1) == start + size;
    TokenOfPosition(Min(start + size, |items|));
  }

  /** Other tokens: one that is no number starts over; one past the end gives an empty page and ends the
      walk, unless adding the page size wraps, and then the empty page may have a successor. */
  lemma StrayTokens<T>(items: seq<T>, pageSize: int, token: string)
    requires |items| <= MAX_ITEMS
    ensures ParseUsize(token).None? ==> Paginate(items, pageSize, token) == Paginate(items, pageSize, "")
    ensures TokenStart(token) > |items| ==>
              var page := Paginate(items, pageSize, token);
              var wrapped := TokenStart(token) + SizeAskedFor(pageSize) - (U64_MAX + 1);
              && page.items == []
              && page.nextPageToken == if 0 <= wrapped < |items| then Decimal(wrapped) else ""
  {
    var start, size := TokenStart(token), PageSize(pageSize);
    if start + size <= U64_MAX {
      assert (start + size) % (U64_MAX + 1) == start + size;
    } else {
      assert (start + size) % (U64_MAX + 1) == start + size - (U64_MAX + 1);
    }
  }

  /** The pages a client collects when it follows `nextPageToken` until it is empty. */
  function Walk<T>(items: seq<T>, pageSize: int, token: string): seq<seq<T>>
    requires |items| <= MAX_ITEMS && IsCursor(items, token)
    decreases |items| - TokenStart(token)
  {
    NextTokenAdvances(items, pageSize, token);
    var page := Paginate(items, pageSize, token);
    [page.items] + if page.nextPageToken == "" then [] else Walk(items, pageSize, page.nextPageToken)
  }

  function Concat<T>(pages: seq<seq<T>>): seq<T> {
    if pages == [] then [] else pages[0] + Concat(pages[1..])
  }

  function PagesNeeded(n: nat, size: nat): nat
    requires size > 0
  {
    if n <= size then 1 else 1 + PagesNeeded(n - size, size)
  }

  /** What the rest of a walk owes once `done` items have been handed out. */
  ghost predicate Completes<T>(pages: seq<seq<T>>, items: seq<T>, done: nat, size: nat)
    requires size > 0 && done <= |items|
  {
    && Concat(pages) == items[done..]
    && |pages| == PagesNeeded(|items| - done, size)
    && (forall k :: 0 <= k < |pages| - 1 ==> |pages[k]| == size)
    && (forall k :: 0 <= k < |pages| ==> |pages[k]| <= size)
  }

  lemma OneMorePage<T>(rest: seq<seq<T>>, items: seq<T>, done: nat, size: nat)
    requires size > 0 && done + size < |items|
    requires Completes(rest, items, done + size, size)
    ensures Completes([items[done..done + size]] + rest, items, done, size)
  {
    var pages := [items[done..done + size]] + rest;
    assert pages[0] == items[done..done + size] && pages[1..] == rest;
  }

  lemma LastPage<T>(items: seq<T>, done: nat, size: nat)
    requires size > 0 && done <= |items| <= done + size
    ensures Completes([items[done..]], items, done, size)
  {
    assert Concat([items[done..]]) == items[done..] + Concat([]);
  }

  lemma {:induction false} WalkFrom<T>(items: seq<T>, pageSize: int, token: string)
    requires |items| <= MAX_ITEMS && IsCursor(items, token)
    ensures Completes(Walk(items, pageSize, token), items, TokenStart(token), SizeAskedFor(pageSize))
    decreases |items| - TokenStart(token)
  {
    NextTokenAdvances(items, pageSize, token);
    var page, start, size := Paginate(items, pageSize, token), TokenStart(token), SizeAskedFor(pageSize);
    assert size > 0;
    if page.nextPageToken == "" {
      LastPage(items, start, size);
      assert items[start..] == page.items;
      assert Walk(items, pageSize, token) == [page.items];
    } else {
      WalkFrom(items, pageSize, page.nextPageToken);
      OneMorePage(Walk(items, pageSize, page.nextPageToken), items, start, size);
    }
  }

  /** The ceiling of `n / size`, and one page for the empty list. */
  ghost predicate IsPageCount(pages: nat, n: nat, size: nat) {
    if n == 0 then pages == 1 else (pages - 1) * size < n <= pages * size
  }

  lemma {:induction false} PagesNeededIsCeiling(n: nat, size: nat)
    requires size > 0
    ensures PagesNeeded(n, size) >= 1 && IsPageCount(PagesNeeded(n, size), n, size)
  {
    if n > size {
      PagesNeededIsCeiling(n - size, size);
      var p := PagesNeeded(n - size, size);
      assert p * size == (p - 1) * size + size && (p + 1) * size == p * size + size;
    }
  }

  /** Following the tokens from the empty one visits the whole list once, in order, in
      `ceil(n / size)` pages (one for the empty list), and every page but the last is full. The size is
      the one asked for, at most 1000, and 100 if none is. */
  lemma WalkVisitsEverything<T>(items: seq<T>, pageSize: int)
    requires |items| <= MAX_ITEMS
    ensures IsCursor(items, "")
    ensures var pages := Walk(items, pageSize, "");
            var size := SizeAskedFor(pageSize);
            && Concat(pages) == items
            && IsPageCount(|pages|, |items|, size)
            && (forall k :: 0 <= k < |pages| - 1 ==> |pages[k]| == size)
            && (forall k :: 0 <= k < |pages| ==> |pages[k]| <= size)
  {
    WalkFrom(items, pageSize, "");
    PagesNeededIsCeiling(|items|, SizeAskedFor(pageSize));
    assert items[0..] == items;
  }
}
