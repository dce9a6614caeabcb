/** Paged listing of functions, and the walk a client makes over the pages. */
module Pagination {
  import opened Wrappers
  import opened Text

  type Address = nat

  datatype Function = Function(address: Address, name: string, size: nat)

  datatype Page = Page(functions: seq<Function>, total: nat, next: Option<nat>)

  const MAX_USIZE: nat := 0xffff_ffff_ffff_ffff

  function SaturatingAdd(a: nat, b: nat): nat {
    if a + b > MAX_USIZE then MAX_USIZE else a + b
  }

  /** A name filter with the text's lower-casing, whatever that is. */
  datatype Filter = Filter(text: Option<string>, lower: string -> string)

  predicate Matches(f: Function, filter: Filter) {
    filter.text.Some? ==> Contains(filter.lower(f.name), filter.lower(filter.text.value))
  }

  /** The functions that pass the filter, in order. */
  function Matching(fs: seq<Function>, filter: Filter): seq<Function> {
    if fs == [] then []
    else
      var n := |fs| - 1;
      Matching(fs[..n], filter) + if Matches(fs[n], filter) then [fs[n]] else []
  }

  lemma {:induction false} MatchingShrinks(fs: seq<Function>, filter: Filter)
    ensures |Matching(fs, filter)| <= |fs|
  {
    if fs != [] { MatchingShrinks(fs[..|fs| - 1], filter); }
  }

  function Min(a: nat, b: nat): nat { if a <= b then a else b }

  /** The slice `[offset, offset + limit)` of a list, cut at its end. */
  function Window<T>(xs: seq<T>, offset: nat, limit: nat): seq<T> {
    var from := Min(offset, |xs|);
    xs[from..Min(from + limit, |xs|)]
  }

  /** `handle_list_functions`: a page is exactly a window of the filtered list,
      with the size of the whole list and the offset where the next page starts. */
  method ListFunctions(fs: seq<Function>, offset: nat, limit: nat, filter: Filter) returns (page: Page)
    requires |fs| <= MAX_USIZE && offset <= MAX_USIZE && limit <= MAX_USIZE
    ensures page.functions == Window(Matching(fs, filter), offset, limit)
    ensures page.total == |Matching(fs, filter)|
    ensures page.next == if offset + |page.functions| < page.total then Some(offset + |page.functions|) else None
  {
    var functions, total := [], 0;
    ghost var found := Matching(fs[..0], filter);
    var i := 0;
    while i < |fs|
      invariant 0 <= i <= |fs| && found == Matching(fs[..i], filter)
      invariant total == |found| && functions == Window(found, offset, limit)
    {
      assert fs[..i + 1][..i] == fs[..i];
      var f := fs[i];
      i := i + 1;
      if !Matches(f, filter) {
        continue;
      }
      WindowAppend(found, f, offset, limit);
      found := found + [f];
      total := total + 1;
      if total <= offset || |functions| >= limit {
        continue;
      }
      functions := functions + [f];
    }
    assert fs[..i] == fs;
    MatchingShrinks(fs, filter);
    var next := SaturatingAdd(offset, |functions|);
    page := Page(functions, total, if next < total then Some(next) else None);
  }

  /** A page grows by the new element exactly when it is past the offset and not full. */
  lemma WindowAppend<T>(xs: seq<T>, x: T, offset: nat, limit: nat)
    ensures var w := Window(xs, offset, limit);
            Window(xs + [x], offset, limit) == if |xs| + 1 <= offset || |w| >= limit then w else w + [x]
  {
    var w := Window(xs, offset, limit);
    if |xs| + 1 > offset && |w| < limit {
      assert w == xs[offset..];
      assert (xs + [x])[offset..] == xs[offset..] + [x];
    }
  }

  /** The pages a client gets by following `next` from `offset`, with any limit per page. */
  method Walk(fs: seq<Function>, limits: nat -> nat, filter: Filter) returns (pages: seq<Page>)
    requires |fs| <= MAX_USIZE && forall n {:trigger limits(n)} :: 1 <= limits(n) <= MAX_USIZE
    ensures Listed(pages) == Matching(fs, filter)
    ensures |pages| <= |Matching(fs, filter)| + 1
    ensures forall i :: 0 <= i < |pages| ==> pages[i].total == |Matching(fs, filter)|
  {
    var all := Matching(fs, filter);
    MatchingShrinks(fs, filter);
    pages := [];
    var offset := Some(0);
    while offset.Some?
      invariant offset.Some? ==> offset.value <= |all| && |pages| <= offset.value
      invariant offset.None? ==> |pages| <= |all| + 1
      invariant Listed(pages) == if offset.Some? then all[..offset.value] else all
      invariant forall i :: 0 <= i < |pages| ==> pages[i].total == |all|
      decreases if offset.Some? then |all| + 1 - offset.value else 0
    {
      var page := ListFunctions(fs, offset.value, limits(offset.value), filter);
      WindowContinues(all, offset.value, limits(offset.value));
      ListedAppend(pages, page);
      assert all[..offset.value] + page.functions == all[..offset.value + |page.functions|];
      assert all[..|all|] == all;
      pages := pages + [page];
      offset := page.next;
    }
  }

  function Listed(pages: seq<Page>): seq<Function> {
    if pages == [] then [] else Listed(pages[..|pages| - 1]) + pages[|pages| - 1].functions
  }

  lemma ListedAppend(pages: seq<Page>, page: Page)
    ensures Listed(pages + [page]) == Listed(pages) + page.functions
  {
    assert (pages + [page])[..|pages|] == pages;
  }

  lemma WindowContinues<T>(xs: seq<T>, offset: nat, limit: nat)
    requires offset <= |xs| && limit >= 1
    ensures var w := Window(xs, offset, limit);
            && offset + |w| <= |xs| && xs[..offset] + w == xs[..offset + |w|]
            && (offset < |xs| ==> |w| >= 1)
  {
  }

  /** The name passes the filter: the lowered text stands somewhere in the lowered name. */
  ghost predicate Passes(f: Function, filter: Filter) {
    filter.text.None? || exists i: nat :: OccursAt(filter.lower(f.name), i, filter.lower(filter.text.value))
  }

  lemma PassesIff(f: Function, filter: Filter)
    ensures Matches(f, filter) <==> Passes(f, filter)
  {
    if filter.text.Some? { ContainsIff(filter.lower(f.name), filter.lower(filter.text.value)); }
  }

  /** The filtered list is exactly the passing functions in their order: one that passes
      stands behind those that pass before it, and there are no others. */
  lemma {:induction false} MatchingExact(fs: seq<Function>, filter: Filter, j: nat)
    requires j < |fs|
    ensures if Passes(fs[j], filter)
            then && |Matching(fs[..j], filter)| < |Matching(fs, filter)|
                 && Matching(fs, filter)[|Matching(fs[..j], filter)|] == fs[j]
                 && |Matching(fs[..j + 1], filter)| == |Matching(fs[..j], filter)| + 1
            else Matching(fs[..j + 1], filter) == Matching(fs[..j], filter)
  {
    var n := |fs| - 1;
    PassesIff(fs[j], filter);
    assert fs[..j + 1][..j] == fs[..j];
    if j < n {
      MatchingExact(fs[..n], filter, j);
      assert fs[..n][..j] == fs[..j];
    } else {
      assert fs[..j + 1] == fs;
    }
  }
}
