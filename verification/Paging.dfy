/** Bounded text pages cut on character boundaries. */
module Paging {
  import opened Outcomes
  import opened Sources
  import opened Checkpoints
  import opened Utf8

  const PAGE_BYTES: nat := 32 * 1024

  datatype Page = Page(text: Text, nextOffset: Option<nat>)

  /** `end` is the last character boundary within one page of `offset`. */
  ghost predicate PageEnd(text: Text, offset: nat, end: nat) {
    && offset <= end <= |text| && end - offset <= PAGE_BYTES
    && IsCharBoundary(text, end)
    && forall k :: end < k <= |text| && k - offset <= PAGE_BYTES ==> !IsCharBoundary(text, k)
  }

  /** The page that starts at `offset`, and where the next one starts. */
  ghost predicate IsPage(text: Text, offset: nat, page: Page) {
    var end := offset + |page.text|;
    && PageEnd(text, offset, end)
    && page == Page(text[offset..end], if end < |text| then Some(end) else None)
  }

  ghost predicate Acceptable(text: Text, offset: nat) {
    offset <= |text| && IsCharBoundary(text, offset) && (offset == |text| ==> text == [])
  }

  method TextResult(text: Text, offset: nat) returns (r: Result<Page, ErrorKind>)
    requires Valid(text)
    ensures r.Ok? <==> Acceptable(text, offset)
    ensures r.Err? ==> r.error == InvalidRequest
    ensures r.Ok? ==> IsPage(text, offset, r.value)
    ensures r.Ok? && r.value.text == [] ==> text == []
  {
    var length := |text|;
    if offset > length || !IsCharBoundary(text, offset) || (offset == length && text != []) {
      return Err(InvalidRequest);
    }
    if offset == 0 && length <= PAGE_BYTES {
      assert text[0..length] == text;
      assert PageEnd(text, offset, length);
      return Ok(Page(text, None));
    }
    var end := if offset + PAGE_BYTES <= length then offset + PAGE_BYTES else length;
    ghost var bound := end;
    ghost var near := BoundaryNearby(text, bound);
    while end > offset && !IsCharBoundary(text, end)
      invariant offset <= end <= bound && near <= end
      invariant forall k :: end < k <= bound ==> !IsCharBoundary(text, k)
    {
      end := end - 1;
    }
    assert PageEnd(text, offset, end);
    assert end > offset by {
      assert offset < length && IsCharBoundary(text, length);
    }
    r := Ok(Page(text[offset..end], if end < length then Some(end) else None));
  }

  /** The rendering a checkpoint keeps. */
  method BoundedView(goals: Text) returns (v: View)
    requires Valid(goals)
    ensures IsPage(goals, 0, Page(v.goals, v.nextOffset))
  {
    if |goals| <= PAGE_BYTES {
      assert goals[..|goals|] == goals && PageEnd(goals, 0, |goals|);
      return View(goals, None);
    }
    var end := PAGE_BYTES;
    while end > 0 && !IsCharBoundary(goals, end)
      invariant 0 <= end <= PAGE_BYTES
      invariant forall k :: end < k <= PAGE_BYTES ==> !IsCharBoundary(goals, k)
    {
      end := end - 1;
    }
    assert PageEnd(goals, 0, end);
    v := View(goals[..end], Some(end));
  }

  lemma PageEndUnique(text: Text, offset: nat, a: nat, b: nat)
    requires PageEnd(text, offset, a) && PageEnd(text, offset, b)
    ensures a == b
  {
  }

  /** A checkpoint keeps exactly the first page of its goals, with the same continuation. */
  method ViewIsFirstPage(goals: Text) returns (v: View, first: Result<Page, ErrorKind>)
    requires Valid(goals)
    ensures first == Ok(Page(v.goals, v.nextOffset))
  {
    v := BoundedView(goals);
    first := TextResult(goals, 0);
    PageEndUnique(goals, 0, |v.goals|, |first.value.text|);
  }

  ghost function Concat(pages: seq<Text>): Text {
    if pages == [] then [] else Concat(pages[..|pages| - 1]) + pages[|pages| - 1]
  }

  /** A page on its own: well-formed text within the bound. */
  ghost predicate Fits(page: Text) {
    |page| <= PAGE_BYTES && Valid(page)
  }

  ghost predicate AllFit(pages: seq<Text>) {
    forall i :: 0 <= i < |pages| ==> Fits(pages[i])
  }

  lemma OneMorePage(pages: seq<Text>, page: Text)
    requires AllFit(pages) && Fits(page)
    ensures AllFit(pages + [page]) && Concat(pages + [page]) == Concat(pages) + page
  {
    assert (pages + [page])[..|pages|] == pages;
  }

  /**
   * A client that follows `nextOffset` from 0: it never meets an error, stops, and has read the
   * whole text in pages that are well-formed on their own and within the bound.
   */
  method ReadAll(text: Text) returns (pages: seq<Text>)
    requires Valid(text)
    ensures Concat(pages) == text
    ensures AllFit(pages)
  {
    pages := [];
    var offset := Some(0);
    ghost var read: nat := 0;
    while offset.Some?
      invariant read <= |text| && IsCharBoundary(text, read)
      invariant offset.Some? ==> offset.value == read && Acceptable(text, read)
      invariant offset.None? ==> read == |text|
      invariant Concat(pages) == text[..read]
      invariant AllFit(pages)
      decreases offset.Some?, |text| - read
    {
      var page := ReadPage(text, offset.value);
      OneMorePage(pages, page.text);
      pages := pages + [page.text];
      offset := page.nextOffset;
      read := read + |page.text|;
    }
    assert text[..|text|] == text;
  }

  /** Follow one offset the server gave out. */
  method ReadPage(text: Text, read: nat) returns (page: Page)
    requires Valid(text) && Acceptable(text, read)
    ensures var end := read + |page.text|;
            && end <= |text| && IsCharBoundary(text, end) && text[..read] + page.text == text[..end]
            && (page.nextOffset.Some? ==> page.nextOffset.value == end && Acceptable(text, end))
            && (page.nextOffset.None? ==> end == |text|)
    ensures Fits(page.text)
    ensures page.nextOffset.Some? ==> page.text != []
  {
    var answer := TextResult(text, read);
    page := answer.value;
    NextPage(text, read, page);
    PageIsValid(text, read, read + |page.text|, page.text);
  }

  /** What a page adds to what has been read. */
  lemma NextPage(text: Text, read: nat, page: Page)
    requires Acceptable(text, read) && IsPage(text, read, page)
    ensures var end := read + |page.text|;
            && end <= |text| && IsCharBoundary(text, end)
            && text[..read] + page.text == text[..end] && page.text == text[read..end]
            && |page.text| <= PAGE_BYTES
            && (page.nextOffset.Some? ==> page.nextOffset.value == end && Acceptable(text, end))
            && (page.nextOffset.None? ==> end == |text|)
  {
  }

  lemma PageIsValid(text: Text, start: nat, end: nat, page: Text)
    requires Valid(text) && start <= end <= |text| && page == text[start..end]
    requires IsCharBoundary(text, start) && IsCharBoundary(text, end)
    ensures Valid(page)
  {
    var rest := text[start..];
    assert page == rest[..end - start];
    BoundaryInSuffix(text, start, end);
    SuffixIsValid(text, start, rest);
    PrefixIsValid(rest, end - start, page);
  }

  lemma BoundaryInSuffix(text: Text, start: nat, end: nat)
    requires start <= end <= |text| && IsCharBoundary(text, end)
    ensures IsCharBoundary(text[start..], end - start)
  {
  }

  lemma SuffixIsValid(text: Text, start: nat, rest: Text)
    requires Valid(text) && start <= |text| && IsCharBoundary(text, start) && rest == text[start..]
    ensures Valid(rest)
  {
    BoundaryIsExact(text, start);
  }

  lemma PrefixIsValid(text: Text, n: nat, head: Text)
    requires Valid(text) && n <= |text| && IsCharBoundary(text, n) && head == text[..n]
    ensures Valid(head)
  {
    BoundaryIsExact(text, n);
  }
}
