/** The whole-identifier search used to pick candidate files, and exactly which needles it is right for. */
module Identifier {
  import opened Outcomes

  /** Which characters other than `_` and `'` belong to identifiers is the host language's table. */
  predicate InIdentifier(alphanumeric: char -> bool, c: char) {
    c == '_' || c == '\'' || alphanumeric(c)
  }

  predicate Occurs(s: string, needle: string, i: nat) {
    i + |needle| <= |s| && s[i..i + |needle|] == needle
  }

  /** No identifier character on either side of `s[i..end]`. */
  predicate Bounded(alphanumeric: char -> bool, s: string, i: nat, end: nat)
    requires i <= end <= |s|
  {
    && !(i > 0 && InIdentifier(alphanumeric, s[i - 1]))
    && !(end < |s| && InIdentifier(alphanumeric, s[end]))
  }

  predicate Whole(alphanumeric: char -> bool, s: string, needle: string, i: nat) {
    Occurs(s, needle, i) && Bounded(alphanumeric, s, i, i + |needle|)
  }

  /** The property the search is for. */
  ghost predicate HasWhole(alphanumeric: char -> bool, s: string, needle: string) {
    exists i: nat :: Whole(alphanumeric, s, needle, i)
  }

  /** The first occurrence at or after `offset`. */
  function Find(s: string, needle: string, offset: nat): (r: Option<nat>)
    requires offset <= |s|
    ensures r.Some? ==> offset <= r.value && Occurs(s, needle, r.value) && forall i :: offset <= i < r.value ==> !Occurs(s, needle, i)
    ensures r.None? ==> forall i: nat :: offset <= i ==> !Occurs(s, needle, i)
    decreases |s| - offset
  {
    if Occurs(s, needle, offset) then Some(offset)
    else if offset == |s| then None
    else Find(s, needle, offset + 1)
  }

  /** What the loop answers from `offset` on: after a rejected occurrence it jumps past its end. */
  function Scan(alphanumeric: char -> bool, s: string, needle: string, offset: nat): bool
    requires offset <= |s| && needle != ""
    decreases |s| - offset
  {
    match Find(s, needle, offset)
    case None => false
    case Some(start) =>
      var end := start + |needle|;
      Bounded(alphanumeric, s, start, end) || (end < |s| && Scan(alphanumeric, s, needle, end))
  }

  method ContainsIdentifier(alphanumeric: char -> bool, source: string, needle: string) returns (r: bool)
    ensures needle == "" ==> !r
    ensures needle != "" ==> r == Scan(alphanumeric, source, needle, 0)
    ensures r ==> HasWhole(alphanumeric, source, needle)
    ensures needle != "" && Aligned(alphanumeric, needle) ==> (r <==> HasWhole(alphanumeric, source, needle))
  {
    if needle == "" { return false; }
    if Aligned(alphanumeric, needle) {
      NothingSkipped(alphanumeric, source, needle, 0);
    }
    var offset := 0;
    while true
      invariant offset <= |source|
      invariant Scan(alphanumeric, source, needle, 0) == Scan(alphanumeric, source, needle, offset)
      decreases |source| - offset
    {
      var found := Find(source, needle, offset);
      if found.None? { return false; }
      var end := found.value + |needle|;
      if Bounded(alphanumeric, source, found.value, end) {
        assert Whole(alphanumeric, source, needle, found.value);
        return true;
      }
      offset := end;
      if offset >= |source| { return false; }
    }
  }

  /**
   * Wherever a needle overlaps a shifted copy of itself, the copy is preceded by an identifier
   * character. A caller can check this of the needle alone.
   */
  ghost predicate Aligned(alphanumeric: char -> bool, needle: string) {
    forall d :: 0 < d < |needle| && needle[d..] == needle[..|needle| - d] ==> InIdentifier(alphanumeric, needle[d - 1])
  }

  /** Needles made only of identifier characters, the ones the search is meant for, are such. */
  lemma IdentifiersAreAligned(alphanumeric: char -> bool, needle: string)
    requires forall i :: 0 <= i < |needle| ==> InIdentifier(alphanumeric, needle[i])
    ensures Aligned(alphanumeric, needle)
  {
  }

  /** For an aligned needle the jump loses nothing: a whole occurrence never starts inside a rejected one. */
  lemma {:induction false} NothingSkipped(alphanumeric: char -> bool, s: string, needle: string, offset: nat)
    requires offset <= |s| && needle != "" && Aligned(alphanumeric, needle)
    ensures (exists i: nat :: offset <= i && Whole(alphanumeric, s, needle, i)) ==> Scan(alphanumeric, s, needle, offset)
    decreases |s| - offset
  {
    if i: nat :| offset <= i && Whole(alphanumeric, s, needle, i) {
      var start := Find(s, needle, offset).value;
      var end := start + |needle|;
      if i < end && i != start {
        OverlapShift(s, needle, start, i);
      }
      if end <= i {
        NothingSkipped(alphanumeric, s, needle, end);
      }
    }
  }

  /** Two overlapping occurrences make the needle overlap itself. */
  lemma OverlapShift(s: string, needle: string, j: nat, i: nat)
    requires Occurs(s, needle, j) && Occurs(s, needle, i) && j < i < j + |needle|
    ensures var d := i - j; needle[d..] == needle[..|needle| - d] && s[i - 1] == needle[d - 1]
  {
    var d := i - j;
    forall k | 0 <= k < |needle| - d ensures needle[d..][k] == needle[..|needle| - d][k] {
      assert s[j..j + |needle|][d + k] == s[i + k];
      assert s[i..i + |needle|][k] == s[i + k];
    }
    assert s[j..j + |needle|][d - 1] == s[i - 1];
  }

  /** For any other needle there is a source on which the search misses the one whole occurrence. */
  lemma SomethingSkipped(alphanumeric: char -> bool, needle: string, d: nat) returns (s: string)
    requires 0 < d < |needle| && needle[d..] == needle[..|needle| - d]
    requires !InIdentifier(alphanumeric, needle[d - 1])
    ensures HasWhole(alphanumeric, s, needle) && !Scan(alphanumeric, s, needle, 0)
  {
    var n := |needle|;
    s := "_" + needle + needle[n - d..];
    assert s[1..1 + n] == needle;
    forall k | 0 <= k < n ensures s[1 + d + k] == needle[k] {
      if d + k < n {
        assert needle[d..][k] == needle[..n - d][k];
      }
    }
    assert s[1 + d..1 + d + n] == needle;
    assert s[d] == needle[d - 1];
    assert Whole(alphanumeric, s, needle, 1 + d);
    if Occurs(s, needle, 0) {
      AllUnderscores(s, needle, d - 1);
    }
    assert Find(s, needle, 0) == Some(1);
    assert !Bounded(alphanumeric, s, 1, 1 + n);
    assert Find(s, needle, 1 + n) == None;
  }

  lemma {:induction false} AllUnderscores(s: string, needle: string, k: nat)
    requires k < |needle| < |s| && s[0] == '_' && s[1..1 + |needle|] == needle && Occurs(s, needle, 0)
    ensures needle[k] == '_'
  {
    assert needle[k] == s[..|needle|][k];
    if k > 0 {
      AllUnderscores(s, needle, k - 1);
      assert needle[k - 1] == s[1..1 + |needle|][k - 1];
    }
  }

  /** The search is right on every source exactly for the aligned needles. */
  lemma RightExactlyWhenAligned(alphanumeric: char -> bool, needle: string)
    requires needle != ""
    ensures (forall s: string :: Scan(alphanumeric, s, needle, 0) <==> HasWhole(alphanumeric, s, needle))
            <==> Aligned(alphanumeric, needle)
  {
    if Aligned(alphanumeric, needle) {
      forall s: string ensures Scan(alphanumeric, s, needle, 0) <==> HasWhole(alphanumeric, s, needle) {
        NothingSkipped(alphanumeric, s, needle, 0);
        if Scan(alphanumeric, s, needle, 0) {
          ScanIsSound(alphanumeric, s, needle, 0);
        }
      }
    } else {
      var d :| 0 < d < |needle| && needle[d..] == needle[..|needle| - d] && !InIdentifier(alphanumeric, needle[d - 1]);
      var s := SomethingSkipped(alphanumeric, needle, d);
      assert !(Scan(alphanumeric, s, needle, 0) <==> HasWhole(alphanumeric, s, needle));
    }
  }

  lemma {:induction false} ScanIsSound(alphanumeric: char -> bool, s: string, needle: string, offset: nat)
    requires offset <= |s| && needle != "" && Scan(alphanumeric, s, needle, offset)
    ensures HasWhole(alphanumeric, s, needle)
    decreases |s| - offset
  {
    var start := Find(s, needle, offset).value;
    if Bounded(alphanumeric, s, start, start + |needle|) {
      assert Whole(alphanumeric, s, needle, start);
    } else {
      ScanIsSound(alphanumeric, s, needle, start + |needle|);
    }
  }
}
