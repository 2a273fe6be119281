/** Well-formed UTF-8 as section 4 of RFC 3629 defines it, and the boundary test used on it. */
module Utf8 {
  import opened Sources

  predicate Tail(b: byte) {
    0x80 <= b <= 0xBF
  }

  /** The length of the character that starts `s`, or 0 when none does. */
  function CharLen(s: Text): (n: nat)
    ensures n <= 4 && n <= |s|
    ensures n > 0 ==> !Tail(s[0])
    ensures forall i :: 0 < i < n ==> Tail(s[i])
  {
    if |s| >= 1 && s[0] <= 0x7F then 1
    else if |s| >= 2 && 0xC2 <= s[0] <= 0xDF && Tail(s[1]) then 2
    else if |s| >= 3 && Tail(s[1]) && Tail(s[2])
            && ((s[0] == 0xE0 && 0xA0 <= s[1]) || 0xE1 <= s[0] <= 0xEC
                || (s[0] == 0xED && s[1] <= 0x9F) || 0xEE <= s[0] <= 0xEF) then 3
    else if |s| >= 4 && Tail(s[1]) && Tail(s[2]) && Tail(s[3])
            && ((s[0] == 0xF0 && 0x90 <= s[1]) || 0xF1 <= s[0] <= 0xF3
                || (s[0] == 0xF4 && s[1] <= 0x8F)) then 4
    else 0
  }

  predicate Valid(s: Text)
    decreases |s|
  {
    s == [] || (CharLen(s) > 0 && Valid(s[CharLen(s)..]))
  }

  /** The program's test: an end of the text, or a byte that continues no character. */
  predicate IsCharBoundary(s: Text, i: nat) {
    i == 0 || i == |s| || (i < |s| && !Tail(s[i]))
  }

  /** A character is recognised by its own bytes alone. */
  lemma CharLenPrefix(s: Text, t: Text)
    requires CharLen(s) > 0 && s <= t
    ensures CharLen(t) == CharLen(s)
  {
    assert forall i :: 0 <= i < |s| ==> s[i] == t[i];
  }

  lemma CharLenOfChar(s: Text)
    requires CharLen(s) > 0
    ensures CharLen(s[..CharLen(s)]) == CharLen(s)
  {
  }

  /** The boundary test is exact: it accepts the cuts that leave two well-formed texts, and no others. */
  lemma {:induction false} BoundaryIsExact(s: Text, i: nat)
    requires Valid(s) && i <= |s|
    ensures IsCharBoundary(s, i) <==> (Valid(s[..i]) && Valid(s[i..]))
    decreases |s|
  {
    if i == 0 {
      assert s[..0] == [] && s[0..] == s;
    } else {
      var n := CharLen(s);
      var rest := s[n..];
      if i < n {
        assert Tail(s[i]) && s[i..][0] == s[i];
        assert CharLen(s[i..]) == 0;
      } else {
        BoundaryIsExact(rest, i - n);
        CharLenPrefixBack(s, i);
        assert s[..i][n..] == rest[..i - n] && s[i..] == rest[i - n..];
        if i < |s| {
          assert rest[i - n] == s[i];
        }
        if i == n && i < |s| {
          assert CharLen(rest) > 0;
        }
      }
    }
  }

  lemma CharLenPrefixBack(s: Text, i: nat)
    requires 0 < CharLen(s) <= i <= |s|
    ensures CharLen(s[..i]) == CharLen(s)
  {
    CharLenOfChar(s);
    assert s[..CharLen(s)] <= s[..i];
    CharLenPrefix(s[..CharLen(s)], s[..i]);
  }

  /** A boundary is never more than three bytes below any position. */
  lemma {:induction false} BoundaryNearby(s: Text, i: nat) returns (j: nat)
    requires Valid(s) && i <= |s|
    ensures j <= i <= j + 3 && IsCharBoundary(s, j)
    decreases |s|
  {
    if i == 0 {
      j := 0;
    } else {
      var n := CharLen(s);
      if i < n {
        j := 0;
      } else {
        var k := BoundaryNearby(s[n..], i - n);
        j := n + k;
        if k == 0 && n < |s| {
          assert CharLen(s[n..]) > 0;
        }
      }
    }
  }
}
