/** Which declaration ranges may be replaced alone, and what replacing one does to the file. */
module Splicing {
  import opened Outcomes
  import opened Sources
  import opened Utf8
  import opened Declarations
  import opened Prover
  import opened Engine

  const NEWLINE: byte := 10
  const DOT: byte := 46
  const PROOF_LINE: Text := [80, 114, 111, 111, 102, 46, 10]

  function Splice(original: Text, range: Range, body: Text): (r: Text)
    requires range.start <= range.end <= |original|
    ensures |r| == |original| + |body| - (range.end - range.start)
  {
    original[..range.start] + body + original[range.end..]
  }

  /** The bytes of `row` are all there, `offset` further on. */
  predicate KeptAt(original: Text, out: Text, row: Range, offset: int) {
    && row.start <= row.end <= |original| && 0 <= row.start + offset && row.end + offset <= |out|
    && out[row.start + offset..row.end + offset] == original[row.start..row.end]
  }

  /** What lies before the replaced range stays, what lies after it moves by one common amount. */
  predicate Spared(original: Text, out: Text, range: Range, row: Range) {
    && (row.end <= range.start ==> KeptAt(original, out, row, 0))
    && (range.end <= row.start ==> KeptAt(original, out, row, |out| - |original|))
  }

  /** Text outside the replaced range is identical. */
  lemma OutsideIsKept(original: Text, range: Range, body: Text, row: Range)
    requires range.start <= range.end <= |original| && row.start <= row.end <= |original|
    ensures Spared(original, Splice(original, range, body), range, row)
  {
    var out := Splice(original, range, body);
    var shift := |out| - |original|;
    if row.end <= range.start {
      assert forall k :: row.start <= k < row.end ==> out[k] == original[k];
    }
    if range.end <= row.start {
      assert forall k :: row.start <= k < row.end ==> out[k + shift] == original[k];
      assert out[row.start + shift..row.end + shift] == original[row.start..row.end];
    }
  }

  predicate Apart(a: Range, b: Range) {
    a.end <= b.start || b.end <= a.start
  }

  /**
   * Replacing a range with one owner keeps the bytes of every other listed declaration: those
   * before it stay where they were, those after it all move by the same amount.
   */
  lemma OtherDeclarationsAreKept(original: Text, rows: seq<Row>, i: nat, j: nat, body: Text)
    requires i < |rows| && j < |rows| && i != j
    requires AllPlaced(rows, original) && SoleOwner(rows, i)
    ensures Apart(rows[j].declaration, rows[i].declaration)
    ensures Spared(original, Splice(original, rows[i].declaration, body), rows[i].declaration, rows[j].declaration)
  {
    assert !Intersects(rows[i].declaration, rows[j].declaration);
    OutsideIsKept(original, rows[i].declaration, body, rows[j].declaration);
  }

  /** A byte different from two given ones. */
  function Other(a: byte, b: byte): (c: byte)
    ensures c != a && c != b
  {
    if a != 0 && b != 0 then 0 else if a != 1 && b != 1 then 1 else 2
  }

  /** Without sole ownership some replacement destroys another declaration: the flag is not over-cautious. */
  lemma SharedRangeLosesBytes(original: Text, rows: seq<Row>, i: nat) returns (j: nat, body: Text)
    requires i < |rows| && AllPlaced(rows, original) && !SoleOwner(rows, i)
    ensures j < |rows| && j != i && Intersects(rows[i].declaration, rows[j].declaration)
    ensures var out := Splice(original, rows[i].declaration, body);
            |out| == |original| && !KeptAt(original, out, rows[j].declaration, 0)
  {
    j :| 0 <= j < |rows| && j != i && Intersects(rows[i].declaration, rows[j].declaration);
    var a, b := rows[i].declaration, rows[j].declaration;
    body := seq(a.end - a.start, k requires 0 <= k < a.end - a.start => Other(original[a.start + k], 0));
    var k := if a.start < b.start then b.start else a.start;
    var out := Splice(original, a, body);
    var o := k - a.start;
    assert body[o] == Other(original[a.start + o], 0);
    assert out[k] == body[o] != original[k];
    assert out[b.start..b.end][k - b.start] == out[k] && original[b.start..b.end][k - b.start] == original[k];
  }

  /** The declaration is in one piece, where it was or just behind what was inserted. */
  predicate Unbroken(original: Text, at: nat, body: Text, row: Range)
    requires at <= |original|
  {
    var out := Splice(original, Range(at, at), body);
    KeptAt(original, out, row, 0) || KeptAt(original, out, row, |body|)
  }

  /** Every insertion leaves a declaration in one piece exactly when its point is not strictly inside it. */
  lemma InsertionSplits(original: Text, at: nat, row: Range)
    requires at <= |original| && row.start < row.end <= |original|
    ensures (forall body: Text :: Unbroken(original, at, body, row)) <==> !(row.start < at < row.end)
  {
    if row.start < at < row.end {
      var body := [Other(original[at], original[at - 1])];
      var out := Splice(original, Range(at, at), body);
      assert out[at] == body[0];
      assert out[row.start..row.end][at - row.start] == out[at] && original[row.start..row.end][at - row.start] == original[at];
      assert row.end + 1 <= |out|;
      assert out[row.start + 1..row.end + 1][at - 1 - row.start] == out[at];
      assert original[row.start..row.end][at - 1 - row.start] == original[at - 1];
      assert !Unbroken(original, at, body, row);
    } else {
      forall body: Text ensures Unbroken(original, at, body, row) {
        OutsideIsKept(original, Range(at, at), body, row);
      }
    }
  }

  // ---------------------------------------------------------------- the rendered proof

  function TrimStart(t: Text): Text {
    if t != [] && Space(t[0]) then TrimStart(t[1..]) else t
  }

  function TrimEnd(t: Text): Text {
    if t != [] && Space(t[|t| - 1]) then TrimEnd(t[..|t| - 1]) else t
  }

  function Trim(t: Text): Text {
    TrimEnd(TrimStart(t))
  }

  /** One line per accepted fragment, in order. */
  function Lines(fragments: seq<Text>): Text {
    if fragments == [] then []
    else Lines(fragments[..|fragments| - 1]) + Trim(fragments[|fragments| - 1]) + [NEWLINE]
  }

  function Opening(original: Text, target: Target): Result<Text, ErrorKind>
    requires target.declaration.start <= target.declaration.end <= |original|
  {
    var start := target.declaration.start;
    match target.newHeader
    case Some(header) =>
      Ok((if start > 0 && original[start - 1] != NEWLINE then [NEWLINE] else []) + header + [DOT, NEWLINE])
    case None =>
      if start > target.header.end || target.header.end > target.declaration.end then Err(DeclarationChanged)
      else
        var header := original[start..target.header.end];
        if !Valid(header) then Err(InvalidConfiguration)
        else
          var trimmed := TrimEnd(header);
          var period: Text := if trimmed == [] || trimmed[|trimmed| - 1] != DOT then [DOT] else [];
          Ok(header + period + [NEWLINE])
  }

  function Rendered(opening: Text, kind: Kind, fragments: seq<Text>): Text {
    opening + (if kind.Definition? then [] else PROOF_LINE) + Lines(fragments) + Terminator(kind) + [NEWLINE]
  }

  function Replacement(original: Text, target: Target, fragments: seq<Text>): Result<Text, ErrorKind> {
    if target.declaration.start > target.declaration.end || target.declaration.end > |original| then
      Err(DeclarationChanged)
    else match Opening(original, target)
      case Err(e) => Err(e)
      case Ok(opening) => Ok(Splice(original, target.declaration, Rendered(opening, target.kind, fragments)))
  }

  // ---------------------------------------------------------------- what the new text says

  /** Nothing but spaces from `a` until just before `b`. */
  predicate Blank(t: Text, a: nat, b: nat) {
    b <= |t| && forall i :: a <= i < b ==> Space(t[i])
  }

  /** `x` is the text without `a` spaces in front and what is behind `b`, which are spaces too. */
  predicate Between(t: Text, a: nat, b: nat, x: Text) {
    a <= b <= |t| && Blank(t, 0, a) && Blank(t, b, |t|) && x == t[a..b]
  }

  /** `x` is the text without the spaces around it. */
  ghost predicate Stripped(t: Text, x: Text) {
    && (exists a: nat, b: nat :: Between(t, a, b, x))
    && (x != [] ==> !Space(x[0]) && !Space(x[|x| - 1]))
  }

  /** The text ends with a period, spaces behind it aside. */
  ghost predicate Closed(t: Text) {
    exists k :: 0 <= k < |t| && t[k] == DOT && Blank(t, k + 1, |t|)
  }

  /** From `p` until `q` there is exactly one line, and it is this fragment without the spaces around it. */
  ghost predicate LineIs(out: Text, p: nat, q: nat, fragment: Text) {
    p < q <= |out| && out[q - 1] == NEWLINE && Stripped(fragment, out[p..q - 1])
  }

  ghost predicate LineAt(out: Text, cuts: seq<nat>, fragments: seq<Text>, i: nat) {
    i < |fragments| && i + 1 < |cuts| && LineIs(out, cuts[i], cuts[i + 1], fragments[i])
  }

  /**
   * The declaration's header is there, with its period, and a newline. A new header begins a line of
   * its own; an existing one is the file's own bytes.
   */
  ghost predicate HeaderEnds(original: Text, target: Target, out: Text, p: nat)
    requires target.declaration.start <= |original|
  {
    var start := target.declaration.start;
    match target.newHeader
    case Some(header) =>
      var q := if start > 0 && original[start - 1] != NEWLINE then start + 1 else start;
      && p == q + |header| + 2 <= |out| && out[q..p] == header + [DOT, NEWLINE]
      && (q > start ==> out[start] == NEWLINE)
    case None =>
      && start <= target.header.end <= |original|
      && var header := original[start..target.header.end];
         p == start + |header| + (if Closed(header) then 1 else 2) <= |out|
         && out[start..p] == header + (if Closed(header) then [NEWLINE] else [DOT, NEWLINE])
  }

  /** Then the proof begins. */
  ghost predicate ProofBegins(original: Text, target: Target, out: Text, first: nat)
    requires target.declaration.start <= |original|
  {
    if target.kind.Definition? then HeaderEnds(original, target, out, first)
    else
      |PROOF_LINE| <= first <= |out| && out[first - |PROOF_LINE|..first] == PROOF_LINE && HeaderEnds(original, target, out, first - |PROOF_LINE|)
  }

  /**
   * What is published: the old text before the range, the header, one line for each fragment, in order
   * and without the spaces around it, the terminator, and the old text after the range.
   */
  ghost predicate Says(original: Text, target: Target, fragments: seq<Text>, out: Text, cuts: seq<nat>) {
    && target.declaration.start <= target.declaration.end <= |original| && target.declaration.start <= |out|
    && |cuts| == |fragments| + 1 && cuts[|fragments|] <= |out|
    && out[..target.declaration.start] == original[..target.declaration.start]
    && ProofBegins(original, target, out, cuts[0])
    && (forall i :: 0 <= i < |fragments| ==> LineAt(out, cuts, fragments, i))
    && out[cuts[|fragments|]..] == Terminator(target.kind) + [NEWLINE] + original[target.declaration.end..]
  }

  /** The text published for these fragments. */
  ghost predicate Writes(target: Target, fragments: seq<Text>, out: Text) {
    exists cuts :: Says(target.source, target, fragments, out, cuts)
  }

  lemma {:induction false} TrimStartIs(t: Text) returns (a: nat)
    ensures Blank(t, 0, a) && TrimStart(t) == t[a..]
    ensures a < |t| ==> !Space(t[a])
    decreases |t|
  {
    a := 0;
    if t != [] && Space(t[0]) {
      var rest := TrimStartIs(t[1..]);
      a := rest + 1;
      assert forall i :: 0 < i < a ==> t[i] == t[1..][i - 1];
    }
  }

  lemma {:induction false} TrimEndIs(t: Text) returns (b: nat)
    ensures b <= |t| && Blank(t, b, |t|) && TrimEnd(t) == t[..b]
    ensures b > 0 ==> !Space(t[b - 1])
    decreases |t|
  {
    b := |t|;
    if t != [] && Space(t[|t| - 1]) {
      var init := t[..|t| - 1];
      b := TrimEndIs(init);
      assert forall i :: b <= i < |init| ==> t[i] == init[i];
    }
  }

  lemma TrimIs(t: Text)
    ensures Stripped(t, Trim(t))
  {
    var a := TrimStartIs(t);
    var rest := t[a..];
    var b := TrimEndIs(rest);
    assert forall i :: b <= i < |rest| ==> rest[i] == t[a + i];
    assert Between(t, a, a + b, Trim(t));
  }

  lemma PeriodIs(header: Text)
    ensures var trimmed := TrimEnd(header); Closed(header) <==> trimmed != [] && trimmed[|trimmed| - 1] == DOT
  {
    var b := TrimEndIs(header);
    assert b > 0 && header[b - 1] == DOT ==> Blank(header, b - 1 + 1, |header|);
  }

  /** There is only one text without the spaces around it. */
  lemma StrippedOnce(t: Text, x: Text, y: Text)
    requires Stripped(t, x) && Stripped(t, y)
    ensures x == y
  {
    var a: nat, b: nat :| Between(t, a, b, x);
    var c: nat, d: nat :| Between(t, c, d, y);
    assert x != [] ==> x[0] == t[a] && x[|x| - 1] == t[b - 1];
    assert y != [] ==> y[0] == t[c] && y[|y| - 1] == t[d - 1];
  }

  /** `part` is there, at `p`. */
  predicate Stands(out: Text, p: nat, part: Text) {
    p + |part| <= |out| && forall k :: 0 <= k < |part| ==> out[p + k] == part[k]
  }

  lemma AtSlice(out: Text, p: nat, part: Text)
    ensures Stands(out, p, part) ==> out[p..p + |part|] == part
  {
  }

  lemma AtParts(out: Text, p: nat, a: Text, b: Text)
    requires Stands(out, p, a + b)
    ensures Stands(out, p, a) && Stands(out, p + |a|, b)
  {
    assert forall k :: 0 <= k < |a| ==> a[k] == (a + b)[k];
    assert forall k :: 0 <= k < |b| ==> b[k] == (a + b)[|a| + k];
  }

  /** The lines are there one after the other. */
  lemma {:induction false} LinesSay(out: Text, first: nat, fragments: seq<Text>) returns (cuts: seq<nat>)
    requires Stands(out, first, Lines(fragments))
    ensures |cuts| == |fragments| + 1 && cuts[0] == first && cuts[|fragments|] == first + |Lines(fragments)|
    ensures forall i :: 0 <= i < |fragments| ==> LineAt(out, cuts, fragments, i)
    decreases |fragments|
  {
    cuts := [first];
    if fragments != [] {
      var n := |fragments| - 1;
      var before, line := Lines(fragments[..n]), Trim(fragments[n]);
      AtParts(out, first, before + line, [NEWLINE]);
      AtParts(out, first, before, line);
      var earlier := LinesSay(out, first, fragments[..n]);
      LastLine(out, first + |before|, fragments[n]);
      cuts := earlier + [first + |Lines(fragments)|];
      forall i | 0 <= i < n ensures LineAt(out, cuts, fragments, i) {
        assert LineAt(out, earlier, fragments[..n], i);
      }
    }
  }

  lemma LastLine(out: Text, p: nat, fragment: Text)
    requires Stands(out, p, Trim(fragment)) && Stands(out, p + |Trim(fragment)|, [NEWLINE])
    ensures LineIs(out, p, p + |Trim(fragment)| + 1, fragment)
  {
    AtSlice(out, p, Trim(fragment));
    TrimIs(fragment);
    assert [NEWLINE][0] == NEWLINE;
  }

  /** Everything up to the first line of the proof. */
  ghost function Front(opening: Text, kind: Kind): Text {
    opening + if kind.Definition? then [] else PROOF_LINE
  }

  lemma FrontBegins(original: Text, target: Target, out: Text)
    requires target.declaration.start <= target.declaration.end <= |original| && Opening(original, target).Ok?
    requires Stands(out, target.declaration.start, Front(Opening(original, target).value, target.kind))
    ensures ProofBegins(original, target, out, target.declaration.start + |Front(Opening(original, target).value, target.kind)|)
  {
    var start, opening := target.declaration.start, Opening(original, target).value;
    var proof: Text := if target.kind.Definition? then [] else PROOF_LINE;
    AtParts(out, start, opening, proof);
    AtSlice(out, start + |opening|, proof);
    OpeningEnds(original, target, out);
  }

  lemma OpeningEnds(original: Text, target: Target, out: Text)
    requires target.declaration.start <= target.declaration.end <= |original| && Opening(original, target).Ok?
    requires Stands(out, target.declaration.start, Opening(original, target).value)
    ensures HeaderEnds(original, target, out, target.declaration.start + |Opening(original, target).value|)
  {
    var start, opening := target.declaration.start, Opening(original, target).value;
    AtSlice(out, start, opening);
    if target.newHeader.None? {
      PeriodIs(original[start..target.header.end]);
    } else if start > 0 && original[start - 1] != NEWLINE {
      var header := target.newHeader.value + [DOT, NEWLINE];
      assert opening == [NEWLINE] + header;
      AtParts(out, start, [NEWLINE], header);
      AtSlice(out, start + 1, header);
      assert [NEWLINE][0] == NEWLINE;
    }
  }

  /** The text rendered is one that says so. */
  lemma ReplacementSays(original: Text, target: Target, fragments: seq<Text>)
    requires Replacement(original, target, fragments).Ok?
    ensures exists cuts :: Says(original, target, fragments, Replacement(original, target, fragments).value, cuts)
  {
    var start, out := target.declaration.start, Replacement(original, target, fragments).value;
    var front := Front(Opening(original, target).value, target.kind);
    var last := Terminator(target.kind) + [NEWLINE] + original[target.declaration.end..];
    assert out == original[..start] + front + Lines(fragments) + last;
    FourParts(out, original[..start], front, Lines(fragments), last);
    PartsSay(original, target, fragments, out);
  }

  lemma FourParts(out: Text, a: Text, b: Text, c: Text, d: Text)
    requires out == a + b + c + d
    ensures out[..|a|] == a && Stands(out, |a|, b) && Stands(out, |a| + |b|, c) && out[|a| + |b| + |c|..] == d
  {
    AtParts(out, 0, a + b, c);
    AtParts(out, 0, a, b);
  }

  lemma PartsSay(original: Text, target: Target, fragments: seq<Text>, out: Text)
    requires target.declaration.start <= target.declaration.end <= |original| && Opening(original, target).Ok?
    requires target.declaration.start <= |out| && out[..target.declaration.start] == original[..target.declaration.start]
    requires var start, front := target.declaration.start, Front(Opening(original, target).value, target.kind);
             && Stands(out, start, front) && Stands(out, start + |front|, Lines(fragments))
             && out[start + |front| + |Lines(fragments)|..] == Terminator(target.kind) + [NEWLINE] + original[target.declaration.end..]
    ensures exists cuts :: Says(original, target, fragments, out, cuts)
  {
    FrontBegins(original, target, out);
    var cuts := LinesSay(out, target.declaration.start + |Front(Opening(original, target).value, target.kind)|, fragments);
    assert Says(original, target, fragments, out, cuts);
  }

  /** And there is only one such text. */
  lemma SaysOnce(original: Text, target: Target, fragments: seq<Text>, a: Text, b: Text, as_: seq<nat>, bs: seq<nat>)
    requires Says(original, target, fragments, a, as_) && Says(original, target, fragments, b, bs)
    ensures a == b
  {
    var start, n := target.declaration.start, |fragments|;
    assert a[..start] == b[..start];
    SameFront(original, target, a, b, as_[0], bs[0]);
    SameLines(fragments, a, b, as_, bs, n);
    assert a == a[..as_[n]] + a[as_[n]..] && b == b[..bs[n]] + b[bs[n]..];
  }

  lemma SameFront(original: Text, target: Target, a: Text, b: Text, p: nat, q: nat)
    requires target.declaration.start <= |original| && target.declaration.start <= |a| && target.declaration.start <= |b|
    requires a[..target.declaration.start] == b[..target.declaration.start]
    requires ProofBegins(original, target, a, p) && ProofBegins(original, target, b, q)
    ensures p == q <= |a| && q <= |b| && a[..p] == b[..q]
  {
    var start := target.declaration.start;
    var middle := p - if target.kind.Definition? then 0 else |PROOF_LINE|;
    var from := if target.newHeader.Some? && start > 0 && original[start - 1] != NEWLINE then start + 1 else start;
    assert p == q && a[middle..p] == b[middle..p];
    SamePieces(a, b, start, from, middle, p);
  }

  /** Texts that agree piece by piece agree. */
  lemma SamePieces(a: Text, b: Text, start: nat, from: nat, middle: nat, p: nat)
    requires start <= from <= middle <= p <= |a| && p <= |b| && from <= start + 1
    requires a[..start] == b[..start] && (start < from ==> a[start] == b[start])
    requires a[from..middle] == b[from..middle] && a[middle..p] == b[middle..p]
    ensures a[..p] == b[..p]
  {
    forall k | 0 <= k < p ensures a[k] == b[k] {
      if k < start {
        assert a[..start][k] == b[..start][k];
      } else if from <= k < middle {
        assert a[from..middle][k - from] == b[from..middle][k - from];
      } else if k >= middle {
        assert a[middle..p][k - middle] == b[middle..p][k - middle];
      }
    }
  }

  lemma {:induction false} SameLines(fragments: seq<Text>, a: Text, b: Text, as_: seq<nat>, bs: seq<nat>, n: nat)
    requires n <= |fragments| && |as_| == |bs| == |fragments| + 1
    requires as_[0] == bs[0] <= |a| && bs[0] <= |b| && a[..as_[0]] == b[..bs[0]]
    requires forall i :: 0 <= i < |fragments| ==> LineAt(a, as_, fragments, i)
    requires forall i :: 0 <= i < |fragments| ==> LineAt(b, bs, fragments, i)
    ensures as_[n] == bs[n] <= |a| && bs[n] <= |b| && a[..as_[n]] == b[..bs[n]]
    decreases n
  {
    if n > 0 {
      SameLines(fragments, a, b, as_, bs, n - 1);
      var p, q, r := as_[n - 1], as_[n], bs[n];
      assert LineAt(a, as_, fragments, n - 1) && LineAt(b, bs, fragments, n - 1);
      StrippedOnce(fragments[n - 1], a[p..q - 1], b[p..r - 1]);
      assert a[..q] == a[..p] + a[p..q - 1] + [NEWLINE] && b[..r] == b[..p] + b[p..r - 1] + [NEWLINE];
    }
  }

  /** Which ranges and which header allow a replacement at all. */
  predicate Renders(original: Text, target: Target) {
    && RangesFit(original, target)
    && (target.newHeader.None? ==> Valid(original[target.declaration.start..target.header.end]))
  }

  predicate RangesFit(original: Text, target: Target) {
    && target.declaration.start <= target.declaration.end <= |original|
    && (target.newHeader.None? ==> target.declaration.start <= target.header.end <= target.declaration.end)
  }

  /**
   * Grow the body, then the output, the way the program does. It fails exactly when the ranges do not fit
   * the source or the header is not UTF-8, and otherwise gives the one text that `Says` describes.
   */
  method Render(original: Text, target: Target, fragments: seq<Text>) returns (r: Result<Text, ErrorKind>)
    ensures r == Replacement(original, target, fragments)
    ensures r.Ok? <==> Renders(original, target)
    ensures r.Err? ==> r.error == if RangesFit(original, target) then InvalidConfiguration else DeclarationChanged
    ensures r.Ok? ==> exists cuts :: Says(original, target, fragments, r.value, cuts)
  {
    var range := target.declaration;
    if range.start > range.end || range.end > |original| { return Err(DeclarationChanged); }
    var opening := Opening(original, target);
    if opening.Err? { return Err(opening.error); }
    var body := opening.value;
    if !target.kind.Definition? { body := body + PROOF_LINE; }
    ghost var head := body;
    assert head + Lines([]) == body;
    for i := 0 to |fragments|
      invariant body == head + Lines(fragments[..i])
    {
      assert fragments[..i + 1][..i] == fragments[..i];
      assert body + Trim(fragments[i]) + [NEWLINE] == head + Lines(fragments[..i + 1]);
      body := body + Trim(fragments[i]) + [NEWLINE];
    }
    assert fragments[..|fragments|] == fragments;
    body := body + Terminator(target.kind);
    body := body + [NEWLINE];
    assert body == Rendered(opening.value, target.kind, fragments);
    r := Ok(original[..range.start] + body + original[range.end..]);
    ReplacementSays(original, target, fragments);
  }

  /** Publication changes the file only inside the target's own range. */
  lemma ReplacementIsLocal(original: Text, target: Target, fragments: seq<Text>)
    requires Replacement(original, target, fragments).Ok?
    ensures exists body :: target.declaration.start <= target.declaration.end <= |original|
                           && Replacement(original, target, fragments).value == Splice(original, target.declaration, body)
  {
    var body := Rendered(Opening(original, target).value, target.kind, fragments);
    assert Replacement(original, target, fragments).value == Splice(original, target.declaration, body);
  }

  /**
   * What a publication does to the rest of the file: everything before the target's range stays,
   * everything after it moves by one amount, and for an existing declaration every other record of
   * the report it was opened from is on one of the two sides.
   */
  ghost predicate Harmless(rocq: Rocq, t: Target, out: Text) {
    && (forall row: Range :: row.start <= row.end <= |t.source| ==> Spared(t.source, out, t.declaration, row))
    && (t.newHeader.None? ==> exists env, i: nat :: RowOf(rocq, env, t, i) && OthersApart(rocq.rows(env, t.source), i))
  }

  ghost predicate OthersApart(rows: seq<Row>, i: nat) {
    i < |rows| && forall j :: 0 <= j < |rows| && j != i ==> Apart(rows[j].declaration, rows[i].declaration)
  }

  lemma PublicationKeepsOtherDeclarations(rocq: Rocq, t: Target, fragments: seq<Text>)
    requires Publishable(rocq, t) && Replacement(t.source, t, fragments).Ok?
    ensures Harmless(rocq, t, Replacement(t.source, t, fragments).value)
  {
    var out := Replacement(t.source, t, fragments).value;
    var body := Rendered(Opening(t.source, t).value, t.kind, fragments);
    forall row: Range | row.start <= row.end <= |t.source| ensures Spared(t.source, out, t.declaration, row) {
      OutsideIsKept(t.source, t.declaration, body, row);
    }
    if t.newHeader.None? {
      var env, i: nat :| RowOf(rocq, env, t, i);
      var rows := rocq.rows(env, t.source);
      forall j | 0 <= j < |rows| && j != i ensures Apart(rows[j].declaration, rows[i].declaration) {
        OtherDeclarationsAreKept(t.source, rows, i, j, body);
      }
      assert RowOf(rocq, env, t, i) && OthersApart(rows, i);
    }
  }

  /** A publishable target's ranges never fail; only a header that is not UTF-8 does. */
  lemma RenderingErrors(rocq: Rocq, t: Target, fragments: seq<Text>)
    requires Publishable(rocq, t)
    ensures Replacement(t.source, t, fragments).Err? ==> Replacement(t.source, t, fragments).error == InvalidConfiguration
    ensures t.newHeader.Some? ==> Replacement(t.source, t, fragments).Ok?
  {
  }
}
