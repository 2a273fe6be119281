/** Header-framed messages on the prover's pipes, as the Base Protocol of the Language Server Protocol lays them out. */
module Framing {
  import opened Outcomes
  import opened Sources

  const MAX_HEADER_BYTES: nat := 8192
  const MAX_RESPONSE_BYTES: nat := 8 * 1024 * 1024
  const USIZE_MAX: nat := 0xFFFF_FFFF_FFFF_FFFF

  const LF: byte := 10
  const CR: byte := 13
  const COLON: byte := 58

  /** "Content-Length" */
  const NAME: Text := [67, 111, 110, 116, 101, 110, 116, 45, 76, 101, 110, 103, 116, 104]

  type FrameResult<T> = Result<T, PetError>

  // ---------------------------------------------------------------- decimal numbers

  predicate Digit(b: byte) {
    48 <= b <= 57
  }

  function Decimal(n: nat): (t: Text)
    ensures t != [] && forall i :: 0 <= i < |t| ==> Digit(t[i])
  {
    if n < 10 then [(48 + n) as byte] else Decimal(n / 10) + [(48 + n % 10) as byte]
  }

  function Digits(t: Text): nat
    requires forall i :: 0 <= i < |t| ==> Digit(t[i])
  {
    if t == [] then 0
    else
      assert Digit(t[|t| - 1]);
      10 * Digits(t[..|t| - 1]) + (t[|t| - 1] as int - 48)
  }

  /** An optional plus sign, then at least one digit, within the machine's range. */
  function ParseUsize(t: Text): Option<nat> {
    var digits := if |t| > 1 && t[0] == 43 then t[1..] else t;
    if digits == [] || exists i :: 0 <= i < |digits| && !Digit(digits[i]) then None
    else if Digits(digits) > USIZE_MAX then None
    else Some(Digits(digits))
  }

  lemma {:induction false} DigitsOfDecimal(n: nat)
    ensures Digits(Decimal(n)) == n
  {
    if n >= 10 {
      DigitsOfDecimal(n / 10);
      assert Decimal(n)[..|Decimal(n)| - 1] == Decimal(n / 10);
    } else {
      assert Decimal(n)[..0] == [];
    }
  }

  lemma {:induction false} DecimalIsShort(n: nat)
    requires n <= MAX_RESPONSE_BYTES
    ensures |Decimal(n)| <= 7
  {
    Lengths(n, 7);
  }

  lemma {:induction false} Lengths(n: nat, k: nat)
    requires k > 0 && n < Power(k)
    ensures |Decimal(n)| <= k
  {
    if n >= 10 {
      Lengths(n / 10, k - 1);
    }
  }

  function Power(k: nat): nat {
    if k == 0 then 1 else 10 * Power(k - 1)
  }

  // ---------------------------------------------------------------- writing

  function Header(n: nat): Text {
    NAME + [COLON, 32] + Decimal(n) + [CR, LF]
  }

  function WriteFrame(body: Text): Text {
    Header(|body|) + [CR, LF] + body
  }

  // ---------------------------------------------------------------- reading

  /** The first position a test accepts, or the length. */
  function IndexOf(s: Text, stop: byte -> bool): (i: nat)
    ensures i <= |s| && (forall k :: 0 <= k < i ==> !stop(s[k])) && (i < |s| ==> stop(s[i]))
  {
    if s == [] || stop(s[0]) then 0 else 1 + IndexOf(s[1..], stop)
  }

  predicate IsLineFeed(b: byte) { b == LF }

  predicate IsColon(b: byte) { b == COLON }

  predicate IsBreak(b: byte) { b == LF || b == CR }

  /** One line with its end, if it ends within the bound. */
  function Line(s: Text): FrameResult<Text> {
    var i := IndexOf(s, IsLineFeed);
    if i > MAX_HEADER_BYTES then Err(OutputOverflow)
    else if i == |s| then Err(ProcessLost)
    else Ok(s[..i + 1])
  }

  predicate Blank(line: Text) {
    line == [LF] || line == [CR, LF]
  }

  /** Lines up to the first blank one after something; blank lines before that are skipped. */
  function HeaderBlock(s: Text, header: Text): FrameResult<(Text, Text)>
    decreases |s|
  {
    match Line(s)
    case Err(e) => Err(e)
    case Ok(line) =>
      var rest := s[|line|..];
      if Blank(line) then
        if header == [] then HeaderBlock(rest, header) else Ok((header, rest))
      else if |header + line| > MAX_HEADER_BYTES then Err(OutputOverflow)
      else HeaderBlock(rest, header + line)
  }

  predicate Padding(b: byte) {
    b == 32 || b == 9
  }

  function TrimPadding(t: Text): Text {
    if t == [] then t
    else if Padding(t[0]) then TrimPadding(t[1..])
    else if Padding(t[|t| - 1]) then TrimPadding(t[..|t| - 1])
    else t
  }

  function Lower(b: byte): byte {
    if 65 <= b <= 90 then b + 32 else b
  }

  predicate SameIgnoringCase(a: Text, b: Text) {
    |a| == |b| && forall i :: 0 <= i < |a| ==> Lower(a[i]) == Lower(b[i])
  }

  /** The length one header line announces, if it is a length line at all. */
  function Announced(line: Text): Option<Option<nat>> {
    var colon := IndexOf(line, IsColon);
    if colon == |line| || !SameIgnoringCase(TrimPadding(line[..colon]), NAME) then None
    else Some(ParseUsize(TrimPadding(line[colon + 1..])))
  }

  /** What a line adds to the length known so far. */
  function Agree(line: Text, sofar: Option<nat>): FrameResult<Option<nat>> {
    match Announced(line)
    case None => Ok(sofar)
    case Some(None) => Err(Protocol)
    case Some(Some(n)) => if sofar.Some? && sofar.value != n then Err(Protocol) else Ok(Some(n))
  }

  /** The one length all lines of a header agree on. */
  function Length(header: Text, sofar: Option<nat>): FrameResult<Option<nat>>
    decreases |header|
  {
    var i := IndexOf(header, IsBreak);
    match Agree(header[..i], sofar)
    case Err(e) => Err(e)
    case Ok(now) => if i == |header| then Ok(now) else Length(header[i + 1..], now)
  }

  /** One message off the stream: its body, and what is left. */
  function Read(s: Text): FrameResult<(Text, Text)> {
    match HeaderBlock(s, [])
    case Err(e) => Err(e)
    case Ok((header, rest)) =>
      match Length(header, None)
      case Err(e) => Err(e)
      case Ok(None) => Err(Protocol)
      case Ok(Some(n)) =>
        if n > MAX_RESPONSE_BYTES then Err(OutputOverflow)
        else if n > |rest| then Err(ProcessLost)
        else Ok((rest[..n], rest[n..]))
  }

  // ---------------------------------------------------------------- the reader's loops

  method ReadLineBounded(stream: Text) returns (r: FrameResult<Text>)
    ensures r == Line(stream)
  {
    var line: Text := [];
    while true
      invariant |line| <= |stream| && |line| <= MAX_HEADER_BYTES && line == stream[..|line|]
      invariant forall k :: 0 <= k < |line| ==> stream[k] != LF
      decreases |stream| - |line|
    {
      if |line| == |stream| { return Err(ProcessLost); }
      var b := stream[|line|];
      line := line + [b];
      if b == LF {
        assert line == stream[..|line|];
        IndexIs(stream, IsLineFeed, |line| - 1);
        return Ok(line);
      }
      if |line| > MAX_HEADER_BYTES { return Err(OutputOverflow); }
    }
  }

  method ReadHeader(stream: Text) returns (r: FrameResult<(Text, Text)>)
    ensures r == HeaderBlock(stream, [])
  {
    var header: Text, rest := [], stream;
    while true
      invariant HeaderBlock(stream, []) == HeaderBlock(rest, header)
      decreases |rest|
    {
      var line := ReadLineBounded(rest);
      if line.Err? { return Err(line.error); }
      rest := rest[|line.value|..];
      if Blank(line.value) {
        if header != [] { return Ok((header, rest)); }
      } else {
        header := header + line.value;
        if |header| > MAX_HEADER_BYTES { return Err(OutputOverflow); }
      }
    }
  }

  method ReadLength(header: Text) returns (r: FrameResult<Option<nat>>)
    ensures r == Length(header, None)
  {
    var rest, known: Option<nat> := header, None;
    while true
      invariant Length(header, None) == Length(rest, known)
      decreases |rest|
    {
      var i := IndexOf(rest, IsBreak);
      match Agree(rest[..i], known)
      case Err(e) => return Err(e);
      case Ok(now) =>
        if i == |rest| { return Ok(now); }
        rest, known := rest[i + 1..], now;
    }
  }

  method ReadResponse(stream: Text) returns (r: FrameResult<(Text, Text)>)
    ensures r == Read(stream)
  {
    var block := ReadHeader(stream);
    if block.Err? { return Err(block.error); }
    var rest := block.value.1;
    var length := ReadLength(block.value.0);
    if length.Err? { return Err(length.error); }
    if length.value.None? { return Err(Protocol); }
    var n := length.value.value;
    if n > MAX_RESPONSE_BYTES { return Err(OutputOverflow); }
    if n > |rest| { return Err(ProcessLost); }
    r := Ok((rest[..n], rest[n..]));
  }

  // ---------------------------------------------------------------- the round trip

  lemma IndexIs(s: Text, stop: byte -> bool, i: nat)
    requires i < |s| && stop(s[i]) && forall k :: 0 <= k < i ==> !stop(s[k])
    ensures IndexOf(s, stop) == i
  {
  }

  lemma HeaderAnnounces(n: nat)
    requires n <= MAX_RESPONSE_BYTES
    ensures Length(Header(n), None) == Ok(Some(n))
  {
    var header, line := Header(n), NAME + [COLON, 32] + Decimal(n);
    var i := |line|;
    assert header == line + [CR, LF];
    IndexIs(header, IsBreak, i);
    assert header[..i] == line;
    IndexIs(line, IsColon, |NAME|);
    assert line[..|NAME|] == NAME && TrimPadding(NAME) == NAME;
    var value := line[|NAME| + 1..];
    assert value == [32] + Decimal(n);
    assert value[1..] == Decimal(n);
    assert TrimPadding(value) == Decimal(n);
    DigitsOfDecimal(n);
    assert ParseUsize(Decimal(n)) == Some(n);
    assert header[i + 1..] == [LF];
    EmptyLines(n);
  }

  lemma EmptyLines(n: nat)
    ensures Length([LF], Some(n)) == Ok(Some(n))
  {
    assert [LF][..0] == [] && [LF][1..] == [];
    assert Announced([]) == None;
    assert Length([], Some(n)) == Ok(Some(n));
  }

  /** The reader takes exactly one frame off any stream that starts with one. */
  lemma FrameRoundTrip(body: Text, tail: Text)
    requires |body| <= MAX_RESPONSE_BYTES
    ensures Read(WriteFrame(body) + tail) == Ok((body, tail))
  {
    var header := Header(|body|);
    HeaderShape(|body|);
    OneLineHeader(header, body + tail);
    Regroup(header, [CR, LF], body, tail);
    HeaderAnnounces(|body|);
    TakesBody(header, body, tail);
  }

  lemma HeaderShape(n: nat)
    requires n <= MAX_RESPONSE_BYTES
    ensures var header := Header(n);
            && 2 < |header| <= MAX_HEADER_BYTES && header[|header| - 1] == LF
            && forall k :: 0 <= k < |header| - 1 ==> header[k] != LF
  {
    DecimalIsShort(n);
  }

  lemma Regroup(a: Text, b: Text, c: Text, d: Text)
    ensures a + b + c + d == a + (b + (c + d))
  {
  }

  lemma TakesBody(header: Text, body: Text, tail: Text)
    requires |body| <= MAX_RESPONSE_BYTES && Length(header, None) == Ok(Some(|body|))
    requires HeaderBlock(header + ([CR, LF] + (body + tail)), []) == Ok((header, body + tail))
    ensures Read(header + ([CR, LF] + (body + tail))) == Ok((body, tail))
  {
    assert (body + tail)[..|body|] == body && (body + tail)[|body|..] == tail;
  }

  /** A header of one line, then a blank line: the block ends there. */
  lemma OneLineHeader(header: Text, rest: Text)
    requires 2 < |header| <= MAX_HEADER_BYTES && header[|header| - 1] == LF
    requires forall k :: 0 <= k < |header| - 1 ==> header[k] != LF
    ensures HeaderBlock(header + ([CR, LF] + rest), []) == Ok((header, rest))
  {
    FirstLine(header, [CR, LF] + rest);
    FirstLine([CR, LF], rest);
    assert ([CR, LF] + rest)[2..] == rest;
    assert HeaderBlock([CR, LF] + rest, header) == Ok((header, rest));
    assert (header + ([CR, LF] + rest))[|header|..] == [CR, LF] + rest && [] + header == header;
  }

  /** A text whose only line feed is its last byte is the first line of whatever starts with it. */
  lemma FirstLine(line: Text, rest: Text)
    requires 0 < |line| <= MAX_HEADER_BYTES && line[|line| - 1] == LF
    requires forall k :: 0 <= k < |line| - 1 ==> line[k] != LF
    ensures Line(line + rest) == Ok(line)
  {
    var s := line + rest;
    assert forall k :: 0 <= k < |line| ==> s[k] == line[k];
    IndexIs(s, IsLineFeed, |line| - 1);
    assert s[..|line|] == line;
  }

  function WriteAll(bodies: seq<Text>): Text {
    if bodies == [] then [] else WriteFrame(bodies[0]) + WriteAll(bodies[1..])
  }

  /** `count` messages in a row. */
  function ReadMany(s: Text, count: nat): FrameResult<(seq<Text>, Text)>
    decreases count
  {
    if count == 0 then Ok(([], s))
    else match Read(s)
      case Err(e) => Err(e)
      case Ok((body, rest)) =>
        match ReadMany(rest, count - 1)
        case Err(e) => Err(e)
        case Ok((bodies, left)) => Ok(([body] + bodies, left))
  }

  lemma OneMoreFrame(s: Text, body: Text, rest: Text, count: nat, bodies: seq<Text>, left: Text)
    requires Read(s) == Ok((body, rest)) && ReadMany(rest, count) == Ok((bodies, left))
    ensures ReadMany(s, count + 1) == Ok(([body] + bodies, left))
  {
  }

  /** Every sequence of bodies within the limit comes back in order, and nothing after it is touched. */
  lemma {:induction false} FramesRoundTrip(bodies: seq<Text>, tail: Text)
    requires forall i :: 0 <= i < |bodies| ==> |bodies[i]| <= MAX_RESPONSE_BYTES
    ensures ReadMany(WriteAll(bodies) + tail, |bodies|) == Ok((bodies, tail))
    decreases |bodies|
  {
    if bodies != [] {
      var rest := WriteAll(bodies[1..]) + tail;
      assert WriteAll(bodies) + tail == WriteFrame(bodies[0]) + rest;
      FrameRoundTrip(bodies[0], rest);
      FramesRoundTrip(bodies[1..], tail);
      OneMoreFrame(WriteFrame(bodies[0]) + rest, bodies[0], rest, |bodies| - 1, bodies[1..], tail);
      assert [bodies[0]] + bodies[1..] == bodies;
    } else {
      assert WriteAll(bodies) + tail == tail;
    }
  }
}
