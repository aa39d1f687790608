// Reading a completion request's body in the chunked transfer coding of section 7.1 of RFC 9112: the
// encoding, and the decoder over a byte stream.
module ChunkedBody {
  import opened Basics

  newtype byte = x: int | 0 <= x < 256

  const LF: byte := 10
  const CRLF: seq<byte> := [13, 10]
  const SEMICOLON: byte := 59
  const UNDERSCORE: byte := 95
  const LINE_LIMIT: nat := 1024

  // ---------------------------------------------------------------- numerals as the decoder reads them

  predicate IsSpace(b: byte) {
    b == 32 || 9 <= b <= 13
  }

  function Strip(s: seq<byte>): seq<byte> {
    if s != [] && IsSpace(s[0]) then Strip(s[1..])
    else if s != [] && IsSpace(s[|s| - 1]) then Strip(s[..|s| - 1])
    else s
  }

  predicate IsHex(b: byte) {
    48 <= b <= 57 || 65 <= b <= 70 || 97 <= b <= 102
  }

  function HexDigit(b: byte): nat
    requires IsHex(b)
  {
    if b <= 57 then (b - 48) as nat else if b <= 70 then (b - 55) as nat else (b - 87) as nat
  }

  /** Hexadecimal digits, single underscores allowed between them. */
  function Digits(s: seq<byte>): Option<nat> {
    if s == [] || !IsHex(s[|s| - 1]) then None
    else if |s| == 1 then Some(HexDigit(s[0]))
    else
      var init := if s[|s| - 2] == UNDERSCORE then s[..|s| - 2] else s[..|s| - 1];
      match Digits(init)
      case None => None
      case Some(v) => Some(16 * v + HexDigit(s[|s| - 1]))
  }

  /** `int(text, 16)`: a sign, a `0x` prefix with an underscore after it, then digits. */
  function ParseHex(text: seq<byte>): Option<int> {
    var s := Strip(text);
    var negative := s != [] && s[0] == 45;
    var unsigned := if s != [] && (s[0] == 43 || s[0] == 45) then s[1..] else s;
    var prefixed := |unsigned| >= 2 && unsigned[0] == 48 && (unsigned[1] == 120 || unsigned[1] == 88);
    var digits := if !prefixed then unsigned
                  else if |unsigned| > 2 && unsigned[2] == UNDERSCORE then unsigned[3..] else unsigned[2..];
    match Digits(digits)
    case None => None
    case Some(magnitude) =>
      var v: int := magnitude;
      Some(if negative then -v else v)
  }

  /** What precedes the first semicolon. */
  function BeforeSemicolon(s: seq<byte>): seq<byte> {
    if s == [] || s[0] == SEMICOLON then [] else [s[0]] + BeforeSemicolon(s[1..])
  }

  // ---------------------------------------------------------------- the stream

  /** How long the next line is: up to its line feed, at most `limit` bytes. */
  function LineLength(input: seq<byte>, limit: nat): (n: nat)
    ensures n <= |input| && n <= limit && (input != [] && limit > 0 ==> n > 0)
  {
    if input == [] || limit == 0 then 0
    else if input[0] == LF then 1
    else 1 + LineLength(input[1..], limit - 1)
  }

  function Line(input: seq<byte>): seq<byte> {
    input[..LineLength(input, LINE_LIMIT)]
  }

  function AfterLine(input: seq<byte>): seq<byte> {
    input[LineLength(input, LINE_LIMIT)..]
  }

  predicate EndsTrailers(line: seq<byte>) {
    line == CRLF || line == [LF] || line == []
  }

  function AfterTrailers(input: seq<byte>): seq<byte>
    decreases |input|
  {
    if EndsTrailers(Line(input)) then AfterLine(input) else AfterTrailers(AfterLine(input))
  }

  /** `Raised` stands for the error a stream raises when asked for fewer than minus one bytes. */
  datatype Outcome = Body(bytes: seq<byte>) | Malformed | TooLarge | Raised

  datatype Decoded = Decoded(outcome: Outcome, rest: seq<byte>)

  /** A chunk of this size at the head of the input, if it is there with its terminator; minus one asks for
      everything, which is never a chunk. */
  function ChunkOf(input: seq<byte>, size: int): (chunk: Option<seq<byte>>)
    requires size >= -1
    ensures chunk.Some? ==> |chunk.value| == size
  {
    if 0 <= size && size + 2 <= |input| && input[size..size + 2] == CRLF then Some(input[..size]) else None
  }

  function AfterChunk(input: seq<byte>, size: int): (rest: seq<byte>)
    requires size >= -1
    ensures |rest| <= |input|
  {
    if 0 <= size && size + 2 <= |input| then input[size + 2..] else []
  }

  /** The decoder as a function of the input still to come and the body collected so far. */
  function Decode(input: seq<byte>, body: seq<byte>, maxBytes: int): Decoded
    decreases |input|
  {
    var rest := AfterLine(input);
    if input == [] then Decoded(Malformed, [])
    else
      match ParseHex(BeforeSemicolon(Line(input)))
      case None => Decoded(Malformed, rest)
      case Some(size) =>
        if size == 0 then Decoded(Body(body), AfterTrailers(rest))
        else if |body| + size > maxBytes then Decoded(TooLarge, rest)
        else if size < -1 then Decoded(Raised, rest)
        else
          match ChunkOf(rest, size)
          case None => Decoded(Malformed, AfterChunk(rest, size))
          case Some(chunk) => Decode(AfterChunk(rest, size), body + chunk, maxBytes)
  }

  /** Whatever arrives, an accepted body stays within the limit. */
  lemma {:induction false} BodyWithinLimit(input: seq<byte>, body: seq<byte>, maxBytes: int)
    requires |body| <= maxBytes
    ensures var outcome := Decode(input, body, maxBytes).outcome;
            outcome.Body? ==> body <= outcome.bytes && |outcome.bytes| <= maxBytes
    decreases |input|
  {
    if input != [] && ParseHex(BeforeSemicolon(Line(input))).Some? {
      var rest, size := AfterLine(input), ParseHex(BeforeSemicolon(Line(input))).value;
      if size >= -1 && |body| + size <= maxBytes && ChunkOf(rest, size).Some? {
        BodyWithinLimit(AfterChunk(rest, size), body + ChunkOf(rest, size).value, maxBytes);
      }
    }
  }

  // ---------------------------------------------------------------- the encoding

  /** One chunk of section 7.1: its size in hexadecimal, an optional extension, its data. */
  datatype Chunk = Chunk(digits: seq<byte>, extension: seq<byte>, data: seq<byte>)

  datatype Message = Message(chunks: seq<Chunk>, zeros: seq<byte>, lastExtension: seq<byte>, trailers: seq<seq<byte>>)

  function HexValue(digits: seq<byte>): nat
    requires forall b :: b in digits ==> IsHex(b)
  {
    if digits == [] then 0 else 16 * HexValue(digits[..|digits| - 1]) + HexDigit(digits[|digits| - 1])
  }

  /** An extension is absent, or white space and a semicolon followed by anything but a line feed. */
  predicate ValidExtension(extension: seq<byte>) {
    && LF !in extension
    && (extension == [] || exists n :: 0 <= n < |extension| && extension[n] == SEMICOLON && forall i :: 0 <= i < n ==>
       IsSpace(extension[i]))
  }

  predicate ValidSizeLine(digits: seq<byte>, extension: seq<byte>) {
    && digits != [] && (forall b :: b in digits ==> IsHex(b)) && ValidExtension(extension)
    && |digits| + |extension| + 2 <= LINE_LIMIT
  }

  predicate ValidChunk(c: Chunk) {
    ValidSizeLine(c.digits, c.extension) && HexValue(c.digits) == |c.data| > 0
  }

  predicate ValidMessage(m: Message) {
    && (forall c :: c in m.chunks ==> ValidChunk(c))
    && ValidSizeLine(m.zeros, m.lastExtension) && HexValue(m.zeros) == 0
    && forall t :: t in m.trailers ==> t != [] && LF !in t && |t| + 2 <= LINE_LIMIT
  }

  function EncodeChunks(chunks: seq<Chunk>): seq<byte> {
    if chunks == [] then []
    else chunks[0].digits + chunks[0].extension + CRLF + (chunks[0].data + CRLF + EncodeChunks(chunks[1..]))
  }

  function EncodeTrailers(trailers: seq<seq<byte>>): seq<byte> {
    if trailers == [] then CRLF else trailers[0] + CRLF + EncodeTrailers(trailers[1..])
  }

  function Encode(m: Message): seq<byte> {
    EncodeChunks(m.chunks) + (m.zeros + m.lastExtension + CRLF + EncodeTrailers(m.trailers))
  }

  function Payload(chunks: seq<Chunk>): seq<byte> {
    if chunks == [] then [] else chunks[0].data + Payload(chunks[1..])
  }

  // ---------------------------------------------------------------- lines come back

  lemma {:induction false} LineEndsAtFeed(text: seq<byte>, rest: seq<byte>, limit: nat)
    requires LF !in text && |text| < limit
    ensures LineLength(text + [LF] + rest, limit) == |text| + 1
  {
    var input := text + [LF] + rest;
    if text == [] {
      assert input[0] == LF;
    } else {
      assert input[0] == text[0] && text[0] in text;
      assert input[1..] == text[1..] + [LF] + rest;
      LineEndsAtFeed(text[1..], rest, limit - 1);
    }
  }

  lemma LineBack(text: seq<byte>, rest: seq<byte>)
    requires LF !in text && |text| + 2 <= LINE_LIMIT
    ensures Line(text + CRLF + rest) == text + CRLF && AfterLine(text + CRLF + rest) == rest
  {
    var t := text + [13];
    assert text + CRLF + rest == t + [LF] + rest;
    LineEndsAtFeed(t, rest, LINE_LIMIT);
  }

  lemma {:induction false} TrailersBack(trailers: seq<seq<byte>>, rest: seq<byte>)
    requires forall t :: t in trailers ==> t != [] && LF !in t && |t| + 2 <= LINE_LIMIT
    ensures AfterTrailers(EncodeTrailers(trailers) + rest) == rest
  {
    if trailers == [] {
      assert CRLF + rest == [] + CRLF + rest;
      LineBack([], rest);
    } else {
      var t, more := trailers[0], EncodeTrailers(trailers[1..]) + rest;
      assert t in trailers;
      assert EncodeTrailers(trailers) + rest == t + CRLF + more;
      LineBack(t, more);
      assert |t + CRLF| > 2;
      TrailersBack(trailers[1..], rest);
    }
  }

  // ---------------------------------------------------------------- sizes come back

  lemma {:induction false} BeforeSemicolonWithin(a: seq<byte>, b: seq<byte>)
    requires SEMICOLON !in a
    ensures BeforeSemicolon(a + b) == a + BeforeSemicolon(b)
  {
    if a == [] {
      assert a + b == b;
    } else {
      assert (a + b)[1..] == a[1..] + b;
      BeforeSemicolonWithin(a[1..], b);
    }
  }

  lemma {:induction false} StripTrailing(s: seq<byte>, spaces: seq<byte>)
    requires s != [] && !IsSpace(s[0]) && !IsSpace(s[|s| - 1]) && forall b :: b in spaces ==> IsSpace(b)
    ensures Strip(s + spaces) == s
  {
    if spaces == [] {
      assert s + spaces == s;
    } else {
      var t := s + spaces;
      assert t[0] == s[0] && t[|t| - 1] == spaces[|spaces| - 1];
      assert t[..|t| - 1] == s + spaces[..|spaces| - 1];
      StripTrailing(s, spaces[..|spaces| - 1]);
    }
  }

  lemma {:induction false} DigitsBack(digits: seq<byte>)
    requires digits != [] && forall b :: b in digits ==> IsHex(b)
    ensures Digits(digits) == Some(HexValue(digits))
  {
    var n := |digits| - 1;
    assert digits[n] in digits;
    if n > 0 {
      assert digits[n - 1] in digits;
      DigitsBack(digits[..n]);
    } else {
      assert digits[..0] == [];
    }
  }

  lemma SizeBack(digits: seq<byte>, extension: seq<byte>)
    requires ValidSizeLine(digits, extension)
    ensures ParseHex(BeforeSemicolon(digits + extension + CRLF)) == Some(HexValue(digits))
  {
    forall b | b in digits
      ensures b != SEMICOLON && !IsSpace(b) && b != 43 && b != 45 && b != 120 && b != 88
    {
      assert IsHex(b);
    }
    var spaces := BeforeSemicolon(extension + CRLF);
    assert digits + extension + CRLF == digits + (extension + CRLF);
    BeforeSemicolonWithin(digits, extension + CRLF);
    SpacesBefore(extension);
    assert digits[0] in digits && digits[|digits| - 1] in digits;
    StripTrailing(digits, spaces);
    assert |digits| >= 2 ==> digits[1] in digits;
    DigitsBack(digits);
  }

  lemma SpacesBefore(extension: seq<byte>)
    requires ValidExtension(extension)
    ensures forall b :: b in BeforeSemicolon(extension + CRLF) ==> IsSpace(b)
  {
    if extension == [] {
      assert extension + CRLF == CRLF + [];
      BeforeSemicolonWithin(CRLF, []);
    } else {
      var n :| 0 <= n < |extension| && extension[n] == SEMICOLON && forall i :: 0 <= i < n ==> IsSpace(extension[i]);
      var spaces, tail := extension[..n], extension[n..] + CRLF;
      assert extension + CRLF == spaces + tail && tail[0] == SEMICOLON;
      BeforeSemicolonWithin(spaces, tail);
    }
  }

  // ---------------------------------------------------------------- the round trip

  lemma DecodeOneChunk(c: Chunk, rest: seq<byte>, body: seq<byte>, maxBytes: int)
    requires ValidChunk(c)
    ensures var input := c.digits + c.extension + CRLF + (c.data + CRLF + rest);
            if |body| + |c.data| > maxBytes then Decode(input, body, maxBytes).outcome == TooLarge
            else |rest| < |input| && Decode(input, body, maxBytes) == Decode(rest, body + c.data, maxBytes)
  {
    var after := c.data + CRLF + rest;
    var input := c.digits + c.extension + CRLF + after;
    HexIsNotFeed(c.digits);
    LineBack(c.digits + c.extension, after);
    SizeBack(c.digits, c.extension);
    var n := |c.data|;
    assert after[..n] == c.data && after[n..n + 2] == CRLF && after[n + 2..] == rest;
  }

  lemma HexIsNotFeed(digits: seq<byte>)
    requires forall b :: b in digits ==> IsHex(b)
    ensures LF !in digits
  {
  }

  lemma DecodeLast(m: Message, rest: seq<byte>, body: seq<byte>, maxBytes: int)
    requires ValidMessage(m)
    ensures Decode(m.zeros + m.lastExtension + CRLF + EncodeTrailers(m.trailers) + rest, body, maxBytes)
              == Decoded(Body(body), rest)
  {
    var after := EncodeTrailers(m.trailers) + rest;
    assert m.zeros + m.lastExtension + CRLF + EncodeTrailers(m.trailers) + rest
        == m.zeros + m.lastExtension + CRLF + after;
    HexIsNotFeed(m.zeros);
    LineBack(m.zeros + m.lastExtension, after);
    SizeBack(m.zeros, m.lastExtension);
    TrailersBack(m.trailers, rest);
  }

  lemma ChunkFirst(chunks: seq<Chunk>, rest: seq<byte>)
    requires chunks != []
    ensures var c := chunks[0];
            EncodeChunks(chunks) + rest
                == c.digits + c.extension + CRLF + (c.data + CRLF + (EncodeChunks(chunks[1..]) + rest))
  {
  }

  lemma DecodePayload(body: seq<byte>, chunks: seq<Chunk>)
    requires chunks != []
    ensures body + chunks[0].data + Payload(chunks[1..]) == body + Payload(chunks)
  {
  }

  lemma {:induction false} DecodeChunks(chunks: seq<Chunk>, rest: seq<byte>, body: seq<byte>, maxBytes: int)
    requires (forall c :: c in chunks ==> ValidChunk(c)) && |body| <= maxBytes
    ensures var input := EncodeChunks(chunks) + rest;
            if |body| + |Payload(chunks)| > maxBytes then Decode(input, body, maxBytes).outcome == TooLarge
            else Decode(input, body, maxBytes) == Decode(rest, body + Payload(chunks), maxBytes)
  {
    if chunks == [] {
      assert EncodeChunks(chunks) + rest == rest && body + Payload(chunks) == body;
    } else {
      ChunkFirst(chunks, rest);
      DecodeOneChunk(chunks[0], EncodeChunks(chunks[1..]) + rest, body, maxBytes);
      DecodePayload(body, chunks);
      if |body| + |chunks[0].data| <= maxBytes {
        DecodeChunks(chunks[1..], rest, body + chunks[0].data, maxBytes);
      }
    }
  }

  /** Decoding an encoded message yields its payload and stops right behind it, or reports that the payload
      is too large, exactly when it is. */
  lemma DecodeEncode(m: Message, rest: seq<byte>, maxBytes: nat)
    requires ValidMessage(m)
    ensures if |Payload(m.chunks)| > maxBytes then Decode(Encode(m) + rest, [], maxBytes).outcome == TooLarge
            else Decode(Encode(m) + rest, [], maxBytes) == Decoded(Body(Payload(m.chunks)), rest)
  {
    var last := m.zeros + m.lastExtension + CRLF + EncodeTrailers(m.trailers);
    assert Encode(m) + rest == EncodeChunks(m.chunks) + (last + rest);
    DecodeChunks(m.chunks, last + rest, [], maxBytes);
    DecodeLast(m, rest, Payload(m.chunks), maxBytes);
    assert [] + Payload(m.chunks) == Payload(m.chunks);
  }

  // ---------------------------------------------------------------- the reader

  class Stream {
    var rest: seq<byte>

    constructor (input: seq<byte>)
      ensures rest == input
    {
      rest := input;
    }

    /** `readline(limit)`. */
    method ReadLine(limit: nat) returns (line: seq<byte>)
      modifies this
      ensures line == old(rest)[..LineLength(old(rest), limit)] && rest == old(rest)[LineLength(old(rest), limit)..]
    {
      var n := 0;
      while n < |rest| && n < limit && (n == 0 || rest[n - 1] != LF)
        invariant n <= |rest| && n <= limit
        invariant n > 0 && rest[n - 1] == LF ==> LineLength(rest, limit) == n
        invariant n == 0 || rest[n - 1] != LF ==> LineLength(rest, limit) == n + LineLength(rest[n..], limit - n)
      {
        assert rest[n..][1..] == rest[n + 1..];
        n := n + 1;
      }
      line, rest := rest[..n], rest[n..];
    }

    /** `read(size)`: all that is left for minus one, at most `size` bytes otherwise. */
    method Read(size: int) returns (bytes: seq<byte>)
      requires size >= -1
      modifies this
      ensures var n := if size == -1 || size > |old(rest)| then |old(rest)| else size;
              bytes == old(rest)[..n] && rest == old(rest)[n..]
    {
      var n := if size == -1 || size > |rest| then |rest| else size;
      bytes, rest := rest[..n], rest[n..];
    }

    /** A chunk's data and the terminator behind it. */
    method ReadChunk(size: int) returns (chunk: Option<seq<byte>>)
      requires size >= -1
      modifies this
      ensures chunk == ChunkOf(old(rest), size) && rest == AfterChunk(old(rest), size)
    {
      var bytes := Read(size);
      if |bytes| != size {
        return None;
      }
      var crlf := Read(2);
      chunk := if crlf == CRLF then Some(bytes) else None;
    }

    /** `_read_chunked_body`. */
    method ReadChunkedBody(maxBytes: int) returns (outcome: Outcome)
      modifies this
      ensures Decoded(outcome, rest) == Decode(old(rest), [], maxBytes)
    {
      var body: seq<byte> := [];
      ghost var input := rest;
      while true
        invariant Decode(rest, body, maxBytes) == Decode(input, [], maxBytes)
        decreases |rest|
      {
        var sizeLine := ReadLine(LINE_LIMIT);
        if sizeLine == [] {
          return Malformed;
        }
        var size := ParseHex(BeforeSemicolon(sizeLine));
        if size.None? {
          return Malformed;
        }
        if size.value == 0 {
          ReadTrailers();
          return Body(body);
        }
        if |body| + size.value > maxBytes {
          return TooLarge;
        }
        if size.value < -1 {
          return Raised;
        }
        var chunk := ReadChunk(size.value);
        if chunk.None? {
          return Malformed;
        }
        body := body + chunk.value;
      }
    }

    method ReadTrailers()
      modifies this
      ensures rest == AfterTrailers(old(rest))
    {
      ghost var input := rest;
      while true
        invariant AfterTrailers(rest) == AfterTrailers(input)
        decreases |rest|
      {
        var line := ReadLine(LINE_LIMIT);
        if EndsTrailers(line) {
          return;
        }
      }
    }
  }
}
