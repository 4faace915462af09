/**
 * How the Tor update relay frames a package body, either by the announced
 * length or in chunked coding (section 7.1 of RFC 9112), and how the chunk
 * reader of the end-to-end gateway takes chunks apart again.
 */
module RelayFraming {
  import opened Common

  // ----- Hexadecimal sizes

  /** An upper-case hexadecimal digit. */
  function HexDigit(d: nat): Byte
    requires d < 16
  {
    if d < 10 then '0' as int + d else 'A' as int + (d - 10)
  }

  /** `{:X}`. */
  function Hex(n: nat): (r: Bytes)
    ensures |r| > 0
  {
    if n < 16 then [HexDigit(n)] else Hex(n / 16) + [HexDigit(n % 16)]
  }

  function DigitValue(b: Byte): Option<nat> {
    if '0' as int <= b <= '9' as int then Some(b - '0' as int)
    else if 'A' as int <= b <= 'F' as int then Some(b - 'A' as int + 10)
    else if 'a' as int <= b <= 'f' as int then Some(b - 'a' as int + 10)
    else None
  }

  const UNDERSCORE: Byte := '_' as int
  const CR: Byte := '\r' as int
  const LF: Byte := '\n' as int
  const CRLF: Bytes := [CR, LF]

  /** Hexadecimal digits, with single underscores between digits. */
  predicate DigitsOk(s: Bytes) {
    && s != [] && DigitValue(s[0]).Some? && DigitValue(s[|s| - 1]).Some?
    && (forall i :: 0 <= i < |s| ==> DigitValue(s[i]).Some? || s[i] == UNDERSCORE)
    && (forall i :: 0 <= i < |s| - 1 ==> !(s[i] == UNDERSCORE && s[i + 1] == UNDERSCORE))
  }

  function DigitsValue(s: Bytes): nat {
    if s == [] then 0
    else
      var rest := DigitsValue(s[..|s| - 1]);
      match DigitValue(s[|s| - 1])
      case None => rest
      case Some(d) => rest * 16 + d
  }

  predicate IsSpace(b: Byte) {
    b == ' ' as int || b == '\t' as int || b == LF || b == CR || b == 11 || b == 12
  }

  function StripLeft(s: Bytes): Bytes {
    if s != [] && IsSpace(s[0]) then StripLeft(s[1..]) else s
  }

  function StripRight(s: Bytes): Bytes {
    if s != [] && IsSpace(s[|s| - 1]) then StripRight(s[..|s| - 1]) else s
  }

  predicate HasPrefix16(s: Bytes) {
    |s| >= 2 && s[0] == '0' as int && (s[1] == 'x' as int || s[1] == 'X' as int)
  }

  /** `int(s.strip(), 16)`: a sign, a `0x` prefix with one underscore behind it, and digits. */
  function PyInt16(s: Bytes): Option<int> {
    var t := StripRight(StripLeft(s));
    var negative := t != [] && t[0] == '-' as int;
    var t := if t != [] && (t[0] == '-' as int || t[0] == '+' as int) then t[1..] else t;
    var t := if !HasPrefix16(t) then t
             else if |t| > 2 && t[2] == UNDERSCORE then t[3..]
             else t[2..];
    var value: int := DigitsValue(t);
    if DigitsOk(t) then Some(if negative then -value else value) else None
  }

  lemma {:induction false} HexDigits(n: nat)
    ensures forall i :: 0 <= i < |Hex(n)| ==> DigitValue(Hex(n)[i]).Some? && Hex(n)[i] < 'G' as int
    ensures DigitsValue(Hex(n)) == n
  {
    if n >= 16 {
      HexDigits(n / 16);
      var h := Hex(n);
      assert h[..|h| - 1] == Hex(n / 16);
      assert forall i :: 0 <= i < |h| - 1 ==> h[i] == Hex(n / 16)[i];
    } else {
      assert Hex(n)[..0] == [];
    }
  }

  lemma StripKeeps(s: Bytes)
    requires s != [] && !IsSpace(s[0]) && !IsSpace(s[|s| - 1])
    ensures StripRight(StripLeft(s + CRLF)) == s
  {
    assert StripLeft(s + CRLF) == s + CRLF;
    var once := s + [CR];
    assert (s + CRLF)[..|s| + 1] == once && once[..|s|] == s;
    assert StripRight(s + CRLF) == StripRight(once) == StripRight(s) == s;
  }

  lemma DigitIsPlain(b: Byte)
    requires DigitValue(b).Some?
    ensures !IsSpace(b) && b != UNDERSCORE && b != '-' as int && b != '+' as int && b != SEMICOLON && b != LF
  {
  }

  /** The reader's idea of a number agrees with the writer's. */
  lemma HexRoundTrip(n: nat)
    ensures PyInt16(Hex(n) + CRLF) == Some(n)
  {
    var h := Hex(n);
    HexDigits(n);
    DigitIsPlain(h[0]);
    DigitIsPlain(h[|h| - 1]);
    StripKeeps(h);
    assert !HasPrefix16(h);
    assert forall i :: 0 <= i < |h| ==> h[i] != UNDERSCORE by {
      forall i | 0 <= i < |h|
        ensures h[i] != UNDERSCORE
      {
        DigitIsPlain(h[i]);
      }
    }
    assert DigitsOk(h);
  }

  const SEMICOLON: Byte := ';' as int

  // ----- The chunk writer

  function Chunk(data: Bytes): Bytes {
    Hex(|data|) + CRLF + data + CRLF
  }

  /** One chunk for each piece that is not empty. */
  function Chunks(pieces: seq<Bytes>): Bytes {
    if pieces == [] then []
    else (if pieces[0] == [] then [] else Chunk(pieces[0])) + Chunks(pieces[1..])
  }

  const TERMINATOR: Bytes := ['0' as int] + CRLF + CRLF

  function Concat(pieces: seq<Bytes>): Bytes {
    if pieces == [] then [] else pieces[0] + Concat(pieces[1..])
  }

  // ----- The chunk reader

  datatype BodyError = EofInBody | InvalidSize | TooLarge | EofInTrailers | Truncated

  /** The body, and what is left on the stream behind it. */
  datatype Body = Body(data: Bytes, rest: Bytes)

  const MAX_REQUEST_BODY := 128 * 1024 * 1024

  /** `readline`: up to and with the next line feed, or to the end. */
  function Line(input: Bytes): (r: Bytes)
    ensures r <= input
    ensures input != [] ==> r != []
  {
    if input == [] then []
    else if input[0] == LF then [LF]
    else [input[0]] + Line(input[1..])
  }

  /** `split(b";", 1)[0]`. */
  function BeforeSemicolon(s: Bytes): Bytes {
    if s == [] || s[0] == SEMICOLON then [] else [s[0]] + BeforeSemicolon(s[1..])
  }

  function ReadTrailers(input: Bytes, body: Bytes): (r: Result<Body, BodyError>)
    decreases |input|
  {
    var line := Line(input);
    if line == CRLF || line == [LF] then Ok(Body(body, input[|line|..]))
    else if line == [] then Err(EofInTrailers)
    else ReadTrailers(input[|line|..], body)
  }

  /** The chunked branch of `read_request_body`, with `body` read so far. */
  function ReadChunks(input: Bytes, body: Bytes): (r: Result<Body, BodyError>)
    decreases |input|
  {
    var line := Line(input);
    if line == [] then Err(EofInBody)
    else
      match PyInt16(BeforeSemicolon(line))
      case None => Err(InvalidSize)
      case Some(size) =>
        var rest := input[|line|..];
        if size < 0 || |body| + size > MAX_REQUEST_BODY then Err(TooLarge)
        else if size == 0 then ReadTrailers(rest, body)
        else if |rest| < size + 2 || rest[size..size + 2] != CRLF then Err(Truncated)
        else ReadChunks(rest[size + 2..], body + rest[..size])
  }

  lemma {:induction false} LineOf(s: Bytes, rest: Bytes)
    requires forall i :: 0 <= i < |s| ==> s[i] != LF
    ensures Line(s + [LF] + rest) == s + [LF]
  {
    var input := s + [LF] + rest;
    if s == [] {
      assert input[0] == LF;
    } else {
      LineOf(s[1..], rest);
      assert input[1..] == s[1..] + [LF] + rest;
      assert [s[0]] + (s[1..] + [LF]) == s + [LF];
    }
  }

  lemma {:induction false} NoSemicolon(s: Bytes)
    requires SEMICOLON !in s
    ensures BeforeSemicolon(s) == s
  {
    if s != [] {
      NoSemicolon(s[1..]);
    }
  }

  /** The size line of a chunk is read as its size. */
  lemma SizeLine(n: nat, rest: Bytes)
    ensures Line(Hex(n) + CRLF + rest) == Hex(n) + CRLF
    ensures PyInt16(BeforeSemicolon(Hex(n) + CRLF)) == Some(n)
  {
    var h := Hex(n);
    HexDigits(n);
    forall i | 0 <= i < |h|
      ensures h[i] != LF && h[i] != SEMICOLON
    {
      DigitIsPlain(h[i]);
    }
    LineOf(h + [CR], rest);
    assert h + [CR] + [LF] + rest == h + CRLF + rest && h + [CR] + [LF] == h + CRLF;
    NoSemicolon(h + CRLF);
    HexRoundTrip(n);
  }

  lemma ChunkReads(data: Bytes, rest: Bytes, body: Bytes)
    requires data != []
    ensures ReadChunks(Chunk(data) + rest, body)
            == if |body| + |data| > MAX_REQUEST_BODY then Err(TooLarge) else ReadChunks(rest, body + data)
  {
    hide PyInt16, BeforeSemicolon, Line, Hex;
    var input := Chunk(data) + rest;
    var line := Hex(|data|) + CRLF;
    var tail := data + CRLF + rest;
    assert input == line + tail;
    SizeLine(|data|, tail);
    assert input[|line|..] == tail;
    assert tail[|data|..|data| + 2] == CRLF && tail[..|data|] == data && tail[|data| + 2..] == rest;
  }

  lemma TerminatorReads(rest: Bytes, body: Bytes)
    requires |body| <= MAX_REQUEST_BODY
    ensures ReadChunks(TERMINATOR + rest, body) == Ok(Body(body, rest))
  {
    var line := ['0' as int] + CRLF;
    assert Hex(0) == ['0' as int];
    var input := TERMINATOR + rest;
    assert input == line + (CRLF + rest);
    SizeLine(0, CRLF + rest);
    assert input[|line|..] == CRLF + rest;
    LineOf([CR], rest);
    assert [CR] + [LF] + rest == CRLF + rest && [CR] + [LF] == CRLF;
    assert (CRLF + rest)[2..] == rest;
    hide PyInt16, BeforeSemicolon, Line, Hex;
    assert ReadTrailers(CRLF + rest, body) == Ok(Body(body, rest));
  }

  /**
   * The round trip: for any pieces, empty ones included, the chunked output is
   * read back as exactly their concatenation and not a byte further, if and only
   * if that stays within the reader's cap.
   */
  lemma {:induction false} ChunksRoundTrip(pieces: seq<Bytes>, rest: Bytes, body: Bytes)
    requires |body| <= MAX_REQUEST_BODY
    ensures ReadChunks(Chunks(pieces) + TERMINATOR + rest, body)
            == if |body| + |Concat(pieces)| <= MAX_REQUEST_BODY then Ok(Body(body + Concat(pieces), rest))
                else Err(TooLarge)
    decreases |pieces|
  {
    hide ReadChunks, Chunk;
    if pieces == [] {
      TerminatorReads(rest, body);
      assert Chunks(pieces) + TERMINATOR + rest == TERMINATOR + rest && body + [] == body;
    } else if pieces[0] == [] {
      ChunksRoundTrip(pieces[1..], rest, body);
      assert Chunks(pieces) == Chunks(pieces[1..]) && Concat(pieces) == Concat(pieces[1..]);
    } else {
      var more := Chunks(pieces[1..]) + TERMINATOR + rest;
      assert Chunks(pieces) + TERMINATOR + rest == Chunk(pieces[0]) + more;
      ChunkReads(pieces[0], more, body);
      if |body| + |pieces[0]| <= MAX_REQUEST_BODY {
        ChunksRoundTrip(pieces[1..], rest, body + pieces[0]);
        assert body + pieces[0] + Concat(pieces[1..]) == body + Concat(pieces);
      }
    }
  }
}
