/**
 * The relay writing a package body to its downstream connection, and the
 * gateway reading a chunked body from its stream, as they run.
 */
module Relay {
  import opened Common
  import opened RelayFraming

  /** A byte slice, which cannot be longer than the address space. */
  type Slice = s: Bytes | |s| < 0x8000_0000_0000_0000

  /** What arrives from upstream: data, a frame without data, or a transfer error. */
  datatype Frame = Data(bytes: Slice) | NoData | Broken

  /** The data that arrives before the transfer breaks, if it does. */
  function Pieces(frames: seq<Frame>): seq<Bytes> {
    if frames == [] || frames[0].Broken? then []
    else (if frames[0].Data? then [frames[0].bytes] else []) + Pieces(frames[1..])
  }

  predicate Breaks(frames: seq<Frame>) {
    exists i :: 0 <= i < |frames| && frames[i].Broken?
  }

  /** A downstream connection that takes `room` more bytes before it fails. */
  class Sink {
    var written: Bytes
    var room: nat
    const flushes: bool

    constructor (room: nat, flushes: bool)
      ensures written == [] && this.room == room && this.flushes == flushes
    {
      written, this.room, this.flushes := [], room, flushes;
    }

    method WriteAll(data: Bytes) returns (ok: bool)
      modifies this
      ensures ok == (|data| <= old(room))
      ensures written == old(written) + data[..Min(|data|, old(room))]
      ensures room == old(room) - Min(|data|, old(room))
    {
      if |data| <= room {
        written, room := written + data, room - |data|;
        assert data[..|data|] == data;
        return true;
      }
      written, room := written + data[..room], 0;
      return false;
    }
  }

  /** Writing two pieces in turn is writing them as one, also when the connection fails in between. */
  lemma WriteInTurn(a: Bytes, b: Bytes, room: nat)
    ensures var first := Min(|a|, room);
            |a| <= room ==> a[..first] + b[..Min(|b|, room - first)] == (a + b)[..Min(|a + b|, room)]
    ensures |a| > room ==> a[..room] == (a + b)[..Min(|a + b|, room)]
  {
  }

  method WriteChunk(sink: Sink, data: Bytes) returns (ok: bool)
    modifies sink
    ensures ok == (|Chunk(data)| <= old(sink.room))
    ensures sink.written == old(sink.written) + Chunk(data)[..Min(|Chunk(data)|, old(sink.room))]
    ensures sink.room == old(sink.room) - Min(|Chunk(data)|, old(sink.room))
  {
    var size := Hex(|data|) + CRLF;
    WriteInTurn(size, data, sink.room);
    WriteInTurn(size + data, CRLF, sink.room);
    assert Chunk(data) == size + data + CRLF;
    ok := sink.WriteAll(size);
    if ok {
      ok := sink.WriteAll(data);
    }
    if ok {
      ok := sink.WriteAll(CRLF);
    }
  }

  /** The 64-bit byte counter after some more bytes. */
  function Counted(total: U64, count: nat): U64 {
    (total + count) % TWO_64
  }

  /** `write_body_data`: refuses what would exceed the announced length before writing any of it. */
  method WriteBodyData(sink: Sink, data: Slice, expected: Option<U64>, total: U64) returns (ok: bool, counted: U64)
    modifies sink
    ensures expected.None? ==>
              && ok == (|Chunk(data)| <= old(sink.room))
              && sink.written == old(sink.written) + Chunk(data)[..Min(|Chunk(data)|, old(sink.room))]
              && sink.room == old(sink.room) - Min(|Chunk(data)|, old(sink.room))
    ensures expected.Some? && SaturatingAdd(total, |data|) > expected.value ==>
              !ok && sink.written == old(sink.written) && sink.room == old(sink.room)
    ensures expected.Some? && SaturatingAdd(total, |data|) <= expected.value ==>
              && ok == (|data| <= old(sink.room))
              && sink.written == old(sink.written) + data[..Min(|data|, old(sink.room))]
              && sink.room == old(sink.room) - Min(|data|, old(sink.room))
    ensures ok ==> counted == Counted(total, |data|)
  {
    counted := total;
    if expected.Some? {
      if SaturatingAdd(total, |data|) > expected.value {
        return false, counted;
      }
      ok := sink.WriteAll(data);
    } else {
      ok := WriteChunk(sink, data);
    }
    if ok {
      counted := Counted(total, |data|);
    }
  }

  /** The counter meets the announced length; only the largest length cannot be told from it plus 2^64. */
  predicate Meets(announced: U64, count: nat) {
    if announced < U64_MAX then count == announced else count % TWO_64 == announced
  }

  /** An announced length of 2^64 - 1 is met by a package of 2^65 - 1 bytes as well, and by no other below that. */
  lemma MeetsExactly(announced: U64, count: nat)
    requires count < 2 * TWO_64
    ensures Meets(announced, count) <==> count == announced || (announced == U64_MAX && count == U64_MAX + TWO_64)
  {
  }

  /** `finish_body`. */
  method FinishBody(sink: Sink, expected: Option<U64>, total: U64) returns (ok: bool)
    modifies sink
    ensures expected.Some? ==> ok == (total == expected.value && sink.flushes) && sink.written == old(sink.written)
    ensures expected.None? ==>
              && ok == (|TERMINATOR| <= old(sink.room) && sink.flushes)
              && sink.written == old(sink.written) + TERMINATOR[..Min(|TERMINATOR|, old(sink.room))]
  {
    if expected.Some? {
      if total != expected.value {
        return false;
      }
    } else {
      ok := sink.WriteAll(TERMINATOR);
      if !ok {
        return false;
      }
    }
    return sink.flushes;
  }

  // ----- How the loop builds the output

  lemma TailUnbroken(frames: seq<Frame>, n: nat)
    requires 0 < n <= |frames| && !Breaks(frames[..n])
    ensures !Breaks(frames[1..][..n - 1])
  {
    var tail := frames[1..][..n - 1];
    forall i | 0 <= i < n - 1
      ensures !tail[i].Broken?
    {
      assert tail[i] == frames[..n][i + 1];
    }
  }

  lemma {:induction false} PiecesSnoc(frames: seq<Frame>, n: nat)
    requires n < |frames| && !Breaks(frames[..n])
    ensures Pieces(frames[..n + 1]) == Pieces(frames[..n]) + (if frames[n].Data? then [frames[n].bytes] else [])
    decreases n
  {
    if n == 0 {
      assert frames[..1][1..] == [] && frames[..0] == [] && Pieces([]) == [];
    } else {
      assert frames[..n + 1][1..] == frames[1..][..n] && frames[..n][1..] == frames[1..][..n - 1];
      assert frames[..n][0] == frames[0] && !frames[0].Broken?;
      TailUnbroken(frames, n);
      PiecesSnoc(frames[1..], n - 1);
      assert frames[..n + 1][0] == frames[0];
    }
  }

  lemma ConcatCons(pieces: seq<Bytes>)
    ensures Concat([]) == []
    ensures pieces != [] ==> Concat(pieces) == pieces[0] + Concat(pieces[1..])
  {
  }

  lemma {:induction false} ConcatAppend(a: seq<Bytes>, b: seq<Bytes>)
    ensures Concat(a + b) == Concat(a) + Concat(b)
    decreases |a|
  {
    hide *;
    ConcatCons(a);
    ConcatCons(a + b);
    if a == [] {
      assert a + b == b;
    } else {
      assert (a + b)[1..] == a[1..] + b && (a + b)[0] == a[0];
      ConcatAppend(a[1..], b);
      assert a[0] + (Concat(a[1..]) + Concat(b)) == (a[0] + Concat(a[1..])) + Concat(b);
    }
  }

  lemma ChunksCons(pieces: seq<Bytes>)
    requires pieces != []
    ensures Chunks(pieces) == (if pieces[0] == [] then [] else Chunk(pieces[0])) + Chunks(pieces[1..])
  {
  }

  lemma ChunksNone()
    ensures Chunks([]) == []
  {
  }

  lemma {:induction false} ChunksAppend(a: seq<Bytes>, b: seq<Bytes>)
    ensures Chunks(a + b) == Chunks(a) + Chunks(b)
    decreases |a|
  {
    hide *;
    ChunksNone();
    if a == [] {
      assert a + b == b;
    } else {
      var tail, more, first := Chunks(a[1..]), Chunks(b), if a[0] == [] then [] else Chunk(a[0]);
      assert (a + b)[1..] == a[1..] + b && (a + b)[0] == a[0];
      ChunksCons(a);
      ChunksCons(a + b);
      ChunksAppend(a[1..], b);
      assert first + (tail + more) == (first + tail) + more;
    }
  }

  /** The pieces of a transfer begin with the pieces of its first frames. */
  lemma {:induction false} PiecesPrefix(frames: seq<Frame>, n: nat)
    requires n <= |frames| && !Breaks(frames[..n])
    ensures Pieces(frames) == Pieces(frames[..n]) + Pieces(frames[n..])
    decreases n
  {
    if n == 0 {
      assert frames[..0] == [] && frames[0..] == frames;
    } else {
      assert frames[..n][0] == frames[0] && !frames[0].Broken?;
      assert frames[..n][1..] == frames[1..][..n - 1] && frames[n..] == frames[1..][n - 1..];
      TailUnbroken(frames, n);
      PiecesPrefix(frames[1..], n - 1);
    }
  }

  /** The bytes owed for some pieces, in either framing. */
  function Framed(expected: Option<U64>, pieces: seq<Bytes>): Bytes {
    if expected.Some? then Concat(pieces) else Chunks(pieces)
  }

  lemma FramedAppend(expected: Option<U64>, a: seq<Bytes>, b: seq<Bytes>)
    ensures Framed(expected, a + b) == Framed(expected, a) + Framed(expected, b)
    ensures Concat(a + b) == Concat(a) + Concat(b)
  {
    ConcatAppend(a, b);
    ChunksAppend(a, b);
  }

  lemma FramedOne(expected: Option<U64>, data: Bytes)
    requires data != []
    ensures Framed(expected, [data]) == if expected.Some? then data else Chunk(data)
    ensures Concat([data]) == data
  {
    assert [data][1..] == [] && Chunks([]) == [] && Concat([]) == [];
    ChunksCons([data]);
    hide Chunk;
    assert Chunk(data) + [] == Chunk(data) && data + [] == data;
  }

  lemma FramedNothing(expected: Option<U64>)
    ensures Framed(expected, []) == [] && Framed(expected, [[]]) == [] && Concat([[]]) == [] && Concat([]) == []
  {
    var one: seq<Bytes> := [[]];
    assert one[1..] == [];
  }

  /** The output owed for a transfer that goes through. */
  function Owed(expected: Option<U64>, frames: seq<Frame>): Bytes {
    Framed(expected, Pieces(frames)) + (if expected.None? && !Breaks(frames) then TERMINATOR else [])
  }

  /** What the first frames contribute comes first in the whole. */
  lemma OwedBegins(expected: Option<U64>, frames: seq<Frame>, n: nat)
    requires n <= |frames| && !Breaks(frames[..n])
    ensures Framed(expected, Pieces(frames[..n])) <= Owed(expected, frames)
    ensures expected.Some? ==> Framed(expected, Pieces(frames[..n])) == Concat(Pieces(frames[..n]))
    ensures Concat(Pieces(frames[..n])) <= Concat(Pieces(frames))
  {
    PiecesPrefix(frames, n);
    FramedAppend(expected, Pieces(frames[..n]), Pieces(frames[n..]));
  }

  /** One more frame that is not broken. */
  lemma FrameTaken(expected: Option<U64>, frames: seq<Frame>, n: nat)
    requires n < |frames| && !Breaks(frames[..n]) && !frames[n].Broken?
    ensures !Breaks(frames[..n + 1])
    ensures var done, next := Pieces(frames[..n]), Pieces(frames[..n + 1]);
            if frames[n].Data? && frames[n].bytes != [] then
              && Framed(expected, next) == Framed(expected, done)
                  + (if expected.Some? then frames[n].bytes else Chunk(frames[n].bytes))
              && Concat(next) == Concat(done) + frames[n].bytes
            else Framed(expected, next) == Framed(expected, done) && Concat(next) == Concat(done)
  {
    assert forall i :: 0 <= i < n ==> frames[..n + 1][i] == frames[..n][i];
    PiecesSnoc(frames, n);
    var done := Pieces(frames[..n]);
    FramedNothing(expected);
    if frames[n].Data? {
      FramedAppend(expected, done, [frames[n].bytes]);
      if frames[n].bytes != [] {
        FramedOne(expected, frames[n].bytes);
      }
    } else {
      assert done + [] == done;
    }
  }

  /** The connection holds the first `taken` bytes of what it is owed. */
  ghost predicate Holds(before: Bytes, now: Bytes, owed: Bytes) {
    before <= now && now[|before|..] <= owed
  }

  lemma HoldsPart(before: Bytes, whole: Bytes, part: Bytes, k: nat, owed: Bytes)
    requires whole + part <= owed && k <= |part|
    ensures Holds(before, before + whole + part[..k], owed)
    ensures Holds(before, before + whole, owed)
  {
    assert (before + whole + part[..k])[|before|..] == whole + part[..k];
    assert (before + whole)[|before|..] == whole;
    assert whole + part[..k] <= whole + part;
  }

  /** The connection at the start of the transfer, and now. */
  datatype Transfer = Transfer(written: Bytes, room: nat, now: Bytes, left: nat)

  /** Where the loop stands after `n` frames: what was written, what room is left, and what was counted. */
  ghost predicate Stands(x: Transfer, expected: Option<U64>, frames: seq<Frame>, n: nat, total: U64)
    requires n <= |frames|
  {
    var done := Framed(expected, Pieces(frames[..n]));
    && !Breaks(frames[..n])
    && x.now == x.written + done && |done| <= x.room && x.left == x.room - |done|
    && total == |Concat(Pieces(frames[..n]))| % TWO_64
    && (expected.Some? && expected.value < U64_MAX ==> |Concat(Pieces(frames[..n]))| <= expected.value)
  }

  /** Part of what is owed has been written, within the announced length. */
  ghost predicate Within(x: Transfer, expected: Option<U64>, frames: seq<Frame>) {
    && Holds(x.written, x.now, Owed(expected, frames))
    && (expected.Some? && (expected.value < U64_MAX || |Concat(Pieces(frames))| < TWO_64) ==>
          |x.now| - |x.written| <= expected.value)
  }

  /** The transfer cannot succeed: too much is owed for the connection, or the announced length will not be met. */
  ghost predicate Doomed(x: Transfer, expected: Option<U64>, frames: seq<Frame>) {
    |Owed(expected, frames)| > x.room || (expected.Some? && !Meets(expected.value, |Concat(Pieces(frames))|))
  }

  /**
   * `stream_response_body`. Whatever arrives and wherever the connection fails,
   * the bytes written are a prefix of what is owed; with an announced length
   * they are a prefix of the package and, unless the counter wraps, never more
   * than announced. The transfer succeeds exactly when upstream does not break,
   * the connection takes everything, and the announced length, if any, is met;
   * then everything owed has been written.
   */
  method StreamResponseBody(frames: seq<Frame>, sink: Sink, expected: Option<U64>) returns (ok: bool)
    modifies sink
    ensures Holds(old(sink.written), sink.written, Owed(expected, frames))
    ensures expected.Some? && (expected.value < U64_MAX || |Concat(Pieces(frames))| < TWO_64) ==>
              |sink.written| - |old(sink.written)| <= expected.value
    ensures ok <==> && !Breaks(frames) && |Owed(expected, frames)| <= old(sink.room) && sink.flushes
                    && (expected.Some? ==> Meets(expected.value, |Concat(Pieces(frames))|))
    ensures ok ==> sink.written == old(sink.written) + Owed(expected, frames)
  {
    hide Chunk, Chunks, Concat, Pieces, Breaks, Framed, Owed, Holds, Stands, Meets;
    var total: U64 := 0;
    ghost var x := Transfer(sink.written, sink.room, sink.written, sink.room);
    StandsFirst(x, expected, frames);
    var n := 0;
    while n < |frames|
      invariant n <= |frames| && Stands(x, expected, frames, n, total)
      invariant x == Transfer(old(sink.written), old(sink.room), sink.written, sink.room)
    {
      StandsWithin(x, expected, frames, n, total);
      if frames[n].Broken? {
        BrokenBreaks(frames, n);
        return false;
      }
      if frames[n].Data? && frames[n].bytes != [] {
        var taken, counted := WriteBodyData(sink, frames[n].bytes, expected, total);
        ghost var x' := x.(now := sink.written, left := sink.room);
        if !taken {
          if expected.Some? && SaturatingAdd(total, |frames[n].bytes|) > expected.value {
            RefusalDooms(x, expected, frames, n, total);
          } else {
            CutFails(x, x', expected, frames, n, total);
          }
          return false;
        }
        FrameStands(x, x', expected, frames, n, total);
        total, x := counted, x';
      } else {
        EmptyStands(x, expected, frames, n, total);
      }
      n := n + 1;
    }
    StandsWithin(x, expected, frames, n, total);
    ok := FinishBody(sink, expected, total);
    if expected.Some? {
      FixedFinishes(x, expected, frames, total);
    } else {
      ChunkedFinishes(x, x.(now := sink.written), frames, total);
    }
  }

  lemma StandsFirst(x: Transfer, expected: Option<U64>, frames: seq<Frame>)
    requires x.now == x.written && x.left == x.room
    ensures Stands(x, expected, frames, 0, 0)
  {
    NothingTaken(expected, frames);
  }

  lemma StandsWithin(x: Transfer, expected: Option<U64>, frames: seq<Frame>, n: nat, total: U64)
    requires n <= |frames| && Stands(x, expected, frames, n, total)
    ensures Within(x, expected, frames)
  {
    hide Chunk, Chunks, Concat, Pieces, Breaks, Framed, Owed;
    OwedBegins(expected, frames, n);
    HoldsPart(x.written, Framed(expected, Pieces(frames[..n])), [], 0, Owed(expected, frames));
  }

  /** What a frame with data adds to the output. */
  function Part(expected: Option<U64>, data: Slice): Bytes {
    if expected.Some? then data else Chunk(data)
  }

  /** The frame was written whole. */
  lemma FrameStands(x: Transfer, x': Transfer, expected: Option<U64>, frames: seq<Frame>, n: nat, total: U64)
    requires n < |frames| && frames[n].Data? && frames[n].bytes != [] && Stands(x, expected, frames, n, total)
    requires expected.Some? ==> SaturatingAdd(total, |frames[n].bytes|) <= expected.value
    requires var part := Part(expected, frames[n].bytes);
             |part| <= x.left && x' == x.(now := x.now + part[..|part|], left := x.left - |part|)
    ensures Stands(x', expected, frames, n + 1, Counted(total, |frames[n].bytes|))
  {
    hide Chunk, Chunks, Concat, Pieces, Breaks, Framed;
    FrameTaken(expected, frames, n);
    var part := Part(expected, frames[n].bytes);
    assert part[..|part|] == part;
    var done := Framed(expected, Pieces(frames[..n]));
    assert x.written + done + part == x.written + (done + part);
  }

  lemma EmptyStands(x: Transfer, expected: Option<U64>, frames: seq<Frame>, n: nat, total: U64)
    requires n < |frames| && !frames[n].Broken? && (frames[n].Data? ==> frames[n].bytes == [])
    requires Stands(x, expected, frames, n, total)
    ensures Stands(x, expected, frames, n + 1, total)
  {
    hide Chunk, Chunks, Concat, Pieces, Breaks, Framed;
    FrameTaken(expected, frames, n);
  }

  /** The frame was refused because it would exceed the announced length. */
  lemma RefusalDooms(x: Transfer, expected: Option<U64>, frames: seq<Frame>, n: nat, total: U64)
    requires n < |frames| && frames[n].Data? && frames[n].bytes != [] && Stands(x, expected, frames, n, total)
    requires expected.Some? && SaturatingAdd(total, |frames[n].bytes|) > expected.value
    ensures Doomed(x, expected, frames)
  {
    hide Chunk, Chunks, Concat, Pieces, Breaks, Framed, Owed, Holds;
    FrameTaken(expected, frames, n);
    OwedBegins(expected, frames, n + 1);
  }

  /** The connection failed within the frame. */
  lemma CutFails(x: Transfer, x': Transfer, expected: Option<U64>, frames: seq<Frame>, n: nat, total: U64)
    requires n < |frames| && frames[n].Data? && frames[n].bytes != [] && Stands(x, expected, frames, n, total)
    requires expected.Some? ==> SaturatingAdd(total, |frames[n].bytes|) <= expected.value
    requires var part := Part(expected, frames[n].bytes);
             |part| > x.left && x' == x.(now := x.now + part[..x.left], left := 0)
    ensures Within(x', expected, frames) && Doomed(x', expected, frames)
  {
    hide Chunk, Chunks, Concat, Pieces, Breaks, Framed, Owed, Holds, Stands, Meets;
    CutHolds(x, x', expected, frames, n, total);
    CutDooms(x, expected, frames, n, total);
    CutLength(x, expected, frames, n, total);
    assert |x'.now| - |x'.written| == |x.now| - |x.written| + x.left;
  }

  lemma CutDooms(x: Transfer, expected: Option<U64>, frames: seq<Frame>, n: nat, total: U64)
    requires n < |frames| && frames[n].Data? && frames[n].bytes != [] && Stands(x, expected, frames, n, total)
    requires |Part(expected, frames[n].bytes)| > x.left
    ensures |Owed(expected, frames)| > x.room
  {
    hide Chunk, Chunks, Concat, Pieces, Breaks, Framed, Owed, Holds, Meets;
    FrameTaken(expected, frames, n);
    OwedBegins(expected, frames, n + 1);
  }

  lemma CutLength(x: Transfer, expected: Option<U64>, frames: seq<Frame>, n: nat, total: U64)
    requires n < |frames| && frames[n].Data? && frames[n].bytes != [] && Stands(x, expected, frames, n, total)
    requires expected.Some? ==> SaturatingAdd(total, |frames[n].bytes|) <= expected.value
    requires |Part(expected, frames[n].bytes)| > x.left
    ensures expected.Some? && (expected.value < U64_MAX || |Concat(Pieces(frames))| < TWO_64) ==>
              |x.now| - |x.written| + x.left <= expected.value
  {
    hide Chunk, Chunks, Concat, Pieces, Breaks, Framed, Owed, Holds, Meets;
    FrameTaken(expected, frames, n);
    OwedBegins(expected, frames, n);
    OwedBegins(expected, frames, n + 1);
    var before, after := |Concat(Pieces(frames[..n]))|, |Concat(Pieces(frames[..n + 1]))|;
    assert expected.Some? ==> |x.now| - |x.written| == before && after == before + |frames[n].bytes|;
    assert after <= |Concat(Pieces(frames))|;
  }

  lemma CutHolds(x: Transfer, x': Transfer, expected: Option<U64>, frames: seq<Frame>, n: nat, total: U64)
    requires n < |frames| && frames[n].Data? && frames[n].bytes != [] && Stands(x, expected, frames, n, total)
    requires var part := Part(expected, frames[n].bytes);
             |part| > x.left && x' == x.(now := x.now + part[..x.left], left := 0)
    ensures Holds(x'.written, x'.now, Owed(expected, frames))
  {
    hide Chunk, Chunks, Concat, Pieces, Breaks, Framed, Owed, Holds;
    FrameTaken(expected, frames, n);
    OwedBegins(expected, frames, n + 1);
    var done, part := Framed(expected, Pieces(frames[..n])), Part(expected, frames[n].bytes);
    HoldsPart(x.written, done, part, x.left, Owed(expected, frames));
  }

  /** All frames are through, and with an announced length nothing is left to write. */
  lemma FixedFinishes(x: Transfer, expected: Option<U64>, frames: seq<Frame>, total: U64)
    requires Stands(x, expected, frames, |frames|, total) && expected.Some?
    ensures !Breaks(frames) && |Owed(expected, frames)| <= x.room && x.now == x.written + Owed(expected, frames)
    ensures total == expected.value <==> Meets(expected.value, |Concat(Pieces(frames))|)
  {
    hide Chunk, Chunks, Concat, Pieces, Breaks, Framed, Owed, Holds;
    assert frames[..|frames|] == frames;
    OwedWhole(expected, frames);
  }

  /** In chunked framing the terminator follows. */
  lemma ChunkedFinishes(x: Transfer, x': Transfer, frames: seq<Frame>, total: U64)
    requires Stands(x, None, frames, |frames|, total)
    requires x' == x.(now := x.now + TERMINATOR[..Min(|TERMINATOR|, x.left)])
    ensures Holds(x'.written, x'.now, Owed(None, frames)) && !Breaks(frames)
    ensures |TERMINATOR| <= x.left <==> |Owed(None, frames)| <= x.room
    ensures |TERMINATOR| <= x.left ==> x'.now == x.written + Owed(None, frames)
  {
    hide Chunk, Chunks, Concat, Pieces, Breaks, Framed, Owed, Holds;
    assert frames[..|frames|] == frames;
    OwedWhole(None, frames);
    var done := Framed(None, Pieces(frames));
    HoldsPart(x.written, done, TERMINATOR, Min(|TERMINATOR|, x.left), Owed(None, frames));
    assert TERMINATOR[..|TERMINATOR|] == TERMINATOR;
    assert x.written + done + TERMINATOR == x.written + (done + TERMINATOR);
  }

  lemma OwedWhole(expected: Option<U64>, frames: seq<Frame>)
    requires !Breaks(frames)
    ensures Owed(expected, frames) == Framed(expected, Pieces(frames)) + if expected.None? then TERMINATOR else []
    ensures expected.Some? ==> Framed(expected, Pieces(frames)) == Concat(Pieces(frames))
  {
  }

  lemma NothingTaken(expected: Option<U64>, frames: seq<Frame>)
    ensures !Breaks(frames[..0]) && Pieces(frames[..0]) == [] && Framed(expected, []) == [] && Concat([]) == []
  {
    FramedNothing(expected);
  }

  lemma BrokenBreaks(frames: seq<Frame>, n: nat)
    requires n < |frames| && frames[n].Broken?
    ensures Breaks(frames)
  {
  }

  /**
   * End to end: a chunked transfer that succeeds is read back by the gateway as the package, if the
   * package is within its cap.
   */
  lemma RelayedBodyReads(frames: seq<Frame>, rest: Bytes)
    requires !Breaks(frames)
    ensures ReadChunks(Owed(None, frames) + rest, [])
            == var package := Concat(Pieces(frames));
               if |package| <= MAX_REQUEST_BODY then Ok(Body(package, rest)) else Err(TooLarge)
  {
    ChunksRoundTrip(Pieces(frames), rest, []);
    assert [] + Concat(Pieces(frames)) == Concat(Pieces(frames));
  }

  // ----- The gateway's reader

  class Source {
    const input: Bytes
    var index: nat

    ghost predicate Valid()
      reads this
    {
      index <= |input|
    }

    ghost function Left(): Bytes
      reads this
      requires Valid()
    {
      input[index..]
    }

    constructor (input: Bytes)
      ensures Valid() && Left() == input
    {
      this.input, index := input, 0;
      new;
      assert input[0..] == input;
    }

    method ReadLine() returns (line: Bytes)
      requires Valid()
      modifies this
      ensures Valid() && line == Line(old(Left())) && Left() == old(Left())[|line|..]
    {
      hide Line;
      ghost var start := Left();
      var begin := index;
      LineEnds(input, begin);
      while index < |input|
        invariant begin <= index <= |input| && start == input[begin..]
        invariant Line(start) == input[begin..index] + Line(input[index..])
      {
        LineGoesOn(input, begin, index);
        index := index + 1;
        if input[index - 1] == LF {
          return input[begin..index];
        }
      }
      return input[begin..index];
    }

    method Read(size: nat) returns (data: Bytes)
      requires Valid()
      modifies this
      ensures Valid() && data == old(Left())[..Min(size, |old(Left())|)] && Left() == old(Left())[|data|..]
    {
      var end := Min(index + size, |input|);
      data := input[index..end];
      index := end;
    }
  }

  lemma LineEnds(input: Bytes, begin: nat)
    requires begin <= |input|
    ensures Line(input[begin..]) == input[begin..begin] + Line(input[begin..])
    ensures input[begin..|input|] + Line(input[|input|..]) == input[begin..]
  {
  }

  lemma LineGoesOn(input: Bytes, begin: nat, index: nat)
    requires begin <= index < |input|
    requires Line(input[begin..]) == input[begin..index] + Line(input[index..])
    ensures input[index] == LF ==> Line(input[begin..]) == input[begin..index + 1]
    ensures input[index] != LF ==> Line(input[begin..]) == input[begin..index + 1] + Line(input[index + 1..])
  {
    hide Line;
    LineCons(input[index..]);
    assert input[index..][1..] == input[index + 1..];
    assert input[begin..index + 1] == input[begin..index] + [input[index]];
  }

  lemma LineCons(input: Bytes)
    requires input != []
    ensures Line(input) == [input[0]] + if input[0] == LF then [] else Line(input[1..])
  {
  }

  /** The chunked branch of `read_request_body`. */
  method ReadChunkedBody(source: Source) returns (r: Result<Bytes, BodyError>)
    requires source.Valid()
    modifies source
    ensures source.Valid()
    ensures match ReadChunks(old(source.Left()), [])
            case Err(e) => r == Err(e)
            case Ok(b) => r == Ok(b.data) && source.Left() == b.rest
  {
    hide PyInt16, BeforeSemicolon, Line, Hex;
    var body: Bytes := [];
    ghost var all := ReadChunks(source.Left(), []);
    while true
      invariant source.Valid() && all == ReadChunks(source.Left(), body)
      decreases |source.Left()|
    {
      var line := source.ReadLine();
      if line == [] {
        return Err(EofInBody);
      }
      var size := PyInt16(BeforeSemicolon(line));
      if size.None? {
        return Err(InvalidSize);
      }
      if size.value < 0 || |body| + size.value > MAX_REQUEST_BODY {
        return Err(TooLarge);
      }
      if size.value == 0 {
        r := SkipTrailers(source, body);
        return;
      }
      var chunk := ReadChunk(source, size.value);
      if chunk.None? {
        return Err(Truncated);
      }
      body := body + chunk.value;
    }
  }

  /** The data of a chunk and the line end behind it. */
  method ReadChunk(source: Source, size: nat) returns (chunk: Option<Bytes>)
    requires source.Valid()
    modifies source
    ensures source.Valid()
    ensures var left := old(source.Left());
            if |left| < size + 2 || left[size..size + 2] != CRLF then chunk == None
            else chunk == Some(left[..size]) && source.Left() == left[size + 2..]
  {
    ghost var left := source.Left();
    var data := source.Read(size);
    if |data| != size {
      return None;
    }
    var ending := source.Read(2);
    assert left[size..][..Min(2, |left| - size)] == left[size..Min(size + 2, |left|)];
    if ending != CRLF {
      return None;
    }
    return Some(data);
  }

  method SkipTrailers(source: Source, body: Bytes) returns (r: Result<Bytes, BodyError>)
    requires source.Valid()
    modifies source
    ensures source.Valid()
    ensures match ReadTrailers(old(source.Left()), body)
            case Err(e) => r == Err(e)
            case Ok(b) => r == Ok(b.data) && source.Left() == b.rest
  {
    hide Line;
    ghost var all := ReadTrailers(source.Left(), body);
    while true
      invariant source.Valid() && all == ReadTrailers(source.Left(), body)
      decreases |source.Left()|
    {
      var trailer := source.ReadLine();
      if trailer == CRLF || trailer == [LF] {
        return Ok(body);
      }
      if trailer == [] {
        return Err(EofInTrailers);
      }
    }
  }
}
