/** Length-prefixed frames over byte streams that may take or deliver only part of
    what is asked. */
module Framing {
  import opened Basics

  newtype byte = x: int | 0 <= x < 256

  const MAX_FRAME := 1024 * 1024
  const HEADER := 4

  // ---- the length header ----------------------------------------------------

  /** Big-endian, four bytes. */
  function PutLength(n: nat): (h: seq<byte>)
    requires n < 0x1_0000_0000
    ensures |h| == HEADER
  {
    [(n / 0x100_0000) as byte, (n / 0x1_0000 % 256) as byte, (n / 0x100 % 256) as byte, (n % 256) as byte]
  }

  function GetLength(h: seq<byte>): (n: nat)
    requires |h| == HEADER
  {
    h[0] as int * 0x100_0000 + h[1] as int * 0x1_0000 + h[2] as int * 0x100 + h[3] as int
  }

  lemma LengthRoundTrip(n: nat)
    requires n < 0x1_0000_0000
    ensures GetLength(PutLength(n)) == n
  {
    assert n / 0x100_0000 == n / 0x1_0000 / 256;
    assert n / 0x1_0000 == n / 0x100 / 256;
    assert n / 0x100 * 256 + n % 256 == n;
    assert n / 0x1_0000 * 256 + n / 0x100 % 256 == n / 0x100;
    assert n / 0x100_0000 * 256 + n / 0x1_0000 % 256 == n / 0x1_0000;
  }

  // ---- writing --------------------------------------------------------------

  /** How the writer answers one call: the count it reports, and whether it reports
      an error as well. */
  datatype Reply = Takes(n: int) | Breaks(n: int)

  class Writer {
    var out: seq<byte>
    var replies: seq<Reply>

    /** One call; a writer without a scripted answer takes everything. */
    method Write(b: seq<byte>) returns (n: int, failed: bool)
      modifies this
      ensures |old(replies)| == 0 ==> n == |b| && !failed && replies == []
      ensures |old(replies)| > 0 ==> n == old(replies)[0].n && failed == old(replies)[0].Breaks? && replies == old(replies)[1..]
      ensures out == old(out) + b[..Clamp(n, |b|)]
    {
      if replies == [] {
        n, failed := |b|, false;
      } else {
        n, failed := replies[0].n, replies[0].Breaks?;
        replies := replies[1..];
      }
      out := out + b[..Clamp(n, |b|)];
    }
  }

  function Clamp(n: int, max: nat): (k: nat)
    ensures k <= max
  {
    if n < 0 then 0 else if n > max then max else n
  }

  /** Every answer takes at least one byte and no more than is left. */
  predicate Delivers(b: seq<byte>, replies: seq<Reply>)
    decreases |replies|
  {
    |b| == 0 || |replies| == 0
    || (replies[0].Takes? && 1 <= replies[0].n <= |b| && Delivers(b[replies[0].n..], replies[1..]))
  }

  /** The answers such a writer still has left. */
  function Unused(b: seq<byte>, replies: seq<Reply>): seq<Reply>
    requires Delivers(b, replies)
    decreases |replies|
  {
    if |b| == 0 || |replies| == 0 then replies else Unused(b[replies[0].n..], replies[1..])
  }

  /** Everything is delivered in order, or a prefix of it and an error; and it is an
      error exactly when some answer did not fit. */
  method WriteAll(w: Writer, b: seq<byte>) returns (ok: bool)
    modifies w
    ensures ok <==> Delivers(b, old(w.replies))
    ensures ok ==> w.out == old(w.out) + b && w.replies == Unused(b, old(w.replies))
    ensures !ok ==> exists k :: 0 <= k <= |b| && w.out == old(w.out) + b[..k]
  {
    var rest := b;
    while |rest| > 0
      invariant |rest| <= |b| && rest == b[|b| - |rest|..]
      invariant w.out == old(w.out) + b[..|b| - |rest|]
      invariant Delivers(b, old(w.replies)) <==> Delivers(rest, w.replies)
      invariant Delivers(b, old(w.replies)) ==> Unused(b, old(w.replies)) == Unused(rest, w.replies)
      decreases |rest|
    {
      ghost var sent := |b| - |rest|;
      var n, failed := w.Write(rest);
      assert b[..sent] + rest[..Clamp(n, |rest|)] == b[..sent + Clamp(n, |rest|)];
      if failed {
        return false;
      }
      if n <= 0 || n > |rest| {
        return false;
      }
      rest := rest[n..];
    }
    return true;
  }

  predicate Sendable(body: seq<byte>) {
    1 <= |body| <= MAX_FRAME
  }

  function Encode(body: seq<byte>): (s: seq<byte>)
    requires Sendable(body)
    ensures |s| == HEADER + |body|
  {
    PutLength(|body|) + body
  }

  /** The answers let both parts of a frame through. */
  predicate FrameDelivers(body: seq<byte>, replies: seq<Reply>)
    requires Sendable(body)
  {
    Delivers(PutLength(|body|), replies) && Delivers(body, Unused(PutLength(|body|), replies))
  }

  function AfterFrame(body: seq<byte>, replies: seq<Reply>): seq<Reply>
    requires Sendable(body) && FrameDelivers(body, replies)
  {
    Unused(body, Unused(PutLength(|body|), replies))
  }

  /** A frame is written whole, header first, exactly when its size is legal and the
      writer's answers let it through; otherwise a prefix of it may be out. */
  method WriteFrame(w: Writer, body: seq<byte>) returns (ok: bool)
    modifies w
    ensures ok <==> Sendable(body) && FrameDelivers(body, old(w.replies))
    ensures ok ==> w.out == old(w.out) + Encode(body) && w.replies == AfterFrame(body, old(w.replies))
    ensures !Sendable(body) ==> w.out == old(w.out)
    ensures !ok && Sendable(body) ==> exists k :: 0 <= k <= |Encode(body)| && w.out == old(w.out) + Encode(body)[..k]
  {
    if |body| == 0 || |body| > MAX_FRAME {
      return false;
    }
    var header := PutLength(|body|);
    ghost var before := w.out;
    ok := WriteAll(w, header);
    if !ok {
      ghost var k :| 0 <= k <= |header| && w.out == before + header[..k];
      assert Encode(body)[..k] == header[..k];
      return false;
    }
    ok := WriteAll(w, body);
    assert before + header + body == before + Encode(body);
    if !ok {
      ghost var k :| 0 <= k <= |body| && w.out == before + header + body[..k];
      assert Encode(body)[..HEADER + k] == header + body[..k];
      assert w.out == before + Encode(body)[..HEADER + k];
    }
  }

  // ---- reading --------------------------------------------------------------

  /** How a stream ends after its last byte. */
  datatype End = Eof | Broken

  datatype Read = Body(body: seq<byte>, rest: seq<byte>) | CleanEof | WireError

  /** `io.ReadFull` for the header, the length check, `io.ReadFull` for the body. */
  function ReadBody(rest: seq<byte>, end: End): Read {
    if |rest| == 0 && end == Eof then CleanEof
    else if |rest| < HEADER then WireError
    else
      var n := GetLength(rest[..HEADER]);
      if n == 0 || n > MAX_FRAME then WireError
      else if |rest| < HEADER + n then WireError
      else Body(rest[HEADER..HEADER + n], rest[HEADER + n..])
  }

  /** All frames up to the end of the stream, and how it ended. */
  function ReadAll(rest: seq<byte>, end: End): (r: (seq<seq<byte>>, Read))
    ensures !r.1.Body?
    decreases |rest|
  {
    match ReadBody(rest, end)
    case Body(body, more) =>
      var (bodies, last) := ReadAll(more, end);
      ([body] + bodies, last)
    case CleanEof => ([], CleanEof)
    case WireError => ([], WireError)
  }

  class Reader {
    var rest: seq<byte>
    const end: End

    /** Reads up to `k` bytes; fewer only at the end of the stream. */
    method ReadFull(k: nat) returns (got: seq<byte>)
      modifies this
      ensures got == old(rest)[..Clamp(k, |old(rest)|)] && rest == old(rest)[|got|..]
    {
      got := rest[..Clamp(k, |rest|)];
      rest := rest[|got|..];
    }
  }

  /** The frame on the wire: header, length check, body. */
  method ReceiveBody(r: Reader) returns (result: Read)
    modifies r
    ensures match ReadBody(old(r.rest), r.end)
            case Body(body, rest) => result == Body(body, r.rest) && r.rest == rest
            case CleanEof => result == CleanEof && r.rest == []
            case WireError => result == WireError
  {
    var header := r.ReadFull(HEADER);
    if |header| == 0 && r.end == Eof {
      return CleanEof;
    }
    if |header| < HEADER {
      return WireError;
    }
    var size := GetLength(header);
    if size == 0 || size > MAX_FRAME {
      return WireError;
    }
    var body := r.ReadFull(size);
    if |body| < size {
      return WireError;
    }
    return Body(body, r.rest);
  }

  // ---- what was sent is what is read ----------------------------------------

  predicate AllSendable(bodies: seq<seq<byte>>) {
    forall i :: 0 <= i < |bodies| ==> Sendable(bodies[i])
  }

  function EncodeAll(bodies: seq<seq<byte>>): seq<byte>
    requires AllSendable(bodies)
    decreases |bodies|
  {
    if bodies == [] then [] else Encode(bodies[0]) + EncodeAll(bodies[1..])
  }

  lemma ReadsFirst(body: seq<byte>, more: seq<byte>, end: End)
    requires Sendable(body)
    ensures ReadBody(Encode(body) + more, end) == Body(body, more)
  {
    var s := Encode(body) + more;
    assert s[..HEADER] == PutLength(|body|);
    LengthRoundTrip(|body|);
    assert s[HEADER..HEADER + |body|] == body;
    assert s[HEADER + |body|..] == more;
  }

  /** A stream of whole frames followed by anything reads back as those frames
      followed by what that anything reads as. */
  lemma {:induction false} ReadsThrough(bodies: seq<seq<byte>>, more: seq<byte>, end: End)
    requires AllSendable(bodies)
    ensures ReadAll(EncodeAll(bodies) + more, end) == (bodies + ReadAll(more, end).0, ReadAll(more, end).1)
    decreases |bodies|
  {
    hide Encode, ReadBody;
    if bodies == [] {
      assert EncodeAll(bodies) + more == more;
      assert bodies + ReadAll(more, end).0 == ReadAll(more, end).0;
    } else {
      var tail := EncodeAll(bodies[1..]) + more;
      assert EncodeAll(bodies) + more == Encode(bodies[0]) + tail;
      ReadsFirst(bodies[0], tail, end);
      ReadsThrough(bodies[1..], more, end);
      assert [bodies[0]] + (bodies[1..] + ReadAll(more, end).0) == bodies + ReadAll(more, end).0;
    }
  }

  /** A frame cut short is an error, never an end. */
  lemma CutFrameFails(body: seq<byte>, k: nat, end: End)
    requires Sendable(body) && 0 < k < |Encode(body)|
    ensures ReadBody(Encode(body)[..k], end) == WireError
  {
    if k >= HEADER {
      assert Encode(body)[..k][..HEADER] == PutLength(|body|);
      LengthRoundTrip(|body|);
    }
  }

  lemma {:induction false} EncodeAllSplits(bodies: seq<seq<byte>>, j: nat)
    requires AllSendable(bodies) && j <= |bodies|
    ensures AllSendable(bodies[..j]) && AllSendable(bodies[j..])
    ensures EncodeAll(bodies) == EncodeAll(bodies[..j]) + EncodeAll(bodies[j..])
    decreases j
  {
    if j == 0 {
      assert bodies[..0] == [] && bodies[0..] == bodies;
      assert EncodeAll(bodies) == [] + EncodeAll(bodies);
    } else {
      EncodeAllSplits(bodies[1..], j - 1);
      assert bodies[..j] == [bodies[0]] + bodies[1..][..j - 1];
      assert bodies[..j][1..] == bodies[1..][..j - 1];
      assert bodies[1..][j - 1..] == bodies[j..];
    }
  }

  /** Cut anywhere, the stream yields exactly the frames that are complete, and then
      a clean end exactly at a frame boundary. */
  lemma CutStream(bodies: seq<seq<byte>>, j: nat, k: nat)
    requires AllSendable(bodies) && j < |bodies|
    requires |EncodeAll(bodies[..j])| <= k < |EncodeAll(bodies[..j])| + |Encode(bodies[j])|
    ensures k <= |EncodeAll(bodies)|
    ensures ReadAll(EncodeAll(bodies)[..k], Eof) ==
            (bodies[..j], if k == |EncodeAll(bodies[..j])| then CleanEof else WireError)
  {
    EncodeAllSplits(bodies, j);
    var whole := EncodeAll(bodies[..j]);
    assert EncodeAll(bodies[j..]) == Encode(bodies[j]) + EncodeAll(bodies[j..][1..]);
    var part := Encode(bodies[j])[..k - |whole|];
    assert EncodeAll(bodies)[..k] == whole + part;
    ReadsThrough(bodies[..j], part, Eof);
    if k == |whole| {
      assert part == [];
    } else {
      CutFrameFails(bodies[j], k - |whole|, Eof);
    }
    assert bodies[..j] + [] == bodies[..j];
  }

  /** Every position before the end lies in exactly one frame, so `CutStream` covers
      every cut. */
  lemma {:induction false} CutPosition(bodies: seq<seq<byte>>, k: nat) returns (j: nat)
    requires AllSendable(bodies) && k < |EncodeAll(bodies)|
    ensures j < |bodies| && |EncodeAll(bodies[..j])| <= k < |EncodeAll(bodies[..j])| + |Encode(bodies[j])|
    decreases |bodies|
  {
    if k < |Encode(bodies[0])| {
      j := 0;
      assert bodies[..0] == [];
    } else {
      j := CutPosition(bodies[1..], k - |Encode(bodies[0])|);
      assert bodies[..j + 1] == [bodies[0]] + bodies[1..][..j];
      assert bodies[..j + 1][1..] == bodies[1..][..j];
      j := j + 1;
    }
  }

  // ---- sent through a writer, read by a reader ------------------------------

  /** Frames read back as sent, followed by a clean end. */
  lemma RoundTrip(bodies: seq<seq<byte>>)
    requires AllSendable(bodies)
    ensures ReadAll(EncodeAll(bodies), Eof) == (bodies, CleanEof)
  {
    ReadsThrough(bodies, [], Eof);
    assert EncodeAll(bodies) + [] == EncodeAll(bodies);
    assert bodies + [] == bodies;
  }

  /** The answers let a list of legal frames through, one after the other. */
  predicate FramesDeliver(bodies: seq<seq<byte>>, replies: seq<Reply>)
    decreases |bodies|
  {
    bodies == []
    || (&& Sendable(bodies[0]) && FrameDelivers(bodies[0], replies)
        && FramesDeliver(bodies[1..], AfterFrame(bodies[0], replies)))
  }

  lemma EncodeAllGrows(sent: seq<seq<byte>>, body: seq<byte>)
    requires AllSendable(sent) && Sendable(body)
    ensures AllSendable(sent + [body])
    ensures EncodeAll(sent + [body]) == EncodeAll(sent) + Encode(body)
  {
    hide Encode;
    EncodeAllSplits(sent + [body], |sent|);
    assert (sent + [body])[..|sent|] == sent && (sent + [body])[|sent|..] == [body];
    assert EncodeAll([body]) == Encode(body) + EncodeAll([body][1..]);
  }

  lemma NothingSent(bodies: seq<seq<byte>>)
    ensures bodies[0..] == bodies && AllSendable(bodies[..0]) && EncodeAll(bodies[..0]) == []
  {
  }

  /** Frames written one after the other, however little the writer takes each time:
      they all get through exactly when they are legal and every answer fits, and a
      reader of the whole stream then gets the same frames and a clean end. */
  method WriteFrames(w: Writer, bodies: seq<seq<byte>>) returns (ok: bool)
    modifies w
    ensures ok <==> FramesDeliver(bodies, old(w.replies))
    ensures ok ==> AllSendable(bodies) && w.out == old(w.out) + EncodeAll(bodies)
    ensures ok && old(w.out) == [] ==> ReadAll(w.out, Eof) == (bodies, CleanEof)
  {
    hide FrameDelivers, AfterFrame, Encode, ReadAll, Sendable, EncodeAll, AllSendable;
    NothingSent(bodies);
    for i := 0 to |bodies|
      invariant FramesDeliver(bodies, old(w.replies)) <==> FramesDeliver(bodies[i..], w.replies)
      invariant AllSendable(bodies[..i]) && w.out == old(w.out) + EncodeAll(bodies[..i])
    {
      assert bodies[i..][0] == bodies[i] && bodies[i..][1..] == bodies[i + 1..];
      ghost var before := w.out;
      var sent := WriteFrame(w, bodies[i]);
      if !sent {
        return false;
      }
      EncodeAllGrows(bodies[..i], bodies[i]);
      assert bodies[..i + 1] == bodies[..i] + [bodies[i]];
      assert w.out == old(w.out) + (EncodeAll(bodies[..i]) + Encode(bodies[i]));
    }
    assert bodies[..|bodies|] == bodies && bodies[|bodies|..] == [];
    RoundTrip(bodies);
    assert [] + EncodeAll(bodies) == EncodeAll(bodies);
    return true;
  }

  // ---- short writes ---------------------------------------------------------

  function Flatten(chunks: seq<seq<byte>>): seq<byte> {
    if chunks == [] then [] else chunks[0] + Flatten(chunks[1..])
  }

  /** The answers of a writer that takes the pieces one by one. */
  function Pieces(chunks: seq<seq<byte>>): seq<Reply> {
    seq(|chunks|, i requires 0 <= i < |chunks| => Takes(|chunks[i]|))
  }

  predicate NoneEmpty(chunks: seq<seq<byte>>) {
    forall i :: 0 <= i < |chunks| ==> |chunks[i]| > 0
  }

  /** Any way of cutting the bytes into nonempty pieces is a way to take them, and
      uses up just these answers. */
  lemma {:induction false} AnyChunking(chunks: seq<seq<byte>>, more: seq<Reply>)
    requires NoneEmpty(chunks)
    ensures Delivers(Flatten(chunks), Pieces(chunks) + more)
    ensures Unused(Flatten(chunks), Pieces(chunks) + more) == more
    decreases |chunks|
  {
    var replies := Pieces(chunks) + more;
    if chunks != [] {
      AnyChunking(chunks[1..], more);
      assert replies[1..] == Pieces(chunks[1..]) + more;
      assert Flatten(chunks)[|chunks[0]|..] == Flatten(chunks[1..]);
    } else {
      assert replies == more;
    }
  }

  /** How a writer cuts the header and the body of one frame. */
  datatype Cut = Cut(header: seq<seq<byte>>, body: seq<seq<byte>>)

  ghost predicate Cuts(body: seq<byte>, cut: Cut) {
    && Sendable(body) && NoneEmpty(cut.header) && NoneEmpty(cut.body)
    && Flatten(cut.header) == PutLength(|body|) && Flatten(cut.body) == body
  }

  function AllPieces(cuts: seq<Cut>): seq<Reply> {
    if cuts == [] then [] else Pieces(cuts[0].header) + (Pieces(cuts[0].body) + AllPieces(cuts[1..]))
  }

  /** Whatever positive number of bytes a writer takes per call, it lets every list of
      legal frames through: `writeFrames` succeeds, and they read back. */
  lemma {:induction false} AnyChunkingDelivers(bodies: seq<seq<byte>>, cuts: seq<Cut>)
    requires |cuts| == |bodies| && forall i :: 0 <= i < |bodies| ==> Cuts(bodies[i], cuts[i])
    ensures FramesDeliver(bodies, AllPieces(cuts))
    decreases |bodies|
  {
    hide Delivers, Unused, Sendable, PutLength, Flatten, Pieces, NoneEmpty;
    if bodies != [] {
      assert Cuts(bodies[0], cuts[0]);
      AnyChunking(cuts[0].header, Pieces(cuts[0].body) + AllPieces(cuts[1..]));
      AnyChunking(cuts[0].body, AllPieces(cuts[1..]));
      AnyChunkingDelivers(bodies[1..], cuts[1..]);
    }
  }
}
