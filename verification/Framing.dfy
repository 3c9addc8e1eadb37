/**
 Splitting a byte stream into WuKongIM frames: `try_unpack_one` of protocol.py and the
 buffering half of the adapter's receive loop.
 */
module Framing {
  import opened Bytes
  import opened VariableLength
  import opened Wrappers

  const PING := 7
  const PONG := 8

  function PacketType(header: Byte): nat { header / 16 }

  predicate SingleByte(header: Byte) { PacketType(header) == PING || PacketType(header) == PONG }

  // ---- the grammar of the stream, independent of any reader ----

  /** A frame: a lone PING or PONG header, or a header, a length field and that many bytes. */
  ghost predicate IsFrame(f: seq<Byte>) {
    && f != []
    && if SingleByte(f[0]) then |f| == 1 else exists e: nat :: HeaderEndsAt(f, e) && |f| == e + Value(f[1..e])
  }

  predicate HeaderEndsAt(f: seq<Byte>, e: nat) {
    1 <= e <= |f| && IsField(f[1..e])
  }

  function Concat(parts: seq<seq<Byte>>): seq<Byte> {
    if parts == [] then [] else parts[0] + Concat(parts[1..])
  }

  /** `frames` followed by `rest` is a complete splitting of `stream`: nothing more can be taken. */
  ghost predicate Splits(stream: seq<Byte>, frames: seq<seq<Byte>>, rest: seq<Byte>) {
    && Concat(frames) + rest == stream
    && (forall i :: 0 <= i < |frames| ==> IsFrame(frames[i]))
    && NoFrameAhead(rest)
  }

  ghost predicate NoFrameAhead(rest: seq<Byte>) {
    forall n :: 0 <= n <= |rest| ==> !IsFrame(rest[..n])
  }

  // ---- try_unpack_one ----

  datatype Unpacked = Unpacked(frame: seq<Byte>, rest: seq<Byte>)

  function Unpack(buf: seq<Byte>): (r: Option<Unpacked>)
    ensures r.Some? ==> r.value.frame != [] && r.value.frame + r.value.rest == buf
  {
    if buf == [] then None
    else if SingleByte(buf[0]) then Some(Unpacked(buf[..1], buf[1..]))
    else match Scan(buf, 1)
      case None => None
      case Some(s) =>
        var total := s.next + s.value;
        if total > |buf| then None else Some(Unpacked(buf[..total], buf[total..]))
  }

  method TryUnpackOne(buf: seq<Byte>) returns (r: Option<Unpacked>)
    ensures r == Unpack(buf)
  {
    if buf == [] {
      return None;
    }
    var header := buf[0];
    if PacketType(header) == PONG || PacketType(header) == PING {
      assert [header] == buf[..1];
      return Some(Unpacked([header], buf[1..]));
    }
    var pos: nat, remLength: nat, multiplier: nat := 1, 0, 1;
    while true
      invariant 1 <= pos <= |buf|
      invariant Scan(buf, 1) == Resumed(remLength, multiplier, Scan(buf, pos))
      decreases |buf| - pos
    {
      if pos > |buf| - 1 {
        return None;
      }
      var digit := buf[pos];
      ResumeStep(buf, pos, remLength, multiplier);
      pos := pos + 1;
      remLength := remLength + (digit % 128) * multiplier;
      multiplier := multiplier * 128;
      if digit < 0x80 {
        break;
      }
    }
    var total := pos + remLength;
    if total > |buf| {
      return None;
    }
    return Some(Unpacked(buf[..total], buf[total..]));
  }

  /** The field read so far, worth `sum`, completed by what is still ahead, worth `factor` a unit. */
  function Resumed(sum: nat, factor: nat, ahead: Option<Scanned>): Option<Scanned> {
    match ahead
    case None => None
    case Some(s) => Some(Scanned(sum + factor * s.value, s.next))
  }

  lemma ResumeStep(buf: seq<Byte>, pos: nat, sum: nat, factor: nat)
    requires pos < |buf|
    ensures var sum' := sum + (buf[pos] % 128) * factor;
      Resumed(sum, factor, Scan(buf, pos)) ==
      if buf[pos] < 128 then Some(Scanned(sum', pos + 1)) else Resumed(sum', factor * 128, Scan(buf, pos + 1))
  {
    if buf[pos] >= 128 && Scan(buf, pos + 1).Some? {
      Regroup(sum, factor, buf[pos] - 128, Scan(buf, pos + 1).value.value);
    }
  }

  lemma Regroup(sum: nat, factor: nat, digit: nat, higher: nat)
    ensures sum + factor * (digit + 128 * higher) == (sum + digit * factor) + (factor * 128) * higher
  {
    assert factor * (digit + 128 * higher) == factor * digit + factor * (128 * higher);
    assert factor * (128 * higher) == (factor * 128) * higher;
  }

  /** Unpacking succeeds exactly when the buffer begins with a frame, and yields that frame. */
  lemma UnpackFindsFrame(buf: seq<Byte>, n: nat)
    requires n <= |buf|
    ensures IsFrame(buf[..n]) <==> Unpack(buf) == Some(Unpacked(buf[..n], buf[n..]))
  {
    var f := buf[..n];
    if IsFrame(f) && !SingleByte(f[0]) {
      var e: nat :| HeaderEndsAt(f, e) && n == e + Value(f[1..e]);
      assert buf[1..e] == f[1..e];
      FieldIsScanned(buf, 1, e);
    }
    if Unpack(buf) == Some(Unpacked(f, buf[n..])) && !SingleByte(buf[0]) {
      var s := Scan(buf, 1).value;
      ScanFindsField(buf, 1);
      assert |f| == s.next + s.value;
      assert f[1..s.next] == buf[1..s.next];
      assert HeaderEndsAt(f, s.next);
    }
  }

  /** No frame at the front exactly when unpacking answers None. */
  lemma UnpackNoneIffNoFrame(buf: seq<Byte>)
    ensures Unpack(buf).None? <==> NoFrameAhead(buf)
  {
    forall n | 0 <= n <= |buf| ensures IsFrame(buf[..n]) ==> Unpack(buf).Some? {
      UnpackFindsFrame(buf, n);
    }
    if Unpack(buf).Some? {
      var n := |Unpack(buf).value.frame|;
      assert Unpack(buf).value.frame == buf[..n] && Unpack(buf).value.rest == buf[n..];
      UnpackFindsFrame(buf, n);
    }
  }

  /** A frame followed by anything unpacks to that frame and the rest. */
  lemma FrameUnpacks(frame: seq<Byte>, rest: seq<Byte>)
    requires IsFrame(frame)
    ensures Unpack(frame + rest) == Some(Unpacked(frame, rest))
  {
    var buf := frame + rest;
    assert buf[..|frame|] == frame && buf[|frame|..] == rest;
    UnpackFindsFrame(buf, |frame|);
  }

  // ---- the receive loop ----

  /** What the loop leaves behind after taking every complete frame off the buffer. */
  function Drain(buf: seq<Byte>): (r: (seq<seq<Byte>>, seq<Byte>))
    decreases |buf|
  {
    match Unpack(buf)
    case None => ([], buf)
    case Some(u) =>
      assert |u.frame| + |u.rest| == |buf|;
      var (frames, left) := Drain(u.rest);
      ([u.frame] + frames, left)
  }

  /** The adapter's `_temp_buffer`, extended by every WebSocket message. */
  class ReceiveBuffer {
    var temp: seq<Byte>

    /** Between messages the buffer holds at most the beginning of a frame. */
    ghost predicate Valid()
      reads this
    {
      NoFrameAhead(temp)
    }

    constructor ()
      ensures Valid() && temp == []
    {
      temp := [];
    }

    method OnMessage(data: seq<Byte>) returns (handled: seq<seq<Byte>>)
      modifies this
      ensures Valid()
      ensures (handled, temp) == Drain(old(temp) + data)
    {
      temp := temp + data;
      handled := [];
      assert [] + Drain(temp).0 == Drain(temp).0;
      while temp != []
        invariant Drain(old(temp) + data) == (handled + Drain(temp).0, Drain(temp).1)
        decreases |temp|
      {
        var r := TryUnpackOne(temp);
        if r.None? {
          break;
        }
        assert |r.value.frame| + |r.value.rest| == |temp|;
        assert handled + Drain(temp).0 == (handled + [r.value.frame]) + Drain(r.value.rest).0;
        temp := r.value.rest;
        handled := handled + [r.value.frame];
      }
      assert handled + [] == handled;
      DrainSplits(old(temp) + data);
    }

    /** A whole connection: one call of OnMessage per WebSocket message. */
    method Receive(chunks: seq<seq<Byte>>) returns (handled: seq<seq<Byte>>)
      requires Valid()
      modifies this
      ensures Valid()
      ensures (handled, temp) == Drain(old(temp) + Concat(chunks))
      ensures Splits(old(temp) + Concat(chunks), handled, temp)
    {
      handled := [];
      var i := 0;
      while i < |chunks|
        invariant 0 <= i <= |chunks| && Valid()
        invariant (handled, temp) == FeedAll(old(temp), chunks[..i])
      {
        var frames := OnMessage(chunks[i]);
        handled := handled + frames;
        assert chunks[..i + 1][..i] == chunks[..i];
        i := i + 1;
      }
      assert chunks[..i] == chunks;
      ChunkIndependence(old(temp), chunks);
      DrainSplits(old(temp) + Concat(chunks));
    }
  }

  /** The loop run over a list of messages: all frames handled so far, and the buffer. */
  function FeedAll(buf: seq<Byte>, chunks: seq<seq<Byte>>): (r: (seq<seq<Byte>>, seq<Byte>)) {
    if chunks == [] then ([], buf) else
    var (frames, left) := FeedAll(buf, chunks[..|chunks| - 1]);
    var (more, left') := Drain(left + chunks[|chunks| - 1]);
    (frames + more, left')
  }

  /** What the loop computes is a complete splitting into frames. */
  lemma {:induction false} DrainSplits(buf: seq<Byte>)
    ensures Splits(buf, Drain(buf).0, Drain(buf).1)
    decreases |buf|
  {
    UnpackNoneIffNoFrame(buf);
    if Unpack(buf).Some? {
      var u := Unpack(buf).value;
      assert |u.frame| + |u.rest| == |buf|;
      assert buf[..|u.frame|] == u.frame && buf[|u.frame|..] == u.rest;
      UnpackFindsFrame(buf, |u.frame|);
      DrainSplits(u.rest);
      var (frames, left) := Drain(u.rest);
      assert Drain(buf).0[1..] == frames;
    }
  }

  /** A stream splits in one way only, so the loop computes it. */
  lemma {:induction false} SplittingUnique(stream: seq<Byte>, frames: seq<seq<Byte>>, rest: seq<Byte>)
    requires Splits(stream, frames, rest)
    ensures Drain(stream) == (frames, rest)
    decreases |frames|
  {
    if frames == [] {
      assert stream == rest;
      UnpackNoneIffNoFrame(stream);
    } else {
      var tail := Concat(frames[1..]) + rest;
      assert stream == frames[0] + tail;
      assert Splits(tail, frames[1..], rest);
      FrameUnpacks(frames[0], tail);
      SplittingUnique(tail, frames[1..], rest);
      assert [frames[0]] + frames[1..] == frames;
    }
  }

  lemma {:induction false} ConcatAppend(a: seq<seq<Byte>>, b: seq<seq<Byte>>)
    ensures Concat(a + b) == Concat(a) + Concat(b)
  {
    if a == [] {
      assert a + b == b;
    } else {
      ConcatAppend(a[1..], b);
      assert (a + b)[1..] == a[1..] + b && (a + b)[0] == a[0];
      var tail := Concat(a[1..]);
      assert a[0] + (tail + Concat(b)) == (a[0] + tail) + Concat(b);
    }
  }

  lemma SplitsAppend(a: seq<Byte>, frames: seq<seq<Byte>>, left: seq<Byte>,
                     b: seq<Byte>, more: seq<seq<Byte>>, left': seq<Byte>)
    requires Splits(a, frames, left) && Splits(left + b, more, left')
    ensures Splits(a + b, frames + more, left')
  {
    ConcatAppend(frames, more);
    calc {
      Concat(frames + more) + left';
      (Concat(frames) + Concat(more)) + left';
      Concat(frames) + (Concat(more) + left');
      Concat(frames) + (left + b);
      (Concat(frames) + left) + b;
      a + b;
    }
  }

  /** Taking frames early and then receiving more is the same as receiving it all first. */
  lemma DrainInTwo(a: seq<Byte>, b: seq<Byte>)
    ensures var (frames, left) := Drain(a); var (more, left') := Drain(left + b);
      Drain(a + b) == (frames + more, left')
  {
    var (frames, left) := Drain(a);
    var (more, left') := Drain(left + b);
    SplitsAppend(a, frames, left, b, more, left') by {
      DrainSplits(a);
      DrainSplits(left + b);
    }
    SplittingUnique(a + b, frames + more, left');
  }

  /** However the stream is cut into messages, the frames and the leftover are the same. */
  lemma {:induction false} ChunkIndependence(buf: seq<Byte>, chunks: seq<seq<Byte>>)
    requires NoFrameAhead(buf)
    ensures FeedAll(buf, chunks) == Drain(buf + Concat(chunks))
  {
    if chunks == [] {
      assert buf + Concat(chunks) == buf;
      UnpackNoneIffNoFrame(buf);
    } else {
      var early, last := chunks[..|chunks| - 1], chunks[|chunks| - 1];
      assert chunks == early + [last];
      ConcatAppend(early, [last]);
      assert Concat([last]) == last + Concat([]);
      assert buf + Concat(chunks) == (buf + Concat(early)) + last;
      ChunkIndependence(buf, early);
      DrainInTwo(buf + Concat(early), last);
    }
  }
}
