/** The Encoder/Decoder pair of `protocol.py` and the two packets the plugin sends. */
module Protocol {
  import opened Bytes
  import opened VariableLength
  import opened Framing
  import opened Wrappers

  const CONNECT := 1
  const RECVACK := 6
  const TEXT_LIMIT := 0x1_0000

  /** One field of a packet body: a big-endian integer of `width` bytes, or a string's bytes. */
  datatype Field = Number(width: nat, v: int) | Text(s: seq<Byte>)
  {
    predicate Fits() {
      match this
      case Number(width, v) => 0 <= v < Power256(width)
      case Text(s) => |s| < TEXT_LIMIT
    }

    function Kind(): Kind {
      match this
      case Number(width, _) => NumberKind(width)
      case Text(_) => TextKind
    }

    /** An integer keeps its low bytes; a string is a 16-bit length and then all its bytes. */
    function Wire(): (w: seq<Byte>) {
      match this
      case Number(width, v) => BigEndian(v, width)
      case Text(s) => Pack(|s|, 2) + s
    }
  }

  datatype Kind = NumberKind(width: nat) | TextKind

  predicate AllFit(fields: seq<Field>) {
    fields == [] || (fields[0].Fits() && AllFit(fields[1..]))
  }

  function Body(fields: seq<Field>): seq<Byte> {
    if fields == [] then [] else fields[0].Wire() + Body(fields[1..])
  }

  lemma AppendedTwice(a: seq<Byte>, b: seq<Byte>, c: seq<Byte>)
    ensures a + (b + c) == (a + b) + c
  {
  }

  lemma {:induction false} BodyAppend(fields: seq<Field>, f: Field)
    ensures Body(fields + [f]) == Body(fields) + f.Wire()
  {
    if fields == [] {
      assert [] + [f] == [f] && [f][1..] == [];
      assert f.Wire() + [] == [] + f.Wire();
    } else {
      var all := fields + [f];
      assert all[0] == fields[0] && all[1..] == fields[1..] + [f];
      BodyAppend(fields[1..], f);
      AppendedTwice(fields[0].Wire(), Body(fields[1..]), f.Wire());
    }
  }

  lemma BodyOfOne(f: Field)
    ensures Body([] + [f]) == f.Wire()
  {
    BodyAppend([], f);
  }

  /** A string is its 16-bit length and then its bytes. */
  lemma TextAppended(fields: seq<Field>, s: seq<Byte>)
    ensures Body(fields + [Text(s)]) == Body(fields + [Number(2, |s|)]) + s
  {
    BodyAppend(fields, Number(2, |s|));
    BodyAppend(fields, Text(s));
    AppendedTwice(Body(fields), Pack(|s|, 2), s);
  }

  lemma Masked(v: int, width: nat)
    ensures Pack(v % Power256(width), width) == Number(width, v).Wire()
  {
    MaskedBytes(v, width);
  }

  class Encoder {
    var buf: seq<Byte>
    ghost var fields: seq<Field>  // the fields written so far

    ghost predicate Valid()
      reads this
    {
      buf == Body(fields)
    }

    constructor ()
      ensures Valid() && buf == [] && fields == []
    {
      buf, fields := [], [];
    }

    method WriteByte(b: int)
      requires Valid()
      modifies this
      ensures Valid() && fields == old(fields) + [Number(1, b)]
    {
      BodyAppend(fields, Number(1, b));
      var low: Byte := b % 0x100;
      assert BigEndian(b, 1) == [low];
      buf, fields := buf + [low], fields + [Number(1, b)];
    }

    /** Raw bytes, used only to put a finished body behind its header. */
    method WriteBytes(data: seq<Byte>)
      modifies `buf
      ensures buf == old(buf) + data
    {
      buf := buf + data;
    }

    method WriteInt16(v: int)
      requires Valid()
      modifies this
      ensures Valid() && fields == old(fields) + [Number(2, v)]
    {
      Powers();
      Masked(v, 2);
      BodyAppend(fields, Number(2, v));
      buf, fields := buf + Pack(v % 0x1_0000, 2), fields + [Number(2, v)];
    }

    method WriteInt32(v: int)
      requires Valid()
      modifies this
      ensures Valid() && fields == old(fields) + [Number(4, v)]
    {
      Powers();
      Masked(v, 4);
      BodyAppend(fields, Number(4, v));
      buf, fields := buf + Pack(v % 0x1_0000_0000, 4), fields + [Number(4, v)];
    }

    method WriteInt64(v: int)
      requires Valid()
      modifies this
      ensures Valid() && fields == old(fields) + [Number(8, v)]
    {
      Powers();
      Masked(v, 8);
      BodyAppend(fields, Number(8, v));
      buf, fields := buf + Pack(v % 0x1_0000_0000_0000_0000, 8), fields + [Number(8, v)];
    }

    method WriteString(s: seq<Byte>)
      requires Valid()
      modifies this
      ensures Valid() && fields == old(fields) + [Text(s)]
    {
      TextAppended(fields, s);
      WriteInt16(|s|);
      if s != [] {
        buf := buf + s;
      }
      fields := old(fields) + [Text(s)];
    }
  }

  // ---- what the Decoder reads, as values: None is the IndexError or struct.error ----

  datatype FieldRead = FieldRead(field: Field, next: nat)

  /** Slicing past the end is no error in the source: a short string read returns what is there. */
  function ReadField(kind: Kind, data: seq<Byte>, offset: nat): (r: Option<FieldRead>) {
    match kind
    case NumberKind(width) =>
      if offset + width > |data| then None
      else Some(FieldRead(Number(width, Unsigned(data[offset..offset + width])), offset + width))
    case TextKind =>
      if offset + 2 > |data| then None else
      var at := offset + 2;
      var end := at + Unsigned(data[offset..at]);
      Some(FieldRead(Text(if end <= |data| then data[at..end] else data[at..]), end))
  }

  function ReadFields(kinds: seq<Kind>, data: seq<Byte>, offset: nat): (r: Option<seq<Field>>) {
    if kinds == [] then Some([]) else
    match ReadField(kinds[0], data, offset)
    case None => None
    case Some(f) =>
      match ReadFields(kinds[1..], data, f.next)
      case None => None
      case Some(rest) => Some([f.field] + rest)
  }

  class Decoder {
    const data: seq<Byte>
    var offset: nat

    constructor (data: seq<Byte>)
      ensures this.data == data && offset == 0
    {
      this.data := data;
      offset := 0;
    }

    method ReadByte() returns (r: Option<Byte>)
      modifies `offset
      ensures if old(offset) < |data| then r == Some(data[old(offset)]) && offset == old(offset) + 1
              else r.None? && offset == old(offset)
    {
      if offset >= |data| {
        return None;
      }
      offset := offset + 1;
      return Some(data[offset - 1]);
    }

    /** read_int16, read_int32 and read_int64 for widths 2, 4 and 8. */
    method ReadInt(width: nat) returns (r: Option<nat>)
      modifies `offset
      ensures match ReadField(NumberKind(width), data, old(offset))
              case None => r.None? && offset == old(offset)
              case Some(f) => r == Some(f.field.v) && offset == f.next
    {
      if offset + width > |data| {
        return None;
      }
      var v := Unsigned(data[offset..offset + width]);
      offset := offset + width;
      return Some(v);
    }

    method ReadString() returns (r: Option<seq<Byte>>)
      modifies `offset
      ensures match ReadField(TextKind, data, old(offset))
              case None => r.None? && offset == old(offset)
              case Some(f) => r == Some(f.field.s) && offset == f.next
    {
      var length := ReadInt(2);
      if length.None? {
        return None;
      }
      if length.value <= 0 {
        return Some([]);
      }
      var end := offset + length.value;
      var raw := if end <= |data| then data[offset..end] else data[offset..];
      offset := end;
      return Some(raw);
    }

    method ReadVariableLength() returns (r: Option<nat>)
      modifies `offset
      ensures match ReadBounded(data, old(offset), 4)
              case None => r.None?
              case Some(s) => r == Some(s.value) && offset == s.next
    {
      var shift: nat, factor: nat, value: nat := 0, 1, 0;
      ghost var left: nat := 4;
      while shift < 27
        invariant shift + 7 * left == 28
        invariant ReadBounded(data, old(offset), 4) == Resumed(value, factor, ReadBounded(data, offset, left))
        decreases left
      {
        ReadStep(data, offset, left, value, factor);
        var b := ReadByte();
        if b.None? {
          return None;
        }
        // the 7-bit groups occupy distinct bits, so the source's "or" is a sum
        value := value + (b.value % 128) * factor;
        if b.value < 128 {
          return Some(value);
        }
        shift, left := shift + 7, left - 1;
        factor := factor * 128;
      }
      return Some(value);
    }
  }

  lemma ReadStep(data: seq<Byte>, offset: nat, left: nat, sum: nat, factor: nat)
    requires left > 0
    ensures Resumed(sum, factor, ReadBounded(data, offset, left)) ==
      if offset >= |data| then None else
      var sum' := sum + (data[offset] % 128) * factor;
      if data[offset] < 128 then Some(Scanned(sum', offset + 1))
      else Resumed(sum', factor * 128, ReadBounded(data, offset + 1, left - 1))
  {
    if offset < |data| && data[offset] >= 128 && ReadBounded(data, offset + 1, left - 1).Some? {
      Regroup(sum, factor, data[offset] - 128, ReadBounded(data, offset + 1, left - 1).value.value);
    }
  }

  // ---- field round trips ----

  lemma SplitAt(data: seq<Byte>, offset: nat, part: seq<Byte>, rest: seq<Byte>)
    requires offset <= |data| && data[offset..] == part + rest
    ensures offset + |part| <= |data|
    ensures data[offset..offset + |part|] == part && data[offset + |part|..] == rest
  {
    assert |data| - offset == |part + rest|;
    assert data[offset..offset + |part|] == data[offset..][..|part|];
    assert data[offset + |part|..] == data[offset..][|part|..];
  }

  lemma NumberReads(data: seq<Byte>, offset: nat, width: nat, v: nat, rest: seq<Byte>)
    requires v < Power256(width) && offset <= |data| && data[offset..] == BigEndian(v, width) + rest
    ensures var next := offset + width;
      next <= |data| && Unsigned(data[offset..next]) == v && data[next..] == rest
  {
    BigEndianRoundTrip(v, width);
    SplitAt(data, offset, BigEndian(v, width), rest);
  }

  lemma TextReads(prefix: seq<Byte>, s: seq<Byte>, data: seq<Byte>, offset: nat, rest: seq<Byte>)
    requires |prefix| == 2 && offset <= |data| && data[offset..] == (prefix + s) + rest
    ensures var at := offset + 2;
      && at + |s| <= |data| && data[offset..at] == prefix
      && data[at..at + |s|] == s && data[at + |s|..] == rest
  {
    assert (prefix + s) + rest == prefix + (s + rest);
    SplitAt(data, offset, prefix, s + rest);
    SplitAt(data, offset + 2, s, rest);
  }

  lemma PrefixedTextReads(prefix: seq<Byte>, s: seq<Byte>, data: seq<Byte>, offset: nat, rest: seq<Byte>)
    requires |prefix| == 2 && Unsigned(prefix) == |s| && offset <= |data| && data[offset..] == (prefix + s) + rest
    ensures var next := offset + |prefix + s|;
      next <= |data| && ReadField(TextKind, data, offset) == Some(FieldRead(Text(s), next)) && data[next..] == rest
  {
    TextReads(prefix, s, data, offset, rest);
  }

  lemma LengthPrefix(n: nat)
    requires n < 0x1_0000
    ensures Unsigned(Pack(n, 2)) == n
  {
    Powers();
    BigEndianRoundTrip(n, 2);
  }

  lemma NumberFieldReads(f: Field, data: seq<Byte>, offset: nat, rest: seq<Byte>)
    requires f.Number? && f.Fits() && offset <= |data| && data[offset..] == f.Wire() + rest
    ensures var next := offset + |f.Wire()|;
      next <= |data| && ReadField(f.Kind(), data, offset) == Some(FieldRead(f, next)) && data[next..] == rest
  {
    NumberReads(data, offset, f.width, f.v, rest);
  }

  lemma TextFieldReads(f: Field, data: seq<Byte>, offset: nat, rest: seq<Byte>)
    requires f.Text? && f.Fits() && offset <= |data| && data[offset..] == f.Wire() + rest
    ensures var next := offset + |f.Wire()|;
      next <= |data| && ReadField(f.Kind(), data, offset) == Some(FieldRead(f, next)) && data[next..] == rest
  {
    LengthPrefix(|f.s|);
    PrefixedTextReads(Pack(|f.s|, 2), f.s, data, offset, rest);
  }

  /** A field that fits reads back, and the reader stops at what follows it. */
  lemma FieldReads(f: Field, data: seq<Byte>, offset: nat, rest: seq<Byte>)
    requires f.Fits() && offset <= |data| && data[offset..] == f.Wire() + rest
    ensures var next := offset + |f.Wire()|;
      next <= |data| && ReadField(f.Kind(), data, offset) == Some(FieldRead(f, next)) && data[next..] == rest
  {
    if f.Number? {
      NumberFieldReads(f, data, offset, rest);
    } else {
      TextFieldReads(f, data, offset, rest);
    }
  }

  /** Whatever the bytes are, a field that was read fits its width. */
  lemma ReadFieldFits(kind: Kind, data: seq<Byte>, offset: nat)
    ensures ReadField(kind, data, offset).Some? ==> ReadField(kind, data, offset).value.field.Fits()
  {
    if ReadField(kind, data, offset).Some? {
      Powers();
      UnsignedBound(data[offset..offset + if kind.TextKind? then 2 else kind.width]);
    }
  }

  function Kinds(fields: seq<Field>): (k: seq<Kind>)
    ensures |k| == |fields| && forall i :: 0 <= i < |k| ==> k[i] == fields[i].Kind()
  {
    if fields == [] then [] else [fields[0].Kind()] + Kinds(fields[1..])
  }

  /** Any list of fields reads back exactly when every field fits. */
  lemma {:induction false} FieldsRoundTrip(fields: seq<Field>, data: seq<Byte>, offset: nat)
    requires offset <= |data| && data[offset..] == Body(fields)
    ensures AllFit(fields) ==> ReadFields(Kinds(fields), data, offset) == Some(fields)
  {
    if fields != [] && AllFit(fields) {
      var f, tail := fields[0], fields[1..];
      FieldReads(f, data, offset, Body(tail));
      var next := ReadField(f.Kind(), data, offset).value.next;
      FieldsRoundTrip(tail, data, next);
      OneMoreField(fields, data, offset, next);
    }
  }

  lemma OneMoreField(fields: seq<Field>, data: seq<Byte>, offset: nat, next: nat)
    requires fields != [] && ReadField(fields[0].Kind(), data, offset) == Some(FieldRead(fields[0], next))
    requires ReadFields(Kinds(fields[1..]), data, next) == Some(fields[1..])
    ensures ReadFields(Kinds(fields), data, offset) == Some(fields)
  {
    assert Kinds(fields)[0] == fields[0].Kind() && Kinds(fields)[1..] == Kinds(fields[1..]);
    assert fields == [fields[0]] + fields[1..];
  }

  /** Whatever the bytes are, the fields read always fit. */
  lemma {:induction false} FieldsReadFit(kinds: seq<Kind>, data: seq<Byte>, offset: nat)
    ensures ReadFields(kinds, data, offset).Some? ==> AllFit(ReadFields(kinds, data, offset).value)
    decreases |kinds|
  {
    if kinds != [] && ReadFields(kinds, data, offset).Some? {
      var f := ReadField(kinds[0], data, offset).value;
      ReadFieldFits(kinds[0], data, offset);
      FieldsReadFit(kinds[1..], data, f.next);
      var rest := ReadFields(kinds[1..], data, f.next).value;
      assert ([f.field] + rest)[1..] == rest;
    }
  }

  // ---- packets ----

  function Framed(packetType: nat, body: seq<Byte>): seq<Byte> {
    Number(1, packetType * 16).Wire() + Encoding(|body|) + body
  }

  method Frame(packetType: nat, body: seq<Byte>) returns (frame: seq<Byte>)
    ensures frame == Framed(packetType, body)
  {
    var enc := new Encoder();
    enc.WriteByte(packetType * 16);
    BodyOfOne(Number(1, packetType * 16));
    var length := EncodeVariableLength(|body|);
    enc.WriteBytes(length);
    enc.WriteBytes(body);
    return enc.buf;
  }

  lemma HeaderByte(packetType: nat)
    requires packetType < 16
    ensures Number(1, packetType * 16).Wire() == [packetType * 16]
  {
    assert BigEndian(packetType * 16, 1) == [packetType * 16];
  }

  /** A framed body is one frame of the stream, whatever follows it. */
  lemma FramedIsFrame(packetType: nat, body: seq<Byte>)
    requires packetType < 16 && packetType != PING && packetType != PONG
    ensures IsFrame(Framed(packetType, body))
  {
    var f := Framed(packetType, body);
    var e := 1 + |Encoding(|body|)|;
    EncodingDenotes(|body|);
    HeaderByte(packetType);
    assert f[1..e] == Encoding(|body|);
    assert HeaderEndsAt(f, e);
  }

  /** Reads a frame the way the packet decoder starts: header byte, length, then the fields. */
  function ReadPacket(kinds: seq<Kind>, frame: seq<Byte>): (r: Option<seq<Field>>) {
    if frame == [] then None else
    match ReadBounded(frame, 1, 4)
    case None => None
    case Some(length) => ReadFields(kinds, frame, length.next)
  }

  /** A body below 2^28 bytes is found by the packet reader at its true place. */
  lemma BodyIsReached(packetType: nat, body: seq<Byte>)
    requires packetType < 16 && |body| < LIMIT
    ensures var frame := Framed(packetType, body);
      && ReadBounded(frame, 1, 4).Some?
      && var at := ReadBounded(frame, 1, 4).value.next; at <= |frame| && frame[at..] == body
  {
    HeaderByte(packetType);
    LengthRoundTrip(|body|, [packetType * 16], body);
    var at := 1 + |Encoding(|body|)|;
    assert Framed(packetType, body)[at..] == body;
  }

  /**
   A packet followed by anything unpacks to itself; its fields read back exactly when they all
   fit, for every body the four-byte length can announce.
   */
  lemma PacketRoundTrip(packetType: nat, fields: seq<Field>, suffix: seq<Byte>)
    requires packetType < 16 && packetType != PING && packetType != PONG
    ensures var frame := Framed(packetType, Body(fields));
      && Unpack(frame + suffix) == Some(Unpacked(frame, suffix))
      && (ReadPacket(Kinds(fields), frame) == Some(fields) ==> AllFit(fields))
      && (|Body(fields)| < LIMIT && AllFit(fields) ==>
          ReadPacket(Kinds(fields), frame) == Some(fields))
  {
    var body := Body(fields);
    var frame := Framed(packetType, body);
    FramedIsFrame(packetType, body);
    FrameUnpacks(frame, suffix);
    if ReadBounded(frame, 1, 4).Some? {
      FieldsReadFit(Kinds(fields), frame, ReadBounded(frame, 1, 4).value.next);
    }
    if |body| < LIMIT {
      BodyIsReached(packetType, body);
      FieldsRoundTrip(fields, frame, ReadBounded(frame, 1, 4).value.next);
    }
  }

  datatype Connect = Connect(version: int, deviceFlag: int, deviceId: seq<Byte>, uid: seq<Byte>,
                             token: seq<Byte>, timestamp: int, clientKey: seq<Byte>)
  {
    function Fields(): seq<Field> {
      [Number(1, version), Number(1, deviceFlag), Text(deviceId), Text(uid), Text(token),
       Number(8, timestamp), Text(clientKey)]
    }

    /** Every field fits the width the wire gives it. */
    predicate Fits() {
      && 0 <= version < 0x100 && 0 <= deviceFlag < 0x100 && 0 <= timestamp < 0x1_0000_0000_0000_0000
      && |deviceId| < TEXT_LIMIT && |uid| < TEXT_LIMIT && |token| < TEXT_LIMIT && |clientKey| < TEXT_LIMIT
    }
  }

  const CONNECT_KINDS: seq<Kind> :=
    [NumberKind(1), NumberKind(1), TextKind, TextKind, TextKind, NumberKind(8), TextKind]

  method EncodeConnectPacket(c: Connect) returns (frame: seq<Byte>)
    ensures frame == Framed(CONNECT, Body(c.Fields()))
  {
    var body := new Encoder();
    body.WriteByte(c.version);
    body.WriteByte(c.deviceFlag);
    body.WriteString(c.deviceId);
    body.WriteString(c.uid);
    body.WriteString(c.token);
    body.WriteInt64(c.timestamp);
    body.WriteString(c.clientKey);
    assert body.fields == c.Fields();
    frame := Frame(CONNECT, body.buf);
  }

  /** Fields that fit, of the widths the wire uses, take at most 65537 bytes each. */
  lemma {:induction false} FittingBodyIsShort(fields: seq<Field>)
    requires AllFit(fields) && forall f <- fields :: f.Number? ==> f.width <= 8
    ensures |Body(fields)| <= |fields| * 0x1_0001
  {
    if fields != [] {
      FittingBodyIsShort(fields[1..]);
    }
  }

  /**
   A CONNECT packet followed by anything unpacks to itself; its fields read back exactly when
   each fits its width (strings 65535 bytes, the timestamp 64 bits).
   */
  lemma ConnectRoundTrip(c: Connect, suffix: seq<Byte>)
    ensures var frame := Framed(CONNECT, Body(c.Fields()));
      && Unpack(frame + suffix) == Some(Unpacked(frame, suffix))
      && (ReadPacket(CONNECT_KINDS, frame) == Some(c.Fields()) <==> c.Fits())
  {
    PacketRoundTrip(CONNECT, c.Fields(), suffix);
    assert Kinds(c.Fields()) == CONNECT_KINDS;
    ConnectFits(c);
    if c.Fits() {
      FittingBodyIsShort(c.Fields());
    }
  }

  lemma ConnectFits(c: Connect)
    ensures c.Fits() <==> AllFit(c.Fields())
  {
    var fields := c.Fields();
    Powers();
    AllFitAt(fields);
    assert c.Fits() <==> fields[0].Fits() && fields[1].Fits() && fields[2].Fits() && fields[3].Fits()
                         && fields[4].Fits() && fields[5].Fits() && fields[6].Fits();
  }

  lemma {:induction false} AllFitAt(fields: seq<Field>)
    ensures AllFit(fields) <==> forall i :: 0 <= i < |fields| ==> fields[i].Fits()
  {
    if fields != [] {
      AllFitAt(fields[1..]);
      assert forall i :: 1 <= i < |fields| ==> fields[i] == fields[1..][i - 1];
    }
  }

  // ---- RECVACK ----

  method EncodeRecvackPacket(messageId: int, messageSeq: int) returns (frame: seq<Byte>)
    ensures frame == Framed(RECVACK, Body([Number(8, messageId), Number(4, messageSeq)]))
  {
    var body := new Encoder();
    body.WriteInt64(messageId);
    body.WriteInt32(messageSeq);
    assert body.fields == [Number(8, messageId), Number(4, messageSeq)];
    frame := Frame(RECVACK, body.buf);
  }

  /** A RECVACK unpacks to itself and reads back exactly when both numbers fit. */
  lemma RecvackRoundTrip(messageId: int, messageSeq: int, suffix: seq<Byte>)
    ensures var fields := [Number(8, messageId), Number(4, messageSeq)];
      var frame := Framed(RECVACK, Body(fields));
      && Unpack(frame + suffix) == Some(Unpacked(frame, suffix))
      && (ReadPacket([NumberKind(8), NumberKind(4)], frame) == Some(fields)
          <==> 0 <= messageId < 0x1_0000_0000_0000_0000 && 0 <= messageSeq < 0x1_0000_0000)
  {
    var fields := [Number(8, messageId), Number(4, messageSeq)];
    BodyAppend([fields[0]], fields[1]);
    BodyAppend([], fields[0]);
    assert [] + [fields[0]] == [fields[0]] && [fields[0]] + [fields[1]] == fields;
    PacketRoundTrip(RECVACK, fields, suffix);
    assert Kinds(fields) == [NumberKind(8), NumberKind(4)];
    Powers();
    AllFitAt(fields);
    assert AllFit(fields) <==> fields[0].Fits() && fields[1].Fits();
  }
}
