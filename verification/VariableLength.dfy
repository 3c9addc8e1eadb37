/**
 The MQTT-style "remaining length" field: 7 bits a byte, least significant group first,
 the top bit saying that another byte follows.  Three pieces of code handle it: the encoder,
 the decoder method that stops after four bytes, and the frame splitter, which does not.
 */
module VariableLength {
  import opened Bytes
  import opened Wrappers

  const LIMIT := 0x1000_0000  // 2^28, the first length four bytes cannot hold

  /** The grammar of a length field: continuation bytes, then one byte below 128. */
  predicate IsField(l: seq<Byte>) {
    && l != []
    && l[|l| - 1] < 128
    && forall i :: 0 <= i < |l| - 1 ==> l[i] >= 128
  }

  /** The number a length field denotes. */
  function Value(l: seq<Byte>): nat {
    if l == [] then 0 else l[0] % 128 + 128 * Value(l[1..])
  }

  /** The encoding the sender emits. */
  function Encoding(n: nat): (l: seq<Byte>)
    ensures l != []
  {
    if n < 128 then [n] else [n % 128 + 128] + Encoding(n / 128)
  }

  method EncodeVariableLength(length: nat) returns (result: seq<Byte>)
    ensures result == Encoding(length)
  {
    if length == 0 {
      return [0];
    }
    result := [];
    var rest := length;
    while rest > 0
      invariant if rest > 0 then result + Encoding(rest) == Encoding(length) else result == Encoding(length)
    {
      var digit := rest % 0x80;
      ghost var before, was := result, rest;
      rest := rest / 0x80;
      if rest > 0 {
        digit := digit + 0x80;
      }
      result := result + [digit];
      assert rest > 0 ==> before + Encoding(was) == result + Encoding(rest);
    }
  }

  /** What the sender emits is a length field and denotes the length. */
  lemma {:induction false} EncodingDenotes(n: nat)
    ensures IsField(Encoding(n)) && Value(Encoding(n)) == n
  {
    if n >= 128 {
      EncodingDenotes(n / 128);
      var l := Encoding(n);
      assert l[1..] == Encoding(n / 128);
      forall i | 0 <= i < |l| - 1 ensures l[i] >= 128 {
        if i > 0 {
          assert l[i] == Encoding(n / 128)[i - 1];
        }
      }
    }
  }

  ghost function Power128(k: nat): (p: nat)
    ensures p > 0
  {
    if k == 0 then 1 else 128 * Power128(k - 1)
  }

  /** k bytes are enough exactly for the numbers below 128^k. */
  lemma {:induction false} EncodingSize(n: nat, k: nat)
    requires k > 0
    ensures |Encoding(n)| <= k <==> n < Power128(k)
  {
    if n < 128 {
      assert Power128(k) == 128 * Power128(k - 1);
    } else if k > 1 {
      EncodingSize(n / 128, k - 1);
      assert Power128(k) == 128 * Power128(k - 1);
    } else {
      assert Power128(1) == 128 * Power128(0);
    }
  }

  /** Below 2^28 an encoded length takes one to four bytes, and at or above it takes more. */
  lemma EncodingFitsFourBytes(n: nat)
    ensures 1 <= |Encoding(n)| <= 4 <==> n < LIMIT
  {
    EncodingSize(n, 4);
    assert Power128(1) == 128 * Power128(0);
    assert Power128(2) == 128 * Power128(1);
    assert Power128(3) == 128 * Power128(2);
    assert Power128(4) == 128 * Power128(3);
  }

  // ---- the frame splitter's reader: no limit on the number of bytes ----

  datatype Scanned = Scanned(value: nat, next: nat)

  /** Reads a length field at `pos`; None when the buffer ends inside it. */
  function Scan(buf: seq<Byte>, pos: nat): (r: Option<Scanned>)
    ensures r.Some? ==> pos < r.value.next <= |buf|
    decreases |buf| - pos
  {
    if pos >= |buf| then None
    else if buf[pos] < 128 then Some(Scanned(buf[pos], pos + 1))
    else match Scan(buf, pos + 1)
      case None => None
      case Some(s) => Some(Scanned(buf[pos] - 128 + 128 * s.value, s.next))
  }

  /** The reader finds a length field exactly where the grammar says there is one. */
  lemma {:induction false} ScanFindsField(buf: seq<Byte>, pos: nat)
    ensures Scan(buf, pos).Some? ==>
      var s := Scan(buf, pos).value;
      IsField(buf[pos..s.next]) && Value(buf[pos..s.next]) == s.value
    decreases |buf| - pos
  {
    if pos < |buf| && Scan(buf, pos).Some? {
      var s := Scan(buf, pos).value;
      var l := buf[pos..s.next];
      if buf[pos] >= 128 {
        ScanFindsField(buf, pos + 1);
        var tail := buf[pos + 1..s.next];
        assert l[1..] == tail;
        assert forall i :: 1 <= i < |l| - 1 ==> l[i] == tail[i - 1];
      } else {
        assert l[1..] == [];
      }
    }
  }

  lemma {:induction false} FieldIsScanned(buf: seq<Byte>, pos: nat, end: nat)
    requires pos <= end <= |buf| && IsField(buf[pos..end])
    ensures Scan(buf, pos) == Some(Scanned(Value(buf[pos..end]), end))
    decreases |buf| - pos
  {
    var l := buf[pos..end];
    assert l[0] == buf[pos];
    if |l| == 1 {
      assert l[1..] == [];
    } else {
      assert l[1..] == buf[pos + 1..end];
      assert forall i :: 0 <= i < |l[1..]| ==> l[1..][i] == l[i + 1];
      FieldIsScanned(buf, pos + 1, end);
    }
  }

  // ---- the decoder's reader: at most four bytes, an IndexError past the end ----

  /** `left` is how many bytes may still be read. */
  function ReadBounded(data: seq<Byte>, offset: nat, left: nat): (r: Option<Scanned>)
    ensures r.Some? ==> offset <= r.value.next <= offset + left
    decreases left
  {
    if left == 0 then Some(Scanned(0, offset))
    else if offset >= |data| then None
    else if data[offset] < 128 then Some(Scanned(data[offset], offset + 1))
    else match ReadBounded(data, offset + 1, left - 1)
      case None => None
      case Some(s) => Some(Scanned(data[offset] - 128 + 128 * s.value, s.next))
  }

  lemma {:induction false} BoundedReadsField(data: seq<Byte>, offset: nat, end: nat, left: nat)
    requires offset <= end <= |data| && IsField(data[offset..end])
    ensures ReadBounded(data, offset, left).Some?
    ensures end - offset <= left ==> ReadBounded(data, offset, left) == Some(Scanned(Value(data[offset..end]), end))
    ensures end - offset > left ==> ReadBounded(data, offset, left).value.next == offset + left < end
    decreases left
  {
    var l := data[offset..end];
    assert l[0] == data[offset];
    if left > 0 {
      if |l| == 1 {
        assert l[1..] == [];
      } else {
        assert l[1..] == data[offset + 1..end];
        assert forall i :: 0 <= i < |l[1..]| ==> l[1..][i] == l[i + 1];
        BoundedReadsField(data, offset + 1, end, left - 1);
      }
    }
  }

  /**
   An encoded length followed by anything: the splitter always reads the length back; the
   decoder's four-byte reader agrees with it, in value and in header size, exactly below 2^28.
   */
  lemma LengthRoundTrip(n: nat, before: seq<Byte>, after: seq<Byte>)
    ensures var data, at := before + Encoding(n) + after, |before|;
      var read := Some(Scanned(n, at + |Encoding(n)|));
      Scan(data, at) == read && (ReadBounded(data, at, 4) == read <==> n < LIMIT)
  {
    var data, at := before + Encoding(n) + after, |before|;
    var end := at + |Encoding(n)|;
    assert data[at..end] == Encoding(n);
    EncodingDenotes(n);
    FieldIsScanned(data, at, end);
    BoundedReadsField(data, at, end, 4);
    EncodingFitsFourBytes(n);
  }
}
