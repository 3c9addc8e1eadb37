/**
 Text as code points, and its UTF-16 code units (section 2.1 of RFC 2781): the units in which
 the wire counts mention offsets.
 */
module Utf16 {
  import opened Wrappers

  newtype CodePoint = x: int | 0 <= x < 0x11_0000
  newtype Unit = x: int | 0 <= x < 0x1_0000
  type Text = seq<CodePoint>

  predicate Astral(c: CodePoint) { c > 0xFFFF }

  /** One code unit, or a surrogate pair. */
  function Units(c: CodePoint): (u: seq<Unit>) {
    if !Astral(c) then [c as Unit] else
    var v := c as int - 0x1_0000;
    [(0xD800 + v / 0x400) as Unit, (0xDC00 + v % 0x400) as Unit]
  }

  function Encode(t: Text): seq<Unit> {
    if t == [] then [] else Units(t[0]) + Encode(t[1..])
  }

  /** `_utf16_length`: counted without encoding anything. */
  function Utf16Length(t: Text): nat {
    if t == [] then 0 else (if Astral(t[0]) then 2 else 1) + Utf16Length(t[1..])
  }

  lemma {:induction false} LengthIsEncodedLength(t: Text)
    ensures Utf16Length(t) == |Encode(t)|
  {
    if t != [] {
      LengthIsEncodedLength(t[1..]);
    }
  }

  lemma Regroup<T>(a: seq<T>, b: seq<T>, c: seq<T>)
    ensures a + (b + c) == (a + b) + c
  {
  }

  lemma {:induction false} EncodeAppend(a: Text, b: Text)
    ensures Encode(a + b) == Encode(a) + Encode(b)
  {
    if a == [] {
      assert a + b == b;
    } else {
      EncodeAppend(a[1..], b);
      assert (a + b)[1..] == a[1..] + b;
      Regroup(Units(a[0]), Encode(a[1..]), Encode(b));
    }
  }

  lemma {:induction false} LengthAppend(a: Text, b: Text)
    ensures Utf16Length(a + b) == Utf16Length(a) + Utf16Length(b)
  {
    if a == [] {
      assert a + b == b;
    } else {
      LengthAppend(a[1..], b);
      assert (a + b)[1..] == a[1..] + b;
    }
  }

  lemma {:induction false} LengthBounds(t: Text)
    ensures |t| <= Utf16Length(t) <= 2 * |t|
  {
    if t != [] {
      LengthBounds(t[1..]);
    }
  }

  /** Without astral characters code units and code points are counted alike. */
  lemma {:induction false} BasicLength(t: Text)
    requires forall c <- t :: !Astral(c)
    ensures Utf16Length(t) == |t|
  {
    if t != [] {
      BasicLength(t[1..]);
    }
  }

  // ---- borders between code points ----

  /** The code-point index that lies `units` code units into the text; None inside a pair or past the end. */
  function Border(t: Text, units: nat): (r: Option<nat>)
    ensures r.Some? ==> r.value <= |t|
  {
    if units == 0 then Some(0)
    else if t == [] then None
    else
      var first := if Astral(t[0]) then 2 else 1;
      if units < first then None else
      match Border(t[1..], units - first)
      case None => None
      case Some(i) => Some(i + 1)
  }

  /** `Border` is the inverse of measuring a prefix. */
  lemma {:induction false} BorderMeasures(t: Text, units: nat, i: nat)
    requires i <= |t|
    ensures Border(t, units) == Some(i) <==> Utf16Length(t[..i]) == units
  {
    if i == 0 {
      assert t[..0] == [];
    } else {
      var first := if Astral(t[0]) then 2 else 1;
      assert t[..i][1..] == t[1..][..i - 1];
      if units >= first {
        BorderMeasures(t[1..], units - first, i - 1);
      }
    }
  }

  lemma MaxExists(s: set<nat>)
    requires s != {}
    ensures exists m :: m in s && forall x <- s :: x <= m
  {
    var x :| x in s;
    if s - {x} != {} {
      MaxExists(s - {x});
      var m :| m in s - {x} && forall y <- s - {x} :: y <= m;
      assert forall y <- s :: y == x || y in s - {x};
      var top := if x > m then x else m;
      assert top in s;
    } else {
      assert s == {x};
    }
  }

  /**
   `_utf16_boundaries`: one pass that stops at the largest offset asked for.  It returns exactly
   the requested offsets that fall between two code points.
   */
  method Utf16Boundaries(text: Text, targets: set<nat>) returns (boundaries: map<nat, nat>)
    ensures boundaries == map b | b in targets && Border(text, b).Some? :: Border(text, b).value
  {
    boundaries := if 0 in targets then map[0 := 0] else map[];
    if targets == {} {
      return;
    }
    MaxExists(targets);
    var maxUnits :| maxUnits in targets && forall x <- targets :: x <= maxUnits;
    var units, index := 0, 0;
    while index < |text|
      invariant 0 <= index <= |text| && units == Utf16Length(text[..index])
      invariant forall b :: b in boundaries <==> b in targets && b <= units && Border(text, b).Some?
      invariant forall b <- boundaries :: boundaries[b] == Border(text, b).value
    {
      var c := text[index];
      ghost var before := units;
      LengthAppend(text[..index], [c]);
      assert text[..index + 1] == text[..index] + [c];
      index := index + 1;
      units := units + if Astral(c) then 2 else 1;
      BorderMeasures(text, units, index);
      NoBorderBetween(text, index, before);
      if units in targets {
        boundaries := boundaries[units := index];
      }
      if units >= maxUnits {
        return;
      }
    }
    forall b: nat | Border(text, b).Some? ensures b <= units {
      BorderMeasures(text, b, Border(text, b).value);
      PrefixMonotone(text, Border(text, b).value, |text|);
    }
    assert text[..|text|] == text;
  }

  lemma PrefixMonotone(t: Text, i: nat, j: nat)
    requires i <= j <= |t|
    ensures Utf16Length(t[..i]) + (j - i) <= Utf16Length(t[..j])
  {
    LengthAppend(t[..i], t[i..j]);
    assert t[..j] == t[..i] + t[i..j];
    LengthBounds(t[i..j]);
  }

  /** Between two successive borders there is no third. */
  lemma NoBorderBetween(t: Text, index: nat, before: nat)
    requires 0 < index <= |t| && before == Utf16Length(t[..index - 1])
    ensures forall b :: before < b < Utf16Length(t[..index]) ==> Border(t, b).None?
  {
    forall b | before < b < Utf16Length(t[..index]) ensures Border(t, b).None? {
      if Border(t, b).Some? {
        var i := Border(t, b).value;
        BorderMeasures(t, b, i);
        if i >= index {
          PrefixMonotone(t, index, i);
        } else {
          PrefixMonotone(t, i, index - 1);
        }
      }
    }
  }

  /** Where no astral character comes before `units`, offsets are plain indices. */
  lemma BorderWithoutAstral(t: Text, units: nat, scanned: nat)
    requires units <= scanned
    requires forall i :: 0 <= i < |t| && i < scanned ==> !Astral(t[i])
    ensures Border(t, units) == if units <= |t| then Some(units) else None
  {
    if units <= |t| {
      BasicLength(t[..units]);
      BorderMeasures(t, units, units);
    } else if Border(t, units).Some? {
      BorderMeasures(t, units, Border(t, units).value);
      PrefixMonotone(t, Border(t, units).value, |t|);
      assert t[..|t|] == t;
      BasicLength(t);
    }
  }
}
