/** Sending mentions and reading them back: the two directions of mention.py put together. */
module MentionRoundTrip {
  import opened Wrappers
  import opened Utf16
  import opened Mentions
  import opened MentionReturn

  const MAX_MENTIONS := 64  // entities accepted from a raw wire payload

  function End(s: Segment, points: nat): nat { points + |s.before| + |Shown(s.name)| }

  function Place(s: Segment, points: nat): Range {
    Range(s.uid, points + |s.before|, End(s, points))
  }

  /** Where the kept tokens' `@name` stand in the text sent, in code points. */
  function Places(c: Cuts, points: nat): (rs: seq<Range>) {
    match c
    case End(_) => []
    case Cut(s, rest) =>
      var later := Places(rest, End(s, points));
      if s.kept then [Place(s, points)] + later else later
  }

  predicate Named(c: Cuts) {
    c.Cut? ==> c.first.uid != [] && c.first.name != [] && Named(c.rest)
  }

  /** `content` continues at `points` with the text that `c` shows, `units` code units in. */
  predicate ShownAt(content: Text, c: Cuts, points: nat, units: nat) {
    && points <= |content| && content[points..] == Plain(c)
    && units == Utf16Length(content[..points])
  }

  lemma MeasureSlice(content: Text, a: nat, b: nat)
    requires a <= b <= |content|
    ensures Utf16Length(content[..b]) == Utf16Length(content[..a]) + Utf16Length(content[a..b])
  {
    LengthAppend(content[..a], content[a..b]);
    assert content[..b] == content[..a] + content[a..b];
  }

  lemma PartSlices(content: Text, points: nat, before: Text, shown: Text, rest: Text)
    requires points <= |content| && content[points..] == before + shown + rest
    ensures var start := points + |before|; var end := start + |shown|;
      && end <= |content| && content[points..start] == before && content[start..end] == shown && content[end..] == rest
  {
    var after := content[points..];
    assert |after| == |content| - points;
    var b, e := |before|, |before| + |shown|;
    assert content[points..points + b] == after[..b];
    assert content[points + b..points + e] == after[b..e];
    assert content[points + e..] == after[e..];
  }

  /** One step along the text: the segment's parts and what is shown behind it. */
  lemma SegmentSlices(content: Text, c: Cuts, points: nat, units: nat)
    requires c.Cut? && ShownAt(content, c, points, units)
    ensures var s := c.first; var start := points + |s.before|; var end := End(s, points);
      && end <= |content| && content[points..start] == s.before && content[start..end] == Shown(s.name)
      && Utf16Length(content[..start]) == units + Utf16Length(s.before)
      && ShownAt(content, c.rest, end, UnitsAfter(s, units))
  {
    var s := c.first;
    PartSlices(content, points, s.before, Shown(s.name), Plain(c.rest));
    MeasureSlice(content, points, points + |s.before|);
    MeasureSlice(content, points + |s.before|, End(s, points));
  }

  // ---- every entity is found at its place ----

  lemma EntityFound(content: Text, uid: Text, i: nat, j: nat)
    requires i < j <= |content| && content[i] == AT && uid != []
    ensures var start, end := Utf16Length(content[..i]), Utf16Length(content[..j]);
      Locate(content, Entity(uid, start, end - start)) == Some(Range(uid, i, j))
  {
    BorderMeasures(content, Utf16Length(content[..i]), i);
    BorderMeasures(content, Utf16Length(content[..j]), j);
    PrefixMonotone(content, i, j);
  }

  /** The entity of a kept mention measures the text up to it and through it. */
  lemma OwnEntityMeasures(content: Text, c: Cuts, points: nat, units: nat)
    requires c.Cut? && ShownAt(content, c, points, units)
    ensures var start, end := points + |c.first.before|, End(c.first, points);
      && end <= |content| && content[start..end] == Shown(c.first.name)
      && OwnEntity(c.first, units) ==
           Entity(c.first.uid, Utf16Length(content[..start]), Utf16Length(content[..end]) - Utf16Length(content[..start]))
  {
    SegmentSlices(content, c, points, units);
    MeasureSlice(content, points + |c.first.before|, End(c.first, points));
  }

  lemma OwnEntityFound(content: Text, c: Cuts, points: nat, units: nat)
    requires c.Cut? && ShownAt(content, c, points, units) && c.first.uid != []
    ensures Locate(content, OwnEntity(c.first, units)) == Some(Place(c.first, points))
  {
    var start, end := points + |c.first.before|, End(c.first, points);
    OwnEntityMeasures(content, c, points, units);
    assert content[start] == content[start..end][0];
    EntityFound(content, c.first.uid, start, end);
  }

  lemma {:induction false} EntitiesFound(content: Text, c: Cuts, points: nat, units: nat)
    requires ShownAt(content, c, points, units) && Named(c)
    ensures LocateAll(content, Entities(c, units)) == Places(c, points)
    decreases c
  {
    if c.Cut? {
      SegmentSlices(content, c, points, units);
      EntitiesFound(content, c.rest, End(c.first, points), UnitsAfter(c.first, units));
      OwnEntityFound(content, c, points, units);
      LocateCons(content, OwnEntity(c.first, units), Entities(c.rest, UnitsAfter(c.first, units)));
    }
  }

  lemma LocateCons(content: Text, e: Entity, es: seq<Entity>)
    requires Locate(content, e).Some?
    ensures LocateAll(content, [e] + es) == [Locate(content, e).value] + LocateAll(content, es)
  {
    assert ([e] + es)[1..] == es;
  }

  lemma {:induction false} PlacesApart(c: Cuts, points: nat, from: nat)
    requires from <= points
    ensures Apart(Places(c, points), from)
    decreases c
  {
    if c.Cut? {
      var end := End(c.first, points);
      PlacesApart(c.rest, end, if c.first.kept then end else from);
      assert ([Place(c.first, points)] + Places(c.rest, end))[1..] == Places(c.rest, end);
    }
  }

  lemma {:induction false} PlacesInside(c: Cuts, points: nat)
    ensures forall r <- Places(c, points) :: points <= r.start < r.end <= points + |Plain(c)|
    decreases c
  {
    if c.Cut? {
      PlacesInside(c.rest, End(c.first, points));
    }
  }

  // ---- what comes back ----

  /**
   The text with its kept tokens restored and everything between them neutralized.  A token whose
   uid was not verified stays `@name` and counts as text; `pending` is such text, not yet closed.
   */
  function Restored(c: Cuts, pending: Text): Text {
    match c
    case End(tail) => Neutralize(pending + tail)
    case Cut(s, rest) =>
      if s.kept then Neutralize(pending + s.before) + Token(s.uid, s.name) + Restored(rest, [])
      else Restored(rest, pending + s.before + Shown(s.name))
  }

  lemma RenderCons(content: Text, r: Range, rs: seq<Range>, cursor: nat)
    requires cursor <= r.start < r.end <= |content| && Apart(rs, r.end)
    requires forall q <- rs :: q.start < q.end <= |content|
    ensures Apart([r] + rs, cursor)
    ensures Render(content, [r] + rs, cursor) == Neutralize(content[cursor..r.start])
              + Token(r.uid, content[r.start + 1..r.end]) + Render(content, rs, r.end)
  {
    assert ([r] + rs)[1..] == rs;
  }

  lemma TailRestores(content: Text, tail: Text, cursor: nat, points: nat)
    requires cursor <= points <= |content| && content[points..] == tail
    ensures Render(content, [], cursor) == Neutralize(content[cursor..points] + tail)
  {
    SliceJoin(content, cursor, points, |content|);
    assert content[cursor..|content|] == content[cursor..] && content[points..|content|] == content[points..];
  }

  lemma NameSlice(content: Text, s: Segment, start: nat)
    requires start + |Shown(s.name)| <= |content| && content[start..start + |Shown(s.name)|] == Shown(s.name)
    ensures content[start + 1..start + |Shown(s.name)|] == s.name
  {
    var end := start + |Shown(s.name)|;
    assert content[start + 1..end] == content[start..end][1..];
  }

  /** The place of a kept mention: what is before it, and its name. */
  lemma PlaceParts(content: Text, s: Segment, cursor: nat, points: nat)
    requires cursor <= points && End(s, points) <= |content|
    requires content[points..points + |s.before|] == s.before
    requires content[points + |s.before|..End(s, points)] == Shown(s.name)
    ensures var r := Place(s, points);
      && cursor <= r.start < r.end == End(s, points) && r.uid == s.uid
      && content[cursor..r.start] == content[cursor..points] + s.before && content[r.start + 1..r.end] == s.name
  {
    SliceJoin(content, cursor, points, points + |s.before|);
    NameSlice(content, s, points + |s.before|);
  }

  lemma KeptRestores(content: Text, s: Segment, rs: seq<Range>, cursor: nat, points: nat)
    requires cursor <= points && End(s, points) <= |content|
    requires content[points..points + |s.before|] == s.before
    requires content[points + |s.before|..End(s, points)] == Shown(s.name)
    requires Apart(rs, End(s, points)) && forall q <- rs :: q.start < q.end <= |content|
    ensures Apart([Place(s, points)] + rs, cursor)
    ensures Render(content, [Place(s, points)] + rs, cursor) ==
      Neutralize(content[cursor..points] + s.before) + Token(s.uid, s.name) + Render(content, rs, End(s, points))
  {
    PlaceParts(content, s, cursor, points);
    RenderCons(content, Place(s, points), rs, cursor);
  }

  lemma {:induction false} RenderRestores(content: Text, c: Cuts, cursor: nat, points: nat, units: nat, pending: Text)
    requires cursor <= points && ShownAt(content, c, points, units) && pending == content[cursor..points]
    requires Apart(Places(c, points), cursor)
    requires forall r <- Places(c, points) :: r.start < r.end <= |content|
    ensures Render(content, Places(c, points), cursor) == Restored(c, pending)
    decreases c
  {
    match c {
      case End(tail) =>
        TailRestores(content, tail, cursor, points);
      case Cut(s, rest) =>
        var start, end := points + |s.before|, End(s, points);
        SegmentSlices(content, c, points, units);
        PlacesApart(rest, end, if s.kept then end else cursor);
        if s.kept {
          assert content[end..end] == [];
          RenderRestores(content, rest, end, end, UnitsAfter(s, units), []);
          KeptRestores(content, s, Places(rest, end), cursor, points);
        } else {
          PendingGrows(content, cursor, points, start, end);
          RenderRestores(content, rest, cursor, end, UnitsAfter(s, units), pending + s.before + Shown(s.name));
        }
    }
  }

  lemma PendingGrows(content: Text, cursor: nat, points: nat, start: nat, end: nat)
    requires cursor <= points <= start <= end <= |content|
    ensures content[cursor..end] == content[cursor..points] + content[points..start] + content[start..end]
  {
  }

  /**
   Sending and reading back: every verified token returns exactly, and the text between the
   verified tokens returns neutralized.
   */
  lemma RoundTrip(c: Cuts)
    requires Named(c)
    ensures ConvertBack(Plain(c), Entities(c, 0)) == Restored(c, [])
  {
    var content, rs := Plain(c), Places(c, 0);
    assert content[0..] == content && content[..0] == [] && content[0..0] == [];
    EntitiesFound(content, c, 0, 0);
    PlacesApart(c, 0, 0);
    PlacesInside(c, 0);
    SortKeepsApart(rs, 0);
    ApartIffNotOverlapping(rs, 0);
    RenderRestores(content, c, 0, 0, 0, []);
    if rs == [] {
      assert Render(content, rs, 0) == Neutralize(content);
    }
  }

  // ---- when the original comes back ----

  predicate AllKept(c: Cuts) { c.Cut? ==> c.first.kept && AllKept(c.rest) }

  /** No `@[` in the text around the tokens. */
  predicate CleanAround(c: Cuts) {
    match c
    case End(tail) => Clean(tail)
    case Cut(s, rest) => Clean(s.before) && CleanAround(rest)
  }

  lemma {:induction false} RestoredIsOriginal(c: Cuts)
    requires AllKept(c)
    ensures |Restored(c, [])| == |Original(c)|
    ensures Restored(c, []) == Original(c) <==> CleanAround(c)
    decreases c
  {
    match c {
      case End(tail) =>
        assert [] + tail == tail;
        NeutralizeCleans(tail);
      case Cut(s, rest) =>
        assert [] + s.before == s.before;
        NeutralizeCleans(s.before);
        RestoredIsOriginal(rest);
        SameParts(Neutralize(s.before), Token(s.uid, s.name), Restored(rest, []), s.before, Original(rest));
    }
  }

  lemma SameParts(a: Text, token: Text, b: Text, a': Text, b': Text)
    requires |a| == |a'| && |b| == |b'|
    ensures a + token + b == a' + token + b' <==> a == a' && b == b'
  {
    var l, r := a + token + b, a' + token + b';
    assert l[..|a|] == a && r[..|a|] == a';
    assert l[|a| + |token|..] == b && r[|a| + |token|..] == b';
  }

  // ---- the wire keeps 64 entities ----

  /** The cuts with an entity for the first `n` kept tokens only. */
  function Truncated(c: Cuts, n: nat): Cuts {
    match c
    case End(_) => c
    case Cut(s, rest) =>
      if s.kept && n > 0 then Cut(s, Truncated(rest, n - 1)) else Cut(s.(kept := false), Truncated(rest, n))
  }

  function Received(es: seq<Entity>, n: nat): seq<Entity> {
    if |es| <= n then es else es[..n]
  }

  lemma {:induction false} TruncatedShowsSame(c: Cuts, n: nat)
    ensures Plain(Truncated(c, n)) == Plain(c) && Original(Truncated(c, n)) == Original(c)
    ensures Named(c) ==> Named(Truncated(c, n))
    decreases c
  {
    if c.Cut? {
      TruncatedShowsSame(c.rest, if c.first.kept && n > 0 then n - 1 else n);
    }
  }

  lemma {:induction false} TruncatedSends(c: Cuts, n: nat, units: nat)
    ensures Entities(Truncated(c, n), units) == Received(Entities(c, units), n)
    decreases c
  {
    if c.Cut? {
      var next := UnitsAfter(c.first, units);
      TruncatedSends(c.rest, if c.first.kept && n > 0 then n - 1 else n, next);
      if n > 0 {
        ReceivedCons(OwnEntity(c.first, units), Entities(c.rest, next), n);
      }
    }
  }

  lemma ReceivedCons(e: Entity, es: seq<Entity>, n: nat)
    requires n > 0
    ensures Received([e] + es, n) == [e] + Received(es, n - 1)
  {
  }

  lemma {:induction false} TruncatedSame(c: Cuts, n: nat)
    requires AllKept(c) && c.Count() <= n
    ensures Truncated(c, n) == c
    decreases c
  {
    if c.Cut? {
      TruncatedSame(c.rest, n - 1);
    }
  }

  /** A token that lost its entity comes back shorter than it was. */
  lemma {:induction false} RestoredLength(c: Cuts, pending: Text)
    ensures |Restored(c, pending)| <= |pending| + |Original(c)|
    ensures !AllKept(c) ==> |Restored(c, pending)| < |pending| + |Original(c)|
    decreases c
  {
    if c.Cut? {
      var s := c.first;
      RestoredLength(c.rest, if s.kept then [] else pending + s.before + Shown(s.name));
    }
  }

  lemma {:induction false} TooManyAreDropped(c: Cuts, n: nat)
    requires c.Count() > n
    ensures !AllKept(Truncated(c, n))
    decreases c
  {
    if c.first.kept && n > 0 {
      TooManyAreDropped(c.rest, n - 1);
    }
  }

  /** Verified tokens come back over a wire that keeps `n` entities exactly when there are no more of them. */
  lemma TruncatedRoundTrip(c: Cuts, n: nat)
    requires Named(c) && AllKept(c)
    ensures ConvertBack(Plain(c), Received(Entities(c, 0), n)) == Original(c) <==> CleanAround(c) && c.Count() <= n
  {
    TruncatedShowsSame(c, n);
    TruncatedSends(c, n, 0);
    RoundTrip(Truncated(c, n));
    if c.Count() <= n {
      TruncatedSame(c, n);
      RestoredIsOriginal(c);
    } else {
      TooManyAreDropped(c, n);
      RestoredLength(Truncated(c, n), []);
    }
  }

  /**
   The whole path of a text with verified mentions over the wire, where a raw payload keeps 64
   entities: the original comes back exactly when no `@[` stands outside the tokens and there are
   at most 64 tokens.
   */
  lemma WireRoundTrip(isUid: CodePoint -> bool, text: Text)
    ensures InOrder(text, Parse(isUid, text, 0), 0)
    ensures var c := CutAt(text, Parse(isUid, text, 0), 0, None);
      var returned := ConvertBack(Plain(c), Received(Entities(c, 0), MAX_MENTIONS));
      (returned == text) == (CleanAround(c) && |Parse(isUid, text, 0)| <= MAX_MENTIONS)
  {
    var ms := Parse(isUid, text, 0);
    ParseInOrder(isUid, text, 0, 0);
    CutsAreTheText(text, ms, 0, None);
    assert text[0..] == text;
    CutsNamed(isUid, text, 0, 0);
    TruncatedRoundTrip(CutAt(text, ms, 0, None), MAX_MENTIONS);
  }

  lemma {:induction false} CutsNamed(isUid: CodePoint -> bool, text: Text, from: nat, cursor: nat)
    requires cursor <= from <= |text| && InOrder(text, Parse(isUid, text, from), cursor)
    ensures var c := CutAt(text, Parse(isUid, text, from), cursor, None); Named(c) && AllKept(c)
    decreases |text| - from
  {
    if from < |text| {
      match MatchAt(isUid, text, from) {
        case None => CutsNamed(isUid, text, from + 1, cursor);
        case Some(m) =>
          MatchedIsToken(isUid, text, from);
          assert Parse(isUid, text, from)[1..] == Parse(isUid, text, from + m.length);
          CutsNamed(isUid, text, from + m.length, from + m.length);
      }
    }
  }
}
