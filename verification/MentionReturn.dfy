/**
 Mentions on the way in: `convert_content_for_llm` turns `@name` plus its entity sidecar back into
 `@[uid:name]`, and neutralizes every other `@[` so that users cannot forge a token.
 */
module MentionReturn {
  import opened Wrappers
  import opened Utf16
  import opened Mentions

  const FULLWIDTH_AT: CodePoint := 0xFF20

  // ---- neutralizing ----

  /** `text.replace("@[", "＠[")`. */
  function Neutralize(t: Text): (r: Text)
    ensures |r| == |t|
  {
    if t == [] then []
    else if |t| >= 2 && t[0] == AT && t[1] == OPEN then [FULLWIDTH_AT, OPEN] + Neutralize(t[2..])
    else [t[0]] + Neutralize(t[1..])
  }

  predicate EnvelopeAt(t: Text, i: nat) {
    i + 1 < |t| && t[i] == AT && t[i + 1] == OPEN
  }

  predicate Clean(t: Text) {
    forall i: nat :: i < |t| ==> !EnvelopeAt(t, i)
  }

  /** Exactly the `@` of every `@[` changes. */
  lemma {:induction false} NeutralizedAt(t: Text, i: nat)
    requires i < |t|
    ensures Neutralize(t)[i] == if EnvelopeAt(t, i) then FULLWIDTH_AT else t[i]
    decreases |t|
  {
    if EnvelopeAt(t, 0) {
      if i >= 2 {
        NeutralizedAt(t[2..], i - 2);
        assert EnvelopeAt(t[2..], i - 2) <==> EnvelopeAt(t, i);
      }
    } else if i >= 1 {
      NeutralizedAt(t[1..], i - 1);
      assert EnvelopeAt(t[1..], i - 1) <==> EnvelopeAt(t, i);
    }
  }

  /** No envelope survives, and a text without one is left alone. */
  lemma NeutralizeCleans(t: Text)
    ensures Clean(Neutralize(t))
    ensures Neutralize(t) == t <==> Clean(t)
  {
    forall i: nat | i < |t| ensures !EnvelopeAt(Neutralize(t), i) && (EnvelopeAt(t, i) ==> Neutralize(t)[i] != t[i]) {
      NeutralizedAt(t, i);
      if i + 1 < |t| {
        NeutralizedAt(t, i + 1);
      }
    }
    if Clean(t) {
      forall i | 0 <= i < |t| ensures Neutralize(t)[i] == t[i] {
        NeutralizedAt(t, i);
      }
    }
  }

  // ---- locating entities ----

  datatype Range = Range(uid: Text, start: nat, end: nat)

  /** The entity's range in code points, when both ends fall between characters and it begins with `@`. */
  function Locate(content: Text, e: Entity): (r: Option<Range>)
    ensures r.Some? ==> r.value.start < r.value.end <= |content|
  {
    if e.uid == [] || e.offset < 0 || e.length <= 0 then None else
    match (Border(content, e.offset), Border(content, e.offset + e.length))
    case (Some(start), Some(end)) =>
      if start < end && content[start] == AT then Some(Range(e.uid, start, end)) else None
    case _ => None
  }

  function LocateAll(content: Text, es: seq<Entity>): (rs: seq<Range>)
    ensures forall r <- rs :: r.start < r.end <= |content|
  {
    if es == [] then [] else
    var rest := LocateAll(content, es[1..]);
    match Locate(content, es[0])
    case None => rest
    case Some(r) => [r] + rest
  }

  predicate Usable(e: Entity) { e.uid != [] && e.offset >= 0 && e.length > 0 }

  function Targets(content: Text, es: seq<Entity>): (ts: set<nat>)
    ensures forall e <- es :: Usable(e) && e.offset <= 2 * |content| ==> e.offset in ts
    ensures forall e <- es :: Usable(e) && e.offset + e.length <= 2 * |content| ==> e.offset + e.length in ts
    ensures forall t <- ts :: t <= 2 * |content|
  {
    if es == [] then {} else
    var e, rest := es[0], Targets(content, es[1..]);
    if !Usable(e) then rest else
    rest + (if e.offset <= 2 * |content| then {e.offset as nat} else {})
         + (if e.offset + e.length <= 2 * |content| then {e.offset + e.length} else {})
  }

  /**
   The two ways the source finds a border: a plain index when the scanned prefix has no astral
   character, else the table that one pass over the text has made.  They always agree.
   */
  lemma FastPathAgrees(content: Text, targets: set<nat>, maxEnd: nat, boundary: nat)
    requires forall t <- targets :: t <= maxEnd
    requires boundary in targets || boundary > 2 * |content|
    requires forall i :: 0 <= i < |content| && i < maxEnd ==> !Astral(content[i])
    ensures Border(content, boundary) == if boundary <= |content| then Some(boundary) else None
  {
    if boundary in targets {
      BorderWithoutAstral(content, boundary, maxEnd);
    } else {
      NoBorderBeyond(content, boundary);
    }
  }

  lemma NoBorderBeyond(content: Text, boundary: nat)
    requires boundary > 2 * |content|
    ensures Border(content, boundary).None?
  {
    if Border(content, boundary).Some? {
      var i := Border(content, boundary).value;
      BorderMeasures(content, boundary, i);
      LengthBounds(content[..i]);
    }
  }

  /** The largest of the targets, 0 when there is none. */
  method MaxTarget(targets: set<nat>) returns (maxEnd: nat)
    ensures forall t <- targets :: t <= maxEnd
    ensures targets != {} ==> maxEnd in targets
    ensures targets == {} ==> maxEnd == 0
  {
    if targets == {} {
      return 0;
    }
    MaxExists(targets);
    maxEnd :| maxEnd in targets && forall t <- targets :: t <= maxEnd;
  }

  /** One offset looked up on the chosen path. */
  method FindBorder(content: Text, fast: bool, boundaries: map<nat, nat>, ghost targets: set<nat>, ghost maxEnd: nat, b: nat)
    returns (border: Option<nat>)
    requires forall t <- targets :: t <= maxEnd
    requires b in targets || b > 2 * |content|
    requires fast ==> forall i :: 0 <= i < |content| && i < maxEnd ==> !Astral(content[i])
    requires !fast ==> boundaries == map t | t in targets && Border(content, t).Some? :: Border(content, t).value
    ensures border == Border(content, b)
  {
    if fast {
      FastPathAgrees(content, targets, maxEnd, b);
      return if b <= |content| then Some(b) else None;
    }
    if b !in targets {
      NoBorderBeyond(content, b);
    }
    return if b in boundaries then Some(boundaries[b]) else None;
  }

  /** The range of one entity, if it is usable and begins at an `@`. */
  method EntityRange(content: Text, e: Entity, fast: bool, boundaries: map<nat, nat>, targets: set<nat>, maxEnd: nat)
    returns (found: Option<Range>)
    requires forall t <- targets :: t <= maxEnd
    requires Usable(e) ==> forall b <- {e.offset, e.offset + e.length} :: b in targets || b > 2 * |content|
    requires fast ==> forall i :: 0 <= i < |content| && i < maxEnd ==> !Astral(content[i])
    requires !fast ==> boundaries == map t | t in targets && Border(content, t).Some? :: Border(content, t).value
    ensures found == Locate(content, e)
  {
    if !Usable(e) {
      return None;
    }
    var start := FindBorder(content, fast, boundaries, targets, maxEnd, e.offset);
    var end := FindBorder(content, fast, boundaries, targets, maxEnd, e.offset + e.length);
    if start.Some? && end.Some? && start.value < end.value && content[start.value] == AT {
      return Some(Range(e.uid, start.value, end.value));
    }
    found := None;
  }

  /** The entity loop with its two paths. */
  method EntityRanges(content: Text, entities: seq<Entity>) returns (ranges: seq<Range>)
    ensures ranges == LocateAll(content, entities)
  {
    var targets := Targets(content, entities);
    var maxEnd := MaxTarget(targets);
    var fast := forall i :: 0 <= i < |content| && i < maxEnd ==> !Astral(content[i]);
    var boundaries := map[];
    if !fast {
      boundaries := Utf16Boundaries(content, targets);
    }
    ranges := [];
    var k := 0;
    ghost var left := entities;
    while k < |entities|
      invariant 0 <= k <= |entities| && left == entities[k..]
      invariant ranges + LocateAll(content, left) == LocateAll(content, entities)
    {
      var e := entities[k];
      var found := EntityRange(content, e, fast, boundaries, targets, maxEnd);
      assert LocateAll(content, left) == (if found.Some? then [found.value] else []) + LocateAll(content, left[1..]);
      if found.Some? {
        Regroup(ranges, [found.value], LocateAll(content, left[1..]));
        ranges := ranges + [found.value];
      }
      left := left[1..];
      k := k + 1;
    }
  }

  // ---- sorting and overlap ----

  function Insert(r: Range, rs: seq<Range>): (s: seq<Range>)
    ensures multiset(s) == multiset(rs) + multiset{r}
  {
    if rs == [] || r.start <= rs[0].start then
      [r] + rs
    else
      assert rs == [rs[0]] + rs[1..];
      [rs[0]] + Insert(r, rs[1..])
  }

  /** The stable sort by start. */
  function SortByStart(rs: seq<Range>): (s: seq<Range>)
    ensures multiset(s) == multiset(rs)
  {
    if rs == [] then [] else
    assert rs == [rs[0]] + rs[1..];
    Insert(rs[0], SortByStart(rs[1..]))
  }

  /** Each range begins no earlier than the one before it ends. */
  predicate Apart(rs: seq<Range>, from: nat) {
    rs == [] || (from <= rs[0].start <= rs[0].end && Apart(rs[1..], rs[0].end))
  }

  lemma {:induction false} SortKeepsApart(rs: seq<Range>, from: nat)
    requires Apart(rs, from)
    ensures SortByStart(rs) == rs
    decreases |rs|
  {
    if rs != [] {
      SortKeepsApart(rs[1..], rs[0].end);
    }
  }

  predicate Overlapping(rs: seq<Range>) {
    exists k :: 0 <= k < |rs| - 1 && rs[k + 1].start < rs[k].end
  }

  lemma {:induction false} ApartIffNotOverlapping(rs: seq<Range>, from: nat)
    requires rs != [] ==> from <= rs[0].start
    requires forall r <- rs :: r.start <= r.end
    ensures Apart(rs, from) <==> !Overlapping(rs)
    decreases |rs|
  {
    if |rs| >= 2 {
      var tail := rs[1..];
      if rs[0].end <= tail[0].start {
        ApartIffNotOverlapping(tail, rs[0].end);
        if Overlapping(tail) {
          var k :| 0 <= k < |tail| - 1 && tail[k + 1].start < tail[k].end;
          assert rs[k + 2].start < rs[k + 1].end;
        }
        if Overlapping(rs) {
          var k :| 0 <= k < |rs| - 1 && rs[k + 1].start < rs[k].end;
          assert tail[k].start < tail[k - 1].end;
        }
      } else {
        assert rs[0 + 1].start < rs[0].end;
      }
    }
  }

  // ---- rendering ----

  function Render(content: Text, rs: seq<Range>, cursor: nat): Text
    requires cursor <= |content| && Apart(rs, cursor) && forall r <- rs :: r.start < r.end <= |content|
    decreases |rs|
  {
    if rs == [] then Neutralize(content[cursor..]) else
    var r := rs[0];
    Replaced(content, r, cursor) + Render(content, rs[1..], r.end)
  }

  /** The text up to one range, neutralized, and the token in the place of the range. */
  function Replaced(content: Text, r: Range, cursor: nat): Text
    requires cursor <= r.start < r.end <= |content|
  {
    Neutralize(content[cursor..r.start]) + Token(r.uid, content[r.start + 1..r.end])
  }

  method RenderTrustedReplacements(content: Text, rs: seq<Range>) returns (text: Text)
    requires Apart(rs, 0) && forall r <- rs :: r.start < r.end <= |content|
    ensures text == Render(content, rs, 0)
  {
    text := [];
    var cursor: nat, k := 0, 0;
    ghost var left := rs;
    while k < |rs|
      invariant 0 <= k <= |rs| && left == rs[k..] && cursor <= |content| && Apart(left, cursor)
      invariant text + Render(content, left, cursor) == Render(content, rs, 0)
    {
      var r := rs[k];
      Regroup(text, Replaced(content, r, cursor), Render(content, left[1..], r.end));
      text := text + Replaced(content, r, cursor);
      cursor := r.end;
      left := left[1..];
      k := k + 1;
    }
    text := text + Neutralize(content[cursor..]);
  }

  /** The entity path of `convert_content_for_llm`, and its fallback when there is no member map and no uid list. */
  function ConvertBack(content: Text, entities: seq<Entity>): Text {
    var ranges := SortByStart(LocateAll(content, entities));
    SortedRangesInside(content, entities);
    if ranges != [] && !Overlapping(ranges) then
      ApartIffNotOverlapping(ranges, 0);
      Render(content, ranges, 0)
    else Neutralize(content)
  }

  lemma SortedRangesInside(content: Text, entities: seq<Entity>)
    ensures forall r <- SortByStart(LocateAll(content, entities)) :: r.start < r.end <= |content|
  {
    var rs := LocateAll(content, entities);
    forall r | r in SortByStart(rs) ensures r.start < r.end <= |content| {
      assert r in multiset(SortByStart(rs));
    }
  }

  method ConvertContentForLlm(content: Text, entities: seq<Entity>) returns (text: Text)
    ensures text == ConvertBack(content, entities)
  {
    var ranges := EntityRanges(content, entities);
    ranges := SortByStart(ranges);
    SortedRangesInside(content, entities);
    var overlaps := exists k :: 0 <= k < |ranges| - 1 && ranges[k + 1].start < ranges[k].end;
    if ranges != [] && !overlaps {
      ApartIffNotOverlapping(ranges, 0);
      text := RenderTrustedReplacements(content, ranges);
    } else {
      text := Neutralize(content);
    }
  }
}
