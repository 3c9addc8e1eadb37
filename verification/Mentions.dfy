/**
 Structured mentions on the way out: finding `@[uid:name]` tokens and replacing them by `@name`
 with an entity sidecar counted in UTF-16 code units (`mention.py`).
 */
module Mentions {
  import opened Wrappers
  import opened Utf16

  const AT: CodePoint := 0x40
  const OPEN: CodePoint := 0x5B
  const CLOSE: CodePoint := 0x5D
  const COLON: CodePoint := 0x3A
  const NEWLINE: CodePoint := 0x0A

  datatype Mention = Mention(uid: Text, name: Text, offset: nat, length: nat)

  function Token(uid: Text, name: Text): Text { [AT, OPEN] + uid + [COLON] + name + [CLOSE] }

  function Shown(name: Text): Text { [AT] + name }

  predicate NameChar(c: CodePoint) { c != CLOSE && c != NEWLINE }

  // ---- the token pattern ----

  /** The grammar of a token, as the regular expression states it. */
  predicate IsToken(isUid: CodePoint -> bool, t: Text, uid: Text, name: Text) {
    && t == Token(uid, name)
    && uid != [] && (forall c <- uid :: isUid(c))
    && name != [] && (forall c <- name :: NameChar(c))
  }

  /** Where the longest run of accepted characters starting at `i` ends. */
  function RunEnd(text: Text, i: nat, accept: CodePoint -> bool): (e: nat)
    requires i <= |text|
    ensures i <= e <= |text|
    ensures forall k :: i <= k < e ==> accept(text[k])
    ensures e < |text| ==> !accept(text[e])
    decreases |text| - i
  {
    if i < |text| && accept(text[i]) then RunEnd(text, i + 1, accept) else i
  }

  /** The pattern tried at one position.  `:` is no uid character, so no backtracking can help. */
  function MatchAt(isUid: CodePoint -> bool, text: Text, i: nat): (r: Option<Mention>)
    ensures r.Some? ==> r.value.offset == i && 5 < r.value.length && i + r.value.length <= |text|
  {
    if i + 2 > |text| || text[i] != AT || text[i + 1] != OPEN then None else
    var u := RunEnd(text, i + 2, isUid);
    if u == i + 2 || u == |text| || text[u] != COLON then None else
    var n := RunEnd(text, u + 1, NameChar);
    if n == u + 1 || n == |text| || text[n] != CLOSE then None else
    Some(Mention(text[i + 2..u], text[u + 1..n], i, n + 1 - i))
  }

  lemma Layout(a: Text, b: Text, text: Text, i: nat, k: nat)
    requires i + |a| <= |text| && text[i..i + |a|] == a && k + |b| <= |a| && a[k..k + |b|] == b
    ensures text[i + k..i + k + |b|] == b
  {
    var t := text[i..i + |a|];
    assert forall j :: k <= j < k + |b| ==> t[j] == text[i + j];
    assert t[k..k + |b|] == text[i + k..i + k + |b|];
  }

  lemma TokenLayout(uid: Text, name: Text)
    ensures var t := Token(uid, name);
      && |t| == |uid| + |name| + 4
      && t[0..2] == [AT, OPEN] && t[2..2 + |uid|] == uid && t[2 + |uid|..3 + |uid|] == [COLON]
      && t[3 + |uid|..3 + |uid| + |name|] == name && t[3 + |uid| + |name|..4 + |uid| + |name|] == [CLOSE]
  {
  }

  /** The parts of a token that lies in a text. */
  lemma TokenParts(text: Text, i: nat, uid: Text, name: Text)
    requires i + |uid| + |name| + 4 <= |text| && text[i..i + |uid| + |name| + 4] == Token(uid, name)
    ensures var u := i + 2 + |uid|; var n := u + 1 + |name|;
      && text[i..i + 2] == [AT, OPEN] && text[i + 2..u] == uid && text[u..u + 1] == [COLON]
      && text[u + 1..n] == name && text[n..n + 1] == [CLOSE]
  {
    var t := Token(uid, name);
    TokenLayout(uid, name);
    Layout(t, [AT, OPEN], text, i, 0);
    Layout(t, uid, text, i, 2);
    Layout(t, [COLON], text, i, 2 + |uid|);
    Layout(t, name, text, i, 3 + |uid|);
    Layout(t, [CLOSE], text, i, 3 + |uid| + |name|);
  }

  /** A token of the grammar is matched, with its own uid and name. */
  lemma TokenIsMatched(isUid: CodePoint -> bool, text: Text, i: nat, uid: Text, name: Text, length: nat)
    requires !isUid(COLON) && i + length <= |text| && IsToken(isUid, text[i..i + length], uid, name)
    ensures MatchAt(isUid, text, i) == Some(Mention(uid, name, i, length))
  {
    TokenParts(text, i, uid, name);
    MatchFromParts(isUid, text, i, i + 2 + |uid|, i + 3 + |uid| + |name|);
  }

  lemma MatchFromParts(isUid: CodePoint -> bool, text: Text, i: nat, u: nat, n: nat)
    requires !isUid(COLON) && i + 2 < u && u + 1 < n < |text|
    requires text[i..i + 2] == [AT, OPEN] && text[u..u + 1] == [COLON] && text[n..n + 1] == [CLOSE]
    requires (forall c <- text[i + 2..u] :: isUid(c)) && forall c <- text[u + 1..n] :: NameChar(c)
    ensures MatchAt(isUid, text, i) == Some(Mention(text[i + 2..u], text[u + 1..n], i, n + 1 - i))
  {
    assert text[i] == text[i..i + 2][0] && text[i + 1] == text[i..i + 2][1];
    assert text[u] == text[u..u + 1][0] && text[n] == text[n..n + 1][0];
    RunEndIs(text, i + 2, isUid, u);
    RunEndIs(text, u + 1, NameChar, n);
  }

  lemma RunEndIs(text: Text, i: nat, accept: CodePoint -> bool, e: nat)
    requires i <= e < |text| && !accept(text[e])
    requires forall c <- text[i..e] :: accept(c)
    ensures RunEnd(text, i, accept) == e
  {
    assert forall k :: i <= k < e ==> text[k] == text[i..e][k - i];
  }

  lemma SliceJoin(content: Text, a: nat, b: nat, c: nat)
    requires a <= b <= c <= |content|
    ensures content[a..c] == content[a..b] + content[b..c]
  {
  }

  lemma TokenFromParts(text: Text, i: nat, u: nat, n: nat)
    requires i + 2 <= u && u + 1 <= n < |text|
    requires text[i..i + 2] == [AT, OPEN] && text[u..u + 1] == [COLON] && text[n..n + 1] == [CLOSE]
    ensures text[i..n + 1] == Token(text[i + 2..u], text[u + 1..n])
  {
    SliceJoin(text, i, i + 2, u);
    SliceJoin(text, i, u, u + 1);
    SliceJoin(text, i, u + 1, n);
    SliceJoin(text, i, n, n + 1);
  }

  /** What is matched is a token of the grammar. */
  lemma MatchedIsToken(isUid: CodePoint -> bool, text: Text, i: nat)
    ensures MatchAt(isUid, text, i).Some? ==>
      var m := MatchAt(isUid, text, i).value;
      IsToken(isUid, text[i..i + m.length], m.uid, m.name)
  {
    if MatchAt(isUid, text, i).Some? {
      var u := RunEnd(text, i + 2, isUid);
      var n := RunEnd(text, u + 1, NameChar);
      assert text[i..i + 2] == [AT, OPEN] && text[u..u + 1] == [COLON] && text[n..n + 1] == [CLOSE];
      TokenFromParts(text, i, u, n);
    }
  }

  /** `parse_structured_mentions`: leftmost matches, searching on behind each one. */
  function Parse(isUid: CodePoint -> bool, text: Text, from: nat): (ms: seq<Mention>)
    decreases |text| - from
  {
    if from >= |text| then [] else
    match MatchAt(isUid, text, from)
    case None => Parse(isUid, text, from + 1)
    case Some(m) => [m] + Parse(isUid, text, from + m.length)
  }

  /** Mentions in order and apart from one another, inside the text behind `cursor`. */
  predicate InOrder(text: Text, ms: seq<Mention>, cursor: nat) {
    if ms == [] then cursor <= |text| else
    && cursor <= ms[0].offset && 0 < ms[0].length && ms[0].offset + ms[0].length <= |text|
    && InOrder(text, ms[1..], ms[0].offset + ms[0].length)
  }

  function InsertMention(m: Mention, ms: seq<Mention>): (s: seq<Mention>)
    ensures multiset(s) == multiset(ms) + multiset{m}
  {
    if ms == [] || m.offset <= ms[0].offset then [m] + ms
    else
      assert ms == [ms[0]] + ms[1..];
      [ms[0]] + InsertMention(m, ms[1..])
  }

  /** The stable sort by offset. */
  function SortByOffset(ms: seq<Mention>): (s: seq<Mention>)
    ensures multiset(s) == multiset(ms)
  {
    if ms == [] then [] else
    assert ms == [ms[0]] + ms[1..];
    InsertMention(ms[0], SortByOffset(ms[1..]))
  }

  /** Sorting leaves a list alone that is in order, such as the parser's. */
  lemma {:induction false} SortKeepsInOrder(text: Text, ms: seq<Mention>, cursor: nat)
    requires InOrder(text, ms, cursor)
    ensures SortByOffset(ms) == ms
    decreases |ms|
  {
    if ms != [] {
      SortKeepsInOrder(text, ms[1..], ms[0].offset + ms[0].length);
      assert ms == [ms[0]] + ms[1..];
    }
  }

  /** Each mention lies over its own token. */
  predicate OverTokens(text: Text, ms: seq<Mention>) {
    forall m <- ms :: m.offset + m.length <= |text| && text[m.offset..m.offset + m.length] == Token(m.uid, m.name)
  }

  /** No token begins in the gaps that the mentions leave. */
  ghost predicate NothingMissed(isUid: CodePoint -> bool, text: Text, ms: seq<Mention>, cursor: nat)
    decreases |ms|
  {
    && (forall i :: cursor <= i < (if ms == [] then |text| else ms[0].offset) ==> MatchAt(isUid, text, i).None?)
    && (ms != [] ==> NothingMissed(isUid, text, ms[1..], ms[0].offset + ms[0].length))
  }

  lemma MatchLiesOverToken(isUid: CodePoint -> bool, text: Text, i: nat)
    requires MatchAt(isUid, text, i).Some?
    ensures var m := MatchAt(isUid, text, i).value;
      && m.offset == i && 0 < m.length && i + m.length <= |text|
      && text[i..i + m.length] == Token(m.uid, m.name)
  {
    MatchedIsToken(isUid, text, i);
  }

  lemma InOrderCons(text: Text, m: Mention, ms: seq<Mention>, cursor: nat)
    requires cursor <= m.offset && 0 < m.length && m.offset + m.length <= |text|
    requires InOrder(text, ms, m.offset + m.length) && OverTokens(text, ms)
    requires text[m.offset..m.offset + m.length] == Token(m.uid, m.name)
    ensures InOrder(text, [m] + ms, cursor) && OverTokens(text, [m] + ms)
  {
    assert ([m] + ms)[1..] == ms;
  }

  /** The parser returns tokens, in order and apart. */
  lemma {:induction false} ParseInOrder(isUid: CodePoint -> bool, text: Text, from: nat, cursor: nat)
    requires cursor <= from <= |text|
    ensures InOrder(text, Parse(isUid, text, from), cursor) && OverTokens(text, Parse(isUid, text, from))
    decreases |text| - from
  {
    if from < |text| {
      match MatchAt(isUid, text, from) {
        case None => ParseInOrder(isUid, text, from + 1, cursor);
        case Some(m) =>
          MatchLiesOverToken(isUid, text, from);
          ParseInOrder(isUid, text, from + m.length, from + m.length);
          InOrderCons(text, m, Parse(isUid, text, from + m.length), cursor);
      }
    }
  }

  /** The parser misses no token that begins outside the ones it returns. */
  lemma {:induction false} ParseMissesNothing(isUid: CodePoint -> bool, text: Text, from: nat, cursor: nat)
    requires cursor <= from <= |text|
    requires forall i :: cursor <= i < from ==> MatchAt(isUid, text, i).None?
    ensures NothingMissed(isUid, text, Parse(isUid, text, from), cursor)
    decreases |text| - from
  {
    if from < |text| {
      match MatchAt(isUid, text, from) {
        case None => ParseMissesNothing(isUid, text, from + 1, cursor);
        case Some(m) =>
          ParseMissesNothing(isUid, text, from + m.length, from + m.length);
          assert Parse(isUid, text, from)[1..] == Parse(isUid, text, from + m.length);
      }
    }
  }

  // ---- a text cut at its mentions: what the loops below walk over ----

  /** Text before a token, the token, and whether it keeps an entity. */
  datatype Segment = Segment(before: Text, uid: Text, name: Text, kept: bool)

  datatype Cuts = End(tail: Text) | Cut(first: Segment, rest: Cuts)
  {
    function Count(): nat {
      match this
      case End(_) => 0
      case Cut(_, rest) => 1 + rest.Count()
    }
  }

  /** The text that was cut. */
  function Original(c: Cuts): Text {
    match c
    case End(tail) => tail
    case Cut(s, rest) => s.before + Token(s.uid, s.name) + Original(rest)
  }

  /** The text that is sent: every token shown as `@name`. */
  function Plain(c: Cuts): Text {
    match c
    case End(tail) => tail
    case Cut(s, rest) => s.before + Shown(s.name) + Plain(rest)
  }

  datatype Entity = Entity(uid: Text, offset: int, length: int)

  /** The entity of a token in front of which `units` code units of text already stand. */
  function OwnEntity(s: Segment, units: nat): Entity {
    Entity(s.uid, units + Utf16Length(s.before), Utf16Length(Shown(s.name)))
  }

  function UnitsAfter(s: Segment, units: nat): nat {
    units + Utf16Length(s.before) + Utf16Length(Shown(s.name))
  }

  /** The sidecar: one entity a kept token. */
  function Entities(c: Cuts, units: nat): (es: seq<Entity>) {
    match c
    case End(_) => []
    case Cut(s, rest) =>
      var later := Entities(rest, UnitsAfter(s, units));
      if s.kept then [OwnEntity(s, units)] + later else later
  }

  /** The names of the tokens that keep an entity, in order. */
  function KeptNames(c: Cuts): (ns: seq<Text>) {
    match c
    case End(_) => []
    case Cut(s, rest) => if s.kept then [s.name] + KeptNames(rest) else KeptNames(rest)
  }

  predicate Verified(uid: Text, validUids: Option<set<Text>>) {
    validUids.None? || uid in validUids.value
  }

  function CutAt(text: Text, ms: seq<Mention>, cursor: nat, validUids: Option<set<Text>>): (c: Cuts)
    requires InOrder(text, ms, cursor)
    decreases |ms|
  {
    if ms == [] then End(text[cursor..]) else
    var m := ms[0];
    Cut(Segment(text[cursor..m.offset], m.uid, m.name, Verified(m.uid, validUids)),
        CutAt(text, ms[1..], m.offset + m.length, validUids))
  }

  /** Cutting a text at its mentions loses nothing. */
  lemma {:induction false} CutsAreTheText(text: Text, ms: seq<Mention>, cursor: nat, validUids: Option<set<Text>>)
    requires InOrder(text, ms, cursor) && OverTokens(text, ms)
    ensures Original(CutAt(text, ms, cursor, validUids)) == text[cursor..]
    ensures CutAt(text, ms, cursor, validUids).Count() == |ms|
    decreases |ms|
  {
    if ms != [] {
      var m := ms[0];
      var next := m.offset + m.length;
      CutsAreTheText(text, ms[1..], next, validUids);
      assert m in ms;
      assert text[cursor..] == text[cursor..m.offset] + text[m.offset..next] + text[next..];
    }
  }

  // ---- the conversion loop ----

  /** What the loop carries: the text and sidecar so far, and the text's length in code units. */
  datatype Sent = Sent(content: Text, entities: seq<Entity>, uids: seq<Text>, units: nat)

  const NOTHING_SENT := Sent([], [], [], 0)

  function SendSegment(acc: Sent, s: Segment): Sent {
    Sent(acc.content + s.before + Shown(s.name),
         if s.kept then acc.entities + [OwnEntity(s, acc.units)] else acc.entities,
         if s.kept then acc.uids + [s.uid] else acc.uids,
         UnitsAfter(s, acc.units))
  }

  function SendAll(acc: Sent, c: Cuts): Sent
    decreases c
  {
    match c
    case End(tail) => acc.(content := acc.content + tail)
    case Cut(s, rest) => SendAll(SendSegment(acc, s), rest)
  }

  function Uids(es: seq<Entity>): (us: seq<Text>)
    ensures |us| == |es| && forall k :: 0 <= k < |us| ==> us[k] == es[k].uid
  {
    if es == [] then [] else [es[0].uid] + Uids(es[1..])
  }

  lemma {:induction false} SendAllContent(acc: Sent, c: Cuts)
    ensures SendAll(acc, c).content == acc.content + Plain(c)
    decreases c
  {
    if c.Cut? {
      var s := c.first;
      SendAllContent(SendSegment(acc, s), c.rest);
      Regroup(acc.content, s.before, Shown(s.name));
      Regroup(acc.content, s.before + Shown(s.name), Plain(c.rest));
    }
  }

  lemma {:induction false} SendAllEntities(acc: Sent, c: Cuts)
    ensures SendAll(acc, c).entities == acc.entities + Entities(c, acc.units)
    decreases c
  {
    if c.Cut? {
      var s := c.first;
      SendAllEntities(SendSegment(acc, s), c.rest);
      if s.kept {
        Regroup(acc.entities, [OwnEntity(s, acc.units)], Entities(c.rest, UnitsAfter(s, acc.units)));
      }
    }
  }

  lemma {:induction false} SendAllUids(acc: Sent, c: Cuts)
    requires acc.uids == Uids(acc.entities)
    ensures SendAll(acc, c).uids == Uids(SendAll(acc, c).entities)
    decreases c
  {
    if c.Cut? {
      SendAllUids(SendSegment(acc, c.first), c.rest);
    }
  }

  lemma SentIs(c: Cuts)
    ensures var sent := SendAll(NOTHING_SENT, c);
      sent.content == Plain(c) && sent.entities == Entities(c, 0) && sent.uids == Uids(Entities(c, 0))
  {
    SendAllContent(NOTHING_SENT, c);
    SendAllEntities(NOTHING_SENT, c);
    SendAllUids(NOTHING_SENT, c);
    assert [] + Plain(c) == Plain(c) && [] + Entities(c, 0) == Entities(c, 0);
  }

  /** The loop body: the text before one mention, the entity if its uid is verified, and its `@name`. */
  method EmitMention(sent: Sent, between: Text, m: Mention, validUids: Option<set<Text>>) returns (r: Sent)
    ensures r == SendSegment(sent, Segment(between, m.uid, m.name, Verified(m.uid, validUids)))
  {
    var content, running := sent.content + between, sent.units + Utf16Length(between);
    var entities, uids := sent.entities, sent.uids;
    var replacement := [AT] + m.name;
    if validUids.None? || m.uid in validUids.value {
      entities := entities + [Entity(m.uid, running, Utf16Length(replacement))];
      uids := uids + [m.uid];
    }
    content := content + replacement;
    running := running + Utf16Length(replacement);
    return Sent(content, entities, uids, running);
  }

  /**
   `convert_structured_mentions` on mentions as the parser returns them: rebuilds the text piece
   by piece and counts the code units written so far.
   */
  method ConvertStructuredMentions(text: Text, mentions: seq<Mention>, validUids: Option<set<Text>>)
    returns (content: Text, entities: seq<Entity>, uids: seq<Text>)
    requires InOrder(text, SortByOffset(mentions), 0)
    ensures var c := CutAt(text, SortByOffset(mentions), 0, validUids);
      content == Plain(c) && entities == Entities(c, 0) && uids == Uids(entities)
  {
    content, entities, uids := ConvertSorted(text, SortByOffset(mentions), validUids);
  }

  /** What has been sent, and what is left to send, make up the whole. */
  ghost predicate Midway(text: Text, ms: seq<Mention>, cursor: nat, validUids: Option<set<Text>>, sent: Sent, whole: Sent) {
    InOrder(text, ms, cursor) && SendAll(sent, CutAt(text, ms, cursor, validUids)) == whole
  }

  lemma MidwayOn(text: Text, ms: seq<Mention>, cursor: nat, validUids: Option<set<Text>>, sent: Sent, whole: Sent)
    requires ms != [] && Midway(text, ms, cursor, validUids, sent, whole)
    ensures var m := ms[0];
      && cursor <= m.offset <= m.offset + m.length <= |text|
      && Midway(text, ms[1..], m.offset + m.length, validUids,
             SendSegment(sent, Segment(text[cursor..m.offset], m.uid, m.name, Verified(m.uid, validUids))), whole)
  {
  }

  lemma MidwayEnds(text: Text, cursor: nat, validUids: Option<set<Text>>, sent: Sent, whole: Sent)
    requires Midway(text, [], cursor, validUids, sent, whole)
    ensures cursor <= |text| && whole.content == sent.content + text[cursor..]
    ensures whole.entities == sent.entities && whole.uids == sent.uids
  {
  }

  lemma NextMention(ms: seq<Mention>, i: nat)
    requires i < |ms|
    ensures ms[i..][1..] == ms[i + 1..]
  {
  }

  method ConvertSorted(text: Text, sorted: seq<Mention>, validUids: Option<set<Text>>)
    returns (content: Text, entities: seq<Entity>, uids: seq<Text>)
    requires InOrder(text, sorted, 0)
    ensures var c := CutAt(text, sorted, 0, validUids);
      content == Plain(c) && entities == Entities(c, 0) && uids == Uids(entities)
  {
    ghost var whole := SendAll(NOTHING_SENT, CutAt(text, sorted, 0, validUids));
    var sent := NOTHING_SENT;
    var cursor: nat, i: nat := 0, 0;
    ghost var ms := sorted;
    while i < |sorted|
      invariant i <= |sorted| && ms == sorted[i..] && Midway(text, ms, cursor, validUids, sent, whole)
    {
      var m := sorted[i];
      MidwayOn(text, ms, cursor, validUids, sent, whole);
      sent := EmitMention(sent, text[cursor..m.offset], m, validUids);
      cursor := m.offset + m.length;
      NextMention(sorted, i);
      ms := ms[1..];
      i := i + 1;
    }
    MidwayEnds(text, cursor, validUids, sent, whole);
    SentIs(CutAt(text, sorted, 0, validUids));
    return sent.content + text[cursor..], sent.entities, sent.uids;
  }

  // ---- what the sidecar promises ----

  /**
   Every entity, taken as UTF-16 code units, is exactly the `@name` it stands for; entities
   ascend, do not meet, and stay inside the text.
   */
  ghost predicate Anchored(text: Text, es: seq<Entity>, names: seq<Text>) {
    && |es| == |names|
    && (forall k :: 0 <= k < |es| ==> AnchoredAt(text, es[k], names[k]))
    && Ascending(es)
  }

  predicate AnchoredAt(text: Text, e: Entity, name: Text) {
    UnitsAt(Encode(text), e, Encode(Shown(name)))
  }

  predicate UnitsAt(units: seq<Unit>, e: Entity, shown: seq<Unit>) {
    && 0 <= e.offset && 0 < e.length && e.offset + e.length <= |units|
    && units[e.offset..e.offset + e.length] == shown
  }

  predicate Ascending(es: seq<Entity>) {
    forall j, k :: 0 <= j < k < |es| ==> es[j].offset + es[j].length <= es[k].offset
  }

  lemma UnitsStay(x: seq<Unit>, y: seq<Unit>, e: Entity, shown: seq<Unit>)
    requires UnitsAt(x, e, shown)
    ensures UnitsAt(x + y, e, shown)
  {
    assert (x + y)[e.offset..e.offset + e.length] == x[e.offset..e.offset + e.length];
  }

  lemma UnitsMove(x: seq<Unit>, y: seq<Unit>, e: Entity, shown: seq<Unit>)
    requires UnitsAt(y, e, shown)
    ensures UnitsAt(x + y, e.(offset := |x| + e.offset), shown)
  {
    var from := |x| + e.offset;
    assert (x + y)[from..from + e.length] == y[e.offset..e.offset + e.length];
  }

  lemma AnchoredStays(a: Text, e: Entity, name: Text, b: Text)
    requires AnchoredAt(a, e, name)
    ensures AnchoredAt(a + b, e, name)
  {
    EncodeAppend(a, b);
    UnitsStay(Encode(a), Encode(b), e, Encode(Shown(name)));
  }

  lemma AnchoredMoves(a: Text, b: Text, e: Entity, name: Text)
    requires AnchoredAt(b, e, name)
    ensures AnchoredAt(a + b, e.(offset := Utf16Length(a) + e.offset), name)
  {
    EncodeAppend(a, b);
    LengthIsEncodedLength(a);
    UnitsMove(Encode(a), Encode(b), e, Encode(Shown(name)));
  }

  predicate Shifted(fs: seq<Entity>, gs: seq<Entity>, delta: nat) {
    |gs| == |fs| && forall k :: 0 <= k < |gs| ==> gs[k] == fs[k].(offset := delta + fs[k].offset)
  }

  /** Anchored texts put one behind the other stay anchored when the second sidecar is shifted. */
  lemma AnchoredAppend(a: Text, es: seq<Entity>, ns: seq<Text>, b: Text, fs: seq<Entity>, ms: seq<Text>, gs: seq<Entity>)
    requires Anchored(a, es, ns) && Anchored(b, fs, ms) && Shifted(fs, gs, Utf16Length(a))
    ensures Anchored(a + b, es + gs, ns + ms)
  {
    var all, names := es + gs, ns + ms;
    forall k | 0 <= k < |all| ensures AnchoredAt(a + b, all[k], names[k]) {
      if k < |es| {
        AnchoredStays(a, es[k], ns[k], b);
      } else {
        AnchoredMoves(a, b, fs[k - |es|], ms[k - |es|]);
      }
    }
    AscendingAppend(a, es, ns, b, fs, ms, gs);
  }

  lemma AscendingAppend(a: Text, es: seq<Entity>, ns: seq<Text>, b: Text, fs: seq<Entity>, ms: seq<Text>, gs: seq<Entity>)
    requires Anchored(a, es, ns) && Anchored(b, fs, ms) && Shifted(fs, gs, Utf16Length(a))
    ensures Ascending(es + gs)
  {
    LengthIsEncodedLength(a);
    forall j, k | 0 <= j < |es| && 0 <= k < |gs| ensures es[j].offset + es[j].length <= gs[k].offset {
      assert AnchoredAt(a, es[j], ns[j]) && AnchoredAt(b, fs[k], ms[k]);
    }
  }

  /** The entity of one token stands over its `@name`. */
  lemma OwnEntityAnchored(lead: Text, s: Segment)
    ensures AnchoredAt(lead + s.before + Shown(s.name), OwnEntity(s, Utf16Length(lead)), s.name)
    ensures Utf16Length(lead + s.before + Shown(s.name)) == UnitsAfter(s, Utf16Length(lead))
  {
    var shown := Shown(s.name);
    LengthIsEncodedLength(shown);
    LengthBounds(shown);
    assert Encode(shown)[0..|Encode(shown)|] == Encode(shown);
    assert AnchoredAt(shown, Entity(s.uid, 0, Utf16Length(shown)), s.name);
    AnchoredMoves(lead + s.before, shown, Entity(s.uid, 0, Utf16Length(shown)), s.name);
    LengthAppend(lead, s.before);
    LengthAppend(lead + s.before, shown);
  }

  /** The same property, entity by entity, each behind `from`. */
  predicate AnchoredFrom(text: Text, es: seq<Entity>, names: seq<Text>, from: int) {
    if es == [] || names == [] then es == [] && names == [] else
    && from <= es[0].offset && AnchoredAt(text, es[0], names[0])
    && AnchoredFrom(text, es[1..], names[1..], es[0].offset + es[0].length)
  }

  lemma {:induction false} AnchoredInOrder(text: Text, es: seq<Entity>, names: seq<Text>, from: int)
    requires AnchoredFrom(text, es, names, from)
    ensures Anchored(text, es, names) && forall e <- es :: from <= e.offset
    decreases |es|
  {
    if es != [] {
      AnchoredInOrder(text, es[1..], names[1..], es[0].offset + es[0].length);
      assert es == [es[0]] + es[1..] && names == [names[0]] + names[1..];
    }
  }

  lemma AnchoredCons(text: Text, e: Entity, name: Text, es: seq<Entity>, names: seq<Text>, from: int)
    requires from <= e.offset && AnchoredAt(text, e, name)
    requires AnchoredFrom(text, es, names, e.offset + e.length)
    ensures AnchoredFrom(text, [e] + es, [name] + names, from)
  {
    assert ([e] + es)[1..] == es && ([name] + names)[1..] == names;
  }

  lemma AnchoredEarlier(text: Text, es: seq<Entity>, names: seq<Text>, from: int, earlier: int)
    requires AnchoredFrom(text, es, names, from) && earlier <= from
    ensures AnchoredFrom(text, es, names, earlier)
  {
  }

  lemma LeadGrows(lead: Text, s: Segment, rest: Cuts)
    ensures lead + Plain(Cut(s, rest)) == (lead + s.before + Shown(s.name)) + Plain(rest)
  {
    Regroup(lead, s.before + Shown(s.name), Plain(rest));
    Regroup(lead, s.before, Shown(s.name));
  }

  lemma {:induction false} AnchoredBehind(lead: Text, c: Cuts)
    ensures AnchoredFrom(lead + Plain(c), Entities(c, Utf16Length(lead)), KeptNames(c), Utf16Length(lead))
    decreases c
  {
    if c.Cut? {
      var s, units := c.first, Utf16Length(lead);
      var lead' := lead + s.before + Shown(s.name);
      LeadGrows(lead, s, c.rest);
      OwnEntityAnchored(lead, s);
      AnchoredBehind(lead', c.rest);
      var text := lead' + Plain(c.rest);
      var es, ns := Entities(c.rest, UnitsAfter(s, units)), KeptNames(c.rest);
      if s.kept {
        AnchoredStays(lead', OwnEntity(s, units), s.name, Plain(c.rest));
        AnchoredCons(text, OwnEntity(s, units), s.name, es, ns, units);
      } else {
        AnchoredEarlier(text, es, ns, UnitsAfter(s, units), units);
      }
    }
  }

  /** Every emitted entity is anchored on its `@name` in the text that is sent, ascending and disjoint. */
  lemma EntitiesAnchored(c: Cuts)
    ensures Anchored(Plain(c), Entities(c, 0), KeptNames(c))
  {
    assert [] + Plain(c) == Plain(c);
    AnchoredBehind([], c);
    AnchoredInOrder(Plain(c), Entities(c, 0), KeptNames(c), 0);
  }
}
