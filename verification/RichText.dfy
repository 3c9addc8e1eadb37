/**
 The block loop of `octo_send_rich_text_handler` (message_tools.py): texts and image placeholders
 are strung together into one plain text, and each block's entities are shifted to where the
 block begins.
 */
module RichText {
  import opened Wrappers
  import opened Utf16
  import opened Mentions

  const MAX_BLOCKS := 50
  const MAX_TEXT_CHARS := 20_000
  const PLACEHOLDER: Text := [0x5B, 0x56FE, 0x7247, 0x5D]  // the image placeholder, four BMP characters

  /** An image block carries whether its upload succeeded; a failed image is left out of the message. */
  datatype Block = TextBlock(text: Text) | ImageBlock(uploaded: bool) | UnknownBlock

  /** What is sent: the plain text, its entities, and who is mentioned in them, each once. */
  datatype Message = Message(plain: Text, entities: seq<Entity>, uids: seq<Text>)

  datatype Refusal = BadBlockCount | BadText | UnsupportedBlock | AllImagesFailed

  predicate BadBlock(b: Block) {
    b.UnknownBlock? || (b.TextBlock? && (b.text == [] || |b.text| > MAX_TEXT_CHARS))
  }

  predicate Sendable(b: Block) { b.TextBlock? || (b.ImageBlock? && b.uploaded) }

  function Cuts(isUid: CodePoint -> bool, text: Text, validUids: Option<set<Text>>): Cuts {
    ParseInOrder(isUid, text, 0, 0);
    CutAt(text, Parse(isUid, text, 0), 0, validUids)
  }

  function PlainPart(isUid: CodePoint -> bool, b: Block, validUids: Option<set<Text>>): Text {
    match b
    case TextBlock(text) => Plain(Cuts(isUid, text, validUids))
    case ImageBlock(uploaded) => if uploaded then PLACEHOLDER else []
    case UnknownBlock => []
  }

  /** The plain text, block after block. */
  function PlainOf(isUid: CodePoint -> bool, blocks: seq<Block>, validUids: Option<set<Text>>): Text {
    if blocks == [] then [] else
    PlainOf(isUid, blocks[..|blocks| - 1], validUids) + PlainPart(isUid, blocks[|blocks| - 1], validUids)
  }

  function NamesPart(isUid: CodePoint -> bool, b: Block, validUids: Option<set<Text>>): seq<Text> {
    match b
    case TextBlock(text) => KeptNames(Cuts(isUid, text, validUids))
    case _ => []
  }

  /** The names of all kept mentions, block after block. */
  function NamesOf(isUid: CodePoint -> bool, blocks: seq<Block>, validUids: Option<set<Text>>): seq<Text> {
    if blocks == [] then [] else
    NamesOf(isUid, blocks[..|blocks| - 1], validUids) + NamesPart(isUid, blocks[|blocks| - 1], validUids)
  }

  // ---- who is mentioned ----

  /** Adds those not seen before, in order. */
  function Extend(seen: seq<Text>, us: seq<Text>): seq<Text>
    decreases |us|
  {
    if us == [] then seen else Extend(if us[0] in seen then seen else seen + [us[0]], us[1..])
  }

  predicate NoneTwice(us: seq<Text>) {
    forall i, j :: 0 <= i < j < |us| ==> us[i] != us[j]
  }

  /** Everyone is there once, in the order of first appearance. */
  lemma {:induction false} ExtendMeans(seen: seq<Text>, us: seq<Text>)
    requires NoneTwice(seen)
    ensures var r := Extend(seen, us);
      && NoneTwice(r) && seen <= r && (forall u :: u in r <==> u in seen || u in us)
    decreases |us|
  {
    if us != [] {
      assert us == [us[0]] + us[1..];
      ExtendMeans(if us[0] in seen then seen else seen + [us[0]], us[1..]);
    }
  }

  lemma {:induction false} ExtendAppend(seen: seq<Text>, a: seq<Text>, b: seq<Text>)
    ensures Extend(seen, a + b) == Extend(Extend(seen, a), b)
    decreases |a|
  {
    if a == [] {
      assert a + b == b;
    } else {
      assert (a + b)[1..] == a[1..] + b;
      ExtendAppend(if a[0] in seen then seen else seen + [a[0]], a[1..], b);
    }
  }

  lemma {:induction false} UidsAppend(a: seq<Entity>, b: seq<Entity>)
    ensures Uids(a + b) == Uids(a) + Uids(b)
    decreases |a|
  {
    if a == [] {
      assert a + b == b;
    } else {
      assert (a + b)[1..] == a[1..] + b;
      UidsAppend(a[1..], b);
    }
  }

  lemma {:induction false} ShiftedUids(a: seq<Entity>, b: seq<Entity>, delta: nat)
    requires Shifted(a, b, delta)
    ensures Uids(a) == Uids(b)
    decreases |a|
  {
    if a != [] {
      ShiftedUids(a[1..], b[1..], delta);
    }
  }

  lemma MentionedAppend(es: seq<Entity>, block: seq<Entity>, shifted: seq<Entity>, delta: nat)
    requires Shifted(block, shifted, delta)
    ensures Extend([], Uids(es + shifted)) == Extend(Extend([], Uids(es)), Uids(block))
  {
    UidsAppend(es, shifted);
    ShiftedUids(block, shifted, delta);
    ExtendAppend([], Uids(es), Uids(block));
  }

  method AddUnseen(seen: seq<Text>, uids: seq<Text>) returns (r: seq<Text>)
    ensures r == Extend(seen, uids)
  {
    r := seen;
    var i := 0;
    assert uids[0..] == uids;
    while i < |uids|
      invariant i <= |uids| && Extend(r, uids[i..]) == Extend(seen, uids)
    {
      assert uids[i..][1..] == uids[i + 1..];
      if uids[i] !in r {
        r := r + [uids[i]];
      }
      i := i + 1;
    }
  }

  // ---- the loop ----

  method ShiftEntities(es: seq<Entity>, delta: nat) returns (r: seq<Entity>)
    ensures Shifted(es, r, delta)
  {
    r := [];
    for k := 0 to |es|
      invariant Shifted(es[..k], r, delta)
    {
      r := r + [Entity(es[k].uid, delta + es[k].offset, es[k].length)];
      assert es[..k + 1] == es[..k] + [es[k]];
    }
    assert es[..|es|] == es;
  }

  lemma NothingAnchored(text: Text)
    ensures Anchored(text, [], [])
  {
  }

  /** A block without entities behind an anchored text leaves it anchored. */
  lemma AnchoredThenPlain(a: Text, es: seq<Entity>, ns: seq<Text>, b: Text)
    requires Anchored(a, es, ns)
    ensures Anchored(a + b, es, ns)
  {
    NothingAnchored(b);
    AnchoredAppend(a, es, ns, b, [], [], []);
    assert es + [] == es && ns + [] == ns;
  }

  /** The message of the blocks so far, `sent` of which are in it. */
  ghost predicate SentSoFar(isUid: CodePoint -> bool, blocks: seq<Block>, validUids: Option<set<Text>>,
                            plain: Text, entities: seq<Entity>, sent: nat) {
    && (forall b <- blocks :: !BadBlock(b)) && (sent > 0 <==> exists b <- blocks :: Sendable(b))
    && plain == PlainOf(isUid, blocks, validUids) && Anchored(plain, entities, NamesOf(isUid, blocks, validUids))
  }

  lemma OneMoreBlock(isUid: CodePoint -> bool, blocks: seq<Block>, b: Block, validUids: Option<set<Text>>)
    ensures PlainOf(isUid, blocks + [b], validUids) == PlainOf(isUid, blocks, validUids) + PlainPart(isUid, b, validUids)
    ensures NamesOf(isUid, blocks + [b], validUids) == NamesOf(isUid, blocks, validUids) + NamesPart(isUid, b, validUids)
  {
    assert (blocks + [b])[..|blocks|] == blocks;
  }

  lemma TextIsSent(isUid: CodePoint -> bool, blocks: seq<Block>, text: Text, validUids: Option<set<Text>>,
                   plain: Text, entities: seq<Entity>, sent: nat, plain': Text, entities': seq<Entity>)
    requires SentSoFar(isUid, blocks, validUids, plain, entities, sent) && !BadBlock(TextBlock(text))
    requires plain' == plain + Plain(Cuts(isUid, text, validUids))
    requires Anchored(plain', entities', NamesOf(isUid, blocks, validUids) + KeptNames(Cuts(isUid, text, validUids)))
    ensures SentSoFar(isUid, blocks + [TextBlock(text)], validUids, plain', entities', sent + 1)
  {
    OneMoreBlock(isUid, blocks, TextBlock(text), validUids);
    assert TextBlock(text) in blocks + [TextBlock(text)] && Sendable(TextBlock(text));
  }

  lemma ImageIsSent(isUid: CodePoint -> bool, blocks: seq<Block>, uploaded: bool, validUids: Option<set<Text>>,
                    plain: Text, entities: seq<Entity>, sent: nat)
    requires SentSoFar(isUid, blocks, validUids, plain, entities, sent)
    ensures var after := blocks + [ImageBlock(uploaded)];
      if uploaded then SentSoFar(isUid, after, validUids, plain + PLACEHOLDER, entities, sent + 1)
      else SentSoFar(isUid, after, validUids, plain, entities, sent)
  {
    OneMoreBlock(isUid, blocks, ImageBlock(uploaded), validUids);
    var names := NamesOf(isUid, blocks, validUids);
    assert names + [] == names && plain + [] == plain;
    if uploaded {
      AnchoredThenPlain(plain, entities, names, PLACEHOLDER);
      assert ImageBlock(true) in blocks + [ImageBlock(true)] && Sendable(ImageBlock(true));
    }
  }

  /** One text block behind what is there: converted, its entities shifted, its mentions added. */
  method AppendText(isUid: CodePoint -> bool, text: Text, validUids: Option<set<Text>>,
                    plain: Text, entities: seq<Entity>, mentioned: seq<Text>, units: nat, ghost names: seq<Text>)
    returns (plain': Text, entities': seq<Entity>, mentioned': seq<Text>, units': nat)
    requires Anchored(plain, entities, names) && units == Utf16Length(plain) && mentioned == Extend([], Uids(entities))
    ensures var c := Cuts(isUid, text, validUids);
      plain' == plain + Plain(c) && Anchored(plain', entities', names + KeptNames(c))
    ensures units' == Utf16Length(plain') && mentioned' == Extend([], Uids(entities'))
  {
    var mentions := Parse(isUid, text, 0);
    ParseInOrder(isUid, text, 0, 0);
    SortKeepsInOrder(text, mentions, 0);
    var converted, blockEntities, uids := ConvertStructuredMentions(text, mentions, validUids);
    ghost var c := Cuts(isUid, text, validUids);
    EntitiesAnchored(c);
    var shifted := ShiftEntities(blockEntities, units);
    mentioned' := AddUnseen(mentioned, uids);
    MentionedAppend(entities, blockEntities, shifted, units);
    AnchoredAppend(plain, entities, names, converted, blockEntities, KeptNames(c), shifted);
    LengthAppend(plain, converted);
    plain', entities' := plain + converted, entities + shifted;
    units' := units + Utf16Length(converted);
  }

  /**
   The message of a list of blocks.  Whatever the blocks are, every entity that is sent slices the
   whole plain text, in UTF-16 code units, to exactly its `@name`, ascending and disjoint, and everyone
   mentioned in them is listed once.
   */
  method SendRichText(isUid: CodePoint -> bool, blocks: seq<Block>, validUids: Option<set<Text>>)
    returns (r: Result<Message, Refusal>)
    ensures r.Ok? <==>
      && 0 < |blocks| <= MAX_BLOCKS && (forall b <- blocks :: !BadBlock(b)) && exists b <- blocks :: Sendable(b)
    ensures r.Ok? ==>
      && r.value.plain == PlainOf(isUid, blocks, validUids)
      && Anchored(r.value.plain, r.value.entities, NamesOf(isUid, blocks, validUids))
      && r.value.uids == Extend([], Uids(r.value.entities))
  {
    if !(0 < |blocks| <= MAX_BLOCKS) {
      return Err(BadBlockCount);
    }
    var plain: Text, entities: seq<Entity>, mentioned: seq<Text>, units: nat, sent: nat := [], [], [], 0, 0;
    NothingAnchored([]);
    for k := 0 to |blocks|
      invariant SentSoFar(isUid, blocks[..k], validUids, plain, entities, sent)
      invariant units == Utf16Length(plain) && mentioned == Extend([], Uids(entities))
    {
      assert blocks[..k + 1] == blocks[..k] + [blocks[k]];
      ghost var names := NamesOf(isUid, blocks[..k], validUids);
      match blocks[k] {
        case TextBlock(text) =>
          if text == [] || |text| > MAX_TEXT_CHARS {
            assert BadBlock(blocks[k]);
            return Err(BadText);
          }
          var plain', entities';
          plain', entities', mentioned, units := AppendText(isUid, text, validUids, plain, entities, mentioned, units, names);
          TextIsSent(isUid, blocks[..k], text, validUids, plain, entities, sent, plain', entities');
          plain, entities, sent := plain', entities', sent + 1;
        case ImageBlock(uploaded) =>
          ImageIsSent(isUid, blocks[..k], uploaded, validUids, plain, entities, sent);
          if uploaded {
            LengthAppend(plain, PLACEHOLDER);
            plain, units, sent := plain + PLACEHOLDER, units + Utf16Length(PLACEHOLDER), sent + 1;
          }
        case UnknownBlock =>
          assert BadBlock(blocks[k]);
          return Err(UnsupportedBlock);
      }
    }
    assert blocks[..|blocks|] == blocks;
    if sent == 0 {
      return Err(AllImagesFailed);
    }
    return Ok(Message(plain, entities, mentioned));
  }
}
