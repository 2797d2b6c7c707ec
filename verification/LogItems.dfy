/**
 Log items and their footer bytes.

 Entry indexes are written as a count, the first index and the end offset of each entry, so
 that offsets, lengths and the other indexes are rebuilt while decoding.
 */
module LogItems {
  import opened PipeLog
  import C = Codec
  import opened Codec

  const TWO_32: nat := 0x1_0000_0000

  const TYPE_ENTRIES: Byte := 1
  const TYPE_COMMAND: Byte := 2
  const TYPE_KV: Byte := 3
  const CMD_CLEAN: Byte := 1
  const CMD_COMPACT: Byte := 2
  const OP_PUT: Byte := 1
  const OP_DEL: Byte := 2

  /** An entry index inside a batch; `block` is unknown until the batch is written. */
  datatype Ei = Ei(index: nat, offset: nat, len: nat, compression: CompressionType, block: Option<FileBlockHandle>)

  datatype Command = Clean | Compact(index: U64)

  datatype KeyValue = Put(key: Bytes, value: Bytes, file: Option<FileId>) | Del(key: Bytes, file: Option<FileId>)

  datatype Content = Entries(es: seq<Ei>) | Cmd(command: Command) | Kv(kv: KeyValue)

  datatype Item = Item(region: U64, content: Content)

  datatype DecodeError = Varint(error: C.Error) | Unrecognized | TooShort | BadOffset | BadChecksum | BadBlock

  /** A decoded value, the bytes left, and the end offset of the entries decoded so far. */
  datatype Parsed<+T> = Parsed(value: T, rest: Bytes, size: nat) | Failed(error: DecodeError)

  // -------------------------------------------------------------------- encoding

  function Tails(es: seq<Ei>): Bytes {
    if es == [] then [] else VarU64(es[0].offset + es[0].len) + Tails(es[1..])
  }

  function EncodeEntries(es: seq<Ei>): Bytes {
    VarU64(|es|) + (if es == [] then [] else VarU64(es[0].index)) + Tails(es)
  }

  function EncodeCommand(c: Command): Bytes {
    match c
    case Clean => [CMD_CLEAN]
    case Compact(index) => [CMD_COMPACT] + VarU64(index)
  }

  function EncodeKv(kv: KeyValue): Bytes {
    match kv
    case Put(key, value, _) => [OP_PUT] + VarU64(|key|) + key + VarU64(|value|) + value
    case Del(key, _) => [OP_DEL] + VarU64(|key|) + key
  }

  function EncodeContent(content: Content): Bytes {
    match content
    case Entries(es) => [TYPE_ENTRIES] + EncodeEntries(es)
    case Cmd(c) => [TYPE_COMMAND] + EncodeCommand(c)
    case Kv(kv) => [TYPE_KV] + EncodeKv(kv)
  }

  function EncodeItem(item: Item): Bytes {
    VarU64(item.region) + EncodeContent(item.content)
  }

  function EncodeItems(items: seq<Item>): Bytes {
    if items == [] then [] else EncodeItem(items[0]) + EncodeItems(items[1..])
  }

  // -------------------------------------------------------------------- decoding

  function DecodeTails(buf: Bytes, count: nat, index: nat, size: nat): Parsed<seq<Ei>>
    decreases count
  {
    if count == 0 then Parsed([], buf, size) else
    match PlainDecode(buf)
    case Err(e) => Failed(Varint(e))
    case Ok(d) =>
      var end := d.value % TWO_32;
      if end < size then Failed(BadOffset) else
      match DecodeTails(d.rest, count - 1, index + 1, end)
      case Failed(e) => Failed(e)
      case Parsed(es, rest, size') => Parsed([Ei(index, size, end - size, NoCompression, None)] + es, rest, size')
  }

  function DecodeEntries(buf: Bytes, size: nat): Parsed<seq<Ei>> {
    match PlainDecode(buf)
    case Err(e) => Failed(Varint(e))
    case Ok(count) =>
      if count.value == 0 then Parsed([], count.rest, size) else
      match PlainDecode(count.rest)
      case Err(e) => Failed(Varint(e))
      case Ok(first) => DecodeTails(first.rest, count.value, first.value, size)
  }

  function DecodeCommand(buf: Bytes): Parsed<Command> {
    if buf == [] then Failed(Varint(UnexpectedEof))
    else if buf[0] == CMD_CLEAN then Parsed(Clean, buf[1..], 0)
    else if buf[0] != CMD_COMPACT then Failed(Unrecognized)
    else match PlainDecode(buf[1..])
      case Err(e) => Failed(Varint(e))
      case Ok(d) => DecodedFits(buf[1..]); Parsed(Compact(d.value), d.rest, 0)
  }

  /** A length, then that many bytes. */
  function DecodeBytes(buf: Bytes): Parsed<Bytes> {
    match PlainDecode(buf)
    case Err(e) => Failed(Varint(e))
    case Ok(d) => if d.value > |d.rest| then Failed(TooShort) else Parsed(d.rest[..d.value], d.rest[d.value..], 0)
  }

  function DecodeKv(buf: Bytes): Parsed<KeyValue> {
    if buf == [] then Failed(Varint(UnexpectedEof))
    else if buf[0] != OP_PUT && buf[0] != OP_DEL then Failed(Unrecognized)
    else match DecodeBytes(buf[1..])
      case Failed(e) => Failed(e)
      case Parsed(key, rest, _) =>
        if buf[0] == OP_DEL then Parsed(Del(key, None), rest, 0) else
        match DecodeBytes(rest)
        case Failed(e) => Failed(e)
        case Parsed(value, rest', _) => Parsed(Put(key, value, None), rest', 0)
  }

  function DecodeContent(buf: Bytes, size: nat): Parsed<Content> {
    if buf == [] then Failed(Varint(UnexpectedEof))
    else if buf[0] == TYPE_ENTRIES then
      match DecodeEntries(buf[1..], size)
      case Failed(e) => Failed(e)
      case Parsed(es, rest, size') => Parsed(Entries(es), rest, size')
    else if buf[0] == TYPE_COMMAND then
      match DecodeCommand(buf[1..])
      case Failed(e) => Failed(e)
      case Parsed(c, rest, _) => Parsed(Cmd(c), rest, size)
    else if buf[0] == TYPE_KV then
      match DecodeKv(buf[1..])
      case Failed(e) => Failed(e)
      case Parsed(kv, rest, _) => Parsed(Kv(kv), rest, size)
    else Failed(Unrecognized)
  }

  function DecodeItem(buf: Bytes, size: nat): Parsed<Item> {
    match PlainDecode(buf)
    case Err(e) => Failed(Varint(e))
    case Ok(region) =>
      DecodedFits(buf);
      match DecodeContent(region.rest, size)
      case Failed(e) => Failed(e)
      case Parsed(content, rest, size') => Parsed(Item(region.value, content), rest, size')
  }

  function DecodeItems(buf: Bytes, count: nat, size: nat): Parsed<seq<Item>>
    decreases count
  {
    if count == 0 then Parsed([], buf, size) else
    match DecodeItem(buf, size)
    case Failed(e) => Failed(e)
    case Parsed(item, rest, size') =>
      match DecodeItems(rest, count - 1, size')
      case Failed(e) => Failed(e)
      case Parsed(items, rest', size'') => Parsed([item] + items, rest', size'')
  }

  // ---------------------------------------------------------- what can be encoded

  function EndOf(es: seq<Ei>, size: nat): nat {
    if es == [] then size else EndOf(es[1..], size + es[0].len)
  }

  /** Entries lie back to back from `size` on, and their offsets fit in 32 bits. */
  predicate LaidEntries(es: seq<Ei>, size: nat) {
    es == [] || (es[0].offset == size && size + es[0].len < TWO_32 && LaidEntries(es[1..], size + es[0].len))
  }

  function ItemEnd(item: Item, size: nat): nat {
    if item.content.Entries? then EndOf(item.content.es, size) else size
  }

  function ItemsEnd(items: seq<Item>, size: nat): nat {
    if items == [] then size else ItemsEnd(items[1..], ItemEnd(items[0], size))
  }

  /** Lengths and first indexes are 64-bit numbers. */
  predicate Fits(item: Item) {
    match item.content
    case Entries(es) => |es| < TWO_64 && (es != [] ==> es[0].index < TWO_64)
    case Cmd(_) => true
    case Kv(kv) => |kv.key| < TWO_64 && (kv.Put? ==> |kv.value| < TWO_64)
  }

  predicate Laid(items: seq<Item>, size: nat) {
    items == [] || (&& Fits(items[0])
                    && (items[0].content.Entries? ==> LaidEntries(items[0].content.es, size))
                    && Laid(items[1..], ItemEnd(items[0], size)))
  }

  // --------------------------------------------------------------------- lifecycle

  /** Entries numbered from `index`, with no location. */
  function Renumbered(es: seq<Ei>, index: nat): seq<Ei> {
    if es == [] then [] else
    [Ei(index, es[0].offset, es[0].len, NoCompression, None)] + Renumbered(es[1..], index + 1)
  }

  function RenumberedItem(item: Item): Item {
    match item.content
    case Entries(es) => item.(content := Entries(if es == [] then [] else Renumbered(es, es[0].index)))
    case Cmd(_) => item
    case Kv(Put(key, value, _)) => item.(content := Kv(Put(key, value, None)))
    case Kv(Del(key, _)) => item.(content := Kv(Del(key, None)))
  }

  function RenumberedItems(items: seq<Item>): seq<Item> {
    if items == [] then [] else [RenumberedItem(items[0])] + RenumberedItems(items[1..])
  }

  function StampedEntries(es: seq<Ei>, ct: CompressionType, block: FileBlockHandle): seq<Ei> {
    if es == [] then [] else
    [es[0].(compression := ct, block := Some(block))] + StampedEntries(es[1..], ct, block)
  }

  /** Items with the location of their block: what both writing and decoding end with. */
  function Stamped(items: seq<Item>, ct: CompressionType, block: FileBlockHandle): seq<Item> {
    if items == [] then [] else
    var item := items[0];
    var content := match item.content
      case Entries(es) => Entries(StampedEntries(es, ct, block))
      case Cmd(c) => Cmd(c)
      case Kv(kv) => Kv(kv.(file := Some(block.id)));
    [item.(content := content)] + Stamped(items[1..], ct, block)
  }

  predicate ConsecutiveEntries(es: seq<Ei>) {
    forall k :: 0 <= k < |es| ==> es[k].index == es[0].index + k
  }

  predicate AllConsecutive(items: seq<Item>) {
    forall i :: 0 <= i < |items| && items[i].content.Entries? ==> ConsecutiveEntries(items[i].content.es)
  }

  // ------------------------------------------------------------------- round trips

  lemma Glue(a: Bytes, b: Bytes, c: Bytes)
    ensures a + b + c == a + (b + c)
  {
  }

  lemma Glue4(a: Bytes, b: Bytes, c: Bytes, d: Bytes)
    ensures a + b + c + d == a + (b + (c + d))
  {
  }

  lemma GlueHead(x: Byte, b: Bytes, c: Bytes)
    ensures [x] + b + c == [x] + (b + c) && ([x] + b + c)[0] == x && ([x] + b + c)[1..] == b + c
  {
  }

  lemma TailsStep(buf: Bytes, count: nat, index: nat, size: nat, end: nat, next: Bytes, rest: Parsed<seq<Ei>>)
    requires count > 0 && size <= end < TWO_32 && PlainDecode(buf) == Ok(Decoded(end, next))
    requires DecodeTails(next, count - 1, index + 1, end) == rest && rest.Parsed?
    ensures DecodeTails(buf, count, index, size)
         == rest.(value := [Ei(index, size, end - size, NoCompression, None)] + rest.value)
  {
  }

  lemma {:induction false} TailsRoundTrip(es: seq<Ei>, index: nat, size: nat, rest: Bytes)
    requires LaidEntries(es, size)
    ensures DecodeTails(Tails(es) + rest, |es|, index, size) == Parsed(Renumbered(es, index), rest, EndOf(es, size))
    decreases |es|
  {
    if es == [] {
      assert Tails(es) + rest == rest;
    } else {
      var end, more := es[0].offset + es[0].len, Tails(es[1..]);
      var later := Parsed(Renumbered(es[1..], index + 1), rest, EndOf(es[1..], end));
      assert PlainDecode(Tails(es) + rest) == Ok(Decoded(end, more + rest)) by {
        Glue(VarU64(end), more, rest);
        VarU64RoundTrip(end, more + rest);
      }
      assert DecodeTails(more + rest, |es| - 1, index + 1, end) == later by {
        TailsRoundTrip(es[1..], index + 1, end, rest);
      }
      assert DecodeTails(Tails(es) + rest, |es|, index, size)
          == later.(value := [Ei(index, size, end - size, NoCompression, None)] + later.value) by {
        TailsStep(Tails(es) + rest, |es|, index, size, end, more + rest, later);
      }
    }
  }

  lemma EntriesRoundTrip(es: seq<Ei>, size: nat, rest: Bytes)
    requires LaidEntries(es, size) && |es| < TWO_64 && (es != [] ==> es[0].index < TWO_64)
    ensures DecodeEntries(EncodeEntries(es) + rest, size)
         == Parsed(if es == [] then [] else Renumbered(es, es[0].index), rest, EndOf(es, size))
  {
    var buf := EncodeEntries(es) + rest;
    if es == [] {
      assert buf == VarU64(0) + rest by { Glue4(VarU64(0), [], [], rest); }
      VarU64RoundTrip(0, rest);
    } else {
      var tail := Tails(es) + rest;
      var next := VarU64(es[0].index) + tail;
      assert buf == VarU64(|es|) + next by { Glue4(VarU64(|es|), VarU64(es[0].index), Tails(es), rest); }
      assert PlainDecode(buf) == Ok(Decoded(|es|, next)) by { VarU64RoundTrip(|es|, next); }
      assert PlainDecode(next) == Ok(Decoded(es[0].index, tail)) by { VarU64RoundTrip(es[0].index, tail); }
      TailsRoundTrip(es, es[0].index, size, rest);
    }
  }

  lemma CommandRoundTrip(c: Command, rest: Bytes)
    ensures DecodeCommand(EncodeCommand(c) + rest) == Parsed(c, rest, 0)
  {
    var buf := EncodeCommand(c) + rest;
    match c
    case Clean => assert buf[1..] == rest;
    case Compact(index) =>
      GlueHead(CMD_COMPACT, VarU64(index), rest);
      VarU64RoundTrip(index, rest);
  }

  lemma BytesRoundTrip(b: Bytes, rest: Bytes)
    requires |b| < TWO_64
    ensures DecodeBytes(VarU64(|b|) + (b + rest)) == Parsed(b, rest, 0)
  {
    VarU64RoundTrip(|b|, b + rest);
    assert (b + rest)[..|b|] == b && (b + rest)[|b|..] == rest;
  }

  lemma GlueKv(op: Byte, klen: Bytes, key: Bytes, vlen: Bytes, value: Bytes, rest: Bytes)
    ensures [op] + klen + key + vlen + value + rest == [op] + (klen + (key + (vlen + (value + rest))))
    ensures [op] + klen + key + rest == [op] + (klen + (key + rest))
  {
  }

  lemma KvRoundTrip(kv: KeyValue, rest: Bytes)
    requires |kv.key| < TWO_64 && (kv.Put? ==> |kv.value| < TWO_64)
    ensures DecodeKv(EncodeKv(kv) + rest) == Parsed(kv.(file := None), rest, 0)
  {
    var buf := EncodeKv(kv) + rest;
    match kv
    case Del(key, _) =>
      var tail := VarU64(|key|) + (key + rest);
      assert buf == [OP_DEL] + tail by { GlueKv(OP_DEL, VarU64(|key|), key, [], [], rest); }
      assert buf[1..] == tail;
      BytesRoundTrip(key, rest);
    case Put(key, value, _) =>
      var tail := VarU64(|value|) + (value + rest);
      var all := VarU64(|key|) + (key + tail);
      assert buf == [OP_PUT] + all by { GlueKv(OP_PUT, VarU64(|key|), key, VarU64(|value|), value, rest); }
      assert buf[1..] == all;
      BytesRoundTrip(key, tail);
      BytesRoundTrip(value, rest);
  }

  lemma ContentRoundTrip(content: Content, size: nat, rest: Bytes)
    requires Fits(Item(0, content)) && (content.Entries? ==> LaidEntries(content.es, size))
    ensures DecodeContent(EncodeContent(content) + rest, size)
         == Parsed(RenumberedItem(Item(0, content)).content, rest, ItemEnd(Item(0, content), size))
  {
    match content
    case Entries(es) =>
      GlueHead(TYPE_ENTRIES, EncodeEntries(es), rest);
      EntriesRoundTrip(es, size, rest);
    case Cmd(c) =>
      GlueHead(TYPE_COMMAND, EncodeCommand(c), rest);
      CommandRoundTrip(c, rest);
    case Kv(kv) =>
      GlueHead(TYPE_KV, EncodeKv(kv), rest);
      KvRoundTrip(kv, rest);
  }

  lemma ItemRoundTrip(item: Item, size: nat, rest: Bytes)
    requires Fits(item) && (item.content.Entries? ==> LaidEntries(item.content.es, size))
    ensures DecodeItem(EncodeItem(item) + rest, size) == Parsed(RenumberedItem(item), rest, ItemEnd(item, size))
  {
    var body := EncodeContent(item.content);
    Glue(VarU64(item.region), body, rest);
    assert PlainDecode(EncodeItem(item) + rest) == Ok(Decoded(item.region, body + rest)) by {
      VarU64RoundTrip(item.region, body + rest);
    }
    ContentRoundTrip(item.content, size, rest);
  }

  lemma ItemsStep(buf: Bytes, count: nat, size: nat, first: Parsed<Item>, rest: Parsed<seq<Item>>)
    requires count > 0 && DecodeItem(buf, size) == first && first.Parsed?
    requires DecodeItems(first.rest, count - 1, first.size) == rest && rest.Parsed?
    ensures DecodeItems(buf, count, size) == rest.(value := [first.value] + rest.value)
  {
  }

  lemma ItemsCons(item: Item, count: nat, size: nat, more: Bytes, later: Parsed<seq<Item>>)
    requires Fits(item) && (item.content.Entries? ==> LaidEntries(item.content.es, size))
    requires later.Parsed? && DecodeItems(more, count, ItemEnd(item, size)) == later
    ensures DecodeItems(EncodeItem(item) + more, count + 1, size)
         == later.(value := [RenumberedItem(item)] + later.value)
  {
    var first := Parsed(RenumberedItem(item), more, ItemEnd(item, size));
    assert DecodeItem(EncodeItem(item) + more, size) == first by { ItemRoundTrip(item, size, more); }
    ItemsStep(EncodeItem(item) + more, count + 1, size, first, later);
  }

  /** Decoding gives the items back, renumbered from each first index. */
  ghost predicate Decodes(items: seq<Item>, size: nat, rest: Bytes) {
    DecodeItems(EncodeItems(items) + rest, |items|, size)
    == Parsed(RenumberedItems(items), rest, ItemsEnd(items, size))
  }

  lemma EncodeItemsCons(item: Item, others: seq<Item>, rest: Bytes)
    ensures EncodeItems([item] + others) + rest == EncodeItem(item) + (EncodeItems(others) + rest)
  {
    assert ([item] + others)[1..] == others;
    Glue(EncodeItem(item), EncodeItems(others), rest);
  }

  lemma RenumberedCons(item: Item, others: seq<Item>, size: nat)
    ensures RenumberedItems([item] + others) == [RenumberedItem(item)] + RenumberedItems(others)
    ensures ItemsEnd([item] + others, size) == ItemsEnd(others, ItemEnd(item, size))
  {
    assert ([item] + others)[1..] == others;
  }

  lemma DecodesCons(item: Item, others: seq<Item>, size: nat, rest: Bytes)
    requires Fits(item) && (item.content.Entries? ==> LaidEntries(item.content.es, size))
    requires Decodes(others, ItemEnd(item, size), rest)
    ensures Decodes([item] + others, size, rest)
  {
    var later := Parsed(RenumberedItems(others), rest, ItemsEnd(others, ItemEnd(item, size)));
    ItemsCons(item, |others|, size, EncodeItems(others) + rest, later);
    EncodeItemsCons(item, others, rest);
    RenumberedCons(item, others, size);
  }

  lemma {:induction false} ItemsRoundTrip(items: seq<Item>, size: nat, rest: Bytes)
    requires Laid(items, size)
    ensures Decodes(items, size, rest)
    decreases |items|
  {
    if items == [] {
      assert EncodeItems(items) + rest == rest;
    } else {
      assert Decodes([items[0]] + items[1..], size, rest) by {
        ItemsRoundTrip(items[1..], ItemEnd(items[0], size), rest);
        DecodesCons(items[0], items[1..], size, rest);
      }
      assert [items[0]] + items[1..] == items;
    }
  }

  lemma {:induction false} RenumberedAt(es: seq<Ei>, index: nat, ct: CompressionType, block: FileBlockHandle)
    ensures |Renumbered(es, index)| == |es|
    ensures StampedEntries(Renumbered(es, index), ct, block) == StampedEntries(es, ct, block)
            <==> forall k :: 0 <= k < |es| ==> es[k].index == index + k
    decreases |es|
  {
    if es != [] {
      RenumberedAt(es[1..], index + 1, ct, block);
      var a, b := StampedEntries(Renumbered(es, index), ct, block), StampedEntries(es, ct, block);
      assert Renumbered(es, index)[1..] == Renumbered(es[1..], index + 1);
      assert a[0] == b[0] <==> es[0].index == index;
      assert a == b <==> a[0] == b[0] && a[1..] == b[1..];
      if forall k :: 0 <= k < |es[1..]| ==> es[1..][k].index == index + 1 + k {
        forall k | 1 <= k < |es| ensures es[k].index == index + k { assert es[k] == es[1..][k - 1]; }
      }
    }
  }

  /** Renumbering changes nothing exactly when the indexes of each item are consecutive. */
  lemma {:induction false} RenumberedIsSame(items: seq<Item>, ct: CompressionType, block: FileBlockHandle)
    ensures Stamped(RenumberedItems(items), ct, block) == Stamped(items, ct, block) <==> AllConsecutive(items)
    decreases |items|
  {
    if items != [] {
      RenumberedIsSame(items[1..], ct, block);
      var a, b := Stamped(RenumberedItems(items), ct, block), Stamped(items, ct, block);
      assert RenumberedItems(items)[1..] == RenumberedItems(items[1..]);
      assert a == b <==> a[0] == b[0] && a[1..] == b[1..];
      assert a[0] == b[0] <==> (items[0].content.Entries? ==> ConsecutiveEntries(items[0].content.es)) by {
        if items[0].content.Entries? && items[0].content.es != [] {
          RenumberedAt(items[0].content.es, items[0].content.es[0].index, ct, block);
        }
      }
      if AllConsecutive(items[1..]) {
        forall i | 1 <= i < |items| && items[i].content.Entries? ensures ConsecutiveEntries(items[i].content.es) {
          assert items[i] == items[1..][i - 1];
        }
      }
    }
  }

  // ------------------------------------------------------------ the loops of the code

  predicate EntriesFit(es: seq<Ei>) {
    |es| < TWO_64 && (es != [] ==> es[0].index < TWO_64) && forall k :: 0 <= k < |es| ==> es[k].offset + es[k].len < TWO_32
  }

  method EncodeEntryIndexes(es: seq<Ei>) returns (out: Bytes)
    requires EntriesFit(es)
    ensures out == EncodeEntries(es)
  {
    out := EncodeVarU64(|es|);
    if |es| > 0 {
      var first := EncodeVarU64(es[0].index);
      out := out + first;
    }
    for i := 0 to |es|
      invariant out + Tails(es[i..]) == EncodeEntries(es)
    {
      var end := es[i].offset + es[i].len;
      var tail := EncodeVarU64(end);
      assert es[i..][1..] == es[i + 1..];
      Glue(out, tail, Tails(es[i + 1..]));
      out := out + tail;
    }
  }

  /** What is decoded after `done` entries were. */
  function After(done: seq<Ei>, more: Parsed<seq<Ei>>): Parsed<seq<Ei>> {
    if more.Failed? then more else more.(value := done + more.value)
  }

  lemma AfterStep(done: seq<Ei>, buf: Bytes, count: nat, index: nat, size: nat)
    requires count > 0
    ensures var d := PlainDecode(buf);
            After(done, DecodeTails(buf, count, index, size)) ==
            if d.Err? then Failed(Varint(d.error))
            else if d.value.value % TWO_32 < size then Failed(BadOffset)
            else After(done + [Ei(index, size, d.value.value % TWO_32 - size, NoCompression, None)],
                       DecodeTails(d.value.rest, count - 1, index + 1, d.value.value % TWO_32))
  {
    var d := PlainDecode(buf);
    if d.Ok? && d.value.value % TWO_32 >= size {
      var e := Ei(index, size, d.value.value % TWO_32 - size, NoCompression, None);
      var more := DecodeTails(d.value.rest, count - 1, index + 1, d.value.value % TWO_32);
      if more.Parsed? { assert done + ([e] + more.value) == (done + [e]) + more.value; }
    }
  }

  lemma AfterEnds(done: seq<Ei>, more: Parsed<seq<Ei>>, buf: Bytes, size: nat)
    ensures After([], more) == more && After(done, Parsed([], buf, size)) == Parsed(done, buf, size)
  {
    if more.Parsed? { assert [] + more.value == more.value; }
    assert done + [] == done;
  }

  method DecodeEntryIndexes(data: Bytes, entriesSize: nat) returns (r: Parsed<seq<Ei>>)
    ensures r == DecodeEntries(data, entriesSize)
  {
    hide PlainDecode;
    var count := DecodeVarU64(data);
    if count.Err? { return Failed(Varint(count.error)); }
    var left: nat, buf, size: nat, index: nat := count.value.value, count.value.rest, entriesSize, 0;
    if left > 0 {
      var first := DecodeVarU64(buf);
      if first.Err? { return Failed(Varint(first.error)); }
      index, buf := first.value.value, first.value.rest;
    }
    var es: seq<Ei> := [];
    AfterEnds(es, DecodeTails(buf, left, index, size), buf, size);
    while left > 0
      invariant After(es, DecodeTails(buf, left, index, size)) == DecodeEntries(data, entriesSize)
    {
      var t := DecodeVarU64(buf);
      AfterStep(es, buf, left, index, size);
      if t.Err? { return Failed(Varint(t.error)); }
      var end := t.value.value % TWO_32;
      if end < size { return Failed(BadOffset); }
      es := es + [Ei(index, size, end - size, NoCompression, None)];
      buf, size, index, left := t.value.rest, end, index + 1, left - 1;
    }
    AfterEnds(es, Parsed(es, buf, size), buf, size);
    return Parsed(es, buf, size);
  }

  lemma {:induction false} LaidEntriesFit(es: seq<Ei>, size: nat)
    requires LaidEntries(es, size)
    ensures forall k :: 0 <= k < |es| ==> es[k].offset + es[k].len < TWO_32
    decreases |es|
  {
    if es != [] {
      LaidEntriesFit(es[1..], size + es[0].len);
      forall k | 1 <= k < |es| ensures es[k].offset + es[k].len < TWO_32 { assert es[k] == es[1..][k - 1]; }
    }
  }

  method EncodeLogItem(item: Item) returns (out: Bytes)
    requires Fits(item) && (item.content.Entries? ==> EntriesFit(item.content.es))
    ensures out == EncodeItem(item)
  {
    out := EncodeVarU64(item.region);
    var body: Bytes;
    match item.content {
      case Entries(es) =>
        body := EncodeEntryIndexes(es);
        body := [TYPE_ENTRIES] + body;
      case Cmd(Clean) =>
        body := [TYPE_COMMAND] + [CMD_CLEAN];
      case Cmd(Compact(index)) =>
        body := EncodeVarU64(index);
        body := [TYPE_COMMAND] + ([CMD_COMPACT] + body);
      case Kv(Del(key, _)) =>
        var klen := EncodeVarU64(|key|);
        body := [TYPE_KV] + ([OP_DEL] + klen + key);
      case Kv(Put(key, value, _)) =>
        var klen := EncodeVarU64(|key|);
        var vlen := EncodeVarU64(|value|);
        body := [TYPE_KV] + ([OP_PUT] + klen + key + vlen + value);
    }
    assert body == EncodeContent(item.content);
    out := out + body;
  }

  method EncodeLogItems(items: seq<Item>) returns (out: Bytes)
    requires Laid(items, 0) && |items| < TWO_64
    ensures out == VarU64(|items|) + EncodeItems(items)
  {
    out := EncodeVarU64(|items|);
    ghost var size := 0;
    for i := 0 to |items|
      invariant Laid(items[i..], size) && out + EncodeItems(items[i..]) == VarU64(|items|) + EncodeItems(items)
    {
      assert items[i..][0] == items[i] && items[i..][1..] == items[i + 1..];
      if items[i].content.Entries? { LaidEntriesFit(items[i].content.es, size); }
      var bytes := EncodeLogItem(items[i]);
      Glue(out, bytes, EncodeItems(items[i + 1..]));
      out := out + bytes;
      size := ItemEnd(items[i], size);
    }
    assert out == out + EncodeItems(items[|items|..]);
  }
}
