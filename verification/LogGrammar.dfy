/**
 Which bytes are log items: a grammar that knows nothing of decoding, and decoders that accept
 exactly its strings. What is malformed is refused, whatever follows it.
 */
module LogGrammar {
  import opened PipeLog
  import opened Codec
  import opened LogItems

  // --------------------------------------------------------------------- the grammar

  /** The bytes are one number and nothing else. */
  predicate Number(b: Bytes, v: nat) { PlainDecode(b) == Ok(Decoded(v, [])) }

  /** A length and that many bytes. */
  predicate Counted(b: Bytes, x: Bytes) {
    exists k :: 0 <= k <= |b| && Number(b[..k], |x|) && b[k..] == x
  }

  predicate IsCommand(b: Bytes, c: Command) {
    match c
    case Clean => b == [CMD_CLEAN]
    case Compact(index) => |b| > 0 && b[0] == CMD_COMPACT && Number(b[1..], index)
  }

  predicate IsKv(b: Bytes, kv: KeyValue) {
    |b| > 0 &&
    match kv
    case Put(key, value, file) => b[0] == OP_PUT && file == None && TwoCounted(b[1..], key, value)
    case Del(key, file) => b[0] == OP_DEL && file == None && Counted(b[1..], key)
  }

  predicate TwoCounted(b: Bytes, x: Bytes, y: Bytes) {
    exists k :: 0 <= k <= |b| && Counted(b[..k], x) && Counted(b[k..], y)
  }

  /** End offsets, in 32 bits and never going back, from which offsets and lengths follow. */
  predicate IsTails(b: Bytes, es: seq<Ei>, index: nat, size: nat, size': nat)
    decreases |es|
  {
    if es == [] then b == [] && size' == size else
    exists k :: 0 <= k <= |b| && IsTail(b[..k], es[0], index, size)
                && IsTails(b[k..], es[1..], index + 1, size + es[0].len, size')
  }

  predicate IsTail(b: Bytes, e: Ei, index: nat, size: nat) {
    && PlainDecode(b).Ok? && Number(b, PlainDecode(b).value.value)
    && var end := PlainDecode(b).value.value % TWO_32;
    size <= end && e == Ei(index, size, end - size, NoCompression, None)
  }

  /** A count, then the first index and the end offsets if there are any. */
  predicate IsEntries(b: Bytes, es: seq<Ei>, size: nat, size': nat) {
    exists k :: 0 <= k <= |b| && Number(b[..k], |es|)
                && if es == [] then b[k..] == [] && size' == size else IndexAndTails(b[k..], es, size, size')
  }

  predicate IndexAndTails(b: Bytes, es: seq<Ei>, size: nat, size': nat)
    requires es != []
  {
    exists k :: 0 <= k <= |b| && Number(b[..k], es[0].index) && IsTails(b[k..], es, es[0].index, size, size')
  }

  predicate IsContent(b: Bytes, content: Content, size: nat, size': nat) {
    |b| > 0 &&
    match content
    case Entries(es) => b[0] == TYPE_ENTRIES && IsEntries(b[1..], es, size, size')
    case Cmd(c) => b[0] == TYPE_COMMAND && IsCommand(b[1..], c) && size' == size
    case Kv(kv) => b[0] == TYPE_KV && IsKv(b[1..], kv) && size' == size
  }

  predicate IsItem(b: Bytes, item: Item, size: nat, size': nat) {
    exists k :: 0 <= k <= |b| && Number(b[..k], item.region) && IsContent(b[k..], item.content, size, size')
  }

  ghost predicate IsItems(b: Bytes, items: seq<Item>, size: nat, size': nat)
    decreases |items|
  {
    if items == [] then b == [] && size' == size else
    exists k, mid :: 0 <= k <= |b| && IsItem(b[..k], items[0], size, mid) && IsItems(b[k..], items[1..], mid, size')
  }

  // ------------------------------------------------------------------------- numbers

  /** What is left is the end of what there was. */
  predicate Ends(buf: Bytes, rest: Bytes) { |rest| <= |buf| && buf[|buf| - |rest|..] == rest }

  lemma NumberEnds(buf: Bytes)
    ensures PlainDecode(buf).Ok? ==> Ends(buf, PlainDecode(buf).value.rest) && |PlainDecode(buf).value.rest| < |buf|
  {
  }

  lemma NumberExactly(b: Bytes, v: nat, rest: Bytes)
    ensures PlainDecode(b + rest) == Ok(Decoded(v, rest)) <==> Number(b, v)
  {
    hide PlainDecode, Number;
    if PlainDecode(b + rest) == Ok(Decoded(v, rest)) {
      NumberRead(b, v, rest);
    }
    if Number(b, v) {
      NumberWritten(b, v, rest);
    }
  }

  lemma NumberRead(b: Bytes, v: nat, rest: Bytes)
    requires PlainDecode(b + rest) == Ok(Decoded(v, rest))
    ensures Number(b, v)
  {
    hide Run, Value;
    var buf, n := b + rest, Run(b + rest);
    RunIs(buf);
    assert buf[n + 1..] == rest && |b| == n + 1;
    SameRun(b, buf, n);
    assert b[..n + 1] == buf[..n + 1] && b[n + 1..] == [];
  }

  lemma NumberWritten(b: Bytes, v: nat, rest: Bytes)
    requires Number(b, v)
    ensures PlainDecode(b + rest) == Ok(Decoded(v, rest))
  {
    hide Run, Value;
    var buf, n := b + rest, Run(b);
    RunIs(b);
    assert |b[n + 1..]| == 0 && |b| == n + 1;
    SameRun(buf, b, n);
    assert b[..n + 1] == buf[..n + 1] && buf[n + 1..] == rest;
  }

  lemma SameRun(s: Bytes, t: Bytes, n: nat)
    requires n < |s| && n < |t| && (forall j :: 0 <= j <= n ==> s[j] == t[j])
    requires t[n] < 128 && forall j :: 0 <= j < n ==> t[j] >= 128
    ensures Run(s) == n
  {
    RunExactly(s, n);
  }

  /** The bytes before the rest, and the same said of a buffer and its front. */
  lemma Split(buf: Bytes, b: Bytes, rest: Bytes, mid: Bytes) returns (k: nat)
    requires buf == b + rest && Ends(buf, mid) && |rest| <= |mid|
    ensures k <= |b| && mid == b[k..] + rest && buf == b[..k] + mid
  {
    k := |buf| - |mid|;
    assert buf[k..] == b[k..] + rest;
  }

  lemma CountedEnds(buf: Bytes)
    ensures DecodeBytes(buf).Parsed? ==> Ends(buf, DecodeBytes(buf).rest) && |DecodeBytes(buf).rest| < |buf| && DecodeBytes(buf).size == 0
  {
    hide PlainDecode;
    NumberEnds(buf);
  }

  lemma CountedExactly(b: Bytes, x: Bytes, rest: Bytes)
    ensures DecodeBytes(b + rest) == Parsed(x, rest, 0) <==> Counted(b, x)
  {
    hide DecodeBytes, Counted;
    if DecodeBytes(b + rest) == Parsed(x, rest, 0) {
      CountedRead(b, x, rest);
    }
    if Counted(b, x) {
      CountedWritten(b, x, rest);
    }
  }

  lemma CountedRead(b: Bytes, x: Bytes, rest: Bytes)
    requires DecodeBytes(b + rest) == Parsed(x, rest, 0)
    ensures Counted(b, x)
  {
    hide PlainDecode, Number;
    var buf := b + rest;
    var d := PlainDecode(buf).value;
    NumberEnds(buf);
    var k := Split(buf, b, rest, d.rest);
    assert d.value == |x| && d.rest[..|x|] == x && d.rest[|x|..] == rest;
    NumberExactly(b[..k], |x|, d.rest);
    SameFront(b[k..], x, rest, d.rest);
    assert Number(b[..k], |x|) && b[k..] == x;
  }

  lemma SameFront(a: Bytes, x: Bytes, rest: Bytes, all: Bytes)
    requires all == a + rest && |x| <= |all| && all[..|x|] == x && all[|x|..] == rest
    ensures a == x
  {
    assert |all| == |x| + |rest|;
    assert a == all[..|a|];
  }

  lemma CountedWritten(b: Bytes, x: Bytes, rest: Bytes)
    requires Counted(b, x)
    ensures DecodeBytes(b + rest) == Parsed(x, rest, 0)
  {
    hide PlainDecode, Number, DecodeBytes;
    var k :| 0 <= k <= |b| && Number(b[..k], |x|) && b[k..] == x;
    NumberExactly(b[..k], |x|, x + rest);
    Rejoin(b, k, rest);
    CountedBehind(b + rest, x, rest);
  }

  lemma CountedBehind(buf: Bytes, x: Bytes, rest: Bytes)
    requires PlainDecode(buf) == Ok(Decoded(|x|, x + rest))
    ensures DecodeBytes(buf) == Parsed(x, rest, 0)
  {
    hide PlainDecode;
    assert (x + rest)[..|x|] == x && (x + rest)[|x|..] == rest;
  }

  lemma Rejoin(b: Bytes, k: nat, rest: Bytes)
    requires k <= |b|
    ensures b + rest == b[..k] + (b[k..] + rest)
  {
  }

  // ------------------------------------------------------------- commands and pairs

  lemma CommandEnds(buf: Bytes)
    ensures DecodeCommand(buf).Parsed? ==> Ends(buf, DecodeCommand(buf).rest) && |DecodeCommand(buf).rest| < |buf| && DecodeCommand(buf).size == 0
  {
    hide PlainDecode;
    if buf != [] {
      NumberEnds(buf[1..]);
    }
  }

  lemma CommandExactly(b: Bytes, c: Command, rest: Bytes)
    ensures DecodeCommand(b + rest) == Parsed(c, rest, 0) <==> IsCommand(b, c)
  {
    hide PlainDecode, Number;
    var buf := b + rest;
    CommandEnds(buf);
    if b != [] {
      assert buf[0] == b[0] && buf[1..] == b[1..] + rest;
      if c.Compact? {
        NumberExactly(b[1..], c.index, rest);
      }
      assert c.Clean? && DecodeCommand(buf) == Parsed(c, rest, 0) ==> b == [CMD_CLEAN];
    }
  }

  lemma KvEnds(buf: Bytes)
    ensures DecodeKv(buf).Parsed? ==> Ends(buf, DecodeKv(buf).rest) && |DecodeKv(buf).rest| < |buf| && DecodeKv(buf).size == 0
  {
    hide DecodeBytes;
    if buf != [] {
      CountedEnds(buf[1..]);
      if DecodeBytes(buf[1..]).Parsed? {
        CountedEnds(DecodeBytes(buf[1..]).rest);
      }
    }
  }

  lemma TwoExactly(b: Bytes, x: Bytes, y: Bytes, rest: Bytes)
    ensures var first := DecodeBytes(b + rest);
            first.Parsed? && first.value == x && DecodeBytes(first.rest) == Parsed(y, rest, 0) <==> TwoCounted(b, x, y)
  {
    hide DecodeBytes, Counted;
    var buf := b + rest;
    var first := DecodeBytes(buf);
    if first.Parsed? && first.value == x && DecodeBytes(first.rest) == Parsed(y, rest, 0) {
      CountedEnds(buf);
      CountedEnds(first.rest);
      var k := Split(buf, b, rest, first.rest);
      CountedExactly(b[..k], x, first.rest);
      CountedExactly(b[k..], y, rest);
      assert Counted(b[..k], x);
    }
    if TwoCounted(b, x, y) {
      var k :| 0 <= k <= |b| && Counted(b[..k], x) && Counted(b[k..], y);
      CountedExactly(b[..k], x, b[k..] + rest);
      CountedExactly(b[k..], y, rest);
      Rejoin(b, k, rest);
    }
  }

  lemma KvExactly(b: Bytes, kv: KeyValue, rest: Bytes)
    ensures DecodeKv(b + rest) == Parsed(kv, rest, 0) <==> IsKv(b, kv)
  {
    hide DecodeBytes, Counted, TwoCounted;
    var buf := b + rest;
    KvEnds(buf);
    if b != [] {
      assert buf[0] == b[0] && buf[1..] == b[1..] + rest;
      CountedEnds(buf[1..]);
      CountedExactly(b[1..], kv.key, rest);
      if kv.Put? {
        TwoExactly(b[1..], kv.key, kv.value, rest);
        if DecodeBytes(buf[1..]).Parsed? { CountedEnds(DecodeBytes(buf[1..]).rest); }
      }
    }
  }

  // ------------------------------------------------------------------------- entries

  lemma {:induction false} TailsEnd(buf: Bytes, count: nat, index: nat, size: nat)
    ensures var r := DecodeTails(buf, count, index, size); r.Parsed? ==> Ends(buf, r.rest) && |r.value| == count
    decreases count
  {
    hide PlainDecode;
    if count > 0 && PlainDecode(buf).Ok? {
      var d := PlainDecode(buf).value;
      NumberEnds(buf);
      TailsEnd(d.rest, count - 1, index + 1, d.value % TWO_32);
    }
  }

  lemma {:induction false} TailsExactly(b: Bytes, es: seq<Ei>, index: nat, size: nat, size': nat, rest: Bytes)
    ensures DecodeTails(b + rest, |es|, index, size) == Parsed(es, rest, size') <==> IsTails(b, es, index, size, size')
    decreases |es|
  {
    hide PlainDecode, DecodeTails, IsTails;
    if es == [] {
      NoTails(b, index, size, size', rest);
    } else {
      if DecodeTails(b + rest, |es|, index, size) == Parsed(es, rest, size') {
        TailsRead(b, es, index, size, size', rest);
      }
      if IsTails(b, es, index, size, size') {
        TailsWritten(b, es, index, size, size', rest);
      }
    }
  }

  lemma NoTails(b: Bytes, index: nat, size: nat, size': nat, rest: Bytes)
    ensures DecodeTails(b + rest, 0, index, size) == Parsed([], rest, size') <==> IsTails(b, [], index, size, size')
  {
    assert b + rest == rest ==> b == [] by { assert |b + rest| == |b| + |rest|; }
  }

  lemma {:induction false} TailsRead(b: Bytes, es: seq<Ei>, index: nat, size: nat, size': nat, rest: Bytes)
    requires es != [] && DecodeTails(b + rest, |es|, index, size) == Parsed(es, rest, size')
    ensures IsTails(b, es, index, size, size')
    decreases |es|, 0
  {
    hide PlainDecode;
    var buf := b + rest;
    var d := PlainDecode(buf).value;
    var end := d.value % TWO_32;
    NumberEnds(buf);
    TailsEnd(d.rest, |es| - 1, index + 1, end);
    var k := Split(buf, b, rest, d.rest);
    NumberExactly(b[..k], d.value, d.rest);
    assert PlainDecode(b[..k]) == Ok(Decoded(d.value, []));
    assert IsTail(b[..k], es[0], index, size);
    assert DecodeTails(b[k..] + rest, |es| - 1, index + 1, end) == Parsed(es[1..], rest, size');
    TailsExactly(b[k..], es[1..], index + 1, end, size', rest);
  }

  lemma {:induction false} TailsWritten(b: Bytes, es: seq<Ei>, index: nat, size: nat, size': nat, rest: Bytes)
    requires es != [] && IsTails(b, es, index, size, size')
    ensures DecodeTails(b + rest, |es|, index, size) == Parsed(es, rest, size')
    decreases |es|, 0
  {
    hide PlainDecode, DecodeTails, IsTail;
    var k :| 0 <= k <= |b| && IsTail(b[..k], es[0], index, size)
             && IsTails(b[k..], es[1..], index + 1, size + es[0].len, size');
    TailsExactly(b[k..], es[1..], index + 1, size + es[0].len, size', rest);
    Rejoin(b, k, rest);
    TailFirst(b[..k], es, index, size, size', b[k..] + rest, rest);
  }

  lemma TailFirst(b: Bytes, es: seq<Ei>, index: nat, size: nat, size': nat, more: Bytes, rest: Bytes)
    requires es != [] && IsTail(b, es[0], index, size)
    requires DecodeTails(more, |es| - 1, index + 1, size + es[0].len) == Parsed(es[1..], rest, size')
    ensures DecodeTails(b + more, |es|, index, size) == Parsed(es, rest, size')
  {
    hide PlainDecode;
    NumberExactly(b, PlainDecode(b).value.value, more);
    assert [es[0]] + es[1..] == es;
  }

  lemma EntriesEnd(buf: Bytes, size: nat)
    ensures DecodeEntries(buf, size).Parsed? ==> Ends(buf, DecodeEntries(buf, size).rest)
  {
    hide PlainDecode, DecodeTails;
    NumberEnds(buf);
    if PlainDecode(buf).Ok? {
      var count := PlainDecode(buf).value;
      NumberEnds(count.rest);
      if PlainDecode(count.rest).Ok? {
        var first := PlainDecode(count.rest).value;
        TailsEnd(first.rest, count.value, first.value, size);
      }
    }
  }

  lemma EntriesExactly(b: Bytes, es: seq<Ei>, size: nat, size': nat, rest: Bytes)
    ensures DecodeEntries(b + rest, size) == Parsed(es, rest, size') <==> IsEntries(b, es, size, size')
  {
    hide PlainDecode, DecodeTails, IsTails;
    if DecodeEntries(b + rest, size) == Parsed(es, rest, size') {
      EntriesRead(b, es, size, size', rest);
    }
    if IsEntries(b, es, size, size') {
      EntriesWritten(b, es, size, size', rest);
    }
  }

  lemma EntriesRead(b: Bytes, es: seq<Ei>, size: nat, size': nat, rest: Bytes)
    requires DecodeEntries(b + rest, size) == Parsed(es, rest, size')
    ensures IsEntries(b, es, size, size')
  {
    hide PlainDecode, DecodeTails, IsTails;
    var buf := b + rest;
    var count := PlainDecode(buf).value;
    NumberEnds(buf);
    EntriesEnd(buf, size);
    if count.value > 0 {
      var first := PlainDecode(count.rest).value;
      NumberEnds(count.rest);
      TailsEnd(first.rest, count.value, first.value, size);
    }
    var k := Split(buf, b, rest, count.rest);
    NumberExactly(b[..k], count.value, count.rest);
    assert Number(b[..k], count.value);
    if count.value > 0 {
      var first := PlainDecode(count.rest).value;
      FirstIs(first.rest, count.value, first.value, size);
      var j := Split(count.rest, b[k..], rest, first.rest);
      NumberExactly(b[k..][..j], first.value, first.rest);
      TailsExactly(b[k..][j..], es, first.value, size, size', rest);
      assert IndexAndTails(b[k..], es, size, size');
    }
  }

  /** Decoded entries start at the index given. */
  lemma FirstIs(buf: Bytes, count: nat, index: nat, size: nat)
    requires count > 0 && DecodeTails(buf, count, index, size).Parsed?
    ensures var es := DecodeTails(buf, count, index, size).value; |es| == count && es[0].index == index
  {
    hide PlainDecode;
    TailsEnd(buf, count, index, size);
  }

  lemma EntriesWritten(b: Bytes, es: seq<Ei>, size: nat, size': nat, rest: Bytes)
    requires IsEntries(b, es, size, size')
    ensures DecodeEntries(b + rest, size) == Parsed(es, rest, size')
  {
    hide PlainDecode, DecodeTails, IndexAndTails, Number;
    var k :| 0 <= k <= |b| && Number(b[..k], |es|)
             && if es == [] then b[k..] == [] && size' == size else IndexAndTails(b[k..], es, size, size');
    NumberExactly(b[..k], |es|, b[k..] + rest);
    Rejoin(b, k, rest);
    if es == [] {
      assert b[k..] + rest == rest;
    } else {
      IndexWritten(b[k..], es, size, size', rest);
    }
  }

  lemma IndexWritten(b: Bytes, es: seq<Ei>, size: nat, size': nat, rest: Bytes)
    requires es != [] && IndexAndTails(b, es, size, size')
    ensures PlainDecode(b + rest).Ok?
    ensures var first := PlainDecode(b + rest).value;
            DecodeTails(first.rest, |es|, first.value, size) == Parsed(es, rest, size')
  {
    hide PlainDecode, DecodeTails, IsTails, Number;
    var k :| 0 <= k <= |b| && Number(b[..k], es[0].index) && IsTails(b[k..], es, es[0].index, size, size');
    NumberExactly(b[..k], es[0].index, b[k..] + rest);
    Rejoin(b, k, rest);
    TailsExactly(b[k..], es, es[0].index, size, size', rest);
  }

  // --------------------------------------------------------------------------- items

  lemma ContentEnds(buf: Bytes, size: nat)
    ensures DecodeContent(buf, size).Parsed? ==> Ends(buf, DecodeContent(buf, size).rest) && |DecodeContent(buf, size).rest| < |buf|
  {
    hide DecodeEntries, DecodeCommand, DecodeKv;
    if buf != [] {
      EntriesEnd(buf[1..], size);
      CommandEnds(buf[1..]);
      KvEnds(buf[1..]);
    }
  }

  lemma ContentExactly(b: Bytes, content: Content, size: nat, size': nat, rest: Bytes)
    ensures DecodeContent(b + rest, size) == Parsed(content, rest, size') <==> IsContent(b, content, size, size')
  {
    hide DecodeEntries, DecodeCommand, DecodeKv, IsEntries, IsCommand, IsKv;
    var buf := b + rest;
    ContentEnds(buf, size);
    if b != [] {
      assert buf[0] == b[0] && buf[1..] == b[1..] + rest;
      CommandEnds(buf[1..]);
      KvEnds(buf[1..]);
      match content
      case Entries(es) => EntriesExactly(b[1..], es, size, size', rest);
      case Cmd(c) => CommandExactly(b[1..], c, rest);
      case Kv(kv) => KvExactly(b[1..], kv, rest);
    }
  }

  lemma ItemEnds(buf: Bytes, size: nat)
    ensures DecodeItem(buf, size).Parsed? ==> Ends(buf, DecodeItem(buf, size).rest) && |DecodeItem(buf, size).rest| < |buf|
  {
    hide PlainDecode, DecodeContent;
    NumberEnds(buf);
    if PlainDecode(buf).Ok? {
      ContentEnds(PlainDecode(buf).value.rest, size);
    }
  }

  /** An item is decoded exactly from the strings of the grammar. */
  lemma ItemExactly(b: Bytes, item: Item, size: nat, size': nat, rest: Bytes)
    ensures DecodeItem(b + rest, size) == Parsed(item, rest, size') <==> IsItem(b, item, size, size')
  {
    hide PlainDecode, DecodeContent, IsContent;
    var buf := b + rest;
    if DecodeItem(buf, size) == Parsed(item, rest, size') {
      var region := PlainDecode(buf).value;
      NumberEnds(buf);
      ContentEnds(region.rest, size);
      var k := Split(buf, b, rest, region.rest);
      NumberExactly(b[..k], item.region, region.rest);
      ContentExactly(b[k..], item.content, size, size', rest);
      assert Number(b[..k], item.region);
    }
    if IsItem(b, item, size, size') {
      var k :| 0 <= k <= |b| && Number(b[..k], item.region) && IsContent(b[k..], item.content, size, size');
      NumberExactly(b[..k], item.region, b[k..] + rest);
      Rejoin(b, k, rest);
      ContentExactly(b[k..], item.content, size, size', rest);
    }
  }

  lemma {:induction false} ItemsEndIn(buf: Bytes, count: nat, size: nat)
    ensures var r := DecodeItems(buf, count, size); r.Parsed? ==> Ends(buf, r.rest) && |r.value| == count
    decreases count
  {
    hide DecodeItem;
    if count > 0 && DecodeItem(buf, size).Parsed? {
      var r := DecodeItem(buf, size);
      ItemEnds(buf, size);
      ItemsEndIn(r.rest, count - 1, r.size);
    }
  }

  /**
   The items of a batch are decoded exactly from the strings of the grammar: what is encoded in any
   way, with numbers longer than they need be as well, is accepted as what it says, and everything
   else is refused.
   */
  lemma {:induction false} ItemsExactly(b: Bytes, items: seq<Item>, size: nat, size': nat, rest: Bytes)
    ensures DecodeItems(b + rest, |items|, size) == Parsed(items, rest, size') <==> IsItems(b, items, size, size')
    decreases |items|, 1
  {
    hide DecodeItems, IsItems;
    if items == [] {
      NoItems(b, size, size', rest);
    } else {
      if DecodeItems(b + rest, |items|, size) == Parsed(items, rest, size') {
        ItemsRead(b, items, size, size', rest);
      }
      if IsItems(b, items, size, size') {
        ItemsWritten(b, items, size, size', rest);
      }
    }
  }

  lemma NoItems(b: Bytes, size: nat, size': nat, rest: Bytes)
    ensures DecodeItems(b + rest, 0, size) == Parsed([], rest, size') <==> IsItems(b, [], size, size')
  {
    assert b + rest == rest ==> b == [] by { assert |b + rest| == |b| + |rest|; }
  }

  lemma {:induction false} ItemsRead(b: Bytes, items: seq<Item>, size: nat, size': nat, rest: Bytes)
    requires items != [] && DecodeItems(b + rest, |items|, size) == Parsed(items, rest, size')
    ensures IsItems(b, items, size, size')
    decreases |items|, 0
  {
    hide DecodeItem, IsItem;
    var buf := b + rest;
    var r := DecodeItem(buf, size);
    ItemEnds(buf, size);
    ItemsEndIn(r.rest, |items| - 1, r.size);
    var k := Split(buf, b, rest, r.rest);
    ItemExactly(b[..k], items[0], size, r.size, r.rest);
    assert DecodeItems(b[k..] + rest, |items| - 1, r.size) == Parsed(items[1..], rest, size');
    ItemsExactly(b[k..], items[1..], r.size, size', rest);
    assert IsItem(b[..k], items[0], size, r.size) && IsItems(b[k..], items[1..], r.size, size');
  }

  lemma {:induction false} ItemsWritten(b: Bytes, items: seq<Item>, size: nat, size': nat, rest: Bytes)
    requires items != [] && IsItems(b, items, size, size')
    ensures DecodeItems(b + rest, |items|, size) == Parsed(items, rest, size')
    decreases |items|, 0
  {
    hide DecodeItem, IsItem;
    var k, mid :| 0 <= k <= |b| && IsItem(b[..k], items[0], size, mid) && IsItems(b[k..], items[1..], mid, size');
    ItemExactly(b[..k], items[0], size, mid, b[k..] + rest);
    Rejoin(b, k, rest);
    ItemsExactly(b[k..], items[1..], mid, size', rest);
    assert [items[0]] + items[1..] == items;
  }
}
