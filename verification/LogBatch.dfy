/**
 A log batch: building it, encoding it, and reading it back.

 header = { 7 bytes total length | 1 byte compression type | 8 bytes item offset }, then the
 entries, possibly compressed, with a checksum, then the items with a signed checksum.
 The compression and the checksum are parameters.
 */
module LogBatches {
  import opened PipeLog
  import opened Codec
  import opened LogItems

  const HEADER_LEN: nat := 16
  const CHECKSUM_LEN: nat := 4
  const MAX_ENTRIES_SIZE: nat := 0x7FFF_FFFF
  const TWO_56: nat := 0x100_0000_0000_0000

  type U32 = x: nat | x < TWO_32

  datatype Lib = Lib(crc: Bytes -> U32, compress: Bytes -> Option<Bytes>, decompress: Bytes -> Option<Bytes>)

  /** Compression that succeeds can be undone, and writes at least one byte. */
  ghost predicate Lossless(lib: Lib) {
    forall b: Bytes :: lib.compress(b).Some? ==>
      lib.compress(b).value != [] && lib.decompress(lib.compress(b).value) == Some(b)
  }

  // ------------------------------------------------------------------ signatures

  function Pow2(n: nat): (p: nat)
    ensures p > 0
  {
    if n == 0 then 1 else 2 * Pow2(n - 1)
  }

  /** Exclusive or of the low `n` bits. */
  function Xor(a: nat, b: nat, n: nat): (r: nat)
    ensures r < Pow2(n)
  {
    if n == 0 then 0 else (if a % 2 == b % 2 then 0 else 1) + 2 * Xor(a / 2, b / 2, n - 1)
  }

  lemma XorBits(a: nat, b: nat, n: nat)
    requires n > 0
    ensures Xor(a, b, n) / 2 == Xor(a / 2, b / 2, n - 1) && Xor(a, b, n) % 2 == (if a % 2 == b % 2 then 0 else 1)
  {
  }

  lemma {:induction false} XorUndoes(a: nat, b: nat, n: nat)
    requires a < Pow2(n)
    ensures Xor(Xor(a, b, n), b, n) == a
    decreases n
  {
    if n > 0 {
      var r := Xor(a, b, n);
      var q := Xor(r, b, n);
      assert q / 2 == a / 2 by {
        XorUndoes(a / 2, b / 2, n - 1);
        XorBits(a, b, n);
        XorBits(r, b, n);
      }
      assert q % 2 == a % 2 by {
        XorBits(a, b, n);
        XorBits(r, b, n);
      }
    }
  }

  lemma Pow2Is()
    ensures Pow2(32) == TWO_32 == Pow256(4)
  {
    Pow256Eight();
    assert Pow2(8) == 256;
    assert Pow2(12) == 16 * Pow2(8);
    assert Pow2(16) == 16 * Pow2(12);
    assert Pow2(20) == 16 * Pow2(16);
    assert Pow2(24) == 16 * Pow2(20);
    assert Pow2(28) == 16 * Pow2(24);
    assert Pow2(32) == 16 * Pow2(28);
  }

  function Signed(checksum: U32, signature: Option<U32>): U32 {
    Pow2Is();
    if signature.None? then checksum else Xor(checksum, signature.value, 32)
  }

  lemma SignedTwice(checksum: U32, signature: Option<U32>)
    ensures Signed(Signed(checksum, signature), signature) == checksum
  {
    Pow2Is();
    if signature.Some? { XorUndoes(checksum, signature.value, 32); }
  }

  // -------------------------------------------------------------------- the format

  function TypeByte(ct: CompressionType): Byte { if ct == NoCompression then 0 else 1 }

  function Header(len: nat, ct: CompressionType, offset: nat): Bytes {
    BigEndian(len * 256 + TypeByte(ct), 8) + BigEndian(offset, 8)
  }

  function Footer(items: seq<Item>): Bytes {
    VarU64(|items|) + EncodeItems(items)
  }

  function WithChecksum(lib: Lib, data: Bytes): Bytes {
    data + LittleEndian(lib.crc(data), 4)
  }

  /** The entries as they are stored. */
  function Block(lib: Lib, stored: Bytes): Bytes {
    if stored == [] then [] else WithChecksum(lib, stored)
  }

  function BatchBody(lib: Lib, items: seq<Item>, stored: Bytes, ct: CompressionType): Bytes {
    var block, footer := Block(lib, stored), Footer(items);
    Header(HEADER_LEN + |block| + |footer| + CHECKSUM_LEN, ct, HEADER_LEN + |block|) + block + footer
  }

  function BatchBytes(lib: Lib, items: seq<Item>, stored: Bytes, ct: CompressionType, checksum: U32): Bytes {
    BatchBody(lib, items, stored, ct) + LittleEndian(checksum, 4)
  }

  function DecodeHeader(buf: Bytes): Parsed<(nat, CompressionType, nat)> {
    if |buf| < HEADER_LEN then Failed(TooShort) else
    var lenAndType, offset := FromBigEndian(buf[..8]), FromBigEndian(buf[8..16]);
    var len := lenAndType / 256;
    if lenAndType % 256 > 1 then Failed(Unrecognized)
    else if offset > len || offset < HEADER_LEN then Failed(BadOffset)
    else Parsed((offset, if lenAndType % 256 == 0 then NoCompression else Lz4, len), buf[16..], 0)
  }

  /** The checksum of `buf`, without its last four bytes, when those agree. */
  function Verify(lib: Lib, buf: Bytes, signature: Option<U32>): Parsed<U32> {
    if |buf| <= CHECKSUM_LEN then Failed(TooShort) else
    var data := buf[..|buf| - CHECKSUM_LEN];
    var expected := FromLittleEndian(buf[|buf| - CHECKSUM_LEN..]);
    if expected < TWO_32 && Signed(expected, signature) == lib.crc(data) then Parsed(lib.crc(data), data, 0)
    else Failed(BadChecksum)
  }

  function DecodeItemBatch(lib: Lib, buf: Bytes, block: FileBlockHandle, ct: CompressionType, signature: Option<U32>):
    Parsed<seq<Item>>
  {
    match Verify(lib, buf, signature)
    case Failed(e) => Failed(e)
    case Parsed(_, data, _) =>
      match PlainDecode(data)
      case Err(e) => Failed(Varint(e))
      case Ok(count) =>
        match DecodeItems(count.rest, count.value, 0)
        case Failed(e) => Failed(e)
        case Parsed(items, rest, size) => Parsed(Stamped(items, ct, block), rest, size)
  }

  function DecodeBlock(lib: Lib, buf: Bytes, ct: CompressionType): Parsed<Bytes> {
    if buf == [] then Parsed([], [], 0) else
    match Verify(lib, buf, None)
    case Failed(e) => Failed(e)
    case Parsed(_, data, _) =>
      if ct == NoCompression then Parsed(data, [], 0) else
      match lib.decompress(data)
      case None => Failed(BadBlock)
      case Some(d) => Parsed(d, [], 0)
  }

  /** Reads the batch that starts at `offset` of file `id`: its items, and the bytes of its
      entries. */
  function ReadBatch(lib: Lib, buf: Bytes, id: FileId, offset: nat, signature: Option<U32>): Parsed<(seq<Item>, Bytes)> {
    match DecodeHeader(buf)
    case Failed(e) => Failed(e)
    case Parsed((footer, ct, len), _, _) =>
      if len > |buf| then Failed(TooShort) else
      var handle := FileBlockHandle(id, offset + HEADER_LEN, footer - HEADER_LEN);
      Joined(DecodeItemBatch(lib, buf[footer..len], handle, ct, signature),
             DecodeBlock(lib, buf[HEADER_LEN..footer], ct), buf[len..])
  }

  function Joined(items: Parsed<seq<Item>>, data: Parsed<Bytes>, rest: Bytes): Parsed<(seq<Item>, Bytes)> {
    if items.Failed? then Failed(items.error)
    else if data.Failed? then Failed(data.error)
    else Parsed((items.value, data.value), rest, 0)
  }

  // ------------------------------------------------------------------- round trip

  lemma VerifyAccepts(lib: Lib, data: Bytes, signature: Option<U32>)
    requires data != []
    ensures Verify(lib, data + LittleEndian(Signed(lib.crc(data), signature), 4), signature) == Parsed(lib.crc(data), data, 0)
  {
    var sum := Signed(lib.crc(data), signature);
    var buf := data + LittleEndian(sum, 4);
    assert buf[..|buf| - 4] == data && buf[|buf| - 4..] == LittleEndian(sum, 4);
    Pow2Is();
    FixedRoundTrip(sum, 4);
    SignedTwice(lib.crc(data), signature);
  }

  /** A batch signed for another file is not accepted. */
  lemma VerifyRejects(lib: Lib, data: Bytes, signed: U32, expected: U32)
    requires data != [] && signed != expected
    ensures Verify(lib, data + LittleEndian(Signed(lib.crc(data), Some(signed)), 4), Some(expected)) == Failed(BadChecksum)
  {
    var sum := Signed(lib.crc(data), Some(signed));
    var buf := data + LittleEndian(sum, 4);
    assert buf[..|buf| - 4] == data && buf[|buf| - 4..] == LittleEndian(sum, 4);
    Pow2Is();
    FixedRoundTrip(sum, 4);
    XorDiffers(lib.crc(data), signed, expected, 32);
  }

  /** A signed string is accepted exactly if its last four bytes are the signed checksum of the others. */
  lemma VerifyExactly(lib: Lib, buf: Bytes, signature: Option<U32>)
    ensures Verify(lib, buf, signature).Parsed? <==>
              |buf| > CHECKSUM_LEN && var data := buf[..|buf| - CHECKSUM_LEN];
              buf[|buf| - CHECKSUM_LEN..] == LittleEndian(Signed(lib.crc(data), signature), 4)
    ensures Verify(lib, buf, signature).Parsed? ==> Verify(lib, buf, signature).rest == buf[..|buf| - CHECKSUM_LEN]
  {
    hide Signed, LittleEndian, FromLittleEndian;
    if |buf| > CHECKSUM_LEN {
      var data, tail := buf[..|buf| - CHECKSUM_LEN], buf[|buf| - CHECKSUM_LEN..];
      assert buf == data + tail;
      LittleRoundBack(tail);
      Pow256Four();
      if tail == LittleEndian(Signed(lib.crc(data), signature), 4) {
        VerifyAccepts(lib, data, signature);
      } else {
        SignedTwice(FromLittleEndian(tail), signature);
      }
    }
  }

  lemma Pow256Four()
    ensures Pow256(4) == TWO_32
  {
    assert Pow256(2) == 256 * 256;
  }

  /** The signature of a file that signs its batches: its number, as 32 bits. */
  function Signature(seqno: FileSeq): Option<U32> { Some(seqno % TWO_32) }

  /** Batches left over from the file that was recycled are told apart, up to 32 bits. */
  lemma SignatureTellsFiles(lib: Lib, data: Bytes, written: FileSeq, read: FileSeq)
    requires data != []
    ensures Verify(lib, data + LittleEndian(Signed(lib.crc(data), Signature(written)), 4), Signature(read)).Parsed?
            <==> written % TWO_32 == read % TWO_32
  {
    hide Verify, Signed, LittleEndian;
    if written % TWO_32 == read % TWO_32 {
      VerifyAccepts(lib, data, Signature(read));
    } else {
      VerifyRejects(lib, data, written % TWO_32, read % TWO_32);
    }
  }

  lemma {:induction false} XorDiffers(a: nat, b: nat, c: nat, n: nat)
    requires a < Pow2(n) && b < Pow2(n) && c < Pow2(n) && b != c
    ensures Xor(Xor(a, b, n), c, n) != a
    decreases n
  {
    if n > 0 {
      var r := Xor(a, b, n);
      XorBits(a, b, n);
      XorBits(r, c, n);
      if b / 2 != c / 2 {
        XorDiffers(a / 2, b / 2, c / 2, n - 1);
        assert Xor(r, c, n) / 2 != a / 2;
      } else {
        assert b % 2 != c % 2;
        assert Xor(r, c, n) % 2 != a % 2;
      }
    }
  }

  lemma DecodeHeaderIs(len: nat, ct: CompressionType, offset: nat, rest: Bytes)
    requires HEADER_LEN <= offset <= len < TWO_56
    ensures DecodeHeader(Header(len, ct, offset) + rest) == Parsed((offset, ct, len), rest, 0)
  {
    var buf := Header(len, ct, offset) + rest;
    var word := len * 256 + TypeByte(ct);
    assert buf[..8] == BigEndian(word, 8) && buf[8..16] == BigEndian(offset, 8) && buf[16..] == rest;
    Pow256Eight();
    FixedRoundTrip(word, 8);
    FixedRoundTrip(offset, 8);
    assert word / 256 == len && word % 256 == TypeByte(ct);
  }

  /** Sixteen bytes are accepted as a header exactly if a batch can have that header. */
  lemma HeaderExactly(buf: Bytes, len: nat, ct: CompressionType, offset: nat)
    ensures DecodeHeader(buf).Parsed? && DecodeHeader(buf).value == (offset, ct, len) <==>
              HEADER_LEN <= offset <= len < TWO_56 && |buf| >= HEADER_LEN && buf[..HEADER_LEN] == Header(len, ct, offset)
  {
    hide BigEndian, FromBigEndian;
    if |buf| >= HEADER_LEN {
      assert buf == buf[..HEADER_LEN] + buf[HEADER_LEN..];
      BigRoundBack(buf[..8]);
      BigRoundBack(buf[8..16]);
      Pow256Eight();
      assert buf[..HEADER_LEN] == buf[..8] + buf[8..16];
      if HEADER_LEN <= offset <= len < TWO_56 && buf[..HEADER_LEN] == Header(len, ct, offset) {
        DecodeHeaderIs(len, ct, offset, buf[HEADER_LEN..]);
      }
    }
  }

  lemma ItemBatchRoundTrip(lib: Lib, items: seq<Item>, block: FileBlockHandle, ct: CompressionType, signature: Option<U32>)
    requires Laid(items, 0) && |items| < TWO_64
    ensures var footer := Footer(items);
            DecodeItemBatch(lib, footer + LittleEndian(Signed(lib.crc(footer), signature), 4), block, ct, signature)
            == Parsed(Stamped(RenumberedItems(items), ct, block), [], ItemsEnd(items, 0))
  {
    var footer := Footer(items);
    assert footer != [] by { VarU64RoundTrip(|items|, []); assert VarU64(|items|) != []; }
    VerifyAccepts(lib, footer, signature);
    assert PlainDecode(footer) == Ok(Decoded(|items|, EncodeItems(items))) by {
      VarU64RoundTrip(|items|, EncodeItems(items));
    }
    ItemsRoundTrip(items, 0, []);
    assert EncodeItems(items) + [] == EncodeItems(items);
  }

  lemma BlockRoundTrip(lib: Lib, stored: Bytes, ct: CompressionType, data: Bytes)
    requires if ct == NoCompression then stored == data else stored != [] && lib.decompress(stored) == Some(data)
    ensures DecodeBlock(lib, Block(lib, stored), ct) == Parsed(data, [], 0)
  {
    if stored != [] {
      VerifyAccepts(lib, stored, None);
    }
  }

  lemma Cut4(a: Bytes, b: Bytes, c: Bytes, d: Bytes)
    ensures var s := a + b + c + d;
            && |s| == |a| + |b| + |c| + |d| && s == a + (b + c + d)
            && s[|a|..|a| + |b|] == b && s[|a| + |b|..|s|] == c + d && s[|s|..] == []
  {
  }

  lemma ReadPieces(lib: Lib, head: Bytes, block: Bytes, footer: Bytes, tail: Bytes, id: FileId, offset: nat,
                   signature: Option<U32>, ct: CompressionType, items: Parsed<seq<Item>>, data: Parsed<Bytes>)
    requires |head| == HEADER_LEN
    requires DecodeHeader(head + block + footer + tail)
          == Parsed((HEADER_LEN + |block|, ct, |head + block + footer + tail|), block + footer + tail, 0)
    requires DecodeItemBatch(lib, footer + tail, FileBlockHandle(id, offset + HEADER_LEN, |block|), ct, signature) == items
    requires DecodeBlock(lib, block, ct) == data
    ensures ReadBatch(lib, head + block + footer + tail, id, offset, signature) == Joined(items, data, [])
  {
    Cut4(head, block, footer, tail);
  }

  lemma HeaderPiece(block: Bytes, footer: Bytes, tail: Bytes, ct: CompressionType)
    requires HEADER_LEN + |block| + |footer| + |tail| < TWO_56
    ensures var head := Header(HEADER_LEN + |block| + |footer| + |tail|, ct, HEADER_LEN + |block|);
            DecodeHeader(head + block + footer + tail)
            == Parsed((HEADER_LEN + |block|, ct, |head + block + footer + tail|), block + footer + tail, 0)
  {
    var at, len := HEADER_LEN + |block|, HEADER_LEN + |block| + |footer| + |tail|;
    Cut4(Header(len, ct, at), block, footer, tail);
    DecodeHeaderIs(len, ct, at, block + footer + tail);
  }

  /** Reading back the bytes of a batch gives the items, renumbered from each first index and
      located in the file, and exactly the bytes of its entries. */
  lemma BatchRoundTrip(lib: Lib, items: seq<Item>, stored: Bytes, ct: CompressionType, data: Bytes,
                       id: FileId, offset: nat, signature: Option<U32>)
    requires Laid(items, 0) && |items| < TWO_64
    requires if ct == NoCompression then stored == data else stored != [] && lib.decompress(stored) == Some(data)
    requires HEADER_LEN + |Block(lib, stored)| + |Footer(items)| + CHECKSUM_LEN < TWO_56
    ensures var handle := FileBlockHandle(id, offset + HEADER_LEN, |Block(lib, stored)|);
            ReadBatch(lib, BatchBytes(lib, items, stored, ct, Signed(lib.crc(Footer(items)), signature)), id, offset, signature)
            == Parsed((Stamped(RenumberedItems(items), ct, handle), data), [], 0)
  {
    hide DecodeItemBatch, DecodeBlock, ReadBatch, Header, Footer, Block, Signed, LittleEndian;
    var block, footer := Block(lib, stored), Footer(items);
    var tail := LittleEndian(Signed(lib.crc(footer), signature), 4);
    var handle := FileBlockHandle(id, offset + HEADER_LEN, |block|);
    var got := Parsed(Stamped(RenumberedItems(items), ct, handle), [], ItemsEnd(items, 0));
    BlockRoundTrip(lib, stored, ct, data);
    ItemBatchRoundTrip(lib, items, handle, ct, signature);
    PiecesRoundTrip(lib, block, footer, tail, id, offset, signature, ct, got, Parsed(data, [], 0));
  }

  lemma PiecesRoundTrip(lib: Lib, block: Bytes, footer: Bytes, tail: Bytes, id: FileId, offset: nat,
                        signature: Option<U32>, ct: CompressionType, items: Parsed<seq<Item>>, data: Parsed<Bytes>)
    requires HEADER_LEN + |block| + |footer| + |tail| < TWO_56
    requires DecodeItemBatch(lib, footer + tail, FileBlockHandle(id, offset + HEADER_LEN, |block|), ct, signature) == items
    requires DecodeBlock(lib, block, ct) == data
    ensures var head := Header(HEADER_LEN + |block| + |footer| + |tail|, ct, HEADER_LEN + |block|);
            ReadBatch(lib, head + block + footer + tail, id, offset, signature) == Joined(items, data, [])
  {
    var head := Header(HEADER_LEN + |block| + |footer| + |tail|, ct, HEADER_LEN + |block|);
    HeaderPiece(block, footer, tail, ct);
    ReadPieces(lib, head, block, footer, tail, id, offset, signature, ct, items, data);
  }

  // ------------------------------------------------------------ what a batch means

  /** What was added to a batch, with the bytes of each entry. */
  datatype Record =
    | EntriesRecord(region: nat, entries: seq<(nat, Bytes)>)
    | CommandRecord(region: nat, command: Command)
    | PutRecord(region: nat, key: Bytes, value: Bytes)
    | DeleteRecord(region: nat, key: Bytes)

  function Slice(data: Bytes, offset: nat, len: nat): Bytes {
    if offset + len <= |data| then data[offset..offset + len] else []
  }

  function ResolveEntries(es: seq<Ei>, data: Bytes): (r: seq<(nat, Bytes)>)
    ensures |r| == |es| && forall k :: 0 <= k < |es| ==> r[k] == (es[k].index, Slice(data, es[k].offset, es[k].len))
  {
    seq(|es|, k requires 0 <= k < |es| => (es[k].index, Slice(data, es[k].offset, es[k].len)))
  }

  function ResolveItem(item: Item, data: Bytes): Record {
    match item.content
    case Entries(es) => EntriesRecord(item.region, ResolveEntries(es, data))
    case Cmd(c) => CommandRecord(item.region, c)
    case Kv(Put(key, value, _)) => PutRecord(item.region, key, value)
    case Kv(Del(key, _)) => DeleteRecord(item.region, key)
  }

  /** The records that items stand for, their entries sliced out of `data`. */
  function Resolve(items: seq<Item>, data: Bytes): (r: seq<Record>)
    ensures |r| == |items| && forall i :: 0 <= i < |items| ==> r[i] == ResolveItem(items[i], data)
  {
    seq(|items|, i requires 0 <= i < |items| => ResolveItem(items[i], data))
  }

  lemma {:induction false} LaidEntriesIn(es: seq<Ei>, size: nat, k: nat)
    requires LaidEntries(es, size)
    ensures size <= EndOf(es, size)
    ensures k < |es| ==> size <= es[k].offset && es[k].offset + es[k].len <= EndOf(es, size)
    decreases |es|
  {
    if es != [] {
      LaidEntriesIn(es[1..], size + es[0].len, if k > 0 then k - 1 else 0);
    }
  }

  /** Every entry of the batch lies between the start and the end of its items. */
  lemma {:induction false} LaidIn(items: seq<Item>, size: nat, i: nat, k: nat)
    requires Laid(items, size)
    ensures size <= ItemsEnd(items, size)
    ensures i < |items| && items[i].content.Entries? && k < |items[i].content.es| ==>
              var e := items[i].content.es[k]; size <= e.offset && e.offset + e.len <= ItemsEnd(items, size)
    decreases |items|
  {
    if items != [] {
      if items[0].content.Entries? { LaidEntriesIn(items[0].content.es, size, k); }
      LaidIn(items[1..], ItemEnd(items[0], size), if i > 0 then i - 1 else 0, k);
    }
  }

  lemma ResolveItemExtends(item: Item, data: Bytes, more: Bytes)
    requires item.content.Entries? ==> forall k :: 0 <= k < |item.content.es| ==>
               item.content.es[k].offset + item.content.es[k].len <= |data|
    ensures ResolveItem(item, data + more) == ResolveItem(item, data)
  {
    if item.content.Entries? {
      var es := item.content.es;
      forall k | 0 <= k < |es|
        ensures Slice(data + more, es[k].offset, es[k].len) == Slice(data, es[k].offset, es[k].len)
      {
        var lo, hi := es[k].offset, es[k].offset + es[k].len;
        assert (data + more)[lo..hi] == data[lo..hi];
      }
      assert ResolveEntries(es, data + more) == ResolveEntries(es, data);
    }
  }

  /** Bytes added behind do not change what the items stand for. */
  lemma ResolveExtends(items: seq<Item>, data: Bytes, more: Bytes)
    requires Laid(items, 0) && ItemsEnd(items, 0) <= |data|
    ensures Resolve(items, data + more) == Resolve(items, data)
  {
    forall i | 0 <= i < |items| ensures ResolveItem(items[i], data + more) == ResolveItem(items[i], data) {
      if items[i].content.Entries? {
        forall k | 0 <= k < |items[i].content.es|
          ensures items[i].content.es[k].offset + items[i].content.es[k].len <= |data|
        {
          LaidIn(items, 0, i, k);
        }
      }
      ResolveItemExtends(items[i], data, more);
    }
  }

  lemma {:induction false} LaidAppend(a: seq<Item>, b: seq<Item>, size: nat)
    requires Laid(a, size) && Laid(b, ItemsEnd(a, size))
    ensures Laid(a + b, size) && ItemsEnd(a + b, size) == ItemsEnd(b, ItemsEnd(a, size))
    decreases |a|
  {
    if a == [] {
      assert a + b == b;
    } else {
      LaidAppend(a[1..], b, ItemEnd(a[0], size));
      assert (a + b)[1..] == a[1..] + b;
    }
  }

  // -------------------------------------------------------------------- shifting

  function ShiftedEntries(es: seq<Ei>, d: nat): seq<Ei> {
    if es == [] then [] else [es[0].(offset := es[0].offset + d)] + ShiftedEntries(es[1..], d)
  }

  function ShiftedItem(item: Item, d: nat): Item {
    if item.content.Entries? then item.(content := Entries(ShiftedEntries(item.content.es, d))) else item
  }

  function ShiftedItems(items: seq<Item>, d: nat): seq<Item> {
    if items == [] then [] else [ShiftedItem(items[0], d)] + ShiftedItems(items[1..], d)
  }

  lemma {:induction false} ShiftedEntriesAt(es: seq<Ei>, d: nat)
    ensures |ShiftedEntries(es, d)| == |es|
    ensures forall k :: 0 <= k < |es| ==> ShiftedEntries(es, d)[k] == es[k].(offset := es[k].offset + d)
    decreases |es|
  {
    if es != [] { ShiftedEntriesAt(es[1..], d); }
  }

  lemma {:induction false} ShiftedItemsAt(items: seq<Item>, d: nat)
    ensures |ShiftedItems(items, d)| == |items|
    ensures forall i :: 0 <= i < |items| ==> ShiftedItems(items, d)[i] == ShiftedItem(items[i], d)
    decreases |items|
  {
    if items != [] { ShiftedItemsAt(items[1..], d); }
  }

  lemma {:induction false} ShiftedEntriesLaid(es: seq<Ei>, size: nat, d: nat)
    requires LaidEntries(es, size) && EndOf(es, size) + d < TWO_32
    ensures LaidEntries(ShiftedEntries(es, d), size + d)
    ensures EndOf(ShiftedEntries(es, d), size + d) == EndOf(es, size) + d
    decreases |es|
  {
    if es != [] {
      LaidEntriesIn(es, size, 0);
      ShiftedEntriesLaid(es[1..], size + es[0].len, d);
      assert ShiftedEntries(es, d)[1..] == ShiftedEntries(es[1..], d);
    }
  }

  lemma {:induction false} ShiftedLaid(items: seq<Item>, size: nat, d: nat)
    requires Laid(items, size) && ItemsEnd(items, size) + d < TWO_32
    ensures Laid(ShiftedItems(items, d), size + d)
    ensures ItemsEnd(ShiftedItems(items, d), size + d) == ItemsEnd(items, size) + d
    decreases |items|
  {
    if items != [] {
      var item, size' := items[0], ItemEnd(items[0], size);
      LaidIn(items[1..], size', 0, 0);
      ShiftedLaid(items[1..], size', d);
      if item.content.Entries? {
        ShiftedEntriesLaid(item.content.es, size, d);
        ShiftedEntriesAt(item.content.es, d);
      }
      assert ShiftedItems(items, d)[1..] == ShiftedItems(items[1..], d);
    }
  }

  /** Items moved behind `front` bytes still stand for the same records. */
  lemma ShiftedResolve(items: seq<Item>, front: Bytes, data: Bytes)
    requires Laid(items, 0) && ItemsEnd(items, 0) <= |data|
    ensures Resolve(ShiftedItems(items, |front|), front + data) == Resolve(items, data)
  {
    hide Resolve, ResolveEntries, ShiftedEntries, EndOf, Laid;
    ShiftedItemsAt(items, |front|);
    forall i | 0 <= i < |items|
      ensures ResolveItem(ShiftedItem(items[i], |front|), front + data) == ResolveItem(items[i], data)
    {
      if items[i].content.Entries? {
        var es := items[i].content.es;
        var moved := ShiftedEntries(es, |front|);
        ShiftedEntriesAt(es, |front|);
        forall k | 0 <= k < |es|
          ensures Slice(front + data, moved[k].offset, moved[k].len) == Slice(data, es[k].offset, es[k].len)
        {
          LaidIn(items, 0, i, k);
          assert (front + data)[|front| + es[k].offset..|front| + es[k].offset + es[k].len]
              == data[es[k].offset..es[k].offset + es[k].len];
        }
        assert ResolveEntries(moved, front + data) == ResolveEntries(es, data);
      }
    }
  }

  // --------------------------------------------------------------- adding entries

  function Concat(bs: seq<Bytes>): Bytes {
    if bs == [] then [] else bs[0] + Concat(bs[1..])
  }

  /** Entry indexes that know the length of their bytes, but not yet their offset. */
  predicate SizedBy(es: seq<Ei>, bs: seq<Bytes>) {
    |es| == |bs| && forall k :: 0 <= k < |es| ==> es[k].len == |bs[k]|
  }

  function Zip(es: seq<Ei>, bs: seq<Bytes>): (r: seq<(nat, Bytes)>)
    requires |es| == |bs|
    ensures |r| == |es| && forall k :: 0 <= k < |es| ==> r[k] == (es[k].index, bs[k])
  {
    seq(|es|, k requires 0 <= k < |es| => (es[k].index, bs[k]))
  }

  /** Entries laid back to back from `size` on. */
  function Placed(es: seq<Ei>, size: nat): seq<Ei> {
    if es == [] then [] else [es[0].(offset := size)] + Placed(es[1..], size + es[0].len)
  }

  lemma {:induction false} PlacedLaid(es: seq<Ei>, size: nat)
    requires EndOf(es, size) < TWO_32
    ensures LaidEntries(Placed(es, size), size) && EndOf(Placed(es, size), size) == EndOf(es, size)
    ensures |Placed(es, size)| == |es| && (es != [] ==> Placed(es, size)[0].index == es[0].index)
    decreases |es|
  {
    if es != [] {
      PlacedLaid(es[1..], size + es[0].len);
      EndGrows(es[1..], size + es[0].len);
      assert Placed(es, size)[1..] == Placed(es[1..], size + es[0].len);
    }
  }

  lemma {:induction false} EndGrows(es: seq<Ei>, size: nat)
    ensures size <= EndOf(es, size)
    decreases |es|
  {
    if es != [] { EndGrows(es[1..], size + es[0].len); }
  }

  lemma {:induction false} SizedEnd(es: seq<Ei>, bs: seq<Bytes>, size: nat)
    requires SizedBy(es, bs)
    ensures EndOf(es, size) == size + |Concat(bs)|
    decreases |es|
  {
    if es != [] { SizedEnd(es[1..], bs[1..], size + es[0].len); }
  }

  /** The slices of the entries just added are exactly their bytes. */
  lemma {:induction false} PlacedResolve(es: seq<Ei>, bs: seq<Bytes>, front: Bytes)
    requires SizedBy(es, bs)
    ensures |Placed(es, |front|)| == |es| && ResolveEntries(Placed(es, |front|), front + Concat(bs)) == Zip(es, bs)
    decreases |es|
  {
    if es != [] {
      var first, others := bs[0], bs[1..];
      var placed, data := Placed(es, |front|), front + Concat(bs);
      PlacedResolve(es[1..], others, front + first);
      assert data == (front + first) + Concat(others);
      assert placed[1..] == Placed(es[1..], |front + first|);
      assert data[|front|..|front| + |first|] == first;
      var got, more := ResolveEntries(placed, data), ResolveEntries(placed[1..], data);
      forall k | 1 <= k < |es| ensures got[k] == Zip(es, bs)[k] {
        assert placed[k] == placed[1..][k - 1] && more[k - 1] == Zip(es[1..], others)[k - 1];
      }
    }
  }

  datatype BufState = Open | Encoded(header: nat, entriesLen: nat) | Sealed(header: nat, entriesLen: nat) | Incomplete

  const INTERNAL_KEY: Bytes := [0x5f, 0x5f, 0x01]

  class LogBatch {
    var items: seq<Item>
    var entriesSize: nat
    var checksum: U32
    var state: BufState
    var buf: Bytes

    /** An open batch: a header, then the entries of the items, back to back, within the
        bound that keeps offsets in 32 bits. */
    ghost predicate Valid()
      reads this
    {
      && state.Open? && |buf| == HEADER_LEN + entriesSize && entriesSize <= MAX_ENTRIES_SIZE
      && Laid(items, 0) && ItemsEnd(items, 0) == entriesSize
    }

    ghost function Data(): Bytes
      requires |buf| >= HEADER_LEN
      reads this
    {
      buf[HEADER_LEN..]
    }

    ghost function View(): seq<Record>
      requires |buf| >= HEADER_LEN
      reads this
    {
      Resolve(items, Data())
    }

    constructor ()
      ensures Valid() && View() == []
    {
      items, entriesSize, checksum, state := [], 0, 0, Open;
      buf := seq(HEADER_LEN, _ => 0);
    }

    method AddEntryIndexes(region: U64, es: seq<Ei>)
      modifies this`items, this`entriesSize
      ensures items == old(items) + [Item(region, Entries(Placed(es, old(entriesSize))))]
      ensures entriesSize == EndOf(es, old(entriesSize))
    {
      var placed: seq<Ei> := [];
      for i := 0 to |es|
        invariant placed + Placed(es[i..], entriesSize) == Placed(es, old(entriesSize))
        invariant EndOf(es[i..], entriesSize) == EndOf(es, old(entriesSize)) && items == old(items)
      {
        assert es[i..][0] == es[i] && es[i..][1..] == es[i + 1..];
        placed := placed + [es[i].(offset := entriesSize)];
        entriesSize := entriesSize + es[i].len;
      }
      assert placed == Placed(es, old(entriesSize));
      items := items + [Item(region, Entries(placed))];
    }

    /** Adds entries, given by their index and their encoded bytes, or changes nothing when
        they do not fit. */
    method AddEntries(region: U64, indexes: seq<U64>, entries: seq<Bytes>) returns (ok: bool)
      requires Valid() && |indexes| == |entries| < TWO_64
      modifies this
      ensures Valid()
      ensures ok <==> entries == [] || old(entriesSize) + |Concat(entries)| <= MAX_ENTRIES_SIZE
      ensures ok && entries != [] ==>
                View() == old(View()) + [EntriesRecord(region, seq(|entries|, k requires 0 <= k < |entries| => (indexes[k], entries[k])))]
      ensures !ok || entries == [] ==> items == old(items) && buf == old(buf)
    {
      if entries == [] { return true; }
      state := Incomplete;
      var oldLen := |buf|;
      var es: seq<Ei> := [];
      for i := 0 to |entries|
        invariant items == old(items) && entriesSize == old(entriesSize) && |buf| <= MAX_ENTRIES_SIZE + HEADER_LEN
        invariant buf + Concat(entries[i..]) == old(buf) + Concat(entries) && old(buf) <= buf
        invariant |es| == i && forall k :: 0 <= k < i ==> es[k] == Ei(indexes[k], 0, |entries[k]|, NoCompression, None)
      {
        assert entries[i..][0] == entries[i] && entries[i..][1..] == entries[i + 1..];
        Glue(buf, entries[i], Concat(entries[i + 1..]));
        var offset := |buf|;
        buf := buf + entries[i];
        if |buf| > MAX_ENTRIES_SIZE + HEADER_LEN {
          buf := buf[..oldLen];
          state := Open;
          return false;
        }
        es := es + [Ei(indexes[i], 0, |buf| - offset, NoCompression, None)];
      }
      assert buf == old(buf) + Concat(entries);
      AddEntryIndexes(region, es);
      state := Open;
      ok := true;
      AddedView(old(items), old(buf[HEADER_LEN..]), region, es, entries);
      assert Data() == old(Data()) + Concat(entries);
      assert Zip(es, entries) == seq(|entries|, k requires 0 <= k < |entries| => (indexes[k], entries[k]));
    }

    /** The same for entries that were read back as bytes; the bound is checked before. */
    method AddRawEntries(region: U64, raw: seq<Ei>, entries: seq<Bytes>) returns (ok: bool)
      requires Valid() && |raw| == |entries| < TWO_64 && forall k :: 0 <= k < |raw| ==> raw[k].index < TWO_64
      modifies this
      ensures Valid()
      ensures ok <==> entries == [] || old(entriesSize) + |Concat(entries)| <= MAX_ENTRIES_SIZE
      ensures ok && entries != [] ==> View() == old(View()) + [EntriesRecord(region, Zip(raw, entries))]
      ensures !ok || entries == [] ==> items == old(items) && buf == old(buf)
    {
      if entries == [] { return true; }
      state := Incomplete;
      var oldLen := |buf|;
      var es: seq<Ei> := [];
      for i := 0 to |entries|
        invariant items == old(items) && entriesSize == old(entriesSize) && |buf| <= MAX_ENTRIES_SIZE + HEADER_LEN
        invariant buf + Concat(entries[i..]) == old(buf) + Concat(entries) && old(buf) <= buf
        invariant |es| == i && forall k :: 0 <= k < i ==> es[k] == raw[k].(len := |entries[k]|)
      {
        assert entries[i..][0] == entries[i] && entries[i..][1..] == entries[i + 1..];
        Glue(buf, entries[i], Concat(entries[i + 1..]));
        if |entries[i]| + |buf| > MAX_ENTRIES_SIZE + HEADER_LEN {
          buf := buf[..oldLen];
          state := Open;
          return false;
        }
        var offset := |buf|;
        buf := buf + entries[i];
        es := es + [raw[i].(len := |buf| - offset)];
      }
      assert buf == old(buf) + Concat(entries);
      AddEntryIndexes(region, es);
      state := Open;
      ok := true;
      AddedView(old(items), old(buf[HEADER_LEN..]), region, es, entries);
      assert Data() == old(Data()) + Concat(entries);
      assert Zip(es, entries) == Zip(raw, entries);
    }

    /** Adds items that hold no entry. */
    method Push(item: Item)
      requires Valid() && Fits(item) && !item.content.Entries?
      modifies this`items
      ensures Valid() && items == old(items) + [item]
      ensures View() == old(View()) + [ResolveItem(item, [])]
    {
      LaidAppend(items, [item], 0);
      items := items + [item];
    }

    method AddCommand(region: U64, command: Command)
      requires Valid()
      modifies this`items
      ensures Valid() && View() == old(View()) + [CommandRecord(region, command)]
    {
      Push(Item(region, Cmd(command)));
    }

    method Delete(region: U64, key: Bytes)
      requires Valid() && |key| < TWO_64
      modifies this`items
      ensures Valid() && View() == old(View()) + [DeleteRecord(region, key)]
    {
      Push(Item(region, Kv(Del(key, None))));
    }

    /** Keys kept for internal use are refused. */
    method PutKey(region: U64, key: Bytes, value: Bytes) returns (ok: bool)
      requires Valid() && |key| < TWO_64 && |value| < TWO_64
      modifies this`items
      ensures Valid() && (ok <==> key != INTERNAL_KEY)
      ensures View() == if ok then old(View()) + [PutRecord(region, key, value)] else old(View())
    {
      if key == INTERNAL_KEY { return false; }
      Push(Item(region, Kv(Put(key, value, None))));
      return true;
    }

    /** Moves everything in `rhs` behind what is here, or changes nothing when the entries do
        not fit together. */
    method Merge(rhs: LogBatch) returns (ok: bool)
      requires Valid() && rhs.Valid() && rhs != this
      modifies this, rhs
      ensures Valid() && rhs.Valid()
      ensures ok <==> old(entriesSize) + old(rhs.entriesSize) <= MAX_ENTRIES_SIZE
      ensures ok ==> View() == old(View()) + old(rhs.View()) && rhs.View() == []
      ensures !ok ==> View() == old(View()) && rhs.View() == old(rhs.View())
    {
      if |rhs.buf| + |buf| > MAX_ENTRIES_SIZE + HEADER_LEN * 2 { return false; }
      MergedView(items, Data(), rhs.items, rhs.Data());
      state, rhs.state := Incomplete, Incomplete;
      buf := buf + rhs.buf[HEADER_LEN..];
      rhs.buf := rhs.buf[..HEADER_LEN];
      var moved := ShiftOffsets(rhs.items, entriesSize);
      entriesSize := entriesSize + rhs.entriesSize;
      items := items + moved;
      rhs.items, rhs.entriesSize := [], 0;
      state, rhs.state := Open, Open;
      assert Data() == old(Data()) + old(rhs.Data());
      return true;
    }

    /** Encodes the batch behind its header, or gives up when compression fails. */
    method FinishPopulate(lib: Lib, threshold: nat) returns (r: Option<nat>)
      requires Valid() && |items| < TWO_64
      modifies this
      ensures old(items) == [] ==> r == Some(0) && state == Encoded(|buf|, 0) && buf == old(buf) && items == []
      ensures old(items) != [] ==>
                match Stored(lib, threshold, old(Data()))
                case None => r == None
                case Some((stored, ct)) =>
                  && state.Encoded? && state.header <= |buf| && state.entriesLen == |Block(lib, stored)|
                  && buf[state.header..] == BatchBytes(lib, old(items), stored, ct, 0)
                  && r == Some(|buf| - state.header)
                  && checksum == lib.crc(Footer(old(items))) && items == Compressed(old(items), ct)
    {
      hide Header;
      if items == [] {
        state := Encoded(|buf|, 0);
        return Some(0);
      }
      state := Incomplete;
      var ok, header, ct := StoreEntries(lib, threshold);
      if !ok { return None; }
      ghost var block := buf[header + HEADER_LEN..];
      var offset := |buf| - header;
      var footer := EncodeLogItems(items);
      checksum := lib.crc(footer);
      buf := buf + (footer + LittleEndian(0, 4));
      items := SetCompression(items, ct);
      WriteHeader(header, ct, offset, block, footer);
      state := Encoded(header, offset - HEADER_LEN);
      return Some(|buf| - header);
    }

    /** The entries, compressed behind the plain ones if they are long, with a checksum. */
    method StoreEntries(lib: Lib, threshold: nat) returns (ok: bool, header: nat, ct: CompressionType)
      requires |buf| >= HEADER_LEN
      modifies this`buf
      ensures !ok <==> Stored(lib, threshold, old(Data())) == None
      ensures ok ==> header + HEADER_LEN <= |buf| && Stored(lib, threshold, old(Data())).value.1 == ct
                     && buf[header + HEADER_LEN..] == Block(lib, Stored(lib, threshold, old(Data())).value.0)
    {
      header, ct := 0, NoCompression;
      if threshold > 0 && |buf| >= HEADER_LEN + threshold {
        var compressed := lib.compress(buf[HEADER_LEN..]);
        if compressed.None? { return false, header, ct; }
        header, ct := |buf| - HEADER_LEN, Lz4;
        buf := buf + compressed.value;
        assert buf[header + HEADER_LEN..] == compressed.value;
      }
      ok := true;
      if |buf| > header + HEADER_LEN {
        var sum := LittleEndian(lib.crc(buf[header + HEADER_LEN..]), 4);
        AppendBehind(buf, header + HEADER_LEN, sum);
        buf := buf + sum;
      }
    }

    method WriteHeader(header: nat, ct: CompressionType, offset: nat, ghost block: Bytes, ghost footer: Bytes)
      requires |block| + HEADER_LEN == offset && |buf| == header + offset + |footer| + 4
      requires buf[header + HEADER_LEN..header + offset] == block
      requires buf[header + offset..] == footer + LittleEndian(0, 4)
      modifies this`buf
      ensures |buf| == |old(buf)|
      ensures buf[header..] == Header(|buf| - header, ct, offset) + block + footer + LittleEndian(0, 4)
    {
      var head := Header(|buf| - header, ct, offset);
      assert buf[header + HEADER_LEN..] == block + (footer + LittleEndian(0, 4));
      ReplaceHeader(buf, header, head);
      buf := buf[..header] + head + buf[header + HEADER_LEN..];
      Glue4(head, block, footer, LittleEndian(0, 4));
    }

    /** Signs the footer for the file the batch goes to. It may be signed again for another. */
    method PrepareWrite(signature: Option<U32>)
      requires (state.Encoded? || state.Sealed?) && state.header + state.entriesLen <= |buf|
      requires state.header + state.entriesLen < |buf| ==> state.header + CHECKSUM_LEN <= |buf|
      modifies this`buf, this`state
      ensures state == Sealed(old(state.header), old(state.entriesLen)) && |buf| == |old(buf)|
      ensures buf == if state.header + state.entriesLen < |old(buf)| then Resigned(old(buf), Signed(checksum, signature)) else old(buf)
    {
      if state.header + state.entriesLen < |buf| {
        var sum := checksum;
        if signature.Some? { sum := Signed(sum, signature); }
        buf := buf[..|buf| - CHECKSUM_LEN] + LittleEndian(sum, 4);
      }
      state := Sealed(state.header, state.entriesLen);
    }

    function EncodedBytes(): Bytes
      requires state.Sealed? && state.header <= |buf|
      reads this
    {
      buf[state.header..]
    }

    /** Sets the location of the entries, inside the block the batch was written to. */
    method FinishWrite(handle: FileBlockHandle)
      requires state.Sealed?
      modifies this`items
      ensures items == Located(old(items), FileBlockHandle(handle.id, handle.offset + HEADER_LEN, state.entriesLen))
    {
      if items != [] {
        items := SetBlock(items, FileBlockHandle(handle.id, handle.offset + HEADER_LEN, state.entriesLen));
      }
    }

    method Drain() returns (drained: seq<Item>)
      requires !state.Incomplete? && |buf| >= HEADER_LEN
      modifies this
      ensures Valid() && View() == [] && drained == old(items)
    {
      buf := buf[..HEADER_LEN];
      state := Open;
      drained := items;
      items, entriesSize, checksum := [], 0, 0;
    }
  }

  lemma AppendBehind(buf: Bytes, at: nat, more: Bytes)
    requires at <= |buf|
    ensures (buf + more)[at..] == buf[at..] + more
  {
  }

  lemma ReplaceHeader(buf: Bytes, at: nat, head: Bytes)
    requires at + HEADER_LEN <= |buf| && |head| == HEADER_LEN
    ensures (buf[..at] + head + buf[at + HEADER_LEN..])[at..] == head + buf[at + HEADER_LEN..]
    ensures |buf[..at] + head + buf[at + HEADER_LEN..]| == |buf|
  {
  }

  /** What is stored for the entries, and how. */
  function Stored(lib: Lib, threshold: nat, data: Bytes): Option<(Bytes, CompressionType)> {
    if threshold > 0 && |data| >= threshold then
      match lib.compress(data)
      case None => None
      case Some(c) => Some((c, Lz4))
    else Some((data, NoCompression))
  }

  /** Entries are compressed exactly if they are long, nothing is stored exactly if that fails, and
      what is stored unfolds to the entries. */
  lemma StoredUnfolds(lib: Lib, threshold: nat, data: Bytes)
    requires Lossless(lib)
    ensures Stored(lib, threshold, data) == None <==> 0 < threshold <= |data| && lib.compress(data) == None
    ensures match Stored(lib, threshold, data)
            case None => true
            case Some((stored, ct)) =>
              && (ct == Lz4 <==> 0 < threshold <= |data|)
              && DecodeBlock(lib, Block(lib, stored), ct) == Parsed(data, [], 0)
  {
    match Stored(lib, threshold, data)
    case None =>
    case Some((stored, ct)) => BlockRoundTrip(lib, stored, ct, data);
  }

  function Resigned(buf: Bytes, checksum: U32): Bytes
    requires |buf| >= CHECKSUM_LEN
  {
    buf[..|buf| - CHECKSUM_LEN] + LittleEndian(checksum, 4)
  }

  function CompressedEntries(es: seq<Ei>, ct: CompressionType): seq<Ei> {
    if es == [] then [] else [es[0].(compression := ct)] + CompressedEntries(es[1..], ct)
  }

  function CompressedItem(item: Item, ct: CompressionType): Item {
    if item.content.Entries? then item.(content := Entries(CompressedEntries(item.content.es, ct))) else item
  }

  function Compressed(items: seq<Item>, ct: CompressionType): seq<Item> {
    if items == [] then [] else
    [CompressedItem(items[0], ct)] + Compressed(items[1..], ct)
  }

  function LocatedEntries(es: seq<Ei>, block: FileBlockHandle): seq<Ei> {
    if es == [] then [] else [es[0].(block := Some(block))] + LocatedEntries(es[1..], block)
  }

  function LocatedItem(item: Item, block: FileBlockHandle): Item {
    match item.content
    case Entries(es) => item.(content := Entries(LocatedEntries(es, block)))
    case Cmd(_) => item
    case Kv(kv) => item.(content := Kv(kv.(file := Some(block.id))))
  }

  function Located(items: seq<Item>, block: FileBlockHandle): seq<Item> {
    if items == [] then [] else [LocatedItem(items[0], block)] + Located(items[1..], block)
  }

  method SetEntriesCompression(es: seq<Ei>, ct: CompressionType) returns (out: seq<Ei>)
    ensures out == CompressedEntries(es, ct)
  {
    out := [];
    for k := 0 to |es|
      invariant out + CompressedEntries(es[k..], ct) == CompressedEntries(es, ct)
    {
      assert es[k..][1..] == es[k + 1..];
      out := out + [es[k].(compression := ct)];
    }
  }

  method SetCompression(items: seq<Item>, ct: CompressionType) returns (out: seq<Item>)
    ensures out == Compressed(items, ct)
  {
    hide CompressedEntries;
    out := [];
    for i := 0 to |items|
      invariant out + Compressed(items[i..], ct) == Compressed(items, ct)
    {
      var item := items[i];
      if item.content.Entries? {
        var es := SetEntriesCompression(item.content.es, ct);
        item := item.(content := Entries(es));
      }
      assert items[i..][1..] == items[i + 1..] && item == CompressedItem(items[i], ct);
      out := out + [item];
    }
    assert out == Compressed(items, ct);
  }

  method SetEntriesBlock(all: seq<Ei>, block: FileBlockHandle) returns (es: seq<Ei>)
    ensures es == LocatedEntries(all, block)
  {
    es := [];
    for k := 0 to |all|
      invariant es + LocatedEntries(all[k..], block) == LocatedEntries(all, block)
    {
      assert all[k..][1..] == all[k + 1..];
      es := es + [all[k].(block := Some(block))];
    }
  }

  method SetBlock(items: seq<Item>, block: FileBlockHandle) returns (out: seq<Item>)
    ensures out == Located(items, block)
  {
    hide LocatedEntries;
    out := [];
    for i := 0 to |items|
      invariant out + Located(items[i..], block) == Located(items, block)
    {
      var item := items[i];
      match item.content {
        case Entries(all) =>
          var es := SetEntriesBlock(all, block);
          item := item.(content := Entries(es));
        case Cmd(_) =>
        case Kv(kv) =>
          item := item.(content := Kv(kv.(file := Some(block.id))));
      }
      assert items[i..][1..] == items[i + 1..] && item == LocatedItem(items[i], block);
      out := out + [item];
    }
    assert out == Located(items, block);
  }

  lemma {:induction false} LocatedIsStamped(items: seq<Item>, ct: CompressionType, block: FileBlockHandle)
    ensures Located(Compressed(items, ct), block) == Stamped(items, ct, block)
    decreases |items|
  {
    if items != [] {
      LocatedIsStamped(items[1..], ct, block);
      assert Compressed(items, ct)[1..] == Compressed(items[1..], ct);
      if items[0].content.Entries? { LocatedEntriesIsStamped(items[0].content.es, ct, block); }
    }
  }

  lemma {:induction false} LocatedEntriesIsStamped(es: seq<Ei>, ct: CompressionType, block: FileBlockHandle)
    ensures LocatedEntries(CompressedEntries(es, ct), block) == StampedEntries(es, ct, block)
    decreases |es|
  {
    if es != [] {
      LocatedEntriesIsStamped(es[1..], ct, block);
      assert CompressedEntries(es, ct)[1..] == CompressedEntries(es[1..], ct);
    }
  }

  method ShiftOffsets(items: seq<Item>, d: nat) returns (moved: seq<Item>)
    ensures moved == ShiftedItems(items, d)
  {
    moved := [];
    for i := 0 to |items|
      invariant moved + ShiftedItems(items[i..], d) == ShiftedItems(items, d)
    {
      var item := items[i];
      if item.content.Entries? {
        var es: seq<Ei> := [];
        for k := 0 to |item.content.es|
          invariant es + ShiftedEntries(item.content.es[k..], d) == ShiftedEntries(item.content.es, d)
        {
          var e := item.content.es[k];
          assert item.content.es[k..][1..] == item.content.es[k + 1..];
          es := es + [e.(offset := e.offset + d)];
        }
        assert es == ShiftedEntries(item.content.es, d);
        item := item.(content := Entries(es));
      }
      assert items[i..][1..] == items[i + 1..] && item == ShiftedItem(items[i], d);
      moved := moved + [item];
    }
    assert moved == ShiftedItems(items, d);
  }

  lemma MergedView(items: seq<Item>, data: Bytes, others: seq<Item>, data': Bytes)
    requires Laid(items, 0) && ItemsEnd(items, 0) == |data| && Laid(others, 0) && ItemsEnd(others, 0) == |data'|
    requires |data| + |data'| <= MAX_ENTRIES_SIZE
    ensures var all := items + ShiftedItems(others, |data|);
            && Laid(all, 0) && ItemsEnd(all, 0) == |data| + |data'|
            && Resolve(all, data + data') == Resolve(items, data) + Resolve(others, data')
  {
    hide ResolveItem;
    var moved := ShiftedItems(others, |data|);
    ShiftedLaid(others, 0, |data|);
    ShiftedResolve(others, data, data');
    LaidAppend(items, moved, 0);
    ResolveExtends(items, data, data');
    var a, b := Resolve(items, data + data'), Resolve(moved, data + data');
    var all := Resolve(items + moved, data + data');
    forall i | 0 <= i < |all| ensures all[i] == (a + b)[i] { }
  }

  lemma AddedView(items: seq<Item>, data: Bytes, region: U64, es: seq<Ei>, entries: seq<Bytes>)
    requires Laid(items, 0) && ItemsEnd(items, 0) == |data| && |data| + |Concat(entries)| <= MAX_ENTRIES_SIZE
    requires SizedBy(es, entries) && 0 < |es| < TWO_64 && es[0].index < TWO_64
    ensures var after := items + [Item(region, Entries(Placed(es, |data|)))];
            && Laid(after, 0) && ItemsEnd(after, 0) == EndOf(es, |data|) == |data| + |Concat(entries)|
            && Resolve(after, data + Concat(entries)) == Resolve(items, data) + [EntriesRecord(region, Zip(es, entries))]
  {
    var added := Item(region, Entries(Placed(es, |data|)));
    SizedEnd(es, entries, |data|);
    PlacedLaid(es, |data|);
    LaidAppend(items, [added], 0);
    ResolveExtends(items, data, Concat(entries));
    PlacedResolve(es, entries, data);
    var got := Resolve(items + [added], data + Concat(entries));
    forall i | 0 <= i < |items| ensures got[i] == Resolve(items, data)[i] {
      assert got[i] == Resolve(items, data + Concat(entries))[i];
    }
  }

  // ------------------------------------------------------------------ end to end

  lemma {:induction false} StampedEntriesAt(es: seq<Ei>, ct: CompressionType, block: FileBlockHandle)
    ensures |StampedEntries(es, ct, block)| == |es|
    ensures forall k :: 0 <= k < |es| ==> StampedEntries(es, ct, block)[k] == es[k].(compression := ct, block := Some(block))
    decreases |es|
  {
    if es != [] { StampedEntriesAt(es[1..], ct, block); }
  }

  lemma {:induction false} StampedResolve(items: seq<Item>, ct: CompressionType, block: FileBlockHandle, data: Bytes)
    ensures |Stamped(items, ct, block)| == |items| && Resolve(Stamped(items, ct, block), data) == Resolve(items, data)
    decreases |items|
  {
    if items != [] {
      var all := Stamped(items, ct, block);
      StampedResolve(items[1..], ct, block, data);
      if items[0].content.Entries? {
        StampedEntriesAt(items[0].content.es, ct, block);
        assert ResolveEntries(StampedEntries(items[0].content.es, ct, block), data) == ResolveEntries(items[0].content.es, data);
      }
      assert ResolveItem(all[0], data) == ResolveItem(items[0], data) && all[1..] == Stamped(items[1..], ct, block);
      forall i | 1 <= i < |items| ensures ResolveItem(all[i], data) == ResolveItem(items[i], data) {
        assert Resolve(all[1..], data)[i - 1] == Resolve(items[1..], data)[i - 1];
      }
    }
  }

  lemma ResignedTail(buf: Bytes, at: nat, body: Bytes, before: Bytes, after: Bytes)
    requires at <= |buf| && buf[at..] == body + before && |before| == |after| == 4
    ensures |buf| == at + |body| + 4 && (buf[..|buf| - 4] + after)[at..] == body + after
  {
    assert buf[at..|buf| - 4] == body;
  }

  lemma BodyLength(lib: Lib, items: seq<Item>, stored: Bytes, ct: CompressionType)
    ensures |BatchBody(lib, items, stored, ct)| == HEADER_LEN + |Block(lib, stored)| + |Footer(items)|
  {
  }

  /** The batch fits the seven bytes of its length field. */
  ghost predicate Storable(lib: Lib, items: seq<Item>, stored: Bytes) {
    HEADER_LEN + |Block(lib, stored)| + |Footer(items)| + CHECKSUM_LEN < TWO_56
  }

  /** What reading back a written batch gives. */
  lemma WrittenReadsBack(lib: Lib, items: seq<Item>, data: Bytes, stored: Bytes, ct: CompressionType,
                         signature: Option<U32>, id: FileId, offset: nat)
    requires Laid(items, 0) && |items| < TWO_64 && Storable(lib, items, stored)
    requires if ct == NoCompression then stored == data else stored != [] && lib.decompress(stored) == Some(data)
    ensures var bytes := BatchBytes(lib, items, stored, ct, Signed(lib.crc(Footer(items)), signature));
            var now := Located(Compressed(items, ct), FileBlockHandle(id, offset + HEADER_LEN, |Block(lib, stored)|));
            && Resolve(now, data) == Resolve(items, data)
            && ReadsBack(lib, bytes, id, offset, signature, items, now, data)
  {
    var handle := FileBlockHandle(id, offset + HEADER_LEN, |Block(lib, stored)|);
    LocatedIsStamped(items, ct, handle);
    assert Resolve(Stamped(items, ct, handle), data) == Resolve(items, data) by { StampedResolve(items, ct, handle, data); }
    BatchRoundTrip(lib, items, stored, ct, data, id, offset, signature);
    RenumberedIsSame(items, ct, handle);
  }

  /** Reading `bytes` gives `data` and, exactly when the indexes of each item of `items` are
      consecutive, the items `now`. */
  ghost predicate ReadsBack(lib: Lib, bytes: Bytes, id: FileId, offset: nat, signature: Option<U32>,
                            items: seq<Item>, now: seq<Item>, data: Bytes)
  {
    var read := ReadBatch(lib, bytes, id, offset, signature);
    read.Parsed? && read.value.1 == data && (read.value.0 == now <==> AllConsecutive(items))
  }

  /** Two empty entries with the indexes 1 and 3. */
  const Gap: seq<Item> := [Item(7, Entries([Ei(1, 0, 0, NoCompression, None), Ei(3, 0, 0, NoCompression, None)]))]

  lemma GapFits(lib: Lib)
    ensures Laid(Gap, 0) && Storable(lib, Gap, []) && !AllConsecutive(Gap)
  {
    var es := Gap[0].content.es;
    assert Gap[1..] == [] && es[1..][1..] == [];
    assert EncodeItems(Gap[1..]) == [];
    hide VarU64, ItemEnd;
    VarU64RoundTrip(0, []);
    VarU64RoundTrip(1, []);
    VarU64RoundTrip(2, []);
    VarU64RoundTrip(7, []);
    assert Tails(es[1..][1..]) == [] && |Tails(es[1..])| <= 10 && |Tails(es)| <= 20;
    assert !ConsecutiveEntries(es) by { assert es[1].index == 3; }
    assert Gap[0].content.Entries?;
  }

  /** A batch whose indexes have a gap is written and read back without it. */
  lemma GapIsLost(lib: Lib, id: FileId, offset: nat, signature: Option<U32>)
    ensures var bytes := BatchBytes(lib, Gap, [], NoCompression, Signed(lib.crc(Footer(Gap)), signature));
            var now := Located(Compressed(Gap, NoCompression), FileBlockHandle(id, offset + HEADER_LEN, 0));
            var read := ReadBatch(lib, bytes, id, offset, signature);
            read.Parsed? && read.value.0 != now
  {
    hide ReadBatch, BatchBytes, Located, Footer, AllConsecutive, Storable, Laid;
    GapFits(lib);
    WrittenReadsBack(lib, Gap, [], [], NoCompression, signature, id, offset);
  }

  /** Signs an encoded batch for one file after the other. */
  method SignAll(batch: LogBatch, lib: Lib, signatures: seq<Option<U32>>,
                 ghost items: seq<Item>, ghost stored: Bytes, ghost ct: CompressionType)
    requires signatures != [] && batch.state.Encoded? && batch.state.header <= |batch.buf|
    requires batch.state.entriesLen == |Block(lib, stored)| && batch.checksum == lib.crc(Footer(items))
    requires batch.buf[batch.state.header..] == BatchBytes(lib, items, stored, ct, 0)
    modifies batch`buf, batch`state
    ensures batch.state == Sealed(old(batch.state.header), old(batch.state.entriesLen))
    ensures batch.state.header <= |batch.buf|
    ensures batch.EncodedBytes()
         == BatchBytes(lib, items, stored, ct, Signed(lib.crc(Footer(items)), signatures[|signatures| - 1]))
  {
    hide Footer, Block, Header, Signed, LittleEndian;
    ghost var header, entriesLen := batch.state.header, batch.state.entriesLen;
    ghost var sum: U32 := 0;
    for i := 0 to |signatures|
      invariant batch.state == if i == 0 then Encoded(header, entriesLen) else Sealed(header, entriesLen)
      invariant header <= |batch.buf| && batch.buf[header..] == BatchBytes(lib, items, stored, ct, sum)
      invariant i > 0 ==> sum == Signed(batch.checksum, signatures[i - 1])
    {
      BodyLength(lib, items, stored, ct);
      ResignedTail(batch.buf, header, BatchBody(lib, items, stored, ct),
                   LittleEndian(sum, 4), LittleEndian(Signed(batch.checksum, signatures[i]), 4));
      batch.PrepareWrite(signatures[i]);
      sum := Signed(batch.checksum, signatures[i]);
    }
  }

  /** Encodes and signs the batch; gives the bytes to write. */
  method Encode(batch: LogBatch, lib: Lib, threshold: nat, signatures: seq<Option<U32>>) returns (bytes: Option<Bytes>)
    requires batch.Valid() && 0 < |batch.items| < TWO_64 && signatures != []
    modifies batch
    ensures match Stored(lib, threshold, old(batch.Data()))
            case None => bytes == None
            case Some((stored, ct)) =>
              && batch.state.Sealed? && batch.state.entriesLen == |Block(lib, stored)|
              && batch.items == Compressed(old(batch.items), ct)
              && bytes == Some(BatchBytes(lib, old(batch.items), stored, ct,
                                          Signed(lib.crc(Footer(old(batch.items))), signatures[|signatures| - 1])))
  {
    ghost var items, data := batch.items, batch.Data();
    var len := batch.FinishPopulate(lib, threshold);
    if len.None? { return None; }
    ghost var stored, ct := Stored(lib, threshold, data).value.0, Stored(lib, threshold, data).value.1;
    SignAll(batch, lib, signatures, items, stored, ct);
    bytes := Some(batch.EncodedBytes());
  }

  /** Writing a batch, as the engine does it: encode, sign it for each file that is tried, and
      set the locations. What is read back from the last file are the bytes of the entries as
      they were added and, exactly when the indexes of each item are consecutive, the items
      as they are now in memory. */
  method Persist(batch: LogBatch, lib: Lib, threshold: nat, signatures: seq<Option<U32>>, id: FileId, offset: nat)
    returns (bytes: Option<Bytes>)
    requires batch.Valid() && 0 < |batch.items| < TWO_64 && signatures != [] && Lossless(lib)
    requires Stored(lib, threshold, batch.Data()).Some? ==> Storable(lib, batch.items, Stored(lib, threshold, batch.Data()).value.0)
    modifies batch
    ensures bytes.None? <==> Stored(lib, threshold, old(batch.Data())) == None
    ensures bytes.Some? ==>
              && Resolve(batch.items, old(batch.Data())) == old(batch.View())
              && ReadsBack(lib, bytes.value, id, offset, signatures[|signatures| - 1],
                           old(batch.items), batch.items, old(batch.Data()))
  {
    hide ReadBatch, BatchBytes, Signed, Footer, Block, Compressed, Located, Resolve;
    ghost var items, data := batch.items, batch.Data();
    bytes := Encode(batch, lib, threshold, signatures);
    if bytes.Some? {
      ghost var stored, ct := Stored(lib, threshold, data).value.0, Stored(lib, threshold, data).value.1;
      batch.FinishWrite(FileBlockHandle(id, offset, |bytes.value|));
      WrittenReadsBack(lib, items, data, stored, ct, signatures[|signatures| - 1], id, offset);
    }
  }
}
