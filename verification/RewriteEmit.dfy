/**
 What a background rewrite writes to the rewrite queue: the fetched entries of many raft
 groups, packed into batches of limited size. A squeeze must not be torn, so a raft group
 that does not fit in one batch is written as an atomic group.
 */
module RewriteEmit {
  import opened PipeLog
  import AG = AtomicGroups

  type Bytes = seq<nat>

  datatype Entry = Entry(index: nat, bytes: Bytes)

  /** What was fetched from one table. */
  datatype Work = Work(region: nat, entries: seq<Entry>, kvs: seq<(Bytes, Bytes)>)

  datatype BatchItem =
    | EntriesItem(region: nat, es: seq<Entry>)
    | KvItem(region: nat, key: Bytes, value: Bytes)
    | Marker(id: nat, status: AG.Status)

  type Batch = seq<BatchItem>

  const MaxBatchBytes := 128 * 1024

  // ------------------------------------------------------------------- sizes

  function EntryBytes(es: seq<Entry>): nat {
    if |es| == 0 then 0 else EntryBytes(es[..|es| - 1]) + |es[|es| - 1].bytes|
  }

  /** Encoded size of one item, and of the entry bytes it carries. */
  function ItemSize(it: BatchItem): nat {
    match it
    case EntriesItem(_, es) => 8 + 1 + 8 + (if |es| == 0 then 0 else 8) + 8 * |es| + EntryBytes(es)
    case KvItem(_, key, value) => 8 + 1 + 1 + 8 + |key| + 8 + |value|
    case Marker(_, _) => 8 + 1 + 1 + 8 + 3 + 8 + 1
  }

  function ItemSizes(b: Batch): nat {
    if |b| == 0 then 0 else ItemSizes(b[..|b| - 1]) + ItemSize(b[|b| - 1])
  }

  /** Header, checksum of the entries, item count, items, checksum of the items. */
  function ApproximateSize(b: Batch): nat {
    if |b| == 0 then 0 else 16 + 4 + 8 + ItemSizes(b) + 4
  }

  /** Beside `used` other bytes, only the last entry may exceed the limit. */
  predicate Snug(es: seq<Entry>, used: nat) {
    |es| > 0 ==> EntryBytes(es[..|es| - 1]) + used <= MaxBatchBytes
  }

  /** A chunk is over the limit, and only because of its last entry. */
  predicate Chunk(es: seq<Entry>) { |es| > 0 && EntryBytes(es) > MaxBatchBytes && Snug(es, 0) }

  lemma EntryBytesSnoc(es: seq<Entry>, e: Entry)
    ensures EntryBytes(es + [e]) == EntryBytes(es) + |e.bytes| && (es + [e])[..|es|] == es
  {
    assert (es + [e])[..|es|] == es;
  }

  lemma NoBytes()
    ensures EntryBytes([]) == 0
  {
  }

  lemma {:induction false} SliceBytes(es: seq<Entry>, lo: nat, hi: nat)
    requires lo <= hi <= |es|
    ensures EntryBytes(es[lo..hi]) <= EntryBytes(es)
    decreases |es|
  {
    hide EntryBytes;
    if lo == hi {
      assert es[lo..hi] == [];
      NoBytes();
    } else {
      var n := |es| - 1;
      var front := es[..n];
      EntryBytesSnoc(front, es[n]);
      assert es == front + [es[n]];
      if hi <= n {
        SliceBytes(front, lo, hi);
        assert front[lo..hi] == es[lo..hi];
      } else {
        SliceBytes(front, lo, n);
        EntryBytesSnoc(front[lo..n], es[n]);
        assert es[lo..hi] == front[lo..n] + [es[n]];
      }
    }
  }

  // ---------------------------------------------------------- shapes of output

  /** Entries of a region that a batch carries, in order. */
  function EntriesOf(b: Batch, region: nat): seq<Entry> {
    if |b| == 0 then [] else
    EntriesOf(b[..|b| - 1], region) +
    match b[|b| - 1]
    case EntriesItem(r, es) => if r == region then es else []
    case _ => []
  }

  /** Pairs of a region that a batch carries, in order. */
  function KvsOf(b: Batch, region: nat): seq<(Bytes, Bytes)> {
    if |b| == 0 then [] else
    KvsOf(b[..|b| - 1], region) +
    match b[|b| - 1]
    case KvItem(r, k, v) => if r == region then [(k, v)] else []
    case _ => []
  }

  predicate NoMarker(b: Batch) {
    forall k :: 0 <= k < |b| ==> !b[k].Marker?
  }

  /** All items but the marker belong to `region`. */
  predicate OnlyRegion(b: Batch, region: nat) {
    forall k :: 0 <= k < |b| ==> b[k].EntriesItem? || b[k].KvItem? ==> b[k].region == region
  }

  /** Exactly one marker, at position `at`. */
  predicate MarkedAt(b: Batch, at: int, id: nat, status: AG.Status) {
    && 0 <= at < |b| && b[at] == Marker(id, status)
    && forall k :: 0 <= k < |b| && k != at ==> !b[k].Marker?
  }

  ghost predicate Marked(b: Batch, id: nat, status: AG.Status) {
    exists at :: MarkedAt(b, at, id, status)
  }

  function StatusAt(k: nat, n: nat): AG.Status {
    if k == 0 then AG.Begin else if k + 1 == n then AG.End else AG.Middle
  }

  /** A run of written batches: one unmarked batch, or one atomic group. */
  datatype Segment = Plain(batch: Batch) | Grouped(id: nat, region: nat, batches: seq<Batch>)
  {
    function Batches(): seq<Batch> {
      match this
      case Plain(b) => [b]
      case Grouped(_, _, bs) => bs
    }

    /** Begin Middle* End, one marker a batch, and only one region's items. */
    ghost predicate WellFormed() {
      match this
      case Plain(b) => |b| > 0 && NoMarker(b)
      case Grouped(id, region, bs) =>
        && 2 <= |bs|
        && forall k :: 0 <= k < |bs| ==> OnlyRegion(bs[k], region) && Marked(bs[k], id, StatusAt(k, |bs|))
    }
  }

  function Concat(segs: seq<Segment>): seq<Batch> {
    if |segs| == 0 then [] else Concat(segs[..|segs| - 1]) + segs[|segs| - 1].Batches()
  }

  /** Well-formed segments whose groups have increasing ids below `next`. */
  ghost predicate Segments(segs: seq<Segment>, next: nat) {
    && (forall k :: 0 <= k < |segs| ==> segs[k].WellFormed())
    && (forall k :: 0 <= k < |segs| && segs[k].Grouped? ==> segs[k].id < next)
    && (forall j, k :: 0 <= j < k < |segs| && segs[j].Grouped? && segs[k].Grouped? ==> segs[j].id < segs[k].id)
  }

  function AllEntries(bs: seq<Batch>, region: nat): seq<Entry> {
    if |bs| == 0 then [] else AllEntries(bs[..|bs| - 1], region) + EntriesOf(bs[|bs| - 1], region)
  }

  function AllKvs(bs: seq<Batch>, region: nat): seq<(Bytes, Bytes)> {
    if |bs| == 0 then [] else AllKvs(bs[..|bs| - 1], region) + KvsOf(bs[|bs| - 1], region)
  }

  // ------------------------------------------------------------------ lemmas

  lemma EntriesOfSnoc(b: Batch, it: BatchItem, r: nat)
    ensures EntriesOf(b + [it], r) == EntriesOf(b, r) + (if it.EntriesItem? && it.region == r then it.es else [])
    ensures KvsOf(b + [it], r) == KvsOf(b, r) + (if it.KvItem? && it.region == r then [(it.key, it.value)] else [])
  {
    assert (b + [it])[..|b|] == b;
  }

  lemma AllSnoc(bs: seq<Batch>, b: Batch, r: nat)
    ensures AllEntries(bs + [b], r) == AllEntries(bs, r) + EntriesOf(b, r)
    ensures AllKvs(bs + [b], r) == AllKvs(bs, r) + KvsOf(b, r)
  {
    assert (bs + [b])[..|bs|] == bs;
  }

  lemma ConcatSnoc(segs: seq<Segment>, seg: Segment)
    ensures Concat(segs + [seg]) == Concat(segs) + seg.Batches()
  {
    assert (segs + [seg])[..|segs|] == segs;
  }

  /** Nothing of one region is in a batch that only has items of another. */
  lemma {:induction false} OtherRegion(b: Batch, region: nat, r: nat)
    requires OnlyRegion(b, region) && r != region
    ensures EntriesOf(b, r) == [] && KvsOf(b, r) == []
  {
    if |b| > 0 {
      assert OnlyRegion(b[..|b| - 1], region);
      OtherRegion(b[..|b| - 1], region, r);
    }
  }

  /** The items a region adds to a batch in one piece. */
  function KvItems(region: nat, kvs: seq<(Bytes, Bytes)>): Batch {
    seq(|kvs|, k requires 0 <= k < |kvs| => KvItem(region, kvs[k].0, kvs[k].1))
  }

  function EntryItems(region: nat, es: seq<Entry>): Batch {
    if |es| == 0 then [] else [EntriesItem(region, es)]
  }

  lemma {:induction false} EntriesOfConcat(a: Batch, b: Batch, r: nat)
    ensures EntriesOf(a + b, r) == EntriesOf(a, r) + EntriesOf(b, r)
    ensures KvsOf(a + b, r) == KvsOf(a, r) + KvsOf(b, r)
    decreases |b|
  {
    if |b| == 0 {
      assert a + b == a;
    } else {
      var n := |b| - 1;
      EntriesOfConcat(a, b[..n], r);
      ConcatStep(a, b[..n], b[n], r);
      assert b == b[..n] + [b[n]];
    }
  }

  lemma ConcatStep(a: Batch, b: Batch, it: BatchItem, r: nat)
    requires EntriesOf(a + b, r) == EntriesOf(a, r) + EntriesOf(b, r)
    requires KvsOf(a + b, r) == KvsOf(a, r) + KvsOf(b, r)
    ensures EntriesOf(a + (b + [it]), r) == EntriesOf(a, r) + EntriesOf(b + [it], r)
    ensures KvsOf(a + (b + [it]), r) == KvsOf(a, r) + KvsOf(b + [it], r)
  {
    hide EntriesOf, KvsOf;
    assert a + (b + [it]) == (a + b) + [it];
    EntriesOfSnoc(a + b, it, r);
    EntriesOfSnoc(b, it, r);
  }

  lemma {:induction false} KvItemsOf(region: nat, kvs: seq<(Bytes, Bytes)>, r: nat)
    ensures EntriesOf(KvItems(region, kvs), r) == []
    ensures KvsOf(KvItems(region, kvs), r) == if r == region then kvs else []
    decreases |kvs|
  {
    hide EntriesOf, KvsOf;
    if |kvs| == 0 {
      NothingOf(r);
    } else {
      var n := |kvs| - 1;
      assert KvItems(region, kvs) == KvItems(region, kvs[..n]) + [KvItem(region, kvs[n].0, kvs[n].1)];
      KvItemsOf(region, kvs[..n], r);
      EntriesOfSnoc(KvItems(region, kvs[..n]), KvItem(region, kvs[n].0, kvs[n].1), r);
      assert kvs == kvs[..n] + [kvs[n]];
    }
  }

  lemma NothingOf(r: nat)
    ensures EntriesOf([], r) == [] && KvsOf([], r) == []
  {
  }

  lemma {:induction false} EntryItemsOf(region: nat, es: seq<Entry>, r: nat)
    ensures EntriesOf(EntryItems(region, es), r) == if r == region then es else []
    ensures KvsOf(EntryItems(region, es), r) == []
  {
    if |es| > 0 {
      var it := EntriesItem(region, es);
      assert EntryItems(region, es) == [] + [it];
      EntriesOfSnoc([], it, r);
      assert EntriesOf([], r) == [] && KvsOf([], r) == [];
    }
  }

  /** Everything a region contributes, unsplit. */
  function RegionItems(w: Work): Batch { EntryItems(w.region, w.entries) + KvItems(w.region, w.kvs) }

  /** `bs` carries exactly the data of `w` for its region. */
  predicate Whole(bs: seq<Batch>, w: Work) {
    AllEntries(bs, w.region) == w.entries && AllKvs(bs, w.region) == w.kvs
  }

  lemma RegionItemsOf(w: Work, r: nat)
    ensures EntriesOf(RegionItems(w), r) == if r == w.region then w.entries else []
    ensures KvsOf(RegionItems(w), r) == if r == w.region then w.kvs else []
    ensures NoMarker(RegionItems(w)) && OnlyRegion(RegionItems(w), w.region)
  {
    hide EntriesOf, KvsOf;
    EntriesOfConcat(EntryItems(w.region, w.entries), KvItems(w.region, w.kvs), r);
    EntryItemsOf(w.region, w.entries, r);
    KvItemsOf(w.region, w.kvs, r);
  }

  // ---------------------------------------------------------- the group builder

  /** Begun and not ended: `bs` are the batches written so far. */
  ghost predicate OpenRun(bs: seq<Batch>, id: nat, region: nat) {
    && |bs| > 0
    && forall k :: 0 <= k < |bs| ==>
                     OnlyRegion(bs[k], region) && Marked(bs[k], id, if k == 0 then AG.Begin else AG.Middle)
  }

  lemma RunGrows(bs: seq<Batch>, id: nat, region: nat, es: seq<Entry>, r: nat)
    requires |bs| > 0 ==> OpenRun(bs, id, region)
    ensures var b := [Marker(id, if |bs| == 0 then AG.Begin else AG.Middle), EntriesItem(region, es)];
            && OpenRun(bs + [b], id, region)
            && AllEntries(bs + [b], r) == AllEntries(bs, r) + (if r == region then es else [])
            && AllKvs(bs + [b], r) == AllKvs(bs, r)
  {
    hide AllEntries, AllKvs, EntriesOf, KvsOf;
    var status := if |bs| == 0 then AG.Begin else AG.Middle;
    var b := [Marker(id, status), EntriesItem(region, es)];
    assert MarkedAt(b, 0, id, status);
    AllSnoc(bs, b, r);
    MarkedChunkOf(id, status, region, es, r);
    assert AllKvs(bs, r) + [] == AllKvs(bs, r);
  }

  lemma MarkedChunkOf(id: nat, status: AG.Status, region: nat, es: seq<Entry>, r: nat)
    ensures EntriesOf([Marker(id, status), EntriesItem(region, es)], r) == if r == region then es else []
    ensures KvsOf([Marker(id, status), EntriesItem(region, es)], r) == []
  {
    hide EntriesOf, KvsOf;
    var m, e := Marker(id, status), EntriesItem(region, es);
    NothingOf(r);
    assert [m] == [] + [m] && [m, e] == [m] + [e];
    EntriesOfSnoc([], m, r);
    EntriesOfSnoc([m], e, r);
  }

  lemma RunEnds(bs: seq<Batch>, id: nat, w: Work, rest: seq<Entry>)
    requires OpenRun(bs, id, w.region)
    requires AllEntries(bs, w.region) + rest == w.entries && AllKvs(bs, w.region) == []
    ensures var b := EntryItems(w.region, rest) + KvItems(w.region, w.kvs) + [Marker(id, AG.End)];
            Grouped(id, w.region, bs + [b]).WellFormed() && Whole(bs + [b], w)
  {
    var r := w.region;
    var data := RegionItems(Work(r, rest, w.kvs));
    var b := data + [Marker(id, AG.End)];
    RegionItemsOf(Work(r, rest, w.kvs), r);
    assert MarkedAt(b, |data|, id, AG.End);
    AllSnoc(bs, b, r);
    EntriesOfSnoc(data, Marker(id, AG.End), r);
  }

  // ------------------------------------------------------------- the rewriter

  /** The open batch is written out, unless there is nothing in it. */
  method RewriteImpl(batch: Batch, out: seq<Batch>) returns (batch': Batch, out': seq<Batch>, written: bool)
    ensures batch' == [] && written == (|batch| > 0)
    ensures out' == if |batch| > 0 then out + [batch] else out
  {
    if |batch| == 0 {
      return [], out, false;
    }
    batch', out', written := [], out + [batch], true;
  }

  /** Segments after the open batch has been written out as it is. */
  function Flushed(segs: seq<Segment>, batch: Batch): seq<Segment> {
    if |batch| == 0 then segs else segs + [Plain(batch)]
  }

  lemma FlushKeeps(segs: seq<Segment>, batch: Batch, next: nat)
    requires Segments(segs, next) && NoMarker(batch)
    ensures Segments(Flushed(segs, batch), next)
    ensures Concat(Flushed(segs, batch)) == if |batch| == 0 then Concat(segs) else Concat(segs) + [batch]
  {
    hide Concat, Marked, OnlyRegion;
    ConcatSnoc(segs, Plain(batch));
  }

  /** The pairs of a region go behind its last entries. */
  method PutAll(batch: Batch, region: nat, kvs: seq<(Bytes, Bytes)>) returns (batch': Batch)
    ensures batch' == batch + KvItems(region, kvs)
  {
    batch' := batch;
    for i := 0 to |kvs|
      invariant batch' == batch + KvItems(region, kvs)[..i]
    {
      batch' := batch' + [KvItem(region, kvs[i].0, kvs[i].1)];
    }
  }

  /** `add_raw_entries`: a batch without entries adds no item. */
  method AddRawEntries(batch: Batch, region: nat, es: seq<Entry>) returns (batch': Batch)
    ensures batch' == batch + EntryItems(region, es)
  {
    if |es| == 0 {
      return batch;
    }
    batch' := batch + [EntriesItem(region, es)];
  }

  // ------------------------------------------------------------------ how full they are

  /** The earlier regions and this one do not fit in one batch. */
  predicate Crowded(batch0: Batch, w: Work) { ApproximateSize(batch0) + EntryBytes(w.entries) > MaxBatchBytes }

  predicate Chunks(run: seq<Batch>, region: nat) {
    forall k :: 0 <= k < |run| ==> Chunk(EntriesOf(run[k], region))
  }

  /** Batches of a group are chunks, but for the last, which has what is left. An unmarked batch is
      within the limit without its last region, of which only the last entry may exceed it. */
  ghost predicate Sized(seg: Segment) {
    match seg
    case Plain(b) => exists n, w :: LastRegion(b, n, w)
    case Grouped(_, region, bs) =>
      |bs| > 0 && Chunks(bs[..|bs| - 1], region) && Snug(EntriesOf(bs[|bs| - 1], region), 0)
  }

  predicate LastRegion(b: Batch, n: nat, w: Work) {
    && n <= |b| && ApproximateSize(b[..n]) <= MaxBatchBytes
    && b[n..] == RegionItems(w) && Snug(w.entries, ApproximateSize(b[..n]))
  }

  ghost predicate AllSized(segs: seq<Segment>) { forall k :: 0 <= k < |segs| ==> Sized(segs[k]) }

  /** The sizes between two entries of a region: `cur` bytes are collected beside the `prev` of the
      earlier regions, and everything is put off as long as it fits. */
  ghost predicate Packing(w: Work, batch0: Batch, batch: Batch, run: seq<Batch>, sent: nat, i: nat, cur: nat, prev: nat) {
    && sent <= i <= |w.entries| && cur == EntryBytes(w.entries[sent..i])
    && prev == ApproximateSize(batch) <= MaxBatchBytes
    && Snug(w.entries[sent..i], prev) && (i < |w.entries| ==> cur + prev <= MaxBatchBytes)
    && Chunks(run, w.region) && (|run| > 0 ==> EntryBytes(w.entries) > MaxBatchBytes)
    && (batch != batch0 ==> Crowded(batch0, w))
  }

  /** One more entry, and room for it. */
  lemma PackNext(w: Work, batch0: Batch, batch: Batch, run: seq<Batch>, sent: nat, i: nat, cur: nat, prev: nat)
    requires Packing(w, batch0, batch, run, sent, i, cur, prev) && i < |w.entries|
    ensures var cur' := cur + |w.entries[i].bytes|;
            && cur' == EntryBytes(w.entries[sent..i + 1]) && Snug(w.entries[sent..i + 1], prev)
            && (i + 1 == |w.entries| || cur' + prev <= MaxBatchBytes ==> Packing(w, batch0, batch, run, sent, i + 1, cur', prev))
  {
    assert w.entries[sent..i + 1] == w.entries[sent..i] + [w.entries[i]];
    EntryBytesSnoc(w.entries[sent..i], w.entries[i]);
  }

  /** The earlier regions go out first. */
  lemma PackFlush(w: Work, batch0: Batch, batch: Batch, run: seq<Batch>, sent: nat, i: nat, cur: nat, prev: nat)
    requires sent <= i <= |w.entries| && cur == EntryBytes(w.entries[sent..i]) && cur + prev > MaxBatchBytes
    requires prev == ApproximateSize(batch) && batch == batch0 && run == [] && Snug(w.entries[sent..i], prev)
    ensures Crowded(batch0, w)
    ensures cur <= MaxBatchBytes ==> Packing(w, batch0, [], run, sent, i, cur, 0)
    ensures cur > MaxBatchBytes && sent < i ==> Chunk(w.entries[sent..i])
  {
    SliceBytes(w.entries, sent, i);
  }

  /** A chunk goes out. */
  lemma PackChunk(w: Work, batch0: Batch, run: seq<Batch>, sent: nat, i: nat, b: Batch)
    requires sent <= i <= |w.entries| && Chunk(w.entries[sent..i]) && Chunks(run, w.region)
    requires EntriesOf(b, w.region) == w.entries[sent..i]
    ensures Packing(w, batch0, [], run + [b], i, i, 0, 0)
  {
    hide EntriesOf;
    SliceBytes(w.entries, sent, i);
    assert w.entries[i..i] == [];
  }

  /** An unmarked batch of earlier regions that is within the limit. */
  lemma FlushSized(segs: seq<Segment>, batch: Batch)
    requires AllSized(segs) && ApproximateSize(batch) <= MaxBatchBytes
    ensures AllSized(Flushed(segs, batch))
  {
    assert LastRegion(batch, |batch|, Work(0, [], [])) by { assert batch[..|batch|] == batch; }
    assert Sized(Plain(batch));
  }

  lemma LateSized(segs: seq<Segment>, batch: Batch, w: Work)
    requires AllSized(segs) && ApproximateSize(batch) <= MaxBatchBytes && Snug(w.entries, ApproximateSize(batch))
    ensures AllSized(segs + [Plain(batch + RegionItems(w))])
  {
    var b := batch + RegionItems(w);
    assert b[..|batch|] == batch && b[|batch|..] == RegionItems(w);
    assert LastRegion(b, |batch|, w);
    assert Sized(Plain(b));
  }

  lemma GroupSized(segs: seq<Segment>, id: nat, region: nat, run: seq<Batch>, b: Batch)
    requires AllSized(segs) && Chunks(run, region) && Snug(EntriesOf(b, region), 0)
    ensures AllSized(segs + [Grouped(id, region, run + [b])])
  {
    assert (run + [b])[..|run|] == run;
    assert Sized(Grouped(id, region, run + [b]));
  }

  /** How one region ends up in the output: in the open batch, which may be written out before
      (`early`) or after it (`late`), or as an atomic group. */
  datatype Placement = Unsplit(early: bool, late: bool) | AsGroup(seg: Segment)

  ghost predicate Placed(pl: Placement, w: Work, segs0: seq<Segment>, batch0: Batch,
                         segs: seq<Segment>, batch: Batch, id: nat) {
    match pl
    case Unsplit(early, late) =>
      var segs1, batch1 := if early then Flushed(segs0, batch0) else segs0, if early then [] else batch0;
      if late then segs == segs1 + [Plain(batch1 + RegionItems(w))] && batch == []
      else segs == segs1 && batch == batch1 + RegionItems(w)
    case AsGroup(seg) =>
      && seg.Grouped? && seg.id == id && seg.region == w.region && Whole(seg.batches, w)
      && segs == Flushed(segs0, batch0) + [seg] && batch == []
  }

  /** Nothing is written out or split without need. */
  predicate Needed(pl: Placement, w: Work, batch0: Batch) {
    match pl
    case Unsplit(early, late) =>
      && (early ==> |batch0| > 0 && Crowded(batch0, w))
      && (late ==> ApproximateSize((if early then [] else batch0) + RegionItems(w)) > MaxBatchBytes)
    case AsGroup(_) => EntryBytes(w.entries) > MaxBatchBytes
  }

  /** The state between two entries of a region: what is written of its group, how many
      of its entries that are, and whether the batch of the earlier regions is out. */
  ghost predicate Emitting(w: Work, segs0: seq<Segment>, batch0: Batch, id: nat,
                           batch: Batch, out: seq<Batch>, segs: seq<Segment>, run: seq<Batch>, sent: nat) {
    && sent <= |w.entries|
    && out == Concat(segs) + run
    && AllEntries(run, w.region) == w.entries[..sent] && AllKvs(run, w.region) == []
    && (|run| > 0 ==> OpenRun(run, id, w.region) && batch == [] && segs == Flushed(segs0, batch0))
    && (|run| == 0 ==> || (segs == segs0 && batch == batch0)
                       || (|batch0| > 0 && segs == Flushed(segs0, batch0) && batch == []))
  }

  lemma FlushStep(w: Work, segs0: seq<Segment>, batch0: Batch, id: nat,
                  batch: Batch, out: seq<Batch>, segs: seq<Segment>, run: seq<Batch>, sent: nat)
    requires Emitting(w, segs0, batch0, id, batch, out, segs, run, sent) && |batch| > 0
    ensures run == []
    ensures Emitting(w, segs0, batch0, id, [], out + [batch], Flushed(segs0, batch0), run, sent)
  {
    ConcatSnoc(segs0, Plain(batch0));
    assert out == Concat(segs) + [] == Concat(segs);
  }

  lemma GrowStep(w: Work, segs0: seq<Segment>, batch0: Batch, id: nat,
                 out: seq<Batch>, segs: seq<Segment>, run: seq<Batch>, sent: nat, to: nat, b: Batch)
    requires Emitting(w, segs0, batch0, id, [], out, segs, run, sent) && sent <= to <= |w.entries|
    requires b == [Marker(id, if |run| == 0 then AG.Begin else AG.Middle), EntriesItem(w.region, w.entries[sent..to])]
    ensures Emitting(w, segs0, batch0, id, [], out + [b], segs, run + [b], to)
  {
    RunGrows(run, id, w.region, w.entries[sent..to], w.region);
    assert w.entries[..sent] + w.entries[sent..to] == w.entries[..to];
    assert Concat(segs) + run + [b] == Concat(segs) + (run + [b]);
  }

  lemma SegmentsSnoc(segs: seq<Segment>, seg: Segment, next: nat, next': nat)
    requires Segments(segs, next) && seg.WellFormed() && next <= next'
    requires seg.Grouped? ==> next <= seg.id < next'
    ensures Segments(segs + [seg], next')
  {
  }

  lemma FinishGroup(w: Work, segs0: seq<Segment>, batch0: Batch, id: nat,
                    out: seq<Batch>, segs: seq<Segment>, run: seq<Batch>, sent: nat, b: Batch)
    requires NoMarker(batch0) && Segments(segs0, id)
    requires Emitting(w, segs0, batch0, id, [], out, segs, run, sent) && |run| > 0
    requires b == EntryItems(w.region, w.entries[sent..]) + KvItems(w.region, w.kvs) + [Marker(id, AG.End)]
    ensures var segs' := segs + [Grouped(id, w.region, run + [b])];
            && Segments(segs', id + 1) && out + [b] == Concat(segs')
            && Placed(AsGroup(Grouped(id, w.region, run + [b])), w, segs0, batch0, segs', [], id)
  {
    var seg := Grouped(id, w.region, run + [b]);
    assert seg.WellFormed() && Whole(run + [b], w) by {
      assert w.entries[..sent] + w.entries[sent..] == w.entries;
      RunEnds(run, id, w, w.entries[sent..]);
    }
    assert Segments(segs + [seg], id + 1) by {
      FlushKeeps(segs0, batch0, id);
      SegmentsSnoc(segs, seg, id, id + 1);
    }
    ConcatSnoc(segs, seg);
    assert Concat(segs) + run + [b] == Concat(segs) + (run + [b]);
  }

  lemma FinishPlain(w: Work, segs0: seq<Segment>, batch0: Batch, id: nat,
                    batch: Batch, out: seq<Batch>, segs: seq<Segment>)
    requires NoMarker(batch0) && Segments(segs0, id)
    requires Emitting(w, segs0, batch0, id, batch, out, segs, [], 0)
    ensures NoMarker(batch) && Segments(segs, id) && out == Concat(segs)
    ensures NoMarker(batch + RegionItems(w))
    ensures var early := !(segs == segs0 && batch == batch0);
            && Placed(Unsplit(early, false), w, segs0, batch0, segs, batch + RegionItems(w), id)
            && Placed(Unsplit(early, true), w, segs0, batch0, segs + [Plain(batch + RegionItems(w))], [], id)
  {
    hide Marked, Concat;
    assert out == Concat(segs) + [] == Concat(segs);
    FlushKeeps(segs0, batch0, id);
    RegionItemsOf(w, w.region);
  }

  /** Writes the batch of the earlier regions, if it is still open. */
  method FlushEarlier(w: Work, batch0: Batch, id: nat, batch: Batch, out: seq<Batch>,
                      ghost segs0: seq<Segment>, ghost segs: seq<Segment>, ghost run: seq<Batch>, ghost sent: nat)
    returns (out': seq<Batch>, ghost segs': seq<Segment>)
    requires Emitting(w, segs0, batch0, id, batch, out, segs, run, sent) && |batch| > 0
    ensures Emitting(w, segs0, batch0, id, [], out', segs', run, sent) && run == [] && batch == batch0
  {
    FlushStep(w, segs0, batch0, id, batch, out, segs, run, sent);
    var empty, written;
    empty, out', written := RewriteImpl(batch, out);
    segs' := Flushed(segs0, batch0);
  }

  /** Writes one chunk of an atomic group: Begin for the first, Middle for the others. */
  method EmitChunk(w: Work, batch0: Batch, id: nat, out: seq<Batch>, grouped: bool, es: seq<Entry>,
                   ghost segs0: seq<Segment>, ghost segs: seq<Segment>, ghost run: seq<Batch>, ghost sent: nat, ghost to: nat)
    returns (out': seq<Batch>, ghost run': seq<Batch>)
    requires Emitting(w, segs0, batch0, id, [], out, segs, run, sent) && (grouped <==> |run| > 0)
    requires sent < to <= |w.entries| && es == w.entries[sent..to]
    ensures Emitting(w, segs0, batch0, id, [], out', segs, run', to)
    ensures |run'| == |run| + 1 && run'[..|run|] == run && EntriesOf(run'[|run|], w.region) == es
  {
    hide EntriesOf;
    MarkedChunkOf(id, if grouped then AG.Middle else AG.Begin, w.region, es, w.region);
    var batch: Batch := [Marker(id, if grouped then AG.Middle else AG.Begin)];
    batch := AddRawEntries(batch, w.region, es);
    GrowStep(w, segs0, batch0, id, out, segs, run, sent, to, batch);
    run' := run + [batch];
    var empty, written;
    empty, out', written := RewriteImpl(batch, out);
    assert written;
  }

  /** Before the first entry. */
  lemma EmitStart(w: Work, segs0: seq<Segment>, batch0: Batch, id: nat)
    requires ApproximateSize(batch0) <= MaxBatchBytes
    ensures Emitting(w, segs0, batch0, id, batch0, Concat(segs0), segs0, [], 0)
    ensures Packing(w, batch0, batch0, [], 0, 0, 0, ApproximateSize(batch0))
  {
    assert Concat(segs0) + [] == Concat(segs0);
  }

  /** The collected entries do not fit: the batch of the earlier regions is written out, and if that
      is not enough, a chunk is. */
  method Spill(w: Work, batch0: Batch, id: nat, batch: Batch, out: seq<Batch>, grouped: bool, rest: seq<Entry>, cur: nat, prev: nat,
               ghost segs0: seq<Segment>, ghost segs: seq<Segment>, ghost run: seq<Batch>, ghost sent: nat, ghost i: nat)
    returns (out': seq<Batch>, chunk: bool, ghost segs': seq<Segment>, ghost run': seq<Batch>)
    requires Emitting(w, segs0, batch0, id, batch, out, segs, run, sent) && (grouped <==> |run| > 0)
    requires sent < i <= |w.entries| && rest == w.entries[sent..i] && cur == EntryBytes(rest) && prev == ApproximateSize(batch)
    requires Snug(rest, prev) && cur + prev > MaxBatchBytes && Chunks(run, w.region)
    ensures chunk <==> cur > MaxBatchBytes
    ensures Emitting(w, segs0, batch0, id, [], out', segs', run', if chunk then i else sent) && (grouped || chunk <==> |run'| > 0)
    ensures if chunk then Packing(w, batch0, [], run', i, i, 0, 0) else Packing(w, batch0, [], run', sent, i, cur, 0)
  {
    hide Emitting, Chunks, Marked, EntriesOf, Crowded;
    out', segs', run' := out, segs, run;
    if prev > 0 {
      assert |batch| > 0;
      // The earlier regions and this one cannot share a batch.
      out', segs' := FlushEarlier(w, batch0, id, batch, out, segs0, segs, run, sent);
      PackFlush(w, batch0, batch, run, sent, i, cur, prev);
      if cur <= MaxBatchBytes {
        return out', false, segs', run';
      }
    }
    chunk := true;
    assert batch == [] || prev > 0;
    out', run' := EmitChunk(w, batch0, id, out', grouped, rest, segs0, segs', run, sent, i);
    assert run' == run + [run'[|run|]];
    PackChunk(w, batch0, run, sent, i, run'[|run|]);
  }

  /** The entries of a region, but for the last chunk. */
  method EmitEntries(w: Work, batch0: Batch, out0: seq<Batch>, id: nat, ghost segs0: seq<Segment>)
    returns (batch: Batch, out: seq<Batch>, grouped: bool, rest: seq<Entry>,
             ghost segs: seq<Segment>, ghost run: seq<Batch>, ghost sent: nat)
    requires out0 == Concat(segs0) && ApproximateSize(batch0) <= MaxBatchBytes
    ensures Emitting(w, segs0, batch0, id, batch, out, segs, run, sent) && (grouped <==> |run| > 0)
    ensures rest == w.entries[sent..] && (!grouped ==> sent == 0)
    ensures Packing(w, batch0, batch, run, sent, |w.entries|, EntryBytes(rest), ApproximateSize(batch))
  {
    hide Emitting, Concat, Chunks, Crowded, ItemSizes;
    batch, out, grouped, rest, segs, run, sent := batch0, out0, false, [], segs0, [], 0;
    var previousSize: nat := ApproximateSize(batch);
    var currentSize: nat := 0;
    EmitStart(w, segs0, batch0, id);
    var i: nat := 0;
    while i < |w.entries|
      invariant sent <= i <= |w.entries| && (grouped <==> |run| > 0) && (!grouped ==> sent == 0)
      invariant Emitting(w, segs0, batch0, id, batch, out, segs, run, sent)
      invariant rest == w.entries[sent..i]
      invariant Packing(w, batch0, batch, run, sent, i, currentSize, previousSize)
    {
      PackNext(w, batch0, batch, run, sent, i, currentSize, previousSize);
      var entry := w.entries[i];
      currentSize := currentSize + |entry.bytes|;
      rest := rest + [entry];
      i := i + 1;
      if i < |w.entries| && currentSize + previousSize > MaxBatchBytes {
        var chunk;
        out, chunk, segs, run :=
          Spill(w, batch0, id, batch, out, grouped, rest, currentSize, previousSize, segs0, segs, run, sent, i);
        batch, previousSize := [], 0;
        if chunk {
          sent := i;
          grouped, rest, currentSize := true, [], 0;
        }
      }
    }
  }

  lemma GroupIsSized(w: Work, segs0: seq<Segment>, batch0: Batch, id: nat,
                     out: seq<Batch>, segs: seq<Segment>, run: seq<Batch>, sent: nat, rest: seq<Entry>)
    requires Emitting(w, segs0, batch0, id, [], out, segs, run, sent) && |run| > 0 && rest == w.entries[sent..]
    requires AllSized(segs0) && ApproximateSize(batch0) <= MaxBatchBytes
    requires Packing(w, batch0, [], run, sent, |w.entries|, EntryBytes(rest), 0)
    ensures var b := EntryItems(w.region, rest) + KvItems(w.region, w.kvs) + [Marker(id, AG.End)];
            EntryBytes(w.entries) > MaxBatchBytes && AllSized(segs + [Grouped(id, w.region, run + [b])])
  {
    hide EntriesOf, KvsOf, Sized;
    var data := RegionItems(Work(w.region, rest, w.kvs));
    FlushSized(segs0, batch0);
    RegionItemsOf(Work(w.region, rest, w.kvs), w.region);
    EntriesOfSnoc(data, Marker(id, AG.End), w.region);
    assert rest == w.entries[sent..|w.entries|] && rest + [] == rest;
    GroupSized(segs, id, w.region, run, data + [Marker(id, AG.End)]);
  }

  /** Writes the last chunk of an atomic group, with the pairs and the End marker. */
  method CloseGroup(w: Work, batch0: Batch, id: nat, out: seq<Batch>, rest: seq<Entry>,
                    ghost segs0: seq<Segment>, ghost segs: seq<Segment>, ghost run: seq<Batch>, ghost sent: nat)
    returns (out': seq<Batch>, ghost segs': seq<Segment>, ghost pl: Placement)
    requires NoMarker(batch0) && Segments(segs0, id)
    requires Emitting(w, segs0, batch0, id, [], out, segs, run, sent) && |run| > 0 && rest == w.entries[sent..]
    requires AllSized(segs0) && ApproximateSize(batch0) <= MaxBatchBytes
    requires Packing(w, batch0, [], run, sent, |w.entries|, EntryBytes(rest), 0)
    ensures Segments(segs', id + 1) && out' == Concat(segs')
    ensures Placed(pl, w, segs0, batch0, segs', [], id) && Needed(pl, w, batch0) && AllSized(segs')
  {
    hide Emitting, Packing, EntryBytes, AllSized, Placed, Segments, Concat, NoMarker, ItemSizes, EntryItems, KvItems;
    GroupIsSized(w, segs0, batch0, id, out, segs, run, sent, rest);
    var batch := AddRawEntries([], w.region, rest);
    batch := PutAll(batch, w.region, w.kvs);
    batch := batch + [Marker(id, AG.End)];
    assert batch == EntryItems(w.region, rest) + KvItems(w.region, w.kvs) + [Marker(id, AG.End)];
    FinishGroup(w, segs0, batch0, id, out, segs, run, sent, batch);
    pl := AsGroup(Grouped(id, w.region, run + [batch]));
    segs' := segs + [pl.seg];
    var empty, written;
    empty, out', written := RewriteImpl(batch, out);
    assert written;
  }

  lemma BatchIsSized(w: Work, segs0: seq<Segment>, batch0: Batch, id: nat, batch: Batch, out: seq<Batch>, segs: seq<Segment>)
    requires Emitting(w, segs0, batch0, id, batch, out, segs, [], 0)
    requires AllSized(segs0) && ApproximateSize(batch0) <= MaxBatchBytes
    requires Packing(w, batch0, batch, [], 0, |w.entries|, EntryBytes(w.entries), ApproximateSize(batch))
    ensures AllSized(segs) && AllSized(segs + [Plain(batch + RegionItems(w))])
    ensures (segs == segs0 && batch == batch0) || (|batch0| > 0 && batch == [] && Crowded(batch0, w))
  {
    hide Sized;
    FlushSized(segs0, batch0);
    assert w.entries[0..|w.entries|] == w.entries;
    LateSized(segs, batch, w);
  }

  /** Adds an unsplit region to the open batch, and writes that if it has become too big. */
  method CloseBatch(w: Work, batch0: Batch, id: nat, batch: Batch, out: seq<Batch>,
                    ghost segs0: seq<Segment>, ghost segs: seq<Segment>)
    returns (batch': Batch, out': seq<Batch>, ghost segs': seq<Segment>, ghost pl: Placement)
    requires NoMarker(batch0) && Segments(segs0, id)
    requires Emitting(w, segs0, batch0, id, batch, out, segs, [], 0)
    requires AllSized(segs0) && ApproximateSize(batch0) <= MaxBatchBytes
    requires Packing(w, batch0, batch, [], 0, |w.entries|, EntryBytes(w.entries), ApproximateSize(batch))
    ensures NoMarker(batch') && Segments(segs', id) && out' == Concat(segs')
    ensures Placed(pl, w, segs0, batch0, segs', batch', id) && Needed(pl, w, batch0)
    ensures AllSized(segs') && ApproximateSize(batch') <= MaxBatchBytes
  {
    hide Emitting, Packing, AllSized, Placed, Segments, Concat, ItemSizes, EntryItems, KvItems, Crowded;
    BatchIsSized(w, segs0, batch0, id, batch, out, segs);
    batch' := AddRawEntries(batch, w.region, w.entries);
    batch' := PutAll(batch', w.region, w.kvs);
    assert batch' == batch + RegionItems(w);
    FinishPlain(w, segs0, batch0, id, batch, out, segs);
    out', segs', pl := out, segs, Unsplit(!(segs == segs0 && batch == batch0), false);
    if ApproximateSize(batch') > MaxBatchBytes {
      FlushKeeps(segs, batch', id);
      segs', pl := segs + [Plain(batch')], pl.(late := true);
      var written;
      batch', out', written := RewriteImpl(batch', out);
    }
  }

  /** One region of a squeeze. */
  method EmitRegion(w: Work, batch0: Batch, out0: seq<Batch>, id: nat, ghost segs0: seq<Segment>)
    returns (batch: Batch, out: seq<Batch>, id': nat, ghost segs: seq<Segment>, ghost pl: Placement)
    requires NoMarker(batch0) && Segments(segs0, id) && out0 == Concat(segs0)
    requires AllSized(segs0) && ApproximateSize(batch0) <= MaxBatchBytes
    ensures NoMarker(batch) && Segments(segs, id') && out == Concat(segs) && id <= id'
    ensures Placed(pl, w, segs0, batch0, segs, batch, id) && Needed(pl, w, batch0)
    ensures AllSized(segs) && ApproximateSize(batch) <= MaxBatchBytes
  {
    hide Sized, Chunks, ItemSizes, Marked, Placed;
    var grouped, rest;
    ghost var run, sent;
    batch, out, grouped, rest, segs, run, sent := EmitEntries(w, batch0, out0, id, segs0);
    if grouped {
      assert batch == [];
      id' := id + 1;
      out, segs, pl := CloseGroup(w, batch0, id, out, rest, segs0, segs, run, sent);
      batch := [];
    } else {
      id' := id;
      batch, out, segs, pl := CloseBatch(w, batch0, id, batch, out, segs0, segs);
    }
  }

  // ------------------------------------------------- where a region ends up

  predicate Absent(bs: seq<Batch>, r: nat) { AllEntries(bs, r) == [] && AllKvs(bs, r) == [] }

  /** Segment `k` holds all data of `w`, and no other segment any of its region. */
  ghost predicate Home(segs: seq<Segment>, k: nat, w: Work) {
    && k < |segs| && Whole(segs[k].Batches(), w)
    && forall j :: 0 <= j < |segs| && j != k ==> Absent(segs[j].Batches(), w.region)
  }

  ghost predicate Nowhere(segs: seq<Segment>, r: nat) {
    forall j :: 0 <= j < |segs| ==> Absent(segs[j].Batches(), r)
  }

  /** All data of `w` is in one place: the open batch, or one segment. */
  ghost predicate InOnePlace(segs: seq<Segment>, batch: Batch, w: Work) {
    || (Whole([batch], w) && Nowhere(segs, w.region))
    || (Absent([batch], w.region) && exists k :: Home(segs, k, w))
  }

  lemma OneBatch(b: Batch, r: nat)
    ensures AllEntries([b], r) == EntriesOf(b, r) && AllKvs([b], r) == KvsOf(b, r)
  {
    assert [b] == [] + [b];
    AllSnoc([], b, r);
  }

  lemma {:induction false} RunOtherRegion(bs: seq<Batch>, region: nat, r: nat)
    requires (forall k :: 0 <= k < |bs| ==> OnlyRegion(bs[k], region)) && r != region
    ensures Absent(bs, r)
  {
    if |bs| > 0 {
      RunOtherRegion(bs[..|bs| - 1], region, r);
      OtherRegion(bs[|bs| - 1], region, r);
    }
  }

  lemma HomeStays(segs: seq<Segment>, k: nat, w: Work, seg: Segment)
    requires Home(segs, k, w) && Absent(seg.Batches(), w.region)
    ensures Home(segs + [seg], k, w)
  {
  }

  /** Writing out the open batch moves its regions into a segment. */
  lemma FlushKeepsPlace(segs: seq<Segment>, batch: Batch, w: Work)
    requires InOnePlace(segs, batch, w)
    ensures InOnePlace(segs + [Plain(batch)], [], w)
  {
    assert Absent([[]], w.region) by { OneBatch([], w.region); }
    if Whole([batch], w) && Nowhere(segs, w.region) {
      assert Home(segs + [Plain(batch)], |segs|, w);
    } else {
      var k :| Home(segs, k, w);
      HomeStays(segs, k, w, Plain(batch));
    }
  }

  /** Another region's items in the open batch change nothing for this one. */
  lemma GrowKeepsPlace(segs: seq<Segment>, batch: Batch, w: Work, v: Work)
    requires InOnePlace(segs, batch, v) && v.region != w.region
    ensures InOnePlace(segs, batch + RegionItems(w), v)
  {
    EntriesOfConcat(batch, RegionItems(w), v.region);
    RegionItemsOf(w, v.region);
    OneBatch(batch, v.region);
    OneBatch(batch + RegionItems(w), v.region);
  }

  lemma GroupKeepsPlace(segs: seq<Segment>, batch: Batch, seg: Segment, v: Work)
    requires InOnePlace(segs, batch, v) && seg.Grouped? && seg.WellFormed() && seg.region != v.region
    ensures InOnePlace(segs + [seg], batch, v)
  {
    RunOtherRegion(seg.batches, seg.region, v.region);
    if !(Whole([batch], v) && Nowhere(segs, v.region)) {
      var k :| Home(segs, k, v);
      HomeStays(segs, k, v, seg);
    }
  }

  lemma FlushedKeepsPlace(segs: seq<Segment>, batch: Batch, v: Work)
    requires InOnePlace(segs, batch, v)
    ensures InOnePlace(Flushed(segs, batch), [], v)
  {
    if |batch| > 0 {
      FlushKeepsPlace(segs, batch, v);
    }
  }

  /** Placing one region leaves the others in one piece. */
  lemma PlacedKeeps(pl: Placement, w: Work, segs0: seq<Segment>, batch0: Batch,
                    segs: seq<Segment>, batch: Batch, id: nat, v: Work)
    requires Placed(pl, w, segs0, batch0, segs, batch, id) && InOnePlace(segs0, batch0, v) && v.region != w.region
    requires pl.AsGroup? ==> pl.seg.WellFormed()
    ensures InOnePlace(segs, batch, v)
  {
    FlushedKeepsPlace(segs0, batch0, v);
    match pl
    case AsGroup(seg) => GroupKeepsPlace(Flushed(segs0, batch0), [], seg, v);
    case Unsplit(early, late) =>
      var segs1, batch1 := if early then Flushed(segs0, batch0) else segs0, if early then [] else batch0;
      GrowKeepsPlace(segs1, batch1, w, v);
      if late {
        FlushKeepsPlace(segs1, batch1 + RegionItems(w), v);
      }
  }

  /** A region that is not there yet. */
  ghost predicate Unseen(segs: seq<Segment>, batch: Batch, r: nat) { Absent([batch], r) && Nowhere(segs, r) }

  lemma FlushedUnseen(segs: seq<Segment>, batch: Batch, r: nat)
    requires Unseen(segs, batch, r)
    ensures Unseen(Flushed(segs, batch), [], r)
  {
    OneBatch([], r);
  }

  /** The placed region is in one piece, and the regions not yet placed are still absent. */
  lemma PlacedPuts(pl: Placement, w: Work, segs0: seq<Segment>, batch0: Batch,
                   segs: seq<Segment>, batch: Batch, id: nat)
    requires Placed(pl, w, segs0, batch0, segs, batch, id) && Unseen(segs0, batch0, w.region)
    ensures InOnePlace(segs, batch, w)
  {
    hide AllKvs;
    FlushedUnseen(segs0, batch0, w.region);
    match pl
    case AsGroup(seg) => assert Home(segs, |segs| - 1, w);
    case Unsplit(early, late) =>
      var segs1, batch1 := if early then Flushed(segs0, batch0) else segs0, if early then [] else batch0;
      var full := batch1 + RegionItems(w);
      EntriesOfConcat(batch1, RegionItems(w), w.region);
      RegionItemsOf(w, w.region);
      OneBatch(batch1, w.region);
      OneBatch(full, w.region);
      assert InOnePlace(segs1, full, w);
      if late {
        FlushKeepsPlace(segs1, full, w);
      }
  }

  lemma PlacedUnseen(pl: Placement, w: Work, segs0: seq<Segment>, batch0: Batch,
                     segs: seq<Segment>, batch: Batch, id: nat, r: nat)
    requires Placed(pl, w, segs0, batch0, segs, batch, id) && Unseen(segs0, batch0, r) && r != w.region
    requires pl.AsGroup? ==> pl.seg.WellFormed()
    ensures Unseen(segs, batch, r)
  {
    hide AllEntries, AllKvs, EntriesOf, KvsOf, Whole, RegionItems;
    FlushedUnseen(segs0, batch0, r);
    match pl
    case AsGroup(seg) => RunOtherRegion(seg.batches, seg.region, r);
    case Unsplit(early, late) =>
      var segs1, batch1 := if early then Flushed(segs0, batch0) else segs0, if early then [] else batch0;
      var full := batch1 + RegionItems(w);
      EntriesOfConcat(batch1, RegionItems(w), r);
      RegionItemsOf(w, r);
      OneBatch(batch1, r);
      OneBatch(full, r);
      OneBatch([], r);
      assert Unseen(segs1, full, r);
  }

  predicate HasData(w: Work) { |w.entries| > 0 || |w.kvs| > 0 }

  lemma PlaceAll(pl: Placement, works: seq<Work>, i: nat, segs0: seq<Segment>, batch0: Batch,
                 segs: seq<Segment>, batch: Batch, id: nat)
    requires forall j, k :: 0 <= j < k < |works| ==> works[j].region != works[k].region
    requires i < |works| && Placed(pl, works[i], segs0, batch0, segs, batch, id)
    requires pl.AsGroup? ==> pl.seg.WellFormed()
    requires forall j :: 0 <= j < i ==> InOnePlace(segs0, batch0, works[j])
    requires forall j :: i <= j < |works| ==> Unseen(segs0, batch0, works[j].region)
    ensures forall j :: 0 <= j <= i ==> InOnePlace(segs, batch, works[j])
    ensures forall j :: i < j < |works| ==> Unseen(segs, batch, works[j].region)
  {
    forall j | 0 <= j <= i
      ensures InOnePlace(segs, batch, works[j])
    {
      if j < i {
        PlacedKeeps(pl, works[i], segs0, batch0, segs, batch, id, works[j]);
      } else {
        PlacedPuts(pl, works[i], segs0, batch0, segs, batch, id);
      }
    }
    forall j | i < j < |works|
      ensures Unseen(segs, batch, works[j].region)
    {
      PlacedUnseen(pl, works[i], segs0, batch0, segs, batch, id, works[j].region);
    }
  }

  lemma FlushHomes(segs: seq<Segment>, batch: Batch, w: Work)
    requires InOnePlace(segs, batch, w) && HasData(w)
    ensures exists k :: Home(Flushed(segs, batch), k, w)
  {
    FlushedKeepsPlace(segs, batch, w);
    OneBatch([], w.region);
  }

  /**
   A whole squeeze over distinct regions. The output is a row of unmarked batches and
   atomic groups (Begin Middle* End, one marker a batch, one region a group, fresh ids),
   and the data of every region is completely inside one of them and nowhere else. Batches
   stay within the limit, up to the last entry or the last region.
   */
  method EmitSqueeze(works: seq<Work>, firstId: nat)
    returns (out: seq<Batch>, nextId: nat, ghost segs: seq<Segment>)
    requires forall i, j :: 0 <= i < j < |works| ==> works[i].region != works[j].region
    ensures out == Concat(segs) && Segments(segs, nextId) && firstId <= nextId && AllSized(segs)
    ensures forall j :: 0 <= j < |works| && HasData(works[j]) ==> exists k :: Home(segs, k, works[j])
  {
    var batch: Batch := [];
    out, nextId, segs := [], firstId, [];
    OneBatchEmpty();
    var i := 0;
    while i < |works|
      invariant 0 <= i <= |works| && firstId <= nextId
      invariant NoMarker(batch) && Segments(segs, nextId) && out == Concat(segs)
      invariant AllSized(segs) && ApproximateSize(batch) <= MaxBatchBytes
      invariant forall j :: 0 <= j < i ==> InOnePlace(segs, batch, works[j])
      invariant forall j :: i <= j < |works| ==> Unseen(segs, batch, works[j].region)
    {
      ghost var segs0, batch0, id := segs, batch, nextId;
      ghost var pl;
      batch, out, nextId, segs, pl := EmitRegion(works[i], batch, out, nextId, segs);
      assert pl.AsGroup? ==> segs[|segs| - 1] == pl.seg;
      PlaceAll(pl, works, i, segs0, batch0, segs, batch, id);
      i := i + 1;
    }
    FlushKeeps(segs, batch, nextId);
    FlushSized(segs, batch);
    forall j | 0 <= j < |works| && HasData(works[j])
      ensures exists k :: Home(Flushed(segs, batch), k, works[j])
    {
      FlushHomes(segs, batch, works[j]);
    }
    segs := Flushed(segs, batch);
    var written;
    batch, out, written := RewriteImpl(batch, out);
  }

  lemma OneBatchEmpty()
    ensures forall r :: Absent([[]], r)
  {
    forall r ensures Absent([[]], r) { OneBatch([], r); }
  }
}
