/**
 Values and specification functions for the in-memory index of one raft group.

 A `Table` lists the locations of the entries `first .. End()`: rewritten entries in
 front, appended ones behind, next to the live key-value pairs. The functions say what
 the operations of `MemTable` compute; the lemmas say what that means for a reader who
 only looks at indexes and keys.
 */
module Tables {
  import opened PipeLog

  type Bytes = seq<nat>

  /** A live value and the file that holds it. */
  datatype Slot = Slot(value: Bytes, id: FileId)

  datatype Table = Table(first: nat, entries: seq<Location>, rewriteCount: nat,
                         kvs: map<Bytes, Slot>, group: Option<(FileSeq, FileSeq)>)
  {
    /** One past the last log index. */
    function End(): nat { first + |entries| }

    /** The first log index that is not rewritten. */
    function Boundary(): nat { first + rewriteCount }

    predicate Has(i: nat) { first <= i < End() }

    function At(i: nat): Location
      requires Has(i)
    {
      entries[i - first]
    }

    function Get(i: nat): Option<Location> {
      if Has(i) then Some(At(i)) else None
    }

    /** Rewritten entries are at the front, appended ones behind. */
    ghost predicate Valid() {
      && rewriteCount <= |entries|
      && (forall k :: 0 <= k < rewriteCount ==> entries[k].Queue() == RewriteQueue)
      && (forall k :: rewriteCount <= k < |entries| ==> entries[k].Queue() == AppendQueue)
    }
  }

  const EmptyTable := Table(0, [], 0, map[], None)

  function Min(a: nat, b: nat): nat { if a <= b then a else b }

  function Max(a: nat, b: nat): nat { if a >= b then a else b }

  // ---------------------------------------------------------------- appending

  /** Whether entries starting at `i` are accepted; otherwise the operation panics. */
  predicate Accepts(t: Table, i: nat, allowHole: bool, allowOverwrite: bool) {
    |t.entries| > 0 ==> (allowOverwrite || t.first <= i) && (allowHole || i <= t.End())
  }

  /** Makes room for entries starting at `i`: whatever cannot stay in front of them goes. */
  function PrepareAppend(t: Table, i: nat): (r: Table)
    requires t.rewriteCount <= |t.entries|
    ensures r.rewriteCount <= |r.entries|
    ensures r.End() == i
  {
    if |t.entries| == 0 || i < t.first || t.End() < i then
      t.(first := i, entries := [], rewriteCount := 0)
    else
      t.(entries := t.entries[..i - t.first], rewriteCount := Min(t.rewriteCount, i - t.first))
  }

  /** What stays in front of index `i`: everything below it, unless there is a hole. */
  lemma PrepareAppendGet(t: Table, i: nat, j: nat)
    requires t.rewriteCount <= |t.entries|
    ensures PrepareAppend(t, i).Get(j) == if j < i && |t.entries| > 0 && i <= t.End() then t.Get(j) else None
  {
  }

  function Appended(t: Table, es: seq<EntryIndex>): (r: Table)
    requires t.rewriteCount <= |t.entries|
    ensures r.rewriteCount <= |r.entries|
  {
    if |es| == 0 then t else
    var p := PrepareAppend(t, es[0].index);
    p.(entries := p.entries + Locations(es))
  }

  /** Replay of a batch of the rewrite queue: everything in the table is rewritten data. */
  function ReplayRewrite(t: Table, es: seq<EntryIndex>): (r: Table)
    requires t.rewriteCount <= |t.entries|
    ensures r.rewriteCount <= |r.entries|
  {
    if |es| == 0 then t else
    var p := Appended(t, es);
    p.(rewriteCount := |p.entries|)
  }

  /** An accepted batch replaces everything from its first index on and nothing before it. */
  lemma AppendedGet(t: Table, es: seq<EntryIndex>, i: nat)
    requires t.rewriteCount <= |t.entries|
    requires |es| > 0 && Consecutive(es)
    requires Accepts(t, es[0].index, false, true)
    ensures Appended(t, es).End() == es[0].index + |es|
    ensures Appended(t, es).Get(i) ==
            if i < es[0].index then t.Get(i)
            else if i < es[0].index + |es| then Some(es[i - es[0].index].loc)
            else None
    ensures ReplayRewrite(t, es).Get(i) == Appended(t, es).Get(i)
  {
    var p := PrepareAppend(t, es[0].index);
    if i < es[0].index {
      PrepareAppendGet(t, es[0].index, i);
      assert Appended(t, es).Get(i) == p.Get(i);
    }
  }

  // --------------------------------------------------------------- compaction

  function CompactTo(t: Table, index: nat): (r: Table)
    requires t.rewriteCount <= |t.entries|
    ensures r.rewriteCount <= |r.entries|
  {
    if |t.entries| == 0 || index <= t.first then t else
    var n := Min(index - t.first, |t.entries|);
    t.(first := index, entries := t.entries[n..], rewriteCount := t.rewriteCount - Min(n, t.rewriteCount))
  }

  /** Compaction forgets exactly the indexes below its target. */
  lemma CompactGet(t: Table, index: nat, i: nat)
    requires t.rewriteCount <= |t.entries|
    ensures CompactTo(t, index).Get(i) == if i < index then None else t.Get(i)
    ensures |t.entries| > 0 ==> CompactTo(t, index).first == Max(t.first, index)
    ensures |CompactTo(t, index).entries| > 0 ==>
              && CompactTo(t, index).End() == t.End()
              && CompactTo(t, index).Boundary() == Max(t.Boundary(), CompactTo(t, index).first)
  {
  }

  // ---------------------------------------------------------------- rewriting

  /** Whether a rewrite under `gate` may replace an entry at `l`. */
  predicate Replaceable(l: Location, gate: Option<FileSeq>) {
    match gate
    case Some(g) => l.Seq() <= g
    case None => l.Queue() == RewriteQueue
  }

  function RewriteLo(t: Table, rw: seq<EntryIndex>): nat
    requires |rw| > 0
  {
    Max(rw[0].index, t.first)
  }

  function RewriteHi(t: Table, rw: seq<EntryIndex>): nat
    requires |rw| > 0
  {
    Min(rw[|rw| - 1].index + 1, t.End())
  }

  /** The first index in `[lo, hi)` that must not be replaced, or `hi`. */
  function RewriteStop(t: Table, lo: nat, hi: nat, gate: Option<FileSeq>): (stop: nat)
    requires t.first <= lo <= hi <= t.End()
    ensures lo <= stop <= hi
    decreases hi - lo
  {
    if lo < hi && Replaceable(t.At(lo), gate) then RewriteStop(t, lo + 1, hi, gate) else lo
  }

  lemma {:induction false} RewriteStopIsFirst(t: Table, lo: nat, hi: nat, gate: Option<FileSeq>)
    requires t.first <= lo <= hi <= t.End()
    ensures var stop := RewriteStop(t, lo, hi, gate);
            && (forall i :: lo <= i < stop ==> Replaceable(t.At(i), gate))
            && (stop < hi ==> !Replaceable(t.At(stop), gate))
    decreases hi - lo
  {
    if lo < hi && Replaceable(t.At(lo), gate) {
      RewriteStopIsFirst(t, lo + 1, hi, gate);
    }
  }

  /**
   The assertions of `MemTable.Rewrite`: nothing appended sits in front of the rewritten
   range, and a gated rewrite only meets appended entries.
   */
  predicate CanRewrite(t: Table, rw: seq<EntryIndex>, gate: Option<FileSeq>) {
    |rw| > 0 && RewriteLo(t, rw) < RewriteHi(t, rw) ==>
      var lo, hi := RewriteLo(t, rw), RewriteHi(t, rw);
      && (lo == t.first || t.At(lo - 1).Queue() == RewriteQueue)
      && (gate.Some? ==> forall i :: lo <= i < hi && i <= RewriteStop(t, lo, hi, gate) ==> t.At(i).Queue() == AppendQueue)
  }

  function Rewritten(t: Table, rw: seq<EntryIndex>, gate: Option<FileSeq>): (r: Table)
    requires t.rewriteCount <= |t.entries| && Consecutive(rw)
    ensures |r.entries| == |t.entries| && r.first == t.first
    ensures r.rewriteCount <= |r.entries|
    ensures r.kvs == t.kvs && r.group == t.group
  {
    if |rw| == 0 || RewriteHi(t, rw) <= RewriteLo(t, rw) then t else
    var lo, hi := RewriteLo(t, rw), RewriteHi(t, rw);
    var stop := RewriteStop(t, lo, hi, gate);
    t.(entries := seq(|t.entries|, k requires 0 <= k < |t.entries| =>
                        if lo <= t.first + k < stop then rw[t.first + k - rw[0].index].loc else t.entries[k]),
       rewriteCount := if gate.None? then Max(t.rewriteCount, stop - t.first) else stop - t.first)
  }

  /** Every location in `rw` is a rewrite-queue location. */
  predicate AllRewrite(rw: seq<EntryIndex>) {
    forall k :: 0 <= k < |rw| ==> rw[k].loc.Queue() == RewriteQueue
  }

  /** Where a permitted rewrite starts and stops. */
  lemma RewriteBounds(t: Table, rw: seq<EntryIndex>, gate: Option<FileSeq>)
    requires t.Valid() && CanRewrite(t, rw, gate) && |rw| > 0 && RewriteLo(t, rw) < RewriteHi(t, rw)
    ensures var lo, hi := RewriteLo(t, rw), RewriteHi(t, rw);
            var stop := RewriteStop(t, lo, hi, gate);
            && (gate.Some? ==> lo == t.Boundary())
            && (gate.None? ==> lo <= t.Boundary() && stop == Min(hi, t.Boundary()))
  {
    var lo, hi := RewriteLo(t, rw), RewriteHi(t, rw);
    var stop := RewriteStop(t, lo, hi, gate);
    RewriteStopIsFirst(t, lo, hi, gate);
    assert lo <= t.Boundary();
    if gate.Some? {
      assert t.At(lo).Queue() == AppendQueue;
    } else {
      assert stop < hi ==> t.At(stop).Queue() == AppendQueue;
      assert lo < stop ==> t.At(stop - 1).Queue() == RewriteQueue;
    }
  }

  /** A permitted rewrite keeps the partition, only ever pushes the boundary forward, and
      moves an entry exactly when it lies in `[lo, stop)`. */
  lemma RewrittenMoves(t: Table, rw: seq<EntryIndex>, gate: Option<FileSeq>)
    requires t.Valid() && Consecutive(rw) && AllRewrite(rw) && CanRewrite(t, rw, gate)
    ensures Rewritten(t, rw, gate).Valid()
    ensures Rewritten(t, rw, gate).Boundary() >= t.Boundary()
    ensures gate.None? ==> Rewritten(t, rw, gate).Boundary() == t.Boundary()
    ensures |rw| > 0 && RewriteLo(t, rw) < RewriteHi(t, rw) ==>
              var lo, hi := RewriteLo(t, rw), RewriteHi(t, rw);
              && (gate.Some? ==> lo == t.Boundary()
                                 && Rewritten(t, rw, gate).Boundary() == RewriteStop(t, lo, hi, gate))
              && (gate.None? ==> lo <= t.Boundary() && RewriteStop(t, lo, hi, gate) == Min(hi, t.Boundary()))
  {
    hide CanRewrite, RewriteStop;
    if |rw| > 0 && RewriteLo(t, rw) < RewriteHi(t, rw) {
      var lo, hi := RewriteLo(t, rw), RewriteHi(t, rw);
      var stop := RewriteStop(t, lo, hi, gate);
      RewriteBounds(t, rw, gate);
      var r := Rewritten(t, rw, gate);
      forall k | 0 <= k < |r.entries| && lo <= t.first + k < stop
        ensures r.entries[k].Queue() == RewriteQueue
      {
        assert r.entries[k] == rw[t.first + k - rw[0].index].loc;
      }
    }
  }

  /** Pointwise reading of the rewritten deque. */
  lemma RewrittenEntriesAre(t: Table, rw: seq<EntryIndex>, gate: Option<FileSeq>, ls: seq<Location>)
    requires t.rewriteCount <= |t.entries| && Consecutive(rw) && |rw| > 0
    requires RewriteLo(t, rw) < RewriteHi(t, rw) && |ls| == |t.entries|
    requires var lo, hi := RewriteLo(t, rw), RewriteHi(t, rw);
             forall k :: 0 <= k < |ls| ==>
                           ls[k] == if lo <= t.first + k < RewriteStop(t, lo, hi, gate)
                                    then rw[t.first + k - rw[0].index].loc else t.entries[k]
    ensures ls == Rewritten(t, rw, gate).entries
  {
  }

  /** What a gated pass fetches from position `k` on: entries up to the first newer than `gate`. */
  function FetchedFrom(t: Table, k: nat, gate: FileSeq): (es: seq<EntryIndex>)
    requires k <= |t.entries|
    decreases |t.entries| - k
  {
    if k < |t.entries| && t.entries[k].Seq() <= gate
    then [EntryIndex(t.first + k, t.entries[k])] + FetchedFrom(t, k + 1, gate) else []
  }

  function FetchedBefore(t: Table, gate: FileSeq): seq<EntryIndex>
    requires t.rewriteCount <= |t.entries|
  {
    FetchedFrom(t, t.rewriteCount, gate)
  }

  /** What a squeeze fetches. */
  function FetchedRewritten(t: Table): seq<EntryIndex>
    requires t.rewriteCount <= |t.entries|
  {
    seq(t.rewriteCount, k requires 0 <= k < t.rewriteCount => EntryIndex(t.first + k, t.entries[k]))
  }

  /** A gated fetch is a run of table entries that starts at the boundary, is no newer than
      the gate and stops only at the end or at a newer entry. */
  lemma {:induction false} FetchedFromIsRun(t: Table, k: nat, gate: FileSeq)
    requires k <= |t.entries|
    ensures var es := FetchedFrom(t, k, gate);
            && k + |es| <= |t.entries|
            && (forall j :: 0 <= j < |es| ==> es[j] == EntryIndex(t.first + k + j, t.entries[k + j])
                                              && es[j].loc.Seq() <= gate)
            && (k + |es| < |t.entries| ==> gate < t.entries[k + |es|].Seq())
    decreases |t.entries| - k
  {
    if k < |t.entries| && t.entries[k].Seq() <= gate {
      FetchedFromIsRun(t, k + 1, gate);
    }
  }

  // --------------------------------------------------------------- key values

  function Put(t: Table, key: Bytes, value: Bytes, id: FileId): Table {
    t.(kvs := t.kvs[key := Slot(value, id)])
  }

  function Delete(t: Table, key: Bytes): Table {
    t.(kvs := t.kvs - {key})
  }

  /** Which file a key is read from after a rewrite of it to rewrite file `seqno`. */
  function RewrittenKeyFile(id: FileId, gate: Option<FileSeq>, seqno: FileSeq): FileId {
    match id.queue
    case AppendQueue => if gate.Some? && id.seqno <= gate.value then FileId(RewriteQueue, seqno) else id
    case RewriteQueue => FileId(RewriteQueue, seqno)
  }

  function RewrittenKey(t: Table, key: Bytes, gate: Option<FileSeq>, seqno: FileSeq): Table {
    if key !in t.kvs then t else
    var s := t.kvs[key];
    t.(kvs := t.kvs[key := Slot(s.value, RewrittenKeyFile(s.id, gate, seqno))])
  }

  // ------------------------------------------------------------------ merging

  /** `l` followed by its newer neighbour `r`, both recovered from the same queue. */
  function MergeNewerNeighbor(l: Table, r: Table): (m: Table)
    requires l.rewriteCount <= |l.entries| && r.rewriteCount <= |r.entries|
    ensures m.rewriteCount <= |m.entries|
  {
    var p := if |r.entries| == 0 then l else PrepareAppend(l, r.first);
    p.(entries := p.entries + r.entries,
       rewriteCount := p.rewriteCount + r.rewriteCount,
       kvs := l.kvs + r.kvs,
       group := if r.group.Some? then r.group else l.group)
  }

  /** The rewritten table `l` overlaid with the append-only table `r`. */
  function MergeAppendTable(l: Table, r: Table): (m: Table)
    requires l.rewriteCount <= |l.entries| && r.rewriteCount == 0
    ensures m.rewriteCount <= |m.entries|
  {
    MergeNewerNeighbor(l, r.(group := None))
  }

  /** Merging overlays: from the right table's first index on, only the right table counts. */
  lemma MergeGet(l: Table, r: Table, i: nat)
    requires l.rewriteCount <= |l.entries| && r.rewriteCount <= |r.entries|
    ensures MergeNewerNeighbor(l, r).Get(i) ==
            if |r.entries| == 0 then l.Get(i)
            else if i >= r.first then r.Get(i)
            else if |l.entries| > 0 && r.first <= l.End() then l.Get(i)
            else None
  {
    if |r.entries| > 0 {
      var p := PrepareAppend(l, r.first);
      var m := MergeNewerNeighbor(l, r);
      PrepareAppendGet(l, r.first, i);
      assert i < r.first ==> m.Get(i) == p.Get(i);
    }
  }

  /** Cutting the merged table inside its right part. */
  lemma CutInRight(l: Table, r: Table, i: nat)
    requires l.rewriteCount == 0 && r.rewriteCount == 0 && |r.entries| > 0 && r.first <= i <= r.End()
    ensures PrepareAppend(MergeNewerNeighbor(l, r), i).entries ==
            PrepareAppend(l, r.first).entries + r.entries[..i - r.first]
    ensures PrepareAppend(MergeNewerNeighbor(l, r), i).first == PrepareAppend(l, r.first).first
  {
  }

  /** Cutting the merged table in front of its right part. */
  lemma CutBeforeRight(l: Table, r: Table, i: nat)
    requires l.rewriteCount == 0 && r.rewriteCount == 0 && |r.entries| > 0 && i < r.first
    requires |l.entries| > 0 ==> r.first <= l.End()
    ensures PrepareAppend(MergeNewerNeighbor(l, r), i).entries == PrepareAppend(l, i).entries
    ensures PrepareAppend(MergeNewerNeighbor(l, r), i).first == PrepareAppend(l, i).first
  {
  }

  /** A batch without a hole is laid over the merged table as over the right one. */
  lemma MergedAppend(l: Table, r: Table, es: seq<EntryIndex>)
    requires l.rewriteCount == 0 && r.rewriteCount == 0 && |es| > 0
    requires |r.entries| > 0 ==> es[0].index <= r.End() && (|l.entries| > 0 ==> r.first <= l.End())
    requires |r.entries| == 0 && |l.entries| > 0 ==> es[0].index <= l.End()
    ensures Appended(MergeNewerNeighbor(l, r), es) == MergeNewerNeighbor(l, Appended(r, es))
  {
    hide PrepareAppend;
    var i := es[0].index;
    if |r.entries| == 0 {
      MergedAppendLeft(l, r, es);
    } else if r.first <= i {
      MergedAppendRight(l, r, es);
    } else {
      MergedAppendBefore(l, r, es);
    }
  }

  lemma MergedAppendLeft(l: Table, r: Table, es: seq<EntryIndex>)
    requires l.rewriteCount == 0 && r.rewriteCount == 0 && |es| > 0 && |r.entries| == 0
    ensures Appended(MergeNewerNeighbor(l, r), es) == MergeNewerNeighbor(l, Appended(r, es))
  {
    hide Locations;
    assert l.entries + r.entries == l.entries;
    assert [] + Locations(es) == Locations(es);
  }

  lemma MergedAppendRight(l: Table, r: Table, es: seq<EntryIndex>)
    requires l.rewriteCount == 0 && r.rewriteCount == 0 && |es| > 0 && |r.entries| > 0
    requires r.first <= es[0].index <= r.End()
    ensures Appended(MergeNewerNeighbor(l, r), es) == MergeNewerNeighbor(l, Appended(r, es))
  {
    hide Locations;
    var i, ls := es[0].index, Locations(es);
    CutInRight(l, r, i);
    var front, kept := PrepareAppend(l, r.first).entries, r.entries[..i - r.first];
    assert front + kept + ls == front + (kept + ls);
  }

  lemma AppendedBefore(t: Table, es: seq<EntryIndex>)
    requires t.rewriteCount == 0 && |es| > 0 && |t.entries| > 0 && es[0].index < t.first
    ensures Appended(t, es) == Table(es[0].index, Locations(es), 0, t.kvs, t.group)
  {
    assert [] + Locations(es) == Locations(es);
  }

  lemma MergedAppendBefore(l: Table, r: Table, es: seq<EntryIndex>)
    requires l.rewriteCount == 0 && r.rewriteCount == 0 && |es| > 0 && |r.entries| > 0
    requires es[0].index < r.first
    requires |l.entries| > 0 ==> r.first <= l.End()
    ensures Appended(MergeNewerNeighbor(l, r), es) == MergeNewerNeighbor(l, Appended(r, es))
  {
    CutBeforeRight(l, r, es[0].index);
    AppendedBefore(r, es);
    PreparedRest(l, r.first);
    PreparedRest(l, es[0].index);
    PreparedRest(MergeNewerNeighbor(l, r), es[0].index);
    hide Locations, PrepareAppend;
    assert Appended(MergeNewerNeighbor(l, r), es).entries == PrepareAppend(l, es[0].index).entries + Locations(es);
  }

  lemma PreparedRest(t: Table, i: nat)
    requires t.rewriteCount == 0
    ensures PrepareAppend(t, i).rewriteCount == 0 && PrepareAppend(t, i).kvs == t.kvs && PrepareAppend(t, i).group == t.group
  {
  }

  // ------------------------------------------------------- oldest file in use

  ghost function MinOf(s: set<nat>): (m: nat)
    requires s != {}
    ensures m in s
    ensures forall x :: x in s ==> m <= x
  {
    var x :| x in s;
    var rest := s - {x};
    assert s == rest + {x};
    if rest == {} then x else Min(x, MinOf(rest))
  }

  /** File sequences of the live keys stored in `queue`. */
  ghost function KeySeqs(kvs: map<Bytes, Slot>, queue: LogQueue): set<FileSeq> {
    set k | k in kvs && kvs[k].id.queue == queue :: kvs[k].id.seqno
  }

  /** What `min_file_seq` looks at: the front of one part of the deque, and every key. */
  ghost function FrontSeqs(t: Table, queue: LogQueue): set<FileSeq>
    requires t.rewriteCount <= |t.entries|
  {
    KeySeqs(t.kvs, queue) +
    match queue
    case AppendQueue => if t.rewriteCount < |t.entries| then {t.entries[t.rewriteCount].Seq()} else {}
    case RewriteQueue => if t.rewriteCount > 0 then {t.entries[0].Seq()} else {}
  }

  ghost function MinFileSeq(t: Table, queue: LogQueue): Option<FileSeq>
    requires t.rewriteCount <= |t.entries|
  {
    var s := FrontSeqs(t, queue);
    if s == {} then None else
    var res := MinOf(s);
    if queue == RewriteQueue && t.group.Some? && res <= t.group.value.1
    then Some(Min(t.group.value.0, res)) else Some(res)
  }

  /** Each part of the deque is ordered by file sequence. */
  ghost predicate PartSorted(t: Table, lo: nat, hi: nat)
    requires lo <= hi <= |t.entries|
  {
    forall j, k :: lo <= j < k < hi ==> t.entries[j].Seq() <= t.entries[k].Seq()
  }

  /** Every file of `queue` that this table still reads from. */
  ghost function FileRefs(t: Table, queue: LogQueue): set<FileSeq> {
    KeySeqs(t.kvs, queue) + set k | 0 <= k < |t.entries| && t.entries[k].Queue() == queue :: t.entries[k].Seq()
  }

  ghost predicate PartsSorted(t: Table, queue: LogQueue)
    requires t.rewriteCount <= |t.entries|
  {
    match queue
    case AppendQueue => PartSorted(t, t.rewriteCount, |t.entries|)
    case RewriteQueue => PartSorted(t, 0, t.rewriteCount)
  }

  /** The front of each part stands for the whole part. */
  lemma FrontsBoundRefs(t: Table, queue: LogQueue, s: FileSeq)
    requires t.Valid() && PartsSorted(t, queue)
    requires s in FileRefs(t, queue)
    ensures FrontSeqs(t, queue) != {} && MinOf(FrontSeqs(t, queue)) <= s
  {
    var fronts := FrontSeqs(t, queue);
    if s in KeySeqs(t.kvs, queue) {
      assert s in fronts;
    } else {
      var k :| 0 <= k < |t.entries| && t.entries[k].Queue() == queue && t.entries[k].Seq() == s;
      var front := if queue == AppendQueue then t.rewriteCount else 0;
      assert front <= k;
      assert t.entries[front].Seq() in fronts;
      assert t.entries[front].Seq() <= s;
    }
  }

  /** With sorted parts, looking at the fronts is enough: nothing in use is older, an empty
      answer means nothing is in use, and a live entry inside the atomic group keeps the
      whole group. */
  lemma MinFileSeqIsLowerBound(t: Table, queue: LogQueue)
    requires t.Valid() && PartsSorted(t, queue)
    ensures MinFileSeq(t, queue).None? <==> FileRefs(t, queue) == {}
    ensures forall s :: s in FileRefs(t, queue) ==> MinFileSeq(t, queue).Some? && MinFileSeq(t, queue).value <= s
    ensures queue == RewriteQueue && t.group.Some? ==>
              forall s :: s in FileRefs(t, queue) && s <= t.group.value.1 ==>
                            MinFileSeq(t, queue).Some? && MinFileSeq(t, queue).value <= t.group.value.0
  {
    var fronts := FrontSeqs(t, queue);
    forall s | s in FileRefs(t, queue)
      ensures fronts != {} && MinOf(fronts) <= s
    {
      FrontsBoundRefs(t, queue, s);
    }
    if fronts != {} {
      var f :| f in fronts;
      if f in KeySeqs(t.kvs, queue) {
        assert f in FileRefs(t, queue);
      } else {
        var k := if queue == AppendQueue then t.rewriteCount else 0;
        assert t.entries[k].Queue() == queue && t.entries[k].Seq() == f;
        assert f in FileRefs(t, queue);
      }
    }
  }

  /** The answer is exact: the smallest file in use, or the start of the atomic group if that is
      smaller and the smallest file in use is not behind the group. */
  lemma MinFileSeqIsMin(t: Table, queue: LogQueue)
    requires t.Valid() && PartsSorted(t, queue)
    ensures var refs := FileRefs(t, queue);
            if refs == {} then MinFileSeq(t, queue) == None
            else if queue == RewriteQueue && t.group.Some? && MinOf(refs) <= t.group.value.1
            then MinFileSeq(t, queue) == Some(if t.group.value.0 <= MinOf(refs) then t.group.value.0 else MinOf(refs))
            else MinFileSeq(t, queue) == Some(MinOf(refs))
  {
    var refs, fronts := FileRefs(t, queue), FrontSeqs(t, queue);
    forall s | s in fronts
      ensures s in refs
    {
      if s !in KeySeqs(t.kvs, queue) {
        var k := if queue == AppendQueue then t.rewriteCount else 0;
        assert t.entries[k].Queue() == queue && t.entries[k].Seq() == s;
      }
    }
    if refs != {} {
      FrontsBoundRefs(t, queue, MinOf(refs));
      assert MinOf(fronts) in refs;
    } else {
      assert fronts == {};
    }
  }
}
