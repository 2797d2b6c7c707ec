/**
 One region's items in one queue, entries and key-value pairs in the order they were written, and
 what replaying them makes, in order or in pieces. Entries and keys do not meet: each side can be
 looked at alone.
 */
module OpLogs {
  import opened PipeLog
  import opened Tables
  import opened RecordLog
  import C = RecordCuts
  import opened RewritePass

  /** Only entries and puts. */
  predicate Plain(log: seq<Written>) {
    forall k :: 0 <= k < |log| ==> (log[k].op.Entries? && |log[k].op.es| > 0) || log[k].op.PutKey?
  }

  predicate OpsInOrder(log: seq<Written>, active: FileSeq) {
    && (forall j, k :: 0 <= j < k < |log| ==> log[j].file <= log[k].file)
    && (forall k :: 0 <= k < |log| ==> log[k].file <= active)
  }

  /** Every pair is recorded in its file. */
  ghost predicate PutsRecorded(f: Files, log: seq<Written>, queue: LogQueue) {
    forall k :: 0 <= k < |log| && log[k].op.PutKey? ==>
      f.holds(FileId(queue, log[k].file), log[k].op.key, log[k].op.value)
  }

  // -------------------------------------------------------------------- two sides

  /** The entries alone. */
  function EntryRecords(log: seq<Written>): seq<Record> {
    if |log| == 0 then [] else
    var w, before := log[|log| - 1], EntryRecords(log[..|log| - 1]);
    if w.op.Entries? then before + [Record(w.file, w.op.es)] else before
  }

  /** The latest value of a key and the file it is in. */
  function KeyLookup(log: seq<Written>, queue: LogQueue, k: Bytes): Option<Slot> {
    if |log| == 0 then None else
    var w := log[|log| - 1];
    if w.op.PutKey? && w.op.key == k then Some(Slot(w.op.value, FileId(queue, w.file)))
    else KeyLookup(log[..|log| - 1], queue, k)
  }

  /** The items in files that are not purged. */
  function KeptOps(log: seq<Written>, min: FileSeq): seq<Written> {
    if |log| == 0 then [] else
    var w, before := log[|log| - 1], KeptOps(log[..|log| - 1], min);
    if min <= w.file then before + [w] else before
  }

  lemma RecordsSnoc(log: seq<Written>, w: Written)
    ensures EntryRecords(log + [w]) == if w.op.Entries? then EntryRecords(log) + [Record(w.file, w.op.es)] else EntryRecords(log)
  {
    assert (log + [w])[..|log|] == log;
  }

  lemma KeySnoc(log: seq<Written>, w: Written, queue: LogQueue, k: Bytes)
    ensures KeyLookup(log + [w], queue, k) ==
            if w.op.PutKey? && w.op.key == k then Some(Slot(w.op.value, FileId(queue, w.file))) else KeyLookup(log, queue, k)
  {
    assert (log + [w])[..|log|] == log;
  }

  lemma {:induction false} RecordsConcat(a: seq<Written>, b: seq<Written>)
    ensures EntryRecords(a + b) == EntryRecords(a) + EntryRecords(b)
    decreases |b|
  {
    hide EntryRecords;
    if |b| == 0 {
      assert a + b == a && b == [];
      NoRecords();
    } else {
      var n := |b| - 1;
      RecordsConcat(a, b[..n]);
      RecordsSnoc(a + b[..n], b[n]);
      RecordsSnoc(b[..n], b[n]);
      assert a + b == (a + b[..n]) + [b[n]] && b == b[..n] + [b[n]];
    }
  }

  lemma NoRecords()
    ensures EntryRecords([]) == []
  {
  }

  lemma {:induction false} KeyConcat(a: seq<Written>, b: seq<Written>, queue: LogQueue, k: Bytes)
    ensures KeyLookup(a + b, queue, k) == if KeyLookup(b, queue, k).Some? then KeyLookup(b, queue, k) else KeyLookup(a, queue, k)
    decreases |b|
  {
    if |b| == 0 {
      assert a + b == a;
    } else {
      var n := |b| - 1;
      KeyConcat(a, b[..n], queue, k);
      assert (a + b)[..|a + b| - 1] == a + b[..n];
    }
  }

  /** A found pair is an item of the log. */
  lemma {:induction false} KeyFound(log: seq<Written>, queue: LogQueue, k: Bytes) returns (j: nat)
    requires KeyLookup(log, queue, k).Some?
    ensures j < |log| && log[j].op == PutKey(k, KeyLookup(log, queue, k).value.value)
    ensures KeyLookup(log, queue, k).value.id == FileId(queue, log[j].file)
    decreases |log|
  {
    j := |log| - 1;
    if !(log[j].op.PutKey? && log[j].op.key == k) {
      j := KeyFound(log[..j], queue, k);
    }
  }

  // ------------------------------------------------------------------------ files

  lemma {:induction false} KeptRecords(log: seq<Written>, min: FileSeq)
    ensures EntryRecords(KeptOps(log, min)) == Kept(EntryRecords(log), min)
    decreases |log|
  {
    if |log| > 0 {
      var n := |log| - 1;
      KeptRecords(log[..n], min);
      var before, w := EntryRecords(log[..n]), log[n];
      if w.op.Entries? {
        var r := Record(w.file, w.op.es);
        assert (before + [r])[..|before|] == before;
      }
      if min <= w.file {
        RecordsSnoc(KeptOps(log[..n], min), w);
      }
    }
  }

  lemma {:induction false} KeptOpsShape(log: seq<Written>, min: FileSeq)
    requires Plain(log)
    ensures Plain(KeptOps(log, min)) && |KeptOps(log, min)| <= |log|
    decreases |log|
  {
    if |log| > 0 {
      KeptOpsShape(log[..|log| - 1], min);
    }
  }

  lemma {:induction false} KeptOpsNone(log: seq<Written>, min: FileSeq)
    requires forall k :: 0 <= k < |log| ==> log[k].file < min
    ensures KeptOps(log, min) == []
    decreases |log|
  {
    if |log| > 0 {
      KeptOpsNone(log[..|log| - 1], min);
    }
  }

  /** In order of files, purging loses exactly the pairs in purged files. */
  lemma {:induction false} KeptKey(log: seq<Written>, active: FileSeq, min: FileSeq, queue: LogQueue, k: Bytes)
    requires OpsInOrder(log, active)
    ensures KeyLookup(KeptOps(log, min), queue, k) ==
            if KeyLookup(log, queue, k).Some? && min <= KeyLookup(log, queue, k).value.id.seqno
            then KeyLookup(log, queue, k) else None
    decreases |log|
  {
    hide KeptOps;
    if |log| == 0 {
      NothingKeptOps(log, min);
    } else {
      var n := |log| - 1;
      if log[n].file < min {
        KeptOpsNone(log, min);
        if KeyLookup(log, queue, k).Some? {
          var j := KeyFound(log, queue, k);
        }
      } else {
        KeptKey(log[..n], active, min, queue, k);
        KeptOpsSnoc(log, min);
        KeySnoc(KeptOps(log[..n], min), log[n], queue, k);
      }
    }
  }

  lemma NothingKeptOps(log: seq<Written>, min: FileSeq)
    requires |log| == 0
    ensures KeptOps(log, min) == []
  {
  }

  lemma KeptOpsSnoc(log: seq<Written>, min: FileSeq)
    requires |log| > 0 && min <= log[|log| - 1].file
    ensures KeptOps(log, min) == KeptOps(log[..|log| - 1], min) + [log[|log| - 1]]
  {
  }

  // ----------------------------------------------------------------------- replay

  /** Replay of one item of a queue. */
  function ReplayOp(queue: LogQueue, t: Table, w: Written): (t': Table)
    requires t.rewriteCount <= |t.entries|
    ensures t'.rewriteCount <= |t'.entries|
  {
    match w.op
    case Entries(es) => if queue == AppendQueue then Appended(t, es) else ReplayRewrite(t, es)
    case Compact(index) => CompactTo(t, index)
    case PutKey(key, value) => Put(t, key, value, FileId(queue, w.file))
    case DeleteKey(key) => Delete(t, key)
  }

  function ReplayOps(queue: LogQueue, log: seq<Written>): (t: Table)
    ensures t.rewriteCount <= |t.entries|
  {
    if |log| == 0 then EmptyTable else ReplayOp(queue, ReplayOps(queue, log[..|log| - 1]), log[|log| - 1])
  }

  /** The table is the entries' side with these keys: every key as the log says. */
  ghost predicate SidesOf(t: Table, queue: LogQueue, log: seq<Written>) {
    && Bare(t) == C.ReplayIn(queue, EntryRecords(log))
    && t.group == None
    && forall k :: KeySlot(t, k) == KeyLookup(log, queue, k)
  }

  function KeySlot(t: Table, k: Bytes): Option<Slot> {
    if k in t.kvs then Some(t.kvs[k]) else None
  }

  lemma OpSides(queue: LogQueue, log: seq<Written>, w: Written, t: Table)
    requires t.rewriteCount <= |t.entries| && SidesOf(t, queue, log)
    requires (w.op.Entries? && |w.op.es| > 0) || w.op.PutKey?
    ensures SidesOf(ReplayOp(queue, t, w), queue, log + [w])
  {
    hide Appended, C.ReplayIn, KeyLookup, EntryRecords;
    var t' := ReplayOp(queue, t, w);
    RecordsSnoc(log, w);
    if w.op.Entries? {
      BareAppend(t, w.op.es);
      ReplayInSnoc(queue, EntryRecords(log), Record(w.file, w.op.es));
      assert Bare(t') == C.ReplayIn(queue, EntryRecords(log + [w])) by { BareOp(queue, t, w); }
    }
    forall k
      ensures KeySlot(t', k) == KeyLookup(log + [w], queue, k)
    {
      KeySnoc(log, w, queue, k);
    }
    assert t'.group == None by { GroupStays(queue, t, w); }
  }

  lemma GroupStays(queue: LogQueue, t: Table, w: Written)
    requires t.rewriteCount <= |t.entries| && (w.op.Entries? || w.op.PutKey?)
    ensures ReplayOp(queue, t, w).group == t.group
  {
  }

  lemma BareOp(queue: LogQueue, t: Table, w: Written)
    requires t.rewriteCount <= |t.entries| && w.op.Entries? && |w.op.es| > 0
    ensures Bare(ReplayOp(queue, t, w)) == if queue == AppendQueue then Appended(Bare(t), w.op.es) else ReplayRewrite(Bare(t), w.op.es)
    ensures ReplayOp(queue, t, w).kvs == t.kvs
  {
    BareAppend(t, w.op.es);
  }

  lemma ReplayInSnoc(queue: LogQueue, log: seq<Record>, r: Record)
    ensures C.ReplayIn(queue, log + [r]) ==
            if queue == AppendQueue then Appended(C.ReplayIn(queue, log), r.es) else ReplayRewrite(C.ReplayIn(queue, log), r.es)
  {
    hide Appended;
    assert (log + [r])[..|log|] == log;
  }

  /** Replaying entries and pairs makes the table that the entries alone make, with every key at its
      latest value and file. */
  lemma {:induction false} ReplaySides(queue: LogQueue, log: seq<Written>)
    requires Plain(log)
    ensures SidesOf(ReplayOps(queue, log), queue, log)
    decreases |log|
  {
    hide ReplayOp, SidesOf;
    if |log| == 0 {
      NoSides(queue, log);
    } else {
      var n := |log| - 1;
      ReplaySides(queue, log[..n]);
      OpSides(queue, log[..n], log[n], ReplayOps(queue, log[..n]));
      assert log == log[..n] + [log[n]];
    }
  }

  lemma NoSides(queue: LogQueue, log: seq<Written>)
    requires |log| == 0
    ensures SidesOf(EmptyTable, queue, log)
  {
  }

  // ------------------------------------------------------------------------- cuts

  datatype Cut = Piece(log: seq<Written>) | Join(left: Cut, right: Cut)

  function Flatten(c: Cut): seq<Written> {
    match c
    case Piece(log) => log
    case Join(l, r) => Flatten(l) + Flatten(r)
  }

  /** The entries' side of a cut. */
  function RecordCut(c: Cut): C.Cut {
    match c
    case Piece(log) => C.Piece(EntryRecords(log))
    case Join(l, r) => C.Join(RecordCut(l), RecordCut(r))
  }

  /** The assertions of replaying one item after the other. */
  predicate Replayable(queue: LogQueue, log: seq<Written>) {
    |log| == 0 ||
    var n := |log| - 1;
    && Replayable(queue, log[..n])
    && (log[n].op.Entries? && |log[n].op.es| > 0 ==>
          Accepts(ReplayOps(queue, log[..n]), log[n].op.es[0].index, queue == RewriteQueue, true))
  }

  /** Recovery of one region from a cut queue; `None` is a failed assertion. */
  function Recover(queue: LogQueue, c: Cut): (r: Option<Table>)
    ensures r.Some? ==> r.value.rewriteCount <= |r.value.entries|
  {
    match c
    case Piece(log) => if Replayable(queue, log) then Some(ReplayOps(queue, log)) else None
    case Join(l, r) =>
      var lt, rt := Recover(queue, l), Recover(queue, r);
      if lt.Some? && rt.Some?
         && (|rt.value.entries| > 0 ==> Accepts(lt.value, rt.value.first, rt.value.rewriteCount > 0, true))
      then Some(MergeNewerNeighbor(lt.value, rt.value)) else None
  }

  lemma {:induction false} FlattenRecords(c: Cut)
    ensures C.Flatten(RecordCut(c)) == EntryRecords(Flatten(c))
    decreases c
  {
    match c
    case Piece(log) =>
    case Join(l, r) =>
      FlattenRecords(l);
      FlattenRecords(r);
      RecordsConcat(Flatten(l), Flatten(r));
  }

  lemma {:induction false} ReplayableSides(queue: LogQueue, log: seq<Written>)
    requires Plain(log)
    ensures Replayable(queue, log) <==> C.Replayable(queue, EntryRecords(log))
    decreases |log|
  {
    hide ReplayOps, C.ReplayIn, Accepts;
    if |log| > 0 {
      var n := |log| - 1;
      ReplayableSides(queue, log[..n]);
      ReplaySides(queue, log[..n]);
      var before := EntryRecords(log[..n]);
      if log[n].op.Entries? {
        assert (before + [Record(log[n].file, log[n].op.es)])[..|before|] == before;
        SameAccepts(ReplayOps(queue, log[..n]), log[n].op.es[0].index, queue == RewriteQueue);
      }
    }
  }

  lemma SameAccepts(t: Table, i: nat, hole: bool)
    ensures Accepts(Bare(t), i, hole, true) <==> Accepts(t, i, hole, true)
  {
  }

  lemma PlainParts(a: seq<Written>, b: seq<Written>)
    requires Plain(a + b)
    ensures Plain(a) && Plain(b)
  {
    assert forall k :: 0 <= k < |a| ==> (a + b)[k] == a[k];
    assert forall k :: 0 <= k < |b| ==> (a + b)[|a| + k] == b[k];
  }

  lemma MergeSides(queue: LogQueue, a: seq<Written>, b: seq<Written>, l: Table, r: Table)
    requires l.rewriteCount <= |l.entries| && r.rewriteCount <= |r.entries|
    requires l.group == None && r.group == None
    requires forall k :: KeySlot(l, k) == KeyLookup(a, queue, k)
    requires forall k :: KeySlot(r, k) == KeyLookup(b, queue, k)
    ensures var m := MergeNewerNeighbor(l, r);
            && Bare(m) == MergeNewerNeighbor(Bare(l), Bare(r)) && m.group == None
            && forall k :: KeySlot(m, k) == KeyLookup(a + b, queue, k)
  {
    hide KeyLookup;
    var m := MergeNewerNeighbor(l, r);
    assert m.kvs == l.kvs + r.kvs;
    forall k
      ensures KeySlot(m, k) == KeyLookup(a + b, queue, k)
    {
      KeyConcat(a, b, queue, k);
      assert KeySlot(l, k) == KeyLookup(a, queue, k) && KeySlot(r, k) == KeyLookup(b, queue, k);
    }
  }

  /** However a queue without holes is cut, and in whatever order the pieces are merged, no
      assertion fails, the entries are those of replaying it in order, and every key has its latest
      value and file. */
  lemma {:induction false} RecoverSides(queue: LogQueue, c: Cut)
    requires Plain(Flatten(c)) && Connected(EntryRecords(Flatten(c)), queue)
    ensures Recover(queue, c).Some? && SidesOf(Recover(queue, c).value, queue, Flatten(c))
    decreases c
  {
    hide ReplayOps, C.ReplayIn, C.Recover, KeyLookup, MergeNewerNeighbor, Accepts, EntryRecords, Connected;
    FlattenRecords(c);
    C.RecoverIsReplay(queue, RecordCut(c));
    match c
    case Piece(log) =>
      PieceSides(queue, log);
    case Join(l, r) =>
      var a, b := Flatten(l), Flatten(r);
      PlainParts(a, b);
      RecordsConcat(a, b);
      C.ConnectedParts(EntryRecords(a), EntryRecords(b), queue);
      RecoverSides(queue, l);
      RecoverSides(queue, r);
      JoinSides(queue, a, b, Recover(queue, l).value, Recover(queue, r).value);
  }

  lemma PieceSides(queue: LogQueue, log: seq<Written>)
    requires Plain(log) && Connected(EntryRecords(log), queue)
    ensures Replayable(queue, log) && SidesOf(ReplayOps(queue, log), queue, log)
  {
    hide SidesOf, Connected;
    C.ConnectedReplays(queue, EntryRecords(log));
    ReplayableSides(queue, log);
    ReplaySides(queue, log);
  }

  lemma JoinSides(queue: LogQueue, a: seq<Written>, b: seq<Written>, l: Table, r: Table)
    requires Connected(EntryRecords(a) + EntryRecords(b), queue) && EntryRecords(a + b) == EntryRecords(a) + EntryRecords(b)
    requires l.rewriteCount <= |l.entries| && r.rewriteCount <= |r.entries|
    requires SidesOf(l, queue, a) && SidesOf(r, queue, b)
    ensures |r.entries| > 0 ==> Accepts(l, r.first, r.rewriteCount > 0, true)
    ensures SidesOf(MergeNewerNeighbor(l, r), queue, a + b)
  {
    hide C.ReplayIn, KeyLookup, MergeNewerNeighbor, EntryRecords;
    C.MergeIn(queue, EntryRecords(a), EntryRecords(b));
    MergeSides(queue, a, b, l, r);
    if |r.entries| > 0 {
      assert Bare(r).first == r.first;
      SameAccepts(l, r.first, r.rewriteCount > 0);
    }
  }
}
