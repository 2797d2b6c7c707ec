/**
 Rewriting one table in the background while writers keep using it.

 A writer writes a batch to the active append file and applies its items to the table later;
 meanwhile the queue may have moved on to newer files. A pass fetches locations, copies the
 bytes to the rewrite queue and applies the new locations chunk by chunk. Any two of these
 steps may be interleaved. `Files` fixes what the immutable log files hold.

 This module has the state machine and what every run keeps about the shape of the table;
 `RewriteView` has what a reader sees, `RewriteRuns` the theorems about whole runs.
 */
module RewritePass {
  import opened PipeLog
  import opened Tables

  /** Immutable file contents: the bytes at a location, and which pairs a file records. */
  datatype Files = Files(content: Location -> Bytes, holds: (FileId, Bytes, Bytes) -> bool)

  /** The simple log a reader believes in. */
  datatype Model = Model(log: map<nat, Bytes>, keys: map<Bytes, Bytes>)

  /** What a batch asks of one table. */
  datatype Op =
    | Entries(es: seq<EntryIndex>)
    | Compact(index: nat)
    | PutKey(key: Bytes, value: Bytes)
    | DeleteKey(key: Bytes)

  /** An item that is written to append file `file` and has not reached the table. */
  datatype Written = Written(op: Op, file: FileSeq)

  datatype Phase =
    | Idle
      // `pending` are the fetched entries that are not yet applied, `next` the index after the
      // applied ones, `low` the smallest index appended since the fetch (or the end at the fetch).
    | Pass(gate: Option<FileSeq>, start: FileSeq, pending: seq<EntryIndex>, keys: map<Bytes, Bytes>,
           next: nat, low: nat)

  /** `flight` are the written items of this region that are not yet applied, in order;
      `sorted` is false from an abandoned squeeze to the end of the next complete one. */
  datatype State = State(t: Table, flight: seq<Written>, phase: Phase, activeAppend: FileSeq,
                         activeRewrite: FileSeq, sorted: bool)

  datatype Step =
    | Rotate(file: FileSeq)
    | Write(ops: seq<Op>)
    | ApplyNext
    | BeginGated(gate: FileSeq)
    | BeginSqueeze
    | ApplyChunk(rw: seq<EntryIndex>, file: FileSeq)
    | ApplyKey(key: Bytes, file: FileSeq)
    | MarkGroup(from: FileSeq, to: FileSeq)
    | EndPass
    | AbandonPass

  // ------------------------------------------------------------------- steps

  /** `rw` are copies in rewrite file `file` of the first pending entries. */
  predicate CopiesOf(f: Files, rw: seq<EntryIndex>, pending: seq<EntryIndex>, file: FileSeq) {
    && 0 < |rw| <= |pending| && Consecutive(rw)
    && AllIn(rw, FileId(RewriteQueue, file))
    && forall k :: 0 <= k < |rw| ==> rw[k].index == pending[k].index
                                     && f.content(rw[k].loc) == f.content(pending[k].loc)
  }

  /** File `file` records the item. */
  predicate Recorded(f: Files, op: Op, file: FileSeq) {
    match op
    case Entries(es) => |es| > 0 && Consecutive(es) && AllIn(es, FileId(AppendQueue, file))
    case PutKey(key, value) => f.holds(FileId(AppendQueue, file), key, value)
    case _ => true
  }

  /** The oldest file with an item that is not applied. */
  function FirstUnapplied(s: State): Option<FileSeq> {
    if |s.flight| == 0 then None else Some(s.flight[0].file)
  }

  /** The step can be taken: its own preconditions, and no assertion of the table fails. */
  predicate Enabled(f: Files, s: State, step: Step) {
    match step
    case Rotate(file) => s.activeAppend < file
    case Write(ops) => forall k :: 0 <= k < |ops| ==> Recorded(f, ops[k], s.activeAppend)
    case ApplyNext =>
      |s.flight| > 0 && (s.flight[0].op.Entries? && |s.flight[0].op.es| > 0 ==>
                           Accepts(s.t, s.flight[0].op.es[0].index, false, false))
    case BeginGated(gate) => s.phase.Idle? && gate < s.activeAppend
    case BeginSqueeze => s.phase.Idle?
    case ApplyChunk(rw, file) =>
      && s.phase.Pass? && s.activeRewrite <= file && CopiesOf(f, rw, s.phase.pending, file)
      && CanRewrite(s.t, rw, s.phase.gate)
    case ApplyKey(key, file) =>
      && s.phase.Pass? && s.activeRewrite <= file && key in s.phase.keys
      && f.holds(FileId(RewriteQueue, file), key, s.phase.keys[key])
    case MarkGroup(from, to) => s.phase.Pass? && (s.t.group.Some? ==> s.t.group.value.1 <= from)
    case EndPass => s.phase.Pass? && s.phase.pending == [] && s.phase.keys == map[]
    case AbandonPass => s.phase.Pass?
  }

  ghost function FetchedKeys(t: Table, gate: Option<FileSeq>): map<Bytes, Bytes> {
    map k | k in t.kvs && (match gate
                           case Some(g) => t.kvs[k].id.queue == AppendQueue && t.kvs[k].id.seqno <= g
                           case None => t.kvs[k].id.queue == RewriteQueue) :: t.kvs[k].value
  }

  /** A batch that was written to `file`. */
  function InFile(ops: seq<Op>, file: FileSeq): (ws: seq<Written>)
    ensures |ws| == |ops| && forall k :: 0 <= k < |ws| ==> ws[k] == Written(ops[k], file)
  {
    seq(|ops|, k requires 0 <= k < |ops| => Written(ops[k], file))
  }

  function Applied(t: Table, w: Written): Table
    requires t.rewriteCount <= |t.entries|
  {
    match w.op
    case Entries(es) => Appended(t, es)
    case Compact(index) => CompactTo(t, index)
    case PutKey(key, value) => Put(t, key, value, FileId(AppendQueue, w.file))
    case DeleteKey(key) => Delete(t, key)
  }

  /** Where appending starts, as far as a pass is concerned. */
  function LowAfter(low: nat, op: Op): nat {
    if op.Entries? && |op.es| > 0 then Min(low, op.es[0].index) else low
  }

  ghost function Next(f: Files, s: State, step: Step): State
    requires s.t.rewriteCount <= |s.t.entries| && Enabled(f, s, step)
  {
    match step
    case Rotate(file) => s.(activeAppend := file)
    case Write(ops) => s.(flight := s.flight + InFile(ops, s.activeAppend))
    case ApplyNext =>
      s.(t := Applied(s.t, s.flight[0]), flight := s.flight[1..],
         phase := if s.phase.Pass? then s.phase.(low := LowAfter(s.phase.low, s.flight[0].op)) else Idle)
    case BeginGated(gate) =>
      s.(phase := Pass(Some(gate), 0, FetchedBefore(s.t, gate), FetchedKeys(s.t, Some(gate)),
                       s.t.Boundary(), s.t.End()))
    case BeginSqueeze =>
      s.(phase := Pass(None, s.activeRewrite + 1, FetchedRewritten(s.t), FetchedKeys(s.t, None),
                       s.t.first, s.t.End()),
         activeRewrite := s.activeRewrite + 1)
    case ApplyChunk(rw, file) =>
      s.(t := Rewritten(s.t, rw, s.phase.gate), activeRewrite := file, phase := AfterChunk(s.phase, |rw|))
    case ApplyKey(key, file) =>
      s.(t := RewrittenKey(s.t, key, s.phase.gate, file), activeRewrite := file,
         phase := s.phase.(keys := s.phase.keys - {key}))
    case MarkGroup(from, to) => s.(t := s.t.(group := Some((from, to))))
    case EndPass => s.(phase := Idle, sorted := s.sorted || s.phase.gate.None?)
    case AbandonPass => s.(phase := Idle, sorted := s.sorted && s.phase.gate.Some?)
  }

  function AfterChunk(p: Phase, n: nat): Phase
    requires p.Pass? && n <= |p.pending|
  {
    p.(pending := p.pending[n..], next := p.next + n)
  }

  // ------------------------------------------------------- what every run keeps

  /** Items in flight are recorded in their files, in order, up to the active file. */
  ghost predicate FlightOk(f: Files, flight: seq<Written>, active: FileSeq) {
    && (forall k :: 0 <= k < |flight| ==> Recorded(f, flight[k].op, flight[k].file))
    && (forall j, k :: 0 <= j < k < |flight| ==> flight[j].file <= flight[k].file)
    && (forall k :: 0 <= k < |flight| ==> flight[k].file <= active)
  }

  /** What is applied is no newer than this file, what is not applied no older. */
  function Oldest(s: State): FileSeq { if |s.flight| == 0 then s.activeAppend else s.flight[0].file }

  /** File sequences of entries never exceed the given ones. */
  ghost predicate EntriesBounded(t: Table, append: FileSeq, rewrite: FileSeq) {
    forall k :: 0 <= k < |t.entries| ==> Bounded(t.entries[k].block.id, append, rewrite)
  }

  predicate Bounded(id: FileId, append: FileSeq, rewrite: FileSeq) {
    match id.queue
    case AppendQueue => id.seqno <= append
    case RewriteQueue => id.seqno <= rewrite
  }

  /** What is pending in a gated pass is still appended, and unless it was overwritten the
      pass may still replace it. */
  ghost predicate PendingShape(t: Table, p: Phase)
    requires p.Pass?
  {
    && (forall k :: 0 <= k < |p.pending| ==> p.pending[k].index == p.next + k)
    && (forall i: nat :: p.next <= i < p.next + |p.pending| && t.Has(i) ==>
          && (p.gate.Some? ==> t.At(i).Queue() == AppendQueue)
          && (i < p.low ==> Replaceable(t.At(i), p.gate)))
  }

  /** Below `low` nothing was appended since the fetch, so what the pass is done with there is
      rewritten; in a squeeze everything from `low` on is appended. */
  ghost predicate SplitAtLow(t: Table, p: Phase)
    requires p.Pass?
  {
    && (forall i: nat :: t.Has(i) && i < p.low && i < p.next ==> t.At(i).Queue() == RewriteQueue)
    && (p.gate.None? ==> forall i: nat :: t.Has(i) && i >= p.low ==> t.At(i).Queue() == AppendQueue)
  }

  /** A squeeze has moved every rewritten entry before `next` into its own, ordered files. */
  ghost predicate SqueezedPrefix(t: Table, p: Phase)
    requires p.Pass? && t.Valid()
  {
    && (t.rewriteCount > 0 ==> t.Boundary() <= p.next + |p.pending|)
    && (forall i: nat :: t.first <= i < t.Boundary() && i < p.next ==> p.start <= t.At(i).Seq())
    && (forall i: nat, j: nat :: t.first <= i < j < t.Boundary() && j < p.next ==> t.At(i).Seq() <= t.At(j).Seq())
  }

  ghost predicate PassShape(t: Table, p: Phase)
    requires p.Pass? && t.Valid()
  {
    PendingShape(t, p) && SplitAtLow(t, p) && (p.gate.None? ==> SqueezedPrefix(t, p))
  }

  /** The rewritten part is known to be ordered by file. */
  predicate KnownSorted(s: State) {
    s.sorted && (s.phase.Pass? ==> s.phase.gate.Some?)
  }

  ghost predicate EntryShape(t: Table, p: Phase, append: FileSeq, rewrite: FileSeq, known: bool) {
    && t.Valid()
    && EntriesBounded(t, append, rewrite)
    && PartsSorted(t, AppendQueue)
    && (known ==> PartsSorted(t, RewriteQueue))
    && (p.Pass? ==> PassShape(t, p))
  }

  ghost predicate KeyShape(s: State) {
    && (forall k :: k in s.t.kvs ==> Bounded(s.t.kvs[k].id, Oldest(s), s.activeRewrite))
    && (s.phase.Pass? && s.phase.gate.Some? ==>
          forall k :: k in s.phase.keys && k in s.t.kvs ==> s.t.kvs[k].id.queue == AppendQueue)
  }

  ghost predicate PhaseShape(s: State) {
    s.phase.Pass? ==>
      && (s.phase.gate.Some? ==> s.phase.gate.value < s.activeAppend)
      && (s.phase.gate.None? ==> s.phase.start <= s.activeRewrite)
  }

  /** The entry part of a table and of a phase: key steps do not touch them. */
  function Bare(t: Table): Table { t.(kvs := map[], group := None) }

  function BarePhase(p: Phase): Phase { if p.Pass? then p.(keys := map[]) else Idle }

  ghost predicate Shape(f: Files, s: State) {
    && s.t.Valid() && FlightOk(f, s.flight, s.activeAppend) && PhaseShape(s) && KeyShape(s)
    && EntryShape(Bare(s.t), BarePhase(s.phase), Oldest(s), s.activeRewrite, KnownSorted(s))
  }

  // ------------------------------------------------------- writing and applying

  lemma EntriesBoundedMonotone(t: Table, a: FileSeq, r: FileSeq, a': FileSeq, r': FileSeq)
    requires EntriesBounded(t, a, r) && a <= a' && r <= r'
    ensures EntriesBounded(t, a', r')
  {
  }

  lemma RotateKeepsShape(f: Files, s: State, file: FileSeq)
    requires Shape(f, s) && Enabled(f, s, Rotate(file))
    ensures Shape(f, Next(f, s, Rotate(file)))
  {
    EntriesBoundedMonotone(Bare(s.t), Oldest(s), s.activeRewrite, Oldest(s.(activeAppend := file)), s.activeRewrite);
  }

  lemma WriteKeepsShape(f: Files, s: State, ops: seq<Op>)
    requires Shape(f, s) && Enabled(f, s, Write(ops))
    ensures Shape(f, Next(f, s, Write(ops)))
  {
    hide EntryShape, Recorded;
    var s' := Next(f, s, Write(ops));
    assert FlightOk(f, s'.flight, s'.activeAppend) by {
      forall k | |s.flight| <= k < |s'.flight|
        ensures s'.flight[k] == Written(ops[k - |s.flight|], s.activeAppend)
      {
      }
    }
    assert Oldest(s') == Oldest(s);
  }

  /** The deque after an accepted append: a prefix of the old one, then the batch. */
  lemma AppendedShape(t: Table, es: seq<EntryIndex>)
    requires t.Valid() && |es| > 0 && Consecutive(es)
    requires Accepts(t, es[0].index, false, false)
    ensures var r, n := Appended(t, es), |Appended(t, es).entries| - |es|;
            && 0 <= n <= |t.entries| && r.first + n == es[0].index
            && (|t.entries| > 0 ==> r.first == t.first)
            && r.rewriteCount == Min(t.rewriteCount, n)
            && (forall k :: 0 <= k < n ==> r.entries[k] == t.entries[k])
            && (forall k :: n <= k < |r.entries| ==> r.entries[k] == es[k - n].loc)
            && r.kvs == t.kvs && r.group == t.group
  {
  }

  lemma AppendKeepsOrder(t: Table, es: seq<EntryIndex>, file: FileSeq, append: FileSeq, rewrite: FileSeq)
    requires t.Valid() && EntriesBounded(t, append, rewrite) && PartsSorted(t, AppendQueue)
    requires |es| > 0 && Consecutive(es) && AllIn(es, FileId(AppendQueue, file)) && append <= file
    requires Accepts(t, es[0].index, false, false)
    ensures var t' := Appended(t, es);
            && t'.Valid() && EntriesBounded(t', file, rewrite) && PartsSorted(t', AppendQueue)
            && (PartsSorted(t, RewriteQueue) ==> PartsSorted(t', RewriteQueue))
  {
    AppendedShape(t, es);
  }

  /** The table before and after an append, index by index. */
  lemma AppendedAt(t: Table, es: seq<EntryIndex>, file: FileSeq, i: nat)
    requires t.Valid() && |es| > 0 && Consecutive(es) && AllIn(es, FileId(AppendQueue, file))
    requires Accepts(t, es[0].index, false, false)
    ensures var t' := Appended(t, es);
            && (t'.Has(i) && i < es[0].index ==> t.Has(i) && t'.At(i) == t.At(i))
            && (t'.Has(i) && i >= es[0].index ==> t'.At(i).block.id == FileId(AppendQueue, file))
            && (t'.first <= i < t'.Boundary() ==> i < es[0].index && t.first <= i < t.Boundary())
  {
    hide Appended;
    AppendedShape(t, es);
  }

  lemma AppendKeepsPass(t: Table, p: Phase, es: seq<EntryIndex>, file: FileSeq)
    requires p.Pass? && t.Valid() && PassShape(t, p)
    requires |es| > 0 && Consecutive(es) && AllIn(es, FileId(AppendQueue, file))
    requires Accepts(t, es[0].index, false, false)
    ensures Appended(t, es).Valid()
    ensures PassShape(Appended(t, es), p.(low := Min(p.low, es[0].index)))
  {
    hide Appended, Consecutive, AllIn, Replaceable;
    var t' := Appended(t, es);
    assert t'.Valid() by { AppendKeepsValid(t, es, file); }
    forall i: nat
      ensures t'.Has(i) && i < es[0].index ==> t.Has(i) && t'.At(i) == t.At(i)
      ensures t'.Has(i) && i >= es[0].index ==> t'.At(i).block.id == FileId(AppendQueue, file)
      ensures t'.first <= i < t'.Boundary() ==> t.first <= i < t.Boundary() && t'.At(i) == t.At(i)
    {
      AppendedAt(t, es, file, i);
    }
    assert t'.rewriteCount > 0 ==> t.rewriteCount > 0 && t'.Boundary() <= t.Boundary() by {
      if t'.rewriteCount > 0 { AppendedAt(t, es, file, t'.Boundary() - 1); }
    }
  }

  lemma AppendKeepsValid(t: Table, es: seq<EntryIndex>, file: FileSeq)
    requires t.Valid() && |es| > 0 && Consecutive(es) && AllIn(es, FileId(AppendQueue, file))
    requires Accepts(t, es[0].index, false, false)
    ensures Appended(t, es).Valid()
  {
    hide Appended;
    AppendedShape(t, es);
  }

  /** Compaction keeps a suffix of the deque. */
  lemma CompactShape(t: Table, index: nat)
    requires t.Valid()
    ensures var t' := CompactTo(t, index);
            && t'.Valid()
            && (forall i: nat :: t'.Has(i) <==> t.Has(i) && index <= i)
            && (forall i: nat :: t'.Has(i) ==> t'.At(i) == t.At(i))
            && t.first <= t'.first
            && (t'.rewriteCount > 0 ==> t'.Boundary() == t.Boundary())
            && t'.kvs == t.kvs && t'.group == t.group
  {
  }

  /** How many entries compaction drops from the front. */
  lemma CompactedEntries(t: Table, index: nat) returns (n: nat)
    requires t.rewriteCount <= |t.entries|
    ensures n <= |t.entries| && CompactTo(t, index).entries == t.entries[n..]
    ensures CompactTo(t, index).rewriteCount == if t.rewriteCount <= n then 0 else t.rewriteCount - n
  {
    n := |t.entries| - |CompactTo(t, index).entries|;
  }

  lemma CompactKeepsOrder(t: Table, index: nat, queue: LogQueue)
    requires t.Valid() && PartsSorted(t, queue)
    ensures PartsSorted(CompactTo(t, index), queue)
  {
    hide CompactTo;
    var t' := CompactTo(t, index);
    var n := CompactedEntries(t, index);
    var lo, hi := if queue == AppendQueue then t'.rewriteCount else 0,
                  if queue == AppendQueue then |t'.entries| else t'.rewriteCount;
    forall j, k | lo <= j < k < hi
      ensures t'.entries[j].Seq() <= t'.entries[k].Seq()
    {
      assert t'.entries[j] == t.entries[j + n] && t'.entries[k] == t.entries[k + n];
    }
  }

  lemma CompactKeepsBounds(t: Table, index: nat, append: FileSeq, rewrite: FileSeq)
    requires t.Valid() && EntriesBounded(t, append, rewrite)
    ensures EntriesBounded(CompactTo(t, index), append, rewrite)
  {
    hide Bounded, CompactTo;
    var t' := CompactTo(t, index);
    var n := CompactedEntries(t, index);
    forall k | 0 <= k < |t'.entries| ensures Bounded(t'.entries[k].block.id, append, rewrite) {
      assert t'.entries[k] == t.entries[k + n];
    }
  }

  lemma CompactKeepsPass(t: Table, p: Phase, index: nat)
    requires p.Pass? && t.Valid() && PassShape(t, p)
    ensures CompactTo(t, index).Valid() && PassShape(CompactTo(t, index), p)
  {
    CompactShape(t, index);
  }

  /** An applied item leaves the entry part in shape. */
  lemma ApplyKeepsEntries(f: Files, t: Table, p: Phase, w: Written, append: FileSeq, rewrite: FileSeq, known: bool)
    requires EntryShape(t, p, append, rewrite, known) && Recorded(f, w.op, w.file) && append <= w.file
    requires w.op.Entries? ==> Accepts(t, w.op.es[0].index, false, false)
    requires w.op.Entries? || w.op.Compact?
    ensures EntryShape(Applied(t, w), if p.Pass? then p.(low := LowAfter(p.low, w.op)) else Idle, w.file, rewrite, known)
  {
    match w.op
    case Entries(es) =>
      AppendKeepsOrder(t, es, w.file, append, rewrite);
      if p.Pass? {
        AppendKeepsPass(t, p, es, w.file);
      }
    case Compact(index) =>
      CompactShape(t, index);
      CompactKeepsOrder(t, index, AppendQueue);
      if known {
        CompactKeepsOrder(t, index, RewriteQueue);
      }
      CompactKeepsBounds(t, index, append, rewrite);
      EntriesBoundedMonotone(CompactTo(t, index), append, rewrite, w.file, rewrite);
      if p.Pass? {
        CompactKeepsPass(t, p, index);
      }
  }

  /** Entry items leave the keys alone, and key items the entries. */
  lemma BareApply(t: Table, w: Written)
    requires t.rewriteCount <= |t.entries|
    ensures w.op.Entries? || w.op.Compact? ==>
              Applied(Bare(t), w) == Bare(Applied(t, w)) && Applied(t, w).kvs == t.kvs
    ensures w.op.PutKey? || w.op.DeleteKey? ==> Bare(Applied(t, w)) == Bare(t)
  {
    hide Appended, CompactTo;
    match w.op
    case Entries(es) => BareAppend(t, es);
    case Compact(index) => BareCompact(t, index);
    case PutKey(_, _) =>
    case DeleteKey(_) =>
  }

  lemma BareAppend(t: Table, es: seq<EntryIndex>)
    requires t.rewriteCount <= |t.entries|
    ensures Appended(Bare(t), es) == Bare(Appended(t, es)) && Appended(t, es).kvs == t.kvs
  {
    hide Locations;
  }

  lemma BareCompact(t: Table, index: nat)
    requires t.rewriteCount <= |t.entries|
    ensures CompactTo(Bare(t), index) == Bare(CompactTo(t, index)) && CompactTo(t, index).kvs == t.kvs
  {
  }

  lemma BareValid(t: Table)
    ensures Bare(t).Valid() <==> t.Valid()
  {
  }

  lemma ApplyKeepsShape(f: Files, s: State)
    requires Shape(f, s) && Enabled(f, s, ApplyNext)
    ensures Shape(f, Next(f, s, ApplyNext))
  {
    hide EntryShape, Applied, Accepts, Recorded;
    var s', w, b := Next(f, s, ApplyNext), s.flight[0], Bare(s.t);
    assert forall k :: 0 <= k < |s'.flight| ==> s'.flight[k] == s.flight[k + 1];
    assert EntryShape(Bare(s'.t), BarePhase(s'.phase), w.file, s.activeRewrite, KnownSorted(s)) by {
      ApplyKeepsBare(f, s);
    }
    RaiseAppend(Bare(s'.t), BarePhase(s'.phase), w.file, Oldest(s'), s.activeRewrite, KnownSorted(s));
    BareValid(s'.t);
    assert KeyShape(s') by { ApplyKeepsKeys(f, s); }
  }

  lemma ApplyKeepsBare(f: Files, s: State)
    requires Shape(f, s) && Enabled(f, s, ApplyNext)
    ensures var s' := Next(f, s, ApplyNext);
            EntryShape(Bare(s'.t), BarePhase(s'.phase), s.flight[0].file, s.activeRewrite, KnownSorted(s))
  {
    hide EntryShape, Applied;
    var w := s.flight[0];
    BareApply(s.t, w);
    if w.op.Entries? || w.op.Compact? {
      ApplyKeepsEntries(f, Bare(s.t), BarePhase(s.phase), w, Oldest(s), s.activeRewrite, KnownSorted(s));
    }
  }

  lemma ApplyKeepsKeys(f: Files, s: State)
    requires Shape(f, s) && Enabled(f, s, ApplyNext)
    ensures KeyShape(Next(f, s, ApplyNext))
  {
    hide EntryShape, Appended, CompactTo;
    BareApply(s.t, s.flight[0]);
  }

  lemma RaiseAppend(t: Table, p: Phase, append: FileSeq, append': FileSeq, rewrite: FileSeq, known: bool)
    requires EntryShape(t, p, append, rewrite, known) && append <= append'
    ensures EntryShape(t, p, append', rewrite, known) && t.Valid()
  {
    EntriesBoundedMonotone(t, append, rewrite, append', rewrite);
  }

  // ---------------------------------------------------------------- the pass

  lemma KeyStepKeepsShape(f: Files, s: State, key: Bytes, file: FileSeq)
    requires Shape(f, s) && Enabled(f, s, ApplyKey(key, file))
    ensures Shape(f, Next(f, s, ApplyKey(key, file)))
  {
    hide PassShape, FlightOk, PartsSorted;
    EntriesBoundedMonotone(Bare(s.t), Oldest(s), s.activeRewrite, Oldest(s), file);
    assert Bare(Next(f, s, ApplyKey(key, file)).t) == Bare(s.t);
  }

  /** Right after the fetch, what is pending is what the table holds. */
  lemma FetchStartsPass(t: Table, p: Phase, from: nat)
    requires t.Valid() && p.Pass? && p.low == t.End() && p.next == from
    requires from == FetchFrom(t, p.gate)
    requires p.gate.None? ==> |p.pending| == t.rewriteCount
    requires from + |p.pending| <= t.End()
    requires forall k :: 0 <= k < |p.pending| ==> p.pending[k] == EntryIndex(from + k, t.At(from + k))
                                                  && Replaceable(p.pending[k].loc, p.gate)
    ensures PassShape(t, p)
  {
    forall i: nat | p.next <= i < p.next + |p.pending| && t.Has(i)
      ensures p.pending[i - p.next].loc == t.At(i)
    {
      assert p.pending[i - p.next] == EntryIndex(from + (i - p.next), t.At(from + (i - p.next)));
    }
  }

  function FetchedEntries(t: Table, gate: Option<FileSeq>): seq<EntryIndex>
    requires t.rewriteCount <= |t.entries|
  {
    if gate.Some? then FetchedBefore(t, gate.value) else FetchedRewritten(t)
  }

  function FetchFrom(t: Table, gate: Option<FileSeq>): nat {
    if gate.Some? then t.Boundary() else t.first
  }

  /** What a pass fetches: a run of the table's entries, from the boundary or from the front. */
  lemma FetchIsRun(t: Table, gate: Option<FileSeq>)
    requires t.Valid()
    ensures var es, from := FetchedEntries(t, gate), FetchFrom(t, gate);
            && from + |es| <= t.End()
            && (gate.None? ==> |es| == t.rewriteCount)
            && (forall k :: 0 <= k < |es| ==> es[k] == EntryIndex(from + k, t.At(from + k)) && Replaceable(es[k].loc, gate))
  {
    if gate.Some? {
      FetchedFromIsRun(t, t.rewriteCount, gate.value);
    }
  }

  /** A pass begins on a table in shape. */
  lemma BeginKeepsEntries(t: Table, p: Phase, append: FileSeq, rewrite: FileSeq, rewrite': FileSeq, known: bool)
    requires EntryShape(t, Idle, append, rewrite, known) && rewrite <= rewrite'
    requires p.Pass? && PassShape(t, p)
    ensures EntryShape(t, p, append, rewrite', known && p.gate.Some?)
  {
    hide PassShape, Bounded;
    EntriesBoundedMonotone(t, append, rewrite, append, rewrite');
  }

  /** The phase after a fetch. */
  function Fetched(t: Table, gate: Option<FileSeq>, start: FileSeq): Phase
    requires t.rewriteCount <= |t.entries|
  {
    Pass(gate, start, FetchedEntries(t, gate), map[], FetchFrom(t, gate), t.End())
  }

  lemma FetchedInShape(t: Table, gate: Option<FileSeq>, start: FileSeq)
    requires t.Valid()
    ensures PassShape(t, Fetched(t, gate, start))
  {
    hide PassShape, FetchedEntries, Replaceable;
    FetchIsRun(t, gate);
    FetchStartsPass(t, Fetched(t, gate, start), FetchFrom(t, gate));
  }

  /** A pass does not look at keys. */
  lemma BarePass(t: Table, p: Phase)
    requires p.Pass? && t.Valid() && PassShape(t, p)
    ensures Bare(t).Valid() && PassShape(Bare(t), p)
  {
    hide Replaceable;
    var b := Bare(t);
    assert forall i: nat :: b.Has(i) <==> t.Has(i);
    assert forall i: nat :: t.Has(i) ==> b.At(i) == t.At(i);
  }

  lemma BeginKeepsShape(f: Files, s: State, step: Step)
    requires Shape(f, s) && Enabled(f, s, step) && (step.BeginGated? || step.BeginSqueeze?)
    ensures Shape(f, Next(f, s, step))
  {
    hide EntryShape, PassShape, FetchedBefore, FetchedRewritten, FetchedKeys, KeyShape;
    var s' := Next(f, s, step);
    var gate := if step.BeginGated? then Some(step.gate) else None;
    FetchedInShape(s.t, gate, s'.phase.start);
    BarePass(s.t, Fetched(s.t, gate, s'.phase.start));
    assert BarePhase(s'.phase) == Fetched(s.t, gate, s'.phase.start);
    BeginKeepsEntries(Bare(s.t), BarePhase(s'.phase), Oldest(s), s.activeRewrite, s'.activeRewrite, KnownSorted(s));
    BeginKeepsKeys(f, s, step);
  }

  lemma BeginKeepsKeys(f: Files, s: State, step: Step)
    requires s.t.Valid() && KeyShape(s) && Enabled(f, s, step) && (step.BeginGated? || step.BeginSqueeze?)
    ensures KeyShape(Next(f, s, step))
  {
  }

  /** The range a chunk replaces, in terms of the pass. */
  lemma ChunkRange(f: Files, t: Table, p: Phase, rw: seq<EntryIndex>, file: FileSeq, i: nat)
    requires p.Pass? && t.Valid() && PassShape(t, p)
    requires CopiesOf(f, rw, p.pending, file) && CanRewrite(t, rw, p.gate) && t.Has(i)
    ensures var t' := Rewritten(t, rw, p.gate);
            && t'.Has(i)
            && (t'.At(i) != t.At(i) ==>
                  && p.next <= i < p.next + |rw|
                  && t'.At(i) == rw[i - p.next].loc
                  && Replaceable(t.At(i), p.gate))
            && (i >= t'.Boundary() ==> t'.At(i) == t.At(i))
            && (p.gate.Some? && i < t.Boundary() ==> t'.At(i) == t.At(i))
            && (p.gate.None? && p.next <= i < p.next + |rw| && i < t.Boundary() ==> t'.At(i) == rw[i - p.next].loc)
            && (p.gate.Some? && i < t'.Boundary() && i >= t.Boundary() ==>
                  p.next <= i < p.next + |rw| && t'.At(i) == rw[i - p.next].loc)
            && (p.gate.Some? && p.next <= i < p.next + |rw| && i < p.low ==> i < t'.Boundary())
  {
    assert p.pending[0].index == p.next && rw[0].index == p.next && rw[|rw| - 1].index == p.next + |rw| - 1;
    RewrittenMoves(t, rw, p.gate);
    if RewriteLo(t, rw) < RewriteHi(t, rw) {
      var lo, hi := RewriteLo(t, rw), RewriteHi(t, rw);
      RewriteStopIsFirst(t, lo, hi, p.gate);
    }
  }

  lemma ChunkKeepsBounds(f: Files, t: Table, p: Phase, rw: seq<EntryIndex>, file: FileSeq,
                         append: FileSeq, rewrite: FileSeq)
    requires p.Pass? && t.Valid() && PassShape(t, p) && EntriesBounded(t, append, rewrite)
    requires CopiesOf(f, rw, p.pending, file) && CanRewrite(t, rw, p.gate) && rewrite <= file
    ensures EntriesBounded(Rewritten(t, rw, p.gate), append, file)
  {
    var t' := Rewritten(t, rw, p.gate);
    forall k | 0 <= k < |t'.entries|
      ensures Bounded(t'.entries[k].block.id, append, file)
    {
      ChunkRange(f, t, p, rw, file, t.first + k);
      assert t'.At(t.first + k) == t'.entries[k] && t.At(t.first + k) == t.entries[k];
    }
  }

  lemma ChunkKeepsOrder(f: Files, t: Table, p: Phase, rw: seq<EntryIndex>, file: FileSeq,
                        append: FileSeq, rewrite: FileSeq)
    requires p.Pass? && t.Valid() && PassShape(t, p) && EntriesBounded(t, append, rewrite)
    requires CopiesOf(f, rw, p.pending, file) && CanRewrite(t, rw, p.gate) && rewrite <= file
    requires PartsSorted(t, AppendQueue)
    ensures PartsSorted(Rewritten(t, rw, p.gate), AppendQueue)
    ensures p.gate.Some? && PartsSorted(t, RewriteQueue) ==> PartsSorted(Rewritten(t, rw, p.gate), RewriteQueue)
  {
    hide Rewritten, PassShape, RewriteHi, Consecutive;
    var t' := Rewritten(t, rw, p.gate);
    AllInIsRewrite(rw, file);
    RewrittenMoves(t, rw, p.gate);
    forall k | 0 <= k < |t'.entries|
      ensures k >= t'.rewriteCount ==> t'.entries[k] == t.entries[k]
      ensures p.gate.Some? && k < t.rewriteCount ==> t'.entries[k] == t.entries[k]
      ensures p.gate.Some? && t.rewriteCount <= k < t'.rewriteCount ==> t'.entries[k].Seq() == file
    {
      ChunkRange(f, t, p, rw, file, t.first + k);
      assert t'.At(t.first + k) == t'.entries[k] && t.At(t.first + k) == t.entries[k];
    }
  }

  lemma AllInIsRewrite(rw: seq<EntryIndex>, file: FileSeq)
    requires AllIn(rw, FileId(RewriteQueue, file))
    ensures AllRewrite(rw)
  {
  }

  lemma ChunkKeepsPending(f: Files, t: Table, p: Phase, rw: seq<EntryIndex>, file: FileSeq)
    requires p.Pass? && t.Valid() && PassShape(t, p)
    requires CopiesOf(f, rw, p.pending, file) && CanRewrite(t, rw, p.gate)
    ensures PendingShape(Rewritten(t, rw, p.gate), AfterChunk(p, |rw|))
    ensures SplitAtLow(Rewritten(t, rw, p.gate), AfterChunk(p, |rw|))
  {
    hide Rewritten, RewriteStop, CanRewrite, Max, Min;
    var t', p' := Rewritten(t, rw, p.gate), AfterChunk(p, |rw|);
    AllInIsRewrite(rw, file);
    RewrittenMoves(t, rw, p.gate);
    assert forall k :: 0 <= k < |p'.pending| ==> p'.pending[k] == p.pending[k + |rw|];
    forall i: nat | t'.Has(i)
      ensures p'.next <= i ==> t'.At(i) == t.At(i)
      ensures p.gate.None? && i >= p.low ==> t'.At(i) == t.At(i)
      ensures i < p.low && i < p'.next ==> t'.At(i).Queue() == RewriteQueue
    {
      ChunkRange(f, t, p, rw, file, i);
    }
  }

  lemma ChunkKeepsSqueeze(f: Files, t: Table, p: Phase, rw: seq<EntryIndex>, file: FileSeq,
                          append: FileSeq, rewrite: FileSeq)
    requires p.Pass? && p.gate.None? && t.Valid() && PassShape(t, p)
    requires EntriesBounded(t, append, rewrite)
    requires CopiesOf(f, rw, p.pending, file) && CanRewrite(t, rw, p.gate) && p.start <= rewrite <= file
    ensures Rewritten(t, rw, p.gate).Valid()
    ensures SqueezedPrefix(Rewritten(t, rw, p.gate), AfterChunk(p, |rw|))
  {
    hide RewriteHi, Max;
    var t', p' := Rewritten(t, rw, p.gate), AfterChunk(p, |rw|);
    AllInIsRewrite(rw, file);
    RewrittenMoves(t, rw, p.gate);
    forall i: nat | t'.first <= i < t'.Boundary()
      ensures i < p.next ==> t'.At(i) == t.At(i) && t'.At(i).Seq() <= rewrite
      ensures p.next <= i < p'.next ==> t'.At(i).Seq() == file
    {
      ChunkRange(f, t, p, rw, file, i);
      assert t.At(i) == t.entries[i - t.first];
    }
  }

  lemma ChunkKeepsPass(f: Files, t: Table, p: Phase, rw: seq<EntryIndex>, file: FileSeq,
                       append: FileSeq, rewrite: FileSeq)
    requires p.Pass? && t.Valid() && PassShape(t, p) && EntriesBounded(t, append, rewrite)
    requires p.gate.None? ==> p.start <= rewrite
    requires CopiesOf(f, rw, p.pending, file) && CanRewrite(t, rw, p.gate) && rewrite <= file
    ensures Rewritten(t, rw, p.gate).Valid()
    ensures PassShape(Rewritten(t, rw, p.gate), AfterChunk(p, |rw|))
  {
    assert Rewritten(t, rw, p.gate).Valid() by {
      AllInIsRewrite(rw, file);
      RewrittenMoves(t, rw, p.gate);
    }
    ChunkKeepsPending(f, t, p, rw, file);
    if p.gate.None? {
      ChunkKeepsSqueeze(f, t, p, rw, file, append, rewrite);
    }
  }

  lemma ChunkKeepsEntries(f: Files, t: Table, p: Phase, rw: seq<EntryIndex>, file: FileSeq,
                          append: FileSeq, rewrite: FileSeq, known: bool)
    requires p.Pass? && EntryShape(t, p, append, rewrite, known) && (known ==> p.gate.Some?)
    requires p.gate.None? ==> p.start <= rewrite
    requires rewrite <= file && CopiesOf(f, rw, p.pending, file) && CanRewrite(t, rw, p.gate)
    ensures EntryShape(Rewritten(t, rw, p.gate), AfterChunk(p, |rw|), append, file, known)
  {
    var t', p' := Rewritten(t, rw, p.gate), AfterChunk(p, |rw|);
    assert t'.Valid() && PassShape(t', p') by {
      ChunkKeepsPass(f, t, p, rw, file, append, rewrite);
    }
    assert EntriesBounded(t', append, file) by {
      ChunkKeepsBounds(f, t, p, rw, file, append, rewrite);
    }
    assert PartsSorted(t', AppendQueue) && (known ==> PartsSorted(t', RewriteQueue)) by {
      ChunkKeepsOrder(f, t, p, rw, file, append, rewrite);
    }
  }

  /** Rewriting entries does not look at keys. */
  lemma BareRewrite(t: Table, rw: seq<EntryIndex>, gate: Option<FileSeq>)
    requires t.rewriteCount <= |t.entries| && Consecutive(rw) && |rw| > 0
    ensures CanRewrite(Bare(t), rw, gate) <==> CanRewrite(t, rw, gate)
    ensures Rewritten(Bare(t), rw, gate) == Bare(Rewritten(t, rw, gate))
  {
    hide CanRewrite, Rewritten, Consecutive;
    BareCanRewrite(t, rw, gate);
    BareRewritten(t, rw, gate);
  }

  lemma BareCanRewrite(t: Table, rw: seq<EntryIndex>, gate: Option<FileSeq>)
    requires t.rewriteCount <= |t.entries| && |rw| > 0
    ensures CanRewrite(Bare(t), rw, gate) <==> CanRewrite(t, rw, gate)
  {
    hide RewriteStop;
    if RewriteLo(t, rw) < RewriteHi(t, rw) {
      assert forall i: nat :: t.Has(i) ==> Bare(t).At(i) == t.At(i);
      BareStop(t, RewriteLo(t, rw), RewriteHi(t, rw), gate);
    }
  }

  lemma BareRewritten(t: Table, rw: seq<EntryIndex>, gate: Option<FileSeq>)
    requires t.rewriteCount <= |t.entries| && Consecutive(rw) && |rw| > 0
    ensures Rewritten(Bare(t), rw, gate) == Bare(Rewritten(t, rw, gate))
  {
    hide RewriteStop, Consecutive, Replaceable;
    if RewriteLo(t, rw) < RewriteHi(t, rw) {
      BareStop(t, RewriteLo(t, rw), RewriteHi(t, rw), gate);
      assert Rewritten(Bare(t), rw, gate).entries == Rewritten(t, rw, gate).entries;
    }
  }

  lemma {:induction false} BareStop(t: Table, lo: nat, hi: nat, gate: Option<FileSeq>)
    requires t.first <= lo <= hi <= t.End()
    ensures RewriteStop(Bare(t), lo, hi, gate) == RewriteStop(t, lo, hi, gate)
    decreases hi - lo
  {
    if lo < hi && Replaceable(t.At(lo), gate) {
      BareStop(t, lo + 1, hi, gate);
    }
  }

  lemma ChunkKeepsShape(f: Files, s: State, rw: seq<EntryIndex>, file: FileSeq)
    requires Shape(f, s) && Enabled(f, s, ApplyChunk(rw, file))
    ensures Shape(f, Next(f, s, ApplyChunk(rw, file)))
  {
    hide EntryShape, Rewritten, RewriteLo, CanRewrite;
    BareValid(s.t);
    BareRewrite(s.t, rw, s.phase.gate);
    ChunkKeepsEntries(f, Bare(s.t), BarePhase(s.phase), rw, file, Oldest(s), s.activeRewrite, KnownSorted(s));
    var s' := Next(f, s, ApplyChunk(rw, file));
    RaiseAppend(Bare(s'.t), BarePhase(s'.phase), Oldest(s), Oldest(s), file, KnownSorted(s));
    BareValid(s'.t);
  }

  /** A complete squeeze leaves the whole rewritten part ordered; ending a pass keeps the rest. */
  lemma EndKeepsShape(f: Files, s: State, step: Step)
    requires Shape(f, s) && Enabled(f, s, step) && (step.EndPass? || step.AbandonPass?)
    ensures Shape(f, Next(f, s, step))
  {
    hide FlightOk, Bounded;
    var b := Bare(s.t);
    if step.EndPass? && s.phase.gate.None? {
      forall j, k | 0 <= j < k < b.rewriteCount
        ensures b.entries[j].Seq() <= b.entries[k].Seq()
      {
        assert b.At(b.first + j) == b.entries[j] && b.At(b.first + k) == b.entries[k];
      }
    }
  }

  /** Every step keeps the shape, however late items are applied. */
  lemma StepKeepsShape(f: Files, s: State, step: Step)
    requires Shape(f, s) && Enabled(f, s, step)
    ensures Shape(f, Next(f, s, step))
  {
    hide EntryShape, FlightOk;
    match step
    case Rotate(file) => RotateKeepsShape(f, s, file);
    case Write(ops) => WriteKeepsShape(f, s, ops);
    case ApplyNext => ApplyKeepsShape(f, s);
    case BeginGated(_) => BeginKeepsShape(f, s, step);
    case BeginSqueeze => BeginKeepsShape(f, s, step);
    case ApplyChunk(rw, file) => ChunkKeepsShape(f, s, rw, file);
    case ApplyKey(key, file) => KeyStepKeepsShape(f, s, key, file);
    case MarkGroup(from, to) => BareValid(s.t); BareValid(Next(f, s, step).t); assert Bare(Next(f, s, step).t) == Bare(s.t);
    case EndPass => EndKeepsShape(f, s, step);
    case AbandonPass => EndKeepsShape(f, s, step);
  }
}
