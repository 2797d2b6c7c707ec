/**
 What a pass is for: when it ends, nothing that it was to move is left behind. A gated pass leaves
 nothing of the append queue at or below its gate, a squeeze nothing in an older rewrite file, so
 that these files can be deleted.
 */
module RewriteReach {
  import opened PipeLog
  import opened Tables
  import opened RewritePass
  import opened RewriteView

  /** What a gated pass has still to move is among what it has fetched and not yet applied. */
  ghost predicate EntryReach(t: Table, p: Phase)
    requires p.Pass?
  {
    p.gate.Some? ==>
      forall i: nat :: t.Has(i) && t.At(i).Queue() == AppendQueue && t.At(i).Seq() <= p.gate.value ==>
        p.next <= i < p.next + |p.pending|
  }

  /** The key is in a file the pass is to empty. */
  predicate InReach(id: FileId, p: Phase)
    requires p.Pass?
  {
    match p.gate
    case Some(g) => id.queue == AppendQueue && id.seqno <= g
    case None => id.queue == RewriteQueue && id.seqno < p.start
  }

  ghost predicate KeyReach(kvs: map<Bytes, Slot>, p: Phase)
    requires p.Pass?
  {
    forall k :: k in kvs && InReach(kvs[k].id, p) ==> k in p.keys
  }

  ghost predicate GatedReach(s: State) {
    s.phase.Pass? && s.phase.gate.Some? ==> EntryReach(Bare(s.t), BarePhase(s.phase)) && KeyReach(s.t.kvs, s.phase)
  }

  ghost predicate SqueezeReach(s: State) {
    s.phase.Pass? && s.phase.gate.None? ==> KeyReach(s.t.kvs, s.phase)
  }

  // ------------------------------------------------------------------- the fetch

  /** Sorted by file, everything at or below the gate is in front of the first newer entry. */
  lemma FetchReaches(t: Table, gate: FileSeq)
    requires t.Valid() && PartsSorted(t, AppendQueue)
    ensures EntryReach(t, Fetched(t, Some(gate), 0))
  {
    FetchedFromIsRun(t, t.rewriteCount, gate);
    var n := |FetchedBefore(t, gate)|;
    forall i: nat | t.Has(i) && t.At(i).Queue() == AppendQueue && t.At(i).Seq() <= gate
      ensures t.Boundary() <= i < t.Boundary() + n
    {
      var k := i - t.first;
      assert t.At(i) == t.entries[k];
    }
  }

  lemma BareReach(t: Table, p: Phase)
    requires p.Pass? && EntryReach(t, p)
    ensures EntryReach(Bare(t), p)
  {
    assert forall i: nat :: Bare(t).Has(i) <==> t.Has(i);
    assert forall i: nat :: t.Has(i) ==> Bare(t).At(i) == t.At(i);
  }

  lemma BeginReaches(f: Files, s: State, step: Step)
    requires Shape(f, s) && Enabled(f, s, step) && (step.BeginGated? || step.BeginSqueeze?)
    ensures GatedReach(Next(f, s, step)) && SqueezeReach(Next(f, s, step))
  {
    hide EntryReach, FetchedBefore, FetchedRewritten;
    var s' := Next(f, s, step);
    assert KeyReach(s'.t.kvs, s'.phase) by { BeginReachesKeys(f, s, step); }
    if step.BeginGated? {
      assert PartsSorted(s.t, AppendQueue) by { BareSorted(f, s); }
      FetchReaches(s.t, step.gate);
      BareReach(s.t, Fetched(s.t, Some(step.gate), 0));
      assert BarePhase(s'.phase) == Fetched(s.t, Some(step.gate), 0);
    }
  }

  lemma BareSorted(f: Files, s: State)
    requires Shape(f, s)
    ensures PartsSorted(s.t, AppendQueue)
  {
    assert PartsSorted(Bare(s.t), AppendQueue);
  }

  lemma BeginReachesKeys(f: Files, s: State, step: Step)
    requires s.t.Valid() && KeyShape(s) && Enabled(f, s, step) && (step.BeginGated? || step.BeginSqueeze?)
    ensures KeyReach(Next(f, s, step).t.kvs, Next(f, s, step).phase)
  {
    hide FetchedBefore, FetchedRewritten;
  }

  // -------------------------------------------------------------------- applying

  /** An item that is applied during a gated pass is newer than the gate. */
  lemma ApplyKeepsEntryReach(f: Files, t: Table, p: Phase, w: Written)
    requires t.Valid() && p.Pass? && EntryReach(t, p) && Recorded(f, w.op, w.file)
    requires w.op.Entries? ==> Accepts(t, w.op.es[0].index, false, false)
    requires w.op.Entries? || w.op.Compact?
    requires p.gate.Some? ==> p.gate.value < w.file
    ensures EntryReach(Applied(t, w), p.(low := LowAfter(p.low, w.op)))
  {
    hide Appended, CompactTo;
    match w.op
    case Entries(es) =>
      forall i: nat | Appended(t, es).Has(i)
        ensures i < es[0].index ==> t.Has(i) && Appended(t, es).At(i) == t.At(i)
        ensures i >= es[0].index ==> Appended(t, es).At(i).block.id == FileId(AppendQueue, w.file)
      {
        AppendedAt(t, es, w.file, i);
      }
    case Compact(index) => CompactShape(t, index);
  }

  lemma ApplyReaches(f: Files, s: State)
    requires Shape(f, s) && FlightClear(s) && GatedReach(s) && SqueezeReach(s) && Enabled(f, s, ApplyNext)
    ensures GatedReach(Next(f, s, ApplyNext)) && SqueezeReach(Next(f, s, ApplyNext))
  {
    hide EntryReach, EntryShape, Applied;
    var w, s' := s.flight[0], Next(f, s, ApplyNext);
    BareApply(s.t, w);
    BareValid(s.t);
    if s.phase.Pass? {
      assert KeyReach(s'.t.kvs, s'.phase) by { ApplyReachesKeys(f, s); }
      if s.phase.gate.Some? && (w.op.Entries? || w.op.Compact?) {
        ApplyKeepsEntryReach(f, Bare(s.t), BarePhase(s.phase), w);
      } else if s.phase.gate.Some? {
        assert LowAfter(s.phase.low, w.op) == s.phase.low;
      }
    }
  }

  lemma ApplyReachesKeys(f: Files, s: State)
    requires s.t.Valid() && s.phase.Pass? && KeyReach(s.t.kvs, s.phase) && FlightClear(s) && Enabled(f, s, ApplyNext)
    ensures KeyReach(Next(f, s, ApplyNext).t.kvs, Next(f, s, ApplyNext).phase)
  {
    hide Appended, CompactTo;
    BareApply(s.t, s.flight[0]);
  }

  /** A squeeze needs no rule for what is in flight. */
  lemma ApplyReachesSqueeze(f: Files, s: State)
    requires s.t.Valid() && SqueezeReach(s) && Enabled(f, s, ApplyNext)
    ensures SqueezeReach(Next(f, s, ApplyNext))
  {
    hide Appended, CompactTo;
    BareApply(s.t, s.flight[0]);
  }

  // -------------------------------------------------------------------- the pass

  /** A chunk moves what is at or below the gate, all of it. */
  lemma ChunkKeepsEntryReach(f: Files, t: Table, p: Phase, rw: seq<EntryIndex>, file: FileSeq)
    requires p.Pass? && p.gate.Some? && t.Valid() && PassShape(t, p) && PassView(f, t, p) && EntryReach(t, p)
    requires CopiesOf(f, rw, p.pending, file) && CanRewrite(t, rw, p.gate)
    ensures EntryReach(Rewritten(t, rw, p.gate), AfterChunk(p, |rw|))
  {
    hide Rewritten, CanRewrite;
    var t', p' := Rewritten(t, rw, p.gate), AfterChunk(p, |rw|);
    AllInIsRewrite(rw, file);
    RewrittenMoves(t, rw, p.gate);
    forall i: nat | t'.Has(i) && t'.At(i).Queue() == AppendQueue && t'.At(i).Seq() <= p.gate.value
      ensures p'.next <= i < p'.next + |p'.pending|
    {
      ChunkRange(f, t, p, rw, file, i);
      assert t'.At(i) == t'.entries[i - t'.first];
      assert i >= t'.Boundary();
    }
  }

  lemma ChunkReaches(f: Files, s: State, m: Model, rw: seq<EntryIndex>, file: FileSeq)
    requires Shape(f, s) && View(f, s, m) && GatedReach(s) && Enabled(f, s, ApplyChunk(rw, file))
    ensures GatedReach(Next(f, s, ApplyChunk(rw, file)))
  {
    hide EntryReach, Rewritten, RewriteLo, CanRewrite, PassShape, PassView;
    BareValid(s.t);
    BareRewrite(s.t, rw, s.phase.gate);
    if s.phase.gate.Some? {
      ChunkKeepsEntryReach(f, Bare(s.t), BarePhase(s.phase), rw, file);
    }
  }

  /** A rewritten key is in the new file, or newer than the gate. */
  lemma KeyStepReaches(f: Files, s: State, key: Bytes, file: FileSeq)
    requires Shape(f, s) && Enabled(f, s, ApplyKey(key, file))
    ensures GatedReach(s) ==> GatedReach(Next(f, s, ApplyKey(key, file)))
    ensures SqueezeReach(s) ==> SqueezeReach(Next(f, s, ApplyKey(key, file)))
  {
    hide EntryReach, EntryShape;
    assert Bare(Next(f, s, ApplyKey(key, file)).t) == Bare(s.t);
  }

  lemma StepReaches(f: Files, s: State, m: Model, step: Step)
    requires Shape(f, s) && View(f, s, m) && GatedReach(s) && Enabled(f, s, step) && ClearFetch(s, step)
    ensures GatedReach(Next(f, s, step))
  {
    hide EntryReach, KeyReach, EntryShape, EntryView, KeyView;
    match step
    case Rotate(_) =>
    case Write(_) =>
    case ApplyNext => ApplyReachesGated(f, s);
    case BeginGated(_) => BeginReaches(f, s, step);
    case BeginSqueeze => BeginReaches(f, s, step);
    case ApplyChunk(rw, file) => ChunkReaches(f, s, m, rw, file);
    case ApplyKey(key, file) => KeyStepReaches(f, s, key, file);
    case MarkGroup(from, to) => assert Bare(Next(f, s, step).t) == Bare(s.t);
    case EndPass =>
    case AbandonPass =>
  }

  lemma ApplyReachesGated(f: Files, s: State)
    requires Shape(f, s) && FlightClear(s) && GatedReach(s) && Enabled(f, s, ApplyNext)
    ensures GatedReach(Next(f, s, ApplyNext))
  {
    if s.phase.Pass? && s.phase.gate.Some? {
      ApplyReaches(f, s);
    }
  }

  lemma ChunkReachesSqueeze(f: Files, s: State, rw: seq<EntryIndex>, file: FileSeq)
    requires s.t.Valid() && SqueezeReach(s) && Enabled(f, s, ApplyChunk(rw, file))
    ensures SqueezeReach(Next(f, s, ApplyChunk(rw, file)))
  {
    hide CanRewrite, RewriteLo, RewriteHi;
  }

  lemma StepReachesSqueeze(f: Files, s: State, step: Step)
    requires Shape(f, s) && SqueezeReach(s) && Enabled(f, s, step)
    ensures SqueezeReach(Next(f, s, step))
  {
    hide KeyReach, EntryShape;
    match step
    case Rotate(_) =>
    case Write(_) =>
    case ApplyNext => ApplyReachesSqueeze(f, s);
    case BeginGated(_) => BeginReaches(f, s, step);
    case BeginSqueeze => BeginReaches(f, s, step);
    case ApplyChunk(rw, file) => ChunkReachesSqueeze(f, s, rw, file);
    case ApplyKey(key, file) => KeyStepReaches(f, s, key, file);
    case MarkGroup(from, to) =>
    case EndPass =>
    case AbandonPass =>
  }

  // ------------------------------------------------------------------- the end

  /** Once everything is applied, a gated pass has left nothing at or below its gate. */
  lemma GatedEnd(f: Files, s: State, q: FileSeq)
    requires Shape(f, s) && GatedReach(s) && Enabled(f, s, EndPass) && s.phase.gate.Some?
    requires q in FileRefs(s.t, AppendQueue)
    ensures s.phase.gate.value < q
  {
    hide EntryShape;
    if q !in KeySeqs(s.t.kvs, AppendQueue) {
      var k :| 0 <= k < |s.t.entries| && s.t.entries[k].Queue() == AppendQueue && s.t.entries[k].Seq() == q;
      assert Bare(s.t).At(s.t.first + k) == s.t.entries[k];
    }
  }

  /** Once everything is applied, a squeeze has left nothing in older files. */
  lemma SqueezeEnd(f: Files, s: State, q: FileSeq)
    requires Shape(f, s) && SqueezeReach(s) && Enabled(f, s, EndPass) && s.phase.gate.None?
    requires q in FileRefs(s.t, RewriteQueue)
    ensures s.phase.start <= q
  {
    if q !in KeySeqs(s.t.kvs, RewriteQueue) {
      var k :| 0 <= k < |s.t.entries| && s.t.entries[k].Queue() == RewriteQueue && s.t.entries[k].Seq() == q;
      var b := Bare(s.t);
      assert b.At(s.t.first + k) == s.t.entries[k];
      assert k < b.rewriteCount;
    }
  }
}
