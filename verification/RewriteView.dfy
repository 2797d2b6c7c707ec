/**
 What a reader sees while a table is rewritten in the background: exactly the simple log, as
 long as no pass fetched at a gate with an item at or below it still unapplied.
 */
module RewriteView {
  import opened PipeLog
  import opened Tables
  import opened RewritePass

  /** Everything from `first` on is replaced by `values`. */
  function Overwrite(log: map<nat, Bytes>, first: nat, values: seq<Bytes>): (r: map<nat, Bytes>)
    ensures forall i: nat :: i in r <==> (i in log && i < first) || first <= i < first + |values|
    ensures forall i: nat :: i in r ==> r[i] == if i < first then log[i] else values[i - first]
  {
    if |values| == 0 then map i | i in log && i < first :: log[i] else
    var n := |values| - 1;
    Overwrite(log, first, values[..n])[first + n := values[n]]
  }

  ghost function Contents(f: Files, es: seq<EntryIndex>): (vs: seq<Bytes>)
    ensures |vs| == |es| && forall k :: 0 <= k < |vs| ==> vs[k] == f.content(es[k].loc)
  {
    seq(|es|, k requires 0 <= k < |es| => f.content(es[k].loc))
  }

  /** What an item does to the simple log. */
  ghost function Said(f: Files, m: Model, op: Op): Model {
    match op
    case Entries(es) => if |es| == 0 then m else m.(log := Overwrite(m.log, es[0].index, Contents(f, es)))
    case Compact(index) => m.(log := map i | i in m.log && index <= i :: m.log[i])
    case PutKey(key, value) => m.(keys := m.keys[key := value])
    case DeleteKey(key) => m.(keys := m.keys - {key})
  }

  /** The reader's view of a step: only an applied item changes anything. */
  ghost function NextModel(f: Files, s: State, m: Model, step: Step): Model {
    if step.ApplyNext? && |s.flight| > 0 then Said(f, m, s.flight[0].op) else m
  }

  // -------------------------------------------------------------- the view

  /** The table shows exactly the log. */
  ghost predicate ShowsLog(f: Files, t: Table, log: map<nat, Bytes>) {
    && (forall i: nat :: i in log <==> t.Has(i))
    && (forall i: nat :: t.Has(i) ==> f.content(t.At(i)) == log[i])
  }

  /** What the pass may still replace has the content it fetched, and what was appended since
      the fetch is newer than the gate. */
  ghost predicate PassView(f: Files, t: Table, p: Phase)
    requires p.Pass?
  {
    && (forall i: nat :: p.next <= i < p.next + |p.pending| && t.Has(i) && Replaceable(t.At(i), p.gate) ==>
          f.content(t.At(i)) == f.content(p.pending[i - p.next].loc))
    && (p.gate.Some? ==> forall i: nat :: t.Has(i) && i >= p.low ==>
          t.At(i).Queue() == AppendQueue && p.gate.value < t.At(i).Seq())
  }

  ghost predicate EntryView(f: Files, t: Table, p: Phase, log: map<nat, Bytes>) {
    ShowsLog(f, t, log) && (p.Pass? ==> PassView(f, t, p))
  }

  predicate KeyReplaceable(id: FileId, gate: Option<FileSeq>) {
    match gate
    case Some(g) => id.seqno <= g
    case None => id.queue == RewriteQueue
  }

  ghost predicate KeyView(f: Files, s: State, keys: map<Bytes, Bytes>) {
    && keys == (map k | k in s.t.kvs :: s.t.kvs[k].value)
       // every key points at a file that records its value
    && (forall k :: k in s.t.kvs ==> f.holds(s.t.kvs[k].id, k, s.t.kvs[k].value))
       // a pending key the pass may still touch is unchanged since the fetch
    && (s.phase.Pass? ==>
          forall k :: k in s.phase.keys && k in s.t.kvs && KeyReplaceable(s.t.kvs[k].id, s.phase.gate) ==>
                        s.t.kvs[k].value == s.phase.keys[k])
  }

  /** Whatever is still to be applied during a gated pass is newer than the gate. */
  ghost predicate FlightClear(s: State) {
    s.phase.Pass? && s.phase.gate.Some? ==>
      forall k :: 0 <= k < |s.flight| ==> s.phase.gate.value < s.flight[k].file
  }

  ghost predicate View(f: Files, s: State, m: Model) {
    FlightClear(s) && EntryView(f, Bare(s.t), BarePhase(s.phase), m.log) && KeyView(f, s, m.keys)
  }

  /** A pass fetches only below the oldest file with an unapplied item. */
  predicate ClearFetch(s: State, step: Step) {
    step.BeginGated? && FirstUnapplied(s).Some? ==> step.gate < FirstUnapplied(s).value
  }

  // ------------------------------------------------------------------- steps

  lemma WriteKeepsView(f: Files, s: State, m: Model, ops: seq<Op>)
    requires Shape(f, s) && View(f, s, m) && Enabled(f, s, Write(ops))
    ensures View(f, Next(f, s, Write(ops)), m)
  {
    hide EntryView;
    var s' := Next(f, s, Write(ops));
    assert forall k :: |s.flight| <= k < |s'.flight| ==> s'.flight[k] == Written(ops[k - |s.flight|], s.activeAppend);
  }

  lemma AppendKeepsLog(f: Files, t: Table, log: map<nat, Bytes>, es: seq<EntryIndex>)
    requires t.Valid() && ShowsLog(f, t, log)
    requires |es| > 0 && Consecutive(es) && Accepts(t, es[0].index, false, false)
    ensures ShowsLog(f, Appended(t, es), Overwrite(log, es[0].index, Contents(f, es)))
  {
    hide Overwrite, Appended, Contents;
    AppendedShape(t, es);
    var t', log' := Appended(t, es), Overwrite(log, es[0].index, Contents(f, es));
    forall i: nat
      ensures i in log' <==> t'.Has(i)
      ensures t'.Has(i) ==> f.content(t'.At(i)) == log'[i]
    {
      assert i < es[0].index && t'.Has(i) ==> t.Has(i) && t'.At(i) == t.At(i);
      assert i < es[0].index && t.Has(i) ==> t'.Has(i);
    }
  }

  lemma AppendKeepsPassView(f: Files, t: Table, p: Phase, es: seq<EntryIndex>, file: FileSeq)
    requires p.Pass? && t.Valid() && PassView(f, t, p) && (p.gate.Some? ==> p.gate.value < file)
    requires |es| > 0 && Consecutive(es) && AllIn(es, FileId(AppendQueue, file))
    requires Accepts(t, es[0].index, false, false)
    ensures PassView(f, Appended(t, es), p.(low := Min(p.low, es[0].index)))
  {
    hide Appended;
    AppendedShape(t, es);
    var t' := Appended(t, es);
    forall i: nat | t'.Has(i)
      ensures i < es[0].index ==> t.Has(i) && t'.At(i) == t.At(i)
      ensures i >= es[0].index ==> t'.At(i).block.id == FileId(AppendQueue, file)
    {
    }
  }

  /** An applied item says the same to the table and to the simple log. */
  lemma ApplyKeepsEntryView(f: Files, t: Table, p: Phase, m: Model, w: Written)
    requires t.Valid() && EntryView(f, t, p, m.log) && Recorded(f, w.op, w.file)
    requires w.op.Entries? ==> Accepts(t, w.op.es[0].index, false, false)
    requires w.op.Entries? || w.op.Compact?
    requires p.Pass? && p.gate.Some? ==> p.gate.value < w.file
    ensures EntryView(f, Applied(t, w), if p.Pass? then p.(low := LowAfter(p.low, w.op)) else Idle, Said(f, m, w.op).log)
  {
    hide Appended, CompactTo, Overwrite;
    match w.op
    case Entries(es) =>
      AppendKeepsLog(f, t, m.log, es);
      if p.Pass? {
        AppendKeepsPassView(f, t, p, es, w.file);
      }
    case Compact(index) => CompactShape(t, index);
  }

  lemma ApplyKeepsView(f: Files, s: State, m: Model)
    requires Shape(f, s) && View(f, s, m) && Enabled(f, s, ApplyNext)
    ensures View(f, Next(f, s, ApplyNext), NextModel(f, s, m, ApplyNext))
  {
    hide EntryView, EntryShape, Applied, Accepts, Said;
    var s' := Next(f, s, ApplyNext);
    assert forall k :: 0 <= k < |s'.flight| ==> s'.flight[k] == s.flight[k + 1];
    assert KeyView(f, s', Said(f, m, s.flight[0].op).keys) by { ApplyKeepsKeyView(f, s, m); }
    assert EntryView(f, Bare(s'.t), BarePhase(s'.phase), Said(f, m, s.flight[0].op).log) by { ApplyKeepsBareView(f, s, m); }
  }

  lemma ApplyKeepsBareView(f: Files, s: State, m: Model)
    requires Shape(f, s) && View(f, s, m) && Enabled(f, s, ApplyNext)
    ensures var s' := Next(f, s, ApplyNext);
            EntryView(f, Bare(s'.t), BarePhase(s'.phase), Said(f, m, s.flight[0].op).log)
  {
    hide EntryView, EntryShape, Applied;
    var w := s.flight[0];
    BareApply(s.t, w);
    BareValid(s.t);
    if w.op.Entries? || w.op.Compact? {
      ApplyKeepsEntryView(f, Bare(s.t), BarePhase(s.phase), m, w);
    }
  }

  lemma ApplyKeepsKeyView(f: Files, s: State, m: Model)
    requires Shape(f, s) && View(f, s, m) && Enabled(f, s, ApplyNext)
    ensures KeyView(f, Next(f, s, ApplyNext), Said(f, m, s.flight[0].op).keys)
  {
    hide EntryView, EntryShape, Applied, Overwrite, Accepts, KeyView;
    var w, s' := s.flight[0], Next(f, s, ApplyNext);
    BareApply(s.t, w);
    if w.op.Entries? || w.op.Compact? {
      SameKeyView(f, s, s', m.keys);
    } else {
      KeyOpKeepsView(f, s, m);
    }
  }

  lemma SameKeyView(f: Files, s: State, s': State, keys: map<Bytes, Bytes>)
    requires KeyView(f, s, keys) && s'.t.kvs == s.t.kvs
    requires s'.phase.Pass? ==> s.phase.Pass? && s'.phase.gate == s.phase.gate && s'.phase.keys == s.phase.keys
    ensures KeyView(f, s', keys)
  {
  }

  lemma KeyOpKeepsView(f: Files, s: State, m: Model)
    requires s.t.rewriteCount <= |s.t.entries| && Enabled(f, s, ApplyNext) && KeyView(f, s, m.keys) && FlightClear(s)
    requires Recorded(f, s.flight[0].op, s.flight[0].file) && (s.flight[0].op.PutKey? || s.flight[0].op.DeleteKey?)
    ensures KeyView(f, Next(f, s, ApplyNext), Said(f, m, s.flight[0].op).keys)
  {
    hide Appended, CompactTo, Overwrite;
    var s' := Next(f, s, ApplyNext);
    assert Said(f, m, s.flight[0].op).keys == map k | k in s'.t.kvs :: s'.t.kvs[k].value;
  }

  /** Right after a fetch, pending is what the table holds. */
  lemma FetchShowsPass(f: Files, t: Table, p: Phase)
    requires t.Valid() && p.Pass? && p.low == t.End() && t.first <= p.next <= p.next + |p.pending| <= t.End()
    requires forall k :: 0 <= k < |p.pending| ==> p.pending[k].loc == t.At(p.next + k)
    ensures PassView(f, t, p)
  {
    forall i: nat | p.next <= i < p.next + |p.pending| && t.Has(i)
      ensures p.pending[i - p.next].loc == t.At(i)
    {
      assert p.pending[i - p.next].loc == t.At(p.next + (i - p.next));
    }
  }

  lemma FetchedInView(f: Files, t: Table, gate: Option<FileSeq>, start: FileSeq)
    requires t.Valid()
    ensures PassView(f, t, Fetched(t, gate, start))
  {
    hide PassView, FetchedEntries, Replaceable;
    FetchIsRun(t, gate);
    FetchShowsPass(f, t, Fetched(t, gate, start));
  }

  lemma BarePassView(f: Files, t: Table, p: Phase)
    requires p.Pass? && PassView(f, t, p)
    ensures PassView(f, Bare(t), p)
  {
    hide Replaceable;
    var b := Bare(t);
    assert forall i: nat :: b.Has(i) <==> t.Has(i);
    assert forall i: nat :: t.Has(i) ==> b.At(i) == t.At(i);
  }

  lemma BeginKeepsView(f: Files, s: State, m: Model, step: Step)
    requires Shape(f, s) && View(f, s, m) && Enabled(f, s, step) && (step.BeginGated? || step.BeginSqueeze?)
    requires ClearFetch(s, step)
    ensures View(f, Next(f, s, step), m)
  {
    hide FetchedBefore, FetchedRewritten, FetchedKeys, EntryShape, PassView, KeyView, ShowsLog;
    var s' := Next(f, s, step);
    var gate := if step.BeginGated? then Some(step.gate) else None;
    FetchedInView(f, s.t, gate, s'.phase.start);
    BarePassView(f, s.t, Fetched(s.t, gate, s'.phase.start));
    assert BarePhase(s'.phase) == Fetched(s.t, gate, s'.phase.start);
    BeginKeepsKeyView(f, s, m, step);
    assert FlightClear(s');
  }

  lemma BeginKeepsKeyView(f: Files, s: State, m: Model, step: Step)
    requires s.t.Valid() && KeyView(f, s, m.keys) && Enabled(f, s, step) && (step.BeginGated? || step.BeginSqueeze?)
    ensures KeyView(f, Next(f, s, step), m.keys)
  {
    hide FetchedBefore, FetchedRewritten;
  }

  lemma ChunkKeepsLog(f: Files, t: Table, p: Phase, log: map<nat, Bytes>, rw: seq<EntryIndex>, file: FileSeq)
    requires p.Pass? && t.Valid() && PassShape(t, p) && PassView(f, t, p) && ShowsLog(f, t, log)
    requires CopiesOf(f, rw, p.pending, file) && CanRewrite(t, rw, p.gate)
    ensures ShowsLog(f, Rewritten(t, rw, p.gate), log)
  {
    var t' := Rewritten(t, rw, p.gate);
    forall i: nat | t.Has(i)
      ensures f.content(t'.At(i)) == f.content(t.At(i))
    {
      ChunkRange(f, t, p, rw, file, i);
    }
  }

  lemma ChunkKeepsPassView(f: Files, t: Table, p: Phase, rw: seq<EntryIndex>, file: FileSeq)
    requires p.Pass? && t.Valid() && PassShape(t, p) && PassView(f, t, p)
    requires CopiesOf(f, rw, p.pending, file) && CanRewrite(t, rw, p.gate)
    ensures PassView(f, Rewritten(t, rw, p.gate), AfterChunk(p, |rw|))
  {
    hide Rewritten, CanRewrite;
    var t', p' := Rewritten(t, rw, p.gate), AfterChunk(p, |rw|);
    assert forall k :: 0 <= k < |p'.pending| ==> p'.pending[k] == p.pending[k + |rw|];
    forall i: nat | t'.Has(i)
      ensures p'.next <= i ==> t'.At(i) == t.At(i)
      ensures p.gate.Some? && i >= p.low ==> t'.At(i) == t.At(i)
    {
      ChunkRange(f, t, p, rw, file, i);
    }
  }

  lemma ChunkKeepsView(f: Files, s: State, m: Model, rw: seq<EntryIndex>, file: FileSeq)
    requires Shape(f, s) && View(f, s, m) && Enabled(f, s, ApplyChunk(rw, file))
    ensures View(f, Next(f, s, ApplyChunk(rw, file)), m)
  {
    hide Rewritten, RewriteLo, CanRewrite;
    BareValid(s.t);
    BareRewrite(s.t, rw, s.phase.gate);
    ChunkKeepsLog(f, Bare(s.t), BarePhase(s.phase), m.log, rw, file);
    ChunkKeepsPassView(f, Bare(s.t), BarePhase(s.phase), rw, file);
  }

  /** A rewritten key keeps its value and points at a file that records it. */
  lemma KeyStepKeepsView(f: Files, s: State, m: Model, key: Bytes, file: FileSeq)
    requires Shape(f, s) && View(f, s, m) && Enabled(f, s, ApplyKey(key, file))
    ensures View(f, Next(f, s, ApplyKey(key, file)), m)
  {
    hide EntryView, EntryShape;
    var s' := Next(f, s, ApplyKey(key, file));
    assert Bare(s'.t) == Bare(s.t);
    assert m.keys == map k | k in s'.t.kvs :: s'.t.kvs[k].value;
  }

  lemma StepKeepsView(f: Files, s: State, m: Model, step: Step)
    requires Shape(f, s) && View(f, s, m) && Enabled(f, s, step) && ClearFetch(s, step)
    ensures View(f, Next(f, s, step), NextModel(f, s, m, step))
  {
    match step
    case Rotate(file) =>
    case Write(ops) => WriteKeepsView(f, s, m, ops);
    case ApplyNext => ApplyKeepsView(f, s, m);
    case BeginGated(_) => BeginKeepsView(f, s, m, step);
    case BeginSqueeze => BeginKeepsView(f, s, m, step);
    case ApplyChunk(rw, file) => ChunkKeepsView(f, s, m, rw, file);
    case ApplyKey(key, file) => KeyStepKeepsView(f, s, m, key, file);
    case MarkGroup(from, to) => assert Bare(Next(f, s, step).t) == Bare(s.t);
    case EndPass =>
    case AbandonPass =>
  }
}
