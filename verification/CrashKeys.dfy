/**
 What a restart needs to know about the keys of a region, next to what it needs about the entries,
 and that every step keeps it.
 */
module CrashKeys {
  import opened PipeLog
  import opened Tables
  import opened RecordLog
  import opened OpLogs
  import opened CrashRegions
  import E = CrashRecovery
  import CE = CrashEntries
  import RP = RewritePass
  import RV = RewriteView

  ghost function ShownKeys(t: Table): map<Bytes, Bytes> { map k | k in t.kvs :: t.kvs[k].value }

  /** The live table is in shape, and shows what it shows throughout a pass. */
  ghost predicate CoreOk(f: RP.Files, c: RP.State) {
    && RP.Shape(f, c) && RV.View(f, c, RP.Model(E.Shown(f, c.t), ShownKeys(c.t)))
    && c.t.group == None && Plain(c.flight)
  }

  /** The logs are in order of files, and their pairs are recorded there. */
  ghost predicate LogsOk(f: RP.Files, s: Region) {
    && Plain(s.alog) && Plain(s.rlog)
    && OpsInOrder(AppendLog(s), s.core.activeAppend) && OpsInOrder(s.rlog, s.core.activeRewrite)
    && PutsRecorded(f, AppendLog(s), AppendQueue) && PutsRecorded(f, s.rlog, RewriteQueue)
    && s.appendMin <= RP.Oldest(s.core)
    && (s.core.phase.Pass? && s.core.phase.gate.None? && !s.done && !s.keysOut ==>
          s.core.phase.start > 0 && OpsInOrder(s.rlog, s.core.phase.start - 1))
  }

  /** The pairs go out with the last entries. */
  predicate PassOut(s: Region) {
    s.keysOut ==> s.core.phase.Pass? && |s.written| == |s.core.phase.pending|
  }

  /** One key, in the table and on disk. */
  ghost predicate KeyOk(s: Region, k: Bytes) {
    var kvs, a, r := s.core.t.kvs, KeyLookup(s.alog, AppendQueue, k), KeyLookup(s.rlog, RewriteQueue, k);
    && (a.Some? <==> k in kvs)
    && (r.Some? ==> k in kvs)
    && (k in kvs ==>
          && a.value.value == kvs[k].value
          && (kvs[k].id.queue == AppendQueue ==> a.value == kvs[k] && s.appendMin <= kvs[k].id.seqno)
          && (kvs[k].id.queue == RewriteQueue ==>
                r.Some? && r.value.value == kvs[k].value && s.rewriteMin <= kvs[k].id.seqno <= r.value.id.seqno))
    && (s.core.phase.Pass? && k in s.core.phase.keys ==>
          && k in kvs
          && (s.keysOut ==> r == Some(Slot(s.core.phase.keys[k], FileId(RewriteQueue, s.core.activeRewrite)))))
  }

  ghost predicate KeysOk(s: Region) { forall k :: KeyOk(s, k) }

  ghost predicate Inv(f: RP.Files, s: Region) {
    CoreOk(f, s.core) && E.Inv(f, EntrySide(s)) && LogsOk(f, s) && PassOut(s) && KeysOk(s)
  }

  predicate ClearFetch(s: Region, step: Step) {
    step.Begin? ==> RV.ClearFetch(s.core, E.BeginStep(step.gate))
  }

  // -------------------------------------------------------------------- the core

  /** The step of the live table a step takes, if any. */
  function CoreStepOf(s: Region, step: Step): Option<RP.Step> {
    match step
    case Rotate(file) => Some(RP.Rotate(file))
    case Write(op) => Some(RP.Write([op]))
    case ApplyNext => Some(RP.ApplyNext)
    case Begin(gate) => Some(E.BeginStep(gate))
    case ApplyWritten => Some(RP.ApplyChunk(s.written, s.core.activeRewrite))
    case ApplyKey(key) => Some(RP.ApplyKey(key, s.core.activeRewrite))
    case Finish => Some(RP.EndPass)
    case Abandon => Some(RP.AbandonPass)
    case _ => None
  }

  /** The view says which log and keys the table shows. */
  lemma ViewIs(f: RP.Files, c: RP.State, m: RP.Model)
    requires RV.View(f, c, m)
    ensures m == RP.Model(E.Shown(f, c.t), ShownKeys(c.t))
  {
    var t := c.t;
    assert forall i: nat :: RP.Bare(t).Has(i) <==> t.Has(i);
    assert forall i: nat :: t.Has(i) ==> RP.Bare(t).At(i) == t.At(i);
    assert m.log == E.Shown(f, t);
  }

  lemma NoMarkGroup(f: RP.Files, c: RP.State, step: RP.Step)
    requires c.t.rewriteCount <= |c.t.entries| && RP.Enabled(f, c, step) && !step.MarkGroup?
    requires c.t.group == None && Plain(c.flight)
    requires step.Write? ==> |step.ops| == 1 && (step.ops[0].PutKey? || step.ops[0].Entries?)
    ensures RP.Next(f, c, step).t.group == None && Plain(RP.Next(f, c, step).flight)
  {
    var c' := RP.Next(f, c, step);
    if step.ApplyNext? {
      assert forall j :: 0 <= j < |c'.flight| ==> c'.flight[j] == c.flight[j + 1];
    } else if step.Write? {
      assert RP.Recorded(f, step.ops[0], c.activeAppend);
    }
  }

  lemma CoreStep(f: RP.Files, c: RP.State, step: RP.Step)
    requires CoreOk(f, c) && RP.Enabled(f, c, step) && RV.ClearFetch(c, step) && !step.MarkGroup?
    requires step.Write? ==> |step.ops| == 1 && (step.ops[0].PutKey? || step.ops[0].Entries?)
    ensures CoreOk(f, RP.Next(f, c, step))
  {
    hide RV.View, RP.EntryShape, RP.FlightOk, RP.KeyShape, RP.Enabled, RP.Next, RV.NextModel, RV.ClearFetch, E.Shown;
    var m := RP.Model(E.Shown(f, c.t), ShownKeys(c.t));
    RP.StepKeepsShape(f, c, step);
    RV.StepKeepsView(f, c, m, step);
    ViewIs(f, RP.Next(f, c, step), RV.NextModel(f, c, m, step));
    NoMarkGroup(f, c, step);
  }

  lemma BumpKeepsCore(f: RP.Files, c: RP.State, file: FileSeq)
    requires CoreOk(f, c) && c.activeRewrite <= file
    ensures CoreOk(f, c.(activeRewrite := file))
  {
    hide RP.PassShape, PartsSorted, RP.FlightOk, RV.EntryView;
    RP.EntriesBoundedMonotone(RP.Bare(c.t), RP.Oldest(c), c.activeRewrite, RP.Oldest(c), file);
  }

  lemma StepKeepsCore(f: RP.Files, s: Region, step: Step)
    requires CoreOk(f, s.core) && Enabled(f, s, step) && ClearFetch(s, step) && !step.Restart?
    ensures CoreOk(f, Next(f, s, step).core)
  {
    hide CoreOk, RP.Enabled, RP.Next, E.SafeMin, RP.CopiesOf, EntryRecords, RP.KnownSorted;
    var cs := CoreStepOf(s, step);
    if cs.Some? {
      CoreStep(f, s.core, cs.value);
    } else if step.WriteChunk? || step.WriteKeys? {
      BumpKeepsCore(f, s.core, step.file);
    }
  }

  // ---------------------------------------------------------------------- the logs

  lemma OpsSnoc(log: seq<RP.Written>, w: RP.Written, active: FileSeq)
    requires OpsInOrder(log, active) && active <= w.file
    ensures OpsInOrder(log + [w], w.file)
  {
  }

  lemma OpsConcat(a: seq<RP.Written>, b: seq<RP.Written>, low: FileSeq, active: FileSeq)
    requires OpsInOrder(a, low) && OpsInOrder(b, active) && low <= active
    requires forall j :: 0 <= j < |b| ==> low <= b[j].file
    ensures OpsInOrder(a + b, active)
  {
  }

  lemma WriteKeepsLogs(f: RP.Files, s: Region, op: RP.Op)
    requires s.core.t.Valid() && LogsOk(f, s) && Enabled(f, s, Write(op))
    ensures LogsOk(f, Next(f, s, Write(op)))
  {
    hide EntryRecords, E.Fits;
    var w := RP.Written(op, s.core.activeAppend);
    var s' := Next(f, s, Write(op));
    assert s'.core.flight == s.core.flight + [w];
    assert AppendLog(s') == AppendLog(s) + [w];
    OpsSnoc(AppendLog(s), w, s.core.activeAppend);
    assert RP.Recorded(f, [op][0], s.core.activeAppend);
  }

  lemma ApplyKeepsLogs(f: RP.Files, s: Region)
    requires s.core.t.Valid() && LogsOk(f, s) && Plain(s.core.flight) && Enabled(f, s, ApplyNext)
    ensures LogsOk(f, Next(f, s, ApplyNext)) && AppendLog(Next(f, s, ApplyNext)) == AppendLog(s)
  {
    hide RP.Applied, Accepts, OpsInOrder, PutsRecorded;
    var s', w := Next(f, s, ApplyNext), s.core.flight[0];
    assert s.core.flight == [w] + s.core.flight[1..];
    assert AppendLog(s') == AppendLog(s);
    OldestGrows(s.alog, s.core.flight, s.core.activeAppend);
    assert RP.Oldest(s.core) <= RP.Oldest(s'.core);
  }

  lemma OldestGrows(log: seq<RP.Written>, flight: seq<RP.Written>, active: FileSeq)
    requires OpsInOrder(log + flight, active) && |flight| > 0
    ensures flight[0].file <= if |flight| > 1 then flight[1].file else active
  {
    var all := log + flight;
    assert all[|log|] == flight[0];
    if |flight| > 1 {
      assert all[|log| + 1] == flight[1];
    }
  }

  lemma EntryOps(f: RP.Files, log: seq<RP.Written>, g: seq<Record>)
    requires Plain(log) && PutsRecorded(f, log, RewriteQueue) && forall k :: 0 <= k < |g| ==> |g[k].es| > 0
    ensures Plain(log + OpsOf(g)) && PutsRecorded(f, log + OpsOf(g), RewriteQueue)
  {
  }

  lemma ChunkKeepsLogs(f: RP.Files, s: Region, rw: seq<EntryIndex>, file: FileSeq)
    requires s.core.t.Valid() && E.Inv(f, EntrySide(s)) && LogsOk(f, s) && PassOut(s) && Enabled(f, s, WriteChunk(rw, file))
    ensures !s.keysOut && LogsOk(f, Next(f, s, WriteChunk(rw, file)))
  {
    hide LogsOk, E.Inv, EntrySide, Enabled, Next, PassOut, RP.CopiesOf;
    ChunkIsSome(f, s, rw, file);
    if s.core.phase.gate.Some? {
      GatedKeepsLogs(f, s, rw, file);
    } else {
      GroupFiles(f, s);
      SqueezeKeepsLogs(f, s, rw, file);
    }
  }

  lemma GatedKeepsLogs(f: RP.Files, s: Region, rw: seq<EntryIndex>, file: FileSeq)
    requires s.core.t.Valid() && LogsOk(f, s) && Enabled(f, s, WriteChunk(rw, file)) && s.core.phase.gate.Some?
    requires |rw| > 0 && s.core.activeRewrite <= file
    ensures LogsOk(f, Next(f, s, WriteChunk(rw, file)))
  {
    hide RP.CopiesOf, EntryRecords, PutsRecorded, Plain, OpsInOrder;
    var s', rec := Next(f, s, WriteChunk(rw, file)), Record(file, rw);
    assert AppendLog(s') == AppendLog(s);
    EntryOps(f, s.rlog, [rec]);
    OneInOrder(s.rlog, rec, s.core.activeRewrite);
  }

  lemma OneInOrder(log: seq<RP.Written>, rec: Record, active: FileSeq)
    requires OpsInOrder(log, active) && active <= rec.file
    ensures OpsInOrder(log + OpsOf([rec]), rec.file)
  {
  }

  lemma SqueezeKeepsLogs(f: RP.Files, s: Region, rw: seq<EntryIndex>, file: FileSeq)
    requires s.core.t.Valid() && LogsOk(f, s) && Enabled(f, s, WriteChunk(rw, file)) && s.core.phase.gate.None?
    requires |rw| > 0 && s.core.activeRewrite <= file && !s.done && !s.keysOut && s.core.phase.start <= s.core.activeRewrite
    requires forall j :: 0 <= j < |s.group| ==> s.core.phase.start <= s.group[j].file <= s.core.activeRewrite && |s.group[j].es| > 0
    requires forall j, k :: 0 <= j < k < |s.group| ==> s.group[j].file <= s.group[k].file
    ensures LogsOk(f, Next(f, s, WriteChunk(rw, file)))
  {
    hide RP.CopiesOf, EntryRecords, PutsRecorded, Plain;
    var s', g := Next(f, s, WriteChunk(rw, file)), s.group + [Record(file, rw)];
    assert AppendLog(s') == AppendLog(s);
    EntryOps(f, s.rlog, g);
    GroupInOrder(s.rlog, g, s.core.phase.start - 1, file);
  }

  lemma GroupInOrder(log: seq<RP.Written>, g: seq<Record>, low: FileSeq, file: FileSeq)
    requires OpsInOrder(log, low) && low <= file
    requires forall j :: 0 <= j < |g| ==> low <= g[j].file <= file
    requires forall j, k :: 0 <= j < k < |g| ==> g[j].file <= g[k].file
    ensures OpsInOrder(log + OpsOf(g), file)
  {
    OpsConcat(log, OpsOf(g), low, file);
  }

  lemma ChunkIsSome(f: RP.Files, s: Region, rw: seq<EntryIndex>, file: FileSeq)
    requires s.core.t.Valid() && PassOut(s) && Enabled(f, s, WriteChunk(rw, file))
    ensures s.core.phase.Pass? && s.written == [] && !s.keysOut
    ensures 0 < |rw| <= |s.core.phase.pending| && s.core.activeRewrite <= file
  {
  }

  /** The batches of an unfinished squeeze are in its own files. */
  lemma GroupFiles(f: RP.Files, s: Region)
    requires E.Inv(f, EntrySide(s)) && s.core.phase.Pass? && s.core.phase.gate.None?
    requires s.written == [] && |s.core.phase.pending| > 0
    ensures !s.done && 0 < s.core.phase.start <= s.core.activeRewrite
    ensures forall j :: 0 <= j < |s.group| ==> s.core.phase.start <= s.group[j].file <= s.core.activeRewrite && |s.group[j].es| > 0
    ensures forall j, k :: 0 <= j < k < |s.group| ==> s.group[j].file <= s.group[k].file
  {
    hide EntryRecords, E.HistoryOk, E.LogOk, E.RegionOk, RP.EntryShape, RV.View;
    var e := EntrySide(s);
    assert E.SqueezeDisk(e);
    assert RP.PhaseShape(e.core);
  }

  lemma KeysKeepLogs(f: RP.Files, s: Region, kvs: seq<RP.Op>, file: FileSeq)
    requires s.core.t.Valid() && LogsOk(f, s) && Enabled(f, s, WriteKeys(kvs, file))
    ensures LogsOk(f, Next(f, s, WriteKeys(kvs, file)))
  {
    var s' := Next(f, s, WriteKeys(kvs, file));
    assert AppendLog(s') == AppendLog(s);
    OpsConcat(s.rlog, RP.InFile(kvs, file), s.core.activeRewrite, file);
  }

  /** The steps that write nothing. */
  lemma OtherKeepsLogs(f: RP.Files, s: Region, step: Step)
    requires s.core.t.Valid() && LogsOk(f, s) && Enabled(f, s, step)
    requires !step.Write? && !step.ApplyNext? && !step.WriteChunk? && !step.WriteKeys? && !step.Restart?
    ensures LogsOk(f, Next(f, s, step))
  {
    hide EntryRecords, PutsRecorded, Plain, MinFileSeq, FetchedBefore, FetchedRewritten, RP.FetchedKeys, Rewritten, CanRewrite, RP.CopiesOf, PairsOf, Accepts, RP.Recorded, E.Fits, Rebuilt, CutsOf;
    var s' := Next(f, s, step);
    assert AppendLog(s') == AppendLog(s);
  }

  lemma StepKeepsLogs(f: RP.Files, s: Region, step: Step)
    requires Inv(f, s) && Enabled(f, s, step) && !step.Restart?
    ensures LogsOk(f, Next(f, s, step))
  {
    hide LogsOk, KeysOk, E.Inv, RV.View, Next, Enabled;
    match step
    case Write(op) => WriteKeepsLogs(f, s, op);
    case ApplyNext => ApplyKeepsLogs(f, s);
    case WriteChunk(rw, file) => ChunkKeepsLogs(f, s, rw, file);
    case WriteKeys(kvs, file) => KeysKeepLogs(f, s, kvs, file);
    case _ => OtherKeepsLogs(f, s, step);
  }

  lemma StepKeepsOut(f: RP.Files, s: Region, step: Step)
    requires s.core.t.Valid() && PassOut(s) && Enabled(f, s, step)
    ensures PassOut(Next(f, s, step))
  {
    hide EntryRecords, MinFileSeq, FetchedBefore, FetchedRewritten, RP.FetchedKeys, Rewritten, CanRewrite, RP.Applied, Accepts, PairsOf, Rebuilt, CutsOf;
  }

  // ---------------------------------------------------------------------- the keys

  lemma ApplyKeepsKey(f: RP.Files, s: Region, k: Bytes)
    requires s.core.t.Valid() && Plain(s.core.flight) && LogsOk(f, s) && KeyOk(s, k) && Enabled(f, s, ApplyNext)
    ensures KeyOk(Next(f, s, ApplyNext), k)
  {
    hide KeyLookup, LogsOk, Appended, CompactTo, Accepts;
    var w := s.core.flight[0];
    KeySnoc(s.alog, w, AppendQueue, k);
    RP.BareApply(s.core.t, w);
    assert s.appendMin <= w.file by { NextIsKept(f, s); }
  }

  lemma NextIsKept(f: RP.Files, s: Region)
    requires LogsOk(f, s) && |s.core.flight| > 0
    ensures s.appendMin <= s.core.flight[0].file
  {
  }

  lemma BeginKeepsKey(f: RP.Files, s: Region, gate: Option<FileSeq>, k: Bytes)
    requires s.core.t.Valid() && KeyOk(s, k) && Enabled(f, s, Begin(gate))
    ensures KeyOk(Next(f, s, Begin(gate)), k)
  {
    hide KeyLookup, FetchedBefore, FetchedRewritten;
  }

  lemma {:induction false} EntriesHaveNoKey(g: seq<Record>, queue: LogQueue, k: Bytes)
    ensures KeyLookup(OpsOf(g), queue, k) == None
    decreases |g|
  {
    if |g| > 0 {
      EntriesHaveNoKey(g[..|g| - 1], queue, k);
      assert OpsOf(g)[..|g| - 1] == OpsOf(g[..|g| - 1]);
    }
  }

  lemma ChunkKeepsKey(f: RP.Files, s: Region, rw: seq<EntryIndex>, file: FileSeq, k: Bytes)
    requires s.core.t.Valid() && KeyOk(s, k) && PassOut(s) && Enabled(f, s, WriteChunk(rw, file))
    ensures KeyOk(Next(f, s, WriteChunk(rw, file)), k)
  {
    hide KeyLookup, RP.CopiesOf, EntryRecords;
    ChunkIsSome(f, s, rw, file);
    var one, all := [Record(file, rw)], s.group + [Record(file, rw)];
    EntriesHaveNoKey(one, RewriteQueue, k);
    EntriesHaveNoKey(all, RewriteQueue, k);
    KeyConcat(s.rlog, OpsOf(one), RewriteQueue, k);
    KeyConcat(s.rlog, OpsOf(all), RewriteQueue, k);
  }

  /** The batch of pairs says of every key of the pass what the pass fetched, and nothing of others. */
  lemma {:induction false} PairsLookup(kvs: seq<RP.Op>, keys: map<Bytes, Bytes>, file: FileSeq, n: nat, k: Bytes)
    requires n <= |kvs|
    requires forall j :: 0 <= j < |kvs| ==> kvs[j].PutKey? && kvs[j].key in keys && kvs[j].value == keys[kvs[j].key]
    ensures var r := KeyLookup(RP.InFile(kvs[..n], file), RewriteQueue, k);
            && (r.Some? <==> exists j :: 0 <= j < n && kvs[j].key == k)
            && (r.Some? ==> k in keys && r.value == Slot(keys[k], FileId(RewriteQueue, file)))
    decreases n
  {
    if n > 0 {
      PairsLookup(kvs, keys, file, n - 1, k);
      assert RP.InFile(kvs[..n], file)[..n - 1] == RP.InFile(kvs[..n - 1], file);
    }
  }

  lemma PairsAre(f: RP.Files, kvs: seq<RP.Op>, keys: map<Bytes, Bytes>, file: FileSeq, k: Bytes)
    requires PairsOf(f, kvs, keys, file)
    ensures KeyLookup(RP.InFile(kvs, file), RewriteQueue, k) ==
            if k in keys then Some(Slot(keys[k], FileId(RewriteQueue, file))) else None
  {
    hide KeyLookup;
    PairsLookup(kvs, keys, file, |kvs|, k);
    assert kvs[..|kvs|] == kvs;
  }

  /** A key the pass fetched and that is still in the rewrite queue has the fetched value. */
  lemma FetchedIsCurrent(f: RP.Files, c: RP.State, k: Bytes)
    requires CoreOk(f, c) && c.phase.Pass? && k in c.phase.keys && k in c.t.kvs
    requires c.t.kvs[k].id.queue == RewriteQueue || (c.phase.gate.Some? && c.t.kvs[k].id.seqno <= c.phase.gate.value)
    ensures c.t.kvs[k].value == c.phase.keys[k]
  {
    assert RV.KeyReplaceable(c.t.kvs[k].id, c.phase.gate);
  }

  lemma SlotBounded(f: RP.Files, c: RP.State, k: Bytes)
    requires CoreOk(f, c) && k in c.t.kvs
    ensures c.t.kvs[k].id.queue == RewriteQueue ==> c.t.kvs[k].id.seqno <= c.activeRewrite
    ensures c.phase.Pass? && c.phase.gate.Some? && k in c.phase.keys ==> c.t.kvs[k].id.queue == AppendQueue
  {
  }

  lemma KeysKeepKey(f: RP.Files, s: Region, kvs: seq<RP.Op>, file: FileSeq, k: Bytes)
    requires CoreOk(f, s.core) && KeyOk(s, k) && Enabled(f, s, WriteKeys(kvs, file))
    ensures KeyOk(Next(f, s, WriteKeys(kvs, file)), k)
  {
    hide KeyLookup, CoreOk, EntryRecords;
    PairsAre(f, kvs, s.core.phase.keys, file, k);
    KeyConcat(s.rlog, RP.InFile(kvs, file), RewriteQueue, k);
    if k in s.core.t.kvs {
      SlotBounded(f, s.core, k);
      if k in s.core.phase.keys && s.core.t.kvs[k].id.queue == RewriteQueue {
        FetchedIsCurrent(f, s.core, k);
      }
    }
  }

  lemma ApplyKeyKeepsKey(f: RP.Files, s: Region, key: Bytes, k: Bytes)
    requires CoreOk(f, s.core) && KeyOk(s, k) && Enabled(f, s, ApplyKey(key)) && s.rewriteMin <= s.core.activeRewrite
    ensures KeyOk(Next(f, s, ApplyKey(key)), k)
  {
    hide KeyLookup, CoreOk, EntryRecords;
    if k == key {
      SlotBounded(f, s.core, k);
      var id := s.core.t.kvs[k].id;
      if id.queue == RewriteQueue || (s.core.phase.gate.Some? && id.seqno <= s.core.phase.gate.value) {
        FetchedIsCurrent(f, s.core, k);
      }
    }
  }

  lemma PurgeKeepsKey(f: RP.Files, s: Region, step: Step, k: Bytes)
    requires s.core.t.Valid() && KeyOk(s, k) && Enabled(f, s, step) && (step.PurgeAppend? || step.PurgeRewrite?)
    requires s.core.t.group == None
    ensures KeyOk(Next(f, s, step), k)
  {
    hide KeyLookup, EntryRecords;
    var t := s.core.t;
    if k in t.kvs {
      var queue := t.kvs[k].id.queue;
      assert t.kvs[k].id.seqno in FrontSeqs(t, queue);
    }
  }

  /** The steps that touch neither the keys of the table nor the logs. */
  lemma OtherKeepsKey(f: RP.Files, s: Region, step: Step, k: Bytes)
    requires s.core.t.Valid() && KeyOk(s, k) && Enabled(f, s, step)
    requires step.Rotate? || step.Write? || step.ApplyWritten? || step.Finish? || step.Abandon?
    ensures KeyOk(Next(f, s, step), k)
  {
    hide KeyLookup, EntryRecords, CanRewrite, RP.Recorded, E.Fits, RP.CopiesOf, RewriteStop;
  }

  lemma StepKeepsKeys(f: RP.Files, s: Region, step: Step)
    requires Inv(f, s) && Enabled(f, s, step) && !step.Restart?
    ensures KeysOk(Next(f, s, step))
  {
    hide KeyOk, LogsOk, Enabled, Next;
    SidePurged(f, s);
    forall k
      ensures KeyOk(Next(f, s, step), k)
    {
      assert KeyOk(s, k);
      StepKeepsKey(f, s, step, k);
    }
  }

  lemma SidePurged(f: RP.Files, s: Region)
    requires E.Inv(f, EntrySide(s))
    ensures s.rewriteMin <= s.core.activeRewrite
  {
  }

  lemma StepKeepsKey(f: RP.Files, s: Region, step: Step, k: Bytes)
    requires CoreOk(f, s.core) && LogsOk(f, s) && PassOut(s) && KeyOk(s, k)
    requires Enabled(f, s, step) && !step.Restart? && s.rewriteMin <= s.core.activeRewrite
    ensures KeyOk(Next(f, s, step), k)
  {
    hide KeyOk, LogsOk, Enabled, Next, PassOut, RV.View;
    match step
    case ApplyNext => ApplyKeepsKey(f, s, k);
    case Begin(gate) => BeginKeepsKey(f, s, gate, k);
    case WriteChunk(rw, file) => ChunkKeepsKey(f, s, rw, file, k);
    case WriteKeys(kvs, file) => KeysKeepKey(f, s, kvs, file, k);
    case ApplyKey(key) => ApplyKeyKeepsKey(f, s, key, k);
    case PurgeAppend(_) => PurgeKeepsKey(f, s, step, k);
    case PurgeRewrite(_) => PurgeKeepsKey(f, s, step, k);
    case _ => OtherKeepsKey(f, s, step, k);
  }
}
