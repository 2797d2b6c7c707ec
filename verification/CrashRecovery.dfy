/**
 Crash recovery of the entries of one raft group whose history is appends, overwrites included. The
 keys come in `CrashRegion`.

 Batches are written to the append queue and applied to the live table later, passes copy
 entries to the rewrite queue, files are purged, and other groups make the append queue move
 on. A crash may happen after any step: the table is lost and rebuilt from the files that are
 left, in pieces that are merged, and the run goes on from there. A squeeze that is split over
 several batches is an atomic group, so its batches count only once the last is written.
 */
module CrashRecovery {
  import opened PipeLog
  import opened Tables
  import opened RecordLog
  import C = RecordCuts
  import RP = RewritePass
  import RV = RewriteView

  /**
   `alog` are the applied records of the append queue; those in flight are behind them. `written`
   is the chunk that is on disk but not yet applied, `group` are the batches of an unfinished
   squeeze, and `done` says that the running squeeze is completely on disk. Files below
   `appendMin` and `rewriteMin` are purged.
   */
  datatype Sys = Sys(core: RP.State, alog: seq<Record>, rlog: seq<Record>, group: seq<Record>,
                     written: seq<EntryIndex>, done: bool, appendMin: FileSeq, rewriteMin: FileSeq)

  datatype Step =
    | Rotate(file: FileSeq)
    | Append(es: seq<EntryIndex>)
    | ApplyNext
    | Begin(gate: Option<FileSeq>)
    | MoveOn(file: FileSeq)
    | WriteChunk(rw: seq<EntryIndex>, file: FileSeq)
    | ApplyWritten
    | Finish
    | Abandon
    | PurgeAppend(min: FileSeq)
    | PurgeRewrite(min: FileSeq)
    | Restart(appends: C.Cut, rewrites: C.Cut)

  /** Only entries are in flight. */
  predicate EntriesOnly(flight: seq<RP.Written>) {
    forall k :: 0 <= k < |flight| ==> flight[k].op.Entries?
  }

  function RecordOf(w: RP.Written): Record {
    Record(w.file, if w.op.Entries? then w.op.es else [])
  }

  function RecordsOf(flight: seq<RP.Written>): (rs: seq<Record>)
    ensures |rs| == |flight| && forall k :: 0 <= k < |rs| ==> rs[k] == RecordOf(flight[k])
  {
    seq(|flight|, k requires 0 <= k < |flight| => RecordOf(flight[k]))
  }

  /** Everything that was ever written to the append queue. */
  function AppendLog(s: Sys): seq<Record> { s.alog + RecordsOf(s.core.flight) }

  function BeginStep(gate: Option<FileSeq>): RP.Step {
    if gate.Some? then RP.BeginGated(gate.value) else RP.BeginSqueeze
  }

  /** What the engine asks of its callers: a batch starts inside the log or right behind it. */
  predicate Fits(log: seq<Record>, first: nat) {
    |log| > 0 && |log[0].es| > 0 && |log[|log| - 1].es| > 0 ==> log[0].First() <= first <= End(log)
  }

  /** Purging needs a rescan that found nothing older, and never reaches the active file. */
  ghost predicate SafeMin(t: Table, queue: LogQueue, active: FileSeq, min: FileSeq)
    requires t.rewriteCount <= |t.entries|
  {
    min <= active && (MinFileSeq(t, queue).Some? ==> min <= MinFileSeq(t, queue).value)
  }

  /** What a restart rebuilds from the pieces the files are cut into; `None` is a failed assertion. */
  function Rebuilt(appends: C.Cut, rewrites: C.Cut): (r: Option<Table>)
    ensures r.Some? ==> r.value.rewriteCount <= |r.value.entries|
  {
    var a, w := C.Recover(AppendQueue, appends), C.Recover(RewriteQueue, rewrites);
    if a.Some? && w.Some? && a.value.rewriteCount == 0 then Some(MergeAppendTable(w.value, a.value)) else None
  }

  /** The pieces are what is left of the two queues. */
  predicate CutsOf(s: Sys, appends: C.Cut, rewrites: C.Cut) {
    && C.Flatten(appends) == Kept(AppendLog(s), s.appendMin)
    && C.Flatten(rewrites) == Kept(s.rlog, s.rewriteMin)
  }

  ghost predicate Enabled(f: RP.Files, s: Sys, step: Step)
    requires s.core.t.rewriteCount <= |s.core.t.entries|
  {
    match step
    case Rotate(file) => RP.Enabled(f, s.core, RP.Rotate(file))
    case Append(es) =>
      RP.Enabled(f, s.core, RP.Write([RP.Entries(es)])) && |es| > 0 && Fits(AppendLog(s), es[0].index)
    case ApplyNext => RP.Enabled(f, s.core, RP.ApplyNext)
    case Begin(gate) => RP.Enabled(f, s.core, BeginStep(gate))
    case MoveOn(file) => s.written == [] && s.core.activeRewrite <= file
    case WriteChunk(rw, file) =>
      && s.core.phase.Pass? && s.written == [] && s.core.activeRewrite <= file
      && RP.CopiesOf(f, rw, s.core.phase.pending, file)
    case ApplyWritten =>
      |s.written| > 0 && RP.Enabled(f, s.core, RP.ApplyChunk(s.written, s.core.activeRewrite))
    case Finish => s.written == [] && RP.Enabled(f, s.core, RP.EndPass)
    case Abandon => RP.Enabled(f, s.core, RP.AbandonPass)
    case PurgeAppend(min) => SafeMin(s.core.t, AppendQueue, RP.Oldest(s.core), min)
    case PurgeRewrite(min) => RP.KnownSorted(s.core) && SafeMin(s.core.t, RewriteQueue, s.core.activeRewrite, min)
    case Restart(appends, rewrites) => CutsOf(s, appends, rewrites) && Rebuilt(appends, rewrites).Some?
  }

  ghost function Next(f: RP.Files, s: Sys, step: Step): Sys
    requires s.core.t.rewriteCount <= |s.core.t.entries| && Enabled(f, s, step)
  {
    match step
    case Rotate(file) => s.(core := RP.Next(f, s.core, RP.Rotate(file)))
    case Append(es) => s.(core := RP.Next(f, s.core, RP.Write([RP.Entries(es)])))
    case ApplyNext =>
      s.(core := RP.Next(f, s.core, RP.ApplyNext), alog := s.alog + [RecordOf(s.core.flight[0])])
    case Begin(gate) =>
      s.(core := RP.Next(f, s.core, BeginStep(gate)), group := [], written := [], done := false)
    case MoveOn(file) => s.(core := s.core.(activeRewrite := file))
    case WriteChunk(rw, file) =>
      var s' := s.(core := s.core.(activeRewrite := file), written := rw);
      if s.core.phase.gate.Some? then s'.(rlog := s.rlog + [Record(file, rw)])
      else if |rw| < |s.core.phase.pending| then s'.(group := s.group + [Record(file, rw)])
      else s'.(rlog := s.rlog + (s.group + [Record(file, rw)]), group := [], done := true)
    case ApplyWritten =>
      s.(core := RP.Next(f, s.core, RP.ApplyChunk(s.written, s.core.activeRewrite)), written := [])
    case Finish => s.(core := RP.Next(f, s.core, RP.EndPass), done := false)
    case Abandon => s.(core := RP.Next(f, s.core, RP.AbandonPass), group := [], written := [], done := false)
    case PurgeAppend(min) => s.(appendMin := Max(s.appendMin, min))
    case PurgeRewrite(min) => s.(rewriteMin := Max(s.rewriteMin, min))
    case Restart(appends, rewrites) => Restarted(s, Rebuilt(appends, rewrites).value)
  }

  /** The state after opening again with table `t`: nothing is in flight and no pass runs. */
  function Restarted(s: Sys, t: Table): Sys {
    Sys(RP.State(t, [], RP.Idle, s.core.activeAppend, s.core.activeRewrite, true),
        AppendLog(s), s.rlog, [], [], false, s.appendMin, s.rewriteMin)
  }

  /** Replaying what is left of the queues in order. */
  function Recovered(s: Sys): Table {
    MergeAppendTable(ReplayRewrites(Kept(s.rlog, s.rewriteMin)), ReplayAppends(Kept(AppendLog(s), s.appendMin)))
  }

  // -------------------------------------------------------------- invariants

  /** The log is a history of appends: no holes, nothing below its first index. */
  ghost predicate LogOk(log: seq<Record>, active: FileSeq) {
    && Connected(log, AppendQueue) && InOrder(log, active)
    && (forall k :: 0 <= k < |log| ==> log[0].First() <= log[k].First())
  }

  /** The append log answers every index like the table, and the appended entries of the table
      are where the log says. */
  ghost predicate HistoryOk(f: RP.Files, t: Table, alog: seq<Record>, active: FileSeq) {
    && LogOk(alog, active)
    && (forall i: nat :: Lookup(alog, i).Some? <==> t.Has(i))
    && (forall i: nat :: t.Has(i) ==> f.content(Lookup(alog, i).value) == f.content(t.At(i)))
    && (forall i: nat :: t.Has(i) && t.At(i).Queue() == AppendQueue ==> Lookup(alog, i).value == t.At(i))
  }

  ghost predicate RewritesOk(t: Table, rlog: seq<Record>, active: FileSeq) {
    && Connected(rlog, RewriteQueue) && InOrder(rlog, active)
    && (forall k :: 0 <= k < |rlog| ==> t.first <= rlog[k].First())
    && (|rlog| > 0 ==> |t.entries| > 0)
  }

  /** The rewrite log holds the content of every rewritten entry in a file that is left, at
      the very location of the table if `exact`. */
  ghost predicate RegionOk(f: RP.Files, t: Table, rlog: seq<Record>, min: FileSeq, exact: bool)
    requires Connected(rlog, RewriteQueue)
  {
    forall i: nat :: t.first <= i < t.Boundary() && t.Has(i) ==>
                       && Lookup(rlog, i).Some?
                       && f.content(Lookup(rlog, i).value) == f.content(t.At(i))
                       && min <= Lookup(rlog, i).value.Seq()
                       && (exact ==> Lookup(rlog, i).value == t.At(i))
  }

  /** With nothing left to rewrite, the rewrite log ends where the table ends. */
  ghost predicate TailOk(t: Table, rlog: seq<Record>)
    requires Connected(rlog, RewriteQueue)
  {
    |t.entries| > 0 && t.rewriteCount == |t.entries| ==> |rlog| > 0 && End(rlog) == t.End()
  }

  /** The entries below `next` are where `log` says. */
  ghost predicate MovedTo(t: Table, log: seq<Record>, next: nat)
    requires Connected(log, RewriteQueue)
  {
    forall i: nat :: t.first <= i < t.Boundary() && t.Has(i) && i < next ==> Lookup(log, i) == Some(t.At(i))
  }

  ghost predicate LastIs(log: seq<Record>, file: FileSeq, es: seq<EntryIndex>) {
    |log| > 0 && log[|log| - 1] == Record(file, es)
  }

  ghost predicate GatedDisk(s: Sys)
    requires s.core.phase.Pass? && Connected(s.rlog, RewriteQueue)
  {
    && s.group == []
    && (|s.rlog| > 0 ==> s.core.phase.next + |s.written| <= End(s.rlog))
    && (|s.written| > 0 ==> LastIs(s.rlog, s.core.activeRewrite, s.written))
  }

  ghost predicate SqueezeDisk(s: Sys)
    requires s.core.phase.Pass? && Connected(s.rlog, RewriteQueue)
  {
    var t, p := s.core.t, s.core.phase;
    && (|t.entries| > 0 && t.rewriteCount == |t.entries| ==> p.next + |p.pending| == t.End())
    && (!s.done ==>
          && Connected(s.group, RewriteQueue) && InOrder(s.group, s.core.activeRewrite)
          && (|p.pending| == 0 ==> t.rewriteCount == 0)
          && p.start > 0 && s.rewriteMin <= p.start && InOrder(s.rlog, p.start - 1)
          && (forall k :: 0 <= k < |s.group| ==> p.start <= s.group[k].file && t.first <= s.group[k].First())
          && (|s.group| == 0 ==> |s.written| == 0 && (|p.pending| > 0 ==> p.next == t.first))
          && (|s.group| > 0 ==> s.group[0].First() == t.first && End(s.group) == p.next + |s.written|
                                && |s.written| < |p.pending|)
          && (|s.written| > 0 ==> LastIs(s.group, s.core.activeRewrite, s.written))
          && (|p.pending| > 0 ==> |s.rlog| > 0)
          && MovedTo(t, s.group, p.next))
    && (s.done ==>
          && s.group == [] && |s.written| == |p.pending|
          && (|s.written| > 0 ==> LastIs(s.rlog, s.core.activeRewrite, s.written))
          && MovedTo(t, s.rlog, p.next))
  }

  ghost predicate PassDisk(f: RP.Files, s: Sys)
    requires Connected(s.rlog, RewriteQueue)
  {
    s.core.phase.Pass? ==>
      && s.core.phase.low <= s.core.t.End()
      && (s.core.phase.low == s.core.t.End() ==> s.core.phase.next + |s.core.phase.pending| <= s.core.t.End())
      && (|s.core.phase.pending| > 0 ==> |s.core.t.entries| > 0 && s.core.t.first <= s.core.phase.next)
      && (|s.written| > 0 ==> RP.CopiesOf(f, s.written, s.core.phase.pending, s.core.activeRewrite))
      && (s.core.phase.gate.Some? ==> GatedDisk(s))
      && (s.core.phase.gate.None? ==> SqueezeDisk(s))
  }

  /** Purged files are older than everything the table reads or that is in flight. */
  ghost predicate PurgedOk(s: Sys) {
    && s.appendMin <= RP.Oldest(s.core) && s.rewriteMin <= s.core.activeRewrite
    && (forall i: nat :: s.core.t.Has(i) && s.core.t.At(i).Queue() == AppendQueue ==> s.appendMin <= s.core.t.At(i).Seq())
  }

  /** No keys and no group marker: the entry part is the whole state. */
  predicate Plain(c: RP.State) {
    && RP.Bare(c.t) == c.t && RP.BarePhase(c.phase) == c.phase && EntriesOnly(c.flight)
  }

  /** What the files hold, next to the table. */
  ghost predicate DiskInv(f: RP.Files, s: Sys) {
    && HistoryOk(f, s.core.t, s.alog, RP.Oldest(s.core))
    && LogOk(AppendLog(s), s.core.activeAppend)
    && RewritesOk(s.core.t, s.rlog, s.core.activeRewrite)
    && RegionOk(f, s.core.t, s.rlog, s.rewriteMin, RP.KnownSorted(s.core))
    && TailOk(s.core.t, s.rlog)
    && PassDisk(f, s)
    && PurgedOk(s)
  }

  /** What the table shows. */
  ghost function Shown(f: RP.Files, t: Table): map<nat, Bytes> {
    map i: nat | t.first <= i < t.End() :: f.content(t.At(i))
  }

  /** The core is in shape, and its table shows what it shows throughout a pass. */
  ghost predicate CoreInv(f: RP.Files, c: RP.State) {
    Plain(c) && RP.Shape(f, c) && RV.View(f, c, RP.Model(Shown(f, c.t), map[]))
  }

  ghost predicate Inv(f: RP.Files, s: Sys) { CoreInv(f, s.core) && DiskInv(f, s) }

  // ----------------------------------------------------- recovery from them

  /** The append side: nothing at or above its first index is missing or stale. */
  lemma RecoveredAppendSide(f: RP.Files, t: Table, alog: seq<Record>, active: FileSeq, min: FileSeq, i: nat)
    requires HistoryOk(f, t, alog, active) && t.Valid()
    requires t.Has(i) && t.At(i).Queue() == AppendQueue ==> min <= t.At(i).Seq()
    ensures Connected(Kept(alog, min), AppendQueue)
    ensures var a := ReplayAppends(Kept(alog, min));
            && (a.Has(i) ==> t.Has(i) && f.content(a.At(i)) == f.content(t.At(i)))
            && (t.Has(i) && !a.Has(i) ==> t.At(i).Queue() == RewriteQueue)
            && (a.Has(i) ==> Lookup(alog, i) == Some(a.At(i)) && min <= a.At(i).Seq())
  {
    hide Kept, Lookup, ReplayAppends, InOrder;
    KeptShape(alog, AppendQueue, active, min);
    ReplayAppendsIsLookup(Kept(alog, min), i);
    KeptLookup(alog, AppendQueue, active, min, i);
    var a := ReplayAppends(Kept(alog, min));
    assert a.Has(i) <==> a.Get(i).Some?;
    assert a.Get(i) == Lookup(Kept(alog, min), i);
  }

  /** The rewrite side: every rewritten entry is there, and nothing before the table. */
  lemma RecoveredRewriteSide(f: RP.Files, t: Table, rlog: seq<Record>, active: FileSeq, min: FileSeq, exact: bool, i: nat)
    requires RewritesOk(t, rlog, active) && RegionOk(f, t, rlog, min, exact) && t.Valid()
    ensures Connected(Kept(rlog, min), RewriteQueue)
    ensures var r := ReplayRewrites(Kept(rlog, min));
            && (r.Has(i) ==> t.first <= i && |rlog| > 0 && i < End(rlog))
            && (t.Has(i) && t.At(i).Queue() == RewriteQueue ==> r.Has(i) && f.content(r.At(i)) == f.content(t.At(i)))
            && (r.Has(i) ==> Lookup(rlog, i) == Some(r.At(i)) && min <= r.At(i).Seq())
  {
    KeptShape(rlog, RewriteQueue, active, min);
    ReplayRewritesIsLookup(Kept(rlog, min), i);
    KeptLookup(rlog, RewriteQueue, active, min, i);
    assert ReplayRewrites(Kept(rlog, min)).Get(i) == Lookup(Kept(rlog, min), i);
    if Lookup(rlog, i).Some? {
      LookupAbove(rlog, t.first, i);
      LookupFound(rlog, RewriteQueue, active, i);
    }
    if t.Has(i) && t.At(i).Queue() == RewriteQueue {
      assert i < t.Boundary();
    }
  }

  /** Where the recovered append side ends. */
  lemma RecoveredAppendEnd(f: RP.Files, t: Table, alog: seq<Record>, active: FileSeq, min: FileSeq)
    requires HistoryOk(f, t, alog, active) && t.Valid()
    ensures Connected(Kept(alog, min), AppendQueue)
    ensures var a := ReplayAppends(Kept(alog, min));
            |a.entries| > 0 ==> |t.entries| > 0 && a.End() == t.End()
  {
    KeptShape(alog, AppendQueue, active, min);
    ReplayAppendsIsLookup(Kept(alog, min), 0);
    var a := ReplayAppends(Kept(alog, min));
    if |a.entries| > 0 {
      LookupLast(alog, AppendQueue);
      assert t.Has(End(alog) - 1);
      assert Lookup(alog, t.End() - 1).Some?;
      LookupFound(alog, AppendQueue, active, t.End() - 1);
    }
  }

  /** The sides of a recovery, read at one index. */
  ghost predicate Sides(f: RP.Files, t: Table, a: Table, r: Table, rlog: seq<Record>, i: nat) {
    && (a.Has(i) ==> t.Has(i) && f.content(a.At(i)) == f.content(t.At(i)))
    && (t.Has(i) && !a.Has(i) ==> t.At(i).Queue() == RewriteQueue)
    && (r.Has(i) ==> t.first <= i && |rlog| > 0 && |rlog[|rlog| - 1].es| > 0 && i < End(rlog))
    && (t.Has(i) && t.At(i).Queue() == RewriteQueue ==> r.Has(i) && f.content(r.At(i)) == f.content(t.At(i)))
  }

  /** Overlaying the two sides gives the table back. */
  lemma OverlayAgrees(f: RP.Files, t: Table, a: Table, r: Table, rlog: seq<Record>, i: nat)
    requires t.Valid() && a.rewriteCount == 0 && r.rewriteCount <= |r.entries| && Connected(rlog, RewriteQueue)
    requires |a.entries| > 0 ==> |t.entries| > 0 && a.End() == t.End()
    requires TailOk(t, rlog) && (|t.entries| == 0 ==> |rlog| == 0)
    requires Sides(f, t, a, r, rlog, i) && (|t.entries| > 0 ==> Sides(f, t, a, r, rlog, t.End() - 1))
    requires |a.entries| > 0 ==> Sides(f, t, a, r, rlog, a.first) && (0 < a.first ==> Sides(f, t, a, r, rlog, a.first - 1))
    ensures var m := MergeAppendTable(r, a);
            && (m.Has(i) <==> t.Has(i))
            && (t.Has(i) ==> f.content(m.At(i)) == f.content(t.At(i)))
  {
    MergeGet(r, a.(group := None), i);
  }

}
