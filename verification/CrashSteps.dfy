/** Every step of appending, rewriting and purging keeps what a restart needs. */
module CrashSteps {
  import opened PipeLog
  import opened Tables
  import opened RecordLog
  import opened CrashRecovery
  import RP = RewritePass
  import RV = RewriteView

  // ------------------------------------------------------------- append steps

  /** What an append does to the rewritten region: it can only lose its tail. */
  lemma AppendRegion(t: Table, es: seq<EntryIndex>)
    requires t.Valid() && |es| > 0 && Consecutive(es) && Accepts(t, es[0].index, false, false)
    ensures var t' := Appended(t, es);
            && t'.rewriteCount < |t'.entries| && t'.rewriteCount <= t.rewriteCount
            && (|t.entries| > 0 ==> t'.first == t.first)
            && (forall i: nat :: t'.first <= i < t'.Boundary() && t'.Has(i) ==>
                  t.first <= i < t.Boundary() && t.Has(i) && t'.At(i) == t.At(i))
  {
    RP.AppendedShape(t, es);
  }

  lemma AppendKeepsRewrites(f: RP.Files, t: Table, es: seq<EntryIndex>, rlog: seq<Record>, active: FileSeq,
                            min: FileSeq, exact: bool)
    requires t.Valid() && |es| > 0 && Consecutive(es) && Accepts(t, es[0].index, false, false)
    requires RewritesOk(t, rlog, active) && RegionOk(f, t, rlog, min, exact)
    ensures var t' := Appended(t, es);
            RewritesOk(t', rlog, active) && RegionOk(f, t', rlog, min, exact) && TailOk(t', rlog)
  {
    AppendRegion(t, es);
  }

  /** The first index of a history is in it. */
  lemma {:induction false} LookupFirst(log: seq<Record>, active: FileSeq)
    requires LogOk(log, active) && |log| > 0
    ensures Lookup(log, log[0].First()).Some?
    decreases |log|
  {
    var n := |log| - 1;
    if log[0].First() < log[n].First() {
      LookupFirst(log[..n], active);
    }
  }

  /** A table and its history have the same first index and the same end. */
  lemma HistorySpan(f: RP.Files, t: Table, alog: seq<Record>, active: FileSeq)
    requires HistoryOk(f, t, alog, active)
    ensures |t.entries| > 0 <==> |alog| > 0
    ensures |alog| > 0 ==> t.first == alog[0].First() && t.End() == End(alog)
  {
    hide Lookup;
    if |alog| > 0 {
      LookupFirst(alog, active);
      LookupLast(alog, AppendQueue);
      assert t.Has(alog[0].First()) && t.Has(End(alog) - 1);
      assert Lookup(alog, t.first).Some? && Lookup(alog, t.End() - 1).Some?;
      LookupAbove(alog, alog[0].First(), t.first);
      LookupFound(alog, AppendQueue, active, t.End() - 1);
    } else if |t.entries| > 0 {
      assert Lookup(alog, t.first).Some?;
      LookupFound(alog, AppendQueue, active, t.first);
    }
  }

  lemma LogSnoc(log: seq<Record>, r: Record, active: FileSeq)
    requires LogOk(log, active) && r.WellFormed(AppendQueue) && active <= r.file
    requires Fits(log, r.First())
    ensures LogOk(log + [r], r.file)
  {
    ConnectedSnoc(log, r, AppendQueue);
  }

  lemma AppendKeepsHistory(f: RP.Files, t: Table, es: seq<EntryIndex>, alog: seq<Record>, active: FileSeq, file: FileSeq)
    requires t.Valid() && |es| > 0 && Consecutive(es) && AllIn(es, FileId(AppendQueue, file))
    requires Accepts(t, es[0].index, false, false)
    requires HistoryOk(f, t, alog, active) && active <= file
    ensures HistoryOk(f, Appended(t, es), alog + [Record(file, es)], file)
  {
    hide Appended, Consecutive, Lookup, InOrder;
    var t', r := Appended(t, es), Record(file, es);
    HistorySpan(f, t, alog, active);
    LogSnoc(alog, r, active);
    forall i: nat
      ensures Lookup(alog + [r], i) == (if i < es[0].index then Lookup(alog, i)
                                        else if i < es[0].index + |es| then Some(es[i - es[0].index].loc) else None)
      ensures t'.Get(i) == (if i < es[0].index then t.Get(i)
                            else if i < es[0].index + |es| then Some(es[i - es[0].index].loc) else None)
    {
      LookupSnoc(alog, r, i);
      AppendedGet(t, es, i);
    }
    forall i: nat
      ensures Lookup(alog + [r], i).Some? <==> t'.Has(i)
      ensures t'.Has(i) ==> f.content(Lookup(alog + [r], i).value) == f.content(t'.At(i))
      ensures t'.Has(i) && t'.At(i).Queue() == AppendQueue ==> Lookup(alog + [r], i).value == t'.At(i)
    {
      assert t'.Has(i) <==> t'.Get(i).Some?;
      assert t.Has(i) <==> t.Get(i).Some?;
    }
  }

  lemma AppendKeepsPassDisk(f: RP.Files, s: Sys, es: seq<EntryIndex>, flight: seq<RP.Written>)
    requires s.core.t.Valid() && |es| > 0 && Consecutive(es) && Accepts(s.core.t, es[0].index, false, false)
    requires Connected(s.rlog, RewriteQueue) && PassDisk(f, s) && s.core.phase.Pass?
    ensures var c := s.core;
            PassDisk(f, s.(core := c.(t := Appended(c.t, es), flight := flight,
                                      phase := c.phase.(low := Min(c.phase.low, es[0].index)))))
  {
    AppendRegion(s.core.t, es);
  }

  lemma AppendKeepsPurged(t: Table, es: seq<EntryIndex>, file: FileSeq, min: FileSeq)
    requires t.Valid() && |es| > 0 && Consecutive(es) && AllIn(es, FileId(AppendQueue, file))
    requires Accepts(t, es[0].index, false, false) && min <= file
    requires forall i: nat :: t.Has(i) && t.At(i).Queue() == AppendQueue ==> min <= t.At(i).Seq()
    ensures forall i: nat :: Appended(t, es).Has(i) && Appended(t, es).At(i).Queue() == AppendQueue ==>
              min <= Appended(t, es).At(i).Seq()
  {
    RP.AppendedShape(t, es);
    var t' := Appended(t, es);
    forall i: nat | t'.Has(i)
      ensures i < es[0].index ==> t.Has(i) && t'.At(i) == t.At(i)
      ensures i >= es[0].index ==> t'.At(i).Seq() == file
    {
    }
  }

  /** Moving the first record in flight to the applied ones leaves the log on disk as it is. */
  lemma ApplyKeepsLog(s: Sys)
    requires |s.core.flight| > 0
    ensures (s.alog + [RecordOf(s.core.flight[0])]) + RecordsOf(s.core.flight[1..]) == AppendLog(s)
  {
  }

  lemma LogMonotone(log: seq<Record>, active: FileSeq, active': FileSeq)
    requires LogOk(log, active) && active <= active'
    ensures LogOk(log, active')
  {
  }

  /** What is in flight is accepted: the callers kept to the log on disk. */
  lemma FlightIsAccepted(f: RP.Files, s: Sys)
    requires s.core.t.Valid() && DiskInv(f, s) && |s.core.flight| > 0 && s.core.flight[0].op.Entries?
    ensures |s.core.flight[0].op.es| > 0 && Accepts(s.core.t, s.core.flight[0].op.es[0].index, false, false)
  {
    HistorySpan(f, s.core.t, s.alog, RP.Oldest(s.core));
    var log, n := AppendLog(s), |s.alog|;
    assert log[n] == RecordOf(s.core.flight[0]) && log[n].WellFormed(AppendQueue);
    if n > 0 {
      assert log[0] == s.alog[0] && log[n - 1] == s.alog[n - 1];
      assert log[0].First() <= log[n].First() <= log[n - 1].End();
    }
  }

  lemma ApplyKeepsDisk(f: RP.Files, s: Sys)
    requires s.core.t.Valid() && RP.FlightOk(f, s.core.flight, s.core.activeAppend) && EntriesOnly(s.core.flight)
    requires DiskInv(f, s) && Enabled(f, s, ApplyNext)
    ensures DiskInv(f, Next(f, s, ApplyNext))
  {
    hide InOrder, Appended, Connected, LogOk, PassDisk, RegionOk, RewritesOk, TailOk, Lookup, Accepts;
    var c, w, s' := s.core, s.core.flight[0], Next(f, s, ApplyNext);
    var es := w.op.es;
    assert RP.Recorded(f, w.op, w.file) && w.file <= RP.Oldest(s'.core);
    assert HistoryOk(f, s'.core.t, s'.alog, RP.Oldest(s'.core)) by {
      AppendKeepsHistory(f, c.t, es, s.alog, RP.Oldest(c), w.file);
      LogMonotone(s'.alog, w.file, RP.Oldest(s'.core));
    }
    assert AppendLog(s') == AppendLog(s) by { ApplyKeepsLog(s); }
    assert RewritesOk(s'.core.t, s'.rlog, s'.core.activeRewrite)
           && RegionOk(f, s'.core.t, s'.rlog, s'.rewriteMin, RP.KnownSorted(s'.core)) && TailOk(s'.core.t, s'.rlog) by {
      AppendKeepsRewrites(f, c.t, es, s.rlog, c.activeRewrite, s.rewriteMin, RP.KnownSorted(c));
    }
    assert PurgedOk(s') by { AppendKeepsPurged(c.t, es, w.file, s.appendMin); }
    assert PassDisk(f, s') by { ApplyKeepsPassDisk(f, s); }
  }

  lemma ApplyKeepsPassDisk(f: RP.Files, s: Sys)
    requires s.core.t.Valid() && RP.FlightOk(f, s.core.flight, s.core.activeAppend) && EntriesOnly(s.core.flight)
    requires Connected(s.rlog, RewriteQueue) && PassDisk(f, s) && Enabled(f, s, ApplyNext)
    ensures PassDisk(f, Next(f, s, ApplyNext))
  {
    hide PassDisk, Appended, Connected;
    var c, w := s.core, s.core.flight[0];
    if c.phase.Pass? {
      AppendKeepsPassDisk(f, s, w.op.es, c.flight[1..]);
      PassDiskIgnores(f, s.(core := c.(t := Appended(c.t, w.op.es), flight := c.flight[1..],
                                       phase := c.phase.(low := Min(c.phase.low, w.op.es[0].index)))), Next(f, s, ApplyNext));
    } else {
      NoPassDisk(f, Next(f, s, ApplyNext));
    }
  }

  lemma NoPassDisk(f: RP.Files, s: Sys)
    requires Connected(s.rlog, RewriteQueue) && !s.core.phase.Pass?
    ensures PassDisk(f, s)
  {
  }

  /** The pass does not look at what is in flight, at the active append file or at the records. */
  lemma PassDiskIgnores(f: RP.Files, s: Sys, s': Sys)
    requires Connected(s.rlog, RewriteQueue) && PassDisk(f, s)
    requires s' == s.(core := s.core.(flight := s'.core.flight, activeAppend := s'.core.activeAppend), alog := s'.alog,
                      appendMin := s'.appendMin)
    ensures PassDisk(f, s')
  {
  }

  lemma RotateKeepsDisk(f: RP.Files, s: Sys, file: FileSeq)
    requires s.core.t.Valid() && DiskInv(f, s) && Enabled(f, s, Rotate(file))
    ensures DiskInv(f, Next(f, s, Rotate(file)))
  {
    hide PassDisk, RegionOk, TailOk, Lookup, LogOk;
    var s' := Next(f, s, Rotate(file));
    LogMonotone(AppendLog(s), s.core.activeAppend, file);
    LogMonotone(s.alog, RP.Oldest(s.core), RP.Oldest(s'.core));
    assert AppendLog(s') == AppendLog(s);
    PassDiskIgnores(f, s, s');
  }

  lemma WriteKeepsDisk(f: RP.Files, s: Sys, es: seq<EntryIndex>)
    requires s.core.t.Valid() && DiskInv(f, s) && Enabled(f, s, Append(es))
    ensures DiskInv(f, Next(f, s, Append(es)))
    ensures AppendLog(Next(f, s, Append(es))) == AppendLog(s) + [Record(s.core.activeAppend, es)]
  {
    hide PassDisk, RegionOk, TailOk, Lookup, LogOk, HistoryOk, Fits, Consecutive, AllIn;
    var s', r := Next(f, s, Append(es)), Record(s.core.activeAppend, es);
    assert RP.Recorded(f, RP.Entries(es), s.core.activeAppend) by {
      assert RP.Recorded(f, [RP.Entries(es)][0], s.core.activeAppend);
    }
    assert s'.core.flight == s.core.flight + [RP.Written(RP.Entries(es), s.core.activeAppend)];
    assert AppendLog(s') == AppendLog(s) + [r];
    LogSnoc(AppendLog(s), r, s.core.activeAppend);
    PassDiskIgnores(f, s, s');
  }

  // ------------------------------------------------------------ passes on disk

  ghost predicate PassOk(f: RP.Files, t: Table, p: RP.Phase)
    requires p.Pass? && t.Valid()
  {
    RP.PassShape(t, p) && RV.PassView(f, t, p)
  }

  lemma InOrderMonotone(log: seq<Record>, active: FileSeq, active': FileSeq)
    requires InOrder(log, active) && active <= active'
    ensures InOrder(log, active')
  {
  }

  lemma BeginGatedDisk(f: RP.Files, t: Table, rlog: seq<Record>, active: FileSeq, min: FileSeq, exact: bool)
    requires t.Valid() && RewritesOk(t, rlog, active) && RegionOk(f, t, rlog, min, exact)
    ensures |rlog| > 0 ==> t.Boundary() <= End(rlog)
    ensures t.rewriteCount > 0 ==> |rlog| > 0
  {
    if t.rewriteCount > 0 {
      assert Lookup(rlog, t.Boundary() - 1).Some?;
      LookupFound(rlog, RewriteQueue, active, t.Boundary() - 1);
    }
  }

  lemma RegionWeaken(f: RP.Files, t: Table, rlog: seq<Record>, min: FileSeq, exact: bool)
    requires Connected(rlog, RewriteQueue) && RegionOk(f, t, rlog, min, exact)
    ensures RegionOk(f, t, rlog, min, false)
  {
    hide Lookup;
  }

  lemma BeginPassDisk(f: RP.Files, s: Sys, gate: Option<FileSeq>)
    requires s.core.t.Valid() && RewritesOk(s.core.t, s.rlog, s.core.activeRewrite) && TailOk(s.core.t, s.rlog)
    requires RegionOk(f, s.core.t, s.rlog, s.rewriteMin, RP.KnownSorted(s.core)) && s.rewriteMin <= s.core.activeRewrite
    requires Enabled(f, s, Begin(gate))
    ensures PassDisk(f, Next(f, s, Begin(gate)))
  {
    hide Lookup, RegionOk, RP.FetchedKeys, FetchedFrom;
    var t, s' := s.core.t, Next(f, s, Begin(gate));
    BeginGatedDisk(f, t, s.rlog, s.core.activeRewrite, s.rewriteMin, RP.KnownSorted(s.core));
    if gate.Some? {
      FetchedFromIsRun(t, t.rewriteCount, gate.value);
      assert GatedDisk(s');
    } else {
      assert SqueezeDisk(s');
    }
  }

  lemma BeginKeepsDisk(f: RP.Files, s: Sys, gate: Option<FileSeq>)
    requires s.core.t.Valid() && DiskInv(f, s) && Enabled(f, s, Begin(gate))
    ensures DiskInv(f, Next(f, s, Begin(gate)))
  {
    hide HistoryOk, LogOk, Lookup, PassDisk, TailOk, RegionOk, FetchedBefore, FetchedRewritten, RP.FetchedKeys;
    var t, s' := s.core.t, Next(f, s, Begin(gate));
    assert InOrder(s.rlog, s'.core.activeRewrite) by {
      InOrderMonotone(s.rlog, s.core.activeRewrite, s'.core.activeRewrite);
    }
    RegionWeaken(f, t, s.rlog, s.rewriteMin, RP.KnownSorted(s.core));
    BeginPassDisk(f, s, gate);
    assert AppendLog(s') == AppendLog(s);
  }

  /** The rewrite queue moves on to a newer file: for other regions, or for keys. */
  lemma MoveOnKeepsDisk(f: RP.Files, s: Sys, file: FileSeq)
    requires s.core.t.Valid() && DiskInv(f, s) && Enabled(f, s, MoveOn(file))
    ensures DiskInv(f, Next(f, s, MoveOn(file)))
  {
    hide HistoryOk, LogOk, RegionOk, TailOk, Lookup, PassDisk, Connected;
    var s' := Next(f, s, MoveOn(file));
    InOrderMonotone(s.rlog, s.core.activeRewrite, file);
    assert AppendLog(s') == AppendLog(s);
    MoveOnPass(f, s, file);
  }

  lemma MoveOnPass(f: RP.Files, s: Sys, file: FileSeq)
    requires s.core.t.Valid() && Connected(s.rlog, RewriteQueue) && PassDisk(f, s) && Enabled(f, s, MoveOn(file))
    ensures PassDisk(f, Next(f, s, MoveOn(file)))
  {
    hide Lookup, MovedTo, Connected;
  }

  /** While something is pending in a gated pass, something is still appended. */
  lemma PendingIsAppended(f: RP.Files, s: Sys)
    requires s.core.t.Valid() && s.core.phase.Pass? && s.core.phase.gate.Some?
    requires Connected(s.rlog, RewriteQueue) && PassDisk(f, s)
    requires PassOk(f, s.core.t, s.core.phase) && |s.core.phase.pending| > 0
    ensures s.core.t.Boundary() <= s.core.phase.next && s.core.t.rewriteCount < |s.core.t.entries|
  {
    var t, p := s.core.t, s.core.phase;
    assert t.Has(p.next) ==> t.At(p.next).Queue() == AppendQueue && t.At(p.next) == t.entries[p.next - t.first];
    assert t.Has(t.End() - 1) && t.At(t.End() - 1) == t.entries[|t.entries| - 1];
  }

  /** A gated chunk goes behind the rewritten region, so the region reads as before. */
  lemma GatedWriteKeepsRewrites(f: RP.Files, t: Table, rlog: seq<Record>, active: FileSeq, min: FileSeq, exact: bool, r: Record)
    requires t.Valid() && RewritesOk(t, rlog, active) && RegionOk(f, t, rlog, min, exact)
    requires r.WellFormed(RewriteQueue) && active <= r.file && |t.entries| > 0
    requires t.Boundary() <= r.First() && (|rlog| > 0 ==> r.First() <= End(rlog))
    ensures RewritesOk(t, rlog + [r], r.file) && RegionOk(f, t, rlog + [r], min, exact)
  {
    ConnectedSnoc(rlog, r, RewriteQueue);
    forall i: nat | t.first <= i < t.Boundary()
      ensures Lookup(rlog + [r], i) == Lookup(rlog, i)
    {
      LookupSnoc(rlog, r, i);
    }
  }

  lemma GatedWriteKeepsDisk(f: RP.Files, s: Sys, rw: seq<EntryIndex>, file: FileSeq)
    requires s.core.t.Valid() && DiskInv(f, s) && Enabled(f, s, WriteChunk(rw, file)) && s.core.phase.gate.Some?
    requires PassOk(f, s.core.t, s.core.phase)
    ensures DiskInv(f, Next(f, s, WriteChunk(rw, file)))
  {
    hide HistoryOk, LogOk, RegionOk, Lookup;
    var t, p, r := s.core.t, s.core.phase, Record(file, rw);
    assert rw[0].index == p.next;
    PendingIsAppended(f, s);
    GatedWriteKeepsRewrites(f, t, s.rlog, s.core.activeRewrite, s.rewriteMin, RP.KnownSorted(s.core), r);
  }

  /** One more batch of a squeeze, in the group or completing it. */
  lemma GroupGrows(t: Table, p: RP.Phase, group: seq<Record>, active: FileSeq, r: Record)
    requires t.Valid() && p.Pass? && Connected(group, RewriteQueue) && InOrder(group, active)
    requires forall k :: 0 <= k < |group| ==> p.start <= group[k].file && t.first <= group[k].First()
    requires |group| == 0 ==> p.next == t.first
    requires |group| > 0 ==> group[0].First() == t.first && End(group) == p.next
    requires r.WellFormed(RewriteQueue) && r.First() == p.next && active <= r.file && p.start <= r.file && t.first <= p.next
    requires MovedTo(t, group, p.next)
    ensures var g := group + [r];
            && Connected(g, RewriteQueue) && InOrder(g, r.file)
            && (forall k :: 0 <= k < |g| ==> p.start <= g[k].file && t.first <= g[k].First())
            && g[0].First() == t.first && End(g) == r.End()
            && MovedTo(t, g, p.next)
  {
    ConnectedSnoc(group, r, RewriteQueue);
    forall i: nat | i < p.next
      ensures Lookup(group + [r], i) == Lookup(group, i)
    {
      LookupSnoc(group, r, i);
    }
  }

  /** A complete group behind the rewrite log. */
  lemma GroupJoins(t: Table, rlog: seq<Record>, g: seq<Record>, start: FileSeq, active: FileSeq)
    requires t.Valid() && start > 0 && RewritesOk(t, rlog, active) && InOrder(rlog, start - 1) && |rlog| > 0
    requires |g| > 0 && Connected(g, RewriteQueue) && InOrder(g, active)
    requires forall k :: 0 <= k < |g| ==> start <= g[k].file && t.first <= g[k].First()
    requires g[0].First() == t.first
    ensures RewritesOk(t, rlog + g, active)
    ensures |rlog + g| > 0 && End(rlog + g) == End(g) && (rlog + g)[|rlog + g| - 1] == g[|g| - 1]
  {
    var log := rlog + g;
    assert t.first <= rlog[|rlog| - 1].First();
    forall k | 0 < k < |log|
      ensures log[k].First() <= log[k - 1].End()
    {
      assert k == |rlog| ==> log[k] == g[0] && log[k - 1] == rlog[|rlog| - 1];
      assert k > |rlog| ==> log[k] == g[k - |rlog|] && log[k - 1] == g[k - 1 - |rlog|];
    }
  }

  /** The complete group holds every rewritten entry at its content. */
  lemma GroupCovers(f: RP.Files, t: Table, p: RP.Phase, rlog: seq<Record>, group: seq<Record>, r: Record,
                    active: FileSeq, min: FileSeq)
    requires t.Valid() && p.Pass? && p.gate.None? && PassOk(f, t, p)
    requires RP.CopiesOf(f, r.es, p.pending, r.file) && |r.es| == |p.pending|
    requires Connected(rlog, RewriteQueue) && Connected(group, RewriteQueue) && Connected(group + [r], RewriteQueue)
    requires Connected(rlog + (group + [r]), RewriteQueue) && InOrder(group + [r], active)
    requires forall k :: 0 <= k < |group + [r]| ==> min <= (group + [r])[k].file
    requires MovedTo(t, group + [r], p.next) && p.start <= r.file && min <= p.start
    ensures RegionOk(f, t, rlog + (group + [r]), min, false)
    ensures MovedTo(t, rlog + (group + [r]), p.next)
  {
    var g := group + [r];
    assert r.es[0].index == p.pending[0].index == p.next;
    forall i: nat | t.first <= i < t.Boundary() && t.Has(i)
      ensures Lookup(rlog + g, i).Some?
      ensures i < p.next ==> Lookup(rlog + g, i) == Some(t.At(i)) && p.start <= t.At(i).Seq()
      ensures i >= p.next ==> Lookup(rlog + g, i) == Some(r.es[i - p.next].loc)
                              && f.content(r.es[i - p.next].loc) == f.content(t.At(i))
    {
      if i < p.next {
        LookupConcat(rlog, g, i);
      } else {
        assert i < p.next + |p.pending|;
        LookupSnoc(group, r, i);
        LookupConcat(rlog, g, i);
        assert t.At(i) == t.entries[i - t.first];
      }
    }
  }

  lemma MidWritePass(f: RP.Files, s: Sys, rw: seq<EntryIndex>, file: FileSeq)
    requires s.core.t.Valid() && Connected(s.rlog, RewriteQueue) && PassDisk(f, s)
    requires Enabled(f, s, WriteChunk(rw, file)) && s.core.phase.gate.None?
    requires RP.PhaseShape(s.core) && |rw| < |s.core.phase.pending| && s.core.phase.pending[0].index == s.core.phase.next
    ensures PassDisk(f, Next(f, s, WriteChunk(rw, file)))
  {
    hide Lookup, MovedTo, InOrder, Consecutive;
    var t, p, r := s.core.t, s.core.phase, Record(file, rw);
    assert rw[0].index == p.next;
    assert !s.done;
    GroupGrows(t, p, s.group, s.core.activeRewrite, r);
    assert SqueezeDisk(Next(f, s, WriteChunk(rw, file)));
  }

  lemma MidWriteKeepsDisk(f: RP.Files, s: Sys, rw: seq<EntryIndex>, file: FileSeq)
    requires s.core.t.Valid() && DiskInv(f, s) && Enabled(f, s, WriteChunk(rw, file)) && s.core.phase.gate.None?
    requires RP.PhaseShape(s.core) && |rw| < |s.core.phase.pending| && s.core.phase.pending[0].index == s.core.phase.next
    ensures DiskInv(f, Next(f, s, WriteChunk(rw, file)))
  {
    hide HistoryOk, LogOk, RegionOk, TailOk, Lookup, PassDisk, RP.CopiesOf;
    MidWritePass(f, s, rw, file);
    InOrderMonotone(s.rlog, s.core.activeRewrite, file);
    assert AppendLog(Next(f, s, WriteChunk(rw, file))) == AppendLog(s);
  }

  /** The rewrite log once the last batch of a squeeze is on disk. */
  ghost predicate GroupLogged(f: RP.Files, s: Sys, log: seq<Record>, rw: seq<EntryIndex>, file: FileSeq)
    requires s.core.phase.Pass?
  {
    && RewritesOk(s.core.t, log, file) && LastIs(log, file, rw) && End(log) == s.core.phase.next + |rw|
    && RegionOk(f, s.core.t, log, s.rewriteMin, false) && MovedTo(s.core.t, log, s.core.phase.next)
  }

  lemma LastWriteLog(f: RP.Files, s: Sys, rw: seq<EntryIndex>, file: FileSeq)
    requires s.core.t.Valid() && RewritesOk(s.core.t, s.rlog, s.core.activeRewrite) && PassDisk(f, s)
    requires Enabled(f, s, WriteChunk(rw, file)) && s.core.phase.gate.None?
    requires PassOk(f, s.core.t, s.core.phase) && RP.PhaseShape(s.core) && |rw| == |s.core.phase.pending|
    ensures GroupLogged(f, s, s.rlog + (s.group + [Record(file, rw)]), rw, file)
  {
    hide Lookup, RegionOk, MovedTo;
    var t, p, r := s.core.t, s.core.phase, Record(file, rw);
    assert p.pending[0].index == p.next && rw[0].index == p.next;
    assert !s.done;
    GroupGrows(t, p, s.group, s.core.activeRewrite, r);
    InOrderMonotone(s.rlog, s.core.activeRewrite, file);
    GroupJoins(t, s.rlog, s.group + [r], p.start, file);
    GroupCovers(f, t, p, s.rlog, s.group, r, file, s.rewriteMin);
  }

  lemma LastWritePass(f: RP.Files, s: Sys, rw: seq<EntryIndex>, file: FileSeq)
    requires s.core.t.Valid() && Connected(s.rlog, RewriteQueue) && PassDisk(f, s)
    requires Enabled(f, s, WriteChunk(rw, file)) && s.core.phase.gate.None? && |rw| == |s.core.phase.pending|
    requires GroupLogged(f, s, s.rlog + (s.group + [Record(file, rw)]), rw, file)
    ensures PassDisk(f, Next(f, s, WriteChunk(rw, file))) && TailOk(s.core.t, s.rlog + (s.group + [Record(file, rw)]))
  {
    hide Lookup, RegionOk, MovedTo;
  }

  lemma LastWriteKeepsDisk(f: RP.Files, s: Sys, rw: seq<EntryIndex>, file: FileSeq)
    requires s.core.t.Valid() && DiskInv(f, s) && Enabled(f, s, WriteChunk(rw, file)) && s.core.phase.gate.None?
    requires PassOk(f, s.core.t, s.core.phase) && RP.PhaseShape(s.core) && |rw| == |s.core.phase.pending|
    ensures DiskInv(f, Next(f, s, WriteChunk(rw, file)))
  {
    hide HistoryOk, LogOk, RegionOk, TailOk, Lookup, PassDisk, PassOk, RP.CopiesOf, MovedTo;
    LastWriteLog(f, s, rw, file);
    LastWritePass(f, s, rw, file);
    assert AppendLog(Next(f, s, WriteChunk(rw, file))) == AppendLog(s);
  }

  /** What applying a chunk does to the table: rewritten entries may move, appended entries
      may become rewritten ones, and no content changes. */
  ghost predicate Relocated(f: RP.Files, t: Table, t': Table) {
    && t'.first == t.first && |t'.entries| == |t.entries| && t.Boundary() <= t'.Boundary()
    && (forall i: nat :: t.Has(i) ==> f.content(t'.At(i)) == f.content(t.At(i)))
    && (forall i: nat :: t.Has(i) && i >= t'.Boundary() ==> t'.At(i) == t.At(i))
  }

  lemma ApplyRelocates(f: RP.Files, t: Table, p: RP.Phase, rw: seq<EntryIndex>, file: FileSeq)
    requires t.Valid() && p.Pass? && PassOk(f, t, p)
    requires RP.CopiesOf(f, rw, p.pending, file) && CanRewrite(t, rw, p.gate)
    ensures Relocated(f, t, Rewritten(t, rw, p.gate)) && Rewritten(t, rw, p.gate).Valid()
  {
    RP.AllInIsRewrite(rw, file);
    RewrittenMoves(t, rw, p.gate);
    forall i: nat | t.Has(i)
      ensures f.content(Rewritten(t, rw, p.gate).At(i)) == f.content(t.At(i))
      ensures i >= Rewritten(t, rw, p.gate).Boundary() ==> Rewritten(t, rw, p.gate).At(i) == t.At(i)
    {
      RP.ChunkRange(f, t, p, rw, file, i);
    }
  }

  lemma RelocatedKeepsHistory(f: RP.Files, t: Table, t': Table, alog: seq<Record>, active: FileSeq)
    requires t.Valid() && t'.Valid() && Relocated(f, t, t') && HistoryOk(f, t, alog, active)
    ensures HistoryOk(f, t', alog, active)
  {
    forall i: nat | t'.Has(i)
      ensures t.Has(i) && (t'.At(i).Queue() == AppendQueue ==> t'.At(i) == t.At(i))
    {
      assert t'.At(i) == t'.entries[i - t'.first];
    }
  }

  /** Applying a gated chunk extends the region by what the log's last record holds. */
  lemma GatedApplyKeepsRegion(f: RP.Files, t: Table, p: RP.Phase, rlog: seq<Record>, active: FileSeq,
                              rw: seq<EntryIndex>, min: FileSeq, exact: bool)
    requires t.Valid() && p.Pass? && p.gate.Some? && PassOk(f, t, p)
    requires RP.CopiesOf(f, rw, p.pending, active) && CanRewrite(t, rw, p.gate)
    requires RewritesOk(t, rlog, active) && RegionOk(f, t, rlog, min, exact) && min <= active
    requires LastIs(rlog, active, rw)
    ensures RegionOk(f, Rewritten(t, rw, p.gate), rlog, min, exact)
  {
    var t' := Rewritten(t, rw, p.gate);
    var n := |rlog| - 1;
    assert p.pending[0].index == p.next && rw[0].index == p.next;
    forall i: nat | t'.first <= i < t'.Boundary() && t'.Has(i)
      ensures i < t.Boundary() ==> t'.At(i) == t.At(i)
      ensures i >= t.Boundary() ==> Lookup(rlog, i) == Some(t'.At(i)) && t'.At(i).Seq() == active
    {
      RP.ChunkRange(f, t, p, rw, active, i);
    }
  }

  lemma GatedApplyKeepsTail(f: RP.Files, s: Sys)
    requires s.core.t.Valid() && s.core.phase.Pass? && s.core.phase.gate.Some? && |s.written| > 0
    requires PassOk(f, s.core.t, s.core.phase) && CanRewrite(s.core.t, s.written, s.core.phase.gate)
    requires Connected(s.rlog, RewriteQueue) && PassDisk(f, s) && TailOk(s.core.t, s.rlog)
    ensures TailOk(Rewritten(s.core.t, s.written, s.core.phase.gate), s.rlog)
  {
    hide RewriteStop, RewriteLo, Rewritten, CanRewrite, AllIn;
    var t, p := s.core.t, s.core.phase;
    var t' := Rewritten(t, s.written, p.gate);
    assert p.pending[0].index == p.next && s.written[0].index == p.next;
    assert s.written[|s.written| - 1].index == p.next + |s.written| - 1;
    ApplyRelocates(f, t, p, s.written, s.core.activeRewrite);
    if |t'.entries| > 0 && t'.rewriteCount == |t'.entries| {
      var last := t.End() - 1;
      RP.ChunkRange(f, t, p, s.written, s.core.activeRewrite, last);
      assert t.At(last) == t.entries[|t.entries| - 1] && t'.At(last) == t'.entries[|t.entries| - 1];
      PendingIsAppended(f, s);
      assert t'.At(last) != t.At(last);
      assert p.low == t.End();
    }
  }

  lemma RelocatedKeepsPurged(f: RP.Files, s: Sys, t': Table, p': RP.Phase, written': seq<EntryIndex>)
    requires s.core.t.Valid() && t'.Valid() && Relocated(f, s.core.t, t') && PurgedOk(s)
    ensures PurgedOk(s.(core := s.core.(t := t', phase := p'), written := written'))
  {
    forall i: nat | t'.Has(i) && t'.At(i).Queue() == AppendQueue
      ensures s.core.t.Has(i) && t'.At(i) == s.core.t.At(i)
    {
      assert t'.At(i) == t'.entries[i - t'.first];
    }
  }

  lemma GatedApplyKeepsDisk(f: RP.Files, s: Sys)
    requires s.core.t.Valid() && DiskInv(f, s) && Enabled(f, s, ApplyWritten) && s.core.phase.gate.Some?
    requires PassOk(f, s.core.t, s.core.phase)
    ensures DiskInv(f, Next(f, s, ApplyWritten))
  {
    hide Max, PassOk, HistoryOk, LogOk, RegionOk, Lookup, Rewritten, CanRewrite;
    var t, p, file := s.core.t, s.core.phase, s.core.activeRewrite;
    var t', s' := Rewritten(t, s.written, p.gate), Next(f, s, ApplyWritten);
    ApplyRelocates(f, t, p, s.written, file);
    assert HistoryOk(f, t', s.alog, RP.Oldest(s.core)) by {
      RelocatedKeepsHistory(f, t, t', s.alog, RP.Oldest(s.core));
    }
    assert RegionOk(f, t', s.rlog, s.rewriteMin, RP.KnownSorted(s.core)) by {
      GatedApplyKeepsRegion(f, t, p, s.rlog, file, s.written, s.rewriteMin, RP.KnownSorted(s.core));
    }
    assert TailOk(t', s.rlog) by { GatedApplyKeepsTail(f, s); }
    assert PurgedOk(s') by { RelocatedKeepsPurged(f, s, t', s'.core.phase, []); }
  }

  /** Applying a chunk of a squeeze: the entries before `next` are where `log` says, if the
      chunk is the log's last record. */
  lemma SqueezeApplyMoves(f: RP.Files, t: Table, p: RP.Phase, log: seq<Record>, rw: seq<EntryIndex>, file: FileSeq)
    requires t.Valid() && p.Pass? && p.gate.None? && PassOk(f, t, p)
    requires RP.CopiesOf(f, rw, p.pending, file) && CanRewrite(t, rw, p.gate)
    requires Connected(log, RewriteQueue) && LastIs(log, file, rw) && MovedTo(t, log, p.next)
    ensures Rewritten(t, rw, p.gate).Boundary() == t.Boundary()
    ensures MovedTo(Rewritten(t, rw, p.gate), log, p.next + |rw|)
  {
    hide CanRewrite, Rewritten, Lookup;
    var t' := Rewritten(t, rw, p.gate);
    assert p.pending[0].index == p.next && rw[0].index == p.next;
    RP.AllInIsRewrite(rw, file);
    RewrittenMoves(t, rw, p.gate);
    forall i: nat | t'.first <= i < t'.Boundary() && t'.Has(i) && i < p.next + |rw|
      ensures Lookup(log, i) == Some(t'.At(i))
    {
      RP.ChunkRange(f, t, p, rw, file, i);
      if p.next <= i {
        LookupInLast(log, i);
      }
    }
  }

  /** The last record decides what it covers. */
  lemma LookupInLast(log: seq<Record>, i: nat)
    requires forall k :: 0 <= k < |log| ==> |log[k].es| > 0
    requires |log| > 0 && log[|log| - 1].First() <= i < log[|log| - 1].End()
    ensures Lookup(log, i) == Some(log[|log| - 1].es[i - log[|log| - 1].First()].loc)
  {
  }

  lemma RelocatedKeepsRegion(f: RP.Files, t: Table, t': Table, rlog: seq<Record>, active: FileSeq, min: FileSeq)
    requires t.Valid() && t'.Valid() && Relocated(f, t, t') && t'.Boundary() == t.Boundary()
    requires RewritesOk(t, rlog, active) && RegionOk(f, t, rlog, min, false) && TailOk(t, rlog)
    ensures RewritesOk(t', rlog, active) && RegionOk(f, t', rlog, min, false) && TailOk(t', rlog)
  {
  }

  lemma SqueezeApplyKeepsPass(f: RP.Files, s: Sys)
    requires s.core.t.Valid() && Connected(s.rlog, RewriteQueue) && PassDisk(f, s)
    requires Enabled(f, s, ApplyWritten) && s.core.phase.gate.None? && PassOk(f, s.core.t, s.core.phase)
    ensures PassDisk(f, Next(f, s, ApplyWritten))
  {
    var t, p := s.core.t, s.core.phase;
    SqueezeApplyMoves(f, t, p, if s.done then s.rlog else s.group, s.written, s.core.activeRewrite);
  }

  lemma SqueezeApplyKeepsDisk(f: RP.Files, s: Sys)
    requires s.core.t.Valid() && DiskInv(f, s) && Enabled(f, s, ApplyWritten) && s.core.phase.gate.None?
    requires PassOk(f, s.core.t, s.core.phase)
    ensures DiskInv(f, Next(f, s, ApplyWritten))
  {
    hide PassDisk, HistoryOk, LogOk, RegionOk, TailOk, Lookup, Rewritten, PassOk, CanRewrite;
    var t, p, file := s.core.t, s.core.phase, s.core.activeRewrite;
    var t', s' := Rewritten(t, s.written, p.gate), Next(f, s, ApplyWritten);
    ApplyRelocates(f, t, p, s.written, file);
    assert t'.Boundary() == t.Boundary() by {
      RP.AllInIsRewrite(s.written, file);
      RewrittenMoves(t, s.written, p.gate);
    }
    assert HistoryOk(f, t', s.alog, RP.Oldest(s.core)) by {
      RelocatedKeepsHistory(f, t, t', s.alog, RP.Oldest(s.core));
    }
    assert RewritesOk(t', s.rlog, file) && RegionOk(f, t', s.rlog, s.rewriteMin, false) && TailOk(t', s.rlog) by {
      RelocatedKeepsRegion(f, t, t', s.rlog, file, s.rewriteMin);
    }
    assert PurgedOk(s') by { RelocatedKeepsPurged(f, s, t', s'.core.phase, []); }
    assert PassDisk(f, s') by { SqueezeApplyKeepsPass(f, s); }
  }

  /** Ending a pass: after a complete squeeze every rewritten entry is where the log says. */
  lemma EndKeepsRegion(f: RP.Files, s: Sys, step: Step)
    requires s.core.t.Valid() && (step.Finish? || step.Abandon?) && Enabled(f, s, step)
    requires Connected(s.rlog, RewriteQueue) && PassDisk(f, s) && PassOk(f, s.core.t, s.core.phase)
    requires RegionOk(f, s.core.t, s.rlog, s.rewriteMin, RP.KnownSorted(s.core))
    ensures RegionOk(f, s.core.t, s.rlog, s.rewriteMin, RP.KnownSorted(Next(f, s, step).core))
  {
    hide Lookup;
    var t, p := s.core.t, s.core.phase;
    if step.Finish? && p.gate.None? {
      forall i: nat | t.first <= i < t.Boundary() && t.Has(i)
        ensures Lookup(s.rlog, i) == Some(t.At(i))
      {
        assert s.done;
        assert i < p.next;
      }
    }
  }

  lemma EndKeepsDisk(f: RP.Files, s: Sys, step: Step)
    requires s.core.t.Valid() && DiskInv(f, s) && (step.Finish? || step.Abandon?) && Enabled(f, s, step)
    requires PassOk(f, s.core.t, s.core.phase)
    ensures DiskInv(f, Next(f, s, step))
  {
    hide HistoryOk, LogOk, Lookup, PassDisk, TailOk, RegionOk, PassOk, RP.KnownSorted;
    var s' := Next(f, s, step);
    EndKeepsRegion(f, s, step);
    assert PassDisk(f, s') by { NoPassDisk(f, s'); }
    assert AppendLog(s') == AppendLog(s);
  }

  /** A safe purge bound is at or below every file the table reads. */
  lemma SafeMinIsSafe(t: Table, queue: LogQueue, active: FileSeq, min: FileSeq, i: nat)
    requires t.Valid() && PartsSorted(t, queue) && SafeMin(t, queue, active, min)
    requires t.Has(i) && t.At(i).Queue() == queue
    ensures min <= t.At(i).Seq()
  {
    MinFileSeqIsLowerBound(t, queue);
    assert t.entries[i - t.first].Seq() in FileRefs(t, queue);
  }

  lemma PurgeIsBounded(f: RP.Files, s: Sys, min: FileSeq)
    requires s.core.t.Valid() && Enabled(f, s, PurgeAppend(min))
    ensures SafeMin(s.core.t, AppendQueue, RP.Oldest(s.core), min) && min <= RP.Oldest(s.core)
  {
  }

  lemma RewritesConnect(t: Table, rlog: seq<Record>, active: FileSeq)
    requires RewritesOk(t, rlog, active)
    ensures Connected(rlog, RewriteQueue)
  {
  }

  lemma PurgeAppendKeepsDisk(f: RP.Files, s: Sys, min: FileSeq)
    requires s.core.t.Valid() && DiskInv(f, s) && PartsSorted(s.core.t, AppendQueue)
    requires Enabled(f, s, PurgeAppend(min))
    ensures DiskInv(f, Next(f, s, PurgeAppend(min)))
  {
    hide HistoryOk, LogOk, RegionOk, TailOk, Lookup, PassDisk, SafeMin, PartsSorted, RewritesOk, RP.KnownSorted;
    var s' := Next(f, s, PurgeAppend(min));
    assert SafeMin(s.core.t, AppendQueue, RP.Oldest(s.core), min) && min <= RP.Oldest(s.core) by { PurgeIsBounded(f, s, min); }
    assert Connected(s.rlog, RewriteQueue) by { RewritesConnect(s.core.t, s.rlog, s.core.activeRewrite); }
    assert AppendLog(s') == AppendLog(s);
    PassDiskIgnores(f, s, s');
    forall i: nat | s.core.t.Has(i) && s.core.t.At(i).Queue() == AppendQueue
      ensures min <= s.core.t.At(i).Seq()
    {
      SafeMinIsSafe(s.core.t, AppendQueue, RP.Oldest(s.core), min, i);
    }
  }

  lemma PurgeRewriteKeepsDisk(f: RP.Files, s: Sys, min: FileSeq)
    requires s.core.t.Valid() && DiskInv(f, s) && PartsSorted(s.core.t, RewriteQueue)
    requires Enabled(f, s, PurgeRewrite(min))
    ensures DiskInv(f, Next(f, s, PurgeRewrite(min)))
  {
    hide HistoryOk, LogOk, TailOk, Lookup, PartsSorted, MinFileSeq;
    forall i: nat | s.core.t.Has(i) && s.core.t.At(i).Queue() == RewriteQueue
      ensures min <= s.core.t.At(i).Seq()
    {
      SafeMinIsSafe(s.core.t, RewriteQueue, s.core.activeRewrite, min, i);
    }
    assert forall i: nat :: s.core.t.Has(i) && i < s.core.t.Boundary() ==> s.core.t.At(i).Queue() == RewriteQueue;
  }

  // ------------------------------------------------------------------- the core

  /** A table that shows a log shows nothing else. */
  lemma ShownIs(f: RP.Files, t: Table, log: map<nat, Bytes>)
    requires RV.ShowsLog(f, t, log)
    ensures log == Shown(f, t)
  {
  }

  /** Steps of the core without keys. */
  predicate PlainStep(step: RP.Step) {
    && !step.ApplyKey? && !step.MarkGroup?
    && (step.Write? ==> forall k :: 0 <= k < |step.ops| ==> step.ops[k].Entries?)
  }

  lemma StepStaysPlain(f: RP.Files, c: RP.State, step: RP.Step)
    requires Plain(c) && c.t.Valid() && RP.Enabled(f, c, step) && PlainStep(step)
    ensures Plain(RP.Next(f, c, step))
    ensures RV.NextModel(f, c, RP.Model(Shown(f, c.t), map[]), step).keys == map[]
  {
    hide Appended, Shown, RV.Overwrite;
    assert c.t.kvs == map[];
    assert forall gate :: RP.FetchedKeys(c.t, gate) == map[];
    var c' := RP.Next(f, c, step);
    if step.ApplyNext? {
      RP.BareApply(c.t, c.flight[0]);
    }
    if step.ApplyChunk? {
      RP.BareRewrite(c.t, step.rw, c.phase.gate);
    }
  }

  /** One step of the core: still in shape, and the table shows what the step says. */
  lemma CoreStep(f: RP.Files, c: RP.State, step: RP.Step)
    requires CoreInv(f, c) && RP.Enabled(f, c, step) && RV.ClearFetch(c, step) && PlainStep(step)
    ensures CoreInv(f, RP.Next(f, c, step))
    ensures Shown(f, RP.Next(f, c, step).t) == RV.NextModel(f, c, RP.Model(Shown(f, c.t), map[]), step).log
  {
    hide RP.EntryShape, RP.FlightOk, RP.KeyShape, RP.PhaseShape, RP.Enabled, RP.Next, RV.NextModel, PlainStep, Shown, RV.KeyView, RV.FlightClear, RV.ClearFetch;
    var m := RP.Model(Shown(f, c.t), map[]);
    var c', m' := RP.Next(f, c, step), RV.NextModel(f, c, m, step);
    RP.StepKeepsShape(f, c, step);
    RV.StepKeepsView(f, c, m, step);
    StepStaysPlain(f, c, step);
    ShownIs(f, c'.t, m'.log);
    assert m' == RP.Model(Shown(f, c'.t), map[]);
  }
}
