/**
 Every step of a region's entries, a restart included, keeps what a restart needs, and the log that
 was written is what the steps wrote.
 */
module CrashEntries {
  import opened PipeLog
  import opened Tables
  import opened RecordLog
  import opened CrashRecovery
  import opened CrashSteps
  import opened CrashRestart
  import C = RecordCuts
  import RP = RewritePass
  import RV = RewriteView
  import RR = RewriteRuns

  // --------------------------------------------------------------- one step

  /** What was written so far, whatever has happened to the process since. */
  ghost function NextHistory(f: RP.Files, log: map<nat, Bytes>, step: Step): map<nat, Bytes> {
    if step.Append? && |step.es| > 0 then RV.Overwrite(log, step.es[0].index, RV.Contents(f, step.es)) else log
  }

  predicate ClearFetch(s: Sys, step: Step) {
    step.Begin? ==> RV.ClearFetch(s.core, BeginStep(step.gate))
  }

  /** The core step a system step takes, if any. */
  function CoreStepOf(s: Sys, step: Step): Option<RP.Step> {
    match step
    case Rotate(file) => Some(RP.Rotate(file))
    case Append(es) => Some(RP.Write([RP.Entries(es)]))
    case ApplyNext => Some(RP.ApplyNext)
    case Begin(gate) => Some(BeginStep(gate))
    case ApplyWritten => Some(RP.ApplyChunk(s.written, s.core.activeRewrite))
    case Finish => Some(RP.EndPass)
    case Abandon => Some(RP.AbandonPass)
    case _ => None
  }

  lemma BumpKeepsCore(f: RP.Files, c: RP.State, file: FileSeq)
    requires CoreInv(f, c) && c.activeRewrite <= file
    ensures CoreInv(f, c.(activeRewrite := file))
  {
    RP.EntriesBoundedMonotone(c.t, RP.Oldest(c), c.activeRewrite, RP.Oldest(c), file);
  }

  lemma StepKeepsCore(f: RP.Files, s: Sys, step: Step)
    requires CoreInv(f, s.core) && Enabled(f, s, step) && ClearFetch(s, step) && !step.Restart?
    ensures CoreInv(f, Next(f, s, step).core)
    ensures !step.ApplyNext? ==> Shown(f, Next(f, s, step).core.t) == Shown(f, s.core.t)
  {
    hide CoreInv, Shown, RP.Enabled, RP.Next, SafeMin, RP.CopiesOf;
    var cs := CoreStepOf(s, step);
    if cs.Some? {
      CoreStep(f, s.core, cs.value);
    } else if step.WriteChunk? || step.MoveOn? {
      BumpKeepsCore(f, s.core, step.file);
    }
  }

  lemma PassFacts(f: RP.Files, c: RP.State)
    requires CoreInv(f, c)
    ensures c.t.Valid() && RP.PhaseShape(c) && PartsSorted(c.t, AppendQueue)
    ensures RP.KnownSorted(c) ==> PartsSorted(c.t, RewriteQueue)
    ensures c.phase.Pass? ==> PassOk(f, c.t, c.phase)
    ensures RP.FlightOk(f, c.flight, c.activeAppend) && EntriesOnly(c.flight)
  {
  }

  lemma WriteChunkKeepsDisk(f: RP.Files, s: Sys, rw: seq<EntryIndex>, file: FileSeq)
    requires Inv(f, s) && Enabled(f, s, WriteChunk(rw, file))
    ensures DiskInv(f, Next(f, s, WriteChunk(rw, file)))
  {
    hide CoreInv, DiskInv, PassOk, PartsSorted, Next;
    var c := s.core;
    PassFacts(f, c);
    if c.phase.gate.Some? {
      GatedWriteKeepsDisk(f, s, rw, file);
    } else if |rw| < |c.phase.pending| {
      PendingStarts(f, c);
      MidWriteKeepsDisk(f, s, rw, file);
    } else {
      LastWriteKeepsDisk(f, s, rw, file);
    }
  }

  lemma ApplyWrittenKeepsDisk(f: RP.Files, s: Sys)
    requires Inv(f, s) && Enabled(f, s, ApplyWritten)
    ensures DiskInv(f, Next(f, s, ApplyWritten))
  {
    hide CoreInv, DiskInv, PassOk, PartsSorted, Next;
    PassFacts(f, s.core);
    if s.core.phase.gate.Some? {
      GatedApplyKeepsDisk(f, s);
    } else {
      SqueezeApplyKeepsDisk(f, s);
    }
  }

  lemma EndStepKeepsDisk(f: RP.Files, s: Sys, step: Step)
    requires Inv(f, s) && Enabled(f, s, step) && (step.Finish? || step.Abandon?)
    ensures DiskInv(f, Next(f, s, step))
  {
    hide CoreInv, DiskInv, PassOk, PartsSorted, Next;
    PassFacts(f, s.core);
    EndKeepsDisk(f, s, step);
  }

  lemma PurgeRewriteStep(f: RP.Files, s: Sys, min: FileSeq)
    requires Inv(f, s) && Enabled(f, s, PurgeRewrite(min))
    ensures DiskInv(f, Next(f, s, PurgeRewrite(min)))
  {
    hide CoreInv, DiskInv, PassOk, PartsSorted, Next, SafeMin;
    PassFacts(f, s.core);
    PurgeRewriteKeepsDisk(f, s, min);
  }

  lemma StepKeepsDisk(f: RP.Files, s: Sys, step: Step)
    requires Inv(f, s) && Enabled(f, s, step) && !step.Restart?
    ensures DiskInv(f, Next(f, s, step))
  {
    hide CoreInv, DiskInv, PassOk, PartsSorted, Enabled, Next;
    PassFacts(f, s.core);
    match step
    case Rotate(file) => RotateKeepsDisk(f, s, file);
    case Append(es) => WriteKeepsDisk(f, s, es);
    case ApplyNext => ApplyKeepsDisk(f, s);
    case Begin(gate) => BeginKeepsDisk(f, s, gate);
    case MoveOn(file) => MoveOnKeepsDisk(f, s, file);
    case WriteChunk(rw, file) => WriteChunkKeepsDisk(f, s, rw, file);
    case ApplyWritten => ApplyWrittenKeepsDisk(f, s);
    case Finish => EndStepKeepsDisk(f, s, step);
    case Abandon => EndStepKeepsDisk(f, s, step);
    case PurgeAppend(min) => PurgeAppendKeepsDisk(f, s, min);
    case PurgeRewrite(min) => PurgeRewriteStep(f, s, min);
  }

  lemma PendingStarts(f: RP.Files, c: RP.State)
    requires CoreInv(f, c) && c.phase.Pass? && |c.phase.pending| > 0
    ensures c.phase.pending[0].index == c.phase.next
  {
  }

  /** The written log, seen from the live table: what it shows and what is in flight. */
  ghost function WrittenLog(f: RP.Files, s: Sys): map<nat, Bytes> {
    Flushed(f, Shown(f, s.core.t), s.core.flight)
  }

  lemma AppendWrites(f: RP.Files, s: Sys, es: seq<EntryIndex>)
    requires Inv(f, s) && Enabled(f, s, Append(es))
    ensures WrittenLog(f, Next(f, s, Append(es))) == NextHistory(f, WrittenLog(f, s), Append(es))
  {
    hide CoreInv, DiskInv, Shown, Flushed, RV.Overwrite, RP.Enabled, AppendLog, Fits;
    PassFacts(f, s.core);
    var w := RP.Written(RP.Entries(es), s.core.activeAppend);
    assert Next(f, s, Append(es)).core.flight == s.core.flight + [w];
    FlushedSnoc(f, Shown(f, s.core.t), s.core.flight, w);
  }

  lemma RestartWrites(f: RP.Files, s: Sys, appends: C.Cut, rewrites: C.Cut)
    requires Inv(f, s) && Enabled(f, s, Restart(appends, rewrites))
    ensures WrittenLog(f, Next(f, s, Restart(appends, rewrites))) == WrittenLog(f, s)
  {
    hide CoreInv, DiskInv, Shown, Recovered, Rebuilt, CutsOf, Restarted;
    RestartFromAny(f, s, appends, rewrites);
    RestartedFlight(s, Recovered(s));
  }

  lemma StepWrites(f: RP.Files, s: Sys, step: Step)
    requires Inv(f, s) && Enabled(f, s, step) && ClearFetch(s, step)
    ensures WrittenLog(f, Next(f, s, step)) == NextHistory(f, WrittenLog(f, s), step)
  {
    hide CoreInv, DiskInv, Shown, Enabled, Next, ClearFetch, RV.Said, RV.Overwrite;
    PassFacts(f, s.core);
    if step.Append? {
      AppendWrites(f, s, step.es);
    } else if step.ApplyNext? {
      NextIsThere(f, s);
      ApplyKeepsInv(f, s);
      NextIsGone(f, s);
    } else if step.Restart? {
      RestartWrites(f, s, step.appends, step.rewrites);
    } else {
      StepKeepsCore(f, s, step);
      FlightStays(f, s, step);
    }
  }

  lemma NextIsGone(f: RP.Files, s: Sys)
    requires s.core.t.rewriteCount <= |s.core.t.entries| && Enabled(f, s, ApplyNext)
    ensures Next(f, s, ApplyNext).core.flight == s.core.flight[1..]
  {
  }

  lemma NextIsThere(f: RP.Files, s: Sys)
    requires s.core.t.rewriteCount <= |s.core.t.entries| && Enabled(f, s, ApplyNext)
    ensures |s.core.flight| > 0
  {
  }

  lemma RestartedFlight(s: Sys, t: Table)
    ensures Restarted(s, t).core.flight == [] && Restarted(s, t).core.t == t
  {
  }

  lemma FlightStays(f: RP.Files, s: Sys, step: Step)
    requires s.core.t.rewriteCount <= |s.core.t.entries| && Enabled(f, s, step)
    requires !step.Append? && !step.ApplyNext? && !step.Restart?
    ensures Next(f, s, step).core.flight == s.core.flight
  {
  }

  /** Every step, a crash and restart included, keeps the relation between the live table, what
      is in flight, both logs on disk and the written history. */
  lemma StepKeepsInv(f: RP.Files, s: Sys, step: Step)
    requires Inv(f, s) && Enabled(f, s, step) && ClearFetch(s, step)
    ensures Inv(f, Next(f, s, step))
    ensures WrittenLog(f, Next(f, s, step)) == NextHistory(f, WrittenLog(f, s), step)
  {
    hide CoreInv, DiskInv, Enabled, ClearFetch, WrittenLog, Rebuilt, NextHistory;
    StepWrites(f, s, step);
    if step.Restart? {
      RestartStepKeepsInv(f, s, step.appends, step.rewrites);
    } else {
      StepKeepsCore(f, s, step);
      StepKeepsDisk(f, s, step);
    }
  }

  lemma RestartStepKeepsInv(f: RP.Files, s: Sys, appends: C.Cut, rewrites: C.Cut)
    requires Inv(f, s) && Enabled(f, s, Restart(appends, rewrites))
    ensures Inv(f, Next(f, s, Restart(appends, rewrites)))
  {
    hide CoreInv, DiskInv, Rebuilt, CutsOf;
    RestartFromAny(f, s, appends, rewrites);
  }

  // ------------------------------------------------------------------ the beginning

  const InitSys := Sys(RR.InitState, [], [], [], [], false, 0, 0)

  lemma InitInv(f: RP.Files)
    ensures Inv(f, InitSys) && WrittenLog(f, InitSys) == map[]
  {
    hide CoreInv, DiskInv;
    assert CoreInv(f, InitSys.core) by { RestartedCore(f, EmptyTable, 0, 0); }
    assert DiskInv(f, InitSys) by { EmptyDisk(f); }
  }

  lemma EmptyDisk(f: RP.Files)
    ensures DiskInv(f, InitSys)
  {
    hide PassDisk, RP.KnownSorted, HistoryOk, LogOk, RegionOk;
    var s := InitSys;
    assert AppendLog(s) == [];
    EmptyLogs(f);
    assert PassDisk(f, s) by { NoPassDisk(f, s); }
  }

  lemma EmptyLogs(f: RP.Files)
    ensures HistoryOk(f, EmptyTable, [], 0) && LogOk([], 0)
    ensures forall exact :: RegionOk(f, EmptyTable, [], 0, exact)
  {
    hide Lookup;
    forall i: nat ensures Lookup([], i) == None { NothingKept(0, i); }
  }
}
