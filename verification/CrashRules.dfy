/**
 Which gates are safe: the write that is lost if a gate is chosen too high, and that nothing is lost
 otherwise.
 */
module CrashRules {
  import opened PipeLog
  import opened Tables
  import opened RecordLog
  import opened OpLogs
  import opened CrashRegions
  import opened CrashKeys
  import opened CrashRuns
  import opened CrashCold
  import C = RecordCuts
  import E = CrashRecovery
  import RP = RewritePass
  import RV = RewriteView
  import RR = RewriteRuns

  function PairOp(file: FileSeq, tag: nat): RP.Op { RP.Entries(RR.Pair(AppendQueue, file, tag)) }

  /** A region with indexes 1 and 2 in `file`. */
  function PairRegion(file: FileSeq): Region {
    InitRegion.(core := RP.State(RR.PairTable(file, 0), [], RP.Idle, file, 0, true),
                alog := [RP.Written(PairOp(file, 0), file)])
  }

  lemma Rotated(file: FileSeq, rule: RR.Rule) returns (steps: seq<Step>)
    ensures Runs(RR.Tagged, InitRegion, steps) && Follows(RR.Tagged, InitRegion, steps, rule)
    ensures After(RR.Tagged, InitRegion, steps) == InitRegion.(core := RR.InitState.(activeAppend := file))
  {
    steps := [];
    if file > 0 {
      RunExtends(RR.Tagged, InitRegion, Nothing, steps, Rotate(file), rule);
      steps := steps + [Rotate(file)];
    }
  }

  /** Indexes 1 and 2 are written to `file` and applied. */
  lemma PairApplied(file: FileSeq, rule: RR.Rule) returns (steps: seq<Step>)
    ensures Runs(RR.Tagged, InitRegion, steps) && Follows(RR.Tagged, InitRegion, steps, rule)
    ensures After(RR.Tagged, InitRegion, steps) == PairRegion(file)
  {
    hide Runs, Follows, After, History;
    steps := Rotated(file, rule);
    var s := After(RR.Tagged, InitRegion, steps);
    assert AppendLog(s) == [];
    RunExtends(RR.Tagged, InitRegion, Nothing, steps, Write(PairOp(file, 0)), rule);
    steps := steps + [Write(PairOp(file, 0))];
    RunExtends(RR.Tagged, InitRegion, Nothing, steps, ApplyNext, rule);
    steps := steps + [ApplyNext];
    assert After(RR.Tagged, InitRegion, steps).core.t == RR.PairTable(file, 0);
  }

  // ------------------------------------------------------------------- a cold region

  const AnyKey: Bytes := [107]
  const AnyValue: Bytes := [118]

  /** A region with two entries and a key, all in append file 0. */
  lemma WarmRegion(rule: RR.Rule) returns (steps: seq<Step>)
    ensures Runs(RR.Tagged, InitRegion, steps) && Follows(RR.Tagged, InitRegion, steps, rule)
    ensures var s, put := After(RR.Tagged, InitRegion, steps), RP.PutKey(AnyKey, AnyValue);
            s == PairRegion(0).(core := PairRegion(0).core.(t := Put(RR.PairTable(0, 0), AnyKey, AnyValue, FileId(AppendQueue, 0))),
                                alog := PairRegion(0).alog + [RP.Written(put, 0)])
  {
    hide Runs, Follows, After, History;
    var put := RP.PutKey(AnyKey, AnyValue);
    steps := PairApplied(0, rule);
    RunExtends(RR.Tagged, InitRegion, Nothing, steps, Write(put), rule);
    steps := steps + [Write(put)];
    RunExtends(RR.Tagged, InitRegion, Nothing, steps, ApplyNext, rule);
    steps := steps + [ApplyNext];
  }

  /** There is a region with entries and a key whose append files are all gone: the theorem is about
      it as well. */
  lemma ColdRegionExists(rule: RR.Rule) returns (steps: seq<Step>)
    requires rule(0, None)
    ensures Runs(RR.Tagged, InitRegion, steps) && Follows(RR.Tagged, InitRegion, steps, rule)
    ensures var s := After(RR.Tagged, InitRegion, steps);
            && 0 < |s.core.t.entries| == s.core.t.rewriteCount
            && AnyKey in s.core.t.kvs && s.core.t.kvs[AnyKey].id.queue == RewriteQueue
            && KeptOps(AppendLog(s), s.appendMin) == []
  {
    hide Runs, Follows, After, History, Inv, KeptOps, AppendLog;
    var first := WarmRegion(rule);
    var s := After(RR.Tagged, InitRegion, first);
    var none: RR.Rule := (g, q) => false;
    var same := WarmRegion(none);
    InitInv(RR.Tagged);
    RunKeepsInv(RR.Tagged, InitRegion, Nothing, same, none);
    WarmCopies(s);
    var rest := ColdRegionMoves(RR.Tagged, s, RR.Pair(RewriteQueue, 0, 0), [RP.PutKey(AnyKey, AnyValue)], 0, rule);
    RunsInRow(RR.Tagged, InitRegion, first, rest, rule);
    steps := first + rest;
  }

  lemma WarmCopies(s: Region)
    requires s.core.t == Put(RR.PairTable(0, 0), AnyKey, AnyValue, FileId(AppendQueue, 0))
    requires s.core.activeAppend == 0 && s.core.activeRewrite == 0
    ensures s.core.t.Valid()
    ensures CopyOf(RR.Tagged, s, RR.Pair(RewriteQueue, 0, 0), [RP.PutKey(AnyKey, AnyValue)], 0)
  {
    hide FetchedBefore, RP.FetchedKeys, PairsOf, RP.CopiesOf;
    WarmEntries();
    WarmKeys();
  }

  lemma WarmEntries()
    ensures var t := Put(RR.PairTable(0, 0), AnyKey, AnyValue, FileId(AppendQueue, 0));
            && t.Valid() && |FetchedBefore(t, 0)| == 2
            && RP.CopiesOf(RR.Tagged, RR.Pair(RewriteQueue, 0, 0), FetchedBefore(t, 0), 0)
  {
    var t := Put(RR.PairTable(0, 0), AnyKey, AnyValue, FileId(AppendQueue, 0));
    FetchedFromIsRun(t, 0, 0);
    assert FetchedBefore(t, 0) == RR.Pair(AppendQueue, 0, 0);
  }

  lemma WarmKeys()
    ensures var t := Put(RR.PairTable(0, 0), AnyKey, AnyValue, FileId(AppendQueue, 0));
            PairsOf(RR.Tagged, [RP.PutKey(AnyKey, AnyValue)], RP.FetchedKeys(t, Some(0)), 0)
  {
    var t, put := Put(RR.PairTable(0, 0), AnyKey, AnyValue, FileId(AppendQueue, 0)), RP.PutKey(AnyKey, AnyValue);
    assert RP.FetchedKeys(t, Some(0)) == map[AnyKey := AnyValue];
    assert [put][0] == put;
  }

  // --------------------------------------------------------------------- a lost write

  /** The region while a pass at `gate` has fetched it too early: an overwrite of both indexes
      in the same file is written and not applied. */
  function EarlyRegion(gate: FileSeq, file: FileSeq): Region {
    PairRegion(file).(
      core := RP.State(RR.PairTable(file, 0), [RP.Written(PairOp(file, 1), file)],
                       RP.Pass(Some(gate), 0, RR.Pair(AppendQueue, file, 0), map[], 1, 3), gate + 1, 0, true))
  }

  lemma FetchedTooEarly(gate: FileSeq, file: FileSeq, rule: RR.Rule) returns (steps: seq<Step>)
    requires file <= gate && rule(gate, Some(file))
    ensures Runs(RR.Tagged, InitRegion, steps) && Follows(RR.Tagged, InitRegion, steps, rule)
    ensures After(RR.Tagged, InitRegion, steps) == EarlyRegion(gate, file)
    ensures var log := History(RR.Tagged, Nothing, steps).log; 1 in log && log[1] == [1]
  {
    hide Runs, Follows, After, History;
    steps := PairApplied(file, rule);
    PairFits(file);
    RunExtends(RR.Tagged, InitRegion, Nothing, steps, Write(PairOp(file, 1)), rule);
    steps := steps + [Write(PairOp(file, 1))];
    RunExtends(RR.Tagged, InitRegion, Nothing, steps, Rotate(gate + 1), rule);
    steps := steps + [Rotate(gate + 1)];
    RR.PairIsFetched(file, gate);
    RunExtends(RR.Tagged, InitRegion, Nothing, steps, Begin(Some(gate)), rule);
    steps := steps + [Begin(Some(gate))];
  }

  lemma PairFits(file: FileSeq)
    ensures E.Fits(EntryRecords(AppendLog(PairRegion(file))), 1)
  {
    assert AppendLog(PairRegion(file)) == [] + [RP.Written(PairOp(file, 0), file)];
    RecordsSnoc([], RP.Written(PairOp(file, 0), file));
  }

  /** The old entries are copied, the overwrite is applied, then the copies, and the pass ends. */
  lemma CopiedTooLate(gate: FileSeq, file: FileSeq, rule: RR.Rule) returns (steps: seq<Step>)
    requires file <= gate && rule(gate, Some(file))
    ensures Runs(RR.Tagged, InitRegion, steps) && Follows(RR.Tagged, InitRegion, steps, rule)
    ensures var s := After(RR.Tagged, InitRegion, steps);
            && s.core.t == Rewritten(RR.PairTable(file, 1), RR.Pair(RewriteQueue, 0, 0), Some(gate))
            && s.core.phase.Idle? && s.core.flight == [] && s.core.activeAppend == gate + 1
            && s.appendMin == s.rewriteMin == 0
            && s.alog == [RP.Written(PairOp(file, 0), file), RP.Written(PairOp(file, 1), file)]
            && s.rlog == [RP.Written(RP.Entries(RR.Pair(RewriteQueue, 0, 0)), 0)]
    ensures var log := History(RR.Tagged, Nothing, steps).log; 1 in log && log[1] == [1]
  {
    hide Runs, Follows, After, History, Rewritten, CanRewrite;
    steps := FetchedTooEarly(gate, file, rule);
    var rw := RR.Pair(RewriteQueue, 0, 0);
    RunExtends(RR.Tagged, InitRegion, Nothing, steps, WriteChunk(rw, 0), rule);
    steps := steps + [WriteChunk(rw, 0)];
    RunExtends(RR.Tagged, InitRegion, Nothing, steps, ApplyNext, rule);
    steps := steps + [ApplyNext];
    assert After(RR.Tagged, InitRegion, steps).core.t == RR.PairTable(file, 1);
    StaleCopies(gate, file);
    RunExtends(RR.Tagged, InitRegion, Nothing, steps, ApplyWritten, rule);
    steps := steps + [ApplyWritten];
    assert After(RR.Tagged, InitRegion, steps).core.phase.pending == [];
    RunExtends(RR.Tagged, InitRegion, Nothing, steps, Finish, rule);
    steps := steps + [Finish];
  }

  lemma StaleCopies(gate: FileSeq, file: FileSeq)
    requires file <= gate
    ensures var t, rw := RR.PairTable(file, 1), RR.Pair(RewriteQueue, 0, 0);
            CanRewrite(t, rw, Some(gate)) && Rewritten(t, rw, Some(gate)).rewriteCount == 2
            && Rewritten(t, rw, Some(gate)).kvs == map[] && |Rewritten(t, rw, Some(gate)).entries| == 2
  {
    var blank := RP.Files((l: Location) => [], (id, k, v) => true);
    FetchedFromIsRun(RR.PairTable(file, 1), 0, gate);
    ColdChunk(blank, RR.PairTable(file, 1), gate, 0, RR.Pair(RewriteQueue, 0, 0), 0);
  }

  /** The overwrite was acknowledged, its file is purged, and a restart has only the old entry. */
  lemma WriteIsLost(gate: FileSeq, file: FileSeq, rule: RR.Rule) returns (steps: seq<Step>)
    requires file <= gate && rule(gate, Some(file))
    ensures Runs(RR.Tagged, InitRegion, steps) && Follows(RR.Tagged, InitRegion, steps, rule)
    ensures !Recovers(RR.Tagged, After(RR.Tagged, InitRegion, steps), History(RR.Tagged, Nothing, steps))
  {
    hide Runs, Follows, After, History, Rewritten, MinFileSeq, KeptOps, Rebuilt, E.Shown, ShownKeys;
    steps := CopiedTooLate(gate, file, rule);
    StaleCopies(gate, file);
    NothingInUse(After(RR.Tagged, InitRegion, steps).core.t);
    RunExtends(RR.Tagged, InitRegion, Nothing, steps, PurgeAppend(gate + 1), rule);
    steps := steps + [PurgeAppend(gate + 1)];
    var s := After(RR.Tagged, InitRegion, steps);
    assert AppendLog(s) == s.alog;
    KeptOpsNone(s.alog, gate + 1);
    assert KeptOps(s.rlog, 0) == s.rlog by { AllKept(s.rlog); }
    var appends, rewrites := Piece([]), Piece(s.rlog);
    assert CutsOf(s, appends, rewrites);
    OldPairRebuilt();
  }

  lemma {:induction false} AllKept(log: seq<RP.Written>)
    ensures KeptOps(log, 0) == log
    decreases |log|
  {
    hide KeptOps;
    if |log| == 0 {
      NothingKeptOps(log, 0);
    } else {
      AllKept(log[..|log| - 1]);
      KeptOpsSnoc(log, 0);
    }
  }

  lemma OldPairRebuilt()
    ensures var t := Rebuilt(Piece([]), Piece([RP.Written(RP.Entries(RR.Pair(RewriteQueue, 0, 0)), 0)]));
            t.Some? && var log := E.Shown(RR.Tagged, t.value); 1 in log && log[1] == [0]
  {
    var w := RP.Written(RP.Entries(RR.Pair(RewriteQueue, 0, 0)), 0);
    assert [w][..0] == [];
    assert Replayable(RewriteQueue, [w]) && ReplayOps(RewriteQueue, [w]) == ReplayRewrite(EmptyTable, w.op.es);
    var t := ReplayRewrite(EmptyTable, w.op.es);
    assert t.first == 1 && t.entries == Locations(w.op.es);
    var m := MergeAppendTable(t, EmptyTable);
    assert m.first == 1 && m.entries == t.entries;
    assert m.Has(1) && m.At(1) == RR.Tag(RewriteQueue, 0, 0);
  }

  /** Exactly under the clear rules a restart always rebuilds what was written. */
  lemma CrashSafeExactly(rule: RR.Rule)
    ensures (forall f: RP.Files, steps :: Runs(f, InitRegion, steps) && Follows(f, InitRegion, steps, rule) ==>
                                            Recovers(f, After(f, InitRegion, steps), History(f, Nothing, steps)))
            <==> RR.Clear(rule)
  {
    hide Recovers, Follows, After, History;
    if RR.Clear(rule) {
      forall f: RP.Files, steps | Runs(f, InitRegion, steps) && Follows(f, InitRegion, steps, rule)
        ensures Recovers(f, After(f, InitRegion, steps), History(f, Nothing, steps))
      {
        CrashRecoveryAgrees(f, steps, rule);
      }
    } else {
      var gate, file :| rule(gate, Some(file)) && file <= gate;
      var steps := WriteIsLost(gate, file, rule);
      assert Runs(RR.Tagged, InitRegion, steps);
    }
  }
}
