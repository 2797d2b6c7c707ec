/**
 Runs that show what the crash theorem is about: a cold region, its entries and its keys, ends up in
 the rewrite queue alone.
 */
module CrashCold {
  import opened PipeLog
  import opened Tables
  import opened RecordLog
  import opened OpLogs
  import opened CrashRegions
  import opened CrashKeys
  import opened CrashRuns
  import E = CrashRecovery
  import RP = RewritePass
  import RV = RewriteView
  import RR = RewriteRuns

  // ------------------------------------------------------------------------------ runs

  /** The run can be prolonged by one step. */
  ghost predicate CanExtend(f: RP.Files, s: Region, steps: seq<Step>, step: Step, rule: RR.Rule)
    requires Runs(f, s, steps)
  {
    var s' := After(f, s, steps);
    && s'.core.t.rewriteCount <= |s'.core.t.entries| && Enabled(f, s', step)
    && (step.Begin? && step.gate.Some? ==> rule(step.gate.value, RP.FirstUnapplied(s'.core)))
  }

  lemma {:induction false} RunExtends(f: RP.Files, s: Region, m: RP.Model, steps: seq<Step>, step: Step, rule: RR.Rule)
    requires Runs(f, s, steps) && Follows(f, s, steps, rule) && CanExtend(f, s, steps, step, rule)
    ensures Runs(f, s, steps + [step]) && Follows(f, s, steps + [step], rule)
    ensures After(f, s, steps + [step]) == Next(f, After(f, s, steps), step)
    ensures History(f, m, steps + [step]) == NextWritten(f, History(f, m, steps), step)
    decreases |steps|
  {
    hide Enabled, Next, NextWritten;
    if |steps| == 0 {
      assert (steps + [step])[1..] == [];
    } else {
      assert (steps + [step])[1..] == steps[1..] + [step];
      RunExtends(f, Next(f, s, steps[0]), NextWritten(f, m, steps[0]), steps[1..], step, rule);
    }
  }

  lemma NoSteps(f: RP.Files, s: Region, rule: RR.Rule)
    ensures Runs(f, s, []) && Follows(f, s, [], rule) && After(f, s, []) == s
  {
  }

  lemma {:induction false} RunsInRow(f: RP.Files, s: Region, a: seq<Step>, b: seq<Step>, rule: RR.Rule)
    requires Runs(f, s, a) && Follows(f, s, a, rule)
    requires Runs(f, After(f, s, a), b) && Follows(f, After(f, s, a), b, rule)
    ensures Runs(f, s, a + b) && Follows(f, s, a + b, rule)
    ensures After(f, s, a + b) == After(f, After(f, s, a), b)
    decreases |a|
  {
    hide Enabled, Next;
    if |a| == 0 {
      assert a + b == b;
    } else {
      assert (a + b)[1..] == a[1..] + b && (a + b)[0] == a[0];
      RunsInRow(f, Next(f, s, a[0]), a[1..], b, rule);
    }
  }

  // -------------------------------------------------------------------------- one pass

  /** A pass at the newest file of the region fetches all that is appended, and one chunk of
      copies moves the boundary to the end. */
  lemma ColdChunk(f: RP.Files, t: Table, gate: FileSeq, rewrite: FileSeq, rw: seq<EntryIndex>, file: FileSeq)
    requires t.Valid() && RP.EntriesBounded(t, gate, rewrite)
    requires RP.CopiesOf(f, rw, FetchedBefore(t, gate), file) && |rw| == |FetchedBefore(t, gate)|
    ensures CanRewrite(t, rw, Some(gate))
    ensures Rewritten(t, rw, Some(gate)).rewriteCount == |t.entries|
  {
    forall k | t.rewriteCount <= k < |t.entries|
      ensures t.entries[k].Seq() <= gate
    {
      assert RP.Bounded(t.entries[k].block.id, gate, rewrite);
    }
    FetchedFromIsRun(t, t.rewriteCount, gate);
    var n := |FetchedBefore(t, gate)|;
    assert n == |t.entries| - t.rewriteCount;
    assert rw[0].index == t.Boundary() && rw[n - 1].index == t.End() - 1;
    var lo, hi := RewriteLo(t, rw), RewriteHi(t, rw);
    assert lo == t.Boundary() && hi == t.End();
    forall i: nat | lo <= i < hi
      ensures t.At(i).Queue() == AppendQueue && Replaceable(t.At(i), Some(gate))
    {
      assert RP.Bounded(t.entries[i - t.first].block.id, gate, rewrite);
    }
    assert lo > t.first ==> t.At(lo - 1) == t.entries[t.rewriteCount - 1];
    RewriteStopIsFirst(t, lo, hi, Some(gate));
  }

  /** Nothing appended, neither an entry nor a key: nothing of the append queue is in use. */
  lemma NothingInUse(t: Table)
    requires t.rewriteCount == |t.entries| && forall k :: k in t.kvs ==> t.kvs[k].id.queue == RewriteQueue
    ensures MinFileSeq(t, AppendQueue) == None
  {
  }

  lemma ColdFacts(f: RP.Files, s: Region)
    requires Inv(f, s) && s.core.flight == []
    ensures s.core.t.Valid() && RP.EntriesBounded(s.core.t, s.core.activeAppend, s.core.activeRewrite)
    ensures forall k :: k in s.core.t.kvs ==> RP.Bounded(s.core.t.kvs[k].id, s.core.activeAppend, s.core.activeRewrite)
    ensures OpsInOrder(s.alog, s.core.activeAppend)
  {
    hide E.Inv, RV.View;
    assert RP.EntriesBounded(RP.Bare(s.core.t), s.core.activeAppend, s.core.activeRewrite);
    assert AppendLog(s) == s.alog;
  }

  /** What the pass has to copy: every entry and every key that is not rewritten. */
  ghost predicate CopyOf(f: RP.Files, s: Region, rw: seq<EntryIndex>, kvs: seq<RP.Op>, file: FileSeq)
    requires s.core.t.rewriteCount <= |s.core.t.entries|
  {
    var t, active := s.core.t, s.core.activeAppend;
    && (rw == [] || RP.CopiesOf(f, rw, FetchedBefore(t, active), file)) && |rw| == |FetchedBefore(t, active)|
    && PairsOf(f, kvs, RP.FetchedKeys(t, Some(active)), file) && s.core.activeRewrite <= file
  }

  /** The region when the queue has moved on and a pass has fetched everything that is appended. */
  ghost function FetchedAll(s: Region): Region
    requires s.core.t.rewriteCount <= |s.core.t.entries|
  {
    var t, active := s.core.t, s.core.activeAppend;
    s.(core := s.core.(activeAppend := active + 1,
                       phase := RP.Pass(Some(active), 0, FetchedBefore(t, active), RP.FetchedKeys(t, Some(active)), t.Boundary(), t.End())),
       group := [], written := [], keysOut := false, done := false)
  }

  lemma ColdFetch(f: RP.Files, s: Region, rule: RR.Rule) returns (steps: seq<Step>)
    requires s.core.t.Valid() && s.core.phase.Idle? && s.core.flight == [] && rule(s.core.activeAppend, None)
    ensures Runs(f, s, steps) && Follows(f, s, steps, rule) && After(f, s, steps) == FetchedAll(s)
  {
    hide Runs, Follows, After, History, FetchedBefore, RP.FetchedKeys;
    var gate := s.core.activeAppend;
    steps := [];
    NoSteps(f, s, rule);
    RunExtends(f, s, Nothing, steps, Rotate(gate + 1), rule);
    steps := steps + [Rotate(gate + 1)];
    RunExtends(f, s, Nothing, steps, Begin(Some(gate)), rule);
    steps := steps + [Begin(Some(gate))];
  }

  ghost function Moved(t: Table, rw: seq<EntryIndex>, gate: FileSeq): Table
    requires t.rewriteCount <= |t.entries| && Consecutive(rw)
  {
    if rw == [] then t else Rewritten(t, rw, Some(gate))
  }

  /** ... and has written its copies and applied the entries. */
  ghost function EntriesMoved(s: Region, rw: seq<EntryIndex>, kvs: seq<RP.Op>, file: FileSeq): Region
    requires s.core.t.rewriteCount <= |s.core.t.entries| && Consecutive(rw)
  {
    var t, active := s.core.t, s.core.activeAppend;
    s.(core := s.core.(t := Moved(t, rw, active), activeAppend := active + 1, activeRewrite := file,
                       phase := RP.Pass(Some(active), 0, [], RP.FetchedKeys(t, Some(active)), t.Boundary() + |rw|, t.End())),
       rlog := s.rlog + OpsOf(if rw == [] then [] else [Record(file, rw)]) + RP.InFile(kvs, file),
       group := [], written := [], keysOut := true, done := false)
  }

  lemma ColdWrite(f: RP.Files, s: Region, rw: seq<EntryIndex>, kvs: seq<RP.Op>, file: FileSeq, rule: RR.Rule) returns (steps: seq<Step>)
    requires s.core.t.Valid() && s.core.phase.Idle? && s.core.flight == [] && rule(s.core.activeAppend, None)
    requires CopyOf(f, s, rw, kvs, file) && Consecutive(rw)
    requires rw == [] || CanRewrite(s.core.t, rw, Some(s.core.activeAppend))
    ensures Runs(f, s, steps) && Follows(f, s, steps, rule) && After(f, s, steps) == EntriesMoved(s, rw, kvs, file)
  {
    hide Runs, Follows, After, History, Rewritten, CanRewrite, FetchedBefore, RP.FetchedKeys, RP.CopiesOf, Consecutive, PairsOf;
    steps := ColdFetch(f, s, rule);
    if rw != [] {
      RunExtends(f, s, Nothing, steps, WriteChunk(rw, file), rule);
      steps := steps + [WriteChunk(rw, file)];
    }
    RunExtends(f, s, Nothing, steps, WriteKeys(kvs, file), rule);
    steps := steps + [WriteKeys(kvs, file)];
    if rw != [] {
      RunExtends(f, s, Nothing, steps, ApplyWritten, rule);
      steps := steps + [ApplyWritten];
    }
    var s' := After(f, s, steps);
    assert s'.core.phase.pending == [];
    assert s'.rlog == EntriesMoved(s, rw, kvs, file).rlog;
  }

  // ------------------------------------------------------------------------------ keys

  /** The keys of the pass, moved. */
  ghost predicate KeysMoved(t: Table, t': Table, keys: map<Bytes, Bytes>, gate: Option<FileSeq>, file: FileSeq) {
    && RP.Bare(t') == RP.Bare(t) && t'.group == t.group && t'.kvs.Keys == t.kvs.Keys
    && forall k :: k in t.kvs ==>
         t'.kvs[k] == if k in keys then Slot(t.kvs[k].value, RewrittenKeyFile(t.kvs[k].id, gate, file)) else t.kvs[k]
  }

  /** All keys of a pass whose pairs are on disk can be applied, one after the other. */
  lemma {:induction false} ApplyAll(f: RP.Files, s: Region, rule: RR.Rule) returns (steps: seq<Step>)
    requires s.core.t.rewriteCount <= |s.core.t.entries| && s.core.phase.Pass? && s.keysOut
    requires forall k :: k in s.core.phase.keys ==> f.holds(FileId(RewriteQueue, s.core.activeRewrite), k, s.core.phase.keys[k])
    ensures Runs(f, s, steps) && Follows(f, s, steps, rule)
    ensures var s' := After(f, s, steps);
            && s' == s.(core := s.core.(t := s'.core.t, phase := s.core.phase.(keys := map[])))
            && KeysMoved(s.core.t, s'.core.t, s.core.phase.keys, s.core.phase.gate, s.core.activeRewrite)
    decreases |s.core.phase.keys.Keys|
  {
    var keys := s.core.phase.keys;
    if keys.Keys == {} {
      steps := [];
      assert keys == map[];
    } else {
      var k :| k in keys;
      var s1 := Next(f, s, ApplyKey(k));
      assert s1.core.phase.keys.Keys == keys.Keys - {k};
      var rest := ApplyAll(f, s1, rule);
      steps := [ApplyKey(k)] + rest;
      assert steps[1..] == rest;
      KeyThenRest(s.core.t, s1.core.t, After(f, s1, rest).core.t, keys, k, s.core.phase.gate, s.core.activeRewrite);
    }
  }

  lemma KeyThenRest(t: Table, t1: Table, t2: Table, keys: map<Bytes, Bytes>, k: Bytes, gate: Option<FileSeq>, file: FileSeq)
    requires k in keys && t1 == RewrittenKey(t, k, gate, file) && KeysMoved(t1, t2, keys - {k}, gate, file)
    ensures KeysMoved(t, t2, keys, gate, file)
  {
  }

  // ------------------------------------------------------------------------- all of it

  /** Once the keys of a pass at the newest file are moved, none is in the append queue. */
  lemma AllKeysMoved(t: Table, t': Table, active: FileSeq, rewrite: FileSeq, file: FileSeq)
    requires forall k :: k in t.kvs ==> RP.Bounded(t.kvs[k].id, active, rewrite)
    requires KeysMoved(t, t', RP.FetchedKeys(t, Some(active)), Some(active), file)
    ensures forall k :: k in t'.kvs ==> t'.kvs[k].id.queue == RewriteQueue && k in t.kvs && t'.kvs[k].value == t.kvs[k].value
  {
    forall k | k in t'.kvs
      ensures t'.kvs[k].id.queue == RewriteQueue && k in t.kvs && t'.kvs[k].value == t.kvs[k].value
    {
      assert k in t.kvs && RP.Bounded(t.kvs[k].id, active, rewrite);
    }
  }

  /**
   A cold region moves to the rewrite queue as a whole. Whenever nothing is in flight and no pass
   runs, the queue may move on, a pass may copy every entry and every key that is appended, and a
   purge may then delete every append file the region was ever written to. No entry and no key is
   left in the append queue; recovery has the rewrite log alone.
   */
  lemma ColdRegionMoves(f: RP.Files, s: Region, rw: seq<EntryIndex>, kvs: seq<RP.Op>, file: FileSeq, rule: RR.Rule) returns (steps: seq<Step>)
    requires Inv(f, s) && s.core.phase.Idle? && s.core.flight == []
    requires s.core.t.Valid() && CopyOf(f, s, rw, kvs, file) && rule(s.core.activeAppend, None)
    ensures Runs(f, s, steps) && Follows(f, s, steps, rule)
    ensures var s' := After(f, s, steps);
            && s'.core.t.rewriteCount == |s'.core.t.entries| == |s.core.t.entries|
            && s'.core.t.kvs.Keys == s.core.t.kvs.Keys
            && (forall k :: k in s'.core.t.kvs ==>
                  s'.core.t.kvs[k].id.queue == RewriteQueue && s'.core.t.kvs[k].value == s.core.t.kvs[k].value)
            && KeptOps(AppendLog(s'), s'.appendMin) == []
  {
    hide Runs, Follows, After, History, Inv, Rewritten, CanRewrite, MinFileSeq, FetchedBefore, RP.FetchedKeys, RP.CopiesOf, KeptOps, KeysMoved, RP.Bounded, Enabled, Next, PairsOf;
    var t, active := s.core.t, s.core.activeAppend;
    ColdFacts(f, s);
    ColdEntries(f, t, active, s.core.activeRewrite, rw, file);
    steps := ColdWrite(f, s, rw, kvs, file, rule);
    var s1 := EntriesMoved(s, rw, kvs, file);
    PairsHeld(f, kvs, RP.FetchedKeys(t, Some(active)), file);
    var rest := ApplyAll(f, s1, rule);
    RunsInRow(f, s, steps, rest, rule);
    steps := steps + rest;
    var s2 := After(f, s, steps);
    assert KeysMoved(s1.core.t, s2.core.t, RP.FetchedKeys(t, Some(active)), Some(active), file);
    assert RP.FetchedKeys(s1.core.t, Some(active)) == RP.FetchedKeys(t, Some(active)) by { SameFetch(s1.core.t, t, active); }
    AllKeysMoved(s1.core.t, s2.core.t, active, s.core.activeRewrite, file);
    MovedEntries(s1.core.t, s2.core.t, s1.core.phase.keys, Some(active), file);
    var more := ColdEnd(f, s2, rule);
    RunsInRow(f, s, steps, more, rule);
    steps := steps + more;
    KeptOpsNone(s.alog, After(f, s, steps).appendMin);
    assert AppendLog(After(f, s, steps)) == s.alog;
  }

  lemma SameFetch(t: Table, t': Table, gate: FileSeq)
    requires t.kvs == t'.kvs
    ensures RP.FetchedKeys(t, Some(gate)) == RP.FetchedKeys(t', Some(gate))
  {
  }

  lemma MovedEntries(t: Table, t': Table, keys: map<Bytes, Bytes>, gate: Option<FileSeq>, file: FileSeq)
    requires KeysMoved(t, t', keys, gate, file)
    ensures t'.entries == t.entries && t'.rewriteCount == t.rewriteCount && t'.kvs.Keys == t.kvs.Keys
  {
    assert RP.Bare(t').entries == t'.entries && RP.Bare(t).entries == t.entries;
  }

  /** The entries of the pass, moved: everything is rewritten, and no key is touched. */
  lemma ColdEntries(f: RP.Files, t: Table, gate: FileSeq, rewrite: FileSeq, rw: seq<EntryIndex>, file: FileSeq)
    requires t.Valid() && RP.EntriesBounded(t, gate, rewrite)
    requires (rw == [] || RP.CopiesOf(f, rw, FetchedBefore(t, gate), file)) && |rw| == |FetchedBefore(t, gate)|
    ensures Consecutive(rw) && (rw == [] || CanRewrite(t, rw, Some(gate)))
    ensures var t' := Moved(t, rw, gate); t'.rewriteCount == |t'.entries| == |t.entries| && t'.kvs == t.kvs
  {
    hide Rewritten, CanRewrite, FetchedBefore;
    if rw == [] {
      assert t.rewriteCount == |t.entries| by {
        if t.rewriteCount < |t.entries| {
          assert RP.Bounded(t.entries[t.rewriteCount].block.id, gate, rewrite);
          FetchesSome(t, gate);
        }
      }
    } else {
      ColdChunk(f, t, gate, rewrite, rw, file);
      RewrittenKeepsKeys(t, rw, Some(gate));
    }
  }

  lemma FetchesSome(t: Table, gate: FileSeq)
    requires t.Valid() && t.rewriteCount < |t.entries| && t.entries[t.rewriteCount].Seq() <= gate
    ensures |FetchedBefore(t, gate)| > 0
  {
  }

  lemma RewrittenKeepsKeys(t: Table, rw: seq<EntryIndex>, gate: Option<FileSeq>)
    requires t.rewriteCount <= |t.entries| && Consecutive(rw) && |rw| > 0
    ensures Rewritten(t, rw, gate).kvs == t.kvs && |Rewritten(t, rw, gate).entries| == |t.entries|
  {
  }

  lemma PairsHeld(f: RP.Files, kvs: seq<RP.Op>, keys: map<Bytes, Bytes>, file: FileSeq)
    requires PairsOf(f, kvs, keys, file)
    ensures forall k :: k in keys ==> f.holds(FileId(RewriteQueue, file), k, keys[k])
  {
  }

  /** The pass ends, and every append file but the active one goes. */
  lemma ColdEnd(f: RP.Files, s: Region, rule: RR.Rule) returns (steps: seq<Step>)
    requires s.core.phase.Pass? && s.core.phase.pending == [] && s.core.phase.keys == map[] && s.written == []
    requires s.core.flight == [] && s.core.t.rewriteCount == |s.core.t.entries|
    requires forall k :: k in s.core.t.kvs ==> s.core.t.kvs[k].id.queue == RewriteQueue
    ensures Runs(f, s, steps) && Follows(f, s, steps, rule)
    ensures var s' := After(f, s, steps);
            && s'.core.t == s.core.t && s'.core.flight == [] && s'.core.phase.Idle?
            && s'.alog == s.alog && s.core.activeAppend <= s'.appendMin
  {
    hide Runs, Follows, After, History, MinFileSeq;
    steps := [];
    NoSteps(f, s, rule);
    NothingInUse(s.core.t);
    RunExtends(f, s, Nothing, steps, Finish, rule);
    steps := steps + [Finish];
    RunExtends(f, s, Nothing, steps, PurgeAppend(s.core.activeAppend), rule);
    steps := steps + [PurgeAppend(s.core.activeAppend)];
  }
}
