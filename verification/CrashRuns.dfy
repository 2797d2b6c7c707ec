/** Crash recovery of a region over whole runs, with any number of crashes. */
module CrashRuns {
  import opened PipeLog
  import opened Tables
  import opened RecordLog
  import opened OpLogs
  import opened CrashRegions
  import opened CrashKeys
  import opened CrashReopen
  import E = CrashRecovery
  import CE = CrashEntries
  import RP = RewritePass
  import RV = RewriteView
  import RR = RewriteRuns

  // ------------------------------------------------------------------------ one step

  /** The step of the entries keeps what a restart needs of them. */
  lemma StepKeepsSide(f: RP.Files, s: Region, step: Step)
    requires Inv(f, s) && Enabled(f, s, step) && ClearFetch(s, step) && !step.Restart?
    ensures E.Inv(f, EntrySide(Next(f, s, step)))
    ensures CE.WrittenLog(f, EntrySide(Next(f, s, step))) ==
            if step.Write? then RV.Said(f, RP.Model(CE.WrittenLog(f, EntrySide(s)), map[]), step.op).log
            else CE.WrittenLog(f, EntrySide(s))
  {
    hide CoreOk, E.Inv, LogsOk, KeysOk, PassOut, Enabled, Next, CE.WrittenLog, EntrySide, E.Enabled, E.Next, ClearFetch, RV.Overwrite;
    assert s.core.t.Valid() && s.core.t.group == None && RP.FlightOk(f, s.core.flight, s.core.activeAppend) && Plain(s.core.flight) by {
      CoreFacts(f, s.core);
    }
    StepCommutes(f, s, step);
    var e := SideStep(s, step);
    if e.Some? {
      assert CE.ClearFetch(EntrySide(s), e.value) by { SideClear(f, s, step); }
      CE.StepKeepsInv(f, EntrySide(s), e.value);
    }
    WrittenOp(f, s, step, CE.WrittenLog(f, EntrySide(s)));
  }

  lemma CoreFacts(f: RP.Files, c: RP.State)
    requires CoreOk(f, c)
    ensures c.t.Valid() && c.t.group == None && RP.FlightOk(f, c.flight, c.activeAppend) && Plain(c.flight)
  {
  }

  lemma SideClear(f: RP.Files, s: Region, step: Step)
    requires RP.FlightOk(f, s.core.flight, s.core.activeAppend) && ClearFetch(s, step) && SideStep(s, step).Some?
    ensures CE.ClearFetch(EntrySide(s), SideStep(s, step).value)
  {
    hide EntryRecords;
    SideOldest(f, s.core);
  }

  /** What the step writes, said of the entries alone. */
  lemma WrittenOp(f: RP.Files, s: Region, step: Step, log: map<nat, Bytes>)
    requires s.core.t.rewriteCount <= |s.core.t.entries| && Enabled(f, s, step) && !step.Restart?
    ensures var e := SideStep(s, step);
            (if e.Some? then CE.NextHistory(f, log, e.value) else log) ==
            if step.Write? then RV.Said(f, RP.Model(log, map[]), step.op).log else log
  {
    hide RV.Overwrite, EntryRecords;
  }

  /** Every step, a crash and restart included, keeps the relation between the live table, what is
      in flight and both logs on disk. */
  lemma StepKeepsInv(f: RP.Files, s: Region, step: Step)
    requires Inv(f, s) && Enabled(f, s, step) && ClearFetch(s, step)
    ensures Inv(f, Next(f, s, step))
  {
    hide CoreOk, E.Inv, LogsOk, KeysOk, PassOut, Enabled, ClearFetch, Rebuilt, RP.Next, RP.Enabled;
    if step.Restart? {
      RestartStep(f, s, step.appends, step.rewrites);
    } else {
      OtherStepKeepsInv(f, s, step);
    }
  }

  lemma RestartStep(f: RP.Files, s: Region, appends: Cut, rewrites: Cut)
    requires Inv(f, s) && Enabled(f, s, Restart(appends, rewrites))
    ensures Inv(f, Next(f, s, Restart(appends, rewrites)))
    ensures CE.WrittenLog(f, EntrySide(Next(f, s, Restart(appends, rewrites)))) == CE.WrittenLog(f, EntrySide(s))
  {
    hide CoreOk, E.Inv, LogsOk, KeysOk, PassOut, Rebuilt, CutsOf, CE.WrittenLog, EntrySide, E.Restarted, E.Recovered;
    RestartFromAny(f, s, appends, rewrites);
    RestartWrites(f, s, Rebuilt(appends, rewrites).value);
  }

  lemma RestartWrites(f: RP.Files, s: Region, t: Table)
    ensures CE.WrittenLog(f, EntrySide(Restarted(s, t))) == E.Shown(f, t)
  {
    hide E.Shown;
    ShownBare(f, t);
  }

  lemma OtherStepKeepsInv(f: RP.Files, s: Region, step: Step)
    requires Inv(f, s) && Enabled(f, s, step) && ClearFetch(s, step) && !step.Restart?
    ensures Inv(f, Next(f, s, step))
  {
    hide CoreOk, E.Inv, LogsOk, KeysOk, PassOut, Enabled, ClearFetch, Next, CE.WrittenLog;
    StepKeepsCore(f, s, step);
    StepKeepsSide(f, s, step);
    StepKeepsLogs(f, s, step);
    CoreFacts(f, s.core);
    StepKeepsOut(f, s, step);
    StepKeepsKeys(f, s, step);
  }

  // --------------------------------------------------------------- what was written

  /** What was written so far, whatever has happened to the process since. */
  ghost function NextWritten(f: RP.Files, m: RP.Model, step: Step): RP.Model {
    if step.Write? then RV.Said(f, m, step.op) else m
  }

  /** The latest put of a key is the last one in the append log. */
  ghost predicate KeyTold(log: seq<RP.Written>, keys: map<Bytes, Bytes>, k: Bytes) {
    var last := KeyLookup(log, AppendQueue, k);
    (last.Some? <==> k in keys) && (k in keys ==> keys[k] == last.value.value)
  }

  /** The append log, as far as it was ever written, tells this log and these keys. */
  ghost predicate Tells(f: RP.Files, s: Region, m: RP.Model) {
    m.log == CE.WrittenLog(f, EntrySide(s)) && forall k :: KeyTold(AppendLog(s), m.keys, k)
  }

  lemma StepTells(f: RP.Files, s: Region, m: RP.Model, step: Step)
    requires Inv(f, s) && Tells(f, s, m) && Enabled(f, s, step) && ClearFetch(s, step)
    ensures Tells(f, Next(f, s, step), NextWritten(f, m, step))
  {
    hide CoreOk, E.Inv, LogsOk, KeysOk, PassOut, Enabled, Next, CE.WrittenLog, EntrySide, ClearFetch, KeyTold, RV.Overwrite;
    var m' := NextWritten(f, m, step);
    if step.Restart? {
      RestartStep(f, s, step.appends, step.rewrites);
    } else {
      StepKeepsSide(f, s, step);
    }
    CoreFacts(f, s.core);
    LogAfter(f, s, step);
    forall k
      ensures KeyTold(AppendLog(Next(f, s, step)), m'.keys, k)
    {
      assert KeyTold(AppendLog(s), m.keys, k);
      if step.Write? {
        WriteTells(f, s, m, step.op, k);
      }
    }
  }

  /** Only writing changes the append log. */
  lemma LogAfter(f: RP.Files, s: Region, step: Step)
    requires s.core.t.rewriteCount <= |s.core.t.entries| && Enabled(f, s, step)
    ensures step.Write? ==> step.op.Entries? || step.op.PutKey?
    ensures AppendLog(Next(f, s, step)) ==
            if step.Write? then AppendLog(s) + [RP.Written(step.op, s.core.activeAppend)] else AppendLog(s)
  {
    hide EntryRecords, Rebuilt, MinFileSeq, RP.Applied, Rewritten, CanRewrite, FetchedBefore, FetchedRewritten, RP.FetchedKeys;
    if step.ApplyNext? {
      assert s.core.flight == [s.core.flight[0]] + s.core.flight[1..];
    }
  }

  lemma WriteTells(f: RP.Files, s: Region, m: RP.Model, op: RP.Op, k: Bytes)
    requires KeyTold(AppendLog(s), m.keys, k) && (op.Entries? || op.PutKey?)
    ensures KeyTold(AppendLog(s) + [RP.Written(op, s.core.activeAppend)], RV.Said(f, m, op).keys, k)
  {
    hide KeyLookup, RV.Overwrite;
    KeySnoc(AppendLog(s), RP.Written(op, s.core.activeAppend), AppendQueue, k);
  }

  // ----------------------------------------------------------------------- whole runs

  ghost predicate Runs(f: RP.Files, s: Region, steps: seq<Step>)
    decreases |steps|
  {
    |steps| == 0 ||
    (s.core.t.rewriteCount <= |s.core.t.entries| && Enabled(f, s, steps[0]) && Runs(f, Next(f, s, steps[0]), steps[1..]))
  }

  ghost function After(f: RP.Files, s: Region, steps: seq<Step>): Region
    requires Runs(f, s, steps)
    decreases |steps|
  {
    if |steps| == 0 then s else After(f, Next(f, s, steps[0]), steps[1..])
  }

  /** What a run has written: a function of its writes alone. */
  ghost function History(f: RP.Files, m: RP.Model, steps: seq<Step>): RP.Model
    decreases |steps|
  {
    if |steps| == 0 then m else History(f, NextWritten(f, m, steps[0]), steps[1..])
  }

  /** Every gated fetch of the run is allowed by the rule. */
  ghost predicate Follows(f: RP.Files, s: Region, steps: seq<Step>, rule: RR.Rule)
    requires Runs(f, s, steps)
    decreases |steps|
  {
    |steps| == 0 ||
    (&& (steps[0].Begin? && steps[0].gate.Some? ==> rule(steps[0].gate.value, RP.FirstUnapplied(s.core)))
     && Follows(f, Next(f, s, steps[0]), steps[1..], rule))
  }

  const InitRegion := Region(RR.InitState, [], [], [], [], false, false, 0, 0)

  const Nothing := RP.Model(map[], map[])

  lemma InitInv(f: RP.Files)
    ensures Inv(f, InitRegion) && Tells(f, InitRegion, Nothing)
  {
    hide E.Inv, CE.WrittenLog, CoreOk;
    var s := InitRegion;
    CE.InitInv(f);
    assert EntrySide(s) == CE.InitSys && AppendLog(s) == [];
    InitCore(f);
  }

  lemma InitCore(f: RP.Files)
    ensures CoreOk(f, InitRegion.core)
  {
    var c := InitRegion.core;
    assert RP.Bare(EmptyTable) == EmptyTable;
    assert RP.Shape(f, c);
    assert E.Shown(f, EmptyTable) == map[] && ShownKeys(EmptyTable) == map[];
  }

  lemma {:induction false} RunKeepsInv(f: RP.Files, s: Region, m: RP.Model, steps: seq<Step>, rule: RR.Rule)
    requires Inv(f, s) && Tells(f, s, m) && Runs(f, s, steps) && RR.Clear(rule) && Follows(f, s, steps, rule)
    ensures Inv(f, After(f, s, steps))
    ensures Tells(f, After(f, s, steps), History(f, m, steps))
    decreases |steps|
  {
    hide Inv, Enabled, Next, Tells, NextWritten;
    if |steps| > 0 {
      assert ClearFetch(s, steps[0]);
      StepKeepsInv(f, s, steps[0]);
      StepTells(f, s, m, steps[0]);
      RunKeepsInv(f, Next(f, s, steps[0]), NextWritten(f, m, steps[0]), steps[1..], rule);
    }
  }

  /** A restart now, with the queues cut and merged in any way, meets no failed assertion and
      rebuilds exactly the written log, and every key with the value it was put last. */
  ghost predicate Recovers(f: RP.Files, s: Region, m: RP.Model) {
    forall appends, rewrites :: CutsOf(s, appends, rewrites) ==>
      && Rebuilt(appends, rewrites).Some?
      && RP.Model(E.Shown(f, Rebuilt(appends, rewrites).value), ShownKeys(Rebuilt(appends, rewrites).value)) == m
  }

  lemma RestartShows(f: RP.Files, s: Region, m: RP.Model, appends: Cut, rewrites: Cut)
    requires Inv(f, s) && Tells(f, s, m) && CutsOf(s, appends, rewrites)
    ensures Rebuilt(appends, rewrites).Some?
    ensures RP.Model(E.Shown(f, Rebuilt(appends, rewrites).value), ShownKeys(Rebuilt(appends, rewrites).value)) == m
  {
    hide CoreOk, E.Inv, LogsOk, KeyOk, Rebuilt, CutsOf, E.Shown, EntrySide, CE.WrittenLog, FoundKey, KeyLookup, Restarted, E.Recovered;
    RestartFromAny(f, s, appends, rewrites);
    var t := Rebuilt(appends, rewrites).value;
    forall k
      ensures k in t.kvs <==> k in m.keys
      ensures k in t.kvs ==> t.kvs[k].value == m.keys[k]
    {
      assert KeyTold(AppendLog(s), m.keys, k) && KeySlot(t, k) == FoundKey(s, k) && KeyOk(s, k);
      FindsKey(f, s, k);
    }
    assert ShownKeys(t) == m.keys;
  }

  /** With nothing in flight, the live table shows the same. */
  lemma LiveShows(f: RP.Files, s: Region, m: RP.Model)
    requires Inv(f, s) && Tells(f, s, m) && s.core.flight == []
    ensures RP.Model(E.Shown(f, s.core.t), ShownKeys(s.core.t)) == m
  {
    hide CoreOk, E.Inv, LogsOk, E.Shown, KeyLookup, EntryRecords;
    assert AppendLog(s) == s.alog;
    assert CE.WrittenLog(f, EntrySide(s)) == E.Shown(f, RP.Bare(s.core.t));
    ShownBare(f, s.core.t);
    forall k
      ensures k in s.core.t.kvs <==> k in m.keys
      ensures k in s.core.t.kvs ==> s.core.t.kvs[k].value == m.keys[k]
    {
      assert KeyTold(AppendLog(s), m.keys, k) && KeyOk(s, k);
    }
    assert ShownKeys(s.core.t) == m.keys;
  }

  /**
   Crash recovery agrees with the written history. Take any run of writes of entries and pairs,
   applies, rotations, gated passes, squeezes (finished, unfinished or abandoned), safe purges and
   earlier crashes, whose gates stay below the oldest file with an unapplied item. A restart at
   that very moment rebuilds exactly what was written: every entry, and every key with the value it
   was put last. The live table shows the same once nothing is in flight.
   */
  lemma CrashRecoveryAgrees(f: RP.Files, steps: seq<Step>, rule: RR.Rule)
    requires Runs(f, InitRegion, steps) && RR.Clear(rule) && Follows(f, InitRegion, steps, rule)
    ensures var s, m := After(f, InitRegion, steps), History(f, Nothing, steps);
            && Recovers(f, s, m)
            && (s.core.flight == [] ==> RP.Model(E.Shown(f, s.core.t), ShownKeys(s.core.t)) == m)
  {
    hide Inv, Tells, Runs, After, Follows, History, CutsOf, Rebuilt, E.Shown;
    InitInv(f);
    RunKeepsInv(f, InitRegion, Nothing, steps, rule);
    var s, m := After(f, InitRegion, steps), History(f, Nothing, steps);
    forall appends, rewrites | CutsOf(s, appends, rewrites)
      ensures Rebuilt(appends, rewrites).Some?
      ensures RP.Model(E.Shown(f, Rebuilt(appends, rewrites).value), ShownKeys(Rebuilt(appends, rewrites).value)) == m
    {
      RestartShows(f, s, m, appends, rewrites);
    }
    if s.core.flight == [] {
      LiveShows(f, s, m);
    }
  }
}
