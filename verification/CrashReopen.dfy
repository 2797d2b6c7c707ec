/** A restart of a region with its keys: what is rebuilt, and that the run can go on from there. */
module CrashReopen {
  import opened PipeLog
  import opened Tables
  import opened RecordLog
  import opened OpLogs
  import opened CrashRegions
  import opened CrashKeys
  import C = RecordCuts
  import E = CrashRecovery
  import CE = CrashEntries
  import CR = CrashRestart
  import RP = RewritePass
  import RV = RewriteView

  // ------------------------------------------------------------------ what is rebuilt

  function KeptAppends(s: Region): seq<RP.Written> { KeptOps(AppendLog(s), s.appendMin) }

  function KeptRewrites(s: Region): seq<RP.Written> { KeptOps(s.rlog, s.rewriteMin) }

  /** What a restart finds for a key: the append queue first. */
  function FoundKey(s: Region, k: Bytes): Option<Slot> {
    var a := KeyLookup(KeptAppends(s), AppendQueue, k);
    if a.Some? then a else KeyLookup(KeptRewrites(s), RewriteQueue, k)
  }

  /** The table is what the entries alone make, with the keys a restart finds. */
  ghost predicate RebuiltIs(s: Region, t: Table) {
    RP.Bare(t) == E.Recovered(EntrySide(s)) && t.group == None && forall k :: KeySlot(t, k) == FoundKey(s, k)
  }

  lemma SideCuts(s: Region, appends: Cut, rewrites: Cut)
    requires CutsOf(s, appends, rewrites)
    ensures E.CutsOf(EntrySide(s), RecordCut(appends), RecordCut(rewrites))
    ensures Kept(E.AppendLog(EntrySide(s)), s.appendMin) == EntryRecords(KeptAppends(s))
    ensures Kept(EntrySide(s).rlog, s.rewriteMin) == EntryRecords(KeptRewrites(s))
  {
    hide EntryRecords, Kept, KeptOps, E.AppendLog;
    SideLog(s);
    FlattenRecords(appends);
    FlattenRecords(rewrites);
    KeptRecords(AppendLog(s), s.appendMin);
    KeptRecords(s.rlog, s.rewriteMin);
  }

  /** The two recovered sides, overlaid. */
  lemma OverlaySides(s: Region, a: Table, w: Table)
    requires a.rewriteCount == 0 && w.rewriteCount <= |w.entries|
    requires SidesOf(a, AppendQueue, KeptAppends(s)) && SidesOf(w, RewriteQueue, KeptRewrites(s))
    requires Kept(E.AppendLog(EntrySide(s)), s.appendMin) == EntryRecords(KeptAppends(s))
    requires Kept(EntrySide(s).rlog, s.rewriteMin) == EntryRecords(KeptRewrites(s))
    ensures RebuiltIs(s, MergeAppendTable(w, a))
  {
    hide EntryRecords, Kept, KeptOps, KeyLookup, E.AppendLog, PrepareAppend, ReplayAppends, ReplayRewrites;
    var m := MergeAppendTable(w, a);
    assert m.kvs == w.kvs + a.kvs;
    forall k
      ensures KeySlot(m, k) == FoundKey(s, k)
    {
      assert KeySlot(a, k) == KeyLookup(KeptAppends(s), AppendQueue, k);
      assert KeySlot(w, k) == KeyLookup(KeptRewrites(s), RewriteQueue, k);
    }
    BareOverlay(w, a);
  }

  lemma BareOverlay(w: Table, a: Table)
    requires a.rewriteCount == 0 && w.rewriteCount <= |w.entries| && w.group == None
    ensures RP.Bare(MergeAppendTable(w, a)) == MergeAppendTable(RP.Bare(w), RP.Bare(a))
    ensures MergeAppendTable(w, a).group == None
  {
  }

  lemma SideConnected(f: RP.Files, s: Region)
    requires E.Inv(f, EntrySide(s))
    ensures Connected(Kept(E.AppendLog(EntrySide(s)), s.appendMin), AppendQueue)
    ensures Connected(Kept(EntrySide(s).rlog, s.rewriteMin), RewriteQueue)
  {
    hide Kept, Connected, E.CoreInv, EntrySide;
    var e := EntrySide(s);
    assert e.appendMin == s.appendMin && e.rewriteMin == s.rewriteMin by { SideFields(s); }
    DiskConnected(f, e);
    KeptShape(E.AppendLog(e), AppendQueue, e.core.activeAppend, s.appendMin);
    KeptShape(e.rlog, RewriteQueue, e.core.activeRewrite, s.rewriteMin);
  }

  lemma SideFields(s: Region)
    ensures EntrySide(s).appendMin == s.appendMin && EntrySide(s).rewriteMin == s.rewriteMin
  {
  }

  lemma DiskConnected(f: RP.Files, e: E.Sys)
    requires E.DiskInv(f, e)
    ensures Connected(E.AppendLog(e), AppendQueue) && InOrder(E.AppendLog(e), e.core.activeAppend)
    ensures Connected(e.rlog, RewriteQueue) && InOrder(e.rlog, e.core.activeRewrite)
  {
  }

  /** However the queues are cut and merged, the same table is rebuilt. */
  lemma RebuildsOne(f: RP.Files, s: Region, appends: Cut, rewrites: Cut)
    requires Inv(f, s) && CutsOf(s, appends, rewrites)
    ensures Rebuilt(appends, rewrites).Some? && RebuiltIs(s, Rebuilt(appends, rewrites).value)
  {
    hide CoreOk, E.Inv, KeysOk, EntryRecords, Kept, KeptOps, Connected, SidesOf, RebuiltIs, OpsInOrder, PutsRecorded, Plain, E.AppendLog, EntrySide;
    SideCuts(s, appends, rewrites);
    SideConnected(f, s);
    assert Plain(Flatten(appends)) && Plain(Flatten(rewrites)) by { KeptPlain(f, s); }
    RecoverSides(AppendQueue, appends);
    RecoverSides(RewriteQueue, rewrites);
    var a, w := Recover(AppendQueue, appends).value, Recover(RewriteQueue, rewrites).value;
    AppendsOnly(Flatten(appends), a);
    OverlaySides(s, a, w);
  }

  lemma KeptPlain(f: RP.Files, s: Region)
    requires CoreOk(f, s.core) && LogsOk(f, s)
    ensures Plain(KeptAppends(s)) && Plain(KeptRewrites(s))
  {
    assert Plain(AppendLog(s));
    KeptOpsShape(AppendLog(s), s.appendMin);
    KeptOpsShape(s.rlog, s.rewriteMin);
  }

  /** Replaying the append queue rewrites nothing. */
  lemma AppendsOnly(log: seq<RP.Written>, t: Table)
    requires SidesOf(t, AppendQueue, log)
    ensures t.rewriteCount == 0
  {
    hide EntryRecords;
    NothingRewritten(EntryRecords(log));
    assert RP.Bare(t).rewriteCount == t.rewriteCount;
  }

  lemma {:induction false} NothingRewritten(log: seq<Record>)
    ensures C.ReplayIn(AppendQueue, log).rewriteCount == 0
    decreases |log|
  {
    if |log| > 0 {
      NothingRewritten(log[..|log| - 1]);
    }
  }

  // --------------------------------------------------------------------------- keys

  /** A restart finds every key that was ever put, with the value it was put last, in a file that
      records it. */
  lemma FindsKey(f: RP.Files, s: Region, k: Bytes)
    requires LogsOk(f, s) && KeyOk(s, k)
    ensures var last, found := KeyLookup(AppendLog(s), AppendQueue, k), FoundKey(s, k);
            && (found.Some? <==> last.Some?)
            && (found.Some? ==>
                  && found.value.value == last.value.value
                  && (found.value.id.queue == AppendQueue ==> found == last && s.appendMin <= found.value.id.seqno)
                  && (found.value.id.queue == RewriteQueue ==>
                        found == KeyLookup(s.rlog, RewriteQueue, k) && s.rewriteMin <= found.value.id.seqno))
  {
    hide KeyLookup, KeptOps, PutsRecorded, Plain;
    KeptKey(AppendLog(s), s.core.activeAppend, s.appendMin, AppendQueue, k);
    KeptKey(s.rlog, s.core.activeRewrite, s.rewriteMin, RewriteQueue, k);
    KeyConcat(s.alog, s.core.flight, AppendQueue, k);
    if KeyLookup(AppendLog(s), AppendQueue, k).Some? {
      var j := KeyFound(AppendLog(s), AppendQueue, k);
    }
    if KeyLookup(s.core.flight, AppendQueue, k).Some? {
      var j := KeyFound(s.core.flight, AppendQueue, k);
      assert AppendLog(s)[|s.alog|] == s.core.flight[0] && AppendLog(s)[|s.alog| + j] == s.core.flight[j];
    }
    if KeyLookup(s.rlog, RewriteQueue, k).Some? {
      var j := KeyFound(s.rlog, RewriteQueue, k);
    }
  }

  lemma RestartKeepsKey(f: RP.Files, s: Region, t: Table, k: Bytes)
    requires LogsOk(f, s) && KeyOk(s, k) && KeySlot(t, k) == FoundKey(s, k)
    ensures KeyOk(Restarted(s, t), k)
    ensures k in t.kvs ==> f.holds(t.kvs[k].id, k, t.kvs[k].value)
                           && RP.Bounded(t.kvs[k].id, s.core.activeAppend, s.core.activeRewrite)
  {
    hide KeyLookup, KeptOps, FoundKey;
    FindsKey(f, s, k);
    var last, r := KeyLookup(AppendLog(s), AppendQueue, k), KeyLookup(s.rlog, RewriteQueue, k);
    KeyConcat(s.alog, s.core.flight, AppendQueue, k);
    if last.Some? {
      var j := KeyFound(AppendLog(s), AppendQueue, k);
    }
    if r.Some? {
      var j := KeyFound(s.rlog, RewriteQueue, k);
    }
  }

  // ------------------------------------------------------------------------ the state

  lemma RestartKeepsLogs(f: RP.Files, s: Region, t: Table)
    requires CoreOk(f, s.core) && LogsOk(f, s)
    ensures LogsOk(f, Restarted(s, t)) && PassOut(Restarted(s, t)) && AppendLog(Restarted(s, t)) == AppendLog(s)
  {
    hide RP.EntryShape, RP.KeyShape, RV.View;
    assert AppendLog(Restarted(s, t)) == AppendLog(s);
    assert RP.Oldest(s.core) <= s.core.activeAppend;
  }

  lemma RestartKeepsCore(f: RP.Files, s: Region, t: Table)
    requires E.CoreInv(f, Side(Restarted(s, t).core)) && t.group == None
    requires forall k :: k in t.kvs ==> f.holds(t.kvs[k].id, k, t.kvs[k].value)
                                        && RP.Bounded(t.kvs[k].id, s.core.activeAppend, s.core.activeRewrite)
    ensures CoreOk(f, Restarted(s, t).core)
  {
    hide RP.EntryShape, RV.EntryView, RP.Bounded;
    var c := Restarted(s, t).core;
    assert RP.Bare(RP.Bare(t)) == RP.Bare(t);
    RP.BareValid(t);
    assert E.Shown(f, RP.Bare(t)) == E.Shown(f, t) by { ShownBare(f, t); }
  }

  lemma ShownBare(f: RP.Files, t: Table)
    ensures E.Shown(f, RP.Bare(t)) == E.Shown(f, t)
  {
    assert forall i: nat :: t.Has(i) ==> RP.Bare(t).At(i) == t.At(i);
  }

  lemma RestartSide(f: RP.Files, s: Region, t: Table)
    requires RP.Bare(t) == E.Recovered(EntrySide(s))
    ensures EntrySide(Restarted(s, t)) == E.Restarted(EntrySide(s), E.Recovered(EntrySide(s)))
  {
    hide EntryRecords, E.Recovered, E.AppendLog;
    SideLog(s);
  }

  /** A restart at any moment meets no failed assertion, whatever the cuts, and the run can go on;
      the entries are those that were written, and every key has the value it was put last. */
  lemma RestartFromAny(f: RP.Files, s: Region, appends: Cut, rewrites: Cut)
    requires Inv(f, s) && CutsOf(s, appends, rewrites)
    ensures Rebuilt(appends, rewrites).Some?
    ensures var t := Rebuilt(appends, rewrites).value;
            && RebuiltIs(s, t) && Inv(f, Restarted(s, t))
            && E.Shown(f, t) == CE.WrittenLog(f, EntrySide(s))
            && EntrySide(Restarted(s, t)) == E.Restarted(EntrySide(s), E.Recovered(EntrySide(s)))
  {
    hide CoreOk, E.CoreInv, E.DiskInv, LogsOk, KeyOk, Rebuilt, CutsOf, E.CutsOf, E.Rebuilt, Restarted, E.Restarted, E.Shown, EntrySide, E.Recovered;
    RebuildsOne(f, s, appends, rewrites);
    var t := Rebuilt(appends, rewrites).value;
    SideCuts(s, appends, rewrites);
    CR.RestartFromAny(f, EntrySide(s), RecordCut(appends), RecordCut(rewrites));
    RestartSide(f, s, t);
    ShownBare(f, t);
    RestartKeepsLogs(f, s, t);
    RestartedKeys(f, s, t);
    RestartedSide(s, t);
    RestartKeepsCore(f, s, t);
  }

  lemma RestartedSide(s: Region, t: Table)
    ensures EntrySide(Restarted(s, t)).core == Side(Restarted(s, t).core)
  {
    hide EntryRecords;
  }

  lemma RestartedKeys(f: RP.Files, s: Region, t: Table)
    requires LogsOk(f, s) && KeysOk(s) && RebuiltIs(s, t)
    ensures KeysOk(Restarted(s, t))
    ensures forall k :: k in t.kvs ==> f.holds(t.kvs[k].id, k, t.kvs[k].value)
                                       && RP.Bounded(t.kvs[k].id, s.core.activeAppend, s.core.activeRewrite)
  {
    hide LogsOk, KeyOk, Restarted, RP.Bounded, FoundKey, E.Recovered, EntrySide;
    forall k
      ensures KeyOk(Restarted(s, t), k)
      ensures k in t.kvs ==> f.holds(t.kvs[k].id, k, t.kvs[k].value)
                             && RP.Bounded(t.kvs[k].id, s.core.activeAppend, s.core.activeRewrite)
    {
      assert KeyOk(s, k) && KeySlot(t, k) == FoundKey(s, k);
      RestartKeepsKey(f, s, t, k);
    }
  }
}
