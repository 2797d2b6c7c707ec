/**
 A restart: it loses nothing that was written, brings nothing stale back, and leaves the region
 in a state from which the run can go on, and crash again.
 */
module CrashRestart {
  import opened PipeLog
  import opened Tables
  import opened RecordLog
  import opened CrashRecovery
  import opened CrashSteps
  import C = RecordCuts
  import RP = RewritePass
  import RV = RewriteView

  /** With nothing in flight, what is replayed reads like the live table. */
  lemma RecoveryFromInv(f: RP.Files, s: Sys, i: nat)
    requires s.core.t.Valid() && DiskInv(f, s) && s.core.flight == []
    ensures Recovered(s).Has(i) <==> s.core.t.Has(i)
    ensures s.core.t.Has(i) ==> f.content(Recovered(s).At(i)) == f.content(s.core.t.At(i))
  {
    hide MergeAppendTable, Kept, Lookup, PassDisk;
    var t := s.core.t;
    assert AppendLog(s) == s.alog;
    var a, r := ReplayAppends(Kept(s.alog, s.appendMin)), ReplayRewrites(Kept(s.rlog, s.rewriteMin));
    forall j: nat
      ensures Sides(f, t, a, r, s.rlog, j)
    {
      RecoveredAppendSide(f, t, s.alog, RP.Oldest(s.core), s.appendMin, j);
      RecoveredRewriteSide(f, t, s.rlog, s.core.activeRewrite, s.rewriteMin, RP.KnownSorted(s.core), j);
    }
    RecoveredAppendEnd(f, t, s.alog, RP.Oldest(s.core), s.appendMin);
    OverlayAgrees(f, t, a, r, s.rlog, i);
  }

  // --------------------------------------------------- the rebuilt table in detail

  /** The rebuilt table: rewritten entries where the rewrite log has them, appended ones where
      the append log has them, none of them in a purged file. */
  ghost predicate Placed(t: Table, alog: seq<Record>, rlog: seq<Record>, appendMin: FileSeq, rewriteMin: FileSeq)
    requires Connected(alog, AppendQueue) && Connected(rlog, RewriteQueue)
  {
    && t.rewriteCount <= |t.entries|
    && (forall i: nat :: t.first <= i < t.Boundary() ==> Lookup(rlog, i) == Some(t.At(i)) && rewriteMin <= t.At(i).Seq())
    && (forall i: nat :: t.Boundary() <= i < t.End() ==> Lookup(alog, i) == Some(t.At(i)) && appendMin <= t.At(i).Seq())
  }

  /** The overlay keeps what the rewritten table has in front of the appended one. */
  lemma OverlayParts(r: Table, a: Table, i: nat)
    requires r.rewriteCount == |r.entries| && a.rewriteCount == 0
    ensures var t := MergeAppendTable(r, a);
            && (t.first <= i < t.Boundary() ==> r.Has(i) && t.At(i) == r.At(i))
            && (t.Boundary() <= i < t.End() ==> a.Has(i) && t.At(i) == a.At(i))
            && (t.rewriteCount == |t.entries| ==> |a.entries| == 0 && t.entries == r.entries && t.first == r.first)
  {
  }

  lemma KeptAt(log: seq<Record>, queue: LogQueue, active: FileSeq, min: FileSeq, t: Table, i: nat)
    requires Connected(log, queue) && InOrder(log, active) && Connected(Kept(log, min), queue)
    requires t.Get(i) == Lookup(Kept(log, min), i) && t.Has(i)
    ensures Lookup(log, i) == Some(t.At(i)) && min <= t.At(i).Seq()
  {
    KeptLookup(log, queue, active, min, i);
  }

  /** One index of the overlay of what is kept of both logs. */
  lemma PlacedAt(alog: seq<Record>, rlog: seq<Record>, append: FileSeq, rewrite: FileSeq,
                 appendMin: FileSeq, rewriteMin: FileSeq, i: nat)
    requires Connected(alog, AppendQueue) && InOrder(alog, append) && Connected(rlog, RewriteQueue) && InOrder(rlog, rewrite)
    ensures var t := MergeAppendTable(ReplayRewrites(Kept(rlog, rewriteMin)), ReplayAppends(Kept(alog, appendMin)));
            && (t.first <= i < t.Boundary() ==> Lookup(rlog, i) == Some(t.At(i)) && rewriteMin <= t.At(i).Seq())
            && (t.Boundary() <= i < t.End() ==> Lookup(alog, i) == Some(t.At(i)) && appendMin <= t.At(i).Seq())
  {
    hide MergeAppendTable, Kept, Lookup, ReplayAppends, ReplayRewrites, Connected, InOrder;
    var ka, kr := Kept(alog, appendMin), Kept(rlog, rewriteMin);
    var a, r := ReplayAppends(ka), ReplayRewrites(kr);
    KeptShape(alog, AppendQueue, append, appendMin);
    KeptShape(rlog, RewriteQueue, rewrite, rewriteMin);
    ReplayAppendsIsLookup(ka, i);
    ReplayRewritesIsLookup(kr, i);
    OverlayParts(r, a, i);
    var t := MergeAppendTable(r, a);
    if t.first <= i < t.Boundary() {
      KeptAt(rlog, RewriteQueue, rewrite, rewriteMin, r, i);
    } else if t.Boundary() <= i < t.End() {
      KeptAt(alog, AppendQueue, append, appendMin, a, i);
    }
  }

  /** With nothing appended left, the rebuilt table ends where the rewrite log ends. */
  lemma PlacedTail(alog: seq<Record>, rlog: seq<Record>, append: FileSeq, rewrite: FileSeq,
                   appendMin: FileSeq, rewriteMin: FileSeq)
    requires Connected(rlog, RewriteQueue) && InOrder(rlog, rewrite)
    ensures var t := MergeAppendTable(ReplayRewrites(Kept(rlog, rewriteMin)), ReplayAppends(Kept(alog, appendMin)));
            |t.entries| > 0 && t.rewriteCount == |t.entries| ==> |rlog| > 0 && End(rlog) == t.End()
  {
    hide MergeAppendTable, Kept, Lookup, ReplayAppends, ReplayRewrites, InOrder;
    var kr := Kept(rlog, rewriteMin);
    KeptShape(rlog, RewriteQueue, rewrite, rewriteMin);
    ReplayRewritesIsLookup(kr, 0);
    OverlayParts(ReplayRewrites(kr), ReplayAppends(Kept(alog, appendMin)), 0);
    if |kr| == 0 {
      NothingReplays(kr);
    }
  }

  lemma RecoveredIsPlaced(s: Sys, alog: seq<Record>, append: FileSeq, rewrite: FileSeq)
    requires AppendLog(s) == alog && Connected(alog, AppendQueue) && InOrder(alog, append)
    requires Connected(s.rlog, RewriteQueue) && InOrder(s.rlog, rewrite)
    ensures Placed(Recovered(s), alog, s.rlog, s.appendMin, s.rewriteMin)
    ensures var t := Recovered(s);
            |t.entries| > 0 && t.rewriteCount == |t.entries| ==> |s.rlog| > 0 && End(s.rlog) == t.End()
    ensures RP.Bare(Recovered(s)) == Recovered(s)
  {
    hide MergeAppendTable, Kept, Lookup, ReplayAppends, ReplayRewrites, InOrder, RP.Bare;
    var t := Recovered(s);
    ReplayIsBare(Kept(alog, s.appendMin), Kept(s.rlog, s.rewriteMin));
    PlacedTail(alog, s.rlog, append, rewrite, s.appendMin, s.rewriteMin);
    forall i: nat
      ensures t.first <= i < t.Boundary() ==> Lookup(s.rlog, i) == Some(t.At(i)) && s.rewriteMin <= t.At(i).Seq()
      ensures t.Boundary() <= i < t.End() ==> Lookup(alog, i) == Some(t.At(i)) && s.appendMin <= t.At(i).Seq()
    {
      PlacedAt(alog, s.rlog, append, rewrite, s.appendMin, s.rewriteMin, i);
    }
  }

  lemma NothingReplays(log: seq<Record>)
    requires |log| == 0
    ensures |ReplayRewrites(log).entries| == 0
  {
  }

  lemma ReplayIsBare(a: seq<Record>, r: seq<Record>)
    ensures var t := MergeAppendTable(ReplayRewrites(r), ReplayAppends(a)); RP.Bare(t) == t
  {
    AppendsAreBare(a);
    RewritesAreBare(r);
  }

  lemma {:induction false} AppendsAreBare(log: seq<Record>)
    ensures ReplayAppends(log).kvs == map[] && ReplayAppends(log).group == None
    decreases |log|
  {
    if |log| > 0 {
      AppendsAreBare(log[..|log| - 1]);
    }
  }

  lemma {:induction false} RewritesAreBare(log: seq<Record>)
    ensures ReplayRewrites(log).kvs == map[] && ReplayRewrites(log).group == None
    decreases |log|
  {
    if |log| > 0 {
      RewritesAreBare(log[..|log| - 1]);
    }
  }

  // ------------------------------------------------------ everything holds again

  /** Each location of a placed table is in its queue, and each part is ordered by file. */
  lemma PlacedPair(t: Table, log: seq<Record>, queue: LogQueue, active: FileSeq, i: nat, j: nat)
    requires Connected(log, queue) && InOrder(log, active) && t.Has(i) && t.Has(j) && i <= j
    requires Lookup(log, i) == Some(t.At(i)) && Lookup(log, j) == Some(t.At(j))
    ensures t.At(i).Queue() == queue && t.At(i).Seq() <= active && t.At(i).Seq() <= t.At(j).Seq()
  {
    LookupFound(log, queue, active, i);
    LookupOrdered(log, queue, active, i, j);
  }

  lemma PlacedIsValid(t: Table, alog: seq<Record>, rlog: seq<Record>, appendMin: FileSeq, rewriteMin: FileSeq,
                      append: FileSeq, rewrite: FileSeq)
    requires Connected(alog, AppendQueue) && InOrder(alog, append)
    requires Connected(rlog, RewriteQueue) && InOrder(rlog, rewrite)
    requires Placed(t, alog, rlog, appendMin, rewriteMin)
    ensures t.Valid() && RP.EntriesBounded(t, append, rewrite)
    ensures PartsSorted(t, AppendQueue) && PartsSorted(t, RewriteQueue)
  {
    hide Lookup, Connected, InOrder;
    forall j, k | 0 <= j <= k < t.rewriteCount
      ensures t.entries[j].Queue() == RewriteQueue && t.entries[j].Seq() <= rewrite && t.entries[j].Seq() <= t.entries[k].Seq()
    {
      PlacedPair(t, rlog, RewriteQueue, rewrite, t.first + j, t.first + k);
    }
    forall j, k | t.rewriteCount <= j <= k < |t.entries|
      ensures t.entries[j].Queue() == AppendQueue && t.entries[j].Seq() <= append && t.entries[j].Seq() <= t.entries[k].Seq()
    {
      PlacedPair(t, alog, AppendQueue, append, t.first + j, t.first + k);
    }
    forall k | 0 <= k < |t.entries|
      ensures RP.Bounded(t.entries[k].block.id, append, rewrite)
    {
      assert t.entries[k].Queue() == t.entries[k].block.id.queue && t.entries[k].Seq() <= t.entries[k].Seq();
    }
  }

  /** The core of the restarted region. */
  lemma RestartedCore(f: RP.Files, t: Table, append: FileSeq, rewrite: FileSeq)
    requires RP.Bare(t) == t && t.Valid() && RP.EntriesBounded(t, append, rewrite)
    requires PartsSorted(t, AppendQueue) && PartsSorted(t, RewriteQueue)
    ensures CoreInv(f, RP.State(t, [], RP.Idle, append, rewrite, true))
  {
    assert t.kvs == map[];
    assert RV.ShowsLog(f, t, Shown(f, t));
  }

  lemma RestartedHistory(f: RP.Files, t: Table, t': Table, alog: seq<Record>, rlog: seq<Record>, active: FileSeq,
                         appendMin: FileSeq, rewriteMin: FileSeq)
    requires HistoryOk(f, t, alog, active) && Connected(rlog, RewriteQueue) && Placed(t', alog, rlog, appendMin, rewriteMin)
    requires t'.Valid()
    requires forall i: nat :: (t'.Has(i) <==> t.Has(i)) && (t.Has(i) ==> f.content(t'.At(i)) == f.content(t.At(i)))
    ensures HistoryOk(f, t', alog, active)
  {
    hide Lookup, InOrder;
    forall i: nat | t'.Has(i) && t'.At(i).Queue() == AppendQueue
      ensures Lookup(alog, i).value == t'.At(i)
    {
      assert t'.At(i) == t'.entries[i - t'.first];
      assert t'.Boundary() <= i;
    }
  }

  lemma RestartedRewrites(f: RP.Files, t: Table, t': Table, alog: seq<Record>, rlog: seq<Record>, active: FileSeq,
                          appendMin: FileSeq, rewriteMin: FileSeq)
    requires RewritesOk(t, rlog, active) && Connected(alog, AppendQueue) && Placed(t', alog, rlog, appendMin, rewriteMin)
    requires forall i: nat :: t'.Has(i) <==> t.Has(i)
    ensures RewritesOk(t', rlog, active) && RegionOk(f, t', rlog, rewriteMin, true)
  {
    hide Lookup, Connected, InOrder;
    if |rlog| > 0 {
      assert t.Has(t.first) && t'.Has(t.first);
      assert t'.Has(t'.first);
    }
  }

  /** With nothing in flight, a restart keeps the invariant, and the table shows the same. */
  lemma RestartKeepsInv(f: RP.Files, s: Sys)
    requires Inv(f, s) && s.core.flight == []
    ensures Inv(f, Restarted(s, Recovered(s)))
    ensures Shown(f, Recovered(s)) == Shown(f, s.core.t)
  {
    hide Recovered, Placed, PartsSorted, RP.EntriesBounded, Shown, Lookup, InOrder, Connected, PassDisk;
    var c, t, t' := s.core, s.core.t, Recovered(s);
    assert c.t.Valid();
    assert AppendLog(s) == s.alog;
    RecoveredIsPlaced(s, s.alog, c.activeAppend, c.activeRewrite);
    PlacedIsValid(t', s.alog, s.rlog, s.appendMin, s.rewriteMin, c.activeAppend, c.activeRewrite);
    RestartedCore(f, t', c.activeAppend, c.activeRewrite);
    forall i: nat
      ensures (t'.Has(i) <==> t.Has(i)) && (t.Has(i) ==> f.content(t'.At(i)) == f.content(t.At(i)))
    {
      RecoveryFromInv(f, s, i);
    }
    RestartedHistory(f, t, t', s.alog, s.rlog, c.activeAppend, s.appendMin, s.rewriteMin);
    RestartedRewrites(f, t, t', s.alog, s.rlog, c.activeRewrite, s.appendMin, s.rewriteMin);
    var s' := Restarted(s, t');
    assert AppendLog(s') == s.alog;
    assert PassDisk(f, s') by { NoPassDisk(f, s'); }
    assert PurgedOk(s') by { PlacedAppends(t', s.alog, s.rlog, s.appendMin, s.rewriteMin); }
    assert Shown(f, t') == Shown(f, t) by { SameShown(f, t, t'); }
  }

  lemma PlacedAppends(t: Table, alog: seq<Record>, rlog: seq<Record>, appendMin: FileSeq, rewriteMin: FileSeq)
    requires Connected(alog, AppendQueue) && Connected(rlog, RewriteQueue) && t.Valid()
    requires Placed(t, alog, rlog, appendMin, rewriteMin)
    ensures forall i: nat :: t.Has(i) && t.At(i).Queue() == AppendQueue ==> appendMin <= t.At(i).Seq()
  {
    hide Lookup;
    forall i: nat | t.Has(i) && t.At(i).Queue() == AppendQueue
      ensures appendMin <= t.At(i).Seq()
    {
      assert t.At(i) == t.entries[i - t.first];
      assert t.Boundary() <= i;
    }
  }

  lemma SameShown(f: RP.Files, t: Table, t': Table)
    requires forall i: nat :: (t'.Has(i) <==> t.Has(i)) && (t.Has(i) ==> f.content(t'.At(i)) == f.content(t.At(i)))
    ensures Shown(f, t') == Shown(f, t)
  {
    forall i: nat
      ensures i in Shown(f, t') <==> i in Shown(f, t)
      ensures i in Shown(f, t) ==> Shown(f, t')[i] == Shown(f, t)[i]
    {
      assert t'.Has(i) <==> t.Has(i);
    }
  }

  // ------------------------------------------------------------ records in flight

  /** The log after everything in flight is applied. */
  ghost function Flushed(f: RP.Files, log: map<nat, Bytes>, flight: seq<RP.Written>): map<nat, Bytes>
    decreases |flight|
  {
    if |flight| == 0 then log
    else Flushed(f, RV.Said(f, RP.Model(log, map[]), flight[0].op).log, flight[1..])
  }

  lemma {:induction false} FlushedSnoc(f: RP.Files, log: map<nat, Bytes>, flight: seq<RP.Written>, w: RP.Written)
    ensures Flushed(f, log, flight + [w]) == RV.Said(f, RP.Model(Flushed(f, log, flight), map[]), w.op).log
    decreases |flight|
  {
    hide RV.Said;
    if |flight| == 0 {
      assert (flight + [w])[1..] == [];
    } else {
      assert (flight + [w])[1..] == flight[1..] + [w];
      FlushedSnoc(f, RV.Said(f, RP.Model(log, map[]), flight[0].op).log, flight[1..], w);
    }
  }

  lemma ApplyKeepsInv(f: RP.Files, s: Sys)
    requires Inv(f, s) && |s.core.flight| > 0
    ensures s.core.t.rewriteCount <= |s.core.t.entries| && Enabled(f, s, ApplyNext)
    ensures Inv(f, Next(f, s, ApplyNext))
    ensures Shown(f, Next(f, s, ApplyNext).core.t) == RV.Said(f, RP.Model(Shown(f, s.core.t), map[]), s.core.flight[0].op).log
    ensures AppendLog(Next(f, s, ApplyNext)) == AppendLog(s)
  {
    hide DiskInv, Shown, RV.Said, RV.View, RP.EntryShape;
    FlightIsAccepted(f, s);
    ApplyKeepsDisk(f, s);
    CoreStep(f, s.core, RP.ApplyNext);
    ApplyKeepsLog(s);
  }

  /** The state after everything in flight is applied: same files, nothing in flight. */
  lemma {:induction false} Settle(f: RP.Files, s: Sys) returns (s': Sys)
    requires Inv(f, s)
    ensures Inv(f, s') && s'.core.flight == []
    ensures AppendLog(s') == AppendLog(s) && s'.rlog == s.rlog
    ensures s'.appendMin == s.appendMin && s'.rewriteMin == s.rewriteMin
    ensures s'.core.activeAppend == s.core.activeAppend && s'.core.activeRewrite == s.core.activeRewrite
    ensures Shown(f, s'.core.t) == Flushed(f, Shown(f, s.core.t), s.core.flight)
    decreases |s.core.flight|
  {
    hide Inv, AppendLog, Shown, RV.Said;
    if s.core.flight == [] {
      s' := s;
    } else {
      ApplyKeepsInv(f, s);
      s' := Settle(f, Next(f, s, ApplyNext));
    }
  }

  /** Cut and merged in any way, what is left of the queues is replayed as in order. */
  lemma CutsAreReplayed(f: RP.Files, s: Sys, appends: C.Cut, rewrites: C.Cut)
    requires DiskInv(f, s) && CutsOf(s, appends, rewrites)
    ensures Rebuilt(appends, rewrites) == Some(Recovered(s))
  {
    hide Kept, Connected, InOrder;
    KeptShape(AppendLog(s), AppendQueue, s.core.activeAppend, s.appendMin);
    KeptShape(s.rlog, RewriteQueue, s.core.activeRewrite, s.rewriteMin);
    C.RecoverIsReplay(AppendQueue, appends);
    C.RecoverIsReplay(RewriteQueue, rewrites);
  }

  /** A restart at any moment: it does not panic, the table shows everything that was written,
      applied or not, and the run can go on. */
  lemma RestartFromAny(f: RP.Files, s: Sys, appends: C.Cut, rewrites: C.Cut)
    requires Inv(f, s) && CutsOf(s, appends, rewrites)
    ensures Rebuilt(appends, rewrites) == Some(Recovered(s))
    ensures Inv(f, Restarted(s, Recovered(s)))
    ensures Shown(f, Recovered(s)) == Flushed(f, Shown(f, s.core.t), s.core.flight)
  {
    hide CoreInv, DiskInv, Rebuilt, Shown, Flushed, AppendLog, CutsOf;
    CutsAreReplayed(f, s, appends, rewrites);
    var s' := Settle(f, s);
    RestartKeepsInv(f, s');
    assert Recovered(s') == Recovered(s);
    assert Restarted(s', Recovered(s)) == Restarted(s, Recovered(s));
  }
}
