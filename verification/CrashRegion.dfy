/**
 One raft group with its entries and its keys, on disk and in memory.

 Items are written to the append queue and applied later, passes copy entries and key-value pairs
 to the rewrite queue, files are purged, and a crash may happen after any step. The last batch of
 a pass holds the last entries and all pairs. What happens to the entries is a step of
 `CrashRecovery`; this module has the whole and shows that.
 */
module CrashRegions {
  import opened PipeLog
  import opened Tables
  import opened RecordLog
  import opened OpLogs
  import C = RecordCuts
  import E = CrashRecovery
  import RP = RewritePass
  import RV = RewriteView

  /**
   `alog` and `rlog` are the items of the two queues, without those of the append queue that are
   still in flight and those of an unfinished atomic group. `keysOut` says that the pairs of the
   running pass are on disk; the rest is as for the entries alone.
   */
  datatype Region = Region(core: RP.State, alog: seq<RP.Written>, rlog: seq<RP.Written>, group: seq<Record>,
                           written: seq<EntryIndex>, keysOut: bool, done: bool, appendMin: FileSeq, rewriteMin: FileSeq)

  datatype Step =
    | Rotate(file: FileSeq)
    | Write(op: RP.Op)
    | ApplyNext
    | Begin(gate: Option<FileSeq>)
    | WriteChunk(rw: seq<EntryIndex>, file: FileSeq)
    | WriteKeys(kvs: seq<RP.Op>, file: FileSeq)
    | ApplyWritten
    | ApplyKey(key: Bytes)
    | Finish
    | Abandon
    | PurgeAppend(min: FileSeq)
    | PurgeRewrite(min: FileSeq)
    | Restart(appends: Cut, rewrites: Cut)

  /** Everything that was ever written to the append queue. */
  function AppendLog(s: Region): seq<RP.Written> { s.alog + s.core.flight }

  /** The batch has the pairs of the pass, all of them and nothing else. */
  ghost predicate PairsOf(f: RP.Files, kvs: seq<RP.Op>, keys: map<Bytes, Bytes>, file: FileSeq) {
    && (forall j :: 0 <= j < |kvs| ==> kvs[j].PutKey? && kvs[j].key in keys && kvs[j].value == keys[kvs[j].key])
    && (forall k :: k in keys ==> exists j :: 0 <= j < |kvs| && kvs[j] == RP.PutKey(k, keys[k]))
    && (forall j :: 0 <= j < |kvs| && kvs[j].PutKey? ==> f.holds(FileId(RewriteQueue, file), kvs[j].key, kvs[j].value))
  }

  /** What a restart rebuilds from the pieces the files are cut into; `None` is a failed assertion. */
  function Rebuilt(appends: Cut, rewrites: Cut): (r: Option<Table>)
    ensures r.Some? ==> r.value.rewriteCount <= |r.value.entries|
  {
    var a, w := Recover(AppendQueue, appends), Recover(RewriteQueue, rewrites);
    if a.Some? && w.Some? && a.value.rewriteCount == 0 then Some(MergeAppendTable(w.value, a.value)) else None
  }

  /** The pieces are what is left of the two queues. */
  predicate CutsOf(s: Region, appends: Cut, rewrites: Cut) {
    && Flatten(appends) == KeptOps(AppendLog(s), s.appendMin)
    && Flatten(rewrites) == KeptOps(s.rlog, s.rewriteMin)
  }

  ghost predicate Enabled(f: RP.Files, s: Region, step: Step)
    requires s.core.t.rewriteCount <= |s.core.t.entries|
  {
    match step
    case Rotate(file) => RP.Enabled(f, s.core, RP.Rotate(file))
    case Write(op) =>
      && RP.Enabled(f, s.core, RP.Write([op]))
      && ((op.Entries? && |op.es| > 0 && E.Fits(EntryRecords(AppendLog(s)), op.es[0].index)) || op.PutKey?)
    case ApplyNext => RP.Enabled(f, s.core, RP.ApplyNext)
    case Begin(gate) => RP.Enabled(f, s.core, E.BeginStep(gate))
    case WriteChunk(rw, file) =>
      && s.core.phase.Pass? && s.written == [] && s.core.activeRewrite <= file
      && RP.CopiesOf(f, rw, s.core.phase.pending, file)
    case WriteKeys(kvs, file) =>
      && s.core.phase.Pass? && |s.written| == |s.core.phase.pending| && !s.keysOut
      && (if |s.written| > 0 then file == s.core.activeRewrite else s.core.activeRewrite <= file)
      && PairsOf(f, kvs, s.core.phase.keys, file)
    case ApplyWritten =>
      |s.written| > 0 && RP.Enabled(f, s.core, RP.ApplyChunk(s.written, s.core.activeRewrite))
    case ApplyKey(key) => s.keysOut && RP.Enabled(f, s.core, RP.ApplyKey(key, s.core.activeRewrite))
    case Finish => s.written == [] && RP.Enabled(f, s.core, RP.EndPass)
    case Abandon => RP.Enabled(f, s.core, RP.AbandonPass)
    case PurgeAppend(min) => E.SafeMin(s.core.t, AppendQueue, RP.Oldest(s.core), min)
    case PurgeRewrite(min) => RP.KnownSorted(s.core) && E.SafeMin(s.core.t, RewriteQueue, s.core.activeRewrite, min)
    case Restart(appends, rewrites) => CutsOf(s, appends, rewrites) && Rebuilt(appends, rewrites).Some?
  }

  /** Records as items. */
  function OpsOf(g: seq<Record>): (ops: seq<RP.Written>)
    ensures |ops| == |g| && forall k :: 0 <= k < |g| ==> ops[k] == RP.Written(RP.Entries(g[k].es), g[k].file)
  {
    seq(|g|, k requires 0 <= k < |g| => RP.Written(RP.Entries(g[k].es), g[k].file))
  }

  ghost function Next(f: RP.Files, s: Region, step: Step): Region
    requires s.core.t.rewriteCount <= |s.core.t.entries| && Enabled(f, s, step)
  {
    match step
    case Rotate(file) => s.(core := RP.Next(f, s.core, RP.Rotate(file)))
    case Write(op) => s.(core := RP.Next(f, s.core, RP.Write([op])))
    case ApplyNext => s.(core := RP.Next(f, s.core, RP.ApplyNext), alog := s.alog + [s.core.flight[0]])
    case Begin(gate) =>
      s.(core := RP.Next(f, s.core, E.BeginStep(gate)), group := [], written := [], keysOut := false, done := false)
    case WriteChunk(rw, file) =>
      var s' := s.(core := s.core.(activeRewrite := file), written := rw);
      if s.core.phase.gate.Some? then s'.(rlog := s.rlog + OpsOf([Record(file, rw)]))
      else if |rw| < |s.core.phase.pending| then s'.(group := s.group + [Record(file, rw)])
      else s'.(rlog := s.rlog + OpsOf(s.group + [Record(file, rw)]), group := [], done := true)
    case WriteKeys(kvs, file) =>
      s.(core := s.core.(activeRewrite := file), rlog := s.rlog + RP.InFile(kvs, file), keysOut := true)
    case ApplyWritten =>
      s.(core := RP.Next(f, s.core, RP.ApplyChunk(s.written, s.core.activeRewrite)), written := [])
    case ApplyKey(key) => s.(core := RP.Next(f, s.core, RP.ApplyKey(key, s.core.activeRewrite)))
    case Finish => s.(core := RP.Next(f, s.core, RP.EndPass), keysOut := false, done := false)
    case Abandon =>
      s.(core := RP.Next(f, s.core, RP.AbandonPass), group := [], written := [], keysOut := false, done := false)
    case PurgeAppend(min) => s.(appendMin := Max(s.appendMin, min))
    case PurgeRewrite(min) => s.(rewriteMin := Max(s.rewriteMin, min))
    case Restart(appends, rewrites) => Restarted(s, Rebuilt(appends, rewrites).value)
  }

  /** The state after opening again with table `t`: nothing is in flight and no pass runs. */
  function Restarted(s: Region, t: Table): Region {
    Region(RP.State(t, [], RP.Idle, s.core.activeAppend, s.core.activeRewrite, true),
           AppendLog(s), s.rlog, [], [], false, false, s.appendMin, s.rewriteMin)
  }

  // ---------------------------------------------------------- the entries' side

  /** The entries among the items in flight. */
  function Strip(flight: seq<RP.Written>): seq<RP.Written> {
    if |flight| == 0 then [] else
    (if flight[0].op.Entries? then [flight[0]] else []) + Strip(flight[1..])
  }

  function Side(c: RP.State): RP.State {
    RP.State(RP.Bare(c.t), Strip(c.flight), RP.BarePhase(c.phase), c.activeAppend, c.activeRewrite, c.sorted)
  }

  function EntrySide(s: Region): E.Sys {
    E.Sys(Side(s.core), EntryRecords(s.alog), EntryRecords(s.rlog), s.group, s.written, s.done, s.appendMin, s.rewriteMin)
  }

  lemma {:induction false} StripSnoc(flight: seq<RP.Written>, w: RP.Written)
    ensures Strip(flight + [w]) == if w.op.Entries? then Strip(flight) + [w] else Strip(flight)
    decreases |flight|
  {
    var all := flight + [w];
    if |flight| == 0 {
      assert all[1..] == [];
    } else {
      StripSnoc(flight[1..], w);
      assert all[0] == flight[0] && all[1..] == flight[1..] + [w];
      var head, tail := if flight[0].op.Entries? then [flight[0]] else [], Strip(flight[1..]);
      assert head + (tail + [w]) == (head + tail) + [w];
    }
  }

  /** Every entry item is kept, and nothing else. */
  lemma {:induction false} StripShape(flight: seq<RP.Written>, k: nat) returns (j: nat)
    requires k < |Strip(flight)|
    ensures j < |flight| && flight[j] == Strip(flight)[k] && flight[j].op.Entries? && k <= j
    decreases |flight|
  {
    if flight[0].op.Entries? {
      if k == 0 {
        j := 0;
      } else {
        j := StripShape(flight[1..], k - 1);
        j := j + 1;
      }
    } else {
      j := StripShape(flight[1..], k);
      j := j + 1;
    }
  }

  lemma {:induction false} StripRecords(flight: seq<RP.Written>)
    ensures E.RecordsOf(Strip(flight)) == EntryRecords(flight)
    decreases |flight|
  {
    hide EntryRecords;
    if |flight| == 0 {
      assert flight == [];
      NoRecords();
    } else {
      var n, w := |flight| - 1, flight[|flight| - 1];
      StripRecords(flight[..n]);
      StripSnoc(flight[..n], w);
      RecordsSnoc(flight[..n], w);
      assert flight == flight[..n] + [w];
    }
  }

  /** The append log of the entries' side. */
  lemma SideLog(s: Region)
    ensures E.AppendLog(EntrySide(s)) == EntryRecords(AppendLog(s))
  {
    StripRecords(s.core.flight);
    RecordsConcat(s.alog, s.core.flight);
  }

  lemma {:induction false} OpsRecords(g: seq<Record>)
    ensures EntryRecords(OpsOf(g)) == g
    decreases |g|
  {
    if |g| > 0 {
      var n := |g| - 1;
      OpsRecords(g[..n]);
      assert OpsOf(g)[..n] == OpsOf(g[..n]);
    }
  }

  lemma {:induction false} PairRecords(kvs: seq<RP.Op>, file: FileSeq)
    requires forall j :: 0 <= j < |kvs| ==> kvs[j].PutKey?
    ensures EntryRecords(RP.InFile(kvs, file)) == []
    decreases |kvs|
  {
    if |kvs| > 0 {
      var n := |kvs| - 1;
      PairRecords(kvs[..n], file);
      assert RP.InFile(kvs, file)[..n] == RP.InFile(kvs[..n], file);
    }
  }

  /** The step the entries take, if any. */
  function SideStep(s: Region, step: Step): Option<E.Step> {
    match step
    case Rotate(file) => Some(E.Rotate(file))
    case Write(op) => if op.Entries? then Some(E.Append(op.es)) else None
    case ApplyNext => if |s.core.flight| > 0 && s.core.flight[0].op.Entries? then Some(E.ApplyNext) else None
    case Begin(gate) => Some(E.Begin(gate))
    case WriteChunk(rw, file) => Some(E.WriteChunk(rw, file))
    case WriteKeys(kvs, file) => if |s.written| > 0 then None else Some(E.MoveOn(file))
    case ApplyWritten => Some(E.ApplyWritten)
    case ApplyKey(_) => None
    case Finish => Some(E.Finish)
    case Abandon => Some(E.Abandon)
    case PurgeAppend(min) => Some(E.PurgeAppend(min))
    case PurgeRewrite(min) => Some(E.PurgeRewrite(min))
    case Restart(appends, rewrites) => Some(E.Restart(RecordCut(appends), RecordCut(rewrites)))
  }

  /** The step is that step of the entries, or does nothing to them. */
  ghost predicate Commutes(f: RP.Files, s: Region, step: Step)
    requires s.core.t.rewriteCount <= |s.core.t.entries| && Enabled(f, s, step)
  {
    match SideStep(s, step)
    case Some(e) => E.Enabled(f, EntrySide(s), e) && E.Next(f, EntrySide(s), e) == EntrySide(Next(f, s, step))
    case None => EntrySide(Next(f, s, step)) == EntrySide(s)
  }

  lemma WriteCommutes(f: RP.Files, s: Region, op: RP.Op)
    requires s.core.t.Valid() && Enabled(f, s, Write(op))
    ensures Commutes(f, s, Write(op))
  {
    hide EntryRecords, E.AppendLog, E.Fits, RP.Recorded;
    SideLog(s);
    StripSnoc(s.core.flight, RP.Written(op, s.core.activeAppend));
    assert s.core.flight + RP.InFile([op], s.core.activeAppend) == s.core.flight + [RP.Written(op, s.core.activeAppend)];
    if op.Entries? {
      assert RP.InFile([RP.Entries(op.es)], s.core.activeAppend) == [RP.Written(op, s.core.activeAppend)];
    }
  }

  lemma ApplyCommutes(f: RP.Files, s: Region)
    requires s.core.t.Valid() && Enabled(f, s, ApplyNext) && Plain(s.core.flight)
    ensures Commutes(f, s, ApplyNext)
  {
    hide EntryRecords, RP.Applied, Commutes, Accepts;
    RecordsSnoc(s.alog, s.core.flight[0]);
    RP.BareApply(s.core.t, s.core.flight[0]);
    if s.core.flight[0].op.Entries? {
      ApplyEntriesCommutes(f, s);
    } else {
      ApplyPutCommutes(f, s);
    }
  }

  lemma ApplyEntriesCommutes(f: RP.Files, s: Region)
    requires s.core.t.Valid() && Enabled(f, s, ApplyNext) && s.core.flight[0].op.Entries?
    requires RP.Applied(RP.Bare(s.core.t), s.core.flight[0]) == RP.Bare(RP.Applied(s.core.t, s.core.flight[0]))
    requires EntryRecords(s.alog + [s.core.flight[0]]) == EntryRecords(s.alog) + [E.RecordOf(s.core.flight[0])]
    ensures Commutes(f, s, ApplyNext)
  {
    hide EntryRecords, RP.Applied;
    assert Strip(s.core.flight)[0] == s.core.flight[0] && Strip(s.core.flight)[1..] == Strip(s.core.flight[1..]);
  }

  lemma ApplyPutCommutes(f: RP.Files, s: Region)
    requires s.core.t.Valid() && Enabled(f, s, ApplyNext) && s.core.flight[0].op.PutKey?
    requires RP.Bare(RP.Applied(s.core.t, s.core.flight[0])) == RP.Bare(s.core.t)
    requires EntryRecords(s.alog + [s.core.flight[0]]) == EntryRecords(s.alog)
    ensures Commutes(f, s, ApplyNext)
  {
    hide EntryRecords, RP.Applied;
    assert Strip(s.core.flight) == Strip(s.core.flight[1..]);
  }

  lemma BeginCommutes(f: RP.Files, s: Region, gate: Option<FileSeq>)
    requires s.core.t.Valid() && Enabled(f, s, Begin(gate))
    ensures Commutes(f, s, Begin(gate))
  {
    hide EntryRecords;
    var t := s.core.t;
    assert RP.FetchedKeys(RP.Bare(t), gate) == map[];
    if gate.Some? {
      BareFetch(t, t.rewriteCount, gate.value);
    } else {
      assert FetchedRewritten(RP.Bare(t)) == FetchedRewritten(t);
    }
  }

  lemma {:induction false} BareFetch(t: Table, k: nat, gate: FileSeq)
    requires k <= |t.entries|
    ensures FetchedFrom(RP.Bare(t), k, gate) == FetchedFrom(t, k, gate)
    decreases |t.entries| - k
  {
    if k < |t.entries| && t.entries[k].Seq() <= gate {
      BareFetch(t, k + 1, gate);
    }
  }

  lemma ChunkCommutes(f: RP.Files, s: Region, rw: seq<EntryIndex>, file: FileSeq)
    requires s.core.t.Valid() && Enabled(f, s, WriteChunk(rw, file))
    ensures Commutes(f, s, WriteChunk(rw, file))
  {
    hide EntryRecords, RP.CopiesOf;
    var one, all := [Record(file, rw)], s.group + [Record(file, rw)];
    OpsRecords(one);
    OpsRecords(all);
    RecordsConcat(s.rlog, OpsOf(one));
    RecordsConcat(s.rlog, OpsOf(all));
  }

  lemma KeysCommute(f: RP.Files, s: Region, kvs: seq<RP.Op>, file: FileSeq)
    requires s.core.t.Valid() && Enabled(f, s, WriteKeys(kvs, file))
    ensures Commutes(f, s, WriteKeys(kvs, file))
  {
    hide EntryRecords;
    PairRecords(kvs, file);
    RecordsConcat(s.rlog, RP.InFile(kvs, file));
    assert EntryRecords(s.rlog) + [] == EntryRecords(s.rlog);
  }

  lemma AppliedCommutes(f: RP.Files, s: Region)
    requires s.core.t.Valid() && Enabled(f, s, ApplyWritten)
    ensures Commutes(f, s, ApplyWritten)
  {
    hide EntryRecords, CanRewrite, Rewritten;
    RP.BareRewrite(s.core.t, s.written, s.core.phase.gate);
  }

  lemma EndCommutes(f: RP.Files, s: Region, step: Step)
    requires s.core.t.Valid() && Enabled(f, s, step) && (step.Finish? || step.Abandon? || step.ApplyKey? || step.Rotate?)
    ensures Commutes(f, s, step)
  {
    hide EntryRecords;
  }

  /** The whole table reads from more files than its entries do. */
  lemma BareMin(t: Table, queue: LogQueue)
    requires t.rewriteCount <= |t.entries| && t.group == None
    ensures MinFileSeq(RP.Bare(t), queue).Some? ==>
              MinFileSeq(t, queue).Some? && MinFileSeq(t, queue).value <= MinFileSeq(RP.Bare(t), queue).value
  {
    var some, all := FrontSeqs(RP.Bare(t), queue), FrontSeqs(t, queue);
    assert KeySeqs(RP.Bare(t).kvs, queue) == {};
    assert forall q :: q in some ==> q in all;
    if some != {} {
      assert MinOf(some) in all;
    }
  }

  /** The oldest item in flight is not newer than the oldest entry in flight. */
  lemma SideOldest(f: RP.Files, c: RP.State)
    requires RP.FlightOk(f, c.flight, c.activeAppend)
    ensures RP.Oldest(c) <= RP.Oldest(Side(c)) <= c.activeAppend
    ensures RP.FirstUnapplied(Side(c)).Some? ==>
              RP.FirstUnapplied(c).Some? && RP.FirstUnapplied(c).value <= RP.FirstUnapplied(Side(c)).value
  {
    if |Strip(c.flight)| > 0 {
      var j := StripShape(c.flight, 0);
    }
  }

  lemma PurgeCommutes(f: RP.Files, s: Region, step: Step)
    requires s.core.t.Valid() && s.core.t.group == None && RP.FlightOk(f, s.core.flight, s.core.activeAppend)
    requires Enabled(f, s, step) && (step.PurgeAppend? || step.PurgeRewrite?)
    ensures Commutes(f, s, step)
  {
    hide EntryRecords, MinFileSeq;
    BareMin(s.core.t, AppendQueue);
    BareMin(s.core.t, RewriteQueue);
    SideOldest(f, s.core);
  }

  lemma StepCommutes(f: RP.Files, s: Region, step: Step)
    requires s.core.t.Valid() && s.core.t.group == None && RP.FlightOk(f, s.core.flight, s.core.activeAppend)
    requires Plain(s.core.flight) && Enabled(f, s, step) && !step.Restart?
    ensures Commutes(f, s, step)
  {
    hide Commutes, Enabled;
    match step
    case Rotate(_) => EndCommutes(f, s, step);
    case Write(op) => WriteCommutes(f, s, op);
    case ApplyNext => ApplyCommutes(f, s);
    case Begin(gate) => BeginCommutes(f, s, gate);
    case WriteChunk(rw, file) => ChunkCommutes(f, s, rw, file);
    case WriteKeys(kvs, file) => KeysCommute(f, s, kvs, file);
    case ApplyWritten => AppliedCommutes(f, s);
    case ApplyKey(_) => EndCommutes(f, s, step);
    case Finish => EndCommutes(f, s, step);
    case Abandon => EndCommutes(f, s, step);
    case PurgeAppend(_) => PurgeCommutes(f, s, step);
    case PurgeRewrite(_) => PurgeCommutes(f, s, step);
  }
}
