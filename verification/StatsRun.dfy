/** The shared counters over whole runs: they equal the sum over the tables that share them. */
module StatsRun {
  import opened PipeLog
  import opened Tables
  import opened Stats
  import opened MemTables

  ghost function Views(live: seq<MemTable>): (r: seq<Table>)
    reads live
    ensures |r| == |live| && forall i :: 0 <= i < |live| ==> r[i] == live[i].View()
  {
    if live == [] then [] else Views(live[..|live| - 1]) + [live[|live| - 1].View()]
  }

  ghost predicate Sound(ts: seq<Table>) {
    forall i :: 0 <= i < |ts| ==> ts[i].Valid()
  }

  /** Different tables, all of them counting in `stats`. */
  ghost predicate Sharing(stats: GlobalStats, live: seq<MemTable>) {
    && (forall i :: 0 <= i < |live| ==> live[i].stats == stats)
    && (forall i, j :: 0 <= i < j < |live| ==> live[i] != live[j])
  }

  /** The live counts are exactly the sums over the tables. */
  ghost predicate Balanced(stats: GlobalStats, live: seq<MemTable>)
    reads stats, live
  {
    && Sound(Views(live))
    && stats.Live(AppendQueue) == TotalShare(Views(live), AppendQueue)
    && stats.Live(RewriteQueue) == TotalShare(Views(live), RewriteQueue)
  }

  /** So every table is covered, and no subtraction of its share goes below zero. */
  lemma BalancedCovers(stats: GlobalStats, live: seq<MemTable>, k: nat)
    requires Sharing(stats, live) && Balanced(stats, live) && k < |live|
    ensures live[k].Valid()
  {
    hide Views, TotalShare, Share;
    TotalShareUpdate(Views(live), k, live[k].View(), AppendQueue);
    TotalShareUpdate(Views(live), k, live[k].View(), RewriteQueue);
  }

  /** A count that moves by as much as the share of the one table that changed stays the sum. */
  lemma ChangeKeepsSum(ts: seq<Table>, k: nat, t: Table, queue: LogQueue, before: int, after: int)
    requires Sound(ts) && k < |ts| && t.Valid()
    requires before == TotalShare(ts, queue) && after - Share(t, queue) == before - Share(ts[k], queue)
    ensures Sound(ts[k := t]) && after == TotalShare(ts[k := t], queue)
  {
    hide TotalShare, Share;
    TotalShareUpdate(ts, k, t, queue);
  }

  // -------------------------------------------------------------------------- runs

  /** The tables that share the counters, and tables with counters of their own that may be
      merged into them. */
  datatype World = World(tables: seq<Table>, others: seq<Table>)

  datatype Op =
    | Create
    | Append(k: nat, es: seq<EntryIndex>)
    | ReplayAppend(k: nat, es: seq<EntryIndex>)
    | ReplayRewrite(k: nat, es: seq<EntryIndex>)
    | CompactTo(k: nat, index: nat)
    | Rewrite(k: nat, rw: seq<EntryIndex>, gate: Option<FileSeq>)
    | Put(k: nat, key: Bytes, value: Bytes, id: FileId)
    | Delete(k: nat, key: Bytes)
    | RewriteKey(k: nat, key: Bytes, gate: Option<FileSeq>, seqno: FileSeq)
    | MergeNewer(k: nat, rhs: nat)
    | MergeAppend(k: nat, rhs: nat)
    | Drop(k: nat)
    | Reset

  ghost predicate AllAppend(es: seq<EntryIndex>) {
    forall i :: 0 <= i < |es| ==> es[i].loc.Queue() == AppendQueue
  }

  /** The operation does not panic: the preconditions of the table's method. */
  ghost predicate Enabled(w: World, op: Op) {
    match op
    case Create => true
    case Reset => true
    case Append(k, es) => k < |w.tables| && Consecutive(es) && AllAppend(es)
                          && (|es| > 0 ==> Accepts(w.tables[k], es[0].index, false, false))
    case ReplayAppend(k, es) => k < |w.tables| && Consecutive(es) && AllAppend(es) && w.tables[k].rewriteCount == 0
                                && (|es| > 0 ==> Accepts(w.tables[k], es[0].index, false, true))
    case ReplayRewrite(k, es) => k < |w.tables| && Consecutive(es) && AllRewrite(es)
                                 && w.tables[k].rewriteCount == |w.tables[k].entries|
    case CompactTo(k, _) => k < |w.tables|
    case Rewrite(k, rw, gate) => k < |w.tables| && w.tables[k].Valid() && Consecutive(rw) && AllRewrite(rw)
                                 && CanRewrite(w.tables[k], rw, gate)
    case Put(k, _, _, _) => k < |w.tables|
    case Delete(k, _) => k < |w.tables|
    case RewriteKey(k, key, _, seqno) => k < |w.tables| &&
      (key in w.tables[k].kvs && w.tables[k].kvs[key].id.queue == RewriteQueue ==> w.tables[k].kvs[key].id.seqno <= seqno)
    case MergeNewer(k, j) => k < |w.tables| && j < |w.others| &&
      var t, r := w.tables[k], w.others[j];
      && (r.rewriteCount == 0 || (r.rewriteCount == |r.entries| && t.rewriteCount == |t.entries|))
      && (|r.entries| > 0 ==> Accepts(t, r.first, r.rewriteCount > 0, true))
      && (t.group.Some? && r.group.Some? ==> t.group.value.1 <= r.group.value.0)
    case MergeAppend(k, j) => k < |w.tables| && j < |w.others| &&
      w.tables[k].rewriteCount == |w.tables[k].entries| && w.others[j].rewriteCount == 0 && w.others[j].group.None?
    case Drop(k) => k < |w.tables|
  }

  /** What an operation makes of the table it names. */
  ghost function Changed(w: World, op: Op): Table
    requires Sound(w.tables) && Sound(w.others) && Enabled(w, op) && !op.Create? && !op.Drop? && !op.Reset?
  {
    match op
    case Append(k, es) => Appended(w.tables[k], es)
    case ReplayAppend(k, es) => Appended(w.tables[k], es)
    case ReplayRewrite(k, es) => Tables.ReplayRewrite(w.tables[k], es)
    case CompactTo(k, index) => Tables.CompactTo(w.tables[k], index)
    case Rewrite(k, rw, gate) => Rewritten(w.tables[k], rw, gate)
    case Put(k, key, value, id) => Tables.Put(w.tables[k], key, value, id)
    case Delete(k, key) => Tables.Delete(w.tables[k], key)
    case RewriteKey(k, key, gate, seqno) => RewrittenKey(w.tables[k], key, gate, seqno)
    case MergeNewer(k, j) => MergeNewerNeighbor(w.tables[k], w.others[j])
    case MergeAppend(k, j) => MergeAppendTable(w.tables[k], w.others[j])
  }

  ghost function Next(w: World, op: Op): World
    requires Sound(w.tables) && Sound(w.others) && Enabled(w, op)
  {
    match op
    case Create => w.(tables := w.tables + [EmptyTable])
    case Drop(k) => w.(tables := w.tables[..k] + w.tables[k + 1..])
    case Reset => w
    case MergeNewer(k, j) =>
      World(w.tables[k := Changed(w, op)], w.others[j := w.others[j].(entries := [], rewriteCount := 0, group := None)])
    case MergeAppend(k, j) => World(w.tables[k := Changed(w, op)], w.others[j := w.others[j].(entries := [])])
    case _ => w.(tables := w.tables[op.k := Changed(w, op)])
  }

  ghost predicate Runs(w: World, ops: seq<Op>)
    decreases |ops|
  {
    Sound(w.tables) && Sound(w.others) && (ops == [] || (Enabled(w, ops[0]) && Runs(Next(w, ops[0]), ops[1..])))
  }

  ghost function After(w: World, ops: seq<Op>): World
    requires Runs(w, ops)
    decreases |ops|
  {
    if ops == [] then w else After(Next(w, ops[0]), ops[1..])
  }

  // ------------------------------------------------------------- running the methods

  ghost predicate Apart(live: seq<MemTable>, others: seq<MemTable>) {
    forall i, j :: 0 <= i < |live| && 0 <= j < |others| ==> live[i] != others[j]
  }

  ghost predicate OwnStats(stats: GlobalStats, others: seq<MemTable>) {
    && (forall j :: 0 <= j < |others| ==> others[j].stats != stats)
    && (forall i, j :: 0 <= i < j < |others| ==> others[i] != others[j])
  }

  ghost predicate Represents(stats: GlobalStats, live: seq<MemTable>, others: seq<MemTable>, w: World)
    reads stats, live, others
  {
    && Sharing(stats, live) && OwnStats(stats, others) && Apart(live, others)
    && Balanced(stats, live) && Views(live) == w.tables && Views(others) == w.others
  }

  /** Operations on one table. */
  method OnTable(stats: GlobalStats, t: MemTable, op: Op, ghost w: World)
    requires t.stats == stats && t.Valid() && Sound(w.tables) && Sound(w.others) && Enabled(w, op)
    requires !op.Create? && !op.Drop? && !op.Reset? && !op.MergeNewer? && !op.MergeAppend? && w.tables[op.k] == t.View()
    modifies t, stats
    ensures t.Valid() && t.Conserved() && t.View() == Changed(w, op)
  {
    match op
    case Append(_, es) => t.Append(es);
    case ReplayAppend(_, es) => t.ReplayAppend(es);
    case ReplayRewrite(_, es) => t.ReplayRewrite(es);
    case CompactTo(_, index) => var _ := t.CompactTo(index);
    case Rewrite(_, rw, gate) => t.Rewrite(rw, gate);
    case Put(_, key, value, id) => t.Put(key, value, id);
    case Delete(_, key) => t.Delete(key);
    case RewriteKey(_, key, gate, seqno) => t.RewriteKey(key, gate, seqno);
  }

  method Change(stats: GlobalStats, live: seq<MemTable>, others: seq<MemTable>, op: Op, ghost w: World)
    requires Represents(stats, live, others, w) && Sound(w.others) && Enabled(w, op)
    requires !op.Create? && !op.Drop? && !op.Reset? && !op.MergeNewer? && !op.MergeAppend?
    modifies stats, live
    ensures Represents(stats, live, others, Next(w, op))
  {
    hide TotalShare, Share, Changed, Views;
    assert op.k < |live| by { EnabledIndex(w, op); }
    BalancedCovers(stats, live, op.k);
    var t := live[op.k];
    ghost var a, r := stats.Live(AppendQueue), stats.Live(RewriteQueue);
    OnTable(stats, t, op, w);
    ChangeKeepsSum(w.tables, op.k, t.View(), AppendQueue, a, stats.Live(AppendQueue));
    ChangeKeepsSum(w.tables, op.k, t.View(), RewriteQueue, r, stats.Live(RewriteQueue));
    assert Views(live) == w.tables[op.k := t.View()];
    assert Views(others) == w.others;
  }

  lemma EnabledIndex(w: World, op: Op)
    requires Enabled(w, op) && !op.Create? && !op.Reset?
    ensures op.k < |w.tables|
  {
  }

  method Merge(stats: GlobalStats, live: seq<MemTable>, others: seq<MemTable>, op: Op, ghost w: World)
    requires Represents(stats, live, others, w) && Sound(w.others) && Enabled(w, op) && (op.MergeNewer? || op.MergeAppend?)
    modifies stats, live, others
    ensures Represents(stats, live, others, Next(w, op))
  {
    hide TotalShare, Share, Views;
    var t, r := live[op.k], others[op.rhs];
    BalancedCovers(stats, live, op.k);
    assert w.others[op.rhs] == r.View();
    ghost var before, before' := stats.Live(AppendQueue), stats.Live(RewriteQueue);
    if op.MergeNewer? {
      t.MergeNewerNeighbor(r);
    } else {
      t.MergeAppendTable(r);
    }
    ChangeKeepsSum(w.tables, op.k, t.View(), AppendQueue, before, stats.Live(AppendQueue));
    ChangeKeepsSum(w.tables, op.k, t.View(), RewriteQueue, before', stats.Live(RewriteQueue));
    assert Views(live) == w.tables[op.k := t.View()];
    assert Views(others) == w.others[op.rhs := r.View()];
  }

  lemma EmptyShare(queue: LogQueue)
    ensures Share(EmptyTable, queue) == 0
  {
    assert KeysIn(EmptyTable.kvs, queue) == {};
  }

  lemma {:induction false} TotalShareRemove(ts: seq<Table>, k: nat, queue: LogQueue)
    requires Sound(ts) && k < |ts|
    ensures Sound(ts[..k] + ts[k + 1..])
    ensures TotalShare(ts[..k] + ts[k + 1..], queue) == TotalShare(ts, queue) - Share(ts[k], queue)
    decreases |ts|
  {
    hide Share;
    var n, rest := |ts| - 1, ts[..k] + ts[k + 1..];
    if k == n {
      assert rest == ts[..n];
    } else {
      assert rest[..|rest| - 1] == ts[..n][..k] + ts[..n][k + 1..];
      TotalShareRemove(ts[..n], k, queue);
    }
  }

  lemma TotalShareAdd(ts: seq<Table>, t: Table, queue: LogQueue)
    requires Sound(ts) && t.Valid()
    ensures Sound(ts + [t]) && TotalShare(ts + [t], queue) == TotalShare(ts, queue) + Share(t, queue)
  {
    hide Share;
    assert (ts + [t])[..|ts|] == ts;
  }

  method CreateTable(stats: GlobalStats, live: seq<MemTable>, others: seq<MemTable>, region: nat, ghost w: World)
    returns (live': seq<MemTable>)
    requires Represents(stats, live, others, w)
    ensures Represents(stats, live', others, World(w.tables + [EmptyTable], w.others))
    ensures live' == live + [live'[|live|]] && fresh(live'[|live|])
  {
    hide TotalShare, Share, Views;
    var t := new MemTable(region, stats);
    live' := live + [t];
    assert Views(live') == w.tables + [EmptyTable];
    TotalShareAdd(w.tables, EmptyTable, AppendQueue);
    TotalShareAdd(w.tables, EmptyTable, RewriteQueue);
    EmptyShare(AppendQueue);
    EmptyShare(RewriteQueue);
  }

  method DropTable(stats: GlobalStats, live: seq<MemTable>, others: seq<MemTable>, k: nat, ghost w: World)
    returns (live': seq<MemTable>)
    requires Represents(stats, live, others, w) && k < |live|
    modifies stats
    ensures live' == live[..k] + live[k + 1..]
    ensures Represents(stats, live', others, World(w.tables[..k] + w.tables[k + 1..], w.others))
  {
    hide TotalShare, Share, Views;
    BalancedCovers(stats, live, k);
    live[k].Drop();
    live' := live[..k] + live[k + 1..];
    assert Views(live') == w.tables[..k] + w.tables[k + 1..];
    TotalShareRemove(w.tables, k, AppendQueue);
    TotalShareRemove(w.tables, k, RewriteQueue);
  }

  method Step(stats: GlobalStats, live: seq<MemTable>, others: seq<MemTable>, op: Op, ghost w: World)
    returns (live': seq<MemTable>)
    requires Represents(stats, live, others, w) && Sound(w.others) && Enabled(w, op)
    modifies stats, live, others
    ensures Represents(stats, live', others, Next(w, op))
    ensures forall i :: 0 <= i < |live'| ==> live'[i] in live || fresh(live'[i])
  {
    hide TotalShare, Share, Views, Changed;
    live' := live;
    match op {
      case Create =>
        live' := CreateTable(stats, live, others, 0, w);
      case Drop(k) =>
        live' := DropTable(stats, live, others, k, w);
      case Reset =>
        stats.ResetRewriteCounters();
        assert Views(live) == w.tables && Views(others) == w.others;
      case MergeNewer(_, _) => Merge(stats, live, others, op, w);
      case MergeAppend(_, _) => Merge(stats, live, others, op, w);
      case _ => Change(stats, live, others, op, w);
    }
  }

  /** Runs any sequence of operations that does not panic. At the end the tables are what the
      operations make of them, and the live counts are the sums over the tables: what every
      operation adds and takes away balances, and no counter goes below zero on the way. */
  method Run(stats: GlobalStats, tables: seq<MemTable>, others: seq<MemTable>, ops: seq<Op>, ghost w0: World)
    returns (live: seq<MemTable>)
    requires Represents(stats, tables, others, w0) && Runs(w0, ops)
    modifies stats, tables, others
    ensures Represents(stats, live, others, After(w0, ops))
  {
    hide TotalShare, Share, Views, Changed, Next, Enabled, Balanced;
    live := tables;
    ghost var w := w0;
    for i := 0 to |ops|
      invariant Represents(stats, live, others, w)
      invariant forall j :: 0 <= j < |live| ==> live[j] in tables || fresh(live[j])
      invariant Runs(w, ops[i..]) && After(w, ops[i..]) == After(w0, ops)
    {
      assert ops[i..][0] == ops[i] && ops[i..][1..] == ops[i + 1..];
      live := Step(stats, live, others, ops[i], w);
      w := Next(w, ops[i]);
    }
    assert ops[|ops|..] == [];
  }
}
