/** Shared counters of live entries, and the share of them that one table accounts for. */
module Stats {
  import opened PipeLog
  import opened Tables

  /** The live keys stored in `queue`. */
  ghost function KeysIn(kvs: map<Bytes, Slot>, queue: LogQueue): set<Bytes> {
    set k | k in kvs && kvs[k].id.queue == queue
  }

  ghost function KeyCount(kvs: map<Bytes, Slot>, queue: LogQueue): nat {
    |KeysIn(kvs, queue)|
  }

  /** What a table contributes to the live count of `queue`: its entries and its keys. */
  ghost function Share(t: Table, queue: LogQueue): nat
    requires t.rewriteCount <= |t.entries|
  {
    KeyCount(t.kvs, queue) +
    match queue
    case AppendQueue => |t.entries| - t.rewriteCount
    case RewriteQueue => t.rewriteCount
  }

  class GlobalStats {
    var liveAppend: nat
    var rewriteEntries: nat
    var deletedRewrite: nat

    constructor ()
      ensures liveAppend == 0 && rewriteEntries == 0 && deletedRewrite == 0
    {
      liveAppend, rewriteEntries, deletedRewrite := 0, 0, 0;
    }

    /** Live entries of a queue, as the difference the two rewrite counters encode. */
    ghost function Live(queue: LogQueue): int
      reads this
    {
      match queue
      case AppendQueue => liveAppend
      case RewriteQueue => rewriteEntries - deletedRewrite
    }

    /** The counters include the share of table `t`. */
    ghost predicate Covers(t: Table)
      requires t.rewriteCount <= |t.entries|
      reads this
    {
      Share(t, AppendQueue) <= Live(AppendQueue) && Share(t, RewriteQueue) <= Live(RewriteQueue)
    }

    method Add(queue: LogQueue, count: nat)
      modifies this
      ensures Live(queue) == old(Live(queue)) + count
      ensures queue == AppendQueue ==> rewriteEntries == old(rewriteEntries) && deletedRewrite == old(deletedRewrite)
      ensures queue == RewriteQueue ==> liveAppend == old(liveAppend) && deletedRewrite == old(deletedRewrite)
    {
      match queue
      case AppendQueue => liveAppend := liveAppend + count;
      case RewriteQueue => rewriteEntries := rewriteEntries + count;
    }

    /** The append counter must not wrap below zero. */
    method Delete(queue: LogQueue, count: nat)
      requires queue == AppendQueue ==> count <= liveAppend
      modifies this
      ensures Live(queue) == old(Live(queue)) - count
      ensures queue == AppendQueue ==> rewriteEntries == old(rewriteEntries) && deletedRewrite == old(deletedRewrite)
      ensures queue == RewriteQueue ==> liveAppend == old(liveAppend) && rewriteEntries == old(rewriteEntries)
    {
      match queue
      case AppendQueue => liveAppend := liveAppend - count;
      case RewriteQueue => deletedRewrite := deletedRewrite + count;
    }

    method ResetRewriteCounters()
      requires deletedRewrite <= rewriteEntries
      modifies this
      ensures deletedRewrite == 0 && liveAppend == old(liveAppend)
      ensures Live(RewriteQueue) == old(Live(RewriteQueue))
    {
      var dop := deletedRewrite;
      deletedRewrite := deletedRewrite - dop;
      rewriteEntries := rewriteEntries - dop;
    }

    /** Saturating: a transiently inconsistent pair of rewrite counters reads as zero. */
    method LiveEntries(queue: LogQueue) returns (n: nat)
      ensures n == if Live(queue) >= 0 then Live(queue) else 0
    {
      match queue
      case AppendQueue => n := liveAppend;
      case RewriteQueue => n := if rewriteEntries >= deletedRewrite then rewriteEntries - deletedRewrite else 0;
    }
  }

  // ------------------------------------------------- counting keys per queue

  lemma KeyCountPut(kvs: map<Bytes, Slot>, key: Bytes, s: Slot, queue: LogQueue)
    ensures KeyCount(kvs[key := s], queue) ==
            KeyCount(kvs, queue)
            - (if key in kvs && kvs[key].id.queue == queue then 1 else 0)
            + (if s.id.queue == queue then 1 else 0)
  {
    var before, after := KeysIn(kvs, queue), KeysIn(kvs[key := s], queue);
    if s.id.queue == queue {
      assert after == before + {key};
    } else {
      assert after == before - {key};
    }
  }

  lemma KeyCountPositive(kvs: map<Bytes, Slot>, key: Bytes)
    requires key in kvs
    ensures KeyCount(kvs, kvs[key].id.queue) > 0
  {
    assert key in KeysIn(kvs, kvs[key].id.queue);
  }

  lemma KeyCountDelete(kvs: map<Bytes, Slot>, key: Bytes, queue: LogQueue)
    ensures KeyCount(kvs - {key}, queue) ==
            KeyCount(kvs, queue) - (if key in kvs && kvs[key].id.queue == queue then 1 else 0)
  {
    assert KeysIn(kvs - {key}, queue) == KeysIn(kvs, queue) - {key};
  }

  // ------------------------------------------- many tables behind one counter

  /** Live count of a collection of tables. */
  ghost function TotalShare(ts: seq<Table>, queue: LogQueue): nat
    requires forall k :: 0 <= k < |ts| ==> ts[k].rewriteCount <= |ts[k].entries|
  {
    if |ts| == 0 then 0 else TotalShare(ts[..|ts| - 1], queue) + Share(ts[|ts| - 1], queue)
  }

  /** One table changing its share moves the total by exactly the difference. */
  lemma {:induction false} TotalShareUpdate(ts: seq<Table>, k: nat, t: Table, queue: LogQueue)
    requires forall j :: 0 <= j < |ts| ==> ts[j].rewriteCount <= |ts[j].entries|
    requires k < |ts| && t.rewriteCount <= |t.entries|
    ensures TotalShare(ts[k := t], queue) == TotalShare(ts, queue) - Share(ts[k], queue) + Share(t, queue)
    ensures Share(ts[k], queue) <= TotalShare(ts, queue)
  {
    var n := |ts| - 1;
    if k == n {
      assert ts[k := t][..n] == ts[..n];
    } else {
      assert ts[k := t][..n] == ts[..n][k := t];
      TotalShareUpdate(ts[..n], k, t, queue);
    }
  }
}
