/**
 The mutable in-memory index of one raft group.

 Every method is tied to a function of `Tables` by its effect on `View()`. Next to that it
 keeps the books: the shared counters move by exactly as much as the table's own share,
 and the append counter never goes below zero. A panic of the original is a precondition.
 */
module MemTables {
  import opened PipeLog
  import opened Tables
  import opened Stats

  /** Total encoded length of the first `n` entries. */
  function SumLen(ls: seq<Location>, n: nat): nat
    requires n <= |ls|
  {
    if n == 0 then 0 else SumLen(ls, n - 1) + ls[n - 1].entryLen
  }

  datatype FetchResult = Fetched(entries: seq<EntryIndex>) | EntryCompacted | EntryNotFound

  /** The smallest of some numbers and perhaps one more. */
  lemma MinOfUnion(s: set<nat>, more: Option<nat>)
    requires s != {} || more.Some?
    ensures var all := s + (if more.Some? then {more.value} else {});
            && all != {}
            && MinOf(all) == if more.None? then MinOf(s) else if s == {} then more.value else Min(MinOf(s), more.value)
  {
    var all := s + (if more.Some? then {more.value} else {});
    if more.Some? {
      assert more.value in all;
    } else {
      assert all == s;
    }
  }

  /** Overwrites the locations from `pos` on, up to the first entry that must stay. */
  method ReplaceLocations(ghost t: Table, ls: seq<Location>, rw: seq<EntryIndex>, gate: Option<FileSeq>,
                          pos: nat, rewritePos: nat, len: nat)
    returns (out: seq<Location>, replaced: nat)
    requires ls == t.entries && t.rewriteCount <= |ls| && Consecutive(rw) && |rw| > 0
    requires CanRewrite(t, rw, gate) && len > 0
    requires t.first + pos == RewriteLo(t, rw) == rw[0].index + rewritePos
    requires t.first + pos + len == RewriteHi(t, rw)
    ensures out == Rewritten(t, rw, gate).entries
    ensures t.first + pos + replaced == RewriteStop(t, RewriteLo(t, rw), RewriteHi(t, rw), gate)
  {
    hide RewriteStop;
    ghost var lo, hi := t.first + pos, t.first + pos + len;
    ghost var stop := RewriteStop(t, lo, hi, gate);
    RewriteStopIsFirst(t, lo, hi, gate);
    out, replaced := ls, len;
    var i := 0;
    while i < replaced
      invariant 0 <= i <= len == replaced && lo + i <= stop
      invariant |out| == |ls|
      invariant forall k :: 0 <= k < |ls| ==>
                  out[k] == if pos <= k < pos + i then rw[rewritePos + k - pos].loc else ls[k]
    {
      var index := out[i + pos];
      assert index == t.At(lo + i);
      if gate.Some? {
        assert index.Queue() == AppendQueue;
        if index.Seq() > gate.value {
          // Overwritten by newer appends.
          replaced := i;
          break;
        }
      } else if index.Queue() == AppendQueue {
        // A squeeze meets a new append.
        replaced := i;
        break;
      }
      out := out[i + pos := rw[rewritePos + i].loc];
      i := i + 1;
    }
    assert lo + replaced == stop;
    RewrittenEntriesAre(t, rw, gate, out);
  }

  /** The first entries, as many as fit in `maxSize`, but at least one with content. */
  method TakeWithin(ls: seq<Location>, begin: nat, maxSize: Option<nat>) returns (out: seq<EntryIndex>)
    requires |ls| > 0
    ensures 0 < |out| <= |ls| && forall k :: 0 <= k < |out| ==> out[k] == EntryIndex(begin + k, ls[k])
    ensures maxSize.None? ==> |out| == |ls|
    ensures maxSize.Some? ==>
              && (|out| < |ls| ==> SumLen(ls, |out| + 1) > maxSize.value)
              && (SumLen(ls, |out|) > maxSize.value ==> SumLen(ls, |out| - 1) == 0)
  {
    out := [];
    var totalSize := 0;
    var i := 0;
    while i < |ls|
      invariant 0 <= i <= |ls| && |out| == i
      invariant totalSize == SumLen(ls, i)
      invariant forall k :: 0 <= k < i ==> out[k] == EntryIndex(begin + k, ls[k])
      invariant maxSize.Some? && i > 0 && SumLen(ls, i) > maxSize.value ==> SumLen(ls, i - 1) == 0
    {
      var idx := ls[i];
      totalSize := totalSize + idx.entryLen;
      if maxSize.Some? {
        if totalSize > maxSize.value && totalSize > idx.entryLen {
          break;
        }
      }
      out := out + [EntryIndex(begin + i, idx)];
      i := i + 1;
    }
  }

  /** Entries that become rewritten change queue; nothing else does. */
  lemma RewrittenShare(t: Table, rw: seq<EntryIndex>, gate: Option<FileSeq>)
    requires t.rewriteCount <= |t.entries| && Consecutive(rw)
    ensures var r := Rewritten(t, rw, gate);
            && Share(r, RewriteQueue) - Share(t, RewriteQueue) == r.rewriteCount - t.rewriteCount
            && Share(t, AppendQueue) - Share(r, AppendQueue) == r.rewriteCount - t.rewriteCount
  {
    hide Rewritten;
  }

  lemma RewrittenCount(t: Table, rw: seq<EntryIndex>, gate: Option<FileSeq>)
    requires t.rewriteCount <= |t.entries| && Consecutive(rw)
    ensures |rw| == 0 || RewriteHi(t, rw) <= RewriteLo(t, rw) ==> Rewritten(t, rw, gate) == t
    ensures |rw| > 0 && RewriteLo(t, rw) < RewriteHi(t, rw) ==>
              var stop := RewriteStop(t, RewriteLo(t, rw), RewriteHi(t, rw), gate);
              Rewritten(t, rw, gate).rewriteCount == if gate.None? then Max(t.rewriteCount, stop - t.first) else stop - t.first
  {
    hide RewriteStop;
  }

  lemma StaysRewritten(t: Table, index: nat)
    requires t.rewriteCount <= |t.entries|
    ensures t.rewriteCount == |t.entries| ==>
              Tables.PrepareAppend(t, index).rewriteCount == |Tables.PrepareAppend(t, index).entries|
  {
  }

  /** The share of a table that takes the entries of another one. */
  lemma TakenShare(p: Table, r: Table)
    requires p.rewriteCount <= |p.entries| && r.rewriteCount <= |r.entries|
    ensures var t := p.(entries := p.entries + r.entries, rewriteCount := p.rewriteCount + r.rewriteCount);
            && Share(t, RewriteQueue) == Share(p, RewriteQueue) + r.rewriteCount
            && Share(t, AppendQueue) == Share(p, AppendQueue) + |r.entries| - r.rewriteCount
  {
  }

  class MemTable {
    const region: nat
    const stats: GlobalStats
    var firstIndex: nat
    var entryIndexes: seq<Location>
    var rewriteCount: nat
    var kvs: map<Bytes, Slot>
    var atomicGroup: Option<(FileSeq, FileSeq)>

    ghost function View(): Table
      reads this
    {
      Table(firstIndex, entryIndexes, rewriteCount, kvs, atomicGroup)
    }

    /** The deque is partitioned and the shared counters include this table. */
    ghost predicate Valid()
      reads this, stats
    {
      View().Valid() && stats.Covers(View())
    }

    /** The counters moved by exactly as much as this table's share. */
    twostate predicate Conserved()
      requires old(View().rewriteCount <= |View().entries|)
      requires View().rewriteCount <= |View().entries|
      reads this, stats
    {
      && stats.Live(AppendQueue) - Share(View(), AppendQueue) == old(stats.Live(AppendQueue) - Share(View(), AppendQueue))
      && stats.Live(RewriteQueue) - Share(View(), RewriteQueue) == old(stats.Live(RewriteQueue) - Share(View(), RewriteQueue))
    }

    constructor (region: nat, stats: GlobalStats)
      requires stats.deletedRewrite <= stats.rewriteEntries
      ensures Valid() && View() == EmptyTable && this.stats == stats && this.region == region
    {
      this.region, this.stats := region, stats;
      firstIndex, entryIndexes, rewriteCount, kvs, atomicGroup := 0, [], 0, map[], None;
    }

    // ------------------------------------------------------------ appending

    /** Removes every entry at or after `index`. */
    method UnsafeTruncateBack(first: nat, index: nat, last: nat) returns (truncated: nat)
      requires Valid() && |entryIndexes| > 0
      requires first == firstIndex && last == firstIndex + |entryIndexes| - 1 && index <= last
      modifies this`entryIndexes, this`rewriteCount, stats
      ensures Valid() && Conserved()
      ensures entryIndexes == old(entryIndexes)[..if index <= first then 0 else index - first]
      ensures rewriteCount == Min(old(rewriteCount), |entryIndexes|)
      ensures truncated == old(|entryIndexes|) - |entryIndexes|
      ensures stats.rewriteEntries == old(stats.rewriteEntries)
    {
      var len := |entryIndexes|;
      entryIndexes := entryIndexes[..if index <= first then 0 else index - first];
      var newLen := |entryIndexes|;
      truncated := len - newLen;
      if rewriteCount > newLen {
        var truncatedRewrite := rewriteCount - newLen;
        rewriteCount := newLen;
        stats.Delete(RewriteQueue, truncatedRewrite);
        stats.Delete(AppendQueue, truncated - truncatedRewrite);
      } else {
        stats.Delete(AppendQueue, truncated);
      }
    }

    method PrepareAppend(firstIndexToAdd: nat, allowHole: bool, allowOverwriteCompacted: bool)
      requires Valid() && Accepts(View(), firstIndexToAdd, allowHole, allowOverwriteCompacted)
      modifies this`firstIndex, this`entryIndexes, this`rewriteCount, stats
      ensures Valid() && Conserved()
      ensures View() == Tables.PrepareAppend(old(View()), firstIndexToAdd)
      ensures stats.rewriteEntries == old(stats.rewriteEntries)
    {
      if |entryIndexes| > 0 {
        var first, last := firstIndex, firstIndex + |entryIndexes| - 1;
        if firstIndexToAdd < first {
          var _ := UnsafeTruncateBack(first, 0, last);
          firstIndex := firstIndexToAdd;
        } else if last + 1 < firstIndexToAdd {
          var _ := UnsafeTruncateBack(first, 0, last);
          firstIndex := firstIndexToAdd;
        } else if firstIndexToAdd != last + 1 {
          var _ := UnsafeTruncateBack(first, firstIndexToAdd, last);
        }
      } else {
        firstIndex := firstIndexToAdd;
      }
    }

    /** Appends from the append queue. Holes and overwritten compacted slots panic. */
    method Append(es: seq<EntryIndex>)
      requires Valid() && Consecutive(es)
      requires forall k :: 0 <= k < |es| ==> es[k].loc.Queue() == AppendQueue
      requires |es| > 0 ==> Accepts(View(), es[0].index, false, false)
      modifies this`firstIndex, this`entryIndexes, this`rewriteCount, stats
      ensures Valid() && Conserved()
      ensures View() == Appended(old(View()), es)
      ensures stats.rewriteEntries == old(stats.rewriteEntries)
    {
      PushBack(es, false);
    }

    /** Like `Append`, for recovery: overwriting compacted slots is allowed. */
    method ReplayAppend(es: seq<EntryIndex>)
      requires Valid() && Consecutive(es) && rewriteCount == 0
      requires forall k :: 0 <= k < |es| ==> es[k].loc.Queue() == AppendQueue
      requires |es| > 0 ==> Accepts(View(), es[0].index, false, true)
      modifies this`firstIndex, this`entryIndexes, this`rewriteCount, stats
      ensures Valid() && Conserved() && rewriteCount == 0
      ensures View() == Appended(old(View()), es)
      ensures stats.rewriteEntries == old(stats.rewriteEntries)
    {
      PushBack(es, true);
    }

    method PushBack(es: seq<EntryIndex>, allowOverwrite: bool)
      requires Valid() && Consecutive(es)
      requires forall k :: 0 <= k < |es| ==> es[k].loc.Queue() == AppendQueue
      requires |es| > 0 ==> Accepts(View(), es[0].index, false, allowOverwrite)
      modifies this`firstIndex, this`entryIndexes, this`rewriteCount, stats
      ensures Valid() && Conserved()
      ensures View() == Appended(old(View()), es)
      ensures stats.rewriteEntries == old(stats.rewriteEntries)
    {
      var len := |es|;
      if len > 0 {
        PrepareAppend(es[0].index, false, allowOverwrite);
        label prepared:
        stats.Add(AppendQueue, len);
        for i := 0 to len
          modifies this`entryIndexes
          invariant entryIndexes == old@prepared(entryIndexes) + Locations(es)[..i]
        {
          entryIndexes := entryIndexes + [es[i].loc];
        }
      }
    }

    /** Appends from the rewrite queue during recovery: holes are allowed as well. */
    method ReplayRewrite(es: seq<EntryIndex>)
      requires Valid() && Consecutive(es) && AllRewrite(es) && rewriteCount == |entryIndexes|
      modifies this`firstIndex, this`entryIndexes, this`rewriteCount, stats
      ensures Valid() && Conserved() && rewriteCount == |entryIndexes|
      ensures View() == Tables.ReplayRewrite(old(View()), es)
      ensures stats.rewriteEntries == old(stats.rewriteEntries) + |es|
    {
      var len := |es|;
      if len > 0 {
        PrepareAppend(es[0].index, true, true);
        label prepared:
        stats.Add(RewriteQueue, len);
        for i := 0 to len
          modifies this`entryIndexes
          invariant entryIndexes == old@prepared(entryIndexes) + Locations(es)[..i]
        {
          entryIndexes := entryIndexes + [es[i].loc];
        }
        rewriteCount := |entryIndexes|;
      }
    }

    /** Removes the entries below `index` and returns how many there were. */
    method CompactTo(index: nat) returns (removed: nat)
      requires Valid()
      modifies this`firstIndex, this`entryIndexes, this`rewriteCount, stats
      ensures Valid() && Conserved()
      ensures View() == Tables.CompactTo(old(View()), index)
      ensures removed == old(|entryIndexes|) - |entryIndexes|
      ensures stats.rewriteEntries == old(stats.rewriteEntries)
    {
      if |entryIndexes| == 0 {
        return 0;
      }
      var first := firstIndex;
      if index <= first {
        return 0;
      }
      var count := Min(index - first, |entryIndexes|);
      firstIndex := index;
      entryIndexes := entryIndexes[count..];
      var compactedRewrite := Min(count, rewriteCount);
      rewriteCount := rewriteCount - compactedRewrite;
      stats.Delete(RewriteQueue, compactedRewrite);
      stats.Delete(AppendQueue, count - compactedRewrite);
      removed := count;
    }

    // ------------------------------------------------------------ rewriting

    method Rewrite(rw: seq<EntryIndex>, gate: Option<FileSeq>)
      requires Valid() && Consecutive(rw) && AllRewrite(rw)
      requires CanRewrite(View(), rw, gate)
      modifies this`entryIndexes, this`rewriteCount, stats
      ensures Valid() && Conserved()
      ensures View() == Rewritten(old(View()), rw, gate)
      ensures stats.rewriteEntries == old(stats.rewriteEntries) + |rw|
    {
      hide CanRewrite, RewriteStop, Share;
      if |rw| == 0 {
        return;
      }
      var len := |entryIndexes|;
      if len == 0 {
        stats.Add(RewriteQueue, |rw|);
        stats.Delete(RewriteQueue, |rw|);
        return;
      }
      var first, last := firstIndex, firstIndex + len - 1;
      var rewriteFirst := Max(rw[0].index, first);
      var rewriteLast := Min(rw[|rw| - 1].index, last);
      var rewriteLen := if rewriteFirst <= rewriteLast + 1 then rewriteLast + 1 - rewriteFirst else 0;
      if rewriteLen == 0 {
        stats.Add(RewriteQueue, |rw|);
        stats.Delete(RewriteQueue, |rw|);
        return;
      }
      RewriteRange(rw, gate, rewriteFirst, rewriteLen);
    }

    /** Rewrites the part of the deque that `rw` meets. */
    method RewriteRange(rw: seq<EntryIndex>, gate: Option<FileSeq>, rewriteFirst: nat, foundLen: nat)
      requires Valid() && Consecutive(rw) && AllRewrite(rw) && |rw| > 0
      requires CanRewrite(View(), rw, gate)
      requires rewriteFirst == RewriteLo(View(), rw) < RewriteHi(View(), rw) == rewriteFirst + foundLen
      modifies this`entryIndexes, this`rewriteCount, stats
      ensures Valid() && Conserved()
      ensures View() == Rewritten(old(View()), rw, gate)
      ensures stats.rewriteEntries == old(stats.rewriteEntries) + |rw|
    {
      hide RewriteStop, CanRewrite, Share, Rewritten, AllRewrite;
      ghost var t, r := View(), Rewritten(View(), rw, gate);
      RewrittenMoves(t, rw, gate);
      RewrittenShare(t, rw, gate);
      RewrittenCount(t, rw, gate);
      stats.Add(RewriteQueue, |rw|);
      var pos := rewriteFirst - firstIndex;
      var rewriteLen;
      entryIndexes, rewriteLen :=
        ReplaceLocations(t, entryIndexes, rw, gate, pos, rewriteFirst - rw[0].index, foundLen);
      if gate.None? {
        stats.Delete(RewriteQueue, |rw|);
        rewriteCount := Max(rewriteCount, pos + rewriteLen);
      } else {
        stats.Delete(AppendQueue, rewriteLen);
        stats.Delete(RewriteQueue, |rw| - rewriteLen);
        assert pos + rewriteLen >= rewriteCount;
        rewriteCount := pos + rewriteLen;
      }
      assert View() == r;
    }

    // ------------------------------------------------------------ key values

    method Get(key: Bytes) returns (v: Option<Bytes>)
      ensures v == if key in kvs then Some(kvs[key].value) else None
    {
      v := if key in kvs then Some(kvs[key].value) else None;
    }

    method Put(key: Bytes, value: Bytes, id: FileId)
      requires Valid()
      modifies this`kvs, stats
      ensures Valid() && Conserved()
      ensures View() == Tables.Put(old(View()), key, value, id)
      ensures stats.rewriteEntries == old(stats.rewriteEntries) + (if id.queue == RewriteQueue then 1 else 0)
    {
      KeyCountPut(kvs, key, Slot(value, id), AppendQueue);
      KeyCountPut(kvs, key, Slot(value, id), RewriteQueue);
      if key in kvs {
        var origin := kvs[key];
        KeyCountPositive(kvs, key);
        kvs := kvs[key := Slot(value, id)];
        stats.Delete(origin.id.queue, 1);
      } else {
        kvs := kvs[key := Slot(value, id)];
      }
      stats.Add(id.queue, 1);
    }

    method Delete(key: Bytes)
      requires Valid()
      modifies this`kvs, stats
      ensures Valid() && Conserved()
      ensures View() == Tables.Delete(old(View()), key)
      ensures stats.rewriteEntries == old(stats.rewriteEntries)
    {
      KeyCountDelete(kvs, key, AppendQueue);
      KeyCountDelete(kvs, key, RewriteQueue);
      if key in kvs {
        var value := kvs[key];
        KeyCountPositive(kvs, key);
        kvs := kvs - {key};
        stats.Delete(value.id.queue, 1);
      } else {
        assert kvs - {key} == kvs;
      }
    }

    /** Points a key at rewrite file `seqno`, unless a newer append holds it. */
    method RewriteKey(key: Bytes, gate: Option<FileSeq>, seqno: FileSeq)
      requires Valid()
      requires key in kvs && kvs[key].id.queue == RewriteQueue ==> kvs[key].id.seqno <= seqno
      modifies this`kvs, stats
      ensures Valid() && Conserved()
      ensures View() == RewrittenKey(old(View()), key, gate, seqno)
      ensures stats.rewriteEntries == old(stats.rewriteEntries) + 1
    {
      stats.Add(RewriteQueue, 1);
      if key in kvs {
        var origin := kvs[key];
        ghost var moved := Slot(origin.value, RewrittenKeyFile(origin.id, gate, seqno));
        KeyCountPut(kvs, key, moved, AppendQueue);
        KeyCountPut(kvs, key, moved, RewriteQueue);
        KeyCountPositive(kvs, key);
        assert kvs[key := origin] == kvs;
        if origin.id.queue == AppendQueue {
          if gate.Some? {
            if origin.id.seqno <= gate.value {
              kvs := kvs[key := origin.(id := FileId(RewriteQueue, seqno))];
              stats.Delete(AppendQueue, 1);
              return;
            }
          }
        } else {
          kvs := kvs[key := origin.(id := origin.id.(seqno := seqno))];
        }
      }
      stats.Delete(RewriteQueue, 1);
    }

    // --------------------------------------------------------------- reading

    method GetEntry(index: nat) returns (e: Option<EntryIndex>)
      ensures e == match View().Get(index) case Some(l) => Some(EntryIndex(index, l)) case None => None
    {
      if |entryIndexes| > 0 {
        var first, last := firstIndex, firstIndex + |entryIndexes| - 1;
        if index < first || index > last {
          return None;
        }
        e := Some(EntryIndex(index, entryIndexes[index - first]));
      } else {
        e := None;
      }
    }

    /** Fetches `[begin, end)`, or the longest non-empty prefix that fits in `maxSize`. */
    method FetchEntriesTo(begin: nat, end: nat, maxSize: Option<nat>) returns (r: FetchResult)
      ensures end <= begin ==> r == Fetched([])
      ensures begin < end ==> (r == EntryNotFound <==> |entryIndexes| == 0 || (firstIndex <= begin && firstIndex + |entryIndexes| < end))
      ensures begin < end ==> (r == EntryCompacted <==> |entryIndexes| > 0 && begin < firstIndex)
      ensures r.Fetched? && begin < end ==>
                && 0 < |r.entries| <= end - begin
                && (forall k :: 0 <= k < |r.entries| ==>
                      View().Get(begin + k) == Some(r.entries[k].loc) && r.entries[k].index == begin + k)
                && (maxSize.None? ==> |r.entries| == end - begin)
                && (maxSize.Some? ==>
                      var ls := entryIndexes[begin - firstIndex..end - firstIndex];
                      && (|r.entries| < end - begin ==> SumLen(ls, |r.entries| + 1) > maxSize.value)
                      && (SumLen(ls, |r.entries|) > maxSize.value ==> SumLen(ls, |r.entries| - 1) == 0))
    {
      if end <= begin {
        return Fetched([]);
      }
      var len := |entryIndexes|;
      if len == 0 {
        return EntryNotFound;
      }
      var first := firstIndex;
      if begin < first {
        return EntryCompacted;
      }
      if end > firstIndex + len {
        return EntryNotFound;
      }
      var startPos := begin - first;
      var ls := entryIndexes[startPos..startPos + (end - begin)];
      var out := TakeWithin(ls, begin, maxSize);
      r := Fetched(out);
    }

    /** Every appended entry no newer than `gate`, up to the first newer one. */
    method FetchEntryIndexesBefore(gate: FileSeq) returns (out: seq<EntryIndex>)
      requires Valid()
      ensures out == FetchedBefore(View(), gate)
    {
      out := [];
      if |entryIndexes| > 0 {
        var first, last := firstIndex, firstIndex + |entryIndexes| - 1;
        var i := rewriteCount;
        while first + i <= last && entryIndexes[i].Seq() <= gate
          invariant rewriteCount <= i <= |entryIndexes|
          invariant out + FetchedFrom(View(), i, gate) == FetchedBefore(View(), gate)
        {
          out := out + [EntryIndex(first + i, entryIndexes[i])];
          i := i + 1;
        }
      }
    }

    /** Every rewritten entry. */
    method FetchRewrittenEntryIndexes() returns (out: seq<EntryIndex>)
      requires Valid()
      ensures out == FetchedRewritten(View())
    {
      if rewriteCount > 0 {
        var r := FetchEntriesTo(firstIndex, firstIndex + rewriteCount, None);
        out := r.entries;
        assert out == FetchedRewritten(View());
      } else {
        out := [];
      }
    }

    /** Every appended key no newer than `gate`, once each. */
    method FetchKvsBefore(gate: FileSeq) returns (out: seq<(Bytes, Bytes)>)
      ensures forall k, v :: (k, v) in out <==>
                k in kvs && kvs[k].value == v && kvs[k].id.queue == AppendQueue && kvs[k].id.seqno <= gate
      ensures forall i, j :: 0 <= i < j < |out| ==> out[i].0 != out[j].0
    {
      out := FetchKvs((s: Slot) => s.id.queue == AppendQueue && s.id.seqno <= gate);
    }

    method FetchRewrittenKvs() returns (out: seq<(Bytes, Bytes)>)
      ensures forall k, v :: (k, v) in out <==>
                k in kvs && kvs[k].value == v && kvs[k].id.queue == RewriteQueue
      ensures forall i, j :: 0 <= i < j < |out| ==> out[i].0 != out[j].0
    {
      out := FetchKvs((s: Slot) => s.id.queue == RewriteQueue);
    }

    method FetchKvs(wanted: Slot -> bool) returns (out: seq<(Bytes, Bytes)>)
      ensures forall k, v :: (k, v) in out <==> k in kvs && kvs[k].value == v && wanted(kvs[k])
      ensures forall i, j :: 0 <= i < j < |out| ==> out[i].0 != out[j].0
    {
      out := [];
      var keys := kvs.Keys;
      while keys != {}
        invariant keys <= kvs.Keys
        invariant forall k, v :: (k, v) in out <==> k in kvs && k !in keys && kvs[k].value == v && wanted(kvs[k])
        invariant forall i, j :: 0 <= i < j < |out| ==> out[i].0 != out[j].0
        decreases keys
      {
        var k :| k in keys;
        keys := keys - {k};
        if wanted(kvs[k]) {
          forall i | 0 <= i < |out| ensures out[i].0 != k {
            assert (out[i].0, out[i].1) in out;
          }
          out := out + [(k, kvs[k].value)];
        }
      }
    }

    /** The oldest file of `queue` this table may need. */
    method MinFileSeq(queue: LogQueue) returns (r: Option<FileSeq>)
      requires Valid()
      ensures r == Tables.MinFileSeq(View(), queue)
    {
      var entsMin := None;
      match queue {
        case AppendQueue =>
          if rewriteCount < |entryIndexes| { entsMin := Some(entryIndexes[rewriteCount].Seq()); }
        case RewriteQueue =>
          if rewriteCount > 0 { entsMin := Some(entryIndexes[0].Seq()); }
      }
      var kvsMin := MinKeySeq(queue);
      hide KeySeqs;
      assert FrontSeqs(View(), queue) == KeySeqs(kvs, queue) + (if entsMin.Some? then {entsMin.value} else {});
      if entsMin.None? && kvsMin.None? {
        return None;
      }
      var res := if entsMin.None? then kvsMin.value
                 else if kvsMin.None? then entsMin.value else Min(kvsMin.value, entsMin.value);
      MinOfUnion(KeySeqs(kvs, queue), entsMin);
      if queue == RewriteQueue && atomicGroup.Some? {
        var (start, end) := atomicGroup.value;
        if res <= end {
          return Some(Min(start, res));
        }
      }
      r := Some(res);
    }

    method MinKeySeq(queue: LogQueue) returns (min: Option<FileSeq>)
      ensures min.None? <==> KeySeqs(kvs, queue) == {}
      ensures min.Some? ==> min.value == MinOf(KeySeqs(kvs, queue))
    {
      min := None;
      var keys := kvs.Keys;
      while keys != {}
        invariant keys <= kvs.Keys
        invariant min.None? ==> forall k :: k in kvs && k !in keys ==> kvs[k].id.queue != queue
        invariant min.Some? ==> min.value in KeySeqs(kvs, queue)
        invariant min.Some? ==>
                    forall k :: k in kvs && k !in keys && kvs[k].id.queue == queue ==> min.value <= kvs[k].id.seqno
        decreases keys
      {
        var k :| k in keys;
        keys := keys - {k};
        if kvs[k].id.queue == queue {
          assert kvs[k].id.seqno in KeySeqs(kvs, queue);
          min := Some(if min.Some? then Min(min.value, kvs[k].id.seqno) else kvs[k].id.seqno);
        }
      }
    }

    // --------------------------------------------------------------- merging

    method ApplyRewriteAtomicGroup(start: FileSeq, end: FileSeq)
      requires Valid()
      requires atomicGroup.Some? ==> atomicGroup.value.1 <= start
      modifies this`atomicGroup
      ensures Valid() && View() == old(View()).(group := Some((start, end)))
    {
      atomicGroup := Some((start, end));
    }

    /** Puts every pair of `other` into this table. */
    method PutAll(other: map<Bytes, Slot>)
      requires Valid()
      modifies this`kvs, stats
      ensures Valid() && Conserved()
      ensures kvs == old(kvs) + other
    {
      var keys := other.Keys;
      while keys != {}
        invariant keys <= other.Keys
        invariant kvs.Keys == old(kvs).Keys + (other.Keys - keys)
        invariant forall k :: k in kvs ==> kvs[k] == if k in other && k !in keys then other[k] else old(kvs)[k]
        invariant Valid() && Conserved()
        decreases keys
      {
        var k :| k in keys;
        keys := keys - {k};
        Put(k, other[k].value, other[k].id);
      }
    }

    /** Moves the entries of `rhs` behind the entries of this table. */
    method TakeEntries(rhs: MemTable, allowHole: bool)
      requires Valid() && rhs.View().Valid() && rhs != this && rhs.stats != stats
      requires rhs.rewriteCount == 0 || (rhs.rewriteCount == |rhs.entryIndexes| && rewriteCount == |entryIndexes|)
      requires |rhs.entryIndexes| > 0 ==> Accepts(View(), rhs.firstIndex, allowHole, true)
      modifies this`firstIndex, this`entryIndexes, this`rewriteCount, stats, rhs`entryIndexes, rhs`rewriteCount
      ensures Valid() && Conserved()
      ensures View() == Tables.MergeNewerNeighbor(old(View()), old(rhs.View())).(kvs := kvs, group := atomicGroup)
      ensures rhs.entryIndexes == [] && rhs.rewriteCount == 0
    {
      hide Share, Accepts, Tables.PrepareAppend;
      if |rhs.entryIndexes| > 0 {
        PrepareAppend(rhs.firstIndex, allowHole, true);
        StaysRewritten(old(View()), rhs.firstIndex);
        TakenShare(View(), rhs.View());
        stats.Add(rhs.entryIndexes[0].Queue(), |rhs.entryIndexes|);
        rewriteCount := rewriteCount + rhs.rewriteCount;
        entryIndexes := entryIndexes + rhs.entryIndexes;
        rhs.entryIndexes := [];
        rhs.rewriteCount := 0;
      }
    }

    /**
     Appends a newer neighbour recovered from the same queue. The right table keeps its
     own, separate counters and gives up its entries.
     */
    method MergeNewerNeighbor(rhs: MemTable)
      requires Valid() && rhs.View().Valid() && rhs != this && rhs.stats != stats
      requires rhs.rewriteCount == 0 || (rhs.rewriteCount == |rhs.entryIndexes| && rewriteCount == |entryIndexes|)
      requires |rhs.entryIndexes| > 0 ==> Accepts(View(), rhs.firstIndex, rhs.rewriteCount > 0, true)
      requires atomicGroup.Some? && rhs.atomicGroup.Some? ==> atomicGroup.value.1 <= rhs.atomicGroup.value.0
      modifies this, stats, rhs
      ensures Valid() && Conserved()
      ensures View() == Tables.MergeNewerNeighbor(old(View()), old(rhs.View()))
      ensures rhs.View() == old(rhs.View()).(entries := [], rewriteCount := 0, group := None)
    {
      TakeEntries(rhs, rhs.rewriteCount > 0);
      PutAll(rhs.kvs);
      if rhs.atomicGroup.Some? {
        atomicGroup := rhs.atomicGroup;
        rhs.atomicGroup := None;
      }
      var deleted := rhs.stats.deletedRewrite;
      stats.Add(RewriteQueue, deleted);
      stats.Delete(RewriteQueue, deleted);
    }

    /** Overlays the append data `rhs` on this table, which holds all rewritten data. */
    method MergeAppendTable(rhs: MemTable)
      requires Valid() && rhs.View().Valid() && rhs != this && rhs.stats != stats
      requires rewriteCount == |entryIndexes| && rhs.rewriteCount == 0 && rhs.atomicGroup.None?
      modifies this, stats, rhs
      ensures Valid() && Conserved()
      ensures View() == Tables.MergeAppendTable(old(View()), old(rhs.View()))
      ensures rhs.View() == old(rhs.View()).(entries := [])
    {
      TakeEntries(rhs, true);
      PutAll(rhs.kvs);
      var deleted := rhs.stats.deletedRewrite;
      stats.Add(RewriteQueue, deleted);
      stats.Delete(RewriteQueue, deleted);
    }

    method CountKeys() returns (appendKvs: nat, rewriteKvs: nat)
      ensures appendKvs == KeyCount(kvs, AppendQueue) && rewriteKvs == KeyCount(kvs, RewriteQueue)
    {
      appendKvs, rewriteKvs := 0, 0;
      var keys := kvs.Keys;
      ghost var app: set<Bytes>, rew: set<Bytes> := {}, {};
      while keys != {}
        invariant keys <= kvs.Keys
        invariant appendKvs == |app| && rewriteKvs == |rew|
        invariant forall k :: k in app <==> k in kvs && k !in keys && kvs[k].id.queue == AppendQueue
        invariant forall k :: k in rew <==> k in kvs && k !in keys && kvs[k].id.queue == RewriteQueue
        decreases keys
      {
        var k :| k in keys;
        match kvs[k].id.queue {
          case AppendQueue => appendKvs, app := appendKvs + 1, app + {k};
          case RewriteQueue => rewriteKvs, rew := rewriteKvs + 1, rew + {k};
        }
        keys := keys - {k};
      }
      assert app == KeysIn(kvs, AppendQueue) && rew == KeysIn(kvs, RewriteQueue);
    }

    /** Dropping a table takes its whole share out of the counters. */
    method Drop()
      requires Valid()
      modifies stats
      ensures stats.Live(AppendQueue) == old(stats.Live(AppendQueue)) - Share(View(), AppendQueue)
      ensures stats.Live(RewriteQueue) == old(stats.Live(RewriteQueue)) - Share(View(), RewriteQueue)
      ensures stats.rewriteEntries == old(stats.rewriteEntries)
    {
      var appendKvs, rewriteKvs := CountKeys();
      stats.Delete(RewriteQueue, rewriteCount + rewriteKvs);
      stats.Delete(AppendQueue, |entryIndexes| - rewriteCount + appendKvs);
    }
  }
}
