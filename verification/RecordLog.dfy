/**
 One raft group's batches in one queue, as a plain list of records, and what an index
 means in such a list: the last record that starts at or below it decides.
 */
module RecordLog {
  import opened PipeLog
  import opened Tables

  datatype Record = Record(file: FileSeq, es: seq<EntryIndex>)
  {
    predicate WellFormed(queue: LogQueue) {
      |es| > 0 && Consecutive(es) && AllIn(es, FileId(queue, file))
    }

    function First(): nat
      requires |es| > 0
    {
      es[0].index
    }

    function End(): nat
      requires |es| > 0
    {
      es[0].index + |es|
    }
  }

  /** No record is empty, and no record leaves a hole after the one before it. */
  predicate Connected(log: seq<Record>, queue: LogQueue) {
    && (forall k :: 0 <= k < |log| ==> log[k].WellFormed(queue))
    && (forall k :: 0 < k < |log| ==> log[k].First() <= log[k - 1].End())
  }

  /** Files are used in order and up to `active`. */
  predicate InOrder(log: seq<Record>, active: FileSeq) {
    && (forall j, k :: 0 <= j < k < |log| ==> log[j].file <= log[k].file)
    && (forall k :: 0 <= k < |log| ==> log[k].file <= active)
  }

  function End(log: seq<Record>): nat
    requires |log| > 0 && |log[|log| - 1].es| > 0
  {
    log[|log| - 1].End()
  }

  /** The location an index has in the log. */
  function Lookup(log: seq<Record>, i: nat): Option<Location>
    requires forall k :: 0 <= k < |log| ==> |log[k].es| > 0
  {
    if |log| == 0 then None else
    var n := |log| - 1;
    if log[n].First() <= i
    then (if i < log[n].End() then Some(log[n].es[i - log[n].First()].loc) else None)
    else Lookup(log[..n], i)
  }

  /** The records in files that are not purged. */
  function Kept(log: seq<Record>, min: FileSeq): seq<Record> {
    if |log| == 0 then [] else
    var n := |log| - 1;
    Kept(log[..n], min) + if min <= log[n].file then [log[n]] else []
  }

  function ReplayAppends(log: seq<Record>): (t: Table)
    ensures t.rewriteCount == 0
  {
    if |log| == 0 then EmptyTable else Appended(ReplayAppends(log[..|log| - 1]), log[|log| - 1].es)
  }

  function ReplayRewrites(log: seq<Record>): (t: Table)
    ensures t.rewriteCount <= |t.entries|
  {
    if |log| == 0 then EmptyTable else ReplayRewrite(ReplayRewrites(log[..|log| - 1]), log[|log| - 1].es)
  }

  // ------------------------------------------------------------------ lookups

  lemma ConnectedSnoc(log: seq<Record>, r: Record, queue: LogQueue)
    requires Connected(log, queue) && r.WellFormed(queue)
    requires |log| > 0 ==> r.First() <= End(log)
    ensures Connected(log + [r], queue)
  {
  }

  /** One more record: it decides everything from its first index on. */
  lemma LookupSnoc(log: seq<Record>, r: Record, i: nat)
    requires forall k :: 0 <= k < |log| ==> |log[k].es| > 0
    requires |r.es| > 0
    ensures Lookup(log + [r], i) ==
            if i < r.First() then Lookup(log, i)
            else if i < r.End() then Some(r.es[i - r.First()].loc) else None
  {
    assert (log + [r])[..|log|] == log;
  }

  /** A location found in the log sits in a file of the log, below its end. */
  lemma {:induction false} LookupFound(log: seq<Record>, queue: LogQueue, active: FileSeq, i: nat)
    requires Connected(log, queue) && InOrder(log, active) && Lookup(log, i).Some?
    ensures |log| > 0 && i < End(log)
    ensures Lookup(log, i).value.Queue() == queue
    ensures Lookup(log, i).value.Seq() <= log[|log| - 1].file <= active
    decreases |log|
  {
    var n := |log| - 1;
    if i < log[n].First() {
      LookupFound(log[..n], queue, active, i);
    }
  }

  lemma {:induction false} LookupAbove(log: seq<Record>, first: nat, i: nat)
    requires forall k :: 0 <= k < |log| ==> |log[k].es| > 0 && first <= log[k].First()
    requires Lookup(log, i).Some?
    ensures first <= i
    decreases |log|
  {
    var n := |log| - 1;
    if i < log[n].First() {
      LookupAbove(log[..n], first, i);
    }
  }

  /** The last index of a log is always found. */
  lemma LookupLast(log: seq<Record>, queue: LogQueue)
    requires Connected(log, queue) && |log| > 0
    ensures End(log) > 0 && Lookup(log, End(log) - 1).Some?
  {
  }

  /** The newer log decides what it answers. */
  lemma {:induction false} LookupConcat(a: seq<Record>, b: seq<Record>, i: nat)
    requires forall k :: 0 <= k < |a| ==> |a[k].es| > 0
    requires forall k :: 0 <= k < |b| ==> |b[k].es| > 0
    requires Lookup(b, i).Some?
    ensures forall k :: 0 <= k < |a + b| ==> |(a + b)[k].es| > 0
    ensures Lookup(a + b, i) == Lookup(b, i)
    decreases |b|
  {
    var n := |b| - 1;
    assert (a + b)[..|a + b| - 1] == a + b[..n];
    if i < b[n].First() {
      LookupConcat(a, b[..n], i);
    }
  }

  /** Newer records decide larger indexes, so locations are ordered by file. */
  lemma {:induction false} LookupOrdered(log: seq<Record>, queue: LogQueue, active: FileSeq, i: nat, j: nat)
    requires Connected(log, queue) && InOrder(log, active) && i <= j
    requires Lookup(log, i).Some? && Lookup(log, j).Some?
    ensures Lookup(log, i).value.Seq() <= Lookup(log, j).value.Seq()
    decreases |log|
  {
    var n := |log| - 1;
    if j < log[n].First() {
      LookupOrdered(log[..n], queue, active, i, j);
    } else if i < log[n].First() {
      LookupFound(log[..n], queue, active, i);
    }
  }

  // -------------------------------------------------------------------- files

  lemma {:induction false} KeptNone(log: seq<Record>, min: FileSeq)
    requires forall k :: 0 <= k < |log| ==> log[k].file < min
    ensures Kept(log, min) == []
    decreases |log|
  {
    if |log| > 0 {
      KeptNone(log[..|log| - 1], min);
    }
  }

  /** What purging leaves is again a log, with the same last record if it has any. */
  lemma {:induction false} KeptShape(log: seq<Record>, queue: LogQueue, active: FileSeq, min: FileSeq)
    requires Connected(log, queue) && InOrder(log, active)
    ensures Connected(Kept(log, min), queue)
    ensures |Kept(log, min)| > 0 <==> |log| > 0 && min <= log[|log| - 1].file
    ensures |Kept(log, min)| > 0 ==> Kept(log, min)[|Kept(log, min)| - 1] == log[|log| - 1]
    decreases |log|
  {
    hide Kept;
    if |log| == 0 {
      assert Kept(log, min) == [] by { NothingKept(min, 0); }
    } else {
      var n := |log| - 1;
      if log[n].file < min {
        KeptNone(log, min);
      } else {
        KeptShape(log[..n], queue, active, min);
        KeptSnoc(log, min);
        if n > 0 && min <= log[n - 1].file {
          assert log[n].First() <= log[n - 1].End();
        }
      }
    }
  }

  /** Purging loses exactly the locations in purged files. */
  lemma {:induction false} KeptLookup(log: seq<Record>, queue: LogQueue, active: FileSeq, min: FileSeq, i: nat)
    requires Connected(log, queue) && InOrder(log, active)
    requires Connected(Kept(log, min), queue)
    ensures Lookup(Kept(log, min), i) ==
            if Lookup(log, i).Some? && min <= Lookup(log, i).value.Seq() then Lookup(log, i) else None
    decreases |log|
  {
    hide Lookup, Kept;
    if |log| == 0 {
      NothingKept(min, i);
    } else {
      var n := |log| - 1;
      if log[n].file < min {
        KeptNone(log, min);
        NothingKept(min, i);
        if Lookup(log, i).Some? {
          LookupFound(log, queue, active, i);
        }
      } else {
        var older := log[..n];
        KeptShape(older, queue, active, min);
        KeptSnoc(log, min);
        KeptLookup(older, queue, active, min, i);
        LookupBehind(older, Kept(older, min), log[n], queue, min, i);
        assert log == older + [log[n]];
      }
    }
  }

  lemma LookupBehind(older: seq<Record>, kept: seq<Record>, r: Record, queue: LogQueue, min: FileSeq, i: nat)
    requires Connected(older, queue) && Connected(kept, queue) && r.WellFormed(queue) && min <= r.file
    requires Lookup(kept, i) == if Lookup(older, i).Some? && min <= Lookup(older, i).value.Seq() then Lookup(older, i) else None
    ensures forall k :: 0 <= k < |older + [r]| ==> |(older + [r])[k].es| > 0
    ensures forall k :: 0 <= k < |kept + [r]| ==> |(kept + [r])[k].es| > 0
    ensures Lookup(kept + [r], i) ==
            if Lookup(older + [r], i).Some? && min <= Lookup(older + [r], i).value.Seq() then Lookup(older + [r], i) else None
  {
    hide Lookup;
    LookupSnoc(kept, r, i);
    LookupSnoc(older, r, i);
  }

  lemma NothingKept(min: FileSeq, i: nat)
    ensures Kept([], min) == [] && Lookup([], i) == None
  {
  }

  lemma KeptSnoc(log: seq<Record>, min: FileSeq)
    requires |log| > 0 && min <= log[|log| - 1].file
    ensures Kept(log, min) == Kept(log[..|log| - 1], min) + [log[|log| - 1]]
  {
  }

  /** Replaying a log gives a table that answers every index like the log does. */
  lemma {:induction false} ReplayAppendsIsLookup(log: seq<Record>, i: nat)
    requires Connected(log, AppendQueue)
    ensures |log| > 0 ==> |ReplayAppends(log).entries| > 0 && ReplayAppends(log).End() == End(log)
    ensures ReplayAppends(log).Get(i) == Lookup(log, i)
    decreases |log|
  {
    hide Locations;
    if |log| > 0 {
      var n := |log| - 1;
      ReplayAppendsIsLookup(log[..n], i);
      AppendedGet(ReplayAppends(log[..n]), log[n].es, i);
    }
  }

  lemma {:induction false} ReplayRewritesIsLookup(log: seq<Record>, i: nat)
    requires Connected(log, RewriteQueue)
    ensures ReplayRewrites(log).rewriteCount == |ReplayRewrites(log).entries|
    ensures |log| > 0 ==> |ReplayRewrites(log).entries| > 0 && ReplayRewrites(log).End() == End(log)
    ensures ReplayRewrites(log).Get(i) == Lookup(log, i)
    decreases |log|
  {
    hide Locations, PrepareAppend;
    if |log| > 0 {
      var n := |log| - 1;
      ReplayRewritesIsLookup(log[..n], i);
      AppendedGet(ReplayRewrites(log[..n]), log[n].es, i);
    }
  }
}
