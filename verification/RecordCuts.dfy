/**
 One region's records of one queue, cut into pieces that are replayed apart and merged. Without
 holes the pieces come together as if the records had been replayed in order. With holes, which
 only the rewrite queue allows, they need not: here is exactly when they do.
 */
module RecordCuts {
  import opened PipeLog
  import opened Tables
  import opened RecordLog

  predicate NonEmpty(log: seq<Record>) {
    forall k :: 0 <= k < |log| ==> |log[k].es| > 0
  }

  /** Everything in the table counts as rewritten. */
  function AllRewritten(t: Table): Table { t.(rewriteCount := |t.entries|) }

  function ReplayIn(queue: LogQueue, log: seq<Record>): (t: Table)
    ensures t.rewriteCount <= |t.entries|
  {
    match queue
    case AppendQueue => ReplayAppends(log)
    case RewriteQueue => ReplayRewrites(log)
  }

  /** Replay of the two queues differs only in what counts as rewritten. */
  lemma {:induction false} RewritesAreAppends(log: seq<Record>)
    ensures ReplayRewrites(log) == AllRewritten(ReplayAppends(log))
    decreases |log|
  {
    hide Locations;
    if |log| > 0 {
      RewritesAreAppends(log[..|log| - 1]);
    }
  }

  lemma MergeAllRewritten(l: Table, r: Table)
    requires l.rewriteCount == 0 && r.rewriteCount == 0
    ensures MergeNewerNeighbor(AllRewritten(l), AllRewritten(r)) == AllRewritten(MergeNewerNeighbor(l, r))
  {
  }

  // ------------------------------------------------------------------- two pieces

  /** Some record of `b` starts behind the end of the one before it, the last of `a` included. */
  predicate Hole(a: seq<Record>, b: seq<Record>)
    requires NonEmpty(a) && NonEmpty(b)
  {
    || (|a| > 0 && |b| > 0 && End(a) < b[0].First())
    || exists k :: 0 < k < |b| && b[k - 1].End() < b[k].First()
  }

  /** Where a replayed piece ends. */
  lemma {:induction false} ReplayEnds(log: seq<Record>)
    requires NonEmpty(log)
    ensures ReplayAppends(log).kvs == map[] && ReplayAppends(log).group == None
    ensures |ReplayAppends(log).entries| > 0 <==> |log| > 0
    ensures |log| > 0 ==> ReplayAppends(log).End() == End(log)
    decreases |log|
  {
    if |log| > 0 {
      ReplayEnds(log[..|log| - 1]);
    }
  }

  lemma ReplaySnoc(log: seq<Record>, r: Record)
    ensures ReplayAppends(log + [r]) == Appended(ReplayAppends(log), r.es)
  {
    assert (log + [r])[..|log|] == log;
  }

  /** Without a hole inside it, a piece only grows to the front. */
  lemma {:induction false} FirstOnlyDrops(b: seq<Record>)
    requires NonEmpty(b) && |b| > 0 && !Hole([], b)
    ensures ReplayAppends(b).first <= b[0].First()
    decreases |b|
  {
    var n := |b| - 1;
    assert b == b[..n] + [b[n]];
    ReplaySnoc(b[..n], b[n]);
    ReplayEnds(b[..n]);
    if n > 0 {
      assert b[n - 1].End() >= b[n].First();
      FirstOnlyDrops(b[..n]);
    }
  }

  /** A record behind a hole forgets everything before it. */
  lemma SnocBehindHole(t: Table, r: Table, es: seq<EntryIndex>)
    requires t.rewriteCount == 0 && r.rewriteCount == 0 && |es| > 0
    requires t.kvs == r.kvs == map[] && t.group == r.group == None
    requires (|t.entries| > 0 ==> t.End() < es[0].index) && (|r.entries| > 0 ==> r.End() < es[0].index)
    ensures Appended(t, es) == Appended(r, es)
  {
  }

  lemma BothWithoutHole(a: seq<Record>, b: seq<Record>, r: Record)
    requires NonEmpty(a) && NonEmpty(b) && |r.es| > 0 && !Hole(a, b)
    requires |b| > 0 ==> r.First() <= End(b)
    requires |b| == 0 && |a| > 0 ==> r.First() <= End(a)
    ensures Appended(MergeNewerNeighbor(ReplayAppends(a), ReplayAppends(b)), r.es) ==
            MergeNewerNeighbor(ReplayAppends(a), Appended(ReplayAppends(b), r.es))
  {
    hide ReplayAppends, Appended, MergeNewerNeighbor;
    ReplayEnds(a);
    ReplayEnds(b);
    if |b| > 0 {
      FirstOnlyDrops(b);
    }
    MergedAppend(ReplayAppends(a), ReplayAppends(b), r.es);
  }

  lemma BothBehindHole(a: seq<Record>, b: seq<Record>, r: Record)
    requires NonEmpty(a) && NonEmpty(b) && NonEmpty(a + b) && |r.es| > 0
    requires |b| > 0 ==> End(b) < r.First()
    requires |b| == 0 && |a| > 0 ==> End(a) < r.First()
    ensures Appended(ReplayAppends(a + b), r.es) == Appended(ReplayAppends(b), r.es)
  {
    hide ReplayAppends, Appended;
    ReplayEnds(b);
    ReplayEnds(a + b);
    assert |b| == 0 ==> a + b == a;
    SnocBehindHole(ReplayAppends(a + b), ReplayAppends(b), r.es);
  }

  /** Replay of both pieces in order: the merge if there is no hole, otherwise what the right
      piece replays to. */
  lemma {:induction false} ReplayBoth(a: seq<Record>, b: seq<Record>)
    requires NonEmpty(a) && NonEmpty(b)
    ensures !Hole(a, b) ==> ReplayAppends(a + b) == MergeNewerNeighbor(ReplayAppends(a), ReplayAppends(b))
    ensures Hole(a, b) ==> ReplayAppends(a + b) == ReplayAppends(b)
    decreases |b|
  {
    hide ReplayAppends, Appended, MergeNewerNeighbor, Hole;
    if |b| == 0 {
      assert a + b == a && b == [];
      assert !Hole(a, b) by { NoHole(a); }
      MergeNothing(a);
    } else {
      var b', r := b[..|b| - 1], b[|b| - 1];
      assert b == b' + [r] && a + b == (a + b') + [r];
      ReplayBoth(a, b');
      ReplaySnoc(b', r);
      ReplaySnoc(a + b', r);
      HoleSnoc(a, b', r);
      if !Hole(a, b) {
        BothWithoutHole(a, b', r);
      } else if !Hole(a, b') {
        BothBehindHole(a, b', r);
      }
    }
  }

  lemma NoHole(a: seq<Record>)
    requires NonEmpty(a)
    ensures !Hole(a, [])
  {
  }

  lemma MergeNothing(a: seq<Record>)
    ensures MergeNewerNeighbor(ReplayAppends(a), ReplayAppends([])) == ReplayAppends(a)
  {
    var t := ReplayAppends(a);
    assert t.entries + [] == t.entries && t.kvs + map[] == t.kvs;
  }

  /** One more record makes a hole if it starts behind the record before it. */
  lemma HoleSnoc(a: seq<Record>, b: seq<Record>, r: Record)
    requires NonEmpty(a) && NonEmpty(b) && |r.es| > 0
    ensures NonEmpty(b + [r])
    ensures Hole(a, b + [r]) <==>
            Hole(a, b) || (|b| > 0 && End(b) < r.First()) || (|b| == 0 && |a| > 0 && End(a) < r.First())
  {
    var c := b + [r];
    if k :| 0 < k < |b| && b[k - 1].End() < b[k].First() {
      assert c[k - 1].End() < c[k].First();
    }
    if |b| > 0 && End(b) < r.First() {
      assert c[|b| - 1].End() < c[|b|].First();
    }
    if k :| 0 < k < |c| && c[k - 1].End() < c[k].First() {
      assert k == |b| || (b[k - 1] == c[k - 1] && b[k] == c[k]);
    }
  }

  /** The two pieces of a rewrite queue can be merged as if they had been replayed in order
      exactly if there is no hole, or the left piece has nothing to put in front of the right. */
  lemma MergeIsReplayExactly(a: seq<Record>, b: seq<Record>)
    requires NonEmpty(a) && NonEmpty(b)
    ensures var l, r := ReplayRewrites(a), ReplayRewrites(b);
            MergeNewerNeighbor(l, r) == ReplayRewrites(a + b) <==>
            !(Hole(a, b) && |l.entries| > 0 && l.first < r.first <= l.End())
  {
    var l, r := ReplayAppends(a), ReplayAppends(b);
    RewritesAreAppends(a);
    RewritesAreAppends(b);
    RewritesAreAppends(a + b);
    MergeAllRewritten(l, r);
    ReplayBoth(a, b);
    ReplayEnds(a);
    ReplayEnds(b);
    if Hole(a, b) {
      MergeIsRightExactly(l, r);
    }
  }

  lemma MergeIsRightExactly(l: Table, r: Table)
    requires l.rewriteCount == 0 && r.rewriteCount == 0 && |r.entries| > 0
    requires l.kvs == r.kvs == map[] && l.group == r.group == None
    ensures AllRewritten(MergeNewerNeighbor(l, r)) == AllRewritten(r) <==>
            !(|l.entries| > 0 && l.first < r.first <= l.End())
  {
    var m := MergeNewerNeighbor(l, r);
    assert |m.entries| == |PrepareAppend(l, r.first).entries| + |r.entries|;
  }

  /** A record without contents. */
  function Blank(first: nat, n: nat): Record {
    Record(0, seq(n, k requires 0 <= k < n => EntryIndex(first + k, Location(FileBlockHandle(FileId(RewriteQueue, 0), 0, 0), NoCompression, 0, 0))))
  }

  lemma RewrittenSpan(t: Table, first: nat, n: nat)
    requires t.rewriteCount <= |t.entries| && n > 0
    ensures var r := ReplayRewrite(t, Blank(first, n).es);
            && r.End() == first + n
            && r.first == if |t.entries| > 0 && t.first <= first <= t.End() then t.first else first
  {
  }

  /** A region is rewritten, overwritten further in front, compacted behind its end, and goes
      on there: in one replay nothing is left of the first part, in two pieces all of it. */
  lemma HoleBringsBack()
    ensures var a, b := [Blank(1, 9)], [Blank(3, 2), Blank(10, 3)];
            && ReplayRewrites(a + b).first == 10 && ReplayRewrites(a + b).End() == 13
            && MergeNewerNeighbor(ReplayRewrites(a), ReplayRewrites(b)).first == 1
            && MergeNewerNeighbor(ReplayRewrites(a), ReplayRewrites(b)).End() == 13
  {
    hide ReplayRewrite, Blank, ReplayRewrites;
    var a, x, y := [Blank(1, 9)], Blank(3, 2), Blank(10, 3);
    var none := ReplayRewrites([]);
    assert none == EmptyTable by { NothingReplayed(); }
    RewritesSnoc([], Blank(1, 9));
    RewrittenSpan(none, 1, 9);
    RewritesSnoc(a, x);
    RewrittenSpan(ReplayRewrites(a), 3, 2);
    RewritesSnoc(a + [x], y);
    RewrittenSpan(ReplayRewrites(a + [x]), 10, 3);
    RewritesSnoc([], x);
    RewrittenSpan(none, 3, 2);
    RewritesSnoc([x], y);
    RewrittenSpan(ReplayRewrites([x]), 10, 3);
    assert [] + a == a && [] + [x] == [x] && [x] + [y] == [x, y] && a + [x] + [y] == a + [x, y];
  }

  lemma NothingReplayed()
    ensures ReplayRewrites([]) == EmptyTable
  {
  }

  lemma RewritesSnoc(log: seq<Record>, r: Record)
    ensures ReplayRewrites(log + [r]) == ReplayRewrite(ReplayRewrites(log), r.es)
  {
    assert (log + [r])[..|log|] == log;
  }

  // ------------------------------------------------------------- any bracketing

  datatype Cut = Piece(log: seq<Record>) | Join(left: Cut, right: Cut)

  function Flatten(c: Cut): seq<Record> {
    match c
    case Piece(log) => log
    case Join(l, r) => Flatten(l) + Flatten(r)
  }

  /** The assertions of replaying one record after the other: the append queue has no holes. */
  predicate Replayable(queue: LogQueue, log: seq<Record>) {
    |log| == 0 ||
    var n := |log| - 1;
    && Replayable(queue, log[..n])
    && (|log[n].es| > 0 ==> Accepts(ReplayIn(queue, log[..n]), log[n].First(), queue == RewriteQueue, true))
  }

  /** Recovery of one region from a cut queue; `None` is a failed assertion. */
  function Recover(queue: LogQueue, c: Cut): (r: Option<Table>)
    ensures r.Some? ==> r.value.rewriteCount <= |r.value.entries|
  {
    match c
    case Piece(log) => if Replayable(queue, log) then Some(ReplayIn(queue, log)) else None
    case Join(l, r) =>
      var lt, rt := Recover(queue, l), Recover(queue, r);
      if lt.Some? && rt.Some?
         && (|rt.value.entries| > 0 ==> Accepts(lt.value, rt.value.first, rt.value.rewriteCount > 0, true))
      then Some(MergeNewerNeighbor(lt.value, rt.value)) else None
  }

  lemma ConnectedParts(a: seq<Record>, b: seq<Record>, queue: LogQueue)
    requires Connected(a + b, queue)
    ensures Connected(a, queue) && Connected(b, queue) && NonEmpty(a) && NonEmpty(b) && !Hole(a, b)
  {
    var c := a + b;
    assert forall k :: 0 <= k < |a| ==> c[k] == a[k];
    assert forall k :: 0 <= k < |b| ==> c[|a| + k] == b[k];
    forall k | 0 < k < |b|
      ensures b[k].First() <= b[k - 1].End()
    {
      assert c[|a| + k].First() <= c[|a| + k - 1].End();
    }
    assert |a| > 0 && |b| > 0 ==> c[|a|].First() <= c[|a| - 1].End();
  }

  lemma {:induction false} ConnectedReplays(queue: LogQueue, log: seq<Record>)
    requires Connected(log, queue)
    ensures Replayable(queue, log)
    decreases |log|
  {
    hide ReplayAppends, ReplayRewrites;
    if |log| > 0 {
      var n := |log| - 1;
      ConnectedReplays(queue, log[..n]);
      ReplayEnds(log[..n]);
      RewritesAreAppends(log[..n]);
    }
  }

  lemma MergeIn(queue: LogQueue, a: seq<Record>, b: seq<Record>)
    requires Connected(a + b, queue)
    ensures ReplayIn(queue, a + b) == MergeNewerNeighbor(ReplayIn(queue, a), ReplayIn(queue, b))
    ensures |ReplayIn(queue, b).entries| > 0 ==>
              Accepts(ReplayIn(queue, a), ReplayIn(queue, b).first, ReplayIn(queue, b).rewriteCount > 0, true)
  {
    hide Connected;
    ConnectedParts(a, b, queue);
    ReplayBoth(a, b);
    RewritesAreAppends(a);
    RewritesAreAppends(b);
    RewritesAreAppends(a + b);
    MergeAllRewritten(ReplayAppends(a), ReplayAppends(b));
    ReplayEnds(a);
    ReplayEnds(b);
    if |b| > 0 {
      FirstOnlyDrops(b);
    }
  }

  /** However a queue without holes is cut, and in whatever order the pieces are merged, no
      assertion fails and the table is the one of replaying it in order. */
  lemma {:induction false} RecoverIsReplay(queue: LogQueue, c: Cut)
    requires Connected(Flatten(c), queue)
    ensures Recover(queue, c) == Some(ReplayIn(queue, Flatten(c)))
    decreases c
  {
    match c
    case Piece(log) => ConnectedReplays(queue, log);
    case Join(l, r) =>
      ConnectedParts(Flatten(l), Flatten(r), queue);
      RecoverIsReplay(queue, l);
      RecoverIsReplay(queue, r);
      MergeIn(queue, Flatten(l), Flatten(r));
  }
}
