/**
 Atomic groups in the rewrite queue: batches marked Begin, Middle and End that take effect
 together or not at all. Recovery replays chunks of the queue apart and merges them, so a
 context may see only the middle of a group. Here, for the batches of one group id:
 however the stream is cut and merged, exactly the complete groups reach the tables.
 */
module AtomicGroups {
  import opened PipeLog
  import opened ReplayMerge

  datatype Status = Begin | Middle | End

  /** One marked batch, or several joined ones; `start` and `end` are its first and last file. */
  datatype Group = Group(status: Status, items: seq<Item>, tombs: seq<Item>, start: FileSeq, end: FileSeq)

  /** What is still incomplete, and the groups that have been replayed, in order. */
  datatype State = State(pending: seq<Group>, done: seq<Group>)

  const Empty := State([], [])

  predicate Open(p: seq<Group>) { |p| > 0 && p[|p| - 1].status != End }

  function Last(p: seq<Group>): Group
    requires |p| > 0
  {
    p[|p| - 1]
  }

  function Front(p: seq<Group>): seq<Group>
    requires |p| > 0
  {
    p[..|p| - 1]
  }

  /** The content of `g` followed by that of `h`. */
  function Joined(g: Group, h: Group, status: Status): Group {
    Group(status, g.items + h.items, g.tombs + h.tombs, g.start, h.end)
  }

  /** The assertion made when two parts are joined: files do not go backwards. */
  predicate CanAccept(p: seq<Group>, g: Group) {
    Open(p) && g.status != Begin ==> Last(p).end <= g.start
  }

  /** One more part. A completed group leaves the pending list and is replayed. */
  function Accept(s: State, g: Group): State {
    if |s.pending| == 0 then s.(pending := [g]) else
    var last, front := Last(s.pending), Front(s.pending);
    match (last.status, g.status)
    case (End, Begin) => s.(pending := s.pending + [g])
    case (_, Begin) => s.(pending := front + [g])
    case (End, _) => s
    case (Begin, Middle) => s.(pending := front + [Joined(last, g, Begin)])
    case (Middle, Middle) => s.(pending := front + [Joined(last, g, Middle)])
    case (Middle, End) => s.(pending := front + [Joined(last, g, End)])
    case (Begin, End) => State(front, s.done + [Joined(last, g, End)])
  }

  function AcceptAll(s: State, gs: seq<Group>): State {
    if |gs| == 0 then s else Accept(AcceptAll(s, Front(gs)), Last(gs))
  }

  predicate CanAcceptAll(s: State, gs: seq<Group>) {
    |gs| == 0 || (CanAcceptAll(s, Front(gs)) && CanAccept(AcceptAll(s, Front(gs)).pending, Last(gs)))
  }

  /** Replay of a stretch of the stream. */
  function Replay(bs: seq<Group>): State { AcceptAll(Empty, bs) }

  /** The right context's incomplete groups are offered to the left one. */
  function Merge(l: State, r: State): State {
    var m := AcceptAll(l, r.pending);
    m.(done := m.done + r.done)
  }

  // ----------------------------------------------------------------- streams

  /** A stretch of (Begin Middle* End?)*: only an open group can be continued, and files do
      not go backwards. */
  predicate Stretch(bs: seq<Group>) {
    && (forall k :: 0 < k < |bs| && bs[k].status != Begin ==> bs[k - 1].status != End)
    && (forall k :: 0 <= k < |bs| ==> bs[k].start <= bs[k].end)
    && (forall j, k :: 0 <= j < k < |bs| ==> bs[j].end <= bs[k].start)
  }

  /** A whole stream also begins with a Begin. */
  predicate Stream(bs: seq<Group>) {
    Stretch(bs) && (|bs| > 0 ==> bs[0].status == Begin)
  }

  /** The group that is open at the end of the stream, joined into one part. */
  function OpenGroup(bs: seq<Group>): Option<Group> {
    if |bs| == 0 then None else
    match Last(bs).status
    case Begin => Some(Last(bs))
    case Middle => (match OpenGroup(Front(bs)) case Some(g) => Some(Joined(g, Last(bs), Begin)) case None => None)
    case End => None
  }

  /** The complete groups of a stream, in order: every Begin Middle* End in it. */
  function Complete(bs: seq<Group>): seq<Group> {
    if |bs| == 0 then [] else
    Complete(Front(bs)) +
    if Last(bs).status == End && OpenGroup(Front(bs)).Some?
    then [Joined(OpenGroup(Front(bs)).value, Last(bs), End)] else []
  }

  // ----------------------------------------------- the four pending shapes

  /** The pending list of any stretch: [Begin], [Middle], [End] or [End, Begin], or empty. */
  predicate Shape(p: seq<Group>) {
    || |p| == 0
    || |p| == 1
    || (|p| == 2 && p[0].status == End && p[1].status == Begin)
  }

  lemma {:induction false} ReplayShape(bs: seq<Group>)
    requires Stretch(bs)
    ensures var s := Replay(bs);
            && Shape(s.pending)
            && (Open(s.pending) <==> |bs| > 0 && Last(bs).status != End)
            && (Open(s.pending) && Last(s.pending).status == Middle ==>
                  |s.pending| == 1 && s.done == [] && bs[0].status == Middle)
            && (|bs| > 0 && bs[0].status == Begin ==> forall k :: 0 <= k < |s.pending| ==> s.pending[k].status == Begin)
  {
    if |bs| > 0 {
      ReplayShape(Front(bs));
    }
  }

  /** The open group of the stream is the last pending one, if that has its Begin. */
  predicate OpenIs(o: Option<Group>, p: seq<Group>) {
    && (o.Some? <==> Open(p) && Last(p).status == Begin)
    && (o.Some? ==> o.value == Last(p))
  }

  lemma AcceptOpen(bs: seq<Group>, s: State, g: Group)
    requires OpenIs(OpenGroup(bs), s.pending) && Shape(s.pending)
    requires g.status != Begin ==> |s.pending| == 0 || Open(s.pending)
    ensures OpenIs(OpenGroup(bs + [g]), Accept(s, g).pending)
    ensures Accept(s, g).done ==
            s.done + if g.status == End && OpenGroup(bs).Some? then [Joined(OpenGroup(bs).value, g, End)] else []
  {
    assert Front(bs + [g]) == bs && Last(bs + [g]) == g;
    assert s.done + [] == s.done;
  }

  /** Sequential replay of any stretch finds exactly the complete groups, also if the stretch
      starts with what a purge left of a group. */
  lemma {:induction false} ReplayIsComplete(bs: seq<Group>)
    requires Stretch(bs)
    ensures Replay(bs).done == Complete(bs)
    ensures OpenIs(OpenGroup(bs), Replay(bs).pending)
    decreases |bs|
  {
    hide Accept, AcceptAll, Joined, OpenGroup, Complete, Stretch;
    if |bs| == 0 {
      NothingOpen();
      assert bs == [];
    } else {
      var front, g := Front(bs), Last(bs);
      assert front + [g] == bs;
      StretchParts(front, [g]);
      if g.status != Begin && |front| > 0 && Last(front).status == End {
        StretchEnd(front, g);
      }
      ReplayIsComplete(front);
      ReplayShape(front);
      NothingFirst(front);
      AcceptOpen(front, Replay(front), g);
      AcceptAllSnoc(Empty, front, g);
      CompleteSnoc(front, g);
    }
  }

  lemma CompleteSnoc(bs: seq<Group>, g: Group)
    ensures Complete(bs + [g]) ==
            Complete(bs) + if g.status == End && OpenGroup(bs).Some? then [Joined(OpenGroup(bs).value, g, End)] else []
  {
    assert Front(bs + [g]) == bs && Last(bs + [g]) == g;
  }

  lemma NothingOpen()
    ensures OpenGroup([]) == None && Complete([]) == [] && Replay([]) == Empty
  {
  }

  /** A whole stream leaves nothing but its open group. */
  lemma StreamPending(bs: seq<Group>)
    requires Stream(bs)
    ensures Replay(bs).pending == match OpenGroup(bs) case Some(g) => [g] case None => []
  {
    hide OpenGroup, Stretch, Accept;
    ReplayIsComplete(bs);
    if |bs| > 0 {
      ReplayShape(bs);
    }
  }

  // ------------------------------------------------------------- merged chunks

  /**
   A merged context may carry one more open group than sequential replay does: a group the
   left chunk left open and the right chunk, without touching it, made obsolete.
   */
  predicate UpToStale(pm: seq<Group>, ps: seq<Group>, bs: seq<Group>) {
    pm == ps ||
    (&& |bs| > 0 && !Open(ps) && |pm| == |ps| + 1 && Front(pm) == ps && Open(pm)
     && (Last(pm).status == Middle ==> ps == [] && bs[0].status == Middle))
  }

  lemma AcceptAllSnoc(s: State, gs: seq<Group>, g: Group)
    ensures AcceptAll(s, gs + [g]) == Accept(AcceptAll(s, gs), g)
  {
    assert Front(gs + [g]) == gs && Last(gs + [g]) == g;
  }

  lemma AcceptAllOne(s: State, g: Group)
    ensures AcceptAll(s, [g]) == Accept(s, g)
  {
    assert [g] == [] + [g];
    AcceptAllSnoc(s, [], g);
  }

  lemma AcceptAllTwo(s: State, g: Group, h: Group)
    ensures AcceptAll(s, [g, h]) == Accept(Accept(s, g), h)
  {
    assert [g, h] == [g] + [h];
    AcceptAllSnoc(s, [g], h);
    AcceptAllOne(s, g);
  }

  /** A stale group is dropped by the next Begin. */
  lemma BeginDropsStale(pm: seq<Group>, ps: seq<Group>, bs: seq<Group>, d: seq<Group>, g: Group)
    requires UpToStale(pm, ps, bs) && !Open(ps) && g.status == Begin
    ensures Accept(State(pm, d), g) == Accept(State(ps, d), g) == State(ps + [g], d)
  {
  }

  lemma JoinedAssoc(a: Group, b: Group, c: Group, s: Status, t: Status, u: Status)
    ensures Joined(Joined(a, b, s), c, u) == Joined(a, Joined(b, c, t), u)
  {
    assert a.items + b.items + c.items == a.items + (b.items + c.items);
    assert a.tombs + b.tombs + c.tombs == a.tombs + (b.tombs + c.tombs);
  }

  /** What `Merge` does for each shape of the right context. */
  lemma MergeByShape(l: State, r: State)
    requires Shape(r.pending)
    ensures |r.pending| == 0 ==> Merge(l, r) == State(l.pending, l.done + r.done)
    ensures |r.pending| == 1 ==>
              Merge(l, r) == State(Accept(l, r.pending[0]).pending, Accept(l, r.pending[0]).done + r.done)
    ensures |r.pending| == 2 ==>
              var m := Accept(Accept(l, r.pending[0]), r.pending[1]);
              Merge(l, r) == State(m.pending, m.done + r.done)
  {
    if |r.pending| == 1 {
      assert r.pending == [r.pending[0]];
      AcceptAllOne(l, r.pending[0]);
    } else if |r.pending| == 2 {
      assert r.pending == [r.pending[0], r.pending[1]];
      AcceptAllTwo(l, r.pending[0], r.pending[1]);
    }
  }

  lemma StretchParts(a: seq<Group>, b: seq<Group>)
    requires Stretch(a + b)
    ensures Stretch(a) && Stretch(b)
    ensures |a| > 0 && |b| > 0 && b[0].status != Begin ==> Last(a).status != End
    ensures forall j, k :: 0 <= j < |a| && 0 <= k < |b| ==> a[j].end <= b[k].start
  {
    var c := a + b;
    assert forall j :: 0 <= j < |a| ==> c[j] == a[j];
    assert forall k :: 0 <= k < |b| ==> c[|a| + k] == b[k];
    forall k | 0 < k < |b| && b[k].status != Begin
      ensures b[k - 1].status != End
    {
      assert c[|a| + k] == b[k] && c[|a| + k - 1] == b[k - 1];
    }
  }

  /** Joining a part to the right context or to the merged one comes to the same. */
  lemma MergeStep(a: seq<Group>, b: seq<Group>, g: Group)
    requires Stretch(a + b + [g]) && Stretch(a + b) && Stretch(b + [g]) && Stretch(b) && Stretch(a)
    requires var m, p := Merge(Replay(a), Replay(b)), Replay(a + b);
             m.done == p.done && UpToStale(m.pending, p.pending, a + b)
    ensures var m, p := Merge(Replay(a), Accept(Replay(b), g)), Accept(Replay(a + b), g);
            m.done == p.done && UpToStale(m.pending, p.pending, a + b + [g])
  {
    var s, x, p := Replay(a), Replay(b), Replay(a + b);
    ReplayShape(a);
    ReplayShape(b);
    ReplayShape(a + b);
    ReplayShape(b + [g]);
    AcceptAllSnoc(Empty, b, g);
    var x' := Accept(x, g);
    MergeByShape(s, x);
    MergeByShape(s, x');
    assert (a + b + [g])[|a + b|] == g;
    if |b| > 0 {
      assert (a + b)[|a + b| - 1] == b[|b| - 1];
      assert |a| == 0 ==> a + b == b;
      assert |a| > 0 ==> (a + b)[0] == a[0] && (a + b)[|a|] == b[0] && (a + b)[|a| - 1] == a[|a| - 1];
    } else {
      assert a + b == a;
    }
    if |x.pending| == 0 {
      if |b| > 0 {
        assert (b + [g])[|b|] == g && (b + [g])[|b| - 1] == b[|b| - 1];
      }
      MergeStepNothing(a, b, g);
    } else {
      StretchNeighbours(a, b, g);
      MergeStepSome(a, b, g);
    }
  }

  lemma MergeStepNothing(a: seq<Group>, b: seq<Group>, g: Group)
    requires var s, x, p := Replay(a), Replay(b), Replay(a + b);
             && |x.pending| == 0 && Shape(s.pending)
             && s.done + x.done == p.done && UpToStale(s.pending, p.pending, a + b)
             && (|b| > 0 ==> !Open(p.pending) && g.status == Begin)
             && (|b| == 0 ==> x == Empty && p == s)
    ensures var m, p := Merge(Replay(a), Accept(Replay(b), g)), Accept(Replay(a + b), g);
            m.done == p.done && m.pending == p.pending
  {
    var s, x, p := Replay(a), Replay(b), Replay(a + b);
    var x' := Accept(x, g);
    assert x'.pending == [g];
    MergeByShape(s, x');
    if |b| > 0 {
      BeginDropsStale(s.pending, p.pending, a + b, s.done, g);
      BeginDropsStale(p.pending, p.pending, a + b, p.done, g);
    } else {
      assert Accept(s, g).done + [] == Accept(s, g).done;
    }
  }

  /** The right context holds one open Begin. */
  lemma StepAfterBegin(s: State, x: State, p: State, g: Group)
    requires |x.pending| == 1 && x.pending[0].status == Begin && Shape(s.pending)
    requires p == State(Accept(s, x.pending[0]).pending, s.done + x.done)
    ensures var m, p' := Merge(s, Accept(x, g)), Accept(p, g);
            && m.done == p'.done
            && (g.status != End ==> m.pending == p'.pending)
            && (g.status == End ==> m.pending == s.pending
                                    && p'.pending == if Open(s.pending) then Front(s.pending) else s.pending)
  {
    MergeByShape(s, Accept(x, g));
  }

  /** The right context holds only Middle parts, and the left one is open. */
  lemma StepAfterMiddle(s: State, x: State, p: State, g: Group)
    requires |x.pending| == 1 && x.pending[0].status == Middle && x.done == [] && Open(s.pending)
    requires p == Accept(s, x.pending[0])
    ensures var m, p' := Merge(s, Accept(x, g)), Accept(p, g);
            m.done == p'.done && m.pending == p'.pending
  {
    var last, y := Last(s.pending), x.pending[0];
    MergeByShape(s, Accept(x, g));
    JoinedAssoc(last, y, g, last.status, Middle, last.status);
    JoinedAssoc(last, y, g, last.status, End, End);
    assert Accept(s, Accept(x, g).pending[0]).done + [] == Accept(s, Accept(x, g).pending[0]).done;
  }

  /** The right context holds the end of a group and perhaps the Begin of the next one. */
  lemma StepAfterEnd(s: State, x: State, p: State, g: Group, bs: seq<Group>)
    requires |x.pending| == 1 && x.pending[0].status == End && g.status == Begin
    requires var t := Accept(s, x.pending[0]);
             p.done == t.done + x.done && UpToStale(t.pending, p.pending, bs) && !Open(p.pending)
    ensures var m, p' := Merge(s, Accept(x, g)), Accept(p, g);
            m.done == p'.done && m.pending == p'.pending
  {
    var y := x.pending[0];
    var t := Accept(s, y);
    assert Accept(x, g).pending == [y, g];
    MergeByShape(s, Accept(x, g));
    BeginDropsStale(t.pending, p.pending, bs, t.done, g);
    BeginDropsStale(p.pending, p.pending, bs, p.done, g);
  }

  lemma BeginOnClosed(t: State, h: Group)
    requires !Open(t.pending) && h.status == Begin
    ensures Accept(t, h) == State(t.pending + [h], t.done)
  {
  }

  lemma EndClosesOpen(s: State, y: Group)
    requires (|s.pending| == 0 || Open(s.pending)) && Shape(s.pending) && y.status == End
    ensures !Open(Accept(s, y).pending)
  {
  }

  lemma StepAfterEndBegin(s: State, x: State, p: State, g: Group)
    requires |x.pending| == 2 && x.pending[0].status == End && x.pending[1].status == Begin
    requires (|s.pending| == 0 || Open(s.pending)) && Shape(s.pending)
    requires p == State(Accept(Accept(s, x.pending[0]), x.pending[1]).pending, Accept(s, x.pending[0]).done + x.done)
    ensures var m, p' := Merge(s, Accept(x, g)), Accept(p, g);
            m.done == p'.done && m.pending == p'.pending
  {
    hide AcceptAll, Merge, Open;
    var y, z := x.pending[0], x.pending[1];
    var t := Accept(s, y);
    EndClosesOpen(s, y);
    BeginOnClosed(t, z);
    assert x.pending == [y, z] && Front(x.pending) == [y] && Last(x.pending) == z;
    assert Front(p.pending) == t.pending && Last(p.pending) == z;
    MergeByShape(s, Accept(x, g));
    match g.status
    case Begin =>
      assert Accept(x, g) == State([y, g], x.done);
      BeginOnClosed(t, g);
    case Middle =>
      var h := Joined(z, g, Begin);
      assert Accept(x, g) == State([y, h], x.done);
      BeginOnClosed(t, h);
    case End =>
      assert Accept(x, g) == State([y], x.done + [Joined(z, g, End)]);
      assert t.done + (x.done + [Joined(z, g, End)]) == t.done + x.done + [Joined(z, g, End)];
  }

  /** What the stream says about its neighbours at the cut and at the end. */
  predicate Neighbours(a: seq<Group>, b: seq<Group>, g: Group) {
    && |b| > 0
    && (|a| > 0 && b[0].status != Begin ==> Last(a).status != End)
    && (Last(b).status == End ==> g.status == Begin)
  }

  lemma StretchNeighbours(a: seq<Group>, b: seq<Group>, g: Group)
    requires Stretch(a + b + [g]) && |b| > 0
    ensures Neighbours(a, b, g)
  {
    var c := a + b + [g];
    assert c[|c| - 1] == g && c[|c| - 2] == Last(b);
    assert |a| > 0 ==> c[|a|] == b[0] && c[|a| - 1] == Last(a);
  }

  lemma MergeStepSome(a: seq<Group>, b: seq<Group>, g: Group)
    requires Neighbours(a, b, g) && Stretch(a) && Stretch(b) && Stretch(a + b)
    requires |Replay(b).pending| > 0
    requires var m, p := Merge(Replay(a), Replay(b)), Replay(a + b);
             m.done == p.done && UpToStale(m.pending, p.pending, a + b)
    ensures var m, p := Merge(Replay(a), Accept(Replay(b), g)), Accept(Replay(a + b), g);
            m.done == p.done && UpToStale(m.pending, p.pending, a + b + [g])
  {
    hide Merge, AcceptAll;
    var s, x, p := Replay(a), Replay(b), Replay(a + b);
    NothingFirst(a);
    ReplayShape(a);
    ReplayShape(b);
    assert Last(a + b) == Last(b);
    assert Open(p.pending) <==> Last(b).status != End by { ReplayShape(a + b); }
    MergeByShape(s, x);
    var y := x.pending[0];
    if |x.pending| == 2 {
      StepAfterEndBegin(s, x, p, g);
    } else if y.status == Begin {
      StepAfterBegin(s, x, p, g);
      assert |a| > 0 ==> (a + b + [g])[0] == a[0];
    } else if y.status == End {
      StepAfterEnd(s, x, p, g, a + b);
    } else {
      MergeStepMiddle(a, b, g);
    }
  }

  lemma MergeStepMiddle(a: seq<Group>, b: seq<Group>, g: Group)
    requires |a| > 0 ==> Open(Replay(a).pending)
    requires |Replay(b).pending| == 1 && Replay(b).pending[0].status == Middle && Replay(b).done == []
    requires |a| > 0 ==> Replay(a + b) == Accept(Replay(a), Replay(b).pending[0])
    ensures var m, p := Merge(Replay(a), Accept(Replay(b), g)), Accept(Replay(a + b), g);
            m.done == p.done && m.pending == p.pending
  {
    if |a| == 0 {
      assert a + b == b;
      MergeOntoEmpty(Accept(Replay(b), g));
    } else {
      StepAfterMiddle(Replay(a), Replay(b), Replay(a + b), g);
    }
  }

  lemma MergeOntoEmpty(x: State)
    requires Shape(x.pending)
    ensures Merge(Empty, x) == x
  {
    MergeByShape(Empty, x);
    assert [] + x.done == x.done;
  }

  /** Two stretches replayed apart and merged hold the complete groups of the joined
      stretch, and what is pending differs at most by a stale open group. */
  lemma {:induction false} MergeOfReplays(a: seq<Group>, b: seq<Group>)
    requires Stretch(a + b)
    ensures Merge(Replay(a), Replay(b)).done == Replay(a + b).done
    ensures UpToStale(Merge(Replay(a), Replay(b)).pending, Replay(a + b).pending, a + b)
    decreases |b|
  {
    hide Stretch;
    StretchParts(a, b);
    if |b| == 0 {
      assert a + b == a;
      assert Replay(a).done + [] == Replay(a).done;
    } else {
      var b', g := Front(b), Last(b);
      assert b == b' + [g];
      assert a + b == a + b' + [g];
      assert Front(a + b) == a + b';
      StretchParts(a + b', [g]);
      StretchParts(b', [g]);
      MergeOfReplays(a, b');
      AcceptAllSnoc(Empty, b', g);
      AcceptAllSnoc(Empty, a + b', g);
      MergeStep(a, b', g);
    }
  }

  // -------------------------------------------------------- any bracketing

  datatype Chunks = Chunk(batches: seq<Group>) | Join(left: Chunks, right: Chunks)

  function Flatten(c: Chunks): seq<Group> {
    match c
    case Chunk(bs) => bs
    case Join(l, r) => Flatten(l) + Flatten(r)
  }

  /** Recovery of a cut stream; `None` is a failed assertion. */
  function Recover(c: Chunks): Option<State> {
    match c
    case Chunk(bs) => if CanAcceptAll(Empty, bs) then Some(Replay(bs)) else None
    case Join(l, r) =>
      var ls, rs := Recover(l), Recover(r);
      if ls.Some? && rs.Some? && CanAcceptAll(ls.value, rs.value.pending)
      then Some(Merge(ls.value, rs.value)) else None
  }

  /** The markers are in an order in which they are written: nothing but a Begin follows an End. */
  predicate Markers(bs: seq<Group>) {
    forall k :: 0 < k < |bs| && bs[k].status != Begin ==> bs[k - 1].status != End
  }

  /** Replay has a group open behind every batch that is no End, up to the end of that batch. */
  lemma {:induction false} OpenUpTo(bs: seq<Group>)
    requires Markers(bs) && |bs| > 0 && Last(bs).status != End
    ensures var p := AcceptAll(Empty, bs).pending; Open(p) && Last(p).end == Last(bs).end
    decreases |bs|
  {
    if |bs| > 1 && Last(bs).status == Middle {
      assert Front(bs)[|bs| - 2] == bs[|bs| - 2];
      OpenUpTo(Front(bs));
    }
  }

  /** With such markers an assertion fails exactly if a batch that continues a group is in an older
      file than the batch before it. */
  lemma {:induction false} AssertionFailsExactly(bs: seq<Group>)
    requires Markers(bs)
    ensures !CanAcceptAll(Empty, bs) <==> exists k :: 0 < k < |bs| && bs[k].status != Begin && bs[k].start < bs[k - 1].end
    decreases |bs|
  {
    if |bs| > 0 {
      var n, front := |bs| - 1, Front(bs);
      AssertionFailsExactly(front);
      assert forall k :: 0 <= k < n ==> front[k] == bs[k];
      if n > 0 && bs[n].status != Begin {
        OpenUpTo(front);
      }
      assert CanAcceptAll(Empty, bs) <==>
               CanAcceptAll(Empty, front) && !(0 < n && bs[n].status != Begin && bs[n].start < bs[n - 1].end);
    }
  }

  lemma StaleOnRight(a: seq<Group>, b: seq<Group>, x: State)
    requires Stretch(a + b) && Stretch(a) && Stretch(b) && x.pending != Replay(b).pending
    requires x.done == Replay(b).done && UpToStale(x.pending, Replay(b).pending, b)
    ensures Merge(Replay(a), x).done == Replay(a + b).done
    ensures UpToStale(Merge(Replay(a), x).pending, Replay(a + b).pending, a + b)
  {
    hide AcceptAll, Accept, Stretch, Shape;
    var s, x0, p, st := Replay(a), Replay(b), Replay(a + b), Last(x.pending);
    MergeOfReplays(a, b);
    assert x.pending == x0.pending + [st];
    AcceptAllSnoc(s, x0.pending, st);
    assert !Open(p.pending) by {
      assert Last(a + b) == Last(b);
      ReplayShape(b);
      ReplayShape(a + b);
    }
    if st.status == Begin {
      BeginDropsStale(Merge(s, x0).pending, p.pending, a + b, AcceptAll(s, x0.pending).done, st);
    } else {
      assert x0.pending == [] && st.status == Middle && b[0].status == Middle;
      NothingAccepted(s);
      StaleMiddle(a, b, st);
    }
  }

  lemma NothingAccepted(s: State)
    ensures AcceptAll(s, []) == s
  {
  }

  /** A stale Middle on the right either continues what is open on the left or stays stale. */
  lemma StaleMiddle(a: seq<Group>, b: seq<Group>, st: Group)
    requires Stretch(a + b) && |b| > 0 && b[0].status == Middle && st.status == Middle
    requires !Open(Replay(a + b).pending) && UpToStale(Replay(a).pending, Replay(a + b).pending, a + b)
    ensures Accept(Replay(a), st).done == Replay(a).done
    ensures UpToStale(Accept(Replay(a), st).pending, Replay(a + b).pending, a + b)
  {
    hide AcceptAll, Stretch;
    StretchParts(a, b);
    ReplayShape(a);
    if |a| == 0 {
      assert a + b == b && a == [];
      NothingAccepted(Empty);
    } else {
      assert (a + b)[0] == a[0];
    }
  }

  lemma StaleOnLeft(a: seq<Group>, b: seq<Group>, s: State, x: State)
    requires Stretch(a + b) && Stretch(a) && Stretch(b) && s.pending != Replay(a).pending
    requires s.done == Replay(a).done && UpToStale(s.pending, Replay(a).pending, a)
    requires x.done == Replay(b).done && UpToStale(x.pending, Replay(b).pending, b)
    ensures Merge(s, x).done == Replay(a + b).done
    ensures UpToStale(Merge(s, x).pending, Replay(a + b).pending, a + b)
  {
    var s0, x0, p := Replay(a), Replay(b), Replay(a + b);
    MergeOfReplays(a, b);
    ReplayShape(a);
    ReplayShape(b);
    StretchParts(a, b);
    assert |b| > 0 ==> b[0].status == Begin;
    assert (a + b)[0] == a[0];
    assert |x.pending| <= 1 && (|x.pending| == 1 ==> x.pending[0].status == Begin);
    MergeByShape(s, x);
    MergeByShape(s0, x0);
    if |x.pending| == 1 {
      BeginDropsStale(s.pending, s0.pending, a, s.done, x.pending[0]);
    }
    if |x0.pending| == 0 {
      assert p.pending == s0.pending;
    }
  }

  /** Stale groups on either side of a merge do no harm. */
  lemma MergeUpToStale(a: seq<Group>, b: seq<Group>, s: State, x: State)
    requires Stretch(a + b) && Stretch(a) && Stretch(b)
    requires s.done == Replay(a).done && UpToStale(s.pending, Replay(a).pending, a)
    requires x.done == Replay(b).done && UpToStale(x.pending, Replay(b).pending, b)
    ensures Merge(s, x).done == Replay(a + b).done
    ensures UpToStale(Merge(s, x).pending, Replay(a + b).pending, a + b)
  {
    if s.pending != Replay(a).pending {
      StaleOnLeft(a, b, s, x);
    } else if x.pending != Replay(b).pending {
      StaleOnRight(a, b, x);
    } else {
      MergeOfReplays(a, b);
    }
  }

  // ------------------------------------------------------------- file order

  /** Every pending part lies between the first and the last file of the stretch. */
  predicate Within(p: seq<Group>, lo: FileSeq, hi: FileSeq) {
    forall k :: 0 <= k < |p| ==> lo <= p[k].start <= p[k].end <= hi
  }

  lemma AcceptWithin(s: State, g: Group, lo: FileSeq, hi: FileSeq)
    requires Within(s.pending, lo, hi) && lo <= g.start <= g.end && hi <= g.start
    ensures CanAccept(s.pending, g) && Within(Accept(s, g).pending, lo, g.end)
  {
  }

  lemma AcceptBeginWithin(s: State, g: Group, lo: FileSeq, hi: FileSeq)
    requires Within(s.pending, lo, hi) && lo <= g.start <= g.end <= hi && g.status == Begin
    ensures CanAccept(s.pending, g) && Within(Accept(s, g).pending, lo, hi)
  {
  }

  lemma {:induction false} ReplayWithin(bs: seq<Group>)
    requires Stretch(bs) && |bs| > 0
    ensures CanAcceptAll(Empty, bs) && Within(Replay(bs).pending, bs[0].start, Last(bs).end)
    decreases |bs|
  {
    var n := |bs| - 1;
    if n == 0 {
      assert Front(bs) == [] && CanAcceptAll(Empty, []) && AcceptAll(Empty, []) == Empty;
      AcceptWithin(Empty, Last(bs), bs[0].start, bs[0].start);
    } else {
      StretchParts(Front(bs), [Last(bs)]);
      assert bs == Front(bs) + [Last(bs)];
      ReplayWithin(Front(bs));
      AcceptWithin(Replay(Front(bs)), Last(bs), bs[0].start, Last(Front(bs)).end);
    }
  }

  /** Offering later parts to an earlier context never trips the order assertion. */
  lemma MergeWithin(s: State, x: State, lo: FileSeq, mid: FileSeq, mid': FileSeq, hi: FileSeq)
    requires Within(s.pending, lo, mid) && Within(x.pending, mid', hi) && lo <= mid <= mid' <= hi
    requires Shape(x.pending)
    ensures CanAcceptAll(s, x.pending) && Within(Merge(s, x).pending, lo, hi)
  {
    if |x.pending| == 0 {
    } else if |x.pending| == 1 {
      AcceptWithin(s, x.pending[0], lo, mid);
      AcceptAllOne(s, x.pending[0]);
      assert x.pending == [x.pending[0]] && Front(x.pending) == [];
    } else {
      var y, z := x.pending[0], x.pending[1];
      AcceptWithin(s, y, lo, mid);
      AcceptAllOne(s, y);
      AcceptAllTwo(s, y, z);
      assert x.pending == [y, z] && Front(x.pending) == [y] && Front([y]) == [];
      assert Within(Accept(s, y).pending, lo, hi);
      AcceptBeginWithin(Accept(s, y), z, lo, hi);
    }
  }

  lemma StaleShape(pm: seq<Group>, bs: seq<Group>)
    requires Stretch(bs) && UpToStale(pm, Replay(bs).pending, bs)
    ensures Shape(pm)
  {
    ReplayShape(bs);
  }

  /** Any way of cutting and merging a stretch. */
  lemma {:induction false} RecoverIsReplay(c: Chunks)
    requires Stretch(Flatten(c))
    ensures Recover(c).Some?
    ensures Recover(c).value.done == Replay(Flatten(c)).done
    ensures UpToStale(Recover(c).value.pending, Replay(Flatten(c)).pending, Flatten(c))
    ensures |Flatten(c)| == 0 ==> Recover(c).value.pending == []
    ensures |Flatten(c)| > 0 ==> Within(Recover(c).value.pending, Flatten(c)[0].start, Last(Flatten(c)).end)
    decreases c
  {
    match c
    case Chunk(bs) =>
      if |bs| > 0 {
        ReplayWithin(bs);
      }
    case Join(l, r) =>
      var a, b := Flatten(l), Flatten(r);
      StretchParts(a, b);
      RecoverIsReplay(l);
      RecoverIsReplay(r);
      var s, x := Recover(l).value, Recover(r).value;
      MergeUpToStale(a, b, s, x);
      StaleShape(x.pending, b);
      JoinWithin(a, b, s, x);
  }

  lemma JoinWithin(a: seq<Group>, b: seq<Group>, s: State, x: State)
    requires Stretch(a + b) && Shape(x.pending)
    requires |a| == 0 ==> s.pending == []
    requires |b| == 0 ==> x.pending == []
    requires |a| > 0 ==> Within(s.pending, a[0].start, Last(a).end)
    requires |b| > 0 ==> Within(x.pending, b[0].start, Last(b).end)
    ensures CanAcceptAll(s, x.pending)
    ensures |a + b| == 0 ==> Merge(s, x).pending == []
    ensures |a + b| > 0 ==> Within(Merge(s, x).pending, (a + b)[0].start, Last(a + b).end)
  {
    StretchParts(a, b);
    if |b| == 0 {
      assert a + b == a;
    } else if |a| == 0 {
      assert a + b == b;
      StretchSpan(b);
      MergeWithin(s, x, b[0].start, b[0].start, b[0].start, Last(b).end);
    } else {
      assert (a + b)[0] == a[0] && Last(a + b) == Last(b);
      StretchSpan(a);
      StretchSpan(b);
      MergeWithin(s, x, a[0].start, Last(a).end, b[0].start, Last(b).end);
    }
  }

  lemma StretchSpan(bs: seq<Group>)
    requires Stretch(bs) && |bs| > 0
    ensures bs[0].start <= Last(bs).end
  {
  }

  // ------------------------------------------------ what a complete group is made of

  function ItemsOf(g: seq<Group>): seq<Item> {
    if |g| == 0 then [] else ItemsOf(Front(g)) + Last(g).items
  }

  function TombsOf(g: seq<Group>): seq<Item> {
    if |g| == 0 then [] else TombsOf(Front(g)) + Last(g).tombs
  }

  /** Several batches as one: everything in them, from the first file to the last. */
  function Whole(g: seq<Group>, status: Status): Group
    requires |g| > 0
  {
    Group(status, ItemsOf(g), TombsOf(g), g[0].start, g[|g| - 1].end)
  }

  /** `bs[a..]` is a Begin and Middles only, up to `b`. */
  predicate OpensAt(bs: seq<Group>, a: nat, b: nat)
    requires b <= |bs|
  {
    a < b && bs[a].status == Begin && forall k :: a < k < b ==> bs[k].status == Middle
  }

  /** Where the group that is open at the end began. */
  function BeginOf(bs: seq<Group>): Option<nat> {
    if |bs| == 0 then None else
    match Last(bs).status
    case Begin => Some(|bs| - 1)
    case Middle => BeginOf(Front(bs))
    case End => None
  }

  /** First and last batch of each complete group, in order. */
  function Spans(bs: seq<Group>): seq<(nat, nat)> {
    if |bs| == 0 then [] else
    Spans(Front(bs)) +
    if Last(bs).status == End && BeginOf(Front(bs)).Some? then [(BeginOf(Front(bs)).value, |bs| - 1)] else []
  }

  /** `BeginOf` finds the one Begin with only Middles behind it. */
  lemma {:induction false} BeginOfIs(bs: seq<Group>, a: nat)
    ensures BeginOf(bs) == Some(a) <==> OpensAt(bs, a, |bs|)
    decreases |bs|
  {
    if |bs| > 0 {
      BeginOfIs(Front(bs), a);
      if OpensAt(bs, a, |bs|) && Last(bs).status == Middle {
        assert OpensAt(Front(bs), a, |Front(bs)|);
      }
    }
  }

  /** `Spans` has every Begin Middle* End and nothing else. */
  lemma {:induction false} SpansAre(bs: seq<Group>, a: nat, b: nat)
    ensures (a, b) in Spans(bs) <==> b < |bs| && OpensAt(bs, a, b) && bs[b].status == End
    decreases |bs|
  {
    if |bs| > 0 {
      var front := Front(bs);
      SpansAre(front, a, b);
      BeginOfIs(front, a);
      if b < |front| {
        assert OpensAt(bs, a, b) <==> OpensAt(front, a, b);
      } else if b == |front| {
        assert OpensAt(bs, a, b) <==> OpensAt(front, a, b);
      }
    }
  }

  lemma WholeSnoc(g: seq<Group>, h: Group, s: Status, t: Status)
    requires |g| > 0
    ensures Joined(Whole(g, s), h, t) == Whole(g + [h], t)
  {
    assert Front(g + [h]) == g && Last(g + [h]) == h;
  }

  lemma WholeOne(g: Group, s: Status)
    ensures Whole([g], s) == g.(status := s)
  {
    assert Front([g]) == [] && Last([g]) == g;
    assert ItemsOf([]) == [] && TombsOf([]) == [];
    assert ItemsOf([g]) == [] + g.items && TombsOf([g]) == [] + g.tombs;
    assert [] + g.items == g.items && [] + g.tombs == g.tombs;
  }

  /** The open group holds its batches from the Begin on. */
  lemma {:induction false} OpenIsWhole(bs: seq<Group>)
    ensures OpenGroup(bs).Some? <==> BeginOf(bs).Some?
    ensures BeginOf(bs).Some? ==> BeginOf(bs).value < |bs| && OpenGroup(bs).value == Whole(bs[BeginOf(bs).value..], Begin)
    decreases |bs|
  {
    hide Joined, Whole;
    if |bs| > 0 {
      var front, g := Front(bs), Last(bs);
      OpenIsWhole(front);
      if g.status == Begin {
        assert bs[|bs| - 1..] == [g];
        WholeOne(g, Begin);
      } else if g.status == Middle && BeginOf(front).Some? {
        var a := BeginOf(front).value;
        WholeSnoc(front[a..], g, Begin, Begin);
        assert front[a..] + [g] == bs[a..];
      }
    }
  }

  lemma SameSlice(bs: seq<Group>, a: nat, b: nat)
    requires |bs| > 0 && a <= b < |bs|
    ensures bs[a..b] == Front(bs)[a..b]
  {
  }

  /** The complete groups of a stream, told by where they begin and end: each holds the items and
      the tombstones of all its batches in order, from the first file of its Begin to the last
      file of its End. */
  lemma {:induction false} CompleteAre(bs: seq<Group>)
    ensures |Complete(bs)| == |Spans(bs)|
    ensures forall k :: 0 <= k < |Spans(bs)| ==>
              && Spans(bs)[k].0 < Spans(bs)[k].1 < |bs|
              && Complete(bs)[k] == Whole(bs[Spans(bs)[k].0..Spans(bs)[k].1 + 1], End)
    decreases |bs|
  {
    hide Joined, Whole, OpenGroup, BeginOf;
    if |bs| > 0 {
      var front, g := Front(bs), Last(bs);
      CompleteAre(front);
      OpenIsWhole(front);
      forall k | 0 <= k < |Spans(front)|
        ensures bs[Spans(front)[k].0..Spans(front)[k].1 + 1] == front[Spans(front)[k].0..Spans(front)[k].1 + 1]
      {
        SameSlice(bs, Spans(front)[k].0, Spans(front)[k].1 + 1);
      }
      if g.status == End && BeginOf(front).Some? {
        var a := BeginOf(front).value;
        WholeSnoc(front[a..], g, Begin, End);
        assert front[a..] + [g] == bs[a..|bs|];
      }
    }
  }

  /**
   Atomic groups are all or nothing. Take the marked batches of one id that are left, a stretch
   of (Begin Middle* End?)* whose front may be purged, cut anywhere, chunks replayed apart and
   merged in any bracketing. No assertion fails. What is replayed are exactly the groups that
   begin and end in the stretch, each once and in order, each with the items and tombstones of
   all its batches and with the range of files from its Begin to its End. What stays pending is
   one of [Begin], [Middle], [End], [End, Begin] or nothing.
   */
  lemma GroupsAreAllOrNothing(c: Chunks)
    requires Stretch(Flatten(c))
    ensures Recover(c).Some?
    ensures var bs, done := Flatten(c), Recover(c).value.done;
            && done == Complete(bs) && |done| == |Spans(bs)|
            && (forall k :: 0 <= k < |done| ==>
                  && Spans(bs)[k].0 < Spans(bs)[k].1 < |bs|
                  && done[k] == Whole(bs[Spans(bs)[k].0..Spans(bs)[k].1 + 1], End))
    ensures Shape(Recover(c).value.pending)
  {
    hide Complete, Spans, Whole, Stretch, AcceptAll;
    RecoverIsReplay(c);
    ReplayIsComplete(Flatten(c));
    CompleteAre(Flatten(c));
    StaleShape(Recover(c).value.pending, Flatten(c));
  }

  /** The same shapes hold in every intermediate context, whatever stretch it has seen. */
  lemma PendingShapes(c: Chunks)
    requires Stretch(Flatten(c))
    ensures Recover(c).Some? && Shape(Recover(c).value.pending)
  {
    RecoverIsReplay(c);
    StaleShape(Recover(c).value.pending, Flatten(c));
  }

  // ------------------------------------------------- exactly when a group goes stale

  predicate AllMiddle(bs: seq<Group>) {
    forall k :: 0 <= k < |bs| ==> bs[k].status == Middle
  }

  /** The first batch that is not a Middle is a Begin. */
  predicate BeginFirst(bs: seq<Group>) {
    exists k :: 0 <= k < |bs| && bs[k].status == Begin && AllMiddle(bs[..k])
  }

  lemma BeginFirstSnoc(bs: seq<Group>, g: Group)
    ensures AllMiddle(bs + [g]) <==> AllMiddle(bs) && g.status == Middle
    ensures BeginFirst(bs + [g]) <==> BeginFirst(bs) || (AllMiddle(bs) && g.status == Begin)
  {
    var c := bs + [g];
    assert c[|bs|] == g && c[..|bs|] == bs;
    if k :| 0 <= k < |bs| && bs[k].status == Begin && AllMiddle(bs[..k]) {
      assert c[..k] == bs[..k] && c[k] == bs[k];
    }
    if k :| 0 <= k < |c| && c[k].status == Begin && AllMiddle(c[..k]) {
      assert k < |bs| ==> bs[..k] == c[..k] && bs[k] == c[k];
    }
    if AllMiddle(c) {
      forall k | 0 <= k < |bs| ensures bs[k].status == Middle { assert c[k] == bs[k]; }
    }
  }

  /** The pending list by what comes first: Middles only, a Begin, or an End. */
  predicate ByFirst(middles: bool, begin: bool, p: seq<Group>) {
    && (middles ==> !begin && (|p| == 0 || (|p| == 1 && p[0].status == Middle)))
    && (begin ==> |p| == 0 || (|p| == 1 && p[0].status == Begin))
    && (!middles && !begin ==> |p| > 0 && p[0].status == End)
  }

  lemma ByFirstStep(middles: bool, begin: bool, s: State, g: Group)
    requires ByFirst(middles, begin, s.pending) && Shape(s.pending)
    requires g.status != Begin ==> Open(s.pending) || (middles && |s.pending| == 0)
    ensures ByFirst(middles && g.status == Middle, begin || (middles && g.status == Begin), Accept(s, g).pending)
  {
  }

  lemma {:induction false} PendingByFirst(bs: seq<Group>)
    requires Stretch(bs)
    ensures ByFirst(AllMiddle(bs), BeginFirst(bs), Replay(bs).pending)
    decreases |bs|
  {
    hide Stretch, AllMiddle, BeginFirst, Accept, ByFirst;
    if |bs| == 0 {
      NothingFirst(bs);
      assert ByFirst(true, false, []) by { NothingByFirst(); }
    } else {
      var front, g := Front(bs), Last(bs);
      assert bs == front + [g];
      StretchParts(front, [g]);
      PendingByFirst(front);
      BeginFirstSnoc(front, g);
      ReplayShape(front);
      NothingFirst(front);
      if |front| > 0 && Last(front).status == End {
        StretchEnd(front, g);
      }
      ByFirstStep(AllMiddle(front), BeginFirst(front), Replay(front), g);
    }
  }

  lemma NothingByFirst()
    ensures ByFirst(true, false, [])
  {
  }

  lemma NothingFirst(bs: seq<Group>)
    ensures |bs| == 0 ==> AllMiddle(bs) && !BeginFirst(bs) && Replay(bs).pending == []
  {
  }

  lemma StretchEnd(bs: seq<Group>, g: Group)
    requires Stretch(bs + [g]) && |bs| > 0 && Last(bs).status == End
    ensures g.status == Begin
  {
    assert (bs + [g])[|bs|] == g && (bs + [g])[|bs| - 1] == Last(bs);
  }

  /** The stretch replays to nothing pending. */
  predicate LeavesNothing(bs: seq<Group>) {
    |bs| > 0 && Last(bs).status == End && BeginFirst(bs)
  }

  lemma NothingPendingExactly(bs: seq<Group>)
    requires Stretch(bs) && |bs| > 0
    ensures Replay(bs).pending == [] <==> LeavesNothing(bs)
  {
    hide BeginFirst, AllMiddle, AcceptAll;
    PendingByFirst(bs);
    ReplayShape(bs);
    if Last(bs).status == End {
      EndIsNotMiddle(bs);
    }
  }

  lemma EndIsNotMiddle(bs: seq<Group>)
    requires |bs| > 0 && Last(bs).status == End
    ensures !AllMiddle(bs)
  {
  }

  /** Statuses alone tell whether a recovered context ends with an open group: one is open at
      the end of the last chunk, or at the end of an earlier one and everything merged to it
      since left nothing pending. */
  predicate KeepsOpen(c: Chunks) {
    match c
    case Chunk(bs) => |bs| > 0 && Last(bs).status != End
    case Join(l, r) =>
      KeepsOpen(r) || (KeepsOpen(l) && (|Flatten(r)| == 0 || LeavesNothing(Flatten(r))))
  }

  /** Merging a context with an open group leaves it open. */
  lemma OpenRightStaysOpen(s: State, x: State)
    requires Shape(x.pending) && Open(x.pending)
    requires Last(x.pending).status == Middle ==> |x.pending| == 1 && (|s.pending| == 0 || Open(s.pending))
    ensures Open(Merge(s, x).pending)
  {
    MergeByShape(s, x);
  }

  lemma ClosedRight(s: State, x: State)
    requires Shape(s.pending) && Shape(x.pending) && !Open(x.pending)
    ensures Open(Merge(s, x).pending) <==> Open(s.pending) && x.pending == []
  {
    MergeByShape(s, x);
  }

  /** What the stale form says about the open group. */
  lemma StaleIsOpen(pm: seq<Group>, bs: seq<Group>)
    requires Stretch(bs) && UpToStale(pm, Replay(bs).pending, bs)
    ensures Shape(pm)
    ensures pm != Replay(bs).pending <==> Open(pm) && !Open(Replay(bs).pending)
    ensures |bs| > 0 && Last(bs).status != End ==> Open(pm)
    ensures Open(pm) && Last(pm).status == Middle ==> |pm| == 1 && |bs| > 0 && bs[0].status == Middle
  {
    ReplayShape(bs);
  }

  lemma {:induction false} OpenExactly(c: Chunks)
    requires Stretch(Flatten(c))
    ensures Recover(c).Some? && (Open(Recover(c).value.pending) <==> KeepsOpen(c))
    decreases c
  {
    hide Stretch, Accept, AcceptAll, UpToStale, Shape, LeavesNothing, Open, Within, CanAcceptAll;
    RecoverIsReplay(c);
    match c
    case Chunk(bs) => ReplayShape(bs);
    case Join(l, r) =>
      var a, b := Flatten(l), Flatten(r);
      StretchParts(a, b);
      OpenExactly(l);
      OpenExactly(r);
      RecoverIsReplay(l);
      RecoverIsReplay(r);
      JoinOpen(a, b, Recover(l).value, Recover(r).value);
  }

  lemma JoinOpen(a: seq<Group>, b: seq<Group>, s: State, x: State)
    requires Stretch(a + b) && Stretch(a) && Stretch(b)
    requires UpToStale(s.pending, Replay(a).pending, a) && UpToStale(x.pending, Replay(b).pending, b)
    requires (|a| == 0 ==> s.pending == []) && (|b| == 0 ==> x.pending == [])
    ensures Open(Merge(s, x).pending) <==>
            Open(x.pending) || (Open(s.pending) && (|b| == 0 || LeavesNothing(b)))
  {
    hide Stretch, Accept, AcceptAll, UpToStale, Shape, LeavesNothing, Merge;
    StaleIsOpen(s.pending, a);
    StaleIsOpen(x.pending, b);
    StretchParts(a, b);
    if Open(x.pending) {
      OpenRightStaysOpen(s, x);
    } else {
      ClosedRight(s, x);
      if |b| > 0 {
        NothingPendingExactly(b);
      }
    }
  }

  /** Exactly when a merged context carries a stale group: it ends with an open one, and the
      stream does not. */
  lemma StaleExactly(c: Chunks)
    requires Stretch(Flatten(c))
    ensures Recover(c).Some?
    ensures Recover(c).value.pending != Replay(Flatten(c)).pending <==>
            KeepsOpen(c) && (|Flatten(c)| == 0 || Last(Flatten(c)).status == End)
  {
    hide Stretch, AcceptAll, UpToStale, KeepsOpen;
    RecoverIsReplay(c);
    OpenExactly(c);
    StaleIsOpen(Recover(c).value.pending, Flatten(c));
    ReplayShape(Flatten(c));
  }

  /** For two stretches: the left one ends inside a group, and the right one has whole groups
      only, after the Middles that could still belong to it. */
  lemma MergeStaleExactly(a: seq<Group>, b: seq<Group>)
    requires Stretch(a + b)
    ensures Merge(Replay(a), Replay(b)).pending != Replay(a + b).pending <==>
            |a| > 0 && Last(a).status != End && LeavesNothing(b)
  {
    hide LeavesNothing, Merge, Stretch, AcceptAll;
    var c := Chunks.Join(Chunks.Chunk(a), Chunks.Chunk(b));
    assert Flatten(c) == a + b;
    StaleExactly(c);
    assert LeavesNothing(b) ==> |b| > 0 && Last(b).status == End by { LastOfNothing(b); }
    assert |b| > 0 ==> Last(a + b) == Last(b);
    assert |b| == 0 ==> a + b == a;
  }

  lemma LastOfNothing(b: seq<Group>)
    ensures LeavesNothing(b) ==> |b| > 0 && Last(b).status == End
  {
  }

  /** A group is begun, another one is begun and ended: replay in order drops the first, and a
      merge keeps it. */
  lemma StaleGroup(file: FileSeq)
    ensures var g, e := Group(Begin, [], [], file, file), Group(End, [], [], file, file);
            && Merge(Replay([g]), Replay([g, e])).pending == [g]
            && Replay([g] + [g, e]).pending == []
  {
    var g, e := Group(Begin, [], [], file, file), Group(End, [], [], file, file);
    AcceptAllOne(Empty, g);
    AcceptAllTwo(Empty, g, e);
    assert [g] + [g, e] == [g, g] + [e];
    AcceptAllSnoc(Empty, [g, g], e);
    AcceptAllTwo(Empty, g, g);
    MergeByShape(Replay([g]), Replay([g, e]));
  }
}
