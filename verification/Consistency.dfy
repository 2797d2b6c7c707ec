/** Scanning a queue for holes in the log of each region, in pieces that are merged. */
module Consistency {

  /** The indexes of the entries in one log item; items of other kinds have none. */
  datatype LogItem = LogItem(region: nat, indexes: seq<nat>)

  datatype Range = Range(first: nat, last: nat)

  datatype Checker = Checker(groups: map<nat, Range>, corrupted: map<nat, nat>)

  const Fresh: Checker := Checker(map[], map[])

  /** The value that is already there, or else the new one. */
  function OrInsert(m: map<nat, nat>, id: nat, value: nat): map<nat, nat> {
    if id in m then m else m[id := value]
  }

  /** Indexes rebuilt while decoding are consecutive, so the last is not below the first. */
  predicate Ordered(items: seq<LogItem>) {
    forall i :: 0 <= i < |items| && items[i].indexes != [] ==>
      items[i].indexes[0] <= items[i].indexes[|items[i].indexes| - 1]
  }

  function Step(c: Checker, item: LogItem): Checker {
    if item.indexes == [] then c else
    var first, last := item.indexes[0], item.indexes[|item.indexes| - 1];
    var id := item.region;
    var range := if id in c.groups then c.groups[id] else Range(first, last);
    Checker(c.groups[id := Range(range.first, last)],
            if range.last + 1 < first then OrInsert(c.corrupted, id, range.last) else c.corrupted)
  }

  function Replay(c: Checker, items: seq<LogItem>): Checker {
    if items == [] then c else Step(Replay(c, items[..|items| - 1]), items[|items| - 1])
  }

  // ----------------------------------------------------------------------- merging

  predicate HoleBetween(a: Checker, b: Checker, id: nat) {
    id in a.groups && id in b.groups && a.groups[id].last + 1 < b.groups[id].first
  }

  function MergedGroups(a: map<nat, Range>, b: map<nat, Range>): map<nat, Range> {
    map id | id in a.Keys + b.Keys ::
      if id !in b then a[id] else if id !in a then b[id] else Range(a[id].first, b[id].last)
  }

  function MergedCorrupted(a: Checker, b: Checker): map<nat, nat> {
    map id | id in a.corrupted.Keys + a.groups.Keys + b.corrupted.Keys
             && (id in a.corrupted || HoleBetween(a, b, id) || id in b.corrupted) ::
      if id in a.corrupted then a.corrupted[id]
      else if HoleBetween(a, b, id) then a.groups[id].last
      else b.corrupted[id]
  }

  function Merged(a: Checker, b: Checker): Checker {
    Checker(MergedGroups(a.groups, b.groups), MergedCorrupted(a, b))
  }

  ghost predicate Valid(c: Checker) {
    c.corrupted.Keys <= c.groups.Keys
  }

  lemma {:induction false} ReplayValid(items: seq<LogItem>)
    ensures Valid(Replay(Fresh, items))
    decreases |items|
  {
    if items != [] { ReplayValid(items[..|items| - 1]); }
  }

  lemma MergeStepGroups(a: Checker, b: Checker, item: LogItem)
    ensures Merged(a, Step(b, item)).groups == Step(Merged(a, b), item).groups
  {
    hide MergedCorrupted, OrInsert;
  }

  lemma MergedAt(a: Checker, b: Checker, id: nat)
    ensures var c := Merged(a, b);
            && (id in c.groups <==> id in a.groups || id in b.groups)
            && (id in c.groups ==> c.groups[id].last == if id in b.groups then b.groups[id].last else a.groups[id].last)
            && (id in c.corrupted <==> id in a.corrupted || HoleBetween(a, b, id) || id in b.corrupted)
            && (id in c.corrupted ==> c.corrupted[id] == if id in a.corrupted then a.corrupted[id]
                                                         else if HoleBetween(a, b, id) then a.groups[id].last
                                                         else b.corrupted[id])
  {
  }

  lemma MergeStepCorrupted(a: Checker, b: Checker, item: LogItem, id: nat)
    requires Valid(b) && Ordered([item])
    ensures var x, y := Merged(a, Step(b, item)).corrupted, Step(Merged(a, b), item).corrupted;
            (id in x <==> id in y) && (id in x ==> x[id] == y[id])
  {
    hide Merged;
    assert item == [item][0];
    MergedAt(a, b, id);
    MergedAt(a, Step(b, item), id);
  }

  /** Merging and then replaying one more item is replaying it first and then merging. */
  lemma MergeStep(a: Checker, b: Checker, item: LogItem)
    requires Valid(b) && Ordered([item])
    ensures Merged(a, Step(b, item)) == Step(Merged(a, b), item)
  {
    hide MergedCorrupted, MergedGroups, Step;
    MergeStepGroups(a, b, item);
    forall id: nat
      ensures var x, y := Merged(a, Step(b, item)).corrupted, Step(Merged(a, b), item).corrupted;
              (id in x <==> id in y) && (id in x ==> x[id] == y[id])
    {
      MergeStepCorrupted(a, b, item, id);
    }
    assert Merged(a, Step(b, item)).corrupted == Step(Merged(a, b), item).corrupted;
  }

  /** The merge is a homomorphism: two pieces scanned apart and merged give exactly the ranges
      and the first holes of one sequential scan. */
  lemma {:induction false} MergeIsReplay(xs: seq<LogItem>, ys: seq<LogItem>)
    requires Ordered(ys)
    ensures Merged(Replay(Fresh, xs), Replay(Fresh, ys)) == Replay(Fresh, xs + ys)
    decreases |ys|
  {
    if ys == [] {
      assert xs + ys == xs;
      var c := Replay(Fresh, xs);
      assert MergedGroups(c.groups, map[]) == c.groups;
      assert MergedCorrupted(c, Fresh) == c.corrupted;
    } else {
      var init, item := ys[..|ys| - 1], ys[|ys| - 1];
      MergeIsReplay(xs, init);
      ReplayValid(init);
      MergeStep(Replay(Fresh, xs), Replay(Fresh, init), item);
      assert (xs + ys)[..|xs + ys| - 1] == xs + init;
    }
  }

  /** A queue cut into pieces, and the order in which the pieces are merged. */
  datatype Pieces = Piece(items: seq<LogItem>) | Join(left: Pieces, right: Pieces)

  function Stream(p: Pieces): seq<LogItem> {
    match p
    case Piece(items) => items
    case Join(l, r) => Stream(l) + Stream(r)
  }

  function Scan(p: Pieces): Checker {
    match p
    case Piece(items) => Replay(Fresh, items)
    case Join(l, r) => Merged(Scan(l), Scan(r))
  }

  /** However the queue is cut, and in whatever order the pieces are merged. */
  lemma {:induction false} ScanIsReplay(p: Pieces)
    requires Ordered(Stream(p))
    ensures Scan(p) == Replay(Fresh, Stream(p))
    decreases p
  {
    hide Merged;
    if p.Join? {
      var l, r := Stream(p.left), Stream(p.right);
      assert Ordered(l) by { forall i | 0 <= i < |l| ensures l[i] == Stream(p)[i] { } }
      assert Ordered(r) by { forall i | 0 <= i < |r| ensures r[i] == Stream(p)[|l| + i] { } }
      ScanIsReplay(p.left);
      ScanIsReplay(p.right);
      MergeIsReplay(Stream(p.left), Stream(p.right));
    }
  }

  // ------------------------------------------------------- what the records mean

  /** The index ranges of the items of one region, in order. */
  function Ranges(items: seq<LogItem>, id: nat): seq<Range> {
    if items == [] then [] else
    var item, before := items[|items| - 1], Ranges(items[..|items| - 1], id);
    if item.region == id && item.indexes != []
    then before + [Range(item.indexes[0], item.indexes[|item.indexes| - 1])] else before
  }

  ghost predicate HoleAt(rs: seq<Range>, k: nat) {
    k + 1 < |rs| && rs[k].last + 1 < rs[k + 1].first
  }

  ghost predicate FirstHole(rs: seq<Range>, k: nat) {
    HoleAt(rs, k) && forall j: nat :: j < k ==> !HoleAt(rs, j)
  }

  /** A region is reported exactly when its log has a hole, with the last index before the
      first hole; its range runs from the first index seen to the last. */
  lemma {:induction false} ReplayFindsFirstHole(items: seq<LogItem>, id: nat)
    requires Ordered(items)
    ensures Found(Replay(Fresh, items), Ranges(items, id), id)
    decreases |items|
  {
    hide Found;
    if items == [] {
      NothingFound(id);
    } else {
      var init, item := items[..|items| - 1], items[|items| - 1];
      ReplayFindsFirstHole(init, id);
      FoundStep(Replay(Fresh, init), Ranges(init, id), item, id);
    }
  }

  /** What is known of a region is what its ranges say. */
  ghost predicate Found(c: Checker, rs: seq<Range>, id: nat) {
    && (id in c.groups <==> rs != [])
    && (rs != [] ==> c.groups[id] == Range(rs[0].first, rs[|rs| - 1].last))
    && (id in c.corrupted <==> exists k: nat :: HoleAt(rs, k))
    && (forall k: nat :: FirstHole(rs, k) ==> id in c.corrupted && c.corrupted[id] == rs[k].last)
  }

  lemma NothingFound(id: nat)
    ensures Found(Fresh, [], id)
  {
  }

  lemma FoundStep(c: Checker, rs: seq<Range>, item: LogItem, id: nat)
    requires Found(c, rs, id)
    requires item.indexes != [] ==> item.indexes[0] <= item.indexes[|item.indexes| - 1]
    ensures Found(Step(c, item),
                  if item.region == id && item.indexes != []
                  then rs + [Range(item.indexes[0], item.indexes[|item.indexes| - 1])] else rs, id)
  {
    if item.region == id && item.indexes != [] {
      RangeFound(c, rs, item, Range(item.indexes[0], item.indexes[|item.indexes| - 1]), id);
    }
  }

  lemma RangeFound(c: Checker, rs: seq<Range>, item: LogItem, r: Range, id: nat)
    requires Found(c, rs, id) && item.region == id && item.indexes != []
    requires r == Range(item.indexes[0], item.indexes[|item.indexes| - 1]) && r.first <= r.last
    ensures Found(Step(c, item), rs + [r], id)
  {
    hide FirstHole, HoleAt;
    HolesOfSnoc(rs, r);
    var c', hole := Step(c, item), |rs| > 0 && rs[|rs| - 1].last + 1 < r.first;
    HoleHere(rs, r);
    assert id in c'.corrupted <==> id in c.corrupted || hole;
  }

  lemma HoleHere(rs: seq<Range>, r: Range)
    ensures |rs| > 0 && rs[|rs| - 1].last + 1 < r.first ==> HoleAt(rs + [r], |rs| - 1)
    ensures forall k: nat :: FirstHole(rs, k) ==> HoleAt(rs, k) && k < |rs|
    ensures forall k: nat :: FirstHole(rs + [r], k) ==> HoleAt(rs + [r], k) && k < |rs|
  {
  }

  /** One more range adds at most one hole, at the end. */
  lemma HolesOfSnoc(rs: seq<Range>, r: Range)
    ensures forall k: nat :: HoleAt(rs + [r], k) <==> HoleAt(rs, k) || (k + 1 == |rs| && rs[k].last + 1 < r.first)
    ensures forall k: nat :: FirstHole(rs + [r], k) ==>
              FirstHole(rs, k) || (k + 1 == |rs| && rs[k].last + 1 < r.first && forall j: nat :: !HoleAt(rs, j))
  {
  }

  // -------------------------------------------------------------------- the checker

  class ConsistencyChecker {
    var groups: map<nat, Range>
    var corrupted: map<nat, nat>

    function View(): Checker
      reads this
    {
      Checker(groups, corrupted)
    }

    constructor ()
      ensures View() == Fresh
    {
      groups, corrupted := map[], map[];
    }

    method ReplayBatch(items: seq<LogItem>)
      modifies this
      ensures View() == Replay(old(View()), items)
    {
      for i := 0 to |items|
        invariant View() == Replay(old(View()), items[..i])
      {
        assert items[..i + 1][..i] == items[..i];
        var item := items[i];
        if item.indexes != [] {
          var first, last := item.indexes[0], item.indexes[|item.indexes| - 1];
          var id := item.region;
          var range := if id in groups then groups[id] else Range(first, last);
          if range.last + 1 < first && id !in corrupted {
            corrupted := corrupted[id := range.last];
          }
          groups := groups[id := Range(range.first, last)];
        }
      }
      assert items[..|items|] == items;
    }

    /** Takes over what `rhs` found in the part of the queue that follows. */
    method Merge(rhs: Checker)
      modifies this
      ensures View() == Merged(old(View()), rhs)
    {
      hide MergedGroups, MergedCorrupted;
      ghost var before := View();
      var all, between := JoinRanges(groups, rhs.groups);
      groups := all;
      var found := InsertMissing(corrupted, between);
      found := InsertMissing(found, rhs.corrupted);
      CorruptedIs(before, rhs);
      corrupted := found;
    }
  }

  lemma CorruptedIs(a: Checker, b: Checker)
    ensures b.corrupted + (Holes(a.groups, b.groups) + a.corrupted) == MergedCorrupted(a, b)
  {
    var x, y := b.corrupted + (Holes(a.groups, b.groups) + a.corrupted), MergedCorrupted(a, b);
    forall id: nat ensures (id in x <==> id in y) && (id in x ==> x[id] == y[id]) {
      assert id in Holes(a.groups, b.groups) <==> HoleBetween(a, b, id);
    }
  }

  /** Regions with a hole between two parts, and their last index before it. */
  function Holes(a: map<nat, Range>, b: map<nat, Range>): map<nat, nat> {
    map id | id in a && id in b && a[id].last + 1 < b[id].first :: a[id].last
  }

  lemma JoinStep(a: map<nat, Range>, b: map<nat, Range>, id: nat, range: Range)
    requires id !in b
    ensures var all := MergedGroups(a, b);
            && (id in all <==> id in a) && (id in a ==> all[id] == a[id])
            && MergedGroups(a, b[id := range]) == all[id := if id in a then Range(a[id].first, range.last) else range]
    ensures Holes(a, b[id := range]) ==
            if id in a && a[id].last + 1 < range.first then Holes(a, b)[id := a[id].last] else Holes(a, b)
  {
  }

  method JoinRanges(a: map<nat, Range>, b: map<nat, Range>) returns (all: map<nat, Range>, between: map<nat, nat>)
    ensures all == MergedGroups(a, b) && between == Holes(a, b)
  {
    hide MergedGroups, Holes;
    all, between := a, map[];
    ghost var done: map<nat, Range> := map[];
    JoinNone(a);
    var ids := b.Keys;
    while ids != {}
      invariant ids <= b.Keys && done.Keys == b.Keys - ids && forall id :: id in done ==> done[id] == b[id]
      invariant all == MergedGroups(a, done) && between == Holes(a, done)
      decreases |ids|
    {
      var id :| id in ids;
      JoinStep(a, done, id, b[id]);
      if id in all {
        if all[id].last + 1 < b[id].first {
          between := between[id := all[id].last];
        }
        all := all[id := Range(all[id].first, b[id].last)];
      } else {
        all := all[id := b[id]];
      }
      done := done[id := b[id]];
      ids := ids - {id};
    }
    assert done == b;
  }

  lemma JoinNone(a: map<nat, Range>)
    ensures MergedGroups(a, map[]) == a && Holes(a, map[]) == map[]
  {
  }

  method InsertMissing(m: map<nat, nat>, more: map<nat, nat>) returns (all: map<nat, nat>)
    ensures all == more + m
  {
    all := m;
    var ids := more.Keys;
    while ids != {}
      invariant ids <= more.Keys && all == (more - ids) + m
      decreases |ids|
    {
      var id :| id in ids;
      if id !in all {
        all := all[id := more[id]];
      }
      ids := ids - {id};
    }
    assert more - {} == more;
  }
}
