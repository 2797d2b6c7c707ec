/**
 Recovery of the append queue: the files are cut into chunks, each chunk is replayed in a
 context of its own, and neighbouring contexts are merged. Here: whatever the cuts and
 whatever the order of merging, the result is the state the live engine had.
 */
module ReplayMerge {
  import opened PipeLog
  import opened Tables

  datatype Content =
    | Entries(es: seq<EntryIndex>)
    | Clean
    | Compact(index: nat)
    | PutKv(key: Bytes, value: Bytes, id: FileId)
    | DelKv(key: Bytes)

  datatype Item = Item(region: nat, content: Content)

  /** Tables by region, tombstones of cleaned regions, and items to pass on when merged. */
  datatype Context = Context(tables: map<nat, Table>, removed: seq<nat>, tombs: seq<Item>)

  const EmptyContext := Context(map[], [], [])

  /** The reserved atomic-group key: prefix "__", then 1. */
  const InternalKey: Bytes := [0x5f, 0x5f, 0x01]

  predicate HasInternalKey(it: Item) {
    (it.content.PutKv? || it.content.DelKv?) && it.content.key == InternalKey
  }

  predicate IsTombstone(it: Item) {
    it.content.Clean? || it.content.Compact? || it.content.DelKv?
  }

  /** The tombstones among `items`, in order. */
  function Tombstones(items: seq<Item>): seq<Item> {
    if items == [] then [] else
    var rest, last := Tombstones(items[..|items| - 1]), items[|items| - 1];
    if IsTombstone(last) then rest + [last] else rest
  }

  lemma {:induction false} TombstonesConcat(a: seq<Item>, b: seq<Item>)
    ensures Tombstones(a + b) == Tombstones(a) + Tombstones(b)
    decreases |b|
  {
    if |b| == 0 {
      assert a + b == a;
    } else {
      TombstonesConcat(a, b[..|b| - 1]);
      assert (a + b)[..|a + b| - 1] == a + b[..|b| - 1];
    }
  }

  /** Batches hold consecutive indexes and come from the append queue. */
  predicate WellFormed(it: Item) {
    it.content.Entries? ==>
      && Consecutive(it.content.es)
      && forall k :: 0 <= k < |it.content.es| ==> it.content.es[k].loc.Queue() == AppendQueue
  }

  /** Only append data: nothing is rewritten. */
  predicate AppendOnly(tables: map<nat, Table>) {
    forall r :: r in tables ==> tables[r].rewriteCount == 0
  }

  function TableOf(tables: map<nat, Table>, r: nat): Table {
    if r in tables then tables[r] else EmptyTable
  }

  // ------------------------------------------------------------ single items

  /** The effect on one table of anything but `Clean`. */
  function OnTable(t: Table, c: Content): (t': Table)
    requires t.rewriteCount == 0 && !c.Clean?
    ensures t'.rewriteCount == 0
  {
    match c
    case Entries(es) => Appended(t, es)
    case Compact(index) => CompactTo(t, index)
    case PutKv(key, value, id) => Put(t, key, value, id)
    case DelKv(key) => Delete(t, key)
  }

  /** Whether replay accepts the item: entries must not leave a hole. */
  predicate Replayable(t: Table, c: Content) {
    c.Entries? && |c.es| > 0 ==> Accepts(t, c.es[0].index, false, true)
  }

  /** What the live engine promises of its history: no hole, no overwrite of compacted
      slots, and a compaction never reaches past the last entry. */
  predicate LiveAllows(t: Table, c: Content) {
    match c
    case Entries(es) => |es| > 0 ==> Accepts(t, es[0].index, false, false)
    case Compact(index) => |t.entries| > 0 ==> index < t.End()
    case _ => true
  }

  /** Apply and replay make the same change; they differ in what they panic on. */
  function Step(c: Context, it: Item): (c': Context)
    requires AppendOnly(c.tables)
    ensures AppendOnly(c'.tables)
  {
    if HasInternalKey(it) then c else
    match it.content
    case Clean => c.(tables := c.tables - {it.region}, removed := c.removed + [it.region])
    case _ => c.(tables := c.tables[it.region := OnTable(TableOf(c.tables, it.region), it.content)])
  }

  /** One item of replay: tombstones are also remembered. */
  function ReplayItem(c: Context, it: Item): (c': Context)
    requires AppendOnly(c.tables)
    ensures AppendOnly(c'.tables)
  {
    Step(c, it).(tombs := if IsTombstone(it) then c.tombs + [it] else c.tombs)
  }

  predicate CanReplay(c: Context, it: Item) {
    HasInternalKey(it) || Replayable(TableOf(c.tables, it.region), it.content)
  }

  // ---------------------------------------------------------------- sequences

  /** Replay of a stretch of history; `None` is a panic. */
  function Replay(items: seq<Item>): (r: Option<Context>)
    ensures r.Some? ==> AppendOnly(r.value.tables)
  {
    if |items| == 0 then Some(EmptyContext) else
    var n := |items| - 1;
    match Replay(items[..n])
    case None => None
    case Some(c) => if CanReplay(c, items[n]) then Some(ReplayItem(c, items[n])) else None
  }

  /** Applies items in order, without recording tombstones. */
  function Steps(c: Context, items: seq<Item>): (c': Context)
    requires AppendOnly(c.tables)
    ensures AppendOnly(c'.tables)
    decreases |items|
  {
    if |items| == 0 then c else Step(Steps(c, items[..|items| - 1]), items[|items| - 1])
  }

  /** A history the live engine accepts, starting from `c`. */
  predicate LiveHistory(c: Context, items: seq<Item>)
    requires AppendOnly(c.tables)
    decreases |items|
  {
    |items| == 0 ||
    var n := |items| - 1;
    && LiveHistory(c, items[..n])
    && WellFormed(items[n])
    && (HasInternalKey(items[n]) || LiveAllows(TableOf(Steps(c, items[..n]).tables, items[n].region), items[n].content))
  }

  // ------------------------------------------------------------------ merging

  predicate CanMergeTables(l: map<nat, Table>, r: map<nat, Table>) {
    forall id :: id in r && |r[id].entries| > 0 ==> Accepts(TableOf(l, id), r[id].first, false, true)
  }

  function MergeTables(l: map<nat, Table>, r: map<nat, Table>): (m: map<nat, Table>)
    requires AppendOnly(l) && AppendOnly(r)
    ensures AppendOnly(m)
  {
    map id | id in l.Keys + r.Keys ::
      if id in r then MergeNewerNeighbor(TableOf(l, id), r[id]) else l[id]
  }

  /** Replays the right context's tombstones on the left one, then merges table by table. */
  function Merge(l: Context, r: Context): (m: Option<Context>)
    requires AppendOnly(l.tables) && AppendOnly(r.tables)
    ensures m.Some? ==> AppendOnly(m.value.tables)
  {
    var l' := Steps(l, r.tombs);
    if CanMergeTables(l'.tables, r.tables)
    then Some(Context(MergeTables(l'.tables, r.tables), l'.removed, l.tombs + r.tombs)) else None
  }

  /** A way to cut a history and to bracket the merges. */
  datatype Chunks = Chunk(items: seq<Item>) | Join(left: Chunks, right: Chunks)

  function Flatten(c: Chunks): seq<Item> {
    match c
    case Chunk(items) => items
    case Join(l, r) => Flatten(l) + Flatten(r)
  }

  function Recover(c: Chunks): (m: Option<Context>)
    ensures m.Some? ==> AppendOnly(m.value.tables)
  {
    match c
    case Chunk(items) => Replay(items)
    case Join(l, r) =>
      var lc, rc := Recover(l), Recover(r);
      if lc.Some? && rc.Some? then Merge(lc.value, rc.value) else None
  }

  // -------------------------------------------------------- tables and chunks

  /** Merging an empty table changes nothing. */
  lemma MergeEmpty(s: Table)
    requires s.rewriteCount <= |s.entries|
    ensures MergeNewerNeighbor(s, EmptyTable) == s
  {
    assert s.kvs + map[] == s.kvs;
  }

  /** Two tables with the same span and the same entry at every index. */
  lemma SameEntries(a: Table, b: Table)
    requires a.first == b.first && a.End() == b.End()
    requires forall i: nat :: a.Get(i) == b.Get(i)
    ensures a.entries == b.entries
  {
    forall k | 0 <= k < |a.entries|
      ensures a.entries[k] == b.entries[k]
    {
      assert a.Get(a.first + k) == Some(a.entries[k]) && b.Get(a.first + k) == Some(b.entries[k]);
    }
  }

  /** Where the merged table starts. */
  lemma MergedSpan(s: Table, x: Table)
    requires s.rewriteCount == 0 && x.rewriteCount == 0 && |x.entries| > 0
    requires Accepts(s, x.first, false, true)
    ensures var m := MergeNewerNeighbor(s, x);
            && m.End() == x.End()
            && m.first == if |s.entries| > 0 && s.first <= x.first then s.first else x.first
  {
  }

  /** Where a table starts after a batch. */
  lemma AppendedSpan(t: Table, es: seq<EntryIndex>)
    requires t.rewriteCount == 0 && |es| > 0 && Accepts(t, es[0].index, false, true)
    ensures var r := Appended(t, es);
            && r.End() == es[0].index + |es| && |r.entries| > 0
            && r.first == (if |t.entries| > 0 && t.first <= es[0].index then t.first else es[0].index)
            && r.kvs == t.kvs && r.group == t.group
  {
  }

  /** An entry batch, applied to the right table before merging or to the merged table. */
  lemma MergeThenAppend(s: Table, x: Table, es: seq<EntryIndex>)
    requires s.rewriteCount == 0 && x.rewriteCount == 0 && |es| > 0 && Consecutive(es)
    requires |x.entries| > 0 ==> Accepts(s, x.first, false, true)
    requires Accepts(MergeNewerNeighbor(s, x), es[0].index, false, true)
    ensures Accepts(x, es[0].index, false, true)
    ensures Accepts(s, Appended(x, es).first, false, true)
    ensures MergeNewerNeighbor(s, Appended(x, es)) == Appended(MergeNewerNeighbor(s, x), es)
  {
    hide Consecutive, MergeNewerNeighbor, Appended;
    if |x.entries| == 0 {
      MergedNothing(s, x);
    } else {
      MergedSpan(s, x);
    }
    AppendedSpan(x, es);
    MergedAppend(s, x, es);
  }

  lemma MergedNothing(s: Table, x: Table)
    requires s.rewriteCount == 0 && x.rewriteCount == 0 && |x.entries| == 0
    ensures MergeNewerNeighbor(s, x).entries == s.entries && MergeNewerNeighbor(s, x).first == s.first
  {
  }

  /** Compaction below the end keeps the table non-empty. */
  lemma CompactedSpan(t: Table, index: nat)
    requires t.rewriteCount == 0 && |t.entries| > 0 && index < t.End()
    ensures var r := CompactTo(t, index);
            |r.entries| > 0 && r.first == Max(t.first, index) && r.End() == t.End()
  {
  }

  lemma CompactKeepsAccepts(s: Table, x: Table, index: nat)
    requires s.rewriteCount == 0 && x.rewriteCount == 0
    requires |x.entries| > 0 && Accepts(s, x.first, false, true) && index < x.End()
    ensures Accepts(CompactTo(s, index), CompactTo(x, index).first, false, true)
  {
  }

  /** Both sides of a compaction read the same at every index. */
  lemma MergeThenCompactGet(s: Table, x: Table, index: nat, i: nat)
    requires s.rewriteCount == 0 && x.rewriteCount == 0
    requires |x.entries| > 0 && Accepts(s, x.first, false, true) && index < x.End()
    ensures MergeNewerNeighbor(CompactTo(s, index), CompactTo(x, index)).Get(i) ==
            CompactTo(MergeNewerNeighbor(s, x), index).Get(i)
  {
    CompactedSpan(x, index);
    CompactKeepsAccepts(s, x, index);
    MergeGet(CompactTo(s, index), CompactTo(x, index), i);
    CompactGet(s, index, i);
    CompactGet(x, index, i);
    CompactGet(MergeNewerNeighbor(s, x), index, i);
    MergeGet(s, x, i);
  }

  /** A compaction, passed on to both sides or applied to the merged table. */
  lemma MergeThenCompact(s: Table, x: Table, index: nat)
    requires s.rewriteCount == 0 && x.rewriteCount == 0
    requires |x.entries| > 0 ==> Accepts(s, x.first, false, true)
    requires |MergeNewerNeighbor(s, x).entries| > 0 ==> index < MergeNewerNeighbor(s, x).End()
    ensures |CompactTo(x, index).entries| > 0 ==> Accepts(CompactTo(s, index), CompactTo(x, index).first, false, true)
    ensures MergeNewerNeighbor(CompactTo(s, index), CompactTo(x, index)) == CompactTo(MergeNewerNeighbor(s, x), index)
  {
    hide MergeNewerNeighbor, CompactTo, Accepts;
    if |x.entries| == 0 {
      MergeThenCompactLeft(s, x, index);
    } else {
      MergedSpan(s, x);
      MergeThenCompactBoth(s, x, index);
    }
  }

  lemma MergeThenCompactLeft(s: Table, x: Table, index: nat)
    requires s.rewriteCount == 0 && x.rewriteCount == 0 && |x.entries| == 0
    ensures |CompactTo(x, index).entries| == 0
    ensures MergeNewerNeighbor(CompactTo(s, index), CompactTo(x, index)) == CompactTo(MergeNewerNeighbor(s, x), index)
  {
    MergedNothing(s, x);
    assert CompactTo(s, index).entries + [] == CompactTo(s, index).entries;
  }

  lemma MergeThenCompactBoth(s: Table, x: Table, index: nat)
    requires s.rewriteCount == 0 && x.rewriteCount == 0
    requires |x.entries| > 0 && Accepts(s, x.first, false, true) && index < x.End()
    ensures Accepts(CompactTo(s, index), CompactTo(x, index).first, false, true)
    ensures MergeNewerNeighbor(CompactTo(s, index), CompactTo(x, index)) == CompactTo(MergeNewerNeighbor(s, x), index)
  {
    var m, s', x' := MergeNewerNeighbor(s, x), CompactTo(s, index), CompactTo(x, index);
    var l, r := MergeNewerNeighbor(s', x'), CompactTo(m, index);
    hide MergeNewerNeighbor, CompactTo, Accepts;
    CompactedRest(s, x, index);
    MergedSpan(s, x);
    CompactedSpan(x, index);
    CompactedSpan(m, index);
    CompactKeepsAccepts(s, x, index);
    MergedSpan(s', x');
    assert l.first == r.first by { CompactedFirst(s, x, index); }
    forall i: nat
      ensures l.Get(i) == r.Get(i)
    {
      MergeThenCompactGet(s, x, index, i);
    }
    SameEntries(l, r);
  }

  lemma CompactedRest(s: Table, x: Table, index: nat)
    requires s.rewriteCount == 0 && x.rewriteCount == 0
    ensures var l, r := MergeNewerNeighbor(CompactTo(s, index), CompactTo(x, index)), CompactTo(MergeNewerNeighbor(s, x), index);
            l.kvs == r.kvs && l.group == r.group && l.rewriteCount == 0 && r.rewriteCount == 0
  {
    hide MergeNewerNeighbor, CompactTo;
    CompactRest(s, index);
    CompactRest(x, index);
    CompactRest(MergeNewerNeighbor(s, x), index) by { MergeRest(s, x); }
    MergeRest(s, x);
    MergeRest(CompactTo(s, index), CompactTo(x, index));
  }

  lemma CompactRest(t: Table, index: nat)
    requires t.rewriteCount == 0
    ensures var r := CompactTo(t, index); r.kvs == t.kvs && r.group == t.group && r.rewriteCount == 0
  {
  }

  lemma MergeRest(s: Table, x: Table)
    requires s.rewriteCount == 0 && x.rewriteCount == 0
    ensures var m := MergeNewerNeighbor(s, x);
            && m.kvs == s.kvs + x.kvs && m.rewriteCount == 0
            && m.group == if x.group.Some? then x.group else s.group
  {
  }

  lemma CompactedFirst(s: Table, x: Table, index: nat)
    requires s.rewriteCount == 0 && x.rewriteCount == 0
    requires |x.entries| > 0 && Accepts(s, x.first, false, true) && index < x.End()
    ensures MergeNewerNeighbor(CompactTo(s, index), CompactTo(x, index)).first == CompactTo(MergeNewerNeighbor(s, x), index).first
  {
  }

  /** What a recovered stretch needs of the next item; the live engine guarantees it. */
  predicate Safe(t: Table, c: Content) {
    Replayable(t, c) && (c.Compact? && |t.entries| > 0 ==> c.index < t.End())
  }

  predicate SafeItem(c: Context, it: Item) {
    HasInternalKey(it) || Safe(TableOf(c.tables, it.region), it.content)
  }

  /** One item commutes with merging two tables: a tombstone goes to both sides. */
  lemma MergeThenOnTable(s: Table, x: Table, c: Content)
    requires s.rewriteCount == 0 && x.rewriteCount == 0 && !c.Clean? && WellFormed(Item(0, c))
    requires |x.entries| > 0 ==> Accepts(s, x.first, false, true)
    requires Safe(MergeNewerNeighbor(s, x), c)
    ensures Replayable(x, c)
    ensures var s', x' := if IsTombstone(Item(0, c)) then OnTable(s, c) else s, OnTable(x, c);
            && (|x'.entries| > 0 ==> Accepts(s', x'.first, false, true))
            && MergeNewerNeighbor(s', x') == OnTable(MergeNewerNeighbor(s, x), c)
  {
    hide MergeNewerNeighbor, CompactTo, PrepareAppend, Locations;
    match c
    case Entries(es) =>
      if |es| > 0 {
        MergeThenAppend(s, x, es);
      }
    case Compact(index) => MergeThenCompact(s, x, index);
    case PutKv(key, value, id) => MergeThenPut(s, x, key, value, id);
    case DelKv(key) => MergeThenDelete(s, x, key);
  }

  lemma MergeThenPut(s: Table, x: Table, key: Bytes, value: Bytes, id: FileId)
    requires s.rewriteCount == 0 && x.rewriteCount == 0
    ensures MergeNewerNeighbor(s, Put(x, key, value, id)) == Put(MergeNewerNeighbor(s, x), key, value, id)
  {
    hide PrepareAppend;
    assert s.kvs + x.kvs[key := Slot(value, id)] == (s.kvs + x.kvs)[key := Slot(value, id)];
  }

  lemma MergeThenDelete(s: Table, x: Table, key: Bytes)
    requires s.rewriteCount == 0 && x.rewriteCount == 0
    ensures MergeNewerNeighbor(Delete(s, key), Delete(x, key)) == Delete(MergeNewerNeighbor(s, x), key)
  {
    assert (s.kvs - {key}) + (x.kvs - {key}) == (s.kvs + x.kvs) - {key};
  }

  /** Tombstones replayed on the left: one more of them. */
  lemma StepsSnoc(c: Context, items: seq<Item>, it: Item)
    requires AppendOnly(c.tables)
    ensures Steps(c, items + [it]) == Step(Steps(c, items), it)
  {
    assert (items + [it])[..|items|] == items;
  }

  /** Changing region `r` on the right, and perhaps on the left, changes it in the merge. */
  lemma MergeTablesUpdate(l: map<nat, Table>, l': map<nat, Table>, x: map<nat, Table>, r: nat, xt: Table)
    requires AppendOnly(l) && AppendOnly(l') && AppendOnly(x) && xt.rewriteCount == 0
    requires l' == l || (r in l' && l' == l[r := l'[r]])
    ensures MergeTables(l', x[r := xt]) == MergeTables(l, x)[r := MergeNewerNeighbor(TableOf(l', r), xt)]
  {
    hide MergeNewerNeighbor, MergeTables, AppendOnly;
    var x' := x[r := xt];
    AppendOnlyUpdate(x, r, xt);
    AppendOnlyTable(l', r);
    var a, b := MergeTables(l', x'), MergeTables(l, x)[r := MergeNewerNeighbor(TableOf(l', r), xt)];
    MergeTablesKeys(l', x');
    MergeTablesKeys(l, x);
    assert a.Keys == b.Keys;
    forall id | id in a
      ensures a[id] == b[id]
    {
      MergedTableOf(l', x', id);
      MergedTableOf(l, x, id);
    }
  }

  lemma AppendOnlyTable(l: map<nat, Table>, r: nat)
    requires AppendOnly(l)
    ensures TableOf(l, r).rewriteCount == 0
  {
  }

  lemma AppendOnlyUpdate(x: map<nat, Table>, r: nat, xt: Table)
    requires AppendOnly(x) && xt.rewriteCount == 0
    ensures AppendOnly(x[r := xt])
  {
  }

  lemma MergeTablesKeys(l: map<nat, Table>, x: map<nat, Table>)
    requires AppendOnly(l) && AppendOnly(x)
    ensures MergeTables(l, x).Keys == l.Keys + x.Keys
  {
  }

  lemma CanMergeUpdate(l: map<nat, Table>, l': map<nat, Table>, x: map<nat, Table>, r: nat, xt: Table)
    requires CanMergeTables(l, x)
    requires l' == l || (r in l' && l' == l[r := l'[r]])
    requires |xt.entries| > 0 ==> Accepts(TableOf(l', r), xt.first, false, true)
    ensures CanMergeTables(l', x[r := xt])
  {
  }

  lemma MergeTablesRemove(l: map<nat, Table>, x: map<nat, Table>, r: nat)
    requires AppendOnly(l) && AppendOnly(x) && CanMergeTables(l, x)
    ensures CanMergeTables(l - {r}, x - {r})
    ensures MergeTables(l - {r}, x - {r}) == MergeTables(l, x) - {r}
  {
  }

  lemma MergedTableOf(l: map<nat, Table>, x: map<nat, Table>, r: nat)
    requires AppendOnly(l) && AppendOnly(x)
    ensures TableOf(MergeTables(l, x), r) == MergeNewerNeighbor(TableOf(l, r), TableOf(x, r))
  {
    MergeEmpty(TableOf(l, r));
  }

  /** Merging two contexts and then replaying an item is the same as replaying it on the
      right context first; nothing panics on the way. */
  lemma MergeThenItem(s: Context, x: Context, it: Item)
    requires AppendOnly(s.tables) && AppendOnly(x.tables) && WellFormed(it)
    requires Merge(s, x).Some? && SafeItem(Merge(s, x).value, it)
    ensures CanReplay(x, it)
    ensures Merge(s, ReplayItem(x, it)) == Some(ReplayItem(Merge(s, x).value, it))
  {
    var l, r := Steps(s, x.tombs), it.region;
    var l' := if IsTombstone(it) then Step(l, it) else l;
    assert Steps(s, ReplayItem(x, it).tombs) == l' by { StepsSnoc(s, x.tombs, it); }
    assert s.tombs + (x.tombs + [it]) == (s.tombs + x.tombs) + [it];
    if HasInternalKey(it) {
    } else if it.content.Clean? {
      MergeTablesRemove(l.tables, x.tables, r);
    } else {
      var lt, xt := TableOf(l.tables, r), TableOf(x.tables, r);
      MergedTableOf(l.tables, x.tables, r);
      MergeThenOnTable(lt, xt, it.content);
      CanMergeUpdate(l.tables, l'.tables, x.tables, r, OnTable(xt, it.content));
      MergeTablesUpdate(l.tables, l'.tables, x.tables, r, OnTable(xt, it.content));
    }
  }

  // ------------------------------------------------------- stretches of history

  /** A recovered stretch agrees with the live engine on where each log ends. */
  ghost predicate Tracks(p: Context, live: Context) {
    forall r :: r in p.tables && |p.tables[r].entries| > 0 ==>
                  && r in live.tables && |live.tables[r].entries| > 0
                  && p.tables[r].End() == live.tables[r].End()
  }

  /** What the live engine allows is safe for a stretch that tracks it, and it still
      tracks it afterwards. */
  lemma TracksStep(p: Context, live: Context, it: Item)
    requires AppendOnly(p.tables) && AppendOnly(live.tables) && Tracks(p, live) && WellFormed(it)
    requires HasInternalKey(it) || LiveAllows(TableOf(live.tables, it.region), it.content)
    ensures SafeItem(p, it)
    ensures Tracks(ReplayItem(p, it), Step(live, it))
  {
    hide Consecutive;
    if !HasInternalKey(it) && !it.content.Clean? {
      var pt, lt := TableOf(p.tables, it.region), TableOf(live.tables, it.region);
      match it.content
      case Entries(es) =>
        if |es| > 0 {
          AppendedSpan(pt, es);
          AppendedSpan(lt, es);
        }
      case Compact(index) =>
        if |pt.entries| > 0 {
          CompactedSpan(pt, index);
          CompactedSpan(lt, index);
        }
      case _ =>
    }
  }

  /** Any stretch of a live history replays without a panic and tracks the engine. */
  lemma {:induction false} StretchReplays(live: Context, items: seq<Item>)
    requires AppendOnly(live.tables) && LiveHistory(live, items)
    ensures Replay(items).Some? && Tracks(Replay(items).value, Steps(live, items))
    decreases |items|
  {
    if |items| > 0 {
      var n := |items| - 1;
      StretchReplays(live, items[..n]);
      TracksStep(Replay(items[..n]).value, Steps(live, items[..n]), items[n]);
    }
  }

  lemma {:induction false} StepsConcat(c: Context, a: seq<Item>, b: seq<Item>)
    requires AppendOnly(c.tables)
    ensures Steps(c, a + b) == Steps(Steps(c, a), b)
    ensures LiveHistory(c, a + b) <==> LiveHistory(c, a) && LiveHistory(Steps(c, a), b)
    decreases |b|
  {
    if |b| == 0 {
      assert a + b == a;
    } else {
      var n := |b| - 1;
      assert (a + b)[..|a + b| - 1] == a + b[..n];
      StepsConcat(c, a, b[..n]);
    }
  }

  /** Two neighbouring stretches, replayed apart and merged, are one stretch. */
  lemma {:induction false} MergeIsReplay(live: Context, a: seq<Item>, b: seq<Item>)
    requires AppendOnly(live.tables) && LiveHistory(live, a + b)
    ensures Replay(a).Some? && Replay(b).Some? && Replay(a + b).Some?
    ensures Merge(Replay(a).value, Replay(b).value) == Replay(a + b)
    decreases |b|
  {
    hide Step;
    StepsConcat(live, a, b);
    StretchReplays(live, a);
    StretchReplays(Steps(live, a), b);
    StretchReplays(live, a + b);
    if |b| == 0 {
      assert a + b == a;
      var c := Replay(a).value;
      assert MergeTables(c.tables, map[]) == c.tables;
      assert c.tombs + [] == c.tombs;
    } else {
      var n := |b| - 1;
      assert (a + b)[..|a + b| - 1] == a + b[..n];
      assert LiveHistory(live, a + b[..n]);
      MergeIsReplay(live, a, b[..n]);
      StretchReplays(live, a + b[..n]);
      TracksStep(Replay(a + b[..n]).value, Steps(live, a + b[..n]), b[n]);
      MergeThenItem(Replay(a).value, Replay(b[..n]).value, b[n]);
    }
  }

  lemma {:induction false} RecoverIsReplay(live: Context, c: Chunks)
    requires AppendOnly(live.tables) && LiveHistory(live, Flatten(c))
    ensures Recover(c).Some? && Recover(c) == Replay(Flatten(c))
    decreases c
  {
    match c
    case Chunk(items) => StretchReplays(live, items);
    case Join(l, r) =>
      StepsConcat(live, Flatten(l), Flatten(r));
      RecoverIsReplay(live, l);
      RecoverIsReplay(Steps(live, Flatten(l)), r);
      MergeIsReplay(live, Flatten(l), Flatten(r));
  }

  /** Replay of a whole history makes the same tables and tombstones as applying it. */
  lemma {:induction false} ReplayIsApply(items: seq<Item>)
    requires LiveHistory(EmptyContext, items)
    ensures Replay(items).Some?
    ensures Replay(items).value.tables == Steps(EmptyContext, items).tables
    ensures Replay(items).value.removed == Steps(EmptyContext, items).removed
    decreases |items|
  {
    StretchReplays(EmptyContext, items);
    if |items| > 0 {
      ReplayIsApply(items[..|items| - 1]);
    }
  }

  /**
   Chunked replay equals sequential apply. However a live history is cut, and in whatever
   order the pieces are merged, recovery does not panic and ends with exactly the tables
   and the Clean tombstones of the live engine.
   */
  lemma ChunkedReplayIsApply(c: Chunks)
    requires LiveHistory(EmptyContext, Flatten(c))
    ensures Recover(c).Some?
    ensures Recover(c).value.tables == Steps(EmptyContext, Flatten(c)).tables
    ensures Recover(c).value.removed == Steps(EmptyContext, Flatten(c)).removed
  {
    RecoverIsReplay(EmptyContext, c);
    ReplayIsApply(Flatten(c));
  }
}
