/** The recovery contexts as the code updates them: tables, tombstones and pending groups. */
module RecoverContexts {
  import opened PipeLog
  import opened Tables
  import RM = ReplayMerge
  import AG = AtomicGroups

  /** Replaying the items one by one meets no panic. */
  ghost predicate Replays(c: RM.Context, items: seq<RM.Item>)
    requires RM.AppendOnly(c.tables)
  {
    forall n :: 0 <= n < |items| ==> RM.CanReplay(RM.Steps(c, items[..n]), items[n])
  }

  class RecoverContext {
    var tables: map<nat, Table>
    var removed: seq<nat>
    var tombs: seq<RM.Item>

    function View(): RM.Context
      reads this
    {
      RM.Context(tables, removed, tombs)
    }

    constructor ()
      ensures View() == RM.EmptyContext
    {
      tables, removed, tombs := map[], [], [];
    }

    /** Replays items of the append queue into the tables. */
    method ReplayAppendWrites(items: seq<RM.Item>)
      requires RM.AppendOnly(tables) && Replays(View(), items)
      modifies this`tables, this`removed
      ensures View() == RM.Steps(old(View()), items)
    {
      hide Appended, CompactTo;
      for i := 0 to |items|
        invariant View() == RM.Steps(old(View()), items[..i]) && RM.AppendOnly(tables)
      {
        assert items[..i + 1][..i] == items[..i];
        var it := items[i];
        if !RM.HasInternalKey(it) {
          var t := if it.region in tables then tables[it.region] else EmptyTable;
          match it.content {
            case Entries(es) => tables := tables[it.region := Appended(t, es)];
            case Clean =>
              tables := tables - {it.region};
              removed := removed + [it.region];
            case Compact(index) => tables := tables[it.region := CompactTo(t, index)];
            case PutKv(key, value, id) => tables := tables[it.region := Put(t, key, value, id)];
            case DelKv(key) => tables := tables[it.region := Delete(t, key)];
          }
        }
      }
      assert items[..|items|] == items;
    }

    /** One batch of the append queue. */
    method ReplayBatch(items: seq<RM.Item>)
      requires RM.AppendOnly(tables) && Replays(View(), items)
      modifies this
      ensures View() == RM.Steps(old(View()), items).(tombs := old(tombs) + RM.Tombstones(items))
    {
      var found: seq<RM.Item> := [];
      for i := 0 to |items|
        invariant found == RM.Tombstones(items[..i])
      {
        assert items[..i + 1][..i] == items[..i];
        if RM.IsTombstone(items[i]) { found := found + [items[i]]; }
      }
      assert items[..|items|] == items;
      ReplayAppendWrites(items);
      tombs := tombs + found;
    }

    /** Takes the tables of a newer neighbour, region by region. */
    method MergeNewerTables(rhs: map<nat, Table>)
      requires RM.AppendOnly(tables) && RM.AppendOnly(rhs) && RM.CanMergeTables(tables, rhs)
      modifies this`tables
      ensures tables == RM.MergeTables(old(tables), rhs)
    {
      hide RM.MergeTables, MergeNewerNeighbor;
      var all := tables;
      ghost var l := tables;
      ghost var done: map<nat, Table> := map[];
      MergeNone(l);
      var ids := rhs.Keys;
      while ids != {}
        invariant ids <= rhs.Keys && done.Keys == rhs.Keys - ids && (forall id :: id in done ==> done[id] == rhs[id])
        invariant RM.AppendOnly(done) && RM.AppendOnly(all) && all == RM.MergeTables(l, done)
        decreases |ids|
      {
        var id :| id in ids;
        MergeOne(l, done, id, rhs[id]);
        var t := if id in all then all[id] else EmptyTable;
        all := all[id := MergeNewerNeighbor(t, rhs[id])];
        done := done[id := rhs[id]];
        ids := ids - {id};
      }
      assert done == rhs;
      tables := all;
    }

    /** Merges the context of the part of the queue that follows. */
    method Merge(rhs: RM.Context)
      requires RM.AppendOnly(tables) && RM.AppendOnly(rhs.tables) && RM.Merge(View(), rhs).Some?
      requires forall i :: 0 <= i < |rhs.tombs| ==> RM.IsTombstone(rhs.tombs[i])
      modifies this
      ensures Some(View()) == RM.Merge(old(View()), rhs)
    {
      TombstonesReplay(View(), rhs.tombs);
      ReplayAppendWrites(rhs.tombs);
      tombs := tombs + rhs.tombs;
      MergeNewerTables(rhs.tables);
    }
  }

  lemma MergeNone(l: map<nat, Table>)
    requires RM.AppendOnly(l)
    ensures RM.MergeTables(l, map[]) == l
  {
  }

  lemma MergeOne(l: map<nat, Table>, r: map<nat, Table>, id: nat, t: Table)
    requires RM.AppendOnly(l) && RM.AppendOnly(r) && id !in r && t.rewriteCount == 0
    ensures var m := RM.MergeTables(l, r);
            && RM.AppendOnly(r[id := t]) && (id in m <==> id in l) && (id in l ==> m[id] == l[id])
            && RM.MergeTables(l, r[id := t]) == m[id := MergeNewerNeighbor(RM.TableOf(l, id), t)]
  {
  }

  /** Tombstones replay without a panic anywhere. */
  lemma TombstonesReplay(c: RM.Context, items: seq<RM.Item>)
    requires RM.AppendOnly(c.tables) && forall i :: 0 <= i < |items| ==> RM.IsTombstone(items[i])
    ensures Replays(c, items)
  {
  }

  // -------------------------------------------------------------- the append queue

  /** One piece of the queue, item by item. */
  method RecoverPiece(items: seq<RM.Item>) returns (c: RecoverContext)
    requires RM.Replay(items).Some?
    ensures fresh(c) && Some(c.View()) == RM.Replay(items) && OnlyTombstones(c.tombs)
  {
    hide RM.ReplayItem;
    c := new RecoverContext();
    for i := 0 to |items|
      invariant fresh(c) && RM.Replay(items[..i]) == Some(c.View()) && RM.Replay(items[..i]).Some?
      invariant OnlyTombstones(c.tombs)
    {
      ReplayPrefix(items, i + 1);
      assert items[..i + 1][..i] == items[..i];
      OneItem(c.View(), items[i]);
      c.ReplayBatch([items[i]]);
    }
    assert items[..|items|] == items;
  }

  predicate OnlyTombstones(items: seq<RM.Item>) {
    forall i :: 0 <= i < |items| ==> RM.IsTombstone(items[i])
  }

  lemma {:induction false} ReplayPrefix(items: seq<RM.Item>, n: nat)
    requires n <= |items| && RM.Replay(items).Some?
    ensures RM.Replay(items[..n]).Some?
    decreases |items|
  {
    if n < |items| {
      var m := |items| - 1;
      ReplayPrefix(items[..m], n);
      assert items[..m][..n] == items[..n];
    } else {
      assert items[..n] == items;
    }
  }

  lemma OneItem(c: RM.Context, it: RM.Item)
    requires RM.AppendOnly(c.tables)
    ensures RM.CanReplay(c, it) ==> Replays(c, [it])
    ensures RM.Steps(c, [it]).(tombs := c.tombs + RM.Tombstones([it])) == RM.ReplayItem(c, it)
  {
    assert [it][..0] == [] && RM.Steps(c, []) == c && RM.Tombstones([]) == [];
    assert c.tombs + [] == c.tombs;
    assert RM.Steps(c, [it]) == RM.Step(c, it);
    assert RM.Tombstones([it]) == if RM.IsTombstone(it) then [] + [it] else [];
  }

  /** Recovers a queue that is cut into pieces, merging neighbours in the given order. */
  method RecoverAppendQueue(p: RM.Chunks) returns (c: RecoverContext)
    requires RM.Recover(p).Some?
    ensures fresh(c) && Some(c.View()) == RM.Recover(p) && OnlyTombstones(c.tombs)
    decreases p
  {
    match p
    case Chunk(items) => c := RecoverPiece(items);
    case Join(l, r) =>
      c := RecoverAppendQueue(l);
      var rhs := RecoverAppendQueue(r);
      c.Merge(rhs.View());
  }

  /** The recovered context holds the tables and the tombstones of the live engine. */
  method RecoverLiveHistory(p: RM.Chunks) returns (c: RecoverContext)
    requires RM.LiveHistory(RM.EmptyContext, RM.Flatten(p))
    ensures c.tables == RM.Steps(RM.EmptyContext, RM.Flatten(p)).tables
    ensures c.removed == RM.Steps(RM.EmptyContext, RM.Flatten(p)).removed
  {
    RM.ChunkedReplayIsApply(p);
    c := RecoverAppendQueue(p);
  }

  // ------------------------------------------------------------------- atomic groups

  /** The groups of one id among all that were replayed, in order. */
  function DoneOf(replayed: seq<(nat, AG.Group)>, id: nat): seq<AG.Group> {
    if replayed == [] then [] else
    var rest, last := DoneOf(replayed[..|replayed| - 1], id), replayed[|replayed| - 1];
    if last.0 == id then rest + [last.1] else rest
  }

  /** The incomplete groups of the rewrite queue, by group id, and what has been replayed. */
  class PendingGroups {
    var pending: map<nat, seq<AG.Group>>
    var replayed: seq<(nat, AG.Group)>

    /** A list that is kept is not empty. */
    ghost predicate Valid()
      reads this
    {
      forall id :: id in pending ==> pending[id] != []
    }

    function StateOf(id: nat): AG.State
      reads this
    {
      AG.State(if id in pending then pending[id] else [], DoneOf(replayed, id))
    }

    constructor ()
      ensures Valid() && pending == map[] && replayed == []
    {
      pending, replayed := map[], [];
    }

    /** Joins one more part to the pending list of its id; a group that this completes leaves
        the list and is replayed. */
    method AcceptNewGroup(id: nat, g: AG.Group)
      requires Valid() && AG.CanAccept(StateOf(id).pending, g)
      modifies this
      ensures Valid() && StateOf(id) == AG.Accept(old(StateOf(id)), g)
      ensures forall other :: other != id ==> StateOf(other) == old(StateOf(other))
    {
      hide DoneOf, AG.Accept;
      ghost var before := StateOf(id);
      if id !in pending {
        assert AG.Accept(before, g) == before.(pending := [g]) by { AcceptFirst(before, g); }
        pending := pending[id := [g]];
        return;
      }
      var groups, whole := JoinGroup(pending[id], g, before.done);
      if whole.Some? {
        DoneSnoc(replayed, id, whole.value);
        replayed := replayed + [(id, whole.value)];
      }
      if groups == [] {
        pending := pending - {id};
      } else {
        pending := pending[id := groups];
      }
    }
  }

  lemma AcceptFirst(s: AG.State, g: AG.Group)
    requires s.pending == []
    ensures AG.Accept(s, g) == s.(pending := [g])
  {
  }

  /** The pending list with one more part, and the group that is now complete, if any. */
  method JoinGroup(pending: seq<AG.Group>, g: AG.Group, ghost done: seq<AG.Group>)
    returns (groups: seq<AG.Group>, whole: Option<AG.Group>)
    requires pending != [] && AG.CanAccept(pending, g)
    ensures AG.Accept(AG.State(pending, done), g)
         == AG.State(groups, if whole.Some? then done + [whole.value] else done)
  {
    groups, whole := pending, None;
    var group, front := pending[|pending| - 1], pending[..|pending| - 1];
    match (group.status, g.status) {
      case (End, Begin) => groups := groups + [g];
      case (Begin, Begin) => groups := front + [g];
      case (Middle, Begin) => groups := front + [g];
      case (End, Middle) =>
      case (End, End) =>
      case (Begin, Middle) =>
        groups := front + [AG.Group(AG.Begin, group.items + g.items, group.tombs + g.tombs, group.start, g.end)];
      case (Middle, Middle) =>
        groups := front + [AG.Group(AG.Middle, group.items + g.items, group.tombs + g.tombs, group.start, g.end)];
      case (Middle, End) =>
        groups := front + [AG.Group(AG.End, group.items + g.items, group.tombs + g.tombs, group.start, g.end)];
      case (Begin, End) =>
        groups := front;
        whole := Some(AG.Group(AG.End, group.items + g.items, group.tombs + g.tombs, group.start, g.end));
    }
  }

  lemma DoneSnoc(replayed: seq<(nat, AG.Group)>, id: nat, g: AG.Group)
    ensures forall other :: DoneOf(replayed + [(id, g)], other)
                            == if other == id then DoneOf(replayed, id) + [g] else DoneOf(replayed, other)
  {
    assert (replayed + [(id, g)])[..|replayed|] == replayed;
  }
}
