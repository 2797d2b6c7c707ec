/**
 What a history of the append queue means, told by looking back through it: the last item that
 says something about an index or a key decides. The tables that applying or recovering the
 history makes say exactly that.
 */
module LiveHistories {
  import opened PipeLog
  import opened Tables
  import opened ReplayMerge

  /** Where index `i` of region `r` is. */
  function EntryAt(items: seq<Item>, r: nat, i: nat): Option<Location> {
    if |items| == 0 then None else
    var it, before := items[|items| - 1], EntryAt(items[..|items| - 1], r, i);
    if it.region != r then before else
    match it.content
    case Entries(es) =>
      if |es| == 0 || i < es[0].index then before
      else if i < es[0].index + |es| then Some(es[i - es[0].index].loc) else None
    case Clean => None
    case Compact(index) => if i < index then None else before
    case PutKv(_, _, _) => before
    case DelKv(_) => before
  }

  /** The value of key `k` of region `r` and the file it is in. */
  function KeyAt(items: seq<Item>, r: nat, k: Bytes): Option<Slot> {
    if |items| == 0 then None else
    var it, before := items[|items| - 1], KeyAt(items[..|items| - 1], r, k);
    if it.region != r then before else
    match it.content
    case Entries(_) => before
    case Clean => None
    case Compact(_) => before
    case PutKv(key, value, id) => if key == k && key != InternalKey then Some(Slot(value, id)) else before
    case DelKv(key) => if key == k then None else before
  }

  /** Whether region `r` exists: something was said about it since it was last cleaned. */
  predicate Present(items: seq<Item>, r: nat) {
    if |items| == 0 then false else
    var it, before := items[|items| - 1], Present(items[..|items| - 1], r);
    if it.region != r then before else
    match it.content
    case Entries(_) => true
    case Clean => false
    case Compact(_) => true
    case PutKv(key, _, _) => key != InternalKey || before
    case DelKv(key) => key != InternalKey || before
  }

  /** The regions that were cleaned, in order. */
  function Cleaned(items: seq<Item>): seq<nat> {
    if |items| == 0 then [] else
    var it, before := items[|items| - 1], Cleaned(items[..|items| - 1]);
    if it.content.Clean? then before + [it.region] else before
  }

  function SlotOf(t: Table, k: Bytes): Option<Slot> {
    if k in t.kvs then Some(t.kvs[k]) else None
  }

  /** The context says of region `r`, index `i` and key `k` what the history says. */
  ghost predicate SaysAt(c: Context, items: seq<Item>, r: nat, i: nat, k: Bytes) {
    && (r in c.tables <==> Present(items, r))
    && TableOf(c.tables, r).Get(i) == EntryAt(items, r, i)
    && SlotOf(TableOf(c.tables, r), k) == KeyAt(items, r, k)
  }

  /** One more item does to a table what it says. */
  lemma OnTableSays(t: Table, c: Content, i: nat, k: Bytes)
    requires t.rewriteCount == 0 && !c.Clean? && WellFormed(Item(0, c)) && LiveAllows(t, c)
    ensures OnTable(t, c).Get(i) ==
            match c
            case Entries(es) =>
              if |es| == 0 || i < es[0].index then t.Get(i)
              else if i < es[0].index + |es| then Some(es[i - es[0].index].loc) else None
            case Compact(index) => if i < index then None else t.Get(i)
            case PutKv(_, _, _) => t.Get(i)
            case DelKv(_) => t.Get(i)
    ensures SlotOf(OnTable(t, c), k) ==
            match c
            case Entries(_) => SlotOf(t, k)
            case Compact(_) => SlotOf(t, k)
            case PutKv(key, value, id) => if key == k then Some(Slot(value, id)) else SlotOf(t, k)
            case DelKv(key) => if key == k then None else SlotOf(t, k)
  {
    match c
    case Entries(es) =>
      if |es| > 0 {
        AppendedGet(t, es, i);
      }
    case Compact(index) => CompactGet(t, index, i);
    case _ =>
  }

  /** Applying a live history makes the tables that say what the history says. */
  lemma {:induction false} StepsSay(items: seq<Item>, r: nat, i: nat, k: Bytes)
    requires LiveHistory(EmptyContext, items)
    ensures SaysAt(Steps(EmptyContext, items), items, r, i, k)
    ensures k == InternalKey ==> KeyAt(items, r, k) == None
    ensures Steps(EmptyContext, items).removed == Cleaned(items)
    decreases |items|
  {
    hide OnTable, LiveAllows, WellFormed;
    if |items| > 0 {
      var n := |items| - 1;
      StepsSay(items[..n], r, i, k);
      var c, it := Steps(EmptyContext, items[..n]), items[n];
      if it.region == r && !it.content.Clean? && !HasInternalKey(it) {
        assert WellFormed(Item(0, it.content)) by { RegionAside(it); }
        OnTableSays(TableOf(c.tables, r), it.content, i, k);
      }
    }
  }

  lemma RegionAside(it: Item)
    requires WellFormed(it)
    ensures WellFormed(Item(0, it.content))
  {
  }

  /** Recovery reads like the history. However a live history of the append queue is cut, and in
      whatever order the pieces are merged, recovery meets no panic; afterwards every index and
      key of every region is what was last said of it, cleaned regions are gone, and the list of
      cleaned regions is complete and in order. */
  lemma RecoveredSays(c: Chunks, r: nat, i: nat, k: Bytes)
    requires LiveHistory(EmptyContext, Flatten(c))
    ensures Recover(c).Some? && SaysAt(Recover(c).value, Flatten(c), r, i, k)
    ensures Recover(c).value.removed == Cleaned(Flatten(c))
  {
    hide Recover, SaysAt, LiveHistory;
    ChunkedReplayIsApply(c);
    StepsSay(Flatten(c), r, i, k);
    SameTablesSay(Recover(c).value, Steps(EmptyContext, Flatten(c)), Flatten(c), r, i, k);
  }

  lemma SameTablesSay(a: Context, b: Context, items: seq<Item>, r: nat, i: nat, k: Bytes)
    requires a.tables == b.tables && SaysAt(b, items, r, i, k)
    ensures SaysAt(a, items, r, i, k)
  {
  }
}
