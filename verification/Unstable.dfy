/**
 The part of a raft log that is not yet in storage.

 Storage and the unstable part together stand for one log: a base, given by a snapshot, and
 the entries behind it.
 */
module UnstableLog {
  import opened PipeLog

  datatype Entry = Entry(index: nat, term: nat, size: nat)

  datatype Snapshot = Snapshot(index: nat, term: nat)

  /** A log: the entries behind a base. Entry `k` has index `base.index + 1 + k`. */
  datatype Log = Log(base: Snapshot, entries: seq<Entry>) {
    function Next(): nat { base.index + 1 + |entries| }

    ghost predicate Valid() {
      forall k :: 0 <= k < |entries| ==> entries[k].index == base.index + 1 + k
    }

    /** The log up to, and without, `index`. */
    function Before(index: nat): Log
      requires base.index < index <= Next()
    {
      Log(base, entries[..index - base.index - 1])
    }

    function Term(index: nat): Option<nat> {
      if index == base.index then Some(base.term)
      else if base.index < index < Next() then Some(entries[index - base.index - 1].term)
      else None
    }
  }

  /** Cuts the log at the first new index, then appends. */
  function Appended(log: Log, ents: seq<Entry>): Log
    requires ents != [] && log.base.index < ents[0].index <= log.Next()
  {
    Log(log.base, log.Before(ents[0].index).entries + ents)
  }

  ghost predicate ConsecutiveFrom(ents: seq<Entry>, index: nat) {
    forall k :: 0 <= k < |ents| ==> ents[k].index == index + k
  }

  function TotalSize(ents: seq<Entry>): nat {
    if ents == [] then 0 else TotalSize(ents[..|ents| - 1]) + ents[|ents| - 1].size
  }

  lemma {:induction false} TotalSizeConcat(a: seq<Entry>, b: seq<Entry>)
    ensures TotalSize(a + b) == TotalSize(a) + TotalSize(b)
    decreases |b|
  {
    if b == [] {
      assert a + b == a;
    } else {
      TotalSizeConcat(a, b[..|b| - 1]);
      assert (a + b)[..|a + b| - 1] == a + b[..|b| - 1];
    }
  }

  // ------------------------------------------------------------------------- values

  datatype Unstable = Unstable(snapshot: Option<Snapshot>, entries: seq<Entry>, entriesSize: nat, offset: nat)

  /** What the unstable part needs of itself and of storage. */
  ghost predicate Fits(storage: Log, u: Unstable) {
    && storage.Valid() && ConsecutiveFrom(u.entries, u.offset) && u.entriesSize == TotalSize(u.entries)
    && match u.snapshot
       case Some(snap) => u.offset == snap.index + 1
       case None => storage.base.index < u.offset <= storage.Next()
  }

  /** The one log that storage and the unstable part stand for. */
  function Whole(storage: Log, u: Unstable): Log
    requires u.snapshot.None? ==> storage.base.index < u.offset <= storage.Next()
  {
    match u.snapshot
    case Some(snap) => Log(snap, u.entries)
    case None => Log(storage.base, storage.Before(u.offset).entries + u.entries)
  }

  function TruncatedAndAppended(u: Unstable, ents: seq<Entry>): Unstable
    requires ents != [] && ents[0].index <= u.offset + |u.entries|
  {
    var after := ents[0].index;
    var kept := if after <= u.offset then [] else u.entries[..after - u.offset];
    Unstable(u.snapshot, kept + ents, TotalSize(kept + ents), if after <= u.offset then after else u.offset)
  }

  function Restored(snap: Snapshot): Unstable {
    Unstable(Some(snap), [], 0, snap.index + 1)
  }

  function Stabilized(u: Unstable): Unstable {
    Unstable(u.snapshot, [], 0, u.offset + |u.entries|)
  }

  /** Appending to the unstable part is cutting the one log at the first new index and
      appending there. */
  lemma AppendRefines(storage: Log, u: Unstable, ents: seq<Entry>)
    requires Fits(storage, u) && ents != [] && ConsecutiveFrom(ents, ents[0].index)
    requires Whole(storage, u).base.index < ents[0].index <= Whole(storage, u).Next()
    ensures Fits(storage, TruncatedAndAppended(u, ents))
    ensures Whole(storage, TruncatedAndAppended(u, ents)) == Appended(Whole(storage, u), ents)
  {
    hide TotalSize, ConsecutiveFrom;
    AppendFits(storage, u, ents);
    if u.snapshot.None? {
      AppendBehindStorage(storage, u, ents);
    }
  }

  lemma AppendBehindStorage(storage: Log, u: Unstable, ents: seq<Entry>)
    requires Fits(storage, u) && u.snapshot.None?
    requires ents != [] && Whole(storage, u).base.index < ents[0].index <= Whole(storage, u).Next()
    requires Fits(storage, TruncatedAndAppended(u, ents))
    ensures Whole(storage, TruncatedAndAppended(u, ents)) == Appended(Whole(storage, u), ents)
  {
    hide TotalSize, ConsecutiveFrom;
    var all, after := Whole(storage, u), ents[0].index;
    CutWhole(storage, u, after);
    var below, cut := storage.Before(u.offset).entries, all.entries[..after - all.base.index - 1];
    if after > u.offset {
      assert below + (u.entries[..after - u.offset] + ents) == cut + ents;
    } else {
      assert [] + ents == ents;
    }
  }

  lemma AppendFits(storage: Log, u: Unstable, ents: seq<Entry>)
    requires Fits(storage, u) && ents != [] && ConsecutiveFrom(ents, ents[0].index)
    requires Whole(storage, u).base.index < ents[0].index <= Whole(storage, u).Next()
    ensures Fits(storage, TruncatedAndAppended(u, ents))
  {
    hide TotalSize;
  }

  /** Cutting the one log: inside the unstable part, or inside storage. */
  lemma CutWhole(storage: Log, u: Unstable, after: nat)
    requires Fits(storage, u) && Whole(storage, u).base.index < after <= Whole(storage, u).Next()
    ensures var base, all := Whole(storage, u).base.index, Whole(storage, u).entries;
            match u.snapshot
            case Some(_) => after - base - 1 == after - u.offset
            case None =>
              if after <= u.offset then all[..after - base - 1] == storage.Before(after).entries
              else all[..after - base - 1] == storage.Before(u.offset).entries + u.entries[..after - u.offset]
  {
    hide TotalSize;
  }

  /** Storage takes over the entries; the one log stays as it was. */
  lemma StabilizeRefines(storage: Log, u: Unstable)
    requires Fits(storage, u) && u.snapshot.None?
    ensures Fits(Whole(storage, u), Stabilized(u)) && Whole(Whole(storage, u), Stabilized(u)) == Whole(storage, u)
  {
  }

  /** Storage takes over the snapshot; the one log stays as it was. */
  lemma StabilizeSnapshotRefines(storage: Log, u: Unstable)
    requires Fits(storage, u) && u.snapshot.Some?
    ensures var after := Log(u.snapshot.value, []);
            Fits(after, u.(snapshot := None)) && Whole(after, u.(snapshot := None)) == Whole(storage, u)
  {
  }

  // --------------------------------------------------------------------------- runs

  datatype Step = Append(ents: seq<Entry>) | Restore(snap: Snapshot) | PersistSnapshot | PersistEntries

  datatype State = State(storage: Log, u: Unstable)

  ghost predicate Enabled(s: State, step: Step)
    requires Fits(s.storage, s.u)
  {
    match step
    case Append(ents) =>
      && ents != [] && ConsecutiveFrom(ents, ents[0].index)
      && Whole(s.storage, s.u).base.index < ents[0].index <= Whole(s.storage, s.u).Next()
    case Restore(_) => true
    case PersistSnapshot => s.u.snapshot.Some?
    case PersistEntries => s.u.snapshot.None? && s.u.entries != []
  }

  ghost function Next(s: State, step: Step): State
    requires Fits(s.storage, s.u) && Enabled(s, step)
  {
    match step
    case Append(ents) => s.(u := TruncatedAndAppended(s.u, ents))
    case Restore(snap) => s.(u := Restored(snap))
    case PersistSnapshot => State(Log(s.u.snapshot.value, []), s.u.(snapshot := None))
    case PersistEntries => State(Whole(s.storage, s.u), Stabilized(s.u))
  }

  /** What a step does to the one log: persisting does nothing. */
  ghost function LogStep(log: Log, step: Step): Log {
    match step
    case Append(ents) => if ents != [] && log.base.index < ents[0].index <= log.Next() then Appended(log, ents) else log
    case Restore(snap) => Log(snap, [])
    case PersistSnapshot => log
    case PersistEntries => log
  }

  lemma StepRefines(s: State, step: Step)
    requires Fits(s.storage, s.u) && Enabled(s, step)
    ensures var s' := Next(s, step);
            Fits(s'.storage, s'.u) && Whole(s'.storage, s'.u) == LogStep(Whole(s.storage, s.u), step)
  {
    match step
    case Append(ents) => AppendRefines(s.storage, s.u, ents);
    case Restore(_) =>
    case PersistSnapshot => StabilizeSnapshotRefines(s.storage, s.u);
    case PersistEntries => StabilizeRefines(s.storage, s.u);
  }

  ghost predicate Runs(s: State, steps: seq<Step>)
    decreases |steps|
  {
    Fits(s.storage, s.u) && (steps == [] || (Enabled(s, steps[0]) && Runs(Next(s, steps[0]), steps[1..])))
  }

  ghost function After(s: State, steps: seq<Step>): State
    requires Runs(s, steps)
    decreases |steps|
  {
    if steps == [] then s else After(Next(s, steps[0]), steps[1..])
  }

  ghost function LogAfter(log: Log, steps: seq<Step>): Log
    decreases |steps|
  {
    if steps == [] then log else LogAfter(LogStep(log, steps[0]), steps[1..])
  }

  /** In every run, storage and the unstable part stand for the log that only the appends and
      the restored snapshots make, whenever anything is persisted. */
  lemma {:induction false} RunRefines(s: State, steps: seq<Step>)
    requires Runs(s, steps)
    ensures var s' := After(s, steps);
            && Fits(s'.storage, s'.u) && Whole(s'.storage, s'.u).Valid()
            && Whole(s'.storage, s'.u) == LogAfter(Whole(s.storage, s.u), steps)
    decreases |steps|
  {
    if steps != [] {
      StepRefines(s, steps[0]);
      RunRefines(Next(s, steps[0]), steps[1..]);
    }
  }

  // -------------------------------------------------------------------------- class

  class UnstableEntries {
    var snapshot: Option<Snapshot>
    var entries: seq<Entry>
    var entriesSize: nat
    var offset: nat

    function View(): Unstable
      reads this
    {
      Unstable(snapshot, entries, entriesSize, offset)
    }

    constructor (offset: nat)
      ensures View() == Unstable(None, [], 0, offset)
    {
      snapshot, entries, entriesSize, this.offset := None, [], 0, offset;
    }

    method MaybeLastIndex(ghost storage: Log) returns (r: Option<nat>)
      requires Fits(storage, View())
      ensures r.Some? <==> snapshot.Some? || entries != []
      ensures r.Some? ==> r.value + 1 == Whole(storage, View()).Next()
    {
      if |entries| == 0 {
        return if snapshot.Some? then Some(snapshot.value.index) else None;
      }
      return Some(offset + |entries| - 1);
    }

    /** The term that the one log has, for the indexes the unstable part knows. */
    method MaybeTerm(index: nat, ghost storage: Log) returns (r: Option<nat>)
      requires Fits(storage, View())
      ensures r.Some? ==> r == Whole(storage, View()).Term(index)
      ensures r.None? <==> index >= Whole(storage, View()).Next()
                           || (index < offset && (snapshot.None? || index != snapshot.value.index))
    {
      if index < offset {
        if snapshot.None? || index != snapshot.value.index { return None; }
        return Some(snapshot.value.term);
      }
      var last := MaybeLastIndex(storage);
      if last.None? || index > last.value { return None; }
      return Some(entries[index - offset].term);
    }

    /** Called when storage holds the log up to the last entry here. */
    method StableEntries(index: nat, term: nat)
      requires ConsecutiveFrom(entries, offset) && snapshot.None? && entries != []
      requires entries[|entries| - 1].index == index && entries[|entries| - 1].term == term
      modifies this
      ensures View() == Stabilized(old(View()))
    {
      offset := entries[|entries| - 1].index + 1;
      entries := [];
      entriesSize := 0;
    }

    /** Called when storage holds the snapshot. */
    method StableSnap(index: nat)
      requires snapshot.Some? && snapshot.value.index == index
      modifies this
      ensures View() == old(View()).(snapshot := None)
    {
      snapshot := None;
    }

    method RestoreSnapshot(snap: Snapshot)
      modifies this
      ensures View() == Restored(snap)
    {
      entries := [];
      entriesSize := 0;
      offset := snap.index + 1;
      snapshot := Some(snap);
    }

    /** Drops the entries from position `keep` on, and their sizes. */
    method TruncateTo(keep: nat)
      requires keep <= |entries| && entriesSize == TotalSize(entries)
      modifies this`entries, this`entriesSize
      ensures entries == old(entries[..keep]) && entriesSize == TotalSize(entries)
    {
      var all, i, size := entries, keep, entriesSize;
      SplitSize(all, keep);
      while i < |all|
        invariant keep <= i <= |all| && size == TotalSize(all[..keep]) + TotalSize(all[i..])
      {
        FrontSize(all[i..]);
        assert all[i..][1..] == all[i + 1..];
        size := size - all[i].size;
        i := i + 1;
      }
      assert TotalSize(all[i..]) == 0;
      entries := all[..keep];
      entriesSize := size;
    }

    /** Appends entries that start inside the log or right behind it. */
    method TruncateAndAppend(ents: seq<Entry>)
      requires ents != [] && ents[0].index <= offset + |entries| && entriesSize == TotalSize(entries)
      modifies this
      ensures View() == TruncatedAndAppended(old(View()), ents)
    {
      hide TotalSize;
      ghost var before := View();
      var after := ents[0].index;
      if after == offset + |entries| {
        assert entries[..|entries|] == entries;
        assert after <= offset ==> entries == [];
      } else if after <= offset {
        offset := after;
        entries := [];
        entriesSize := 0;
        NoSize();
      } else {
        TruncateTo(after - offset);
      }
      ghost var kept := if after <= before.offset then [] else before.entries[..after - before.offset];
      assert entries == kept && entriesSize == TotalSize(kept);
      var sum := SumSizes(ents);
      TotalSizeConcat(entries, ents);
      entries := entries + ents;
      entriesSize := entriesSize + sum;
    }

    method Slice(lo: nat, hi: nat, ghost storage: Log) returns (r: seq<Entry>)
      requires Fits(storage, View()) && offset <= lo <= hi <= offset + |entries|
      ensures var whole := Whole(storage, View());
              r == whole.entries[lo - whole.base.index - 1..hi - whole.base.index - 1]
    {
      return entries[lo - offset..hi - offset];
    }
  }

  lemma NoSize()
    ensures TotalSize([]) == 0
  {
  }

  lemma SplitSize(ents: seq<Entry>, keep: nat)
    requires keep <= |ents|
    ensures TotalSize(ents) == TotalSize(ents[..keep]) + TotalSize(ents[keep..])
  {
    assert ents == ents[..keep] + ents[keep..];
    TotalSizeConcat(ents[..keep], ents[keep..]);
  }

  lemma FrontSize(ents: seq<Entry>)
    requires ents != []
    ensures TotalSize(ents) == ents[0].size + TotalSize(ents[1..])
  {
    SplitSize(ents, 1);
    assert ents[..1] == [ents[0]] && TotalSize(ents[..1][..0]) == 0;
  }

  method SumSizes(ents: seq<Entry>) returns (sum: nat)
    ensures sum == TotalSize(ents)
  {
    sum := 0;
    for i := 0 to |ents|
      invariant sum == TotalSize(ents[..i])
    {
      assert ents[..i + 1][..i] == ents[..i];
      sum := sum + ents[i].size;
    }
    assert ents[..|ents|] == ents;
  }
}
