/**
 Purging append files while writers are at work.

 A writer writes its batch to the active file and counts it there, under the lock of the
 queue; it applies the batch to the tables later, and uncounts it last. The purger reads
 the active file, scans the counters, rescans the tables one by one, deletes files and
 drops their counters. Any two of these steps may be interleaved.
 */
module PurgeProtocol {
  import opened PipeLog
  import T = Tables

  /** Per-file counter of batches that are written but not fully applied. */
  datatype HookFile = HookFile(seqno: FileSeq, count: nat)

  datatype Writer =
    | Written(file: FileSeq, regions: set<nat>)
    | Counted(file: FileSeq, todo: set<nat>)

  /** Who holds the lock of the append queue. */
  datatype Lock = Free | Rotating | Writing(w: nat)

  datatype Purger =
    | Resting
    | HasLatest(latest: FileSeq)
    | Scanning(latest: FileSeq, pos: nat)
    | HasBarrier(barrier: FileSeq)
    | Rescanning(min: FileSeq, todo: set<nat>)
    | Purged(min: FileSeq)

  /** `first .. active` are the existing files; `refs` the append files each table reads. */
  datatype State = State(first: FileSeq, active: FileSeq, hook: seq<HookFile>, lock: Lock,
                         writers: map<nat, Writer>, refs: map<nat, set<FileSeq>>, purger: Purger)

  datatype Step =
    | RotateSpan
    | RotateHook
    | Write(w: nat, regions: set<nat>)
    | Count(w: nat)
    | Apply(w: nat, region: nat)
    | Uncount(w: nat)
    | DropRefs(region: nat, left: set<FileSeq>)
    | Clean(region: nat)
    | ReadLatest
    | BeginScan
    | Scan
    | BeginRescan
    | Rescan(region: nat)
    | PurgeTo
    | PostPurge

  // ------------------------------------------------------------- hook functions

  function Back(hook: seq<HookFile>): FileSeq
    requires |hook| > 0
  {
    hook[|hook| - 1].seqno
  }

  /** The assertion of every indexing into the deque: the file is in it. */
  predicate InHook(hook: seq<HookFile>, file: FileSeq) {
    |hook| > 0 && hook[0].seqno <= file < hook[0].seqno + |hook|
  }

  /** Counters of consecutive files, so that a file is found by its distance from the front. */
  predicate Contiguous(hook: seq<HookFile>) {
    forall k :: 0 <= k < |hook| ==> hook[k].seqno == hook[0].seqno + k
  }

  function Bump(hook: seq<HookFile>, file: FileSeq): seq<HookFile>
    requires InHook(hook, file)
  {
    var k := file - hook[0].seqno;
    hook[k := hook[k].(count := hook[k].count + 1)]
  }

  function Unbump(hook: seq<HookFile>, file: FileSeq): seq<HookFile>
    requires InHook(hook, file) && hook[file - hook[0].seqno].count > 0
  {
    var k := file - hook[0].seqno;
    hook[k := hook[k].(count := hook[k].count - 1)]
  }

  /** Drops the counters of files up to `file`. */
  function Drained(hook: seq<HookFile>, file: FileSeq): seq<HookFile>
    requires |hook| > 0 && (hook[0].seqno <= file ==> file < hook[0].seqno + |hook|)
  {
    if hook[0].seqno <= file then hook[file - hook[0].seqno + 1..] else hook
  }

  // -------------------------------------------------------------------- steps

  /** When a step is attempted. The assertions of the hook are not part of it. */
  predicate Enabled(s: State, step: Step) {
    match step
    case RotateSpan => s.lock.Free?
    case RotateHook => s.lock.Rotating? && !s.purger.Scanning?
    case Write(w, regions) => s.lock.Free? && w !in s.writers
    case Count(w) => s.lock == Writing(w) && w in s.writers && s.writers[w].Written?
    case Apply(w, r) => w in s.writers && s.writers[w].Counted? && r in s.writers[w].todo
    case Uncount(w) => w in s.writers && s.writers[w].Counted? && s.writers[w].todo == {}
    case DropRefs(r, left) => r in s.refs && left <= s.refs[r]
    case Clean(r) => r in s.refs
    case ReadLatest => s.purger.Resting?
    case BeginScan => s.purger.HasLatest?
    case Scan => s.purger.Scanning?
    case BeginRescan => s.purger.HasBarrier?
    case Rescan(r) => s.purger.Rescanning? && r in s.purger.todo
    case PurgeTo => s.purger.Rescanning? && s.purger.todo == {}
    case PostPurge => s.purger.Purged?
  }

  /** The assertions: indexing stays inside the deque, counters do not go below zero, new
      files are contiguous, and purging stays inside the existing files. */
  predicate Asserts(s: State, step: Step) {
    match step
    case RotateHook => |s.hook| > 0 ==> Back(s.hook) + 1 == s.active
    case Count(w) => w in s.writers ==> InHook(s.hook, s.writers[w].file)
    case Uncount(w) =>
      w in s.writers ==> InHook(s.hook, s.writers[w].file)
                         && s.hook[s.writers[w].file - s.hook[0].seqno].count > 0
    case PurgeTo => s.purger.Rescanning? ==> s.first <= s.purger.min <= s.active
    case PostPurge =>
      s.purger.Purged? ==>
        && 0 < s.purger.min && |s.hook| > 0
        && (s.hook[0].seqno <= s.purger.min - 1 ==>
              s.purger.min - 1 < s.hook[0].seqno + |s.hook|
              && s.hook[s.purger.min - 1 - s.hook[0].seqno].seqno == s.purger.min - 1)
    case _ => true
  }

  function Refs(s: State, r: nat): set<FileSeq> { if r in s.refs then s.refs[r] else {} }

  ghost function Next(s: State, step: Step): State
    requires Enabled(s, step) && Asserts(s, step)
  {
    match step
    case RotateSpan => s.(active := s.active + 1, lock := Rotating)
    case RotateHook => s.(hook := s.hook + [HookFile(s.active, 0)], lock := Free)
    case Write(w, regions) => s.(lock := Writing(w), writers := s.writers[w := Written(s.active, regions)])
    case Count(w) =>
      var file := s.writers[w].file;
      s.(lock := Free, hook := Bump(s.hook, file), writers := s.writers[w := Counted(file, s.writers[w].regions)])
    case Apply(w, r) =>
      var x := s.writers[w];
      s.(refs := s.refs[r := Refs(s, r) + {x.file}], writers := s.writers[w := x.(todo := x.todo - {r})])
    case Uncount(w) => s.(hook := Unbump(s.hook, s.writers[w].file), writers := s.writers - {w})
    case DropRefs(r, left) => s.(refs := s.refs[r := left])
    case Clean(r) => s.(refs := s.refs - {r})
    case ReadLatest => s.(purger := HasLatest(s.active))
    case BeginScan => s.(purger := Scanning(s.purger.latest, 0))
    case Scan =>
      var p := s.purger;
      if p.pos >= |s.hook| then s.(purger := HasBarrier(p.latest))
      else if s.hook[p.pos].count > 0 then s.(purger := HasBarrier(T.Min(s.hook[p.pos].seqno, p.latest)))
      else s.(purger := p.(pos := p.pos + 1))
    case BeginRescan => s.(purger := Rescanning(s.purger.barrier, s.refs.Keys))
    case Rescan(r) =>
      var p := s.purger;
      s.(purger := Rescanning(if Refs(s, r) == {} then p.min else T.Min(p.min, T.MinOf(Refs(s, r))), p.todo - {r}))
    case PurgeTo =>
      s.(first := s.purger.min, purger := if s.purger.min > s.first then Purged(s.purger.min) else Resting)
    case PostPurge => s.(hook := Drained(s.hook, s.purger.min - 1), purger := Resting)
  }

  // -------------------------------------------------------------- invariants

  /** No table and no batch in flight needs a purged file. */
  ghost predicate Safe(s: State) {
    && s.first <= s.active
    && RefsIn(s.refs, s.first, s.active)
    && (forall w :: w in s.writers ==> s.first <= s.writers[w].file <= s.active)
  }

  ghost predicate RefsIn(refs: map<nat, set<FileSeq>>, lo: FileSeq, hi: FileSeq) {
    forall r, f :: r in refs && f in refs[r] ==> lo <= f <= hi
  }

  /** The counters are contiguous and exact. */
  ghost predicate Exact(hook: seq<HookFile>, writers: map<nat, Writer>) {
    && Contiguous(hook)
    && (forall k :: 0 <= k < |hook| ==> hook[k].count == |CountedAt(writers, hook[0].seqno + k)|)
  }

  ghost function CountedAt(writers: map<nat, Writer>, file: FileSeq): set<nat> {
    set w | w in writers && writers[w].Counted? && writers[w].file == file
  }

  /** The counters reach from the first file, or an older one while dropping counters is
      pending, to the active file, or to the one before while a rotation is half done. */
  ghost predicate HookOk(s: State) {
    && (!s.lock.Rotating? ==> |s.hook| > 0)
    && (|s.hook| > 0 ==> Back(s.hook) == if s.lock.Rotating? then s.active - 1 else s.active)
    && (|s.hook| == 0 ==> s.first == s.active)
    && (|s.hook| > 0 ==> s.hook[0].seqno <= s.first)
    && (|s.hook| > 0 && !s.purger.Purged? ==> s.hook[0].seqno == s.first)
  }

  /** A batch that is written but not counted holds the lock and sits in the active file. */
  ghost predicate LockOk(s: State) {
    && (forall w :: w in s.writers && s.writers[w].Written? ==> s.lock == Writing(w) && s.writers[w].file == s.active)
    && (s.lock.Writing? ==> s.lock.w in s.writers && s.writers[s.lock.w].Written?)
    && (s.lock.Rotating? ==> 0 < s.active && forall w :: w in s.writers ==> s.writers[w].file < s.active)
  }

  /** No batch in flight is older than `bound`. */
  ghost predicate InFlightFrom(s: State, bound: FileSeq) {
    forall w :: w in s.writers ==> bound <= s.writers[w].file
  }

  ghost predicate PurgerOk(s: State) {
    match s.purger
    case Resting => true
    case HasLatest(latest) => s.first <= latest <= s.active
    case Scanning(latest, pos) =>
      && s.first <= latest <= s.active && pos <= |s.hook|
      && InFlightFrom(s, T.Min(latest, s.first + pos))
    case HasBarrier(barrier) => s.first <= barrier <= s.active && InFlightFrom(s, barrier)
    case Rescanning(min, todo) =>
      && s.first <= min <= s.active && InFlightFrom(s, min)
      && (forall r, f :: r in s.refs && r !in todo && f in s.refs[r] ==> min <= f)
    case Purged(min) => s.first == min && |s.hook| > 0 && s.hook[0].seqno < min
  }

  ghost predicate Inv(s: State) {
    Safe(s) && Exact(s.hook, s.writers) && HookOk(s) && LockOk(s) && PurgerOk(s)
  }

  // -------------------------------------------------------- no assertion fails

  /** The counter of a file reads zero exactly when no counted batch is in it. */
  lemma ZeroMeansNone(s: State, w: nat)
    requires Exact(s.hook, s.writers) && w in s.writers && s.writers[w].Counted? && InHook(s.hook, s.writers[w].file)
    ensures s.hook[s.writers[w].file - s.hook[0].seqno].count > 0
  {
    assert w in CountedAt(s.writers, s.writers[w].file);
  }

  lemma FilesAreHooked(s: State, w: nat)
    requires Safe(s) && Exact(s.hook, s.writers) && HookOk(s) && LockOk(s) && w in s.writers
    ensures InHook(s.hook, s.writers[w].file)
  {
  }

  /** In every state that keeps the invariant, a step that is attempted meets its assertions. */
  lemma AssertionsHold(s: State, step: Step)
    requires Inv(s) && Enabled(s, step)
    ensures Asserts(s, step)
  {
    match step
    case Count(w) => FilesAreHooked(s, w);
    case Uncount(w) => FilesAreHooked(s, w); ZeroMeansNone(s, w);
    case _ =>
  }

  // ------------------------------------------------------ every step keeps Inv

  lemma SameCounts(before: map<nat, Writer>, after: map<nat, Writer>, hook: seq<HookFile>)
    requires Exact(hook, before)
    requires forall w :: w in before && before[w].Counted? ==>
                           w in after && after[w].Counted? && after[w].file == before[w].file
    requires forall w :: w in after && after[w].Counted? ==> w in before && before[w].Counted?
    ensures Exact(hook, after)
  {
    forall k | 0 <= k < |hook| ensures hook[k].count == |CountedAt(after, hook[0].seqno + k)| {
      assert CountedAt(before, hook[0].seqno + k) == CountedAt(after, hook[0].seqno + k);
    }
  }

  lemma CountKeepsExact(hook: seq<HookFile>, writers: map<nat, Writer>, w: nat)
    requires Exact(hook, writers) && w in writers && writers[w].Written? && InHook(hook, writers[w].file)
    ensures Exact(Bump(hook, writers[w].file), writers[w := Counted(writers[w].file, writers[w].regions)])
  {
    hide CountedAt;
    var after := writers[w := Counted(writers[w].file, writers[w].regions)];
    forall k | 0 <= k < |hook|
      ensures Bump(hook, writers[w].file)[k].count == |CountedAt(after, hook[0].seqno + k)|
    {
      OneMoreCounted(writers, w, hook[0].seqno + k);
    }
  }

  lemma OneMoreCounted(writers: map<nat, Writer>, w: nat, file: FileSeq)
    requires w in writers && writers[w].Written?
    ensures |CountedAt(writers[w := Counted(writers[w].file, writers[w].regions)], file)|
         == |CountedAt(writers, file)| + if file == writers[w].file then 1 else 0
  {
    var was := CountedAt(writers, file);
    assert CountedAt(writers[w := Counted(writers[w].file, writers[w].regions)], file)
        == if file == writers[w].file then was + {w} else was;
  }

  lemma UncountKeepsExact(hook: seq<HookFile>, writers: map<nat, Writer>, w: nat)
    requires Exact(hook, writers) && w in writers && writers[w].Counted? && InHook(hook, writers[w].file)
    requires hook[writers[w].file - hook[0].seqno].count > 0
    ensures Exact(Unbump(hook, writers[w].file), writers - {w})
  {
    hide CountedAt;
    forall k | 0 <= k < |hook|
      ensures Unbump(hook, writers[w].file)[k].count == |CountedAt(writers - {w}, hook[0].seqno + k)|
    {
      OneLessCounted(writers, w, hook[0].seqno + k);
    }
  }

  lemma OneLessCounted(writers: map<nat, Writer>, w: nat, file: FileSeq)
    requires w in writers && writers[w].Counted?
    ensures |CountedAt(writers - {w}, file)| == |CountedAt(writers, file)| - if file == writers[w].file then 1 else 0
  {
    var was := CountedAt(writers, file);
    assert CountedAt(writers - {w}, file) == was - {w};
  }

  lemma DrainKeepsExact(hook: seq<HookFile>, writers: map<nat, Writer>, file: FileSeq)
    requires Exact(hook, writers) && InHook(hook, file)
    ensures Exact(Drained(hook, file), writers)
    ensures |Drained(hook, file)| == hook[0].seqno + |hook| - file - 1
    ensures Drained(hook, file) != [] ==> Drained(hook, file)[0].seqno == file + 1 && Back(Drained(hook, file)) == Back(hook)
  {
    var after := Drained(hook, file);
    forall k | 0 <= k < |after|
      ensures after[k].seqno == file + 1 + k && after[k].count == |CountedAt(writers, file + 1 + k)|
    {
      assert after[k] == hook[file + 1 - hook[0].seqno + k];
    }
  }

  lemma RotateKeepsInv(s: State, step: Step)
    requires Inv(s) && Enabled(s, step) && Asserts(s, step) && (step.RotateSpan? || step.RotateHook?)
    ensures Inv(Next(s, step))
  {
    hide Asserts;
    if step.RotateHook? {
      assert CountedAt(s.writers, s.active) == {};
    }
  }

  lemma WriteKeepsInv(s: State, w: nat, regions: set<nat>)
    requires Inv(s) && Enabled(s, Write(w, regions))
    ensures Inv(Next(s, Write(w, regions)))
  {
    hide Exact;
    SameCounts(s.writers, s.writers[w := Written(s.active, regions)], s.hook);
  }

  lemma CountKeepsInv(s: State, w: nat)
    requires Inv(s) && Enabled(s, Count(w)) && Asserts(s, Count(w))
    ensures Inv(Next(s, Count(w)))
  {
    CountKeepsExact(s.hook, s.writers, w);
  }

  /** A batch in flight is never older than the bound the purger holds, so what it adds to
      a table that was already rescanned does not matter. */
  lemma ApplyKeepsPurger(s: State, w: nat, r: nat)
    requires PurgerOk(s) && Enabled(s, Apply(w, r))
    ensures PurgerOk(Next(s, Apply(w, r)))
  {
  }

  lemma ApplyKeepsInv(s: State, w: nat, r: nat)
    requires Inv(s) && Enabled(s, Apply(w, r))
    ensures Inv(Next(s, Apply(w, r)))
  {
    hide Exact;
    var x := s.writers[w];
    var writers, refs := s.writers[w := x.(todo := x.todo - {r})], s.refs[r := Refs(s, r) + {x.file}];
    assert Exact(s.hook, writers) by { SameCounts(s.writers, writers, s.hook); }
    assert RefsIn(refs, s.first, s.active);
    assert Safe(s.(writers := writers, refs := refs));
    assert PurgerOk(s.(writers := writers, refs := refs)) by { ApplyKeepsPurger(s, w, r); }
  }

  lemma UncountKeepsInv(s: State, w: nat)
    requires Inv(s) && Enabled(s, Uncount(w)) && Asserts(s, Uncount(w))
    ensures Inv(Next(s, Uncount(w)))
  {
    hide Exact;
    UncountKeepsExact(s.hook, s.writers, w);
  }

  lemma DropKeepsInv(s: State, step: Step, r: nat)
    requires Inv(s) && Enabled(s, step) && ((step.DropRefs? && step.region == r) || step == Clean(r))
    ensures Inv(Next(s, step))
  {
    hide Exact;
    var after := Next(s, step);
    assert RefsIn(after.refs, s.first, s.active);
    assert Safe(after) && HookOk(after) && LockOk(after);
    assert PurgerOk(after);
  }

  /** One counter read: if it is zero, no batch in flight is in that file or before. */
  lemma ScanKeepsInv(s: State)
    requires Inv(s) && Enabled(s, Scan)
    ensures Inv(Next(s, Scan))
  {
    hide CountedAt;
    var p := s.purger;
    if p.pos < |s.hook| && s.hook[p.pos].count == 0 {
      forall w | w in s.writers ensures T.Min(p.latest, s.first + p.pos + 1) <= s.writers[w].file {
        FilesAreHooked(s, w);
        if s.writers[w].Counted? { ZeroMeansNone(s, w); }
      }
    }
  }

  lemma RescanKeepsInv(s: State, r: nat)
    requires Inv(s) && Enabled(s, Rescan(r))
    ensures Inv(Next(s, Rescan(r)))
  {
  }

  lemma PurgeKeepsInv(s: State, step: Step)
    requires Inv(s) && Enabled(s, step) && Asserts(s, step) && (step.PurgeTo? || step.PostPurge?)
    ensures Inv(Next(s, step))
  {
    hide Drained, Exact;
    if step.PostPurge? { DrainKeepsExact(s.hook, s.writers, s.purger.min - 1); }
  }

  lemma PurgerStartKeepsInv(s: State, step: Step)
    requires Inv(s) && Enabled(s, step) && (step.ReadLatest? || step.BeginScan? || step.BeginRescan?)
    ensures Inv(Next(s, step))
  {
    hide Exact;
  }

  lemma StepKeepsInv(s: State, step: Step)
    requires Inv(s) && Enabled(s, step) && Asserts(s, step)
    ensures Inv(Next(s, step))
  {
    hide Inv, Enabled, Asserts, Next;
    match step
    case DropRefs(r, left) => DropKeepsInv(s, step, r);
    case Clean(r) => DropKeepsInv(s, step, r);
    case RotateSpan => RotateKeepsInv(s, step);
    case RotateHook => RotateKeepsInv(s, step);
    case Write(w, regions) => WriteKeepsInv(s, w, regions);
    case Count(w) => CountKeepsInv(s, w);
    case Apply(w, r) => ApplyKeepsInv(s, w, r);
    case Uncount(w) => UncountKeepsInv(s, w);
    case Scan => ScanKeepsInv(s);
    case Rescan(r) => RescanKeepsInv(s, r);
    case PurgeTo => PurgeKeepsInv(s, step);
    case PostPurge => PurgeKeepsInv(s, step);
    case ReadLatest => PurgerStartKeepsInv(s, step);
    case BeginScan => PurgerStartKeepsInv(s, step);
    case BeginRescan => PurgerStartKeepsInv(s, step);
  }

  /** The counters tell how high a rewrite may choose its gate: below the active file and below
      every file with a positive counter, it is below every batch that is not fully applied. */
  lemma CountersBoundFlight(s: State, gate: FileSeq, w: nat)
    requires Inv(s) && gate < s.active && w in s.writers
    requires forall k :: 0 <= k < |s.hook| && s.hook[k].count > 0 ==> gate < s.hook[k].seqno
    ensures gate < s.writers[w].file
  {
    hide HookOk, RefsIn, PurgerOk, CountedAt;
    if s.writers[w].Counted? {
      FilesAreHooked(s, w);
      ZeroMeansNone(s, w);
    }
  }

  // ------------------------------------------------------------------- runs

  /** After opening: the counters of the existing files are zero, nothing is in flight. */
  ghost predicate Opened(s: State) {
    && s.first <= s.active && |s.hook| == s.active - s.first + 1
    && (forall k :: 0 <= k < |s.hook| ==> s.hook[k] == HookFile(s.first + k, 0))
    && s.lock.Free? && s.writers == map[] && s.purger.Resting?
    && RefsIn(s.refs, s.first, s.active)
  }

  /** Every step of the run is attempted when it is enabled, whatever its assertions say. */
  ghost predicate Attempts(s: State, steps: seq<Step>)
    decreases |steps|
  {
    steps == [] || (Enabled(s, steps[0]) && (Asserts(s, steps[0]) ==> Attempts(Next(s, steps[0]), steps[1..])))
  }

  ghost predicate NoPanic(s: State, steps: seq<Step>)
    decreases |steps|
  {
    steps == [] || (Enabled(s, steps[0]) && Asserts(s, steps[0]) && NoPanic(Next(s, steps[0]), steps[1..]))
  }

  ghost function After(s: State, steps: seq<Step>): State
    requires NoPanic(s, steps)
    decreases |steps|, 1
  {
    if steps == [] then s else After(Next(s, steps[0]), steps[1..])
  }

  lemma {:induction false} RunKeepsInv(s: State, steps: seq<Step>)
    requires Inv(s) && Attempts(s, steps)
    ensures NoPanic(s, steps) && Inv(After(s, steps))
    decreases |steps|
  {
    if steps != [] {
      AssertionsHold(s, steps[0]);
      StepKeepsInv(s, steps[0]);
      RunKeepsInv(Next(s, steps[0]), steps[1..]);
    }
  }

  /** The purge protocol is safe: over every interleaving of rotations, writes, applies and
      a purge, no assertion fails, and no file that a table reads or that holds a batch not
      yet applied is ever deleted. */
  lemma PurgeIsSafe(s: State, steps: seq<Step>)
    requires Opened(s) && Attempts(s, steps)
    ensures NoPanic(s, steps) && Safe(After(s, steps))
  {
    assert Inv(s) by {
      forall k | 0 <= k < |s.hook| ensures CountedAt(s.writers, s.hook[k].seqno) == {} { }
    }
    RunKeepsInv(s, steps);
  }

  // ------------------------------------------------------------------ the hook

  /** The per-file counters, as the listener of the append queue keeps them. The assertions
      of each callback are its preconditions; `PurgeIsSafe` shows that they hold. */
  class PurgeHook {
    var files: seq<HookFile>

    constructor ()
      ensures files == []
    {
      files := [];
    }

    /** A new file is counted from now on: the deque stays indexable by file, covers exactly one
        more file, and holds back no purge that it did not hold back before. */
    method PostNewLogFile(file: FileSeq)
      requires |files| > 0 ==> Back(files) + 1 == file
      modifies this
      ensures files == old(files) + [HookFile(file, 0)]
      ensures Contiguous(old(files)) ==> Contiguous(files)
      ensures Contiguous(old(files)) ==> forall f :: InHook(files, f) <==> InHook(old(files), f) || f == file
      ensures (forall k :: 0 <= k < |files| ==> files[k].count == 0) <==>
              (forall k :: 0 <= k < |old(files)| ==> old(files)[k].count == 0)
    {
      assert forall k :: 0 <= k < |files| ==> (files + [HookFile(file, 0)])[k] == files[k];
      files := files + [HookFile(file, 0)];
    }

    method OnAppendLogFile(file: FileSeq)
      requires InHook(files, file)
      modifies this
      ensures files == Bump(old(files), file)
    {
      var k := file - files[0].seqno;
      files := files[k := HookFile(files[k].seqno, files[k].count + 1)];
    }

    method PostApplyMemtables(file: FileSeq)
      requires InHook(files, file) && files[file - files[0].seqno].count > 0
      modifies this
      ensures files == Unbump(old(files), file)
    {
      var k := file - files[0].seqno;
      files := files[k := HookFile(files[k].seqno, files[k].count - 1)];
    }

    method FirstFileNotReadyForPurge() returns (r: Option<FileSeq>)
      ensures r.None? <==> forall k :: 0 <= k < |files| ==> files[k].count == 0
      ensures r.Some? ==> exists k :: 0 <= k < |files| && files[k].seqno == r.value && files[k].count > 0
                                      && forall j :: 0 <= j < k ==> files[j].count == 0
    {
      for k := 0 to |files|
        invariant forall j :: 0 <= j < k ==> files[j].count == 0
      {
        if files[k].count > 0 {
          return Some(files[k].seqno);
        }
      }
      return None;
    }

    method PostPurge(file: FileSeq)
      requires |files| > 0
      requires files[0].seqno <= file ==>
                 file < files[0].seqno + |files| && files[file - files[0].seqno].seqno == file
      modifies this
      ensures files == Drained(old(files), file)
    {
      if files[0].seqno <= file {
        files := files[file - files[0].seqno + 1..];
      }
    }
  }

  /** The rescan: the largest bound that no table's oldest file and not `barrier` is below. */
  method RescanMemtables(barrier: FileSeq, mins: seq<Option<FileSeq>>) returns (min: FileSeq)
    ensures min <= barrier && forall k :: 0 <= k < |mins| && mins[k].Some? ==> min <= mins[k].value
    ensures min == barrier || exists k :: 0 <= k < |mins| && mins[k] == Some(min)
  {
    min := barrier;
    for k := 0 to |mins|
      invariant min <= barrier && forall j :: 0 <= j < k && mins[j].Some? ==> min <= mins[j].value
      invariant min == barrier || exists j :: 0 <= j < k && mins[j] == Some(min)
    {
      if mins[k].Some? && mins[k].value < min {
        min := mins[k].value;
      }
    }
  }

  // ---------------------------------------------------------------- progress

  predicate PurgerStep(step: Step) {
    match step
    case ReadLatest => true
    case BeginScan => true
    case Scan => true
    case BeginRescan => true
    case Rescan(_) => true
    case PurgeTo => true
    case PostPurge => true
    case _ => false
  }

  /** A file that must stay: the active one, or one that a batch in flight or a table needs. */
  ghost predicate Needed(s: State, file: FileSeq) {
    || file == s.active
    || (exists w :: w in s.writers && s.writers[w].file == file)
    || (exists r :: r in s.refs && file in s.refs[r])
  }

  /** The bound the purger holds is not lower than it has to be. */
  ghost predicate Tight(s: State) {
    match s.purger
    case HasLatest(latest) => latest == s.active
    case Scanning(latest, _) => latest == s.active
    case HasBarrier(barrier) => Needed(s, barrier)
    case Rescanning(min, _) => Needed(s, min)
    case Purged(min) => Needed(s, min)
    case Resting => true
  }

  lemma StepKeepsTight(s: State, step: Step)
    requires Inv(s) && Tight(s) && PurgerStep(step) && Enabled(s, step) && Asserts(s, step)
    ensures Tight(Next(s, step))
    ensures step.PurgeTo? ==> Needed(Next(s, step), Next(s, step).first)
  {
    if step.Scan? && s.purger.pos < |s.hook| && s.hook[s.purger.pos].count > 0 {
      var counted := CountedAt(s.writers, s.hook[0].seqno + s.purger.pos);
      assert counted != {};
      var w :| w in counted;
      assert s.writers[w].file == s.hook[s.purger.pos].seqno;
    }
    if step.Rescan? && Refs(s, step.region) != {} {
      assert step.region in s.refs && T.MinOf(Refs(s, step.region)) in s.refs[step.region];
    }
  }

  /** A purge that meets no other thread stops only at a file that is needed: the first file it
      leaves is one. */
  lemma {:induction false} PurgeIsComplete(s: State, steps: seq<Step>)
    requires Inv(s) && Tight(s) && NoPanic(s, steps)
    requires forall k :: 0 <= k < |steps| ==> PurgerStep(steps[k])
    requires steps != [] && steps[|steps| - 1].PurgeTo?
    ensures Needed(After(s, steps), After(s, steps).first)
    decreases |steps|
  {
    StepKeepsInv(s, steps[0]);
    StepKeepsTight(s, steps[0]);
    if |steps| == 1 {
      assert After(s, steps) == Next(s, steps[0]);
    } else {
      PurgeIsComplete(Next(s, steps[0]), steps[1..]);
    }
  }
}
