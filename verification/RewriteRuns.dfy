/**
 Whole runs of one region under writers and rewrite passes: what holds in every run, what
 needs a rule for choosing gates, and exactly which rules are good enough.
 */
module RewriteRuns {
  import opened PipeLog
  import opened Tables
  import opened RewritePass
  import opened RewriteView
  import RC = RewriteReach

  ghost predicate Runs(f: Files, s: State, steps: seq<Step>)
    decreases |steps|
  {
    |steps| == 0 || (s.t.rewriteCount <= |s.t.entries| && Enabled(f, s, steps[0]) && Runs(f, Next(f, s, steps[0]), steps[1..]))
  }

  ghost function After(f: Files, s: State, steps: seq<Step>): State
    requires Runs(f, s, steps)
    decreases |steps|
  {
    if |steps| == 0 then s else After(f, Next(f, s, steps[0]), steps[1..])
  }

  ghost function ModelAfter(f: Files, s: State, m: Model, steps: seq<Step>): Model
    requires Runs(f, s, steps)
    decreases |steps|
  {
    if |steps| == 0 then m else ModelAfter(f, Next(f, s, steps[0]), NextModel(f, s, m, steps[0]), steps[1..])
  }

  /** A rule for choosing gates: whether it allows a gate, given the oldest file of the append
      queue with an item of the region that is not applied. */
  type Rule = (FileSeq, Option<FileSeq>) -> bool

  /** Every gated fetch of the run is allowed by the rule. */
  ghost predicate Follows(f: Files, s: State, steps: seq<Step>, rule: Rule)
    requires Runs(f, s, steps)
    decreases |steps|
  {
    |steps| == 0 ||
    (&& (steps[0].BeginGated? ==> rule(steps[0].gate, FirstUnapplied(s)))
     && Follows(f, Next(f, s, steps[0]), steps[1..], rule))
  }

  /** The rule allows only gates below the oldest file with an unapplied item. */
  ghost predicate Clear(rule: Rule) {
    forall gate, file :: rule(gate, Some(file)) ==> gate < file
  }

  const InitState := State(EmptyTable, [], Idle, 0, 0, true)
  const InitModel := Model(map[], map[])

  lemma {:induction false} RunKeepsShape(f: Files, s: State, steps: seq<Step>)
    requires Shape(f, s) && Runs(f, s, steps)
    ensures Shape(f, After(f, s, steps))
    decreases |steps|
  {
    hide Shape;
    if |steps| > 0 {
      StepKeepsShape(f, s, steps[0]);
      RunKeepsShape(f, Next(f, s, steps[0]), steps[1..]);
    }
  }

  lemma {:induction false} RunKeepsView(f: Files, s: State, m: Model, steps: seq<Step>, rule: Rule)
    requires Shape(f, s) && View(f, s, m) && Runs(f, s, steps) && Clear(rule) && Follows(f, s, steps, rule)
    ensures View(f, After(f, s, steps), ModelAfter(f, s, m, steps))
    decreases |steps|
  {
    hide Shape, View;
    if |steps| > 0 {
      StepKeepsShape(f, s, steps[0]);
      StepKeepsView(f, s, m, steps[0]);
      RunKeepsView(f, Next(f, s, steps[0]), NextModel(f, s, m, steps[0]), steps[1..], rule);
    }
  }

  lemma InitHolds(f: Files)
    ensures Shape(f, InitState) && View(f, InitState, InitModel)
  {
  }

  // ------------------------------------------------------------ what readers see

  /** Every index reads back the content the simple log has for it, no other index exists, and
      every key has its latest value and points at a file that records that value. */
  ghost predicate Invisible(f: Files, steps: seq<Step>)
    requires Runs(f, InitState, steps)
  {
    var t, m := After(f, InitState, steps).t, ModelAfter(f, InitState, InitModel, steps);
    && (forall i: nat :: i in m.log <==> t.Has(i))
    && (forall i: nat :: t.Has(i) ==> f.content(t.At(i)) == m.log[i])
    && (forall k :: k in m.keys <==> k in t.kvs)
    && (forall k :: k in t.kvs ==> t.kvs[k].value == m.keys[k] && f.holds(t.kvs[k].id, k, m.keys[k]))
  }

  /** Rewriting is invisible to readers in every run without a failed assertion whose gates
      stay below the oldest file with an unapplied item. */
  lemma RewritingIsInvisible(f: Files, steps: seq<Step>, rule: Rule)
    requires Runs(f, InitState, steps) && Clear(rule) && Follows(f, InitState, steps, rule)
    ensures Invisible(f, steps)
  {
    InitHolds(f);
    RunKeepsView(f, InitState, InitModel, steps, rule);
    BareShows(f, After(f, InitState, steps), ModelAfter(f, InitState, InitModel, steps));
  }

  lemma BareShows(f: Files, s: State, m: Model)
    requires View(f, s, m)
    ensures forall i: nat :: i in m.log <==> s.t.Has(i)
    ensures forall i: nat :: s.t.Has(i) ==> f.content(s.t.At(i)) == m.log[i]
    ensures forall k :: k in m.keys <==> k in s.t.kvs
    ensures forall k :: k in s.t.kvs ==> s.t.kvs[k].value == m.keys[k] && f.holds(s.t.kvs[k].id, k, m.keys[k])
  {
    assert forall i: nat :: Bare(s.t).Has(i) <==> s.t.Has(i);
    assert forall i: nat :: s.t.Has(i) ==> Bare(s.t).At(i) == s.t.At(i);
  }

  /** A chunk never replaces an append newer than its gate, in any run; under a clear rule
      what it moves keeps its content. */
  lemma NewerAppendsStay(f: Files, steps: seq<Step>, rule: Rule, rw: seq<EntryIndex>, file: FileSeq, i: nat)
    requires Runs(f, InitState, steps)
    requires var s := After(f, InitState, steps);
             Enabled(f, s, ApplyChunk(rw, file)) && s.t.Has(i) && s.t.Valid()
    ensures var s := After(f, InitState, steps);
            var t' := Next(f, s, ApplyChunk(rw, file)).t;
            && t'.Has(i)
            && (s.t.At(i).Queue() == AppendQueue && (s.phase.gate.None? || s.phase.gate.value < s.t.At(i).Seq()) ==>
                  t'.At(i) == s.t.At(i))
            && (Clear(rule) && Follows(f, InitState, steps, rule) ==> f.content(t'.At(i)) == f.content(s.t.At(i)))
  {
    hide Rewritten, CanRewrite, Shape, View, Follows, Clear;
    var s := After(f, InitState, steps);
    InitHolds(f);
    assert PassShape(Bare(s.t), BarePhase(s.phase)) by { RunKeepsShape(f, InitState, steps); ShapeOfPass(f, s); }
    BareRewrite(s.t, rw, s.phase.gate);
    BareValid(s.t);
    ChunkRange(f, Bare(s.t), BarePhase(s.phase), rw, file, i);
    if Clear(rule) && Follows(f, InitState, steps, rule) {
      RunKeepsView(f, InitState, InitModel, steps, rule);
      ViewOfPass(f, s, ModelAfter(f, InitState, InitModel, steps));
    }
  }

  lemma ShapeOfPass(f: Files, s: State)
    requires Shape(f, s) && s.phase.Pass?
    ensures Bare(s.t).Valid() && PassShape(Bare(s.t), BarePhase(s.phase))
  {
  }

  lemma ViewOfPass(f: Files, s: State, m: Model)
    requires View(f, s, m) && s.phase.Pass?
    ensures PassView(f, Bare(s.t), BarePhase(s.phase))
  {
  }

  /** In every run the fronts bound all files in use: always for the append queue, and for
      the rewrite queue whenever no squeeze is under way or was abandoned since the last
      complete one. */
  lemma MinFileSeqBoundsRun(f: Files, steps: seq<Step>, queue: LogQueue)
    requires Runs(f, InitState, steps)
    requires queue == RewriteQueue ==> KnownSorted(After(f, InitState, steps))
    ensures var t := After(f, InitState, steps).t;
            && t.Valid()
            && (MinFileSeq(t, queue).None? <==> FileRefs(t, queue) == {})
            && (forall q :: q in FileRefs(t, queue) ==> MinFileSeq(t, queue).Some? && MinFileSeq(t, queue).value <= q)
            && (queue == RewriteQueue && t.group.Some? ==>
                  forall q :: q in FileRefs(t, queue) && q <= t.group.value.1 ==>
                                MinFileSeq(t, queue).Some? && MinFileSeq(t, queue).value <= t.group.value.0)
  {
    InitHolds(f);
    RunKeepsShape(f, InitState, steps);
    var s := After(f, InitState, steps);
    assert PartsSorted(Bare(s.t), queue) ==> PartsSorted(s.t, queue);
    MinFileSeqIsLowerBound(s.t, queue);
  }

  /** The assertion on a rewritten key never fails: its file is not newer than the new one. */
  lemma KeyAssertionHolds(f: Files, steps: seq<Step>, key: Bytes, file: FileSeq)
    requires Runs(f, InitState, steps) && Enabled(f, After(f, InitState, steps), ApplyKey(key, file))
    requires key in After(f, InitState, steps).t.kvs
    ensures var id := After(f, InitState, steps).t.kvs[key].id;
            id.queue == RewriteQueue ==> id.seqno <= file
  {
    InitHolds(f);
    RunKeepsShape(f, InitState, steps);
  }

  // ------------------------------------------------------------- what a pass achieves

  lemma {:induction false} RunReaches(f: Files, s: State, m: Model, steps: seq<Step>, rule: Rule)
    requires Shape(f, s) && View(f, s, m) && RC.GatedReach(s)
    requires Runs(f, s, steps) && Clear(rule) && Follows(f, s, steps, rule)
    ensures RC.GatedReach(After(f, s, steps))
    decreases |steps|
  {
    hide Shape, View, RC.GatedReach;
    if |steps| > 0 {
      StepKeepsShape(f, s, steps[0]);
      StepKeepsView(f, s, m, steps[0]);
      RC.StepReaches(f, s, m, steps[0]);
      RunReaches(f, Next(f, s, steps[0]), NextModel(f, s, m, steps[0]), steps[1..], rule);
    }
  }

  lemma {:induction false} RunReachesSqueeze(f: Files, s: State, steps: seq<Step>)
    requires Shape(f, s) && RC.SqueezeReach(s) && Runs(f, s, steps)
    ensures RC.SqueezeReach(After(f, s, steps))
    decreases |steps|
  {
    hide Shape, RC.SqueezeReach;
    if |steps| > 0 {
      StepKeepsShape(f, s, steps[0]);
      RC.StepReachesSqueeze(f, s, steps[0]);
      RunReachesSqueeze(f, Next(f, s, steps[0]), steps[1..]);
    }
  }

  /** A finished gated pass frees the files up to its gate: in every run under a clear rule, when
      the pass can end, every append file an entry or a key is in is newer than the gate, and so
      is the oldest file that is reported. */
  lemma GatedPassFrees(f: Files, steps: seq<Step>, rule: Rule)
    requires Runs(f, InitState, steps) && Clear(rule) && Follows(f, InitState, steps, rule)
    requires var s := After(f, InitState, steps); Enabled(f, s, EndPass) && s.phase.gate.Some?
    ensures var s := After(f, InitState, steps);
            && s.t.rewriteCount <= |s.t.entries|
            && (forall q :: q in FileRefs(s.t, AppendQueue) ==> s.phase.gate.value < q)
            && (MinFileSeq(s.t, AppendQueue).Some? ==> s.phase.gate.value < MinFileSeq(s.t, AppendQueue).value)
  {
    hide Runs, Follows, Clear, Shape, MinFileSeq, FileRefs;
    InitHolds(f);
    RunKeepsShape(f, InitState, steps);
    RunReaches(f, InitState, InitModel, steps, rule);
    var s := After(f, InitState, steps);
    forall q | q in FileRefs(s.t, AppendQueue)
      ensures s.phase.gate.value < q
    {
      RC.GatedEnd(f, s, q);
    }
    SortedShape(f, s, AppendQueue);
    MinFileSeqIsMin(s.t, AppendQueue);
  }

  lemma SortedShape(f: Files, s: State, queue: LogQueue)
    requires Shape(f, s) && (queue == RewriteQueue ==> KnownSorted(s))
    ensures s.t.Valid() && PartsSorted(s.t, queue)
  {
    assert PartsSorted(Bare(s.t), queue);
  }

  /** A finished squeeze frees the older rewrite files, in every run: when it can end, every
      rewrite file an entry or a key is in was begun by the squeeze or later. */
  lemma SqueezeFrees(f: Files, steps: seq<Step>)
    requires Runs(f, InitState, steps)
    requires var s := After(f, InitState, steps); Enabled(f, s, EndPass) && s.phase.gate.None?
    ensures var s := After(f, InitState, steps);
            forall q :: q in FileRefs(s.t, RewriteQueue) ==> s.phase.start <= q
  {
    hide Runs, Shape, FileRefs;
    InitHolds(f);
    RunKeepsShape(f, InitState, steps);
    RunReachesSqueeze(f, InitState, steps);
    var s := After(f, InitState, steps);
    forall q | q in FileRefs(s.t, RewriteQueue)
      ensures s.phase.start <= q
    {
      RC.SqueezeEnd(f, s, q);
    }
  }

  // ------------------------------------------------------- the failing assertion

  /**
   Exactly when applying a chunk trips an assertion, in every run: the entry in front of the
   chunk is an appended one. It takes an append since the fetch that started below the chunk.
   */
  lemma RewritePanicsExactly(f: Files, steps: seq<Step>, rw: seq<EntryIndex>, file: FileSeq)
    requires Runs(f, InitState, steps)
    requires var s := After(f, InitState, steps);
             s.phase.Pass? && CopiesOf(f, rw, s.phase.pending, file)
    ensures var s := After(f, InitState, steps);
            CanRewrite(s.t, rw, s.phase.gate) <==>
            !(s.t.Has(s.phase.next) && 0 < s.phase.next && s.t.Has(s.phase.next - 1)
              && s.t.At(s.phase.next - 1).Queue() == AppendQueue)
    ensures var s := After(f, InitState, steps);
            !CanRewrite(s.t, rw, s.phase.gate) ==> s.phase.low < s.phase.next
  {
    hide CanRewrite, Runs, Shape;
    InitHolds(f);
    RunKeepsShape(f, InitState, steps);
    var s := After(f, InitState, steps);
    ShapeOfPass(f, s);
    BareValid(s.t);
    BareRewrite(s.t, rw, s.phase.gate);
    PanicCondition(f, Bare(s.t), BarePhase(s.phase), rw, file);
  }

  lemma PanicCondition(f: Files, t: Table, p: Phase, rw: seq<EntryIndex>, file: FileSeq)
    requires t.Valid() && p.Pass? && PassShape(t, p) && CopiesOf(f, rw, p.pending, file)
    ensures CanRewrite(t, rw, p.gate) <==>
            !(t.Has(p.next) && 0 < p.next && t.Has(p.next - 1) && t.At(p.next - 1).Queue() == AppendQueue)
    ensures !CanRewrite(t, rw, p.gate) ==> p.low < p.next
  {
    assert p.pending[0].index == p.next && rw[0].index == p.next && rw[|rw| - 1].index == p.next + |rw| - 1;
  }

  /** Applying the chunk panics exactly if an append since the fetch started below it and the
      table still holds its first index and the one before. */
  ghost predicate PanicsAfterAppend(s: State, rw: seq<EntryIndex>)
    requires s.phase.Pass?
  {
    CanRewrite(s.t, rw, s.phase.gate) <==>
    !(s.phase.low < s.phase.next && s.t.Has(s.phase.next) && s.t.Has(s.phase.next - 1))
  }

  lemma ClearRunPanics(f: Files, steps: seq<Step>, rule: Rule, rw: seq<EntryIndex>, file: FileSeq)
    requires Runs(f, InitState, steps) && Clear(rule) && Follows(f, InitState, steps, rule)
    requires var s := After(f, InitState, steps);
             s.phase.Pass? && CopiesOf(f, rw, s.phase.pending, file)
    ensures PanicsAfterAppend(After(f, InitState, steps), rw)
  {
    hide CanRewrite, Runs, Follows, Clear, Shape, View;
    RewritePanicsExactly(f, steps, rw, file);
    InitHolds(f);
    RunKeepsShape(f, InitState, steps);
    RunKeepsView(f, InitState, InitModel, steps, rule);
    var s := After(f, InitState, steps);
    ViewOfPass(f, s, ModelAfter(f, InitState, InitModel, steps));
    ShapeOfPass(f, s);
    if 0 < s.phase.next && s.t.Has(s.phase.next - 1) {
      BehindNext(f, Bare(s.t), BarePhase(s.phase));
      assert Bare(s.t).At(s.phase.next - 1) == s.t.At(s.phase.next - 1);
    }
  }

  /** What is right in front of the pass: appended since the fetch, or rewritten. */
  lemma BehindNext(f: Files, t: Table, p: Phase)
    requires t.Valid() && p.Pass? && PassShape(t, p) && PassView(f, t, p) && 0 < p.next && t.Has(p.next - 1)
    ensures t.At(p.next - 1).Queue() == AppendQueue <==> p.low < p.next
  {
  }

  // ------------------------------------------------------------------- witnesses

  lemma {:induction false} RunExtends(f: Files, s: State, m: Model, steps: seq<Step>, step: Step, rule: Rule)
    requires Runs(f, s, steps) && Follows(f, s, steps, rule)
    requires var s' := After(f, s, steps);
             && s'.t.rewriteCount <= |s'.t.entries| && Enabled(f, s', step)
             && (step.BeginGated? ==> rule(step.gate, FirstUnapplied(s')))
    ensures Runs(f, s, steps + [step]) && Follows(f, s, steps + [step], rule)
    ensures After(f, s, steps + [step]) == Next(f, After(f, s, steps), step)
    ensures ModelAfter(f, s, m, steps + [step]) == NextModel(f, After(f, s, steps), ModelAfter(f, s, m, steps), step)
    decreases |steps|
  {
    hide Enabled, Next, NextModel;
    if |steps| == 0 {
      assert (steps + [step])[1..] == [];
    } else {
      assert (steps + [step])[1..] == steps[1..] + [step];
      RunExtends(f, Next(f, s, steps[0]), NextModel(f, s, m, steps[0]), steps[1..], step, rule);
    }
  }

  /** Files in which the content of an entry tells which write it came from. */
  const Tagged := Files((l: Location) => [l.entryOffset], (id, k, v) => true)

  function Tag(queue: LogQueue, file: FileSeq, tag: nat): Location {
    Location(FileBlockHandle(FileId(queue, file), 0, 0), NoCompression, tag, 0)
  }

  /** Indexes 1 and 2 in one file. */
  function Pair(queue: LogQueue, file: FileSeq, tag: nat): seq<EntryIndex> {
    [EntryIndex(1, Tag(queue, file, tag)), EntryIndex(2, Tag(queue, file, tag))]
  }

  function PairTable(file: FileSeq, tag: nat): Table {
    Table(1, Locations(Pair(AppendQueue, file, tag)), 0, map[], None)
  }

  /** Indexes 1 and 2 are written to `file` and applied. */
  lemma PairApplied(file: FileSeq, rule: Rule) returns (steps: seq<Step>)
    ensures Runs(Tagged, InitState, steps) && Follows(Tagged, InitState, steps, rule)
    ensures After(Tagged, InitState, steps) == State(PairTable(file, 0), [], Idle, file, 0, true)
  {
    hide Runs, Follows, After, ModelAfter;
    steps := Rotated(file, rule);
    var write := Write([Entries(Pair(AppendQueue, file, 0))]);
    RunExtends(Tagged, InitState, InitModel, steps, write, rule);
    steps := steps + [write];
    RunExtends(Tagged, InitState, InitModel, steps, ApplyNext, rule);
    steps := steps + [ApplyNext];
  }

  lemma Rotated(file: FileSeq, rule: Rule) returns (steps: seq<Step>)
    ensures Runs(Tagged, InitState, steps) && Follows(Tagged, InitState, steps, rule)
    ensures After(Tagged, InitState, steps) == InitState.(activeAppend := file)
  {
    steps := [];
    if file > 0 {
      RunExtends(Tagged, InitState, InitModel, steps, Rotate(file), rule);
      steps := steps + [Rotate(file)];
    }
  }

  /** A pass at `gate` has fetched them while an overwrite of both in the same file is written
      and not applied. */
  lemma FetchedTooEarly(gate: FileSeq, file: FileSeq, rule: Rule) returns (steps: seq<Step>)
    requires file <= gate && rule(gate, Some(file))
    ensures Runs(Tagged, InitState, steps) && Follows(Tagged, InitState, steps, rule)
    ensures After(Tagged, InitState, steps) ==
            State(PairTable(file, 0), [Written(Entries(Pair(AppendQueue, file, 1)), file)],
                  Pass(Some(gate), 0, Pair(AppendQueue, file, 0), map[], 1, 3), gate + 1, 0, true)
  {
    hide Runs, Follows, After, ModelAfter;
    steps := PairApplied(file, rule);
    var write := Write([Entries(Pair(AppendQueue, file, 1))]);
    RunExtends(Tagged, InitState, InitModel, steps, write, rule);
    steps := steps + [write];
    RunExtends(Tagged, InitState, InitModel, steps, Rotate(gate + 1), rule);
    steps := steps + [Rotate(gate + 1)];
    PairIsFetched(file, gate);
    RunExtends(Tagged, InitState, InitModel, steps, BeginGated(gate), rule);
    steps := steps + [BeginGated(gate)];
  }

  lemma PairIsFetched(file: FileSeq, gate: FileSeq)
    requires file <= gate
    ensures FetchedBefore(PairTable(file, 0), gate) == Pair(AppendQueue, file, 0)
    ensures FetchedKeys(PairTable(file, 0), Some(gate)) == map[]
  {
    FetchedFromIsRun(PairTable(file, 0), 0, gate);
  }

  /** ... and then the overwrite is applied. */
  lemma AppliedTooLate(gate: FileSeq, file: FileSeq, rule: Rule) returns (steps: seq<Step>)
    requires file <= gate && rule(gate, Some(file))
    ensures Runs(Tagged, InitState, steps) && Follows(Tagged, InitState, steps, rule)
    ensures After(Tagged, InitState, steps) ==
            State(PairTable(file, 1), [], Pass(Some(gate), 0, Pair(AppendQueue, file, 0), map[], 1, 1), gate + 1, 0, true)
    ensures var log := ModelAfter(Tagged, InitState, InitModel, steps).log; 1 in log && log[1] == [1]
  {
    hide Runs, Follows, After, ModelAfter;
    var early := FetchedTooEarly(gate, file, rule);
    RunExtends(Tagged, InitState, InitModel, early, ApplyNext, rule);
    steps := early + [ApplyNext];
    assert After(Tagged, InitState, steps).t == PairTable(file, 1);
  }

  /** The first chunk replaces index 1 by the old content, and the second one is accepted. */
  lemma StaleChunk(gate: FileSeq, file: FileSeq)
    requires file <= gate
    ensures var t, rw, p := PairTable(file, 1), Pair(RewriteQueue, 0, 0), Pair(AppendQueue, file, 0);
            && CopiesOf(Tagged, rw[..1], p, 0) && CanRewrite(t, rw[..1], Some(gate))
            && CopiesOf(Tagged, rw[1..], p[1..], 0)
            && var t' := Rewritten(t, rw[..1], Some(gate));
            t'.Has(1) && t'.Has(2) && t'.At(1) == Tag(RewriteQueue, 0, 0) && CanRewrite(t', rw[1..], Some(gate))
  {
    var t, rw := PairTable(file, 1), Pair(RewriteQueue, 0, 0);
    assert RewriteLo(t, rw[..1]) == 1 && RewriteHi(t, rw[..1]) == 2;
    RewriteStopIsFirst(t, 1, 2, Some(gate));
    var t' := Rewritten(t, rw[..1], Some(gate));
    assert t'.At(2) == t.At(2);
  }

  /**
   A late apply lets a stale entry win. An overwrite is written to `file` and not yet applied,
   the queue moves on, a pass with a gate at or above `file` fetches the old entries, the
   overwrite is applied, and the chunk puts the old content back. No assertion fails, now or
   at the next chunk, though an append since the fetch started below it.
   */
  lemma LateApplyGoesStale(gate: FileSeq, file: FileSeq, rule: Rule) returns (steps: seq<Step>)
    requires file <= gate && rule(gate, Some(file))
    ensures Runs(Tagged, InitState, steps) && Follows(Tagged, InitState, steps, rule)
    ensures !Invisible(Tagged, steps)
    ensures var s, rw := After(Tagged, InitState, steps), Pair(RewriteQueue, 0, 0)[1..];
            s.phase.Pass? && CopiesOf(Tagged, rw, s.phase.pending, 0) && !PanicsAfterAppend(s, rw)
  {
    hide Runs, Follows, After, ModelAfter, Rewritten, CanRewrite, CopiesOf;
    var late := AppliedTooLate(gate, file, rule);
    StaleChunk(gate, file);
    var chunk := Pair(RewriteQueue, 0, 0)[..1];
    RunExtends(Tagged, InitState, InitModel, late, ApplyChunk(chunk, 0), rule);
    steps := late + [ApplyChunk(chunk, 0)];
    var s := After(Tagged, InitState, steps);
    assert Tagged.content(s.t.At(1)) == [0];
  }

  /** Exactly the clear rules keep rewriting invisible. */
  lemma InvisibleExactly(rule: Rule)
    ensures (forall f: Files, steps :: Runs(f, InitState, steps) && Follows(f, InitState, steps, rule) ==>
                                         Invisible(f, steps)) <==> Clear(rule)
  {
    if Clear(rule) {
      forall f: Files, steps | Runs(f, InitState, steps) && Follows(f, InitState, steps, rule)
        ensures Invisible(f, steps)
      {
        RewritingIsInvisible(f, steps, rule);
      }
    } else {
      var gate, file :| rule(gate, Some(file)) && file <= gate;
      var steps := LateApplyGoesStale(gate, file, rule);
      assert Runs(Tagged, InitState, steps);
    }
  }

  /** Exactly under the clear rules, whether a chunk panics is a matter of appends since the
      fetch alone. */
  lemma PanicsExactly(rule: Rule)
    ensures (forall f: Files, steps, rw, file ::
               Runs(f, InitState, steps) && Follows(f, InitState, steps, rule)
               && After(f, InitState, steps).phase.Pass? && CopiesOf(f, rw, After(f, InitState, steps).phase.pending, file)
               ==> PanicsAfterAppend(After(f, InitState, steps), rw)) <==> Clear(rule)
  {
    if Clear(rule) {
      forall f: Files, steps, rw, file | Runs(f, InitState, steps) && Follows(f, InitState, steps, rule)
                                         && After(f, InitState, steps).phase.Pass?
                                         && CopiesOf(f, rw, After(f, InitState, steps).phase.pending, file)
        ensures PanicsAfterAppend(After(f, InitState, steps), rw)
      {
        ClearRunPanics(f, steps, rule, rw, file);
      }
    } else {
      var gate, file :| rule(gate, Some(file)) && file <= gate;
      var steps := LateApplyGoesStale(gate, file, rule);
      assert Runs(Tagged, InitState, steps);
    }
  }

  /** The assertion is reachable under every rule that allows a fetch with nothing in flight:
      two entries are fetched, both are overwritten before the first chunk is applied, and the
      second chunk then finds an append in front of it. */
  lemma ChunkedRewriteCanPanic(rule: Rule) returns (steps: seq<Step>)
    requires rule(0, None)
    ensures Runs(Tagged, InitState, steps) && Follows(Tagged, InitState, steps, rule)
    ensures var s, rw := After(Tagged, InitState, steps), Pair(RewriteQueue, 0, 0)[1..];
            && s.phase.Pass? && CopiesOf(Tagged, rw, s.phase.pending, 0)
            && !CanRewrite(s.t, rw, s.phase.gate)
  {
    hide Runs, Follows, After, ModelAfter;
    steps := OverwrittenAfterFetch(rule);
    var s := After(Tagged, InitState, steps);
    var chunk := Pair(RewriteQueue, 0, 0)[..1];
    RunExtends(Tagged, InitState, InitModel, steps, ApplyChunk(chunk, 0), rule);
    steps := steps + [ApplyChunk(chunk, 0)];
    var s' := After(Tagged, InitState, steps);
    assert s'.t == s.t;
  }

  lemma OverwrittenAfterFetch(rule: Rule) returns (steps: seq<Step>)
    requires rule(0, None)
    ensures Runs(Tagged, InitState, steps) && Follows(Tagged, InitState, steps, rule)
    ensures After(Tagged, InitState, steps) ==
            State(PairTable(1, 1), [], Pass(Some(0), 0, Pair(AppendQueue, 0, 0), map[], 1, 1), 1, 0, true)
  {
    hide Runs, Follows, After, ModelAfter;
    steps := PairApplied(0, rule);
    RunExtends(Tagged, InitState, InitModel, steps, Rotate(1), rule);
    steps := steps + [Rotate(1)];
    PairIsFetched(0, 0);
    RunExtends(Tagged, InitState, InitModel, steps, BeginGated(0), rule);
    steps := steps + [BeginGated(0)];
    var write := Write([Entries(Pair(AppendQueue, 1, 1))]);
    RunExtends(Tagged, InitState, InitModel, steps, write, rule);
    steps := steps + [write];
    RunExtends(Tagged, InitState, InitModel, steps, ApplyNext, rule);
    steps := steps + [ApplyNext];
    assert After(Tagged, InitState, steps).t == PairTable(1, 1);
  }
}
