/**
 Which regions a purge of the append queue rewrites, and which it asks to be compacted.

 A region that holds many old entries is not rewritten at once: the user is asked to
 compact it first. A counter per region, kept between purges, bounds how often.
 */
module PurgeRounds {
  import opened PipeLog

  const MAX_REWRITE_ENTRIES_PER_REGION: nat := 32
  const MAX_COUNT_BEFORE_FORCE_REWRITE: nat := 9

  /** What a purge looks at in a table: its oldest append file, and the file of each entry. */
  datatype Region = Region(id: nat, minAppend: Option<FileSeq>, rewriteCount: nat, seqs: seq<FileSeq>)

  datatype Round = Round(rewriteWatermark: FileSeq, compactWatermark: FileSeq, regions: seq<Region>, ok: bool)

  predicate HasEntriesBefore(x: Region, gate: FileSeq, count: nat)
    requires count > 0
  {
    count - 1 < |x.seqs| && x.seqs[count - 1] <= gate
  }

  predicate Heavy(x: Region, round: Round) {
    && ((x.minAppend.Some? && x.minAppend.value < round.compactWatermark) || x.rewriteCount > 0)
    && HasEntriesBefore(x, round.rewriteWatermark, MAX_REWRITE_ENTRIES_PER_REGION)
  }

  predicate HasWork(x: Region, round: Round) {
    x.minAppend.Some? && x.minAppend.value <= round.rewriteWatermark
  }

  function Counter(candidates: map<nat, nat>, id: nat): nat {
    if id in candidates then candidates[id] else 0
  }

  /** Whether the region is rewritten in this round. */
  predicate Selects(candidates: map<nat, nat>, x: Region, round: Round) {
    && HasWork(x, round)
    && if Heavy(x, round) then Counter(candidates, x.id) >= MAX_COUNT_BEFORE_FORCE_REWRITE
       else !HasEntriesBefore(x, round.rewriteWatermark, MAX_REWRITE_ENTRIES_PER_REGION + x.rewriteCount)
  }

  function NextCandidates(candidates: map<nat, nat>, regions: seq<Region>, round: Round): map<nat, nat> {
    if regions == [] then map[] else
    var x, rest := regions[|regions| - 1], NextCandidates(candidates, regions[..|regions| - 1], round);
    if Heavy(x, round) && Counter(candidates, x.id) < MAX_COUNT_BEFORE_FORCE_REWRITE
    then rest[x.id := Counter(candidates, x.id) + 1] else rest
  }

  function Compacts(regions: seq<Region>, round: Round): seq<nat> {
    if regions == [] then [] else
    var x, rest := regions[|regions| - 1], Compacts(regions[..|regions| - 1], round);
    if Heavy(x, round) then rest + [x.id] else rest
  }

  function Selected(candidates: map<nat, nat>, regions: seq<Region>, round: Round): seq<nat> {
    if regions == [] then [] else
    var x, rest := regions[|regions| - 1], Selected(candidates, regions[..|regions| - 1], round);
    if Selects(candidates, x, round) then rest + [x.id] else rest
  }

  /** One round: the regions to rewrite, the regions to compact, and the next counters, which
      are kept as they were when the rewrite fails. */
  method RewriteOrCompact(candidates: map<nat, nat>, round: Round)
    returns (next: map<nat, nat>, shouldCompact: seq<nat>, memtables: seq<nat>)
    ensures next == if round.ok then NextCandidates(candidates, round.regions, round) else candidates
    ensures shouldCompact == Compacts(round.regions, round)
    ensures memtables == Selected(candidates, round.regions, round)
  {
    var renewed: map<nat, nat> := map[];
    shouldCompact, memtables := [], [];
    for i := 0 to |round.regions|
      invariant renewed == NextCandidates(candidates, round.regions[..i], round)
      invariant shouldCompact == Compacts(round.regions[..i], round)
      invariant memtables == Selected(candidates, round.regions[..i], round)
    {
      var x := round.regions[i];
      assert round.regions[..i + 1][..i] == round.regions[..i];
      var counter := if x.id in candidates then candidates[x.id] else 0;
      if Heavy(x, round) {
        shouldCompact := shouldCompact + [x.id];
        if counter < MAX_COUNT_BEFORE_FORCE_REWRITE {
          renewed := renewed[x.id := counter + 1];
        } else if HasWork(x, round) {
          memtables := memtables + [x.id];
        }
      } else if HasWork(x, round)
                && !HasEntriesBefore(x, round.rewriteWatermark, MAX_REWRITE_ENTRIES_PER_REGION + x.rewriteCount) {
        memtables := memtables + [x.id];
      }
    }
    assert round.regions[..|round.regions|] == round.regions;
    next := if round.ok then renewed else candidates;
  }

  // ------------------------------------------------------------ over many rounds

  /** A table holds each region once. */
  ghost predicate Distinct(regions: seq<Region>) {
    forall i, j :: 0 <= i < j < |regions| ==> regions[i].id != regions[j].id
  }

  ghost predicate HeavyIn(id: nat, round: Round) {
    exists i :: 0 <= i < |round.regions| && round.regions[i].id == id && Heavy(round.regions[i], round)
  }

  lemma {:induction false} NextCandidatesAt(candidates: map<nat, nat>, regions: seq<Region>, round: Round, id: nat)
    requires Distinct(regions)
    ensures var next := NextCandidates(candidates, regions, round);
            if exists i :: 0 <= i < |regions| && regions[i].id == id && Heavy(regions[i], round)
                            && Counter(candidates, id) < MAX_COUNT_BEFORE_FORCE_REWRITE
            then id in next && next[id] == Counter(candidates, id) + 1
            else id !in next
    decreases |regions|
  {
    if regions != [] {
      var n := |regions| - 1;
      NextCandidatesAt(candidates, regions[..n], round, id);
      if regions[n].id != id {
        forall i | 0 <= i < |regions| && regions[i].id == id ensures i < n && regions[i] == regions[..n][i] { }
      }
    }
  }

  function CandidatesAfter(candidates: map<nat, nat>, rounds: seq<Round>): map<nat, nat>
    decreases |rounds|
  {
    if rounds == [] then candidates else
    var before := CandidatesAfter(candidates, rounds[..|rounds| - 1]);
    var round := rounds[|rounds| - 1];
    if round.ok then NextCandidates(before, round.regions, round) else before
  }

  ghost predicate AllDistinct(rounds: seq<Round>) {
    forall k :: 0 <= k < |rounds| ==> Distinct(rounds[k].regions)
  }

  /** A counter never passes the bound. */
  lemma {:induction false} CounterBounded(rounds: seq<Round>, id: nat)
    requires AllDistinct(rounds)
    ensures Counter(CandidatesAfter(map[], rounds), id) <= MAX_COUNT_BEFORE_FORCE_REWRITE
    decreases |rounds|
  {
    if rounds != [] {
      var n := |rounds| - 1;
      CounterBounded(rounds[..n], id);
      NextCandidatesAt(CandidatesAfter(map[], rounds[..n]), rounds[n].regions, rounds[n], id);
    }
  }

  /** In a stretch of successful rounds in which the region is always heavy, its counter
      counts the rounds modulo ten. */
  lemma {:induction false} CounterCycles(history: seq<Round>, rounds: seq<Round>, id: nat)
    requires AllDistinct(history) && AllDistinct(rounds)
    requires forall k :: 0 <= k < |rounds| ==> rounds[k].ok && HeavyIn(id, rounds[k])
    ensures Counter(CandidatesAfter(map[], history + rounds), id)
         == (Counter(CandidatesAfter(map[], history), id) + |rounds|) % (MAX_COUNT_BEFORE_FORCE_REWRITE + 1)
    decreases |rounds|
  {
    hide NextCandidates;
    CounterBounded(history, id);
    if rounds == [] {
      assert history + rounds == history;
    } else {
      var n := |rounds| - 1;
      CounterCycles(history, rounds[..n], id);
      assert (history + rounds)[..|history + rounds| - 1] == history + rounds[..n];
      CounterBounded(history + rounds[..n], id);
      assert HeavyIn(id, rounds[n]);
      NextCandidatesAt(CandidatesAfter(map[], history + rounds[..n]), rounds[n].regions, rounds[n], id);
    }
  }

  lemma {:induction false} SelectedAt(candidates: map<nat, nat>, regions: seq<Region>, round: Round, i: nat)
    requires Distinct(regions) && i < |regions|
    ensures regions[i].id in Selected(candidates, regions, round) <==> Selects(candidates, regions[i], round)
    ensures regions[i].id in Compacts(regions, round) <==> Heavy(regions[i], round)
    decreases |regions|
  {
    var n := |regions| - 1;
    if i < n {
      SelectedAt(candidates, regions[..n], round, i);
    } else {
      NotSelected(candidates, regions[..n], round, regions[i].id);
    }
  }

  lemma {:induction false} NotSelected(candidates: map<nat, nat>, regions: seq<Region>, round: Round, id: nat)
    requires forall i :: 0 <= i < |regions| ==> regions[i].id != id
    ensures id !in Selected(candidates, regions, round) && id !in Compacts(regions, round)
    decreases |regions|
  {
    if regions != [] {
      NotSelected(candidates, regions[..|regions| - 1], round, id);
    }
  }

  /** What one round decides about a region, told by its files. Old regions (a file before the
      compaction watermark, or rewritten entries) whose 32nd entry is at or before the rewrite
      watermark are to be compacted, and rewritten only at the tenth request. Any other region is
      rewritten if its oldest file is at or before the rewrite watermark, unless 32 entries
      besides the rewritten ones are. */
  lemma RoundDecides(candidates: map<nat, nat>, round: Round, i: nat)
    requires Distinct(round.regions) && i < |round.regions|
    ensures var x, at := round.regions[i], round.rewriteWatermark;
            var next, asked, picked := NextCandidates(candidates, round.regions, round), Compacts(round.regions, round),
                                       Selected(candidates, round.regions, round);
            var aged := (x.minAppend.Some? && x.minAppend.value < round.compactWatermark) || x.rewriteCount > 0;
            var heavy := aged && |x.seqs| >= 32 && x.seqs[31] <= at;
            var work := x.minAppend.Some? && x.minAppend.value <= at;
            && (x.id in asked <==> heavy)
            && (heavy && Counter(candidates, x.id) < 9 ==>
                  x.id !in picked && x.id in next && next[x.id] == Counter(candidates, x.id) + 1)
            && (heavy && Counter(candidates, x.id) >= 9 ==> (x.id in picked <==> work) && x.id !in next)
            && (!heavy ==>
                  && (x.id in picked <==> work && !(|x.seqs| >= 32 + x.rewriteCount && x.seqs[31 + x.rewriteCount] <= at))
                  && x.id !in next)
  {
    hide NextCandidates, Compacts, Selected, Distinct;
    SelectedAt(candidates, round.regions, round, i);
    NextAt(candidates, round, i);
  }

  lemma NextAt(candidates: map<nat, nat>, round: Round, i: nat)
    requires Distinct(round.regions) && i < |round.regions|
    ensures var x, next := round.regions[i], NextCandidates(candidates, round.regions, round);
            if Heavy(x, round) && Counter(candidates, x.id) < MAX_COUNT_BEFORE_FORCE_REWRITE
            then x.id in next && next[x.id] == Counter(candidates, x.id) + 1 else x.id !in next
  {
    hide NextCandidates, Heavy;
    NextCandidatesAt(candidates, round.regions, round, round.regions[i].id);
  }

  /** In every one of these rounds the region, found at `at[k]`, is heavy and has something to
      rewrite, and the round succeeds. */
  ghost predicate AlwaysHeavy(rounds: seq<Round>, at: seq<nat>, id: nat) {
    && |rounds| == |at| && AllDistinct(rounds)
    && forall k :: 0 <= k < |rounds| ==>
         && at[k] < |rounds[k].regions| && rounds[k].regions[at[k]].id == id && rounds[k].ok
         && Heavy(rounds[k].regions[at[k]], rounds[k]) && HasWork(rounds[k].regions[at[k]], rounds[k])
  }

  lemma AlwaysHeavyIn(rounds: seq<Round>, at: seq<nat>, id: nat, k: nat)
    requires AlwaysHeavy(rounds, at, id) && k <= |rounds|
    ensures AllDistinct(rounds[..k])
    ensures forall j :: 0 <= j < k ==> rounds[..k][j].ok && HeavyIn(id, rounds[..k][j])
  {
    forall j | 0 <= j < k ensures rounds[..k][j].ok && HeavyIn(id, rounds[..k][j]) {
      assert rounds[j].regions[at[j]].id == id;
    }
  }

  lemma TurnOf(history: seq<Round>, rounds: seq<Round>, at: seq<nat>, id: nat, k: nat)
    requires AllDistinct(history) && AlwaysHeavy(rounds, at, id) && k < |rounds| == 10
    ensures id in Compacts(rounds[k].regions, rounds[k])
    ensures id in Selected(CandidatesAfter(map[], history + rounds[..k]), rounds[k].regions, rounds[k])
            <==> k == 9 - Counter(CandidatesAfter(map[], history), id)
  {
    hide CandidatesAfter, Selected, HasEntriesBefore, Heavy, Distinct;
    var now := CandidatesAfter(map[], history + rounds[..k]);
    assert Counter(now, id) == (Counter(CandidatesAfter(map[], history), id) + k) % 10 by {
      AlwaysHeavyIn(rounds, at, id, k);
      CounterCycles(history, rounds[..k], id);
    }
    CounterBounded(history, id);
    SelectedAt(now, rounds[k].regions, rounds[k], at[k]);
  }

  /** No region starves: whatever happened before, of any ten successful rounds in a row in
      which a region is heavy and has something to rewrite, it is rewritten in exactly one,
      the one its counter leaves it to, and the user is asked to compact it in all ten. */
  lemma NoRegionStarves(history: seq<Round>, rounds: seq<Round>, at: seq<nat>, id: nat)
    requires AllDistinct(history) && AlwaysHeavy(rounds, at, id) && |rounds| == 10
    ensures Counter(CandidatesAfter(map[], history), id) <= 9
    ensures forall k :: 0 <= k < 10 ==>
              && id in Compacts(rounds[k].regions, rounds[k])
              && (id in Selected(CandidatesAfter(map[], history + rounds[..k]), rounds[k].regions, rounds[k])
                  <==> k == 9 - Counter(CandidatesAfter(map[], history), id))
  {
    CounterBounded(history, id);
    forall k | 0 <= k < 10
      ensures id in Compacts(rounds[k].regions, rounds[k])
      ensures id in Selected(CandidatesAfter(map[], history + rounds[..k]), rounds[k].regions, rounds[k])
              <==> k == 9 - Counter(CandidatesAfter(map[], history), id)
    {
      TurnOf(history, rounds, at, id, k);
    }
  }
}
