/**
 From the batches a squeeze writes to what recovery makes of them after a crash: the
 rewrite queue then holds some prefix of the output, behind whatever earlier runs left
 under the same group id.
 */
module TornGroups {
  import opened PipeLog
  import opened RewriteEmit
  import AG = AtomicGroups
  import RM = ReplayMerge

  /** Recovery recognises the first marker of a batch. */
  function TagOf(b: Batch): Option<(nat, AG.Status)> {
    if |b| == 0 then None else
    if b[0].Marker? then Some((b[0].id, b[0].status)) else TagOf(b[1..])
  }

  lemma {:induction false} NoTag(b: Batch)
    requires NoMarker(b)
    ensures TagOf(b) == None
  {
    if |b| > 0 {
      NoTag(b[1..]);
    }
  }

  lemma {:induction false} TagFound(b: Batch, at: int, id: nat, status: AG.Status)
    requires MarkedAt(b, at, id, status)
    ensures TagOf(b) == Some((id, status))
    decreases at
  {
    if at > 0 {
      assert MarkedAt(b[1..], at - 1, id, status);
      TagFound(b[1..], at - 1, id, status);
    }
  }

  /** The items recovery takes from a batch, whatever they are: `data` decides. */
  function AsPart(b: Batch, status: AG.Status, file: FileSeq, data: Batch -> seq<RM.Item>): AG.Group {
    AG.Group(status, data(b), RM.Tombstones(data(b)), file, file)
  }

  /** The parts of group `id` among some batches; `files[k]` is the file of batch `k`. */
  function PartsOf(bs: seq<Batch>, files: seq<FileSeq>, id: nat, data: Batch -> seq<RM.Item>): seq<AG.Group>
    requires |bs| <= |files|
  {
    if |bs| == 0 then [] else
    var n := |bs| - 1;
    PartsOf(bs[..n], files, id, data) +
    match TagOf(bs[n])
    case Some((i, status)) => if i == id then [AsPart(bs[n], status, files[n], data)] else []
    case None => []
  }

  function AllData(bs: seq<Batch>, data: Batch -> seq<RM.Item>): seq<RM.Item> {
    if |bs| == 0 then [] else AllData(bs[..|bs| - 1], data) + data(bs[|bs| - 1])
  }

  // ---------------------------------------------------- one run of the squeeze

  /** A torn or complete group: Begin, then Middles, then perhaps End. */
  predicate Run(g: seq<AG.Group>) {
    && (forall k :: 0 < k < |g| ==> g[k].status != AG.Begin)
    && (forall k :: 0 <= k < |g| - 1 ==> g[k].status != AG.End)
    && (|g| > 0 ==> g[0].status == AG.Begin)
  }

  /** Behind any older batches, a torn run adds nothing and a complete run adds one group: all its
      batches as one. */
  lemma {:induction false} CompleteAfter(older: seq<AG.Group>, g: seq<AG.Group>)
    requires Run(g)
    ensures var ended := |g| > 0 && g[|g| - 1].status == AG.End;
            && (!ended ==> AG.Complete(older + g) == AG.Complete(older))
            && (ended ==> |g| > 1 && AG.Complete(older + g) == AG.Complete(older) + [AG.Whole(g, AG.End)])
            && (|g| > 0 && !ended ==> AG.OpenGroup(older + g) == Some(AG.Whole(g, AG.Begin)))
    decreases |g|
  {
    hide AG.Joined, AG.Whole;
    if |g| == 0 {
      assert older + g == older;
    } else {
      var n := |g| - 1;
      CompleteAfter(older, g[..n]);
      assert AG.Front(older + g) == older + g[..n] && AG.Last(older + g) == g[n];
      if n == 0 {
        assert g == [g[0]];
        AG.WholeOne(g[0], AG.Begin);
      } else {
        AG.WholeSnoc(g[..n], g[n], AG.Begin, g[n].status);
        AG.WholeSnoc(g[..n], g[n], AG.Begin, AG.Begin);
        assert g[..n] + [g[n]] == g;
      }
    }
  }

  // --------------------------------------------------- parts of a torn output

  /** The older batches are in files that are not newer. */
  ghost predicate Before(older: seq<AG.Group>, files: seq<FileSeq>) {
    forall i, file :: 0 <= i < |older| && file in files ==> older[i].end <= file
  }

  predicate FilesInOrder(files: seq<FileSeq>) {
    forall j, k :: 0 <= j < k < |files| ==> files[j] <= files[k]
  }

  lemma {:induction false} PartsConcat(a: seq<Batch>, b: seq<Batch>, files: seq<FileSeq>, id: nat, data: Batch -> seq<RM.Item>)
    requires |a| + |b| <= |files|
    ensures PartsOf(a + b, files, id, data) == PartsOf(a, files, id, data) + PartsOf(b, files[|a|..], id, data)
    decreases |b|
  {
    if |b| == 0 {
      assert a + b == a;
    } else {
      var n := |b| - 1;
      assert (a + b)[..|a + b| - 1] == a + b[..n] && (a + b)[|a + b| - 1] == b[n];
      PartsConcat(a, b[..n], files, id, data);
      assert files[|a|..][n] == files[|a + b| - 1];
    }
  }

  /** Segments of other ids have no part of this group. */
  lemma {:induction false} OtherSegment(seg: Segment, c: nat, files: seq<FileSeq>, id: nat, data: Batch -> seq<RM.Item>)
    requires seg.WellFormed() && (seg.Grouped? ==> seg.id != id) && c <= |seg.Batches()| && c <= |files|
    ensures PartsOf(seg.Batches()[..c], files, id, data) == []
    decreases c
  {
    if c > 0 {
      var bs := seg.Batches();
      assert bs[..c][..c - 1] == bs[..c - 1] && bs[..c][c - 1] == bs[c - 1];
      OtherSegment(seg, c - 1, files, id, data);
      match seg
      case Plain(b) => NoTag(b);
      case Grouped(i, region, batches) =>
        var at :| MarkedAt(batches[c - 1], at, i, StatusAt(c - 1, |batches|));
        TagFound(batches[c - 1], at, i, StatusAt(c - 1, |batches|));
    }
  }

  lemma {:induction false} OtherSegments(segs: seq<Segment>, files: seq<FileSeq>, id: nat, data: Batch -> seq<RM.Item>)
    requires forall k :: 0 <= k < |segs| ==> segs[k].WellFormed() && (segs[k].Grouped? ==> segs[k].id != id)
    requires |Concat(segs)| <= |files|
    ensures PartsOf(Concat(segs), files, id, data) == []
    decreases |segs|
  {
    if |segs| > 0 {
      var n := |segs| - 1;
      var a, bs := Concat(segs[..n]), segs[n].Batches();
      OtherSegments(segs[..n], files, id, data);
      PartsConcat(a, bs, files, id, data);
      OtherSegment(segs[n], |bs|, files[|a|..], id, data);
      assert bs[..|bs|] == bs;
    }
  }

  /** The first `c` batches of the group itself: a run, ended exactly if nothing is missing. */
  lemma {:induction false} OwnSegment(seg: Segment, c: nat, files: seq<FileSeq>, data: Batch -> seq<RM.Item>)
    requires seg.WellFormed() && seg.Grouped? && c <= |seg.batches| && c <= |files|
    ensures var g := PartsOf(seg.batches[..c], files, seg.id, data);
            && |g| == c && AG.ItemsOf(g) == AllData(seg.batches[..c], data)
            && AG.TombsOf(g) == RM.Tombstones(AllData(seg.batches[..c], data))
            && (forall k :: 0 <= k < c ==> g[k].status == StatusAt(k, |seg.batches|) && g[k].start == g[k].end == files[k])
    decreases c
  {
    hide PartsOf, AG.ItemsOf, AG.TombsOf, AllData, TagOf, RM.Tombstones;
    var bs := seg.batches;
    if c == 0 {
      assert bs[..0] == [];
      NoParts(files, seg.id, data);
    } else {
      OwnSegment(seg, c - 1, files, data);
      assert TagOf(bs[c - 1]) == Some((seg.id, StatusAt(c - 1, |bs|))) by {
        var at :| MarkedAt(bs[c - 1], at, seg.id, StatusAt(c - 1, |bs|));
        TagFound(bs[c - 1], at, seg.id, StatusAt(c - 1, |bs|));
      }
      PartsSnoc(bs[..c - 1], bs[c - 1], files, seg.id, data, StatusAt(c - 1, |bs|));
      RM.TombstonesConcat(AllData(bs[..c - 1], data), data(bs[c - 1]));
      assert bs[..c] == bs[..c - 1] + [bs[c - 1]];
    }
  }

  lemma NoParts(files: seq<FileSeq>, id: nat, data: Batch -> seq<RM.Item>)
    ensures PartsOf([], files, id, data) == [] && AllData([], data) == []
    ensures AG.ItemsOf([]) == [] && AG.TombsOf([]) == [] && RM.Tombstones([]) == []
  {
  }

  lemma PartsSnoc(bs: seq<Batch>, b: Batch, files: seq<FileSeq>, id: nat, data: Batch -> seq<RM.Item>, status: AG.Status)
    requires |bs| < |files| && TagOf(b) == Some((id, status))
    ensures var g, p := PartsOf(bs, files, id, data), AsPart(b, status, files[|bs|], data);
            && PartsOf(bs + [b], files, id, data) == g + [p]
            && AG.ItemsOf(g + [p]) == AG.ItemsOf(g) + p.items
            && AG.TombsOf(g + [p]) == AG.TombsOf(g) + p.tombs
            && AllData(bs + [b], data) == AllData(bs, data) + data(b)
  {
    hide TagOf;
    assert (bs + [b])[..|bs|] == bs;
    var g, p := PartsOf(bs, files, id, data), AsPart(b, status, files[|bs|], data);
    assert AG.Front(g + [p]) == g && AG.Last(g + [p]) == p;
  }

  /** What is on disk after a crash: whole segments, then the first `c` batches of the next. */
  function Torn(segs: seq<Segment>, m: nat, c: nat): seq<Batch>
    requires m < |segs| && c <= |segs[m].Batches()|
  {
    Concat(segs[..m]) + segs[m].Batches()[..c]
  }

  /** How many batches of segment `k` are on disk. */
  function OnDisk(segs: seq<Segment>, m: nat, c: nat, k: nat): nat
    requires m < |segs| && c <= |segs[m].Batches()| && k < |segs|
  {
    if k < m then |segs[k].Batches()| else if k == m then c else 0
  }

  lemma {:induction false} ConcatConcat(a: seq<Segment>, b: seq<Segment>)
    ensures Concat(a + b) == Concat(a) + Concat(b)
    decreases |b|
  {
    hide Concat;
    if |b| == 0 {
      assert a + b == a;
      assert Concat(b) == [] by { NoBatches(); }
    } else {
      var n := |b| - 1;
      ConcatConcat(a, b[..n]);
      ConcatSnoc(a + b[..n], b[n]);
      ConcatSnoc(b[..n], b[n]);
      assert a + b == (a + b[..n]) + [b[n]] && b == b[..n] + [b[n]];
    }
  }

  lemma NoBatches()
    ensures Concat([]) == []
  {
  }

  lemma ConcatSplit(segs: seq<Segment>, m: nat, k: nat)
    requires k < m <= |segs|
    ensures Concat(segs[..m]) == Concat(segs[..k]) + (segs[k].Batches() + Concat(segs[k + 1..m]))
  {
    hide Concat;
    assert segs[..m] == (segs[..k] + [segs[k]]) + segs[k + 1..m];
    ConcatConcat(segs[..k] + [segs[k]], segs[k + 1..m]);
    ConcatSnoc(segs[..k], segs[k]);
  }

  /** A group that is wholly on disk. */
  lemma WholeParts(segs: seq<Segment>, next: nat, m: nat, k: nat, files: seq<FileSeq>, data: Batch -> seq<RM.Item>)
    requires Segments(segs, next) && k < m <= |segs| && segs[k].Grouped? && |Concat(segs[..m])| <= |files|
    ensures |Concat(segs[..k])| + |segs[k].batches| <= |files|
    ensures PartsOf(Concat(segs[..m]), files, segs[k].id, data) ==
            PartsOf(segs[k].batches, files[|Concat(segs[..k])|..], segs[k].id, data)
  {
    hide Concat, PartsOf;
    var id, own := segs[k].id, segs[k].batches;
    var before, after := Concat(segs[..k]), Concat(segs[k + 1..m]);
    ConcatSplit(segs, m, k);
    var files' := files[|before|..];
    assert PartsOf(before, files, id, data) == [] by { OtherSegments(segs[..k], files, id, data); }
    assert PartsOf(after, files'[|own|..], id, data) == [] by { OtherSegments(segs[k + 1..m], files'[|own|..], id, data); }
    PartsConcat(before, own + after, files, id, data);
    PartsConcat(own, after, files', id, data);
  }

  /** The parts of group `k` on disk are the parts of its batches on disk. */
  lemma TornParts(segs: seq<Segment>, next: nat, m: nat, c: nat, k: nat, files: seq<FileSeq>, data: Batch -> seq<RM.Item>)
    returns (from: nat)
    requires Segments(segs, next) && m < |segs| && c <= |segs[m].Batches()|
    requires k < |segs| && segs[k].Grouped? && |Torn(segs, m, c)| <= |files|
    ensures from + OnDisk(segs, m, c, k) <= |files| && (k <= m ==> from == |Concat(segs[..k])|)
    ensures PartsOf(Torn(segs, m, c), files, segs[k].id, data) ==
            PartsOf(segs[k].batches[..OnDisk(segs, m, c, k)], files[from..], segs[k].id, data)
  {
    hide TagOf, Concat;
    var id := segs[k].id;
    var a, part := Concat(segs[..m]), segs[m].Batches()[..c];
    PartsConcat(a, part, files, id, data);
    if k < m {
      from := |Concat(segs[..k])|;
      WholeParts(segs, next, m, k, files, data);
      assert PartsOf(part, files[|a|..], id, data) == [] by { OtherSegment(segs[m], c, files[|a|..], id, data); }
      assert segs[k].batches[..|segs[k].batches|] == segs[k].batches;
    } else {
      from := |a|;
      assert PartsOf(a, files, id, data) == [] by { OtherSegments(segs[..m], files, id, data); }
      if k > m {
        assert PartsOf(part, files[|a|..], id, data) == [] by { OtherSegment(segs[m], c, files[|a|..], id, data); }
      }
    }
  }

  /**
   A squeeze survives a crash at any point. Behind whatever is left of older groups under the same
   id, recovery of what is on disk, cut and merged in any way, replays what it replayed before
   and, exactly if all batches of the group are on disk, one group more: with all its items and
   tombstones in order, from the file of its first batch to the file of its last.
   */
  lemma SqueezeIsAllOrNothing(segs: seq<Segment>, next: nat, m: nat, c: nat, k: nat, files: seq<FileSeq>,
                              data: Batch -> seq<RM.Item>, older: seq<AG.Group>, chunks: AG.Chunks)
    requires Segments(segs, next) && m < |segs| && c <= |segs[m].Batches()|
    requires k < |segs| && segs[k].Grouped? && |Torn(segs, m, c)| <= |files| && FilesInOrder(files)
    requires AG.Stretch(older)
    requires Before(older, files)
    requires AG.Flatten(chunks) == older + PartsOf(Torn(segs, m, c), files, segs[k].id, data)
    ensures AG.Recover(chunks).Some?
    ensures OnDisk(segs, m, c, k) < |segs[k].batches| ==> AG.Recover(chunks).value.done == AG.Complete(older)
    ensures OnDisk(segs, m, c, k) == |segs[k].batches| ==>
              var at, n, all := |Concat(segs[..k])|, |segs[k].batches|, AllData(segs[k].batches, data);
              && 0 < n && at + n <= |files|
              && AG.Recover(chunks).value.done ==
                 AG.Complete(older) + [AG.Group(AG.End, all, RM.Tombstones(all), files[at], files[at + n - 1])]
  {
    hide PartsOf, Torn, Run, Segments, AG.ItemsOf, AG.TombsOf, AllData, Concat, FilesInOrder, AG.Recover, AG.Stretch,
         AG.Flatten, AG.Complete, RM.Tombstones, OnDisk, Before, TagOf;
    TornRun(segs, next, m, c, k, files, data);
    var g := PartsOf(Torn(segs, m, c), files, segs[k].id, data);
    OlderIsOlder(older, g, files);
    RunRecovered(older, g, chunks);
  }

  lemma OlderIsOlder(older: seq<AG.Group>, g: seq<AG.Group>, files: seq<FileSeq>)
    requires Before(older, files)
    requires forall j :: 0 <= j < |g| ==> |files| > 0 && files[0] <= g[j].start
    ensures forall i, j :: 0 <= i < |older| && 0 <= j < |g| ==> older[i].end <= g[j].start
  {
    if |files| > 0 {
      assert files[0] in files;
    }
  }

  /** What is on disk of one group is a run, ended exactly if nothing is missing, and then it is
      the whole group. */
  lemma TornRun(segs: seq<Segment>, next: nat, m: nat, c: nat, k: nat, files: seq<FileSeq>, data: Batch -> seq<RM.Item>)
    requires Segments(segs, next) && m < |segs| && c <= |segs[m].Batches()|
    requires k < |segs| && segs[k].Grouped? && |Torn(segs, m, c)| <= |files| && FilesInOrder(files)
    ensures var g, n := PartsOf(Torn(segs, m, c), files, segs[k].id, data), OnDisk(segs, m, c, k);
            && Run(g) && |g| == n <= |segs[k].batches|
            && (n > 0 ==> (g[n - 1].status == AG.End <==> n == |segs[k].batches|))
            && 0 < |segs[k].batches|
            && (n == |segs[k].batches| ==> k <= m && IsGroup(g, segs[k], files, |Concat(segs[..k])|, data))
            && (forall j :: 0 <= j < |g| ==> g[j].start == g[j].end)
            && (forall j, k :: 0 <= j < k < |g| ==> g[j].end <= g[k].start)
            && (forall j :: 0 <= j < |g| ==> |files| > 0 && files[0] <= g[j].start)
  {
    hide PartsOf, IsGroup, Run, Concat, Torn, Marked, OnlyRegion, FilesInOrder;
    var from := TornParts(segs, next, m, c, k, files, data);
    OwnRun(segs[k], OnDisk(segs, m, c, k), files, from, data);
  }

  /** The run has all of the segment, whose first batch is in `files[from]`. */
  ghost predicate IsGroup(g: seq<AG.Group>, seg: Segment, files: seq<FileSeq>, from: nat, data: Batch -> seq<RM.Item>)
    requires seg.Grouped?
  {
    && |g| == |seg.batches| > 0 && from + |g| <= |files|
    && var all := AllData(seg.batches, data);
    AG.Whole(g, AG.End) == AG.Group(AG.End, all, RM.Tombstones(all), files[from], files[from + |g| - 1])
  }

  lemma OwnRun(seg: Segment, n: nat, files: seq<FileSeq>, from: nat, data: Batch -> seq<RM.Item>)
    requires seg.WellFormed() && seg.Grouped? && n <= |seg.batches| && from + n <= |files| && FilesInOrder(files)
    ensures var g := PartsOf(seg.batches[..n], files[from..], seg.id, data);
            && Run(g) && |g| == n && 0 < |seg.batches|
            && (n == |seg.batches| ==> IsGroup(g, seg, files, from, data))
            && (n > 0 ==> (g[n - 1].status == AG.End <==> n == |seg.batches|))
            && (forall j :: 0 <= j < |g| ==> g[j].start == g[j].end && |files| > 0 && files[0] <= g[j].start)
            && (forall j, k :: 0 <= j < k < |g| ==> g[j].end <= g[k].start)
  {
    hide PartsOf, AG.ItemsOf, AG.TombsOf, RM.Tombstones, AllData, IsGroup, Marked;
    OwnSegment(seg, n, files[from..], data);
    assert forall j :: 0 <= j < n ==> files[from..][j] == files[from + j];
    if n == |seg.batches| {
      OwnGroup(seg, files, from, data);
    }
  }

  lemma OwnGroup(seg: Segment, files: seq<FileSeq>, from: nat, data: Batch -> seq<RM.Item>)
    requires seg.WellFormed() && seg.Grouped? && from + |seg.batches| <= |files|
    ensures IsGroup(PartsOf(seg.batches[..|seg.batches|], files[from..], seg.id, data), seg, files, from, data)
  {
    hide PartsOf, AG.ItemsOf, AG.TombsOf, RM.Tombstones, AllData, Marked;
    var n := |seg.batches|;
    OwnSegment(seg, n, files[from..], data);
    assert seg.batches[..n] == seg.batches;
    assert files[from..][0] == files[from] && files[from..][n - 1] == files[from + n - 1];
  }

  lemma RunRecovered(older: seq<AG.Group>, g: seq<AG.Group>, chunks: AG.Chunks)
    requires AG.Stretch(older) && Run(g) && AG.Flatten(chunks) == older + g
    requires forall j :: 0 <= j < |g| ==> g[j].start == g[j].end
    requires forall j, k :: 0 <= j < k < |g| ==> g[j].end <= g[k].start
    requires forall i, j :: 0 <= i < |older| && 0 <= j < |g| ==> older[i].end <= g[j].start
    ensures var ended := |g| > 0 && g[|g| - 1].status == AG.End;
            && AG.Recover(chunks).Some?
            && (!ended ==> AG.Recover(chunks).value.done == AG.Complete(older))
            && (ended ==> AG.Recover(chunks).value.done == AG.Complete(older) + [AG.Whole(g, AG.End)])
  {
    hide AG.Recover, AG.Complete, AG.Whole, AG.Spans, AG.Stretch, AG.Flatten;
    RunAfterStretch(older, g);
    CompleteAfter(older, g);
    AG.GroupsAreAllOrNothing(chunks);
  }

  lemma RunAfterStretch(older: seq<AG.Group>, g: seq<AG.Group>)
    requires AG.Stretch(older) && Run(g)
    requires forall j :: 0 <= j < |g| ==> g[j].start == g[j].end
    requires forall j, k :: 0 <= j < k < |g| ==> g[j].end <= g[k].start
    requires forall i, j :: 0 <= i < |older| && 0 <= j < |g| ==> older[i].end <= g[j].start
    ensures AG.Stretch(older + g)
  {
    var s := older + g;
    forall k | 0 < k < |s| && s[k].status != AG.Begin
      ensures s[k - 1].status != AG.End
    {
      if k > |older| {
        assert s[k] == g[k - |older|] && s[k - 1] == g[k - 1 - |older|];
      }
    }
  }
}
