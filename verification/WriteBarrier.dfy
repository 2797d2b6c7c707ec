/**
 Group commit. Writers enter under a lock, line up in a linked list and are processed in
 groups by one of them, the leader. Followers sleep on one of two condition variables,
 chosen by the parity of `pendingIndex`; the leader of the next group sleeps on a third.

 A writer is named by its place in the order of entering. Every step is one critical
 section. Condition variables do not wake anybody spuriously.
 */
module WriteBarriers {
  import opened PipeLog

  const Wrap: nat := 0x1_0000_0000_0000_0000

  /** A group being processed: its leader and its last writer, and whether outputs are set. */
  datatype Active = Active(start: nat, back: nat, processed: bool)

  datatype State = State(
    entered: nat,
    head: Option<nat>,
    tail: Option<nat>,
    pendingLeader: Option<nat>,
    pendingIndex: nat,
    next: map<nat, nat>,
    leaderCv: set<nat>,
    woken: set<nat>,
    cv0: set<nat>,
    cv1: set<nat>,
    leading: set<Active>,
    outputs: set<nat>,
    released: set<nat>)

  const Init := State(0, None, None, None, 0, map[], {}, {}, {}, {}, {}, {}, {})

  datatype Step =
    | Enter
    | Resume(w: nat)
    | Process(g: Active)
    | Exit(g: Active, notified: Option<nat>)

  /** Writers asleep on the follower condition variable of the given parity. */
  function Cv(s: State, parity: nat): set<nat> { if parity % 2 == 0 then s.cv0 else s.cv1 }

  function WithCv(s: State, parity: nat, ws: set<nat>): State {
    if parity % 2 == 0 then s.(cv0 := ws) else s.(cv1 := ws)
  }

  /** Following the links from `w` leads through every writer up to `back`. */
  ghost predicate LinkedTo(next: map<nat, nat>, w: nat, back: nat) {
    w <= back && forall k :: w <= k < back ==> k in next && next[k] == k + 1
  }

  /** The writers an iteration from `w` to `back` visits. */
  ghost function Chain(next: map<nat, nat>, w: nat, back: nat): set<nat>
    requires LinkedTo(next, w, back)
    decreases back - w
  {
    if w == back then {w} else {w} + Chain(next, next[w], back)
  }

  ghost predicate Enabled(s: State, step: Step) {
    match step
    case Enter => true
    case Resume(w) => w in s.woken
    case Process(g) => g in s.leading && !g.processed && LinkedTo(s.next, g.start, g.back)
    case Exit(g, notified) =>
      && g in s.leading && g.processed
      && match notified
         case Some(w) => s.pendingLeader.Some? && w in s.leaderCv
         case None => s.pendingLeader.Some? ==> s.leaderCv == {}
  }

  ghost function Next(s: State, step: Step): State
    requires Enabled(s, step)
  {
    match step
    case Enter =>
      var w := s.entered;
      var s1 := s.(entered := w + 1);
      if s.tail.Some? then
        var s2 := s1.(next := s.next[s.tail.value := w], tail := Some(w));
        if s.pendingLeader.Some? then
          WithCv(s2, s.pendingIndex, Cv(s, s.pendingIndex) + {w})
        else
          s2.(pendingLeader := Some(w), pendingIndex := (s.pendingIndex + 1) % Wrap, leaderCv := s.leaderCv + {w})
      else
        s1.(head := Some(w), tail := Some(w), leading := s.leading + {Active(w, w, false)})
    case Resume(w) =>
      s.(woken := s.woken - {w}, pendingLeader := None,
         leading := s.leading + {Active(w, if s.tail.Some? then s.tail.value else w, false)})
    case Process(g) =>
      s.(leading := s.leading - {g} + {g.(processed := true)},
         outputs := s.outputs + Chain(s.next, g.start, g.back))
    case Exit(g, notified) =>
      var s1 := s.(leading := s.leading - {g});
      if s.pendingLeader.Some? then
        var s2 := if notified.Some?
                  then s1.(leaderCv := s.leaderCv - {notified.value}, woken := s.woken + {notified.value}) else s1;
        var parity := (s.pendingIndex + Wrap - 1) % Wrap;
        WithCv(s2, parity, {}).(released := s.released + Cv(s, parity), head := s.pendingLeader)
      else
        WithCv(s1, s.pendingIndex, {}).(released := s.released + Cv(s, s.pendingIndex), head := None, tail := None)
  }

  // ---------------------------------------------------------------- invariant

  /** `{lo, .., hi - 1}` */
  ghost function Range(lo: nat, hi: nat): (r: set<nat>)
    ensures forall w: nat :: w in r <==> lo <= w < hi
    decreases hi
  {
    if hi <= lo then {} else Range(lo, hi - 1) + {hi - 1}
  }

  /** One leader is at work, on `[start, back]`. */
  ghost predicate LeadingIs(s: State, start: nat, back: nat) {
    s.leading == {Active(start, back, true)} || s.leading == {Active(start, back, false)}
  }

  ghost predicate Quiet(s: State, done: nat) {
    && s.tail == None && s.head == None && s.pendingLeader == None && s.entered == done
    && s.leading == {} && s.woken == {} && s.leaderCv == {} && s.cv0 == {} && s.cv1 == {}
  }

  /** A leader is at work on `[done, back]`, and nobody entered since. */
  ghost predicate Working(s: State, done: nat) {
    && s.entered > done && s.tail == Some(s.entered - 1) && s.head == Some(done) && s.pendingLeader == None
    && LeadingIs(s, done, s.entered - 1)
    && s.woken == {} && s.leaderCv == {}
    && Cv(s, s.pendingIndex) == Range(done + 1, s.entered) && Cv(s, s.pendingIndex + 1) == {}
  }

  /** A leader is at work on `[done, p - 1]`, and `p` is the sleeping leader of the next group. */
  ghost predicate Overlapping(s: State, done: nat, p: nat) {
    && done < p < s.entered && s.tail == Some(s.entered - 1) && s.head == Some(done) && s.pendingLeader == Some(p)
    && LeadingIs(s, done, p - 1)
    && s.woken == {} && s.leaderCv == {p}
    && Cv(s, s.pendingIndex) == Range(p + 1, s.entered) && Cv(s, s.pendingIndex + 1) == Range(done + 1, p)
  }

  /** The leader of the next group has been woken but does not run yet. */
  ghost predicate HandingOver(s: State, done: nat) {
    && s.entered > done && s.tail == Some(s.entered - 1) && s.head == Some(done) && s.pendingLeader == Some(done)
    && s.leading == {} && s.woken == {done} && s.leaderCv == {}
    && Cv(s, s.pendingIndex) == Range(done + 1, s.entered) && Cv(s, s.pendingIndex + 1) == {}
  }

  /** The links run through everybody who is not finished. */
  ghost predicate Linked(s: State, done: nat) {
    forall w: nat :: done <= w && w + 1 < s.entered ==> w in s.next && s.next[w] == w + 1
  }

  /** Which of the four situations holds. */
  ghost predicate Situation(s: State, done: nat) {
    || Quiet(s, done)
    || Working(s, done)
    || (exists p: nat :: Overlapping(s, done, p))
    || HandingOver(s, done)
  }

  /** Whoever was released has an output, and so has everybody in a processed group. */
  ghost predicate OutputsOk(s: State, done: nat) {
    && s.released <= s.outputs
    && (forall w :: w in s.released ==> w < done)
    && (forall g :: g in s.leading && g.processed ==> Range(g.start, g.back + 1) <= s.outputs)
  }

  /** `done` writers belong to finished groups. */
  ghost predicate Inv(s: State, done: nat) {
    && s.pendingIndex < Wrap
    && Linked(s, done)
    && Situation(s, done)
    && OutputsOk(s, done)
  }

  // ------------------------------------------------------------------- steps

  lemma {:induction false} ChainIsRange(next: map<nat, nat>, w: nat, back: nat)
    requires LinkedTo(next, w, back)
    ensures Chain(next, w, back) == Range(w, back + 1)
    decreases back - w
  {
    if w < back {
      ChainIsRange(next, w + 1, back);
    }
  }

  /** How far the finished groups reach after a step. */
  function DoneAfter(done: nat, step: Step): nat {
    match step
    case Exit(g, _) => g.back + 1
    case _ => done
  }

  /** Wrapping around keeps the parity. */
  lemma WrapParity(idx: nat)
    requires idx < Wrap
    ensures (idx + 1) % Wrap < Wrap && (idx + 1) % Wrap % 2 == (idx + 1) % 2
    ensures (idx + Wrap - 1) % Wrap < Wrap && (idx + Wrap - 1) % Wrap % 2 == (idx + 1) % 2
  {
  }

  lemma EnterAlone(s: State, done: nat)
    requires Quiet(s, done)
    ensures Working(Next(s, Enter), done)
  {
    assert Range(done + 1, s.entered + 1) == {};
  }

  lemma EnterAsNextLeader(s: State, done: nat)
    requires Working(s, done) && s.pendingIndex < Wrap
    ensures Overlapping(Next(s, Enter), done, s.entered)
  {
    WrapParity(s.pendingIndex);
    assert Range(s.entered + 1, s.entered + 1) == {};
  }

  lemma EnterAsFollower(s: State, done: nat)
    requires HandingOver(s, done)
    ensures HandingOver(Next(s, Enter), done)
  {
    assert Range(done + 1, s.entered + 1) == Range(done + 1, s.entered) + {s.entered};
  }

  lemma EnterAsNextFollower(s: State, done: nat, p: nat)
    requires Overlapping(s, done, p)
    ensures Overlapping(Next(s, Enter), done, p)
  {
    assert Range(p + 1, s.entered + 1) == Range(p + 1, s.entered) + {s.entered};
  }

  lemma EnterKeepsInv(s: State, done: nat)
    requires Inv(s, done)
    ensures Inv(Next(s, Enter), done)
  {
    var s' := Next(s, Enter);
    assert s'.pendingIndex < Wrap by { WrapParity(s.pendingIndex); }
    assert Situation(s', done) by {
      if Quiet(s, done) {
        EnterAlone(s, done);
      } else if Working(s, done) {
        EnterAsNextLeader(s, done);
      } else if HandingOver(s, done) {
        EnterAsFollower(s, done);
      } else {
        var p: nat :| Overlapping(s, done, p);
        EnterAsNextFollower(s, done, p);
      }
    }
    assert Linked(s', done);
    assert OutputsOk(s', done);
  }

  lemma ResumeKeepsInv(s: State, done: nat, w: nat)
    requires Inv(s, done) && Enabled(s, Resume(w))
    ensures Inv(Next(s, Resume(w)), done) && HandingOver(s, done) && w == done
  {
    assert HandingOver(s, done);
    assert Working(Next(s, Resume(w)), done);
  }

  lemma ProcessKeepsInv(s: State, done: nat, g: Active)
    requires Inv(s, done) && Enabled(s, Process(g))
    ensures Inv(Next(s, Process(g)), done)
  {
    hide Range;
    var s' := Next(s, Process(g));
    assert s.leading == {g};
    assert s'.leading == {g.(processed := true)};
    assert OutputsOk(s', done) by { ChainIsRange(s.next, g.start, g.back); }
    assert Situation(s', done) by {
      if Working(s, done) {
        assert Working(s', done);
      } else {
        var p: nat :| Overlapping(s, done, p);
        assert Overlapping(s', done, p);
      }
    }
  }

  lemma LastExit(s: State, done: nat, g: Active, notified: Option<nat>)
    requires Working(s, done) && Enabled(s, Exit(g, notified))
    ensures var s' := Next(s, Exit(g, notified));
            && Quiet(s', g.back + 1) && g.start == done && notified == None
            && s'.released == s.released + Range(g.start + 1, g.back + 1)
  {
    assert s.leading == {g};
  }

  lemma HandOver(s: State, done: nat, p: nat, g: Active, notified: Option<nat>)
    requires Overlapping(s, done, p) && Enabled(s, Exit(g, notified)) && s.pendingIndex < Wrap
    ensures var s' := Next(s, Exit(g, notified));
            && HandingOver(s', p) && p == g.back + 1 && g.start == done && notified == Some(p)
            && s'.released == s.released + Range(g.start + 1, g.back + 1)
  {
    assert s.leading == {g};
    WrapParity(s.pendingIndex);
  }

  /** The leader's exit: exactly its own followers are released, and exactly the sleeping
      leader of the next group, if there is one, is woken. */
  lemma ExitKeepsInv(s: State, done: nat, g: Active, notified: Option<nat>)
    requires Inv(s, done) && Enabled(s, Exit(g, notified))
    ensures Inv(Next(s, Exit(g, notified)), g.back + 1)
    ensures g.start == done
    ensures Next(s, Exit(g, notified)).released == s.released + Range(g.start + 1, g.back + 1)
    ensures s.pendingLeader == notified
    ensures notified.Some? ==> notified.value == g.back + 1 && Next(s, Exit(g, notified)).woken == {g.back + 1}
  {
    hide Range;
    var s' := Next(s, Exit(g, notified));
    if Working(s, done) {
      LastExit(s, done, g, notified);
    } else {
      var p: nat :| Overlapping(s, done, p);
      HandOver(s, done, p, g, notified);
    }
    assert OutputsOk(s', g.back + 1);
  }

  // --------------------------------------------------------------- whole runs

  ghost predicate Runs(s: State, steps: seq<Step>)
    decreases |steps|, 0
  {
    |steps| == 0 || (Runs(s, steps[..|steps| - 1]) && Enabled(After(s, steps[..|steps| - 1]), steps[|steps| - 1]))
  }

  ghost function After(s: State, steps: seq<Step>): State
    requires Runs(s, steps)
    decreases |steps|, 1
  {
    if |steps| == 0 then s else Next(After(s, steps[..|steps| - 1]), steps[|steps| - 1])
  }

  /** The groups whose leaders have exited, in order. */
  function Exits(steps: seq<Step>): seq<Active> {
    if |steps| == 0 then [] else
    Exits(steps[..|steps| - 1]) + match steps[|steps| - 1] case Exit(g, _) => [g] case _ => []
  }

  /** Writers in finished groups. */
  function Done(gs: seq<Active>): nat { if |gs| == 0 then 0 else gs[|gs| - 1].back + 1 }

  /** Consecutive segments of the order of entering, starting with the first writer. */
  predicate Tiles(gs: seq<Active>) {
    && (forall k :: 0 <= k < |gs| ==> gs[k].start <= gs[k].back)
    && (|gs| > 0 ==> gs[0].start == 0)
    && (forall k :: 0 < k < |gs| ==> gs[k].start == gs[k - 1].back + 1)
  }

  lemma StepKeepsInv(s: State, done: nat, step: Step)
    requires Inv(s, done) && Enabled(s, step)
    ensures Inv(Next(s, step), DoneAfter(done, step))
  {
    match step
    case Enter => EnterKeepsInv(s, done);
    case Resume(w) => ResumeKeepsInv(s, done, w);
    case Process(g) => ProcessKeepsInv(s, done, g);
    case Exit(g, notified) => ExitKeepsInv(s, done, g, notified);
  }

  lemma OneLeader(s: State, done: nat, g: Active)
    requires Inv(s, done) && g in s.leading
    ensures s.leading == {g} && g.start == done && g.start <= g.back < s.entered
  {
  }

  lemma TilesGrow(gs: seq<Active>, g: Active)
    requires Tiles(gs) && g.start == Done(gs) <= g.back
    ensures Tiles(gs + [g]) && Done(gs + [g]) == g.back + 1
  {
  }

  lemma {:induction false} RunKeepsInv(steps: seq<Step>)
    requires Runs(Init, steps)
    ensures Inv(After(Init, steps), Done(Exits(steps)))
    ensures Tiles(Exits(steps))
    decreases |steps|
  {
    hide Next;
    if |steps| == 0 {
      assert Quiet(Init, 0);
    } else {
      var n := |steps| - 1;
      var s, gs, step := After(Init, steps[..n]), Exits(steps[..n]), steps[n];
      RunKeepsInv(steps[..n]);
      if step.Exit? {
        assert step.g.start == Done(gs) <= step.g.back by { OneLeader(s, Done(gs), step.g); }
        TilesGrow(gs, step.g);
      }
      assert Done(Exits(steps)) == DoneAfter(Done(gs), step);
      StepKeepsInv(s, Done(gs), step);
    }
  }

  lemma OnlyExitReleases(s: State, step: Step)
    requires Enabled(s, step) && !step.Exit?
    ensures Next(s, step).released == s.released
  {
  }

  /** `w` is a follower in one of the groups. */
  ghost predicate FollowerIn(gs: seq<Active>, w: nat) {
    exists k :: 0 <= k < |gs| && gs[k].start < w <= gs[k].back
  }

  lemma FollowerSnoc(gs: seq<Active>, g: Active, w: nat)
    ensures FollowerIn(gs + [g], w) <==> FollowerIn(gs, w) || g.start < w <= g.back
  {
    var gs' := gs + [g];
    assert gs'[|gs|] == g;
    if FollowerIn(gs, w) {
      var k :| 0 <= k < |gs| && gs[k].start < w <= gs[k].back;
      assert gs'[k] == gs[k];
    }
    if FollowerIn(gs', w) {
      var k :| 0 <= k < |gs'| && gs'[k].start < w <= gs'[k].back;
      assert k < |gs| ==> gs[k] == gs'[k];
    }
  }

  lemma {:induction false} ReleasedAreFollowers(steps: seq<Step>, w: nat)
    requires Runs(Init, steps)
    ensures w in After(Init, steps).released <==> FollowerIn(Exits(steps), w)
    decreases |steps|
  {
    hide Next;
    if |steps| > 0 {
      var n := |steps| - 1;
      var s, gs, step := After(Init, steps[..n]), Exits(steps[..n]), steps[n];
      ReleasedAreFollowers(steps[..n], w);
      if step.Exit? {
        assert Next(s, step).released == s.released + Range(step.g.start + 1, step.g.back + 1) by {
          RunKeepsInv(steps[..n]);
          ExitKeepsInv(s, Done(gs), step.g, step.notified);
        }
        FollowerSnoc(gs, step.g, w);
      } else {
        OnlyExitReleases(s, step);
        assert Exits(steps) == gs;
      }
    }
  }

  /**
   Group commit is correct in every run. The groups processed so far are consecutive
   segments of the order of entering; the group at work continues where they end and is
   the only one; a writer returns as a follower exactly if the leader of its own group
   has exited, and then it has an output.
   */
  lemma GroupCommit(steps: seq<Step>)
    requires Runs(Init, steps)
    ensures var s, gs := After(Init, steps), Exits(steps);
            && Tiles(gs)
            && (forall g :: g in s.leading ==> s.leading == {g} && g.start == Done(gs) <= g.back < s.entered)
            && (forall w: nat :: w in s.released <==> FollowerIn(gs, w))
            && s.released <= s.outputs
  {
    RunKeepsInv(steps);
    forall w: nat ensures w in After(Init, steps).released <==> FollowerIn(Exits(steps), w) {
      ReleasedAreFollowers(steps, w);
    }
    forall g | g in After(Init, steps).leading
      ensures After(Init, steps).leading == {g} && g.start == Done(Exits(steps)) <= g.back < After(Init, steps).entered
    {
      OneLeader(After(Init, steps), Done(Exits(steps)), g);
    }
  }

  /**
   No wakeup is lost or misdirected. Whenever a leader exits, the writers released are its
   own followers and nobody else, and the writer woken is the leader of the next group,
   if somebody has entered since.
   */
  lemma WakeupsAreExact(steps: seq<Step>, g: Active, notified: Option<nat>)
    requires Runs(Init, steps) && Enabled(After(Init, steps), Exit(g, notified))
    ensures var s := After(Init, steps);
            var s' := Next(s, Exit(g, notified));
            && s'.released - s.released == Range(g.start + 1, g.back + 1)
            && s'.woken == (if g.back + 1 < s.entered then {g.back + 1} else {})
  {
    RunKeepsInv(steps);
    var s, gs := After(Init, steps), Exits(steps);
    ExitKeepsInv(s, Done(gs), g, notified);
    OneLeader(s, Done(gs), g);
    assert s.released !! Range(g.start + 1, g.back + 1);
  }

  /** The barrier never gets stuck: as long as somebody who entered is not finished, a woken
      leader can resume, or the leader at work can process its group or exit. */
  lemma NeverStuck(steps: seq<Step>)
    requires Runs(Init, steps) && After(Init, steps).entered > Done(Exits(steps))
    ensures var s := After(Init, steps);
            || (exists w :: Enabled(s, Resume(w)))
            || (exists g :: Enabled(s, Process(g)))
            || (exists g, notified :: Enabled(s, Exit(g, notified)))
  {
    RunKeepsInv(steps);
    var s, done := After(Init, steps), Done(Exits(steps));
    if HandingOver(s, done) {
      assert Enabled(s, Resume(done));
    } else {
      var g :| g in s.leading;
      OneLeader(s, done, g);
      if g.processed {
        assert Enabled(s, Exit(g, s.pendingLeader));
      } else {
        assert Enabled(s, Process(g));
      }
    }
  }

  // ---------------------------------------------------------------- the object

  class WriteBarrier {
    var entered: nat
    var head: Option<nat>
    var tail: Option<nat>
    var pendingLeader: Option<nat>
    var pendingIndex: nat
    var next: map<nat, nat>
    var leaderCv: set<nat>
    var woken: set<nat>
    var followerCvs0: set<nat>
    var followerCvs1: set<nat>
    var leading: set<Active>
    var outputs: set<nat>
    var released: set<nat>

    ghost function View(): State
      reads this
    {
      State(entered, head, tail, pendingLeader, pendingIndex, next, leaderCv, woken,
            followerCvs0, followerCvs1, leading, outputs, released)
    }

    constructor ()
      ensures View() == Init
    {
      entered, head, tail, pendingLeader, pendingIndex, next := 0, None, None, None, 0, map[];
      leaderCv, woken, followerCvs0, followerCvs1, leading, outputs, released := {}, {}, {}, {}, {}, {}, {};
    }

    /** `enter`, up to the point where the writer leads a group or falls asleep. */
    method EnterLocked() returns (group: Option<Active>)
      modifies this
      ensures View() == Next(old(View()), Enter)
      ensures group == if old(tail).None? then Some(Active(old(entered), old(entered), false)) else None
    {
      var node := entered;
      entered := entered + 1;
      group := None;
      if tail.Some? {
        next := next[tail.value := node];
        tail := Some(node);
        if pendingLeader.Some? {
          // follower of the next group
          if pendingIndex % 2 == 0 {
            followerCvs0 := followerCvs0 + {node};
          } else {
            followerCvs1 := followerCvs1 + {node};
          }
        } else {
          // leader of the next group
          pendingLeader := Some(node);
          pendingIndex := (pendingIndex + 1) % Wrap;
          leaderCv := leaderCv + {node};
        }
      } else {
        // leader of an empty group
        head, tail := Some(node), Some(node);
        group := Some(Active(node, node, false));
        leading := leading + {group.value};
      }
    }

    /** `enter`, from the wakeup on: the group reaches up to the current tail. */
    method ResumeLeader(w: nat) returns (group: Active)
      requires Enabled(View(), Resume(w)) && tail.Some?
      modifies this
      ensures View() == Next(old(View()), Resume(w))
      ensures group == Active(w, old(tail).value, false)
    {
      woken := woken - {w};
      pendingLeader := None;
      group := Active(w, tail.value, false);
      leading := leading + {group};
    }

    /** The leader walks its group along the links and sets every output. */
    method ProcessGroup(g: Active)
      requires Enabled(View(), Process(g))
      modifies this`outputs, this`leading
      ensures View() == Next(old(View()), Process(g))
    {
      var start := Some(g.start);
      ghost var todo := Chain(next, g.start, g.back);
      ghost var all := todo;
      while start.Some?
        modifies this`outputs
        invariant start.Some? ==> LinkedTo(next, start.value, g.back) && todo == Chain(next, start.value, g.back)
        invariant start.None? ==> todo == {}
        invariant outputs + todo == old(outputs) + all
        decreases if start.Some? then g.back + 1 - start.value else 0
      {
        var writer := start.value;
        if start.value == g.back {
          start := None;
          todo := {};
        } else {
          start := Some(next[writer]);
          todo := Chain(next, next[writer], g.back);
        }
        outputs := outputs + {writer};
      }
      leading := leading - {g} + {g.(processed := true)};
    }

    method LeaderExit(g: Active) returns (ghost notified: Option<nat>)
      requires g in leading && g.processed
      modifies this
      ensures Enabled(old(View()), Exit(g, notified))
      ensures View() == Next(old(View()), Exit(g, notified))
    {
      hide Chain;
      leading := leading - {g};
      notified := None;
      if pendingLeader.Some? {
        var leader := pendingLeader.value;
        if leaderCv != {} {
          var w :| w in leaderCv;
          leaderCv, woken := leaderCv - {w}, woken + {w};
          notified := Some(w);
        }
        if (pendingIndex + Wrap - 1) % Wrap % 2 == 0 {
          released, followerCvs0 := released + followerCvs0, {};
        } else {
          released, followerCvs1 := released + followerCvs1, {};
        }
        head := Some(leader);
      } else {
        if pendingIndex % 2 == 0 {
          released, followerCvs0 := released + followerCvs0, {};
        } else {
          released, followerCvs1 := released + followerCvs1, {};
        }
        head, tail := None, None;
      }
    }
  }
}
