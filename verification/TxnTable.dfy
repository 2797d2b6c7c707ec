/**
 Transaction records, changed only by conditional writes.

 A record is three keys of one shard. A shard applies a write atomically, or refuses it with
 the first condition that does not hold. Clients resend writes, so that any request may be
 applied again, in any order.
 */
module TxnTable {
  import opened PipeLog
  import opened Codec

  datatype TxnState = Running | Committed | Aborted

  datatype Kind = CommitKey | HeartbeatKey | StateKey

  datatype Key = Key(start: nat, kind: Kind)

  type Store = map<Key, Bytes>

  datatype Condition = ExpectNotExists | ExpectExists | ExpectValue(value: Bytes)

  datatype PutRequest = PutRequest(key: Key, conditions: seq<Condition>, value: Bytes)

  datatype Response = Done | CasFailed(idx: nat, condIdx: nat, prev: Option<Bytes>)

  datatype Outcome = Fine | InvalidArgument | NotFound | Internal

  // -------------------------------------------------------------------- the shard

  predicate Holds(cond: Condition, value: Option<Bytes>) {
    match cond
    case ExpectNotExists => value.None?
    case ExpectExists => value.Some?
    case ExpectValue(v) => value == Some(v)
  }

  /** The first condition that does not hold. */
  function FirstFailing(conds: seq<Condition>, value: Option<Bytes>): Option<nat> {
    if conds == [] then None
    else if !Holds(conds[0], value) then Some(0)
    else match FirstFailing(conds[1..], value)
      case None => None
      case Some(k) => Some(k + 1)
  }

  function Lookup(store: Store, key: Key): Option<Bytes> {
    if key in store then Some(store[key]) else None
  }

  /** The answer to a batch: every condition is evaluated on the store before the batch. */
  function Answer(store: Store, puts: seq<PutRequest>, from: nat): Response {
    if puts == [] then Done else
    match FirstFailing(puts[0].conditions, Lookup(store, puts[0].key))
    case Some(k) => CasFailed(from, k, Lookup(store, puts[0].key))
    case None => Answer(store, puts[1..], from + 1)
  }

  function Applied(store: Store, puts: seq<PutRequest>): Store
    decreases |puts|
  {
    if puts == [] then store else Applied(store[puts[0].key := puts[0].value], puts[1..])
  }

  function Written(store: Store, puts: seq<PutRequest>): Store {
    if Answer(store, puts, 0).Done? then Applied(store, puts) else store
  }

  class Shard {
    var store: Store

    method BatchWrite(puts: seq<PutRequest>) returns (r: Response)
      modifies this
      ensures r == Answer(old(store), puts, 0) && store == Written(old(store), puts)
    {
      var batch := store;
      for i := 0 to |puts|
        invariant store == old(store) && Answer(store, puts, 0) == Answer(store, puts[i..], i)
        invariant Applied(store, puts) == Applied(batch, puts[i..])
      {
        assert puts[i..][0] == puts[i] && puts[i..][1..] == puts[i + 1..];
        var prev := if puts[i].key in store then Some(store[puts[i].key]) else None;
        var failing := EvalConditions(puts[i].conditions, prev);
        if failing.Some? {
          return CasFailed(i, failing.value, prev);
        }
        batch := batch[puts[i].key := puts[i].value];
      }
      store := batch;
      return Done;
    }
  }

  method EvalConditions(conds: seq<Condition>, value: Option<Bytes>) returns (r: Option<nat>)
    ensures r == FirstFailing(conds, value)
  {
    for i := 0 to |conds|
      invariant FirstFailing(conds, value) == match FirstFailing(conds[i..], value)
                                              case None => None
                                              case Some(k) => Some(i + k)
    {
      assert conds[i..][0] == conds[i] && conds[i..][1..] == conds[i + 1..];
      if !Holds(conds[i], value) { return Some(i); }
    }
    return None;
  }

  // ------------------------------------------------------------------- operations

  const RUNNING: Bytes := [0x52, 0x55, 0x4e, 0x4e, 0x49, 0x4e, 0x47]
  const COMMITTED: Bytes := [0x43, 0x4f, 0x4d, 0x4d, 0x49, 0x54, 0x54, 0x45, 0x44]
  const ABORTED: Bytes := [0x41, 0x42, 0x4f, 0x52, 0x54, 0x45, 0x44]

  function StateValue(s: TxnState): Bytes {
    match s
    case Running => RUNNING
    case Committed => COMMITTED
    case Aborted => ABORTED
  }

  function ParseState(b: Bytes): Option<TxnState> {
    if b == RUNNING then Some(Running)
    else if b == COMMITTED then Some(Committed)
    else if b == ABORTED then Some(Aborted)
    else None
  }

  lemma StateValuesDiffer()
    ensures RUNNING != COMMITTED && RUNNING != ABORTED && COMMITTED != ABORTED
  {
    assert RUNNING[0] == 0x52 && COMMITTED[0] == 0x43 && ABORTED[0] == 0x41;
  }

  /** An operation on one transaction. The heartbeat is the time it writes, eight bytes. */
  datatype Op =
    | Begin(start: nat, heartbeat: Bytes)
    | Heartbeat(start: nat, heartbeat: Bytes)
    | Commit(start: nat, version: U64, heartbeat: Bytes)
    | Abort(start: nat, heartbeat: Bytes)

  function Request(op: Op): seq<PutRequest> {
    match op
    case Begin(start, hb) => [PutRequest(Key(start, StateKey), [ExpectNotExists], RUNNING),
                              PutRequest(Key(start, HeartbeatKey), [], hb)]
    case Heartbeat(start, hb) => [PutRequest(Key(start, HeartbeatKey), [ExpectExists], hb)]
    case Commit(start, version, hb) => [PutRequest(Key(start, StateKey), [ExpectValue(RUNNING)], COMMITTED),
                                        PutRequest(Key(start, CommitKey), [], BigEndian(version, 8)),
                                        PutRequest(Key(start, HeartbeatKey), [], hb)]
    case Abort(start, hb) => [PutRequest(Key(start, StateKey), [ExpectValue(RUNNING)], ABORTED),
                              PutRequest(Key(start, HeartbeatKey), [], hb)]
  }

  /** How the operation reads the answer. */
  function Reads(op: Op, r: Response): Outcome {
    if r.Done? || op.Heartbeat? then Fine
    else if r.idx != 0 || r.condIdx != 0 then Internal
    else if r.prev.None? then NotFound
    else match ParseState(r.prev.value)
      case None => Internal
      case Some(Running) => if op.Begin? then Fine else Internal
      case Some(Committed) => if op.Commit? then Fine else InvalidArgument
      case Some(Aborted) => if op.Abort? then Fine else InvalidArgument
  }

  /** One delivery of the operation's request, and what the client makes of the answer. */
  method Deliver(shard: Shard, op: Op) returns (r: Outcome)
    modifies shard
    ensures shard.store == Next(old(shard.store), op) && r == Result(old(shard.store), op)
  {
    var response := shard.BatchWrite(Request(op));
    return Reads(op, response);
  }

  function Next(store: Store, op: Op): Store { Written(store, Request(op)) }

  function Result(store: Store, op: Op): Outcome { Reads(op, Answer(store, Request(op), 0)) }

  // -------------------------------------------------------------- what a step does

  function StateOf(store: Store, start: nat): Option<Bytes> { Lookup(store, Key(start, StateKey)) }

  function Guard(op: Op): Condition {
    match op
    case Begin(_, _) => ExpectNotExists
    case Heartbeat(_, _) => ExpectExists
    case Commit(_, _, _) => ExpectValue(RUNNING)
    case Abort(_, _) => ExpectValue(RUNNING)
  }

  function GuardKey(op: Op): Key { Key(op.start, if op.Heartbeat? then HeartbeatKey else StateKey) }

  /** Only the first put of each request has a condition, and only one. */
  lemma AnswerIs(store: Store, op: Op)
    ensures var prev := Lookup(store, GuardKey(op));
            Answer(store, Request(op), 0) == if Holds(Guard(op), prev) then Done else CasFailed(0, 0, prev)
  {
    var puts := Request(op);
    var prev := Lookup(store, GuardKey(op));
    assert puts[0].conditions == [Guard(op)] && puts[0].key == GuardKey(op);
    assert FirstFailing([Guard(op)], prev) == if Holds(Guard(op), prev) then None else Some(0) by {
      assert FirstFailing([Guard(op)][1..], prev) == None;
    }
    AnswerRest(store, puts[1..], 1);
  }

  lemma {:induction false} AnswerRest(store: Store, puts: seq<PutRequest>, from: nat)
    requires forall i :: 0 <= i < |puts| ==> puts[i].conditions == []
    ensures Answer(store, puts, from) == Done
    decreases |puts|
  {
    if puts != [] {
      assert FirstFailing(puts[0].conditions, Lookup(store, puts[0].key)) == None;
      AnswerRest(store, puts[1..], from + 1);
    }
  }

  /** The store after the operation's write is applied. */
  function Effect(store: Store, op: Op): Store {
    match op
    case Begin(start, hb) => store[Key(start, StateKey) := RUNNING][Key(start, HeartbeatKey) := hb]
    case Heartbeat(start, hb) => store[Key(start, HeartbeatKey) := hb]
    case Commit(start, version, hb) =>
      store[Key(start, StateKey) := COMMITTED][Key(start, CommitKey) := BigEndian(version, 8)][Key(start, HeartbeatKey) := hb]
    case Abort(start, hb) => store[Key(start, StateKey) := ABORTED][Key(start, HeartbeatKey) := hb]
  }

  lemma AppliedIs(store: Store, op: Op)
    ensures Applied(store, Request(op)) == Effect(store, op)
  {
    var puts := Request(op);
    AppliedStep(store, puts);
    var s1 := store[puts[0].key := puts[0].value];
    if |puts| > 1 {
      AppliedStep(s1, puts[1..]);
      var s2 := s1[puts[1].key := puts[1].value];
      if |puts| > 2 {
        AppliedStep(s2, puts[1..][1..]);
        assert puts[1..][1..][1..] == [];
      } else {
        assert puts[1..][1..] == [];
      }
    } else {
      assert puts[1..] == [];
    }
  }

  lemma AppliedStep(store: Store, puts: seq<PutRequest>)
    requires puts != []
    ensures Applied(store, puts) == Applied(store[puts[0].key := puts[0].value], puts[1..])
  {
  }

  lemma NextIs(store: Store, op: Op)
    ensures Next(store, op) == if Holds(Guard(op), Lookup(store, GuardKey(op))) then Effect(store, op) else store
  {
    AnswerIs(store, op);
    AppliedIs(store, op);
  }

  // ---------------------------------------------------------------------- invariant

  /** A record is absent, or has a state and a heartbeat, and a commit version exactly when it
      is committed. */
  ghost predicate RecordOk(store: Store, start: nat) {
    var commit, heartbeat := Lookup(store, Key(start, CommitKey)), Lookup(store, Key(start, HeartbeatKey));
    && (commit.Some? ==> |commit.value| == 8) && (heartbeat.Some? ==> |heartbeat.value| == 8)
    && match StateOf(store, start)
       case None => commit.None? && heartbeat.None?
       case Some(s) => heartbeat.Some? && ParseState(s).Some? && (commit.Some? <==> s == COMMITTED)
  }

  ghost predicate Decided(store: Store, start: nat) {
    StateOf(store, start) == Some(COMMITTED) || StateOf(store, start) == Some(ABORTED)
  }

  lemma StepKeepsRecord(store: Store, op: Op, start: nat)
    requires RecordOk(store, start) && |op.heartbeat| == 8
    ensures RecordOk(Next(store, op), start)
    ensures Decided(store, start) ==>
              && StateOf(Next(store, op), start) == StateOf(store, start)
              && Lookup(Next(store, op), Key(start, CommitKey)) == Lookup(store, Key(start, CommitKey))
  {
    hide Next;
    NextIs(store, op);
    StateValuesDiffer();
  }

  /** What the client is told about a commit or an abort is what the record then says, and why it is
      refused is what the record said before. */
  lemma FineMeansDecided(store: Store, op: Op)
    requires RecordOk(store, op.start)
    ensures op.Commit? ==> (Result(store, op) == Fine <==> StateOf(Next(store, op), op.start) == Some(COMMITTED))
    ensures op.Abort? ==> (Result(store, op) == Fine <==> StateOf(Next(store, op), op.start) == Some(ABORTED))
    ensures op.Begin? ==> (Result(store, op) == Fine <==> StateOf(Next(store, op), op.start) == Some(RUNNING))
    ensures op.Heartbeat? ==> Result(store, op) == Fine
    ensures Result(store, op) == NotFound <==> (op.Commit? || op.Abort?) && StateOf(store, op.start) == None
    ensures Result(store, op) == InvalidArgument <==>
              || (op.Begin? && Decided(store, op.start))
              || (op.Commit? && StateOf(store, op.start) == Some(ABORTED))
              || (op.Abort? && StateOf(store, op.start) == Some(COMMITTED))
    ensures Result(store, op) != Internal
  {
    hide Next, Answer;
    NextIs(store, op);
    AnswerIs(store, op);
    StateValuesDiffer();
  }

  // --------------------------------------------------------------------------- runs

  function After(store: Store, ops: seq<Op>): Store
    decreases |ops|
  {
    if ops == [] then store else After(Next(store, ops[0]), ops[1..])
  }

  ghost predicate Timed(ops: seq<Op>) {
    forall i :: 0 <= i < |ops| ==> |ops[i].heartbeat| == 8
  }

  /** Every reachable record is whole; a decision, once made, stays, and so does the commit
      version. */
  lemma {:induction false} RunKeepsRecord(store: Store, ops: seq<Op>, start: nat)
    requires RecordOk(store, start) && Timed(ops)
    ensures RecordOk(After(store, ops), start)
    ensures Decided(store, start) ==>
              && StateOf(After(store, ops), start) == StateOf(store, start)
              && Lookup(After(store, ops), Key(start, CommitKey)) == Lookup(store, Key(start, CommitKey))
    decreases |ops|
  {
    hide RecordOk, Next;
    if ops != [] {
      StepKeepsRecord(store, ops[0], start);
      RunKeepsRecord(Next(store, ops[0]), ops[1..], start);
    }
  }

  lemma {:induction false} AfterConcat(store: Store, a: seq<Op>, b: seq<Op>)
    ensures After(store, a + b) == After(After(store, a), b)
    decreases |a|
  {
    hide Next;
    if a == [] {
      assert a + b == b;
    } else {
      AfterConcat(Next(store, a[0]), a[1..], b);
      assert (a + b)[1..] == a[1..] + b;
    }
  }

  /** Splits a run at one of its operations. */
  lemma SplitAt(ops: seq<Op>, i: nat)
    requires i < |ops|
    ensures After(map[], ops) == After(Next(After(map[], ops[..i]), ops[i]), ops[i + 1..])
  {
    hide Next;
    assert ops == ops[..i] + ops[i..] && ops[i..][1..] == ops[i + 1..];
    AfterConcat(map[], ops[..i], ops[i..]);
  }

  /** In a run where any operation may be delivered any number of times and in any order, what
      a commit or an abort was told stays true to the end. */
  lemma FineStays(ops: seq<Op>, i: nat)
    requires Timed(ops) && i < |ops| && (ops[i].Commit? || ops[i].Abort?)
    requires Result(After(map[], ops[..i]), ops[i]) == Fine
    ensures StateOf(After(map[], ops), ops[i].start) == Some(if ops[i].Commit? then COMMITTED else ABORTED)
  {
    hide RecordOk, Next, Result;
    var before := After(map[], ops[..i]);
    EmptyRecordOk(ops[i].start);
    RunKeepsRecord(map[], ops[..i], ops[i].start);
    FineMeansDecided(before, ops[i]);
    StepKeepsRecord(before, ops[i], ops[i].start);
    RunKeepsRecord(Next(before, ops[i]), ops[i + 1..], ops[i].start);
    SplitAt(ops, i);
  }

  lemma EmptyRecordOk(start: nat)
    ensures RecordOk(map[], start)
  {
  }

  /** A transaction is decided once: no run has both a commit and an abort of it succeed. */
  lemma DecidedOnce(ops: seq<Op>, i: nat, j: nat)
    requires Timed(ops) && i < |ops| && j < |ops| && ops[i].Commit? && ops[j].Abort? && ops[i].start == ops[j].start
    ensures !(Result(After(map[], ops[..i]), ops[i]) == Fine && Result(After(map[], ops[..j]), ops[j]) == Fine)
  {
    hide Result, After;
    if Result(After(map[], ops[..i]), ops[i]) == Fine && Result(After(map[], ops[..j]), ops[j]) == Fine {
      FineStays(ops, i);
      FineStays(ops, j);
      StateValuesDiffer();
      assert false;
    }
  }

  /** A commit that is told it succeeded has its own version recorded exactly when it was the
      one that decided, or asked for the recorded version again. The code assumes that only one
      client commits a transaction. */
  lemma CommitVersionIsFirst(store: Store, op: Op)
    requires op.Commit? && RecordOk(store, op.start) && Result(store, op) == Fine
    ensures Lookup(Next(store, op), Key(op.start, CommitKey)) == Some(BigEndian(op.version, 8)) <==>
            || StateOf(store, op.start) == Some(RUNNING)
            || Lookup(store, Key(op.start, CommitKey)) == Some(BigEndian(op.version, 8))
  {
    hide Next, BigEndian, Answer;
    NextIs(store, op);
    AnswerIs(store, op);
    StateValuesDiffer();
  }

  /** Two commits of one transaction can both be told they succeeded, with the version of the
      first recorded. */
  lemma SecondCommitKeepsFirstVersion(hb: Bytes)
    requires |hb| == 8
    ensures var s1 := Next(Next(map[], Begin(7, hb)), Commit(7, 8, hb));
            && Result(s1, Commit(7, 9, hb)) == Fine
            && Lookup(Next(s1, Commit(7, 9, hb)), Key(7, CommitKey)) == Some(BigEndian(8, 8)) != Some(BigEndian(9, 8))
  {
    hide Next, Answer, BigEndian;
    NextIs(map[], Begin(7, hb));
    var s0 := Next(map[], Begin(7, hb));
    NextIs(s0, Commit(7, 8, hb));
    var s1 := Next(s0, Commit(7, 8, hb));
    StateValuesDiffer();
    AnswerIs(s1, Commit(7, 9, hb));
    NextIs(s1, Commit(7, 9, hb));
    Pow256Eight();
    FixedRoundTrip(8, 8);
    FixedRoundTrip(9, 8);
  }

  // ------------------------------------------------------------------------ parsing

  datatype TxnRecord = TxnRecord(start: nat, heartbeat: nat, state: TxnState, commitVersion: Option<nat>)

  datatype ParseResult = Absent | Parsed(record: TxnRecord) | ParseError

  /** The keys of a record in scan order: commit, heartbeat, state. */
  function Scan(store: Store, start: nat): seq<(Key, Bytes)> {
    Present(store, Key(start, CommitKey)) + Present(store, Key(start, HeartbeatKey)) + Present(store, Key(start, StateKey))
  }

  function Present(store: Store, key: Key): seq<(Key, Bytes)> {
    if key in store then [(key, store[key])] else []
  }

  function ParseU64(b: Bytes): Option<nat> {
    if |b| == 8 then Some(FromBigEndian(b)) else None
  }

  function ParseRest(values: seq<(Key, Bytes)>, start: nat, commit: Option<nat>): ParseResult {
    if |values| != 2 || values[0].0 != Key(start, HeartbeatKey) || values[1].0 != Key(start, StateKey) then ParseError else
    match (ParseU64(values[0].1), ParseState(values[1].1))
    case (Some(heartbeat), Some(state)) => Parsed(TxnRecord(start, heartbeat, state, commit))
    case _ => ParseError
  }

  function ParseRecord(values: seq<(Key, Bytes)>, start: nat): ParseResult {
    if values == [] then Absent
    else if values[0].0 == Key(start, CommitKey) then
      match ParseU64(values[0].1)
      case None => ParseError
      case Some(version) => ParseRest(values[1..], start, Some(version))
    else ParseRest(values, start, None)
  }

  /** What the bytes of a commit key mean. */
  function Version(b: Option<Bytes>): Option<nat> {
    match b
    case None => None
    case Some(v) => Some(FromBigEndian(v))
  }

  /** Every reachable record parses, to the state, heartbeat and commit version it has, and it has
      a commit version exactly when it is committed. */
  lemma ReachableParses(ops: seq<Op>, start: nat)
    requires Timed(ops)
    ensures var store := After(map[], ops);
            var r := ParseRecord(Scan(store, start), start);
            && (r.Absent? <==> StateOf(store, start) == None) && !r.ParseError?
            && (r.Parsed? ==> && (r.record.state == Committed <==> r.record.commitVersion.Some?)
                              && StateOf(store, start) == Some(StateValue(r.record.state))
                              && r.record.start == start
                              && Some(r.record.heartbeat) == Version(Lookup(store, Key(start, HeartbeatKey)))
                              && r.record.commitVersion == Version(Lookup(store, Key(start, CommitKey))))
  {
    hide ParseRecord, Scan, After;
    EmptyRecordOk(start);
    RunKeepsRecord(map[], ops, start);
    RecordParses(After(map[], ops), start);
  }

  /** The version was written by a commit of the run, the one that met the transaction running. */
  lemma {:induction false} WrittenByCommit(store: Store, ops: seq<Op>, start: nat) returns (i: nat)
    requires RecordOk(store, start) && Timed(ops)
    requires !Decided(store, start) && StateOf(After(store, ops), start) == Some(COMMITTED)
    ensures i < |ops| && ops[i].Commit? && ops[i].start == start
    ensures StateOf(After(store, ops[..i]), start) == Some(RUNNING)
    ensures Lookup(After(store, ops), Key(start, CommitKey)) == Some(BigEndian(ops[i].version, 8))
    decreases |ops|
  {
    hide RecordOk, Next, BigEndian;
    assert ops != [];
    var next := Next(store, ops[0]);
    StepKeepsRecord(store, ops[0], start);
    if Decided(next, start) {
      i := 0;
      RunKeepsRecord(next, ops[1..], start);
      assert ops[0].Commit? && ops[0].start == start && StateOf(store, start) == Some(RUNNING)
             && Lookup(next, Key(start, CommitKey)) == Some(BigEndian(ops[0].version, 8)) by {
        DecidedBy(store, ops[0], start);
        StateValuesDiffer();
      }
      assert ops[..0] == [];
    } else {
      i := WrittenByCommit(next, ops[1..], start);
      assert ops[..i + 1][1..] == ops[1..][..i] && ops[..i + 1][0] == ops[0];
      i := i + 1;
    }
  }

  lemma DecidedBy(store: Store, op: Op, start: nat)
    requires !Decided(store, start) && StateOf(Next(store, op), start) == Some(COMMITTED)
    ensures op.Commit? && op.start == start && StateOf(store, start) == Some(RUNNING)
    ensures Lookup(Next(store, op), Key(start, CommitKey)) == Some(BigEndian(op.version, 8))
  {
    hide Next, BigEndian;
    NextIs(store, op);
    StateValuesDiffer();
  }

  /** A record that parses as committed has the version of the commit that decided it. */
  lemma ParsedVersionIsFirst(ops: seq<Op>, start: nat) returns (i: nat)
    requires Timed(ops)
    requires var r := ParseRecord(Scan(After(map[], ops), start), start); r.Parsed? && r.record.state == Committed
    ensures i < |ops| && ops[i].Commit? && ops[i].start == start
    ensures StateOf(After(map[], ops[..i]), start) == Some(RUNNING)
    ensures ParseRecord(Scan(After(map[], ops), start), start).record.commitVersion == Some(ops[i].version)
  {
    hide ParseRecord, Scan, After, RecordOk, BigEndian, FromBigEndian;
    ReachableParses(ops, start);
    EmptyRecordOk(start);
    i := WrittenByCommit(map[], ops, start);
    Pow256Eight();
    FixedRoundTrip(ops[i].version, 8);
  }

  lemma RecordParses(store: Store, start: nat)
    requires RecordOk(store, start)
    ensures var r := ParseRecord(Scan(store, start), start);
            && (r.Absent? <==> StateOf(store, start) == None) && !r.ParseError?
            && (r.Parsed? ==> && (r.record.state == Committed <==> r.record.commitVersion.Some?)
                              && StateOf(store, start) == Some(StateValue(r.record.state))
                              && r.record.start == start
                              && Some(r.record.heartbeat) == Version(Lookup(store, Key(start, HeartbeatKey)))
                              && r.record.commitVersion == Version(Lookup(store, Key(start, CommitKey))))
  {
    hide FromBigEndian;
    StateValuesDiffer();
    var values := Scan(store, start);
    if StateOf(store, start).Some? {
      var hb, st := (Key(start, HeartbeatKey), store[Key(start, HeartbeatKey)]), (Key(start, StateKey), store[Key(start, StateKey)]);
      if Key(start, CommitKey) in store {
        assert values[1..] == [hb, st];
      } else {
        assert values == [hb, st];
      }
    }
  }
}
