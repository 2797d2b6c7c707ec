/**
 The retry loop of the client of one replica group.

 What the servers reply, and whether a node can be connected, is chosen by the environment:
 functions of the attempt.
 */
module GroupClients {
  import opened PipeLog

  datatype Replica = Replica(id: nat, node: nat)

  datatype GroupState = GroupState(epoch: nat, leader: Option<(nat, nat)>, replicas: seq<Replica>)

  /** What an attempt comes to. `Unreachable` stands for a missing group, a failed connection and
      a transport error that may be retried. */
  datatype Reply =
    | Success
    | Unreachable
    | NotLeader(term: nat, leader: Option<Replica>)
    | EpochNotMatch(epoch: nat, replicas: seq<Replica>, executable: bool)
    | OtherError

  datatype Outcome = Succeeded | Failed | NotAccessible | DeadlineExceeded | Panicked

  // ---------------------------------------------------------------------- replica lists

  function Nodes(replicas: seq<Replica>): (r: seq<nat>)
    ensures |r| == |replicas| && forall i :: 0 <= i < |r| ==> r[i] == replicas[i].node
  {
    seq(|replicas|, i requires 0 <= i < |replicas| => replicas[i].node)
  }

  method Position(replicas: seq<Replica>, node: nat) returns (r: Option<nat>)
    ensures r.Some? ==> r.value < |replicas| && replicas[r.value].node == node
    ensures r.None? ==> node !in Nodes(replicas)
  {
    for i := 0 to |replicas|
      invariant forall j :: 0 <= j < i ==> replicas[j].node != node
    {
      if replicas[i].node == node { return Some(i); }
    }
    return None;
  }

  /** Moves the node to the front, if it is there; nothing is lost. */
  method MoveNodeToFirst(replicas: seq<Replica>, node: nat) returns (r: seq<Replica>)
    ensures multiset(r) == multiset(replicas) && |r| == |replicas|
    ensures node in Nodes(replicas) ==> r[0].node == node
    ensures node !in Nodes(replicas) ==> r == replicas
  {
    var at := Position(replicas, node);
    r := replicas;
    if at.Some? {
      assert Nodes(replicas)[at.value] == node;
      if at.value != 0 {
        r := replicas[0 := replicas[at.value]][at.value := replicas[0]];
      }
    }
  }

  /** Moves the replica's node to the front, adding the replica if its node is not known. */
  method MoveReplicaToFirst(replicas: seq<Replica>, replica: Replica) returns (r: seq<Replica>)
    ensures |r| > 0 && r[0].node == replica.node
    ensures replica.node in Nodes(replicas) ==> multiset(r) == multiset(replicas)
    ensures replica.node !in Nodes(replicas) ==> multiset(r) == multiset(replicas + [replica])
    ensures |replicas| <= |r| <= |replicas| + 1
  {
    hide Nodes;
    var at := Position(replicas, replica.node);
    r := replicas;
    var k := 0;
    if at.Some? {
      assert Nodes(replicas)[at.value] == replica.node;
      k := at.value;
    } else {
      r := replicas + [replica];
      k := |r| - 1;
    }
    if k != 0 {
      r := r[0 := r[k]][k := r[0]];
    }
  }

  // ------------------------------------------------------------------------- the client

  /** The servers keep epochs and terms below these bounds. */
  ghost predicate Bounded(replies: nat -> Reply, maxEpoch: nat, maxTerm: nat) {
    forall n: nat ::
      && (replies(n).EpochNotMatch? ==> replies(n).epoch <= maxEpoch)
      && (replies(n).NotLeader? ==> replies(n).term <= maxTerm)
  }

  class GroupClient {
    var epoch: nat
    var leaderState: Option<(nat, nat)>
    var replicas: seq<Replica>
    var accessNode: Option<nat>
    var nextIndex: nat

    constructor ()
      ensures epoch == 0 && leaderState.None? && replicas == [] && accessNode.None? && nextIndex == 0
    {
      epoch, leaderState, replicas, accessNode, nextIndex := 0, None, [], None, 0;
    }

    /** The accepted leader term, counting from one; zero if there is none. */
    function Term(): nat
      reads this
    {
      if leaderState.Some? then leaderState.value.1 + 1 else 0
    }

    /** Replica slots that are still to be tried. */
    function Slots(): nat
      reads this
    {
      if nextIndex <= |replicas| then |replicas| + 1 - nextIndex else 0
    }

    function Cached(): nat
      reads this
    {
      if accessNode.Some? then 1 else 0
    }

    /** Takes over a group; the node of its leader, if the leader is among the replicas, comes
        to the front, and no replica is lost. */
    method ApplyGroupState(group: GroupState)
      modifies this
      ensures epoch == group.epoch && leaderState == group.leader && multiset(replicas) == multiset(group.replicas)
      ensures |replicas| == |group.replicas| && accessNode == old(accessNode) && nextIndex == old(nextIndex)
      ensures group.leader.Some? && (exists i :: 0 <= i < |group.replicas| && group.replicas[i].id == group.leader.value.0) ==>
                exists i :: 0 <= i < |group.replicas| && group.replicas[i].id == group.leader.value.0
                            && replicas[0].node == group.replicas[i].node
    {
      leaderState := group.leader;
      epoch := group.epoch;
      replicas := group.replicas;
      if group.leader.Some? {
        var at := FindReplica(group.replicas, group.leader.value.0);
        if at.Some? {
          assert Nodes(replicas)[at.value] == group.replicas[at.value].node;
          replicas := MoveNodeToFirst(replicas, group.replicas[at.value].node);
        }
      }
    }

    /** The next replica in turn; the first one gets a second turn at the end. With no replica at
        all the first turn divides by zero. */
    method NextAccessNode() returns (r: Option<nat>, panics: bool)
      modifies this`nextIndex
      ensures panics <==> replicas == [] && old(nextIndex) == 0
      ensures r.Some? <==> old(nextIndex) <= |replicas| && !panics
      ensures r.Some? ==> replicas != [] && r.value == replicas[old(nextIndex) % |replicas|].node
                          && nextIndex == old(nextIndex) + 1
      ensures r.None? ==> nextIndex == old(nextIndex)
    {
      r, panics := None, false;
      if nextIndex <= |replicas| {
        if |replicas| == 0 {
          panics := true;
          return;
        }
        r := Some(replicas[nextIndex % |replicas|].node);
        nextIndex := nextIndex + 1;
      }
    }

    /** A node to talk to: the cached one, or the next that can be connected. */
    method RecommendClient(connects: nat -> bool) returns (r: Option<nat>, panics: bool)
      modifies this`nextIndex, this`accessNode
      ensures r == accessNode && (r.Some? ==> connects(r.value) && !panics)
      ensures r.Some? ==> (nextIndex == old(nextIndex) && accessNode == old(accessNode)) || Slots() < old(Slots())
      ensures Slots() <= old(Slots()) && nextIndex >= old(nextIndex)
      ensures panics ==> replicas == [] && old(nextIndex) == 0
      ensures r.None? && !panics ==> nextIndex > |replicas|
      ensures old(accessNode).Some? && connects(old(accessNode).value) ==> r == old(accessNode) && nextIndex == old(nextIndex)
      ensures nextIndex > old(nextIndex) ==> replicas != [] && (old(accessNode).Some? ==> !connects(old(accessNode).value))
      ensures r.Some? && nextIndex > old(nextIndex) ==> r.value == Turn(replicas, nextIndex - 1)
      ensures forall i :: old(nextIndex) <= i < (if r.Some? then nextIndex - 1 else nextIndex) ==> !connects(Turn(replicas, i))
      ensures Reachable(connects) && old(accessNode).None? ==>
                && (panics <==> replicas == [] && old(nextIndex) == 0)
                && (r.Some? <==> old(nextIndex) <= |replicas| && !panics)
                && (r.Some? ==> replicas != [] && r.value == replicas[old(nextIndex) % |replicas|].node
                                && nextIndex == old(nextIndex) + 1)
    {
      panics := false;
      while true
        invariant nextIndex >= old(nextIndex) && (nextIndex > old(nextIndex) ==> Slots() < old(Slots()))
        invariant nextIndex == old(nextIndex) ==> accessNode == old(accessNode) || accessNode.None?
        invariant accessNode != old(accessNode) || nextIndex > old(nextIndex) ==>
                    accessNode.None? && (old(accessNode).Some? ==> !connects(old(accessNode).value))
        invariant nextIndex > old(nextIndex) ==> replicas != []
        invariant forall i :: old(nextIndex) <= i < nextIndex ==> !connects(Turn(replicas, i))
        invariant Reachable(connects) ==> accessNode == old(accessNode) && nextIndex == old(nextIndex)
        invariant !panics
        decreases Slots(), Cached()
      {
        var node := accessNode;
        if node.None? {
          node, panics := NextAccessNode();
          if node.None? { return None, panics; }
        }
        if connects(node.value) {
          accessNode := node;
          return node, false;
        }
        accessNode := None;
      }
    }

    /** A reply from a leader this client does not know yet. */
    ghost predicate NewLeader(reply: Reply)
      reads this
    {
      reply.NotLeader? && reply.leader.Some? && (leaderState.Some? ==> leaderState.value.1 < reply.term)
    }

    /** Takes in a reply that is no success; `None` means to go on. The epoch and the accepted
        term never go back, and each reply that lets the loop go on uses something up. */
    method ApplyStatus(reply: Reply, accurateEpoch: bool) returns (r: Option<Outcome>)
      requires !reply.Success?
      modifies this
      ensures epoch >= old(epoch) && Term() >= old(Term())
      // a new leader is accepted, tried next and remembered as a replica
      ensures old(NewLeader(reply)) ==>
                && r.None? && leaderState == Some((reply.leader.value.id, reply.term))
                && accessNode == Some(reply.leader.value.node)
                && replicas != [] && replicas[0].node == reply.leader.value.node
                && multiset(replicas) == multiset(if reply.leader.value.node in Nodes(old(replicas)) then old(replicas)
                                                  else old(replicas) + [reply.leader.value])
                && epoch == old(epoch) && nextIndex == old(nextIndex)
      // any other reply that is no new group only makes the client leave the node
      ensures reply.Unreachable? || (reply.NotLeader? && !old(NewLeader(reply))) ==>
                && r.None? && accessNode.None? && epoch == old(epoch) && leaderState == old(leaderState)
                && replicas == old(replicas) && nextIndex == old(nextIndex)
      // a newer group is taken over, and its other replicas come next
      ensures reply.EpochNotMatch? && r.None? ==>
                && !accurateEpoch && reply.executable && old(epoch) < epoch == reply.epoch
                && leaderState == old(leaderState) && accessNode == old(accessNode) && nextIndex == 1
                && multiset(replicas) == multiset(reply.replicas) && |replicas| == |reply.replicas|
                && (accessNode.Some? && accessNode.value in Nodes(reply.replicas) ==> replicas[0].node == accessNode.value)
      ensures r == Some(Panicked) <==> reply.EpochNotMatch? && !accurateEpoch && reply.epoch <= old(epoch)
      ensures r == Some(Failed) <==>
                || reply.OtherError?
                || (reply.EpochNotMatch? && (accurateEpoch || (reply.epoch > old(epoch) && !reply.executable)))
      ensures r.Some? ==> (r.value == Panicked || r.value == Failed) && epoch == old(epoch)
                          && leaderState == old(leaderState) && replicas == old(replicas)
    {
      r := None;
      match reply
      case Unreachable => accessNode := None;
      case NotLeader(term, leader) =>
        accessNode := None;
        if leader.Some? && !(leaderState.Some? && leaderState.value.1 >= term) {
          accessNode := Some(leader.value.node);
          leaderState := Some((leader.value.id, term));
          replicas := MoveReplicaToFirst(replicas, leader.value);
        }
      case EpochNotMatch(newEpoch, newReplicas, executable) =>
        if accurateEpoch { return Some(Failed); }
        if newEpoch <= epoch { return Some(Panicked); }
        if !executable { return Some(Failed); }
        epoch := newEpoch;
        nextIndex := 1;
        replicas := MoveNodeToFirst(newReplicas, if accessNode.Some? then accessNode.value else 0);
      case OtherError => return Some(Failed);
    }

    /** One round of the loop; `None` means to go on, and then the measure of the loop is less. */
    method Attempt(reply: Reply, connects: nat -> bool, accurateEpoch: bool)
      returns (node: Option<nat>, r: Option<Outcome>)
      modifies this
      ensures epoch >= old(epoch) && Term() >= old(Term())
      ensures epoch == old(epoch) || epoch == EpochOf(reply)
      ensures Term() == old(Term()) || (reply.NotLeader? && Term() == reply.term + 1)
      ensures node.None? ==> r == Some(NotAccessible) || (r == Some(Panicked) && old(replicas) == [] && old(nextIndex) == 0)
      ensures node.Some? ==> (r == Some(Succeeded) <==> reply.Success?)
      ensures r == Some(Panicked) && node.Some? ==> reply.EpochNotMatch? && !accurateEpoch && reply.epoch <= old(epoch)
      ensures old(accessNode).Some? && connects(old(accessNode).value) ==> node == old(accessNode)
      ensures node.Some? && reply.NotLeader? && reply.leader.Some? && old(Term()) <= reply.term ==>
                r.None? && accessNode == Some(reply.leader.value.node)
      ensures r.None? && nextIndex == 0 && replicas == [] ==> old(nextIndex) == 0 && old(replicas) == []
      ensures r.None? ==>
                || epoch > old(epoch)
                || (epoch == old(epoch) && Term() > old(Term()))
                || (epoch == old(epoch) && Term() == old(Term()) && Slots() < old(Slots()))
                || (epoch == old(epoch) && Term() == old(Term()) && Slots() == old(Slots()) && Cached() < old(Cached()))
      ensures old(accessNode).None? && Reachable(connects) && old(replicas) != [] ==>
                (node.Some? <==> old(nextIndex) <= |old(replicas)|)
      ensures old(accessNode).None? && Reachable(connects) && old(replicas) == [] && old(nextIndex) == 0 ==>
                node.None? && r == Some(Panicked)
      ensures old(accessNode).None? && Reachable(connects) && node.Some? ==>
                old(replicas) != [] && node.value == old(replicas)[old(nextIndex) % |old(replicas)|].node
      ensures old(accessNode).None? && Reachable(connects) && node.Some? && reply.Unreachable? ==>
                && replicas == old(replicas) && r.None? && accessNode.None? && nextIndex == old(nextIndex) + 1
    {
      var panics;
      node, panics := RecommendClient(connects);
      if node.None? { return None, Some(if panics then Panicked else NotAccessible); }
      if reply.Success? { return node, Some(Succeeded); }
      r := ApplyStatus(reply, accurateEpoch);
    }

    /** Nothing has been learned since the round with number `index` began. */
    ghost predicate Fresh(all: seq<Replica>, index: nat)
      reads this
    {
      accessNode.None? && replicas == all && nextIndex == index
    }

    lemma FreshStart(all: seq<Replica>)
      requires replicas == all && nextIndex == 0
      ensures accessNode.None? ==> Fresh(all, 0)
    {
    }

    /** A round in which every node can be connected, of a client that has learned nothing yet. */
    method FreshAttempt(reply: Reply, connects: nat -> bool, accurateEpoch: bool, ghost all: seq<Replica>, ghost index: nat)
      returns (node: Option<nat>, r: Option<Outcome>)
      modifies this
      ensures epoch >= old(epoch) && Term() >= old(Term())
      ensures epoch == old(epoch) || epoch == EpochOf(reply)
      ensures Term() == old(Term()) || (reply.NotLeader? && Term() == reply.term + 1)
      ensures node.None? ==> r == Some(NotAccessible) || (r == Some(Panicked) && old(replicas) == [] && old(nextIndex) == 0)
      ensures node.Some? ==> (r == Some(Succeeded) <==> reply.Success?)
      ensures r == Some(Panicked) && node.Some? ==> reply.EpochNotMatch? && !accurateEpoch
      ensures old(accessNode).Some? && connects(old(accessNode).value) ==> node == old(accessNode)
      ensures node.Some? && reply.NotLeader? && reply.leader.Some? && old(Term()) <= reply.term ==>
                r.None? && accessNode == Some(reply.leader.value.node)
      ensures r.None? && nextIndex == 0 && replicas == [] ==> old(nextIndex) == 0 && old(replicas) == []
      ensures r.None? ==> Less(epoch, Term(), Slots(), Cached(), old(epoch), old(Term()), old(Slots()), old(Cached()))
      ensures old(Fresh(all, index)) && Reachable(connects) ==>
                if all == [] then index == 0 ==> node.None? && r == Some(Panicked)
                else && (node.Some? <==> index <= |all|)
                     && (node.Some? ==> node.value == Turn(all, index))
                     && (node.None? ==> r == Some(NotAccessible))
      ensures old(Fresh(all, index)) && Reachable(connects) && node.Some? ==> all != []
      ensures old(Fresh(all, index)) && Reachable(connects) && node.Some? && reply.Unreachable? ==>
                r.None? && Fresh(all, index + 1)
    {
      node, r := Attempt(reply, connects, accurateEpoch);
    }

    /** What the loop knows after the tries so far. */
    ghost predicate Going(replies: nat -> Reply, connects: nat -> nat -> bool, expired: nat -> bool,
                          cached: Option<nat>, all: seq<Replica>, term0: nat, tried: seq<nat>)
      reads this
    {
      var n := |tried|;
      && InLine(replies, connects, expired, cached, all, tried)
      && Led(replies, connects, term0, tried) && Learned(replies, term0, n, Term())
      && (n > 0 && Hint(replies, term0, n - 1) ==> accessNode == Some(HintedBy(replies(n - 1))))
      && (nextIndex == 0 && replicas == [] ==> all == [])
      && (cached.None? && QuietFor(replies, connects, expired, n) ==> Fresh(all, n) && n <= |all| + 1)
    }

    /** One round, and what it adds to the tries; `None` means to go on. */
    method Round(replies: nat -> Reply, connects: nat -> nat -> bool, expired: nat -> bool, accurateEpoch: bool, index: nat,
                 ghost cached: Option<nat>, ghost all: seq<Replica>, ghost term0: nat, ghost tried: seq<nat>)
      returns (r: Option<Outcome>, ghost tried': seq<nat>)
      requires index == |tried| && Going(replies, connects, expired, cached, all, term0, tried)
      modifies this
      ensures epoch >= old(epoch) && Term() >= old(Term())
      ensures epoch == old(epoch) || epoch == EpochOf(replies(index))
      ensures Term() == old(Term()) || (replies(index).NotLeader? && Term() == replies(index).term + 1)
      ensures r.Some? ==> Told(replies, connects, expired, cached, all, r.value, tried') && Led(replies, connects, term0, tried')
      ensures r == Some(Panicked) ==> all == [] || (!accurateEpoch && replies(index).EpochNotMatch?)
      ensures r.None? ==> |tried'| == index + 1 && Going(replies, connects, expired, cached, all, term0, tried')
      ensures r.None? ==> Less(epoch, Term(), Slots(), Cached(), old(epoch), old(Term()), old(Slots()), old(Cached()))
    {
      hide QuietFor, Reachable, Fresh, Told, InLine, Turn, Led, Learned, Hint;
      HintIsNew(replies, term0, index, Term());
      QuietStep(replies, connects, expired, index);
      ghost var before := Term();
      var node, decided := FreshAttempt(replies(index), connects(index), accurateEpoch, all, index);
      tried' := tried;
      r := decided;
      if node.None? {
        ToldNobody(replies, connects, expired, cached, all, decided.value, tried);
        return;
      }
      LedStep(replies, connects, term0, tried, node.value);
      tried' := tried + [node.value];
      if decided.Some? || expired(index) {
        r := if decided.Some? then decided else Some(DeadlineExceeded);
        ToldLast(replies, connects, expired, cached, all, r.value, tried, node.value);
        return;
      }
      InLineStep(replies, connects, expired, cached, all, tried, node.value);
      LearnedStep(replies, term0, index, before, Term());
    }

    /** Sends a request until a reply decides it. The loop ends against any replies of servers
        whose epochs and terms are bounded. While every node can be reached but none answers, it
        tries the replicas in turn; the first answer decides, and without any it gives up after
        the first replica was tried twice. A leader with a new term is tried next. It panics only
        if it started without any replica or was sent a group that is not newer. */
    method Retry(replies: nat -> Reply, connects: nat -> nat -> bool, expired: nat -> bool,
                 accurateEpoch: bool, ghost maxEpoch: nat, ghost maxTerm: nat)
      returns (r: Outcome, ghost tried: seq<nat>)
      requires Bounded(replies, maxEpoch, maxTerm) && epoch <= maxEpoch && Term() <= maxTerm + 1
      modifies this
      ensures epoch >= old(epoch) && Term() >= old(Term())
      ensures Told(replies, connects, expired, old(accessNode), old(replicas), r, tried)
      ensures Led(replies, connects, old(Term()), tried)
      ensures r == Panicked ==> old(replicas) == [] || (!accurateEpoch && exists n: nat :: replies(n).EpochNotMatch?)
    {
      hide Bounded, Told, InLine, Led, Learned, Hint, QuietFor, Fresh;
      tried, nextIndex := [], 0;
      var index := 0;
      ghost var cached, all := accessNode, replicas;
      InLineStart(replies, connects, expired, cached, all);
      LedStart(replies, connects, Term());
      FreshStart(all);
      assert Going(replies, connects, expired, cached, all, old(Term()), tried);
      while true
        invariant index == |tried| && Going(replies, connects, expired, cached, all, old(Term()), tried)
        invariant old(epoch) <= epoch <= maxEpoch && old(Term()) <= Term() <= maxTerm + 1
        decreases maxEpoch - epoch, maxTerm + 1 - Term(), Slots(), Cached()
      {
        ReplyBounds(replies, maxEpoch, maxTerm, index);
        var done;
        done, tried := Round(replies, connects, expired, accurateEpoch, index, cached, all, old(Term()), tried);
        if done.Some? {
          return done.value, tried;
        }
        index := index + 1;
      }
    }

    method Invoke(replies: nat -> Reply, connects: nat -> nat -> bool, expired: nat -> bool, router: Option<GroupState>,
                  accurateEpoch: bool, ghost maxEpoch: nat, ghost maxTerm: nat)
      returns (r: Outcome, ghost tried: seq<nat>)
      requires Bounded(replies, maxEpoch, maxTerm) && epoch <= maxEpoch && Term() <= maxTerm + 1
      requires router.Some? ==> router.value.epoch <= maxEpoch
      requires router.Some? && router.value.leader.Some? ==> router.value.leader.value.1 <= maxTerm
      modifies this
      ensures old(epoch) > 0 ==> epoch >= old(epoch) && Term() >= old(Term())
      ensures old(epoch) == 0 && router.None? ==> r == NotAccessible && tried == []
      ensures old(epoch) > 0 ==> Told(replies, connects, expired, old(accessNode), old(replicas), r, tried)
      ensures old(epoch) > 0 ==> Led(replies, connects, old(Term()), tried)
      ensures r == Succeeded <==> |tried| > 0 && replies(|tried| - 1).Success?
    {
      if epoch == 0 {
        if router.None? { return NotAccessible, []; }
        ApplyGroupState(router.value);
      }
      r, tried := Retry(replies, connects, expired, accurateEpoch, maxEpoch, maxTerm);
    }
  }

  /** Reply `n` names a leader, with a term that is newer than all before; `term0` counts from one. */
  ghost predicate Hint(replies: nat -> Reply, term0: nat, n: nat) {
    && replies(n).NotLeader? && replies(n).leader.Some? && term0 <= replies(n).term
    && forall m: nat :: m < n && replies(m).NotLeader? ==> replies(m).term < replies(n).term
  }

  function HintedBy(reply: Reply): nat {
    if reply.NotLeader? && reply.leader.Some? then reply.leader.value.node else 0
  }

  /** A leader with a new term is tried next, if it can be connected. */
  ghost predicate Led(replies: nat -> Reply, connects: nat -> nat -> bool, term0: nat, tried: seq<nat>) {
    forall n: nat :: n + 1 < |tried| && Hint(replies, term0, n) && connects(n + 1)(HintedBy(replies(n))) ==>
      tried[n + 1] == HintedBy(replies(n))
  }

  /** The accepted term is the first one, or one that was told. */
  ghost predicate Learned(replies: nat -> Reply, term0: nat, n: nat, term: nat) {
    term == term0 || exists m: nat :: m < n && replies(m).NotLeader? && term == replies(m).term + 1
  }

  lemma LedStart(replies: nat -> Reply, connects: nat -> nat -> bool, term0: nat)
    ensures Led(replies, connects, term0, []) && Learned(replies, term0, 0, term0)
  {
  }

  lemma HintIsNew(replies: nat -> Reply, term0: nat, n: nat, term: nat)
    requires Learned(replies, term0, n, term)
    ensures Hint(replies, term0, n) ==> replies(n).NotLeader? && replies(n).leader.Some? && term <= replies(n).term
  {
  }

  lemma LedStep(replies: nat -> Reply, connects: nat -> nat -> bool, term0: nat, tried: seq<nat>, node: nat)
    requires Led(replies, connects, term0, tried)
    requires |tried| > 0 && Hint(replies, term0, |tried| - 1) && connects(|tried|)(HintedBy(replies(|tried| - 1))) ==>
               node == HintedBy(replies(|tried| - 1))
    ensures Led(replies, connects, term0, tried + [node])
  {
  }

  lemma LearnedStep(replies: nat -> Reply, term0: nat, n: nat, term: nat, term': nat)
    requires Learned(replies, term0, n, term)
    requires term' == term || (replies(n).NotLeader? && term' == replies(n).term + 1)
    ensures Learned(replies, term0, n + 1, term')
  {
  }

  /** Every node can be connected. */
  ghost predicate Reachable(connects: nat -> bool) {
    forall n :: connects(n)
  }

  /** The measure of the loop: a later epoch, then a later term, then fewer slots, then no node. */
  ghost predicate Less(epoch: nat, term: nat, slots: nat, cached: nat, epoch0: nat, term0: nat, slots0: nat, cached0: nat) {
    || epoch > epoch0
    || (epoch == epoch0 && term > term0)
    || (epoch == epoch0 && term == term0 && slots < slots0)
    || (epoch == epoch0 && term == term0 && slots == slots0 && cached < cached0)
  }

  function EpochOf(reply: Reply): nat { if reply.EpochNotMatch? then reply.epoch else 0 }

  /** Every node can be connected; the first `n` requests are not answered, and no deadline
      passes meanwhile. */
  ghost predicate QuietFor(replies: nat -> Reply, connects: nat -> nat -> bool, expired: nat -> bool, n: nat) {
    && (forall j: nat :: j < n ==> replies(j) == Unreachable && !expired(j))
    && (forall j: nat, node: nat :: connects(j)(node))
  }

  lemma QuietStep(replies: nat -> Reply, connects: nat -> nat -> bool, expired: nat -> bool, n: nat)
    ensures QuietFor(replies, connects, expired, n + 1) <==>
            QuietFor(replies, connects, expired, n) && replies(n) == Unreachable && !expired(n)
    ensures QuietFor(replies, connects, expired, n) ==> Reachable(connects(n))
  {
  }

  /** What the outcome tells: the first success decides; as long as nobody answers, the replicas
      are tried in turn; without any answer the loop gives up after the first one was tried twice. */
  ghost predicate Told(replies: nat -> Reply, connects: nat -> nat -> bool, expired: nat -> bool,
                       cached: Option<nat>, all: seq<Replica>, r: Outcome, tried: seq<nat>)
  {
    && (r == Succeeded <==> |tried| > 0 && replies(|tried| - 1).Success?)
    && (forall n: nat :: n < |tried| - 1 ==> !replies(n).Success?)
    && (cached.None? && |tried| > 0 && QuietFor(replies, connects, expired, |tried| - 1) ==> all != [] && InTurn(tried, all))
    && (cached.None? && QuietFor(replies, connects, expired, |tried|) ==>
          if all == [] then r == Panicked && tried == []
          else r == NotAccessible && tried == Nodes(all) + [all[0].node])
  }

  /** No success so far, and in turn as long as nobody answered. */
  ghost predicate InLine(replies: nat -> Reply, connects: nat -> nat -> bool, expired: nat -> bool,
                         cached: Option<nat>, all: seq<Replica>, tried: seq<nat>)
  {
    && (forall n: nat :: n < |tried| ==> !replies(n).Success?)
    && (cached.None? && |tried| > 0 && QuietFor(replies, connects, expired, |tried| - 1) ==> all != [] && InTurn(tried, all))
  }

  lemma InLineStart(replies: nat -> Reply, connects: nat -> nat -> bool, expired: nat -> bool,
                    cached: Option<nat>, all: seq<Replica>)
    ensures InLine(replies, connects, expired, cached, all, [])
  {
  }

  /** The node of the next round comes next in turn. */
  lemma InLineStep(replies: nat -> Reply, connects: nat -> nat -> bool, expired: nat -> bool,
                   cached: Option<nat>, all: seq<Replica>, tried: seq<nat>, node: nat)
    requires InLine(replies, connects, expired, cached, all, tried) && !replies(|tried|).Success?
    requires cached.None? && QuietFor(replies, connects, expired, |tried|) ==>
               all != [] && node == Turn(all, |tried|)
    ensures InLine(replies, connects, expired, cached, all, tried + [node])
  {
    NextInTurn(replies, connects, expired, cached, all, tried, node);
  }

  lemma NextInTurn(replies: nat -> Reply, connects: nat -> nat -> bool, expired: nat -> bool,
                   cached: Option<nat>, all: seq<Replica>, tried: seq<nat>, node: nat)
    requires InLine(replies, connects, expired, cached, all, tried)
    requires cached.None? && QuietFor(replies, connects, expired, |tried|) ==>
               all != [] && node == Turn(all, |tried|)
    ensures cached.None? && QuietFor(replies, connects, expired, |tried|) ==> all != [] && InTurn(tried + [node], all)
  {
  }

  lemma ToldNobody(replies: nat -> Reply, connects: nat -> nat -> bool, expired: nat -> bool,
                   cached: Option<nat>, all: seq<Replica>, r: Outcome, tried: seq<nat>)
    requires r != Succeeded && InLine(replies, connects, expired, cached, all, tried)
    requires cached.None? && QuietFor(replies, connects, expired, |tried|) ==>
               if all == [] then tried == [] ==> r == Panicked
               else r == NotAccessible && |tried| == |all| + 1
    ensures Told(replies, connects, expired, cached, all, r, tried)
  {
    if cached.None? && QuietFor(replies, connects, expired, |tried|) && all != [] {
      AllInTurn(tried, all);
    }
  }

  lemma ToldLast(replies: nat -> Reply, connects: nat -> nat -> bool, expired: nat -> bool,
                 cached: Option<nat>, all: seq<Replica>, r: Outcome, tried: seq<nat>, node: nat)
    requires InLine(replies, connects, expired, cached, all, tried)
    requires r == Succeeded <==> replies(|tried|).Success?
    requires cached.None? && QuietFor(replies, connects, expired, |tried|) ==>
               all != [] && node == Turn(all, |tried|)
    requires cached.None? ==> !QuietFor(replies, connects, expired, |tried| + 1)
    ensures Told(replies, connects, expired, cached, all, r, tried + [node])
  {
    NextInTurn(replies, connects, expired, cached, all, tried, node);
  }

  lemma ReplyBounds(replies: nat -> Reply, maxEpoch: nat, maxTerm: nat, n: nat)
    requires Bounded(replies, maxEpoch, maxTerm)
    ensures replies(n).EpochNotMatch? ==> replies(n).epoch <= maxEpoch
    ensures replies(n).NotLeader? ==> replies(n).term <= maxTerm
  {
  }

  /** Whose turn it is. */
  function Turn(all: seq<Replica>, index: nat): nat
    requires all != []
  {
    all[index % |all|].node
  }

  ghost predicate InTurn(tried: seq<nat>, replicas: seq<Replica>)
    requires replicas != []
  {
    forall i :: 0 <= i < |tried| ==> tried[i] == Turn(replicas, i)
  }

  lemma ModBelow(i: nat, n: nat)
    requires n > 0
    ensures (i < n ==> i % n == i) && (i == n ==> i % n == 0)
  {
  }

  lemma AllInTurn(tried: seq<nat>, replicas: seq<Replica>)
    requires replicas != [] && InTurn(tried, replicas) && |tried| == |replicas| + 1
    ensures tried == Nodes(replicas) + [replicas[0].node]
  {
    forall i | 0 <= i < |tried| ensures tried[i] == (Nodes(replicas) + [replicas[0].node])[i] {
      ModBelow(i, |replicas|);
    }
  }

  method FindReplica(replicas: seq<Replica>, id: nat) returns (r: Option<nat>)
    ensures r.Some? ==> r.value < |replicas| && replicas[r.value].id == id
    ensures r.None? ==> forall i :: 0 <= i < |replicas| ==> replicas[i].id != id
  {
    for i := 0 to |replicas|
      invariant forall j :: 0 <= j < i ==> replicas[j].id != id
    {
      if replicas[i].id == id { return Some(i); }
    }
    return None;
  }
}
