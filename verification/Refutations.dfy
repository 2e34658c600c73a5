/** Runs of the code as written that break what its documentation promises, each next to the
    run condition under which the promise is proved. */
module Refutations {
  import opened Types
  import opened Roles
  import opened LogSpec
  import opened KeyValue
  import opened Harpoon
  import opened Cluster
  import opened Leases
  import Journal
  import opened Replicas
  import opened Replication
  import opened Reign
  import opened SmallLogs
  import Stability

  /** What a run keeps to: the age of counted votes, who may lead, and whether gaps are ruled
      out, acks are supported and commits are clean. */
  datatype Limits = Limits(age: Time, leader: Option<NodeId>, gapFree: bool, supported: bool, clean: bool)

  /** Everything but a single leader, with votes no older than `age`. */
  function Careful(age: Time): Limits {
    Limits(age, None, true, true, true)
  }

  ghost predicate LedBy(s: Sys, c: Limits) {
    c.leader.Some? ==> OnlyLeader(s, c.leader.value)
  }

  ghost predicate Within(s: Sys, a: Action, c: Limits)
    requires Enabled(s, a)
  {
    && FreshQuorum(s, a, c.age)
    && (c.gapFree ==> NoGap(s, a))
    && (c.supported ==> AckSupported(s, a))
    && (c.clean ==> CleanCommit(s, a))
  }

  ghost predicate AllWithin(tr: seq<Sys>, acts: seq<Action>, c: Limits)
    requires IsRun(tr, acts)
  {
    && (forall k :: 0 <= k < |acts| ==> Within(tr[k], acts[k], c))
    && (forall k :: 0 <= k <= |acts| ==> LedBy(tr[k], c))
  }

  /** The run `tr` from `z` keeps within `c` and ends in `s`. */
  ghost predicate Path(tr: seq<Sys>, acts: seq<Action>, z: Sys, s: Sys, c: Limits) {
    IsRun(tr, acts) && tr[0] == z && tr[|acts|] == s && AllWithin(tr, acts, c)
  }

  ghost predicate Reaches(z: Sys, s: Sys, c: Limits) {
    LedBy(s, c) && exists tr, acts :: Path(tr, acts, z, s, c)
  }

  lemma ReachesStart(z: Sys, c: Limits)
    requires Start(z)
    ensures Reaches(z, z, c)
  {
    assert forall i :: 0 <= i < |z.nodes| ==> FreshNode(z.nodes[i], i, |z.nodes|);
    assert IsRun([z], []) && AllWithin([z], [], c);
    assert Path([z], [], z, z, c);
  }

  lemma ReachesNext(z: Sys, s: Sys, a: Action, c: Limits)
    requires Reaches(z, s, c) && Enabled(s, a) && Within(s, a, c) && LedBy(Next(s, a), c)
    ensures Reaches(z, Next(s, a), c)
  {
    var tr, acts :| Path(tr, acts, z, s, c);
    var s' := Next(s, a);
    RunSnoc(tr, acts, a, s');
    WithinSnoc(tr, acts, a, s', c);
    assert (tr + [s'])[|acts + [a]|] == s' && (tr + [s'])[0] == z;
    assert Path(tr + [s'], acts + [a], z, s', c);
  }

  lemma RunSnoc(tr: seq<Sys>, acts: seq<Action>, a: Action, s': Sys)
    requires IsRun(tr, acts) && Enabled(tr[|acts|], a) && s' == Next(tr[|acts|], a)
    ensures IsRun(tr + [s'], acts + [a])
  {
    var tr', acts' := tr + [s'], acts + [a];
    forall k | 0 <= k < |acts'|
      ensures Enabled(tr'[k], acts'[k]) && tr'[k + 1] == Next(tr'[k], acts'[k])
    {
      if k < |acts| {
        assert tr'[k] == tr[k] && tr'[k + 1] == tr[k + 1] && acts'[k] == acts[k];
      } else {
        assert tr'[k] == tr[k] && tr'[k + 1] == s' && acts'[k] == a;
      }
    }
  }

  lemma WithinSnoc(tr: seq<Sys>, acts: seq<Action>, a: Action, s': Sys, c: Limits)
    requires IsRun(tr, acts) && IsRun(tr + [s'], acts + [a]) && AllWithin(tr, acts, c)
    requires Enabled(tr[|acts|], a) && Within(tr[|acts|], a, c) && LedBy(s', c)
    ensures AllWithin(tr + [s'], acts + [a], c)
  {
    var tr', acts' := tr + [s'], acts + [a];
    forall k | 0 <= k < |acts'|
      ensures Within(tr'[k], acts'[k], c)
    {
      assert tr'[k] == tr[k] && acts'[k] == if k < |acts| then acts[k] else a;
    }
    forall k | 0 <= k <= |acts'|
      ensures LedBy(tr'[k], c)
    {
      assert tr'[k] == if k <= |acts| then tr[k] else s';
    }
  }

  // ----- single steps --------------------------------------------------------------------------

  /** Cron makes an idle node a candidate, whose ballot is on its way to everybody. */
  lemma Stands(z: Sys, s: Sys, i: NodeId, c: Limits) returns (s': Sys)
    requires Reaches(z, s, c) && Enabled(s, CronAt(i))
    requires !s.nodes[i].role.ValidLeader(s.now) && !s.nodes[i].role.ValidCandidate(s.now)
    ensures Reaches(z, s', c) && s'.now == s.now && s.net <= s'.net && s'.gave == s.gave
    ensures s'.nodes == s.nodes[i := Stood(s.nodes[i], s.now)]
    ensures forall p: Packet :: (p.src == i && p.dst < |s.nodes| && p.sent == s.now &&
                                 p.msg == Ballot(s.nodes[i], s.nodes[i].highestTerm + 1)) ==> p in s'.net
  {
    var a := CronAt(i);
    s' := Next(s, a);
    var b := Ballot(s.nodes[i], s.nodes[i].highestTerm + 1);
    assert Broadcast(b) in EffectOf(s, a).sends;
    assert s'.nodes[i] == Stood(s.nodes[i], s.now);
    ReachesNext(z, s, a, c);
  }

  /** Delivers a ballot that is granted; the vote is on its way back. */
  lemma Grants(z: Sys, s: Sys, p: Packet, n: Node, c: Limits) returns (s': Sys)
    requires Reaches(z, s, c) && Enabled(s, Deliver(p)) && p.msg.VoteReq? && p.src < |s.nodes|
    requires Granted(s.nodes[p.dst], s.now, p.src, p.src, p.src, p.msg) == Some(n)
    ensures Reaches(z, s', c) && s'.now == s.now && s.net <= s'.net
    ensures s'.nodes == s.nodes[p.dst := n]
    ensures Packet(p.dst, p.src, s.now, VoteRes(true, p.msg.term)) in s'.net
  {
    s' := Next(s, Deliver(p));
    assert ToPeer(p.src, VoteRes(true, p.msg.term)) in EffectOf(s, Deliver(p)).sends;
    assert s'.nodes[p.dst] == n;
    ReachesNext(z, s, Deliver(p), c);
  }

  /** The vote is not counted yet, and its receiver counts it. */
  ghost predicate Countable(s: Sys, p: Packet) {
    && Enabled(s, Deliver(p)) && p.msg.VoteRes? && p.msg.success
    && var r := s.nodes[p.dst].role;
    && (r.ValidCandidate(s.now) || (r.Leader? && r.ValidLeader(s.now)))
    && r.term == p.msg.term && p.src !in r.have
  }

  lemma CountEffect(s: Sys, p: Packet)
    requires Countable(s, p)
    ensures EffectOf(s, Deliver(p)) == Quiet(WithRepPeer(s.nodes[p.dst], p.src, p.src, p.src).(
      role := RoleAfterVote(s.nodes[p.dst].role, s.now, p.src)))
  {
  }

  /** Delivers a vote that is counted. */
  lemma Counts(z: Sys, s: Sys, p: Packet, c: Limits) returns (s': Sys)
    requires Reaches(z, s, c) && Countable(s, p)
    requires forall k :: k in Quorum(s, Deliver(p)) && k != p.dst ==> VotedWithin(s, k, p.dst, c.age)
    requires RoleAfterVote(s.nodes[p.dst].role, s.now, p.src).Leader? ==> c.leader.None? || c.leader == Some(p.dst)
    ensures Reaches(z, s', c) && s'.now == s.now && s'.net == s.net && |s'.nodes| == |s.nodes|
    ensures forall k :: 0 <= k < |s.nodes| && k != p.dst ==> s'.nodes[k] == s.nodes[k]
    ensures s'.nodes[p.dst] == WithRepPeer(s.nodes[p.dst], p.src, p.src, p.src).(
      role := RoleAfterVote(s.nodes[p.dst].role, s.now, p.src))
  {
    s' := Next(s, Deliver(p));
    CountEffect(s, p);
    ReachesNext(z, s, Deliver(p), c);
  }

  lemma Waits(z: Sys, s: Sys, d: Time, c: Limits) returns (s': Sys)
    requires Reaches(z, s, c)
    ensures Reaches(z, s', c) && s' == s.(now := s.now + d)
  {
    s' := Next(s, Tick(d));
    ReachesNext(z, s, Tick(d), c);
  }

  /** Any other step of a node that does not end with it leading anew. */
  lemma Acts(z: Sys, s: Sys, a: Action, e: Effect, c: Limits) returns (s': Sys)
    requires Reaches(z, s, c) && Enabled(s, a) && !a.Tick? && e == EffectOf(s, a) && !Fires(s, a) && Within(s, a, c)
    ensures Reaches(z, s', c) && s'.now == s.now && s.net <= s'.net
    ensures s'.nodes == s.nodes[Actor(a) := e.node] && s'.gave == s.gave + Given(Actor(a), e.replies)
    ensures forall x :: x in e.sends && x.ToPeer? && x.dst < |s.nodes| ==> Packet(Actor(a), x.dst, s.now, x.msg) in s'.net
  {
    s' := Next(s, a);
    ReachesNext(z, s, a, c);
  }

  lemma ClientWithin(s: Sys, a: Action, e: Effect, c: Limits)
    requires Enabled(s, a) && a.Client? && e == EffectOf(s, a) && e.node.role == s.nodes[a.i].role
    ensures !Fires(s, a) && Within(s, a, c)
  {
  }

  // ----- electing a leader of term 1 -----------------------------------------------------------

  const VOTE: Msg := VoteRes(true, 1)

  /** A node of a cluster of three that can act. */
  predicate Live(n: Node, i: NodeId) {
    n.id == i && n.peers == 3 && !n.halted
  }

  /** `i` stands in term 1 and gets its own vote and that of `j`; both are on their way. */
  lemma Polls(z: Sys, s: Sys, i: NodeId, j: NodeId, c: Limits) returns (s': Sys)
    requires Reaches(z, s, c) && |s.nodes| == 3 && i < 3 && j < 3 && i != j
    requires Live(s.nodes[i], i) && Live(s.nodes[j], j)
    requires s.nodes[i].role == Init && s.nodes[i].highestTerm == 0
    requires !s.nodes[j].role.Following(i) && ShouldGrantVote(s.nodes[j], s.now, Ballot(s.nodes[i], 1))
    ensures Reaches(z, s', c) && |s'.nodes| == 3 && s'.now == s.now && s.net <= s'.net
    ensures forall k :: 0 <= k < 3 && k != i && k != j ==> s'.nodes[k] == s.nodes[k]
    ensures s'.nodes[i] == s.nodes[i].(highestTerm := 1, role := Candidate(1, [], 2, s.now + LEADER_DURATION))
    ensures s'.nodes[j] == s.nodes[j].(highestTerm := 1, role := Follower(1, i, i, i, s.now + LEADER_DURATION))
    ensures Packet(i, i, s.now, VOTE) in s'.net && Packet(j, i, s.now, VOTE) in s'.net
  {
    var b := Ballot(s.nodes[i], 1);
    assert Need(3) == 2;
    var s1 := Stands(z, s, i, c);
    var s2 := Grants(z, s1, Packet(i, i, s.now, b), s1.nodes[i], c);
    var n := s.nodes[j].(highestTerm := 1, role := Follower(1, i, i, i, s.now + LEADER_DURATION));
    s' := Grants(z, s2, Packet(i, j, s.now, b), n, c);
  }

  /** A candidate or leader of term 1, with no vote counted, and two votes to come. */
  ghost predicate TwoToCome(s: Sys, i: NodeId, j: NodeId, sent: Time) {
    && |s.nodes| == 3 && i < 3 && j < 3 && i != j && Live(s.nodes[i], i)
    && Packet(i, i, sent, VOTE) in s.net && Packet(j, i, sent, VOTE) in s.net
    && var r := s.nodes[i].role;
    && (r.Candidate? || r.Leader?) && r.term == 1 && r.have == [] && r.need == 2 && s.now < r.until
  }

  /** It counts its own vote. */
  lemma CountsOwn(z: Sys, s: Sys, i: NodeId, j: NodeId, sent: Time, c: Limits) returns (s': Sys)
    requires Reaches(z, s, c) && TwoToCome(s, i, j, sent) && s.now <= sent + c.age
    ensures Reaches(z, s', c) && s'.now == s.now && s'.net == s.net && |s'.nodes| == 3
    ensures forall k :: 0 <= k < 3 && k != i ==> s'.nodes[k] == s.nodes[k]
    ensures s'.nodes[i] == s.nodes[i].(role := s.nodes[i].role.(have := [i]))
  {
    TwoVotes(s.nodes[i].role, s.now, i, j);
    assert s.nodes[i].role.Leader? ==> c.leader.None? || c.leader == Some(i);
    s' := Counts(z, s, Packet(i, i, sent, VOTE), c);
  }

  /** It counts the other, which makes two. */
  lemma CountsOther(z: Sys, s: Sys, r: Role, i: NodeId, j: NodeId, sent: Time, c: Limits) returns (s': Sys)
    requires Reaches(z, s, c) && |s.nodes| == 3 && i < 3 && j < 3 && i != j && Live(s.nodes[i], i)
    requires (r.Candidate? || r.Leader?) && r.term == 1 && r.have == [] && r.need == 2 && s.now < r.until
    requires s.nodes[i].role == r.(have := [i]) && (c.leader.None? || c.leader == Some(i))
    requires Packet(j, i, sent, VOTE) in s.net && s.now <= sent + c.age
    ensures Reaches(z, s', c) && s'.now == s.now && s'.net == s.net && |s'.nodes| == 3
    ensures forall k :: 0 <= k < 3 && k != i ==> s'.nodes[k] == s.nodes[k]
    ensures s'.nodes[i] == WithRepPeer(s.nodes[i], j, j, j).(role :=
      Leader(1, [], 2, if r.Candidate? then r.until else s.now + LEADER_DURATION))
  {
    TwoVotes(r, s.now, i, j);
    assert VotedWithin(s, j, i, c.age);
    s' := Counts(z, s, Packet(j, i, sent, VOTE), c);
  }

  lemma Tallies(z: Sys, s: Sys, i: NodeId, j: NodeId, sent: Time, c: Limits) returns (s': Sys)
    requires Reaches(z, s, c) && TwoToCome(s, i, j, sent) && s.now <= sent + c.age
    requires c.leader.None? || c.leader == Some(i)
    ensures Reaches(z, s', c) && |s'.nodes| == 3 && s'.now == s.now && s'.net == s.net
    ensures forall k :: 0 <= k < 3 && k != i ==> s'.nodes[k] == s.nodes[k]
    ensures s'.nodes[i] == WithRepPeer(s.nodes[i], j, j, j).(role :=
      Leader(1, [], 2, if s.nodes[i].role.Candidate? then s.nodes[i].role.until else s.now + LEADER_DURATION))
  {
    var s1 := CountsOwn(z, s, i, j, sent, c);
    s' := CountsOther(z, s1, s.nodes[i].role, i, j, sent, c);
  }

  lemma TwoVotes(r: Role, now: Time, i: NodeId, j: NodeId)
    requires (r.Candidate? || r.Leader?) && r.have == [] && r.need == 2 && i != j
    ensures SetOf(Counted([], i)) == {i} && SetOf(Counted([i], j)) == {i, j}
    ensures var r1 := RoleAfterVote(r, now, i);
      && (r1.Candidate? || r1.Leader?) && r1 == r.(have := [i])
      && RoleAfterVote(r1, now, j) ==
           Leader(r.term, [], 2, if r.Candidate? then r.until else now + LEADER_DURATION)
  {
    assert Counted([], i) == [i] && Counted([i], j) == [i, j];
  }

  /** `i` becomes leader of term 1 with the votes of `i` and `j`, at once. */
  lemma Elect(z: Sys, s: Sys, i: NodeId, j: NodeId, c: Limits) returns (s': Sys)
    requires Reaches(z, s, c) && |s.nodes| == 3 && i < 3 && j < 3 && i != j
    requires Live(s.nodes[i], i) && Live(s.nodes[j], j) && (c.leader.None? || c.leader == Some(i))
    requires s.nodes[i].role == Init && s.nodes[i].highestTerm == 0
    requires !s.nodes[j].role.Following(i) && ShouldGrantVote(s.nodes[j], s.now, Ballot(s.nodes[i], 1))
    ensures Reaches(z, s', c) && |s'.nodes| == 3 && s'.now == s.now
    ensures forall k :: 0 <= k < 3 && k != i && k != j ==> s'.nodes[k] == s.nodes[k]
    ensures s'.nodes[i] == WithRepPeer(s.nodes[i], j, j, j).(
      highestTerm := 1, role := Leader(1, [], 2, s.now + LEADER_DURATION))
    ensures s'.nodes[j] == s.nodes[j].(highestTerm := 1, role := Follower(1, i, i, i, s.now + LEADER_DURATION))
    ensures Packet(i, i, s.now, VOTE) in s'.net && Packet(j, i, s.now, VOTE) in s'.net
  {
    var s1 := Polls(z, s, i, j, c);
    s' := Tallies(z, s1, i, j, s.now, c);
  }

  // ----- elections -----------------------------------------------------------------------------

  function IdleNode(i: NodeId): Node {
    Node(i, 3, Init, 0, 0, map[], NONE, map[], map[], false)
  }

  const IDLE: Sys := Sys(0, [IdleNode(0), IdleNode(1), IdleNode(2)], {}, [], [])

  /** Election safety fails when a grant is not a first vote (`Elections.FirstVote`), fresh or not:
      two nodes are leaders of term 1 at once.  The voter they share grants term 1 again once
      its first promise has run out. */
  lemma TwoLeadersOfOneTerm() returns (s: Sys)
    ensures Reaches(IDLE, s, Careful(0)) && |s.nodes| == 3
    ensures s.nodes[0].role.Leader? && s.nodes[2].role.Leader?
    ensures s.nodes[0].role.term == s.nodes[2].role.term
  {
    var c := Careful(0);
    ReachesStart(IDLE, c);
    var s1 := Elect(IDLE, IDLE, 0, 1, c);
    var s2 := Waits(IDLE, s1, LEADER_DURATION, c);
    s := Elect(IDLE, s2, 2, 1, c);
  }

  /** The bound of `Leases.LeaseExclusion` is exact: for every `d` below the lease there is a
      run, none of whose counted votes is older than `d`, with two leaders of which one has a
      whole lease to run and the other exactly `d`. */
  lemma ExclusionBoundIsTight(d: Time) returns (s: Sys)
    requires d < LEADER_DURATION
    ensures Reaches(IDLE, s, Careful(d)) && |s.nodes| == 3
    ensures s.nodes[0].role.Leader? && s.nodes[0].role.until == s.now + d
    ensures s.nodes[2].role.Leader? && s.nodes[2].role.until == s.now + LEADER_DURATION
  {
    var c := Careful(d);
    ReachesStart(IDLE, c);
    var s1 := Elect(IDLE, IDLE, 0, 1, c);
    var s2 := Waits(IDLE, s1, d, c);
    var s3 := Tallies(IDLE, s2, 0, 1, 0, c);
    var s4 := Waits(IDLE, s3, LEADER_DURATION - d, c);
    s := Elect(IDLE, s4, 2, 1, c);
  }

  /** What `Stability.StableLeader` starts from does happen, for all delays it allows: two nodes
      of three, once the last message of an election is older than `d`. */
  lemma WatchBegins(d: Time, c: Time) returns (s: Sys)
    requires Stability.RoomEnough(Stability.Watch(0, 1, {0, 1}, d, c, d + 1))
    ensures Reaches(IDLE, s, Careful(0)) && Stability.Begins(s, Stability.Watch(0, 1, {0, 1}, d, c, d + 1))
  {
    ReachesStart(IDLE, Careful(0));
    var s1 := Elect(IDLE, IDLE, 0, 1, Careful(0));
    SentBefore(IDLE, s1, Careful(0));
    s := Waits(IDLE, s1, d + 1, Careful(0));
    AtRest(s, d, c);
  }

  lemma AtRest(s: Sys, d: Time, c: Time)
    requires Stability.RoomEnough(Stability.Watch(0, 1, {0, 1}, d, c, d + 1))
    requires |s.nodes| == 3 && s.now == d + 1 && forall p :: p in s.net ==> p.sent == 0
    requires s.nodes[0].role == Leader(1, [], 2, LEADER_DURATION)
    requires s.nodes[1].role.Following(0) && s.nodes[1].role.until == LEADER_DURATION
    ensures Stability.Begins(s, Stability.Watch(0, 1, {0, 1}, d, c, d + 1))
  {
    assert {0, 1} <= Upto(3);
  }

  lemma SentBefore(z: Sys, s: Sys, c: Limits)
    requires Reaches(z, s, c)
    ensures forall p :: p in s.net ==> p.sent <= s.now
  {
    ReachesLeases(z, s, c);
    assert forall p :: p in s.net ==> PromiseKept(s, p);
  }

  lemma ReachesLeases(z: Sys, s: Sys, c: Limits)
    requires Reaches(z, s, c)
    ensures LeaseInv(s)
  {
    var tr, acts :| Path(tr, acts, z, s, c);
    LeaseInvHolds(tr, acts, |acts|);
  }

  // ----- leader completeness -------------------------------------------------------------------

  /** Three nodes with two writes of term 1: node 0 holds both and has learned the first, node
      1 holds both and has learned none, node 2 holds and has learned the first.  A server that
      is started with such a log has its id generator at 0 (src/server/server.rs:113) and so could
      not take a write; the run below takes none, and nothing else reads the generator. */
  const UNEVEN: Sys := Sys(0, [
    IdleNode(0).(log := NONE.(committed := [Entry(1)], stored := map[1 := Entry(1)], pending := [Acked([], Entry(2))]),
                 maxGenerated := 2),
    IdleNode(1).(log := NONE.(pending := [Acked([], Entry(1)), Acked([], Entry(2))]), maxGenerated := 2),
    IdleNode(2).(log := NONE.(committed := [Entry(1)], stored := map[1 := Entry(1)]), maxGenerated := 1)],
    {}, [], [])

  lemma UnevenLogs()
    ensures LogOf(UNEVEN, 0) == [Entry(1), Entry(2)] && LogOf(UNEVEN, 1) == [Entry(1), Entry(2)]
    ensures LogOf(UNEVEN, 2) == [Entry(1)]
    ensures Lens(UNEVEN) == [2, 2, 1]
  {
  }

  lemma UnevenStarts()
    ensures Start(UNEVEN)
  {
  }

  lemma UnevenInOrder()
    ensures InOrder(UNEVEN, 0)
  {
    UnevenLogs();
    assert Holders([2, 2, 1], 0) == {0, 1, 2};
    assert [Entry(1)][..0] == [] && Filed(map[], [Entry(1)]) == map[1 := Entry(1)];
  }

  lemma UnevenRecords()
    ensures Journal.RecordsAgree(UNEVEN)
  {
    UnevenLogs();
    assert forall i :: 0 <= i < 3 ==> Journal.NodeOk(UNEVEN.nodes[i]);
  }

  lemma UnevenGrants()
    ensures ShouldGrantVote(UNEVEN.nodes[1], 0, Ballot(UNEVEN.nodes[2], 1))
  {
    assert LearnedTerm(UNEVEN.nodes[2]) == 1 && LearnedTerm(UNEVEN.nodes[1]) == 0;
  }

  lemma UnevenStays(s: Sys)
    requires |s.nodes| == 3 && forall k :: 0 <= k < 3 ==> s.nodes[k].log == UNEVEN.nodes[k].log
    ensures |LogOf(s, 2)| == 1 && |Holders(Lens(s), 1)| == 2
  {
    UnevenLogs();
    assert forall k :: 0 <= k < 3 ==> LogOf(s, k) == LogOf(UNEVEN, k);
    assert Lens(s) == [2, 2, 1];
    assert Holders([2, 2, 1], 1) == {0, 1};
  }

  /** A run within the limits of a reign is one, and stays one whatever happens next. */
  lemma ToReign(z: Sys, s: Sys, l: NodeId, a: Action) returns (tr: seq<Sys>, acts: seq<Action>)
    requires Reaches(z, s, Limits(0, Some(l), true, true, true)) && Journal.RecordsAgree(z) && InOrder(z, l) && Enabled(s, a)
    ensures |acts| > 0 && ReignRun(tr, acts, |acts| - 1, l) && tr[|acts| - 1] == s && acts[|acts| - 1] == a
  {
    var c := Limits(0, Some(l), true, true, true);
    var tr0, acts0 :| Path(tr0, acts0, z, s, c);
    RunSnoc(tr0, acts0, a, Next(s, a));
    tr, acts := tr0 + [Next(s, a)], acts0 + [a];
    assert tr[0] == z;
    forall m | 0 <= m < |acts| - 1
      ensures OnlyLeader(tr[m], l) && NoGap(tr[m], acts[m]) && AckSupported(tr[m], acts[m])
    {
      InReign(tr0, acts0, l, m);
      assert tr[m] == tr0[m] && acts[m] == acts0[m];
    }
  }

  lemma InReign(tr: seq<Sys>, acts: seq<Action>, l: NodeId, m: nat)
    requires IsRun(tr, acts) && AllWithin(tr, acts, Limits(0, Some(l), true, true, true)) && m < |acts|
    ensures OnlyLeader(tr[m], l) && NoGap(tr[m], acts[m]) && AckSupported(tr[m], acts[m])
  {
    var c := Limits(0, Some(l), true, true, true);
    assert LedBy(tr[m], c) && Within(tr[m], acts[m], c);
  }

  /** Leader completeness fails without the condition `Reign.LaterTermNotShorter`, all others being
      met: node 2, which has learned in a later term than node 1, gets node 1's vote by condition
      1 and leads without the second write, which a majority holds. */
  lemma MajorityEntryLost() returns (tr: seq<Sys>, acts: seq<Action>, k: nat, x: nat)
    ensures ReignRun(tr, acts, k, 0) && k < |acts|
    ensures acts[k].Deliver? && Fires(tr[k], acts[k]) && FreshQuorum(tr[k], acts[k], LEADER_DURATION - 1)
    ensures |Holders(Lens(tr[k]), x)| > |tr[k].nodes| / 2 && |LogOf(tr[k], acts[k].p.dst)| <= x
  {
    UnevenStarts();
    UnevenInOrder();
    UnevenRecords();
    UnevenGrants();
    var c := Limits(0, Some(0), true, true, true);
    ReachesStart(UNEVEN, c);
    var s1 := Polls(UNEVEN, UNEVEN, 2, 1, c);
    var s2 := CountsOwn(UNEVEN, s1, 2, 1, 0, c);
    var p := Packet(1, 2, 0, VOTE);
    LastVote(s2, p);
    tr, acts := ToReign(UNEVEN, s2, 0, Deliver(p));
    k, x := |acts| - 1, 1;
    UnevenStays(s2);
  }

  lemma LastVote(s: Sys, p: Packet)
    requires |s.nodes| == 3 && Live(s.nodes[2], 2) && p == Packet(1, 2, 0, VOTE) && p in s.net && s.now == 0
    requires s.nodes[2].role == Candidate(1, [2], 2, LEADER_DURATION)
    ensures Enabled(s, Deliver(p)) && Fires(s, Deliver(p)) && FreshQuorum(s, Deliver(p), LEADER_DURATION - 1)
  {
    TwoVotes(Candidate(1, [], 2, LEADER_DURATION), 0, 2, 1);
    CountEffect(s, p);
    assert VotedWithin(s, 1, 2, LEADER_DURATION - 1);
  }

  // ----- a leader that writes ------------------------------------------------------------------

  /** Node 0 leads term 1 and node 1 follows it, at time 0, all logs being empty. */
  lemma Begins(c: Limits) returns (s: Sys)
    requires c.leader.None? || c.leader == Some(0)
    ensures Reaches(IDLE, s, c) && |s.nodes| == 3 && s.now == 0
    ensures LeadsWith(s.nodes[0], NONE, map[], 0, 0, 0) && s.nodes[0].waiting == map[]
    ensures FollowsWith(s.nodes[1], NONE, map[]) && s.nodes[2] == IdleNode(2)
  {
    IdleInOrder();
    ReachesStart(IDLE, c);
    LeaderEntries();
    s := Elect(IDLE, IDLE, 0, 1, c);
  }

  lemma IdleInOrder()
    ensures Start(IDLE) && InOrder(IDLE, 0) && Journal.RecordsAgree(IDLE) && AllSequential(IDLE)
  {
    LeaderEntries();
    assert forall i :: 0 <= i < 3 ==> IDLE.nodes[i] == IdleNode(i);
    assert forall i :: 0 <= i < 3 ==> Journal.NodeOk(IDLE.nodes[i]) && Sequential(IDLE.nodes[i]);
  }

  /** The leader takes write `t`; the Append of the batch `b` to node 1 is on its way. */
  lemma Writes(z: Sys, s: Sys, l: Log<Mutation>, db: Database, t: TXID, at: TXID, sent: TXID,
               l': Log<Mutation>, vs: seq<Version>, db': Database, b: seq<Mutation>, c: Limits) returns (s': Sys)
    requires Reaches(z, s, c) && |s.nodes| == 3
    requires t > 0 && LeadsWith(s.nodes[0], l, db, t - 1, at, sent) && LastTxid(Entries(l)) < t
    requires AckUpTo(Appended(l, 1, t, Put(t)), t, 0) == (l', vs) && Brings(l', vs, db, db')
    requires NextBatch(l', sent) == b && SentUpTo(sent, b) == t
    ensures Reaches(z, s', c) && |s'.nodes| == 3 && s'.now == s.now && s.net <= s'.net
    ensures LeadsWith(s'.nodes[0], l', db', t, at, t) && s'.nodes[1] == s.nodes[1] && s'.nodes[2] == s.nodes[2]
    ensures vs == [] ==> s'.nodes[0].waiting == s.nodes[0].waiting[t := ASKS]
    ensures Packet(0, 1, s.now, Append(at, TermAt(at), b, LastTxid(l'.committed))) in s'.net
  {
    TakesWrite(s.nodes[0], l, db, t, at, sent, l', vs, db', b);
    s' := Asked(z, s, t, Append(at, TermAt(at), b, LastTxid(l'.committed)), c);
  }

  lemma Asked(z: Sys, s: Sys, t: TXID, m: Msg, c: Limits) returns (s': Sys)
    requires Reaches(z, s, c) && |s.nodes| == 3 && !s.nodes[0].halted
    requires var e := HandleCli(s.nodes[0], ASKS, Write(t)); e.node.role == s.nodes[0].role && ToPeer(1, m) in e.sends
    ensures Reaches(z, s', c) && s'.now == s.now && s.net <= s'.net
    ensures s'.nodes == s.nodes[0 := HandleCli(s.nodes[0], ASKS, Write(t)).node]
    ensures Packet(0, 1, s.now, m) in s'.net
  {
    var a := Client(0, ASKS, Write(t));
    ClientWithin(s, a, EffectOf(s, a), c);
    s' := Acts(z, s, a, EffectOf(s, a), c);
  }

  /** The leader hears from node 1. */
  lemma Hears(z: Sys, s: Sys, p: Packet, l: Log<Mutation>, db: Database, max: TXID, at: TXID, sent: TXID,
              l': Log<Mutation>, vs: seq<Version>, db': Database, c: Limits) returns (s': Sys)
    requires Reaches(z, s, c) && |s.nodes| == 3 && LeadsWith(s.nodes[0], l, db, max, at, sent)
    requires p in s.net && p.src == 1 && p.dst == 0 && p.msg.AppendRes? && p.msg.acceptedTerm == TermAt(p.msg.acceptedTxid)
    requires c.supported ==> Supports(l, p.msg.acceptedTxid)
    requires AckUpTo(l, p.msg.acceptedTxid, 1) == (l', vs) && Brings(l', vs, db, db')
    ensures Reaches(z, s', c) && |s'.nodes| == 3 && s'.now == s.now && s.net <= s'.net
    ensures LeadsWith(s'.nodes[0], l', db', max, p.msg.acceptedTxid, if p.msg.accepted then sent else p.msg.acceptedTxid)
    ensures s'.nodes[1] == s.nodes[1] && s'.nodes[2] == s.nodes[2]
    ensures vs != [] && vs[0].txid in s.nodes[0].waiting ==>
      Gave(0, Reply(s.nodes[0].waiting[vs[0].txid], SetRes(true), Some(vs[0].txid))) in s'.gave
  {
    HearsAnswer(s.nodes[0], l, db, max, at, sent, p.msg, l', vs, db');
    var e := EffectOf(s, Deliver(p));
    s' := Acts(z, s, Deliver(p), e, c);
    if vs != [] && vs[0].txid in s.nodes[0].waiting {
      assert s'.gave[|s.gave|] == Gave(0, e.replies[0]);
    }
  }

  /** Node 1 takes an Append. */
  lemma Takes(z: Sys, s: Sys, p: Packet, l: Log<Mutation>, db: Database, l1: Log<Mutation>, l2: Log<Mutation>,
              vs: seq<Version>, db': Database, c: Limits) returns (s': Sys)
    requires Reaches(z, s, c) && |s.nodes| == 3 && FollowsWith(s.nodes[1], l, db)
    requires p in s.net && p.src == 0 && p.dst == 1 && p.msg.Append?
    requires p.msg.fromTxid == LastTxid(Entries(l)) && p.msg.fromTerm == LastTerm(Entries(l))
    requires c.gapFree ==> Continues(p.msg.batch, p.msg.fromTxid)
    requires c.clean ==> p.msg.lastLearned == 0
    requires TakeBatch(l, p.msg.batch) == Took(l1) && CommitUpTo(l1, p.msg.lastLearned) == (l2, vs)
    requires var n1 := s.nodes[1].(log := l2, maxGenerated := LastTxid(Entries(l1)));
      LearnAll(n1, vs) == (n1.(db := db'), [])
    ensures Reaches(z, s', c) && |s'.nodes| == 3 && s'.now == s.now && s.net <= s'.net
    ensures FollowsWith(s'.nodes[1], l2, db') && s'.nodes[0] == s.nodes[0] && s'.nodes[2] == s.nodes[2]
    ensures Packet(1, 0, s.now, AppendRes(true, LastTxid(Entries(l1)), LastTerm(Entries(l1)))) in s'.net
  {
    TakesAppend(s.nodes[1], l, db, p.msg, l1, l2, vs, db');
    s' := Acts(z, s, Deliver(p), EffectOf(s, Deliver(p)), c);
  }

  /** Node 1 refuses an Append that does not link. */
  lemma Declines(z: Sys, s: Sys, p: Packet, l: Log<Mutation>, db: Database, c: Limits) returns (s': Sys)
    requires Reaches(z, s, c) && |s.nodes| == 3 && FollowsWith(s.nodes[1], l, db)
    requires p in s.net && p.src == 0 && p.dst == 1 && p.msg.Append? && p.msg.fromTxid != LastTxid(Entries(l))
    ensures Reaches(z, s', c) && s'.nodes == s.nodes && s'.now == s.now && s.net <= s'.net
    ensures Packet(1, 0, s.now, AppendRes(false, LastTxid(Entries(l)), LastTerm(Entries(l)))) in s'.net
  {
    RefusesAppend(s.nodes[1], l, db, p.msg);
    s' := Acts(z, s, Deliver(p), EffectOf(s, Deliver(p)), c);
  }

  /** The leader has taken write 1. */
  lemma WritesOne(c: Limits) returns (s: Sys)
    requires c.leader.None? || c.leader == Some(0)
    ensures Reaches(IDLE, s, c) && |s.nodes| == 3 && s.now == 0
    ensures LeadsWith(s.nodes[0], ONE, map[], 1, 0, 1) && s.nodes[0].waiting == map[1 := ASKS]
    ensures FollowsWith(s.nodes[1], NONE, map[]) && s.nodes[2] == IdleNode(2)
    ensures Packet(0, 1, 0, Append(0, 0, [Put(1)], 0)) in s.net
  {
    var s1 := Begins(c);
    OwnAcks();
    SentBatches();
    NoEntries();
    s := Writes(IDLE, s1, NONE, map[], 1, 0, 0, ONE, [], map[], [Put(1)], c);
  }

  /** The leader has taken writes 1 and 2, and sent them in two Appends. */
  lemma WritesTwo(c: Limits) returns (s: Sys)
    requires c.leader.None? || c.leader == Some(0)
    ensures Reaches(IDLE, s, c) && |s.nodes| == 3 && s.now == 0
    ensures LeadsWith(s.nodes[0], TWO, map[], 2, 0, 2) && FollowsWith(s.nodes[1], NONE, map[]) && s.nodes[2] == IdleNode(2)
    ensures Packet(0, 1, 0, Append(0, 0, [Put(1)], 0)) in s.net
    ensures Packet(0, 1, 0, Append(0, 0, [Put(2)], 0)) in s.net
  {
    OwnAcks();
    SentBatches();
    LeaderEntries();
    var s1 := WritesOne(c);
    s := Writes(IDLE, s1, ONE, map[], 2, 0, 1, TWO, [], map[], [Put(2)], c);
  }

  // ----- log matching --------------------------------------------------------------------------

  /** Log matching fails without `Reign.NoGap`, the other conditions of a reign being met, when
      an Append is sent before the last one was answered and that one is lost: node 1 links the
      second write to nothing and accepts it as its first. */
  lemma GapAccepted() returns (s: Sys)
    ensures Start(IDLE) && InOrder(IDLE, 0) && Journal.RecordsAgree(IDLE)
    ensures Reaches(IDLE, s, Limits(0, Some(0), false, true, true)) && |s.nodes| == 3
    ensures s.nodes[1].role.Following(0) && s.nodes[0].role.Leader?
    ensures LogOf(s, 0) == [Entry(1), Entry(2)] && LogOf(s, 1) == [Entry(2)]
  {
    IdleInOrder();
    s := GapTaken(Limits(0, Some(0), false, true, true));
    LeaderEntries();
    FollowerEntries();
  }

  lemma GapTaken(c: Limits) returns (s: Sys)
    requires c.leader == Some(0) && !c.gapFree
    ensures Reaches(IDLE, s, c) && |s.nodes| == 3
    ensures LeadsWith(s.nodes[0], TWO, map[], 2, 0, 2) && FollowsWith(s.nodes[1], GAP, map[])
  {
    var s1 := WritesTwo(c);
    s := SecondOnly(IDLE, s1, Packet(0, 1, 0, Append(0, 0, [Put(2)], 0)), c);
  }

  lemma SecondOnly(z: Sys, s: Sys, p: Packet, c: Limits) returns (s': Sys)
    requires Reaches(z, s, c) && |s.nodes| == 3 && FollowsWith(s.nodes[1], NONE, map[]) && !c.gapFree
    requires p in s.net && p.src == 0 && p.dst == 1 && p.msg == Append(0, 0, [Put(2)], 0)
    ensures Reaches(z, s', c) && |s'.nodes| == 3 && FollowsWith(s'.nodes[1], GAP, map[]) && s'.nodes[0] == s.nodes[0]
  {
    TakesGap(s.nodes[1], p.msg);
    s' := Acts(z, s, Deliver(p), EffectOf(s, Deliver(p)), c);
  }

  lemma TakesGap(n: Node, a: Msg)
    requires FollowsWith(n, NONE, map[]) && a == Append(0, 0, [Put(2)], 0)
    ensures var e := HandleAppend(n, 0, 0, a);
      e.node.role == n.role && FollowsWith(e.node, GAP, map[]) && CleanAppend(n, 0, a)
  {
    NoEntries();
    assert Appended(n.log, 1, 2, Put(2)) == GAP;
    assert Entries(GAP) == [Entry(2)];
    assert TakeBatch(GAP, []) == Took(GAP);
    assert a.batch[1..] == [];
    assert TakeBatch(n.log, a.batch) == Took(GAP);
    CommitNone(GAP, 0);
    assert HandleAppend(n, 0, 0, a) == TakeAppend(n, 0, a);
  }

  // ----- commit soundness ----------------------------------------------------------------------

  const REFUSED: Msg := AppendRes(false, 0, 0)

  /** Commit soundness fails under the acking loop as written without `Reign.AckSupported`, the
      other conditions of a reign being met: a node that no longer follows the leader refuses an
      Append, the refusal is counted as an ack, and the leader tells its client that a write
      succeeded which no other node holds. */
  lemma LearnedByRefusal() returns (s: Sys)
    ensures Start(IDLE) && InOrder(IDLE, 0) && Journal.RecordsAgree(IDLE)
    ensures Reaches(IDLE, s, Limits(0, Some(0), true, false, true)) && |s.nodes| == 3
    ensures s.nodes[0].log.committed == [Entry(1)] && LogOf(s, 1) == [] && LogOf(s, 2) == []
    ensures Gave(0, Reply(ASKS, SetRes(true), Some(1))) in s.gave
  {
    var c := Limits(0, Some(0), true, false, true);
    IdleInOrder();
    LeaderEntries();
    RefusalCounts();
    Brought();
    var s1 := GetsRefused(c);
    s := Hears(IDLE, s1, Packet(1, 0, LEADER_DURATION, REFUSED), ONE, map[], 1, 0, 1, LEARNED, [Version(1, 1)], ONEDB, c);
  }

  /** Node 0 takes a write, node 1 stops following it and then refuses the Append. */
  lemma GetsRefused(c: Limits) returns (s: Sys)
    requires c.leader == Some(0)
    ensures Reaches(IDLE, s, c) && |s.nodes| == 3
    ensures LeadsWith(s.nodes[0], ONE, map[], 1, 0, 1) && s.nodes[0].waiting == map[1 := ASKS]
    ensures s.nodes[1].log == NONE && s.nodes[2].log == NONE
    ensures Packet(1, 0, LEADER_DURATION, REFUSED) in s.net
  {
    var s1 := WritesOne(c);
    ReachesLeases(IDLE, s1, c);
    assert RoleOk(s1.nodes[1].role, 1, 3, 0, s1.net);
    var s2 := Waits(IDLE, s1, LEADER_DURATION, c);
    var s3 := Stands(IDLE, s2, 1, c);
    s := Refuses(IDLE, s3, Packet(0, 1, 0, Append(0, 0, [Put(1)], 0)), c);
  }

  lemma Refuses(z: Sys, s: Sys, p: Packet, c: Limits) returns (s': Sys)
    requires Reaches(z, s, c) && |s.nodes| == 3 && Enabled(s, Deliver(p)) && p.msg.Append? && p.src == 0
    requires s.nodes[p.dst].role.Candidate?
    ensures Reaches(z, s', c) && s'.now == s.now && s'.nodes == s.nodes
    ensures Packet(p.dst, 0, s.now, REFUSED) in s'.net
  {
    var e := HandleAppend(s.nodes[p.dst], 0, 0, p.msg);
    assert ToPeer(0, REFUSED) in e.sends;
    s' := Acts(z, s, Deliver(p), e, c);
  }

  // ----- the database --------------------------------------------------------------------------

  /** Node 1 takes write 1, refuses write 2, and says so: the leader learns write 1. */
  lemma SecondRefused(c: Limits) returns (s: Sys)
    requires c.leader == Some(0) && c.gapFree && c.supported && !c.clean
    ensures Reaches(IDLE, s, c) && |s.nodes| == 3 && s.now == 0
    ensures LeadsWith(s.nodes[0], HEARD1, ONEDB, 2, 1, 1) && FollowsWith(s.nodes[1], HAS1, map[])
  {
    LeaderEntries();
    FollowerEntries();
    TakesFirst();
    FirstHeard();
    Brought();
    var s1 := WritesTwo(c);
    var s2 := Takes(IDLE, s1, Packet(0, 1, 0, Append(0, 0, [Put(1)], 0)), NONE, map[], HAS1, HAS1, [], map[], c);
    var s3 := Declines(IDLE, s2, Packet(0, 1, 0, Append(0, 0, [Put(2)], 0)), HAS1, map[], c);
    s := Hears(IDLE, s3, Packet(1, 0, 0, AppendRes(false, 1, 1)), TWO, map[], 2, 0, 2, HEARD1, [Version(1, 1)], ONEDB, c);
  }

  /** Writes 2 and 3 reach node 1 in one batch, with the news that write 1 is learned. */
  lemma ThirdTaken(c: Limits) returns (s: Sys)
    requires c.leader == Some(0) && c.gapFree && c.supported && !c.clean
    ensures Reaches(IDLE, s, c) && |s.nodes| == 3 && s.now == 0
    ensures LeadsWith(s.nodes[0], THREE, ONEDB, 3, 1, 3) && FollowsWith(s.nodes[1], HAS3, ONEDB)
    ensures Packet(1, 0, 0, AppendRes(true, 3, 1)) in s.net
  {
    LeaderEntries();
    FollowerEntries();
    OwnAcks();
    SentBatches();
    TakesTwoMore();
    CommitsFirst();
    var s1 := SecondRefused(c);
    var s2 := Writes(IDLE, s1, HEARD1, ONEDB, 3, 1, 1, THREE, [], ONEDB, [Put(2), Put(3)], c);
    LearnsFirst(s2.nodes[1]);
    s := Takes(IDLE, s2, Packet(0, 1, 0, Append(1, 1, [Put(2), Put(3)], 1)), HAS1, map[], GOT3, HAS3,
               [Version(1, 1)], ONEDB, c);
  }

  lemma LearnsFirst(n: Node)
    requires FollowsWith(n, HAS1, map[])
    ensures var n1 := n.(log := HAS3, maxGenerated := 3); LearnAll(n1, [Version(1, 1)]) == (n1.(db := ONEDB), [])
  {
    Brought();
    LearnBrought(n.(log := HAS3, maxGenerated := 3), [Version(1, 1)], ONEDB);
  }

  /** The leader hears of that twice, which counts for writes 2 and 3. */
  lemma HeardTwice(c: Limits) returns (s: Sys)
    requires c.leader == Some(0) && c.gapFree && c.supported && !c.clean
    ensures Reaches(IDLE, s, c) && |s.nodes| == 3 && s.now == 0
    ensures LeadsWith(s.nodes[0], HEARD3, TWODB, 3, 3, 3) && FollowsWith(s.nodes[1], HAS3, ONEDB)
  {
    SecondHeard();
    ThirdHeard();
    Brought();
    var p := Packet(1, 0, 0, AppendRes(true, 3, 1));
    var s1 := ThirdTaken(c);
    var s2 := Hears(IDLE, s1, p, THREE, ONEDB, 3, 1, 3, HEARD2, [Version(2, 1)], TWODB, c);
    s := Hears(IDLE, s2, p, HEARD2, TWODB, 3, 3, 3, HEARD3, [], TWODB, c);
  }

  /** It takes write 4. */
  lemma WritesFour(c: Limits) returns (s: Sys)
    requires c.leader == Some(0) && c.gapFree && c.supported && !c.clean
    ensures Reaches(IDLE, s, c) && |s.nodes| == 3 && s.now == 0
    ensures LeadsWith(s.nodes[0], FOUR, TWODB, 4, 3, 4) && FollowsWith(s.nodes[1], HAS3, ONEDB)
    ensures Packet(0, 1, 0, Append(3, 1, [Put(4)], 3)) in s.net
  {
    LeaderEntries();
    OwnAckCommits();
    SentBatches();
    Brought();
    var s1 := HeardTwice(c);
    s := Writes(IDLE, s1, HEARD3, TWODB, 4, 3, 3, FOUR, [Version(3, 1)], TWODB, [Put(4)], c);
  }

  /** The database is not the replay of what was learned, under line 143 of acked_log.rs as
      written, without `Replicas.CleanCommit`, all other conditions being met: node 1, which
      holds writes 2 and 3, is told at once that both are learned, stores the third over the
      second, looks for the second and does not find it, and never does it. */
  lemma WriteNeverDone() returns (s: Sys)
    ensures Start(IDLE) && InOrder(IDLE, 0) && Journal.RecordsAgree(IDLE) && AllSequential(IDLE)
    ensures Reaches(IDLE, s, Limits(0, Some(0), true, true, false)) && |s.nodes| == 3
    ensures s.nodes[1].log.committed == s.nodes[0].log.committed == [Entry(1), Entry(2), Entry(3)]
    ensures s.nodes[0].db == Replay(s.nodes[0].log.committed) && s.nodes[1].db != Replay(s.nodes[1].log.committed)
    ensures Key(2) in s.nodes[0].db && Key(2) !in s.nodes[1].db
  {
    IdleInOrder();
    KnownReplays();
    s := FourthTaken(Limits(0, Some(0), true, true, false));
    assert Key(2) in TWODB && Key(2) !in ONEDB;
  }

  /** Write 4 reaches node 1, with the news that 2 and 3 are learned. */
  lemma FourthTaken(c: Limits) returns (s: Sys)
    requires c.leader == Some(0) && c.gapFree && c.supported && !c.clean
    ensures Reaches(IDLE, s, c) && |s.nodes| == 3
    ensures LeadsWith(s.nodes[0], FOUR, TWODB, 4, 3, 4) && FollowsWith(s.nodes[1], HAS4, ONEDB)
  {
    FollowerEntries();
    TakesFourth();
    CommitsTwo();
    var s1 := WritesFour(c);
    LearnsThirdOnly(s1.nodes[1].(log := HAS4, maxGenerated := 4));
    s := Takes(IDLE, s1, Packet(0, 1, 0, Append(3, 1, [Put(4)], 3)), HAS3, ONEDB, GOT4, HAS4,
               [Version(2, 1), Version(3, 1)], ONEDB, c);
  }
}
