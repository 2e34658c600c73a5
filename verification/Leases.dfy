/** What the lease mechanism guarantees over whole runs of the code as written:
    non-preemption, the evidence behind each reign, and bounded lease exclusion. */
module Leases {
  import opened Types
  import opened Roles
  import opened Harpoon
  import opened Cluster

  /** `r1` is the lease `r0`, possibly extended: same role, same leader, same term. */
  predicate Extends(r0: Role, r1: Role) {
    || (r0.Leader? && r1.Leader? && r1.term == r0.term && r1.until >= r0.until)
    || (r0.Follower? && r1.Follower? && r1.term == r0.term && r1.id == r0.id && r1.until >= r0.until)
  }

  /** Deadlines are at most one lease ahead; the votes a node holds are distinct and were
      sent to it for exactly its term. */
  ghost predicate RoleOk(r: Role, i: NodeId, count: nat, now: Time, net: set<Packet>) {
    && (!r.Init? ==> r.until <= now + LEADER_DURATION)
    && (r.Candidate? || r.Leader? ==>
          && r.need == count / 2 + 1
          && NoDup(r.have)
          && forall k :: k in r.have ==> k < count && Voted(net, k, i, r.term))
    && (r.Leader? ==> |Voters(net, count, i, r.term)| > count / 2)
  }

  /** The voter still follows the node it voted for, for a whole lease from the vote. */
  ghost predicate PromiseKept(s: Sys, p: Packet) {
    p.src < |s.nodes| && p.dst < |s.nodes| && p.sent <= s.now &&
    (p.msg.VoteRes? && p.msg.success && p.src != p.dst && s.now < p.sent + LEADER_DURATION ==>
       var r := s.nodes[p.src].role;
       r.Following(p.dst) && r.until >= p.sent + LEADER_DURATION)
  }

  ghost predicate LeaseInv(s: Sys) {
    && 1 <= |s.nodes| <= 509
    && (forall i :: 0 <= i < |s.nodes| ==>
          && s.nodes[i].id == i && s.nodes[i].peers == |s.nodes|
          && RoleOk(s.nodes[i].role, i, |s.nodes|, s.now, s.net))
    && (forall p :: p in s.net ==> PromiseKept(s, p))
  }

  /** The vote an action counts, if it is the delivery of one. */
  predicate CountsVote(a: Action, k: NodeId, term: Term) {
    a.Deliver? && a.p.src == k && a.p.msg == VoteRes(true, term)
  }

  /** An unexpired lease survives, and votes are only ever added from a successful response
      for the current term. */
  ghost predicate RoleMoves(r: Role, r1: Role, count: nat, now: Time, a: Action) {
    && (r.ValidLeader(now) ==> Extends(r, r1))
    && (!r1.Init? ==> r1.until <= now + LEADER_DURATION)
    && (r1.Candidate? || r1.Leader? ==>
          && r1.need == count / 2 + 1
          && NoDup(r1.have)
          && (forall k :: k in r1.have ==>
                ((r.Candidate? || r.Leader?) && r.term == r1.term && k in r.have) || CountsVote(a, k, r1.term)))
  }

  lemma CronMoves(n: Node, count: nat, now: Time, net: set<Packet>, a: Action)
    requires RoleOk(n.role, n.id, count, now, net) && n.peers == count <= 509
    ensures RoleMoves(n.role, Cron(n, now).node.role, count, now, a)
  {
    NeedIsMajority(n.peers);
  }

  lemma VoteReqMoves(n: Node, count: nat, now: Time, net: set<Packet>, p: Packet)
    requires RoleOk(n.role, n.id, count, now, net) && p.msg.VoteReq?
    ensures RoleMoves(n.role, HandleVoteReq(n, now, p.src, p.src, p.src, p.msg).node.role, count, now, Deliver(p))
  {
  }

  lemma VoteResMoves(n: Node, count: nat, now: Time, net: set<Packet>, p: Packet)
    requires RoleOk(n.role, n.id, count, now, net) && p.msg.VoteRes?
    ensures RoleMoves(n.role, HandleVoteRes(n, now, p.src, p.src, p.src, p.msg).node.role, count, now, Deliver(p))
  {
  }

  /** One handler, one node. */
  lemma RoleStep(s: Sys, a: Action)
    requires LeaseInv(s) && Enabled(s, a) && !a.Tick?
    ensures var n := s.nodes[Actor(a)]; var n1 := EffectOf(s, a).node;
      && n1.id == n.id && n1.peers == n.peers
      && RoleMoves(n.role, n1.role, |s.nodes|, s.now, a)
  {
    var n := s.nodes[Actor(a)];
    assert RoleOk(n.role, Actor(a), |s.nodes|, s.now, s.net);
    if a.CronAt? {
      CronMoves(n, |s.nodes|, s.now, s.net, a);
    } else if a.Deliver? && a.p.msg.VoteReq? {
      VoteReqMoves(n, |s.nodes|, s.now, s.net, a.p);
    } else if a.Deliver? && a.p.msg.VoteRes? {
      VoteResMoves(n, |s.nodes|, s.now, s.net, a.p);
    }
  }

  /** The quorum counted by an action that makes its node leader or renews its lease. */
  ghost function Quorum(s: Sys, a: Action): set<NodeId>
    requires Enabled(s, a) && a.Deliver?
  {
    var r := s.nodes[a.p.dst].role;
    if r.Candidate? || r.Leader? then SetOf(Counted(r.have, a.p.src)) else {}
  }

  /** The action makes its node leader, or gives a leader a new deadline. */
  ghost predicate Fires(s: Sys, a: Action)
    requires Enabled(s, a)
  {
    && !a.Tick?
    && EffectOf(s, a).node.role.Leader?
    && (s.nodes[Actor(a)].role.Leader? ==> EffectOf(s, a).node.role.until != s.nodes[Actor(a)].role.until)
  }

  /** Every ascent and every renewal is the delivery of a vote that completes a majority of
      distinct nodes, each of which voted for this node in this very term. */
  lemma FiringEvidence(s: Sys, a: Action)
    requires LeaseInv(s) && Enabled(s, a) && Fires(s, a)
    ensures a.Deliver? && EffectOf(s, a).node.log == s.nodes[a.p.dst].log
    ensures var q := Quorum(s, a); var r := EffectOf(s, a).node.role;
      && q <= Upto(|s.nodes|) && |q| > |s.nodes| / 2
      && (forall k :: k in q ==> Voted(s.net, k, a.p.dst, r.term))
      && r.until <= s.now + LEADER_DURATION
  {
    var i := Actor(a);
    var r := s.nodes[i].role;
    assert RoleOk(r, i, |s.nodes|, s.now, s.net);
    assert a.Deliver? && a.p.msg.VoteRes?;
    assert PromiseKept(s, a.p);
    var have := Counted(r.have, a.p.src);
    NoDupSize(have);
    forall k | k in have
      ensures k < |s.nodes| && Voted(s.net, k, i, r.term)
    {
      if k !in r.have {
        assert a.p.msg == VoteRes(true, r.term);
      }
    }
  }

  lemma VotedGrows(net: set<Packet>, net': set<Packet>, count: nat, i: NodeId, term: Term)
    requires net <= net'
    ensures Voters(net, count, i, term) <= Voters(net', count, i, term)
    ensures |Voters(net, count, i, term)| <= |Voters(net', count, i, term)|
  {
    forall k | Voted(net, k, i, term)
      ensures Voted(net', k, i, term)
    {
      var p :| p in net && p.src == k && p.dst == i && p.msg == VoteRes(true, term);
      assert p in net';
    }
    SubsetSize(Voters(net, count, i, term), Voters(net', count, i, term));
  }

  /** The actor's new role is well-formed against the new network. */
  lemma ActorRoleOk(s: Sys, a: Action)
    requires LeaseInv(s) && Enabled(s, a) && !a.Tick?
    ensures RoleOk(EffectOf(s, a).node.role, Actor(a), |s.nodes|, s.now, Next(s, a).net)
  {
    var i := Actor(a);
    var r, r1 := s.nodes[i].role, EffectOf(s, a).node.role;
    var net' := Next(s, a).net;
    RoleStep(s, a);
    assert RoleOk(r, i, |s.nodes|, s.now, s.net);
    if r1.Candidate? || r1.Leader? {
      forall k | k in r1.have
        ensures k < |s.nodes| && Voted(net', k, i, r1.term)
      {
        if CountsVote(a, k, r1.term) {
          assert PromiseKept(s, a.p) && a.p in net';
        } else {
          assert Voted(s.net, k, i, r1.term);
        }
      }
    }
    if r1.Leader? {
      VotedGrows(s.net, net', |s.nodes|, i, r1.term);
      if Fires(s, a) {
        FiringEvidence(s, a);
        SubsetSize(Quorum(s, a), Voters(s.net, |s.nodes|, i, r1.term));
      }
    }
  }

  /** A vote leaves a node only when the receiver is that node or the node now follows it,
      for a full lease from this moment. */
  lemma SentVote(s: Sys, a: Action, p: Packet)
    requires LeaseInv(s) && Enabled(s, a)
    requires p in Next(s, a).net && p !in s.net
    ensures !a.Tick? && p.src == Actor(a) && p.sent == s.now && p.dst < |s.nodes|
    ensures p.msg.VoteRes? && p.msg.success ==>
      var r := EffectOf(s, a).node.role;
      p.src == p.dst || (r.Following(p.dst) && r.until == s.now + LEADER_DURATION)
  {
    assert s.nodes[Actor(a)].id == Actor(a);
  }

  lemma LeaseStep(s: Sys, a: Action)
    requires LeaseInv(s) && Enabled(s, a)
    ensures LeaseInv(Next(s, a))
  {
    var s' := Next(s, a);
    if !a.Tick? {
      RoleStep(s, a);
      ActorRoleOk(s, a);
    }
    forall i | 0 <= i < |s'.nodes|
      ensures s'.nodes[i].id == i && s'.nodes[i].peers == |s'.nodes|
      ensures RoleOk(s'.nodes[i].role, i, |s'.nodes|, s'.now, s'.net)
    {
      assert RoleOk(s.nodes[i].role, i, |s.nodes|, s.now, s.net);
      if a.Tick? || i != Actor(a) {
        if s.nodes[i].role.Leader? {
          VotedGrows(s.net, s'.net, |s.nodes|, i, s.nodes[i].role.term);
        }
      }
    }
    forall p | p in s'.net
      ensures PromiseKept(s', p)
    {
      if p in s.net {
        assert PromiseKept(s, p);
      } else {
        SentVote(s, a, p);
      }
    }
  }

  lemma {:induction false} LeaseInvHolds(tr: seq<Sys>, acts: seq<Action>, k: nat)
    requires IsRun(tr, acts) && k < |tr|
    ensures LeaseInv(tr[k])
  {
    if k > 0 {
      LeaseInvHolds(tr, acts, k - 1);
      LeaseStep(tr[k - 1], acts[k - 1]);
    }
  }

  // ----- non-preemption ------------------------------------------------------------------

  /** Between two states, the clock does not go back and every unexpired lease stays. */
  ghost predicate KeepsLeases(s: Sys, s': Sys) {
    && s.now <= s'.now && |s'.nodes| == |s.nodes|
    && forall i :: 0 <= i < |s.nodes| && s.nodes[i].role.ValidLeader(s.now) ==>
         Extends(s.nodes[i].role, s'.nodes[i].role)
  }

  lemma ClockAndSize(s: Sys, a: Action)
    requires Enabled(s, a)
    ensures s.now <= Next(s, a).now && |Next(s, a).nodes| == |s.nodes|
  {
  }

  lemma LeasesSurvive(s: Sys, a: Action)
    requires LeaseInv(s) && Enabled(s, a)
    ensures KeepsLeases(s, Next(s, a))
  {
    if !a.Tick? {
      RoleStep(s, a);
    }
  }

  lemma RunKeepsLeases(tr: seq<Sys>, acts: seq<Action>)
    requires IsRun(tr, acts)
    ensures forall k :: 0 <= k < |acts| ==> KeepsLeases(tr[k], tr[k + 1])
  {
    forall k | 0 <= k < |acts|
      ensures KeepsLeases(tr[k], tr[k + 1])
    {
      LeaseInvHolds(tr, acts, k);
      LeasesSurvive(tr[k], acts[k]);
    }
  }

  lemma {:induction false} ChainKeepsLease(tr: seq<Sys>, j: nat, k: nat, i: NodeId)
    requires j <= k < |tr|
    requires forall m :: 0 <= m < |tr| - 1 ==> KeepsLeases(tr[m], tr[m + 1])
    requires i < |tr[j].nodes|
    requires tr[j].nodes[i].role.Leader? || tr[j].nodes[i].role.Follower?
    requires tr[k].now < tr[j].nodes[i].role.until
    ensures |tr[k].nodes| == |tr[j].nodes|
    ensures Extends(tr[j].nodes[i].role, tr[k].nodes[i].role)
    decreases k
  {
    if j < k {
      assert KeepsLeases(tr[k - 1], tr[k - 1 + 1]);
      ChainKeepsLease(tr, j, k - 1, i);
    }
  }

  /** Once a node leads or follows under a deadline, at every later state whose clock is
      still before that deadline it holds the same role, leader and term, with a deadline
      no earlier. */
  lemma NonPreemption(tr: seq<Sys>, acts: seq<Action>, j: nat, k: nat, i: NodeId)
    requires IsRun(tr, acts) && j <= k < |tr|
    requires i < |tr[j].nodes|
    requires tr[j].nodes[i].role.Leader? || tr[j].nodes[i].role.Follower?
    requires tr[k].now < tr[j].nodes[i].role.until
    ensures |tr[k].nodes| == |tr[j].nodes|
    ensures Extends(tr[j].nodes[i].role, tr[k].nodes[i].role)
  {
    RunKeepsLeases(tr, acts);
    ChainKeepsLease(tr, j, k, i);
  }

  // ----- the evidence behind a reign -------------------------------------------------------

  /** In every reachable state the votes a candidate or leader holds are distinct, each was
      sent to it for exactly its term, and a leader got votes of a majority for its term. */
  lemma VotesHeld(tr: seq<Sys>, acts: seq<Action>, k: nat, i: NodeId)
    requires IsRun(tr, acts) && k < |tr| && i < |tr[k].nodes|
    requires tr[k].nodes[i].role.Candidate? || tr[k].nodes[i].role.Leader?
    ensures var r := tr[k].nodes[i].role;
      && NoDup(r.have)
      && (forall x :: x in r.have ==> Voted(tr[k].net, x, i, r.term))
      && (r.Leader? ==> |Voters(tr[k].net, |tr[k].nodes|, i, r.term)| > |tr[k].nodes| / 2)
  {
    LeaseInvHolds(tr, acts, k);
    assert RoleOk(tr[k].nodes[i].role, i, |tr[k].nodes|, tr[k].now, tr[k].net);
  }

  /** Every vote on the wire was sent at some step by the receiver itself or by a node that
      follows the receiver right after that step, under a full lease. */
  lemma {:induction false} VoteOrigin(tr: seq<Sys>, acts: seq<Action>, k: nat, p: Packet) returns (j: nat)
    requires IsRun(tr, acts) && k < |tr|
    requires p in tr[k].net && p.msg.VoteRes? && p.msg.success
    ensures j < k && p.sent == tr[j].now && p.src < |tr[j + 1].nodes|
    ensures p in tr[j + 1].net && p !in tr[j].net
    ensures p.src == p.dst ||
      (tr[j + 1].nodes[p.src].role.Following(p.dst) &&
       tr[j + 1].nodes[p.src].role.until == p.sent + LEADER_DURATION)
  {
    if k > 0 && p !in tr[k - 1].net {
      LeaseInvHolds(tr, acts, k - 1);
      SentVote(tr[k - 1], acts[k - 1], p);
      j := k - 1;
    } else {
      j := VoteOrigin(tr, acts, k - 1, p);
    }
  }

  /** Every ascent and every renewal of every run is backed by n/2 + 1 distinct voters. */
  lemma ReignBackedByMajority(tr: seq<Sys>, acts: seq<Action>, k: nat)
    requires IsRun(tr, acts) && k < |acts| && Fires(tr[k], acts[k])
    ensures acts[k].Deliver?
    ensures var q := Quorum(tr[k], acts[k]); var i := acts[k].p.dst;
      && |q| > |tr[k].nodes| / 2
      && (forall x :: x in q ==> x < |tr[k].nodes| && Voted(tr[k].net, x, i, EffectOf(tr[k], acts[k]).node.role.term))
  {
    LeaseInvHolds(tr, acts, k);
    FiringEvidence(tr[k], acts[k]);
  }

  // ----- bounded lease exclusion -----------------------------------------------------------

  /** `k` sent `i` a vote no more than `d` ago. */
  ghost predicate VotedWithin(s: Sys, k: NodeId, i: NodeId, d: Time) {
    exists p :: p in s.net && p.src == k && p.dst == i && p.msg.VoteRes? && p.msg.success && s.now <= p.sent + d
  }

  /** When the action completes a quorum, each vote in it is at most `d` old. */
  ghost predicate FreshQuorum(s: Sys, a: Action, d: Time)
    requires Enabled(s, a)
  {
    Fires(s, a) && a.Deliver? ==>
      forall k :: k in Quorum(s, a) && k != a.p.dst ==> VotedWithin(s, k, a.p.dst, d)
  }

  /** Each member of `q` other than the leader `i` follows `i` up to `d` before its deadline. */
  ghost predicate BackedBy(s: Sys, i: NodeId, d: Time, q: set<NodeId>)
    requires i < |s.nodes| && s.nodes[i].role.Leader?
  {
    && q <= Upto(|s.nodes|) && |q| > |s.nodes| / 2
    && (s.now + d < s.nodes[i].role.until ==>
          forall k :: k in q && k != i ==>
            s.nodes[k].role.Following(i) && s.nodes[i].role.until <= s.nodes[k].role.until + d)
  }

  ghost predicate Backed(s: Sys, d: Time) {
    forall i :: 0 <= i < |s.nodes| && s.nodes[i].role.Leader? ==> exists q :: BackedBy(s, i, d, q)
  }

  lemma FiringBacks(s: Sys, a: Action, d: Time)
    requires LeaseInv(s) && Enabled(s, a) && Fires(s, a) && FreshQuorum(s, a, d)
    ensures Actor(a) < |Next(s, a).nodes| && Next(s, a).nodes[Actor(a)].role.Leader?
    ensures exists q :: BackedBy(Next(s, a), Actor(a), d, q)
  {
    FiringEvidence(s, a);
    var s', i, q := Next(s, a), a.p.dst, Quorum(s, a);
    if s'.now + d < s'.nodes[i].role.until {
      forall k | k in q && k != i
        ensures s'.nodes[k].role.Following(i) && s'.nodes[i].role.until <= s'.nodes[k].role.until + d
      {
        assert VotedWithin(s, k, i, d);
        var p :| p in s.net && p.src == k && p.dst == i && p.msg.VoteRes? && p.msg.success && s.now <= p.sent + d;
        assert PromiseKept(s, p);
      }
    }
    assert BackedBy(s', i, d, q);
  }

  lemma BackedStep(s: Sys, a: Action, d: Time)
    requires LeaseInv(s) && Enabled(s, a) && FreshQuorum(s, a, d) && Backed(s, d)
    ensures Backed(Next(s, a), d)
  {
    var s' := Next(s, a);
    LeasesSurvive(s, a);
    forall i | 0 <= i < |s'.nodes| && s'.nodes[i].role.Leader?
      ensures exists q :: BackedBy(s', i, d, q)
    {
      if !a.Tick? && i == Actor(a) && Fires(s, a) {
        FiringBacks(s, a, d);
      } else {
        var q :| BackedBy(s, i, d, q);
        assert BackedBy(s', i, d, q);
      }
    }
  }

  lemma {:induction false} BackedHolds(tr: seq<Sys>, acts: seq<Action>, k: nat, d: Time)
    requires IsRun(tr, acts) && k < |tr|
    requires forall m :: 0 <= m < k ==> FreshQuorum(tr[m], acts[m], d)
    ensures Backed(tr[k], d)
  {
    if k > 0 {
      BackedHolds(tr, acts, k - 1, d);
      LeaseInvHolds(tr, acts, k - 1);
      BackedStep(tr[k - 1], acts[k - 1], d);
    }
  }

  lemma BackedExclusion(s: Sys, d: Time, i: NodeId, j: NodeId)
    requires Backed(s, d)
    requires i < |s.nodes| && j < |s.nodes| && i != j
    requires s.nodes[i].role.Leader? && s.nodes[j].role.Leader?
    ensures s.nodes[i].role.until <= s.now + d || s.nodes[j].role.until <= s.now + d
  {
    var q :| BackedBy(s, i, d, q);
    var q' :| BackedBy(s, j, d, q');
    var k := Intersect(|s.nodes|, q, q');
  }

  /** If no counted vote was older than `d` when its quorum was completed, no two leaders
      ever hold leases that both have more than `d` to run. */
  lemma LeaseExclusion(tr: seq<Sys>, acts: seq<Action>, k: nat, d: Time, i: NodeId, j: NodeId)
    requires IsRun(tr, acts) && k < |tr|
    requires forall m :: 0 <= m < k ==> FreshQuorum(tr[m], acts[m], d)
    requires i < |tr[k].nodes| && j < |tr[k].nodes| && i != j
    requires tr[k].nodes[i].role.Leader? && tr[k].nodes[j].role.Leader?
    ensures tr[k].nodes[i].role.until <= tr[k].now + d || tr[k].nodes[j].role.until <= tr[k].now + d
  {
    BackedHolds(tr, acts, k, d);
    BackedExclusion(tr[k], d, i, j);
  }
}
