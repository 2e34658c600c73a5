/** How a reign begins: with a candidacy of the same term that nobody was heard to refuse. */
module Candidacies {
  import opened Types
  import opened Roles
  import opened LogSpec
  import opened Harpoon
  import opened Cluster
  import opened Leases
  import opened Wire

  /** The action brings `i` a refusal of its term. */
  predicate Refuses(a: Action, i: NodeId, term: Term) {
    a.Deliver? && a.p.dst == i && a.p.msg == VoteRes(false, term)
  }

  /** A candidate that hears a refusal of its term in time gives up: it is in its first state
      again, replicates to nobody, keeps its log, and has seen no lesser term than the refused. */
  lemma RefusalResets(s: Sys, p: Packet)
    requires Enabled(s, Deliver(p)) && s.nodes[p.dst].role.ValidCandidate(s.now)
    requires p.msg == VoteRes(false, s.nodes[p.dst].role.term)
    ensures var n, n1 := s.nodes[p.dst], Next(s, Deliver(p)).nodes[p.dst];
      && n1.role == Init && n1.repPeers == map[] && p.msg.term <= n1.highestTerm
      && (p.msg.term <= n.highestTerm ==> n1.highestTerm == n.highestTerm)
      && n1 == n.(role := n1.role, repPeers := n1.repPeers, highestTerm := n1.highestTerm)
  {
  }

  /** Anybody else's refusal, or one of another term or too late, changes nothing. */
  lemma OtherRefusalsIgnored(s: Sys, p: Packet)
    requires Enabled(s, Deliver(p)) && p.msg.VoteRes? && !p.msg.success
    requires !(s.nodes[p.dst].role.ValidCandidate(s.now) && s.nodes[p.dst].role.term == p.msg.term)
    ensures Next(s, Deliver(p)).nodes == s.nodes && Next(s, Deliver(p)).net == s.net
  {
    assert EffectOf(s, Deliver(p)) == Quiet(s.nodes[p.dst]);
  }

  /** A vote that is counted: what it makes of the role, one vote more or a quorum. */
  lemma VoteCounted(s: Sys, p: Packet)
    requires LeaseInv(s) && Enabled(s, Deliver(p))
    requires var r := s.nodes[p.dst].role;
      && (r.Candidate? || r.Leader?) && s.now < r.until && p.msg == VoteRes(true, r.term)
    ensures var r, r1 := s.nodes[p.dst].role, Next(s, Deliver(p)).nodes[p.dst].role;
      var have := if p.src in r.have then r.have else r.have + [p.src];
      && (|have| <= |s.nodes| / 2 ==> r1 == r.(have := have))
      && (|have| > |s.nodes| / 2 ==>
            r1 == Leader(r.term, [], r.need, if r.Candidate? then r.until else s.now + LEADER_DURATION))
  {
    assert RoleOk(s.nodes[p.dst].role, p.dst, |s.nodes|, s.now, s.net);
  }

  /** Where replication to a node starts when its vote is first counted: a new peer is taken to
      hold, and to have been sent, all that the counting node has accepted; one known already
      keeps its position; nobody else is touched. */
  lemma PeerStarts(s: Sys, p: Packet)
    requires LeaseInv(s) && Enabled(s, Deliver(p)) && p.src != p.dst
    requires var r := s.nodes[p.dst].role;
      && (r.Candidate? || r.Leader?) && s.now < r.until && p.msg == VoteRes(true, r.term) && p.src !in r.have
    ensures var n, n1 := s.nodes[p.dst], Next(s, Deliver(p)).nodes[p.dst];
      && n1 == n.(role := n1.role, repPeers := n1.repPeers)
      && n1.repPeers.Keys == n.repPeers.Keys + {p.src}
      && (forall g :: g in n.repPeers && g != p.src ==> n1.repPeers[g] == n.repPeers[g])
      && var peer := n1.repPeers[p.src];
      && peer.tok == p.src && peer.addr == p.src
      && (p.src in n.repPeers ==> peer == n.repPeers[p.src].(tok := p.src, addr := p.src))
      && (p.src !in n.repPeers ==>
            Ends(Entries(n.log), peer.acceptedTxid, peer.acceptedTerm) && peer.maxSent == peer.acceptedTxid)
  {
    assert s.nodes[p.dst].id == p.dst;
  }

  // ----- one step ------------------------------------------------------------------------------

  /** The step is the cron with which `i` begins a candidacy, in the term after the highest it has
      recorded. */
  ghost predicate BeginsAt(s: Sys, a: Action, s': Sys, i: NodeId) {
    && a == CronAt(i) && i < |s.nodes| && i < |s'.nodes|
    && !s.nodes[i].role.ValidLeader(s.now) && !s.nodes[i].role.ValidCandidate(s.now)
    && s'.nodes[i].role.Candidate? && s'.nodes[i].role.have == []
    && s'.nodes[i].role.term == s.nodes[i].highestTerm + 1
    && s'.nodes[i].role.until == s.now + LEADER_DURATION
  }

  /** `i` was in the same candidacy before the step, which brought it no refusal in time. */
  ghost predicate GoesOn(s: Sys, a: Action, s': Sys, i: NodeId) {
    && i < |s.nodes| && i < |s'.nodes| && s.nodes[i].role.Candidate? && s'.nodes[i].role.Candidate?
    && s'.nodes[i].role.term == s.nodes[i].role.term && s'.nodes[i].role.until == s.nodes[i].role.until
    && (s.now < s.nodes[i].role.until ==> !Refuses(a, i, s.nodes[i].role.term))
  }

  /** `i` was a candidate before the step, in time, and a vote makes it leader of the same term
      under the same deadline. */
  ghost predicate Ascends(s: Sys, a: Action, s': Sys, i: NodeId) {
    && i < |s.nodes| && i < |s'.nodes| && s.nodes[i].role.ValidCandidate(s.now) && s'.nodes[i].role.Leader?
    && s'.nodes[i].role.term == s.nodes[i].role.term && s'.nodes[i].role.until == s.nodes[i].role.until
    && a.Deliver? && a.p.dst == i && a.p.msg == VoteRes(true, s.nodes[i].role.term)
  }

  ghost predicate ReignsOn(s: Sys, s': Sys, i: NodeId) {
    && i < |s.nodes| && i < |s'.nodes| && s.nodes[i].role.Leader? && s'.nodes[i].role.Leader?
    && s'.nodes[i].role.term == s.nodes[i].role.term
  }

  lemma CandidateBefore(s: Sys, a: Action, i: NodeId)
    requires Enabled(s, a) && i < |s.nodes| && Next(s, a).nodes[i].role.Candidate?
    ensures BeginsAt(s, a, Next(s, a), i) || GoesOn(s, a, Next(s, a), i)
  {
  }

  lemma LeaderBefore(s: Sys, a: Action, i: NodeId)
    requires Enabled(s, a) && i < |s.nodes| && Next(s, a).nodes[i].role.Leader?
    ensures Ascends(s, a, Next(s, a), i) || ReignsOn(s, Next(s, a), i)
  {
  }

  /** How the step from `s` to `s'` moves `i`: it is a candidate or a leader after the step only
      if it began, went on, ascended or reigned on. */
  ghost predicate Moves(s: Sys, a: Action, s': Sys, i: NodeId) {
    && |s'.nodes| == |s.nodes| && s.now <= s'.now
    && (i < |s.nodes| && s'.nodes[i].role.Candidate? ==> BeginsAt(s, a, s', i) || GoesOn(s, a, s', i))
    && (i < |s.nodes| && s'.nodes[i].role.Leader? ==> Ascends(s, a, s', i) || ReignsOn(s, s', i))
  }

  lemma StepMoves(s: Sys, a: Action, i: NodeId)
    requires Enabled(s, a)
    ensures Moves(s, a, Next(s, a), i)
  {
    ClockAndSize(s, a);
    if i < |s.nodes| && Next(s, a).nodes[i].role.Candidate? {
      CandidateBefore(s, a, i);
    }
    if i < |s.nodes| && Next(s, a).nodes[i].role.Leader? {
      LeaderBefore(s, a, i);
    }
  }

  // ----- whole runs ----------------------------------------------------------------------------

  /** The history of node `i`: at first it neither stands nor leads, and every step moves it so. */
  ghost predicate HistoryOf(tr: seq<Sys>, acts: seq<Action>, i: NodeId) {
    && |tr| == |acts| + 1 && (i < |tr[0].nodes| ==> tr[0].nodes[i].role.Init?)
    && forall m :: 0 <= m < |acts| ==> Moves(tr[m], acts[m], tr[m + 1], i)
  }

  lemma RunHistory(tr: seq<Sys>, acts: seq<Action>, i: NodeId)
    requires IsRun(tr, acts)
    ensures HistoryOf(tr, acts, i)
  {
    assert i < |tr[0].nodes| ==> FreshNode(tr[0].nodes[i], i, |tr[0].nodes|);
    forall m | 0 <= m < |acts|
      ensures Moves(tr[m], acts[m], tr[m + 1], i)
    {
      StepMoves(tr[m], acts[m], i);
    }
  }

  /** From step `b`, which begins it, to state `k` node `i` is in one candidacy. */
  ghost predicate Candidacy(tr: seq<Sys>, acts: seq<Action>, i: NodeId, b: nat, k: nat)
    requires |tr| == |acts| + 1
  {
    && b < k < |tr| && BeginsAt(tr[b], acts[b], tr[b + 1], i)
    && forall m :: b < m < k ==> GoesOn(tr[m], acts[m], tr[m + 1], i)
  }

  /** Every candidate is in a candidacy that cron began. */
  lemma {:induction false} CandidacyBegan(tr: seq<Sys>, acts: seq<Action>, k: nat, i: NodeId) returns (b: nat)
    requires HistoryOf(tr, acts, i) && k < |tr| && i < |tr[k].nodes| && tr[k].nodes[i].role.Candidate?
    ensures Candidacy(tr, acts, i, b, k)
  {
    assert k > 0;
    assert Moves(tr[k - 1], acts[k - 1], tr[k - 1 + 1], i);
    if BeginsAt(tr[k - 1], acts[k - 1], tr[k], i) {
      b := k - 1;
    } else {
      b := CandidacyBegan(tr, acts, k - 1, i);
    }
  }

  /** The term and the deadline of a candidacy do not change. */
  lemma {:induction false} CandidacyStays(tr: seq<Sys>, acts: seq<Action>, i: NodeId, b: nat, k: nat, m: nat)
    requires |tr| == |acts| + 1 && Candidacy(tr, acts, i, b, k) && b < m <= k
    ensures i < |tr[b + 1].nodes| && i < |tr[m].nodes|
    ensures tr[b + 1].nodes[i].role.Candidate? && tr[m].nodes[i].role.Candidate?
    ensures tr[m].nodes[i].role.term == tr[b + 1].nodes[i].role.term
    ensures tr[m].nodes[i].role.until == tr[b + 1].nodes[i].role.until
  {
    if b + 1 < m {
      CandidacyStays(tr, acts, i, b, k, m - 1);
      assert GoesOn(tr[m - 1], acts[m - 1], tr[m - 1 + 1], i);
    }
  }

  lemma {:induction false} Ascended(tr: seq<Sys>, acts: seq<Action>, k: nat, i: NodeId) returns (a: nat)
    requires HistoryOf(tr, acts, i) && k < |tr| && i < |tr[k].nodes| && tr[k].nodes[i].role.Leader?
    ensures a < k && Ascends(tr[a], acts[a], tr[a + 1], i)
    ensures forall m :: a < m < k ==> ReignsOn(tr[m], tr[m + 1], i)
    ensures tr[a + 1].nodes[i].role.term == tr[k].nodes[i].role.term
  {
    assert k > 0;
    assert Moves(tr[k - 1], acts[k - 1], tr[k - 1 + 1], i);
    if Ascends(tr[k - 1], acts[k - 1], tr[k], i) {
      a := k - 1;
    } else {
      a := Ascended(tr, acts, k - 1, i);
    }
  }

  lemma {:induction false} TimeGoesOn(tr: seq<Sys>, acts: seq<Action>, i: NodeId, j: nat, k: nat)
    requires HistoryOf(tr, acts, i) && j <= k < |tr|
    ensures tr[j].now <= tr[k].now
    decreases k
  {
    if j < k {
      TimeGoesOn(tr, acts, i, j, k - 1);
      assert Moves(tr[k - 1], acts[k - 1], tr[k - 1 + 1], i);
    }
  }

  /** Every leader of a term began a candidacy of that term with a cron, ascended at a vote before
      the deadline set then, and has led that term since; and between cron and ascent no refusal
      of the term was delivered to it. */
  lemma ReignBegan(tr: seq<Sys>, acts: seq<Action>, k: nat, i: NodeId) returns (b: nat, a: nat)
    requires IsRun(tr, acts) && k < |tr| && i < |tr[k].nodes| && tr[k].nodes[i].role.Leader?
    ensures b < a < k && BeginsAt(tr[b], acts[b], tr[b + 1], i) && Ascends(tr[a], acts[a], tr[a + 1], i)
    ensures tr[b + 1].nodes[i].role.term == tr[a + 1].nodes[i].role.term == tr[k].nodes[i].role.term
    ensures tr[a + 1].nodes[i].role.until == tr[b].now + LEADER_DURATION
    ensures forall m :: a < m < k ==> ReignsOn(tr[m], tr[m + 1], i)
    ensures forall m :: b <= m <= a ==> !Refuses(acts[m], i, tr[k].nodes[i].role.term)
  {
    RunHistory(tr, acts, i);
    a := Ascended(tr, acts, k, i);
    b := CandidacyBegan(tr, acts, a, i);
    CandidacyStays(tr, acts, i, b, a, a);
    forall m | b <= m <= a
      ensures !Refuses(acts[m], i, tr[k].nodes[i].role.term)
    {
      if b < m < a {
        CandidacyStays(tr, acts, i, b, a, m);
        TimeGoesOn(tr, acts, i, m, a);
        assert GoesOn(tr[m], acts[m], tr[m + 1], i);
      }
    }
  }
}
