/** Election safety: at most one leader per term over a whole run.  The code does not check
    a grant against the votes a voter already gave, so the theorem is about the runs in which
    no grant is a second vote of its term, and the guard that the code lacks ensures that. */
module Elections {
  import opened Types
  import opened Harpoon
  import opened Cluster
  import opened Leases

  /** `k` has asked for votes in `term`. */
  ghost predicate StoodIn(net: set<Packet>, k: NodeId, term: Term) {
    exists p :: p in net && p.src == k && p.msg.VoteReq? && p.msg.term == term
  }

  /** `term` is above every term the voter `k` stood in and every term it granted, except
      that it may repeat its latest promise to the same candidate. */
  ghost predicate FreshPromise(s: Sys, k: NodeId, c: NodeId, term: Term) {
    && (forall t: Term :: StoodIn(s.net, k, t) ==> t < term)
    && (forall c': NodeId, t: Term :: Voted(s.net, k, c', t) ==> t < term || (t == term && c' == c))
  }

  /** The check missing from the vote handler and from cron: a vote for somebody else needs
      a fresh promise, and a candidacy needs a term above every term granted to others. */
  ghost predicate Guarded(s: Sys, a: Action)
    requires Enabled(s, a)
  {
    && (a.Deliver? && a.p.msg.VoteReq? && a.p.src != a.p.dst &&
        Granted(s.nodes[a.p.dst], s.now, a.p.src, a.p.src, a.p.src, a.p.msg).Some? ==>
          FreshPromise(s, a.p.dst, a.p.src, a.p.msg.term))
    && (a.CronAt? && Stood(s.nodes[a.i], s.now) != s.nodes[a.i] ==>
          forall c: NodeId, t: Term :: c != a.i && Voted(s.net, a.i, c, t) ==> t <= s.nodes[a.i].highestTerm)
  }

  /** No node voted for two candidates of `term`. */
  ghost predicate OneVoteIn(net: set<Packet>, term: Term) {
    forall k, c, c' :: Voted(net, k, c, term) && Voted(net, k, c', term) ==> c == c'
  }

  ghost predicate OneVotePerTerm(net: set<Packet>) {
    forall t: Term :: OneVoteIn(net, t)
  }

  ghost predicate SelfVotesStood(net: set<Packet>) {
    forall k, t :: Voted(net, k, k, t) ==> StoodIn(net, k, t)
  }

  ghost predicate CandidatesVoteForThemselves(net: set<Packet>) {
    forall k, c, t :: StoodIn(net, k, t) && Voted(net, k, c, t) ==> c == k
  }

  ghost predicate BallotInv(s: Sys) {
    && OneVotePerTerm(s.net)
    && SelfVotesStood(s.net)
    && CandidatesVoteForThemselves(s.net)
    && forall i :: 0 <= i < |s.nodes| && (s.nodes[i].role.Candidate? || s.nodes[i].role.Leader?) ==>
         StoodIn(s.net, i, s.nodes[i].role.term)
  }

  /** A vote that a step adds answers the request that step delivered. */
  lemma NewVote(s: Sys, a: Action, k: NodeId, c: NodeId, t: Term)
    requires LeaseInv(s) && Enabled(s, a)
    requires Voted(Next(s, a).net, k, c, t) && !Voted(s.net, k, c, t)
    ensures a.Deliver? && a.p.msg.VoteReq? && a.p.dst == k && a.p.src == c && a.p.msg.term == t
    ensures Granted(s.nodes[k], s.now, c, c, c, a.p.msg).Some?
  {
    var p :| p in Next(s, a).net && p.src == k && p.dst == c && p.msg == VoteRes(true, t);
    assert p !in s.net;
    assert PromiseKept(s, a.p) || !a.Deliver?;
  }

  /** A candidacy that a step adds is one that cron just began, unless the node had it. */
  lemma NewCandidacy(s: Sys, a: Action, k: NodeId, t: Term)
    requires LeaseInv(s) && BallotInv(s) && Enabled(s, a)
    requires StoodIn(Next(s, a).net, k, t) && !StoodIn(s.net, k, t)
    ensures a.CronAt? && a.i == k && Stood(s.nodes[k], s.now) != s.nodes[k]
    ensures t == s.nodes[k].highestTerm + 1
  {
    var p :| p in Next(s, a).net && p.src == k && p.msg.VoteReq? && p.msg.term == t;
    assert p !in s.net;
    assert a.CronAt?;
    assert s.nodes[k].role.Candidate? || s.nodes[k].role.Leader? ==> StoodIn(s.net, k, s.nodes[k].role.term);
  }

  lemma NetGrows(s: Sys, a: Action)
    requires Enabled(s, a)
    ensures s.net <= Next(s, a).net
    ensures forall k, c, t :: Voted(s.net, k, c, t) ==> Voted(Next(s, a).net, k, c, t)
    ensures forall k, t :: StoodIn(s.net, k, t) ==> StoodIn(Next(s, a).net, k, t)
  {
  }

  // ----- one vote per term ---------------------------------------------------------------------

  /** If the action grants a vote of `term`, the voter has voted for nobody else in it. */
  ghost predicate FirstVote(s: Sys, a: Action, term: Term)
    requires Enabled(s, a)
  {
    a.Deliver? && a.p.msg.VoteReq? && a.p.msg.term == term &&
    Granted(s.nodes[a.p.dst], s.now, a.p.src, a.p.src, a.p.src, a.p.msg).Some? ==>
      forall c: NodeId :: Voted(s.net, a.p.dst, c, term) ==> c == a.p.src
  }

  lemma GrantIsSent(s: Sys, a: Action)
    requires LeaseInv(s) && Enabled(s, a) && a.Deliver? && a.p.msg.VoteReq?
    requires Granted(s.nodes[a.p.dst], s.now, a.p.src, a.p.src, a.p.src, a.p.msg).Some?
    ensures Voted(Next(s, a).net, a.p.dst, a.p.src, a.p.msg.term)
  {
    assert ToPeer(a.p.src, VoteRes(true, a.p.msg.term)) in EffectOf(s, a).sends;
    assert Packet(a.p.dst, a.p.src, s.now, VoteRes(true, a.p.msg.term)) in Next(s, a).net;
  }

  lemma FirstVoteExactly(s: Sys, a: Action, term: Term)
    requires LeaseInv(s) && OneVoteIn(s.net, term) && Enabled(s, a)
    ensures OneVoteIn(Next(s, a).net, term) <==> FirstVote(s, a, term)
  {
    NetGrows(s, a);
    if !FirstVote(s, a, term) {
      GrantIsSent(s, a);
    } else {
      var net' := Next(s, a).net;
      forall k, c, c' | Voted(net', k, c, term) && Voted(net', k, c', term)
        ensures c == c'
      {
        if !Voted(s.net, k, c, term) {
          NewVote(s, a, k, c, term);
        }
        if !Voted(s.net, k, c', term) {
          NewVote(s, a, k, c', term);
        }
      }
    }
  }

  lemma SecondVoteStays(s: Sys, a: Action, term: Term)
    requires Enabled(s, a) && !OneVoteIn(s.net, term)
    ensures !OneVoteIn(Next(s, a).net, term)
  {
    NetGrows(s, a);
  }

  lemma OneVoteStep(s: Sys, a: Action)
    requires LeaseInv(s) && BallotInv(s) && Enabled(s, a) && Guarded(s, a)
    ensures OneVotePerTerm(Next(s, a).net)
    ensures SelfVotesStood(Next(s, a).net)
  {
    forall t: Term
      ensures OneVoteIn(Next(s, a).net, t)
    {
      assert OneVoteIn(s.net, t);
      FirstVoteExactly(s, a, t);
    }
    NetGrows(s, a);
    var net' := Next(s, a).net;
    forall k, t | Voted(net', k, k, t)
      ensures StoodIn(net', k, t)
    {
      if !Voted(s.net, k, k, t) {
        NewVote(s, a, k, k, t);
      }
    }
  }

  lemma CandidacyStep(s: Sys, a: Action)
    requires LeaseInv(s) && BallotInv(s) && Enabled(s, a) && Guarded(s, a)
    ensures CandidatesVoteForThemselves(Next(s, a).net)
  {
    NetGrows(s, a);
    var net' := Next(s, a).net;
    forall k, c, t | StoodIn(net', k, t) && Voted(net', k, c, t)
      ensures c == k
    {
      if !Voted(s.net, k, c, t) {
        NewVote(s, a, k, c, t);
      }
      if !StoodIn(s.net, k, t) {
        NewCandidacy(s, a, k, t);
      }
    }
  }

  lemma OwnTermStood(s: Sys, a: Action, i: NodeId)
    requires LeaseInv(s) && BallotInv(s) && Enabled(s, a) && i < |s.nodes|
    requires var r := Next(s, a).nodes[i].role; r.Candidate? || r.Leader?
    ensures StoodIn(Next(s, a).net, i, Next(s, a).nodes[i].role.term)
  {
    NetGrows(s, a);
    var s' := Next(s, a);
    var r, r' := s.nodes[i].role, s'.nodes[i].role;
    if !a.Tick? && Actor(a) == i && !((r.Candidate? || r.Leader?) && r.term == r'.term) {
      assert a.CronAt?;
      var p := Packet(i, i, s.now, Ballot(Stood(s.nodes[i], s.now), r'.term));
      assert Broadcast(p.msg) in EffectOf(s, a).sends;
      assert p in s'.net;
    }
  }

  lemma BallotStep(s: Sys, a: Action)
    requires LeaseInv(s) && BallotInv(s) && Enabled(s, a) && Guarded(s, a)
    ensures BallotInv(Next(s, a))
  {
    OneVoteStep(s, a);
    CandidacyStep(s, a);
    ClockAndSize(s, a);
    var s' := Next(s, a);
    forall i | 0 <= i < |s'.nodes| && (s'.nodes[i].role.Candidate? || s'.nodes[i].role.Leader?)
      ensures StoodIn(s'.net, i, s'.nodes[i].role.term)
    {
      OwnTermStood(s, a, i);
    }
  }

  lemma {:induction false} BallotInvHolds(tr: seq<Sys>, acts: seq<Action>, k: nat)
    requires IsRun(tr, acts) && k < |tr|
    requires forall m :: 0 <= m < k ==> Guarded(tr[m], acts[m])
    ensures BallotInv(tr[k])
  {
    if k > 0 {
      BallotInvHolds(tr, acts, k - 1);
      LeaseInvHolds(tr, acts, k - 1);
      BallotStep(tr[k - 1], acts[k - 1]);
    }
  }

  lemma {:induction false} NetOnlyGrows(tr: seq<Sys>, acts: seq<Action>, j: nat, k: nat)
    requires IsRun(tr, acts) && j <= k < |tr|
    ensures tr[j].net <= tr[k].net && |tr[j].nodes| == |tr[k].nodes|
  {
    if j < k {
      NetOnlyGrows(tr, acts, j, k - 1);
      NetGrows(tr[k - 1], acts[k - 1]);
      ClockAndSize(tr[k - 1], acts[k - 1]);
    }
  }

  lemma OneMoreVote(tr: seq<Sys>, acts: seq<Action>, k: nat, term: Term)
    requires IsRun(tr, acts) && k < |acts|
    ensures OneVoteIn(tr[k + 1].net, term) <==> OneVoteIn(tr[k].net, term) && FirstVote(tr[k], acts[k], term)
  {
    LeaseInvHolds(tr, acts, k);
    if OneVoteIn(tr[k].net, term) {
      FirstVoteExactly(tr[k], acts[k], term);
    } else {
      SecondVoteStays(tr[k], acts[k], term);
    }
  }

  /** Over a whole run no node votes twice in a term if and only if each grant of that term,
      when it is made, is the voter's first. */
  lemma {:induction false} OneVoteExactly(tr: seq<Sys>, acts: seq<Action>, k: nat, term: Term)
    requires IsRun(tr, acts) && k < |tr|
    ensures OneVoteIn(tr[k].net, term) <==> forall m :: 0 <= m < k ==> FirstVote(tr[m], acts[m], term)
  {
    if k > 0 {
      OneVoteExactly(tr, acts, k - 1, term);
      OneMoreVote(tr, acts, k - 1, term);
    }
  }

  /** The guard the code lacks makes every grant a first vote. */
  lemma GuardSuffices(tr: seq<Sys>, acts: seq<Action>, k: nat, term: Term)
    requires IsRun(tr, acts) && k < |tr|
    requires forall m :: 0 <= m < k ==> Guarded(tr[m], acts[m])
    ensures forall m :: 0 <= m < k ==> FirstVote(tr[m], acts[m], term)
  {
    BallotInvHolds(tr, acts, k);
    assert OneVoteIn(tr[k].net, term);
    OneVoteExactly(tr, acts, k, term);
  }

  /** At most one node is ever leader in a given term, if no voter votes twice in that term: a
      leader seen at one moment of the run and a leader of the same term seen at any later
      moment are the same node. */
  lemma ElectionSafety(tr: seq<Sys>, acts: seq<Action>, j: nat, k: nat, x: NodeId, y: NodeId)
    requires IsRun(tr, acts) && j <= k < |tr|
    requires x < |tr[j].nodes| && tr[j].nodes[x].role.Leader?
    requires y < |tr[k].nodes| && tr[k].nodes[y].role.Leader?
    requires tr[j].nodes[x].role.term == tr[k].nodes[y].role.term
    requires forall m :: 0 <= m < k ==> FirstVote(tr[m], acts[m], tr[k].nodes[y].role.term)
    ensures x == y
  {
    var count, term := |tr[k].nodes|, tr[k].nodes[y].role.term;
    NetOnlyGrows(tr, acts, j, k);
    VotesHeld(tr, acts, j, x);
    VotesHeld(tr, acts, k, y);
    VotedGrows(tr[j].net, tr[k].net, count, x, term);
    var v := Intersect(count, Voters(tr[k].net, count, x, term), Voters(tr[k].net, count, y, term));
    OneVoteExactly(tr, acts, k, term);
    assert Voted(tr[k].net, v, x, term) && Voted(tr[k].net, v, y, term);
  }
}
