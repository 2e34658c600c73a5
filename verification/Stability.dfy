/** A leader that a majority follows keeps its role and its term for ever, as long as its cron
    runs often enough and the votes it asks for travel fast enough. */
module Stability {
  import opened Types
  import opened Roles
  import opened Harpoon
  import opened Cluster
  import opened Leases

  /** Node `i`, leader of `term`, and the nodes `q` that follow it; their votes travel no longer
      than `d` each way and cron at `i` runs at least every `c`, from time `start` on. */
  datatype Watch = Watch(i: NodeId, term: Term, q: set<NodeId>, d: Time, c: Time, start: Time)

  /** A step of the run and when it was taken. */
  datatype Moment = Moment(at: Time, a: Action)

  ghost predicate Delivered(h: seq<Moment>, p: Packet) {
    exists x :: 0 <= x < |h| && h[x].a == Deliver(p)
  }

  /** `p` asks for a vote for `w.i`, or answers that. */
  predicate Asks(p: Packet, w: Watch) {
    p.msg.VoteReq? && p.src == w.i
  }

  predicate Answers(p: Packet, w: Watch) {
    p.msg.VoteRes? && p.dst == w.i
  }

  predicate Between(p: Packet, w: Watch) {
    (Asks(p, w) && p.dst in w.q) || (Answers(p, w) && p.src in w.q)
  }

  /** The network is on time so far: what is asked of the followers, and what they answer, has
      arrived within `w.d`. */
  ghost predicate NetOnTime(s: Sys, h: seq<Moment>, w: Watch) {
    forall p :: p in s.net && Between(p, w) && w.start <= p.sent && p.sent + w.d < s.now ==> Delivered(h, p)
  }

  ghost predicate CronAtMoment(h: seq<Moment>, w: Watch, x: nat) {
    x < |h| && h[x].a == CronAt(w.i)
  }

  /** Cron is on time so far: it ran at the leader within the last `w.c`. */
  ghost predicate CronOnTime(s: Sys, h: seq<Moment>, w: Watch) {
    s.now <= w.start + w.c || exists x: nat :: CronAtMoment(h, w, x) && s.now <= h[x].at + w.c
  }

  /** Nothing asked for or answered is delivered late. */
  predicate NotLate(s: Sys, a: Action, w: Watch) {
    a.Deliver? && (Asks(a.p, w) || Answers(a.p, w)) ==> s.now <= a.p.sent + w.d
  }

  /** The delays leave room: a lease is renewed, and every follower reached, before it runs out. */
  predicate RoomEnough(w: Watch) {
    3 * w.d + w.c < LEADER_REFRESH
  }

  // ----- the invariant -------------------------------------------------------------------------

  function Until(s: Sys, w: Watch): Time
    requires w.i < |s.nodes| && s.nodes[w.i].role.Leader?
  {
    s.nodes[w.i].role.until
  }

  /** It leads, with too few votes for the next renewal so far. */
  ghost predicate Leading(s: Sys, w: Watch) {
    && w.i < |s.nodes| && s.nodes[w.i].role.Leader? && s.nodes[w.i].role.term == w.term
    && |s.nodes[w.i].role.have| < s.nodes[w.i].role.need
    && w.start + LEADER_REFRESH < Until(s, w)
  }

  /** A request to `f` that is still under way will reach it before its lease runs out, and dates
      from the round that gave the leader its present lease. */
  ghost predicate Reaching(s: Sys, h: seq<Moment>, w: Watch, f: NodeId, p: Packet)
    requires Leading(s, w) && f < |s.nodes| && s.nodes[f].role.Follower?
  {
    && p in s.net && Asks(p, w) && p.dst == f && w.start <= p.sent && !Delivered(h, p)
    && Until(s, w) <= p.sent + 2 * w.d + LEADER_DURATION
    && p.sent + w.d < s.nodes[f].role.until
  }

  /** `f` follows the leader, under a lease that ends not long before the leader's, or is about
      to be extended. */
  ghost predicate Behind(s: Sys, h: seq<Moment>, w: Watch, f: NodeId)
    requires Leading(s, w)
  {
    && f < |s.nodes| && s.nodes[f].role.Following(w.i)
    && (Until(s, w) <= s.nodes[f].role.until + 2 * w.d || exists p :: Reaching(s, h, w, f, p))
  }

  ghost predicate AllBehind(s: Sys, h: seq<Moment>, w: Watch)
    requires Leading(s, w)
  {
    forall f: NodeId :: f in w.q && f != w.i ==> Behind(s, h, w, f)
  }

  /** A round of requests, all sent at once. */
  datatype Round = Round(sent: Time, msg: Msg)

  function RequestTo(w: Watch, r: Round, f: NodeId): Packet {
    Packet(w.i, f, r.sent, r.msg)
  }

  ghost predicate Answering(s: Sys, h: seq<Moment>, w: Watch, r: Round, f: NodeId, at: Time) {
    var p := Packet(f, w.i, at, VoteRes(true, w.term));
    r.sent <= at <= r.sent + w.d && p in s.net && !Delivered(h, p)
  }

  /** What has become of the round at `f`: the request is under way, or the answer is, or the
      answer has been counted. */
  ghost predicate Underway(s: Sys, h: seq<Moment>, w: Watch, r: Round, f: NodeId)
    requires Leading(s, w)
  {
    && RequestTo(w, r, f) in s.net
    && (!Delivered(h, RequestTo(w, r, f)) || (exists at :: Answering(s, h, w, r, f, at)) || f in s.nodes[w.i].role.have)
  }

  /** No cron yet in the last half of the present lease; or the round the first one started. */
  ghost predicate RoundOk(s: Sys, h: seq<Moment>, w: Watch, r: Option<Round>)
    requires Leading(s, w)
  {
    match r
    case None => forall x: nat :: CronAtMoment(h, w, x) ==> h[x].at + LEADER_REFRESH < Until(s, w)
    case Some(r) =>
      && r.msg.VoteReq? && r.msg.term == w.term && w.start <= r.sent
      && Until(s, w) <= r.sent + LEADER_REFRESH <= Until(s, w) + w.c
      && forall f: NodeId :: f in w.q ==> Underway(s, h, w, r, f)
  }

  ghost predicate VoteMoment(h: seq<Moment>, w: Watch, x: nat) {
    x < |h| && h[x].a.Deliver? && Answers(h[x].a.p, w) && h[x].a.p.msg == VoteRes(true, w.term)
  }

  /** Every vote delivered in the last half of the present lease is counted. */
  ghost predicate VotesCounted(s: Sys, h: seq<Moment>, w: Watch)
    requires Leading(s, w)
  {
    forall x: nat :: VoteMoment(h, w, x) && Until(s, w) <= h[x].at + LEADER_REFRESH ==>
      h[x].a.p.src in s.nodes[w.i].role.have
  }

  ghost predicate AskMoment(h: seq<Moment>, w: Watch, x: nat, f: NodeId) {
    x < |h| && h[x].a.Deliver? && Asks(h[x].a.p, w) && h[x].a.p.dst == f
  }

  /** A follower that was asked holds its lease from then on. */
  ghost predicate Extended(s: Sys, h: seq<Moment>, w: Watch) {
    forall x: nat, f: NodeId ::
      AskMoment(h, w, x, f) && f in w.q && f != w.i && f < |s.nodes| && s.nodes[f].role.Follower? ==>
        h[x].a.p.sent + LEADER_DURATION <= s.nodes[f].role.until
  }

  /** A request since `start` was sent by cron, to all nodes alike; older ones are too old to be
      delivered. */
  ghost predicate AskedByCron(s: Sys, h: seq<Moment>, w: Watch, p: Packet) {
    Asks(p, w) ==>
      || p.sent + w.d < w.start
      || (&& w.start <= p.sent && (exists x: nat :: CronAtMoment(h, w, x) && h[x].at == p.sent)
          && forall f: NodeId :: f < |s.nodes| ==> Packet(w.i, f, p.sent, p.msg) in s.net)
  }

  /** An answer since `start` follows a request within `w.d`; older ones are too old. */
  ghost predicate AnsweredInTime(s: Sys, w: Watch, p: Packet) {
    Answers(p, w) && p.msg.success ==>
      || p.sent + w.d < w.start
      || exists r :: Prompting(s, w, p, r)
  }

  ghost predicate Prompting(s: Sys, w: Watch, p: Packet, r: Packet) {
    r in s.net && Asks(r, w) && w.start <= r.sent && p.sent <= r.sent + w.d
  }

  ghost predicate NetOk(s: Sys, h: seq<Moment>, w: Watch) {
    forall p :: p in s.net ==> AskedByCron(s, h, w, p) && AnsweredInTime(s, w, p)
  }

  ghost predicate HistoryOk(s: Sys, h: seq<Moment>, w: Watch) {
    && w.start <= s.now
    && forall x: nat :: x < |h| ==>
         && w.start <= h[x].at <= s.now
         && (h[x].a.Deliver? ==> h[x].a.p in s.net && h[x].a.p.sent <= h[x].at)
  }

  ghost predicate StableInv(s: Sys, h: seq<Moment>, w: Watch, r: Option<Round>) {
    && LeaseInv(s) && RoomEnough(w) && |s.nodes| / 2 < |w.q| && w.q <= Upto(|s.nodes|)
    && HistoryOk(s, h, w) && Leading(s, w) && AllBehind(s, h, w) && RoundOk(s, h, w, r) && VotesCounted(s, h, w)
    && Extended(s, h, w) && NetOk(s, h, w)
  }

  // ----- nothing runs out ----------------------------------------------------------------------

  /** As long as a round has not led to a renewal, some member's part of it is under way. */
  lemma SomebodyMissing(s: Sys, h: seq<Moment>, w: Watch) returns (f: NodeId)
    requires StableInv(s, h, w, None) || exists r :: StableInv(s, h, w, Some(r))
    ensures f in w.q && f !in s.nodes[w.i].role.have
  {
    var r := s.nodes[w.i].role;
    assert RoleOk(r, w.i, |s.nodes|, s.now, s.net);
    NoDupSize(r.have);
    if forall f :: f in w.q ==> f in r.have {
      assert w.q <= SetOf(r.have);
      SubsetSize(w.q, SetOf(r.have));
      assert false;
    }
    f :| f in w.q && f !in r.have;
  }

  /** A round is over, one way or the other, 2 d after it began. */
  lemma RoundEnds(s: Sys, h: seq<Moment>, w: Watch, r: Round)
    requires StableInv(s, h, w, Some(r)) && NetOnTime(s, h, w)
    ensures s.now <= r.sent + 2 * w.d
  {
    var f := SomebodyMissing(s, h, w);
    assert Underway(s, h, w, r, f);
    if Delivered(h, RequestTo(w, r, f)) {
      var at :| Answering(s, h, w, r, f, at);
      assert Answers(Packet(f, w.i, at, VoteRes(true, w.term)), w);
    }
  }

  lemma LeaderInTime(s: Sys, h: seq<Moment>, w: Watch, r: Option<Round>)
    requires StableInv(s, h, w, r) && NetOnTime(s, h, w) && CronOnTime(s, h, w)
    ensures s.now < Until(s, w)
    ensures r.None? ==> s.now + LEADER_REFRESH < Until(s, w) + w.c
    ensures r.Some? ==> s.now <= r.value.sent + 2 * w.d
  {
    if r.Some? {
      RoundEnds(s, h, w, r.value);
    } else if s.now > w.start + w.c {
      var x: nat :| CronAtMoment(h, w, x) && s.now <= h[x].at + w.c;
    }
  }

  lemma FollowerInTime(s: Sys, h: seq<Moment>, w: Watch, r: Option<Round>, f: NodeId)
    requires StableInv(s, h, w, r) && NetOnTime(s, h, w) && CronOnTime(s, h, w) && f in w.q && f != w.i
    ensures Behind(s, h, w, f) && s.now < s.nodes[f].role.until
  {
    assert Behind(s, h, w, f);
    LeaderInTime(s, h, w, r);
    if Until(s, w) > s.nodes[f].role.until + 2 * w.d {
      var p :| Reaching(s, h, w, f, p);
    } else if r.Some? {
      var p := RequestTo(w, r.value, f);
      assert Underway(s, h, w, r.value, f);
      if Delivered(h, p) {
        var x :| 0 <= x < |h| && h[x].a == Deliver(p);
        assert AskMoment(h, w, x, f);
      }
    }
  }

  // ----- what a step sends ---------------------------------------------------------------------

  /** The history after one more step. */
  function More(s: Sys, a: Action, h: seq<Moment>): (r: seq<Moment>) {
    h + [Moment(s.now, a)]
  }

  lemma DeliveredMore(s: Sys, a: Action, h: seq<Moment>, p: Packet)
    ensures Delivered(More(s, a, h), p) <==> Delivered(h, p) || a == Deliver(p)
  {
    var h' := More(s, a, h);
    if Delivered(h, p) {
      var x :| 0 <= x < |h| && h[x].a == Deliver(p);
      assert h'[x].a == Deliver(p);
    }
    if a == Deliver(p) {
      assert h'[|h|].a == Deliver(p);
    }
  }

  /** Everything the leader and its followers rely on at one moment: nothing has run out. */
  ghost predicate Holding(s: Sys, w: Watch) {
    && LeaseInv(s) && w.i < |s.nodes| && w.q <= Upto(|s.nodes|)
    && s.nodes[w.i].role.Leader? && s.nodes[w.i].role.term == w.term && s.now < s.nodes[w.i].role.until
    && forall f: NodeId :: f in w.q && f != w.i ==> s.nodes[f].role.Following(w.i) && s.now < s.nodes[f].role.until
  }

  lemma Holds(s: Sys, h: seq<Moment>, w: Watch, r: Option<Round>)
    requires StableInv(s, h, w, r) && NetOnTime(s, h, w) && CronOnTime(s, h, w)
    ensures Holding(s, w)
  {
    LeaderInTime(s, h, w, r);
    forall f: NodeId | f in w.q && f != w.i
      ensures s.nodes[f].role.Following(w.i) && s.now < s.nodes[f].role.until
    {
      FollowerInTime(s, h, w, r, f);
    }
  }

  /** Only its own cron asks for votes for the leader, and it asks everybody. */
  lemma NewAsk(s: Sys, a: Action, w: Watch, p: Packet)
    requires Holding(s, w) && Enabled(s, a) && p in Next(s, a).net && p !in s.net && Asks(p, w)
    ensures a == CronAt(w.i) && p.sent == s.now
    ensures forall f: NodeId :: f < |s.nodes| ==> Packet(w.i, f, s.now, p.msg) in Next(s, a).net
  {
    SentVote(s, a, p);
    var e := EffectOf(s, a);
    assert a.CronAt?;
    assert Broadcast(p.msg) in e.sends;
  }

  /** Only a request of the leader is answered with a vote for it. */
  lemma NewAnswer(s: Sys, a: Action, w: Watch, p: Packet)
    requires Holding(s, w) && Enabled(s, a) && p in Next(s, a).net && p !in s.net && Answers(p, w) && p.msg.success
    ensures a.Deliver? && Asks(a.p, w) && p.sent == s.now
  {
    SentVote(s, a, p);
  }

  lemma NetOkStep(s: Sys, a: Action, h: seq<Moment>, w: Watch)
    requires Holding(s, w) && HistoryOk(s, h, w) && NetOk(s, h, w) && Enabled(s, a) && NotLate(s, a, w)
    ensures NetOk(Next(s, a), More(s, a, h), w)
  {
    var s', h' := Next(s, a), More(s, a, h);
    forall p | p in s'.net
      ensures AskedByCron(s', h', w, p)
    {
      AskStep(s, a, h, w, p);
    }
    forall p | p in s'.net
      ensures AnsweredInTime(s', w, p)
    {
      AnswerStep(s, a, h, w, p);
    }
  }

  lemma AskStep(s: Sys, a: Action, h: seq<Moment>, w: Watch, p: Packet)
    requires Holding(s, w) && HistoryOk(s, h, w) && NetOk(s, h, w) && Enabled(s, a) && p in Next(s, a).net
    ensures AskedByCron(Next(s, a), More(s, a, h), w, p)
  {
    var h' := More(s, a, h);
    if Asks(p, w) {
      if p in s.net {
        assert AskedByCron(s, h, w, p);
        if w.start <= p.sent + w.d {
          var x: nat :| CronAtMoment(h, w, x) && h[x].at == p.sent;
          assert CronAtMoment(h', w, x) && h'[x].at == p.sent;
        }
      } else {
        NewAsk(s, a, w, p);
        assert CronAtMoment(h', w, |h|) && h'[|h|].at == p.sent;
      }
    }
  }

  lemma AnswerStep(s: Sys, a: Action, h: seq<Moment>, w: Watch, p: Packet)
    requires Holding(s, w) && HistoryOk(s, h, w) && NetOk(s, h, w) && Enabled(s, a) && NotLate(s, a, w)
    requires p in Next(s, a).net
    ensures AnsweredInTime(Next(s, a), w, p)
  {
    var s' := Next(s, a);
    if Answers(p, w) && p.msg.success {
      if p in s.net {
        assert AnsweredInTime(s, w, p);
        if w.start <= p.sent + w.d {
          var r :| Prompting(s, w, p, r);
          assert Prompting(s', w, p, r);
        }
      } else {
        NewAnswer(s, a, w, p);
        assert AskedByCron(s, h, w, a.p);
        assert Prompting(s', w, p, a.p);
      }
    }
  }

  lemma HistoryStep(s: Sys, a: Action, h: seq<Moment>, w: Watch)
    requires LeaseInv(s) && HistoryOk(s, h, w) && Enabled(s, a)
    ensures HistoryOk(Next(s, a), More(s, a, h), w)
  {
    if a.Deliver? {
      assert PromiseKept(s, a.p);
    }
  }

  // ----- steps that move none of the roles -----------------------------------------------------

  /** The step delivers a vote that the leader counts. */
  predicate BringsVote(a: Action, w: Watch) {
    a.Deliver? && Answers(a.p, w) && a.p.msg == VoteRes(true, w.term)
  }

  predicate BringsAsk(a: Action, w: Watch) {
    a.Deliver? && Asks(a.p, w)
  }

  /** From `s` to `s'` nothing is taken off the wire, and the roles are the same. */
  ghost predicate SameRoles(s: Sys, s': Sys, w: Watch) {
    && |s'.nodes| == |s.nodes| && s.net <= s'.net && w.i < |s.nodes| && w.q <= Upto(|s.nodes|)
    && s'.nodes[w.i].role == s.nodes[w.i].role
    && forall f: NodeId :: f in w.q ==> s'.nodes[f].role == s.nodes[f].role
  }

  /** A node whose lease runs refuses everybody but its leader. */
  lemma RefusesOthers(n: Node, now: Time, p: Packet)
    requires n.role.ValidLeader(now) && p.msg.VoteReq? && !n.role.Following(p.src) && p.src != n.id
    ensures HandleVoteReq(n, now, p.src, p.src, p.src, p.msg).node.role == n.role
  {
  }

  lemma IgnoresOthers(n: Node, now: Time, p: Packet)
    requires n.role.ValidLeader(now) && p.msg.VoteRes?
    requires n.role.Leader? ==> p.msg != VoteRes(true, n.role.term)
    ensures HandleVoteRes(n, now, p.src, p.src, p.src, p.msg).node.role == n.role
  {
  }

  lemma RoleStays(s: Sys, a: Action, w: Watch)
    requires Holding(s, w) && Enabled(s, a) && !a.Tick? && !BringsVote(a, w) && !BringsAsk(a, w)
    requires Actor(a) == w.i || Actor(a) in w.q
    ensures EffectOf(s, a).node.role == s.nodes[Actor(a)].role
  {
    var n := s.nodes[Actor(a)];
    assert n.id == Actor(a) && n.role.ValidLeader(s.now);
    if a.Deliver? && a.p.msg.VoteReq? {
      if a.p.src != n.id {
        RefusesOthers(n, s.now, a.p);
      }
    } else if a.Deliver? && a.p.msg.VoteRes? {
      IgnoresOthers(n, s.now, a.p);
    }
  }

  lemma RolesStay(s: Sys, a: Action, w: Watch)
    requires Holding(s, w) && Enabled(s, a) && !BringsVote(a, w) && !BringsAsk(a, w)
    ensures SameRoles(s, Next(s, a), w)
  {
    if !a.Tick? && (Actor(a) == w.i || Actor(a) in w.q) {
      RoleStays(s, a, w);
    }
  }

  lemma StillBehind(s: Sys, a: Action, h: seq<Moment>, w: Watch, s': Sys)
    requires Leading(s, w) && AllBehind(s, h, w) && SameRoles(s, s', w) && !BringsAsk(a, w)
    ensures Leading(s', w) && AllBehind(s', More(s, a, h), w)
  {
    forall f: NodeId | f in w.q && f != w.i
      ensures Behind(s', More(s, a, h), w, f)
    {
      assert Behind(s, h, w, f);
      if Until(s, w) > s.nodes[f].role.until + 2 * w.d {
        var p :| Reaching(s, h, w, f, p);
        DeliveredMore(s, a, h, p);
        assert Reaching(s', More(s, a, h), w, f, p);
      }
    }
  }

  lemma StillCounted(s: Sys, a: Action, h: seq<Moment>, w: Watch, s': Sys)
    requires Leading(s, w) && VotesCounted(s, h, w) && Extended(s, h, w) && SameRoles(s, s', w)
    requires !BringsAsk(a, w) && !BringsVote(a, w)
    ensures Leading(s', w) && VotesCounted(s', More(s, a, h), w) && Extended(s', More(s, a, h), w)
  {
    var h' := More(s, a, h);
    forall x: nat | VoteMoment(h', w, x)
      ensures VoteMoment(h, w, x) && h[x] == h'[x]
    {
    }
    forall x: nat, f: NodeId | AskMoment(h', w, x, f)
      ensures AskMoment(h, w, x, f) && h[x] == h'[x]
    {
    }
  }

  /** What has become of a round at `f` is not changed by the delivery of anything else. */
  lemma StillUnderway(s: Sys, a: Action, h: seq<Moment>, w: Watch, s': Sys, r: Round, f: NodeId)
    requires Leading(s, w) && Underway(s, h, w, r, f) && s.net <= s'.net && Leading(s', w)
    requires f in s.nodes[w.i].role.have ==> f in s'.nodes[w.i].role.have
    requires a != Deliver(RequestTo(w, r, f)) && !(BringsVote(a, w) && a.p.src == f)
    ensures Underway(s', More(s, a, h), w, r, f)
  {
    DeliveredMore(s, a, h, RequestTo(w, r, f));
    if at :| Answering(s, h, w, r, f, at) {
      DeliveredMore(s, a, h, Packet(f, w.i, at, VoteRes(true, w.term)));
      assert Answering(s', More(s, a, h), w, r, f, at);
    }
  }

  lemma StillRound(s: Sys, a: Action, h: seq<Moment>, w: Watch, r: Option<Round>, s': Sys)
    requires Leading(s, w) && RoundOk(s, h, w, r) && SameRoles(s, s', w)
    requires !BringsAsk(a, w) && !BringsVote(a, w)
    requires r.None? && a == CronAt(w.i) ==> s.now + LEADER_REFRESH < Until(s, w)
    ensures Leading(s', w) && RoundOk(s', More(s, a, h), w, r)
  {
    var h' := More(s, a, h);
    if r.None? {
      forall x: nat | CronAtMoment(h', w, x)
        ensures h'[x].at + LEADER_REFRESH < Until(s, w)
      {
        if x < |h| {
          assert CronAtMoment(h, w, x);
        }
      }
    } else {
      forall f: NodeId | f in w.q
        ensures Underway(s', h', w, r.value, f)
      {
        assert Underway(s, h, w, r.value, f);
        StillUnderway(s, a, h, w, s', r.value, f);
      }
    }
  }

  // ----- a new round ---------------------------------------------------------------------------

  /** The first cron in the last half of a lease asks everybody. */
  lemma CronAsks(s: Sys, w: Watch, f: NodeId)
    requires Holding(s, w) && Enabled(s, CronAt(w.i)) && f < |s.nodes| && s.now + LEADER_REFRESH >= Until(s, w)
    ensures Packet(w.i, f, s.now, Ballot(s.nodes[w.i], w.term)) in Next(s, CronAt(w.i)).net
  {
    assert Broadcast(Ballot(s.nodes[w.i], w.term)) in EffectOf(s, CronAt(w.i)).sends;
  }

  lemma NewRound(s: Sys, h: seq<Moment>, w: Watch) returns (r: Round)
    requires StableInv(s, h, w, None) && NetOnTime(s, h, w) && CronOnTime(s, h, w)
    requires Enabled(s, CronAt(w.i)) && s.now + LEADER_REFRESH >= Until(s, w)
    ensures SameRoles(s, Next(s, CronAt(w.i)), w)
    ensures Leading(Next(s, CronAt(w.i)), w) && RoundOk(Next(s, CronAt(w.i)), More(s, CronAt(w.i), h), w, Some(r))
  {
    var a := CronAt(w.i);
    Holds(s, h, w, None);
    RolesStay(s, a, w);
    LeaderInTime(s, h, w, None);
    r := Round(s.now, Ballot(s.nodes[w.i], w.term));
    forall f: NodeId | f in w.q
      ensures Underway(Next(s, a), More(s, a, h), w, r, f)
    {
      CronAsks(s, w, f);
      AskedBefore(s, h, w, RequestTo(w, r, f));
      DeliveredMore(s, a, h, RequestTo(w, r, f));
    }
  }

  /** No request delivered so far was sent in the last half of the lease. */
  lemma AskedBefore(s: Sys, h: seq<Moment>, w: Watch, p: Packet)
    requires HistoryOk(s, h, w) && Leading(s, w) && RoundOk(s, h, w, None) && NetOk(s, h, w)
    ensures Asks(p, w) && Delivered(h, p) ==> p.sent + LEADER_REFRESH < Until(s, w)
  {
    if Asks(p, w) && Delivered(h, p) {
      var x :| 0 <= x < |h| && h[x].a == Deliver(p);
      assert AskedByCron(s, h, w, p);
      if w.start <= p.sent + w.d {
        var y: nat :| CronAtMoment(h, w, y) && h[y].at == p.sent;
      }
    }
  }

  // ----- a request arrives ---------------------------------------------------------------------

  /** The node asked follows for a full lease from now on, and says so. */
  lemma AskMoves(s: Sys, a: Action, w: Watch)
    requires Holding(s, w) && Enabled(s, a) && BringsAsk(a, w)
    ensures var s', g := Next(s, a), a.p.dst;
      && |s'.nodes| == |s.nodes| && s.net <= s'.net && s'.nodes[w.i].role == s.nodes[w.i].role
      && (forall f: NodeId :: f in w.q && f != g ==> s'.nodes[f].role == s.nodes[f].role)
      && (g in w.q ==> Packet(g, w.i, s.now, VoteRes(true, a.p.msg.term)) in s'.net)
      && (g in w.q && g != w.i ==>
            s'.nodes[g].role.Following(w.i) && s'.nodes[g].role.until == s.now + LEADER_DURATION)
  {
    var g, e := a.p.dst, EffectOf(s, a);
    assert s.nodes[g].id == g;
    if g in w.q {
      assert ToPeer(w.i, VoteRes(true, a.p.msg.term)) in e.sends;
    }
  }

  lemma AskBehind(s: Sys, a: Action, h: seq<Moment>, w: Watch)
    requires Holding(s, w) && Enabled(s, a) && BringsAsk(a, w) && Leading(s, w) && AllBehind(s, h, w)
    ensures Leading(Next(s, a), w) && AllBehind(Next(s, a), More(s, a, h), w)
  {
    var s', h' := Next(s, a), More(s, a, h);
    AskMoves(s, a, w);
    forall f: NodeId | f in w.q && f != w.i
      ensures Behind(s', h', w, f)
    {
      assert Behind(s, h, w, f);
      assert RoleOk(s.nodes[f].role, f, |s.nodes|, s.now, s.net);
      if Until(s, w) > s.nodes[f].role.until + 2 * w.d {
        var p :| Reaching(s, h, w, f, p);
        assert PromiseKept(s, p);
        DeliveredMore(s, a, h, p);
        assert f != a.p.dst ==> Reaching(s', h', w, f, p);
      }
    }
  }

  lemma AskExtends(s: Sys, a: Action, h: seq<Moment>, w: Watch)
    requires Holding(s, w) && Enabled(s, a) && BringsAsk(a, w) && Leading(s, w)
    requires VotesCounted(s, h, w) && Extended(s, h, w)
    ensures Leading(Next(s, a), w) && VotesCounted(Next(s, a), More(s, a, h), w)
    ensures Extended(Next(s, a), More(s, a, h), w)
  {
    var s', h' := Next(s, a), More(s, a, h);
    AskMoves(s, a, w);
    assert PromiseKept(s, a.p);
    forall x: nat | VoteMoment(h', w, x)
      ensures VoteMoment(h, w, x) && h[x] == h'[x]
    {
    }
    forall x: nat, f: NodeId | AskMoment(h', w, x, f) && f in w.q && f != w.i && s'.nodes[f].role.Follower?
      ensures h'[x].a.p.sent + LEADER_DURATION <= s'.nodes[f].role.until
    {
      assert RoleOk(s.nodes[f].role, f, |s.nodes|, s.now, s.net);
      if x < |h| {
        assert AskMoment(h, w, x, f);
      }
    }
  }

  /** The answer just sent is new, or was counted. */
  lemma AskAnswered(s: Sys, a: Action, h: seq<Moment>, w: Watch, r: Round)
    requires Holding(s, w) && HistoryOk(s, h, w) && Enabled(s, a) && BringsAsk(a, w) && NotLate(s, a, w)
    requires Leading(s, w) && RoundOk(s, h, w, Some(r)) && VotesCounted(s, h, w)
    requires a.p == RequestTo(w, r, a.p.dst) && a.p.dst in w.q
    ensures Leading(Next(s, a), w) && Underway(Next(s, a), More(s, a, h), w, r, a.p.dst)
  {
    var f, s', h' := a.p.dst, Next(s, a), More(s, a, h);
    var v := Packet(f, w.i, s.now, VoteRes(true, w.term));
    AskMoves(s, a, w);
    assert PromiseKept(s, a.p);
    DeliveredMore(s, a, h, v);
    if Delivered(h, v) {
      var x :| 0 <= x < |h| && h[x].a == Deliver(v);
      assert VoteMoment(h, w, x);
    } else {
      assert Answering(s', h', w, r, f, s.now);
    }
  }

  lemma AskRound(s: Sys, a: Action, h: seq<Moment>, w: Watch, r: Option<Round>)
    requires Holding(s, w) && HistoryOk(s, h, w) && Enabled(s, a) && BringsAsk(a, w) && NotLate(s, a, w)
    requires Leading(s, w) && RoundOk(s, h, w, r) && VotesCounted(s, h, w)
    ensures Leading(Next(s, a), w) && RoundOk(Next(s, a), More(s, a, h), w, r)
  {
    var s', h' := Next(s, a), More(s, a, h);
    AskMoves(s, a, w);
    if r.None? {
      forall x: nat | CronAtMoment(h', w, x)
        ensures CronAtMoment(h, w, x) && h[x] == h'[x]
      {
      }
    } else {
      forall f: NodeId | f in w.q
        ensures Underway(s', h', w, r.value, f)
      {
        if a.p == RequestTo(w, r.value, f) {
          AskAnswered(s, a, h, w, r.value);
        } else {
          StillUnderway(s, a, h, w, s', r.value, f);
        }
      }
    }
  }

  // ----- a vote arrives ------------------------------------------------------------------------

  lemma VoteMovesLeader(s: Sys, a: Action, w: Watch)
    requires Holding(s, w) && Enabled(s, a) && BringsVote(a, w)
    ensures var s' := Next(s, a);
      && |s'.nodes| == |s.nodes| && s.net <= s'.net
      && s'.nodes[w.i].role == RoleAfterVote(s.nodes[w.i].role, s.now, a.p.src)
      && (forall f: NodeId :: f in w.q && f != w.i ==> s'.nodes[f].role == s.nodes[f].role)
  {
    assert s.nodes[w.i].role.ValidLeader(s.now);
  }

  /** The vote does not complete a quorum. */
  predicate TooFew(s: Sys, a: Action, w: Watch)
    requires w.i < |s.nodes| && s.nodes[w.i].role.Leader? && BringsVote(a, w)
  {
    |Counted(s.nodes[w.i].role.have, a.p.src)| < s.nodes[w.i].role.need
  }

  lemma VoteCounts(s: Sys, a: Action, h: seq<Moment>, w: Watch, r: Option<Round>)
    requires Holding(s, w) && Enabled(s, a) && BringsVote(a, w) && TooFew(s, a, w)
    requires Leading(s, w) && RoundOk(s, h, w, r) && VotesCounted(s, h, w)
    ensures Leading(Next(s, a), w) && RoundOk(Next(s, a), More(s, a, h), w, r)
    ensures VotesCounted(Next(s, a), More(s, a, h), w)
  {
    var s', h' := Next(s, a), More(s, a, h);
    VoteMovesLeader(s, a, w);
    forall x: nat | VoteMoment(h', w, x) && Until(s, w) <= h'[x].at + LEADER_REFRESH
      ensures h'[x].a.p.src in s'.nodes[w.i].role.have
    {
      if x < |h| {
        assert VoteMoment(h, w, x);
      }
    }
    if r.None? {
      forall x: nat | CronAtMoment(h', w, x)
        ensures CronAtMoment(h, w, x) && h[x] == h'[x]
      {
      }
    } else {
      forall f: NodeId | f in w.q
        ensures Underway(s', h', w, r.value, f)
      {
        if f != a.p.src {
          StillUnderway(s, a, h, w, s', r.value, f);
        } else {
          assert Underway(s, h, w, r.value, f);
        }
      }
    }
  }

  lemma VoteExtended(s: Sys, a: Action, h: seq<Moment>, w: Watch)
    requires Holding(s, w) && Enabled(s, a) && BringsVote(a, w) && Extended(s, h, w)
    ensures Extended(Next(s, a), More(s, a, h), w)
  {
    VoteMovesLeader(s, a, w);
    forall x: nat, f: NodeId | AskMoment(More(s, a, h), w, x, f)
      ensures AskMoment(h, w, x, f) && h[x] == More(s, a, h)[x]
    {
    }
  }

  lemma VoteBehind(s: Sys, a: Action, h: seq<Moment>, w: Watch)
    requires Holding(s, w) && Enabled(s, a) && BringsVote(a, w) && TooFew(s, a, w)
    requires Leading(s, w) && AllBehind(s, h, w)
    ensures Leading(Next(s, a), w) && AllBehind(Next(s, a), More(s, a, h), w)
  {
    var s', h' := Next(s, a), More(s, a, h);
    VoteMovesLeader(s, a, w);
    forall f: NodeId | f in w.q && f != w.i
      ensures Behind(s', h', w, f)
    {
      assert Behind(s, h, w, f);
      if Until(s, w) > s.nodes[f].role.until + 2 * w.d {
        var p :| Reaching(s, h, w, f, p);
        DeliveredMore(s, a, h, p);
        assert Reaching(s', h', w, f, p);
      }
    }
  }

  // ----- a vote completes a quorum -------------------------------------------------------------

  /** A renewal at this moment goes back to requests to everybody, sent within 2 d. */
  lemma RecentAsk(s: Sys, a: Action, h: seq<Moment>, w: Watch, r: Option<Round>, f: NodeId) returns (p: Packet)
    requires StableInv(s, h, w, r) && NetOnTime(s, h, w) && CronOnTime(s, h, w)
    requires Enabled(s, a) && BringsVote(a, w) && NotLate(s, a, w) && f in w.q
    ensures p in s.net && Asks(p, w) && p.dst == f && w.start <= p.sent
    ensures s.now <= p.sent + 2 * w.d && p.sent + LEADER_REFRESH <= Until(s, w) + w.c
  {
    LeaderInTime(s, h, w, r);
    if r.Some? {
      assert Underway(s, h, w, r.value, f);
      p := RequestTo(w, r.value, f);
    } else {
      assert AnsweredInTime(s, w, a.p);
      var ask :| Prompting(s, w, a.p, ask);
      assert AskedByCron(s, h, w, ask);
      var x: nat :| CronAtMoment(h, w, x) && h[x].at == ask.sent;
      p := Packet(w.i, f, ask.sent, ask.msg);
    }
  }

  lemma RenewedBehind(s: Sys, a: Action, h: seq<Moment>, w: Watch, r: Option<Round>, f: NodeId)
    requires StableInv(s, h, w, r) && NetOnTime(s, h, w) && CronOnTime(s, h, w)
    requires Enabled(s, a) && BringsVote(a, w) && NotLate(s, a, w) && f in w.q && f != w.i
    requires Leading(Next(s, a), w) && Until(Next(s, a), w) == s.now + LEADER_DURATION
    ensures Behind(Next(s, a), More(s, a, h), w, f)
  {
    var s', h' := Next(s, a), More(s, a, h);
    Holds(s, h, w, r);
    VoteMovesLeader(s, a, w);
    assert Behind(s, h, w, f);
    if Until(s, w) > s.nodes[f].role.until + 2 * w.d {
      var p :| Reaching(s, h, w, f, p);
      DeliveredMore(s, a, h, p);
      assert Reaching(s', h', w, f, p);
    } else {
      var p := RecentAsk(s, a, h, w, r, f);
      DeliveredMore(s, a, h, p);
      if Delivered(h, p) {
        var x :| 0 <= x < |h| && h[x].a == Deliver(p);
        assert AskMoment(h, w, x, f);
      } else {
        assert Reaching(s', h', w, f, p);
      }
    }
  }

  lemma Renewed(s: Sys, a: Action, h: seq<Moment>, w: Watch, r: Option<Round>)
    requires StableInv(s, h, w, r) && NetOnTime(s, h, w) && CronOnTime(s, h, w)
    requires Enabled(s, a) && BringsVote(a, w) && NotLate(s, a, w) && !TooFew(s, a, w)
    ensures Leading(Next(s, a), w) && AllBehind(Next(s, a), More(s, a, h), w)
    ensures RoundOk(Next(s, a), More(s, a, h), w, None) && VotesCounted(Next(s, a), More(s, a, h), w)
  {
    var s', h' := Next(s, a), More(s, a, h);
    Holds(s, h, w, r);
    VoteMovesLeader(s, a, w);
    assert Leading(s', w) && Until(s', w) == s.now + LEADER_DURATION;
    HistoryStep(s, a, h, w);
    forall f: NodeId | f in w.q && f != w.i
      ensures Behind(s', h', w, f)
    {
      RenewedBehind(s, a, h, w, r, f);
    }
  }

  // ----- every step ----------------------------------------------------------------------------

  /** Every step keeps the invariant, with the same round, a new one or none. */
  lemma StableStep(s: Sys, a: Action, h: seq<Moment>, w: Watch, r: Option<Round>) returns (r': Option<Round>)
    requires StableInv(s, h, w, r) && NetOnTime(s, h, w) && CronOnTime(s, h, w)
    requires Enabled(s, a) && NotLate(s, a, w)
    ensures StableInv(Next(s, a), More(s, a, h), w, r')
  {
    var s' := Next(s, a);
    Holds(s, h, w, r);
    LeaseStep(s, a);
    HistoryStep(s, a, h, w);
    NetOkStep(s, a, h, w);
    ClockAndSize(s, a);
    if BringsAsk(a, w) {
      r' := r;
      AskBehind(s, a, h, w);
      AskExtends(s, a, h, w);
      AskRound(s, a, h, w, r);
    } else if BringsVote(a, w) {
      r' := VoteStep(s, a, h, w, r);
    } else {
      r' := QuietStep(s, a, h, w, r);
    }
  }

  lemma VoteStep(s: Sys, a: Action, h: seq<Moment>, w: Watch, r: Option<Round>) returns (r': Option<Round>)
    requires StableInv(s, h, w, r) && NetOnTime(s, h, w) && CronOnTime(s, h, w)
    requires Enabled(s, a) && BringsVote(a, w) && NotLate(s, a, w)
    ensures Leading(Next(s, a), w) && AllBehind(Next(s, a), More(s, a, h), w)
    ensures RoundOk(Next(s, a), More(s, a, h), w, r')
    ensures VotesCounted(Next(s, a), More(s, a, h), w) && Extended(Next(s, a), More(s, a, h), w)
  {
    Holds(s, h, w, r);
    VoteExtended(s, a, h, w);
    if TooFew(s, a, w) {
      r' := r;
      VoteCounts(s, a, h, w, r);
      VoteBehind(s, a, h, w);
    } else {
      r' := None;
      Renewed(s, a, h, w, r);
    }
  }

  lemma QuietStep(s: Sys, a: Action, h: seq<Moment>, w: Watch, r: Option<Round>) returns (r': Option<Round>)
    requires StableInv(s, h, w, r) && NetOnTime(s, h, w) && CronOnTime(s, h, w)
    requires Enabled(s, a) && !BringsVote(a, w) && !BringsAsk(a, w)
    ensures Leading(Next(s, a), w) && AllBehind(Next(s, a), More(s, a, h), w)
    ensures RoundOk(Next(s, a), More(s, a, h), w, r')
    ensures VotesCounted(Next(s, a), More(s, a, h), w) && Extended(Next(s, a), More(s, a, h), w)
  {
    var s' := Next(s, a);
    Holds(s, h, w, r);
    RolesStay(s, a, w);
    StillBehind(s, a, h, w, s');
    StillCounted(s, a, h, w, s');
    if r.None? && a == CronAt(w.i) && s.now + LEADER_REFRESH >= Until(s, w) {
      var begun := NewRound(s, h, w);
      r' := Some(begun);
    } else {
      r' := r;
      StillRound(s, a, h, w, r, s');
    }
  }

  // ----- whole runs ----------------------------------------------------------------------------

  /** The steps of a run from state `j` up to state `k`. */
  function History(tr: seq<Sys>, acts: seq<Action>, j: nat, k: nat): (h: seq<Moment>)
    requires j <= k <= |acts| <= |tr|
    ensures |h| == k - j
  {
    seq(k - j, x requires 0 <= x < k - j => Moment(tr[j + x].now, acts[j + x]))
  }

  /** The watch begins: the leader has more than half of its lease left, all of `q` follow it
      under leases that end no more than 2 d before its own, and no old request or vote for it
      can still be delivered within `d`. */
  ghost predicate Begins(s: Sys, w: Watch) {
    && s.now == w.start && |s.nodes| / 2 < |w.q| && w.q <= Upto(|s.nodes|)
    && Leading(s, w)
    && (forall f: NodeId :: f in w.q && f != w.i ==>
          s.nodes[f].role.Following(w.i) && Until(s, w) <= s.nodes[f].role.until + 2 * w.d)
    && forall p :: p in s.net && (Asks(p, w) || Answers(p, w)) ==> p.sent + w.d < w.start
  }

  /** From state `j` to state `k` of the run, cron and the votes for the leader are on time. */
  ghost predicate OnTime(tr: seq<Sys>, acts: seq<Action>, j: nat, k: nat, w: Watch)
    requires j <= k <= |acts| <= |tr| - 1
  {
    && (forall m :: j <= m <= k ==> OnTimeAt(tr, acts, j, m, w))
    && forall m :: j <= m < k ==> NotLate(tr[m], acts[m], w)
  }

  ghost predicate OnTimeAt(tr: seq<Sys>, acts: seq<Action>, j: nat, m: nat, w: Watch)
    requires j <= m <= |acts| <= |tr| - 1
  {
    NetOnTime(tr[m], History(tr, acts, j, m), w) && CronOnTime(tr[m], History(tr, acts, j, m), w)
  }

  lemma OnTimeBefore(tr: seq<Sys>, acts: seq<Action>, j: nat, k: nat, w: Watch)
    requires j < k <= |acts| <= |tr| - 1 && OnTime(tr, acts, j, k, w)
    ensures OnTime(tr, acts, j, k - 1, w)
    ensures OnTimeAt(tr, acts, j, k - 1, w) && NotLate(tr[k - 1], acts[k - 1], w)
  {
  }

  lemma StableBegins(s: Sys, w: Watch)
    requires LeaseInv(s) && RoomEnough(w) && Begins(s, w)
    ensures StableInv(s, [], w, None)
  {
    forall f: NodeId | f in w.q && f != w.i
      ensures Behind(s, [], w, f)
    {
    }
    forall p | p in s.net
      ensures AskedByCron(s, [], w, p) && AnsweredInTime(s, w, p)
    {
    }
  }

  lemma HistoryMore(tr: seq<Sys>, acts: seq<Action>, j: nat, k: nat)
    requires j < k <= |acts| <= |tr|
    ensures History(tr, acts, j, k) == More(tr[k - 1], acts[k - 1], History(tr, acts, j, k - 1))
  {
  }

  lemma HistoryNone(tr: seq<Sys>, acts: seq<Action>, j: nat)
    requires j <= |acts| <= |tr|
    ensures History(tr, acts, j, j) == []
  {
  }

  lemma {:induction false} StableHolds(tr: seq<Sys>, acts: seq<Action>, j: nat, k: nat, w: Watch)
      returns (r: Option<Round>)
    requires IsRun(tr, acts) && j <= k < |tr| && RoomEnough(w) && Begins(tr[j], w) && OnTime(tr, acts, j, k, w)
    ensures StableInv(tr[k], History(tr, acts, j, k), w, r)
    decreases k
  {
    if k == j {
      LeaseInvHolds(tr, acts, j);
      StableBegins(tr[j], w);
      HistoryNone(tr, acts, j);
      r := None;
    } else {
      OnTimeBefore(tr, acts, j, k, w);
      var before := StableHolds(tr, acts, j, k - 1, w);
      r := StableNext(tr, acts, j, k, w, before);
    }
  }

  lemma StableNext(tr: seq<Sys>, acts: seq<Action>, j: nat, k: nat, w: Watch, before: Option<Round>)
      returns (r: Option<Round>)
    requires j < k <= |acts| <= |tr| - 1 && StableInv(tr[k - 1], History(tr, acts, j, k - 1), w, before)
    requires Enabled(tr[k - 1], acts[k - 1]) && tr[k] == Next(tr[k - 1], acts[k - 1])
    requires OnTimeAt(tr, acts, j, k - 1, w) && NotLate(tr[k - 1], acts[k - 1], w)
    ensures StableInv(tr[k], History(tr, acts, j, k), w, r)
  {
    HistoryMore(tr, acts, j, k);
    r := StableStep(tr[k - 1], acts[k - 1], History(tr, acts, j, k - 1), w, before);
  }

  lemma HoldsOn(tr: seq<Sys>, acts: seq<Action>, j: nat, k: nat, w: Watch)
    requires IsRun(tr, acts) && j <= k < |tr| && RoomEnough(w) && Begins(tr[j], w) && OnTime(tr, acts, j, k, w)
    ensures Holding(tr[k], w) && |tr[k].nodes| / 2 < |w.q|
  {
    var r := StableHolds(tr, acts, j, k, w);
    assert OnTimeAt(tr, acts, j, k, w);
    Holds(tr[k], History(tr, acts, j, k), w, r);
  }

  /** A leader that a majority follows keeps its role, its term and its followers, all under
      leases that never run out, for as long as its cron runs at least every `c`, the votes it
      asks for arrive within `d` each way, and 3 d + c is less than six seconds. */
  lemma StableLeader(tr: seq<Sys>, acts: seq<Action>, j: nat, k: nat, w: Watch)
    requires IsRun(tr, acts) && j <= k < |tr| && RoomEnough(w) && Begins(tr[j], w) && OnTime(tr, acts, j, k, w)
    ensures w.i < |tr[k].nodes| && w.q <= Upto(|tr[k].nodes|)
    ensures tr[k].nodes[w.i].role.Leader? && tr[k].nodes[w.i].role.term == w.term
    ensures tr[k].now < tr[k].nodes[w.i].role.until
    ensures forall f: NodeId :: f in w.q && f != w.i ==>
      tr[k].nodes[f].role.Following(w.i) && tr[k].now < tr[k].nodes[f].role.until
  {
    HoldsOn(tr, acts, j, k, w);
  }

  lemma NobodyElse(s: Sys, a: Action, w: Watch, d: Time)
    requires Holding(s, w) && |s.nodes| / 2 < |w.q| && Enabled(s, a) && Fires(s, a)
    requires FreshQuorum(s, a, d) && d < LEADER_DURATION
    ensures Actor(a) == w.i
  {
    FiringEvidence(s, a);
    var g := a.p.dst;
    var x := Intersect(|s.nodes|, Quorum(s, a), w.q);
    if x != g {
      assert VotedWithin(s, x, g, d);
      var p :| p in s.net && p.src == x && p.dst == g && p.msg.VoteRes? && p.msg.success && s.now <= p.sent + d;
      assert PromiseKept(s, p);
    }
  }

  /** Nor does any other node become leader meanwhile, or have its lease renewed, on votes less
      than one lease old. */
  lemma SoleLeader(tr: seq<Sys>, acts: seq<Action>, j: nat, k: nat, w: Watch, d: Time)
    requires IsRun(tr, acts) && j <= k < |acts| && RoomEnough(w) && Begins(tr[j], w) && OnTime(tr, acts, j, k, w)
    requires Fires(tr[k], acts[k]) && FreshQuorum(tr[k], acts[k], d) && d < LEADER_DURATION
    ensures Actor(acts[k]) == w.i
  {
    HoldsOn(tr, acts, j, k, w);
    NobodyElse(tr[k], acts[k], w, d);
  }
}
