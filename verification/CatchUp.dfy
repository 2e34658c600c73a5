/** How fast a follower that lags behind catches up: one write, one Append, one answer. */
module CatchUp {
  import opened Types
  import opened LogSpec
  import opened Harpoon
  import opened Cluster
  import opened Leases
  import opened Journal
  import opened Replication
  import opened Reign

  /** `n` leads, with a log without gaps, and replicates to `g`. */
  ghost predicate Leads(n: Node, g: NodeId) {
    && n.role.Leader? && !n.halted && n.id != g
    && Sound(Entries(n.log)) && Faithful(n.log)
    && TermsAscend(Entries(n.log)) && LastTerm(Entries(n.log)) <= n.role.term
    && n.maxGenerated == |Entries(n.log)|
    && g in n.repPeers && n.repPeers[g].tok == g
  }

  ghost predicate Follows(g: Node, l: NodeId) {
    !g.halted && g.role.Following(l)
  }

  /** `n` leads, `g` follows it and holds a prefix of its log, and the last Append from `n` to
      `g` has been answered. */
  ghost predicate Settled(n: Node, g: Node) {
    && Leads(n, g.id) && Follows(g, n.id) && Entries(g.log) <= Entries(n.log)
    && n.repPeers[g.id].acceptedTxid == n.repPeers[g.id].maxSent == |Entries(g.log)|
    && n.repPeers[g.id].acceptedTerm == LastTerm(Entries(g.log))
  }

  /** How many entries of the leader the follower lacks. */
  function Backlog(n: Node, g: Node): int {
    |Entries(n.log)| - |Entries(g.log)|
  }

  /** The leader's log, extended by the write of this round. */
  function Sender(n: Node, who: Requester, req: CliReq): Node
    requires n.role.Leader? && IsWrite(req)
  {
    AppendOwn(TakenBy(n, who), NextWrite(n, req)).0
  }

  /** A follower that holds a prefix of a log with ascending terms takes a continuing batch
      whole. */
  lemma {:induction false} TakesWhole(log: Log<Mutation>, batch: seq<Mutation>, es: seq<Rec<Mutation>>)
    requires Sound(es) && TermsAscend(es) && Entries(log) <= es && SliceOf(batch, es)
    requires batch == [] || batch[0].version.txid == |Entries(log)| + 1
    ensures TakeBatch(log, batch).Took?
    decreases batch
  {
    if batch != [] {
      var f, v := |Entries(log)|, batch[0].version;
      assert es[f].entry == batch[0] && es[f].term == v.term;
      assert SliceOf(batch[1..], es);
      PrefixIsSound(Entries(log), es);
      AppendedEntries(log, v.term, v.txid, batch[0]);
      assert es[..f + 1] == es[..f] + [es[f]];
      TakesWhole(Appended(log, v.term, v.txid, batch[0]), batch[1..], es);
    }
  }

  /** The follower's half of a round: from length f to the smaller of f + 99 and the end. */
  lemma FollowerAdvances(n: Node, g: Node, p: RepPeer)
    requires Sound(Entries(n.log)) && Faithful(n.log) && TermsAscend(Entries(n.log))
    requires !g.halted && !g.role.Leader? && g.role.Following(n.id) && Entries(g.log) <= Entries(n.log)
    requires p.acceptedTxid == p.maxSent == |Entries(g.log)| && p.acceptedTerm == LastTerm(Entries(g.log))
    ensures var g1 := HandleAppend(g, n.id, n.id, AppendFor(n, p)).node; var f := |Entries(g.log)|;
      && !g1.halted && g1.role == g.role && g1.id == g.id
      && Entries(g1.log) <= Entries(n.log)
      && |Entries(g1.log)| == (if f + 99 <= |Entries(n.log)| then f + 99 else |Entries(n.log)|)
      && |Entries(g1.log)| == SentUpTo(p.maxSent, AppendFor(n, p).batch)
  {
    var es, a := Entries(n.log), AppendFor(n, p);
    PrefixIsSound(Entries(g.log), es);
    PrefixIsSound(n.log.committed, es);
    NextBatchIsSlice(n.log, p.maxSent);
    TakesWhole(g.log, a.batch, es);
    var learned := if |g.log.committed| <= |n.log.committed| then |n.log.committed| else |g.log.committed|;
    AcceptedInLine(g, n.id, n.id, a, es, learned);
    assert HandleAppend(g, n.id, n.id, a) == TakeAppend(g, n.id, a);
  }

  lemma SenderLog(n: Node, g: Node, who: Requester, req: CliReq)
    requires Settled(n, g) && IsWrite(req)
    ensures var s := Sender(n, who, req); var e := HandleCli(n, who, req);
      && |Entries(s.log)| == |Entries(n.log)| + 1 && Entries(n.log) <= Entries(s.log)
      && Sound(Entries(s.log)) && Faithful(s.log)
      && TermsAscend(Entries(s.log)) && LastTerm(Entries(s.log)) <= n.role.term
      && s.repPeers == n.repPeers && s.id == n.id
      && !e.node.halted && e.node.log == s.log && e.node.role == n.role && e.node.id == n.id
      && e.node.maxGenerated == n.maxGenerated + 1
      && e.node.repPeers == SendAll(s).0.repPeers && e.sends == SendAll(s).1
  {
    var n1 := TakenBy(n, who);
    var m := NextWrite(n, req);
    GetContiguous(Entries(n.log), 0);
    AppendOwnAdds(n1, m);
    AckStaysFaithful(Appended(n.log, m.version.term, m.version.txid, m), m.version.txid, n.id);
    NextEntry(Entries(n.log), m);
    LeaderWrites(n, who, req);
    assert Replicate(n1, m).node == SendAll(Sender(n, who, req)).0;
  }

  lemma NextEntry(es: seq<Rec<Mutation>>, m: Mutation)
    requires Sound(es) && TermsAscend(es) && LastTerm(es) <= m.version.term && m.version.txid == |es| + 1
    ensures var es' := es + [Rec(m.version.term, m.version.txid, m)];
      Sound(es') && TermsAscend(es') && LastTerm(es') == m.version.term
  {
  }

  /** The messages of a round are the ones the handlers send. */
  lemma RoundIsReal(n: Node, g: Node, who: Requester, req: CliReq)
    requires Settled(n, g) && IsWrite(req)
    ensures var a := AppendFor(Sender(n, who, req), n.repPeers[g.id]);
      var e := HandleAppend(g, n.id, n.id, a);
      && ToPeer(g.id, a) in HandleCli(n, who, req).sends
      && e.sends == {ToPeer(n.id, AppendRes(true, AcceptedTxid(e.node), AcceptedTerm(e.node)))}
  {
    SenderLog(n, g, who, req);
    var s := Sender(n, who, req);
    FollowerAdvances(s, g, n.repPeers[g.id]);
    var a := AppendFor(s, n.repPeers[g.id]);
    PrefixIsSound(Entries(g.log), Entries(n.log));
    assert HandleAppend(g, n.id, n.id, a) == TakeAppend(g, n.id, a);
    assert n.repPeers[g.id].tok == g.id;
  }

  // ----- the two when nothing concerns them ----------------------------------------------------

  /** The answer says what the leader knows of `g` already. */
  predicate NoNews(n: Node, g: NodeId, m: Msg)
    requires m.AppendRes? && g in n.repPeers
  {
    m.accepted && m.acceptedTxid == n.repPeers[g].acceptedTxid && m.acceptedTerm == n.repPeers[g].acceptedTerm
  }

  /** The step is not a write at `l`, brings `l` no news of `g`, and leaves `l` leading.  It may
      be anything else: a vote, a cron, an answer of another peer, a read, an Append, or a step
      of another node. */
  ghost predicate LeaderSteady(s: Sys, a: Action, l: NodeId, g: NodeId)
    requires Enabled(s, a)
  {
    !a.Tick? && Actor(a) == l ==>
      && !(a.Client? && IsWrite(a.req))
      && (a.Deliver? && a.p.msg.AppendRes? && a.p.src == g && g in s.nodes[l].repPeers ==> NoNews(s.nodes[l], g, a.p.msg))
      && EffectOf(s, a).node.role.Leader?
  }

  /** The step does not bring `g` an Append of `l` that links, and leaves `g` following `l`. */
  ghost predicate FollowerSteady(s: Sys, a: Action, l: NodeId, g: NodeId)
    requires Enabled(s, a)
  {
    !a.Tick? && Actor(a) == g ==>
      && !(a.Deliver? && a.p.msg.Append? && a.p.src == l && Links(s.nodes[g], a.p.msg))
      && EffectOf(s, a).node.role.Following(l)
  }

  /** To its peer `g` the leader `n1` stands as `n` did. */
  ghost predicate StandsAs(n: Node, n1: Node, g: NodeId) {
    && n1.id == n.id && Entries(n1.log) == Entries(n.log)
    && g in n.repPeers && g in n1.repPeers && n1.repPeers[g] == n.repPeers[g].(addr := n1.repPeers[g].addr)
  }

  /** An answer changes nothing but what is known of the peer that gave it. */
  lemma AnswerKeeps(n: Node, g: NodeId, p: Packet)
    requires Leads(n, g) && p.msg.AppendRes? && (p.src == g ==> NoNews(n, g, p.msg))
    ensures var n1 := HandleAppendRes(n, p.src, p.msg).node; Leads(n1, g) && StandsAs(n, n1, g)
  {
    AckStaysFaithful(n.log, p.msg.acceptedTxid, p.src);
  }

  lemma VoteKeeps(n: Node, now: Time, g: NodeId, p: Packet)
    requires Leads(n, g) && p.msg.VoteRes?
    ensures var n1 := HandleVoteRes(n, now, p.src, p.src, p.src, p.msg).node; Leads(n1, g) && StandsAs(n, n1, g)
  {
  }

  lemma LeaderKeeps(s: Sys, a: Action, l: NodeId, g: NodeId)
    requires Enabled(s, a) && !a.Tick? && Actor(a) == l && Leads(s.nodes[l], g) && LeaderSteady(s, a, l, g)
    ensures var n1 := EffectOf(s, a).node; Leads(n1, g) && StandsAs(s.nodes[l], n1, g)
  {
    var n := s.nodes[l];
    if a.Deliver? && a.p.msg.AppendRes? {
      AnswerKeeps(n, g, a.p);
    } else if a.Deliver? && a.p.msg.VoteRes? {
      VoteKeeps(n, s.now, g, a.p);
    }
  }

  lemma FollowerKeeps(s: Sys, a: Action, l: NodeId, g: NodeId)
    requires Enabled(s, a) && !a.Tick? && Actor(a) == g && Follows(s.nodes[g], l) && FollowerSteady(s, a, l, g)
    ensures var g1 := EffectOf(s, a).node; Follows(g1, l) && g1.log == s.nodes[g].log && g1.id == s.nodes[g].id
  {
  }

  /** From state `from` to state `till` nothing that happens concerns `l` as leader of `g`. */
  ghost predicate LeaderRests(tr: seq<Sys>, acts: seq<Action>, l: NodeId, g: NodeId, from: nat, till: nat)
    requires IsRun(tr, acts)
  {
    forall m :: from <= m < till && m < |acts| ==> LeaderSteady(tr[m], acts[m], l, g)
  }

  ghost predicate FollowerRests(tr: seq<Sys>, acts: seq<Action>, l: NodeId, g: NodeId, from: nat, till: nat)
    requires IsRun(tr, acts)
  {
    forall m :: from <= m < till && m < |acts| ==> FollowerSteady(tr[m], acts[m], l, g)
  }

  /** A step after which a leader of `g` still is one, and stands as it did. */
  ghost predicate LeaderLink(s: Sys, s': Sys, l: NodeId, g: NodeId) {
    l < |s.nodes| && Leads(s.nodes[l], g) ==>
      l < |s'.nodes| && Leads(s'.nodes[l], g) && StandsAs(s.nodes[l], s'.nodes[l], g)
  }

  ghost predicate FollowerLink(s: Sys, s': Sys, l: NodeId, g: NodeId) {
    g < |s.nodes| && Follows(s.nodes[g], l) ==>
      && g < |s'.nodes| && Follows(s'.nodes[g], l)
      && s'.nodes[g].log == s.nodes[g].log && s'.nodes[g].id == s.nodes[g].id
  }

  lemma LeaderOneMore(s: Sys, a: Action, l: NodeId, g: NodeId)
    requires Enabled(s, a) && LeaderSteady(s, a, l, g)
    ensures LeaderLink(s, Next(s, a), l, g)
  {
    if !a.Tick? && Actor(a) == l && Leads(s.nodes[l], g) {
      LeaderKeeps(s, a, l, g);
    }
  }

  lemma FollowerOneMore(s: Sys, a: Action, l: NodeId, g: NodeId)
    requires Enabled(s, a) && FollowerSteady(s, a, l, g)
    ensures FollowerLink(s, Next(s, a), l, g)
  {
    if !a.Tick? && Actor(a) == g && Follows(s.nodes[g], l) {
      FollowerKeeps(s, a, l, g);
    }
  }

  lemma {:induction false} LeaderChain(tr: seq<Sys>, l: NodeId, g: NodeId, from: nat, till: nat)
    requires from <= till < |tr| && forall m :: from <= m < till ==> LeaderLink(tr[m], tr[m + 1], l, g)
    requires l < |tr[from].nodes| && Leads(tr[from].nodes[l], g)
    ensures l < |tr[till].nodes| && Leads(tr[till].nodes[l], g) && StandsAs(tr[from].nodes[l], tr[till].nodes[l], g)
    decreases till
  {
    if from < till {
      LeaderChain(tr, l, g, from, till - 1);
      assert LeaderLink(tr[till - 1], tr[till - 1 + 1], l, g);
    }
  }

  lemma {:induction false} FollowerChain(tr: seq<Sys>, l: NodeId, g: NodeId, from: nat, till: nat)
    requires from <= till < |tr| && forall m :: from <= m < till ==> FollowerLink(tr[m], tr[m + 1], l, g)
    requires g < |tr[from].nodes| && Follows(tr[from].nodes[g], l)
    ensures g < |tr[till].nodes| && Follows(tr[till].nodes[g], l)
    ensures tr[till].nodes[g].log == tr[from].nodes[g].log && tr[till].nodes[g].id == tr[from].nodes[g].id
    decreases till
  {
    if from < till {
      FollowerChain(tr, l, g, from, till - 1);
      assert FollowerLink(tr[till - 1], tr[till - 1 + 1], l, g);
    }
  }

  /** A leader that nothing concerns still leads, and stands as it did. */
  lemma LeaderStays(tr: seq<Sys>, acts: seq<Action>, l: NodeId, g: NodeId, from: nat, till: nat)
    requires IsRun(tr, acts) && from <= till < |tr| && LeaderRests(tr, acts, l, g, from, till)
    requires l < |tr[from].nodes| && Leads(tr[from].nodes[l], g)
    ensures l < |tr[till].nodes| && Leads(tr[till].nodes[l], g) && StandsAs(tr[from].nodes[l], tr[till].nodes[l], g)
  {
    forall m | from <= m < till
      ensures LeaderLink(tr[m], tr[m + 1], l, g)
    {
      LeaderOneMore(tr[m], acts[m], l, g);
    }
    LeaderChain(tr, l, g, from, till);
  }

  lemma FollowerStays(tr: seq<Sys>, acts: seq<Action>, l: NodeId, g: NodeId, from: nat, till: nat)
    requires IsRun(tr, acts) && from <= till < |tr| && FollowerRests(tr, acts, l, g, from, till)
    requires g < |tr[from].nodes| && Follows(tr[from].nodes[g], l)
    ensures g < |tr[till].nodes| && Follows(tr[till].nodes[g], l)
    ensures tr[till].nodes[g].log == tr[from].nodes[g].log && tr[till].nodes[g].id == tr[from].nodes[g].id
  {
    forall m | from <= m < till
      ensures FollowerLink(tr[m], tr[m + 1], l, g)
    {
      FollowerOneMore(tr[m], acts[m], l, g);
    }
    FollowerChain(tr, l, g, from, till);
  }

  // ----- rounds in a run -----------------------------------------------------------------------

  /** A peer's token is its id. */
  ghost predicate TokensMatch(s: Sys) {
    forall i :: 0 <= i < |s.nodes| ==> OwnTokensMatch(s.nodes[i])
  }

  ghost predicate OwnTokensMatch(n: Node) {
    forall p :: p in n.repPeers ==> n.repPeers[p].tok == p
  }

  lemma TokensStep(s: Sys, a: Action)
    requires TokensMatch(s) && Enabled(s, a) && !a.Tick?
    ensures OwnTokensMatch(EffectOf(s, a).node)
  {
    assert OwnTokensMatch(s.nodes[Actor(a)]);
    if a.Client? {
      CliTokens(s.nodes[a.i], a.who, a.req);
    }
  }

  lemma CliTokens(n: Node, who: Requester, req: CliReq)
    requires OwnTokensMatch(n)
    ensures OwnTokensMatch(HandleCli(n, who, req).node)
  {
    if n.role.Leader? && IsWrite(req) {
      LeaderWrites(n, who, req);
    }
  }

  lemma {:induction false} TokensHold(tr: seq<Sys>, acts: seq<Action>, k: nat)
    requires IsRun(tr, acts) && k < |tr|
    ensures TokensMatch(tr[k])
  {
    if k == 0 {
      assert forall i :: 0 <= i < |tr[0].nodes| ==> FreshNode(tr[0].nodes[i], i, |tr[0].nodes|);
    } else {
      TokensHold(tr, acts, k - 1);
      TokensNext(tr[k - 1], acts[k - 1]);
    }
  }

  lemma TokensNext(s: Sys, a: Action)
    requires TokensMatch(s) && Enabled(s, a)
    ensures TokensMatch(Next(s, a))
  {
    if !a.Tick? {
      TokensStep(s, a);
    }
  }

  /** The message was sent by step `m`. */
  ghost predicate SentBy(tr: seq<Sys>, acts: seq<Action>, m: nat, p: Packet)
    requires IsRun(tr, acts)
  {
    m < |acts| && !acts[m].Tick? &&
    p in Packets(|tr[m].nodes|, Actor(acts[m]), tr[m].now, EffectOf(tr[m], acts[m]).sends)
  }

  datatype Steps = Steps(write: nat, append: nat, answer: nat)

  /** A round of leader `l` and follower `g` in a run: a write at `l`, the delivery to `g` of the
      Append it sent, the delivery to `l` of the answer to that.  In between `l` leads on and
      takes no other write and no other news of `g`, and `g` follows on and no other Append of
      `l` links at it; whatever else happens, to them or to others, is free. */
  ghost predicate RoundAt(tr: seq<Sys>, acts: seq<Action>, l: NodeId, g: NodeId, r: Steps)
    requires IsRun(tr, acts)
  {
    && r.write < r.append < r.answer < |acts|
    && acts[r.write].Client? && acts[r.write].i == l && IsWrite(acts[r.write].req)
    && acts[r.append].Deliver? && acts[r.append].p.dst == g && SentBy(tr, acts, r.write, acts[r.append].p)
    && acts[r.answer].Deliver? && acts[r.answer].p.dst == l && SentBy(tr, acts, r.append, acts[r.answer].p)
    && FollowerRests(tr, acts, l, g, r.write, r.append) && FollowerRests(tr, acts, l, g, r.append + 1, r.answer + 1)
    && LeaderRests(tr, acts, l, g, r.write + 1, r.answer)
  }

  /** At the `k`-th state of the run `l` and `g` are settled. */
  ghost predicate SettledAt(tr: seq<Sys>, k: nat, l: NodeId, g: NodeId) {
    k < |tr| && l < |tr[k].nodes| && g < |tr[k].nodes| && Settled(tr[k].nodes[l], tr[k].nodes[g])
  }

  ghost function BacklogAt(tr: seq<Sys>, k: nat, l: NodeId, g: NodeId): nat
    requires SettledAt(tr, k, l, g)
  {
    Backlog(tr[k].nodes[l], tr[k].nodes[g])
  }

  /** What the leader sends `g` when it takes the write. */
  function RoundAppend(n: Node, g: NodeId, c: Action): Msg
    requires n.role.Leader? && c.Client? && IsWrite(c.req) && g in n.repPeers
  {
    AppendFor(Sender(n, c.who, c.req), n.repPeers[g])
  }

  lemma AppendDelivered(tr: seq<Sys>, acts: seq<Action>, l: NodeId, g: NodeId, r: Steps)
    requires IsRun(tr, acts) && RoundAt(tr, acts, l, g, r) && SettledAt(tr, r.write, l, g)
    requires tr[r.write].nodes[l].id == l && tr[r.write].nodes[g].id == g
    ensures acts[r.append].p.src == l && acts[r.append].p.msg == RoundAppend(tr[r.write].nodes[l], g, acts[r.write])
  {
    TokensHold(tr, acts, r.write);
    var n, c := tr[r.write].nodes[l], acts[r.write];
    SenderLog(n, tr[r.write].nodes[g], c.who, c.req);
    assert OwnTokensMatch(n);
  }

  /** The leader's half: after the write it stands, as to `g`, one entry further and with the
      Append sent, and so it does when the answer comes. */
  lemma LeaderHalf(tr: seq<Sys>, acts: seq<Action>, l: NodeId, g: NodeId, r: Steps, n1: Node)
    requires IsRun(tr, acts) && RoundAt(tr, acts, l, g, r) && SettledAt(tr, r.write, l, g)
    requires n1 == HandleCli(tr[r.write].nodes[l], acts[r.write].who, acts[r.write].req).node && Leads(n1, g)
    ensures l < |tr[r.answer].nodes| && Leads(tr[r.answer].nodes[l], g) && StandsAs(n1, tr[r.answer].nodes[l], g)
  {
    ClockAndSize(tr[r.write], acts[r.write]);
    LeaderStays(tr, acts, l, g, r.write + 1, r.answer);
  }

  lemma WriteLeads(n: Node, g: Node, who: Requester, req: CliReq)
    requires Settled(n, g) && IsWrite(req)
    ensures var n1 := HandleCli(n, who, req).node; var s := Sender(n, who, req);
      && Leads(n1, g.id) && n1.id == n.id && Entries(n1.log) == Entries(s.log)
      && |Entries(n1.log)| == |Entries(n.log)| + 1 && n1.repPeers[g.id] == Advanced(s, n.repPeers[g.id])
  {
    SenderLog(n, g, who, req);
  }

  /** The follower's half: the pair is settled, as it was, when the Append comes. */
  lemma FollowerHalf(tr: seq<Sys>, acts: seq<Action>, l: NodeId, g: NodeId, r: Steps)
    requires IsRun(tr, acts) && RoundAt(tr, acts, l, g, r) && SettledAt(tr, r.write, l, g)
    requires tr[r.write].nodes[l].id == l && tr[r.write].nodes[g].id == g
    ensures g < |tr[r.append].nodes| && tr[r.append].nodes[g].id == g
    ensures tr[r.append].nodes[g].log == tr[r.write].nodes[g].log
    ensures Settled(tr[r.write].nodes[l], tr[r.append].nodes[g])
  {
    FollowerStays(tr, acts, l, g, r.write, r.append);
  }

  /** `g1` is the follower `g` after the Append of leader `n`. */
  ghost predicate TookAppend(n: Node, g: Node, c: Action, g1: Node)
    requires n.role.Leader? && c.Client? && IsWrite(c.req) && g.id in n.repPeers
  {
    var s, f := Sender(n, c.who, c.req), |Entries(g.log)|;
    && Follows(g1, n.id) && g1.id == g.id && Entries(g1.log) <= Entries(s.log)
    && |Entries(g1.log)| == (if f + 99 <= |Entries(s.log)| then f + 99 else |Entries(s.log)|)
    && |Entries(g1.log)| == SentUpTo(n.repPeers[g.id].maxSent, RoundAppend(n, g.id, c).batch)
  }

  lemma AppendTaken(n: Node, g: Node, c: Action, e: Effect)
    requires Settled(n, g) && c.Client? && IsWrite(c.req)
    requires e == HandleAppend(g, n.id, n.id, RoundAppend(n, g.id, c))
    ensures TookAppend(n, g, c, e.node)
    ensures e.sends == {ToPeer(n.id, AppendRes(true, AcceptedTxid(e.node), AcceptedTerm(e.node)))}
  {
    SenderLog(n, g, c.who, c.req);
    FollowerAdvances(Sender(n, c.who, c.req), g, n.repPeers[g.id]);
    RoundIsReal(n, g, c.who, c.req);
  }

  /** The answer: what it says, and that the follower still stands there. */
  lemma RoundAnswered(tr: seq<Sys>, acts: seq<Action>, l: NodeId, g: NodeId, r: Steps, e: Effect)
    requires IsRun(tr, acts) && RoundAt(tr, acts, l, g, r)
    requires g < |tr[r.append].nodes| && tr[r.append].nodes[g].id == g
    requires e == EffectOf(tr[r.append], acts[r.append]) && Follows(e.node, l) && e.node.id == g
    requires e.sends == {ToPeer(l, AppendRes(true, AcceptedTxid(e.node), AcceptedTerm(e.node)))}
    ensures g < |tr[r.answer + 1].nodes| && Follows(tr[r.answer + 1].nodes[g], l)
    ensures tr[r.answer + 1].nodes[g].log == e.node.log && tr[r.answer + 1].nodes[g].id == g
    ensures acts[r.answer].p.src == g && acts[r.answer].p.msg == AppendRes(true, AcceptedTxid(e.node), AcceptedTerm(e.node))
  {
    ClockAndSize(tr[r.append], acts[r.append]);
    FollowerStays(tr, acts, l, g, r.append + 1, r.answer + 1);
  }

  /** The leader hears where the follower is, which is as far as it has sent. */
  lemma LeaderHears(n: Node, g: NodeId, m: Msg)
    requires Leads(n, g) && m.AppendRes? && m.accepted
    ensures var n1 := HandleAppendRes(n, g, m).node;
      && Leads(n1, g) && n1.id == n.id && Entries(n1.log) == Entries(n.log)
      && n1.repPeers[g] == n.repPeers[g].(acceptedTxid := m.acceptedTxid, acceptedTerm := m.acceptedTerm)
  {
    AckStaysFaithful(n.log, m.acceptedTxid, g);
  }

  lemma AnswerTaken(s: Sys, p: Packet)
    requires Enabled(s, Deliver(p)) && p.msg.AppendRes?
    ensures |Next(s, Deliver(p)).nodes| == |s.nodes|
    ensures Next(s, Deliver(p)).nodes[p.dst] == HandleAppendRes(s.nodes[p.dst], p.src, p.msg).node
  {
  }

  /** How a round ends: `n` and `g` before it, `n2` and `g2` after it. */
  ghost predicate RoundEnds(n: Node, g: Node, n2: Node, g2: Node) {
    var f, end := |Entries(g.log)|, |Entries(n.log)| + 1;
    && Settled(n2, g2) && |Entries(n2.log)| == end
    && |Entries(g2.log)| == (if f + 99 <= end then f + 99 else end)
  }

  /** The two halves meet: `n1` is the leader when it hears the answer. */
  lemma HalvesMeet(n: Node, g: Node, c: Action, n1: Node, g1: Node)
    requires Settled(n, g) && c.Client? && IsWrite(c.req) && TookAppend(n, g, c, g1)
    requires Leads(n1, g.id) && StandsAs(HandleCli(n, c.who, c.req).node, n1, g.id)
    ensures RoundEnds(n, g, HandleAppendRes(n1, g.id, AppendRes(true, AcceptedTxid(g1), AcceptedTerm(g1))).node, g1)
  {
    WriteLeads(n, g, c.who, c.req);
    LeaderHears(n1, g.id, AppendRes(true, AcceptedTxid(g1), AcceptedTerm(g1)));
    PrefixIsSound(Entries(g1.log), Entries(n1.log));
  }

  /** The follower has taken the Append when the round ends, and the answer says so. */
  lemma FollowerDone(tr: seq<Sys>, acts: seq<Action>, l: NodeId, g: NodeId, r: Steps) returns (f: Node)
    requires IsRun(tr, acts) && RoundAt(tr, acts, l, g, r) && SettledAt(tr, r.write, l, g)
    requires tr[r.write].nodes[l].id == l && tr[r.write].nodes[g].id == g
    ensures f.id == g && f.log == tr[r.write].nodes[g].log && Settled(tr[r.write].nodes[l], f)
    ensures g < |tr[r.answer + 1].nodes|
    ensures var g1, q := tr[r.answer + 1].nodes[g], acts[r.answer].p;
      && TookAppend(tr[r.write].nodes[l], f, acts[r.write], g1)
      && q.src == g && q.msg == AppendRes(true, AcceptedTxid(g1), AcceptedTerm(g1))
  {
    FollowerHalf(tr, acts, l, g, r);
    f := tr[r.append].nodes[g];
    AppendTakenAt(tr, acts, l, g, r);
    RoundAnswered(tr, acts, l, g, r, EffectOf(tr[r.append], acts[r.append]));
  }

  /** The step that delivers the Append. */
  lemma AppendTakenAt(tr: seq<Sys>, acts: seq<Action>, l: NodeId, g: NodeId, r: Steps)
    requires IsRun(tr, acts) && RoundAt(tr, acts, l, g, r) && SettledAt(tr, r.write, l, g)
    requires tr[r.write].nodes[l].id == l && tr[r.write].nodes[g].id == g
    requires g < |tr[r.append].nodes| && tr[r.append].nodes[g].id == g
    requires Settled(tr[r.write].nodes[l], tr[r.append].nodes[g])
    ensures var e := EffectOf(tr[r.append], acts[r.append]);
      && TookAppend(tr[r.write].nodes[l], tr[r.append].nodes[g], acts[r.write], e.node)
      && e.sends == {ToPeer(l, AppendRes(true, AcceptedTxid(e.node), AcceptedTerm(e.node)))}
  {
    AppendDelivered(tr, acts, l, g, r);
    AppendTaken(tr[r.write].nodes[l], tr[r.append].nodes[g], acts[r.write], EffectOf(tr[r.append], acts[r.append]));
  }

  lemma RoundInRun(tr: seq<Sys>, acts: seq<Action>, l: NodeId, g: NodeId, r: Steps)
    requires IsRun(tr, acts) && RoundAt(tr, acts, l, g, r) && SettledAt(tr, r.write, l, g)
    ensures l < |tr[r.answer + 1].nodes| && g < |tr[r.answer + 1].nodes|
    ensures RoundEnds(tr[r.write].nodes[l], tr[r.write].nodes[g], tr[r.answer + 1].nodes[l], tr[r.answer + 1].nodes[g])
  {
    LeaseInvHolds(tr, acts, r.write);
    var n, c := tr[r.write].nodes[l], acts[r.write];
    var f := FollowerDone(tr, acts, l, g, r);
    WriteLeads(n, f, c.who, c.req);
    LeaderHalf(tr, acts, l, g, r, HandleCli(n, c.who, c.req).node);
    AnswerTaken(tr[r.answer], acts[r.answer].p);
    HalvesMeet(n, f, c, tr[r.answer].nodes[l], tr[r.answer + 1].nodes[g]);
  }

  /** In any run, a round takes a follower from f entries to the smaller of f + 99 and the
      leader's new end, and leaves the two settled; so it cuts a backlog of b to max(0, b - 98). */
  lemma RoundCatchesUp(tr: seq<Sys>, acts: seq<Action>, l: NodeId, g: NodeId, r: Steps)
    requires IsRun(tr, acts) && RoundAt(tr, acts, l, g, r) && SettledAt(tr, r.write, l, g)
    ensures SettledAt(tr, r.answer + 1, l, g)
    ensures var f := |Entries(tr[r.write].nodes[g].log)|; var end := |Entries(tr[r.write].nodes[l].log)| + 1;
      && |Entries(tr[r.answer + 1].nodes[l].log)| == end
      && |Entries(tr[r.answer + 1].nodes[g].log)| == (if f + 99 <= end then f + 99 else end)
    ensures BacklogAt(tr, r.answer + 1, l, g) == Cut(BacklogAt(tr, r.write, l, g), 1)
  {
    RoundInRun(tr, acts, l, g, r);
  }

  /** max(0, b - 98 r) */
  function Cut(b: nat, r: nat): nat {
    if b <= 98 * r then 0 else b - 98 * r
  }

  /** The step after the first `k` of the rounds `rs`, the first of which is after `from`. */
  function EndOf(from: nat, rs: seq<Steps>, k: nat): nat
    requires k <= |rs|
  {
    if k == 0 then from else rs[k - 1].answer + 1
  }

  /** Round `k` follows the one before, and nothing in between concerns `l` and `g`. */
  ghost predicate RoundFollows(tr: seq<Sys>, acts: seq<Action>, l: NodeId, g: NodeId, from: nat, rs: seq<Steps>, k: nat)
    requires IsRun(tr, acts) && k < |rs|
  {
    var end := EndOf(from, rs, k);
    && end <= rs[k].write && RoundAt(tr, acts, l, g, rs[k])
    && LeaderRests(tr, acts, l, g, end, rs[k].write) && FollowerRests(tr, acts, l, g, end, rs[k].write)
  }

  /** From the end of round `k` - 1 to the end of round `k`, a settled pair stays settled and
      its backlog is cut. */
  ghost predicate Cuts(tr: seq<Sys>, l: NodeId, g: NodeId, from: nat, rs: seq<Steps>, k: nat)
    requires k < |rs|
  {
    SettledAt(tr, EndOf(from, rs, k), l, g) ==>
      && SettledAt(tr, EndOf(from, rs, k + 1), l, g)
      && BacklogAt(tr, EndOf(from, rs, k + 1), l, g) == Cut(BacklogAt(tr, EndOf(from, rs, k), l, g), 1)
  }

  lemma RoundCuts(tr: seq<Sys>, acts: seq<Action>, l: NodeId, g: NodeId, from: nat, rs: seq<Steps>, k: nat)
    requires IsRun(tr, acts) && k < |rs| && RoundFollows(tr, acts, l, g, from, rs, k)
    ensures Cuts(tr, l, g, from, rs, k)
  {
    if SettledAt(tr, EndOf(from, rs, k), l, g) {
      RestThenRound(tr, acts, l, g, EndOf(from, rs, k), rs[k]);
    }
  }

  /** After r rounds a backlog of b entries is down to max(0, b - 98 r). */
  lemma CatchUpBound(tr: seq<Sys>, acts: seq<Action>, l: NodeId, g: NodeId, from: nat, rs: seq<Steps>)
    requires IsRun(tr, acts) && SettledAt(tr, from, l, g)
    requires forall k :: 0 <= k < |rs| ==> RoundFollows(tr, acts, l, g, from, rs, k)
    ensures SettledAt(tr, EndOf(from, rs, |rs|), l, g)
    ensures BacklogAt(tr, EndOf(from, rs, |rs|), l, g) == Cut(BacklogAt(tr, from, l, g), |rs|)
  {
    forall k | 0 <= k < |rs|
      ensures Cuts(tr, l, g, from, rs, k)
    {
      RoundCuts(tr, acts, l, g, from, rs, k);
    }
    CutsAddUp(tr, l, g, from, rs, |rs|);
  }

  lemma {:induction false} CutsAddUp(tr: seq<Sys>, l: NodeId, g: NodeId, from: nat, rs: seq<Steps>, r: nat)
    requires r <= |rs| && SettledAt(tr, from, l, g) && forall k :: 0 <= k < r ==> Cuts(tr, l, g, from, rs, k)
    ensures SettledAt(tr, EndOf(from, rs, r), l, g)
    ensures BacklogAt(tr, EndOf(from, rs, r), l, g) == Cut(BacklogAt(tr, from, l, g), r)
  {
    if r > 0 {
      CutsAddUp(tr, l, g, from, rs, r - 1);
      assert Cuts(tr, l, g, from, rs, r - 1);
      CutTwice(BacklogAt(tr, from, l, g), r - 1);
    }
  }

  lemma CutTwice(b: nat, r: nat)
    ensures Cut(Cut(b, r), 1) == Cut(b, r + 1)
  {
  }

  /** A settled pair that nothing concerns stays settled, with the same backlog. */
  lemma SettledStays(tr: seq<Sys>, acts: seq<Action>, l: NodeId, g: NodeId, from: nat, till: nat)
    requires IsRun(tr, acts) && SettledAt(tr, from, l, g) && from <= till < |tr|
    requires LeaderRests(tr, acts, l, g, from, till) && FollowerRests(tr, acts, l, g, from, till)
    ensures SettledAt(tr, till, l, g) && BacklogAt(tr, till, l, g) == BacklogAt(tr, from, l, g)
  {
    LeaseInvHolds(tr, acts, from);
    LeaderStays(tr, acts, l, g, from, till);
    FollowerStays(tr, acts, l, g, from, till);
  }

  lemma RestThenRound(tr: seq<Sys>, acts: seq<Action>, l: NodeId, g: NodeId, from: nat, r: Steps)
    requires IsRun(tr, acts) && SettledAt(tr, from, l, g) && from <= r.write && RoundAt(tr, acts, l, g, r)
    requires LeaderRests(tr, acts, l, g, from, r.write) && FollowerRests(tr, acts, l, g, from, r.write)
    ensures SettledAt(tr, r.answer + 1, l, g)
    ensures BacklogAt(tr, r.answer + 1, l, g) == Cut(BacklogAt(tr, from, l, g), 1)
  {
    SettledStays(tr, acts, l, g, from, r.write);
    RoundCatchesUp(tr, acts, l, g, r);
  }
}
