/** Where each message on the wire comes from, and what it says of its sender, in every run. */
module Wire {
  import opened Types
  import opened Roles
  import opened LogSpec
  import opened Harpoon
  import opened Cluster
  import opened Leases

  /** The last entry of `es` has this id and this term; without entries both are 0. */
  predicate Ends<T>(es: seq<Rec<T>>, txid: TXID, term: Term) {
    if es == [] then txid == 0 && term == 0
    else es[|es| - 1].txid == txid && es[|es| - 1].term == term
  }

  /** Every message was put on the wire by one step. */
  lemma {:induction false} SentAt(tr: seq<Sys>, acts: seq<Action>, k: nat, p: Packet) returns (j: nat)
    requires IsRun(tr, acts) && k < |tr| && p in tr[k].net
    ensures j < k && p in tr[j + 1].net && p !in tr[j].net
  {
    if p in tr[k - 1].net {
      j := SentAt(tr, acts, k - 1, p);
    } else {
      j := k - 1;
    }
  }

  /** A new message was sent by the node that acted, now. */
  lemma SentNow(s: Sys, a: Action, p: Packet) returns (x: Send)
    requires Enabled(s, a) && p in Next(s, a).net && p !in s.net
    ensures !a.Tick? && p.src == Actor(a) && p.sent == s.now && p.dst < |s.nodes|
    ensures x in EffectOf(s, a).sends && x.msg == p.msg && (x.ToPeer? ==> x.dst == p.dst)
  {
    x :| x in EffectOf(s, a).sends && x.msg == p.msg && (x.ToPeer? ==> x.dst == p.dst);
  }

  // ----- requests for votes --------------------------------------------------------------------

  /** The request tells how far its sender, `n` before and `n1` after the step, has learned and
      accepted; its sender stands or leads in the term it names, under an unexpired lease, and
      if it leads has no more than half of that left. */
  ghost predicate AsksTruly(n: Node, n1: Node, p: Packet) {
    && p.msg.VoteReq? && n1.log == n.log
    && Ends(n.log.committed, p.msg.learnedTxid, p.msg.learnedTerm)
    && Ends(Entries(n.log), p.msg.acceptedTxid, p.msg.acceptedTerm)
    && (n1.role.Candidate? || n1.role.Leader?) && n1.role.term == p.msg.term && p.sent < n1.role.until
    && (n1.role.Leader? ==> n1.role == n.role && n1.role.until <= p.sent + LEADER_REFRESH)
  }

  lemma NewRequest(s: Sys, a: Action, p: Packet)
    requires Enabled(s, a) && p in Next(s, a).net && p !in s.net && p.msg.VoteReq?
    ensures a == CronAt(p.src) && p.src < |s.nodes| && p.sent == s.now
    ensures AsksTruly(s.nodes[p.src], Next(s, a).nodes[p.src], p)
  {
    var x := SentNow(s, a, p);
    assert a.CronAt?;
  }

  /** Every request for votes on the wire was sent by cron at its sender and is true of it. */
  lemma RequestOrigin(tr: seq<Sys>, acts: seq<Action>, k: nat, p: Packet) returns (j: nat)
    requires IsRun(tr, acts) && k < |tr| && p in tr[k].net && p.msg.VoteReq?
    ensures j < k && p in tr[j + 1].net && p !in tr[j].net && acts[j] == CronAt(p.src) && p.sent == tr[j].now
    ensures p.src < |tr[j].nodes| && p.src < |tr[j + 1].nodes|
    ensures AsksTruly(tr[j].nodes[p.src], tr[j + 1].nodes[p.src], p)
  {
    j := SentAt(tr, acts, k, p);
    NewRequest(tr[j], acts[j], p);
  }

  /** Cron at a node whose lease or candidacy has run out makes it a candidate of the next term,
      with no votes and a whole lease to get them; an unexpired one is left as it is. */
  lemma CronExactly(s: Sys, i: NodeId)
    requires LeaseInv(s) && Enabled(s, CronAt(i))
    ensures var n, n1 := s.nodes[i], Next(s, CronAt(i)).nodes[i];
      && (!n.role.Init? && s.now < n.role.until ==> n1 == n)
      && (n.role.Init? || n.role.until <= s.now ==>
            n1 == n.(highestTerm := n.highestTerm + 1,
                     role := Candidate(n.highestTerm + 1, [], |s.nodes| / 2 + 1, s.now + LEADER_DURATION)))
  {
    assert s.nodes[i].peers == |s.nodes|;
    NeedIsMajority(s.nodes[i].peers);
  }

  /** A candidate, and a leader with no more than half of its lease left, then asks everybody. */
  lemma CronAsks(s: Sys, i: NodeId) returns (m: Msg)
    requires Enabled(s, CronAt(i))
    requires var r := Next(s, CronAt(i)).nodes[i].role;
      s.now < r.until && (r.Candidate? || (r.Leader? && r.until <= s.now + LEADER_REFRESH))
    ensures m.VoteReq? && forall d: NodeId :: d < |s.nodes| ==> Packet(i, d, s.now, m) in Next(s, CronAt(i)).net
  {
    var e := Cron(s.nodes[i], s.now);
    m := Ballot(e.node, e.node.role.term);
    assert Broadcast(m) in e.sends;
  }

  // ----- votes and refusals --------------------------------------------------------------------

  /** Whether the log of a voter that has learned `learned` and holds `es` lets it vote for the
      sender of a request: the term asked for is not below the last one learned in, and the
      sender has learned in a later term, or in the same and has accepted at least as far. */
  predicate LogAllows(learned: seq<Rec<Mutation>>, es: seq<Rec<Mutation>>,
                      term: Term, learnedTerm: Term, accepted: TXID) {
    var last := if learned == [] then 0 else learned[|learned| - 1].term;
    var end := if es == [] then 0 else es[|es| - 1].txid;
    last <= term && (last < learnedTerm || (last == learnedTerm && end <= accepted))
  }

  /** The voter, which does not follow the sender, has no unexpired lease and its log allows it. */
  predicate MayVote(n: Node, now: Time, m: Msg)
    requires m.VoteReq?
  {
    && (n.role.Leader? || n.role.Follower? ==> n.role.until <= now)
    && LogAllows(n.log.committed, Entries(n.log), m.term, m.learnedTerm, m.acceptedTxid)
  }

  /** What the request `q` makes of a node `n` other than its sender, and what is answered. */
  ghost predicate AnsweredRequest(n: Node, n1: Node, now: Time, q: Packet, answer: Msg)
    requires q.msg.VoteReq?
  {
    if n.role.Following(q.src) then
      n1 == n.(role := n.role.(until := now + LEADER_DURATION)) && answer == VoteRes(true, q.msg.term)
    else if MayVote(n, now, q.msg) then
      && n1 == n.(highestTerm := q.msg.term,
                  role := Follower(q.msg.term, q.src, q.src, q.src, now + LEADER_DURATION))
      && answer == VoteRes(true, q.msg.term)
    else
      n1 == n && answer == VoteRes(false, if n.role.Init? then q.msg.term else n.role.term)
  }

  /** A node votes for another exactly when it follows it already or may vote for it; it then
      follows it for a whole lease, in the term asked for if that is new. */
  lemma VoteExactly(s: Sys, q: Packet) returns (answer: Msg)
    requires LeaseInv(s) && Enabled(s, Deliver(q)) && q.msg.VoteReq? && q.src != q.dst && q.src < |s.nodes|
    ensures AnsweredRequest(s.nodes[q.dst], Next(s, Deliver(q)).nodes[q.dst], s.now, q, answer)
    ensures Packet(q.dst, q.src, s.now, answer) in Next(s, Deliver(q)).net
  {
    var n, e := s.nodes[q.dst], EffectOf(s, Deliver(q));
    assert n.id == q.dst;
    answer :| e.sends == {ToPeer(q.src, answer)};
    assert ToPeer(q.src, answer) in e.sends;
  }

  /** A node answers its own request with a vote and stays as it is. */
  lemma OwnVote(s: Sys, q: Packet)
    requires LeaseInv(s) && Enabled(s, Deliver(q)) && q.msg.VoteReq? && q.src == q.dst
    ensures Next(s, Deliver(q)).nodes == s.nodes
    ensures Packet(q.dst, q.dst, s.now, VoteRes(true, q.msg.term)) in Next(s, Deliver(q)).net
  {
    var e := EffectOf(s, Deliver(q));
    assert s.nodes[q.dst].id == q.dst;
    assert ToPeer(q.src, VoteRes(true, q.msg.term)) in e.sends;
  }

  lemma NewVoteRes(s: Sys, a: Action, p: Packet)
    requires LeaseInv(s) && Enabled(s, a) && p in Next(s, a).net && p !in s.net && p.msg.VoteRes? && p.src != p.dst
    ensures a.Deliver? && a.p.msg.VoteReq? && a.p.src == p.dst && a.p.dst == p.src
    ensures AnsweredRequest(s.nodes[p.src], Next(s, a).nodes[p.src], s.now, a.p, p.msg)
  {
    var x := SentNow(s, a, p);
    assert s.nodes[p.src].id == p.src;
  }

  /** Every answer on the wire was given to a request of its receiver, and is a vote exactly when
      the node that gave it followed the receiver or might vote for it. */
  lemma VoteGrounds(tr: seq<Sys>, acts: seq<Action>, k: nat, p: Packet) returns (j: nat)
    requires IsRun(tr, acts) && k < |tr| && p in tr[k].net && p.msg.VoteRes? && p.src != p.dst
    ensures j < k && p in tr[j + 1].net && p !in tr[j].net && p.sent == tr[j].now
    ensures acts[j].Deliver? && acts[j].p.msg.VoteReq? && acts[j].p.src == p.dst && acts[j].p.dst == p.src
    ensures p.src < |tr[j].nodes|
    ensures var n := tr[j].nodes[p.src];
      p.msg.success <==> n.role.Following(p.dst) || MayVote(n, p.sent, acts[j].p.msg)
    ensures p.msg.success ==> p.msg.term == acts[j].p.msg.term
  {
    j := SentAt(tr, acts, k, p);
    LeaseInvHolds(tr, acts, j);
    var x := SentNow(tr[j], acts[j], p);
    NewVoteRes(tr[j], acts[j], p);
  }

  // ----- Appends and their answers -------------------------------------------------------------

  /** The Append carries what the leader, `n` before and `n1` after a write, thinks peer `g` has
      accepted, the next entries it has for it, and how far it has learned. */
  ghost predicate AppendsTruly(n: Node, n1: Node, g: NodeId, p: Packet) {
    && p.msg.Append? && n.role.Leader? && n1.role == n.role
    && g in n.repPeers && g in n1.repPeers && n.repPeers[g].tok == p.dst
    && p.msg.fromTxid == n.repPeers[g].acceptedTxid && p.msg.fromTerm == n.repPeers[g].acceptedTerm
    && p.msg.batch == NextBatch(n1.log, n.repPeers[g].maxSent)
    && n1.repPeers[g] == n.repPeers[g].(maxSent := SentUpTo(n.repPeers[g].maxSent, p.msg.batch))
    && exists term :: Ends(n1.log.committed, p.msg.lastLearned, term)
  }

  lemma NewAppend(s: Sys, a: Action, p: Packet) returns (g: NodeId)
    requires Enabled(s, a) && p in Next(s, a).net && p !in s.net && p.msg.Append?
    ensures a.Client? && a.i == p.src && IsWrite(a.req) && p.src < |s.nodes| && p.sent == s.now
    ensures AppendsTruly(s.nodes[p.src], Next(s, a).nodes[p.src], g, p)
  {
    var x := SentNow(s, a, p);
    assert a.Client? && s.nodes[a.i].role.Leader? && IsWrite(a.req);
    g := WriteSends(s.nodes[a.i], a.who, a.req, x, p);
  }

  lemma WriteSends(n: Node, who: Requester, req: CliReq, x: Send, p: Packet) returns (g: NodeId)
    requires n.role.Leader? && IsWrite(req) && x in HandleCli(n, who, req).sends && x.msg == p.msg && x.dst == p.dst
    ensures AppendsTruly(n, HandleCli(n, who, req).node, g, p)
  {
    LeaderWrites(n, who, req);
    var n1 := AppendOwn(TakenBy(n, who), NextWrite(n, req)).0;
    g :| g in n1.repPeers && x == ToPeer(n1.repPeers[g].tok, AppendFor(n1, n1.repPeers[g]));
    assert Ends(n1.log.committed, LastTxid(n1.log.committed), LastTerm(n1.log.committed));
  }

  /** Every Append on the wire was sent by a leader when it took a write, and is true of it. */
  lemma AppendOrigin(tr: seq<Sys>, acts: seq<Action>, k: nat, p: Packet) returns (j: nat, g: NodeId)
    requires IsRun(tr, acts) && k < |tr| && p in tr[k].net && p.msg.Append?
    ensures j < k && p in tr[j + 1].net && p !in tr[j].net && p.sent == tr[j].now
    ensures acts[j].Client? && acts[j].i == p.src && IsWrite(acts[j].req)
    ensures p.src < |tr[j].nodes| && p.src < |tr[j + 1].nodes|
    ensures AppendsTruly(tr[j].nodes[p.src], tr[j + 1].nodes[p.src], g, p)
  {
    j := SentAt(tr, acts, k, p);
    g := NewAppend(tr[j], acts[j], p);
  }

  /** What a node `n` that leads nobody, and becomes `n1`, answers to the Append `q`: accepted,
      with the end of its log, if it follows the sender and its log ended where the Append links;
      refused otherwise and left as it is, with the end of its log if it follows the sender. */
  ghost predicate AnswersTruly(n: Node, n1: Node, q: Packet, m: Msg) {
    && q.msg.Append? && m.AppendRes? && !n.role.Leader? && !n1.halted
    && (m.accepted <==> n.role.Following(q.src) && Ends(Entries(n.log), q.msg.fromTxid, q.msg.fromTerm))
    && (m.accepted ==> Ends(Entries(n1.log), m.acceptedTxid, m.acceptedTerm))
    && (!m.accepted ==> n1 == n)
    && (!m.accepted && n.role.Following(q.src) ==> Ends(Entries(n.log), m.acceptedTxid, m.acceptedTerm))
    && (!n.role.Following(q.src) ==> m.acceptedTxid == 0 && m.acceptedTerm == 0)
  }

  lemma TakenLog(n: Node, tok: NodeId, a: Msg)
    requires a.Append? && TakeBatch(n.log, a.batch).Took?
    ensures Entries(TakeAppend(n, tok, a).node.log) == Entries(TakeBatch(n.log, a.batch).log)
  {
  }

  lemma AppendAnswered(n: Node, q: Packet, m: Msg)
    requires !n.halted && q.msg.Append? && ToPeer(q.src, m) in HandleAppend(n, q.src, q.src, q.msg).sends
    ensures AnswersTruly(n, HandleAppend(n, q.src, q.src, q.msg).node, q, m)
  {
    if !n.role.Leader? && n.role.Following(q.src) && Links(n, q.msg) && TakeBatch(n.log, q.msg.batch).Took? {
      TakenLog(n, q.src, q.msg);
    }
  }

  lemma NewAnswer(s: Sys, a: Action, p: Packet)
    requires Enabled(s, a) && p in Next(s, a).net && p !in s.net && p.msg.AppendRes?
    ensures a.Deliver? && a.p.msg.Append? && a.p.src == p.dst && a.p.dst == p.src
    ensures AnswersTruly(s.nodes[p.src], Next(s, a).nodes[p.src], a.p, p.msg)
  {
    var x := SentNow(s, a, p);
    assert a.Deliver? && a.p.msg.Append?;
    AppendAnswered(s.nodes[p.src], a.p, p.msg);
  }

  /** Every answer to an Append on the wire was given to one of its receiver, and is true of the
      node that gave it. */
  lemma AnswerOrigin(tr: seq<Sys>, acts: seq<Action>, k: nat, p: Packet) returns (j: nat)
    requires IsRun(tr, acts) && k < |tr| && p in tr[k].net && p.msg.AppendRes?
    ensures j < k && p in tr[j + 1].net && p !in tr[j].net
    ensures acts[j].Deliver? && acts[j].p.msg.Append? && acts[j].p.src == p.dst && acts[j].p.dst == p.src
    ensures p.src < |tr[j].nodes| && p.src < |tr[j + 1].nodes|
    ensures AnswersTruly(tr[j].nodes[p.src], tr[j + 1].nodes[p.src], acts[j].p, p.msg)
  {
    j := SentAt(tr, acts, k, p);
    NewAnswer(tr[j], acts[j], p);
  }

  /** A leader that hears from a node it replicates to takes over where that node says it is, and
      after a refusal sends again from there; its entries stay.  Others take no notice. */
  lemma AnswerHeard(s: Sys, p: Packet)
    requires Enabled(s, Deliver(p)) && p.msg.AppendRes?
    ensures var n, n1 := s.nodes[p.dst], Next(s, Deliver(p)).nodes[p.dst];
      && (!n.role.Leader? || p.src !in n.repPeers ==> n1 == n)
      && (n.role.Leader? && p.src in n.repPeers ==>
            && n1.role == n.role && n1.maxGenerated == n.maxGenerated && Entries(n1.log) == Entries(n.log)
            && n1.repPeers == n.repPeers[p.src := n.repPeers[p.src].(
                 acceptedTxid := p.msg.acceptedTxid, acceptedTerm := p.msg.acceptedTerm,
                 maxSent := if p.msg.accepted then n.repPeers[p.src].maxSent else p.msg.acceptedTxid)])
  {
  }

  /** A leader takes no Append. */
  lemma LeaderTakesNoAppend(s: Sys, q: Packet)
    requires Enabled(s, Deliver(q)) && q.msg.Append? && s.nodes[q.dst].role.Leader?
    ensures Next(s, Deliver(q)).nodes == s.nodes && Next(s, Deliver(q)).net == s.net
  {
    assert EffectOf(s, Deliver(q)) == Quiet(s.nodes[q.dst]);
  }

  /** A delivered Append is always answered, unless its receiver leads or halts. */
  lemma AppendIsAnswered(s: Sys, q: Packet) returns (m: Msg)
    requires Enabled(s, Deliver(q)) && q.msg.Append? && q.src < |s.nodes|
    requires !s.nodes[q.dst].role.Leader? && !Next(s, Deliver(q)).nodes[q.dst].halted
    ensures m.AppendRes? && Packet(q.dst, q.src, s.now, m) in Next(s, Deliver(q)).net
  {
    var e := EffectOf(s, Deliver(q));
    m :| e.sends == {ToPeer(q.src, m)};
    assert ToPeer(q.src, m) in e.sends;
  }
}
