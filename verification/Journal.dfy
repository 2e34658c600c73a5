/** What every node keeps in every run of the code as written, whatever messages arrive:
    transaction ids, the list of its entries, and the fate of each client write.  What the
    database holds and what the replies say is the subject of `Replicas`. */
module Journal {
  import opened Types
  import opened LogSpec
  import opened Harpoon
  import opened Cluster

  // ----- learning, one list of entries at a time -------------------------------------------

  /** The reply answers a write that is among `es`. */
  ghost predicate Known(r: Reply, es: seq<Rec<Mutation>>) {
    r.txid.Some? && exists x :: 0 <= x < |es| && es[x].txid == r.txid.value
  }

  /** The writes named by a list of replies. */
  function Answered(rs: seq<Reply>): set<TXID> {
    set r | r in rs && r.txid.Some? :: r.txid.value
  }

  /** The requests in `w` that `rs` does not answer. */
  function Minus(w: map<TXID, Requester>, rs: seq<Reply>): map<TXID, Requester> {
    w - Answered(rs)
  }

  /** Each reply to a write answers a different waiting write, to the client that asked. */
  ghost predicate AnswersOnce(w: map<TXID, Requester>, rs: seq<Reply>) {
    && (forall k :: 0 <= k < |rs| && rs[k].txid.Some? ==>
          rs[k].txid.value in w && rs[k].who == w[rs[k].txid.value])
    && (forall j, k :: 0 <= j < k < |rs| && rs[j].txid.Some? ==> rs[j].txid != rs[k].txid)
  }

  lemma AnsweredInTurn(w: map<TXID, Requester>, rs: seq<Reply>, more: seq<Reply>)
    requires AnswersOnce(w, rs) && AnswersOnce(Minus(w, rs), more)
    ensures AnswersOnce(w, rs + more) && Minus(Minus(w, rs), more) == Minus(w, rs + more)
  {
    assert Answered(rs + more) == Answered(rs) + Answered(more);
  }

  lemma LearnConserves(n: Node, txid: TXID)
    ensures var r := Learn(n, txid);
      AnswersOnce(n.waiting, r.1) && r.0.waiting == Minus(n.waiting, r.1)
  {
    var rs := Learn(n, txid).1;
    assert rs == [] ==> Answered(rs) == {};
    assert rs != [] ==> Answered(rs) == {txid};
  }

  lemma {:induction false} LearnAllConserves(n: Node, vs: seq<Version>)
    ensures var r := LearnAll(n, vs);
      AnswersOnce(n.waiting, r.1) && r.0.waiting == Minus(n.waiting, r.1)
    decreases vs
  {
    if vs != [] {
      var first := Learn(n, vs[0].txid);
      LearnConserves(n, vs[0].txid);
      LearnAllConserves(first.0, vs[1..]);
      AnsweredInTurn(n.waiting, first.1, LearnAll(first.0, vs[1..]).1);
    }
  }

  /** Replies are to writes among those learned. */
  lemma {:induction false} LearnAllNames(n: Node, vs: seq<Version>, k: nat) returns (j: nat)
    requires k < |LearnAll(n, vs).1|
    ensures j < |vs| && LearnAll(n, vs).1[k].txid == Some(vs[j].txid)
    decreases vs
  {
    var first := Learn(n, vs[0].txid);
    if k < |first.1| {
      j := 0;
    } else {
      j := LearnAllNames(first.0, vs[1..], k - |first.1|);
      j := j + 1;
    }
  }

  /** Learning the entries from position `x` on answers waiting writes among them, each once. */
  lemma LearnNew(n: Node, x: nat)
    requires x <= |n.log.committed|
    ensures var l := LearnAll(n, Versions(n.log.committed[x..]));
      && AnswersOnce(n.waiting, l.1) && l.0.waiting == Minus(n.waiting, l.1)
      && forall k :: 0 <= k < |l.1| ==> Known(l.1[k], n.log.committed)
  {
    var es := n.log.committed;
    var vs := Versions(es[x..]);
    LearnAllConserves(n, vs);
    forall k | 0 <= k < |LearnAll(n, vs).1|
      ensures Known(LearnAll(n, vs).1[k], es)
    {
      var j := LearnAllNames(n, vs, k);
      assert es[x + j].txid == vs[j].txid;
    }
  }

  /** `l'` is `l` with more of the same entries committed, which `vs` lists. */
  ghost predicate Advances(l: Log<Mutation>, l': Log<Mutation>, vs: seq<Version>) {
    && l.committed <= l'.committed && Entries(l') == Entries(l)
    && vs == Versions(l'.committed[|l.committed|..])
  }

  lemma AckAdvances(l: Log<Mutation>, txid: TXID, peer: NodeId)
    ensures var r := AckUpTo(l, txid, peer); Advances(l, r.0, r.1)
  {
    var r := AckUpTo(l, txid, peer);
    assert r.0.committed[|l.committed|..] == r.0.committed[|l.committed|..|r.0.committed|];
  }

  lemma CommitAdvances(l: Log<Mutation>, txid: TXID)
    ensures var r := CommitUpTo(l, txid); Advances(l, r.0, r.1)
  {
    var r := CommitUpTo(l, txid);
    assert r.0.committed[|l.committed|..] == Recs(l.pending[..Due(l.pending, txid)]);
  }

  // ----- one node, one handler -------------------------------------------------------------

  /** The id generator stands at the last accepted id, ids ascend, and no client waits for an
      id not yet issued. */
  ghost predicate NodeOk(n: Node) {
    && Ascending(Entries(n.log))
    && (!n.halted ==> n.maxGenerated == AcceptedTxid(n))
    && (forall x :: x in n.waiting ==> x <= AcceptedTxid(n))
  }

  lemma {:induction false} TakeBatchExtends(log: Log<Mutation>, batch: seq<Mutation>)
    requires Ascending(Entries(log))
    ensures var log' := TakeBatch(log, batch).log;
      && Ascending(Entries(log')) && Entries(log) <= Entries(log')
      && log' == log.(pending := log'.pending)
    decreases batch
  {
    if batch != [] && batch[0].version.term >= LastTerm(Entries(log)) {
      var v := batch[0].version;
      if v.txid <= LastTxid(Entries(log)) {
        TakeBatchExtends(log, batch[1..]);
      } else {
        AppendedEntries(log, v.term, v.txid, batch[0]);
        TakeBatchExtends(Appended(log, v.term, v.txid, batch[0]), batch[1..]);
      }
    }
  }

  lemma AppendedEntries(log: Log<Mutation>, term: Term, txid: TXID, m: Mutation)
    ensures Entries(Appended(log, term, txid, m)) == Entries(log) + [Rec(term, txid, m)]
  {
  }

  lemma AppendAscends(log: Log<Mutation>, term: Term, txid: TXID, m: Mutation)
    requires Ascending(Entries(log)) && LastTxid(Entries(log)) < txid
    ensures Ascending(Entries(Appended(log, term, txid, m)))
  {
    AppendedEntries(log, term, txid, m);
    AscendsMore(Entries(log), Rec(term, txid, m));
  }

  lemma AscendsMore(es: seq<Rec<Mutation>>, r: Rec<Mutation>)
    requires Ascending(es) && LastTxid(es) < r.txid
    ensures Ascending(es + [r])
  {
  }

  /** What a handler does to a node's own records; `w` is what its clients wait for when the
      handler starts answering. */
  ghost predicate KeepsRecords(n: Node, w: map<TXID, Requester>, e: Effect) {
    && NodeOk(e.node)
    && Entries(n.log) <= Entries(e.node.log) && n.log.committed <= e.node.log.committed
    && AnswersOnce(w, e.replies) && e.node.waiting == Minus(w, e.replies)
    && (forall j :: 0 <= j < |e.replies| && e.replies[j].txid.Some? ==>
          Known(e.replies[j], e.node.log.committed))
  }

  /** Replies that answer no write change nothing. */
  lemma NoAnswers(n: Node, e: Effect)
    requires NodeOk(n) && NodeOk(e.node)
    requires Entries(n.log) <= Entries(e.node.log) && n.log.committed <= e.node.log.committed
    requires e.node.waiting == n.waiting
    requires forall j :: 0 <= j < |e.replies| ==> e.replies[j].txid.None?
    ensures KeepsRecords(n, n.waiting, e)
  {
    assert Answered(e.replies) == {};
  }

  lemma AppendKeepsRecords(n: Node, tok: NodeId, peer: NodeId, a: Msg)
    requires NodeOk(n) && !n.halted && a.Append?
    ensures KeepsRecords(n, n.waiting, HandleAppend(n, tok, peer, a))
  {
    if !n.role.Leader? && n.role.Following(peer) && Links(n, a) {
      TakeKeepsRecords(n, tok, a);
    } else {
      NoAnswers(n, HandleAppend(n, tok, peer, a));
    }
  }

  lemma TakeKeepsRecords(n: Node, tok: NodeId, a: Msg)
    requires NodeOk(n) && !n.halted && a.Append?
    ensures KeepsRecords(n, n.waiting, TakeAppend(n, tok, a))
  {
    TakeBatchExtends(n.log, a.batch);
    var r := TakeBatch(n.log, a.batch);
    if r.Took? {
      var n1 := n.(log := r.log, maxGenerated := LastTxid(Entries(r.log)));
      LastTxidGrows(Entries(n.log), Entries(r.log));
      CommitKeepsRecords(n, n1, a.lastLearned, TakeAppend(n, tok, a));
    } else {
      NoAnswers(n, TakeAppend(n, tok, a));
    }
  }

  /** `n1` is `n` with a longer log; it commits up to `txid`, learns that and answers. */
  lemma CommitKeepsRecords(n: Node, n1: Node, txid: TXID, e: Effect)
    requires NodeOk(n1) && n1.waiting == n.waiting
    requires Entries(n.log) <= Entries(n1.log) && n.log.committed == n1.log.committed
    requires var c := CommitUpTo(n1.log, txid); (e.node, e.replies) == LearnAll(n1.(log := c.0), c.1)
    ensures KeepsRecords(n, n.waiting, e)
  {
    CommitAdvances(n1.log, txid);
    LearnNew(n1.(log := CommitUpTo(n1.log, txid).0), |n1.log.committed|);
  }

  /** `n1` is `n` with its peers brought up to date; it acknowledges, learns and answers. */
  lemma AckKeepsRecords(n: Node, n1: Node, txid: TXID, peer: NodeId, e: Effect)
    requires NodeOk(n) && n1 == n.(repPeers := n1.repPeers)
    requires var r := AckUpTo(n.log, txid, peer); (e.node, e.replies) == LearnAll(n1.(log := r.0), r.1)
    ensures KeepsRecords(n, n.waiting, e)
  {
    AckAdvances(n.log, txid, peer);
    LearnNew(n1.(log := AckUpTo(n.log, txid, peer).0), |n.log.committed|);
  }

  lemma AppendResKeepsRecords(n: Node, peer: NodeId, res: Msg)
    requires NodeOk(n) && !n.halted && res.AppendRes?
    ensures KeepsRecords(n, n.waiting, HandleAppendRes(n, peer, res))
  {
    var e := HandleAppendRes(n, peer, res);
    if n.role.Leader? && peer in n.repPeers {
      AckKeepsRecords(n, n.(repPeers := e.node.repPeers), res.acceptedTxid, peer, e);
    } else {
      NoAnswers(n, e);
    }
  }

  /** The requests a node's clients wait for once it has taken this one. */
  function WaitingWith(n: Node, who: Requester, req: CliReq): map<TXID, Requester> {
    if n.role.Leader? && IsWrite(req) then n.waiting[n.maxGenerated + 1 := who] else n.waiting
  }

  lemma AppendOwnAdds(n: Node, m: Mutation)
    requires !n.halted && AcceptedTxid(n) < m.version.txid
    ensures var r := AppendOwn(n, m); var v := m.version;
      && !r.0.halted
      && Entries(r.0.log) == Entries(n.log) + [Rec(v.term, v.txid, m)]
      && r.0.log == AckUpTo(Appended(n.log, v.term, v.txid, m), v.txid, n.id).0
  {
    AppendedEntries(n.log, m.version.term, m.version.txid, m);
  }

  /** Appending its own write is all a leader does to its records; sending changes none. */
  lemma AppendOwnKeeps(n: Node, m: Mutation)
    requires Ascending(Entries(n.log)) && !n.halted
    requires AcceptedTxid(n) < m.version.txid
    ensures var r := AppendOwn(n, m);
      && !r.0.halted
      && Entries(r.0.log) == Entries(n.log) + [Rec(m.version.term, m.version.txid, m)]
      && Ascending(Entries(r.0.log))
      && n.log.committed <= r.0.log.committed
      && AnswersOnce(n.waiting, r.1) && r.0.waiting == Minus(n.waiting, r.1)
      && forall j :: 0 <= j < |r.1| ==> Known(r.1[j], r.0.log.committed)
  {
    var v := m.version;
    var l0 := Appended(n.log, v.term, v.txid, m);
    AppendOwnAdds(n, m);
    AppendAscends(n.log, v.term, v.txid, m);
    AckAdvances(l0, v.txid, n.id);
    LearnNew(n.(log := AckUpTo(l0, v.txid, n.id).0), |n.log.committed|);
  }

  lemma WriteKeepsRecords(n: Node, who: Requester, req: CliReq)
    requires NodeOk(n) && !n.halted && n.role.Leader? && IsWrite(req)
    ensures var e := HandleCli(n, who, req);
      && KeepsRecords(n, WaitingWith(n, who, req), e)
      && !e.node.halted
      && AcceptedTxid(n) < n.maxGenerated + 1 == AcceptedTxid(e.node)
  {
    var n1 := TakenBy(n, who);
    var m := NextWrite(n, req);
    assert m.version == Version(n.maxGenerated + 1, n.role.term);
    AppendOwnKeeps(n1, m);
    OwnWriteOk(n1, m, AppendOwn(n1, m));
    LeaderWrites(n, who, req);
  }

  lemma OwnWriteOk(n: Node, m: Mutation, r: (Node, seq<Reply>))
    requires !n.halted && n.maxGenerated == m.version.txid
    requires forall x :: x in n.waiting ==> x <= m.version.txid
    requires r == AppendOwn(n, m) && !r.0.halted && r.0.waiting == Minus(n.waiting, r.1)
    requires Entries(r.0.log) == Entries(n.log) + [Rec(m.version.term, m.version.txid, m)]
    requires Ascending(Entries(r.0.log))
    ensures AcceptedTxid(r.0) == m.version.txid && NodeOk(r.0)
  {
  }

  lemma CliKeepsRecords(n: Node, who: Requester, req: CliReq)
    requires NodeOk(n) && !n.halted
    ensures var e := HandleCli(n, who, req);
      && KeepsRecords(n, WaitingWith(n, who, req), e)
      && !e.node.halted
      && (n.role.Leader? && IsWrite(req) ==> AcceptedTxid(n) < n.maxGenerated + 1 == AcceptedTxid(e.node))
  {
    if n.role.Leader? && IsWrite(req) {
      WriteKeepsRecords(n, who, req);
    } else {
      NoAnswers(n, HandleCli(n, who, req));
    }
  }

  lemma PeerKeepsRecords(n: Node, now: Time, from: NodeId, msg: Msg)
    requires NodeOk(n) && !n.halted
    ensures KeepsRecords(n, n.waiting, HandlePeer(n, now, from, msg))
  {
    match msg
    case Append(_, _, _, _) => AppendKeepsRecords(n, from, from, msg);
    case AppendRes(_, _, _) => AppendResKeepsRecords(n, from, msg);
    case VoteReq(_, _, _, _, _) => NoAnswers(n, HandleVoteReq(n, now, from, from, from, msg));
    case VoteRes(_, _) => NoAnswers(n, HandleVoteRes(n, now, from, from, from, msg));
  }

  /** The write `took` a node took is numbered just above what it had accepted, and from then
      on its client waits. */
  ghost predicate TakesNext(n: Node, i: NodeId, e: Effect, took: seq<Taken>, w: map<TXID, Requester>) {
    || (took == [] && w == n.waiting)
    || (|took| == 1 && took[0].node == i && AcceptedTxid(n) < took[0].txid == AcceptedTxid(e.node)
        && w == n.waiting[took[0].txid := took[0].who])
  }

  lemma ClientKeepsRecords(s: Sys, a: Action)
    requires Enabled(s, a) && a.Client? && NodeOk(s.nodes[a.i])
    ensures var n, e, w := s.nodes[a.i], EffectOf(s, a), WaitingWith(s.nodes[a.i], a.who, a.req);
      KeepsRecords(n, w, e) && TakesNext(n, a.i, e, NewlyTaken(s, a), w) && !e.node.halted
  {
    CliKeepsRecords(s.nodes[a.i], a.who, a.req);
  }

  lemma CronKeepsRecords(n: Node, now: Time)
    requires NodeOk(n)
    ensures KeepsRecords(n, n.waiting, Cron(n, now))
  {
    NoAnswers(n, Cron(n, now));
  }

  lemma ActionKeepsRecords(s: Sys, a: Action) returns (w: map<TXID, Requester>)
    requires Enabled(s, a) && !a.Tick? && NodeOk(s.nodes[Actor(a)])
    ensures KeepsRecords(s.nodes[Actor(a)], w, EffectOf(s, a))
    ensures TakesNext(s.nodes[Actor(a)], Actor(a), EffectOf(s, a), NewlyTaken(s, a), w)
    ensures a.Client? ==> !EffectOf(s, a).node.halted
  {
    var n := s.nodes[Actor(a)];
    match a
    case CronAt(_) =>
      w := n.waiting;
      CronKeepsRecords(n, s.now);
    case Deliver(p) =>
      w := n.waiting;
      PeerKeepsRecords(n, s.now, p.src, p.msg);
    case Client(_, who, req) =>
      w := WaitingWith(n, who, req);
      ClientKeepsRecords(s, a);
  }

  // ----- whole runs --------------------------------------------------------------------------

  /** The generators agree with the logs. */
  ghost predicate RecordsAgree(s: Sys) {
    forall i :: 0 <= i < |s.nodes| ==> NodeOk(s.nodes[i])
  }

  /** The write `t` is still waiting at its node, for its client. */
  predicate Waits(s: Sys, t: Taken) {
    t.node < |s.nodes| && t.txid in s.nodes[t.node].waiting && s.nodes[t.node].waiting[t.txid] == t.who
  }

  /** The `k`-th reply of the run answers the write `t`, to its client. */
  predicate Answers(s: Sys, t: Taken, k: nat) {
    k < |s.gave| && s.gave[k].node == t.node && s.gave[k].reply.txid == Some(t.txid) && s.gave[k].reply.who == t.who
  }

  /** No write is answered twice. */
  ghost predicate NoSecondAnswer(gave: seq<Gave>) {
    forall j, k :: 0 <= j < k < |gave| && gave[j].reply.txid.Some? && gave[j].node == gave[k].node ==>
      gave[j].reply.txid != gave[k].reply.txid
  }

  /** Ids a node issues are ever larger, and no larger than what it has accepted. */
  ghost predicate IdsAscend(s: Sys) {
    && (forall j :: 0 <= j < |s.taken| ==>
          s.taken[j].node < |s.nodes| && s.taken[j].txid <= AcceptedTxid(s.nodes[s.taken[j].node]))
    && (forall j, k :: 0 <= j < k < |s.taken| && s.taken[j].node == s.taken[k].node ==>
          s.taken[j].txid < s.taken[k].txid)
  }

  /** A reply to a write is for an entry its node has learned. */
  ghost predicate RepliesKnown(s: Sys) {
    forall k :: 0 <= k < |s.gave| && s.gave[k].reply.txid.Some? ==>
      s.gave[k].node < |s.nodes| && Known(s.gave[k].reply, s.nodes[s.gave[k].node].log.committed)
  }

  /** What waits was taken; what was answered no longer waits, and was taken; and what was
      taken waits or was answered. */
  ghost predicate Accounted(s: Sys) {
    && (forall i, x :: 0 <= i < |s.nodes| && x in s.nodes[i].waiting ==>
          Taken(i, x, s.nodes[i].waiting[x]) in s.taken)
    && (forall k :: 0 <= k < |s.gave| && s.gave[k].reply.txid.Some? ==>
          var g := s.gave[k];
          && g.node < |s.nodes|
          && g.reply.txid.value !in s.nodes[g.node].waiting
          && Taken(g.node, g.reply.txid.value, g.reply.who) in s.taken)
    && (forall t :: t in s.taken ==> Waits(s, t) || exists k :: Answers(s, t, k))
  }

  ghost predicate JournalInv(s: Sys) {
    RecordsAgree(s) && IdsAscend(s) && RepliesKnown(s) && Accounted(s) && NoSecondAnswer(s.gave)
  }

  /** A node doing `e`, having taken the writes `took`. */
  ghost predicate Acts(s: Sys, i: NodeId, e: Effect, took: seq<Taken>, w: map<TXID, Requester>) {
    && JournalInv(s) && i < |s.nodes|
    && KeepsRecords(s.nodes[i], w, e) && TakesNext(s.nodes[i], i, e, took, w)
  }

  lemma IdsAfter(s: Sys, i: NodeId, e: Effect, took: seq<Taken>, w: map<TXID, Requester>)
    requires Acts(s, i, e, took, w)
    ensures RecordsAgree(After(s, i, e, took)) && IdsAscend(After(s, i, e, took))
  {
    var s' := After(s, i, e, took);
    forall j | 0 <= j < |s'.taken|
      ensures s'.taken[j].node < |s'.nodes| && s'.taken[j].txid <= AcceptedTxid(s'.nodes[s'.taken[j].node])
    {
      TakenIsHeld(s, i, e, took, w, j);
    }
    forall j, k | 0 <= j < k < |s'.taken| && s'.taken[j].node == s'.taken[k].node
      ensures s'.taken[j].txid < s'.taken[k].txid
    {
      TakenAscends(s, i, e, took, w, j, k);
    }
  }

  /** An id that was handed out is not above the last accepted one. */
  lemma TakenIsHeld(s: Sys, i: NodeId, e: Effect, took: seq<Taken>, w: map<TXID, Requester>, j: nat)
    requires Acts(s, i, e, took, w) && j < |After(s, i, e, took).taken|
    ensures var s' := After(s, i, e, took);
      s'.taken[j].node < |s'.nodes| && s'.taken[j].txid <= AcceptedTxid(s'.nodes[s'.taken[j].node])
  {
    LastTxidGrows(Entries(s.nodes[i].log), Entries(e.node.log));
    if j < |s.taken| {
      assert After(s, i, e, took).taken[j] == s.taken[j];
    }
  }

  lemma TakenAscends(s: Sys, i: NodeId, e: Effect, took: seq<Taken>, w: map<TXID, Requester>, j: nat, k: nat)
    requires Acts(s, i, e, took, w) && j < k < |After(s, i, e, took).taken|
    requires var s' := After(s, i, e, took); s'.taken[j].node == s'.taken[k].node
    ensures var s' := After(s, i, e, took); s'.taken[j].txid < s'.taken[k].txid
  {
    assert After(s, i, e, took).taken[j] == s.taken[j];
  }

  lemma LastTxidGrows(es: seq<Rec<Mutation>>, es': seq<Rec<Mutation>>)
    requires es <= es' && Ascending(es')
    ensures LastTxid(es) <= LastTxid(es')
  {
  }

  lemma KnownGrows(r: Reply, es: seq<Rec<Mutation>>, es': seq<Rec<Mutation>>)
    requires Known(r, es) && es <= es'
    ensures Known(r, es')
  {
    var x :| 0 <= x < |es| && es[x].txid == r.txid.value;
    assert es'[x] == es[x];
  }

  lemma KnownAfter(s: Sys, i: NodeId, e: Effect, took: seq<Taken>, w: map<TXID, Requester>)
    requires Acts(s, i, e, took, w)
    ensures RepliesKnown(After(s, i, e, took))
  {
    var s' := After(s, i, e, took);
    forall k | 0 <= k < |s'.gave| && s'.gave[k].reply.txid.Some?
      ensures s'.gave[k].node < |s'.nodes| && Known(s'.gave[k].reply, s'.nodes[s'.gave[k].node].log.committed)
    {
      if k < |s.gave| {
        assert s'.gave[k] == s.gave[k];
        if s.gave[k].node == i {
          KnownGrows(s.gave[k].reply, s.nodes[i].log.committed, e.node.log.committed);
        }
      } else {
        assert s'.gave[k].reply == e.replies[k - |s.gave|];
      }
    }
  }

  /** A write just answered was never answered before and now waits no longer. */
  lemma NewAnswer(s: Sys, i: NodeId, e: Effect, took: seq<Taken>, w: map<TXID, Requester>, m: nat)
    requires Acts(s, i, e, took, w) && m < |e.replies| && e.replies[m].txid.Some?
    ensures var r := e.replies[m];
      && r.txid.value !in e.node.waiting
      && Taken(i, r.txid.value, r.who) in s.taken + took
      && forall k :: 0 <= k < |s.gave| && s.gave[k].node == i && s.gave[k].reply.txid.Some? ==>
           s.gave[k].reply.txid != r.txid
  {
    var r := e.replies[m];
    assert r.txid.value in Answered(e.replies);
    if r.txid.value in s.nodes[i].waiting && w == s.nodes[i].waiting {
      assert Taken(i, r.txid.value, r.who) in s.taken;
    } else if took != [] && r.txid.value == took[0].txid {
      assert took[0] == Taken(i, r.txid.value, r.who);
      forall k | 0 <= k < |s.gave| && s.gave[k].node == i && s.gave[k].reply.txid.Some?
        ensures s.gave[k].reply.txid != r.txid
      {
        var g := s.gave[k];
        assert Taken(g.node, g.reply.txid.value, g.reply.who) in s.taken;
      }
    }
  }

  lemma AnswersAfter(s: Sys, i: NodeId, e: Effect, took: seq<Taken>, w: map<TXID, Requester>)
    requires Acts(s, i, e, took, w)
    ensures NoSecondAnswer(After(s, i, e, took).gave)
  {
    var gave' := After(s, i, e, took).gave;
    forall j, k | 0 <= j < k < |gave'| && gave'[j].reply.txid.Some? && gave'[j].node == gave'[k].node
      ensures gave'[j].reply.txid != gave'[k].reply.txid
    {
      if k < |s.gave| {
        assert gave'[j] == s.gave[j] && gave'[k] == s.gave[k];
      } else if gave'[k].reply.txid.Some? {
        assert gave'[k] == Gave(i, e.replies[k - |s.gave|]);
        NewAnswer(s, i, e, took, w, k - |s.gave|);
        if j < |s.gave| {
          assert gave'[j] == s.gave[j];
        }
      }
    }
  }

  /** A write that was waiting or has just been taken waits on, or is among the new answers. */
  lemma StillAccounted(s: Sys, i: NodeId, e: Effect, took: seq<Taken>, w: map<TXID, Requester>, t: Taken)
    requires i < |s.nodes| && AnswersOnce(w, e.replies) && e.node.waiting == Minus(w, e.replies)
    requires t.node == i && t.txid in w && w[t.txid] == t.who
    ensures var s' := After(s, i, e, took); Waits(s', t) || exists k :: Answers(s', t, k)
  {
    var s' := After(s, i, e, took);
    if t.txid in Answered(e.replies) {
      var r :| r in e.replies && r.txid == Some(t.txid);
      var m :| 0 <= m < |e.replies| && e.replies[m] == r;
      assert s'.gave[|s.gave| + m] == Gave(i, r);
      assert Answers(s', t, |s.gave| + m);
    }
  }

  lemma WaitingAfter(s: Sys, i: NodeId, e: Effect, took: seq<Taken>, w: map<TXID, Requester>)
    requires Acts(s, i, e, took, w)
    ensures var s' := After(s, i, e, took);
      forall j, x :: 0 <= j < |s'.nodes| && x in s'.nodes[j].waiting ==>
        Taken(j, x, s'.nodes[j].waiting[x]) in s'.taken
  {
    var s' := After(s, i, e, took);
    forall j, x | 0 <= j < |s'.nodes| && x in s'.nodes[j].waiting
      ensures Taken(j, x, s'.nodes[j].waiting[x]) in s'.taken
    {
      if j == i && took != [] && x == took[0].txid {
        assert s'.taken[|s.taken|] == took[0];
        assert took[0] == Taken(j, x, s'.nodes[j].waiting[x]);
      } else {
        assert Taken(j, x, s.nodes[j].waiting[x]) in s.taken;
      }
    }
  }

  lemma TakenAfter(s: Sys, i: NodeId, e: Effect, took: seq<Taken>, w: map<TXID, Requester>)
    requires Acts(s, i, e, took, w)
    ensures var s' := After(s, i, e, took);
      forall t :: t in s'.taken ==> Waits(s', t) || exists k :: Answers(s', t, k)
  {
    var s' := After(s, i, e, took);
    forall t | t in s'.taken
      ensures Waits(s', t) || exists k :: Answers(s', t, k)
    {
      if t in took {
        StillAccounted(s, i, e, took, w, t);
      } else if Waits(s, t) && t.node == i {
        assert took != [] ==> t.txid != took[0].txid;
        StillAccounted(s, i, e, took, w, t);
      } else if !Waits(s, t) {
        var k :| Answers(s, t, k);
        assert Answers(s', t, k);
      }
    }
  }

  lemma AccountedAfter(s: Sys, i: NodeId, e: Effect, took: seq<Taken>, w: map<TXID, Requester>)
    requires Acts(s, i, e, took, w)
    ensures Accounted(After(s, i, e, took))
  {
    var s' := After(s, i, e, took);
    WaitingAfter(s, i, e, took, w);
    TakenAfter(s, i, e, took, w);
    forall k | 0 <= k < |s'.gave| && s'.gave[k].reply.txid.Some?
      ensures var g := s'.gave[k];
        g.node < |s'.nodes| && g.reply.txid.value !in s'.nodes[g.node].waiting &&
        Taken(g.node, g.reply.txid.value, g.reply.who) in s'.taken
    {
      if k < |s.gave| {
        var g := s.gave[k];
        assert s'.gave[k] == g && Taken(g.node, g.reply.txid.value, g.reply.who) in s.taken;
      } else {
        NewAnswer(s, i, e, took, w, k - |s.gave|);
      }
    }
  }

  lemma JournalStep(s: Sys, a: Action)
    requires JournalInv(s) && Enabled(s, a)
    ensures JournalInv(Next(s, a))
  {
    if a.Tick? {
      JournalIgnoresClock(s, Next(s, a));
    } else {
      var i, e, took := Actor(a), EffectOf(s, a), NewlyTaken(s, a);
      var w := ActionKeepsRecords(s, a);
      IdsAfter(s, i, e, took, w);
      KnownAfter(s, i, e, took, w);
      AnswersAfter(s, i, e, took, w);
      AccountedAfter(s, i, e, took, w);
    }
  }

  lemma JournalIgnoresClock(s: Sys, s': Sys)
    requires JournalInv(s) && s' == s.(now := s'.now)
    ensures JournalInv(s')
  {
    forall t | t in s'.taken
      ensures Waits(s', t) || exists k :: Answers(s', t, k)
    {
      if !Waits(s, t) {
        var k :| Answers(s, t, k);
        assert Answers(s', t, k);
      }
    }
  }

  lemma {:induction false} JournalInvHolds(tr: seq<Sys>, acts: seq<Action>, k: nat)
    requires IsRun(tr, acts) && k < |tr| && RecordsAgree(tr[0])
    ensures JournalInv(tr[k])
  {
    if k > 0 {
      JournalInvHolds(tr, acts, k - 1);
      JournalStep(tr[k - 1], acts[k - 1]);
    }
  }

  // ----- the theorems ------------------------------------------------------------------------

  /** If the id generators start at the last accepted ids they are there between any two
      handler calls, whatever roles a node goes through; no node issues an id twice; and
      taking a client's request never trips the assertion in `append`. */
  lemma TransactionIds(tr: seq<Sys>, acts: seq<Action>, k: nat)
    requires IsRun(tr, acts) && k < |tr| && RecordsAgree(tr[0])
    ensures forall i :: 0 <= i < |tr[k].nodes| && !tr[k].nodes[i].halted ==>
      tr[k].nodes[i].maxGenerated == AcceptedTxid(tr[k].nodes[i])
    ensures forall x, y :: 0 <= x < y < |tr[k].taken| && tr[k].taken[x].node == tr[k].taken[y].node ==>
      tr[k].taken[x].txid < tr[k].taken[y].txid
    ensures k < |acts| && acts[k].Client? ==>
      acts[k].i < |tr[k + 1].nodes| && !tr[k + 1].nodes[acts[k].i].halted
  {
    JournalInvHolds(tr, acts, k);
    assert forall i :: 0 <= i < |tr[k].nodes| ==> NodeOk(tr[k].nodes[i]);
    if k < |acts| && acts[k].Client? {
      var w := ActionKeepsRecords(tr[k], acts[k]);
    }
  }

  /** Every node's log and learned log at `s` are prefixes of those at `s'`. */
  ghost predicate LogsGrow(s: Sys, s': Sys) {
    |s'.nodes| == |s.nodes| && forall i :: 0 <= i < |s.nodes| ==>
      Entries(s.nodes[i].log) <= Entries(s'.nodes[i].log) && s.nodes[i].log.committed <= s'.nodes[i].log.committed
  }

  lemma LogsGrowStep(s: Sys, a: Action)
    requires JournalInv(s) && Enabled(s, a)
    ensures LogsGrow(s, Next(s, a))
  {
    if !a.Tick? {
      var w := ActionKeepsRecords(s, a);
    }
  }

  lemma {:induction false} GrowChain(tr: seq<Sys>, j: nat, k: nat)
    requires j <= k < |tr| && forall m :: j <= m < k ==> LogsGrow(tr[m], tr[m + 1])
    ensures LogsGrow(tr[j], tr[k])
    decreases k
  {
    if j < k {
      GrowChain(tr, j, k - 1);
      assert LogsGrow(tr[k - 1], tr[k - 1 + 1]);
      GrowTransitive(tr[j], tr[k - 1], tr[k]);
    }
  }

  /** No node, leader or not, ever overwrites, reorders or deletes an entry of its log, or
      unlearns one: its logs at any moment are prefixes of its logs at any later moment. */
  lemma NodesAppendOnly(tr: seq<Sys>, acts: seq<Action>, j: nat, k: nat)
    requires IsRun(tr, acts) && j <= k < |tr| && RecordsAgree(tr[0])
    ensures LogsGrow(tr[j], tr[k])
  {
    forall m | j <= m < k
      ensures LogsGrow(tr[m], tr[m + 1])
    {
      JournalInvHolds(tr, acts, m);
      LogsGrowStep(tr[m], acts[m]);
    }
    GrowChain(tr, j, k);
  }

  lemma GrowTransitive(a: Sys, b: Sys, c: Sys)
    requires LogsGrow(a, b) && LogsGrow(b, c)
    ensures LogsGrow(a, c)
  {
  }

  /** Every write a leader took is waiting at that node and unanswered, or answered exactly
      once and no longer waiting; the answer goes to the client that asked and comes after the
      write was learned. */
  lemma ClientConservation(tr: seq<Sys>, acts: seq<Action>, k: nat, t: Taken)
    requires IsRun(tr, acts) && k < |tr| && RecordsAgree(tr[0])
    requires t in tr[k].taken
    ensures Waits(tr[k], t) <==> !exists m: nat :: Answers(tr[k], t, m)
    ensures forall m: nat, m': nat :: Answers(tr[k], t, m) && Answers(tr[k], t, m') ==> m == m'
    ensures forall m: nat :: Answers(tr[k], t, m) ==>
      t.node < |tr[k].nodes| && Known(tr[k].gave[m].reply, tr[k].nodes[t.node].log.committed)
  {
    JournalInvHolds(tr, acts, k);
  }

  // ----- a write and its request ---------------------------------------------------------------

  /** Step `c` of the run is the request of which the write `t` was made. */
  ghost predicate TookAt(tr: seq<Sys>, acts: seq<Action>, c: nat, t: Taken)
    requires IsRun(tr, acts)
  {
    c < |acts| && NewlyTaken(tr[c], acts[c]) == [t]
  }

  lemma TakenStep(s: Sys, a: Action, t: Taken)
    requires Enabled(s, a) && t in Next(s, a).taken
    ensures t in s.taken || NewlyTaken(s, a) == [t]
  {
  }

  lemma RequestOf(s: Sys, a: Action, t: Taken)
    requires Enabled(s, a) && NewlyTaken(s, a) == [t]
    ensures a.Client? && a == Client(t.node, t.who, a.req) && IsWrite(a.req)
  {
  }

  lemma {:induction false} FirstIn(tr: seq<Sys>, k: nat, t: Taken) returns (c: nat)
    requires k < |tr| && tr[0].taken == [] && t in tr[k].taken
    ensures c < k && t !in tr[c].taken && t in tr[c + 1].taken
  {
    if t in tr[k - 1].taken {
      c := FirstIn(tr, k - 1, t);
    } else {
      c := k - 1;
    }
  }

  lemma FirstTaken(tr: seq<Sys>, acts: seq<Action>, k: nat, t: Taken) returns (c: nat)
    requires IsRun(tr, acts) && k < |tr| && t in tr[k].taken
    ensures c < k && TookAt(tr, acts, c, t)
  {
    c := FirstIn(tr, k, t);
    TakenStep(tr[c], acts[c], t);
  }

  /** Every write was made of a request, of the client that is to be answered. */
  lemma TakenByRequest(tr: seq<Sys>, acts: seq<Action>, k: nat, t: Taken) returns (c: nat)
    requires IsRun(tr, acts) && k < |tr| && t in tr[k].taken
    ensures c < k && TookAt(tr, acts, c, t)
    ensures acts[c] == Client(t.node, t.who, acts[c].req) && IsWrite(acts[c].req)
  {
    c := FirstTaken(tr, acts, k, t);
    RequestOf(tr[c], acts[c], t);
  }

  /** The entry `r` is what a write request asks for, under this term and id.  A compare-and-set
      that names no new or no expected value gets the empty one. */
  predicate MadeOf(r: Rec<Mutation>, req: CliReq, term: Term, txid: TXID) {
    && r.term == term && r.txid == txid && r.entry.version == Version(txid, term)
    && match req
       case SetReq(key, value) => r.entry.kind.KVSET? && r.entry.key == key && r.entry.value == value
       case CasReq(key, newValue, oldValue) =>
         && r.entry.kind.KVCAS? && r.entry.key == key
         && r.entry.value == (if newValue.Some? then newValue.value else [])
         && r.entry.oldValue == Some(if oldValue.Some? then oldValue.value else [])
       case DelReq(key) => r.entry.kind.KVDEL? && r.entry.key == key
       case _ => false
  }

  /** The entry a leader makes of the write request `req`. */
  function RequestEntry(n: Node, req: CliReq): Rec<Mutation>
    requires n.role.Leader? && IsWrite(req)
  {
    var m := NextWrite(n, req);
    Rec(m.version.term, m.version.txid, m)
  }

  lemma WriteRecorded(n: Node, who: Requester, req: CliReq)
    requires NodeOk(n) && !n.halted && n.role.Leader? && IsWrite(req)
    ensures Entries(HandleCli(n, who, req).node.log) == Entries(n.log) + [RequestEntry(n, req)]
  {
    LeaderWrites(n, who, req);
    AppendOwnAdds(TakenBy(n, who), NextWrite(n, req));
  }

  /** The entry made of a request stands in the log of the node that took it, at the position
      that was next then, ever after, and nothing else has its id. */
  lemma RequestKept(tr: seq<Sys>, acts: seq<Action>, c: nat, k: nat, t: Taken)
    requires IsRun(tr, acts) && c < k < |tr| && RecordsAgree(tr[0]) && TookAt(tr, acts, c, t)
    ensures t.node < |tr[c].nodes| && t.node < |tr[k].nodes| && acts[c].Client? && IsWrite(acts[c].req)
    ensures tr[c].nodes[t.node].role.Leader?
    ensures var x, es := |Entries(tr[c].nodes[t.node].log)|, Entries(tr[k].nodes[t.node].log);
      && x < |es| && MadeOf(es[x], acts[c].req, tr[c].nodes[t.node].role.term, t.txid)
      && forall y :: 0 <= y < |es| && es[y].txid == t.txid ==> y == x
  {
    JournalInvHolds(tr, acts, c);
    JournalInvHolds(tr, acts, k);
    WriteRecorded(tr[c].nodes[t.node], t.who, acts[c].req);
    NodesAppendOnly(tr, acts, c + 1, k);
    RecordStays(tr[c].nodes[t.node], acts[c].req, tr[c + 1].nodes[t.node].log, tr[k].nodes[t.node]);
  }

  /** A write is taken at one step only. */
  lemma TookBefore(tr: seq<Sys>, acts: seq<Action>, k: nat, c: nat, t: Taken)
    requires IsRun(tr, acts) && k < |tr| && RecordsAgree(tr[0]) && t in tr[k].taken && TookAt(tr, acts, c, t)
    ensures c < k
  {
    if k <= c {
      JournalInvHolds(tr, acts, c);
      NewIsFresh(tr[c], acts[c], t);
      TakenStays(tr, acts, k, c, t);
    }
  }

  lemma NewIsFresh(s: Sys, a: Action, t: Taken)
    requires JournalInv(s) && Enabled(s, a) && NewlyTaken(s, a) == [t]
    ensures t !in s.taken
  {
    assert NodeOk(s.nodes[t.node]);
  }

  lemma {:induction false} TakenChain(tr: seq<Sys>, k: nat, c: nat, t: Taken)
    requires k <= c < |tr| && t in tr[k].taken
    requires forall m :: k <= m < c && t in tr[m].taken ==> t in tr[m + 1].taken
    ensures t in tr[c].taken
    decreases c
  {
    if k < c {
      TakenChain(tr, k, c - 1, t);
      assert t in tr[c - 1 + 1].taken;
    }
  }

  lemma TakenStays(tr: seq<Sys>, acts: seq<Action>, k: nat, c: nat, t: Taken)
    requires IsRun(tr, acts) && k <= c < |tr| && t in tr[k].taken
    ensures t in tr[c].taken
  {
    forall m | k <= m < c && t in tr[m].taken
      ensures t in tr[m + 1].taken
    {
      TakenKept(tr[m], acts[m], t);
    }
    TakenChain(tr, k, c, t);
  }

  lemma TakenKept(s: Sys, a: Action, t: Taken)
    requires Enabled(s, a) && t in s.taken
    ensures t in Next(s, a).taken
  {
  }

  lemma RecordStays(n: Node, req: CliReq, l: Log<Mutation>, n1: Node)
    requires n.role.Leader? && IsWrite(req) && NodeOk(n1)
    requires Entries(l) == Entries(n.log) + [RequestEntry(n, req)] && Entries(l) <= Entries(n1.log)
    ensures var x, es := |Entries(n.log)|, Entries(n1.log);
      && x < |es| && es[x] == RequestEntry(n, req)
      && forall y :: 0 <= y < |es| && es[y].txid == es[x].txid ==> y == x
  {
    assert Entries(l)[|Entries(n.log)|] == RequestEntry(n, req);
  }
}
