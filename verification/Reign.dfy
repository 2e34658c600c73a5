/** Replication under one leader, and the election of its first successor. */
module Reign {
  import opened Types
  import opened LogSpec
  import opened Harpoon
  import opened Cluster
  import opened Leases
  import opened Wire
  import opened Journal
  import opened Replicas
  import opened Replication

  function LogOf(s: Sys, i: NodeId): seq<Rec<Mutation>>
    requires i < |s.nodes|
  {
    Entries(s.nodes[i].log)
  }

  function Lens(s: Sys): (r: seq<nat>)
    ensures |r| == |s.nodes|
    ensures forall i :: 0 <= i < |r| ==> r[i] == |LogOf(s, i)|
  {
    seq(|s.nodes|, i requires 0 <= i < |s.nodes| => |LogOf(s, i)|)
  }

  /** What a message may say, when the only leader `l` has the log `es` of which `learned`
      entries are committed and the sender's log has length `len`. */
  ghost predicate MsgOk(m: Msg, fromLeader: bool, es: seq<Rec<Mutation>>, learned: nat, len: nat) {
    match m
    case Append(_, _, batch, lastLearned) => fromLeader && SliceOf(batch, es) && lastLearned <= learned
    case AppendRes(_, txid, _) => txid <= len
    case VoteReq(_, _, _, _, txid) => txid <= len
    case VoteRes(_, _) => true
  }

  /** A node's log is a prefix of the leader's, learned no further; nobody follows itself. */
  ghost predicate InLine(n: Node, i: NodeId, es: seq<Rec<Mutation>>, learned: nat) {
    && Entries(n.log) <= es && |n.log.committed| <= learned
    && (n.role.Follower? ==> n.role.id != i)
  }

  ghost predicate ReignInv(s: Sys, l: NodeId) {
    && l < |s.nodes|
    && Sound(LogOf(s, l)) && Faithful(s.nodes[l].log)
    && Majority(s.nodes[l].log, Lens(s))
    && (forall i :: 0 <= i < |s.nodes| ==>
          InLine(s.nodes[i], i, LogOf(s, l), |s.nodes[l].log.committed|))
    && (forall p :: p in s.net ==>
          p.src < |s.nodes| &&
          MsgOk(p.msg, p.src == l, LogOf(s, l), |s.nodes[l].log.committed|, |LogOf(s, p.src)|))
  }

  // ----- the conditions on a run -------------------------------------------------------------

  /** Nobody but `l` is leader. */
  ghost predicate OnlyLeader(s: Sys, l: NodeId) {
    forall i :: 0 <= i < |s.nodes| && s.nodes[i].role.Leader? ==> i == l
  }

  /** An Append that links is accepted only if its batch starts no later than the next entry;
      it does unless an earlier Append to the same node was lost while this one was sent. */
  ghost predicate NoGap(s: Sys, a: Action)
    requires Enabled(s, a)
  {
    a.Deliver? && a.p.msg.Append? && s.nodes[a.p.dst].role.Following(a.p.src) &&
    Links(s.nodes[a.p.dst], a.p.msg) ==>
      Continues(a.p.msg.batch, a.p.msg.fromTxid)
  }

  /** Under the acking loop as written, a leader only hears of positions at or above its
      oldest pending entry; under the intended loop this asks nothing. */
  ghost predicate AckSupported(s: Sys, a: Action)
    requires Enabled(s, a)
  {
    a.Deliver? && a.p.msg.AppendRes? && s.nodes[a.p.dst].role.Leader? && a.p.src in s.nodes[a.p.dst].repPeers ==>
      Supports(s.nodes[a.p.dst].log, a.p.msg.acceptedTxid)
  }

  // ----- one handler -------------------------------------------------------------------------

  /** What node `i` may do: stay in line with the leader's log, which only the leader extends,
      by sound entries, and whose commits a majority holds. */
  ghost predicate EffectOk(s: Sys, l: NodeId, i: NodeId, e: Effect)
    requires l < |s.nodes| && i < |s.nodes|
  {
    var es := if i == l then Entries(e.node.log) else LogOf(s, l);
    var learned := if i == l then |e.node.log.committed| else |s.nodes[l].log.committed|;
    && LogOf(s, i) <= Entries(e.node.log)
    && |s.nodes[i].log.committed| <= |e.node.log.committed|
    && Sound(es)
    && InLine(e.node, i, es, learned)
    && (i == l ==> Majority(e.node.log, Lens(s)[l := |Entries(e.node.log)|]) && Faithful(e.node.log))
    && (forall x :: x in e.sends ==> MsgOk(x.msg, i == l, es, learned, |Entries(e.node.log)|))
  }

  lemma MsgOkGrows(m: Msg, b: bool, es: seq<Rec<Mutation>>, es': seq<Rec<Mutation>>,
                   learned: nat, learned': nat, len: nat, len': nat)
    requires MsgOk(m, b, es, learned, len)
    requires es <= es' && learned <= learned' && len <= len'
    ensures MsgOk(m, b, es', learned', len')
  {
  }

  lemma ReignAfter(s: Sys, l: NodeId, i: NodeId, e: Effect, took: seq<Taken>)
    requires ReignInv(s, l) && i < |s.nodes| && EffectOk(s, l, i, e)
    ensures ReignInv(After(s, i, e, took), l)
  {
    var s' := After(s, i, e, took);
    var es, es' := LogOf(s, l), LogOf(s', l);
    var learned, learned' := |s.nodes[l].log.committed|, |s'.nodes[l].log.committed|;
    assert es <= es' && learned <= learned' && Sound(es');
    assert Longer(Lens(s), Lens(s'));
    if i == l {
      assert Lens(s') == Lens(s)[l := |Entries(e.node.log)|];
    } else {
      MajorityGrows(s.nodes[l].log, Lens(s), Lens(s'));
    }
    forall j | 0 <= j < |s'.nodes|
      ensures InLine(s'.nodes[j], j, es', learned')
    {
      assert InLine(s.nodes[j], j, es, learned);
    }
    forall p | p in s'.net
      ensures p.src < |s'.nodes| && MsgOk(p.msg, p.src == l, es', learned', |LogOf(s', p.src)|)
    {
      if p in s.net {
        MsgOkGrows(p.msg, p.src == l, es, es', learned, learned', |LogOf(s, p.src)|, |LogOf(s', p.src)|);
      }
    }
  }

  /** A node that leaves its log alone and reports its length truly. */
  lemma LogUntouched(s: Sys, l: NodeId, i: NodeId, e: Effect)
    requires ReignInv(s, l) && i < |s.nodes|
    requires e.node.log == s.nodes[i].log
    requires e.node.role.Follower? ==> e.node.role.id != i
    requires forall x :: x in e.sends ==>
      MsgOk(x.msg, i == l, LogOf(s, l), |s.nodes[l].log.committed|, |LogOf(s, i)|)
    ensures EffectOk(s, l, i, e)
  {
    assert InLine(s.nodes[i], i, LogOf(s, l), |s.nodes[l].log.committed|);
    assert Lens(s)[l := |LogOf(s, l)|] == Lens(s);
  }

  lemma PrefixSound(s: Sys, l: NodeId, i: NodeId)
    requires ReignInv(s, l) && i < |s.nodes|
    ensures Sound(LogOf(s, i)) && AcceptedTxid(s.nodes[i]) == |LogOf(s, i)|
    ensures LearnedTxid(s.nodes[i]) == |s.nodes[i].log.committed|
  {
    assert InLine(s.nodes[i], i, LogOf(s, l), |s.nodes[l].log.committed|);
    var es := LogOf(s, i);
    PrefixIsSound(es, LogOf(s, l));
    if s.nodes[i].log.committed != [] {
      var x := |s.nodes[i].log.committed| - 1;
      assert es[x] == s.nodes[i].log.committed[x];
    }
  }

  /** A follower that accepts an Append gains entries of the leader's log, learns no more
      than it was told is learned, and reports what it holds. */
  lemma AcceptedInLine(n: Node, tok: NodeId, peer: NodeId, a: Msg, es: seq<Rec<Mutation>>, learned: nat)
    requires a.Append? && !n.role.Leader? && n.role.Following(peer) && Links(n, a)
    requires Sound(es) && Entries(n.log) <= es && |n.log.committed| <= learned
    requires SliceOf(a.batch, es) && a.lastLearned <= learned && Continues(a.batch, a.fromTxid)
    ensures var e := HandleAppend(n, tok, peer, a);
      && Entries(n.log) <= Entries(e.node.log) <= es
      && |n.log.committed| <= |e.node.log.committed| <= learned
      && (forall x :: x in e.sends ==> x.msg.AppendRes? && x.msg.acceptedTxid <= |Entries(e.node.log)|)
      && (!e.node.halted ==> n.halted || |Entries(e.node.log)| == Reached(a.fromTxid, a.batch))
  {
    PrefixIsSound(Entries(n.log), es);
    TakeBatchKeepsPrefix(n.log, a.batch, es);
    TakeBatchExtends(n.log, a.batch);
    var r := TakeBatch(n.log, a.batch);
    PrefixIsSound(Entries(r.log), es);
    if r.Took? {
      CommitBound(r.log, a.lastLearned);
    }
  }

  lemma PrefixIsSound(es': seq<Rec<Mutation>>, es: seq<Rec<Mutation>>)
    requires Sound(es) && es' <= es
    ensures Sound(es') && Ascending(es') && LastTxid(es') == |es'|
  {
    assert forall x :: 0 <= x < |es'| ==> es'[x] == es[x];
    GetContiguous(es', 0);
  }

  lemma AppendOk(s: Sys, l: NodeId, p: Packet)
    requires ReignInv(s, l) && OnlyLeader(s, l) && Enabled(s, Deliver(p)) && NoGap(s, Deliver(p))
    requires p.msg.Append?
    ensures EffectOk(s, l, p.dst, HandleAppend(s.nodes[p.dst], p.src, p.src, p.msg))
  {
    var n, i := s.nodes[p.dst], p.dst;
    var es, learned := LogOf(s, l), |s.nodes[l].log.committed|;
    assert InLine(n, i, es, learned);
    assert MsgOk(p.msg, p.src == l, es, learned, |LogOf(s, p.src)|);
    if n.role.Following(p.src) && Links(n, p.msg) {
      AcceptedInLine(n, p.src, p.src, p.msg, es, learned);
    } else {
      PrefixSound(s, l, i);
      LogUntouched(s, l, i, HandleAppend(n, p.src, p.src, p.msg));
    }
  }

  lemma AppendResOk(s: Sys, l: NodeId, p: Packet)
    requires ReignInv(s, l) && OnlyLeader(s, l) && Enabled(s, Deliver(p)) && AckSupported(s, Deliver(p))
    requires p.msg.AppendRes?
    ensures EffectOk(s, l, p.dst, HandleAppendRes(s.nodes[p.dst], p.src, p.msg))
  {
    var n := s.nodes[p.dst];
    var e := HandleAppendRes(n, p.src, p.msg);
    assert InLine(n, p.dst, LogOf(s, l), |s.nodes[l].log.committed|);
    if n.role.Leader? && p.src in n.repPeers {
      AckKeepsMajority(n.log, p.msg.acceptedTxid, p.src, Lens(s));
      AckStaysFaithful(n.log, p.msg.acceptedTxid, p.src);
      assert e.node.log == AckUpTo(n.log, p.msg.acceptedTxid, p.src).0;
      assert Lens(s)[l := |LogOf(s, l)|] == Lens(s);
    } else {
      LogUntouched(s, l, p.dst, e);
    }
  }

  /** A leader's own write extends its sound log by one entry, which it holds itself. */
  lemma OwnEntry(n: Node, m: Mutation, lens: seq<nat>)
    requires Sound(Entries(n.log)) && Majority(n.log, lens) && Faithful(n.log) && !n.halted
    requires n.id < |lens| && lens[n.id] == |Entries(n.log)|
    requires m.version.txid == |Entries(n.log)| + 1
    ensures var r := AppendOwn(n, m); var es := Entries(n.log) + [Rec(m.version.term, m.version.txid, m)];
      && !r.0.halted && Entries(r.0.log) == es && Sound(es) && Faithful(r.0.log)
      && Majority(r.0.log, lens[n.id := |es|])
      && |n.log.committed| <= |r.0.log.committed|
  {
    GetContiguous(Entries(n.log), 0);
    AppendOwnAdds(n, m);
    OwnLog(n.log, n.id, m, lens);
  }

  lemma OwnLog(l: Log<Mutation>, id: NodeId, m: Mutation, lens: seq<nat>)
    requires Sound(Entries(l)) && Majority(l, lens) && Faithful(l)
    requires id < |lens| && lens[id] == |Entries(l)|
    requires m.version.txid == |Entries(l)| + 1
    ensures Sound(Entries(l) + [Rec(m.version.term, m.version.txid, m)])
    ensures var l' := AckUpTo(Appended(l, m.version.term, m.version.txid, m), m.version.txid, id).0;
      && Majority(l', lens[id := |Entries(l)| + 1]) && Faithful(l')
      && |l.committed| <= |l'.committed|
  {
    var v, lens' := m.version, lens[id := |Entries(l)| + 1];
    AppendedEntries(l, v.term, v.txid, m);
    var l1 := Appended(l, v.term, v.txid, m);
    MajorityGrows(l, lens, lens');
    assert Majority(l1, lens');
    if l1.pending != [] {
      assert Entries(l1)[|l1.committed|] == l1.pending[0].rec;
    }
    AckKeepsMajority(l1, v.txid, id, lens');
    AckCommits(l1, v.txid, id);
    AckStaysFaithful(l1, v.txid, id);
  }

  lemma AckCommits(l: Log<Mutation>, txid: TXID, peer: NodeId)
    ensures |l.committed| <= |AckUpTo(l, txid, peer).0.committed|
  {
  }

  /** What a leader with a sound log sends is a slice of it. */
  lemma SendsSlices(n: Node)
    requires Sound(Entries(n.log)) && Faithful(n.log)
    ensures forall x :: x in SendAll(n).1 ==>
      x.msg.Append? && SliceOf(x.msg.batch, Entries(n.log)) && x.msg.lastLearned == |n.log.committed|
  {
    PrefixIsSound(n.log.committed, Entries(n.log));
    forall p | p in n.repPeers
      ensures SliceOf(NextBatch(n.log, n.repPeers[p].maxSent), Entries(n.log))
    {
      NextBatchIsSlice(n.log, n.repPeers[p].maxSent);
    }
  }

  /** The leader `n` has extended its log soundly and sends slices of the new log. */
  ghost predicate Extension(n: Node, lens: seq<nat>, e: Effect)
    requires n.id < |lens|
  {
    && Entries(n.log) <= Entries(e.node.log) && Sound(Entries(e.node.log)) && Faithful(e.node.log)
    && |n.log.committed| <= |e.node.log.committed|
    && Majority(e.node.log, lens[n.id := |Entries(e.node.log)|])
    && e.node.role == n.role
    && (forall x :: x in e.sends ==> x.msg.Append? && SliceOf(x.msg.batch, Entries(e.node.log))
                                     && x.msg.lastLearned == |e.node.log.committed|)
  }

  /** Replicating the next entry extends the leader's log. */
  lemma ReplicateExtends(n: Node, m: Mutation, lens: seq<nat>)
    requires Sound(Entries(n.log)) && Majority(n.log, lens) && Faithful(n.log) && !n.halted
    requires n.id < |lens| && lens[n.id] == |Entries(n.log)|
    requires m.version.txid == |Entries(n.log)| + 1
    ensures Extension(n, lens, Replicate(n, m))
  {
    OwnEntry(n, m, lens);
    SendsSlices(AppendOwn(n, m).0);
  }

  lemma WriteExtends(n: Node, who: Requester, req: CliReq, lens: seq<nat>)
    requires Sound(Entries(n.log)) && Majority(n.log, lens) && Faithful(n.log) && !n.halted
    requires n.id < |lens| && lens[n.id] == |Entries(n.log)|
    requires n.role.Leader? && IsWrite(req) && n.maxGenerated == |Entries(n.log)|
    ensures Extension(n, lens, HandleCli(n, who, req))
  {
    var m := NextWrite(n, req);
    LeaderWrites(n, who, req);
    ReplicateExtends(TakenBy(n, who), m, lens);
    ExtensionIgnores(n, TakenBy(n, who), lens, HandleCli(n, who, req));
  }

  lemma ExtensionIgnores(n: Node, n1: Node, lens: seq<nat>, e: Effect)
    requires n.id < |lens| && n1.id == n.id && n1.log == n.log && n1.role == n.role
    requires Extension(n1, lens, e)
    ensures Extension(n, lens, e)
  {
  }

  lemma ExtensionOk(s: Sys, l: NodeId, e: Effect)
    requires ReignInv(s, l) && s.nodes[l].id == l && s.nodes[l].role.Leader?
    requires Extension(s.nodes[l], Lens(s), e)
    ensures EffectOk(s, l, l, e)
  {
  }

  lemma CliOk(s: Sys, l: NodeId, i: NodeId, who: Requester, req: CliReq)
    requires ReignInv(s, l) && OnlyLeader(s, l) && i < |s.nodes| && s.nodes[i].id == i && !s.nodes[i].halted
    requires s.nodes[i].maxGenerated == AcceptedTxid(s.nodes[i])
    ensures EffectOk(s, l, i, HandleCli(s.nodes[i], who, req))
  {
    assert InLine(s.nodes[i], i, LogOf(s, l), |s.nodes[l].log.committed|);
    if s.nodes[i].role.Leader? && IsWrite(req) {
      PrefixSound(s, l, l);
      WriteExtends(s.nodes[l], who, req, Lens(s));
      ExtensionOk(s, l, HandleCli(s.nodes[l], who, req));
    } else {
      LogUntouched(s, l, i, HandleCli(s.nodes[i], who, req));
    }
  }

  lemma VotingOk(s: Sys, l: NodeId, a: Action)
    requires ReignInv(s, l) && Enabled(s, a) && !a.Tick? && s.nodes[Actor(a)].id == Actor(a)
    requires a.CronAt? || (a.Deliver? && (a.p.msg.VoteReq? || a.p.msg.VoteRes?))
    ensures EffectOk(s, l, Actor(a), EffectOf(s, a))
  {
    var i := Actor(a);
    assert InLine(s.nodes[i], i, LogOf(s, l), |s.nodes[l].log.committed|);
    PrefixSound(s, l, i);
    LogUntouched(s, l, i, EffectOf(s, a));
  }

  lemma ReignStep(s: Sys, l: NodeId, a: Action)
    requires ReignInv(s, l) && LeaseInv(s) && RecordsAgree(s) && OnlyLeader(s, l)
    requires Enabled(s, a) && NoGap(s, a) && AckSupported(s, a)
    ensures ReignInv(Next(s, a), l)
  {
    if a.Tick? {
      assert Lens(Next(s, a)) == Lens(s);
    } else {
      var i := Actor(a);
      assert NodeOk(s.nodes[i]);
      if a.Client? {
        CliOk(s, l, i, a.who, a.req);
      } else if a.Deliver? && a.p.msg.Append? {
        AppendOk(s, l, a.p);
      } else if a.Deliver? && a.p.msg.AppendRes? {
        AppendResOk(s, l, a.p);
      } else {
        VotingOk(s, l, a);
      }
      ReignAfter(s, l, i, EffectOf(s, a), NewlyTaken(s, a));
    }
  }

  // ----- whole reigns ------------------------------------------------------------------------

  /** All logs are prefixes of `l`'s gap-free log and learned no further; what `l` has learned
      is stored in its place and held by a majority; nothing is acknowledged yet. */
  ghost predicate InOrder(s: Sys, l: NodeId) {
    && l < |s.nodes| && Sound(LogOf(s, l)) && Faithful(s.nodes[l].log)
    && (forall i :: 0 <= i < |s.nodes| ==>
          LogOf(s, i) <= LogOf(s, l) && |s.nodes[i].log.committed| <= |s.nodes[l].log.committed|)
    && (forall x :: 0 <= x < |s.nodes[l].log.committed| ==> |Holders(Lens(s), x)| > |s.nodes| / 2)
    && (forall x :: 0 <= x < |s.nodes[l].log.pending| ==> s.nodes[l].log.pending[x].acks == [])
  }

  /** The first `k` steps of a run in which only `l` leads, no Append leaves a gap, and acks
      are supported.  `l` may stand, win, lose its lease and win again. */
  ghost predicate ReignRun(tr: seq<Sys>, acts: seq<Action>, k: nat, l: NodeId) {
    && IsRun(tr, acts) && k < |tr| && RecordsAgree(tr[0]) && InOrder(tr[0], l)
    && forall m :: 0 <= m < k ==> OnlyLeader(tr[m], l) && NoGap(tr[m], acts[m]) && AckSupported(tr[m], acts[m])
  }

  lemma {:induction false} ReignInvHolds(tr: seq<Sys>, acts: seq<Action>, k: nat, l: NodeId)
    requires ReignRun(tr, acts, k, l)
    ensures ReignInv(tr[k], l)
  {
    if k == 0 {
      StartsInReign(tr[0], l);
    } else {
      ReignInvHolds(tr, acts, k - 1, l);
      LeaseInvHolds(tr, acts, k - 1);
      JournalInvHolds(tr, acts, k - 1);
      ReignStep(tr[k - 1], l, acts[k - 1]);
    }
  }

  lemma StartsInReign(s: Sys, l: NodeId)
    requires Start(s) && InOrder(s, l)
    ensures ReignInv(s, l)
  {
    assert FreshNode(s.nodes[l], l, |s.nodes|);
    forall i | 0 <= i < |s.nodes|
      ensures InLine(s.nodes[i], i, LogOf(s, l), |s.nodes[l].log.committed|)
    {
      assert FreshNode(s.nodes[i], i, |s.nodes|);
    }
    assert SetOf<NodeId>([]) == {};
  }

  /** Log matching: every log is a gap-free prefix of the leader's, so any two logs agree on
      every position both have. */
  lemma LogMatching(tr: seq<Sys>, acts: seq<Action>, k: nat, l: NodeId, i: NodeId, j: NodeId, x: nat)
    requires ReignRun(tr, acts, k, l) && i < |tr[k].nodes| && j < |tr[k].nodes|
    ensures l < |tr[k].nodes| && LogOf(tr[k], i) <= LogOf(tr[k], l) && Contiguous(LogOf(tr[k], i))
    ensures x < |LogOf(tr[k], i)| && x < |LogOf(tr[k], j)| ==> LogOf(tr[k], i)[..x + 1] == LogOf(tr[k], j)[..x + 1]
  {
    ReignInvHolds(tr, acts, k, l);
    PrefixSound(tr[k], l, i);
    PrefixSound(tr[k], l, j);
    assert InLine(tr[k].nodes[i], i, LogOf(tr[k], l), |tr[k].nodes[l].log.committed|);
    assert InLine(tr[k].nodes[j], j, LogOf(tr[k], l), |tr[k].nodes[l].log.committed|);
  }

  /** Commit soundness: the very entry the leader has learned at position `x` is in the logs
      of a majority of nodes, and no node has learned more than the leader. */
  lemma CommitSoundness(tr: seq<Sys>, acts: seq<Action>, k: nat, l: NodeId, x: nat)
    requires ReignRun(tr, acts, k, l)
    requires l < |tr[k].nodes| && x < |tr[k].nodes[l].log.committed|
    ensures var q := Holders(Lens(tr[k]), x);
      && |q| > |tr[k].nodes| / 2
      && (forall i :: i in q ==> LogOf(tr[k], i)[x] == tr[k].nodes[l].log.committed[x])
    ensures forall i :: 0 <= i < |tr[k].nodes| ==> tr[k].nodes[i].log.committed <= tr[k].nodes[l].log.committed
  {
    ReignInvHolds(tr, acts, k, l);
    var es := LogOf(tr[k], l);
    assert es[x] == tr[k].nodes[l].log.committed[x];
    forall i | 0 <= i < |tr[k].nodes|
      ensures LogOf(tr[k], i) <= es && tr[k].nodes[i].log.committed <= tr[k].nodes[l].log.committed
    {
      assert InLine(tr[k].nodes[i], i, es, |tr[k].nodes[l].log.committed|);
      assert tr[k].nodes[i].log.committed <= LogOf(tr[k], i);
    }
  }

  /** State machine safety: no two nodes have learned different entries at one position, and
      if commits do no harm to their maps, nodes that learned equally many hold the same data. */
  lemma StateMachineSafety(tr: seq<Sys>, acts: seq<Action>, k: nat, l: NodeId, i: NodeId, j: NodeId)
    requires ReignRun(tr, acts, k, l) && i < |tr[k].nodes| && j < |tr[k].nodes|
    ensures var a := tr[k].nodes[i].log.committed; var b := tr[k].nodes[j].log.committed;
      && (a <= b || b <= a)
      && (AllSequential(tr[0]) && (forall m :: 0 <= m < k ==> CleanCommit(tr[m], acts[m])) && |a| == |b| ==>
            tr[k].nodes[i].db == tr[k].nodes[j].db)
  {
    ReignInvHolds(tr, acts, k, l);
    var es := LogOf(tr[k], l);
    assert InLine(tr[k].nodes[i], i, es, |tr[k].nodes[l].log.committed|);
    assert InLine(tr[k].nodes[j], j, es, |tr[k].nodes[l].log.committed|);
    assert tr[k].nodes[i].log.committed <= LogOf(tr[k], i);
    assert tr[k].nodes[j].log.committed <= LogOf(tr[k], j);
    if AllSequential(tr[0]) && forall m :: 0 <= m < k ==> CleanCommit(tr[m], acts[m]) {
      StateMachine(tr, acts, k, i, j);
    }
  }

  // ----- Appends answered one at a time ------------------------------------------------------

  /** Each replication peer has answered for what it was sent, or at least, in a cluster with
      logs of these lengths, holds it; a late answer may have hidden that from the leader. */
  ghost predicate PeersKeepUp(n: Node, lens: seq<nat>) {
    forall p :: p in n.repPeers ==>
      var r := n.repPeers[p];
      r.maxSent <= r.acceptedTxid || (r.tok < |lens| && r.maxSent <= lens[r.tok])
  }

  /** A leader takes a write only when its peers keep up. */
  ghost predicate AllAnswered(s: Sys, a: Action)
    requires Enabled(s, a)
  {
    a.Client? && s.nodes[a.i].role.Leader? && IsWrite(a.req) ==> PeersKeepUp(s.nodes[a.i], Lens(s))
  }

  /** The Append continues the position it claims to link to, or its receiver is past that. */
  ghost predicate NeverGaps(m: Msg, dst: NodeId, lens: seq<nat>)
    requires m.Append?
  {
    Continues(m.batch, m.fromTxid) || (dst < |lens| && m.fromTxid < lens[dst])
  }

  ghost predicate AppendsContinue(s: Sys) {
    forall p :: p in s.net && p.msg.Append? ==> NeverGaps(p.msg, p.dst, Lens(s))
  }

  lemma AnsweredSends(n: Node, who: Requester, req: CliReq, lens: seq<nat>)
    requires n.role.Leader? && IsWrite(req) && !n.halted
    requires Sound(Entries(n.log)) && Faithful(n.log) && n.maxGenerated == |Entries(n.log)| && PeersKeepUp(n, lens)
    ensures forall x :: x in HandleCli(n, who, req).sends ==> NeverGaps(x.msg, x.dst, lens)
  {
    var m := NextWrite(n, req);
    LeaderWrites(n, who, req);
    ReplicateContinues(TakenBy(n, who), m, lens);
  }

  lemma ReplicateContinues(n: Node, m: Mutation, lens: seq<nat>)
    requires Sound(Entries(n.log)) && Faithful(n.log) && !n.halted && m.version.txid == |Entries(n.log)| + 1
    requires PeersKeepUp(n, lens)
    ensures forall x :: x in Replicate(n, m).sends ==> NeverGaps(x.msg, x.dst, lens)
  {
    OwnWriteContinues(n, m, lens);
    SendsContinue(AppendOwn(n, m).0, lens);
    ReplicateSends(n, m);
  }

  lemma ReplicateSends(n: Node, m: Mutation)
    requires !AppendOwn(n, m).0.halted
    ensures Replicate(n, m).sends == SendAll(AppendOwn(n, m).0).1
  {
  }

  lemma OwnWriteContinues(n: Node, m: Mutation, lens: seq<nat>)
    requires Sound(Entries(n.log)) && Faithful(n.log) && !n.halted && m.version.txid == |Entries(n.log)| + 1
    requires PeersKeepUp(n, lens)
    ensures var n1 := AppendOwn(n, m).0;
      !n1.halted && Sound(Entries(n1.log)) && Faithful(n1.log) && PeersKeepUp(n1, lens)
  {
    LastOfSound(Entries(n.log));
    AppendOwnAdds(n, m);
    SoundMore(Entries(n.log), m);
    AckStaysFaithful(Appended(n.log, m.version.term, m.version.txid, m), m.version.txid, n.id);
  }

  lemma LastOfSound(es: seq<Rec<Mutation>>)
    requires Sound(es)
    ensures LastTxid(es) == |es|
  {
  }

  lemma SoundMore(es: seq<Rec<Mutation>>, m: Mutation)
    requires Sound(es) && m.version.txid == |es| + 1
    ensures Sound(es + [Rec(m.version.term, m.version.txid, m)])
  {
  }

  lemma SendsContinue(n: Node, lens: seq<nat>)
    requires Sound(Entries(n.log)) && Faithful(n.log) && PeersKeepUp(n, lens)
    ensures forall x :: x in SendAll(n).1 ==> NeverGaps(x.msg, x.dst, lens)
  {
    forall p | p in n.repPeers
      ensures NeverGaps(AppendFor(n, n.repPeers[p]), n.repPeers[p].tok, lens)
    {
      NextBatchIsSlice(n.log, n.repPeers[p].maxSent);
    }
  }

  lemma AppendsContinueStep(s: Sys, l: NodeId, a: Action)
    requires ReignInv(s, l) && RecordsAgree(s) && OnlyLeader(s, l) && AppendsContinue(s)
    requires Enabled(s, a) && AllAnswered(s, a)
    ensures AppendsContinue(Next(s, a))
  {
    if a.Tick? {
      assert Lens(Next(s, a)) == Lens(s);
    } else {
      NewAppendsContinue(s, l, a);
      var w := ActionKeepsRecords(s, a);
      AppendsContinueAfter(s, Actor(a), EffectOf(s, a), NewlyTaken(s, a));
    }
  }

  /** Only a leader taking a write sends Appends. */
  lemma NewAppendsContinue(s: Sys, l: NodeId, a: Action)
    requires ReignInv(s, l) && RecordsAgree(s) && OnlyLeader(s, l) && Enabled(s, a) && AllAnswered(s, a) && !a.Tick?
    ensures forall x :: x in EffectOf(s, a).sends && x.msg.Append? ==> x.ToPeer? && NeverGaps(x.msg, x.dst, Lens(s))
  {
    if a.Client? && s.nodes[a.i].role.Leader? && IsWrite(a.req) {
      assert NodeOk(s.nodes[a.i]);
      PrefixSound(s, l, a.i);
      AnsweredSends(s.nodes[a.i], a.who, a.req, Lens(s));
    }
  }

  lemma AppendsContinueAfter(s: Sys, i: NodeId, e: Effect, took: seq<Taken>)
    requires AppendsContinue(s) && i < |s.nodes| && LogOf(s, i) <= Entries(e.node.log)
    requires forall x :: x in e.sends && x.msg.Append? ==> x.ToPeer? && NeverGaps(x.msg, x.dst, Lens(s))
    ensures AppendsContinue(After(s, i, e, took))
  {
    var s' := After(s, i, e, took);
    assert forall j :: 0 <= j < |s.nodes| ==> Lens(s)[j] <= Lens(s')[j];
  }

  /** If each Append is answered before the next to the same peer is sent, no delivery, delay
      or repetition, of Appends or of answers, leaves a gap: such a run is a reign. */
  lemma {:induction false} AnsweredReign(tr: seq<Sys>, acts: seq<Action>, k: nat, l: NodeId)
    requires IsRun(tr, acts) && k < |tr| && RecordsAgree(tr[0]) && InOrder(tr[0], l)
    requires forall m :: 0 <= m < k ==>
      OnlyLeader(tr[m], l) && AllAnswered(tr[m], acts[m]) && AckSupported(tr[m], acts[m])
    ensures ReignRun(tr, acts, k, l) && AppendsContinue(tr[k])
  {
    if k == 0 {
      NoAppendsYet(tr[0]);
    } else {
      AnsweredReign(tr, acts, k - 1, l);
      AnsweredStep(tr, acts, k - 1, l);
    }
  }

  lemma NoAppendsYet(s: Sys)
    requires Start(s)
    ensures AppendsContinue(s)
  {
  }

  lemma AnsweredStep(tr: seq<Sys>, acts: seq<Action>, k: nat, l: NodeId)
    requires ReignRun(tr, acts, k, l) && AppendsContinue(tr[k]) && k + 1 < |tr|
    requires OnlyLeader(tr[k], l) && AllAnswered(tr[k], acts[k]) && AckSupported(tr[k], acts[k])
    ensures ReignRun(tr, acts, k + 1, l) && AppendsContinue(tr[k + 1])
  {
    ReignInvHolds(tr, acts, k, l);
    JournalInvHolds(tr, acts, k);
    AppendsContinueStep(tr[k], l, acts[k]);
    if acts[k].Deliver? {
      PrefixSound(tr[k], l, acts[k].p.dst);
    }
  }

  // ----- the first succession ----------------------------------------------------------------

  /** If the action makes a member of `q` follow `c` though it had learned in an earlier term than
      `c` says it has, that member has accepted no more than `c` says it has. */
  ghost predicate LaterTermNotShorter(s: Sys, c: NodeId, q: set<NodeId>, a: Action)
    requires Enabled(s, a)
  {
    a.Deliver? && a.p.msg.VoteReq? && a.p.src == c && a.p.dst in q && !s.nodes[a.p.dst].role.Following(c) &&
    EffectOf(s, a).node.role.Following(c) && LearnedTerm(s.nodes[a.p.dst]) < a.p.msg.learnedTerm ==>
      AcceptedTxid(s.nodes[a.p.dst]) <= a.p.msg.acceptedTxid
  }

  /** Whoever of `q` follows `c` holds no more than `c`. */
  ghost predicate FollowersBehind(s: Sys, c: NodeId, q: set<NodeId>) {
    c < |s.nodes| && forall i: NodeId :: i < |s.nodes| && i in q && s.nodes[i].role.Following(c) ==>
      |LogOf(s, i)| <= |LogOf(s, c)|
  }

  lemma FollowersBehindStep(s: Sys, l: NodeId, c: NodeId, q: set<NodeId>, a: Action)
    requires ReignInv(s, l) && LeaseInv(s) && RecordsAgree(s) && FollowersBehind(s, c, q) && Enabled(s, a)
    requires c != l && LaterTermNotShorter(s, c, q, a)
    ensures FollowersBehind(Next(s, a), c, q)
  {
    if a.Tick? {
      assert Lens(Next(s, a)) == Lens(s);
    } else {
      var w := ActionKeepsRecords(s, a);
      if Actor(a) in q && EffectOf(s, a).node.role.Following(c) {
        FollowerStands(s, l, a, c, q);
      }
      FollowersBehindAfter(s, c, q, Actor(a), EffectOf(s, a), NewlyTaken(s, a));
    }
  }

  lemma FollowersBehindAfter(s: Sys, c: NodeId, q: set<NodeId>, i: NodeId, e: Effect, took: seq<Taken>)
    requires FollowersBehind(s, c, q) && i < |s.nodes|
    requires LogOf(s, i) <= Entries(e.node.log)
    requires i in q && e.node.role.Following(c) ==> |Entries(e.node.log)| <= |LogOf(s, c)|
    ensures FollowersBehind(After(s, i, e, took), c, q)
  {
    var s' := After(s, i, e, took);
    assert |LogOf(s, c)| <= |LogOf(s', c)|;
  }

  /** The acting node, if it now follows `c`, has not grown past `c`. */
  lemma FollowerStands(s: Sys, l: NodeId, a: Action, c: NodeId, q: set<NodeId>)
    requires ReignInv(s, l) && LeaseInv(s) && FollowersBehind(s, c, q) && Enabled(s, a) && !a.Tick?
    requires c != l && LaterTermNotShorter(s, c, q, a) && Actor(a) in q && EffectOf(s, a).node.role.Following(c)
    ensures |Entries(EffectOf(s, a).node.log)| <= |LogOf(s, c)|
  {
    var n := s.nodes[Actor(a)];
    PrefixSound(s, l, Actor(a));
    if a.Deliver? {
      assert MsgOk(a.p.msg, a.p.src == l, LogOf(s, l), |s.nodes[l].log.committed|, |LogOf(s, a.p.src)|);
      assert a.p.msg.Append? ==> a.p.src == l;
    }
    if !n.role.Following(c) {
      VotedByLength(s, a, c, q);
    }
  }

  /** A voter that comes to follow `c` has accepted no more than `c` says, and keeps its log. */
  lemma VotedByLength(s: Sys, a: Action, c: NodeId, q: set<NodeId>)
    requires LeaseInv(s) && Enabled(s, a) && !a.Tick? && Actor(a) in q && LaterTermNotShorter(s, c, q, a)
    requires c < |s.nodes| && !s.nodes[Actor(a)].role.Following(c) && EffectOf(s, a).node.role.Following(c)
    ensures a.Deliver? && a.p.src == c && a.p.msg.VoteReq? && AcceptedTxid(s.nodes[Actor(a)]) <= a.p.msg.acceptedTxid
    ensures EffectOf(s, a).node.log == s.nodes[Actor(a)].log
  {
    assert s.nodes[Actor(a)].id == Actor(a);
    assert a.Deliver? && a.p.msg.VoteReq? && a.p.src == c;
    var answer := VoteExactly(s, a.p);
  }

  lemma {:induction false} FollowersBehindHolds(tr: seq<Sys>, acts: seq<Action>, k: nat, l: NodeId, c: NodeId,
                                                q: set<NodeId>)
    requires ReignRun(tr, acts, k, l) && c != l && c < |tr[k].nodes|
    requires forall m :: 0 <= m < k ==> LaterTermNotShorter(tr[m], c, q, acts[m])
    ensures FollowersBehind(tr[k], c, q)
  {
    if k == 0 {
      assert forall i :: 0 <= i < |tr[0].nodes| ==> FreshNode(tr[0].nodes[i], i, |tr[0].nodes|);
    } else {
      ClockAndSize(tr[k - 1], acts[k - 1]);
      FollowersBehindHolds(tr, acts, k - 1, l, c, q);
      ReignInvHolds(tr, acts, k - 1, l);
      LeaseInvHolds(tr, acts, k - 1);
      JournalInvHolds(tr, acts, k - 1);
      FollowersBehindStep(tr[k - 1], l, c, q, acts[k - 1]);
    }
  }

  /** The members of an unexpired quorum all follow the node it elects. */
  lemma QuorumFollows(s: Sys, a: Action, q: NodeId)
    requires LeaseInv(s) && Enabled(s, a) && a.Deliver? && Fires(s, a) && FollowersBehind(s, a.p.dst, Quorum(s, a))
    requires FreshQuorum(s, a, LEADER_DURATION - 1) && q in Quorum(s, a)
    ensures q < |s.nodes| && |LogOf(s, q)| <= |LogOf(s, a.p.dst)|
  {
    FiringEvidence(s, a);
    if q != a.p.dst {
      var p :| p in s.net && p.src == q && p.dst == a.p.dst && p.msg.VoteRes? && p.msg.success &&
        s.now <= p.sent + (LEADER_DURATION - 1);
      assert PromiseKept(s, p);
    }
  }

  /** Leader completeness up to and including the first succession: when a node wins with
      unexpired votes, none of the counted ones from a voter that had learned in an earlier term
      and accepted more than the winner said, its log holds every entry that a majority has accepted, hence every entry anybody
      has learned. */
  lemma LeaderCompleteness(tr: seq<Sys>, acts: seq<Action>, k: nat, l: NodeId, x: nat)
    requires ReignRun(tr, acts, k, l) && k < |acts|
    requires acts[k].Deliver? && Fires(tr[k], acts[k]) && FreshQuorum(tr[k], acts[k], LEADER_DURATION - 1)
    requires forall m :: 0 <= m < k ==> LaterTermNotShorter(tr[m], acts[k].p.dst, Quorum(tr[k], acts[k]), acts[m])
    requires |Holders(Lens(tr[k]), x)| > |tr[k].nodes| / 2
    ensures var c := acts[k].p.dst;
      && l < |tr[k].nodes| && x < |LogOf(tr[k], c)| && x < |LogOf(tr[k], l)|
      && LogOf(tr[k], c)[x] == LogOf(tr[k], l)[x]
      && tr[k + 1].nodes[c].role.Leader? && tr[k + 1].nodes[c].log == tr[k].nodes[c].log
  {
    ReignInvHolds(tr, acts, k, l);
    LeaseInvHolds(tr, acts, k);
    if acts[k].p.dst != l {
      FollowersBehindHolds(tr, acts, k, l, acts[k].p.dst, Quorum(tr[k], acts[k]));
    }
    FiringEvidence(tr[k], acts[k]);
    SuccessorComplete(tr[k], l, acts[k], x);
  }

  lemma SuccessorComplete(s: Sys, l: NodeId, a: Action, x: nat)
    requires ReignInv(s, l) && LeaseInv(s)
    requires Enabled(s, a) && a.Deliver? && Fires(s, a) && FreshQuorum(s, a, LEADER_DURATION - 1)
    requires a.p.dst != l ==> FollowersBehind(s, a.p.dst, Quorum(s, a))
    requires |Holders(Lens(s), x)| > |s.nodes| / 2
    ensures x < |LogOf(s, a.p.dst)| && x < |LogOf(s, l)| && LogOf(s, a.p.dst)[x] == LogOf(s, l)[x]
  {
    FiringEvidence(s, a);
    var q := Intersect(|s.nodes|, Quorum(s, a), Holders(Lens(s), x));
    assert InLine(s.nodes[q], q, LogOf(s, l), |s.nodes[l].log.committed|);
    if a.p.dst != l {
      QuorumFollows(s, a, q);
      assert InLine(s.nodes[a.p.dst], a.p.dst, LogOf(s, l), |s.nodes[l].log.committed|);
    }
  }

  /** No acknowledged write is lost at the first succession: everything the old leader has
      learned by then is in the successor's log. */
  lemma AckedWritesSurvive(tr: seq<Sys>, acts: seq<Action>, k: nat, l: NodeId)
    requires ReignRun(tr, acts, k, l) && k < |acts|
    requires acts[k].Deliver? && Fires(tr[k], acts[k]) && FreshQuorum(tr[k], acts[k], LEADER_DURATION - 1)
    requires forall m :: 0 <= m < k ==> LaterTermNotShorter(tr[m], acts[k].p.dst, Quorum(tr[k], acts[k]), acts[m])
    ensures l < |tr[k].nodes| && tr[k].nodes[l].log.committed <= LogOf(tr[k + 1], acts[k].p.dst)
  {
    ReignInvHolds(tr, acts, k, l);
    var c, learned := acts[k].p.dst, tr[k].nodes[l].log.committed;
    forall x | 0 <= x < |learned|
      ensures x < |LogOf(tr[k], c)| && LogOf(tr[k], c)[x] == learned[x]
    {
      assert LogOf(tr[k], l)[x] == learned[x];
      LeaderCompleteness(tr, acts, k, l, x);
    }
    if learned != [] {
      assert learned[|learned| - 1] == LogOf(tr[k], l)[|learned| - 1];
      LeaderCompleteness(tr, acts, k, l, |learned| - 1);
    }
    LeaseInvHolds(tr, acts, k);
    FiringEvidence(tr[k], acts[k]);
  }
}
