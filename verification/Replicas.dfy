/** When the replicas hold what they should: every database is the replay of what its node has
    learned and every reply is the sequential store's, in all runs if committed entries are
    stored under their own ids, and under line 143 of src/server/acked_log.rs as written as
    long as no commit finds anything below its argument. */
module Replicas {
  import opened Types
  import opened LogSpec
  import opened LogRuns
  import opened KeyValue
  import opened Store
  import opened Harpoon
  import opened Cluster
  import opened Journal

  /** `res` tells the author of a mutation of this kind exactly the outcome `o`. */
  predicate Tells(res: CliRes, o: Outcome, kind: MutationType) {
    match kind
    case KVSET => res == SetRes(o.success)
    case KVCAS => res.CasRes? && res.success == o.success && res.value == o.value
    case KVDEL => res == DelRes(o.success, o.value)
  }

  /** The reply is what the sequential store says about the entry at some position of `es`. */
  ghost predicate Truthful(r: Reply, es: seq<Rec<Mutation>>) {
    r.txid.Some? && exists x ::
      0 <= x < |es| && es[x].txid == r.txid.value &&
      Tells(r.res, Execute(Replay(es[..x]), es[x].entry), es[x].entry.kind)
  }

  /** Learning one committed entry, and then all of them in order, leaves the database at the
      replay of the committed log, and every reply is the sequential store's. */
  lemma LearnReplays(n: Node, x: nat)
    requires x < |n.log.committed| && Ascending(Entries(n.log)) && Faithful(n.log)
    requires n.db == Replay(n.log.committed[..x])
    ensures var r := Learn(n, n.log.committed[x].txid);
      && r.0.db == Replay(n.log.committed[..x + 1])
      && forall k :: 0 <= k < |r.1| ==> Truthful(r.1[k], n.log.committed)
  {
    var es := n.log.committed;
    assert Entries(n.log)[x] == es[x];
    GetFinds(Entries(n.log), es[x].txid);
    FaithfulFinds(n.log, es[x].txid);
    assert es[..x + 1][..x] == es[..x];
  }

  lemma {:induction false} LearnAllReplays(n: Node, x: nat)
    requires x <= |n.log.committed| && Ascending(Entries(n.log)) && Faithful(n.log)
    requires n.db == Replay(n.log.committed[..x])
    ensures var r := LearnAll(n, Versions(n.log.committed[x..]));
      && r.0.db == Replay(n.log.committed)
      && forall k :: 0 <= k < |r.1| ==> Truthful(r.1[k], n.log.committed)
    decreases |n.log.committed| - x
  {
    var es := n.log.committed;
    if x == |es| {
      assert es[..x] == es;
    } else {
      var vs := Versions(es[x..]);
      assert vs[1..] == Versions(es[x + 1..]);
      LearnReplays(n, x);
      LearnAllReplays(Learn(n, es[x].txid).0, x + 1);
    }
  }

  // ----- one node, one handler -------------------------------------------------------------

  /** Committed entries are found under their ids, and the database is their replay. */
  ghost predicate Sequential(n: Node) {
    Faithful(n.log) && n.db == Replay(n.log.committed)
  }

  /** The replies to writes are the sequential store's. */
  ghost predicate TellsTruth(e: Effect) {
    forall j :: 0 <= j < |e.replies| && e.replies[j].txid.Some? ==> Truthful(e.replies[j], e.node.log.committed)
  }

  /** Learning what `l'` has committed beyond `l`. */
  lemma LearnsSequentially(n: Node, l: Log<Mutation>, l': Log<Mutation>, vs: seq<Version>)
    requires n.db == Replay(l.committed) && Advances(l, l', vs) && Faithful(l') && Ascending(Entries(l'))
    ensures var r := LearnAll(n.(log := l'), vs);
      && Sequential(r.0)
      && forall k :: 0 <= k < |r.1| ==> Truthful(r.1[k], l'.committed)
  {
    assert l'.committed[..|l.committed|] == l.committed;
    LearnAllReplays(n.(log := l'), |l.committed|);
  }

  /** If the node takes the Append, committing does no harm to its map. */
  ghost predicate CleanAppend(n: Node, from: NodeId, a: Msg)
    requires a.Append?
  {
    !n.role.Leader? && n.role.Following(from) && Links(n, a) && TakeBatch(n.log, a.batch).Took? ==>
      n.log.keying.ByOwnId? || NothingBelow(TakeBatch(n.log, a.batch).log, a.lastLearned)
  }

  /** The log a node has when it is told to commit. */
  lemma BatchTaken(n: Node, a: Msg)
    requires NodeOk(n) && a.Append?
    ensures var l := TakeBatch(n.log, a.batch).log;
      && Ascending(Entries(l)) && l == n.log.(pending := l.pending)
  {
    TakeBatchExtends(n.log, a.batch);
  }

  lemma AppendSequential(n: Node, tok: NodeId, from: NodeId, a: Msg)
    requires NodeOk(n) && Sequential(n) && a.Append? && CleanAppend(n, from, a)
    ensures var e := HandleAppend(n, tok, from, a); Sequential(e.node) && TellsTruth(e)
  {
    if !n.role.Leader? && n.role.Following(from) && Links(n, a) && TakeBatch(n.log, a.batch).Took? {
      var l := TakeBatch(n.log, a.batch).log;
      BatchTaken(n, a);
      CommitFaithfulExactly(l, a.lastLearned);
      CommitAdvances(l, a.lastLearned);
      var c := CommitUpTo(l, a.lastLearned);
      LearnsSequentially(n.(maxGenerated := LastTxid(Entries(l))), l, c.0, c.1);
    } else {
      BatchTaken(n, a);
    }
  }

  lemma AppendResSequential(n: Node, from: NodeId, res: Msg)
    requires NodeOk(n) && Sequential(n) && res.AppendRes?
    ensures var e := HandleAppendRes(n, from, res); Sequential(e.node) && TellsTruth(e)
  {
    if n.role.Leader? && from in n.repPeers {
      var r := AckUpTo(n.log, res.acceptedTxid, from);
      AckStaysFaithful(n.log, res.acceptedTxid, from);
      AckAdvances(n.log, res.acceptedTxid, from);
      LearnsSequentially(n.(repPeers := HandleAppendRes(n, from, res).node.repPeers), n.log, r.0, r.1);
    }
  }

  lemma AppendOwnSequential(n: Node, m: Mutation)
    requires Ascending(Entries(n.log)) && Sequential(n) && AcceptedTxid(n) < m.version.txid
    ensures var r := AppendOwn(n, m);
      && Sequential(r.0)
      && forall k :: 0 <= k < |r.1| ==> Truthful(r.1[k], r.0.log.committed)
  {
    var v := m.version;
    var l := Appended(n.log, v.term, v.txid, m);
    AppendAscends(n.log, v.term, v.txid, m);
    AckStaysFaithful(l, v.txid, n.id);
    AckAdvances(l, v.txid, n.id);
    LearnsSequentially(n, l, AckUpTo(l, v.txid, n.id).0, AckUpTo(l, v.txid, n.id).1);
  }

  lemma CliSequential(n: Node, who: Requester, req: CliReq)
    requires NodeOk(n) && !n.halted && Sequential(n)
    ensures var e := HandleCli(n, who, req); Sequential(e.node) && TellsTruth(e)
  {
    if n.role.Leader? && IsWrite(req) {
      var m := NextWrite(n, req);
      AppendOwnSequential(TakenBy(n, who), m);
      LeaderWrites(n, who, req);
    }
  }

  /** The condition on a run: what a follower commits at once is at most the entry it is told. */
  ghost predicate CleanCommit(s: Sys, a: Action)
    requires Enabled(s, a)
  {
    a.Deliver? && a.p.msg.Append? ==> CleanAppend(s.nodes[a.p.dst], a.p.src, a.p.msg)
  }

  lemma ActionSequential(s: Sys, a: Action)
    requires Enabled(s, a) && !a.Tick? && NodeOk(s.nodes[Actor(a)]) && Sequential(s.nodes[Actor(a)]) && CleanCommit(s, a)
    ensures var e := EffectOf(s, a); Sequential(e.node) && TellsTruth(e)
  {
    var n := s.nodes[Actor(a)];
    if a.Client? {
      CliSequential(n, a.who, a.req);
    } else if a.Deliver? && a.p.msg.Append? {
      AppendSequential(n, a.p.src, a.p.src, a.p.msg);
    } else if a.Deliver? && a.p.msg.AppendRes? {
      AppendResSequential(n, a.p.src, a.p.msg);
    }
  }

  // ----- whole runs --------------------------------------------------------------------------

  ghost predicate AllSequential(s: Sys) {
    forall i :: 0 <= i < |s.nodes| ==> Sequential(s.nodes[i])
  }

  /** Every reply to a write is the sequential store's, for an entry its node has learned. */
  ghost predicate RepliesTruthful(s: Sys) {
    forall k :: 0 <= k < |s.gave| && s.gave[k].reply.txid.Some? ==>
      s.gave[k].node < |s.nodes| && Truthful(s.gave[k].reply, s.nodes[s.gave[k].node].log.committed)
  }

  lemma TruthfulGrows(r: Reply, es: seq<Rec<Mutation>>, es': seq<Rec<Mutation>>)
    requires Truthful(r, es) && es <= es'
    ensures Truthful(r, es')
  {
    var x :| 0 <= x < |es| && es[x].txid == r.txid.value &&
      Tells(r.res, Execute(Replay(es[..x]), es[x].entry), es[x].entry.kind);
    assert es'[..x] == es[..x] && es'[x] == es[x];
  }

  lemma TruthAfter(s: Sys, i: NodeId, e: Effect, took: seq<Taken>)
    requires RepliesTruthful(s) && i < |s.nodes| && s.nodes[i].log.committed <= e.node.log.committed && TellsTruth(e)
    ensures RepliesTruthful(After(s, i, e, took))
  {
    var s' := After(s, i, e, took);
    forall k | 0 <= k < |s'.gave| && s'.gave[k].reply.txid.Some?
      ensures s'.gave[k].node < |s'.nodes| && Truthful(s'.gave[k].reply, s'.nodes[s'.gave[k].node].log.committed)
    {
      if k < |s.gave| {
        assert s'.gave[k] == s.gave[k];
        if s.gave[k].node == i {
          TruthfulGrows(s.gave[k].reply, s.nodes[i].log.committed, e.node.log.committed);
        }
      } else {
        assert s'.gave[k].reply == e.replies[k - |s.gave|];
      }
    }
  }

  lemma SequentialStep(s: Sys, a: Action)
    requires JournalInv(s) && AllSequential(s) && RepliesTruthful(s) && Enabled(s, a) && CleanCommit(s, a)
    ensures AllSequential(Next(s, a)) && RepliesTruthful(Next(s, a))
  {
    if !a.Tick? {
      ActionSequential(s, a);
      var w := ActionKeepsRecords(s, a);
      TruthAfter(s, Actor(a), EffectOf(s, a), NewlyTaken(s, a));
    }
  }

  lemma {:induction false} SequentialHolds(tr: seq<Sys>, acts: seq<Action>, k: nat)
    requires IsRun(tr, acts) && k < |tr| && RecordsAgree(tr[0]) && AllSequential(tr[0])
    requires forall m :: 0 <= m < k ==> CleanCommit(tr[m], acts[m])
    ensures AllSequential(tr[k]) && RepliesTruthful(tr[k])
  {
    if k > 0 {
      SequentialHolds(tr, acts, k - 1);
      JournalInvHolds(tr, acts, k - 1);
      SequentialStep(tr[k - 1], acts[k - 1]);
    }
  }

  /** Every replica's database is the replay of what it has learned, so replicas that have
      learned the same log hold the same data. */
  lemma StateMachine(tr: seq<Sys>, acts: seq<Action>, k: nat, i: NodeId, j: NodeId)
    requires IsRun(tr, acts) && k < |tr| && RecordsAgree(tr[0]) && AllSequential(tr[0])
    requires forall m :: 0 <= m < k ==> CleanCommit(tr[m], acts[m])
    requires i < |tr[k].nodes| && j < |tr[k].nodes|
    ensures tr[k].nodes[i].db == Replay(tr[k].nodes[i].log.committed)
    ensures tr[k].nodes[i].log.committed == tr[k].nodes[j].log.committed ==> tr[k].nodes[i].db == tr[k].nodes[j].db
  {
    SequentialHolds(tr, acts, k);
    assert Sequential(tr[k].nodes[i]) && Sequential(tr[k].nodes[j]);
  }

  /** The reply is what the sequential store says about the entry at position `x` of `es`. */
  ghost predicate TruthAt(r: Reply, es: seq<Rec<Mutation>>, x: nat) {
    x < |es| && Tells(r.res, Execute(Replay(es[..x]), es[x].entry), es[x].entry.kind)
  }

  lemma TruthMeans(r: Reply, es: seq<Rec<Mutation>>, x: nat)
    requires TruthAt(r, es, x)
    ensures Means(r.res, es, x)
  {
    var k := es[x].entry.key;
    ReplayHolds(es[..x], k);
    ReplayHolds(es[..x + 1], k);
    assert es[..x + 1][..x] == es[..x];
  }

  /** Whatever a client is told about its write is what the sequential store says of the very
      mutation made of its request, at the position at which its leader took and learned it. */
  lemma TruthfulReplies(tr: seq<Sys>, acts: seq<Action>, k: nat, t: Taken, m: nat) returns (c: nat, x: nat)
    requires IsRun(tr, acts) && k < |tr| && RecordsAgree(tr[0]) && AllSequential(tr[0])
    requires forall j :: 0 <= j < k ==> CleanCommit(tr[j], acts[j])
    requires Answers(tr[k], t, m)
    ensures c < k && TookAt(tr, acts, c, t) && acts[c] == Client(t.node, t.who, acts[c].req) && IsWrite(acts[c].req)
    ensures t.node < |tr[c].nodes| && t.node < |tr[k].nodes| && tr[c].nodes[t.node].role.Leader?
    ensures var es := tr[k].nodes[t.node].log.committed;
      && x == |Entries(tr[c].nodes[t.node].log)| && Means(tr[k].gave[m].reply.res, es, x)
      && MadeOf(es[x], acts[c].req, tr[c].nodes[t.node].role.term, t.txid)
  {
    SequentialHolds(tr, acts, k);
    JournalInvHolds(tr, acts, k);
    var g := tr[k].gave[m];
    assert Taken(g.node, g.reply.txid.value, g.reply.who) == t;
    c := TakenByRequest(tr, acts, k, t);
    RequestKept(tr, acts, c, k, t);
    var es := tr[k].nodes[t.node].log.committed;
    x :| 0 <= x < |es| && es[x].txid == t.txid && TruthAt(g.reply, es, x);
    TruthMeans(g.reply, es, x);
    assert Entries(tr[k].nodes[t.node].log)[x] == es[x];
  }

  /** What a replica holds under a key is what the entries it has learned leave there. */
  lemma DatabaseHolds(tr: seq<Sys>, acts: seq<Action>, k: nat, i: NodeId, key: Bytes)
    requires IsRun(tr, acts) && k < |tr| && RecordsAgree(tr[0]) && AllSequential(tr[0])
    requires forall m :: 0 <= m < k ==> CleanCommit(tr[m], acts[m])
    requires i < |tr[k].nodes|
    ensures Lookup(tr[k].nodes[i].db, key) == Held(tr[k].nodes[i].log.committed, key)
  {
    StateMachine(tr, acts, k, i, i);
    ReplayHolds(tr[k].nodes[i].log.committed, key);
  }

  /** The write `t` was made of the request `req` at step `c`, and nothing its node has learned
      since, up to state `k`, names its key. */
  ghost predicate LastOn(tr: seq<Sys>, acts: seq<Action>, k: nat, t: Taken, c: nat, req: CliReq, key: Bytes)
    requires IsRun(tr, acts)
  {
    && k < |tr| && TookAt(tr, acts, c, t) && acts[c].Client? && acts[c].req == req
    && t.node < |tr[c].nodes| && t.node < |tr[k].nodes|
    && forall y :: |Entries(tr[c].nodes[t.node].log)| < y < |tr[k].nodes[t.node].log.committed| ==>
         tr[k].nodes[t.node].log.committed[y].entry.key != key
  }

  /** From the answer to a set until its node learns of another write to the key, the node's
      database has the value that was asked for under that key. */
  lemma SetIsStored(tr: seq<Sys>, acts: seq<Action>, k: nat, t: Taken, m: nat, c: nat, key: Bytes, value: Bytes)
    requires IsRun(tr, acts) && k < |tr| && RecordsAgree(tr[0]) && AllSequential(tr[0])
    requires forall j :: 0 <= j < k ==> CleanCommit(tr[j], acts[j])
    requires Answers(tr[k], t, m) && LastOn(tr, acts, k, t, c, SetReq(key, value), key)
    ensures key in tr[k].nodes[t.node].db && tr[k].nodes[t.node].db[key] == value
  {
    var x := AnsweredAt(tr, acts, k, t, m, c);
    LastWriterWins(tr[k].nodes[t.node].log.committed, key, x);
    StateMachine(tr, acts, k, t.node, t.node);
  }

  /** Likewise, after the answer to a delete the key is absent. */
  lemma DeleteIsDone(tr: seq<Sys>, acts: seq<Action>, k: nat, t: Taken, m: nat, c: nat, key: Bytes)
    requires IsRun(tr, acts) && k < |tr| && RecordsAgree(tr[0]) && AllSequential(tr[0])
    requires forall j :: 0 <= j < k ==> CleanCommit(tr[j], acts[j])
    requires Answers(tr[k], t, m) && LastOn(tr, acts, k, t, c, DelReq(key), key)
    ensures key !in tr[k].nodes[t.node].db
  {
    var x := AnsweredAt(tr, acts, k, t, m, c);
    LastWriterWins(tr[k].nodes[t.node].log.committed, key, x);
    StateMachine(tr, acts, k, t.node, t.node);
  }

  /** A write that is answered has been learned, where its leader took it. */
  lemma AnsweredAt(tr: seq<Sys>, acts: seq<Action>, k: nat, t: Taken, m: nat, c: nat) returns (x: nat)
    requires IsRun(tr, acts) && k < |tr| && RecordsAgree(tr[0]) && Answers(tr[k], t, m) && TookAt(tr, acts, c, t)
    ensures acts[c].Client? && t.node < |tr[c].nodes| && t.node < |tr[k].nodes| && tr[c].nodes[t.node].role.Leader?
    ensures var es := tr[k].nodes[t.node].log.committed;
      x == |Entries(tr[c].nodes[t.node].log)| < |es| && MadeOf(es[x], acts[c].req, tr[c].nodes[t.node].role.term, t.txid)
  {
    JournalInvHolds(tr, acts, k);
    var g := tr[k].gave[m];
    assert Taken(g.node, g.reply.txid.value, g.reply.who) == t;
    TookBefore(tr, acts, k, c, t);
    RequestKept(tr, acts, c, k, t);
    var es := tr[k].nodes[t.node].log.committed;
    x :| 0 <= x < |es| && es[x].txid == t.txid;
    assert Entries(tr[k].nodes[t.node].log)[x] == es[x];
  }

  /** A leader answers a read at once, with what the entries it has learned leave under the key
      and the id of the last of them, and changes nothing. */
  lemma ReadAnswered(tr: seq<Sys>, acts: seq<Action>, k: nat, i: NodeId, who: Requester, key: Bytes)
    requires IsRun(tr, acts) && k < |acts| && RecordsAgree(tr[0]) && AllSequential(tr[0])
    requires forall m :: 0 <= m < k ==> CleanCommit(tr[m], acts[m])
    requires acts[k] == Client(i, who, GetReq(key)) && i < |tr[k].nodes| && tr[k].nodes[i].role.Leader?
    ensures var es := tr[k].nodes[i].log.committed;
      tr[k + 1].gave == tr[k].gave + [Gave(i, Reply(who, GetRes(Held(es, key).Some?, Held(es, key), LastTxid(es)), None))]
    ensures tr[k + 1].nodes == tr[k].nodes && tr[k + 1].net == tr[k].net
  {
    DatabaseHolds(tr, acts, k, i, key);
    AnsweredNow(tr[k], acts[k]);
  }

  /** A follower has the id of the node it follows for its token and its address. */
  ghost predicate Addressed(s: Sys) {
    forall i :: 0 <= i < |s.nodes| && s.nodes[i].role.Follower? ==>
      s.nodes[i].role.tok == s.nodes[i].role.id && s.nodes[i].role.leaderAddr == s.nodes[i].role.id
  }

  lemma AddressedStep(s: Sys, a: Action)
    requires Addressed(s) && Enabled(s, a)
    ensures Addressed(Next(s, a))
  {
  }

  lemma {:induction false} AddressedHolds(tr: seq<Sys>, acts: seq<Action>, k: nat)
    requires IsRun(tr, acts) && k < |tr|
    ensures Addressed(tr[k])
  {
    if k == 0 {
      assert forall i :: 0 <= i < |tr[0].nodes| ==> FreshNode(tr[0].nodes[i], i, |tr[0].nodes|);
    } else {
      AddressedHolds(tr, acts, k - 1);
      AddressedStep(tr[k - 1], acts[k - 1]);
    }
  }

  /** A node that does not lead sends every client away at once: to the node it follows, if it
      follows one, and otherwise with the news that there is no leader. */
  lemma Redirected(tr: seq<Sys>, acts: seq<Action>, k: nat)
    requires IsRun(tr, acts) && k < |acts| && acts[k].Client? && !tr[k].nodes[acts[k].i].role.Leader?
    ensures var role := tr[k].nodes[acts[k].i].role;
      var res := if role.Follower? then RedirectRes(true, Some(role.id)) else RedirectRes(false, None);
      tr[k + 1].gave == tr[k].gave + [Gave(acts[k].i, Reply(acts[k].who, res, None))]
    ensures tr[k + 1].nodes == tr[k].nodes && tr[k + 1].net == tr[k].net
  {
    AddressedHolds(tr, acts, k);
    AnsweredNow(tr[k], acts[k]);
  }

  /** Learning an entry that is found: what it leaves under each key, and what is answered. */
  lemma LearnExactly(n: Node, txid: TXID, m: Mutation, key: Bytes)
    requires Find(n.log, txid) == Some(m)
    ensures var n1, was := Learn(n, txid).0, Lookup(n.db, m.key);
      && n1 == n.(db := n1.db, waiting := n.waiting - {txid})
      && (key != m.key ==> Lookup(n1.db, key) == Lookup(n.db, key))
      && Lookup(n1.db, m.key) == (match m.kind
           case KVSET => Some(m.value)
           case KVDEL => None
           case KVCAS => if was == m.oldValue then Some(m.value) else was)
    ensures txid !in n.waiting ==> Learn(n, txid).1 == []
    ensures txid in n.waiting ==>
      var n1, was := Learn(n, txid).0, Lookup(n.db, m.key);
      Learn(n, txid).1 == [Reply(n.waiting[txid], match m.kind
        case KVSET => SetRes(true)
        case KVDEL => DelRes(true, was)
        case KVCAS => CasRes(was == m.oldValue, Lookup(n1.db, m.key), LastTxid(n.log.committed)), Some(txid))]
  {
  }

  /** An id under which nothing is found is not learned and not answered. */
  lemma NotFoundNotLearned(n: Node, txid: TXID)
    requires Find(n.log, txid) == None
    ensures Learn(n, txid) == (n, [])
  {
  }

  lemma AnsweredNow(s: Sys, a: Action)
    requires Enabled(s, a) && a.Client? && !(s.nodes[a.i].role.Leader? && IsWrite(a.req))
    ensures Next(s, a).gave == s.gave + [Gave(a.i, Reply(a.who, AnswerNow(s.nodes[a.i], a.req), None))]
    ensures Next(s, a).nodes == s.nodes && Next(s, a).net == s.net
  {
    var e := EffectOf(s, a);
    assert e == Effect(s.nodes[a.i], {}, [Reply(a.who, AnswerNow(s.nodes[a.i], a.req), None)]);
    assert Given(a.i, e.replies) == [Gave(a.i, e.replies[0])];
    assert s.nodes[a.i := s.nodes[a.i]] == s.nodes;
  }

  // ----- exactly when the maps are right -------------------------------------------------------

  ghost predicate AllFaithful(s: Sys) {
    forall i :: 0 <= i < |s.nodes| ==> Faithful(s.nodes[i].log)
  }

  ghost predicate SomethingLost(s: Sys, i: NodeId, r: Rec<Mutation>) {
    i < |s.nodes| && Lost(s.nodes[i].log, r)
  }

  /** The operation loses an entry. */
  ghost predicate Harms(l: Log<Mutation>, op: Op<Mutation>) {
    op.CommitOp? && l.keying.ByArgument? && !NothingBelow(l, op.txid)
  }

  lemma HarmExactly(l: Log<Mutation>, op: Op<Mutation>)
    requires Faithful(l) && Ascending(Entries(l)) && !op.AppendOp?
    ensures Faithful(Do(l, op)) <==> !Harms(l, op)
    ensures Harms(l, op) ==> l.pending != [] && Lost(Do(l, op), l.pending[0].rec)
  {
    if op.AckOp? {
      AckStaysFaithful(l, op.txid, op.peer);
    } else {
      CommitFaithfulExactly(l, op.txid);
      if Harms(l, op) {
        OldestLost(l, op.txid);
      }
    }
  }

  /** How a handler changes the log: it may append, and then commit by acks or up to an id. */
  lemma LogEffect(s: Sys, a: Action) returns (l: Log<Mutation>, op: Option<Op<Mutation>>)
    requires Enabled(s, a) && !a.Tick? && NodeOk(s.nodes[Actor(a)])
    ensures var n := s.nodes[Actor(a)];
      && l == n.log.(pending := l.pending) && Ascending(Entries(l))
      && EffectOf(s, a).node.log == (if op.None? then l else Do(l, op.value))
      && (op.Some? ==> !op.value.AppendOp?)
      && (CleanCommit(s, a) <==> op.None? || !Harms(l, op.value))
  {
    var n := s.nodes[Actor(a)];
    l, op := n.log, None;
    if a.Client? {
      l, op := CliLog(n, a.who, a.req);
    } else if a.Deliver? && a.p.msg.Append? {
      if !n.role.Leader? && n.role.Following(a.p.src) && Links(n, a.p.msg) {
        BatchTaken(n, a.p.msg);
        l := TakeBatch(n.log, a.p.msg.batch).log;
        op := if TakeBatch(n.log, a.p.msg.batch).Took? then Some(CommitOp(a.p.msg.lastLearned)) else None;
      }
    } else if a.Deliver? && a.p.msg.AppendRes? && n.role.Leader? && a.p.src in n.repPeers {
      op := Some(AckOp(a.p.msg.acceptedTxid, a.p.src));
    }
  }

  lemma CliLog(n: Node, who: Requester, req: CliReq) returns (l: Log<Mutation>, op: Option<Op<Mutation>>)
    requires NodeOk(n) && !n.halted
    ensures l == n.log.(pending := l.pending) && Ascending(Entries(l))
    ensures HandleCli(n, who, req).node.log == (if op.None? then l else Do(l, op.value))
    ensures op.Some? ==> op.value.AckOp?
  {
    if n.role.Leader? && IsWrite(req) {
      var m := WriteLog(n, who, req);
      l, op := Appended(n.log, m.version.term, m.version.txid, m), Some(AckOp(m.version.txid, n.id));
      AppendAscends(n.log, m.version.term, m.version.txid, m);
    } else {
      l, op := n.log, None;
    }
  }

  lemma WriteLog(n: Node, who: Requester, req: CliReq) returns (m: Mutation)
    requires NodeOk(n) && !n.halted && n.role.Leader? && IsWrite(req)
    ensures AcceptedTxid(n) < m.version.txid
    ensures var v := m.version;
      HandleCli(n, who, req).node.log == Do(Appended(n.log, v.term, v.txid, m), AckOp(v.txid, n.id))
  {
    m := NextWrite(n, req);
    LeaderWrites(n, who, req);
    ReplicatedLog(TakenBy(n, who), m);
  }

  lemma ReplicatedLog(n: Node, m: Mutation)
    requires !n.halted && AcceptedTxid(n) < m.version.txid
    ensures var v := m.version;
      Replicate(n, m).node.log == Do(Appended(n.log, v.term, v.txid, m), AckOp(v.txid, n.id))
  {
    AppendOwnAdds(n, m);
  }

  lemma FaithfulAfter(s: Sys, i: NodeId, e: Effect, took: seq<Taken>)
    requires AllFaithful(s) && i < |s.nodes|
    ensures Faithful(e.node.log) ==> AllFaithful(After(s, i, e, took))
  {
  }

  lemma FaithfulStep(s: Sys, a: Action)
    requires JournalInv(s) && AllFaithful(s) && Enabled(s, a)
    ensures CleanCommit(s, a) ==> AllFaithful(Next(s, a))
    ensures !CleanCommit(s, a) ==> exists r :: SomethingLost(Next(s, a), Actor(a), r)
  {
    if !a.Tick? {
      var l, op := LogEffect(s, a);
      if op.Some? {
        HarmExactly(l, op.value);
      }
      FaithfulAfter(s, Actor(a), EffectOf(s, a), NewlyTaken(s, a));
      if !CleanCommit(s, a) {
        assert SomethingLost(Next(s, a), Actor(a), l.pending[0].rec);
      }
    }
  }

  lemma LostStep(s: Sys, a: Action, i: NodeId, r: Rec<Mutation>)
    requires JournalInv(s) && Enabled(s, a) && SomethingLost(s, i, r)
    ensures SomethingLost(Next(s, a), i, r)
  {
    if !a.Tick? && Actor(a) == i {
      LostByActor(s, a, r);
    }
  }

  lemma LostByActor(s: Sys, a: Action, r: Rec<Mutation>)
    requires JournalInv(s) && Enabled(s, a) && !a.Tick? && Lost(s.nodes[Actor(a)].log, r)
    ensures Lost(EffectOf(s, a).node.log, r)
  {
    var l, op := LogEffect(s, a);
    if op.Some? {
      LostStays(l, op.value, r);
    }
  }

  ghost predicate HasLost(s: Sys) {
    exists i: NodeId, r :: SomethingLost(s, i, r)
  }

  /** One step, clean or not: what is lost stays lost, and from right maps a clean step leads to
      right maps, any other to a loss. */
  ghost predicate LossLink(s: Sys, s': Sys, clean: bool) {
    && (HasLost(s) ==> HasLost(s'))
    && (AllFaithful(s) ==> if clean then AllFaithful(s') else HasLost(s'))
    && !(HasLost(s') && AllFaithful(s'))
  }

  lemma LossStep(s: Sys, a: Action)
    requires JournalInv(s) && Enabled(s, a) && JournalInv(Next(s, a))
    ensures LossLink(s, Next(s, a), CleanCommit(s, a))
  {
    NotBoth(Next(s, a));
    if AllFaithful(s) {
      FaithfulStep(s, a);
    }
    if i: NodeId, r :| SomethingLost(s, i, r) {
      LostStep(s, a, i, r);
    }
  }

  lemma {:induction false} LossChain(tr: seq<Sys>, clean: seq<bool>, k: nat)
    requires k < |tr| == |clean| + 1 && AllFaithful(tr[0])
    requires forall m :: 0 <= m < k ==> LossLink(tr[m], tr[m + 1], clean[m])
    ensures AllFaithful(tr[k]) <==> forall m :: 0 <= m < k ==> clean[m]
    ensures AllFaithful(tr[k]) || HasLost(tr[k])
  {
    if k > 0 {
      LossChain(tr, clean, k - 1);
      assert LossLink(tr[k - 1], tr[k - 1 + 1], clean[k - 1]);
    }
  }

  lemma NotBoth(s: Sys)
    requires JournalInv(s)
    ensures !(HasLost(s) && AllFaithful(s))
  {
    if i: NodeId, r :| SomethingLost(s, i, r) {
      LostUnfaithful(s, i, r);
    }
  }

  /** The maps of all nodes hold what they should if and only if no commit of the run found
      anything below its argument; otherwise an entry that some node has learned is lost. */
  lemma FaithfulExactly(tr: seq<Sys>, acts: seq<Action>, k: nat)
    requires IsRun(tr, acts) && k < |tr| && RecordsAgree(tr[0]) && AllFaithful(tr[0])
    ensures AllFaithful(tr[k]) <==> forall m :: 0 <= m < k ==> CleanCommit(tr[m], acts[m])
    ensures AllFaithful(tr[k]) || HasLost(tr[k])
  {
    var clean := seq(|acts|, m requires 0 <= m < |acts| => CleanCommit(tr[m], acts[m]));
    forall m | 0 <= m < k
      ensures LossLink(tr[m], tr[m + 1], clean[m])
    {
      JournalInvHolds(tr, acts, m);
      JournalInvHolds(tr, acts, m + 1);
      LossStep(tr[m], acts[m]);
    }
    LossChain(tr, clean, k);
    assert forall m :: 0 <= m < k ==> clean[m] == CleanCommit(tr[m], acts[m]);
  }

  lemma LostUnfaithful(s: Sys, i: NodeId, r: Rec<Mutation>)
    requires JournalInv(s) && SomethingLost(s, i, r)
    ensures !AllFaithful(s)
  {
    assert NodeOk(s.nodes[i]);
    CommittedAscends(s.nodes[i].log);
    if Faithful(s.nodes[i].log) {
      FaithfulKeeps(s.nodes[i].log, r);
    }
  }

  /** A compare-and-set request is meant to succeed exactly when the stored value, or its
      absence, is the expected one.  It does, except when the request expects absence and
      the key is absent (it then fails) or holds the empty value (it then succeeds). */
  lemma CompareAndSet(db: Database, req: CliReq, v: Version)
    requires req.CasReq?
    ensures (Execute(db, MutationOf(req, v)).success <==> Lookup(db, req.key) == req.oldValue)
      <==> (req.oldValue.Some? || (req.key in db && db[req.key] != []))
  {
  }
}
