/** The server of src/server/server.rs as an object: handlers that update fields in place,
    each proved to do what the corresponding function of `Harpoon` says. */
module ServerObject {
  import opened Types
  import opened Roles
  import LogSpec
  import opened KeyValue
  import H = Harpoon
  import opened InMemoryLogs

  /** The replication peers when those in `done` have been sent their batch. */
  ghost function PartlyAdvanced(n: H.Node, done: set<NodeId>): map<NodeId, H.RepPeer> {
    map p | p in n.repPeers :: if p in done then H.Advanced(n, n.repPeers[p]) else n.repPeers[p]
  }

  lemma LearnNext(n: H.Node, vs: seq<Version>, i: nat, replies: seq<H.Reply>)
    requires i < |vs|
    ensures var first := H.Learn(n, vs[i].txid);
      var rest := H.LearnAll(first.0, vs[i + 1..]);
      var all := H.LearnAll(n, vs[i..]);
      all.0 == rest.0 && replies + all.1 == (replies + first.1) + rest.1
  {
    assert vs[i..][1..] == vs[i + 1..];
    var first := H.Learn(n, vs[i].txid);
    var rest := H.LearnAll(first.0, vs[i + 1..]);
    assert replies + (first.1 + rest.1) == (replies + first.1) + rest.1;
  }

  lemma TakeOne(l: LogSpec.Log<Mutation>, batch: seq<Mutation>, i: nat)
    requires i < |batch|
    ensures var v := batch[i].version; var rest := batch[i + 1..]; var es := LogSpec.Entries(l);
      H.TakeBatch(l, batch[i..]) ==
      if v.term < LogSpec.LastTerm(es) then H.Panicked(l)
      else if v.txid <= LogSpec.LastTxid(es) then H.TakeBatch(l, rest)
      else H.TakeBatch(LogSpec.Appended(l, v.term, v.txid, batch[i]), rest)
  {
    assert batch[i..][1..] == batch[i + 1..];
  }

  /** From `n`, with `rs` given, appending `ms` ends as `all` from the replies `rs0`. */
  ghost predicate AppendsLeft(all: (H.Node, seq<H.Reply>), rs0: seq<H.Reply>, n: H.Node, rs: seq<H.Reply>,
                              ms: seq<Mutation>) {
    var r := H.AppendEach(n, ms);
    all.0 == r.0 && rs0 + all.1 == rs + r.1
  }

  lemma AppendNext(all: (H.Node, seq<H.Reply>), rs0: seq<H.Reply>, n: H.Node, rs: seq<H.Reply>, ms: seq<Mutation>, i: nat)
    requires i < |ms| && AppendsLeft(all, rs0, n, rs, ms[i..])
    ensures var a := H.AppendOwn(n, ms[i]);
      if a.0.halted then all.0 == a.0 && rs0 + all.1 == rs + a.1
      else AppendsLeft(all, rs0, a.0, rs + a.1, ms[i + 1..])
  {
    var a := H.AppendOwn(n, ms[i]);
    AppendFirst(n, ms, i);
    if !a.0.halted {
      var rest := H.AppendEach(a.0, ms[i + 1..]);
      assert rs + (a.1 + rest.1) == (rs + a.1) + rest.1;
    }
  }

  lemma AppendFirst(n: H.Node, ms: seq<Mutation>, i: nat)
    requires i < |ms|
    ensures var a := H.AppendOwn(n, ms[i]); var rest := H.AppendEach(a.0, ms[i + 1..]);
      H.AppendEach(n, ms[i..]) == if a.0.halted then a else (rest.0, a.1 + rest.1)
  {
    assert ms[i..][0] == ms[i] && ms[i..][1..] == ms[i + 1..];
  }

  lemma OneMore(n: H.Node, done: set<NodeId>, p: NodeId, before: seq<H.Send>, msg: H.Send)
    requires done <= n.repPeers.Keys && p in n.repPeers
    requires SetOf(before) == H.AppendsTo(n, done)
    requires msg == H.ToPeer(n.repPeers[p].tok, H.AppendFor(n, n.repPeers[p]))
    ensures SetOf(before + [msg]) == H.AppendsTo(n, done + {p})
    ensures PartlyAdvanced(n, done)[p := H.Advanced(n, n.repPeers[p])] == PartlyAdvanced(n, done + {p})
  {
    assert SetOf(before + [msg]) == SetOf(before) + {msg};
    assert H.AppendsTo(n, done + {p}) == H.AppendsTo(n, done) + {msg};
  }

  class Server {
    const id: NodeId
    const peers: nat
    const log: InMemoryLog<Mutation>
    var role: Role
    var highestTerm: Term
    var maxGenerated: TXID
    var repPeers: map<NodeId, H.RepPeer>
    var db: Database
    var waiting: map<TXID, Requester>
    var halted: bool

    /** Everything handed to the outgoing channel, oldest first. */
    var sent: seq<H.Send>
    var replies: seq<H.Reply>

    ghost predicate Valid()
      reads this, log
    {
      log.Valid()
    }

    ghost function View(): H.Node
      reads this, log
    {
      H.Node(id, peers, role, highestTerm, maxGenerated, repPeers, log.View(), db, waiting, halted)
    }

    /** The handler has done `e` to the node `n`, and handed over what `e` says. */
    twostate predicate Did(e: H.Effect)
      reads this, log
    {
      && Valid() && View() == e.node
      && old(sent) <= sent && SetOf(sent[|old(sent)|..]) == e.sends
      && replies == old(replies) + e.replies
    }

    constructor (id: NodeId, peers: nat, acking: LogSpec.Acking, keying: LogSpec.Keying)
      ensures Valid() && fresh(log) && sent == [] && replies == []
      ensures View() == H.Node(id, peers, Init, 0, 0, map[],
                               LogSpec.Log([], map[], [], peers / 2 + 1, acking, keying), map[], map[], false)
    {
      this.id, this.peers := id, peers;
      log := new InMemoryLog(peers / 2 + 1, acking, keying);
      role, highestTerm, maxGenerated, repPeers := Init, 0, 0, map[];
      db, waiting, halted, sent, replies := map[], map[], false, [], [];
    }

    // ----- election ----------------------------------------------------------------------------

    method UpdateRepPeers(peer: NodeId, addr: NodeId, tok: NodeId)
      requires Valid()
      modifies `repPeers
      ensures View() == H.WithRepPeer(old(View()), peer, addr, tok)
    {
      if id == peer {
        return;
      }
      log.Counters();
      var fresh' := H.RepPeer(log.lastAcceptedTerm, log.lastAcceptedTxid, log.lastAcceptedTxid, tok, addr);
      if peer in repPeers {
        var known := repPeers[peer];
        repPeers := repPeers[peer := fresh'.(
          maxSent := known.maxSent, acceptedTxid := known.acceptedTxid, acceptedTerm := known.acceptedTerm)];
      } else {
        repPeers := repPeers[peer := fresh'];
      }
    }

    method HandleVoteRes(now: Time, tok: NodeId, peer: NodeId, addr: NodeId, res: Msg)
      requires Valid() && res.VoteRes?
      modifies this
      ensures Did(H.HandleVoteRes(old(View()), now, tok, peer, addr, res))
    {
      if role.Init? || res.term != role.term {
        return;
      }
      if role.ValidCandidate(now) && !res.success {
        if res.term > highestTerm {
          highestTerm := res.term;
        }
        role := Init;
        repPeers := map[];
      } else if role.ValidCandidate(now) {
        var newHave := role.have;
        if tok !in newHave {
          newHave := newHave + [tok];
          UpdateRepPeers(peer, addr, tok);
        }
        if |newHave| >= role.need {
          role := Leader(role.term, [], role.need, role.until);
        } else {
          role := Candidate(role.term, newHave, role.need, role.until);
        }
      } else if role.Leader? && role.ValidLeader(now) && res.success {
        var newUntil := role.until;
        var newHave := role.have;
        if tok !in newHave {
          newHave := newHave + [tok];
          UpdateRepPeers(peer, addr, tok);
        }
        if |newHave| >= role.need {
          newHave := [];
          newUntil := now + LEADER_DURATION;
        }
        role := Leader(role.term, newHave, role.need, newUntil);
      }
    }

    method ShouldGrantVote(now: Time, req: Msg) returns (grant: bool)
      requires Valid() && req.VoteReq?
      ensures grant == H.ShouldGrantVote(View(), now, req)
    {
      log.Counters();
      if role.ValidLeader(now) {
        grant := false;
      } else if req.term < log.lastLearnedTerm {
        grant := false;
      } else if req.learnedTerm > log.lastLearnedTerm {
        grant := true;
      } else if req.learnedTerm == log.lastLearnedTerm && req.acceptedTxid >= log.lastAcceptedTxid {
        grant := true;
      } else {
        grant := false;
      }
    }

    method HandleVoteReq(now: Time, tok: NodeId, peer: NodeId, addr: NodeId, req: Msg)
      requires Valid() && req.VoteReq?
      modifies this
      ensures Did(H.HandleVoteReq(old(View()), now, tok, peer, addr, req))
    {
      var grant := ShouldGrantVote(now, req);
      var res := VoteRes(true, req.term);
      if peer == id {
        // broadcast is naive: answer, but do not follow oneself
      } else if role.ValidLeader(now) && !role.Following(peer) {
        res := VoteRes(false, role.term);
      } else if role.Following(peer) {
        role := role.(until := now + LEADER_DURATION);
      } else if grant {
        highestTerm := req.term;
        role := Follower(req.term, peer, tok, addr, now + LEADER_DURATION);
      } else {
        res := VoteRes(false, if role.Init? then req.term else role.term);
      }
      sent := sent + [H.ToPeer(tok, res)];
      assert sent[|old(sent)|..] == [H.ToPeer(tok, res)];
    }

    method Cron(now: Time)
      requires Valid()
      modifies this
      ensures Did(H.Cron(old(View()), now))
    {
      if !role.ValidLeader(now) && !role.ValidCandidate(now) {
        highestTerm := highestTerm + 1;
        role := Candidate(highestTerm, [], Need(peers), now + LEADER_DURATION);
      }
      if role.ShouldExtendLeadership(now) || role.ValidCandidate(now) {
        log.Counters();
        var req := VoteReq(role.term, log.lastLearnedTerm, log.lastLearnedTxid,
                           log.lastAcceptedTerm, log.lastAcceptedTxid);
        sent := sent + [H.Broadcast(req)];
        assert sent[|old(sent)|..] == [H.Broadcast(req)];
      }
    }

    // ----- learning ----------------------------------------------------------------------------

    /** Executes the entry `txid` against the database and answers the client waiting for it. */
    method Learn(txid: TXID)
      requires Valid()
      modifies `db, `waiting, `replies
      ensures Valid() && View() == H.Learn(old(View()), txid).0
      ensures replies == old(replies) + H.Learn(old(View()), txid).1
    {
      var found := log.Get(txid);
      if found.None? {
        return;
      }
      var m := found.value;
      log.Counters();
      var res: CliRes;
      match m.kind {
        case KVSET =>
          db := db[m.key := m.value];
          res := SetRes(true);
        case KVCAS =>
          var success, value := false, None;
          if m.key in db {
            var oldVal := db[m.key];
            if m.oldValue.Some? && oldVal == m.oldValue.value {
              db := db[m.key := m.value];
              success, value := true, Some(m.value);
            } else {
              value := Some(oldVal);
            }
          } else if m.oldValue.None? {
            db := db[m.key := m.value];
            success, value := true, Some(m.value);
          }
          res := CasRes(success, value, log.lastLearnedTxid);
        case KVDEL =>
          var value := if m.key in db then Some(db[m.key]) else None;
          db := db - {m.key};
          res := DelRes(true, value);
      }
      if txid in waiting {
        replies := replies + [H.Reply(waiting[txid], res, Some(txid))];
      }
      waiting := waiting - {txid};
    }

    method LearnEach(vs: seq<Version>)
      requires Valid()
      modifies `db, `waiting, `replies
      ensures Valid() && View() == H.LearnAll(old(View()), vs).0
      ensures replies == old(replies) + H.LearnAll(old(View()), vs).1
    {
      var i := 0;
      while i < |vs|
        invariant 0 <= i <= |vs| && Valid()
        invariant H.LearnAll(old(View()), vs).0 == H.LearnAll(View(), vs[i..]).0
        invariant old(replies) + H.LearnAll(old(View()), vs).1 == replies + H.LearnAll(View(), vs[i..]).1
      {
        LearnNext(View(), vs, i, replies);
        Learn(vs[i].txid);
        i := i + 1;
      }
      assert vs[i..] == [] && H.LearnAll(View(), vs[i..]) == (View(), []);
    }

    // ----- replication -------------------------------------------------------------------------

    /** Takes a batch entry by entry; stops at an entry whose term decreases. */
    method TakeEach(batch: seq<Mutation>) returns (panicked: bool)
      requires log.Valid()
      modifies log
      ensures log.Valid()
      ensures H.TakeBatch(old(log.View()), batch) == if panicked then H.Panicked(log.View()) else H.Took(log.View())
    {
      log.Counters();
      var maxTerm, maxTxid := log.lastAcceptedTerm, log.lastAcceptedTxid;
      var i := 0;
      while i < |batch|
        invariant 0 <= i <= |batch| && log.Valid()
        invariant maxTxid == LogSpec.LastTxid(LogSpec.Entries(log.View()))
        invariant maxTerm == LogSpec.LastTerm(LogSpec.Entries(log.View()))
        invariant maxTxid == log.lastAcceptedTxid
        invariant H.TakeBatch(old(log.View()), batch) == H.TakeBatch(log.View(), batch[i..])
      {
        TakeOne(log.View(), batch, i);
        var version := batch[i].version;
        if version.term < maxTerm {
          return true;
        }
        if version.txid > maxTxid {
          maxTerm, maxTxid := version.term, version.txid;
          log.Append(version.term, version.txid, batch[i]);
          log.Counters();
        }
        i := i + 1;
      }
      return false;
    }

    method Post(x: H.Send)
      modifies `sent
      ensures sent == old(sent) + [x] && sent[|old(sent)|..] == [x] && SetOf([x]) == {x}
    {
      sent := sent + [x];
    }

    method CommitAndLearn(txid: TXID)
      requires Valid()
      modifies `db, `waiting, `replies, log
      ensures Valid()
      ensures var c := LogSpec.CommitUpTo(old(log.View()), txid); var l := H.LearnAll(old(View()).(log := c.0), c.1);
        View() == l.0 && replies == old(replies) + l.1
    {
      ghost var c := LogSpec.CommitUpTo(log.View(), txid);
      var learned := log.CommitUpTo(txid);
      assert View() == old(View()).(log := c.0) && learned == c.1;
      LearnEach(learned);
    }

    method TakeAppend(tok: NodeId, a: Msg)
      requires Valid() && a.Append?
      modifies this, log
      ensures Did(H.TakeAppend(old(View()), tok, a))
    {
      var panicked := TakeEach(a.batch);
      if panicked {
        halted := true;
        return;
      }
      log.Counters();
      var res := AppendRes(true, log.lastAcceptedTxid, log.lastAcceptedTerm);
      maxGenerated := log.lastAcceptedTxid;
      CommitAndLearn(a.lastLearned);
      Post(H.ToPeer(tok, res));
    }

    method HandleAppend(tok: NodeId, peer: NodeId, a: Msg)
      requires Valid() && a.Append?
      modifies this, log
      ensures Did(H.HandleAppend(old(View()), tok, peer, a))
    {
      if role.Leader? {
        return;
      }
      log.Counters();
      var res := AppendRes(false, 0, 0);
      if role.Following(peer) {
        if a.fromTerm == log.lastAcceptedTerm && a.fromTxid == log.lastAcceptedTxid {
          TakeAppend(tok, a);
          return;
        }
        res := AppendRes(false, log.lastAcceptedTxid, log.lastAcceptedTerm);
      }
      sent := sent + [H.ToPeer(tok, res)];
      assert sent[|old(sent)|..] == [H.ToPeer(tok, res)];
    }

    method HandleAppendRes(peer: NodeId, res: Msg)
      requires Valid() && res.AppendRes?
      modifies this, log
      ensures Did(H.HandleAppendRes(old(View()), peer, res))
    {
      if !role.Leader? {
        return;
      }
      if peer in repPeers {
        var p := repPeers[peer].(acceptedTerm := res.acceptedTerm, acceptedTxid := res.acceptedTxid);
        if !res.accepted {
          p := p.(maxSent := res.acceptedTxid);
        }
        repPeers := repPeers[peer := p];
        ghost var a := LogSpec.AckUpTo(log.View(), res.acceptedTxid, peer);
        var accepted := log.AckUpTo(res.acceptedTxid, peer);
        assert View() == old(View()).(log := a.0, repPeers := repPeers) && accepted == a.1;
        LearnEach(accepted);
      }
    }

    /** The batch that follows `maxSent`, and the last id in it. */
    method CollectBatch(maxSent: TXID) returns (batch: seq<Mutation>, last: TXID)
      requires log.Valid()
      ensures batch == H.NextBatch(log.View(), maxSent)
      ensures last == H.SentUpTo(maxSent, batch)
    {
      batch, last := [], maxSent;
      var txid := maxSent + 1;
      while txid < maxSent + 100
        invariant maxSent + 1 <= txid <= maxSent + 100
        invariant batch == H.Collected(log.View(), maxSent + 1, txid)
        invariant last == H.SentUpTo(maxSent, batch)
      {
        var found := log.Get(txid);
        if found.Some? {
          batch := batch + [found.value];
          last := found.value.version.txid;
        }
        txid := txid + 1;
      }
    }

    /** Sends one replication peer its next batch. */
    method SendTo(p: NodeId)
      requires Valid() && p in repPeers
      modifies `repPeers, `sent
      ensures repPeers == old(repPeers)[p := H.Advanced(old(View()), old(repPeers)[p])]
      ensures sent == old(sent) + [H.ToPeer(old(repPeers)[p].tok, H.AppendFor(old(View()), old(repPeers)[p]))]
    {
      log.Counters();
      var peer := repPeers[p];
      var batch, last := CollectBatch(peer.maxSent);
      repPeers := repPeers[p := peer.(maxSent := last)];
      sent := sent + [H.ToPeer(peer.tok, Append(peer.acceptedTxid, peer.acceptedTerm, batch, log.lastLearnedTxid))];
    }

    /** Sends every replication peer its next batch. */
    method SendToAll()
      requires Valid()
      modifies `repPeers, `sent
      ensures View() == H.SendAll(old(View())).0
      ensures old(sent) <= sent && SetOf(sent[|old(sent)|..]) == H.SendAll(old(View())).1
    {
      ghost var n := View();
      ghost var done: set<NodeId> := {};
      var todo := repPeers.Keys;
      while todo != {}
        invariant done !! todo && done + todo == n.repPeers.Keys
        invariant repPeers == PartlyAdvanced(n, done)
        invariant old(sent) <= sent && SetOf(sent[|old(sent)|..]) == H.AppendsTo(n, done)
        decreases todo
      {
        var p :| p in todo;
        ghost var before := sent[|old(sent)|..];
        ghost var msg := H.ToPeer(n.repPeers[p].tok, H.AppendFor(n, n.repPeers[p]));
        SendTo(p);
        assert sent[|old(sent)|..] == before + [msg];
        OneMore(n, done, p, before, msg);
        todo := todo - {p};
        done := done + {p};
      }
      assert done == n.repPeers.Keys && PartlyAdvanced(n, done) == H.SendAll(n).0.repPeers;
    }

    /** Appends the writes to the log and sends every peer its next batch. */
    method Replicate(ms: seq<Mutation>)
      requires Valid() && !halted
      modifies this, log
      ensures Did(H.ReplicateAll(old(View()), ms))
    {
      if |ms| > 0 {
        AppendToLog(ms);
        if halted {
          return;
        }
        SendToAll();
      }
    }

    method AppendToLog(ms: seq<Mutation>)
      requires Valid() && !halted
      modifies `db, `waiting, `replies, `halted, log
      ensures Valid() && View() == H.AppendEach(old(View()), ms).0
      ensures replies == old(replies) + H.AppendEach(old(View()), ms).1
    {
      var i := 0;
      while i < |ms|
        invariant 0 <= i <= |ms| && Valid() && !halted
        invariant AppendsLeft(H.AppendEach(old(View()), ms), old(replies), View(), replies, ms[i..])
      {
        AppendNext(H.AppendEach(old(View()), ms), old(replies), View(), replies, ms, i);
        AppendToOwnLog(ms[i]);
        if halted {
          return;
        }
        i := i + 1;
      }
    }

    method AppendToOwnLog(m: Mutation)
      requires Valid() && !halted
      modifies `db, `waiting, `replies, `halted, log
      ensures Valid() && View() == H.AppendOwn(old(View()), m).0
      ensures replies == old(replies) + H.AppendOwn(old(View()), m).1
    {
      log.Counters();
      if m.version.txid <= log.lastAcceptedTxid {
        halted := true;
        return;
      }
      log.Append(m.version.term, m.version.txid, m);
      ghost var a := LogSpec.AckUpTo(log.View(), m.version.txid, id);
      var accepted := log.AckUpTo(m.version.txid, id);
      assert View() == old(View()).(log := a.0) && accepted == a.1;
      LearnEach(accepted);
    }

    method NewTxid() returns (txid: TXID)
      modifies `maxGenerated
      ensures maxGenerated == old(maxGenerated) + 1 == txid
    {
      maxGenerated := maxGenerated + 1;
      txid := maxGenerated;
    }

    method TakeWrite(who: Requester, req: CliReq)
      requires Valid() && !halted && role.Leader? && H.IsWrite(req)
      modifies this, log
      ensures Did(H.HandleCli(old(View()), who, req))
    {
      var txid := NewTxid();
      var m := H.MutationOf(req, Version(txid, role.term));
      waiting := waiting[txid := who];
      assert View() == H.TakenBy(old(View()), who);
      H.LeaderReplicates(old(View()), who, req, m);
      Replicate([m]);
    }

    method HandleCli(who: Requester, req: CliReq)
      requires Valid() && !halted
      modifies this, log
      ensures Did(H.HandleCli(old(View()), who, req))
    {
      if !role.Leader? {
        var res := RedirectRes(false, None);
        if role.Follower? {
          res := RedirectRes(true, Some(role.leaderAddr));
        }
        replies := replies + [H.Reply(who, res, None)];
      } else if req.GetReq? {
        log.Counters();
        var res := GetRes(false, None, log.lastLearnedTxid);
        if req.key in db {
          res := GetRes(true, Some(db[req.key]), log.lastLearnedTxid);
        }
        replies := replies + [H.Reply(who, res, None)];
      } else if H.IsWrite(req) {
        TakeWrite(who, req);
      } else {
        replies := replies + [H.Reply(who, EmptyRes, None)];
      }
    }
  }
}
