/** The handlers of one server (src/server/server.rs) as functions from a node and an input
    to the node afterwards and what it sends.  `ServerObject` proves the imperative handlers
    equal to these; the theorems about runs are stated over them. */
module Harpoon {
  import opened Types
  import opened Roles
  import opened LogSpec
  import opened KeyValue

  /** What a leader remembers about a replication peer. */
  datatype RepPeer =
    RepPeer(acceptedTerm: Term, acceptedTxid: TXID, maxSent: TXID, tok: NodeId, addr: NodeId)

  datatype Node = Node(
    id: NodeId,
    peers: nat,
    role: Role,
    highestTerm: Term,
    maxGenerated: TXID,
    repPeers: map<NodeId, RepPeer>,
    log: Log<Mutation>,
    db: Database,
    waiting: map<TXID, Requester>,
    halted: bool)

  datatype Send = ToPeer(dst: NodeId, msg: Msg) | Broadcast(msg: Msg)

  /** A reply to a client; `txid` names the write it answers, if it answers one. */
  datatype Reply = Reply(who: Requester, res: CliRes, txid: Option<TXID>)

  datatype Effect = Effect(node: Node, sends: set<Send>, replies: seq<Reply>)

  function Quiet(n: Node): Effect {
    Effect(n, {}, [])
  }

  function AcceptedTxid(n: Node): TXID {
    LastTxid(Entries(n.log))
  }

  function AcceptedTerm(n: Node): Term {
    LastTerm(Entries(n.log))
  }

  function LearnedTxid(n: Node): TXID {
    LastTxid(n.log.committed)
  }

  function LearnedTerm(n: Node): Term {
    LastTerm(n.log.committed)
  }

  // ----- election ------------------------------------------------------------------------

  function Ballot(n: Node, term: Term): Msg {
    VoteReq(term, LearnedTerm(n), LearnedTxid(n), AcceptedTerm(n), AcceptedTxid(n))
  }

  /** The role and highest term after `cron` has checked the lease. */
  function Stood(n: Node, now: Time): Node {
    if !n.role.ValidLeader(now) && !n.role.ValidCandidate(now) then
      n.(highestTerm := n.highestTerm + 1,
         role := Candidate(n.highestTerm + 1, [], Need(n.peers), now + LEADER_DURATION))
    else n
  }

  function Cron(n: Node, now: Time): (e: Effect)
    ensures e.node == n.(role := e.node.role, highestTerm := e.node.highestTerm) && e.replies == []
  {
    var n1 := Stood(n, now);
    if n1.role.ShouldExtendLeadership(now) || n1.role.ValidCandidate(now) then
      Effect(n1, {Broadcast(Ballot(n1, n1.role.term))}, [])
    else Quiet(n1)
  }

  /** Starts replicating to a voter, keeping the offsets of a peer already known. */
  function WithRepPeer(n: Node, peer: NodeId, addr: NodeId, tok: NodeId): Node {
    if peer == n.id then n
    else if peer in n.repPeers then
      n.(repPeers := n.repPeers[peer := n.repPeers[peer].(tok := tok, addr := addr)])
    else
      n.(repPeers := n.repPeers[peer :=
        RepPeer(AcceptedTerm(n), AcceptedTxid(n), AcceptedTxid(n), tok, addr)])
  }

  function Counted(have: seq<NodeId>, tok: NodeId): seq<NodeId> {
    if tok in have then have else have + [tok]
  }

  /** The role after a counted vote: a candidate ascends without extending its lease, and a
      leader renews its lease from the moment the last vote of a quorum comes in. */
  function RoleAfterVote(r: Role, now: Time, tok: NodeId): Role
    requires r.Candidate? || r.Leader?
  {
    var have := Counted(r.have, tok);
    if r.Candidate? then
      if |have| >= r.need then Leader(r.term, [], r.need, r.until)
      else Candidate(r.term, have, r.need, r.until)
    else
      if |have| >= r.need then Leader(r.term, [], r.need, now + LEADER_DURATION)
      else Leader(r.term, have, r.need, r.until)
  }

  function HandleVoteRes(n: Node, now: Time, tok: NodeId, peer: NodeId, addr: NodeId, res: Msg): (e: Effect)
    requires res.VoteRes?
    ensures e.node == n.(role := e.node.role, highestTerm := e.node.highestTerm, repPeers := e.node.repPeers)
    ensures e.sends == {} && e.replies == []
  {
    if n.role.TermOf() != Some(res.term) then Quiet(n)
    else if n.role.ValidCandidate(now) && !res.success then
      Quiet(n.(role := Init, repPeers := map[],
               highestTerm := if res.term > n.highestTerm then res.term else n.highestTerm))
    else if n.role.ValidCandidate(now) || (n.role.Leader? && n.role.ValidLeader(now) && res.success) then
      var n1 := if tok in n.role.have then n else WithRepPeer(n, peer, addr, tok);
      Quiet(n1.(role := RoleAfterVote(n.role, now, tok)))
    else Quiet(n)
  }

  /** Condition 1 of `should_grant_vote`: the candidate learned something in a later term. */
  predicate GrantCase1(n: Node, req: Msg)
    requires req.VoteReq?
  {
    req.learnedTerm > LearnedTerm(n)
  }

  /** Condition 2: same last learned term, and the candidate accepted at least as much. */
  predicate GrantCase2(n: Node, req: Msg)
    requires req.VoteReq?
  {
    req.learnedTerm == LearnedTerm(n) && req.acceptedTxid >= AcceptedTxid(n)
  }

  predicate ShouldGrantVote(n: Node, now: Time, req: Msg)
    requires req.VoteReq?
  {
    && !n.role.ValidLeader(now)
    && req.term >= LearnedTerm(n)
    && (GrantCase1(n, req) || GrantCase2(n, req))
  }

  /** The node after a vote request; `None` when the request is refused. */
  function Granted(n: Node, now: Time, tok: NodeId, peer: NodeId, addr: NodeId, req: Msg): Option<Node>
    requires req.VoteReq?
  {
    if peer == n.id then Some(n)
    else if n.role.ValidLeader(now) && !n.role.Following(peer) then None
    else if n.role.Following(peer) then
      Some(n.(role := n.role.(until := now + LEADER_DURATION)))
    else if ShouldGrantVote(n, now, req) then
      Some(n.(highestTerm := req.term,
              role := Follower(req.term, peer, tok, addr, now + LEADER_DURATION)))
    else None
  }

  function HandleVoteReq(n: Node, now: Time, tok: NodeId, peer: NodeId, addr: NodeId, req: Msg): (e: Effect)
    requires req.VoteReq?
    ensures e.node == n.(role := e.node.role, highestTerm := e.node.highestTerm) && e.replies == []
  {
    match Granted(n, now, tok, peer, addr, req)
    case Some(n1) => Effect(n1, {ToPeer(tok, VoteRes(true, req.term))}, [])
    case None =>
      var term := if n.role.Init? then req.term else n.role.term;
      Effect(n, {ToPeer(tok, VoteRes(false, term))}, [])
  }

  // ----- learning ------------------------------------------------------------------------

  /** Executes the entry stored under `txid` and answers the client waiting for it. */
  function Learn(n: Node, txid: TXID): (r: (Node, seq<Reply>))
    ensures r.0 == n.(db := r.0.db, waiting := r.0.waiting)
  {
    match Find(n.log, txid)
    case None => (n, [])
    case Some(m) =>
      var o := Execute(n.db, m);
      var n1 := n.(db := o.db, waiting := n.waiting - {txid});
      if txid in n.waiting then
        (n1, [Reply(n.waiting[txid], Response(o, m.kind, LearnedTxid(n)), Some(txid))])
      else (n1, [])
  }

  function LearnAll(n: Node, vs: seq<Version>): (r: (Node, seq<Reply>))
    ensures r.0 == n.(db := r.0.db, waiting := r.0.waiting)
    decreases vs
  {
    if vs == [] then (n, [])
    else
      var first := Learn(n, vs[0].txid);
      var rest := LearnAll(first.0, vs[1..]);
      (rest.0, first.1 + rest.1)
  }

  // ----- replication: follower -----------------------------------------------------------

  datatype Intake = Took(log: Log<Mutation>) | Panicked(log: Log<Mutation>)

  /** Takes a batch in order, skipping what is already held; a decreasing term panics. */
  function TakeBatch(log: Log<Mutation>, batch: seq<Mutation>): (r: Intake)
    ensures r.log.committed == log.committed
    decreases batch
  {
    if batch == [] then Took(log)
    else
      var v := batch[0].version;
      if v.term < LastTerm(Entries(log)) then Panicked(log)
      else if v.txid <= LastTxid(Entries(log)) then TakeBatch(log, batch[1..])
      else TakeBatch(Appended(log, v.term, v.txid, batch[0]), batch[1..])
  }

  predicate Links(n: Node, a: Msg)
    requires a.Append?
  {
    a.fromTerm == AcceptedTerm(n) && a.fromTxid == AcceptedTxid(n)
  }

  /** Takes a linking Append, commits and learns what the leader has learned, and answers. */
  function TakeAppend(n: Node, tok: NodeId, a: Msg): (e: Effect)
    requires a.Append?
    ensures e.node == n.(log := e.node.log, db := e.node.db, waiting := e.node.waiting,
                         maxGenerated := e.node.maxGenerated, halted := e.node.halted)
    ensures forall x :: x in e.sends ==> x.ToPeer? && x.dst == tok && x.msg.AppendRes?
  {
    match TakeBatch(n.log, a.batch)
    case Panicked(log) => Quiet(n.(log := log, halted := true))
    case Took(log) =>
      var txid := LastTxid(Entries(log));
      var term := LastTerm(Entries(log));
      var c := CommitUpTo(log, a.lastLearned);
      var l := LearnAll(n.(log := c.0, maxGenerated := txid), c.1);
      Effect(l.0, {ToPeer(tok, AppendRes(true, txid, term))}, l.1)
  }

  function HandleAppend(n: Node, tok: NodeId, peer: NodeId, a: Msg): (e: Effect)
    requires a.Append?
    ensures e.node == n.(log := e.node.log, db := e.node.db, waiting := e.node.waiting,
                         maxGenerated := e.node.maxGenerated, halted := e.node.halted)
    ensures forall x :: x in e.sends ==> x.ToPeer? && x.dst == tok && x.msg.AppendRes?
  {
    if n.role.Leader? then Quiet(n)
    else if !n.role.Following(peer) then Effect(n, {ToPeer(tok, AppendRes(false, 0, 0))}, [])
    else if !Links(n, a) then
      Effect(n, {ToPeer(tok, AppendRes(false, AcceptedTxid(n), AcceptedTerm(n)))}, [])
    else TakeAppend(n, tok, a)
  }

  // ----- replication: leader -------------------------------------------------------------

  function HandleAppendRes(n: Node, peer: NodeId, res: Msg): (e: Effect)
    requires res.AppendRes?
    ensures e.node == n.(log := e.node.log, db := e.node.db, waiting := e.node.waiting,
                         repPeers := e.node.repPeers)
    ensures e.sends == {}
  {
    if !n.role.Leader? || peer !in n.repPeers then Quiet(n)
    else
      var p := n.repPeers[peer];
      var p1 := p.(acceptedTerm := res.acceptedTerm, acceptedTxid := res.acceptedTxid,
                   maxSent := if res.accepted then p.maxSent else res.acceptedTxid);
      var a := AckUpTo(n.log, res.acceptedTxid, peer);
      var l := LearnAll(n.(repPeers := n.repPeers[peer := p1], log := a.0), a.1);
      Effect(l.0, {}, l.1)
  }

  /** What is found under the ids from `lo` up to, not including, `hi`. */
  function Collected(l: Log<Mutation>, lo: TXID, hi: TXID): seq<Mutation>
    decreases hi
  {
    if hi <= lo then []
    else
      var m := Find(l, hi - 1);
      Collected(l, lo, hi - 1) + if m.Some? then [m.value] else []
  }

  /** The batch for a peer that was last sent `maxSent`: at most 99 entries. */
  function NextBatch(l: Log<Mutation>, maxSent: TXID): seq<Mutation> {
    Collected(l, maxSent + 1, maxSent + 100)
  }

  function SentUpTo(maxSent: TXID, batch: seq<Mutation>): TXID {
    if batch == [] then maxSent else batch[|batch| - 1].version.txid
  }

  function AppendFor(n: Node, p: RepPeer): Msg {
    Append(p.acceptedTxid, p.acceptedTerm, NextBatch(n.log, p.maxSent), LearnedTxid(n))
  }

  function Advanced(n: Node, p: RepPeer): RepPeer {
    p.(maxSent := SentUpTo(p.maxSent, NextBatch(n.log, p.maxSent)))
  }

  /** The Appends to the peers `ps`. */
  function AppendsTo(n: Node, ps: set<NodeId>): set<Send>
    requires ps <= n.repPeers.Keys
  {
    set p | p in ps :: ToPeer(n.repPeers[p].tok, AppendFor(n, n.repPeers[p]))
  }

  /** Sends every replication peer its next batch. */
  function SendAll(n: Node): (Node, set<Send>) {
    (n.(repPeers := map p | p in n.repPeers :: Advanced(n, n.repPeers[p])), AppendsTo(n, n.repPeers.Keys))
  }

  /** Appends the leader's own write and acknowledges it on the leader's behalf; the
      assertion in `append` halts the server when the id is not above the last accepted. */
  function AppendOwn(n: Node, m: Mutation): (r: (Node, seq<Reply>))
    ensures r.0 == n.(log := r.0.log, db := r.0.db, waiting := r.0.waiting, halted := r.0.halted)
  {
    if m.version.txid <= AcceptedTxid(n) then (n.(halted := true), [])
    else
      var a := AckUpTo(Appended(n.log, m.version.term, m.version.txid, m), m.version.txid, n.id);
      LearnAll(n.(log := a.0), a.1)
  }

  function Replicate(n: Node, m: Mutation): (e: Effect)
    ensures e.node == n.(log := e.node.log, db := e.node.db, waiting := e.node.waiting,
                         halted := e.node.halted, repPeers := e.node.repPeers)
    ensures forall x :: x in e.sends ==> x.ToPeer? && x.msg.Append?
  {
    var a := AppendOwn(n, m);
    if a.0.halted then Effect(a.0, {}, a.1)
    else
      var s := SendAll(a.0);
      Effect(s.0, s.1, a.1)
  }

  /** Appends a list of writes one after the other, unless one of them halts the server. */
  function AppendEach(n: Node, ms: seq<Mutation>): (Node, seq<Reply>)
    decreases ms
  {
    if ms == [] then (n, [])
    else
      var a := AppendOwn(n, ms[0]);
      if a.0.halted then a
      else
        var rest := AppendEach(a.0, ms[1..]);
        (rest.0, a.1 + rest.1)
  }

  /** `replicate`, which takes a list; its callers give it one write. */
  function ReplicateAll(n: Node, ms: seq<Mutation>): Effect {
    var a := AppendEach(n, ms);
    if ms == [] || a.0.halted then Effect(a.0, {}, a.1)
    else
      var s := SendAll(a.0);
      Effect(s.0, s.1, a.1)
  }

  lemma ReplicatesOne(n: Node, m: Mutation)
    ensures ReplicateAll(n, [m]) == Replicate(n, m)
  {
    var a := AppendOwn(n, m);
    assert AppendEach(a.0, [m][1..]) == (a.0, []) && a.1 + [] == a.1;
  }

  predicate IsWrite(req: CliReq) {
    req.SetReq? || req.CasReq? || req.DelReq?
  }

  /** The mutation a write request becomes; a compare-and-set always carries an expected
      value, the empty one when the request has none. */
  function MutationOf(req: CliReq, v: Version): (m: Mutation)
    requires IsWrite(req)
    ensures m.version == v
  {
    match req
    case SetReq(key, value) => Mutation(KVSET, v, key, value, None)
    case CasReq(key, newValue, oldValue) =>
      Mutation(KVCAS, v, key, OrEmpty(newValue), Some(OrEmpty(oldValue)))
    case DelReq(key) => Mutation(KVDEL, v, key, [], None)
  }

  function OrEmpty(v: Option<Bytes>): Bytes {
    match v case None => [] case Some(b) => b
  }

  /** The leader with the next id issued to `who`. */
  function TakenBy(n: Node, who: Requester): Node {
    n.(maxGenerated := n.maxGenerated + 1, waiting := n.waiting[n.maxGenerated + 1 := who])
  }

  /** What is answered at once: a redirect unless leading, a read, or nothing. */
  function AnswerNow(n: Node, req: CliReq): CliRes {
    if n.role.Follower? then RedirectRes(true, Some(n.role.leaderAddr))
    else if !n.role.Leader? then RedirectRes(false, None)
    else if req.GetReq? then
      var v := Lookup(n.db, req.key);
      GetRes(v.Some?, v, LearnedTxid(n))
    else EmptyRes
  }

  /** The mutation a leader makes of a write request, under the next id. */
  function NextWrite(n: Node, req: CliReq): Mutation
    requires n.role.Leader? && IsWrite(req)
  {
    MutationOf(req, Version(n.maxGenerated + 1, n.role.term))
  }

  function HandleCli(n: Node, who: Requester, req: CliReq): (e: Effect)
    ensures e.node.id == n.id && e.node.peers == n.peers && e.node.role == n.role && e.node.highestTerm == n.highestTerm
    ensures forall x :: x in e.sends ==> x.ToPeer? && x.msg.Append?
  {
    if n.role.Leader? && IsWrite(req) then Replicate(TakenBy(n, who), NextWrite(n, req))
    else Effect(n, {}, [Reply(who, AnswerNow(n, req), None)])
  }

  lemma LeaderWrites(n: Node, who: Requester, req: CliReq)
    requires n.role.Leader? && IsWrite(req)
    ensures HandleCli(n, who, req) == Replicate(TakenBy(n, who), NextWrite(n, req))
  {
  }

  lemma LeaderReplicates(n: Node, who: Requester, req: CliReq, m: Mutation)
    requires n.role.Leader? && IsWrite(req) && m == NextWrite(n, req)
    ensures HandleCli(n, who, req) == ReplicateAll(TakenBy(n, who), [m])
  {
    LeaderWrites(n, who, req);
    ReplicatesOne(TakenBy(n, who), m);
  }

  /** Dispatch of a peer message by kind. */
  function HandlePeer(n: Node, now: Time, from: NodeId, msg: Msg): Effect {
    match msg
    case VoteReq(_, _, _, _, _) => HandleVoteReq(n, now, from, from, from, msg)
    case VoteRes(_, _) => HandleVoteRes(n, now, from, from, from, msg)
    case Append(_, _, _, _) => HandleAppend(n, from, from, msg)
    case AppendRes(_, _, _) => HandleAppendRes(n, from, msg)
  }
}
