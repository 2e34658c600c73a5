/** Four writes of term 1, and what a leader with one replication peer, and that peer, do with
    them.  The runs of `Refutations` are put together from these steps. */
module SmallLogs {
  import opened Types
  import opened LogSpec
  import opened KeyValue
  import opened Harpoon
  import opened Replication

  /** Write 2 has a key of its own. */
  function Key(txid: TXID): Bytes {
    if txid == 2 then [2] else []
  }

  function Put(txid: TXID): Mutation {
    Mutation(KVSET, Version(txid, 1), Key(txid), [], None)
  }

  function Entry(txid: TXID): Rec<Mutation> {
    Rec(1, txid, Put(txid))
  }

  /** The client, and its request for write `txid`. */
  const ASKS: Requester := Requester(7, 7)

  function Write(txid: TXID): CliReq {
    SetReq(Key(txid), [])
  }

  function TermAt(txid: TXID): Term {
    if txid == 0 then 0 else 1
  }

  // ----- logs ----------------------------------------------------------------------------------

  const E1: seq<Rec<Mutation>> := [Entry(1)]
  const E2: seq<Rec<Mutation>> := [Entry(1), Entry(2)]
  const E3: seq<Rec<Mutation>> := [Entry(1), Entry(2), Entry(3)]
  const M1: map<TXID, Rec<Mutation>> := map[1 := Entry(1)]
  const M2: map<TXID, Rec<Mutation>> := map[1 := Entry(1), 2 := Entry(2)]
  const M3: map<TXID, Rec<Mutation>> := map[1 := Entry(1), 2 := Entry(2), 3 := Entry(3)]

  const NONE: Log<Mutation> := Log([], map[], [], 2, FirstPending, ByArgument)

  /** The leader's log: as it takes writes 1 and 2, hears of 1, takes 3, hears of 3 twice, takes 4. */
  const ONE: Log<Mutation> := NONE.(pending := [Acked([0], Entry(1))])
  const TWO: Log<Mutation> := NONE.(pending := [Acked([0], Entry(1)), Acked([], Entry(2))])
  const HEARD1: Log<Mutation> := NONE.(committed := E1, stored := M1, pending := [Acked([], Entry(2))])
  const THREE: Log<Mutation> :=
    NONE.(committed := E1, stored := M1, pending := [Acked([0], Entry(2)), Acked([], Entry(3))])
  const HEARD2: Log<Mutation> := NONE.(committed := E2, stored := M2, pending := [Acked([], Entry(3))])
  const HEARD3: Log<Mutation> := NONE.(committed := E2, stored := M2, pending := [Acked([1], Entry(3))])
  const FOUR: Log<Mutation> := NONE.(committed := E3, stored := M3, pending := [Acked([], Entry(4))])

  /** What becomes of write 1 when the refusal of its Append is heard. */
  const LEARNED: Log<Mutation> := NONE.(committed := E1, stored := M1)

  /** The follower's log: with the first write, with two more before and after it commits the
      first, with the fourth before and after it commits the second and third. */
  const HAS1: Log<Mutation> := NONE.(pending := [Acked([], Entry(1))])
  const GOT3: Log<Mutation> := NONE.(pending := [Acked([], Entry(1)), Acked([], Entry(2)), Acked([], Entry(3))])
  const HAS3: Log<Mutation> :=
    NONE.(committed := E1, stored := M1, pending := [Acked([], Entry(2)), Acked([], Entry(3))])
  const GOT4: Log<Mutation> :=
    NONE.(committed := E1, stored := M1, pending := [Acked([], Entry(2)), Acked([], Entry(3)), Acked([], Entry(4))])
  const HAS4: Log<Mutation> :=
    NONE.(committed := E3, stored := M1[3 := Entry(3)], pending := [Acked([], Entry(4))])

  lemma NoEntries()
    ensures Entries(NONE) == []
  {
  }

  lemma LeaderEntries()
    ensures Entries(NONE) == [] && Entries(ONE) == E1 && Entries(TWO) == E2
    ensures Entries(HEARD1) == E2 && Entries(THREE) == E3
    ensures Entries(HEARD2) == E3 && Entries(HEARD3) == E3 && Entries(FOUR) == E3 + [Entry(4)]
  {
  }

  lemma FollowerEntries()
    ensures Entries(GAP) == [Entry(2)]
    ensures Entries(HAS1) == E1 && Entries(GOT3) == E3 && Entries(HAS3) == E3 && Entries(GOT4) == E3 + [Entry(4)]
  {
  }

  lemma KnownMaps()
    ensures Filed(map[], E1) == M1 && Filed(map[], E2) == M2 && Filed(map[], E3) == M3
  {
    assert E1[..0] == [] && E2[..1] == E1 && E3[..2] == E2;
  }

  lemma KnownReplays()
    ensures Replay([]) == map[] && Replay(E1) == map[[] := []]
    ensures Replay(E2) == map[[] := [], [2] := []] && Replay(E3) == map[[] := [], [2] := []]
  {
    assert E1[..0] == [] && E2[..1] == E1 && E3[..2] == E2;
  }

  /** The log finds each of its entries. */
  lemma FoundIn(l: Log<Mutation>, txid: TXID)
    requires Sound(Entries(l)) && Faithful(l) && 1 <= txid <= |Entries(l)|
    ensures Find(l, txid) == Some(Entries(l)[txid - 1].entry)
  {
    FaithfulFinds(l, txid);
    GetContiguous(Entries(l), txid);
  }

  // ----- acks ----------------------------------------------------------------------------------

  /** An ack that commits nothing. */
  lemma AckOnly(l: Log<Mutation>, txid: TXID, peer: NodeId, l': Log<Mutation>)
    requires l' == l.(pending := Acknowledged(l, txid, peer)) && Ready(l'.pending, l.quorum) == 0
    ensures AckUpTo(l, txid, peer) == (l', [])
  {
    assert l'.pending[..0] == [] && l'.pending[0..] == l'.pending && l.committed + Recs([]) == l.committed;
  }

  /** An ack that commits the oldest pending entry, `r`. */
  lemma AckOne(l: Log<Mutation>, txid: TXID, peer: NodeId, p: seq<Acked<Mutation>>, r: Rec<Mutation>)
    requires p == Acknowledged(l, txid, peer) && Ready(p, l.quorum) == 1 && p[0].rec == r
    ensures AckUpTo(l, txid, peer) ==
      (l.(committed := l.committed + [r], stored := l.stored[r.txid := r], pending := p[1..]), [Version(r.txid, r.term)])
  {
    assert p[..1] == [p[0]] && Recs(p[..1]) == [r];
    FiledOne(l.stored, r);
  }

  lemma FiledOne(m: map<TXID, Rec<Mutation>>, r: Rec<Mutation>)
    ensures Filed(m, [r]) == m[r.txid := r] && Versions([r]) == [Version(r.txid, r.term)]
  {
    assert [r][..0] == [];
    assert |Versions([r])| == 1 && Versions([r])[0] == Version(r.txid, r.term);
  }

  /** The leader's own acks: under the loop as written they go to the first pending write. */
  lemma OwnAcks()
    ensures AckUpTo(Appended(NONE, 1, 1, Put(1)), 1, 0) == (ONE, [])
    ensures AckUpTo(Appended(ONE, 1, 2, Put(2)), 2, 0) == (TWO, [])
    ensures AckUpTo(Appended(HEARD1, 1, 3, Put(3)), 3, 0) == (THREE, [])
  {
    assert AddAck(Acked([], Entry(1)), 0) == Acked([0], Entry(1));
    assert Acknowledged(Appended(NONE, 1, 1, Put(1)), 1, 0) == ONE.pending;
    AckOnly(Appended(NONE, 1, 1, Put(1)), 1, 0, ONE);
    assert AddAck(Acked([0], Entry(1)), 0) == Acked([0], Entry(1));
    assert Acknowledged(Appended(ONE, 1, 2, Put(2)), 2, 0) == TWO.pending;
    AckOnly(Appended(ONE, 1, 2, Put(2)), 2, 0, TWO);
    assert AddAck(Acked([], Entry(2)), 0) == Acked([0], Entry(2));
    assert Acknowledged(Appended(HEARD1, 1, 3, Put(3)), 3, 0) == THREE.pending;
    AckOnly(Appended(HEARD1, 1, 3, Put(3)), 3, 0, THREE);
  }

  lemma OwnAckCommits()
    ensures AckUpTo(Appended(HEARD3, 1, 4, Put(4)), 4, 0) == (FOUR, [Version(3, 1)])
  {
    var p := [Acked([1, 0], Entry(3)), Acked([], Entry(4))];
    assert AddAck(HEARD3.pending[0], 0) == p[0];
    assert Acknowledged(Appended(HEARD3, 1, 4, Put(4)), 4, 0) == p;
    assert Ready(p[1..], 2) == 0;
    AckOne(Appended(HEARD3, 1, 4, Put(4)), 4, 0, p, Entry(3));
    assert E2 + [Entry(3)] == E3 && M2[3 := Entry(3)] == M3 && p[1..] == FOUR.pending;
  }

  lemma RefusalCounts()
    ensures AckUpTo(ONE, 0, 1) == (LEARNED, [Version(1, 1)])
  {
    var p := [Acked([0, 1], Entry(1))];
    assert AddAck(ONE.pending[0], 1) == p[0];
    assert Acknowledged(ONE, 0, 1) == p && Ready(p[1..], 2) == 0;
    AckOne(ONE, 0, 1, p, Entry(1));
    assert [] + [Entry(1)] == E1 && map[][1 := Entry(1)] == M1 && p[1..] == [];
  }

  lemma FirstHeard()
    ensures AckUpTo(TWO, 1, 1) == (HEARD1, [Version(1, 1)])
  {
    var p := [Acked([0, 1], Entry(1)), Acked([], Entry(2))];
    assert AddAck(TWO.pending[0], 1) == p[0];
    assert Acknowledged(TWO, 1, 1) == p && Ready(p[1..], 2) == 0;
    AckOne(TWO, 1, 1, p, Entry(1));
    assert [] + [Entry(1)] == E1 && map[][1 := Entry(1)] == M1 && p[1..] == HEARD1.pending;
  }

  lemma SecondHeard()
    ensures AckUpTo(THREE, 3, 1) == (HEARD2, [Version(2, 1)])
  {
    var p := [Acked([0, 1], Entry(2)), Acked([], Entry(3))];
    assert AddAck(THREE.pending[0], 1) == p[0];
    assert Acknowledged(THREE, 3, 1) == p && Ready(p[1..], 2) == 0;
    AckOne(THREE, 3, 1, p, Entry(2));
    assert E1 + [Entry(2)] == E2 && M1[2 := Entry(2)] == M2 && p[1..] == HEARD2.pending;
  }

  lemma ThirdHeard()
    ensures AckUpTo(HEARD2, 3, 1) == (HEARD3, [])
  {
    assert AddAck(HEARD2.pending[0], 1) == Acked([1], Entry(3));
    assert Acknowledged(HEARD2, 3, 1) == HEARD3.pending;
    AckOnly(HEARD2, 3, 1, HEARD3);
  }

  // ----- learning ------------------------------------------------------------------------------

  /** `vs` says that nothing is to be learned, or one write that the log finds. */
  predicate Brings(l: Log<Mutation>, vs: seq<Version>, db: Database, db': Database) {
    || (vs == [] && db' == db)
    || (|vs| == 1 && vs[0].term == 1 && Find(l, vs[0].txid) == Some(Put(vs[0].txid)) && db' == db[Key(vs[0].txid) := []])
  }

  lemma LearnBrought(n: Node, vs: seq<Version>, db': Database)
    requires Brings(n.log, vs, n.db, db')
    ensures var l := LearnAll(n, vs);
      && l.0 == n.(db := db', waiting := l.0.waiting)
      && (vs == [] || n.waiting == map[] ==> l.0.waiting == n.waiting && l.1 == [])
      && (vs != [] && vs[0].txid in n.waiting ==>
            l.1 == [Reply(n.waiting[vs[0].txid], SetRes(true), Some(vs[0].txid))])
  {
    if vs != [] {
      var first := Learn(n, vs[0].txid);
      assert vs[1..] == [] && LearnAll(first.0, []) == (first.0, []);
      assert first.1 + [] == first.1;
      assert n.waiting == map[] ==> n.waiting - {vs[0].txid} == map[];
    }
  }

  // ----- the leader ----------------------------------------------------------------------------

  function Peer(at: TXID, sent: TXID): RepPeer {
    RepPeer(TermAt(at), at, sent, 1, 1)
  }

  /** Node 0 leads term 1, has the log `l` and the database `db`, has numbered `max` writes, and
      replicates to node 1 alone, which it takes to be at `at` and has sent everything up to `sent`. */
  ghost predicate LeadsWith(n: Node, l: Log<Mutation>, db: Database, max: TXID, at: TXID, sent: TXID) {
    && n.id == 0 && n.role.Leader? && n.role.term == 1 && !n.halted
    && n.log == l && n.db == db && n.maxGenerated == max && n.repPeers == map[1 := Peer(at, sent)]
  }

  /** A leader with one replication peer sends one Append. */
  lemma OnePeer(n: Node, q: NodeId, p: RepPeer)
    requires n.repPeers == map[q := p]
    ensures SendAll(n) == (n.(repPeers := map[q := Advanced(n, p)]), {ToPeer(p.tok, AppendFor(n, p))})
  {
    assert n.repPeers.Keys == {q};
    assert SendAll(n).0.repPeers == map[q := Advanced(n, p)];
    var x := ToPeer(p.tok, AppendFor(n, p));
    assert n.repPeers[q] == p && x in AppendsTo(n, n.repPeers.Keys);
    assert AppendsTo(n, n.repPeers.Keys) == {x};
  }

  /** What a log finds after `sent`, up to its end. */
  lemma RestOf(l: Log<Mutation>, sent: TXID, b: seq<Mutation>)
    requires Sound(Entries(l)) && Faithful(l) && sent < |Entries(l)| == sent + |b| && |b| <= 99
    requires forall i :: 0 <= i < |b| ==> b[i] == Entries(l)[sent + i].entry
    ensures NextBatch(l, sent) == b
  {
    CollectedIsSlice(l, sent + 1, sent + 100);
  }

  /** The leader's state once it has appended, acknowledged and perhaps learned. */
  lemma OwnWrite(n: Node, t: TXID, l: Log<Mutation>, vs: seq<Version>, db: Database)
    requires n.id == 0 && !n.halted && AcceptedTxid(n) < t
    requires AckUpTo(Appended(n.log, 1, t, Put(t)), t, 0) == (l, vs) && Brings(l, vs, n.db, db)
    ensures var r := AppendOwn(n, Put(t));
      r.0 == n.(log := l, db := db, waiting := r.0.waiting) && (vs == [] ==> r.0.waiting == n.waiting)
  {
    LearnBrought(n.(log := l), vs, db);
  }

  lemma NextIsPut(n: Node, t: TXID)
    requires n.role.Leader? && n.role.term == 1 && n.maxGenerated + 1 == t
    ensures NextWrite(n, Write(t)) == Put(t)
  {
  }

  /** The leader takes write `t`, which turns its log into `l'`, and sends the batch `b`. */
  lemma TakesWrite(n: Node, l: Log<Mutation>, db: Database, t: TXID, at: TXID, sent: TXID,
                   l': Log<Mutation>, vs: seq<Version>, db': Database, b: seq<Mutation>)
    requires t > 0 && LeadsWith(n, l, db, t - 1, at, sent) && LastTxid(Entries(l)) < t
    requires AckUpTo(Appended(l, 1, t, Put(t)), t, 0) == (l', vs) && Brings(l', vs, db, db')
    requires NextBatch(l', sent) == b && SentUpTo(sent, b) == t
    ensures var e := HandleCli(n, ASKS, Write(t));
      && e.node.role == n.role && LeadsWith(e.node, l', db', t, at, t)
      && ToPeer(1, Append(at, TermAt(at), b, LastTxid(l'.committed))) in e.sends
      && (vs == [] ==> e.node.waiting == n.waiting[t := ASKS])
  {
    var n1 := TakenBy(n, ASKS);
    OwnWrite(n1, t, l', vs, db');
    OnePeer(AppendOwn(n1, Put(t)).0, 1, Peer(at, sent));
    NextIsPut(n, t);
    LeaderWrites(n, ASKS, Write(t));
  }

  /** The leader hears from node 1, which turns its log into `l'`. */
  lemma HearsAnswer(n: Node, l: Log<Mutation>, db: Database, max: TXID, at: TXID, sent: TXID, res: Msg,
                    l': Log<Mutation>, vs: seq<Version>, db': Database)
    requires LeadsWith(n, l, db, max, at, sent) && res.AppendRes? && res.acceptedTerm == TermAt(res.acceptedTxid)
    requires AckUpTo(l, res.acceptedTxid, 1) == (l', vs) && Brings(l', vs, db, db')
    ensures var e := HandleAppendRes(n, 1, res);
      && e.node.role == n.role
      && LeadsWith(e.node, l', db', max, res.acceptedTxid, if res.accepted then sent else res.acceptedTxid)
      && (vs != [] && vs[0].txid in n.waiting ==>
            e.replies == [Reply(n.waiting[vs[0].txid], SetRes(true), Some(vs[0].txid))])
  {
    var p := Peer(res.acceptedTxid, if res.accepted then sent else res.acceptedTxid);
    assert n.repPeers[1 := p] == map[1 := p];
    LearnBrought(n.(repPeers := map[1 := p], log := l'), vs, db');
  }

  // ----- the follower --------------------------------------------------------------------------

  /** Node 1 follows node 0, with the log `l` and the database `db`. */
  ghost predicate FollowsWith(n: Node, l: Log<Mutation>, db: Database) {
    n.id == 1 && !n.halted && n.role.Following(0) && n.waiting == map[] && n.log == l && n.db == db
  }

  /** Node 1 takes an Append that turns its log into `l1`, and by committing into `l2`; what it
      then learns turns its database into `db'`. */
  lemma TakesAppend(n: Node, l: Log<Mutation>, db: Database, a: Msg,
                    l1: Log<Mutation>, l2: Log<Mutation>, vs: seq<Version>, db': Database)
    requires FollowsWith(n, l, db) && a.Append?
    requires a.fromTxid == LastTxid(Entries(l)) && a.fromTerm == LastTerm(Entries(l))
    requires TakeBatch(l, a.batch) == Took(l1) && CommitUpTo(l1, a.lastLearned) == (l2, vs)
    requires var n1 := n.(log := l2, maxGenerated := LastTxid(Entries(l1))); LearnAll(n1, vs) == (n1.(db := db'), [])
    ensures var e := HandleAppend(n, 0, 0, a);
      && e.node.role == n.role && FollowsWith(e.node, l2, db')
      && ToPeer(0, AppendRes(true, LastTxid(Entries(l1)), LastTerm(Entries(l1)))) in e.sends
  {
    assert HandleAppend(n, 0, 0, a) == TakeAppend(n, 0, a);
  }

  /** Node 1 refuses an Append that does not link, and says where it is. */
  lemma RefusesAppend(n: Node, l: Log<Mutation>, db: Database, a: Msg)
    requires FollowsWith(n, l, db) && a.Append? && a.fromTxid != LastTxid(Entries(l))
    ensures HandleAppend(n, 0, 0, a) ==
      Effect(n, {ToPeer(0, AppendRes(false, LastTxid(Entries(l)), LastTerm(Entries(l))))}, [])
  {
  }

  lemma CommitNone(l: Log<Mutation>, txid: TXID)
    requires Due(l.pending, txid) == 0
    ensures CommitUpTo(l, txid) == (l, [])
  {
    assert l.pending[..0] == [] && l.pending[0..] == l.pending && l.committed + Recs([]) == l.committed;
  }

  /** Committing `es` by argument stores the last of them under the argument. */
  lemma CommitThese(l: Log<Mutation>, txid: TXID, es: seq<Rec<Mutation>>)
    requires es != [] && Due(l.pending, txid) == |es| && Recs(l.pending[..|es|]) == es && l.keying.ByArgument?
    ensures CommitUpTo(l, txid) == (l.(committed := l.committed + es, stored := l.stored[txid := es[|es| - 1]],
                                       pending := l.pending[|es|..]), Versions(es))
  {
  }

  /** Write 2 alone, taken by a node that has nothing. */
  const GAP: Log<Mutation> := NONE.(pending := [Acked([], Entry(2))])

  lemma TakesFirst()
    ensures TakeBatch(NONE, [Put(1)]) == Took(HAS1) && CommitUpTo(HAS1, 0) == (HAS1, [])
  {
    assert [Put(1)][1..] == [] && Appended(NONE, 1, 1, Put(1)) == HAS1;
    CommitNone(HAS1, 0);
  }

  lemma TakesTwoMore()
    ensures TakeBatch(HAS1, [Put(2), Put(3)]) == Took(GOT3)
  {
    var b := [Put(2), Put(3)];
    assert b[1..] == [Put(3)] && [Put(3)][1..] == [];
    var l := Appended(HAS1, 1, 2, Put(2));
    assert Entries(HAS1) == E1 && Entries(l) == E2;
    assert Appended(l, 1, 3, Put(3)) == GOT3;
    assert TakeBatch(l, [Put(3)]) == Took(GOT3);
  }

  lemma CommitsFirst()
    ensures CommitUpTo(GOT3, 1) == (HAS3, [Version(1, 1)])
  {
    var p := GOT3.pending;
    assert Due(p[1..], 1) == 0 && p[..1] == [Acked([], Entry(1))] && Recs(p[..1]) == E1;
    CommitThese(GOT3, 1, E1);
    assert [] + E1 == E1 && map[][1 := Entry(1)] == M1 && p[1..] == HAS3.pending && Versions(E1) == [Version(1, 1)];
  }

  lemma TakesFourth()
    ensures TakeBatch(HAS3, [Put(4)]) == Took(GOT4)
  {
    assert [Put(4)][1..] == [] && Entries(HAS3) == E3;
    assert Appended(HAS3, 1, 4, Put(4)) == GOT4;
  }

  lemma CommitsTwo()
    ensures CommitUpTo(GOT4, 3) == (HAS4, [Version(2, 1), Version(3, 1)])
  {
    var p, es := GOT4.pending, [Entry(2), Entry(3)];
    assert Due(p[1..][1..], 3) == 0 && Due(p[1..], 3) == 1 && Due(p, 3) == 2;
    assert p[..2] == [Acked([], Entry(2)), Acked([], Entry(3))] && Recs(p[..2]) == es;
    CommitThese(GOT4, 3, es);
    assert E1 + es == E3 && p[2..] == HAS4.pending && Versions(es) == [Version(2, 1), Version(3, 1)];
  }

  /** The second write is nowhere to be found, so it is not done; the third is. */
  lemma LearnsThirdOnly(n: Node)
    requires n.log == HAS4 && n.db == map[[] := []] && n.waiting == map[]
    ensures LearnAll(n, [Version(2, 1), Version(3, 1)]) == (n, [])
  {
    assert Recs(HAS4.pending) == [Entry(4)];
    assert Get([Entry(4)][..0], 2) == None && Get([Entry(4)][..0], 3) == None;
    assert Find(n.log, 2) == None && Find(n.log, 3) == Some(Put(3));
    assert Learn(n, 2) == (n, []);
    assert n.db[[] := []] == n.db;
    LearnBrought(n, [Version(3, 1)], n.db);
    assert [Version(2, 1), Version(3, 1)][1..] == [Version(3, 1)];
  }

  // ----- what is sent and learned --------------------------------------------------------------

  lemma LeaderSound()
    ensures Sound(E1) && Sound(E2) && Sound(E3) && Sound(E3 + [Entry(4)])
    ensures Faithful(ONE) && Faithful(TWO) && Faithful(HEARD1) && Faithful(THREE) && Faithful(HEARD2) && Faithful(FOUR)
    ensures Faithful(LEARNED) && Faithful(HAS3)
  {
    KnownMaps();
  }

  lemma SentBatches()
    ensures NextBatch(ONE, 0) == [Put(1)] && NextBatch(TWO, 1) == [Put(2)]
    ensures NextBatch(THREE, 1) == [Put(2), Put(3)] && NextBatch(FOUR, 3) == [Put(4)]
  {
    LeaderEntries();
    LeaderSound();
    RestOf(ONE, 0, [Put(1)]);
    RestOf(TWO, 1, [Put(2)]);
    RestOf(THREE, 1, [Put(2), Put(3)]);
    RestOf(FOUR, 3, [Put(4)]);
  }

  const ONEDB: Database := map[[] := []]
  const TWODB: Database := map[[] := [], [2] := []]

  lemma Brought()
    ensures Brings(LEARNED, [Version(1, 1)], map[], ONEDB) && Brings(HEARD1, [Version(1, 1)], map[], ONEDB)
    ensures Brings(HAS3, [Version(1, 1)], map[], ONEDB) && Brings(HEARD2, [Version(2, 1)], ONEDB, TWODB)
    ensures Brings(FOUR, [Version(3, 1)], TWODB, TWODB)
  {
    LeaderEntries();
    FollowerEntries();
    LeaderSound();
    FoundIn(LEARNED, 1);
    FoundIn(HEARD1, 1);
    FoundIn(HAS3, 1);
    FoundIn(HEARD2, 2);
    FoundIn(FOUR, 3);
  }
}
