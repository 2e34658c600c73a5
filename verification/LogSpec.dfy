/** The replication log as a value: an append-only sequence cut into a committed prefix and a
    pending suffix, and the map in which committed entries are looked up.  `InMemoryLog`
    (src/server/acked_log.rs) is proved to refine it. */
module LogSpec {
  import opened Types

  /** Which entries `ack_up_to` acknowledges.  `FirstPending` is lines 95-101 of
      acked_log.rs as written, where the loop variable hides the argument; `UpTo` is the
      line those are evidently meant to be. */
  datatype Acking = FirstPending | UpTo

  /** Under which id `commit_up_to` stores an entry.  `ByArgument` is line 143 of acked_log.rs
      as written; `ByOwnId` is the line it is evidently meant to be. */
  datatype Keying = ByArgument | ByOwnId

  datatype Rec<T> = Rec(term: Term, txid: TXID, entry: T)
  datatype Acked<T> = Acked(acks: seq<NodeId>, rec: Rec<T>)

  /** `committed` lists the committed entries in order; `stored` is the map they were put in. */
  datatype Log<T> = Log(
    committed: seq<Rec<T>>,
    stored: map<TXID, Rec<T>>,
    pending: seq<Acked<T>>,
    quorum: nat,
    acking: Acking,
    keying: Keying)

  function Recs<T>(p: seq<Acked<T>>): (es: seq<Rec<T>>)
    ensures |es| == |p|
  {
    seq(|p|, i requires 0 <= i < |p| => p[i].rec)
  }

  lemma RecsSplit<T>(p: seq<Acked<T>>, k: nat)
    requires k <= |p|
    ensures Recs(p[..k]) + Recs(p[k..]) == Recs(p)
    ensures Recs(p[..k]) == Recs(p)[..k]
  {
  }

  /** Everything ever appended, oldest first. */
  function Entries<T>(l: Log<T>): seq<Rec<T>> {
    l.committed + Recs(l.pending)
  }

  function LastTxid<T>(es: seq<Rec<T>>): TXID {
    if es == [] then 0 else es[|es| - 1].txid
  }

  function LastTerm<T>(es: seq<Rec<T>>): Term {
    if es == [] then 0 else es[|es| - 1].term
  }

  /** Transaction ids are positive and strictly ascending. */
  ghost predicate Ascending<T>(es: seq<Rec<T>>) {
    && (forall i :: 0 <= i < |es| ==> 0 < es[i].txid)
    && (forall i, j :: 0 <= i < j < |es| ==> es[i].txid < es[j].txid)
  }

  /** Transaction ids are 1, 2, 3, ...: no gap anywhere. */
  ghost predicate Contiguous<T>(es: seq<Rec<T>>) {
    forall i :: 0 <= i < |es| ==> es[i].txid == i + 1
  }

  function Appended<T>(l: Log<T>, term: Term, txid: TXID, entry: T): Log<T> {
    l.(pending := l.pending + [Acked([], Rec(term, txid, entry))])
  }

  /** The entry numbered `txid`, if any. */
  function Get<T>(es: seq<Rec<T>>, txid: TXID): Option<T> {
    if es == [] then None
    else if es[|es| - 1].txid == txid then Some(es[|es| - 1].entry)
    else Get(es[..|es| - 1], txid)
  }

  /** `get`: pending entries are looked up by their id, committed ones by where they were put. */
  function Find<T>(l: Log<T>, txid: TXID): Option<T> {
    var p := Get(Recs(l.pending), txid);
    if p.Some? then p else if txid in l.stored then Some(l.stored[txid].entry) else None
  }

  /** The map `m` with the entries `es` put in, one by one, under their own ids. */
  function Filed<T>(m: map<TXID, Rec<T>>, es: seq<Rec<T>>): map<TXID, Rec<T>> {
    if es == [] then m
    else
      var last := es[|es| - 1];
      Filed(m, es[..|es| - 1])[last.txid := last]
  }

  /** Every committed entry, and nothing else, is stored under its own id. */
  ghost predicate Faithful<T>(l: Log<T>) {
    l.stored == Filed(map[], l.committed)
  }

  function WithAck(acks: seq<NodeId>, peer: NodeId): seq<NodeId> {
    if peer in acks then acks else acks + [peer]
  }

  function AddAck<T>(a: Acked<T>, peer: NodeId): Acked<T> {
    a.(acks := WithAck(a.acks, peer))
  }

  /** The pending entries after `peer` reported having accepted everything up to `txid`. */
  function Acknowledged<T>(l: Log<T>, txid: TXID, peer: NodeId): (p: seq<Acked<T>>)
    ensures |p| == |l.pending|
    ensures Recs(p) == Recs(l.pending)
  {
    match l.acking
    case FirstPending =>
      if l.pending == [] then [] else l.pending[0 := AddAck(l.pending[0], peer)]
    case UpTo =>
      seq(|l.pending|, i requires 0 <= i < |l.pending| =>
        if l.pending[i].rec.txid <= txid then AddAck(l.pending[i], peer) else l.pending[i])
  }

  /** How many pending entries, from the oldest, have a quorum of acks. */
  function Ready<T>(p: seq<Acked<T>>, quorum: nat): (k: nat)
    ensures k <= |p|
  {
    if p == [] || |p[0].acks| < quorum then 0 else 1 + Ready(p[1..], quorum)
  }

  /** How many pending entries, from the oldest, are numbered at most `txid`. */
  function Due<T>(p: seq<Acked<T>>, txid: TXID): (k: nat)
    ensures k <= |p|
  {
    if p == [] || txid < p[0].rec.txid then 0 else 1 + Due(p[1..], txid)
  }

  lemma {:induction false} ReadyStops<T>(p: seq<Acked<T>>, quorum: nat)
    ensures forall i :: 0 <= i < Ready(p, quorum) ==> quorum <= |p[i].acks|
    ensures Ready(p, quorum) < |p| ==> |p[Ready(p, quorum)].acks| < quorum
  {
    if p != [] && quorum <= |p[0].acks| {
      ReadyStops(p[1..], quorum);
      assert forall i :: 0 < i < |p| ==> p[i] == p[1..][i - 1];
    }
  }

  lemma {:induction false} DueStops<T>(p: seq<Acked<T>>, txid: TXID)
    ensures forall i :: 0 <= i < Due(p, txid) ==> p[i].rec.txid <= txid
    ensures Due(p, txid) < |p| ==> txid < p[Due(p, txid)].rec.txid
  {
    if p != [] && p[0].rec.txid <= txid {
      DueStops(p[1..], txid);
      assert forall i :: 0 < i < |p| ==> p[i] == p[1..][i - 1];
    }
  }

  /** Moves the `k` oldest pending entries to the committed part. */
  function Promote<T>(l: Log<T>, k: nat): (r: Log<T>)
    requires k <= |l.pending|
    ensures Entries(r) == Entries(l)
  {
    RecsSplit(l.pending, k);
    assert (l.committed + Recs(l.pending[..k])) + Recs(l.pending[k..]) == l.committed + Recs(l.pending);
    l.(committed := l.committed + Recs(l.pending[..k]), pending := l.pending[k..])
  }

  function Versions<T>(es: seq<Rec<T>>): (vs: seq<Version>)
    ensures |vs| == |es|
  {
    seq(|es|, i requires 0 <= i < |es| => Version(es[i].txid, es[i].term))
  }

  /** `ack_up_to`: the new log and the entries that just reached a quorum. */
  function AckUpTo<T>(l: Log<T>, txid: TXID, peer: NodeId): (r: (Log<T>, seq<Version>))
    ensures Entries(r.0) == Entries(l)
  {
    var l1 := l.(pending := Acknowledged(l, txid, peer));
    var k := Ready(l1.pending, l.quorum);
    (Promote(l1, k).(stored := Filed(l.stored, Recs(l1.pending[..k]))), Versions(Recs(l1.pending[..k])))
  }

  /** The map after the entries `es` have been committed up to `txid`: by argument, each entry
      replaces the one before. */
  function Stored<T>(l: Log<T>, es: seq<Rec<T>>, txid: TXID): map<TXID, Rec<T>> {
    match l.keying
    case ByOwnId => Filed(l.stored, es)
    case ByArgument => if es == [] then l.stored else l.stored[txid := es[|es| - 1]]
  }

  /** `commit_up_to`: the new log and the entries it committed. */
  function CommitUpTo<T>(l: Log<T>, txid: TXID): (r: (Log<T>, seq<Version>))
    ensures Entries(r.0) == Entries(l)
  {
    var k := Due(l.pending, txid);
    var es := Recs(l.pending[..k]);
    (Promote(l, k).(stored := Stored(l, es, txid)), Versions(es))
  }

  // ----- the map of committed entries ----------------------------------------------------------

  lemma {:induction false} FiledMore<T>(m: map<TXID, Rec<T>>, a: seq<Rec<T>>, b: seq<Rec<T>>)
    ensures Filed(m, a + b) == Filed(Filed(m, a), b)
  {
    if b == [] {
      assert a + b == a;
    } else {
      FiledMore(m, a, b[..|b| - 1]);
      assert (a + b)[..|a + b| - 1] == a + b[..|b| - 1];
    }
  }

  /** Looking up in a map of entries filed under their own ids is searching the list. */
  lemma {:induction false} FiledFinds<T>(es: seq<Rec<T>>, txid: TXID)
    ensures var m := Filed(map[], es);
      && (txid in m <==> Get(es, txid).Some?)
      && (txid in m ==> m[txid] in es && m[txid].txid == txid && Get(es, txid) == Some(m[txid].entry))
  {
    if es != [] {
      FiledFinds(es[..|es| - 1], txid);
    }
  }

  lemma {:induction false} GetSplit<T>(a: seq<Rec<T>>, b: seq<Rec<T>>, txid: TXID)
    ensures Get(a + b, txid) == if Get(b, txid).Some? then Get(b, txid) else Get(a, txid)
  {
    if b == [] {
      assert a + b == a;
    } else {
      GetSplit(a, b[..|b| - 1], txid);
      assert (a + b)[..|a + b| - 1] == a + b[..|b| - 1];
    }
  }

  /** With a faithful map, lookup finds what the list of all entries has. */
  lemma FaithfulFinds<T>(l: Log<T>, txid: TXID)
    requires Faithful(l)
    ensures Find(l, txid) == Get(Entries(l), txid)
  {
    FiledFinds(l.committed, txid);
    GetSplit(l.committed, Recs(l.pending), txid);
  }

  /** Nothing that `commit_up_to(txid)` would commit is numbered below `txid`. */
  ghost predicate NothingBelow<T>(l: Log<T>, txid: TXID) {
    forall i :: 0 <= i < |l.pending| ==> l.pending[i].rec.txid >= txid
  }

  lemma AckStaysFaithful<T>(l: Log<T>, txid: TXID, peer: NodeId)
    requires Faithful(l)
    ensures Faithful(AckUpTo(l, txid, peer).0)
  {
    var p := Acknowledged(l, txid, peer);
    FiledMore(map[], l.committed, Recs(p[..Ready(p, l.quorum)]));
  }

  /** `Get` finds exactly the entries of the log. */
  lemma {:induction false} GetFinds<T>(es: seq<Rec<T>>, txid: TXID)
    requires Ascending(es)
    ensures forall i :: 0 <= i < |es| && es[i].txid == txid ==> Get(es, txid) == Some(es[i].entry)
    ensures Get(es, txid).Some? <==> exists i :: 0 <= i < |es| && es[i].txid == txid
  {
    if es != [] && es[|es| - 1].txid != txid {
      var init := es[..|es| - 1];
      GetFinds(init, txid);
      assert forall i :: 0 <= i < |init| ==> init[i] == es[i];
      if i :| 0 <= i < |es| && es[i].txid == txid {
        assert init[i].txid == txid;
      }
    }
  }

  /** A contiguous log is ascending, and the entry numbered x is the x-th. */
  lemma GetContiguous<T>(es: seq<Rec<T>>, txid: TXID)
    requires Contiguous(es)
    ensures Ascending(es) && LastTxid(es) == |es|
    ensures Get(es, txid) == if 1 <= txid <= |es| then Some(es[txid - 1].entry) else None
  {
    GetFinds(es, txid);
    if 1 <= txid <= |es| {
      assert es[txid - 1].txid == txid;
    }
  }

  // ----- lost entries --------------------------------------------------------------------------

  /** `r` was committed but is not stored under its id. */
  ghost predicate Lost<T>(l: Log<T>, r: Rec<T>) {
    r in l.committed && !(r.txid in l.stored && l.stored[r.txid] == r)
  }

  /** A faithful map has lost nothing. */
  lemma FaithfulKeeps<T>(l: Log<T>, r: Rec<T>)
    requires Faithful(l) && Ascending(l.committed) && r in l.committed
    ensures !Lost(l, r)
  {
    var i :| 0 <= i < |l.committed| && l.committed[i] == r;
    FiledFinds(l.committed, r.txid);
    GetFinds(l.committed, r.txid);
  }

  lemma OneDue<T>(l: Log<T>, txid: TXID)
    requires Ascending(Entries(l)) && NothingBelow(l, txid)
    ensures Due(l.pending, txid) == 0 || (Due(l.pending, txid) == 1 && l.pending[0].rec.txid == txid)
  {
    var n := |l.committed|;
    DueStops(l.pending, txid);
    assert |l.pending| > 1 ==> Entries(l)[n] == l.pending[0].rec && Entries(l)[n + 1] == l.pending[1].rec;
  }

  lemma NothingToLose<T>(l: Log<T>, txid: TXID)
    requires Faithful(l) && Ascending(Entries(l)) && NothingBelow(l, txid)
    ensures Faithful(CommitUpTo(l, txid).0)
  {
    OneDue(l, txid);
    var k := Due(l.pending, txid);
    if k == 0 {
      assert l.committed + Recs(l.pending[..k]) == l.committed;
    } else {
      var r := l.pending[0].rec;
      assert Recs(l.pending[..k]) == [r] && [r][..0] == [];
      assert Filed(l.stored, [r]) == l.stored[txid := r];
      assert (l.committed + [r])[..|l.committed|] == l.committed;
      assert Filed(map[], l.committed + [r]) == Filed(map[], l.committed)[txid := r];
    }
  }

  /** The oldest of several entries due at once is lost when they are stored by argument. */
  lemma OldestLost<T>(l: Log<T>, txid: TXID)
    requires Faithful(l) && Ascending(Entries(l)) && l.keying.ByArgument? && !NothingBelow(l, txid)
    ensures l.pending != [] && Lost(CommitUpTo(l, txid).0, l.pending[0].rec)
  {
    var n := |l.committed|;
    var i :| 0 <= i < |l.pending| && l.pending[i].rec.txid < txid;
    var r := l.pending[0].rec;
    assert Entries(l)[n] == r && Entries(l)[n + i] == l.pending[i].rec;
    assert Due(l.pending, txid) >= 1;
    assert Recs(l.pending[..Due(l.pending, txid)])[0] == r;
    assert r == CommitUpTo(l, txid).0.committed[n];
    FiledFinds(l.committed, r.txid);
    assert forall j :: 0 <= j < n ==> Entries(l)[j] == l.committed[j];
  }

  /** Committing keeps the map faithful if and only if entries are stored under their own ids
      or nothing below the argument is pending. */
  lemma CommitFaithfulExactly<T>(l: Log<T>, txid: TXID)
    requires Faithful(l) && Ascending(Entries(l))
    ensures Faithful(CommitUpTo(l, txid).0) <==> l.keying.ByOwnId? || NothingBelow(l, txid)
  {
    var k, l' := Due(l.pending, txid), CommitUpTo(l, txid).0;
    if l.keying.ByOwnId? {
      FiledMore(map[], l.committed, Recs(l.pending[..k]));
    } else if NothingBelow(l, txid) {
      NothingToLose(l, txid);
    } else {
      OldestLost(l, txid);
      CommittedAscends(l');
      if Faithful(l') {
        FaithfulKeeps(l', l.pending[0].rec);
      }
    }
  }

  lemma CommittedAscends<T>(l: Log<T>)
    requires Ascending(Entries(l))
    ensures Ascending(l.committed)
  {
    assert forall i :: 0 <= i < |l.committed| ==> Entries(l)[i] == l.committed[i];
  }
}
