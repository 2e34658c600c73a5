/** `InMemoryLog` of src/server/acked_log.rs: two maps and four counters that refine the
    append-only sequence of `LogSpec`. */
module InMemoryLogs {
  import opened Types
  import opened LogSpec

  datatype LogEntry<T> = LogEntry(txid: TXID, term: Term, lastTxid: TXID, lastTerm: Term, entry: T)
  datatype AckedEntry<T> = AckedEntry(acks: seq<NodeId>, inner: LogEntry<T>)

  /** The entry at `i` has a positive id and names the id and term of the one before it. */
  ghost predicate LinkedAt<T>(ls: seq<LogEntry<T>>, i: nat) {
    i < |ls| && 0 < ls[i].txid &&
    ls[i].lastTxid == (if i == 0 then 0 else ls[i - 1].txid) &&
    ls[i].lastTerm == (if i == 0 then 0 else ls[i - 1].term)
  }

  ghost predicate Before<T>(ls: seq<LogEntry<T>>, i: nat, j: nat) {
    i < |ls| && j < |ls| && ls[i].txid < ls[j].txid
  }

  /** Ids ascend, and the back links chain. */
  ghost predicate Chained<T>(ls: seq<LogEntry<T>>) {
    && (forall i :: 0 <= i < |ls| ==> LinkedAt(ls, i))
    && (forall i, j :: 0 <= i < j < |ls| ==> Before(ls, i, j))
  }

  /** Some entry between positions `lo` and `hi` is numbered `x`. */
  ghost predicate Has<T>(ls: seq<LogEntry<T>>, lo: nat, hi: nat, x: TXID) {
    exists i :: lo <= i < hi <= |ls| && ls[i].txid == x
  }

  ghost predicate PendingAt<T>(p: map<TXID, AckedEntry<T>>, ls: seq<LogEntry<T>>, acks: seq<seq<NodeId>>, i: nat) {
    i < |ls| && i < |acks| && ls[i].txid in p && p[ls[i].txid] == AckedEntry(acks[i], ls[i])
  }

  ghost predicate CommittedAt<T>(c: map<TXID, LogEntry<T>>, ls: seq<LogEntry<T>>, i: nat) {
    i < |ls| && ls[i].txid in c && c[ls[i].txid] == ls[i]
  }

  /** The pending map holds the entries from position `n` on, with the acks at the same
      positions. */
  ghost predicate HoldsPending<T>(p: map<TXID, AckedEntry<T>>, ls: seq<LogEntry<T>>, acks: seq<seq<NodeId>>, n: nat)
    requires |acks| == |ls|
  {
    && (forall i :: n <= i < |ls| ==> PendingAt(p, ls, acks, i))
    && (forall x :: x in p ==> Has(ls, n, |ls|, x))
  }

  /** The committed map holds the first `n` entries. */
  ghost predicate HoldsCommitted<T>(c: map<TXID, LogEntry<T>>, ls: seq<LogEntry<T>>, n: nat)
    requires n <= |ls|
  {
    && (forall i :: 0 <= i < n ==> CommittedAt(c, ls, i))
    && (forall x :: x in c ==> Has(ls, 0, n, x))
  }

  /** What the committed map has under `x` is one of the first `n` entries. */
  ghost predicate FromLog<T>(c: map<TXID, LogEntry<T>>, ls: seq<LogEntry<T>>, n: nat, x: TXID) {
    x in c ==> exists i :: 0 <= i < n <= |ls| && c[x] == ls[i]
  }

  /** The maps are those of a log with the entries `ls`, cut at position `n`: the pending one
      holds exactly those from there on, the committed one some of those before, wherever they
      were put. */
  ghost predicate Represents<T>(p: map<TXID, AckedEntry<T>>, c: map<TXID, LogEntry<T>>,
                                ls: seq<LogEntry<T>>, acks: seq<seq<NodeId>>, n: nat)
  {
    && Chained(ls) && |acks| == |ls| && n <= |ls|
    && HoldsPending(p, ls, acks, n) && forall x: TXID :: FromLog(c, ls, n, x)
  }

  /** If committed entries are stored under their own ids, pending and committed ids are
      disjoint, every committed id is below every pending one, and together they are exactly
      the ids ever appended. */
  lemma Partition<T>(p: map<TXID, AckedEntry<T>>, c: map<TXID, LogEntry<T>>,
                     ls: seq<LogEntry<T>>, acks: seq<seq<NodeId>>, n: nat)
    requires Represents(p, c, ls, acks, n) && HoldsCommitted(c, ls, n)
    ensures forall x, y :: x in c && y in p ==> x < y
    ensures forall x: TXID :: x in c || x in p <==> Has(ls, 0, |ls|, x)
  {
    forall x, y | x in c && y in p
      ensures x < y
    {
      assert Has(ls, 0, n, x) && Has(ls, n, |ls|, y);
      var i :| 0 <= i < n && ls[i].txid == x;
      var j :| n <= j < |ls| && ls[j].txid == y;
      assert Before(ls, i, j);
    }
    forall x: TXID | x in c || x in p
      ensures Has(ls, 0, |ls|, x)
    {
      assert Has(ls, 0, n, x) || Has(ls, n, |ls|, x);
    }
    forall x: TXID | Has(ls, 0, |ls|, x)
      ensures x in c || x in p
    {
      var i :| 0 <= i < |ls| && ls[i].txid == x;
      assert if i < n then CommittedAt(c, ls, i) else PendingAt(p, ls, acks, i);
    }
  }

  /** The entry stored under `x` in either map. */
  ghost function Held<T>(p: map<TXID, AckedEntry<T>>, c: map<TXID, LogEntry<T>>, x: TXID): LogEntry<T>
    requires x in p || x in c
  {
    if x in p then p[x].inner else c[x]
  }

  /** Back links then chain through both maps: every entry is stored under its own id and names
      the id and term of the entry with the next lower id, in whichever map that is, or 0. */
  lemma BackLink<T>(p: map<TXID, AckedEntry<T>>, c: map<TXID, LogEntry<T>>,
                    ls: seq<LogEntry<T>>, acks: seq<seq<NodeId>>, n: nat, x: TXID)
    requires Represents(p, c, ls, acks, n) && HoldsCommitted(c, ls, n) && (x in p || x in c)
    ensures var e := Held(p, c, x);
      && e.txid == x && e.lastTxid < x
      && (forall y: TXID :: (y in p || y in c) && y < x ==> y <= e.lastTxid)
      && (if e.lastTxid == 0 then e.lastTerm == 0
          else (e.lastTxid in p || e.lastTxid in c) && Held(p, c, e.lastTxid).term == e.lastTerm)
  {
    Partition(p, c, ls, acks, n);
    var i := Position(p, c, ls, acks, n, x);
    assert LinkedAt(ls, i);
    if i > 0 {
      assert Before(ls, i - 1, i) && LinkedAt(ls, i - 1);
      assert if i - 1 < n then CommittedAt(c, ls, i - 1) else PendingAt(p, ls, acks, i - 1);
    }
    forall y: TXID | (y in p || y in c) && y < x
      ensures i > 0 && y <= ls[i - 1].txid
    {
      var j := Position(p, c, ls, acks, n, y);
      assert j > i ==> Before(ls, i, j);
      assert j < i - 1 ==> Before(ls, j, i - 1);
    }
  }

  lemma Position<T>(p: map<TXID, AckedEntry<T>>, c: map<TXID, LogEntry<T>>,
                    ls: seq<LogEntry<T>>, acks: seq<seq<NodeId>>, n: nat, x: TXID) returns (i: nat)
    requires Represents(p, c, ls, acks, n) && HoldsCommitted(c, ls, n) && (x in p || x in c)
    ensures i < |ls| && ls[i].txid == x && Held(p, c, x) == ls[i]
  {
    if x in p {
      assert Has(ls, n, |ls|, x);
      i :| n <= i < |ls| && ls[i].txid == x;
      assert PendingAt(p, ls, acks, i);
    } else {
      assert Has(ls, 0, n, x);
      i :| 0 <= i < n && ls[i].txid == x;
      assert CommittedAt(c, ls, i);
    }
  }

  /** Committing the oldest pending entry, under any key. */
  lemma CommitOne<T>(p: map<TXID, AckedEntry<T>>, c: map<TXID, LogEntry<T>>,
                     ls: seq<LogEntry<T>>, acks: seq<seq<NodeId>>, n: nat, key: TXID)
    requires Represents(p, c, ls, acks, n) && n < |ls|
    ensures ls[n].txid in p && Represents(p - {ls[n].txid}, c[key := ls[n]], ls, acks, n + 1)
  {
    assert PendingAt(p, ls, acks, n);
    RemoveFirst(p, ls, acks, n);
    var c', n' := c[key := ls[n]], n + 1;
    forall x: TXID
      ensures FromLog(c', ls, n', x)
    {
      assert FromLog(c, ls, n, x);
    }
  }

  lemma RemoveFirst<T>(p: map<TXID, AckedEntry<T>>, ls: seq<LogEntry<T>>, acks: seq<seq<NodeId>>, n: nat)
    requires Chained(ls) && |acks| == |ls| && n < |ls| && HoldsPending(p, ls, acks, n)
    ensures HoldsPending(p - {ls[n].txid}, ls, acks, n + 1)
  {
    var p' := p - {ls[n].txid};
    forall i | n + 1 <= i < |ls|
      ensures PendingAt(p', ls, acks, i)
    {
      assert PendingAt(p, ls, acks, i) && Before(ls, n, i);
    }
    forall x | x in p'
      ensures Has(ls, n + 1, |ls|, x)
    {
      assert Has(ls, n, |ls|, x);
    }
  }

  /** `e` links to the end of `ls`. */
  ghost predicate LinksTo<T>(ls: seq<LogEntry<T>>, e: LogEntry<T>) {
    && e.lastTxid < e.txid
    && (ls == [] ==> e.lastTxid == 0 && e.lastTerm == 0)
    && (ls != [] ==> e.lastTxid == ls[|ls| - 1].txid && e.lastTerm == ls[|ls| - 1].term)
  }

  lemma AtMostLast<T>(ls: seq<LogEntry<T>>, i: nat)
    requires Chained(ls) && i < |ls|
    ensures ls[i].txid <= ls[|ls| - 1].txid
  {
    assert i < |ls| - 1 ==> Before(ls, i, |ls| - 1);
  }

  lemma ChainGrows<T>(ls: seq<LogEntry<T>>, e: LogEntry<T>)
    requires Chained(ls) && LinksTo(ls, e)
    ensures Chained(ls + [e])
  {
    var ls' := ls + [e];
    forall i | 0 <= i < |ls'|
      ensures LinkedAt(ls', i)
    {
      assert i < |ls| ==> LinkedAt(ls, i);
    }
    forall i, j | 0 <= i < j < |ls'|
      ensures Before(ls', i, j)
    {
      if j < |ls| {
        assert Before(ls, i, j);
      } else {
        AtMostLast(ls, i);
      }
    }
  }

  lemma HasGrows<T>(ls: seq<LogEntry<T>>, e: LogEntry<T>, lo: nat, hi: nat, x: TXID)
    requires Has(ls, lo, hi, x)
    ensures Has(ls + [e], lo, hi, x) && Has(ls + [e], lo, |ls| + 1, x)
  {
    var i :| lo <= i < hi <= |ls| && ls[i].txid == x;
    assert (ls + [e])[i].txid == x;
  }

  /** Adding a pending entry at the end. */
  lemma AppendOne<T>(p: map<TXID, AckedEntry<T>>, c: map<TXID, LogEntry<T>>,
                     ls: seq<LogEntry<T>>, acks: seq<seq<NodeId>>, n: nat, e: LogEntry<T>)
    requires Represents(p, c, ls, acks, n) && LinksTo(ls, e)
    ensures Represents(p[e.txid := AckedEntry([], e)], c, ls + [e], acks + [[]], n)
  {
    ChainGrows(ls, e);
    PendingGrows(p, ls, acks, n, e);
    var ls' := ls + [e];
    forall x: TXID
      ensures FromLog(c, ls', n, x)
    {
      assert FromLog(c, ls, n, x);
      assert forall i :: 0 <= i < n ==> ls'[i] == ls[i];
    }
  }

  lemma PendingGrows<T>(p: map<TXID, AckedEntry<T>>, ls: seq<LogEntry<T>>, acks: seq<seq<NodeId>>, n: nat, e: LogEntry<T>)
    requires Chained(ls) && |acks| == |ls| && n <= |ls| && HoldsPending(p, ls, acks, n) && LinksTo(ls, e)
    ensures HoldsPending(p[e.txid := AckedEntry([], e)], ls + [e], acks + [[]], n)
  {
    var ls', acks', p' := ls + [e], acks + [[]], p[e.txid := AckedEntry([], e)];
    forall i | n <= i < |ls'|
      ensures PendingAt(p', ls', acks', i)
    {
      if i < |ls| {
        assert PendingAt(p, ls, acks, i);
        AtMostLast(ls, i);
      }
    }
    forall x | x in p'
      ensures Has(ls', n, |ls'|, x)
    {
      if x == e.txid {
        assert ls'[|ls|].txid == x;
      } else {
        HasGrows(ls, e, n, |ls|, x);
      }
    }
  }

  /** Replacing the acks of the pending entry at position `j`. */
  lemma AckOne<T>(p: map<TXID, AckedEntry<T>>, c: map<TXID, LogEntry<T>>,
                  ls: seq<LogEntry<T>>, acks: seq<seq<NodeId>>, n: nat, j: nat, a: seq<NodeId>)
    requires Represents(p, c, ls, acks, n) && n <= j < |ls|
    ensures var k := ls[j].txid; k in p && Represents(p[k := p[k].(acks := a)], c, ls, acks[j := a], n)
  {
    var k := ls[j].txid;
    assert PendingAt(p, ls, acks, j);
    var p', acks' := p[k := p[k].(acks := a)], acks[j := a];
    forall i | n <= i < |ls|
      ensures PendingAt(p', ls, acks', i)
    {
      assert PendingAt(p, ls, acks, i);
      assert if i < j then Before(ls, i, j) else i > j ==> Before(ls, j, i);
    }
  }

  // ----- the log these maps stand for ----------------------------------------------------------

  /** The two maps with what they hold: all entries, their acks, and how many are committed. */
  datatype Contents<T> = Contents(
    pending: map<TXID, AckedEntry<T>>, committed: map<TXID, LogEntry<T>>,
    ls: seq<LogEntry<T>>, acks: seq<seq<NodeId>>, n: nat)

  type Store<T> = s: Contents<T> | Represents(s.pending, s.committed, s.ls, s.acks, s.n)
    ghost witness Contents(map[], map[], [], [], 0)

  function RecOf<T>(e: LogEntry<T>): Rec<T> {
    Rec(e.term, e.txid, e.entry)
  }

  ghost function RecMap<T>(c: map<TXID, LogEntry<T>>): map<TXID, Rec<T>> {
    map x | x in c :: RecOf(c[x])
  }

  /** The entries from position `lo` to `hi`. */
  ghost function RecSlice<T>(ls: seq<LogEntry<T>>, lo: nat, hi: nat): seq<Rec<T>>
    requires lo <= hi <= |ls|
  {
    seq(hi - lo, i requires 0 <= i < hi - lo => RecOf(ls[lo + i]))
  }

  /** The log with these entries, apart from the map of committed ones. */
  ghost function ViewOf<T>(ls: seq<LogEntry<T>>, acks: seq<seq<NodeId>>, n: nat, quorum: nat, acking: Acking): Log<T>
    requires n <= |ls| == |acks|
  {
    Log(seq(n, i requires 0 <= i < n => RecOf(ls[i])),
        map[],
        seq(|ls| - n, i requires 0 <= i < |ls| - n => Acked(acks[n + i], RecOf(ls[n + i]))),
        quorum, acking, ByOwnId)
  }

  lemma ViewEntries<T>(ls: seq<LogEntry<T>>, acks: seq<seq<NodeId>>, n: nat, quorum: nat, acking: Acking)
    requires n <= |ls| == |acks|
    ensures var es := Entries(ViewOf(ls, acks, n, quorum, acking));
      |es| == |ls| && forall i :: 0 <= i < |ls| ==> es[i] == RecOf(ls[i])
  {
  }

  lemma ViewCommit<T>(ls: seq<LogEntry<T>>, acks: seq<seq<NodeId>>, n: nat, k: nat, quorum: nat, acking: Acking)
    requires n + k <= |ls| == |acks|
    ensures ViewOf(ls, acks, n + k, quorum, acking) == Promote(ViewOf(ls, acks, n, quorum, acking), k)
  {
    var v, v' := ViewOf(ls, acks, n, quorum, acking), ViewOf(ls, acks, n + k, quorum, acking);
    assert v'.committed == v.committed + Recs(v.pending[..k]);
    assert v'.pending == v.pending[k..];
  }

  lemma ViewAppend<T>(ls: seq<LogEntry<T>>, acks: seq<seq<NodeId>>, n: nat, e: LogEntry<T>, quorum: nat, acking: Acking)
    requires n <= |ls| == |acks|
    ensures ViewOf(ls + [e], acks + [[]], n, quorum, acking)
         == Appended(ViewOf(ls, acks, n, quorum, acking), e.term, e.txid, e.entry)
  {
    var v := ViewOf(ls, acks, n, quorum, acking);
    var v' := ViewOf(ls + [e], acks + [[]], n, quorum, acking);
    assert v'.committed == v.committed;
    assert v'.pending == v.pending + [Acked([], RecOf(e))];
  }

  /** A report of `txid` acknowledges the entry at position `i`. */
  ghost predicate Covers<T>(ls: seq<LogEntry<T>>, n: nat, i: nat, txid: TXID, acking: Acking)
    requires n <= i < |ls|
  {
    match acking
    case FirstPending => i == n
    case UpTo => ls[i].txid <= txid
  }

  lemma ViewAck<T>(ls: seq<LogEntry<T>>, acks: seq<seq<NodeId>>, acks': seq<seq<NodeId>>, n: nat,
                   txid: TXID, peer: NodeId, quorum: nat, acking: Acking)
    requires n <= |ls| == |acks| == |acks'|
    requires forall i :: n <= i < |ls| ==>
      acks'[i] == if Covers(ls, n, i, txid, acking) then WithAck(acks[i], peer) else acks[i]
    ensures var v := ViewOf(ls, acks, n, quorum, acking);
      ViewOf(ls, acks', n, quorum, acking) == v.(pending := Acknowledged(v, txid, peer))
  {
    var v, v' := ViewOf(ls, acks, n, quorum, acking), ViewOf(ls, acks', n, quorum, acking);
    var p := Acknowledged(v, txid, peer);
    forall i | 0 <= i < |p|
      ensures v'.pending[i] == p[i]
    {
      assert acks'[n + i] == if Covers(ls, n, n + i, txid, acking) then WithAck(acks[n + i], peer) else acks[n + i];
      assert v.pending[i] == Acked(acks[n + i], RecOf(ls[n + i]));
    }
    assert v'.pending == p;
  }

  /** `acks'` is `acks` with `peer` added to the `j` entries from `n` on. */
  ghost predicate AckedSome(acks: seq<seq<NodeId>>, acks': seq<seq<NodeId>>, n: nat, j: nat, peer: NodeId) {
    && |acks'| == |acks|
    && forall i :: 0 <= i < |acks| ==> acks'[i] == if n <= i < n + j then WithAck(acks[i], peer) else acks[i]
  }

  lemma AckedOneMore(acks: seq<seq<NodeId>>, acks': seq<seq<NodeId>>, n: nat, j: nat, peer: NodeId)
    requires AckedSome(acks, acks', n, j, peer) && n + j < |acks|
    ensures AckedSome(acks, acks'[n + j := WithAck(acks'[n + j], peer)], n, j + 1, peer)
  {
  }

  /** The `j` oldest pending entries are exactly the ones covered, once the loop has stopped. */
  lemma AckedAll<T>(ls: seq<LogEntry<T>>, n: nat, j: nat, txid: TXID, acking: Acking)
    requires Chained(ls) && n + j <= |ls|
    requires acking.FirstPending? ==> j <= 1 && (n < |ls| ==> j == 1)
    requires acking.UpTo? ==> (forall i :: n <= i < n + j ==> ls[i].txid <= txid) && (n + j < |ls| ==> txid < ls[n + j].txid)
    ensures forall i :: n <= i < |ls| ==> (Covers(ls, n, i, txid, acking) <==> i < n + j)
  {
    forall i | n <= i < |ls|
      ensures Covers(ls, n, i, txid, acking) <==> i < n + j
    {
      if n + j < i {
        assert Before(ls, n + j, i);
      }
    }
  }

  ghost function CommitFirst<T>(s: Store<T>, key: TXID): (s': Store<T>)
    requires s.n < |s.ls|
    ensures var k := s.ls[s.n].txid;
      k in s.pending &&
      s' == Contents(s.pending - {k}, s.committed[key := s.ls[s.n]], s.ls, s.acks, s.n + 1)
  {
    CommitOne(s.pending, s.committed, s.ls, s.acks, s.n, key);
    Contents(s.pending - {s.ls[s.n].txid}, s.committed[key := s.ls[s.n]], s.ls, s.acks, s.n + 1)
  }

  ghost function WithEntry<T>(s: Store<T>, e: LogEntry<T>): (s': Store<T>)
    requires LinksTo(s.ls, e)
    ensures s' == Contents(s.pending[e.txid := AckedEntry([], e)], s.committed, s.ls + [e], s.acks + [[]], s.n)
  {
    AppendOne(s.pending, s.committed, s.ls, s.acks, s.n, e);
    Contents(s.pending[e.txid := AckedEntry([], e)], s.committed, s.ls + [e], s.acks + [[]], s.n)
  }

  ghost function WithAcks<T>(s: Store<T>, j: nat, a: seq<NodeId>): (s': Store<T>)
    requires s.n <= j < |s.ls|
    ensures var k := s.ls[j].txid;
      k in s.pending &&
      s' == Contents(s.pending[k := s.pending[k].(acks := a)], s.committed, s.ls, s.acks[j := a], s.n)
  {
    AckOne(s.pending, s.committed, s.ls, s.acks, s.n, j, a);
    var k := s.ls[j].txid;
    Contents(s.pending[k := s.pending[k].(acks := a)], s.committed, s.ls, s.acks[j := a], s.n)
  }

  lemma ChainAscends<T>(ls: seq<LogEntry<T>>, es: seq<Rec<T>>)
    requires Chained(ls) && |es| == |ls| && forall i :: 0 <= i < |ls| ==> es[i] == RecOf(ls[i])
    ensures Ascending(es)
  {
    forall i | 0 <= i < |es|
      ensures 0 < es[i].txid
    {
      assert LinkedAt(ls, i);
    }
    forall i, j | 0 <= i < j < |es|
      ensures es[i].txid < es[j].txid
    {
      assert Before(ls, i, j);
    }
  }

  /** `vs` lists the versions of the entries from position `lo` to `hi`. */
  ghost predicate Lists<T>(vs: seq<Version>, ls: seq<LogEntry<T>>, lo: nat, hi: nat) {
    && lo <= hi <= |ls| && |vs| == hi - lo
    && forall i :: 0 <= i < |vs| ==> vs[i] == Version(ls[lo + i].txid, ls[lo + i].term)
  }

  lemma {:induction false} ReadyIs<T>(p: seq<Acked<T>>, quorum: nat, k: nat)
    requires k <= |p| && (forall i :: 0 <= i < k ==> quorum <= |p[i].acks|) && (k < |p| ==> |p[k].acks| < quorum)
    ensures k == Ready(p, quorum)
  {
    if k > 0 {
      ReadyIs(p[1..], quorum, k - 1);
    }
  }

  lemma {:induction false} DueIs<T>(p: seq<Acked<T>>, txid: TXID, k: nat)
    requires k <= |p| && (forall i :: 0 <= i < k ==> p[i].rec.txid <= txid) && (k < |p| ==> txid < p[k].rec.txid)
    ensures k == Due(p, txid)
  {
    if k > 0 {
      DueIs(p[1..], txid, k - 1);
    }
  }

  /** The loop stopped exactly where the acks stop making a quorum. */
  lemma QuorumReached<T>(ls: seq<LogEntry<T>>, acks: seq<seq<NodeId>>, n0: nat, n: nat,
                         quorum: nat, acking: Acking, reached: seq<Version>)
    requires n0 <= n <= |ls| == |acks| && Lists(reached, ls, n0, n)
    requires forall i :: n0 <= i < n ==> quorum <= |acks[i]|
    requires n < |ls| ==> |acks[n]| < quorum
    ensures var v := ViewOf(ls, acks, n0, quorum, acking); var k := Ready(v.pending, quorum);
      && ViewOf(ls, acks, n, quorum, acking) == Promote(v, k)
      && Recs(v.pending[..k]) == RecSlice(ls, n0, n) && reached == Versions(Recs(v.pending[..k]))
  {
    var v := ViewOf(ls, acks, n0, quorum, acking);
    ReadyIs(v.pending, quorum, n - n0);
    ViewCommit(ls, acks, n0, n - n0, quorum, acking);
    assert Recs(v.pending[..n - n0]) == RecSlice(ls, n0, n);
  }

  /** The loop stopped exactly at the first entry above `txid`. */
  lemma DueReached<T>(ls: seq<LogEntry<T>>, acks: seq<seq<NodeId>>, n0: nat, n: nat,
                      quorum: nat, acking: Acking, txid: TXID, reached: seq<Version>)
    requires n0 <= n <= |ls| == |acks| && Lists(reached, ls, n0, n)
    requires forall i :: n0 <= i < n ==> ls[i].txid <= txid
    requires n < |ls| ==> txid < ls[n].txid
    ensures var v := ViewOf(ls, acks, n0, quorum, acking); var k := Due(v.pending, txid);
      && ViewOf(ls, acks, n, quorum, acking) == Promote(v, k)
      && Recs(v.pending[..k]) == RecSlice(ls, n0, n) && reached == Versions(Recs(v.pending[..k]))
  {
    var v := ViewOf(ls, acks, n0, quorum, acking);
    assert forall i :: 0 <= i < |v.pending| ==> v.pending[i].rec == RecOf(ls[n0 + i]);
    DueIs(v.pending, txid, n - n0);
    ViewCommit(ls, acks, n0, n - n0, quorum, acking);
    assert Recs(v.pending[..n - n0]) == RecSlice(ls, n0, n);
  }

  /** Among the ids from position `m` on, the one at `m` is the least. */
  lemma LeastFrom<T>(ls: seq<LogEntry<T>>, m: nat, rest: set<TXID>)
    requires Chained(ls) && rest != {}
    requires forall x: TXID :: x in rest <==> Has(ls, m, |ls|, x)
    ensures m < |ls| && ls[m].txid in rest && forall y :: y in rest ==> ls[m].txid <= y
  {
    var x :| x in rest;
    assert Has(ls, m, |ls|, x);
    assert Has(ls, m, |ls|, ls[m].txid);
    forall y | y in rest
      ensures ls[m].txid <= y
    {
      assert Has(ls, m, |ls|, y);
      var i :| m <= i < |ls| && ls[i].txid == y;
      assert i > m ==> Before(ls, m, i);
    }
  }

  lemma DropFrom<T>(ls: seq<LogEntry<T>>, m: nat)
    requires Chained(ls) && m < |ls|
    ensures forall x: TXID :: Has(ls, m + 1, |ls|, x) <==> Has(ls, m, |ls|, x) && x != ls[m].txid
  {
    forall x: TXID | Has(ls, m + 1, |ls|, x)
      ensures Has(ls, m, |ls|, x) && x != ls[m].txid
    {
      var i :| m + 1 <= i < |ls| && ls[i].txid == x;
      assert Before(ls, m, i);
    }
  }

  lemma ViewCounters<T>(ls: seq<LogEntry<T>>, acks: seq<seq<NodeId>>, n: nat, quorum: nat, acking: Acking)
    requires Chained(ls) && n <= |ls| == |acks|
    ensures var v := ViewOf(ls, acks, n, quorum, acking);
      && Ascending(Entries(v))
      && LastTxid(Entries(v)) == (if ls == [] then 0 else ls[|ls| - 1].txid)
      && LastTerm(Entries(v)) == (if ls == [] then 0 else ls[|ls| - 1].term)
      && LastTxid(v.committed) == (if n == 0 then 0 else ls[n - 1].txid)
      && LastTerm(v.committed) == (if n == 0 then 0 else ls[n - 1].term)
  {
    var es := Entries(ViewOf(ls, acks, n, quorum, acking));
    ViewEntries(ls, acks, n, quorum, acking);
    ChainAscends(ls, es);
    assert ls != [] ==> es[|ls| - 1] == RecOf(ls[|ls| - 1]);
  }

  ghost predicate QuorumEach(acks: seq<seq<NodeId>>, lo: nat, hi: nat, quorum: nat) {
    forall i :: lo <= i < hi && i < |acks| ==> quorum <= |acks[i]|
  }

  ghost predicate DueEach<T>(ls: seq<LogEntry<T>>, lo: nat, hi: nat, txid: TXID) {
    forall i :: lo <= i < hi && i < |ls| ==> ls[i].txid <= txid
  }

  lemma ListsMore<T>(vs: seq<Version>, ls: seq<LogEntry<T>>, lo: nat, hi: nat)
    requires Lists(vs, ls, lo, hi) && hi < |ls|
    ensures Lists(vs + [Version(ls[hi].txid, ls[hi].term)], ls, lo, hi + 1)
  {
  }

  lemma SliceGrows<T>(ls: seq<LogEntry<T>>, lo: nat, hi: nat)
    requires lo <= hi < |ls|
    ensures RecSlice(ls, lo, hi + 1) == RecSlice(ls, lo, hi) + [RecOf(ls[hi])]
  {
  }

  /** One more entry filed under its own id. */
  lemma FiledOneMore<T>(m: map<TXID, Rec<T>>, c: map<TXID, LogEntry<T>>, ls: seq<LogEntry<T>>, lo: nat, hi: nat)
    requires lo <= hi < |ls| && RecMap(c) == Filed(m, RecSlice(ls, lo, hi))
    ensures RecMap(c[ls[hi].txid := ls[hi]]) == Filed(m, RecSlice(ls, lo, hi + 1))
  {
    SliceGrows(ls, lo, hi);
    var es, r := RecSlice(ls, lo, hi), RecOf(ls[hi]);
    assert (es + [r])[..|es|] == es;
    assert RecMap(c[ls[hi].txid := ls[hi]]) == RecMap(c)[r.txid := r];
  }

  /** One more entry put where `commit_up_to(txid)` puts it. */
  lemma StoredOneMore<T>(l: Log<T>, c: map<TXID, LogEntry<T>>, ls: seq<LogEntry<T>>, lo: nat, hi: nat, txid: TXID)
    requires lo <= hi < |ls| && RecMap(c) == Stored(l, RecSlice(ls, lo, hi), txid)
    ensures var key := if l.keying.ByArgument? then txid else ls[hi].txid;
      RecMap(c[key := ls[hi]]) == Stored(l, RecSlice(ls, lo, hi + 1), txid)
  {
    if l.keying.ByOwnId? {
      FiledOneMore(l.stored, c, ls, lo, hi);
    } else {
      SliceGrows(ls, lo, hi);
      assert RecMap(c[txid := ls[hi]]) == RecMap(c)[txid := RecOf(ls[hi])];
    }
  }

  lemma IdsDiffer<T>(ls: seq<LogEntry<T>>)
    requires Chained(ls)
    ensures forall i, j :: 0 <= i < |ls| && 0 <= j < |ls| && i != j ==> ls[i].txid != ls[j].txid
  {
    forall i, j | 0 <= i < |ls| && 0 <= j < |ls| && i != j
      ensures ls[i].txid != ls[j].txid
    {
      assert if i < j then Before(ls, i, j) else Before(ls, j, i);
    }
  }

  lemma PendingAscends<T>(ls: seq<LogEntry<T>>, n: nat, es: seq<Rec<T>>)
    requires Chained(ls) && n + |es| == |ls| && forall i :: 0 <= i < |es| ==> es[i] == RecOf(ls[n + i])
    ensures Ascending(es)
  {
    forall i | 0 <= i < |es|
      ensures 0 < es[i].txid
    {
      assert LinkedAt(ls, n + i);
    }
    forall i, j | 0 <= i < j < |es|
      ensures es[i].txid < es[j].txid
    {
      assert Before(ls, n + i, n + j);
    }
  }

  class InMemoryLog<T> {
    var pending: map<TXID, AckedEntry<T>>
    var committed: map<TXID, LogEntry<T>>
    const quorum: nat
    const acking: Acking
    const keying: Keying
    var lastLearnedTxid: TXID
    var lastLearnedTerm: Term
    var lastAcceptedTxid: TXID
    var lastAcceptedTerm: Term
    ghost var store: Store<T>

    ghost predicate Valid()
      reads this
    {
      && pending == store.pending && committed == store.committed
      && lastAcceptedTxid == (if store.ls == [] then 0 else store.ls[|store.ls| - 1].txid)
      && lastAcceptedTerm == (if store.ls == [] then 0 else store.ls[|store.ls| - 1].term)
      && lastLearnedTxid == (if store.n == 0 then 0 else store.ls[store.n - 1].txid)
      && lastLearnedTerm == (if store.n == 0 then 0 else store.ls[store.n - 1].term)
    }

    ghost function View(): Log<T>
      reads this
    {
      ViewOf(store.ls, store.acks, store.n, quorum, acking).(stored := RecMap(store.committed), keying := keying)
    }

    constructor (quorum: nat, acking: Acking, keying: Keying)
      ensures Valid() && View() == Log([], map[], [], quorum, acking, keying)
    {
      this.quorum, this.acking, this.keying := quorum, acking, keying;
      pending, committed := map[], map[];
      lastLearnedTxid, lastLearnedTerm, lastAcceptedTxid, lastAcceptedTerm := 0, 0, 0, 0;
      store := Contents(map[], map[], [], [], 0);
    }

    /** The counters are those of the log, whose ids ascend. */
    lemma Counters()
      requires Valid()
      ensures Ascending(Entries(View()))
      ensures lastAcceptedTxid == LastTxid(Entries(View())) && lastAcceptedTerm == LastTerm(Entries(View()))
      ensures lastLearnedTxid == LastTxid(View().committed) && lastLearnedTerm == LastTerm(View().committed)
    {
      ViewCounters(store.ls, store.acks, store.n, quorum, acking);
    }

    method Append(term: Term, txid: TXID, entry: T)
      requires Valid() && txid > lastAcceptedTxid
      modifies this
      ensures Valid() && View() == Appended(old(View()), term, txid, entry)
    {
      var e := LogEntry(txid, term, lastAcceptedTxid, lastAcceptedTerm, entry);
      ghost var store' := WithEntry(store, e);
      ViewAppend(store.ls, store.acks, store.n, e, quorum, acking);
      assert store'.ls != [] && store'.ls[|store'.ls| - 1] == e;
      assert store.n > 0 ==> store'.ls[store.n - 1] == store.ls[store.n - 1];
      pending := pending[txid := AckedEntry([], e)];
      lastAcceptedTxid := txid;
      lastAcceptedTerm := term;
      store := store';
    }

    method Get(txid: TXID) returns (r: Option<T>)
      requires Valid()
      ensures r == Find(View(), txid)
    {
      Found(txid);
      if txid in pending {
        r := Some(pending[txid].inner.entry);
      } else if txid in committed {
        r := Some(committed[txid].entry);
      } else {
        r := None;
      }
    }

    /** An id is in the pending map exactly when a pending entry has it, with the same entry. */
    lemma Found(txid: TXID)
      requires Valid()
      ensures LogSpec.Get(Recs(View().pending), txid) ==
        if txid in pending then Some(pending[txid].inner.entry) else None
    {
      var ls, n, es := store.ls, store.n, Recs(View().pending);
      assert forall i :: 0 <= i < |es| ==> es[i] == RecOf(ls[n + i]);
      PendingAscends(ls, n, es);
      GetFinds(es, txid);
      forall i | 0 <= i < |es|
        ensures es[i].txid in pending
      {
        assert PendingAt(pending, ls, store.acks, n + i);
      }
      if txid in pending {
        assert Has(ls, n, |ls|, txid);
        var i :| n <= i < |ls| && ls[i].txid == txid;
        assert PendingAt(pending, ls, store.acks, i) && es[i - n].txid == txid;
      }
    }

    /** When the map is faithful to the log, it holds the committed entries under their ids, and
        so `Partition` and `BackLink` apply. */
    lemma StoredInPlace()
      requires Valid() && Faithful(View())
      ensures HoldsCommitted(committed, store.ls, store.n)
    {
      var ls, n, es := store.ls, store.n, View().committed;
      Counters();
      CommittedAscends(View());
      IdsDiffer(ls);
      forall i | 0 <= i < n
        ensures CommittedAt(committed, ls, i)
      {
        assert es[i] == RecOf(ls[i]);
        FaithfulKeeps(View(), es[i]);
        assert FromLog(committed, ls, n, ls[i].txid);
        var j :| 0 <= j < n && committed[ls[i].txid] == ls[j];
        assert RecOf(ls[j]) == RecOf(ls[i]);
      }
      forall x | x in committed
        ensures Has(ls, 0, n, x)
      {
        FiledFinds(es, x);
        GetFinds(es, x);
        var i :| 0 <= i < |es| && es[i].txid == x;
        assert ls[i].txid == x;
      }
    }

    /** `keys().next()`: the least pending id. */
    method FirstKey() returns (k: TXID)
      requires Valid() && pending.Keys != {}
      ensures store.n < |store.ls| && k == store.ls[store.n].txid
      ensures PendingAt(pending, store.ls, store.acks, store.n)
    {
      var x :| x in pending;
      ghost var ls, n := store.ls, store.n;
      assert Has(ls, n, |ls|, x);
      assert PendingAt(pending, ls, store.acks, n);
      forall y | y in pending
        ensures ls[n].txid <= y
      {
        assert Has(ls, n, |ls|, y);
        var i :| n <= i < |ls| && ls[i].txid == y;
        assert i > n ==> Before(ls, n, i);
      }
      assert ls[n].txid in pending;
      k :| k in pending && forall y :: y in pending ==> k <= y;
      assert k <= ls[n].txid <= k;
    }

    /** The pending ids in the order the map iterates over them. */
    method PendingKeys() returns (ks: seq<TXID>)
      requires Valid()
      ensures |ks| == |store.ls| - store.n
      ensures forall i :: 0 <= i < |ks| ==> ks[i] == store.ls[store.n + i].txid
    {
      ks := [];
      var rest := pending.Keys;
      forall x: TXID | Has(store.ls, store.n, |store.ls|, x)
        ensures x in pending
      {
        var i :| store.n <= i < |store.ls| && store.ls[i].txid == x;
        assert PendingAt(pending, store.ls, store.acks, i);
      }
      ghost var m := store.n;
      while rest != {}
        invariant m == store.n + |ks| <= |store.ls|
        invariant forall i :: 0 <= i < |ks| ==> ks[i] == store.ls[store.n + i].txid
        invariant forall x: TXID :: x in rest <==> Has(store.ls, m, |store.ls|, x)
        decreases |store.ls| - m
      {
        LeastFrom(store.ls, m, rest);
        var k :| k in rest && forall y :: y in rest ==> k <= y;
        assert k <= store.ls[m].txid <= k;
        DropFrom(store.ls, m);
        ks := ks + [k];
        rest := rest - {k};
        m := m + 1;
      }
      assert m < |store.ls| ==> Has(store.ls, m, |store.ls|, store.ls[m].txid);
    }

    /** Moves the pending entry `k`, the oldest, to the committed map, under `key`. */
    method CommitKey(k: TXID, key: TXID)
      requires Valid() && store.n < |store.ls| && k == store.ls[store.n].txid
      requires PendingAt(pending, store.ls, store.acks, store.n)
      modifies this
      ensures Valid() && store.ls == old(store.ls) && store.acks == old(store.acks) && store.n == old(store.n) + 1
      ensures store.committed == old(store.committed)[key := store.ls[old(store.n)]]
      ensures Version(lastLearnedTxid, lastLearnedTerm) == Version(store.ls[old(store.n)].txid, store.ls[old(store.n)].term)
    {
      ghost var store' := CommitFirst(store, key);
      var ent := pending[k];
      pending := pending - {k};
      lastLearnedTerm := ent.inner.term;
      lastLearnedTxid := ent.inner.txid;
      committed := committed[key := ent.inner];
      store := store';
    }

    /** Records that `peer` has accepted everything up to `txid`. */
    method AckEntries(txid: TXID, peer: NodeId)
      requires Valid()
      modifies `pending, `store
      ensures Valid()
      ensures View() == old(View()).(pending := Acknowledged(old(View()), txid, peer))
    {
      var ks := PendingKeys();
      ghost var acks, ls, n := store.acks, store.ls, store.n;
      var j := 0;
      while j < |ks| && (acking.FirstPending? ==> j == 0) && (acking.UpTo? ==> ks[j] <= txid)
        invariant 0 <= j <= |ks| && Valid() && store.ls == ls && store.n == n
        invariant AckedSome(acks, store.acks, n, j, peer)
        invariant acking.FirstPending? ==> j <= 1
        invariant acking.UpTo? ==> forall i :: n <= i < n + j ==> ls[i].txid <= txid
      {
        ghost var before := store.acks;
        AckKey(ks[j], peer, n + j);
        AckedOneMore(acks, before, n, j, peer);
        j := j + 1;
      }
      AckedAll(ls, n, j, txid, acking);
      ViewAck(ls, acks, store.acks, n, txid, peer, quorum, acking);
    }

    /** Adds `peer` to the acks of the pending entry `k`, once. */
    method AckKey(k: TXID, peer: NodeId, ghost i: nat)
      requires Valid() && store.n <= i < |store.ls| && k == store.ls[i].txid
      modifies `pending, `store
      ensures Valid() && store.ls == old(store.ls) && store.n == old(store.n)
      ensures store.acks == old(store.acks)[i := WithAck(old(store.acks)[i], peer)]
    {
      assert PendingAt(pending, store.ls, store.acks, i);
      ghost var store' := WithAcks(store, i, WithAck(store.acks[i], peer));
      var ent := pending[k];
      if peer !in ent.acks {
        pending := pending[k := ent.(acks := ent.acks + [peer])];
        store := store';
      }
    }

    /** Acknowledges entries, then commits those that have reached a quorum. */
    method AckUpTo(txid: TXID, peer: NodeId) returns (reached: seq<Version>)
      requires Valid()
      modifies this
      ensures Valid()
      ensures (View(), reached) == LogSpec.AckUpTo(old(View()), txid, peer)
    {
      AckEntries(txid, peer);
      reached := CommitReached();
    }

    /** Commits the pending entries that have a quorum of acks, up to the first that has not. */
    method CommitReached() returns (reached: seq<Version>)
      requires Valid()
      modifies this
      ensures Valid()
      ensures var k := Ready(old(View()).pending, quorum); var es := Recs(old(View()).pending[..k]);
        View() == Promote(old(View()), k).(stored := Filed(old(View()).stored, es)) && reached == Versions(es)
    {
      ghost var ls, acks, n0, m0 := store.ls, store.acks, store.n, RecMap(store.committed);
      assert RecSlice(ls, n0, n0) == [];
      reached := [];
      while pending.Keys != {}
        invariant Valid() && store.ls == ls && store.acks == acks && n0 <= store.n <= |ls|
        invariant QuorumEach(acks, n0, store.n, quorum)
        invariant RecMap(store.committed) == Filed(m0, RecSlice(ls, n0, store.n))
        invariant Lists(reached, ls, n0, store.n)
        decreases |ls| - store.n
      {
        var k := FirstKey();
        if |pending[k].acks| < quorum {
          break;
        }
        ListsMore(reached, ls, n0, store.n);
        FiledOneMore(m0, store.committed, ls, n0, store.n);
        CommitKey(k, k);
        reached := reached + [Version(lastLearnedTxid, lastLearnedTerm)];
      }
      assert store.n < |ls| ==> PendingAt(pending, ls, acks, store.n);
      QuorumReached(ls, acks, n0, store.n, quorum, acking, reached);
    }

    /** Commits what the leader says it has learned. */
    method CommitUpTo(txid: TXID) returns (reached: seq<Version>)
      requires Valid()
      modifies this
      ensures Valid()
      ensures (View(), reached) == LogSpec.CommitUpTo(old(View()), txid)
    {
      ghost var n0 := store.n;
      reached := CommitDue(txid);
      DueReached(store.ls, store.acks, n0, store.n, quorum, acking, txid, reached);
    }

    /** The loop: takes the oldest pending entry as long as it is numbered at most `txid`. */
    method CommitDue(txid: TXID) returns (reached: seq<Version>)
      requires Valid()
      modifies this
      ensures Valid() && store.ls == old(store.ls) && store.acks == old(store.acks)
      ensures old(store.n) <= store.n && DueEach(store.ls, old(store.n), store.n, txid)
      ensures store.n < |store.ls| ==> txid < store.ls[store.n].txid
      ensures Lists(reached, store.ls, old(store.n), store.n)
      ensures RecMap(store.committed) == Stored(old(View()), RecSlice(store.ls, old(store.n), store.n), txid)
    {
      ghost var ls, acks, n0, l0 := store.ls, store.acks, store.n, View();
      assert RecSlice(ls, n0, n0) == [];
      reached := [];
      while pending.Keys != {}
        invariant Valid() && store.ls == ls && store.acks == acks && n0 <= store.n <= |ls|
        invariant RecMap(store.committed) == Stored(l0, RecSlice(ls, n0, store.n), txid)
        invariant DueEach(ls, n0, store.n, txid)
        invariant Lists(reached, ls, n0, store.n)
        decreases |ls| - store.n
      {
        var k := FirstKey();
        if k > txid {
          break;
        }
        ListsMore(reached, ls, n0, store.n);
        StoredOneMore(l0, store.committed, ls, n0, store.n, txid);
        CommitKey(k, if keying.ByArgument? then txid else k);
        reached := reached + [Version(lastLearnedTxid, lastLearnedTerm)];
      }
      assert store.n < |ls| ==> PendingAt(pending, ls, acks, store.n);
    }
  }
}
