/** Batches, acknowledgements and commits against one leader's log: the facts about single
    handlers that the theorems about a reign rest on. */
module Replication {
  import opened Types
  import opened LogSpec
  import opened Harpoon
  import opened Cluster
  import opened Journal

  /** Each record carries its own version. */
  ghost predicate Coherent(es: seq<Rec<Mutation>>) {
    forall i :: 0 <= i < |es| ==> es[i].entry.version == Version(es[i].txid, es[i].term)
  }

  /** A leader's log: no gaps, and each record carries its own version. */
  ghost predicate Sound(es: seq<Rec<Mutation>>) {
    Contiguous(es) && Coherent(es)
  }

  /** The batch is a run of consecutive entries of `es`. */
  ghost predicate SliceOf(batch: seq<Mutation>, es: seq<Rec<Mutation>>) {
    forall x :: 0 <= x < |batch| ==>
      var t := batch[x].version.txid;
      1 <= t <= |es| && es[t - 1].entry == batch[x] && t == batch[0].version.txid + x
  }

  /** The batch continues, or overlaps, a log whose last id is `from`. */
  predicate Continues(batch: seq<Mutation>, from: TXID) {
    batch == [] || batch[0].version.txid <= from + 1
  }

  /** The last id held once `batch` has been added to a log whose last id is `from`. */
  function Reached(from: TXID, batch: seq<Mutation>): TXID {
    if batch == [] || batch[|batch| - 1].version.txid <= from then from
    else batch[|batch| - 1].version.txid
  }

  // ----- batches -----------------------------------------------------------------------------

  lemma {:induction false} CollectedIsSlice(l: Log<Mutation>, lo: TXID, hi: TXID)
    requires Contiguous(Entries(l)) && Faithful(l) && 1 <= lo <= hi
    ensures var b := Collected(l, lo, hi); var es := Entries(l); var last := if hi - 1 <= |es| then hi - 1 else |es|;
      && |b| == (if last < lo then 0 else last - lo + 1)
      && (forall x :: 0 <= x < |b| ==> b[x] == es[lo - 1 + x].entry)
    decreases hi
  {
    if lo < hi {
      CollectedIsSlice(l, lo, hi - 1);
      FaithfulFinds(l, hi - 1);
      GetContiguous(Entries(l), hi - 1);
    }
  }

  /** What a leader with a gap-free log sends next is the run of at most 99 entries that
      follows the last one sent. */
  lemma NextBatchIsSlice(l: Log<Mutation>, maxSent: TXID)
    requires Sound(Entries(l)) && Faithful(l)
    ensures var b := NextBatch(l, maxSent); var es := Entries(l);
      && SliceOf(b, es)
      && SentUpTo(maxSent, b) == (if |es| <= maxSent then maxSent
                                  else if maxSent + 99 <= |es| then maxSent + 99 else |es|)
      && (b != [] ==> b[0].version.txid == maxSent + 1)
      && (b == [] <==> |es| <= maxSent)
  {
    CollectedIsSlice(l, maxSent + 1, maxSent + 100);
  }

  /** A follower whose log is a prefix of the leader's and whose batch continues it is left
      with a prefix of the leader's log, even if it panics part way. */
  lemma {:induction false} TakeBatchKeepsPrefix(log: Log<Mutation>, batch: seq<Mutation>, es: seq<Rec<Mutation>>)
    requires Sound(es) && Entries(log) <= es && SliceOf(batch, es)
    requires Continues(batch, |Entries(log)|)
    ensures var r := TakeBatch(log, batch);
      && Entries(r.log) <= es
      && (r.Took? ==> |Entries(r.log)| == Reached(|Entries(log)|, batch))
    decreases batch
  {
    if batch != [] && batch[0].version.term >= LastTerm(Entries(log)) {
      var f, v := |Entries(log)|, batch[0].version;
      assert SliceOf(batch[1..], es);
      if v.txid <= LastTxid(Entries(log)) {
        TakeBatchKeepsPrefix(log, batch[1..], es);
      } else {
        AppendedEntries(log, v.term, v.txid, batch[0]);
        assert es[f] == Rec(v.term, v.txid, batch[0]);
        assert es[..f + 1] == es[..f] + [es[f]];
        TakeBatchKeepsPrefix(Appended(log, v.term, v.txid, batch[0]), batch[1..], es);
      }
    }
  }

  /** The link check on the last accepted entry is not enough: an accepted batch leaves a
      prefix of the leader's log if and only if it starts no later than the next entry. */
  lemma GapFreeExactly(log: Log<Mutation>, batch: seq<Mutation>, es: seq<Rec<Mutation>>)
    requires Sound(es) && Entries(log) <= es && SliceOf(batch, es) && TakeBatch(log, batch).Took?
    ensures Entries(TakeBatch(log, batch).log) <= es <==> Continues(batch, |Entries(log)|)
  {
    var f := |Entries(log)|;
    if Continues(batch, f) {
      TakeBatchKeepsPrefix(log, batch, es);
    } else {
      var v := batch[0].version;
      GetContiguous(Entries(log), 0);
      AppendedEntries(log, v.term, v.txid, batch[0]);
      var log1 := Appended(log, v.term, v.txid, batch[0]);
      TakeBatchExtends(log1, batch[1..]);
      var got := Entries(TakeBatch(log, batch).log);
      assert got[f] == Entries(log1)[f];
    }
  }

  /** Terms never decrease along the log. */
  ghost predicate TermsAscend(es: seq<Rec<Mutation>>) {
    forall i, j :: 0 <= i <= j < |es| ==> es[i].term <= es[j].term
  }

  /** Whatever batch it is sent, a log whose terms never decrease keeps that: an entry of a lesser
      term than the last is not taken, and nothing after it is. */
  lemma {:induction false} TakeKeepsTerms(log: Log<Mutation>, batch: seq<Mutation>)
    requires TermsAscend(Entries(log))
    ensures TermsAscend(Entries(TakeBatch(log, batch).log))
    decreases batch
  {
    if batch != [] && batch[0].version.term >= LastTerm(Entries(log)) {
      var v := batch[0].version;
      if v.txid <= LastTxid(Entries(log)) {
        TakeKeepsTerms(log, batch[1..]);
      } else {
        AppendedEntries(log, v.term, v.txid, batch[0]);
        TakeKeepsTerms(Appended(log, v.term, v.txid, batch[0]), batch[1..]);
      }
    }
  }

  /** Told how far the leader has learned, a log commits exactly its entries up to there, beyond
      those it had committed. */
  lemma LearnsExactly(log: Log<Mutation>, learned: TXID, y: nat)
    requires Ascending(Entries(log)) && y < |Entries(log)|
    ensures y < |CommitUpTo(log, learned).0.committed| <==> y < |log.committed| || Entries(log)[y].txid <= learned
  {
    var k := Due(log.pending, learned);
    DueStops(log.pending, learned);
    if |log.committed| <= y {
      assert Entries(log)[y] == log.pending[y - |log.committed|].rec;
      if |log.committed| + k <= y {
        assert Entries(log)[|log.committed| + k] == log.pending[k].rec;
      }
    }
  }

  /** What taking an Append does: the log grows by what the batch adds, exactly the entries up to
      the id the leader has learned are committed beyond those that were, and the id generator
      stands at the end of the log. */
  lemma AppendTakenExactly(n: Node, tok: NodeId, a: Msg, y: nat)
    requires NodeOk(n) && a.Append? && TakeBatch(n.log, a.batch).Took?
    ensures var n1, es := TakeAppend(n, tok, a).node, Entries(TakeBatch(n.log, a.batch).log);
      && Entries(n1.log) == es && n1.maxGenerated == LastTxid(es) && n1.role == n.role && n1.halted == n.halted
      && (y < |es| ==> (y < |n1.log.committed| <==> y < |n.log.committed| || es[y].txid <= a.lastLearned))
  {
    var l := TakeBatch(n.log, a.batch).log;
    TakeBatchExtends(n.log, a.batch);
    if y < |Entries(l)| {
      LearnsExactly(l, a.lastLearned, y);
    }
  }

  // ----- acknowledgements --------------------------------------------------------------------

  /** The nodes whose log, of length `lens[q]`, holds the entry at position `x`. */
  function Holders(lens: seq<nat>, x: nat): set<NodeId> {
    set q: NodeId | 0 <= q < |lens| && x < lens[q]
  }

  /** Every ack recorded for a pending entry comes from a different node that holds it. */
  ghost predicate AcksTrue(p: seq<Acked<Mutation>>, base: nat, lens: seq<nat>) {
    forall x :: 0 <= x < |p| ==> NoDup(p[x].acks) && SetOf(p[x].acks) <= Holders(lens, base + x)
  }

  /** The committed entries are each held by a majority, and the acks are true. */
  ghost predicate Majority(l: Log<Mutation>, lens: seq<nat>) {
    && l.quorum > |lens| / 2
    && AcksTrue(l.pending, |l.committed|, lens)
    && forall x :: 0 <= x < |l.committed| ==> |Holders(lens, x)| > |lens| / 2
  }

  ghost predicate Longer(lens: seq<nat>, lens': seq<nat>) {
    |lens| == |lens'| && forall q :: 0 <= q < |lens| ==> lens[q] <= lens'[q]
  }

  lemma HoldersGrow(lens: seq<nat>, lens': seq<nat>, x: nat)
    requires Longer(lens, lens')
    ensures Holders(lens, x) <= Holders(lens', x)
    ensures |Holders(lens, x)| <= |Holders(lens', x)|
  {
    SubsetSize(Holders(lens, x), Holders(lens', x));
  }

  lemma MajorityGrows(l: Log<Mutation>, lens: seq<nat>, lens': seq<nat>)
    requires Majority(l, lens) && Longer(lens, lens')
    ensures Majority(l, lens')
  {
    forall x | 0 <= x < |l.pending|
      ensures SetOf(l.pending[x].acks) <= Holders(lens', |l.committed| + x)
    {
      HoldersGrow(lens, lens', |l.committed| + x);
    }
    forall x | 0 <= x < |l.committed|
      ensures |Holders(lens', x)| > |lens| / 2
    {
      HoldersGrow(lens, lens', x);
    }
  }

  /** The entries a report of `txid` from `peer` makes the log acknowledge are ones it holds:
      for the loop as written, which acknowledges the oldest pending entry whatever `txid`
      is, that takes a report at least as high as that entry. */
  predicate Supports(l: Log<Mutation>, txid: TXID) {
    l.acking.FirstPending? && l.pending != [] ==> l.pending[0].rec.txid <= txid
  }

  lemma AddAckTrue(a: Acked<Mutation>, peer: NodeId, lens: seq<nat>, x: nat)
    requires NoDup(a.acks) && SetOf(a.acks) <= Holders(lens, x)
    requires peer < |lens| && x < lens[peer]
    ensures NoDup(AddAck(a, peer).acks) && SetOf(AddAck(a, peer).acks) <= Holders(lens, x)
  {
  }

  lemma AcknowledgedTrue(l: Log<Mutation>, txid: TXID, peer: NodeId, lens: seq<nat>)
    requires Contiguous(Entries(l)) && AcksTrue(l.pending, |l.committed|, lens)
    requires peer < |lens| && txid <= lens[peer] && Supports(l, txid)
    ensures AcksTrue(Acknowledged(l, txid, peer), |l.committed|, lens)
  {
    var p, base := Acknowledged(l, txid, peer), |l.committed|;
    forall x | 0 <= x < |p|
      ensures NoDup(p[x].acks) && SetOf(p[x].acks) <= Holders(lens, base + x)
    {
      assert Entries(l)[base + x] == l.pending[x].rec;
      if p[x] != l.pending[x] {
        AddAckTrue(l.pending[x], peer, lens, base + x);
      }
    }
  }

  /** A report of what the peer really holds is recorded truthfully if and only if the log
      supports it: under the loop as written, a report below the oldest pending entry puts the
      peer down for an entry it has not got. */
  lemma AckTrueExactly(l: Log<Mutation>, txid: TXID, peer: NodeId, lens: seq<nat>)
    requires Contiguous(Entries(l)) && AcksTrue(l.pending, |l.committed|, lens)
    requires peer < |lens| && txid == lens[peer]
    ensures AcksTrue(Acknowledged(l, txid, peer), |l.committed|, lens) <==> Supports(l, txid)
  {
    if Supports(l, txid) {
      AcknowledgedTrue(l, txid, peer, lens);
    } else {
      var p, base := Acknowledged(l, txid, peer), |l.committed|;
      assert Entries(l)[base] == l.pending[0].rec;
      assert peer in SetOf(p[0].acks) && peer !in Holders(lens, base);
    }
  }

  /** An entry with a quorum of true acks is held by a majority. */
  lemma QuorumHolds(acks: seq<NodeId>, lens: seq<nat>, x: nat, quorum: nat)
    requires NoDup(acks) && SetOf(acks) <= Holders(lens, x)
    requires quorum > |lens| / 2 && quorum <= |acks|
    ensures |Holders(lens, x)| > |lens| / 2
  {
    NoDupSize(acks);
    SubsetSize(SetOf(acks), Holders(lens, x));
  }

  /** What `ack_up_to` commits is held by a majority of the nodes. */
  lemma AckKeepsMajority(l: Log<Mutation>, txid: TXID, peer: NodeId, lens: seq<nat>)
    requires Contiguous(Entries(l)) && Majority(l, lens)
    requires peer < |lens| && txid <= lens[peer] && Supports(l, txid)
    ensures Majority(AckUpTo(l, txid, peer).0, lens)
  {
    AcknowledgedTrue(l, txid, peer, lens);
    var p := Acknowledged(l, txid, peer);
    var k := Ready(p, l.quorum);
    ReadyStops(p, l.quorum);
    var l1 := AckUpTo(l, txid, peer).0;
    assert l1.committed == l.committed + Recs(p[..k]) && l1.pending == p[k..];
    forall x | 0 <= x < |l1.committed|
      ensures |Holders(lens, x)| > |lens| / 2
    {
      if x >= |l.committed| {
        QuorumHolds(p[x - |l.committed|].acks, lens, x, l.quorum);
      }
    }
    forall x | 0 <= x < |l1.pending|
      ensures NoDup(l1.pending[x].acks) && SetOf(l1.pending[x].acks) <= Holders(lens, |l1.committed| + x)
    {
      assert l1.pending[x] == p[k + x];
    }
  }

  /** A follower told to commit up to `txid` has learned at most that many entries. */
  lemma CommitBound(l: Log<Mutation>, txid: TXID)
    requires Contiguous(Entries(l))
    ensures |CommitUpTo(l, txid).0.committed| <= if |l.committed| <= txid then txid else |l.committed|
  {
    var k := Due(l.pending, txid);
    DueStops(l.pending, txid);
    if k > 0 {
      assert Entries(l)[|l.committed| + k - 1] == l.pending[k - 1].rec;
    }
  }
}
