/** What the log keeps over every sequence of operations, and how far lines 95-101 and 143 of
    src/server/acked_log.rs are from what they are meant to be. */
module LogRuns {
  import opened Types
  import opened LogSpec

  datatype Op<T> = AppendOp(term: Term, txid: TXID, entry: T) | AckOp(txid: TXID, peer: NodeId) | CommitOp(txid: TXID)

  function Do<T>(l: Log<T>, op: Op<T>): Log<T> {
    match op
    case AppendOp(term, txid, entry) => Appended(l, term, txid, entry)
    case AckOp(txid, peer) => AckUpTo(l, txid, peer).0
    case CommitOp(txid) => CommitUpTo(l, txid).0
  }

  function DoAll<T>(l: Log<T>, ops: seq<Op<T>>): Log<T> {
    if ops == [] then l else Do(DoAll(l, ops[..|ops| - 1]), ops[|ops| - 1])
  }

  /** What the operations append, in order. */
  function AppendedBy<T>(ops: seq<Op<T>>): seq<Rec<T>> {
    if ops == [] then []
    else
      var op := ops[|ops| - 1];
      AppendedBy(ops[..|ops| - 1]) + if op.AppendOp? then [Rec(op.term, op.txid, op.entry)] else []
  }

  /** Each appended id is above the last, as the assertion in `append` demands. */
  ghost predicate Allowed<T>(l: Log<T>, ops: seq<Op<T>>) {
    forall k :: 0 <= k < |ops| ==> AllowedAt(l, ops, k)
  }

  ghost predicate AllowedAt<T>(l: Log<T>, ops: seq<Op<T>>, k: nat) {
    k < |ops| && ops[k].AppendOp? ==> LastTxid(Entries(DoAll(l, ops[..k]))) < ops[k].txid
  }

  lemma AllowedPrefix<T>(l: Log<T>, ops: seq<Op<T>>)
    requires ops != [] && Allowed(l, ops)
    ensures Allowed(l, ops[..|ops| - 1]) && AllowedAt(l, ops, |ops| - 1)
  {
    var init := ops[..|ops| - 1];
    forall k | 0 <= k < |init|
      ensures AllowedAt(l, init, k)
    {
      assert AllowedAt(l, ops, k) && init[..k] == ops[..k];
    }
  }

  /** Over every sequence of operations the log lists exactly what it listed and what was
      appended since, in order; what is committed stays committed. */
  lemma {:induction false} AppendOnly<T>(l: Log<T>, ops: seq<Op<T>>)
    requires Ascending(Entries(l)) && Allowed(l, ops)
    ensures var r := DoAll(l, ops);
      && Entries(r) == Entries(l) + AppendedBy(ops) && Ascending(Entries(r))
      && l.committed <= r.committed
      && forall x: TXID :: Get(Entries(l), x).Some? ==> Get(Entries(r), x) == Get(Entries(l), x)
  {
    if ops == [] {
      assert Entries(l) + [] == Entries(l);
    } else {
      var init, op := ops[..|ops| - 1], ops[|ops| - 1];
      AllowedPrefix(l, ops);
      AppendOnly(l, init);
      OneOp(DoAll(l, init), op);
      var added := if op.AppendOp? then [Rec(op.term, op.txid, op.entry)] else [];
      assert Entries(l) + (AppendedBy(init) + added) == (Entries(l) + AppendedBy(init)) + added;
    }
    GetStays(Entries(l), Entries(DoAll(l, ops)));
  }

  lemma OneOp<T>(l: Log<T>, op: Op<T>)
    requires Ascending(Entries(l)) && (op.AppendOp? ==> LastTxid(Entries(l)) < op.txid)
    ensures var added := if op.AppendOp? then [Rec(op.term, op.txid, op.entry)] else [];
      Entries(Do(l, op)) == Entries(l) + added && Ascending(Entries(Do(l, op))) && l.committed <= Do(l, op).committed
  {
    assert Entries(l) + [] == Entries(l);
    if op.AppendOp? {
      assert Entries(Do(l, op)) == Entries(l) + [Rec(op.term, op.txid, op.entry)];
    }
  }

  lemma GetStays<T>(es: seq<Rec<T>>, es': seq<Rec<T>>)
    requires es <= es' && Ascending(es')
    ensures forall x: TXID :: Get(es, x).Some? ==> Get(es', x) == Get(es, x)
  {
    assert forall i :: 0 <= i < |es| ==> es'[i] == es[i];
    forall x: TXID | Get(es, x).Some?
      ensures Get(es', x) == Get(es, x)
    {
      GetFinds(es, x);
      GetFinds(es', x);
      var i :| 0 <= i < |es| && es[i].txid == x;
      assert es'[i].txid == x;
    }
  }

  /** Both operations report an ascending prefix of what was pending. */
  lemma ReportsPrefix<T>(l: Log<T>, txid: TXID, peer: NodeId)
    requires Ascending(Entries(l))
    ensures AckUpTo(l, txid, peer).1 <= Versions(Recs(l.pending))
    ensures CommitUpTo(l, txid).1 <= Versions(Recs(l.pending))
    ensures forall i, j :: 0 <= i < j < |l.pending| ==> Versions(Recs(l.pending))[i].txid < Versions(Recs(l.pending))[j].txid
  {
    var n := |l.committed|;
    assert forall i :: 0 <= i < |l.pending| ==> Entries(l)[n + i] == l.pending[i].rec;
  }

  // ----- acknowledging: lines 95-101 as written ------------------------------------------------

  /** The loop as written records what the intended loop would if and only if the report
      covers the oldest pending entry and no other entry, counting only entries the peer has
      not acknowledged before. */
  lemma AckAsWritten<T>(l: Log<T>, txid: TXID, peer: NodeId)
    ensures Acknowledged(l.(acking := FirstPending), txid, peer) == Acknowledged(l.(acking := UpTo), txid, peer)
      <==> forall x :: 0 <= x < |l.pending| && peer !in l.pending[x].acks ==> (l.pending[x].rec.txid <= txid <==> x == 0)
  {
    var a := Acknowledged(l.(acking := FirstPending), txid, peer);
    var b := Acknowledged(l.(acking := UpTo), txid, peer);
    forall x | 0 <= x < |l.pending|
      ensures a[x] == b[x] <==> (peer !in l.pending[x].acks ==> (l.pending[x].rec.txid <= txid <==> x == 0))
    {
      var e := l.pending[x];
      assert a[x] == if x == 0 then AddAck(e, peer) else e;
      assert b[x] == if e.rec.txid <= txid then AddAck(e, peer) else e;
      assert peer !in e.acks ==> |AddAck(e, peer).acks| == |e.acks| + 1;
    }
  }

  // ----- committing: line 143 as written -------------------------------------------------------

  /** No commit among `ops`, when it is done by argument, finds anything below its argument. */
  ghost predicate Harmless<T>(l: Log<T>, ops: seq<Op<T>>) {
    forall k :: 0 <= k < |ops| ==> HarmlessAt(l, ops, k)
  }

  ghost predicate HarmlessAt<T>(l: Log<T>, ops: seq<Op<T>>, k: nat) {
    k < |ops| && ops[k].CommitOp? ==> l.keying.ByOwnId? || NothingBelow(DoAll(l, ops[..k]), ops[k].txid)
  }

  lemma HarmlessPrefix<T>(l: Log<T>, ops: seq<Op<T>>)
    requires ops != []
    ensures Harmless(l, ops) <==> Harmless(l, ops[..|ops| - 1]) && HarmlessAt(l, ops, |ops| - 1)
  {
    var init := ops[..|ops| - 1];
    forall k | 0 <= k < |init|
      ensures HarmlessAt(l, init, k) <==> HarmlessAt(l, ops, k)
    {
      assert init[..k] == ops[..k];
    }
  }

  lemma {:induction false} KeyingStays<T>(l: Log<T>, ops: seq<Op<T>>)
    ensures DoAll(l, ops).keying == l.keying
  {
    if ops != [] {
      KeyingStays(l, ops[..|ops| - 1]);
    }
  }

  lemma {:induction false} HarmlessFaithful<T>(l: Log<T>, ops: seq<Op<T>>)
    requires Faithful(l) && Ascending(Entries(l)) && Allowed(l, ops) && Harmless(l, ops)
    ensures Faithful(DoAll(l, ops))
  {
    if ops != [] {
      var init, op := ops[..|ops| - 1], ops[|ops| - 1];
      HarmlessPrefix(l, ops);
      AllowedPrefix(l, ops);
      HarmlessFaithful(l, init);
      AppendOnly(l, init);
      KeyingStays(l, init);
      match op
      case AppendOp(_, _, _) =>
      case AckOp(txid, peer) => AckStaysFaithful(DoAll(l, init), txid, peer);
      case CommitOp(txid) => CommitFaithfulExactly(DoAll(l, init), txid);
    }
  }

  /** As long as no commit does harm, an entry found under an id is found there ever after. */
  lemma FoundForever<T>(l: Log<T>, ops: seq<Op<T>>, x: TXID)
    requires Faithful(l) && Ascending(Entries(l)) && Allowed(l, ops) && Harmless(l, ops)
    requires Find(l, x).Some?
    ensures Find(DoAll(l, ops), x) == Find(l, x)
  {
    HarmlessFaithful(l, ops);
    AppendOnly(l, ops);
    FaithfulFinds(l, x);
    FaithfulFinds(DoAll(l, ops), x);
  }

  /** What is lost once is lost for good. */
  lemma LostStays<T>(l: Log<T>, op: Op<T>, r: Rec<T>)
    requires Ascending(Entries(l)) && Lost(l, r)
    ensures Lost(Do(l, op), r)
  {
    var i :| 0 <= i < |l.committed| && l.committed[i] == r;
    assert Entries(l)[i] == r;
    assert Do(l, op).committed[i] == r;
    match op
    case AppendOp(_, _, _) =>
    case AckOp(txid, peer) =>
      var p := Acknowledged(l, txid, peer);
      LostInFile(l, Recs(p[..Ready(p, l.quorum)]), r);
    case CommitOp(txid) =>
      var es := Recs(l.pending[..Due(l.pending, txid)]);
      PendingDiffers(l, es, i);
      if l.keying.ByOwnId? {
        LostInFile(l, es, r);
      }
  }

  /** Pending entries have other ids than committed ones. */
  lemma PendingDiffers<T>(l: Log<T>, es: seq<Rec<T>>, i: nat)
    requires Ascending(Entries(l)) && i < |l.committed| && es <= Recs(l.pending)
    ensures forall j :: 0 <= j < |es| ==> es[j].txid != l.committed[i].txid
  {
    forall j | 0 <= j < |es|
      ensures es[j].txid != l.committed[i].txid
    {
      assert Entries(l)[|l.committed| + j] == es[j] && Entries(l)[i] == l.committed[i];
    }
  }

  lemma {:induction false} LostInFile<T>(l: Log<T>, es: seq<Rec<T>>, r: Rec<T>)
    requires Ascending(Entries(l)) && Lost(l, r) && es <= Recs(l.pending)
    ensures var m := Filed(l.stored, es); !(r.txid in m && m[r.txid] == r)
  {
    if es != [] {
      LostInFile(l, es[..|es| - 1], r);
      var i :| 0 <= i < |l.committed| && l.committed[i] == r;
      PendingDiffers(l, es, i);
    }
  }

  lemma {:induction false} HarmLoses<T>(l: Log<T>, ops: seq<Op<T>>) returns (r: Rec<T>)
    requires Faithful(l) && Ascending(Entries(l)) && Allowed(l, ops) && !Harmless(l, ops)
    ensures Lost(DoAll(l, ops), r)
  {
    var init, op := ops[..|ops| - 1], ops[|ops| - 1];
    HarmlessPrefix(l, ops);
    AllowedPrefix(l, ops);
    AppendOnly(l, init);
    if Harmless(l, init) {
      HarmlessFaithful(l, init);
      KeyingStays(l, init);
      OldestLost(DoAll(l, init), op.txid);
      r := DoAll(l, init).pending[0].rec;
    } else {
      r := HarmLoses(l, init);
      LostStays(DoAll(l, init), op, r);
    }
  }

  /** The maps of the line as written are, after any operations on a log that was in order, the
      maps of the intended line if and only if no commit found anything below its argument.
      Otherwise some committed entry is lost for good. */
  lemma CommitAgreesExactly<T>(l: Log<T>, ops: seq<Op<T>>)
    requires Faithful(l) && Ascending(Entries(l)) && Allowed(l, ops)
    ensures DoAll(l, ops).(keying := ByOwnId) == DoAll(l.(keying := ByOwnId), ops) <==> Harmless(l, ops)
    ensures Harmless(l, ops) <==> !exists r :: Lost(DoAll(l, ops), r)
  {
    var l1 := l.(keying := ByOwnId);
    SameHistory(l, l1, ops);
    SameAllowed(l, l1, ops);
    AppendOnly(l, ops);
    CommittedAscends(DoAll(l, ops));
    HarmlessFaithful(l1, ops);
    KeyingStays(l1, ops);
    if Harmless(l, ops) {
      HarmlessFaithful(l, ops);
      forall r | r in DoAll(l, ops).committed
        ensures !Lost(DoAll(l, ops), r)
      {
        FaithfulKeeps(DoAll(l, ops), r);
      }
    } else {
      var r := HarmLoses(l, ops);
      assert Faithful(DoAll(l, ops)) ==> !Lost(DoAll(l, ops), r) by {
        if Faithful(DoAll(l, ops)) {
          FaithfulKeeps(DoAll(l, ops), r);
        }
      }
    }
  }

  /** The two logs differ at most in how and what they have stored. */
  ghost predicate AlikeButStored<T>(l: Log<T>, l1: Log<T>) {
    l1 == l.(stored := l1.stored, keying := l1.keying)
  }

  lemma {:induction false} SameHistory<T>(l: Log<T>, l1: Log<T>, ops: seq<Op<T>>)
    requires AlikeButStored(l, l1)
    ensures AlikeButStored(DoAll(l, ops), DoAll(l1, ops))
  {
    if ops != [] {
      var init, op := ops[..|ops| - 1], ops[|ops| - 1];
      SameHistory(l, l1, init);
      SameStep(DoAll(l, init), DoAll(l1, init), op);
    }
  }

  lemma SameStep<T>(l: Log<T>, l1: Log<T>, op: Op<T>)
    requires AlikeButStored(l, l1)
    ensures AlikeButStored(Do(l, op), Do(l1, op))
  {
  }

  lemma SameAllowed<T>(l: Log<T>, l1: Log<T>, ops: seq<Op<T>>)
    requires AlikeButStored(l, l1) && Allowed(l, ops)
    ensures Allowed(l1, ops)
  {
    forall k | 0 <= k < |ops|
      ensures AllowedAt(l1, ops, k)
    {
      assert AllowedAt(l, ops, k);
      SameHistory(l, l1, ops[..k]);
    }
  }

  lemma OneMoreOp<T>(l: Log<T>, ops: seq<Op<T>>, op: Op<T>)
    ensures DoAll(l, ops + [op]) == Do(DoAll(l, ops), op)
  {
    assert (ops + [op])[..|ops|] == ops;
  }

  /** The log with `es` committed, `stored` stored and `pending` pending, none acknowledged. */
  function LogWith<T>(es: seq<Rec<T>>, stored: map<TXID, Rec<T>>, pending: seq<Rec<T>>,
                      quorum: nat, acking: Acking): Log<T> {
    Log(es, stored, seq(|pending|, i requires 0 <= i < |pending| => Acked([], pending[i])), quorum, acking, ByArgument)
  }

  lemma ThenAppend<T>(e: Log<T>, ops: seq<Op<T>>, es: seq<Rec<T>>, stored: map<TXID, Rec<T>>, pending: seq<Rec<T>>,
                      r: Rec<T>)
      returns (ops': seq<Op<T>>)
    requires DoAll(e, ops) == LogWith(es, stored, pending, e.quorum, e.acking)
    ensures DoAll(e, ops') == LogWith(es, stored, pending + [r], e.quorum, e.acking)
  {
    OneMoreOp(e, ops, AppendOp(r.term, r.txid, r.entry));
    ops' := ops + [AppendOp(r.term, r.txid, r.entry)];
    assert DoAll(e, ops').pending == LogWith(es, stored, pending + [r], e.quorum, e.acking).pending;
  }

  lemma ThenCommit<T>(e: Log<T>, ops: seq<Op<T>>, es: seq<Rec<T>>, stored: map<TXID, Rec<T>>, pending: seq<Rec<T>>,
                      txid: TXID)
      returns (ops': seq<Op<T>>)
    requires DoAll(e, ops) == LogWith(es, stored, pending, e.quorum, e.acking) && pending != []
    requires forall i :: 0 <= i < |pending| ==> pending[i].txid <= txid
    ensures DoAll(e, ops') == LogWith(es + pending, stored[txid := pending[|pending| - 1]], [], e.quorum, e.acking)
  {
    OneMoreOp(e, ops, CommitOp(txid));
    ops' := ops + [CommitOp(txid)];
    var p := DoAll(e, ops).pending;
    AllDue(p, txid);
    assert p[..|p|] == p && Recs(p) == pending && p[|p|..] == [];
  }

  lemma {:induction false} AllDue<T>(p: seq<Acked<T>>, txid: TXID)
    requires forall i :: 0 <= i < |p| ==> p[i].rec.txid <= txid
    ensures Due(p, txid) == |p|
  {
    if p != [] {
      AllDue(p[1..], txid);
    }
  }

  /** Worse than lost: when write 1 is committed up to 3, and then 2, 3 and 4 up to 4, what is
      found under 3 is write 1, so learning 3 does write 1 again. */
  lemma StaleEntry<T>(a: T, b: T, c: T, d: T, quorum: nat, acking: Acking) returns (ops: seq<Op<T>>)
    ensures var empty := Log([], map[], [], quorum, acking, ByArgument); var l := DoAll(empty, ops);
      && l.committed == [Rec(1, 1, a), Rec(1, 2, b), Rec(1, 3, c), Rec(1, 4, d)]
      && Find(l, 1) == None && Find(l, 2) == None && Find(l, 3) == Some(a) && Find(l, 4) == Some(d)
  {
    var e := Log([], map[], [], quorum, acking, ByArgument);
    var r1, r2, r3, r4 := Rec(1, 1, a), Rec(1, 2, b), Rec(1, 3, c), Rec(1, 4, d);
    ops := FirstCommit(e, r1);
    ops := ThreeAppends(e, ops, r1, r2, r3, r4);
    ops := SecondCommit(e, ops, r1, r2, r3, r4);
    NothingPending(DoAll(e, ops));
  }

  lemma SecondCommit<T>(e: Log<T>, ops: seq<Op<T>>, r1: Rec<T>, r2: Rec<T>, r3: Rec<T>, r4: Rec<T>)
      returns (ops': seq<Op<T>>)
    requires DoAll(e, ops) == LogWith([r1], map[3 := r1], [] + [r2] + [r3] + [r4], e.quorum, e.acking)
    requires r2.txid <= 4 && r3.txid <= 4 && r4.txid <= 4
    ensures DoAll(e, ops').committed == [r1, r2, r3, r4] && DoAll(e, ops').pending == []
    ensures DoAll(e, ops').stored == map[3 := r1, 4 := r4]
  {
    ops' := ThenCommit(e, ops, [r1], map[3 := r1], [] + [r2] + [r3] + [r4], 4);
  }

  lemma ThreeAppends<T>(e: Log<T>, ops: seq<Op<T>>, r1: Rec<T>, r2: Rec<T>, r3: Rec<T>, r4: Rec<T>)
      returns (ops': seq<Op<T>>)
    requires DoAll(e, ops) == LogWith([r1], map[3 := r1], [], e.quorum, e.acking)
    ensures DoAll(e, ops') == LogWith([r1], map[3 := r1], [] + [r2] + [r3] + [r4], e.quorum, e.acking)
  {
    ops' := ThenAppend(e, ops, [r1], map[3 := r1], [], r2);
    ops' := ThenAppend(e, ops', [r1], map[3 := r1], [] + [r2], r3);
    ops' := ThenAppend(e, ops', [r1], map[3 := r1], [] + [r2] + [r3], r4);
  }

  lemma FirstCommit<T>(e: Log<T>, r1: Rec<T>) returns (ops: seq<Op<T>>)
    requires e == Log([], map[], [], e.quorum, e.acking, ByArgument) && r1.txid == 1
    ensures DoAll(e, ops) == LogWith([r1], map[3 := r1], [], e.quorum, e.acking)
  {
    ops := ThenAppend(e, [], [], map[], [], r1);
    ops := ThenCommit(e, ops, [], map[], [] + [r1], 3);
    assert [] + ([] + [r1]) == [r1];
  }

  lemma NothingPending<T>(l: Log<T>)
    requires l.pending == []
    ensures forall x: TXID :: Find(l, x) == if x in l.stored then Some(l.stored[x].entry) else None
  {
  }
}
