/** The output queue of one connection (src/server/server_conn.rs, `notify` in
    src/server/traffic_cop.rs): partial writes hand the socket exactly the frames in order. */
module Outgoing {
  import opened Types
  import opened Framing

  datatype Interest = Hup | Readable | Writing

  /** What the socket answers to one write: nothing fits, `n` bytes taken, or an error. */
  datatype WriteResult = WouldBlock | Wrote(n: nat) | Failed

  lemma {:induction false} ConcatSnoc(bufs: seq<Bytes>, b: Bytes)
    ensures Concat(bufs + [b]) == Concat(bufs) + b
  {
    if bufs == [] {
      assert bufs + [b] == [b] && Concat([b]) == b + Concat([]);
    } else {
      ConcatSnoc(bufs[1..], b);
      assert (bufs + [b])[1..] == bufs[1..] + [b];
    }
  }

  lemma {:induction false} EncodeAllSnoc(ms: seq<Bytes>, m: Bytes)
    ensures EncodeAll(ms + [m]) == EncodeAll(ms) + Encode(m)
  {
    if ms == [] {
      assert ms + [m] == [m] && EncodeAll([m]) == Encode(m) + EncodeAll([]);
    } else {
      EncodeAllSnoc(ms[1..], m);
      assert (ms + [m])[1..] == ms[1..] + [m];
    }
  }

  /** One more frame at the end of the queue is one more message at the end of the stream. */
  lemma Queued(wire: Bytes, bufs: seq<Bytes>, sent: seq<Bytes>, m: Bytes)
    requires wire + Concat(bufs) == EncodeAll(sent)
    ensures wire + Concat(bufs + [Encode(m)]) == EncodeAll(sent + [m])
    ensures |Concat(bufs + [Encode(m)])| == |Concat(bufs)| + |Encode(m)|
    ensures Encode(m) != []
  {
    ConcatSnoc(bufs, Encode(m));
    EncodeAllSnoc(sent, m);
    assert wire + (Concat(bufs) + Encode(m)) == (wire + Concat(bufs)) + Encode(m);
  }

  /** What is left of a queue when `n` bytes of its oldest frame have been written. */
  function Rest(bufs: seq<Bytes>, n: nat): seq<Bytes>
    requires bufs != [] && n <= |bufs[0]|
  {
    if n == |bufs[0]| then bufs[1..] else [bufs[0][n..]] + bufs[1..]
  }

  class ServerConn {
    /** What is left to write of each queued frame, the oldest first. */
    var resBufs: seq<Bytes>
    var resRemaining: nat
    var interest: set<Interest>
    /** Every byte the socket has taken. */
    ghost var wire: Bytes
    /** Every message enqueued. */
    ghost var sent: seq<Bytes>

    ghost predicate Valid()
      reads this
    {
      && wire + Concat(resBufs) == EncodeAll(sent)
      && resRemaining == |Concat(resBufs)|
      && (forall i :: 0 <= i < |resBufs| ==> resBufs[i] != [])
      && (resRemaining > 0 ==> Writing in interest)
    }

    constructor ()
      ensures Valid() && wire == [] && sent == [] && resBufs == [] && interest == {Hup}
    {
      resBufs, resRemaining, interest := [], 0, {Hup};
      wire, sent := [], [];
    }

    /** `notify` for one connection: frames the message and queues it. */
    method Enqueue(m: Bytes)
      requires Valid()
      modifies this
      ensures Valid()
      ensures sent == old(sent) + [m] && wire == old(wire)
      ensures resBufs == old(resBufs) + [Encode(m)] && interest == old(interest) + {Writing}
      ensures resRemaining == old(resRemaining) + 4 + |m|
    {
      var res := Encode(m);
      Queued(wire, resBufs, sent, m);
      resRemaining := resRemaining + |res|;
      resBufs := resBufs + [res];
      interest := interest + {Writing};
      sent := sent + [m];
    }

    /** `writable`: offers the oldest frame to the socket, which takes a prefix of it. The books
        stay balanced exactly if the socket reports no error: an error loses that frame, which
        `resRemaining` goes on counting. */
    method Writable(result: WriteResult) returns (ok: bool)
      requires Valid()
      requires result.Wrote? && resBufs != [] ==> result.n <= |resBufs[0]|
      modifies this
      ensures ok <==> old(resBufs) == [] || !result.Failed?
      ensures sent == old(sent) && (ok <==> Valid())
      ensures old(resBufs) == [] ==> resBufs == [] && unchanged(this)
      ensures old(resBufs) != [] && result.WouldBlock? ==>
        wire == old(wire) && resBufs == old(resBufs) && interest == old(interest) + {Writing}
      ensures old(resBufs) != [] && result.Wrote? ==>
        && wire == old(wire) + old(resBufs)[0][..result.n]
        && resBufs == Rest(old(resBufs), result.n) && resRemaining == old(resRemaining) - result.n
        && interest == if resRemaining == 0 then old(interest) + {Readable} - {Writing} else old(interest)
      ensures !ok ==>
        wire == old(wire) && resBufs == old(resBufs)[1..] && unchanged(`resRemaining) && unchanged(`interest)
    {
      if |resBufs| == 0 {
        return true;
      }
      var resBuf := resBufs[0];
      resBufs := resBufs[1..];
      assert Concat(old(resBufs)) == resBuf + Concat(resBufs);
      match result {
        case WouldBlock =>
          interest := interest + {Writing};
        case Wrote(n) =>
          assert wire + (resBuf + Concat(resBufs)) == (wire + resBuf[..n]) + (resBuf[n..] + Concat(resBufs));
          resRemaining := resRemaining - n;
          wire := wire + resBuf[..n];
          resBuf := resBuf[n..];
          if resRemaining == 0 {
            interest := interest + {Readable} - {Writing};
          }
        case Failed =>
          assert |Concat(resBufs)| < |Concat(old(resBufs))|;
          return false;
      }
      if |resBuf| != 0 {
        assert Concat([resBuf] + resBufs) == resBuf + Concat(resBufs);
        resBufs := [resBuf] + resBufs;
      } else {
        assert resBuf + Concat(resBufs) == Concat(resBufs);
      }
      return true;
    }
  }

  /** End to end: whatever a connection has put on the wire, however the reader's buffer cuts
      it into chunks, decodes to a prefix of the messages enqueued, and to all of them once the
      queue is empty. */
  lemma Delivery(sent: seq<Bytes>, wire: Bytes, queued: Bytes, chunks: seq<Bytes>)
    requires forall i :: 0 <= i < |sent| ==> |sent[i]| < TWO_TO_32
    requires wire + queued == EncodeAll(sent)
    requires Concat(chunks) == wire
    ensures FeedChunks(START, chunks).1 <= sent
    ensures queued == [] ==> FeedChunks(START, chunks) == (START, sent)
  {
    ChunkingIrrelevant(START, chunks);
    StreamRoundTrip(sent);
    FeedSplit(START, wire, queued);
    assert queued == [] ==> wire + queued == wire;
  }
}
