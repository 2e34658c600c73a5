/** The length-prefixed wire codec of src/codec.rs: a decoder that copies whole runs of bytes
    refines one that takes a byte at a time, which undoes the encoder under any chunking. */
module Framing {
  import opened Types

  /** `usize_to_array`: the low 32 bits, most significant byte first. */
  function UsizeToArray(u: nat): (r: Bytes)
    ensures |r| == 4
  {
    [(u / 0x100_0000 % 256) as byte, (u / 0x1_0000 % 256) as byte, (u / 0x100 % 256) as byte, (u % 256) as byte]
  }

  function ArrayToUsize(a: Bytes): nat
    requires |a| == 4
  {
    a[0] as nat * 0x100_0000 + a[1] as nat * 0x1_0000 + a[2] as nat * 0x100 + a[3] as nat
  }

  /** The four base-256 digits of the low 32 bits. */
  lemma Digits(u: nat)
    ensures ArrayToUsize(UsizeToArray(u)) == u % TWO_TO_32
  {
    var b0, b1, b2 := u / 0x100, u / 0x1_0000, u / 0x100_0000;
    assert b1 == b0 / 256 && b2 == b1 / 256;
    assert u == b0 * 256 + u % 256 && b0 == b1 * 256 + b0 % 256 && b1 == b2 * 256 + b1 % 256;
    var low := b2 % 256 * 0x100_0000 + b1 % 256 * 0x1_0000 + b0 % 256 * 0x100 + u % 256;
    assert u == b2 / 256 * TWO_TO_32 + low;
  }

  lemma Denoted(a: Bytes)
    requires |a| == 4
    ensures ArrayToUsize(a) < TWO_TO_32 && UsizeToArray(ArrayToUsize(a)) == a
  {
    var u := ArrayToUsize(a);
    assert u / 0x100_0000 == a[0] as nat;
    assert u / 0x1_0000 == a[0] as nat * 0x100 + a[1] as nat;
    assert u / 0x100 == a[0] as nat * 0x1_0000 + a[1] as nat * 0x100 + a[2] as nat;
  }

  /** The length survives exactly when it fits in 32 bits, and every four bytes are the image
      of the length they denote. */
  lemma LengthRoundTrip(u: nat, a: Bytes)
    requires |a| == 4
    ensures ArrayToUsize(UsizeToArray(u)) == u % TWO_TO_32
    ensures ArrayToUsize(UsizeToArray(u)) == u <==> u < TWO_TO_32
    ensures ArrayToUsize(a) < TWO_TO_32 && UsizeToArray(ArrayToUsize(a)) == a
  {
    Digits(u);
    Denoted(a);
  }

  /** The most significant byte comes first. */
  lemma BigEndian(u: nat)
    requires u < TWO_TO_32
    ensures var b := UsizeToArray(u);
      u == b[0] as nat * 0x100_0000 + b[1] as nat * 0x1_0000 + b[2] as nat * 0x100 + b[3] as nat
    ensures u < 256 ==> UsizeToArray(u) == [0, 0, 0, u as byte]
  {
    Digits(u);
  }

  function Encode(m: Bytes): Bytes {
    UsizeToArray(|m|) + m
  }

  function EncodeAll(ms: seq<Bytes>): Bytes {
    if ms == [] then [] else Encode(ms[0]) + EncodeAll(ms[1..])
  }

  // ----- a decoder that takes a byte at a time -------------------------------------------------

  /** Waiting for the rest of a size, or for the rest of a message of known size. */
  datatype State = Sizing(sz: Bytes) | Filling(size: nat, got: Bytes)

  const START: State := Sizing([])

  function Feed1(st: State, b: byte): (State, seq<Bytes>) {
    match st
    case Sizing(sz) =>
      var sz1 := sz + [b];
      if |sz1| != 4 then (Sizing(sz1), []) else Opened(ArrayToUsize(sz1))
    case Filling(size, got) => Filled(size, got + [b])
  }

  /** A size is known: an empty message is complete at once. */
  function Opened(size: nat): (State, seq<Bytes>) {
    if size == 0 then (START, [[]]) else (Filling(size, []), [])
  }

  function Filled(size: nat, got: Bytes): (State, seq<Bytes>) {
    if |got| == size then (START, [got]) else (Filling(size, got), [])
  }

  function Feed(st: State, bs: Bytes): (State, seq<Bytes>)
    decreases bs
  {
    if bs == [] then (st, [])
    else
      var first := Feed1(st, bs[0]);
      var rest := Feed(first.0, bs[1..]);
      (rest.0, first.1 + rest.1)
  }

  /** A byte that completes nothing only changes the state. */
  lemma FeedSilent(st: State, bs: Bytes)
    requires bs != [] && Feed1(st, bs[0]).1 == []
    ensures Feed(st, bs) == Feed(Feed1(st, bs[0]).0, bs[1..])
  {
    var rest := Feed(Feed1(st, bs[0]).0, bs[1..]);
    assert [] + rest.1 == rest.1;
  }

  lemma FeedLast(st: State, bs: Bytes)
    requires |bs| == 1
    ensures Feed(st, bs) == Feed1(st, bs[0])
  {
    var first := Feed1(st, bs[0]);
    assert bs[1..] == [] && Feed(first.0, []) == (first.0, []);
    assert first.1 + [] == first.1;
  }

  lemma FeedFirst(st: State, a: Bytes, b: Bytes)
    requires a != []
    ensures var first := Feed1(st, a[0]); var rest := Feed(first.0, a[1..] + b);
      Feed(st, a + b) == (rest.0, first.1 + rest.1)
  {
    assert (a + b)[1..] == a[1..] + b;
  }

  /** Decoding `a` and then `b` is decoding `a + b`. */
  lemma {:induction false} FeedSplit(st: State, a: Bytes, b: Bytes)
    ensures var x := Feed(st, a); var y := Feed(x.0, b); Feed(st, a + b) == (y.0, x.1 + y.1)
    decreases a
  {
    if a == [] {
      assert a + b == b;
      assert [] + Feed(st, b).1 == Feed(st, b).1;
    } else {
      var first := Feed1(st, a[0]);
      FeedSplit(first.0, a[1..], b);
      FeedFirst(st, a, b);
      var x := Feed(first.0, a[1..]);
      var y := Feed(x.0, b);
      assert first.1 + (x.1 + y.1) == (first.1 + x.1) + y.1;
    }
  }

  /** Bytes that do not complete the size are only kept. */
  lemma {:induction false} FeedSizing(sz: Bytes, bs: Bytes)
    requires |sz| < 4 && |sz| + |bs| <= 4
    ensures Feed(Sizing(sz), bs) ==
      if |sz| + |bs| == 4 then Opened(ArrayToUsize(sz + bs)) else (Sizing(sz + bs), [])
    decreases bs
  {
    if bs == [] {
      assert sz + bs == sz;
    } else {
      assert (sz + [bs[0]]) + bs[1..] == sz + bs;
      if |sz| + 1 < 4 {
        FeedSilent(Sizing(sz), bs);
        FeedSizing(sz + [bs[0]], bs[1..]);
      } else {
        FeedLast(Sizing(sz), bs);
        assert bs == [bs[0]];
      }
    }
  }

  /** Bytes up to the end of the message are only kept; the last one completes it. */
  lemma {:induction false} FeedFilling(size: nat, got: Bytes, bs: Bytes)
    requires |got| < size && |got| + |bs| <= size
    ensures Feed(Filling(size, got), bs) == Filled(size, got + bs)
    decreases bs
  {
    if bs == [] {
      assert got + bs == got;
    } else {
      assert (got + [bs[0]]) + bs[1..] == got + bs;
      if |got| + 1 < size {
        FeedSilent(Filling(size, got), bs);
        FeedFilling(size, got + [bs[0]], bs[1..]);
      } else {
        FeedLast(Filling(size, got), bs);
        assert bs == [bs[0]];
      }
    }
  }

  /** One frame decodes to its message and leaves the decoder where it was. */
  lemma FrameRoundTrip(m: Bytes)
    requires |m| < TWO_TO_32
    ensures Feed(START, Encode(m)) == (START, [m])
  {
    var sz := UsizeToArray(|m|);
    LengthRoundTrip(|m|, sz);
    FeedSizing([], sz);
    assert [] + sz == sz;
    FeedSplit(START, sz, m);
    if m == [] {
      assert Encode(m) == sz;
    } else {
      FeedFilling(|m|, [], m);
      assert [] + m == m;
      assert [] + [m] == [m];
    }
  }

  /** For a longer message the frame announces another length: a frame decodes to exactly its
      message if and only if the length fits in 32 bits. */
  lemma FrameExactly(m: Bytes)
    ensures Feed(START, Encode(m)).1 == [m] <==> |m| < TWO_TO_32
  {
    if |m| < TWO_TO_32 {
      FrameRoundTrip(m);
    } else {
      var sz := UsizeToArray(|m|);
      var size := ArrayToUsize(sz);
      LengthRoundTrip(|m|, sz);
      FeedSizing([], sz);
      assert [] + sz == sz;
      FeedSplit(START, sz, m);
      if size > 0 {
        var a, b := m[..size], m[size..];
        FeedFilling(size, [], a);
        assert [] + a == a && m == a + b;
        FeedSplit(Filling(size, []), a, b);
        assert Feed(START, Encode(m)).1 == [] + ([a] + Feed(START, b).1);
        assert Feed(START, Encode(m)).1[0] == a;
      } else {
        assert Feed(START, Encode(m)).1 == [[]] + Feed(START, m).1;
        assert Feed(START, Encode(m)).1[0] == [];
      }
    }
  }

  lemma {:induction false} StreamRoundTrip(ms: seq<Bytes>)
    requires forall i :: 0 <= i < |ms| ==> |ms[i]| < TWO_TO_32
    ensures Feed(START, EncodeAll(ms)) == (START, ms)
  {
    if ms != [] {
      FrameRoundTrip(ms[0]);
      StreamRoundTrip(ms[1..]);
      FeedSplit(START, Encode(ms[0]), EncodeAll(ms[1..]));
      assert [ms[0]] + ms[1..] == ms;
    }
  }

  // ----- chunks --------------------------------------------------------------------------------

  function Concat(chunks: seq<Bytes>): Bytes {
    if chunks == [] then [] else chunks[0] + Concat(chunks[1..])
  }

  /** What a decoder that is handed the chunks one after the other puts out in all. */
  function FeedChunks(st: State, chunks: seq<Bytes>): (State, seq<Bytes>)
    decreases chunks
  {
    if chunks == [] then (st, [])
    else
      var first := Feed(st, chunks[0]);
      var rest := FeedChunks(first.0, chunks[1..]);
      (rest.0, first.1 + rest.1)
  }

  lemma {:induction false} ChunkingIrrelevant(st: State, chunks: seq<Bytes>)
    ensures FeedChunks(st, chunks) == Feed(st, Concat(chunks))
    decreases chunks
  {
    if chunks != [] {
      ChunkingIrrelevant(Feed(st, chunks[0]).0, chunks[1..]);
      FeedSplit(st, chunks[0], Concat(chunks[1..]));
    }
  }

  /** However the encodings are cut into chunks, the decoder puts out exactly the messages. */
  lemma CodecRoundTrip(ms: seq<Bytes>, chunks: seq<Bytes>)
    requires forall i :: 0 <= i < |ms| ==> |ms[i]| < TWO_TO_32
    requires Concat(chunks) == EncodeAll(ms)
    ensures FeedChunks(START, chunks) == (START, ms)
  {
    ChunkingIrrelevant(START, chunks);
    StreamRoundTrip(ms);
  }

  /** `res` and the decoding of `rest` from `st` make up `all`. */
  ghost predicate Remains(all: (State, seq<Bytes>), st: State, res: seq<Bytes>, rest: Bytes) {
    all == (Feed(st, rest).0, res + Feed(st, rest).1)
  }

  lemma Begin(st: State, bs: Bytes)
    ensures Remains(Feed(st, bs), st, [], bs)
  {
    assert [] + Feed(st, bs).1 == Feed(st, bs).1;
  }

  lemma Consume(all: (State, seq<Bytes>), st: State, res: seq<Bytes>, rest: Bytes, k: nat)
    requires k <= |rest| && Remains(all, st, res, rest)
    ensures var x := Feed(st, rest[..k]); Remains(all, x.0, res + x.1, rest[k..])
  {
    var x := Feed(st, rest[..k]);
    var y := Feed(x.0, rest[k..]);
    FeedSplit(st, rest[..k], rest[k..]);
    assert rest[..k] + rest[k..] == rest;
    assert res + (x.1 + y.1) == (res + x.1) + y.1;
  }

  lemma Finish(all: (State, seq<Bytes>), st: State, res: seq<Bytes>)
    requires Remains(all, st, res, [])
    ensures all == (st, res)
  {
    assert res + [] == res;
  }

  // ----- the decoder that copies runs of bytes -------------------------------------------------

  /** A message being read: its size and the bytes read so far. */
  datatype Partial = Partial(size: nat, got: Bytes)

  class Framed {
    var szBuf: Bytes
    var msg: Option<Partial>

    ghost predicate Valid()
      reads this
    {
      && (msg.None? ==> |szBuf| < 4)
      && (msg.Some? ==> |szBuf| == 4 && |msg.value.got| < msg.value.size)
    }

    ghost function View(): State
      reads this
    {
      if msg.None? then Sizing(szBuf) else Filling(msg.value.size, msg.value.got)
    }

    constructor ()
      ensures Valid() && View() == START
    {
      szBuf, msg := [], None;
    }

    /** Decodes as many messages as `buf` completes. */
    method Decode(buf: Bytes) returns (res: seq<Bytes>)
      requires Valid()
      modifies this
      ensures Valid() && (View(), res) == Feed(old(View()), buf)
    {
      res := [];
      var rest := buf;
      ghost var all := Feed(View(), buf);
      Begin(View(), buf);
      while true
        invariant Valid()
        invariant Remains(all, View(), res, rest)
        decreases |rest|, if msg.None? then 1 else 0
      {
        if msg.None? {
          var k := if |rest| < 4 - |szBuf| then |rest| else 4 - |szBuf|;
          FeedSizing(szBuf, rest[..k]);
          Consume(all, View(), res, rest, k);
          assert res + [] == res;
          szBuf := szBuf + rest[..k];
          rest := rest[k..];
          if |szBuf| != 4 {
            break;
          }
          msg := Some(Partial(ArrayToUsize(szBuf), []));
        }
        var m := msg.value;
        var k := if |rest| < m.size - |m.got| then |rest| else m.size - |m.got|;
        if m.size > 0 {
          FeedFilling(m.size, m.got, rest[..k]);
          Consume(all, View(), res, rest, k);
          assert res + [] == res;
        }
        var got := m.got + rest[..k];
        rest := rest[k..];
        if |got| == m.size {
          szBuf, msg := [], None;
          res := res + [got];
        } else {
          msg := Some(Partial(m.size, got));
          break;
        }
      }
      Finish(all, View(), res);
    }
  }
}
