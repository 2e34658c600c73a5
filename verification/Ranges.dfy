/** Half-open key ranges and their order (src/range_bounds.rs), over byte strings in the
    lexicographic order of `Vec<u8>`. */
module Ranges {
  import opened Types

  predicate Less(a: Bytes, b: Bytes) {
    b != [] && (a == [] || a[0] < b[0] || (a[0] == b[0] && Less(a[1..], b[1..])))
  }

  lemma {:induction false} LessTrichotomy(a: Bytes, b: Bytes)
    ensures Less(a, b) || a == b || Less(b, a)
    ensures !(Less(a, b) && (a == b || Less(b, a)))
  {
    if a != [] && b != [] && a[0] == b[0] {
      LessTrichotomy(a[1..], b[1..]);
      assert a == [a[0]] + a[1..] && b == [b[0]] + b[1..];
    } else if a == b == [] {
      assert !Less(a, b);
    }
  }

  lemma {:induction false} LessTransitive(a: Bytes, b: Bytes, c: Bytes)
    requires Less(a, b) && Less(b, c)
    ensures Less(a, c)
  {
    if a != [] && a[0] == b[0] == c[0] {
      LessTransitive(a[1..], b[1..], c[1..]);
    }
  }

  /** `a` and `b` are alike before position `i`, and there `a` ends or has the smaller byte. */
  predicate SmallerAt(a: Bytes, b: Bytes, i: nat) {
    i <= |a| && i < |b| && a[..i] == b[..i] && (i == |a| || a[i] < b[i])
  }

  /** A string is below another exactly when it is a proper prefix of it or has the smaller byte
      where they first differ. */
  lemma {:induction false} LessExactly(a: Bytes, b: Bytes)
    ensures Less(a, b) <==> exists i: nat :: SmallerAt(a, b, i)
  {
    if a == [] || b == [] || a[0] != b[0] {
      assert Less(a, b) ==> SmallerAt(a, b, 0);
      forall i: nat | SmallerAt(a, b, i)
        ensures Less(a, b)
      {
        FirstBytes(a, b, i);
      }
    } else {
      LessExactly(a[1..], b[1..]);
      forall i: nat
        ensures SmallerAt(a[1..], b[1..], i) <==> SmallerAt(a, b, i + 1)
      {
        OneByteMore(a, b, i);
      }
      assert !SmallerAt(a, b, 0);
      if i: nat :| SmallerAt(a, b, i) {
        assert SmallerAt(a, b, i - 1 + 1);
        assert SmallerAt(a[1..], b[1..], i - 1);
      }
      if i: nat :| SmallerAt(a[1..], b[1..], i) {
        assert SmallerAt(a, b, i + 1);
      }
    }
  }

  lemma FirstBytes(a: Bytes, b: Bytes, i: nat)
    requires i <= |a| && i <= |b| && a[..i] == b[..i]
    ensures i > 0 ==> a[0] == b[0]
  {
    if i > 0 {
      assert a[0] == a[..i][0] && b[0] == b[..i][0];
    }
  }

  lemma OneByteMore(a: Bytes, b: Bytes, i: nat)
    requires a != [] && b != [] && a[0] == b[0]
    ensures SmallerAt(a[1..], b[1..], i) <==> SmallerAt(a, b, i + 1)
  {
    if i + 1 <= |a| && i + 1 <= |b| {
      assert a[..i + 1] == [a[0]] + a[1..][..i] && b[..i + 1] == [b[0]] + b[1..][..i];
    }
  }

  datatype Ordering = Before | Overlapping | Behind

  datatype RangeBounds = RangeBounds(lower: Bytes, upper: Bytes) {
    ghost predicate Valid() {
      Less(lower, upper)
    }

    ghost predicate Contains(key: Bytes) {
      !Less(key, lower) && Less(key, upper)
    }

    /** `cmp`; `Overlapping` is the source's `Equal`. */
    function Cmp(other: RangeBounds): Ordering {
      if !Less(other.lower, upper) then Before
      else if !Less(lower, other.upper) then Behind
      else Overlapping
    }
  }

  /** A range is built exactly when it holds some key. */
  function New(lower: Bytes, upper: Bytes): (r: Option<RangeBounds>) {
    if !Less(lower, upper) then None else Some(RangeBounds(lower, upper))
  }

  lemma NewExactly(lower: Bytes, upper: Bytes)
    ensures New(lower, upper).Some? <==> exists key :: RangeBounds(lower, upper).Contains(key)
    ensures New(lower, upper).Some? ==> New(lower, upper).value == RangeBounds(lower, upper)
  {
    var r := RangeBounds(lower, upper);
    if Less(lower, upper) {
      LessTrichotomy(lower, lower);
      assert r.Contains(lower);
    }
    forall key | r.Contains(key)
      ensures Less(lower, upper)
    {
      LessTrichotomy(lower, key);
      if lower != key {
        LessTransitive(lower, key, upper);
      }
    }
  }

  ghost predicate Share(r: RangeBounds, s: RangeBounds) {
    exists key :: r.Contains(key) && s.Contains(key)
  }

  /** Keys of a range that is before another are below every key of that other. */
  lemma BeforeSeparates(r: RangeBounds, s: RangeBounds, a: Bytes, b: Bytes)
    requires r.Cmp(s) == Before && r.Contains(a) && s.Contains(b)
    ensures Less(a, b)
  {
    LessTrichotomy(s.lower, r.upper);
    if r.upper != s.lower {
      LessTransitive(a, r.upper, s.lower);
    }
    LessTrichotomy(s.lower, b);
    if s.lower != b {
      LessTransitive(a, s.lower, b);
    }
  }

  lemma CmpFlips(r: RangeBounds, s: RangeBounds)
    requires r.Valid() && s.Valid()
    ensures r.Cmp(s) == Before <==> s.Cmp(r) == Behind
    ensures r.Cmp(s) == Overlapping <==> s.Cmp(r) == Overlapping
  {
    if !Less(s.lower, r.upper) && !Less(r.lower, s.upper) {
      LessTrichotomy(s.lower, r.upper);
      LessTrichotomy(r.lower, s.upper);
      if r.upper != s.lower {
        LessTransitive(r.upper, s.lower, s.upper);
      }
      if s.upper != r.lower {
        LessTransitive(r.upper, s.upper, r.lower);
      }
      LessTrichotomy(r.lower, r.upper);
      assert false;
    }
  }

  /** Two ranges compare equal exactly when they share a key. */
  lemma EqualExactly(r: RangeBounds, s: RangeBounds)
    requires r.Valid() && s.Valid()
    ensures r.Cmp(s) == Overlapping <==> Share(r, s)
  {
    if r.Cmp(s) == Overlapping {
      LessTrichotomy(r.lower, s.lower);
      LessTrichotomy(r.lower, r.lower);
      LessTrichotomy(s.lower, s.lower);
      var key := if Less(r.lower, s.lower) then s.lower else r.lower;
      assert r.Contains(key) && s.Contains(key);
    } else {
      CmpFlips(r, s);
      forall key | r.Contains(key) && s.Contains(key)
        ensures false
      {
        LessTrichotomy(key, key);
        if r.Cmp(s) == Before {
          BeforeSeparates(r, s, key, key);
        } else {
          BeforeSeparates(s, r, key, key);
        }
      }
    }
  }

  lemma BeforeTransitive(r: RangeBounds, s: RangeBounds, t: RangeBounds)
    requires r.Valid() && s.Valid() && t.Valid()
    requires r.Cmp(s) == Before && s.Cmp(t) == Before
    ensures r.Cmp(t) == Before
  {
    LessTrichotomy(s.lower, r.upper);
    LessTrichotomy(t.lower, s.upper);
    if Less(t.lower, r.upper) {
      if s.lower != r.upper {
        LessTransitive(t.lower, r.upper, s.lower);
      }
      LessTransitive(t.lower, s.lower, s.upper);
      LessTrichotomy(t.lower, s.upper);
    }
  }

  /** `cmp` tells every two members of the set apart, one way round. */
  ghost predicate TotallyOrdered(rs: set<RangeBounds>) {
    forall r, s :: r in rs && s in rs && r != s ==>
      (r.Cmp(s) == Before && s.Cmp(r) == Behind) || (r.Cmp(s) == Behind && s.Cmp(r) == Before)
  }

  ghost predicate Transitive(rs: set<RangeBounds>) {
    forall r, s, t :: r in rs && s in rs && t in rs && r.Cmp(s) == Before && s.Cmp(t) == Before ==> r.Cmp(t) == Before
  }

  ghost predicate AtMostOne(rs: set<RangeBounds>) {
    forall r, s, key: Bytes :: r in rs && s in rs && r.Contains(key) && s.Contains(key) ==> r == s
  }

  ghost predicate Disjoint(rs: set<RangeBounds>) {
    forall r, s :: r in rs && s in rs && r != s ==> !Share(r, s)
  }

  /** `cmp` is transitive; it is a strict total order on a set of ranges if and only if they are
      pairwise disjoint, that is, if and only if no key lies in two of them. */
  lemma OrderExactly(rs: set<RangeBounds>)
    requires forall r :: r in rs ==> r.Valid()
    ensures TotallyOrdered(rs) <==> Disjoint(rs)
    ensures Transitive(rs)
    ensures Disjoint(rs) <==> AtMostOne(rs)
  {
    forall r, s | r in rs && s in rs
      ensures r.Cmp(s) == Overlapping <==> Share(r, s)
      ensures r.Cmp(s) == Before <==> s.Cmp(r) == Behind
    {
      EqualExactly(r, s);
      CmpFlips(r, s);
      CmpFlips(s, r);
    }
    forall r, s, t | r in rs && s in rs && t in rs && r.Cmp(s) == Before && s.Cmp(t) == Before
      ensures r.Cmp(t) == Before
    {
      BeforeTransitive(r, s, t);
    }
    forall r, s, key: Bytes | r in rs && s in rs && r.Contains(key) && s.Contains(key)
      ensures Share(r, s)
    {
    }
  }

  /** "Equal" is not transitive, and ranges that compare equal need not be `==`. */
  lemma EqualNotTransitive() returns (r: RangeBounds, s: RangeBounds, t: RangeBounds)
    ensures r.Valid() && s.Valid() && t.Valid()
    ensures r.Cmp(s) == Overlapping && s.Cmp(t) == Overlapping && r.Cmp(t) == Before
    ensures r != s && s != t
  {
    r, s, t := RangeBounds([1], [3]), RangeBounds([2], [5]), RangeBounds([4], [6]);
  }
}
