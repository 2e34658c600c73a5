/** What a log of mutations leaves under each key, said key by key and without a database. */
module Store {
  import opened Types
  import opened LogSpec
  import opened KeyValue

  /** What key `k` holds after the entries `es`: a register that heeds only its own key. */
  function Held(es: seq<Rec<Mutation>>, k: Bytes): Option<Bytes> {
    if es == [] then None
    else
      var m, before := es[|es| - 1].entry, Held(es[..|es| - 1], k);
      if m.key != k then before
      else match m.kind
        case KVSET => Some(m.value)
        case KVDEL => None
        case KVCAS => if before == m.oldValue then Some(m.value) else before
  }

  /** The entry at `x` decides what `k` holds: it sets or deletes it, or is a compare-and-set
      whose expected value `k` held. */
  predicate Decides(es: seq<Rec<Mutation>>, x: nat, k: Bytes) {
    x < |es| && es[x].entry.key == k && (es[x].entry.kind.KVCAS? ==> Held(es[..x], k) == es[x].entry.oldValue)
  }

  /** The database is all registers together. */
  lemma {:induction false} ReplayHolds(es: seq<Rec<Mutation>>, k: Bytes)
    ensures Lookup(Replay(es), k) == Held(es, k)
  {
    if es != [] {
      var init, m := es[..|es| - 1], es[|es| - 1].entry;
      ReplayHolds(init, k);
      ReplayHolds(init, m.key);
    }
  }

  /** An entry touches no key but its own. */
  lemma OthersUntouched(db: Database, m: Mutation, k: Bytes)
    requires k != m.key
    ensures Lookup(Execute(db, m).db, k) == Lookup(db, k)
  {
  }

  lemma {:induction false} HeldSince(es: seq<Rec<Mutation>>, k: Bytes, x: nat)
    requires x <= |es| && forall y: nat :: x <= y ==> !Decides(es, y, k)
    ensures Held(es, k) == Held(es[..x], k)
  {
    if x == |es| {
      assert es[..x] == es;
    } else {
      var init := es[..|es| - 1];
      forall y: nat | x <= y
        ensures !Decides(init, y, k)
      {
        if y < |init| {
          assert init[..y] == es[..y] && !Decides(es, y, k);
        }
      }
      HeldSince(init, k, x);
      assert init[..x] == es[..x] && !Decides(es, |es| - 1, k);
    }
  }

  /** The last entry that decides what `k` holds has the say: the key is absent after a delete,
      and holds the value of a set or of a compare-and-set that matched. */
  lemma LastWriterWins(es: seq<Rec<Mutation>>, k: Bytes, x: nat)
    requires Decides(es, x, k) && forall y: nat :: x < y ==> !Decides(es, y, k)
    ensures es[x].entry.kind.KVDEL? ==> k !in Replay(es)
    ensures !es[x].entry.kind.KVDEL? ==> k in Replay(es) && Replay(es)[k] == es[x].entry.value
  {
    HeldSince(es, k, x + 1);
    assert es[..x + 1][..x] == es[..x];
    ReplayHolds(es, k);
  }

  /** A key that no entry decides is absent. */
  lemma NeverWritten(es: seq<Rec<Mutation>>, k: Bytes)
    requires forall y: nat :: !Decides(es, y, k)
    ensures k !in Replay(es)
  {
    HeldSince(es, k, 0);
    ReplayHolds(es, k);
  }

  /** What the author of the entry at `x` is to be told: that a set is done; of a delete, what it
      removed; of a compare-and-set, whether the key held what it expected, and what it holds now. */
  predicate Means(res: CliRes, es: seq<Rec<Mutation>>, x: nat) {
    x < |es| && var m := es[x].entry;
    match m.kind
    case KVSET => res == SetRes(true)
    case KVDEL => res == DelRes(true, Held(es[..x], m.key))
    case KVCAS =>
      && res.CasRes? && (res.success <==> Held(es[..x], m.key) == m.oldValue)
      && res.value == Held(es[..x + 1], m.key)
  }
}
