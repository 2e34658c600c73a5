/** The sequential key-value store that the replicas are meant to be copies of. */
module KeyValue {
  import opened Types
  import opened LogSpec

  type Database = map<Bytes, Bytes>

  function Lookup(db: Database, key: Bytes): Option<Bytes> {
    if key in db then Some(db[key]) else None
  }

  /** What one mutation does, and what its author is told. */
  datatype Outcome = Outcome(db: Database, success: bool, value: Option<Bytes>)

  /** A compare-and-set succeeds exactly when the stored value, or its absence, is the
      expected one; it always reports the value that is stored afterwards.  A delete reports
      the value it removed. */
  function Execute(db: Database, m: Mutation): Outcome {
    match m.kind
    case KVSET => Outcome(db[m.key := m.value], true, None)
    case KVCAS =>
      var hit := Lookup(db, m.key) == m.oldValue;
      var db' := if hit then db[m.key := m.value] else db;
      Outcome(db', hit, Lookup(db', m.key))
    case KVDEL => Outcome(db - {m.key}, true, Lookup(db, m.key))
  }

  /** The reply to the author of `m`; only a compare-and-set reports a transaction id. */
  function Response(o: Outcome, kind: MutationType, lastLearned: TXID): CliRes {
    match kind
    case KVSET => SetRes(o.success)
    case KVCAS => CasRes(o.success, o.value, lastLearned)
    case KVDEL => DelRes(o.success, o.value)
  }

  /** The database after executing a log from the empty database. */
  function Replay(es: seq<Rec<Mutation>>): Database {
    if es == [] then map[] else Execute(Replay(es[..|es| - 1]), es[|es| - 1].entry).db
  }
}
