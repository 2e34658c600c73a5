/** Identifiers, wire messages and client messages shared by every module. */
module Types {

  /** A replica: the server id, its address and its connection token are one number,
      as in the simulator, where a token is the sender's port. */
  type NodeId = nat
  type Term = nat
  type TXID = nat

  /** Nanoseconds since the clocks started. */
  type Time = nat

  newtype byte = b: int | 0 <= b < 256
  type Bytes = seq<byte>

  const SECOND: Time := 1_000_000_000
  const LEADER_DURATION: Time := 12 * SECOND
  const LEADER_REFRESH: Time := 6 * SECOND

  datatype Option<+T> = None | Some(value: T)

  datatype MutationType = KVSET | KVCAS | KVDEL

  datatype Version = Version(txid: TXID, term: Term)

  datatype Mutation =
    Mutation(kind: MutationType, version: Version, key: Bytes, value: Bytes, oldValue: Option<Bytes>)

  /** The four peer messages.  A field the sender leaves unset is read as 0 or false. */
  datatype Msg =
    | VoteReq(term: Term, learnedTerm: Term, learnedTxid: TXID, acceptedTerm: Term, acceptedTxid: TXID)
    | VoteRes(success: bool, term: Term)
    | Append(fromTxid: TXID, fromTerm: Term, batch: seq<Mutation>, lastLearned: TXID)
    | AppendRes(accepted: bool, acceptedTxid: TXID, acceptedTerm: Term)

  datatype CliReq =
    | GetReq(key: Bytes)
    | SetReq(key: Bytes, value: Bytes)
    | CasReq(key: Bytes, newValue: Option<Bytes>, oldValue: Option<Bytes>)
    | DelReq(key: Bytes)
    | OtherReq

  datatype CliRes =
    | GetRes(success: bool, value: Option<Bytes>, txid: TXID)
    | SetRes(success: bool)
    | CasRes(success: bool, value: Option<Bytes>, txid: TXID)
    | DelRes(success: bool, value: Option<Bytes>)
    | RedirectRes(success: bool, address: Option<NodeId>)
    | EmptyRes

  /** Whom to answer: the client's connection and its request number. */
  datatype Requester = Requester(client: nat, reqId: nat)

  const TWO_TO_32: nat := 0x1_0000_0000

  function SetOf<T>(xs: seq<T>): set<T> {
    set x | x in xs
  }

  lemma {:induction false} Least(s: set<nat>) returns (k: nat)
    requires s != {}
    ensures k in s && forall y :: y in s ==> k <= y
  {
    k :| k in s;
    if s != {k} {
      var rest := s - {k};
      var m := Least(rest);
      assert forall y :: y in s ==> y == k || y in rest;
      k := if m < k then m else k;
    }
  }
}
