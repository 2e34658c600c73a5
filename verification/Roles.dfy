/** The role of a node and its lease tests (`State` in src/server/mod.rs). */
module Roles {
  import opened Types

  datatype Role =
    | Init
    | Candidate(term: Term, have: seq<NodeId>, need: nat, until: Time)
    | Leader(term: Term, have: seq<NodeId>, need: nat, until: Time)
    | Follower(term: Term, id: NodeId, tok: NodeId, leaderAddr: NodeId, until: Time)
  {
    /** The node leads, or follows somebody, under a lease that has not run out. */
    predicate ValidLeader(now: Time) {
      (Leader? || Follower?) && now < until
    }

    predicate ValidCandidate(now: Time) {
      Candidate? && now < until
    }

    /** `following` and `is_following`: neither looks at the lease. */
    predicate Following(peer: NodeId) {
      Follower? && id == peer
    }

    predicate ShouldExtendLeadership(now: Time) {
      Leader? && now + LEADER_REFRESH >= until && now < until
    }

    function TermOf(): Option<Term> {
      if Init? then None else Some(term)
    }
  }

  /** The quorum a candidate asks for: `(peers / 2 + 1) as u8`. */
  function Need(peers: nat): nat {
    (peers / 2 + 1) % 256
  }

  /** Narrowing to eight bits leaves a majority exactly up to 509 peers. */
  lemma NeedIsMajority(peers: nat)
    ensures Need(peers) > peers / 2 <==> peers <= 509
    ensures peers <= 509 ==> Need(peers) == peers / 2 + 1
  {
    if peers > 509 {
      assert peers / 2 >= 255;
    }
  }
}
