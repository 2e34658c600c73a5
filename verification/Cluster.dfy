/** A cluster run: nodes, a clock they share, and every message ever sent.  Messages may be
    lost (never delivered), delayed, reordered and delivered again. */
module Cluster {
  import opened Types
  import opened Roles
  import opened Harpoon

  /** A sent message; `sent` is history, no handler reads it. */
  datatype Packet = Packet(src: NodeId, dst: NodeId, sent: Time, msg: Msg)

  /** A write that a leader accepted from a client, and the id it gave it. */
  datatype Taken = Taken(node: NodeId, txid: TXID, who: Requester)

  /** A reply a node sent to a client. */
  datatype Gave = Gave(node: NodeId, reply: Reply)

  datatype Sys = Sys(now: Time, nodes: seq<Node>, net: set<Packet>, taken: seq<Taken>, gave: seq<Gave>)

  datatype Action =
    | Tick(elapsed: Time)
    | CronAt(i: NodeId)
    | Deliver(p: Packet)
    | Client(i: NodeId, who: Requester, req: CliReq)

  /** The node that acts. */
  function Actor(a: Action): NodeId
    requires !a.Tick?
  {
    match a
    case CronAt(i) => i
    case Deliver(p) => p.dst
    case Client(i, _, _) => i
  }

  predicate Enabled(s: Sys, a: Action) {
    && (!a.Tick? ==> Actor(a) < |s.nodes| && !s.nodes[Actor(a)].halted)
    && (a.Deliver? ==> a.p in s.net)
  }

  function EffectOf(s: Sys, a: Action): Effect
    requires !a.Tick? && Actor(a) < |s.nodes|
  {
    match a
    case CronAt(i) => Cron(s.nodes[i], s.now)
    case Deliver(p) => HandlePeer(s.nodes[p.dst], s.now, p.src, p.msg)
    case Client(i, who, req) => HandleCli(s.nodes[i], who, req)
  }

  /** The packets that `sends` puts on the wire; a broadcast reaches the sender too. */
  function Packets(count: nat, i: NodeId, now: Time, sends: set<Send>): set<Packet> {
    set x, d | x in sends && 0 <= d < count && (x.ToPeer? ==> x.dst == d) :: Packet(i, d, now, x.msg)
  }

  function NewlyTaken(s: Sys, a: Action): seq<Taken>
    requires Enabled(s, a)
  {
    if a.Client? && s.nodes[a.i].role.Leader? && IsWrite(a.req)
    then [Taken(a.i, s.nodes[a.i].maxGenerated + 1, a.who)] else []
  }

  function Given(i: NodeId, replies: seq<Reply>): (r: seq<Gave>)
    ensures |r| == |replies|
  {
    seq(|replies|, k requires 0 <= k < |replies| => Gave(i, replies[k]))
  }

  /** The state after node `i` has done `e`. */
  function After(s: Sys, i: NodeId, e: Effect, took: seq<Taken>): Sys
    requires i < |s.nodes|
  {
    Sys(s.now,
        s.nodes[i := e.node],
        s.net + Packets(|s.nodes|, i, s.now, e.sends),
        s.taken + took,
        s.gave + Given(i, e.replies))
  }

  function Next(s: Sys, a: Action): Sys
    requires Enabled(s, a)
  {
    if a.Tick? then s.(now := s.now + a.elapsed)
    else After(s, Actor(a), EffectOf(s, a), NewlyTaken(s, a))
  }

  /** A freshly started node; the log may hold entries already. */
  ghost predicate FreshNode(n: Node, i: NodeId, count: nat) {
    && n.id == i && n.peers == count && n.role == Init && n.highestTerm == 0
    && n.repPeers == map[] && n.waiting == map[] && !n.halted
    && n.log.quorum == count / 2 + 1
  }

  ghost predicate Start(s: Sys) {
    && 1 <= |s.nodes| <= 509
    && s.net == {} && s.taken == [] && s.gave == []
    && forall i :: 0 <= i < |s.nodes| ==> FreshNode(s.nodes[i], i, |s.nodes|)
  }

  /** The states `tr` of a run and the actions `acts` between them. */
  ghost predicate IsRun(tr: seq<Sys>, acts: seq<Action>) {
    && |tr| == |acts| + 1
    && Start(tr[0])
    && forall k :: 0 <= k < |acts| ==> Enabled(tr[k], acts[k]) && tr[k + 1] == Next(tr[k], acts[k])
  }

  /** A vote of `k` for `i` in `term` was sent. */
  ghost predicate Voted(net: set<Packet>, k: NodeId, i: NodeId, term: Term) {
    exists p :: p in net && p.src == k && p.dst == i && p.msg == VoteRes(true, term)
  }

  /** The nodes that sent `i` a vote for `term`. */
  ghost function Voters(net: set<Packet>, count: nat, i: NodeId, term: Term): set<NodeId> {
    set k: NodeId | 0 <= k < count && Voted(net, k, i, term)
  }

  ghost function Upto(count: nat): (r: set<NodeId>)
    ensures |r| == count
    ensures forall k: NodeId :: k in r <==> k < count
  {
    if count == 0 then {} else Upto(count - 1) + {count - 1}
  }

  /** Two majorities of the same cluster share a node. */
  lemma Intersect(count: nat, a: set<NodeId>, b: set<NodeId>) returns (k: NodeId)
    requires a <= Upto(count) && b <= Upto(count)
    requires |a| > count / 2 && |b| > count / 2
    ensures k in a && k in b
  {
    if a * b == {} {
      assert |a + b| == |a| + |b|;
      SubsetSize(a + b, Upto(count));
      assert false;
    }
    k :| k in a * b;
  }

  lemma {:induction false} SubsetSize(a: set<NodeId>, b: set<NodeId>)
    requires a <= b
    ensures |a| <= |b|
  {
    if a != {} {
      var x :| x in a;
      SubsetSize(a - {x}, b - {x});
    }
  }

  predicate NoDup(xs: seq<NodeId>) {
    forall i, j :: 0 <= i < j < |xs| ==> xs[i] != xs[j]
  }

  lemma {:induction false} NoDupSize(xs: seq<NodeId>)
    requires NoDup(xs)
    ensures |SetOf(xs)| == |xs|
  {
    if xs != [] {
      var init := xs[..|xs| - 1];
      NoDupSize(init);
      assert SetOf(xs) == SetOf(init) + {xs[|xs| - 1]};
    }
  }
}
