# Harpoon, the consensus core of rasputin, in Dafny

rasputin is a replicated key-value store. Its nodes elect a leader with time-limited promises
(leases) instead of Raft's preemptible terms, replicate a log of mutations under that leader,
and apply what a majority has accepted to a local database. Its authors call the protocol
Harpoon and say that it has not been proved correct (README.md, lines 14 and 118); the five
properties they want are listed in test/test_paxos.rs, lines 11-24. This project models the
protocol, the log, the wire codec, the output queue, the key ranges and the simulator's clock,
and proves what holds of them.

## How the model is built

* `Types`, `Roles`, `LogSpec`, `KeyValue` are the values: messages, a node's role and lease
  tests, a log as a committed and a pending sequence, the sequential store.
* `Harpoon` gives each handler of `Server` as a function from a node (and a message and the
  time) to an effect: the new node, the messages sent, the replies given. `ServerObject.Server`
  is the imperative server, with its fields, loops and in-place updates; every handler method
  is proved to have exactly that effect. `InMemoryLogs.InMemoryLog` is the log with its two
  maps and four counters, proved to behave as the log value.
* `Cluster` runs any number of nodes: an action is a tick of the clock, a `cron`, a client
  request, or the delivery of any message ever sent. The set of sent messages never shrinks, so
  every run includes loss, delay, repetition and reordering. All theorems about runs are about
  every run of this system from a start state, for 1 to 509 nodes (`Roles.NeedIsMajority` shows
  why 509).
* `Store` says key by key, without a database, what a log of mutations leaves behind.
* `Wire` says of each kind of message which step put it on the wire and what it says of its
  sender; `Candidacies` how a reign begins.
* `Leases`, `Stability`, `Elections`, `Journal`, `Replicas`, `Replication`, `Reign` and
  `CatchUp` hold the invariants and theorems about runs. `Refutations` holds runs of the same
  system in which a property fails when one condition is dropped and all others are met; the
  handler calls they consist of are worked out in `SmallLogs`.
* The log carries two switches, `acking` and `keying`, each between a line of acked_log.rs as
  written and the line as it seems intended. A run may use any setting; a theorem that needs a
  condition under one setting states it so that the other setting meets it always.
* `Framing`, `Outgoing`, `Ranges`, `Simulator` stand alone: codec, output queue, key ranges,
  simulated time.

## Where the code departs from its intent

The code is modelled as written. Where a promised property then fails, the theorem carries a
condition on the run and a run without it is exhibited:

* A voter does not compare a grant with terms it granted before (server.rs 931-966), can lower
  `highest_term` (387) and re-grants without recording the term (365-385).
  `Elections.ElectionSafety` asks that each grant of the term in question be the voter's first
  in it. That is the absence of a second vote seen step by step (`Elections.OneVoteExactly`),
  and the missing check ensures it (`Elections.GuardSuffices`).
  `Refutations.TwoLeadersOfOneTerm` is a run without it.
* A renewed lease runs from the arrival of the last vote, not from when the votes were given
  (315). `Leases.LeaseExclusion` holds for votes of age at most d and allows an overlap of d;
  `Refutations.ExclusionBoundIsTight` attains that overlap for every d.
* An Append links to the last entry the peer acknowledged, but its batch starts after the last
  entry sent (763-767). `Replication.GapFreeExactly` says exactly when that leaves a gap,
  `Reign.AnsweredReign` that sending the next Append to a peer only when it has all that was
  sent to it before suffices, whatever is delayed or repeated,
  `Refutations.GapAccepted` is a run without it.
* The loop of `ack_up_to` shadows its argument, so a report acknowledges the oldest pending
  entry, whatever it reports (acked_log.rs 95-101; switch `acking`).
  `LogRuns.AckAsWritten` and `Replication.AckTrueExactly` say exactly when the written loop is
  right; `Refutations.LearnedByRefusal` is a run in which it commits a write nobody else holds.
* `commit_up_to` stores every entry it commits under its argument (acked_log.rs 143; switch
  `keying`). One call that commits several entries keeps only the last of them, and later calls
  can leave a stale entry in place of another (`LogRuns.StaleEntry`). Over any operations from
  a log in order the maps are the intended ones if and only if no commit found anything below
  its argument, and otherwise an entry is lost for good (`LogRuns.CommitAgreesExactly`); over
  runs of the cluster likewise (`Replicas.FaithfulExactly`). Ids, append-only logs and the fate
  of client requests do not depend on it (`Journal`). That databases are replays, and replies
  the sequential store's, is proved under that condition (`Replicas.StateMachine`,
  `Replicas.TruthfulReplies`); `Refutations.WriteNeverDone` is a run without it.
* The first condition for a vote ignores how much the candidate has accepted (950-953).
  `Reign.LeaderCompleteness` rests on the second (954-963) and asks that no counted vote given by
  the first come from a node that had accepted more than the winner said;
  `Refutations.MajorityEntryLost` is a run with one such vote.
* The test of a stable leader (test_paxos.rs 43-66) runs in a simulator whose cron is due every
  400 to 499 ms and whose messages take 1 ms. `Stability.StableLeader` allows any delays with
  three message delays and one cron interval below six seconds.
* A compare-and-set that expects no value is turned into one that expects the empty value
  (617-637 with 836-888): `Replicas.CompareAndSet`.
* The property test of the length prefix (codec.rs 124-126) is about every `usize`; the prefix
  keeps 32 bits: `Framing.LengthRoundTrip`, `Framing.FrameExactly`.

## Model

| member | source | states |
|---|---|---|
| `Roles.NeedIsMajority` | src/server/server.rs:672 | The quorum, narrowed to eight bits, exceeds half the peers if and only if there are at most 509. |
| `Leases.LeaseInvHolds` | src/server/server.rs:220-408 | In every reachable state every role's deadline is at most 12 s ahead, every vote held is real and distinct, and every voter keeps the promise of its vote. |
| `Leases.NonPreemption` | src/server/mod.rs:122-130 | Whoever leads or follows until u still has that role, leader and term at any later time before u, with a deadline no earlier, whatever happened between. |
| `Leases.VotesHeld` | src/server/server.rs:253-325 | The votes a candidate or leader counts are distinct and were each sent to it for its very term; a leader has those of a majority. |
| `Leases.VoteOrigin` | src/server/server.rs:352-397 | Every successful vote on the wire was put there by one step, at the time it bears, by its receiver or by a node that right after that step followed the receiver under a full lease. |
| `Leases.ReignBackedByMajority` | src/server/server.rs:250-326 | Every ascent and every renewal happens on receiving a vote and is backed by more than half the nodes. |
| `Wire.RequestOrigin` | src/server/server.rs:680-693 | Every vote request on the wire was sent by cron at its sender; it names the id and term of the last entry that node had learned and of the last in its log (0 if none), and the term in which the node stands, or leads with no more than half of its lease left, unexpired. |
| `Wire.CronExactly` | src/server/server.rs:661-676 | Cron makes a node without an unexpired lease or candidacy a candidate of the term after the highest it has recorded, needing a majority within 12 s, and leaves any other as it is. |
| `Wire.CronAsks` | src/server/server.rs:678-694 | A candidate, and a leader with no more than half of its lease left, asks every node at each cron. |
| `Wire.VoteExactly` | src/server/server.rs:343-408 | A node votes for another exactly when it follows it already, or holds no unexpired lease, has learned nothing in a later term than the one asked for, and the other has learned in a later term than it, or in the same and has accepted at least as far; it then follows the other for 12 s, in the term asked for if it did not follow before. Otherwise it refuses, with its own term, and stays as it is. |
| `Wire.VoteGrounds` | src/server/server.rs:931-966 | Every answer to a vote request in every run was given to a request of its receiver, and is a vote if and only if those grounds held of the log and lease of its sender at that step. |
| `Candidacies.VoteCounted` | src/server/server.rs:250-326 | A vote for its term adds a distinct voter; with a majority a candidate becomes leader under its old deadline, and a leader has 12 s from now. |
| `Candidacies.PeerStarts` | src/server/server.rs:186-218 | When a vote is first counted, its sender, if new, is replicated to from the end of the counting node's log, taken as accepted and as sent; if known it keeps its position; nobody else is touched. |
| `Candidacies.RefusalResets` | src/server/server.rs:241-249 | An unexpired candidate that hears a refusal of its term is in state Init, replicates to nobody, and has recorded no lesser term than the refused. |
| `Candidacies.ReignBegan` | src/server/server.rs:220-290 | Every leader of a term began a candidacy of that term with a cron, in the term after the highest it had recorded, ascended at a vote within 12 s of that cron under that deadline, has led since, and was delivered no refusal of the term in between. |
| `Leases.LeaseExclusion` | src/server/server.rs:294-326 | If no counted vote was older than d when its quorum was complete, two leaders never both have more than d left. |
| `Refutations.ExclusionBoundIsTight` | src/server/server.rs:315 | For every d below 12 s a run with votes no older than d has two leaders, one with a full lease and the other with exactly d. |
| `Stability.StableLeader` | test/test_paxos.rs:43-66 | A leader followed by a majority keeps its role and term, and they keep following it, all under leases that never run out, in every state of every run in which its cron runs at least every c and the votes it asks for arrive within d each way, for any c and d with 3 d + c below 6 s. |
| `Stability.SoleLeader` | test/test_paxos.rs:52-54 | Meanwhile no other node becomes leader or has its lease renewed on votes less than 12 s old. |
| `Stability.StableStep` | src/server/server.rs:294-326 | Every action keeps the invariant behind that: each lease, or a request still under way that will reach its holder in time, covers the leader's; each round of requests is followed from cron to the counted vote. |
| `Refutations.WatchBegins` | test/test_paxos.rs:43-66 | For all such c and d a run reaches a state from which that theorem applies. |
| `Elections.BallotInvHolds` | src/server/server.rs:343-397 | On guarded runs no node votes for two candidates of one term, and none votes for another in a term it stood in. |
| `Elections.OneVoteExactly` | src/server/server.rs:343-408 | Over a whole run no node votes for two candidates of a given term if and only if each grant of that term, when made, is the voter's first in it. |
| `Elections.GuardSuffices` | src/server/server.rs:931-966 | The check the code lacks, that a voter grants only terms above all it granted or stood in, re-grants included, makes every grant of every term a first vote. |
| `Elections.ElectionSafety` | test/test_paxos.rs:13 | If each grant of a term is the voter's first in it, leaders of that term, seen at any two moments of the run, are one node. |
| `Refutations.TwoLeadersOfOneTerm` | src/server/server.rs:931-966 | Without that a run, all of whose votes are counted at once and which has no gap, no unsupported ack and no harmful commit, reaches two leaders of one term at once. |
| `Journal.TransactionIds` | src/server/server.rs:718-724 | Between handler calls the id generator equals the last accepted id at every node, no node issues an id twice, and a client's request never trips the assertion in `append`. |
| `Journal.NodesAppendOnly` | test/test_paxos.rs:14-15 | Any node's log and learned log at one moment are prefixes of those at any later moment, under every setting of the log. |
| `Journal.ClientConservation` | src/server/server.rs:598-656 | A write a leader took is waiting and unanswered, or answered exactly once, to its client, after its node had learned it, under every setting of the log. |
| `Journal.LearnAllConserves` | src/server/server.rs:912-926 | Learning answers each waiting request at most once, to the one who asked, and leaves exactly the others waiting. |
| `Journal.ActionKeepsRecords` | src/server/server.rs:410-520 | Every action of every node keeps its id generator, ascending ids and waiting clients consistent, extends its logs only at the end and answers only what it has learned, under every setting of the log. |
| `Replicas.StateMachine` | src/server/server.rs:807-927 | Every replica's database is the replay of its learned log, so equal learned logs give equal data, in every run whose commits find nothing below their argument or are stored by own id. |
| `Store.ReplayHolds` | src/server/server.rs:807-911 | What a replayed log leaves under each key is what a register that heeds only that key holds: the value of a set, nothing after a delete, the new value of a compare-and-set if the expected one was held. |
| `Store.LastWriterWins` | src/server/server.rs:836-911 | The last entry that sets or deletes a key, or is a compare-and-set on it whose expected value it held, has the say: after a delete the key is absent, otherwise it holds that entry's value. |
| `Store.NeverWritten` | src/server/server.rs:836-911 | A key without such an entry is absent. |
| `Store.OthersUntouched` | src/server/server.rs:836-911 | An entry touches no key but its own. |
| `Replicas.DatabaseHolds` | src/server/server.rs:807-911 | In such runs every replica holds under every key what the entries it has learned leave there. |
| `Replicas.SetIsStored` | src/server/server.rs:598-656 | In such runs, from the answer to a set until its node learns another write to the key, that node's database has the requested value under the key. |
| `Replicas.DeleteIsDone` | src/server/server.rs:640-656 | Likewise, after the answer to a delete the key is absent. |
| `Replicas.ReadAnswered` | src/server/server.rs:573-594 | In such runs a leader answers a read at once with what the entries it has learned leave under the key and the id of the last of them, and changes nothing. |
| `Replicas.Redirected` | src/server/server.rs:551-572 | A node that does not lead sends a client to the node it follows, or says that there is no leader, and changes nothing. |
| `Replicas.LearnExactly` | src/server/server.rs:807-927 | Learning an entry sets, deletes or compares and sets its key and no other, and tells a waiting client, and only it, the outcome. |
| `Journal.RequestKept` | src/server/server.rs:598-656 | The entry a leader made of a client's request (kind, key, value and expected value as requested, the empty value where a compare-and-set names none) stands in that node's log under its id, at the position that was next then, in every later state, and nothing else has that id; under every setting of the log. |
| `Journal.TakenByRequest` | src/server/server.rs:598-656 | Every write a leader took was made of one earlier request, of the very client that is to be answered. |
| `Replicas.TruthfulReplies` | src/server/server.rs:836-926 | In such runs what a client is told about its write is true of the entry made of its request, field by field, where its leader took and learned it: a set is done, a delete tells what it removed, a compare-and-set whether the key held what it expected and what it holds now. |
| `Replicas.FaithfulExactly` | src/server/acked_log.rs:126-146 | In a run every node finds each entry it has learned under its id, and nothing else, if and only if no commit found anything below its argument; otherwise some node has lost an entry it learned. |
| `Refutations.WriteNeverDone` | src/server/acked_log.rs:143 | With a commit that does, a run of three empty nodes in which all else is in order leaves a follower that has learned three writes without the second in its database, which the leader has. |
| `Replicas.LearnAllReplays` | src/server/server.rs:807-927 | Learning newly committed entries in order takes the database to the replay of the whole committed log, and every reply tells the sequential outcome at its position. |
| `Replicas.CompareAndSet` | src/server/server.rs:836-888 | A compare-and-set succeeds exactly when the stored value is the expected one, if and only if it expects a value or the key holds a non-empty one. |
| `Replication.NextBatchIsSlice` | src/server/server.rs:761-794 | What is sent next of a gap-free log in which every entry is found is the run of at most 99 entries after the last one sent, and nothing exactly when all was sent. |
| `Replication.TakeBatchKeepsPrefix` | src/server/server.rs:424-458 | A batch that continues a follower's log leaves it a prefix of the leader's, up to the batch's end, even if taking it panics part way. |
| `Replication.GapFreeExactly` | src/server/server.rs:424-458 | An accepted batch leaves a prefix of the leader's log if and only if it starts no later than the next entry. |
| `Replication.TakeKeepsTerms` | src/server/server.rs:426-437 | Whatever batch it is sent, a follower keeps a log whose terms never decrease. |
| `Replication.AppendTakenExactly` | src/server/server.rs:424-466 | Taking an Append commits exactly the entries up to the id the leader has learned, beyond those committed before, and leaves the id generator at the end of the log. |
| `Wire.AppendOrigin` | src/server/server.rs:742-805 | Every Append on the wire was sent by a leader as it took a write; it links to what the leader took its receiver to have accepted, carries the next batch after what was sent, and names the last id the leader had learned. |
| `Wire.AnswerOrigin` | src/server/server.rs:410-483 | Every answer to an Append on the wire was given to one of its receiver; it accepts if and only if the node followed the sender and its log ended where the Append links, and then names the end of the log after the step; a refusal leaves the node as it is and names the end of its log, or nothing if it does not follow the sender. |
| `Wire.AppendIsAnswered` | src/server/server.rs:468-482 | A delivered Append is answered unless its receiver leads or panics. |
| `Wire.AnswerHeard` | src/server/server.rs:485-507 | A leader takes over where a node it replicates to says it is, and after a refusal sends again from there; its entries stay, and any other node takes no notice. |
| `Replication.AckTrueExactly` | src/server/acked_log.rs:93-103 | A true report is recorded truthfully if and only if, under the loop as written, it reaches the oldest pending entry. |
| `Replication.AckKeepsMajority` | src/server/acked_log.rs:93-121 | With true acks everything `ack_up_to` commits is held by a majority. |
| `Replication.CommitBound` | src/server/server.rs:460-466 | A follower told to commit up to t has learned at most t entries, unless it had more. |
| `Reign.ReignInvHolds` | src/server/server.rs:410-520 | Through a reign every log is a gap-free prefix of the leader's, learned no further than the leader, every ack is true and every message on the wire is true of the leader's log. |
| `Reign.LogMatching` | test/test_paxos.rs:16-17 | In a reign every log is a gap-free prefix of the leader's, and any two logs agree up to any position both have. |
| `Reign.CommitSoundness` | src/server/server.rs:485-520 | The very entry the leader has learned at a position is in the logs of more than half the nodes, and nobody has learned more than the leader. |
| `Reign.StateMachineSafety` | test/test_paxos.rs:21-23 | In a reign no two nodes have applied different entries at a position; if also no commit finds anything below its argument, nodes that applied equally many hold the same data. |
| `Reign.AnsweredReign` | src/server/server.rs:494-507 | If an Append is sent to a peer only when it has accepted all that was sent to it before, no delivery, delay or repetition leaves a gap, and the run is a reign. |
| `Reign.LeaderCompleteness` | test/test_paxos.rs:18-20 | A node that is made leader, or renewed, during the reign by unexpired votes holds every entry a majority had accepted, unless one of the counted votes came from a voter that had learned in an earlier term, and accepted more, than that node said. |
| `Reign.AckedWritesSurvive` | test/test_paxos.rs:18-20 | Under the same conditions everything the old leader has learned is in that node's log. |
| `Refutations.MajorityEntryLost` | src/server/server.rs:950-953 | With one such vote a run that meets all other conditions elects a leader without an entry that a majority holds. |
| `Refutations.GapAccepted` | src/server/server.rs:763-767 | With two Appends outstanding and the first lost, in a run that meets all other conditions, a follower accepts the second write as its first. |
| `Refutations.LearnedByRefusal` | src/server/acked_log.rs:95-101 | Under the loop as written a refusal counts as an ack, and a client is told that a write succeeded which only the leader holds. |
| `CatchUp.RoundIsReal` | src/server/server.rs:761-794 | The Append and the answer of a round are messages the handlers send. |
| `CatchUp.SettledStays` | src/server/server.rs:485-520 | A leader and a follower whose last Append is answered stay so, with the same backlog, through any steps of a run that leave the one leading and the other following, as long as the leader takes no write and hears nothing new of the follower, and no Append of the leader links at the follower. |
| `CatchUp.RoundCatchesUp` | src/server/server.rs:761-780 | A round (a write at the leader, delivery of its Append, delivery of the answer) takes a follower at f to the smaller of f + 99 and the leader's new end, so a backlog of b becomes max(0, b - 98), and leaves the pair ready for the next. In between steps as above are free: votes, crons, other peers' answers, refused or repeated messages. |
| `CatchUp.CatchUpBound` | src/server/server.rs:496-507 | After r such rounds in a run, with any steps as above between them, a backlog of b is max(0, b - 98 r). |
| `ServerObject.Server.constructor` | test/cluster.rs:89-103 | A new server is in state Init with an empty log, no peers and nobody waiting. |
| `ServerObject.Server.UpdateRepPeers` | src/server/server.rs:186-218 | A new peer starts at the node's own last accepted id and term, as accepted and as sent; a known one keeps its offsets and gets the new token and address. |
| `ServerObject.Server.HandleVoteRes` | src/server/server.rs:220-341 | Has exactly the effect `Harpoon.HandleVoteRes` on state, messages and replies. |
| `ServerObject.Server.ShouldGrantVote` | src/server/server.rs:931-966 | Answers `Harpoon.ShouldGrantVote` and changes nothing. |
| `ServerObject.Server.HandleVoteReq` | src/server/server.rs:343-408 | Has exactly the effect `Harpoon.HandleVoteReq`. |
| `ServerObject.Server.HandleAppend` | src/server/server.rs:410-483 | Has exactly the effect `Harpoon.HandleAppend`: the loop over the batch, commit, learning, answer. |
| `ServerObject.Server.TakeEach` | src/server/server.rs:424-458 | The loop over a batch appends what `Harpoon.TakeBatch` appends and panics exactly where it does. |
| `ServerObject.Server.HandleAppendRes` | src/server/server.rs:485-520 | Has exactly the effect `Harpoon.HandleAppendRes`. |
| `ServerObject.Server.CollectBatch` | src/server/server.rs:768-780 | The loop over at most 99 ids collects `Harpoon.NextBatch`, skipping ids that are not found, and the last id collected. |
| `ServerObject.Server.SendToAll` | src/server/server.rs:761-804 | The loop over the peers sends each its Append and advances each position, as `Harpoon.SendAll` does. |
| `ServerObject.Server.Replicate` | src/server/server.rs:742-805 | Has exactly the effect `Harpoon.ReplicateAll`: every mutation of the list is appended, acknowledged by the node itself and learned if that commits it, then each peer gets its next batch; an empty list sends nothing. |
| `ServerObject.Server.HandleCli` | src/server/server.rs:546-659 | Has exactly the effect `Harpoon.HandleCli`: redirects, reads, and writes with their id and waiting client. |
| `ServerObject.Server.Cron` | src/server/server.rs:661-716 | Has exactly the effect `Harpoon.Cron`: abdication, candidacy, renewal, broadcast. |
| `ServerObject.Server.Learn` | src/server/server.rs:807-927 | Applies the entry to the database and answers a waiting client, exactly as `Harpoon.Learn`. |
| `InMemoryLogs.InMemoryLog.constructor` | test/cluster.rs:57-66 | A new log is empty. |
| `InMemoryLogs.InMemoryLog.Append` | src/server/acked_log.rs:66-82 | The entry is at the end of the pending part, without acks, and nothing else changes. |
| `InMemoryLogs.InMemoryLog.Get` | src/server/acked_log.rs:84-89 | Finds the pending entry with the id, or else what is stored under it. |
| `InMemoryLogs.InMemoryLog.AckUpTo` | src/server/acked_log.rs:93-121 | Both loops together have the effect and the result of `LogSpec.AckUpTo`, for either acking loop. |
| `InMemoryLogs.InMemoryLog.CommitReached` | src/server/acked_log.rs:104-120 | Commits exactly the oldest entries with a quorum of acks, up to the first without, and reports them in order. |
| `InMemoryLogs.InMemoryLog.CommitUpTo` | src/server/acked_log.rs:126-146 | Has the effect and the result of `LogSpec.CommitUpTo`, for either way of storing. |
| `InMemoryLogs.InMemoryLog.CommitDue` | src/server/acked_log.rs:126-146 | The loop takes exactly the pending entries up to the id, reports them in order and stores them in that order under the argument or under their own ids. |
| `InMemoryLogs.InMemoryLog.Counters` | src/server/acked_log.rs:148-162 | The four counters are the last ids and terms of the committed part and of the whole log, whose ids ascend. |
| `InMemoryLogs.Partition` | src/server/acked_log.rs:52-61 | When committed entries are stored under their ids the two maps hold exactly the ids appended, all committed ones below all pending ones. |
| `InMemoryLogs.BackLink` | src/server/acked_log.rs:34-41 | Then every stored entry is under its own id and names the id and term of the entry with the next lower id, in whichever map that is, or zero. |
| `InMemoryLogs.InMemoryLog.StoredInPlace` | src/server/acked_log.rs:52-61 | A log whose lookups are right stores its committed entries under their ids. |
| `LogSpec.GetFinds` | src/server/acked_log.rs:84-89 | An id is found exactly when an entry has it, and then that entry. |
| `LogSpec.FaithfulFinds` | src/server/acked_log.rs:84-89 | If committed entries are stored under their ids, a lookup finds what the list of all entries has under the id. |
| `LogSpec.CommitFaithfulExactly` | src/server/acked_log.rs:143 | Committing leaves each committed entry, and nothing else, under its own id if and only if nothing pending is below the argument or entries are stored under their own ids. |
| `LogSpec.ReadyStops` | src/server/acked_log.rs:104-120 | The committed run all have a quorum and the next entry has not. |
| `LogSpec.DueStops` | src/server/acked_log.rs:129-145 | The committed run are all up to the id and the next entry is above it. |
| `LogRuns.AppendOnly` | src/server/acked_log.rs:66-146 | Over every sequence of operations the log is what it was plus what was appended, in order, and commits stay, under every setting. |
| `LogRuns.FoundForever` | src/server/acked_log.rs:84-146 | As long as no commit finds anything below its argument, or entries are stored by own id, what is found under an id is found there ever after. |
| `LogRuns.ReportsPrefix` | src/server/acked_log.rs:93-146 | Both operations report an ascending prefix of what was pending. |
| `LogRuns.AckAsWritten` | src/server/acked_log.rs:95-101 | The loop as written records what the intended one would if and only if the report covers the oldest pending entry and, of those the peer has not acknowledged, no other. |
| `LogRuns.CommitAgreesExactly` | src/server/acked_log.rs:143 | After any operations on a log in order, the line as written has given the intended maps if and only if no commit found anything below its argument, and if and only if no committed entry is lost. |
| `LogRuns.StaleEntry` | src/server/acked_log.rs:143 | From the empty log, committing write 1 up to 3 and then 2, 3 and 4 up to 4 leaves 1 and 2 not found and write 1 found under 3. |
| `Framing.LengthRoundTrip` | src/codec.rs:106-113 | The length survives if and only if it is below 2^32, and every four bytes are the image of the length they denote. |
| `Framing.BigEndian` | src/codec.rs:106-113 | The most significant byte of a length comes first. |
| `Framing.FeedSplit` | src/codec.rs:47-95 | Decoding a and then b is decoding a + b. |
| `Framing.FrameExactly` | src/codec.rs:97-103 | A frame decodes to exactly its message if and only if the message is shorter than 2^32 bytes. |
| `Framing.StreamRoundTrip` | src/codec.rs:135-147 | Concatenated frames of any messages below 2^32 bytes, empty ones included, decode to those messages. |
| `Framing.ChunkingIrrelevant` | src/codec.rs:47-95 | Decoding chunk by chunk gives what decoding their concatenation gives. |
| `Framing.CodecRoundTrip` | src/codec.rs:47-103 | However the frames are cut into chunks, the outputs are the messages and the decoder is back at its start. |
| `Framing.Framed.constructor` | src/codec.rs:36-43 | A new decoder waits for the first size byte. |
| `Framing.Framed.Decode` | src/codec.rs:47-95 | The loop that copies runs of bytes puts out, and ends up, as a decoder taking one byte at a time. |
| `Outgoing.ServerConn.constructor` | src/server/server_conn.rs:23-33 | A new connection has nothing queued and nothing written. |
| `Outgoing.ServerConn.Enqueue` | src/server/traffic_cop.rs:213-232 | One frame joins the end of the queue; written plus queued bytes stay the frames of all messages, `res_remaining` their unwritten part, and write interest is on. |
| `Outgoing.ServerConn.Writable` | src/server/server_conn.rs:35-82 | A partial write moves a prefix of the oldest frame to the wire and keeps the books balanced, with write interest dropped exactly when nothing is left; the books stay balanced if and only if the socket reports no error. |
| `Outgoing.Delivery` | src/server/server_conn.rs:84-118 | What a connection has written, cut into any chunks, decodes to a prefix of the messages enqueued, and to all of them once the queue is empty. |
| `Ranges.LessTrichotomy` | src/range_bounds.rs:10 | Byte strings are totally ordered: exactly one of below, equal, above. |
| `Ranges.LessTransitive` | src/range_bounds.rs:10 | The order of byte strings is transitive. |
| `Ranges.LessExactly` | src/range_bounds.rs:10 | A byte string is below another if and only if it is a proper prefix of it or has the smaller byte where they first differ. |
| `Ranges.NewExactly` | src/range_bounds.rs:9-18 | A range is built exactly when it holds some key. |
| `Ranges.EqualExactly` | src/range_bounds.rs:22-33 | Two ranges compare equal if and only if they share a key. |
| `Ranges.BeforeSeparates` | src/range_bounds.rs:25-26 | All keys of a lesser range are below all keys of the greater. |
| `Ranges.OrderExactly` | src/range_bounds.rs:22-33 | `cmp` is transitive, and a strict total order on a set of ranges if and only if they are disjoint, that is, no key lies in two. |
| `Ranges.EqualNotTransitive` | src/range_bounds.rs:30 | Comparing equal is not transitive and is not equality. |
| `Simulator.TestClock.SleepMs` | src/clock.rs:41-49 | The clock moves by the milliseconds asked for if and only if the nanoseconds sum to less than 2^31, as they do up to 1147 ms; otherwise it overflows or is wrong. |
| `Simulator.SimCluster.constructor` | test/cluster.rs:71-137 | All clocks start at zero, and exactly one Cron per node is queued, 400 to 499 ms ahead. |
| `Simulator.SimCluster.AdvanceTime` | test/cluster.rs:171-176 | For any number of milliseconds the cluster's clock moves by it, and every node's moves with it if and only if in each the nanoseconds sum to less than 2^31, as they do up to 1147 ms. |
| `Simulator.SimCluster.PushEvent` | test/cluster.rs:178-187 | The event is queued behind all others of its time. |
| `Simulator.SimCluster.PopEvent` | test/cluster.rs:189-192 | Takes out all events of the earliest queued time. |
| `Simulator.SimCluster.RunBatch` | test/cluster.rs:205-220 | Running a batch queues each Cron in it once more, 400 to 499 ms later, and loses and reorders nothing. |
| `Simulator.SimCluster.Transmit` | test/cluster.rs:233-257 | Outbound messages, broadcasts unrolled, are queued in order for the next millisecond. |
| `Simulator.SimCluster.Step` | test/cluster.rs:197-258 | Time moves to the earliest event, 1 to 499 ms ahead, on every clock alike; each node again has exactly one Cron queued, those just run 400 to 499 ms ahead and the others where they were; the messages sent stand in order at the next millisecond; nothing else is added, lost or reordered. |

## Left out

- Elections.ElectionSafety: a run without the condition refutes it; a second vote that completes no quorum does no harm, so it is not exact for single leaders.
- Reign.LeaderCompleteness: states the first succession only; nothing in the code truncates a log, so it does not hold over several successions.
- Reign.LogMatching: holds for one leader's reign, including lost and regained leases of that leader; logs left by several leaders need not match.
- Stability.StableLeader: starts when the leader has more than half of its lease left, all of the majority follow it under leases ending at most 2 d before its own, and older votes and requests are more than d old; how such a state comes about is not part of it.
- Replicas.StateMachine: the condition is exact for the maps being right (Replicas.FaithfulExactly); a lost entry can leave a database right by chance, when it wrote nothing new.
- Reign.CommitSoundness: like all theorems about a reign it asks that acks be supported, which under the intended acking loop is always so.
- Outgoing.ServerConn.Writable: what becomes of a connection after a write error is up to the event loop, which is not modelled.
- Framing.Framed.Decode: reads from memory return the bytes available; the branch that drops a half-read message on a read error is not modelled.
- Simulator.SimCluster.Step: what the servers do is a parameter, the list of messages they send; `Cluster` models it.
- Serialization: messages are values of the fields set and read; an unset field reads as its default. The protobuf bytes are not modelled.
- Sockets, the event loop, tokens, reconnection: a sender's token, address and id are one number, as in the simulator.
- The loop of `notify` over connections: each connection is treated by itself.
- Database failures and the on-disk layout: database operations succeed.
- Threads and locks of `Server::run`: a handler is one atomic step.
- Wrap-around of 64-bit terms, transaction ids and clocks: they are unbounded here.
- Error texts, logging, the client library, the command line, load testing, watch requests.
- Freshness of reads: a leader whose lease has run out still answers them.
- Crashes, restarts and persistence: a panicking server halts for good.
