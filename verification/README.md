# embkv: the message queue and the Raft node, modelled and proved

embkv is a replicated key-value store. Every message travels through a lock-free queue
(moodycamel's ConcurrentQueue, vendored), and the nodes agree on a log with Raft. This project
models both, states what they are for, and proves it with Dafny.

The Raft part follows sections 5.2, 5.3 and 5.4.1 of "In Search of an Understandable Consensus
Algorithm" (Ongaro and Ousterhout, extended version).

## How the project is laid out

Raft

- `RaftTypes`, `RaftHandlers`: the messages, the state of a node, and what each handler does to it.
- `RaftNode`: the node as the objects that the handlers update in place (RaftStatus, RaftLog,
  StateMachine, RaftNode); every method is proved equal to the function of `RaftHandlers` for it.
- `RaftSystem`: runs of any number of nodes. One step is one handler of one node; the network keeps
  what was sent, may lose and reorder it, and delivers an envelope to each node at most once and never
  to its sender. History variables record the votes cast, the votes counted, the leaders, the commits
  and what was applied. They are read by no handler.
- `RaftFrames`, `RaftVotes`, `RaftElection`, `RaftLogs`, `RaftCommit`, `RaftApply`, `RaftSearch`: the
  invariants, and the theorems about votes, leaders, logs, commits and the store.
- `RaftBallots`, `RaftCommitIndex`, `RaftReplication`, `RaftReplies`: what each message means when it is
  sent and what it does when it arrives, over whole runs and without the handlers' functions: who asks for
  votes and gets them, where every commit index comes from, what answers say, what clients are told.
- `RaftWitness`: concrete runs.

The code leaves three gaps, and the global theorems name them as hypotheses on runs (`RaftSystem`):

- `Attributed` (H1): a grant that is added to `votes_` was cast for the node that receives it. The
  response does not name its candidate and is broadcast. That each voter is counted at most once per
  term is not assumed: it is proved from the network.
- `TailAppend` (H2): an accepted append starts where the receiver's log ends. The handler neither
  compares nor truncates.
- `SelfMatch` (H3): the client id under which a leader records its own match index is its own id.

For each of the three a lemma shows what it is for, as an if-and-only-if at the step where it matters
(`TallyIsTrueIffAttributed`, `AcceptKeepsContiguousIff`, `MatchIsTrueIffSelf`), and a run from the initial
state that breaks it alone shows what then goes wrong: two leaders in one term
(`TwoLeadersWithoutAttribution`), logs that differ under the same term and index because an entry's
broadcast and its reissue both arrive (`LogsDivergeWithoutTailAppend`), a commit that only the leader holds
(`CommitsWithoutMajority`), and a heartbeat that reads before its vector because clients with ids of their
own fill the table of match indices (`PickUndefinedWithForeignClients`). `FairRunThatCommits` is a run that
meets all three, elects a leader, replicates and commits. The log is append-only, so commit agreement rests
on majorities that overlap and on entries that stay, not on leader completeness.

The queue

- `Words`: 64-bit counters and `circular_less_than`.
- `FreeList`: the reference-counted free list, any number of threads, one atomic operation per step.
- `Tickets`: how consumers share out the elements of one sub-queue.
- `BlockRing` (model), `RingIndex`, `RingBlocks`, `RingRun`, `RingProgress` (proofs): one producer that adds blocks to a
  ring of index entries which wraps, rewinds and doubles, and consumers that look blocks up in it through
  whichever header they loaded.
- `Subqueue`: the last two together; the tickets are what keeps every claim below the tail, and the
  producer's check for room is what keeps the comparison window of the tickets open.
- `ImplicitProducer`: the same sub-queue as an object used by one call after another, refining a plain
  sequence; its ghost field follows the model of `BlockRing` step by step.
- `ProducerHash`: the chain of hash tables from threads to producers.
- `ConcurrentQueue`: the last two joined: every thread enqueues to its own sub-queue, a bulk dequeue goes
  through them in turn.
- `PriorityQueue`: four such queues by priority. `Lanes` says what a drain in turn is.

Around them

- `Framing`: headers and payloads over a stream that splits reads and writes.
- `Random`: rejection sampling.

Where the code and its comments differ, the code is followed: `handle_reissue_timeout` says it resends
at most 16 entries but sends all of them.

## Model

| member | source | states |
|---|---|---|
| RaftNode.RaftStatus.HandleHigherTerm | embkv/src/raft/node.cpp:14-19 | A higher term makes the node a follower with no votes and no vote cast. |
| RaftNode.RaftLog.EntryAt | embkv/src/raft/log.cpp:4-9 | Index 0 and indices past the log give nothing; the others the entry at that position. |
| RaftNode.RaftLog.AppendEntry | embkv/src/raft/log.cpp:11-15 | The entry goes to the end and becomes the last index and term, whatever index it carries. |
| RaftNode.StateMachine.Apply | embkv/include/raft/statemachine.h:9-32 | A PUT sets its key, a DELETE removes it, anything else leaves the store; only a GET of a key that is present returns a value. |
| RaftNode.KthOfSorted | embkv/src/raft/node.cpp:90-93 | The element at position k of the sorted match indices: at most k values are smaller, more than k are no greater. |
| RaftNode.RaftNode.constructor | embkv/include/raft/node.h:82-86 | A new node is a follower in term 0 with an empty log, store and outbox. |
| RaftNode.RaftNode.ApplyToStateMachine | embkv/src/raft/node.cpp:502-521 | The loop over the indices up to the commit index equals the recursive specification: cursor, store, request table and replies. |
| RaftNode.RaftNode.StartElection | embkv/src/raft/node.cpp:451-471 | A node that is not leader opens a new term, votes for itself and asks for votes; a leader does nothing. |
| RaftNode.RaftNode.HandleRequestVoteRequest | embkv/src/raft/node.cpp:196-234 | The whole new state and the answer, for stale, higher and current terms, free and given votes, and logs behind or up to date. |
| RaftNode.RaftNode.HandleRequestVoteResponse | embkv/src/raft/node.cpp:236-265 | Counting a grant of the current term, and becoming leader at peers/2 + 1 with the tables set for every peer. |
| RaftNode.RaftNode.SetUpPeers | embkv/src/raft/node.cpp:256-260 | The loop over the peers sets exactly their match and next indices and keeps other keys. |
| RaftNode.RaftNode.HandleAppendEntriesRequest | embkv/src/raft/node.cpp:267-323 | Term, commit index, heartbeat, check of the previous entry, appends and answer, in the handler's order. |
| RaftNode.RaftNode.HandleAppendEntriesResponse | embkv/src/raft/node.cpp:325-353 | Rejections set the next index to the conflict index; successes set next and match index; higher terms step down. |
| RaftNode.RaftNode.HandleClientRequest | embkv/src/raft/node.cpp:363-420 | A non-leader answers with a hint; a leader appends, records its match index under the client's id, and broadcasts unless the entry before is missing. |
| RaftNode.RaftNode.Dispatch | embkv/src/raft/node.cpp:115-135 | Each message goes to its handler; snapshots and unknown messages do nothing. |
| RaftNode.RaftNode.QuorumValue | embkv/src/raft/node.cpp:83-93 | Collecting the match indices in any order and sorting them gives the value at that rank of the map. |
| RaftNode.RaftNode.HandleHeartbeatTimeout | embkv/src/raft/node.cpp:76-106 | A leader with match indices moves to the picked value if it is higher, applies, and sends a heartbeat; otherwise nothing happens. |
| RaftNode.RaftNode.CollectFrom | embkv/src/raft/node.cpp:165-171 | The loop collects the entries present from next_index on. |
| RaftNode.RaftNode.HandleReissueTimeout | embkv/src/raft/node.cpp:144-189 | A leader walks next_index_ once, in some order, and sends every lagging peer what it lacks; nothing else changes. |
| RaftVotes.TermsNeverDecrease | embkv/src/raft/node.cpp:6-28 | In every run, without hypotheses, no node's term ever goes down. |
| RaftVotes.OneVotePerTerm | embkv/src/raft/node.cpp:204-224 | In every run, without hypotheses, all votes a node casts in one term name one candidate, and a vote for another node passed the up-to-date test of section 5.4.1. |
| RaftVotes.EveryGrantIsBackedByItsVote | embkv/src/raft/node.cpp:226-233 | Every grant on the network answers the only request its candidate sent in that term, and a voter sends at most one grant per term. |
| RaftElection.MajoritiesMeet | embkv/src/raft/node.cpp:254 | Two sets of at least n/2 + 1 of the same n nodes share one. |
| RaftElection.ElectionSafety | embkv/src/raft/node.cpp:236-265 | In every run with H1, two nodes that are leaders in the same term, at whatever moments, are the same node. |
| RaftElection.TallyIsTrueIffAttributed | embkv/src/raft/node.cpp:252-254 | After a counted grant votes_ is the number of nodes that voted for the receiver if and only if the grant was cast for it. |
| RaftBallots.RequestCarriesLog | embkv/src/raft/node.cpp:451-471 | In every run each vote request was sent by an election of its sender, in the term that election opened, and names the last index and term that the sender's log had then. |
| RaftBallots.VoteGrantedIff | embkv/src/raft/node.cpp:196-234 | In every run a vote request of an older term changes nothing; any other gets one answer, granted if and only if the voter has cast no vote for another candidate in that term and the candidate's log, at its election, was at least as up to date as the voter's is. |
| RaftBallots.GrantWasEarned | embkv/src/raft/node.cpp:212-224 | Every grant on the network was sent when a request reached the voter, and then the candidate's log at its election was at least as up to date as the voter's. |
| RaftBallots.VotesGoToUpToDateLogs | embkv/src/raft/node.cpp:215-217 | Section 5.4.1 over logs, with H1 and H2: whoever got a vote from another node stood with a log whose last term is higher, or equal with no fewer entries, than the log the voter had when it voted. |
| RaftBallots.LeadsIffMajority | embkv/src/raft/node.cpp:252-262 | With H1: after a grant of its term has reached a node, it leads if and only if a majority has voted for it in that term and it has heard of those votes; then every peer's match index is its commit index and the next index one above. |
| RaftBallots.OnlyGrantsMakeLeaders | embkv/src/raft/node.cpp:252-256 | In every run a node that becomes leader does so when a grant of its current term reaches it. |
| RaftLogs.AppendOnlyRun | embkv/src/raft/log.cpp:11-15 | Without hypotheses, a log is only ever extended. |
| RaftLogs.LogMatching | embkv/src/raft/node.cpp:304-317 | In every run with H1 and H2, two logs (at any two moments) with the same term at the same index are identical up to it. |
| RaftLogs.LogsAreWellFormed | embkv/src/raft/node.cpp:383-393 | In every run with H1 and H2, position k holds index k + 1, terms never decrease along a log nor exceed the node's term, and the last index and term are those of the last entry. |
| RaftLogs.AcceptKeepsContiguousIff | embkv/src/raft/node.cpp:304-317 | An accepted, well-numbered append leaves the log contiguous if and only if it is empty or starts at the last index. |
| RaftCommit.PickIsLargestQuorumValue | embkv/src/raft/node.cpp:83-97 | For every number of peers and every map with a match index for each, the picked value is the largest that n/2 + 1 peers have reached, it is unique, and it is always defined. |
| RaftCommit.CommitAgreement | embkv/src/raft/node.cpp:82-97 | In every run with H1 to H3, two commits by counting, at any leaders and in any terms, agree on every entry both cover. |
| RaftCommit.CommittedStaysHeld | embkv/src/raft/node.cpp:82-97 | A committed prefix is within the leader's log and is held by a majority from then on. |
| RaftCommit.LeaderPickDefined | embkv/src/raft/node.cpp:90-93 | With H1 to H3 a leader's match indices are keyed by exactly its peers, so the vector is never read out of range. |
| RaftCommit.MatchIsTrueIffSelf | embkv/src/raft/node.cpp:389-392 | After a client request the leader's match indices are true if and only if the client id is the leader's own, or a peer's while the commit index is already past the new entry. |
| RaftCommitIndex.CommitIndexIsGreatestBrought | embkv/src/raft/node.cpp:94-97 | In every run a node's commit index is the greatest it was ever brought, by a match index it picked as leader or by an append request that was not stale. |
| RaftCommitIndex.CommitIndexIsCounted | embkv/src/raft/node.cpp:284-288 | In every run, without hypotheses, the commit index of every node and of every append request on the network is 0 or one that some leader found by counting. |
| RaftCommitIndex.LeaderCommitsQuorumValue | embkv/src/raft/node.cpp:81-98 | With H1 to H3 a leader's heartbeat leaves its commit index at the largest value that n/2 + 1 match indices have reached, or where it was if that is higher; applied up to there, log and others unchanged, and one message announces it to all. |
| RaftCommitIndex.RaisedCommitIsHeld | embkv/src/raft/node.cpp:94-97 | With H1 to H3, whenever a leader's heartbeat raises its commit index, a majority of the nodes holds its log up to there. |
| RaftCommitIndex.EveryCommitIndexIsHeld | embkv/src/raft/node.cpp:286-288 | With H1 to H3 the commit index of any node, follower or leader, stands for a prefix of that length that a majority holds. |
| RaftReplication.FollowerHandlesAppend | embkv/src/raft/node.cpp:278-322 | In every run: term, vote, commit index, cursor, leader hint, log and the one answer after an append request, by its term, whether it is a heartbeat, and whether the log has the entry before its entries. |
| RaftReplication.AnswerTellsTheLog | embkv/src/raft/node.cpp:306-322 | In every run an answer says how far its sender's log went right after the request; success if and only if the log had the entry before; the conflict index is the rejected request's. |
| RaftReplication.AcknowledgedIsMatched | embkv/src/raft/node.cpp:338-352 | With H1 and H2 an acknowledgement of the leader's term sets its sender's match index to the length that log had when it answered, and the next index one above; a rejection goes back to where the request followed. |
| RaftReplication.ReissueCoversLagging | embkv/src/raft/node.cpp:153-187 | With H1 and H2 a reissue sends exactly to the peers whose next index the log has reached, and to each the log from there on. |
| RaftApply.ApplyReplays | embkv/src/raft/node.cpp:502-521 | Applying up to an index replays exactly the entries found at the indices passed, in order. |
| RaftApply.ApplyCursor | embkv/src/raft/node.cpp:286-288 | After every handler last_applied equals commit_index, each index up to it was visited once in order, and the store is the fold of what the visits found. |
| RaftApply.CursorNeverGoesBack | embkv/src/raft/node.cpp:502-505 | The commit index never decreases and visits are never repeated or undone. |
| RaftApply.StoreIsWholePrefix | embkv/include/raft/statemachine.h:9-32 | If every visit found an entry, the store is the fold of the whole log prefix up to the commit index. |
| RaftApply.StoreHoldsLastPuts | embkv/include/raft/statemachine.h:17-31 | A key has a value in the store if and only if the last operation applied that writes the key, by PUT or DELETE, puts that value. |
| RaftApply.EverythingFoundIff | embkv/src/raft/node.cpp:286-288 | Moving the commit index finds an entry at every index passed if and only if the log reaches the new commit index. |
| RaftApply.AppliedEntriesAreAnswered | embkv/src/raft/node.cpp:506-519 | Applying answers exactly the entries found, each to the client recorded for its index, with the value the store has after everything before it. |
| RaftReplies.CallerGetsItsAnswer | embkv/src/raft/node.cpp:506-518 | With H1 and H2, when a node applies the entry that it made of a client's call as leader, that client gets the answer to that request: for a GET the value of the last PUT of the key below it unless a DELETE came after, otherwise Null. |
| RaftReplies.AnswersGoToCallers | embkv/src/raft/node.cpp:508-518 | With H1 and H2, whatever a node tells a client, refusals aside, is such an answer for an index just applied, and goes to the client whose call it took for that index, or to number 0 if it took none. |
| RaftReplies.RefusalNamesLastHeard | embkv/src/raft/node.cpp:369-380 | In every run a call to a node that does not lead changes nothing and is refused with the request's id and a hint: the sender of the last heartbeat that reached the node, which has led some term, or 0. |
| RaftReplies.LeaderIsLastHeard | embkv/src/raft/node.cpp:290-293 | In every run the node taken for leader is the sender of the last heartbeat that arrived and was not stale. |
| RaftReplies.LeaderTakesCall | embkv/src/raft/node.cpp:383-419 | With H1 and H2 a leader's log gains the request under the next index, its indices for the client move, and one broadcast carries the entry, the place before it and the commit index; the client hears nothing yet. |
| RaftSearch.NextIndexIsPositive | embkv/src/raft/node.cpp:256-260 | Without hypotheses, next indices and conflict indices in flight are at least 1 in every reachable state, so the subtraction never wraps. |
| RaftSearch.ProbeIsSent | embkv/src/raft/node.cpp:153-186 | What the reissue sends to a lagging follower: the suffix of the log from next_index on, with the entry before it. |
| RaftSearch.Round | embkv/src/raft/node.cpp:304-352 | One reissue and its answer: accepted if and only if the logs join there, otherwise next_index goes down by one and nothing else changes. |
| RaftSearch.SearchTerminates | embkv/src/raft/node.cpp:153-186 | The exchange ends within next_index rounds at the greatest earlier position that is 0 or where the terms are equal, and the suffix from there is appended. |
| RaftWitness.FairRunThatCommits | embkv/src/raft/node.cpp:451-471 | A run that meets H1 to H3, elects a leader, replicates a client's write, commits and applies it. |
| RaftWitness.TwoLeadersWithoutAttribution | embkv/src/raft/node.cpp:226-254 | A run in which one broadcast grant makes two leaders in the same term: Election Safety fails without H1. |
| RaftWitness.LogsDivergeWithoutTailAppend | embkv/src/raft/node.cpp:304-317 | A run from the start with H1 and H3 in which the broadcast of an entry and its reissue both reach a follower: its log is not contiguous and Log Matching fails at index 2. |
| RaftWitness.CommitsWithoutMajority | embkv/src/raft/node.cpp:389-393 | A run from the start with H1 and H2 in which two clients go by the ids of peers and the leader commits an entry that no other node has. |
| RaftWitness.PickUndefinedWithForeignClients | embkv/src/raft/node.cpp:90-93 | A run from the start with H1 and H2 in which three clients have ids outside the peer set: six match indices for three peers, so the position wraps and the heartbeat has no defined outcome. |
| FreeList.StepKeepsInv | embkv/include/thirdparty/concurrentqueue.h:1459-1538 | Every atomic operation of add, try_get and add_knowing_refcount_is_zero keeps the ownership and reference-count invariant. |
| FreeList.OwnershipIsExclusive | embkv/include/thirdparty/concurrentqueue.h:1481-1523 | A node returned by try_get is held by one thread until that thread adds it. |
| FreeList.PopInstallsCurrentNext | embkv/include/thirdparty/concurrentqueue.h:1489-1493 | When a pop's compare-and-swap is about to run, the successor it would install is the node's current one: no ABA. |
| FreeList.UnlinkedNodeIsNotFlagged | embkv/include/thirdparty/concurrentqueue.h:1491-1493 | The assertion after a pop never fails. |
| FreeList.NothingLostAtQuiescence | embkv/include/thirdparty/concurrentqueue.h:1467-1538 | When no call is in progress every node is owned or on the list, never both, never twice, and the counts are 0 and 1. |
| FreeList.EveryNodeIsInOnePlace | embkv/include/thirdparty/concurrentqueue.h:1459-1538 | At every moment of every run each node is in exactly one place: owned by one thread, on the list once, in one thread's add, in one thread's pop, or flagged and still referenced. |
| FreeList.TryGetAlone | embkv/include/thirdparty/concurrentqueue.h:1478-1510 | From any moment of any run at which no call is in flight, try_get ends with its thread owning the first node of the list and the rest of the list left; with nothing, and nothing changed, only if the list is empty. |
| FreeList.AddAlone | embkv/include/thirdparty/concurrentqueue.h:1465-1476 | From any such moment add ends with the node in front of the list and no longer owned. |
| FreeList.EmptyHandedOnlyIfEmpty | embkv/include/thirdparty/concurrentqueue.h:1483-1509 | In every run, whatever the others do, try_get comes back without a node only if the head was null at some moment of that very call. |
| Words.LessIff | embkv/include/thirdparty/concurrentqueue.h:476-483 | circular_less_than compares two counters rightly if and only if the difference is above minus half the range and at most half the range. |
| Tickets.SingleIsBulkOfOne | embkv/include/thirdparty/concurrentqueue.h:2554-2561 | dequeue's check is dequeue_bulk's for one element. |
| Tickets.ClaimsPartitionTheFront | embkv/include/thirdparty/concurrentqueue.h:2779-2801 | In every run the claimed ranges are disjoint, follow one another from 0 and lie below the tail. |
| Tickets.ClaimIsCovered | embkv/include/thirdparty/concurrentqueue.h:2799-2801 | A consumer about to advance headIndex stays at or below tailIndex, as the comment there promises. |
| Tickets.TicketsAreConserved | embkv/include/thirdparty/concurrentqueue.h:2789-2797 | The optimistic count is head + overcommit + the tickets still pending. |
| Tickets.GrantIsCoveredIff | embkv/include/thirdparty/concurrentqueue.h:2791-2794 | The second check grants only what the tail covers if and only if the position is no more than half the range past the tail. |
| Tickets.DequeueAloneSucceeds | embkv/include/thirdparty/concurrentqueue.h:2550-2619 | With no other consumer in flight a dequeue takes all it asked for that was there when it began, and fails only on an empty sub-queue; the producer may go on meanwhile. |
| Tickets.DequeueIsWaitFree | embkv/include/thirdparty/concurrentqueue.h:2779-2801 | In every run a dequeue has claimed or given up after at most seven operations of its own, whatever the others do. |
| RingIndex.LookupFinds | embkv/include/thirdparty/concurrentqueue.h:2953-2963 | The wrapped, signed index arithmetic finds the slot of a block from the slot and key of any other within half the index range. |
| RingIndex.KeyInPlace | embkv/include/thirdparty/concurrentqueue.h:2948-2964 | In every header, old or current, the slot of a block number that has not been given away holds the same entry as in the current one, keyed by its base. |
| RingIndex.RingStoreKey | embkv/include/thirdparty/concurrentqueue.h:2907-2914 | Entering the next block keeps every other block's entry and key in place. |
| RingIndex.RingGrow | embkv/include/thirdparty/concurrentqueue.h:2966-3008 | Doubling the ring keeps every block in its entry, in the new header and in all older ones. |
| RingRun.FullIff | embkv/include/thirdparty/concurrentqueue.h:2657-2659 | The modular check for room refuses exactly when the sub-queue would span half the index range. |
| RingRun.TailIsNeverBehindHead | embkv/include/thirdparty/concurrentqueue.h:2658-2659 | In every run the assertion at the check for room holds, and the check is exact. |
| RingRun.GrowthMakesRoom | embkv/include/thirdparty/concurrentqueue.h:2924-2931 | After growth the slot for the new block is a new entry, as asserted. |
| RingRun.UndoLands | embkv/include/thirdparty/concurrentqueue.h:2668-2674 | The recovery of a failed enqueue_bulk clears the entry of the very block it takes back, even after the tail was rewound past it. |
| RingRun.StepKeeps | embkv/include/thirdparty/concurrentqueue.h:2486-2879 | Every atomic operation of the producer and of the consumers keeps the invariant of index, ownership, counts and contents. |
| RingRun.AccessesAreSafe | embkv/include/thirdparty/concurrentqueue.h:2948-2964 | The next operation of every thread finds its header, entry and block: no null pointer, no index out of range. |
| RingRun.LookupIsNeverOvertaken | embkv/include/thirdparty/concurrentqueue.h:2900-3008 | For every claimed element the slot found holds the entry keyed by that element's block base and pointing at that block, whatever the producer does in between. |
| RingRun.ReadsAreFifo | embkv/include/thirdparty/concurrentqueue.h:2803-2821 | In every run what was read for an element is what was enqueued under its number. |
| RingRun.EachElementIsReadOnce | embkv/include/thirdparty/concurrentqueue.h:2814-2821 | A consumer that reads an element is the first to read it. |
| RingRun.OnlyTheLastConsumerSeesFull | embkv/include/thirdparty/concurrentqueue.h:1616-1634 | The count never passes the block size and reaches it exactly for the consumer that completes the block. |
| RingRun.ReleasedWhenEmpty | embkv/include/thirdparty/concurrentqueue.h:2857-2867 | A block is unlinked only when all its elements are done, and no two consumers release the same block. |
| RingRun.ReleasedForGood | embkv/include/thirdparty/concurrentqueue.h:2596-2608 | A published block that has been unlinked never comes back under its number. |
| RingRun.NothingLeaks | embkv/include/thirdparty/concurrentqueue.h:2661-2679 | When nothing is in progress the blocks in use are exactly those of the ring with elements to dequeue or room to fill, also after failed enqueues. |
| RingRun.PublishFits | embkv/include/thirdparty/concurrentqueue.h:2494-2497 | Publishing never makes the elements waiting reach half the index range. |
| RingProgress.DequeueEnds | embkv/include/thirdparty/concurrentqueue.h:2803-2879 | In every run a consumer that has claimed n elements is through with them after at most 8 n + 8 operations of its own. |
| RingProgress.EnqueueEnds | embkv/include/thirdparty/concurrentqueue.h:2625-2774 | In every run an enqueue is over after at most 12 operations for each block it needs and one for each element, successful or not. |
| RingProgress.EnqueueOutcome | embkv/include/thirdparty/concurrentqueue.h:2654-2679 | In every run an enqueue ends with all its elements published behind those before, or with none, and then memory was refused or another block would have spanned half the index range at some moment of that call. |
| Subqueue.ClaimsAreCovered | embkv/include/thirdparty/concurrentqueue.h:2799-2806 | The tickets give the block ring the guard it relies on. |
| Subqueue.TicketsTakeSteps | embkv/include/thirdparty/concurrentqueue.h:2550-2619 | A run of the sub-queue is, seen from its counters, a run of the ticket protocol. |
| Subqueue.SubqueueIsFifoAndSafe | embkv/include/thirdparty/concurrentqueue.h:2486-2879 | In every run of producer and consumers: claims in order below the tail, every read right, every access in bounds. |
| Subqueue.QuietSubqueue | embkv/include/thirdparty/concurrentqueue.h:2550-2879 | When all is quiet the counters balance, every claimed element has been read and no block is lost. |
| ImplicitProducer.ImplicitProducer.constructor | embkv/include/thirdparty/concurrentqueue.h:2423-2429 | A new sub-queue is empty; if the index is refused its memory it has none for good. |
| ImplicitProducer.ImplicitProducer.CopyRotated | embkv/include/thirdparty/concurrentqueue.h:2982-2996 | The two loops that fill the larger index: the old entries from just past the tail, then the new ones. |
| ImplicitProducer.ImplicitProducer.NewBlockIndex | embkv/include/thirdparty/concurrentqueue.h:2966-3008 | Growth installs the larger index, or changes nothing when there is no memory. |
| ImplicitProducer.ImplicitProducer.InsertBlockIndexEntry | embkv/include/thirdparty/concurrentqueue.h:2900-2933 | A free or new slot after the tail gets the block's key and becomes the tail, or nothing changes. |
| ImplicitProducer.ImplicitProducer.Rollback | embkv/include/thirdparty/concurrentqueue.h:2668-2678 | The recovery returns exactly the blocks the call took and leaves the elements and tailIndex alone. |
| ImplicitProducer.ImplicitProducer.Enqueue | embkv/include/thirdparty/concurrentqueue.h:2486-2548 | One element is added at the end, or the call changes nothing; it fails if and only if memory was refused, now or in the constructor, or the blocks would span half the index range. |
| ImplicitProducer.ImplicitProducer.EnqueueBulk | embkv/include/thirdparty/concurrentqueue.h:2625-2774 | Any number of elements, none included, is added in order, or contents, tailIndex, tail block and blocks are as before and the index tail is still the slot of the last block; it fails if and only if memory was refused, now or in the constructor, or the blocks would span half the index range. |
| ImplicitProducer.ImplicitProducer.Dequeue | embkv/include/thirdparty/concurrentqueue.h:2550-2619 | The oldest element is removed and returned; it fails only on an empty queue. |
| ImplicitProducer.ImplicitProducer.DequeueBulk | embkv/include/thirdparty/concurrentqueue.h:2779-2879 | The oldest min(max, size) elements are removed and returned in order. |
| ProducerHash.Probe | embkv/include/thirdparty/concurrentqueue.h:3411-3448 | Linear probing terminates and finds an id if and only if the table has it. |
| ProducerHash.Claim | embkv/include/thirdparty/concurrentqueue.h:3507-3524 | The insertion loop terminates at the first empty or reusable slot and keeps every entry reachable. |
| ProducerHash.CountCoversLive | embkv/include/thirdparty/concurrentqueue.h:3419-3421 | The one counter is at least the number of live threads and below half the newest table, and what is taken there and what is still to move there leave a slot free. |
| ProducerHash.ProducerTable.RecycleOrCreate | embkv/include/thirdparty/concurrentqueue.h:3227-3244 | The newest inactive producer is taken over; if there is none a new one is created, or nothing happens when memory is refused. |
| ProducerHash.ProducerTable.Migrate | embkv/include/thirdparty/concurrentqueue.h:3423-3440 | Moving an entry to the newest table keeps the map, finds room, and the newest table has the id afterwards. |
| ProducerHash.ProducerTable.Grow | embkv/include/thirdparty/concurrentqueue.h:3455-3489 | A larger table goes in front with all live threads still to move, or nothing happens. |
| ProducerHash.ProducerTable.GetOrAdd | embkv/include/thirdparty/concurrentqueue.h:3388-3533 | A live thread always gets its own producer, a new one gets one that no live thread has, and the newest table has the id afterwards; it fails if and only if memory was refused, and then map, count and producers are as they were. |
| ProducerHash.ProducerTable.Exit | embkv/include/thirdparty/concurrentqueue.h:3536-3564 | The thread disappears from every table, its producer can be taken over, and no other thread is affected. |
| Framing.NetworkOrderIsBigEndian | embkv/include/raft/transport/head_manager.h:17-22 | constexpr_htonl puts the highest byte first in memory, and is its own inverse. |
| Framing.HeaderRoundTrip | embkv/include/raft/transport/head_manager.h:59-75 | Decoding an encoded header gives it back, for every 64-bit length. |
| Framing.MagicOnTheWire | embkv/include/raft/transport/head_manager.h:26 | Every frame starts with the bytes CD 54 A2 3E 01 04, then its length in eight bytes, highest first. |
| Framing.HeaderAcceptedIff | embkv/include/raft/transport/head_manager.h:46-75 | Fourteen bytes are accepted as a header if and only if they start CD 54 A2 3E 01; they are then the encoding of what was read from them, the length highest byte first. |
| Framing.FrameRoundTripIff | embkv/src/raft/peer/pipeline.cpp:32-53 | A frame is read back whole if and only if its payload is at most 10240 bytes; a longer one ends the connection. |
| Framing.FramesRoundTrip | embkv/src/raft/peer/pipeline.cpp:30-99 | Every list of payloads that fit is decoded to the same list. |
| Framing.ShortWriteMixesFrames | embkv/src/raft/peer/pipeline.cpp:94-98 | After a write cut short in a payload the reader completes it with bytes of the next frames. |
| Framing.ShortWriteIff | embkv/src/raft/peer/pipeline.cpp:94-98 | A frame whose header and payload writes were cut anywhere is read back whole, with what follows intact, if and only if neither was cut. |
| Framing.TornStreamIff | embkv/src/raft/peer/pipeline.cpp:88-99 | The stream that a sender leaves, which goes on after short writes, gives back the list of payloads if and only if no write was short. |
| Framing.ShortReadIff | embkv/src/raft/peer/pipeline.cpp:47-53 | A reader cut off after m bytes hands on the payload whole if and only if they cover the frame; cut in the payload it hands on the part it has. |
| Framing.Stream.WriteExact | embkv/include/socket/impl/impl_stream_write.h:11-22 | However write splits, the bytes sent are a prefix of the buffer, shorter if and only if a call failed. |
| Framing.Stream.ReadExact | embkv/include/socket/impl/impl_stream_read.h:11-21 | However read splits, the buffer holds the next bytes in order, fewer than asked if and only if a call failed. |
| Framing.WriteFrames | embkv/src/raft/peer/pipeline.cpp:88-99 | The stream gains every frame in order, each cut where its writes were, and a call failed if and only if some frame was cut. |
| Framing.ReadFrame | embkv/src/raft/peer/pipeline.cpp:30-53 | In terms of the bytes taken: fewer than 14 end the connection, 14 that do not start CD 54 A2 3E 01 are skipped, a length above 10240 ends it, and otherwise what came of that length is handed on, all of it unless a read failed. |
| Framing.SendAndReceive | embkv/src/raft/peer/pipeline.cpp:30-99 | What one peer writes the other reads: the same payloads in order, for every way the sockets split the bytes. |
| ConcurrentQueue.ConcurrentQueue.Enqueue | embkv/include/thirdparty/concurrentqueue.h:1372-1377 | The calling thread's own sub-queue, an old one or a new and empty one, gains the element at its end; every other sub-queue and thread stays, and on failure, only for want of memory or room, all contents do. |
| ConcurrentQueue.ConcurrentQueue.EnqueueBulk | embkv/include/thirdparty/concurrentqueue.h:1385-1390 | The same for any number of elements, none included. |
| ConcurrentQueue.ConcurrentQueue.ThreadExit | embkv/include/thirdparty/concurrentqueue.h:3536-3564 | A thread that exits leaves its elements in the queue. |
| ConcurrentQueue.ConcurrentQueue.TryDequeueBulk | embkv/include/thirdparty/concurrentqueue.h:1230-1241 | min(max, total) elements, each producer's own order kept, later sub-queues only when earlier ones are empty; each sub-queue is what was taken followed by what is left. |
| PriorityQueue.PriorityQueue.Enqueue | embkv/include/common/util/priorityqueue.h:27-30 | The element goes to the end of the calling thread's lane of that priority, an old or a new one, and nowhere else; lanes and threads of the other priorities stay. |
| PriorityQueue.PriorityQueue.EnqueueBulk | embkv/include/common/util/priorityqueue.h:33-36 | The same for any number of elements, none included. |
| PriorityQueue.PriorityQueue.TryDequeueBulk | embkv/include/common/util/priorityqueue.h:38-49 | min(max, total) elements; a lower priority only when all higher ones are empty; each lane is what was taken followed by what is left; no thread gets or loses a lane. |
| Lanes.DrainsCompose | embkv/include/common/util/priorityqueue.h:38-49 | Drains one after another take ever longer fronts of every lane, and items out plus items left are the items there were. |
| Random.NoResidueIsFavoured | embkv/include/common/util/random.h:15-22 | The threshold is 2^32 mod n and each residue has exactly floor(2^32 / n) accepted words. |
| Random.StatesStayDistinct | embkv/include/common/util/random.h:35-43 | Two generators are in the same state after k draws if and only if they were seeded alike: no draw merges two sequences. |
| Random.ZeroStateIffSeededZero | embkv/include/common/util/random.h:29-43 | A generator is in the zero state after any number of draws if and only if it was seeded with it. |
| Random.ZeroSeedNeverPassesIff | embkv/include/common/util/random.h:15-22 | With the zero seed no draw ever passes the threshold, so that the rejection loop never ends, if and only if n does not divide 2^32. |
| Random.TwoDraws | embkv/include/common/util/random.h:35-44 | The states after one and two draws from a given seed: shifts by 17, 7 and 16. |
| Random.FastRand.FastrandN | embkv/include/common/util/random.h:15-22 | The result is the remainder of the first word drawn that passes the threshold; none passed if there is no result. |
| Random.FastRand.RandRange | embkv/include/common/util/random.h:24-26 | The result lies in the range: min plus the remainder of the first accepted word. |

## Left out

Of Raft

- Terms, indices and request ids are unbounded: the 64-bit counters are not modelled to wrap (the one subtraction that could is shown not to).
- Timers and real time: elections, heartbeats and reissues are steps that may happen at any time; the election timer's condition and last_heartbeat_ are not modelled.
- Persistence and restarts: marked TODO in the source, so all results are for nodes that do not restart.
- Snapshots: the handlers are empty.
- SQLite is a finite map; the three layers of protobuf around an operation are one parsed operation, and unparsable bytes read as an unknown operation.
- Applied-state agreement between followers is not claimed: a follower applies the leader's commit index before it checks its log.
- The network does not duplicate an envelope, and queues between threads of one node are part of the network.
- RaftLog with a start index above 0: no caller sets one, and entry_at would then read past the vector.
- The batches of 64 messages in handle_parse_timeout and in the transport: the messages are handled one by one.

Of the queue

- Weak memory orderings: every atomic operation is taken as sequentially consistent.
- ExplicitProducer, tokens, moving and swapping queues, MemStats, try_dequeue for one element across producers.
- Exceptions thrown by constructors or assignments of elements.
- Destruction of producers, headers and tables.
- FreeList.StepKeepsInv: fewer than 2^31 - 1 threads, so that a reference count never reaches the flag bit.
- Tickets.ClaimsPartitionTheFront: relies on the window hypothesis of GrantIsCoveredIff at the second check; that the elements waiting stay below half the range is proved, that a consumer does not stall while 2^63 tickets pass it by is assumed.
- Subqueue.SubqueueIsFifoAndSafe: relies on the same window hypothesis; dequeue_bulk is never asked for 0 elements, which its callers see to.
- BlockRing starts from a sub-queue that got its block index; one whose constructor was refused it never holds an element (ImplicitProducer).
- BlockRing takes the pool as a set of blocks not in use, of which requisition_block gives any one or none; that the free list hands a block to one owner only is proved in FreeList, and the initial pool is not told apart from it.
- ImplicitProducer.ImplicitProducer.EnqueueBulk: the chain of new blocks through their next pointers is a sequence, the cells of a block and the table of entries are values, and memory may fail at any allocation.
- ImplicitProducer.ImplicitProducer.DequeueBulk: the refund of a ticket cannot happen without other consumers, so it is only in Tickets.
- ProducerHash.ProducerTable.GetOrAdd: calls are taken one after another, so the lock around resizing is never busy and the loop that waits for it is left out.
- ConcurrentQueue.ConcurrentQueue.TryDequeueBulk: at quiescence, as are PriorityQueue and ImplicitProducer: one call after another.
- PriorityQueue.PriorityQueue.Enqueue: the local queue that the source constructs and drops in every call is left out.

Around them

- Sockets, handshake, session setup, the client program, configuration, logging and main.
- Framing: hosts are little-endian; parsing a payload into a message and choosing its priority are not modelled.
- Random.FastRand.RandRange: gives up with FastrandN, below.
- Random.FastRand.FastrandN: the rejection loop gives up after a number of draws, since nothing bounds how many words xorshift may yield below the threshold; no number of draws is enough from the zero seed (ZeroSeedNeverPassesIff).
