/** What each handler of a Raft node does: its effect on the node and the messages it sends.
    The classes in RaftNode.dfy compute exactly these functions, the runs in RaftSystem.dfy
    are made of them. */
module RaftHandlers {
  import opened Wrappers
  import opened RaftTypes

  datatype Reaction = Reaction(node: Node, out: seq<Outgoing>)

  function Send(n: Node, content: Content): Message {
    Message(n.cluster, n.id, content)
  }

  // ---------------------------------------------------------------- RaftStatus

  function HigherTerm(n: Node, term: nat): Node {
    n.(term := term, role := Follower, votes := 0, votedFor := None)
  }

  function Majority(n: Node): nat {
    |n.peers| / 2 + 1
  }

  function BecomeLeader(n: Node): Node {
    n.(role := Leader,
       matchIndex := n.matchIndex + map p | p in n.peers :: n.commitIndex,
       nextIndex := n.nextIndex + map p | p in n.peers :: n.commitIndex + 1)
  }

  // ---------------------------------------------------------------- applying committed entries

  /** requests_[index]: a missing key is inserted with its default value. */
  function RequestFor(n: Node, index: nat): Request {
    if index in n.requests then n.requests[index] else Request(0, 0)
  }

  function Reply(n: Node, index: nat, entry: Entry): Outgoing {
    var value := OpResult(n.store, entry.request.op);
    ToClient(RequestFor(n, index).clientId,
             Send(n, ClientReply(RequestFor(n, index).requestId, 0, true,
                                 if value.Some? then value.value else "Null", "")))
  }

  /** One turn of the loop in apply_to_state_machine: advance the cursor and apply what is there. */
  function ApplyNext(n: Node): Reaction {
    var i := n.lastApplied + 1;
    match EntryAt(n.entries, i)
    case None => Reaction(n.(lastApplied := i), [])
    case Some(e) =>
      Reaction(n.(lastApplied := i, requests := n.requests[i := RequestFor(n, i)],
                  store := ApplyOp(n.store, e.request.op)),
               [Reply(n, i, e)])
  }

  function ApplyUpTo(n: Node, target: nat): Reaction
    decreases target - n.lastApplied
  {
    if n.lastApplied >= target then Reaction(n, [])
    else
      var first := ApplyNext(n);
      var rest := ApplyUpTo(first.node, target);
      Reaction(rest.node, first.out + rest.out)
  }

  function ApplyToStateMachine(n: Node, commit: nat): Reaction {
    ApplyUpTo(n.(commitIndex := commit), commit)
  }

  // ---------------------------------------------------------------- elections

  function StartElection(n: Node): Reaction {
    if n.role.Leader? then Reaction(n, [])
    else
      var c := n.(term := n.term + 1, role := Candidate, votedFor := Some(n.id), votes := 1);
      Reaction(c, [Broadcast(Send(c, VoteRequest(c.term, c.lastLogIndex, c.lastLogTerm)))])
  }

  predicate UpToDate(lastTerm: nat, lastIndex: nat, n: Node) {
    lastTerm > n.lastLogTerm || (lastTerm == n.lastLogTerm && lastIndex >= n.lastLogIndex)
  }

  /** The node as it looks at a vote request or response of this term, once the request is not stale. */
  function AtTerm(n: Node, term: nat): Node {
    if term > n.term then HigherTerm(n, term) else n
  }

  predicate Stale(n: Node, m: Message, term: nat) {
    m.cluster != n.cluster || term < n.term
  }

  predicate Grants(n: Node, m: Message)
    requires m.content.VoteRequest?
  {
    && !Stale(n, m, m.content.term)
    && (AtTerm(n, m.content.term).votedFor.None? || AtTerm(n, m.content.term).votedFor.value == m.sender)
    && UpToDate(m.content.lastLogTerm, m.content.lastLogIndex, n)
  }

  function HandleVoteRequest(n: Node, m: Message): Reaction
    requires m.content.VoteRequest?
  {
    var term := m.content.term;
    if Stale(n, m, term) then Reaction(n, [])
    else
      var granted := Grants(n, m);
      var v := AtTerm(n, term);
      Reaction(if granted then v.(votedFor := Some(m.sender)) else v,
               [Broadcast(Send(n, VoteResponse(term, granted)))])
  }

  function HandleVoteResponse(n: Node, m: Message): Reaction
    requires m.content.VoteResponse?
  {
    var term := m.content.term;
    if Stale(n, m, term) then Reaction(n, [])
    else if term > n.term then Reaction(HigherTerm(n, term), [])
    else if m.content.granted then
      var v := n.(votes := n.votes + 1);
      Reaction(if v.votes >= Majority(v) then BecomeLeader(v) else v, [])
    else Reaction(n, [])
  }

  // ---------------------------------------------------------------- log replication

  function AppendEntry(n: Node, e: Entry): Node {
    n.(entries := n.entries + [e], lastLogIndex := e.index, lastLogTerm := e.term)
  }

  function AppendAll(n: Node, es: seq<Entry>): Node
    decreases |es|
  {
    if es == [] then n else AppendAll(AppendEntry(n, es[0]), es[1..])
  }

  /** The check of the entry before the new ones. */
  predicate PrevMatches(n: Node, prevIndex: nat, prevTerm: nat) {
    prevIndex == 0 ||
    (EntryAt(n.entries, prevIndex).Some? && EntryAt(n.entries, prevIndex).value.term == prevTerm)
  }

  /** handle_append_entries_request up to the heartbeat test: term, then the leader's commit index. */
  function CatchUp(n: Node, m: Message): Reaction
    requires m.content.AppendRequest?
  {
    var v := AtTerm(n, m.content.term);
    if m.content.leaderCommit > v.commitIndex then ApplyToStateMachine(v, m.content.leaderCommit)
    else Reaction(v, [])
  }

  function HandleAppendRequest(n: Node, m: Message): Reaction
    requires m.content.AppendRequest?
  {
    var c := m.content;
    if Stale(n, m, c.term) then Reaction(n, [])
    else
      var r := CatchUp(n, m);
      if c.isHeartbeat then Reaction(r.node.(leaderId := Some(m.sender)), r.out)
      else if !PrevMatches(r.node, c.prevLogIndex, c.prevLogTerm) then
        Reaction(r.node, r.out + [Broadcast(Send(n, AppendResponse(c.term, false, c.prevLogIndex, r.node.lastLogIndex)))])
      else
        var v := AppendAll(r.node, c.entries);
        Reaction(v, r.out + [Broadcast(Send(n, AppendResponse(c.term, true, 0, v.lastLogIndex)))])
  }

  function HandleAppendResponse(n: Node, m: Message): Reaction
    requires m.content.AppendResponse?
  {
    var c := m.content;
    if Stale(n, m, c.term) then Reaction(n, [])
    else if c.term > n.term then Reaction(HigherTerm(n, c.term), [])
    else if !c.success then Reaction(n.(nextIndex := n.nextIndex[m.sender := c.conflictIndex]), [])
    else Reaction(n.(nextIndex := n.nextIndex[m.sender := c.lastIndex + 1],
                     matchIndex := n.matchIndex[m.sender := c.lastIndex]), [])
  }

  function HandleClientRequest(n: Node, m: Message): Reaction
    requires m.content.ClientCall?
  {
    var request := m.content.request;
    if !n.role.Leader? then
      var hint := if n.leaderId.Some? then n.leaderId.value else 0;
      Reaction(n, [ToClient(m.sender, Send(n, ClientReply(request.requestId, hint, false, "", "Not leader")))])
    else
      var last := n.lastLogIndex;
      var entry := Entry(n.term, last + 1, request);
      var v := AppendEntry(n, entry);
      var w := v.(nextIndex := v.nextIndex[m.sender := last + 2],
                  matchIndex := v.matchIndex[m.sender := last + 1],
                  requests := if last + 1 in v.requests then v.requests
                              else v.requests[last + 1 := Request(m.sender, request.requestId)]);
      var prev := EntryAt(w.entries, last);
      if last != 0 && prev.None? then Reaction(w, [])
      else
        var prevTerm := if last == 0 then 0 else prev.value.term;
        Reaction(w, [Broadcast(Send(w, AppendRequest(w.term, last, prevTerm, [entry], w.commitIndex, false)))])
  }

  // ---------------------------------------------------------------- timers

  /** The entries collected for one peer by handle_reissue_timeout: those present from `from` on. */
  function EntriesFrom(entries: seq<Entry>, from: nat, last: nat): seq<Entry>
    decreases last + 1 - from
  {
    if from > last then []
    else
      var e := EntryAt(entries, from);
      (if e.Some? then [e.value] else []) + EntriesFrom(entries, from + 1, last)
  }

  /** uint64_t subtraction: the predecessor of 0 wraps round. */
  function Pred(i: nat): nat {
    if i == 0 then 0xFFFF_FFFF_FFFF_FFFF else i - 1
  }

  /** The request that catches one peer up, if there is anything to send. */
  function ReissueTo(n: Node, peer: Id): seq<Outgoing>
    requires peer in n.nextIndex
  {
    var next := n.nextIndex[peer];
    if next > n.lastLogIndex then []
    else
      var es := EntriesFrom(n.entries, next, n.lastLogIndex);
      if es == [] || peer !in n.peers then []
      else
        var prev := EntryAt(n.entries, Pred(next));
        [ToPeer(peer, Send(n, AppendRequest(n.term, Pred(next), if prev.Some? then prev.value.term else 0,
                                            es, n.commitIndex, false)))]
  }

  /** The loop over next_index_, visiting the peers in the given order. */
  function ReissueAll(n: Node, order: seq<Id>): seq<Outgoing>
    requires forall p <- order :: p in n.nextIndex
  {
    if order == [] then [] else ReissueTo(n, order[0]) + ReissueAll(n, order[1..])
  }

  function Heartbeat(n: Node): Outgoing {
    Broadcast(Send(n, AppendRequest(n.term, 0, 0, [], n.commitIndex, true)))
  }

  // ---- the commit index: the element of the sorted match indices at position peers - (size/2 + 1)

  /** The peers whose match index is at most v. */
  ghost function AtMost(m: map<Id, nat>, v: int): set<Id> {
    set p | p in m && m[p] <= v
  }

  ghost function Reached(m: map<Id, nat>, v: nat): set<Id> {
    set p | p in m && m[p] >= v
  }

  /** v stands at position k when the values of m are sorted. */
  ghost predicate IsKth(m: map<Id, nat>, k: nat, v: nat) {
    |AtMost(m, v - 1)| <= k < |AtMost(m, v)|
  }

  /** The position read by handle_heartbeat_timeout exists; otherwise size_t subtraction wraps or the
      read is past the end, and the code has no defined behaviour. */
  predicate PickDefined(peers: nat, size: nat) {
    size / 2 + 1 <= peers && peers - (size / 2 + 1) < size
  }

  /** The leader's commit step once the quorum value is known. */
  function Advance(n: Node, value: nat): Reaction {
    var r := if value > n.commitIndex then ApplyToStateMachine(n, value) else Reaction(n, []);
    Reaction(r.node, r.out + [Heartbeat(r.node)])
  }

  /** r is a possible outcome of handle_heartbeat_timeout. */
  ghost predicate HeartbeatOutcome(n: Node, r: Reaction) {
    if !n.role.Leader? || n.matchIndex == map[] then r == Reaction(n, [])
    else
      && PickDefined(|n.peers|, |n.matchIndex|)
      && exists v :: IsKth(n.matchIndex, |n.peers| - (|n.matchIndex| / 2 + 1), v) && r == Advance(n, v)
  }
}
