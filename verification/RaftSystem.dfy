/** Runs of a fixed set of Raft nodes over a network.

    One step is one handler of one node. The network never duplicates a message: an envelope is a
    position in `sent`, and `done` records the positions each node has received. It may reorder and
    lose messages. A node's own pipeline never runs, so nothing is delivered to its sender. */
module RaftSystem {
  import opened Wrappers
  import opened RaftTypes
  import opened RaftHandlers

  /** A message on its way: to one peer, or (dest == None) to every peer. */
  datatype Envelope = Envelope(from: Id, dest: Option<Id>, msg: Message)

  /** A vote that `voter` cast, with what each side's log ended in at the time. */
  datatype Ballot = Ballot(voter: Id, term: nat, candidate: Id,
                           lastTerm: nat, lastIndex: nat, voterLastTerm: nat, voterLastIndex: nat)

  /** A leader moved its commit index to a value that it found by counting match indices. */
  datatype Commit = Commit(leader: Id, term: nat, index: nat, log: seq<Entry>)

  /** What has happened so far. No handler reads it. */
  datatype History = History(
    ballots: set<Ballot>,
    counted: set<(Id, nat, Id)>,           // (receiver, term, voter): a grant that was added to votes_
    leaders: set<(nat, Id)>,               // (term, node): the node was leader in the term
    leaderLog: map<nat, seq<Entry>>,       // the log of the latest leader of each term
    commits: set<Commit>,
    visited: map<Id, seq<Option<Entry>>>)  // what apply_to_state_machine found at index 1, 2, ...

  datatype World = World(nodes: map<Id, Node>, sent: seq<Envelope>, done: set<(nat, Id)>, hist: History)

  datatype Event =
    | Election(id: Id)
    | HeartbeatTick(id: Id, value: nat)       // value: the picked match index
    | ReissueTick(id: Id, order: seq<Id>)     // order: the iteration order of next_index_
    | Call(id: Id, client: Id, request: ClientRequest)
    | Deliver(pos: nat, id: Id)

  /** The switch in handle_parse_timeout. */
  function Dispatch(n: Node, m: Message): Reaction {
    match m.content
    case VoteRequest(_, _, _) => HandleVoteRequest(n, m)
    case VoteResponse(_, _) => HandleVoteResponse(n, m)
    case AppendRequest(_, _, _, _, _, _) => HandleAppendRequest(n, m)
    case AppendResponse(_, _, _, _) => HandleAppendResponse(n, m)
    case ClientCall(_) => HandleClientRequest(n, m)
    case _ => Reaction(n, [])
  }

  ghost predicate CanDeliver(w: World, pos: nat, id: Id) {
    && pos < |w.sent|
    && (pos, id) !in w.done
    && (w.sent[pos].dest == None || w.sent[pos].dest == Some(id))
    && w.sent[pos].from != id
  }

  ghost predicate Enabled(w: World, e: Event) {
    && e.id in w.nodes
    && match e
       case HeartbeatTick(id, v) =>
         var n := w.nodes[id];
         n.role.Leader? && n.matchIndex != map[] ==>
           && PickDefined(|n.peers|, |n.matchIndex|)
           && IsKth(n.matchIndex, |n.peers| - (|n.matchIndex| / 2 + 1), v)
       case ReissueTick(id, order) => forall p <- order :: p in w.nodes[id].nextIndex
       case Deliver(pos, id) => CanDeliver(w, pos, id)
       case _ => true
  }

  ghost function React(w: World, e: Event): Reaction
    requires Enabled(w, e)
  {
    var n := w.nodes[e.id];
    match e
    case Election(_) => StartElection(n)
    case HeartbeatTick(_, v) => if n.role.Leader? && n.matchIndex != map[] then Advance(n, v) else Reaction(n, [])
    case ReissueTick(_, order) => Reaction(n, if n.role.Leader? then ReissueAll(n, order) else [])
    case Call(_, client, request) => HandleClientRequest(n, Message(0, client, ClientCall(request)))
    case Deliver(pos, _) => Dispatch(n, w.sent[pos].msg)
  }

  /** What the serializer and the pipelines make of a handler's output. Replies to clients leave the system. */
  ghost function Post(from: Id, out: seq<Outgoing>): seq<Envelope> {
    if out == [] then [] else Wrap(from, out[0]) + Post(from, out[1..])
  }

  ghost function Wrap(from: Id, o: Outgoing): seq<Envelope> {
    match o
    case Broadcast(m) => [Envelope(from, None, m)]
    case ToPeer(p, m) => [Envelope(from, Some(p), m)]
    case ToClient(_, _) => []
  }

  // ---------------------------------------------------------------- bookkeeping

  ghost function BallotsOf(w: World, e: Event): set<Ballot>
    requires Enabled(w, e)
  {
    var n := w.nodes[e.id];
    match e
    case Election(id) =>
      if n.role.Leader? then {}
      else {Ballot(id, n.term + 1, id, n.lastLogTerm, n.lastLogIndex, n.lastLogTerm, n.lastLogIndex)}
    case Deliver(pos, id) =>
      var m := w.sent[pos].msg;
      if m.content.VoteRequest? && Grants(n, m) then
        {Ballot(id, m.content.term, m.sender, m.content.lastLogTerm, m.content.lastLogIndex, n.lastLogTerm, n.lastLogIndex)}
      else {}
    case _ => {}
  }

  /** This delivery makes handle_request_vote_response add one to votes_. */
  ghost predicate CountsVote(n: Node, m: Message) {
    m.content.VoteResponse? && m.content.granted && !Stale(n, m, m.content.term) && m.content.term == n.term
  }

  ghost function CountedBy(w: World, e: Event): set<(Id, nat, Id)>
    requires Enabled(w, e)
  {
    var n := w.nodes[e.id];
    match e
    case Election(id) => if n.role.Leader? then {} else {(id, n.term + 1, id)}
    case Deliver(pos, id) =>
      var m := w.sent[pos].msg;
      if CountsVote(n, m) then {(id, m.content.term, m.sender)} else {}
    case _ => {}
  }

  ghost predicate Commits(n: Node, e: Event) {
    e.HeartbeatTick? && n.role.Leader? && n.matchIndex != map[] && e.value > n.commitIndex
  }

  /** The positions an application of committed entries looked at. */
  ghost function Looked(before: Node, after: Node): seq<Option<Entry>> {
    if after.lastApplied < before.lastApplied then []
    else seq(after.lastApplied - before.lastApplied, i requires 0 <= i => EntryAt(before.entries, before.lastApplied + 1 + i))
  }

  ghost function Remember(w: World, e: Event, n': Node): History
    requires Enabled(w, e) && e.id in w.hist.visited
  {
    var n, h := w.nodes[e.id], w.hist;
    History(
      h.ballots + BallotsOf(w, e),
      h.counted + CountedBy(w, e),
      if n'.role.Leader? then h.leaders + {(n'.term, e.id)} else h.leaders,
      if n'.role.Leader? then h.leaderLog[n'.term := n'.entries] else h.leaderLog,
      if Commits(n, e) then h.commits + {Commit(e.id, n.term, e.value, n.entries)} else h.commits,
      h.visited[e.id := h.visited[e.id] + Looked(n, n')])
  }

  ghost function Step(w: World, e: Event): World
    requires Enabled(w, e) && e.id in w.hist.visited
  {
    var r := React(w, e);
    World(w.nodes[e.id := r.node],
          w.sent + Post(e.id, r.out),
          if e.Deliver? then w.done + {(e.pos, e.id)} else w.done,
          Remember(w, e, r.node))
  }

  ghost predicate Init(w: World, cluster: nat) {
    && (forall id <- w.nodes :: w.nodes[id] == Fresh(cluster, id, w.nodes.Keys))
    && w.sent == [] && w.done == {}
    && w.hist == History({}, {}, {}, map[], {}, map id | id in w.nodes :: [])
  }

  /** ws[i + 1] is what event es[i] makes of ws[i]. */
  ghost predicate IsRun(ws: seq<World>, es: seq<Event>) {
    && |ws| == |es| + 1
    && (exists cluster :: Init(ws[0], cluster))
    && forall i :: 0 <= i < |es| ==> IsStep(ws[i], es[i], ws[i + 1])
  }

  ghost predicate IsStep(w: World, e: Event, w': World) {
    Enabled(w, e) && e.id in w.hist.visited && w' == Step(w, e)
  }

  // ---------------------------------------------------------------- hypotheses on runs

  ghost predicate HasBallot(ballots: set<Ballot>, voter: Id, term: nat, candidate: Id) {
    exists b <- ballots :: b.voter == voter && b.term == term && b.candidate == candidate
  }

  /** H1: a grant that is added to votes_ was cast for the node that receives it. The response does not
      say so itself, and it is sent to every peer. */
  ghost predicate Attributed(w: World, e: Event)
    requires Enabled(w, e)
  {
    e.Deliver? && CountsVote(w.nodes[e.id], w.sent[e.pos].msg) ==>
      var m := w.sent[e.pos].msg;
      HasBallot(w.hist.ballots, m.sender, m.content.term, e.id)
  }

  /** The delivered append request gets as far as appending its entries. */
  ghost predicate Accepts(n: Node, m: Message) {
    && m.content.AppendRequest?
    && !Stale(n, m, m.content.term)
    && !m.content.isHeartbeat
    && PrevMatches(n, m.content.prevLogIndex, m.content.prevLogTerm)
  }

  /** H2: an accepted append starts where the receiver's log ends. */
  ghost predicate TailAppend(w: World, e: Event)
    requires Enabled(w, e)
  {
    e.Deliver? && Accepts(w.nodes[e.id], w.sent[e.pos].msg) ==>
      w.sent[e.pos].msg.content.prevLogIndex == w.nodes[e.id].lastLogIndex
  }

  /** H3: a client that a leader serves goes by the leader's own id, the key under which the leader
      records its own match index. */
  ghost predicate SelfMatch(w: World, e: Event)
    requires Enabled(w, e)
  {
    e.Call? && w.nodes[e.id].role.Leader? ==> e.client == e.id
  }

  ghost predicate AlwaysAttributed(ws: seq<World>, es: seq<Event>) {
    |es| < |ws| && forall i :: 0 <= i < |es| ==> Enabled(ws[i], es[i]) && Attributed(ws[i], es[i])
  }

  ghost predicate AlwaysTail(ws: seq<World>, es: seq<Event>) {
    |es| < |ws| && forall i :: 0 <= i < |es| ==> Enabled(ws[i], es[i]) && TailAppend(ws[i], es[i])
  }

  ghost predicate AlwaysSelf(ws: seq<World>, es: seq<Event>) {
    |es| < |ws| && forall i :: 0 <= i < |es| ==> Enabled(ws[i], es[i]) && SelfMatch(ws[i], es[i])
  }
}
