/** Replication message by message: what a follower makes of an append request, what its answer says, what the
    leader makes of that, and whom a leader catches up. */
module RaftReplication {
  import opened Wrappers
  import opened RaftTypes
  import opened RaftHandlers
  import opened RaftSystem
  import opened RaftFrames
  import opened RaftVotes
  import opened RaftElection
  import opened RaftLogs
  import opened RaftBallots
  import C = RaftCommitIndex
  import A = RaftApply
  import R = RaftReplies

  /** The log has an entry of this term at this index, or the index is before its start. */
  ghost predicate HasEntry(log: seq<Entry>, index: nat, term: nat) {
    index == 0 || (index <= |log| && log[index - 1].term == term)
  }

  /** What moving to a term does to a node's vote and role. */
  ghost predicate EntersTerm(n: Node, n': Node, term: nat) {
    && n'.term == term
    && if term > n.term then n'.role == Follower && n'.votedFor == None && n'.votes == 0
       else n'.role == n.role && n'.votedFor == n.votedFor && n'.votes == n.votes
  }

  lemma AppendEnters(n: Node, m: Message)
    requires m.content.AppendRequest? && !Stale(n, m, m.content.term)
    ensures EntersTerm(n, HandleAppendRequest(n, m).node, m.content.term)
    ensures m.content.isHeartbeat ==> Post(n.id, HandleAppendRequest(n, m).out) == []
    ensures !m.content.isHeartbeat ==> Post(n.id, HandleAppendRequest(n, m).out) != []
  {
    hide ApplyUpTo, AppendAll, EntryAt, Post;
    var c, v := m.content, CatchUp(n, m);
    CatchUpFrame(n, m);
    AppendAllFrame(v.node, c.entries);
    PostReplies(n.id, v.out);
    PostOne(n.id, v.out, Send(n, AppendResponse(c.term, false, c.prevLogIndex, v.node.lastLogIndex)));
    PostOne(n.id, v.out, Send(n, AppendResponse(c.term, true, 0, AppendAll(v.node, c.entries).lastLogIndex)));
  }

  lemma AcceptsIs(n: Node, m: Message)
    requires m.content.AppendRequest? && !Stale(n, m, m.content.term)
    ensures Accepts(n, m) <==> !m.content.isHeartbeat && HasEntry(n.entries, m.content.prevLogIndex, m.content.prevLogTerm)
  {
  }

  /** In every run: an append request that reaches a node in a later term changes nothing. Any other moves the node
      to its term and its commit index to the leader's if that is higher; a heartbeat makes its sender the leader
      to refer clients to; a request with entries gets one answer, which says whether the log has the entry before
      them, and exactly then they are put at its end. */
  lemma FollowerHandlesAppend(ws: seq<World>, es: seq<Event>, i: nat, pos: nat, id: Id)
    requires IsRun(ws, es) && i < |es| && es[i] == Deliver(pos, id)
    requires pos < |ws[i].sent| && ws[i].sent[pos].msg.content.AppendRequest?
    ensures |ws| == |es| + 1 && id in ws[i].nodes && id in ws[i + 1].nodes && ws[i + 1].nodes == ws[i].nodes[id := ws[i + 1].nodes[id]]
    ensures var n, n', c := ws[i].nodes[id], ws[i + 1].nodes[id], ws[i].sent[pos].msg.content;
            if c.term < n.term then
              n' == n && ws[i + 1].sent == ws[i].sent
            else
              && EntersTerm(n, n', c.term)
              && n'.commitIndex == (if c.leaderCommit > n.commitIndex then c.leaderCommit else n.commitIndex)
              && n'.lastApplied == n'.commitIndex
              && n'.nextIndex == n.nextIndex && n'.matchIndex == n.matchIndex
              && if c.isHeartbeat then
                   && n'.leaderId == Some(ws[i].sent[pos].from) && n'.entries == n.entries && ws[i + 1].sent == ws[i].sent
                 else
                   var joins := HasEntry(n.entries, c.prevLogIndex, c.prevLogTerm);
                   && n'.leaderId == n.leaderId && n'.entries == n.entries + (if joins then c.entries else [])
                   && ws[i + 1].sent == ws[i].sent +
                        [Envelope(id, None, Message(n.cluster, id,
                           AppendResponse(c.term, joins, if joins then 0 else c.prevLogIndex, n'.lastLogIndex)))]
  {
    hide IsRun, Remember, VotesInv, OneCluster, HandleAppendRequest, Accepts, HasEntry, EntersTerm, Post, R.HeardNow, A.Cursor;
    RunLength(ws, es);
    RunStep(ws, es, i);
    var w, e := ws[i], es[i];
    C.EventNode(w, e);
    VotesRun(ws, es, i);
    Identity(w, id);
    var cluster := ClusterRun(ws, es, i);
    ClusterOf(w, cluster, pos, id);
    var n, m := w.nodes[id], w.sent[pos].msg;
    AppendIsDispatched(n, m);
    AppendEffect(n, m);
    A.ApplyRun(ws, es, i + 1);
    A.CursorNow(ws[i + 1], id);
    if !Stale(n, m, m.content.term) {
      AppendEnters(n, m);
      AcceptsIs(n, m);
      C.AppendCommits(n, m);
      R.AppendHears(n, m);
      SenderIs(w, pos);
      HeardIff(n, m);
    } else {
      StaleQuiet(n, m);
    }
  }

  lemma StaleQuiet(n: Node, m: Message)
    requires m.content.AppendRequest? && Stale(n, m, m.content.term)
    ensures HandleAppendRequest(n, m).node == n && Post(n.id, HandleAppendRequest(n, m).out) == []
  {
    PostReplies(n.id, []);
  }

  lemma SenderIs(w: World, pos: nat)
    requires VotesInv(w) && pos < |w.sent|
    ensures w.sent[pos].msg.sender == w.sent[pos].from && w.sent[pos].from in w.nodes
  {
    hide BallotsInv, NodesInv, OneOfEach;
    assert EnvelopeOk(w, pos);
  }

  lemma HeardIff(n: Node, m: Message)
    requires m.content.AppendRequest? && !Stale(n, m, m.content.term)
    ensures R.HeardNow(n, m) <==> m.content.isHeartbeat
  {
  }

  // ---------------------------------------------------------------- answers

  /** Whoever answers append requests does so when one reaches it. */
  lemma StepResponse(w: World, e: Event, pos: nat)
    requires VotesInv(w) && Enabled(w, e) && e.id in w.hist.visited
    requires |w.sent| <= pos < |Step(w, e).sent| && Step(w, e).sent[pos].msg.content.AppendResponse?
    ensures e.Deliver? && w.sent[e.pos].msg.content.AppendRequest?
  {
    hide VotesInv, Dispatch, ApplyUpTo, ReissueAll, HandleClientRequest, Advance, Remember, Post;
    Identity(w, e.id);
    var n, r := w.nodes[e.id], React(w, e);
    assert Step(w, e).sent[pos] == Post(e.id, r.out)[pos - |w.sent|];
    match e
    case Election(_) => if r.out != [] { PostAlone(n.id, r.out[0]); } else { PostReplies(n.id, []); }
    case HeartbeatTick(_, v) =>
      if n.role.Leader? && n.matchIndex != map[] { C.HeartbeatBrings(n, v); } else { PostReplies(n.id, []); }
    case ReissueTick(_, order) => if n.role.Leader? { ReissueOnly(n, order); } else { PostReplies(n.id, []); }
    case Call(_, client, request) => CallOnly(n, Message(0, client, ClientCall(request)));
    case Deliver(at, _) =>
      if !w.sent[at].msg.content.AppendRequest? { OtherOnly(n, w.sent[at].msg); }
  }

  lemma CallOnly(n: Node, m: Message)
    requires m.content.ClientCall?
    ensures forall v <- Post(n.id, HandleClientRequest(n, m).out) :: v.msg.content.AppendRequest?
  {
    var r := HandleClientRequest(n, m);
    if r.out != [] { PostAlone(n.id, r.out[0]); }
  }

  lemma OtherOnly(n: Node, m: Message)
    requires !m.content.AppendRequest?
    ensures forall v <- Post(n.id, Dispatch(n, m).out) :: !v.msg.content.AppendResponse?
  {
    hide Grants;
    var r := Dispatch(n, m);
    if r.out != [] { PostAlone(n.id, r.out[0]); }
  }

  lemma {:induction false} ReissueOnly(n: Node, order: seq<Id>)
    requires forall p <- order :: p in n.nextIndex
    ensures forall v <- Post(n.id, ReissueAll(n, order)) :: v.msg.content.AppendRequest?
  {
    if order != [] {
      ReissueOnly(n, order[1..]);
      PostConcat(n.id, ReissueTo(n, order[0]), ReissueAll(n, order[1..]));
      if ReissueTo(n, order[0]) != [] { PostAlone(n.id, ReissueTo(n, order[0])[0]); }
    }
  }

  /** In every run: an answer to an append request says how far its sender's log went right after the request had
      reached it; a rejection names the place that the request followed, an acceptance says that the entries are
      in. */
  lemma AnswerTellsTheLog(ws: seq<World>, es: seq<Event>, i: nat, pos: nat) returns (j: nat)
    requires IsRun(ws, es) && i < |ws| && pos < |ws[i].sent| && ws[i].sent[pos].msg.content.AppendResponse?
    ensures |ws| == |es| + 1 && j < i && es[j].Deliver? && es[j].id == ws[i].sent[pos].from && es[j].pos < |ws[j].sent|
    ensures |ws[j].sent| == pos && ws[j].sent[es[j].pos].msg.content.AppendRequest?
    ensures es[j].id in ws[j].nodes && es[j].id in ws[j + 1].nodes
    ensures var n, n', c, a := ws[j].nodes[es[j].id], ws[j + 1].nodes[es[j].id], ws[j].sent[es[j].pos].msg.content, ws[i].sent[pos].msg.content;
            && a.term == c.term >= n.term && !c.isHeartbeat
            && (a.success <==> HasEntry(n.entries, c.prevLogIndex, c.prevLogTerm))
            && a.lastIndex == n'.lastLogIndex
            && n'.entries == n.entries + (if a.success then c.entries else [])
            && a.conflictIndex == if a.success then 0 else c.prevLogIndex
  {
    hide IsRun, Step, VotesInv, HasEntry, EntersTerm;
    RunLength(ws, es);
    j := SentAt(ws, es, i, pos);
    RunStep(ws, es, j);
    VotesRun(ws, es, j);
    StepResponse(ws[j], es[j], pos);
    DeliveredHere(ws[j], es[j]);
    FollowerHandlesAppend(ws, es, j, es[j].pos, es[j].id);
  }

  lemma DeliveredHere(w: World, e: Event)
    requires Enabled(w, e) && e.Deliver?
    ensures e.pos < |w.sent| && e.id in w.nodes
  {
  }

  lemma ResponseEffect(n: Node, m: Message)
    requires m.content.AppendResponse? && m.cluster == n.cluster
    ensures HandleAppendResponse(n, m).out == []
    ensures var n', c, f := HandleAppendResponse(n, m).node, m.content, m.sender;
            if c.term < n.term then n' == n
            else if c.term > n.term then n' == n.(term := c.term, role := Follower, votes := 0, votedFor := None)
            else if c.success then n' == n.(nextIndex := n.nextIndex[f := c.lastIndex + 1], matchIndex := n.matchIndex[f := c.lastIndex])
            else n' == n.(nextIndex := n.nextIndex[f := c.conflictIndex])
  {
  }

  /** With H1 and H2: an acknowledgement in the leader's own term sets the match index of its sender to the length
      that log had when it answered, and the next index one above; a rejection sends the leader back to the place
      that the rejected request followed. An answer of an older term does nothing, one of a newer term ends the
      leadership. */
  lemma AcknowledgedIsMatched(ws: seq<World>, es: seq<Event>, i: nat, pos: nat, id: Id) returns (j: nat)
    requires IsRun(ws, es) && AlwaysAttributed(ws, es) && AlwaysTail(ws, es) && i < |es| && es[i] == Deliver(pos, id)
    requires pos < |ws[i].sent| && ws[i].sent[pos].msg.content.AppendResponse?
    ensures |ws| == |es| + 1 && id in ws[i].nodes && id in ws[i + 1].nodes && ws[i + 1].sent == ws[i].sent
    ensures j < i && es[j].Deliver? && es[j].id == ws[i].sent[pos].from && es[j].pos < |ws[j].sent|
    ensures ws[j].sent[es[j].pos].msg.content.AppendRequest? && es[j].id in ws[j + 1].nodes
    ensures var n, n', a, f := ws[i].nodes[id], ws[i + 1].nodes[id], ws[i].sent[pos].msg.content, es[j].id;
            var held := |ws[j + 1].nodes[f].entries|;
            && ws[i + 1].nodes == ws[i].nodes[id := n']
            && if a.term < n.term then n' == n
               else if a.term > n.term then n' == n.(term := a.term, role := Follower, votes := 0, votedFor := None)
               else if a.success then n' == n.(nextIndex := n.nextIndex[f := held + 1], matchIndex := n.matchIndex[f := held])
               else n' == n.(nextIndex := n.nextIndex[f := ws[j].sent[es[j].pos].msg.content.prevLogIndex])
  {
    hide IsRun, AlwaysAttributed, AlwaysTail, Remember, VotesInv, TallyInv, LogsInv, OneCluster, HasEntry, Post, HandleAppendResponse;
    RunLength(ws, es);
    RunStep(ws, es, i);
    DeliveredHere(ws[i], es[i]);
    j := AnswerTellsTheLog(ws, es, i, pos);
    LogsRun(ws, es, j + 1);
    R.LastIsLength(ws[j + 1], es[j].id);
    VotesRun(ws, es, i);
    Identity(ws[i], id);
    SenderIs(ws[i], pos);
    var cluster := ClusterRun(ws, es, i);
    ClusterOf(ws[i], cluster, pos, id);
    ResponseEffect(ws[i].nodes[id], ws[i].sent[pos].msg);
    PostReplies(id, []);
  }

  // ---------------------------------------------------------------- catching up

  /** What a leader sends to catch up a peer: its log from the peer's next index on, with what comes before. */
  ghost function CatchUpOf(n: Node, p: Id): Envelope
    requires p in n.nextIndex && 1 <= n.nextIndex[p] <= |n.entries| + 1
  {
    var prev := n.nextIndex[p] - 1;
    Envelope(n.id, Some(p), Message(n.cluster, n.id,
      AppendRequest(n.term, prev, TermAt(n.entries, prev), n.entries[prev..], n.commitIndex, false)))
  }

  ghost predicate Lags(n: Node, p: Id) {
    p in n.nextIndex && 1 <= n.nextIndex[p] <= |n.entries| && p in n.peers
  }

  lemma ReissueOne(n: Node, p: Id)
    requires p in n.nextIndex && n.nextIndex[p] >= 1 && n.lastLogIndex == |n.entries|
    ensures Post(n.id, ReissueTo(n, p)) == if Lags(n, p) then [CatchUpOf(n, p)] else []
  {
    var next := n.nextIndex[p];
    if next <= |n.entries| {
      EntriesFromIsSuffix(n.entries, next);
      if p in n.peers { PostAlone(n.id, ReissueTo(n, p)[0]); }
    }
  }

  ghost predicate CatchesUp(n: Node, order: seq<Id>, envs: seq<Envelope>) {
    && (forall p <- order :: Lags(n, p) ==> CatchUpOf(n, p) in envs)
    && (forall v <- envs :: exists p <- order :: Lags(n, p) && v == CatchUpOf(n, p))
  }

  lemma {:induction false} ReissueCatchesUp(n: Node, order: seq<Id>)
    requires n.lastLogIndex == |n.entries| && forall p <- order :: p in n.nextIndex && n.nextIndex[p] >= 1
    ensures CatchesUp(n, order, Post(n.id, ReissueAll(n, order)))
  {
    hide ReissueTo, CatchUpOf, Lags;
    if order != [] {
      ReissueCatchesUp(n, order[1..]);
      PostConcat(n.id, ReissueTo(n, order[0]), ReissueAll(n, order[1..]));
      ReissueOne(n, order[0]);
      assert order == [order[0]] + order[1..];
    }
  }

  /** With H1 and H2: a leader that walks its next indices sends something to exactly those peers whose next index
      its log has reached, and what it sends one is the log from there on; nothing else changes. */
  lemma ReissueCoversLagging(ws: seq<World>, es: seq<Event>, i: nat, id: Id, order: seq<Id>)
    requires IsRun(ws, es) && AlwaysAttributed(ws, es) && AlwaysTail(ws, es)
    requires i < |es| && es[i] == ReissueTick(id, order) && id in ws[i].nodes && ws[i].nodes[id].role.Leader?
    ensures |ws| == |es| + 1 && ws[i + 1].nodes == ws[i].nodes && ws[i].sent <= ws[i + 1].sent
    ensures CatchesUp(ws[i].nodes[id], order, ws[i + 1].sent[|ws[i].sent|..])
  {
    hide IsRun, AlwaysAttributed, AlwaysTail, Remember, VotesInv, TallyInv, LogsInv, CatchesUp, ReissueAll, Post;
    RunLength(ws, es);
    RunStep(ws, es, i);
    LogsRun(ws, es, i);
    Identity(ws[i], id);
    R.LastIsLength(ws[i], id);
    ReissueCatchesUp(ws[i].nodes[id], order);
    assert ws[i].nodes == ws[i].nodes[id := ws[i].nodes[id]];
    assert ws[i + 1].sent[|ws[i].sent|..] == Post(id, ReissueAll(ws[i].nodes[id], order));
  }
}
