/** How a leader finds the point from which a follower can be caught up: reissue, reject, reissue. */
module RaftSearch {
  import opened Wrappers
  import opened RaftTypes
  import opened RaftHandlers
  import opened RaftSystem
  import opened RaftFrames
  import opened RaftLogs
  import RaftVotes

  // ---------------------------------------------------------------- next_index stays positive, in every run

  ghost predicate PositiveNext(n: Node) {
    forall p <- n.nextIndex :: n.nextIndex[p] >= 1
  }

  ghost predicate PositiveConflict(m: Message) {
    m.content.AppendResponse? && !m.content.success ==> m.content.conflictIndex >= 1
  }

  ghost predicate NextInv(w: World) {
    && (forall id <- w.nodes :: PositiveNext(w.nodes[id]))
    && (forall v <- w.sent :: PositiveConflict(v.msg))
  }

  lemma PositiveHandler(n: Node, m: Message, id: Id)
    requires PositiveNext(n) && PositiveConflict(m) && !m.content.AppendRequest?
    ensures PositiveNext(Dispatch(n, m).node)
    ensures forall v <- Post(id, Dispatch(n, m).out) :: PositiveConflict(v.msg)
  {
    hide HandleClientRequest;
    if m.content.ClientCall? {
      PositiveCall(n, m, id);
    } else {
      var out := Dispatch(n, m).out;
      if out != [] { PostAlone(id, out[0]); }
    }
  }

  lemma PositiveCall(n: Node, m: Message, id: Id)
    requires PositiveNext(n) && m.content.ClientCall?
    ensures PositiveNext(HandleClientRequest(n, m).node)
    ensures forall v <- Post(id, HandleClientRequest(n, m).out) :: PositiveConflict(v.msg)
  {
    var out := HandleClientRequest(n, m).out;
    if out != [] { PostAlone(id, out[0]); }
  }

  lemma PositiveAppend(n: Node, m: Message, id: Id)
    requires PositiveNext(n) && m.content.AppendRequest? && n.id == id
    ensures PositiveNext(HandleAppendRequest(n, m).node)
    ensures forall v <- Post(id, HandleAppendRequest(n, m).out) :: PositiveConflict(v.msg)
  {
    hide HandleAppendRequest;
    AppendEffect(n, m);
  }

  lemma {:induction false} PositiveReissue(n: Node, order: seq<Id>, id: Id)
    requires forall p <- order :: p in n.nextIndex
    ensures forall v <- Post(id, ReissueAll(n, order)) :: PositiveConflict(v.msg)
  {
    if order != [] {
      PositiveReissue(n, order[1..], id);
      PostConcat(id, ReissueTo(n, order[0]), ReissueAll(n, order[1..]));
      if ReissueTo(n, order[0]) != [] { PostAlone(id, ReissueTo(n, order[0])[0]); }
    }
  }

  lemma PositiveStep(w: World, e: Event)
    requires NextInv(w) && Enabled(w, e) && w.nodes[e.id].id == e.id
    ensures PositiveNext(React(w, e).node) && forall v <- Post(e.id, React(w, e).out) :: PositiveConflict(v.msg)
  {
    hide Dispatch, ApplyUpTo, ReissueAll, PositiveConflict, HandleClientRequest;
    var n := w.nodes[e.id];
    match e
    case Election(_) => if React(w, e).out != [] { VoteAsked(n, e.id); }
    case HeartbeatTick(_, v) =>
      if n.role.Leader? && n.matchIndex != map[] { PositiveHeartbeat(n, v); }
    case ReissueTick(_, order) => if n.role.Leader? { PositiveReissue(n, order, e.id); }
    case Call(_, client, request) => PositiveCall(n, Message(0, client, ClientCall(request)), e.id);
    case Deliver(pos, _) =>
      var m := w.sent[pos].msg;
      assert w.sent[pos] in w.sent;
      if m.content.AppendRequest? { PositiveAppend(n, m, e.id); DispatchAppend(n, m); } else { PositiveHandler(n, m, e.id); }
  }

  lemma DispatchAppend(n: Node, m: Message)
    requires m.content.AppendRequest?
    ensures Dispatch(n, m) == HandleAppendRequest(n, m)
  {
  }

  lemma VoteAsked(n: Node, id: Id)
    requires !n.role.Leader?
    ensures forall v <- Post(id, StartElection(n).out) :: PositiveConflict(v.msg)
  {
    PostAlone(id, StartElection(n).out[0]);
  }

  lemma PositiveHeartbeat(n: Node, v: nat)
    requires PositiveNext(n)
    ensures PositiveNext(Advance(n, v).node) && forall x <- Post(n.id, Advance(n, v).out) :: PositiveConflict(x.msg)
  {
    AdvanceVotes(n, v);
    ApplyUpToFrame(n.(commitIndex := v), v);
  }

  /** Without hypotheses: every next index is at least 1 in every reachable state, so the predecessor that
      handle_reissue_timeout subtracts never wraps, and no rejection ever asks for index 0. */
  lemma {:induction false} NextIndexIsPositive(ws: seq<World>, es: seq<Event>, i: nat)
    requires IsRun(ws, es) && i < |ws|
    ensures NextInv(ws[i])
  {
    hide NextInv, React, Remember, Post;
    if i == 0 {
      var cluster :| Init(ws[0], cluster);
      NextInit(ws[0], cluster);
    } else {
      NextIndexIsPositive(ws, es, i - 1);
      assert IsStep(ws[i - 1], es[i - 1], ws[i]);
      Ids(ws, es, i - 1);
      NextStep(ws[i - 1], es[i - 1]);
    }
  }

  lemma NextInit(w: World, cluster: nat)
    requires Init(w, cluster)
    ensures NextInv(w)
  {
  }

  lemma NextStep(w: World, e: Event)
    requires NextInv(w) && Enabled(w, e) && e.id in w.hist.visited && w.nodes[e.id].id == e.id
    ensures NextInv(Step(w, e))
  {
    hide React, Remember, Post, PositiveNext, PositiveConflict;
    PositiveStep(w, e);
  }

  lemma Ids(ws: seq<World>, es: seq<Event>, i: nat)
    requires IsRun(ws, es) && i < |ws|
    ensures forall id <- ws[i].nodes :: ws[i].nodes[id].id == id
  {
    hide RaftVotes.BallotsInv, RaftVotes.EnvelopesInv, IsRun;
    RaftVotes.VotesRun(ws, es, i);
  }

  // ---------------------------------------------------------------- the search itself

  /** A leader that still has something to send to a follower whose term is not ahead of its own. */
  ghost predicate Searching(l: Node, f: Node) {
    && l.role.Leader? && f.id in l.peers && f.id in l.nextIndex && f.id != l.id
    && l.lastLogIndex == |l.entries| && 1 <= l.nextIndex[f.id] <= |l.entries|
    && f.cluster == l.cluster && f.term <= l.term
  }

  /** The request that the next reissue sends. */
  ghost function Probe(l: Node, f: Node): Message
    requires Searching(l, f)
  {
    var next := l.nextIndex[f.id];
    Send(l, AppendRequest(l.term, next - 1, TermAt(l.entries, next - 1), l.entries[next - 1..], l.commitIndex, false))
  }

  lemma ProbeIsSent(l: Node, f: Node)
    requires Searching(l, f)
    ensures ReissueTo(l, f.id) == [ToPeer(f.id, Probe(l, f))]
  {
    EntriesFromIsSuffix(l.entries, l.nextIndex[f.id]);
  }

  /** Position p is where the two logs can be joined: the start, or an entry of the same term. */
  ghost predicate Joins(l: Node, f: Node, p: nat)
    requires p <= |l.entries|
  {
    p == 0 || (p <= |f.entries| && f.entries[p - 1].term == l.entries[p - 1].term)
  }

  /** The follower's answer to the next reissue, as it goes onto the network. */
  ghost function Answer(l: Node, f: Node): seq<Envelope>
    requires Searching(l, f)
  {
    Post(f.id, HandleAppendRequest(f, Probe(l, f)).out)
  }

  /** The two nodes after a reissue, the follower's answer and the leader's reaction to it. */
  ghost function AfterRound(l: Node, f: Node): (Node, Node)
    requires Searching(l, f)
  {
    var f' := HandleAppendRequest(f, Probe(l, f)).node;
    if Answer(l, f) != [] && Answer(l, f)[0].msg.content.AppendResponse?
    then (HandleAppendResponse(l, Answer(l, f)[0].msg).node, f') else (l, f')
  }

  ghost predicate Accepted(l: Node, f: Node)
    requires Searching(l, f)
  {
    Answer(l, f) != [] && Answer(l, f)[0].msg.content.AppendResponse? && Answer(l, f)[0].msg.content.success
  }

  /** `rounds` rounds lead from (l, f) to (l', f'): the last is accepted, the ones before are rejected. */
  ghost predicate Exchange(l: Node, f: Node, rounds: nat, l': Node, f': Node)
    decreases rounds
  {
    && rounds >= 1 && Searching(l, f)
    && var (l1, f1) := AfterRound(l, f);
       if Accepted(l, f) then rounds == 1 && l' == l1 && f' == f1
       else Exchange(l1, f1, rounds - 1, l', f')
  }

  /** One round: either the logs join at next - 1 and the entries after it are appended, or the leader's
      next index goes down by one and the follower's log stays. */
  lemma Round(l: Node, f: Node)
    requires Searching(l, f)
    ensures var (l', f') := AfterRound(l, f);
            var prev := l.nextIndex[f.id] - 1;
            && f'.id == f.id && l'.entries == l.entries
            && Accepted(l, f) == Joins(l, f, prev)
            && if Joins(l, f, prev) then
                 && f'.entries == f.entries + l.entries[prev..]
                 && l' == l.(nextIndex := l.nextIndex[f.id := f'.lastLogIndex + 1], matchIndex := l.matchIndex[f.id := f'.lastLogIndex])
               else
                 && f'.entries == f.entries && prev >= 1 && l' == l.(nextIndex := l.nextIndex[f.id := prev])
                 && f'.cluster == f.cluster && f'.term == l.term
  {
    hide HandleAppendRequest, Post;
    AppendEffect(f, Probe(l, f));
    SameCluster(f, Probe(l, f));
  }

  lemma SameCluster(n: Node, m: Message)
    requires m.content.AppendRequest?
    ensures HandleAppendRequest(n, m).node.cluster == n.cluster
    ensures !Stale(n, m, m.content.term) && !m.content.isHeartbeat ==> Post(n.id, HandleAppendRequest(n, m).out) != []
  {
    hide ApplyUpTo, AppendAll;
    var c := m.content;
    CatchUpFrame(n, m);
    AppendAllFrame(CatchUp(n, m).node, c.entries);
    PostOne(n.id, CatchUp(n, m).out, Send(n, AppendResponse(c.term, false, c.prevLogIndex, CatchUp(n, m).node.lastLogIndex)));
    PostOne(n.id, CatchUp(n, m).out,
            Send(n, AppendResponse(c.term, true, 0, AppendAll(CatchUp(n, m).node, c.entries).lastLogIndex)));
  }

  /** The exchange ends within next_index rounds, and the position it accepts at is the greatest one below
      next_index at which the two logs can be joined. */
  lemma {:induction false} SearchTerminates(l: Node, f: Node) returns (rounds: nat, p: nat, l': Node, f': Node)
    requires Searching(l, f)
    ensures 1 <= rounds <= l.nextIndex[f.id] && p == l.nextIndex[f.id] - rounds
    ensures Exchange(l, f, rounds, l', f')
    ensures Joins(l, f, p) && forall q :: p < q < l.nextIndex[f.id] ==> !Joins(l, f, q)
    ensures f'.entries == f.entries + l.entries[p..] && l'.entries == l.entries
    ensures f.id in l'.matchIndex && l'.matchIndex[f.id] == f'.lastLogIndex
    ensures f.id in l'.nextIndex && l'.nextIndex[f.id] == f'.lastLogIndex + 1
    decreases l.nextIndex[f.id]
  {
    hide Accepted, AfterRound;
    var next := l.nextIndex[f.id];
    Round(l, f);
    var (l1, f1) := AfterRound(l, f);
    if Joins(l, f, next - 1) {
      rounds, p, l', f' := 1, next - 1, l1, f1;
    } else {
      rounds, p, l', f' := SearchTerminates(l1, f1);
      rounds := rounds + 1;
      forall q | p < q < next ensures !Joins(l, f, q) {
        if q < next - 1 { assert !Joins(l1, f1, q); }
      }
    }
  }
}
