/** What each handler leaves alone and what it puts on the network. */
module RaftFrames {
  import opened Wrappers
  import opened RaftTypes
  import opened RaftHandlers
  import opened RaftSystem

  ghost predicate OnlyReplies(out: seq<Outgoing>) {
    forall o <- out :: o.ToClient?
  }

  /** Applying committed entries moves the cursor, the request table and the store, nothing else. */
  ghost predicate SameButApplied(n: Node, n': Node) {
    n' == n.(lastApplied := n'.lastApplied, requests := n'.requests, store := n'.store)
  }

  lemma {:induction false} ApplyUpToFrame(n: Node, target: nat)
    ensures SameButApplied(n, ApplyUpTo(n, target).node)
    ensures ApplyUpTo(n, target).node.lastApplied == if target > n.lastApplied then target else n.lastApplied
    ensures OnlyReplies(ApplyUpTo(n, target).out)
    decreases target - n.lastApplied
  {
    if n.lastApplied < target {
      ApplyUpToFrame(ApplyNext(n).node, target);
    }
  }

  lemma {:induction false} AppendAllFrame(n: Node, es: seq<Entry>)
    ensures AppendAll(n, es) ==
            n.(entries := n.entries + es,
               lastLogIndex := if es == [] then n.lastLogIndex else es[|es| - 1].index,
               lastLogTerm := if es == [] then n.lastLogTerm else es[|es| - 1].term)
    decreases |es|
  {
    if es == [] {
      assert n.entries + es == n.entries;
    } else {
      AppendAllFrame(AppendEntry(n, es[0]), es[1..]);
      assert n.entries + [es[0]] + es[1..] == n.entries + es;
    }
  }

  lemma {:induction false} PostConcat(from: Id, a: seq<Outgoing>, b: seq<Outgoing>)
    ensures Post(from, a + b) == Post(from, a) + Post(from, b)
  {
    hide Wrap;
    if a == [] {
      assert a + b == b;
    } else {
      PostConcat(from, a[1..], b);
      assert (a + b)[0] == a[0] && (a + b)[1..] == a[1..] + b;
      assert Wrap(from, a[0]) + (Post(from, a[1..]) + Post(from, b)) == Post(from, a) + Post(from, b);
    }
  }

  lemma {:induction false} PostReplies(from: Id, out: seq<Outgoing>)
    requires OnlyReplies(out)
    ensures Post(from, out) == []
  {
    if out != [] {
      assert out[0] in out;
      PostReplies(from, out[1..]);
      assert Post(from, out) == [] + [];
    }
  }

  lemma PostOne(from: Id, out: seq<Outgoing>, m: Message)
    requires OnlyReplies(out)
    ensures Post(from, out + [Broadcast(m)]) == [Envelope(from, None, m)]
  {
    PostConcat(from, out, [Broadcast(m)]);
    PostReplies(from, out);
    PostAlone(from, Broadcast(m));
  }

  lemma PostAlone(from: Id, o: Outgoing)
    ensures Post(from, [o]) == Wrap(from, o)
  {
    assert [o][1..] == [];
  }

  /** The state in which handle_append_entries_request looks at the previous entry. */
  lemma CatchUpFrame(n: Node, m: Message)
    requires m.content.AppendRequest?
    ensures var v, r := AtTerm(n, m.content.term), CatchUp(n, m);
            && SameButApplied(v.(commitIndex := r.node.commitIndex), r.node)
            && r.node.commitIndex == (if m.content.leaderCommit > n.commitIndex then m.content.leaderCommit else n.commitIndex)
            && OnlyReplies(r.out)
  {
    var v := AtTerm(n, m.content.term);
    ApplyUpToFrame(v.(commitIndex := m.content.leaderCommit), m.content.leaderCommit);
  }

  // ---------------------------------------------------------------- terms, roles and votes

  ghost predicate KeepsVotes(n: Node, n': Node) {
    n'.id == n.id && n'.peers == n.peers && n'.term == n.term && n'.role == n.role && n'.votedFor == n.votedFor && n'.votes == n.votes
  }

  ghost predicate Raises(n: Node, n': Node) {
    n'.id == n.id && n'.peers == n.peers && n'.term > n.term && n'.role == Follower && n'.votedFor == None && n'.votes == 0
  }

  /** Handlers that neither ask for votes, nor grant or count one. */
  ghost predicate Plain(w: World, e: Event)
    requires Enabled(w, e)
  {
    BallotsOf(w, e) == {} && CountedBy(w, e) == {}
  }

  ghost predicate NoVotes(id: Id, envs: seq<Envelope>) {
    forall v <- envs :: v.from == id && v.msg.sender == id && !v.msg.content.VoteRequest?
      && !(v.msg.content.VoteResponse? && v.msg.content.granted)
  }

  lemma AppendRequestVotes(n: Node, m: Message)
    requires m.content.AppendRequest?
    ensures var r := HandleAppendRequest(n, m);
            (KeepsVotes(n, r.node) || Raises(n, r.node)) && NoVotes(n.id, Post(n.id, r.out))
  {
    var c, r, v := m.content, HandleAppendRequest(n, m), CatchUp(n, m);
    if !Stale(n, m, c.term) {
      CatchUpFrame(n, m);
      PostReplies(n.id, v.out);
      if !c.isHeartbeat {
        AppendAllFrame(v.node, c.entries);
        if PrevMatches(v.node, c.prevLogIndex, c.prevLogTerm) {
          PostOne(n.id, v.out, Send(n, AppendResponse(c.term, true, 0, r.node.lastLogIndex)));
        } else {
          PostOne(n.id, v.out, Send(n, AppendResponse(c.term, false, c.prevLogIndex, v.node.lastLogIndex)));
        }
      }
    }
  }

  lemma AdvanceVotes(n: Node, v: nat)
    ensures var r := Advance(n, v); KeepsVotes(n, r.node) && Post(n.id, r.out) == [Envelope(n.id, None, Heartbeat(r.node).msg)]
  {
    ApplyUpToFrame(n.(commitIndex := v), v);
    var r := if v > n.commitIndex then ApplyToStateMachine(n, v) else Reaction(n, []);
    PostOne(n.id, r.out, Heartbeat(r.node).msg);
  }

  lemma {:induction false} ReissueVotes(n: Node, order: seq<Id>)
    requires forall p <- order :: p in n.nextIndex
    ensures NoVotes(n.id, Post(n.id, ReissueAll(n, order)))
  {
    if order != [] {
      ReissueVotes(n, order[1..]);
      PostConcat(n.id, ReissueTo(n, order[0]), ReissueAll(n, order[1..]));
      if ReissueTo(n, order[0]) != [] { PostAlone(n.id, ReissueTo(n, order[0])[0]); }
    }
  }

  lemma CallVotes(n: Node, m: Message)
    requires m.content.ClientCall?
    ensures var r := HandleClientRequest(n, m); KeepsVotes(n, r.node) && NoVotes(n.id, Post(n.id, r.out))
  {
    var r := HandleClientRequest(n, m);
    if r.out != [] { PostAlone(n.id, r.out[0]); }
  }

  lemma PlainVotes(w: World, e: Event)
    requires Enabled(w, e) && Plain(w, e) && w.nodes[e.id].id == e.id
    ensures var n, r := w.nodes[e.id], React(w, e);
            (KeepsVotes(n, r.node) || Raises(n, r.node)) && NoVotes(e.id, Post(e.id, r.out))
  {
    hide HandleAppendRequest, ApplyUpTo, ReissueAll, Advance, HandleClientRequest;
    var n := w.nodes[e.id];
    match e
    case Election(_) =>
    case HeartbeatTick(_, v) => AdvanceVotes(n, v);
    case ReissueTick(_, order) => ReissueVotes(n, order);
    case Call(_, client, request) => CallVotes(n, Message(0, client, ClientCall(request)));
    case Deliver(pos, _) =>
      var m := w.sent[pos].msg;
      match m.content {
        case AppendRequest(_, _, _, _, _, _) => AppendRequestVotes(n, m);
        case ClientCall(_) => CallVotes(n, m);
        case VoteRequest(_, _, _) => 
          var r := HandleVoteRequest(n, m);
          if r.out != [] { PostAlone(n.id, r.out[0]); }
        case _ =>
      }
  }
}
