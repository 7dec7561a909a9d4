/** What clients are told: who gets the answer for an index, what it says, and where a refused client is sent. */
module RaftReplies {
  import opened Wrappers
  import opened RaftTypes
  import opened RaftHandlers
  import opened RaftSystem
  import opened RaftFrames
  import opened RaftVotes
  import opened RaftElection
  import opened RaftLogs
  import opened RaftApply
  import opened RaftBallots
  import C = RaftCommitIndex

  // ---------------------------------------------------------------- the answers of one step

  /** The replies in `out` are those for the entries found past n's cursor up to index `to`, and no others. */
  ghost predicate AnsweredUpTo(n: Node, to: nat, out: seq<Outgoing>) {
    && (forall k: nat :: n.lastApplied < k <= to && EntryAt(n.entries, k).Some? ==>
          AnswerFor(n, k, EntryAt(n.entries, k).value) in out)
    && (forall o <- out :: o.ToClient? ==> exists k: nat {:trigger EntryAt(n.entries, k)} ::
          n.lastApplied < k <= to && EntryAt(n.entries, k).Some? && o == AnswerFor(n, k, EntryAt(n.entries, k).value))
  }

  /** The parts of a node that its answers depend on. */
  ghost predicate AnswersAlike(n: Node, v: Node) {
    && v.cluster == n.cluster && v.id == n.id && v.lastApplied == n.lastApplied && v.entries == n.entries
    && v.store == n.store && v.requests == n.requests
  }

  lemma AlikeAnswered(n: Node, v: Node, to: nat, out: seq<Outgoing>)
    requires AnswersAlike(n, v) && AnsweredUpTo(v, to, out)
    ensures AnsweredUpTo(n, to, out)
  {
    hide EntryAt, OpResult, Replay;
    forall k, e ensures AnswerFor(n, k, e) == AnswerFor(v, k, e) {
      assert FoundBefore(n, k) == FoundBefore(v, k);
    }
  }

  lemma ApplyAnswers(n: Node, v: Node, target: nat, last: Outgoing)
    requires AnswersAlike(n, v) && target >= n.lastApplied && !last.ToClient?
    ensures AnsweredUpTo(n, target, ApplyUpTo(v, target).out)
    ensures AnsweredUpTo(n, target, ApplyUpTo(v, target).out + [last])
  {
    hide EntryAt, OpResult, Replay, AnswerFor, ApplyUpTo;
    AppliedEntriesAreAnswered(v, target);
    AlikeAnswered(n, v, target, ApplyUpTo(v, target).out);
  }

  lemma NoAnswers(n: Node, out: seq<Outgoing>)
    requires forall o <- out :: !o.ToClient?
    ensures AnsweredUpTo(n, n.lastApplied, out)
  {
  }

  lemma HeartbeatAnswers(n: Node, v: nat)
    requires n.lastApplied == n.commitIndex
    ensures AnsweredUpTo(n, Advance(n, v).node.lastApplied, Advance(n, v).out)
  {
    hide ApplyUpTo, AnsweredUpTo;
    ApplyUpToFrame(n.(commitIndex := v), v);
    if v > n.commitIndex {
      ApplyAnswers(n, n.(commitIndex := v), v, Heartbeat(Advance(n, v).node));
    } else {
      NoAnswers(n, Advance(n, v).out);
    }
  }

  lemma AppendAnswers(n: Node, m: Message)
    requires m.content.AppendRequest? && n.lastApplied == n.commitIndex
    ensures AnsweredUpTo(n, HandleAppendRequest(n, m).node.lastApplied, HandleAppendRequest(n, m).out)
  {
    hide ApplyUpTo, AnsweredUpTo, AppendAll;
    var c, v := m.content, AtTerm(n, m.content.term).(commitIndex := m.content.leaderCommit);
    AppendAllFrame(CatchUp(n, m).node, c.entries);
    if Stale(n, m, c.term) || c.leaderCommit <= n.commitIndex {
      NoAnswers(n, HandleAppendRequest(n, m).out);
    } else {
      ApplyUpToFrame(v, c.leaderCommit);
      ApplyAnswers(n, v, c.leaderCommit, Broadcast(Send(n, AppendResponse(c.term, false, c.prevLogIndex, CatchUp(n, m).node.lastLogIndex))));
      ApplyAnswers(n, v, c.leaderCommit, Broadcast(Send(n, AppendResponse(c.term, true, 0, AppendAll(CatchUp(n, m).node, c.entries).lastLogIndex))));
    }
  }

  lemma OtherAnswers(n: Node, m: Message)
    requires !m.content.AppendRequest? && !m.content.ClientCall?
    ensures AnsweredUpTo(n, Dispatch(n, m).node.lastApplied, Dispatch(n, m).out)
  {
    hide AnsweredUpTo, Grants;
    NoAnswers(n, Dispatch(n, m).out);
  }

  lemma {:induction false} ReissueAnswers(n: Node, order: seq<Id>)
    requires forall p <- order :: p in n.nextIndex
    ensures forall o <- ReissueAll(n, order) :: !o.ToClient?
  {
    if order != [] {
      ReissueAnswers(n, order[1..]);
    }
  }

  lemma StepAnswers(w: World, e: Event)
    requires Enabled(w, e) && !e.Call? && (e.Deliver? ==> !w.sent[e.pos].msg.content.ClientCall?)
    requires w.nodes[e.id].lastApplied == w.nodes[e.id].commitIndex
    ensures AnsweredUpTo(w.nodes[e.id], React(w, e).node.lastApplied, React(w, e).out)
  {
    hide AnsweredUpTo, Dispatch, HandleAppendRequest, Advance, ReissueAll;
    var n, r := w.nodes[e.id], React(w, e);
    match e
    case Election(_) => NoAnswers(n, r.out);
    case HeartbeatTick(_, v) =>
      if n.role.Leader? && n.matchIndex != map[] { HeartbeatAnswers(n, v); } else { NoAnswers(n, r.out); }
    case ReissueTick(_, order) =>
      if n.role.Leader? { ReissueAnswers(n, order); }
      NoAnswers(n, r.out);
    case Deliver(pos, _) =>
      var m := w.sent[pos].msg;
      if m.content.AppendRequest? { AppendAnswers(n, m); AppendIsDispatched(n, m); } else { OtherAnswers(n, m); }
  }

  /** No client call travels between nodes. */
  lemma {:induction false} NoCallsSent(ws: seq<World>, es: seq<Event>, i: nat)
    requires IsRun(ws, es) && i < |ws|
    ensures forall v <- ws[i].sent :: !v.msg.content.ClientCall?
  {
    hide IsRun, React, Remember, VotesInv, Post;
    if i == 0 {
      NothingSent(ws, es);
    } else {
      RunLength(ws, es);
      NoCallsSent(ws, es, i - 1);
      RunStep(ws, es, i - 1);
      VotesRun(ws, es, i - 1);
      Identity(ws[i - 1], es[i - 1].id);
      SendsNoCall(ws[i - 1], es[i - 1]);
    }
  }

  lemma SendsNoCall(w: World, e: Event)
    requires Enabled(w, e) && w.nodes[e.id].id == e.id
    ensures forall v <- Post(e.id, React(w, e).out) :: !v.msg.content.ClientCall?
  {
    hide Dispatch, ApplyUpTo, ReissueAll, HandleAppendRequest, HandleClientRequest, Advance, Post;
    var n, r := w.nodes[e.id], React(w, e);
    match e
    case Election(_) => if r.out != [] { PostAlone(n.id, r.out[0]); } else { PostReplies(n.id, []); }
    case HeartbeatTick(_, v) =>
      if n.role.Leader? && n.matchIndex != map[] { C.HeartbeatBrings(n, v); } else { PostReplies(n.id, []); }
    case ReissueTick(_, order) => if n.role.Leader? { ReissueNoCall(n, order); } else { PostReplies(n.id, []); }
    case Call(_, client, request) => CallNoCall(n, Message(0, client, ClientCall(request)));
    case Deliver(pos, _) =>
      var m := w.sent[pos].msg;
      if m.content.AppendRequest? {
        AppendEffect(n, m);
        AppendIsDispatched(n, m);
      } else {
        MessageNoCall(n, m);
      }
  }

  lemma CallNoCall(n: Node, m: Message)
    requires m.content.ClientCall?
    ensures forall v <- Post(n.id, HandleClientRequest(n, m).out) :: !v.msg.content.ClientCall?
  {
    var r := HandleClientRequest(n, m);
    if r.out != [] { PostAlone(n.id, r.out[0]); }
  }

  lemma MessageNoCall(n: Node, m: Message)
    requires !m.content.AppendRequest?
    ensures forall v <- Post(n.id, Dispatch(n, m).out) :: !v.msg.content.ClientCall?
  {
    hide Grants;
    var r := Dispatch(n, m);
    if r.out != [] { PostAlone(n.id, r.out[0]); }
  }

  lemma {:induction false} ReissueNoCall(n: Node, order: seq<Id>)
    requires forall p <- order :: p in n.nextIndex
    ensures forall v <- Post(n.id, ReissueAll(n, order)) :: !v.msg.content.ClientCall?
  {
    if order != [] {
      ReissueNoCall(n, order[1..]);
      PostConcat(n.id, ReissueTo(n, order[0]), ReissueAll(n, order[1..]));
      if ReissueTo(n, order[0]) != [] { PostAlone(n.id, ReissueTo(n, order[0])[0]); }
    }
  }

  // ---------------------------------------------------------------- the request table

  /** Applying touches the table only at the indices where it finds an entry, and only to fill in the default. */
  lemma {:induction false} ApplyRequests(n: Node, target: nat)
    ensures var n' := ApplyUpTo(n, target).node;
            n.requests.Keys <= n'.requests.Keys && forall k <- n'.requests ::
              n'.requests[k] == RequestFor(n, k) && (k in n.requests || 1 <= k <= |n.entries|)
    decreases target - n.lastApplied
  {
    if n.lastApplied < target {
      ApplyRequests(ApplyNext(n).node, target);
    }
  }

  ghost predicate TableKeeps(n: Node, n': Node) {
    && n.requests.Keys <= n'.requests.Keys
    && forall k <- n'.requests :: n'.requests[k] == RequestFor(n, k) && (k in n.requests || 1 <= k <= |n.entries|)
  }

  lemma HeartbeatTable(n: Node, v: nat)
    ensures TableKeeps(n, Advance(n, v).node)
  {
    hide ApplyUpTo;
    ApplyRequests(n.(commitIndex := v), v);
  }

  lemma AppendTable(n: Node, m: Message)
    requires m.content.AppendRequest?
    ensures TableKeeps(n, HandleAppendRequest(n, m).node)
  {
    hide CatchUp, AppendAll, EntryAt;
    AppendAllFrame(CatchUp(n, m).node, m.content.entries);
    CatchUpTable(n, m);
  }

  lemma CatchUpTable(n: Node, m: Message)
    requires m.content.AppendRequest?
    ensures TableKeeps(n, CatchUp(n, m).node)
  {
    hide ApplyUpTo;
    ApplyRequests(AtTerm(n, m.content.term).(commitIndex := m.content.leaderCommit), m.content.leaderCommit);
  }

  lemma OtherTable(n: Node, m: Message)
    requires !m.content.AppendRequest? && !m.content.ClientCall?
    ensures TableKeeps(n, Dispatch(n, m).node)
  {
    hide Grants, BecomeLeader, HandleVoteResponse;
    if m.content.VoteResponse? { VoteTable(n, m); }
  }

  lemma VoteTable(n: Node, m: Message)
    requires m.content.VoteResponse?
    ensures HandleVoteResponse(n, m).node.requests == n.requests
  {
  }

  lemma StepTable(w: World, e: Event)
    requires Enabled(w, e) && !e.Call? && (e.Deliver? ==> !w.sent[e.pos].msg.content.ClientCall?)
    ensures TableKeeps(w.nodes[e.id], React(w, e).node)
  {
    hide Dispatch, HandleAppendRequest, Advance, ReissueAll;
    var n := w.nodes[e.id];
    match e
    case Election(_) =>
    case HeartbeatTick(_, v) => HeartbeatTable(n, v);
    case ReissueTick(_, order) =>
    case Deliver(pos, _) =>
      var m := w.sent[pos].msg;
      if m.content.AppendRequest? { AppendTable(n, m); AppendIsDispatched(n, m); } else { OtherTable(n, m); }
  }

  lemma CallTable(n: Node, m: Message)
    requires m.content.ClientCall?
    ensures var n' := HandleClientRequest(n, m).node;
            n'.requests == if n.role.Leader? && n.lastLogIndex + 1 !in n.requests
                           then n.requests[n.lastLogIndex + 1 := Request(m.sender, m.content.request.requestId)] else n.requests
  {
  }

  /** Event j is a client call that node id takes as leader, and k is the index its entry gets. */
  ghost predicate TookCall(ws: seq<World>, es: seq<Event>, j: nat, id: Id, k: nat, r: Request) {
    && j < |es| && j < |ws| && es[j].Call? && es[j].id == id && id in ws[j].nodes && ws[j].nodes[id].role.Leader?
    && |ws[j].nodes[id].entries| + 1 == k && r == Request(es[j].client, es[j].request.requestId)
  }

  /** The table of node id names the callers of the indices that the node gave out as leader, and nobody else. */
  ghost predicate TableOk(ws: seq<World>, es: seq<Event>, i: nat, id: Id)
    requires i < |ws| && id in ws[i].nodes
  {
    var n := ws[i].nodes[id];
    && (forall k <- n.requests :: 1 <= k <= |n.entries|)
    && (forall j, k, r :: 0 <= j < i && TookCall(ws, es, j, id, k, r) ==> k in n.requests && n.requests[k] == r)
    && (forall k <- n.requests :: n.requests[k] == Request(0, 0) || exists j :: 0 <= j < i && TookCall(ws, es, j, id, k, n.requests[k]))
  }

  lemma {:induction false} TableRun(ws: seq<World>, es: seq<Event>, i: nat, id: Id)
    requires IsRun(ws, es) && AlwaysAttributed(ws, es) && AlwaysTail(ws, es) && i < |ws| && id in ws[i].nodes
    ensures TableOk(ws, es, i, id)
  {
    hide IsRun, AlwaysAttributed, AlwaysTail, TableOk, TookCall, React, Remember, Post, Enabled, VotesInv, TallyInv, LogsInv;
    RunLength(ws, es);
    if i == 0 {
      C.NothingYet(ws, es, id);
      NoTable(ws, es, id);
    } else {
      RunStep(ws, es, i - 1);
      C.EventNode(ws[i - 1], es[i - 1]);
      TableRun(ws, es, i - 1, id);
      if es[i - 1].id != id {
        TableOfOther(ws, es, i, id);
      } else {
        LogsRun(ws, es, i - 1);
        NoCallsSent(ws, es, i - 1);
        TableOfMover(ws, es, i);
      }
    }
  }

  lemma NoTable(ws: seq<World>, es: seq<Event>, id: Id)
    requires |ws| > 0 && id in ws[0].nodes && ws[0].nodes[id].requests == map[]
    ensures TableOk(ws, es, 0, id)
  {
  }

  lemma TableOfOther(ws: seq<World>, es: seq<Event>, i: nat, id: Id)
    requires 0 < i < |ws| && i <= |es| && id in ws[i - 1].nodes && id in ws[i].nodes && ws[i].nodes[id] == ws[i - 1].nodes[id]
    requires es[i - 1].id != id && TableOk(ws, es, i - 1, id)
    ensures TableOk(ws, es, i, id)
  {
  }

  lemma TableOfMover(ws: seq<World>, es: seq<Event>, i: nat)
    requires 0 < i < |ws| && i <= |es|
    requires Enabled(ws[i - 1], es[i - 1]) && es[i - 1].id in ws[i - 1].hist.visited && ws[i] == Step(ws[i - 1], es[i - 1])
    requires LogsInv(ws[i - 1]) && TableOk(ws, es, i - 1, es[i - 1].id)
    requires forall v <- ws[i - 1].sent :: !v.msg.content.ClientCall?
    ensures TableOk(ws, es, i, es[i - 1].id)
  {
    hide React, Remember, Post, TookCall, LogsInv;
    var w, e := ws[i - 1], es[i - 1];
    AppendOnlyStep(w, e);
    LastIsLength(w, e.id);
    var n, n' := w.nodes[e.id], React(w, e).node;
    if e.Call? {
      Served(w, e);
      TableAfterCall(ws, es, i);
    } else {
      if e.Deliver? { assert w.sent[e.pos] in w.sent; }
      StepTable(w, e);
      TableKept(ws, es, i);
    }
  }

  lemma LastIsLength(w: World, id: Id)
    requires LogsInv(w) && id in w.nodes
    ensures w.nodes[id].lastLogIndex == |w.nodes[id].entries| && forall p <- w.nodes[id].nextIndex :: w.nodes[id].nextIndex[p] >= 1
  {
    hide EnvelopeLog, LogOk;
    assert NodeLog(w.hist, w.nodes[id]);
  }

  lemma NotACall(ws: seq<World>, es: seq<Event>, j: nat)
    requires j < |es| && !es[j].Call?
    ensures forall id, k, r :: !TookCall(ws, es, j, id, k, r)
  {
  }

  lemma Served(w: World, e: Event)
    requires Enabled(w, e) && e.Call?
    ensures React(w, e) == HandleClientRequest(w.nodes[e.id], Message(0, e.client, ClientCall(e.request)))
  {
    hide HandleClientRequest;
  }

  lemma TableKept(ws: seq<World>, es: seq<Event>, i: nat)
    requires 0 < i < |ws| && i <= |es| && es[i - 1].id in ws[i - 1].nodes && es[i - 1].id in ws[i].nodes
    requires TableOk(ws, es, i - 1, es[i - 1].id) && TableKeeps(ws[i - 1].nodes[es[i - 1].id], ws[i].nodes[es[i - 1].id])
    requires ws[i - 1].nodes[es[i - 1].id].entries <= ws[i].nodes[es[i - 1].id].entries
    requires !es[i - 1].Call?
    ensures TableOk(ws, es, i, es[i - 1].id)
  {
    hide TookCall;
    NotACall(ws, es, i - 1);
    var id := es[i - 1].id;
    var n, n' := ws[i - 1].nodes[id], ws[i].nodes[id];
    forall j, k, r | 0 <= j < i && TookCall(ws, es, j, id, k, r) ensures k in n'.requests && n'.requests[k] == r {
      assert j < i - 1;
    }
    forall k | k in n'.requests
      ensures n'.requests[k] == Request(0, 0) || exists j :: 0 <= j < i && TookCall(ws, es, j, id, k, n'.requests[k])
    {
      if k in n.requests && n.requests[k] != Request(0, 0) {
        var j :| 0 <= j < i - 1 && TookCall(ws, es, j, id, k, n.requests[k]);
        assert TookCall(ws, es, j, id, k, n'.requests[k]);
      }
    }
  }

  lemma TableAfterCall(ws: seq<World>, es: seq<Event>, i: nat)
    requires 0 < i < |ws| && i <= |es| && es[i - 1].Call? && es[i - 1].id in ws[i - 1].nodes && es[i - 1].id in ws[i].nodes
    requires TableOk(ws, es, i - 1, es[i - 1].id)
    requires var n, e := ws[i - 1].nodes[es[i - 1].id], es[i - 1];
             && n.lastLogIndex == |n.entries| && (forall p <- n.nextIndex :: n.nextIndex[p] >= 1)
             && ws[i].nodes[e.id] == HandleClientRequest(n, Message(0, e.client, ClientCall(e.request))).node
    ensures TableOk(ws, es, i, es[i - 1].id)
  {
    hide HandleClientRequest;
    var id := es[i - 1].id;
    var n, n', e := ws[i - 1].nodes[id], ws[i].nodes[id], es[i - 1];
    var m := Message(0, e.client, ClientCall(e.request));
    CallTable(n, m);
    CallEffect(n, m);
    var r := Request(e.client, e.request.requestId);
    if n.role.Leader? {
      assert TookCall(ws, es, i - 1, id, |n.entries| + 1, r);
    }
    forall k | k in n'.requests
      ensures n'.requests[k] == Request(0, 0) || exists j :: 0 <= j < i && TookCall(ws, es, j, id, k, n'.requests[k])
    {
      if k in n.requests && n.requests[k] != Request(0, 0) {
        var j :| 0 <= j < i - 1 && TookCall(ws, es, j, id, k, n.requests[k]);
        assert TookCall(ws, es, j, id, k, n'.requests[k]);
      }
    }
  }

  // ---------------------------------------------------------------- theorems

  /** The answer to the client that asked for the entry at index k: the value that the operations found at the
      indices below k leave. */
  ghost predicate Answers(w: World, w': World, id: Id, k: nat, to: Request, o: Outgoing)
    requires id in w.nodes && id in w'.hist.visited && 1 <= k <= |w'.hist.visited[id]|
  {
    var visited := w'.hist.visited[id];
    && visited[k - 1].Some?
    && exists answer: string ::
         && o == ToClient(to.clientId, Message(w.nodes[id].cluster, id, ClientReply(to.requestId, 0, true, answer, "")))
         && Tells(visited[..k - 1], visited[k - 1].value.request.op, answer)
  }

  lemma AnswerIs(w: World, e: Event, k: nat)
    requires ApplyInv(w) && Enabled(w, e) && e.id in w.hist.visited && w.nodes[e.id].id == e.id
    requires var n := w.nodes[e.id]; n.lastApplied < k <= React(w, e).node.lastApplied && EntryAt(n.entries, k).Some?
    ensures var n, w' := w.nodes[e.id], Step(w, e);
            && e.id in w'.hist.visited && 1 <= k <= |w'.hist.visited[e.id]| && w'.hist.visited[e.id][k - 1] == EntryAt(n.entries, k)
            && Answers(w, w', e.id, k, RequestFor(n, k), AnswerFor(n, k, EntryAt(n.entries, k).value))
  {
    hide React, Post, BallotsOf, CountedBy, Replay, OpResult, Tells, EntryAt;
    var n, w' := w.nodes[e.id], Step(w, e);
    var before, visited := w.hist.visited[e.id], w'.hist.visited[e.id];
    assert Cursor(n, before);
    assert visited == before + Looked(n, React(w, e).node);
    assert visited[..k - 1] == before + FoundBefore(n, k);
    ReplayConcat(map[], before, FoundBefore(n, k));
    ResultTells(visited[..k - 1], EntryAt(n.entries, k).value.request.op);
  }

  /** With H1 and H2: whoever called a leader gets, when that node applies the entry it made of the call, the answer
      to that very request: the value that the last PUT below it left under the key, for a GET, or "Null". */
  lemma CallerGetsItsAnswer(ws: seq<World>, es: seq<Event>, j: nat, i: nat, id: Id, k: nat, to: Request)
    returns (o: Outgoing)
    requires IsRun(ws, es) && AlwaysAttributed(ws, es) && AlwaysTail(ws, es) && j < i < |es|
    requires TookCall(ws, es, j, id, k, to)
    requires |ws| == |es| + 1 && id in ws[i].nodes && id in ws[i + 1].nodes
    requires ws[i].nodes[id].lastApplied < k <= ws[i + 1].nodes[id].lastApplied
    ensures Enabled(ws[i], es[i]) && es[i].id == id && o in React(ws[i], es[i]).out
    ensures id in ws[i + 1].hist.visited && 1 <= k <= |ws[i + 1].hist.visited[id]|
    ensures Answers(ws[i], ws[i + 1], id, k, to, o)
    ensures ws[i + 1].hist.visited[id][k - 1].value == Entry(ws[j].nodes[id].term, k, es[j].request)
  {
    hide IsRun, AlwaysAttributed, AlwaysTail, ApplyInv, React, Remember, Post, VotesInv, Answers, Enabled, AnsweredUpTo;
    var w, e, n := ws[i], es[i], ws[i].nodes[id];
    RunStep(ws, es, i);
    C.EventNode(w, e);
    TableRun(ws, es, i, id);
    TakenEntry(ws, es, j, i, id, k, to);
    ApplyRun(ws, es, i);
    VotesRun(ws, es, i);
    Identity(w, id);
    AnswersOut(ws, es, i);
    AnswerIs(w, e, k);
    o := AnswerFor(n, k, EntryAt(n.entries, k).value);
    Given(n, React(w, e).node.lastApplied, React(w, e).out, k);
  }

  lemma Given(n: Node, to: nat, out: seq<Outgoing>, k: nat)
    requires AnsweredUpTo(n, to, out) && n.lastApplied < k <= to && EntryAt(n.entries, k).Some?
    ensures AnswerFor(n, k, EntryAt(n.entries, k).value) in out
  {
    hide EntryAt, AnswerFor;
  }

  lemma AnswersOut(ws: seq<World>, es: seq<Event>, i: nat)
    requires IsRun(ws, es) && i < |es| && i < |ws|
    ensures Enabled(ws[i], es[i]) && es[i].id in ws[i].nodes
    ensures !es[i].Call? ==> AnsweredUpTo(ws[i].nodes[es[i].id], React(ws[i], es[i]).node.lastApplied, React(ws[i], es[i]).out)
    ensures es[i].Call? ==> React(ws[i], es[i]).node.lastApplied == ws[i].nodes[es[i].id].lastApplied
  {
    hide IsRun, ApplyInv, AnsweredUpTo, React;
    var w, e := ws[i], es[i];
    RunStep(ws, es, i);
    ApplyRun(ws, es, i);
    NoCallsSent(ws, es, i);
    CursorNow(w, e.id);
    if e.Call? {
      Served(w, e);
      CallSameCursor(w.nodes[e.id], Message(0, e.client, ClientCall(e.request)));
    } else {
      if e.Deliver? { assert w.sent[e.pos] in w.sent; }
      StepAnswers(w, e);
    }
  }

  /** The entry that a leader made of a call stays where it is. */
  lemma TakenEntry(ws: seq<World>, es: seq<Event>, j: nat, i: nat, id: Id, k: nat, to: Request)
    requires IsRun(ws, es) && AlwaysAttributed(ws, es) && AlwaysTail(ws, es) && j < i < |ws|
    requires TookCall(ws, es, j, id, k, to)
    ensures id in ws[i].nodes && k <= |ws[i].nodes[id].entries|
    ensures ws[i].nodes[id].entries[k - 1] == Entry(ws[j].nodes[id].term, k, es[j].request)
  {
    hide IsRun, AlwaysAttributed, AlwaysTail, LogsInv, VotesInv, TallyInv, HandleClientRequest, Remember, Post;
    LogsRun(ws, es, j);
    LastIsLength(ws[j], id);
    RunStep(ws, es, j);
    Served(ws[j], es[j]);
    CallEffect(ws[j].nodes[id], Message(0, es[j].client, ClientCall(es[j].request)));
    AppendOnlyRun(ws, es, j + 1, i, id);
  }

  /** With H1 and H2, the other way round: whatever a node tells a client, unless it refuses a call, is the answer
      for one index that it has just applied, and goes to the client whose call it took for that index; if it took
      none for it, to the client and request numbered 0. */
  lemma AnswersGoToCallers(ws: seq<World>, es: seq<Event>, i: nat, id: Id, o: Outgoing) returns (k: nat, to: Request)
    requires IsRun(ws, es) && AlwaysAttributed(ws, es) && AlwaysTail(ws, es) && i < |es| && i < |ws|
    requires Enabled(ws[i], es[i]) && es[i].id == id && !es[i].Call? && o in React(ws[i], es[i]).out && o.ToClient?
    ensures |ws| == |es| + 1 && id in ws[i + 1].nodes && ws[i].nodes[id].lastApplied < k <= ws[i + 1].nodes[id].lastApplied
    ensures id in ws[i + 1].hist.visited && 1 <= k <= |ws[i + 1].hist.visited[id]|
    ensures Answers(ws[i], ws[i + 1], id, k, to, o)
    ensures (exists j :: 0 <= j < i && TookCall(ws, es, j, id, k, to)) ||
            (to == Request(0, 0) && forall j, r :: 0 <= j < i ==> !TookCall(ws, es, j, id, k, r))
  {
    hide IsRun, AlwaysAttributed, AlwaysTail, ApplyInv, React, Remember, Post, VotesInv, Answers, Enabled, TookCall, AnsweredUpTo, AnswerFor;
    RunLength(ws, es);
    RunStep(ws, es, i);
    C.EventNode(ws[i], es[i]);
    var w, e, n := ws[i], es[i], ws[i].nodes[id];
    TableRun(ws, es, i, id);
    ApplyRun(ws, es, i);
    VotesRun(ws, es, i);
    Identity(w, id);
    AnswersOut(ws, es, i);
    k := Source(n, React(w, e).node.lastApplied, React(w, e).out, o);
    to := RequestFor(n, k);
    AnswerIs(w, e, k);
  }

  lemma Source(n: Node, to: nat, out: seq<Outgoing>, o: Outgoing) returns (k: nat)
    requires AnsweredUpTo(n, to, out) && o in out && o.ToClient?
    ensures n.lastApplied < k <= to && EntryAt(n.entries, k).Some? && o == AnswerFor(n, k, EntryAt(n.entries, k).value)
  {
    hide EntryAt, AnswerFor;
    k :| n.lastApplied < k <= to && EntryAt(n.entries, k).Some? && o == AnswerFor(n, k, EntryAt(n.entries, k).value);
  }

  // ---------------------------------------------------------------- where a refused client is sent

  /** Event j brings node id a heartbeat of node l that is not stale. */
  ghost predicate Heard(ws: seq<World>, es: seq<Event>, j: nat, id: Id, l: Id) {
    && j < |es| && j < |ws| && es[j].Deliver? && es[j].id == id && id in ws[j].nodes && es[j].pos < |ws[j].sent|
    && HeardNow(ws[j].nodes[id], ws[j].sent[es[j].pos].msg) && ws[j].sent[es[j].pos].msg.sender == l
  }

  ghost predicate HeardNow(n: Node, m: Message) {
    && m.content.AppendRequest? && m.content.isHeartbeat && m.cluster == n.cluster && m.content.term >= n.term
  }

  lemma AppendHears(n: Node, m: Message)
    requires m.content.AppendRequest?
    ensures HandleAppendRequest(n, m).node.leaderId == if HeardNow(n, m) then Some(m.sender) else n.leaderId
  {
    hide ApplyUpTo, AppendAll, EntryAt;
    CatchUpFrame(n, m);
    AppendAllFrame(CatchUp(n, m).node, m.content.entries);
  }

  lemma OtherHears(n: Node, m: Message)
    requires !m.content.AppendRequest?
    ensures Dispatch(n, m).node.leaderId == n.leaderId
  {
    hide Grants;
  }

  lemma StepHears(w: World, e: Event)
    requires Enabled(w, e)
    ensures React(w, e).node.leaderId == if e.Deliver? && HeardNow(w.nodes[e.id], w.sent[e.pos].msg)
                                         then Some(w.sent[e.pos].msg.sender) else w.nodes[e.id].leaderId
  {
    hide Dispatch, HandleAppendRequest, ReissueAll, ApplyUpTo, HeardNow;
    var n := w.nodes[e.id];
    match e
    case Election(_) =>
    case HeartbeatTick(_, v) => ApplyUpToFrame(n.(commitIndex := v), v);
    case ReissueTick(_, order) =>
    case Call(_, client, request) => CallHears(n, Message(0, client, ClientCall(request)));
    case Deliver(pos, _) =>
      var m := w.sent[pos].msg;
      if m.content.AppendRequest? {
        AppendHears(n, m);
        AppendIsDispatched(n, m);
      } else {
        OtherHears(n, m);
        OnlyAppendsAreHeard(n, m);
      }
  }

  lemma OnlyAppendsAreHeard(n: Node, m: Message)
    requires !m.content.AppendRequest?
    ensures !HeardNow(n, m)
  {
  }

  lemma CallHears(n: Node, m: Message)
    requires m.content.ClientCall?
    ensures HandleClientRequest(n, m).node.leaderId == n.leaderId
  {
  }

  /** A node takes for leader whoever sent the last heartbeat that reached it and was not stale. */
  lemma {:induction false} LeaderIsLastHeard(ws: seq<World>, es: seq<Event>, i: nat, id: Id)
    requires IsRun(ws, es) && i < |ws| && id in ws[i].nodes
    ensures ws[i].nodes[id].leaderId == None ==> forall j, l :: 0 <= j < i ==> !Heard(ws, es, j, id, l)
    ensures ws[i].nodes[id].leaderId.Some? ==>
              exists j :: 0 <= j < i && Heard(ws, es, j, id, ws[i].nodes[id].leaderId.value)
                && forall x, l :: j < x < i ==> !Heard(ws, es, x, id, l)
  {
    hide IsRun, React, Remember, Post, Heard, HeardNow, Enabled;
    RunLength(ws, es);
    if i == 0 {
      C.NothingYet(ws, es, id);
    } else {
      RunStep(ws, es, i - 1);
      var w, e := ws[i - 1], es[i - 1];
      C.EventNode(w, e);
      LeaderIsLastHeard(ws, es, i - 1, id);
      StepHears(w, e);
      HeardIs(ws, es, i - 1, id);
      if e.Deliver? && e.id == id && HeardNow(w.nodes[id], w.sent[e.pos].msg) {
        assert Heard(ws, es, i - 1, id, ws[i].nodes[id].leaderId.value);
      } else if ws[i].nodes[id].leaderId.Some? {
        var j :| 0 <= j < i - 1 && Heard(ws, es, j, id, w.nodes[id].leaderId.value)
          && forall x, l :: j < x < i - 1 ==> !Heard(ws, es, x, id, l);
      }
    }
  }

  lemma HeardIs(ws: seq<World>, es: seq<Event>, j: nat, id: Id)
    requires j < |es| && j < |ws| && id in ws[j].nodes && Enabled(ws[j], es[j])
    ensures es[j].Deliver? ==> es[j].pos < |ws[j].sent|
    ensures forall l :: Heard(ws, es, j, id, l) <==>
              es[j].Deliver? && es[j].id == id && HeardNow(ws[j].nodes[id], ws[j].sent[es[j].pos].msg) && ws[j].sent[es[j].pos].msg.sender == l
  {
    hide HeardNow;
  }

  /** Heartbeats come from leaders, in their term. */
  ghost predicate HeartbeatsFromLeaders(w: World) {
    && (forall id <- w.nodes :: w.nodes[id].role.Leader? ==> (w.nodes[id].term, id) in w.hist.leaders)
    && (forall v <- w.sent :: v.msg.content.AppendRequest? && v.msg.content.isHeartbeat ==>
          v.msg.sender == v.from && (v.msg.content.term, v.from) in w.hist.leaders)
    && (forall id <- w.nodes :: w.nodes[id].leaderId.Some? ==> exists t :: (t, w.nodes[id].leaderId.value) in w.hist.leaders)
  }

  ghost predicate BeatsOf(n: Node, envs: seq<Envelope>) {
    forall v <- envs :: v.msg.content.AppendRequest? && v.msg.content.isHeartbeat ==>
      n.role.Leader? && v.msg.sender == v.from == n.id && v.msg.content.term == n.term
  }

  lemma StepBeats(w: World, e: Event)
    requires Enabled(w, e) && w.nodes[e.id].id == e.id
    ensures BeatsOf(w.nodes[e.id], Post(e.id, React(w, e).out))
  {
    hide Dispatch, ApplyUpTo, ReissueAll, HandleAppendRequest, HandleClientRequest, Advance, Post;
    var n, r := w.nodes[e.id], React(w, e);
    match e
    case Election(_) => if r.out != [] { PostAlone(n.id, r.out[0]); } else { PostReplies(n.id, []); }
    case HeartbeatTick(_, v) =>
      if n.role.Leader? && n.matchIndex != map[] { C.HeartbeatBrings(n, v); } else { PostReplies(n.id, []); }
    case ReissueTick(_, order) => if n.role.Leader? { ReissueNoBeat(n, order); } else { PostReplies(n.id, []); }
    case Call(_, client, request) => CallNoBeat(n, Message(0, client, ClientCall(request)));
    case Deliver(pos, _) =>
      var m := w.sent[pos].msg;
      if m.content.AppendRequest? {
        AppendEffect(n, m);
        AppendIsDispatched(n, m);
      } else {
        MessageNoBeat(n, m);
      }
  }

  lemma CallNoBeat(n: Node, m: Message)
    requires m.content.ClientCall?
    ensures BeatsOf(n, Post(n.id, HandleClientRequest(n, m).out))
  {
    var r := HandleClientRequest(n, m);
    if r.out != [] { PostAlone(n.id, r.out[0]); }
  }

  lemma MessageNoBeat(n: Node, m: Message)
    requires !m.content.AppendRequest?
    ensures BeatsOf(n, Post(n.id, Dispatch(n, m).out))
  {
    hide Grants;
    var r := Dispatch(n, m);
    if r.out != [] { PostAlone(n.id, r.out[0]); }
  }

  lemma {:induction false} ReissueNoBeat(n: Node, order: seq<Id>)
    requires forall p <- order :: p in n.nextIndex
    ensures BeatsOf(n, Post(n.id, ReissueAll(n, order)))
  {
    if order != [] {
      ReissueNoBeat(n, order[1..]);
      PostConcat(n.id, ReissueTo(n, order[0]), ReissueAll(n, order[1..]));
      if ReissueTo(n, order[0]) != [] { PostAlone(n.id, ReissueTo(n, order[0])[0]); }
    }
  }

  lemma BeatsStep(w: World, e: Event)
    requires HeartbeatsFromLeaders(w) && Enabled(w, e) && e.id in w.hist.visited && w.nodes[e.id].id == e.id
    ensures HeartbeatsFromLeaders(Step(w, e))
  {
    hide React, Post, BallotsOf, CountedBy, Commits, Looked;
    StepBeats(w, e);
    StepHears(w, e);
    var w' := Step(w, e);
    forall v | v in w'.sent && v.msg.content.AppendRequest? && v.msg.content.isHeartbeat
      ensures v.msg.sender == v.from && (v.msg.content.term, v.from) in w'.hist.leaders
    {
      if v !in w.sent { assert v in Post(e.id, React(w, e).out); }
    }
    forall id | id in w'.nodes && w'.nodes[id].leaderId.Some?
      ensures exists t :: (t, w'.nodes[id].leaderId.value) in w'.hist.leaders
    {
      if w'.nodes[id].leaderId == w.nodes[id].leaderId {
        var t :| (t, w.nodes[id].leaderId.value) in w.hist.leaders;
        assert (t, w'.nodes[id].leaderId.value) in w'.hist.leaders;
      } else {
        assert w.sent[e.pos] in w.sent;
        assert (w.sent[e.pos].msg.content.term, w'.nodes[id].leaderId.value) in w'.hist.leaders;
      }
    }
  }

  lemma {:induction false} BeatsRun(ws: seq<World>, es: seq<Event>, i: nat)
    requires IsRun(ws, es) && i < |ws|
    ensures HeartbeatsFromLeaders(ws[i])
  {
    hide IsRun, Step, VotesInv, HeartbeatsFromLeaders;
    if i == 0 {
      NoBeatsYet(ws, es);
    } else {
      RunLength(ws, es);
      BeatsRun(ws, es, i - 1);
      RunStep(ws, es, i - 1);
      C.EventNode(ws[i - 1], es[i - 1]);
      VotesRun(ws, es, i - 1);
      Identity(ws[i - 1], es[i - 1].id);
      BeatsStep(ws[i - 1], es[i - 1]);
    }
  }

  lemma NoBeatsYet(ws: seq<World>, es: seq<Event>)
    requires IsRun(ws, es)
    ensures HeartbeatsFromLeaders(ws[0])
  {
  }

  /** A call that reaches a node that does not lead changes nothing and is refused, with a hint: the node whose
      heartbeat was the last to reach this one, a node that has led some term; 0 if there was none. */
  lemma RefusalNamesLastHeard(ws: seq<World>, es: seq<Event>, i: nat, id: Id, client: Id, request: ClientRequest)
    returns (hint: Id)
    requires IsRun(ws, es) && i < |es| && es[i] == Call(id, client, request) && id in ws[i].nodes && !ws[i].nodes[id].role.Leader?
    ensures |ws| == |es| + 1 && Enabled(ws[i], es[i])
    ensures ws[i + 1].nodes == ws[i].nodes && ws[i + 1].sent == ws[i].sent
    ensures React(ws[i], es[i]).out ==
            [ToClient(client, Message(ws[i].nodes[id].cluster, id, ClientReply(request.requestId, hint, false, "", "Not leader")))]
    ensures (hint == 0 && forall j, l :: 0 <= j < i ==> !Heard(ws, es, j, id, l)) ||
            ((exists j :: 0 <= j < i && Heard(ws, es, j, id, hint) && forall x, l :: j < x < i ==> !Heard(ws, es, x, id, l))
             && exists t :: (t, hint) in ws[i].hist.leaders)
  {
    hide IsRun, Remember, VotesInv, Heard;
    RunLength(ws, es);
    RunStep(ws, es, i);
    VotesRun(ws, es, i);
    Identity(ws[i], id);
    LeaderIsLastHeard(ws, es, i, id);
    BeatsRun(ws, es, i);
    var n := ws[i].nodes[id];
    hint := if n.leaderId.Some? then n.leaderId.value else 0;
    PostAlone(id, React(ws[i], es[i]).out[0]);
    assert ws[i].nodes == ws[i].nodes[id := n];
  }

  /** With H1 and H2: a leader puts a client's request at the end of its log under the next index, sends that one
      entry to everybody together with the place it follows, and tells the client nothing yet. */
  lemma LeaderTakesCall(ws: seq<World>, es: seq<Event>, i: nat, id: Id, client: Id, request: ClientRequest)
    requires IsRun(ws, es) && AlwaysAttributed(ws, es) && AlwaysTail(ws, es)
    requires i < |es| && es[i] == Call(id, client, request) && id in ws[i].nodes && ws[i].nodes[id].role.Leader?
    ensures |ws| == |es| + 1 && Enabled(ws[i], es[i]) && id in ws[i + 1].nodes
    ensures forall o <- React(ws[i], es[i]).out :: !o.ToClient?
    ensures var n, n' := ws[i].nodes[id], ws[i + 1].nodes[id];
            var entry := Entry(n.term, |n.entries| + 1, request);
            && n' == n.(entries := n.entries + [entry], lastLogIndex := entry.index, lastLogTerm := n.term,
                        nextIndex := n.nextIndex[client := entry.index + 1], matchIndex := n.matchIndex[client := entry.index],
                        requests := n'.requests)
            && ws[i + 1].nodes == ws[i].nodes[id := n']
            && ws[i + 1].sent == ws[i].sent +
                 [Envelope(id, None, Message(n.cluster, id,
                    AppendRequest(n.term, |n.entries|, TermAt(n.entries, |n.entries|), [entry], n.commitIndex, false)))]
  {
    hide IsRun, AlwaysAttributed, AlwaysTail, Remember, VotesInv, TallyInv, LogsInv, Post;
    RunLength(ws, es);
    RunStep(ws, es, i);
    LogsRun(ws, es, i);
    Identity(ws[i], id);
    LastIsLength(ws[i], id);
    CallEffect(ws[i].nodes[id], Message(0, client, ClientCall(request)));
  }
}
