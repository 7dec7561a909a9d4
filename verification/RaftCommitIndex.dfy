/** The commit index of every node, leader or follower: where it comes from, and who holds what it covers. */
module RaftCommitIndex {
  import opened Wrappers
  import opened RaftTypes
  import opened RaftHandlers
  import opened RaftSystem
  import opened RaftFrames
  import opened RaftVotes
  import opened RaftElection
  import opened RaftLogs
  import opened RaftCommit
  import opened RaftBallots
  import RaftApply

  function Max(a: nat, b: nat): nat {
    if a >= b then a else b
  }

  /** The commit index that an event puts before its node: the match index that a leader picks at its heartbeat,
      or the one in an append request that is not stale. */
  ghost function Brought(w: World, e: Event): nat
    requires e.id in w.nodes
  {
    var n := w.nodes[e.id];
    match e
    case HeartbeatTick(_, v) => if n.role.Leader? && n.matchIndex != map[] then v else 0
    case Deliver(pos, _) =>
      if pos < |w.sent| && w.sent[pos].msg.content.AppendRequest? && w.sent[pos].msg.cluster == n.cluster
         && w.sent[pos].msg.content.term >= n.term
      then w.sent[pos].msg.content.leaderCommit else 0
    case _ => 0
  }

  /** Append requests, heartbeats included, name this commit index. */
  ghost predicate Announces(envs: seq<Envelope>, commit: nat) {
    forall v <- envs :: v.msg.content.AppendRequest? ==> v.msg.content.leaderCommit == commit
  }

  lemma HeartbeatBrings(n: Node, v: nat)
    ensures Advance(n, v).node.commitIndex == Max(n.commitIndex, v)
    ensures Post(n.id, Advance(n, v).out) ==
            [Envelope(n.id, None, Message(n.cluster, n.id, AppendRequest(n.term, 0, 0, [], Max(n.commitIndex, v), true)))]
    ensures Advance(n, v).node.entries == n.entries
  {
    AdvanceVotes(n, v);
    ApplyUpToFrame(n.(commitIndex := v), v);
  }

  lemma AppendBrings(n: Node, m: Message)
    requires m.content.AppendRequest?
    ensures HandleAppendRequest(n, m).node.commitIndex == if Stale(n, m, m.content.term) then n.commitIndex else Max(n.commitIndex, m.content.leaderCommit)
    ensures Announces(Post(n.id, HandleAppendRequest(n, m).out), HandleAppendRequest(n, m).node.commitIndex)
  {
    hide ApplyUpTo, AppendAll, HandleAppendRequest, Post;
    AppendEffect(n, m);
    AppendCommits(n, m);
  }

  lemma AppendCommits(n: Node, m: Message)
    requires m.content.AppendRequest?
    ensures HandleAppendRequest(n, m).node.commitIndex == if Stale(n, m, m.content.term) then n.commitIndex else Max(n.commitIndex, m.content.leaderCommit)
  {
    hide ApplyUpTo, AppendAll;
    CatchUpFrame(n, m);
    AppendAllFrame(CatchUp(n, m).node, m.content.entries);
  }

  lemma OtherBrings(n: Node, m: Message)
    requires !m.content.AppendRequest?
    ensures var r := Dispatch(n, m); r.node.commitIndex == n.commitIndex && Announces(Post(n.id, r.out), n.commitIndex)
  {
    hide Grants, HandleClientRequest, HandleVoteResponse;
    RaftApply.SameCursor(n, m);
    if m.content.ClientCall? {
      CallAnnounces(n, m);
    } else {
      var r := Dispatch(n, m);
      if m.content.VoteResponse? { VoteResponseQuiet(n, m); }
      if r.out != [] { PostAlone(n.id, r.out[0]); }
    }
  }

  lemma VoteResponseQuiet(n: Node, m: Message)
    requires m.content.VoteResponse?
    ensures HandleVoteResponse(n, m).out == []
  {
  }

  lemma CallAnnounces(n: Node, m: Message)
    requires m.content.ClientCall?
    ensures var r := HandleClientRequest(n, m); r.node.commitIndex == n.commitIndex && Announces(Post(n.id, r.out), n.commitIndex)
  {
    var r := HandleClientRequest(n, m);
    if r.out != [] { PostAlone(n.id, r.out[0]); }
  }

  lemma {:induction false} ReissueAnnounces(n: Node, order: seq<Id>)
    requires forall p <- order :: p in n.nextIndex
    ensures Announces(Post(n.id, ReissueAll(n, order)), n.commitIndex)
  {
    if order != [] {
      ReissueAnnounces(n, order[1..]);
      PostConcat(n.id, ReissueTo(n, order[0]), ReissueAll(n, order[1..]));
      if ReissueTo(n, order[0]) != [] { PostAlone(n.id, ReissueTo(n, order[0])[0]); }
    }
  }

  /** Every step leaves the moving node's commit index at the greater of the old and the one it was brought, and
      the requests it sends carry the new one. */
  lemma StepBrings(w: World, e: Event)
    requires Enabled(w, e) && w.nodes[e.id].id == e.id
    ensures React(w, e).node.commitIndex == Max(w.nodes[e.id].commitIndex, Brought(w, e))
    ensures Announces(Post(e.id, React(w, e).out), React(w, e).node.commitIndex)
  {
    hide Dispatch, ApplyUpTo, ReissueAll, HandleAppendRequest, HandleClientRequest, Advance;
    var n, r := w.nodes[e.id], React(w, e);
    match e
    case Election(_) => if r.out != [] { PostAlone(n.id, r.out[0]); }
    case HeartbeatTick(_, v) => if n.role.Leader? && n.matchIndex != map[] { HeartbeatBrings(n, v); }
    case ReissueTick(_, order) => if n.role.Leader? { ReissueAnnounces(n, order); }
    case Call(_, client, request) => CallAnnounces(n, Message(0, client, ClientCall(request)));
                                     RaftApply.CallSameCursor(n, Message(0, client, ClientCall(request)));
    case Deliver(pos, _) =>
      var m := w.sent[pos].msg;
      if m.content.AppendRequest? { AppendBrings(n, m); AppendIsDispatched(n, m); } else { OtherBrings(n, m); }
  }

  // ---------------------------------------------------------------- in every run

  /** In every run a node's commit index is the greatest that it was ever brought. */
  lemma {:induction false} CommitIndexIsGreatestBrought(ws: seq<World>, es: seq<Event>, i: nat, id: Id)
    requires IsRun(ws, es) && i < |ws| && id in ws[i].nodes
    ensures |ws| == |es| + 1 && forall j :: 0 <= j < i ==> es[j].id in ws[j].nodes
    ensures forall j :: 0 <= j < i && es[j].id == id ==> Brought(ws[j], es[j]) <= ws[i].nodes[id].commitIndex
    ensures ws[i].nodes[id].commitIndex > 0 ==>
              exists j :: 0 <= j < i && es[j].id == id && Brought(ws[j], es[j]) == ws[i].nodes[id].commitIndex
  {
    hide IsRun, React, Remember, Post, Brought, VotesInv, Enabled;
    RunLength(ws, es);
    if i == 0 {
      NothingYet(ws, es, id);
    } else {
      RunStep(ws, es, i - 1);
      var w, e := ws[i - 1], es[i - 1];
      EventNode(w, e);
      CommitIndexIsGreatestBrought(ws, es, i - 1, id);
      VotesRun(ws, es, i - 1);
      Identity(w, e.id);
      StepBrings(w, e);
    }
  }

  lemma EventNode(w: World, e: Event)
    requires Enabled(w, e)
    ensures e.id in w.nodes
  {
  }

  lemma NothingYet(ws: seq<World>, es: seq<Event>, id: Id)
    requires IsRun(ws, es) && id in ws[0].nodes
    ensures ws[0].nodes[id].commitIndex == 0 && ws[0].sent == [] && ws[0].hist.leaders == {}
    ensures !ws[0].nodes[id].role.Leader? && ws[0].nodes[id].requests == map[] && ws[0].nodes[id].leaderId == None
  {
  }

  /** Some leader counted this index, or it is the start. */
  ghost predicate Counted(h: History, index: nat) {
    index == 0 || exists c <- h.commits :: c.index == index
  }

  ghost predicate AllCounted(w: World) {
    && (forall id <- w.nodes :: Counted(w.hist, w.nodes[id].commitIndex))
    && (forall v <- w.sent :: v.msg.content.AppendRequest? ==> Counted(w.hist, v.msg.content.leaderCommit))
  }

  lemma CountedStays(h: History, h': History, index: nat)
    requires Counted(h, index) && h.commits <= h'.commits
    ensures Counted(h', index)
  {
  }

  lemma BroughtIsCounted(w: World, e: Event)
    requires AllCounted(w) && Enabled(w, e) && e.id in w.hist.visited
    ensures Brought(w, e) > w.nodes[e.id].commitIndex ==> Counted(Step(w, e).hist, Brought(w, e))
  {
    hide Counted, React, Post, Looked, BallotsOf, CountedBy;
    var n, h' := w.nodes[e.id], Step(w, e).hist;
    match e
    case HeartbeatTick(id, v) =>
      if Commits(n, e) { CountedNow(h', Commit(id, n.term, v, n.entries)); }
    case Deliver(pos, _) =>
      assert w.sent[pos] in w.sent;
      if Brought(w, e) > 0 { CountedStays(w.hist, h', Brought(w, e)); }
    case _ =>
  }

  lemma CountedNow(h: History, c: Commit)
    requires c in h.commits
    ensures Counted(h, c.index)
  {
  }

  lemma CountedStep(w: World, e: Event)
    requires AllCounted(w) && Enabled(w, e) && e.id in w.hist.visited && w.nodes[e.id].id == e.id
    ensures AllCounted(Step(w, e))
  {
    hide Counted, React, Post, Brought, Enabled, BallotsOf, CountedBy, Looked;
    EventNode(w, e);
    var w' := Step(w, e);
    StepBrings(w, e);
    BroughtIsCounted(w, e);
    CommitsGrow(w, e);
    forall id | id in w'.nodes ensures Counted(w'.hist, w'.nodes[id].commitIndex) {
      CountedStays(w.hist, w'.hist, w.nodes[id].commitIndex);
    }
    forall v | v in w'.sent && v.msg.content.AppendRequest? ensures Counted(w'.hist, v.msg.content.leaderCommit) {
      if v in w.sent {
        CountedStays(w.hist, w'.hist, v.msg.content.leaderCommit);
      } else {
        assert v in Post(e.id, React(w, e).out);
        assert v.msg.content.leaderCommit == w'.nodes[e.id].commitIndex;
      }
    }
  }

  lemma CommitsGrow(w: World, e: Event)
    requires Enabled(w, e) && e.id in w.hist.visited
    ensures w.hist.commits <= Step(w, e).hist.commits
  {
    hide React, Post, BallotsOf, CountedBy, Looked, Commits;
  }

  /** In every run, without hypotheses, the commit index of every node and the one in every append request on the
      network is 0 or an index that some leader found by counting match indices. */
  lemma {:induction false} CommitIndexIsCounted(ws: seq<World>, es: seq<Event>, i: nat)
    requires IsRun(ws, es) && i < |ws|
    ensures AllCounted(ws[i])
  {
    hide IsRun, AllCounted, Step, VotesInv;
    if i == 0 {
      StartCounted(ws, es);
    } else {
      RunLength(ws, es);
      CommitIndexIsCounted(ws, es, i - 1);
      RunStep(ws, es, i - 1);
      VotesRun(ws, es, i - 1);
      EventNode(ws[i - 1], es[i - 1]);
      Identity(ws[i - 1], es[i - 1].id);
      CountedStep(ws[i - 1], es[i - 1]);
    }
  }

  lemma StartCounted(ws: seq<World>, es: seq<Event>)
    requires IsRun(ws, es)
    ensures AllCounted(ws[0])
  {
  }

  // ---------------------------------------------------------------- with H1 to H3

  /** v is the largest value that n/2 + 1 of the match indices have reached. */
  ghost predicate QuorumReached(m: map<Id, nat>, nodes: nat, v: nat) {
    && |Reached(m, v)| >= nodes / 2 + 1
    && forall x: nat :: x > v ==> |Reached(m, x)| < nodes / 2 + 1
  }

  lemma PickedIsQuorum(m: map<Id, nat>, v: nat)
    requires m != map[] && IsKth(m, |m| - (|m| / 2 + 1), v)
    ensures QuorumReached(m, |m|, v)
  {
    PickIsLargestQuorumValue(m, v, v);
  }

  /** With H1 to H3 a leader's heartbeat leaves its commit index at the largest value that a majority of its match
      indices has reached, unless it is there or further already; its log and everybody else stay, and the one
      message it sends announces the commit index to all. */
  lemma LeaderCommitsQuorumValue(ws: seq<World>, es: seq<Event>, i: nat, id: Id, v: nat)
    requires IsRun(ws, es) && AlwaysAttributed(ws, es) && AlwaysTail(ws, es) && AlwaysSelf(ws, es)
    requires i < |es| && es[i] == HeartbeatTick(id, v) && id in ws[i].nodes && ws[i].nodes[id].role.Leader?
    ensures |ws| == |es| + 1 && id in ws[i + 1].nodes
    ensures var n, n' := ws[i].nodes[id], ws[i + 1].nodes[id];
            && QuorumReached(n.matchIndex, |ws[i].nodes|, v)
            && n'.commitIndex == (if v > n.commitIndex then v else n.commitIndex)
            && n'.lastApplied == n'.commitIndex && n'.entries == n.entries
            && ws[i + 1].nodes == ws[i].nodes[id := n']
            && ws[i + 1].sent == ws[i].sent +
                 [Envelope(id, None, Message(n.cluster, id, AppendRequest(n.term, 0, 0, [], n'.commitIndex, true)))]
  {
    hide IsRun, AlwaysAttributed, AlwaysTail, AlwaysSelf, VotesInv, Remember, Advance, Post, IsKth, QuorumReached,
         RaftApply.Cursor;
    RunLength(ws, es);
    RunStep(ws, es, i);
    var w, e := ws[i], es[i];
    LeaderPickDefined(ws, es, i, id);
    VotesRun(ws, es, i);
    Identity(w, id);
    var m := w.nodes[id].matchIndex;
    assert |m.Keys| == |m| && |w.nodes.Keys| == |w.nodes| && id in m && m != map[];
    PickedIsQuorum(m, v);
    HeartbeatBrings(w.nodes[id], v);
    RaftApply.ApplyRun(ws, es, i + 1);
    RaftApply.CursorNow(ws[i + 1], id);
  }

  /** Whenever a leader's heartbeat raises its commit index, everything up to it is in its log and a majority of
      the nodes holds it. */
  lemma RaisedCommitIsHeld(ws: seq<World>, es: seq<Event>, i: nat, id: Id, v: nat)
    requires IsRun(ws, es) && AlwaysAttributed(ws, es) && AlwaysTail(ws, es) && AlwaysSelf(ws, es)
    requires i < |es| && es[i] == HeartbeatTick(id, v) && i + 1 < |ws| && id in ws[i].nodes && id in ws[i + 1].nodes
    requires ws[i + 1].nodes[id].commitIndex > ws[i].nodes[id].commitIndex
    ensures var w', n' := ws[i + 1], ws[i + 1].nodes[id];
            n'.commitIndex <= |n'.entries| && |Holders(w', n'.entries[..n'.commitIndex])| >= |w'.nodes| / 2 + 1
  {
    hide IsRun, AlwaysAttributed, AlwaysTail, AlwaysSelf, Step, Holders, VotesInv, QuorumReached;
    RunStep(ws, es, i);
    VotesRun(ws, es, i);
    Identity(ws[i], id);
    RaisedByLeader(ws[i], es[i]);
    LeaderCommitsQuorumValue(ws, es, i, id, v);
    CommittedStaysHeld(ws, es, i + 1, Commit(id, ws[i].nodes[id].term, v, ws[i].nodes[id].entries));
  }

  lemma RaisedByLeader(w: World, e: Event)
    requires Enabled(w, e) && e.HeartbeatTick? && e.id in w.hist.visited && w.nodes[e.id].id == e.id
    requires Step(w, e).nodes[e.id].commitIndex > w.nodes[e.id].commitIndex
    ensures var n := w.nodes[e.id];
            n.role.Leader? && Commit(e.id, n.term, e.value, n.entries) in Step(w, e).hist.commits
  {
    hide Post, Advance, Looked;
    StepBrings(w, e);
  }

  /** With H1 to H3 every commit index of every node, follower or leader, stands for a prefix of a leader's log
      that a majority of the nodes holds. */
  lemma EveryCommitIndexIsHeld(ws: seq<World>, es: seq<Event>, i: nat, id: Id) returns (prefix: seq<Entry>)
    requires IsRun(ws, es) && AlwaysAttributed(ws, es) && AlwaysTail(ws, es) && AlwaysSelf(ws, es) && i < |ws|
    requires id in ws[i].nodes
    ensures |prefix| == ws[i].nodes[id].commitIndex
    ensures |prefix| > 0 ==> |Holders(ws[i], prefix)| >= |ws[i].nodes| / 2 + 1
  {
    hide IsRun, AlwaysAttributed, AlwaysTail, AlwaysSelf, Holders;
    CommitIndexIsCounted(ws, es, i);
    prefix := [];
    if ws[i].nodes[id].commitIndex > 0 {
      var c :| c in ws[i].hist.commits && c.index == ws[i].nodes[id].commitIndex;
      CommittedStaysHeld(ws, es, i, c);
      prefix := c.log[..c.index];
    }
  }
}
