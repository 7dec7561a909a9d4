/** The leader's commit rule, and agreement on what it commits. */
module RaftCommit {
  import opened Wrappers
  import opened Sets
  import opened RaftTypes
  import opened RaftHandlers
  import opened RaftSystem
  import opened RaftFrames
  import opened RaftVotes
  import opened RaftElection
  import opened RaftLogs

  // ---------------------------------------------------------------- picking by sorting

  lemma AtMostAndReached(m: map<Id, nat>, v: nat)
    ensures |AtMost(m, v - 1)| + |Reached(m, v)| == |m|
  {
    assert AtMost(m, v - 1) + Reached(m, v) == m.Keys;
    assert AtMost(m, v - 1) * Reached(m, v) == {};
    assert |m.Keys| == |m|;
  }

  lemma AtMostMonotone(m: map<Id, nat>, u: int, v: int)
    requires u <= v
    ensures |AtMost(m, u)| <= |AtMost(m, v)|
  {
    SubsetSize(AtMost(m, u), AtMost(m, v));
  }

  /** With one match index for each of the n peers, the element that the leader picks out of the sorted
      values is the largest that at least n/2 + 1 peers have reached, and no other value is picked. */
  lemma PickIsLargestQuorumValue(m: map<Id, nat>, v: nat, w: nat)
    requires m != map[]
    ensures PickDefined(|m|, |m|)
    ensures IsKth(m, |m| - (|m| / 2 + 1), v) <==>
            |Reached(m, v)| >= |m| / 2 + 1 && forall x: nat :: x > v ==> |Reached(m, x)| < |m| / 2 + 1
    ensures IsKth(m, |m| - (|m| / 2 + 1), v) && IsKth(m, |m| - (|m| / 2 + 1), w) ==> v == w
  {
    var k := |m| - (|m| / 2 + 1);
    AtMostAndReached(m, v);
    AtMostAndReached(m, v + 1);
    forall x: nat | x > v ensures |Reached(m, x)| <= |Reached(m, v + 1)| {
      AtMostAndReached(m, x);
      AtMostMonotone(m, v, x - 1);
    }
    if IsKth(m, k, v) && IsKth(m, k, w) && v != w {
      if v < w { AtMostMonotone(m, v, w - 1); } else { AtMostMonotone(m, w, v - 1); }
    }
  }

  // ---------------------------------------------------------------- invariants

  /** The first m entries of both logs exist and are the same. */
  ghost predicate Agree(a: seq<Entry>, b: seq<Entry>, m: nat) {
    m <= |a| && m <= |b| && a[..m] == b[..m]
  }

  ghost function Holders(w: World, prefix: seq<Entry>): set<Id> {
    set p | p in w.nodes && prefix <= w.nodes[p].entries
  }

  /** A leader's match indices are true, except that they start out at its own commit index. */
  ghost predicate MatchTrue(w: World, c: Id, p: Id)
    requires c in w.nodes && p in w.nodes && p in w.nodes[c].matchIndex
  {
    || w.nodes[c].matchIndex[p] <= w.nodes[c].commitIndex
    || Agree(w.nodes[p].entries, w.nodes[c].entries, w.nodes[c].matchIndex[p])
  }

  ghost predicate MatchOk(w: World, c: Id)
    requires c in w.nodes
  {
    && w.nodes[c].matchIndex.Keys <= w.nodes.Keys
    && (w.nodes[c].role.Leader? ==> w.nodes[c].matchIndex.Keys == w.nodes.Keys)
    && (w.nodes[c].role.Leader? ==> forall p <- w.nodes :: MatchTrue(w, c, p))
  }

  /** A positive append response tells the truth about its sender's log. */
  ghost predicate ResponseTrue(w: World, v: Envelope)
    requires v.msg.content.AppendResponse?
  {
    && v.from in w.nodes && v.msg.content.term in w.hist.leaderLog
    && Agree(w.nodes[v.from].entries, w.hist.leaderLog[v.msg.content.term], v.msg.content.lastIndex)
  }

  ghost predicate CommitHeld(w: World, c: Commit) {
    c.index <= |c.log| && |Holders(w, c.log[..c.index])| >= |w.nodes| / 2 + 1
  }

  ghost predicate CommitInv(w: World) {
    && (forall c <- w.nodes :: MatchOk(w, c))
    && (forall v <- w.sent :: v.msg.content.AppendResponse? && v.msg.content.success ==> ResponseTrue(w, v))
    && (forall c <- w.hist.commits :: CommitHeld(w, c))
  }

  // ---------------------------------------------------------------- logs only grow, so claims stay true

  ghost predicate Monotone(w: World, w': World, id: Id) {
    && id in w.nodes && id in w'.nodes && w'.nodes == w.nodes[id := w'.nodes[id]]
    && w.nodes[id].entries <= w'.nodes[id].entries
    && Grows(w.hist.leaderLog, w'.hist.leaderLog)
  }

  lemma AgreeGrows(a: seq<Entry>, b: seq<Entry>, a': seq<Entry>, b': seq<Entry>, m: nat)
    requires Agree(a, b, m) && a <= a' && b <= b'
    ensures Agree(a', b', m)
  {
    assert a'[..m] == a[..m] && b'[..m] == b[..m];
  }

  lemma MatchStays(w: World, w': World, id: Id, c: Id)
    requires Monotone(w, w', id) && c in w.nodes && c != id && MatchOk(w, c)
    ensures MatchOk(w', c)
  {
    assert w'.nodes.Keys == w.nodes.Keys;
    if w.nodes[c].role.Leader? {
      forall p | p in w'.nodes ensures MatchTrue(w', c, p) {
        assert MatchTrue(w, c, p);
        if w.nodes[c].matchIndex[p] > w.nodes[c].commitIndex {
          AgreeGrows(w.nodes[p].entries, w.nodes[c].entries, w'.nodes[p].entries, w'.nodes[c].entries, w.nodes[c].matchIndex[p]);
        }
      }
    }
  }

  lemma ResponseStays(w: World, w': World, id: Id, v: Envelope)
    requires Monotone(w, w', id) && v.msg.content.AppendResponse? && ResponseTrue(w, v)
    ensures ResponseTrue(w', v)
  {
    var t := v.msg.content.term;
    AgreeGrows(w.nodes[v.from].entries, w.hist.leaderLog[t], w'.nodes[v.from].entries, w'.hist.leaderLog[t], v.msg.content.lastIndex);
  }

  lemma HoldersStay(w: World, w': World, id: Id, c: Commit)
    requires Monotone(w, w', id) && CommitHeld(w, c)
    ensures CommitHeld(w', c)
  {
    var prefix := c.log[..c.index];
    assert w'.nodes.Keys == w.nodes.Keys && |w'.nodes.Keys| == |w'.nodes| && |w.nodes.Keys| == |w.nodes|;
    forall p | p in Holders(w, prefix) ensures p in Holders(w', prefix) {
      assert w.nodes[p].entries <= w'.nodes[p].entries;
    }
    SubsetSize(Holders(w, prefix), Holders(w', prefix));
  }

  lemma CommitCarry(w: World, w': World, id: Id)
    requires CommitInv(w) && Monotone(w, w', id) && MatchOk(w', id) && w.sent <= w'.sent
    requires forall v <- w'.sent[|w.sent|..] :: v.msg.content.AppendResponse? && v.msg.content.success ==> ResponseTrue(w', v)
    requires forall c <- w'.hist.commits :: c in w.hist.commits || CommitHeld(w', c)
    ensures CommitInv(w')
  {
    hide MatchOk, ResponseTrue, CommitHeld, Monotone;
    assert w'.nodes.Keys == w.nodes.Keys by { SameNodes(w, w', id); }
    forall c | c in w'.nodes ensures MatchOk(w', c) {
      if c != id { MatchStays(w, w', id, c); }
    }
    forall v | v in w'.sent && v.msg.content.AppendResponse? && v.msg.content.success ensures ResponseTrue(w', v) {
      var i :| 0 <= i < |w'.sent| && w'.sent[i] == v;
      if i < |w.sent| {
        assert w.sent[i] in w.sent;
        ResponseStays(w, w', id, v);
      } else {
        assert w'.sent[|w.sent|..][i - |w.sent|] == v;
      }
    }
    forall c | c in w'.hist.commits ensures CommitHeld(w', c) {
      if c in w.hist.commits { HoldersStay(w, w', id, c); }
    }
  }

  lemma SameNodes(w: World, w': World, id: Id)
    requires Monotone(w, w', id)
    ensures w'.nodes.Keys == w.nodes.Keys
  {
  }

  // ---------------------------------------------------------------- the moving node's own match indices

  /** Nothing that MatchOk speaks of changed, except that the commit index or the log may have grown and
      the node may have ceased to lead. */
  ghost predicate SameMatch(n: Node, n': Node) {
    && n'.matchIndex == n.matchIndex && n'.commitIndex >= n.commitIndex
    && (n'.role.Leader? ==> n.role.Leader?)
  }

  lemma SameMatchOk(w: World, w': World, id: Id)
    requires CommitInv(w) && Monotone(w, w', id) && SameMatch(w.nodes[id], w'.nodes[id])
    ensures MatchOk(w', id)
  {
    hide ResponseTrue, CommitHeld;
    assert MatchOk(w, id) && w'.nodes.Keys == w.nodes.Keys;
    if w'.nodes[id].role.Leader? {
      forall p | p in w'.nodes ensures MatchTrue(w', id, p) {
        assert MatchTrue(w, id, p);
        if w.nodes[id].matchIndex[p] > w.nodes[id].commitIndex {
          AgreeGrows(w.nodes[p].entries, w.nodes[id].entries, w'.nodes[p].entries, w'.nodes[id].entries, w.nodes[id].matchIndex[p]);
        }
      }
    }
  }

  /** One match index is set to a value up to which the peer's log agrees. */
  lemma SetMatchOk(w: World, w': World, id: Id, f: Id, m: nat)
    requires CommitInv(w) && Monotone(w, w', id) && f in w.nodes
    requires w'.nodes[id].matchIndex == w.nodes[id].matchIndex[f := m]
    requires w'.nodes[id].commitIndex == w.nodes[id].commitIndex && w'.nodes[id].role == w.nodes[id].role
    requires w'.nodes[id].role.Leader? ==> Agree(w'.nodes[f].entries, w'.nodes[id].entries, m)
    ensures MatchOk(w', id)
  {
    hide ResponseTrue, CommitHeld;
    assert MatchOk(w, id) && w'.nodes.Keys == w.nodes.Keys;
    if w'.nodes[id].role.Leader? {
      forall p | p in w'.nodes ensures MatchTrue(w', id, p) {
        assert MatchTrue(w, id, p);
        if p != f && w.nodes[id].matchIndex[p] > w.nodes[id].commitIndex {
          AgreeGrows(w.nodes[p].entries, w.nodes[id].entries, w'.nodes[p].entries, w'.nodes[id].entries, w.nodes[id].matchIndex[p]);
        }
      }
    }
  }

  /** A new leader starts every match index at its commit index. */
  lemma NewLeaderMatchOk(w: World, w': World, id: Id)
    requires CommitInv(w) && Monotone(w, w', id) && w'.nodes[id].peers == w.nodes.Keys
    requires w'.nodes[id].matchIndex == w.nodes[id].matchIndex + map p | p in w.nodes :: w'.nodes[id].commitIndex
    ensures MatchOk(w', id)
  {
    hide ResponseTrue, CommitHeld, Agree;
    assert MatchOk(w, id) && w'.nodes.Keys == w.nodes.Keys;
  }

  /** A value above the commit index that a majority has reached is held by a majority. */
  lemma QuorumHolds(w: World, c: Id, v: nat)
    requires CommitInv(w) && c in w.nodes && w.nodes[c].role.Leader? && v > w.nodes[c].commitIndex
    requires |Reached(w.nodes[c].matchIndex, v)| >= |w.nodes| / 2 + 1
    ensures v <= |w.nodes[c].entries| && |Holders(w, w.nodes[c].entries[..v])| >= |w.nodes| / 2 + 1
  {
    hide ResponseTrue, CommitHeld;
    var n := w.nodes[c];
    var reached := Reached(n.matchIndex, v);
    assert MatchOk(w, c);
    forall p | p in reached
      ensures p in w.nodes && v <= |n.entries| && n.entries[..v] <= w.nodes[p].entries
    {
      assert MatchTrue(w, c, p);
      var m := n.matchIndex[p];
      assert n.entries[..v] == n.entries[..m][..v] && w.nodes[p].entries[..v] == w.nodes[p].entries[..m][..v];
    }
    var p :| p in reached;
    SubsetSize(reached, Holders(w, n.entries[..v]));
  }

  // ---------------------------------------------------------------- steps

  ghost predicate AllInv(w: World) {
    VotesInv(w) && TallyInv(w) && LogsInv(w) && CommitInv(w)
  }

  lemma StepMonotone(w: World, e: Event)
    requires Enabled(w, e) && e.id in w.hist.visited && Ready(w, e)
    ensures Monotone(w, Step(w, e), e.id) && e.id in Step(w, e).nodes
    ensures Step(w, e).sent == w.sent + Post(e.id, React(w, e).out) && Step(w, e).nodes[e.id] == React(w, e).node
    ensures Step(w, e).sent[|w.sent|..] == Post(e.id, React(w, e).out)
    ensures Step(w, e).hist.commits == w.hist.commits +
            if Commits(w.nodes[e.id], e) then {Commit(e.id, w.nodes[e.id].term, e.value, w.nodes[e.id].entries)} else {}
    ensures w.nodes[e.id].id == e.id && w.nodes[e.id].peers == w.nodes.Keys
    ensures NodeLog(w.hist, w.nodes[e.id])
  {
    hide React, Post, VotesInv, TallyInv, LogOk, EnvelopeLog, Extends;
    AppendOnlyStep(w, e);
    LeaderLogsGrow(w, e);
    AtNode(w, e);
    Peers(w, e.id);
    assert NodeLog(w.hist, w.nodes[e.id]);
  }

  lemma Peers(w: World, id: Id)
    requires VotesInv(w) && id in w.nodes
    ensures w.nodes[id].id == id && w.nodes[id].peers == w.nodes.Keys
  {
  }

  lemma LeaderLogsGrow(w: World, e: Event)
    requires Enabled(w, e) && e.id in w.hist.visited && Ready(w, e)
    requires w.nodes[e.id].entries <= React(w, e).node.entries
    ensures Grows(w.hist.leaderLog, Step(w, e).hist.leaderLog)
  {
    hide React, Post, VotesInv, NodeTally, CountOk, LogOk, EnvelopeLog;
    var n, w' := w.nodes[e.id], Step(w, e);
    var n' := w'.nodes[e.id];
    StepExtends(w, e);
    assert NodeLog(w.hist, n);
    if n'.role.Leader? && n'.term in w.hist.leaderLog {
      assert HadLeader(w.hist, n'.term);
      var c :| (n'.term, c) in w.hist.leaders;
      assert (n'.term, c) in w'.hist.leaders && (n'.term, e.id) in w'.hist.leaders;
      assert LeaderOk(w, n'.term, c);
    }
  }

  lemma CommitQuiet(w: World, e: Event)
    requires Enabled(w, e) && e.id in w.hist.visited && Ready(w, e) && CommitInv(w)
    requires !Commits(w.nodes[e.id], e) && SameMatch(w.nodes[e.id], React(w, e).node)
    requires forall v <- Post(e.id, React(w, e).out) :: !(v.msg.content.AppendResponse? && v.msg.content.success)
    ensures CommitInv(Step(w, e))
  {
    hide Ready, CommitInv, Monotone, Step, React, Post, SameMatch, NodeLog;
    StepMonotone(w, e);
    SameMatchOk(w, Step(w, e), e.id);
    CommitCarry(w, Step(w, e), e.id);
  }

  lemma CommitElection(w: World, e: Event)
    requires Enabled(w, e) && e.id in w.hist.visited && Ready(w, e) && CommitInv(w) && (e.Election? || e.ReissueTick?)
    ensures CommitInv(Step(w, e))
  {
    hide Ready, CommitInv, Step, ReissueAll, NodeLog, Monotone;
    StepMonotone(w, e);
    var n, r := w.nodes[e.id], React(w, e);
    if e.Election? {
      if r.out != [] { PostAlone(e.id, r.out[0]); }
    } else if n.role.Leader? {
      ReissueQuiet(n, e.order);
    }
    CommitQuiet(w, e);
  }

  lemma {:induction false} ReissueQuiet(n: Node, order: seq<Id>)
    requires forall p <- order :: p in n.nextIndex
    ensures forall v <- Post(n.id, ReissueAll(n, order)) :: v.msg.content.AppendRequest?
  {
    if order != [] {
      ReissueQuiet(n, order[1..]);
      PostConcat(n.id, ReissueTo(n, order[0]), ReissueAll(n, order[1..]));
      if ReissueTo(n, order[0]) != [] { PostAlone(n.id, ReissueTo(n, order[0])[0]); }
    }
  }

  /** The leader commits what a majority holds. */
  lemma CommitHeartbeat(w: World, e: Event)
    requires Enabled(w, e) && e.id in w.hist.visited && Ready(w, e) && CommitInv(w) && e.HeartbeatTick?
    ensures CommitInv(Step(w, e))
  {
    hide Ready, CommitInv, Step, NodeLog, Monotone, ApplyUpTo, MatchOk, CommitHeld;
    StepMonotone(w, e);
    var n, r, w' := w.nodes[e.id], React(w, e), Step(w, e);
    if n.role.Leader? && n.matchIndex != map[] {
      AdvanceVotes(n, e.value);
      ApplyUpToFrame(n.(commitIndex := e.value), e.value);
    }
    if Commits(n, e) {
      LeaderMatches(w, e.id);
      assert |n.peers| == |n.matchIndex| == |w.nodes| by {
        assert |w.nodes.Keys| == |w.nodes| && |n.matchIndex.Keys| == |n.matchIndex|;
      }
      PickIsLargestQuorumValue(n.matchIndex, e.value, e.value);
      QuorumHolds(w, e.id, e.value);
      var c := Commit(e.id, n.term, e.value, n.entries);
      assert CommitHeld(w, c) by { HeldNow(w, c); }
      HoldersStay(w, w', e.id, c);
      SameMatchOk(w, w', e.id);
      CommitCarry(w, w', e.id);
    } else {
      CommitQuiet(w, e);
    }
  }

  lemma HeldNow(w: World, c: Commit)
    requires c.index <= |c.log| && |Holders(w, c.log[..c.index])| >= |w.nodes| / 2 + 1
    ensures CommitHeld(w, c)
  {
  }

  lemma LeaderMatches(w: World, c: Id)
    requires CommitInv(w) && c in w.nodes && w.nodes[c].role.Leader?
    ensures w.nodes[c].matchIndex.Keys == w.nodes.Keys
  {
    assert MatchOk(w, c);
  }

  lemma CommitCall(w: World, e: Event)
    requires Enabled(w, e) && e.id in w.hist.visited && Ready(w, e) && CommitInv(w) && e.Call? && SelfMatch(w, e)
    ensures CommitInv(Step(w, e))
  {
    hide Ready, CommitInv, Step, Monotone, MatchOk, CommitHeld, ResponseTrue;
    StepMonotone(w, e);
    var n, m, w' := w.nodes[e.id], Message(0, e.client, ClientCall(e.request)), Step(w, e);
    CallEffect(n, m);
    if n.role.Leader? {
      assert w'.nodes[e.id].matchIndex == n.matchIndex[e.id := |n.entries| + 1];
      SetMatchOk(w, w', e.id, e.id, |n.entries| + 1);
      CommitCarry(w, w', e.id);
    } else {
      CommitQuiet(w, e);
    }
  }

  lemma CommitAppend(w: World, e: Event)
    requires Enabled(w, e) && e.id in w.hist.visited && Ready(w, e) && CommitInv(w) && e.Deliver?
    requires w.sent[e.pos].msg.content.AppendRequest? && TailAppend(w, e)
    ensures CommitInv(Step(w, e))
  {
    hide CommitInv, Step, Monotone, MatchOk, CommitHeld, HandleAppendRequest, NodeLog, VotesInv, TallyInv, LogOk, EnvelopeLog, Accepts;
    StepMonotone(w, e);
    var n, m, w' := w.nodes[e.id], w.sent[e.pos].msg, Step(w, e);
    AppendEffect(n, m);
    if Accepts(n, m) {
      SentLog(w, e.pos);
      AcceptedLog(w, e.pos, n);
      ResponseIsTrue(w, w', e.id, m.content.term);
      SameMatchOk(w, w', e.id);
      CommitCarry(w, w', e.id);
    } else {
      CommitQuiet(w, e);
    }
  }

  /** After an accepted append the receiver's whole log is a prefix of the leader's. */
  lemma ResponseIsTrue(w: World, w': World, id: Id, t: nat)
    requires Monotone(w, w', id) && t in w.hist.leaderLog
    requires |w'.nodes[id].entries| <= |w.hist.leaderLog[t]|
    requires w'.nodes[id].entries == w.hist.leaderLog[t][..|w'.nodes[id].entries|]
    ensures forall v: Envelope :: (v.from == id && v.msg.content.AppendResponse? && v.msg.content.term == t
              && v.msg.content.lastIndex == |w'.nodes[id].entries|) ==> ResponseTrue(w', v)
  {
    var k := |w'.nodes[id].entries|;
    assert w.hist.leaderLog[t] <= w'.hist.leaderLog[t];
    assert w'.nodes[id].entries[..k] == w'.nodes[id].entries && w'.hist.leaderLog[t][..k] == w.hist.leaderLog[t][..k];
  }

  lemma CommitResponse(w: World, e: Event)
    requires Enabled(w, e) && e.id in w.hist.visited && Ready(w, e) && CommitInv(w) && e.Deliver?
    requires w.sent[e.pos].msg.content.AppendResponse?
    ensures CommitInv(Step(w, e))
  {
    hide Ready, CommitInv, Step, MatchOk, CommitHeld, TermAt, LogOk;
    StepMonotone(w, e);
    var n, m, w' := w.nodes[e.id], w.sent[e.pos].msg, Step(w, e);
    var c := m.content;
    Sender(w, e);
    PostReplies(e.id, []);
    if !Stale(n, m, c.term) && c.term == n.term && c.success {
      TrueResponse(w, w.sent[e.pos]);
      if n.role.Leader? {
        AgreeGrows(w.nodes[m.sender].entries, w.hist.leaderLog[c.term], w'.nodes[m.sender].entries, w'.nodes[e.id].entries, c.lastIndex);
      }
      SetMatchOk(w, w', e.id, m.sender, c.lastIndex);
      CommitCarry(w, w', e.id);
    } else {
      CommitQuiet(w, e);
    }
  }

  lemma Sender(w: World, e: Event)
    requires Enabled(w, e) && e.id in w.hist.visited && Ready(w, e) && e.Deliver?
    ensures w.sent[e.pos].msg.sender == w.sent[e.pos].from && w.sent[e.pos].from in w.nodes
  {
    hide TallyInv, LogsInv, LeadersKnown, OneOfEach;
    assert EnvelopeOk(w, e.pos);
  }

  lemma TrueResponse(w: World, v: Envelope)
    requires CommitInv(w) && v in w.sent && v.msg.content.AppendResponse? && v.msg.content.success
    ensures ResponseTrue(w, v)
  {
  }

  lemma CommitOther(w: World, e: Event)
    requires Enabled(w, e) && e.id in w.hist.visited && Ready(w, e) && CommitInv(w) && e.Deliver?
    requires !w.sent[e.pos].msg.content.AppendRequest? && !w.sent[e.pos].msg.content.AppendResponse?
    ensures CommitInv(Step(w, e))
  {
    hide Ready, CommitInv, Step, Monotone, MatchOk, CommitHeld, NodeLog, BecomeLeader;
    NoCalls(w, e);
    var n, m := w.nodes[e.id], w.sent[e.pos].msg;
    if m.content.VoteResponse? && React(w, e).node == BecomeLeader(n.(votes := n.votes + 1)) {
      CommitNewLeader(w, e);
    } else {
      OtherEffect(n, m);
      CommitQuiet(w, e);
    }
  }

  /** Votes and unknown messages leave the match indices alone and acknowledge no entries. */
  lemma OtherEffect(n: Node, m: Message)
    requires !m.content.AppendRequest? && !m.content.AppendResponse? && !m.content.ClientCall?
    ensures var r := Dispatch(n, m);
            && (forall v <- Post(n.id, r.out) :: !(v.msg.content.AppendResponse? && v.msg.content.success))
            && ((m.content.VoteResponse? && r.node == BecomeLeader(n.(votes := n.votes + 1))) || SameMatch(n, r.node))
  {
    hide BecomeLeader, Grants;
    var r := Dispatch(n, m);
    if r.out != [] { PostAlone(n.id, r.out[0]); }
  }

  lemma CommitNewLeader(w: World, e: Event)
    requires Enabled(w, e) && e.id in w.hist.visited && Ready(w, e) && CommitInv(w) && e.Deliver?
    requires w.sent[e.pos].msg.content.VoteResponse?
    requires React(w, e).node == BecomeLeader(w.nodes[e.id].(votes := w.nodes[e.id].votes + 1))
    ensures CommitInv(Step(w, e))
  {
    hide Ready, CommitInv, Monotone, MatchOk, CommitHeld, NodeLog;
    StepMonotone(w, e);
    NewLeaderMatchOk(w, Step(w, e), e.id);
    CommitCarry(w, Step(w, e), e.id);
  }

  lemma NoCalls(w: World, e: Event)
    requires Enabled(w, e) && e.id in w.hist.visited && Ready(w, e) && e.Deliver?
    ensures !w.sent[e.pos].msg.content.ClientCall?
  {
    hide VotesInv, TallyInv, LeadersKnown;
    SentLog(w, e.pos);
  }

  lemma CommitStep(w: World, e: Event)
    requires AllInv(w) && Enabled(w, e) && e.id in w.hist.visited
    requires Attributed(w, e) && TailAppend(w, e) && SelfMatch(w, e)
    ensures AllInv(Step(w, e))
  {
    hide VotesInv, TallyInv, LogsInv, CommitInv, LeadersKnown, Step, Attributed, TailAppend, SelfMatch;
    VotesStep(w, e);
    TallyStep(w, e);
    LogsStep(w, e);
    Known(w);
    Known(Step(w, e));
    match e
    case Election(_) => CommitElection(w, e);
    case HeartbeatTick(_, _) => CommitHeartbeat(w, e);
    case ReissueTick(_, _) => CommitElection(w, e);
    case Call(_, _, _) => CommitCall(w, e);
    case Deliver(pos, id) =>
      var m := w.sent[pos].msg;
      if m.content.AppendRequest? { CommitAppend(w, e); }
      else if m.content.AppendResponse? { CommitResponse(w, e); }
      else { CommitOther(w, e); }
  }

  lemma CommitInit(w: World, cluster: nat)
    requires Init(w, cluster)
    ensures CommitInv(w)
  {
  }

  lemma {:induction false} CommitRun(ws: seq<World>, es: seq<Event>, i: nat)
    requires IsRun(ws, es) && AlwaysAttributed(ws, es) && AlwaysTail(ws, es) && AlwaysSelf(ws, es) && i < |ws|
    ensures AllInv(ws[i])
  {
    hide AllInv, VotesInv, TallyInv, LogsInv, CommitInv, Step, Attributed, TailAppend, SelfMatch;
    if i == 0 {
      var cluster :| Init(ws[0], cluster);
      AllInit(ws[0], cluster);
    } else {
      CommitRun(ws, es, i - 1);
      assert IsStep(ws[i - 1], es[i - 1], ws[i]);
      CommitStep(ws[i - 1], es[i - 1]);
    }
  }

  lemma AllInit(w: World, cluster: nat)
    requires Init(w, cluster)
    ensures AllInv(w)
  {
    hide VotesInv, TallyInv, LogsInv, CommitInv;
    VotesInit(w, cluster);
    LogsInit(w, cluster);
    CommitInit(w, cluster);
  }

  // ---------------------------------------------------------------- theorems

  /** Commit agreement: two values that leaders committed by counting, in whatever terms and at whatever
      nodes, stand for logs that agree up to the smaller value. */
  lemma CommitAgreement(ws: seq<World>, es: seq<Event>, i: nat, a: Commit, b: Commit, k: nat)
    requires IsRun(ws, es) && AlwaysAttributed(ws, es) && AlwaysTail(ws, es) && AlwaysSelf(ws, es) && i < |ws|
    requires a in ws[i].hist.commits && b in ws[i].hist.commits && k < a.index && k < b.index
    ensures k < |a.log| && k < |b.log| && a.log[k] == b.log[k]
  {
    hide IsRun, AlwaysAttributed, AlwaysTail, AlwaysSelf, VotesInv, TallyInv, LogsInv;
    CommitRun(ws, es, i);
    var w := ws[i];
    assert CommitHeld(w, a) && CommitHeld(w, b);
    assert |w.nodes.Keys| == |w.nodes|;
    var p := MajoritiesMeet(w.nodes.Keys, Holders(w, a.log[..a.index]), Holders(w, b.log[..b.index]));
    assert a.log[..a.index][k] == w.nodes[p].entries[k] == b.log[..b.index][k];
  }

  /** A committed value is within the committing leader's log, and from then on a majority holds that much
      of it, for good. */
  lemma CommittedStaysHeld(ws: seq<World>, es: seq<Event>, i: nat, c: Commit)
    requires IsRun(ws, es) && AlwaysAttributed(ws, es) && AlwaysTail(ws, es) && AlwaysSelf(ws, es) && i < |ws|
    requires c in ws[i].hist.commits
    ensures c.index <= |c.log| && |Holders(ws[i], c.log[..c.index])| >= |ws[i].nodes| / 2 + 1
  {
    hide IsRun, AlwaysAttributed, AlwaysTail, AlwaysSelf, VotesInv, TallyInv, LogsInv, Holders;
    CommitRun(ws, es, i);
    assert CommitHeld(ws[i], c);
  }

  /** In these runs a leader has one match index for each peer, so its pick is always defined: some value
      enables the heartbeat. */
  lemma LeaderPickDefined(ws: seq<World>, es: seq<Event>, i: nat, c: Id)
    requires IsRun(ws, es) && AlwaysAttributed(ws, es) && AlwaysTail(ws, es) && AlwaysSelf(ws, es) && i < |ws|
    requires c in ws[i].nodes && ws[i].nodes[c].role.Leader?
    ensures ws[i].nodes[c].matchIndex.Keys == ws[i].nodes[c].peers
    ensures PickDefined(|ws[i].nodes[c].peers|, |ws[i].nodes[c].matchIndex|)
  {
    hide IsRun, AlwaysAttributed, AlwaysTail, AlwaysSelf, VotesInv, TallyInv, LogsInv;
    CommitRun(ws, es, i);
    LeaderMatches(ws[i], c);
    Peers(ws[i], c);
    var m := ws[i].nodes[c].matchIndex;
    assert c in m && m != map[];
    assert |m.Keys| == |m|;
    PickIsLargestQuorumValue(m, 0, 0);
  }

  /** H3 is what keeps match indices honest: after a leader has taken a client's entry, its match indices are
      keyed by its peers and true exactly when the client goes by the leader's own id, or by the id of a peer
      while the commit index is already past the new entry. */
  lemma MatchIsTrueIffSelf(w: World, e: Event)
    requires AllInv(w) && Enabled(w, e) && e.id in w.hist.visited && Attributed(w, e) && TailAppend(w, e)
    requires e.Call? && w.nodes[e.id].role.Leader?
    ensures MatchOk(Step(w, e), e.id) <==>
            e.client == e.id || (e.client in w.nodes && |w.nodes[e.id].entries| + 1 <= w.nodes[e.id].commitIndex)
  {
    hide Step, VotesInv, TallyInv, LogsInv, CommitHeld, ResponseTrue, Monotone, LeadersKnown, HandleClientRequest;
    Known(w);
    LogsStep(w, e);
    VotesStep(w, e);
    TallyStep(w, e);
    Known(Step(w, e));
    StepMonotone(w, e);
    ServedMatch(w, e);
  }

  lemma ServedMatch(w: World, e: Event)
    requires CommitInv(w) && LogsInv(w) && Enabled(w, e) && e.id in w.hist.visited
    requires e.Call? && w.nodes[e.id].role.Leader? && NodeLog(w.hist, w.nodes[e.id]) && w.nodes[e.id].id == e.id
    requires Monotone(w, Step(w, e), e.id) && e.id in Step(w, e).nodes && Step(w, e).nodes[e.id] == React(w, e).node
    ensures MatchOk(Step(w, e), e.id) <==>
            e.client == e.id || (e.client in w.nodes && |w.nodes[e.id].entries| + 1 <= w.nodes[e.id].commitIndex)
  {
    hide Step, CommitHeld, ResponseTrue, CommitInv, LogsInv;
    var n, m, w' := w.nodes[e.id], Message(0, e.client, ClientCall(e.request)), Step(w, e);
    CallEffect(n, m);
    var n' := w'.nodes[e.id];
    assert n'.matchIndex == n.matchIndex[e.client := |n.entries| + 1] && n'.commitIndex == n.commitIndex;
    assert w'.nodes.Keys == w.nodes.Keys;
    LeaderMatches(w, e.id);
    if e.client == e.id {
      SetMatchOk(w, w', e.id, e.id, |n.entries| + 1);
    } else if e.client in w.nodes {
      OthersMatchStays(w, w', e.id, e.client, |n.entries| + 1);
      NobodyHoldsNewEntry(w, e.id, e.client, n'.entries);
    } else {
      assert e.client in n'.matchIndex;
    }
  }

  lemma OthersMatchStays(w: World, w': World, id: Id, f: Id, m: nat)
    requires CommitInv(w) && Monotone(w, w', id) && f in w.nodes && w.nodes[id].role.Leader? && w'.nodes[id].role.Leader?
    requires w'.nodes[id].matchIndex == w.nodes[id].matchIndex[f := m] && w'.nodes[id].commitIndex == w.nodes[id].commitIndex
    ensures w'.nodes.Keys == w.nodes.Keys && w'.nodes[id].matchIndex.Keys == w.nodes.Keys
    ensures MatchOk(w', id) <==> MatchTrue(w', id, f)
  {
    hide ResponseTrue, CommitHeld;
    assert MatchOk(w, id) && w'.nodes.Keys == w.nodes.Keys;
    forall p | p in w'.nodes && p != f ensures MatchTrue(w', id, p) {
      assert MatchTrue(w, id, p);
      if w.nodes[id].matchIndex[p] > w.nodes[id].commitIndex {
        AgreeGrows(w.nodes[p].entries, w.nodes[id].entries, w'.nodes[p].entries, w'.nodes[id].entries, w.nodes[id].matchIndex[p]);
      }
    }
  }

  /** The entry that a leader has just made is in no other log. */
  lemma NobodyHoldsNewEntry(w: World, c: Id, p: Id, log: seq<Entry>)
    requires LogsInv(w) && c in w.nodes && p in w.nodes && w.nodes[c].role.Leader?
    requires |log| == |w.nodes[c].entries| + 1 && log[|log| - 1].term == w.nodes[c].term
    ensures !Agree(w.nodes[p].entries, log, |log|)
  {
    hide EnvelopeLog;
    assert NodeLog(w.hist, w.nodes[c]) && NodeLog(w.hist, w.nodes[p]);
    var k := |log| - 1;
    if k < |w.nodes[p].entries| {
      assert Anchored(w.nodes[p].entries, k, w.hist.leaderLog);
      Differ(w.nodes[p].entries, log, k);
    }
  }

  lemma Differ(a: seq<Entry>, b: seq<Entry>, k: nat)
    requires k < |a| && k < |b| && a[k] != b[k]
    ensures forall m: nat :: m > k ==> !Agree(a, b, m)
  {
    forall m: nat | k < m <= |a| && m <= |b| ensures a[..m] != b[..m] {
      assert a[..m][k] == a[k] && b[..m][k] == b[k];
    }
  }
}
