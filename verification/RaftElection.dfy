/** Section 5.2 of the Raft paper: at most one leader in each term, in runs where every counted grant
    was cast for the node that counts it. */
module RaftElection {
  import opened Wrappers
  import opened Sets
  import opened RaftTypes
  import opened RaftHandlers
  import opened RaftSystem
  import opened RaftFrames
  import opened RaftVotes

  ghost function Voters(w: World, c: Id, term: nat): set<Id> {
    set v | v in w.nodes && (c, term, v) in w.hist.counted
  }

  ghost predicate CountOk(w: World, c: Id, term: nat, v: Id) {
    && c in w.nodes && v in w.nodes && term <= w.nodes[c].term
    && HasBallot(w.hist.ballots, v, term, c)
    && (v != c ==> exists i :: 0 <= i < |w.sent| && (i, c) in w.done && IsGrant(w.sent[i], v, term))
  }

  ghost predicate LeaderOk(w: World, term: nat, c: Id) {
    && c in w.nodes && term <= w.nodes[c].term
    && |Voters(w, c, term)| >= |w.nodes| / 2 + 1
    && (term == w.nodes[c].term ==> w.nodes[c].role.Leader?)
  }

  ghost predicate NodeTally(w: World, id: Id)
    requires id in w.nodes
  {
    var n := w.nodes[id];
    && n.votes == |Voters(w, id, n.term)|
    && (n.role.Leader? ==> (n.term, id) in w.hist.leaders)
  }

  ghost predicate TallyInv(w: World) {
    && (forall id <- w.nodes :: NodeTally(w, id))
    && (forall c, term, v :: (c, term, v) in w.hist.counted ==> CountOk(w, c, term, v))
    && (forall term, c :: (term, c) in w.hist.leaders ==> LeaderOk(w, term, c))
  }

  // ---------------------------------------------------------------- steps

  lemma OldCount(w: World, w': World, id: Id, c: Id, term: nat, v: Id)
    requires Extends(w, w', id) && CountOk(w, c, term, v)
    ensures CountOk(w', c, term, v)
  {
    if v != c {
      var i :| 0 <= i < |w.sent| && (i, c) in w.done && IsGrant(w.sent[i], v, term);
      assert w'.sent[i] == w.sent[i] && (i, c) in w'.done;
    }
  }

  lemma OnlyMoves(w: World, w': World, id: Id)
    requires Extends(w, w', id)
    ensures id in w.nodes && w'.nodes.Keys == w.nodes.Keys && |w'.nodes| == |w.nodes|
    ensures w'.nodes[id].term >= w.nodes[id].term
    ensures forall u <- w.nodes :: u != id ==> w'.nodes[u] == w.nodes[u]
  {
    assert |w'.nodes.Keys| == |w.nodes.Keys|;
  }

  lemma OldCounts(w: World, w': World, id: Id)
    requires TallyInv(w) && Extends(w, w', id) && w'.hist.counted == w.hist.counted
    ensures forall c, term, v :: (c, term, v) in w'.hist.counted ==> CountOk(w', c, term, v)
  {
    hide CountOk, Extends, NodeTally, LeaderOk;
    forall c, term, v | (c, term, v) in w'.hist.counted ensures CountOk(w', c, term, v) {
      OldCount(w, w', id, c, term, v);
    }
  }

  /** The moving node keeps its count, or moves to a term in which it has none. */
  ghost predicate KeepsCount(n: Node, n': Node) {
    (n'.term == n.term && n'.role == n.role && n'.votes == n.votes) || (n'.term > n.term && n'.role == Follower && n'.votes == 0)
  }

  ghost predicate QuietLeaders(w: World, w': World, id: Id) {
    && id in w'.nodes
    && w'.hist.leaders == if w'.nodes[id].role.Leader? then w.hist.leaders + {(w'.nodes[id].term, id)} else w.hist.leaders
  }

  lemma SameVoters(w: World, w': World)
    requires w'.nodes.Keys == w.nodes.Keys && w'.hist.counted == w.hist.counted
    ensures forall c, t :: Voters(w', c, t) == Voters(w, c, t)
    ensures |w'.nodes| == |w.nodes|
  {
    assert |w'.nodes.Keys| == |w.nodes.Keys|;
  }

  lemma QuietTally(w: World, w': World, id: Id)
    requires TallyInv(w) && Extends(w, w', id) && KeepsCount(w.nodes[id], w'.nodes[id])
    requires w'.hist.counted == w.hist.counted && QuietLeaders(w, w', id)
    ensures TallyInv(w')
  {
    hide CountOk, Voters, Extends;
    OnlyMoves(w, w', id);
    SameVoters(w, w');
    assert NodeTally(w, id);
    OldCounts(w, w', id);
    if w'.nodes[id].term > w.nodes[id].term {
      NoVotersYet(w, id, w'.nodes[id].term);
    }
    forall u | u in w'.nodes ensures NodeTally(w', u) {
      assert NodeTally(w, u);
    }
    assert w'.hist.leaders == w.hist.leaders;
    forall term, c | (term, c) in w'.hist.leaders ensures LeaderOk(w', term, c) {
      assert LeaderOk(w, term, c);
    }
  }

  lemma NoVotersYet(w: World, id: Id, term: nat)
    requires TallyInv(w) && id in w.nodes && term > w.nodes[id].term
    ensures Voters(w, id, term) == {}
    ensures forall v :: (id, term, v) !in w.hist.counted
  {
    forall v ensures (id, term, v) !in w.hist.counted {
      if (id, term, v) in w.hist.counted { CountedTerm(w, id, term, v); }
    }
  }

  lemma CountedTerm(w: World, c: Id, term: nat, v: Id)
    requires TallyInv(w) && (c, term, v) in w.hist.counted
    ensures c in w.nodes && term <= w.nodes[c].term
  {
    assert CountOk(w, c, term, v);
  }

  /** One more counted vote for c changes only c's voters of that term. */
  lemma AddedVoter(w: World, w': World, c: Id, t: nat, v: Id)
    requires w'.nodes.Keys == w.nodes.Keys && v in w.nodes && (c, t, v) !in w.hist.counted
    requires w'.hist.counted == w.hist.counted + {(c, t, v)}
    ensures |Voters(w', c, t)| == |Voters(w, c, t)| + 1
    ensures forall d: Id, u: nat :: (d, u) != (c, t) ==> Voters(w', d, u) == Voters(w, d, u)
  {
    assert Voters(w', c, t) == Voters(w, c, t) + {v};
  }

  /** `id` counts one more vote, cast by v for the term that `id` is in afterwards. */
  ghost predicate CountMove(w: World, w': World, id: Id, v: Id) {
    && Extends(w, w', id)
    && var n, n' := w.nodes[id], w'.nodes[id];
       && v in w.nodes && (id, n'.term, v) !in w.hist.counted && CountOk(w', id, n'.term, v)
       && w'.hist.counted == w.hist.counted + {(id, n'.term, v)}
       && n'.votes == (if n'.term == n.term then n.votes else 0) + 1
       && (n.term == n'.term && n.role.Leader? ==> n'.role.Leader?)
       && (n'.role.Leader? ==> n'.votes >= |w.nodes| / 2 + 1)
       && w'.hist.leaders == if n'.role.Leader? then w.hist.leaders + {(n'.term, id)} else w.hist.leaders
  }

  lemma VotesAfter(w: World, w': World, id: Id, v: Id)
    requires TallyInv(w) && CountMove(w, w', id, v)
    ensures w'.nodes[id].votes == |Voters(w', id, w'.nodes[id].term)|
    ensures |Voters(w', id, w'.nodes[id].term)| > |Voters(w, id, w'.nodes[id].term)|
    ensures forall d: Id, u: nat :: (d, u) != (id, w'.nodes[id].term) ==> Voters(w', d, u) == Voters(w, d, u)
  {
    hide TallyInv, Voters, CountOk;
    AddedVoter(w, w', id, w'.nodes[id].term, v);
    TallyOf(w, id);
    if w'.nodes[id].term != w.nodes[id].term { NoVotersYet(w, id, w'.nodes[id].term); }
  }

  lemma TallyOneMore(w: World, w': World, id: Id, v: Id)
    requires TallyInv(w) && CountMove(w, w', id, v)
    ensures TallyInv(w')
  {
    hide CountOk, Voters, Extends;
    VotesAfter(w, w', id, v);
    OnlyMoves(w, w', id);
    forall c, term, u | (c, term, u) in w'.hist.counted ensures CountOk(w', c, term, u) {
      if (c, term, u) in w.hist.counted { OldCount(w, w', id, c, term, u); }
    }
    forall u | u in w'.nodes ensures NodeTally(w', u) {
      assert NodeTally(w, u);
    }
    forall term, c | (term, c) in w'.hist.leaders ensures LeaderOk(w', term, c) {
      if (term, c) in w.hist.leaders { assert LeaderOk(w, term, c); }
    }
  }

  lemma ElectionMove(w: World, e: Event)
    requires VotesInv(w) && TallyInv(w) && Enabled(w, e) && e.Election? && !w.nodes[e.id].role.Leader?
    ensures CountMove(w, Step(w, e), e.id, e.id)
  {
    hide EnvelopesInv, BallotsInv, NodeTally, LeaderOk;
    var n := w.nodes[e.id];
    var own := Ballot(e.id, n.term + 1, e.id, n.lastLogTerm, n.lastLogIndex, n.lastLogTerm, n.lastLogIndex);
    assert own in Step(w, e).hist.ballots;
    NoVotersYet(w, e.id, n.term + 1);
  }

  lemma TallyOf(w: World, id: Id)
    requires TallyInv(w) && id in w.nodes
    ensures w.nodes[id].votes == |Voters(w, id, w.nodes[id].term)|
  {
    assert NodeTally(w, id);
  }

  lemma ReceiptMove(w: World, e: Event)
    requires VotesInv(w) && TallyInv(w) && Enabled(w, e) && Attributed(w, e)
    requires e.Deliver? && CountsVote(w.nodes[e.id], w.sent[e.pos].msg)
    ensures CountMove(w, Step(w, e), e.id, w.sent[e.pos].msg.sender)
  {
    hide BallotsInv, EnvelopesInv, TallyInv, Extends;
    var w', m := Step(w, e), w.sent[e.pos].msg;
    NotCountedBefore(w, e);
    GrantFacts(w, e);
    assert w'.sent == w.sent;
    assert |w.nodes.Keys| == |w.nodes|;
    assert w'.hist.ballots == w.hist.ballots;
    assert (e.pos, e.id) in w'.done && IsGrant(w'.sent[e.pos], m.sender, m.content.term);
    CountExtends(w, e);
    if w.nodes[e.id].role.Leader? { LeaderVotes(w, e.id); }
  }

  lemma GrantFacts(w: World, e: Event)
    requires VotesInv(w) && Enabled(w, e) && e.Deliver? && CountsVote(w.nodes[e.id], w.sent[e.pos].msg)
    ensures var m := w.sent[e.pos].msg;
            m.sender in w.nodes && IsGrant(w.sent[e.pos], m.sender, m.content.term) && w.nodes[e.id].peers == w.nodes.Keys
  {
    hide BallotOk, OneOfEach;
    assert EnvelopeOk(w, e.pos);
  }

  lemma LeaderVotes(w: World, id: Id)
    requires TallyInv(w) && id in w.nodes && w.nodes[id].role.Leader?
    ensures w.nodes[id].votes >= |w.nodes| / 2 + 1
  {
    assert NodeTally(w, id);
    assert LeaderOk(w, w.nodes[id].term, id);
  }

  /** A counted grant of the same voter in the same term would be this very envelope. */
  lemma NotCountedBefore(w: World, e: Event)
    requires VotesInv(w) && TallyInv(w) && Enabled(w, e)
    requires e.Deliver? && CountsVote(w.nodes[e.id], w.sent[e.pos].msg)
    ensures (e.id, w.sent[e.pos].msg.content.term, w.sent[e.pos].msg.sender) !in w.hist.counted
  {
    hide BallotsInv, NodeTally, LeaderOk;
    var m := w.sent[e.pos].msg;
    assert EnvelopeOk(w, e.pos);
    if (e.id, m.content.term, m.sender) in w.hist.counted {
      CountedWasDelivered(w, e.pos, e.id);
    }
  }

  lemma CountedWasDelivered(w: World, pos: nat, id: Id)
    requires VotesInv(w) && TallyInv(w) && pos < |w.sent| && w.sent[pos].from != id
    requires w.sent[pos].msg.content.VoteResponse? && w.sent[pos].msg.content.granted
    requires (id, w.sent[pos].msg.content.term, w.sent[pos].msg.sender) in w.hist.counted
    ensures (pos, id) in w.done
  {
    hide BallotsInv, NodeTally, LeaderOk;
    var m := w.sent[pos].msg;
    assert EnvelopeOk(w, pos);
    assert CountOk(w, id, m.content.term, m.sender);
    var i :| 0 <= i < |w.sent| && (i, id) in w.done && IsGrant(w.sent[i], m.sender, m.content.term);
    assert IsGrant(w.sent[pos], m.sender, m.content.term);
  }

  lemma TallyStep(w: World, e: Event)
    requires VotesInv(w) && TallyInv(w) && Enabled(w, e) && Attributed(w, e)
    ensures TallyInv(Step(w, e))
  {
    hide BallotsInv, EnvelopesInv, TallyInv, Plain, IsGranting, CountsVote, Attributed, Step, CountMove, KeepsCount;
    if Plain(w, e) {
      PlainTally(w, e);
    } else if e.Election? {
      ElectionTally(w, e);
    } else if IsGranting(w, e) {
      GrantEffect(w, e);
      QuietTally(w, Step(w, e), e.id);
    } else {
      NotPlain(w, e);
      ReceiptMove(w, e);
      TallyOneMore(w, Step(w, e), e.id, w.sent[e.pos].msg.sender);
    }
  }

  lemma PlainTally(w: World, e: Event)
    requires VotesInv(w) && TallyInv(w) && Enabled(w, e) && Plain(w, e)
    ensures TallyInv(Step(w, e))
  {
    hide TallyInv, BallotsInv, EnvelopesInv, Dispatch, Grants, CountsVote;
    PlainVotes(w, e);
    PlainBallots(w, e);
    QuietTally(w, Step(w, e), e.id);
  }

  lemma ElectionTally(w: World, e: Event)
    requires VotesInv(w) && TallyInv(w) && Enabled(w, e) && e.Election? && !Plain(w, e)
    ensures TallyInv(Step(w, e))
  {
    hide BallotsInv, EnvelopesInv, TallyInv, Step, CountMove;
    ElectionMove(w, e);
    TallyOneMore(w, Step(w, e), e.id, e.id);
  }

  lemma GrantEffect(w: World, e: Event)
    requires VotesInv(w) && Enabled(w, e) && IsGranting(w, e)
    ensures var w' := Step(w, e);
            && Extends(w, w', e.id) && KeepsCount(w.nodes[e.id], w'.nodes[e.id]) && w'.hist.counted == w.hist.counted
            && QuietLeaders(w, w', e.id)
  {
    hide BallotsInv, EnvelopesInv, Post;
  }

  lemma {:induction false} TallyRun(ws: seq<World>, es: seq<Event>, i: nat)
    requires IsRun(ws, es) && AlwaysAttributed(ws, es) && i < |ws|
    ensures TallyInv(ws[i]) && VotesInv(ws[i])
  {
    hide VotesInv, Step, Attributed;
    VotesRun(ws, es, i);
    if i > 0 {
      TallyRun(ws, es, i - 1);
      assert IsStep(ws[i - 1], es[i - 1], ws[i]);
      TallyStep(ws[i - 1], es[i - 1]);
    }
  }

  // ---------------------------------------------------------------- theorems

  /** Two majorities of the same set of nodes have a node in common. */
  lemma MajoritiesMeet(nodes: set<Id>, a: set<Id>, b: set<Id>) returns (x: Id)
    requires a <= nodes && b <= nodes && |a| >= |nodes| / 2 + 1 && |b| >= |nodes| / 2 + 1
    ensures x in a && x in b
  {
    if a * b == {} {
      assert |a + b| == |a| + |b|;
      SubsetSize(a + b, nodes);
    }
    x :| x in a * b;
  }

  lemma OneLeader(w: World, term: nat, c: Id, d: Id)
    requires VotesInv(w) && TallyInv(w) && (term, c) in w.hist.leaders && (term, d) in w.hist.leaders
    ensures c == d
  {
    hide EnvelopesInv, NodesInv;
    assert LeaderOk(w, term, c) && LeaderOk(w, term, d);
    assert |w.nodes.Keys| == |w.nodes|;
    var v := MajoritiesMeet(w.nodes.Keys, Voters(w, c, term), Voters(w, d, term));
    assert CountOk(w, c, term, v) && CountOk(w, d, term, v);
  }

  /** Election Safety: in a run where every counted grant was cast for the node counting it, two nodes
      that are ever leaders in the same term, at whatever moments, are the same node. */
  lemma ElectionSafety(ws: seq<World>, es: seq<Event>, i: nat, j: nat, c: Id, d: Id)
    requires IsRun(ws, es) && AlwaysAttributed(ws, es) && i < |ws| && j < |ws|
    requires c in ws[i].nodes && d in ws[j].nodes && ws[i].nodes[c].role.Leader? && ws[j].nodes[d].role.Leader?
    requires ws[i].nodes[c].term == ws[j].nodes[d].term
    ensures c == d
  {
    hide VotesInv, Step, Attributed, TallyInv;
    var last := |ws| - 1;
    TallyRun(ws, es, last);
    EverLeader(ws, es, i, c);
    EverLeader(ws, es, j, d);
    HistoryGrows(ws, es, i, last);
    HistoryGrows(ws, es, j, last);
    OneLeader(ws[last], ws[i].nodes[c].term, c, d);
  }

  lemma EverLeader(ws: seq<World>, es: seq<Event>, i: nat, c: Id)
    requires IsRun(ws, es) && AlwaysAttributed(ws, es) && i < |ws| && c in ws[i].nodes && ws[i].nodes[c].role.Leader?
    ensures (ws[i].nodes[c].term, c) in ws[i].hist.leaders
  {
    hide IsRun, AlwaysAttributed;
    TallyRun(ws, es, i);
    assert NodeTally(ws[i], c);
  }

  lemma {:induction false} HistoryGrows(ws: seq<World>, es: seq<Event>, i: nat, j: nat)
    requires IsRun(ws, es) && i <= j < |ws|
    ensures ws[i].hist.leaders <= ws[j].hist.leaders && ws[i].hist.ballots <= ws[j].hist.ballots
    ensures ws[i].nodes.Keys == ws[j].nodes.Keys
    decreases j
  {
    hide BallotsOf, CountedBy, Commits, Looked, React, Post;
    if i < j {
      HistoryGrows(ws, es, i, j - 1);
      assert IsStep(ws[j - 1], es[j - 1], ws[j]);
    }
  }

  /** The counted voters of c in this term who did vote for c. */
  ghost function TrueVoters(w: World, c: Id, term: nat): set<Id> {
    set v | v in w.nodes && (c, term, v) in w.hist.counted && HasBallot(w.hist.ballots, v, term, c)
  }

  /** H1 is what keeps votes_ honest: a received grant leaves votes_ equal to the number of nodes that voted
      for the receiver and were counted exactly when the grant was cast for the receiver. */
  lemma TallyIsTrueIffAttributed(w: World, e: Event)
    requires VotesInv(w) && TallyInv(w) && Enabled(w, e) && e.id in w.hist.visited
    requires e.Deliver? && CountsVote(w.nodes[e.id], w.sent[e.pos].msg)
    ensures var n' := Step(w, e).nodes[e.id];
            n'.votes == |TrueVoters(Step(w, e), e.id, n'.term)| <==> Attributed(w, e)
  {
    hide VotesInv, TallyInv, Step, Voters;
    var w', m := Step(w, e), w.sent[e.pos].msg;
    var t := m.content.term;
    NotCountedBefore(w, e);
    ReceiptEffect(w, e);
    TallyOf(w, e.id);
    TrueBefore(w, e.id, t);
    if Attributed(w, e) {
      assert TrueVoters(w', e.id, t) == Voters(w, e.id, t) + {m.sender};
    } else {
      assert TrueVoters(w', e.id, t) == Voters(w, e.id, t);
    }
  }

  lemma ReceiptEffect(w: World, e: Event)
    requires VotesInv(w) && Enabled(w, e) && e.id in w.hist.visited
    requires e.Deliver? && CountsVote(w.nodes[e.id], w.sent[e.pos].msg)
    ensures var w', n, m := Step(w, e), w.nodes[e.id], w.sent[e.pos].msg;
            && w'.hist.ballots == w.hist.ballots && w'.nodes.Keys == w.nodes.Keys && m.sender in w.nodes
            && w'.hist.counted == w.hist.counted + {(e.id, n.term, m.sender)}
            && w'.nodes[e.id].votes == n.votes + 1 && w'.nodes[e.id].term == n.term == m.content.term
  {
    hide BallotsInv, OneOfEach, Post;
    assert EnvelopeOk(w, e.pos);
  }

  lemma TrueBefore(w: World, c: Id, term: nat)
    requires TallyInv(w)
    ensures TrueVoters(w, c, term) == Voters(w, c, term)
  {
    forall v | v in Voters(w, c, term) ensures v in TrueVoters(w, c, term) {
      assert CountOk(w, c, term, v);
    }
  }
}
