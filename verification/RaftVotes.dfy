/** Elections: one vote per term, and at most one leader per term. */
module RaftVotes {
  import opened Wrappers
  import opened RaftTypes
  import opened RaftHandlers
  import opened RaftSystem
  import opened RaftFrames

  // ---------------------------------------------------------------- invariants without hypotheses

  ghost predicate NodesInv(w: World) {
    && w.hist.visited.Keys == w.nodes.Keys
    && forall id <- w.nodes :: w.nodes[id].id == id && w.nodes[id].peers == w.nodes.Keys
  }

  /** Section 5.4.1 of the Raft paper: the candidate's log is at least as up to date as the voter's. */
  ghost predicate PassedLogTest(b: Ballot) {
    b.lastTerm > b.voterLastTerm || (b.lastTerm == b.voterLastTerm && b.lastIndex >= b.voterLastIndex)
  }

  ghost predicate BallotOk(w: World, b: Ballot) {
    && b.voter in w.nodes
    && b.term <= w.nodes[b.voter].term
    && (b.term == w.nodes[b.voter].term ==> w.nodes[b.voter].votedFor == Some(b.candidate))
    && (b.voter != b.candidate ==> PassedLogTest(b))
  }

  ghost predicate BallotsInv(w: World) {
    && (forall b <- w.hist.ballots :: BallotOk(w, b))
    && (forall a, b :: (a in w.hist.ballots && b in w.hist.ballots && a.voter == b.voter && a.term == b.term)
          ==> a.candidate == b.candidate)
  }

  ghost predicate IsRequest(v: Envelope, from: Id, term: nat) {
    v.from == from && v.msg.content.VoteRequest? && v.msg.content.term == term
  }

  ghost predicate IsGrant(v: Envelope, from: Id, term: nat) {
    v.from == from && v.msg.content.VoteResponse? && v.msg.content.granted && v.msg.content.term == term
  }

  /** The vote request that a grant of this term answers: it reached the voter, who voted for its sender. */
  ghost predicate Answered(w: World, k: nat, voter: Id, term: nat) {
    && k < |w.sent| && (k, voter) in w.done
    && IsRequest(w.sent[k], w.sent[k].from, term)
    && HasBallot(w.hist.ballots, voter, term, w.sent[k].from)
  }

  /** A node asks for votes only in a term it has reached and in which it voted for itself. */
  ghost predicate OwnRequest(w: World, v: Envelope)
    requires v.from in w.nodes && v.msg.content.VoteRequest?
  {
    && v.msg.content.term <= w.nodes[v.from].term
    && HasBallot(w.hist.ballots, v.from, v.msg.content.term, v.from)
  }

  ghost predicate EnvelopeOk(w: World, i: nat)
    requires i < |w.sent|
  {
    var v := w.sent[i];
    && v.from in w.nodes && v.msg.sender == v.from
    && (v.msg.content.VoteRequest? ==> OwnRequest(w, v))
    && (v.msg.content.VoteResponse? && v.msg.content.granted ==>
          exists k :: Answered(w, k, v.from, v.msg.content.term))
  }

  /** Each node asks for votes once a term, and grants a vote once a term. */
  ghost predicate OneOfEach(sent: seq<Envelope>) {
    && (forall i, j, from, term :: (0 <= i < |sent| && 0 <= j < |sent|
          && IsRequest(sent[i], from, term) && IsRequest(sent[j], from, term)) ==> i == j)
    && (forall i, j, from, term :: (0 <= i < |sent| && 0 <= j < |sent|
          && IsGrant(sent[i], from, term) && IsGrant(sent[j], from, term)) ==> i == j)
  }

  ghost predicate EnvelopesInv(w: World) {
    && (forall i :: 0 <= i < |w.sent| ==> EnvelopeOk(w, i))
    && OneOfEach(w.sent)
  }

  ghost predicate VotesInv(w: World) {
    NodesInv(w) && BallotsInv(w) && EnvelopesInv(w)
  }

  // ---------------------------------------------------------------- what every step keeps

  ghost predicate TermStep(n: Node, n': Node) {
    && n'.id == n.id && n'.peers == n.peers && n'.term >= n.term
    && (n'.term == n.term && n.votedFor.Some? ==> n'.votedFor == n.votedFor)
  }

  ghost predicate Extends(w: World, w': World, id: Id) {
    && id in w.nodes && id in w'.nodes
    && w'.nodes == w.nodes[id := w'.nodes[id]]
    && TermStep(w.nodes[id], w'.nodes[id])
    && w.sent <= w'.sent && w.done <= w'.done && w.hist.ballots <= w'.hist.ballots
    && w'.hist.visited.Keys == w.hist.visited.Keys
  }

  lemma OldBallot(w: World, w': World, id: Id, b: Ballot)
    requires Extends(w, w', id) && BallotOk(w, b)
    ensures BallotOk(w', b)
  {
  }

  lemma OldEnvelope(w: World, w': World, id: Id, i: nat)
    requires Extends(w, w', id) && i < |w.sent| && EnvelopeOk(w, i)
    ensures EnvelopeOk(w', i)
  {
    var v := w.sent[i];
    assert w'.sent[i] == v;
    if v.msg.content.VoteResponse? && v.msg.content.granted {
      var k: nat :| Answered(w, k, v.from, v.msg.content.term);
      assert w'.sent[k] == w.sent[k];
      assert Answered(w', k, v.from, v.msg.content.term);
    }
  }

  lemma Carry(w: World, w': World, id: Id)
    requires VotesInv(w) && Extends(w, w', id)
    ensures NodesInv(w')
    ensures forall b <- w.hist.ballots :: BallotOk(w', b)
    ensures forall i :: 0 <= i < |w.sent| ==> EnvelopeOk(w', i)
  {
    hide BallotOk, EnvelopeOk, OneOfEach;
    assert w'.nodes.Keys == w.nodes.Keys;
    forall b | b in w.hist.ballots ensures BallotOk(w', b) { OldBallot(w, w', id, b); }
    forall i | 0 <= i < |w.sent| ensures EnvelopeOk(w', i) { OldEnvelope(w, w', id, i); }
  }

  /** Appending envelopes that neither ask for nor grant votes. */
  lemma NoVotesOneOfEach(sent: seq<Envelope>, id: Id, more: seq<Envelope>)
    requires OneOfEach(sent) && NoVotes(id, more)
    ensures OneOfEach(sent + more)
  {
    var all := sent + more;
    forall i, from, term | |sent| <= i < |all| ensures !IsRequest(all[i], from, term) && !IsGrant(all[i], from, term) {
      assert all[i] in more;
    }
  }

  lemma KeepPlain(w: World, e: Event)
    requires VotesInv(w) && Enabled(w, e) && Plain(w, e)
    ensures VotesInv(Step(w, e))
  {
    hide BallotOk, Plain, OneOfEach, React, Post;
    var w' := Step(w, e);
    var more := Post(e.id, React(w, e).out);
    PlainVotes(w, e);
    PlainBallots(w, e);
    Carry(w, w', e.id);
    NoVotesOneOfEach(w.sent, e.id, more);
    forall i | 0 <= i < |w'.sent| ensures EnvelopeOk(w', i) {
      if i >= |w.sent| { assert w'.sent[i] in more; }
    }
  }

  lemma PlainBallots(w: World, e: Event)
    requires Enabled(w, e) && Plain(w, e) && e.id in w.hist.visited
    ensures Step(w, e).hist.ballots == w.hist.ballots && Step(w, e).hist.counted == w.hist.counted
  {
  }

  lemma KeepElection(w: World, e: Event)
    requires VotesInv(w) && Enabled(w, e) && e.Election? && !w.nodes[e.id].role.Leader?
    ensures VotesInv(Step(w, e))
  {
    hide BallotOk, OneOfEach;
    var w' := Step(w, e);
    var n' := w'.nodes[e.id];
    var request := Envelope(e.id, None, Send(n', VoteRequest(n'.term, n'.lastLogIndex, n'.lastLogTerm)));
    PostAlone(e.id, React(w, e).out[0]);
    assert w'.sent == w.sent + [request];
    Carry(w, w', e.id);
    NewTermBallot(w, e);
    forall i | 0 <= i < |w'.sent| ensures EnvelopeOk(w', i) {
      if i == |w.sent| { assert OwnRequest(w', request); }
    }
    NewRequest(w, w', request);
  }

  lemma NewTermBallot(w: World, e: Event)
    requires VotesInv(w) && Enabled(w, e) && e.Election? && !w.nodes[e.id].role.Leader?
    requires forall b <- w.hist.ballots :: BallotOk(Step(w, e), b)
    ensures BallotsInv(Step(w, e))
    ensures HasBallot(Step(w, e).hist.ballots, e.id, w.nodes[e.id].term + 1, e.id)
  {
    hide EnvelopesInv;
    var n, h' := w.nodes[e.id], Step(w, e).hist;
    var own := Ballot(e.id, n.term + 1, e.id, n.lastLogTerm, n.lastLogIndex, n.lastLogTerm, n.lastLogIndex);
    assert own in h'.ballots;
    forall b | b in w.hist.ballots ensures b.voter == e.id ==> b.term <= n.term { assert BallotOk(w, b); }
  }

  /** A request in a term that its sender had not reached before. */
  lemma NewRequest(w: World, w': World, request: Envelope)
    requires EnvelopesInv(w) && request.from in w.nodes && request.msg.content.VoteRequest?
    requires request.msg.content.term > w.nodes[request.from].term && w'.sent == w.sent + [request]
    ensures OneOfEach(w'.sent)
  {
    forall i, from, term | 0 <= i < |w.sent| && IsRequest(w.sent[i], from, term)
      ensures !IsRequest(request, from, term)
    {
      assert EnvelopeOk(w, i);
    }
  }

  /** Delivery of a vote request that is granted. */
  ghost predicate IsGranting(w: World, e: Event)
    requires Enabled(w, e)
  {
    e.Deliver? && w.sent[e.pos].msg.content.VoteRequest? && Grants(w.nodes[e.id], w.sent[e.pos].msg)
  }

  lemma KeepGrant(w: World, e: Event)
    requires VotesInv(w) && Enabled(w, e) && IsGranting(w, e)
    ensures VotesInv(Step(w, e))
  {
    hide BallotOk, OneOfEach, BallotsInv;
    var w', m := Step(w, e), w.sent[e.pos].msg;
    var n := w.nodes[e.id];
    var grant := Envelope(e.id, None, Send(n, VoteResponse(m.content.term, true)));
    assert EnvelopeOk(w, e.pos);
    PostAlone(e.id, React(w, e).out[0]);
    assert w'.sent == w.sent + [grant];
    Carry(w, w', e.id);
    GrantBallot(w, e);
    forall i | 0 <= i < |w'.sent| ensures EnvelopeOk(w', i) {
      if i == |w.sent| {
        assert w'.sent[e.pos] == w.sent[e.pos];
        assert Answered(w', e.pos, e.id, m.content.term);
      }
    }
    NewGrant(w, e, w', grant);
  }

  lemma GrantBallot(w: World, e: Event)
    requires VotesInv(w) && Enabled(w, e) && IsGranting(w, e)
    requires forall b <- w.hist.ballots :: BallotOk(Step(w, e), b)
    ensures BallotsInv(Step(w, e))
    ensures HasBallot(Step(w, e).hist.ballots, e.id, w.sent[e.pos].msg.content.term, w.sent[e.pos].msg.sender)
  {
    hide EnvelopesInv;
    var n, m, w' := w.nodes[e.id], w.sent[e.pos].msg, Step(w, e);
    var vote := Ballot(e.id, m.content.term, m.sender, m.content.lastLogTerm, m.content.lastLogIndex, n.lastLogTerm, n.lastLogIndex);
    assert vote in w'.hist.ballots;
    assert BallotOk(w', vote);
    forall b | b in w.hist.ballots && b.voter == e.id && b.term == m.content.term
      ensures b.candidate == m.sender
    {
      assert BallotOk(w', b);
    }
  }

  /** A node that has granted a vote in this term, and would grant this request, has received it already. */
  lemma GrantedOnce(w: World, pos: nat, id: Id, i: nat)
    requires VotesInv(w) && id in w.nodes && pos < |w.sent| && i < |w.sent|
    requires w.sent[pos].msg.content.VoteRequest? && Grants(w.nodes[id], w.sent[pos].msg)
    requires IsGrant(w.sent[i], id, w.sent[pos].msg.content.term)
    ensures (pos, id) in w.done
  {
    var m := w.sent[pos].msg;
    assert EnvelopeOk(w, pos) && EnvelopeOk(w, i);
    var k: nat :| Answered(w, k, id, m.content.term);
    var b :| b in w.hist.ballots && b.voter == id && b.term == m.content.term && b.candidate == w.sent[k].from;
    assert BallotOk(w, b);
    assert IsRequest(w.sent[pos], m.sender, m.content.term) && IsRequest(w.sent[k], m.sender, m.content.term);
  }

  lemma NewGrant(w: World, e: Event, w': World, grant: Envelope)
    requires VotesInv(w) && Enabled(w, e) && IsGranting(w, e)
    requires IsGrant(grant, e.id, w.sent[e.pos].msg.content.term) && w'.sent == w.sent + [grant]
    ensures OneOfEach(w'.sent)
  {
    hide VotesInv;
    var m := w.sent[e.pos].msg;
    forall i | 0 <= i < |w.sent| ensures !IsGrant(w.sent[i], e.id, m.content.term) {
      if IsGrant(w.sent[i], e.id, m.content.term) { GrantedOnce(w, e.pos, e.id, i); }
    }
    assert OneOfEach(w.sent) by { Unique(w); }
  }

  lemma Unique(w: World)
    requires VotesInv(w)
    ensures OneOfEach(w.sent)
  {
  }

  /** A counted vote changes votes_ and perhaps makes a leader; terms and votes cast stay. */
  lemma KeepCount(w: World, e: Event)
    requires VotesInv(w) && Enabled(w, e) && e.Deliver? && CountsVote(w.nodes[e.id], w.sent[e.pos].msg)
    ensures VotesInv(Step(w, e))
  {
    hide BallotOk, OneOfEach, EnvelopeOk;
    var w' := Step(w, e);
    assert w'.sent == w.sent;
    Carry(w, w', e.id);
  }

  /** In every run terms never decrease, and a vote cast in the current term is not forgotten. */
  lemma StepExtends(w: World, e: Event)
    requires VotesInv(w) && Enabled(w, e)
    ensures Extends(w, Step(w, e), e.id)
  {
    hide VotesInv, Step, Extends, Plain, IsGranting, CountsVote;
    if Plain(w, e) {
      PlainExtends(w, e);
    } else if e.Election? {
      ElectionExtends(w, e);
    } else if IsGranting(w, e) {
      GrantExtends(w, e);
    } else {
      NotPlain(w, e);
      CountExtends(w, e);
    }
  }

  lemma NotPlain(w: World, e: Event)
    requires Enabled(w, e) && !Plain(w, e) && !e.Election? && !IsGranting(w, e)
    ensures e.Deliver? && CountsVote(w.nodes[e.id], w.sent[e.pos].msg)
  {
    hide Step, React;
  }

  lemma PlainExtends(w: World, e: Event)
    requires VotesInv(w) && Enabled(w, e) && Plain(w, e)
    ensures Extends(w, Step(w, e), e.id)
  {
    hide BallotsInv, EnvelopesInv, Post, BallotOk;
    PlainVotes(w, e);
  }

  lemma ElectionExtends(w: World, e: Event)
    requires VotesInv(w) && Enabled(w, e) && e.Election?
    ensures Extends(w, Step(w, e), e.id)
  {
    hide BallotsInv, EnvelopesInv, Post, BallotOk;
  }

  lemma GrantExtends(w: World, e: Event)
    requires VotesInv(w) && Enabled(w, e) && IsGranting(w, e)
    ensures Extends(w, Step(w, e), e.id)
  {
    hide BallotsInv, EnvelopesInv, Post, BallotOk;
  }

  lemma CountExtends(w: World, e: Event)
    requires VotesInv(w) && Enabled(w, e) && e.Deliver? && CountsVote(w.nodes[e.id], w.sent[e.pos].msg)
    ensures Extends(w, Step(w, e), e.id)
  {
    hide BallotsInv, EnvelopesInv, Post, BallotOk;
  }

  lemma VotesStep(w: World, e: Event)
    requires VotesInv(w) && Enabled(w, e)
    ensures VotesInv(Step(w, e))
  {
    hide VotesInv, Dispatch, Grants, CountsVote, Step;
    if Plain(w, e) {
      KeepPlain(w, e);
    } else if e.Election? {
      KeepElection(w, e);
    } else if IsGranting(w, e) {
      KeepGrant(w, e);
    } else {
      KeepCount(w, e);
    }
  }

  lemma VotesInit(w: World, cluster: nat)
    requires Init(w, cluster)
    ensures VotesInv(w)
  {
  }

  lemma {:induction false} VotesRun(ws: seq<World>, es: seq<Event>, i: nat)
    requires IsRun(ws, es) && i < |ws|
    ensures VotesInv(ws[i])
  {
    hide VotesInv, Step;
    if i == 0 {
      var cluster :| Init(ws[0], cluster);
      VotesInit(ws[0], cluster);
    } else {
      VotesRun(ws, es, i - 1);
      assert IsStep(ws[i - 1], es[i - 1], ws[i]);
      VotesStep(ws[i - 1], es[i - 1]);
    }
  }

  // ---------------------------------------------------------------- theorems, without hypotheses

  /** Terms never decrease. */
  lemma {:induction false} TermsNeverDecrease(ws: seq<World>, es: seq<Event>, i: nat, j: nat, id: Id)
    requires IsRun(ws, es) && i <= j < |ws| && id in ws[i].nodes
    ensures id in ws[j].nodes && ws[i].nodes[id].term <= ws[j].nodes[id].term
    decreases j
  {
    hide React, Remember, Post, VotesInv;
    if i < j {
      TermsNeverDecrease(ws, es, i, j - 1, id);
      VotesRun(ws, es, j - 1);
      assert IsStep(ws[j - 1], es[j - 1], ws[j]);
      StepExtends(ws[j - 1], es[j - 1]);
    }
  }

  /** One vote per term: all the votes that a node casts in one term, for itself or by granting a request,
      name one candidate; and a vote for another node was cast only after comparing the logs. */
  lemma OneVotePerTerm(ws: seq<World>, es: seq<Event>, i: nat, a: Ballot, b: Ballot)
    requires IsRun(ws, es) && i < |ws|
    requires a in ws[i].hist.ballots && b in ws[i].hist.ballots && a.voter == b.voter && a.term == b.term
    ensures a.candidate == b.candidate
    ensures a.voter != a.candidate ==> PassedLogTest(a)
  {
    hide IsRun, EnvelopesInv, NodesInv;
    VotesRun(ws, es, i);
    assert BallotOk(ws[i], a);
  }

  /** Every grant on the network answers one request, the only one its sender made in that term, which
      reached the voter and whose sender is the node the voter voted for; and it is the voter's only grant
      of that term. */
  lemma EveryGrantIsBackedByItsVote(ws: seq<World>, es: seq<Event>, i: nat, pos: nat, other: nat, voter: Id, term: nat)
    requires IsRun(ws, es) && i < |ws| && pos < |ws[i].sent| && other < |ws[i].sent|
    requires IsGrant(ws[i].sent[pos], voter, term)
    ensures exists k :: Answered(ws[i], k, voter, term)
    ensures IsGrant(ws[i].sent[other], voter, term) ==> other == pos
  {
    hide IsRun, BallotsInv, NodesInv;
    VotesRun(ws, es, i);
    assert EnvelopeOk(ws[i], pos);
  }
}
