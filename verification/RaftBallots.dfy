/** What a vote means: when a candidate asks, what it asks with, when a voter grants, and who leads. */
module RaftBallots {
  import opened Wrappers
  import opened RaftTypes
  import opened RaftHandlers
  import opened RaftSystem
  import opened RaftFrames
  import opened RaftVotes
  import opened RaftElection
  import opened RaftLogs

  // ---------------------------------------------------------------- where a message was sent

  /** Every message on the network was put there by one step. */
  lemma {:induction false} SentAt(ws: seq<World>, es: seq<Event>, i: nat, pos: nat) returns (j: nat)
    requires IsRun(ws, es) && i < |ws| && pos < |ws[i].sent|
    ensures j < i && IsStep(ws[j], es[j], ws[j + 1])
    ensures |ws[j].sent| <= pos < |ws[j + 1].sent| && ws[j + 1].sent[pos] == ws[i].sent[pos]
  {
    hide React, Remember, Post, Enabled;
    NothingSent(ws, es);
    assert IsStep(ws[i - 1], es[i - 1], ws[i]);
    if pos < |ws[i - 1].sent| {
      j := SentAt(ws, es, i - 1, pos);
    } else {
      j := i - 1;
    }
  }

  lemma NothingSent(ws: seq<World>, es: seq<Event>)
    requires IsRun(ws, es)
    ensures ws[0].sent == []
  {
  }

  lemma RunLength(ws: seq<World>, es: seq<Event>)
    requires IsRun(ws, es)
    ensures |ws| == |es| + 1
  {
  }

  lemma RunStep(ws: seq<World>, es: seq<Event>, i: nat)
    requires IsRun(ws, es) && i < |es|
    ensures Enabled(ws[i], es[i]) && es[i].id in ws[i].hist.visited && ws[i + 1] == Step(ws[i], es[i])
  {
    hide Init, Step, Enabled;
    assert IsStep(ws[i], es[i], ws[i + 1]);
  }

  // ---------------------------------------------------------------- one cluster

  ghost predicate OneCluster(w: World, cluster: nat) {
    && (forall id <- w.nodes :: w.nodes[id].cluster == cluster)
    && (forall v <- w.sent :: v.msg.cluster == cluster)
  }

  ghost predicate SameCluster(n: Node, r: Reaction) {
    r.node.cluster == n.cluster && forall v <- Post(n.id, r.out) :: v.msg.cluster == n.cluster
  }

  lemma AppendCluster(n: Node, m: Message)
    requires m.content.AppendRequest?
    ensures SameCluster(n, HandleAppendRequest(n, m))
  {
    hide ApplyUpTo, AppendAll, HandleAppendRequest;
    AppendEffect(n, m);
    KeepsCluster(n, m);
  }

  lemma KeepsCluster(n: Node, m: Message)
    requires m.content.AppendRequest?
    ensures HandleAppendRequest(n, m).node.cluster == n.cluster
  {
    hide ApplyUpTo, AppendAll;
    CatchUpFrame(n, m);
    AppendAllFrame(CatchUp(n, m).node, m.content.entries);
  }

  lemma {:induction false} ReissueCluster(n: Node, order: seq<Id>)
    requires forall p <- order :: p in n.nextIndex
    ensures forall v <- Post(n.id, ReissueAll(n, order)) :: v.msg.cluster == n.cluster
  {
    if order != [] {
      ReissueCluster(n, order[1..]);
      PostConcat(n.id, ReissueTo(n, order[0]), ReissueAll(n, order[1..]));
      if ReissueTo(n, order[0]) != [] { PostAlone(n.id, ReissueTo(n, order[0])[0]); }
    }
  }

  lemma MessageCluster(n: Node, m: Message)
    requires !m.content.AppendRequest?
    ensures SameCluster(n, Dispatch(n, m))
  {
    hide Grants;
    var r := Dispatch(n, m);
    if r.out != [] { PostAlone(n.id, r.out[0]); }
  }

  lemma ClusterStep(w: World, e: Event)
    requires Enabled(w, e) && w.nodes[e.id].id == e.id
    ensures SameCluster(w.nodes[e.id], React(w, e))
  {
    hide Dispatch, ApplyUpTo, ReissueAll, HandleAppendRequest, HandleClientRequest;
    var n, r := w.nodes[e.id], React(w, e);
    match e
    case Election(_) => if r.out != [] { PostAlone(n.id, r.out[0]); }
    case HeartbeatTick(_, v) =>
      if n.role.Leader? && n.matchIndex != map[] {
        AdvanceVotes(n, v);
        ApplyUpToFrame(n.(commitIndex := v), v);
      }
    case ReissueTick(_, order) => if n.role.Leader? { ReissueCluster(n, order); }
    case Call(_, client, request) => CallCluster(n, Message(0, client, ClientCall(request)));
    case Deliver(pos, _) =>
      var m := w.sent[pos].msg;
      if m.content.AppendRequest? { AppendCluster(n, m); AppendIsDispatched(n, m); } else { MessageCluster(n, m); }
  }

  lemma AppendIsDispatched(n: Node, m: Message)
    requires m.content.AppendRequest?
    ensures Dispatch(n, m) == HandleAppendRequest(n, m)
  {
  }

  lemma CallCluster(n: Node, m: Message)
    requires m.content.ClientCall?
    ensures SameCluster(n, HandleClientRequest(n, m))
  {
    var r := HandleClientRequest(n, m);
    if r.out != [] { PostAlone(n.id, r.out[0]); }
  }

  lemma {:induction false} ClusterRun(ws: seq<World>, es: seq<Event>, i: nat) returns (cluster: nat)
    requires IsRun(ws, es) && i < |ws|
    ensures OneCluster(ws[i], cluster)
  {
    hide React, Remember, Post, VotesInv, SameCluster;
    if i == 0 {
      cluster :| Init(ws[0], cluster);
    } else {
      cluster := ClusterRun(ws, es, i - 1);
      assert IsStep(ws[i - 1], es[i - 1], ws[i]);
      VotesRun(ws, es, i - 1);
      Identity(ws[i - 1], es[i - 1].id);
      ClusterStep(ws[i - 1], es[i - 1]);
      ClusterKept(ws[i - 1], es[i - 1], cluster);
    }
  }

  lemma Identity(w: World, id: Id)
    requires VotesInv(w) && id in w.nodes
    ensures w.nodes[id].id == id && w.nodes[id].peers == w.nodes.Keys
  {
    hide BallotsInv, EnvelopesInv;
  }

  lemma ClusterKept(w: World, e: Event, cluster: nat)
    requires Enabled(w, e) && e.id in w.hist.visited && w.nodes[e.id].id == e.id
    requires OneCluster(w, cluster) && SameCluster(w.nodes[e.id], React(w, e))
    ensures OneCluster(Step(w, e), cluster)
  {
    hide React, Remember, Post;
  }

  // ---------------------------------------------------------------- a vote cast is a ballot on record

  ghost predicate VoteOnRecord(w: World, id: Id)
    requires id in w.nodes
  {
    w.nodes[id].votedFor.Some? ==> HasBallot(w.hist.ballots, id, w.nodes[id].term, w.nodes[id].votedFor.value)
  }

  ghost predicate VotesOnRecord(w: World) {
    forall id <- w.nodes :: VoteOnRecord(w, id)
  }

  lemma RecordStays(w: World, w': World, id: Id, u: Id)
    requires Extends(w, w', id) && u in w.nodes && VoteOnRecord(w, u)
    requires w'.nodes[u].votedFor == w.nodes[u].votedFor && w'.nodes[u].term == w.nodes[u].term
    ensures u in w'.nodes && VoteOnRecord(w', u)
  {
  }

  lemma RecordStep(w: World, e: Event)
    requires VotesInv(w) && VotesOnRecord(w) && Enabled(w, e) && e.id in w.hist.visited
    ensures VotesOnRecord(Step(w, e))
  {
    hide VotesInv, Step, Extends, VoteOnRecord;
    var w' := Step(w, e);
    StepExtends(w, e);
    OnlyMoves(w, w', e.id);
    forall u | u in w'.nodes ensures VoteOnRecord(w', u) {
      if u != e.id { RecordStays(w, w', e.id, u); }
      else { MoverOnRecord(w, e); }
    }
  }

  lemma MoverOnRecord(w: World, e: Event)
    requires VotesInv(w) && VotesOnRecord(w) && Enabled(w, e) && e.id in w.hist.visited && Extends(w, Step(w, e), e.id)
    ensures VoteOnRecord(Step(w, e), e.id)
  {
    hide VotesInv, Plain, IsGranting, CountsVote, Extends, Step;
    Identity(w, e.id);
    if Plain(w, e) {
      PlainVotes(w, e);
      PlainMover(w, e);
    } else if e.Election? {
      ElectionMover(w, e);
    } else if IsGranting(w, e) {
      GrantMover(w, e);
    } else {
      NotPlain(w, e);
      CountMover(w, e);
    }
  }

  lemma PlainMover(w: World, e: Event)
    requires VotesOnRecord(w) && Enabled(w, e) && e.id in w.hist.visited && Extends(w, Step(w, e), e.id)
    requires KeepsVotes(w.nodes[e.id], React(w, e).node) || Raises(w.nodes[e.id], React(w, e).node)
    ensures VoteOnRecord(Step(w, e), e.id)
  {
    hide React, Post, BallotsOf, CountedBy;
    assert VoteOnRecord(w, e.id);
  }

  lemma ElectionMover(w: World, e: Event)
    requires VotesOnRecord(w) && Enabled(w, e) && e.id in w.hist.visited && e.Election? && Extends(w, Step(w, e), e.id)
    requires w.nodes[e.id].id == e.id || w.nodes[e.id].role.Leader?
    ensures VoteOnRecord(Step(w, e), e.id)
  {
    var n := w.nodes[e.id];
    assert VoteOnRecord(w, e.id);
    if !n.role.Leader? {
      assert Ballot(e.id, n.term + 1, e.id, n.lastLogTerm, n.lastLogIndex, n.lastLogTerm, n.lastLogIndex) in Step(w, e).hist.ballots;
    }
  }

  lemma GrantMover(w: World, e: Event)
    requires Enabled(w, e) && e.id in w.hist.visited && IsGranting(w, e)
    ensures VoteOnRecord(Step(w, e), e.id)
  {
    hide Post;
    var n, m := w.nodes[e.id], w.sent[e.pos].msg;
    assert Ballot(e.id, m.content.term, m.sender, m.content.lastLogTerm, m.content.lastLogIndex, n.lastLogTerm, n.lastLogIndex)
        in Step(w, e).hist.ballots;
  }

  lemma CountMover(w: World, e: Event)
    requires VotesOnRecord(w) && Enabled(w, e) && e.id in w.hist.visited && Extends(w, Step(w, e), e.id)
    requires e.Deliver? && CountsVote(w.nodes[e.id], w.sent[e.pos].msg)
    ensures VoteOnRecord(Step(w, e), e.id)
  {
    hide Post;
    assert VoteOnRecord(w, e.id);
  }

  lemma {:induction false} RecordRun(ws: seq<World>, es: seq<Event>, i: nat)
    requires IsRun(ws, es) && i < |ws|
    ensures VotesInv(ws[i]) && VotesOnRecord(ws[i])
  {
    hide VotesInv, Step, VotesOnRecord;
    VotesRun(ws, es, i);
    if i == 0 {
      var cluster :| Init(ws[0], cluster);
      NobodyVoted(ws[0], cluster);
    } else {
      RecordRun(ws, es, i - 1);
      assert IsStep(ws[i - 1], es[i - 1], ws[i]);
      RecordStep(ws[i - 1], es[i - 1]);
    }
  }

  lemma NobodyVoted(w: World, cluster: nat)
    requires Init(w, cluster)
    ensures VotesOnRecord(w)
  {
  }

  /** Whether a voter is free to vote for c in a term: nothing on record says that it voted for another. */
  ghost predicate VotedForAnother(w: World, voter: Id, term: nat, c: Id) {
    exists b <- w.hist.ballots :: b.voter == voter && b.term == term && b.candidate != c
  }

  lemma FreeToVote(w: World, id: Id, term: nat, c: Id)
    requires VotesInv(w) && VotesOnRecord(w) && id in w.nodes && term >= w.nodes[id].term
    ensures var v := AtTerm(w.nodes[id], term);
            (v.votedFor.None? || v.votedFor.value == c) <==> !VotedForAnother(w, id, term, c)
  {
    hide EnvelopesInv, NodesInv;
    assert VoteOnRecord(w, id);
    forall b | b in w.hist.ballots && b.voter == id ensures BallotOk(w, b) { }
  }

  // ---------------------------------------------------------------- asking and granting

  /** What a delivered vote request does, apart from its answer: nothing to anybody else. */
  lemma AnswersRequest(w: World, e: Event)
    requires Enabled(w, e) && e.id in w.hist.visited && e.Deliver? && w.sent[e.pos].msg.content.VoteRequest?
    requires w.sent[e.pos].msg.cluster == w.nodes[e.id].cluster && w.nodes[e.id].id == e.id
    ensures var n, c := w.nodes[e.id], w.sent[e.pos].msg.content;
            if c.term < n.term then
              Step(w, e).nodes == w.nodes && Step(w, e).sent == w.sent
            else
              && Step(w, e).sent == w.sent + [Envelope(e.id, None, Message(n.cluster, e.id, VoteResponse(c.term, Grants(n, w.sent[e.pos].msg))))]
              && var v := if c.term > n.term then n.(term := c.term, role := Follower, votes := 0, votedFor := None) else n;
                 Step(w, e).nodes == w.nodes[e.id := if Grants(n, w.sent[e.pos].msg) then v.(votedFor := Some(w.sent[e.pos].msg.sender)) else v]
  {
    hide Grants, Remember;
    var r := React(w, e);
    if r.out != [] { PostAlone(e.id, r.out[0]); }
    assert w.nodes == w.nodes[e.id := w.nodes[e.id]];
  }

  /** Every vote request is sent by an election of its sender, in the term that the election opens, and names
      the last index and term that the sender's log had at that moment. */
  lemma RequestCarriesLog(ws: seq<World>, es: seq<Event>, i: nat, pos: nat) returns (j: nat)
    requires IsRun(ws, es) && i < |ws| && pos < |ws[i].sent| && ws[i].sent[pos].msg.content.VoteRequest?
    ensures var c := ws[i].sent[pos].from;
            && j < i && es[j] == Election(c) && |ws[j].sent| == pos && c in ws[j].nodes && c in ws[j + 1].nodes
            && var n := ws[j].nodes[c];
               && !n.role.Leader?
               && ws[i].sent[pos] == Envelope(c, None, Message(n.cluster, c, VoteRequest(n.term + 1, n.lastLogIndex, n.lastLogTerm)))
               && ws[j + 1].nodes[c] == n.(term := n.term + 1, role := Candidate, votedFor := Some(c), votes := 1)
  {
    hide IsRun, Step, VotesInv;
    j := SentAt(ws, es, i, pos);
    RunLength(ws, es);
    RunStep(ws, es, j);
    VotesRun(ws, es, j);
    StepRequest(ws[j], es[j], pos);
  }

  lemma StepRequest(w: World, e: Event, pos: nat)
    requires VotesInv(w) && Enabled(w, e) && e.id in w.hist.visited
    requires |w.sent| <= pos < |Step(w, e).sent| && Step(w, e).sent[pos].msg.content.VoteRequest?
    ensures e.Election? && !w.nodes[e.id].role.Leader? && pos == |w.sent| && e.id in Step(w, e).nodes
    ensures var n := w.nodes[e.id];
            && Step(w, e).sent[pos] == Envelope(e.id, None, Message(n.cluster, e.id, VoteRequest(n.term + 1, n.lastLogIndex, n.lastLogTerm)))
            && Step(w, e).nodes[e.id] == n.(term := n.term + 1, role := Candidate, votedFor := Some(e.id), votes := 1)
  {
    hide VotesInv, Plain, Grants, Remember, CountsVote, Dispatch, Post;
    Identity(w, e.id);
    var more := Post(e.id, React(w, e).out);
    assert Step(w, e).sent[pos] == more[pos - |w.sent|];
    if Plain(w, e) {
      PlainVotes(w, e);
    } else if e.Election? {
      CandidateAsks(w, e);
      PostAlone(e.id, React(w, e).out[0]);
    } else {
      OnlyAnswers(w, e);
    }
  }

  lemma CandidateAsks(w: World, e: Event)
    requires Enabled(w, e) && e.Election? && !Plain(w, e)
    ensures !w.nodes[e.id].role.Leader?
  {
  }

  lemma OnlyAnswers(w: World, e: Event)
    requires Enabled(w, e) && !Plain(w, e) && !e.Election?
    ensures forall v <- Post(e.id, React(w, e).out) :: v.msg.content.VoteResponse?
  {
    var r := React(w, e);
    if r.out != [] { PostAlone(e.id, r.out[0]); }
  }

  /** The candidate's log, as it was when it asked, is at least as up to date as the voter's. */
  ghost predicate AsUpToDate(c: Node, v: Node) {
    c.lastLogTerm > v.lastLogTerm || (c.lastLogTerm == v.lastLogTerm && c.lastLogIndex >= v.lastLogIndex)
  }

  /** Section 5.2 and 5.4.1: a vote request that reaches a voter in an older term changes nothing; otherwise it
      gets one answer, and the vote is granted if and only if the voter has not voted for another candidate in
      that term and the candidate's log, when it asked, was at least as up to date as the voter's is now. */
  lemma VoteGrantedIff(ws: seq<World>, es: seq<Event>, i: nat, pos: nat, id: Id) returns (j: nat)
    requires IsRun(ws, es) && i < |es| && es[i] == Deliver(pos, id)
    requires pos < |ws[i].sent| && ws[i].sent[pos].msg.content.VoteRequest?
    ensures id in ws[i].nodes && j < i && es[j] == Election(ws[i].sent[pos].from) && es[j].id in ws[j].nodes && es[j].id != id
    ensures |ws[j].sent| == pos && ws[i].sent[pos].msg.content.term == ws[j].nodes[es[j].id].term + 1
    ensures var n, c, term := ws[i].nodes[id], es[j].id, ws[i].sent[pos].msg.content.term;
            if term < n.term then
              ws[i + 1].nodes == ws[i].nodes && ws[i + 1].sent == ws[i].sent
            else
              && |ws[i + 1].sent| == |ws[i].sent| + 1 && ws[i].sent <= ws[i + 1].sent
              && var granted := !VotedForAnother(ws[i], id, term, c) && AsUpToDate(ws[j].nodes[c], n);
                 && ws[i + 1].sent[|ws[i].sent|] == Envelope(id, None, Message(n.cluster, id, VoteResponse(term, granted)))
                 && (granted ==> HasBallot(ws[i + 1].hist.ballots, id, term, c))
                 && var v := if term > n.term then n.(term := term, role := Follower, votes := 0, votedFor := None) else n;
                    ws[i + 1].nodes == ws[i].nodes[id := if granted then v.(votedFor := Some(c)) else v]
  {
    hide IsRun, VotesInv, VotesOnRecord, Step, VotedForAnother, HasBallot;
    RunLength(ws, es);
    var w, e := ws[i], es[i];
    RunStep(ws, es, i);
    j := RequestCarriesLog(ws, es, i, pos);
    RecordRun(ws, es, i);
    RecordRun(ws, es, i + 1);
    var cluster := ClusterRun(ws, es, i);
    Identity(w, id);
    assert w.sent[pos] in w.sent;
    AnswersRequest(w, e);
    var term := w.sent[pos].msg.content.term;
    if term >= w.nodes[id].term {
      FreeToVote(w, id, term, w.sent[pos].from);
      if Grants(w.nodes[id], w.sent[pos].msg) { VoteNow(ws[i + 1], id); }
    }
  }

  lemma VoteNow(w: World, id: Id)
    requires VotesOnRecord(w) && id in w.nodes && w.nodes[id].votedFor.Some?
    ensures HasBallot(w.hist.ballots, id, w.nodes[id].term, w.nodes[id].votedFor.value)
  {
    assert VoteOnRecord(w, id);
  }

  /** Every grant on the network was sent when a request reached the voter, and the candidate's log at its
      election was at least as up to date as the voter's at that delivery. */
  lemma GrantWasEarned(ws: seq<World>, es: seq<Event>, i: nat, pos: nat, voter: Id, term: nat) returns (j: nat, k: nat)
    requires IsRun(ws, es) && i < |ws| && pos < |ws[i].sent| && IsGrant(ws[i].sent[pos], voter, term)
    ensures j < k < i && i <= |es| && es[j].Election? && es[k] == Deliver(|ws[j].sent|, voter) && |ws[k].sent| == pos
    ensures es[j].id != voter && es[j].id in ws[j].nodes && voter in ws[k].nodes && term == ws[j].nodes[es[j].id].term + 1
    ensures AsUpToDate(ws[j].nodes[es[j].id], ws[k].nodes[voter])
  {
    hide IsRun, Step, VotesInv, AsUpToDate;
    RunLength(ws, es);
    k := SentAt(ws, es, i, pos);
    RunStep(ws, es, k);
    VotesRun(ws, es, k);
    StepGrant(ws[k], es[k], pos);
    j := VoteGrantedIff(ws, es, k, es[k].pos, voter);
  }

  lemma StepGrant(w: World, e: Event, pos: nat)
    requires VotesInv(w) && Enabled(w, e) && e.id in w.hist.visited
    requires |w.sent| <= pos < |Step(w, e).sent| && Step(w, e).sent[pos].msg.content.VoteResponse?
    requires Step(w, e).sent[pos].msg.content.granted
    ensures IsGranting(w, e) && pos == |w.sent| && Step(w, e).sent[pos].from == e.id
    ensures w.sent[e.pos].msg.content.term >= w.nodes[e.id].term
  {
    hide VotesInv, Plain, Remember, CountsVote, Dispatch, Post, Grants;
    Identity(w, e.id);
    var more := Post(e.id, React(w, e).out);
    assert Step(w, e).sent[pos] == more[pos - |w.sent|];
    if Plain(w, e) {
      PlainVotes(w, e);
    } else if e.Election? {
      CandidateAsks(w, e);
      PostAlone(e.id, React(w, e).out[0]);
    } else {
      GrantSent(w, e);
    }
  }

  lemma GrantSent(w: World, e: Event)
    requires Enabled(w, e) && !Plain(w, e) && !e.Election?
    ensures e.Deliver? && |Post(e.id, React(w, e).out)| <= 1
    ensures Post(e.id, React(w, e).out) != [] ==> IsGranting(w, e) && w.sent[e.pos].msg.content.term >= w.nodes[e.id].term
    ensures forall v <- Post(e.id, React(w, e).out) :: v.from == e.id
  {
    var r := React(w, e);
    if r.out != [] { PostAlone(e.id, r.out[0]); }
  }

  /** The last term first, then the length. */
  ghost predicate LogAsUpToDate(c: seq<Entry>, v: seq<Entry>) {
    TermAt(c, |c|) > TermAt(v, |v|) || (TermAt(c, |c|) == TermAt(v, |v|) && |c| >= |v|)
  }

  /** Section 5.4.1 over logs: whoever got a vote from another node stood for election, before that vote was
      cast, with a log at least as up to date as the one the voter had when it cast it. */
  lemma VotesGoToUpToDateLogs(ws: seq<World>, es: seq<Event>, i: nat, pos: nat, voter: Id, term: nat)
    returns (j: nat, k: nat)
    requires IsRun(ws, es) && AlwaysAttributed(ws, es) && AlwaysTail(ws, es) && i < |ws|
    requires pos < |ws[i].sent| && IsGrant(ws[i].sent[pos], voter, term)
    ensures j < k < i && i <= |es| && es[j].Election? && es[k] == Deliver(|ws[j].sent|, voter) && |ws[k].sent| == pos
    ensures es[j].id != voter && es[j].id in ws[j].nodes && voter in ws[k].nodes && term == ws[j].nodes[es[j].id].term + 1
    ensures LogAsUpToDate(ws[j].nodes[es[j].id].entries, ws[k].nodes[voter].entries)
  {
    hide IsRun, AlwaysAttributed, AlwaysTail, Contiguous, TermsOrdered, TermsUpTo, IsGrant;
    j, k := GrantWasEarned(ws, es, i, pos, voter, term);
    LogsAreWellFormed(ws, es, j, es[j].id);
    LogsAreWellFormed(ws, es, k, voter);
  }

  // ---------------------------------------------------------------- counting

  /** A counted grant: the receiver is in the term of the grant. */
  ghost predicate GrantArrives(w: World, pos: nat, id: Id) {
    && pos < |w.sent| && id in w.nodes && w.sent[pos].msg.content.VoteResponse?
    && w.sent[pos].msg.content.granted && w.sent[pos].msg.content.term == w.nodes[id].term
  }

  lemma CountEffect(w: World, e: Event)
    requires Enabled(w, e) && e.id in w.hist.visited && e.Deliver? && GrantArrives(w, e.pos, e.id)
    requires w.sent[e.pos].msg.cluster == w.nodes[e.id].cluster && w.nodes[e.id].id == e.id
    ensures CountsVote(w.nodes[e.id], w.sent[e.pos].msg)
    ensures var n, n' := w.nodes[e.id], Step(w, e).nodes[e.id];
            && Step(w, e).nodes == w.nodes[e.id := n'] && Step(w, e).sent == w.sent
            && n'.votes == n.votes + 1
            && if n'.votes >= |n.peers| / 2 + 1 then
                 && n' == n.(votes := n.votes + 1, role := Leader, matchIndex := n'.matchIndex, nextIndex := n'.nextIndex)
                 && n'.matchIndex.Keys == n.matchIndex.Keys + n.peers && n'.nextIndex.Keys == n.nextIndex.Keys + n.peers
                 && forall p <- n.peers :: n'.matchIndex[p] == n.commitIndex && n'.nextIndex[p] == n.commitIndex + 1
               else n' == n.(votes := n.votes + 1)
  {
    hide Remember, HandleVoteResponse, Post;
    CountedVote(w.nodes[e.id], w.sent[e.pos].msg);
    PostReplies(e.id, []);
  }

  lemma CountedVote(n: Node, m: Message)
    requires m.content.VoteResponse? && m.content.granted && m.content.term == n.term && m.cluster == n.cluster
    ensures var n' := HandleVoteResponse(n, m).node;
            && HandleVoteResponse(n, m).out == [] && n'.votes == n.votes + 1
            && if n'.votes >= |n.peers| / 2 + 1 then
                 && n' == n.(votes := n.votes + 1, role := Leader, matchIndex := n'.matchIndex, nextIndex := n'.nextIndex)
                 && n'.matchIndex.Keys == n.matchIndex.Keys + n.peers && n'.nextIndex.Keys == n.nextIndex.Keys + n.peers
                 && forall p <- n.peers :: n'.matchIndex[p] == n.commitIndex && n'.nextIndex[p] == n.commitIndex + 1
               else n' == n.(votes := n.votes + 1)
  {
    hide BecomeLeader;
    TablesOf(n.(votes := n.votes + 1));
  }

  lemma TablesOf(n: Node)
    ensures var n' := BecomeLeader(n);
            && n' == n.(role := Leader, matchIndex := n'.matchIndex, nextIndex := n'.nextIndex)
            && n'.matchIndex.Keys == n.matchIndex.Keys + n.peers && n'.nextIndex.Keys == n.nextIndex.Keys + n.peers
            && forall p <- n.peers :: n'.matchIndex[p] == n.commitIndex && n'.nextIndex[p] == n.commitIndex + 1
  {
  }

  /** With H1: after a grant of its current term has reached a node, the node leads if and only if a majority of
      the nodes has voted for it in that term and it has heard of those votes; and then it takes every peer to
      hold what it has committed itself, and to lack what comes next. */
  lemma LeadsIffMajority(ws: seq<World>, es: seq<Event>, i: nat, pos: nat, id: Id)
    requires IsRun(ws, es) && AlwaysAttributed(ws, es) && i < |es| && es[i] == Deliver(pos, id)
    requires GrantArrives(ws[i], pos, id)
    ensures |ws| == |es| + 1 && id in ws[i + 1].nodes
    ensures var n, n' := ws[i].nodes[id], ws[i + 1].nodes[id];
            && n' == n.(votes := n'.votes, role := n'.role, matchIndex := n'.matchIndex, nextIndex := n'.nextIndex)
            && (n'.role.Leader? <==> |TrueVoters(ws[i + 1], id, n.term)| >= |ws[i + 1].nodes| / 2 + 1)
            && ws[i].sent[pos].from in TrueVoters(ws[i + 1], id, n.term)
            && (n'.role.Leader? ==> forall p <- ws[i].nodes ::
                  && p in n'.matchIndex && n'.matchIndex[p] == n.commitIndex
                  && p in n'.nextIndex && n'.nextIndex[p] == n.commitIndex + 1)
            && (!n'.role.Leader? ==> n' == n.(votes := n.votes + 1))
  {
    hide IsRun, AlwaysAttributed, VotesInv, TallyInv, Step, TrueVoters, HasBallot, Voters, OneCluster;
    RunLength(ws, es);
    var w, e, w' := ws[i], es[i], ws[i + 1];
    RunStep(ws, es, i);
    TallyRun(ws, es, i);
    TallyRun(ws, es, i + 1);
    var cluster := ClusterRun(ws, es, i);
    ClusterOf(w, cluster, pos, id);
    Identity(w, id);
    CountEffect(w, e);
    TallyOf(w', id);
    TrueBefore(w', id, w.nodes[id].term);
    LeadersVotes(w, w', id);
    assert |w.nodes.Keys| == |w.nodes| == |w'.nodes.Keys| == |w'.nodes|;
    AttributedAt(ws, es, i);
    GrantFacts(w, e);
    VoterIsTrue(w, e);
  }

  lemma ClusterOf(w: World, cluster: nat, pos: nat, id: Id)
    requires OneCluster(w, cluster) && pos < |w.sent| && id in w.nodes
    ensures w.sent[pos].msg.cluster == w.nodes[id].cluster == cluster
  {
    assert w.sent[pos] in w.sent;
  }

  lemma LeadersVotes(w: World, w': World, id: Id)
    requires TallyInv(w) && id in w.nodes && id in w'.nodes && w'.nodes[id].votes == w.nodes[id].votes + 1
    ensures w.nodes[id].role.Leader? ==> w.nodes[id].votes >= |w.nodes| / 2 + 1
  {
    hide TallyInv;
    if w.nodes[id].role.Leader? { LeaderVotes(w, id); }
  }

  lemma AttributedAt(ws: seq<World>, es: seq<Event>, i: nat)
    requires AlwaysAttributed(ws, es) && i < |es|
    ensures Enabled(ws[i], es[i]) && Attributed(ws[i], es[i])
  {
    hide Enabled, Attributed;
  }

  lemma VoterIsTrue(w: World, e: Event)
    requires VotesInv(w) && Enabled(w, e) && e.id in w.hist.visited && e.Deliver? && Attributed(w, e)
    requires CountsVote(w.nodes[e.id], w.sent[e.pos].msg)
    ensures w.sent[e.pos].from in TrueVoters(Step(w, e), e.id, w.nodes[e.id].term)
  {
    hide VotesInv, HasBallot, Step;
    GrantFacts(w, e);
    ReceiptEffect(w, e);
  }

  /** There is no other way to become leader. */
  lemma OnlyGrantsMakeLeaders(ws: seq<World>, es: seq<Event>, i: nat, id: Id)
    requires IsRun(ws, es) && i < |es| && i + 1 < |ws| && id in ws[i].nodes && id in ws[i + 1].nodes
    requires !ws[i].nodes[id].role.Leader? && ws[i + 1].nodes[id].role.Leader?
    ensures es[i].Deliver? && es[i].id == id && GrantArrives(ws[i], es[i].pos, id)
  {
    hide IsRun, VotesInv, Step, Plain, IsGranting, Extends;
    RunStep(ws, es, i);
    VotesRun(ws, es, i);
    var w, e := ws[i], es[i];
    StepExtends(w, e);
    OnlyMoves(w, ws[i + 1], e.id);
    Identity(w, e.id);
    if Plain(w, e) {
      PlainVotes(w, e);
      NotLeading(w, e);
    } else if e.Election? || IsGranting(w, e) {
      NotLeading(w, e);
    } else {
      NotPlain(w, e);
    }
  }

  lemma NotLeading(w: World, e: Event)
    requires Enabled(w, e) && e.id in w.hist.visited && !w.nodes[e.id].role.Leader?
    requires e.Election? || IsGranting(w, e) || KeepsVotes(w.nodes[e.id], React(w, e).node) || Raises(w.nodes[e.id], React(w, e).node)
    ensures !Step(w, e).nodes[e.id].role.Leader?
  {
    hide Remember, Post, ApplyUpTo, ReissueAll, HandleAppendRequest, HandleClientRequest, HandleAppendResponse;
  }
}
