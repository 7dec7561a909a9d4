/** Two concrete runs of three nodes: one that satisfies every hypothesis, elects a leader and commits;
    and one that shows what happens when a grant is counted by a node it was not cast for. */
module RaftWitness {
  import opened Wrappers
  import opened RaftTypes
  import opened RaftHandlers
  import opened RaftSystem
  import opened RaftFrames
  import opened RaftLogs
  import opened RaftCommit
  import opened Sets

  const THREE: set<Id> := {0, 1, 2}
  const WRITE := ClientRequest(7, Put("k", "v"))

  /** A step that meets H1, H2 and H3. */
  ghost predicate Fair(w: World, e: Event, w': World) {
    IsStep(w, e, w') && Attributed(w, e) && TailAppend(w, e) && SelfMatch(w, e)
  }

  ghost function Start(): World {
    World(map[0 := Fresh(0, 0, THREE), 1 := Fresh(0, 1, THREE), 2 := Fresh(0, 2, THREE)], [], {},
          History({}, {}, {}, map[], {}, map[0 := [], 1 := [], 2 := []]))
  }

  lemma StartIsInit()
    ensures Init(Start(), 0)
  {
    assert Start().nodes.Keys == THREE;
  }

  ghost function Asking(id: Id): Envelope {
    Envelope(id, None, Message(0, id, VoteRequest(1, 0, 0)))
  }

  ghost function Candidacy(id: Id): Node {
    Fresh(0, id, THREE).(term := 1, role := Candidate, votedFor := Some(id), votes := 1)
  }

  /** A fresh node stands for election. */
  lemma Stands(w: World, id: Id) returns (w': World)
    requires id in w.nodes && id in w.hist.visited && w.nodes[id] == Fresh(0, id, THREE)
    ensures Fair(w, Election(id), w')
    ensures w'.nodes == w.nodes[id := Candidacy(id)]
    ensures w'.sent == w.sent + [Asking(id)] && w'.done == w.done
    ensures HasBallot(w'.hist.ballots, id, 1, id) && w.hist.ballots <= w'.hist.ballots
    ensures w'.hist.visited.Keys == w.hist.visited.Keys && w'.hist.commits == w.hist.commits
  {
    w' := Step(w, Election(id));
    PostAlone(id, StartElection(w.nodes[id]).out[0]);
    var own := Ballot(id, 1, id, 0, 0, 0, 0);
    assert own in w'.hist.ballots;
  }

  /** A fresh node grants a candidate's request. */
  lemma Grant(w: World, pos: nat, c: Id, v: Id) returns (w': World)
    requires v in w.nodes && v in w.hist.visited && w.nodes[v] == Fresh(0, v, THREE)
    requires CanDeliver(w, pos, v) && w.sent[pos] == Asking(c)
    ensures Fair(w, Deliver(pos, v), w')
    ensures w'.nodes == w.nodes[v := Fresh(0, v, THREE).(term := 1, votedFor := Some(c))]
    ensures w'.sent == w.sent + [Envelope(v, None, Message(0, v, VoteResponse(1, true)))]
    ensures w'.done == w.done + {(pos, v)}
    ensures HasBallot(w'.hist.ballots, v, 1, c) && w.hist.ballots <= w'.hist.ballots
    ensures w'.hist.visited.Keys == w.hist.visited.Keys && w'.hist.commits == w.hist.commits
  {
    w' := Step(w, Deliver(pos, v));
    PostAlone(v, HandleVoteRequest(w.nodes[v], w.sent[pos].msg).out[0]);
    var vote := Ballot(v, 1, c, 0, 0, 0, 0);
    assert vote in w'.hist.ballots;
  }

  ghost function Elected(id: Id): Node {
    Candidacy(id).(role := Leader, votes := 2, matchIndex := map[0 := 0, 1 := 0, 2 := 0], nextIndex := map[0 := 1, 1 := 1, 2 := 1])
  }

  /** A candidate counts a grant and becomes leader. */
  lemma Wins(w: World, pos: nat, c: Id, v: Id) returns (w': World)
    requires c in w.nodes && c in w.hist.visited && w.nodes[c] == Candidacy(c)
    requires CanDeliver(w, pos, c) && w.sent[pos] == Envelope(v, None, Message(0, v, VoteResponse(1, true)))
    ensures IsStep(w, Deliver(pos, c), w')
    ensures w'.nodes == w.nodes[c := Elected(c)]
    ensures w'.sent == w.sent && w'.done == w.done + {(pos, c)}
    ensures HasBallot(w.hist.ballots, v, 1, c) ==> Fair(w, Deliver(pos, c), w')
    ensures w.hist.ballots <= w'.hist.ballots
    ensures w'.hist.visited.Keys == w.hist.visited.Keys && w'.hist.commits == w.hist.commits
  {
    hide HandleVoteResponse;
    w' := Step(w, Deliver(pos, c));
    Counting(c, v);
  }

  lemma Counting(c: Id, v: Id)
    ensures HandleVoteResponse(Candidacy(c), Message(0, v, VoteResponse(1, true))) == Reaction(Elected(c), [])
  {
    var n := Candidacy(c).(votes := 2);
    assert |THREE| == 3;
    assert BecomeLeader(n).matchIndex == map[0 := 0, 1 := 0, 2 := 0];
    assert BecomeLeader(n).nextIndex == map[0 := 1, 1 := 1, 2 := 1];
  }

  lemma ElectedLeads(id: Id)
    ensures Elected(id).role == Leader && Elected(id).term == 1
  {
  }

  /** Without H1 two nodes can be leaders in the same term: node 2 votes for node 0 only, but its grant
      reaches both candidates and both count it. */
  lemma TwoLeadersWithoutAttribution() returns (ws: seq<World>, es: seq<Event>)
    ensures IsRun(ws, es)
    ensures var w := ws[|ws| - 1];
            && 0 in w.nodes && 1 in w.nodes && w.nodes[0].role == w.nodes[1].role == Leader
            && w.nodes[0].term == w.nodes[1].term
  {
    hide Enabled, React, Remember, Post, CanDeliver, Step, Init, Fair, Attributed, TailAppend, SelfMatch, HasBallot, IsStep, IsRun, Elected, Candidacy;
    ElectedLeads(0);
    ElectedLeads(1);
    var w0 := Start();
    StartIsInit();
    var w1 := Stands(w0, 0);
    var w2 := Stands(w1, 1);
    Ready(w2, 0, 2);
    var w3 := Grant(w2, 0, 0, 2);
    Ready(w3, 2, 0);
    var w4 := Wins(w3, 2, 0, 2);
    Ready(w4, 2, 1);
    var w5 := Wins(w4, 2, 1, 2);
    ws, es := [w0, w1, w2, w3, w4, w5], [Election(0), Election(1), Deliver(0, 2), Deliver(2, 0), Deliver(2, 1)];
    FairSteps(w0, w1, w2, w3);
    RunOf5(ws, es);
  }

  lemma FairSteps(w0: World, w1: World, w2: World, w3: World)
    requires Fair(w0, Election(0), w1) && Fair(w1, Election(1), w2) && Fair(w2, Deliver(0, 2), w3)
    ensures IsStep(w0, Election(0), w1) && IsStep(w1, Election(1), w2) && IsStep(w2, Deliver(0, 2), w3)
  {
  }

  lemma RunOf5(ws: seq<World>, es: seq<Event>)
    requires |ws| == 6 && |es| == 5 && Init(ws[0], 0)
    requires IsStep(ws[0], es[0], ws[1]) && IsStep(ws[1], es[1], ws[2]) && IsStep(ws[2], es[2], ws[3])
    requires IsStep(ws[3], es[3], ws[4]) && IsStep(ws[4], es[4], ws[5])
    ensures IsRun(ws, es)
  {
    hide IsStep, Init;
  }

  lemma Ready(w: World, pos: nat, id: Id)
    requires pos < |w.sent| && (pos, id) !in w.done && w.sent[pos].dest == None && w.sent[pos].from != id
    ensures CanDeliver(w, pos, id)
  {
  }

  // ---------------------------------------------------------------- a run that elects, replicates and commits

  const ENTRY := Entry(1, 1, WRITE)
  const APPEND := Envelope(0, None, Message(0, 0, AppendRequest(1, 0, 0, [ENTRY], 0, false)))
  const ACK := Envelope(1, None, Message(0, 1, AppendResponse(1, true, 0, 1)))

  ghost function Serving(): Node {
    Elected(0).(entries := [ENTRY], lastLogIndex := 1, lastLogTerm := 1, nextIndex := map[0 := 2, 1 := 1, 2 := 1],
                matchIndex := map[0 := 1, 1 := 0, 2 := 0], requests := map[1 := Request(0, 7)])
  }

  lemma Serves(w: World) returns (w': World)
    requires 0 in w.nodes && 0 in w.hist.visited && w.nodes[0] == Elected(0)
    ensures Fair(w, Call(0, 0, WRITE), w')
    ensures w'.nodes == w.nodes[0 := Serving()]
    ensures w'.sent == w.sent + [APPEND] && w'.done == w.done && w'.hist.visited.Keys == w.hist.visited.Keys
  {
    hide HandleClientRequest;
    w' := Step(w, Call(0, 0, WRITE));
    ServingIs();
    PostAlone(0, Broadcast(APPEND.msg));
  }

  lemma ServingIs()
    ensures HandleClientRequest(Elected(0), Message(0, 0, ClientCall(WRITE))) == Reaction(Serving(), [Broadcast(APPEND.msg)])
  {
    var r := HandleClientRequest(Elected(0), Message(0, 0, ClientCall(WRITE)));
    assert r.node.nextIndex == map[0 := 2, 1 := 1, 2 := 1];
    assert r.node.matchIndex == map[0 := 1, 1 := 0, 2 := 0];
    assert r.node.requests == map[1 := Request(0, 7)];
    assert r.node.entries == [ENTRY];
  }

  ghost function Follows(): Node {
    Fresh(0, 1, THREE).(term := 1, votedFor := Some(0))
  }

  lemma Copies(w: World, pos: nat) returns (w': World)
    requires 1 in w.nodes && 1 in w.hist.visited && w.nodes[1] == Follows()
    requires CanDeliver(w, pos, 1) && w.sent[pos] == APPEND
    ensures Fair(w, Deliver(pos, 1), w')
    ensures w'.nodes == w.nodes[1 := Follows().(entries := [ENTRY], lastLogIndex := 1, lastLogTerm := 1)]
    ensures w'.sent == w.sent + [ACK] && w'.done == w.done + {(pos, 1)} && w'.hist.visited.Keys == w.hist.visited.Keys
  {
    hide HandleAppendRequest;
    w' := Step(w, Deliver(pos, 1));
    CopyIs();
    PostAlone(1, Broadcast(ACK.msg));
  }

  lemma CopyIs()
    ensures HandleAppendRequest(Follows(), APPEND.msg) ==
            Reaction(Follows().(entries := [ENTRY], lastLogIndex := 1, lastLogTerm := 1), [Broadcast(ACK.msg)])
  {
    AppendAllFrame(Follows(), [ENTRY]);
    assert [] + [ENTRY] == [ENTRY];
    assert [] + [Broadcast(ACK.msg)] == [Broadcast(ACK.msg)];
  }

  ghost function Acked(): Node {
    Serving().(nextIndex := map[0 := 2, 1 := 2, 2 := 1], matchIndex := map[0 := 1, 1 := 1, 2 := 0])
  }

  lemma AckIs()
    ensures HandleAppendResponse(Serving(), ACK.msg) == Reaction(Acked(), [])
  {
    assert Serving().nextIndex[1 := 2] == Acked().nextIndex;
    assert Serving().matchIndex[1 := 1] == Acked().matchIndex;
  }

  lemma Acks(w: World, pos: nat) returns (w': World)
    requires 0 in w.nodes && 0 in w.hist.visited && w.nodes[0] == Serving()
    requires CanDeliver(w, pos, 0) && w.sent[pos] == ACK
    ensures Fair(w, Deliver(pos, 0), w')
    ensures w'.nodes == w.nodes[0 := Acked()] && w'.hist.visited.Keys == w.hist.visited.Keys
  {
    hide HandleAppendResponse, Serving, Acked;
    w' := Step(w, Deliver(pos, 0));
    AckIs();
  }

  lemma PicksOne()
    ensures IsKth(map[0 := 1, 1 := 1, 2 := 0], 1, 1)
  {
    var m: map<Id, nat> := map[0 := 1, 1 := 1, 2 := 0];
    assert AtMost(m, 0) == {2};
    assert AtMost(m, 1) == {0, 1, 2};
  }

  lemma CommitsIt(w: World) returns (w': World)
    requires 0 in w.nodes && 0 in w.hist.visited && w.nodes[0] == Acked()
    ensures Fair(w, HeartbeatTick(0, 1), w')
    ensures Commit(0, 1, 1, [ENTRY]) in w'.hist.commits
    ensures 0 in w'.nodes && w'.nodes[0].commitIndex == 1 && w'.nodes[0].store == map["k" := "v"]
  {
    hide Advance, Post, Acked;
    PicksOne();
    AckedFacts();
    AdvanceIs();
    w' := Step(w, HeartbeatTick(0, 1));
  }

  lemma AckedFacts()
    ensures var n := Acked();
            && n.role == Leader && n.peers == THREE && n.matchIndex == map[0 := 1, 1 := 1, 2 := 0] && n.commitIndex == 0
            && n.term == 1 && n.entries == [ENTRY] && |n.peers| == 3 && |n.matchIndex| == 3 && n.matchIndex != map[]
  {
    assert |THREE| == 3;
    assert Acked().matchIndex.Keys == THREE;
    assert |Acked().matchIndex.Keys| == |Acked().matchIndex|;
  }

  lemma AdvanceIs()
    ensures Advance(Acked(), 1).node.commitIndex == 1 && Advance(Acked(), 1).node.store == map["k" := "v"]
  {
    var n := Acked().(commitIndex := 1);
    assert ApplyUpTo(ApplyNext(n).node, 1).node == ApplyNext(n).node;
  }

  /** The hypotheses are met by a run in which node 0 wins an election, replicates a client's write to one
      follower, and commits and applies it. */
  lemma FairRunThatCommits() returns (ws: seq<World>, es: seq<Event>)
    ensures IsRun(ws, es) && AlwaysAttributed(ws, es) && AlwaysTail(ws, es) && AlwaysSelf(ws, es)
    ensures var w := ws[|ws| - 1];
            && Commit(0, 1, 1, [ENTRY]) in w.hist.commits
            && 0 in w.nodes && w.nodes[0].commitIndex == 1 && w.nodes[0].store == map["k" := "v"]
  {
    hide Enabled, React, Remember, Post, CanDeliver, Init, Fair, IsStep, HasBallot, IsRun, AlwaysAttributed, AlwaysTail, AlwaysSelf;
    var w0 := Start();
    StartIsInit();
    var w1 := Stands(w0, 0);
    Ready(w1, 0, 1);
    var w2 := Grant(w1, 0, 0, 1);
    Ready(w2, 1, 0);
    var w3 := Wins(w2, 1, 0, 1);
    var w4, w5, w6, w7 := Replicates(w3);
    ws := [w0, w1, w2, w3, w4, w5, w6, w7];
    es := [Election(0), Deliver(0, 1), Deliver(1, 0), Call(0, 0, WRITE), Deliver(2, 1), Deliver(3, 0), HeartbeatTick(0, 1)];
    FairRun(ws, es);
  }

  lemma Replicates(w3: World) returns (w4: World, w5: World, w6: World, w7: World)
    requires 0 in w3.nodes && 1 in w3.nodes && w3.nodes[0] == Elected(0) && w3.nodes[1] == Follows()
    requires 0 in w3.hist.visited && 1 in w3.hist.visited && |w3.sent| == 2 && w3.done == {(0, 1), (1, 0)}
    ensures Fair(w3, Call(0, 0, WRITE), w4) && Fair(w4, Deliver(2, 1), w5) && Fair(w5, Deliver(3, 0), w6)
    ensures Fair(w6, HeartbeatTick(0, 1), w7)
    ensures Commit(0, 1, 1, [ENTRY]) in w7.hist.commits
    ensures 0 in w7.nodes && w7.nodes[0].commitIndex == 1 && w7.nodes[0].store == map["k" := "v"]
  {
    hide Fair, CanDeliver, Serving, Acked, Elected;
    w4 := Serves(w3);
    Ready(w4, 2, 1);
    w5 := Copies(w4, 2);
    Ready(w5, 3, 0);
    w6 := Acks(w5, 3);
    w7 := CommitsIt(w6);
  }

  lemma FairRun(ws: seq<World>, es: seq<Event>)
    requires |ws| == |es| + 1 && Init(ws[0], 0) && forall i :: 0 <= i < |es| ==> Fair(ws[i], es[i], ws[i + 1])
    ensures IsRun(ws, es) && AlwaysAttributed(ws, es) && AlwaysTail(ws, es) && AlwaysSelf(ws, es)
  {
    hide Step, Init, Attributed, TailAppend, SelfMatch, CanDeliver;
    forall i | 0 <= i < |es|
      ensures IsStep(ws[i], es[i], ws[i + 1]) && Enabled(ws[i], es[i])
      ensures Attributed(ws[i], es[i]) && TailAppend(ws[i], es[i]) && SelfMatch(ws[i], es[i])
    {
      assert Fair(ws[i], es[i], ws[i + 1]);
    }
  }

  // ---------------------------------------------------------------- runs that break H2 or H3

  /** Node 0 has won the election of term 1 with the grant of node 1. */
  lemma ElectsZero() returns (w0: World, w1: World, w2: World, w3: World)
    ensures Init(w0, 0) && Fair(w0, Election(0), w1) && Fair(w1, Deliver(0, 1), w2) && Fair(w2, Deliver(1, 0), w3)
    ensures w3.nodes == map[0 := Elected(0), 1 := Follows(), 2 := Fresh(0, 2, THREE)]
    ensures 0 in w3.hist.visited && 1 in w3.hist.visited && |w3.sent| == 2 && w3.done == {(0, 1), (1, 0)}
  {
    hide Enabled, React, Remember, Post, CanDeliver, Init, Fair, IsStep, HasBallot, Candidacy, Elected;
    w0 := Start();
    StartIsInit();
    w1 := Stands(w0, 0);
    Ready(w1, 0, 1);
    w2 := Grant(w1, 0, 0, 1);
    Ready(w2, 1, 0);
    w3 := Wins(w2, 1, 0, 1);
  }

  // ---- H2: the broadcast of an entry and its reissue both reach the follower

  const REISSUE := Envelope(0, Some(1), APPEND.msg)

  lemma ReissueIs()
    ensures ReissueAll(Serving(), [1]) == [ToPeer(1, APPEND.msg)]
  {
    var n := Serving();
    assert EntriesFrom(n.entries, 2, 1) == [];
    assert EntriesFrom(n.entries, 1, 1) == [ENTRY];
    assert ReissueTo(n, 1) == [ToPeer(1, APPEND.msg)];
    assert ReissueAll(n, [1]) == ReissueTo(n, 1) + ReissueAll(n, [1][1..]);
  }

  lemma Reissues(w: World) returns (w': World)
    requires 0 in w.nodes && 0 in w.hist.visited && w.nodes[0] == Serving()
    ensures Fair(w, ReissueTick(0, [1]), w')
    ensures w'.nodes == w.nodes && w'.sent == w.sent + [REISSUE] && w'.done == w.done && w'.hist.visited.Keys == w.hist.visited.Keys
  {
    hide ReissueAll, ReissueTo;
    w' := Step(w, ReissueTick(0, [1]));
    ReissueIs();
    PostToPeer(0, 1, APPEND.msg);
  }

  lemma PostToPeer(from: Id, p: Id, m: Message)
    ensures Post(from, [ToPeer(p, m)]) == [Envelope(from, Some(p), m)]
  {
    PostAlone(from, ToPeer(p, m));
  }

  ghost function Copied(): Node {
    Follows().(entries := [ENTRY], lastLogIndex := 1, lastLogTerm := 1)
  }

  lemma CopyAgainIs()
    ensures var r := HandleAppendRequest(Copied(), APPEND.msg);
            r.node == Copied().(entries := [ENTRY, ENTRY])
  {
    AppendAllFrame(Copied(), [ENTRY]);
    assert [ENTRY] + [ENTRY] == [ENTRY, ENTRY];
  }

  /** The second copy is appended behind the first: H1 and H3 hold at this step, H2 does not. */
  lemma CopiesAgain(w: World, pos: nat) returns (w': World)
    requires 1 in w.nodes && 1 in w.hist.visited && w.nodes[1] == Copied()
    requires CanDeliver(w, pos, 1) && w.sent[pos] == REISSUE
    ensures IsStep(w, Deliver(pos, 1), w') && Attributed(w, Deliver(pos, 1)) && SelfMatch(w, Deliver(pos, 1))
    ensures !TailAppend(w, Deliver(pos, 1))
    ensures w'.nodes == w.nodes[1 := Copied().(entries := [ENTRY, ENTRY])] && w'.hist.visited.Keys == w.hist.visited.Keys
  {
    hide HandleAppendRequest;
    w' := Step(w, Deliver(pos, 1));
    CopyAgainIs();
  }

  const NEXT := Entry(1, 2, WRITE)

  /** A leader that already has one entry takes another client request. */
  lemma ServesAgain(w: World) returns (w': World)
    requires 0 in w.nodes && 0 in w.hist.visited && w.nodes[0] == Serving()
    ensures Fair(w, Call(0, 0, WRITE), w')
    ensures w'.nodes.Keys == w.nodes.Keys && w'.nodes[0].entries == [ENTRY, NEXT]
    ensures forall id <- w.nodes :: id != 0 ==> w'.nodes[id] == w.nodes[id]
  {
    hide Attributed, TailAppend, IsStep;
    w' := TakesCall(w, 0);
    assert [ENTRY] + [NEXT] == [ENTRY, NEXT];
  }

  lemma CopiedTwice()
    ensures !Contiguous([ENTRY, ENTRY])
  {
    var log := [ENTRY, ENTRY];
    assert log[1].index != 2;
  }

  /** Without H2, and with H1 and H3 at every step, a log stops being contiguous and Log Matching fails: node 1
      appends the broadcast of an entry and its reissue, so that its log and the leader's hold the same term at
      index 2 and different entries. */
  lemma LogsDivergeWithoutTailAppend() returns (ws: seq<World>, es: seq<Event>)
    ensures IsRun(ws, es) && AlwaysAttributed(ws, es) && AlwaysSelf(ws, es)
    ensures var w := ws[|ws| - 1];
            && 0 in w.nodes && 1 in w.nodes
            && !Contiguous(w.nodes[1].entries)
            && |w.nodes[0].entries| == |w.nodes[1].entries| == 2
            && w.nodes[0].entries[1].term == w.nodes[1].entries[1].term
            && w.nodes[0].entries[1] != w.nodes[1].entries[1]
  {
    hide Enabled, React, Remember, Post, CanDeliver, Init, Fair, IsStep, HasBallot, IsRun, AlwaysAttributed, AlwaysSelf,
         Attributed, TailAppend, SelfMatch;
    var w0, w1, w2, w3 := ElectsZero();
    var w4, w5, w6, w7, w8 := CopiesTwice(w3);
    ws := [w0, w1, w2, w3, w4, w5, w6, w7, w8];
    es := [Election(0), Deliver(0, 1), Deliver(1, 0), Call(0, 0, WRITE), ReissueTick(0, [1]), Deliver(2, 1), Deliver(3, 1),
           Call(0, 0, WRITE)];
    forall i | 0 <= i < |es|
      ensures HonestVotes(ws[i], es[i], ws[i + 1])
    {
      FairIsHonest(ws[i], es[i], ws[i + 1]);
    }
    HonestRun(ws, es);
    CopiedTwice();
  }

  lemma CopiesTwice(w3: World) returns (w4: World, w5: World, w6: World, w7: World, w8: World)
    requires w3.nodes == map[0 := Elected(0), 1 := Follows(), 2 := Fresh(0, 2, THREE)]
    requires 0 in w3.hist.visited && 1 in w3.hist.visited && |w3.sent| == 2 && w3.done == {(0, 1), (1, 0)}
    ensures Fair(w3, Call(0, 0, WRITE), w4) && Fair(w4, ReissueTick(0, [1]), w5) && Fair(w5, Deliver(2, 1), w6)
    ensures HonestVotes(w6, Deliver(3, 1), w7) && Fair(w7, Call(0, 0, WRITE), w8)
    ensures 0 in w8.nodes && 1 in w8.nodes && w8.nodes[0].entries == [ENTRY, NEXT] && w8.nodes[1].entries == [ENTRY, ENTRY]
  {
    hide Fair, CanDeliver, Serving, Elected, HonestVotes, TailAppend, IsStep, Attributed, SelfMatch;
    w4 := Serves(w3);
    w5 := Reissues(w4);
    Ready(w5, 2, 1);
    w6 := Copies(w5, 2);
    ReadyFor(w6, 3, 1);
    w7 := CopiesAgain(w6, 3);
    HonestIs(w6, Deliver(3, 1), w7);
    w8 := ServesAgain(w7);
  }

  lemma ReadyFor(w: World, pos: nat, id: Id)
    requires pos < |w.sent| && (pos, id) !in w.done && w.sent[pos].dest == Some(id) && w.sent[pos].from != id
    ensures CanDeliver(w, pos, id)
  {
  }

  /** A step that meets H1 and H3. */
  ghost predicate HonestVotes(w: World, e: Event, w': World) {
    IsStep(w, e, w') && Attributed(w, e) && SelfMatch(w, e)
  }

  lemma HonestIs(w: World, e: Event, w': World)
    requires IsStep(w, e, w') && Attributed(w, e) && SelfMatch(w, e)
    ensures HonestVotes(w, e, w')
  {
  }

  lemma FairIsHonest(w: World, e: Event, w': World)
    ensures Fair(w, e, w') ==> HonestVotes(w, e, w')
  {
  }

  lemma HonestRun(ws: seq<World>, es: seq<Event>)
    requires |ws| == |es| + 1 && Init(ws[0], 0) && forall i :: 0 <= i < |es| ==> HonestVotes(ws[i], es[i], ws[i + 1])
    ensures IsRun(ws, es) && AlwaysAttributed(ws, es) && AlwaysSelf(ws, es)
  {
    hide Step, Init, Attributed, SelfMatch, CanDeliver;
    forall i | 0 <= i < |es|
      ensures IsStep(ws[i], es[i], ws[i + 1]) && Enabled(ws[i], es[i]) && Attributed(ws[i], es[i]) && SelfMatch(ws[i], es[i])
    {
      assert HonestVotes(ws[i], es[i], ws[i + 1]);
    }
  }

  // ---- H3: client ids that are peers' ids, and client ids that are nobody's

  /** A step that meets H1 and H2. */
  ghost predicate HonestLogs(w: World, e: Event, w': World) {
    IsStep(w, e, w') && Attributed(w, e) && TailAppend(w, e)
  }

  lemma FairHasHonestLogs(w: World, e: Event, w': World)
    ensures Fair(w, e, w') ==> HonestLogs(w, e, w')
  {
  }

  lemma HonestLogsRun(ws: seq<World>, es: seq<Event>)
    requires |ws| == |es| + 1 && Init(ws[0], 0) && forall i :: 0 <= i < |es| ==> HonestLogs(ws[i], es[i], ws[i + 1])
    ensures IsRun(ws, es) && AlwaysAttributed(ws, es) && AlwaysTail(ws, es)
  {
    hide Step, Init, Attributed, TailAppend, CanDeliver;
    forall i | 0 <= i < |es|
      ensures IsStep(ws[i], es[i], ws[i + 1]) && Enabled(ws[i], es[i]) && Attributed(ws[i], es[i]) && TailAppend(ws[i], es[i])
    {
      assert HonestLogs(ws[i], es[i], ws[i + 1]);
    }
  }

  /** What a leader records of a client request that it can take. */
  lemma TakesCall(w: World, client: Id) returns (w': World)
    requires 0 in w.nodes && 0 in w.hist.visited && w.nodes[0].role.Leader? && w.nodes[0].lastLogIndex == |w.nodes[0].entries|
    ensures HonestLogs(w, Call(0, client, WRITE), w')
    ensures var n, n' := w.nodes[0], w'.nodes[0];
            && w'.nodes == w.nodes[0 := n'] && w'.hist.visited.Keys == w.hist.visited.Keys
            && n'.role == Leader && n'.peers == n.peers && n'.commitIndex == n.commitIndex && n'.term == n.term
            && n'.entries == n.entries + [Entry(n.term, |n.entries| + 1, WRITE)] && n'.lastLogIndex == |n'.entries|
            && n'.matchIndex == n.matchIndex[client := |n.entries| + 1]
  {
    w' := Step(w, Call(0, client, WRITE));
  }

  lemma PicksOneOfThree()
    ensures IsKth(map[0 := 0, 1 := 1, 2 := 2], 1, 1)
  {
    var m: map<Id, nat> := map[0 := 0, 1 := 1, 2 := 2];
    assert AtMost(m, 0) == {0};
    assert AtMost(m, 1) == {0, 1};
  }

  /** A leader that believes its three match indices picks the middle one. */
  lemma PicksMiddle(w: World)
    requires 0 in w.nodes && w.nodes[0].peers == THREE && w.nodes[0].matchIndex == map[0 := 0, 1 := 1, 2 := 2]
    ensures Enabled(w, HeartbeatTick(0, 1))
  {
    hide IsKth, Step, Advance;
    PicksOneOfThree();
    ThreePeers(w.nodes[0].matchIndex);
  }

  /** A heartbeat of such a leader commits the picked index. */
  lemma CommitsUnheld(w: World) returns (w': World)
    requires 0 in w.nodes && 0 in w.hist.visited && Enabled(w, HeartbeatTick(0, 1))
    requires w.nodes[0].role == Leader && w.nodes[0].matchIndex != map[] && w.nodes[0].commitIndex == 0 && w.nodes[0].term == 1
    ensures HonestLogs(w, HeartbeatTick(0, 1), w')
    ensures Commit(0, 1, 1, w.nodes[0].entries) in w'.hist.commits
    ensures w'.nodes.Keys == w.nodes.Keys && forall id <- w.nodes :: id != 0 ==> w'.nodes[id] == w.nodes[id]
  {
    hide Enabled, Post, Advance, Looked;
    w' := Step(w, HeartbeatTick(0, 1));
  }

  lemma ThreePeers(m: map<Id, nat>)
    requires m.Keys == THREE
    ensures |THREE| == 3 && |m| == 3 && m != map[]
  {
    assert |m.Keys| == |m|;
  }

  /** Without H3, and with H1 and H2 at every step, a leader commits an entry that no other node has: two
      clients go by the ids of its peers, and their requests count as the peers' acknowledgements. */
  lemma CommitsWithoutMajority() returns (ws: seq<World>, es: seq<Event>, c: Commit)
    ensures IsRun(ws, es) && AlwaysAttributed(ws, es) && AlwaysTail(ws, es)
    ensures var w := ws[|ws| - 1];
            && c in w.hist.commits && c.index == 1 <= |c.log|
            && |Holders(w, c.log[..c.index])| < |w.nodes| / 2 + 1
            && forall id <- w.nodes :: id != c.leader ==> w.nodes[id].entries == []
  {
    hide Enabled, React, Remember, Post, CanDeliver, Init, Fair, IsStep, HasBallot, IsRun, AlwaysAttributed, AlwaysTail,
         Attributed, TailAppend, HonestLogs;
    var w0, w1, w2, w3 := ElectsZero();
    var w4, w5, w6 := Misled(w3);
    ws := [w0, w1, w2, w3, w4, w5, w6];
    es := [Election(0), Deliver(0, 1), Deliver(1, 0), Call(0, 1, WRITE), Call(0, 2, WRITE), HeartbeatTick(0, 1)];
    c := Commit(0, 1, 1, w5.nodes[0].entries);
    forall i | 0 <= i < |es|
      ensures HonestLogs(ws[i], es[i], ws[i + 1])
    {
      FairHasHonestLogs(ws[i], es[i], ws[i + 1]);
    }
    HonestLogsRun(ws, es);
    FewHolders(w6, c.log[..1]);
  }

  lemma Misled(w3: World) returns (w4: World, w5: World, w6: World)
    requires w3.nodes == map[0 := Elected(0), 1 := Follows(), 2 := Fresh(0, 2, THREE)] && 0 in w3.hist.visited
    ensures HonestLogs(w3, Call(0, 1, WRITE), w4) && HonestLogs(w4, Call(0, 2, WRITE), w5) && HonestLogs(w5, HeartbeatTick(0, 1), w6)
    ensures 0 in w5.nodes && |w5.nodes[0].entries| == 2 && Commit(0, 1, 1, w5.nodes[0].entries) in w6.hist.commits
    ensures w6.nodes.Keys == THREE && w6.nodes[1].entries == [] && w6.nodes[2].entries == []
  {
    hide HonestLogs;
    w4 := TakesCall(w3, 1);
    w5 := TakesCall(w4, 2);
    assert w5.nodes[0].matchIndex == map[0 := 0, 1 := 1, 2 := 2];
    PicksMiddle(w5);
    w6 := CommitsUnheld(w5);
  }

  lemma FewHolders(w: World, prefix: seq<Entry>)
    requires w.nodes.Keys == THREE && w.nodes[1].entries == [] && w.nodes[2].entries == [] && |prefix| == 1
    ensures |Holders(w, prefix)| < |w.nodes| / 2 + 1
  {
    assert |w.nodes.Keys| == |w.nodes|;
    assert |THREE| == 3;
    assert Holders(w, prefix) <= {0};
    SubsetSize(Holders(w, prefix), {0});
  }

  /** Three clients with ids of their own leave a leader with twice as many match indices as peers: at its next
      heartbeat the position to read lies before the vector. */
  lemma PickUndefinedWithForeignClients() returns (ws: seq<World>, es: seq<Event>)
    ensures IsRun(ws, es) && AlwaysAttributed(ws, es) && AlwaysTail(ws, es)
    ensures var w := ws[|ws| - 1];
            && 0 in w.nodes && w.nodes[0].role.Leader? && |w.nodes[0].peers| == 3 && |w.nodes[0].matchIndex| == 6
            && !PickDefined(|w.nodes[0].peers|, |w.nodes[0].matchIndex|)
            && forall v :: !Enabled(w, HeartbeatTick(0, v))
  {
    hide React, Remember, Post, CanDeliver, Init, Fair, IsStep, HasBallot, IsRun, AlwaysAttributed, AlwaysTail,
         Attributed, TailAppend, HonestLogs;
    var w0, w1, w2, w3 := ElectsZero();
    var w4 := TakesCall(w3, 7);
    var w5 := TakesCall(w4, 8);
    var w6 := TakesCall(w5, 9);
    ws := [w0, w1, w2, w3, w4, w5, w6];
    es := [Election(0), Deliver(0, 1), Deliver(1, 0), Call(0, 7, WRITE), Call(0, 8, WRITE), Call(0, 9, WRITE)];
    forall i | 0 <= i < |es|
      ensures HonestLogs(ws[i], es[i], ws[i + 1])
    {
      FairHasHonestLogs(ws[i], es[i], ws[i + 1]);
    }
    HonestLogsRun(ws, es);
    SixKeys(w6.nodes[0].matchIndex);
  }

  lemma SixKeys(m: map<Id, nat>)
    requires m.Keys == {0, 1, 2, 7, 8, 9}
    ensures |m| == 6 && m != map[] && |THREE| == 3 && !PickDefined(3, 6)
  {
    assert |m.Keys| == |m|;
  }
}
