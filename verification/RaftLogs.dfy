/** Section 5.3 of the Raft paper, Log Matching, in runs where counted grants are attributed (H1) and
    accepted appends start at the end of the receiver's log (H2). */
module RaftLogs {
  import opened Wrappers
  import opened RaftTypes
  import opened RaftHandlers
  import opened RaftSystem
  import opened RaftFrames
  import opened RaftVotes
  import opened RaftElection

  ghost predicate Contiguous(log: seq<Entry>) {
    forall k :: 0 <= k < |log| ==> log[k].index == k + 1
  }

  ghost predicate TermsUpTo(log: seq<Entry>, term: nat) {
    forall k :: 0 <= k < |log| ==> log[k].term <= term
  }

  ghost predicate TermsOrdered(log: seq<Entry>) {
    forall j, k :: 0 <= j <= k < |log| ==> log[j].term <= log[k].term
  }

  /** The log up to and including position k is what the leader of that entry's term had there. */
  ghost predicate Anchored(log: seq<Entry>, k: nat, leaderLog: map<nat, seq<Entry>>)
    requires k < |log|
  {
    && log[k].term in leaderLog
    && k < |leaderLog[log[k].term]|
    && log[..k + 1] == leaderLog[log[k].term][..k + 1]
  }

  ghost predicate LogOk(log: seq<Entry>, term: nat, leaderLog: map<nat, seq<Entry>>) {
    && Contiguous(log) && TermsUpTo(log, term) && TermsOrdered(log)
    && forall k :: 0 <= k < |log| ==> Anchored(log, k, leaderLog)
  }

  ghost function TermAt(log: seq<Entry>, index: nat): nat
    requires index <= |log|
  {
    if index == 0 then 0 else log[index - 1].term
  }

  ghost predicate NodeLog(h: History, n: Node) {
    && n.lastLogIndex == |n.entries| && n.lastLogTerm == TermAt(n.entries, |n.entries|)
    && LogOk(n.entries, n.term, h.leaderLog)
    && (n.role.Leader? ==> n.term in h.leaderLog && h.leaderLog[n.term] == n.entries)
    && (forall p <- n.nextIndex :: n.nextIndex[p] >= 1)
  }

  /** A replicating append request carries a stretch of its leader's log. */
  ghost predicate Stretch(h: History, from: Id, c: Content)
    requires c.AppendRequest?
  {
    && (c.term, from) in h.leaders && c.term in h.leaderLog
    && c.prevLogIndex + |c.entries| <= |h.leaderLog[c.term]|
    && c.entries == h.leaderLog[c.term][c.prevLogIndex..c.prevLogIndex + |c.entries|]
    && c.prevLogTerm == TermAt(h.leaderLog[c.term], c.prevLogIndex)
  }

  ghost predicate EnvelopeLog(h: History, v: Envelope) {
    && (v.msg.content.AppendRequest? && !v.msg.content.isHeartbeat ==> Stretch(h, v.from, v.msg.content))
    && (v.msg.content.AppendResponse? && !v.msg.content.success ==> v.msg.content.conflictIndex >= 1)
    && !v.msg.content.ClientCall?
  }

  ghost predicate HadLeader(h: History, term: nat) {
    exists c :: (term, c) in h.leaders
  }

  ghost predicate LogsInv(w: World) {
    && (forall id <- w.nodes :: NodeLog(w.hist, w.nodes[id]))
    && (forall t <- w.hist.leaderLog :: LogOk(w.hist.leaderLog[t], t, w.hist.leaderLog) && HadLeader(w.hist, t))
    && (forall v <- w.sent :: EnvelopeLog(w.hist, v))
  }

  // ---------------------------------------------------------------- leader logs only grow

  ghost predicate Grows(a: map<nat, seq<Entry>>, b: map<nat, seq<Entry>>) {
    forall t <- a :: t in b && a[t] <= b[t]
  }

  lemma AnchoredGrows(log: seq<Entry>, k: nat, a: map<nat, seq<Entry>>, b: map<nat, seq<Entry>>)
    requires k < |log| && Anchored(log, k, a) && Grows(a, b)
    ensures Anchored(log, k, b)
  {
    var t := log[k].term;
    assert a[t][..k + 1] == b[t][..k + 1];
  }

  lemma LogOkGrows(log: seq<Entry>, term: nat, term': nat, a: map<nat, seq<Entry>>, b: map<nat, seq<Entry>>)
    requires LogOk(log, term, a) && Grows(a, b) && term <= term'
    ensures LogOk(log, term', b)
  {
    hide Anchored, Grows;
    forall k | 0 <= k < |log| ensures Anchored(log, k, b) { AnchoredGrows(log, k, a, b); }
  }

  lemma EnvelopeGrows(h: History, h': History, v: Envelope)
    requires EnvelopeLog(h, v) && Grows(h.leaderLog, h'.leaderLog) && h.leaders <= h'.leaders
    ensures EnvelopeLog(h', v)
  {
    var c := v.msg.content;
    if c.AppendRequest? && !c.isHeartbeat {
      var a, b := h.leaderLog[c.term], h'.leaderLog[c.term];
      assert a <= b;
      assert a[c.prevLogIndex..c.prevLogIndex + |c.entries|] == b[c.prevLogIndex..c.prevLogIndex + |c.entries|];
    }
  }

  /** A prefix of a good log is good. */
  lemma PrefixOk(log: seq<Entry>, n: nat, term: nat, a: map<nat, seq<Entry>>)
    requires LogOk(log, term, a) && n <= |log|
    ensures LogOk(log[..n], term, a)
  {
    forall k | 0 <= k < n ensures Anchored(log[..n], k, a) {
      assert Anchored(log, k, a);
      assert log[..n][..k + 1] == log[..k + 1];
    }
  }

  // ---------------------------------------------------------------- the three ways a step can go

  /** What a step may do to the world as far as logs are concerned: one node moves, the leader logs
      grow, messages are added. */
  ghost predicate LogFrame(w: World, w': World, id: Id) {
    && id in w.nodes && id in w'.nodes && w'.nodes == w.nodes[id := w'.nodes[id]]
    && Grows(w.hist.leaderLog, w'.hist.leaderLog) && w.hist.leaders <= w'.hist.leaders
    && w.sent <= w'.sent
  }

  /** The only leader log that can change is the moving leader's own. */
  ghost predicate LeaderFrame(w: World, w': World, id: Id)
    requires id in w.nodes && id in w'.nodes
  {
    var n' := w'.nodes[id];
    w'.hist.leaderLog == if n'.role.Leader? then w.hist.leaderLog[n'.term := n'.entries] else w.hist.leaderLog
  }

  /** No two nodes lead in one term, and every leader is on record. */
  ghost predicate LeadersKnown(w: World) {
    && (forall id <- w.nodes :: w.nodes[id].role.Leader? ==> (w.nodes[id].term, id) in w.hist.leaders)
    && (forall t, c, d :: (t, c) in w.hist.leaders && (t, d) in w.hist.leaders ==> c == d)
  }

  lemma LogsCarry(w: World, w': World, id: Id)
    requires LogsInv(w) && LogFrame(w, w', id) && LeaderFrame(w, w', id) && LeadersKnown(w')
    requires NodeLog(w'.hist, w'.nodes[id])
    requires forall v <- w'.sent[|w.sent|..] :: EnvelopeLog(w'.hist, v)
    ensures LogsInv(w')
  {
    hide Grows, LogOk, EnvelopeLog, TermAt;
    var n' := w'.nodes[id];
    forall u | u in w'.nodes ensures NodeLog(w'.hist, w'.nodes[u]) {
      if u != id { OtherNode(w, w', id, u); }
    }
    forall t | t in w'.hist.leaderLog
      ensures LogOk(w'.hist.leaderLog[t], t, w'.hist.leaderLog) && HadLeader(w'.hist, t)
    {
      if n'.role.Leader? && t == n'.term {
        assert (t, id) in w'.hist.leaders;
      } else {
        LogOkGrows(w.hist.leaderLog[t], t, t, w.hist.leaderLog, w'.hist.leaderLog);
        var c :| (t, c) in w.hist.leaders;
        assert (t, c) in w'.hist.leaders;
      }
    }
    forall v | v in w'.sent ensures EnvelopeLog(w'.hist, v) {
      var i :| 0 <= i < |w'.sent| && w'.sent[i] == v;
      if i < |w.sent| {
        assert w.sent[i] == v;
        EnvelopeGrows(w.hist, w'.hist, v);
      } else {
        assert w'.sent[|w.sent|..][i - |w.sent|] == v;
      }
    }
  }

  lemma OtherNode(w: World, w': World, id: Id, u: Id)
    requires LogsInv(w) && LogFrame(w, w', id) && LeaderFrame(w, w', id) && LeadersKnown(w')
    requires u in w.nodes && u != id
    ensures NodeLog(w'.hist, w'.nodes[u])
  {
    hide LogOk, EnvelopeLog, TermAt;
    var n := w.nodes[u];
    assert w'.nodes[u] == n;
    assert NodeLog(w.hist, n);
    LogOkGrows(n.entries, n.term, n.term, w.hist.leaderLog, w'.hist.leaderLog);
    assert n.role.Leader? ==> (n.term, u) in w'.hist.leaders;
    assert w'.nodes[id].role.Leader? ==> (w'.nodes[id].term, id) in w'.hist.leaders;
  }

  /** A node that is a leader after the step was one before, in the same term, or its term has no
      leader log yet. */
  ghost predicate NoRival(w: World, n: Node, n': Node) {
    n'.role.Leader? ==> (n.role.Leader? && n'.term == n.term) || n'.term !in w.hist.leaderLog
  }

  /** A step that leaves the moving node's log alone. */
  ghost predicate SameLog(n: Node, n': Node) {
    n'.entries == n.entries && n'.lastLogIndex == n.lastLogIndex && n'.lastLogTerm == n.lastLogTerm && n'.term >= n.term
  }

  lemma SameLogStep(w: World, w': World, id: Id)
    requires LogsInv(w) && id in w.nodes && id in w'.nodes && LeadersKnown(w')
    requires w'.nodes == w.nodes[id := w'.nodes[id]] && w.sent <= w'.sent && w.hist.leaders <= w'.hist.leaders
    requires LeaderFrame(w, w', id)
    requires SameLog(w.nodes[id], w'.nodes[id]) && NoRival(w, w.nodes[id], w'.nodes[id])
    requires forall p <- w'.nodes[id].nextIndex :: w'.nodes[id].nextIndex[p] >= 1
    requires forall v <- w'.sent[|w.sent|..] :: EnvelopeLog(w'.hist, v)
    ensures LogsInv(w')
  {
    hide LogOk, EnvelopeLog, LeadersKnown;
    var n, n' := w.nodes[id], w'.nodes[id];
    assert NodeLog(w.hist, n);
    assert Grows(w.hist.leaderLog, w'.hist.leaderLog);
    LogOkGrows(n.entries, n.term, n'.term, w.hist.leaderLog, w'.hist.leaderLog);
    LogsCarry(w, w', id);
  }

  /** A step after which the moving node's log is a longer good log. */
  lemma LongerLogStep(w: World, w': World, id: Id)
    requires LogsInv(w) && id in w.nodes && id in w'.nodes && LeadersKnown(w')
    requires w'.nodes == w.nodes[id := w'.nodes[id]] && w.sent <= w'.sent && w.hist.leaders <= w'.hist.leaders
    requires LeaderFrame(w, w', id)
    requires w.nodes[id].entries <= w'.nodes[id].entries && NoRival(w, w.nodes[id], w'.nodes[id])
    requires w'.nodes[id].role.Leader? || LogOk(w'.nodes[id].entries, w'.nodes[id].term, w.hist.leaderLog)
    requires w'.nodes[id].role.Leader? ==> LogOk(w'.nodes[id].entries, w'.nodes[id].term, w'.hist.leaderLog)
    requires w'.nodes[id].lastLogIndex == |w'.nodes[id].entries|
    requires w'.nodes[id].lastLogTerm == TermAt(w'.nodes[id].entries, |w'.nodes[id].entries|)
    requires forall p <- w'.nodes[id].nextIndex :: w'.nodes[id].nextIndex[p] >= 1
    requires forall v <- w'.sent[|w.sent|..] :: EnvelopeLog(w'.hist, v)
    ensures LogsInv(w')
  {
    hide LogOk, EnvelopeLog, LeadersKnown, TermAt;
    var n, n' := w.nodes[id], w'.nodes[id];
    assert NodeLog(w.hist, n);
    assert Grows(w.hist.leaderLog, w'.hist.leaderLog);
    if !n'.role.Leader? { LogOkGrows(n'.entries, n'.term, n'.term, w.hist.leaderLog, w'.hist.leaderLog); }
    LogsCarry(w, w', id);
  }

  // ---------------------------------------------------------------- what a leader sends

  lemma {:induction false} EntriesFromIsSuffix(log: seq<Entry>, from: nat)
    requires 1 <= from <= |log| + 1
    ensures EntriesFrom(log, from, |log|) == log[from - 1..]
    decreases |log| + 1 - from
  {
    if from <= |log| {
      EntriesFromIsSuffix(log, from + 1);
      assert log[from - 1..] == [log[from - 1]] + log[from..];
    }
  }

  lemma ReissueToStretch(h: History, n: Node, p: Id)
    requires p in n.nextIndex && n.nextIndex[p] >= 1 && n.lastLogIndex == |n.entries|
    requires (n.term, n.id) in h.leaders && n.term in h.leaderLog && h.leaderLog[n.term] == n.entries
    ensures forall v <- Post(n.id, ReissueTo(n, p)) :: EnvelopeLog(h, v)
  {
    var next := n.nextIndex[p];
    if ReissueTo(n, p) != [] {
      EntriesFromIsSuffix(n.entries, next);
      PostAlone(n.id, ReissueTo(n, p)[0]);
    }
  }

  lemma {:induction false} ReissueStretch(h: History, n: Node, order: seq<Id>)
    requires forall p <- order :: p in n.nextIndex && n.nextIndex[p] >= 1
    requires n.lastLogIndex == |n.entries|
    requires (n.term, n.id) in h.leaders && n.term in h.leaderLog && h.leaderLog[n.term] == n.entries
    ensures forall v <- Post(n.id, ReissueAll(n, order)) :: EnvelopeLog(h, v)
  {
    hide ReissueTo, EnvelopeLog;
    if order != [] {
      ReissueToStretch(h, n, order[0]);
      ReissueStretch(h, n, order[1..]);
      PostConcat(n.id, ReissueTo(n, order[0]), ReissueAll(n, order[1..]));
    }
  }

  // ---------------------------------------------------------------- steps

  lemma Known(w: World)
    requires VotesInv(w) && TallyInv(w)
    ensures LeadersKnown(w)
  {
    hide VotesInv, LeaderOk, CountOk;
    forall id | id in w.nodes && w.nodes[id].role.Leader? ensures (w.nodes[id].term, id) in w.hist.leaders {
      assert NodeTally(w, id);
    }
    forall t, c, d | (t, c) in w.hist.leaders && (t, d) in w.hist.leaders ensures c == d {
      OneLeader(w, t, c, d);
    }
  }

  /** Everything known before a step, and who leads after it. */
  ghost predicate Ready(w: World, e: Event)
    requires Enabled(w, e) && e.id in w.hist.visited
  {
    VotesInv(w) && TallyInv(w) && LogsInv(w) && LeadersKnown(w) && LeadersKnown(Step(w, e))
  }

  lemma AtNode(w: World, e: Event)
    requires Enabled(w, e) && e.id in w.hist.visited && Ready(w, e)
    ensures NodeLog(w.hist, w.nodes[e.id]) && w.nodes[e.id].id == e.id
    ensures LeaderFrame(w, Step(w, e), e.id) && w.hist.leaders <= Step(w, e).hist.leaders
    ensures Step(w, e).nodes == w.nodes[e.id := React(w, e).node] && Step(w, e).sent == w.sent + Post(e.id, React(w, e).out)
    ensures Step(w, e).sent[|w.sent|..] == Post(e.id, React(w, e).out)
    ensures w.nodes[e.id].role.Leader? ==> (w.nodes[e.id].term, e.id) in w.hist.leaders
  {
    hide NodeLog, LogOk, React, Post, EnvelopesInv, BallotsInv, TallyInv;
  }

  lemma LogsElection(w: World, e: Event)
    requires Enabled(w, e) && e.id in w.hist.visited && Ready(w, e) && e.Election?
    ensures LogsInv(Step(w, e))
  {
    hide Ready, Step, LogOk, LogsInv, LeadersKnown, LeaderFrame;
    AtNode(w, e);
    var r := React(w, e);
    if r.out != [] { PostAlone(e.id, r.out[0]); }
    Unpack(w, e);
    SameLogStep(w, Step(w, e), e.id);
  }

  lemma Unpack(w: World, e: Event)
    requires Enabled(w, e) && e.id in w.hist.visited && Ready(w, e)
    ensures LogsInv(w) && LeadersKnown(Step(w, e)) && LeadersKnown(w)
  {
  }

  lemma LogsHeartbeat(w: World, e: Event)
    requires Enabled(w, e) && e.id in w.hist.visited && Ready(w, e) && e.HeartbeatTick?
    ensures LogsInv(Step(w, e))
  {
    hide Ready, Step, LogOk, LogsInv, LeadersKnown, LeaderFrame, ApplyUpTo;
    AtNode(w, e);
    Unpack(w, e);
    var n, r := w.nodes[e.id], React(w, e);
    if n.role.Leader? && n.matchIndex != map[] {
      AdvanceVotes(n, e.value);
      ApplyUpToFrame(n.(commitIndex := e.value), e.value);
    }
    SameLogStep(w, Step(w, e), e.id);
  }

  lemma LogsReissue(w: World, e: Event)
    requires Enabled(w, e) && e.id in w.hist.visited && Ready(w, e) && e.ReissueTick?
    ensures LogsInv(Step(w, e))
  {
    hide Ready, Step, LogOk, LogsInv, LeadersKnown, LeaderFrame, EnvelopeLog, ReissueAll;
    AtNode(w, e);
    Unpack(w, e);
    var n := w.nodes[e.id];
    if n.role.Leader? {
      ReissueStretch(w.hist, n, e.order);
      SameHistory(w, e);
    }
    SameLogStep(w, Step(w, e), e.id);
  }

  lemma SameHistory(w: World, e: Event)
    requires Enabled(w, e) && e.id in w.hist.visited && Ready(w, e) && e.ReissueTick? && w.nodes[e.id].role.Leader?
    requires forall v <- Post(e.id, React(w, e).out) :: EnvelopeLog(w.hist, v)
    ensures forall v <- Post(e.id, React(w, e).out) :: EnvelopeLog(Step(w, e).hist, v)
  {
    hide Post, ReissueAll, VotesInv, TallyInv, LogOk, EnvelopeLog;
    assert NodeLog(w.hist, w.nodes[e.id]);
    assert Grows(w.hist.leaderLog, Step(w, e).hist.leaderLog);
    forall v | v in Post(e.id, React(w, e).out) ensures EnvelopeLog(Step(w, e).hist, v) {
      EnvelopeGrows(w.hist, Step(w, e).hist, v);
    }
  }

  /** A leader puts a client's entry at the end of its log and sends it to everybody. */
  lemma LogsCall(w: World, e: Event)
    requires Enabled(w, e) && e.id in w.hist.visited && Ready(w, e) && e.Call?
    ensures LogsInv(Step(w, e))
  {
    hide Ready, Step, LogsInv, LeadersKnown, LeaderFrame, LogOk, EnvelopeLog;
    AtNode(w, e);
    Unpack(w, e);
    var n, m, w' := w.nodes[e.id], Message(0, e.client, ClientCall(e.request)), Step(w, e);
    CallEffect(n, m);
    if n.role.Leader? {
      var entry := Entry(n.term, |n.entries| + 1, e.request);
      LeaderAppends(w, w', e.id, entry);
      FreshStretch(w'.hist, n, entry, e.id);
      LongerLogStep(w, w', e.id);
    } else {
      SameLogStep(w, w', e.id);
    }
  }

  lemma CallEffect(n: Node, m: Message)
    requires m.content.ClientCall? && n.lastLogIndex == |n.entries|
    requires forall p <- n.nextIndex :: n.nextIndex[p] >= 1
    ensures var n', out := HandleClientRequest(n, m).node, HandleClientRequest(n, m).out;
            && n'.term == n.term && n'.role == n.role
            && (forall p <- n'.nextIndex :: n'.nextIndex[p] >= 1)
            && if n.role.Leader? then
                 var entry := Entry(n.term, |n.entries| + 1, m.content.request);
                 && n'.entries == n.entries + [entry] && n'.lastLogIndex == |n'.entries| && n'.lastLogTerm == n.term
                 && Post(n.id, out) == [Envelope(n.id, None, Send(n', AppendRequest(n.term, |n.entries|, TermAt(n.entries, |n.entries|), [entry], n.commitIndex, false)))]
               else n' == n && Post(n.id, out) == []
  {
    var out := HandleClientRequest(n, m).out;
    if out != [] { PostAlone(n.id, out[0]); }
  }

  lemma LeaderAppends(w: World, w': World, id: Id, entry: Entry)
    requires LogsInv(w) && id in w.nodes && id in w'.nodes && NodeLog(w.hist, w.nodes[id])
    requires w.nodes[id].role.Leader? && w'.nodes[id].role.Leader? && w'.nodes[id].term == w.nodes[id].term
    requires w'.nodes[id].entries == w.nodes[id].entries + [entry]
    requires entry.term == w.nodes[id].term && entry.index == |w.nodes[id].entries| + 1
    requires LeaderFrame(w, w', id)
    ensures LogOk(w'.nodes[id].entries, w'.nodes[id].term, w'.hist.leaderLog)
    ensures entry.term in w'.hist.leaderLog && w'.hist.leaderLog[entry.term] == w'.nodes[id].entries
  {
    hide LogsInv, Grows;
    var n, log := w.nodes[id], w'.nodes[id].entries;
    var a, b := w.hist.leaderLog, w'.hist.leaderLog;
    assert Grows(a, b) by { LeaderGrows(w, w', id); }
    forall k | 0 <= k < |log| ensures Anchored(log, k, b) {
      if k < |n.entries| {
        assert Anchored(n.entries, k, a);
        AnchoredGrows(n.entries, k, a, b);
        assert log[..k + 1] == n.entries[..k + 1];
      }
    }
  }

  lemma LeaderGrows(w: World, w': World, id: Id)
    requires id in w.nodes && id in w'.nodes && NodeLog(w.hist, w.nodes[id]) && LeaderFrame(w, w', id)
    requires w'.nodes[id].role.Leader? ==> w.nodes[id].role.Leader? && w'.nodes[id].term == w.nodes[id].term
    requires w.nodes[id].entries <= w'.nodes[id].entries
    ensures Grows(w.hist.leaderLog, w'.hist.leaderLog)
  {
  }

  lemma FreshStretch(h: History, n: Node, entry: Entry, id: Id)
    requires (n.term, id) in h.leaders && n.term in h.leaderLog && h.leaderLog[n.term] == n.entries + [entry]
    ensures forall m: Message :: m.content == AppendRequest(n.term, |n.entries|, TermAt(n.entries, |n.entries|), [entry], n.commitIndex, false)
              ==> EnvelopeLog(h, Envelope(id, None, m))
  {
  }

  /** The handlers of the other messages leave the log alone. */
  lemma OtherEffect(n: Node, m: Message)
    requires !m.content.AppendRequest? && !m.content.VoteResponse? && !m.content.ClientCall?
    requires m.content.AppendResponse? && !m.content.success ==> m.content.conflictIndex >= 1
    requires forall p <- n.nextIndex :: n.nextIndex[p] >= 1
    ensures var r := Dispatch(n, m);
            && SameLog(n, r.node) && (r.node.role.Leader? ==> n.role.Leader? && r.node.term == n.term)
            && (forall p <- r.node.nextIndex :: r.node.nextIndex[p] >= 1)
            && (forall v <- Post(n.id, r.out) :: v.msg.content.VoteResponse?)
  {
    var out := Dispatch(n, m).out;
    if out != [] { PostAlone(n.id, out[0]); }
  }

  lemma LogsDeliverOther(w: World, e: Event)
    requires Enabled(w, e) && e.id in w.hist.visited && Ready(w, e) && e.Deliver?
    requires !w.sent[e.pos].msg.content.AppendRequest? && !w.sent[e.pos].msg.content.VoteResponse?
    ensures LogsInv(Step(w, e))
  {
    hide Ready, Step, LogOk, LogsInv, LeadersKnown, LeaderFrame, Dispatch;
    AtNode(w, e);
    Unpack(w, e);
    SentLog(w, e.pos);
    OtherEffect(w.nodes[e.id], w.sent[e.pos].msg);
    SameLogStep(w, Step(w, e), e.id);
  }

  lemma SentLog(w: World, pos: nat)
    requires LogsInv(w) && pos < |w.sent|
    ensures EnvelopeLog(w.hist, w.sent[pos])
  {
    assert w.sent[pos] in w.sent;
  }

  /** Counting a vote may make a leader; its term has no other leader, hence no other leader log. */
  lemma LogsVoteResponse(w: World, e: Event)
    requires Enabled(w, e) && e.id in w.hist.visited && Ready(w, e) && e.Deliver? && w.sent[e.pos].msg.content.VoteResponse?
    ensures LogsInv(Step(w, e))
  {
    hide Ready, Step, LogOk, LogsInv, LeadersKnown, LeaderFrame;
    AtNode(w, e);
    Unpack(w, e);
    var n, w' := w.nodes[e.id], Step(w, e);
    if w'.nodes[e.id].role.Leader? { NoOtherLeader(w, e); }
    SameLogStep(w, w', e.id);
  }

  lemma NoOtherLeader(w: World, e: Event)
    requires Enabled(w, e) && e.id in w.hist.visited && Ready(w, e) && Step(w, e).nodes[e.id].role.Leader?
    requires Step(w, e).nodes[e.id].term == w.nodes[e.id].term
    ensures w.nodes[e.id].role.Leader? || w.nodes[e.id].term !in w.hist.leaderLog
  {
    hide React, VotesInv, NodeTally, CountOk, LogOk, NodeLog, EnvelopeLog;
    var t, w' := w.nodes[e.id].term, Step(w, e);
    if t in w.hist.leaderLog {
      assert HadLeader(w.hist, t);
      var c :| (t, c) in w.hist.leaders;
      assert (t, c) in w'.hist.leaders && (t, e.id) in w'.hist.leaders;
      assert LeaderOk(w, t, c);
    }
  }

  /** Once an accepted append starts at the end of the receiver's log, the log matches its leader's. */
  lemma TailMatches(h: History, n: Node, from: Id, c: Content)
    requires NodeLog(h, n) && c.AppendRequest? && Stretch(h, from, c)
    requires LogOk(h.leaderLog[c.term], c.term, h.leaderLog)
    requires PrevMatches(n, c.prevLogIndex, c.prevLogTerm) && c.prevLogIndex == n.lastLogIndex
    ensures n.entries + c.entries == h.leaderLog[c.term][..|n.entries| + |c.entries|]
  {
    var prev, lead := c.prevLogIndex, h.leaderLog[c.term];
    if prev > 0 {
      assert Anchored(n.entries, prev - 1, h.leaderLog) && Anchored(lead, prev - 1, h.leaderLog);
      assert n.entries == n.entries[..prev] && lead[..prev] == n.entries;
    }
    assert lead[..prev + |c.entries|] == lead[..prev] + lead[prev..prev + |c.entries|];
  }

  /** What handle_append_entries_request does to the log. */
  lemma AppendEffect(n: Node, m: Message)
    requires m.content.AppendRequest?
    ensures var r, c := HandleAppendRequest(n, m), m.content;
            && r.node.nextIndex == n.nextIndex && r.node.matchIndex == n.matchIndex && r.node.id == n.id
            && r.node.commitIndex >= n.commitIndex
            && (Stale(n, m, c.term) ==> r.node == n)
            && (!Stale(n, m, c.term) ==> r.node.term == c.term && (r.node.role.Leader? ==> n.role.Leader? && c.term == n.term))
            && (if Accepts(n, m) then
                  && r.node.entries == n.entries + c.entries
                  && r.node.lastLogIndex == (if c.entries == [] then n.lastLogIndex else c.entries[|c.entries| - 1].index)
                  && r.node.lastLogTerm == (if c.entries == [] then n.lastLogTerm else c.entries[|c.entries| - 1].term)
                  && Post(n.id, r.out) == [Envelope(n.id, None, Send(n, AppendResponse(c.term, true, 0, r.node.lastLogIndex)))]
                else
                  && SameLog(n, r.node)
                  && (Post(n.id, r.out) == [] || (c.prevLogIndex >= 1
                      && Post(n.id, r.out) == [Envelope(n.id, None, Send(n, AppendResponse(c.term, false, c.prevLogIndex, n.lastLogIndex)))])))
  {
    hide ApplyUpTo, AppendAll, Post;
    var c := m.content;
    if !Stale(n, m, c.term) {
      CatchUpFrame(n, m);
      var v := CatchUp(n, m);
      PostReplies(n.id, v.out);
      if !c.isHeartbeat {
        AppendAllFrame(v.node, c.entries);
        PostOne(n.id, v.out, Send(n, AppendResponse(c.term, true, 0, AppendAll(v.node, c.entries).lastLogIndex)));
        PostOne(n.id, v.out, Send(n, AppendResponse(c.term, false, c.prevLogIndex, v.node.lastLogIndex)));
      }
    } else {
      PostReplies(n.id, []);
    }
  }

  lemma LogsAccept(w: World, e: Event)
    requires Enabled(w, e) && e.id in w.hist.visited && Ready(w, e) && e.Deliver?
    requires Accepts(w.nodes[e.id], w.sent[e.pos].msg) && TailAppend(w, e)
    ensures LogsInv(Step(w, e))
  {
    hide Ready, Step, LogOk, LogsInv, LeadersKnown, LeaderFrame, HandleAppendRequest, TermAt;
    AtNode(w, e);
    Unpack(w, e);
    SentLog(w, e.pos);
    var n, c, w' := w.nodes[e.id], w.sent[e.pos].msg.content, Step(w, e);
    AppendEffect(n, w.sent[e.pos].msg);
    AcceptedLog(w, e.pos, n);
    NotItself(w, e);
    LongerLogStep(w, w', e.id);
  }

  /** A node does not accept appends of a term that it leads itself. */
  lemma NotItself(w: World, e: Event)
    requires Enabled(w, e) && e.id in w.hist.visited && Ready(w, e) && e.Deliver?
    requires Accepts(w.nodes[e.id], w.sent[e.pos].msg) && EnvelopeLog(w.hist, w.sent[e.pos])
    ensures w.nodes[e.id].role.Leader? ==> w.nodes[e.id].term != w.sent[e.pos].msg.content.term
  {
    hide Step, VotesInv, TallyInv, LogsInv;
  }

  lemma AcceptedLog(w: World, pos: nat, n: Node)
    requires LogsInv(w) && pos < |w.sent| && NodeLog(w.hist, n) && EnvelopeLog(w.hist, w.sent[pos])
    requires Accepts(n, w.sent[pos].msg) && w.sent[pos].msg.content.prevLogIndex == n.lastLogIndex
    ensures var c, log := w.sent[pos].msg.content, n.entries + w.sent[pos].msg.content.entries;
            && LogOk(log, c.term, w.hist.leaderLog)
            && c.term in w.hist.leaderLog && |log| <= |w.hist.leaderLog[c.term]| && log == w.hist.leaderLog[c.term][..|log|]
            && |log| == (if c.entries == [] then n.lastLogIndex else c.entries[|c.entries| - 1].index)
            && TermAt(log, |log|) == (if c.entries == [] then n.lastLogTerm else c.entries[|c.entries| - 1].term)
  {
    hide Anchored;
    var c := w.sent[pos].msg.content;
    var log := n.entries + c.entries;
    TailMatches(w.hist, n, w.sent[pos].from, c);
    PrefixOk(w.hist.leaderLog[c.term], |log|, c.term, w.hist.leaderLog);
    if c.entries == [] {
      assert log == n.entries;
    } else {
      assert log[|log| - 1] == c.entries[|c.entries| - 1];
    }
  }

  lemma LogsNotAccept(w: World, e: Event)
    requires Enabled(w, e) && e.id in w.hist.visited && Ready(w, e) && e.Deliver?
    requires w.sent[e.pos].msg.content.AppendRequest? && !Accepts(w.nodes[e.id], w.sent[e.pos].msg)
    ensures LogsInv(Step(w, e))
  {
    hide Ready, Step, LogOk, LogsInv, LeadersKnown, LeaderFrame, HandleAppendRequest, TermAt;
    AtNode(w, e);
    Unpack(w, e);
    AppendEffect(w.nodes[e.id], w.sent[e.pos].msg);
    SameLogStep(w, Step(w, e), e.id);
  }

  lemma LogsStep(w: World, e: Event)
    requires VotesInv(w) && TallyInv(w) && LogsInv(w) && Enabled(w, e) && e.id in w.hist.visited
    requires Attributed(w, e) && TailAppend(w, e)
    ensures LogsInv(Step(w, e))
  {
    hide VotesInv, TallyInv, LogsInv, LeadersKnown, Step, Attributed, TailAppend, Accepts;
    VotesStep(w, e);
    TallyStep(w, e);
    Known(w);
    Known(Step(w, e));
    match e
    case Election(_) => LogsElection(w, e);
    case HeartbeatTick(_, _) => LogsHeartbeat(w, e);
    case ReissueTick(_, _) => LogsReissue(w, e);
    case Call(_, _, _) => LogsCall(w, e);
    case Deliver(pos, id) =>
      var m := w.sent[pos].msg;
      if m.content.AppendRequest? {
        if Accepts(w.nodes[id], m) { LogsAccept(w, e); } else { LogsNotAccept(w, e); }
      } else if m.content.VoteResponse? {
        LogsVoteResponse(w, e);
      } else {
        LogsDeliverOther(w, e);
      }
  }

  lemma LogsInit(w: World, cluster: nat)
    requires Init(w, cluster)
    ensures TallyInv(w) && LogsInv(w)
  {
    assert forall c, t :: Voters(w, c, t) == {};
  }

  lemma {:induction false} LogsRun(ws: seq<World>, es: seq<Event>, i: nat)
    requires IsRun(ws, es) && AlwaysAttributed(ws, es) && AlwaysTail(ws, es) && i < |ws|
    ensures VotesInv(ws[i]) && TallyInv(ws[i]) && LogsInv(ws[i])
  {
    hide VotesInv, TallyInv, LogsInv, Step, Attributed, TailAppend;
    TallyRun(ws, es, i);
    if i == 0 {
      var cluster :| Init(ws[0], cluster);
      LogsInit(ws[0], cluster);
    } else {
      LogsRun(ws, es, i - 1);
      assert IsStep(ws[i - 1], es[i - 1], ws[i]);
      LogsStep(ws[i - 1], es[i - 1]);
    }
  }

  // ---------------------------------------------------------------- logs are append-only, in every run

  lemma AppendOnlyHandler(n: Node, m: Message)
    ensures n.entries <= Dispatch(n, m).node.entries
  {
    hide HandleAppendRequest;
    if m.content.AppendRequest? { AppendEffect(n, m); }
  }

  lemma AppendOnlyStep(w: World, e: Event)
    requires Enabled(w, e)
    ensures w.nodes[e.id].entries <= React(w, e).node.entries
  {
    hide Dispatch, ApplyUpTo, ReissueAll;
    var n := w.nodes[e.id];
    match e
    case Election(_) =>
    case HeartbeatTick(_, v) => ApplyUpToFrame(n.(commitIndex := v), v);
    case ReissueTick(_, _) =>
    case Call(_, _, _) =>
    case Deliver(pos, _) => AppendOnlyHandler(n, w.sent[pos].msg);
  }

  lemma {:induction false} AppendOnlyRun(ws: seq<World>, es: seq<Event>, i: nat, j: nat, id: Id)
    requires IsRun(ws, es) && i <= j < |ws| && id in ws[i].nodes
    ensures id in ws[j].nodes && ws[i].nodes[id].entries <= ws[j].nodes[id].entries
    decreases j
  {
    hide React, Remember, Post, Enabled;
    if i < j {
      AppendOnlyRun(ws, es, i, j - 1, id);
      assert IsStep(ws[j - 1], es[j - 1], ws[j]);
      AppendOnlyStep(ws[j - 1], es[j - 1]);
    }
  }

  // ---------------------------------------------------------------- theorems

  /** Log Matching: if the logs of two nodes, at whatever two moments, hold the same term at the same
      index, they are identical up to that index. */
  lemma LogMatching(ws: seq<World>, es: seq<Event>, i: nat, j: nat, a: Id, b: Id, k: nat)
    requires IsRun(ws, es) && AlwaysAttributed(ws, es) && AlwaysTail(ws, es) && i < |ws| && j < |ws|
    requires a in ws[i].nodes && b in ws[j].nodes
    requires k < |ws[i].nodes[a].entries| && k < |ws[j].nodes[b].entries|
    requires ws[i].nodes[a].entries[k].term == ws[j].nodes[b].entries[k].term
    ensures ws[i].nodes[a].entries[..k + 1] == ws[j].nodes[b].entries[..k + 1]
  {
    hide IsRun, AlwaysAttributed, AlwaysTail, VotesInv, TallyInv;
    var last := if i < j then j else i;
    AppendOnlyRun(ws, es, i, last, a);
    AppendOnlyRun(ws, es, j, last, b);
    LogsRun(ws, es, last);
    MatchingNow(ws[last], a, b, k);
    assert ws[i].nodes[a].entries[..k + 1] == ws[last].nodes[a].entries[..k + 1];
    assert ws[j].nodes[b].entries[..k + 1] == ws[last].nodes[b].entries[..k + 1];
  }

  lemma MatchingNow(w: World, a: Id, b: Id, k: nat)
    requires LogsInv(w) && a in w.nodes && b in w.nodes
    requires k < |w.nodes[a].entries| && k < |w.nodes[b].entries|
    requires w.nodes[a].entries[k].term == w.nodes[b].entries[k].term
    ensures w.nodes[a].entries[..k + 1] == w.nodes[b].entries[..k + 1]
  {
    assert NodeLog(w.hist, w.nodes[a]) && NodeLog(w.hist, w.nodes[b]);
    assert Anchored(w.nodes[a].entries, k, w.hist.leaderLog) && Anchored(w.nodes[b].entries, k, w.hist.leaderLog);
  }

  /** Position k of a log holds index k + 1, and terms never decrease along a log. */
  lemma LogsAreWellFormed(ws: seq<World>, es: seq<Event>, i: nat, a: Id)
    requires IsRun(ws, es) && AlwaysAttributed(ws, es) && AlwaysTail(ws, es) && i < |ws| && a in ws[i].nodes
    ensures var n := ws[i].nodes[a];
            && Contiguous(n.entries) && TermsOrdered(n.entries) && TermsUpTo(n.entries, n.term)
            && n.lastLogIndex == |n.entries| && n.lastLogTerm == TermAt(n.entries, |n.entries|)
  {
    hide IsRun, AlwaysAttributed, AlwaysTail, VotesInv, TallyInv;
    LogsRun(ws, es, i);
    assert NodeLog(ws[i].hist, ws[i].nodes[a]);
  }

  /** H2 is what keeps a log contiguous: a well-numbered append that the handler accepts leaves the log
      contiguous exactly when it starts where the log ends, or carries nothing. */
  lemma AcceptKeepsContiguousIff(n: Node, m: Message)
    requires Contiguous(n.entries) && n.lastLogIndex == |n.entries| && Accepts(n, m)
    requires forall k :: 0 <= k < |m.content.entries| ==> m.content.entries[k].index == m.content.prevLogIndex + k + 1
    ensures Contiguous(HandleAppendRequest(n, m).node.entries) <==>
            m.content.entries == [] || m.content.prevLogIndex == n.lastLogIndex
  {
    hide HandleAppendRequest;
    var batch := m.content.entries;
    AppendEffect(n, m);
    if batch != [] {
      assert (n.entries + batch)[|n.entries|] == batch[0];
    }
    forall k | 0 <= k < |batch| ensures (n.entries + batch)[|n.entries| + k] == batch[k] { }
  }
}
