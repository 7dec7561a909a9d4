/** One Raft node as the objects that its handlers update in place. Every handler is proved to compute
    the function of RaftHandlers.dfy that stands for it in the runs of RaftSystem.dfy. */
module RaftNode {
  import opened Wrappers
  import opened RaftTypes
  import opened RaftHandlers
  import opened RaftSystem

  class RaftStatus {
    var currentTerm: nat
    var votedFor: Option<Id>
    var role: Role
    var leaderId: Option<Id>
    var commitIndex: nat
    var lastApplied: nat
    var votes: nat
    var nextIndex: map<Id, nat>
    var matchIndex: map<Id, nat>

    constructor ()
      ensures currentTerm == commitIndex == lastApplied == votes == 0
      ensures votedFor == None && leaderId == None && role == Follower
      ensures nextIndex == map[] && matchIndex == map[]
    {
      currentTerm, commitIndex, lastApplied, votes := 0, 0, 0, 0;
      votedFor, leaderId, role := None, None, Follower;
      nextIndex, matchIndex := map[], map[];
    }

    method HandleHigherTerm(term: nat)
      modifies this`currentTerm, this`role, this`votes, this`votedFor
      ensures currentTerm == term && role == Follower && votes == 0 && votedFor == None
    {
      currentTerm := term;
      role := Follower;
      votes := 0;
      votedFor := None;
    }

    method UpdateNextIndex(id: Id, index: nat)
      modifies this`nextIndex
      ensures nextIndex == old(nextIndex)[id := index]
    {
      nextIndex := nextIndex[id := index];
    }

    method UpdateMatchIndex(id: Id, index: nat)
      modifies this`matchIndex
      ensures matchIndex == old(matchIndex)[id := index]
    {
      matchIndex := matchIndex[id := index];
    }
  }

  class RaftLog {
    var entries: seq<Entry>
    const startIndex: nat
    var lastLogIndex: nat
    var lastLogTerm: nat

    constructor ()
      ensures entries == [] && startIndex == 0 && lastLogIndex == 0 && lastLogTerm == 0
    {
      entries, startIndex, lastLogIndex, lastLogTerm := [], 0, 0, 0;
    }

    /** at() throws past the end of the vector, which a start index above 0 would allow. */
    method EntryAt(index: nat) returns (e: Option<Entry>)
      requires startIndex == 0
      ensures e == RaftTypes.EntryAt(entries, index)
    {
      if index > |entries| + startIndex || index == 0 {
        return None;
      }
      return Some(entries[index - 1]);
    }

    method AppendEntry(e: Entry)
      modifies this
      ensures entries == old(entries) + [e] && lastLogIndex == e.index && lastLogTerm == e.term
    {
      entries := entries + [e];
      lastLogIndex := e.index;
      lastLogTerm := e.term;
    }
  }

  class StateMachine {
    var store: map<string, string>

    constructor ()
      ensures store == map[]
    {
      store := map[];
    }

    method Apply(e: Entry) returns (value: Option<string>)
      modifies this
      ensures store == ApplyOp(old(store), e.request.op)
      ensures value == OpResult(old(store), e.request.op)
      ensures match e.request.op
              case Put(k, v) => store == old(store)[k := v] && value == None
              case Delete(k) => k !in store && store == old(store) - {k} && value == None
              case Get(k) => store == old(store) && (value.Some? <==> k in store) && (k in store ==> value == Some(store[k]))
              case Unknown => store == old(store) && value == None
    {
      value := None;
      match e.request.op {
        case Put(k, v) => store := store[k := v];
        case Get(k) => if k in store { value := Some(store[k]); }
        case Delete(k) => store := store - {k};
        case Unknown =>
      }
    }
  }

  // ---------------------------------------------------------------- sorting the match indices

  predicate Ascending(s: seq<nat>) {
    forall i, j :: 0 <= i < j < |s| ==> s[i] <= s[j]
  }

  /** How many elements are at most v. */
  function CountUpTo(s: seq<nat>, v: int): nat {
    if s == [] then 0 else (if s[0] <= v then 1 else 0) + CountUpTo(s[1..], v)
  }

  function Insert(s: seq<nat>, x: nat): (r: seq<nat>)
    ensures |r| == |s| + 1
  {
    if s == [] || x <= s[0] then [x] + s else [s[0]] + Insert(s[1..], x)
  }

  lemma {:induction false} InsertKeepsOrder(s: seq<nat>, x: nat)
    requires Ascending(s)
    ensures Ascending(Insert(s, x)) && Insert(s, x)[0] == if s == [] || x <= s[0] then x else s[0]
  {
    if s != [] && x > s[0] {
      InsertKeepsOrder(s[1..], x);
    }
  }

  lemma {:induction false} InsertCounts(s: seq<nat>, x: nat, v: int)
    ensures CountUpTo(Insert(s, x), v) == CountUpTo(s, v) + if x <= v then 1 else 0
  {
    if s == [] || x <= s[0] {
      assert ([x] + s)[1..] == s;
    } else {
      InsertCounts(s[1..], x, v);
      assert ([s[0]] + Insert(s[1..], x))[1..] == Insert(s[1..], x);
    }
  }

  /** std::sort. */
  method Sort(values: seq<nat>) returns (r: seq<nat>)
    ensures |r| == |values| && Ascending(r)
    ensures forall v: int :: CountUpTo(r, v) == CountUpTo(values, v)
  {
    r := [];
    assert values[..0] == [];
    for i := 0 to |values|
      invariant |r| == i && Ascending(r)
      invariant forall v: int :: CountUpTo(r, v) == CountUpTo(values[..i], v)
    {
      forall v: int
        ensures CountUpTo(Insert(r, values[i]), v) == CountUpTo(values[..i + 1], v)
      {
        InsertCounts(r, values[i], v);
        CountSnoc(values[..i], values[i], v);
        assert values[..i] + [values[i]] == values[..i + 1];
      }
      InsertKeepsOrder(r, values[i]);
      r := Insert(r, values[i]);
    }
    assert values[..|values|] == values;
  }

  lemma {:induction false} CountSnoc(s: seq<nat>, x: nat, v: int)
    ensures CountUpTo(s + [x], v) == CountUpTo(s, v) + if x <= v then 1 else 0
  {
    if s != [] {
      CountSnoc(s[1..], x, v);
      assert (s + [x])[1..] == s[1..] + [x];
    }
  }

  lemma {:induction false} CountNone(s: seq<nat>, v: int)
    requires forall i :: 0 <= i < |s| ==> s[i] > v
    ensures CountUpTo(s, v) == 0
  {
    if s != [] {
      CountNone(s[1..], v);
    }
  }

  /** The element at position k of a sorted list is its k-th smallest. */
  lemma {:induction false} KthOfSorted(s: seq<nat>, k: nat)
    requires k < |s| && Ascending(s)
    ensures CountUpTo(s, s[k] as int - 1) <= k < CountUpTo(s, s[k])
  {
    if k == 0 {
      CountNone(s, s[0] as int - 1);
    } else {
      KthOfSorted(s[1..], k - 1);
    }
  }

  /** Copying the values of a map into a list, in whatever order the map is walked. */
  method Values(m: map<Id, nat>) returns (values: seq<nat>)
    ensures |values| == |m|
    ensures forall v: int :: CountUpTo(values, v) == |AtMost(m, v)|
  {
    values := [];
    var todo := m;
    while todo != map[]
      invariant todo.Keys <= m.Keys && forall p <- todo :: todo[p] == m[p]
      invariant |values| == |m| - |todo|
      invariant forall v: int :: CountUpTo(values, v) == |AtMost(m, v)| - |AtMost(todo, v)|
      decreases |todo|
    {
      var p :| p in todo;
      var rest := todo - {p};
      assert todo == rest[p := todo[p]];
      forall v: int
        ensures CountUpTo(values + [todo[p]], v) == |AtMost(m, v)| - |AtMost(rest, v)|
      {
        CountSnoc(values, todo[p], v);
        assert AtMost(rest, v) == AtMost(todo, v) - {p};
      }
      values := values + [todo[p]];
      todo := rest;
    }
  }

  // ---------------------------------------------------------------- the node

  ghost function AllAt(peers: set<Id>, index: nat): map<Id, nat> {
    map p | p in peers :: index
  }

  lemma AllAtNone(m: map<Id, nat>, index: nat)
    ensures m + AllAt({}, index) == m
  {
  }

  lemma AllAtOneMore(m: map<Id, nat>, peers: set<Id>, p: Id, index: nat)
    ensures (m + AllAt(peers, index))[p := index] == m + AllAt(peers + {p}, index)
  {
  }

  lemma LeaderTables(n: Node)
    ensures BecomeLeader(n) == n.(role := Leader, matchIndex := n.matchIndex + AllAt(n.peers, n.commitIndex),
                                  nextIndex := n.nextIndex + AllAt(n.peers, n.commitIndex + 1))
  {
  }

  lemma ApplyTurn(n: Node, target: nat)
    requires n.lastApplied < target
    ensures ApplyNext(n).node.lastApplied == n.lastApplied + 1
    ensures ApplyUpTo(n, target).node == ApplyUpTo(ApplyNext(n).node, target).node
    ensures ApplyUpTo(n, target).out == ApplyNext(n).out + ApplyUpTo(ApplyNext(n).node, target).out
  {
  }

  lemma ApplyEnd(n: Node, target: nat)
    requires n.lastApplied >= target
    ensures ApplyUpTo(n, target) == Reaction(n, [])
  {
  }

  class RaftNode {
    const clusterId: nat
    const nodeId: Id
    const peers: set<Id>
    const st: RaftStatus
    const log: RaftLog
    const machine: StateMachine
    var requests: map<nat, Request>
    /** Everything handed to the transport so far. */
    var outbox: seq<Outgoing>

    ghost predicate Valid() reads this, log {
      log.startIndex == 0
    }

    ghost function State(): Node
      reads this, st, log, machine
    {
      Node(clusterId, nodeId, peers, st.currentTerm, st.votedFor, st.role, st.leaderId, st.commitIndex, st.lastApplied,
           st.votes, st.nextIndex, st.matchIndex, log.entries, log.lastLogIndex, log.lastLogTerm, requests, machine.store)
    }

    constructor (cluster: nat, id: Id, peers: set<Id>)
      ensures Valid() && State() == Fresh(cluster, id, peers) && outbox == []
      ensures fresh(st) && fresh(log) && fresh(machine)
    {
      clusterId, nodeId, this.peers := cluster, id, peers;
      st := new RaftStatus();
      log := new RaftLog();
      machine := new StateMachine();
      requests, outbox := map[], [];
    }

    method Enqueue(o: Outgoing)
      modifies this`outbox
      ensures outbox == old(outbox) + [o]
    {
      outbox := outbox + [o];
    }

    // -------------------------------------------------------------- applying

    method ApplyToStateMachine(commitIndex: nat)
      requires Valid()
      modifies this, st, log, machine
      ensures var r := RaftHandlers.ApplyToStateMachine(old(State()), commitIndex);
              Valid() && State() == r.node && outbox == old(outbox) + r.out
    {
      hide RaftHandlers.ApplyUpTo, ApplyNext;
      st.commitIndex := commitIndex;
      ghost var start := State();
      ghost var done: seq<Outgoing> := [];
      while st.lastApplied < commitIndex
        invariant Valid() && outbox == old(outbox) + done
        invariant ApplyUpTo(start, commitIndex).node == ApplyUpTo(State(), commitIndex).node
        invariant ApplyUpTo(start, commitIndex).out == done + ApplyUpTo(State(), commitIndex).out
      {
        ghost var before := State();
        ghost var first := ApplyNext(before);
        ApplyTurn(before, commitIndex);
        ApplyOne();
        done := done + first.out;
      }
      ApplyEnd(State(), commitIndex);
    }

    /** The body of the loop in apply_to_state_machine. */
    method ApplyOne()
      requires Valid()
      modifies this, st, log, machine
      ensures var r := ApplyNext(old(State()));
              Valid() && State() == r.node && outbox == old(outbox) + r.out
    {
      st.lastApplied := st.lastApplied + 1;
      var entry := log.EntryAt(st.lastApplied);
      if entry.Some? {
        if st.lastApplied !in requests {
          requests := requests[st.lastApplied := Request(0, 0)];
        }
        var request := requests[st.lastApplied];
        var value := machine.Apply(entry.value);
        Enqueue(ToClient(request.clientId,
                         Message(clusterId, nodeId, ClientReply(request.requestId, 0, true,
                                                                if value.Some? then value.value else "Null", ""))));
      }
    }

    // -------------------------------------------------------------- elections

    method StartElection()
      requires Valid()
      modifies this, st
      ensures var r := RaftHandlers.StartElection(old(State()));
              Valid() && State() == r.node && outbox == old(outbox) + r.out
    {
      if st.role != Follower && st.role != Candidate {
        return;
      }
      st.currentTerm := st.currentTerm + 1;
      st.role := Candidate;
      st.votedFor := Some(nodeId);
      st.votes := 1;
      Enqueue(Broadcast(Message(clusterId, nodeId, VoteRequest(st.currentTerm, log.lastLogIndex, log.lastLogTerm))));
    }

    method HandleRequestVoteRequest(m: Message)
      requires Valid() && m.content.VoteRequest?
      modifies this, st
      ensures var r := HandleVoteRequest(old(State()), m);
              Valid() && State() == r.node && outbox == old(outbox) + r.out
    {
      var term := m.content.term;
      if m.cluster != clusterId || term < st.currentTerm {
        return;
      }
      if term > st.currentTerm {
        st.HandleHigherTerm(term);
      }
      var granted := false;
      var available := st.votedFor.None? || st.votedFor.value == m.sender;
      var upToDate := m.content.lastLogTerm > log.lastLogTerm ||
                      (m.content.lastLogTerm == log.lastLogTerm && m.content.lastLogIndex >= log.lastLogIndex);
      if available && upToDate {
        granted := true;
        st.votedFor := Some(m.sender);
      }
      Enqueue(Broadcast(Message(clusterId, nodeId, VoteResponse(term, granted))));
    }

    method HandleRequestVoteResponse(m: Message)
      requires Valid() && m.content.VoteResponse?
      modifies this, st
      ensures var r := HandleVoteResponse(old(State()), m);
              Valid() && State() == r.node && outbox == old(outbox) + r.out
    {
      hide BecomeLeader, AllAt;
      var term := m.content.term;
      if m.cluster != clusterId || term < st.currentTerm {
        return;
      }
      if term > st.currentTerm {
        st.HandleHigherTerm(term);
        return;
      }
      if m.content.granted {
        st.votes := st.votes + 1;
        if st.votes >= |peers| / 2 + 1 {
          LeaderTables(State());
          st.role := Leader;
          SetUpPeers();
        }
      }
    }

    /** The loop over the peers when a node becomes leader. */
    method SetUpPeers()
      modifies st
      ensures st.matchIndex == old(st.matchIndex) + AllAt(peers, st.commitIndex)
      ensures st.nextIndex == old(st.nextIndex) + AllAt(peers, st.commitIndex + 1)
      ensures unchanged(st`currentTerm, st`votedFor, st`role, st`leaderId, st`commitIndex, st`lastApplied, st`votes)
    {
      hide AllAt;
      AllAtNone(st.matchIndex, st.commitIndex);
      AllAtNone(st.nextIndex, st.commitIndex + 1);
      var todo := peers;
      ghost var done: set<Id> := {};
      while todo != {}
        invariant done + todo == peers
        invariant unchanged(st`currentTerm, st`votedFor, st`role, st`leaderId, st`commitIndex, st`lastApplied, st`votes)
        invariant st.matchIndex == old(st.matchIndex) + AllAt(done, st.commitIndex)
        invariant st.nextIndex == old(st.nextIndex) + AllAt(done, st.commitIndex + 1)
        decreases todo
      {
        var p :| p in todo;
        AllAtOneMore(old(st.matchIndex), done, p, st.commitIndex);
        AllAtOneMore(old(st.nextIndex), done, p, st.commitIndex + 1);
        st.UpdateMatchIndex(p, st.commitIndex);
        st.UpdateNextIndex(p, st.commitIndex + 1);
        done, todo := done + {p}, todo - {p};
      }
    }

    // -------------------------------------------------------------- replication

    method HandleAppendEntriesRequest(m: Message)
      requires Valid() && m.content.AppendRequest?
      modifies this, st, log, machine
      ensures var r := HandleAppendRequest(old(State()), m);
              Valid() && State() == r.node && outbox == old(outbox) + r.out
    {
      var c := m.content;
      if m.cluster != clusterId || c.term < st.currentTerm {
        return;
      }
      if c.term > st.currentTerm {
        st.HandleHigherTerm(c.term);
      }
      if c.leaderCommit > st.commitIndex {
        ApplyToStateMachine(c.leaderCommit);
      }
      ghost var caught := CatchUp(old(State()), m);
      assert State() == caught.node && outbox == old(outbox) + caught.out;
      if c.isHeartbeat {
        st.leaderId := Some(m.sender);
        return;
      }
      CheckAndAppend(m);
    }

    /** handle_append_entries_request from the check of the previous entry on. */
    method CheckAndAppend(m: Message)
      requires Valid() && m.content.AppendRequest?
      modifies this, log
      ensures Valid()
      ensures var c, n := m.content, old(State());
              if PrevMatches(n, c.prevLogIndex, c.prevLogTerm) then
                && State() == AppendAll(n, c.entries)
                && outbox == old(outbox) + [Broadcast(Send(n, AppendResponse(c.term, true, 0, log.lastLogIndex)))]
              else
                && State() == n
                && outbox == old(outbox) + [Broadcast(Send(n, AppendResponse(c.term, false, c.prevLogIndex, log.lastLogIndex)))]
    {
      var c := m.content;
      if c.prevLogIndex != 0 {
        var prev := log.EntryAt(c.prevLogIndex);
        if prev.None? || c.prevLogTerm != prev.value.term {
          Enqueue(Broadcast(Message(clusterId, nodeId, AppendResponse(c.term, false, c.prevLogIndex, log.lastLogIndex))));
          return;
        }
      }
      ghost var start := State();
      for i := 0 to |c.entries|
        invariant Valid() && outbox == old(outbox)
        invariant AppendAll(start, c.entries) == AppendAll(State(), c.entries[i..])
      {
        log.AppendEntry(c.entries[i]);
      }
      Enqueue(Broadcast(Message(clusterId, nodeId, AppendResponse(c.term, true, 0, log.lastLogIndex))));
    }

    method HandleAppendEntriesResponse(m: Message)
      requires Valid() && m.content.AppendResponse?
      modifies st
      ensures Valid() && Reaction(State(), []) == HandleAppendResponse(old(State()), m)
    {
      var c := m.content;
      if m.cluster != clusterId || c.term < st.currentTerm {
        return;
      }
      if c.term > st.currentTerm {
        st.HandleHigherTerm(c.term);
        return;
      }
      if !c.success {
        st.UpdateNextIndex(m.sender, c.conflictIndex);
        return;
      }
      st.UpdateNextIndex(m.sender, c.lastIndex + 1);
      st.UpdateMatchIndex(m.sender, c.lastIndex);
    }

    method HandleClientRequest(m: Message)
      requires Valid() && m.content.ClientCall?
      modifies this, st, log
      ensures var r := RaftHandlers.HandleClientRequest(old(State()), m);
              Valid() && State() == r.node && outbox == old(outbox) + r.out
    {
      var request := m.content.request;
      if st.role != Leader {
        var hint := if st.leaderId.Some? then st.leaderId.value else 0;
        Enqueue(ToClient(m.sender, Message(clusterId, nodeId, ClientReply(request.requestId, hint, false, "", "Not leader"))));
        return;
      }
      var last := log.lastLogIndex;
      var entry := Entry(st.currentTerm, last + 1, request);
      log.AppendEntry(entry);
      st.UpdateNextIndex(m.sender, log.lastLogIndex + 1);
      st.UpdateMatchIndex(m.sender, log.lastLogIndex);
      if log.lastLogIndex !in requests {
        requests := requests[log.lastLogIndex := Request(m.sender, request.requestId)];
      }
      var prevTerm := 0;
      if last != 0 {
        var prev := log.EntryAt(last);
        if prev.None? {
          return;
        }
        prevTerm := prev.value.term;
      }
      Enqueue(Broadcast(Message(clusterId, nodeId,
                                AppendRequest(st.currentTerm, last, prevTerm, [entry], st.commitIndex, false))));
    }

    // -------------------------------------------------------------- timers

    /** The message switch of handle_parse_timeout. */
    method Dispatch(m: Message)
      requires Valid()
      modifies this, st, log, machine
      ensures var r := RaftSystem.Dispatch(old(State()), m);
              Valid() && State() == r.node && outbox == old(outbox) + r.out
    {
      match m.content {
        case VoteRequest(_, _, _) => HandleRequestVoteRequest(m);
        case VoteResponse(_, _) => HandleRequestVoteResponse(m);
        case AppendRequest(_, _, _, _, _, _) => HandleAppendEntriesRequest(m);
        case AppendResponse(_, _, _, _) => HandleAppendEntriesResponse(m);
        case ClientCall(_) => HandleClientRequest(m);
        case _ =>
      }
    }

    /** Once per period a leader moves its commit index to the quorum value, applies and sends a heartbeat.
        The source reads past its vector when PickDefined does not hold. */
    method HandleHeartbeatTimeout()
      requires Valid()
      requires st.role.Leader? && st.matchIndex != map[] ==> PickDefined(|peers|, |st.matchIndex|)
      modifies this, st, log, machine
      ensures Valid() && exists r :: HeartbeatOutcome(old(State()), r) && State() == r.node && outbox == old(outbox) + r.out
    {
      hide RaftHandlers.ApplyToStateMachine;
      ghost var start := State();
      ghost var r := Reaction(start, []);
      if st.role == Leader && st.matchIndex != map[] {
        var value := QuorumValue();
        r := Advance(start, value);
        if value > st.commitIndex {
          ApplyToStateMachine(value);
        }
        Enqueue(Broadcast(Message(clusterId, nodeId, AppendRequest(st.currentTerm, 0, 0, [], st.commitIndex, true))));
      }
      assert HeartbeatOutcome(start, r);
    }

    /** The sorted match indices at position peers - (size / 2 + 1). */
    method QuorumValue() returns (value: nat)
      requires st.matchIndex != map[] && PickDefined(|peers|, |st.matchIndex|)
      ensures IsKth(st.matchIndex, |peers| - (|st.matchIndex| / 2 + 1), value)
    {
      var values := Values(st.matchIndex);
      values := Sort(values);
      var index := |peers| - (|values| / 2 + 1);
      value := values[index];
      KthOfSorted(values, index);
    }

    /** The entries that handle_reissue_timeout collects for one peer. */
    method CollectFrom(next: nat) returns (es: seq<Entry>)
      requires Valid()
      ensures es == EntriesFrom(log.entries, next, log.lastLogIndex)
    {
      es := [];
      var i := next;
      while i <= log.lastLogIndex
        invariant EntriesFrom(log.entries, next, log.lastLogIndex) == es + EntriesFrom(log.entries, i, log.lastLogIndex)
        decreases log.lastLogIndex + 1 - i
      {
        var e := log.EntryAt(i);
        if e.Some? {
          es := es + [e.value];
        }
        i := i + 1;
      }
    }

    method ReissueToPeer(peer: Id)
      requires Valid() && peer in st.nextIndex
      modifies this`outbox
      ensures outbox == old(outbox) + ReissueTo(State(), peer)
    {
      var next := st.nextIndex[peer];
      if next <= log.lastLogIndex {
        var es := CollectFrom(next);
        if es != [] {
          var prevIndex := Pred(next);
          var prev := log.EntryAt(prevIndex);
          var prevTerm := if prev.Some? then prev.value.term else 0;
          if peer in peers {
            Enqueue(ToPeer(peer, Message(clusterId, nodeId,
                                         AppendRequest(st.currentTerm, prevIndex, prevTerm, es, st.commitIndex, false))));
          }
        }
      }
    }

    /** A leader sends every peer that lags behind the entries it lacks; the table is walked in some order. */
    method HandleReissueTimeout() returns (ghost order: seq<Id>)
      requires Valid()
      modifies this`outbox
      ensures if old(State()).role != Leader then outbox == old(outbox) && order == []
              else && (forall p :: p in order <==> p in st.nextIndex) && |order| == |st.nextIndex|
                   && outbox == old(outbox) + ReissueAll(State(), order)
    {
      order := [];
      if st.role != Leader {
        return;
      }
      var todo := st.nextIndex.Keys;
      while todo != {}
        invariant todo <= st.nextIndex.Keys && |order| == |st.nextIndex.Keys| - |todo|
        invariant forall p :: p in order <==> p in st.nextIndex.Keys - todo
        invariant outbox == old(outbox) + ReissueAll(State(), order)
        decreases todo
      {
        var p :| p in todo;
        ReissueToPeer(p);
        ReissueSnoc(State(), order, p);
        order := order + [p];
        todo := todo - {p};
      }
    }
  }

  lemma {:induction false} ReissueSnoc(n: Node, order: seq<Id>, p: Id)
    requires p in n.nextIndex && forall q <- order :: q in n.nextIndex
    ensures ReissueAll(n, order + [p]) == ReissueAll(n, order) + ReissueTo(n, p)
  {
    if order == [] {
      assert [p][1..] == [];
    } else {
      ReissueSnoc(n, order[1..], p);
      assert (order + [p])[1..] == order[1..] + [p];
    }
  }
}
