/** The apply cursor, in every run: what has been applied, in what order, and what the store holds. */
module RaftApply {
  import opened Wrappers
  import opened RaftTypes
  import opened RaftHandlers
  import opened RaftSystem
  import opened RaftFrames
  import opened RaftLogs

  function ApplyFound(store: map<string, string>, found: Option<Entry>): map<string, string> {
    if found.Some? then ApplyOp(store, found.value.request.op) else store
  }

  /** The operations found at consecutive indices, applied one after the other. */
  function Replay(store: map<string, string>, found: seq<Option<Entry>>): map<string, string>
    decreases |found|
  {
    if found == [] then store else Replay(ApplyFound(store, found[0]), found[1..])
  }

  function Present(log: seq<Entry>): seq<Option<Entry>> {
    seq(|log|, i requires 0 <= i < |log| => Some(log[i]))
  }

  lemma {:induction false} ReplayConcat(store: map<string, string>, a: seq<Option<Entry>>, b: seq<Option<Entry>>)
    ensures Replay(store, a + b) == Replay(Replay(store, a), b)
    decreases |a|
  {
    if a == [] {
      assert a + b == b;
    } else {
      ReplayConcat(ApplyFound(store, a[0]), a[1..], b);
      assert (a + b)[1..] == a[1..] + b;
    }
  }

  /** apply_to_state_machine replays what it finds at each index it passes. */
  lemma {:induction false} ApplyReplays(n: Node, target: nat)
    ensures var n' := ApplyUpTo(n, target).node;
            n'.store == Replay(n.store, Looked(n, n'))
    decreases target - n.lastApplied
  {
    hide EntryAt, OpResult, ApplyOp;
    ApplyUpToFrame(n, target);
    var n' := ApplyUpTo(n, target).node;
    if n.lastApplied < target {
      var first := ApplyNext(n).node;
      ApplyReplays(first, target);
      assert Looked(n, n') == [EntryAt(n.entries, n.lastApplied + 1)] + Looked(first, n');
    } else {
      assert Looked(n, n') == [];
    }
  }

  // ---- what the store holds, read off the operations alone

  ghost predicate Writes(found: Option<Entry>, key: string) {
    found.Some? && match found.value.request.op
                   case Put(k, _) => k == key
                   case Delete(k) => k == key
                   case Get(_) => false
                   case Unknown => false
  }

  /** Position j holds the last PUT or DELETE of the key. */
  ghost predicate LastWrite(found: seq<Option<Entry>>, j: nat, key: string) {
    j < |found| && Writes(found[j], key) && forall l :: j < l < |found| ==> !Writes(found[l], key)
  }

  /** The last PUT or DELETE of the key is a PUT of this value. */
  ghost predicate LastPut(found: seq<Option<Entry>>, key: string, v: string) {
    exists j: nat :: LastWrite(found, j, key) && found[j].value.request.op == Put(key, v)
  }

  ghost predicate Maps(store: map<string, string>, key: string, v: string) {
    key in store && store[key] == v
  }

  /** Replaying operations on an empty store leaves a key with a value if and only if the last operation that
      writes the key puts that value. */
  lemma {:induction false} StoreHoldsLastPuts(found: seq<Option<Entry>>, key: string, v: string)
    ensures Maps(Replay(map[], found), key, v) <==> LastPut(found, key, v)
    decreases |found|
  {
    if found != [] {
      var last := |found| - 1;
      StoreHoldsLastPuts(found[..last], key, v);
      ReplayConcat(map[], found[..last], [found[last]]);
      assert found == found[..last] + [found[last]];
      assert Replay(Replay(map[], found[..last]), [found[last]]) == ApplyFound(Replay(map[], found[..last]), found[last]);
      LastPutSnoc(found[..last], found[last], key, v);
    }
  }

  lemma LastPutSnoc(found: seq<Option<Entry>>, next: Option<Entry>, key: string, v: string)
    ensures LastPut(found + [next], key, v) <==>
            if Writes(next, key) then next.value.request.op == Put(key, v) else LastPut(found, key, v)
  {
    var all := found + [next];
    forall j: nat | j < |found| ensures all[j] == found[j] { }
    if Writes(next, key) {
      assert LastWrite(all, |found|, key);
    } else {
      forall j: nat ensures LastWrite(all, j, key) <==> LastWrite(found, j, key) {
        SameLastWrite(found, next, j, key);
      }
    }
  }

  lemma SameLastWrite(found: seq<Option<Entry>>, next: Option<Entry>, j: nat, key: string)
    requires !Writes(next, key)
    ensures LastWrite(found + [next], j, key) <==> LastWrite(found, j, key)
  {
    var all := found + [next];
    forall l | 0 <= l < |found| ensures all[l] == found[l] { }
    if LastWrite(all, j, key) {
      forall l | j < l < |found| ensures !Writes(found[l], key) { assert !Writes(all[l], key); }
    }
  }

  /** What a client is told: for a GET the value that the last PUT of the key gave it, if no DELETE came after;
      "Null" otherwise, and for all other operations. */
  ghost predicate Tells(found: seq<Option<Entry>>, op: Operation, answer: string) {
    if op.Get? && exists v :: LastPut(found, op.key, v) then LastPut(found, op.key, answer) else answer == "Null"
  }

  lemma ResultTells(found: seq<Option<Entry>>, op: Operation)
    ensures var value := OpResult(Replay(map[], found), op);
            Tells(found, op, if value.Some? then value.value else "Null")
  {
    hide Replay, LastPut;
    if op.Get? {
      forall v ensures Maps(Replay(map[], found), op.key, v) <==> LastPut(found, op.key, v) {
        StoreHoldsLastPuts(found, op.key, v);
      }
      var value := OpResult(Replay(map[], found), op);
      if value.Some? { assert Maps(Replay(map[], found), op.key, value.value); }
    }
  }

  ghost predicate Cursor(n: Node, visited: seq<Option<Entry>>) {
    && n.lastApplied == n.commitIndex == |visited|
    && n.store == Replay(map[], visited)
    && forall k :: 0 <= k < |visited| && visited[k].Some? ==> k < |n.entries| && visited[k].value == n.entries[k]
  }

  ghost predicate ApplyInv(w: World) {
    w.hist.visited.Keys == w.nodes.Keys && forall id <- w.nodes :: Cursor(w.nodes[id], w.hist.visited[id])
  }

  /** A handler's effect on the cursor: it stays, or it moves on to a higher commit index. */
  ghost predicate Moves(n: Node, n': Node) {
    && n.entries <= n'.entries
    && n'.lastApplied == n'.commitIndex && n'.commitIndex >= n.commitIndex
    && n'.store == Replay(n.store, Looked(n, n'))
  }

  lemma MovesApply(n: Node, v: nat)
    requires v > n.commitIndex && n.lastApplied == n.commitIndex
    ensures Moves(n, ApplyToStateMachine(n, v).node)
  {
    var m := n.(commitIndex := v);
    ApplyReplays(m, v);
    ApplyUpToFrame(m, v);
    assert Looked(m, ApplyUpTo(m, v).node) == Looked(n, ApplyUpTo(m, v).node);
  }

  lemma MovesAppend(n: Node, m: Message)
    requires m.content.AppendRequest? && n.lastApplied == n.commitIndex
    ensures Moves(n, HandleAppendRequest(n, m).node)
  {
    hide ApplyUpTo, AppendAll, Looked, CatchUp, EntryAt;
    var c := m.content;
    if !Stale(n, m, c.term) {
      CatchUpFrame(n, m);
      AppendAllFrame(CatchUp(n, m).node, c.entries);
      MovesCatchUp(n, m);
      MovesFurther(n, CatchUp(n, m).node, HandleAppendRequest(n, m).node);
    } else {
      LooksNowhere(n);
    }
  }

  lemma LooksNowhere(n: Node)
    ensures Looked(n, n) == [] && Replay(n.store, []) == n.store
  {
  }

  lemma MovesCatchUp(n: Node, m: Message)
    requires m.content.AppendRequest? && n.lastApplied == n.commitIndex
    ensures Moves(n, CatchUp(n, m).node)
  {
    hide ApplyUpTo;
    var v := AtTerm(n, m.content.term);
    if m.content.leaderCommit > v.commitIndex {
      MovesApply(v, m.content.leaderCommit);
      assert Looked(n, CatchUp(n, m).node) == Looked(v, CatchUp(n, m).node);
    } else {
      assert Looked(n, v) == [];
    }
  }

  /** What happens to the log afterwards does not matter. */
  lemma MovesFurther(n: Node, v: Node, v': Node)
    requires Moves(n, v) && v.entries <= v'.entries
    requires v'.lastApplied == v.lastApplied && v'.commitIndex == v.commitIndex && v'.store == v.store
    ensures Moves(n, v')
  {
    hide EntryAt;
    assert Looked(n, v') == Looked(n, v);
  }

  lemma MovesStep(w: World, e: Event)
    requires Enabled(w, e) && w.nodes[e.id].lastApplied == w.nodes[e.id].commitIndex
    ensures Moves(w.nodes[e.id], React(w, e).node)
  {
    hide HandleAppendRequest, ApplyUpTo, ReissueAll, HandleClientRequest, HandleVoteRequest, HandleVoteResponse, HandleAppendResponse;
    var n, n' := w.nodes[e.id], React(w, e).node;
    match e
    case HeartbeatTick(_, v) =>
      if n.role.Leader? && n.matchIndex != map[] && v > n.commitIndex { MovesApply(n, v); } else { assert Looked(n, n') == []; }
    case Deliver(pos, _) =>
      if w.sent[pos].msg.content.AppendRequest? { MovesAppend(n, w.sent[pos].msg); } else { StillOther(n, w.sent[pos].msg); }
    case Call(_, client, request) => StillOther(n, Message(0, client, ClientCall(request)));
    case _ => assert Looked(n, n') == [];
  }

  lemma StillOther(n: Node, m: Message)
    requires !m.content.AppendRequest? && n.lastApplied == n.commitIndex
    ensures Moves(n, Dispatch(n, m).node)
  {
    hide Dispatch;
    AppendOnlyHandler(n, m);
    SameCursor(n, m);
    assert Looked(n, Dispatch(n, m).node) == [];
  }

  ghost predicate SameStore(n: Node, n': Node) {
    n'.lastApplied == n.lastApplied && n'.commitIndex == n.commitIndex && n'.store == n.store
  }

  lemma SameCursor(n: Node, m: Message)
    requires !m.content.AppendRequest?
    ensures SameStore(n, Dispatch(n, m).node)
  {
    hide HandleClientRequest, HandleVoteResponse;
    if m.content.ClientCall? { CallSameCursor(n, m); }
    if m.content.VoteResponse? { VoteSameCursor(n, m); }
  }

  lemma CallSameCursor(n: Node, m: Message)
    requires m.content.ClientCall?
    ensures SameStore(n, HandleClientRequest(n, m).node)
  {
  }

  lemma VoteSameCursor(n: Node, m: Message)
    requires m.content.VoteResponse?
    ensures SameStore(n, HandleVoteResponse(n, m).node)
  {
  }

  lemma CursorMoves(n: Node, n': Node, visited: seq<Option<Entry>>)
    requires Cursor(n, visited) && Moves(n, n')
    ensures Cursor(n', visited + Looked(n, n'))
  {
    ReplayConcat(map[], visited, Looked(n, n'));
    var all := visited + Looked(n, n');
    forall k | 0 <= k < |all| && all[k].Some? ensures k < |n'.entries| && all[k].value == n'.entries[k] {
      if k >= |visited| { assert all[k] == EntryAt(n.entries, k + 1); }
    }
  }

  lemma ApplyStep(w: World, e: Event)
    requires ApplyInv(w) && Enabled(w, e)
    ensures ApplyInv(Step(w, e)) && Moves(w.nodes[e.id], Step(w, e).nodes[e.id])
  {
    hide React, Looked, Moves, Cursor, Post, BallotsOf, CountedBy, Commits;
    CursorNow(w, e.id);
    MovesStep(w, e);
    CursorMoves(w.nodes[e.id], React(w, e).node, w.hist.visited[e.id]);
  }

  lemma CursorNow(w: World, id: Id)
    requires ApplyInv(w) && id in w.nodes
    ensures w.nodes[id].lastApplied == w.nodes[id].commitIndex
  {
    assert Cursor(w.nodes[id], w.hist.visited[id]);
  }

  lemma {:induction false} ApplyRun(ws: seq<World>, es: seq<Event>, i: nat)
    requires IsRun(ws, es) && i < |ws|
    ensures ApplyInv(ws[i])
  {
    hide ApplyInv, Step;
    if i == 0 {
      var cluster :| Init(ws[0], cluster);
      ApplyInit(ws[0], cluster);
    } else {
      ApplyRun(ws, es, i - 1);
      assert IsStep(ws[i - 1], es[i - 1], ws[i]);
      ApplyStep(ws[i - 1], es[i - 1]);
    }
  }

  lemma ApplyInit(w: World, cluster: nat)
    requires Init(w, cluster)
    ensures ApplyInv(w)
  {
  }

  // ---------------------------------------------------------------- theorems

  /** After every handler the cursor is at the commit index; each index up to it was visited once, in order;
      a visit either found nothing or found the entry the log still holds there; and the store is what
      those operations make of an empty one. */
  lemma ApplyCursor(ws: seq<World>, es: seq<Event>, i: nat, id: Id)
    requires IsRun(ws, es) && i < |ws| && id in ws[i].nodes
    ensures id in ws[i].hist.visited
    ensures var n, visited := ws[i].nodes[id], ws[i].hist.visited[id];
            && n.lastApplied == n.commitIndex == |visited|
            && n.store == Replay(map[], visited)
            && forall k :: 0 <= k < |visited| && visited[k].Some? ==> k < |n.entries| && visited[k].value == n.entries[k]
  {
    hide IsRun;
    ApplyRun(ws, es, i);
    assert Cursor(ws[i].nodes[id], ws[i].hist.visited[id]);
  }

  /** Visits are never undone or repeated, and the commit index never decreases. */
  lemma {:induction false} CursorNeverGoesBack(ws: seq<World>, es: seq<Event>, i: nat, j: nat, id: Id)
    requires IsRun(ws, es) && i <= j < |ws| && id in ws[i].nodes
    ensures id in ws[j].nodes && id in ws[i].hist.visited && id in ws[j].hist.visited
    ensures ws[i].hist.visited[id] <= ws[j].hist.visited[id]
    ensures ws[i].nodes[id].commitIndex <= ws[j].nodes[id].commitIndex
    decreases j
  {
    hide React, Enabled, Looked, Cursor, Post, BallotsOf, CountedBy, Commits;
    ApplyRun(ws, es, i);
    if i < j {
      CursorNeverGoesBack(ws, es, i, j - 1, id);
      ApplyRun(ws, es, j - 1);
      assert IsStep(ws[j - 1], es[j - 1], ws[j]);
      ApplyStep(ws[j - 1], es[j - 1]);
    }
  }

  /** If every visit found an entry, the store is the replay of the log up to the commit index. */
  lemma StoreIsWholePrefix(ws: seq<World>, es: seq<Event>, i: nat, id: Id)
    requires IsRun(ws, es) && i < |ws| && id in ws[i].nodes && id in ws[i].hist.visited
    requires forall found <- ws[i].hist.visited[id] :: found.Some?
    ensures var n := ws[i].nodes[id];
            n.commitIndex <= |n.entries| && n.store == Replay(map[], Present(n.entries[..n.commitIndex]))
  {
    hide IsRun, Replay;
    ApplyCursor(ws, es, i, id);
    var n, visited := ws[i].nodes[id], ws[i].hist.visited[id];
    forall k | 0 <= k < |visited| ensures k < |n.entries| && visited[k] == Some(n.entries[k]) {
      assert visited[k] in visited;
    }
    if visited != [] { assert visited[|visited| - 1].Some? && |visited| - 1 < |n.entries|; }
    assert visited == Present(n.entries[..n.commitIndex]);
  }

  /** What is found at the indices that n has yet to pass before index k. */
  ghost function FoundBefore(n: Node, k: nat): seq<Option<Entry>> {
    if k <= n.lastApplied + 1 then []
    else seq(k - n.lastApplied - 1, i requires 0 <= i => EntryAt(n.entries, n.lastApplied + 1 + i))
  }

  /** The reply for the entry at index k: to the client that asked for it, with the value that the store has
      once everything before k is applied. */
  ghost function AnswerFor(n: Node, k: nat, e: Entry): Outgoing {
    var value := OpResult(Replay(n.store, FoundBefore(n, k)), e.request.op);
    ToClient(RequestFor(n, k).clientId,
             Send(n, ClientReply(RequestFor(n, k).requestId, 0, true, if value.Some? then value.value else "Null", "")))
  }

  /** Applying up to an index answers every client whose entry is found on the way, and says nothing else. */
  lemma {:induction false} AppliedEntriesAreAnswered(n: Node, target: nat)
    ensures forall k: nat :: n.lastApplied < k <= target && EntryAt(n.entries, k).Some? ==>
              AnswerFor(n, k, EntryAt(n.entries, k).value) in ApplyUpTo(n, target).out
    ensures forall o <- ApplyUpTo(n, target).out :: exists k: nat {:trigger EntryAt(n.entries, k)} ::
              n.lastApplied < k <= target && EntryAt(n.entries, k).Some? && o == AnswerFor(n, k, EntryAt(n.entries, k).value)
    decreases target - n.lastApplied
  {
    hide EntryAt, OpResult;
    if n.lastApplied < target {
      var i := n.lastApplied + 1;
      var m := ApplyNext(n).node;
      AppliedEntriesAreAnswered(m, target);
      forall k: nat | i < k <= target && EntryAt(n.entries, k).Some?
        ensures AnswerFor(m, k, EntryAt(n.entries, k).value) == AnswerFor(n, k, EntryAt(n.entries, k).value)
      {
        SameAnswer(n, k, EntryAt(n.entries, k).value);
      }
      assert FoundBefore(n, i) == [];
      forall o | o in ApplyUpTo(n, target).out
        ensures exists k: nat {:trigger EntryAt(n.entries, k)} ::
                  n.lastApplied < k <= target && EntryAt(n.entries, k).Some? && o == AnswerFor(n, k, EntryAt(n.entries, k).value)
      {
        if o in ApplyNext(n).out {
          assert o == AnswerFor(n, i, EntryAt(n.entries, i).value);
        } else {
          var k: nat :| m.lastApplied < k <= target && EntryAt(m.entries, k).Some? && o == AnswerFor(m, k, EntryAt(m.entries, k).value);
          assert EntryAt(n.entries, k).Some?;
        }
      }
    }
  }

  lemma SameAnswer(n: Node, k: nat, e: Entry)
    requires k > n.lastApplied + 1
    ensures AnswerFor(ApplyNext(n).node, k, e) == AnswerFor(n, k, e)
  {
    hide EntryAt, OpResult;
    var i, m := n.lastApplied + 1, ApplyNext(n).node;
    assert FoundBefore(n, k) == [EntryAt(n.entries, i)] + FoundBefore(m, k);
    assert Replay(n.store, FoundBefore(n, k)) == Replay(m.store, FoundBefore(m, k));
  }

  /** Moving the commit index finds an entry at every index it passes exactly when the log reaches the
      new commit index; otherwise the indices beyond the log are passed over for good. */
  lemma EverythingFoundIff(n: Node, commit: nat)
    requires n.lastApplied == n.commitIndex < commit
    ensures (forall found <- Looked(n, ApplyToStateMachine(n, commit).node) :: found.Some?) <==> commit <= |n.entries|
  {
    ApplyUpToFrame(n.(commitIndex := commit), commit);
    var looked := Looked(n, ApplyToStateMachine(n, commit).node);
    forall k | 0 <= k < |looked| ensures looked[k] == EntryAt(n.entries, n.lastApplied + 1 + k) { }
    assert looked[|looked| - 1] in looked;
  }
}
