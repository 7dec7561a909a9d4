/** Messages, log entries and the state of one Raft node. */
module RaftTypes {
  import opened Wrappers

  type Id = nat

  /** A key-value operation after parsing; Unknown stands for an unrecognised operation type. */
  datatype Operation =
    | Put(key: string, value: string)
    | Delete(key: string)
    | Get(key: string)
    | Unknown

  datatype ClientRequest = ClientRequest(requestId: nat, op: Operation)

  datatype Entry = Entry(term: nat, index: nat, request: ClientRequest)

  datatype Content =
    | VoteRequest(term: nat, lastLogIndex: nat, lastLogTerm: nat)
    | VoteResponse(term: nat, granted: bool)
    | AppendRequest(term: nat, prevLogIndex: nat, prevLogTerm: nat, entries: seq<Entry>,
                    leaderCommit: nat, isHeartbeat: bool)
    | AppendResponse(term: nat, success: bool, conflictIndex: nat, lastIndex: nat)
    | Snapshot
    | ClientCall(request: ClientRequest)
    | ClientReply(requestId: nat, leaderHint: nat, ok: bool, value: string, error: string)

  datatype Message = Message(cluster: nat, sender: Id, content: Content)

  datatype Role = Follower | Candidate | Leader

  /** Which client is waiting for the entry at some index. */
  datatype Request = Request(clientId: Id, requestId: nat)

  /** Where a handler sends a message: to every peer through the serializer, to one peer's pipeline,
      or back to a client. */
  datatype Outgoing = Broadcast(msg: Message) | ToPeer(peer: Id, msg: Message) | ToClient(client: Id, msg: Message)

  datatype Node = Node(
    cluster: nat,
    id: Id,
    peers: set<Id>,
    term: nat,
    votedFor: Option<Id>,
    role: Role,
    leaderId: Option<Id>,
    commitIndex: nat,
    lastApplied: nat,
    votes: nat,
    nextIndex: map<Id, nat>,
    matchIndex: map<Id, nat>,
    entries: seq<Entry>,
    lastLogIndex: nat,
    lastLogTerm: nat,
    requests: map<nat, Request>,
    store: map<string, string>)

  /** A node that has just started: nothing is loaded from disk. */
  function Fresh(cluster: nat, id: Id, peers: set<Id>): Node {
    Node(cluster, id, peers, 0, None, Follower, None, 0, 0, 0, map[], map[], [], 0, 0, map[], map[])
  }

  /** RaftLog::entry_at for a log that starts at index 0. */
  function EntryAt(entries: seq<Entry>, index: nat): Option<Entry> {
    if index > |entries| || index == 0 then None else Some(entries[index - 1])
  }

  // ---------------------------------------------------------------- the state machine

  function ApplyOp(store: map<string, string>, op: Operation): map<string, string> {
    match op
    case Put(k, v) => store[k := v]
    case Delete(k) => store - {k}
    case Get(_) => store
    case Unknown => store
  }

  /** What StateMachine::apply returns: a value only for a GET of a key that is present. */
  function OpResult(store: map<string, string>, op: Operation): Option<string> {
    if op.Get? && op.key in store then Some(store[op.key]) else None
  }
}
