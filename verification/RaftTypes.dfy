/** The vocabulary of the Raft node: log entries, messages, roles and the node state itself. */
module RaftTypes {
  import opened Collections

  type NodeId = nat
  type Term = nat

  /** Names the reply channel of one client `Apply` call. */
  type Ticket = nat

  /** Commands are opaque to the consensus layer. */
  type Command(==, !new)

  datatype LogCommand = NoOp | Apply(command: Command)

  datatype Entry = Entry(term: Term, command: LogCommand)

  type Log = seq<Entry>

  /** The dummy entry every log starts with. */
  const GENESIS: Entry := Entry(0, NoOp)

  datatype Role =
    | Follower(leaderId: Option<NodeId>)
    | Candidate(votesReceived: nat)
    | Leader(nextIndex: map<NodeId, nat>, matchIndex: map<NodeId, nat>)

  datatype Message =
    | AppendRequest(term: Term, leaderId: NodeId, prevLogIndex: nat, prevLogTerm: Term,
                    entries: seq<Entry>, leaderCommit: nat)
    | AppendResponse(term: Term, matchIndex: nat, success: bool)
    | VoteRequest(term: Term, candidateId: NodeId, lastLogIndex: nat, lastLogTerm: Term)
    | VoteResponse(term: Term, granted: bool)

  datatype Envelope = Envelope(src: NodeId, dst: NodeId, msg: Message)

  /** What `persist_state` saves and `restore_state` loads. */
  datatype Persistent = Persistent(term: Term, votedFor: Option<NodeId>, log: Log)

  /** A client's answer. The state machine is the free deterministic one: its state is the
      sequence of commands applied so far, and the output of a command is that sequence with
      the command at its end. Every deterministic machine's outputs are a function of it.
      `entry` is the log entry whose application produced the answer. */
  datatype Answer = Answer(ticket: Ticket, index: nat, entry: Entry, output: seq<Command>)

  datatype Node = Node(
    id: NodeId,
    peers: seq<NodeId>,
    term: Term,
    votedFor: Option<NodeId>,
    log: Log,
    role: Role,
    commitIndex: nat,
    lastApplied: nat,
    machine: seq<Command>,
    pending: map<nat, Ticket>)

  function LastTerm(log: Log): Term
    requires |log| > 0
  {
    log[|log| - 1].term
  }

  /** The commands a machine has seen once the log has been applied from index 1 on. */
  function Commands(log: Log): seq<Command>
  {
    if log == [] then []
    else
      var rest := Commands(log[..|log| - 1]);
      match log[|log| - 1].command
      case NoOp => rest
      case Apply(c) => rest + [c]
  }
}
