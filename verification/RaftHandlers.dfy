/** The handlers of one Raft node as functions of its state. Each handler returns the new state,
    the messages it sends in order, and the client answers it releases. The class in
    RaftNode.dfy runs the same handlers in place; RaftCluster.dfy runs them in a cluster. */
module RaftHandlers {
  import opened Collections
  import opened RaftTypes

  datatype Outcome = Outcome(node: Node, sends: seq<Envelope>, answers: seq<Answer>)

  /** What the handlers index without checking: a panic follows where this fails. */
  ghost predicate Ready(n: Node) {
    && |n.log| > 0
    && n.lastApplied <= n.commitIndex < |n.log|
    && IndicesOk(n)
  }

  ghost predicate IndicesOk(n: Node) {
    n.role.Leader? ==>
      forall p :: p in n.peers ==> p in n.role.nextIndex && 1 <= n.role.nextIndex[p] <= |n.log|
  }

  function HasMajority(count: nat, total: nat): bool {
    count > total / 2
  }

  function ClusterSize(n: Node): nat {
    |n.peers| + 1
  }

  /** `peer_ids` with the node's own id filtered out. */
  function Without(ids: seq<NodeId>, id: NodeId): (r: seq<NodeId>)
    ensures forall x :: x in r <==> x in ids && x != id
    ensures NoRepeats(ids) ==> NoRepeats(r)
  {
    if ids == [] then []
    else
      var r := Without(ids[1..], id);
      assert forall x :: x in ids <==> x == ids[0] || x in ids[1..];
      assert NoRepeats(ids) ==> ids[0] !in ids[1..] && NoRepeats(ids[1..]);
      assert forall k :: 0 <= k < |r| ==> r[k] in r;
      if ids[0] == id then r else [ids[0]] + r
  }

  function NewNode(id: NodeId, peerIds: seq<NodeId>): Node {
    Node(id, Without(peerIds, id), 0, None, [GENESIS], Follower(None), 0, 0, [], map[])
  }

  // ----- Persistence -----

  function Durable(n: Node): Persistent {
    Persistent(n.term, n.votedFor, n.log)
  }

  /** A restarted process has its persistent state and nothing else. */
  function Restarted(n: Node, disk: Persistent): Node {
    Node(n.id, n.peers, disk.term, disk.votedFor, disk.log, Follower(None), 0, 0, [], map[])
  }

  // ----- Applying committed entries -----

  function ApplyOne(n: Node): Node
    requires n.lastApplied + 1 < |n.log|
  {
    var index := n.lastApplied + 1;
    match n.log[index].command
    case NoOp => n.(lastApplied := index)
    case Apply(c) => n.(lastApplied := index, machine := n.machine + [c], pending := n.pending - {index})
  }

  function AnswersOfOne(n: Node): seq<Answer>
    requires n.lastApplied + 1 < |n.log|
  {
    var index := n.lastApplied + 1;
    match n.log[index].command
    case NoOp => []
    case Apply(c) =>
      if index in n.pending then [Answer(n.pending[index], index, n.log[index], n.machine + [c])] else []
  }

  function ApplyCommitted(n: Node): Node
    requires n.commitIndex < |n.log|
    decreases n.commitIndex - n.lastApplied
  {
    if n.lastApplied < n.commitIndex then ApplyCommitted(ApplyOne(n)) else n
  }

  function ApplyAnswers(n: Node): seq<Answer>
    requires n.commitIndex < |n.log|
    decreases n.commitIndex - n.lastApplied
  {
    if n.lastApplied < n.commitIndex then AnswersOfOne(n) + ApplyAnswers(ApplyOne(n)) else []
  }

  // ----- Commit rule -----

  function Replicas(matchIndex: map<NodeId, nat>, index: nat): set<NodeId> {
    set p | p in matchIndex && matchIndex[p] >= index
  }

  predicate Committable(n: Node, index: nat)
    requires n.role.Leader?
    requires index < |n.log|
  {
    && n.log[index].term == n.term
    && HasMajority(|Replicas(n.role.matchIndex, index)| + 1, ClusterSize(n))
  }

  /** The scan from the end of the log down to the commit index. */
  function ScanDown(n: Node, index: nat): (r: nat)
    requires n.role.Leader?
    requires n.commitIndex <= index < |n.log|
    ensures n.commitIndex <= r <= index
    ensures r > n.commitIndex ==> Committable(n, r)
    ensures forall j :: r < j <= index ==> !Committable(n, j)
  {
    if index == n.commitIndex then index
    else if Committable(n, index) then index
    else ScanDown(n, index - 1)
  }

  function AdvanceCommit(n: Node): Node
    requires n.commitIndex < |n.log|
  {
    if n.role.Leader? then n.(commitIndex := ScanDown(n, |n.log| - 1)) else n
  }

  /** `advance_commit` followed by `apply_committed`. */
  function SettleCommits(n: Node): Outcome
    requires n.commitIndex < |n.log|
  {
    var a := AdvanceCommit(n);
    Outcome(ApplyCommitted(a), [], ApplyAnswers(a))
  }

  lemma {:induction false} ApplyKeeps(n: Node)
    requires n.commitIndex < |n.log|
    ensures var m := ApplyCommitted(n);
            && m == n.(lastApplied := m.lastApplied, machine := m.machine, pending := m.pending)
            && m.lastApplied == (if n.lastApplied < n.commitIndex then n.commitIndex else n.lastApplied)
    decreases n.commitIndex - n.lastApplied
  {
    if n.lastApplied < n.commitIndex {
      ApplyKeeps(ApplyOne(n));
    }
  }

  // ----- Role changes -----

  function BecomeFollower(n: Node, term: Term): Node {
    if term > n.term then n.(term := term, votedFor := None, role := Follower(None))
    else n.(role := Follower(None))
  }

  function StartCandidacy(n: Node): Node {
    n.(term := n.term + 1, votedFor := Some(n.id), role := Candidate(1))
  }

  function VoteRequestTo(n: Node, peer: NodeId): Envelope
    requires |n.log| > 0
  {
    Envelope(n.id, peer, VoteRequest(n.term, n.id, |n.log| - 1, LastTerm(n.log)))
  }

  function VoteRequests(n: Node): seq<Envelope>
    requires |n.log| > 0
  {
    seq(|n.peers|, i requires 0 <= i < |n.peers| => VoteRequestTo(n, n.peers[i]))
  }

  /** Log and role of a fresh leader. */
  function TakeLead(n: Node): Node {
    var log := n.log + [Entry(n.term, NoOp)];
    n.(log := log,
       role := Leader(map p | p in n.peers :: |log|, map p | p in n.peers :: 0))
  }

  function BecomeLeader(n: Node): Outcome
    requires n.commitIndex < |n.log|
  {
    var lead := SettleCommits(TakeLead(n));
    ApplyKeeps(AdvanceCommit(TakeLead(n)));
    Outcome(lead.node, Heartbeats(lead.node), lead.answers)
  }

  function BecomeCandidate(n: Node): Outcome
    requires n.commitIndex < |n.log|
  {
    var c := StartCandidacy(n);
    if HasMajority(1, ClusterSize(c)) then BecomeLeader(c)
    else Outcome(c, VoteRequests(c), [])
  }

  // ----- Heartbeats and client commands -----

  /** The request a leader sends to `peer`: everything from the peer's next index on. */
  function AppendRequestTo(n: Node, peer: NodeId): Envelope
    requires n.role.Leader? && peer in n.role.nextIndex
    requires 1 <= n.role.nextIndex[peer] <= |n.log|
  {
    var next := n.role.nextIndex[peer];
    Envelope(n.id, peer,
             AppendRequest(n.term, n.id, next - 1, n.log[next - 1].term, n.log[next..], n.commitIndex))
  }

  function Heartbeats(n: Node): seq<Envelope>
    requires n.role.Leader? && IndicesOk(n)
  {
    seq(|n.peers|, i requires 0 <= i < |n.peers| => AppendRequestTo(n, n.peers[i]))
  }

  function ClientAppend(n: Node, command: Command, ticket: Ticket): Node {
    n.(log := n.log + [Entry(n.term, Apply(command))],
       pending := n.pending[|n.log| := ticket])
  }

  datatype Refusal = NotLeader(leader: NodeId) | NoLeader

  /** `require_leader`: why a client command is turned down, if it is. */
  function RequireLeader(role: Role): Option<Refusal> {
    match role
    case Leader(_, _) => None
    case Follower(Some(l)) => Some(NotLeader(l))
    case Follower(None) => Some(NoLeader)
    case Candidate(_) => Some(NoLeader)
  }

  function ClientApply(n: Node, command: Command, ticket: Ticket): Outcome
    requires Ready(n)
  {
    if RequireLeader(n.role).Some? then Outcome(n, [], [])
    else
      var done := SettleCommits(ClientAppend(n, command, ticket));
      ApplyKeeps(AdvanceCommit(ClientAppend(n, command, ticket)));
      Outcome(done.node, Heartbeats(done.node), done.answers)
  }

  // ----- Message handlers -----

  function Reply(n: Node, dst: NodeId, msg: Message): seq<Envelope> {
    if dst in n.peers then [Envelope(n.id, dst, msg)] else []
  }

  function RecordResponse(n: Node, src: NodeId, msg: Message): Node
    requires n.role.Leader? && msg.AppendResponse?
  {
    if msg.success then
      n.(role := Leader(n.role.nextIndex[src := msg.matchIndex + 1], n.role.matchIndex[src := msg.matchIndex]))
    else
      var back := if msg.matchIndex <= 2 then 1 else msg.matchIndex - 1;
      n.(role := Leader(n.role.nextIndex[src := back], n.role.matchIndex))
  }

  function OnAppendResponse(n: Node, src: NodeId, msg: Message): Outcome
    requires n.commitIndex < |n.log| && msg.AppendResponse?
  {
    if msg.term < n.term then Outcome(n, [], [])
    else if msg.term > n.term then Outcome(BecomeFollower(n, msg.term), [], [])
    else if !n.role.Leader? then Outcome(n, [], [])
    else SettleCommits(RecordResponse(n, src, msg))
  }

  /** How many of `entries` are already in the log from index `at` on, comparing terms only. */
  function MatchLength(log: Log, at: nat, entries: seq<Entry>): (k: nat)
    requires at <= |log|
    ensures k <= |entries| && at + k <= |log|
    ensures forall i :: 0 <= i < k ==> log[at + i].term == entries[i].term
    ensures k < |entries| && at + k < |log| ==> log[at + k].term != entries[k].term
    decreases |entries|
  {
    if entries == [] || at == |log| || log[at].term != entries[0].term then 0
    else
      var k := MatchLength(log, at + 1, entries[1..]);
      assert forall i :: 0 <= i < k + 1 ==> log[at + i].term == entries[i].term by {
        forall i | 0 <= i < k + 1 ensures log[at + i].term == entries[i].term {
          if i > 0 {
            assert log[at + 1 + (i - 1)].term == entries[1..][i - 1].term;
          }
        }
      }
      k + 1
  }

  /** The log after the append loop: nothing changes if every entry is there already; otherwise the
      log is cut at the first missing or conflicting entry and the rest of the request follows. */
  function Merge(log: Log, at: nat, entries: seq<Entry>): Log
    requires at <= |log|
  {
    var k := MatchLength(log, at, entries);
    if k == |entries| then log else log[..at + k] + entries[k..]
  }

  /** Term and leader bookkeeping of `append_request`, before the log is looked at. */
  function AcceptLeader(n: Node, msg: Message): Node
    requires msg.AppendRequest?
  {
    var m := if msg.term > n.term || n.role.Candidate? then BecomeFollower(n, msg.term) else n;
    if m.role == Follower(None) then m.(role := Follower(Some(msg.leaderId))) else m
  }

  predicate LogMatches(n: Node, msg: Message)
    requires msg.AppendRequest?
  {
    msg.prevLogIndex < |n.log| && n.log[msg.prevLogIndex].term == msg.prevLogTerm
  }

  function AppendEntries(n: Node, msg: Message): Node
    requires msg.AppendRequest? && LogMatches(n, msg)
  {
    var log := Merge(n.log, msg.prevLogIndex + 1, msg.entries);
    n.(log := log,
       commitIndex := if msg.leaderCommit > n.commitIndex
                      then (if msg.leaderCommit < |log| - 1 then msg.leaderCommit else |log| - 1)
                      else n.commitIndex)
  }

  function Rejection(n: Node, msg: Message): Message
    requires msg.AppendRequest? && |n.log| > 0
  {
    AppendResponse(n.term, if msg.prevLogIndex >= |n.log| then |n.log| - 1 else msg.prevLogIndex, false)
  }

  /** A leader that receives a request of its own term panics; `OnAppendRequest` is undefined there.
      The merge must not cut below the commit index, or applying would index out of the log. */
  function OnAppendRequest(n: Node, src: NodeId, msg: Message): Outcome
    requires n.commitIndex < |n.log| && msg.AppendRequest?
    requires n.role.Leader? ==> msg.term != n.term
    requires msg.term >= n.term && LogMatches(n, msg) ==>
               n.commitIndex < |Merge(n.log, msg.prevLogIndex + 1, msg.entries)|
  {
    if msg.term < n.term then Outcome(n, Reply(n, src, AppendResponse(n.term, 0, false)), [])
    else
      var m := AcceptLeader(n, msg);
      if !LogMatches(m, msg) then Outcome(m, Reply(m, src, Rejection(m, msg)), [])
      else
        var a := AppendEntries(m, msg);
        Outcome(ApplyCommitted(a),
                Reply(m, src, AppendResponse(m.term, msg.prevLogIndex + |msg.entries|, true)),
                ApplyAnswers(a))
  }

  predicate UpToDate(lastLogTerm: Term, lastLogIndex: nat, log: Log)
    requires |log| > 0
  {
    || lastLogTerm > LastTerm(log)
    || (lastLogTerm == LastTerm(log) && lastLogIndex >= |log| - 1)
  }

  predicate Grants(n: Node, msg: Message)
    requires msg.VoteRequest? && |n.log| > 0
  {
    && (n.votedFor == None || n.votedFor == Some(msg.candidateId))
    && UpToDate(msg.lastLogTerm, msg.lastLogIndex, n.log)
  }

  function OnVoteRequest(n: Node, src: NodeId, msg: Message): Outcome
    requires |n.log| > 0 && msg.VoteRequest?
  {
    if msg.term < n.term then Outcome(n, Reply(n, src, VoteResponse(n.term, false)), [])
    else
      var m := if msg.term > n.term then BecomeFollower(n, msg.term) else n;
      if Grants(m, msg) then
        Outcome(m.(votedFor := Some(msg.candidateId)), Reply(m, src, VoteResponse(m.term, true)), [])
      else Outcome(m, Reply(m, src, VoteResponse(m.term, false)), [])
  }

  function CountVote(n: Node): Node
    requires n.role.Candidate?
  {
    n.(role := Candidate(n.role.votesReceived + 1))
  }

  function OnVoteResponse(n: Node, msg: Message): Outcome
    requires n.commitIndex < |n.log| && msg.VoteResponse?
  {
    if msg.term < n.term then Outcome(n, [], [])
    else if msg.term > n.term then Outcome(BecomeFollower(n, msg.term), [], [])
    else if n.role.Candidate? && msg.granted then
      var c := CountVote(n);
      if HasMajority(c.role.votesReceived, ClusterSize(c)) then BecomeLeader(c) else Outcome(c, [], [])
    else Outcome(n, [], [])
  }

  /** `handle_message`. */
  ghost predicate CanReceive(n: Node, msg: Message) {
    && n.commitIndex < |n.log|
    && (msg.AppendRequest? ==>
          && (n.role.Leader? ==> msg.term != n.term)
          && (msg.term >= n.term && LogMatches(n, msg) ==>
                n.commitIndex < |Merge(n.log, msg.prevLogIndex + 1, msg.entries)|))
  }

  function Receive(n: Node, src: NodeId, msg: Message): Outcome
    requires CanReceive(n, msg)
  {
    match msg
    case AppendRequest(_, _, _, _, _, _) => OnAppendRequest(n, src, msg)
    case AppendResponse(_, _, _) => OnAppendResponse(n, src, msg)
    case VoteRequest(_, _, _, _) => OnVoteRequest(n, src, msg)
    case VoteResponse(_, _) => OnVoteResponse(n, msg)
  }
}
