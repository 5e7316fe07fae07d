/** A cluster of nodes exchanging messages, as a transition system.

    Messages may be lost, delayed and reordered, and all but the messages that move a vote may also
    be delivered any number of times. Processes may crash between any two writes of their persistent
    state and restart from it. */
module RaftCluster {
  import opened Collections
  import opened RaftTypes
  import opened RaftHandlers
  import opened RaftHistory
  import opened RaftSteps
  import opened RaftElection
  import opened RaftReplication

  datatype Cluster = Cluster(nodes: map<NodeId, Node>, h: History)

  datatype Event =
    | Timeout(id: NodeId)
    | Heartbeat(id: NodeId)
    | Client(id: NodeId, command: Command, ticket: Ticket)
    | Deliver(e: Envelope)
    | Crash(id: NodeId)
      // the process dies between the two writes of a handler that first adopts a newer term
    | CrashAfterStepDown(e: Envelope)

  function Actor(ev: Event): NodeId {
    match ev
    case Timeout(id) => id
    case Heartbeat(id) => id
    case Client(id, _, _) => id
    case Deliver(e) => e.dst
    case Crash(id) => id
    case CrashAfterStepDown(e) => e.dst
  }

  ghost predicate Deliverable(h: History, e: Envelope) {
    e in h.sent && (OnceOnly(e.msg) ==> e !in h.consumed)
  }

  ghost predicate Enabled(h: History, n: Node, ev: Event) {
    match ev
    case Timeout(_) => !n.role.Leader?
    case Heartbeat(_) => n.role.Leader?
    case Client(_, _, ticket) => ticket !in h.accepted
    case Deliver(e) => Deliverable(h, e)
    case Crash(_) => true
    case CrashAfterStepDown(e) => Deliverable(h, e) && e.msg.term > n.term
  }

  /** The preconditions of the handlers: where they fail, the process panics. */
  ghost predicate NoPanic(n: Node, ev: Event) {
    match ev
    case Timeout(_) => n.commitIndex < |n.log|
    case Heartbeat(_) => n.role.Leader? && IndicesOk(n)
    case Client(_, _, _) => Ready(n)
    case Deliver(e) => CanReceive(n, e.msg)
    case Crash(_) => true
    case CrashAfterStepDown(_) => true
  }

  ghost function Handle(n: Node, ev: Event): Outcome
    requires NoPanic(n, ev)
  {
    match ev
    case Timeout(_) => BecomeCandidate(n)
    case Heartbeat(_) => Outcome(n, Heartbeats(n), [])
    case Client(_, command, ticket) => ClientApply(n, command, ticket)
    case Deliver(e) => Receive(n, e.src, e.msg)
    case Crash(_) => Outcome(Restarted(n, Durable(n)), [], [])
    case CrashAfterStepDown(e) => Outcome(Restarted(n, Durable(BecomeFollower(n, e.msg.term))), [], [])
  }

  /** What the step adds to the history besides messages and answers. */
  ghost function Facts(h: History, n: Node, ev: Event): History {
    match ev
    case Timeout(_) =>
      var c := StartCandidacy(n);
      if HasMajority(1, ClusterSize(c)) then Crown(Stand(h, n), c) else Stand(h, n)
    case Heartbeat(_) => h
    case Client(_, command, ticket) => if n.role.Leader? then Accept(h, n, command, ticket) else h
    case Deliver(e) => Received(Consume(h, e), n, e.msg)
    case Crash(_) => h
    case CrashAfterStepDown(e) => Consume(h, e)
  }

  ghost function Received(h: History, n: Node, msg: Message): History {
    match msg
    case AppendRequest(_, _, _, _, _, _) =>
      var m := AcceptLeader(n, msg);
      if msg.term >= n.term && LogMatches(m, msg) then Acknowledge(h, m, AckedLength(msg)) else h
    case AppendResponse(_, _, _) => h
    case VoteRequest(_, _, _, _) =>
      var m := if msg.term > n.term then BecomeFollower(n, msg.term) else n;
      if msg.term >= n.term && |m.log| > 0 && Grants(m, msg) then Vote(h, m, msg.candidateId) else h
    case VoteResponse(_, _) =>
      if msg.term == n.term && n.role.Candidate? && msg.granted
         && HasMajority(n.role.votesReceived + 1, ClusterSize(n))
      then Crown(h, CountVote(n)) else h
  }

  /** Receiving adds no traffic, commands or answers to the facts. */
  lemma {:induction false} ReceivedKeeps(h: History, n: Node, msg: Message)
    ensures var f := Received(h, n, msg);
            f.sent == h.sent && f.answers == h.answers && f.consumed == h.consumed && f.accepted == h.accepted
  {
  }

  ghost function After(h: History, n: Node, ev: Event): History
    requires NoPanic(n, ev)
  {
    var out := Handle(n, ev);
    Send(Release(Facts(h, n, ev), out.answers), out.sends)
  }

  ghost predicate Next(c: Cluster, ev: Event, d: Cluster) {
    var id := Actor(ev);
    && id in c.nodes
    && Enabled(c.h, c.nodes[id], ev)
    && NoPanic(c.nodes[id], ev)
    && d == Cluster(c.nodes[id := Handle(c.nodes[id], ev).node], After(c.h, c.nodes[id], ev))
  }

  ghost predicate Init(c: Cluster) {
    && c.h == History(c.h.members, {}, {}, map[], map[], map[], map[], map[0 := [GENESIS]], map[], map[], {})
    && c.nodes.Keys == c.h.members
    && forall id :: id in c.nodes ==> c.nodes[id].id == id && IsNew(c.h.members, c.nodes[id])
  }

  /** A node constructed with some listing of the membership. */
  ghost predicate IsNew(members: set<NodeId>, n: Node) {
    exists peerIds: seq<NodeId> :: NoRepeats(peerIds) && Elems(peerIds) == members && n == NewNode(n.id, peerIds)
  }

  /** A run: an initial cluster and the events that followed. */
  ghost predicate IsRun(states: seq<Cluster>, events: seq<Event>) {
    && |states| == |events| + 1
    && Init(states[0])
    && forall i {:trigger StepAt(states, events, i)} :: 0 <= i < |events| ==> StepAt(states, events, i)
  }

  ghost predicate StepAt(states: seq<Cluster>, events: seq<Event>, i: int)
    requires 0 <= i < |events| < |states|
  {
    Next(states[i], events[i], states[i + 1])
  }

  ghost predicate ClusterOk(c: Cluster) {
    && c.nodes.Keys == c.h.members
    && HistoryOk(c.h)
    && forall id {:trigger MemberOk(c, id)} :: id in c.nodes ==> MemberOk(c, id)
  }

  ghost predicate MemberOk(c: Cluster, id: NodeId)
    requires id in c.nodes
  {
    c.nodes[id].id == id && NodeOk(c.h, c.nodes[id])
  }

  // ----- Each kind of step -----

  /** A step in terms of the moving node alone. */
  ghost predicate StepOk(h: History, n: Node, k: History, m: Node) {
    m.id == n.id && HistoryOk(k) && NodeOk(k, m) && Extends(h, k, n.id)
  }

  /** Applying what is committed and sending messages on top of the facts of a step. */
  lemma FinishOk(h: History, n: Node, g: History, a: Node, sends: seq<Envelope>)
    requires HistoryOk(g) && NodeOk(g, a) && Extends(h, g, n.id) && a.id == n.id
    requires forall e :: e in sends ==>
               e.src == n.id && e.msg.term <= a.term && MessageOk(g, e)
    ensures StepOk(h, n, Send(Release(g, ApplyAnswers(a)), sends), ApplyCommitted(a))
  {
    var m := ApplyCommitted(a);
    ApplyOk(g, a);
    ApplyKeeps(a);
    ReleaseOk(g, m, ApplyAnswers(a));
    var r := Release(g, ApplyAnswers(a));
    forall e | e in sends
      ensures MessageOk(r, e)
    {
      MessageGrows(g, r, e);
    }
    SendOk(r, m, sends);
    ExtendsTrans(h, g, r, n.id);
    ExtendsTrans(h, r, Send(r, sends), n.id);
  }

  /** The same for steps that apply nothing. */
  lemma FinishQuietOk(h: History, n: Node, g: History, m: Node, sends: seq<Envelope>)
    requires HistoryOk(g) && NodeOk(g, m) && Extends(h, g, n.id) && m.id == n.id
    requires forall e :: e in sends ==>
               e.src == n.id && e.msg.term <= m.term && MessageOk(g, e)
    ensures StepOk(h, n, Send(Release(g, []), sends), m)
  {
    assert Release(g, []) == g;
    SendOk(g, m, sends);
    ExtendsTrans(h, g, Send(g, sends), n.id);
  }

  lemma ExtendsRefl(h: History, id: NodeId)
    ensures Extends(h, h, id)
  {
  }

  /** Winning an election. */
  lemma LeadOk(h: History, n: Node, g: History, c: Node)
    requires HistoryOk(g) && NodeOk(g, c) && Extends(h, g, n.id) && c.id == n.id
    requires c.role.Candidate? && HasMajority(c.role.votesReceived, ClusterSize(c))
    ensures var out := BecomeLeader(c);
            StepOk(h, n, Send(Release(Crown(g, c), out.answers), out.sends), out.node)
  {
    var k := Crown(g, c);
    var lead := TakeLead(c);
    CrownOk(g, c);
    AdvanceOk(k, lead);
    var a := AdvanceCommit(lead);
    ApplyOk(k, a);
    ApplyKeeps(a);
    var m := ApplyCommitted(a);
    ExtendsTrans(h, g, k, n.id);
    LeaderIndices(k, m);
    forall e | e in Heartbeats(m)
      ensures e.src == n.id && e.msg.term <= a.term && MessageOk(k, e)
    {
      HeartbeatsOk(k, m, e);
    }
    FinishOk(h, n, k, a, Heartbeats(m));
  }

  lemma TimeoutOk(h: History, n: Node)
    requires HistoryOk(h) && NodeOk(h, n) && !n.role.Leader?
    ensures var ev := Timeout(n.id); NoPanic(n, ev) && StepOk(h, n, After(h, n, ev), Handle(n, ev).node)
  {
    var c := StartCandidacy(n);
    StandOk(h, n);
    if HasMajority(1, ClusterSize(c)) {
      LeadOk(h, n, Stand(h, n), c);
    } else {
      forall e | e in VoteRequests(c)
        ensures e.src == n.id && e.msg.term <= c.term && MessageOk(Stand(h, n), e)
      {
        VoteRequestsOk(Stand(h, n), c, e);
      }
      FinishQuietOk(h, n, Stand(h, n), c, VoteRequests(c));
    }
  }

  lemma HeartbeatOk(h: History, n: Node)
    requires HistoryOk(h) && NodeOk(h, n) && n.role.Leader?
    ensures var ev := Heartbeat(n.id); NoPanic(n, ev) && StepOk(h, n, After(h, n, ev), Handle(n, ev).node)
  {
    LeaderIndices(h, n);
    forall e | e in Heartbeats(n)
      ensures e.src == n.id && e.msg.term <= n.term && MessageOk(h, e)
    {
      HeartbeatsOk(h, n, e);
    }
    ExtendsRefl(h, n.id);
    FinishQuietOk(h, n, h, n, Heartbeats(n));
  }

  lemma ClientOutcome(h: History, n: Node, command: Command, ticket: Ticket)
    requires Ready(n) && n.role.Leader?
    ensures var a := AdvanceCommit(ClientAppend(n, command, ticket));
            var m := ApplyCommitted(a);
            && m.role.Leader? && IndicesOk(m)
            && Handle(n, Client(n.id, command, ticket)) == Outcome(m, Heartbeats(m), ApplyAnswers(a))
            && Facts(h, n, Client(n.id, command, ticket)) == Accept(h, n, command, ticket)
  {
    ApplyKeeps(AdvanceCommit(ClientAppend(n, command, ticket)));
  }

  lemma ClientLeaderOk(h: History, n: Node, command: Command, ticket: Ticket)
    requires HistoryOk(h) && NodeOk(h, n) && ticket !in h.accepted && n.role.Leader?
    ensures var a := AdvanceCommit(ClientAppend(n, command, ticket));
            var m := ApplyCommitted(a);
            && m.role.Leader? && IndicesOk(m)
            && StepOk(h, n, Send(Release(Accept(h, n, command, ticket), ApplyAnswers(a)), Heartbeats(m)), m)
  {
    var k := Accept(h, n, command, ticket);
    var p := ClientAppend(n, command, ticket);
    AcceptOk(h, n, command, ticket);
    AdvanceOk(k, p);
    var a := AdvanceCommit(p);
    ApplyOk(k, a);
    ApplyKeeps(a);
    var m := ApplyCommitted(a);
    LeaderIndices(k, m);
    forall e | e in Heartbeats(m)
      ensures e.src == n.id && e.msg.term <= a.term && MessageOk(k, e)
    {
      HeartbeatsOk(k, m, e);
    }
    FinishOk(h, n, k, a, Heartbeats(m));
  }

  lemma ClientOk(h: History, n: Node, command: Command, ticket: Ticket)
    requires HistoryOk(h) && NodeOk(h, n) && ticket !in h.accepted
    ensures var ev := Client(n.id, command, ticket);
            NoPanic(n, ev) && StepOk(h, n, After(h, n, ev), Handle(n, ev).node)
  {
    LeaderIndices(h, n);
    if n.role.Leader? {
      ClientLeaderOk(h, n, command, ticket);
      ClientOutcome(h, n, command, ticket);
    } else {
      ExtendsRefl(h, n.id);
      FinishQuietOk(h, n, h, n, []);
    }
  }

  // ----- Receiving -----

  /** A received message in the terms of the receiving node. */
  ghost predicate Receiving(h: History, n: Node, e: Envelope) {
    HistoryOk(h) && NodeOk(h, n) && Deliverable(h, e) && e.dst == n.id
  }

  lemma ConsumedOk(h: History, n: Node, e: Envelope)
    requires Receiving(h, n, e)
    ensures var g := Consume(h, e);
            HistoryOk(g) && NodeOk(g, n) && Extends(h, g, n.id) && MessageOk(g, e)
  {
    ConsumeOk(h, n, e);
    assert MessageOk(h, e);
    MessageGrows(h, Consume(h, e), e);
  }

  /** A plain refusal or acknowledgement of the receiver's own term. */
  lemma ReplyOk(h: History, n: Node, g: History, m: Node, e: Envelope, msg: Message)
    requires HistoryOk(g) && NodeOk(g, m) && Extends(h, g, n.id) && m.id == n.id
    requires msg.term <= m.term && MessageOk(g, Envelope(n.id, e.src, msg))
    ensures StepOk(h, n, Send(Release(g, []), Reply(m, e.src, msg)), m)
  {
    FinishQuietOk(h, n, g, m, Reply(m, e.src, msg));
  }

  lemma QuietOk(h: History, n: Node, g: History, m: Node)
    requires HistoryOk(g) && NodeOk(g, m) && Extends(h, g, n.id) && m.id == n.id
    ensures StepOk(h, n, Send(Release(g, []), []), m)
  {
    FinishQuietOk(h, n, g, m, []);
  }

  lemma StaleVoteRequestOk(h: History, n: Node, e: Envelope)
    requires Receiving(h, n, e) && e.msg.VoteRequest? && e.msg.term < n.term
    ensures var ev := Deliver(e); NoPanic(n, ev) && StepOk(h, n, After(h, n, ev), Handle(n, ev).node)
  {
    var g := Consume(h, e);
    ConsumedOk(h, n, e);
    assert After(h, n, Deliver(e)) == Send(Release(g, []), Reply(n, e.src, VoteResponse(n.term, false)));
    ReplyOk(h, n, g, n, e, VoteResponse(n.term, false));
  }

  /** The node as it looks at a vote request: in the request's term. */
  function Updated(n: Node, msg: Message): Node {
    if msg.term > n.term then BecomeFollower(n, msg.term) else n
  }

  lemma GrantOutcome(h: History, n: Node, e: Envelope)
    requires e.msg.VoteRequest? && e.msg.term >= n.term && e.msg.candidateId == e.src
    requires n.commitIndex < |n.log| && Grants(Updated(n, e.msg), e.msg)
    ensures var m := Updated(n, e.msg);
            && Handle(n, Deliver(e))
               == Outcome(m.(votedFor := Some(e.src)), Reply(m, e.src, VoteResponse(m.term, true)), [])
            && Facts(h, n, Deliver(e)) == Vote(Consume(h, e), m, e.src)
  {
  }

  lemma GrantedOk(h: History, n: Node, g: History, m: Node, e: Envelope)
    requires HistoryOk(g) && NodeOk(g, m) && Extends(h, g, n.id) && m.id == n.id == e.dst && MessageOk(g, e)
    requires e.msg.VoteRequest? && e.msg.term == m.term && Grants(m, e.msg)
    ensures e.msg.candidateId == e.src
    ensures StepOk(h, n, Send(Release(Vote(g, m, e.src), []), Reply(m, e.src, VoteResponse(m.term, true))),
                   m.(votedFor := Some(e.src)))
  {
    var k := Vote(g, m, e.src);
    VoteStepOk(g, m, e);
    ExtendsTrans(h, g, k, n.id);
    ReplyOk(h, n, k, m.(votedFor := Some(e.src)), e, VoteResponse(m.term, true));
  }

  lemma GrantOk(h: History, n: Node, e: Envelope)
    requires Receiving(h, n, e) && e.msg.VoteRequest? && e.msg.term >= n.term
    requires |n.log| > 0 && Grants(Updated(n, e.msg), e.msg)
    ensures var ev := Deliver(e); NoPanic(n, ev) && StepOk(h, n, After(h, n, ev), Handle(n, ev).node)
  {
    var g := Consume(h, e);
    ConsumedOk(h, n, e);
    BecomeFollowerOk(g, n, e.msg.term);
    GrantedOk(h, n, g, Updated(n, e.msg), e);
    GrantOutcome(h, n, e);
  }

  lemma RefuseOutcome(h: History, n: Node, e: Envelope)
    requires e.msg.VoteRequest? && e.msg.term >= n.term && n.commitIndex < |n.log| && !Grants(Updated(n, e.msg), e.msg)
    ensures var m := Updated(n, e.msg);
            && Handle(n, Deliver(e)) == Outcome(m, Reply(m, e.src, VoteResponse(m.term, false)), [])
            && Facts(h, n, Deliver(e)) == Consume(h, e)
  {
  }

  lemma RefuseOk(h: History, n: Node, e: Envelope)
    requires Receiving(h, n, e) && e.msg.VoteRequest? && e.msg.term >= n.term
    requires |n.log| > 0 && !Grants(Updated(n, e.msg), e.msg)
    ensures var ev := Deliver(e); NoPanic(n, ev) && StepOk(h, n, After(h, n, ev), Handle(n, ev).node)
  {
    var g := Consume(h, e);
    var m := Updated(n, e.msg);
    ConsumedOk(h, n, e);
    BecomeFollowerOk(g, n, e.msg.term);
    RefuseOutcome(h, n, e);
    ReplyOk(h, n, g, m, e, VoteResponse(m.term, false));
  }

  lemma ReceiveVoteRequestOk(h: History, n: Node, e: Envelope)
    requires Receiving(h, n, e) && e.msg.VoteRequest?
    ensures var ev := Deliver(e); NoPanic(n, ev) && StepOk(h, n, After(h, n, ev), Handle(n, ev).node)
  {
    if e.msg.term < n.term {
      StaleVoteRequestOk(h, n, e);
    } else if Grants(Updated(n, e.msg), e.msg) {
      GrantOk(h, n, e);
    } else {
      RefuseOk(h, n, e);
    }
  }

  lemma CountOutcome(h: History, n: Node, e: Envelope)
    requires e.msg == VoteResponse(n.term, true) && n.role.Candidate? && n.commitIndex < |n.log|
    ensures var c := CountVote(n);
            var won := HasMajority(c.role.votesReceived, ClusterSize(c));
            && Handle(n, Deliver(e)) == (if won then BecomeLeader(c) else Outcome(c, [], []))
            && Facts(h, n, Deliver(e)) == (if won then Crown(Consume(h, e), c) else Consume(h, e))
  {
  }

  lemma CountOk(h: History, n: Node, e: Envelope)
    requires Receiving(h, n, e) && e.msg == VoteResponse(n.term, true) && n.role.Candidate?
    ensures var ev := Deliver(e); NoPanic(n, ev) && StepOk(h, n, After(h, n, ev), Handle(n, ev).node)
  {
    var g := Consume(h, e);
    var c := CountVote(n);
    CountVoteOk(h, n, e);
    CountOutcome(h, n, e);
    if HasMajority(c.role.votesReceived, ClusterSize(c)) {
      LeadOk(h, n, g, c);
    } else {
      QuietOk(h, n, g, c);
    }
  }

  lemma StrayVoteOutcome(h: History, n: Node, e: Envelope)
    requires e.msg.VoteResponse? && n.commitIndex < |n.log|
             && !(e.msg == VoteResponse(n.term, true) && n.role.Candidate?)
    ensures Handle(n, Deliver(e)) == Outcome(Updated(n, e.msg), [], []) && Facts(h, n, Deliver(e)) == Consume(h, e)
  {
  }

  lemma ReceiveVoteResponseOk(h: History, n: Node, e: Envelope)
    requires Receiving(h, n, e) && e.msg.VoteResponse?
    ensures var ev := Deliver(e); NoPanic(n, ev) && StepOk(h, n, After(h, n, ev), Handle(n, ev).node)
  {
    if e.msg == VoteResponse(n.term, true) && n.role.Candidate? {
      CountOk(h, n, e);
    } else {
      var g := Consume(h, e);
      ConsumedOk(h, n, e);
      if e.msg.term > n.term {
        BecomeFollowerOk(g, n, e.msg.term);
      }
      StrayVoteOutcome(h, n, e);
      QuietOk(h, n, g, Updated(n, e.msg));
    }
  }

  lemma RecordOutcome(h: History, n: Node, e: Envelope)
    requires e.msg.AppendResponse? && n.commitIndex < |n.log| && e.msg.term == n.term && n.role.Leader?
    ensures var a := AdvanceCommit(RecordResponse(n, e.src, e.msg));
            && a.commitIndex < |a.log|
            && Handle(n, Deliver(e)) == Outcome(ApplyCommitted(a), [], ApplyAnswers(a))
            && Facts(h, n, Deliver(e)) == h
  {
  }

  lemma RecordedOk(h: History, n: Node, e: Envelope)
    requires Receiving(h, n, e) && e.msg.AppendResponse? && e.msg.term == n.term && n.role.Leader?
    ensures var ev := Deliver(e); NoPanic(n, ev) && StepOk(h, n, After(h, n, ev), Handle(n, ev).node)
  {
    var r := RecordResponse(n, e.src, e.msg);
    assert MessageOk(h, e);
    ExtendsRefl(h, n.id);
    RecordOk(h, n, e);
    AdvanceOk(h, r);
    FinishOk(h, n, h, AdvanceCommit(r), []);
    RecordOutcome(h, n, e);
  }

  lemma StrayResponseOutcome(h: History, n: Node, e: Envelope)
    requires e.msg.AppendResponse? && n.commitIndex < |n.log| && !(e.msg.term == n.term && n.role.Leader?)
    ensures Handle(n, Deliver(e)) == Outcome(Updated(n, e.msg), [], []) && Facts(h, n, Deliver(e)) == h
  {
  }

  lemma ReceiveAppendResponseOk(h: History, n: Node, e: Envelope)
    requires Receiving(h, n, e) && e.msg.AppendResponse?
    ensures var ev := Deliver(e); NoPanic(n, ev) && StepOk(h, n, After(h, n, ev), Handle(n, ev).node)
  {
    if e.msg.term == n.term && n.role.Leader? {
      RecordedOk(h, n, e);
    } else {
      ExtendsRefl(h, n.id);
      if e.msg.term > n.term {
        BecomeFollowerOk(h, n, e.msg.term);
      }
      StrayResponseOutcome(h, n, e);
      QuietOk(h, n, h, Updated(n, e.msg));
    }
  }

  lemma AcceptLeaderOk(h: History, n: Node, e: Envelope)
    requires HistoryOk(h) && NodeOk(h, n) && MessageOk(h, e) && e.dst == n.id
    requires e.msg.AppendRequest? && e.msg.term >= n.term
    ensures var m := AcceptLeader(n, e.msg);
            && NodeOk(h, m) && m.term == e.msg.term && m.role.Follower?
            && m == n.(term := m.term, votedFor := m.votedFor, role := m.role)
    ensures n.role.Leader? ==> e.msg.term != n.term
  {
    BecomeFollowerOk(h, n, e.msg.term);
    var f := if e.msg.term > n.term || n.role.Candidate? then BecomeFollower(n, e.msg.term) else n;
    if f.role == Follower(None) {
      RoleChangeOk(h, f, Follower(Some(e.msg.leaderId)));
    }
  }

  lemma RejectOk(h: History, n: Node, e: Envelope)
    requires HistoryOk(h) && NodeOk(h, n) && MessageOk(h, e) && e.dst == n.id
    requires e.msg.AppendRequest? && e.msg.term == n.term && !LogMatches(n, e.msg)
    ensures MessageOk(h, Envelope(n.id, e.src, Rejection(n, e.msg)))
  {
  }

  lemma StaleAppendRequestOk(h: History, n: Node, e: Envelope)
    requires Receiving(h, n, e) && e.msg.AppendRequest? && e.msg.term < n.term
    ensures var ev := Deliver(e); NoPanic(n, ev) && StepOk(h, n, After(h, n, ev), Handle(n, ev).node)
  {
    assert MessageOk(h, e);
    ExtendsRefl(h, n.id);
    assert After(h, n, Deliver(e)) == Send(Release(h, []), Reply(n, e.src, AppendResponse(n.term, 0, false)));
    ReplyOk(h, n, h, n, e, AppendResponse(n.term, 0, false));
  }

  lemma MismatchOutcome(h: History, n: Node, e: Envelope)
    requires e.msg.AppendRequest? && e.msg.term >= n.term && CanReceive(n, e.msg) && !LogMatches(n, e.msg)
    ensures var m := AcceptLeader(n, e.msg);
            && Handle(n, Deliver(e)) == Outcome(m, Reply(m, e.src, Rejection(m, e.msg)), [])
            && Facts(h, n, Deliver(e)) == h
  {
  }

  lemma MismatchOk(h: History, n: Node, e: Envelope)
    requires Receiving(h, n, e) && e.msg.AppendRequest? && e.msg.term >= n.term && !LogMatches(n, e.msg)
    ensures var ev := Deliver(e); NoPanic(n, ev) && StepOk(h, n, After(h, n, ev), Handle(n, ev).node)
  {
    var m := AcceptLeader(n, e.msg);
    assert MessageOk(h, e);
    ExtendsRefl(h, n.id);
    AcceptLeaderOk(h, n, e);
    RejectOk(h, m, e);
    MismatchOutcome(h, n, e);
    ReplyOk(h, n, h, m, e, Rejection(m, e.msg));
  }

  /** What the handler does when the log matches, spelled out. */
  lemma TakeOutcome(h: History, n: Node, e: Envelope)
    requires e.msg.AppendRequest? && e.msg.term >= n.term && CanReceive(n, e.msg) && LogMatches(n, e.msg)
    ensures var m := AcceptLeader(n, e.msg);
            var a := AppendEntries(m, e.msg);
            && a.commitIndex < |a.log|
            && Handle(n, Deliver(e)) ==
               Outcome(ApplyCommitted(a), Reply(m, e.src, AppendResponse(m.term, AckedLength(e.msg) - 1, true)),
                       ApplyAnswers(a))
            && Facts(h, n, Deliver(e)) == Acknowledge(h, m, AckedLength(e.msg))
  {
    TakeReceived(n, e.src, e.msg);
    TakeFacts(h, n, e);
  }

  lemma TakeReceived(n: Node, src: NodeId, msg: Message)
    requires msg.AppendRequest? && msg.term >= n.term && CanReceive(n, msg) && LogMatches(n, msg)
    ensures var m := AcceptLeader(n, msg);
            var a := AppendEntries(m, msg);
            && a.commitIndex < |a.log|
            && Receive(n, src, msg)
               == Outcome(ApplyCommitted(a), Reply(m, src, AppendResponse(m.term, AckedLength(msg) - 1, true)),
                          ApplyAnswers(a))
  {
  }

  lemma TakeFacts(h: History, n: Node, e: Envelope)
    requires e.msg.AppendRequest? && e.msg.term >= n.term && LogMatches(n, e.msg)
    ensures Facts(h, n, Deliver(e)) == Acknowledge(h, AcceptLeader(n, e.msg), AckedLength(e.msg))
  {
  }

  lemma TakenOk(h: History, n: Node, m: Node, e: Envelope)
    requires HistoryOk(h) && NodeOk(h, m) && MessageOk(h, e) && m.id == n.id == e.dst
    requires e.msg.AppendRequest? && e.msg.term == m.term && m.role.Follower? && LogMatches(m, e.msg)
    ensures var a := AppendEntries(m, e.msg);
            && m.commitIndex < |a.log| && a.commitIndex < |a.log|
            && StepOk(h, n, Send(Release(Acknowledge(h, m, AckedLength(e.msg)), ApplyAnswers(a)),
                                 Reply(m, e.src, AppendResponse(m.term, AckedLength(e.msg) - 1, true))),
                       ApplyCommitted(a))
  {
    TakeOk(h, m, e);
    TakeCommit(h, m, e);
    FinishOk(h, n, Acknowledge(h, m, AckedLength(e.msg)), AppendEntries(m, e.msg),
             Reply(m, e.src, AppendResponse(m.term, AckedLength(e.msg) - 1, true)));
  }

  lemma TakeEntriesOk(h: History, n: Node, e: Envelope)
    requires Receiving(h, n, e) && e.msg.AppendRequest? && e.msg.term >= n.term && LogMatches(n, e.msg)
    ensures var ev := Deliver(e); NoPanic(n, ev) && StepOk(h, n, After(h, n, ev), Handle(n, ev).node)
  {
    assert MessageOk(h, e);
    AcceptLeaderOk(h, n, e);
    TakenOk(h, n, AcceptLeader(n, e.msg), e);
    TakeOutcome(h, n, e);
  }

  lemma ReceiveAppendRequestOk(h: History, n: Node, e: Envelope)
    requires Receiving(h, n, e) && e.msg.AppendRequest?
    ensures var ev := Deliver(e); NoPanic(n, ev) && StepOk(h, n, After(h, n, ev), Handle(n, ev).node)
  {
    if e.msg.term < n.term {
      StaleAppendRequestOk(h, n, e);
    } else if LogMatches(n, e.msg) {
      TakeEntriesOk(h, n, e);
    } else {
      MismatchOk(h, n, e);
    }
  }

  lemma DeliverOk(h: History, n: Node, e: Envelope)
    requires Receiving(h, n, e)
    ensures var ev := Deliver(e); NoPanic(n, ev) && StepOk(h, n, After(h, n, ev), Handle(n, ev).node)
  {
    match e.msg
    case AppendRequest(_, _, _, _, _, _) => ReceiveAppendRequestOk(h, n, e);
    case AppendResponse(_, _, _) => ReceiveAppendResponseOk(h, n, e);
    case VoteRequest(_, _, _, _) => ReceiveVoteRequestOk(h, n, e);
    case VoteResponse(_, _) => ReceiveVoteResponseOk(h, n, e);
  }

  lemma CrashOk(h: History, n: Node)
    requires HistoryOk(h) && NodeOk(h, n)
    ensures var ev := Crash(n.id); StepOk(h, n, After(h, n, ev), Handle(n, ev).node)
  {
    ExtendsRefl(h, n.id);
    RestartOk(h, n);
    QuietOk(h, n, h, Restarted(n, Durable(n)));
  }

  lemma StepDownOutcome(h: History, n: Node, e: Envelope)
    requires e.msg.term > n.term
    ensures var ev, f := CrashAfterStepDown(e), BecomeFollower(n, e.msg.term);
            && Handle(n, ev).node == Restarted(f, Durable(f))
            && After(h, n, ev) == Send(Release(Consume(h, e), []), [])
  {
  }

  lemma CrashAfterStepDownOk(h: History, n: Node, e: Envelope)
    requires Receiving(h, n, e) && e.msg.term > n.term
    ensures var ev := CrashAfterStepDown(e); StepOk(h, n, After(h, n, ev), Handle(n, ev).node)
  {
    ConsumedOk(h, n, e);
    SteppedDownOk(h, n, Consume(h, e), e.msg.term);
    StepDownOutcome(h, n, e);
  }

  lemma SteppedDownOk(h: History, n: Node, g: History, term: Term)
    requires HistoryOk(g) && NodeOk(g, n) && Extends(h, g, n.id) && term > n.term
    ensures var f := BecomeFollower(n, term);
            StepOk(h, n, Send(Release(g, []), []), Restarted(f, Durable(f)))
  {
    var f := BecomeFollower(n, term);
    BecomeFollowerOk(g, n, term);
    RestartOk(g, f);
    QuietOk(h, n, g, Restarted(f, Durable(f)));
  }

  /** No handler panics on a well-formed cluster, and every step keeps it well-formed. */
  lemma StepPreserves(c: Cluster, ev: Event)
    requires ClusterOk(c)
    requires Actor(ev) in c.nodes && Enabled(c.h, c.nodes[Actor(ev)], ev)
    ensures var n := c.nodes[Actor(ev)];
            NoPanic(n, ev) && StepOk(c.h, n, After(c.h, n, ev), Handle(n, ev).node)
  {
    var n := c.nodes[Actor(ev)];
    assert MemberOk(c, Actor(ev));
    match ev
    case Timeout(_) => TimeoutOk(c.h, n);
    case Heartbeat(_) => HeartbeatOk(c.h, n);
    case Client(_, command, ticket) => ClientOk(c.h, n, command, ticket);
    case Deliver(e) => DeliverOk(c.h, n, e);
    case Crash(_) => CrashOk(c.h, n);
    case CrashAfterStepDown(e) => CrashAfterStepDownOk(c.h, n, e);
  }

  lemma BystandersOk(c: Cluster, id: NodeId, m: Node, k: History)
    requires ClusterOk(c) && id in c.nodes && StepOk(c.h, c.nodes[id], k, m)
    ensures ClusterOk(Cluster(c.nodes[id := m], k))
  {
    var d := Cluster(c.nodes[id := m], k);
    assert MemberOk(c, id);
    forall p | p in d.nodes
      ensures MemberOk(d, p)
    {
      if p != id {
        assert MemberOk(c, p);
        assert SameFor(c.h, k, p);
        BystanderOk(c.h, k, c.nodes[p]);
      }
    }
  }

  lemma NextPreserves(c: Cluster, ev: Event, d: Cluster)
    requires ClusterOk(c) && Next(c, ev, d)
    ensures ClusterOk(d) && Grows(c.h, d.h)
  {
    var n := c.nodes[Actor(ev)];
    StepPreserves(c, ev);
    BystandersOk(c, Actor(ev), Handle(n, ev).node, After(c.h, n, ev));
  }

  lemma InitHistoryOk(h: History)
    requires h == History(h.members, {}, {}, map[], map[], map[], map[], map[0 := [GENESIS]], map[], map[], {})
    ensures HistoryOk(h)
  {
    assert Holds(h.leaderLog, [GENESIS], 0, 0);
    assert LeaderLogOk(h.leaderLog, 0);
  }

  lemma NewNodePeers(members: set<NodeId>, n: Node)
    requires IsNew(members, n)
    ensures n == Node(n.id, n.peers, 0, None, [GENESIS], Follower(None), 0, 0, [], map[])
    ensures NoRepeats(n.peers) && Elems(n.peers) == members - {n.id}
  {
    var peerIds: seq<NodeId> :| NoRepeats(peerIds) && Elems(peerIds) == members && n == NewNode(n.id, peerIds);
    assert forall x :: x in peerIds <==> x in Elems(peerIds);
  }

  lemma InitNodeOk(h: History, n: Node)
    requires h == History(h.members, {}, {}, map[], map[], map[], map[], map[0 := [GENESIS]], map[], map[], {})
    requires n.id in h.members && NoRepeats(n.peers) && Elems(n.peers) == h.members - {n.id}
    requires n == Node(n.id, n.peers, 0, None, [GENESIS], Follower(None), 0, 0, [], map[])
    ensures NodeOk(h, n)
  {
    assert n.log[..1] == [GENESIS];
    assert [GENESIS][..0] == [];
    assert Holds(h.leaderLog, n.log, 0, 0);
    assert LogOk(h, n);
  }

  lemma InitOk(c: Cluster)
    requires Init(c)
    ensures ClusterOk(c)
  {
    InitHistoryOk(c.h);
    forall id | id in c.nodes
      ensures MemberOk(c, id)
    {
      NewNodePeers(c.h.members, c.nodes[id]);
      InitNodeOk(c.h, c.nodes[id]);
    }
  }

  lemma RunStep(states: seq<Cluster>, events: seq<Event>, i: nat)
    requires IsRun(states, events) && i < |events|
    ensures Next(states[i], events[i], states[i + 1])
  {
    assert StepAt(states, events, i);
  }

  lemma RunStepOk(states: seq<Cluster>, events: seq<Event>, i: nat)
    requires IsRun(states, events) && i < |events| && ClusterOk(states[i])
    ensures ClusterOk(states[i + 1]) && Grows(states[i].h, states[i + 1].h)
  {
    RunStep(states, events, i);
    NextPreserves(states[i], events[i], states[i + 1]);
  }

  lemma RunStartOk(states: seq<Cluster>, events: seq<Event>)
    requires IsRun(states, events)
    ensures ClusterOk(states[0])
  {
    InitOk(states[0]);
  }

  /** Every state of every run is well-formed. */
  lemma {:induction false} RunOk(states: seq<Cluster>, events: seq<Event>, i: nat)
    requires IsRun(states, events) && i < |states|
    ensures ClusterOk(states[i])
  {
    if i == 0 {
      RunStartOk(states, events);
    } else {
      RunOk(states, events, i - 1);
      RunStepOk(states, events, i - 1);
    }
  }

  lemma RunStepGrows(states: seq<Cluster>, events: seq<Event>, i: nat)
    requires IsRun(states, events) && i < |events|
    ensures Grows(states[i].h, states[i + 1].h)
  {
    RunOk(states, events, i);
    RunStepOk(states, events, i);
  }

  lemma {:induction false} RunGrows(states: seq<Cluster>, events: seq<Event>, i: nat, j: nat)
    requires IsRun(states, events) && i <= j < |states|
    ensures Grows(states[i].h, states[j].h)
    decreases j
  {
    if i < j {
      RunGrows(states, events, i, j - 1);
      RunStepGrows(states, events, j - 1);
      GrowsTrans(states[i].h, states[j - 1].h, states[j].h);
    } else {
      ExtendsRefl(states[i].h, 0);
    }
  }
}
