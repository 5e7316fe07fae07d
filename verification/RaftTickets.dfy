/** Every client that waits: who is answered, who goes on waiting, and who is lost. */
module RaftTickets {
  import opened Collections
  import opened RaftTypes
  import opened RaftHandlers
  import opened RaftHistory
  import opened RaftElection
  import opened RaftReplication
  import opened RaftCluster
  import opened RaftTheorems

  // ----- One step of a node -----

  /** The tickets that wait while a step applies: the old ones, and that of a command just taken. */
  function Waiting(n: Node, ev: Event): map<nat, Ticket> {
    if ev.Client? && n.role.Leader? then n.pending[|n.log| := ev.ticket] else n.pending
  }

  /** The step from `n` to `m` applied a command at index `i`. */
  ghost predicate Served(n: Node, m: Node, i: nat) {
    n.lastApplied < i <= m.lastApplied && i < |m.log| && m.log[i].command.Apply?
  }

  /** The answer due to whoever waits at `i`. */
  ghost predicate AnswerAt(waiting: map<nat, Ticket>, n: Node, m: Node, i: nat, a: Answer) {
    i in waiting && Served(n, m, i) && a == Answer(waiting[i], i, m.log[i], Commands(m.log[..i + 1]))
  }

  /** Exactly those are answered at whose index a command was applied; all others go on waiting. */
  ghost predicate Replied(waiting: map<nat, Ticket>, n: Node, m: Node, answers: seq<Answer>) {
    && (forall i :: i in m.pending <==> i in waiting && !Served(n, m, i))
    && (forall i :: i in m.pending ==> m.pending[i] == waiting[i])
    && (forall a :: a in answers <==> exists i: nat :: AnswerAt(waiting, n, m, i, a))
    && InOrder(answers)
  }

  ghost predicate InOrder(answers: seq<Answer>) {
    forall i, j :: 0 <= i < j < |answers| ==> answers[i].index < answers[j].index
  }

  lemma {:induction false} QuietReplied(n: Node, m: Node)
    requires m.pending == n.pending && m.lastApplied == n.lastApplied
    ensures Replied(n.pending, n, m, [])
  {
  }

  lemma {:induction false} OneReplied(n: Node)
    requires n.lastApplied + 1 < |n.log| && n.machine == Commands(n.log[..n.lastApplied + 1])
    ensures var m := ApplyOne(n);
            && m.machine == Commands(n.log[..m.lastApplied + 1])
            && Replied(n.pending, n, m, AnswersOfOne(n))
  {
    var m, i := ApplyOne(n), n.lastApplied + 1;
    CommandsStep(n.log, n.lastApplied);
    if n.log[i].command.Apply? && i in n.pending {
      var a := Answer(n.pending[i], i, n.log[i], Commands(n.log[..i + 1]));
      assert AnswersOfOne(n) == [a];
      assert AnswerAt(n.pending, n, m, i, a);
    }
  }

  /** Two steps of applying, one after the other. */
  lemma {:induction false} RepliedThen(w: map<nat, Ticket>, n: Node, p: Node, m: Node, x: seq<Answer>, y: seq<Answer>)
    requires Replied(w, n, p, x) && Replied(p.pending, p, m, y)
    requires n.lastApplied <= p.lastApplied <= m.lastApplied && p.log == m.log
    ensures Replied(w, n, m, x + y)
  {
    forall i
      ensures Served(n, m, i) <==> Served(n, p, i) || Served(p, m, i)
    {
    }
    forall a
      ensures a in x + y <==> exists i: nat :: AnswerAt(w, n, m, i, a)
    {
      AnswerOfTwo(w, n, p, m, a, x, y);
    }
    RepliedInOrder(w, n, p, m, x, y);
  }

  lemma {:induction false} AnswerOfTwo(w: map<nat, Ticket>, n: Node, p: Node, m: Node, a: Answer, x: seq<Answer>,
                                       y: seq<Answer>)
    requires Replied(w, n, p, x) && Replied(p.pending, p, m, y)
    requires n.lastApplied <= p.lastApplied <= m.lastApplied && p.log == m.log
    ensures a in x + y <==> exists i: nat :: AnswerAt(w, n, m, i, a)
  {
    if a in x {
      var i: nat :| AnswerAt(w, n, p, i, a);
      assert AnswerAt(w, n, m, i, a);
    }
    if a in y {
      var i: nat :| AnswerAt(p.pending, p, m, i, a);
      assert AnswerAt(w, n, m, i, a);
    }
    if i: nat :| AnswerAt(w, n, m, i, a) {
      if i <= p.lastApplied {
        assert AnswerAt(w, n, p, i, a);
      } else {
        assert AnswerAt(p.pending, p, m, i, a);
      }
    }
  }

  lemma {:induction false} RepliedInOrder(w: map<nat, Ticket>, n: Node, p: Node, m: Node, x: seq<Answer>,
                                          y: seq<Answer>)
    requires Replied(w, n, p, x) && Replied(p.pending, p, m, y)
    ensures InOrder(x + y)
  {
    forall a | a in x
      ensures a.index <= p.lastApplied
    {
      var i: nat :| AnswerAt(w, n, p, i, a);
    }
    forall a | a in y
      ensures a.index > p.lastApplied
    {
      var i: nat :| AnswerAt(p.pending, p, m, i, a);
    }
    var xy := x + y;
    forall i, j | 0 <= i < j < |xy|
      ensures xy[i].index < xy[j].index
    {
      if i < |x| <= j {
        assert x[i] in x && y[j - |x|] in y;
      }
    }
  }

  /** The apply loop answers exactly those it should. */
  lemma {:induction false} ApplyReplied(n: Node)
    requires n.lastApplied < |n.log| && n.commitIndex < |n.log| && n.machine == Commands(n.log[..n.lastApplied + 1])
    ensures Replied(n.pending, n, ApplyCommitted(n), ApplyAnswers(n))
    decreases n.commitIndex - n.lastApplied
  {
    if n.lastApplied < n.commitIndex {
      var p := ApplyOne(n);
      OneReplied(n);
      ApplyReplied(p);
      ApplyKeeps(p);
      RepliedThen(n.pending, n, p, ApplyCommitted(n), AnswersOfOne(n), ApplyAnswers(p));
    } else {
      QuietReplied(n, n);
    }
  }

  // ----- Every handler -----

  /** The node as it is when a handler starts to apply. */
  ghost predicate AboutToApply(n: Node, w: map<nat, Ticket>, a: Node) {
    && a.pending == w && a.lastApplied == n.lastApplied <= a.commitIndex < |a.log| && a.machine == n.machine
    && n.lastApplied < |n.log| && a.log[..n.lastApplied + 1] == n.log[..n.lastApplied + 1]
    && n.machine == Commands(n.log[..n.lastApplied + 1])
  }

  lemma {:induction false} AppliedReplied(n: Node, w: map<nat, Ticket>, a: Node)
    requires AboutToApply(n, w, a)
    ensures Replied(w, n, ApplyCommitted(a), ApplyAnswers(a))
  {
    ApplyReplied(a);
    assert forall i, m :: Served(a, m, i) <==> Served(n, m, i);
    SameStart(w, a, n, ApplyCommitted(a), ApplyAnswers(a));
  }

  lemma {:induction false} SameStart(w: map<nat, Ticket>, a: Node, n: Node, m: Node, answers: seq<Answer>)
    requires a.lastApplied == n.lastApplied && Replied(w, a, m, answers)
    ensures Replied(w, n, m, answers)
  {
    forall i, x
      ensures AnswerAt(w, a, m, i, x) <==> AnswerAt(w, n, m, i, x)
    {
    }
  }

  lemma {:induction false} SettleReplied(n: Node, w: map<nat, Ticket>, p: Node)
    requires AboutToApply(n, w, p)
    ensures Replied(w, n, SettleCommits(p).node, SettleCommits(p).answers)
  {
    AppliedReplied(n, w, AdvanceCommit(p));
  }

  /** The start of a step, with the log as it is or longer. */
  ghost predicate Starting(n: Node) {
    n.lastApplied <= n.commitIndex < |n.log| && n.machine == Commands(n.log[..n.lastApplied + 1])
  }

  lemma {:induction false} LeadReplied(n: Node)
    requires Starting(n)
    ensures Replied(n.pending, n, BecomeLeader(n).node, BecomeLeader(n).answers)
  {
    SettleReplied(n, n.pending, TakeLead(n));
  }

  lemma {:induction false} TimeoutReplied(n: Node)
    requires Starting(n)
    ensures Replied(n.pending, n, BecomeCandidate(n).node, BecomeCandidate(n).answers)
  {
    var c := StartCandidacy(n);
    LeadReplied(c);
    SameStart(n.pending, c, n, BecomeLeader(c).node, BecomeLeader(c).answers);
    QuietReplied(n, c);
  }

  lemma {:induction false} ClientReplied(n: Node, command: Command, ticket: Ticket)
    requires Starting(n) && Ready(n)
    ensures var out := ClientApply(n, command, ticket);
            Replied(Waiting(n, Client(n.id, command, ticket)), n, out.node, out.answers)
  {
    if n.role.Leader? {
      SettleReplied(n, n.pending[|n.log| := ticket], ClientAppend(n, command, ticket));
    } else {
      QuietReplied(n, n);
    }
  }

  lemma {:induction false} VoteResponseReplied(n: Node, msg: Message)
    requires Starting(n) && msg.VoteResponse?
    ensures Replied(n.pending, n, OnVoteResponse(n, msg).node, OnVoteResponse(n, msg).answers)
  {
    if msg == VoteResponse(n.term, true) && n.role.Candidate? {
      var c := CountVote(n);
      LeadReplied(c);
      SameStart(n.pending, c, n, BecomeLeader(c).node, BecomeLeader(c).answers);
      QuietReplied(n, c);
    } else {
      QuietReplied(n, OnVoteResponse(n, msg).node);
    }
  }

  lemma {:induction false} AppendResponseReplied(n: Node, src: NodeId, msg: Message)
    requires Starting(n) && msg.AppendResponse?
    ensures Replied(n.pending, n, OnAppendResponse(n, src, msg).node, OnAppendResponse(n, src, msg).answers)
  {
    if msg.term == n.term && n.role.Leader? {
      SettleReplied(n, n.pending, RecordResponse(n, src, msg));
    } else {
      QuietReplied(n, OnAppendResponse(n, src, msg).node);
    }
  }

  lemma {:induction false} TakenReplied(h: History, n: Node, m: Node, e: Envelope)
    requires HistoryOk(h) && NodeOk(h, m) && MessageOk(h, e) && m.id == e.dst && e.msg.AppendRequest?
    requires e.msg.term == m.term && m.role.Follower? && LogMatches(m, e.msg)
    requires m == n.(term := m.term, votedFor := m.votedFor, role := m.role) && Starting(n)
    ensures var a := AppendEntries(m, e.msg);
            a.commitIndex < |a.log| && Replied(n.pending, n, ApplyCommitted(a), ApplyAnswers(a))
  {
    TakenKeeps(h, m, e);
    TakenStarts(n, AppendEntries(m, e.msg));
    AppliedReplied(n, n.pending, AppendEntries(m, e.msg));
  }

  lemma {:induction false} TakenStarts(n: Node, a: Node)
    requires Starting(n) && n.commitIndex <= a.commitIndex < |a.log|
    requires a.log[..n.commitIndex + 1] == n.log[..n.commitIndex + 1]
    requires a.pending == n.pending && a.lastApplied == n.lastApplied && a.machine == n.machine
    ensures AboutToApply(n, n.pending, a)
  {
    SamePrefix(a.log, n.log, n.commitIndex + 1, n.lastApplied + 1);
  }

  lemma {:induction false} TakenKeeps(h: History, m: Node, e: Envelope)
    requires HistoryOk(h) && NodeOk(h, m) && MessageOk(h, e) && m.id == e.dst
    requires e.msg.AppendRequest? && e.msg.term == m.term && m.role.Follower? && LogMatches(m, e.msg)
    ensures var a := AppendEntries(m, e.msg);
            && m.commitIndex < |m.log| && m.commitIndex <= a.commitIndex < |a.log|
            && a.log[..m.commitIndex + 1] == m.log[..m.commitIndex + 1]
            && a.pending == m.pending && a.lastApplied == m.lastApplied && a.machine == m.machine
  {
    TakeCommit(h, m, e);
  }

  lemma {:induction false} SamePrefix(a: Log, b: Log, i: nat, j: nat)
    requires j <= i <= |a| && i <= |b| && a[..i] == b[..i]
    ensures a[..j] == b[..j]
  {
    assert a[..j] == a[..i][..j] && b[..j] == b[..i][..j];
  }

  lemma {:induction false} AppendRequestReplied(h: History, n: Node, e: Envelope)
    requires Receiving(h, n, e) && MessageOk(h, e) && e.msg.AppendRequest? && CanReceive(n, e.msg) && Starting(n)
    ensures var out := Receive(n, e.src, e.msg); Replied(n.pending, n, out.node, out.answers)
  {
    if e.msg.term < n.term {
      QuietReplied(n, n);
    } else {
      AcceptLeaderOk(h, n, e);
      if LogMatches(n, e.msg) {
        TakenReplied(h, n, AcceptLeader(n, e.msg), e);
        TakeOutcome(h, n, e);
      } else {
        MismatchOutcome(h, n, e);
        QuietReplied(n, AcceptLeader(n, e.msg));
      }
    }
  }

  lemma {:induction false} ReceiveReplied(h: History, n: Node, e: Envelope)
    requires Receiving(h, n, e) && MessageOk(h, e) && CanReceive(n, e.msg) && Starting(n)
    ensures var out := Receive(n, e.src, e.msg); Replied(n.pending, n, out.node, out.answers)
  {
    match e.msg
    case AppendRequest(_, _, _, _, _, _) => AppendRequestReplied(h, n, e);
    case AppendResponse(_, _, _) => AppendResponseReplied(n, e.src, e.msg);
    case VoteRequest(_, _, _, _) => QuietReplied(n, OnVoteRequest(n, e.src, e.msg).node);
    case VoteResponse(_, _) => VoteResponseReplied(n, e.msg);
  }

  lemma {:induction false} HandlerReplied(h: History, n: Node, ev: Event)
    requires HistoryOk(h) && NodeOk(h, n) && Actor(ev) == n.id && Enabled(h, n, ev) && NoPanic(n, ev) && !IsCrash(ev)
    ensures Replied(Waiting(n, ev), n, Handle(n, ev).node, Handle(n, ev).answers)
  {
    match ev
    case Timeout(_) => TimeoutReplied(n);
    case Heartbeat(_) => QuietReplied(n, n);
    case Client(_, command, ticket) => ClientReplied(n, command, ticket);
    case Deliver(e) =>
      assert MessageOk(h, e);
      ReceiveReplied(h, n, e);
  }

  // ----- Steps of the cluster -----

  lemma {:induction false} TicketFacts(h: History, n: Node, ev: Event)
    ensures Facts(h, n, ev).answers == h.answers
    ensures Facts(h, n, ev).accepted
         == if ev.Client? && n.role.Leader? then
              h.accepted[ev.ticket := Acceptance(n.id, n.term, |n.log|, ev.command)]
            else h.accepted
  {
    if ev.Deliver? {
      ReceivedKeeps(Consume(h, ev.e), n, ev.e.msg);
    }
  }

  /** Replies are complete and correct, step by step. Whoever waits at an index at which the step applies a command
      is answered, with the committed commands up to it; nobody else is; and everybody else goes on waiting. */
  lemma {:induction false} RepliesExact(c: Cluster, ev: Event, d: Cluster)
    requires ClusterOk(c) && Next(c, ev, d) && !IsCrash(ev)
    ensures var id := Actor(ev);
            && id in c.nodes && id in d.nodes
            && var n, m, w := c.nodes[id], d.nodes[id], Waiting(c.nodes[id], ev);
               && (forall i :: i in m.pending <==> i in w && !Served(n, m, i))
               && (forall i :: i in m.pending ==> m.pending[i] == w[i])
               && (forall a :: a in d.h.answers <==> a in c.h.answers || exists i: nat :: AnswerAt(w, n, m, i, a))
  {
    var id := Actor(ev);
    var n := c.nodes[id];
    assert MemberOk(c, id);
    HandlerReplied(c.h, n, ev);
    TicketFacts(c.h, n, ev);
    assert forall a :: a in Handle(n, ev).answers <==> a in Elems(Handle(n, ev).answers);
  }

  /** A crash forgets who waits at the node, and answers nobody. */
  lemma {:induction false} CrashForgets(c: Cluster, ev: Event, d: Cluster)
    requires Next(c, ev, d) && IsCrash(ev)
    ensures Actor(ev) in d.nodes && d.nodes[Actor(ev)].pending == map[] && d.h.answers == c.h.answers
    ensures d.h.accepted == c.h.accepted
  {
    TicketFacts(c.h, c.nodes[Actor(ev)], ev);
  }

  // ----- Tickets over a run -----

  /** A ticket that waits at node `id` was accepted there and has not been answered; where the node has applied
      its index already, that was no command. */
  ghost predicate WaitsRightly(c: Cluster, id: NodeId, i: nat)
    requires id in c.nodes && i in c.nodes[id].pending
  {
    var n, k := c.nodes[id], c.nodes[id].pending[i];
    && k in c.h.accepted && c.h.accepted[k].node == id && c.h.accepted[k].index == i
    && (forall a :: a in c.h.answers ==> a.ticket != k)
    && (i <= n.lastApplied ==> i < |n.log| && n.log[i].command == NoOp)
  }

  ghost predicate TicketsOk(c: Cluster) {
    forall id, i {:trigger WaitsRightly(c, id, i)} :: id in c.nodes && i in c.nodes[id].pending ==>
      WaitsRightly(c, id, i)
  }

  lemma {:induction false} AnswersAreAccepted(c: Cluster, a: Answer)
    requires ClusterOk(c) && a in c.h.answers
    ensures a.ticket in c.h.accepted && a.index == c.h.accepted[a.ticket].index
  {
    assert AnswerOk(c.h, a);
  }

  /** A ticket of the step's own node was accepted there, or has just been taken. */
  lemma {:induction false} OwnTicket(c: Cluster, ev: Event, i: nat)
    requires ClusterOk(c) && TicketsOk(c) && Actor(ev) in c.nodes && i in Waiting(c.nodes[Actor(ev)], ev)
    ensures var n, k := c.nodes[Actor(ev)], Waiting(c.nodes[Actor(ev)], ev)[i];
            if ev.Client? && n.role.Leader? && i == |n.log| then k == ev.ticket
            else && i in n.pending && k == n.pending[i] && k in c.h.accepted
                 && c.h.accepted[k].node == Actor(ev) && c.h.accepted[k].index == i
  {
    var n := c.nodes[Actor(ev)];
    if i in n.pending {
      assert WaitsRightly(c, Actor(ev), i);
    }
  }

  /** No step answers a ticket that waits elsewhere, or at another index. */
  lemma {:induction false} OthersUnanswered(c: Cluster, ev: Event, d: Cluster, id: NodeId, i: nat)
    requires ClusterOk(c) && TicketsOk(c) && Next(c, ev, d) && id in c.nodes && i in c.nodes[id].pending
    requires id != Actor(ev) || IsCrash(ev) || !Served(c.nodes[id], d.nodes[id], i)
    ensures forall a :: a in d.h.answers ==> a.ticket != c.nodes[id].pending[i]
  {
    var k := c.nodes[id].pending[i];
    assert WaitsRightly(c, id, i);
    if IsCrash(ev) {
      CrashForgets(c, ev, d);
    } else {
      RepliesExact(c, ev, d);
      var n, m := c.nodes[Actor(ev)], d.nodes[Actor(ev)];
      forall a | a in d.h.answers && a !in c.h.answers
        ensures a.ticket != k
      {
        var j: nat :| AnswerAt(Waiting(n, ev), n, m, j, a);
        OwnTicket(c, ev, j);
      }
    }
  }

  /** A ticket that has just been taken is not answered before its index is applied. */
  lemma {:induction false} NewUnanswered(c: Cluster, ev: Event, d: Cluster)
    requires ClusterOk(c) && TicketsOk(c) && Next(c, ev, d) && ev.Client? && c.nodes[ev.id].role.Leader?
    requires !Served(c.nodes[ev.id], d.nodes[ev.id], |c.nodes[ev.id].log|)
    ensures forall a :: a in d.h.answers ==> a.ticket != ev.ticket
  {
    var n, m := c.nodes[ev.id], d.nodes[ev.id];
    RepliesExact(c, ev, d);
    forall a | a in d.h.answers
      ensures a.ticket != ev.ticket
    {
      if a in c.h.answers {
        AnswersAreAccepted(c, a);
      } else {
        var j: nat :| AnswerAt(Waiting(n, ev), n, m, j, a);
        OwnTicket(c, ev, j);
      }
    }
  }

  lemma {:induction false} BystanderWaits(c: Cluster, ev: Event, d: Cluster, id: NodeId, i: nat)
    requires ClusterOk(c) && TicketsOk(c) && Next(c, ev, d) && id in c.nodes && id != Actor(ev)
             && i in c.nodes[id].pending
    ensures id in d.nodes && i in d.nodes[id].pending && WaitsRightly(d, id, i)
  {
    assert WaitsRightly(c, id, i);
    OthersUnanswered(c, ev, d, id, i);
    NextPreserves(c, ev, d);
  }

  lemma {:induction false} AppliedStays(n: Node, m: Node, i: nat)
    requires MovesForward(n, m) && i <= n.lastApplied <= n.commitIndex
    ensures i < |n.log| && i < |m.log| && m.log[i] == n.log[i] && m.log[..i + 1] == n.log[..i + 1]
  {
    assert m.log[..n.commitIndex + 1][i] == n.log[..n.commitIndex + 1][i];
    assert m.log[..i + 1] == m.log[..n.commitIndex + 1][..i + 1];
    assert n.log[..i + 1] == n.log[..n.commitIndex + 1][..i + 1];
  }

  lemma {:induction false} ActorWaits(c: Cluster, ev: Event, d: Cluster, i: nat)
    requires ClusterOk(c) && TicketsOk(c) && Next(c, ev, d) && !IsCrash(ev)
    requires Actor(ev) in d.nodes && i in d.nodes[Actor(ev)].pending
    ensures WaitsRightly(d, Actor(ev), i)
  {
    var id := Actor(ev);
    var n, m := c.nodes[id], d.nodes[id];
    assert MemberOk(c, id);
    RepliesExact(c, ev, d);
    TicketFacts(c.h, n, ev);
    StepsMoveForward(c, ev, d, id);
    OwnTicket(c, ev, i);
    if ev.Client? && n.role.Leader? && i == |n.log| {
      NewUnanswered(c, ev, d);
    } else {
      assert WaitsRightly(c, id, i);
      OthersUnanswered(c, ev, d, id, i);
      if i <= n.lastApplied {
        AppliedStays(n, m, i);
      }
    }
  }

  lemma {:induction false} StepTickets(c: Cluster, ev: Event, d: Cluster)
    requires ClusterOk(c) && TicketsOk(c) && Next(c, ev, d)
    ensures TicketsOk(d)
  {
    forall id, i | id in d.nodes && i in d.nodes[id].pending
      ensures WaitsRightly(d, id, i)
    {
      if id != Actor(ev) {
        BystanderWaits(c, ev, d, id, i);
      } else if IsCrash(ev) {
        CrashForgets(c, ev, d);
      } else {
        ActorWaits(c, ev, d, i);
      }
    }
  }

  lemma {:induction false} InitTickets(c: Cluster)
    requires Init(c)
    ensures TicketsOk(c)
  {
    forall id | id in c.nodes
      ensures c.nodes[id].pending == map[]
    {
      NewNodePeers(c.h.members, c.nodes[id]);
    }
  }

  lemma {:induction false} RunTickets(states: seq<Cluster>, events: seq<Event>, i: nat)
    requires IsRun(states, events) && i < |states|
    ensures TicketsOk(states[i])
  {
    if i == 0 {
      InitTickets(states[0]);
    } else {
      RunTickets(states, events, i - 1);
      TicketsAt(states, events, i - 1);
    }
  }

  lemma {:induction false} TicketsAt(states: seq<Cluster>, events: seq<Event>, i: nat)
    requires IsRun(states, events) && i < |events| && TicketsOk(states[i])
    ensures TicketsOk(states[i + 1])
  {
    RunOk(states, events, i);
    RunStep(states, events, i);
    StepTickets(states[i], events[i], states[i + 1]);
  }

  // ----- What becomes of a ticket -----

  /** Ticket `k` of index `i` at node `id`: answered once the node has applied a command there, and waiting until
      then, or for ever if the leader's first entry is applied there. */
  ghost predicate Fate(c: Cluster, id: NodeId, i: nat, k: Ticket) {
    && id in c.nodes
    && var n := c.nodes[id];
       if i <= n.lastApplied && i < |n.log| && n.log[i].command.Apply? then
         i !in n.pending && Answer(k, i, n.log[i], Commands(n.log[..i + 1])) in c.h.answers
       else
         i in n.pending && n.pending[i] == k && forall a :: a in c.h.answers ==> a.ticket != k
  }

  /** The event loses whoever waits at index `i` of node `id`: the process dies, or, leading again after its log was
      cut, it takes another command at the same index. */
  ghost predicate Loses(c: Cluster, ev: Event, id: NodeId, i: nat) {
    && Actor(ev) == id
    && (IsCrash(ev) || (ev.Client? && id in c.nodes && c.nodes[id].role.Leader? && |c.nodes[id].log| == i))
  }

  lemma {:induction false} AnsweredStays(c: Cluster, ev: Event, d: Cluster, id: NodeId, i: nat, k: Ticket)
    requires ClusterOk(c) && Next(c, ev, d) && Fate(c, id, i, k) && Actor(ev) == id && !IsCrash(ev)
    requires i <= c.nodes[id].lastApplied && i < |c.nodes[id].log| && c.nodes[id].log[i].command.Apply?
    ensures Fate(d, id, i, k)
  {
    assert MemberOk(c, id);
    RepliesExact(c, ev, d);
    StepsMoveForward(c, ev, d, id);
    AppliedStays(c.nodes[id], d.nodes[id], i);
  }

  lemma {:induction false} WaitingStep(c: Cluster, ev: Event, d: Cluster, id: NodeId, i: nat, k: Ticket)
    requires ClusterOk(c) && TicketsOk(c) && Next(c, ev, d) && Actor(ev) == id && !IsCrash(ev) && id in c.nodes
    requires i in Waiting(c.nodes[id], ev) && Waiting(c.nodes[id], ev)[i] == k
    ensures Fate(d, id, i, k)
  {
    var n, m := c.nodes[id], d.nodes[id];
    RepliesExact(c, ev, d);
    StepsMoveForward(c, ev, d, id);
    if Served(n, m, i) {
      assert AnswerAt(Waiting(n, ev), n, m, i, Answer(k, i, m.log[i], Commands(m.log[..i + 1])));
    } else {
      StepTickets(c, ev, d);
      assert WaitsRightly(d, id, i);
    }
  }

  lemma {:induction false} FateStep(c: Cluster, ev: Event, d: Cluster, id: NodeId, i: nat, k: Ticket)
    requires ClusterOk(c) && TicketsOk(c) && Next(c, ev, d) && Fate(c, id, i, k) && !Loses(c, ev, id, i)
    ensures Fate(d, id, i, k)
  {
    var n := c.nodes[id];
    if Actor(ev) != id {
      NextPreserves(c, ev, d);
      if i in n.pending {
        BystanderWaits(c, ev, d, id, i);
      }
    } else if i <= n.lastApplied && i < |n.log| && n.log[i].command.Apply? {
      AnsweredStays(c, ev, d, id, i, k);
    } else {
      WaitingStep(c, ev, d, id, i, k);
    }
  }

  /** A ticket that a leader takes is afterwards waiting, or answered at once. */
  lemma {:induction false} TakenTicket(c: Cluster, ev: Event, d: Cluster)
    requires ClusterOk(c) && TicketsOk(c) && Next(c, ev, d) && ev.Client? && c.nodes[ev.id].role.Leader?
    ensures ev.ticket in d.h.accepted && d.h.accepted[ev.ticket].command == ev.command
    ensures Fate(d, ev.id, |c.nodes[ev.id].log|, ev.ticket)
  {
    TicketFacts(c.h, c.nodes[ev.id], ev);
    WaitingStep(c, ev, d, ev.id, |c.nodes[ev.id].log|, ev.ticket);
  }

  lemma {:induction false} FateAt(states: seq<Cluster>, events: seq<Event>, i: nat, id: NodeId, at: nat, k: Ticket)
    requires IsRun(states, events) && i < |events| && Fate(states[i], id, at, k) && !Loses(states[i], events[i], id, at)
    ensures Fate(states[i + 1], id, at, k)
  {
    RunOk(states, events, i);
    RunTickets(states, events, i);
    RunStep(states, events, i);
    FateStep(states[i], events[i], states[i + 1], id, at, k);
  }

  /** The fate of every ticket, over every run: from the moment it waits, and as long as its node neither dies nor
      takes another command at its index, it is answered if and only if the node has applied a command there, and
      waits otherwise. */
  lemma {:induction false} TicketFate(states: seq<Cluster>, events: seq<Event>, i: nat, j: nat, id: NodeId, at: nat)
    requires IsRun(states, events) && i <= j < |states|
    requires id in states[i].nodes && at in states[i].nodes[id].pending
    requires forall s :: i <= s < j ==> !Loses(states[s], events[s], id, at)
    ensures Fate(states[j], id, at, states[i].nodes[id].pending[at])
    decreases j
  {
    if i < j {
      TicketFate(states, events, i, j - 1, id, at);
      FateAt(states, events, j - 1, id, at, states[i].nodes[id].pending[at]);
    } else {
      RunTickets(states, events, i);
      assert WaitsRightly(states[i], id, at);
    }
  }

  /** Nobody waits with ticket `k`, and it was not answered. */
  ghost predicate Stranded(c: Cluster, k: Ticket) {
    && k in c.h.accepted && (forall a :: a in c.h.answers ==> a.ticket != k)
    && forall id, i {:trigger c.nodes[id].pending[i]} :: id in c.nodes && i in c.nodes[id].pending ==>
         c.nodes[id].pending[i] != k
  }

  lemma {:induction false} StrandedStep(c: Cluster, ev: Event, d: Cluster, k: Ticket)
    requires ClusterOk(c) && TicketsOk(c) && Next(c, ev, d) && Stranded(c, k)
    ensures Stranded(d, k)
  {
    var id := Actor(ev);
    NextPreserves(c, ev, d);
    if IsCrash(ev) {
      CrashForgets(c, ev, d);
    } else {
      RepliesExact(c, ev, d);
      forall i | i in Waiting(c.nodes[id], ev)
        ensures Waiting(c.nodes[id], ev)[i] != k
      {
        OwnTicket(c, ev, i);
      }
    }
  }

  /** A ticket that is stranded stays so: its client is never answered. */
  lemma {:induction false} StrandedForever(states: seq<Cluster>, events: seq<Event>, i: nat, j: nat, k: Ticket)
    requires IsRun(states, events) && i <= j < |states| && Stranded(states[i], k)
    ensures Stranded(states[j], k)
    decreases j
  {
    if i < j {
      StrandedForever(states, events, i, j - 1, k);
      StrandedAt(states, events, j - 1, k);
    }
  }

  lemma {:induction false} StrandedAt(states: seq<Cluster>, events: seq<Event>, i: nat, k: Ticket)
    requires IsRun(states, events) && i < |events| && Stranded(states[i], k)
    ensures Stranded(states[i + 1], k)
  {
    RunOk(states, events, i);
    RunTickets(states, events, i);
    RunStep(states, events, i);
    StrandedStep(states[i], events[i], states[i + 1], k);
  }

  /** What loses a ticket strands it for good. */
  lemma {:induction false} LosingStrands(c: Cluster, ev: Event, d: Cluster, id: NodeId, i: nat)
    requires ClusterOk(c) && TicketsOk(c) && Next(c, ev, d) && Loses(c, ev, id, i) && id in c.nodes
             && i in c.nodes[id].pending
    ensures Stranded(d, c.nodes[id].pending[i])
  {
    var k := c.nodes[id].pending[i];
    assert WaitsRightly(c, id, i);
    NextPreserves(c, ev, d);
    StepTickets(c, ev, d);
    forall p, x | p in d.nodes && x in d.nodes[p].pending
      ensures d.nodes[p].pending[x] != k
    {
      assert WaitsRightly(d, p, x);
      LosingPending(c, ev, d, id, i, p, x);
    }
    LosingUnanswered(c, ev, d, id, i);
  }

  lemma {:induction false} LosingPending(c: Cluster, ev: Event, d: Cluster, id: NodeId, i: nat, p: NodeId, x: nat)
    requires ClusterOk(c) && TicketsOk(c) && Next(c, ev, d) && Loses(c, ev, id, i) && id in c.nodes
             && i in c.nodes[id].pending
    requires p in d.nodes && x in d.nodes[p].pending
    ensures d.nodes[p].pending[x] != c.nodes[id].pending[i]
  {
    assert WaitsRightly(c, id, i);
    if p != id {
      assert WaitsRightly(c, p, x);
    } else if IsCrash(ev) {
      CrashForgets(c, ev, d);
    } else {
      RepliesExact(c, ev, d);
      OwnTicket(c, ev, x);
    }
  }

  lemma {:induction false} LosingUnanswered(c: Cluster, ev: Event, d: Cluster, id: NodeId, i: nat)
    requires ClusterOk(c) && TicketsOk(c) && Next(c, ev, d) && Loses(c, ev, id, i) && id in c.nodes
             && i in c.nodes[id].pending
    ensures forall a :: a in d.h.answers ==> a.ticket != c.nodes[id].pending[i]
  {
    var k := c.nodes[id].pending[i];
    assert WaitsRightly(c, id, i);
    if IsCrash(ev) {
      CrashForgets(c, ev, d);
    } else {
      RepliesExact(c, ev, d);
      var n, m := c.nodes[id], d.nodes[id];
      forall a | a in d.h.answers && a !in c.h.answers
        ensures a.ticket != k
      {
        var j: nat :| AnswerAt(Waiting(n, ev), n, m, j, a);
        OwnTicket(c, ev, j);
      }
    }
  }
}
