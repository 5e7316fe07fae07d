/** Why a set of messages is enough: a message that must be delivered at most once is sent at most once. */
module RaftDelivery {
  import opened Collections
  import opened RaftTypes
  import opened RaftHandlers
  import opened RaftHistory
  import opened RaftElection
  import opened RaftReplication
  import opened RaftCluster

  /** The vote request a ballot answered has been delivered. */
  ghost predicate Answered(h: History) {
    forall e {:trigger e in h.sent} :: e in h.sent && e.msg.VoteRequest?
      && Seat(e.msg.term, e.dst) in h.ballots && h.ballots[Seat(e.msg.term, e.dst)].candidate == e.src
      ==> e in h.consumed
  }

  /** No vote request and no granted vote is ever sent a second time. */
  ghost predicate SendsFresh(h: History, sends: seq<Envelope>) {
    && (forall i :: 0 <= i < |sends| && OnceOnly(sends[i].msg) ==> sends[i] !in h.sent)
    && (forall i, j :: 0 <= i < j < |sends| && OnceOnly(sends[i].msg) ==> sends[i] != sends[j])
  }

  /** All messages of a new candidate or leader carry its new term, and no two go to the same node. */
  lemma TimeoutSends(n: Node)
    requires n.commitIndex < |n.log| && NoRepeats(n.peers)
    ensures var sends := BecomeCandidate(n).sends;
            && (forall i :: 0 <= i < |sends| ==> sends[i].src == n.id && sends[i].msg.term == n.term + 1)
            && (forall i, j :: 0 <= i < j < |sends| ==> sends[i] != sends[j])
            && (n.id !in n.peers ==> forall e :: e in sends ==> e.dst != n.id)
  {
    var c := StartCandidacy(n);
    var sends := BecomeCandidate(n).sends;
    if HasMajority(1, ClusterSize(c)) {
      ApplyKeeps(AdvanceCommit(TakeLead(c)));
    }
    assert |sends| == |n.peers| && forall i :: 0 <= i < |sends| ==> sends[i].dst == n.peers[i];
  }

  lemma AfterTraffic(h: History, n: Node, ev: Event)
    requires NoPanic(n, ev)
    ensures var f, k := Facts(h, n, ev), After(h, n, ev);
            k.ballots == f.ballots && k.consumed == f.consumed && k.sent == f.sent + Elems(Handle(n, ev).sends)
  {
  }

  lemma CrownNoBallots(h: History, n: Node)
    ensures var k := Crown(h, n);
            k.ballots == h.ballots && k.sent == h.sent && k.consumed == h.consumed
  {
  }

  lemma TimeoutFacts(h: History, n: Node)
    ensures var f := Facts(h, n, Timeout(n.id));
            f.ballots == h.ballots[Seat(n.term + 1, n.id) := Ballot(n.id, n.log)] && f.sent == h.sent
            && f.consumed == h.consumed
  {
    CrownNoBallots(Stand(h, n), StartCandidacy(n));
  }

  lemma FreshTimeout(h: History, n: Node)
    requires HistoryOk(h) && NodeOk(h, n) && !n.role.Leader? && Answered(h)
    ensures SendsFresh(h, BecomeCandidate(n).sends) && Answered(After(h, n, Timeout(n.id)))
  {
    var sends := BecomeCandidate(n).sends;
    TimeoutSends(n);
    TimeoutFacts(h, n);
    AfterTraffic(h, n, Timeout(n.id));
    forall e | e in h.sent && e.msg.term == n.term + 1 && OnceOnly(e.msg)
      ensures e.src != n.id
    {
      assert MessageOk(h, e);
    }
    StandAnswered(h, n, sends, After(h, n, Timeout(n.id)));
  }

  lemma StandAnswered(h: History, n: Node, sends: seq<Envelope>, k: History)
    requires HistoryOk(h) && OwnPastOk(h, n) && Answered(h)
    requires forall i :: 0 <= i < |sends| ==> sends[i].src == n.id && sends[i].msg.term == n.term + 1
    requires k.ballots == h.ballots[Seat(n.term + 1, n.id) := Ballot(n.id, n.log)]
    requires k.sent == h.sent + Elems(sends) && k.consumed == h.consumed
    requires forall e :: e in sends ==> e.dst != n.id
    ensures Answered(k)
  {
    forall e | e in k.sent && e.msg.VoteRequest?
      && Seat(e.msg.term, e.dst) in k.ballots && k.ballots[Seat(e.msg.term, e.dst)].candidate == e.src
      ensures e in k.consumed
    {
      assert Seat(e.msg.term, e.dst) in h.ballots ==> BallotOk(h, e.msg.term, e.dst);
      assert e in h.sent ==> MessageOk(h, e);
    }
  }

  lemma SameRequest(h: History, a: Envelope, b: Envelope)
    requires MessageOk(h, a) && MessageOk(h, b) && a.msg.VoteRequest? && b.msg.VoteRequest?
    requires a.src == b.src && a.dst == b.dst && a.msg.term == b.msg.term
    ensures a == b
  {
  }

  lemma VoteRequestFacts(h: History, n: Node, e: Envelope)
    requires e.msg.VoteRequest? && e.msg.candidateId == e.src
    ensures var f := Facts(h, n, Deliver(e));
            && f.sent == h.sent && f.consumed == h.consumed + {e}
            && forall seat :: seat in f.ballots ==>
                 (seat in h.ballots && f.ballots[seat] == h.ballots[seat])
                 || (seat == Seat(e.msg.term, n.id) && f.ballots[seat].candidate == e.src)
  {
    assert Consume(h, e) == h.(consumed := h.consumed + {e});
  }

  lemma VoteRequestSends(n: Node, e: Envelope)
    requires n.commitIndex < |n.log| && e.msg.VoteRequest?
    ensures var sends := Receive(n, e.src, e.msg).sends;
            && |sends| <= 1
            && forall x :: x in sends && OnceOnly(x.msg) ==> x == Envelope(n.id, e.src, VoteResponse(e.msg.term, true))
  {
  }

  lemma FreshVoteRequest(h: History, n: Node, e: Envelope)
    requires Receiving(h, n, e) && e.msg.VoteRequest? && CanReceive(n, e.msg) && Answered(h)
    ensures SendsFresh(h, Handle(n, Deliver(e)).sends) && Answered(After(h, n, Deliver(e)))
  {
    assert MessageOk(h, e);
    VoteRequestFacts(h, n, e);
    VoteRequestSends(n, e);
    AfterTraffic(h, n, Deliver(e));
    var grant := Envelope(n.id, e.src, VoteResponse(e.msg.term, true));
    assert grant in h.sent ==> MessageOk(h, grant);
    VoteAnswered(h, n, e, After(h, n, Deliver(e)));
  }

  lemma VoteAnswered(h: History, n: Node, e: Envelope, k: History)
    requires HistoryOk(h) && e in h.sent && e.msg.VoteRequest? && e.dst == n.id && Answered(h)
    requires forall x :: x in k.sent && x.msg.VoteRequest? ==> x in h.sent
    requires k.consumed == h.consumed + {e}
    requires forall seat :: seat in k.ballots ==>
      (seat in h.ballots && k.ballots[seat] == h.ballots[seat])
      || (seat == Seat(e.msg.term, n.id) && k.ballots[seat].candidate == e.src)
    ensures Answered(k)
  {
    assert MessageOk(h, e);
    forall x | x in k.sent && x.msg.VoteRequest?
      && Seat(x.msg.term, x.dst) in k.ballots && k.ballots[Seat(x.msg.term, x.dst)].candidate == x.src
      ensures x in k.consumed
    {
      assert MessageOk(h, x);
      if || Seat(x.msg.term, x.dst) !in h.ballots
         || k.ballots[Seat(x.msg.term, x.dst)] != h.ballots[Seat(x.msg.term, x.dst)] {
        SameRequest(h, x, e);
      }
    }
  }

  /** Messages that neither ask for a vote nor grant one. */
  ghost predicate NoVotes(sends: seq<Envelope>) {
    forall i :: 0 <= i < |sends| ==> !OnceOnly(sends[i].msg)
  }

  lemma HeartbeatsNoVotes(n: Node)
    requires n.role.Leader? && IndicesOk(n)
    ensures NoVotes(Heartbeats(n))
  {
  }

  lemma LeadNoVotes(n: Node)
    requires n.commitIndex < |n.log|
    ensures NoVotes(BecomeLeader(n).sends)
  {
    ApplyKeeps(AdvanceCommit(TakeLead(n)));
    HeartbeatsNoVotes(BecomeLeader(n).node);
  }

  lemma ClientNoVotes(n: Node, command: Command, ticket: Ticket)
    requires Ready(n)
    ensures NoVotes(ClientApply(n, command, ticket).sends)
  {
    if n.role.Leader? {
      ApplyKeeps(AdvanceCommit(ClientAppend(n, command, ticket)));
      HeartbeatsNoVotes(ClientApply(n, command, ticket).node);
    }
  }

  lemma VoteResponseNoVotes(n: Node, msg: Message)
    requires n.commitIndex < |n.log| && msg.VoteResponse?
    ensures NoVotes(OnVoteResponse(n, msg).sends)
  {
    if msg == VoteResponse(n.term, true) && n.role.Candidate? {
      LeadNoVotes(CountVote(n));
    }
  }

  lemma AppendRequestNoVotes(n: Node, src: NodeId, msg: Message)
    requires CanReceive(n, msg) && msg.AppendRequest?
    ensures NoVotes(OnAppendRequest(n, src, msg).sends)
  {
  }

  lemma AppendResponseNoVotes(n: Node, src: NodeId, msg: Message)
    requires n.commitIndex < |n.log| && msg.AppendResponse?
    ensures NoVotes(OnAppendResponse(n, src, msg).sends)
  {
  }

  lemma ReceiveNoVotes(n: Node, src: NodeId, msg: Message)
    requires CanReceive(n, msg) && !msg.VoteRequest?
    ensures NoVotes(Receive(n, src, msg).sends)
  {
    match msg
    case AppendRequest(_, _, _, _, _, _) => AppendRequestNoVotes(n, src, msg);
    case AppendResponse(_, _, _) => AppendResponseNoVotes(n, src, msg);
    case VoteResponse(_, _) => VoteResponseNoVotes(n, msg);
  }

  lemma AcknowledgeNoBallots(h: History, n: Node, length: nat)
    ensures var k := Acknowledge(h, n, length);
            k.ballots == h.ballots && k.sent == h.sent && k.consumed == h.consumed
  {
  }

  lemma ReceivedNoBallots(h: History, n: Node, msg: Message)
    requires !msg.VoteRequest?
    ensures var k := Received(h, n, msg);
            k.ballots == h.ballots && k.sent == h.sent && k.consumed == h.consumed
  {
    if msg.AppendRequest? {
      AcknowledgeNoBallots(h, AcceptLeader(n, msg), AckedLength(msg));
    } else if n.role.Candidate? {
      CrownNoBallots(h, CountVote(n));
    }
  }

  lemma DeliveredNoBallots(h: History, n: Node, e: Envelope)
    requires !e.msg.VoteRequest?
    ensures var k := Facts(h, n, Deliver(e));
            k.ballots == h.ballots && k.sent == h.sent && h.consumed <= k.consumed
  {
    ReceivedNoBallots(Consume(h, e), n, e.msg);
  }

  /** The handlers that send neither vote requests nor granted votes. */
  lemma OtherNoVotes(n: Node, ev: Event)
    requires NoPanic(n, ev)
    requires !ev.Timeout? && !(ev.Deliver? && ev.e.msg.VoteRequest?)
    ensures NoVotes(Handle(n, ev).sends)
  {
    match ev
    case Heartbeat(_) => HeartbeatsNoVotes(n);
    case Client(_, command, ticket) => ClientNoVotes(n, command, ticket);
    case Deliver(e) => ReceiveNoVotes(n, e.src, e.msg);
    case Crash(_) =>
    case CrashAfterStepDown(_) =>
  }

  lemma OtherNoBallots(h: History, n: Node, ev: Event)
    requires !ev.Timeout? && !(ev.Deliver? && ev.e.msg.VoteRequest?)
    ensures var f := Facts(h, n, ev);
            f.ballots == h.ballots && f.sent == h.sent && h.consumed <= f.consumed
  {
    if ev.Deliver? {
      DeliveredNoBallots(h, n, ev.e);
    }
  }

  lemma FreshOther(h: History, n: Node, ev: Event)
    requires NoPanic(n, ev) && Answered(h)
    requires !ev.Timeout? && !(ev.Deliver? && ev.e.msg.VoteRequest?)
    ensures SendsFresh(h, Handle(n, ev).sends) && Answered(After(h, n, ev))
  {
    OtherNoVotes(n, ev);
    OtherNoBallots(h, n, ev);
    AfterTraffic(h, n, ev);
  }

  /** Every message that must not be delivered twice is sent at most once in a run, so that delivering an
      element of a set at most once is delivering each sent message at most once. */
  lemma OnceOnlyIsSentOnce(c: Cluster, ev: Event, d: Cluster)
    requires ClusterOk(c) && Answered(c.h) && Next(c, ev, d)
    ensures Answered(d.h)
    ensures SendsFresh(c.h, Handle(c.nodes[Actor(ev)], ev).sends)
  {
    var n := c.nodes[Actor(ev)];
    assert MemberOk(c, Actor(ev));
    if ev.Timeout? {
      FreshTimeout(c.h, n);
    } else if ev.Deliver? && ev.e.msg.VoteRequest? {
      FreshVoteRequest(c.h, n, ev.e);
    } else {
      FreshOther(c.h, n, ev);
    }
  }

  lemma {:induction false} RunAnswered(states: seq<Cluster>, events: seq<Event>, i: nat)
    requires IsRun(states, events) && i < |states|
    ensures Answered(states[i].h)
  {
    if i > 0 {
      RunAnswered(states, events, i - 1);
      AnsweredAt(states, events, i - 1);
    }
  }

  lemma AnsweredAt(states: seq<Cluster>, events: seq<Event>, i: nat)
    requires IsRun(states, events) && i < |events| && Answered(states[i].h)
    ensures Answered(states[i + 1].h)
  {
    RunOk(states, events, i);
    RunStep(states, events, i);
    OnceOnlyIsSentOnce(states[i], events[i], states[i + 1]);
  }

  /** At-most-once delivery is needed: the votes are a bare counter, so that the same granted vote, delivered
      twice, makes a candidate of a cluster of five a leader with the votes of two. */
  lemma DuplicateVoteElects(n: Node)
    requires n.role == Candidate(1) && |n.peers| == 4 && n.commitIndex < |n.log|
    ensures var msg := VoteResponse(n.term, true);
            var once := OnVoteResponse(n, msg).node;
            once.role == Candidate(2) && once.commitIndex < |once.log| && OnVoteResponse(once, msg).node.role.Leader?
  {
    var once := CountVote(n);
    ApplyKeeps(AdvanceCommit(TakeLead(CountVote(once))));
  }
}
