/** Repairing a follower's log takes finitely many rounds. */
module RaftLiveness {
  import opened Collections
  import opened RaftTypes
  import opened RaftHandlers
  import opened RaftHistory
  import opened RaftSafety
  import opened RaftReplication
  import opened RaftCluster

  /** A stretch of a run, starting anywhere. */
  ghost predicate IsPath(states: seq<Cluster>, events: seq<Event>) {
    && |states| == |events| + 1
    && forall i {:trigger StepAt(states, events, i)} :: 0 <= i < |events| ==> StepAt(states, events, i)
  }

  /** Traffic between a leader and one follower. */
  predicate Between(ev: Event, l: NodeId, f: NodeId) {
    || ev == Heartbeat(l)
    || (ev.Deliver? && ev.e.src == l && ev.e.dst == f)
    || (ev.Deliver? && ev.e.src == f && ev.e.dst == l)
  }

  /** `l` leads and `f` is not ahead of it. */
  ghost predicate Repairing(c: Cluster, l: NodeId, f: NodeId) {
    && ClusterOk(c) && l in c.nodes && f in c.nodes && l != f
    && c.nodes[l].role.Leader? && c.nodes[f].term <= c.nodes[l].term
    && f in c.nodes[l].role.nextIndex
  }

  lemma TakeStep(c: Cluster, ev: Event) returns (d: Cluster)
    requires ClusterOk(c) && Actor(ev) in c.nodes && Enabled(c.h, c.nodes[Actor(ev)], ev)
    ensures Next(c, ev, d) && ClusterOk(d) && d.h.members == c.h.members && c.h.sent <= d.h.sent
    ensures var n := c.nodes[Actor(ev)];
            && NoPanic(n, ev) && d.nodes == c.nodes[Actor(ev) := Handle(n, ev).node]
            && Elems(Handle(n, ev).sends) <= d.h.sent
  {
    var n := c.nodes[Actor(ev)];
    StepPreserves(c, ev);
    d := Cluster(c.nodes[Actor(ev) := Handle(n, ev).node], After(c.h, n, ev));
    NextPreserves(c, ev, d);
  }

  /** The leader's request to `f` is out after a heartbeat. */
  lemma Ask(c: Cluster, l: NodeId, f: NodeId) returns (d: Cluster, e: Envelope)
    requires Repairing(c, l, f)
    ensures Next(c, Heartbeat(l), d) && ClusterOk(d) && d.nodes == c.nodes
    ensures 1 <= c.nodes[l].role.nextIndex[f] <= |c.nodes[l].log|
    ensures e == AppendRequestTo(c.nodes[l], f) && e.src == l && e in d.h.sent
    ensures d.h.members == c.h.members
  {
    var lead := c.nodes[l];
    assert MemberOk(c, l);
    assert MemberOk(c, f);
    d := TakeStep(c, Heartbeat(l));
    assert f in Elems(lead.peers);
    var i :| 0 <= i < |lead.peers| && lead.peers[i] == f;
    e := AppendRequestTo(lead, f);
    assert Heartbeats(lead)[i] == e;
  }

  /** A request that starts right after the dummy entry is never rejected. */
  lemma FirstRequestMatches(h: History, n: Node, e: Envelope)
    requires HistoryOk(h) && NodeOk(h, n) && MessageOk(h, e) && e.msg.AppendRequest?
    requires e.msg.prevLogIndex == 0
    ensures LogMatches(n, e.msg)
  {
    SoundIsSorted(h.leaderLog, n.log);
    assert LeaderLogOk(h.leaderLog, e.msg.term);
  }

  lemma MergedWhole(ll: map<Term, Log>, log: Log, t: Term, prev: nat, entries: seq<Entry>)
    requires LeaderLogsOk(ll) && Sound(ll, log) && t in ll
    requires prev + |entries| + 1 == |ll[t]| && entries == ll[t][prev + 1..]
    requires prev < |log| && log[prev].term == ll[t][prev].term
    ensures ll[t] <= Merge(log, prev + 1, entries)
  {
    assert entries == ll[t][prev + 1..prev + 1 + |entries|];
    MergeTakes(ll, log, t, prev, entries);
    assert ll[t][..|ll[t]|] == ll[t];
  }

  lemma TakenLog(h: History, n: Node, e: Envelope)
    requires e.msg.AppendRequest? && e.msg.term >= n.term && CanReceive(n, e.msg) && LogMatches(n, e.msg)
    ensures Handle(n, Deliver(e)).node.log == Merge(n.log, e.msg.prevLogIndex + 1, e.msg.entries)
  {
    TakeOutcome(h, n, e);
    ApplyKeeps(AppendEntries(AcceptLeader(n, e.msg), e.msg));
  }

  /** The request carries the whole rest of its leader's log. */
  lemma WholeRequest(h: History, n: Node, e: Envelope)
    requires HistoryOk(h) && NodeOk(h, n) && MessageOk(h, e) && e.msg.AppendRequest? && LogMatches(n, e.msg)
    requires AckedLength(e.msg) == |h.leaderLog[e.msg.term]|
    ensures h.leaderLog[e.msg.term] <= Merge(n.log, e.msg.prevLogIndex + 1, e.msg.entries)
  {
    MergedWhole(h.leaderLog, n.log, e.msg.term, e.msg.prevLogIndex, e.msg.entries);
  }

  lemma AcceptedLog(h: History, n: Node, e: Envelope)
    requires Receiving(h, n, e) && e.msg.AppendRequest? && CanReceive(n, e.msg)
    requires MessageOk(h, e) && e.msg.term >= n.term && LogMatches(n, e.msg)
    requires AckedLength(e.msg) == |h.leaderLog[e.msg.term]|
    ensures h.leaderLog[e.msg.term] <= Handle(n, Deliver(e)).node.log
  {
    TakenLog(h, n, e);
    WholeRequest(h, n, e);
  }

  /** The follower commits what the request announces, and answers with the last index of its entries. */
  lemma AcceptedAnswer(h: History, n: Node, e: Envelope)
    requires Receiving(h, n, e) && MessageOk(h, e) && e.msg.AppendRequest? && CanReceive(n, e.msg)
    requires e.msg.term >= n.term && LogMatches(n, e.msg)
    ensures var out := Handle(n, Deliver(e));
            && out.sends == [Envelope(n.id, e.src, AppendResponse(e.msg.term, AckedLength(e.msg) - 1, true))]
            && out.node.term == e.msg.term
            && out.node.commitIndex
               == (if e.msg.leaderCommit > n.commitIndex then e.msg.leaderCommit else n.commitIndex)
            && out.node.lastApplied >= out.node.commitIndex
  {
    var m := AcceptLeader(n, e.msg);
    AcceptLeaderOk(h, n, e);
    TakeOutcome(h, n, e);
    TakenCommit(h, m, e);
    ApplyKeeps(AppendEntries(m, e.msg));
    assert e.src in Elems(n.peers);
  }

  lemma TakenCommit(h: History, m: Node, e: Envelope)
    requires HistoryOk(h) && NodeOk(h, m) && MessageOk(h, e) && m.id == e.dst && e.msg.AppendRequest?
    requires e.msg.term == m.term && m.role.Follower? && LogMatches(m, e.msg)
    ensures AppendEntries(m, e.msg).commitIndex
         == if e.msg.leaderCommit > m.commitIndex then e.msg.leaderCommit else m.commitIndex
  {
    TakeCommit(h, m, e);
  }

  /** The follower `f` has the leader's whole log, knows committed what the leader knew, and has said so. */
  ghost predicate Repaired(c: Cluster, d: Cluster, l: NodeId, f: NodeId) {
    && ClusterOk(d) && d.nodes.Keys == c.nodes.Keys && l in c.nodes && f in c.nodes && l != f
    && c.nodes[l].log == d.nodes[l].log && c.nodes[l].log <= d.nodes[f].log
    && d.nodes[f].commitIndex >= c.nodes[l].commitIndex && d.nodes[f].lastApplied >= c.nodes[l].commitIndex
    && d.nodes[f].term == c.nodes[l].term == d.nodes[l].term && d.nodes[l].role.Leader?
    && |c.nodes[l].log| > 0 && Envelope(f, l, AppendResponse(c.nodes[l].term, |c.nodes[l].log| - 1, true)) in d.h.sent
  }

  /** A request that matches leaves the follower with the leader's whole log. */
  lemma Accepted(c: Cluster, l: NodeId, f: NodeId, e: Envelope) returns (d: Cluster)
    requires Repairing(c, l, f) && e in c.h.sent
    requires e.msg.AppendRequest? && e.src == l && e.dst == f && e.msg.term == c.nodes[l].term
    requires AckedLength(e.msg) == |c.nodes[l].log| && e.msg.leaderCommit == c.nodes[l].commitIndex
    requires LogMatches(c.nodes[f], e.msg)
    ensures Next(c, Deliver(e), d) && Repaired(c, d, l, f)
    ensures d.nodes == c.nodes[f := d.nodes[f]] && d.h.members == c.h.members
  {
    d := TakeStep(c, Deliver(e));
    AcceptedOutcome(c, l, f, e);
    MarkRepaired(c, d, l, f, Handle(c.nodes[f], Deliver(e)));
  }

  /** The outcome at a follower that takes all that its leader has. */
  ghost predicate TakesAll(lead: Node, l: NodeId, f: NodeId, out: Outcome) {
    && lead.log <= out.node.log && out.node.term == lead.term && |lead.log| > 0
    && out.node.commitIndex >= lead.commitIndex && out.node.lastApplied >= lead.commitIndex
    && out.sends == [Envelope(f, l, AppendResponse(lead.term, |lead.log| - 1, true))]
  }

  lemma MarkRepaired(c: Cluster, d: Cluster, l: NodeId, f: NodeId, out: Outcome)
    requires ClusterOk(d) && l in c.nodes && f in c.nodes && l != f && c.nodes[l].role.Leader?
    requires d.nodes == c.nodes[f := out.node] && Elems(out.sends) <= d.h.sent && TakesAll(c.nodes[l], l, f, out)
    ensures Repaired(c, d, l, f)
  {
    assert out.sends[0] in Elems(out.sends);
  }

  lemma AcceptedOutcome(c: Cluster, l: NodeId, f: NodeId, e: Envelope)
    requires Repairing(c, l, f) && e in c.h.sent && CanReceive(c.nodes[f], e.msg)
    requires e.msg.AppendRequest? && e.src == l && e.dst == f && e.msg.term == c.nodes[l].term
    requires AckedLength(e.msg) == |c.nodes[l].log| && e.msg.leaderCommit == c.nodes[l].commitIndex
    requires LogMatches(c.nodes[f], e.msg)
    ensures TakesAll(c.nodes[l], l, f, Handle(c.nodes[f], Deliver(e)))
  {
    AcceptedLogAt(c, l, f, e);
    AcceptedAnswerAt(c, l, f, e);
  }

  lemma AcceptedLogAt(c: Cluster, l: NodeId, f: NodeId, e: Envelope)
    requires Repairing(c, l, f) && e in c.h.sent && CanReceive(c.nodes[f], e.msg)
    requires e.msg.AppendRequest? && e.src == l && e.dst == f && e.msg.term == c.nodes[l].term
    requires AckedLength(e.msg) == |c.nodes[l].log| && LogMatches(c.nodes[f], e.msg)
    ensures |c.nodes[l].log| > 0 && c.nodes[l].log <= Handle(c.nodes[f], Deliver(e)).node.log
  {
    assert MemberOk(c, l) && MemberOk(c, f) && MessageOk(c.h, e);
    LeaderLogIs(c.h, c.nodes[l]);
    AcceptedLog(c.h, c.nodes[f], e);
  }

  lemma AcceptedAnswerAt(c: Cluster, l: NodeId, f: NodeId, e: Envelope)
    requires Repairing(c, l, f) && e in c.h.sent && CanReceive(c.nodes[f], e.msg)
    requires e.msg.AppendRequest? && e.src == l && e.dst == f && e.msg.term == c.nodes[l].term
    requires LogMatches(c.nodes[f], e.msg)
    ensures var out := Handle(c.nodes[f], Deliver(e));
            && out.sends == [Envelope(f, l, AppendResponse(e.msg.term, AckedLength(e.msg) - 1, true))]
            && out.node.term == e.msg.term
            && out.node.commitIndex >= e.msg.leaderCommit && out.node.lastApplied >= e.msg.leaderCommit
  {
    assert MemberOk(c, f) && MessageOk(c.h, e);
    AcceptedAnswer(c.h, c.nodes[f], e);
  }

  lemma LeaderLogIs(h: History, lead: Node)
    requires NodeOk(h, lead) && lead.role.Leader?
    ensures lead.term in h.leaderLog && h.leaderLog[lead.term] == lead.log && |lead.log| > 0
  {
  }

  lemma RejectOutcome(h: History, n: Node, e: Envelope)
    requires Receiving(h, n, e) && e.msg.AppendRequest? && CanReceive(n, e.msg)
    requires MessageOk(h, e) && e.msg.term >= n.term && !LogMatches(n, e.msg)
    ensures var m := AcceptLeader(n, e.msg);
            && Handle(n, Deliver(e)) == Outcome(m, [Envelope(n.id, e.src, Rejection(m, e.msg))], [])
            && m.term == e.msg.term && m.log == n.log && m.id == n.id
  {
    AcceptLeaderOk(h, n, e);
    assert e.src in Elems(n.peers);
  }

  /** The last index at which the follower can match a request that follows on `prev` and does not match. */
  function Hint(prev: nat, log: Log): nat
    requires |log| > 0
  {
    if prev < |log| then prev else |log| - 1
  }

  /** The next index after a rejection with a hint. */
  function BackTo(hint: nat): nat {
    if hint > 1 then hint - 1 else 1
  }

  /** A request that does not match comes back as a rejection with a hint below its start. */
  lemma Rejected(c: Cluster, l: NodeId, f: NodeId, e: Envelope) returns (d: Cluster, r: Envelope)
    requires Repairing(c, l, f) && e in c.h.sent
    requires e.msg.AppendRequest? && e.src == l && e.dst == f && e.msg.term == c.nodes[l].term
    requires !LogMatches(c.nodes[f], e.msg)
    ensures |c.nodes[f].log| > 0
    ensures Next(c, Deliver(e), d) && ClusterOk(d) && d.nodes.Keys == c.nodes.Keys
    ensures d.nodes[l] == c.nodes[l] && d.nodes[f].term == c.nodes[l].term
    ensures r in d.h.sent && r.src == f && r.dst == l && r.msg.AppendResponse?
    ensures r.msg.term == c.nodes[l].term && !r.msg.success && e.msg.prevLogIndex > 0
    ensures r.msg.matchIndex == Hint(e.msg.prevLogIndex, c.nodes[f].log)
    ensures d.nodes == c.nodes[f := d.nodes[f]] && d.nodes[f].log == c.nodes[f].log
  {
    var n := c.nodes[f];
    assert MemberOk(c, l);
    assert MemberOk(c, f);
    assert MessageOk(c.h, e);
    assert e.msg.prevLogIndex > 0 by {
      if e.msg.prevLogIndex == 0 {
        FirstRequestMatches(c.h, n, e);
      }
    }
    d := TakeStep(c, Deliver(e));
    RejectOutcome(c.h, n, e);
    r := Envelope(f, l, Rejection(AcceptLeader(n, e.msg), e.msg));
    assert r in Handle(n, Deliver(e)).sends;
  }

  /** A rejection takes the follower's next index to the one before its hint, which is strictly less, and changes
      nothing else of what the leader knows of its followers. */
  lemma BackUp(c: Cluster, l: NodeId, f: NodeId, r: Envelope) returns (d: Cluster)
    requires Repairing(c, l, f) && r in c.h.sent
    requires r.src == f && r.dst == l && r.msg.AppendResponse? && r.msg.term == c.nodes[l].term
    requires !r.msg.success && r.msg.matchIndex + 1 <= c.nodes[l].role.nextIndex[f]
    requires 1 < c.nodes[l].role.nextIndex[f]
    ensures Next(c, Deliver(r), d) && Repairing(d, l, f) && d.nodes == c.nodes[l := d.nodes[l]]
    ensures d.nodes[l].log == c.nodes[l].log && d.nodes[l].term == c.nodes[l].term
    ensures d.nodes[l].commitIndex >= c.nodes[l].commitIndex
    ensures d.nodes[l].role.nextIndex == c.nodes[l].role.nextIndex[f := BackTo(r.msg.matchIndex)]
    ensures d.nodes[l].role.matchIndex == c.nodes[l].role.matchIndex
    ensures 1 <= d.nodes[l].role.nextIndex[f] < c.nodes[l].role.nextIndex[f]
  {
    var lead := c.nodes[l];
    assert MemberOk(c, l);
    d := TakeStep(c, Deliver(r));
    ApplyKeeps(AdvanceCommit(RecordResponse(lead, f, r.msg)));
    assert MemberOk(d, l);
  }

  lemma ExtendPath(c: Cluster, ev: Event, d: Cluster, states: seq<Cluster>, events: seq<Event>)
    returns (ss: seq<Cluster>, es: seq<Event>)
    requires Next(c, ev, d) && IsPath(states, events) && states[0] == d
    ensures IsPath(ss, es) && ss[0] == c
    ensures |es| == |events| + 1 && ss[|es|] == states[|events|]
    ensures forall x :: x in es ==> x == ev || x in events
  {
    ss, es := [c] + states, [ev] + events;
    forall i | 0 <= i < |es|
      ensures StepAt(ss, es, i)
    {
      ShiftedStep(c, ev, states, events, i);
    }
  }

  lemma ShiftedStep(c: Cluster, ev: Event, states: seq<Cluster>, events: seq<Event>, i: nat)
    requires IsPath(states, events) && Next(c, ev, states[0]) && i <= |events|
    ensures StepAt([c] + states, [ev] + events, i)
  {
    var ss, es := [c] + states, [ev] + events;
    if i == 0 {
      assert ss[0] == c && ss[1] == states[0] && es[0] == ev;
      SameStep(c, ev, states[0], ss, es, 0);
    } else {
      assert ss[i] == states[i - 1] && ss[i + 1] == states[i] && es[i] == events[i - 1];
      assert StepAt(states, events, i - 1);
      SameStep(states[i - 1], events[i - 1], states[i], ss, es, i);
    }
  }

  lemma SameStep(c: Cluster, ev: Event, d: Cluster, states: seq<Cluster>, events: seq<Event>, i: nat)
    requires i < |events| < |states| && states[i] == c && events[i] == ev && states[i + 1] == d && Next(c, ev, d)
    ensures StepAt(states, events, i)
  {
  }

  lemma EmptyPath(c: Cluster)
    ensures IsPath([c], [])
  {
  }

  /** What the exchange leaves alone: the leader's view of its other followers, and all other nodes. */
  ghost predicate OthersKept(c: Cluster, d: Cluster, l: NodeId, f: NodeId) {
    && l in c.nodes && l in d.nodes && c.nodes[l].role.Leader? && d.nodes[l].role.Leader?
    && d.nodes[l].role.matchIndex == c.nodes[l].role.matchIndex
    && d.nodes[l].commitIndex >= c.nodes[l].commitIndex
    && d.nodes.Keys == c.nodes.Keys && forall p :: p in c.nodes && p != l && p != f ==> d.nodes[p] == c.nodes[p]
  }

  /** One round that fails. */
  lemma RejectedRound(c: Cluster, l: NodeId, f: NodeId, c1: Cluster, e: Envelope)
    returns (c2: Cluster, r: Envelope, c3: Cluster)
    requires Repairing(c, l, f) && Repairing(c1, l, f) && c1.nodes == c.nodes && e in c1.h.sent
    requires 1 <= c.nodes[l].role.nextIndex[f] <= |c.nodes[l].log| && e == AppendRequestTo(c.nodes[l], f) && e.src == l
    requires !LogMatches(c1.nodes[f], e.msg)
    ensures Next(c1, Deliver(e), c2) && r.src == f && r.dst == l && Next(c2, Deliver(r), c3)
    ensures Repairing(c3, l, f) && OthersKept(c, c3, l, f)
    ensures c3.nodes[l].log == c.nodes[l].log && c3.nodes[l].term == c.nodes[l].term
    ensures |c.nodes[f].log| > 0 && c3.nodes[f].log == c.nodes[f].log
    ensures c3.nodes[l].role.nextIndex[f] == BackTo(Hint(c.nodes[l].role.nextIndex[f] - 1, c.nodes[f].log))
    ensures c3.nodes[l].role.nextIndex[f] < c.nodes[l].role.nextIndex[f]
  {
    c2, r := Rejected(c1, l, f, e);
    c3 := BackUp(c2, l, f, r);
  }

  /** Back-off terminates: from any point of a run, exchanges between a leader and a follower that is not ahead of
      it reach a state where the leader's log is a prefix of the follower's. The rounds, of three events each, are
      no more than the next index, and no more than the follower's log and one. */
  lemma BackOffTerminates(c: Cluster, l: NodeId, f: NodeId) returns (states: seq<Cluster>, events: seq<Event>)
    requires Repairing(c, l, f)
    ensures IsPath(states, events) && states[0] == c
    ensures |events| <= 3 * c.nodes[l].role.nextIndex[f] && |events| <= 3 * (|c.nodes[f].log| + 1)
    ensures forall ev :: ev in events ==> Between(ev, l, f)
    ensures Repaired(c, states[|events|], l, f) && OthersKept(c, states[|events|], l, f)
    decreases c.nodes[l].role.nextIndex[f]
  {
    var c1, e := Ask(c, l, f);
    if LogMatches(c1.nodes[f], e.msg) {
      states, events := AcceptedPath(c1, l, f, e);
      RepairedSame(c, c1, states[|events|], l, f);
    } else {
      var c2, r, c3 := RejectedRound(c, l, f, c1, e);
      states, events := BackOffTerminates(c3, l, f);
      RepairedSame(c, c3, states[|events|], l, f);
      states, events := TwoMore(c1, e, c2, r, c3, l, f, states, events);
    }
    states, events := ExtendPath(c, Heartbeat(l), c1, states, events);
  }

  lemma AcceptedPath(c: Cluster, l: NodeId, f: NodeId, e: Envelope) returns (states: seq<Cluster>, events: seq<Event>)
    requires Repairing(c, l, f) && e in c.h.sent
    requires e.msg.AppendRequest? && e.src == l && e.dst == f && e.msg.term == c.nodes[l].term
    requires AckedLength(e.msg) == |c.nodes[l].log| && e.msg.leaderCommit == c.nodes[l].commitIndex
    requires LogMatches(c.nodes[f], e.msg)
    ensures IsPath(states, events) && states[0] == c && |events| == 1
    ensures forall ev :: ev in events ==> Between(ev, l, f)
    ensures Repaired(c, states[1], l, f) && OthersKept(c, states[1], l, f)
  {
    var d := Accepted(c, l, f, e);
    EmptyPath(d);
    states, events := ExtendPath(c, Deliver(e), d, [d], []);
  }

  lemma TwoMore(c: Cluster, e: Envelope, b: Cluster, r: Envelope, d: Cluster, l: NodeId, f: NodeId,
                states: seq<Cluster>, events: seq<Event>)
    returns (ss: seq<Cluster>, es: seq<Event>)
    requires Next(c, Deliver(e), b) && Next(b, Deliver(r), d) && e.src == l && e.dst == f && r.src == f && r.dst == l
    requires IsPath(states, events) && states[0] == d && forall ev :: ev in events ==> Between(ev, l, f)
    ensures IsPath(ss, es) && ss[0] == c && |es| == |events| + 2 && ss[|es|] == states[|events|]
    ensures forall ev :: ev in es ==> Between(ev, l, f)
  {
    ss, es := ExtendPath(b, Deliver(r), d, states, events);
    ss, es := ExtendPath(c, Deliver(e), b, ss, es);
  }

  lemma RepairedSame(c: Cluster, b: Cluster, d: Cluster, l: NodeId, f: NodeId)
    requires Repaired(b, d, l, f) && OthersKept(b, d, l, f) && OthersKept(c, b, l, f) && f in c.nodes
    requires b.nodes[l].log == c.nodes[l].log && b.nodes[l].term == c.nodes[l].term
    ensures Repaired(c, d, l, f) && OthersKept(c, d, l, f)
  {
  }
}
