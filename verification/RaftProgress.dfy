/** A leader that can reach a majority commits its whole log, and its clients are answered. */
module RaftProgress {
  import opened Collections
  import opened RaftTypes
  import opened RaftHandlers
  import opened RaftHistory
  import opened RaftReplication
  import opened RaftCluster
  import opened RaftLiveness
  import opened RaftElectability
  import opened RaftCommit
  import opened RaftTickets

  // ----- One follower -----

  /** The follower's answer is recorded: it holds everything, and the next request follows on the whole log. */
  lemma {:induction false} AckIsRecorded(c: Cluster, l: NodeId, f: NodeId) returns (d: Cluster, r: Envelope)
    requires ClusterOk(c) && l in c.nodes && f in c.nodes && l != f && c.nodes[l].role.Leader? && |c.nodes[l].log| > 0
    requires Envelope(f, l, AppendResponse(c.nodes[l].term, |c.nodes[l].log| - 1, true)) in c.h.sent
    ensures r.src == f && r.dst == l && Next(c, Deliver(r), d) && ClusterOk(d)
    ensures d.nodes == c.nodes[l := d.nodes[l]] && d.h.members == c.h.members
    ensures var n, m := c.nodes[l], d.nodes[l];
            && m.role == Leader(n.role.nextIndex[f := |n.log|], n.role.matchIndex[f := |n.log| - 1])
            && m.log == n.log && m.term == n.term
  {
    var n := c.nodes[l];
    r := Envelope(f, l, AppendResponse(n.term, |n.log| - 1, true));
    assert MemberOk(c, l);
    d := TakeStep(c, Deliver(r));
    RecordedAck(n, f, r.msg);
  }

  lemma {:induction false} RecordedAck(n: Node, f: NodeId, msg: Message)
    requires n.role.Leader? && n.commitIndex < |n.log| && msg == AppendResponse(n.term, |n.log| - 1, true)
    ensures var m := OnAppendResponse(n, f, msg).node;
            && m.role == Leader(n.role.nextIndex[f := |n.log|], n.role.matchIndex[f := |n.log| - 1])
            && m.log == n.log && m.term == n.term
  {
    ApplyKeeps(AdvanceCommit(RecordResponse(n, f, msg)));
  }

  /** What an exchange with follower `f` makes of the leader. */
  ghost predicate Replicated(c: Cluster, d: Cluster, l: NodeId, f: NodeId) {
    && ClusterOk(d) && d.h.members == c.h.members && d.nodes.Keys == c.nodes.Keys && l in c.nodes && f in c.nodes
    && c.nodes[l].role.Leader? && d.nodes[l].role.Leader? && |c.nodes[l].log| > 0
    && d.nodes[l].log == c.nodes[l].log && d.nodes[l].term == c.nodes[l].term
    && d.nodes[l].role.matchIndex == c.nodes[l].role.matchIndex[f := |c.nodes[l].log| - 1]
    && c.nodes[l].log <= d.nodes[f].log && d.nodes[f].term == c.nodes[l].term
    && forall p :: p in c.nodes && p != l && p != f ==> d.nodes[p] == c.nodes[p]
  }

  lemma {:induction false} Replicates(c: Cluster, l: NodeId, f: NodeId)
    returns (states: seq<Cluster>, events: seq<Event>)
    requires Repairing(c, l, f)
    ensures IsPath(states, events) && states[0] == c && forall ev :: ev in events ==> Between(ev, l, f)
    ensures Replicated(c, states[|events|], l, f)
  {
    states, events := BackOffTerminates(c, l, f);
    var b := states[|events|];
    PathMembers(states, events);
    var d, r := AckIsRecorded(b, l, f);
    states, events := OneMore(states, events, Deliver(r), d);
  }

  lemma {:induction false} OneMore(states: seq<Cluster>, events: seq<Event>, ev: Event, d: Cluster)
    returns (ss: seq<Cluster>, es: seq<Event>)
    requires IsPath(states, events) && Next(states[|events|], ev, d)
    ensures IsPath(ss, es) && ss[0] == states[0] && |es| == |events| + 1 && ss[|es|] == d
    ensures forall x :: x in es ==> x == ev || x in events
  {
    ss, es := states + [d], events + [ev];
    forall i | 0 <= i < |es|
      ensures StepAt(ss, es, i)
    {
      if i < |events| {
        assert StepAt(states, events, i);
      }
    }
  }

  lemma {:induction false} Append(a: seq<Cluster>, x: seq<Event>, b: seq<Cluster>, y: seq<Event>)
    returns (ss: seq<Cluster>, es: seq<Event>)
    requires IsPath(a, x) && IsPath(b, y) && a[|x|] == b[0]
    ensures IsPath(ss, es) && ss[0] == a[0] && |es| == |x| + |y| && ss[|es|] == b[|y|]
    ensures forall e :: e in es <==> e in x || e in y
  {
    ss, es := a + b[1..], x + y;
    forall i | 0 <= i < |es|
      ensures StepAt(ss, es, i)
    {
      if i < |x| {
        assert StepAt(a, x, i);
      } else {
        assert StepAt(b, y, i - |x|);
      }
    }
  }

  // ----- Commands are sent at once -----

  /** A leader that takes a command sends every follower a request that ends with it. */
  lemma {:induction false} CommandIsSent(c: Cluster, ev: Event, d: Cluster, p: NodeId)
    requires ClusterOk(c) && Next(c, ev, d) && ev.Client? && c.nodes[ev.id].role.Leader?
    requires p in c.h.members && p != ev.id
    ensures exists e: Envelope ::
              && e in d.h.sent && e.src == ev.id && e.dst == p && e.msg.AppendRequest?
              && e.msg.term == c.nodes[ev.id].term && e.msg.prevLogIndex + |e.msg.entries| == |c.nodes[ev.id].log|
              && |e.msg.entries| > 0 && e.msg.entries[|e.msg.entries| - 1] == Entry(e.msg.term, Apply(ev.command))
  {
    var n := c.nodes[ev.id];
    assert MemberOk(c, ev.id);
    LeaderIndices(c.h, n);
    assert p in Elems(n.peers);
    var e := CommandRequest(n, ev.command, ev.ticket, p);
    assert e in Elems(ClientApply(n, ev.command, ev.ticket).sends);
  }

  lemma {:induction false} CommandRequest(n: Node, command: Command, ticket: Ticket, p: NodeId) returns (e: Envelope)
    requires Ready(n) && n.role.Leader? && p in n.peers
    ensures e in ClientApply(n, command, ticket).sends && e.src == n.id && e.dst == p && e.msg.AppendRequest?
    ensures e.msg.term == n.term && e.msg.prevLogIndex + |e.msg.entries| == |n.log|
    ensures |e.msg.entries| > 0 && e.msg.entries[|e.msg.entries| - 1] == Entry(n.term, Apply(command))
  {
    var i :| 0 <= i < |n.peers| && n.peers[i] == p;
    var m := ClientApply(n, command, ticket).node;
    ApplyKeeps(AdvanceCommit(ClientAppend(n, command, ticket)));
    e := AppendRequestTo(m, p);
    assert Heartbeats(m)[i] == e;
  }

  // ----- What a path keeps -----

  lemma {:induction false} PathMembers(states: seq<Cluster>, events: seq<Event>)
    requires IsPath(states, events) && ClusterOk(states[0])
    ensures ClusterOk(states[|events|]) && states[|events|].h.members == states[0].h.members
    decreases |events|
  {
    if events != [] {
      var n := |events| - 1;
      Front(states, events);
      PathMembers(states[..n + 1], events[..n]);
      NextPreserves(states[n], events[n], states[n + 1]);
    }
  }

  lemma {:induction false} Front(states: seq<Cluster>, events: seq<Event>)
    requires IsPath(states, events) && events != []
    ensures IsPath(states[..|events|], events[..|events| - 1])
    ensures Next(states[|events| - 1], events[|events| - 1], states[|events|])
  {
    assert StepAt(states, events, |events| - 1);
    var ss, es := states[..|events|], events[..|events| - 1];
    forall i | 0 <= i < |es|
      ensures StepAt(ss, es, i)
    {
      assert StepAt(states, events, i);
    }
  }

  lemma {:induction false} PathCurrent(states: seq<Cluster>, events: seq<Event>)
    requires IsPath(states, events) && ClusterOk(states[0]) && AllCurrent(states[0])
    ensures AllCurrent(states[|events|])
    decreases |events|
  {
    if events != [] {
      var n := |events| - 1;
      Front(states, events);
      PathCurrent(states[..n + 1], events[..n]);
      PathMembers(states[..n + 1], events[..n]);
      StepCurrent(states[n], events[n], states[n + 1]);
    }
  }

  lemma {:induction false} StepCurrent(c: Cluster, ev: Event, d: Cluster)
    requires ClusterOk(c) && AllCurrent(c) && Next(c, ev, d)
    ensures AllCurrent(d)
  {
    CommitStepExact(c, ev, d);
  }

  ghost predicate Exchange(ev: Event, l: NodeId, q: set<NodeId>) {
    exists p {:trigger Between(ev, l, p)} :: p in q && Between(ev, l, p)
  }

  lemma {:induction false} PathFate(states: seq<Cluster>, events: seq<Event>, l: NodeId, q: set<NodeId>, i: nat,
                                    k: Ticket)
    requires IsPath(states, events) && ClusterOk(states[0]) && TicketsOk(states[0]) && Fate(states[0], l, i, k)
    requires forall ev :: ev in events ==> Exchange(ev, l, q)
    ensures TicketsOk(states[|events|]) && Fate(states[|events|], l, i, k)
    decreases |events|
  {
    if events != [] {
      var n := |events| - 1;
      Front(states, events);
      PathFate(states[..n + 1], events[..n], l, q, i, k);
      PathMembers(states[..n + 1], events[..n]);
      assert Exchange(events[n], l, q);
      ExchangeFate(states[n], events[n], states[n + 1], l, q, i, k);
    }
  }

  lemma {:induction false} ExchangeFate(c: Cluster, ev: Event, d: Cluster, l: NodeId, q: set<NodeId>, i: nat, k: Ticket)
    requires ClusterOk(c) && TicketsOk(c) && Next(c, ev, d) && Fate(c, l, i, k) && Exchange(ev, l, q)
    ensures TicketsOk(d) && Fate(d, l, i, k)
  {
    StepTickets(c, ev, d);
    FateStep(c, ev, d, l, i, k);
  }

  // ----- A majority -----

  /** `l` leads, and no node of the majority `q` is in a later term. */
  ghost predicate Reaching(c: Cluster, l: NodeId, q: set<NodeId>) {
    && ClusterOk(c) && l in c.nodes && c.nodes[l].role.Leader?
    && l in q && q <= c.h.members && 2 * |q| > |c.h.members|
    && forall p {:trigger c.nodes[p]} :: p in q ==> p in c.nodes && c.nodes[p].term <= c.nodes[l].term
  }

  /** The nodes `done` are known to hold the whole log. */
  ghost predicate Known(c: Cluster, l: NodeId, done: set<NodeId>)
    requires l in c.nodes && c.nodes[l].role.Leader?
  {
    forall p :: p in done ==> p in c.nodes[l].role.matchIndex && c.nodes[l].role.matchIndex[p] + 1 >= |c.nodes[l].log|
  }

  lemma {:induction false} LeadsTo(c: Cluster, l: NodeId, f: NodeId)
    requires ClusterOk(c) && l in c.nodes && c.nodes[l].role.Leader? && f in c.nodes && f != l
    requires c.nodes[f].term <= c.nodes[l].term
    ensures Repairing(c, l, f)
  {
    assert MemberOk(c, l);
  }

  lemma {:induction false} ReplicatesAll(c: Cluster, l: NodeId, q: set<NodeId>, done: set<NodeId>, ps: seq<NodeId>)
    returns (states: seq<Cluster>, events: seq<Event>)
    requires Reaching(c, l, q) && Known(c, l, done) && Elems(ps) <= q - {l} && NoRepeats(ps)
    ensures IsPath(states, events) && states[0] == c && forall ev :: ev in events ==> Exchange(ev, l, q)
    ensures var d := states[|events|];
            && Reaching(d, l, q) && d.h.members == c.h.members
            && d.nodes[l].log == c.nodes[l].log && d.nodes[l].term == c.nodes[l].term
            && Known(d, l, done + Elems(ps))
    decreases |ps|
  {
    if ps == [] {
      EmptyPath(c);
      states, events := [c], [];
    } else {
      var p := ps[0];
      assert p in Elems(ps) && ps == [p] + ps[1..];
      NoRepeatsConcat([p], ps[1..]);
      ElemsConcat([p], ps[1..]);
      assert Elems([p]) == {p};
      LeadsTo(c, l, p);
      var a, x := Replicates(c, l, p);
      assert forall ev :: ev in x ==> Exchange(ev, l, q);
      var b := a[|x|];
      StillReaching(c, b, l, p, q, done);
      var s, y := ReplicatesAll(b, l, q, done + {p}, ps[1..]);
      assert done + {p} + Elems(ps[1..]) == done + Elems(ps);
      states, events := Append(a, x, s, y);
    }
  }

  lemma {:induction false} StillReaching(c: Cluster, d: Cluster, l: NodeId, f: NodeId, q: set<NodeId>,
                                         done: set<NodeId>)
    requires Reaching(c, l, q) && Known(c, l, done) && Replicated(c, d, l, f)
    ensures Reaching(d, l, q) && Known(d, l, done + {f})
  {
  }

  /** Replication makes progress: in any state of a run, a leader whose majority is in no later term can commit and
      apply its whole log by exchanges with that majority. */
  lemma {:induction false} CommitReachable(c: Cluster, l: NodeId, q: set<NodeId>)
    returns (states: seq<Cluster>, events: seq<Event>)
    requires Reaching(c, l, q) && AllCurrent(c)
    ensures IsPath(states, events) && states[0] == c && forall ev :: ev in events ==> Exchange(ev, l, q)
    ensures ClusterOk(states[|events|]) && l in states[|events|].nodes
    ensures var n, m := c.nodes[l], states[|events|].nodes[l];
            && m.role.Leader? && m.term == n.term && m.log == n.log
            && m.commitIndex == m.lastApplied == |m.log| - 1 && m.machine == Commands(m.log)
  {
    var ps := Listed(q - {l});
    states, events := ReplicatesAll(c, l, q, {}, ps);
    PathCurrent(states, events);
    AllKnownCommits(states[|events|], l, q);
  }

  lemma {:induction false} AllKnownCommits(c: Cluster, l: NodeId, q: set<NodeId>)
    requires Reaching(c, l, q) && AllCurrent(c) && Known(c, l, q - {l})
    ensures var m := c.nodes[l];
            m.commitIndex == m.lastApplied == |m.log| - 1 && m.machine == Commands(m.log)
  {
    var m := c.nodes[l];
    assert MemberOk(c, l) && Current(c.h.members, m);
    assert LeaderLogOk(c.h.leaderLog, m.term);
    assert Backed(c.h.members, m, q, |m.log| - 1);
    assert m.log[..m.lastApplied + 1] == m.log;
  }

  /** Clients are served: whoever waits at the leader for a command in its log is answered on the way, with the
      commands up to its own. */
  lemma {:induction false} ClientIsServed(c: Cluster, l: NodeId, q: set<NodeId>, i: nat)
    returns (states: seq<Cluster>, events: seq<Event>)
    requires Reaching(c, l, q) && AllCurrent(c) && TicketsOk(c)
    requires i in c.nodes[l].pending && c.nodes[l].lastApplied < i < |c.nodes[l].log|
             && c.nodes[l].log[i].command.Apply?
    ensures IsPath(states, events) && states[0] == c && forall ev :: ev in events ==> Exchange(ev, l, q)
    ensures var n := c.nodes[l];
            Answer(n.pending[i], i, n.log[i], Commands(n.log[..i + 1])) in states[|events|].h.answers
  {
    states, events := CommitReachable(c, l, q);
    assert WaitsRightly(c, l, i);
    PathFate(states, events, l, q, i, c.nodes[l].pending[i]);
  }
}
