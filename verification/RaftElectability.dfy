/** A node whose log is not behind those of a majority can be elected. */
module RaftElectability {
  import opened Collections
  import opened RaftTypes
  import opened RaftHandlers
  import opened RaftHistory
  import opened RaftElection
  import opened RaftCluster
  import opened RaftLiveness
  import opened RaftTerms

  /** The log of `a` is not behind that of `b`: its last entry is of a later term, or of the same term and the log
      is not shorter. */
  predicate NotBehind(a: Log, b: Log)
    requires |a| > 0 && |b| > 0
  {
    var s, t := a[|a| - 1].term, b[|b| - 1].term;
    s > t || (s == t && |a| >= |b|)
  }

  /** What a candidate of term `u` asks of another node. */
  function Plea(l: NodeId, q: NodeId, u: Term, log: Log): Envelope
    requires |log| > 0
  {
    Envelope(l, q, VoteRequest(u, l, |log| - 1, log[|log| - 1].term))
  }

  function Yes(q: NodeId, l: NodeId, u: Term): Envelope {
    Envelope(q, l, VoteResponse(u, true))
  }

  /** `q` has not been asked in term `u` yet, and will vote. */
  ghost predicate Willing(c: Cluster, l: NodeId, q: NodeId, u: Term, log: Log)
    requires |log| > 0
  {
    && q in c.nodes && q != l && c.nodes[q].term < u
    && |c.nodes[q].log| > 0 && NotBehind(log, c.nodes[q].log)
    && Plea(l, q, u, log) in c.h.sent && Plea(l, q, u, log) !in c.h.consumed
  }

  /** `l` stands in term `u` with `log`, has `k` votes, and the nodes `qs` are willing and enough. */
  ghost predicate Campaigning(c: Cluster, l: NodeId, u: Term, log: Log, k: nat, qs: seq<NodeId>) {
    && ClusterOk(c) && l in c.nodes && |log| > 0
    && c.nodes[l].term == u && c.nodes[l].log == log && c.nodes[l].role == Candidate(k)
    && 2 * k <= |c.h.members| < 2 * (k + |qs|) && NoRepeats(qs)
    && forall q {:trigger Willing(c, l, q, u, log)} :: q in qs ==> Willing(c, l, q, u, log)
  }

  lemma {:induction false} MembersCount(c: Cluster, l: NodeId)
    requires ClusterOk(c) && l in c.nodes
    ensures |c.h.members| == |c.nodes[l].peers| + 1 && Elems(c.nodes[l].peers) == c.h.members - {l}
  {
    assert MemberOk(c, l);
    NoRepeatsCardinality(c.nodes[l].peers);
    assert c.h.members == Elems(c.nodes[l].peers) + {l};
  }

  /** One vote: the request is delivered, and granted. */
  lemma {:induction false} Grant(c: Cluster, l: NodeId, q: NodeId, u: Term, log: Log) returns (d: Cluster)
    requires ClusterOk(c) && l in c.nodes && |log| > 0 && Willing(c, l, q, u, log)
    ensures Next(c, Deliver(Plea(l, q, u, log)), d) && ClusterOk(d)
    ensures d.nodes == c.nodes[q := d.nodes[q]] && d.h.members == c.h.members
    ensures c.h.sent <= d.h.sent && d.h.consumed == c.h.consumed + {Plea(l, q, u, log)}
    ensures Yes(q, l, u) in d.h.sent && Yes(q, l, u) !in d.h.consumed
  {
    var n, e := c.nodes[q], Plea(l, q, u, log);
    assert MemberOk(c, q) && MemberOk(c, l);
    assert l in Elems(n.peers);
    GrantedIff(n, l, e.msg);
    d := TakeStep(c, Deliver(e));
    var out := Handle(n, Deliver(e));
    assert out.sends[0] == Yes(q, l, u);
    assert Yes(q, l, u) in Elems(out.sends);
    assert Yes(q, l, u) !in c.h.sent;
    DeliverTraffic(c, e, d);
  }

  /** What a delivery does to the traffic. */
  lemma {:induction false} DeliverTraffic(c: Cluster, e: Envelope, d: Cluster)
    requires Next(c, Deliver(e), d)
    ensures d.h.members == c.h.members
    ensures d.h.consumed == if e.msg.VoteRequest? || e.msg == VoteResponse(e.msg.term, true) then c.h.consumed + {e}
                            else c.h.consumed
    ensures d.h.sent == c.h.sent + Elems(Handle(c.nodes[e.dst], Deliver(e)).sends)
  {
    var n := c.nodes[e.dst];
    ReceivedKeeps(Consume(c.h, e), n, e.msg);
    ReceivedMembers(Consume(c.h, e), n, e.msg);
  }

  lemma {:induction false} ReceivedMembers(h: History, n: Node, msg: Message)
    ensures Received(h, n, msg).members == h.members
  {
  }

  /** The vote is counted. */
  lemma {:induction false} Count(c: Cluster, l: NodeId, q: NodeId, u: Term, k: nat) returns (d: Cluster)
    requires ClusterOk(c) && l in c.nodes && c.nodes[l].term == u && c.nodes[l].role == Candidate(k)
    requires Yes(q, l, u) in c.h.sent && Yes(q, l, u) !in c.h.consumed
    ensures Next(c, Deliver(Yes(q, l, u)), d) && ClusterOk(d)
    ensures d.nodes == c.nodes[l := d.nodes[l]] && d.h.members == c.h.members && c.h.sent <= d.h.sent
    ensures d.h.consumed == c.h.consumed + {Yes(q, l, u)}
    ensures 2 * (k + 1) <= |c.h.members| ==> d.nodes[l] == c.nodes[l].(role := Candidate(k + 1))
    ensures 2 * (k + 1) > |c.h.members| ==> Elected(c, d, l, u)
  {
    var n, e := c.nodes[l], Yes(q, l, u);
    assert MemberOk(c, l);
    MembersCount(c, l);
    d := TakeStep(c, Deliver(e));
    DeliverTraffic(c, e, d);
    if 2 * (k + 1) > |c.h.members| {
      CountedLeads(n, e.msg);
      Leads(c, d, l, CountVote(n));
    }
  }

  lemma {:induction false} CountedLeads(n: Node, msg: Message)
    requires n.commitIndex < |n.log| && n.role.Candidate? && msg == VoteResponse(n.term, true)
    requires 2 * (n.role.votesReceived + 1) > |n.peers| + 1
    ensures OnVoteResponse(n, msg) == BecomeLeader(CountVote(n))
  {
  }

  /** `l` leads term `u`: its log is the old one and its own first entry, it knows of no follower's log yet, and has
      sent each of them a request that follows on its whole log. */
  ghost predicate Elected(c: Cluster, d: Cluster, l: NodeId, u: Term) {
    && l in c.nodes && l in d.nodes
    && var n, m := c.nodes[l], d.nodes[l];
       && m.term == u && m.log == n.log + [Entry(u, NoOp)] && m.role.Leader?
       && (forall p :: p in c.h.members && p != l ==>
             && p in m.role.matchIndex && m.role.matchIndex[p] == 0
             && p in m.role.nextIndex && m.role.nextIndex[p] == |m.log|
             && Envelope(l, p, AppendRequest(u, l, |n.log|, u, [], m.commitIndex)) in d.h.sent)
  }

  /** What is sent when the lead is taken. */
  lemma {:induction false} FirstRequests(n: Node, i: nat)
    requires n.commitIndex < |n.log| && i < |n.peers|
    ensures var out := BecomeLeader(n);
            var m := out.node;
            && m.role == TakeLead(n).role && m.log == n.log + [Entry(n.term, NoOp)] && m.term == n.term && m.id == n.id
            && Envelope(n.id, n.peers[i], AppendRequest(n.term, n.id, |n.log|, n.term, [], m.commitIndex)) in out.sends
  {
    ApplyKeeps(AdvanceCommit(TakeLead(n)));
    var m := BecomeLeader(n).node;
    assert n.peers[i] in m.peers;
    assert m.log[|n.log| + 1..] == [];
    assert Heartbeats(m)[i] == AppendRequestTo(m, n.peers[i]);
  }

  lemma {:induction false} Leads(c: Cluster, d: Cluster, l: NodeId, n: Node)
    requires l in c.nodes && l in d.nodes && n.commitIndex < |n.log| && n.id == l
    requires Elems(n.peers) == c.h.members - {l} && n.log == c.nodes[l].log
    requires d.nodes[l] == BecomeLeader(n).node && Elems(BecomeLeader(n).sends) <= d.h.sent
    ensures Elected(c, d, l, n.term)
  {
    ApplyKeeps(AdvanceCommit(TakeLead(n)));
    forall p | p in c.h.members && p != l
      ensures p in n.peers
      ensures Envelope(l, p, AppendRequest(n.term, l, |n.log|, n.term, [], d.nodes[l].commitIndex)) in d.h.sent
    {
      assert p in Elems(n.peers);
      var i :| 0 <= i < |n.peers| && n.peers[i] == p;
      FirstRequests(n, i);
    }
  }

  // ----- The campaign -----

  lemma {:induction false} StartCampaign(c: Cluster, l: NodeId) returns (d: Cluster)
    requires ClusterOk(c) && l in c.nodes && !c.nodes[l].role.Leader?
    ensures Next(c, Timeout(l), d) && ClusterOk(d) && d.nodes == c.nodes[l := d.nodes[l]]
    ensures d.h.members == c.h.members && d.h.consumed == c.h.consumed
    ensures var n, u := c.nodes[l], c.nodes[l].term + 1;
            && |n.log| > 0
            && (|c.h.members| == 1 ==> Elected(c, d, l, u))
            && (|c.h.members| > 1 ==>
                  && d.nodes[l].term == u && d.nodes[l].log == n.log && d.nodes[l].role == Candidate(1)
                  && forall q :: q in c.nodes && q != l ==> Plea(l, q, u, n.log) in d.h.sent)
  {
    var n := c.nodes[l];
    assert MemberOk(c, l);
    MembersCount(c, l);
    d := TakeStep(c, Timeout(l));
    TimeoutTraffic(c, l, d);
    if |c.h.members| == 1 {
      Leads(c, d, l, StartCandidacy(n));
    } else {
      PleasAreSent(c, l, d);
    }
  }

  lemma {:induction false} PleasAreSent(c: Cluster, l: NodeId, d: Cluster)
    requires ClusterOk(c) && l in c.nodes && c.nodes[l].commitIndex < |c.nodes[l].log| && |c.nodes[l].peers| > 0
    requires Elems(BecomeCandidate(c.nodes[l]).sends) <= d.h.sent
    ensures forall q :: q in c.nodes && q != l ==> Plea(l, q, c.nodes[l].term + 1, c.nodes[l].log) in d.h.sent
  {
    var n := c.nodes[l];
    assert MemberOk(c, l);
    forall q | q in c.nodes && q != l
      ensures Plea(l, q, n.term + 1, n.log) in d.h.sent
    {
      PleaIsSent(n, q);
    }
  }

  lemma {:induction false} TimeoutTraffic(c: Cluster, l: NodeId, d: Cluster)
    requires l in c.nodes && c.nodes[l].id == l && Next(c, Timeout(l), d)
    ensures d.h.members == c.h.members && d.h.consumed == c.h.consumed && d.nodes == c.nodes[l := d.nodes[l]]
    ensures var n := c.nodes[l];
            && n.commitIndex < |n.log| && d.nodes[l] == BecomeCandidate(n).node
            && d.h.sent == c.h.sent + Elems(BecomeCandidate(n).sends)
            && if |n.peers| == 0 then BecomeCandidate(n) == BecomeLeader(StartCandidacy(n))
               else BecomeCandidate(n).node == StartCandidacy(n)
  {
    StandsOrLeads(c.nodes[l]);
    TimeoutFacts(c.h, c.nodes[l], l);
  }

  lemma {:induction false} StandsOrLeads(n: Node)
    requires n.commitIndex < |n.log|
    ensures if |n.peers| == 0 then BecomeCandidate(n) == BecomeLeader(StartCandidacy(n))
            else BecomeCandidate(n).node == StartCandidacy(n)
  {
  }

  lemma {:induction false} TimeoutFacts(h: History, n: Node, l: NodeId)
    ensures var f := Facts(h, n, Timeout(l));
            f.members == h.members && f.consumed == h.consumed && f.sent == h.sent
  {
  }

  lemma {:induction false} PleaIsSent(n: Node, q: NodeId)
    requires n.commitIndex < |n.log| && |n.peers| > 0 && q in Elems(n.peers)
    ensures Plea(n.id, q, n.term + 1, n.log) in BecomeCandidate(n).sends
  {
    var i :| 0 <= i < |n.peers| && n.peers[i] == q;
    assert VoteRequests(StartCandidacy(n))[i] == Plea(n.id, q, n.term + 1, n.log);
  }

  /** The traffic of an election. */
  ghost predicate Campaign(ev: Event, l: NodeId, qs: set<NodeId>) {
    || ev == Timeout(l)
    || (ev.Deliver? && ev.e.src == l && ev.e.dst in qs && ev.e.msg.VoteRequest?)
    || (ev.Deliver? && ev.e.src in qs && ev.e.dst == l && ev.e.msg.VoteResponse?)
  }

  lemma {:induction false} StillWilling(c: Cluster, d: Cluster, l: NodeId, q: NodeId, p: NodeId, u: Term, log: Log)
    requires |log| > 0 && Willing(c, l, p, u, log) && p != q
    requires p in d.nodes && d.nodes[p] == c.nodes[p] && c.h.sent <= d.h.sent
    requires d.h.consumed == c.h.consumed + {Plea(l, q, u, log)} + {Yes(q, l, u)}
    ensures Willing(d, l, p, u, log)
  {
  }

  /** The next willing node votes. */
  lemma {:induction false} NextVote(c: Cluster, l: NodeId, u: Term, log: Log, k: nat, qs: seq<NodeId>)
    returns (d: Cluster, f: Cluster)
    requires Campaigning(c, l, u, log, k, qs) && qs != []
    ensures Next(c, Deliver(Plea(l, qs[0], u, log)), d) && Next(d, Deliver(Yes(qs[0], l, u)), f)
    ensures f.h.members == c.h.members
    ensures 2 * (k + 1) > |c.h.members| ==> Elected(c, f, l, u)
    ensures 2 * (k + 1) <= |c.h.members| ==>
              Campaigning(f, l, u, log, k + 1, qs[1..]) && f.nodes[l].log == c.nodes[l].log
  {
    var q := qs[0];
    assert Willing(c, l, q, u, log);
    d := Grant(c, l, q, u, log);
    f := Count(d, l, q, u, k);
    if 2 * (k + 1) <= |c.h.members| {
      forall p | p in qs[1..]
        ensures Willing(f, l, p, u, log)
      {
        var i :| 0 <= i < |qs[1..]| && qs[1..][i] == p;
        assert qs[i + 1] == p;
        assert Willing(c, l, p, u, log);
        StillWilling(c, f, l, q, p, u, log);
      }
    }
  }

  lemma {:induction false} Campaigns(c: Cluster, l: NodeId, u: Term, log: Log, k: nat, qs: seq<NodeId>)
    returns (states: seq<Cluster>, events: seq<Event>)
    requires Campaigning(c, l, u, log, k, qs)
    ensures IsPath(states, events) && states[0] == c && |events| <= 2 * |qs|
    ensures forall ev :: ev in events ==> Campaign(ev, l, Elems(qs))
    ensures Elected(c, states[|events|], l, u)
    decreases |qs|
  {
    var d, f := NextVote(c, l, u, log, k, qs);
    if 2 * (k + 1) > |c.h.members| {
      EmptyPath(f);
      states, events := [f], [];
    } else {
      states, events := Campaigns(f, l, u, log, k + 1, qs[1..]);
      ElectedSame(f, c, states[|events|], l, u);
    }
    states, events := VoteFirst(c, l, u, log, d, f, qs, states, events);
  }

  /** The path of an election with one vote more in front. */
  lemma {:induction false} VoteFirst(c: Cluster, l: NodeId, u: Term, log: Log, d: Cluster, f: Cluster, qs: seq<NodeId>,
                                     states: seq<Cluster>, events: seq<Event>)
    returns (ss: seq<Cluster>, es: seq<Event>)
    requires |log| > 0 && qs != []
    requires Next(c, Deliver(Plea(l, qs[0], u, log)), d) && Next(d, Deliver(Yes(qs[0], l, u)), f)
    requires IsPath(states, events) && states[0] == f && |events| <= 2 * (|qs| - 1)
    requires forall ev :: ev in events ==> Campaign(ev, l, Elems(qs[1..]))
    ensures IsPath(ss, es) && ss[0] == c && |es| <= 2 * |qs| && ss[|es|] == states[|events|]
    ensures forall ev :: ev in es ==> Campaign(ev, l, Elems(qs))
  {
    ss, es := ExtendPath(d, Deliver(Yes(qs[0], l, u)), f, states, events);
    ss, es := ExtendPath(c, Deliver(Plea(l, qs[0], u, log)), d, ss, es);
    assert qs[0] in Elems(qs) && Elems(qs[1..]) <= Elems(qs);
  }

  lemma {:induction false} ElectedSame(b: Cluster, c: Cluster, d: Cluster, l: NodeId, u: Term)
    requires Elected(b, d, l, u) && l in c.nodes && c.nodes[l].log == b.nodes[l].log && c.h.members == b.h.members
    ensures Elected(c, d, l, u)
  {
  }

  /** Every node of `q` but the candidate itself is in no later term than it, and not ahead of it. */
  ghost predicate Supporters(c: Cluster, l: NodeId, q: set<NodeId>) {
    && ClusterOk(c) && l in c.nodes && l in q && q <= c.h.members && 2 * |q| > |c.h.members|
    && |c.nodes[l].log| > 0
    && forall p {:trigger c.nodes[p]} :: p in q && p != l ==>
         && p in c.nodes && |c.nodes[p].log| > 0
         && c.nodes[p].term <= c.nodes[l].term && NotBehind(c.nodes[l].log, c.nodes[p].log)
  }

  lemma {:induction false} Listed(s: set<NodeId>) returns (ps: seq<NodeId>)
    ensures NoRepeats(ps) && Elems(ps) == s && |ps| == |s|
    decreases |s|
  {
    if s == {} {
      ps := [];
    } else {
      var x :| x in s;
      ps := Listed(s - {x});
      assert x !in Elems(ps) && Elems([x]) == {x};
      NoRepeatsConcat([x], ps);
      ElemsConcat([x], ps);
      ps := [x] + ps;
    }
  }

  /** Elections can succeed: from any point of a run, a node that does not lead and is not behind the nodes of some
      majority, in term and in log, becomes leader of the next term by its timeout and by the exchange of requests
      and votes with that majority. */
  lemma {:induction false} ElectionReachable(c: Cluster, l: NodeId, q: set<NodeId>)
    returns (states: seq<Cluster>, events: seq<Event>)
    requires Supporters(c, l, q) && !c.nodes[l].role.Leader?
    ensures IsPath(states, events) && states[0] == c && |events| < 2 * |q|
    ensures forall ev :: ev in events ==> Campaign(ev, l, q)
    ensures Elected(c, states[|events|], l, c.nodes[l].term + 1)
  {
    var n, u := c.nodes[l], c.nodes[l].term + 1;
    var d := StartCampaign(c, l);
    if |c.h.members| == 1 {
      EmptyPath(d);
      states, events := [d], [];
    } else {
      var qs := Listed(q - {l});
      forall p | p in qs
        ensures Willing(d, l, p, u, n.log)
      {
        assert p in Elems(qs);
        FreshPlea(c, d, l, p);
      }
      states, events := Campaigns(d, l, u, n.log, 1, qs);
      ElectedSame(d, c, states[|events|], l, u);
    }
    states, events := ExtendPath(c, Timeout(l), d, states, events);
  }

  lemma {:induction false} FreshPlea(c: Cluster, d: Cluster, l: NodeId, p: NodeId)
    requires ClusterOk(c) && l in c.nodes && |c.nodes[l].log| > 0
    requires d.h.consumed == c.h.consumed
    ensures Plea(l, p, c.nodes[l].term + 1, c.nodes[l].log) !in d.h.consumed
  {
    assert MemberOk(c, l);
  }
}
