/** Elections: term changes, candidacies, ballots and taking the lead keep the invariants. */
module RaftElection {
  import opened Collections
  import opened RaftTypes
  import opened RaftHandlers
  import opened RaftHistory
  import opened RaftSafety
  import opened RaftSteps

  // ----- Messages -----

  ghost function Send(h: History, envelopes: seq<Envelope>): History {
    h.(sent := h.sent + Elems(envelopes))
  }

  /** Message traffic alone changes nothing but the traffic. */
  lemma TrafficOk(h: History, k: History, id: NodeId)
    requires HistoryOk(h)
    requires k == h.(sent := k.sent, consumed := k.consumed)
    requires h.sent <= k.sent && h.consumed <= k.consumed <= k.sent
    requires forall e :: e in k.sent && e !in h.sent ==> e.src == id && MessageOk(h, e)
    ensures HistoryOk(k) && Extends(h, k, id) && SameFor(h, k, id)
  {
    assert Grows(h, k);
    forall e | e in k.sent && e !in h.sent
      ensures MessageOk(k, e)
    {
      MessageGrows(h, k, e);
    }
    HistoryGrows(h, k);
  }

  lemma SendOk(h: History, n: Node, envelopes: seq<Envelope>)
    requires HistoryOk(h) && NodeOk(h, n)
    requires forall e :: e in envelopes ==> e.src == n.id && e.msg.term <= n.term && MessageOk(h, e)
    ensures HistoryOk(Send(h, envelopes)) && NodeOk(Send(h, envelopes), n)
    ensures Extends(h, Send(h, envelopes), n.id)
  {
    TrafficOk(h, Send(h, envelopes), n.id);
    BystanderOk(h, Send(h, envelopes), n);
  }

  /** The messages that must not be delivered twice: they move a vote. */
  predicate OnceOnly(msg: Message) {
    msg.VoteRequest? || (msg.VoteResponse? && msg.granted)
  }

  ghost function Consume(h: History, e: Envelope): History {
    if OnceOnly(e.msg) then h.(consumed := h.consumed + {e}) else h
  }

  lemma ConsumeOk(h: History, n: Node, e: Envelope)
    requires HistoryOk(h) && NodeOk(h, n) && e in h.sent
    ensures HistoryOk(Consume(h, e)) && NodeOk(Consume(h, e), n)
    ensures Extends(h, Consume(h, e), n.id)
  {
    TrafficOk(h, Consume(h, e), n.id);
    BystanderOk(h, Consume(h, e), n);
  }

  // ----- Terms -----

  lemma BecomeFollowerOk(h: History, n: Node, term: Term)
    requires HistoryOk(h) && NodeOk(h, n)
    requires term >= n.term
    ensures NodeOk(h, BecomeFollower(n, term))
  {
    LogGrows(h, h, n, term);
    if term > n.term {
      assert Seat(term, n.id) !in h.ballots;
    }
  }

  lemma RestartOk(h: History, n: Node)
    requires HistoryOk(h) && NodeOk(h, n)
    ensures NodeOk(h, Restarted(n, Durable(n)))
  {
    SoundIsSorted(h.leaderLog, n.log);
    assert n.log[..1] == [GENESIS];
    assert Commands([GENESIS]) == [] by {
      assert [GENESIS][..0] == [];
    }
  }

  // ----- Standing for election -----

  ghost function Stand(h: History, n: Node): History {
    h.(candidacies := h.candidacies[Seat(n.term + 1, n.id) := n.log],
       ballots := h.ballots[Seat(n.term + 1, n.id) := Ballot(n.id, n.log)])
  }

  lemma StandExtends(h: History, n: Node)
    requires OwnPastOk(h, n)
    ensures Extends(h, Stand(h, n), n.id) && SameReign(h, Stand(h, n), n.id)
  {
  }

  lemma StandHistoryOk(h: History, n: Node)
    requires HistoryOk(h) && NodeOk(h, n)
    ensures HistoryOk(Stand(h, n))
  {
    var k := Stand(h, n);
    var u := n.term + 1;
    StandExtends(h, n);
    KeepsGrows(h, k, n.id, n.log, u, u);
    assert BallotOk(k, u, n.id);
    HistoryGrows(h, k);
  }

  lemma StandOk(h: History, n: Node)
    requires HistoryOk(h) && NodeOk(h, n)
    ensures HistoryOk(Stand(h, n)) && NodeOk(Stand(h, n), StartCandidacy(n))
    ensures Extends(h, Stand(h, n), n.id)
  {
    var k := Stand(h, n);
    var u := n.term + 1;
    StandExtends(h, n);
    StandHistoryOk(h, n);
    LogGrows(h, k, n, u);
    StandRoleOk(h, n);
    StandPastOk(h, n);
  }

  lemma StandPastOk(h: History, n: Node)
    requires OwnPastOk(h, n) && PendingOk(h, n) && PeersOk(h, n)
    ensures var k, m := Stand(h, n), StartCandidacy(n);
            OwnPastOk(k, m) && VoteOk(k, m) && PendingOk(k, m) && PeersOk(k, m)
  {
  }

  lemma StandRoleOk(h: History, n: Node)
    requires HistoryOk(h) && OwnPastOk(h, n)
    ensures RoleOk(Stand(h, n), StartCandidacy(n))
  {
    var u := n.term + 1;
    assert u in h.leaderLog ==> ReignOk(h, u);
  }

  /** A vote request states the candidate's log truthfully. */
  lemma VoteRequestsOk(h: History, n: Node, e: Envelope)
    requires HistoryOk(h) && NodeOk(h, n) && n.role.Candidate?
    requires e in VoteRequests(n)
    ensures MessageOk(h, e) && e.src == n.id && e.msg.term == n.term
  {
    var i :| 0 <= i < |n.peers| && e == VoteRequestTo(n, n.peers[i]);
    assert n.peers[i] in Elems(n.peers);
  }

  // ----- Voting -----

  ghost function Vote(h: History, n: Node, candidate: NodeId): History {
    if Seat(n.term, n.id) in h.ballots then h
    else h.(ballots := h.ballots[Seat(n.term, n.id) := Ballot(candidate, n.log)])
  }

  lemma VoteBallotOk(h: History, n: Node, e: Envelope)
    requires HistoryOk(h) && NodeOk(h, n)
    requires MessageOk(h, e) && e.msg.VoteRequest? && e.dst == n.id
    requires e.msg.term == n.term && Grants(n, e.msg) && Seat(n.term, n.id) !in h.ballots
    ensures BallotOk(Vote(h, n, e.src), n.term, n.id)
  {
    var k := Vote(h, n, e.src);
    assert CandidacyOk(h, n.term, e.src);
    KeepsGrows(h, k, n.id, n.log, n.term + 1, n.term + 1);
    if n.term in h.leaderLog {
      assert ReignOk(h, n.term);
    } else {
      KeepsBelow(k, n.id, n.log, n.term);
    }
  }

  lemma VoteExtends(h: History, n: Node, candidate: NodeId)
    ensures Extends(h, Vote(h, n, candidate), n.id) && SameReign(h, Vote(h, n, candidate), n.id)
  {
    if Seat(n.term, n.id) in h.ballots {
      assert Vote(h, n, candidate) == h;
    } else {
      var k := Vote(h, n, candidate);
      assert Grows(h, k);
    }
  }

  lemma VoteHistoryOk(h: History, n: Node, e: Envelope)
    requires HistoryOk(h) && NodeOk(h, n)
    requires MessageOk(h, e) && e.msg.VoteRequest? && e.dst == n.id
    requires e.msg.term == n.term && Grants(n, e.msg)
    ensures HistoryOk(Vote(h, n, e.src))
  {
    VoteExtends(h, n, e.src);
    if Seat(n.term, n.id) !in h.ballots {
      VoteBallotOk(h, n, e);
      HistoryGrows(h, Vote(h, n, e.src));
    }
  }

  lemma VoteNodeOk(h: History, n: Node, e: Envelope)
    requires HistoryOk(h) && NodeOk(h, n) && e.msg.VoteRequest? && |n.log| > 0 && Grants(n, e.msg)
    requires e.msg.candidateId == e.src
    ensures NodeOk(Vote(h, n, e.src), n.(votedFor := Some(e.src)))
  {
    var k := Vote(h, n, e.src);
    VoteExtends(h, n, e.src);
    LogGrows(h, k, n, n.term);
    RoleGrows(h, k, n);
    VotePastOk(h, n, e.src);
  }

  lemma VotePastOk(h: History, n: Node, candidate: NodeId)
    requires OwnPastOk(h, n) && VoteOk(h, n) && PendingOk(h, n) && PeersOk(h, n)
    requires n.votedFor == None || n.votedFor == Some(candidate)
    ensures var k, m := Vote(h, n, candidate), n.(votedFor := Some(candidate));
            OwnPastOk(k, m) && VoteOk(k, m) && PendingOk(k, m) && PeersOk(k, m)
  {
  }

  lemma VoteStepOk(h: History, n: Node, e: Envelope)
    requires HistoryOk(h) && NodeOk(h, n)
    requires MessageOk(h, e) && e.msg.VoteRequest? && e.dst == n.id
    requires e.msg.term == n.term && Grants(n, e.msg)
    ensures var k := Vote(h, n, e.src);
            && HistoryOk(k) && NodeOk(k, n.(votedFor := Some(e.src))) && Extends(h, k, n.id)
            && MessageOk(k, Envelope(n.id, e.src, VoteResponse(n.term, true)))
  {
    VoteExtends(h, n, e.src);
    VoteHistoryOk(h, n, e);
    VoteNodeOk(h, n, e);
  }

  /** Where the term has no leader yet, what a node keeps up to its term it keeps from earlier terms. */
  lemma KeepsBelow(h: History, p: NodeId, log: Log, u: Term)
    requires Keeps(h, p, log, u + 1) && u !in h.leaderLog
    ensures Keeps(h, p, log, u)
  {
    forall t: Term, i: nat | t < u && Acked(h, t, p, i)
      ensures Holds(h.leaderLog, log, t, i) || Lost(h.leaderLog, t, i, u)
    {
      if Lost(h.leaderLog, t, i, u + 1) {
        var w :| t < w < u + 1 && w in h.leaderLog && !Holds(h.leaderLog, h.leaderLog[w], t, i);
        assert w < u;
      }
    }
  }

  // ----- Counting votes -----

  /** The counter never exceeds the number of distinct nodes heard from. */
  lemma CountVoteOk(h: History, n: Node, e: Envelope)
    requires HistoryOk(h) && NodeOk(h, n) && n.role.Candidate?
    requires e in h.sent && e !in h.consumed && e.dst == n.id && e.msg == VoteResponse(n.term, true)
    ensures var k := Consume(h, e);
            HistoryOk(k) && NodeOk(k, CountVote(n)) && Extends(h, k, n.id)
  {
    var k := Consume(h, e);
    ConsumeOk(h, n, e);
    assert MessageOk(h, e);
    assert Heard(k, n.id, n.term) == Heard(h, n.id, n.term) + {e.src};
    assert e == Envelope(e.src, n.id, VoteResponse(n.term, true));
    assert e.src !in Heard(h, n.id, n.term);
  }

  // ----- Taking the lead -----

  ghost function Voters(h: History, u: Term, c: NodeId): set<NodeId> {
    set v | v in h.members && Seat(u, v) in h.ballots && h.ballots[Seat(u, v)].candidate == c
  }

  /** A counter that reaches a majority stands for a majority of distinct voters. */
  lemma CounterIsQuorum(h: History, n: Node)
    requires HistoryOk(h) && NodeOk(h, n) && n.role.Candidate?
    requires HasMajority(n.role.votesReceived, ClusterSize(n))
    ensures Majority(Voters(h, n.term, n.id), h.members)
    ensures n.id in Voters(h, n.term, n.id)
  {
    var heard := Heard(h, n.id, n.term);
    var voters := Voters(h, n.term, n.id);
    forall v | v in heard
      ensures v in voters
    {
      assert MessageOk(h, Envelope(v, n.id, VoteResponse(n.term, true)));
    }
    SubsetCardinality(heard + {n.id}, voters);
    NoRepeatsCardinality(n.peers);
    assert h.members == Elems(n.peers) + {n.id};
  }

  /** Election safety: the term of a winning candidate has no leader yet. */
  lemma TermIsFree(h: History, n: Node)
    requires HistoryOk(h) && NodeOk(h, n) && n.role.Candidate?
    requires HasMajority(n.role.votesReceived, ClusterSize(n))
    ensures n.term !in h.leaderLog && n.term !in h.leaderOf
  {
    CounterIsQuorum(h, n);
    assert CandidacyOk(h, n.term, n.id);
    if n.term in h.leaderLog {
      assert ReignOk(h, n.term);
      var v := QuorumsMeet(Voters(h, n.term, n.id), h.quorum[n.term], h.members);
    }
  }

  ghost function Crown(h: History, n: Node): History {
    var log := TakeLead(n).log;
    h.(leaderOf := h.leaderOf[n.term := n.id],
       quorum := h.quorum[n.term := Voters(h, n.term, n.id)],
       leaderLog := h.leaderLog[n.term := log],
       acks := h.acks[Seat(n.term, n.id) := |log|])
  }

  lemma CrownLogsOk(ll: map<Term, Log>, log: Log, u: Term)
    requires LeaderLogsOk(ll) && Sound(ll, log) && LastTerm(log) < u && u !in ll
    ensures LogsGrow(ll, ll[u := log + [Entry(u, NoOp)]])
    ensures LeaderLogsOk(ll[u := log + [Entry(u, NoOp)]])
  {
    var crowned := log + [Entry(u, NoOp)];
    var kk := ll[u := crowned];
    SoundIsSorted(ll, log);
    forall i | 0 <= i < |crowned|
      ensures Holds(kk, crowned, crowned[i].term, i)
    {
      if i < |log| {
        assert Holds(ll, log, log[i].term, i);
        HoldsGrows(ll, kk, log, log[i].term, i);
        HoldsExtends(kk, log, crowned, log[i].term, i);
      }
    }
    forall t | t in kk
      ensures LeaderLogOk(kk, t)
    {
      if t != u {
        assert LeaderLogOk(ll, t);
        SoundGrows(ll, kk, ll[t]);
      }
    }
  }

  lemma CrownGrows(h: History, n: Node)
    requires n.term !in h.leaderOf && n.term !in h.quorum && Seat(n.term, n.id) !in h.acks
    requires LogsGrow(h.leaderLog, Crown(h, n).leaderLog)
    ensures Extends(h, Crown(h, n), n.id)
  {
    var k := Crown(h, n);
    assert Grows(h, k);
    forall p | p != n.id
      ensures SameFor(h, k, p)
    {
    }
  }

  lemma CrownExtends(h: History, n: Node)
    requires HistoryOk(h) && NodeOk(h, n) && n.role.Candidate?
    requires n.term !in h.leaderLog
    ensures Extends(h, Crown(h, n), n.id)
    ensures LeaderLogsOk(Crown(h, n).leaderLog)
  {
    assert CandidacyOk(h, n.term, n.id);
    CrownLogsOk(h.leaderLog, n.log, n.term);
    CrownGrows(h, n);
  }

  lemma CrownReignOk(h: History, n: Node)
    requires Seat(n.term, n.id) in h.candidacies && h.candidacies[Seat(n.term, n.id)] == n.log
    requires Majority(Voters(h, n.term, n.id), h.members)
    ensures ReignOk(Crown(h, n), n.term)
  {
  }

  lemma CrownHistoryOk(h: History, n: Node)
    requires HistoryOk(h) && NodeOk(h, n) && n.role.Candidate?
    requires n.term !in h.leaderLog && Majority(Voters(h, n.term, n.id), h.members)
    ensures HistoryOk(Crown(h, n)) && Extends(h, Crown(h, n), n.id)
  {
    CrownExtends(h, n);
    CrownReignOk(h, n);
    HistoryGrows(h, Crown(h, n));
  }

  lemma CrownKeeps(h: History, n: Node)
    requires HistoryOk(h) && NodeOk(h, n) && n.role.Candidate?
    requires n.term !in h.leaderLog
    requires Grows(h, Crown(h, n))
    ensures Keeps(Crown(h, n), n.id, TakeLead(n).log, n.term + 1)
  {
    var k := Crown(h, n);
    var log := TakeLead(n).log;
    forall t: Term, i: nat | t < n.term + 1 && Acked(k, t, n.id, i)
      ensures Holds(k.leaderLog, log, t, i) || Lost(k.leaderLog, t, i, n.term + 1)
    {
      if t < n.term {
        assert Acked(h, t, n.id, i);
        if Holds(h.leaderLog, n.log, t, i) {
          HoldsGrows(h.leaderLog, k.leaderLog, n.log, t, i);
          HoldsExtends(k.leaderLog, n.log, log, t, i);
        } else {
          LostGrows(h.leaderLog, k.leaderLog, t, i, n.term + 1, n.term + 1);
        }
      }
    }
  }

  lemma CrownLogOk(h: History, n: Node)
    requires HistoryOk(h) && NodeOk(h, n) && n.role.Candidate?
    requires n.term !in h.leaderLog
    ensures LogOk(Crown(h, n), TakeLead(n))
  {
    var k := Crown(h, n);
    CrownExtends(h, n);
    CrownKeeps(h, n);
    assert LeaderLogOk(k.leaderLog, n.term);
    AppendedLogOk(h, k, n, Entry(n.term, NoOp), TakeLead(n));
  }

  lemma CrownOk(h: History, n: Node)
    requires HistoryOk(h) && NodeOk(h, n) && n.role.Candidate?
    requires HasMajority(n.role.votesReceived, ClusterSize(n))
    ensures HistoryOk(Crown(h, n)) && NodeOk(Crown(h, n), TakeLead(n))
    ensures Extends(h, Crown(h, n), n.id)
  {
    TermIsFree(h, n);
    CounterIsQuorum(h, n);
    CrownHistoryOk(h, n);
    CrownLogOk(h, n);
    CrownPastOk(h, n);
  }

  lemma CrownPastOk(h: History, n: Node)
    requires OwnPastOk(h, n) && VoteOk(h, n) && PendingOk(h, n) && PeersOk(h, n)
    ensures var k, m := Crown(h, n), TakeLead(n);
            OwnPastOk(k, m) && VoteOk(k, m) && PendingOk(k, m) && PeersOk(k, m) && RoleOk(k, m)
  {
    assert forall p :: p in n.peers <==> p in Elems(n.peers);
  }
}
