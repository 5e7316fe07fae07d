/** The atomic pieces the handlers are made of, each with what it adds to the history, and the
    proof that each keeps the invariants. */
module RaftSteps {
  import opened Collections
  import opened RaftTypes
  import opened RaftHistory
  import opened RaftSafety

  /** A step of node `id` took the history from `h` to `k` and left everyone else's past alone. */
  ghost predicate Extends(h: History, k: History, id: NodeId) {
    && Grows(h, k)
    && (forall p :: p != id ==> SameFor(h, k, p))
    && (forall e :: e in k.sent && e !in h.sent ==> e.src == id)
  }

  lemma ExtendsTrans(a: History, b: History, c: History, id: NodeId)
    requires Extends(a, b, id) && Extends(b, c, id)
    ensures Extends(a, c, id)
  {
    GrowsTrans(a, b, c);
    forall p | p != id
      ensures SameFor(a, c, p)
    {
      SameForTrans(a, b, c, p);
    }
  }

  lemma GrowsTrans(a: History, b: History, c: History)
    requires Grows(a, b) && Grows(b, c)
    ensures Grows(a, c)
  {
    forall t | t in a.leaderLog
      ensures t in c.leaderLog && LogGrow(a.leaderLog[t], c.leaderLog[t], t)
    {
      var x, y, z := a.leaderLog[t], b.leaderLog[t], c.leaderLog[t];
      forall j | |x| <= j < |z|
        ensures z[j].term == t
      {
        if j < |y| {
          assert z[j] == y[j];
        }
      }
    }
  }

  lemma SameForTrans(a: History, b: History, c: History, p: NodeId)
    requires Grows(a, b) && Grows(b, c) && SameFor(a, b, p) && SameFor(b, c, p)
    ensures SameFor(a, c, p)
  {
  }

  // ----- Growth -----

  lemma MessageGrows(a: History, b: History, e: Envelope)
    requires Grows(a, b) && MessageOk(a, e)
    ensures MessageOk(b, e)
  {
    match e.msg
    case AppendRequest(t, leader, prev, prevTerm, entries, commit) =>
      CommitOkGrows(a, b, a.leaderLog[t], commit, t, t);
      CommitOkExtends(b, a.leaderLog[t], b.leaderLog[t], commit, t);
      assert b.leaderLog[t][prev + 1..prev + 1 + |entries|] == a.leaderLog[t][prev + 1..prev + 1 + |entries|];
    case AppendResponse(t, m, success) =>
      if success {
        assert Acked(b, t, e.src, m);
      }
    case VoteRequest(u, c, lastIndex, lastTerm) =>
    case VoteResponse(u, granted) =>
  }

  lemma HeardGrows(a: History, b: History, c: NodeId, u: Term)
    requires Grows(a, b)
    ensures |Heard(a, c, u)| <= |Heard(b, c, u)|
  {
    SubsetCardinality(Heard(a, c, u), Heard(b, c, u));
  }

  /** A log in order stays in order as the history grows and the node's term advances. */
  lemma LogGrows(a: History, b: History, n: Node, later: Term)
    requires HistoryOk(a) && Grows(a, b) && n.term <= later
    requires forall t: Term :: Seat(t, n.id) in b.acks && t <= later ==>
                         t <= n.term && Seat(t, n.id) in a.acks && a.acks[Seat(t, n.id)] == b.acks[Seat(t, n.id)]
    requires LogOk(a, n)
    ensures LogOk(b, n.(term := later))
  {
    SoundGrows(a.leaderLog, b.leaderLog, n.log);
    CommitOkGrows(a, b, n.log, n.commitIndex, n.term, later);
    KeepsGrows(a, b, n.id, n.log, n.term + 1, later + 1);
  }

  /** The log of a leader with one more entry. */
  lemma AppendedLogOk(a: History, b: History, n: Node, e: Entry, m: Node)
    requires Grows(a, b) && LogOk(a, n) && m.log == n.log + [e] && m.term == n.term == e.term && m.id == n.id
    requires m.commitIndex == n.commitIndex && m.lastApplied == n.lastApplied && m.machine == n.machine
    requires Sound(b.leaderLog, m.log) && Keeps(b, n.id, m.log, n.term + 1)
    ensures LogOk(b, m)
  {
    CommitOkGrows(a, b, n.log, n.commitIndex, n.term, n.term);
    CommitOkExtends(b, n.log, m.log, n.commitIndex, n.term);
    assert m.log[..n.lastApplied + 1] == n.log[..n.lastApplied + 1];
  }

  /** A node is in order in a role that is in order. */
  lemma RoleChangeOk(h: History, n: Node, role: Role)
    requires NodeOk(h, n) && RoleOk(h, n.(role := role))
    ensures NodeOk(h, n.(role := role))
  {
    var m := n.(role := role);
    assert LogOk(h, m);
    assert OwnPastOk(h, m);
  }

  lemma RoleGrows(a: History, b: History, n: Node)
    requires Grows(a, b) && SameReign(a, b, n.id)
    requires a.leaderLog.Keys >= a.leaderOf.Keys
    requires RoleOk(a, n)
    ensures RoleOk(b, n)
  {
    match n.role
    case Follower(_) =>
    case Candidate(_) => HeardGrows(a, b, n.id, n.term);
    case Leader(_, _) =>
      forall p | p in n.role.matchIndex
        ensures n.role.matchIndex[p] == 0 || Acked(b, n.term, p, n.role.matchIndex[p])
      {
        assert n.role.matchIndex[p] == 0 || Acked(a, n.term, p, n.role.matchIndex[p]);
      }
  }

  lemma OwnPastGrows(a: History, b: History, n: Node)
    requires Grows(a, b) && SameFor(a, b, n.id) && SentOk(b, n.id, n.term)
    requires OwnPastOk(a, n) && VoteOk(a, n) && PendingOk(a, n) && PeersOk(a, n)
    ensures OwnPastOk(b, n) && VoteOk(b, n) && PendingOk(b, n) && PeersOk(b, n)
  {
  }

  /** A node whose own state and past do not change stays in order while the history grows. */
  lemma BystanderOk(a: History, b: History, n: Node)
    requires HistoryOk(a) && Grows(a, b) && SameFor(a, b, n.id) && SentOk(b, n.id, n.term)
    requires NodeOk(a, n)
    ensures NodeOk(b, n)
  {
    LogGrows(a, b, n, n.term);
    OwnPastGrows(a, b, n);
    RoleGrows(a, b, n);
  }

  lemma BallotGrows(a: History, b: History, u: Term, v: NodeId)
    requires HistoryOk(a) && Grows(a, b)
    requires Seat(u, v) in a.ballots
    requires forall t: Term :: t < u && Seat(t, v) in b.acks ==>
               Seat(t, v) in a.acks && a.acks[Seat(t, v)] == b.acks[Seat(t, v)]
    ensures Seat(u, v) in b.ballots && BallotOk(b, u, v)
  {
    assert BallotOk(a, u, v);
    var log := a.ballots[Seat(u, v)].log;
    assert CandidacyOk(a, u, a.ballots[Seat(u, v)].candidate);
    SoundGrows(a.leaderLog, b.leaderLog, log);
    if u !in b.leaderLog || (u in b.quorum && v in b.quorum[u]) {
      if u in a.leaderLog {
        assert ReignOk(a, u);
      }
      KeepsGrows(a, b, v, log, u, u);
    }
  }

  lemma AnswerGrows(a: History, b: History, x: Answer)
    requires Grows(a, b) && AnswerOk(a, x)
    ensures AnswerOk(b, x)
  {
    var t: Term, i: nat :| AnswerFrom(a, x, t, i);
    CommittedGrows(a, b, t, i);
    assert b.leaderLog[t][..x.index + 1] == a.leaderLog[t][..x.index + 1];
    assert AnswerFrom(b, x, t, i);
  }

  lemma CandidacyGrows(a: History, b: History, u: Term, c: NodeId)
    requires HistoryOk(a) && Grows(a, b) && Seat(u, c) in a.candidacies
    ensures Seat(u, c) in b.candidacies && CandidacyOk(b, u, c)
  {
    assert CandidacyOk(a, u, c);
    SoundGrows(a.leaderLog, b.leaderLog, a.candidacies[Seat(u, c)]);
  }

  lemma ReignGrows(a: History, b: History, u: Term)
    requires HistoryOk(a) && Grows(a, b) && u in a.leaderLog && u != 0
    requires b.quorum.Keys == b.leaderOf.Keys == b.leaderLog.Keys - {0}
    ensures u in b.leaderLog && ReignOk(b, u)
  {
    assert ReignOk(a, u);
  }

  lemma AcceptanceGrows(a: History, b: History, k: Ticket)
    requires HistoryOk(a) && Grows(a, b) && k in a.accepted
    ensures k in b.accepted && AcceptanceOk(b, k)
  {
    assert AcceptanceOk(a, k);
  }


  /** To check a longer history, check what was added to it. */
  lemma HistoryGrows(a: History, b: History)
    requires HistoryOk(a) && Grows(a, b)
    requires LeaderLogsOk(b.leaderLog) && b.quorum.Keys == b.leaderOf.Keys == b.leaderLog.Keys - {0}
    requires forall u: Term, c: NodeId :: Seat(u, c) in b.candidacies && Seat(u, c) !in a.candidacies ==>
               CandidacyOk(b, u, c)
    requires forall u: Term, v: NodeId :: Seat(u, v) in b.ballots && Seat(u, v) !in a.ballots ==> BallotOk(b, u, v)
    requires forall u: Term, v: NodeId, t: Term :: Seat(u, v) in a.ballots && t < u && Seat(t, v) in b.acks ==>
                               Seat(t, v) in a.acks && a.acks[Seat(t, v)] == b.acks[Seat(t, v)]
    requires forall u :: u in b.leaderLog && u !in a.leaderLog ==> ReignOk(b, u)
    requires forall t: Term, p: NodeId :: Seat(t, p) in b.acks ==>
               t in b.leaderLog && b.acks[Seat(t, p)] <= |b.leaderLog[t]|
    requires forall k :: k in b.accepted && k !in a.accepted ==> AcceptanceOk(b, k)
    requires forall x :: x in b.answers && x !in a.answers ==> AnswerOk(b, x)
    requires b.consumed <= b.sent
    requires forall e :: e in b.sent && e !in a.sent ==> MessageOk(b, e)
    ensures HistoryOk(b)
  {
    forall u: Term, c: NodeId | Seat(u, c) in b.candidacies
      ensures CandidacyOk(b, u, c)
    {
      if Seat(u, c) in a.candidacies {
        CandidacyGrows(a, b, u, c);
      }
    }
    forall u: Term, v: NodeId | Seat(u, v) in b.ballots
      ensures BallotOk(b, u, v)
    {
      if Seat(u, v) in a.ballots {
        BallotGrows(a, b, u, v);
      }
    }
    forall u | u in b.leaderLog && u != 0
      ensures ReignOk(b, u)
    {
      if u in a.leaderLog {
        ReignGrows(a, b, u);
      }
    }
    forall k | k in b.accepted
      ensures AcceptanceOk(b, k)
    {
      if k in a.accepted {
        AcceptanceGrows(a, b, k);
      }
    }
    forall x | x in b.answers
      ensures AnswerOk(b, x)
    {
      if x in a.answers {
        AnswerGrows(a, b, x);
      }
    }
    forall e | e in b.sent
      ensures MessageOk(b, e)
    {
      if e in a.sent {
        MessageGrows(a, b, e);
      }
    }
  }
}
