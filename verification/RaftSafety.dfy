/** What holds of every well-formed history: facts survive its growth, later leaders have every
    committed entry, and committed prefixes never diverge. */
module RaftSafety {
  import opened Collections
  import opened RaftTypes
  import opened RaftHandlers
  import opened RaftHistory

  // ----- Logs -----

  /** Terms never decrease along a log. */
  lemma SoundIsSorted(ll: map<Term, Log>, log: Log)
    requires LeaderLogsOk(ll) && Sound(ll, log)
    ensures Sorted(log) && log[0] == GENESIS
  {
    forall i, j | 0 <= i <= j < |log|
      ensures log[i].term <= log[j].term
    {
      assert Holds(ll, log, log[j].term, j);
      var l := ll[log[j].term];
      assert l[..j + 1][i] == log[..j + 1][i];
      assert l[..j + 1][j] == log[..j + 1][j];
      assert LeaderLogOk(ll, log[j].term);
    }
    assert Holds(ll, log, log[0].term, 0);
    var l := ll[log[0].term];
    assert l[..1][0] == log[..1][0];
    assert LeaderLogOk(ll, log[0].term);
  }

  lemma SoundGrows(a: map<Term, Log>, b: map<Term, Log>, log: Log)
    requires LogsGrow(a, b) && Sound(a, log)
    ensures Sound(b, log)
  {
    forall i | 0 <= i < |log|
      ensures Holds(b, log, log[i].term, i)
    {
      HoldsGrows(a, b, log, log[i].term, i);
    }
  }

  lemma HoldsGrows(a: map<Term, Log>, b: map<Term, Log>, log: Log, t: Term, i: nat)
    requires LogsGrow(a, b) && Holds(a, log, t, i)
    ensures Holds(b, log, t, i)
  {
    assert b[t][..i + 1] == a[t][..i + 1];
  }

  /** A longer log holds what its prefix holds. */
  lemma HoldsExtends(ll: map<Term, Log>, log: Log, longer: Log, t: Term, i: nat)
    requires Holds(ll, log, t, i) && log <= longer
    ensures Holds(ll, longer, t, i)
  {
    assert longer[..i + 1] == log[..i + 1];
  }

  lemma HoldsLess(ll: map<Term, Log>, log: Log, t: Term, i: nat, j: nat)
    requires Holds(ll, log, t, i) && j <= i
    ensures Holds(ll, log, t, j)
  {
    assert ll[t][..j + 1] == ll[t][..i + 1][..j + 1];
    assert log[..j + 1] == log[..i + 1][..j + 1];
  }

  lemma HoldsTrans(ll: map<Term, Log>, log: Log, t: Term, u: Term, i: nat)
    requires Holds(ll, log, u, i) && Holds(ll, ll[u], t, i)
    ensures Holds(ll, log, t, i)
  {
  }

  /** Log matching: logs that agree on the term at an index agree up to that index. */
  lemma LogMatching(ll: map<Term, Log>, a: Log, b: Log, i: nat)
    requires Sound(ll, a) && Sound(ll, b)
    requires i < |a| && i < |b| && a[i].term == b[i].term
    ensures a[..i + 1] == b[..i + 1]
  {
    assert Holds(ll, a, a[i].term, i);
    assert Holds(ll, b, b[i].term, i);
  }

  /** A leader that lacked a prefix of an earlier term never obtains it. */
  lemma LackGrows(a: map<Term, Log>, b: map<Term, Log>, t: Term, i: nat, w: Term)
    requires LeaderLogsOk(a) && LogsGrow(a, b)
    requires t in a && i < |a[t]| && t < w && w in a && !Holds(a, a[w], t, i)
    ensures !Holds(b, b[w], t, i)
  {
    assert a[t][..i + 1] == b[t][..i + 1];
    if i < |a[w]| {
      assert a[w][..i + 1] == b[w][..i + 1];
    } else if i < |b[w]| {
      var j := |a[w]|;
      assert b[w][..i + 1][j].term == w;
      assert LeaderLogOk(a, t);
      assert b[t][..i + 1][j].term <= t;
    }
  }

  lemma LostGrows(a: map<Term, Log>, b: map<Term, Log>, t: Term, i: nat, before: Term, later: Term)
    requires LeaderLogsOk(a) && LogsGrow(a, b)
    requires t in a && i < |a[t]| && Lost(a, t, i, before) && before <= later
    ensures Lost(b, t, i, later)
  {
    var w :| t < w < before && w in a && !Holds(a, a[w], t, i);
    LackGrows(a, b, t, i, w);
  }

  /** `Keeps` survives growth as long as the node acknowledged nothing new below `before`. */
  lemma KeepsGrows(a: History, b: History, p: NodeId, log: Log, before: Term, later: Term)
    requires HistoryOk(a) && Grows(a, b)
    requires Keeps(a, p, log, before) && before <= later
    requires forall t: Term :: Seat(t, p) in b.acks && t < later ==>
                         t < before && Seat(t, p) in a.acks && a.acks[Seat(t, p)] == b.acks[Seat(t, p)]
    ensures Keeps(b, p, log, later)
  {
    forall t: Term, i: nat | t < later && Acked(b, t, p, i)
      ensures Holds(b.leaderLog, log, t, i) || Lost(b.leaderLog, t, i, later)
    {
      assert Acked(a, t, p, i);
      if Holds(a.leaderLog, log, t, i) {
        HoldsGrows(a.leaderLog, b.leaderLog, log, t, i);
      } else {
        LostGrows(a.leaderLog, b.leaderLog, t, i, before, later);
      }
    }
  }

  // ----- Commitment -----

  lemma CommittedGrows(a: History, b: History, t: Term, i: nat)
    requires Grows(a, b) && Committed(a, t, i)
    ensures Committed(b, t, i)
  {
    forall p | p in Ackers(a, t, i)
      ensures p in Ackers(b, t, i)
    {
      assert Acked(a, t, p, i);
      assert Acked(b, t, p, i);
    }
    SubsetCardinality(Ackers(a, t, i), Ackers(b, t, i));
  }

  lemma CommitOkGrows(a: History, b: History, log: Log, k: nat, term: Term, later: Term)
    requires Grows(a, b) && CommitOk(a, log, k, term) && term <= later
    ensures CommitOk(b, log, k, later)
  {
    if k > 0 {
      var t: Term, i: nat :| t <= term && k <= i && Committed(a, t, i) && Holds(a.leaderLog, log, t, k);
      CommittedGrows(a, b, t, i);
      HoldsGrows(a.leaderLog, b.leaderLog, log, t, k);
    }
  }

  lemma CommitOkExtends(h: History, log: Log, longer: Log, k: nat, term: Term)
    requires CommitOk(h, log, k, term) && log <= longer
    ensures CommitOk(h, longer, k, term)
  {
    if k > 0 {
      var t: Term, i: nat :| t <= term && k <= i && Committed(h, t, i) && Holds(h.leaderLog, log, t, k);
      HoldsExtends(h.leaderLog, log, longer, t, k);
    }
  }

  lemma PrefixSound(ll: map<Term, Log>, log: Log, k: nat)
    requires Sound(ll, log) && 0 < k <= |log|
    ensures Sound(ll, log[..k])
  {
    forall i | 0 <= i < k
      ensures Holds(ll, log[..k], log[..k][i].term, i)
    {
      assert Holds(ll, log, log[i].term, i);
      assert log[..k][..i + 1] == log[..i + 1];
    }
  }

  /** Of two logs that end in the same term, the shorter is a prefix of the longer. */
  lemma SameLastTerm(ll: map<Term, Log>, a: Log, b: Log)
    requires Sound(ll, a) && Sound(ll, b)
    requires LastTerm(a) == LastTerm(b) && |a| <= |b|
    ensures a <= b
  {
    var t := LastTerm(a);
    assert Holds(ll, a, t, |a| - 1);
    assert Holds(ll, b, t, |b| - 1);
    HoldsLess(ll, b, t, |b| - 1, |a| - 1);
    assert a[..|a|] == a;
  }

  /** A log whose last term lies beyond `t` holds what the leader of that last term holds. */
  lemma LaterLastTerm(ll: map<Term, Log>, log: Log, t: Term, i: nat)
    requires LeaderLogsOk(ll) && Sound(ll, log)
    requires t < LastTerm(log) && t in ll && i < |ll[t]| && ll[t][i].term == t
    requires LastTerm(log) in ll && Holds(ll, ll[LastTerm(log)], t, i)
    ensures Holds(ll, log, t, i)
  {
    var w := LastTerm(log);
    var last := |log| - 1;
    assert Holds(ll, log, w, last);
    assert LeaderLogOk(ll, w);
    assert ll[w][..i + 1][i] == ll[t][..i + 1][i];
    assert ll[w][..last + 1][last] == log[..last + 1][last];
    HoldsLess(ll, log, w, last, i);
    HoldsTrans(ll, log, t, w, i);
  }

  /** A voter that held the committed prefix only elects a candidate that holds it too. */
  lemma UpToDateHolds(h: History, t: Term, i: nat, u: Term, voter: Log, stood: Log)
    requires LeaderLogsOk(h.leaderLog) && Committed(h, t, i)
    requires Sound(h.leaderLog, voter) && Sound(h.leaderLog, stood)
    requires LastTerm(stood) < u && UpToDate(LastTerm(stood), |stood| - 1, voter)
    requires Holds(h.leaderLog, voter, t, i)
    requires forall w :: t <= w < u && w in h.leaderLog ==> Holds(h.leaderLog, h.leaderLog[w], t, i)
    ensures Holds(h.leaderLog, stood, t, i)
  {
    var ll := h.leaderLog;
    assert LastTerm(voter) >= t by {
      SoundIsSorted(ll, voter);
      assert ll[t][..i + 1][i] == voter[..i + 1][i];
    }
    if LastTerm(stood) == LastTerm(voter) {
      SameLastTerm(ll, voter, stood);
      HoldsExtends(ll, voter, stood, t, i);
    } else {
      assert Holds(ll, stood, LastTerm(stood), |stood| - 1);
      LaterLastTerm(ll, stood, t, i);
    }
  }

  /** Leader completeness: an entry committed in term `t` is in the log of every later leader. */
  lemma LeaderCompleteness(h: History, t: Term, i: nat, u: Term)
    requires HistoryOk(h) && Committed(h, t, i)
    requires u in h.leaderLog && t <= u
    ensures Holds(h.leaderLog, h.leaderLog[u], t, i)
    decreases u
  {
    if t < u {
      assert ReignOk(h, u);
      var c := h.leaderOf[u];
      var stood := h.candidacies[Seat(u, c)];
      var v := QuorumsMeet(Ackers(h, t, i), h.quorum[u], h.members);
      assert Acked(h, t, v, i);
      assert BallotOk(h, u, v);
      assert CandidacyOk(h, u, c);
      var voter := h.ballots[Seat(u, v)].log;
      forall w | t <= w < u && w in h.leaderLog
        ensures Holds(h.leaderLog, h.leaderLog[w], t, i)
      {
        LeaderCompleteness(h, t, i, w);
      }
      assert !Lost(h.leaderLog, t, i, u);
      UpToDateHolds(h, t, i, u, voter, stood);
      HoldsExtends(h.leaderLog, stood, h.leaderLog[u], t, i);
    }
  }

  /** Two committed prefixes are prefixes of one another. */
  lemma CommittedPrefixesAgree(h: History, a: Log, j: nat, ta: Term, b: Log, k: nat, tb: Term)
    requires HistoryOk(h)
    requires CommitOk(h, a, j, ta) && CommitOk(h, b, k, tb)
    requires a[0] == b[0] && j <= k
    ensures a[..j + 1] == b[..j + 1]
  {
    if j > 0 {
      var t, i := CommitWitness(h, a, j, ta);
      var u, m := CommitWitness(h, b, k, tb);
      HoldsLess(h.leaderLog, b, u, k, j);
      if t <= u {
        LeaderCompleteness(h, t, i, u);
        HoldsLess(h.leaderLog, h.leaderLog[u], t, i, j);
      } else {
        LeaderCompleteness(h, u, m, t);
        HoldsLess(h.leaderLog, h.leaderLog[t], u, m, j);
      }
    }
  }

  lemma CommitWitness(h: History, log: Log, k: nat, term: Term) returns (t: Term, i: nat)
    requires CommitOk(h, log, k, term) && k > 0
    ensures t <= term && k <= i && Committed(h, t, i) && Holds(h.leaderLog, log, t, k)
  {
    t, i :| t <= term && k <= i && Committed(h, t, i) && Holds(h.leaderLog, log, t, k);
  }
}
