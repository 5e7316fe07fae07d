/** Everything that has happened in a cluster, and the invariants of a run stated against it.

    A node or a message is only ever related to the history, never to another node or message
    directly. A step therefore has to be checked for the one node that moves and the messages it
    sends; everything else is carried along by the fact that histories only grow. */
module RaftHistory {
  import opened Collections
  import opened RaftTypes
  import opened RaftHandlers

  /** A node in a term. */
  datatype Seat = Seat(term: Term, node: NodeId)

  /** A vote as it was cast: for whom, and with which log. */
  datatype Ballot = Ballot(candidate: NodeId, log: Log)

  /** A client command as the leader `node` took it. */
  datatype Acceptance = Acceptance(node: NodeId, term: Term, index: nat, command: Command)

  datatype History = History(
    members: set<NodeId>,
    sent: set<Envelope>,                     // every message ever sent
    consumed: set<Envelope>,                 // the once-only messages delivered so far
    candidacies: map<Seat, Log>,   // the log a candidate stood with
    ballots: map<Seat, Ballot>,    // who voted for whom
    leaderOf: map<Term, NodeId>,
    quorum: map<Term, set<NodeId>>,          // the voters that elected the leader of a term
    leaderLog: map<Term, Log>,               // the log of the leader of a term, as far as it got
    acks: map<Seat, nat>,          // how much of that log a node acknowledged in the term
    accepted: map<Ticket, Acceptance>,
    answers: set<Answer>)

  // ----- Majorities -----

  ghost predicate Majority(q: set<NodeId>, members: set<NodeId>) {
    q <= members && HasMajority(|q|, |members|)
  }

  lemma QuorumsMeet(a: set<NodeId>, b: set<NodeId>, members: set<NodeId>) returns (v: NodeId)
    requires Majority(a, members) && Majority(b, members)
    ensures v in a && v in b
  {
    SubsetCardinality(a + b, members);
    assert |a| + |b| == |a + b| + |a * b|;
    v :| v in a * b;
  }

  // ----- Logs against the leaders' logs -----

  /** `log` begins with the first `i + 1` entries of the leader log of term `t`. */
  ghost predicate Holds(ll: map<Term, Log>, log: Log, t: Term, i: nat) {
    t in ll && i < |ll[t]| && i < |log| && ll[t][..i + 1] == log[..i + 1]
  }

  /** Every entry was put into the log by the leader of its term, on top of that leader's own prefix.
      This is log matching in a form that speaks of one log only. */
  ghost predicate Sound(ll: map<Term, Log>, log: Log) {
    |log| > 0 && forall i {:trigger Holds(ll, log, log[i].term, i)} :: 0 <= i < |log| ==> Holds(ll, log, log[i].term, i)
  }

  ghost predicate Sorted(log: Log) {
    forall i, j :: 0 <= i <= j < |log| ==> log[i].term <= log[j].term
  }

  ghost predicate LeaderLogOk(ll: map<Term, Log>, t: Term)
    requires t in ll
  {
    && Sound(ll, ll[t])
    && ll[t][0] == GENESIS
    && Sorted(ll[t])
    && LastTerm(ll[t]) == t
  }

  ghost predicate LeaderLogsOk(ll: map<Term, Log>) {
    && 0 in ll && ll[0] == [GENESIS]
    && forall t {:trigger LeaderLogOk(ll, t)} :: t in ll ==> LeaderLogOk(ll, t)
  }

  /** Some leader after `t` and before `before` did not have the first `i + 1` entries of term `t`'s log. */
  ghost predicate Lost(ll: map<Term, Log>, t: Term, i: nat, before: Term) {
    exists w :: t < w < before && w in ll && !Holds(ll, ll[w], t, i)
  }

  ghost predicate Acked(h: History, t: Term, p: NodeId, i: nat) {
    Seat(t, p) in h.acks && i < h.acks[Seat(t, p)]
  }

  /** What `p` acknowledged in earlier terms is still in its log, unless a later leader lacked it. */
  ghost predicate Keeps(h: History, p: NodeId, log: Log, before: Term) {
    forall t: Term, i: nat {:trigger Acked(h, t, p, i)} :: t < before && Acked(h, t, p, i) ==>
      Holds(h.leaderLog, log, t, i) || Lost(h.leaderLog, t, i, before)
  }

  // ----- Commitment -----

  ghost function Ackers(h: History, t: Term, i: nat): set<NodeId> {
    set p | p in h.members && Acked(h, t, p, i)
  }

  /** The commit rule: an entry of the leader's own term that a majority acknowledged in that term. */
  ghost predicate Committed(h: History, t: Term, i: nat) {
    && t in h.leaderLog && i < |h.leaderLog[t]| && h.leaderLog[t][i].term == t
    && Majority(Ackers(h, t, i), h.members)
  }

  /** The first `k + 1` entries of `log` are covered by a commit made in a term up to `term`. */
  ghost predicate CommitOk(h: History, log: Log, k: nat, term: Term) {
    && k < |log|
    && (k == 0 || exists t: Term, i: nat :: t <= term && k <= i && Committed(h, t, i) && Holds(h.leaderLog, log, t, k))
  }

  // ----- The history by itself -----

  ghost predicate CandidacyOk(h: History, u: Term, c: NodeId)
    requires Seat(u, c) in h.candidacies
  {
    var log := h.candidacies[Seat(u, c)];
    c in h.members && Sound(h.leaderLog, log) && LastTerm(log) < u
  }

  ghost predicate BallotOk(h: History, u: Term, v: NodeId)
    requires Seat(u, v) in h.ballots
  {
    var b := h.ballots[Seat(u, v)];
    && v in h.members
    && Seat(u, b.candidate) in h.candidacies
    && var stood := h.candidacies[Seat(u, b.candidate)];
    && |stood| > 0
    && Sound(h.leaderLog, b.log)
    && UpToDate(LastTerm(stood), |stood| - 1, b.log)
    && ((u !in h.leaderLog || (u in h.quorum && v in h.quorum[u])) ==> Keeps(h, v, b.log, u))
  }

  ghost predicate ReignOk(h: History, u: Term)
    requires u in h.leaderLog
  {
    && u in h.leaderOf && u in h.quorum
    && var c := h.leaderOf[u];
    && Seat(u, c) in h.candidacies
    && h.candidacies[Seat(u, c)] + [Entry(u, NoOp)] <= h.leaderLog[u]
    && Majority(h.quorum[u], h.members)
    && forall v :: v in h.quorum[u] ==> Seat(u, v) in h.ballots && h.ballots[Seat(u, v)].candidate == c
  }

  ghost predicate AnswerOk(h: History, a: Answer) {
    && a.ticket in h.accepted
    && var acc := h.accepted[a.ticket];
    && a.index == acc.index
    && (a.entry.term == acc.term ==> a.entry == Entry(acc.term, Apply(acc.command)))
    && a.entry.command.Apply?
    && exists t: Term, i: nat :: AnswerFrom(h, a, t, i)
  }

  ghost predicate AnswerFrom(h: History, a: Answer, t: Term, i: nat) {
    && Committed(h, t, i) && a.index <= i
    && h.leaderLog[t][a.index] == a.entry
    && a.output == Commands(h.leaderLog[t][..a.index + 1])
  }

  ghost predicate AcceptanceOk(h: History, k: Ticket)
    requires k in h.accepted
  {
    var acc := h.accepted[k];
    && acc.term in h.leaderLog && acc.index < |h.leaderLog[acc.term]|
    && h.leaderLog[acc.term][acc.index] == Entry(acc.term, Apply(acc.command))
    && acc.term in h.leaderOf && h.leaderOf[acc.term] == acc.node
  }

  // ----- One message against the history -----

  ghost predicate MessageOk(h: History, e: Envelope) {
    && e.src in h.members && e.dst in h.members && e.src != e.dst
    && match e.msg
       case AppendRequest(t, leader, prev, prevTerm, entries, commit) =>
         && t in h.leaderOf && h.leaderOf[t] == leader == e.src
         && t in h.leaderLog && prev + |entries| < |h.leaderLog[t]|
         && prevTerm == h.leaderLog[t][prev].term
         && entries == h.leaderLog[t][prev + 1..prev + 1 + |entries|]
         && commit <= prev + |entries|
         && CommitOk(h, h.leaderLog[t], commit, t)
       case AppendResponse(t, m, success) =>
         if success then t in h.leaderOf && h.leaderOf[t] == e.dst && Acked(h, t, e.src, m)
         else m == 0 || (t in h.leaderLog && m < |h.leaderLog[t]|)
       case VoteRequest(u, c, lastIndex, lastTerm) =>
         && c == e.src && Seat(u, c) in h.candidacies
         && |h.candidacies[Seat(u, c)]| > 0
         && lastIndex == |h.candidacies[Seat(u, c)]| - 1
         && lastTerm == LastTerm(h.candidacies[Seat(u, c)])
       case VoteResponse(u, granted) =>
         granted ==> Seat(u, e.src) in h.ballots && h.ballots[Seat(u, e.src)].candidate == e.dst
  }

  ghost predicate HistoryOk(h: History) {
    && LeaderLogsOk(h.leaderLog)
    && h.quorum.Keys == h.leaderOf.Keys == h.leaderLog.Keys - {0}
    && (forall u: Term, c: NodeId {:trigger CandidacyOk(h, u, c)} :: Seat(u, c) in h.candidacies ==>
          CandidacyOk(h, u, c))
    && (forall u: Term, v: NodeId {:trigger BallotOk(h, u, v)} :: Seat(u, v) in h.ballots ==> BallotOk(h, u, v))
    && (forall u {:trigger ReignOk(h, u)} :: u in h.leaderLog && u != 0 ==> ReignOk(h, u))
    && (forall t: Term, p: NodeId :: Seat(t, p) in h.acks ==>
          t in h.leaderLog && h.acks[Seat(t, p)] <= |h.leaderLog[t]|)
    && (forall k {:trigger AcceptanceOk(h, k)} :: k in h.accepted ==> AcceptanceOk(h, k))
    && (forall a {:trigger AnswerOk(h, a)} :: a in h.answers ==> AnswerOk(h, a))
    && h.consumed <= h.sent
    && (forall e {:trigger MessageOk(h, e)} :: e in h.sent ==> MessageOk(h, e))
  }

  // ----- One node against the history -----

  /** Nothing the node did lies in a term beyond its own. */
  ghost predicate OwnPastOk(h: History, n: Node) {
    && (forall u: Term :: Seat(u, n.id) in h.candidacies ==> u <= n.term)
    && (forall u: Term :: Seat(u, n.id) in h.ballots ==> u <= n.term)
    && (forall u: Term :: Seat(u, n.id) in h.acks ==> u <= n.term)
    && SentOk(h, n.id, n.term)
  }

  ghost predicate SentOk(h: History, p: NodeId, term: Term) {
    forall e :: e in h.sent && e.src == p ==> e.msg.term <= term
  }

  ghost predicate VoteOk(h: History, n: Node) {
    match n.votedFor
    case None => Seat(n.term, n.id) !in h.ballots
    case Some(c) => Seat(n.term, n.id) in h.ballots && h.ballots[Seat(n.term, n.id)].candidate == c
  }

  /** The granted responses a candidate has taken delivery of. */
  ghost function Heard(h: History, c: NodeId, u: Term): set<NodeId> {
    set v | v in h.members && v != c && Envelope(v, c, VoteResponse(u, true)) in h.consumed
  }

  ghost predicate RoleOk(h: History, n: Node) {
    match n.role
    case Follower(_) => true
    case Candidate(k) =>
      && n.votedFor == Some(n.id)
      && Seat(n.term, n.id) in h.candidacies && h.candidacies[Seat(n.term, n.id)] == n.log
      && (n.term in h.leaderOf ==> h.leaderOf[n.term] != n.id)
      && k <= 1 + |Heard(h, n.id, n.term)|
    case Leader(next, match_) =>
      && n.term in h.leaderOf && h.leaderOf[n.term] == n.id
      && n.term in h.leaderLog && h.leaderLog[n.term] == n.log
      && Seat(n.term, n.id) in h.acks && h.acks[Seat(n.term, n.id)] == |n.log|
      && next.Keys == match_.Keys == h.members - {n.id}
      && (forall p :: p in next ==> 1 <= next[p] <= |n.log|)
      && (forall p :: p in match_ ==> match_[p] == 0 || Acked(h, n.term, p, match_[p]))
  }

  ghost predicate PeersOk(h: History, n: Node) {
    && n.id in h.members
    && NoRepeats(n.peers) && Elems(n.peers) == h.members - {n.id}
  }

  ghost predicate PendingOk(h: History, n: Node) {
    forall i :: i in n.pending ==>
      n.pending[i] in h.accepted && h.accepted[n.pending[i]].index == i
  }

  /** The node's log, how much of it is committed and applied, and what it has promised to keep. */
  ghost predicate LogOk(h: History, n: Node) {
    && Sound(h.leaderLog, n.log) && LastTerm(n.log) <= n.term
    && n.lastApplied <= n.commitIndex
    && CommitOk(h, n.log, n.commitIndex, n.term)
    && Keeps(h, n.id, n.log, n.term + 1)
    && n.machine == Commands(n.log[..n.lastApplied + 1])
  }

  ghost predicate NodeOk(h: History, n: Node) {
    && PeersOk(h, n)
    && LogOk(h, n)
    && OwnPastOk(h, n)
    && VoteOk(h, n)
    && RoleOk(h, n)
    && PendingOk(h, n)
  }

  // ----- Growth -----

  /** A leader only appends, and only entries of its own term. */
  ghost predicate LogGrow(x: Log, y: Log, t: Term) {
    x == y || (x <= y && forall j :: |x| <= j < |y| ==> y[j].term == t)
  }

  ghost predicate LogsGrow(a: map<Term, Log>, b: map<Term, Log>) {
    forall t {:trigger t in a} :: t in a ==> t in b && LogGrow(a[t], b[t], t)
  }

  ghost predicate Sub<K, V>(a: map<K, V>, b: map<K, V>) {
    forall k :: k in a ==> k in b && b[k] == a[k]
  }

  ghost predicate Grows(a: History, b: History) {
    && a.members == b.members
    && a.sent <= b.sent && a.consumed <= b.consumed
    && Sub(a.candidacies, b.candidacies) && Sub(a.ballots, b.ballots)
    && Sub(a.leaderOf, b.leaderOf) && Sub(a.quorum, b.quorum)
    && LogsGrow(a.leaderLog, b.leaderLog)
    && (forall k :: k in a.acks ==> k in b.acks && a.acks[k] <= b.acks[k])
    && Sub(a.accepted, b.accepted) && a.answers <= b.answers
  }

  /** `p` led and acknowledged the same in both. */
  ghost predicate SameReign(a: History, b: History, p: NodeId) {
    && (forall u: Term :: Seat(u, p) in b.acks ==> Seat(u, p) in a.acks && a.acks[Seat(u, p)] == b.acks[Seat(u, p)])
    && (forall u :: u in b.leaderOf && b.leaderOf[u] == p ==>
          && u in a.leaderOf && a.leaderOf[u] == p
          && (u in b.leaderLog ==> u in a.leaderLog && b.leaderLog[u] == a.leaderLog[u]))
  }

  /** What only `p` itself adds to the history is the same in both. */
  ghost predicate SameFor(a: History, b: History, p: NodeId) {
    && (forall u: Term :: Seat(u, p) in b.candidacies ==> Seat(u, p) in a.candidacies)
    && (forall u: Term :: Seat(u, p) in b.ballots ==> Seat(u, p) in a.ballots)
    && SameReign(a, b, p)
  }
}
