/** A run of three nodes in which a client is told about a command that is not its own. */
module RaftForeignAnswer {
  import opened Collections
  import opened RaftTypes
  import opened RaftHandlers
  import opened RaftHistory
  import opened RaftElection
  import opened RaftReplication
  import opened RaftCluster

  // ----- Scenes -----

  /** What a reader of the run has to know of a cluster of the nodes 1, 2 and 3: the nodes, some of the messages
      that were sent and some of the answers that were given, all that were delivered, all commands taken. */
  datatype Scene = Scene(one: Node, two: Node, three: Node, mail: set<Envelope>, used: set<Envelope>,
                         accepted: map<Ticket, Acceptance>, told: set<Answer>)

  ghost predicate Shows(c: Cluster, s: Scene) {
    && c.nodes == map[1 := s.one, 2 := s.two, 3 := s.three]
    && s.mail <= c.h.sent && c.h.consumed <= s.used
    && c.h.accepted == s.accepted && s.told <= c.h.answers
  }

  ghost predicate Reached(s: Scene) {
    exists states: seq<Cluster>, events: seq<Event> :: IsRun(states, events) && Shows(states[|events|], s)
  }

  function NodeOf(s: Scene, id: NodeId): Node {
    if id == 1 then s.one else if id == 2 then s.two else s.three
  }

  function Moved(s: Scene, id: NodeId, n: Node): Scene {
    if id == 1 then s.(one := n) else if id == 2 then s.(two := n) else s.(three := n)
  }

  /** `t` is what is left of `s` to know once node `id` has had the given outcome. */
  ghost predicate Follows(s: Scene, id: NodeId, out: Outcome, t: Scene) {
    && id in {1, 2, 3}
    && t == Moved(s, id, out.node).(mail := t.mail, used := t.used, accepted := t.accepted, told := t.told)
    && t.mail <= s.mail + Elems(out.sends) && s.used <= t.used && t.told <= s.told + Elems(out.answers)
  }

  ghost predicate Keeps(h: History, f: History, t: Scene) {
    f.sent == h.sent && f.answers == h.answers && f.consumed <= t.used && f.accepted == t.accepted
  }

  lemma {:induction false} AfterShows(c: Cluster, s: Scene, id: NodeId, out: Outcome, f: History, t: Scene)
    requires Shows(c, s) && Follows(s, id, out, t) && Keeps(c.h, f, t)
    ensures Shows(Cluster(c.nodes[id := out.node], Send(Release(f, out.answers), out.sends)), t)
  {
  }

  lemma {:induction false} Advance(states: seq<Cluster>, events: seq<Event>, ev: Event, d: Cluster, t: Scene)
    requires IsRun(states, events) && Next(states[|events|], ev, d) && Shows(d, t)
    ensures Reached(t)
  {
    RunOn(states, events, ev, d);
    assert (states + [d])[|events + [ev]|] == d;
  }

  lemma {:induction false} TimesOut(s: Scene, id: NodeId, t: Scene)
    requires Reached(s) && id in {1, 2, 3} && !NodeOf(s, id).role.Leader? && |NodeOf(s, id).peers| == 2
    requires NodeOf(s, id).commitIndex < |NodeOf(s, id).log|
    requires Follows(s, id, BecomeCandidate(NodeOf(s, id)), t) && t.used == s.used && t.accepted == s.accepted
    ensures Reached(t)
  {
    var states: seq<Cluster>, events: seq<Event> :| IsRun(states, events) && Shows(states[|events|], s);
    var c, n := states[|events|], NodeOf(s, id);
    AfterShows(c, s, id, BecomeCandidate(n), Stand(c.h, n), t);
    var d := Cluster(c.nodes[id := BecomeCandidate(n).node], After(c.h, n, Timeout(id)));
    Advance(states, events, Timeout(id), d, t);
  }

  lemma {:induction false} Sends(s: Scene, id: NodeId, t: Scene)
    requires Reached(s) && id in {1, 2, 3} && NodeOf(s, id).role.Leader? && IndicesOk(NodeOf(s, id))
    requires t == s.(mail := t.mail) && t.mail <= s.mail + Elems(Heartbeats(NodeOf(s, id)))
    ensures Reached(t)
  {
    var states: seq<Cluster>, events: seq<Event> :| IsRun(states, events) && Shows(states[|events|], s);
    var c, n := states[|events|], NodeOf(s, id);
    AfterShows(c, s, id, Outcome(n, Heartbeats(n), []), c.h, t);
    var d := Cluster(c.nodes[id := n], After(c.h, n, Heartbeat(id)));
    Advance(states, events, Heartbeat(id), d, t);
  }

  lemma {:induction false} Takes(s: Scene, id: NodeId, command: Command, ticket: Ticket, t: Scene)
    requires Reached(s) && id in {1, 2, 3} && NodeOf(s, id).role.Leader? && Ready(NodeOf(s, id))
             && ticket !in s.accepted
    requires Follows(s, id, ClientApply(NodeOf(s, id), command, ticket), t) && t.used == s.used
    requires var n := NodeOf(s, id); t.accepted == s.accepted[ticket := Acceptance(n.id, n.term, |n.log|, command)]
    ensures Reached(t)
  {
    var states: seq<Cluster>, events: seq<Event> :| IsRun(states, events) && Shows(states[|events|], s);
    var c, n, ev := states[|events|], NodeOf(s, id), Client(id, command, ticket);
    AfterShows(c, s, id, ClientApply(n, command, ticket), Accept(c.h, n, command, ticket), t);
    var d := Cluster(c.nodes[id := ClientApply(n, command, ticket).node], After(c.h, n, ev));
    Advance(states, events, ev, d, t);
  }

  lemma {:induction false} Delivers(s: Scene, e: Envelope, t: Scene)
    requires Reached(s) && e.dst in {1, 2, 3} && e in s.mail && CanReceive(NodeOf(s, e.dst), e.msg)
    requires Follows(s, e.dst, Receive(NodeOf(s, e.dst), e.src, e.msg), t) && t.accepted == s.accepted
    requires if OnceOnly(e.msg) then e !in s.used && t.used == s.used + {e} else t.used == s.used
    ensures Reached(t)
  {
    var states: seq<Cluster>, events: seq<Event> :| IsRun(states, events) && Shows(states[|events|], s);
    var c, n := states[|events|], NodeOf(s, e.dst);
    ReceivedKeeps(Consume(c.h, e), n, e.msg);
    AfterShows(c, s, e.dst, Receive(n, e.src, e.msg), Received(Consume(c.h, e), n, e.msg), t);
    var d := Cluster(c.nodes[e.dst := Receive(n, e.src, e.msg).node], After(c.h, n, Deliver(e)));
    Advance(states, events, Deliver(e), d, t);
  }

  lemma {:induction false} RunOn(states: seq<Cluster>, events: seq<Event>, ev: Event, d: Cluster)
    requires IsRun(states, events) && Next(states[|events|], ev, d)
    ensures IsRun(states + [d], events + [ev])
  {
    var more, evs := states + [d], events + [ev];
    forall i | 0 <= i < |evs|
      ensures StepAt(more, evs, i)
    {
      if i < |events| {
        assert StepAt(states, events, i);
      }
    }
  }

  // ----- What the handlers do in a cluster of three -----

  const TRIO: seq<NodeId> := [1, 2, 3]

  lemma {:induction false} PeersOfThree()
    ensures Without(TRIO, 1) == [2, 3] && Without(TRIO, 2) == [1, 3] && Without(TRIO, 3) == [1, 2]
  {
    assert TRIO[1..] == [2, 3] && [2, 3][1..] == [3] && [3][1..] == [];
  }

  lemma {:induction false} Stands(n: Node)
    requires |n.peers| == 2 && n.commitIndex < |n.log|
    ensures BecomeCandidate(n).node == StartCandidacy(n)
    ensures forall i :: 0 <= i < 2 ==> VoteRequestTo(StartCandidacy(n), n.peers[i]) in BecomeCandidate(n).sends
  {
    var c := StartCandidacy(n);
    forall i | 0 <= i < 2
      ensures VoteRequestTo(c, n.peers[i]) in BecomeCandidate(n).sends
    {
      assert VoteRequests(c)[i] == VoteRequestTo(c, n.peers[i]);
    }
  }

  /** With no follower heard from, nothing becomes committed in a cluster of three. */
  lemma {:induction false} NothingReplicated(n: Node)
    requires n.role.Leader? && |n.peers| == 2 && n.commitIndex == 0 && n.lastApplied == 0
    requires |n.log| > 0
    requires forall p :: p in n.role.matchIndex ==> n.role.matchIndex[p] == 0
    ensures SettleCommits(n) == Outcome(n, [], [])
  {
    assert forall j :: 0 < j < |n.log| ==> Replicas(n.role.matchIndex, j) == {};
    assert ScanDown(n, |n.log| - 1) == 0;
  }

  /** A candidate of three with the vote of one other node. */
  function Elected(c: Node): Node
    requires |c.peers| == 2
  {
    c.(log := c.log + [Entry(c.term, NoOp)],
       role := Leader(map[c.peers[0] := |c.log| + 1, c.peers[1] := |c.log| + 1], map[c.peers[0] := 0, c.peers[1] := 0]))
  }

  lemma {:induction false} Wins(c: Node)
    requires c.role == Candidate(1) && |c.peers| == 2 && |c.log| > 0 && c.commitIndex == c.lastApplied == 0
    ensures OnVoteResponse(c, VoteResponse(c.term, true)).node == Elected(c)
  {
    var lead := TakeLead(CountVote(c));
    NothingReplicated(lead);
    assert Elems(c.peers) == {c.peers[0], c.peers[1]};
    assert lead.role.nextIndex == map[c.peers[0] := |c.log| + 1, c.peers[1] := |c.log| + 1];
    assert lead.role.matchIndex == map[c.peers[0] := 0, c.peers[1] := 0];
  }

  lemma {:induction false} Elects(s: Scene, e: Envelope, t: Scene)
    requires Reached(s) && e.dst in {1, 2, 3} && e in s.mail && e !in s.used
    requires var c := NodeOf(s, e.dst);
             && c.role == Candidate(1) && |c.peers| == 2 && |c.log| > 0 && c.commitIndex == c.lastApplied == 0
             && e.msg == VoteResponse(c.term, true)
             && t == Moved(s, e.dst, Elected(c)).(mail := {}, used := s.used + {e})
    ensures Reached(t)
  {
    Wins(NodeOf(s, e.dst));
    Delivers(s, e, t);
  }

  lemma {:induction false} TakesQuietly(n: Node, command: Command, ticket: Ticket)
    requires Ready(n) && n.role.Leader? && |n.peers| == 2 && n.commitIndex == 0
    requires forall p :: p in n.role.matchIndex ==> n.role.matchIndex[p] == 0
    ensures var m := ClientAppend(n, command, ticket);
            && ClientApply(n, command, ticket).node == m && IndicesOk(m)
            && forall i :: 0 <= i < 2 ==> AppendRequestTo(m, n.peers[i]) in ClientApply(n, command, ticket).sends
  {
    var m := ClientAppend(n, command, ticket);
    NothingReplicated(m);
    Beats(m);
  }

  lemma {:induction false} Beats(n: Node)
    requires n.role.Leader? && IndicesOk(n)
    ensures forall i :: 0 <= i < |n.peers| ==> AppendRequestTo(n, n.peers[i]) in Heartbeats(n)
  {
    forall i | 0 <= i < |n.peers|
      ensures AppendRequestTo(n, n.peers[i]) in Heartbeats(n)
    {
      assert Heartbeats(n)[i] == AppendRequestTo(n, n.peers[i]);
    }
  }

  /** A rejection of an early entry sends the leader back to the start. */
  lemma {:induction false} BacksOff(n: Node, src: NodeId, back: nat)
    requires n.role.Leader? && |n.peers| == 2 && n.commitIndex == n.lastApplied == 0 && |n.log| > 0 && back <= 2
    requires forall p :: p in n.role.matchIndex ==> n.role.matchIndex[p] == 0
    ensures OnAppendResponse(n, src, AppendResponse(n.term, back, false)).node
         == n.(role := Leader(n.role.nextIndex[src := 1], n.role.matchIndex))
  {
    NothingReplicated(RecordResponse(n, src, AppendResponse(n.term, back, false)));
  }

  // ----- The nodes -----

  function OldLog(x: Command): Log {
    [GENESIS, Entry(1, NoOp), Entry(1, Apply(x))]
  }

  function NewLog(y: Command): Log {
    [GENESIS, Entry(2, NoOp), Entry(2, Apply(y))]
  }

  /** Node 1 leads term 1 and has taken `x` for ticket 7. */
  function OldLeader(x: Command): Node {
    Node(1, [2, 3], 1, Some(1), OldLog(x), Leader(map[2 := 2, 3 := 2], map[2 := 0, 3 := 0]), 0, 0, [], map[2 := 7])
  }

  function Deposed(x: Command): Node {
    OldLeader(x).(term := 2, votedFor := None, role := Follower(Some(2)))
  }

  /** Node 2 leads term 2 and has taken `y` for ticket 8; its next indices are `a` and `b`. */
  function NewLeader(y: Command, a: nat, b: nat): Node {
    Node(2, [1, 3], 2, Some(2), NewLog(y), Leader(map[1 := a, 3 := b], map[1 := 0, 3 := 0]), 0, 0, [], map[2 := 8])
  }

  function Settled(y: Command): Node {
    Node(2, [1, 3], 2, Some(2), NewLog(y), Leader(map[1 := 1, 3 := 3], map[1 := 0, 3 := 2]), 2, 2, [y], map[])
  }

  /** Node 2 after its vote for node 1, and node 3 after its vote for node 2. */
  function Voter(id: NodeId, peers: seq<NodeId>, term: Term, candidate: NodeId): Node {
    Node(id, peers, term, Some(candidate), [GENESIS], Follower(None), 0, 0, [], map[])
  }

  function Third(log: Log): Node {
    Node(3, [1, 2], 2, Some(2), log, Follower(Some(2)), 0, 0, [], map[])
  }

  function OldTaken(x: Command): map<Ticket, Acceptance> {
    map[7 := Acceptance(1, 1, 2, x)]
  }

  function Taken(x: Command, y: Command): map<Ticket, Acceptance> {
    map[7 := Acceptance(1, 1, 2, x), 8 := Acceptance(2, 2, 2, y)]
  }

  // ----- The messages -----

  function Ask(term: Term, src: NodeId, dst: NodeId): Envelope {
    Envelope(src, dst, VoteRequest(term, src, 0, 0))
  }

  function Grant(term: Term, src: NodeId, dst: NodeId): Envelope {
    Envelope(src, dst, VoteResponse(term, true))
  }

  /** The request that node 2 sends with `y` before it has backed off, and after. */
  function Probe(y: Command, dst: NodeId): Envelope {
    Envelope(2, dst, AppendRequest(2, 2, 1, 2, [Entry(2, Apply(y))], 0))
  }

  function Full(y: Command, dst: NodeId, commit: nat): Envelope {
    Envelope(2, dst, AppendRequest(2, 2, 0, 0, [Entry(2, NoOp), Entry(2, Apply(y))], commit))
  }

  function Refused(src: NodeId, back: nat): Envelope {
    Envelope(src, 2, AppendResponse(2, back, false))
  }

  const ACKNOWLEDGED := Envelope(3, 2, AppendResponse(2, 2, true))

  // ----- The first leader -----

  function Fresh(id: NodeId, peers: seq<NodeId>): Node {
    Node(id, peers, 0, None, [GENESIS], Follower(None), 0, 0, [], map[])
  }

  function Opening(): Scene {
    Scene(Fresh(1, [2, 3]), Fresh(2, [1, 3]), Fresh(3, [1, 2]), {}, {}, map[], {})
  }

  ghost function Start(): Cluster {
    Cluster(map[1 := Fresh(1, [2, 3]), 2 := Fresh(2, [1, 3]), 3 := Fresh(3, [1, 2])],
            History({1, 2, 3}, {}, {}, map[], map[], map[], map[], map[0 := [GENESIS]], map[], map[], {}))
  }

  lemma {:induction false} StartIsInitial()
    ensures Init(Start())
  {
    forall id | id in Start().nodes
      ensures Start().nodes[id].id == id && IsNew({1, 2, 3}, Start().nodes[id])
    {
      FreshIsNew(id, Start().nodes[id].peers);
    }
  }

  lemma {:induction false} Begins(c: Cluster, s: Scene)
    requires Init(c) && Shows(c, s)
    ensures Reached(s)
  {
    var states: seq<Cluster>, events: seq<Event> := [c], [];
    assert IsRun(states, events);
    assert states[|events|] == c;
  }

  lemma {:induction false} OpeningReached()
    ensures Reached(Opening())
  {
    StartIsInitial();
    Begins(Start(), Opening());
  }

  lemma {:induction false} FreshIsNew(id: NodeId, peers: seq<NodeId>)
    requires id in {1, 2, 3} && peers == if id == 1 then [2, 3] else if id == 2 then [1, 3] else [1, 2]
    ensures IsNew({1, 2, 3}, Fresh(id, peers))
  {
    PeersOfThree();
    assert Fresh(id, peers) == NewNode(id, TRIO);
    assert NoRepeats(TRIO) && Elems(TRIO) == {1, 2, 3};
  }

  /** A node that has voted for nobody in the term of the request, and has an empty log, votes. */
  lemma {:induction false} Votes(n: Node, term: Term, src: NodeId)
    requires n.log == [GENESIS] && n.term < term && src in n.peers
    ensures OnVoteRequest(n, src, Ask(term, src, n.id).msg)
         == Outcome(n.(term := term, votedFor := Some(src), role := Follower(None)), [Grant(term, n.id, src)], [])
  {
  }

  function FirstElectedNode(): Node {
    var lead := Leader(map[2 := 2, 3 := 2], map[2 := 0, 3 := 0]);
    Node(1, [2, 3], 1, Some(1), [GENESIS, Entry(1, NoOp)], lead, 0, 0, [], map[])
  }

  function FirstElected(): Scene {
    Scene(FirstElectedNode(), Voter(2, [1, 3], 1, 1), Fresh(3, [1, 2]), {}, {Ask(1, 1, 2), Grant(1, 2, 1)}, map[], {})
  }

  function FirstStood(): Scene {
    Opening().(one := StartCandidacy(Opening().one), mail := {Ask(1, 1, 2)})
  }

  lemma {:induction false} FirstStands()
    ensures Reached(FirstStood())
  {
    OpeningReached();
    var n := Opening().one;
    Stands(n);
    assert VoteRequestTo(StartCandidacy(n), n.peers[0]) == Ask(1, 1, 2);
    TimesOut(Opening(), 1, FirstStood());
  }

  function FirstVoted(): Scene {
    FirstStood().(two := Voter(2, [1, 3], 1, 1), mail := {Grant(1, 2, 1)}, used := {Ask(1, 1, 2)})
  }

  lemma {:induction false} FirstVotes()
    ensures Reached(FirstVoted())
  {
    FirstStands();
    Votes(FirstStood().two, 1, 1);
    Delivers(FirstStood(), Ask(1, 1, 2), FirstVoted());
  }

  lemma {:induction false} WinsFirst(c: Node)
    requires c == StartCandidacy(Fresh(1, [2, 3]))
    ensures Elected(c) == FirstElectedNode()
  {
  }

  lemma {:induction false} FirstElection()
    ensures Reached(FirstElected())
  {
    FirstVotes();
    var s := FirstVoted();
    WinsFirst(s.one);
    Elects(s, Grant(1, 2, 1), FirstElected());
  }

  function FirstTaken(x: Command): Scene {
    FirstElected().(one := OldLeader(x), accepted := OldTaken(x))
  }

  lemma {:induction false} FirstTakes(x: Command)
    ensures Reached(FirstTaken(x))
  {
    FirstElection();
    var s := FirstElected();
    TakesQuietly(s.one, x, 7);
    assert ClientAppend(s.one, x, 7) == OldLeader(x);
    Takes(s, 1, x, 7, FirstTaken(x));
  }

  // ----- The second leader -----

  function Uses(): set<Envelope> {
    {Ask(1, 1, 2), Grant(1, 2, 1), Ask(2, 2, 3), Grant(2, 3, 2)}
  }

  function SecondElectedNode(): Node {
    var lead := Leader(map[1 := 2, 3 := 2], map[1 := 0, 3 := 0]);
    Node(2, [1, 3], 2, Some(2), [GENESIS, Entry(2, NoOp)], lead, 0, 0, [], map[])
  }

  function SecondElected(x: Command): Scene {
    Scene(OldLeader(x), SecondElectedNode(), Voter(3, [1, 2], 2, 2), {}, Uses(), OldTaken(x), {})
  }

  function SecondStood(x: Command): Scene {
    FirstTaken(x).(two := StartCandidacy(FirstTaken(x).two), mail := {Ask(2, 2, 3)})
  }

  lemma {:induction false} SecondStands(x: Command)
    ensures Reached(SecondStood(x))
  {
    FirstTakes(x);
    var n := FirstTaken(x).two;
    Stands(n);
    assert VoteRequestTo(StartCandidacy(n), n.peers[1]) == Ask(2, 2, 3);
    TimesOut(FirstTaken(x), 2, SecondStood(x));
  }

  function SecondVoted(x: Command): Scene {
    var s := SecondStood(x);
    s.(three := Voter(3, [1, 2], 2, 2), mail := {Grant(2, 3, 2)}, used := s.used + {Ask(2, 2, 3)})
  }

  lemma {:induction false} SecondVotes(x: Command)
    ensures Reached(SecondVoted(x))
  {
    SecondStands(x);
    Votes(SecondStood(x).three, 2, 2);
    Delivers(SecondStood(x), Ask(2, 2, 3), SecondVoted(x));
  }

  lemma {:induction false} WinsSecond(c: Node)
    requires c == StartCandidacy(Voter(2, [1, 3], 1, 1))
    ensures Elected(c) == SecondElectedNode()
  {
  }

  lemma {:induction false} SecondElection(x: Command)
    ensures Reached(SecondElected(x))
  {
    SecondVotes(x);
    var s := SecondVoted(x);
    WinsSecond(s.two);
    UsesGrow();
    Elects(s, Grant(2, 3, 2), SecondElected(x));
  }

  lemma {:induction false} UsesGrow()
    ensures Uses() == {Ask(1, 1, 2), Grant(1, 2, 1)} + {Ask(2, 2, 3)} + {Grant(2, 3, 2)}
  {
  }

  function SecondTaken(x: Command, y: Command): Scene {
    SecondElected(x).(two := NewLeader(y, 2, 2), mail := {Probe(y, 1), Probe(y, 3)}, accepted := Taken(x, y))
  }

  lemma {:induction false} Probes(y: Command)
    ensures var n, m := SecondElectedNode(), NewLeader(y, 2, 2);
            && Ready(n) && ClientApply(n, y, 8).node == m
            && Probe(y, 1) in ClientApply(n, y, 8).sends && Probe(y, 3) in ClientApply(n, y, 8).sends
  {
    var n, m := SecondElectedNode(), NewLeader(y, 2, 2);
    TakesQuietly(n, y, 8);
    assert ClientAppend(n, y, 8) == m;
    assert m.log[2..] == [Entry(2, Apply(y))];
    assert AppendRequestTo(m, n.peers[0]) == Probe(y, 1) && AppendRequestTo(m, n.peers[1]) == Probe(y, 3);
  }

  lemma {:induction false} SecondTakes(x: Command, y: Command)
    ensures Reached(SecondTaken(x, y))
  {
    SecondElection(x);
    Probes(y);
    Takes(SecondElected(x), 2, y, 8, SecondTaken(x, y));
  }

  // ----- Backing off -----

  /** The second leader's command is taken; its next indices, what the other nodes know, and the mail vary. */
  function Backing(x: Command, y: Command, one: Node, three: Log, a: nat, b: nat, mail: set<Envelope>): Scene {
    Scene(one, NewLeader(y, a, b), Third(three), mail, Uses(), Taken(x, y), {})
  }

  lemma {:induction false} ThirdRefuses(x: Command, y: Command)
    ensures Reached(Backing(x, y, OldLeader(x), [GENESIS], 2, 2, {Probe(y, 1), Refused(3, 0)}))
  {
    SecondTakes(x, y);
    var n, e := SecondTaken(x, y).three, Probe(y, 3);
    assert OnAppendRequest(n, 2, e.msg) == Outcome(Third([GENESIS]), [Refused(3, 0)], []);
    Delivers(SecondTaken(x, y), e, Backing(x, y, OldLeader(x), [GENESIS], 2, 2, {Probe(y, 1), Refused(3, 0)}));
  }

  lemma {:induction false} ThirdHeard(x: Command, y: Command)
    ensures Reached(Backing(x, y, OldLeader(x), [GENESIS], 2, 1, {Probe(y, 1)}))
  {
    ThirdRefuses(x, y);
    BacksOff(NewLeader(y, 2, 2), 3, 0);
    assert map[1 := 2, 3 := 2][3 := 1] == map[1 := 2, 3 := 1];
    Delivers(Backing(x, y, OldLeader(x), [GENESIS], 2, 2, {Probe(y, 1), Refused(3, 0)}), Refused(3, 0),
             Backing(x, y, OldLeader(x), [GENESIS], 2, 1, {Probe(y, 1)}));
  }

  lemma {:induction false} StepsDown(x: Command, y: Command)
    ensures OnAppendRequest(OldLeader(x), 2, Probe(y, 1).msg) == Outcome(Deposed(x), [Refused(1, 1)], [])
  {
  }

  lemma {:induction false} FirstRefuses(x: Command, y: Command)
    ensures Reached(Backing(x, y, Deposed(x), [GENESIS], 2, 1, {Refused(1, 1)}))
  {
    ThirdHeard(x, y);
    StepsDown(x, y);
    Delivers(Backing(x, y, OldLeader(x), [GENESIS], 2, 1, {Probe(y, 1)}), Probe(y, 1),
             Backing(x, y, Deposed(x), [GENESIS], 2, 1, {Refused(1, 1)}));
  }

  lemma {:induction false} FirstHeard(x: Command, y: Command)
    ensures Reached(Backing(x, y, Deposed(x), [GENESIS], 1, 1, {}))
  {
    FirstRefuses(x, y);
    BacksOff(NewLeader(y, 2, 1), 1, 1);
    assert map[1 := 2, 3 := 1][1 := 1] == map[1 := 1, 3 := 1];
    Delivers(Backing(x, y, Deposed(x), [GENESIS], 2, 1, {Refused(1, 1)}), Refused(1, 1),
             Backing(x, y, Deposed(x), [GENESIS], 1, 1, {}));
  }

  // ----- The new command is committed -----

  lemma {:induction false} Appends(y: Command)
    ensures var n, msg := Third([GENESIS]), Full(y, 3, 0).msg;
            CanReceive(n, msg) && OnAppendRequest(n, 2, msg) == Outcome(Third(NewLog(y)), [ACKNOWLEDGED], [])
  {
    assert Merge([GENESIS], 1, Full(y, 3, 0).msg.entries) == NewLog(y);
  }

  lemma {:induction false} TwoApplied(a: Node, y: Command, ticket: Ticket)
    requires a.log == NewLog(y) && a.commitIndex == 2 && a.lastApplied == 0 && a.machine == []
    requires a.pending == map[2 := ticket]
    ensures ApplyAnswers(a) == [Answer(ticket, 2, Entry(2, Apply(y)), [y])]
    ensures ApplyCommitted(a) == a.(lastApplied := 2, machine := [y], pending := map[])
  {
    var b := ApplyOne(a);
    var c := ApplyOne(b);
    assert b == a.(lastApplied := 1);
    assert AnswersOfOne(a) == [];
    assert b.machine + [y] == [y] && map[2 := ticket] - {2} == map[];
    assert AnswersOfOne(b) == [Answer(ticket, 2, Entry(2, Apply(y)), [y])];
    assert ApplyAnswers(c) == [] && ApplyCommitted(c) == c;
    assert ApplyAnswers(b) == AnswersOfOne(b) + ApplyAnswers(c);
    assert ApplyAnswers(a) == AnswersOfOne(a) + ApplyAnswers(b);
  }

  lemma {:induction false} Settles(y: Command)
    ensures OnAppendResponse(NewLeader(y, 1, 1), 3, AppendResponse(2, 2, true)).node == Settled(y)
  {
    var n := RecordResponse(NewLeader(y, 1, 1), 3, AppendResponse(2, 2, true));
    assert map[1 := 1, 3 := 1][3 := 3] == map[1 := 1, 3 := 3] && map[1 := 0, 3 := 0][3 := 2] == map[1 := 0, 3 := 2];
    assert Replicas(n.role.matchIndex, 2) == {3};
    assert Committable(n, 2);
    assert AdvanceCommit(n) == n.(commitIndex := 2);
    TwoApplied(AdvanceCommit(n), y, 8);
  }

  lemma {:induction false} SendsAll(n: Node, y: Command, i: nat, commit: nat)
    requires n.id == 2 && n.peers == [1, 3] && n.term == 2 && n.log == NewLog(y) && n.commitIndex == commit
    requires i < 2 && n.role.Leader? && IndicesOk(n) && n.role.nextIndex[n.peers[i]] == 1
    ensures Full(y, n.peers[i], commit) in Heartbeats(n)
  {
    Beats(n);
    assert n.log[1..] == [Entry(2, NoOp), Entry(2, Apply(y))];
    assert AppendRequestTo(n, n.peers[i]) == Full(y, n.peers[i], commit);
  }

  lemma {:induction false} Resends(x: Command, y: Command)
    ensures Reached(Backing(x, y, Deposed(x), [GENESIS], 1, 1, {Full(y, 3, 0)}))
  {
    FirstHeard(x, y);
    SendsAll(NewLeader(y, 1, 1), y, 1, 0);
    Sends(Backing(x, y, Deposed(x), [GENESIS], 1, 1, {}), 2,
          Backing(x, y, Deposed(x), [GENESIS], 1, 1, {Full(y, 3, 0)}));
  }

  lemma {:induction false} Replicates(x: Command, y: Command)
    ensures Reached(Backing(x, y, Deposed(x), NewLog(y), 1, 1, {ACKNOWLEDGED}))
  {
    Resends(x, y);
    Appends(y);
    Delivers(Backing(x, y, Deposed(x), [GENESIS], 1, 1, {Full(y, 3, 0)}), Full(y, 3, 0),
             Backing(x, y, Deposed(x), NewLog(y), 1, 1, {ACKNOWLEDGED}));
  }

  function Announcing(x: Command, y: Command, mail: set<Envelope>): Scene {
    Scene(Deposed(x), Settled(y), Third(NewLog(y)), mail, Uses(), Taken(x, y), {})
  }

  lemma {:induction false} Announces(x: Command, y: Command)
    ensures Reached(Announcing(x, y, {Full(y, 1, 2)}))
  {
    Replicates(x, y);
    Settles(y);
    Delivers(Backing(x, y, Deposed(x), NewLog(y), 1, 1, {ACKNOWLEDGED}), ACKNOWLEDGED, Announcing(x, y, {}));
    SendsAll(Settled(y), y, 0, 2);
    Sends(Announcing(x, y, {}), 2, Announcing(x, y, {Full(y, 1, 2)}));
  }

  // ----- The foreign answer -----

  lemma {:induction false} Overwritten(x: Command, y: Command)
    ensures var n, msg := Deposed(x), Full(y, 1, 2).msg;
            && CanReceive(n, msg)
            && Receive(n, 2, msg).answers == [Answer(7, 2, Entry(2, Apply(y)), [y])]
  {
    var n, msg := Deposed(x), Full(y, 1, 2).msg;
    assert MatchLength(n.log, 1, msg.entries) == 0;
    assert Merge(n.log, 1, msg.entries) == NewLog(y);
    var a := n.(log := NewLog(y), commitIndex := 2);
    assert AppendEntries(AcceptLeader(n, msg), msg) == a;
    TwoApplied(a, y, 7);
  }

  /** The condition of `AnswersReportCommitted` is needed. A leader takes `x` at index 2, is deposed, and the next
      leader puts `y` there: the first client is told about `y`, because stepping down leaves its reply channel
      registered. */
  lemma {:induction false} DeposedLeaderAnswersForeignCommand(x: Command, y: Command)
    ensures exists states: seq<Cluster>, events: seq<Event> ::
              && IsRun(states, events) && 7 in states[|events|].h.accepted
              && states[|events|].h.accepted[7] == Acceptance(1, 1, 2, x)
              && Answer(7, 2, Entry(2, Apply(y)), [y]) in states[|events|].h.answers
  {
    Announces(x, y);
    Overwritten(x, y);
    var s, e := Announcing(x, y, {Full(y, 1, 2)}), Full(y, 1, 2);
    var out := Receive(s.one, 2, e.msg);
    var told := Answer(7, 2, Entry(2, Apply(y)), [y]);
    var t := s.(one := out.node, mail := {}, told := {told});
    assert told in Elems(out.answers);
    Delivers(s, e, t);
    var states: seq<Cluster>, events: seq<Event> :| IsRun(states, events) && Shows(states[|events|], t);
  }
}
