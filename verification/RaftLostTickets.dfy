/** A run of three nodes in which two clients of a leader are never answered, although nothing crashes. The leader
    takes two commands, is deposed, loses its log to the next leader, is elected again, and takes a third command:
    at the first client's index it applies its own first entry, and at the second client's index the third client
    waits now. */
module RaftLostTickets {
  import opened Collections
  import opened RaftTypes
  import opened RaftHandlers
  import opened RaftHistory
  import opened RaftCluster
  import RaftLiveness
  import opened RaftTickets
  import opened RaftForeignAnswer

  // ----- Node 1 -----

  function One(term: Term, vote: Option<NodeId>, log: Log, role: Role, pending: map<nat, Ticket>): Node {
    Node(1, [2, 3], term, vote, log, role, 0, 0, [], pending)
  }

  const BOTH: map<nat, Ticket> := map[2 := 7, 3 := 8]

  function Leads(two: nat, three: nat): Role {
    Leader(map[2 := two, 3 := three], map[2 := 0, 3 := 0])
  }

  function TwoTaken(x: Command, y: Command): Node {
    One(1, Some(1), OldLog(x) + [Entry(1, Apply(y))], Leads(2, 2), BOTH)
  }

  /** Deposed, with the log `log`. */
  function Beaten(log: Log): Node {
    One(2, None, log, Follower(Some(2)), BOTH)
  }

  const CUT: Log := [GENESIS, Entry(2, NoOp)]

  function Again(): Node {
    One(3, Some(1), CUT + [Entry(3, NoOp)], Leads(3, 3), BOTH)
  }

  // ----- Node 2 -----

  function Second(next: nat): Node {
    SecondElectedNode().(role := Leader(map[1 := next, 3 := 2], map[1 := 0, 3 := 0]))
  }

  // ----- Messages -----

  const HEARTBEAT := Envelope(2, 1, AppendRequest(2, 2, 1, 2, [], 0))

  const WHOLE := Envelope(2, 1, AppendRequest(2, 2, 0, 0, [Entry(2, NoOp)], 0))

  const AGAIN := Envelope(1, 3, VoteRequest(3, 1, 1, 2))

  // ----- The run -----

  function Commands3(x: Command, y: Command): map<Ticket, Acceptance> {
    map[7 := Acceptance(1, 1, 2, x), 8 := Acceptance(1, 1, 3, y)]
  }

  function Seen(): set<Envelope> {
    {Ask(1, 1, 2), Grant(1, 2, 1)}
  }

  /** The first election is over, both commands are taken, and the second election is going on. */
  function Stage(x: Command, y: Command, one: Node, two: Node, three: Node, mail: set<Envelope>,
                 used: set<Envelope>): Scene {
    Scene(one, two, three, mail, used, Commands3(x, y), {})
  }

  lemma {:induction false} SecondCommand(x: Command, y: Command)
    ensures Reached(Stage(x, y, TwoTaken(x, y), Voter(2, [1, 3], 1, 1), Fresh(3, [1, 2]), {}, Seen()))
  {
    FirstTakes(x);
    var s := FirstTaken(x);
    TakesQuietly(s.one, y, 8);
    assert ClientAppend(s.one, y, 8) == TwoTaken(x, y);
    Takes(s, 1, y, 8, Stage(x, y, TwoTaken(x, y), s.two, s.three, {}, Seen()));
  }

  lemma {:induction false} SecondStandsAgainst(x: Command, y: Command)
    ensures Reached(Stage(x, y, TwoTaken(x, y), StartCandidacy(Voter(2, [1, 3], 1, 1)), Fresh(3, [1, 2]),
                          {Ask(2, 2, 3)}, Seen()))
  {
    SecondCommand(x, y);
    var n := Voter(2, [1, 3], 1, 1);
    Stands(n);
    assert VoteRequestTo(StartCandidacy(n), n.peers[1]) == Ask(2, 2, 3);
    TimesOut(Stage(x, y, TwoTaken(x, y), n, Fresh(3, [1, 2]), {}, Seen()), 2,
             Stage(x, y, TwoTaken(x, y), StartCandidacy(n), Fresh(3, [1, 2]), {Ask(2, 2, 3)}, Seen()));
  }

  lemma {:induction false} ThirdVotes(x: Command, y: Command)
    ensures Reached(Stage(x, y, TwoTaken(x, y), StartCandidacy(Voter(2, [1, 3], 1, 1)), Voter(3, [1, 2], 2, 2),
                          {Grant(2, 3, 2)}, Seen() + {Ask(2, 2, 3)}))
  {
    SecondStandsAgainst(x, y);
    var c := StartCandidacy(Voter(2, [1, 3], 1, 1));
    Votes(Fresh(3, [1, 2]), 2, 2);
    Delivers(Stage(x, y, TwoTaken(x, y), c, Fresh(3, [1, 2]), {Ask(2, 2, 3)}, Seen()), Ask(2, 2, 3),
             Stage(x, y, TwoTaken(x, y), c, Voter(3, [1, 2], 2, 2), {Grant(2, 3, 2)}, Seen() + {Ask(2, 2, 3)}));
  }

  /** Messages delivered before the third election. */
  function Before(): set<Envelope> {
    Seen() + {Ask(2, 2, 3)} + {Grant(2, 3, 2)}
  }

  /** Node 2 leads term 2, and the log of node 1 is being cut. */
  function Cutting(x: Command, y: Command, one: Node, next: nat, mail: set<Envelope>): Scene {
    Stage(x, y, one, Second(next), Voter(3, [1, 2], 2, 2), mail, Before())
  }

  lemma {:induction false} SecondLeads(x: Command, y: Command)
    ensures Reached(Cutting(x, y, TwoTaken(x, y), 2, {}))
  {
    ThirdVotes(x, y);
    var c := StartCandidacy(Voter(2, [1, 3], 1, 1));
    WinsSecond(c);
    Elects(Stage(x, y, TwoTaken(x, y), c, Voter(3, [1, 2], 2, 2), {Grant(2, 3, 2)}, Seen() + {Ask(2, 2, 3)}),
           Grant(2, 3, 2), Cutting(x, y, TwoTaken(x, y), 2, {}));
  }

  lemma {:induction false} SecondBeats(x: Command, y: Command)
    ensures Reached(Cutting(x, y, TwoTaken(x, y), 2, {HEARTBEAT}))
  {
    SecondLeads(x, y);
    var n := Second(2);
    Beats(n);
    assert n.log[2..] == [];
    assert AppendRequestTo(n, n.peers[0]) == HEARTBEAT;
    Sends(Cutting(x, y, TwoTaken(x, y), 2, {}), 2, Cutting(x, y, TwoTaken(x, y), 2, {HEARTBEAT}));
  }

  lemma {:induction false} FirstIsBeaten(x: Command, y: Command)
    ensures Reached(Cutting(x, y, Beaten(TwoTaken(x, y).log), 2, {Refused(1, 1)}))
  {
    SecondBeats(x, y);
    var n := TwoTaken(x, y);
    assert OnAppendRequest(n, 2, HEARTBEAT.msg) == Outcome(Beaten(n.log), [Refused(1, 1)], []);
    Delivers(Cutting(x, y, n, 2, {HEARTBEAT}), HEARTBEAT, Cutting(x, y, Beaten(n.log), 2, {Refused(1, 1)}));
  }

  lemma {:induction false} SecondBacksOff(x: Command, y: Command)
    ensures Reached(Cutting(x, y, Beaten(TwoTaken(x, y).log), 1, {}))
  {
    FirstIsBeaten(x, y);
    BacksOff(Second(2), 1, 1);
    assert map[1 := 2, 3 := 2][1 := 1] == map[1 := 1, 3 := 2];
    Delivers(Cutting(x, y, Beaten(TwoTaken(x, y).log), 2, {Refused(1, 1)}), Refused(1, 1),
             Cutting(x, y, Beaten(TwoTaken(x, y).log), 1, {}));
  }

  lemma {:induction false} SecondSendsWhole(x: Command, y: Command)
    ensures Reached(Cutting(x, y, Beaten(TwoTaken(x, y).log), 1, {WHOLE}))
  {
    SecondBacksOff(x, y);
    var n := Second(1);
    Beats(n);
    assert n.log[1..] == [Entry(2, NoOp)];
    assert AppendRequestTo(n, n.peers[0]) == WHOLE;
    Sends(Cutting(x, y, Beaten(TwoTaken(x, y).log), 1, {}), 2, Cutting(x, y, Beaten(TwoTaken(x, y).log), 1, {WHOLE}));
  }

  lemma {:induction false} Cuts(log: Log)
    requires |log| > 1 && log[0] == GENESIS && log[1].term == 1
    ensures CanReceive(Beaten(log), WHOLE.msg) && OnAppendRequest(Beaten(log), 2, WHOLE.msg).node == Beaten(CUT)
  {
    assert MatchLength(log, 1, WHOLE.msg.entries) == 0;
    assert log[..1] + WHOLE.msg.entries[0..] == CUT;
    assert Merge(log, 1, WHOLE.msg.entries) == CUT;
  }

  lemma {:induction false} FirstIsCut(x: Command, y: Command)
    ensures Reached(Cutting(x, y, Beaten(CUT), 1, {}))
  {
    SecondSendsWhole(x, y);
    var log := TwoTaken(x, y).log;
    assert log[1] == Entry(1, NoOp) && log[0] == GENESIS;
    Cuts(log);
    Delivers(Cutting(x, y, Beaten(log), 1, {WHOLE}), WHOLE, Cutting(x, y, Beaten(CUT), 1, {}));
  }

  lemma {:induction false} FirstStandsAgain(x: Command, y: Command)
    ensures Reached(Cutting(x, y, StartCandidacy(Beaten(CUT)), 1, {AGAIN}))
  {
    FirstIsCut(x, y);
    var n := Beaten(CUT);
    Stands(n);
    assert VoteRequestTo(StartCandidacy(n), n.peers[1]) == AGAIN;
    TimesOut(Cutting(x, y, n, 1, {}), 1, Cutting(x, y, StartCandidacy(n), 1, {AGAIN}));
  }

  function Third3(role: Role, log: Log): Node {
    Node(3, [1, 2], 3, Some(1), log, role, 0, 0, [], map[])
  }

  /** The third election is going on, or over. */
  function Ending(x: Command, y: Command, one: Node, mail: set<Envelope>, used: set<Envelope>): Scene {
    Stage(x, y, one, Second(1), Third3(Follower(None), [GENESIS]), mail, used)
  }

  lemma {:induction false} ThirdVotesAgain(x: Command, y: Command)
    ensures Reached(Ending(x, y, StartCandidacy(Beaten(CUT)), {Grant(3, 3, 1)}, Before() + {AGAIN}))
  {
    FirstStandsAgain(x, y);
    var n := Voter(3, [1, 2], 2, 2);
    assert OnVoteRequest(n, 1, AGAIN.msg) == Outcome(Third3(Follower(None), [GENESIS]), [Grant(3, 3, 1)], []);
    Delivers(Cutting(x, y, StartCandidacy(Beaten(CUT)), 1, {AGAIN}), AGAIN,
             Ending(x, y, StartCandidacy(Beaten(CUT)), {Grant(3, 3, 1)}, Before() + {AGAIN}));
  }

  function All(): set<Envelope> {
    Before() + {AGAIN} + {Grant(3, 3, 1)}
  }

  lemma {:induction false} FirstLeadsAgain(x: Command, y: Command)
    ensures Reached(Ending(x, y, Again(), {}, All()))
  {
    ThirdVotesAgain(x, y);
    var c := StartCandidacy(Beaten(CUT));
    WinsAgain(c);
    Elects(Ending(x, y, c, {Grant(3, 3, 1)}, Before() + {AGAIN}), Grant(3, 3, 1), Ending(x, y, Again(), {}, All()));
  }

  lemma {:induction false} WinsAgain(c: Node)
    requires c == StartCandidacy(Beaten(CUT))
    ensures Elected(c) == Again()
  {
  }

  // ----- The second client is lost -----

  /** A leader that takes a command at an index at which a client waits. */
  lemma {:induction false} Replacing(states: seq<Cluster>, events: seq<Event>, id: NodeId, command: Command,
                                     ticket: Ticket)
    returns (ss: seq<Cluster>, es: seq<Event>)
    requires IsRun(states, events) && id in states[|events|].nodes && states[|events|].nodes[id].role.Leader?
    requires |states[|events|].nodes[id].log| in states[|events|].nodes[id].pending
    requires ticket !in states[|events|].h.accepted
    ensures IsRun(ss, es)
    ensures var c, d := states[|events|], ss[|es|];
            var n := c.nodes[id];
            && d.h.accepted == c.h.accepted[ticket := Acceptance(n.id, n.term, |n.log|, command)]
            && Stranded(d, n.pending[|n.log|])
  {
    var c, ev := states[|events|], Client(id, command, ticket);
    RunOk(states, events, |events|);
    RunTickets(states, events, |events|);
    var d := RaftLiveness.TakeStep(c, ev);
    LosingStrands(c, ev, d, id, |c.nodes[id].log|);
    TicketFacts(c.h, c.nodes[id], ev);
    RunOn(states, events, ev, d);
    ss, es := states + [d], events + [ev];
  }

  /** The third command takes the place of the second: its client is never answered, whatever happens. */
  lemma {:induction false} SecondClientIsStranded(x: Command, y: Command, z: Command)
    ensures exists states: seq<Cluster>, events: seq<Event> ::
              && IsRun(states, events) && states[|events|].h.accepted == Commands3(x, y)[9 := Acceptance(1, 3, 3, z)]
              && Stranded(states[|events|], 8)
  {
    FirstLeadsAgain(x, y);
    var states: seq<Cluster>, events: seq<Event> :|
      IsRun(states, events) && Shows(states[|events|], Ending(x, y, Again(), {}, All()));
    var ss, es := Replacing(states, events, 1, z, 9);
  }

  // ----- The first client is forgotten -----

  function LastLog(z: Command): Log {
    CUT + [Entry(3, NoOp), Entry(3, Apply(z))]
  }

  function LastLeader(z: Command, next: nat): Node {
    One(3, Some(1), LastLog(z), Leads(3, next), map[2 := 7, 3 := 9])
  }

  function Done(z: Command): Node {
    Node(1, [2, 3], 3, Some(1), LastLog(z), Leader(map[2 := 3, 3 := 4], map[2 := 0, 3 := 3]), 3, 3, [z], map[2 := 7])
  }

  /** The third command is taken. */
  function Last(x: Command, y: Command, z: Command, one: Node, three: Node, mail: set<Envelope>): Scene {
    Scene(one, Second(1), three, mail, All(), Commands3(x, y)[9 := Acceptance(1, 3, 3, z)], {})
  }

  function Tail(z: Command): Envelope {
    Envelope(1, 3, AppendRequest(3, 1, 2, 3, [Entry(3, Apply(z))], 0))
  }

  function Everything(z: Command): Envelope {
    Envelope(1, 3, AppendRequest(3, 1, 0, 0, [Entry(2, NoOp), Entry(3, NoOp), Entry(3, Apply(z))], 0))
  }

  const NO := Envelope(3, 1, AppendResponse(3, 0, false))

  const YES := Envelope(3, 1, AppendResponse(3, 3, true))

  lemma {:induction false} TakesThird(z: Command)
    ensures Ready(Again()) && ClientApply(Again(), z, 9).node == LastLeader(z, 3)
    ensures Tail(z) in ClientApply(Again(), z, 9).sends
  {
    var n, m := Again(), LastLeader(z, 3);
    TakesQuietly(n, z, 9);
    assert ClientAppend(n, z, 9) == m;
    assert m.log[3..] == [Entry(3, Apply(z))];
    assert AppendRequestTo(m, n.peers[1]) == Tail(z);
  }

  lemma {:induction false} ThirdTaken(x: Command, y: Command, z: Command)
    ensures Reached(Last(x, y, z, LastLeader(z, 3), Third3(Follower(None), [GENESIS]), {Tail(z)}))
  {
    FirstLeadsAgain(x, y);
    TakesThird(z);
    Takes(Ending(x, y, Again(), {}, All()), 1, z, 9,
          Last(x, y, z, LastLeader(z, 3), Third3(Follower(None), [GENESIS]), {Tail(z)}));
  }

  lemma {:induction false} ThirdSaysNo(x: Command, y: Command, z: Command)
    ensures Reached(Last(x, y, z, LastLeader(z, 3), Third3(Follower(Some(1)), [GENESIS]), {NO}))
  {
    ThirdTaken(x, y, z);
    var n, m := Third3(Follower(None), [GENESIS]), Third3(Follower(Some(1)), [GENESIS]);
    assert OnAppendRequest(n, 1, Tail(z).msg) == Outcome(m, [NO], []);
    Delivers(Last(x, y, z, LastLeader(z, 3), n, {Tail(z)}), Tail(z), Last(x, y, z, LastLeader(z, 3), m, {NO}));
  }

  lemma {:induction false} FirstBacksOff(x: Command, y: Command, z: Command)
    ensures Reached(Last(x, y, z, LastLeader(z, 1), Third3(Follower(Some(1)), [GENESIS]), {}))
  {
    ThirdSaysNo(x, y, z);
    var m := Third3(Follower(Some(1)), [GENESIS]);
    BacksOff(LastLeader(z, 3), 3, 0);
    assert map[2 := 3, 3 := 3][3 := 1] == map[2 := 3, 3 := 1];
    Delivers(Last(x, y, z, LastLeader(z, 3), m, {NO}), NO, Last(x, y, z, LastLeader(z, 1), m, {}));
  }

  lemma {:induction false} FirstSendsAll(x: Command, y: Command, z: Command)
    ensures Reached(Last(x, y, z, LastLeader(z, 1), Third3(Follower(Some(1)), [GENESIS]), {Everything(z)}))
  {
    FirstBacksOff(x, y, z);
    var n, m := LastLeader(z, 1), Third3(Follower(Some(1)), [GENESIS]);
    Beats(n);
    assert n.log[1..] == [Entry(2, NoOp), Entry(3, NoOp), Entry(3, Apply(z))];
    assert AppendRequestTo(n, n.peers[1]) == Everything(z);
    Sends(Last(x, y, z, n, m, {}), 1, Last(x, y, z, n, m, {Everything(z)}));
  }

  lemma {:induction false} TakesEverything(z: Command)
    ensures var n, msg := Third3(Follower(Some(1)), [GENESIS]), Everything(z).msg;
            && CanReceive(n, msg)
            && OnAppendRequest(n, 1, msg) == Outcome(Third3(Follower(Some(1)), LastLog(z)), [YES], [])
  {
    assert Merge([GENESIS], 1, Everything(z).msg.entries) == LastLog(z);
  }

  lemma {:induction false} ThirdSaysYes(x: Command, y: Command, z: Command)
    ensures Reached(Last(x, y, z, LastLeader(z, 1), Third3(Follower(Some(1)), LastLog(z)), {YES}))
  {
    FirstSendsAll(x, y, z);
    TakesEverything(z);
    Delivers(Last(x, y, z, LastLeader(z, 1), Third3(Follower(Some(1)), [GENESIS]), {Everything(z)}), Everything(z),
             Last(x, y, z, LastLeader(z, 1), Third3(Follower(Some(1)), LastLog(z)), {YES}));
  }

  lemma {:induction false} AppliesThree(a: Node, z: Command)
    requires a.log == LastLog(z) && a.commitIndex == 3 && a.lastApplied == 0 && a.machine == []
    requires a.pending == map[2 := 7, 3 := 9]
    ensures ApplyCommitted(a) == a.(lastApplied := 3, machine := [z], pending := map[2 := 7])
  {
    var b := ApplyOne(a);
    var c := ApplyOne(b);
    var d := ApplyOne(c);
    assert b == a.(lastApplied := 1) && c == a.(lastApplied := 2);
    assert [] + [z] == [z] && map[2 := 7, 3 := 9] - {3} == map[2 := 7];
    assert d == a.(lastApplied := 3, machine := [z], pending := map[2 := 7]);
    assert ApplyCommitted(d) == d;
    assert ApplyCommitted(c) == d && ApplyCommitted(b) == d;
  }

  lemma {:induction false} CommitsThree(z: Command)
    ensures OnAppendResponse(LastLeader(z, 1), 3, YES.msg).node == Done(z)
  {
    var n := RecordResponse(LastLeader(z, 1), 3, YES.msg);
    assert map[2 := 3, 3 := 1][3 := 4] == map[2 := 3, 3 := 4] && map[2 := 0, 3 := 0][3 := 3] == map[2 := 0, 3 := 3];
    assert Replicas(n.role.matchIndex, 3) == {3};
    assert Committable(n, 3);
    assert AdvanceCommit(n) == n.(commitIndex := 3);
    AppliesThree(AdvanceCommit(n), z);
  }

  lemma {:induction false} AllCommitted(x: Command, y: Command, z: Command)
    ensures Reached(Last(x, y, z, Done(z), Third3(Follower(Some(1)), LastLog(z)), {}))
  {
    ThirdSaysYes(x, y, z);
    CommitsThree(z);
    Delivers(Last(x, y, z, LastLeader(z, 1), Third3(Follower(Some(1)), LastLog(z)), {YES}), YES,
             Last(x, y, z, Done(z), Third3(Follower(Some(1)), LastLog(z)), {}));
  }

  /** The leader has applied its own first entry at the index of the first client, who was not answered, and by
      `TicketFate` never will be. */
  lemma {:induction false} FirstClientIsForgotten(x: Command, y: Command, z: Command)
    ensures exists states: seq<Cluster>, events: seq<Event> ::
              && IsRun(states, events) && 1 in states[|events|].nodes
              && var n := states[|events|].nodes[1];
                 && 7 in states[|events|].h.accepted && states[|events|].h.accepted[7] == Acceptance(1, 1, 2, x)
                 && n.lastApplied == 3 && n.log == LastLog(z) && n.pending == map[2 := 7]
                 && forall a :: a in states[|events|].h.answers ==> a.ticket != 7
  {
    AllCommitted(x, y, z);
    var states: seq<Cluster>, events: seq<Event> :| IsRun(states, events) &&
      Shows(states[|events|], Last(x, y, z, Done(z), Third3(Follower(Some(1)), LastLog(z)), {}));
    RunTickets(states, events, |events|);
    assert WaitsRightly(states[|events|], 1, 2);
  }
}
