/** The Raft node as the program runs it: fields updated in place, loops over the log, messages put into
    an outbox, and the persistent state saved before anything that depends on it is sent. Each method is
    proved to do what the handler functions say. */
module RaftNode {
  import opened Collections
  import opened RaftTypes
  import Spec = RaftHandlers

  /** The followers that are known to hold the log up to index `j`. */
  ghost function Holders(matchIndex: map<NodeId, nat>, j: nat): (r: set<NodeId>)
    ensures forall p :: p in r <==> p in matchIndex && matchIndex[p] >= j
  {
    set p | p in matchIndex && matchIndex[p] >= j
  }

  class Process {
    const id: NodeId
    const peers: seq<NodeId>

    var currentTerm: Term
    var votedFor: Option<NodeId>
    var log: Log
    var role: Role
    var commitIndex: nat
    var lastApplied: nat
    var machine: seq<Command>
    var pending: map<nat, Ticket>

    var disk: Option<Persistent>
    var outbox: seq<Envelope>
    var answers: seq<Answer>

    ghost function State(): Node
      reads this
    {
      Node(id, peers, currentTerm, votedFor, log, role, commitIndex, lastApplied, machine, pending)
    }

    /** The storage holds exactly what a restart must restore. */
    ghost predicate Saved()
      reads this
    {
      match disk
      case None => Spec.Durable(State()) == Persistent(0, None, [GENESIS])
      case Some(p) => p == Spec.Durable(State())
    }

    /** `RaftNode::new`: a fresh node, or the one whose persistent state the storage holds. */
    constructor (id: NodeId, peerIds: seq<NodeId>, storage: Option<Persistent>)
      ensures disk == storage && Saved() && outbox == [] && answers == []
      ensures State() == match storage
                         case None => Spec.NewNode(id, peerIds)
                         case Some(p) => Spec.Restarted(Spec.NewNode(id, peerIds), p)
    {
      this.id := id;
      this.peers := Spec.Without(peerIds, id);
      role := Follower(None);
      commitIndex, lastApplied, machine, pending := 0, 0, [], map[];
      disk, outbox, answers := storage, [], [];
      match storage {
        case None =>
          currentTerm, votedFor, log := 0, None, [GENESIS];
        case Some(p) =>
          currentTerm, votedFor, log := p.term, p.votedFor, p.log;
      }
    }

    method PersistState()
      modifies this`disk
      ensures disk == Some(Persistent(currentTerm, votedFor, log)) && Saved()
    {
      disk := Some(Persistent(currentTerm, votedFor, log));
    }

    /** Nothing is sent before the state that it speaks of is saved. */
    method SendMessage(dst: NodeId, msg: Message)
      requires Saved()
      modifies this`outbox
      ensures outbox == old(outbox) + Spec.Reply(State(), dst, msg)
    {
      if dst in peers {
        outbox := outbox + [Envelope(id, dst, msg)];
      }
    }

    method BecomeFollower(term: Term)
      modifies this`currentTerm, this`votedFor, this`role, this`disk
      ensures State() == Spec.BecomeFollower(old(State()), term) && Saved()
      ensures role == Follower(None) && log == old(log) && pending == old(pending)
      ensures if term > old(currentTerm) then currentTerm == term && votedFor == None
              else currentTerm == old(currentTerm) && votedFor == old(votedFor)
    {
      if term > currentTerm {
        currentTerm := term;
        votedFor := None;
      }
      role := Follower(None);
      PersistState();
    }

    // ----- Loops -----

    /** The loop of `append_request`: entry by entry, cut at a conflict, push what is missing. */
    method AppendAll(prev: nat, entries: seq<Entry>)
      requires prev < |log|
      modifies this`log
      ensures log == Spec.Merge(old(log), prev + 1, entries)
    {
      ghost var k := Spec.MatchLength(log, prev + 1, entries);
      for i := 0 to |entries|
        invariant prev + 1 + i <= |log|
        invariant i <= k ==> log == old(log)
        invariant i > k ==> log == old(log)[..prev + 1 + k] + entries[k..i]
      {
        var index := prev + 1 + i;
        if index < |log| {
          if log[index].term != entries[i].term {
            log := log[..index];
            log := log + [entries[i]];
          }
        } else {
          log := log + [entries[i]];
        }
        assert i >= k ==> entries[k..i + 1] == entries[k..i] + [entries[i]];
      }
    }

    /** How many followers hold an entry: the inner count of `advance_commit`. */
    static method CountReplicas(matchIndex: map<NodeId, nat>, index: nat) returns (count: nat)
      ensures count == |Holders(matchIndex, index)|
    {
      count := 0;
      var rest := matchIndex.Keys;
      ghost var replicas := Holders(matchIndex, index);
      while rest != {}
        invariant rest <= matchIndex.Keys
        invariant count == |replicas - rest|
        decreases rest
      {
        var p :| p in rest;
        if matchIndex[p] >= index {
          assert replicas - (rest - {p}) == (replicas - rest) + {p};
          count := count + 1;
        } else {
          assert replicas - (rest - {p}) == replicas - rest;
        }
        rest := rest - {p};
      }
      assert replicas - {} == replicas;
    }

    /** An entry of the leader's term that a majority holds, the leader included. */
    ghost predicate Replicated(j: nat)
      requires role.Leader? && j < |log|
      reads this`role, this`log, this`currentTerm
    {
      && log[j].term == currentTerm
      && 2 * (|Holders(role.matchIndex, j)| + 1) > |peers| + 1
    }

    /** The leader and the followers that hold an entry are a majority. */
    method HeldByMajority(index: nat) returns (held: bool)
      requires role.Leader? && index < |log| && log[index].term == currentTerm
      ensures held <==> Replicated(index)
      ensures held <==> Spec.Committable(State(), index)
    {
      var replicated := CountReplicas(role.matchIndex, index);
      assert Holders(role.matchIndex, index) == Spec.Replicas(role.matchIndex, index);
      held := Spec.HasMajority(replicated + 1, |peers| + 1);
    }

    /** The scan of `advance_commit`, from the end of the log down to the commit index. */
    method ScanDown() returns (index: nat)
      requires role.Leader? && commitIndex < |log|
      ensures commitIndex <= index < |log| && (index > commitIndex ==> Replicated(index))
      ensures forall j :: index < j < |log| ==> !Replicated(j)
      ensures index == Spec.ScanDown(State(), |log| - 1)
    {
      index := |log| - 1;
      while index > commitIndex
        invariant commitIndex <= index < |log|
        invariant Spec.ScanDown(State(), index) == Spec.ScanDown(State(), |log| - 1)
        invariant forall j :: index < j < |log| ==> !Replicated(j)
      {
        if log[index].term == currentTerm {
          var held := HeldByMajority(index);
          if held {
            return;
          }
        }
        index := index - 1;
      }
    }

    method AdvanceCommit()
      requires commitIndex < |log|
      modifies this`commitIndex
      ensures State() == Spec.AdvanceCommit(old(State()))
      ensures !role.Leader? ==> commitIndex == old(commitIndex)
      ensures role.Leader? ==> forall j :: old(commitIndex) < j < |log| && Replicated(j) ==> j <= commitIndex
      ensures || commitIndex == old(commitIndex)
              || (role.Leader? && old(commitIndex) < commitIndex < |log| && Replicated(commitIndex))
    {
      if role.Leader? {
        commitIndex := ScanDown();
      }
    }

    /** Beyond the last applied index everybody waits who did. */
    ghost predicate WaitsOn(before: map<nat, Ticket>)
      reads this
    {
      forall i :: i > lastApplied ==> (i in pending <==> i in before) && (i in before ==> pending[i] == before[i])
    }

    method ApplyCommitted()
      requires commitIndex < |log|
      modifies this`lastApplied, this`machine, this`pending, this`answers
      ensures State() == Spec.ApplyCommitted(old(State()))
      ensures lastApplied >= commitIndex && WaitsOn(old(pending))
      ensures answers == old(answers) + Spec.ApplyAnswers(old(State()))
    {
      ApplyWaits(State());
      while lastApplied < commitIndex
        invariant Spec.ApplyCommitted(State()) == Spec.ApplyCommitted(old(State()))
        invariant answers + Spec.ApplyAnswers(State()) == old(answers) + Spec.ApplyAnswers(old(State()))
        decreases commitIndex - lastApplied
      {
        ghost var before := State();
        ghost var given := answers;
        ApplyNext();
        assert answers + Spec.ApplyAnswers(State()) == given + Spec.ApplyAnswers(before);
      }
    }

    /** One turn of the apply loop. */
    method ApplyNext()
      requires lastApplied < commitIndex < |log|
      modifies this`lastApplied, this`machine, this`pending, this`answers
      ensures State() == Spec.ApplyOne(old(State()))
      ensures WaitsOn(old(pending))
      ensures answers == old(answers) + Spec.AnswersOfOne(old(State()))
    {
      lastApplied := lastApplied + 1;
      match log[lastApplied].command {
        case NoOp =>
        case Apply(c) =>
          machine := machine + [c];
          if lastApplied in pending {
            answers := answers + [Answer(pending[lastApplied], lastApplied, log[lastApplied], machine)];
          }
          pending := pending - {lastApplied};
      }
    }

    method OnHeartbeat()
      requires role.Leader? && Spec.IndicesOk(State()) && Saved()
      modifies this`outbox
      ensures outbox == old(outbox) + Spec.Heartbeats(State())
    {
      ghost var all := Spec.Heartbeats(State());
      for i := 0 to |peers|
        invariant outbox == old(outbox) + all[..i]
      {
        assert peers[i] in peers;
        var next := role.nextIndex[peers[i]];
        SendMessage(peers[i], AppendRequest(currentTerm, id, next - 1, log[next - 1].term, log[next..], commitIndex));
        assert outbox == old(outbox) + all[..i] + [all[i]];
        assert all[..i + 1] == all[..i] + [all[i]];
      }
      assert all[..|peers|] == all;
    }

    method BroadcastVoteRequest()
      requires |log| > 0 && Saved()
      modifies this`outbox
      ensures outbox == old(outbox) + Spec.VoteRequests(State())
    {
      ghost var all := Spec.VoteRequests(State());
      for i := 0 to |peers|
        invariant outbox == old(outbox) + all[..i]
      {
        assert peers[i] in peers;
        SendMessage(peers[i], VoteRequest(currentTerm, id, |log| - 1, log[|log| - 1].term));
        assert outbox == old(outbox) + all[..i] + [all[i]];
        assert all[..i + 1] == all[..i] + [all[i]];
      }
      assert all[..|peers|] == all;
    }

    // ----- Handlers -----

    /** The node now is what a handler returned, and so are the messages and answers it added. */
    twostate predicate Did(out: Spec.Outcome)
      reads this
    {
      && State() == out.node
      && outbox == old(outbox) + out.sends
      && answers == old(answers) + out.answers
    }

    /** `advance_commit` and `apply_committed`, which always follow each other. */
    method SettleCommits()
      requires commitIndex < |log| && Saved()
      modifies this`commitIndex, this`lastApplied, this`machine, this`pending, this`answers
      ensures State() == Spec.SettleCommits(old(State())).node && Saved()
      ensures answers == old(answers) + Spec.SettleCommits(old(State())).answers
      ensures lastApplied >= commitIndex && WaitsOn(old(pending))
    {
      Spec.ApplyKeeps(Spec.AdvanceCommit(State()));
      AdvanceCommit();
      ApplyCommitted();
    }

    /** Append the leader's first entry and reset the indices of the followers. */
    method TakeLead()
      modifies this`log, this`role, this`disk
      ensures State() == Spec.TakeLead(old(State())) && Saved()
      ensures log == old(log) + [Entry(currentTerm, NoOp)] && role.Leader?
      ensures forall p :: p in peers ==> && p in role.nextIndex && role.nextIndex[p] == |log|
                                         && p in role.matchIndex && role.matchIndex[p] == 0
    {
      log := log + [Entry(currentTerm, NoOp)];
      var next := |log|;
      role := Leader(map p | p in peers :: next, map p | p in peers :: 0);
      PersistState();
    }

    method BecomeLeader()
      requires commitIndex < |log|
      modifies this
      ensures Did(Spec.BecomeLeader(old(State()))) && Saved()
      ensures role.Leader? && currentTerm == old(currentTerm) && log == old(log) + [Entry(currentTerm, NoOp)]
    {
      Spec.ApplyKeeps(Spec.AdvanceCommit(Spec.TakeLead(State())));
      TakeLead();
      SettleCommits();
      OnHeartbeat();
    }

    method StartCandidacy()
      modifies this`currentTerm, this`votedFor, this`role
      ensures State() == Spec.StartCandidacy(old(State()))
      ensures currentTerm == old(currentTerm) + 1 && votedFor == Some(id) && role == Candidate(1)
    {
      currentTerm := currentTerm + 1;
      votedFor := Some(id);
      role := Candidate(1);
    }

    method BecomeCandidate()
      requires commitIndex < |log|
      modifies this
      ensures Did(Spec.BecomeCandidate(old(State()))) && Saved()
    {
      StartCandidacy();
      if Spec.HasMajority(1, |peers| + 1) {
        BecomeLeader();
        return;
      }
      PersistState();
      BroadcastVoteRequest();
    }

    method AppendResponseReceived(from: NodeId, msg: Message)
      requires commitIndex < |log| && msg.AppendResponse? && Saved()
      modifies this
      ensures Did(Spec.OnAppendResponse(old(State()), from, msg)) && Saved()
      ensures msg.term < old(currentTerm) ==> State() == old(State())
      ensures msg.term > old(currentTerm) ==> currentTerm == msg.term && role == Follower(None)
      ensures msg.term == old(currentTerm) && old(role).Leader? ==>
                && role.Leader?
                && role.nextIndex == old(role).nextIndex[from := if msg.success then msg.matchIndex + 1
                                                                 else if msg.matchIndex > 1 then msg.matchIndex - 1
                                                                 else 1]
                && role.matchIndex == if msg.success then old(role).matchIndex[from := msg.matchIndex]
                                      else old(role).matchIndex
    {
      if msg.term < currentTerm {
        return;
      }
      if msg.term > currentTerm {
        BecomeFollower(msg.term);
        return;
      }
      if !role.Leader? {
        return;
      }
      ghost var recorded := Spec.RecordResponse(State(), from, msg);
      if msg.success {
        role := Leader(role.nextIndex[from := msg.matchIndex + 1], role.matchIndex[from := msg.matchIndex]);
      } else {
        var back := if msg.matchIndex <= 2 then 1 else msg.matchIndex - 1;
        role := role.(nextIndex := role.nextIndex[from := back]);
      }
      assert State() == recorded;
      SettleCommits();
    }

    /** Adopt the sender's term and remember the leader. */
    method AcceptLeader(msg: Message)
      requires msg.AppendRequest? && msg.term >= currentTerm && !(role.Leader? && msg.term == currentTerm) && Saved()
      modifies this`currentTerm, this`votedFor, this`role, this`disk
      ensures State() == Spec.AcceptLeader(old(State()), msg) && Saved()
    {
      if msg.term > currentTerm {
        BecomeFollower(msg.term);
      }
      if role.Candidate? && msg.term == currentTerm {
        BecomeFollower(msg.term);
      }
      if role.Follower? && role.leaderId == None {
        role := Follower(Some(msg.leaderId));
      }
    }

    /** Merge the entries and follow the leader's commit index, clamped to the log. */
    method AppendEntries(msg: Message)
      requires msg.AppendRequest? && Spec.LogMatches(State(), msg)
      modifies this`log, this`commitIndex, this`disk
      ensures State() == Spec.AppendEntries(old(State()), msg) && Saved()
    {
      AppendAll(msg.prevLogIndex, msg.entries);
      if msg.leaderCommit > commitIndex {
        commitIndex := if msg.leaderCommit < |log| - 1 then msg.leaderCommit else |log| - 1;
      }
      PersistState();
    }

    /** Take the entries of a request that matches the log. */
    method TakeEntries(from: NodeId, msg: Message)
      requires msg.AppendRequest? && Spec.LogMatches(State(), msg)
      requires commitIndex < |Spec.Merge(log, msg.prevLogIndex + 1, msg.entries)|
      modifies this
      ensures var a := Spec.AppendEntries(old(State()), msg);
              && a.commitIndex < |a.log|
              && State() == Spec.ApplyCommitted(a)
              && answers == old(answers) + Spec.ApplyAnswers(a)
              && outbox == old(outbox) + Spec.Reply(old(State()), from,
                   AppendResponse(old(currentTerm), msg.prevLogIndex + |msg.entries|, true))
      ensures Saved()
    {
      AppendEntries(msg);
      Spec.ApplyKeeps(State());
      ApplyCommitted();
      SendMessage(from, AppendResponse(currentTerm, msg.prevLogIndex + |msg.entries|, true));
    }

    /** The answer to an append request: the term of the node if the request is older, and otherwise the last index
        of the entries that it now holds, or the last index at which it could have matched. */
    static ghost function AppendAnswer(n: Node, msg: Message): Message
      requires msg.AppendRequest? && |n.log| > 0
    {
      if msg.term < n.term then AppendResponse(n.term, 0, false)
      else if msg.prevLogIndex >= |n.log| then AppendResponse(msg.term, |n.log| - 1, false)
      else if n.log[msg.prevLogIndex].term != msg.prevLogTerm then AppendResponse(msg.term, msg.prevLogIndex, false)
      else AppendResponse(msg.term, msg.prevLogIndex + |msg.entries|, true)
    }

    method AppendRequestReceived(from: NodeId, msg: Message)
      requires msg.AppendRequest? && Spec.CanReceive(State(), msg) && Saved()
      modifies this
      ensures Did(Spec.OnAppendRequest(old(State()), from, msg)) && Saved()
      ensures msg.term < old(currentTerm) ==> State() == old(State()) && answers == old(answers)
      ensures from in peers ==> outbox == old(outbox) + [Envelope(id, from, AppendAnswer(old(State()), msg))]
      ensures from !in peers ==> outbox == old(outbox)
    {
      if msg.term < currentTerm {
        SendMessage(from, AppendResponse(currentTerm, 0, false));
        return;
      }
      AcceptLeader(msg);
      if msg.prevLogIndex >= |log| {
        SendMessage(from, AppendResponse(currentTerm, |log| - 1, false));
        return;
      }
      if log[msg.prevLogIndex].term != msg.prevLogTerm {
        SendMessage(from, AppendResponse(currentTerm, msg.prevLogIndex, false));
        return;
      }
      TakeEntries(from, msg);
    }

    /** A vote is due: the request is not old, the node has not voted for another candidate in its term, and the
        candidate's last entry is of a later term, or of the same and not further down. */
    static ghost predicate Granted(n: Node, msg: Message)
      requires msg.VoteRequest? && |n.log| > 0
    {
      var t := n.log[|n.log| - 1].term;
      && msg.term >= n.term
      && (msg.term > n.term || n.votedFor == None || n.votedFor == Some(msg.candidateId))
      && (msg.lastLogTerm > t || (msg.lastLogTerm == t && msg.lastLogIndex + 1 >= |n.log|))
    }

    method VoteRequestReceived(from: NodeId, msg: Message)
      requires |log| > 0 && msg.VoteRequest? && Saved()
      modifies this
      ensures Did(Spec.OnVoteRequest(old(State()), from, msg)) && Saved()
      ensures msg.term < old(currentTerm) ==> State() == old(State())
      ensures msg.term >= old(currentTerm) ==>
                && currentTerm == msg.term
                && votedFor == if Granted(old(State()), msg) then Some(msg.candidateId)
                               else if msg.term > old(currentTerm) then None else old(votedFor)
      ensures outbox == if from in peers then
                          old(outbox) + [Envelope(id, from, VoteResponse(currentTerm, Granted(old(State()), msg)))]
                        else old(outbox)
    {
      if msg.term < currentTerm {
        SendMessage(from, VoteResponse(currentTerm, false));
        return;
      }
      if msg.term > currentTerm {
        BecomeFollower(msg.term);
      }
      var canVote := votedFor == None || votedFor == Some(msg.candidateId);
      var lastLogIndex := |log| - 1;
      var lastLogTerm := log[|log| - 1].term;
      var logUpToDate :=
        msg.lastLogTerm > lastLogTerm || (msg.lastLogTerm == lastLogTerm && msg.lastLogIndex >= lastLogIndex);
      if canVote && logUpToDate {
        votedFor := Some(msg.candidateId);
        PersistState();
        SendMessage(from, VoteResponse(currentTerm, true));
      } else {
        SendMessage(from, VoteResponse(currentTerm, false));
      }
    }

    method VoteResponseReceived(msg: Message)
      requires commitIndex < |log| && msg.VoteResponse? && Saved()
      modifies this
      ensures Did(Spec.OnVoteResponse(old(State()), msg)) && Saved()
      ensures msg.term < old(currentTerm) ==> State() == old(State())
      ensures msg.term > old(currentTerm) ==> currentTerm == msg.term && role == Follower(None)
      ensures msg.term == old(currentTerm) && old(role).Candidate? && msg.granted ==>
                if 2 * (old(role).votesReceived + 1) > |peers| + 1 then role.Leader?
                else role == Candidate(old(role).votesReceived + 1)
    {
      if msg.term < currentTerm {
        return;
      }
      if msg.term > currentTerm {
        BecomeFollower(msg.term);
        return;
      }
      if role.Candidate? && msg.granted {
        role := Candidate(role.votesReceived + 1);
        assert State() == Spec.CountVote(old(State()));
        assert Spec.HasMajority(role.votesReceived, |peers| + 1) <==> 2 * role.votesReceived > |peers| + 1;
        if Spec.HasMajority(role.votesReceived, |peers| + 1) {
          BecomeLeader();
        }
      }
    }

    method HandleMessage(from: NodeId, msg: Message)
      requires Spec.CanReceive(State(), msg) && Saved()
      modifies this
      ensures Did(Spec.Receive(old(State()), from, msg)) && Saved()
    {
      match msg {
        case AppendRequest(_, _, _, _, _, _) => AppendRequestReceived(from, msg);
        case AppendResponse(_, _, _) => AppendResponseReceived(from, msg);
        case VoteRequest(_, _, _, _) => VoteRequestReceived(from, msg);
        case VoteResponse(_, _) => VoteResponseReceived(msg);
      }
    }

    /** The command is the last entry. Everybody who waited still does, unless a command was applied at the index, and
        so does the new client. */
    ghost predicate Taken(n: Node, command: Command, ticket: Ticket)
      reads this
    {
      && log == n.log + [Entry(n.term, Apply(command))]
      && (forall i :: i in n.pending && i != |n.log| && i > lastApplied ==> i in pending && pending[i] == n.pending[i])
      && (|n.log| > lastApplied ==> |n.log| in pending && pending[|n.log|] == ticket)
    }

    /** `ClientCommands::Apply`: take the command if this node leads, otherwise say who might. */
    method ClientApply(command: Command, ticket: Ticket) returns (refusal: Option<Spec.Refusal>)
      requires Spec.Ready(State()) && Saved()
      modifies this
      ensures Did(Spec.ClientApply(old(State()), command, ticket)) && Saved()
      ensures old(role).Leader? ==> refusal == None && Taken(old(State()), command, ticket)
      ensures !old(role).Leader? ==> State() == old(State()) && outbox == old(outbox) && answers == old(answers)
      ensures old(role).Follower? && old(role).leaderId.Some? ==>
                refusal == Some(Spec.NotLeader(old(role).leaderId.value))
      ensures old(role).Candidate? || old(role) == Follower(None) ==> refusal == Some(Spec.NoLeader)
    {
      refusal := Spec.RequireLeader(role);
      if refusal.Some? {
        return;
      }
      ghost var taken := Spec.ClientAppend(State(), command, ticket);
      Spec.ApplyKeeps(Spec.AdvanceCommit(taken));
      var index := |log|;
      log := log + [Entry(currentTerm, Apply(command))];
      pending := pending[index := ticket];
      assert State() == taken;
      PersistState();
      SettleCommits();
      OnHeartbeat();
    }
  }

  /** Applying leaves those alone who wait further on. */
  lemma {:induction false} ApplyWaits(n: Node)
    requires n.commitIndex < |n.log|
    ensures var m := Spec.ApplyCommitted(n);
            && n.lastApplied <= m.lastApplied
            && forall i :: i > m.lastApplied ==>
                 (i in m.pending <==> i in n.pending) && (i in n.pending ==> m.pending[i] == n.pending[i])
    decreases n.commitIndex - n.lastApplied
  {
    if n.lastApplied < n.commitIndex {
      ApplyWaits(Spec.ApplyOne(n));
    }
  }
}
